/**
 * The option pricer (src/options_hedge/option_pricer.py): a premium comes
 * from a WRDS quote table when one is loaded and a quote matches, and from
 * the synthetic estimate otherwise.  The quote table is a sequence of rows;
 * dates are day numbers.
 */
module OptionPricer {
  import opened Wrappers
  import Strategies

  const DefaultStrikeTolerance: real := 0.05
  const DefaultExpiryToleranceDays: int := 7
  /** The synthetic strike ratios offered when no WRDS strikes are available. */
  const FallbackStrikes: seq<real> := [0.50, 0.60, 0.70, 0.80, 0.90, 0.95, 1.00]
  /** Put strike ratios above this are not offered. */
  const PutRatioCap: real := 1.05

  /** One WRDS option row. */
  datatype Quote = Quote(date: int, exdate: int, strikePrice: real, bestBid: real, bestOffer: real, cpFlag: string)

  /** The exceptions the constructor catches when loading the encrypted table. */
  datatype LoadError = ImportFailed | FileNotFound | BadValue

  function Abs(x: real): real
  {
    if x < 0.0 then -x else x
  }

  predicate StrictlyIncreasing(s: seq<real>)
  {
    forall i, j :: 0 <= i < j < |s| ==> s[i] < s[j]
  }

  /** The elements of s that satisfy keep, in their original order. */
  function Filter<T(!new)>(s: seq<T>, keep: T -> bool): (r: seq<T>)
    ensures |r| <= |s|
    ensures forall x :: x in r <==> x in s && keep(x)
  {
    if s == [] then []
    else
      assert s == [s[0]] + s[1..];
      if keep(s[0]) then [s[0]] + Filter(s[1..], keep) else Filter(s[1..], keep)
  }

  /** Filtering keeps a strictly increasing sequence strictly increasing. */
  lemma {:induction false} FilterKeepsIncreasing(s: seq<real>, keep: real -> bool)
    requires StrictlyIncreasing(s)
    ensures StrictlyIncreasing(Filter(s, keep))
  {
    if s != [] {
      FilterKeepsIncreasing(s[1..], keep);
      var rest := Filter(s[1..], keep);
      if keep(s[0]) {
        var r := [s[0]] + rest;
        forall i, j | 0 <= i < j < |r|
          ensures r[i] < r[j]
        {
          if i == 0 {
            assert r[j] == rest[j - 1] && rest[j - 1] in rest;
            var k :| 0 <= k < |s[1..]| && s[1..][k] == r[j];
            assert s[k + 1] == r[j];
          }
        }
      }
    }
  }

  /** The row's expiry is within tolDays of the wanted expiry, bounds included. */
  predicate ExpiryWithin(q: Quote, expiry: int, tolDays: int)
  {
    expiry - tolDays <= q.exdate <= expiry + tolDays
  }

  /** The row's strike is within the relative tolerance of the wanted strike, bounds included. */
  predicate StrikeWithin(q: Quote, strike: real, tolerance: real)
  {
    strike * (1.0 - tolerance) <= q.strikePrice <= strike * (1.0 + tolerance)
  }

  /** A row eligible as a quote for the wanted put: same date, near expiry, near strike.  The call/put flag plays no part. */
  predicate Matches(q: Quote, strike: real, date: int, expiry: int, tolerance: real, tolDays: int)
  {
    q.date == date && ExpiryWithin(q, expiry, tolDays) && StrikeWithin(q, strike, tolerance)
  }

  /** The rows quoted on the date. */
  function OnDate(rows: seq<Quote>, date: int): (r: seq<Quote>)
    ensures forall q :: q in r <==> q in rows && q.date == date
  {
    Filter(rows, (q: Quote) => q.date == date)
  }

  /** The rows whose expiry is within the window. */
  function NearExpiry(rows: seq<Quote>, expiry: int, tolDays: int): (r: seq<Quote>)
    ensures forall q :: q in r <==> q in rows && ExpiryWithin(q, expiry, tolDays)
  {
    Filter(rows, (q: Quote) => ExpiryWithin(q, expiry, tolDays))
  }

  /** The rows whose strike is within the window. */
  function NearStrike(rows: seq<Quote>, strike: real, tolerance: real): (r: seq<Quote>)
    ensures forall q :: q in r <==> q in rows && StrikeWithin(q, strike, tolerance)
  {
    Filter(rows, (q: Quote) => StrikeWithin(q, strike, tolerance))
  }

  /** The rows quoted on the date with the given call/put flag. */
  function OnDateWithFlag(rows: seq<Quote>, date: int, cpFlag: string): (r: seq<Quote>)
    ensures forall q :: q in r <==> q in rows && q.date == date && q.cpFlag == cpFlag
  {
    Filter(rows, (q: Quote) => q.date == date && q.cpFlag == cpFlag)
  }

  /** The quotes a put match is chosen from, in table order. */
  function Candidates(rows: seq<Quote>, strike: real, date: int, expiry: int, tolerance: real, tolDays: int)
    : (c: seq<Quote>)
    ensures forall q :: q in c <==> q in rows && Matches(q, strike, date, expiry, tolerance, tolDays)
  {
    NearStrike(NearExpiry(OnDate(rows, date), expiry, tolDays), strike, tolerance)
  }

  /** How far the row's strike is from the wanted one. */
  function Distance(q: Quote, strike: real): real
  {
    Abs(q.strikePrice - strike)
  }

  /** Row i's strike is nearest the wanted one, and no earlier row's is as near. */
  predicate IsFirstNearest(rows: seq<Quote>, i: int, strike: real)
  {
    0 <= i < |rows|
    && (forall j :: 0 <= j < |rows| ==> Distance(rows[i], strike) <= Distance(rows[j], strike))
    && (forall j :: 0 <= j < i ==> Distance(rows[j], strike) > Distance(rows[i], strike))
  }

  /** The first row whose strike is nearest the wanted one (pandas nsmallest keeps the first of equals). */
  function Nearest(rows: seq<Quote>, strike: real): (i: nat)
    requires |rows| > 0
    ensures IsFirstNearest(rows, i, strike)
  {
    if |rows| == 1 then 0
    else
      var front := rows[..|rows| - 1];
      var k := Nearest(front, strike);
      if Distance(rows[|rows| - 1], strike) < Distance(rows[k], strike) then |rows| - 1 else k
  }

  /** The bid/offer mid-price as a fraction of spot. */
  function MidOverSpot(q: Quote, spot: real): real
    requires spot != 0.0
  {
    (q.bestBid + q.bestOffer) / 2.0 / spot
  }

  /**
   * _match_wrds_option on a loaded table: narrow the rows to the date, then
   * to the expiry window, then to the strike window, giving up when a stage
   * leaves nothing; of what is left, price the row nearest the strike.  A
   * match exists exactly when some row matches on all three counts; the
   * result is the mid-price over spot of the first nearest matching row.
   */
  function Match(rows: seq<Quote>, strike: real, spot: real, date: int, expiry: int, tolerance: real, tolDays: int)
    : (r: Option<real>)
    ensures r.Some? <==> spot != 0.0 && exists q :: q in rows && Matches(q, strike, date, expiry, tolerance, tolDays)
    ensures r.Some? ==>
              var c := Candidates(rows, strike, date, expiry, tolerance, tolDays);
              exists i :: IsFirstNearest(c, i, strike) && r.value == MidOverSpot(c[i], spot)
  {
    var onDate := OnDate(rows, date);
    var nearExpiry := NearExpiry(onDate, expiry, tolDays);
    var nearStrike := NearStrike(nearExpiry, strike, tolerance);
    if onDate == [] || nearExpiry == [] || nearStrike == [] || spot == 0.0 then
      assert nearStrike == [] || spot == 0.0 by {
        if nearExpiry == [] { assert forall q :: q !in nearStrike; }
        if onDate == [] { assert forall q :: q !in nearExpiry; assert forall q :: q !in nearStrike; }
      }
      None
    else
      assert nearStrike[0] in nearStrike;
      assert nearStrike == Candidates(rows, strike, date, expiry, tolerance, tolDays);
      var i := Nearest(nearStrike, strike);
      Some(MidOverSpot(nearStrike[i], spot))
  }

  /** With a zero strike tolerance only a row at exactly the wanted strike can match. */
  lemma ZeroToleranceMeansExactStrike(q: Quote, strike: real, date: int, expiry: int, tolDays: int)
    ensures Matches(q, strike, date, expiry, 0.0, tolDays) <==>
              q.date == date && ExpiryWithin(q, expiry, tolDays) && q.strikePrice == strike
  {
  }

  /** The strike-to-spot ratio of every row, in row order. */
  function StrikeRatios(rows: seq<Quote>, spot: real): (r: seq<real>)
    requires spot != 0.0
    ensures |r| == |rows| && forall i :: 0 <= i < |rows| ==> r[i] == rows[i].strikePrice / spot
  {
    seq(|rows|, i requires 0 <= i < |rows| => rows[i].strikePrice / spot)
  }

  /** x placed into a strictly increasing sequence, which already holding x leaves alone. */
  function Insert(s: seq<real>, x: real): (r: seq<real>)
    requires StrictlyIncreasing(s)
    ensures StrictlyIncreasing(r)
    ensures forall y :: y in r <==> y in s || y == x
  {
    if s == [] then [x]
    else if x < s[0] then [x] + s
    else if x == s[0] then s
    else
      var rest := Insert(s[1..], x);
      assert s == [s[0]] + s[1..];
      HeadBelowTail(s);
      ConsIncreasing(s[0], rest);
      [s[0]] + rest
  }

  /** The head of a strictly increasing sequence is below every later element. */
  lemma HeadBelowTail(s: seq<real>)
    requires |s| > 0 && StrictlyIncreasing(s)
    ensures forall y :: y in s[1..] ==> s[0] < y
  {
    forall y | y in s[1..]
      ensures s[0] < y
    {
      var k :| 0 <= k < |s[1..]| && s[1..][k] == y;
      assert s[k + 1] == y;
    }
  }

  /** A head below every element of a strictly increasing tail keeps it strictly increasing. */
  lemma ConsIncreasing(h: real, t: seq<real>)
    requires StrictlyIncreasing(t) && forall y :: y in t ==> h < y
    ensures StrictlyIncreasing([h] + t)
  {
    var r := [h] + t;
    forall i, j | 0 <= i < j < |r|
      ensures r[i] < r[j]
    {
      assert r[j] == t[j - 1] && t[j - 1] in t;
    }
  }

  /** The distinct values of xs in ascending order (numpy unique, then sorted). */
  function SortedDistinct(xs: seq<real>): (r: seq<real>)
    ensures StrictlyIncreasing(r)
    ensures forall y :: y in r <==> y in xs
  {
    if xs == [] then []
    else
      assert xs == xs[..|xs| - 1] + [xs[|xs| - 1]];
      Insert(SortedDistinct(xs[..|xs| - 1]), xs[|xs| - 1])
  }

  /** A row offered by get_available_strikes: same date and flag, expiry within the window. */
  predicate Listed(q: Quote, date: int, expiry: int, tolDays: int, cpFlag: string)
  {
    q.date == date && q.cpFlag == cpFlag && ExpiryWithin(q, expiry, tolDays)
  }

  /** A ratio kept for the flag: every ratio for calls, at most 1.05 for puts. */
  predicate KeptRatio(x: real, cpFlag: string)
  {
    cpFlag == "P" ==> x <= PutRatioCap
  }

  /** The fallback list is in ascending order. */
  lemma FallbackIncreasing()
    ensures StrictlyIncreasing(FallbackStrikes)
  {
    var f := FallbackStrikes;
    assert f[0] < f[1] < f[2] < f[3] < f[4] < f[5] < f[6];
  }

  /** The rows get_available_strikes draws on: same date and flag, expiry within the window. */
  function ListedRows(rows: seq<Quote>, date: int, expiry: int, tolDays: int, cpFlag: string): (r: seq<Quote>)
    ensures forall q :: q in r <==> q in rows && Listed(q, date, expiry, tolDays, cpFlag)
  {
    NearExpiry(OnDateWithFlag(rows, date, cpFlag), expiry, tolDays)
  }

  /** The distinct strike ratios of the rows, ascending, capped at 1.05 for puts. */
  function OfferedRatios(rows: seq<Quote>, spot: real, cpFlag: string): (r: seq<real>)
    requires spot != 0.0
    ensures StrictlyIncreasing(r)
    ensures forall x :: x in r <==> exists q :: q in rows && x == q.strikePrice / spot && KeptRatio(x, cpFlag)
  {
    var ratios := SortedDistinct(StrikeRatios(rows, spot));
    FilterKeepsIncreasing(ratios, (x: real) => x <= PutRatioCap);
    RatiosOfRows(rows, spot);
    if cpFlag == "P" then Filter(ratios, (x: real) => x <= PutRatioCap) else ratios
  }

  /** A value is a strike ratio of the rows exactly when some row has it. */
  lemma RatiosOfRows(rows: seq<Quote>, spot: real)
    requires spot != 0.0
    ensures forall x :: x in StrikeRatios(rows, spot) <==> exists q :: q in rows && x == q.strikePrice / spot
  {
    var sr := StrikeRatios(rows, spot);
    forall x | x in sr
      ensures exists q :: q in rows && x == q.strikePrice / spot
    {
      var i :| 0 <= i < |sr| && sr[i] == x;
      assert rows[i] in rows;
    }
    forall x | exists q :: q in rows && x == q.strikePrice / spot
      ensures x in sr
    {
      var q :| q in rows && x == q.strikePrice / spot;
      var i :| 0 <= i < |rows| && rows[i] == q;
      assert sr[i] == x;
    }
  }

  /**
   * get_available_strikes on a loaded table: the distinct strike ratios of
   * the listed rows, ascending, capped at 1.05 for puts; the fallback list
   * when that leaves nothing (or the spot is zero).
   */
  function AvailableStrikes(rows: seq<Quote>, date: int, spot: real, expiry: int, tolDays: int, cpFlag: string)
    : (r: seq<real>)
    ensures |r| > 0 && StrictlyIncreasing(r)
    ensures var offered := spot != 0.0 && exists q :: q in rows && Listed(q, date, expiry, tolDays, cpFlag)
                                                    && KeptRatio(q.strikePrice / spot, cpFlag);
            (offered ==> forall x :: x in r <==>
               exists q :: q in rows && Listed(q, date, expiry, tolDays, cpFlag) && x == q.strikePrice / spot
                           && KeptRatio(x, cpFlag))
            && (!offered ==> r == FallbackStrikes)
  {
    FallbackIncreasing();
    var onDate := OnDateWithFlag(rows, date, cpFlag);
    var nearExpiry := NearExpiry(onDate, expiry, tolDays);
    assert nearExpiry == ListedRows(rows, date, expiry, tolDays, cpFlag);
    if onDate == [] || nearExpiry == [] || spot == 0.0 then
      assert onDate == [] ==> forall q :: q !in nearExpiry;
      FallbackStrikes
    else
      var kept := OfferedRatios(nearExpiry, spot, cpFlag);
      if kept != [] then
        assert kept[0] in kept;
        kept
      else
        assert forall q :: q in nearExpiry ==> !KeptRatio(q.strikePrice / spot, cpFlag);
        FallbackStrikes
  }

  /** The earliest date of a non-empty table. */
  function FirstDate(rows: seq<Quote>): (d: int)
    requires |rows| > 0
    ensures exists q :: q in rows && q.date == d
    ensures forall q :: q in rows ==> d <= q.date
  {
    if |rows| == 1 then rows[0].date
    else
      var rest := FirstDate(rows[1..]);
      assert rows == [rows[0]] + rows[1..];
      if rows[0].date <= rest then rows[0].date else rest
  }

  /** The latest date of a non-empty table. */
  function LastDate(rows: seq<Quote>): (d: int)
    requires |rows| > 0
    ensures exists q :: q in rows && q.date == d
    ensures forall q :: q in rows ==> q.date <= d
  {
    if |rows| == 1 then rows[0].date
    else
      var rest := LastDate(rows[1..]);
      assert rows == [rows[0]] + rows[1..];
      if rows[0].date >= rest then rows[0].date else rest
  }

  /** The table's date range; an empty table's min and max are NaT. */
  datatype DateRange = DateRange(first: int, last: int) | NoDates

  /** The get_stats dictionary; the two WRDS entries are present only when WRDS data is in use. */
  datatype Stats = Stats(mode: string, strikeTolerance: real, expiryToleranceDays: int,
                         wrdsRows: Option<nat>, wrdsDateRange: Option<DateRange>)

  class OptionPricer {
    const useWrds: bool
    const wrdsData: Option<seq<Quote>>
    const strikeTolerance: real
    const expiryToleranceDays: int

    /** WRDS is in use exactly when a table is held. */
    predicate Valid()
    {
      useWrds <==> wrdsData.Some?
    }

    /**
     * A requested WRDS pricer takes the table given, or else the outcome of
     * loading the encrypted file; a failed load falls back to synthetic
     * pricing with no table.
     */
    constructor (useWrds: bool, wrdsData: Option<seq<Quote>>, strikeTolerance: real, expiryToleranceDays: int,
                 load: Result<seq<Quote>, LoadError>)
      ensures Valid()
      ensures this.strikeTolerance == strikeTolerance && this.expiryToleranceDays == expiryToleranceDays
      ensures !useWrds ==> !this.useWrds
      ensures useWrds && wrdsData.Some? ==> this.useWrds && this.wrdsData == wrdsData
      ensures useWrds && wrdsData.None? ==> (this.useWrds <==> load.Ok?)
      ensures useWrds && wrdsData.None? && load.Ok? ==> this.wrdsData == Some(load.value)
    {
      this.strikeTolerance := strikeTolerance;
      this.expiryToleranceDays := expiryToleranceDays;
      if useWrds {
        if wrdsData.None? {
          if load.Ok? {
            this.useWrds := true;
            this.wrdsData := Some(load.value);
          } else {
            this.useWrds := false;
            this.wrdsData := None;
          }
        } else {
          this.useWrds := true;
          this.wrdsData := wrdsData;
        }
      } else {
        this.useWrds := false;
        this.wrdsData := None;
      }
    }

    /** _match_wrds_option: no match without a table, else the match on the table. */
    function MatchWrdsOption(strike: real, spot: real, date: int, expiry: int): (r: Option<real>)
      ensures wrdsData.None? ==> r.None?
      ensures wrdsData.Some? ==> r == Match(wrdsData.value, strike, spot, date, expiry, strikeTolerance, expiryToleranceDays)
    {
      if wrdsData.None? then None
      else Match(wrdsData.value, strike, spot, date, expiry, strikeTolerance, expiryToleranceDays)
    }

    /**
     * get_put_premium: the matched WRDS premium when WRDS is in use and a
     * quote matches, else the synthetic estimate for the days to expiry.
     */
    function GetPutPremium(strike: real, spot: real, date: int, expiry: int, vix: real, timeFactor: real)
      : (r: Result<real, Strategies.PremiumError>)
      requires Strategies.IsTimeFactor(expiry - date, timeFactor)
      ensures var m := MatchWrdsOption(strike, spot, date, expiry);
              useWrds && m.Some? ==> r == Ok(m.value)
      ensures !useWrds || wrdsData.None? || MatchWrdsOption(strike, spot, date, expiry).None? ==>
                r == Strategies.EstimatePutPremium(strike, spot, expiry - date, vix, timeFactor)
    {
      var m := if useWrds && wrdsData.Some? then MatchWrdsOption(strike, spot, date, expiry) else None;
      if m.Some? then Ok(m.value)
      else Strategies.EstimatePutPremium(strike, spot, expiry - date, vix, timeFactor)
    }

    /** get_available_strikes: the fallback list unless WRDS is in use, else the table's strikes. */
    function GetAvailableStrikes(date: int, spot: real, expiry: int, cpFlag: string): (r: seq<real>)
      ensures |r| > 0 && StrictlyIncreasing(r)
      ensures !useWrds || wrdsData.None? ==> r == FallbackStrikes
      ensures useWrds && wrdsData.Some? ==>
                r == AvailableStrikes(wrdsData.value, date, spot, expiry, expiryToleranceDays, cpFlag)
    {
      FallbackIncreasing();
      if !useWrds || wrdsData.None? then FallbackStrikes
      else AvailableStrikes(wrdsData.value, date, spot, expiry, expiryToleranceDays, cpFlag)
    }

    /** get_stats: the mode reads "WRDS" exactly when WRDS is in use; table size and date range only then. */
    function GetStats(): (r: Stats)
      ensures r.mode == "WRDS" <==> useWrds
      ensures r.mode == "WRDS" || r.mode == "Synthetic"
      ensures r.strikeTolerance == strikeTolerance && r.expiryToleranceDays == expiryToleranceDays
      ensures r.wrdsRows.Some? <==> useWrds && wrdsData.Some?
      ensures r.wrdsRows.Some? ==> r.wrdsRows.value == |wrdsData.value|
      ensures r.wrdsDateRange.Some? <==> r.wrdsRows.Some?
      ensures r.wrdsDateRange.Some? && r.wrdsDateRange.value.DateRange? ==>
                var rows := wrdsData.value;
                (forall q :: q in rows ==> r.wrdsDateRange.value.first <= q.date <= r.wrdsDateRange.value.last)
                && (exists q :: q in rows && q.date == r.wrdsDateRange.value.first)
                && (exists q :: q in rows && q.date == r.wrdsDateRange.value.last)
      ensures r.wrdsDateRange == Some(NoDates) <==> useWrds && wrdsData == Some([])
    {
      var mode := if useWrds then "WRDS" else "Synthetic";
      if useWrds && wrdsData.Some? then
        var rows := wrdsData.value;
        var range := if rows == [] then NoDates else DateRange(FirstDate(rows), LastDate(rows));
        Stats(mode, strikeTolerance, expiryToleranceDays, Some(|rows|), Some(range))
      else
        Stats(mode, strikeTolerance, expiryToleranceDays, None, None)
    }
  }

  /** A pricer built without WRDS prices every put synthetically and offers the fallback strikes. */
  lemma SyntheticPricerUsesEstimate(p: OptionPricer, strike: real, spot: real, date: int, expiry: int, vix: real,
                                    timeFactor: real, cpFlag: string)
    requires p.Valid() && !p.useWrds && Strategies.IsTimeFactor(expiry - date, timeFactor)
    ensures p.GetPutPremium(strike, spot, date, expiry, vix, timeFactor)
            == Strategies.EstimatePutPremium(strike, spot, expiry - date, vix, timeFactor)
    ensures p.GetAvailableStrikes(date, spot, expiry, cpFlag) == FallbackStrikes
    ensures p.GetStats().mode == "Synthetic"
  {
  }
}
