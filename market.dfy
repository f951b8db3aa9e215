/**
 * Daily market data (src/options_hedge/market.py): the closing prices of one
 * ticker on its trading dates, the daily returns computed from them, and an
 * optional VIX series aligned to the same dates.  The download itself is an
 * input: the dates and closes it produced, and the VIX quotes keyed by date.
 */
module MarketData {
  import opened Wrappers

  datatype MarketError = DownloadFailed | DateNotInIndex | VixNotFetched | NoVixOnOrBefore

  // ------------------------------------------------------------- daily returns

  /** pct_change with the first day filled by 0.0 (a zero close is left out of this model). */
  function DailyReturns(closes: seq<real>): (r: seq<real>)
    ensures |r| == |closes|
    ensures |closes| > 0 ==> r[0] == 0.0
  {
    seq(|closes|, t requires 0 <= t < |closes| =>
      if t == 0 || closes[t - 1] == 0.0 then 0.0 else (closes[t] - closes[t - 1]) / closes[t - 1])
  }

  predicate AllPositive(s: seq<real>)
  {
    forall t :: 0 <= t < |s| ==> s[t] > 0.0
  }

  /** Compounding the returns of days 1..t from day 0's close. */
  function Compound(close0: real, rets: seq<real>, t: nat): real
    requires t < |rets|
  {
    if t == 0 then close0 else Compound(close0, rets, t - 1) * (1.0 + rets[t])
  }

  /** Each day's return carries the previous close to the current one. */
  lemma ReturnStepsToNextClose(closes: seq<real>, t: nat)
    requires AllPositive(closes) && 0 < t < |closes|
    ensures closes[t - 1] * (1.0 + DailyReturns(closes)[t]) == closes[t]
  {
    var p := closes[t - 1];
    var q := (closes[t] - p) / p;
    assert p * q == closes[t] - p;
  }

  /** The returns are a faithful encoding of the closes: compounding them from day 0 rebuilds every close. */
  lemma {:induction false} ReturnsRebuildCloses(closes: seq<real>, t: nat)
    requires AllPositive(closes) && t < |closes|
    ensures Compound(closes[0], DailyReturns(closes), t) == closes[t]
  {
    if t > 0 {
      ReturnsRebuildCloses(closes, t - 1);
      ReturnStepsToNextClose(closes, t);
    }
  }

  // ------------------------------------------------------------- VIX alignment

  /** reindex to the price dates: the VIX close on that date, or a missing value (NaN). */
  function Reindexed(dates: seq<int>, vix: map<int, real>): (r: seq<Option<real>>)
    ensures |r| == |dates|
    ensures forall i :: 0 <= i < |dates| ==> (r[i].Some? <==> dates[i] in vix)
    ensures forall i :: 0 <= i < |dates| && dates[i] in vix ==> r[i].value == vix[dates[i]]
  {
    seq(|dates|, i requires 0 <= i < |dates| => if dates[i] in vix then Some(vix[dates[i]]) else None)
  }

  /** ffill at position i: the nearest present value at or before i. */
  function FilledAt(s: seq<Option<real>>, i: nat): Option<real>
    requires i < |s|
  {
    if s[i].Some? then s[i] else if i == 0 then None else FilledAt(s, i - 1)
  }

  function ForwardFill(s: seq<Option<real>>): (r: seq<Option<real>>)
    ensures |r| == |s|
  {
    seq(|s|, i requires 0 <= i < |s| => FilledAt(s, i))
  }

  /**
   * Forward filling takes the value at the last present position k <= i, and
   * is missing exactly when no position up to i is present.
   */
  lemma {:induction false} FilledAtIsLastPresent(s: seq<Option<real>>, i: nat)
    requires i < |s|
    ensures FilledAt(s, i).None? <==> forall k :: 0 <= k <= i ==> s[k].None?
    ensures FilledAt(s, i).Some? ==>
              exists k :: 0 <= k <= i && s[k] == FilledAt(s, i) && forall j :: k < j <= i ==> s[j].None?
  {
    if s[i].Some? {
      assert 0 <= i <= i && s[i] == FilledAt(s, i);
    } else if i > 0 {
      FilledAtIsLastPresent(s, i - 1);
      if FilledAt(s, i).Some? {
        var k :| 0 <= k <= i - 1 && s[k] == FilledAt(s, i - 1) && forall j :: k < j <= i - 1 ==> s[j].None?;
        assert forall j :: k < j <= i ==> s[j].None?;
      }
    }
  }

  /** Filling never discards a value that is already present. */
  lemma FillKeepsPresent(s: seq<Option<real>>, i: nat)
    requires i < |s| && s[i].Some?
    ensures ForwardFill(s)[i] == s[i]
  {
  }

  // ------------------------------------------------------------- the market

  /** The last index position whose date is on or before `date`, if any. */
  function LastOnOrBefore(dates: seq<int>, date: int): (r: Option<nat>)
    ensures r.Some? ==> r.value < |dates| && dates[r.value] <= date
                        && forall j :: r.value < j < |dates| ==> dates[j] > date
    ensures r.None? <==> forall j :: 0 <= j < |dates| ==> dates[j] > date
  {
    if |dates| == 0 then None
    else if dates[|dates| - 1] <= date then Some(|dates| - 1)
    else LastOnOrBefore(dates[..|dates| - 1], date)
  }

  /** The first index position holding `date`, if any (a label lookup). */
  function IndexOf(dates: seq<int>, date: int): (r: Option<nat>)
    ensures r.Some? ==> r.value < |dates| && dates[r.value] == date
                        && forall j :: 0 <= j < r.value ==> dates[j] != date
    ensures r.None? <==> date !in dates
  {
    if |dates| == 0 then None
    else if dates[0] == date then Some(0)
    else
      var rest := IndexOf(dates[1..], date);
      assert forall j :: 1 <= j < |dates| ==> dates[j] == dates[1..][j - 1];
      if rest.None? then None else Some(rest.value + 1)
  }

  predicate Increasing(dates: seq<int>)
  {
    forall i, j :: 0 <= i < j < |dates| ==> dates[i] < dates[j]
  }

  /** One row of the market's frame: date, close, the computed return and the aligned VIX (None is NaN). */
  datatype Bar = Bar(date: int, close: real, dailyReturn: real, vix: Option<real>)

  /** The frame __post_init__ assembles from the download and the aligned VIX column. */
  function Frame(dates: seq<int>, closes: seq<real>, vix: seq<Option<real>>): (r: seq<Bar>)
    requires |dates| == |closes| == |vix|
    ensures |r| == |dates|
    ensures forall i :: 0 <= i < |r| ==> r[i].date == dates[i] && r[i].close == closes[i]
                                         && r[i].vix == vix[i]
    ensures forall i :: 0 <= i < |r| ==> r[i].dailyReturn == DailyReturns(closes)[i]
  {
    var rets := DailyReturns(closes);
    seq(|dates|, i requires 0 <= i < |dates| => Bar(dates[i], closes[i], rets[i], vix[i]))
  }

  function NoVix(n: nat): (r: seq<Option<real>>)
    ensures |r| == n && forall i :: 0 <= i < n ==> r[i].None?
  {
    seq(n, i => None)
  }

  class Market {
    /** The frame's rows in index order. */
    const rows: seq<Bar>
    /** Whether a non-empty VIX download was aligned into the rows. */
    const vixFetched: bool

    /**
     * __post_init__ after a non-empty download: compute the returns and,
     * when the VIX download is non-empty, reindex it to the trading dates
     * and forward-fill it.
     */
    constructor (dates: seq<int>, closes: seq<real>, vixDownload: Option<map<int, real>>)
      requires |dates| == |closes|
      ensures vixFetched <==> vixDownload.Some? && vixDownload.value != map[]
      ensures rows == Frame(dates, closes, if vixFetched then ForwardFill(Reindexed(dates, vixDownload.value))
                                           else NoVix(|dates|))
    {
      vixFetched := vixDownload.Some? && vixDownload.value != map[];
      var vix := if vixDownload.Some? && vixDownload.value != map[]
                 then ForwardFill(Reindexed(dates, vixDownload.value)) else NoVix(|dates|);
      rows := Frame(dates, closes, vix);
    }

    function Dates(): (r: seq<int>)
      ensures |r| == |rows| && forall i :: 0 <= i < |rows| ==> r[i] == rows[i].date
    {
      seq(|rows|, i requires 0 <= i < |rows| => rows[i].date)
    }

    /** get_price: the close at `date`, or the KeyError of a date not in the index. */
    function GetPrice(date: int): (r: Result<real, MarketError>)
      ensures r.Err? <==> date !in Dates()
      ensures r.Err? ==> r.error == DateNotInIndex
      ensures r.Ok? ==> exists i :: 0 <= i < |rows| && rows[i].date == date && r.value == rows[i].close
    {
      match IndexOf(Dates(), date)
      case None => Err(DateNotInIndex)
      case Some(i) => Ok(rows[i].close)
    }

    /**
     * get_vix: not fetched is an error; an indexed date gives its aligned value;
     * otherwise the value of the last index date before it, or an error when
     * there is none.
     */
    function GetVix(date: int): (r: Result<Option<real>, MarketError>)
    {
      if !vixFetched then Err(VixNotFetched)
      else
        match IndexOf(Dates(), date)
        case Some(i) => Ok(rows[i].vix)
        case None =>
          match LastOnOrBefore(Dates(), date)
          case None => Err(NoVixOnOrBefore)
          case Some(k) => Ok(rows[k].vix)
    }

    /** get_vix fails exactly when no series was fetched or every trading date lies after `date`. */
    lemma GetVixFailsIff(date: int)
      ensures GetVix(date).Err? <==> !vixFetched || forall j :: 0 <= j < |rows| ==> rows[j].date > date
      ensures !vixFetched ==> GetVix(date) == Err(VixNotFetched)
    {
      var dates := Dates();
      if vixFetched && IndexOf(dates, date).Some? {
        var i := IndexOf(dates, date).value;
        assert rows[i].date <= date;
      }
    }

    /** On a trading date get_vix reads that date's row. */
    lemma GetVixExactDate(date: int)
      requires vixFetched && date in Dates()
      ensures exists k :: 0 <= k < |rows| && rows[k].date == date && GetVix(date) == Ok(rows[k].vix)
    {
      var i := IndexOf(Dates(), date).value;
      assert rows[i].date == date;
    }

    /**
     * Whenever get_vix succeeds it reads the row of the latest trading date
     * on or before `date` (dates in increasing order, as the download is).
     */
    lemma GetVixReadsLatestOnOrBefore(date: int)
      requires Increasing(Dates()) && GetVix(date).Ok?
      ensures exists k :: 0 <= k < |rows| && rows[k].date <= date
                          && (forall j :: 0 <= j < |rows| && rows[j].date <= date ==> rows[j].date <= rows[k].date)
                          && GetVix(date).value == rows[k].vix
    {
      var dates := Dates();
      var k := if IndexOf(dates, date).Some? then IndexOf(dates, date).value
               else LastOnOrBefore(dates, date).value;
      assert rows[k].date <= date && GetVix(date).value == rows[k].vix;
      forall j | 0 <= j < |rows| && rows[j].date <= date
        ensures rows[j].date <= rows[k].date
      {
        if j > k {
          assert false;
        }
      }
    }
  }

  /** Market(...): an empty download is a ValueError; otherwise the market is built. */
  method NewMarket(dates: seq<int>, closes: seq<real>, vixDownload: Option<map<int, real>>)
    returns (r: Result<Market, MarketError>)
    requires |dates| == |closes|
    ensures r.Err? <==> |dates| == 0
    ensures r.Err? ==> r.error == DownloadFailed
    ensures r.Ok? ==> fresh(r.value) && |r.value.rows| == |dates|
                      && (r.value.vixFetched <==> vixDownload.Some? && vixDownload.value != map[])
                      && forall i :: 0 <= i < |dates| ==>
                           r.value.rows[i].date == dates[i] && r.value.rows[i].close == closes[i]
                           && r.value.rows[i].dailyReturn == DailyReturns(closes)[i]
  {
    if |dates| == 0 {
      return Err(DownloadFailed);
    }
    var m := new Market(dates, closes, vixDownload);
    return Ok(m);
  }
}
