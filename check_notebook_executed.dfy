/**
 * The notebook-executed check (scripts/check_notebook_executed.py): a
 * notebook passes when it parses, has cells, and either has no code cells
 * or has at least one code cell with outputs.  Reading a file is outside
 * the model: a notebook arrives already parsed, and the file system is a
 * map from existing paths to their parse outcome.
 */
module NotebookCheck {

  /** One notebook cell; a missing "cell_type" reads as "" and missing "outputs" as none. */
  datatype Cell = Cell(cellType: string, outputs: seq<string>)

  /** What json.load made of the file. */
  datatype Parsed = InvalidJson | Notebook(cells: seq<Cell>)

  predicate IsCode(c: Cell)
  {
    c.cellType == "code"
  }

  predicate HasOutputs(c: Cell)
  {
    c.outputs != []
  }

  /** The code cells, in order. */
  function CodeCells(cells: seq<Cell>): (r: seq<Cell>)
    ensures forall c :: c in r <==> c in cells && IsCode(c)
  {
    if cells == [] then []
    else
      assert cells == [cells[0]] + cells[1..];
      (if IsCode(cells[0]) then [cells[0]] else []) + CodeCells(cells[1..])
  }

  /** The cells that have outputs, in order. */
  function WithOutputs(cells: seq<Cell>): (r: seq<Cell>)
    ensures forall c :: c in r <==> c in cells && HasOutputs(c)
  {
    if cells == [] then []
    else
      assert cells == [cells[0]] + cells[1..];
      (if HasOutputs(cells[0]) then [cells[0]] else []) + WithOutputs(cells[1..])
  }

  /**
   * check_notebook_has_outputs.  False for unparseable JSON and for a
   * notebook without cells; true for a notebook with no code cells; else
   * true exactly when some code cell has outputs, however few of them do.
   */
  function HasExecutedOutputs(nb: Parsed): (r: bool)
    ensures nb.InvalidJson? ==> !r
    ensures nb.Notebook? && nb.cells == [] ==> !r
    ensures nb.Notebook? && nb.cells != [] && (forall c :: c in nb.cells ==> !IsCode(c)) ==> r
    ensures nb.Notebook? && (exists c :: c in nb.cells && IsCode(c)) ==>
              (r <==> exists c :: c in nb.cells && IsCode(c) && HasOutputs(c))
  {
    if nb.InvalidJson? then false
    else if nb.cells == [] then false
    else
      var code := CodeCells(nb.cells);
      if code == [] then true
      else
        assert code[0] in code;
        var executed := WithOutputs(code);
        if executed == [] then false
        else
          assert executed[0] in executed;
          true
  }

  /** The pass/fail line printed for one path: it exists and its notebook passes. */
  predicate Passes(fs: map<string, Parsed>, path: string)
  {
    path in fs && HasExecutedOutputs(fs[path])
  }

  /**
   * main.  Usage error (exit 1) without a path; otherwise every path is
   * checked in order, with no stop at the first failure, and the exit code
   * is 0 exactly when every path exists and passes.
   */
  method CheckAll(argv: seq<string>, fs: map<string, Parsed>) returns (code: int, verdicts: seq<bool>)
    ensures |argv| < 2 ==> code == 1 && verdicts == []
    ensures |argv| >= 2 ==> |verdicts| == |argv| - 1
                            && (forall i :: 1 <= i < |argv| ==> verdicts[i - 1] == Passes(fs, argv[i]))
    ensures code == 0 || code == 1
    ensures code == 0 <==> |argv| >= 2 && forall i :: 1 <= i < |argv| ==> Passes(fs, argv[i])
  {
    if |argv| < 2 {
      return 1, [];
    }
    var allGood := true;
    verdicts := [];
    var i := 1;
    while i < |argv|
      invariant 1 <= i <= |argv| && |verdicts| == i - 1
      invariant forall k :: 1 <= k < i ==> verdicts[k - 1] == Passes(fs, argv[k])
      invariant allGood <==> forall k :: 1 <= k < i ==> Passes(fs, argv[k])
    {
      var path := argv[i];
      if path !in fs {
        allGood := false;
        verdicts := verdicts + [false];
      } else {
        var ok := HasExecutedOutputs(fs[path]);
        if !ok {
          allGood := false;
        }
        verdicts := verdicts + [ok];
      }
      i := i + 1;
    }
    code := if allGood then 0 else 1;
  }
}
