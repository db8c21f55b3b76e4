/** The scripted spin results, one table per breakpoint, in the order the spins
    consume them. */
module Outcomes {

  import opened Wrappers
  import opened Layout

  datatype Kind = Loss | SmallWin | BigWin

  /** One predefined result: its type, payout, winning row per column (`null`
      is None; the whole line is None for a loss) and the icons of each column,
      top to bottom. */
  datatype Outcome = Outcome(
    kind: Kind,
    winAmount: int,
    winLine: Option<seq<Option<int>>>,
    result: seq<seq<int>>)

  const DesktopResults: seq<Outcome> := [
    Outcome(Loss, 0, None,
      [[2, 4, 1], [3, 5, 2], [1, 7, 4], [6, 2, 5], [4, 1, 3]]),
    Outcome(SmallWin, 50, Some([Some(1), Some(2), Some(1), None, None]),
      [[1, 3, 4], [7, 4, 3], [4, 3, 1], [2, 5, 4], [5, 6, 7]]),
    Outcome(BigWin, 150, Some([Some(0), Some(0), Some(1), Some(2), Some(2)]),
      [[8, 4, 7], [8, 6, 2], [3, 8, 1], [1, 4, 8], [5, 3, 8]])
  ]

  const MobileResults: seq<Outcome> := [
    Outcome(Loss, 0, None,
      [[4, 1, 7], [5, 2, 8], [7, 4, 3]]),
    Outcome(SmallWin, 50, Some([Some(1), Some(1), Some(1)]),
      [[2, 3, 5], [7, 3, 2], [4, 3, 8]]),
    Outcome(BigWin, 150, Some([Some(2), Some(1), Some(1)]),
      [[8, 5, 7], [3, 8, 6], [6, 8, 4]])
  ]

  /** `getResultsForCurrentBreakpoint`. */
  function ResultsFor(bp: Breakpoint): (results: seq<Outcome>)
    ensures |results| == ScriptSize
  {
    match bp
    case Desktop => DesktopResults
    case Mobile => MobileResults
  }

  /** An outcome fits a grid: one column of `rows` icons, each in 1..8, per
      column, a non-negative payout, and winning rows inside the window. */
  predicate FitsGrid(o: Outcome, cols: nat, rows: nat) {
    && |o.result| == cols
    && (forall c :: 0 <= c < cols ==> |o.result[c]| == rows)
    && (forall c, j :: 0 <= c < cols && 0 <= j < |o.result[c]| ==> 1 <= o.result[c][j] <= 8)
    && o.winAmount >= 0
    && (o.kind == Loss <==> o.winAmount == 0)
    && (o.winLine.Some? ==>
          |o.winLine.value| == cols &&
          forall c :: 0 <= c < cols && o.winLine.value[c].Some? ==> 0 <= o.winLine.value[c].value < rows)
  }

  predicate ScriptFits(results: seq<Outcome>, cols: nat, rows: nat) {
    forall k :: 0 <= k < |results| ==> FitsGrid(results[k], cols, rows)
  }

  /** Both tables hold three outcomes that fit their breakpoint's grid. */
  lemma TablesFit(bp: Breakpoint)
    ensures |ResultsFor(bp)| == 3
    ensures ScriptFits(ResultsFor(bp), ConfigFor(bp).cols, ConfigFor(bp).rows)
  {
    if bp == Desktop {
      DesktopTableFits();
    } else {
      MobileTableFits();
    }
  }

  lemma DesktopTableFits()
    ensures ScriptFits(DesktopResults, 5, 3)
  {
    forall k | 0 <= k < 3
      ensures FitsGrid(DesktopResults[k], 5, 3)
    {
      var o := DesktopResults[k];
      forall c, j | 0 <= c < 5 && 0 <= j < |o.result[c]|
        ensures 1 <= o.result[c][j] <= 8
      {
        DesktopIconsInRange(o.result, c);
      }
    }
  }

  /** The icons of column c of a table entry's grid are all 1..8. */
  lemma DesktopIconsInRange(grid: seq<seq<int>>, c: nat)
    requires grid in {DesktopResults[0].result, DesktopResults[1].result, DesktopResults[2].result}
    requires c < 5
    ensures forall j :: 0 <= j < |grid[c]| ==> 1 <= grid[c][j] <= 8
  {
    assert c == 0 || c == 1 || c == 2 || c == 3 || c == 4;
  }

  lemma MobileTableFits()
    ensures ScriptFits(MobileResults, 3, 3)
  {
    forall k | 0 <= k < 3
      ensures FitsGrid(MobileResults[k], 3, 3)
    {
      var o := MobileResults[k];
      forall c, j | 0 <= c < 3 && 0 <= j < |o.result[c]|
        ensures 1 <= o.result[c][j] <= 8
      {
        assert c == 0 || c == 1 || c == 2;
      }
    }
  }

  /** How many spins each table scripts. */
  const ScriptSize: nat := 3

  /** Each table scripts a loss, then a small win, then a big win. */
  lemma ScriptOrder(bp: Breakpoint)
    ensures ResultsFor(bp)[0].kind == Loss
    ensures ResultsFor(bp)[1].kind == SmallWin
    ensures ResultsFor(bp)[2].kind == BigWin
  {
  }

  /** Every outcome of a table has one column per reel of its breakpoint and
      pays out a non-negative amount. */
  lemma OutcomeColumns(bp: Breakpoint, k: nat)
    requires k < |ResultsFor(bp)|
    ensures |ResultsFor(bp)| == 3 && |ResultsFor(bp)[k].result| == ConfigFor(bp).cols
    ensures ResultsFor(bp)[k].winAmount >= 0
  {
    TablesFit(bp);
    assert FitsGrid(ResultsFor(bp)[k], ConfigFor(bp).cols, ConfigFor(bp).rows);
  }
}
