/** The bookkeeping around a spin: the bet list read from the bet buttons, the
    random payline patterns, and the timings of a spin and of a win's dwell. */
module Controls {

  import opened Wrappers
  import opened Layout
  import opened Outcomes

  // ---------------------------------------------------------------------------
  // Bet values
  // ---------------------------------------------------------------------------

  /** The bets used when no bet button holds a number. */
  const DefaultBets: seq<int> := [1, 5, 10, 20, 30]

  /** The numbers read from the buttons, in button order; `None` is a button
      whose text does not parse (`NaN`). */
  function ParsedBets(parsed: seq<Option<int>>): (bets: seq<int>)
    ensures |bets| <= |parsed|
    decreases |parsed|
  {
    if parsed == [] then []
    else
      var last := parsed[|parsed| - 1];
      ParsedBets(parsed[..|parsed| - 1]) + (if last.Some? then [last.value] else [])
  }

  /** A bet is read from the buttons exactly when some button holds it. */
  lemma {:induction false} ParsedBetsMembers(parsed: seq<Option<int>>, x: int)
    ensures x in ParsedBets(parsed) <==> Some(x) in parsed
    decreases |parsed|
  {
    if parsed != [] {
      var m := |parsed| - 1;
      ParsedBetsMembers(parsed[..m], x);
      assert parsed == parsed[..m] + [parsed[m]];
    }
  }

  /** No button holds a number exactly when the read list is empty. */
  lemma {:induction false} ParsedBetsEmpty(parsed: seq<Option<int>>)
    ensures ParsedBets(parsed) == [] <==> forall i :: 0 <= i < |parsed| ==> parsed[i].None?
    decreases |parsed|
  {
    if parsed != [] {
      var m := |parsed| - 1;
      ParsedBetsEmpty(parsed[..m]);
      forall i | 0 <= i < m ensures parsed[..m][i] == parsed[i] { }
    }
  }

  /** `getBetValuesFromButtons`: the parsed button values in order, or the
      default list when none parses. */
  method GetBetValuesFromButtons(parsed: seq<Option<int>>) returns (values: seq<int>)
    ensures values == if ParsedBets(parsed) != [] then ParsedBets(parsed) else DefaultBets
    ensures |values| > 0
  {
    var collected := [];
    for i := 0 to |parsed|
      invariant collected == ParsedBets(parsed[..i])
    {
      assert parsed[..i + 1][..i] == parsed[..i];
      if parsed[i].Some? {
        collected := collected + [parsed[i].value];
      }
    }
    assert parsed[..|parsed|] == parsed;
    values := if |collected| > 0 then collected else DefaultBets;
  }

  // ---------------------------------------------------------------------------
  // Payline patterns
  // ---------------------------------------------------------------------------

  /** The values of the Lines buttons, in the order their patterns are made. */
  const LineValues: seq<int> := [100, 80, 60, 40, 20]

  /** How many random lines each value gets: a fifth of the value. */
  function LineCount(t: nat): nat
    requires t < |LineValues|
  {
    [20, 16, 12, 8, 4][t]
  }

  lemma LineCountIsFifth(t: nat)
    requires t < |LineValues|
    ensures LineCount(t) * 5 == LineValues[t]
  {
  }

  /** Draws for `count` lines of `cols` columns. */
  predicate LineDraws(draws: seq<seq<real>>, count: nat, cols: nat) {
    && |draws| == count
    && (forall i :: 0 <= i < count ==> |draws[i]| == cols)
    && (forall i, j :: 0 <= i < count && 0 <= j < |draws[i]| ==> 0.0 <= draws[i][j] < 1.0)
  }

  /** Draws for all five patterns, in the order of `LineValues`. */
  predicate PatternDraws(draws: seq<seq<seq<real>>>, cols: nat) {
    |draws| == |LineValues| &&
    forall t :: 0 <= t < |LineValues| ==> LineDraws(draws[t], LineCount(t), cols)
  }

  /** Every line has one row per column, inside the window. */
  predicate LinesFit(lines: seq<seq<int>>, cols: nat, rows: nat) {
    forall i :: 0 <= i < |lines| ==>
      |lines[i]| == cols && forall j :: 0 <= j < cols ==> 0 <= lines[i][j] < rows
  }

  /** `generateRandomLines`: `count` lines, entry j of line i being
      `Math.floor(draw * rows)` for the draw taken at that step. */
  method GenerateRandomLines(count: nat, cfg: Config, draws: seq<seq<real>>) returns (lines: seq<seq<int>>)
    requires cfg == ConfigFor(cfg.breakpoint)
    requires LineDraws(draws, count, cfg.cols)
    ensures |lines| == count && LinesFit(lines, cfg.cols, cfg.rows)
    ensures forall i, j :: 0 <= i < count && 0 <= j < cfg.cols ==>
              lines[i][j] == RandomIndex(draws[i][j], cfg.rows)
  {
    var rows, cols := cfg.rows, cfg.cols;
    lines := [];
    for i := 0 to count
      invariant |lines| == i && LinesFit(lines, cols, rows)
      invariant forall i', j :: 0 <= i' < i && 0 <= j < cols ==> lines[i'][j] == RandomIndex(draws[i'][j], rows)
    {
      var line := [];
      for col := 0 to cols
        invariant |line| == col
        invariant forall j :: 0 <= j < col ==> line[j] == RandomIndex(draws[i][j], rows)
      {
        line := line + [RandomIndex(draws[i][col], rows)];
      }
      lines := lines + [line];
    }
  }

  /** The five patterns are made, for the keys of `LineValues`, one key at a time. */
  predicate PatternsFit(patterns: map<int, seq<seq<int>>>, cols: nat, rows: nat) {
    && patterns.Keys == (set t | 0 <= t < |LineValues| :: LineValues[t])
    && (forall t :: 0 <= t < |LineValues| ==> |patterns[LineValues[t]]| == LineCount(t))
    && (forall v :: v in patterns ==> LinesFit(patterns[v], cols, rows))
  }

  /** Line i of the pattern for `LineValues[t]` is drawn from `draws[t][i]`. */
  predicate PatternsDrawnFrom(patterns: map<int, seq<seq<int>>>, draws: seq<seq<seq<real>>>, cols: nat, rows: nat)
    requires PatternsFit(patterns, cols, rows) && PatternDraws(draws, cols) && rows > 0
  {
    forall t, i, j :: 0 <= t < |LineValues| && 0 <= i < LineCount(t) && 0 <= j < cols ==>
      patterns[LineValues[t]][i][j] == RandomIndex(draws[t][i][j], rows)
  }

  /** `regenerateLinePatterns` (and the same table in the constructor): twenty
      lines for 100, sixteen for 80, twelve for 60, eight for 40, four for 20,
      each entry `Math.floor(draw * rows)` of its own draw. */
  method GeneratePatterns(cfg: Config, draws: seq<seq<seq<real>>>) returns (patterns: map<int, seq<seq<int>>>)
    requires cfg == ConfigFor(cfg.breakpoint)
    requires PatternDraws(draws, cfg.cols)
    ensures PatternsFit(patterns, cfg.cols, cfg.rows)
    ensures PatternsDrawnFrom(patterns, draws, cfg.cols, cfg.rows)
  {
    var l100 := GenerateRandomLines(20, cfg, draws[0]);
    var l80 := GenerateRandomLines(16, cfg, draws[1]);
    var l60 := GenerateRandomLines(12, cfg, draws[2]);
    var l40 := GenerateRandomLines(8, cfg, draws[3]);
    var l20 := GenerateRandomLines(4, cfg, draws[4]);
    patterns := map[100 := l100, 80 := l80, 60 := l60, 40 := l40, 20 := l20];
    assert LineValues[0] == 100 && LineValues[1] == 80 && LineValues[2] == 60;
    assert LineValues[3] == 40 && LineValues[4] == 20;
    assert (set t | 0 <= t < |LineValues| :: LineValues[t]) == {100, 80, 60, 40, 20};
  }

  /** Every value's pattern holds a fifth of the value in lines. */
  lemma PatternsHoldAFifth(patterns: map<int, seq<seq<int>>>, cols: nat, rows: nat, v: int)
    requires PatternsFit(patterns, cols, rows) && v in patterns
    ensures |patterns[v]| * 5 == v
  {
    var t :| 0 <= t < |LineValues| && LineValues[t] == v;
    LineCountIsFifth(t);
  }

  /** The rows a payline's polyline passes through: one point per entry, for
      the columns that exist. */
  function PaylinePoints(line: seq<int>, cols: nat): (points: seq<int>)
    ensures |points| <= cols && points <= line
  {
    if |line| <= cols then line else line[..cols]
  }

  /** The polylines `showLines` draws: every line with at least two points. */
  function DrawnPaylines(lines: seq<seq<int>>, cols: nat): (drawn: seq<seq<int>>)
    ensures |drawn| <= |lines|
    ensures forall i :: 0 <= i < |drawn| ==> |drawn[i]| >= 2
    decreases |lines|
  {
    if lines == [] then []
    else
      var points := PaylinePoints(lines[|lines| - 1], cols);
      DrawnPaylines(lines[..|lines| - 1], cols) + (if |points| >= 2 then [points] else [])
  }

  /** Lines of a pattern made for the current grid, with two or more columns,
      are all drawn, whole and in order. */
  lemma {:induction false} FittingLinesAllDrawn(lines: seq<seq<int>>, cols: nat, rows: nat)
    requires LinesFit(lines, cols, rows) && cols >= 2
    ensures DrawnPaylines(lines, cols) == lines
    decreases |lines|
  {
    if lines != [] {
      var m := |lines| - 1;
      var front := lines[..m];
      assert LinesFit(front, cols, rows) by {
        forall i | 0 <= i < m ensures front[i] == lines[i] { }
      }
      FittingLinesAllDrawn(front, cols, rows);
      assert |lines[m]| == cols;
      assert DrawnPaylines(lines, cols) == front + [lines[m]];
      assert front + [lines[m]] == lines;
    }
  }

  // ---------------------------------------------------------------------------
  // Timings
  // ---------------------------------------------------------------------------

  /** The duration of one column's roll. */
  const RollMs: nat := 3000

  /** Column c starts rolling 100 ms after column c - 1. */
  function ColumnStartMs(c: nat): nat {
    c * 100
  }

  /** Column c's blur comes off 250 ms before its roll ends. */
  function BlurOffMs(c: nat): nat {
    ColumnStartMs(c) + RollMs - 250
  }

  /** Column c's promise resolves `duration + c * 100` after it started. */
  function ColumnSettledMs(c: nat): nat {
    ColumnStartMs(c) + RollMs + c * 100
  }

  /** `Promise.all` over the first `cols` columns resolves with the last of them. */
  function SpinSettledMs(cols: nat): nat
    decreases cols
  {
    if cols == 0 then 0
    else
      var before := SpinSettledMs(cols - 1);
      var last := ColumnSettledMs(cols - 1);
      if before >= last then before else last
  }

  /** Column c resolves at 3000 + 200·c ms, after its blur is removed. */
  lemma ColumnSchedule(c: nat)
    ensures ColumnSettledMs(c) == 3000 + 200 * c
    ensures ColumnStartMs(c) < BlurOffMs(c) < ColumnSettledMs(c)
  {
  }

  /** The spin settles when its last column does: 3000 + 200·(cols - 1) ms,
      never before any column. */
  lemma {:induction false} SpinSettlesWithLastColumn(cols: nat)
    requires cols > 0
    ensures SpinSettledMs(cols) == 3000 + 200 * (cols - 1)
    ensures forall c :: 0 <= c < cols ==> ColumnSettledMs(c) <= SpinSettledMs(cols)
    decreases cols
  {
    if cols > 1 {
      SpinSettlesWithLastColumn(cols - 1);
    }
  }

  /** A desktop spin settles after 3.8 s, a mobile one after 3.4 s. */
  lemma SpinLengths()
    ensures SpinSettledMs(ConfigFor(Desktop).cols) == 3800
    ensures SpinSettledMs(ConfigFor(Mobile).cols) == 3400
  {
    SpinSettlesWithLastColumn(5);
    SpinSettlesWithLastColumn(3);
  }

  /** How long a result's highlight stays before the spin buttons come back:
      2 s for a big win, 1.5 s for a small win, none for a loss, whose buttons
      come back at once. */
  function DwellMs(kind: Kind): (ms: Option<nat>)
    ensures ms.None? <==> kind == Loss
    ensures ms.Some? ==> ms.value >= 1500
    ensures kind == BigWin ==> ms == Some(2000)
    ensures kind == SmallWin ==> ms == Some(1500)
  {
    match kind
    case BigWin => Some(2000)
    case SmallWin => Some(1500)
    case Loss => None
  }

  /** A big win's dwell outlasts a small win's. */
  lemma BigWinDwellsLonger()
    ensures DwellMs(BigWin).value > DwellMs(SmallWin).value
  {
  }
}
