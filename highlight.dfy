/** The win highlight as classes on the cells of the visible window: the
    animated border mode and the line mode, how each one classifies a cell,
    and how each one's removal clears it again. */
module Highlight {

  import opened Wrappers

  /** `winAnimationType`: 'border' or 'line'. */
  datatype Mode = Border | Line

  /** The classes the highlight adds to an icon: `win-border-animation`,
      `winning` and `dimmed`. */
  datatype CellClass = WinBorder | Winning | Dimmed

  /** What `winLine[colIndex]` holds in JavaScript: a row, `null`, or
      `undefined` past the end of the array. */
  datatype Entry = Row(n: int) | Null | Undefined

  function EntryAt(winLine: seq<Option<int>>, c: nat): Entry {
    if c >= |winLine| then Undefined
    else match winLine[c]
      case None => Null
      case Some(n) => Row(n)
  }

  /** `setWinAnimationType`: only the two known names select a mode. */
  function ModeNamed(name: string): (m: Option<Mode>)
    ensures m == Some(Border) <==> name == "border"
    ensures m == Some(Line) <==> name == "line"
    ensures m.None? <==> name != "border" && name != "line"
  {
    if name == "line" then Some(Line)
    else if name == "border" then Some(Border)
    else None
  }

  /** The class that marks the winning cell in a mode. */
  function WinClass(mode: Mode): CellClass {
    match mode
    case Border => WinBorder
    case Line => Winning
  }

  /** The classes added to row `i` of the window of a column whose win-line
      entry is `e`. A border draw skips a column whose entry is `null`; the
      line mode dims it. */
  function AddedClasses(mode: Mode, e: Entry, i: nat): (added: set<CellClass>)
    ensures added <= {WinClass(mode), Dimmed}
    ensures WinClass(mode) in added <==> e == Row(i)
    ensures Dimmed in added <==> e != Row(i) && (mode == Line || e != Null)
  {
    match mode
    case Border =>
      if e == Null then {}
      else if e == Row(i) then {WinBorder}
      else {Dimmed}
    case Line =>
      if e == Row(i) then {Winning} else {Dimmed}
  }

  /** The classes a mode's removal strips from every icon. */
  function RemovedClasses(mode: Mode): set<CellClass> {
    match mode
    case Border => {WinBorder, Dimmed}
    case Line => {Winning, Dimmed}
  }

  /** The points of the win line: entries that are not `null` in the first
      `cols` places. */
  function PointCount(winLine: seq<Option<int>>, cols: nat): (n: nat)
    ensures n <= |winLine| && n <= cols
    decreases |winLine|
  {
    if winLine == [] || cols == 0 then 0
    else PointCount(winLine[..|winLine| - 1], cols)
         + (if |winLine| - 1 < cols && winLine[|winLine| - 1].Some? then 1 else 0)
  }

  /** A line draw puts its classes on only when the line has two points;
      a border draw always does. */
  predicate Draws(mode: Mode, winLine: seq<Option<int>>, cols: nat) {
    mode == Border || PointCount(winLine, cols) >= 2
  }

  /** One column after the draw: rows 0..rows-1 of the window that starts at
      icon `start` gain their classes, where such an icon exists. */
  function DrawColumn(mode: Mode, e: Entry, cells: seq<set<CellClass>>, start: nat, rows: nat): (r: seq<set<CellClass>>)
    ensures |r| == |cells|
    ensures forall k :: 0 <= k < |cells| ==> cells[k] <= r[k]
    ensures forall k :: 0 <= k < |cells| && !(start <= k < start + rows) ==> r[k] == cells[k]
  {
    seq(|cells|, k requires 0 <= k < |cells| =>
      if start <= k < start + rows then cells[k] + AddedClasses(mode, e, k - start) else cells[k])
  }

  /** The classes of every icon after a win is drawn in `mode`; strip c's
      window starts at `starts[c]`. */
  function DrawWin(mode: Mode, winLine: seq<Option<int>>, marks: seq<seq<set<CellClass>>>,
                   starts: seq<nat>, rows: nat): (r: seq<seq<set<CellClass>>>)
    requires |starts| == |marks|
    ensures |r| == |marks| && forall c :: 0 <= c < |r| ==> |r[c]| == |marks[c]|
  {
    if !Draws(mode, winLine, |marks|) then marks
    else
      seq(|marks|, c requires 0 <= c < |marks| =>
        DrawColumn(mode, EntryAt(winLine, c), marks[c], starts[c], rows))
  }

  /** A border draw leaves a column whose entry is `null` as it was. */
  lemma SkippedColumnUnchanged(cells: seq<set<CellClass>>, start: nat, rows: nat)
    ensures DrawColumn(Border, Null, cells, start, rows) == cells
  {
    var d := DrawColumn(Border, Null, cells, start, rows);
    forall k | 0 <= k < |cells| ensures d[k] == cells[k] {
      assert AddedClasses(Border, Null, if k >= start then k - start else 0) == {};
    }
  }

  function RemoveColumn(mode: Mode, cells: seq<set<CellClass>>): seq<set<CellClass>> {
    seq(|cells|, k requires 0 <= k < |cells| => cells[k] - RemovedClasses(mode))
  }

  /** The classes of every icon after a mode's removal. */
  function RemoveWin(mode: Mode, marks: seq<seq<set<CellClass>>>): (r: seq<seq<set<CellClass>>>)
    ensures |r| == |marks| && forall c :: 0 <= c < |r| ==> |r[c]| == |marks[c]|
    ensures forall c, k :: 0 <= c < |r| && 0 <= k < |r[c]| ==>
              && r[c][k] <= marks[c][k]
              && r[c][k] !! RemovedClasses(mode)
              && marks[c][k] - RemovedClasses(mode) <= r[c][k]
  {
    seq(|marks|, c requires 0 <= c < |marks| => RemoveColumn(mode, marks[c]))
  }

  /** No icon carries a highlight class, as after the strips are built. */
  predicate Clean(marks: seq<seq<set<CellClass>>>) {
    forall c, k :: 0 <= c < |marks| && 0 <= k < |marks[c]| ==> marks[c][k] == {}
  }

  function CleanMarks(lengths: seq<nat>): (marks: seq<seq<set<CellClass>>>)
    ensures |marks| == |lengths| && Clean(marks)
    ensures forall c :: 0 <= c < |lengths| ==> |marks[c]| == lengths[c]
  {
    seq(|lengths|, c requires 0 <= c < |lengths| => seq(lengths[c], k => {}))
  }

  // ---------------------------------------------------------------------------
  // What a draw means
  // ---------------------------------------------------------------------------

  /** On clean strips, an icon carries the mode's win class exactly when the
      win is drawn, the icon is row n of its column's window, and the win line
      names row n for that column. So each column has at most one winner. */
  lemma WinnerCells(mode: Mode, winLine: seq<Option<int>>, marks: seq<seq<set<CellClass>>>,
                    starts: seq<nat>, rows: nat, c: nat, k: nat)
    requires |starts| == |marks| && Clean(marks)
    requires c < |marks| && k < |marks[c]|
    ensures WinClass(mode) in DrawWin(mode, winLine, marks, starts, rows)[c][k] <==>
              Draws(mode, winLine, |marks|) && starts[c] <= k < starts[c] + rows &&
              EntryAt(winLine, c) == Row(k - starts[c])
  {
    var r := DrawWin(mode, winLine, marks, starts, rows);
    var e := EntryAt(winLine, c);
    assert marks[c][k] == {};
    if Draws(mode, winLine, |marks|) {
      assert r[c] == DrawColumn(mode, e, marks[c], starts[c], rows);
      if starts[c] <= k < starts[c] + rows {
        var i: nat := k - starts[c];
        assert r[c][k] == AddedClasses(mode, e, i);
        assert e == Row(k - starts[c]) <==> e == Row(i);
      } else {
        assert r[c][k] == {};
      }
    } else {
      assert r[c][k] == {};
    }
  }

  lemma OneWinnerPerColumn(mode: Mode, winLine: seq<Option<int>>, marks: seq<seq<set<CellClass>>>,
                           starts: seq<nat>, rows: nat, c: nat, k1: nat, k2: nat)
    requires |starts| == |marks| && Clean(marks)
    requires c < |marks| && k1 < |marks[c]| && k2 < |marks[c]|
    requires WinClass(mode) in DrawWin(mode, winLine, marks, starts, rows)[c][k1]
    requires WinClass(mode) in DrawWin(mode, winLine, marks, starts, rows)[c][k2]
    ensures k1 == k2
  {
    WinnerCells(mode, winLine, marks, starts, rows, c, k1);
    WinnerCells(mode, winLine, marks, starts, rows, c, k2);
  }

  /** On clean strips, an icon is dimmed exactly when the win is drawn, the
      icon is in its column's window, it is not the row the win line names,
      and (in border mode) the column's entry is not `null`. */
  lemma DimmedCells(mode: Mode, winLine: seq<Option<int>>, marks: seq<seq<set<CellClass>>>,
                    starts: seq<nat>, rows: nat, c: nat, k: nat)
    requires |starts| == |marks| && Clean(marks)
    requires c < |marks| && k < |marks[c]|
    ensures Dimmed in DrawWin(mode, winLine, marks, starts, rows)[c][k] <==>
              Draws(mode, winLine, |marks|) && starts[c] <= k < starts[c] + rows &&
              EntryAt(winLine, c) != Row(k - starts[c]) &&
              !(mode == Border && EntryAt(winLine, c) == Null)
  {
    var r := DrawWin(mode, winLine, marks, starts, rows);
    var e := EntryAt(winLine, c);
    assert marks[c][k] == {};
    if Draws(mode, winLine, |marks|) {
      assert r[c] == DrawColumn(mode, e, marks[c], starts[c], rows);
      if starts[c] <= k < starts[c] + rows {
        var i: nat := k - starts[c];
        assert r[c][k] == AddedClasses(mode, e, i);
        assert e == Row(k - starts[c]) <==> e == Row(i);
      } else {
        assert r[c][k] == {};
      }
    } else {
      assert r[c][k] == {};
    }
  }

  /** Icons outside the visible windows keep their classes. */
  lemma DrawTouchesOnlyWindows(mode: Mode, winLine: seq<Option<int>>, marks: seq<seq<set<CellClass>>>,
                               starts: seq<nat>, rows: nat, c: nat, k: nat)
    requires |starts| == |marks| && c < |marks| && k < |marks[c]|
    requires !(starts[c] <= k < starts[c] + rows)
    ensures |DrawWin(mode, winLine, marks, starts, rows)| == |marks|
    ensures DrawWin(mode, winLine, marks, starts, rows)[c][k] == marks[c][k]
  {
    var r := DrawWin(mode, winLine, marks, starts, rows);
    if Draws(mode, winLine, |marks|) {
      assert r[c] == DrawColumn(mode, EntryAt(winLine, c), marks[c], starts[c], rows);
    }
  }

  /** A draw only adds classes: every icon keeps the classes it had. */
  lemma DrawOnlyAdds(mode: Mode, winLine: seq<Option<int>>, marks: seq<seq<set<CellClass>>>,
                     starts: seq<nat>, rows: nat, c: nat, k: nat)
    requires |starts| == |marks| && c < |marks| && k < |marks[c]|
    ensures marks[c][k] <= DrawWin(mode, winLine, marks, starts, rows)[c][k]
  {
    if Draws(mode, winLine, |marks|) {
      assert DrawWin(mode, winLine, marks, starts, rows)[c]
          == DrawColumn(mode, EntryAt(winLine, c), marks[c], starts[c], rows);
    }
  }

  /** Removing in the mode that drew undoes the draw. */
  lemma RemoveUndoesDraw(mode: Mode, winLine: seq<Option<int>>, marks: seq<seq<set<CellClass>>>,
                         starts: seq<nat>, rows: nat)
    requires |starts| == |marks|
    ensures RemoveWin(mode, DrawWin(mode, winLine, marks, starts, rows)) == RemoveWin(mode, marks)
  {
    var d := DrawWin(mode, winLine, marks, starts, rows);
    if Draws(mode, winLine, |marks|) {
      forall c | 0 <= c < |marks|
        ensures RemoveColumn(mode, d[c]) == RemoveColumn(mode, marks[c])
      {
        var e := EntryAt(winLine, c);
        assert d[c] == DrawColumn(mode, e, marks[c], starts[c], rows);
        forall k | 0 <= k < |marks[c]|
          ensures d[c][k] - RemovedClasses(mode) == marks[c][k] - RemovedClasses(mode)
        {
          if starts[c] <= k < starts[c] + rows {
            assert AddedClasses(mode, e, k - starts[c]) <= RemovedClasses(mode);
          }
        }
      }
    }
  }

  /** The clean strips come back clean. */
  lemma CleanAfterDrawAndRemove(mode: Mode, winLine: seq<Option<int>>, marks: seq<seq<set<CellClass>>>,
                                starts: seq<nat>, rows: nat)
    requires |starts| == |marks| && Clean(marks)
    ensures Clean(RemoveWin(mode, DrawWin(mode, winLine, marks, starts, rows)))
  {
    RemoveUndoesDraw(mode, winLine, marks, starts, rows);
    var r := RemoveWin(mode, marks);
    forall c, k | 0 <= c < |r| && 0 <= k < |r[c]|
      ensures r[c][k] == {}
    {
      assert r[c] == RemoveColumn(mode, marks[c]);
    }
  }

  /** A win drawn in one mode and removed in the other leaves the first mode's
      win class behind on the winning icon. */
  lemma SwitchedModeLeavesWinner(drawn: Mode, winLine: seq<Option<int>>, marks: seq<seq<set<CellClass>>>,
                                 starts: seq<nat>, rows: nat, c: nat, k: nat)
    requires |starts| == |marks| && c < |marks| && k < |marks[c]|
    requires WinClass(drawn) in DrawWin(drawn, winLine, marks, starts, rows)[c][k]
    ensures var other := if drawn == Border then Line else Border;
            WinClass(drawn) in RemoveWin(other, DrawWin(drawn, winLine, marks, starts, rows))[c][k]
  {
    var other := if drawn == Border then Line else Border;
    var d := DrawWin(drawn, winLine, marks, starts, rows);
    assert RemoveWin(other, d)[c] == RemoveColumn(other, d[c]);
    assert WinClass(drawn) !in RemovedClasses(other);
  }

  /** Two non-null entries among the first `cols` make two points. */
  lemma {:induction false} TwoEntriesMakeTwoPoints(winLine: seq<Option<int>>, cols: nat, c1: nat, c2: nat)
    requires c1 < c2 < |winLine| && c2 < cols
    requires winLine[c1].Some? && winLine[c2].Some?
    ensures PointCount(winLine, cols) >= 2
    decreases |winLine|
  {
    var m := |winLine| - 1;
    var front := winLine[..m];
    if c2 < m {
      assert front[c1] == winLine[c1] && front[c2] == winLine[c2];
      TwoEntriesMakeTwoPoints(front, cols, c1, c2);
    } else {
      assert front[c1] == winLine[c1];
      OneEntryMakesOnePoint(front, cols, c1);
    }
  }

  lemma {:induction false} OneEntryMakesOnePoint(winLine: seq<Option<int>>, cols: nat, c: nat)
    requires c < |winLine| && c < cols && winLine[c].Some?
    ensures PointCount(winLine, cols) >= 1
    decreases |winLine|
  {
    var m := |winLine| - 1;
    if c < m {
      assert winLine[..m][c] == winLine[c];
      OneEntryMakesOnePoint(winLine[..m], cols, c);
    }
  }

  /** A line with at most one non-null entry among the first `cols`, at
      place `c`, has at most one point. */
  lemma {:induction false} AtMostOneEntryOnePoint(winLine: seq<Option<int>>, cols: nat, c: nat)
    requires forall c' :: 0 <= c' < |winLine| && c' < cols && winLine[c'].Some? ==> c' == c
    ensures PointCount(winLine, cols) <= 1
    decreases |winLine|
  {
    if winLine != [] && cols != 0 {
      var m := |winLine| - 1;
      var front := winLine[..m];
      if m < cols && winLine[m].Some? {
        forall c' | 0 <= c' < m && c' < cols ensures front[c'].None? {
          assert front[c'] == winLine[c'];
        }
        NullLineHasNoPoints(front, cols);
      } else {
        forall c' | 0 <= c' < m && c' < cols && front[c'].Some? ensures c' == c {
          assert front[c'] == winLine[c'];
        }
        AtMostOneEntryOnePoint(front, cols, c);
      }
    }
  }

  /** So a line-mode draw of such a line changes no icon. */
  lemma LoneEntryDrawsNothing(winLine: seq<Option<int>>, marks: seq<seq<set<CellClass>>>,
                              starts: seq<nat>, rows: nat, c: nat)
    requires |starts| == |marks|
    requires forall c' :: 0 <= c' < |winLine| && c' < |marks| && winLine[c'].Some? ==> c' == c
    ensures DrawWin(Line, winLine, marks, starts, rows) == marks
  {
    AtMostOneEntryOnePoint(winLine, |marks|, c);
  }

  /** A line whose first `cols` entries are all `null` has no point. */
  lemma {:induction false} NullLineHasNoPoints(winLine: seq<Option<int>>, cols: nat)
    requires forall c :: 0 <= c < |winLine| && c < cols ==> winLine[c].None?
    ensures PointCount(winLine, cols) == 0
    decreases |winLine|
  {
    if winLine != [] && cols != 0 {
      var m := |winLine| - 1;
      forall c | 0 <= c < m && c < cols ensures winLine[..m][c].None? {
        assert winLine[..m][c] == winLine[c];
      }
      NullLineHasNoPoints(winLine[..m], cols);
    }
  }
}
