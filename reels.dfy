/** The reel strips: how each column's strip is built, how a column of icons is
    found in it, and where every scripted outcome sits. */
module Reels {

  import opened Codecs
  import opened Layout
  import opened Outcomes

  /** Eight icon types, numbered 1..8. */
  const IconCount: nat := 8
  /** Filler icons laid before the scripted outcomes on every strip. */
  const IconsPerReel: nat := 100

  // ---------------------------------------------------------------------------
  // Specification of a strip
  // ---------------------------------------------------------------------------

  /** Filler icon `i` of a column whose random offset is `r`. */
  function FillerIcon(i: int, r: int): int {
    ((i + r) % IconCount) + 1
  }

  function Filler(r: int): seq<int> {
    seq(IconsPerReel, i => FillerIcon(i, r))
  }

  /** `result.result[colIndex]`, or nothing when the outcome has no such column. */
  function ColumnSlice(o: Outcome, c: nat): seq<int> {
    if c < |o.result| then o.result[c] else []
  }

  /** Column `c` of every outcome, in script order. */
  function Tail(results: seq<Outcome>, c: nat): seq<int> {
    if results == [] then []
    else Tail(results[..|results| - 1], c) + ColumnSlice(results[|results| - 1], c)
  }

  lemma TailSnoc(results: seq<Outcome>, k: nat, c: nat)
    requires k < |results|
    ensures Tail(results[..k + 1], c) == Tail(results[..k], c) + ColumnSlice(results[k], c)
  {
    assert results[..k + 1][..k] == results[..k];
  }

  /** The icons of column `c`'s strip, top to bottom. */
  function ColumnIcons(results: seq<Outcome>, c: nat, r: int): seq<int> {
    Filler(r) + Tail(results, c)
  }

  /** The `src` of every image of a strip. */
  function Render(icons: seq<int>): (strip: seq<string>)
    ensures |strip| == |icons|
    ensures forall i :: 0 <= i < |icons| ==> strip[i] == IconSrc(icons[i])
  {
    seq(|icons|, i requires 0 <= i < |icons| => IconSrc(icons[i]))
  }

  predicate NonNegative(icons: seq<int>) {
    forall i :: 0 <= i < |icons| ==> icons[i] >= 0
  }

  // ---------------------------------------------------------------------------
  // Strip builder
  // ---------------------------------------------------------------------------

  /** `strip` shows the images of `icons`, one for one. */
  predicate Shows(strip: seq<string>, icons: seq<int>) {
    |strip| == |icons| && forall m :: 0 <= m < |icons| ==> strip[m] == IconSrc(icons[m])
  }

  /** The filler of a column whose random offset is `randomOffset`. */
  method FillerStrip(randomOffset: int) returns (strip: seq<string>, ghost icons: seq<int>)
    ensures icons == Filler(randomOffset) && Shows(strip, icons)
  {
    strip, icons := [], [];
    for i := 0 to IconsPerReel
      invariant icons == Filler(randomOffset)[..i] && Shows(strip, icons)
    {
      var iconNum := ((i + randomOffset) % IconCount) + 1;
      strip := strip + [IconSrc(iconNum)];
      icons := icons + [iconNum];
    }
  }

  /** One image appended per icon of `columnIcons`. */
  method AppendImages(strip: seq<string>, ghost icons: seq<int>, columnIcons: seq<int>) returns (longer: seq<string>)
    requires Shows(strip, icons)
    ensures Shows(longer, icons + columnIcons)
  {
    longer := strip;
    for j := 0 to |columnIcons|
      invariant Shows(longer, icons + columnIcons[..j])
    {
      assert icons + columnIcons[..j + 1] == icons + columnIcons[..j] + [columnIcons[j]];
      longer := longer + [IconSrc(columnIcons[j])];
    }
    assert columnIcons[..|columnIcons|] == columnIcons;
  }

  /** The column-`c` icons of every outcome appended, in script order; an
      outcome without that column adds nothing. */
  method AppendOutcomes(strip: seq<string>, ghost icons: seq<int>, c: nat, results: seq<Outcome>)
    returns (longer: seq<string>)
    requires Shows(strip, icons)
    ensures Shows(longer, icons + Tail(results, c))
  {
    longer := strip;
    for k := 0 to |results|
      invariant Shows(longer, icons + Tail(results[..k], c))
    {
      TailSnoc(results, k, c);
      ghost var before := icons + Tail(results[..k], c);
      if c < |results[k].result| {
        longer := AppendImages(longer, before, results[k].result[c]);
      }
      AppendAssociates(icons, Tail(results[..k], c), ColumnSlice(results[k], c));
    }
    assert results[..|results|] == results;
  }

  lemma AppendAssociates(a: seq<int>, b: seq<int>, d: seq<int>)
    ensures (a + b) + d == a + (b + d)
  {
  }

  /** The strip of one column whose random offset is `randomOffset`: the
      filler, then the column's icons of every outcome in script order. */
  method BuildStrip(c: nat, results: seq<Outcome>, randomOffset: int) returns (strip: seq<string>)
    ensures strip == Render(ColumnIcons(results, c, randomOffset))
  {
    ghost var filler;
    strip, filler := FillerStrip(randomOffset);
    strip := AppendOutcomes(strip, filler, c, results);
    assert strip == Render(filler + Tail(results, c));
  }

  /** `createReels`: one strip per column, each with its own random offset
      `Math.floor(Math.random() * 8)` taken from `draws[c]`. */
  method CreateReels(cols: nat, results: seq<Outcome>, draws: seq<real>) returns (strips: seq<seq<string>>)
    requires |draws| == cols
    requires forall c :: 0 <= c < cols ==> 0.0 <= draws[c] < 1.0
    ensures |strips| == cols
    ensures forall c :: 0 <= c < cols ==>
              strips[c] == Render(ColumnIcons(results, c, RandomIndex(draws[c], IconCount)))
  {
    strips := [];
    for c := 0 to cols
      invariant |strips| == c
      invariant forall c' :: 0 <= c' < c ==>
                  strips[c'] == Render(ColumnIcons(results, c', RandomIndex(draws[c'], IconCount)))
    {
      var randomOffset := RandomIndex(draws[c], IconCount);
      var strip := BuildStrip(c, results, randomOffset);
      strips := strips + [strip];
    }
  }

  // ---------------------------------------------------------------------------
  // Sequence locator
  // ---------------------------------------------------------------------------

  /** The images of `icons` from index `i` on read back as `target`. */
  predicate MatchesAt(icons: seq<string>, target: seq<int>, i: int) {
    0 <= i && i + |target| <= |icons| &&
    forall j :: 0 <= j < |target| ==> GetIconNumber(icons[i + j]) == target[j]
  }

  /** The rightmost match at or below `i`, or -1. */
  function Scan(icons: seq<string>, target: seq<int>, i: int): (r: int)
    ensures r == -1 || (0 <= r <= i && MatchesAt(icons, target, r))
    ensures forall k :: r < k <= i ==> !MatchesAt(icons, target, k)
    decreases i + 1
  {
    if i < 0 then -1
    else if MatchesAt(icons, target, i) then i
    else Scan(icons, target, i - 1)
  }

  /** Where the locator lands: the rightmost match in the whole strip, or -1. */
  function LastMatch(icons: seq<string>, target: seq<int>): int {
    Scan(icons, target, |icons| - |target|)
  }

  /** `findSequencePosition`: scans start positions from the end of the strip
      down to 0 and returns the first (so the rightmost) one whose images read
      back as `target`, or -1. A target longer than the strip starts the scan
      below 0 and is never found. */
  method FindSequencePosition(icons: seq<string>, target: seq<int>) returns (pos: int)
    ensures pos == -1 || (0 <= pos && MatchesAt(icons, target, pos))
    ensures forall i :: pos < i <= |icons| - |target| ==> !MatchesAt(icons, target, i)
    ensures pos == LastMatch(icons, target)
  {
    var i := |icons| - |target|;
    while i >= 0
      invariant i <= |icons| - |target|
      invariant forall k :: i < k <= |icons| - |target| ==> !MatchesAt(icons, target, k)
      invariant LastMatch(icons, target) == Scan(icons, target, i)
      decreases i + 1
    {
      var found := true;
      var j := 0;
      // icons[i + j] always exists here, since i + |target| <= |icons|
      while j < |target|
        invariant 0 <= j <= |target|
        invariant found
        invariant forall m :: 0 <= m < j ==> GetIconNumber(icons[i + m]) == target[m]
      {
        if GetIconNumber(icons[i + j]) != target[j] {
          found := false;
          break;
        }
        j := j + 1;
      }
      if found {
        return i;
      }
      i := i - 1;
    }
    return -1;
  }

  // ---------------------------------------------------------------------------
  // Where the scripted outcomes sit
  // ---------------------------------------------------------------------------

  /** `target` occurs at index `i` of a column of icon numbers. */
  predicate IntMatchesAt(icons: seq<int>, target: seq<int>, i: int) {
    0 <= i && i + |target| <= |icons| &&
    forall j :: 0 <= j < |target| ==> icons[i + j] == target[j]
  }

  /** For a rendered strip, reading the images back is the same as comparing
      the icon numbers they were written from. */
  lemma MatchesRendered(icons: seq<int>, target: seq<int>, i: int)
    requires NonNegative(icons)
    ensures MatchesAt(Render(icons), target, i) <==> IntMatchesAt(icons, target, i)
  {
    var strip := Render(icons);
    if 0 <= i && i + |target| <= |icons| {
      forall m | i <= m < i + |target|
        ensures GetIconNumber(strip[m]) == icons[m]
      {
        IconRoundTrip(icons[m]);
      }
      if MatchesAt(strip, target, i) {
        forall j | 0 <= j < |target|
          ensures icons[i + j] == target[j]
        {
          assert GetIconNumber(strip[i + j]) == target[j];
        }
      }
      if IntMatchesAt(icons, target, i) {
        forall j | 0 <= j < |target|
          ensures GetIconNumber(strip[i + j]) == target[j]
        {
          assert icons[i + j] == target[j];
        }
      }
    }
  }

  /** The tail of a script whose every outcome has `n` icons in column `c`
      holds n icons per outcome. */
  lemma {:induction false} TailLength(results: seq<Outcome>, c: nat, n: nat)
    requires forall k :: 0 <= k < |results| ==> |ColumnSlice(results[k], c)| == n
    ensures |Tail(results, c)| == n * |results|
    decreases |results|
  {
    if results != [] {
      var m := |results| - 1;
      TailLength(results[..m], c, n);
      assert n * m + n == n * |results|;
    }
  }

  /** Column `c` of outcome `k` fills indices n*k .. n*k+n-1 of the tail. */
  lemma {:induction false} TailBlock(results: seq<Outcome>, c: nat, n: nat, k: nat)
    requires forall k :: 0 <= k < |results| ==> |ColumnSlice(results[k], c)| == n
    requires k < |results|
    ensures n * k + n <= |Tail(results, c)|
    ensures forall j :: 0 <= j < n ==> Tail(results, c)[n * k + j] == ColumnSlice(results[k], c)[j]
    decreases |results|
  {
    var m := |results| - 1;
    var front := results[..m];
    assert Tail(results, c) == Tail(front, c) + ColumnSlice(results[m], c);
    assert forall k' :: 0 <= k' < |front| ==> front[k'] == results[k'];
    TailLength(front, c, n);
    if k < m {
      TailBlock(front, c, n, k);
    }
  }

  /** Every icon of the tail is an icon of some outcome's column. */
  lemma {:induction false} TailIconsInRange(results: seq<Outcome>, c: nat, cols: nat, rows: nat)
    requires ScriptFits(results, cols, rows) && c < cols
    ensures forall i :: 0 <= i < |Tail(results, c)| ==> 1 <= Tail(results, c)[i] <= 8
    decreases |results|
  {
    if results != [] {
      var m := |results| - 1;
      var front := results[..m];
      assert ScriptFits(front, cols, rows) by {
        forall k | 0 <= k < m ensures FitsGrid(front[k], cols, rows) {
          assert front[k] == results[k];
        }
      }
      TailIconsInRange(front, c, cols, rows);
      assert FitsGrid(results[m], cols, rows);
    }
  }

  /** The strip builder's promise for a script that fits the grid: column c's
      strip holds 100 filler icons cycling through 1..8 from offset r, then the
      column-c icons of every outcome, unaltered and in script order. */
  lemma StripShape(results: seq<Outcome>, cols: nat, rows: nat, c: nat, r: int)
    requires ScriptFits(results, cols, rows) && c < cols
    ensures |ColumnIcons(results, c, r)| == IconsPerReel + rows * |results|
    ensures forall i :: 0 <= i < IconsPerReel ==> ColumnIcons(results, c, r)[i] == ((i + r) % 8) + 1
    ensures forall i :: 0 <= i < |ColumnIcons(results, c, r)| ==> 1 <= ColumnIcons(results, c, r)[i] <= 8
  {
    var icons := ColumnIcons(results, c, r);
    var tail := Tail(results, c);
    assert icons == Filler(r) + tail;
    forall k | 0 <= k < |results| ensures |ColumnSlice(results[k], c)| == rows {
      assert FitsGrid(results[k], cols, rows);
    }
    TailLength(results, c, rows);
    TailIconsInRange(results, c, cols, rows);
    forall i | IconsPerReel <= i < |icons|
      ensures 1 <= icons[i] <= 8
    {
      assert icons[i] == tail[i - IconsPerReel];
    }
  }

  /** In a script that fits the grid, every outcome has column c, of `rows` icons. */
  lemma ColumnsHaveRows(results: seq<Outcome>, cols: nat, rows: nat, c: nat)
    requires ScriptFits(results, cols, rows) && c < cols
    ensures forall k :: 0 <= k < |results| ==>
              c < |results[k].result| && ColumnSlice(results[k], c) == results[k].result[c] &&
              |results[k].result[c]| == rows
  {
    forall k | 0 <= k < |results|
      ensures c < |results[k].result| && |results[k].result[c]| == rows
    {
      assert FitsGrid(results[k], cols, rows);
    }
  }

  /** Column c of outcome k fills indices 100 + n*k .. 100 + n*k + n - 1 of the strip. */
  lemma SliceInStrip(results: seq<Outcome>, c: nat, r: int, n: nat, k: nat)
    requires forall k :: 0 <= k < |results| ==> |ColumnSlice(results[k], c)| == n
    requires k < |results|
    ensures IconsPerReel + n * k + n <= |ColumnIcons(results, c, r)|
    ensures forall j :: 0 <= j < n ==>
              ColumnIcons(results, c, r)[IconsPerReel + n * k + j] == ColumnSlice(results[k], c)[j]
  {
    TailBlock(results, c, n, k);
    var lo := n * k;
    assert 0 <= lo by {
      NatProduct(n, k);
    }
    forall j | 0 <= j < n
      ensures ColumnIcons(results, c, r)[IconsPerReel + lo + j] == ColumnSlice(results[k], c)[j]
    {
      TailInStrip(results, c, r, lo + j);
    }
    assert |ColumnIcons(results, c, r)| == IconsPerReel + |Tail(results, c)| by {
      assert |Filler(r)| == IconsPerReel;
    }
  }

  /** Outcome k's column c sits unaltered at index 100 + rows*k of the strip. */
  lemma StripBlock(results: seq<Outcome>, cols: nat, rows: nat, c: nat, r: int, k: nat)
    requires ScriptFits(results, cols, rows) && c < cols && k < |results|
    ensures IconsPerReel + rows * k + rows <= |ColumnIcons(results, c, r)|
    ensures c < |results[k].result| && |results[k].result[c]| == rows
    ensures forall j :: 0 <= j < rows ==>
              ColumnIcons(results, c, r)[IconsPerReel + rows * k + j] == results[k].result[c][j]
  {
    ColumnsHaveRows(results, cols, rows, c);
    SliceInStrip(results, c, r, rows, k);
  }

  lemma NatProduct(a: nat, b: nat)
    ensures a * b >= 0
  {
  }

  /** Index i of the tail is index 100 + i of the strip. */
  lemma TailInStrip(results: seq<Outcome>, c: nat, r: int, i: nat)
    requires i < |Tail(results, c)|
    ensures |ColumnIcons(results, c, r)| == IconsPerReel + |Tail(results, c)|
    ensures ColumnIcons(results, c, r)[IconsPerReel + i] == Tail(results, c)[i]
  {
    assert |Filler(r)| == IconsPerReel;
  }

  /** A window at index i differs from the three-icon target. */
  predicate WindowDiffers(a: seq<int>, t: seq<int>, i: nat)
    requires |t| == 3 && i + 3 <= |a|
  {
    a[i] != t[0] || a[i + 1] != t[1] || a[i + 2] != t[2]
  }

  /** Every window of a nine-icon tail starting above `lo` differs from `t`. */
  predicate LaterWindowsDiffer(a: seq<int>, t: seq<int>, lo: nat) {
    && |a| == 9 && |t| == 3
    && (lo < 1 ==> WindowDiffers(a, t, 1))
    && (lo < 2 ==> WindowDiffers(a, t, 2))
    && (lo < 3 ==> WindowDiffers(a, t, 3))
    && (lo < 4 ==> WindowDiffers(a, t, 4))
    && (lo < 5 ==> WindowDiffers(a, t, 5))
    && (lo < 6 ==> WindowDiffers(a, t, 6))
  }

  lemma LaterWindowsDifferSound(a: seq<int>, t: seq<int>, lo: nat, i: int)
    requires LaterWindowsDiffer(a, t, lo) && lo < i
    ensures !IntMatchesAt(a, t, i)
  {
    if 0 <= i && i + 3 <= 9 {
      assert WindowDiffers(a, t, i);
      if a[i] != t[0] {
        assert a[i + 0] != t[0];
      } else if a[i + 1] != t[1] {
      } else {
        assert a[i + 2] != t[2];
      }
    }
  }

  lemma Tail3(results: seq<Outcome>, c: nat)
    requires |results| == 3
    ensures Tail(results, c) == ColumnSlice(results[0], c) + ColumnSlice(results[1], c) + ColumnSlice(results[2], c)
  {
    TailSnoc(results, 0, c);
    TailSnoc(results, 1, c);
    TailSnoc(results, 2, c);
    assert results[..0] == [];
    assert results[..3] == results;
  }

  /** In both shipped tables, no window of a column's tail above outcome k's
      own slot repeats outcome k's column. */
  lemma ShippedTailsHaveNoLaterRepeat(bp: Breakpoint, c: nat, k: nat)
    requires c < ConfigFor(bp).cols && k < 3
    ensures LaterWindowsDiffer(Tail(ResultsFor(bp), c), ResultsFor(bp)[k].result[c], 3 * k)
  {
    Tail3(ResultsFor(bp), c);
    if bp == Desktop {
      DesktopTails(c, k);
    } else {
      MobileTails(c, k);
    }
  }

  lemma DesktopTails(c: nat, k: nat)
    requires c < 5 && k < 3
    ensures LaterWindowsDiffer(ColumnSlice(DesktopResults[0], c) + ColumnSlice(DesktopResults[1], c) +
                               ColumnSlice(DesktopResults[2], c), DesktopResults[k].result[c], 3 * k)
  {
    var t := ColumnSlice(DesktopResults[0], c) + ColumnSlice(DesktopResults[1], c) + ColumnSlice(DesktopResults[2], c);
    if c == 0 {
      assert t == [2, 4, 1, 1, 3, 4, 8, 4, 7];
    } else if c == 1 {
      assert t == [3, 5, 2, 7, 4, 3, 8, 6, 2];
    } else if c == 2 {
      assert t == [1, 7, 4, 4, 3, 1, 3, 8, 1];
    } else if c == 3 {
      assert t == [6, 2, 5, 2, 5, 4, 1, 4, 8];
    } else {
      assert t == [4, 1, 3, 5, 6, 7, 5, 3, 8];
    }
  }

  lemma MobileTails(c: nat, k: nat)
    requires c < 3 && k < 3
    ensures LaterWindowsDiffer(ColumnSlice(MobileResults[0], c) + ColumnSlice(MobileResults[1], c) +
                               ColumnSlice(MobileResults[2], c), MobileResults[k].result[c], 3 * k)
  {
    var t := ColumnSlice(MobileResults[0], c) + ColumnSlice(MobileResults[1], c) + ColumnSlice(MobileResults[2], c);
    if c == 0 {
      assert t == [4, 1, 7, 2, 3, 5, 8, 5, 7];
    } else if c == 1 {
      assert t == [5, 2, 8, 7, 3, 2, 3, 8, 6];
    } else {
      assert t == [7, 4, 3, 4, 3, 8, 6, 8, 4];
    }
  }

  /** A match at index i >= 100 of a strip is a match at i - 100 of its tail. */
  lemma MatchInTail(results: seq<Outcome>, c: nat, r: int, target: seq<int>, i: int)
    requires i >= IconsPerReel
    ensures IntMatchesAt(ColumnIcons(results, c, r), target, i) <==> IntMatchesAt(Tail(results, c), target, i - IconsPerReel)
  {
    var icons := ColumnIcons(results, c, r);
    var tail := Tail(results, c);
    assert icons == Filler(r) + tail;
    if IntMatchesAt(tail, target, i - IconsPerReel) {
      forall j | 0 <= j < |target|
        ensures icons[i + j] == target[j]
      {
        assert icons[i + j] == tail[i - IconsPerReel + j];
      }
    }
  }

  /** Outcome k's column reads back from column c's strip at its own slot. */
  lemma ShippedSlotMatches(bp: Breakpoint, c: nat, k: nat, r: int)
    requires c < ConfigFor(bp).cols && k < 3
    ensures |Render(ColumnIcons(ResultsFor(bp), c, r))| == IconsPerReel + 9 && |ResultsFor(bp)[k].result[c]| == 3
    ensures MatchesAt(Render(ColumnIcons(ResultsFor(bp), c, r)), ResultsFor(bp)[k].result[c], IconsPerReel + 3 * k)
  {
    var rs := ResultsFor(bp);
    var cfg := ConfigFor(bp);
    TablesFit(bp);
    StripShape(rs, cfg.cols, cfg.rows, c, r);
    StripBlock(rs, cfg.cols, cfg.rows, c, r, k);
    var icons := ColumnIcons(rs, c, r);
    var target := rs[k].result[c];
    var slot := IconsPerReel + 3 * k;
    assert cfg.rows == 3;
    assert IntMatchesAt(icons, target, slot) by {
      forall j | 0 <= j < 3 ensures icons[slot + j] == target[j] {
        assert slot + j == IconsPerReel + cfg.rows * k + j;
      }
    }
    MatchesRendered(icons, target, slot);
  }

  /** Outcome k's column does not read back from column c's strip anywhere
      after its own slot. */
  lemma ShippedNoLaterMatch(bp: Breakpoint, c: nat, k: nat, r: int)
    requires c < ConfigFor(bp).cols && k < 3
    ensures forall i :: IconsPerReel + 3 * k < i ==>
              !MatchesAt(Render(ColumnIcons(ResultsFor(bp), c, r)), ResultsFor(bp)[k].result[c], i)
  {
    var rs := ResultsFor(bp);
    var cfg := ConfigFor(bp);
    TablesFit(bp);
    StripShape(rs, cfg.cols, cfg.rows, c, r);
    var icons := ColumnIcons(rs, c, r);
    var target := rs[k].result[c];
    ShippedTailsHaveNoLaterRepeat(bp, c, k);
    forall i | IconsPerReel + 3 * k < i
      ensures !MatchesAt(Render(icons), target, i)
    {
      MatchesRendered(icons, target, i);
      MatchInTail(rs, c, r, target, i);
      LaterWindowsDifferSound(Tail(rs, c), target, 3 * k, i - IconsPerReel);
    }
  }

  /** For both shipped tables and every filler offset, locating outcome k's
      column in column c's strip lands on that outcome's own slot, 100 + 3k,
      rather than on the filler or on a later outcome. */
  lemma ShippedOutcomeLocated(bp: Breakpoint, c: nat, k: nat, r: int)
    requires c < ConfigFor(bp).cols && k < 3
    ensures LastMatch(Render(ColumnIcons(ResultsFor(bp), c, r)), ResultsFor(bp)[k].result[c]) == IconsPerReel + 3 * k
  {
    var strip := Render(ColumnIcons(ResultsFor(bp), c, r));
    var target := ResultsFor(bp)[k].result[c];
    ShippedSlotMatches(bp, c, k, r);
    ShippedNoLaterMatch(bp, c, k, r);
    var found := LastMatch(strip, target);
    assert found == IconsPerReel + 3 * k by {
      assert found <= IconsPerReel + 3 * k;
      assert !(found < IconsPerReel + 3 * k);
    }
  }

  /** `initializePositions`: each strip starts a random whole number of icons
      (0..7) down, drawn from `draws[c]`. */
  function InitialTransforms(cols: nat, h8: nat, draws: seq<real>): (transforms: seq<string>)
    requires |draws| == cols
    requires forall c :: 0 <= c < cols ==> 0.0 <= draws[c] < 1.0
    ensures |transforms| == cols
  {
    seq(cols, c requires 0 <= c < cols => TransformText(RandomIndex(draws[c], IconCount) * h8))
  }

  /** Each initial transform reads back as the drawn start icon when the icon
      height is a whole number of pixels, and as 0 when the offset has a
      fraction. */
  lemma InitialPositionsReadBack(cols: nat, h8: nat, draws: seq<real>, c: nat)
    requires |draws| == cols
    requires forall c :: 0 <= c < cols ==> 0.0 <= draws[c] < 1.0
    requires h8 > 0 && c < cols
    ensures var p := RandomIndex(draws[c], IconCount);
            VisibleStartIndex(InitialTransforms(cols, h8, draws)[c], h8) == if (p * h8) % 8 == 0 then p else 0
  {
    var p := RandomIndex(draws[c], IconCount);
    LandedStartDecodes(p, h8);
  }
}
