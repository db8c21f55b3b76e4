/** The two strings the reel page writes into the DOM and later reads back with a
    regular expression: the `src` of a reel icon and the `transform` of a strip. */
module Codecs {

  import opened Wrappers
  import opened Text

  // ---------------------------------------------------------------------------
  // Icon source: `@img/icon/icon-${n}.webp`, read back by /icon-(\d+)\.webp/.
  // ---------------------------------------------------------------------------

  const IconPrefix := "@img/icon/icon-"
  const IconSuffix := ".webp"

  /** The `src` attribute written for icon number `n`. */
  function IconSrc(n: int): (s: string)
    ensures IconPrefix <= s && |s| > |IconPrefix| + |IconSuffix|
    ensures s[|s| - |IconSuffix|..] == IconSuffix
  {
    IconPrefix + IntText(n) + IconSuffix
  }

  /** The capture of /icon-(\d+)\.webp/ when a match starts at index `i`. The
      greedy `\d+` cannot give back digits, since `\.` never matches a digit. */
  function IconMatchAt(s: string, i: nat): Option<string>
    requires i <= |s|
  {
    if i + 5 <= |s| && s[i..i + 5] == "icon-" then
      var k := DigitRun(s, i + 5);
      if k >= 1 && i + 5 + k + 5 <= |s| && s[i + 5 + k..i + 5 + k + 5] == IconSuffix
      then Some(s[i + 5..i + 5 + k])
      else None
    else None
  }

  /** `String.prototype.match` without the g flag: the leftmost match at or after `i`. */
  function FirstIconMatch(s: string, i: nat): Option<string>
    requires i <= |s|
    decreases |s| - i
  {
    match IconMatchAt(s, i)
    case Some(d) => Some(d)
    case None => if i < |s| then FirstIconMatch(s, i + 1) else None
  }

  /** `getIconNumber`: the captured digits, or 1 when the pattern is absent. */
  function GetIconNumber(src: string): (n: int)
    ensures n >= 0
    ensures FirstIconMatch(src, 0).None? ==> n == 1
  {
    match FirstIconMatch(src, 0)
    case Some(d) => if AllDigits(d) then DigitsValue(d) else 1
    case None => 1
  }

  // ---------------------------------------------------------------------------
  // Strip offset: `translateY(-${offset}px)`, read back by
  // /translateY\(-?(\d+)px\)/ and rounded by the icon height.
  // ---------------------------------------------------------------------------

  const TranslatePrefix := "translateY("

  /** The transform written for an offset of `e` eighths of a pixel. */
  function TransformText(e: nat): (t: string)
    ensures TranslatePrefix + "-" <= t && |t| > |TranslatePrefix| + 4
    ensures t[|t| - 3..] == "px)"
  {
    TranslatePrefix + "-" + EighthsText(e) + "px)"
  }

  /** The transform that resets a strip before a spin. */
  const ResetTransform := "translateY(0)"

  /** The capture of /translateY\(-?(\d+)px\)/ when a match starts at `i`. When
      the optional minus is present and the rest fails, dropping it cannot help
      either: `\d+` would then have to match the minus sign. */
  function TransformMatchAt(s: string, i: nat): Option<string>
    requires i <= |s|
  {
    if i + 11 <= |s| && s[i..i + 11] == TranslatePrefix then
      var q := if i + 11 < |s| && s[i + 11] == '-' then i + 12 else i + 11;
      var k := DigitRun(s, q);
      if k >= 1 && q + k + 3 <= |s| && s[q + k..q + k + 3] == "px)"
      then Some(s[q..q + k])
      else None
    else None
  }

  function FirstTransformMatch(s: string, i: nat): Option<string>
    requires i <= |s|
    decreases |s| - i
  {
    match TransformMatchAt(s, i)
    case Some(d) => Some(d)
    case None => if i < |s| then FirstTransformMatch(s, i + 1) else None
  }

  /** `currentOffset`: the parsed pixel count, or 0 when the pattern is absent. */
  function CurrentOffset(transform: string): (off: nat)
    ensures off > 0 ==> FirstTransformMatch(transform, 0).Some?
  {
    match FirstTransformMatch(transform, 0)
    case Some(d) => if AllDigits(d) then DigitsValue(d) else 0
    case None => 0
  }

  /** `Math.round(currentOffset / iconHeight)` with the icon height given in
      eighths of a pixel; for x >= 0, Math.round(x) is floor(x + 1/2). */
  function VisibleStartIndex(transform: string, h8: nat): (start: nat)
    requires h8 > 0
    ensures CurrentOffset(transform) == 0 ==> start == 0
  {
    DivOfMultiplePlusSmall(0, 2 * h8, h8);
    (16 * CurrentOffset(transform) + h8) / (2 * h8)
  }

  /** The window read back is the nearest whole icon to the parsed offset. */
  lemma VisibleStartRounds(transform: string, h8: nat)
    requires h8 > 0
    ensures RoundsTo(CurrentOffset(transform), h8, VisibleStartIndex(transform, h8))
  {
    var off := CurrentOffset(transform);
    DivBrackets(16 * off + h8, 2 * h8);
  }

  /** `start` is the nearest whole number of icons to an offset of `off`
      pixels, ties rounding up: start·h - h/2 <= off < start·h + h/2, with
      the height h in eighths of a pixel. */
  predicate RoundsTo(off: nat, h8: nat, start: nat) {
    2 * h8 * start <= 16 * off + h8 < 2 * h8 * (start + 1)
  }

  /** Euclidean division brackets its dividend: d·(x/d) <= x < d·(x/d + 1). */
  lemma DivBrackets(x: nat, d: nat)
    requires d > 0
    ensures d * (x / d) <= x < d * (x / d + 1)
  {
    var q := x / d;
    assert x == d * q + x % d;
    assert d * (q + 1) == d * q + d;
  }

  // ---------------------------------------------------------------------------
  // Round trips
  // ---------------------------------------------------------------------------

  /** The leftmost search skips every index where no match starts. */
  lemma {:induction false} SkipIconNonMatches(s: string, i: nat, j: nat)
    requires i <= j <= |s|
    requires forall m :: i <= m < j ==> IconMatchAt(s, m).None?
    ensures FirstIconMatch(s, i) == FirstIconMatch(s, j)
    decreases j - i
  {
    if i < j {
      SkipIconNonMatches(s, i + 1, j);
    }
  }

  lemma {:induction false} SkipTransformNonMatches(s: string, i: nat, j: nat)
    requires i <= j <= |s|
    requires forall m :: i <= m < j ==> TransformMatchAt(s, m).None?
    ensures FirstTransformMatch(s, i) == FirstTransformMatch(s, j)
    decreases j - i
  {
    if i < j {
      SkipTransformNonMatches(s, i + 1, j);
    }
  }

  /** Where the pieces of the source written for n >= 0 sit. */
  lemma IconSrcLayout(n: nat)
    ensures var s, d := IconSrc(n), NatText(n);
            && |s| == 20 + |d|
            && s[10..15] == "icon-" && s[15..15 + |d|] == d
            && s[15 + |d|..15 + |d| + 5] == IconSuffix
            && (forall m :: 4 <= m < 14 ==> s[m] != '-')
  {
    var s := IconSrc(n);
    forall m | 4 <= m < 14 ensures s[m] != '-' {
      assert s[m] == IconPrefix[m];
    }
  }

  /** No match of the pattern starts inside `@img/icon/`. */
  lemma IconSrcNoEarlyMatch(n: nat)
    ensures forall m :: 0 <= m < 10 ==> IconMatchAt(IconSrc(n), m).None?
  {
    var s := IconSrc(n);
    IconSrcLayout(n);
    forall m | 0 <= m < 10
      ensures IconMatchAt(s, m).None?
    {
      assert s[m..m + 5][4] == s[m + 4];
    }
  }

  /** The digit run after `icon-` of a written source is the whole number. */
  lemma IconDigitRun(n: nat)
    ensures var s, d := IconSrc(n), NatText(n);
            |s| >= 15 + |d| && DigitRun(s, 15) == |d|
  {
    var d := NatText(n);
    var s := IconSrc(n);
    IconSrcLayout(n);
    assert s[15 + |d|] == s[15 + |d|..15 + |d| + 5][0] == '.';
    forall j | 15 <= j < 15 + |d| ensures IsDigit(s[j]) {
      assert s[j] == s[15..15 + |d|][j - 15];
    }
    DigitRunStops(s, 15, |d|);
  }

  /** What the pattern captures at index 10 of a written source. */
  lemma IconMatchAtTen(n: nat)
    ensures IconMatchAt(IconSrc(n), 10) == Some(NatText(n))
  {
    IconSrcLayout(n);
    IconDigitRun(n);
  }

  /** getIconNumber inverts the icon source for every icon number n >= 0. */
  lemma IconRoundTrip(n: nat)
    ensures GetIconNumber(IconSrc(n)) == n
  {
    IconSrcNoEarlyMatch(n);
    SkipIconNonMatches(IconSrc(n), 0, 10);
    IconMatchAtTen(n);
    NatTextRoundTrip(n);
  }

  /** A negative icon number is written as `icon--n.webp`, which the pattern does
      not match, so it reads back as the default 1. */
  lemma NegativeIconReadsDefault(n: int)
    requires n < 0
    ensures GetIconNumber(IconSrc(n)) == 1
  {
    var d := NatText(-n);
    var s := IconSrc(n);
    assert s == IconPrefix + "-" + d + IconSuffix;
    forall m | 0 <= m <= |s|
      ensures IconMatchAt(s, m).None?
    {
      if m + 5 <= |s| {
        if m < 10 {
          assert s[m..m + 5][4] == IconPrefix[m + 4] != '-';
        } else if m == 10 {
          assert !IsDigit(s[15]);
        } else if m < 16 {
          assert s[m..m + 5][0] == s[m] != 'i';
        } else {
          assert s[m] == (d + IconSuffix)[m - 16];
          assert s[m..m + 5][0] == s[m] != 'i';
        }
      }
    }
    SkipIconNonMatches(s, 0, |s|);
  }

  /** In a written transform, no match starts after index 0: the only '(' of
      the string is the one that closes `translateY(`. */
  lemma TransformMatchesOnlyAtZero(e: nat, m: nat)
    requires 1 <= m <= |TransformText(e)|
    ensures TransformMatchAt(TransformText(e), m).None?
  {
    var t := EighthsText(e);
    var s := TransformText(e);
    assert s == TranslatePrefix + "-" + t + "px)";
    if m + 11 <= |s| {
      if m + 10 == 11 {
        assert s[m..m + 11][10] == s[11] == '-';
      } else {
        assert s[m + 10] == (t + "px)")[m + 10 - 12];
        assert s[m..m + 11][10] == s[m + 10] != '(';
      }
    }
  }

  /** Where the pieces of a written transform sit: the prefix, the minus, the
      integer part, then `px)` for a whole offset or the point of a fraction. */
  lemma TransformLayout(e: nat)
    ensures var s, d := TransformText(e), NatText(e / 8);
            && |s| >= 15 + |d|
            && s[0..11] == TranslatePrefix && s[11] == '-' && s[12..12 + |d|] == d
            && (e % 8 == 0 ==> s[12 + |d|..12 + |d| + 3] == "px)")
            && (e % 8 != 0 ==> s[12 + |d|] == '.')
  {
    var t := EighthsText(e);
    var s := TransformText(e);
    var d := NatText(e / 8);
    assert s == TranslatePrefix + "-" + t + "px)";
    assert s[12..12 + |d|] == t[..|d|];
    if e % 8 != 0 {
      assert s[12 + |d|] == t[|d|];
    }
  }

  /** The digit run after `translateY(-` of a written transform is the whole
      pixel count. */
  lemma TransformDigitRun(e: nat)
    ensures var s, d := TransformText(e), NatText(e / 8);
            |s| >= 12 + |d| && DigitRun(s, 12) == |d|
  {
    var s := TransformText(e);
    var d := NatText(e / 8);
    TransformLayout(e);
    forall j | 12 <= j < 12 + |d| ensures IsDigit(s[j]) {
      assert s[j] == s[12..12 + |d|][j - 12];
    }
    if e % 8 == 0 {
      assert s[12 + |d|] == s[12 + |d|..12 + |d| + 3][0];
    } else {
      assert !IsDigit(s[12 + |d|]);
    }
    DigitRunStops(s, 12, |d|);
  }

  /** What the pattern captures at index 0 of a written transform. */
  lemma TransformMatchAtZero(e: nat)
    ensures TransformMatchAt(TransformText(e), 0)
         == if e % 8 == 0 then Some(NatText(e / 8)) else None
  {
    var s := TransformText(e);
    var d := NatText(e / 8);
    TransformLayout(e);
    TransformDigitRun(e);
    var q := 12 + |d|;
    if e % 8 == 0 {
      assert s[q..q + 3] == "px)";
    } else {
      assert q + 3 > |s| || s[q..q + 3][0] == '.';
    }
  }

  /** Parsing a written transform gives back the whole pixel count when the
      offset is a whole number of pixels, and 0 when it has a fraction: the
      point after the integer part stops `\d+` short of `px)`. */
  lemma TransformRoundTrip(e: nat)
    ensures CurrentOffset(TransformText(e)) == if e % 8 == 0 then e / 8 else 0
  {
    var s := TransformText(e);
    forall m | 1 <= m <= |s|
      ensures TransformMatchAt(s, m).None?
    {
      TransformMatchesOnlyAtZero(e, m);
    }
    SkipTransformNonMatches(s, 1, |s|);
    TransformMatchAtZero(e);
    NatTextRoundTrip(e / 8);
  }

  lemma MulAtLeast(k: int, b: int)
    requires k >= 1 && b >= 0
    ensures k * b >= b
  {
  }

  lemma MulDistributes(q: int, p: int, b: int)
    ensures q * b - p * b == (q - p) * b
  {
  }

  /** Euclidean division of q * b + c by b, when 0 <= c < b, is q. */
  lemma DivOfMultiplePlusSmall(q: nat, b: nat, c: nat)
    requires 0 <= c < b
    ensures (q * b + c) / b == q
  {
    var x := q * b + c;
    var q', r' := x / b, x % b;
    assert x == q' * b + r';
    MulDistributes(q, q', b);
    if q' < q {
      MulAtLeast(q - q', b);
    } else if q' > q {
      MulAtLeast(q' - q, b);
      MulDistributes(q', q, b);
    }
  }

  /** Rounding off / (h8 / 8) to the nearest integer gives pos when the offset
      is exactly pos icons. */
  lemma RoundsToPosition(off: nat, pos: nat, h8: nat)
    requires h8 > 0 && 8 * off == pos * h8
    ensures (16 * off + h8) / (2 * h8) == pos
  {
    assert 16 * off + h8 == pos * (2 * h8) + h8;
    DivOfMultiplePlusSmall(pos, 2 * h8, h8);
  }

  /** The visible window read back from a strip moved to `pos` icons of `h8`
      eighths each starts at `pos` exactly when that offset is a whole number of
      pixels; otherwise the pattern fails and the window reads as starting at 0. */
  lemma LandedStartDecodes(pos: nat, h8: nat)
    requires h8 > 0
    ensures VisibleStartIndex(TransformText(pos * h8), h8)
         == if (pos * h8) % 8 == 0 then pos else 0
  {
    var x := pos * h8;
    var t := TransformText(x);
    TransformRoundTrip(x);
    var off := CurrentOffset(t);
    assert VisibleStartIndex(t, h8) == (16 * off + h8) / (2 * h8);
    if x % 8 == 0 {
      RoundsToPosition(off, pos, h8);
    } else {
      DivOfMultiplePlusSmall(0, 2 * h8, h8);
    }
  }

  /** The reset transform carries no `px`, so it reads as offset 0. */
  lemma ResetReadsZero()
    ensures CurrentOffset(ResetTransform) == 0
  {
    var s := ResetTransform;
    forall m | 0 <= m <= |s|
      ensures TransformMatchAt(s, m).None?
    {
      if m == 0 {
        DigitRunStops(s, 11, 1);
      }
    }
    SkipTransformNonMatches(s, 0, |s|);
  }
}
