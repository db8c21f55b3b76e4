/** The slot machine: its state, the two halves of a spin split at the wait
    for the reels, the resize handler, the bet controls, the sound switch, the
    win highlight and the payline overlay. */
module Machine {

  import opened Wrappers
  import opened Codecs
  import opened Layout
  import opened Outcomes
  import opened Reels
  import opened Highlight
  import opened Controls

  datatype Sound = SpinSound | WinSound

  /** A spin between its start and the moment its reels have stopped: the
      result it is playing and the length of the script it was taken from. */
  datatype InFlight = InFlight(result: Outcome, total: nat)

  const StartingBalance: int := 1000

  /** Where `spinColumn` leaves a strip: at the located outcome, `pos` icons
      down, or where it was when the outcome is not found. */
  function Landing(strip: seq<string>, target: seq<int>, transform: string, h8: nat): (landed: string)
    ensures landed == transform || TranslatePrefix + "-" <= landed
  {
    var pos := LastMatch(strip, target);
    if pos < 0 then transform else TransformText(pos * h8)
  }

  /** A strip that found its target reads back at the target's position when
      the offset is a whole number of pixels. */
  lemma LandingReadsBack(strip: seq<string>, target: seq<int>, transform: string, h8: nat)
    requires LastMatch(strip, target) >= 0 && h8 > 0 && (LastMatch(strip, target) * h8) % 8 == 0
    ensures VisibleStartIndex(Landing(strip, target, transform, h8), h8) == LastMatch(strip, target)
  {
    LandedStartDecodes(LastMatch(strip, target), h8);
  }

  /** The transform of a strip moved down to outcome k's slot, 100 + 3k
      icons of `h8` eighths of a pixel each. */
  function SlotTransform(k: nat, h8: nat): string {
    TransformText((IconsPerReel + 3 * k) * h8)
  }

  /** `spinColumn`: a column looks up its target and, when found, is moved
      so that the target fills its window; otherwise it stays where it was. */
  method SpinColumn(strip: seq<string>, target: seq<int>, transform: string, h8: nat)
    returns (landed: string)
    ensures landed == Landing(strip, target, transform, h8)
  {
    var targetPosition := FindSequencePosition(strip, target);
    if targetPosition == -1 {
      return transform;
    }
    var finalOffset := targetPosition * h8;
    landed := TransformText(finalOffset);
  }

  /** `spin`: every column runs `spinColumn`. */
  method SpinColumns(strips: seq<seq<string>>, targets: seq<seq<int>>, transforms: seq<string>, h8: nat)
    returns (landed: seq<string>)
    requires |transforms| == |strips| <= |targets|
    ensures |landed| == |strips|
    ensures forall c :: 0 <= c < |strips| ==> landed[c] == Landing(strips[c], targets[c], transforms[c], h8)
  {
    landed := [];
    for c := 0 to |strips|
      invariant |landed| == c
      invariant forall c' :: 0 <= c' < c ==> landed[c'] == Landing(strips[c'], targets[c'], transforms[c'], h8)
    {
      var column := SpinColumn(strips[c], targets[c], transforms[c], h8);
      landed := landed + [column];
    }
  }

  /** In both shipped layouts a column's strip lands on outcome k's own slot. */
  lemma ShippedLanding(bp: Breakpoint, c: nat, k: nat, r: int, strip: seq<string>, target: seq<int>,
                       transform: string, h8: nat)
    requires c < ConfigFor(bp).cols && k < 3
    requires strip == Render(ColumnIcons(ResultsFor(bp), c, r))
    requires target == ResultsFor(bp)[k].result[c]
    ensures Landing(strip, target, transform, h8) == SlotTransform(k, h8)
  {
    ShippedOutcomeLocated(bp, c, k, r);
  }

  /** Every column of a spin of outcome k lands on the outcome's slot. */
  lemma AllColumnsLand(bp: Breakpoint, k: nat, strips: seq<seq<string>>, offsets: seq<int>,
                       targets: seq<seq<int>>, transforms: seq<string>, h8: nat, landed: seq<string>)
    requires k < 3
    requires |strips| == |offsets| == |transforms| == |landed| == ConfigFor(bp).cols
    requires targets == ResultsFor(bp)[k].result
    requires forall c :: 0 <= c < |strips| ==> strips[c] == Render(ColumnIcons(ResultsFor(bp), c, offsets[c]))
    requires forall c :: 0 <= c < |strips| ==> c < |targets| && landed[c] == Landing(strips[c], targets[c], transforms[c], h8)
    ensures forall c :: 0 <= c < |landed| ==> landed[c] == SlotTransform(k, h8)
  {
    forall c | 0 <= c < |landed|
      ensures landed[c] == SlotTransform(k, h8)
    {
      ShippedLanding(bp, c, k, offsets[c], strips[c], targets[c], transforms[c], h8);
    }
  }

  /** `spin` over strips built from a shipped table: every column lands on
      outcome k's own slot. */
  method SpinToOutcome(bp: Breakpoint, k: nat, strips: seq<seq<string>>, ghost offsets: seq<int>,
                       transforms: seq<string>, h8: nat) returns (landed: seq<string>)
    requires k < 3
    requires StripsOf(bp, strips, offsets) && |transforms| == |strips|
    ensures |landed| == |strips|
    ensures forall c :: 0 <= c < |landed| ==> landed[c] == SlotTransform(k, h8)
  {
    OutcomeColumns(bp, k);
    var targets := ResultsFor(bp)[k].result;
    landed := SpinColumns(strips, targets, transforms, h8);
    AllColumnsLand(bp, k, strips, offsets, targets, transforms, h8, landed);
  }

  /** When the icons are a whole number of pixels tall, the window of a landed
      strip starts at outcome k's slot and shows outcome k's column, row by row. */
  lemma LandedWindowShowsOutcome(bp: Breakpoint, width: nat, c: nat, k: nat, r: int, j: nat)
    requires bp == GetCurrentBreakpoint(width) && (bp == Mobile || width <= 1440)
    requires c < ConfigFor(bp).cols && k < 3 && j < ConfigFor(bp).rows
    ensures var h8 := IconHeight8(bp, width);
            var start := VisibleStartIndex(SlotTransform(k, h8), h8);
            var strip := Render(ColumnIcons(ResultsFor(bp), c, r));
            && start == IconsPerReel + 3 * k
            && start + j < |strip|
            && k < |ResultsFor(bp)| && c < |ResultsFor(bp)[k].result| && j < |ResultsFor(bp)[k].result[c]|
            && GetIconNumber(strip[start + j]) == ResultsFor(bp)[k].result[c][j]
  {
    SlotReadsBack(bp, width, k);
    ShippedSlotMatches(bp, c, k, r);
    var strip := Render(ColumnIcons(ResultsFor(bp), c, r));
    assert ConfigFor(bp).rows == 3;
    assert GetIconNumber(strip[IconsPerReel + 3 * k + j]) == ResultsFor(bp)[k].result[c][j];
  }

  /** When the icons are a whole number of pixels tall, a strip moved to
      outcome k's slot reads back at that slot. */
  lemma SlotReadsBack(bp: Breakpoint, width: nat, k: nat)
    requires bp == Mobile || width <= 1440
    ensures var h8 := IconHeight8(bp, width);
            VisibleStartIndex(SlotTransform(k, h8), h8) == IconsPerReel + 3 * k
  {
    WholeIconHeightReadsBack(bp, width, IconsPerReel + 3 * k);
  }

  /** The strips of a breakpoint's columns, built from the offsets 0..7. */
  ghost predicate StripsOf(bp: Breakpoint, strips: seq<seq<string>>, offsets: seq<int>) {
    && |strips| == ConfigFor(bp).cols && |offsets| == ConfigFor(bp).cols
    && forall c {:trigger ColumnIcons(ResultsFor(bp), c, offsets[c])} :: 0 <= c < |strips| ==>
         0 <= offsets[c] < IconCount && strips[c] == Render(ColumnIcons(ResultsFor(bp), c, offsets[c]))
  }

  /** One transform per strip, and one set of classes per image. */
  predicate ViewsFit(cols: nat, strips: seq<seq<string>>, transforms: seq<string>, marks: seq<seq<set<CellClass>>>) {
    && |strips| == cols && |transforms| == cols && |marks| == cols
    && forall c :: 0 <= c < cols ==> |marks[c]| == |strips[c]|
  }

  /** `createReels` with `initializePositions`: fresh strips, unmarked icons,
      and each strip a random whole number of icons down. */
  method ReelsAndPositions(cfg: Config, h8: nat, reelDraws: seq<real>, positionDraws: seq<real>)
    returns (strips: seq<seq<string>>, ghost offsets: seq<int>, marks: seq<seq<set<CellClass>>>,
             transforms: seq<string>)
    requires |reelDraws| == cfg.cols && |positionDraws| == cfg.cols
    requires forall c :: 0 <= c < cfg.cols ==> 0.0 <= reelDraws[c] < 1.0 && 0.0 <= positionDraws[c] < 1.0
    requires cfg == ConfigFor(cfg.breakpoint)
    ensures StripsOf(cfg.breakpoint, strips, offsets) && ViewsFit(cfg.cols, strips, transforms, marks)
    ensures forall c :: 0 <= c < cfg.cols ==> offsets[c] == RandomIndex(reelDraws[c], IconCount)
    ensures Clean(marks)
    ensures transforms == InitialTransforms(cfg.cols, h8, positionDraws)
  {
    var cols := cfg.cols;
    strips := CreateReels(cols, ResultsFor(cfg.breakpoint), reelDraws);
    offsets := seq(cols, c requires 0 <= c < cols => RandomIndex(reelDraws[c], IconCount));
    var built := strips;
    marks := CleanMarks(seq(cols, c requires 0 <= c < cols => |built[c]| as nat));
    transforms := InitialTransforms(cols, h8, positionDraws);
  }

  class SlotMachine {
    /** `window.innerWidth`, read by the breakpoint and the icon height. */
    var innerWidth: nat
    var config: Config
    var spinCount: nat
    var isSpinning: bool
    var isSoundEnabled: bool
    var winAnimationType: Mode
    var balance: int
    var betValues: seq<int>
    var currentBetIndex: nat
    var bet: int
    /** The `src` of every image, strip by strip. */
    var strips: seq<seq<string>>
    /** Each strip's `style.transform`. */
    var transforms: seq<string>
    /** The highlight classes of every image, strip by strip. */
    var marks: seq<seq<set<CellClass>>>
    var linePatterns: map<int, seq<seq<int>>>
    /** The Lines button marked active. */
    var activeLinesItem: Option<nat>
    /** The payline overlay, as the rows of each of its polylines. */
    var paylines: Option<seq<seq<int>>>
    /** The overlay's two-second hide timer is pending. */
    var paylinesTimer: bool
    /** The spin buttons carry the `disabled` class. */
    var buttonsDisabled: bool
    /** The button bar carries the `hidden` class. */
    var buttonsHidden: bool
    /** Popup timers started by the CTA and not yet fired. */
    var popupTimers: nat
    var popupShown: bool
    var confettiStarted: bool
    /** Every sound started, in order, and the sounds not stopped since. */
    var played: seq<Sound>
    var playing: set<Sound>
    /** The spin waiting for its reels to stop. */
    var inFlight: Option<InFlight>
    /** Win dwell timers not yet fired. */
    var pendingDwells: nat
    /** The random offset each strip's filler was built from. */
    ghost var fillerOffsets: seq<int>
    /** How often the CTA has run since the strips were last built. */
    ghost var ctaSinceRebuild: nat

    function Results(): seq<Outcome>
      reads this`config
    {
      ResultsFor(config.breakpoint)
    }

    /** `config.getIconHeight()`, in eighths of a pixel. */
    function H8(): (h8: nat)
      reads this`config, this`innerWidth
      ensures h8 > 0
    {
      IconHeight8(config.breakpoint, innerWidth)
    }

    /** The first visible icon of every strip, as the highlight reads it back
        from the transform. */
    function Starts(): (starts: seq<nat>)
      reads this`transforms, this`config, this`innerWidth
      ensures |starts| == |transforms|
    {
      var ts, h8 := transforms, H8();
      seq(|ts|, c requires 0 <= c < |ts| => VisibleStartIndex(ts[c], h8))
    }

    /** Each strip is the rendering of its column's icons. */
    ghost predicate StripsBuilt()
      reads this`config, this`strips, this`fillerOffsets
    {
      StripsOf(config.breakpoint, strips, fillerOffsets)
    }

    /** One transform per strip, and one set of classes per image. */
    ghost predicate ViewsShaped()
      reads this`config, this`strips, this`transforms, this`marks
    {
      ViewsFit(config.cols, strips, transforms, marks)
    }

    /** The bet is the selected entry of the bet list. */
    ghost predicate BetValid()
      reads this`betValues, this`currentBetIndex, this`bet
    {
      |betValues| > 0 && currentBetIndex < |betValues| && bet == betValues[currentBetIndex]
    }

    /** The balance never goes negative, the spin cursor stays inside the
        script, a spin is in flight exactly while `isSpinning`, and the CTA has
        run once exactly when the script is used up. */
    ghost predicate SpinValid()
      reads this`balance, this`spinCount, this`isSpinning, this`inFlight, this`ctaSinceRebuild
    {
      && balance >= 0
      && spinCount <= ScriptSize
      && (isSpinning <==> inFlight.Some?)
      && (inFlight.Some? ==>
            spinCount < ScriptSize && inFlight.value.result.winAmount >= 0 && inFlight.value.total == ScriptSize)
      && ctaSinceRebuild == (if spinCount == ScriptSize then 1 else 0)
    }

    /** The configuration is the width's breakpoint entry, and the payline
        patterns are made for its grid. */
    ghost predicate LayoutFits()
      reads this`config, this`innerWidth, this`linePatterns
    {
      && config == ConfigFor(GetCurrentBreakpoint(innerWidth))
      && PatternsFit(linePatterns, config.cols, config.rows)
    }

    /** What only a resize changes: the layout and the strips built for it. */
    ghost predicate Steady()
      reads this`config, this`innerWidth, this`linePatterns, this`strips, this`fillerOffsets
    {
      LayoutFits() && StripsBuilt()
    }

    /** The machine's invariant. The bet selection is kept apart, as `BetValid`:
        only the bet methods touch its fields, so every other method leaves it
        as it was by its `modifies` clause alone. */
    ghost predicate Valid()
      reads this
    {
      && Steady()
      && ViewsShaped()
      && SpinValid()
    }

    constructor (width: nat, buttonValues: seq<Option<int>>, lineDraws: seq<seq<seq<real>>>,
                 reelDraws: seq<real>, positionDraws: seq<real>)
      requires PatternDraws(lineDraws, ConfigFor(GetCurrentBreakpoint(width)).cols)
      requires |reelDraws| == ConfigFor(GetCurrentBreakpoint(width)).cols
      requires |positionDraws| == ConfigFor(GetCurrentBreakpoint(width)).cols
      requires forall c :: 0 <= c < |reelDraws| ==> 0.0 <= reelDraws[c] < 1.0 && 0.0 <= positionDraws[c] < 1.0
      ensures Valid() && BetValid()
      ensures innerWidth == width && spinCount == 0 && !isSpinning && isSoundEnabled
      ensures winAnimationType == Border && balance == StartingBalance
      ensures betValues == (if ParsedBets(buttonValues) != [] then ParsedBets(buttonValues) else DefaultBets)
      ensures currentBetIndex == 0 && bet == betValues[0]
      ensures forall c :: 0 <= c < config.cols ==> fillerOffsets[c] == RandomIndex(reelDraws[c], IconCount)
      ensures transforms == InitialTransforms(config.cols, H8(), positionDraws) && Clean(marks)
      ensures PatternsDrawnFrom(linePatterns, lineDraws, config.cols, config.rows)
      ensures paylines.None? && !paylinesTimer && activeLinesItem.None?
      ensures !buttonsDisabled && !buttonsHidden && popupTimers == 0 && !popupShown && !confettiStarted
      ensures played == [] && playing == {} && pendingDwells == 0
    {
      var cfg := ConfigFor(GetCurrentBreakpoint(width));
      innerWidth := width;
      config := cfg;
      spinCount := 0;
      isSpinning := false;
      isSoundEnabled := true;
      winAnimationType := Border;
      balance := StartingBalance;
      var values := GetBetValuesFromButtons(buttonValues);
      betValues := values;
      currentBetIndex := 0;
      bet := values[0];
      var patterns := GeneratePatterns(cfg, lineDraws);
      linePatterns := patterns;
      activeLinesItem := None;
      paylines := None;
      paylinesTimer := false;
      buttonsDisabled := false;
      buttonsHidden := false;
      popupTimers := 0;
      popupShown := false;
      confettiStarted := false;
      played := [];
      playing := {};
      inFlight := None;
      pendingDwells := 0;
      var built, offsets, unmarked, positions :=
        ReelsAndPositions(cfg, IconHeight8(cfg.breakpoint, width), reelDraws, positionDraws);
      strips, fillerOffsets, marks, transforms := built, offsets, unmarked, positions;
      ctaSinceRebuild := 0;
    }

    /** `handleResize`: the new width always takes effect (the icon height now
        follows it); only a change of breakpoint rebuilds the strips, resets
        the spin cursor, regenerates the payline patterns and removes the
        overlay. A spin in flight is not stopped. */
    method HandleResize(newWidth: nat, lineDraws: seq<seq<seq<real>>>, reelDraws: seq<real>, positionDraws: seq<real>)
      requires Valid()
      requires PatternDraws(lineDraws, ConfigFor(GetCurrentBreakpoint(newWidth)).cols)
      requires |reelDraws| == ConfigFor(GetCurrentBreakpoint(newWidth)).cols
      requires |positionDraws| == ConfigFor(GetCurrentBreakpoint(newWidth)).cols
      requires forall c :: 0 <= c < |reelDraws| ==> 0.0 <= reelDraws[c] < 1.0 && 0.0 <= positionDraws[c] < 1.0
      modifies this`innerWidth, this`config, this`spinCount, this`strips, this`transforms, this`marks,
               this`fillerOffsets, this`linePatterns, this`paylines, this`ctaSinceRebuild
      ensures Valid()
      ensures innerWidth == newWidth
      ensures GetCurrentBreakpoint(newWidth) == old(config.breakpoint) ==>
                config == old(config) && spinCount == old(spinCount) && strips == old(strips) &&
                transforms == old(transforms) && marks == old(marks) &&
                linePatterns == old(linePatterns) && paylines == old(paylines)
      ensures GetCurrentBreakpoint(newWidth) != old(config.breakpoint) ==>
                && config == ConfigFor(GetCurrentBreakpoint(newWidth))
                && spinCount == 0
                && (forall c :: 0 <= c < config.cols ==> fillerOffsets[c] == RandomIndex(reelDraws[c], IconCount))
                && transforms == InitialTransforms(config.cols, H8(), positionDraws)
                && Clean(marks)
                && PatternsDrawnFrom(linePatterns, lineDraws, config.cols, config.rows)
                && paylines.None?
    {
      if GetCurrentBreakpoint(newWidth) != config.breakpoint {
        Rebuild(newWidth, lineDraws, reelDraws, positionDraws);
      } else {
        innerWidth := newWidth;
      }
    }

    /** The breakpoint-change branch of `handleResize`: the new configuration,
        a reset spin cursor, new strips at new positions, new payline patterns
        and no overlay. */
    method Rebuild(newWidth: nat, lineDraws: seq<seq<seq<real>>>, reelDraws: seq<real>, positionDraws: seq<real>)
      requires PatternDraws(lineDraws, ConfigFor(GetCurrentBreakpoint(newWidth)).cols)
      requires |reelDraws| == ConfigFor(GetCurrentBreakpoint(newWidth)).cols
      requires |positionDraws| == ConfigFor(GetCurrentBreakpoint(newWidth)).cols
      requires forall c :: 0 <= c < |reelDraws| ==> 0.0 <= reelDraws[c] < 1.0 && 0.0 <= positionDraws[c] < 1.0
      modifies this`innerWidth, this`config, this`spinCount, this`strips, this`transforms, this`marks,
               this`fillerOffsets, this`linePatterns, this`paylines, this`ctaSinceRebuild
      ensures innerWidth == newWidth && config == ConfigFor(GetCurrentBreakpoint(newWidth))
      ensures spinCount == 0 && ctaSinceRebuild == 0 && paylines.None?
      ensures StripsBuilt() && ViewsShaped() && PatternsFit(linePatterns, config.cols, config.rows)
      ensures forall c :: 0 <= c < config.cols ==> fillerOffsets[c] == RandomIndex(reelDraws[c], IconCount)
      ensures transforms == InitialTransforms(config.cols, H8(), positionDraws) && Clean(marks)
      ensures PatternsDrawnFrom(linePatterns, lineDraws, config.cols, config.rows)
    {
      var cfg := ConfigFor(GetCurrentBreakpoint(newWidth));
      var built, offsets, unmarked, positions :=
        ReelsAndPositions(cfg, IconHeight8(cfg.breakpoint, newWidth), reelDraws, positionDraws);
      var patterns := GeneratePatterns(cfg, lineDraws);
      innerWidth, config, spinCount, ctaSinceRebuild := newWidth, cfg, 0, 0;
      strips, fillerOffsets, marks, transforms := built, offsets, unmarked, positions;
      linePatterns, paylines := patterns, None;
    }

    /** `playSound`: only while sound is on. */
    method PlaySound(sound: Sound)
      modifies this`played, this`playing
      ensures played == old(played) + (if isSoundEnabled then [sound] else [])
      ensures playing == old(playing) + (if isSoundEnabled then {sound} else {})
    {
      if !isSoundEnabled {
        return;
      }
      played := played + [sound];
      playing := playing + {sound};
    }

    /** `enableSpinButtons`: refused once the script is used up. */
    method EnableSpinButtons()
      modifies this`buttonsDisabled
      ensures buttonsDisabled == (if spinCount >= |Results()| then old(buttonsDisabled) else false)
    {
      if spinCount >= |Results()| {
        return;
      }
      buttonsDisabled := false;
    }

    /** The first half of `handleSpin`, up to the wait for the reels: the three
        guards, the debit, the disabled buttons, the spin sound and the landing
        of every column. */
    method BeginSpin() returns (accepted: bool)
      requires Valid()
      modifies this`isSpinning, this`balance, this`buttonsDisabled, this`played, this`playing,
               this`transforms, this`inFlight
      ensures Valid()
      ensures accepted <==> !old(isSpinning) && old(balance) >= bet && spinCount < |Results()|
      ensures !accepted ==> isSpinning == old(isSpinning) && balance == old(balance) &&
                            buttonsDisabled == old(buttonsDisabled) && played == old(played) &&
                            playing == old(playing) && transforms == old(transforms) && inFlight == old(inFlight)
      ensures accepted ==>
                && isSpinning && buttonsDisabled
                && balance == old(balance) - bet
                && inFlight == Some(InFlight(Results()[spinCount], |Results()|))
                && played == old(played) + (if isSoundEnabled then [SpinSound] else [])
                && playing == old(playing) + (if isSoundEnabled then {SpinSound} else {})
                && |transforms| == config.cols
                && forall c :: 0 <= c < config.cols ==> transforms[c] == SlotTransform(spinCount, H8())
    {
      if isSpinning || balance < bet || spinCount >= |Results()| {
        return false;
      }
      Start();
      accepted := true;
    }

    /** An accepted spin: its bookkeeping, then the landing of every column. */
    method Start()
      requires Valid() && !isSpinning && balance >= bet && spinCount < |Results()|
      modifies this`isSpinning, this`balance, this`buttonsDisabled, this`played, this`playing,
               this`transforms, this`inFlight
      ensures Valid()
      ensures isSpinning && buttonsDisabled
      ensures balance == old(balance) - bet
      ensures inFlight == Some(InFlight(Results()[spinCount], |Results()|))
      ensures played == old(played) + (if isSoundEnabled then [SpinSound] else [])
      ensures playing == old(playing) + (if isSoundEnabled then {SpinSound} else {})
      ensures |transforms| == config.cols
      ensures forall c :: 0 <= c < config.cols ==> transforms[c] == SlotTransform(spinCount, H8())
    {
      Commit();
      Spin();
    }

    /** The accepted spin's bookkeeping: the flag, the debit, the disabled
        buttons, the spin sound, and the outcome the spin waits for. */
    method Commit()
      requires SpinValid() && !isSpinning && spinCount < |Results()| && balance >= bet
      ensures SpinValid()
      modifies this`isSpinning, this`balance, this`buttonsDisabled, this`played, this`playing, this`inFlight
      ensures isSpinning && buttonsDisabled && balance == old(balance) - bet
      ensures inFlight == Some(InFlight(Results()[spinCount], |Results()|))
      ensures inFlight.value.result.winAmount >= 0
      ensures played == old(played) + (if isSoundEnabled then [SpinSound] else [])
      ensures playing == old(playing) + (if isSoundEnabled then {SpinSound} else {})
    {
      var results := Results();
      OutcomeColumns(config.breakpoint, spinCount);
      isSpinning := true;
      balance := balance - bet;
      buttonsDisabled := true;
      PlaySound(SpinSound);
      inFlight := Some(InFlight(results[spinCount], |results|));
    }

    /** `spin`: every column looks up its column of the current result and is
        moved to it, which in both shipped layouts is the result's own slot. */
    method Spin()
      requires config == ConfigFor(config.breakpoint) && StripsBuilt() && spinCount < |Results()|
      requires ViewsShaped()
      modifies this`transforms
      ensures ViewsShaped()
      ensures forall c :: 0 <= c < config.cols ==>
                transforms[c] == SlotTransform(spinCount, H8())
    {
      OutcomeColumns(config.breakpoint, spinCount);
      var h8 := H8();
      var landed := SpinToOutcome(config.breakpoint, spinCount, strips, fillerOffsets, transforms, h8);
      transforms := landed;
    }

    /** `drawWinBorder` and `applyWinIconEffects`: rows 0..rows-1 of each
        strip's visible window, where the icon exists, get the classes of the
        mode. A border draw skips a column whose entry is `null`. */
    method MarkWindow(mode: Mode, winLine: seq<Option<int>>)
      requires |marks| == |transforms|
      modifies this`marks
      ensures |marks| == |old(marks)|
      ensures forall c :: 0 <= c < |marks| ==>
                marks[c] == DrawColumn(mode, EntryAt(winLine, c), old(marks)[c], Starts()[c], config.rows)
    {
      var before := marks;
      var rows := config.rows;
      for c := 0 to |marks|
        invariant |marks| == |before|
        invariant forall c' :: 0 <= c' < c ==>
                    marks[c'] == DrawColumn(mode, EntryAt(winLine, c'), before[c'], Starts()[c'], rows)
        invariant forall c' :: c <= c' < |marks| ==> marks[c'] == before[c']
      {
        var winRowIndex := EntryAt(winLine, c);
        var visibleStartIndex := VisibleStartIndex(transforms[c], H8());
        var icons := marks[c];
        assert visibleStartIndex == Starts()[c];
        if mode == Border && winRowIndex == Null {
          SkippedColumnUnchanged(before[c], visibleStartIndex, rows);
          continue;
        }
        for i := 0 to rows
          invariant |icons| == |before[c]|
          invariant forall k :: 0 <= k < |icons| ==>
                      icons[k] == if visibleStartIndex <= k < visibleStartIndex + i
                                  then before[c][k] + AddedClasses(mode, winRowIndex, k - visibleStartIndex)
                                  else before[c][k]
        {
          var iconIndex := visibleStartIndex + i;
          if iconIndex < |icons| {
            icons := icons[iconIndex := icons[iconIndex] + AddedClasses(mode, winRowIndex, i)];
          }
        }
        assert icons == DrawColumn(mode, winRowIndex, before[c], visibleStartIndex, rows);
        marks := marks[c := icons];
      }
    }

    /** `drawWinAnimation`: a border draw, or a line draw, which marks the
        icons only when the line has two points. */
    method DrawWinAnimation(winLine: seq<Option<int>>)
      requires |marks| == |transforms|
      modifies this`marks
      ensures marks == DrawWin(winAnimationType, winLine, old(marks), Starts(), config.rows)
    {
      if winAnimationType == Border {
        MarkWindow(Border, winLine);
      } else {
        if PointCount(winLine, |marks|) < 2 {
          return;
        }
        MarkWindow(Line, winLine);
      }
    }

    /** `removeWinAnimation`: `removeWinBorder` or `removeWinLine`, by the mode
        in force when it runs. */
    method RemoveWinAnimation()
      modifies this`marks
      ensures marks == RemoveWin(winAnimationType, old(marks))
    {
      var before := marks;
      for c := 0 to |marks|
        invariant |marks| == |before|
        invariant forall c' :: 0 <= c' < c ==> marks[c'] == RemoveColumn(winAnimationType, before[c'])
        invariant forall c' :: c <= c' < |marks| ==> marks[c'] == before[c']
      {
        marks := marks[c := RemoveColumn(winAnimationType, marks[c])];
      }
    }

    /** `showCTA`: the button bar is hidden and the popup timer starts. */
    method ShowCTA()
      modifies this`buttonsHidden, this`popupTimers, this`ctaSinceRebuild
      ensures buttonsHidden && popupTimers == old(popupTimers) + 1
      ensures ctaSinceRebuild == old(ctaSinceRebuild) + 1
    {
      buttonsHidden := true;
      popupTimers := popupTimers + 1;
      ctaSinceRebuild := ctaSinceRebuild + 1;
    }

    /** `showResult`: a win plays its sound, draws its win line when it has
        one and starts its dwell; a loss turns the spin buttons back on at
        once. */
    method ShowResult(result: Outcome)
      requires ViewsShaped()
      modifies this`marks, this`pendingDwells, this`buttonsDisabled, this`played, this`playing
      ensures ViewsShaped()
      ensures marks == (if result.kind != Loss && result.winLine.Some?
                        then DrawWin(winAnimationType, result.winLine.value, old(marks), Starts(), config.rows)
                        else old(marks))
      ensures pendingDwells == old(pendingDwells) + (if result.kind != Loss then 1 else 0)
      ensures pendingDwells == old(pendingDwells) + (if DwellMs(result.kind).Some? then 1 else 0)
      ensures buttonsDisabled == (if result.kind == Loss && spinCount < |Results()| then false else old(buttonsDisabled))
      ensures played == old(played) + (if result.kind != Loss && isSoundEnabled then [WinSound] else [])
      ensures playing == old(playing) + (if result.kind != Loss && isSoundEnabled then {WinSound} else {})
    {
      if result.kind != Loss {
        PlaySound(WinSound);
        if result.winLine.Some? {
          DrawWinAnimation(result.winLine.value);
        }
        pendingDwells := pendingDwells + 1;
      } else {
        EnableSpinButtons();
      }
    }

    /** The second half of `handleSpin`, once the reels have stopped:
        `showResult`, the credit, the cursor step, the end of the spin and the
        CTA when the script is used up. */
    method FinishSpin()
      requires ViewsShaped() && SpinValid() && inFlight.Some?
      modifies this`marks, this`pendingDwells, this`buttonsDisabled, this`played, this`playing,
               this`balance, this`spinCount, this`isSpinning, this`inFlight,
               this`buttonsHidden, this`popupTimers, this`ctaSinceRebuild
      ensures ViewsShaped() && SpinValid()
      ensures var o := old(inFlight.value.result);
              && balance == old(balance) + (if o.winAmount > 0 then o.winAmount else 0)
              && spinCount == old(spinCount) + 1
              && !isSpinning && inFlight.None?
              && marks == (if o.kind != Loss && o.winLine.Some?
                           then DrawWin(winAnimationType, o.winLine.value, old(marks), Starts(), config.rows)
                           else old(marks))
              && pendingDwells == old(pendingDwells) + (if o.kind != Loss then 1 else 0)
              && buttonsDisabled == (if o.kind == Loss && old(spinCount) < |Results()| then false else old(buttonsDisabled))
              && played == old(played) + (if o.kind != Loss && isSoundEnabled then [WinSound] else [])
              && playing == old(playing) + (if o.kind != Loss && isSoundEnabled then {WinSound} else {})
              && buttonsHidden == (old(buttonsHidden) || spinCount >= old(inFlight.value.total))
              && popupTimers == old(popupTimers) + (if spinCount >= old(inFlight.value.total) then 1 else 0)
    {
      ShowResult(inFlight.value.result);
      Settle();
    }

    /** The end of `handleSpin` after `showResult`: the payout is credited, the
        cursor steps on, the spin ends, and the CTA runs when the script is
        used up. */
    method Settle()
      requires SpinValid() && inFlight.Some?
      modifies this`balance, this`spinCount, this`isSpinning, this`inFlight,
               this`buttonsHidden, this`popupTimers, this`ctaSinceRebuild
      ensures SpinValid()
      ensures var o := old(inFlight.value);
              && balance == old(balance) + (if o.result.winAmount > 0 then o.result.winAmount else 0)
              && spinCount == old(spinCount) + 1
              && !isSpinning && inFlight.None?
              && buttonsHidden == (old(buttonsHidden) || spinCount >= o.total)
              && popupTimers == old(popupTimers) + (if spinCount >= o.total then 1 else 0)
    {
      var currentResult := inFlight.value.result;
      var total := inFlight.value.total;
      if currentResult.winAmount > 0 {
        balance := balance + currentResult.winAmount;
      }
      spinCount := spinCount + 1;
      isSpinning := false;
      inFlight := None;
      if spinCount >= total {
        ShowCTA();
      }
    }

    /** `handleSpin` run to its end with nothing in between: either nothing
        changes, or the bet is paid, the payout credited and the cursor
        advanced, and the CTA runs when that was the last result. */
    method HandleSpin() returns (accepted: bool)
      requires Valid()
      modifies this`isSpinning, this`balance, this`buttonsDisabled, this`played, this`playing,
               this`transforms, this`inFlight, this`marks, this`pendingDwells, this`spinCount,
               this`buttonsHidden, this`popupTimers, this`ctaSinceRebuild
      ensures Valid()
      ensures accepted <==> !old(isSpinning) && old(balance) >= old(bet) && old(spinCount) < |old(Results())|
      ensures !accepted ==> unchanged(this)
      ensures accepted ==>
                && balance == old(balance) - old(bet) + old(Results())[old(spinCount)].winAmount
                && spinCount == old(spinCount) + 1 && !isSpinning
                && (spinCount == |Results()| ==> buttonsHidden && ctaSinceRebuild == 1)
                && buttonsHidden == (old(buttonsHidden) || spinCount == |Results()|)
                && popupTimers == old(popupTimers) + (if spinCount == |Results()| then 1 else 0)
      ensures accepted ==>
                && |transforms| == config.cols
                && (forall c :: 0 <= c < config.cols ==> transforms[c] == SlotTransform(old(spinCount), H8()))
      ensures accepted ==>
                var o := old(Results())[old(spinCount)];
                && marks == (if o.kind != Loss && o.winLine.Some?
                             then DrawWin(winAnimationType, o.winLine.value, old(marks), Starts(), config.rows)
                             else old(marks))
                && pendingDwells == old(pendingDwells) + (if o.kind != Loss then 1 else 0)
                && buttonsDisabled == (o.kind != Loss)
                && played == old(played) + (if isSoundEnabled then [SpinSound] else [])
                                         + (if o.kind != Loss && isSoundEnabled then [WinSound] else [])
                && playing == old(playing) + (if isSoundEnabled then {SpinSound} else {})
                                           + (if o.kind != Loss && isSoundEnabled then {WinSound} else {})
    {
      if isSpinning || balance < bet || spinCount >= |Results()| {
        return false;
      }
      RunSpin();
      accepted := true;
    }

    /** An accepted `handleSpin` from its bookkeeping to its end. */
    method RunSpin()
      requires Valid() && !isSpinning && balance >= bet && spinCount < |Results()|
      modifies this`isSpinning, this`balance, this`buttonsDisabled, this`played, this`playing,
               this`transforms, this`inFlight, this`marks, this`pendingDwells, this`spinCount,
               this`buttonsHidden, this`popupTimers, this`ctaSinceRebuild
      ensures Valid()
      ensures balance == old(balance) - old(bet) + old(Results())[old(spinCount)].winAmount
      ensures spinCount == old(spinCount) + 1 && !isSpinning
      ensures spinCount == |Results()| ==> buttonsHidden && ctaSinceRebuild == 1
      ensures buttonsHidden == (old(buttonsHidden) || spinCount == |Results()|)
      ensures popupTimers == old(popupTimers) + (if spinCount == |Results()| then 1 else 0)
      ensures |transforms| == config.cols
      ensures forall c :: 0 <= c < config.cols ==> transforms[c] == SlotTransform(old(spinCount), H8())
      ensures var o := old(Results())[old(spinCount)];
              && marks == (if o.kind != Loss && o.winLine.Some?
                           then DrawWin(winAnimationType, o.winLine.value, old(marks), Starts(), config.rows)
                           else old(marks))
              && pendingDwells == old(pendingDwells) + (if o.kind != Loss then 1 else 0)
              && buttonsDisabled == (o.kind != Loss)
              && played == old(played) + (if isSoundEnabled then [SpinSound] else [])
                                       + (if o.kind != Loss && isSoundEnabled then [WinSound] else [])
              && playing == old(playing) + (if isSoundEnabled then {SpinSound} else {})
                                         + (if o.kind != Loss && isSoundEnabled then {WinSound} else {})
    {
      Start();
      ghost var o := old(Results())[old(spinCount)];
      assert inFlight == Some(InFlight(o, ScriptSize));
      assert buttonsDisabled && spinCount == old(spinCount) && marks == old(marks);
      FinishSpin();
    }

    /** A win's dwell timer fires: the highlight comes off, by the mode in
        force now, and the spin buttons come back unless the script is used
        up, even when another spin has started meanwhile. */
    method EndDwell()
      requires Valid() && pendingDwells > 0
      modifies this`marks, this`buttonsDisabled, this`pendingDwells
      ensures Valid()
      ensures marks == RemoveWin(winAnimationType, old(marks))
      ensures buttonsDisabled == (if spinCount >= |Results()| then old(buttonsDisabled) else false)
      ensures pendingDwells == old(pendingDwells) - 1
    {
      RemoveWinAnimation();
      EnableSpinButtons();
      pendingDwells := pendingDwells - 1;
    }

    /** The popup timer fires: the popup shows, and the confetti starts the
        first time only. */
    method ShowPopup()
      requires popupTimers > 0
      modifies this`popupTimers, this`popupShown, this`confettiStarted
      ensures popupShown && confettiStarted && popupTimers == old(popupTimers) - 1
    {
      popupTimers := popupTimers - 1;
      popupShown := true;
      if !confettiStarted {
        confettiStarted := true;
      }
    }

    /** `toggleSound`: switching off stops every sound. */
    method ToggleSound()
      modifies this`isSoundEnabled, this`playing
      ensures isSoundEnabled == !old(isSoundEnabled)
      ensures playing == if isSoundEnabled then old(playing) else {}
    {
      isSoundEnabled := !isSoundEnabled;
      if !isSoundEnabled {
        playing := {};
      }
    }

    /** `setWinAnimationType`: unknown names are ignored. */
    method SetWinAnimationType(name: string)
      modifies this`winAnimationType
      ensures winAnimationType == (if ModeNamed(name).Some? then ModeNamed(name).value else old(winAnimationType))
    {
      if name == "line" || name == "border" {
        winAnimationType := if name == "line" then Line else Border;
      }
    }

    /** `selectBet`: ignored while spinning and for an index outside the list. */
    method SelectBet(index: int)
      requires BetValid()
      modifies this`currentBetIndex, this`bet
      ensures BetValid()
      ensures if !isSpinning && 0 <= index < |betValues|
              then currentBetIndex == index && bet == betValues[index]
              else currentBetIndex == old(currentBetIndex) && bet == old(bet)
    {
      if isSpinning {
        return;
      }
      if index < 0 || index >= |betValues| {
        return;
      }
      currentBetIndex := index;
      bet := betValues[index];
    }

    /** `increaseBet`: one step towards the end of the list, stopping there;
        ignored while spinning. */
    method IncreaseBet()
      requires BetValid()
      modifies this`currentBetIndex, this`bet
      ensures BetValid()
      ensures currentBetIndex == if !isSpinning && old(currentBetIndex) < |betValues| - 1
                                 then old(currentBetIndex) + 1 else old(currentBetIndex)
      ensures isSpinning ==> bet == old(bet)
    {
      if isSpinning {
        return;
      }
      if currentBetIndex < |betValues| - 1 {
        currentBetIndex := currentBetIndex + 1;
        bet := betValues[currentBetIndex];
      }
    }

    /** `decreaseBet`: one step towards the start of the list, stopping there;
        ignored while spinning. */
    method DecreaseBet()
      requires BetValid()
      modifies this`currentBetIndex, this`bet
      ensures BetValid()
      ensures currentBetIndex == if !isSpinning && old(currentBetIndex) > 0
                                 then old(currentBetIndex) - 1 else old(currentBetIndex)
      ensures isSpinning ==> bet == old(bet)
    {
      if isSpinning {
        return;
      }
      if currentBetIndex > 0 {
        currentBetIndex := currentBetIndex - 1;
        bet := betValues[currentBetIndex];
      }
    }

    /** The arrow marked `increase` is wired to `decreaseBet`. */
    method ClickIncreaseArrow()
      requires BetValid()
      modifies this`currentBetIndex, this`bet
      ensures BetValid()
      ensures currentBetIndex == if !isSpinning && old(currentBetIndex) > 0
                                 then old(currentBetIndex) - 1 else old(currentBetIndex)
    {
      DecreaseBet();
    }

    /** The arrow marked `reduce` is wired to `increaseBet`. */
    method ClickReduceArrow()
      requires BetValid()
      modifies this`currentBetIndex, this`bet
      ensures BetValid()
      ensures currentBetIndex == if !isSpinning && old(currentBetIndex) < |betValues| - 1
                                 then old(currentBetIndex) + 1 else old(currentBetIndex)
    {
      IncreaseBet();
    }

    /** `showLines`: the old overlay goes and its timer is cancelled; a known
        value draws its pattern, every line of it, and starts the hide timer. */
    method ShowLines(value: Option<int>)
      requires Valid()
      modifies this`paylines, this`paylinesTimer
      ensures paylinesTimer <==> value.Some? && value.value in linePatterns
      ensures paylinesTimer ==> paylines == Some(DrawnPaylines(linePatterns[value.value], config.cols))
      ensures paylinesTimer ==> paylines == Some(linePatterns[value.value]) && |paylines.value| * 5 == value.value
      ensures !paylinesTimer ==> paylines.None?
    {
      paylines := None;
      paylinesTimer := false;
      if value.None? || value.value !in linePatterns {
        return;
      }
      var lines := linePatterns[value.value];
      FittingLinesAllDrawn(lines, config.cols, config.rows);
      assert |lines| * 5 == value.value by {
        var t :| 0 <= t < |LineValues| && LineValues[t] == value.value;
        LineCountIsFifth(t);
      }
      paylines := Some(DrawnPaylines(lines, config.cols));
      paylinesTimer := true;
    }

    /** `handleLinesClick`: the clicked item becomes the active one and its
        value, when the text parses, is shown. */
    method HandleLinesClick(item: nat, value: Option<int>)
      requires Valid()
      modifies this`activeLinesItem, this`paylines, this`paylinesTimer
      ensures activeLinesItem == Some(item)
      ensures paylinesTimer <==> value.Some? && value.value in linePatterns
      ensures paylinesTimer ==> paylines == Some(linePatterns[value.value])
      ensures !paylinesTimer ==> paylines.None?
    {
      activeLinesItem := Some(item);
      ShowLines(value);
    }

    /** The overlay's hide timer fires: `hidePaylines`. */
    method HidePaylines()
      requires paylinesTimer
      modifies this`paylines, this`paylinesTimer
      ensures paylines.None? && !paylinesTimer
    {
      paylines := None;
      paylinesTimer := false;
    }
  }

  /** A spin started while an earlier win still dwells is accepted, and the
      earlier dwell then turns the spin buttons back on in the middle of it. */
  method SpinDuringDwell(m: SlotMachine)
    requires m.Valid() && !m.isSpinning && m.balance >= m.bet && m.spinCount < |m.Results()|
    requires m.pendingDwells > 0
    modifies m
    ensures m.Valid() && m.isSpinning && !m.buttonsDisabled
  {
    var accepted := m.BeginSpin();
    m.EndDwell();
  }

  /** A spin whose bet is covered, with the script not used up, is accepted:
      the bet is paid, a payout of zero or more credited and the cursor
      advanced; the bet stays as it was. */
  method CoveredSpin(m: SlotMachine)
    requires m.Valid() && !m.isSpinning && m.balance >= m.bet && m.spinCount < ScriptSize
    modifies m
    ensures m.Valid() && !m.isSpinning && m.spinCount == old(m.spinCount) + 1
    ensures m.bet == old(m.bet) && m.balance >= old(m.balance) - m.bet
    ensures m.spinCount == ScriptSize ==> m.buttonsHidden && m.ctaSinceRebuild == 1
  {
    var k := m.spinCount;
    OutcomeColumns(m.config.breakpoint, k);
    var accepted := m.HandleSpin();
    assert accepted;
  }

  /** Three spins in a row on a fresh script use it up: the CTA has run once,
      and a fourth spin is refused. */
  method PlayThrough(m: SlotMachine) returns (fourth: bool)
    requires m.Valid() && !m.isSpinning && m.spinCount == 0
    requires m.bet >= 0 && m.balance >= 3 * m.bet
    modifies m
    ensures m.Valid() && m.spinCount == 3 && m.buttonsHidden && m.ctaSinceRebuild == 1
    ensures !fourth
  {
    CoveredSpin(m);
    CoveredSpin(m);
    CoveredSpin(m);
    fourth := m.HandleSpin();
  }
}
