# Scripted-outcome slot machine

A Dafny model of the `SlotMachine` class of the reel page
(`src/components/pages/index/index.js`). The page plays a fixed script of
three spin results per layout (a loss, a small win, a big win). It builds
one long strip of icons per reel column: 100 filler icons cycling through
the eight icon types from a random start, then that column's icons of every
scripted result in script order. A spin looks up the next result's column in
each strip, searching from the end, and scrolls the strip so that the result
fills the window. The model covers:

- the layout chosen by the viewport width and the icon height it uses (`Layout`);
- the two result tables and their shape (`Outcomes`);
- the strip builder, the sequence locator and the place of every scripted
  result in the strips (`Reels`);
- the two strings the page writes and later reads from the DOM and parses
  with a regular expression: the icon `src` (`icon-${n}.webp`) and the strip
  transform (`translateY(-${offset}px)`), and decimal text as JavaScript
  prints it (`Codecs`, `Text`);
- the win highlight as classes on the cells of the visible window, in border
  mode and in line mode, and its removal (`Highlight`);
- the bet list, the random payline patterns and the timings of a spin and of a
  win's dwell (`Controls`);
- the `SlotMachine` object itself as a class whose methods update its fields:
  the spin split in two at the wait for the reels (`BeginSpin`, `FinishSpin`),
  the resize handler, the dwell and popup timers as explicit steps, the bet
  controls, the sound switch and the payline overlay (`Machine`).

`Math.random()` draws are parameters (reals in [0, 1)). `window.innerWidth` is
a whole number of CSS pixels. The icon height is kept in eighths of a pixel:
the desktop height `max(180, w/8)` is then always whole, and JavaScript prints
every offset a strip can reach exactly as a plain decimal ("187.5", "144100.125"), so the transform codec is
modelled character by character, taking the text read back from a strip to be
the text written to it (see "Left out"). `Math.round(x)` for `x >= 0` is
`floor(x + 1/2)` on exact rationals.

Where the code does something a reader might not expect, the model follows the code:

- `isSpinning` is cleared when the reels stop (index.js:372), before the win's
  dwell timer fires (index.js:484-488, 499-503). The spin buttons only get a
  CSS class (index.js:943-946), and the click handlers (index.js:195-203) do
  not look at it. So a new spin is accepted during a dwell, and the old dwell
  then turns the buttons back on in the middle of the new spin
  (`Machine.SpinDuringDwell`).
- A resize that changes the layout does not stop a spin in flight
  (index.js:316-327). The spin goes on with the result and script length it
  captured, and then steps the freshly reset cursor from 0 to 1.
- Balance, bets and payouts are integers (index.js:36, 108, 121, 962, 967).
- On a desktop wider than 1440 px whose width is not a multiple of 8, the
  landing offset of the second result has a fraction. If the fraction is read
  back as written, the transform pattern `/translateY\(-?(\d+)px\)/` then
  fails, and the highlight reads the window
  as starting at icon 0 (`Layout.WideDesktopMisreadsSecondOutcome`). The
  third result is misread the same way whenever the width is not a multiple
  of 4 (`Layout.WideDesktopMisreadsThirdOutcome`).

## Model

| member | source | states |
|---|---|---|
| `Text.NatTextRoundTrip` | src/components/pages/index/index.js:469 | `parseInt` reads back exactly the number whose decimal text a template literal wrote, for every natural number |
| `Text.DigitRun` | src/components/pages/index/index.js:468 | a greedy `\d+` from index i reaches the end of the digit run: every character in it is a digit and the next one is not |
| `Text.EighthsText` | src/components/pages/index/index.js:427 | `${x}` for x = e/8 starts with the integer part, is exactly that when e is a multiple of 8, and has a point right after it otherwise |
| `Codecs.IconSrc` | src/components/pages/index/index.js:276 | every icon `src` (here and at index.js:288) is `@img/icon/icon-` followed by the icon's number and `.webp` |
| `Codecs.GetIconNumber` | src/components/pages/index/index.js:466-470 | the number read from an image is never negative, and an image whose `src` the pattern does not match reads as 1 |
| `Codecs.IconRoundTrip` | src/components/pages/index/index.js:466-470 | `getIconNumber` of the `src` written for icon n is n, for every n >= 0 |
| `Codecs.NegativeIconReadsDefault` | src/components/pages/index/index.js:469 | a source the pattern does not match (`icon--n.webp`) reads as the default 1 |
| `Codecs.TransformText` | src/components/pages/index/index.js:427 | every transform written (here and at index.js:311) to a strip is `translateY(-` followed by the offset and `px)` |
| `Codecs.CurrentOffset` | src/components/pages/index/index.js:550-552 | the offset read from a strip is a whole number, and it is non-zero only when the pattern matches |
| `Codecs.VisibleStartIndex` | src/components/pages/index/index.js:553 | a strip whose offset reads as 0 shows its window from icon 0 |
| `Codecs.VisibleStartRounds` | src/components/pages/index/index.js:553 | the window read back is the nearest whole icon to the parsed offset, ties rounding up: start·h − h/2 <= offset < start·h + h/2 |
| `Codecs.TransformRoundTrip` | src/components/pages/index/index.js:550-552 | parsing `translateY(-${x}px)` gives x when x is whole, and 0 when x has a fraction |
| `Codecs.ResetReadsZero` | src/components/pages/index/index.js:414 | the reset transform `translateY(0)` reads as offset 0 |
| `Codecs.RoundsToPosition` | src/components/pages/index/index.js:553 | `Math.round(offset / iconHeight)` is p when the offset is exactly p icons |
| `Codecs.LandedStartDecodes` | src/components/pages/index/index.js:423-427 | a strip moved p icons down reads back as starting at p when p·height is whole, and at 0 otherwise |
| `Layout.GetCurrentBreakpoint` | src/components/pages/index/index.js:172-178 | desktop exactly when the width is above 767.98, i.e. at least 768 whole pixels; mobile otherwise |
| `Layout.IconHeight8` | src/components/pages/index/index.js:44-58 | desktop icons are max(180, w/8) px tall (180 up to 1440 px), mobile icons 140 px |
| `Layout.ConfigFor` | src/components/pages/index/index.js:180-183 | the entry (of the table at index.js:44-58) for a breakpoint carries that breakpoint's name and a grid of 3 rows |
| `Layout.RandomIndex` | src/components/pages/index/index.js:269 | `Math.floor(Math.random() * n)` lies in [0, n) |
| `Layout.WholeIconHeightReadsBack` | src/components/pages/index/index.js:550-553 | on mobile and on desktops up to 1440 px, a strip moved to any icon reads back at that icon |
| `Layout.WideDesktopMisreadsSecondOutcome` | src/components/pages/index/index.js:50 | on a desktop wider than 1440 px whose width is not a multiple of 8, the second result's landing reads back as icon 0 |
| `Layout.WideDesktopMisreadsThirdOutcome` | src/components/pages/index/index.js:550-553 | on a desktop wider than 1440 px whose width is not a multiple of 4, the third result's landing reads back as icon 0 |
| `Outcomes.TablesFit` | src/components/pages/index/index.js:92-167 | both tables hold three results; each has one column of three icons (1..8) per reel, a non-negative payout that is 0 exactly for a loss, and winning rows inside the window |
| `Outcomes.OutcomeColumns` | src/components/pages/index/index.js:357 | the result a spin takes has one column per reel of its layout and a non-negative payout |
| `Outcomes.ResultsFor` | src/components/pages/index/index.js:185-188 | each breakpoint's table scripts three spins |
| `Outcomes.ScriptOrder` | src/components/pages/index/index.js:92-167 | each table scripts a loss, then a small win, then a big win |
| `Reels.FillerStrip` | src/components/pages/index/index.js:272-278 | the filler is 100 images of `((i + r) % 8) + 1`, in order |
| `Reels.AppendImages` | src/components/pages/index/index.js:285-290 | one image per icon of a result's column is appended, in order |
| `Reels.AppendOutcomes` | src/components/pages/index/index.js:281-292 | column c of every result is appended in script order; a result without column c adds nothing |
| `Reels.BuildStrip` | src/components/pages/index/index.js:259-296 | a column's strip is the images of its filler followed by its tail of scripted icons |
| `Reels.CreateReels` | src/components/pages/index/index.js:250-297 | one strip per column, each built from its own random offset |
| `Reels.StripShape` | src/components/pages/index/index.js:269-292 | column c's strip has 100 + 3·(number of results) icons, its first 100 are `((i + r) % 8) + 1`, and every icon is in 1..8 |
| `Reels.StripBlock` | src/components/pages/index/index.js:280-292 | result k's column c sits unaltered at index 100 + 3k of column c's strip |
| `Reels.TailLength` | src/components/pages/index/index.js:282-291 | the scripted tail holds `rows` icons per result |
| `Reels.TailBlock` | src/components/pages/index/index.js:283-290 | result k's column fills indices 3k .. 3k+2 of the tail |
| `Reels.Scan` | src/components/pages/index/index.js:440-460 | the scan from i downwards returns the largest matching start at or below i, or -1 when none matches |
| `Reels.FindSequencePosition` | src/components/pages/index/index.js:436-463 | returns -1 exactly when no window matches; otherwise a start whose images read back as the target, with no match at any larger start; a target longer than the strip gives -1 |
| `Reels.MatchesRendered` | src/components/pages/index/index.js:443-454 | reading a rendered strip's images back matches a target exactly when the icon numbers they were written from do |
| `Reels.ShippedSlotMatches` | src/components/pages/index/index.js:282-291 | in both shipped tables, result k's column reads back at its own slot 100 + 3k |
| `Reels.ShippedNoLaterMatch` | src/components/pages/index/index.js:92-167 | in both shipped tables, result k's column does not occur anywhere in the strip after its own slot |
| `Reels.ShippedOutcomeLocated` | src/components/pages/index/index.js:439-440 | for both shipped tables and every filler offset, the locator lands on result k's own slot 100 + 3k, never on filler or a later result |
| `Reels.InitialPositionsReadBack` | src/components/pages/index/index.js:303-313 | each strip's initial transform reads back as its drawn start icon when the offset is whole, else as 0 |
| `Controls.ParsedBetsMembers` | src/components/pages/index/index.js:960-966 | a bet is in the read list exactly when some button's text parses to it |
| `Controls.ParsedBetsEmpty` | src/components/pages/index/index.js:960-966 | the read list is empty exactly when no button's text parses |
| `Controls.ParsedBets` | src/components/pages/index/index.js:960-966 | the read list never holds more values than there are buttons |
| `Controls.GetBetValuesFromButtons` | src/components/pages/index/index.js:959-968 | the parsed values in button order, or `[1, 5, 10, 20, 30]` when none parses; never empty |
| `Controls.GenerateRandomLines` | src/components/pages/index/index.js:1027-1040 | `count` lines of one row per column, entry j being `floor(draw · rows)`, every row inside the window |
| `Controls.GeneratePatterns` | src/components/pages/index/index.js:1043-1051 | patterns exist for exactly 100, 80, 60, 40 and 20, with 20, 16, 12, 8 and 4 lines that fit the grid; entry j of line i of value t's pattern is `floor(draw · rows)` of its own draw |
| `Controls.PatternsHoldAFifth` | src/components/pages/index/index.js:80-86 | every value's pattern holds a fifth of the value in lines |
| `Controls.DrawnPaylines` | src/components/pages/index/index.js:1095-1125 | only lines with two points or more are drawn, never more lines than the pattern holds |
| `Controls.FittingLinesAllDrawn` | src/components/pages/index/index.js:1098-1110 | on a grid of two columns or more every line of a fitting pattern is drawn, whole and in order |
| `Controls.ColumnSchedule` | src/components/pages/index/index.js:386-393 | column c resolves at 3000 + 200·c ms, after its blur comes off |
| `Controls.SpinSettlesWithLastColumn` | src/components/pages/index/index.js:395 | `Promise.all` settles at 3000 + 200·(cols − 1) ms, not before any column |
| `Controls.SpinLengths` | src/components/pages/index/index.js:381-396 | a desktop spin settles after 3.8 s, a mobile one after 3.4 s |
| `Controls.DwellMs` | src/components/pages/index/index.js:473-509 | a big win dwells 2 s and a small win 1.5 s before the buttons return; a loss has no dwell |
| `Controls.BigWinDwellsLonger` | src/components/pages/index/index.js:484-503 | a big win dwells longer than a small win |
| `Highlight.ModeNamed` | src/components/pages/index/index.js:530-534 | only the names `border` and `line` select a mode |
| `Highlight.AddedClasses` | src/components/pages/index/index.js:556-569 | a window icon (and at index.js:849-857 in line mode) gets the mode's win class exactly when the line names its row, and `dimmed` exactly when it does not and (border mode) the entry is not `null`; nothing else |
| `Highlight.DrawColumn` | src/components/pages/index/index.js:537-570 | a column's draw (and line mode's at index.js:828-858) keeps every icon's classes, and leaves icons outside the window as they were |
| `Highlight.DrawWin` | src/components/pages/index/index.js:512-518 | a draw keeps the number of strips and of icons in each |
| `Highlight.DrawOnlyAdds` | src/components/pages/index/index.js:537-570 | a draw (either mode, also index.js:828-858) never takes a class off an icon |
| `Highlight.RemoveWin` | src/components/pages/index/index.js:747-760 | a removal (border mode here, line mode at index.js:862-867) takes exactly the mode's two classes off every icon and keeps all other classes |
| `Highlight.PointCount` | src/components/pages/index/index.js:783-794 | the win line has no more points than entries or columns |
| `Highlight.SkippedColumnUnchanged` | src/components/pages/index/index.js:543-544 | a border draw leaves a column whose entry is `null` as it was |
| `Highlight.WinnerCells` | src/components/pages/index/index.js:537-570 | on clean strips a cell gets the mode's win class exactly when the win is drawn, the cell is row n of its column's window and the line names row n |
| `Highlight.DimmedCells` | src/components/pages/index/index.js:828-858 | on clean strips a cell is dimmed exactly when the win is drawn, the cell is in the window, not the named row, and (border mode) the entry is not `null` |
| `Highlight.OneWinnerPerColumn` | src/components/pages/index/index.js:556-569 | each column has at most one winning cell |
| `Highlight.DrawTouchesOnlyWindows` | src/components/pages/index/index.js:844-857 | icons outside the visible windows keep their classes |
| `Highlight.RemoveUndoesDraw` | src/components/pages/index/index.js:747-760 | removing in the mode that drew undoes the draw |
| `Highlight.CleanAfterDrawAndRemove` | src/components/pages/index/index.js:862-867 | clean strips come back clean after a draw and its removal |
| `Highlight.SwitchedModeLeavesWinner` | src/components/pages/index/index.js:521-527 | a win drawn in one mode and removed in the other leaves the winning class behind |
| `Highlight.TwoEntriesMakeTwoPoints` | src/components/pages/index/index.js:783-796 | two non-null entries among the first `cols` make the line drawable |
| `Highlight.NullLineHasNoPoints` | src/components/pages/index/index.js:784 | a line of `null` entries has no point |
| `Highlight.AtMostOneEntryOnePoint` | src/components/pages/index/index.js:783-794 | a line with at most one non-null entry among the first `cols` has at most one point |
| `Highlight.LoneEntryDrawsNothing` | src/components/pages/index/index.js:794 | so a line-mode draw of such a line changes no icon |
| `Machine.SpinColumns` | src/components/pages/index/index.js:399-427 | each column is moved to `position · height` of its located target, or left where it was when the target is not found |
| `Machine.Landing` | src/components/pages/index/index.js:399-427 | a column either stays where it was or gets a new `translateY(-…px)` transform |
| `Machine.LandingReadsBack` | src/components/pages/index/index.js:550-553 | a column that found (and was moved at index.js:423-427) its target reads back at the target's position when the offset is a whole number of pixels |
| `Machine.SpinColumn` | src/components/pages/index/index.js:399-427 | one column's landing: at `position · height` of its located target, or where it was when the target is not found |
| `Machine.ShippedLanding` | src/components/pages/index/index.js:405-427 | in both shipped layouts a column lands on result k's slot |
| `Machine.AllColumnsLand` | src/components/pages/index/index.js:386-393 | every column of a spin of result k lands on that result's slot |
| `Machine.SpinToOutcome` | src/components/pages/index/index.js:381-396 | `spin` over shipped strips moves every column to result k's slot |
| `Machine.SlotReadsBack` | src/components/pages/index/index.js:423-427 | with whole-pixel icons, a strip at result k's slot reads back at that slot |
| `Machine.LandedWindowShowsOutcome` | src/components/pages/index/index.js:550-559 | with whole-pixel icons, the window of a landed strip shows result k's column, row by row |
| `Machine.ReelsAndPositions` | src/components/pages/index/index.js:250-313 | fresh strips built from the drawn offsets, unmarked icons, and each strip a drawn whole number of icons down |
| `Machine.SlotMachine.constructor` | src/components/pages/index/index.js:4-170 | balance 1000, cursor 0, not spinning, sound on, border mode, the first bet selected, payline patterns drawn from the given draws and strips made for the width's layout |
| `Machine.SlotMachine.HandleResize` | src/components/pages/index/index.js:316-327 | nothing but the width changes unless the layout changes; then the config, strips, positions and patterns are rebuilt from the new draws, the cursor is 0 and the overlay gone, while balance, bet and `isSpinning` are untouched |
| `Machine.SlotMachine.Rebuild` | src/components/pages/index/index.js:318-325 | the new layout's config, a reset cursor, new strips and positions, new patterns drawn from the given draws, and no overlay |
| `Machine.SlotMachine.PlaySound` | src/components/pages/index/index.js:922-932 | a sound is started only while sound is on |
| `Machine.SlotMachine.EnableSpinButtons` | src/components/pages/index/index.js:949-956 | the buttons are re-enabled unless the script is used up |
| `Machine.SlotMachine.BeginSpin` | src/components/pages/index/index.js:331-360 | accepted exactly when not spinning, the bet is covered and the script is not used up; a refusal changes nothing; an acceptance sets `isSpinning`, debits the bet, disables the buttons and lands every column on the current result's slot |
| `Machine.SlotMachine.Start` | src/components/pages/index/index.js:345-360 | an accepted spin's bookkeeping followed by the landing of every column, keeping the invariant |
| `Machine.SlotMachine.Commit` | src/components/pages/index/index.js:345-357 | `isSpinning` set, the bet debited, the buttons disabled, the spin sound, the current result held |
| `Machine.SlotMachine.Spin` | src/components/pages/index/index.js:381-396 | every column is moved to the current result's slot |
| `Machine.SlotMachine.MarkWindow` | src/components/pages/index/index.js:537-570 | each column's visible window gets the mode's classes, read from its transform; a border draw skips a `null` column |
| `Machine.SlotMachine.DrawWinAnimation` | src/components/pages/index/index.js:512-518 | the icons get the highlight of the mode in force |
| `Machine.SlotMachine.RemoveWinAnimation` | src/components/pages/index/index.js:521-527 | the classes of the mode in force now come off every icon |
| `Machine.SlotMachine.ShowCTA` | src/components/pages/index/index.js:896-907 | the button bar is hidden and one popup timer starts |
| `Machine.SlotMachine.ShowResult` | src/components/pages/index/index.js:473-509 | a win plays its sound, draws its line and starts one dwell (exactly the results that have a dwell time); a loss re-enables the buttons at once unless the script is used up |
| `Machine.SlotMachine.FinishSpin` | src/components/pages/index/index.js:363-376 | the payout is credited, the cursor steps by one, `isSpinning` clears, and the CTA runs when the script is used up |
| `Machine.SlotMachine.Settle` | src/components/pages/index/index.js:365-376 | the credit, the cursor step and the CTA exactly when the captured script is used up, keeping the balance non-negative and the CTA count at one once exhausted |
| `Machine.SlotMachine.HandleSpin` | src/components/pages/index/index.js:330-378 | a refused spin changes nothing; an accepted one ends with `balance' = balance − bet + winAmount`, `spinCount' = spinCount + 1`, `isSpinning` false, the button bar hidden and one popup timer started exactly when the script is used up (nothing of either otherwise); every column lands on the result's slot, a win's highlight is drawn and its dwell started, the buttons stay disabled exactly for a win, and the spin sound (then the win sound) is played while sound is on |
| `Machine.SlotMachine.RunSpin` | src/components/pages/index/index.js:345-376 | an accepted spin from its bookkeeping to its end, with every field it changes stated as for `HandleSpin` |
| `Machine.SlotMachine.EndDwell` | src/components/pages/index/index.js:484-488 | the highlight comes off by the mode in force now, and the buttons return unless the script is used up, even during a later spin |
| `Machine.SlotMachine.ShowPopup` | src/components/pages/index/index.js:899-906 | the popup shows and the confetti is started |
| `Machine.SlotMachine.ToggleSound` | src/components/pages/index/index.js:910-919 | sound flips; switching off stops every sound |
| `Machine.SlotMachine.SetWinAnimationType` | src/components/pages/index/index.js:530-534 | unknown names leave the mode as it was |
| `Machine.SlotMachine.SelectBet` | src/components/pages/index/index.js:971-979 | the bet becomes entry `index` unless spinning or the index is out of range; the bet stays the selected entry |
| `Machine.SlotMachine.IncreaseBet` | src/components/pages/index/index.js:982-991 | one step up the list, stopping at its end, ignored while spinning; the bet stays the selected entry |
| `Machine.SlotMachine.DecreaseBet` | src/components/pages/index/index.js:994-1003 | one step down the list, stopping at its start, ignored while spinning; the bet stays the selected entry |
| `Machine.SlotMachine.ClickIncreaseArrow` | src/components/pages/index/index.js:212-217 | the arrow marked `increase` steps the bet DOWN |
| `Machine.SlotMachine.ClickReduceArrow` | src/components/pages/index/index.js:219-224 | the arrow marked `reduce` steps the bet UP |
| `Machine.SlotMachine.ShowLines` | src/components/pages/index/index.js:1066-1138 | the old overlay and timer go; a known value draws its whole pattern, a fifth of the value in lines, and starts the hide timer |
| `Machine.SlotMachine.HandleLinesClick` | src/components/pages/index/index.js:1054-1063 | the clicked item becomes active; the old overlay always goes, and a known value's pattern is shown |
| `Machine.SlotMachine.HidePaylines` | src/components/pages/index/index.js:1141-1147 | the overlay is hidden |
| `Machine.SpinDuringDwell` | src/components/pages/index/index.js:195-203 | a spin started during a win's dwell is accepted, and the dwell then re-enables the buttons in the middle of it |
| `Machine.CoveredSpin` | src/components/pages/index/index.js:330-372 | a covered spin with results left is accepted, advances the cursor by one and never drives the balance below `balance − bet` |
| `Machine.PlayThrough` | src/components/pages/index/index.js:340-343 | three spins use up a fresh script, the CTA has run once, and a fourth spin is refused |

## Left out

- DOM and SVG drawing: the animated border geometry (`createAnimatedBorder`), the win-line and payline coordinates from `getBoundingClientRect`, the win flashes (`createWinEffects`), the blur class and the CSS transition and easing. The highlight is modelled as a set of classes per icon; a payline as the rows of its points.
- The `bigwin-animation` and `smallwin-animation` classes on the reel container, and the text of the balance and bet labels (`updateUI`).
- The `active` class that `updateBetButtonsUI` moves onto the selected bet button; the selected index itself is modelled as `currentBetIndex`.
- The `sound-off` class that `toggleSound` puts on or takes off the sound button; the switch itself is modelled as `isSoundEnabled`.
- Audio: only the sound switch and which sounds were started or stopped are kept; the `Audio` API and a rejected `play()` are left out.
- The confetti animation: only whether it was started.
- Timers are explicit steps (`FinishSpin`, `EndDwell`, `ShowPopup`, `HidePaylines`), not clock times. The fade-out removals after 300 ms and the 50 ms fade-ins are left out. The computed schedule is stated in `Controls`.
- Machine.SlotMachine.BeginSpin: every column is landed as the spin starts, not after its stagger delay (0..400 ms). The only difference is a resize within the same layout during that window, which changes the icon height the later columns use.
- `Math.round` is modelled on exact rationals. Floating-point error in `offset / iconHeight` is left out; it is far from the .5 boundary for every offset the page writes.
- `window.innerWidth` is a whole number of pixels; fractional widths are left out.
- Reading `strip.style.transform` back (index.js:550, 839) is taken to give exactly the text written at index.js:311, 414 and 427. The browser actually returns its own serialization of the parsed value, and how it prints a unitless `0` or a long fraction is its choice. `Codecs.TransformRoundTrip`, `Codecs.LandedStartDecodes`, `Layout.WholeIconHeightReadsBack`, `Layout.WideDesktopMisreadsSecondOutcome`, `Layout.WideDesktopMisreadsThirdOutcome`, `Reels.InitialPositionsReadBack`, `Machine.SlotReadsBack`, `Machine.LandingReadsBack` and `Machine.LandedWindowShowsOutcome` rest on this assumption. For the misread lemmas it matters most: they hold only when the fraction survives the round trip.
- `console.log` on refused spins and on a target that is not found.
- `parseInt` on button text: each button's value is given as parsed or not.
- A spin in flight when the layout changes is modelled as the code runs it. The spin is not aborted, and it finishes with the result it captured.
- Window width changes take effect in the model only when `HandleResize` runs. The code reads the live `window.innerWidth` in `getResultsForCurrentBreakpoint` and `getIconHeight`, so a width change whose resize handler has not yet run can already change the results and the icon height; that window is not modelled.
- Text.EighthsText: prints every offset as a plain decimal. JavaScript switches to exponent notation from 1e21 on, and a double stops holding every eighth above about 2^50. Both lie far beyond any offset a strip reaches (at most 108 icons of `width / 8` px).
