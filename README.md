# Random-Ext popup: a Dafny model of its sequential cores

`popup.js` is the popup of a browser extension with a playback-speed
controller, a volume booster and a small calculator. This project models the
parts of it that compute or keep state, and proves what they promise:

- **Bracket balancer** (`parseBrackets`): a scan with a stack of open
  brackets that pops only for the closer of the innermost opener, then the
  owed closers appended innermost first, then `[`/`{` rewritten to `(` and
  `]`/`}` to `)`. Module `Brackets`, a method with the source's two loops,
  proved against the specification functions `OpenStack`, `Owed` and
  `Normalize`.
- **Selection wrap** (the calculator's keydown handler): an opening bracket
  typed over a non-empty selection wraps it and puts the caret past the
  closer. Module `SelectionWrap`.
- **Numeric-input filter** (`restrictInput`): a key passes with Ctrl or Meta,
  for the six editing keys, or when the field's value with the key appended
  matches `^\d+(\.\d{0,2})?$`. Module `NumericInput`, with a one-pass check
  proved equal to the pattern read as a grammar. As in the source, the key is
  appended at the end of the value wherever the caret is.
- **Copy truncation**: the copied text is the result before the first `" ("`.
  Module `CopyText`.
- **Slider curves** (`calculateSpeed`, `calculateSpeedSlider`,
  `calculateBoost`, `calculateBoostSlider`). Module `Curves`, over `real`.
  `Math.pow` and `Math.log` are a `HostMath` value passed in; the lemmas hold
  for every such host, and the lemmas about the outer pieces require only
  `pow(b, 0) == 1` and `pow(b, 1) == b`.
- **Page state** (`setVideoSpeed`, `setVideoVolumeBoost`, the loop of
  `disableBooster`). Module `MediaPage`: a class `Page` whose fields are the
  page's media elements, the gain table keyed by element, the recorded
  interval handle (`window.__speedIntervalId`, with 0 for its falsy values)
  and the browser's live intervals, plus a ghost log of every gain node built,
  in order, so that reusing a node (`el._boosterGainNode`) and building a new
  one stay distinguishable. The origin class of each element's source is an
  input (`Source`).
- **Popup controls** (`setSpeed`, `setVolume`, the preset buttons,
  `clearSpeedModifications`, `disableBooster`, `setValuesFromMem`). Module
  `PopupControls`: a class `Popup` holding the two slider positions and the
  two stored values. The active tab is a `Page?`, `null` where
  `runScriptOnActiveTab` does nothing (no tab, or a `chrome://` page).

In these points the model follows the code where a reader might expect
otherwise:

- The curves do not clamp their input. The boost round trip holds for every
  position up to 75, negative ones included.
- On start-up a missing stored position restores as `1.0` (`result.speed ||
  1.0`), not as the neutral 50 or 15. Position 1.0 gives a speed of about
  0.1x and a gain of 1/15.
- The gain cap is the constant `MAX_BOOST = 100`.
- The reset loop of `disableBooster` runs over the popup's own document. The
  tab's nodes are reset only by the `setVideoVolumeBoost(1)` that follows.
  That call also builds nodes for eligible elements that had none.

## Model

| member | source | states |
|---|---|---|
| `Brackets.ParseBrackets` | popup.js:319-341 | the output is the input, followed by the closers owed for the openers the scan leaves open, with the bracket rewriting applied |
| `Brackets.OwedReversesStack` | popup.js:337-339 | one closer is appended per opener left on the stack, in reverse order of opening |
| `Brackets.ScanAppend` | popup.js:325-336 | scanning `a + b` is the same as scanning `b` from the stack that `a` leaves |
| `Brackets.OwedEmptiesStack` | popup.js:337-339 | the appended closers pop exactly the stack they were computed from |
| `Brackets.ParseBracketsCompletes` | popup.js:325-339 | before rewriting, the output leaves no opener unmatched |
| `Brackets.ParseBracketsShape` | popup.js:337-340 | output length is input length plus final stack size; each input character stays in place, with `[`/`{` becoming `(` and `]`/`}` becoming `)`; every appended character is `)`; no square or curly bracket remains |
| `Brackets.UnmatchedCloserKept` | popup.js:328-334 | a closer that does not match the innermost opener, or meets an empty stack, pops nothing |
| `SelectionWrap.KeyDown` | popup.js:344-369 | the edited field still has a selection inside its value |
| `SelectionWrap.KeyDownActsIff` | popup.js:351-356 | the handler prevents the key iff it is a bracket key, Ctrl is up and the selection is non-empty; otherwise the field is unchanged |
| `SelectionWrap.WrapEnclosesSelection` | popup.js:355-366 | the new value is `before + key + selected + closer + after`, and the caret collapses to the old selection end plus 2 |
| `SelectionWrap.WrapUndo` | popup.js:358-362 | deleting the two inserted brackets gives back the original value |
| `NumericInput.LeadingDigits` | popup.js:66 | the leading run of digits ends at a non-digit or at the end |
| `NumericInput.DigitRunIsLeading` | popup.js:66 | a digit prefix followed by a non-digit or by the end is the leading run |
| `NumericInput.IsAmountMatchesPattern` | popup.js:66 | the one-pass check accepts exactly the strings of one or more digits, optionally followed by `.` and at most two digits |
| `NumericInput.RestrictInput` | popup.js:51-72 | a key is prevented iff neither Ctrl nor Meta is held, it is not an editing key, and value plus key does not match the pattern |
| `CopyText.IndexOfFrom` | popup.js:374 | `indexOf` gives the first occurrence at or after the start, or -1 when there is none |
| `CopyText.TextToCopy` | popup.js:373-378 | the copied text is a prefix of the result; it is the whole result iff `" ("` never occurs, and otherwise it stops right before the first occurrence |
| `CopyText.CopyDropsFraction` | popup.js:300-303 | a result shown as `value (n/d)` copies as `value` |
| `Curves.CalculateSpeed` | popup.js:113-124 | positions 25 to 75 give speeds 0.25 to 1.75 |
| `Curves.CalculateSpeedSlider` | popup.js:127-135 | speeds above 0.25 up to 1.75 give positions above 25 up to 75 |
| `Curves.SpeedAnchors` | popup.js:117-119 | positions 25, 50 and 75 give speeds 0.25, 1.0 and 1.75: the inverse thresholds and the neutral speed |
| `Curves.SpeedRoundTrip` | popup.js:113-135 | `calculateSpeedSlider(calculateSpeed(x)) == x` for all x in [25, 75], both breakpoints included |
| `Curves.SpeedSliderRoundTrip` | popup.js:127-135 | every speed in [0.25, 1.75] maps to a position in [25, 75], and that position maps back to the same speed |
| `Curves.SpeedMiddleIncreasing` | popup.js:117-119 | the linear piece is strictly increasing |
| `Curves.SpeedPiecesJoin` | popup.js:113-124 | for a power function, the outer pieces meet the linear one at 25 and 75, and positions 0 and 100 give 0.1 and 10 |
| `Curves.CalculateBoost` | popup.js:228-235 | positions up to 75 give gains up to 5, and positions from 0 to 75 give non-negative gains |
| `Curves.CalculateBoostSlider` | popup.js:238-245 | gains up to 5 give positions up to 75, and gains from 0 to 5 give non-negative positions |
| `Curves.BoostAnchors` | popup.js:228-235 | positions 0, 15 and 75 give gains 0, 1 and 5 |
| `Curves.BoostRoundTrip` | popup.js:228-245 | `calculateBoostSlider(calculateBoost(x)) == x` for every x up to 75 |
| `Curves.BoostSliderRoundTrip` | popup.js:238-245 | every gain up to 5 maps to a position up to 75, and that position maps back to the same gain |
| `Curves.BoostLinearIncreasing` | popup.js:229-230 | the linear piece is strictly increasing |
| `Curves.BoostPiecesJoin` | popup.js:228-235 | for a power function, the exponential piece meets the linear one at 75, and position 100 gives 100 |
| `MediaPage.Cap` | popup.js:199 | the applied gain is at most `MAX_BOOST` and at most the level, and it is one of the two |
| `MediaPage.BoostAllTable` | popup.js:192-224 | after a boost, an element has a node iff it had one or its source is missing, `blob:` or same-origin; each visited element's node holds `min(level, 100)`; entries of other elements are unchanged |
| `MediaPage.BuiltAllOnce` | popup.js:197-220 | a boost builds a node exactly for the elements that had none and whose source allows one, never twice for the same element, and every node it builds is in the table afterwards |
| `MediaPage.BuiltNothingWhenAttached` | popup.js:197-201 | a boost of elements that all have a node, or cannot get one, builds no node |
| `MediaPage.AppendBuiltOnce` | popup.js:197-220 | a log of built nodes without repeats, all in the table, keeps both properties when a boost appends the nodes it builds |
| `MediaPage.BoostTwiceReusesNodes` | popup.js:197-201 | a second boost of the same elements builds no node (it appends nothing to the construction log), keeps the same set of nodes, and leaves the table the second level alone gives |
| `MediaPage.ResetAllTable` | popup.js:266-270 | the reset builds no node, sets each visited element's node to 1, and leaves the others alone |
| `MediaPage.Page.SetInterval` | popup.js:103 | `setInterval` returns a fresh positive handle and registers its rate |
| `MediaPage.Page.ApplyVideoRate` | popup.js:98-101 | every video gets the rate as `playbackRate` and `defaultPlaybackRate`; audio elements are untouched |
| `MediaPage.Page.SetVideoSpeed` | popup.js:92-110 | any earlier interval is cleared. With enforce, exactly one interval is then live, under a new handle, applying the given speed. Without it, no interval is live and every video runs at rate 1 |
| `MediaPage.Page.FireSpeedInterval` | popup.js:103-108 | a live interval reapplies its rate to every video; a cleared handle changes nothing |
| `MediaPage.Page.BoostElement` | popup.js:192-223 | one element is reset to volume 1, rate 1 and unmuted; its node is reused if it has one, else built if its source allows, else it is skipped; a build is the only step that logs a construction |
| `MediaPage.Page.SetVideoVolumeBoost` | popup.js:181-225 | every element is set to volume 1, rate 1 and unmuted, the gain table becomes the boost of the old table, and the construction log grows by exactly the nodes that boost builds; the page stays valid, so no element ever has two nodes built |
| `MediaPage.Page.ResetGains` | popup.js:264-270 | every existing node of the document goes back to gain 1, and the page stays valid |
| `PopupControls.RestoredPosition` | popup.js:3-15 | a stored position that is present and non-zero is restored as is; otherwise the position is 1.0 |
| `PopupControls.Popup.SetSpeed` | popup.js:84-90 | the position is stored, and the tab stays valid and enforces that position's speed with exactly one interval; its media, gains and construction log are unchanged |
| `PopupControls.Popup.SelectSpeedPreset` | popup.js:143-151 | the slider moves to the inverse of the preset, which is stored. The tab stays valid and enforces that position's speed with one interval, its media, gains and construction log unchanged. For presets from 0.25 to 1.75 that speed is exactly the preset |
| `PopupControls.Popup.ClearSpeedModifications` | popup.js:154-160 | slider and store go to 50, whose speed is 1.0; the tab stays valid, has no interval and its videos run at rate 1; its gains and construction log are unchanged |
| `PopupControls.Popup.SetVolume` | popup.js:172-178 | the position is stored, and the tab is boosted with that position's gain, logging exactly the nodes that boost builds, and stays valid |
| `PopupControls.Popup.SelectBoostPreset` | popup.js:253-260 | the slider moves to the inverse of `percent / 100`, which is stored. The tab's media are reset to volume 1, rate 1 and unmuted, its table is boosted with that position's gain, logging exactly the nodes built, and its speed interval is unchanged; it stays valid. Up to 500% the nodes hold exactly `percent / 100` |
| `PopupControls.Popup.DisableBooster` | popup.js:263-278 | the popup document's nodes are reset; slider and store go to 15, whose gain is 1; the tab's media are reset and its table is boosted at gain 1, logging exactly the nodes built, with its speed interval unchanged; both pages stay valid |
| `PopupControls.Popup.Open` | popup.js:3-16 | both sliders take their restored positions, are stored back, and are applied to the tab: it stays valid, enforces the restored speed, its media are reset, its table is boosted with the restored gain, and its construction log grows by exactly the nodes that boost builds |

## Left out

- `chrome.storage`, `chrome.tabs.query` and `chrome.scripting.executeScript` are host I/O. Storage is two fields and is written synchronously. The active tab is a parameter.
- `Math.pow` and `Math.log` are taken as given functions. No round trip is claimed for the exponential and logarithmic pieces.
- Floating point: the curves are computed over exact reals. In JavaScript, `0.03 * x - 0.5` and `(speed + 0.5) / 0.03` round, so the source's round trips hold only approximately.
- Display text (`toFixed(2)`, `Math.round(boost * 100)`, `"1.00x"`, `"100%"`) is not modelled.
- `AudioContext` creation and resume, `createMediaElementSource` and `connect` are foreign audio API. Building a node is a table insert, and the `catch` at popup.js:221-223 (construction throwing) is not modelled.
- `new URL(src, location.href).origin` and `el.currentSrc || el.src` are not modelled. Each element's source class is an input.
- The scheduling of `setInterval` every 200 ms is not modelled. `FireSpeedInterval` models one firing.
- The clipboard promise, the "Copied!" label and its `setTimeout` are asynchronous UI and are not modelled.
- `math.evaluate`, `math.fraction` and the calculator's input handler (popup.js:290-316) use a third-party library that is not part of this model.
- Tab switching, the Enter-key focus handlers, and the discount and price-per-100 forms (popup.js:19-34, 393-445) are DOM UI and float formatting.
- Strings are sequences of Unicode characters, while `selectionStart`, `slice`, `length` and `indexOf` count UTF-16 code units. The model's positions are the same positions counted in characters; the code-unit numbering is not modelled.
- `parseFloat` of the preset buttons' labels is not modelled. The presets take the parsed number.
- The range inputs clamp and step the values assigned to them. That DOM behaviour is not modelled: slider fields hold the assigned number.
- PopupControls.RestoredPosition: uses number truthiness (0 restores as 1.0). The source stores the positions a slider emits as strings, and a stored `"0"` is truthy.
- SelectionWrap.PairOf: knows only the three bracket keys. A key named like an inherited object property is not a key value the keyboard produces.
- SelectionWrap.KeyDown: when the key is not prevented, the browser's own insertion of the character is not modelled.
