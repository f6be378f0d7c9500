# Mandachord sequencer core, in Dafny

The Mandachord is a circular step sequencer. A disc of 64 steps, each with 13
note slots, turns while playback runs, and can be dragged round by hand while
playback is paused. This project models the logic under that view:

- **The note grid store** (`note_grid.dfy`, module `NoteGrid`). The flat
  dictionary of 832 notes keyed `"<step>:<note>"` is built by two nested
  loops. The `mandachord` reducer handles `PLAY_PAUSE`, `TOGGLE_NOTE` and
  every other action.
- **The note-key pattern** (`note_key.dfy`, module `NoteKey`).
  `(?<step>\d*):(?<note>\d*)` is modelled as JavaScript's backtracking matcher
  runs it: leftmost start, greedy `step` group giving digits back until a `:`
  follows. It is proved equal to a plain description: no match without a `:`;
  otherwise the digit runs just before and just after the first `:`.
- **Decimal rendering** (`decimal.dfy`, module `Decimal`). A natural number
  is rendered inside a template literal in base ten. Reading it back gives the
  number, so the keys `${i}:${j}` parse back to `i` and `j` and are pairwise
  distinct.
- **One step of the disc** (`mandachord_step.dfy`, module `StepComponent`).
  A class holds the 13-slot boolean array that `modifyStepNotes` flips in
  place. `drawStep` is a pure view function: the note keys, the bar line, its
  dash pattern and its bar number.
- **The disc component** (`mandachord_view.dfy`, module `Component`).
  - A class holds the component's fields: both rotations, the scale, the size,
    `isDragging`, the `lastX` captured by the drag closures, and the set of
    listeners it has registered on the window.
  - Its methods are `resizeMandachord`, mount and unmount, `onAnimationFrame`,
    `startDragging`, and the move and up closures, each dispatched the way the
    window delivers events.
  - Client methods run a whole drag gesture and a run of animation frames.
    They are proved to turn the disc by the telescoped totals.

`wrappers.dfy` holds the `Option` and `Result` types.

The bar line and the dash pattern are drawn under different conditions. The
bar line is drawn when `pos % 16 === 0`
(components/mandachord/mandachord-step.tsx:72). The dashed pattern needs
`isLoopPoint`, which the code computes as `pos / 16 === 0` (line 60). That
holds only at step 0, although the name and its place beside the bar line
suggest the same every-16-steps test. The model follows the code.
`StepComponent.BarLinesOnTheDisc` states where the two tests differ: on steps
16, 32 and 48 the bar line is solid.

The window's `touchmove` events reach the same move closure as mouse moves
(components/mandachord/index.jsx:156,161). That closure reads `e.screenX`
(line 131), which a `TouchEvent` does not have. The model follows the code:
a touch move carries no coordinate, so it turns the disc by NaN and leaves
`lastX` undefined. From then on every later move is NaN too.
`Component.Mandachord.DispatchMove` and `Component.DragWithMoves` state this.
The disc's angle is therefore a `Number` that is either a real or NaN.

## Model

| member | source | states |
|---|---|---|
| Decimal.NatToString | state/reducers/mandachord.js:14 | the template-literal rendering of a natural is a non-empty string of digits with no leading zero except for 0 itself |
| Decimal.ValueOfNatToString | state/reducers/mandachord.js:14 | reading the rendered digits back as a decimal number gives the original natural (round trip) |
| Decimal.NatToStringInjective | state/reducers/mandachord.js:14 | distinct naturals render as distinct strings |
| NoteKey.DigitRun | util/helpers.js:5 | the greedy `\d*` run starting at a position holds only digits and stops at a non-digit or at the end |
| NoteKey.StepLength | util/helpers.js:5 | backtracking the `step` group settles on at most the greedy number of digits, and on a length that is followed by `:` |
| NoteKey.SearchFrom | util/helpers.js:5 | an attempt found by the leftmost search starts at or after the first candidate and its `step` group is followed by `:` |
| NoteKey.NoteRegexExec | util/helpers.js:5 | `exec` returns null or a match whose `step` group is the text at the match index, with a `:` right after it |
| NoteKey.SearchWithoutColon | util/helpers.js:5 | a search over a stretch with no `:` finds nothing |
| NoteKey.SearchSkipsToRun | util/helpers.js:5 | every start before the digit run that precedes the first `:` fails, so the search reaches that run's start |
| NoteKey.MatchAtRun | util/helpers.js:5 | the attempt at the start of the digit run before a `:` succeeds at once with the whole run as `step` |
| NoteKey.SearchSpec | util/helpers.js:5 | the leftmost backtracking search stops where the first `:` and the digit run before it say |
| NoteKey.NoteRegexExecSpec | util/helpers.js:5 | `exec` returns null exactly without a `:`; otherwise `step` is the maximal digit run right before the first `:`, `note` the maximal run right after it, and the index is where `step` starts |
| NoteKey.MatchIffColon | util/helpers.js:5 | the pattern matches a string if and only if it contains a `:` |
| NoteKey.MatchGroupsAreDigits | util/helpers.js:5 | both groups hold only digits, and they are the characters of the string on either side of a `:` at the match index |
| NoteKey.EmptyGroupsMatch | util/helpers.js:5 | a bare `:` matches at index 0 with both groups empty |
| NoteKey.DigitsColonDigits | util/helpers.js:5 | for digit strings `a` and `b`, `a:b` matches at index 0 with groups `a` and `b` |
| NoteGrid.Key | state/reducers/mandachord.js:14 | the key `${step}:${note}` is at least three characters long, with a `:` right after the step's digits |
| NoteGrid.KeyShape | state/reducers/mandachord.js:14 | a key is two non-empty digit runs around its only `:` |
| NoteGrid.KeyRoundTrip | state/reducers/mandachord.js:14 | matching the note-key pattern against `${step}:${note}` gives back the two renderings, whose decimal values are `step` and `note` |
| NoteGrid.KeyInjective | state/reducers/mandachord.js:14 | distinct (step, note) pairs get distinct keys |
| NoteGrid.FilledNext | state/reducers/mandachord.js:12-19 | each inner-loop iteration writes a key not written before, so the written key set grows by exactly one |
| NoteGrid.WrittenKeys | state/reducers/mandachord.js:12-20 | after `i` full steps and `j` notes the dictionary holds exactly the keys of the cells visited |
| NoteGrid.WrittenCount | state/reducers/mandachord.js:12-20 | after `i` full steps and `j` notes the dictionary holds `13 * i + j` entries: no write overwrites an earlier one |
| NoteGrid.WrittenAtOwnKeys | state/reducers/mandachord.js:14-18 | every entry written so far is inactive and filed under the key of the position it records |
| NoteGrid.GridKeysCount | state/reducers/mandachord.js:7-21 | the grid has 64 * 13 = 832 distinct keys |
| NoteGrid.EntriesMakeInitialNotes | state/reducers/mandachord.js:14-18 | entries filed under their own keys, over exactly the grid's keys, give each `i:j` the entry (i, j, inactive) |
| NoteGrid.CreateInitialNoteState | state/reducers/mandachord.js:7-22 | the loops build a dictionary whose keys are exactly `i:j` for i < 64 and j < 13, 832 of them, each mapping to (i, j, inactive) |
| NoteGrid.InitialState | state/reducers/mandachord.js:24-27 | the initial store state is paused and holds the initial grid |
| NoteGrid.Mandachord | state/reducers/mandachord.js:29-54 | PLAY_PAUSE negates the pause flag and keeps the notes; TOGGLE_NOTE succeeds if and only if the id is a key, then flips that entry's `isActive` only, keeping its positions, every other entry and the key set; a missing id is the undefined-property error; any other action returns the state unchanged |
| NoteGrid.ToggleTwice | state/reducers/mandachord.js:37-49 | toggling the same note twice restores the state |
| NoteGrid.PlayPauseTwice | state/reducers/mandachord.js:31-35 | two PLAY_PAUSE actions restore the state |
| NoteGrid.InitialWellFormed | state/reducers/mandachord.js:7-27 | the initial grid is well formed: the 832 grid keys, each entry carrying its own position |
| NoteGrid.ReducerKeepsWellFormed | state/reducers/mandachord.js:29-54 | from a well-formed state, TOGGLE_NOTE succeeds exactly for ids `i:j` on the grid, and every successful transition keeps the state well formed with 832 notes |
| NoteGrid.ToggleFirstNote | state/reducers/mandachord.js:37-49 | from the initial grid, toggling `0:0` makes that note active and leaves the other 831 inactive |
| StepComponent.Flipped | components/mandachord/mandachord-step.tsx:31 | the array after the splice has the same length, slot `p` negated and every other slot unchanged |
| StepComponent.FlipTwice | components/mandachord/mandachord-step.tsx:29-31 | flipping the same slot twice restores the array |
| StepComponent.MandachordStep.constructor | components/mandachord/mandachord-step.tsx:16-27 | a new step has a fresh array of 13 slots, all false |
| StepComponent.MandachordStep.ModifyStepNotes | components/mandachord/mandachord-step.tsx:29-40 | the array is changed in place to `Flipped` of its old contents at the clicked slot |
| StepComponent.MandachordStep.Render | components/mandachord/mandachord-step.tsx:77-79 | the view has 13 notes whose flags are the array's current slots |
| StepComponent.DrawStep | components/mandachord/mandachord-step.tsx:42-75 | 13 notes, note `i` at slot `i` with key `(pos + 1) * i` and the slot's flag; a bar line if and only if `pos % 16 == 0`, numbered `pos / 16 + 1`, dashed `[3, 1]` only at step 0 |
| StepComponent.NoteKeyOf | components/mandachord/mandachord-step.tsx:50 | the key `(pos * i) + i` is `(pos + 1) * i`, never below the slot number |
| StepComponent.IsLoopPoint | components/mandachord/mandachord-step.tsx:60 | `pos / 16 === 0`, with JavaScript's exact division, holds exactly at step 0 |
| StepComponent.HasBarLine | components/mandachord/mandachord-step.tsx:72 | `pos % 16 === 0` holds exactly on the multiples of 16 |
| StepComponent.NoteKeysIncrease | components/mandachord/mandachord-step.tsx:50 | the note keys of one step strictly increase with the slot, so they are pairwise distinct |
| StepComponent.BarLinesOnTheDisc | components/mandachord/mandachord-step.tsx:60-72 | on the 64 steps, bar lines fall on 0, 16, 32 and 48, numbered 1 to 4, and only 16, 32 and 48 have a bar line without the loop-point dash |
| Component.Plus | components/mandachord/index.jsx:114 | adding to the angle keeps it NaN once it is NaN, and otherwise adds the real amount |
| Component.FitScale | components/mandachord/index.jsx:95 | the scale is the largest at which the 500 by 400 virtual canvas fits in the container: it fits both ways and fills one |
| Component.FitScaleHomogeneous | components/mandachord/index.jsx:95 | scaling the container by k > 0 scales the fit by k |
| Component.FrameRotation | components/mandachord/index.jsx:109-111 | one frame turns the disc by -4.5 degrees per 100 ms elapsed, never forward for a non-negative delta |
| Component.FramesTelescope | components/mandachord/index.jsx:104-119 | the turn over any sequence of frames is the turn for the total elapsed time, whatever the frame rate |
| Component.DragTelescopes | components/mandachord/index.jsx:128-138 | the per-event drag turns add up to 0.1 degree per pixel between the first and the last pointer position |
| Component.RenderSteps | components/mandachord/index.jsx:179-188 | 64 steps, step `i` keyed `i` with `pos` `i`, step 0 at 0 degrees, all within [0, 360), consecutive steps 360/64 degrees apart |
| Component.Mandachord.constructor | components/mandachord/index.jsx:65-78 | initial sizes 0, scale 1, both rotations 0, not dragging, no window listeners |
| Component.Mandachord.ResizeMandachord | components/mandachord/index.jsx:91-102 | the size becomes the container's and the scale the fit; nothing else may change |
| Component.Mandachord.ComponentDidMount | components/mandachord/index.jsx:80-85 | resizes, then adds the resize listener and nothing else |
| Component.Mandachord.ComponentWillUnmount | components/mandachord/index.jsx:87-89 | removes the resize listener only; a drag's listeners stay registered |
| Component.Mandachord.OnAnimationFrame | components/mandachord/index.jsx:104-119 | paused: no change and nothing dispatched; running: both rotations turn by the same frame rotation and the elapsed time is dispatched |
| Component.Mandachord.StartDragging | components/mandachord/index.jsx:121-164 | for a mouse press: refused with no change while dragging or playing; otherwise starts a new gesture, records the press's `screenX` as `lastX` and registers exactly the gesture's mouseup, touchend, mousemove and touchmove listeners |
| Component.Mandachord.MoveListener | components/mandachord/index.jsx:128-138 | records the event's `screenX` as `lastX`; with both coordinates present it turns the disc (not the marker) by 0.1 times the move since `lastX`, and with either one undefined the angle becomes NaN |
| Component.Mandachord.MouseUpListener | components/mandachord/index.jsx:140-148 | clears `isDragging` and removes exactly the gesture's four listeners, leaving no drag listener registered |
| Component.Mandachord.DispatchMove | components/mandachord/index.jsx:150-163 | a window move event reaches the move closure exactly while a drag is under way, and changes nothing otherwise; a mouse move turns the disc by 0.1 per pixel, a touch move, which has no `screenX`, makes the angle NaN |
| Component.Mandachord.DispatchUp | components/mandachord/index.jsx:140-163 | a window up event ends the drag and leaves no drag listener; a second one changes nothing |
| Component.DragGesture | components/mandachord/index.jsx:121-164 | a whole paused mouse drag through `x0 .. xN` turns the disc by `0.1 * (xN - x0)`, changes only the drag fields, the disc angle and the listeners, leaves the marker alone and restores the window's listeners |
| Component.DragWithMoves | components/mandachord/index.jsx:121-164 | a paused drag in which any move comes from touch leaves the disc's angle NaN, and the release still restores the window's listeners |
| Component.PlayFrames | components/mandachord/index.jsx:104-119 | a run of frames changes only the two angles: nothing while paused, and otherwise both turn by the rotation of the whole elapsed time |

## Left out

- Rendering is not modelled: the React, Konva and styled-components trees, line points, colours, and the `475 / scale` and `495 / scale` offsets. Only the values `drawStep` and `renderSteps` compute from their inputs are modelled.
- `renderCurrentNoteMark` and `renderPanCircle` are not modelled: they only draw.
- `generateRandomDash` is not modelled: it draws on `Math.random`.
- `getAudioSpriteForNote` (util/helpers.js:7-12) is not modelled: it indexes audio sprite data that is not part of this model.
- Rotation, scale, timestamps and pointer positions are exact reals. IEEE-754 rounding is not modelled, so the telescoping results hold over reals, not bit for bit over doubles.
- React state handling is not modelled: `setState` batching and asynchrony, `forceUpdate`, and the `console.log` calls. Each `setState` takes effect at once in the model.
- The container's size, `isPaused`, event timestamps and the mouse events come from the DOM, the animation loop or the Redux store. The model takes them as method parameters. A mouse event carries its `screenX`. A touch move carries no coordinate, as a `TouchEvent` has no `screenX`.
- Component.Mandachord.StartDragging: takes only a mouse press, because the drag is started by `onMouseDown` alone (components/mandachord/index.jsx:201).
- The `supportsPassive` branch is not modelled. It changes only the listener options, not which listeners are registered.
- Redux wiring is not modelled: `connect`, the selectors and action creators, `setIsClientLoaded`, and the `updatePlaybackTime` dispatch. `OnAnimationFrame` returns the delta it would dispatch. Advancing `playbackTime` is not modelled, because the reducer has no case for it.
- NoteGrid.Mandachord: takes a state. Redux's first call, which passes `undefined` and so gets the default `initialState` (state/reducers/mandachord.js:29), is not modelled as a reducer input. `NoteGrid.InitialState` builds that state.
- NoteGrid.Mandachord: an id that is not an own key is an error. The model does not capture JavaScript's inherited object properties: an id such as `"toString"` would find a value on the prototype instead of throwing.
- Decimal.NatToString: JavaScript writes integers of 10^21 and above in exponent form. The model covers only decimal digits, which includes every step and note index.
- StepComponent.MandachordStep.ModifyStepNotes: requires `0 <= p < 13`, the slots a note can report. The model does not capture `splice` past the end of the array, which appends an element.
- NoteKey.NoteRegexExec: strings are sequences of Unicode scalar values, while JavaScript strings are UTF-16 code units. So the match index differs for text with characters outside the Basic Multilingual Plane before the match: `"😀:1"` gives index 1 here and 2 in JavaScript. Lone surrogates cannot be represented.
- NoteKey.NoteRegexExec: models `exec` on one string, with no `lastIndex` or flags (the pattern has none). It returns only the match index and the two named groups, not the whole matched text or the `input` field.
