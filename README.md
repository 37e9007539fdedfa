# visual-search-circle trial, modelled in Dafny

This project models the core of the jsPsych `visual-search-circle` trial
plugin. The plugin shows a fixation image. It then shows a search array: a
target (when present) and foils on a circle, plus two peripheral flankers.
Next it blanks the screen and waits for one of two response keys. An optional
trial duration limits the wait. At the end it records one result.

The model has these modules:

- `Js` holds the JavaScript semantics the plugin relies on. It covers `null`,
  ToNumber, the loose `==` between a boolean and a string, `!` on a string,
  and `null + n`.
- `TrialConfig` holds the trial parameters (`Config`) and the two image-path
  constants used by the correctness rule.
- `Layout` holds the paper size and the fixation and flanker locations. They
  are computed with exact `real` arithmetic and `.Floor`.
- `Stimuli` holds the foil normalisation loop and the slot-location loop. It
  also holds the `to_present` sequence, the image drawn in each slot, and the
  elements placed on the paper.
- `Scoring` holds the correctness rule exactly as written, and the record
  `end_trial` builds.
- `TrialSpec` holds the trial as a pure state machine over events.
  - The events are the fixation timer, the search-array timer, a key press and
    the timeout.
  - `Step` applies one event and `Run` applies a sequence.
  - `Consistent` is the invariant of reachable states.
  - Lemmas cover phase order, single finalisation, the display contents in
    each phase, and the two ways a trial can end.
- `TrialMachine` holds the class `Trial`. Its fields are the state the
  plugin's closures share. It has one event method per callback, and each
  method is proved to make exactly the step `Step` describes.

Environment inputs are parameters:

- `place(offset, i)` gives the circle position of slot `i`.
- `randomOffset` is the random angle.
- `keysMatch` is the host's key comparator.
- A key press event carries the raw reaction time and whether the key is held.

Behaviour reproduced as the code has it, where it departs from what a reader
might expect:

- In the correctness test, `!trial.target == 'img/target2.png'` compares a
  boolean with a non-numeric string. That is always false, so a response is
  correct exactly when the key matches `target_1_key` and the target is
  `img/target1.png` (`Scoring.Correct`).
- On timeout the raw `rt` is `null`, and `null + search_array_duration` is
  `search_array_duration`. The recorded `rt` is therefore that duration, not
  `null`.
- A key press does not cancel the trial-duration timer. The timer still fires
  later, sees `trial_over` and does nothing but expire (`TrialSpec.Step`,
  `TrialSpec.EndedIsFinal`).
- The paper is only appended to until the response screen. The fixation image
  therefore stays visible during the search array, followed by the circle
  images and the two flankers.
- The comment on `paper_size` says the paper was enlarged to hold the
  flankers. With the default parameters it does not: the paper is 475 px and
  the flankers run from -25 px to 500 px (`Layout.FlankersAgainstPaper`,
  `Layout.DefaultFlankersOutsidePaper`). The container sets no overflow, so the
  flankers are drawn past its edges.
- If `to_present` is shorter than the number of slots, a slot shows the image
  `undefined`, as string concatenation does with a missing entry. With the
  target present and one foil per slot, the last foil is never drawn.

## Model

| member | source | states |
|---|---|---|
| `Js.LooselyEqualsBoolString` | plugins/jspsych-visual-search-circle.js:256-257 | a boolean loosely equals no string that holds a character no numeric literal can contain |
| `Layout.FlankersAgainstPaper` | plugins/jspsych-visual-search-circle.js:152-158 | the second flanker starts within a pixel at or below `-overhang` and the first ends within a pixel below `paper_size + overhang`, where the overhang is half of flanker distance plus `flankerw` minus `diam`; with overhang at most 0 both flankers lie on the paper, with overhang of a pixel or more both stick out of it |
| `Layout.DefaultFlankersOutsidePaper` | plugins/jspsych-visual-search-circle.js:141-176 | with the default parameters the paper is 475 px, the second flanker starts at -25 px and the first ends at 500 px, so the comment saying the paper accommodates the flankers does not hold |
| `Layout.FixationLoc` | plugins/jspsych-visual-search-circle.js:160-161 | each fixation coordinate is a whole pixel within one pixel at or below `paper_size/2 - fixation_size[j]/2` |
| `Layout.FlankerLocs` | plugins/jspsych-visual-search-circle.js:174-176 | two flankers share one `top` that is a whole pixel at or below the centre minus `hflankerw`; their `left` values are whole pixels; their horizontal centres lie within a pixel of the centre plus and minus the flanker distance |
| `Layout.FlankersVerticallyCentred` | plugins/jspsych-visual-search-circle.js:152-155 | with a square target the flankers are square and centred vertically within a pixel |
| `Layout.FlankersMirrored` | plugins/jspsych-visual-search-circle.js:175-176 | the flankers mirror each other about the centre to within two pixels |
| `Stimuli.NormalisedFoil` | plugins/jspsych-visual-search-circle.js:182-189 | an array foil is kept unchanged; a single foil becomes exactly `set_size` copies of itself (none when `set_size <= 0`) |
| `Stimuli.NormaliseFoil` | plugins/jspsych-visual-search-circle.js:183-189 | the push loop produces the normalised foil |
| `Stimuli.DisplayLocs` | plugins/jspsych-visual-search-circle.js:163-172 | the push loop produces exactly `set_size` locations, location `i` being the position of slot `i` at the random offset |
| `Stimuli.SlotImages` | plugins/jspsych-visual-search-circle.js:209-219 | with the target present, slot 0 shows the target and slot `i` shows foil `i-1`; without it, slot `i` shows foil `i`; a slot past the end shows `undefined` |
| `Stimuli.LastFoilDropped` | plugins/jspsych-visual-search-circle.js:209-219 | with the target present and one foil per slot, the slots show the target followed by every foil but the last |
| `Stimuli.TargetAbsentShowsFoils` | plugins/jspsych-visual-search-circle.js:209-219 | without the target the slots show the first `set_size` foils, so the target appears in no slot unless it is one of them |
| `Stimuli.OneFoilSlots` | plugins/jspsych-visual-search-circle.js:183-219 | with a single foil, every slot shows it, except slot 0, which shows the target when the target is present |
| `Stimuli.CircleElements` | plugins/jspsych-visual-search-circle.js:215-219 | one circle element per location, carrying its slot image, the location and `target_size` |
| `Stimuli.FixationElement` | plugins/jspsych-visual-search-circle.js:196 | the fixation element shows `fixation_image` at the fixation location, `fixation_size[0]` wide and `fixation_size[1]` high |
| `Stimuli.FlankerElements` | plugins/jspsych-visual-search-circle.js:221-224 | two flanker elements with the same image, both `flankerw` wide and `flankerh` high, flanker `j` at flanker location `j` |
| `Stimuli.SearchDisplay` | plugins/jspsych-visual-search-circle.js:196-224 | the search-array display holds 1 + `set_size` + 2 images: the fixation image, then the circle, then the two flankers |
| `TrialMachine.AppendCircle` | plugins/jspsych-visual-search-circle.js:215-219 | the drawing loop appends exactly the circle elements to the paper, in slot order |
| `Scoring.Target2ImageNeverNumeric` | plugins/jspsych-visual-search-circle.js:257 | `'img/target2.png'` is not a numeric string |
| `Scoring.Correct` | plugins/jspsych-visual-search-circle.js:252-258 | the rule as written is true exactly when the key matches `target_1_key` and the target is `img/target1.png` |
| `Scoring.Target2KeyNeverCorrect` | plugins/jspsych-visual-search-circle.js:254-257 | a key that matches only `target_2_key` is never scored correct, whatever the target |
| `Scoring.EndTrialData` | plugins/jspsych-visual-search-circle.js:303-314 | the record carries the given `correct` and response; `rt` is the raw value plus `search_array_duration` (the duration alone for `null`); `locations` is the slot-location list; target image, set size and flanker image come from the parameters |
| `TrialSpec.InitConsistent` | plugins/jspsych-visual-search-circle.js:191-202 | the trial starts in Fixation with only the fixation image and its timer pending |
| `TrialSpec.StepConsistent` | plugins/jspsych-visual-search-circle.js:191-300 | every event preserves the invariant: each phase's display and pending callbacks, and exactly one proper record once Ended |
| `TrialSpec.StepOrder` | plugins/jspsych-visual-search-circle.js:199-295 | an event advances the phase by at most one; Fixation ends exactly on the fixation timer, SearchArray exactly on the search timer, ResponseWait exactly on an accepted key press or a scheduled timeout; a key press before ResponseWait changes nothing |
| `TrialSpec.RunConsistent` | plugins/jspsych-visual-search-circle.js:191-300 | every state reached by any sequence of events satisfies the invariant |
| `TrialSpec.FinishesAtMostOnce` | plugins/jspsych-visual-search-circle.js:246-295 | whatever the events, at most one record is handed over, and one has been handed over exactly when the trial has ended |
| `TrialSpec.PhasesInOrder` | plugins/jspsych-visual-search-circle.js:191-246 | along any run, phases never go back and never skip one |
| `TrialSpec.EndedIsFinal` | plugins/jspsych-visual-search-circle.js:277-293 | after Ended no event changes the phase, the empty display, the listener or the record |
| `TrialSpec.DisplayByPhase` | plugins/jspsych-visual-search-circle.js:196-299 | Fixation shows 1 image; SearchArray shows fixation, `set_size` circle images and 2 flankers; ResponseWait and Ended show nothing |
| `TrialSpec.KeyPressEnds` | plugins/jspsych-visual-search-circle.js:248-273 | an accepted key press ends the trial with the scored record, `rt + search_array_duration` and the key |
| `TrialSpec.TimeoutEnds` | plugins/jspsych-visual-search-circle.js:277-293 | a timeout during ResponseWait cancels the listener, clears the display, and records `correct` 0, `null` response and `rt` equal to `search_array_duration` |
| `TrialSpec.UntimedEndsOnlyByKey` | plugins/jspsych-visual-search-circle.js:275-295 | with no trial duration no timeout is ever pending, and an ended trial was ended by an accepted key |
| `TrialSpec.ReachResponseWait` | plugins/jspsych-visual-search-circle.js:199-246 | the fixation timer and then the search timer lead to ResponseWait |
| `TrialSpec.AnsweredTrial` | plugins/jspsych-visual-search-circle.js:191-317 | a trial answered with the target-1 key records `rt` as raw plus `search_array_duration`, the key, correctness from the target, and one location per slot |
| `TrialSpec.TimedOutTrial` | plugins/jspsych-visual-search-circle.js:191-317 | a timed-out trial records `correct` 0, `null` response and `rt` equal to `search_array_duration`, and ignores a later key |
| `TrialMachine.Trial.constructor` | plugins/jspsych-visual-search-circle.js:138-202 | computes the slot locations and the normalised foil, shows the fixation image, schedules the fixation timer; starts in the initial state |
| `TrialMachine.Trial.FixationTimerFired` | plugins/jspsych-visual-search-circle.js:199-239 | the fixation-timer callback makes the `Step` transition and keeps the invariant |
| `TrialMachine.Trial.SearchTimerFired` | plugins/jspsych-visual-search-circle.js:235-295 | the search-timer callback makes the `Step` transition and keeps the invariant |
| `TrialMachine.Trial.KeyPressed` | plugins/jspsych-visual-search-circle.js:248-273 | the listener and `after_response` make the `Step` transition and keep the invariant |
| `TrialMachine.Trial.TimeoutFired` | plugins/jspsych-visual-search-circle.js:277-293 | the timeout callback makes the `Step` transition and keeps the invariant |
| `TrialMachine.Trial.EndTrial` | plugins/jspsych-visual-search-circle.js:303-318 | `end_trial` appends the record to what the runner received and enters Ended |

## Left out

- Circle coordinates (lines 166-171 and 323-329): `cosd`/`sind` are double-precision cosine and sine, and the offset comes from `Math.random()`. The model takes each slot position as a parameter `place(offset, i)`, so only the count and order of slots are verified. No distance or spacing property is stated.
- HTML building, `innerHTML` and `querySelector` (lines 179-180, 196, 217, 223-224, 298): the display is an abstract list of (image, top, left, width, height) records. The container `div` and anything already on the display element are not modelled.
- `plugin.info` and the `registerPreload` calls (lines 23-136): these are declarative registration with the host. `flanker_size` and `flanker_offset` default to 1.5 although they are declared INT; the model takes reals.
- jsPsych library calls:
  - `setTimeout` becomes a pending flag plus an event method.
  - `getKeyboardResponse` and `cancelKeyboardResponse` become the `listening` flag.
  - `compareKeys` becomes the `keysMatch` parameter.
  - `finishTrial` becomes appending to `finished`.
  - Anything the host does inside those calls is not modelled, such as clearing pending timers when a trial finishes.
- Real time: `fixation_duration`, `search_array_duration` and `trial_duration` as delays are not modelled, nor is the order in which timers fire. Any event order is allowed. `rt` is an input integer.
- Exact JavaScript double arithmetic: layout values are exact reals.
- Js.StringToNumber: defined only for strings that hold a character no numeric literal can contain, which is all the correctness rule needs.
- A fractional `set_size` (a loop `i < 2.5` runs three times) is not modelled. `set_size` is an integer.
- The plugin writes the normalised foil back into the trial's parameter object. The model keeps it in `Setup` and does not model the write-back.
