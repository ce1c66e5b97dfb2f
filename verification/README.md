# In Your Face — gesture detection core in Dafny

In Your Face scrolls a web page when the user blinks or opens their mouth in
front of a camera. For every face found in a video frame it computes two
"openness" ratios from facial landmarks: the eye aspect ratio, averaged over
both eyes, and the mouth aspect ratio. Each ratio feeds a debounced trigger.
A trigger counts consecutive frames in which its ratio is below the threshold.
The first frame at or above the threshold releases the gesture. The release
completes a gesture, and raises a flag, only when at least the configured
number of frames were counted before it. The flag is turned into one scroll
right away: 100 units down for a blink, 100 units up for the mouth, and is
then cleared.

The project has three modules:

- `Ratio` (`ratio.dfy`): the eye aspect ratio `(A + B) / (2C)` over three
  landmark distances, the mean of both eyes, and the mouth ratio `height / width`.
- `Debounce` (`debounce.dfy`): the trigger state (a `nat` counter), the pure
  one-frame `Step`, the fold `Run` over a trace of frames, and the trace lemmas.
  The central one is `PulseIffDebouncedRelease`. It says that frame `i` pulses
  exactly when it is a release and the `minFrames` frames before it were all
  below the threshold. This is stated without reference to the counter.
- `Gestures` (`gestures.dfy`): the per-face iteration of the frame loop.
  `Measure` turns a face's landmark distances into its two ratios.
  `Detect` updates both counters and raises the flags. `Consume` turns the
  flags into scrolls and clears them. `ProcessFrame` folds over the face readings of
  one frame. `ProcessDetectedFaces` measures a frame's faces and then runs
  that fold. `RunFrames` folds over a sequence of frames. The main lemma,
  `ProcessFrameIsTwoTriggers`, shows that the loop is two independent `Run`s
  whose pulses are mapped to scrolls.

Behaviour of the program that the model keeps:

- One minimum frame count (`--frames`, default 2) serves both the eye and
  the mouth trigger.
- The minimum is an arbitrary integer, as the command line accepts. With a
  value of 0 or less, every release frame pulses.
- All faces found in one frame drive the same pair of triggers, one after
  the other (`FacesShareTriggers`). Frame boundaries therefore do not matter
  (`RunFramesIsFaceStream`).
- A frame with no face runs no loop body. Nothing changes and nothing
  scrolls (`EmptyFrameIsIdle`).
- Thresholds default to 0.19 for the eyes and 0.7 for the mouth (`Gestures.Defaults`).
- Zero widths: the program divides without a guard, so the model requires
  a non-zero eye corner span and a non-zero mouth width.
- The program always slices six eye landmarks, so there is no short-eye case.
- The trigger state is the counter alone; `Trigger.Idle` is `counter == 0`.

## Model

| member | source | states |
|---|---|---|
| Ratio.EyeAspectRatio | InYourFace.py:28-42 | the ratio is non-negative, times twice the corner distance it gives back the sum of the vertical distances, and it is 0 exactly when both vertical distances are 0 |
| Ratio.ClosedEyeRatio | InYourFace.py:31-39 | an eye whose vertical landmark pairs coincide has ratio 0 |
| Ratio.SymmetricEyeRatio | InYourFace.py:31-39 | an eye with equal vertical spans has ratio opening / width |
| Ratio.EyeAspectRatioScaleInvariant | InYourFace.py:31-39 | scaling all three distances by one positive factor leaves the ratio unchanged |
| Ratio.EyeAspectRatioMonotone | InYourFace.py:31-39 | wider vertical spans never lower the ratio and a wider corner span never raises it |
| Ratio.MeanRatio | InYourFace.py:133 | the combined ratio lies halfway between the two eyes' ratios |
| Ratio.MeanRatioAgreesWithBothEyes | InYourFace.py:133 | when both eyes are below the threshold so is the mean, when both are at or above it so is the mean, and the mean is symmetric |
| Ratio.MouthAspectRatio | InYourFace.py:131 | the mouth ratio times the box width is the box height; it is 1 exactly for a square box and below 1 exactly when the box is wider than high |
| Debounce.Step | InYourFace.py:146-158 | a below-threshold frame adds 1 to the counter and never pulses; any other frame resets the counter to 0; a pulse happens exactly on a release whose preceding counter reached the minimum |
| Debounce.Run | InYourFace.py:146-158 | feeding a trace to a trigger gives one pulse verdict per frame |
| Debounce.RunSnoc | InYourFace.py:146-158 | running a trace plus one frame is running the trace and then one more step |
| Debounce.RunPulseAt | InYourFace.py:154-155 | the pulse at frame i is decided by the step from the state after the first i frames |
| Debounce.RunCounter | InYourFace.py:146-158 | after a trace the counter is the starting counter plus the length if every frame was below the threshold; otherwise it is the length of the trailing below-threshold run, and the frame before that run is a release |
| Debounce.PulseIffDebouncedRelease | InYourFace.py:146-158 | from a fresh trigger, frame i pulses if and only if it is a release and the minFrames frames before it were all below the threshold |
| Debounce.HeldGestureNeverPulses | InYourFace.py:146-147 | a gesture held below the threshold for the whole trace produces no pulse, and the counter grows by the trace length |
| Debounce.PulsesAreSpaced | InYourFace.py:154-158 | from any starting counter, two pulses of one trigger are more than minFrames frames apart |
| Debounce.PulseBudget | InYourFace.py:146-158 | from any state, pulses times (minFrames + 1) plus the final counter never exceed the trace length plus the starting counter |
| Debounce.PulseCountBound | InYourFace.py:146-158 | from a fresh trigger, n pulses need at least n * (minFrames + 1) frames |
| Debounce.ClosedTwiceThenOpened | InYourFace.py:146-158 | with minimum 2 the trace closed, closed, open pulses once, on the third frame |
| Debounce.ClosedOnceThenOpened | InYourFace.py:146-158 | with minimum 2 the trace closed, open never pulses |
| Gestures.Measure | InYourFace.py:120-133 | a face's eye reading and mouth reading are non-negative; the eye reading is 0 exactly when all four vertical spans are 0; the mouth reading times the box width is the box height; the eye reading is the mean of the two eyes' ratios |
| Gestures.LevelFaceReading | InYourFace.py:122-133 | a face whose eyes both have equal vertical spans h over unit width reads an eye ratio of exactly h |
| Gestures.Emitted | InYourFace.py:176-181 | a blink pulse yields exactly one scroll of -100, a mouth pulse exactly one scroll of +100, blink first |
| Gestures.Detect | InYourFace.py:146-166 | both counters follow the trigger rule on their own ratio and threshold with the shared minimum; a flag is raised by a pulse and otherwise keeps its value |
| Gestures.Consume | InYourFace.py:176-181 | every raised flag gives exactly one scroll and nothing else is emitted, when both flags are raised the down scroll comes first, the flags are cleared afterwards and the counters are untouched |
| Gestures.ProcessFace | InYourFace.py:146-181 | one face iteration leaves no flag raised, each trigger moves only on its own ratio, and from a quiescent state the scrolls are exactly those of the two pulses |
| Gestures.ProcessFrame | InYourFace.py:146-181 | a sequence of face readings drives the shared triggers in order: no readings changes nothing, and after any face the flags are clear |
| Gestures.ProcessDetectedFaces | InYourFace.py:111-181 | each detected face is measured and drives the shared triggers; no faces change nothing; from a quiescent state the result is the two triggers run over the measured eye and mouth traces with pulses mapped to scrolls |
| Gestures.EmittedAllCounts | InYourFace.py:176-181 | over a run, the down scrolls number the blink pulses and the up scrolls the mouth pulses, and nothing else is emitted |
| Gestures.ProcessFrameIsTwoTriggers | InYourFace.py:146-181 | from a quiescent state the loop ends in the two independent triggers' final states and emits exactly their pulses mapped to scrolls, face by face |
| Gestures.BlinkScrollIffDebouncedRelease | InYourFace.py:146-178 | from the start, face i of a stream completes a blink exactly when its eye reading releases a closure held for minFrames faces, and the down scrolls number the blink pulses |
| Gestures.MouthScrollIffDebouncedRelease | InYourFace.py:160-181 | from the start, face i of a stream completes a mouth gesture exactly when its mouth reading releases a state held below the threshold for minFrames faces, and the up scrolls number the mouth pulses |
| Gestures.ProcessFrameAppend | InYourFace.py:111 | processing two groups of faces in turn equals processing them together |
| Gestures.RunFramesSnoc | InYourFace.py:94-181 | frame k's scroll list is what that frame's faces emit from the state the earlier frames left, and the state after it is the state that frame's faces reach |
| Gestures.RunFramesIsFaceStream | InYourFace.py:94-111 | running frame by frame gives the same final state and scrolls as one stream of all their faces |
| Gestures.RunFrames | InYourFace.py:94-111 | one scroll list per frame, in frame order (`RunFramesSnoc` fixes each list); a quiescent start stays quiescent |
| Gestures.EmptyFrameIsIdle | InYourFace.py:111 | a frame with no detected face leaves the state unchanged and scrolls nothing |
| Gestures.BlinkScenario | InYourFace.py:146-158 | with the defaults, eye ratios 0.15, 0.15, 0.25 scroll down once, on the third frame only |
| Gestures.MouthReleasedTooEarly | InYourFace.py:160-166 | with the defaults, mouth ratios 0.5 then 0.9 never scroll up |
| Gestures.BothGesturesInOneFrame | InYourFace.py:176-181 | blink and mouth may complete on the same face, giving a down then an up scroll |
| Gestures.FacesShareTriggers | InYourFace.py:111-158 | three faces in one frame (closed, closed, open) complete a blink within that frame, since they share the triggers |

## Left out

- Argument parsing: thresholds and the minimum frame count are the fields of `Gestures.Config`.
- Face detection and landmark prediction (dlib): they are foreign model calls, so each face arrives as its landmark distances and mouth box.
- Euclidean distance: it is a floating-point square root, so eye distances are given as non-negative reals.
- The convex hull and bounding rectangle of the mouth: they are library geometry, so the box height and width are given as naturals.
- Floating-point rounding: every ratio is computed over exact reals.
- Ratio.EyeAspectRatio: requires a non-zero corner distance. The code divides without a guard, and the library would give an infinite or undefined value there.
- Ratio.MouthAspectRatio: requires a non-zero box width. The code would raise a division error there, but the library's bounding rectangle of a non-empty point set is never zero-wide.
- Video capture, frame resizing and grayscale conversion, the start-up sleep, the quit key and shutdown: these are I/O.
- All drawing and on-screen text: this is UI.
- The operating-system scroll call: the model returns the scroll amounts instead.
