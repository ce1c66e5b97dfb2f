/**
 * The frame loop's detection core: for every detected face it combines the
 * eye and mouth ratios, drives the blink and mouth triggers, raises the
 * BLINK and MOUTH flags on a pulse and immediately turns each raised flag
 * into one scroll (down 100 for a blink, up 100 for an opened mouth),
 * clearing it again.
 *
 * Every face of a frame drives the same pair of triggers, one after the
 * other, as in the program's frame loop. Scrolls are returned as amounts instead
 * of being sent to the operating system.
 */
module Gestures {
  import opened Ratio
  import opened Debounce

  /** Scroll amount for a completed blink. */
  const ScrollDown: int := -100
  /** Scroll amount for a completed mouth opening. */
  const ScrollUp: int := 100

  /** Thresholds and the held-frame minimum; one minimum serves both gestures. */
  datatype Config = Config(eyeThreshold: real, mouthThreshold: real, minFrames: int)

  /** The command line's defaults. */
  const Defaults := Config(0.19, 0.7, 2)

  /** The landmark distances of one eye: vertical spans `a` and `b`, corner span `c`. */
  datatype Eye = Eye(a: real, b: real, c: real) {
    predicate Valid() { a >= 0.0 && b >= 0.0 && c > 0.0 }
  }

  /** One detected face: both eyes and the mouth's bounding-box height and width. */
  datatype Face = Face(left: Eye, right: Eye, mouthHeight: nat, mouthWidth: nat) {
    predicate Valid() { left.Valid() && right.Valid() && mouthWidth > 0 }
  }

  /** The two ratios measured on one face. */
  datatype Reading = Reading(ear: real, mar: real)

  /**
   * Measures one face: the combined eye ratio is the mean of both eyes'
   * aspect ratios, the mouth ratio is the mouth box's height over its width.
   */
  function Measure(f: Face): (r: Reading)
    requires f.Valid()
    ensures r.ear >= 0.0 && r.mar >= 0.0
    ensures r.ear - EyeAspectRatio(f.left.a, f.left.b, f.left.c)
         == EyeAspectRatio(f.right.a, f.right.b, f.right.c) - r.ear
    ensures r.ear == 0.0 <==> f.left.a == f.left.b == f.right.a == f.right.b == 0.0
    ensures r.mar * (f.mouthWidth as real) == f.mouthHeight as real
  {
    var left := EyeAspectRatio(f.left.a, f.left.b, f.left.c);
    var right := EyeAspectRatio(f.right.a, f.right.b, f.right.c);
    Reading(MeanRatio(left, right), MouthAspectRatio(f.mouthHeight, f.mouthWidth))
  }

  /** An eye with both vertical spans equal to `h` and unit corner span. */
  function LevelEye(h: real): Eye { Eye(h, h, 1.0) }

  /** A face whose eyes both are level eyes of opening `h`. */
  function LevelFace(h: real, mouthHeight: nat, mouthWidth: nat): Face {
    Face(LevelEye(h), LevelEye(h), mouthHeight, mouthWidth)
  }

  /** A face with level eyes of opening `h` over unit width has combined eye ratio `h`. */
  lemma LevelFaceReading(h: real, mouthHeight: nat, mouthWidth: nat)
    requires h >= 0.0 && mouthWidth > 0
    ensures LevelFace(h, mouthHeight, mouthWidth).Valid()
    ensures Measure(LevelFace(h, mouthHeight, mouthWidth)).ear == h
  {
  }

  /** Both triggers and the two pulse flags of the frame loop. */
  datatype State = State(blink: Trigger, mouth: Trigger, blinkFlag: bool, mouthFlag: bool) {
    /** No pulse is waiting to be turned into a scroll. */
    predicate Quiescent() { !blinkFlag && !mouthFlag }
  }

  /** Counters at zero and flags cleared, as the loop starts. */
  const Start := State(Initial, Initial, false, false)

  /** A new state and the scroll amounts emitted on the way, in order. */
  datatype Output = Output(state: State, scrolls: seq<int>)

  /** The scrolls one face iteration emits for its blink and mouth pulses. */
  function Emitted(blink: bool, mouth: bool): (r: seq<int>)
    ensures ScrollDown in r <==> blink
    ensures ScrollUp in r <==> mouth
    ensures |r| == (if blink then 1 else 0) + (if mouth then 1 else 0)
    ensures blink && mouth ==> r == [ScrollDown, ScrollUp]
  {
    (if blink then [ScrollDown] else []) + (if mouth then [ScrollUp] else [])
  }

  /** Updates both triggers from one face's ratios; a pulse raises its flag. */
  function Detect(cfg: Config, s: State, ear: real, mar: real): (r: State)
    ensures r.blink.counter == (if ear < cfg.eyeThreshold then s.blink.counter + 1 else 0)
    ensures r.mouth.counter == (if mar < cfg.mouthThreshold then s.mouth.counter + 1 else 0)
    ensures r.blinkFlag <==> s.blinkFlag || (ear >= cfg.eyeThreshold && s.blink.counter >= cfg.minFrames)
    ensures r.mouthFlag <==> s.mouthFlag || (mar >= cfg.mouthThreshold && s.mouth.counter >= cfg.minFrames)
  {
    var b := Step(s.blink, ear < cfg.eyeThreshold, cfg.minFrames);
    var m := Step(s.mouth, mar < cfg.mouthThreshold, cfg.minFrames);
    State(b.next, m.next, s.blinkFlag || b.pulse, s.mouthFlag || m.pulse)
  }

  /** Turns each raised flag into one scroll and clears it. */
  function Consume(s: State): (r: Output)
    ensures r.state.Quiescent()
    ensures r.state.blink == s.blink && r.state.mouth == s.mouth
    ensures ScrollDown in r.scrolls <==> s.blinkFlag
    ensures ScrollUp in r.scrolls <==> s.mouthFlag
    ensures |r.scrolls| == (if s.blinkFlag then 1 else 0) + (if s.mouthFlag then 1 else 0)
    ensures s.blinkFlag && s.mouthFlag ==> r.scrolls == [ScrollDown, ScrollUp]
  {
    Output(State(s.blink, s.mouth, false, false), Emitted(s.blinkFlag, s.mouthFlag))
  }

  /**
   * One face iteration. Each trigger sees only its own ratio, the flags never
   * outlive the iteration, and from a quiescent state the scrolls are exactly
   * those of the two triggers' pulses.
   */
  function ProcessFace(cfg: Config, s: State, rd: Reading): (r: Output)
    ensures r.state.Quiescent()
    ensures r.state.blink == Step(s.blink, rd.ear < cfg.eyeThreshold, cfg.minFrames).next
    ensures r.state.mouth == Step(s.mouth, rd.mar < cfg.mouthThreshold, cfg.minFrames).next
    ensures s.Quiescent() ==>
              r.scrolls == Emitted(Step(s.blink, rd.ear < cfg.eyeThreshold, cfg.minFrames).pulse,
                                   Step(s.mouth, rd.mar < cfg.mouthThreshold, cfg.minFrames).pulse)
  {
    Consume(Detect(cfg, s, rd.ear, rd.mar))
  }

  /** One video frame: the readings of every detected face, in order, drive the shared triggers. */
  function ProcessFrame(cfg: Config, s: State, faces: seq<Reading>): (r: Output)
    ensures |faces| == 0 ==> r == Output(s, [])
    ensures s.Quiescent() || |faces| > 0 ==> r.state.Quiescent()
    decreases |faces|
  {
    if |faces| == 0 then
      Output(s, [])
    else
      var first := ProcessFace(cfg, s, faces[0]);
      var rest := ProcessFrame(cfg, first.state, faces[1..]);
      Output(rest.state, first.scrolls + rest.scrolls)
  }

  /** Whether each face's combined eye ratio is below the eye threshold. */
  function EyeTrace(cfg: Config, faces: seq<Reading>): (r: seq<bool>)
    ensures |r| == |faces|
    ensures forall i :: 0 <= i < |faces| ==> (r[i] <==> faces[i].ear < cfg.eyeThreshold)
  {
    seq(|faces|, i requires 0 <= i < |faces| => faces[i].ear < cfg.eyeThreshold)
  }

  /** Whether each face's mouth ratio is below the mouth threshold. */
  function MouthTrace(cfg: Config, faces: seq<Reading>): (r: seq<bool>)
    ensures |r| == |faces|
    ensures forall i :: 0 <= i < |faces| ==> (r[i] <==> faces[i].mar < cfg.mouthThreshold)
  {
    seq(|faces|, i requires 0 <= i < |faces| => faces[i].mar < cfg.mouthThreshold)
  }

  /** Every face of a frame has a non-zero eye corner span and mouth width. */
  predicate AllValid(faces: seq<Face>) {
    forall i :: 0 <= i < |faces| ==> faces[i].Valid()
  }

  /** The readings of a frame's faces, in order. */
  function MeasureAll(faces: seq<Face>): (r: seq<Reading>)
    requires AllValid(faces)
    ensures |r| == |faces|
    ensures forall i :: 0 <= i < |faces| ==> r[i] == Measure(faces[i])
  {
    seq(|faces|, i requires 0 <= i < |faces| && AllValid(faces) => Measure(faces[i]))
  }

  /** The scrolls of two aligned pulse traces, face by face. */
  function EmittedAll(blinks: seq<bool>, mouths: seq<bool>): (r: seq<int>)
    requires |blinks| == |mouths|
    decreases |blinks|
  {
    if |blinks| == 0 then []
    else Emitted(blinks[0], mouths[0]) + EmittedAll(blinks[1..], mouths[1..])
  }

  /** The number of times `x` occurs in `s`. */
  function Occurrences(s: seq<int>, x: int): (n: nat)
    ensures n <= |s|
  {
    if |s| == 0 then 0
    else (if s[0] == x then 1 else 0) + Occurrences(s[1..], x)
  }

  lemma {:induction false} OccurrencesAppend(s: seq<int>, t: seq<int>, x: int)
    ensures Occurrences(s + t, x) == Occurrences(s, x) + Occurrences(t, x)
    decreases |s|
  {
    if |s| == 0 {
      assert s + t == t;
    } else {
      assert (s + t)[0] == s[0];
      assert (s + t)[1..] == s[1..] + t;
      OccurrencesAppend(s[1..], t, x);
    }
  }

  /** Every blink pulse gives exactly one down scroll, every mouth pulse exactly one up scroll. */
  lemma {:induction false} EmittedAllCounts(blinks: seq<bool>, mouths: seq<bool>)
    requires |blinks| == |mouths|
    ensures Occurrences(EmittedAll(blinks, mouths), ScrollDown) == CountPulses(blinks)
    ensures Occurrences(EmittedAll(blinks, mouths), ScrollUp) == CountPulses(mouths)
    ensures |EmittedAll(blinks, mouths)| == CountPulses(blinks) + CountPulses(mouths)
    decreases |blinks|
  {
    if |blinks| > 0 {
      var head := Emitted(blinks[0], mouths[0]);
      EmittedAllCounts(blinks[1..], mouths[1..]);
      OccurrencesAppend(head, EmittedAll(blinks[1..], mouths[1..]), ScrollDown);
      OccurrencesAppend(head, EmittedAll(blinks[1..], mouths[1..]), ScrollUp);
      assert Occurrences(head, ScrollDown) == (if blinks[0] then 1 else 0) by {
        if blinks[0] && mouths[0] { assert head == [ScrollDown, ScrollUp]; }
      }
      assert Occurrences(head, ScrollUp) == (if mouths[0] then 1 else 0) by {
        if blinks[0] && mouths[0] { assert head == [ScrollDown, ScrollUp]; }
      }
    }
  }

  /**
   * A run of faces from a quiescent state is exactly two independent
   * debounced triggers, one fed the eye trace and one the mouth trace, with
   * their pulses mapped to scrolls face by face.
   */
  lemma {:induction false} ProcessFrameIsTwoTriggers(cfg: Config, s: State, faces: seq<Reading>)
    requires s.Quiescent()
    ensures var r := ProcessFrame(cfg, s, faces);
            var b := Run(s.blink, EyeTrace(cfg, faces), cfg.minFrames);
            var m := Run(s.mouth, MouthTrace(cfg, faces), cfg.minFrames);
            r.state == State(b.final, m.final, false, false)
            && r.scrolls == EmittedAll(b.pulses, m.pulses)
    decreases |faces|
  {
    if |faces| > 0 {
      var first := ProcessFace(cfg, s, faces[0]);
      ProcessFrameIsTwoTriggers(cfg, first.state, faces[1..]);
      assert EyeTrace(cfg, faces)[1..] == EyeTrace(cfg, faces[1..]);
      assert MouthTrace(cfg, faces)[1..] == MouthTrace(cfg, faces[1..]);
    }
  }

  /**
   * From a fresh start, face i of a stream completes a blink (its blink pulse)
   * exactly when its eye reading releases a blink held for `minFrames` faces
   * before it, and the down scrolls number the blink pulses.
   */
  lemma {:induction false} BlinkScrollIffDebouncedRelease(cfg: Config, faces: seq<Reading>, i: int)
    requires 0 <= i < |faces|
    ensures Run(Initial, EyeTrace(cfg, faces), cfg.minFrames).pulses[i]
        <==> DebouncedRelease(EyeTrace(cfg, faces), i, cfg.minFrames)
    ensures Occurrences(ProcessFrame(cfg, Start, faces).scrolls, ScrollDown)
         == CountPulses(Run(Initial, EyeTrace(cfg, faces), cfg.minFrames).pulses)
  {
    ProcessFrameIsTwoTriggers(cfg, Start, faces);
    PulseIffDebouncedRelease(EyeTrace(cfg, faces), cfg.minFrames, i);
    EmittedAllCounts(Run(Initial, EyeTrace(cfg, faces), cfg.minFrames).pulses,
                     Run(Initial, MouthTrace(cfg, faces), cfg.minFrames).pulses);
  }

  /**
   * The mouth counterpart: face i completes a mouth gesture (its mouth pulse)
   * exactly when the mouth opens after being closed for `minFrames` faces, and
   * the up scrolls number the mouth pulses.
   */
  lemma {:induction false} MouthScrollIffDebouncedRelease(cfg: Config, faces: seq<Reading>, i: int)
    requires 0 <= i < |faces|
    ensures Run(Initial, MouthTrace(cfg, faces), cfg.minFrames).pulses[i]
        <==> DebouncedRelease(MouthTrace(cfg, faces), i, cfg.minFrames)
    ensures Occurrences(ProcessFrame(cfg, Start, faces).scrolls, ScrollUp)
         == CountPulses(Run(Initial, MouthTrace(cfg, faces), cfg.minFrames).pulses)
  {
    ProcessFrameIsTwoTriggers(cfg, Start, faces);
    PulseIffDebouncedRelease(MouthTrace(cfg, faces), cfg.minFrames, i);
    EmittedAllCounts(Run(Initial, EyeTrace(cfg, faces), cfg.minFrames).pulses,
                     Run(Initial, MouthTrace(cfg, faces), cfg.minFrames).pulses);
  }

  /**
   * The whole body of the face loop for one frame: each detected face is
   * measured and its readings drive the shared triggers. From a quiescent
   * state the result is the two triggers run over the measured eye and mouth
   * traces, with their pulses mapped to scrolls.
   */
  function ProcessDetectedFaces(cfg: Config, s: State, faces: seq<Face>): (r: Output)
    requires AllValid(faces)
    ensures |faces| == 0 ==> r == Output(s, [])
    ensures s.Quiescent() ==>
              var b := Run(s.blink, EyeTrace(cfg, MeasureAll(faces)), cfg.minFrames);
              var m := Run(s.mouth, MouthTrace(cfg, MeasureAll(faces)), cfg.minFrames);
              r.state == State(b.final, m.final, false, false)
              && r.scrolls == EmittedAll(b.pulses, m.pulses)
  {
    var readings := MeasureAll(faces);
    if s.Quiescent() then
      ProcessFrameIsTwoTriggers(cfg, s, readings);
      ProcessFrame(cfg, s, readings)
    else
      ProcessFrame(cfg, s, readings)
  }

  /** Processing two groups of faces in turn is processing them together. */
  lemma {:induction false} ProcessFrameAppend(cfg: Config, s: State, f1: seq<Reading>, f2: seq<Reading>)
    ensures var a := ProcessFrame(cfg, s, f1);
            var b := ProcessFrame(cfg, a.state, f2);
            ProcessFrame(cfg, s, f1 + f2) == Output(b.state, a.scrolls + b.scrolls)
    decreases |f1|
  {
    if |f1| == 0 {
      assert f1 + f2 == f2;
    } else {
      var g := f1 + f2;
      var first := ProcessFace(cfg, s, f1[0]);
      assert g[0] == f1[0];
      assert g[1..] == f1[1..] + f2;
      ProcessFrameAppend(cfg, first.state, f1[1..], f2);
      var a' := ProcessFrame(cfg, first.state, f1[1..]);
      var b := ProcessFrame(cfg, a'.state, f2);
      calc {
        ProcessFrame(cfg, s, g);
        Output(ProcessFrame(cfg, first.state, g[1..]).state, first.scrolls + ProcessFrame(cfg, first.state, g[1..]).scrolls);
        Output(b.state, first.scrolls + (a'.scrolls + b.scrolls));
        { assert first.scrolls + (a'.scrolls + b.scrolls) == (first.scrolls + a'.scrolls) + b.scrolls; }
        Output(b.state, (first.scrolls + a'.scrolls) + b.scrolls);
      }
    }
  }

  /** The chunks of a sequence joined in order: the faces of all frames, or the scrolls of all frames. */
  function Flatten<T>(chunks: seq<seq<T>>): seq<T>
    decreases |chunks|
  {
    if |chunks| == 0 then [] else chunks[0] + Flatten(chunks[1..])
  }

  /** The loop's state after a sequence of frames, and each frame's scrolls. */
  datatype Session = Session(state: State, scrolls: seq<seq<int>>)

  /** The frame loop over a sequence of frames, each holding the readings of its faces. */
  function RunFrames(cfg: Config, s: State, frames: seq<seq<Reading>>): (r: Session)
    ensures |r.scrolls| == |frames|
    ensures s.Quiescent() ==> r.state.Quiescent()
    decreases |frames|
  {
    if |frames| == 0 then
      Session(s, [])
    else
      var out := ProcessFrame(cfg, s, frames[0]);
      var rest := RunFrames(cfg, out.state, frames[1..]);
      Session(rest.state, [out.scrolls] + rest.scrolls)
  }

  /**
   * Frame boundaries do not matter to the detector: running frame by frame
   * ends in the same state and emits the same scrolls as processing all
   * their faces as one stream.
   */
  lemma {:induction false} RunFramesIsFaceStream(cfg: Config, s: State, frames: seq<seq<Reading>>)
    ensures var r := RunFrames(cfg, s, frames);
            var all := ProcessFrame(cfg, s, Flatten(frames));
            r.state == all.state && Flatten(r.scrolls) == all.scrolls
    decreases |frames|
  {
    if |frames| > 0 {
      var out := ProcessFrame(cfg, s, frames[0]);
      RunFramesIsFaceStream(cfg, out.state, frames[1..]);
      ProcessFrameAppend(cfg, s, frames[0], Flatten(frames[1..]));
    }
  }

  /**
   * Scrolls belong to the frame whose faces emit them: the list of the last
   * frame is what its faces emit from the state the earlier frames left.
   */
  lemma {:induction false} RunFramesSnoc(cfg: Config, s: State, frames: seq<seq<Reading>>, f: seq<Reading>)
    ensures var r := RunFrames(cfg, s, frames);
            var out := ProcessFrame(cfg, r.state, f);
            RunFrames(cfg, s, frames + [f]) == Session(out.state, r.scrolls + [out.scrolls])
    decreases |frames|
  {
    if |frames| == 0 {
      assert frames + [f] == [f];
    } else {
      var out := ProcessFrame(cfg, s, frames[0]);
      RunFramesSnoc(cfg, out.state, frames[1..], f);
      assert (frames + [f])[0] == frames[0];
      assert (frames + [f])[1..] == frames[1..] + [f];
    }
  }

  /** A frame in which no face was detected changes nothing and scrolls nothing. */
  lemma EmptyFrameIsIdle(cfg: Config, s: State, frames: seq<seq<Reading>>)
    ensures RunFrames(cfg, s, frames + [[]])
         == Session(RunFrames(cfg, s, frames).state, RunFrames(cfg, s, frames).scrolls + [[]])
  {
    RunFramesSnoc(cfg, s, frames, []);
  }

  /**
   * With the default settings, eye ratios 0.15, 0.15, 0.25 in three frames
   * scroll down once, on the third frame, and not before.
   */
  lemma BlinkScenario()
    ensures RunFrames(Defaults, Start,
                      [[Reading(0.15, 1.0)], [Reading(0.15, 1.0)], [Reading(0.25, 1.0)]]).scrolls
         == [[], [], [ScrollDown]]
  {
    var frames := [[Reading(0.15, 1.0)], [Reading(0.15, 1.0)], [Reading(0.25, 1.0)]];
    var s1 := ProcessFrame(Defaults, Start, frames[0]);
    assert s1.scrolls == [] && s1.state == State(Trigger(1), Initial, false, false);
    var s2 := ProcessFrame(Defaults, s1.state, frames[1]);
    assert s2.scrolls == [] && s2.state == State(Trigger(2), Initial, false, false);
    var s3 := ProcessFrame(Defaults, s2.state, frames[2]);
    assert s3.scrolls == [ScrollDown];
  }

  /**
   * With the default settings, mouth ratios 0.5 then 0.9 hold the mouth
   * below its threshold for one frame only: nothing scrolls up.
   */
  lemma MouthReleasedTooEarly()
    ensures RunFrames(Defaults, Start, [[Reading(0.3, 0.5)], [Reading(0.3, 0.9)]]).scrolls == [[], []]
  {
    var frames := [[Reading(0.3, 0.5)], [Reading(0.3, 0.9)]];
    var s1 := ProcessFrame(Defaults, Start, frames[0]);
    assert s1.scrolls == [] && s1.state == State(Initial, Trigger(1), false, false);
    var s2 := ProcessFrame(Defaults, s1.state, frames[1]);
    assert s2.scrolls == [];
  }

  /** Both gestures may complete on the same face: one down and one up scroll, in that order. */
  lemma BothGesturesInOneFrame()
    ensures ProcessFace(Defaults, State(Trigger(2), Trigger(2), false, false), Reading(0.3, 1.0)).scrolls
         == [ScrollDown, ScrollUp]
  {
  }

  /**
   * All faces of a frame drive the same triggers: three faces in one frame,
   * closed, closed and open, complete a blink within that single frame.
   */
  lemma FacesShareTriggers()
    ensures ProcessFrame(Defaults, Start,
                         [Reading(0.15, 1.0), Reading(0.15, 1.0), Reading(0.25, 1.0)]).scrolls
         == [ScrollDown]
  {
  }
}
