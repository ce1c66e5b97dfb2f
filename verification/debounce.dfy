/**
 * The debounced trigger behind both gestures.
 *
 * Each frame reports whether the gesture's ratio is below its threshold
 * (eye closed, mouth closed). Frames below the threshold are counted; the
 * first frame at or above the threshold releases the gesture, and the
 * release produces one pulse when at least `minFrames` frames were counted
 * before it. The counter is reset on every release, pulse or not.
 *
 * `minFrames` is an arbitrary integer, as the command line accepts one:
 * with `minFrames <= 0` every release frame pulses.
 */
module Debounce {

  /** Trigger state: the number of consecutive below-threshold frames seen so far. */
  datatype Trigger = Trigger(counter: nat) {
    /** No gesture in progress. */
    predicate Idle() { counter == 0 }
  }

  /** The state of a freshly started detector. */
  const Initial := Trigger(0)

  /** The state after one frame, and whether that frame completed a gesture. */
  datatype StepResult = StepResult(next: Trigger, pulse: bool)

  /** One frame of the debounce: `below` says whether the ratio was under the threshold. */
  function Step(t: Trigger, below: bool, minFrames: int): (r: StepResult)
    ensures below ==> r.next.counter == t.counter + 1 && !r.pulse
    ensures !below ==> r.next.Idle()
    ensures r.pulse <==> !below && t.counter >= minFrames
  {
    if below then
      StepResult(Trigger(t.counter + 1), false)
    else
      StepResult(Initial, t.counter >= minFrames)
  }

  /** The outcome of feeding a whole trace of frames to a trigger. */
  datatype Trace = Trace(final: Trigger, pulses: seq<bool>)

  /** Feeds `frames` to the trigger in order; `pulses[i]` says whether frame `i` pulsed. */
  function Run(t: Trigger, frames: seq<bool>, minFrames: int): (r: Trace)
    ensures |r.pulses| == |frames|
    decreases |frames|
  {
    if |frames| == 0 then
      Trace(t, [])
    else
      var s := Step(t, frames[0], minFrames);
      var rest := Run(s.next, frames[1..], minFrames);
      Trace(rest.final, [s.pulse] + rest.pulses)
  }

  /** Every frame of the trace is below the threshold. */
  predicate AllBelow(frames: seq<bool>) {
    forall i :: 0 <= i < |frames| ==> frames[i]
  }

  /** The `k` frames just before position `end` are all below the threshold. */
  predicate BelowBefore(frames: seq<bool>, end: int, k: int)
    requires 0 <= k <= end <= |frames|
  {
    forall j :: end - k <= j < end ==> frames[j]
  }

  /**
   * Reference description of a pulse, independent of the counter: frame `i`
   * releases the gesture and the `minFrames` frames right before it were all
   * below the threshold.
   */
  predicate DebouncedRelease(frames: seq<bool>, i: int, minFrames: int)
    requires 0 <= i < |frames|
  {
    !frames[i] && (minFrames <= 0 || (minFrames <= i && BelowBefore(frames, i, minFrames)))
  }

  /** The number of pulses in a trace. */
  function CountPulses(pulses: seq<bool>): (n: nat)
    ensures n <= |pulses|
  {
    if |pulses| == 0 then 0
    else (if pulses[0] then 1 else 0) + CountPulses(pulses[1..])
  }

  /** Appending one frame runs one more step from where the trace ended. */
  lemma {:induction false} RunSnoc(t: Trigger, frames: seq<bool>, f: bool, minFrames: int)
    ensures Run(t, frames + [f], minFrames)
         == Trace(Step(Run(t, frames, minFrames).final, f, minFrames).next,
                  Run(t, frames, minFrames).pulses + [Step(Run(t, frames, minFrames).final, f, minFrames).pulse])
    decreases |frames|
  {
    if |frames| == 0 {
      assert frames + [f] == [f];
    } else {
      var s := Step(t, frames[0], minFrames);
      assert (frames + [f])[0] == frames[0];
      assert (frames + [f])[1..] == frames[1..] + [f];
      RunSnoc(s.next, frames[1..], f, minFrames);
    }
  }

  /** The pulse of frame `i` is decided by the step from the state the first `i` frames reached. */
  lemma {:induction false} RunPulseAt(t: Trigger, frames: seq<bool>, minFrames: int, i: int)
    requires 0 <= i < |frames|
    ensures Run(t, frames, minFrames).pulses[i]
         == Step(Run(t, frames[..i], minFrames).final, frames[i], minFrames).pulse
    decreases |frames|
  {
    if i > 0 {
      var s := Step(t, frames[0], minFrames);
      RunPulseAt(s.next, frames[1..], minFrames, i - 1);
      assert frames[..i][0] == frames[0];
      assert frames[..i][1..] == frames[1..][..i - 1];
    }
  }

  /**
   * The counter after a trace: the starting counter plus the trace length when
   * every frame was below the threshold; otherwise the length of the trailing
   * run of below-threshold frames, which starts right after the last release.
   */
  lemma {:induction false} RunCounter(t: Trigger, frames: seq<bool>, minFrames: int)
    ensures AllBelow(frames) ==> Run(t, frames, minFrames).final.counter == t.counter + |frames|
    ensures !AllBelow(frames) ==>
              var c := Run(t, frames, minFrames).final.counter;
              c < |frames| && !frames[|frames| - 1 - c] && BelowBefore(frames, |frames|, c)
    decreases |frames|
  {
    if |frames| > 0 {
      var n := |frames| - 1;
      var init := frames[..n];
      assert frames == init + [frames[n]];
      RunSnoc(t, init, frames[n], minFrames);
      RunCounter(t, init, minFrames);
      var c := Run(t, frames, minFrames).final.counter;
      if frames[n] {
        assert c == Run(t, init, minFrames).final.counter + 1;
        if AllBelow(frames) {
          assert AllBelow(init) by {
            forall j | 0 <= j < |init| ensures init[j] {
              assert init[j] == frames[j];
            }
          }
        } else {
          assert !AllBelow(init);
        }
      } else {
        assert c == 0;
      }
    }
  }

  /**
   * The characterisation of pulses from a fresh trigger: frame `i` pulses
   * exactly when it releases a gesture held for `minFrames` frames before it.
   */
  lemma PulseIffDebouncedRelease(frames: seq<bool>, minFrames: int, i: int)
    requires 0 <= i < |frames|
    ensures Run(Initial, frames, minFrames).pulses[i] <==> DebouncedRelease(frames, i, minFrames)
  {
    RunPulseAt(Initial, frames, minFrames, i);
    var prefix := frames[..i];
    RunCounter(Initial, prefix, minFrames);
    var c := Run(Initial, prefix, minFrames).final.counter;
    if !frames[i] && minFrames > 0 {
      if AllBelow(prefix) {
        assert c == i;
        if minFrames <= i {
          assert BelowBefore(frames, i, minFrames) by {
            forall j | i - minFrames <= j < i ensures frames[j] {
              assert frames[j] == prefix[j];
            }
          }
        }
      } else {
        assert c < i && !prefix[i - 1 - c];
        if c >= minFrames {
          assert BelowBefore(frames, i, minFrames) by {
            forall j | i - minFrames <= j < i ensures frames[j] {
              assert frames[j] == prefix[j];
            }
          }
        } else {
          assert frames[i - 1 - c] == prefix[i - 1 - c];
        }
      }
    }
  }

  /** A gesture held below the threshold never pulses, and the counter keeps growing. */
  lemma {:induction false} HeldGestureNeverPulses(t: Trigger, frames: seq<bool>, minFrames: int)
    requires AllBelow(frames)
    ensures Run(t, frames, minFrames).final.counter == t.counter + |frames|
    ensures CountPulses(Run(t, frames, minFrames).pulses) == 0
    decreases |frames|
  {
    if |frames| > 0 {
      var s := Step(t, frames[0], minFrames);
      assert AllBelow(frames[1..]) by {
        forall j | 0 <= j < |frames| - 1 ensures frames[1..][j] {
          assert frames[1..][j] == frames[j + 1];
        }
      }
      HeldGestureNeverPulses(s.next, frames[1..], minFrames);
    }
  }

  /**
   * Two pulses of one trigger, from any starting state, are separated by more
   * than `minFrames` frames: the second one counts only frames after the first.
   */
  lemma PulsesAreSpaced(t: Trigger, frames: seq<bool>, minFrames: int, i: int, j: int)
    requires 0 <= i < j < |frames|
    requires Run(t, frames, minFrames).pulses[i] && Run(t, frames, minFrames).pulses[j]
    ensures j - i > minFrames
  {
    RunPulseAt(t, frames, minFrames, i);
    RunPulseAt(t, frames, minFrames, j);
    var prefix := frames[..j];
    RunCounter(t, prefix, minFrames);
    var c := Run(t, prefix, minFrames).final.counter;
    assert prefix[i] == frames[i] && !frames[i];
    assert !AllBelow(prefix);
    assert BelowBefore(prefix, j, c);
    assert j - i > c;
  }

  /**
   * Each pulse consumes at least `minFrames + 1` frames: `minFrames` held
   * frames and the release frame.
   */
  lemma {:induction false} PulseBudget(t: Trigger, frames: seq<bool>, minFrames: int)
    ensures var r := Run(t, frames, minFrames);
            CountPulses(r.pulses) * (minFrames + 1) + r.final.counter <= |frames| + t.counter
    decreases |frames|
  {
    if |frames| > 0 {
      var s := Step(t, frames[0], minFrames);
      var rest := Run(s.next, frames[1..], minFrames);
      PulseBudget(s.next, frames[1..], minFrames);
      var r := Run(t, frames, minFrames);
      assert r.pulses[1..] == rest.pulses;
      var d := minFrames + 1;
      var n := CountPulses(rest.pulses);
      assert CountPulses(r.pulses) == n + (if s.pulse then 1 else 0);
      MulSuccessor(n, d);
    }
  }

  lemma MulSuccessor(n: int, d: int)
    ensures (n + 1) * d == n * d + d
  {
  }

  /** From a fresh trigger, `n` pulses take at least `n * (minFrames + 1)` frames. */
  lemma PulseCountBound(frames: seq<bool>, minFrames: int)
    ensures CountPulses(Run(Initial, frames, minFrames).pulses) * (minFrames + 1) <= |frames|
  {
    PulseBudget(Initial, frames, minFrames);
  }

  /** With two held frames required, a close-close-open trace pulses once, on the third frame. */
  lemma ClosedTwiceThenOpened()
    ensures Run(Initial, [true, true, false], 2).pulses == [false, false, true]
  {
  }

  /** With two held frames required, a close-open trace is released too early to pulse. */
  lemma ClosedOnceThenOpened()
    ensures Run(Initial, [true, false], 2).pulses == [false, false]
  {
  }
}
