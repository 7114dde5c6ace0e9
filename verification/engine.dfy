/** Stand-ins for the few game-engine facilities the game's systems use:
    the one-shot timer, the pending state change (`NextState`), an entity's
    visibility, and the total of a run of frame times. They follow the
    engine's documented behaviour; the engine itself is not part of this
    model. */
module Engine {

  /** A pending state change: untouched this frame, or set to `state`. */
  datatype NextState<S> = Unchanged | Pending(state: S)

  /** An entity's visibility. `Inherited` shows it when its parent shows. */
  datatype Visibility = Inherited | Hidden | Visible

  /** The total of a run of frame times. */
  function Sum(dts: seq<real>): real
    decreases |dts|
  {
    if |dts| == 0 then 0.0 else dts[0] + Sum(dts[1..])
  }

  /** A sum of non-negative frame times is non-negative. */
  lemma {:induction false} SumNonNegative(dts: seq<real>)
    requires forall i :: 0 <= i < |dts| ==> dts[i] >= 0.0
    ensures Sum(dts) >= 0.0
    decreases |dts|
  {
    if |dts| > 0 {
      assert forall i :: 0 <= i < |dts[1..]| ==> dts[1..][i] == dts[i + 1];
      SumNonNegative(dts[1..]);
    }
  }

  /** The one-shot countdown timer (`TimerMode::Once`): elapsed time, a
      duration, a pause flag, a "finished" flag, and whether the latest
      tick is the one that finished it. */

  datatype Timer = Timer(elapsed: real, duration: real, paused: bool, finished: bool, justFinished: bool)

  /** A timer of `duration` seconds that has not started counting. */
  function FromSeconds(duration: real): (t: Timer)
    ensures t.elapsed == 0.0 && t.duration == duration
    ensures !t.paused && !t.finished && !t.justFinished
  {
    Timer(0.0, duration, false, false, false)
  }

  function Pause(t: Timer): Timer {
    t.(paused := true)
  }

  function Unpause(t: Timer): Timer {
    t.(paused := false)
  }

  /** Back to zero elapsed time and not finished; the pause flag is kept. */
  function Reset(t: Timer): Timer {
    t.(elapsed := 0.0, finished := false, justFinished := false)
  }

  /** Advance by `dt`. A paused or already finished timer does not count;
      otherwise reaching the duration finishes it, pins the elapsed time at
      the duration, and marks this tick as the finishing one. */
  function Tick(t: Timer, dt: real): (r: Timer)
    requires dt >= 0.0
    ensures r.duration == t.duration && r.paused == t.paused
    ensures (t.paused || t.finished) ==> r == t.(justFinished := false)
    ensures r.justFinished <==> !t.paused && !t.finished && t.elapsed + dt >= t.duration
    ensures !t.paused && !t.finished && t.elapsed + dt < t.duration ==>
              r == t.(elapsed := t.elapsed + dt, justFinished := false)
  {
    if t.paused || t.finished then t.(justFinished := false)
    else
      var e := t.elapsed + dt;
      if e >= t.duration then t.(elapsed := t.duration, finished := true, justFinished := true)
      else t.(elapsed := e, finished := false, justFinished := false)
  }
}
