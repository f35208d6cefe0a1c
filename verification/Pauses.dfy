/** Pauses over whole runs: each ends by one low-water event, where it began, and can end. */
module Pauses {
  import opened Messages
  import opened SenderModel
  import opened Protocol
  import opened StreamSafety
  import opened FlowSafety
  import opened Safety

  function Once(p: bool): nat {
    if p then 1 else 0
  }

  /** How often the run enters a pause. */
  ghost function Entered(w: World, steps: seq<Step>): nat
    requires w.b.Valid() && Runs(w, steps)
    decreases |steps|
  {
    if steps == [] then 0
    else
      var w' := Apply(w, steps[0]);
      Once(!Waiting(w.s) && Waiting(w'.s)) + Entered(w', steps[1..])
  }

  /** How often a low-water event reaches a paused sender. */
  ghost function Woken(w: World, steps: seq<Step>): nat
    requires w.b.Valid() && Runs(w, steps)
    decreases |steps|
  {
    if steps == [] then 0
    else Once(steps[0].LowEvent? && Waiting(w.s)) + Woken(Apply(w, steps[0]), steps[1..])
  }

  /** Over any run, every pause entered has been ended by exactly one low-water event, but for
      the one the sender may still be in. */
  lemma {:induction false} EachPauseEndsOnce(w: World, steps: seq<Step>)
    requires Safe(w) && Runs(w, steps)
    ensures Entered(w, steps) + Once(Waiting(w.s)) == Woken(w, steps) + Once(Waiting(After(w, steps).s))
    decreases |steps|
  {
    if steps != [] {
      var st, rest := steps[0], steps[1..];
      SafeStep(w, st);
      if Waiting(w.s) {
        PauseStep(w, st);
      }
      EachPauseEndsOnce(Apply(w, st), rest);
      UnfoldCounts(w, steps);
    }
  }

  lemma UnfoldCounts(w: World, steps: seq<Step>)
    requires w.b.Valid() && Runs(w, steps) && steps != []
    ensures var w' := Apply(w, steps[0]);
            && Entered(w, steps) == Once(!Waiting(w.s) && Waiting(w'.s)) + Entered(w', steps[1..])
            && Woken(w, steps) == Once(steps[0].LowEvent? && Waiting(w.s)) + Woken(w', steps[1..])
            && After(w, steps) == After(w', steps[1..])
  {
  }

  lemma PauseStep(w: World, st: Step)
    requires StreamInv(w) && FlowInv(w.b, w.s) && Enabled(w, st) && Waiting(w.s)
    ensures Waiting(Apply(w, st).s) <==> !st.LowEvent?
  {
    PauseEndsByLowEvent(w, st);
    if st.LowEvent? {
      WakeEndsPause(w.s);
    }
  }

  lemma WakeEndsPause(s: Sender)
    requires s.flow.lowPending > 0 && s.flow.lowHandler
    ensures !Waiting(OnLow(s))
  {
  }

  /** However long the pause, the sender stays at the same slice with its handler attached. */
  lemma {:induction false} PauseKeepsPlace(w: World, steps: seq<Step>)
    requires Safe(w) && Waiting(w.s) && Runs(w, steps) && forall st :: st in steps ==> !st.LowEvent?
    ensures var s' := After(w, steps).s;
            && s'.pos.chain == w.s.pos.chain && s'.flow.lowHandler
            && (s'.flow.buffered > LOW_WATERMARK || s'.flow.lowPending > 0)
    decreases |steps|
  {
    if steps != [] {
      assert steps[0] in steps;
      PauseEndsByLowEvent(w, steps[0]);
      SafeStep(w, steps[0]);
      PauseKeepsPlace(Apply(w, steps[0]), steps[1..]);
    }
  }

  /** On an open channel every pause can end, at the slice it began at. */
  lemma PauseCanEnd(w: World) returns (steps: seq<Step>)
    requires Safe(w) && Waiting(w.s) && w.s.link.channelOpen && !w.s.link.aborted
    ensures Runs(w, steps) && |steps| <= 2
    ensures After(w, steps).s.pos.chain == Some(w.s.pos.chain.value.(waiting := false))
  {
    if w.s.flow.lowPending > 0 {
      PauseEndsByLowEvent(w, LowEvent);
      Prepend(w, LowEvent, []);
      steps := [LowEvent] + [];
    } else {
      var drain := Drain(w.s.flow.buffered);
      var w' := Apply(w, drain);
      DrainedPauseWakes(w.b, w.s, w.s.flow.buffered);
      Prepend(w', LowEvent, []);
      Prepend(w, drain, [LowEvent] + []);
      steps := [drain] + ([LowEvent] + []);
    }
  }
}
