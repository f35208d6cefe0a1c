/** How often the receiver acknowledges, and how the sender's progress bar moves. */
module AckRate {
  import opened Messages
  import opened SenderModel
  import opened ReceiverModel
  import opened Protocol
  import opened StreamSafety
  import opened TaskSafety
  import opened AckSafety

  /** 1 for a task whose forced ack has been attempted. */
  function ForcedAck(t: Task): nat {
    if (t.stage.Acked? || t.stage.Complete?) && t.stage.outcome == Saved then 1 else 0
  }

  ghost predicate ClockInv(w: World) {
    var a := w.r.acks;
    && w.began <= w.clock
    && a.lastSent <= w.clock
    && (a.throttled > 0 ==> w.began + ACK_INTERVAL * (a.throttled - 1) <= a.lastSent)
    && a.forced == SumOver(w.r.tasks, ForcedAck)
  }

  lemma ClockDeliver(w: World, st: Step)
    requires w.b.Valid() && ClockInv(w) && st.DeliverForward? && Enabled(w, st)
    ensures ClockInv(Apply(w, st))
  {
    var w' := Apply(w, st);
    MessageClock(w.r, w.fwd[0], st.now, st.sendOk);
    ForcedUnchanged(w.r.tasks, w'.r.tasks);
    assert w'.clock == st.now && w'.began == w.began;
  }

  lemma ForcedUnchanged(tasks: seq<Task>, tasks': seq<Task>)
    requires tasks' == tasks ||
             (|tasks'| == |tasks| + 1 && tasks' == tasks + [tasks'[|tasks|]] && tasks'[|tasks|].stage.Verifying?)
    ensures SumOver(tasks', ForcedAck) == SumOver(tasks, ForcedAck)
  {
    if tasks' != tasks {
      SumAppend(tasks, tasks'[|tasks|], ForcedAck);
    }
  }

  lemma MessageClock(r: Receiver, m: Message, now: nat, sendOk: bool)
    ensures var r' := OnMessage(r, m, now, sendOk).r;
            && (r'.tasks == r.tasks ||
                (|r'.tasks| == |r.tasks| + 1 && r'.tasks == r.tasks + [r'.tasks[|r.tasks|]] &&
                 r'.tasks[|r.tasks|].stage.Verifying?))
            && (r'.acks == r.acks ||
                (now - r.acks.lastSent >= ACK_INTERVAL &&
                 r'.acks == AckClock(now, r.acks.throttled + 1, r.acks.forced)))
  {
  }

  lemma ClockStep(w: World, st: Step)
    requires w.b.Valid() && ClockInv(w) && Enabled(w, st)
    ensures ClockInv(Apply(w, st))
  {
    if st.DeliverForward? {
      ClockDeliver(w, st);
    } else if Receiving(st) {
      ClockReceiving(w, st);
    } else {
      SenderLeavesReceiver(w, st);
      SenderLeavesClock(w, st);
    }
  }

  lemma ClockReceiving(w: World, st: Step)
    requires w.b.Valid() && ClockInv(w) && Enabled(w, st) && Receiving(st)
    ensures ClockInv(Apply(w, st))
  {
    match st {
      case Verified(i, outcome, skipped, sendOk) =>
        ClockRetag(w, i, SettledTask(w.r.tasks[i], outcome, skipped), Apply(w, st));
      case Then(i, _, _) =>
        ClockThen(w, st);
      case Finally(i) =>
        ClockRetag(w, i, w.r.tasks[i].(stage := Complete(w.r.tasks[i].stage.outcome)), Apply(w, st));
      case _ =>
    }
  }

  /** A stage change that acknowledges nothing. */
  lemma ClockRetag(w: World, i: nat, t: Task, w': World)
    requires w.b.Valid() && ClockInv(w) && i < |w.r.tasks|
    requires w'.r.tasks == w.r.tasks[i := t] && ForcedAck(t) == ForcedAck(w.r.tasks[i])
    requires w'.r.acks == w.r.acks && w'.clock == w.clock && w'.began == w.began
    ensures ClockInv(w')
  {
    SumUpdate(w.r.tasks, i, t, ForcedAck);
  }

  lemma ClockThen(w: World, st: Step)
    requires w.b.Valid() && ClockInv(w) && st.Then? && Enabled(w, st)
    ensures ClockInv(Apply(w, st))
  {
    var i := st.task;
    SumUpdate(w.r.tasks, i, w.r.tasks[i].(stage := Acked(w.r.tasks[i].stage.outcome)), ForcedAck);
  }

  lemma SenderLeavesClock(w: World, st: Step)
    requires w.b.Valid() && Enabled(w, st) && !st.DeliverForward? && !Receiving(st)
    ensures Apply(w, st).clock == w.clock && Apply(w, st).began == w.began
  {
  }

  /** At most one ack per file, plus one per interval of the elapsed time, plus one. */
  lemma AcksAreRare(w: World)
    requires StreamInv(w) && ClockInv(w)
    ensures w.r.acks.throttled + w.r.acks.forced
            <= |w.b.files| + (w.clock - w.began) / ACK_INTERVAL + 1
  {
    SumAtMost(w.r.tasks, ForcedAck);
    var n := w.r.acks.throttled;
    if n > 0 {
      var elapsed := w.clock - w.began;
      assert ACK_INTERVAL * (n - 1) <= elapsed;
    }
  }

  // ----- The progress bar ----------------------------------------------------

  lemma RoundingIsMonotone(a: nat, b: nat, den: nat)
    requires den > 0 && a <= b
    ensures RoundQuotient(a, den) <= RoundQuotient(b, den)
  {
    QuotientMonotone(2 * a + den, 2 * b + den, 2 * den);
  }

  lemma QuotientMonotone(x: nat, y: nat, d: nat)
    requires d > 0 && x <= y
    ensures x / d <= y / d
  {
    var p, q := x / d, y / d;
    assert x == p * d + x % d && y == q * d + y % d;
    assert (q + 1) * d == q * d + d;
    ProductOrder(q + 1, p, d);
  }

  lemma {:induction false} ProductOrder(x: int, y: int, d: nat)
    requires d > 0
    ensures x * d <= y * d <==> x <= y
  {
    if d > 1 {
      ProductOrder(x, y, d - 1);
      assert x * d == x * (d - 1) + x && y * d == y * (d - 1) + y;
    }
  }

  /** `Math.round`: the nearest integer, halves going up. */
  lemma RoundQuotientNearest(num: nat, den: nat)
    requires den > 0
    ensures var r := RoundQuotient(num, den);
            (2 * r - 1) * den <= 2 * num < (2 * r + 1) * den
  {
    var r := RoundQuotient(num, den);
    var x := 2 * num + den;
    assert x == (2 * den) * r + x % (2 * den);
    assert (2 * den) * r == 2 * r * den;
    assert (2 * r - 1) * den == 2 * r * den - den;
    assert (2 * r + 1) * den == 2 * r * den + den;
  }

  /** p is the integer nearest to num / den, the upper one of two. */
  ghost predicate Nearest(p: int, num: int, den: int) {
    (2 * p - 1) * den <= 2 * num < (2 * p + 1) * den
  }

  /** What `computePercent` means, its fallbacks included. */
  lemma PercentIsNearest(done: nat, total: nat, fallbackDone: nat, fallbackExpected: nat)
    ensures var p := ComputePercent(done, total, fallbackDone, fallbackExpected);
            if total > 0 then Nearest(p, 100 * done, total)
            else if fallbackExpected > 0 then Nearest(p, 100 * fallbackDone, fallbackExpected)
            else p == 100
  {
    if total > 0 {
      RoundQuotientNearest(100 * done, total);
    } else if fallbackExpected > 0 {
      RoundQuotientNearest(100 * fallbackDone, fallbackExpected);
    }
  }

  /** The acks short of the total. */
  function ShortAcks(acks: seq<nat>, total: nat): seq<nat> {
    if acks == [] then []
    else ShortAcks(acks[..|acks| - 1], total) + (if acks[|acks| - 1] < total then [acks[|acks| - 1]] else [])
  }

  /** The percentages shown are those of the acks short of the total, one by one. */
  lemma {:induction false} PercentsAreNearest(acks: seq<nat>, total: nat)
    ensures var percents, short := PercentsOf(acks, total), ShortAcks(acks, total);
            && |percents| == |short|
            && forall i :: 0 <= i < |short| ==> Nearest(percents[i], 100 * short[i], total)
  {
    if acks != [] {
      PercentsAreNearest(acks[..|acks| - 1], total);
      PercentIsNearest(acks[|acks| - 1], total, 0, 0);
    }
  }

  lemma PercentRange(v: nat, total: nat)
    requires v <= total && total > 0
    ensures 0 <= ComputePercent(v, total, 0, 0) <= 100
  {
    RoundingIsMonotone(100 * v, 100 * total, total);
    RoundQuotientNearest(100 * total, total);
    var r := RoundQuotient(100 * total, total);
    ProductOrder(2 * r - 1, 200, total);
  }

  /** Values going up give percentages within 0..100 going up. */
  lemma {:induction false} PercentsGoUp(acks: seq<nat>, total: nat)
    requires Sorted(acks)
    ensures Sorted(PercentsOf(acks, total))
    ensures forall p :: p in PercentsOf(acks, total) ==>
              0 <= p <= 100 && exists v :: v in acks && v < total && p == ComputePercent(v, total, 0, 0)
  {
    if acks != [] {
      var n := |acks| - 1;
      var v := acks[n];
      var front := PercentsOf(acks[..n], total);
      PercentsGoUp(acks[..n], total);
      if v < total {
        PercentRange(v, total);
        forall p | p in front ensures p <= ComputePercent(v, total, 0, 0) {
          var u :| u in acks[..n] && u < total && p == ComputePercent(u, total, 0, 0);
          RoundingIsMonotone(100 * u, 100 * v, total);
        }
        SortedSnoc(front, ComputePercent(v, total, 0, 0));
        assert v in acks;
      }
    }
  }
}
