/** The finalisation tasks: `pendingFinalize` counts those outstanding in every settling
    order, so the receiver tears down once, after `done` and after every task. */
module TaskSafety {
  import opened Messages
  import opened ReceiverModel
  import opened Protocol
  import opened StreamSafety

  function SumOver(tasks: seq<Task>, f: Task -> nat): nat {
    if tasks == [] then 0 else SumOver(tasks[..|tasks| - 1], f) + f(tasks[|tasks| - 1])
  }

  lemma SumAppend(tasks: seq<Task>, t: Task, f: Task -> nat)
    ensures SumOver(tasks + [t], f) == SumOver(tasks, f) + f(t)
  {
    assert (tasks + [t])[..|tasks|] == tasks;
  }

  lemma {:induction false} SumUpdate(tasks: seq<Task>, i: nat, t: Task, f: Task -> nat)
    requires i < |tasks|
    ensures SumOver(tasks[i := t], f) + f(tasks[i]) == SumOver(tasks, f) + f(t)
  {
    var n := |tasks| - 1;
    if i == n {
      assert tasks[i := t][..n] == tasks[..n];
    } else {
      assert tasks[i := t][..n] == tasks[..n][i := t];
      SumUpdate(tasks[..n], i, t, f);
    }
  }

  lemma {:induction false} SumAtLeast(tasks: seq<Task>, i: nat, f: Task -> nat)
    requires i < |tasks|
    ensures f(tasks[i]) <= SumOver(tasks, f)
  {
    var n := |tasks| - 1;
    if i < n {
      SumAtLeast(tasks[..n], i, f);
    }
  }

  lemma {:induction false} SumZero(tasks: seq<Task>, f: Task -> nat)
    requires forall i :: 0 <= i < |tasks| ==> f(tasks[i]) == 0
    ensures SumOver(tasks, f) == 0
  {
    if tasks != [] {
      SumZero(tasks[..|tasks| - 1], f);
    }
  }

  lemma {:induction false} SumAtMost(tasks: seq<Task>, f: Task -> nat)
    requires forall i :: 0 <= i < |tasks| ==> f(tasks[i]) <= 1
    ensures SumOver(tasks, f) <= |tasks|
  {
    if tasks != [] {
      SumAtMost(tasks[..|tasks| - 1], f);
    }
  }

  /** 1 for a task whose promise has not run its `finally`. */
  function Open(t: Task): nat {
    if t.stage.Complete? then 0 else 1
  }

  predicate HasOutcome(t: Task, o: Outcome) {
    !t.stage.Verifying? && t.stage.outcome == o
  }

  function SavedPart(t: Task): multiset<Download> {
    if HasOutcome(t, Saved) then multiset{DownloadOf(t)} else multiset{}
  }

  /** What the saved tasks downloaded. */
  function SavedBag(tasks: seq<Task>): multiset<Download> {
    if tasks == [] then multiset{}
    else SavedBag(tasks[..|tasks| - 1]) + SavedPart(tasks[|tasks| - 1])
  }

  lemma BagAppend(tasks: seq<Task>, t: Task)
    requires t.stage.Verifying?
    ensures SavedBag(tasks + [t]) == SavedBag(tasks)
  {
    assert (tasks + [t])[..|tasks|] == tasks;
  }

  lemma {:induction false} BagUpdate(tasks: seq<Task>, i: nat, t: Task)
    requires i < |tasks|
    ensures SavedBag(tasks[i := t]) + SavedPart(tasks[i]) == SavedBag(tasks) + SavedPart(t)
  {
    var n := |tasks| - 1;
    if i == n {
      assert tasks[i := t] == tasks[..n] + [t] && tasks == tasks[..n] + [tasks[n]];
      BagSnoc(tasks[..n], t);
      BagSnoc(tasks[..n], tasks[n]);
      SwapLast(SavedBag(tasks[..n]), SavedPart(t), SavedPart(tasks[n]));
    } else {
      var front := tasks[..n];
      assert tasks[i := t] == front[i := t] + [tasks[n]] && tasks == front + [tasks[n]];
      BagSnoc(front[i := t], tasks[n]);
      BagSnoc(front, tasks[n]);
      BagUpdate(front, i, t);
      AddToBoth(SavedBag(front[i := t]), SavedPart(tasks[i]), SavedBag(front), SavedPart(t), SavedPart(tasks[n]));
    }
  }

  lemma BagSnoc(front: seq<Task>, t: Task)
    ensures SavedBag(front + [t]) == SavedBag(front) + SavedPart(t)
  {
    assert (front + [t])[..|front|] == front;
  }

  lemma SwapLast(a: multiset<Download>, b: multiset<Download>, c: multiset<Download>)
    ensures (a + b) + c == (a + c) + b
  {
  }

  lemma AddToBoth(a: multiset<Download>, b: multiset<Download>, c: multiset<Download>, d: multiset<Download>,
                  e: multiset<Download>)
    requires a + b == c + d
    ensures (a + e) + b == (c + e) + d
  {
    SwapLast(a, b, e);
    SwapLast(c, d, e);
  }

  lemma Cancel(a: multiset<Download>, b: multiset<Download>, c: multiset<Download>)
    requires a + c == b + c
    ensures a == b
  {
    assert a == (a + c) - c && b == (b + c) - c;
  }

  /** A stage change adds a download exactly when it saves the file. */
  lemma BagRetag(tasks: seq<Task>, i: nat, t: Task)
    requires i < |tasks| && t.header == tasks[i].header && t.chunks == tasks[i].chunks
    ensures && (HasOutcome(t, Saved) == HasOutcome(tasks[i], Saved) ==> SavedBag(tasks[i := t]) == SavedBag(tasks))
            && (HasOutcome(t, Saved) && !HasOutcome(tasks[i], Saved) ==>
                  SavedBag(tasks[i := t]) == SavedBag(tasks) + multiset{DownloadOf(tasks[i])})
  {
    BagUpdate(tasks, i, t);
    if HasOutcome(t, Saved) == HasOutcome(tasks[i], Saved) {
      assert SavedPart(t) == SavedPart(tasks[i]);
      Cancel(SavedBag(tasks[i := t]), SavedBag(tasks), SavedPart(t));
    } else if HasOutcome(t, Saved) {
      assert SavedPart(tasks[i]) == multiset{} && SavedPart(t) == multiset{DownloadOf(tasks[i])};
    }
  }

  ghost predicate TaskInv(r: Receiver) {
    && r.pendingFinalize == SumOver(r.tasks, Open)
    && multiset(r.downloads) == SavedBag(r.tasks)
    && r.end.closes == (if r.end.aborted then 1 else 0)
    && (r.end.aborted ==> !r.end.channelOpen)
    && r.end.finishes == (if r.read.doneReceived && r.pendingFinalize == 0 then 1 else 0)
    && (r.end.finishes == 1 ==> r.end.aborted)
  }

  lemma TaskInitial()
    ensures TaskInv(NEW_RECEIVER)
  {
  }

  lemma TaskHandOver(r: Receiver, read: Reading)
    requires TaskInv(r) && !r.read.doneReceived && !read.doneReceived && read.currentFile.Some?
    ensures TaskInv(HandOver(r, read))
  {
    TaskAdded(r, HandOver(r, read), Task(read.currentFile.value, read.currentChunks, Verifying, false));
  }

  lemma TaskAdded(r: Receiver, r': Receiver, t: Task)
    requires TaskInv(r) && !r.read.doneReceived && !r'.read.doneReceived && t.stage.Verifying?
    requires r'.tasks == r.tasks + [t] && r'.pendingFinalize == r.pendingFinalize + 1
    requires r'.end == r.end && r'.downloads == r.downloads
    ensures TaskInv(r')
  {
    SumAppend(r.tasks, t, Open);
    BagAppend(r.tasks, t);
  }

  lemma TaskVerified(r: Receiver, i: nat, outcome: Outcome, skipped: bool, sendOk: bool)
    requires TaskInv(r) && i < |r.tasks| && r.tasks[i].stage.Verifying?
    ensures TaskInv(OnVerified(r, i, outcome, skipped, sendOk).r)
  {
    var t := SettledTask(r.tasks[i], outcome, skipped);
    SumUpdate(r.tasks, i, t, Open);
    BagRetag(r.tasks, i, t);
  }

  lemma TaskThen(r: Receiver, i: nat, now: nat, sendOk: bool)
    requires TaskInv(r) && i < |r.tasks| && r.tasks[i].stage.Settled?
    ensures TaskInv(OnThen(r, i, now, sendOk).r)
  {
    var t := r.tasks[i].(stage := Acked(r.tasks[i].stage.outcome));
    SumUpdate(r.tasks, i, t, Open);
    BagRetag(r.tasks, i, t);
  }

  lemma TaskFinally(r: Receiver, i: nat)
    requires TaskInv(r) && i < |r.tasks| && r.tasks[i].stage.Acked?
    ensures TaskInv(OnFinally(r, i))
  {
    var t := r.tasks[i].(stage := Complete(r.tasks[i].stage.outcome));
    SumUpdate(r.tasks, i, t, Open);
    BagRetag(r.tasks, i, t);
    SumAtLeast(r.tasks, i, Open);
    var r' := OnFinally(r, i);
    assert r'.tasks == r.tasks[i := t];
    assert r'.downloads == r.downloads && r'.read.doneReceived == r.read.doneReceived;
  }

  lemma TaskMessage(r: Receiver, m: Message, now: nat, sendOk: bool)
    requires TaskInv(r) && (!r.end.aborted ==> !r.read.doneReceived)
    ensures TaskInv(OnMessage(r, m, now, sendOk).r)
  {
    if m.Chunk? && !r.end.aborted && r.read.currentFile.Some? {
      TaskChunk(r, m.bytes, now, sendOk);
    } else if m.Done? && !r.end.aborted {
      TaskDone(r, now, sendOk);
    } else {
      TaskIrrelevant(r, OnMessage(r, m, now, sendOk).r);
    }
  }

  /** Progress within a file and the ack clock do not matter here. */
  lemma TaskIrrelevant(r: Receiver, r': Receiver)
    requires TaskInv(r) && r'.tasks == r.tasks && r'.pendingFinalize == r.pendingFinalize
    requires r'.end == r.end && r'.downloads == r.downloads && r'.read.doneReceived == r.read.doneReceived
    ensures TaskInv(r')
  {
  }

  lemma TaskChunk(r: Receiver, bytes: seq<byte>, now: nat, sendOk: bool)
    requires TaskInv(r) && !r.read.doneReceived && !r.end.aborted && r.read.currentFile.Some?
    ensures TaskInv(OnMessage(r, Chunk(bytes), now, sendOk).r)
  {
    var read := AddChunk(r.read, bytes);
    if read.currentReceived >= read.currentFile.value.size {
      TaskHandOver(r, read);
    } else {
      TaskIrrelevant(r, OnMessage(r, Chunk(bytes), now, sendOk).r);
    }
  }

  lemma TaskDone(r: Receiver, now: nat, sendOk: bool)
    requires TaskInv(r) && !r.read.doneReceived && !r.end.aborted
    ensures TaskInv(OnMessage(r, Done, now, sendOk).r)
  {
    var r' := OnMessage(r, Done, now, sendOk).r;
    assert r'.tasks == r.tasks && r'.pendingFinalize == r.pendingFinalize && r'.downloads == r.downloads;
  }

  lemma TaskStep(w: World, st: Step)
    requires StreamInv(w) && TaskInv(w.r) && Enabled(w, st)
    ensures TaskInv(Apply(w, st).r)
  {
    if st.DeliverForward? {
      assert ReceiverTail(w.b, w.r) != [];
      TaskMessage(w.r, w.fwd[0], st.now, st.sendOk);
    } else if Receiving(st) {
      TaskReceiving(w, st);
    } else {
      SenderLeavesReceiver(w, st);
    }
  }

  lemma TaskReceiving(w: World, st: Step)
    requires w.b.Valid() && TaskInv(w.r) && Enabled(w, st) && Receiving(st)
    ensures TaskInv(Apply(w, st).r)
  {
    match st {
      case Verified(i, outcome, skipped, sendOk) => TaskVerified(w.r, i, outcome, skipped, sendOk);
      case Then(i, now, sendOk) => TaskThen(w.r, i, now, sendOk);
      case Finally(i) => TaskFinally(w.r, i);
      case _ => TaskClosed(w.r);
    }
  }

  lemma TaskClosed(r: Receiver)
    requires TaskInv(r)
    ensures TaskInv(CloseReceiver(r)) && TaskInv(r.(end := r.end.(channelOpen := false)))
  {
  }

  lemma SenderLeavesReceiver(w: World, st: Step)
    requires w.b.Valid() && Enabled(w, st)
    requires !st.DeliverForward? && !Receiving(st)
    ensures Apply(w, st).r == w.r
  {
  }

  /** With every task closed and saved, the downloads are the batch. */
  lemma {:induction false} AllSaved(b: Batch, tasks: seq<Task>)
    requires b.Valid() && |tasks| <= |b.files|
    requires forall i :: 0 <= i < |tasks| ==> TaskFor(b, tasks[i], i) && HasOutcome(tasks[i], Saved)
    ensures SavedBag(tasks) == multiset(Downloads(b.files[..|tasks|]))
  {
    if tasks != [] {
      var n := |tasks| - 1;
      AllSaved(b, tasks[..n]);
      assert TaskFor(b, tasks[n], n) && HasOutcome(tasks[n], Saved);
      DownloadsSnoc(b.files, n);
      assert Downloads([b.files[n]]) == [DownloadOf(tasks[n])];
      assert SavedPart(tasks[n]) == multiset([DownloadOf(tasks[n])]);
    }
  }

  lemma DownloadsSnoc(files: seq<File>, n: nat)
    requires n < |files|
    ensures Downloads(files[..n + 1]) == Downloads(files[..n]) + Downloads([files[n]])
  {
  }

  /** The files as the browser saves them. */
  function Downloads(files: seq<File>): seq<Download> {
    seq(|files|, i requires 0 <= i < |files| =>
      Download(if files[i].name == "" then "received_file" else files[i].name, files[i].content))
  }
}
