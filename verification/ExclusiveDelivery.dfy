/** When no message copy is ever held by two workers at once, an unfinished job
    always keeps an undeleted message: through crashes, failed deletes,
    duplicate copies and redrives. */
module ExclusiveDelivery {
  import opened Domain
  import opened Protocol
  import opened Invariant
  import opened Guarantees

  ghost predicate Exclusive(s: State) {
    forall v, w :: v in s.tasks && w in s.tasks && v != w ==> s.tasks[v].copy != s.tasks[w].copy
  }

  /** A run all of whose states are exclusive. */
  ghost predicate ExclusivePath(c: Config, s: State, es: seq<Event>, t: State)
    decreases |es|
  {
    && Exclusive(s)
    && if es == [] then s == t else Enabled(c, s, es[0]) && ExclusivePath(c, Apply(c, s, es[0]), es[1..], t)
  }

  ghost predicate Open(s: State, j: JobId) {
    j in s.sent && j in s.items && s.items[j].status in {PENDING, PROCESSING}
  }

  /** A copy of `j` that no worker is about to delete. */
  ghost predicate LiveCopy(s: State, k: CopyId, j: JobId) {
    CopyOf(s, k, j) && forall w :: w in s.tasks && s.tasks[w].copy == k ==> s.tasks[w].at != AtDelete
  }

  ghost predicate AllLive(s: State) {
    forall j :: Open(s, j) ==> exists k :: LiveCopy(s, k, j)
  }

  /** Until a worker turns to deleting, the copy it holds is still there. */
  ghost predicate AllHeld(s: State) {
    forall w :: Holds(s, w) && s.tasks[w].at != AtDelete ==> CopyOf(s, s.tasks[w].copy, s.tasks[w].body.msg.jobId)
  }

  /** A copy carries one job. */
  lemma OneJobPerCopy(c: Config, s: State, k: CopyId, i: JobId, j: JobId)
    requires CopiesOk(c, s) && CopyOf(s, k, i) && CopyOf(s, k, j)
    ensures i == j
  {
  }

  lemma LiveKept(s: State, t: State)
    requires AllLive(s)
    requires forall j :: Open(t, j) ==> Open(s, j) || exists k :: LiveCopy(t, k, j)
    requires forall k, j :: LiveCopy(s, k, j) && Open(s, j) && Open(t, j) ==> LiveCopy(t, k, j)
    ensures AllLive(t)
  {
    forall j | Open(t, j) ensures exists k :: LiveCopy(t, k, j) {
      if Open(s, j) {
        var k :| LiveCopy(s, k, j);
        assert LiveCopy(t, k, j);
      }
    }
  }

  /** A new copy is nobody's yet. */
  lemma NobodyHolds(c: Config, s: State, k: CopyId)
    requires TasksOk(c, s) && k !in s.issued
    ensures forall w :: w in s.tasks ==> s.tasks[w].copy != k
  {
    assert forall w :: w in s.tasks ==> TaskOk(c, s, s.tasks[w]);
  }

  lemma SentIsLive(c: Config, s: State, p: Pid, copies: set<CopyId>)
    requires TasksOk(c, s) && p in s.calls && copies != {} && copies !! s.issued
    ensures exists k :: LiveCopy(Sending(c, s, p, copies), k, s.calls[p].up.jobId)
  {
    var t := Sending(c, s, p, copies);
    var k :| k in copies;
    NobodyHolds(c, s, k);
    assert LiveCopy(t, k, s.calls[p].up.jobId);
  }

  lemma SendKeepsCopies(c: Config, s: State, p: Pid, copies: set<CopyId>)
    requires CopiesOk(c, s) && p in s.calls && copies !! s.issued
    ensures forall k, j :: CopyOf(s, k, j) ==> CopyOf(Sending(c, s, p, copies), k, j)
  {
  }

  lemma SendKeepsLive(c: Config, s: State, p: Pid, copies: set<CopyId>)
    requires TasksOk(c, s) && CopiesOk(c, s) && AllLive(s) && AllHeld(s)
    requires p in s.calls && copies != {} && copies !! s.issued
    ensures AllLive(Sending(c, s, p, copies)) && AllHeld(Sending(c, s, p, copies))
  {
    SentIsLive(c, s, p, copies);
    SendKeepsCopies(c, s, p, copies);
    LiveKept(s, Sending(c, s, p, copies));
  }

  lemma ApiLeavesQueue(c: Config, s: State, e: Event)
    requires ApiEnabled(c, s, e) && !e.Send?
    ensures var t := ApiApply(c, s, e); t.queue == s.queue && t.dlq == s.dlq && t.tasks == s.tasks && t.sent == s.sent
  {
  }

  lemma ApiOpensNothing(c: Config, s: State, t: State, e: Event)
    requires CallsOk(c, s) && ApiEnabled(c, s, e) && t == ApiApply(c, s, e) && t.sent == s.sent
    requires forall j :: j in s.sent ==> j in s.items
    ensures forall j :: Open(t, j) ==> Open(s, j)
  {
    forall j | Open(t, j) ensures Open(s, j) { ApiSparesSent(c, s, e, j); }
  }

  /** The records of enqueued jobs and the queue stay as they are. */
  lemma Untouched(s: State, t: State)
    requires AllLive(s) && AllHeld(s)
    requires t.queue == s.queue && t.dlq == s.dlq && t.tasks == s.tasks
    requires forall j :: Open(t, j) ==> Open(s, j)
    ensures AllLive(t) && AllHeld(t)
  {
    LiveKept(s, t);
  }

  lemma ApiKeepsLive(c: Config, s: State, e: Event)
    requires Inv(c, s) && ApiEnabled(c, s, e) && AllLive(s) && AllHeld(s)
    ensures AllLive(ApiApply(c, s, e)) && AllHeld(ApiApply(c, s, e))
  {
    if e.Send? {
      SendKeepsLive(c, s, e.p, e.copies);
    } else {
      ApiLeavesQueue(c, s, e);
      ApiOpensNothing(c, s, ApiApply(c, s, e), e);
      Untouched(s, ApiApply(c, s, e));
    }
  }

  lemma QueueKeepsLive(c: Config, s: State, e: Event)
    requires CopiesOk(c, s) && QueueEnabled(c, s, e) && AllLive(s) && AllHeld(s)
    ensures AllLive(QueueApply(c, s, e)) && AllHeld(QueueApply(c, s, e))
  {
    var t := QueueApply(c, s, e);
    assert t.items == s.items && t.sent == s.sent && t.tasks == s.tasks;
    assert forall k, j :: CopyOf(s, k, j) ==> CopyOf(t, k, j);
    LiveKept(s, t);
  }

  lemma ReceiveKeepsCopies(s: State, w: Pid, k: CopyId)
    requires k in s.queue
    ensures forall i, j :: CopyOf(s, i, j) ==> CopyOf(Receiving(s, w, k), i, j)
  {
  }

  lemma ReceiveKeepsLive(c: Config, s: State, w: Pid, k: CopyId)
    requires CopiesOk(c, s) && WorkerEnabled(c, s, Receive(w, k)) && AllLive(s) && AllHeld(s)
    ensures AllLive(Receiving(s, w, k)) && AllHeld(Receiving(s, w, k))
  {
    ReceiveKeepsCopies(s, w, k);
    LiveKept(s, Receiving(s, w, k));
  }

  /** A worker whose job is no longer open turns to deleting. */
  lemma TurnsToDelete(c: Config, s: State, t: State, w: Pid)
    requires CopiesOk(c, s) && AllLive(s) && AllHeld(s) && Holds(s, w) && s.tasks[w].at != AtDelete
    requires t.tasks == s.tasks[w := s.tasks[w].(at := AtDelete)]
    requires t.queue == s.queue && t.dlq == s.dlq && t.sent == s.sent
    requires forall j :: Open(t, j) ==> Open(s, j) && j != s.tasks[w].body.msg.jobId
    ensures AllLive(t) && AllHeld(t)
  {
    var mine := s.tasks[w].copy;
    forall k, j | LiveCopy(s, k, j) && Open(t, j) ensures LiveCopy(t, k, j) {
      if k == mine { OneJobPerCopy(c, s, k, j, s.tasks[w].body.msg.jobId); }
    }
    LiveKept(s, t);
  }

  /** Records change without opening a job, and a worker moves short of
      deleting, or stops. */
  lemma MovesOn(s: State, t: State, w: Pid)
    requires AllLive(s) && AllHeld(s) && w in s.tasks
    requires t.queue == s.queue && t.dlq == s.dlq && t.sent == s.sent
    requires forall j :: Open(t, j) ==> Open(s, j)
    requires t.tasks == s.tasks || t.tasks == s.tasks - {w} ||
      (s.tasks[w].at != AtDelete && w in t.tasks && t.tasks[w].at != AtDelete
       && t.tasks == s.tasks[w := s.tasks[w].(at := t.tasks[w].at)])
    ensures AllLive(t) && AllHeld(t)
  {
    LiveKept(s, t);
  }

  lemma MarkProcessingKeepsLive(c: Config, s: State, w: Pid, now: Time, done: bool)
    requires CopiesOk(c, s) && TasksOk(c, s) && Exclusive(s) && AllLive(s) && AllHeld(s)
    requires WorkerEnabled(c, s, MarkProcessing(w, now, done))
    ensures AllLive(MarkingProcessing(s, w, now, done)) && AllHeld(MarkingProcessing(s, w, now, done))
  {
    var t, j := MarkingProcessing(s, w, now, done), s.tasks[w].body.msg.jobId;
    if MayProcess(s.items, j) {
      WinKeepsLive(s, t, w, j);
    } else if done {
      assert TaskOk(c, s, s.tasks[w]);
      TurnsToDelete(c, s, t, w);
    }
  }

  /** The winner of the conditional write holds a copy of its own. */
  lemma WinKeepsLive(s: State, t: State, w: Pid, j: JobId)
    requires Exclusive(s) && AllLive(s) && AllHeld(s) && Holds(s, w) && s.tasks[w].at == AtMarkProcessing
    requires j == s.tasks[w].body.msg.jobId && t.queue == s.queue && t.dlq == s.dlq
    requires forall i :: Open(t, i) && i != j ==> Open(s, i)
    requires t.tasks == s.tasks || t.tasks == s.tasks[w := s.tasks[w].(at := AtDownload)]
    ensures AllLive(t) && AllHeld(t)
  {
    assert LiveCopy(t, s.tasks[w].copy, j);
    LiveKept(s, t);
  }

  lemma DeleteKeepsLive(c: Config, s: State, w: Pid, took: bool, done: bool)
    requires Exclusive(s) && AllLive(s) && AllHeld(s)
    requires WorkerEnabled(c, s, Delete(w, took, done))
    ensures AllLive(Deleting(s, w, took, done)) && AllHeld(Deleting(s, w, took, done))
  {
    var t := Deleting(s, w, took, done);
    assert forall k, j :: LiveCopy(s, k, j) ==> k != s.tasks[w].copy && CopyOf(t, k, j);
    LiveKept(s, t);
  }

  lemma LookupKeepsLive(c: Config, s: State, w: Pid)
    requires CopiesOk(c, s) && TasksOk(c, s) && AllLive(s) && AllHeld(s) && WorkerEnabled(c, s, Lookup(w))
    ensures AllLive(LookingUp(c, s, w)) && AllHeld(LookingUp(c, s, w))
  {
    var t := LookingUp(c, s, w);
    assert TaskOk(c, s, s.tasks[w]);
    if w in t.tasks && t.tasks[w].at == AtDelete { TurnsToDelete(c, s, t, w); } else { MovesOn(s, t, w); }
  }

  lemma MarkCompleteKeepsLive(c: Config, s: State, w: Pid, now: Time, ms: nat, done: bool)
    requires CopiesOk(c, s) && AllLive(s) && AllHeld(s) && WorkerEnabled(c, s, MarkComplete(w, now, ms, done))
    ensures AllLive(MarkingComplete(s, w, now, ms, done)) && AllHeld(MarkingComplete(s, w, now, ms, done))
  {
    var t := MarkingComplete(s, w, now, ms, done);
    if done { TurnsToDelete(c, s, t, w); } else { MovesOn(s, t, w); }
  }

  lemma MarkFailedKeepsLive(c: Config, s: State, w: Pid, now: Time, done: bool)
    requires CopiesOk(c, s) && AllLive(s) && AllHeld(s) && WorkerEnabled(c, s, MarkFailed(w, now, done))
    ensures AllLive(MarkingFailed(s, w, now, done)) && AllHeld(MarkingFailed(s, w, now, done))
  {
    var t := MarkingFailed(s, w, now, done);
    if done { TurnsToDelete(c, s, t, w); } else { MovesOn(s, t, w); }
  }

  lemma FinishKeepsLive(c: Config, s: State, e: Event)
    requires CopiesOk(c, s) && Exclusive(s) && AllLive(s) && AllHeld(s) && WorkerEnabled(c, s, e)
    requires e.MarkComplete? || e.MarkFailed? || e.Delete?
    ensures AllLive(WorkerApply(c, s, e)) && AllHeld(WorkerApply(c, s, e))
  {
    match e
    case MarkComplete(w, now, ms, done) => MarkCompleteKeepsLive(c, s, w, now, ms, done);
    case MarkFailed(w, now, done) => MarkFailedKeepsLive(c, s, w, now, done);
    case Delete(w, took, done) => DeleteKeepsLive(c, s, w, took, done);
  }

  lemma OthersKeepLive(c: Config, s: State, e: Event)
    requires AllLive(s) && AllHeld(s) && WorkerEnabled(c, s, e) && (e.Download? || e.UploadThumb? || e.WorkerStop?)
    ensures AllLive(WorkerApply(c, s, e)) && AllHeld(WorkerApply(c, s, e))
  {
    MovesOn(s, WorkerApply(c, s, e), e.w);
  }

  lemma StartKeepsLive(c: Config, s: State, e: Event)
    requires CopiesOk(c, s) && TasksOk(c, s) && Exclusive(s) && AllLive(s) && AllHeld(s) && WorkerEnabled(c, s, e)
    requires e.Receive? || e.Lookup? || e.MarkProcessing?
    ensures AllLive(WorkerApply(c, s, e)) && AllHeld(WorkerApply(c, s, e))
  {
    match e
    case Receive(w, k) => ReceiveKeepsLive(c, s, w, k);
    case Lookup(w) => LookupKeepsLive(c, s, w);
    case MarkProcessing(w, now, done) => MarkProcessingKeepsLive(c, s, w, now, done);
  }

  lemma WorkerKeepsLive(c: Config, s: State, e: Event)
    requires Inv(c, s) && Exclusive(s) && AllLive(s) && AllHeld(s) && WorkerEnabled(c, s, e)
    ensures AllLive(WorkerApply(c, s, e)) && AllHeld(WorkerApply(c, s, e))
  {
    if e.Receive? || e.Lookup? || e.MarkProcessing? {
      StartKeepsLive(c, s, e);
    } else if e.MarkComplete? || e.MarkFailed? || e.Delete? {
      FinishKeepsLive(c, s, e);
    } else {
      OthersKeepLive(c, s, e);
    }
  }

  lemma {:induction false} ExclusivePathKeepsLive(c: Config, s: State, es: seq<Event>, t: State)
    requires Inv(c, s) && AllLive(s) && AllHeld(s) && ExclusivePath(c, s, es, t)
    ensures Inv(c, t) && AllLive(t)
    decreases |es|
  {
    if es != [] {
      var e := es[0];
      if ApiEnabled(c, s, e) {
        ApiKeepsLive(c, s, e);
      } else if WorkerEnabled(c, s, e) {
        WorkerKeepsLive(c, s, e);
      } else {
        QueueKeepsLive(c, s, e);
      }
      StepKeeps(c, s, e);
      ExclusivePathKeepsLive(c, Apply(c, s, e), es[1..], t);
    }
  }

  /** No stranding under exclusive delivery: a job still PENDING or PROCESSING
      has a copy that will be redelivered or parked on the DLQ. */
  lemma ExclusiveNeverStrands(c: Config, es: seq<Event>, s: State, j: JobId)
    requires ExclusivePath(c, INIT, es, s) && j in s.sent
    ensures j in s.items && (s.items[j].status in {PENDING, PROCESSING} ==> HasCopy(s, j))
  {
    ExclusivePathKeepsLive(c, INIT, es, s);
    if Open(s, j) {
      var k :| LiveCopy(s, k, j);
      assert CopyOf(s, k, j);
    }
  }
}
