/** Where the promises end. Two of them fail on exactly characterised uploads:
    a run is built for every upload that meets the condition, and none exists
    for any other. */
module Limits {
  import opened Domain
  import opened Protocol
  import opened Invariant
  import opened Guarantees
  import opened ExclusiveDelivery
  import opened Scenes

  // -- stranded jobs -----------------------------------------------------------------

  /** The job of `up` is enqueued and unfinished, and no message and no worker is
      left to finish it. */
  ghost predicate Stranded(s: State, up: Upload) {
    var j := up.jobId;
    && j in s.uploads && s.uploads[j] == up && j in s.sent && j in s.items
    && s.items[j].status in {PENDING, PROCESSING} && !HasCopy(s, j) && Unheld(s, j)
  }

  ghost predicate Unheld(s: State, j: JobId) {
    forall w :: Holds(s, w) ==> s.tasks[w].body.msg.jobId != j
  }

  ghost function OnlyCopy(c: Config, up: Upload, receives: nat, visible: bool): map<CopyId, Copy> {
    map[0 := Copy(BodyFor(c, up), receives, visible)]
  }

  /** Worker 1 receives the only copy and looks the job up; the copy becomes
      visible again. */
  lemma FirstStalls(c: Config, up: Upload)
    requires Admissible(c, up) && Workable(c, up) && c.maxReceives >= 2
    ensures
      var tasks := map[1 := Pausing(c, up, 0, AtMarkProcessing)];
      Reachable(c, Scene(c, up, PendingItem(c, up), OnlyCopy(c, up, 1, true), tasks, {0}))
  {
    var q, tasks := OnlyCopy(c, up, 1, false), map[1 := Pausing(c, up, 0, AtMarkProcessing)];
    FirstLooks(c, up, {0});
    assert OneTaken(c, up, {0}) == q;
    BackInSight(c, up, PendingItem(c, up), q, tasks, {0}, 0);
    assert q[0 := q[0].(visible := true)] == OnlyCopy(c, up, 1, true);
  }

  /** Worker 2 receives it and finds the bytes undecodable. */
  lemma SecondFails(c: Config, up: Upload, reason: string)
    requires Admissible(c, up) && Workable(c, up) && c.maxReceives >= 2
    requires Renders(c, up.data, Undecodable(reason))
    ensures
      var tasks := map[1 := Pausing(c, up, 0, AtMarkProcessing)][2 := Pausing(c, up, 0, AtMarkFailed(reason))];
      Reachable(c, Scene(c, up, Processing(PendingItem(c, up), 0), OnlyCopy(c, up, 2, false), tasks, {0}))
  {
    var q, tasks := OnlyCopy(c, up, 1, true), map[1 := Pausing(c, up, 0, AtMarkProcessing)];
    FirstStalls(c, up);
    TakeUp(c, up, PendingItem(c, up), q, tasks, {0}, 2, 0);
    assert q[0 := Once(q[0])] == OnlyCopy(c, up, 2, false);
    SecondFailsRest(c, up, PendingItem(c, up), OnlyCopy(c, up, 2, false), tasks, reason);
  }

  lemma SecondFailsRest(c: Config, up: Upload, item: Item, q: map<CopyId, Copy>, tasks: map<Pid, Task>, reason: string)
    requires Workable(c, up) && Renders(c, up.data, Undecodable(reason)) && item.status != COMPLETE && 2 !in tasks
    requires Reachable(c, Scene(c, up, item, q, tasks[2 := Pausing(c, up, 0, AtMarkProcessing)], {0}))
    ensures
      var failing := tasks[2 := Pausing(c, up, 0, AtMarkFailed(reason))];
      Reachable(c, Scene(c, up, Processing(item, 0), q, failing, {0}))
  {
    var looked, won := tasks[2 := Pausing(c, up, 0, AtMarkProcessing)], tasks[2 := Pausing(c, up, 0, AtDownload)];
    Win(c, up, item, q, looked, {0}, 2, 0);
    assert looked[2 := Pausing(c, up, 0, AtDownload)] == won;
    FindsUndecodable(c, up, Processing(item, 0), q, won, {0}, 2, 0, reason);
    assert won[2 := Pausing(c, up, 0, AtMarkFailed(reason))] == tasks[2 := Pausing(c, up, 0, AtMarkFailed(reason))];
  }

  /** Two workers hold the same copy. The later receiver records the failure, the
      earlier one turns the record back to PROCESSING, the later one, whose
      receipt handle is the valid one, deletes the message, and the earlier one
      crashes. */
  lemma Strand(c: Config, up: Upload, reason: string)
    requires Admissible(c, up) && Workable(c, up) && c.maxReceives >= 2
    requires Renders(c, up.data, Undecodable(reason))
    ensures exists s :: Reachable(c, s) && Stranded(s, up)
  {
    var item, q := Processing(PendingItem(c, up), 0), OnlyCopy(c, up, 2, false);
    var held := map[1 := Pausing(c, up, 0, AtMarkProcessing)][2 := Pausing(c, up, 0, AtMarkFailed(reason))];
    SecondFails(c, up, reason);
    Fails(c, up, item, q, held, {0}, 2, 0, reason);
    var tasks := held[2 := Pausing(c, up, 0, AtDelete)];
    Win(c, up, Failed(item, reason, 0), q, tasks, {0}, 1, 0);
    StrandRest(c, up, Processing(Failed(item, reason, 0), 0), q, tasks[1 := Pausing(c, up, 0, AtDownload)]);
  }

  lemma StrandRest(c: Config, up: Upload, item: Item, q: map<CopyId, Copy>, tasks: map<Pid, Task>)
    requires q.Keys == {0} && item.status == PROCESSING
    requires tasks.Keys == {1, 2} && tasks[2] == Pausing(c, up, 0, AtDelete)
    requires Reachable(c, Scene(c, up, item, q, tasks, {0}))
    ensures exists s :: Reachable(c, s) && Stranded(s, up)
  {
    Drops(c, up, item, q, tasks, {0}, 2, 0);
    assert q - {0} == map[];
    Crashes(c, up, item, map[], tasks - {2}, {0}, 1);
    assert tasks - {2} - {1} == map[];
    NobodyLeft(c, up, item);
    assert Stranded(Scene(c, up, item, map[], map[], {0}), up);
  }

  lemma NobodyLeft(c: Config, up: Upload, item: Item)
    requires item.status == PROCESSING
    ensures Stranded(Scene(c, up, item, map[], map[], {0}), up)
  {
  }

  /** A stranded job is lost for good: in no continuation does its record change
      again. */
  lemma {:induction false} StrandedForGood(c: Config, s: State, es: seq<Event>, t: State, up: Upload)
    requires Inv(c, s) && Path(c, s, es, t) && Stranded(s, up)
    ensures Stranded(t, up) && t.items[up.jobId] == s.items[up.jobId]
    decreases |es|
  {
    if es != [] {
      StepKeeps(c, s, es[0]);
      StaysStranded(c, s, es[0], up);
      StrandedForGood(c, Apply(c, s, es[0]), es[1..], t, up);
    }
  }

  lemma StaysStranded(c: Config, s: State, e: Event, up: Upload)
    requires Inv(c, s) && Enabled(c, s, e) && Stranded(s, up)
    ensures Stranded(Apply(c, s, e), up) && Apply(c, s, e).items[up.jobId] == s.items[up.jobId]
  {
    StepKeeps(c, s, e);
    UnheldStays(c, s, e, up.jobId);
    NoNewCopies(c, s, e, up.jobId);
    NoNewHolders(c, s, e, up.jobId);
  }

  /** Nobody who does not hold a job writes its record. */
  lemma UnheldStays(c: Config, s: State, e: Event, j: JobId)
    requires Inv(c, s) && Enabled(c, s, e) && j in s.sent && Unheld(s, j)
    ensures j in s.items && j in Apply(c, s, e).items && Apply(c, s, e).items[j] == s.items[j]
  {
    SentRecordStep(c, s, e, j);
    UnheldUnwritten(s, e, j);
  }

  lemma UnheldUnwritten(s: State, e: Event, j: JobId)
    requires Unheld(s, j)
    ensures WriteOf(s, e, j) == Keep
  {
  }

  lemma NoNewCopies(c: Config, s: State, e: Event, j: JobId)
    requires CallsOk(c, s) && Enabled(c, s, e) && j in s.sent && !HasCopy(s, j)
    ensures !HasCopy(Apply(c, s, e), j)
  {
    var t := Apply(c, s, e);
    forall k ensures !CopyOf(t, k, j) {
      assert !CopyOf(s, k, j);
      if e.Send? { assert CallOk(c, s, s.calls[e.p]); }
    }
  }

  lemma NoNewHolders(c: Config, s: State, e: Event, j: JobId)
    requires Enabled(c, s, e) && !HasCopy(s, j) && Unheld(s, j)
    ensures Unheld(Apply(c, s, e), j)
  {
    if e.Receive? {
      assert !CopyOf(s, e.k, j);
    } else if WorkerEnabled(c, s, e) {
      KeepsTasks(c, s, e);
    }
  }

  /** No worker holds anything new. */
  ghost predicate NothingTaken(s: State, t: State) {
    forall w :: w in t.tasks ==>
      w in s.tasks && t.tasks[w].copy == s.tasks[w].copy && t.tasks[w].body == s.tasks[w].body
  }

  lemma KeepsTasks(c: Config, s: State, e: Event)
    requires WorkerEnabled(c, s, e) && !e.Receive?
    ensures NothingTaken(s, WorkerApply(c, s, e))
  {
    if e.Lookup? || e.MarkProcessing? {
      StartTakesNothing(c, s, e);
    } else if e.Download? || e.UploadThumb? {
      RenderTakesNothing(c, s, e);
    } else {
      EndTakesNothing(c, s, e);
    }
  }

  lemma StartTakesNothing(c: Config, s: State, e: Event)
    requires WorkerEnabled(c, s, e) && (e.Lookup? || e.MarkProcessing?)
    ensures NothingTaken(s, WorkerApply(c, s, e))
  {
    match e
    case Lookup(w) => LookupTakesNothing(c, s, w);
    case MarkProcessing(w, now, done) => MarkTakesNothing(s, w, now, done);
  }

  lemma LookupTakesNothing(c: Config, s: State, w: Pid)
    requires Holds(s, w)
    ensures NothingTaken(s, LookingUp(c, s, w))
  {
  }

  lemma MarkTakesNothing(s: State, w: Pid, now: Time, done: bool)
    requires Holds(s, w)
    ensures NothingTaken(s, MarkingProcessing(s, w, now, done))
  {
  }

  lemma RenderTakesNothing(c: Config, s: State, e: Event)
    requires WorkerEnabled(c, s, e) && (e.Download? || e.UploadThumb?)
    ensures NothingTaken(s, WorkerApply(c, s, e))
  {
  }

  lemma EndTakesNothing(c: Config, s: State, e: Event)
    requires WorkerEnabled(c, s, e) && (e.MarkComplete? || e.MarkFailed? || e.Delete? || e.WorkerStop?)
    ensures NothingTaken(s, WorkerApply(c, s, e))
  {
    match e
    case MarkComplete(w, now, ms, done) => CompleteTakesNothing(s, w, now, ms, done);
    case MarkFailed(w, now, done) => FailTakesNothing(s, w, now, done);
    case _ =>
  }

  lemma CompleteTakesNothing(s: State, w: Pid, now: Time, ms: nat, done: bool)
    requires Holds(s, w) && s.tasks[w].at.AtMarkComplete?
    ensures NothingTaken(s, MarkingComplete(s, w, now, ms, done))
  {
  }

  lemma FailTakesNothing(s: State, w: Pid, now: Time, done: bool)
    requires Holds(s, w) && s.tasks[w].at.AtMarkFailed?
    ensures NothingTaken(s, MarkingFailed(s, w, now, done))
  {
  }

  // -- with at most one receive per copy ------------------------------------------------

  /** Every copy a worker holds has been received, and by that worker alone. */
  ghost predicate HeldOnce(s: State) {
    && Exclusive(s)
    && forall w :: w in s.tasks && s.tasks[w].copy in s.queue ==> s.queue[s.tasks[w].copy].receives >= 1
  }

  ghost predicate HeldIsIssued(s: State) {
    forall w :: w in s.tasks ==> s.tasks[w].copy in s.issued
  }

  lemma TasksAreIssued(c: Config, s: State)
    requires TasksOk(c, s)
    ensures HeldIsIssued(s)
  {
    forall w | w in s.tasks ensures s.tasks[w].copy in s.issued {
      assert TaskOk(c, s, s.tasks[w]);
    }
  }

  lemma HeldOnceKept(c: Config, s: State, e: Event)
    requires Enabled(c, s, e) && HeldIsIssued(s) && HeldOnce(s) && c.maxReceives <= 1
    ensures HeldOnce(Apply(c, s, e))
  {
    if ApiEnabled(c, s, e) {
      ApiHeldOnce(c, s, e);
    } else if WorkerEnabled(c, s, e) {
      WorkerHeldOnce(c, s, e);
    } else {
      QueueHeldOnce(c, s, e);
    }
  }

  lemma ApiHeldOnce(c: Config, s: State, e: Event)
    requires ApiEnabled(c, s, e) && HeldOnce(s) && HeldIsIssued(s)
    ensures HeldOnce(ApiApply(c, s, e))
  {
    if !e.Send? { ApiLeavesQueue(c, s, e); }
  }

  lemma QueueHeldOnce(c: Config, s: State, e: Event)
    requires QueueEnabled(c, s, e) && HeldOnce(s) && HeldIsIssued(s)
    ensures HeldOnce(QueueApply(c, s, e))
  {
  }

  lemma WorkerHeldOnce(c: Config, s: State, e: Event)
    requires WorkerEnabled(c, s, e) && HeldOnce(s) && c.maxReceives <= 1
    ensures HeldOnce(WorkerApply(c, s, e))
  {
    if e.Receive? {
      assert s.queue[e.k].receives == 0;
    } else {
      KeepsTasks(c, s, e);
      KeepsQueue(c, s, e);
    }
  }

  lemma KeepsQueue(c: Config, s: State, e: Event)
    requires WorkerEnabled(c, s, e) && !e.Receive?
    ensures var t := WorkerApply(c, s, e); forall k :: k in t.queue ==> k in s.queue && t.queue[k] == s.queue[k]
  {
  }

  lemma {:induction false} ReceivedOnceIsExclusive(c: Config, s: State, es: seq<Event>, t: State)
    requires Inv(c, s) && Path(c, s, es, t) && HeldOnce(s) && c.maxReceives <= 1
    ensures ExclusivePath(c, s, es, t)
    decreases |es|
  {
    if es != [] {
      StepKeeps(c, s, es[0]);
      TasksAreIssued(c, s);
      HeldOnceKept(c, s, es[0]);
      ReceivedOnceIsExclusive(c, Apply(c, s, es[0]), es[1..], t);
    }
  }

  /** A job can be stranded exactly if a copy may be received twice, the workers
      would take the job up, and its bytes can fail to decode. */
  lemma StrandedIff(c: Config, up: Upload)
    requires Admissible(c, up)
    ensures (exists s :: Reachable(c, s) && Stranded(s, up))
      <==> c.maxReceives >= 2 && Workable(c, up) && CanBeUndecodable(c, up.data)
  {
    if s :| Reachable(c, s) && Stranded(s, up) {
      StrandedNeeds(c, s, up);
    }
    if c.maxReceives >= 2 && Workable(c, up) && CanBeUndecodable(c, up.data) {
      var reason :| Renders(c, up.data, Undecodable(reason));
      Strand(c, up, reason);
    }
  }

  lemma StrandedNeeds(c: Config, s: State, up: Upload)
    requires Reachable(c, s) && Stranded(s, up)
    ensures c.maxReceives >= 2 && Workable(c, up) && CanBeUndecodable(c, up.data)
  {
    ReachableKeeps(c, s);
    assert ItemOk(c, s, up.jobId);
    if c.maxReceives <= 1 {
      var es :| Path(c, INIT, es, s);
      ReceivedOnceIsExclusive(c, INIT, es, s);
      ExclusiveNeverStrands(c, es, s, up.jobId);
    }
  }

  // -- COMPLETE overwritten ------------------------------------------------------------

  /** The step `e` takes the job of `up` out of COMPLETE. */
  ghost predicate Uncompletes(c: Config, s: State, e: Event, up: Upload) {
    var j := up.jobId;
    && Reachable(c, s) && Enabled(c, s, e)
    && j in s.uploads && s.uploads[j] == up && j in s.items && s.items[j].status == COMPLETE
    && !(j in Apply(c, s, e).items && Apply(c, s, e).items[j].status == COMPLETE)
  }

  /** What is left of `s` once worker `w` has completed its job. */
  ghost predicate CompletedBy(s: State, t: State, w: Pid, up: Upload) {
    && up.jobId in t.uploads && t.uploads[up.jobId] == up
    && up.jobId in t.items && t.items[up.jobId].status == COMPLETE
    && forall v :: v in s.tasks && v != w ==> v in t.tasks && t.tasks[v] == s.tasks[v]
  }

  /** A worker that has rendered the picture can upload it all and complete the
      record, whoever else holds the message. */
  lemma {:induction false} FinishUp(c: Config, s: State, w: Pid, r: Picture, n: nat, up: Upload)
    requires Holds(s, w) && n <= |r.thumbs| && s.tasks[w].at == AfterUpload(r, n)
    requires s.tasks[w].body.msg.jobId == up.jobId && up.jobId in s.uploads && s.uploads[up.jobId] == up
    requires up.jobId in s.items
    ensures exists t :: Leads(c, s, t) && CompletedBy(s, t, w, up)
    decreases |r.thumbs| - n
  {
    if n < |r.thumbs| {
      var u := UploadsOne(c, s, w, r, n);
      FinishUp(c, u, w, r, n + 1, up);
      LeadsToCompleted(c, s, u, w, up);
    } else {
      CompletesIt(c, s, w, up);
    }
  }

  lemma UploadsOne(c: Config, s: State, w: Pid, r: Picture, n: nat) returns (t: State)
    requires Holds(s, w) && n < |r.thumbs| && s.tasks[w].at == AtUpload(r, n)
    ensures Leads(c, s, t) && t.tasks == s.tasks[w := s.tasks[w].(at := AfterUpload(r, n + 1))]
    ensures t.items == s.items && t.uploads == s.uploads
  {
    LeadsByWorker(c, s, UploadThumb(w, true));
    t := WorkerApply(c, s, UploadThumb(w, true));
  }

  lemma CompletesIt(c: Config, s: State, w: Pid, up: Upload)
    requires Holds(s, w) && s.tasks[w].at.AtMarkComplete? && s.tasks[w].body.msg.jobId == up.jobId
    requires up.jobId in s.uploads && s.uploads[up.jobId] == up
    ensures exists t :: Leads(c, s, t) && CompletedBy(s, t, w, up)
  {
    var t := WorkerApply(c, s, MarkComplete(w, 0, 0, true));
    LeadsByWorker(c, s, MarkComplete(w, 0, 0, true));
    assert CompletedBy(s, t, w, up);
  }

  /** A worker that has won the conditional write can complete the record if the
      bytes can render. */
  lemma RenderUp(c: Config, s: State, w: Pid, r: Picture, up: Upload)
    requires Holds(s, w) && s.tasks[w].at == AtDownload && s.tasks[w].body == BodyFor(c, up)
    requires up.jobId in s.uploads && s.uploads[up.jobId] == up && up.jobId in s.items
    requires Workable(c, up) && Stored(c, s, up) && Renders(c, up.data, r)
    ensures exists t :: Leads(c, s, t) && CompletedBy(s, t, w, up)
  {
    var u := Downloaded(c, s, w, r, up);
    FinishUp(c, u, w, r, 0, up);
    LeadsToCompleted(c, s, u, w, up);
  }

  lemma LeadsToCompleted(c: Config, s: State, u: State, w: Pid, up: Upload)
    requires Leads(c, s, u) && exists t :: Leads(c, u, t) && CompletedBy(u, t, w, up)
    requires w in s.tasks && w in u.tasks && u.tasks == s.tasks[w := u.tasks[w]]
    ensures exists t :: Leads(c, s, t) && CompletedBy(s, t, w, up)
  {
    var t :| Leads(c, u, t) && CompletedBy(u, t, w, up);
    LeadsOn(c, s, u, t);
    assert CompletedBy(s, t, w, up);
  }

  lemma Downloaded(c: Config, s: State, w: Pid, r: Picture, up: Upload) returns (t: State)
    requires Holds(s, w) && s.tasks[w].at == AtDownload && s.tasks[w].body == BodyFor(c, up)
    requires Workable(c, up) && Stored(c, s, up) && Renders(c, up.data, r)
    ensures Leads(c, s, t) && t.tasks == s.tasks[w := s.tasks[w].(at := AfterUpload(r, 0))]
    ensures t.items == s.items && t.uploads == s.uploads
  {
    LeadsByWorker(c, s, Download(w, r));
    t := WorkerApply(c, s, Download(w, r));
  }

  lemma FailsAfter(c: Config, s: State, up: Upload, reason: string)
    requires Reachable(c, s) && up.jobId in s.uploads && s.uploads[up.jobId] == up
    requires up.jobId in s.items && s.items[up.jobId].status == COMPLETE
    requires 1 in s.tasks && s.tasks[1] == FailingTask(c, up, reason)
    ensures exists s, e :: Uncompletes(c, s, e, up)
  {
    assert Uncompletes(c, s, MarkFailed(1, 0, true), up);
  }

  /** One worker finds the bytes undecodable, another renders them. The first
      writes FAILED over the second's COMPLETE. */
  lemma Overwrite(c: Config, s: State, up: Upload, reason: string, r: Picture)
    requires Reachable(c, s) && up.jobId in s.uploads && s.uploads[up.jobId] == up && up.jobId in s.items
    requires 1 in s.tasks && s.tasks[1] == FailingTask(c, up, reason)
    requires 2 in s.tasks && s.tasks[2] == Pausing(c, up, 1, AtDownload)
    requires Workable(c, up) && Stored(c, s, up) && Renders(c, up.data, r)
    ensures exists s, e :: Uncompletes(c, s, e, up)
  {
    RenderUp(c, s, 2, r, up);
    var t :| Leads(c, s, t) && CompletedBy(s, t, 2, up);
    ReachLead(c, s, t);
    FailsAfter(c, t, up, reason);
  }

  /** Each worker has received its own copy of the message. */
  lemma CanOverwrite(c: Config, up: Upload, reason: string, r: Picture)
    requires Admissible(c, up) && Workable(c, up) && c.maxReceives >= 1
    requires Renders(c, up.data, Undecodable(reason)) && Renders(c, up.data, r)
    ensures exists s, e :: Uncompletes(c, s, e, up)
  {
    var item, q := Processing(PendingItem(c, up), 0), OneTaken(c, up, {0, 1});
    var one, two := FailingTask(c, up, reason), Pausing(c, up, 1, AtMarkProcessing);
    AboutToFail(c, up, {0, 1}, reason);
    TakeUp(c, up, item, q, map[1 := one], {0, 1}, 2, 1);
    Win(c, up, item, q[1 := Once(q[1])], map[1 := one][2 := two], {0, 1}, 2, 1);
    var tasks := map[1 := one][2 := two][2 := Pausing(c, up, 1, AtDownload)];
    Overwrite(c, Scene(c, up, Processing(item, 0), q[1 := Once(q[1])], tasks, {0, 1}), up, reason, r);
  }

  /** If no message can be received no job is ever completed. */
  ghost predicate Unreceived(s: State) {
    s.tasks == map[] && NoneDone(s.items)
  }

  lemma UnreceivedStep(c: Config, s: State, e: Event)
    requires c.maxReceives == 0 && Enabled(c, s, e) && Unreceived(s)
    ensures Unreceived(Apply(c, s, e))
  {
    if ApiEnabled(c, s, e) {
      ApiCompletesNothing(c, s, e);
    }
  }

  lemma ApiCompletesNothing(c: Config, s: State, e: Event)
    requires ApiEnabled(c, s, e) && Unreceived(s)
    ensures Unreceived(ApiApply(c, s, e))
  {
    if !(e.PutRecord? || e.MarkUnqueueable?) { ApiLeavesRecords(c, s, e); } else { ApiWritesOpen(c, s, e); }
  }

  /** The table holds no completed record. */
  ghost predicate NoneDone(items: map<JobId, Item>) {
    forall j :: j in items ==> items[j].status != COMPLETE
  }

  lemma PutIsOpen(c: Config, s: State, p: Pid, done: bool)
    requires p in s.calls && NoneDone(s.items)
    ensures NoneDone(PuttingRecord(c, s, p, done).items)
  {
  }

  lemma MarkIsOpen(c: Config, s: State, p: Pid, now: Time, done: bool)
    requires p in s.calls && s.calls[p].at.AtMarkUnqueueable? && NoneDone(s.items)
    ensures NoneDone(MarkingUnqueueable(c, s, p, now, done).items)
  {
  }

  lemma ApiWritesOpen(c: Config, s: State, e: Event)
    requires ApiEnabled(c, s, e) && (e.PutRecord? || e.MarkUnqueueable?) && NoneDone(s.items)
    ensures NoneDone(ApiApply(c, s, e).items)
  {
    match e
    case PutRecord(p, done) => PutIsOpen(c, s, p, done);
    case MarkUnqueueable(p, now, done) => MarkIsOpen(c, s, p, now, done);
  }

  lemma {:induction false} NothingReceived(c: Config, s: State, es: seq<Event>, t: State)
    requires c.maxReceives == 0 && Path(c, s, es, t) && Unreceived(s)
    ensures Unreceived(t)
    decreases |es|
  {
    if es != [] {
      UnreceivedStep(c, s, es[0]);
      NothingReceived(c, Apply(c, s, es[0]), es[1..], t);
    }
  }

  lemma CompletedIsReceived(c: Config, s: State, j: JobId)
    requires Reachable(c, s) && j in s.items && s.items[j].status == COMPLETE
    ensures c.maxReceives >= 1
  {
    if c.maxReceives == 0 {
      var es :| Path(c, INIT, es, s);
      NothingReceived(c, INIT, es, s);
    }
  }

  lemma CompletedIsWorkable(c: Config, s: State, up: Upload)
    requires ItemsOk(c, s) && up.jobId in s.uploads && s.uploads[up.jobId] == up
    requires up.jobId in s.items && s.items[up.jobId].status == COMPLETE
    ensures Workable(c, up) && CanSucceed(c, up.data)
  {
    assert ItemOk(c, s, up.jobId);
  }

  lemma UncompletesNeeds(c: Config, s: State, e: Event, up: Upload)
    requires Uncompletes(c, s, e, up)
    ensures c.maxReceives >= 1 && Workable(c, up) && CanBeUndecodable(c, up.data) && CanSucceed(c, up.data)
  {
    ReachableKeeps(c, s);
    CompletedIsReceived(c, s, up.jobId);
    CompletedIsWorkable(c, s, up);
    if !CanBeUndecodable(c, up.data) { CompleteStep(c, s, e, up.jobId); }
  }

  /** COMPLETE can be overwritten exactly if messages are received at all, the
      workers would take the job up, and its bytes can both render and fail to
      decode. */
  lemma UncompletesIff(c: Config, up: Upload)
    requires Admissible(c, up)
    ensures (exists s, e :: Uncompletes(c, s, e, up))
      <==> c.maxReceives >= 1 && Workable(c, up) && CanBeUndecodable(c, up.data) && CanSucceed(c, up.data)
  {
    if s, e :| Uncompletes(c, s, e, up) {
      UncompletesNeeds(c, s, e, up);
    }
    if c.maxReceives >= 1 && Workable(c, up) && CanBeUndecodable(c, up.data) && CanSucceed(c, up.data) {
      var reason :| Renders(c, up.data, Undecodable(reason));
      var r :| Renders(c, up.data, r) && r.Image?;
      CanOverwrite(c, up, reason, r);
    }
  }
}
