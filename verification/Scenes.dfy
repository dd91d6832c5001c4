/** Runs built step by step around a single job. A scene is a state with that
    job enqueued and nothing else; each lemma carries one scene to the next. */
module Scenes {
  import opened PyValues
  import opened Domain
  import opened Protocol

  /** A state with the single job `up`, enqueued with the copies `ids`. */
  ghost function Scene(c: Config, up: Upload, item: Item, queue: map<CopyId, Copy>, tasks: map<Pid, Task>,
                       ids: set<CopyId>): State
  {
    State(OriginalOnly(c, up), map[up.jobId := item], queue, map[], map[], tasks, map[up.jobId := up], {up.jobId}, ids)
  }

  ghost function BodyFor(c: Config, up: Upload): Body {
    Job(MessageOf(c, up))
  }

  ghost function Copies(c: Config, up: Upload, ids: set<CopyId>): map<CopyId, Copy> {
    map k | k in ids :: Copy(BodyFor(c, up), 0, true)
  }

  ghost function OriginalOnly(c: Config, up: Upload): map<Loc, Bytes> {
    map[OriginalLoc(c, up) := up.data]
  }

  ghost predicate Workable(c: Config, up: Upload) {
    up.bucket == c.bucket && up.version <= MESSAGE_SCHEMA_VERSION
  }

  ghost function Once(k: Copy): Copy {
    k.(receives := k.receives + 1, visible := false)
  }

  ghost function Pausing(c: Config, up: Upload, k: CopyId, at: WorkAt): Task {
    Task(k, BodyFor(c, up), at)
  }

  // -- enqueueing ------------------------------------------------------------------

  /** The upload request `up` before its next call. */
  ghost function Uploading(up: Upload, objects: map<Loc, Bytes>, items: map<JobId, Item>, at: ApiAt): State {
    State(objects, items, map[], map[], map[0 := Call(up, at)], map[], map[up.jobId := up], {}, {})
  }

  lemma Begins(c: Config, up: Upload)
    requires Admissible(c, up)
    ensures Reachable(c, Uploading(up, map[], map[], AtPutObject))
  {
    assert Path(c, INIT, [], INIT);
    ReachApiStep(c, INIT, Begin(0, up));
  }

  lemma PutsObject(c: Config, up: Upload)
    requires Reachable(c, Uploading(up, map[], map[], AtPutObject))
    ensures Reachable(c, Uploading(up, OriginalOnly(c, up), map[], AtPutRecord))
  {
    var s := Uploading(up, map[], map[], AtPutObject);
    ReachApiStep(c, s, PutObject(0, true));
    assert s.calls[0 := Call(up, AtPutRecord)] == map[0 := Call(up, AtPutRecord)];
  }

  lemma PutsRecord(c: Config, up: Upload)
    requires Reachable(c, Uploading(up, OriginalOnly(c, up), map[], AtPutRecord))
    ensures Reachable(c, Uploading(up, OriginalOnly(c, up), map[up.jobId := PendingItem(c, up)], AtSend))
  {
    var s := Uploading(up, OriginalOnly(c, up), map[], AtPutRecord);
    ReachApiStep(c, s, PutRecord(0, true));
    assert s.calls[0 := Call(up, AtSend)] == map[0 := Call(up, AtSend)];
  }

  lemma Sends(c: Config, up: Upload, ids: set<CopyId>)
    requires Reachable(c, Uploading(up, OriginalOnly(c, up), map[up.jobId := PendingItem(c, up)], AtSend)) && ids != {}
    ensures Reachable(c, Scene(c, up, PendingItem(c, up), Copies(c, up, ids), map[], ids))
  {
    var s := Uploading(up, OriginalOnly(c, up), map[up.jobId := PendingItem(c, up)], AtSend);
    var t := Scene(c, up, PendingItem(c, up), Copies(c, up, ids), map[], ids);
    ReachApiStep(c, s, Send(0, ids));
    assert ApiApply(c, s, Send(0, ids)).queue == t.queue;
    assert s.calls - {0} == map[] && s.sent + {up.jobId} == t.sent && s.issued + ids == t.issued;
  }

  /** Any admissible upload can be enqueued with any copies of its message. */
  lemma Enqueue(c: Config, up: Upload, ids: set<CopyId>)
    requires Admissible(c, up) && ids != {}
    ensures Reachable(c, Scene(c, up, PendingItem(c, up), Copies(c, up, ids), map[], ids))
  {
    Begins(c, up);
    PutsObject(c, up);
    PutsRecord(c, up);
    Sends(c, up, ids);
  }

  // -- what a worker does ------------------------------------------------------------

  /** An idle worker receives a visible copy. */
  lemma PicksUp(c: Config, up: Upload, item: Item, q: map<CopyId, Copy>, tasks: map<Pid, Task>, ids: set<CopyId>,
                w: Pid, k: CopyId)
    requires Workable(c, up) && w !in tasks
    requires k in q && q[k].body == BodyFor(c, up) && q[k].visible && q[k].receives < c.maxReceives
    requires Reachable(c, Scene(c, up, item, q, tasks, ids))
    ensures Reachable(c, Scene(c, up, item, q[k := Once(q[k])], tasks[w := Pausing(c, up, k, AtLookup)], ids))
  {
    ReceivingScene(c, up, item, q, tasks, ids, w, k);
    ReachWorkerStep(c, Scene(c, up, item, q, tasks, ids), Receive(w, k));
  }

  lemma ReceivingScene(c: Config, up: Upload, item: Item, q: map<CopyId, Copy>, tasks: map<Pid, Task>, ids: set<CopyId>,
                  w: Pid, k: CopyId)
    requires Workable(c, up) && k in q && q[k].body == BodyFor(c, up)
    ensures Receiving(Scene(c, up, item, q, tasks, ids), w, k)
         == Scene(c, up, item, q[k := Once(q[k])], tasks[w := Pausing(c, up, k, AtLookup)], ids)
  {
  }

  /** It looks the job up. */
  lemma LooksUp(c: Config, up: Upload, item: Item, q: map<CopyId, Copy>, tasks: map<Pid, Task>, ids: set<CopyId>,
                w: Pid, k: CopyId)
    requires Workable(c, up) && w in tasks && tasks[w] == Pausing(c, up, k, AtLookup)
    requires item.base.Some? && item.status != COMPLETE
    requires Reachable(c, Scene(c, up, item, q, tasks, ids))
    ensures Reachable(c, Scene(c, up, item, q, tasks[w := Pausing(c, up, k, AtMarkProcessing)], ids))
  {
    ReachWorkerStep(c, Scene(c, up, item, q, tasks, ids), Lookup(w));
  }

  lemma TakeUp(c: Config, up: Upload, item: Item, q: map<CopyId, Copy>, tasks: map<Pid, Task>, ids: set<CopyId>,
               w: Pid, k: CopyId)
    requires Workable(c, up) && w !in tasks && item.base.Some? && item.status != COMPLETE
    requires k in q && q[k].body == BodyFor(c, up) && q[k].visible && q[k].receives < c.maxReceives
    requires Reachable(c, Scene(c, up, item, q, tasks, ids))
    ensures
      var held := tasks[w := Pausing(c, up, k, AtMarkProcessing)];
      Reachable(c, Scene(c, up, item, q[k := Once(q[k])], held, ids))
  {
    var looking := tasks[w := Pausing(c, up, k, AtLookup)];
    PicksUp(c, up, item, q, tasks, ids, w, k);
    LooksUp(c, up, item, q[k := Once(q[k])], looking, ids, w, k);
    assert looking[w := Pausing(c, up, k, AtMarkProcessing)] == tasks[w := Pausing(c, up, k, AtMarkProcessing)];
  }

  /** It wins the conditional write. */
  lemma Win(c: Config, up: Upload, item: Item, q: map<CopyId, Copy>, tasks: map<Pid, Task>, ids: set<CopyId>,
            w: Pid, k: CopyId)
    requires w in tasks && tasks[w] == Pausing(c, up, k, AtMarkProcessing) && item.status != COMPLETE
    requires Reachable(c, Scene(c, up, item, q, tasks, ids))
    ensures Reachable(c, Scene(c, up, Processing(item, 0), q, tasks[w := Pausing(c, up, k, AtDownload)], ids))
  {
    WinningScene(c, up, item, q, tasks, ids, w, k);
    ReachWorkerStep(c, Scene(c, up, item, q, tasks, ids), MarkProcessing(w, 0, true));
  }

  lemma WinningScene(c: Config, up: Upload, item: Item, q: map<CopyId, Copy>, tasks: map<Pid, Task>, ids: set<CopyId>,
                     w: Pid, k: CopyId)
    requires w in tasks && tasks[w] == Pausing(c, up, k, AtMarkProcessing) && item.status != COMPLETE
    ensures MarkingProcessing(Scene(c, up, item, q, tasks, ids), w, 0, true)
         == Scene(c, up, Processing(item, 0), q, tasks[w := Pausing(c, up, k, AtDownload)], ids)
  {
    var items := map[up.jobId := item];
    assert items[up.jobId := Processing(item, 0)] == map[up.jobId := Processing(item, 0)];
  }

  /** It finds the bytes undecodable. */
  lemma FindsUndecodable(c: Config, up: Upload, item: Item, q: map<CopyId, Copy>, tasks: map<Pid, Task>,
                         ids: set<CopyId>, w: Pid, k: CopyId, reason: string)
    requires Workable(c, up) && Renders(c, up.data, Undecodable(reason))
    requires w in tasks && tasks[w] == Pausing(c, up, k, AtDownload)
    requires Reachable(c, Scene(c, up, item, q, tasks, ids))
    ensures Reachable(c, Scene(c, up, item, q, tasks[w := Pausing(c, up, k, AtMarkFailed(reason))], ids))
  {
    ReachWorkerStep(c, Scene(c, up, item, q, tasks, ids), Download(w, Undecodable(reason)));
  }

  /** It records the failure. */
  lemma Fails(c: Config, up: Upload, item: Item, q: map<CopyId, Copy>, tasks: map<Pid, Task>, ids: set<CopyId>,
              w: Pid, k: CopyId, reason: string)
    requires w in tasks && tasks[w] == Pausing(c, up, k, AtMarkFailed(reason))
    requires Reachable(c, Scene(c, up, item, q, tasks, ids))
    ensures Reachable(c, Scene(c, up, Failed(item, reason, 0), q, tasks[w := Pausing(c, up, k, AtDelete)], ids))
  {
    var s := Scene(c, up, item, q, tasks, ids);
    ReachWorkerStep(c, s, MarkFailed(w, 0, true));
    assert s.items[up.jobId := Failed(item, reason, 0)] == map[up.jobId := Failed(item, reason, 0)];
  }

  /** It deletes its copy. */
  lemma Drops(c: Config, up: Upload, item: Item, q: map<CopyId, Copy>, tasks: map<Pid, Task>, ids: set<CopyId>,
              w: Pid, k: CopyId)
    requires w in tasks && tasks[w] == Pausing(c, up, k, AtDelete)
    requires Reachable(c, Scene(c, up, item, q, tasks, ids))
    ensures Reachable(c, Scene(c, up, item, q - {k}, tasks - {w}, ids))
  {
    ReachWorkerStep(c, Scene(c, up, item, q, tasks, ids), Delete(w, true, true));
  }

  /** It crashes. */
  lemma Crashes(c: Config, up: Upload, item: Item, q: map<CopyId, Copy>, tasks: map<Pid, Task>, ids: set<CopyId>,
                w: Pid)
    requires w in tasks && Reachable(c, Scene(c, up, item, q, tasks, ids))
    ensures Reachable(c, Scene(c, up, item, q, tasks - {w}, ids))
  {
    ReachWorkerStep(c, Scene(c, up, item, q, tasks, ids), WorkerStop(w));
  }

  /** A message in flight becomes visible again. */
  lemma BackInSight(c: Config, up: Upload, item: Item, q: map<CopyId, Copy>, tasks: map<Pid, Task>, ids: set<CopyId>,
                    k: CopyId)
    requires k in q && !q[k].visible && Reachable(c, Scene(c, up, item, q, tasks, ids))
    ensures Reachable(c, Scene(c, up, item, q[k := q[k].(visible := true)], tasks, ids))
  {
    ReachQueueStep(c, Scene(c, up, item, q, tasks, ids), Expire(k));
  }

  // -- where the runs of two workers start ---------------------------------------------

  ghost function OneTaken(c: Config, up: Upload, ids: set<CopyId>): map<CopyId, Copy> {
    Copies(c, up, ids)[0 := Copy(BodyFor(c, up), 1, false)]
  }

  ghost function FailingTask(c: Config, up: Upload, reason: string): Task {
    Pausing(c, up, 0, AtMarkFailed(reason))
  }

  /** Worker 1 has received copy 0 and looked the job up. */
  lemma FirstLooks(c: Config, up: Upload, ids: set<CopyId>)
    requires Admissible(c, up) && Workable(c, up) && c.maxReceives >= 1 && 0 in ids
    ensures
      var tasks := map[1 := Pausing(c, up, 0, AtMarkProcessing)];
      Reachable(c, Scene(c, up, PendingItem(c, up), OneTaken(c, up, ids), tasks, ids))
  {
    Enqueue(c, up, ids);
    TakeUp(c, up, PendingItem(c, up), Copies(c, up, ids), map[], ids, 1, 0);
    var task := Pausing(c, up, 0, AtMarkProcessing);
    assert map[][1 := task] == map[1 := task];
  }

  /** It has won the conditional write. */
  lemma FirstWins(c: Config, up: Upload, ids: set<CopyId>)
    requires Admissible(c, up) && Workable(c, up) && c.maxReceives >= 1 && 0 in ids
    ensures
      var tasks := map[1 := Pausing(c, up, 0, AtDownload)];
      Reachable(c, Scene(c, up, Processing(PendingItem(c, up), 0), OneTaken(c, up, ids), tasks, ids))
  {
    var before, after := Pausing(c, up, 0, AtMarkProcessing), Pausing(c, up, 0, AtDownload);
    FirstLooks(c, up, ids);
    Win(c, up, PendingItem(c, up), OneTaken(c, up, ids), map[1 := before], ids, 1, 0);
    assert map[1 := before][1 := after] == map[1 := after];
  }

  /** It finds the bytes undecodable and is about to say so. */
  lemma AboutToFail(c: Config, up: Upload, ids: set<CopyId>, reason: string)
    requires Admissible(c, up) && Workable(c, up) && c.maxReceives >= 1 && 0 in ids
    requires Renders(c, up.data, Undecodable(reason))
    ensures
      var tasks := map[1 := FailingTask(c, up, reason)];
      Reachable(c, Scene(c, up, Processing(PendingItem(c, up), 0), OneTaken(c, up, ids), tasks, ids))
  {
    var before, after := Pausing(c, up, 0, AtDownload), FailingTask(c, up, reason);
    FirstWins(c, up, ids);
    var item := Processing(PendingItem(c, up), 0);
    FindsUndecodable(c, up, item, OneTaken(c, up, ids), map[1 := before], ids, 1, 0, reason);
    assert map[1 := before][1 := after] == map[1 := after];
  }
}
