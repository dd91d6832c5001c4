/** What several workers on one job can do to each other: two promises about the
    conditional write, and exactly when they hold. */
module Contention {
  import opened Domain
  import opened Protocol
  import opened Invariant
  import opened Guarantees
  import opened AtomicSpec
  import opened Scenes
  import opened Limits

  // -- FAILED is not final -----------------------------------------------------------

  /** The step `e` takes the job of `up` from FAILED back to PROCESSING. */
  ghost predicate Reopens(c: Config, s: State, e: Event, up: Upload) {
    var j := up.jobId;
    && Reachable(c, s) && Enabled(c, s, e)
    && j in s.uploads && s.uploads[j] == up && j in s.items && s.items[j].status == FAILED
    && j in Apply(c, s, e).items && Apply(c, s, e).items[j].status == PROCESSING
  }

  /** Worker 2 has looked up the job with its own copy of the message before
      worker 1 records the failure. */
  lemma CanReopen(c: Config, up: Upload, reason: string)
    requires Admissible(c, up) && Workable(c, up) && c.maxReceives >= 1
    requires Renders(c, up.data, Undecodable(reason))
    ensures exists s, e :: Reopens(c, s, e, up)
  {
    var item, q := Processing(PendingItem(c, up), 0), OneTaken(c, up, {0, 1});
    var one, two := FailingTask(c, up, reason), Pausing(c, up, 1, AtMarkProcessing);
    AboutToFail(c, up, {0, 1}, reason);
    TakeUp(c, up, item, q, map[1 := one], {0, 1}, 2, 1);
    Fails(c, up, item, q[1 := Once(q[1])], map[1 := one][2 := two], {0, 1}, 1, 0, reason);
    var tasks := map[1 := one][2 := two][1 := Pausing(c, up, 0, AtDelete)];
    SecondReopens(c, up, Failed(item, reason, 0), q[1 := Once(q[1])], tasks);
  }

  lemma SecondReopens(c: Config, up: Upload, item: Item, q: map<CopyId, Copy>, tasks: map<Pid, Task>)
    requires Reachable(c, Scene(c, up, item, q, tasks, {0, 1})) && item.status == FAILED
    requires 2 in tasks && tasks[2] == Pausing(c, up, 1, AtMarkProcessing)
    ensures exists s, e :: Reopens(c, s, e, up)
  {
    assert Reopens(c, Scene(c, up, item, q, tasks, {0, 1}), MarkProcessing(2, 0, true), up);
  }

  lemma ProcessingIsSent(c: Config, s: State, j: JobId)
    requires ItemsOk(c, s) && j in s.items && s.items[j].status == PROCESSING
    ensures j in s.sent
  {
    assert ItemOk(c, s, j);
  }

  lemma SendWritesNothing(c: Config, s: State, e: Event)
    requires Enabled(c, s, e) && e.Send?
    ensures Apply(c, s, e).items == s.items
  {
  }

  /** Only an enqueued job is ever reopened. */
  lemma ReopenedIsSent(c: Config, s: State, e: Event, up: Upload)
    requires Inv(c, s) && Reopens(c, s, e, up)
    ensures up.jobId in s.sent
  {
    StepKeeps(c, s, e);
    ProcessingIsSent(c, Apply(c, s, e), up.jobId);
    if e.Send? { SendWritesNothing(c, s, e); } else { SentOnlyBySend(c, s, e); }
  }

  lemma ReopensNeeds(c: Config, s: State, e: Event, up: Upload)
    requires Reopens(c, s, e, up)
    ensures c.maxReceives >= 1 && Workable(c, up) && CanBeUndecodable(c, up.data)
  {
    ReachableKeeps(c, s);
    ReopenedIsSent(c, s, e, up);
    SentRecordStep(c, s, e, up.jobId);
    assert ItemOk(c, s, up.jobId);
    WorkIsReceived(c, s);
  }

  /** If any worker holds a message, messages can be received. */
  lemma WorkIsReceived(c: Config, s: State)
    requires Reachable(c, s)
    ensures s.tasks != map[] ==> c.maxReceives >= 1
  {
    if c.maxReceives == 0 {
      var es :| Path(c, INIT, es, s);
      NothingReceived(c, INIT, es, s);
    }
  }

  /** The condition of `mark_processing` lets FAILED through: a failed job can be
      reopened exactly if messages are received at all, the workers would take
      the job up, and its bytes can fail to decode. */
  lemma ReopensIff(c: Config, up: Upload)
    requires Admissible(c, up)
    ensures (exists s, e :: Reopens(c, s, e, up))
      <==> c.maxReceives >= 1 && Workable(c, up) && CanBeUndecodable(c, up.data)
  {
    if s, e :| Reopens(c, s, e, up) { ReopensNeeds(c, s, e, up); }
    if c.maxReceives >= 1 && Workable(c, up) && CanBeUndecodable(c, up.data) {
      var reason :| Renders(c, up.data, Undecodable(reason));
      CanReopen(c, up, reason);
    }
  }

  // -- a duplicate delivery is not a no-op ---------------------------------------------

  ghost predicate HasWon(s: State, w: Pid, j: JobId) {
    Holds(s, w) && s.tasks[w].body.msg.jobId == j && s.tasks[w].at == AtDownload
  }

  /** Two workers have won the conditional write for the job of `up` and are both
      about to render it. */
  ghost predicate BothWon(s: State, v: Pid, w: Pid, up: Upload) {
    && v != w && up.jobId in s.uploads && s.uploads[up.jobId] == up
    && HasWon(s, v, up.jobId) && HasWon(s, w, up.jobId)
  }

  lemma BothCanWin(c: Config, up: Upload)
    requires Admissible(c, up) && Workable(c, up) && c.maxReceives >= 1
    ensures exists s, v, w :: Reachable(c, s) && BothWon(s, v, w, up)
  {
    var item, q := Processing(PendingItem(c, up), 0), OneTaken(c, up, {0, 1});
    var one, two := Pausing(c, up, 0, AtDownload), Pausing(c, up, 1, AtMarkProcessing);
    FirstWins(c, up, {0, 1});
    TakeUp(c, up, item, q, map[1 := one], {0, 1}, 2, 1);
    Win(c, up, item, q[1 := Once(q[1])], map[1 := one][2 := two], {0, 1}, 2, 1);
    var tasks := map[1 := one][2 := two][2 := Pausing(c, up, 1, AtDownload)];
    assert BothWon(Scene(c, up, Processing(item, 0), q[1 := Once(q[1])], tasks, {0, 1}), 1, 2, up);
  }

  /** A duplicate delivery can be rendered a second time exactly if messages are
      received at all and the workers would take the job up: the conditional
      write excludes nothing but a COMPLETE record. */
  lemma BothWinIff(c: Config, up: Upload)
    requires Admissible(c, up)
    ensures (exists s, v, w :: Reachable(c, s) && BothWon(s, v, w, up)) <==> c.maxReceives >= 1 && Workable(c, up)
  {
    if s, v, w :| Reachable(c, s) && BothWon(s, v, w, up) {
      ReachableKeeps(c, s);
      assert TaskOk(c, s, s.tasks[v]);
      WorkIsReceived(c, s);
    }
    if c.maxReceives >= 1 && Workable(c, up) { BothCanWin(c, up); }
  }
}
