/** What is still possible: an unfinished job can be completed for as long as a
    message for it may be received. */
module Progress {
  import opened Domain
  import opened Protocol
  import opened Invariant
  import opened Scenes
  import opened Limits

  /** Job `up` is enqueued and workable, its bytes can render to `r`, and copy `k`
      carries it. */
  ghost predicate Promising(c: Config, s: State, k: CopyId, r: Picture, up: Upload) {
    && up.jobId in s.uploads && s.uploads[up.jobId] == up && Workable(c, up) && Renders(c, up.data, r)
    && k in s.queue && IsFor(s.queue[k].body, up.jobId) && s.queue[k].receives < c.maxReceives
  }

  /** What the invariant says of a promising job. */
  lemma PromisingFacts(c: Config, s: State, k: CopyId, r: Picture, up: Upload)
    requires Inv(c, s) && Promising(c, s, k, r, up)
    ensures up.jobId in s.items && s.items[up.jobId].base.Some? && Stored(c, s, up) && s.queue[k].body == BodyFor(c, up)
  {
    assert BodyOk(c, s, s.queue[k].body) && ItemOk(c, s, up.jobId);
  }

  /** If copy `k` is in flight it becomes visible. */
  lemma InSight(c: Config, s: State, k: CopyId) returns (t: State)
    requires k in s.queue
    ensures Leads(c, s, t) && t == s.(queue := s.queue[k := s.queue[k].(visible := true)])
  {
    if s.queue[k].visible {
      t := s;
      assert s.queue[k := s.queue[k].(visible := true)] == s.queue;
      assert Path(c, s, [], s);
    } else {
      LeadsBy(c, s, Expire(k));
      t := Apply(c, s, Expire(k));
    }
  }

  /** Worker `w` receives it, looks the job up and wins the conditional write. */
  lemma Receives(c: Config, s: State, w: Pid, k: CopyId, up: Upload) returns (t: State)
    requires Receivable(c, s, k) && w !in s.tasks && s.queue[k].body == BodyFor(c, up) && Workable(c, up)
    ensures Leads(c, s, t) && t.items == s.items && t.uploads == s.uploads && t.objects == s.objects
    ensures w in t.tasks && t.tasks[w] == Pausing(c, up, k, AtLookup)
  {
    LeadsByWorker(c, s, Receive(w, k));
    t := WorkerApply(c, s, Receive(w, k));
  }

  lemma LooksAtIt(c: Config, s: State, w: Pid, k: CopyId, up: Upload) returns (t: State)
    requires w in s.tasks && s.tasks[w] == Pausing(c, up, k, AtLookup) && Workable(c, up)
    requires up.jobId in s.items && s.items[up.jobId].base.Some? && s.items[up.jobId].status != COMPLETE
    ensures Leads(c, s, t) && t.items == s.items && t.uploads == s.uploads && t.objects == s.objects
    ensures w in t.tasks && t.tasks[w] == Pausing(c, up, k, AtMarkProcessing)
  {
    LeadsByWorker(c, s, Lookup(w));
    t := WorkerApply(c, s, Lookup(w));
  }

  lemma WinsIt(c: Config, s: State, w: Pid, k: CopyId, up: Upload) returns (t: State)
    requires w in s.tasks && s.tasks[w] == Pausing(c, up, k, AtMarkProcessing)
    requires up.jobId in s.items && s.items[up.jobId].status != COMPLETE
    ensures Leads(c, s, t) && up.jobId in t.items && t.uploads == s.uploads && t.objects == s.objects
    ensures w in t.tasks && t.tasks[w] == Pausing(c, up, k, AtDownload)
  {
    LeadsByWorker(c, s, MarkProcessing(w, 0, true));
    t := WorkerApply(c, s, MarkProcessing(w, 0, true));
  }

  lemma TakesOver(c: Config, s: State, w: Pid, k: CopyId, up: Upload) returns (t: State)
    requires Receivable(c, s, k) && w !in s.tasks && s.queue[k].body == BodyFor(c, up) && Workable(c, up)
    requires up.jobId in s.items && s.items[up.jobId].base.Some? && s.items[up.jobId].status != COMPLETE
    ensures Leads(c, s, t) && up.jobId in t.items && t.uploads == s.uploads && t.objects == s.objects
    ensures w in t.tasks && t.tasks[w] == Pausing(c, up, k, AtDownload)
  {
    var s1 := Receives(c, s, w, k, up);
    var s2 := LooksAtIt(c, s1, w, k, up);
    LeadsOn(c, s, s1, s2);
    t := WinsIt(c, s2, w, k, up);
    LeadsOn(c, s, s2, t);
  }

  /** From any reachable state a workable job whose bytes can render can still be
      completed, if a worker is idle and a copy of its message has a receive
      left; whatever has failed before, and whoever else holds a copy. */
  lemma CanStillComplete(c: Config, s: State, w: Pid, k: CopyId, r: Picture, up: Upload)
    requires Reachable(c, s) && w !in s.tasks && Promising(c, s, k, r, up)
    ensures exists t :: Leads(c, s, t) && up.jobId in t.items && t.items[up.jobId].status == COMPLETE
  {
    ReachableKeeps(c, s);
    PromisingFacts(c, s, k, r, up);
    if s.items[up.jobId].status == COMPLETE {
      assert Path(c, s, [], s);
    } else {
      var s1 := InSight(c, s, k);
      var s2 := TakesOver(c, s1, w, k, up);
      LeadsOn(c, s, s1, s2);
      RenderUp(c, s2, w, r, up);
      var t :| Leads(c, s2, t) && CompletedBy(s2, t, w, up);
      LeadsOn(c, s, s2, t);
    }
  }
}
