/** A run of the worker class is a path of the protocol. */
module WorkerPaths {
  import opened Wrappers
  import opened PyValues
  import opened Keys
  import opened Domain
  import opened Protocol
  import opened Clients
  import opened Worker

  /** `s` once worker `w` is idle again and the services are as in `a`. */
  ghost function Idled(s: State, a: Aws, w: Pid): State {
    s.(objects := a.objects, items := a.items, queue := a.queue, issued := a.issued, tasks := s.tasks - {w})
  }

  lemma PathCons(c: Config, s: State, e: Event, es: seq<Event>, t: State)
    requires Enabled(c, s, e) && Path(c, Apply(c, s, e), es, t)
    ensures Path(c, s, [e] + es, t)
  {
    assert ([e] + es)[1..] == es;
  }

  /** A step of worker `w` followed by the rest of its run. */
  lemma Prepend(c: Config, s: State, e: Event, s': State, es: seq<Event>, a: Aws, w: Pid) returns (all: seq<Event>)
    requires Enabled(c, s, e) && s' == Apply(c, s, e) && Path(c, s', es, Idled(s', a, w))
    requires s'.tasks - {w} == s.tasks - {w} && Idled(s', a, w) == Idled(s, a, w).(tasks := s'.tasks - {w})
    ensures Path(c, s, all, Idled(s, a, w))
  {
    PathCons(c, s, e, es, Idled(s', a, w));
    all := [e] + es;
  }

  lemma StopPath(c: Config, s: State, w: Pid) returns (es: seq<Event>)
    requires w in s.tasks
    ensures Path(c, s, es, Idled(s, ServicesOf(s), w))
  {
    es := [WorkerStop(w)];
    assert es[1..] == [];
  }

  /** A call that took effect but raised, then the worker gives up. */
  lemma EffectPath(c: Config, s: State, e: Event, w: Pid) returns (es: seq<Event>)
    requires Enabled(c, s, e) && w in s.tasks && Apply(c, s, e).tasks == s.tasks
    ensures Path(c, s, es, Idled(Apply(c, s, e), ServicesOf(Apply(c, s, e)), w))
  {
    var rest := StopPath(c, Apply(c, s, e), w);
    es := [e] + rest;
    PathCons(c, s, e, rest, Idled(Apply(c, s, e), ServicesOf(Apply(c, s, e)), w));
  }

  lemma DropPath(c: Config, s: State, w: Pid, f: Fate) returns (es: seq<Event>)
    requires w in s.tasks && s.tasks[w].at == AtDelete
    ensures Path(c, s, es, Idled(s, Dropped(ServicesOf(s), Some(s.tasks[w].copy), f), w))
  {
    if f.Fine? {
      es := [Delete(w, true, true)];
      assert es[1..] == [];
    } else if f.took {
      es := EffectPath(c, s, Delete(w, true, false), w);
    } else {
      es := StopPath(c, s, w);
    }
  }

  lemma FailPath(c: Config, s: State, w: Pid, luck: Luck) returns (es: seq<Event>)
    requires Holds(s, w) && s.tasks[w].at.AtMarkFailed?
    ensures
      var t := s.tasks[w];
      Path(c, s, es, Idled(s, FailedJob(ServicesOf(s), t.body.msg.jobId, Some(t.copy), t.at.reason, luck).aws, w))
  {
    if luck.finish.Fine? {
      var e := MarkFailed(w, luck.ended, true);
      var s' := Apply(c, s, e);
      var rest := DropPath(c, s', w, luck.drop);
      es := Prepend(c, s, e, s', rest, Dropped(ServicesOf(s'), Some(s.tasks[w].copy), luck.drop), w);
    } else if luck.finish.took {
      es := EffectPath(c, s, MarkFailed(w, luck.ended, false), w);
    } else {
      es := StopPath(c, s, w);
    }
  }

  lemma FinishPath(c: Config, s: State, w: Pid, luck: Luck) returns (es: seq<Event>)
    requires Holds(s, w) && s.tasks[w].at.AtMarkComplete?
    ensures
      var t := s.tasks[w];
      Path(c, s, es, Idled(s, Finished(ServicesOf(s), t.body.msg.jobId, Some(t.copy), t.at.r, luck).aws, w))
  {
    if luck.finish.Fine? {
      var e := MarkComplete(w, luck.ended, luck.ms, true);
      var s' := Apply(c, s, e);
      var rest := DropPath(c, s', w, luck.drop);
      es := Prepend(c, s, e, s', rest, Dropped(ServicesOf(s'), Some(s.tasks[w].copy), luck.drop), w);
    } else if luck.finish.took {
      es := EffectPath(c, s, MarkComplete(w, luck.ended, luck.ms, false), w);
    } else {
      es := StopPath(c, s, w);
    }
  }

  /** The rest of a run whose next call is the `n`-th upload, or the completion. */
  ghost function UploadRest(c: Config, a: Aws, j: JobId, k: CopyId, r: Picture, n: nat, luck: Luck): Aws
    requires n <= |r.thumbs|
  {
    var (objects, all) := Uploaded(a.objects, c.bucket, j, r.thumbs, n, luck.put);
    if all then Finished(a.(objects := objects), j, Some(k), r, luck).aws else a.(objects := objects)
  }

  lemma UploadRestStep(c: Config, a: Aws, j: JobId, k: CopyId, r: Picture, n: nat, luck: Luck)
    requires n < |r.thumbs|
    ensures
      var stored := a.(objects := a.objects[Loc(c.bucket, Thumb(j, r.thumbs[n].size)) := r.thumbs[n].data]);
      && (luck.put(n).Fine? ==> UploadRest(c, a, j, k, r, n, luck) == UploadRest(c, stored, j, k, r, n + 1, luck))
      && (luck.put(n).Raises? ==> UploadRest(c, a, j, k, r, n, luck) == if luck.put(n).took then stored else a)
  {
  }

  lemma UploadRestEnd(c: Config, a: Aws, j: JobId, k: CopyId, r: Picture, luck: Luck)
    ensures UploadRest(c, a, j, k, r, |r.thumbs|, luck) == Finished(a, j, Some(k), r, luck).aws
  {
    assert a.(objects := a.objects) == a;
  }

  lemma UploadRaisedPath(c: Config, s: State, w: Pid, r: Picture, n: nat, luck: Luck) returns (es: seq<Event>)
    requires Holds(s, w) && n < |r.thumbs| && s.tasks[w].at == AtUpload(r, n) && luck.put(n).Raises?
    ensures
      var t := s.tasks[w];
      Path(c, s, es, Idled(s, UploadRest(c, ServicesOf(s), t.body.msg.jobId, t.copy, r, n, luck), w))
  {
    UploadRestStep(c, ServicesOf(s), s.tasks[w].body.msg.jobId, s.tasks[w].copy, r, n, luck);
    if luck.put(n).took {
      es := EffectPath(c, s, UploadThumb(w, false), w);
    } else {
      es := StopPath(c, s, w);
    }
  }

  lemma {:induction false} UploadPath(c: Config, s: State, w: Pid, r: Picture, n: nat, luck: Luck)
    returns (es: seq<Event>)
    requires Holds(s, w) && n <= |r.thumbs| && s.tasks[w].at == AfterUpload(r, n)
    ensures
      var t := s.tasks[w];
      Path(c, s, es, Idled(s, UploadRest(c, ServicesOf(s), t.body.msg.jobId, t.copy, r, n, luck), w))
    decreases |r.thumbs| - n
  {
    if n == |r.thumbs| {
      es := FinishPath(c, s, w, luck);
      UploadRestEnd(c, ServicesOf(s), s.tasks[w].body.msg.jobId, s.tasks[w].copy, r, luck);
    } else if luck.put(n).Raises? {
      es := UploadRaisedPath(c, s, w, r, n, luck);
    } else {
      var s' := Thumbed(c, s, w, r, n);
      var rest := UploadPath(c, s', w, r, n + 1, luck);
      UploadRestStep(c, ServicesOf(s), s.tasks[w].body.msg.jobId, s.tasks[w].copy, r, n, luck);
      es := Prepend(c, s, UploadThumb(w, true), s', rest,
                    UploadRest(c, ServicesOf(s'), s.tasks[w].body.msg.jobId, s.tasks[w].copy, r, n + 1, luck), w);
    }
  }

  lemma Thumbed(c: Config, s: State, w: Pid, r: Picture, n: nat) returns (t: State)
    requires Holds(s, w) && n < |r.thumbs| && s.tasks[w].at == AtUpload(r, n)
    ensures WorkerEnabled(c, s, UploadThumb(w, true)) && t == Apply(c, s, UploadThumb(w, true))
    ensures w in t.tasks && t.tasks[w] == s.tasks[w].(at := AfterUpload(r, n + 1)) && t.tasks - {w} == s.tasks - {w}
    ensures
      var loc := Loc(c.bucket, Thumb(s.tasks[w].body.msg.jobId, r.thumbs[n].size));
      t == s.(objects := s.objects[loc := r.thumbs[n].data],
                    tasks := t.tasks)
  {
    t := Apply(c, s, UploadThumb(w, true));
  }

  /** What the worker makes of the bytes it would download is a possible result. */
  ghost predicate CanRenderAt(c: Config, objects: map<Loc, Bytes>, msg: Message, luck: Luck) {
    var loc := Loc(c.bucket, msg.inputKey);
    loc in objects ==> Renders(c, objects[loc], luck.render(objects[loc]))
  }

  ghost predicate CanRender(c: Config, s: State, w: Pid, luck: Luck)
    requires Holds(s, w)
  {
    CanRenderAt(c, s.objects, s.tasks[w].body.msg, luck)
  }

  lemma Downloads(c: Config, s: State, w: Pid, r: Rendered) returns (t: State)
    requires WorkerEnabled(c, s, Download(w, r))
    ensures t == Apply(c, s, Download(w, r)) && ServicesOf(t) == ServicesOf(s) && t.tasks - {w} == s.tasks - {w}
    ensures t == At(s, w, if r.Image? then AfterUpload(r, 0) else AtMarkFailed(r.reason))
  {
    t := Apply(c, s, Download(w, r));
  }

  lemma RenderPath(c: Config, s: State, w: Pid, luck: Luck) returns (es: seq<Event>)
    requires Holds(s, w) && s.tasks[w].at == AtDownload
    requires CanRender(c, s, w, luck)
    ensures
      var t := s.tasks[w];
      Path(c, s, es, Idled(s, Rendering(c, ServicesOf(s), t.body.msg, Some(t.copy), luck).aws, w))
  {
    var t := s.tasks[w];
    var loc := Loc(c.bucket, t.body.msg.inputKey);
    if luck.fetch.Raises? || loc !in s.objects {
      es := StopPath(c, s, w);
    } else {
      var r := luck.render(s.objects[loc]);
      var e := Download(w, r);
      var s' := Downloads(c, s, w, r);
      var rest;
      if r.Undecodable? {
        rest := FailPath(c, s', w, luck);
      } else {
        rest := UploadPath(c, s', w, r, 0, luck);
      }
      es := Prepend(c, s, e, s', rest, Rendering(c, ServicesOf(s), t.body.msg, Some(t.copy), luck).aws, w);
    }
  }

  lemma WonPath(c: Config, s: State, w: Pid, luck: Luck) returns (es: seq<Event>)
    requires Holds(s, w) && s.tasks[w].at == AtMarkProcessing && luck.mark.Fine?
    requires MayProcess(s.items, s.tasks[w].body.msg.jobId)
    requires CanRender(c, s, w, luck)
    ensures
      var t := s.tasks[w];
      Path(c, s, es, Idled(s, Contended(c, ServicesOf(s), t.body.msg, Some(t.copy), luck).aws, w))
  {
    var t, e := s.tasks[w], MarkProcessing(w, luck.started, true);
    var s' := Apply(c, s, e);
    var rest := RenderPath(c, s', w, luck);
    es := Prepend(c, s, e, s', rest, Rendering(c, ServicesOf(s'), t.body.msg, Some(t.copy), luck).aws, w);
  }

  lemma LostPath(c: Config, s: State, w: Pid, luck: Luck) returns (es: seq<Event>)
    requires Holds(s, w) && s.tasks[w].at == AtMarkProcessing && luck.mark.Fine?
    requires !MayProcess(s.items, s.tasks[w].body.msg.jobId)
    ensures Path(c, s, es, Idled(s, Dropped(ServicesOf(s), Some(s.tasks[w].copy), luck.drop), w))
  {
    var e := MarkProcessing(w, luck.started, true);
    var s' := Apply(c, s, e);
    var rest := DropPath(c, s', w, luck.drop);
    es := Prepend(c, s, e, s', rest, Dropped(ServicesOf(s), Some(s.tasks[w].copy), luck.drop), w);
  }

  lemma ContendPath(c: Config, s: State, w: Pid, luck: Luck) returns (es: seq<Event>)
    requires Holds(s, w) && s.tasks[w].at == AtMarkProcessing
    requires CanRender(c, s, w, luck)
    ensures
      var t := s.tasks[w];
      Path(c, s, es, Idled(s, Contended(c, ServicesOf(s), t.body.msg, Some(t.copy), luck).aws, w))
  {
    if luck.mark.Fine? {
      if MayProcess(s.items, s.tasks[w].body.msg.jobId) {
        es := WonPath(c, s, w, luck);
      } else {
        es := LostPath(c, s, w, luck);
      }
    } else if luck.mark.took {
      es := EffectPath(c, s, MarkProcessing(w, luck.started, false), w);
    } else {
      es := StopPath(c, s, w);
    }
  }

  /** After the lookup has sent the worker somewhere else than to its conditional
      write. */
  lemma LookedUpPath(c: Config, s: State, w: Pid, luck: Luck) returns (es: seq<Event>)
    requires Holds(s, w) && luck.get.Fine? && s.tasks[w].at != AtMarkProcessing
    requires AfterLookup(c, s.items, s.tasks[w].body.msg) == Some(s.tasks[w].at)
    ensures
      var t := s.tasks[w];
      Path(c, s, es, Idled(s, Processed(c, ServicesOf(s), t.body.msg, Some(t.copy), luck).aws, w))
  {
    match s.tasks[w].at {
      case AtDelete => es := DropPath(c, s, w, luck.drop);
      case _ => es := FailPath(c, s, w, luck);
    }
  }

  /** A lookup that succeeds but does not lead to a conditional write. */
  lemma FoundPath(c: Config, s: State, w: Pid, luck: Luck) returns (es: seq<Event>)
    requires Holds(s, w) && s.tasks[w].at == AtLookup && luck.get.Fine?
    requires AfterLookup(c, s.items, s.tasks[w].body.msg) != Some(AtMarkProcessing)
    ensures
      var t := s.tasks[w];
      Path(c, s, es, Idled(s, Processed(c, ServicesOf(s), t.body.msg, Some(t.copy), luck).aws, w))
  {
    var t := s.tasks[w];
    var s' := LooksUp(c, s, w);
    var rest := [];
    if AfterLookup(c, s.items, t.body.msg).Some? {
      rest := LookedUpPath(c, s', w, luck);
    } else {
      UnreadableGivesUp(c, s, w, luck);
    }
    es := Prepend(c, s, Lookup(w), s', rest, Processed(c, ServicesOf(s), t.body.msg, Some(t.copy), luck).aws, w);
  }

  lemma LooksUp(c: Config, s: State, w: Pid) returns (t: State)
    requires Holds(s, w) && s.tasks[w].at == AtLookup
    ensures Enabled(c, s, Lookup(w)) && t == Apply(c, s, Lookup(w)) && t == LookingUp(c, s, w)
    ensures ServicesOf(t) == ServicesOf(s) && t.tasks - {w} == s.tasks - {w}
    ensures AfterLookup(c, s.items, s.tasks[w].body.msg).Some? ==>
      t == At(s, w, AfterLookup(c, s.items, s.tasks[w].body.msg).value)
  {
    t := Apply(c, s, Lookup(w));
  }

  lemma UnreadableGivesUp(c: Config, s: State, w: Pid, luck: Luck)
    requires Holds(s, w) && luck.get.Fine? && AfterLookup(c, s.items, s.tasks[w].body.msg).None?
    ensures
      var t := s.tasks[w];
      Idled(LookingUp(c, s, w), Processed(c, ServicesOf(s), t.body.msg, Some(t.copy), luck).aws, w)
         == LookingUp(c, s, w)
  {
    assert s.tasks - {w} - {w} == s.tasks - {w};
  }

  /** The run from the lookup on, if it does not come to a conditional write. */
  lemma ShortPath(c: Config, s: State, w: Pid, luck: Luck) returns (es: seq<Event>)
    requires Holds(s, w) && s.tasks[w].at == AtLookup
    requires luck.get.Raises? || AfterLookup(c, s.items, s.tasks[w].body.msg) != Some(AtMarkProcessing)
    ensures
      var t := s.tasks[w];
      Path(c, s, es, Idled(s, Processed(c, ServicesOf(s), t.body.msg, Some(t.copy), luck).aws, w))
  {
    if luck.get.Raises? {
      es := StopPath(c, s, w);
    } else {
      es := FoundPath(c, s, w, luck);
    }
  }

  /** Worker `w` that receives copy `k` comes to its conditional write. */
  ghost predicate Contends(c: Config, s: State, k: CopyId, luck: Luck)
    requires k in s.queue
  {
    && s.queue[k].body.Job? && s.queue[k].body.msg.version <= MESSAGE_SCHEMA_VERSION && luck.get.Fine?
    && AfterLookup(c, s.items, s.queue[k].body.msg) == Some(AtMarkProcessing)
  }

  ghost function Contending(s: State, w: Pid, k: CopyId): State
    requires k in s.queue
  {
    Received(s, k).(tasks := s.tasks[w := Task(k, s.queue[k].body, AtMarkProcessing)])
  }

  lemma ContendingIsReached(c: Config, s: State, w: Pid, k: CopyId, luck: Luck)
    requires w !in s.tasks && Receivable(c, s, k) && Contends(c, s, k, luck)
    ensures Path(c, s, [Receive(w, k), Lookup(w)], Contending(s, w, k))
  {
    var s' := Apply(c, s, Receive(w, k));
    assert Apply(c, s', Lookup(w)) == Contending(s, w, k);
    assert [Receive(w, k), Lookup(w)][1..] == [Lookup(w)] && [Lookup(w)][1..] == [];
  }

  /** Whatever the rest of the system does between the lookup and the conditional
      write, as long as it leaves this worker alone, the whole run is a path: to
      that point, and on to where `Contended` takes the services found there. */
  lemma InterleavedIsPath(c: Config, s: State, w: Pid, k: CopyId, luck: Luck, fs: seq<Event>, t: State)
    returns (es: seq<Event>)
    requires w !in s.tasks && Receivable(c, s, k) && Contends(c, s, k, luck)
    requires Path(c, Contending(s, w, k), fs, t) && w in t.tasks && t.tasks[w] == Contending(s, w, k).tasks[w]
    requires CanRender(c, t, w, luck)
    ensures Path(c, s, es, Idled(t, Contended(c, ServicesOf(t), s.queue[k].body.msg, Some(k), luck).aws, w))
  {
    ContendingIsReached(c, s, w, k, luck);
    var rest := ContendPath(c, t, w, luck);
    PathConcat(c, s, [Receive(w, k), Lookup(w)], Contending(s, w, k), fs, t);
    es := [Receive(w, k), Lookup(w)] + fs + rest;
    PathConcat(c, s, [Receive(w, k), Lookup(w)] + fs, t, rest,
               Idled(t, Contended(c, ServicesOf(t), s.queue[k].body.msg, Some(k), luck).aws, w));
  }

  /** If all that other processes do to the services in between is the rival
      write, a run of the worker class with that rival is a path. */
  lemma RivalledIsPath(c: Config, s: State, w: Pid, k: CopyId, luck: Luck, fs: seq<Event>, t: State)
    returns (es: seq<Event>)
    requires w !in s.tasks && Receivable(c, s, k) && Contends(c, s, k, luck)
    requires Path(c, Contending(s, w, k), fs, t) && w in t.tasks && t.tasks[w] == Contending(s, w, k).tasks[w]
    requires CanRender(c, t, w, luck)
    requires
      var got := ServicesOf(Received(s, k));
      ServicesOf(t) == got.(items := Interfered(got.items, s.queue[k].body.msg.jobId, luck.rival))
    ensures
      var ran := Handled(c, ServicesOf(Received(s, k)), Raw(Some(k), s.queue[k].body), luck);
      Path(c, s, es, Idled(t, ran.aws, w))
  {
    es := InterleavedIsPath(c, s, w, k, luck, fs, t);
  }

  /** Any other run: receiving copy `k` and handling it to the end is a path of the
      protocol that leaves the worker idle and the services exactly as `Handled`
      says. */
  lemma HandledIsPath(c: Config, s: State, w: Pid, k: CopyId, luck: Luck) returns (es: seq<Event>)
    requires w !in s.tasks && Receivable(c, s, k)
    requires Contends(c, s, k, luck) ==> luck.rival.None? && CanRender(c, Contending(s, w, k), w, luck)
    ensures
      var got := Received(s, k);
      var ran := Handled(c, ServicesOf(got), Raw(Some(k), s.queue[k].body), luck);
      Path(c, s, es, Idled(got, ran.aws, w))
  {
    var got := Received(s, k);
    var ran := Handled(c, ServicesOf(got), Raw(Some(k), s.queue[k].body), luck);
    if Contends(c, s, k, luck) {
      var t := Contending(s, w, k);
      assert Path(c, t, [], t);
      es := RivalledIsPath(c, s, w, k, luck, [], t);
      assert t.tasks - {w} == got.tasks - {w} == got.tasks;
    } else {
      es := ShortRunPath(c, s, w, k, luck);
    }
  }

  lemma ShortRunPath(c: Config, s: State, w: Pid, k: CopyId, luck: Luck) returns (es: seq<Event>)
    requires w !in s.tasks && Receivable(c, s, k) && !Contends(c, s, k, luck)
    ensures
      var got := Received(s, k);
      var ran := Handled(c, ServicesOf(got), Raw(Some(k), s.queue[k].body), luck);
      Path(c, s, es, Idled(got, ran.aws, w))
  {
    var e := Receive(w, k);
    var got, s' := Received(s, k), Apply(c, s, e);
    var rest := [];
    if w in s'.tasks {
      match s.queue[k].body {
        case Malformed => rest := DropPath(c, s', w, luck.drop);
        case Job(_) => rest := ShortPath(c, s', w, luck);
      }
    }
    assert s'.tasks - {w} == got.tasks - {w};
    assert got.tasks - {w} == got.tasks;
    es := [e] + rest;
    var ran := Handled(c, ServicesOf(got), Raw(Some(k), s.queue[k].body), luck);
    PathCons(c, s, e, rest, Idled(got, ran.aws, w));
  }

  // -- a run of the poll loop ----------------------------------------------------------

  /** The queue service's own moves are a path. */
  lemma {:induction false} MovesPath(c: Config, s: State, ms: seq<QueueMove>) returns (es: seq<Event>, t: State)
    ensures Path(c, s, es, t) && t.tasks == s.tasks
    ensures ServicesOf(t) == ServicesOf(s).(queue := MovedAll(c.maxReceives, s.queue, ms))
    decreases |ms|
  {
    es, t := [], s;
    if ms != [] {
      var fs, u := MovePath(c, s, ms[0]);
      var rest;
      rest, t := MovesPath(c, u, ms[1..]);
      PathConcat(c, s, fs, u, rest, t);
      es := fs + rest;
    }
  }

  lemma MovePath(c: Config, s: State, m: QueueMove) returns (es: seq<Event>, t: State)
    ensures Path(c, s, es, t) && t.tasks == s.tasks
    ensures ServicesOf(t) == ServicesOf(s).(queue := Moved(c.maxReceives, s.queue, m))
  {
    var e := match m case Expires(k) => Expire(k) case Redrives(k) => Redrive(k) case Loses(k) => ReceiveLost(k);
    if QueueEnabled(c, s, e) {
      es, t := [e], QueueApply(c, s, e);
      assert es[1..] == [];
    } else {
      es, t := [], s;
    }
  }

  /** Renderings in a run of the loop are possible ones, and no rival writes during
      a message. */
  ghost predicate Honest(c: Config, a: Aws, turns: seq<Turn>, stopped: bool)
    decreases |turns|
  {
    !stopped && turns != [] ==>
      && HonestTurn(c, Before(c, a, turns[0]), turns[0])
      && Honest(c, Turned(c, a, turns[0]).aws, turns[1..], turns[0].stop.Some?)
  }

  ghost predicate HonestTurn(c: Config, b: Aws, turn: Turn) {
    turn.got.Some? && turn.got.value.k in b.queue ==>
      && turn.got.value.luck.rival.None?
      && var body := b.queue[turn.got.value.k].body;
         body.Job? ==> CanRenderAt(c, b.objects, body.msg, turn.got.value.luck)
  }

  /** Receiving copy `k` and handling it. */
  lemma ReceptionPath(c: Config, s: State, w: Pid, k: CopyId, luck: Luck) returns (es: seq<Event>, t: State)
    requires w !in s.tasks && Receivable(c, s, k) && luck.rival.None?
    requires s.queue[k].body.Job? ==> CanRenderAt(c, s.objects, s.queue[k].body.msg, luck)
    ensures Path(c, s, es, t) && t.tasks == s.tasks
    ensures ServicesOf(t) == Handled(c, Taken(ServicesOf(s), k), Raw(Some(k), s.queue[k].body), luck).aws
  {
    var ran := Handled(c, Taken(ServicesOf(s), k), Raw(Some(k), s.queue[k].body), luck);
    assert ServicesOf(Received(s, k)) == Taken(ServicesOf(s), k);
    es := HandledIsPath(c, s, w, k, luck);
    t := Idled(Received(s, k), ran.aws, w);
    assert s.tasks - {w} == s.tasks;
  }

  lemma TurnPath(c: Config, s: State, w: Pid, turn: Turn) returns (es: seq<Event>, t: State)
    requires w !in s.tasks && HonestTurn(c, Before(c, ServicesOf(s), turn), turn)
    ensures Path(c, s, es, t) && t.tasks == s.tasks && ServicesOf(t) == Turned(c, ServicesOf(s), turn).aws
  {
    es, t := MovesPath(c, s, turn.moves);
    if turn.got.Some? && CanReceive(c.maxReceives, t.queue, turn.got.value.k) {
      var u := t;
      var rest;
      rest, t := ReceptionPath(c, u, w, turn.got.value.k, turn.got.value.luck);
      PathConcat(c, s, es, u, rest, t);
      es := es + rest;
    }
  }

  /** A whole run of the poll loop, with everything the queue service does between
      its polls, is one path of the protocol that ends with the services exactly
      as `RunAll`, and so `Worker.Run`, leaves them. */
  lemma {:induction false} RunIsPath(c: Config, s: State, w: Pid, turns: seq<Turn>, stopped: bool)
    returns (es: seq<Event>, t: State)
    requires w !in s.tasks && Honest(c, ServicesOf(s), turns, stopped)
    ensures Path(c, s, es, t) && t.tasks == s.tasks && ServicesOf(t) == RunAll(c, ServicesOf(s), turns, stopped).aws
    decreases |turns|
  {
    es, t := [], s;
    if !stopped && turns != [] {
      var fs, u := TurnPath(c, s, w, turns[0]);
      var rest;
      rest, t := RunIsPath(c, u, w, turns[1..], turns[0].stop.Some?);
      PathConcat(c, s, fs, u, rest, t);
      es := fs + rest;
    }
  }
}
