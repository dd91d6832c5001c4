/** One worker, run to the end of one message. `Handled` says what a run does
    to the three services; the class does it call by call. */
module Worker {
  import opened Wrappers
  import opened PyValues
  import opened Keys
  import opened Domain
  import opened Protocol
  import opened Clients

  /** RAISED is not one of the program's outcomes: an exception left
      `handle_message`, be it a validation error of the stored item or an
      unexpected error of a call that is not inside the rendering `try`. */
  datatype Outcome = COMPLETED | FAILED_JOB | SKIPPED_DUPLICATE | RETRY | MALFORMED | RAISED

  /** A message as the queue hands it over. */
  datatype Raw = Raw(handle: Option<CopyId>, body: Body)

  /** How each call of one run fares, what another worker may have made of the
      record between the lookup and the conditional write, what the rendering
      attempt gives, and the times written. An unexpected exception of the
      rendering itself counts as one of the download. */
  datatype Luck = Luck(get: Fate, rival: Option<Item>, mark: Fate, fetch: Fate, put: nat -> Fate,
                       finish: Fate, drop: Fate,
                       render: Bytes -> Rendered, started: Time, ended: Time, ms: nat)

  /** The services after a run, its outcome, and what it adds to the two
      counters. */
  datatype Ran = Ran(aws: Aws, outcome: Outcome, complete: nat, failed: nat)

  function Dropped(a: Aws, handle: Option<CopyId>, f: Fate): Aws {
    if handle.Some? && Took(f) then a.(queue := a.queue - {handle.value}) else a
  }

  /** Where a call that raised leaves a run, outside the rendering `try`. */
  function GivenUp(f: Fate): Outcome {
    if f.Raises? && f.error == UnexpectedError then RAISED else RETRY
  }

  function FailedJob(a: Aws, j: JobId, handle: Option<CopyId>, reason: string, luck: Luck): Ran {
    var b := if Took(luck.finish) then a.(items := a.items[j := Failed(ItemOr(a.items, j), reason, luck.ended)]) else a;
    if luck.finish.Raises? then Ran(b, GivenUp(luck.finish), 0, 0)
    else Ran(Dropped(b, handle, luck.drop), FAILED_JOB, 0, 1)
  }

  /** The objects after uploading from the `n`-th thumbnail on, and whether all
      uploads were reported done. */
  function Uploaded(objects: map<Loc, Bytes>, bucket: string, j: JobId, thumbs: seq<Thumbnail>, n: nat,
                    put: nat -> Fate)
    : (map<Loc, Bytes>, bool)
    requires n <= |thumbs|
    decreases |thumbs| - n
  {
    if n == |thumbs| then (objects, true)
    else
      var stored := if Took(put(n)) then objects[Loc(bucket, Thumb(j, thumbs[n].size)) := thumbs[n].data] else objects;
      if put(n).Raises? then (stored, false) else Uploaded(stored, bucket, j, thumbs, n + 1, put)
  }

  function Finished(a: Aws, j: JobId, handle: Option<CopyId>, r: Picture, luck: Luck): Ran {
    var b := if Took(luck.finish)
             then a.(items := a.items[j := Completed(ItemOr(a.items, j), j, r, luck.ms, luck.ended)]) else a;
    if luck.finish.Raises? then Ran(b, RETRY, 0, 0)
    else if handle.None? || luck.drop.Raises? then Ran(Dropped(b, handle, luck.drop), RETRY, 0, 0)
    else Ran(Dropped(b, handle, luck.drop), COMPLETED, 1, 0)
  }

  function Rendering(c: Config, a: Aws, msg: Message, handle: Option<CopyId>, luck: Luck): Ran {
    var got := Fetched(a.objects, Loc(c.bucket, msg.inputKey), luck.fetch);
    if got.Err? then Ran(a, RETRY, 0, 0)
    else
      var r := luck.render(got.value);
      if r.Undecodable? then FailedJob(a, msg.jobId, handle, r.reason, luck)
      else
        var (objects, all) := Uploaded(a.objects, c.bucket, msg.jobId, r.thumbs, 0, luck.put);
        var b := a.(objects := objects);
        if all then Finished(b, msg.jobId, handle, r, luck) else Ran(b, RETRY, 0, 0)
  }

  function Processed(c: Config, a: Aws, msg: Message, handle: Option<CopyId>, luck: Luck): Ran {
    if luck.get.Raises? then Ran(a, GivenUp(luck.get), 0, 0)
    else if msg.jobId !in a.items then Ran(Dropped(a, handle, luck.drop), FAILED_JOB, 0, 1)
    else if a.items[msg.jobId].base.None? then Ran(a, RAISED, 0, 0)
    else if a.items[msg.jobId].status == COMPLETE then Ran(Dropped(a, handle, luck.drop), SKIPPED_DUPLICATE, 0, 0)
    else if msg.bucket != c.bucket then FailedJob(a, msg.jobId, handle, UNEXPECTED_BUCKET, luck)
    else Contended(c, a.(items := Interfered(a.items, msg.jobId, luck.rival)), msg, handle, luck)
  }

  function Contended(c: Config, a: Aws, msg: Message, handle: Option<CopyId>, luck: Luck): Ran {
    var may := MayProcess(a.items, msg.jobId);
    var b := if Took(luck.mark) && may
             then a.(items := a.items[msg.jobId := Processing(a.items[msg.jobId], luck.started)]) else a;
    if luck.mark.Raises? then Ran(b, GivenUp(luck.mark), 0, 0)
    else if may then Rendering(c, b, msg, handle, luck)
    else Ran(Dropped(b, handle, luck.drop), SKIPPED_DUPLICATE, 0, 0)
  }

  function Handled(c: Config, a: Aws, raw: Raw, luck: Luck): Ran {
    match raw.body
    case Malformed => Ran(Dropped(a, raw.handle, luck.drop), MALFORMED, 0, 1)
    case Job(msg) =>
      if msg.version > MESSAGE_SCHEMA_VERSION then Ran(a, RETRY, 0, 0)
      else Processed(c, a, msg, raw.handle, luck)
  }

  /** One turn of the poll loop: what the queue service does before it, the copy
      the receive asks for, and whether a stop is requested while it runs. */
  datatype Turn = Turn(moves: seq<QueueMove>, got: Option<Reception>, stop: Option<string>)

  datatype Reception = Reception(k: CopyId, luck: Luck)

  /** The services when the receive of a turn comes, and when it has succeeded. */
  function Before(c: Config, a: Aws, turn: Turn): Aws {
    a.(queue := MovedAll(c.maxReceives, a.queue, turn.moves))
  }

  function Taken(a: Aws, k: CopyId): Aws
    requires k in a.queue
  {
    a.(queue := TakenOut(a.queue, k))
  }

  /** One turn's effect: at most one message is handled. */
  function Turned(c: Config, a: Aws, turn: Turn): Ran {
    var b := Before(c, a, turn);
    if turn.got.Some? && CanReceive(c.maxReceives, b.queue, turn.got.value.k) then
      var k := turn.got.value.k;
      Handled(c, Taken(b, k), Raw(Some(k), b.queue[k].body), turn.got.value.luck)
    else Ran(b, RETRY, 0, 0)
  }

  /** The services and the summed counters after a run of the loop: the turn in
      which a stop arrives is the last. */
  function RunAll(c: Config, a: Aws, turns: seq<Turn>, stopped: bool): Ran
    decreases |turns|
  {
    if stopped || turns == [] then Ran(a, RETRY, 0, 0)
    else
      var first := Turned(c, a, turns[0]);
      var rest := RunAll(c, first.aws, turns[1..], turns[0].stop.Some?);
      Ran(rest.aws, rest.outcome, first.complete + rest.complete, first.failed + rest.failed)
  }

  /** `rest` is still to come of `all` once `complete` and `failed` are counted. */
  ghost predicate Remaining(all: Ran, rest: Ran, complete: int, failed: int) {
    all.aws == rest.aws && all.complete == complete + rest.complete && all.failed == failed + rest.failed
  }

  lemma TurnFirst(c: Config, a: Aws, turns: seq<Turn>, i: nat)
    requires i < |turns|
    ensures
      var first := Turned(c, a, turns[i]);
      Remaining(RunAll(c, a, turns[i..], false), RunAll(c, first.aws, turns[i + 1..], turns[i].stop.Some?),
                first.complete, first.failed)
  {
    assert turns[i..][0] == turns[i] && turns[i..][1..] == turns[i + 1..];
  }

  /** The services and the two counters at one moment. */
  datatype Reading = Reading(aws: Aws, complete: nat, failed: nat)

  /** `turn` leads from one reading to the next: the queue service moves, and if
      it then hands over the copy asked for, that copy's message is handled. */
  ghost predicate TurnLeads(c: Config, before: Reading, turn: Turn, after: Reading) {
    var b := before.aws.(queue := MovedAll(c.maxReceives, before.aws.queue, turn.moves));
    if turn.got.Some? && CanReceive(c.maxReceives, b.queue, turn.got.value.k) then
      var k := turn.got.value.k;
      var ran := Handled(c, b.(queue := TakenOut(b.queue, k)), Raw(Some(k), b.queue[k].body), turn.got.value.luck);
      after == Reading(ran.aws, before.complete + ran.complete, before.failed + ran.failed)
    else after == before.(aws := b)
  }

  lemma TurnLeadsTo(c: Config, before: Reading, turn: Turn, after: Reading)
    requires TurnLeads(c, before, turn, after)
    ensures var ran := Turned(c, before.aws, turn);
      after == Reading(ran.aws, before.complete + ran.complete, before.failed + ran.failed)
  {
  }

  class Worker {
    const config: Config
    const store: S3Store
    const table: JobTable
    const queue: JobQueue
    var complete: nat
    var failed: nat
    var inflight: nat
    var stopping: bool
    var stopReason: Option<string>

    constructor (config: Config, store: S3Store, table: JobTable, queue: JobQueue)
      requires store.bucket == config.bucket
      ensures this.config == config && this.store == store && this.table == table && this.queue == queue
      ensures complete == 0 && failed == 0 && inflight == 0 && !stopping && Valid()
    {
      this.config, this.store, this.table, this.queue := config, store, table, queue;
      complete, failed, inflight := 0, 0, 0;
      stopping, stopReason := false, None;
    }

    ghost predicate Valid() {
      store.bucket == config.bucket
    }

    ghost function Services(): Aws
      reads store, table, queue
    {
      Aws(store.objects, table.items, queue.copies, queue.issued)
    }

    ghost function Now(): Reading
      reads this, store, table, queue
    {
      Reading(Services(), complete, failed)
    }

    /** The effect of a run on this worker and the services. The gauge is back
        where it was. */
    twostate predicate Did(ran: Ran)
      reads this, store, table, queue
    {
      && Services() == ran.aws
      && complete == old(complete) + ran.complete && failed == old(failed) + ran.failed
      && inflight == old(inflight) && stopping == old(stopping) && stopReason == old(stopReason)
    }

    method RequestStop(reason: string)
      modifies this`stopping, this`stopReason
      ensures stopping && stopReason == if old(stopping) then old(stopReason) else Some(reason)
    {
      if !stopping {
        stopping := true;
        stopReason := Some(reason);
      }
    }

    method DeleteQuietly(handle: Option<CopyId>, f: Fate)
      modifies queue
      ensures queue.issued == old(queue.issued)
      ensures queue.copies == if handle.Some? && (f.Fine? || f.took) then old(queue.copies) - {handle.value}
                              else old(queue.copies)
    {
      if handle.None? { return; }
      var _ := queue.Delete(handle, f);
    }

    method FailJob(job: JobId, handle: Option<CopyId>, reason: string, luck: Luck) returns (o: Outcome)
      modifies this, table, queue
      ensures var ran := FailedJob(old(Services()), job, handle, reason, luck); o == ran.outcome && Did(ran)
    {
      var r := table.MarkFailed(job, reason, luck.ended, luck.finish);
      if r.Err? { return GivenUp(luck.finish); }
      failed := failed + 1;
      DeleteQuietly(handle, luck.drop);
      return FAILED_JOB;
    }

    /** Upload every thumbnail in turn, collecting the outputs. */
    method UploadThumbs(job: JobId, picture: Picture, luck: Luck) returns (done: bool, outputs: map<nat, Output>)
      requires Valid()
      modifies store
      ensures (store.objects, done) == Uploaded(old(store.objects), config.bucket, job, picture.thumbs, 0, luck.put)
      ensures done ==> outputs == OutputsUpTo(job, picture.thumbs, |picture.thumbs|)
    {
      outputs := map[];
      var thumbs := picture.thumbs;
      var n := 0;
      while n < |thumbs|
        invariant 0 <= n <= |thumbs|
        invariant outputs == OutputsUpTo(job, thumbs, n)
        invariant Uploaded(store.objects, config.bucket, job, thumbs, n, luck.put)
               == Uploaded(old(store.objects), config.bucket, job, thumbs, 0, luck.put)
      {
        var r := store.PutBytes(Thumb(job, thumbs[n].size), thumbs[n].data, luck.put(n));
        if r.Err? { return false, outputs; }
        outputs := outputs[thumbs[n].size := OutputFor(job, thumbs[n])];
        n := n + 1;
      }
      done := true;
    }

    method Finish(job: JobId, handle: Option<CopyId>, picture: Picture, luck: Luck) returns (o: Outcome)
      modifies this, table, queue
      ensures var ran := Finished(old(Services()), job, handle, picture, luck); o == ran.outcome && Did(ran)
    {
      var r := table.MarkComplete(job, picture, luck.ms, luck.ended, luck.finish);
      if r.Err? { return RETRY; }
      r := queue.Delete(handle, luck.drop);
      if r.Err? { return RETRY; }
      complete := complete + 1;
      return COMPLETED;
    }

    method Render(msg: Message, handle: Option<CopyId>, luck: Luck) returns (o: Outcome)
      requires Valid()
      modifies this, store, table, queue
      ensures var ran := Rendering(config, old(Services()), msg, handle, luck); o == ran.outcome && Did(ran)
    {
      inflight := inflight + 1;
      var got := store.GetBytes(msg.inputKey, luck.fetch);
      if got.Err? {
        o := RETRY;
      } else {
        var r := luck.render(got.value);
        if r.Undecodable? {
          o := FailJob(msg.jobId, handle, r.reason, luck);
        } else {
          var done, _ := UploadThumbs(msg.jobId, r, luck);
          if done {
            o := Finish(msg.jobId, handle, r, luck);
          } else {
            o := RETRY;
          }
        }
      }
      inflight := inflight - 1;
    }

    method Process(msg: Message, handle: Option<CopyId>, luck: Luck) returns (o: Outcome)
      requires Valid()
      modifies this, store, table, queue
      ensures var ran := Processed(config, old(Services()), msg, handle, luck); o == ran.outcome && Did(ran)
    {
      var found := table.GetJob(msg.jobId, luck.get);
      if found.Err? { return GivenUp(luck.get); }
      if found.value.None? {
        failed := failed + 1;
        DeleteQuietly(handle, luck.drop);
        return FAILED_JOB;
      }
      var item := found.value.value;
      if item.base.None? { return RAISED; }
      if item.status == COMPLETE {
        DeleteQuietly(handle, luck.drop);
        return SKIPPED_DUPLICATE;
      }
      if msg.bucket != config.bucket {
        o := FailJob(msg.jobId, handle, UNEXPECTED_BUCKET, luck);
        return;
      }
      table.Interfere(msg.jobId, luck.rival);
      var won := table.MarkProcessing(msg.jobId, luck.started, luck.mark);
      if won.Err? { return GivenUp(luck.mark); }
      if !won.value {
        DeleteQuietly(handle, luck.drop);
        return SKIPPED_DUPLICATE;
      }
      o := Render(msg, handle, luck);
    }

    /** One message, whatever it is and however the calls fare. */
    method HandleMessage(raw: Raw, luck: Luck) returns (o: Outcome)
      requires Valid()
      modifies this, store, table, queue
      ensures var ran := Handled(config, old(Services()), raw, luck); o == ran.outcome && Did(ran)
    {
      match raw.body {
        case Malformed =>
          failed := failed + 1;
          DeleteQuietly(raw.handle, luck.drop);
          o := MALFORMED;
        case Job(msg) =>
          if msg.version > MESSAGE_SCHEMA_VERSION { return RETRY; }
          o := Process(msg, raw.handle, luck);
      }
    }

    /** One receive and what it brings: the message of the copy, counted as one
        more reception, if the queue can hand it over. */
    method RunOnce(got: Option<Reception>)
      requires Valid()
      modifies this, store, table, queue
      ensures
        var q := old(queue.copies);
        if got.Some? && got.value.k in q && q[got.value.k].visible && q[got.value.k].receives < config.maxReceives then
          var k := got.value.k;
          var taken := old(Services()).(queue := q[k := Copy(q[k].body, q[k].receives + 1, false)]);
          Did(Handled(config, taken, Raw(Some(k), q[k].body), got.value.luck))
        else Did(Ran(old(Services()), RETRY, 0, 0))
    {
      if got.None? { return; }
      ghost var taken := Services();
      var body := queue.Receive(config.maxReceives, got.value.k);
      if body.None? {
        assert Services() == taken;
      } else {
        var receives := taken.queue[got.value.k].receives;
        taken := taken.(queue := taken.queue[got.value.k := Copy(body.value, receives + 1, false)]);
        assert Services() == taken;
        var _ := HandleMessage(Raw(Some(got.value.k), body.value), got.value.luck);
      }
    }

    method TakeTurn(turn: Turn)
      requires Valid() && !stopping
      modifies this, store, table, queue
      ensures TurnLeads(config, old(Now()), turn, Now())
      ensures inflight == old(inflight) && stopReason == (if turn.stop.Some? then turn.stop else old(stopReason))
      ensures stopping <==> turn.stop.Some?
    {
      ghost var before := Services();
      ghost var _ := queue.Move(config.maxReceives, turn.moves);
      assert Services() == before.(queue := MovedAll(config.maxReceives, before.queue, turn.moves));
      RunOnce(turn.got);
      if turn.stop.Some? { RequestStop(turn.stop.value); }
    }

    /** The poll loop, over a schedule of turns: it takes them one by one, up to
        and including the turn in which a stop is requested, and none if that
        was before the loop. */
    method Run(turns: seq<Turn>) returns (ghost readings: seq<Reading>)
      requires Valid()
      modifies this, store, table, queue
      ensures 1 <= |readings| <= |turns| + 1 && readings[0] == old(Now()) && readings[|readings| - 1] == Now()
      ensures forall i :: 0 <= i < |readings| - 1 ==> TurnLeads(config, readings[i], turns[i], readings[i + 1])
      ensures old(stopping) ==> |readings| == 1 && stopReason == old(stopReason)
      ensures !old(stopping) ==>
        && (forall i :: 0 <= i < |readings| - 2 ==> turns[i].stop.None?)
        && if |readings| > 1 && turns[|readings| - 2].stop.Some? then stopReason == turns[|readings| - 2].stop
           else |readings| == |turns| + 1 && stopReason == old(stopReason)
      ensures var all := RunAll(config, old(Services()), turns, old(stopping));
        Services() == all.aws && complete == old(complete) + all.complete && failed == old(failed) + all.failed
      ensures inflight == old(inflight)
      ensures stopping <==> old(stopping) || exists i :: 0 <= i < |turns| && turns[i].stop.Some?
    {
      var i := 0;
      readings := [Now()];
      ghost var all := RunAll(config, Services(), turns, stopping);
      assert turns[0..] == turns;
      while !stopping && i < |turns|
        invariant 0 <= i <= |turns| && inflight == old(inflight)
        invariant |readings| == i + 1 && readings[0] == old(Now()) && readings[i] == Now()
        invariant forall n :: 0 <= n < i ==> TurnLeads(config, readings[n], turns[n], readings[n + 1])
        invariant forall n :: 0 <= n < i - 1 ==> turns[n].stop.None?
        invariant old(stopping) ==> i == 0
        invariant if i > 0 && turns[i - 1].stop.Some? then stopping && stopReason == turns[i - 1].stop
                  else stopping == old(stopping) && stopReason == old(stopReason)
        invariant Remaining(all, RunAll(config, Services(), turns[i..], stopping),
                            complete - old(complete), failed - old(failed))
        invariant stopping <==> old(stopping) || exists k :: 0 <= k < i && turns[k].stop.Some?
        decreases |turns| - i
      {
        TurnFirst(config, Services(), turns, i);
        ghost var before := Now();
        TakeTurn(turns[i]);
        TurnLeadsTo(config, before, turns[i], Now());
        readings := readings + [Now()];
        i := i + 1;
      }
      assert stopping || turns[i..] == [];
    }
  }
}
