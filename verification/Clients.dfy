/** The wrappers around the three AWS services, over the state each service
    keeps. Every call is told how it fares; the retry ladder inside a wrapper is
    accounted for in the fate of the call. */
module Clients {
  import opened Wrappers
  import opened PyValues
  import opened Keys
  import opened Domain
  import opened Protocol

  /** The exceptions a wrapper lets out; the last stands for any other. */
  datatype Error = TransientDependencyError | ClientError | BotoCoreError | UnexpectedError

  /** A call succeeds, or raises after taking effect, or raises without. */
  datatype Fate = Fine | Raises(error: Error, took: bool)

  datatype Result<+T> = Ok(value: T) | Err(error: Error)

  predicate Took(f: Fate) {
    f.Fine? || f.took
  }

  function Report(f: Fate): Result<()> {
    if f.Fine? then Ok(()) else Err(f.error)
  }

  /** What the three services keep. */
  datatype Aws = Aws(objects: map<Loc, Bytes>, items: map<JobId, Item>, queue: map<CopyId, Copy>, issued: set<CopyId>)

  ghost function ServicesOf(s: State): Aws {
    Aws(s.objects, s.items, s.queue, s.issued)
  }

  // -- the queue between two polls -----------------------------------------------------

  /** What the queue service may do on its own: a visibility timeout ends, a spent
      message is parked on the DLQ, or a receive takes effect and nobody learns. */
  datatype QueueMove = Expires(k: CopyId) | Redrives(k: CopyId) | Loses(k: CopyId)

  predicate CanReceive(limit: nat, queue: map<CopyId, Copy>, k: CopyId) {
    k in queue && queue[k].visible && queue[k].receives < limit
  }

  function TakenOut(queue: map<CopyId, Copy>, k: CopyId): map<CopyId, Copy>
    requires k in queue
  {
    queue[k := queue[k].(receives := queue[k].receives + 1, visible := false)]
  }

  /** The queue after a move; nothing happens if the move is not possible. */
  function Moved(limit: nat, queue: map<CopyId, Copy>, m: QueueMove): map<CopyId, Copy> {
    match m
    case Expires(k) => if k in queue && !queue[k].visible then queue[k := queue[k].(visible := true)] else queue
    case Redrives(k) => if k in queue && queue[k].visible && queue[k].receives >= limit then queue - {k} else queue
    case Loses(k) => if CanReceive(limit, queue, k) then TakenOut(queue, k) else queue
  }

  function MovedAll(limit: nat, queue: map<CopyId, Copy>, ms: seq<QueueMove>): map<CopyId, Copy> {
    if ms == [] then queue else MovedAll(limit, Moved(limit, queue, ms[0]), ms[1..])
  }

  class S3Store {
    const bucket: string
    var objects: map<Loc, Bytes>

    constructor (bucket: string, objects: map<Loc, Bytes>)
      ensures this.bucket == bucket && this.objects == objects
    {
      this.bucket := bucket;
      this.objects := objects;
    }

    method PutBytes(key: Key, data: Bytes, f: Fate) returns (r: Result<()>)
      modifies this
      ensures r == if f.Fine? then Ok(()) else Err(f.error)
      ensures objects == if f.Fine? || f.took then old(objects)[Loc(bucket, key) := data] else old(objects)
    {
      if Took(f) { objects := objects[Loc(bucket, key) := data]; }
      r := Report(f);
    }

    /** A missing key is a client error. */
    method GetBytes(key: Key, f: Fate) returns (r: Result<Bytes>)
      ensures r == if f.Raises? then Err(f.error)
                   else if Loc(bucket, key) in objects then Ok(objects[Loc(bucket, key)]) else Err(ClientError)
    {
      if f.Raises? {
        r := Err(f.error);
      } else if Loc(bucket, key) !in objects {
        r := Err(ClientError);
      } else {
        r := Ok(objects[Loc(bucket, key)]);
      }
    }
  }

  function Fetched(objects: map<Loc, Bytes>, loc: Loc, f: Fate): Result<Bytes> {
    if f.Raises? then Err(f.error) else if loc in objects then Ok(objects[loc]) else Err(ClientError)
  }

  function Interfered(items: map<JobId, Item>, job: JobId, rival: Option<Item>): map<JobId, Item> {
    if rival.Some? then items[job := rival.value] else items
  }

  class JobTable {
    var items: map<JobId, Item>

    constructor (items: map<JobId, Item>)
      ensures this.items == items
    {
      this.items := items;
    }

    method PutJob(job: JobId, item: Item, f: Fate) returns (r: Result<()>)
      modifies this
      ensures r == if f.Fine? then Ok(()) else Err(f.error)
      ensures items == if f.Fine? || f.took then old(items)[job := item] else old(items)
    {
      if Took(f) { items := items[job := item]; }
      r := Report(f);
    }

    method GetJob(job: JobId, f: Fate) returns (r: Result<Option<Item>>)
      ensures r == if f.Raises? then Err(f.error) else Ok(if job in items then Some(items[job]) else None)
    {
      if f.Raises? { return Err(f.error); }
      r := Ok(if job in items then Some(items[job]) else None);
    }

    /** Not a call of this process: another worker rewrites a record. */
    method Interfere(job: JobId, rival: Option<Item>)
      modifies this
      ensures items == if rival.Some? then old(items)[job := rival.value] else old(items)
    {
      if rival.Some? { items := items[job := rival.value]; }
    }

    /** The conditional write; a failed condition is not an error. */
    method MarkProcessing(job: JobId, now: Time, f: Fate) returns (r: Result<bool>)
      modifies this
      ensures items ==
        if (f.Fine? || f.took) && job in old(items) && old(items)[job].status != COMPLETE
        then old(items)[job := old(items)[job].(status := PROCESSING, startedAt := Some(now), updatedAt := Some(now))]
        else old(items)
      ensures r == if f.Raises? then Err(f.error) else Ok(job in old(items) && old(items)[job].status != COMPLETE)
    {
      var may := job in items && items[job].status != COMPLETE;
      if Took(f) && may { items := items[job := Processing(items[job], now)]; }
      r := if f.Raises? then Err(f.error) else Ok(may);
    }

    method MarkComplete(job: JobId, picture: Picture, ms: nat, now: Time, f: Fate) returns (r: Result<()>)
      modifies this
      ensures r == if f.Fine? then Ok(()) else Err(f.error)
      ensures f.Raises? && !f.took ==> items == old(items)
      ensures f.Fine? || f.took ==>
        && job in items && items[job].outputs == Some(OutputsUpTo(job, picture.thumbs, |picture.thumbs|))
        && Describe(items[job].outputs.value, job, picture.thumbs, |picture.thumbs|)
        && var was := if job in old(items) then old(items)[job] else STUB;
           items == old(items)[job := was.(
                      status := COMPLETE, outputs := items[job].outputs, exif := Some(picture.exif),
                      width := Some(picture.width), height := Some(picture.height), format := Some(picture.format),
                      processingMs := Some(ms), completedAt := Some(now), updatedAt := Some(now), error := None)]
    {
      OutputsDescribe(job, picture.thumbs, |picture.thumbs|);
      if Took(f) { items := items[job := Completed(ItemOr(items, job), job, picture, ms, now)]; }
      r := Report(f);
    }

    method MarkFailed(job: JobId, reason: string, now: Time, f: Fate) returns (r: Result<()>)
      modifies this
      ensures r == if f.Fine? then Ok(()) else Err(f.error)
      ensures f.Raises? && !f.took ==> items == old(items)
      ensures f.Fine? || f.took ==>
        var was := if job in old(items) then old(items)[job] else STUB;
        items == old(items)[job := was.(
                   status := FAILED, error := Some(if |reason| <= 512 then reason else reason[..512]),
                   completedAt := Some(now), updatedAt := Some(now))]
    {
      if Took(f) { items := items[job := Failed(ItemOr(items, job), reason, now)]; }
      r := Report(f);
    }
  }

  class JobQueue {
    var copies: map<CopyId, Copy>
    var issued: set<CopyId>

    constructor (copies: map<CopyId, Copy>, issued: set<CopyId>)
      ensures this.copies == copies && this.issued == issued
    {
      this.copies := copies;
      this.issued := issued;
    }

    /** A send that raises enqueued nothing. The service keeps one or more
        copies and names them itself. */
    method SendJob(msg: Message, ids: set<CopyId>, f: Fate) returns (r: Result<()>)
      requires ids != {} && ids !! issued
      modifies this
      ensures r == if f.Fine? then Ok(()) else Err(f.error)
      ensures copies == if f.Fine? then old(copies) + (map k | k in ids :: Copy(Job(msg), 0, true)) else old(copies)
      ensures issued == if f.Fine? then old(issued) + ids else old(issued)
    {
      if f.Fine? {
        copies := copies + (map k | k in ids :: Copy(Job(msg), 0, true));
        issued := issued + ids;
      }
      r := Report(f);
    }

    /** Not calls of this process: the service moves, from each of the queues to
        the next. */
    method Move(limit: nat, ms: seq<QueueMove>) returns (ghost queues: seq<map<CopyId, Copy>>)
      modifies this`copies
      ensures copies == MovedAll(limit, old(copies), ms)
      ensures |queues| == |ms| + 1 && queues[0] == old(copies) && queues[|ms|] == copies
      ensures forall i :: 0 <= i < |ms| ==>
        var q, k := queues[i], ms[i].k;
        queues[i + 1] ==
          if k !in q then q
          else match ms[i]
               case Expires(_) => if q[k].visible then q else q[k := Copy(q[k].body, q[k].receives, true)]
               case Redrives(_) => if q[k].visible && q[k].receives >= limit then q - {k} else q
               case Loses(_) => if q[k].visible && q[k].receives < limit
                                then q[k := Copy(q[k].body, q[k].receives + 1, false)] else q
    {
      var i := 0;
      queues := [copies];
      assert ms[0..] == ms;
      while i < |ms|
        invariant 0 <= i <= |ms| && MovedAll(limit, copies, ms[i..]) == MovedAll(limit, old(copies), ms)
        invariant |queues| == i + 1 && queues[0] == old(copies) && queues[i] == copies
        invariant forall n :: 0 <= n < i ==> queues[n + 1] == Moved(limit, queues[n], ms[n])
      {
        assert ms[i..][0] == ms[i] && ms[i..][1..] == ms[i + 1..];
        copies := Moved(limit, copies, ms[i]);
        queues := queues + [copies];
        i := i + 1;
      }
    }

    /** Receive copy `k`, if the service can hand it over; otherwise the poll is
        empty. */
    method Receive(limit: nat, k: CopyId) returns (body: Option<Body>)
      modifies this`copies
      ensures body.Some? <==> k in old(copies) && old(copies)[k].visible && old(copies)[k].receives < limit
      ensures body.Some? ==>
        var was := old(copies)[k];
        body.value == was.body && copies == old(copies)[k := Copy(was.body, was.receives + 1, false)]
      ensures body.None? ==> copies == old(copies)
    {
      if !(k in copies && copies[k].visible && copies[k].receives < limit) { return None; }
      body := Some(copies[k].body);
      copies := TakenOut(copies, k);
    }

    /** An empty receipt handle is refused by the service. */
    method Delete(handle: Option<CopyId>, f: Fate) returns (r: Result<()>)
      modifies this
      ensures issued == old(issued)
      ensures handle.None? ==> r.Err? && copies == old(copies)
      ensures handle.Some? ==> r == if f.Fine? then Ok(()) else Err(f.error)
      ensures handle.Some? ==>
        copies == if f.Fine? || f.took then old(copies) - {handle.value} else old(copies)
    {
      if handle.None? { return Err(ClientError); }
      if Took(f) { copies := copies - {handle.value}; }
      r := Report(f);
    }
  }
}
