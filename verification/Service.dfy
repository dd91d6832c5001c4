/** Creating a job: object, then record, then message. `Created` says what one
    call leaves behind; the class does it call by call. */
module Service {
  import opened Wrappers
  import opened PyValues
  import opened Keys
  import opened Domain
  import opened Protocol
  import opened Clients

  datatype Rejection = TooLarge | BadContentType | InvalidImage

  datatype Answer =
    | Accepted(item: Item)
    | Rejected(why: Rejection)
    | EnqueueFailed
    | Unavailable(error: Error)

  datatype Request = Request(data: Bytes, filename: Option<string>, contentType: Option<string>)

  /** How each call fares, and what the environment supplies: the drawn id, the
      clock, the trace id and the ids of the message's copies. */
  datatype Chance = Chance(jobId: JobId, now: Time, later: Time, traceId: Option<string>,
                           copies: set<CopyId>, reason: string,
                       put: Fate, record: Fate, send: Fate, cleanup: Fate)

  /** One API deployment: where it uploads, the message version it writes, and
      how it cleans up what the client declares. */
  datatype Api = Api(bucket: string, version: nat,
                     normalise: Option<string> -> string, sanitise: Option<string> -> string)

  function UploadOf(api: Api, req: Request, chance: Chance): Upload {
    Upload(chance.jobId, api.bucket, api.version, req.data, api.sanitise(req.filename), api.normalise(req.contentType),
           chance.traceId, chance.now)
  }

  /** The first failing check decides. */
  function Validation(c: Config, api: Api, req: Request): Option<Rejection> {
    if |req.data| > c.maxUploadBytes then Some(TooLarge)
    else if api.normalise(req.contentType) !in c.contentTypes then Some(BadContentType)
    else if c.probe(req.data).None? then Some(InvalidImage)
    else None
  }

  function Enqueued(c: Config, a: Aws, up: Upload, chance: Chance): (Aws, Answer) {
    if chance.send.Fine? then
      (a.(queue := a.queue + (map k | k in chance.copies :: Copy(Job(MessageOf(c, up)), 0, true)),
          issued := a.issued + chance.copies),
       Accepted(PendingItem(c, up)))
    else
      (if Took(chance.cleanup)
       then a.(items := a.items[up.jobId := UnqueueableItem(c, up, chance.reason, chance.later)])
       else a,
       EnqueueFailed)
  }

  function Submitted(c: Config, a: Aws, up: Upload, chance: Chance): (Aws, Answer) {
    var b := if Took(chance.put) then a.(objects := a.objects[OriginalLoc(c, up) := up.data]) else a;
    if chance.put.Raises? then (b, Unavailable(chance.put.error))
    else
      var d := if Took(chance.record) then b.(items := b.items[up.jobId := PendingItem(c, up)]) else b;
      if chance.record.Raises? then (d, Unavailable(chance.record.error)) else Enqueued(c, d, up, chance)
  }

  function Created(c: Config, api: Api, a: Aws, req: Request, chance: Chance): (Aws, Answer) {
    var v := Validation(c, api, req);
    if v.Some? then (a, Rejected(v.value)) else Submitted(c, a, UploadOf(api, req, chance), chance)
  }

  class JobService {
    const config: Config
    const api: Api
    const store: S3Store
    const table: JobTable
    const queue: JobQueue

    constructor (config: Config, api: Api, store: S3Store, table: JobTable, queue: JobQueue)
      requires store.bucket == api.bucket
      ensures this.config == config && this.api == api
      ensures this.store == store && this.table == table && this.queue == queue
      ensures Valid()
    {
      this.config, this.api, this.store, this.table, this.queue := config, api, store, table, queue;
    }

    ghost predicate Valid() {
      store.bucket == api.bucket
    }

    ghost function Services(): Aws
      reads store, table, queue
    {
      Aws(store.objects, table.items, queue.copies, queue.issued)
    }

    method ValidateUpload(contentType: string, sizeBytes: nat) returns (r: Option<Rejection>)
      ensures r.None? <==> sizeBytes <= config.maxUploadBytes && contentType in config.contentTypes
      ensures r == Some(TooLarge) <==> sizeBytes > config.maxUploadBytes
      ensures r.Some? ==> r.value in {TooLarge, BadContentType}
    {
      if sizeBytes > config.maxUploadBytes { return Some(TooLarge); }
      if contentType !in config.contentTypes { return Some(BadContentType); }
      return None;
    }

    /** Best effort: a failure here is only logged. */
    method MarkUnqueueable(up: Upload, chance: Chance)
      modifies table
      ensures chance.cleanup.Raises? && !chance.cleanup.took ==> table.items == old(table.items)
      ensures chance.cleanup.Fine? || chance.cleanup.took ==>
        var failed := PendingItem(config, up).(status := FAILED, error := Some(chance.reason),
                                               updatedAt := Some(chance.later), completedAt := Some(chance.later));
        table.items == old(table.items)[up.jobId := failed]
    {
      var record := PendingItem(config, up);
      var failed := record.(status := FAILED, error := Some(chance.reason),
                            updatedAt := Some(chance.later), completedAt := Some(chance.later));
      var _ := table.PutJob(up.jobId, failed, chance.cleanup);
    }

    method CreateJob(req: Request, chance: Chance) returns (answer: Answer)
      requires Valid() && chance.copies != {} && chance.copies !! queue.issued
      modifies store, table, queue
      ensures (Services(), answer) == Created(config, api, old(Services()), req, chance)
    {
      var contentType := api.normalise(req.contentType);
      var bad := ValidateUpload(contentType, |req.data|);
      if bad.Some? { return Rejected(bad.value); }
      if config.probe(req.data).None? { return Rejected(InvalidImage); }
      var up := Upload(chance.jobId, api.bucket, api.version, req.data, api.sanitise(req.filename), contentType,
                       chance.traceId, chance.now);
      var record := PendingItem(config, up);
      var r := store.PutBytes(record.base.value.inputKey, req.data, chance.put);
      if r.Err? { return Unavailable(r.error); }
      r := table.PutJob(chance.jobId, record, chance.record);
      if r.Err? { return Unavailable(r.error); }
      var msg := Message(up.version, chance.jobId, api.bucket, record.base.value.inputKey, contentType,
                         up.filename, chance.now);
      r := queue.SendJob(msg, chance.copies, chance.send);
      if r.Err? {
        MarkUnqueueable(up, chance);
        return EnqueueFailed;
      }
      return Accepted(record);
    }
  }

  // -- what a call leaves behind -----------------------------------------------------

  /** A failure at any point leaves no trace a client can see, or a record with
      its object; never a queued job with no object or record behind it. */
  lemma NeverQueuedWithoutObject(c: Config, api: Api, a: Aws, req: Request, chance: Chance)
    ensures
      var (b, answer) := Created(c, api, a, req, chance); var up := UploadOf(api, req, chance);
      && (b.queue != a.queue ==> answer.Accepted?)
      && (b.items != a.items ==> OriginalLoc(c, up) in b.objects && b.objects[OriginalLoc(c, up)] == req.data)
      && (answer.Accepted? ==>
            && Admissible(c, up) && chance.jobId in b.items && b.items[chance.jobId] == PendingItem(c, up)
            && b.items[chance.jobId].status == PENDING
            && OriginalLoc(c, up) in b.objects && b.objects[OriginalLoc(c, up)] == req.data
            && forall k :: k in chance.copies ==> k in b.queue && b.queue[k].body == Job(MessageOf(c, up)))
      && (answer == EnqueueFailed ==>
            && b.queue == a.queue && chance.jobId in b.items
            && b.items[chance.jobId].status ==
               (if chance.cleanup.Fine? || chance.cleanup.took then FAILED else PENDING))
      && (answer.Rejected? ==> b == a)
      && (answer.Unavailable? ==> b.queue == a.queue)
  {
  }

  /** Each answer, by the first check or call that fails. */
  lemma AnswerIff(c: Config, api: Api, a: Aws, req: Request, chance: Chance)
    ensures
      var answer := Created(c, api, a, req, chance).1;
      var small := |req.data| <= c.maxUploadBytes; var typed := api.normalise(req.contentType) in c.contentTypes;
      var valid := small && typed && c.probe(req.data).Some?;
      && (answer == Rejected(TooLarge) <==> !small)
      && (answer == Rejected(BadContentType) <==> small && !typed)
      && (answer == Rejected(InvalidImage) <==> small && typed && c.probe(req.data).None?)
      && (answer.Unavailable? <==> valid && (chance.put.Raises? || chance.record.Raises?))
      && (answer.Unavailable? ==> answer.error == if chance.put.Raises? then chance.put.error else chance.record.error)
      && (answer == EnqueueFailed <==> valid && chance.put.Fine? && chance.record.Fine? && chance.send.Raises?)
      && (answer.Accepted? <==> valid && chance.put.Fine? && chance.record.Fine? && chance.send.Fine?)
  {
  }

  /** What a request that passes the checks may write: its key, its record, the
      same record once the queue refused the job, and its message. */
  datatype Written = Written(loc: Loc, record: Item, refused: Item, msg: Message)

  /** The record has the size and the names of the request, the dimensions and the
      format the inspection found, and the times of the call. */
  ghost predicate Writes(c: Config, api: Api, req: Request, chance: Chance, w: Written)
    requires c.probe(req.data).Some?
  {
    var p, r := c.probe(req.data).value, w.record;
    && w.loc == Loc(api.bucket, Original(chance.jobId, p.extension))
    && r.base.Some? && r.base.value.inputKey == w.loc.key && r.base.value.sizeBytes == |req.data|
    && r.base.value.createdAt == chance.now && r.base.value.traceId == chance.traceId
    && r.base.value.filename == api.sanitise(req.filename)
    && r.base.value.contentType == api.normalise(req.contentType)
    && r.status == PENDING && r.updatedAt == Some(chance.now) && r.startedAt.None? && r.completedAt.None?
    && r.width == Some(p.width) && r.height == Some(p.height) && r.format == Some(p.format)
    && r.outputs.None? && r.exif.None? && r.processingMs.None? && r.error.None?
    && w.refused == r.(status := FAILED, error := Some(chance.reason),
                       updatedAt := Some(chance.later), completedAt := Some(chance.later))
    && w.msg.version == api.version && w.msg.jobId == chance.jobId && w.msg.bucket == api.bucket
    && w.msg.inputKey == w.loc.key && w.msg.contentType == r.base.value.contentType
    && w.msg.filename == r.base.value.filename && w.msg.submittedAt == chance.now
  }

  /** What the services hold after a request that passes the checks: each write is
      there if its call took effect, and no call is made after one that raised. */
  lemma CreatedWrites(c: Config, api: Api, a: Aws, req: Request, chance: Chance) returns (w: Written)
    requires |req.data| <= c.maxUploadBytes && api.normalise(req.contentType) in c.contentTypes
    requires c.probe(req.data).Some?
    ensures Writes(c, api, req, chance, w)
    ensures
      var (b, answer) := Created(c, api, a, req, chance); var stored, sent := chance.put.Fine?, chance.send.Fine?;
      var recorded := stored && (chance.record.Fine? || chance.record.took);
      var asked := stored && chance.record.Fine?;
      && b.objects == (if stored || chance.put.took then a.objects[w.loc := req.data] else a.objects)
      && b.items == (if !recorded then a.items
                     else if asked && !sent && (chance.cleanup.Fine? || chance.cleanup.took)
                     then a.items[chance.jobId := w.refused] else a.items[chance.jobId := w.record])
      && b.queue == (if asked && sent then a.queue + (map k | k in chance.copies :: Copy(Job(w.msg), 0, true))
                     else a.queue)
      && b.issued == (if asked && sent then a.issued + chance.copies else a.issued)
      && (answer.Accepted? ==> answer.item == w.record)
  {
    var up := UploadOf(api, req, chance);
    w := Written(OriginalLoc(c, up), PendingItem(c, up), UnqueueableItem(c, up, chance.reason, chance.later),
                 MessageOf(c, up));
  }

  // -- a call is a path of the protocol --------------------------------------------

  /** `s` after the call: the request is gone, the services are as in `a`. */
  ghost function Returned(s: State, a: Aws, up: Upload, accepted: bool): State {
    s.(objects := a.objects, items := a.items, queue := a.queue, issued := a.issued,
       uploads := s.uploads[up.jobId := up], sent := if accepted then s.sent + {up.jobId} else s.sent)
  }

  lemma PathPlus(c: Config, s: State, es: seq<Event>, t: State, e: Event, u: State) returns (all: seq<Event>)
    requires Path(c, s, es, t) && ApiEnabled(c, t, e) && ApiApply(c, t, e) == u
    ensures Path(c, s, all, u)
  {
    PathSnoc(c, s, es, t, e);
    all := es + [e];
  }

  /** `s` while request `p` is at `at`. */
  ghost function During(s: State, a: Aws, p: Pid, up: Upload, at: ApiAt): State {
    Returned(s, a, up, false).(calls := s.calls[p := Call(up, at)])
  }

  lemma StopsAt(c: Config, s: State, es: seq<Event>, a: Aws, p: Pid, up: Upload, at: ApiAt) returns (all: seq<Event>)
    requires p !in s.calls && Path(c, s, es, During(s, a, p, up, at))
    ensures Path(c, s, all, Returned(s, a, up, false))
  {
    assert s.calls[p := Call(up, at)] - {p} == s.calls;
    all := PathPlus(c, s, es, During(s, a, p, up, at), ApiStop(p), Returned(s, a, up, false));
  }

  lemma RefusedPath(c: Config, s: State, es: seq<Event>, a: Aws, p: Pid, up: Upload, chance: Chance)
    returns (all: seq<Event>)
    requires p !in s.calls && Path(c, s, es, During(s, a, p, up, AtSend)) && chance.send.Raises?
    ensures Path(c, s, all, Returned(s, Enqueued(c, a, up, chance).0, up, false))
  {
    var t, at := During(s, a, p, up, AtSend), AtMarkUnqueueable(chance.reason);
    var u := During(s, a, p, up, at);
    assert t.calls[p := Call(up, at)] == u.calls;
    all := PathPlus(c, s, es, t, SendRefused(p, chance.reason), u);
    if Took(chance.cleanup) {
      assert u.calls - {p} == s.calls;
      all := PathPlus(c, s, all, u, MarkUnqueueable(p, chance.later, true),
                      Returned(s, Enqueued(c, a, up, chance).0, up, false));
    } else {
      all := StopsAt(c, s, all, a, p, up, at);
    }
  }

  lemma SendPath(c: Config, s: State, es: seq<Event>, a: Aws, p: Pid, up: Upload, chance: Chance)
    returns (all: seq<Event>)
    requires p !in s.calls && Path(c, s, es, During(s, a, p, up, AtSend))
    requires chance.copies != {} && chance.copies !! a.issued
    ensures var (b, answer) := Enqueued(c, a, up, chance); Path(c, s, all, Returned(s, b, up, answer.Accepted?))
  {
    var t := During(s, a, p, up, AtSend);
    assert s.calls[p := Call(up, AtSend)] - {p} == s.calls;
    var b := Enqueued(c, a, up, chance).0;
    if chance.send.Fine? {
      all := PathPlus(c, s, es, t, Send(p, chance.copies), Returned(s, b, up, true));
    } else {
      all := RefusedPath(c, s, es, a, p, up, chance);
    }
  }

  lemma StorePath(c: Config, s: State, es: seq<Event>, a: Aws, p: Pid, up: Upload, chance: Chance)
    returns (all: seq<Event>)
    requires p !in s.calls && Path(c, s, es, During(s, a, p, up, AtPutObject))
    requires chance.copies != {} && chance.copies !! a.issued
    ensures var (b, answer) := Submitted(c, a, up, chance); Path(c, s, all, Returned(s, b, up, answer.Accepted?))
  {
    var t, b := During(s, a, p, up, AtPutObject), a.(objects := a.objects[OriginalLoc(c, up) := up.data]);
    if chance.put.Raises? {
      if chance.put.took {
        all := PathPlus(c, s, es, t, PutObject(p, false), During(s, b, p, up, AtPutObject));
        all := StopsAt(c, s, all, b, p, up, AtPutObject);
      } else {
        all := StopsAt(c, s, es, a, p, up, AtPutObject);
      }
    } else {
      var u := During(s, b, p, up, AtPutRecord);
      assert t.calls[p := Call(up, AtPutRecord)] == u.calls;
      all := PathPlus(c, s, es, t, PutObject(p, true), u);
      all := RecordPath(c, s, all, b, p, up, chance);
    }
  }

  lemma RecordPath(c: Config, s: State, es: seq<Event>, a: Aws, p: Pid, up: Upload, chance: Chance)
    returns (all: seq<Event>)
    requires p !in s.calls && Path(c, s, es, During(s, a, p, up, AtPutRecord))
    requires chance.copies != {} && chance.copies !! a.issued
    ensures
      var d := if Took(chance.record) then a.(items := a.items[up.jobId := PendingItem(c, up)]) else a;
      var (b, answer) := if chance.record.Raises? then (d, Unavailable(chance.record.error))
                         else Enqueued(c, d, up, chance);
      Path(c, s, all, Returned(s, b, up, answer.Accepted?))
  {
    var t, b := During(s, a, p, up, AtPutRecord), a.(items := a.items[up.jobId := PendingItem(c, up)]);
    if chance.record.Raises? {
      if chance.record.took {
        all := PathPlus(c, s, es, t, PutRecord(p, false), During(s, b, p, up, AtPutRecord));
        all := StopsAt(c, s, all, b, p, up, AtPutRecord);
      } else {
        all := StopsAt(c, s, es, a, p, up, AtPutRecord);
      }
    } else {
      var u := During(s, b, p, up, AtSend);
      assert t.calls[p := Call(up, AtSend)] == u.calls;
      all := PathPlus(c, s, es, t, PutRecord(p, true), u);
      all := SendPath(c, s, all, b, p, up, chance);
    }
  }

  /** A call that passes validation is a path of the protocol, whatever fails;
      so everything proved of paths holds of the service class. */
  lemma CreatedIsPath(c: Config, api: Api, s: State, p: Pid, req: Request, chance: Chance) returns (es: seq<Event>)
    requires p !in s.calls && chance.jobId !in s.uploads && chance.copies != {} && chance.copies !! s.issued
    requires Validation(c, api, req).None?
    ensures
      var (a, answer) := Created(c, api, ServicesOf(s), req, chance);
      Path(c, s, es, Returned(s, a, UploadOf(api, req, chance), answer.Accepted?))
  {
    var up := UploadOf(api, req, chance);
    assert Path(c, s, [], s);
    es := PathPlus(c, s, [], s, Begin(p, up), During(s, ServicesOf(s), p, up, AtPutObject));
    es := StorePath(c, s, es, ServicesOf(s), p, up, chance);
  }
}
