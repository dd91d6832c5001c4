/** The upload endpoint: the bounded read of the body, and the one counter each
    terminated attempt lands in. */
module Routes {
  import opened Wrappers
  import opened PyValues
  import opened Domain
  import opened Clients
  import Service

  const CHUNK_BYTES: nat := 0x10_0000
  const MULTIPART_OVERHEAD_BYTES: nat := 8192

  /** Reads the body in chunks. The `n`-th read may give any non-empty chunk of
      at most CHUNK_BYTES, until the data ends. The result is the whole body if
      it is within the limit; otherwise reading stops within one chunk of it. */
  method ReadLimited(body: Bytes, maxBytes: nat, chunkLength: nat -> nat) returns (r: Option<Bytes>, taken: nat)
    ensures r == if |body| <= maxBytes then Some(body) else None
    ensures taken <= maxBytes + 1024 * 1024
  {
    var chunks: seq<Bytes> := [];
    var total, count := 0, 0;
    while true
      invariant total <= |body| && Joined(chunks) == body[..total] && total <= maxBytes
      decreases |body| - total
    {
      var n := chunkLength(count);
      var want := if n == 0 then 1 else if n > CHUNK_BYTES then CHUNK_BYTES else n;
      var chunk := if total + want <= |body| then body[total..total + want] else body[total..];
      if chunk == [] {
        assert body[..total] == body;
        break;
      }
      total, count := total + |chunk|, count + 1;
      if total > maxBytes { return None, total; }
      JoinedSnoc(chunks, chunk);
      chunks := chunks + [chunk];
      assert body[..total] == body[..total - |chunk|] + chunk;
    }
    return Some(Joined(chunks)), total;
  }

  /** `b"".join(chunks)` */
  function Joined(chunks: seq<Bytes>): Bytes {
    if chunks == [] then [] else chunks[0] + Joined(chunks[1..])
  }

  lemma {:induction false} JoinedSnoc(chunks: seq<Bytes>, chunk: Bytes)
    ensures Joined(chunks + [chunk]) == Joined(chunks) + chunk
  {
    if chunks == [] {
      assert [] + [chunk] == [chunk] && [chunk][1..] == [];
    } else {
      assert (chunks + [chunk])[1..] == chunks[1..] + [chunk];
      JoinedSnoc(chunks[1..], chunk);
    }
  }

  // -- counting ------------------------------------------------------------------

  /** The labels of the uploads counter. */
  datatype UploadResult = ACCEPTED | REJECTED_TOO_LARGE | REJECTED_CONTENT_TYPE | REJECTED_INVALID_IMAGE | ERROR

  /** An upload as the route sees it. */
  datatype Attempt = Attempt(declaredLength: Option<nat>, request: Service.Request, chunkLength: nat -> nat,
                             chance: Service.Chance)

  /** What arrives at the route, and how it ends. A request without a file part,
      or picked by the fault injector, is refused before the handler runs. */
  datatype Arrival = Early(status: nat) | Upload(attempt: Attempt)

  datatype Ending = Refused(status: nat) | Ended(answer: Service.Answer)

  /** The label an answer belongs under, and the status the client gets. */
  function LabelOf(answer: Service.Answer): UploadResult {
    match answer
    case Accepted(_) => ACCEPTED
    case Rejected(TooLarge) => REJECTED_TOO_LARGE
    case Rejected(BadContentType) => REJECTED_CONTENT_TYPE
    case Rejected(InvalidImage) => REJECTED_INVALID_IMAGE
    case EnqueueFailed => ERROR
    case Unavailable(_) => ERROR
  }

  function StatusOf(answer: Service.Answer): nat {
    match answer
    case Accepted(_) => 202
    case Rejected(TooLarge) => 413
    case Rejected(BadContentType) => 415
    case Rejected(InvalidImage) => 400
    case EnqueueFailed => 503
    case Unavailable(error) => if error == TransientDependencyError then 503 else 500
  }

  /** The label of an attempt can be read off the response class alone. */
  lemma LabelAgreesWithStatus(a: Service.Answer, b: Service.Answer)
    ensures StatusOf(a) == StatusOf(b) ==> LabelOf(a) == LabelOf(b)
    ensures LabelOf(a) == ACCEPTED <==> StatusOf(a) == 202
    ensures LabelOf(a) == ERROR <==> StatusOf(a) >= 500
  {
  }

  /** The answer to an attempt: the declared length and the body's real length
      are checked before the service sees the upload. */
  function Answered(c: Config, api: Service.Api, a: Aws, t: Attempt): (Aws, Service.Answer) {
    if t.declaredLength.Some? && t.declaredLength.value > c.maxUploadBytes + MULTIPART_OVERHEAD_BYTES
    then (a, Service.Rejected(Service.TooLarge))
    else if |t.request.data| > c.maxUploadBytes then (a, Service.Rejected(Service.TooLarge))
    else Service.Created(c, api, a, t.request, t.chance)
  }

  /** Status and label of an attempt, by the first check or call that fails. */
  lemma EndsAs(c: Config, api: Service.Api, a: Aws, t: Attempt)
    ensures
      var (b, answer) := Answered(c, api, a, t);
      var req, chance := t.request, t.chance;
      (StatusOf(answer), LabelOf(answer)) ==
        if (t.declaredLength.Some? && t.declaredLength.value > c.maxUploadBytes + 8192) || |req.data| > c.maxUploadBytes
        then (413, REJECTED_TOO_LARGE)
        else if api.normalise(req.contentType) !in c.contentTypes then (415, REJECTED_CONTENT_TYPE)
        else if c.probe(req.data).None? then (400, REJECTED_INVALID_IMAGE)
        else if chance.put.Fine? && chance.record.Fine? && chance.send.Fine? then (202, ACCEPTED)
        else if chance.put.Fine? && chance.record.Fine? then (503, ERROR)
        else
          var error := if chance.put.Raises? then chance.put.error else chance.record.error;
          (if error == TransientDependencyError then 503 else 500, ERROR)
  {
  }

  /** How each of a sequence of arrivals ends. */
  function EndingsOf(c: Config, api: Service.Api, a: Aws, ts: seq<Arrival>): seq<Ending>
    decreases |ts|
  {
    if ts == [] then []
    else match ts[0]
      case Early(status) => [Refused(status)] + EndingsOf(c, api, a, ts[1..])
      case Upload(t) =>
        var (b, answer) := Answered(c, api, a, t);
        [Ended(answer)] + EndingsOf(c, api, b, ts[1..])
  }

  /** How many of the endings belong under a label. */
  function Count(endings: seq<Ending>, result: UploadResult): nat {
    if endings == [] then 0
    else (if endings[0].Ended? && LabelOf(endings[0].answer) == result then 1 else 0) + Count(endings[1..], result)
  }

  function Sum(endings: seq<Ending>): nat {
    Count(endings, ACCEPTED) + Count(endings, REJECTED_TOO_LARGE) + Count(endings, REJECTED_CONTENT_TYPE)
    + Count(endings, REJECTED_INVALID_IMAGE) + Count(endings, ERROR)
  }

  /** Every terminated attempt is meant to land in exactly one counter. The five
      counters of a sequence add up to the attempts exactly if none was refused
      before the handler. */
  lemma {:induction false} CountsAddUpIff(c: Config, api: Service.Api, a: Aws, ts: seq<Arrival>)
    ensures var endings := EndingsOf(c, api, a, ts);
      |endings| == |ts| && Sum(endings) <= |ts| && (Sum(endings) == |ts| <==> forall t :: t in ts ==> t.Upload?)
    decreases |ts|
  {
    if ts != [] {
      var b := if ts[0].Upload? then Answered(c, api, a, ts[0].attempt).0 else a;
      CountsAddUpIff(c, api, b, ts[1..]);
      var endings := EndingsOf(c, api, a, ts);
      assert endings[1..] == EndingsOf(c, api, b, ts[1..]);
      assert forall t :: t in ts <==> t == ts[0] || t in ts[1..];
    }
  }

  // -- fresh copies ------------------------------------------------------------------

  /** The queue names the copies of each message with ids not used before. */
  ghost predicate FreshCopies(issued: set<CopyId>, ts: seq<Arrival>)
    decreases |ts|
  {
    ts != [] ==>
      if ts[0].Upload? then
        && ts[0].attempt.chance.copies != {} && ts[0].attempt.chance.copies !! issued
        && FreshCopies(issued + ts[0].attempt.chance.copies, ts[1..])
      else FreshCopies(issued, ts[1..])
  }

  lemma {:induction false} FewerIssued(small: set<CopyId>, large: set<CopyId>, ts: seq<Arrival>)
    requires small <= large && FreshCopies(large, ts)
    ensures FreshCopies(small, ts)
    decreases |ts|
  {
    if ts != [] {
      if ts[0].Upload? {
        FewerIssued(small + ts[0].attempt.chance.copies, large + ts[0].attempt.chance.copies, ts[1..]);
      } else {
        FewerIssued(small, large, ts[1..]);
      }
    }
  }

  lemma AnsweredIssues(c: Config, api: Service.Api, a: Aws, t: Attempt)
    ensures Answered(c, api, a, t).0.issued <= a.issued + t.chance.copies
  {
  }

  class UploadRoute {
    const service: Service.JobService
    var counts: map<UploadResult, nat>

    constructor (service: Service.JobService)
      ensures this.service == service && forall l :: Counted(l) == 0
    {
      this.service := service;
      counts := map[];
    }

    function Counted(l: UploadResult): nat
      reads this
    {
      if l in counts then counts[l] else 0
    }

    /** Increment one labelled counter. */
    method Inc(result: UploadResult)
      modifies this
      ensures forall l :: Counted(l) == old(Counted(l)) + (if l == result then 1 else 0)
    {
      counts := counts[result := Counted(result) + 1];
    }

    method CreateJob(t: Attempt) returns (status: nat)
      requires service.Valid() && t.chance.copies != {} && t.chance.copies !! service.queue.issued
      modifies this, service.store, service.table, service.queue
      ensures
        var (a, answer) := Answered(service.config, service.api, old(service.Services()), t);
        && service.Services() == a && status == StatusOf(answer)
        && forall l :: Counted(l) == old(Counted(l)) + (if l == LabelOf(answer) then 1 else 0)
    {
      if t.declaredLength.Some? && t.declaredLength.value > service.config.maxUploadBytes + MULTIPART_OVERHEAD_BYTES {
        Inc(REJECTED_TOO_LARGE);
        return 413;
      }
      var data, _ := ReadLimited(t.request.data, service.config.maxUploadBytes, t.chunkLength);
      if data.None? {
        Inc(REJECTED_TOO_LARGE);
        return 413;
      }
      var answer := service.CreateJob(t.request.(data := data.value), t.chance);
      assert t.request.(data := data.value) == t.request;
      match answer {
        case Accepted(_) =>
          Inc(ACCEPTED);
        case Rejected(why) =>
          Inc(match why
              case TooLarge => REJECTED_TOO_LARGE
              case BadContentType => REJECTED_CONTENT_TYPE
              case InvalidImage => REJECTED_INVALID_IMAGE);
        case EnqueueFailed => Inc(ERROR);
        case Unavailable(_) => Inc(ERROR);
      }
      status := StatusOf(answer);
    }

    /** Any sequence of arrivals: each label grows by exactly its endings. */
    method Serve(ts: seq<Arrival>)
      requires service.Valid() && FreshCopies(service.queue.issued, ts)
      modifies this, service.store, service.table, service.queue
      ensures var endings := EndingsOf(service.config, service.api, old(service.Services()), ts);
        forall l :: Counted(l) == old(Counted(l)) + Count(endings, l)
    {
      var i := 0;
      ghost var all := EndingsOf(service.config, service.api, service.Services(), ts);
      ghost var rest := all;
      assert ts[0..] == ts;
      while i < |ts|
        invariant 0 <= i <= |ts| && FreshCopies(service.queue.issued, ts[i..])
        invariant rest == EndingsOf(service.config, service.api, service.Services(), ts[i..])
        invariant forall l :: Counted(l) + Count(rest, l) == old(Counted(l)) + Count(all, l)
      {
        assert ts[i..][0] == ts[i] && ts[i..][1..] == ts[i + 1..];
        rest := rest[1..];
        if ts[i].Upload? {
          ghost var before := service.Services();
          var _ := CreateJob(ts[i].attempt);
          AnsweredIssues(service.config, service.api, before, ts[i].attempt);
          FewerIssued(service.queue.issued, before.issued + ts[i].attempt.chance.copies, ts[i + 1..]);
        }
        i := i + 1;
      }
    }
  }
}
