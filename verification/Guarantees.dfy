/** What the documentation promises about every run, read off the invariant. */
module Guarantees {
  import opened Wrappers
  import opened PyValues
  import opened Keys
  import opened Domain
  import opened Protocol
  import opened Invariant

  // -- records, messages and originals ----------------------------------------

  /** In every reachable state a record's attributes follow its status. Nothing
      is assumed about rendering. */
  lemma RecordShapeFollowsStatus(c: Config, s: State, j: JobId)
    requires Reachable(c, s) && j in s.items
    ensures Shape(s.items[j])
  {
    ReachableKeeps(c, s);
    assert ItemOk(c, s, j);
  }

  ghost predicate Matches(c: Config, s: State, msg: Message) {
    && msg.jobId in s.items && s.items[msg.jobId].base.Some?
    && var base := s.items[msg.jobId].base.value;
    && base.inputKey == msg.inputKey && base.contentType == msg.contentType
    && base.filename == msg.filename && base.createdAt == msg.submittedAt
    && msg.jobId in s.uploads
    && Loc(msg.bucket, msg.inputKey) in s.objects
    && s.objects[Loc(msg.bucket, msg.inputKey)] == s.uploads[msg.jobId].data
  }

  lemma BodyMatches(c: Config, s: State, body: Body)
    requires Inv(c, s) && BodyOk(c, s, body) && body.Job?
    ensures Matches(c, s, body.msg)
  {
    assert ItemOk(c, s, body.msg.jobId);
  }

  /** Object first, then record, then message: at every crash point a message,
      wherever it is, has its record with matching fields and the uploaded
      bytes behind it. */
  lemma MessageImpliesRecordAndObject(c: Config, s: State)
    requires Reachable(c, s)
    ensures forall k :: k in s.queue && s.queue[k].body.Job? ==> Matches(c, s, s.queue[k].body.msg)
    ensures forall k :: k in s.dlq && s.dlq[k].body.Job? ==> Matches(c, s, s.dlq[k].body.msg)
    ensures forall w :: Holds(s, w) ==> Matches(c, s, s.tasks[w].body.msg)
  {
    ReachableKeeps(c, s);
    forall k | k in s.queue && s.queue[k].body.Job? ensures Matches(c, s, s.queue[k].body.msg) {
      BodyMatches(c, s, s.queue[k].body);
    }
    forall k | k in s.dlq && s.dlq[k].body.Job? ensures Matches(c, s, s.dlq[k].body.msg) {
      BodyMatches(c, s, s.dlq[k].body);
    }
    forall w | Holds(s, w) ensures Matches(c, s, s.tasks[w].body.msg) {
      assert TaskOk(c, s, s.tasks[w]);
      BodyMatches(c, s, s.tasks[w].body);
    }
  }

  /** A record, sent or not, has the bytes its client uploaded behind it, and
      no later step of any run changes them or the record's base attributes. */
  lemma OriginalsNeverChange(c: Config, s: State, es: seq<Event>, t: State, j: JobId)
    requires Reachable(c, s) && Path(c, s, es, t) && j in s.items
    ensures j in s.uploads && Stored(c, s, s.uploads[j])
    ensures j in t.items && j in t.uploads && t.uploads[j] == s.uploads[j] && Stored(c, t, t.uploads[j])
    ensures t.items[j].base == s.items[j].base
  {
    ReachableKeeps(c, s);
    PathKeeps(c, s, es, t);
    assert ItemOk(c, s, j) && ItemOk(c, t, j);
  }

  // -- no job is lost -----------------------------------------------------------

  /** An enqueued job with no message left anywhere has told its client how it
      ended; if nothing about it can fail, it is COMPLETE. */
  lemma NoJobLost(c: Config, s: State, j: JobId)
    requires Reachable(c, s) && j in s.sent && !HasCopy(s, j)
    ensures j in s.items && j in s.uploads && Decided(s.items[j])
    ensures !CanFail(c, s.uploads[j]) ==> s.items[j].status == COMPLETE
  {
    ReachableKeeps(c, s);
    assert ItemOk(c, s, j);
  }

  // -- writes to a record ---------------------------------------------------------

  /** The write a step makes to the record of job `j`. */
  datatype Write =
    | Keep
    | ToProcessing(now: Time)
    | ToComplete(r: Picture, ms: nat, now: Time)
    | ToFailed(reason: string, now: Time)

  ghost function WriteOf(s: State, e: Event, j: JobId): Write {
    match e
    case MarkProcessing(w, now, _) =>
      if Holds(s, w) && s.tasks[w].body.msg.jobId == j && MayProcess(s.items, j) then ToProcessing(now) else Keep
    case MarkComplete(w, now, ms, _) =>
      if Holds(s, w) && s.tasks[w].body.msg.jobId == j && s.tasks[w].at.AtMarkComplete?
      then ToComplete(s.tasks[w].at.r, ms, now) else Keep
    case MarkFailed(w, now, _) =>
      if Holds(s, w) && s.tasks[w].body.msg.jobId == j && s.tasks[w].at.AtMarkFailed?
      then ToFailed(s.tasks[w].at.reason, now) else Keep
    case _ => Keep
  }

  ghost function Written(item: Item, j: JobId, write: Write): Item {
    match write
    case Keep => item
    case ToProcessing(now) => Processing(item, now)
    case ToComplete(r, ms, now) => Completed(item, j, r, ms, now)
    case ToFailed(reason, now) => Failed(item, reason, now)
  }

  /** When each write happens. Only the first is checked by the table itself. */
  ghost predicate Justified(c: Config, up: Upload, item: Item, write: Write) {
    match write
    case Keep => true
    case ToProcessing(_) => item.status != COMPLETE && up.bucket == c.bucket
    case ToComplete(r, _, _) => up.bucket == c.bucket && Renders(c, up.data, r)
    case ToFailed(_, _) => CanFail(c, up)
  }

  /** A request rewrites no record but its own. */
  lemma ApiSparesOthers(c: Config, s: State, e: Event, j: JobId)
    requires ApiEnabled(c, s, e) && j in s.items && (e.p in s.calls ==> s.calls[e.p].up.jobId != j)
    ensures j in ApiApply(c, s, e).items && ApiApply(c, s, e).items[j] == s.items[j]
  {
    match e
    case PutRecord(p, done) => assert PuttingRecord(c, s, p, done).items[j] == s.items[j];
    case MarkUnqueueable(p, now, done) => assert MarkingUnqueueable(c, s, p, now, done).items[j] == s.items[j];
    case _ => ApiLeavesRecords(c, s, e);
  }

  lemma ApiLeavesRecords(c: Config, s: State, e: Event)
    requires ApiEnabled(c, s, e) && !(e.PutRecord? || e.MarkUnqueueable?)
    ensures ApiApply(c, s, e).items == s.items
  {
  }

  lemma ApiSparesSent(c: Config, s: State, e: Event, j: JobId)
    requires CallsOk(c, s) && ApiEnabled(c, s, e) && j in s.sent && j in s.items
    ensures j in ApiApply(c, s, e).items && ApiApply(c, s, e).items[j] == s.items[j]
  {
    if e.p in s.calls { assert CallOk(c, s, s.calls[e.p]); }
    ApiSparesOthers(c, s, e, j);
  }

  lemma ProcessingWrites(c: Config, s: State, e: Event, j: JobId)
    requires TasksOk(c, s) && WorkerEnabled(c, s, e) && e.MarkProcessing? && j in s.items && j in s.uploads
    ensures WrittenAs(s.items, WorkerApply(c, s, e).items, j, WriteOf(s, e, j))
    ensures Justified(c, s.uploads[j], s.items[j], WriteOf(s, e, j))
  {
    assert TaskOk(c, s, s.tasks[e.w]);
  }

  /** The record of `j` changes by that write. */
  ghost predicate WrittenAs(was: map<JobId, Item>, now: map<JobId, Item>, j: JobId, write: Write) {
    j in was && j in now && now[j] == Written(was[j], j, write)
  }

  lemma WorkerWrites(c: Config, s: State, e: Event, j: JobId)
    requires TasksOk(c, s) && WorkerEnabled(c, s, e) && j in s.items && j in s.uploads
    ensures WrittenAs(s.items, WorkerApply(c, s, e).items, j, WriteOf(s, e, j))
    ensures Justified(c, s.uploads[j], s.items[j], WriteOf(s, e, j))
  {
    if e.MarkProcessing? {
      ProcessingWrites(c, s, e, j);
    } else if e.MarkComplete? {
      CompleteWrites(c, s, e, j);
    } else if e.MarkFailed? {
      FailedWrites(c, s, e, j);
    } else {
      NoRecordWritten(c, s, e);
      NoWrite(s, e, j);
    }
  }

  lemma CompleteWrites(c: Config, s: State, e: Event, j: JobId)
    requires TasksOk(c, s) && WorkerEnabled(c, s, e) && e.MarkComplete? && j in s.items && j in s.uploads
    ensures WrittenAs(s.items, WorkerApply(c, s, e).items, j, WriteOf(s, e, j))
    ensures Justified(c, s.uploads[j], s.items[j], WriteOf(s, e, j))
  {
    assert TaskOk(c, s, s.tasks[e.w]);
  }

  lemma FailedWrites(c: Config, s: State, e: Event, j: JobId)
    requires TasksOk(c, s) && WorkerEnabled(c, s, e) && e.MarkFailed? && j in s.items && j in s.uploads
    ensures WrittenAs(s.items, WorkerApply(c, s, e).items, j, WriteOf(s, e, j))
    ensures Justified(c, s.uploads[j], s.items[j], WriteOf(s, e, j))
  {
    assert TaskOk(c, s, s.tasks[e.w]);
  }

  lemma NoRecordWritten(c: Config, s: State, e: Event)
    requires WorkerEnabled(c, s, e) && !(e.MarkProcessing? || e.MarkComplete? || e.MarkFailed?)
    ensures WorkerApply(c, s, e).items == s.items
  {
  }

  lemma NoWrite(s: State, e: Event, j: JobId)
    requires !(e.MarkProcessing? || e.MarkComplete? || e.MarkFailed?)
    ensures WriteOf(s, e, j) == Keep
  {
  }

  lemma SentWrite(c: Config, s: State, e: Event, j: JobId)
    requires CallsOk(c, s) && TasksOk(c, s) && Enabled(c, s, e) && j in s.sent && j in s.items && j in s.uploads
    ensures j in Apply(c, s, e).items && Apply(c, s, e).items[j] == Written(s.items[j], j, WriteOf(s, e, j))
    ensures Justified(c, s.uploads[j], s.items[j], WriteOf(s, e, j))
  {
    if ApiEnabled(c, s, e) {
      ApiSparesSent(c, s, e, j);
      NoWrite(s, e, j);
    } else if WorkerEnabled(c, s, e) {
      WorkerWrites(c, s, e, j);
    } else {
      QueueWritesNothing(c, s, e);
      NoWrite(s, e, j);
    }
  }

  /** Once a job is enqueued its record changes by justified worker writes only;
      in particular the API's overwrite never reaches it. */
  lemma SentRecordStep(c: Config, s: State, e: Event, j: JobId)
    requires Inv(c, s) && Enabled(c, s, e) && j in s.sent
    ensures j in s.items && j in s.uploads && j in Apply(c, s, e).items
    ensures Apply(c, s, e).items[j] == Written(s.items[j], j, WriteOf(s, e, j))
    ensures Justified(c, s.uploads[j], s.items[j], WriteOf(s, e, j))
  {
    assert ItemOk(c, s, j);
    SentWrite(c, s, e, j);
  }

  lemma QueueWritesNothing(c: Config, s: State, e: Event)
    requires QueueEnabled(c, s, e)
    ensures QueueApply(c, s, e).items == s.items
  {
  }

  /** The unconditional overwrite after a refused send hits a record that no
      message and no worker refers to. */
  lemma OverwriteIsPrivate(c: Config, s: State, p: Pid)
    requires Reachable(c, s) && p in s.calls && s.calls[p].at.AtMarkUnqueueable?
    ensures var j := s.calls[p].up.jobId;
      && j !in s.sent && !HasCopy(s, j)
      && forall w :: Holds(s, w) ==> s.tasks[w].body.msg.jobId != j
  {
    ReachableKeeps(c, s);
    assert CallOk(c, s, s.calls[p]);
    var j := s.calls[p].up.jobId;
    forall k ensures !CopyOf(s, k, j) {
      assert k in s.queue ==> BodyOk(c, s, s.queue[k].body);
      assert k in s.dlq ==> BodyOk(c, s, s.dlq[k].body);
    }
    forall w | Holds(s, w) ensures s.tasks[w].body.msg.jobId != j {
      assert TaskOk(c, s, s.tasks[w]);
    }
  }

  // -- COMPLETE is final ----------------------------------------------------------

  /** A COMPLETE record stays COMPLETE when its bytes can never be found
      undecodable. */
  lemma CompleteStep(c: Config, s: State, e: Event, j: JobId)
    requires Inv(c, s) && Enabled(c, s, e)
    requires j in s.items && s.items[j].status == COMPLETE
    requires j in s.uploads && !CanBeUndecodable(c, s.uploads[j].data)
    ensures j in Apply(c, s, e).items && Apply(c, s, e).items[j].status == COMPLETE
  {
    assert ItemOk(c, s, j);
    SentRecordStep(c, s, e, j);
  }

  lemma {:induction false} CompleteIsFinal(c: Config, s: State, es: seq<Event>, t: State, j: JobId)
    requires Inv(c, s) && Path(c, s, es, t)
    requires j in s.items && s.items[j].status == COMPLETE
    requires j in s.uploads && !CanBeUndecodable(c, s.uploads[j].data)
    ensures j in t.items && t.items[j].status == COMPLETE
    decreases |es|
  {
    if es != [] {
      CompleteStep(c, s, es[0], j);
      StepKeeps(c, s, es[0]);
      CompleteIsFinal(c, Apply(c, s, es[0]), es[1..], t, j);
    }
  }

  // -- one verdict per job ----------------------------------------------------------

  datatype Verdict =
    | Success(outputs: map<nat, Output>, exif: Exif, width: nat, height: nat, format: string)
    | Failure

  /** Two attempts on the same bytes agree, up to the wording of a failure. */
  ghost predicate Deterministic(c: Config) {
    forall data, r, q :: Renders(c, data, r) && Renders(c, data, q) ==> r == q || (r.Undecodable? && q.Undecodable?)
  }

  ghost function SuccessOf(j: JobId, r: Picture): Verdict {
    Success(OutputsUpTo(j, r.thumbs, |r.thumbs|), r.exif, r.width, r.height, r.format)
  }

  /** The verdict is fixed by the message and the bytes. */
  ghost function VerdictOf(c: Config, up: Upload): Verdict {
    if up.bucket != c.bucket || !CanSucceed(c, up.data) then Failure
    else var r :| Renders(c, up.data, r) && r.Image?; SuccessOf(up.jobId, r)
  }

  ghost predicate CanSucceed(c: Config, data: Bytes) {
    exists r :: Renders(c, data, r) && r.Image?
  }

  ghost predicate Terminal(write: Write) {
    write.ToComplete? || write.ToFailed?
  }

  ghost function WriteVerdict(j: JobId, write: Write): Verdict
    requires Terminal(write)
  {
    if write.ToComplete? then SuccessOf(j, write.r) else Failure
  }

  lemma PictureVerdict(c: Config, up: Upload, r: Rendered)
    requires Deterministic(c) && up.bucket == c.bucket && r.Image? && Renders(c, up.data, r)
    ensures VerdictOf(c, up) == SuccessOf(up.jobId, r)
  {
  }

  lemma FailureVerdict(c: Config, up: Upload)
    requires Deterministic(c) && CanFail(c, up)
    ensures VerdictOf(c, up) == Failure
  {
    if up.bucket == c.bucket {
      var reason :| Renders(c, up.data, Undecodable(reason));
      forall r | Renders(c, up.data, r) ensures !r.Image? {
        assert r == Undecodable(reason) || r.Undecodable?;
      }
    }
  }

  /** Every terminal write to an enqueued job writes its verdict. */
  lemma TerminalWriteIsVerdict(c: Config, s: State, e: Event, j: JobId)
    requires Inv(c, s) && Enabled(c, s, e) && Deterministic(c)
    requires j in s.sent && Terminal(WriteOf(s, e, j))
    ensures j in s.uploads && WriteVerdict(j, WriteOf(s, e, j)) == VerdictOf(c, s.uploads[j])
  {
    SentRecordStep(c, s, e, j);
    var write := WriteOf(s, e, j);
    if write.ToComplete? {
      PictureVerdict(c, s.uploads[j], write.r);
    } else {
      FailureVerdict(c, s.uploads[j]);
    }
  }

  /** No two terminal writes to a job ever disagree, however far apart in a run
      and whichever workers make them. */
  lemma TerminalWritesAgree(c: Config, s: State, e: Event, es: seq<Event>, t: State, f: Event, j: JobId)
    requires Reachable(c, s) && Enabled(c, s, e) && Path(c, Apply(c, s, e), es, t) && Enabled(c, t, f)
    requires Deterministic(c) && j in s.sent
    requires Terminal(WriteOf(s, e, j)) && Terminal(WriteOf(t, f, j))
    ensures WriteVerdict(j, WriteOf(s, e, j)) == WriteVerdict(j, WriteOf(t, f, j))
  {
    ReachableKeeps(c, s);
    StepKeeps(c, s, e);
    PathKeeps(c, Apply(c, s, e), es, t);
    GrowsTransitive(c, s, Apply(c, s, e), t);
    TerminalWriteIsVerdict(c, s, e, j);
    TerminalWriteIsVerdict(c, t, f, j);
  }

  // -- what a COMPLETE record points at ---------------------------------------------

  /** The record and the store hold exactly the rendering `r` of job `j`. */
  ghost predicate Delivered(c: Config, s: State, j: JobId, r: Rendered)
    requires j in s.items
  {
    var item := s.items[j];
    && r.Image? && item.outputs.Some? && item.outputs.value.Keys == set n | n in c.sizes
    && item.width == Some(r.width) && item.height == Some(r.height) && item.exif == Some(r.exif)
    && forall i :: 0 <= i < |r.thumbs| ==>
         var t := r.thumbs[i];
         var loc := Loc(c.bucket, Thumb(j, t.size));
         && t.size in item.outputs.value
         && item.outputs.value[t.size] == Output(t.size, loc.key, t.width, t.height, |t.data|)
         && loc in s.objects && s.objects[loc] == t.data
  }

  /** In every reachable state a COMPLETE record has one output per distinct
      configured size, and each names a stored thumbnail that is the rendering
      of the original at the job's input key, with its true dimensions and
      length. That holds while other workers re-upload the same job. */
  lemma CompleteMeansDelivered(c: Config, s: State, j: JobId)
    requires Reachable(c, s) && Deterministic(c) && j in s.items && s.items[j].status == COMPLETE
    ensures j in s.uploads && Stored(c, s, s.uploads[j])
    ensures exists r :: Renders(c, s.uploads[j].data, r) && Delivered(c, s, j, r)
  {
    ReachableKeeps(c, s);
    assert ItemOk(c, s, j) && s.uploads[j].jobId == j;
    var r :| CompletedFrom(c, s.objects, s.uploads[j], s.items[j], r);
    PictureDelivered(c, s, j, r);
  }

  lemma PictureDelivered(c: Config, s: State, j: JobId, r: Rendered)
    requires OutputsOk(c, s) && Deterministic(c) && j in s.items && j in s.uploads && s.uploads[j].jobId == j
    requires CompletedFrom(c, s.objects, s.uploads[j], s.items[j], r)
    ensures Delivered(c, s, j, r)
  {
    OneOutputPerSize(c, j, s.uploads[j].data, r);
    OutputsAre(j, r.thumbs, |r.thumbs|);
    forall i | 0 <= i < |r.thumbs|
      ensures s.objects[Loc(c.bucket, Thumb(j, r.thumbs[i].size))] == r.thumbs[i].data
    {
      StoredThumb(c, s, j, r, i);
    }
  }

  lemma StoredThumb(c: Config, s: State, j: JobId, r: Rendered, i: nat)
    requires OutputsOk(c, s) && Deterministic(c) && j in s.uploads && r.Image? && i < |r.thumbs|
    requires Renders(c, s.uploads[j].data, r) && Loc(c.bucket, Thumb(j, r.thumbs[i].size)) in s.objects
    ensures s.objects[Loc(c.bucket, Thumb(j, r.thumbs[i].size))] == r.thumbs[i].data
  {
    var size := r.thumbs[i].size;
    var bytes := s.objects[Loc(c.bucket, Thumb(j, size))];
    assert PossibleThumb(c, s.uploads[j].data, size, bytes);
    var q: Rendered, k: nat :|
      && Renders(c, s.uploads[j].data, q) && q.Image?
      && k < |q.thumbs| && q.thumbs[k].size == size && q.thumbs[k].data == bytes;
    assert q == r;
    assert SizesOf(r.thumbs)[i] == SizesOf(r.thumbs)[k];
  }
}
