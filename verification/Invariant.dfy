/** What every step of the protocol keeps, with no assumption that rendering is
    deterministic, that a message is held once, or that calls report what they
    did. */
module Invariant {
  import opened Wrappers
  import opened PyValues
  import opened Keys
  import opened Domain
  import opened Protocol

  // -- what a record may say --------------------------------------------------

  /** Attributes follow the status. */
  ghost predicate Shape(item: Item) {
    match item.status
    case PENDING =>
      && item.startedAt.None? && item.completedAt.None? && item.outputs.None? && item.exif.None?
      && item.processingMs.None? && item.error.None?
    case PROCESSING => item.startedAt.Some?
    case FAILED => item.error.Some? && item.completedAt.Some?
    case COMPLETE =>
      && item.startedAt.Some? && item.completedAt.Some? && item.outputs.Some? && item.exif.Some?
      && item.processingMs.Some? && item.error.None?
  }

  /** A client can tell how the job ended. `mark_processing` keeps `error`, so
      once decided a record stays decided. */
  ghost predicate Decided(item: Item) {
    item.status == COMPLETE || item.error.Some?
  }

  /** Some delivery of this job may be failed for good. */
  ghost predicate CanFail(c: Config, up: Upload) {
    up.bucket != c.bucket || CanBeUndecodable(c, up.data)
  }

  ghost predicate CanBeUndecodable(c: Config, data: Bytes) {
    exists reason :: Renders(c, data, Undecodable(reason))
  }

  /** `item` is what completing job `up` with the picture `r` leaves behind. */
  ghost predicate CompletedFrom(c: Config, objects: map<Loc, Bytes>, up: Upload, item: Item, r: Rendered) {
    && r.Image? && Renders(c, up.data, r)
    && item.outputs == Some(OutputsUpTo(up.jobId, r.thumbs, |r.thumbs|)) && item.exif == Some(r.exif)
    && item.width == Some(r.width) && item.height == Some(r.height) && item.format == Some(r.format)
    && ThumbsStored(c, objects, up.jobId, r.thumbs, |r.thumbs|)
  }

  ghost predicate ThumbsStored(c: Config, objects: map<Loc, Bytes>, j: JobId, thumbs: seq<Thumbnail>, n: nat)
    requires n <= |thumbs|
  {
    forall i :: 0 <= i < n ==> Loc(c.bucket, Thumb(j, thumbs[i].size)) in objects
  }

  /** `bytes` is the thumbnail of some rendering of `data` at `size`. */
  ghost predicate PossibleThumb(c: Config, data: Bytes, size: nat, bytes: Bytes) {
    exists r: Rendered, i: nat ::
      Renders(c, data, r) && r.Image? && i < |r.thumbs| && r.thumbs[i].size == size && r.thumbs[i].data == bytes
  }

  ghost predicate Stored(c: Config, s: State, up: Upload) {
    OriginalLoc(c, up) in s.objects && s.objects[OriginalLoc(c, up)] == up.data
  }

  // -- the invariant, one predicate per part of the state ----------------------

  ghost predicate UploadsOk(s: State) {
    forall j :: j in s.uploads ==> s.uploads[j].jobId == j
  }

  ghost predicate CallOk(c: Config, s: State, call: Call) {
    var up := call.up;
    var j := up.jobId;
    && j in s.uploads && s.uploads[j] == up && j !in s.sent
    && match call.at
       case AtPutObject => j !in s.items
       case AtPutRecord => Stored(c, s, up) && (j in s.items ==> s.items[j] == PendingItem(c, up))
       case AtSend => Stored(c, s, up) && j in s.items && s.items[j] == PendingItem(c, up)
       case AtMarkUnqueueable(_) => Stored(c, s, up) && j in s.items
  }

  ghost predicate CallsOk(c: Config, s: State) {
    && (forall p :: p in s.calls ==> CallOk(c, s, s.calls[p]))
    && (forall p, q :: p in s.calls && q in s.calls && p != q ==> s.calls[p].up.jobId != s.calls[q].up.jobId)
  }

  /** What the record of an enqueued job says about the job. */
  ghost predicate SentItemOk(c: Config, s: State, up: Upload, item: Item) {
    && (item.status != PENDING ==> up.version <= MESSAGE_SCHEMA_VERSION)
    && (item.status == PROCESSING ==> up.bucket == c.bucket)
    && (item.error.Some? ==> CanFail(c, up))
    && (item.status == COMPLETE ==> up.bucket == c.bucket && exists r :: CompletedFrom(c, s.objects, up, item, r))
  }

  ghost predicate ItemOk(c: Config, s: State, j: JobId)
    requires j in s.items
  {
    var item := s.items[j];
    && j in s.uploads && Stored(c, s, s.uploads[j])
    && item.base == Some(BaseOf(c, s.uploads[j])) && Shape(item)
    && (if j in s.sent then SentItemOk(c, s, s.uploads[j], item) else item.status in {PENDING, FAILED})
  }

  ghost predicate ItemsOk(c: Config, s: State) {
    && (forall j :: j in s.items ==> ItemOk(c, s, j))
    && (forall j :: j in s.sent ==> j in s.items)
  }

  /** A message implies its record, with matching fields. */
  ghost predicate BodyOk(c: Config, s: State, body: Body) {
    body.Job? ==>
      var j := body.msg.jobId;
      j in s.sent && j in s.uploads && body.msg == MessageOf(c, s.uploads[j])
  }

  ghost predicate CopiesOk(c: Config, s: State) {
    && (forall k :: k in s.queue ==>
          k in s.issued && k !in s.dlq && s.queue[k].receives <= c.maxReceives && BodyOk(c, s, s.queue[k].body))
    && (forall k :: k in s.dlq ==> k in s.issued && BodyOk(c, s, s.dlq[k].body))
  }

  /** What a worker at each program counter may rely on. */
  ghost predicate TaskAt(c: Config, s: State, j: JobId, at: WorkAt)
    requires j in s.items && j in s.uploads
  {
    var up := s.uploads[j];
    match at
    case AtLookup => true
    case AtMarkProcessing => up.bucket == c.bucket
    case AtDownload => up.bucket == c.bucket && s.items[j].startedAt.Some?
    case AtUpload(r, n) =>
      && up.bucket == c.bucket && s.items[j].startedAt.Some? && Renders(c, up.data, r)
      && n < |r.thumbs| && ThumbsStored(c, s.objects, j, r.thumbs, n)
    case AtMarkComplete(r) =>
      && up.bucket == c.bucket && s.items[j].startedAt.Some? && Renders(c, up.data, r)
      && ThumbsStored(c, s.objects, j, r.thumbs, |r.thumbs|)
    case AtMarkFailed(_) => CanFail(c, up)
    case AtDelete => Decided(s.items[j])
  }

  ghost predicate TaskOk(c: Config, s: State, t: Task) {
    && t.copy in s.issued && BodyOk(c, s, t.body)
    && (t.copy in s.queue ==> s.queue[t.copy].body == t.body)
    && match t.body
       case Malformed => t.at == AtDelete
       case Job(msg) => msg.version <= MESSAGE_SCHEMA_VERSION && msg.jobId in s.items && TaskAt(c, s, msg.jobId, t.at)
  }

  ghost predicate TasksOk(c: Config, s: State) {
    forall w :: w in s.tasks ==> TaskOk(c, s, s.tasks[w])
  }

  /** Every stored output belongs to a known job and comes from a rendering of
      its original. */
  ghost predicate OutputsOk(c: Config, s: State) {
    forall j, n :: Loc(c.bucket, Thumb(j, n)) in s.objects ==>
      j in s.uploads && PossibleThumb(c, s.uploads[j].data, n, s.objects[Loc(c.bucket, Thumb(j, n))])
  }

  ghost predicate IsFor(body: Body, j: JobId) {
    body.Job? && body.msg.jobId == j
  }

  /** Copy `k`, on the queue or parked on the DLQ, carries job `j`. */
  ghost predicate CopyOf(s: State, k: CopyId, j: JobId) {
    || (k in s.queue && IsFor(s.queue[k].body, j))
    || (k in s.dlq && IsFor(s.dlq[k].body, j))
  }

  ghost predicate HasCopy(s: State, j: JobId) {
    exists k :: CopyOf(s, k, j)
  }

  ghost predicate NoneLost(s: State) {
    forall j :: j in s.sent ==> j in s.items && (Decided(s.items[j]) || HasCopy(s, j))
  }

  ghost predicate Inv(c: Config, s: State) {
    UploadsOk(s) && CallsOk(c, s) && ItemsOk(c, s) && CopiesOk(c, s) && TasksOk(c, s) && OutputsOk(c, s) && NoneLost(s)
  }

  // -- what only grows ---------------------------------------------------------

  /** History and originals are never undone, and the facts workers rely on
      stay true of every record. */
  ghost predicate Grows(c: Config, s: State, t: State) {
    && (forall j :: j in s.uploads ==> j in t.uploads && t.uploads[j] == s.uploads[j])
    && s.sent <= t.sent && s.issued <= t.issued && s.objects.Keys <= t.objects.Keys
    && (forall j :: j in s.uploads && Stored(c, s, s.uploads[j]) ==> Stored(c, t, s.uploads[j]))
    && (forall j :: j in s.items ==> j in t.items)
    && (forall k :: k in s.issued && k in t.queue ==> k in s.queue && t.queue[k].body == s.queue[k].body)
    && (forall j :: j in s.sent && j in s.items ==> RecordGrows(s.items[j], t.items[j]))
  }

  ghost predicate RecordGrows(was: Item, now: Item) {
    && (was.startedAt.Some? ==> now.startedAt.Some?)
    && (Decided(was) ==> Decided(now))
  }

  lemma BodyKept(c: Config, s: State, t: State, body: Body)
    requires BodyOk(c, s, body) && Grows(c, s, t)
    ensures BodyOk(c, t, body)
  {
  }

  lemma TaskKept(c: Config, s: State, t: State, task: Task)
    requires TaskOk(c, s, task) && Grows(c, s, t)
    ensures TaskOk(c, t, task)
  {
  }

  /** Tasks other than the ones that moved stay in order. */
  lemma TasksKept(c: Config, s: State, t: State, moved: set<Pid>)
    requires TasksOk(c, s) && Grows(c, s, t)
    requires forall w :: w in t.tasks && w !in moved ==> w in s.tasks && t.tasks[w] == s.tasks[w]
    requires forall w :: w in moved && w in t.tasks ==> TaskOk(c, t, t.tasks[w])
    ensures TasksOk(c, t)
  {
    forall w | w in t.tasks && w !in moved ensures TaskOk(c, t, t.tasks[w]) {
      TaskKept(c, s, t, s.tasks[w]);
    }
  }

  lemma CallsKept(c: Config, s: State, t: State, moved: set<Pid>)
    requires CallsOk(c, s) && Grows(c, s, t)
    requires forall p :: p in t.calls && p !in moved ==>
      && p in s.calls && t.calls[p] == s.calls[p]
      && var j := t.calls[p].up.jobId;
         j !in t.sent && (j in t.items <==> j in s.items) && (j in s.items ==> t.items[j] == s.items[j])
    requires forall p :: p in moved && p in t.calls ==> CallOk(c, t, t.calls[p])
    requires forall p, q :: p in t.calls && q in t.calls && p != q ==> t.calls[p].up.jobId != t.calls[q].up.jobId
    ensures CallsOk(c, t)
  {
    forall p | p in t.calls && p !in moved ensures CallOk(c, t, t.calls[p]) {
      assert CallOk(c, s, s.calls[p]);
    }
  }

  /** Requests that did not move, over records that did not change. */
  lemma CallsUntouched(c: Config, s: State, t: State)
    requires CallsOk(c, s) && Grows(c, s, t) && t.calls == s.calls && t.sent == s.sent && t.items == s.items
    ensures CallsOk(c, t)
  {
    forall q | q in s.calls ensures CallOk(c, t, t.calls[q]) {
      assert CallOk(c, s, s.calls[q]);
    }
  }

  /** Requests that did not move, while the record of an enqueued job changed. */
  lemma CallsElsewhere(c: Config, s: State, t: State, j: JobId)
    requires CallsOk(c, s) && Grows(c, s, t) && t.calls == s.calls && t.sent == s.sent && j in s.sent
    requires forall i :: i != j ==> (i in t.items <==> i in s.items) && (i in s.items ==> t.items[i] == s.items[i])
    ensures CallsOk(c, t)
  {
    forall q | q in s.calls ensures CallOk(c, t, t.calls[q]) {
      assert CallOk(c, s, s.calls[q]);
    }
  }

  /** No two requests upload the same job. */
  lemma OtherCalls(c: Config, s: State, p: Pid)
    requires CallsOk(c, s) && p in s.calls
    ensures forall q :: q in s.calls && q != p ==> s.calls[q].up.jobId != s.calls[p].up.jobId
  {
  }

  lemma ItemKept(c: Config, s: State, t: State, j: JobId)
    requires Grows(c, s, t) && j in s.items && ItemOk(c, s, j) && t.items[j] == s.items[j]
    requires j in t.sent ==> j in s.sent
    ensures ItemOk(c, t, j)
  {
    if j in s.sent && s.items[j].status == COMPLETE {
      var r :| CompletedFrom(c, s.objects, s.uploads[j], s.items[j], r);
      assert CompletedFrom(c, t.objects, t.uploads[j], t.items[j], r);
    }
  }

  lemma ItemsKept(c: Config, s: State, t: State, moved: set<JobId>)
    requires ItemsOk(c, s) && Grows(c, s, t)
    requires forall j :: j in t.items && j !in moved ==>
      j in s.items && t.items[j] == s.items[j] && (j in t.sent ==> j in s.sent)
    requires forall j :: j in moved && j in t.items ==> ItemOk(c, t, j)
    requires forall j :: j in t.sent ==> j in t.items
    ensures ItemsOk(c, t)
  {
    forall j | j in t.items && j !in moved ensures ItemOk(c, t, j) {
      ItemKept(c, s, t, j);
    }
  }

  /** The bodies on the queue and the DLQ are ones that were there before, or
      are in order. */
  lemma CopiesKept(c: Config, s: State, t: State)
    requires CopiesOk(c, s) && Grows(c, s, t)
    requires forall k :: k in t.queue ==> k in t.issued && k !in t.dlq && t.queue[k].receives <= c.maxReceives
    requires forall k :: k in t.queue ==>
      (k in s.queue && t.queue[k].body == s.queue[k].body) || BodyOk(c, t, t.queue[k].body)
    requires forall k :: k in t.dlq ==> (k in s.dlq && t.dlq[k] == s.dlq[k]) || (k in s.queue && t.dlq[k] == s.queue[k])
    ensures CopiesOk(c, t)
  {
    forall k | k in t.queue ensures BodyOk(c, t, t.queue[k].body) {
      if k in s.queue && t.queue[k].body == s.queue[k].body { BodyKept(c, s, t, s.queue[k].body); }
    }
    forall k | k in t.dlq ensures BodyOk(c, t, t.dlq[k].body) {
      BodyKept(c, s, t, t.dlq[k].body);
    }
  }

  lemma OutputsKept(c: Config, s: State, t: State)
    requires OutputsOk(c, s) && Grows(c, s, t)
    requires forall j, n :: Loc(c.bucket, Thumb(j, n)) in t.objects ==>
      Loc(c.bucket, Thumb(j, n)) in s.objects &&
      t.objects[Loc(c.bucket, Thumb(j, n))] == s.objects[Loc(c.bucket, Thumb(j, n))]
    ensures OutputsOk(c, t)
  {
  }

  /** No job is lost as long as no undecided job loses a copy. */
  lemma NoneLostKept(c: Config, s: State, t: State, newly: set<JobId>)
    requires NoneLost(s) && Grows(c, s, t)
    requires forall k, j :: CopyOf(s, k, j) && j in s.sent ==> CopyOf(t, k, j) || (j in t.items && Decided(t.items[j]))
    requires forall j :: j in t.sent ==> j in s.sent || j in newly
    requires forall j :: j in newly ==> j in t.items && HasCopy(t, j)
    ensures NoneLost(t)
  {
    forall j | j in t.sent ensures j in t.items && (Decided(t.items[j]) || HasCopy(t, j)) {
      if j !in newly && !Decided(s.items[j]) {
        var k :| CopyOf(s, k, j);
        assert CopyOf(t, k, j) || Decided(t.items[j]);
      }
    }
  }

  lemma GrowsTransitive(c: Config, s: State, t: State, u: State)
    requires Grows(c, s, t) && Grows(c, t, u)
    ensures Grows(c, s, u)
  {
  }

  // -- the API steps ----------------------------------------------------------

  /** No worker moves and the queue stays as it is. */
  lemma WorkersIdle(c: Config, s: State, t: State)
    requires CopiesOk(c, s) && TasksOk(c, s) && NoneLost(s) && Grows(c, s, t)
    requires t.queue == s.queue && t.dlq == s.dlq && t.tasks == s.tasks && t.sent == s.sent
    ensures CopiesOk(c, t) && TasksOk(c, t) && NoneLost(t)
  {
    TasksKept(c, s, t, {});
    CopiesKept(c, s, t);
    NoneLostKept(c, s, t, {});
  }

  /** Requests change, nothing else. */
  lemma CallsMove(c: Config, s: State, t: State, p: Pid)
    requires Inv(c, s) && t == s.(calls := t.calls)
    requires forall q :: q in t.calls && q != p ==> q in s.calls && t.calls[q] == s.calls[q]
    requires p in t.calls ==> CallOk(c, s, t.calls[p])
    requires p in t.calls ==> forall q :: q in s.calls && q != p ==> s.calls[q].up.jobId != t.calls[p].up.jobId
    ensures Inv(c, t) && Grows(c, s, t)
  {
    assert Grows(c, s, t);
    CallsMoveCalls(c, s, t, p);
    OutputsKept(c, s, t);
    ItemsKept(c, s, t, {});
    WorkersIdle(c, s, t);
  }

  lemma CallsMoveCalls(c: Config, s: State, t: State, p: Pid)
    requires CallsOk(c, s) && t == s.(calls := t.calls) && Grows(c, s, t)
    requires forall q :: q in t.calls && q != p ==> q in s.calls && t.calls[q] == s.calls[q]
    requires p in t.calls ==> CallOk(c, s, t.calls[p])
    requires p in t.calls ==> forall q :: q in s.calls && q != p ==> s.calls[q].up.jobId != t.calls[p].up.jobId
    ensures CallsOk(c, t)
  {
    assert forall q :: q in s.calls ==> CallOk(c, s, s.calls[q]);
    CallsKept(c, s, t, {p});
  }

  /** A fresh upload is begun, or its object or its record is written. */
  lemma UploadMoves(c: Config, s: State, t: State, j: JobId)
    requires Inv(c, s) && Grows(c, s, t) && UploadsOk(t) && CallsOk(c, t) && j !in s.sent
    requires t.calls == s.calls && t.queue == s.queue && t.dlq == s.dlq && t.tasks == s.tasks && t.sent == s.sent
    requires forall i :: i in t.items && i != j ==> i in s.items && t.items[i] == s.items[i]
    requires j in t.items ==> ItemOk(c, t, j)
    requires forall loc :: loc in t.objects && loc.key.Thumb? ==> loc in s.objects && t.objects[loc] == s.objects[loc]
    ensures Inv(c, t)
  {
    OutputsKept(c, s, t);
    ItemsKept(c, s, t, {j});
    WorkersIdle(c, s, t);
  }

  lemma UploadGrows(c: Config, s: State, up: Upload)
    requires up.jobId !in s.uploads
    ensures Grows(c, s, s.(uploads := s.uploads[up.jobId := up]))
  {
  }

  lemma NewToItems(c: Config, s: State, j: JobId)
    requires ItemsOk(c, s) && j !in s.uploads
    ensures j !in s.items && j !in s.sent
  {
    assert j in s.items ==> ItemOk(c, s, j);
  }

  lemma UploadBegun(c: Config, s: State, up: Upload)
    requires Inv(c, s) && up.jobId !in s.uploads
    ensures var t := s.(uploads := s.uploads[up.jobId := up]); Inv(c, t) && Grows(c, s, t) && up.jobId !in s.items
  {
    var t := s.(uploads := s.uploads[up.jobId := up]);
    NewToItems(c, s, up.jobId);
    UploadGrows(c, s, up);
    UploadBegunCalls(c, s, up);
    UploadMoves(c, s, t, up.jobId);
  }

  lemma UploadBegunCalls(c: Config, s: State, up: Upload)
    requires CallsOk(c, s) && up.jobId !in s.uploads && up.jobId !in s.items
    requires Grows(c, s, s.(uploads := s.uploads[up.jobId := up]))
    ensures CallsOk(c, s.(uploads := s.uploads[up.jobId := up]))
  {
    CallsUntouched(c, s, s.(uploads := s.uploads[up.jobId := up]));
  }

  lemma NewToCalls(c: Config, s: State, j: JobId)
    requires CallsOk(c, s) && j !in s.uploads
    ensures forall q :: q in s.calls ==> s.calls[q].up.jobId != j
  {
    assert forall q :: q in s.calls ==> CallOk(c, s, s.calls[q]);
  }

  lemma BeginKeeps(c: Config, s: State, p: Pid, up: Upload)
    requires Inv(c, s) && ApiEnabled(c, s, Begin(p, up))
    ensures Grows(c, s, Begun(s, p, up)) && Inv(c, Begun(s, p, up))
  {
    var t, u := s.(uploads := s.uploads[up.jobId := up]), Begun(s, p, up);
    NewToCalls(c, s, up.jobId);
    UploadBegun(c, s, up);
    CallsMove(c, t, u, p);
    GrowsTransitive(c, s, t, u);
  }

  lemma OriginalStored(c: Config, s: State, p: Pid)
    requires Inv(c, s) && p in s.calls && s.calls[p].at == AtPutObject
    ensures
      var t := ObjectSet(s, OriginalLoc(c, s.calls[p].up), s.calls[p].up.data);
      Inv(c, t) && Grows(c, s, t)
  {
    var up := s.calls[p].up;
    OriginalStoredCalls(c, s, p);
    assert up.jobId !in s.items && up.jobId !in s.sent by { assert CallOk(c, s, s.calls[p]); }
    UploadMoves(c, s, ObjectSet(s, OriginalLoc(c, up), up.data), up.jobId);
  }

  lemma OriginalStoredCalls(c: Config, s: State, p: Pid)
    requires UploadsOk(s) && CallsOk(c, s) && p in s.calls && s.calls[p].at == AtPutObject
    ensures
      var t := ObjectSet(s, OriginalLoc(c, s.calls[p].up), s.calls[p].up.data);
      CallsOk(c, t) && Grows(c, s, t)
  {
    var t := ObjectSet(s, OriginalLoc(c, s.calls[p].up), s.calls[p].up.data);
    assert CallOk(c, s, s.calls[p]);
    assert Grows(c, s, t);
    CallsUntouched(c, s, t);
  }

  lemma PutObjectKeeps(c: Config, s: State, p: Pid, done: bool)
    requires Inv(c, s) && ApiEnabled(c, s, PutObject(p, done))
    ensures Grows(c, s, PuttingObject(c, s, p, done)) && Inv(c, PuttingObject(c, s, p, done))
  {
    var u, up := PuttingObject(c, s, p, done), s.calls[p].up;
    var t := ObjectSet(s, OriginalLoc(c, up), up.data);
    OriginalStored(c, s, p);
    assert CallOk(c, t, t.calls[p]) && forall q :: q in s.calls && q != p ==> s.calls[q].up.jobId != up.jobId;
    CallsMove(c, t, u, p);
    GrowsTransitive(c, s, t, u);
  }

  /** What a request may put as its record. */
  ghost predicate MayPut(c: Config, call: Call, item: Item) {
    || (call.at == AtPutRecord && item == PendingItem(c, call.up))
    || (call.at.AtMarkUnqueueable? && item.status == FAILED && item.base == Some(BaseOf(c, call.up)) && Shape(item))
  }

  /** A request writes its record: the pending one, or the failed one once the
      queue has refused the job. */
  lemma RecordPut(c: Config, s: State, p: Pid, item: Item)
    requires Inv(c, s) && p in s.calls
    requires MayPut(c, s.calls[p], item)
    ensures
      var t := RecordSet(s, s.calls[p].up.jobId, item);
      Inv(c, t) && Grows(c, s, t)
  {
    RecordPutCalls(c, s, p, item);
    UploadMoves(c, s, RecordSet(s, s.calls[p].up.jobId, item), s.calls[p].up.jobId);
  }

  lemma RecordPutItem(c: Config, s: State, p: Pid, item: Item)
    requires UploadsOk(s) && p in s.calls && CallOk(c, s, s.calls[p]) && MayPut(c, s.calls[p], item)
    ensures ItemOk(c, RecordSet(s, s.calls[p].up.jobId, item), s.calls[p].up.jobId)
  {
  }

  lemma RecordPutCalls(c: Config, s: State, p: Pid, item: Item)
    requires UploadsOk(s) && CallsOk(c, s) && p in s.calls && MayPut(c, s.calls[p], item)
    ensures
      var j := s.calls[p].up.jobId; var t := RecordSet(s, j, item);
      CallsOk(c, t) && Grows(c, s, t) && j !in s.sent && ItemOk(c, t, j)
  {
    var t := RecordSet(s, s.calls[p].up.jobId, item);
    assert CallOk(c, s, s.calls[p]);
    RecordPutItem(c, s, p, item);
    assert Grows(c, s, t);
    assert CallOk(c, t, t.calls[p]);
    CallsKept(c, s, t, {p});
  }

  /** A request whose record is written may go on to its send. */
  lemma MayGoOn(c: Config, s: State, p: Pid)
    requires CallsOk(c, s) && p in s.calls && s.calls[p].at == AtPutRecord
    requires s.calls[p].up.jobId in s.items
    ensures CallOk(c, s, s.calls[p].(at := AtSend))
  {
    assert CallOk(c, s, s.calls[p]);
  }

  lemma PutRecordKeeps(c: Config, s: State, p: Pid, done: bool)
    requires Inv(c, s) && p in s.calls && s.calls[p].at == AtPutRecord
    ensures Grows(c, s, PuttingRecord(c, s, p, done)) && Inv(c, PuttingRecord(c, s, p, done))
  {
    var up := s.calls[p].up;
    var t := RecordSet(s, up.jobId, PendingItem(c, up));
    RecordPut(c, s, p, PendingItem(c, up));
    if done {
      var u := PuttingRecord(c, s, p, done);
      MayGoOn(c, t, p);
      OtherCalls(c, t, p);
      CallsMove(c, t, u, p);
      GrowsTransitive(c, s, t, u);
    }
  }

  lemma SendRefusedKeeps(c: Config, s: State, p: Pid, reason: string)
    requires Inv(c, s) && ApiEnabled(c, s, SendRefused(p, reason))
    ensures Grows(c, s, Refusing(s, p, reason)) && Inv(c, Refusing(s, p, reason))
  {
    assert CallOk(c, s, s.calls[p]);
    CallsMove(c, s, Refusing(s, p, reason), p);
  }

  lemma MarkUnqueueableKeeps(c: Config, s: State, p: Pid, now: Time, done: bool)
    requires Inv(c, s) && p in s.calls && s.calls[p].at.AtMarkUnqueueable?
    ensures Grows(c, s, MarkingUnqueueable(c, s, p, now, done)) && Inv(c, MarkingUnqueueable(c, s, p, now, done))
  {
    var call := s.calls[p];
    var item := UnqueueableItem(c, call.up, call.at.reason, now);
    var t := RecordSet(s, call.up.jobId, item);
    RecordPut(c, s, p, item);
    if done {
      var u := MarkingUnqueueable(c, s, p, now, done);
      CallsMove(c, t, u, p);
      GrowsTransitive(c, s, t, u);
    }
  }

  lemma ApiStopKeeps(c: Config, s: State, p: Pid)
    requires Inv(c, s) && ApiEnabled(c, s, ApiStop(p))
    ensures Grows(c, s, s.(calls := s.calls - {p})) && Inv(c, s.(calls := s.calls - {p}))
  {
    CallsMove(c, s, s.(calls := s.calls - {p}), p);
  }

  // -- sending ----------------------------------------------------------------

  /** Sending adds copies of the job's message and turns its record into that
      of an enqueued job. */
  lemma SendKeeps(c: Config, s: State, p: Pid, copies: set<CopyId>)
    requires Inv(c, s) && ApiEnabled(c, s, Send(p, copies))
    ensures Grows(c, s, Sending(c, s, p, copies)) && Inv(c, Sending(c, s, p, copies))
  {
    var t := Sending(c, s, p, copies);
    SendGrows(c, s, p, copies);
    SendKeepsRecords(c, s, p, copies);
    SendKeepsCopies(c, s, p, copies);
    assert TasksOk(c, t) by { TasksKept(c, s, t, {}); }
    assert OutputsOk(c, t) by { OutputsKept(c, s, t); }
  }

  lemma SendGrows(c: Config, s: State, p: Pid, copies: set<CopyId>)
    requires CallsOk(c, s) && CopiesOk(c, s) && ApiEnabled(c, s, Send(p, copies))
    ensures Grows(c, s, Sending(c, s, p, copies))
  {
    assert CallOk(c, s, s.calls[p]);
  }

  lemma SendKeepsRecords(c: Config, s: State, p: Pid, copies: set<CopyId>)
    requires CallsOk(c, s) && ItemsOk(c, s) && ApiEnabled(c, s, Send(p, copies))
    requires Grows(c, s, Sending(c, s, p, copies))
    ensures CallsOk(c, Sending(c, s, p, copies)) && ItemsOk(c, Sending(c, s, p, copies))
  {
    var t, up := Sending(c, s, p, copies), s.calls[p].up;
    assert CallOk(c, s, s.calls[p]);
    assert ItemOk(c, s, up.jobId);
    ItemsKept(c, s, t, {up.jobId});
    SendKeepsCalls(c, s, p, copies);
  }

  lemma SendKeepsCalls(c: Config, s: State, p: Pid, copies: set<CopyId>)
    requires CallsOk(c, s) && ApiEnabled(c, s, Send(p, copies)) && Grows(c, s, Sending(c, s, p, copies))
    ensures CallsOk(c, Sending(c, s, p, copies))
  {
    var t := Sending(c, s, p, copies);
    assert forall q :: q in t.calls ==> q != p && q in s.calls && CallOk(c, s, s.calls[q]);
    CallsKept(c, s, t, {});
  }

  lemma SendKeepsCopies(c: Config, s: State, p: Pid, copies: set<CopyId>)
    requires CallsOk(c, s) && CopiesOk(c, s) && NoneLost(s) && ApiEnabled(c, s, Send(p, copies))
    requires Grows(c, s, Sending(c, s, p, copies))
    ensures CopiesOk(c, Sending(c, s, p, copies)) && NoneLost(Sending(c, s, p, copies))
  {
    var t, up := Sending(c, s, p, copies), s.calls[p].up;
    assert CallOk(c, s, s.calls[p]);
    CopiesKept(c, s, t);
    var k :| k in copies;
    assert CopyOf(t, k, up.jobId);
    NoneLostKept(c, s, t, {up.jobId});
  }

  // -- the worker steps ---------------------------------------------------------

  /** The record of an enqueued job changes, nothing else. */
  lemma RecordMoves(c: Config, s: State, j: JobId, item: Item)
    requires Inv(c, s) && j in s.sent && j in s.items && j in s.uploads
    requires item.base == s.items[j].base && Shape(item) && RecordGrows(s.items[j], item)
    requires SentItemOk(c, s, s.uploads[j], item)
    ensures Inv(c, RecordSet(s, j, item)) && Grows(c, s, RecordSet(s, j, item))
  {
    RecordFacts(c, s, j, item);
    RecordSetGrows(c, s, j, item);
    RecordMovesRest(c, s, RecordSet(s, j, item), j);
  }

  lemma RecordSetGrows(c: Config, s: State, j: JobId, item: Item)
    requires j in s.items && RecordGrows(s.items[j], item)
    ensures Grows(c, s, RecordSet(s, j, item))
  {
  }

  lemma RecordFacts(c: Config, s: State, j: JobId, item: Item)
    requires ItemsOk(c, s) && j in s.sent && j in s.items && j in s.uploads
    requires item.base == s.items[j].base && Shape(item) && RecordGrows(s.items[j], item)
    requires SentItemOk(c, s, s.uploads[j], item)
    ensures ItemOk(c, RecordSet(s, j, item), j)
  {
    assert ItemOk(c, s, j);
    if item.status == COMPLETE {
      var r :| CompletedFrom(c, s.objects, s.uploads[j], item, r);
      assert CompletedFrom(c, RecordSet(s, j, item).objects, s.uploads[j], item, r);
    }
  }

  lemma RecordMovesRest(c: Config, s: State, t: State, j: JobId)
    requires Inv(c, s) && j in s.sent && j in s.items && j in t.items && ItemOk(c, t, j) && Grows(c, s, t)
    requires t == s.(items := s.items[j := t.items[j]])
    ensures Inv(c, t)
  {
    CallsElsewhere(c, s, t, j);
    OutputsKept(c, s, t);
    ItemsKept(c, s, t, {j});
    WorkersIdle(c, s, t);
  }

  /** Tasks change, nothing else. */
  lemma TasksMove(c: Config, s: State, t: State, w: Pid)
    requires Inv(c, s) && t == s.(tasks := t.tasks)
    requires forall v :: v in t.tasks && v != w ==> v in s.tasks && t.tasks[v] == s.tasks[v]
    requires w in t.tasks ==> TaskOk(c, s, t.tasks[w])
    ensures Inv(c, t) && Grows(c, s, t)
  {
    assert Grows(c, s, t);
    CallsUntouched(c, s, t);
    assert OutputsOk(c, t) by { OutputsKept(c, s, t); }
    ItemsKept(c, s, t, {});
    TasksMoveRest(c, s, t, w);
  }

  lemma TasksMoveRest(c: Config, s: State, t: State, w: Pid)
    requires CopiesOk(c, s) && TasksOk(c, s) && NoneLost(s) && Grows(c, s, t)
    requires t.queue == s.queue && t.dlq == s.dlq && t.sent == s.sent
    requires forall v :: v in t.tasks && v != w ==> v in s.tasks && t.tasks[v] == s.tasks[v]
    requires w in t.tasks ==> TaskOk(c, s, t.tasks[w])
    ensures CopiesOk(c, t) && TasksOk(c, t) && NoneLost(t)
  {
    if w in t.tasks { TaskKept(c, s, t, t.tasks[w]); }
    TasksKept(c, s, t, {w});
    CopiesKept(c, s, t);
    NoneLostKept(c, s, t, {});
  }

  lemma TaskMovesTo(c: Config, s: State, w: Pid, at: WorkAt)
    requires Inv(c, s) && w in s.tasks && TaskOk(c, s, s.tasks[w].(at := at))
    ensures Inv(c, At(s, w, at)) && Grows(c, s, At(s, w, at))
  {
    TasksMove(c, s, At(s, w, at), w);
  }

  lemma TaskEnds(c: Config, s: State, w: Pid)
    requires Inv(c, s)
    ensures Inv(c, s.(tasks := s.tasks - {w})) && Grows(c, s, s.(tasks := s.tasks - {w}))
  {
    TasksMove(c, s, s.(tasks := s.tasks - {w}), w);
  }

  lemma LookupFacts(c: Config, s: State, w: Pid)
    requires ItemsOk(c, s) && TasksOk(c, s) && Holds(s, w) && s.tasks[w].at == AtLookup
    ensures
      var at := AfterLookup(c, s.items, s.tasks[w].body.msg);
      at.Some? ==> TaskOk(c, s, s.tasks[w].(at := at.value))
  {
    assert TaskOk(c, s, s.tasks[w]) && ItemOk(c, s, s.tasks[w].body.msg.jobId);
  }

  lemma LookupKeeps(c: Config, s: State, w: Pid)
    requires Inv(c, s) && WorkerEnabled(c, s, Lookup(w))
    ensures Grows(c, s, LookingUp(c, s, w)) && Inv(c, LookingUp(c, s, w))
  {
    var at := AfterLookup(c, s.items, s.tasks[w].body.msg);
    LookupFacts(c, s, w);
    if at.Some? { TaskMovesTo(c, s, w, at.value); } else { TaskEnds(c, s, w); }
  }

  /** A worker writes the record of its job and, unless it will retry, moves on. */
  lemma WriteThenMove(c: Config, s: State, w: Pid, j: JobId, item: Item, at: WorkAt)
    requires Inv(c, s) && w in s.tasks && j in s.sent && j in s.items && j in s.uploads
    requires item.base == s.items[j].base && Shape(item) && RecordGrows(s.items[j], item)
    requires SentItemOk(c, s, s.uploads[j], item)
    requires TaskOk(c, RecordSet(s, j, item), s.tasks[w].(at := at))
    ensures Inv(c, RecordSet(s, j, item)) && Grows(c, s, RecordSet(s, j, item))
    ensures Inv(c, At(RecordSet(s, j, item), w, at)) && Grows(c, s, At(RecordSet(s, j, item), w, at))
  {
    var t := RecordSet(s, j, item);
    RecordMoves(c, s, j, item);
    TaskMovesTo(c, t, w, at);
    GrowsTransitive(c, s, t, At(t, w, at));
  }

  lemma ProcessingFacts(c: Config, s: State, w: Pid, now: Time)
    requires ItemsOk(c, s) && TasksOk(c, s) && Holds(s, w) && s.tasks[w].at == AtMarkProcessing
    requires MayProcess(s.items, s.tasks[w].body.msg.jobId)
    ensures var j := s.tasks[w].body.msg.jobId; var item := Processing(s.items[j], now);
      && j in s.sent && j in s.uploads && Shape(item) && RecordGrows(s.items[j], item)
      && SentItemOk(c, s, s.uploads[j], item)
      && TaskOk(c, RecordSet(s, j, item), s.tasks[w].(at := AtDownload))
  {
    assert TaskOk(c, s, s.tasks[w]) && ItemOk(c, s, s.tasks[w].body.msg.jobId);
  }

  lemma LostRace(c: Config, s: State, w: Pid)
    requires Inv(c, s) && Holds(s, w) && s.tasks[w].at == AtMarkProcessing
    requires !MayProcess(s.items, s.tasks[w].body.msg.jobId)
    ensures Inv(c, At(s, w, AtDelete)) && Grows(c, s, At(s, w, AtDelete))
    ensures Inv(c, s) && Grows(c, s, s)
  {
    assert TaskOk(c, s, s.tasks[w]);
    TaskMovesTo(c, s, w, AtDelete);
  }

  lemma MarkProcessingKeeps(c: Config, s: State, w: Pid, now: Time, done: bool)
    requires Inv(c, s) && WorkerEnabled(c, s, MarkProcessing(w, now, done))
    ensures Grows(c, s, MarkingProcessing(s, w, now, done)) && Inv(c, MarkingProcessing(s, w, now, done))
  {
    var j := s.tasks[w].body.msg.jobId;
    if MayProcess(s.items, j) {
      ProcessingFacts(c, s, w, now);
      WriteThenMove(c, s, w, j, Processing(s.items[j], now), AtDownload);
    } else {
      LostRace(c, s, w);
    }
  }

  /** What the worker found in the bytes is what it may act on. */
  lemma MayActOn(c: Config, s: State, w: Pid, r: Rendered)
    requires ItemsOk(c, s) && TasksOk(c, s) && WorkerEnabled(c, s, Download(w, r))
    ensures TaskOk(c, s, s.tasks[w].(at := if r.Image? then AfterUpload(r, 0) else AtMarkFailed(r.reason)))
  {
    assert TaskOk(c, s, s.tasks[w]) && ItemOk(c, s, s.tasks[w].body.msg.jobId);
  }

  lemma DownloadKeeps(c: Config, s: State, w: Pid, r: Rendered)
    requires Inv(c, s) && WorkerEnabled(c, s, Download(w, r))
    ensures Grows(c, s, Downloading(s, w, r)) && Inv(c, Downloading(s, w, r))
  {
    MayActOn(c, s, w, r);
    TaskMovesTo(c, s, w, if r.Image? then AfterUpload(r, 0) else AtMarkFailed(r.reason));
  }

  /** An output is stored, nothing else. */
  lemma OutputsGain(c: Config, s: State, j: JobId, n: nat, bytes: Bytes)
    requires OutputsOk(c, s) && j in s.uploads && PossibleThumb(c, s.uploads[j].data, n, bytes)
    ensures OutputsOk(c, ObjectSet(s, Loc(c.bucket, Thumb(j, n)), bytes))
  {
  }

  lemma OutputGrows(c: Config, s: State, j: JobId, n: nat, bytes: Bytes)
    ensures Grows(c, s, ObjectSet(s, Loc(c.bucket, Thumb(j, n)), bytes))
  {
  }

  lemma OutputStored(c: Config, s: State, j: JobId, n: nat, bytes: Bytes)
    requires Inv(c, s) && j in s.uploads && PossibleThumb(c, s.uploads[j].data, n, bytes)
    ensures
      var t := ObjectSet(s, Loc(c.bucket, Thumb(j, n)), bytes);
      Inv(c, t) && Grows(c, s, t)
  {
    var t := ObjectSet(s, Loc(c.bucket, Thumb(j, n)), bytes);
    OutputGrows(c, s, j, n, bytes);
    OutputsGain(c, s, j, n, bytes);
    CallsUntouched(c, s, t);
    ItemsKept(c, s, t, {});
    WorkersIdle(c, s, t);
  }

  /** One more thumbnail is stored. */
  lemma UploadAdvances(c: Config, s: State, t: State, task: Task)
    requires TaskOk(c, s, task) && Grows(c, s, t) && task.body.Job? && task.at.AtUpload?
    requires Loc(c.bucket, Thumb(task.body.msg.jobId, task.at.r.thumbs[task.at.count].size)) in t.objects
    ensures TaskOk(c, t, task.(at := AfterUpload(task.at.r, task.at.count + 1)))
  {
    TaskKept(c, s, t, task);
  }

  lemma ThumbStoredKeeps(c: Config, s: State, w: Pid)
    requires Inv(c, s) && WorkerEnabled(c, s, UploadThumb(w, true))
    ensures Inv(c, ThumbStored(c, s, s.tasks[w])) && Grows(c, s, ThumbStored(c, s, s.tasks[w]))
  {
    var j, at := s.tasks[w].body.msg.jobId, s.tasks[w].at;
    var thumb := at.r.thumbs[at.count];
    assert TaskOk(c, s, s.tasks[w]);
    assert PossibleThumb(c, s.uploads[j].data, thumb.size, thumb.data);
    OutputStored(c, s, j, thumb.size, thumb.data);
  }

  lemma ThumbAdvances(c: Config, s: State, w: Pid)
    requires TasksOk(c, s) && WorkerEnabled(c, s, UploadThumb(w, true))
    requires Grows(c, s, ThumbStored(c, s, s.tasks[w]))
    ensures TaskOk(c, ThumbStored(c, s, s.tasks[w]),
                   s.tasks[w].(at := AfterUpload(s.tasks[w].at.r, s.tasks[w].at.count + 1)))
  {
    assert TaskOk(c, s, s.tasks[w]);
    UploadAdvances(c, s, ThumbStored(c, s, s.tasks[w]), s.tasks[w]);
  }

  lemma ThumbThenMove(c: Config, s: State, w: Pid)
    requires Inv(c, s) && WorkerEnabled(c, s, UploadThumb(w, true))
    ensures
      var t := ThumbStored(c, s, s.tasks[w]);
      var u := At(t, w, AfterUpload(s.tasks[w].at.r, s.tasks[w].at.count + 1));
      Inv(c, t) && Grows(c, s, t) && Inv(c, u) && Grows(c, s, u)
  {
    var t := ThumbStored(c, s, s.tasks[w]);
    var u := At(t, w, AfterUpload(s.tasks[w].at.r, s.tasks[w].at.count + 1));
    ThumbStoredKeeps(c, s, w);
    ThumbAdvances(c, s, w);
    TaskMovesTo(c, t, w, AfterUpload(s.tasks[w].at.r, s.tasks[w].at.count + 1));
    GrowsTransitive(c, s, t, u);
  }

  lemma UploadThumbKeeps(c: Config, s: State, w: Pid, done: bool)
    requires Inv(c, s) && WorkerEnabled(c, s, UploadThumb(w, done))
    ensures Grows(c, s, UploadingThumb(c, s, w, done)) && Inv(c, UploadingThumb(c, s, w, done))
  {
    UploadThumbSplit(c, s, w, done);
    ThumbThenMove(c, s, w);
  }

  lemma UploadThumbSplit(c: Config, s: State, w: Pid, done: bool)
    requires WorkerEnabled(c, s, UploadThumb(w, done))
    ensures
      var t := ThumbStored(c, s, s.tasks[w]);
      UploadingThumb(c, s, w, done)
         == if done then At(t, w, AfterUpload(s.tasks[w].at.r, s.tasks[w].at.count + 1)) else t
  {
  }

  lemma CompletedFacts(c: Config, s: State, w: Pid, now: Time, ms: nat)
    requires ItemsOk(c, s) && TasksOk(c, s) && Holds(s, w) && s.tasks[w].at.AtMarkComplete?
    ensures var j := s.tasks[w].body.msg.jobId;
      && j in s.sent && j in s.uploads && j in s.items
      && var item := Completed(s.items[j], j, s.tasks[w].at.r, ms, now);
      && Shape(item) && RecordGrows(s.items[j], item) && SentItemOk(c, s, s.uploads[j], item)
      && TaskOk(c, RecordSet(s, j, item), s.tasks[w].(at := AtDelete))
  {
    var j := s.tasks[w].body.msg.jobId;
    assert TaskOk(c, s, s.tasks[w]) && ItemOk(c, s, j);
    var item := Completed(s.items[j], j, s.tasks[w].at.r, ms, now);
    assert CompletedFrom(c, s.objects, s.uploads[j], item, s.tasks[w].at.r);
  }

  lemma MarkCompleteKeeps(c: Config, s: State, w: Pid, now: Time, ms: nat, done: bool)
    requires Inv(c, s) && WorkerEnabled(c, s, MarkComplete(w, now, ms, done))
    ensures Grows(c, s, MarkingComplete(s, w, now, ms, done)) && Inv(c, MarkingComplete(s, w, now, ms, done))
  {
    var j := s.tasks[w].body.msg.jobId;
    CompletedFacts(c, s, w, now, ms);
    WriteThenMove(c, s, w, j, Completed(s.items[j], j, s.tasks[w].at.r, ms, now), AtDelete);
  }

  lemma FailedFacts(c: Config, s: State, w: Pid, now: Time)
    requires ItemsOk(c, s) && TasksOk(c, s) && Holds(s, w) && s.tasks[w].at.AtMarkFailed?
    ensures var j := s.tasks[w].body.msg.jobId;
      && j in s.sent && j in s.uploads && j in s.items
      && var item := Failed(s.items[j], s.tasks[w].at.reason, now);
      && Shape(item) && RecordGrows(s.items[j], item) && SentItemOk(c, s, s.uploads[j], item)
      && TaskOk(c, RecordSet(s, j, item), s.tasks[w].(at := AtDelete))
  {
    assert TaskOk(c, s, s.tasks[w]) && ItemOk(c, s, s.tasks[w].body.msg.jobId);
  }

  lemma MarkFailedKeeps(c: Config, s: State, w: Pid, now: Time, done: bool)
    requires Inv(c, s) && WorkerEnabled(c, s, MarkFailed(w, now, done))
    ensures Grows(c, s, MarkingFailed(s, w, now, done)) && Inv(c, MarkingFailed(s, w, now, done))
  {
    var j := s.tasks[w].body.msg.jobId;
    FailedFacts(c, s, w, now);
    WriteThenMove(c, s, w, j, Failed(s.items[j], s.tasks[w].at.reason, now), AtDelete);
  }

  lemma WorkerStopKeeps(c: Config, s: State, w: Pid)
    requires Inv(c, s) && WorkerEnabled(c, s, WorkerStop(w))
    ensures Grows(c, s, s.(tasks := s.tasks - {w})) && Inv(c, s.(tasks := s.tasks - {w}))
  {
    TaskEnds(c, s, w);
  }

  // -- the queue --------------------------------------------------------------

  /** The queue and the DLQ change, nothing else; copies may only vanish for
      decided jobs. */
  lemma QueueMoves(c: Config, s: State, t: State)
    requires Inv(c, s) && t == s.(queue := t.queue, dlq := t.dlq, issued := t.issued) && s.issued <= t.issued
    requires forall k :: k in s.issued && k in t.queue ==> k in s.queue && t.queue[k].body == s.queue[k].body
    requires forall k :: k in t.queue ==> k in t.issued && k !in t.dlq && t.queue[k].receives <= c.maxReceives
    requires forall k :: k in t.queue && k !in s.issued ==> t.queue[k].body == Malformed
    requires forall k :: k in t.dlq ==> (k in s.dlq && t.dlq[k] == s.dlq[k]) || (k in s.queue && t.dlq[k] == s.queue[k])
    requires forall k, j :: CopyOf(s, k, j) && j in s.sent ==> CopyOf(t, k, j) || (j in s.items && Decided(s.items[j]))
    ensures Inv(c, t) && Grows(c, s, t)
  {
    assert Grows(c, s, t);
    CallsUntouched(c, s, t);
    assert OutputsOk(c, t) by { OutputsKept(c, s, t); }
    ItemsKept(c, s, t, {});
    TasksKept(c, s, t, {});
    assert CopiesOk(c, t) by { CopiesKept(c, s, t); }
    NoneLostKept(c, s, t, {});
  }

  /** A delete is only ever attempted once the job is decided, so losing the
      copy loses nothing. */
  /** The copy a worker is about to delete belongs to a decided job. */
  lemma DropSpares(c: Config, s: State, w: Pid)
    requires CopiesOk(c, s) && w in s.tasks && TaskOk(c, s, s.tasks[w]) && s.tasks[w].at == AtDelete
    ensures
      var t := s.(queue := s.queue - {s.tasks[w].copy});
      forall k, j :: CopyOf(s, k, j) && j in s.sent ==> CopyOf(t, k, j) || (j in s.items && Decided(s.items[j]))
  {
  }

  lemma CopyDropped(c: Config, s: State, w: Pid)
    requires Inv(c, s) && w in s.tasks && s.tasks[w].at == AtDelete
    ensures var t := s.(queue := s.queue - {s.tasks[w].copy}); Inv(c, t) && Grows(c, s, t)
  {
    assert TaskOk(c, s, s.tasks[w]);
    DropSpares(c, s, w);
    QueueMoves(c, s, s.(queue := s.queue - {s.tasks[w].copy}));
  }

  lemma DeleteKeeps(c: Config, s: State, w: Pid, took: bool, done: bool)
    requires Inv(c, s) && WorkerEnabled(c, s, Delete(w, took, done))
    ensures Grows(c, s, Deleting(s, w, took, done)) && Inv(c, Deleting(s, w, took, done))
  {
    var u := Deleting(s, w, took, done);
    var t := s.(queue := u.queue);
    if took { CopyDropped(c, s, w); }
    assert TaskOk(c, t, t.tasks[w]);
    TasksMove(c, t, u, w);
    GrowsTransitive(c, s, t, u);
  }

  lemma ReceivedKeeps(c: Config, s: State, k: CopyId)
    requires Inv(c, s) && Receivable(c, s, k)
    ensures Grows(c, s, Received(s, k)) && Inv(c, Received(s, k))
  {
    QueueMoves(c, s, Received(s, k));
  }

  lemma ReceiveKeeps(c: Config, s: State, w: Pid, k: CopyId)
    requires Inv(c, s) && WorkerEnabled(c, s, Receive(w, k))
    ensures Grows(c, s, Receiving(s, w, k)) && Inv(c, Receiving(s, w, k))
  {
    var t, u := Received(s, k), Receiving(s, w, k);
    ReceivedKeeps(c, s, k);
    assert BodyOk(c, t, t.queue[k].body);
    TasksMove(c, t, u, w);
    GrowsTransitive(c, s, t, u);
  }

  lemma ExpireKeeps(c: Config, s: State, k: CopyId)
    requires Inv(c, s) && QueueEnabled(c, s, Expire(k))
    ensures Grows(c, s, Expiring(s, k)) && Inv(c, Expiring(s, k))
  {
    QueueMoves(c, s, Expiring(s, k));
  }

  lemma RedriveKeeps(c: Config, s: State, k: CopyId)
    requires Inv(c, s) && QueueEnabled(c, s, Redrive(k))
    ensures Grows(c, s, Redriving(s, k)) && Inv(c, Redriving(s, k))
  {
    QueueMoves(c, s, Redriving(s, k));
  }

  lemma InjectKeeps(c: Config, s: State, k: CopyId)
    requires Inv(c, s) && QueueEnabled(c, s, Inject(k))
    ensures Grows(c, s, Injecting(s, k)) && Inv(c, Injecting(s, k))
  {
    QueueMoves(c, s, Injecting(s, k));
  }

  // -- every step, every run ----------------------------------------------------

  lemma SubmitKeeps(c: Config, s: State, e: Event)
    requires Inv(c, s) && ApiEnabled(c, s, e) && (e.Begin? || e.PutObject? || e.PutRecord?)
    ensures Inv(c, ApiApply(c, s, e)) && Grows(c, s, ApiApply(c, s, e))
  {
    match e
    case Begin(p, up) => BeginKeeps(c, s, p, up);
    case PutObject(p, done) => PutObjectKeeps(c, s, p, done);
    case PutRecord(p, done) => PutRecordKeeps(c, s, p, done);
  }

  lemma EnqueueKeeps(c: Config, s: State, e: Event)
    requires Inv(c, s) && ApiEnabled(c, s, e) && !(e.Begin? || e.PutObject? || e.PutRecord?)
    ensures Inv(c, ApiApply(c, s, e)) && Grows(c, s, ApiApply(c, s, e))
  {
    match e
    case Send(p, copies) => SendKeeps(c, s, p, copies);
    case SendRefused(p, reason) => SendRefusedKeeps(c, s, p, reason);
    case MarkUnqueueable(p, now, done) => MarkUnqueueableKeeps(c, s, p, now, done);
    case ApiStop(p) => ApiStopKeeps(c, s, p);
  }

  lemma RenderKeeps(c: Config, s: State, e: Event)
    requires Inv(c, s) && WorkerEnabled(c, s, e) && (e.Download? || e.UploadThumb?)
    ensures Inv(c, WorkerApply(c, s, e)) && Grows(c, s, WorkerApply(c, s, e))
  {
    match e
    case Download(w, r) => DownloadKeeps(c, s, w, r);
    case UploadThumb(w, done) => UploadThumbKeeps(c, s, w, done);
  }

  lemma FinishKeeps(c: Config, s: State, e: Event)
    requires Inv(c, s) && WorkerEnabled(c, s, e) && (e.MarkComplete? || e.MarkFailed? || e.Delete?)
    ensures Inv(c, WorkerApply(c, s, e)) && Grows(c, s, WorkerApply(c, s, e))
  {
    match e
    case MarkComplete(w, now, ms, done) => MarkCompleteKeeps(c, s, w, now, ms, done);
    case MarkFailed(w, now, done) => MarkFailedKeeps(c, s, w, now, done);
    case Delete(w, took, done) => DeleteKeeps(c, s, w, took, done);
  }

  lemma LookKeeps(c: Config, s: State, e: Event)
    requires Inv(c, s) && WorkerEnabled(c, s, e) && (e.Lookup? || e.MarkProcessing?)
    ensures Inv(c, WorkerApply(c, s, e)) && Grows(c, s, WorkerApply(c, s, e))
  {
    if e.Lookup? { LookupKeeps(c, s, e.w); } else { MarkProcessingKeeps(c, s, e.w, e.now, e.done); }
  }

  lemma HoldKeeps(c: Config, s: State, e: Event)
    requires Inv(c, s) && WorkerEnabled(c, s, e) && (e.Receive? || e.WorkerStop?)
    ensures Inv(c, WorkerApply(c, s, e)) && Grows(c, s, WorkerApply(c, s, e))
  {
    match e
    case Receive(w, k) => ReceiveKeeps(c, s, w, k);
    case WorkerStop(w) => WorkerStopKeeps(c, s, w);
  }

  lemma QueueKeeps(c: Config, s: State, e: Event)
    requires Inv(c, s) && QueueEnabled(c, s, e)
    ensures Inv(c, QueueApply(c, s, e)) && Grows(c, s, QueueApply(c, s, e))
  {
    match e
    case ReceiveLost(k) => ReceivedKeeps(c, s, k);
    case Expire(k) => ExpireKeeps(c, s, k);
    case Redrive(k) => RedriveKeeps(c, s, k);
    case Inject(k) => InjectKeeps(c, s, k);
  }

  lemma ApiKeeps(c: Config, s: State, e: Event)
    requires Inv(c, s) && ApiEnabled(c, s, e)
    ensures Inv(c, ApiApply(c, s, e)) && Grows(c, s, ApiApply(c, s, e))
  {
    if e.Begin? || e.PutObject? || e.PutRecord? { SubmitKeeps(c, s, e); } else { EnqueueKeeps(c, s, e); }
  }

  lemma WorkerKeeps(c: Config, s: State, e: Event)
    requires Inv(c, s) && WorkerEnabled(c, s, e)
    ensures Inv(c, WorkerApply(c, s, e)) && Grows(c, s, WorkerApply(c, s, e))
  {
    if e.MarkComplete? || e.MarkFailed? || e.Delete? {
      FinishKeeps(c, s, e);
    } else if e.Download? || e.UploadThumb? {
      RenderKeeps(c, s, e);
    } else if e.Lookup? || e.MarkProcessing? {
      LookKeeps(c, s, e);
    } else {
      HoldKeeps(c, s, e);
    }
  }

  /** Every step keeps the invariant. */
  lemma StepKeeps(c: Config, s: State, e: Event)
    requires Inv(c, s) && Enabled(c, s, e)
    ensures Inv(c, Apply(c, s, e)) && Grows(c, s, Apply(c, s, e))
  {
    if ApiEnabled(c, s, e) {
      ApiKeeps(c, s, e);
    } else if WorkerEnabled(c, s, e) {
      WorkerKeeps(c, s, e);
    } else {
      QueueKeeps(c, s, e);
    }
  }

  lemma {:induction false} PathKeeps(c: Config, s: State, es: seq<Event>, t: State)
    requires Inv(c, s) && Path(c, s, es, t)
    ensures Inv(c, t) && Grows(c, s, t)
    decreases |es|
  {
    if es != [] {
      var u := Apply(c, s, es[0]);
      StepKeeps(c, s, es[0]);
      PathKeeps(c, u, es[1..], t);
      GrowsTransitive(c, s, u, t);
    }
  }

  lemma ReachableKeeps(c: Config, s: State)
    requires Reachable(c, s)
    ensures Inv(c, s)
  {
    var es :| Path(c, INIT, es, s);
    PathKeeps(c, INIT, es, s);
  }
}
