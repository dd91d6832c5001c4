/** What one worker run, and any sequence of runs, does: when a message is
    deleted, what each outcome means, and how the counters relate to the table. */
module WorkerRuns {
  import opened Wrappers
  import opened PyValues
  import opened Keys
  import opened Domain
  import opened Protocol
  import opened Invariant
  import opened Clients
  import opened Worker

  // -- deletes ----------------------------------------------------------------

  /** The record of `j` is missing or has a terminal status. */
  ghost predicate Terminated(items: map<JobId, Item>, j: JobId) {
    j in items ==> items[j].status in {COMPLETE, FAILED}
  }

  /** A run touches no copy but its own, and removes that one only if the body
      was unreadable, the record is missing, or its status is terminal. */
  lemma DeletesOnlyTerminated(c: Config, a: Aws, raw: Raw, luck: Luck)
    ensures var b := Handled(c, a, raw, luck).aws;
      b.queue != a.queue ==>
        && raw.handle.Some? && b.queue == a.queue - {raw.handle.value}
        && (raw.body.Job? ==> Terminated(b.items, raw.body.msg.jobId))
  {
    if raw.body.Job? && raw.body.msg.version <= MESSAGE_SCHEMA_VERSION {
      ProcessedDeletes(c, a, raw.body.msg, raw.handle, luck);
    }
  }

  lemma ProcessedDeletes(c: Config, a: Aws, msg: Message, handle: Option<CopyId>, luck: Luck)
    ensures var b := Processed(c, a, msg, handle, luck).aws;
      b.queue != a.queue ==> handle.Some? && b.queue == a.queue - {handle.value} && Terminated(b.items, msg.jobId)
  {
  }

  /** A message that does not get as far as a job: an unreadable body is counted as
      a failure and deleted, a body from a newer producer is left alone. */
  lemma UnparsedMeans(c: Config, a: Aws, raw: Raw, luck: Luck)
    requires raw.body.Job? ==> raw.body.msg.version > 1
    ensures var ran := Handled(c, a, raw, luck);
      && ran.outcome == (if raw.body.Malformed? then MALFORMED else RETRY)
      && ran.complete == 0 && ran.failed == (if raw.body.Malformed? then 1 else 0)
      && ran.aws.items == a.items && ran.aws.objects == a.objects && ran.aws.issued == a.issued
      && ran.aws.queue == if raw.body.Malformed? && raw.handle.Some? && (luck.drop.Fine? || luck.drop.took)
                          then a.queue - {raw.handle.value} else a.queue
  {
  }

  // -- what a run may leave behind ------------------------------------------------

  /** The table when the worker comes to its conditional write. */
  function Found(a: Aws, j: JobId, luck: Luck): map<JobId, Item> {
    if luck.rival.Some? then a.items[j := luck.rival.value] else a.items
  }

  /** The table once that write is made. */
  function Won(a: Aws, j: JobId, luck: Luck): map<JobId, Item> {
    var items := Found(a, j, luck);
    if j in items
    then items[j := items[j].(status := PROCESSING, startedAt := Some(luck.started), updatedAt := Some(luck.started))]
    else items
  }

  /** The reason a job may be given up for, and the table it is then recorded in. */
  function FailReason(c: Config, a: Aws, msg: Message, luck: Luck): Option<string> {
    var loc := Loc(c.bucket, msg.inputKey);
    if msg.bucket != c.bucket then Some(UNEXPECTED_BUCKET)
    else if loc in a.objects && luck.render(a.objects[loc]).Undecodable? then Some(luck.render(a.objects[loc]).reason)
    else None
  }

  function WithFailure(c: Config, a: Aws, msg: Message, reason: string, luck: Luck): map<JobId, Item> {
    var items := if msg.bucket != c.bucket then a.items else Won(a, msg.jobId, luck);
    items[msg.jobId := ItemOr(items, msg.jobId).(
            status := FAILED, error := Some(if |reason| <= 512 then reason else reason[..512]),
            completedAt := Some(luck.ended), updatedAt := Some(luck.ended))]
  }

  /** The picture a run may upload, and the table once it is recorded. */
  function Drawn(c: Config, a: Aws, msg: Message, luck: Luck): Option<Picture> {
    var loc := Loc(c.bucket, msg.inputKey);
    if msg.bucket == c.bucket && loc in a.objects && luck.render(a.objects[loc]).Image?
    then Some(luck.render(a.objects[loc])) else None
  }

  function WithPicture(a: Aws, j: JobId, r: Picture, luck: Luck): map<JobId, Item> {
    var items := Won(a, j, luck);
    items[j := ItemOr(items, j).(
            status := COMPLETE, outputs := Some(OutputsUpTo(j, r.thumbs, |r.thumbs|)), exif := Some(r.exif),
            width := Some(r.width), height := Some(r.height), format := Some(r.format),
            processingMs := Some(luck.ms), completedAt := Some(luck.ended), updatedAt := Some(luck.ended),
            error := None)]
  }

  /** `loc` holds one of the thumbnails from the `n`-th on. */
  ghost predicate HoldsThumb(loc: Loc, bytes: Bytes, bucket: string, j: JobId, thumbs: seq<Thumbnail>, n: nat) {
    exists i :: n <= i < |thumbs| && loc == Loc(bucket, Thumb(j, thumbs[i].size)) && bytes == thumbs[i].data
  }

  /** Nothing is lost from the store, and nothing in it changes but thumbnails of
      this job. */
  ghost predicate OnlyThumbs(before: map<Loc, Bytes>, after: map<Loc, Bytes>, bucket: string, j: JobId,
                             thumbs: seq<Thumbnail>, n: nat)
  {
    && before.Keys <= after.Keys
    && forall loc :: loc in after ==>
         (loc in before && after[loc] == before[loc]) || HoldsThumb(loc, after[loc], bucket, j, thumbs, n)
  }

  ghost predicate HasThumbs(objects: map<Loc, Bytes>, bucket: string, j: JobId, thumbs: seq<Thumbnail>, n: nat) {
    forall i :: n <= i < |thumbs| ==>
      var loc := Loc(bucket, Thumb(j, thumbs[i].size));
      loc in objects && objects[loc] == thumbs[i].data
  }

  lemma LaterThumbsElsewhere(bytes: Bytes, bucket: string, j: JobId, thumbs: seq<Thumbnail>, n: nat)
    requires n < |thumbs| && Increasing(SizesOf(thumbs))
    ensures !HoldsThumb(Loc(bucket, Thumb(j, thumbs[n].size)), bytes, bucket, j, thumbs, n + 1)
  {
    forall i | n < i < |thumbs| ensures thumbs[n].size != thumbs[i].size {
      assert SizesOf(thumbs)[n] < SizesOf(thumbs)[i];
    }
  }

  /** Of the uploads from the `n`-th on, those before the `e`-th take effect: all
      of them succeed, but the last may raise and so end the run. */
  ghost predicate Reached(put: nat -> Fate, total: nat, n: nat, e: nat) {
    && n <= e <= total
    && (forall i :: n <= i < e ==> put(i).Fine? || (put(i).took && i == e - 1))
    && (e < total ==> (e > n && put(e - 1).Raises?) || (put(e).Raises? && !put(e).took))
  }

  /** Uploading stores exactly the thumbnails whose upload takes effect: nothing
      else changes, and none of them is lost. */
  lemma {:induction false} UploadedStores(objects: map<Loc, Bytes>, bucket: string, j: JobId, thumbs: seq<Thumbnail>,
                                          n: nat, put: nat -> Fate)
    returns (e: nat)
    requires n <= |thumbs|
    ensures Reached(put, |thumbs|, n, e)
    ensures var (after, all) := Uploaded(objects, bucket, j, thumbs, n, put);
      && OnlyThumbs(objects, after, bucket, j, thumbs[..e], n)
      && (Increasing(SizesOf(thumbs)) ==> HasThumbs(after, bucket, j, thumbs[..e], n))
      && (all <==> forall i :: n <= i < |thumbs| ==> put(i).Fine?)
    decreases |thumbs| - n
  {
    e := n;
    if n < |thumbs| {
      var loc := Loc(bucket, Thumb(j, thumbs[n].size));
      var stored := if Took(put(n)) then objects[loc := thumbs[n].data] else objects;
      if put(n).Fine? {
        e := UploadedStores(stored, bucket, j, thumbs, n + 1, put);
        FirstStored(objects, Uploaded(stored, bucket, j, thumbs, n + 1, put).0, bucket, j, thumbs, n, e);
      } else if put(n).took {
        e := n + 1;
        assert HoldsThumb(loc, thumbs[n].data, bucket, j, thumbs[..e], n);
      }
    }
  }

  /** The `n`-th upload, before those that follow. */
  lemma FirstStored(objects: map<Loc, Bytes>, after: map<Loc, Bytes>, bucket: string, j: JobId,
                    thumbs: seq<Thumbnail>, n: nat, e: nat)
    requires n < e <= |thumbs|
    requires
      var stored := objects[Loc(bucket, Thumb(j, thumbs[n].size)) := thumbs[n].data];
      OnlyThumbs(stored, after, bucket, j, thumbs[..e], n + 1)
    ensures OnlyThumbs(objects, after, bucket, j, thumbs[..e], n)
    ensures Increasing(SizesOf(thumbs)) && HasThumbs(after, bucket, j, thumbs[..e], n + 1)
        ==> HasThumbs(after, bucket, j, thumbs[..e], n)
  {
    var loc := Loc(bucket, Thumb(j, thumbs[n].size));
    assert HoldsThumb(loc, thumbs[n].data, bucket, j, thumbs[..e], n);
    forall l | l in after && HoldsThumb(l, after[l], bucket, j, thumbs[..e], n + 1)
      ensures HoldsThumb(l, after[l], bucket, j, thumbs[..e], n)
    {
      var i :| n + 1 <= i < e && l == Loc(bucket, Thumb(j, thumbs[i].size)) && after[l] == thumbs[i].data;
    }
    if Increasing(SizesOf(thumbs)) {
      assert forall i :: 0 <= i < e ==> SizesOf(thumbs[..e])[i] == SizesOf(thumbs)[i];
      LaterThumbsElsewhere(after[loc], bucket, j, thumbs[..e], n);
    }
  }

  // -- outcomes ---------------------------------------------------------------

  ghost predicate FinishLost(luck: Luck) {
    luck.finish.Raises? && luck.finish.took
  }

  /** The terminal write succeeded, but the message could not be deleted. */
  ghost predicate DropLost(handle: Option<CopyId>, luck: Luck) {
    luck.finish.Fine? && (handle.None? || luck.drop.Raises?)
  }

  /** The delete of the message, if it is tried, takes effect. */
  ghost predicate Deleted(handle: Option<CopyId>, luck: Luck) {
    handle.Some? && (luck.drop.Fine? || luck.drop.took)
  }

  /** Exactly the thumbnails whose upload took effect were stored. */
  ghost predicate Holding(before: map<Loc, Bytes>, after: map<Loc, Bytes>, bucket: string, j: JobId,
                          thumbs: seq<Thumbnail>, put: nat -> Fate)
  {
    exists e: nat :: Reached(put, |thumbs|, 0, e)
      && OnlyThumbs(before, after, bucket, j, thumbs[..e], 0)
      && (Increasing(SizesOf(thumbs)) ==> HasThumbs(after, bucket, j, thumbs[..e], 0))
  }

  /** How a run gave up that had a picture to upload: an upload raised, or the last
      write did, or the delete. */
  ghost predicate GaveUpDrawn(c: Config, a: Aws, msg: Message, handle: Option<CopyId>, luck: Luck, r: Picture, b: Aws) {
    var j := msg.jobId;
    && Holding(a.objects, b.objects, c.bucket, j, r.thumbs, luck.put)
    && if exists i :: 0 <= i < |r.thumbs| && luck.put(i).Raises? then
         b == a.(objects := b.objects, items := Won(a, j, luck))
       else
         var items := if Took(luck.finish) then WithPicture(a, j, r, luck) else Won(a, j, luck);
         && (luck.finish.Raises? || DropLost(handle, luck))
         && b == a.(objects := b.objects, items := items,
                    queue := if luck.finish.Fine? && Deleted(handle, luck) then a.queue - {handle.value} else a.queue)
  }

  /** How a run gave up, by the call that raised: what it left of the services. */
  ghost predicate GaveUp(c: Config, a: Aws, msg: Message, handle: Option<CopyId>, luck: Luck, b: Aws) {
    var j, reason, r := msg.jobId, FailReason(c, a, msg, luck), Drawn(c, a, msg, luck);
    if luck.get.Raises? || (j in a.items && a.items[j].base.None?) then b == a
    else if msg.bucket != c.bucket then GaveUpFailing(c, a, msg, luck, a.items, b)
    else if luck.mark.Raises? then
      var won := luck.mark.took && MayProcess(Found(a, j, luck), j);
      b == a.(items := if won then Won(a, j, luck) else Found(a, j, luck))
    else if luck.fetch.Raises? || (reason.None? && r.None?) then b == a.(items := Won(a, j, luck))
    else if reason.Some? then GaveUpFailing(c, a, msg, luck, Won(a, j, luck), b)
    else GaveUpDrawn(c, a, msg, handle, luck, r.value, b)
  }

  /** It could not record a failure: the table holds it if the write took effect. */
  ghost predicate GaveUpFailing(c: Config, a: Aws, msg: Message, luck: Luck, items: map<JobId, Item>, b: Aws) {
    var reason := FailReason(c, a, msg, luck);
    && luck.finish.Raises? && reason.Some?
    && b == a.(items := if luck.finish.took then WithFailure(c, a, msg, reason.value, luck) else items)
  }

  /** The services, the table entry by entry, and the counters after each outcome
      of a run that got past the body. */
  ghost predicate Means(c: Config, a: Aws, msg: Message, handle: Option<CopyId>, luck: Luck, ran: Ran) {
    var j, reason, r := msg.jobId, FailReason(c, a, msg, luck), Drawn(c, a, msg, luck);
    && ran.complete == (if ran.outcome == COMPLETED then 1 else 0)
    && ran.failed == (if ran.outcome == FAILED_JOB then 1 else 0)
    && (ran.aws.items != a.items ==> j in a.items && a.items[j].status != COMPLETE)
    && match ran.outcome
       case MALFORMED => false
       case SKIPPED_DUPLICATE =>
         && ran.aws == a.(items := ran.aws.items,
                          queue := if Deleted(handle, luck) then a.queue - {handle.value} else a.queue)
         && (ran.aws.items == a.items || ran.aws.items == Found(a, j, luck))
         && j in ran.aws.items && ran.aws.items[j].status == COMPLETE
       case FAILED_JOB =>
         && ran.aws == a.(items := ran.aws.items,
                          queue := if Deleted(handle, luck) then a.queue - {handle.value} else a.queue)
         && if j !in a.items then ran.aws.items == a.items
            else reason.Some? && ran.aws.items == WithFailure(c, a, msg, reason.value, luck)
       case COMPLETED =>
         && r.Some? && handle.Some? && j in a.items && a.items[j].status != COMPLETE
         && ran.aws.items == WithPicture(a, j, r.value, luck)
         && Holding(a.objects, ran.aws.objects, c.bucket, j, r.value.thumbs, luck.put)
         && (forall i :: 0 <= i < |r.value.thumbs| ==> luck.put(i).Fine?)
         && ran.aws.queue == a.queue - {handle.value}
       case RETRY => GaveUp(c, a, msg, handle, luck, ran.aws)
       case RAISED => Raising(c, a, msg, luck) && GaveUp(c, a, msg, handle, luck, ran.aws)
  }

  /** Where a run stops short of rendering. */
  ghost predicate Early(c: Config, a: Aws, msg: Message, luck: Luck) {
    || luck.get.Raises? || msg.jobId !in a.items
    || a.items[msg.jobId].base.None? || a.items[msg.jobId].status == COMPLETE
    || msg.bucket != c.bucket || luck.mark.Raises?
    || !MayProcess(Found(a, msg.jobId, luck), msg.jobId)
  }

  lemma EarlyMeans(c: Config, a: Aws, msg: Message, handle: Option<CopyId>, luck: Luck)
    requires Early(c, a, msg, luck)
    ensures Means(c, a, msg, handle, luck, Processed(c, a, msg, handle, luck))
  {
  }

  lemma LateIs(c: Config, a: Aws, msg: Message, handle: Option<CopyId>, luck: Luck)
    requires !Early(c, a, msg, luck)
    ensures Processed(c, a, msg, handle, luck) == Rendering(c, a.(items := Won(a, msg.jobId, luck)), msg, handle, luck)
    ensures msg.jobId in Won(a, msg.jobId, luck)
  {
  }

  lemma PictureMeans(c: Config, a: Aws, msg: Message, handle: Option<CopyId>, luck: Luck)
    requires Drawn(c, a, msg, luck).Some? && !Early(c, a, msg, luck) && msg.jobId in Won(a, msg.jobId, luck)
    ensures Means(c, a, msg, handle, luck, Rendering(c, a.(items := Won(a, msg.jobId, luck)), msg, handle, luck))
  {
    var r := Drawn(c, a, msg, luck).value;
    var e := UploadedStores(a.objects, c.bucket, msg.jobId, r.thumbs, 0, luck.put);
  }

  lemma NoPictureMeans(c: Config, a: Aws, msg: Message, handle: Option<CopyId>, luck: Luck)
    requires Drawn(c, a, msg, luck).None? && !Early(c, a, msg, luck) && msg.jobId in Won(a, msg.jobId, luck)
    ensures Means(c, a, msg, handle, luck, Rendering(c, a.(items := Won(a, msg.jobId, luck)), msg, handle, luck))
  {
  }

  /** Every run past the body ends in an outcome that fixes the record, the
      queue and the counters. */
  lemma OutcomeMeans(c: Config, a: Aws, msg: Message, handle: Option<CopyId>, luck: Luck)
    ensures Means(c, a, msg, handle, luck, Processed(c, a, msg, handle, luck))
  {
    if Early(c, a, msg, luck) {
      EarlyMeans(c, a, msg, handle, luck);
    } else {
      LateIs(c, a, msg, handle, luck);
      if Drawn(c, a, msg, luck).Some? {
        PictureMeans(c, a, msg, handle, luck);
      } else {
        NoPictureMeans(c, a, msg, handle, luck);
      }
    }
  }

  /** A run completes its job exactly when nothing stands in its way. */
  lemma CompletesIff(c: Config, a: Aws, raw: Raw, luck: Luck)
    requires raw.body.Job?
    ensures
      var msg := raw.body.msg; var j, loc := msg.jobId, Loc(c.bucket, msg.inputKey);
      Handled(c, a, raw, luck).outcome == COMPLETED <==>
        && msg.version <= 1 && msg.bucket == c.bucket && raw.handle.Some?
        && j in a.items && a.items[j].base.Some? && a.items[j].status != COMPLETE && MayProcess(Found(a, j, luck), j)
        && loc in a.objects && luck.render(a.objects[loc]).Image?
        && luck.get.Fine? && luck.mark.Fine? && luck.fetch.Fine? && luck.finish.Fine? && luck.drop.Fine?
        && forall i :: 0 <= i < |luck.render(a.objects[loc]).thumbs| ==> luck.put(i).Fine?
  {
    var loc := Loc(c.bucket, raw.body.msg.inputKey);
    if loc in a.objects && luck.render(a.objects[loc]).Image? {
      var _ := UploadedStores(a.objects, c.bucket, raw.body.msg.jobId, luck.render(a.objects[loc]).thumbs, 0, luck.put);
    }
  }

  /** A run skips its job exactly when the record is COMPLETE, at the lookup or at
      the conditional write, or is gone at the latter. */
  lemma SkipsIff(c: Config, a: Aws, raw: Raw, luck: Luck)
    ensures Handled(c, a, raw, luck).outcome == SKIPPED_DUPLICATE <==>
      && raw.body.Job? && raw.body.msg.version <= 1 && luck.get.Fine?
      && var msg := raw.body.msg; var j := msg.jobId;
      && j in a.items && a.items[j].base.Some?
      && (a.items[j].status != COMPLETE ==>
            msg.bucket == c.bucket && luck.mark.Fine? && !MayProcess(Found(a, j, luck), j))
  {
  }

  /** A run gives its job up for good exactly when the record is missing, or the
      bucket is wrong or the original undecodable and the failure could be
      recorded. */
  lemma FailsIff(c: Config, a: Aws, raw: Raw, luck: Luck)
    ensures Handled(c, a, raw, luck).outcome == FAILED_JOB <==>
      && raw.body.Job? && raw.body.msg.version <= 1 && luck.get.Fine?
      && var msg := raw.body.msg; var j, loc := msg.jobId, Loc(c.bucket, msg.inputKey);
      && (j in a.items ==>
            && a.items[j].base.Some? && a.items[j].status != COMPLETE && luck.finish.Fine?
            && (msg.bucket == c.bucket ==>
                  && luck.mark.Fine? && MayProcess(Found(a, j, luck), j) && luck.fetch.Fine?
                  && loc in a.objects && luck.render(a.objects[loc]).Undecodable?))
  {
  }

  // -- exceptions -----------------------------------------------------------------

  ghost predicate Escapes(f: Fate) {
    f.Raises? && f.error == UnexpectedError
  }

  /** `handle_message` is meant never to raise. It raises exactly when the stored
      item is not a valid record, or an unexpected error comes from the lookup,
      the conditional write, or the recording of a failure. */
  lemma RaisesIff(c: Config, a: Aws, raw: Raw, luck: Luck)
    ensures Handled(c, a, raw, luck).outcome == RAISED <==>
      raw.body.Job? && raw.body.msg.version <= 1 && Raising(c, a, raw.body.msg, luck)
  {
  }

  ghost predicate Raising(c: Config, a: Aws, msg: Message, luck: Luck) {
    var j := msg.jobId;
    || Escapes(luck.get)
    || (luck.get.Fine? && j in a.items && a.items[j].base.None?)
    || (luck.get.Fine? && j in a.items && a.items[j].status != COMPLETE &&
          if msg.bucket != c.bucket then Escapes(luck.finish)
          else Escapes(luck.mark) || (luck.mark.Fine? && MayProcess(Found(a, j, luck), j) && luck.fetch.Fine?
                                      && FailReason(c, a, msg, luck).Some? && Escapes(luck.finish)))
  }

  /** On no message of any run does the worker meet an invalid record: if it
      raises, a call failed in a way none of its handlers names. */
  lemma RaisesOnlyUnexpected(c: Config, s: State, k: CopyId, handle: Option<CopyId>, luck: Luck)
    requires Reachable(c, s) && k in s.queue
    requires Handled(c, ServicesOf(s), Raw(handle, s.queue[k].body), luck).outcome == RAISED
    ensures Escapes(luck.get) || Escapes(luck.mark) || Escapes(luck.finish)
  {
    ReachableKeeps(c, s);
    assert BodyOk(c, s, s.queue[k].body) && ItemOk(c, s, s.queue[k].body.msg.jobId);
    RaisesIff(c, ServicesOf(s), Raw(handle, s.queue[k].body), luck);
  }

  // -- counters over a sequence of runs ------------------------------------------

  /** Any message with any luck: from the queue or not, seen before or not. */
  datatype Delivery = Delivery(raw: Raw, luck: Luck)

  /** The services and the summed counters after handling `ds` in order. */
  function HandledAll(c: Config, a: Aws, ds: seq<Delivery>): Ran
    decreases |ds|
  {
    if ds == [] then Ran(a, RETRY, 0, 0)
    else
      var first := Handled(c, a, ds[0].raw, ds[0].luck);
      var rest := HandledAll(c, first.aws, ds[1..]);
      Ran(rest.aws, rest.outcome, first.complete + rest.complete, first.failed + rest.failed)
  }

  function Done(a: Aws): set<JobId> {
    set j | j in a.items && a.items[j].status == COMPLETE
  }

  /** The run completed its job's record but did not count it. */
  ghost predicate Uncounted(a: Aws, ran: Ran) {
    ran.outcome == RETRY && Done(ran.aws) != Done(a)
  }

  /** A completing run is not told so: its last write took effect but raised, or
      succeeded and the message could not be deleted. */
  ghost predicate Untold(d: Delivery) {
    FinishLost(d.luck) || DropLost(d.raw.handle, d.luck)
  }

  ghost function UncountedRuns(c: Config, a: Aws, ds: seq<Delivery>): nat
    decreases |ds|
  {
    if ds == [] then 0
    else
      var first := Handled(c, a, ds[0].raw, ds[0].luck);
      (if Uncounted(a, first) then 1 else 0) + UncountedRuns(c, first.aws, ds[1..])
  }

  /** How often the runs count job `j` as complete. */
  ghost function CompletionsOf(c: Config, a: Aws, ds: seq<Delivery>, j: JobId): nat
    decreases |ds|
  {
    if ds == [] then 0
    else
      var first := Handled(c, a, ds[0].raw, ds[0].luck);
      (if Concerns(ds[0], j) then first.complete else 0) + CompletionsOf(c, first.aws, ds[1..], j)
  }

  ghost predicate Concerns(d: Delivery, j: JobId) {
    d.raw.body.Job? && d.raw.body.msg.jobId == j
  }

  /** Alone, a run changes the set of completed jobs by its own job at most, and
      counts it exactly if it was told of success. */
  lemma RunCounts(c: Config, a: Aws, d: Delivery)
    requires d.luck.rival.None?
    ensures var ran := Handled(c, a, d.raw, d.luck);
      && Done(a) <= Done(ran.aws)
      && (forall j :: j in Done(ran.aws) && j !in Done(a) ==> Concerns(d, j))
      && |Done(ran.aws)| == |Done(a)| + ran.complete + (if Uncounted(a, ran) then 1 else 0)
      && (ran.complete > 0 ==> ran.complete == 1 && exists j :: Concerns(d, j) && j in Done(ran.aws) && j !in Done(a))
      && (Uncounted(a, ran) <==> Untold(d) && Done(ran.aws) != Done(a))
  {
    var ran := Handled(c, a, d.raw, d.luck);
    if d.raw.body.Malformed? || d.raw.body.msg.version > MESSAGE_SCHEMA_VERSION {
      assert Done(ran.aws) == Done(a);
    } else {
      OutcomeMeans(c, a, d.raw.body.msg, d.raw.handle, d.luck);
      MeansCounts(c, a, d.raw.body.msg, d.raw.handle, d.luck, ran);
      CompletedTold(c, a, d);
      assert ran.complete > 0 ==> Concerns(d, d.raw.body.msg.jobId);
    }
  }

  lemma CompletedTold(c: Config, a: Aws, d: Delivery)
    ensures Handled(c, a, d.raw, d.luck).outcome == COMPLETED ==> !Untold(d)
  {
  }

  /** A table that differs in the entry of `j`, which was not complete. */
  lemma DoneMoves(a: Aws, b: Aws, j: JobId)
    requires j in a.items && a.items[j].status != COMPLETE && j in b.items && b.items == a.items[j := b.items[j]]
    ensures Done(b) == if b.items[j].status == COMPLETE then Done(a) + {j} else Done(a)
  {
  }

  /** A run that gave up alone leaves its job complete only if its last write went
      untold. */
  lemma GaveUpUntold(c: Config, a: Aws, msg: Message, handle: Option<CopyId>, luck: Luck, b: Aws)
    requires luck.rival.None? && GaveUp(c, a, msg, handle, luck, b) && msg.jobId in b.items
    requires b.items != a.items && b.items[msg.jobId].status == COMPLETE
    ensures FinishLost(luck) || DropLost(handle, luck)
    ensures !Raising(c, a, msg, luck)
  {
  }

  lemma GaveUpMoves(c: Config, a: Aws, msg: Message, handle: Option<CopyId>, luck: Luck, b: Aws)
    requires luck.rival.None? && GaveUp(c, a, msg, handle, luck, b) && msg.jobId in a.items
    ensures msg.jobId in b.items && b.items == a.items[msg.jobId := b.items[msg.jobId]]
  {
    assert Found(a, msg.jobId, luck) == a.items;
  }

  lemma MeansMoves(c: Config, a: Aws, msg: Message, handle: Option<CopyId>, luck: Luck, ran: Ran)
    requires luck.rival.None? && Means(c, a, msg, handle, luck, ran) && ran.aws.items != a.items
    ensures msg.jobId in a.items && a.items[msg.jobId].status != COMPLETE && msg.jobId in ran.aws.items
    ensures ran.aws.items == a.items[msg.jobId := ran.aws.items[msg.jobId]]
  {
    if ran.outcome in {RETRY, RAISED} {
      GaveUpMoves(c, a, msg, handle, luck, ran.aws);
    } else {
      assert Found(a, msg.jobId, luck) == a.items;
    }
  }

  lemma MeansStatus(c: Config, a: Aws, msg: Message, handle: Option<CopyId>, luck: Luck, ran: Ran)
    requires luck.rival.None? && Means(c, a, msg, handle, luck, ran) && ran.aws.items != a.items
    requires msg.jobId in ran.aws.items
    ensures ran.outcome in {SKIPPED_DUPLICATE, FAILED_JOB} ==> ran.aws.items[msg.jobId].status != COMPLETE
    ensures ran.outcome == COMPLETED ==> ran.aws.items[msg.jobId].status == COMPLETE
  {
    assert Found(a, msg.jobId, luck) == a.items;
  }

  /** What an outcome says of the set of completed jobs. */
  lemma MeansCounts(c: Config, a: Aws, msg: Message, handle: Option<CopyId>, luck: Luck, ran: Ran)
    requires luck.rival.None? && Means(c, a, msg, handle, luck, ran)
    ensures Done(ran.aws) == Done(a) || (Done(ran.aws) == Done(a) + {msg.jobId} && msg.jobId !in Done(a))
    ensures Done(ran.aws) != Done(a) ==> ran.outcome in {COMPLETED, RETRY}
    ensures ran.outcome == COMPLETED ==> ran.complete == 1 && Done(ran.aws) != Done(a)
    ensures ran.outcome != COMPLETED ==> ran.complete == 0
    ensures ran.outcome == RETRY && Done(ran.aws) != Done(a) ==> FinishLost(luck) || DropLost(handle, luck)
  {
    if ran.aws.items == a.items {
      assert Done(ran.aws) == Done(a);
    } else {
      MeansMoves(c, a, msg, handle, luck, ran);
      MeansStatus(c, a, msg, handle, luck, ran);
      DoneMoves(a, ran.aws, msg.jobId);
      if ran.outcome in {RETRY, RAISED} && ran.aws.items[msg.jobId].status == COMPLETE {
        GaveUpUntold(c, a, msg, handle, luck, ran.aws);
      }
    }
  }

  /** Conservation over any sequence of deliveries, duplicates and faults
      included: the `complete` counter and the uncounted completions together
      account for every record that became COMPLETE. So the counter never
      exceeds the number of COMPLETE records. */
  lemma {:induction false} CompleteCounterConserved(c: Config, a: Aws, ds: seq<Delivery>)
    requires forall i :: 0 <= i < |ds| ==> ds[i].luck.rival.None?
    ensures var end := HandledAll(c, a, ds);
      && Done(a) <= Done(end.aws)
      && |Done(end.aws)| == |Done(a)| + end.complete + UncountedRuns(c, a, ds)
    decreases |ds|
  {
    if ds != [] {
      RunCounts(c, a, ds[0]);
      CompleteCounterConserved(c, Handled(c, a, ds[0].raw, ds[0].luck).aws, ds[1..]);
    }
  }

  /** If every completing write was reported and its delete succeeded, the counter
      equals the number of records that became COMPLETE. */
  lemma CompleteCounterExact(c: Config, a: Aws, ds: seq<Delivery>)
    requires forall i :: 0 <= i < |ds| ==> ds[i].luck.rival.None? && !Untold(ds[i])
    ensures var end := HandledAll(c, a, ds); end.complete == |Done(end.aws)| - |Done(a)|
  {
    CompleteCounterConserved(c, a, ds);
    NoneUncounted(c, a, ds);
  }

  lemma {:induction false} NoneUncounted(c: Config, a: Aws, ds: seq<Delivery>)
    requires forall i :: 0 <= i < |ds| ==> ds[i].luck.rival.None? && !Untold(ds[i])
    ensures UncountedRuns(c, a, ds) == 0
    decreases |ds|
  {
    if ds != [] {
      RunCounts(c, a, ds[0]);
      NoneUncounted(c, Handled(c, a, ds[0].raw, ds[0].luck).aws, ds[1..]);
    }
  }

  /** Each job is counted at most once, and not at all if it was complete before. */
  lemma {:induction false} CountedOnce(c: Config, a: Aws, ds: seq<Delivery>, j: JobId)
    requires forall i :: 0 <= i < |ds| ==> ds[i].luck.rival.None?
    ensures CompletionsOf(c, a, ds, j) <= if j in Done(a) then 0 else 1
    decreases |ds|
  {
    if ds != [] {
      RunCounts(c, a, ds[0]);
      CountedOnce(c, Handled(c, a, ds[0].raw, ds[0].luck).aws, ds[1..], j);
    }
  }

  // -- and over a run of the poll loop ------------------------------------------------

  ghost predicate Twins(a: Aws, b: Aws) {
    a.items == b.items && a.objects == b.objects
  }

  ghost predicate SameRuns(r: Ran, q: Ran) {
    Twins(r.aws, q.aws) && r.outcome == q.outcome && r.complete == q.complete && r.failed == q.failed
  }

  lemma FailedTwins(a: Aws, b: Aws, j: JobId, handle: Option<CopyId>, reason: string, luck: Luck)
    requires Twins(a, b)
    ensures SameRuns(FailedJob(a, j, handle, reason, luck), FailedJob(b, j, handle, reason, luck))
  {
  }

  lemma FinishedTwins(a: Aws, b: Aws, j: JobId, handle: Option<CopyId>, r: Picture, luck: Luck)
    requires Twins(a, b)
    ensures SameRuns(Finished(a, j, handle, r, luck), Finished(b, j, handle, r, luck))
  {
  }

  lemma RenderingTwins(c: Config, a: Aws, b: Aws, msg: Message, handle: Option<CopyId>, luck: Luck)
    requires Twins(a, b)
    ensures SameRuns(Rendering(c, a, msg, handle, luck), Rendering(c, b, msg, handle, luck))
  {
    var got := Fetched(a.objects, Loc(c.bucket, msg.inputKey), luck.fetch);
    if got.Ok? {
      var r := luck.render(got.value);
      if r.Undecodable? {
        FailedTwins(a, b, msg.jobId, handle, r.reason, luck);
      } else {
        var objects := Uploaded(a.objects, c.bucket, msg.jobId, r.thumbs, 0, luck.put).0;
        FinishedTwins(a.(objects := objects), b.(objects := objects), msg.jobId, handle, r, luck);
      }
    }
  }

  lemma ContendedTwins(c: Config, a: Aws, b: Aws, msg: Message, handle: Option<CopyId>, luck: Luck)
    requires Twins(a, b)
    ensures SameRuns(Contended(c, a, msg, handle, luck), Contended(c, b, msg, handle, luck))
  {
    if luck.mark.Fine? && MayProcess(a.items, msg.jobId) {
      var items := a.items[msg.jobId := Processing(a.items[msg.jobId], luck.started)];
      RenderingTwins(c, a.(items := items), b.(items := items), msg, handle, luck);
    }
  }

  lemma ProcessedTwins(c: Config, a: Aws, b: Aws, msg: Message, handle: Option<CopyId>, luck: Luck)
    requires Twins(a, b)
    ensures SameRuns(Processed(c, a, msg, handle, luck), Processed(c, b, msg, handle, luck))
  {
    if msg.bucket != c.bucket {
      FailedTwins(a, b, msg.jobId, handle, UNEXPECTED_BUCKET, luck);
    } else {
      var found := Found(a, msg.jobId, luck);
      ContendedTwins(c, a.(items := found), b.(items := found), msg, handle, luck);
    }
  }

  /** A run depends on the table and the store alone, not on the queue. */
  lemma QueueIsIrrelevant(c: Config, a: Aws, b: Aws, raw: Raw, luck: Luck)
    requires Twins(a, b)
    ensures SameRuns(Handled(c, a, raw, luck), Handled(c, b, raw, luck))
  {
    if raw.body.Job? { ProcessedTwins(c, a, b, raw.body.msg, raw.handle, luck); }
  }

  lemma {:induction false} QueueIsIrrelevantAll(c: Config, a: Aws, b: Aws, ds: seq<Delivery>)
    requires Twins(a, b)
    ensures var r, q := HandledAll(c, a, ds), HandledAll(c, b, ds);
      Twins(r.aws, q.aws) && r.complete == q.complete && r.failed == q.failed
    decreases |ds|
  {
    if ds != [] {
      QueueIsIrrelevant(c, a, b, ds[0].raw, ds[0].luck);
      var r, q := Handled(c, a, ds[0].raw, ds[0].luck), Handled(c, b, ds[0].raw, ds[0].luck);
      QueueIsIrrelevantAll(c, r.aws, q.aws, ds[1..]);
    }
  }

  /** Readings as a run of the loop leaves them, one before and one after each turn. */
  ghost predicate Course(c: Config, readings: seq<Reading>, turns: seq<Turn>) {
    && 1 <= |readings| <= |turns| + 1
    && forall i :: 0 <= i < |readings| - 1 ==> TurnLeads(c, readings[i], turns[i], readings[i + 1])
  }

  /** The messages the queue hands over in the course of a run, in order, each with
      the body of its copy. */
  ghost function HandedOver(c: Config, readings: seq<Reading>, turns: seq<Turn>): seq<Delivery>
    requires |readings| <= |turns| + 1
  {
    if |readings| < 2 then []
    else
      var q, got := MovedAll(c.maxReceives, readings[0].aws.queue, turns[0].moves), turns[0].got;
      (if got.Some? && got.value.k in q && q[got.value.k].visible && q[got.value.k].receives < c.maxReceives
       then [Delivery(Raw(Some(got.value.k), q[got.value.k].body), got.value.luck)] else [])
      + HandedOver(c, readings[1..], turns[1..])
  }

  /** What the loop does to the table, the store and the counters is what the
      messages handed over do, one after the other. */
  lemma {:induction false} RunIsDeliveries(c: Config, readings: seq<Reading>, turns: seq<Turn>)
    requires Course(c, readings, turns)
    ensures var last, q := readings[|readings| - 1], HandledAll(c, readings[0].aws, HandedOver(c, readings, turns));
      && Twins(last.aws, q.aws)
      && last.complete == readings[0].complete + q.complete && last.failed == readings[0].failed + q.failed
    decreases |readings|
  {
    if |readings| >= 2 {
      var a, b, rest := readings[0].aws, Before(c, readings[0].aws, turns[0]), HandedOver(c, readings[1..], turns[1..]);
      assert forall i :: 0 <= i < |readings[1..]| - 1 ==> readings[1..][i] == readings[i + 1];
      RunIsDeliveries(c, readings[1..], turns[1..]);
      if turns[0].got.Some? && CanReceive(c.maxReceives, b.queue, turns[0].got.value.k) {
        var k, luck := turns[0].got.value.k, turns[0].got.value.luck;
        FirstDelivery(c, a, Taken(b, k), Delivery(Raw(Some(k), b.queue[k].body), luck), rest);
      } else {
        assert HandedOver(c, readings, turns) == rest;
        QueueIsIrrelevantAll(c, a, b, rest);
      }
    }
  }

  /** Every delivery comes from a reception of the run. */
  lemma {:induction false} HandedByTurns(c: Config, readings: seq<Reading>, turns: seq<Turn>, d: Delivery)
    returns (t: Turn)
    requires |readings| <= |turns| + 1 && d in HandedOver(c, readings, turns)
    ensures t in turns && t.got.Some? && d.luck == t.got.value.luck && d.raw.handle == Some(t.got.value.k)
    decreases |readings|
  {
    if d in HandedOver(c, readings[1..], turns[1..]) {
      t := HandedByTurns(c, readings[1..], turns[1..], d);
    } else {
      t := turns[0];
    }
  }

  /** The first delivery may find another queue than the rest of the table says. */
  lemma FirstDelivery(c: Config, a: Aws, b: Aws, d: Delivery, rest: seq<Delivery>)
    requires Twins(a, b)
    ensures
      var first := Handled(c, b, d.raw, d.luck);
      var q, r := HandledAll(c, first.aws, rest), HandledAll(c, a, [d] + rest);
      && Twins(q.aws, r.aws)
      && r.complete == first.complete + q.complete && r.failed == first.failed + q.failed
  {
    assert ([d] + rest)[1..] == rest;
    QueueIsIrrelevant(c, a, b, d.raw, d.luck);
    QueueIsIrrelevantAll(c, Handled(c, a, d.raw, d.luck).aws, Handled(c, b, d.raw, d.luck).aws, rest);
  }

  /** `ds` are the messages of the turns up to the first stop, each with the body
      of its copy in `queue`: in every one the receive asks for another copy that
      can be handed over, and the queue does nothing on its own. */
  ghost predicate Brought(c: Config, queue: map<CopyId, Copy>, turns: seq<Turn>, ds: seq<Delivery>) {
    && |ds| <= |turns|
    && (forall i :: 0 <= i < |ds| - 1 ==> turns[i].stop.None?)
    && (|ds| < |turns| ==> |ds| > 0 && turns[|ds| - 1].stop.Some?)
    && (forall i :: 0 <= i < |ds| ==>
          && turns[i].moves == [] && turns[i].got.Some?
          && var k := turns[i].got.value.k;
          && k in queue && queue[k].visible && queue[k].receives < c.maxReceives
          && ds[i] == Delivery(Raw(Some(k), queue[k].body), turns[i].got.value.luck))
    && forall i, j :: 0 <= i < j < |ds| ==> ds[i].raw.handle != ds[j].raw.handle
  }

  /** Handling the first message leaves the other copies as they are. */
  lemma FirstBrought(c: Config, a: Aws, turns: seq<Turn>, ds: seq<Delivery>) returns (taken: Aws)
    requires Brought(c, a.queue, turns, ds) && ds != []
    ensures Twins(taken, a)
    ensures var first := Handled(c, taken, ds[0].raw, ds[0].luck);
      && Turned(c, a, turns[0]) == first
      && SameElsewhere(a.queue, first.aws.queue, ds[0].raw.handle)
  {
    taken := Taken(a, turns[0].got.value.k);
    assert Before(c, a, turns[0]) == a;
    DeletesOnlyTerminated(c, taken, ds[0].raw, ds[0].luck);
  }

  ghost predicate SameElsewhere(before: map<CopyId, Copy>, after: map<CopyId, Copy>, handle: Option<CopyId>) {
    forall k :: k in before && handle != Some(k) ==> k in after && after[k] == before[k]
  }

  lemma RestBrought(c: Config, queue: map<CopyId, Copy>, after: map<CopyId, Copy>, turns: seq<Turn>,
                    ds: seq<Delivery>)
    requires Brought(c, queue, turns, ds) && ds != [] && SameElsewhere(queue, after, ds[0].raw.handle)
    requires turns[0].stop.None?
    ensures Brought(c, after, turns[1..], ds[1..])
  {
    forall i | 0 <= i < |ds[1..]| ensures ds[1..][i].raw.handle != ds[0].raw.handle {
    }
  }

  /** Every message received before the loop stops is handled once, in order, with
      the body it has on the queue. */
  lemma {:induction false} EachReceptionHandled(c: Config, a: Aws, turns: seq<Turn>, ds: seq<Delivery>)
    requires Brought(c, a.queue, turns, ds)
    ensures var r, q := RunAll(c, a, turns, false), HandledAll(c, a, ds);
      Twins(r.aws, q.aws) && r.complete == q.complete && r.failed == q.failed
    decreases |turns|
  {
    if ds != [] {
      var taken := FirstBrought(c, a, turns, ds);
      if turns[0].stop.None? {
        var after := Handled(c, taken, ds[0].raw, ds[0].luck).aws;
        RestBrought(c, a.queue, after.queue, turns, ds);
        EachReceptionHandled(c, after, turns[1..], ds[1..]);
      } else {
        assert ds[1..] == [];
      }
      FirstDelivery(c, a, taken, ds[0], ds[1..]);
      assert [ds[0]] + ds[1..] == ds;
    }
  }

  /** The copies not asked for stay as they are. */
  lemma {:induction false} OtherCopiesStay(c: Config, a: Aws, turns: seq<Turn>, ds: seq<Delivery>, k: CopyId)
    requires Brought(c, a.queue, turns, ds) && k in a.queue && forall d :: d in ds ==> d.raw.handle != Some(k)
    ensures var b := RunAll(c, a, turns, false).aws; k in b.queue && b.queue[k] == a.queue[k]
    decreases |turns|
  {
    if ds != [] {
      var taken := FirstBrought(c, a, turns, ds);
      var after := Handled(c, taken, ds[0].raw, ds[0].luck).aws;
      assert ds[0] in ds;
      if turns[0].stop.None? {
        RestBrought(c, a.queue, after.queue, turns, ds);
        OtherCopiesStay(c, after, turns[1..], ds[1..], k);
      }
    }
  }

  /** Every completing write was reported and the delete after it succeeded. */
  ghost predicate AllTold(turns: seq<Turn>) {
    forall t :: t in turns && t.got.Some? ==>
      !FinishLost(t.got.value.luck) && !DropLost(Some(t.got.value.k), t.got.value.luck)
  }

  /** Over any run of the loop, redeliveries and faults included, the `complete`
      counter grows by no more than the number of records that became COMPLETE,
      and by exactly as many if no completing write or its delete went untold. */
  lemma RunCountersBounded(c: Config, readings: seq<Reading>, turns: seq<Turn>)
    requires Course(c, readings, turns)
    requires forall t :: t in turns && t.got.Some? ==> t.got.value.luck.rival.None?
    ensures var first, last := readings[0], readings[|readings| - 1];
      var grown, became := last.complete - first.complete, |Done(last.aws)| - |Done(first.aws)|;
      && Done(first.aws) <= Done(last.aws) && 0 <= grown <= became && (AllTold(turns) ==> grown == became)
  {
    RunIsDeliveries(c, readings, turns);
    var a, ds := readings[0].aws, HandedOver(c, readings, turns);
    forall i | 0 <= i < |ds| ensures ds[i].luck.rival.None? && (AllTold(turns) ==> !Untold(ds[i])) {
      var _ := HandedByTurns(c, readings, turns, ds[i]);
    }
    CompleteCounterConserved(c, a, ds);
    if AllTold(turns) { CompleteCounterExact(c, a, ds); }
  }
}
