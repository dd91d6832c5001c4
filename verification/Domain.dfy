/** Records, messages and rendered images: the data contracts the API and the
    workers share. */
module Domain {
  import opened Wrappers
  import opened PyValues
  import opened Keys

  type Time = nat
  type JobId = string
  type CopyId = nat
  type Exif = map<string, Value>

  /** The message schema this worker understands. */
  const MESSAGE_SCHEMA_VERSION: nat := 1

  datatype Status = PENDING | PROCESSING | COMPLETE | FAILED

  /** What the header-only inspection at the upload gate learns. */
  datatype Probe = Probe(format: string, width: nat, height: nat, extension: Extension)

  datatype Thumbnail = Thumbnail(size: nat, data: Bytes, width: nat, height: nat)

  /** The result of one attempt to render an original. */
  datatype Rendered =
    | Undecodable(reason: string)
    | Image(thumbs: seq<Thumbnail>, exif: Exif, width: nat, height: nat, format: string)

  type Picture = r: Rendered | r.Image? witness Image([], map[], 0, 0, "")

  datatype Output = Output(size: nat, key: Key, width: nat, height: nat, bytes: nat)

  /** The attributes `put_item` writes and no update ever touches. */
  datatype Base = Base(createdAt: Time, filename: string, sizeBytes: nat, contentType: string,
                       inputKey: Key, traceId: Option<string>)

  /** A DynamoDB item. `base` is absent from an item that does not read back as a
      job record, such as one that an `update_item` on a missing key would have
      created. */
  datatype Item = Item(base: Option<Base>, status: Status, updatedAt: Option<Time>,
                       startedAt: Option<Time>, completedAt: Option<Time>,
                       outputs: Option<map<nat, Output>>, exif: Option<Exif>,
                       width: Option<nat>, height: Option<nat>, format: Option<string>,
                       processingMs: Option<nat>, error: Option<string>)

  const STUB: Item := Item(None, PENDING, None, None, None, None, None, None, None, None, None, None)

  datatype Message = Message(version: nat, jobId: JobId, bucket: string, inputKey: Key,
                             contentType: string, filename: string, submittedAt: Time)

  datatype Body = Malformed | Job(msg: Message)

  /** One delivery copy of a queue message. */
  datatype Copy = Copy(body: Body, receives: nat, visible: bool)

  datatype Loc = Loc(bucket: string, key: Key)

  /** Configuration shared by every worker, and the two library functions the
      program relies on. `probe` is the upload gate. `can(b, r)` says that an
      attempt to render the bytes `b` may end in `r`: rendering is not assumed
      to be deterministic. */
  datatype Config = Config(bucket: string, sizes: seq<nat>, maxReceives: nat,
                           maxUploadBytes: nat, contentTypes: set<string>,
                           probe: Bytes -> Option<Probe>, can: (Bytes, Rendered) -> bool)

  /** Everything one accepted HTTP upload determines. */
  datatype Upload = Upload(jobId: JobId, bucket: string, version: nat, data: Bytes, filename: string,
                           contentType: string, traceId: Option<string>, at: Time)

  /** The uploads that pass the API's validation. */
  ghost predicate Admissible(c: Config, up: Upload) {
    && |up.data| <= c.maxUploadBytes
    && up.contentType in c.contentTypes
    && c.probe(up.data).Some?
  }

  /** The probe of an admissible upload; `.bin` is the extension of a format
      the gate does not recognise. */
  function ProbeOf(c: Config, up: Upload): Probe {
    if c.probe(up.data).Some? then c.probe(up.data).value else Probe("", 0, 0, ".bin")
  }

  function BaseOf(c: Config, up: Upload): Base {
    Base(up.at, up.filename, |up.data|, up.contentType, Original(up.jobId, ProbeOf(c, up).extension), up.traceId)
  }

  /** The record as the API first writes it. */
  function PendingItem(c: Config, up: Upload): Item {
    var p := ProbeOf(c, up);
    STUB.(base := Some(BaseOf(c, up)), updatedAt := Some(up.at),
          width := Some(p.width), height := Some(p.height), format := Some(p.format))
  }

  /** The same record rewritten after the queue refused the job. */
  function UnqueueableItem(c: Config, up: Upload, reason: string, now: Time): Item {
    PendingItem(c, up).(status := FAILED, error := Some(reason), updatedAt := Some(now), completedAt := Some(now))
  }

  function MessageOf(c: Config, up: Upload): Message {
    Message(up.version, up.jobId, up.bucket, BaseOf(c, up).inputKey, up.contentType, up.filename, up.at)
  }

  function OriginalLoc(c: Config, up: Upload): Loc {
    Loc(up.bucket, BaseOf(c, up).inputKey)
  }

  // -- the three updates a worker makes --------------------------------------

  function Processing(item: Item, now: Time): Item {
    item.(status := PROCESSING, startedAt := Some(now), updatedAt := Some(now))
  }

  function Completed(item: Item, job: JobId, r: Picture, ms: nat, now: Time): Item {
    item.(status := COMPLETE, outputs := Some(OutputsUpTo(job, r.thumbs, |r.thumbs|)), exif := Some(r.exif),
          width := Some(r.width), height := Some(r.height), format := Some(r.format), processingMs := Some(ms),
          completedAt := Some(now), updatedAt := Some(now), error := None)
  }

  const MAX_REASON_CHARS: nat := 512

  /** A reason as the record keeps it. */
  function Cut(reason: string): (r: string)
    ensures r <= reason && |r| <= MAX_REASON_CHARS && (|reason| <= MAX_REASON_CHARS ==> r == reason)
  {
    if |reason| <= MAX_REASON_CHARS then reason else reason[..MAX_REASON_CHARS]
  }

  function Failed(item: Item, reason: string, now: Time): Item {
    item.(status := FAILED, error := Some(Cut(reason)), completedAt := Some(now), updatedAt := Some(now))
  }

  function OutputFor(job: JobId, t: Thumbnail): Output {
    Output(t.size, Thumb(job, t.size), t.width, t.height, |t.data|)
  }

  /** The outputs map after the first `n` uploads, keyed by size. */
  function OutputsUpTo(job: JobId, thumbs: seq<Thumbnail>, n: nat): map<nat, Output>
    requires n <= |thumbs|
  {
    if n == 0 then map[] else OutputsUpTo(job, thumbs, n - 1)[thumbs[n - 1].size := OutputFor(job, thumbs[n - 1])]
  }

  // -- thumbnail sizes --------------------------------------------------------

  ghost predicate Increasing(s: seq<nat>) {
    forall i, j :: 0 <= i < j < |s| ==> s[i] < s[j]
  }

  function InsertSize(x: nat, s: seq<nat>): (r: seq<nat>)
    requires Increasing(s)
    ensures Increasing(r)
    ensures forall y :: y in r <==> y == x || y in s
  {
    if s == [] then [x]
    else if x < s[0] then [x] + s
    else if x == s[0] then s
    else
      var r := InsertSize(x, s[1..]);
      assert forall y :: y in s <==> y == s[0] || y in s[1..];
      assert forall i :: 0 <= i < |r| ==> r[i] in r && s[0] < r[i];
      [s[0]] + r
  }

  /** `sorted(set(sizes))`: one entry per distinct configured size. */
  function SortedDistinct(sizes: seq<nat>): (r: seq<nat>)
    ensures Increasing(r)
    ensures forall y :: y in r <==> y in sizes
  {
    if sizes == [] then []
    else
      assert forall y :: y in sizes <==> y == sizes[0] || y in sizes[1..];
      InsertSize(sizes[0], SortedDistinct(sizes[1..]))
  }

  function SizesOf(thumbs: seq<Thumbnail>): seq<nat> {
    seq(|thumbs|, i requires 0 <= i < |thumbs| => thumbs[i].size)
  }

  /** A rendering attempt of `data` under `c` may end in `r`. An image carries
      exactly one thumbnail per distinct configured size, in increasing order. */
  ghost predicate Renders(c: Config, data: Bytes, r: Rendered) {
    c.can(data, r) && (r.Image? ==> SizesOf(r.thumbs) == SortedDistinct(c.sizes))
  }

  /** No later one of the first `n` thumbnails has the size of the `i`-th. */
  ghost predicate LastOfSize(thumbs: seq<Thumbnail>, i: nat, n: nat)
    requires n <= |thumbs|
  {
    i < n && forall k :: i < k < n ==> thumbs[k].size != thumbs[i].size
  }

  /** The outputs describe, under each size, the last thumbnail of that size. */
  ghost predicate Describe(outputs: map<nat, Output>, job: JobId, thumbs: seq<Thumbnail>, n: nat)
    requires n <= |thumbs|
  {
    && outputs.Keys == (set i | 0 <= i < n :: thumbs[i].size)
    && forall i: nat {:trigger LastOfSize(thumbs, i, n)} :: LastOfSize(thumbs, i, n) ==>
         var t := thumbs[i];
         t.size in outputs && outputs[t.size] == Output(t.size, Thumb(job, t.size), t.width, t.height, |t.data|)
  }

  lemma {:induction false} OutputsDescribe(job: JobId, thumbs: seq<Thumbnail>, n: nat)
    requires n <= |thumbs|
    ensures Describe(OutputsUpTo(job, thumbs, n), job, thumbs, n)
  {
    if n > 0 {
      OutputsDescribe(job, thumbs, n - 1);
      var before, now, last := OutputsUpTo(job, thumbs, n - 1), OutputsUpTo(job, thumbs, n), thumbs[n - 1];
      assert now.Keys == before.Keys + {last.size};
      forall i: nat | LastOfSize(thumbs, i, n)
        ensures thumbs[i].size in now && now[thumbs[i].size] == OutputFor(job, thumbs[i])
      {
        if i < n - 1 { assert LastOfSize(thumbs, i, n - 1); }
      }
    }
  }

  lemma OutputsAre(job: JobId, thumbs: seq<Thumbnail>, n: nat)
    requires n <= |thumbs| && Increasing(SizesOf(thumbs))
    ensures OutputsUpTo(job, thumbs, n).Keys == set i | 0 <= i < n :: thumbs[i].size
    ensures forall i :: 0 <= i < n ==>
      var outputs := OutputsUpTo(job, thumbs, n);
      thumbs[i].size in outputs && outputs[thumbs[i].size] == OutputFor(job, thumbs[i])
  {
    OutputsDescribe(job, thumbs, n);
    var outputs := OutputsUpTo(job, thumbs, n);
    forall i | 0 <= i < n
      ensures thumbs[i].size in outputs && outputs[thumbs[i].size] == OutputFor(job, thumbs[i])
    {
      forall k | i < k < n ensures thumbs[k].size != thumbs[i].size {
        assert SizesOf(thumbs)[i] < SizesOf(thumbs)[k];
      }
      assert LastOfSize(thumbs, i, n);
    }
  }

  /** A completed record has exactly one output per distinct configured size. */
  lemma OneOutputPerSize(c: Config, job: JobId, data: Bytes, r: Rendered)
    requires r.Image? && Renders(c, data, r)
    ensures OutputsUpTo(job, r.thumbs, |r.thumbs|).Keys == set n | n in c.sizes
  {
    OutputsAre(job, r.thumbs, |r.thumbs|);
    var sizes := SizesOf(r.thumbs);
    var keys := OutputsUpTo(job, r.thumbs, |r.thumbs|).Keys;
    forall n ensures n in keys <==> n in c.sizes {
      assert n in c.sizes <==> n in sizes;
      if n in sizes {
        var i :| 0 <= i < |sizes| && sizes[i] == n;
        assert r.thumbs[i].size == n;
      }
      if n in keys {
        var i :| 0 <= i < |r.thumbs| && r.thumbs[i].size == n;
        assert sizes[i] == n;
      }
    }
  }
}
