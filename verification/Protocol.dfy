/** The job protocol as a step system. API calls and workers have one program
    counter each and advance by one AWS call per step, so every interleaving
    and every crash point is a run. A call may also take effect and be retried
    (`done == false`), and a process may stop at any point: together these
    cover a call that takes effect but reports failure. */
module Protocol {
  import opened Wrappers
  import opened PyValues
  import opened Keys
  import opened Domain

  type Pid = nat

  /** The next AWS call of an upload request. */
  datatype ApiAt = AtPutObject | AtPutRecord | AtSend | AtMarkUnqueueable(reason: string)

  datatype Call = Call(up: Upload, at: ApiAt)

  /** The next AWS call of a worker that holds a message. */
  datatype WorkAt =
    | AtLookup
    | AtMarkProcessing
    | AtDownload
    | AtUpload(r: Picture, count: nat)
    | AtMarkComplete(r: Picture)
    | AtMarkFailed(reason: string)
    | AtDelete

  datatype Task = Task(copy: CopyId, body: Body, at: WorkAt)

  /** `objects`, `items`, `queue` and `dlq` are the AWS state; `calls` and
      `tasks` the running processes (an idle worker has no task). The rest is
      history: the uploads begun, the jobs whose message was sent, and the
      message copies ever created. */
  datatype State = State(objects: map<Loc, Bytes>, items: map<JobId, Item>,
                         queue: map<CopyId, Copy>, dlq: map<CopyId, Copy>,
                         calls: map<Pid, Call>, tasks: map<Pid, Task>,
                         uploads: map<JobId, Upload>, sent: set<JobId>, issued: set<CopyId>)

  const INIT: State := State(map[], map[], map[], map[], map[], map[], map[], {}, {})

  datatype Event =
    // an upload request
    | Begin(p: Pid, up: Upload)
    | PutObject(p: Pid, done: bool)
    | PutRecord(p: Pid, done: bool)
    | Send(p: Pid, copies: set<CopyId>)
    | SendRefused(p: Pid, reason: string)
    | MarkUnqueueable(p: Pid, now: Time, done: bool)
    | ApiStop(p: Pid)
    // a worker
    | Receive(w: Pid, k: CopyId)
    | Lookup(w: Pid)
    | MarkProcessing(w: Pid, now: Time, done: bool)
    | Download(w: Pid, r: Rendered)
    | UploadThumb(w: Pid, done: bool)
    | MarkComplete(w: Pid, now: Time, ms: nat, done: bool)
    | MarkFailed(w: Pid, now: Time, done: bool)
    | Delete(w: Pid, took: bool, done: bool)
    | WorkerStop(w: Pid)
    // the queue service
    | ReceiveLost(k: CopyId)
    | Expire(k: CopyId)
    | Redrive(k: CopyId)
    | Inject(k: CopyId)

  /** The queue service has nothing to do with this step. */
  ghost predicate QueueAtRest(s: State, t: State) {
    t.queue == s.queue && t.dlq == s.dlq && t.issued == s.issued && t.sent == s.sent
  }

  function RecordSet(s: State, j: JobId, item: Item): State {
    s.(items := s.items[j := item])
  }

  function ObjectSet(s: State, loc: Loc, data: Bytes): State {
    s.(objects := s.objects[loc := data])
  }

  // -- upload requests --------------------------------------------------------

  ghost predicate ApiEnabled(c: Config, s: State, e: Event) {
    match e
    case Begin(p, up) => p !in s.calls && up.jobId !in s.uploads && Admissible(c, up)
    case PutObject(p, _) => p in s.calls && s.calls[p].at == AtPutObject
    case PutRecord(p, _) => p in s.calls && s.calls[p].at == AtPutRecord
    case Send(p, copies) => p in s.calls && s.calls[p].at == AtSend && copies != {} && copies !! s.issued
    case SendRefused(p, _) => p in s.calls && s.calls[p].at == AtSend
    case MarkUnqueueable(p, _, _) => p in s.calls && s.calls[p].at.AtMarkUnqueueable?
    case ApiStop(p) => p in s.calls
    case _ => false
  }

  function Begun(s: State, p: Pid, up: Upload): (t: State)
    ensures QueueAtRest(s, t) && t.tasks == s.tasks && t.items == s.items
  {
    s.(calls := s.calls[p := Call(up, AtPutObject)], uploads := s.uploads[up.jobId := up])
  }

  function PuttingObject(c: Config, s: State, p: Pid, done: bool): (t: State)
    requires p in s.calls
    ensures QueueAtRest(s, t) && t.tasks == s.tasks && t.items == s.items
  {
    var up := s.calls[p].up;
    var s' := ObjectSet(s, OriginalLoc(c, up), up.data);
    if done then s'.(calls := s.calls[p := Call(up, AtPutRecord)]) else s'
  }

  function PuttingRecord(c: Config, s: State, p: Pid, done: bool): (t: State)
    requires p in s.calls
    ensures QueueAtRest(s, t) && t.tasks == s.tasks
  {
    var up := s.calls[p].up;
    var s' := RecordSet(s, up.jobId, PendingItem(c, up));
    if done then s'.(calls := s.calls[p := Call(up, AtSend)]) else s'
  }

  /** The queue keeps one or more copies of a sent message: delivery is at
      least once. */
  function Sending(c: Config, s: State, p: Pid, copies: set<CopyId>): (t: State)
    requires p in s.calls
    ensures t.items == s.items && t.tasks == s.tasks
  {
    var up := s.calls[p].up;
    s.(queue := s.queue + (map k | k in copies :: Copy(Job(MessageOf(c, up)), 0, true)),
       calls := s.calls - {p}, sent := s.sent + {up.jobId}, issued := s.issued + copies)
  }

  function Refusing(s: State, p: Pid, reason: string): (t: State)
    requires p in s.calls
    ensures QueueAtRest(s, t) && t.tasks == s.tasks && t.items == s.items
  {
    s.(calls := s.calls[p := s.calls[p].(at := AtMarkUnqueueable(reason))])
  }

  function MarkingUnqueueable(c: Config, s: State, p: Pid, now: Time, done: bool): (t: State)
    requires p in s.calls && s.calls[p].at.AtMarkUnqueueable?
    ensures QueueAtRest(s, t) && t.tasks == s.tasks
  {
    var call := s.calls[p];
    var s' := RecordSet(s, call.up.jobId, UnqueueableItem(c, call.up, call.at.reason, now));
    if done then s'.(calls := s.calls - {p}) else s'
  }

  ghost function ApiApply(c: Config, s: State, e: Event): (t: State)
    requires ApiEnabled(c, s, e)
    ensures t.tasks == s.tasks
  {
    match e
    case Begin(p, up) => Begun(s, p, up)
    case PutObject(p, done) => PuttingObject(c, s, p, done)
    case PutRecord(p, done) => PuttingRecord(c, s, p, done)
    case Send(p, copies) => Sending(c, s, p, copies)
    case SendRefused(p, reason) => Refusing(s, p, reason)
    case MarkUnqueueable(p, now, done) => MarkingUnqueueable(c, s, p, now, done)
    case ApiStop(p) => s.(calls := s.calls - {p})
  }

  // -- workers ----------------------------------------------------------------

  ghost predicate Receivable(c: Config, s: State, k: CopyId) {
    k in s.queue && s.queue[k].visible && s.queue[k].receives < c.maxReceives
  }

  ghost predicate Holds(s: State, w: Pid) {
    w in s.tasks && s.tasks[w].body.Job?
  }

  ghost predicate WorkerEnabled(c: Config, s: State, e: Event) {
    match e
    case Receive(w, k) => w !in s.tasks && Receivable(c, s, k)
    case Lookup(w) => Holds(s, w) && s.tasks[w].at == AtLookup
    case MarkProcessing(w, _, _) => Holds(s, w) && s.tasks[w].at == AtMarkProcessing
    case Download(w, r) =>
      && Holds(s, w) && s.tasks[w].at == AtDownload
      && var loc := Loc(c.bucket, s.tasks[w].body.msg.inputKey);
      && loc in s.objects && Renders(c, s.objects[loc], r)
    case UploadThumb(w, _) => Holds(s, w) && s.tasks[w].at.AtUpload? && s.tasks[w].at.count < |s.tasks[w].at.r.thumbs|
    case MarkComplete(w, _, _, _) => Holds(s, w) && s.tasks[w].at.AtMarkComplete?
    case MarkFailed(w, _, _) => Holds(s, w) && s.tasks[w].at.AtMarkFailed?
    case Delete(w, _, _) => w in s.tasks && s.tasks[w].at == AtDelete
    case WorkerStop(w) => w in s.tasks
    case _ => false
  }

  function Received(s: State, k: CopyId): State
    requires k in s.queue
  {
    s.(queue := s.queue[k := s.queue[k].(receives := s.queue[k].receives + 1, visible := false)])
  }

  /** What a worker does with a message before its first table call: drop one
      it cannot parse, leave one from a newer producer alone. */
  function FirstTask(k: CopyId, body: Body): Option<Task> {
    match body
    case Malformed => Some(Task(k, body, AtDelete))
    case Job(msg) => if msg.version > MESSAGE_SCHEMA_VERSION then None else Some(Task(k, body, AtLookup))
  }

  function Receiving(s: State, w: Pid, k: CopyId): (t: State)
    requires k in s.queue
    ensures t.items == s.items
  {
    var task := FirstTask(k, s.queue[k].body);
    Received(s, k).(tasks := if task.Some? then s.tasks[w := task.value] else s.tasks)
  }

  function At(s: State, w: Pid, at: WorkAt): State
    requires w in s.tasks
  {
    s.(tasks := s.tasks[w := s.tasks[w].(at := at)])
  }

  const UNEXPECTED_BUCKET: string := "message references unexpected bucket"

  /** Where the lookup sends the worker; None when the item does not read back
      as a job record and the worker gives up. */
  function AfterLookup(c: Config, items: map<JobId, Item>, msg: Message): Option<WorkAt> {
    if msg.jobId !in items then Some(AtDelete)
    else if items[msg.jobId].base.None? then None
    else if items[msg.jobId].status == COMPLETE then Some(AtDelete)
    else if msg.bucket != c.bucket then Some(AtMarkFailed(UNEXPECTED_BUCKET))
    else Some(AtMarkProcessing)
  }

  function LookingUp(c: Config, s: State, w: Pid): (t: State)
    requires w in s.tasks && s.tasks[w].body.Job?
    ensures QueueAtRest(s, t) && t.items == s.items
  {
    var at := AfterLookup(c, s.items, s.tasks[w].body.msg);
    if at.Some? then At(s, w, at.value) else s.(tasks := s.tasks - {w})
  }

  /** The condition of the conditional write. */
  predicate MayProcess(items: map<JobId, Item>, j: JobId) {
    j in items && items[j].status != COMPLETE
  }

  function MarkingProcessing(s: State, w: Pid, now: Time, done: bool): (t: State)
    requires w in s.tasks && s.tasks[w].body.Job?
    ensures QueueAtRest(s, t)
  {
    var j := s.tasks[w].body.msg.jobId;
    if MayProcess(s.items, j) then
      var s' := RecordSet(s, j, Processing(s.items[j], now));
      if done then At(s', w, AtDownload) else s'
    else if done then At(s, w, AtDelete) else s
  }

  function AfterUpload(r: Picture, n: nat): WorkAt {
    if n < |r.thumbs| then AtUpload(r, n) else AtMarkComplete(r)
  }

  function Downloading(s: State, w: Pid, r: Rendered): (t: State)
    requires w in s.tasks
    ensures QueueAtRest(s, t) && t.items == s.items
  {
    At(s, w, if r.Image? then AfterUpload(r, 0) else AtMarkFailed(r.reason))
  }

  function ThumbStored(c: Config, s: State, task: Task): State
    requires task.body.Job? && task.at.AtUpload? && task.at.count < |task.at.r.thumbs|
  {
    var t := task.at.r.thumbs[task.at.count];
    ObjectSet(s, Loc(c.bucket, Thumb(task.body.msg.jobId, t.size)), t.data)
  }

  function UploadingThumb(c: Config, s: State, w: Pid, done: bool): (t: State)
    requires w in s.tasks && s.tasks[w].body.Job? && s.tasks[w].at.AtUpload?
    requires s.tasks[w].at.count < |s.tasks[w].at.r.thumbs|
    ensures QueueAtRest(s, t) && t.items == s.items
  {
    var s' := ThumbStored(c, s, s.tasks[w]);
    if done then At(s', w, AfterUpload(s.tasks[w].at.r, s.tasks[w].at.count + 1)) else s'
  }

  /** `update_item` creates the item when the key is missing. */
  function ItemOr(items: map<JobId, Item>, j: JobId): Item {
    if j in items then items[j] else STUB
  }

  function MarkingComplete(s: State, w: Pid, now: Time, ms: nat, done: bool): (t: State)
    requires w in s.tasks && s.tasks[w].body.Job? && s.tasks[w].at.AtMarkComplete?
    ensures QueueAtRest(s, t)
  {
    var j := s.tasks[w].body.msg.jobId;
    var s' := RecordSet(s, j, Completed(ItemOr(s.items, j), j, s.tasks[w].at.r, ms, now));
    if done then At(s', w, AtDelete) else s'
  }

  function MarkingFailed(s: State, w: Pid, now: Time, done: bool): (t: State)
    requires w in s.tasks && s.tasks[w].body.Job? && s.tasks[w].at.AtMarkFailed?
    ensures QueueAtRest(s, t)
  {
    var j := s.tasks[w].body.msg.jobId;
    var s' := RecordSet(s, j, Failed(ItemOr(s.items, j), s.tasks[w].at.reason, now));
    if done then At(s', w, AtDelete) else s'
  }

  /** A delete with a stale receipt handle may succeed without removing the
      copy, hence `took`. */
  function Deleting(s: State, w: Pid, took: bool, done: bool): (t: State)
    requires w in s.tasks
    ensures t.items == s.items
  {
    s.(queue := if took then s.queue - {s.tasks[w].copy} else s.queue,
       tasks := if done then s.tasks - {w} else s.tasks)
  }

  ghost function WorkerApply(c: Config, s: State, e: Event): State
    requires WorkerEnabled(c, s, e)
  {
    match e
    case Receive(w, k) => Receiving(s, w, k)
    case Lookup(w) => LookingUp(c, s, w)
    case MarkProcessing(w, now, done) => MarkingProcessing(s, w, now, done)
    case Download(w, r) => Downloading(s, w, r)
    case UploadThumb(w, done) => UploadingThumb(c, s, w, done)
    case MarkComplete(w, now, ms, done) => MarkingComplete(s, w, now, ms, done)
    case MarkFailed(w, now, done) => MarkingFailed(s, w, now, done)
    case Delete(w, took, done) => Deleting(s, w, took, done)
    case WorkerStop(w) => s.(tasks := s.tasks - {w})
  }

  // -- the queue service ------------------------------------------------------

  ghost predicate QueueEnabled(c: Config, s: State, e: Event) {
    match e
    case ReceiveLost(k) => Receivable(c, s, k)
    case Expire(k) => k in s.queue && !s.queue[k].visible
    case Redrive(k) => k in s.queue && s.queue[k].visible && s.queue[k].receives >= c.maxReceives
    case Inject(k) => k !in s.issued
    case _ => false
  }

  function Expiring(s: State, k: CopyId): State
    requires k in s.queue
  {
    s.(queue := s.queue[k := s.queue[k].(visible := true)])
  }

  function Redriving(s: State, k: CopyId): State
    requires k in s.queue
  {
    s.(queue := s.queue - {k}, dlq := s.dlq[k := s.queue[k]])
  }

  /** A body nobody can parse, from outside the system. */
  function Injecting(s: State, k: CopyId): State {
    s.(queue := s.queue[k := Copy(Malformed, 0, true)], issued := s.issued + {k})
  }

  ghost function QueueApply(c: Config, s: State, e: Event): (t: State)
    requires QueueEnabled(c, s, e)
    ensures t.tasks == s.tasks && t.items == s.items && t.objects == s.objects
  {
    match e
    case ReceiveLost(k) => Received(s, k)
    case Expire(k) => Expiring(s, k)
    case Redrive(k) => Redriving(s, k)
    case Inject(k) => Injecting(s, k)
  }

  // -- runs -------------------------------------------------------------------

  ghost predicate Enabled(c: Config, s: State, e: Event) {
    ApiEnabled(c, s, e) || WorkerEnabled(c, s, e) || QueueEnabled(c, s, e)
  }

  ghost function Apply(c: Config, s: State, e: Event): (t: State)
    requires Enabled(c, s, e)
    ensures ApiEnabled(c, s, e) ==> t == ApiApply(c, s, e)
    ensures WorkerEnabled(c, s, e) ==> t == WorkerApply(c, s, e)
    ensures QueueEnabled(c, s, e) ==> t == QueueApply(c, s, e)
  {
    if ApiEnabled(c, s, e) then ApiApply(c, s, e)
    else if WorkerEnabled(c, s, e) then WorkerApply(c, s, e)
    else QueueApply(c, s, e)
  }

  /** The events `es` lead from `s` to `t`. */
  ghost predicate Path(c: Config, s: State, es: seq<Event>, t: State)
    decreases |es|
  {
    if es == [] then s == t
    else Enabled(c, s, es[0]) && Path(c, Apply(c, s, es[0]), es[1..], t)
  }

  ghost predicate Reachable(c: Config, s: State) {
    exists es :: Path(c, INIT, es, s)
  }

  /** Some run leads from `s` to `t`. */
  ghost predicate Leads(c: Config, s: State, t: State) {
    exists es :: Path(c, s, es, t)
  }

  lemma {:induction false} PathSnoc(c: Config, s: State, es: seq<Event>, t: State, e: Event)
    requires Path(c, s, es, t) && Enabled(c, t, e)
    ensures Path(c, s, es + [e], Apply(c, t, e))
    decreases |es|
  {
    if es == [] {
      assert ([e])[1..] == [];
    } else {
      assert (es + [e])[1..] == es[1..] + [e];
      PathSnoc(c, Apply(c, s, es[0]), es[1..], t, e);
    }
  }

  lemma {:induction false} PathConcat(c: Config, s: State, es: seq<Event>, t: State, fs: seq<Event>, u: State)
    requires Path(c, s, es, t) && Path(c, t, fs, u)
    ensures Path(c, s, es + fs, u)
    decreases |es|
  {
    if es == [] {
      assert es + fs == fs;
    } else {
      assert (es + fs)[0] == es[0] && (es + fs)[1..] == es[1..] + fs;
      PathConcat(c, Apply(c, s, es[0]), es[1..], t, fs, u);
    }
  }

  lemma ReachStep(c: Config, s: State, e: Event)
    requires Reachable(c, s) && Enabled(c, s, e)
    ensures Reachable(c, Apply(c, s, e))
  {
    var es :| Path(c, INIT, es, s);
    PathSnoc(c, INIT, es, s, e);
  }

  lemma ReachApiStep(c: Config, s: State, e: Event)
    requires Reachable(c, s) && ApiEnabled(c, s, e)
    ensures Reachable(c, ApiApply(c, s, e))
  {
    ReachStep(c, s, e);
  }

  lemma ReachWorkerStep(c: Config, s: State, e: Event)
    requires Reachable(c, s) && WorkerEnabled(c, s, e)
    ensures Reachable(c, WorkerApply(c, s, e))
  {
    ReachStep(c, s, e);
  }

  lemma ReachQueueStep(c: Config, s: State, e: Event)
    requires Reachable(c, s) && QueueEnabled(c, s, e)
    ensures Reachable(c, QueueApply(c, s, e))
  {
    ReachStep(c, s, e);
  }

  lemma ReachLead(c: Config, s: State, t: State)
    requires Reachable(c, s) && Leads(c, s, t)
    ensures Reachable(c, t)
  {
    var es :| Path(c, INIT, es, s);
    var fs :| Path(c, s, fs, t);
    PathConcat(c, INIT, es, s, fs, t);
  }

  lemma LeadsBy(c: Config, s: State, e: Event)
    requires Enabled(c, s, e)
    ensures Leads(c, s, Apply(c, s, e))
  {
    assert [e][1..] == [];
    assert Path(c, s, [e], Apply(c, s, e));
  }

  lemma LeadsByWorker(c: Config, s: State, e: Event)
    requires WorkerEnabled(c, s, e)
    ensures Leads(c, s, WorkerApply(c, s, e))
  {
    LeadsBy(c, s, e);
  }

  lemma LeadsOn(c: Config, s: State, t: State, u: State)
    requires Leads(c, s, t) && Leads(c, t, u)
    ensures Leads(c, s, u)
  {
    var es :| Path(c, s, es, t);
    var fs :| Path(c, t, fs, u);
    PathConcat(c, s, es, t, fs, u);
  }
}
