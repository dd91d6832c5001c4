/** The system as a client sees it: a job is accepted with a verdict already
    fixed, and at some later instant the verdict becomes visible, once. Every
    step of the protocol is one of these two or invisible. */
module AtomicSpec {
  import opened Wrappers
  import opened Domain
  import opened Protocol
  import opened Invariant
  import opened Guarantees

  datatype SpecJob = SpecJob(verdict: Verdict, seen: Option<Verdict>)

  type Spec = map<JobId, SpecJob>

  ghost predicate Accepts(a: Spec, b: Spec, j: JobId) {
    && j !in a && j in b && b[j].seen.None?
    && b == a[j := b[j]]
  }

  ghost predicate Decides(a: Spec, b: Spec, j: JobId) {
    && j in a && a[j].seen.None?
    && b == a[j := SpecJob(a[j].verdict, Some(a[j].verdict))]
  }

  ghost predicate SpecStep(a: Spec, b: Spec) {
    a == b || (exists j :: Accepts(a, b, j)) || (exists j :: Decides(a, b, j))
  }

  /** What a record tells a client who reads it. */
  ghost function Seen(item: Item): Option<Verdict> {
    match (item.outputs, item.exif, item.width, item.height, item.format)
    case (Some(o), Some(x), Some(w), Some(h), Some(f)) =>
      if item.status == COMPLETE then Some(Success(o, x, w, h, f))
      else if item.error.Some? then Some(Failure) else None
    case _ => if item.error.Some? then Some(Failure) else None
  }

  /** The client's view of a state. */
  ghost function Abs(c: Config, s: State): Spec {
    map j | j in s.sent && j in s.items && j in s.uploads :: SpecJob(VerdictOf(c, s.uploads[j]), Seen(s.items[j]))
  }

  lemma SeenIsVerdict(c: Config, s: State, j: JobId)
    requires Inv(c, s) && Deterministic(c) && j in s.sent
    ensures j in s.items && j in s.uploads
    ensures Seen(s.items[j]).Some? <==> Decided(s.items[j])
    ensures Seen(s.items[j]).Some? ==> Seen(s.items[j]).value == VerdictOf(c, s.uploads[j])
  {
    assert ItemOk(c, s, j);
    var item, up := s.items[j], s.uploads[j];
    if item.status == COMPLETE {
      var r :| CompletedFrom(c, s.objects, up, item, r);
      PictureVerdict(c, up, r);
    } else if item.error.Some? {
      FailureVerdict(c, up);
    }
  }

  /** The one job whose record a worker event may write. */
  ghost function Subject(s: State, e: Event): JobId {
    match e
    case MarkProcessing(w, _, _) => if Holds(s, w) then s.tasks[w].body.msg.jobId else ""
    case MarkComplete(w, _, _, _) => if Holds(s, w) then s.tasks[w].body.msg.jobId else ""
    case MarkFailed(w, _, _) => if Holds(s, w) then s.tasks[w].body.msg.jobId else ""
    case _ => ""
  }

  lemma OthersRest(c: Config, s: State, e: Event, j: JobId)
    requires Inv(c, s) && Enabled(c, s, e) && j in s.sent && j != Subject(s, e)
    ensures j in s.items && j in Apply(c, s, e).items && Apply(c, s, e).items[j] == s.items[j]
  {
    SentRecordStep(c, s, e, j);
  }

  lemma SentOnlyBySend(c: Config, s: State, e: Event)
    requires Enabled(c, s, e)
    ensures if e.Send? then Apply(c, s, e).sent == s.sent + {s.calls[e.p].up.jobId} else Apply(c, s, e).sent == s.sent
  {
  }

  lemma UnsentIsUnseen(c: Config, s: State, p: Pid)
    requires CallsOk(c, s) && p in s.calls && s.calls[p].at == AtSend
    ensures
      var j := s.calls[p].up.jobId;
      j !in s.sent && j in s.uploads && j in s.items && Seen(s.items[j]).None?
  {
    assert CallOk(c, s, s.calls[p]);
  }

  lemma AbsGains(c: Config, s: State, t: State, j: JobId)
    requires j !in s.sent && t.sent == s.sent + {j} && t.items == s.items && t.uploads == s.uploads
    requires j in s.items && j in s.uploads && Seen(s.items[j]).None?
    ensures Accepts(Abs(c, s), Abs(c, t), j)
  {
    assert Abs(c, t) == Abs(c, s)[j := Abs(c, t)[j]];
  }

  lemma SendAccepts(c: Config, s: State, e: Event)
    requires CallsOk(c, s) && ApiEnabled(c, s, e) && e.Send?
    ensures Accepts(Abs(c, s), Abs(c, ApiApply(c, s, e)), s.calls[e.p].up.jobId)
  {
    UnsentIsUnseen(c, s, e.p);
    AbsGains(c, s, ApiApply(c, s, e), s.calls[e.p].up.jobId);
  }

  lemma AbsAt(c: Config, s: State)
    requires Inv(c, s)
    ensures Abs(c, s).Keys == s.sent
  {
    assert forall j :: j in s.sent ==> j in s.items && ItemOk(c, s, j);
  }

  /** What a client sees of job `j` over one step that may write job `x`. */
  ghost predicate JobMoves(a: Spec, b: Spec, j: JobId, x: JobId) {
    && j in a && j in b && b[j].verdict == a[j].verdict
    && (a[j].seen.Some? ==> a[j].seen == Some(a[j].verdict) && b[j].seen.Some?)
    && (b[j].seen.Some? ==> b[j].seen == Some(a[j].verdict))
    && (j != x ==> b[j] == a[j])
  }

  lemma JobStep(c: Config, s: State, e: Event, j: JobId)
    requires Inv(c, s) && Enabled(c, s, e) && Inv(c, Apply(c, s, e)) && Grows(c, s, Apply(c, s, e))
    requires Deterministic(c) && j in s.sent
    ensures JobMoves(Abs(c, s), Abs(c, Apply(c, s, e)), j, Subject(s, e))
  {
    var t := Apply(c, s, e);
    SeenIsVerdict(c, s, j);
    SeenIsVerdict(c, t, j);
    assert t.uploads[j] == s.uploads[j] && RecordGrows(s.items[j], t.items[j]);
    if j != Subject(s, e) {
      assert t.items[j] == s.items[j] by { OthersRest(c, s, e, j); }
    }
  }

  lemma OneJobMoves(a: Spec, b: Spec, x: JobId)
    requires a.Keys == b.Keys && forall j :: j in a ==> JobMoves(a, b, j, x)
    ensures SpecStep(a, b)
  {
    if x in a && a[x] != b[x] {
      assert forall j :: j in a && j != x ==> b[j] == a[j];
      assert Decides(a, b, x);
    } else {
      assert a == b;
    }
  }

  /** A step that sends nothing is invisible or decides its one job. */
  lemma OtherRefines(c: Config, s: State, e: Event)
    requires Inv(c, s) && Enabled(c, s, e) && Deterministic(c) && !e.Send?
    requires Inv(c, Apply(c, s, e)) && Grows(c, s, Apply(c, s, e))
    ensures SpecStep(Abs(c, s), Abs(c, Apply(c, s, e)))
  {
    SentOnlyBySend(c, s, e);
    AbsAt(c, s);
    AbsAt(c, Apply(c, s, e));
    forall j | j in Abs(c, s) ensures JobMoves(Abs(c, s), Abs(c, Apply(c, s, e)), j, Subject(s, e)) {
      JobStep(c, s, e, j);
    }
    OneJobMoves(Abs(c, s), Abs(c, Apply(c, s, e)), Subject(s, e));
  }

  /** Every step of the protocol refines a step of the atomic specification. */
  lemma StepRefines(c: Config, s: State, e: Event)
    requires Inv(c, s) && Enabled(c, s, e) && Deterministic(c)
    ensures SpecStep(Abs(c, s), Abs(c, Apply(c, s, e)))
  {
    if e.Send? {
      SendAccepts(c, s, e);
    } else {
      StepKeeps(c, s, e);
      OtherRefines(c, s, e);
    }
  }

  ghost predicate SpecRun(bs: seq<Spec>) {
    forall i :: 0 <= i < |bs| - 1 ==> SpecStep(bs[i], bs[i + 1])
  }

  lemma SpecRunCons(a: Spec, rest: seq<Spec>)
    requires rest != [] && SpecStep(a, rest[0]) && SpecRun(rest)
    ensures SpecRun([a] + rest) && ([a] + rest)[|rest|] == rest[|rest| - 1] && ([a] + rest)[0] == a
  {
    var bs := [a] + rest;
    forall i | 0 <= i < |bs| - 1 ensures SpecStep(bs[i], bs[i + 1]) {
      if i > 0 { assert SpecStep(rest[i - 1], rest[i]); }
    }
  }

  /** Every run, seen by clients, is a run of the atomic specification. */
  lemma {:induction false} RunRefines(c: Config, s: State, es: seq<Event>, t: State) returns (bs: seq<Spec>)
    requires Inv(c, s) && Path(c, s, es, t) && Deterministic(c)
    ensures |bs| == |es| + 1 && bs[0] == Abs(c, s) && bs[|es|] == Abs(c, t) && SpecRun(bs)
    decreases |es|
  {
    if es == [] {
      bs := [Abs(c, s)];
    } else {
      var u := Apply(c, s, es[0]);
      StepKeeps(c, s, es[0]);
      StepRefines(c, s, es[0]);
      var rest := RunRefines(c, u, es[1..], t);
      bs := [Abs(c, s)] + rest;
      SpecRunCons(Abs(c, s), rest);
    }
  }

  /** A run from the empty system starts from no jobs at all, and decided jobs
      of a reachable state show their verdict. */
  lemma ReachableRefines(c: Config, s: State) returns (bs: seq<Spec>)
    requires Reachable(c, s) && Deterministic(c)
    ensures |bs| > 0 && bs[0] == map[] && bs[|bs| - 1] == Abs(c, s) && SpecRun(bs)
    ensures forall j :: j in s.sent ==> j in Abs(c, s) && Abs(c, s)[j].seen in {None, Some(Abs(c, s)[j].verdict)}
  {
    ReachableKeeps(c, s);
    var es :| Path(c, INIT, es, s);
    assert Inv(c, INIT) && Abs(c, INIT) == map[];
    bs := RunRefines(c, INIT, es, s);
    AbsAt(c, s);
    forall j | j in s.sent ensures Abs(c, s)[j].seen in {None, Some(Abs(c, s)[j].verdict)} {
      SeenIsVerdict(c, s, j);
    }
  }

  lemma RenderedNeverFails(c: Config, s: State, j: JobId)
    requires Inv(c, s) && Deterministic(c) && j in s.items && s.items[j].status == COMPLETE
    ensures j in s.sent && j in s.uploads && !CanBeUndecodable(c, s.uploads[j].data)
  {
    assert ItemOk(c, s, j);
    var r :| CompletedFrom(c, s.objects, s.uploads[j], s.items[j], r);
  }

  /** COMPLETE is absorbing: in every continuation the job stays COMPLETE and
      shows the same outputs, metadata and dimensions. */
  lemma CompleteIsAbsorbing(c: Config, s: State, es: seq<Event>, t: State, j: JobId)
    requires Reachable(c, s) && Path(c, s, es, t) && Deterministic(c)
    requires j in s.items && s.items[j].status == COMPLETE
    ensures j in t.items && t.items[j].status == COMPLETE && Seen(t.items[j]) == Seen(s.items[j])
  {
    ReachableKeeps(c, s);
    RenderedNeverFails(c, s, j);
    PathKeeps(c, s, es, t);
    CompleteIsFinal(c, s, es, t, j);
    SeenIsVerdict(c, s, j);
    SeenIsVerdict(c, t, j);
  }
}
