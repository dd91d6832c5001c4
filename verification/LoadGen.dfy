/** The load generator: N scheduled uploads and one sentinel per thread wait in
    a FIFO queue, and any number of threads consume it in any interleaving. */
module LoadGen {

  datatype Entry = Upload(slot: nat) | Sentinel

  /** A thread waits for an entry, holds one, has returned, or was killed by an
      exception it does not catch, before or after it counted its upload. */
  datatype Thread = Waiting | Holding(slot: nat) | Returned | Killed(counted: bool)

  /** How one upload ends: a response, a transport error, any other exception, or a
      response that is counted and an exception in handing the job to the pollers. */
  datatype Reply = Response(status: string) | TransportError(name: string) | OtherException | Unfollowed(status: string)

  datatype State = State(entries: seq<Entry>, threads: seq<Thread>,
                         statuses: multiset<string>, errors: multiset<string>)

  datatype Event = Get(thread: nat) | Post(thread: nat, reply: Reply)

  predicate Enabled(s: State, e: Event) {
    && e.thread < |s.threads|
    && match e
       case Get(i) => s.threads[i].Waiting? && s.entries != []
       case Post(i, _) => s.threads[i].Holding?
  }

  function Step(s: State, e: Event): State
    requires Enabled(s, e)
  {
    match e
    case Get(i) =>
      s.(entries := s.entries[1..],
         threads := s.threads[i := if s.entries[0].Sentinel? then Returned else Holding(s.entries[0].slot)])
    case Post(i, Response(status)) => s.(threads := s.threads[i := Waiting], statuses := s.statuses + multiset{status})
    case Post(i, TransportError(name)) => s.(threads := s.threads[i := Waiting], errors := s.errors + multiset{name})
    case Post(i, OtherException) => s.(threads := s.threads[i := Killed(false)])
    case Post(i, Unfollowed(status)) =>
      s.(threads := s.threads[i := Killed(true)], statuses := s.statuses + multiset{status})
  }

  ghost predicate Path(s: State, es: seq<Event>, t: State)
    decreases |es|
  {
    if es == [] then s == t else Enabled(s, es[0]) && Path(Step(s, es[0]), es[1..], t)
  }

  lemma {:induction false} PathSnoc(s: State, es: seq<Event>, t: State, e: Event)
    requires Path(s, es, t) && Enabled(t, e)
    ensures Path(s, es + [e], Step(t, e))
    decreases |es|
  {
    if es == [] {
      assert [e][1..] == [];
    } else {
      assert (es + [e])[1..] == es[1..] + [e];
      PathSnoc(Step(s, es[0]), es[1..], t, e);
    }
  }

  // -- the plan --------------------------------------------------------------------

  function Uploads(n: nat): (q: seq<Entry>)
    ensures |q| == n && forall i :: 0 <= i < n ==> q[i] == Upload(i)
  {
    seq(n, i requires 0 <= i < n => Upload(i))
  }

  function Sentinels(c: nat): (q: seq<Entry>)
    ensures |q| == c && forall i :: 0 <= i < c ==> q[i] == Sentinel
  {
    seq(c, i => Sentinel)
  }

  function Start(n: nat, c: nat): State {
    State(Uploads(n) + Sentinels(c), seq(c, i => Waiting), multiset{}, multiset{})
  }

  /** Entries taken so far, and uploads counted so far. */
  function Taken(n: nat, c: nat, s: State): int {
    n + c - |s.entries|
  }

  function TotalRequests(s: State): nat {
    |s.statuses| + |s.errors|
  }

  // -- counting threads ---------------------------------------------------------------

  datatype Kind = IS_WAITING | IS_HOLDING | IS_RETURNED | IS_LOST | IS_CUT

  function KindOf(t: Thread): Kind {
    match t
    case Waiting => IS_WAITING
    case Holding(_) => IS_HOLDING
    case Returned => IS_RETURNED
    case Killed(counted) => if counted then IS_CUT else IS_LOST
  }

  function Count(ts: seq<Thread>, k: Kind): nat {
    if ts == [] then 0 else (if KindOf(ts[0]) == k then 1 else 0) + Count(ts[1..], k)
  }

  /** Threads an exception has ended. */
  function Deaths(ts: seq<Thread>): nat {
    Count(ts, IS_LOST) + Count(ts, IS_CUT)
  }

  lemma {:induction false} CountUpdate(ts: seq<Thread>, i: nat, t: Thread, k: Kind)
    requires i < |ts|
    ensures Count(ts[i := t], k) + (if KindOf(ts[i]) == k then 1 else 0)
         == Count(ts, k) + (if KindOf(t) == k then 1 else 0)
  {
    var us := ts[i := t];
    if i == 0 {
      assert us[1..] == ts[1..];
    } else {
      assert us[1..] == ts[1..][i - 1 := t];
      CountUpdate(ts[1..], i - 1, t, k);
    }
  }

  lemma {:induction false} CountAll(ts: seq<Thread>)
    ensures Count(ts, IS_WAITING) + Count(ts, IS_HOLDING) + Count(ts, IS_RETURNED) + Deaths(ts) == |ts|
  {
    if ts != [] { CountAll(ts[1..]); }
  }

  lemma {:induction false} CountFresh(c: nat)
    ensures Count(seq(c, i => Waiting), IS_WAITING) == c
  {
    var ts := seq(c, i => Waiting);
    if c > 0 {
      assert ts[1..] == seq(c - 1, i => Waiting);
      CountFresh(c - 1);
    }
  }

  lemma {:induction false} CountZeroIff(ts: seq<Thread>, k: Kind)
    ensures Count(ts, k) == 0 <==> forall i :: 0 <= i < |ts| ==> KindOf(ts[i]) != k
  {
    if ts != [] {
      CountZeroIff(ts[1..], k);
      assert forall i :: 1 <= i < |ts| ==> ts[i] == ts[1..][i - 1];
      assert forall i :: 0 <= i < |ts[1..]| ==> ts[1..][i] == ts[i + 1];
    }
  }

  // -- the invariant -----------------------------------------------------------------

  /** The queue is what is left of the plan; every upload taken is held, counted
      or died with its thread; every sentinel taken ended one thread. */
  ghost predicate Inv(n: nat, c: nat, s: State) {
    var taken := Taken(n, c, s);
    && 0 <= taken && |s.threads| == c
    && s.entries == (Uploads(n) + Sentinels(c))[taken..]
    && Count(s.threads, IS_RETURNED) == (if taken <= n then 0 else taken - n)
    && Count(s.threads, IS_HOLDING) + Count(s.threads, IS_LOST) + TotalRequests(s)
       == (if taken <= n then taken else n)
  }

  lemma StartInv(n: nat, c: nat)
    ensures Inv(n, c, Start(n, c))
  {
    CountAll(Start(n, c).threads);
    CountFresh(c);
  }

  lemma StepInv(n: nat, c: nat, s: State, e: Event)
    requires Inv(n, c, s) && Enabled(s, e)
    ensures Inv(n, c, Step(s, e))
  {
    if e.Get? { GetInv(n, c, s, e.thread); } else { PostInv(n, c, s, e.thread, e.reply); }
  }

  lemma GetInv(n: nat, c: nat, s: State, i: nat)
    requires Inv(n, c, s) && Enabled(s, Get(i))
    ensures Inv(n, c, Step(s, Get(i)))
  {
    var t, taken := Step(s, Get(i)), Taken(n, c, s);
    HeadOfPlan(n, c, taken);
    CountUpdate(s.threads, i, t.threads[i], IS_HOLDING);
    CountUpdate(s.threads, i, t.threads[i], IS_RETURNED);
    CountUpdate(s.threads, i, t.threads[i], IS_LOST);
  }

  lemma HeadOfPlan(n: nat, c: nat, taken: nat)
    requires taken < n + c
    ensures var plan := Uploads(n) + Sentinels(c);
      && plan[taken..][0] == (if taken < n then Upload(taken) else Sentinel)
      && plan[taken..][1..] == plan[taken + 1..]
  {
  }

  lemma PostInv(n: nat, c: nat, s: State, i: nat, reply: Reply)
    requires Inv(n, c, s) && Enabled(s, Post(i, reply))
    ensures Inv(n, c, Step(s, Post(i, reply)))
  {
    var t := Step(s, Post(i, reply));
    CountUpdate(s.threads, i, t.threads[i], IS_HOLDING);
    CountUpdate(s.threads, i, t.threads[i], IS_RETURNED);
    CountUpdate(s.threads, i, t.threads[i], IS_LOST);
  }

  lemma {:induction false} PathInv(n: nat, c: nat, s: State, es: seq<Event>, t: State)
    requires Inv(n, c, s) && Path(s, es, t)
    ensures Inv(n, c, t)
    decreases |es|
  {
    if es != [] {
      StepInv(n, c, s, es[0]);
      PathInv(n, c, Step(s, es[0]), es[1..], t);
    }
  }

  ghost predicate Reaches(n: nat, c: nat, es: seq<Event>, s: State) {
    Path(Start(n, c), es, s)
  }

  predicate Ended(t: Thread) {
    t.Returned? || t.Killed?
  }

  /** No upload was lost to an exception its thread does not catch. */
  ghost predicate NoOther(es: seq<Event>) {
    forall e :: e in es ==> !(e.Post? && e.reply.OtherException?)
  }

  predicate Kills(r: Reply) {
    r.OtherException? || r.Unfollowed?
  }

  ghost predicate NoKilling(es: seq<Event>) {
    forall e :: e in es ==> !(e.Post? && Kills(e.reply))
  }

  // -- what holds in every interleaving ------------------------------------------------

  /** No thread takes a sentinel before all uploads were taken, and each sentinel
      taken ended one thread. */
  lemma SentinelsComeLast(n: nat, c: nat, es: seq<Event>, s: State, e: Event)
    requires Reaches(n, c, es, s) && Enabled(s, e) && Step(s, e).threads[e.thread].Returned?
    ensures e.Get? && s.entries[0] == Sentinel && Taken(n, c, s) >= n
    ensures Count(Step(s, e).threads, IS_RETURNED) == Taken(n, c, s) + 1 - n
  {
    ReachesInv(n, c, es, s);
    StepInv(n, c, s, e);
    if e.Get? { HeadOfPlan(n, c, Taken(n, c, s)); }
  }

  /** A thread that has not ended always has a next step: it never waits on an
      empty queue. */
  lemma NeverStuck(n: nat, c: nat, es: seq<Event>, s: State, i: nat)
    requires Reaches(n, c, es, s) && i < |s.threads| && !Ended(s.threads[i])
    ensures s.threads[i].Waiting? ==> Enabled(s, Get(i))
    ensures s.threads[i].Holding? ==> forall reply :: Enabled(s, Post(i, reply))
  {
    ReachesInv(n, c, es, s);
    if s.threads[i].Waiting? {
      CountAll(s.threads);
      CountZeroIff(s.threads, IS_WAITING);
      assert KindOf(s.threads[i]) == IS_WAITING;
    }
  }

  /** Entries to take count twice, uploads in hand once. */
  function Left(s: State): nat {
    2 * |s.entries| + Count(s.threads, IS_HOLDING)
  }

  lemma LeftShrinks(s: State, e: Event)
    requires Enabled(s, e)
    ensures Left(Step(s, e)) < Left(s)
  {
    CountUpdate(s.threads, e.thread, Step(s, e).threads[e.thread], IS_HOLDING);
  }

  /** So no run takes more than two steps per entry. */
  lemma {:induction false} RunsAreShort(s: State, es: seq<Event>, t: State)
    requires Path(s, es, t)
    ensures |es| + Left(t) <= Left(s)
    decreases |es|
  {
    if es != [] {
      LeftShrinks(s, es[0]);
      RunsAreShort(Step(s, es[0]), es[1..], t);
    }
  }

  ghost predicate Joined(s: State) {
    forall i :: 0 <= i < |s.threads| ==> Ended(s.threads[i])
  }

  /** The numbers behind a join. */
  lemma JoinCounts(n: nat, c: nat, s: State)
    requires Inv(n, c, s) && Joined(s)
    ensures Count(s.threads, IS_HOLDING) == 0 && Count(s.threads, IS_RETURNED) + Deaths(s.threads) == c
  {
    CountAll(s.threads);
    CountZeroIff(s.threads, IS_WAITING);
    CountZeroIff(s.threads, IS_HOLDING);
  }

  lemma ReachesInv(n: nat, c: nat, es: seq<Event>, s: State)
    requires Reaches(n, c, es, s)
    ensures Inv(n, c, s)
  {
    StartInv(n, c);
    PathInv(n, c, Start(n, c), es, s);
  }

  /** At join, each thread either took exactly one sentinel or was killed; as long
      as one was not killed, every upload is counted but those lost with their
      thread. */
  lemma AtJoin(n: nat, c: nat, es: seq<Event>, s: State)
    requires Reaches(n, c, es, s) && Joined(s)
    ensures
      var killed, lost := Deaths(s.threads), Count(s.threads, IS_LOST);
      && Count(s.threads, IS_RETURNED) + killed == c
      && TotalRequests(s) + lost <= n
      && (killed < c ==> TotalRequests(s) == n - lost && Taken(n, c, s) == n + c - killed)
  {
    ReachesInv(n, c, es, s);
    JoinCounts(n, c, s);
  }

  /** The report adds up to the uploads scheduled exactly if every upload was taken
      off the queue and no exception other than a transport error escaped one
      before it was counted. */
  lemma ReportAddsUpIff(n: nat, c: nat, es: seq<Event>, s: State)
    requires Reaches(n, c, es, s) && Joined(s)
    ensures TotalRequests(s) == n <==> NoOther(es) && Taken(n, c, s) >= n
  {
    ReachesInv(n, c, es, s);
    JoinCounts(n, c, s);
    LostIff(Start(n, c), es, s);
    NoneLostAtStart(n, c);
  }

  /** Every upload is taken off the queue if one thread was not killed; so with no
      exceptions at all the report adds up. */
  lemma ReportAddsUp(n: nat, c: nat, es: seq<Event>, s: State)
    requires c >= 1 && Reaches(n, c, es, s) && Joined(s) && NoKilling(es)
    ensures TotalRequests(s) == n
  {
    AtJoin(n, c, es, s);
    NobodyKilled(Start(n, c), es, s);
    NoneLostAtStart(n, c);
  }

  lemma NoneLostAtStart(n: nat, c: nat)
    ensures Deaths(Start(n, c).threads) == 0
  {
    CountAll(Start(n, c).threads);
    CountFresh(c);
  }

  /** Each upload lost with its thread is an uncaught exception. */
  lemma {:induction false} LostIff(s: State, es: seq<Event>, t: State)
    requires Path(s, es, t)
    ensures Count(t.threads, IS_LOST) >= Count(s.threads, IS_LOST)
    ensures Count(t.threads, IS_LOST) == Count(s.threads, IS_LOST) <==> NoOther(es)
    decreases |es|
  {
    if es != [] {
      var u := Step(s, es[0]);
      CountUpdate(s.threads, es[0].thread, u.threads[es[0].thread], IS_LOST);
      LostIff(u, es[1..], t);
      assert forall e :: e in es <==> e == es[0] || e in es[1..];
    }
  }

  lemma {:induction false} NobodyKilled(s: State, es: seq<Event>, t: State)
    requires Path(s, es, t) && NoKilling(es)
    ensures Deaths(t.threads) == Deaths(s.threads)
    decreases |es|
  {
    if es != [] {
      var u := Step(s, es[0]);
      CountUpdate(s.threads, es[0].thread, u.threads[es[0].thread], IS_LOST);
      CountUpdate(s.threads, es[0].thread, u.threads[es[0].thread], IS_CUT);
      assert es[0] in es && forall e :: e in es[1..] ==> e in es;
      NobodyKilled(u, es[1..], t);
    }
  }

  // -- one run -------------------------------------------------------------------------

  /** The measurements of a run, shared by its threads. */
  class Results {
    var statusCounts: multiset<string>
    var errors: multiset<string>

    constructor ()
      ensures statusCounts == multiset{} && errors == multiset{}
    {
      statusCounts, errors := multiset{}, multiset{};
    }

    function TotalRequests(): nat
      reads this
    {
      |statusCounts| + |errors|
    }
  }

  /** The queue and its threads. */
  class Load {
    const results: Results
    var entries: seq<Entry>
    var threads: seq<Thread>

    function Now(): State
      reads this, results
    {
      State(entries, threads, results.statusCounts, results.errors)
    }

    /** Every send time first, then one sentinel per thread. */
    constructor (total: nat, concurrency: nat)
      ensures fresh(results) && Now() == Start(total, concurrency)
    {
      results := new Results();
      entries := [];
      threads := seq(concurrency, i => Waiting);
      new;
      for index := 0 to total
        invariant entries == Uploads(index) && threads == seq(concurrency, i => Waiting)
        invariant fresh(results) && results.statusCounts == multiset{} && results.errors == multiset{}
      {
        entries := entries + [Upload(index)];
      }
      for index := 0 to concurrency
        invariant entries == Uploads(total) + Sentinels(index) && threads == seq(concurrency, i => Waiting)
        invariant fresh(results) && results.statusCounts == multiset{} && results.errors == multiset{}
      {
        entries := entries + [Sentinel];
      }
    }

    /** One turn of a thread: take an entry, or end the upload in hand. */
    method Turn(i: nat, replies: nat -> Reply) returns (ghost e: Event)
      requires i < |threads| && !Ended(threads[i]) && (threads[i].Waiting? ==> entries != [])
      modifies this, results
      ensures e == if old(threads[i]).Waiting? then Get(i) else Post(i, replies(old(threads[i]).slot))
      ensures Enabled(old(Now()), e) && Now() == Step(old(Now()), e)
      ensures old(threads[i]).Waiting? ==>
        && entries == old(entries)[1..]
        && results.statusCounts == old(results.statusCounts) && results.errors == old(results.errors)
        && threads == old(threads)[i := match old(entries)[0] case Upload(k) => Holding(k) case Sentinel => Returned]
    {
      if threads[i].Waiting? {
        e := Get(i);
        threads := threads[i := if entries[0].Sentinel? then Returned else Holding(entries[0].slot)];
        entries := entries[1..];
      } else {
        var reply := replies(threads[i].slot);
        e := Post(i, reply);
        match reply {
          case Response(status) =>
            results.statusCounts := results.statusCounts + multiset{status};
            threads := threads[i := Waiting];
          case TransportError(name) =>
            results.errors := results.errors + multiset{name};
            threads := threads[i := Waiting];
          case OtherException =>
            threads := threads[i := Killed(false)];
          case Unfollowed(status) =>
            results.statusCounts := results.statusCounts + multiset{status};
            threads := threads[i := Killed(true)];
        }
      }
    }
  }

  /** Every upload in hand is one of the `n` scheduled. */
  ghost predicate SlotsOk(n: nat, s: State) {
    forall i :: 0 <= i < |s.threads| && s.threads[i].Holding? ==> s.threads[i].slot < n
  }

  lemma StepSlots(n: nat, c: nat, s: State, e: Event)
    requires Inv(n, c, s) && Enabled(s, e) && SlotsOk(n, s)
    ensures SlotsOk(n, Step(s, e))
  {
    if e.Get? {
      assert s.entries[0] == (Uploads(n) + Sentinels(c))[Taken(n, c, s)];
    }
  }

  /** A line of the report: how many uploads got one status, or ended in one error. */
  datatype Line = OfStatus(status: string) | OfError(name: string)

  function LineOf(s: State, line: Line): nat {
    match line
    case OfStatus(status) => s.statuses[status]
    case OfError(name) => s.errors[name]
  }

  predicate Fits(line: Line, reply: Reply) {
    match line
    case OfStatus(status) => reply in {Response(status), Unfollowed(status)}
    case OfError(name) => reply == TransportError(name)
  }

  /** How many of the first `n` uploads end as the line says. */
  function Fitting(n: nat, replies: nat -> Reply, line: Line): nat {
    if n == 0 then 0 else Fitting(n - 1, replies, line) + if Fits(line, replies(n - 1)) then 1 else 0
  }

  predicate HoldsFitting(t: Thread, replies: nat -> Reply, line: Line) {
    t.Holding? && Fits(line, replies(t.slot))
  }

  function HeldFitting(ts: seq<Thread>, replies: nat -> Reply, line: Line): nat {
    if ts == [] then 0
    else (if HoldsFitting(ts[0], replies, line) then 1 else 0) + HeldFitting(ts[1..], replies, line)
  }

  lemma {:induction false} HeldUpdate(ts: seq<Thread>, i: nat, t: Thread, replies: nat -> Reply, line: Line)
    requires i < |ts|
    ensures HeldFitting(ts[i := t], replies, line) + (if HoldsFitting(ts[i], replies, line) then 1 else 0)
         == HeldFitting(ts, replies, line) + (if HoldsFitting(t, replies, line) then 1 else 0)
  {
    var us := ts[i := t];
    if i == 0 {
      assert us[1..] == ts[1..];
    } else {
      assert us[1..] == ts[1..][i - 1 := t];
      HeldUpdate(ts[1..], i - 1, t, replies, line);
    }
  }

  lemma {:induction false} HeldNone(ts: seq<Thread>, replies: nat -> Reply, line: Line)
    requires forall i :: 0 <= i < |ts| ==> !ts[i].Holding?
    ensures HeldFitting(ts, replies, line) == 0
  {
    if ts != [] { HeldNone(ts[1..], replies, line); }
  }

  /** The line has every upload taken off the queue that ends as it says, but those
      still in hand. */
  ghost predicate Tallied(n: nat, c: nat, replies: nat -> Reply, s: State, line: Line) {
    var taken := Taken(n, c, s);
    taken >= 0 && LineOf(s, line) + HeldFitting(s.threads, replies, line)
               == Fitting(if taken <= n then taken else n, replies, line)
  }

  lemma GetTallies(n: nat, c: nat, replies: nat -> Reply, s: State, i: nat, line: Line)
    requires Inv(n, c, s) && Enabled(s, Get(i)) && Tallied(n, c, replies, s, line)
    ensures Tallied(n, c, replies, Step(s, Get(i)), line)
  {
    HeadOfPlan(n, c, Taken(n, c, s));
    HeldUpdate(s.threads, i, Step(s, Get(i)).threads[i], replies, line);
  }

  lemma PostTallies(n: nat, c: nat, replies: nat -> Reply, s: State, i: nat, line: Line)
    requires i < |s.threads| && s.threads[i].Holding? && Tallied(n, c, replies, s, line)
    ensures Tallied(n, c, replies, Step(s, Post(i, replies(s.threads[i].slot))), line)
  {
    var t := Step(s, Post(i, replies(s.threads[i].slot)));
    HeldUpdate(s.threads, i, t.threads[i], replies, line);
  }

  lemma TurnTallies(n: nat, c: nat, replies: nat -> Reply, s: State, e: Event, line: Line)
    requires Inv(n, c, s) && Enabled(s, e) && Tallied(n, c, replies, s, line)
    requires e.Post? ==> e.reply == replies(s.threads[e.thread].slot)
    ensures Tallied(n, c, replies, Step(s, e), line)
  {
    if e.Get? {
      GetTallies(n, c, replies, s, e.thread, line);
    } else {
      PostTallies(n, c, replies, s, e.thread, line);
    }
  }

  /** What the lines say once the threads have ended. */
  ghost predicate Reported(n: nat, c: nat, replies: nat -> Reply, s: State) {
    var taken := Taken(n, c, s);
    taken >= 0 && forall line :: LineOf(s, line) == Fitting(if taken <= n then taken else n, replies, line)
  }

  lemma AllReported(n: nat, c: nat, replies: nat -> Reply, s: State)
    requires Inv(n, c, s) && Joined(s) && forall line :: Tallied(n, c, replies, s, line)
    ensures Reported(n, c, replies, s)
  {
    var taken := Taken(n, c, s);
    forall line ensures LineOf(s, line) == Fitting(if taken <= n then taken else n, replies, line) {
      assert Tallied(n, c, replies, s, line);
      HeldNone(s.threads, replies, line);
    }
  }

  /** A run so far, in which the uploads end as `replies` says. */
  ghost predicate Underway(n: nat, c: nat, replies: nat -> Reply, es: seq<Event>, s: State) {
    && Reaches(n, c, es, s) && Inv(n, c, s) && SlotsOk(n, s)
    && (Harmless(n, replies) ==> NoKilling(es))
    && forall line :: Tallied(n, c, replies, s, line)
  }

  ghost predicate Harmless(n: nat, replies: nat -> Reply) {
    forall k :: 0 <= k < n ==> !Kills(replies(k))
  }

  lemma TurnKeeps(n: nat, c: nat, replies: nat -> Reply, es: seq<Event>, s: State, e: Event)
    requires Underway(n, c, replies, es, s) && Enabled(s, e)
    requires e.Post? ==> e.reply == replies(s.threads[e.thread].slot)
    ensures Underway(n, c, replies, es + [e], Step(s, e)) && Left(Step(s, e)) < Left(s)
  {
    LeftShrinks(s, e);
    StepInv(n, c, s, e);
    StepSlots(n, c, s, e);
    PathSnoc(Start(n, c), es, s, e);
    forall line ensures Tallied(n, c, replies, Step(s, e), line) {
      TurnTallies(n, c, replies, s, e, line);
    }
  }

  /** Starts the threads and lets any that can move do so, until all have ended;
      `replies` says how each upload ends. */
  method RunLoad(total: nat, concurrency: nat, replies: nat -> Reply)
    returns (results: Results, ghost es: seq<Event>, ghost last: State)
    ensures fresh(results)
    ensures Reaches(total, concurrency, es, last) && Joined(last)
    ensures results.statusCounts == last.statuses && results.errors == last.errors
    ensures Reported(total, concurrency, replies, last)
    ensures concurrency >= 1 && Harmless(total, replies) ==> Taken(total, concurrency, last) >= total
    ensures concurrency >= 1 && Harmless(total, replies) ==> results.TotalRequests() == total
  {
    var load := new Load(total, concurrency);
    results := load.results;
    es := [];
    StartInv(total, concurrency);
    forall line { HeldNone(load.threads, replies, line); }
    while exists i :: 0 <= i < |load.threads| && !Ended(load.threads[i])
      invariant fresh(load) && fresh(load.results) && results == load.results
      invariant Underway(total, concurrency, replies, es, load.Now())
      decreases Left(load.Now())
    {
      var i :| 0 <= i < |load.threads| && !Ended(load.threads[i]);
      ghost var before := load.Now();
      NeverStuck(total, concurrency, es, before, i);
      ghost var e := load.Turn(i, replies);
      TurnKeeps(total, concurrency, replies, es, before, e);
      es := es + [e];
    }
    last := load.Now();
    AllReported(total, concurrency, replies, last);
    if concurrency >= 1 && Harmless(total, replies) {
      ReportAddsUp(total, concurrency, es, last);
      ReportAddsUpIff(total, concurrency, es, last);
    }
  }
}
