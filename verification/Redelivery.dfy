/** Redelivery is bounded by the redrive limit: no copy is received more often
    than the limit allows, and a queue that gets no new messages drains. */
module Redelivery {
  import opened Domain
  import opened Protocol
  import opened Invariant

  // -- per copy ----------------------------------------------------------------

  ghost predicate Receives(e: Event, k: CopyId) {
    (e.Receive? && e.k == k) || (e.ReceiveLost? && e.k == k)
  }

  /** How often copy `k` is received in a run. */
  ghost function Receptions(es: seq<Event>, k: CopyId): nat {
    if es == [] then 0 else (if Receives(es[0], k) then 1 else 0) + Receptions(es[1..], k)
  }

  /** How often copy `k` can still be received. */
  ghost function ReceivesLeft(c: Config, s: State, k: CopyId): int {
    if k in s.queue then c.maxReceives - s.queue[k].receives
    else if k in s.issued then 0
    else c.maxReceives
  }

  lemma StepSpends(c: Config, s: State, e: Event, k: CopyId)
    requires Inv(c, s) && Enabled(c, s, e)
    ensures ReceivesLeft(c, Apply(c, s, e), k) <= ReceivesLeft(c, s, k) - (if Receives(e, k) then 1 else 0)
    ensures ReceivesLeft(c, Apply(c, s, e), k) >= 0
  {
    StepKeeps(c, s, e);
    QueueStep(c, s, e, k);
  }

  /** What a step may do to one copy. */
  ghost predicate CopyMoves(c: Config, s: State, e: Event, k: CopyId, t: State) {
    && (k in s.issued ==> k in t.issued)
    && (k in s.queue && k in t.queue ==>
          && t.queue[k].body == s.queue[k].body
          && t.queue[k].receives == s.queue[k].receives + (if Receives(e, k) then 1 else 0))
    && (k in t.queue && k !in s.queue ==> k !in s.issued && t.queue[k].receives == 0)
    && (Receives(e, k) ==> Receivable(c, s, k) && k in t.queue)
  }

  lemma ApiCopyMoves(c: Config, s: State, e: Event, k: CopyId)
    requires CopiesOk(c, s) && ApiEnabled(c, s, e)
    ensures CopyMoves(c, s, e, k, ApiApply(c, s, e))
  {
    if !e.Send? { AtRest(c, s, e); }
  }

  lemma WorkerCopyMoves(c: Config, s: State, e: Event, k: CopyId)
    requires WorkerEnabled(c, s, e)
    ensures CopyMoves(c, s, e, k, WorkerApply(c, s, e))
  {
    if !(e.Receive? || e.Delete?) { AtRest(c, s, e); }
  }

  lemma QueueCopyMoves(c: Config, s: State, e: Event, k: CopyId)
    requires CopiesOk(c, s) && QueueEnabled(c, s, e)
    ensures CopyMoves(c, s, e, k, QueueApply(c, s, e))
  {
  }

  lemma QueueStep(c: Config, s: State, e: Event, k: CopyId)
    requires CopiesOk(c, s) && Enabled(c, s, e)
    ensures CopyMoves(c, s, e, k, Apply(c, s, e))
  {
    if ApiEnabled(c, s, e) {
      ApiCopyMoves(c, s, e, k);
    } else if WorkerEnabled(c, s, e) {
      WorkerCopyMoves(c, s, e, k);
    } else {
      QueueCopyMoves(c, s, e, k);
    }
  }

  lemma AtRest(c: Config, s: State, e: Event)
    requires Enabled(c, s, e) && !NewMessage(e)
    requires !(e.Receive? || e.ReceiveLost? || e.Expire? || e.Redrive? || e.Delete?)
    ensures QueueAtRest(s, Apply(c, s, e))
  {
  }

  lemma {:induction false} RunSpends(c: Config, s: State, es: seq<Event>, t: State, k: CopyId)
    requires Inv(c, s) && Path(c, s, es, t)
    ensures Receptions(es, k) <= ReceivesLeft(c, s, k)
    decreases |es|
  {
    if es == [] {
      assert k in s.queue ==> s.queue[k].receives <= c.maxReceives;
    } else {
      StepKeeps(c, s, es[0]);
      StepSpends(c, s, es[0], k);
      RunSpends(c, Apply(c, s, es[0]), es[1..], t, k);
    }
  }

  /** In every run each message copy is received at most `maxReceives` times. */
  lemma ReceptionsBounded(c: Config, es: seq<Event>, s: State, k: CopyId)
    requires Path(c, INIT, es, s)
    ensures Receptions(es, k) <= c.maxReceives
  {
    RunSpends(c, INIT, es, s, k);
  }

  // -- the whole queue -----------------------------------------------------------

  /** The queue events still possible for one copy: each remaining receive may
      be followed by an expiry, and a spent copy is redriven. */
  ghost function Weight(c: Config, copy: Copy): nat {
    (if copy.receives < c.maxReceives then 3 * (c.maxReceives - copy.receives) else 0) + (if copy.visible then 1 else 2)
  }

  ghost function Pick(q: map<CopyId, Copy>): CopyId
    requires q != map[]
    ensures Pick(q) in q
  {
    var k :| k in q; k
  }

  ghost function Total(c: Config, q: map<CopyId, Copy>): nat
    decreases |q|
  {
    if q == map[] then 0
    else
      var k := Pick(q);
      assert (q - {k}).Keys == q.Keys - {k};
      Weight(c, q[k]) + Total(c, q - {k})
  }

  lemma {:induction false} TotalWithout(c: Config, q: map<CopyId, Copy>, k: CopyId)
    requires k in q
    ensures Total(c, q) == Weight(c, q[k]) + Total(c, q - {k})
    decreases |q|
  {
    var p := Pick(q);
    assert (q - {p}).Keys == q.Keys - {p};
    if p != k {
      assert (q - {k}).Keys == q.Keys - {k};
      TotalWithout(c, q - {p}, k);
      TotalWithout(c, q - {k}, p);
      assert q - {p} - {k} == q - {k} - {p};
    }
  }

  lemma TotalUpdate(c: Config, q: map<CopyId, Copy>, k: CopyId, copy: Copy)
    requires k in q
    ensures Total(c, q[k := copy]) == Total(c, q) - Weight(c, q[k]) + Weight(c, copy)
  {
    TotalWithout(c, q, k);
    TotalWithout(c, q[k := copy], k);
    assert q[k := copy] - {k} == q - {k};
  }

  /** The steps by which the queue service works a message off. */
  ghost predicate QueueMove(s: State, e: Event) {
    || e.Receive? || e.ReceiveLost? || e.Expire? || e.Redrive?
    || (e.Delete? && e.took && e.w in s.tasks && s.tasks[e.w].copy in s.queue)
  }

  ghost predicate NewMessage(e: Event) {
    e.Send? || e.Inject?
  }

  lemma Drains(c: Config, s: State, e: Event)
    requires Enabled(c, s, e) && !NewMessage(e)
    ensures Total(c, Apply(c, s, e).queue) <= Total(c, s.queue) - (if QueueMove(s, e) then 1 else 0)
  {
    match e
    case Receive(_, k) => ReceiveDrains(c, s, k);
    case ReceiveLost(k) => ReceiveDrains(c, s, k);
    case Expire(k) => TotalUpdate(c, s.queue, k, s.queue[k].(visible := true));
    case Redrive(k) => TotalWithout(c, s.queue, k);
    case Delete(w, took, _) =>
      var k := s.tasks[w].copy;
      if k in s.queue { TotalWithout(c, s.queue, k); } else { assert s.queue - {k} == s.queue; }
    case _ => AtRest(c, s, e);
  }

  lemma ReceiveDrains(c: Config, s: State, k: CopyId)
    requires Receivable(c, s, k)
    ensures Total(c, Received(s, k).queue) < Total(c, s.queue)
  {
    TotalUpdate(c, s.queue, k, s.queue[k].(receives := s.queue[k].receives + 1, visible := false));
  }

  ghost function QueueMoves(c: Config, s: State, es: seq<Event>, t: State): nat
    requires Path(c, s, es, t)
    decreases |es|
  {
    if es == [] then 0 else (if QueueMove(s, es[0]) then 1 else 0) + QueueMoves(c, Apply(c, s, es[0]), es[1..], t)
  }

  /** With no new messages the queue service moves at most `Total` times more,
      whatever the workers do: nothing is redelivered for ever. */
  lemma {:induction false} RunDrains(c: Config, s: State, es: seq<Event>, t: State)
    requires Path(c, s, es, t) && forall i :: 0 <= i < |es| ==> !NewMessage(es[i])
    ensures QueueMoves(c, s, es, t) + Total(c, t.queue) <= Total(c, s.queue)
    decreases |es|
  {
    if es != [] {
      Drains(c, s, es[0]);
      assert forall i :: 0 <= i < |es[1..]| ==> es[1..][i] == es[i + 1];
      RunDrains(c, Apply(c, s, es[0]), es[1..], t);
    }
  }

  /** As long as a message is left and some worker is idle, the queue can move. */
  lemma LeftoverCanMove(c: Config, s: State, w: Pid) returns (e: Event)
    requires s.queue != map[] && w !in s.tasks
    ensures Enabled(c, s, e) && QueueMove(s, e) && !NewMessage(e)
  {
    var k := Pick(s.queue);
    if !s.queue[k].visible {
      e := Expire(k);
    } else if s.queue[k].receives < c.maxReceives {
      e := Receive(w, k);
    } else {
      e := Redrive(k);
    }
  }

  // -- where every copy ends -----------------------------------------------------------

  ghost predicate Deletes(s: State, e: Event, k: CopyId) {
    e.Delete? && e.took && e.w in s.tasks && s.tasks[e.w].copy == k
  }

  /** Some worker deletes copy `k` along the run. */
  ghost predicate DeletedIn(c: Config, s: State, es: seq<Event>, t: State, k: CopyId)
    requires Path(c, s, es, t)
    decreases |es|
  {
    es != [] && (Deletes(s, es[0], k) || DeletedIn(c, Apply(c, s, es[0]), es[1..], t, k))
  }

  lemma CopyStays(c: Config, s: State, e: Event, k: CopyId)
    requires Enabled(c, s, e) && (k in s.queue || k in s.dlq) && !Deletes(s, e, k)
    ensures k in Apply(c, s, e).queue || k in Apply(c, s, e).dlq
  {
    if !(e.Send? || e.Inject? || e.Receive? || e.ReceiveLost? || e.Expire? || e.Redrive? || e.Delete?) {
      AtRest(c, s, e);
    }
  }

  lemma IssuedIsQueued(c: Config, s: State, e: Event, k: CopyId)
    requires Enabled(c, s, e) && k in Apply(c, s, e).issued && k !in s.issued
    ensures k in Apply(c, s, e).queue
  {
    if !NewMessage(e) { IssuedByNew(c, s, e); }
  }

  lemma IssuedByNew(c: Config, s: State, e: Event)
    requires Enabled(c, s, e) && !NewMessage(e)
    ensures Apply(c, s, e).issued == s.issued
  {
    if !(e.Receive? || e.ReceiveLost? || e.Expire? || e.Redrive? || e.Delete?) { AtRest(c, s, e); }
  }

  /** Along any run a copy is queued, parked, or was deleted. */
  lemma {:induction false} CopiesAccounted(c: Config, s: State, es: seq<Event>, t: State, k: CopyId)
    requires Path(c, s, es, t) && k in t.issued && (k in s.issued ==> k in s.queue || k in s.dlq)
    ensures k in t.queue || k in t.dlq || DeletedIn(c, s, es, t, k)
    decreases |es|
  {
    if es != [] && !Deletes(s, es[0], k) {
      var u := Apply(c, s, es[0]);
      if k in s.issued {
        CopyStays(c, s, es[0], k);
      } else if k in u.issued {
        IssuedIsQueued(c, s, es[0], k);
      }
      CopiesAccounted(c, u, es[1..], t, k);
    }
  }

  /** Nothing is left for the queue service to do, unless a message is sent. */
  ghost predicate Drained(c: Config, s: State) {
    forall e :: Enabled(c, s, e) && QueueMove(s, e) ==> NewMessage(e)
  }

  /** A run that has drained the queue, with a worker to spare, has left no message
      behind: every copy ever issued was deleted or is parked on the DLQ. And a
      run cannot put that off for ever (`RunDrains`). */
  lemma DrainedMeansSettled(c: Config, es: seq<Event>, t: State, w: Pid)
    requires Path(c, INIT, es, t) && w !in t.tasks && Drained(c, t)
    ensures t.queue == map[]
    ensures forall k :: k in t.issued ==> k in t.dlq || DeletedIn(c, INIT, es, t, k)
  {
    if t.queue != map[] {
      var e := LeftoverCanMove(c, t, w);
    }
    forall k | k in t.issued ensures k in t.dlq || DeletedIn(c, INIT, es, t, k) {
      CopiesAccounted(c, INIT, es, t, k);
    }
  }

  /** And it can be drained from any state whatever the workers do: by receives
      that nobody picks up, expiries and redrives alone. */
  lemma {:induction false} CanDrain(c: Config, s: State) returns (es: seq<Event>, t: State)
    ensures Path(c, s, es, t) && t.queue == map[] && t.tasks == s.tasks && forall e :: e in es ==> !NewMessage(e)
    decreases Total(c, s.queue)
  {
    if s.queue == map[] {
      es, t := [], s;
    } else {
      var e := ServiceMove(c, s);
      Drains(c, s, e);
      var rest;
      rest, t := CanDrain(c, Apply(c, s, e));
      es := [e] + rest;
      assert es[1..] == rest;
    }
  }

  lemma ServiceMove(c: Config, s: State) returns (e: Event)
    requires s.queue != map[]
    ensures Enabled(c, s, e) && QueueMove(s, e) && !NewMessage(e) && Apply(c, s, e).tasks == s.tasks
  {
    var k := Pick(s.queue);
    e := if !s.queue[k].visible then Expire(k)
         else if s.queue[k].receives < c.maxReceives then ReceiveLost(k)
         else Redrive(k);
  }
}
