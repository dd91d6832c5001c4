/** Keeping a message invisible while its job renders. Time is counted in any
    unit; a schedule lists the beats that happened before the job finished. */
module Heartbeat {

  /** One `change_visibility` call: how long it took with all its retries, when
      within it the queue moved the deadline, and whether it succeeded. */
  datatype Beat = Beat(length: nat, moved: nat, ok: bool)

  function Max(a: int, b: int): int {
    if a >= b then a else b
  }

  /** The clock and the message's deadline. */
  datatype Window = Window(now: int, deadline: int)

  /** Wait one interval, then make one call. */
  function Beaten(w: Window, b: Beat, interval: nat, extension: nat): Window {
    var called := w.now + interval;
    Window(called + b.length, if b.ok then called + b.moved + extension else w.deadline)
  }

  function After(w: Window, bs: seq<Beat>, interval: nat, extension: nat): Window
    decreases |bs|
  {
    if bs == [] then w else After(Beaten(w, bs[0], interval, extension), bs[1..], interval, extension)
  }

  /** The time the beats take. */
  ghost function Elapsed(bs: seq<Beat>, interval: nat): nat {
    if bs == [] then 0 else interval + bs[0].length + Elapsed(bs[1..], interval)
  }

  /** Only a success moves the deadline: the last one sets it one extension after the
      moment the queue acted on it. */
  lemma {:induction false} LastSuccessDecides(w: Window, bs: seq<Beat>, n: nat, interval: nat, extension: nat)
    requires n <= |bs| && (n < |bs| ==> bs[n].ok) && forall k :: n < k < |bs| ==> !bs[k].ok
    ensures After(w, bs, interval, extension).now == w.now + Elapsed(bs, interval)
    ensures n < |bs| ==>
      After(w, bs, interval, extension).deadline
      == w.now + Elapsed(bs[..n], interval) + interval + bs[n].moved + extension
    ensures (forall k :: 0 <= k < |bs| ==> !bs[k].ok) ==> After(w, bs, interval, extension).deadline == w.deadline
    decreases |bs|
  {
    if bs != [] {
      assert forall k :: 1 <= k < |bs| ==> bs[k] == bs[1..][k - 1];
      var m := if n > 0 then n - 1 else |bs| - 1;
      LastSuccessDecides(Beaten(w, bs[0], interval, extension), bs[1..], m, interval, extension);
      if n > 0 { assert bs[..n][0] == bs[0] && bs[..n][1..] == bs[1..][..n - 1]; }
    }
  }

  function Successes(bs: seq<Beat>): nat {
    if bs == [] then 0 else (if bs[0].ok then 1 else 0) + Successes(bs[1..])
  }

  /** Each success counts one, and a failure none. */
  lemma {:induction false} SuccessesOfParts(a: seq<Beat>, b: seq<Beat>)
    ensures Successes(a + b) == Successes(a) + Successes(b)
    ensures |a| == 1 ==> Successes(a) == if a[0].ok then 1 else 0
  {
    if a == [] {
      assert a + b == b;
    } else {
      assert (a + b)[0] == a[0] && (a + b)[1..] == a[1..] + b;
      SuccessesOfParts(a[1..], b);
    }
  }

  /** The message as the queue keeps it. */
  class InFlight {
    var deadline: int

    constructor (deadline: int)
      ensures this.deadline == deadline
    {
      this.deadline := deadline;
    }
  }

  class VisibilityHeartbeat {
    const interval: nat
    const extension: nat
    const message: InFlight
    var beats: nat

    /** Out-of-range settings are raised, so an extension always spans two
        intervals. */
    constructor (message: InFlight, intervalSeconds: int, extensionSeconds: int)
      ensures this.message == message && beats == 0
      ensures interval == (if intervalSeconds >= 1 then intervalSeconds else 1)
      ensures extension == if extensionSeconds >= 2 * interval then extensionSeconds else 2 * interval
    {
      this.message := message;
      interval := Max(1, intervalSeconds);
      extension := Max(2 * Max(1, intervalSeconds), extensionSeconds);
      beats := 0;
    }

    method Loop(start: int, schedule: seq<Beat>) returns (now: int)
      modifies this, message
      ensures Window(now, message.deadline)
           == After(Window(start, old(message.deadline)), schedule, interval, extension)
      ensures beats == old(beats) + Successes(schedule)
    {
      now := start;
      var i := 0;
      assert schedule[0..] == schedule;
      while i < |schedule|
        invariant 0 <= i <= |schedule|
        invariant After(Window(now, message.deadline), schedule[i..], interval, extension)
               == After(Window(start, old(message.deadline)), schedule, interval, extension)
        invariant beats + Successes(schedule[i..]) == old(beats) + Successes(schedule)
      {
        var b := schedule[i];
        assert schedule[i..][0] == b && schedule[i..][1..] == schedule[i + 1..];
        now := now + interval;
        if b.ok {
          message.deadline := now + b.moved + extension;
          beats := beats + 1;
        }
        now := now + b.length;
        i := i + 1;
      }
    }
  }

  // -- when the deadline holds ---------------------------------------------------

  /** Calls last at most `d` and at most `f` in a row fail; `run` failures have
      just happened. */
  ghost predicate Admissible(bs: seq<Beat>, d: nat, f: nat, run: nat) {
    && run <= f
    && (bs != [] ==>
          && bs[0].moved <= bs[0].length <= d
          && Admissible(bs[1..], d, f, if bs[0].ok then 0 else run + 1))
  }

  /** The message is never visible: each extension comes no later than the
      deadline it replaces, and the last deadline has not passed at the end. */
  ghost predicate NeverLapses(w: Window, bs: seq<Beat>, interval: nat, extension: nat)
    decreases |bs|
  {
    && w.now <= w.deadline
    && (bs != [] ==>
          && (bs[0].ok ==> w.now + interval + bs[0].moved <= w.deadline)
          && NeverLapses(Beaten(w, bs[0], interval, extension), bs[1..], interval, extension))
  }

  /** The length of `n` rounds of one wait and one call. */
  ghost function Rounds(n: nat, round: nat): nat {
    if n == 0 then 0 else round + Rounds(n - 1, round)
  }

  lemma {:induction false} RoundsAre(n: nat, round: nat)
    ensures Rounds(n, round) == n * round
  {
    if n > 0 {
      RoundsAre(n - 1, round);
      assert n * round == (n - 1) * round + round;
    }
  }

  /** The time left before the deadline, with `run` failures behind us. */
  ghost predicate Ahead(w: Window, d: nat, f: nat, run: nat, interval: nat, slack: nat) {
    run <= f && w.deadline - w.now >= Rounds(f + 1 - run, interval + d) + slack
  }

  lemma {:induction false} AheadHolds(w: Window, bs: seq<Beat>, d: nat, f: nat, run: nat,
                                      interval: nat, extension: nat, slack: nat)
    returns (last: nat)
    requires Ahead(w, d, f, run, interval, slack) && Admissible(bs, d, f, run)
    requires Rounds(f + 1, interval + d) + d + slack <= extension
    ensures NeverLapses(w, bs, interval, extension)
    ensures Ahead(After(w, bs, interval, extension), d, f, last, interval, slack)
    decreases |bs|
  {
    last := run;
    if bs != [] {
      var next := if bs[0].ok then 0 else run + 1;
      assert Admissible(bs[1..], d, f, next);
      last := AheadHolds(Beaten(w, bs[0], interval, extension), bs[1..], d, f, next, interval, extension, slack);
    }
  }

  /** However the job ends, within the next interval and call, at least `slack`
      is left to record the result and delete the message. */
  lemma WindowLeft(start: int, window: nat, bs: seq<Beat>, d: nat, f: nat,
                   interval: nat, extension: nat, slack: nat, stop: int)
    requires Admissible(bs, d, f, 0)
    requires (f + 1) * (interval + d) + d + slack <= extension && (f + 1) * (interval + d) + slack <= window
    requires stop <= After(Window(start, start + window), bs, interval, extension).now + interval + d
    ensures After(Window(start, start + window), bs, interval, extension).deadline - stop >= slack
  {
    RoundsAre(f + 1, interval + d);
    var last := AheadHolds(Window(start, start + window), bs, d, f, 0, interval, extension, slack);
  }

  // -- and when it does not --------------------------------------------------------

  /** `n` failures of the full length. */
  ghost function Failures(n: nat, d: nat): seq<Beat> {
    if n == 0 then [] else [Beat(d, d, false)] + Failures(n - 1, d)
  }

  /** `f - run` failures more, and then a success at the last moment. */
  ghost function Late(d: nat, f: nat, run: nat): seq<Beat>
    requires run <= f
  {
    Failures(f - run, d) + [Beat(d, d, true)]
  }

  lemma {:induction false} LateNeeds(w: Window, d: nat, f: nat, run: nat, interval: nat, extension: nat)
    requires run <= f
    ensures Admissible(Late(d, f, run), d, f, run)
    ensures NeverLapses(w, Late(d, f, run), interval, extension)
        ==> w.now + Rounds(f + 1 - run, interval + d) <= w.deadline
    decreases f - run
  {
    var bs := Late(d, f, run);
    if run == f {
      assert bs == [Beat(d, d, true)] && bs[1..] == [];
      assert Rounds(1, interval + d) == interval + d + Rounds(0, interval + d);
    } else {
      assert bs[0] == Beat(d, d, false) && bs[1..] == Late(d, f, run + 1);
      LateNeeds(Beaten(w, bs[0], interval, extension), d, f, run + 1, interval, extension);
    }
  }

  ghost predicate AlwaysInvisible(window: nat, d: nat, f: nat, interval: nat, extension: nat) {
    forall bs :: Admissible(bs, d, f, 0) ==> NeverLapses(Window(0, window), bs, interval, extension)
  }

  lemma InvisibleNeeds(window: nat, d: nat, f: nat, interval: nat, extension: nat)
    requires AlwaysInvisible(window, d, f, interval, extension)
    ensures Rounds(f + 1, interval + d) + d <= extension && Rounds(f + 1, interval + d) <= window
  {
    var w, early := Window(0, window), Beat(d, 0, true);
    LateNeeds(w, d, f, 0, interval, extension);
    LateNeeds(Beaten(w, early, interval, extension), d, f, 0, interval, extension);
    var bs := [early] + Late(d, f, 0);
    assert bs[0] == early && bs[1..] == Late(d, f, 0);
    assert Admissible(bs, d, f, 0);
    assert NeverLapses(w, bs, interval, extension);
    assert NeverLapses(Beaten(w, early, interval, extension), Late(d, f, 0), interval, extension);
  }

  /** With calls of at most `d` and at most `f` failures in a row, the message
      stays invisible on every schedule exactly if the extension and the initial
      window span `f` failed rounds and one more. */
  lemma AlwaysInvisibleIff(window: nat, d: nat, f: nat, interval: nat, extension: nat)
    ensures AlwaysInvisible(window, d, f, interval, extension)
      <==> (f + 1) * (interval + d) + d <= extension && (f + 1) * (interval + d) <= window
  {
    var w, span := Window(0, window), Rounds(f + 1, interval + d);
    RoundsAre(f + 1, interval + d);
    assert span == (f + 1) * (interval + d);
    if span + d <= extension && span <= window {
      forall bs | Admissible(bs, d, f, 0) ensures NeverLapses(w, bs, interval, extension) {
        var _ := AheadHolds(w, bs, d, f, 0, interval, extension, 0);
      }
    }
    if AlwaysInvisible(window, d, f, interval, extension) {
      InvisibleNeeds(window, d, f, interval, extension);
    }
  }

  /** With the shipped settings, 15 between beats, 60 per extension and a queue
      window of 60, the claim that one failed call does not lose the message is
      true exactly if a call with its retries never lasts more than 10. */
  lemma OneFailedCallIff(d: nat)
    ensures AlwaysInvisible(60, d, 1, 15, 60) <==> d <= 10
  {
    AlwaysInvisibleIff(60, d, 1, 15, 60);
  }
}
