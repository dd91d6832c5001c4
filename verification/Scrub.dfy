/** What a log line may carry: every value is scrubbed before it is written. */
module Scrub {
  import opened PyValues
  import opened Keys

  const SECRET_KEY_MARKERS := ["password", "passwd", "secret", "token", "authorization", "access_key", "accesskey",
                               "session_token", "credential", "api_key", "apikey", "private_key"]
  const GPS_KEY_MARKERS := ["gps", "geolocation", "latitude", "longitude"]
  const REDACTED := Str("[redacted]")
  const TRUNCATED := "[truncated]"
  const ELLIPSIS := "\U{2026}[truncated]"
  const MAX_VALUE_CHARS: nat := 512
  const MAX_LIST: nat := 32
  const MAX_DEPTH: nat := 4

  /** Which keys name a credential, and which a location. */
  datatype Rules = Rules(secret: string -> bool, gps: string -> bool)

  predicate Contains(s: string, part: string) {
    exists i :: 0 <= i <= |s| && part <= s[i..]
  }

  predicate Marked(s: string, markers: seq<string>) {
    exists m :: m in markers && Contains(s, m)
  }

  /** The program's own rules; `lower` is Python's. */
  function KeyRules(lower: string -> string): Rules {
    Rules(key => Marked(lower(key), SECRET_KEY_MARKERS), key => Marked(lower(key), GPS_KEY_MARKERS))
  }

  ghost predicate NamesCredential(m: string) {
    m in {"password", "passwd", "secret", "token", "authorization", "access_key", "accesskey", "session_token",
          "credential", "api_key", "apikey", "private_key"}
  }

  ghost predicate NamesLocation(m: string) {
    m in {"gps", "geolocation", "latitude", "longitude"}
  }

  /** A key that has a marker anywhere, in any case, is taken for a credential or a
      location. */
  lemma MarkerIsFound(lower: string -> string, key: string, a: string, m: string, b: string)
    requires lower(key) == a + m + b
    ensures NamesCredential(m) ==> KeyRules(lower).secret(key)
    ensures NamesLocation(m) ==> KeyRules(lower).gps(key)
  {
    assert m <= lower(key)[|a|..];
    assert Contains(lower(key), m);
  }

  /** And no other key is. */
  lemma FoundIsMarker(lower: string -> string, key: string, location: bool) returns (a: string, m: string, b: string)
    requires if location then KeyRules(lower).gps(key) else KeyRules(lower).secret(key)
    ensures lower(key) == a + m + b && if location then NamesLocation(m) else NamesCredential(m)
  {
    if location {
      m :| m in GPS_KEY_MARKERS && Contains(lower(key), m);
    } else {
      m :| m in SECRET_KEY_MARKERS && Contains(lower(key), m);
    }
    a, b := Around(lower(key), m);
  }

  lemma Around(s: string, m: string) returns (a: string, b: string)
    requires Contains(s, m)
    ensures s == a + m + b
  {
    var i :| 0 <= i <= |s| && m <= s[i..];
    a, b := s[..i], s[i + |m|..];
  }

  /** The entries whose key does not name a location, in order. */
  function Visible(r: Rules, es: seq<Entry>): (s: seq<Entry>)
    ensures |s| <= |es|
    ensures forall i :: 0 <= i < |s| ==> s[i] in es && !r.gps(s[i].key)
  {
    if es == [] then [] else (if r.gps(es[0].key) then [] else [es[0]]) + Visible(r, es[1..])
  }

  lemma {:induction false} VisibleIsAll(r: Rules, es: seq<Entry>)
    requires forall i :: 0 <= i < |es| ==> !r.gps(es[i].key)
    ensures Visible(r, es) == es
  {
    if es != [] { VisibleIsAll(r, es[1..]); }
  }

  /** Only the entries for locations go, each other keeps its place. */
  lemma {:induction false} VisibleSnoc(r: Rules, es: seq<Entry>, e: Entry)
    ensures Visible(r, es + [e]) == Visible(r, es) + if r.gps(e.key) then [] else [e]
  {
    var all := es + [e];
    if es == [] {
      assert all == [e] && all[1..] == [];
    } else {
      assert all[0] == es[0] && all[1..] == es[1..] + [e];
      VisibleSnoc(r, es[1..], e);
    }
  }

  function Shortened(s: string): string {
    if |s| > MAX_VALUE_CHARS then s[..MAX_VALUE_CHARS] + ELLIPSIS else s
  }

  function Sized(n: nat): string {
    "[" + Dec(n) + " bytes]"
  }

  /** `_scrub_value` */
  function Scrubbed(r: Rules, v: Value, depth: nat): Value
    decreases v
  {
    if depth > MAX_DEPTH then Str(TRUNCATED)
    else match v
      case Dict(es) =>
        var s := Visible(r, es);
        Dict(seq(|s|, i requires 0 <= i < |s| =>
          Entry(s[i].key, if r.secret(s[i].key) then REDACTED else Scrubbed(r, s[i].value, depth + 1))))
      case List(items) =>
        List(seq(Capped(|items|), i requires 0 <= i < Capped(|items|) => Scrubbed(r, items[i], depth + 1)))
      case Tuple(items) =>
        List(seq(Capped(|items|), i requires 0 <= i < Capped(|items|) => Scrubbed(r, items[i], depth + 1)))
      case Blob(b) => Str(Sized(|b|))
      case Str(s) => Str(Shortened(s))
      case _ => v
  }

  function Capped(n: nat): (c: nat)
    ensures c <= n && c <= MAX_LIST
  {
    if n > MAX_LIST then MAX_LIST else n
  }

  // -- what is left ----------------------------------------------------------------

  /** `w` is what the log shows of `v` at this depth. */
  ghost predicate Shows(r: Rules, v: Value, depth: nat, w: Value)
    decreases v
  {
    if depth > 4 then w == Str("[truncated]")
    else match v
      case Dict(es) =>
        var s := Visible(r, es);
        && w.Dict? && |w.entries| == |s|
        && forall i :: 0 <= i < |s| ==>
             && w.entries[i].key == s[i].key
             && if r.secret(s[i].key) then w.entries[i].value == Str("[redacted]")
                else Shows(r, s[i].value, depth + 1, w.entries[i].value)
      case List(items) =>
        && w.List? && |w.items| == (if |items| <= 32 then |items| else 32)
        && forall i :: 0 <= i < |w.items| ==> Shows(r, items[i], depth + 1, w.items[i])
      case Tuple(items) =>
        && w.List? && |w.items| == (if |items| <= 32 then |items| else 32)
        && forall i :: 0 <= i < |w.items| ==> Shows(r, items[i], depth + 1, w.items[i])
      case Blob(b) => w == Str("[" + Dec(|b|) + " bytes]")
      case Str(s) => w == if |s| <= 512 then v else Str(s[..512] + "\U{2026}[truncated]")
      case _ => w == v
  }

  lemma {:induction false} ScrubbedShows(r: Rules, v: Value, depth: nat)
    ensures Shows(r, v, depth, Scrubbed(r, v, depth))
    decreases v
  {
    if depth <= MAX_DEPTH {
      match v
      case Dict(es) =>
        var s := Visible(r, es);
        forall i | 0 <= i < |s| { ScrubbedShows(r, s[i].value, depth + 1); }
      case List(items) => forall i | 0 <= i < Capped(|items|) { ScrubbedShows(r, items[i], depth + 1); }
      case Tuple(items) => forall i | 0 <= i < Capped(|items|) { ScrubbedShows(r, items[i], depth + 1); }
      case _ =>
    }
  }

  /** Nothing to hide and nothing to shorten, down to the depth the log shows. */
  ghost predicate Harmless(r: Rules, v: Value, depth: nat)
    decreases v
  {
    depth <= 4 && match v
      case Dict(es) =>
        forall i :: 0 <= i < |es| ==>
          && !r.gps(es[i].key)
          && if r.secret(es[i].key) then es[i].value == REDACTED else Harmless(r, es[i].value, depth + 1)
      case List(items) => |items| <= 32 && forall i :: 0 <= i < |items| ==> Harmless(r, items[i], depth + 1)
      case Tuple(_) => false
      case Blob(_) => false
      case Str(s) => |s| <= 512
      case _ => true
  }

  /** What is harmless is logged as it is. */
  lemma {:induction false} HarmlessIsKept(r: Rules, v: Value, depth: nat)
    requires Harmless(r, v, depth)
    ensures Scrubbed(r, v, depth) == v
    decreases v
  {
    match v
    case Dict(es) =>
      VisibleIsAll(r, es);
      forall i | 0 <= i < |es| && !r.secret(es[i].key) { HarmlessIsKept(r, es[i].value, depth + 1); }
      assert Scrubbed(r, v, depth).entries == es;
    case List(items) =>
      forall i | 0 <= i < |items| { HarmlessIsKept(r, items[i], depth + 1); }
      assert Scrubbed(r, v, depth).items == items;
    case _ =>
  }

  /** No byte string is longer than a machine can hold. */
  ghost predicate Addressable(v: Value) {
    match v
    case Blob(b) => |b| < 0x8000_0000_0000_0000
    case Dict(es) => forall i :: 0 <= i < |es| ==> Addressable(es[i].value)
    case List(items) => forall i :: 0 <= i < |items| ==> Addressable(items[i])
    case Tuple(items) => forall i :: 0 <= i < |items| ==> Addressable(items[i])
    case _ => true
  }

  /** Fit to log, with at most `k` levels of nesting: no key names a location,
      what a credential's key holds is redacted, lists and text are short. */
  ghost predicate Clean(r: Rules, v: Value, k: nat) {
    match v
    case Dict(es) =>
      && k > 0
      && forall i :: 0 <= i < |es| ==>
           && !r.gps(es[i].key)
           && (r.secret(es[i].key) ==> es[i].value == REDACTED)
           && Clean(r, es[i].value, k - 1)
    case List(items) => k > 0 && |items| <= MAX_LIST && forall i :: 0 <= i < |items| ==> Clean(r, items[i], k - 1)
    case Tuple(_) => false
    case Blob(_) => false
    case Str(s) => |s| <= MAX_VALUE_CHARS + |ELLIPSIS|
    case _ => true
  }

  function Pow10(k: nat): nat {
    if k == 0 then 1 else 10 * Pow10(k - 1)
  }

  lemma {:induction false} DecIsShort(n: nat, k: nat)
    requires n < Pow10(k) && k >= 1
    ensures |Dec(n)| <= k
  {
    if n >= 10 {
      assert k > 1;
      DecIsShort(n / 10, k - 1);
    }
  }

  lemma SizedIsShort(n: nat)
    requires n < 0x8000_0000_0000_0000
    ensures |Sized(n)| <= MAX_VALUE_CHARS
  {
    assert Pow10(4) == 10000 && Pow10(8) == 100000000;
    assert Pow10(12) == 1000000000000 && Pow10(16) == 10000000000000000;
    assert Pow10(19) == 10000000000000000000;
    DecIsShort(n, 19);
  }

  lemma {:induction false} ScrubbedIsClean(r: Rules, v: Value, depth: nat)
    requires Addressable(v) && depth <= MAX_DEPTH + 1
    ensures Clean(r, Scrubbed(r, v, depth), MAX_DEPTH + 1 - depth)
    decreases v
  {
    if depth <= MAX_DEPTH {
      match v
      case Dict(es) =>
        var s := Visible(r, es);
        forall i | 0 <= i < |s| ensures Clean(r, Scrubbed(r, s[i].value, depth + 1), MAX_DEPTH - depth) {
          ScrubbedIsClean(r, s[i].value, depth + 1);
        }
      case List(items) =>
        forall i | 0 <= i < Capped(|items|) { ScrubbedIsClean(r, items[i], depth + 1); }
      case Tuple(items) =>
        forall i | 0 <= i < Capped(|items|) { ScrubbedIsClean(r, items[i], depth + 1); }
      case Blob(b) => SizedIsShort(|b|);
      case _ =>
    }
  }

  /** Scrubbing a scrubbed value at the same depth changes nothing, not even in
      text that was cut. */
  lemma {:induction false} ScrubbedTwice(r: Rules, v: Value, depth: nat)
    requires Addressable(v)
    ensures Scrubbed(r, Scrubbed(r, v, depth), depth) == Scrubbed(r, v, depth)
    decreases v
  {
    if depth <= MAX_DEPTH {
      var once := Scrubbed(r, v, depth);
      match v
      case Dict(es) =>
        var s := Visible(r, es);
        forall i | 0 <= i < |s| { ScrubbedTwice(r, s[i].value, depth + 1); }
        VisibleIsAll(r, once.entries);
        assert Scrubbed(r, once, depth).entries == once.entries;
      case List(items) =>
        forall i | 0 <= i < Capped(|items|) { ScrubbedTwice(r, items[i], depth + 1); }
        assert Scrubbed(r, once, depth).items == once.items;
      case Tuple(items) =>
        forall i | 0 <= i < Capped(|items|) { ScrubbedTwice(r, items[i], depth + 1); }
        assert Scrubbed(r, once, depth).items == once.items;
      case Blob(b) => SizedIsShort(|b|);
      case Str(s) => ShortenedTwice(s);
      case _ =>
    }
  }

  lemma ShortenedTwice(s: string)
    ensures Shortened(Shortened(s)) == Shortened(s)
  {
    if |s| > MAX_VALUE_CHARS {
      assert Shortened(s)[..MAX_VALUE_CHARS] == s[..MAX_VALUE_CHARS];
    }
  }

  // -- what cannot be learned ------------------------------------------------------

  /** Two values that differ at most in what their secret and location keys hold
      and in the contents of byte strings. */
  ghost predicate AlikeInPublic(r: Rules, v: Value, w: Value) {
    match (v, w)
    case (Dict(es), Dict(fs)) =>
      var s, t := Visible(r, es), Visible(r, fs);
      |s| == |t| && forall i :: 0 <= i < |s| ==>
        s[i].key == t[i].key && (r.secret(s[i].key) || AlikeInPublic(r, s[i].value, t[i].value))
    case (List(s), List(t)) => |s| == |t| && forall i :: 0 <= i < |s| ==> AlikeInPublic(r, s[i], t[i])
    case (Tuple(s), Tuple(t)) => |s| == |t| && forall i :: 0 <= i < |s| ==> AlikeInPublic(r, s[i], t[i])
    case (Blob(b), Blob(c)) => |b| == |c|
    case _ => v == w
  }

  /** The log tells nothing about locations, credentials or contents. */
  lemma {:induction false} ScrubbedHides(r: Rules, v: Value, w: Value, depth: nat)
    requires AlikeInPublic(r, v, w)
    ensures Scrubbed(r, v, depth) == Scrubbed(r, w, depth)
    decreases v
  {
    if depth <= MAX_DEPTH {
      match (v, w)
      case (Dict(es), Dict(fs)) =>
        var s, t := Visible(r, es), Visible(r, fs);
        forall i | 0 <= i < |s| && !r.secret(s[i].key)
          ensures Scrubbed(r, s[i].value, depth + 1) == Scrubbed(r, t[i].value, depth + 1)
        {
          ScrubbedHides(r, s[i].value, t[i].value, depth + 1);
        }
        assert Scrubbed(r, v, depth).entries == Scrubbed(r, w, depth).entries;
      case (List(s), List(t)) =>
        forall i | 0 <= i < Capped(|s|) { ScrubbedHides(r, s[i], t[i], depth + 1); }
        assert Scrubbed(r, v, depth).items == Scrubbed(r, w, depth).items;
      case (Tuple(s), Tuple(t)) =>
        forall i | 0 <= i < Capped(|s|) { ScrubbedHides(r, s[i], t[i], depth + 1); }
        assert Scrubbed(r, v, depth).items == Scrubbed(r, w, depth).items;
      case _ =>
    }
  }

  // -- the processor -----------------------------------------------------------------

  /** One log event on its way through the processors. */
  class EventDict {
    var fields: map<string, Value>

    constructor (fields: map<string, Value>)
      ensures this.fields == fields
    {
      this.fields := fields;
    }

    /** `_redaction_processor`; `keys` is the order of the dict. */
    method Redact(r: Rules, keys: seq<string>)
      requires forall k :: k in keys <==> k in fields
      requires forall i, j :: 0 <= i < j < |keys| ==> keys[i] != keys[j]
      modifies this
      ensures fields == Redacted(r, old(fields))
    {
      StartsAtAll(r, fields, keys);
      for i := 0 to |keys|
        invariant fields == Partly(r, old(fields), keys, i)
      {
        var key := keys[i];
        RedactsNext(r, old(fields), keys, i);
        if r.gps(key) && key != "event" {
          fields := fields - {key};
          continue;
        }
        if r.secret(key) {
          fields := fields[key := REDACTED];
          continue;
        }
        fields := fields[key := Scrubbed(r, fields[key], 0)];
      }
      EndsAtRedacted(r, old(fields), keys);
    }
  }

  predicate Dropped(r: Rules, key: string) {
    r.gps(key) && key != "event"
  }

  function RedactedField(r: Rules, key: string, v: Value): Value {
    if r.secret(key) then REDACTED else Scrubbed(r, v, 0)
  }

  function Redacted(r: Rules, fields: map<string, Value>): map<string, Value> {
    map k | k in fields && !Dropped(r, k) :: RedactedField(r, k, fields[k])
  }

  /** The fields once the first `n` keys are redacted. */
  ghost function Partly(r: Rules, fields: map<string, Value>, keys: seq<string>, n: nat): map<string, Value>
    requires n <= |keys|
  {
    map k | k in fields && (k in keys[..n] ==> !Dropped(r, k)) ::
      if k in keys[..n] then RedactedField(r, k, fields[k]) else fields[k]
  }

  lemma StartsAtAll(r: Rules, fields: map<string, Value>, keys: seq<string>)
    ensures Partly(r, fields, keys, 0) == fields
  {
  }

  lemma EndsAtRedacted(r: Rules, fields: map<string, Value>, keys: seq<string>)
    requires forall k :: k in keys <==> k in fields
    ensures Partly(r, fields, keys, |keys|) == Redacted(r, fields)
  {
    assert keys[..|keys|] == keys;
  }

  /** What the step for the key number `i` makes of the fields. */
  lemma RedactsNext(r: Rules, fields: map<string, Value>, keys: seq<string>, i: nat)
    requires i < |keys| && keys[i] in fields
    requires forall i, j :: 0 <= i < j < |keys| ==> keys[i] != keys[j]
    ensures
      var now, next, key := Partly(r, fields, keys, i), Partly(r, fields, keys, i + 1), keys[i];
      && key in now && now[key] == fields[key]
      && next == if Dropped(r, key) then now - {key} else now[key := RedactedField(r, key, fields[key])]
  {
    assert keys[..i + 1] == keys[..i] + [keys[i]];
    assert keys[i] !in keys[..i];
  }

  /** The name of the message is spared, which no rule threatens. */
  lemma EventIsNoLocation(lower: string -> string)
    requires lower("event") == "event"
    ensures !KeyRules(lower).gps("event")
  {
    var s := "event";
    forall m | m in GPS_KEY_MARKERS ensures !Contains(s, m) {
      assert |m| > 0 && m[0] !in s;
    }
  }

  /** A whole log line is clean, keeps exactly the names that are no location and the
      name of the message, shows under each what the log may show of it, and stays
      as it is if processed again. */
  lemma LineIsClean(r: Rules, fields: map<string, Value>)
    requires forall k :: k in fields ==> Addressable(fields[k])
    ensures
      var line := Redacted(r, fields);
      && (forall k :: k in line <==> k in fields && (r.gps(k) ==> k == "event"))
      && (forall k :: k in line && r.secret(k) ==> line[k] == REDACTED)
      && (forall k :: k in line ==> Clean(r, line[k], MAX_DEPTH + 1))
      && (forall k :: k in line && !r.secret(k) ==> Shows(r, fields[k], 0, line[k]))
      && Redacted(r, line) == line
  {
    var line := Redacted(r, fields);
    forall k | k in line
      ensures Clean(r, line[k], MAX_DEPTH + 1) && (r.secret(k) || Shows(r, fields[k], 0, line[k]))
      ensures k in Redacted(r, line) && Redacted(r, line)[k] == line[k]
    {
      FieldIsClean(r, fields[k]);
    }
  }

  lemma FieldIsClean(r: Rules, v: Value)
    requires Addressable(v)
    ensures Clean(r, Scrubbed(r, v, 0), MAX_DEPTH + 1) && Scrubbed(r, Scrubbed(r, v, 0), 0) == Scrubbed(r, v, 0)
    ensures Clean(r, REDACTED, MAX_DEPTH + 1) && Shows(r, v, 0, Scrubbed(r, v, 0))
  {
    ScrubbedShows(r, v, 0);
    ScrubbedIsClean(r, v, 0);
    ScrubbedTwice(r, v, 0);
  }

  /** Events that differ only in locations, credentials and contents give the
      same line. */
  lemma LineHides(r: Rules, f: map<string, Value>, g: map<string, Value>)
    requires forall k :: k == "event" || !r.gps(k) ==> (k in f <==> k in g)
    requires forall k ::
      k in f && k in g && (k == "event" || !r.gps(k)) && !r.secret(k) ==> AlikeInPublic(r, f[k], g[k])
    ensures Redacted(r, f) == Redacted(r, g)
  {
    forall k | k in f && k in g && (k == "event" || !r.gps(k)) && !r.secret(k) {
      ScrubbedHides(r, f[k], g[k], 0);
    }
  }
}
