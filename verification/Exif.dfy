/** Turning a camera's EXIF block into a flat map that can be stored. */
module Exif {
  import opened Wrappers
  import opened PyValues
  import opened Marshalling

  const MAX_CHARS: nat := 256
  const MAX_ITEMS: nat := 16
  const GPS_IFD_TAG := 0x8825
  const EXIF_IFD_TAG := 0x8769

  const BLOCKLIST: set<string> := {"MakerNote", "UserComment", "PrintImageMatching", "ImageResources", "XMLPacket"}

  /** What the library decides: the characters `strip` removes, lower case,
      rounding to six places, and the name of a tag. */
  datatype Text = Text(space: char -> bool, lower: string -> string, round6: real -> real, nameOf: int -> string)

  // -- one value -------------------------------------------------------------------

  function WithoutNul(s: string): (r: string)
    ensures '\0' !in r
  {
    if s == [] then [] else (if s[0] == '\0' then [] else [s[0]]) + WithoutNul(s[1..])
  }

  /** `s.strip()` */
  function Strip(t: Text, s: string): string
    decreases |s|
  {
    if s == [] then []
    else if t.space(s[0]) then Strip(t, s[1..])
    else if t.space(s[|s| - 1]) then Strip(t, s[..|s| - 1])
    else s
  }

  /** `_normalise_exif_value`; Null is a value to drop. */
  function Normalised(t: Text, v: Value): Value
    decreases v, 1, 0
  {
    match v
    case Str(s) =>
      var cleaned := Strip(t, WithoutNul(s));
      if cleaned == [] then Null else Str(if |cleaned| > MAX_CHARS then cleaned[..MAX_CHARS] else cleaned)
    case Bool(_) => v
    case Int(_) => v
    case Float(x) => Float(t.round6(x))
    case Rational(n, d) => if d == 0.0 then Null else Float(t.round6(n / d))
    case Tuple(items) => Listed(NormalisedUpTo(t, v, items, if |items| > MAX_ITEMS then MAX_ITEMS else |items|))
    case List(items) => Listed(NormalisedUpTo(t, v, items, if |items| > MAX_ITEMS then MAX_ITEMS else |items|))
    case _ => Null
  }

  function Listed(kept: seq<Value>): Value {
    if kept == [] then Null else List(kept)
  }

  /** The values kept of the first `n` items of `v`. */
  function NormalisedUpTo(t: Text, v: Value, items: seq<Value>, n: nat): seq<Value>
    requires (v.List? || v.Tuple?) && v.items == items && n <= |items|
    decreases v, 0, n
  {
    if n == 0 then []
    else
      var item := Normalised(t, items[n - 1]);
      NormalisedUpTo(t, v, items, n - 1) + if item.Null? then [] else [item]
  }

  // -- what a value becomes ----------------------------------------------------------

  /** Only NUL characters go, each other keeps its place. */
  lemma {:induction false} WithoutNulSnoc(s: string, c: char)
    ensures WithoutNul(s + [c]) == WithoutNul(s) + if c == '\0' then [] else [c]
  {
    var all := s + [c];
    if s == [] {
      assert all == [c] && all[1..] == [];
    } else {
      assert all[0] == s[0] && all[1..] == s[1..] + [c];
      WithoutNulSnoc(s[1..], c);
    }
  }

  /** Spaces alone come before the `i`-th character and from the `k`-th on. */
  ghost predicate Padded(t: Text, s: string, i: nat, k: nat) {
    i <= k <= |s| && forall n :: 0 <= n < i || k <= n < |s| ==> t.space(s[n])
  }

  lemma PaddedInFront(t: Text, s: string, i: nat, k: nat)
    requires s != [] && t.space(s[0]) && Padded(t, s[1..], i, k)
    ensures Padded(t, s, i + 1, k + 1) && s[i + 1..k + 1] == s[1..][i..k]
  {
    assert forall n :: 1 <= n < |s| ==> s[n] == s[1..][n - 1];
  }

  /** `strip` cuts spaces off both ends, and nothing else. */
  lemma {:induction false} StripCuts(t: Text, s: string) returns (i: nat, k: nat)
    ensures Padded(t, s, i, k) && Strip(t, s) == s[i..k]
    ensures i < k ==> !t.space(s[i]) && !t.space(s[k - 1])
    decreases |s|
  {
    i, k := 0, |s|;
    if s == [] {
    } else if t.space(s[0]) {
      i, k := StripCuts(t, s[1..]);
      PaddedInFront(t, s, i, k);
      i, k := i + 1, k + 1;
    } else if t.space(s[|s| - 1]) {
      i, k := StripCuts(t, s[..|s| - 1]);
    }
  }

  /** The items that are not None, in order. */
  function NotNull(items: seq<Value>): seq<Value> {
    if items == [] then [] else (if items[0].Null? then [] else [items[0]]) + NotNull(items[1..])
  }

  lemma {:induction false} NotNullSnoc(items: seq<Value>, item: Value)
    ensures NotNull(items + [item]) == NotNull(items) + if item.Null? then [] else [item]
  {
    if items == [] {
      assert items + [item] == [item] && [item][1..] == [];
    } else {
      assert (items + [item])[0] == items[0] && (items + [item])[1..] == items[1..] + [item];
      NotNullSnoc(items[1..], item);
    }
  }

  lemma {:induction false} NormalisedUpToIs(t: Text, v: Value, items: seq<Value>, n: nat)
    requires (v.List? || v.Tuple?) && v.items == items && n <= |items|
    ensures NormalisedUpTo(t, v, items, n)
         == NotNull(seq(n, i requires 0 <= i < n => Normalised(t, items[i])))
  {
    var each := seq(n, i requires 0 <= i < n => Normalised(t, items[i]));
    if n > 0 {
      NormalisedUpToIs(t, v, items, n - 1);
      var before := seq(n - 1, i requires 0 <= i < n - 1 => Normalised(t, items[i]));
      assert each == before + [Normalised(t, items[n - 1])];
      NotNullSnoc(before, Normalised(t, items[n - 1]));
    }
  }

  /** What is kept of each kind of value: numbers rounded, a rational by its
      quotient, 256 characters of stripped text, what is kept of the first 16
      items of a list; anything else, and whatever is empty, is dropped. */
  lemma NormalisedIs(t: Text, v: Value)
    ensures
      var kept := Normalised(t, v);
      match v
      case Str(s) =>
        var bare := Strip(t, WithoutNul(s));
        kept == if |bare| == 0 then Null else if |bare| <= 256 then Str(bare) else Str(bare[..256])
      case Bool(flag) => kept == Bool(flag)
      case Int(n) => kept == Int(n)
      case Float(x) => kept == Float(t.round6(x))
      case Rational(n, d) => kept == if d == 0.0 then Null else Float(t.round6(n / d))
      case List(items) => kept == KeptOf(t, items)
      case Tuple(items) => kept == KeptOf(t, items)
      case _ => kept == Null
  {
    if v.List? || v.Tuple? {
      NormalisedUpToIs(t, v, v.items, if |v.items| > MAX_ITEMS then MAX_ITEMS else |v.items|);
    }
  }

  ghost function KeptOf(t: Text, items: seq<Value>): Value {
    var n := if |items| <= 16 then |items| else 16;
    var kept := NotNull(seq(n, i requires 0 <= i < n => Normalised(t, items[i])));
    if |kept| == 0 then Null else List(kept)
  }

  /** A value that is safe to store and to log: no None and no bytes at any
      depth, short text without NUL, short non-empty lists. */
  ghost predicate Safe(v: Value) {
    match v
    case Str(s) => 1 <= |s| <= MAX_CHARS && '\0' !in s
    case Bool(_) => true
    case Int(_) => true
    case Float(_) => true
    case List(items) => 1 <= |items| <= MAX_ITEMS && forall i :: 0 <= i < |items| ==> Safe(items[i])
    case _ => false
  }

  lemma {:induction false} NormalisedIsSafe(t: Text, v: Value)
    ensures Normalised(t, v).Null? || Safe(Normalised(t, v))
    decreases v, 1, 0
  {
    match v
    case Str(s) =>
      var i, k := StripCuts(t, WithoutNul(s));
      assert '\0' !in WithoutNul(s)[i..k];
    case Tuple(items) => KeptAreSafe(t, v, items, if |items| > MAX_ITEMS then MAX_ITEMS else |items|);
    case List(items) => KeptAreSafe(t, v, items, if |items| > MAX_ITEMS then MAX_ITEMS else |items|);
    case _ =>
  }

  lemma {:induction false} KeptAreSafe(t: Text, v: Value, items: seq<Value>, n: nat)
    requires (v.List? || v.Tuple?) && v.items == items && n <= |items|
    ensures var kept := NormalisedUpTo(t, v, items, n); |kept| <= n && forall i :: 0 <= i < |kept| ==> Safe(kept[i])
    decreases v, 0, n
  {
    if n > 0 {
      KeptAreSafe(t, v, items, n - 1);
      NormalisedIsSafe(t, items[n - 1]);
    }
  }

  /** Storage leaves a safe value safe, and loses nothing of it but the way its
      numbers are held. */
  lemma {:induction false} SafeIsPlain(f: Floats, v: Value)
    requires Safe(v)
    ensures Plain(v) == v && Safe(Norm(f, v))
  {
    if v.List? {
      forall i | 0 <= i < |v.items| { SafeIsPlain(f, v.items[i]); }
      assert Plain(v).items == v.items;
    }
  }

  // -- the whole block ----------------------------------------------------------------

  datatype Tag = Tag(id: int, value: Value)

  /** A name under which location data or an opaque block would be filed. */
  predicate Excluded(t: Text, name: string) {
    name in BLOCKLIST || "gps" <= t.lower(name)
  }

  predicate Absorbs(t: Text, tag: Tag) {
    && tag.id != GPS_IFD_TAG && tag.id != EXIF_IFD_TAG
    && !Excluded(t, t.nameOf(tag.id)) && !Normalised(t, tag.value).Null?
  }

  /** The last tag of that name worth keeping, if any. */
  function LastFor(t: Text, tags: seq<Tag>, name: string): Option<Value> {
    if tags == [] then None
    else
      var last := tags[|tags| - 1];
      if Absorbs(t, last) && t.nameOf(last.id) == name then Some(Normalised(t, last.value))
      else LastFor(t, tags[..|tags| - 1], name)
  }

  /** A tag that is filed under `name`: no pointer to a sub-block, no location, no
      opaque blob, and something to keep. */
  ghost predicate FiledUnder(t: Text, tag: Tag, name: string) {
    && tag.id != 0x8825 && tag.id != 0x8769 && t.nameOf(tag.id) == name
    && name !in {"MakerNote", "UserComment", "PrintImageMatching", "ImageResources", "XMLPacket"}
    && !("gps" <= t.lower(name)) && !Normalised(t, tag.value).Null?
  }

  lemma {:induction false} LastForIs(t: Text, tags: seq<Tag>, name: string) returns (i: nat)
    ensures LastFor(t, tags, name).None? ==> forall k :: 0 <= k < |tags| ==> !FiledUnder(t, tags[k], name)
    ensures LastFor(t, tags, name).Some? ==>
      && i < |tags| && FiledUnder(t, tags[i], name) && LastFor(t, tags, name).value == Normalised(t, tags[i].value)
      && forall k :: i < k < |tags| ==> !FiledUnder(t, tags[k], name)
  {
    i := 0;
    if tags != [] {
      var n := |tags| - 1;
      i := LastForIs(t, tags[..n], name);
      if FiledUnder(t, tags[n], name) { i := n; }
      assert forall k :: 0 <= k < n ==> tags[..n][k] == tags[k];
    }
  }

  function Lookup(m: map<string, Value>, name: string): Option<Value> {
    if name in m then Some(m[name]) else None
  }

  function Or<T>(a: Option<T>, b: Option<T>): Option<T> {
    if a.Some? then a else b
  }

  method Absorb(t: Text, source: seq<Tag>, before: map<string, Value>) returns (result: map<string, Value>)
    ensures forall name :: Lookup(result, name) == Or(LastFor(t, source, name), Lookup(before, name))
  {
    result := before;
    for i := 0 to |source|
      invariant forall name :: Lookup(result, name) == Or(LastFor(t, source[..i], name), Lookup(before, name))
    {
      var tag := source[i];
      assert source[..i + 1][..i] == source[..i];
      if tag.id == GPS_IFD_TAG || tag.id == EXIF_IFD_TAG { continue; }
      var name := t.nameOf(tag.id);
      if name in BLOCKLIST || "gps" <= t.lower(name) { continue; }
      var normalised := Normalised(t, tag.value);
      if !normalised.Null? { result := result[name := normalised]; }
    }
    assert source[..|source|] == source;
  }

  /** Each name holds the last value worth keeping, first of the sub-block, then
      of the block itself; a block that cannot be read counts as empty. */
  method ExtractExif(t: Text, raw: Option<seq<Tag>>, exifIfd: Option<seq<Tag>>) returns (result: map<string, Value>)
    ensures raw.None? || raw.value == [] ==> result == map[]
    ensures raw.Some? && raw.value != [] ==>
      forall name ::
        var inner := if exifIfd.Some? then LastFor(t, exifIfd.value, name) else None;
        Lookup(result, name) == if inner.Some? then inner else LastFor(t, raw.value, name)
    ensures forall name :: name in result ==>
      && name !in {"MakerNote", "UserComment", "PrintImageMatching", "ImageResources", "XMLPacket"}
      && !("gps" <= t.lower(name)) && Safe(result[name])
  {
    result := map[];
    if raw.None? || raw.value == [] { return; }
    result := Absorb(t, raw.value, result);
    if exifIfd.Some? && exifIfd.value != [] { result := Absorb(t, exifIfd.value, result); }
    forall name | name in result ensures !Excluded(t, name) && Safe(result[name]) {
      assert Lookup(result, name) == Some(result[name]);
      LastIsSafe(t, raw.value, name);
      if exifIfd.Some? { LastIsSafe(t, exifIfd.value, name); }
    }
  }

  lemma {:induction false} LastIsSafe(t: Text, tags: seq<Tag>, name: string)
    ensures LastFor(t, tags, name).Some? ==> !Excluded(t, name) && Safe(LastFor(t, tags, name).value)
  {
    if tags != [] {
      NormalisedIsSafe(t, tags[|tags| - 1].value);
      LastIsSafe(t, tags[..|tags| - 1], name);
    }
  }

  // -- and its storage ---------------------------------------------------------------

  /** The map as the table holds it. */
  function AsDict(exif: map<string, Value>, names: seq<string>): Value
    requires forall i :: 0 <= i < |names| ==> names[i] in exif
  {
    Dict(seq(|names|, i requires 0 <= i < |names| => Entry(names[i], exif[names[i]])))
  }

  /** An extracted map comes back with all its names, every value safe, and equal
      to what was stored exactly if its floats are exact. */
  lemma ExifSurvives(f: Floats, exif: map<string, Value>, names: seq<string>)
    requires forall i :: 0 <= i < |names| ==> names[i] in exif && Safe(exif[names[i]])
    requires Readable(f, AsDict(exif, names))
    ensures
      var stored := AsDict(exif, names);
      var back := RoundTrip(f, stored);
      && back.Dict? && |back.entries| == |names|
      && (forall i :: 0 <= i < |names| ==> back.entries[i].key == names[i] && Safe(back.entries[i].value))
      && (Equal(stored, back) <==> Exact(f, stored))
  {
    var stored := AsDict(exif, names);
    forall i | 0 <= i < |names| ensures Plain(exif[names[i]]) == exif[names[i]] && Safe(Norm(f, exif[names[i]])) {
      SafeIsPlain(f, exif[names[i]]);
    }
    PresentIsAll(stored.entries);
    assert Plain(stored).entries == stored.entries;
    EqualIff(f, stored);
    RoundTripIsNorm(f, stored);
  }
}
