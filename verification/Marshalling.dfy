/** Nested values on their way into DynamoDB and back. */
module Marshalling {
  import opened PyValues

  /** `shown(x)` is the decimal that `str` writes for the float `x`; `nearest(d)`
      is the float nearest to the decimal `d`. */
  datatype Floats = Floats(shown: real -> real, nearest: real -> real)

  predicate Whole(x: real) {
    x == x.Floor as real
  }

  /** The entries whose value is not None, in order. */
  function Present(es: seq<Entry>): (r: seq<Entry>)
    ensures |r| <= |es|
    ensures forall i :: 0 <= i < |r| ==> r[i] in es && !r[i].value.Null?
  {
    if es == [] then []
    else if es[0].value.Null? then Present(es[1..])
    else [es[0]] + Present(es[1..])
  }

  lemma {:induction false} PresentIsAll(es: seq<Entry>)
    requires forall i :: 0 <= i < |es| ==> !es[i].value.Null?
    ensures Present(es) == es
  {
    if es != [] { PresentIsAll(es[1..]); }
  }

  /** Only the None entries go, each other keeps its place. */
  lemma {:induction false} PresentSnoc(es: seq<Entry>, e: Entry)
    ensures Present(es + [e]) == Present(es) + if e.value.Null? then [] else [e]
  {
    var all := es + [e];
    if es == [] {
      assert all == [e] && all[1..] == [];
    } else {
      assert all[0] == es[0] && all[1..] == es[1..] + [e];
      PresentSnoc(es[1..], e);
    }
  }

  /** `_to_dynamo` */
  function ToDynamo(f: Floats, v: Value): Value {
    match v
    case Float(x) => Decimal(f.shown(x))
    case Dict(es) =>
      var kept := Present(es);
      Dict(seq(|kept|, i requires 0 <= i < |kept| => Entry(kept[i].key, ToDynamo(f, kept[i].value))))
    case List(items) => List(seq(|items|, i requires 0 <= i < |items| => ToDynamo(f, items[i])))
    case Tuple(items) => List(seq(|items|, i requires 0 <= i < |items| => ToDynamo(f, items[i])))
    case _ => v
  }

  /** What the table accepts: no float and no tuple at any depth, and no entry
      that is None. */
  ghost predicate Storable(w: Value) {
    match w
    case Float(_) => false
    case Tuple(_) => false
    case Dict(es) => forall i :: 0 <= i < |es| ==> !es[i].value.Null? && Storable(es[i].value)
    case List(items) => forall i :: 0 <= i < |items| ==> Storable(items[i])
    case _ => true
  }

  /** `w` says the same as `v`: each float is the decimal it is written as, each
      entry that is not None is there under its key, each item in its place, and
      all else is as it was. */
  ghost predicate Represents(f: Floats, v: Value, w: Value) {
    match v
    case Float(x) => w == Decimal(f.shown(x))
    case Dict(es) =>
      var kept := Present(es);
      && w.Dict? && |w.entries| == |kept|
      && forall i :: 0 <= i < |kept| ==>
           w.entries[i].key == kept[i].key && Represents(f, kept[i].value, w.entries[i].value)
    case List(items) =>
      w.List? && |w.items| == |items| && forall i :: 0 <= i < |items| ==> Represents(f, items[i], w.items[i])
    case Tuple(items) =>
      w.List? && |w.items| == |items| && forall i :: 0 <= i < |items| ==> Represents(f, items[i], w.items[i])
    case _ => w == v
  }

  /** Whatever is written is acceptable, and says the same. */
  lemma {:induction false} ToDynamoWrites(f: Floats, v: Value)
    ensures Storable(ToDynamo(f, v)) && Represents(f, v, ToDynamo(f, v))
    ensures ToDynamo(f, v).Null? <==> v.Null?
  {
    match v
    case Dict(es) =>
      var kept := Present(es);
      forall i | 0 <= i < |kept| { ToDynamoWrites(f, kept[i].value); }
    case List(items) => forall i | 0 <= i < |items| { ToDynamoWrites(f, items[i]); }
    case Tuple(items) => forall i | 0 <= i < |items| { ToDynamoWrites(f, items[i]); }
    case _ =>
  }

  /** What the resource API reads back for what was put: every number comes as a
      decimal. */
  function Kept(v: Value): Value {
    match v
    case Int(n) => Decimal(n as real)
    case Dict(es) => Dict(seq(|es|, i requires 0 <= i < |es| => Entry(es[i].key, Kept(es[i].value))))
    case List(items) => List(seq(|items|, i requires 0 <= i < |items| => Kept(items[i])))
    case _ => v
  }

  /** `r` is `w` with each whole number as a decimal. */
  ghost predicate InDecimals(w: Value, r: Value) {
    match w
    case Int(n) => r == Decimal(n as real)
    case Dict(es) =>
      && r.Dict? && |r.entries| == |es|
      && forall i :: 0 <= i < |es| ==> r.entries[i].key == es[i].key && InDecimals(es[i].value, r.entries[i].value)
    case List(items) =>
      r.List? && |r.items| == |items| && forall i :: 0 <= i < |items| ==> InDecimals(items[i], r.items[i])
    case _ => r == w
  }

  lemma {:induction false} KeptInDecimals(w: Value)
    ensures InDecimals(w, Kept(w))
  {
    match w
    case Dict(es) => forall i | 0 <= i < |es| { KeptInDecimals(es[i].value); }
    case List(items) => forall i | 0 <= i < |items| { KeptInDecimals(items[i]); }
    case _ =>
  }

  /** `_from_dynamo` */
  function FromDynamo(f: Floats, v: Value): Value {
    match v
    case Decimal(x) => if Whole(x) then Int(x.Floor) else Float(f.nearest(x))
    case Dict(es) => Dict(seq(|es|, i requires 0 <= i < |es| => Entry(es[i].key, FromDynamo(f, es[i].value))))
    case List(items) => List(seq(|items|, i requires 0 <= i < |items| => FromDynamo(f, items[i])))
    case _ => v
  }

  function RoundTrip(f: Floats, v: Value): Value {
    FromDynamo(f, Kept(ToDynamo(f, v)))
  }

  // -- what a round trip gives ------------------------------------------------------

  /** Every float of the value is a real float: the decimal written for it reads
      back as itself. */
  ghost predicate Readable(f: Floats, v: Value) {
    match v
    case Float(x) => f.nearest(f.shown(x)) == x
    case Decimal(_) => false
    case Dict(es) => forall i :: 0 <= i < |es| ==> Readable(f, es[i].value)
    case List(items) => forall i :: 0 <= i < |items| ==> Readable(f, items[i])
    case Tuple(items) => forall i :: 0 <= i < |items| ==> Readable(f, items[i])
    case _ => true
  }

  /** The normal form: no None in a dict, lists for tuples, an int for every
      float that is written like one. */
  function Norm(f: Floats, v: Value): Value {
    match v
    case Float(x) => if Whole(f.shown(x)) then Int(f.shown(x).Floor) else v
    case Dict(es) =>
      var kept := Present(es);
      Dict(seq(|kept|, i requires 0 <= i < |kept| => Entry(kept[i].key, Norm(f, kept[i].value))))
    case List(items) => List(seq(|items|, i requires 0 <= i < |items| => Norm(f, items[i])))
    case Tuple(items) => List(seq(|items|, i requires 0 <= i < |items| => Norm(f, items[i])))
    case _ => v
  }

  lemma {:induction false} RoundTripIsNorm(f: Floats, v: Value)
    requires Readable(f, v)
    ensures RoundTrip(f, v) == Norm(f, v)
  {
    match v
    case Dict(es) =>
      var kept := Present(es);
      forall i | 0 <= i < |kept| ensures RoundTrip(f, kept[i].value) == Norm(f, kept[i].value) {
        RoundTripIsNorm(f, kept[i].value);
      }
      assert RoundTrip(f, v).entries == Norm(f, v).entries;
    case List(items) =>
      forall i | 0 <= i < |items| { RoundTripIsNorm(f, items[i]); }
      assert RoundTrip(f, v).items == Norm(f, v).items;
    case Tuple(items) =>
      forall i | 0 <= i < |items| { RoundTripIsNorm(f, items[i]); }
      assert RoundTrip(f, v).items == Norm(f, v).items;
    case _ =>
  }

  /** Storing a value a second time changes nothing more. */
  lemma {:induction false} NormSurvives(f: Floats, v: Value)
    requires Readable(f, v)
    ensures Readable(f, Norm(f, v)) && RoundTrip(f, Norm(f, v)) == Norm(f, v)
  {
    NormIsNormal(f, v);
    RoundTripIsNorm(f, Norm(f, v));
  }

  lemma {:induction false} NormIsNormal(f: Floats, v: Value)
    requires Readable(f, v)
    ensures Readable(f, Norm(f, v)) && Norm(f, Norm(f, v)) == Norm(f, v) && (Norm(f, v).Null? <==> v.Null?)
  {
    var n := Norm(f, v);
    match v
    case Dict(es) =>
      var kept := Present(es);
      forall i | 0 <= i < |kept|
        ensures Readable(f, n.entries[i].value) && Norm(f, n.entries[i].value) == n.entries[i].value
        ensures !n.entries[i].value.Null?
      {
        NormIsNormal(f, kept[i].value);
      }
      PresentIsAll(n.entries);
      assert Norm(f, n).entries == n.entries;
    case List(items) =>
      forall i | 0 <= i < |items| { NormIsNormal(f, items[i]); }
      assert Norm(f, n).items == n.items;
    case Tuple(items) =>
      forall i | 0 <= i < |items| { NormIsNormal(f, items[i]); }
      assert Norm(f, n).items == n.items;
    case _ =>
  }

  // -- numeric equality --------------------------------------------------------------

  /** The promised answer: the value itself, without None entries and with lists
      for tuples. */
  function Plain(v: Value): Value {
    match v
    case Dict(es) =>
      var kept := Present(es);
      Dict(seq(|kept|, i requires 0 <= i < |kept| => Entry(kept[i].key, Plain(kept[i].value))))
    case List(items) => List(seq(|items|, i requires 0 <= i < |items| => Plain(items[i])))
    case Tuple(items) => List(seq(|items|, i requires 0 <= i < |items| => Plain(items[i])))
    case _ => v
  }

  /** Python's `==` on values of one shape: numbers compare by what they are
      worth. */
  predicate Equal(a: Value, b: Value) {
    match (a, b)
    case (Int(m), Float(y)) => m as real == y
    case (Float(x), Int(n)) => x == n as real
    case (Dict(es), Dict(fs)) =>
      |es| == |fs| && forall i :: 0 <= i < |es| ==> es[i].key == fs[i].key && Equal(es[i].value, fs[i].value)
    case (List(s), List(t)) => |s| == |t| && forall i :: 0 <= i < |s| ==> Equal(s[i], t[i])
    case _ => a == b
  }

  /** No float is written like a whole number that no float is worth. */
  predicate Exact(f: Floats, v: Value) {
    match v
    case Float(x) => Whole(f.shown(x)) ==> f.nearest(f.shown(x)) == f.shown(x)
    case Dict(es) => forall i :: 0 <= i < |es| ==> Exact(f, es[i].value)
    case List(items) => forall i :: 0 <= i < |items| ==> Exact(f, items[i])
    case Tuple(items) => forall i :: 0 <= i < |items| ==> Exact(f, items[i])
    case _ => true
  }

  lemma {:induction false} PresentHasAll(es: seq<Entry>, i: nat)
    requires i < |es| && !es[i].value.Null?
    ensures es[i] in Present(es)
  {
    if i > 0 {
      assert es[1..][i - 1] == es[i];
      PresentHasAll(es[1..], i - 1);
    }
  }

  lemma ExactWherePresent(f: Floats, es: seq<Entry>)
    ensures Exact(f, Dict(es)) <==> Exact(f, Dict(Present(es)))
  {
    forall i | 0 <= i < |es| && Exact(f, Dict(Present(es))) ensures Exact(f, es[i].value) {
      if !es[i].value.Null? { PresentHasAll(es, i); }
    }
  }

  /** A value comes back equal to what was promised exactly if none of its floats
      is written like a whole number it is not worth. */
  lemma {:induction false} EqualIff(f: Floats, v: Value)
    requires Readable(f, v)
    ensures Equal(Plain(v), RoundTrip(f, v)) <==> Exact(f, v)
  {
    RoundTripIsNorm(f, v);
    NormEqualIff(f, v);
  }

  /** One level of the comparison, given the levels below. */
  lemma ItemsEqualIff(f: Floats, items: seq<Value>)
    requires forall i :: 0 <= i < |items| ==> (Equal(Plain(items[i]), Norm(f, items[i])) <==> Exact(f, items[i]))
    ensures Equal(Plain(List(items)), Norm(f, List(items))) <==> Exact(f, List(items))
    ensures Equal(Plain(Tuple(items)), Norm(f, Tuple(items))) <==> Exact(f, Tuple(items))
  {
    var p, n := Plain(List(items)), Norm(f, List(items));
    assert forall i :: 0 <= i < |items| ==> p.items[i] == Plain(items[i]) && n.items[i] == Norm(f, items[i]);
    assert Plain(Tuple(items)) == p && Norm(f, Tuple(items)) == n;
  }

  lemma EntriesEqualIff(f: Floats, es: seq<Entry>)
    requires forall i :: 0 <= i < |Present(es)| ==>
      (Equal(Plain(Present(es)[i].value), Norm(f, Present(es)[i].value)) <==> Exact(f, Present(es)[i].value))
    ensures Equal(Plain(Dict(es)), Norm(f, Dict(es))) <==> Exact(f, Dict(Present(es)))
  {
    var kept, p, n := Present(es), Plain(Dict(es)), Norm(f, Dict(es));
    forall i | 0 <= i < |kept| ensures p.entries[i].key == n.entries[i].key
      && (Equal(p.entries[i].value, n.entries[i].value) <==> Exact(f, kept[i].value))
    {
    }
  }

  lemma {:induction false} NormEqualIff(f: Floats, v: Value)
    requires Readable(f, v)
    ensures Equal(Plain(v), Norm(f, v)) <==> Exact(f, v)
  {
    match v
    case Dict(es) =>
      var kept := Present(es);
      forall i | 0 <= i < |kept| { NormEqualIff(f, kept[i].value); }
      EntriesEqualIff(f, es);
      ExactWherePresent(f, es);
    case List(items) =>
      forall i | 0 <= i < |items| { NormEqualIff(f, items[i]); }
      ItemsEqualIff(f, items);
    case Tuple(items) =>
      forall i | 0 <= i < |items| { NormEqualIff(f, items[i]); }
      ItemsEqualIff(f, items);
    case _ =>
  }

  const TWO_53: int := 0x20_0000_0000_0000

  /** Whole numbers of up to 53 bits are floats, so a float written in that range
      always survives. */
  lemma SmallFloatsSurvive(f: Floats, x: real)
    requires f.nearest(f.shown(x)) == x
    requires forall n: int {:trigger f.nearest(n as real)} ::
      -TWO_53 <= n <= TWO_53 ==> f.nearest(n as real) == n as real
    requires -TWO_53 as real <= f.shown(x) <= TWO_53 as real
    ensures Exact(f, Float(x)) && Equal(Float(x), RoundTrip(f, Float(x)))
  {
    var d := f.shown(x);
    if Whole(d) {
      assert f.nearest(d.Floor as real) == d.Floor as real;
    }
    EqualIff(f, Float(x));
  }

  /** The float nearest to 1e23 is written 1e+23 but is worth less, and comes
      back as a different number. */
  lemma LargeFloatsMayNot(f: Floats)
    requires f.shown(99999999999999991611392.0) == 100000000000000000000000.0
    ensures RoundTrip(f, Float(99999999999999991611392.0)) == Int(100000000000000000000000)
    ensures !Equal(Float(99999999999999991611392.0), RoundTrip(f, Float(99999999999999991611392.0)))
  {
    var d := f.shown(99999999999999991611392.0);
    assert d == 100000000000000000000000 as real;
    assert d.Floor == 100000000000000000000000;
  }
}
