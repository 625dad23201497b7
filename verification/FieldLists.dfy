/** What is on the wire, said as a list of fields: numbers of a width, most significant byte
    first, and texts after their length. A list of fields has one spelling. */
module FieldLists {
  import opened Bytes
  import opened Text

  datatype Field = Number(width: nat, value: int) | Name(text: Bytes)

  function Size(f: Field): nat {
    match f
    case Number(width, _) => width
    case Name(text) => 4 + |text|
  }

  /** The bytes begin with the field. */
  predicate Opens(b: Bytes, f: Field)
    ensures Opens(b, f) ==> Size(f) <= |b|
  {
    match f
    case Number(width, value) => width <= |b| && FromBE(b[..width]) == value
    case Name(text) => 4 <= |b| && FromBE(b[..4]) == |text| && text <= b[4..]
  }

  /** The bytes are the fields, one after another, and then the rest. */
  predicate Spells(b: Bytes, fields: seq<Field>, rest: Bytes) {
    if fields == [] then b == rest
    else Opens(b, fields[0]) && Spells(b[Size(fields[0])..], fields[1..], rest)
  }

  lemma {:induction false} SpelledInTurn(b: Bytes, f: seq<Field>, m: Bytes, g: seq<Field>, rest: Bytes)
    requires Spells(b, f, m) && Spells(m, g, rest)
    ensures Spells(b, f + g, rest)
  {
    if f == [] {
      assert f + g == g;
    } else {
      SpelledInTurn(b[Size(f[0])..], f[1..], m, g, rest);
      assert (f + g)[1..] == f[1..] + g;
    }
  }

  lemma InTurn()
    ensures forall b: Bytes, f: seq<Field>, m: Bytes, g: seq<Field>, rest: Bytes
      {:trigger Spells(b, f, m), Spells(m, g, rest), f + g} ::
      Spells(b, f, m) && Spells(m, g, rest) ==> Spells(b, f + g, rest)
  {
    forall b: Bytes, f: seq<Field>, m: Bytes, g: seq<Field>, rest: Bytes | Spells(b, f, m) && Spells(m, g, rest)
      ensures Spells(b, f + g, rest)
    {
      SpelledInTurn(b, f, m, g, rest);
    }
  }

  lemma SameOpening(b: Bytes, c: Bytes, f: Field)
    requires Opens(b, f) && Opens(c, f)
    ensures b[..Size(f)] == c[..Size(f)]
  {
    match f
    case Number(width, _) =>
      ToFromBE(b[..width]);
      ToFromBE(c[..width]);
    case Name(text) =>
      ToFromBE(b[..4]);
      ToFromBE(c[..4]);
      assert b[..4 + |text|] == b[..4] + b[4..][..|text|];
      assert c[..4 + |text|] == c[..4] + c[4..][..|text|];
  }

  /** A list of fields has one spelling. */
  lemma {:induction false} OneSpelling(b: Bytes, c: Bytes, fields: seq<Field>, rest: Bytes)
    requires Spells(b, fields, rest) && Spells(c, fields, rest)
    ensures b == c
  {
    if fields != [] {
      var n := Size(fields[0]);
      SameOpening(b, c, fields[0]);
      OneSpelling(b[n..], c[n..], fields[1..], rest);
      assert b == b[..n] + b[n..] && c == c[..n] + c[n..];
    }
  }

  // ---------------------------------------------------------------- fields of values

  function One(v: Byte): seq<Field> {
    [Number(1, v)]
  }

  function Four(v: U32): seq<Field> {
    [Number(4, v)]
  }

  function Eight(v: U64): seq<Field> {
    [Number(8, v)]
  }

  /** Negative numbers wrap around. */
  function Signed(v: I32): seq<Field> {
    [Number(4, v % 0x1_0000_0000)]
  }

  function Flag(v: bool): seq<Field> {
    [Number(1, if v then 1 else 0)]
  }

  function Named(s: Bytes): seq<Field> {
    [Name(s)]
  }

  /** A byte says whether the value is there. */
  function Maybe<T>(fields: T -> seq<Field>, v: Option<T>): seq<Field> {
    match v
    case None => [Number(1, 0)]
    case Some(x) => [Number(1, 1)] + fields(x)
  }

  function Each<T>(fields: T -> seq<Field>, xs: seq<T>): seq<Field> {
    if xs == [] then [] else fields(xs[0]) + Each(fields, xs[1..])
  }

  /** The number of elements, then the elements. */
  function Listed<T>(fields: T -> seq<Field>, xs: seq<T>): seq<Field> {
    [Number(4, |xs|)] + Each(fields, xs)
  }

  // ---------------------------------------------------------------- what the writers spell

  lemma NumberSpelled(width: nat, v: nat, k: Bytes)
    requires v < Pow256(width)
    ensures Spells(ToBE(v, width) + k, [Number(width, v)], k)
  {
    FromToBE(v, width);
    var b := ToBE(v, width) + k;
    assert b[..width] == ToBE(v, width) && b[width..] == k;
    assert Spells(b[width..], [Number(width, v)][1..], k);
  }

  lemma NameSpelled(s: Bytes, k: Bytes)
    requires |s| <= U32_MAX
    ensures Spells(PutString(s, k), [Name(s)], k)
  {
    WidthFacts();
    FromToBE(|s|, 4);
    var size := ToBE(|s|, 4);
    hide ToBE, FromBE;
    var b := PutString(s, k);
    assert b == size + (s + k);
    assert b[..4] == size && b[4..] == s + k && b[4 + |s|..] == k;
    assert Spells(b[4 + |s|..], [Name(s)][1..], k);
  }

  lemma FieldsSpelled()
    ensures forall v: Byte, k {:trigger PutU8(v, k)} :: Spells(PutU8(v, k), One(v), k)
    ensures forall v: U32, k {:trigger PutU32(v, k)} :: Spells(PutU32(v, k), Four(v), k)
    ensures forall v: U64, k {:trigger PutU64(v, k)} :: Spells(PutU64(v, k), Eight(v), k)
    ensures forall v: I32, k {:trigger PutI32(v, k)} :: Spells(PutI32(v, k), Signed(v), k)
    ensures forall v: bool, k {:trigger PutBool(v, k)} :: Spells(PutBool(v, k), Flag(v), k)
    ensures forall s: Bytes, k {:trigger PutString(s, k)} :: |s| <= U32_MAX ==> Spells(PutString(s, k), Named(s), k)
    ensures forall n: nat, k {:trigger PutCount(n, k)} :: n <= U32_MAX ==> Spells(PutCount(n, k), [Number(4, n)], k)
  {
    hide Spells;
    WidthFacts();
    forall v: Byte, k ensures Spells(PutU8(v, k), One(v), k) {
      NumberSpelled(1, v, k);
      assert ToBE(v, 1) == [v];
    }
    forall v: U32, k ensures Spells(PutU32(v, k), Four(v), k) {
      NumberSpelled(4, v, k);
    }
    forall v: U64, k ensures Spells(PutU64(v, k), Eight(v), k) {
      NumberSpelled(8, v, k);
    }
    forall s: Bytes, k | |s| <= U32_MAX ensures Spells(PutString(s, k), Named(s), k) {
      NameSpelled(s, k);
    }
    hide ToBE, FromBE;
  }

  /** A writer spells the fields of every value it is meant for. */
  ghost predicate Spelled<T(!new)>(ok: T -> bool, put: Putter<T>, fields: T -> seq<Field>) {
    forall x, k :: ok(x) ==> Spells(put(x, k), fields(x), k)
  }

  ghost predicate OptSpelled<T(!new)>(ok: T -> bool, put: Putter<T>, fields: T -> seq<Field>) {
    forall x, k {:trigger PutOpt(put, x, k)} :: OptOk(ok, x) ==> Spells(PutOpt(put, x, k), Maybe(fields, x), k)
  }

  ghost predicate ListSpelled<T(!new)>(ok: T -> bool, put: Putter<T>, fields: T -> seq<Field>) {
    forall xs, k {:trigger PutList(put, xs, k)} ::
      |xs| <= U32_MAX && AllOk(ok, xs) ==> Spells(PutList(put, xs, k), Listed(fields, xs), k)
  }

  lemma MaybeSpelled<T(!new)>(ok: T -> bool, put: Putter<T>, fields: T -> seq<Field>)
    requires Spelled(ok, put, fields)
    ensures OptSpelled(ok, put, fields)
  {
    FieldsSpelled();
    InTurn();
    hide Spells, PutU8, PutCount;
  }

  lemma {:induction false} EachSpelled<T(!new)>(ok: T -> bool, put: Putter<T>, fields: T -> seq<Field>, xs: seq<T>,
      k: Bytes)
    requires Spelled(ok, put, fields) && AllOk(ok, xs)
    ensures Spells(PutMany(put, xs, k), Each(fields, xs), k)
  {
    if xs != [] {
      assert ok(xs[0]);
      EachSpelled(ok, put, fields, xs[1..], k);
      InTurn();
    }
  }

  lemma ManySpelled<T(!new)>(ok: T -> bool, put: Putter<T>, fields: T -> seq<Field>)
    requires Spelled(ok, put, fields)
    ensures ListSpelled(ok, put, fields)
  {
    hide Spells, PutCount, Spelled;
    forall xs, k | |xs| <= U32_MAX && AllOk(ok, xs) ensures Spells(PutList(put, xs, k), Listed(fields, xs), k) {
      EachSpelled(ok, put, fields, xs, k);
      FieldsSpelled();
      InTurn();
    }
  }
}
