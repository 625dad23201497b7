/** Bytes, fixed-width big-endian integers, and the two laws every field of a canonical
    encoding obeys.

    An encoding is described by a pair of functions. `Put(x, k)` is the encoding of `x`
    followed by the bytes `k`; `Get(b)` reads one value off the front of `b` and returns it
    together with the bytes that remain. Writing with a continuation keeps concatenation out
    of the proofs about records: the encoding of a record is a nest of calls. */
module Bytes {

  type Byte = x: int | 0 <= x < 0x100
  type U16 = x: int | 0 <= x < 0x1_0000
  type U32 = x: int | 0 <= x < 0x1_0000_0000
  type U64 = x: int | 0 <= x < 0x1_0000_0000_0000_0000
  type I32 = x: int | -0x8000_0000 <= x < 0x8000_0000
  type Bytes = seq<Byte>

  const U32_MAX: int := 0xffff_ffff
  const U64_MAX: int := 0xffff_ffff_ffff_ffff

  datatype Option<+T> = None | Some(value: T) {
    predicate IsFailure() {
      None?
    }

    function PropagateFailure<U>(): Option<U>
      requires None?
    {
      None
    }

    function Extract(): T
      requires Some?
    {
      value
    }
  }

  type Parsed<+T> = Option<(T, Bytes)>
  type Getter<!T> = Bytes -> Parsed<T>
  type Putter<!T> = (T, Bytes) -> Bytes

  // ---------------------------------------------------------------- the two laws

  /** Whatever is read was written in exactly one way: `get` accepts only images of `put`. */
  ghost predicate Sound<T(!new)>(ok: T -> bool, put: Putter<T>, get: Getter<T>) {
    forall b :: get(b).Some? ==> ok(get(b).value.0) && b == put(get(b).value.0, get(b).value.1)
  }

  /** Whatever is written is read back, and nothing after it is touched. */
  ghost predicate Complete<T(!new)>(ok: T -> bool, put: Putter<T>, get: Getter<T>) {
    forall x, k :: ok(x) ==> get(put(x, k)) == Some((x, k))
  }

  /** Every successful read consumes at least `size` bytes. */
  ghost predicate Consumes<T(!new)>(get: Getter<T>, size: nat) {
    forall b :: get(b).Some? ==> |b| >= size + |get(b).value.1|
  }

  ghost predicate Lawful<T(!new)>(ok: T -> bool, put: Putter<T>, get: Getter<T>, size: nat) {
    Sound(ok, put, get) && Complete(ok, put, get) && Consumes(get, size)
  }

  /** A stateful reader that returned `r` and left `rest` agrees with the functional result. */
  predicate Agrees<T(==)>(spec: Parsed<T>, r: Option<T>, rest: Bytes) {
    match spec
    case None => r.None?
    case Some((x, k)) => r == Some(x) && rest == k
  }

  // ---------------------------------------------------------------- big-endian integers

  function Pow256(n: nat): (p: nat)
    ensures p > 0
  {
    if n == 0 then 1 else 256 * Pow256(n - 1)
  }

  /** The value of a big-endian byte string. */
  function FromBE(bs: Bytes): (v: nat)
    ensures v < Pow256(|bs|)
  {
    if |bs| == 0 then 0 else FromBE(bs[..|bs| - 1]) * 256 + bs[|bs| - 1]
  }

  /** The low `n` bytes of `v`, most significant first. */
  function ToBE(v: nat, n: nat): (bs: Bytes)
    ensures |bs| == n
  {
    if n == 0 then [] else ToBE(v / 256, n - 1) + [v % 256]
  }

  lemma {:induction false} FromToBE(v: nat, n: nat)
    requires v < Pow256(n)
    ensures FromBE(ToBE(v, n)) == v
  {
    if n > 0 {
      assert ToBE(v, n)[..n - 1] == ToBE(v / 256, n - 1);
      FromToBE(v / 256, n - 1);
    }
  }

  lemma {:induction false} ToFromBE(bs: Bytes)
    ensures ToBE(FromBE(bs), |bs|) == bs
  {
    if |bs| > 0 {
      ToFromBE(bs[..|bs| - 1]);
    }
  }

  lemma WidthFacts()
    ensures Pow256(1) == 0x100 && Pow256(2) == 0x1_0000
    ensures Pow256(4) == 0x1_0000_0000 && Pow256(8) == 0x1_0000_0000_0000_0000
  {
    assert Pow256(4) == 256 * (256 * (256 * (256 * Pow256(0))));
    assert Pow256(8) == 256 * (256 * (256 * (256 * Pow256(4))));
  }

  function PutInt(n: nat, v: nat, k: Bytes): Bytes {
    ToBE(v, n) + k
  }

  function GetInt(n: nat, b: Bytes): (r: Parsed<nat>)
    ensures r.Some? ==> r.value.0 < Pow256(n) && b == PutInt(n, r.value.0, r.value.1)
    ensures r.Some? <==> n <= |b|
    ensures r.Some? ==> r.value.1 == b[n..]
  {
    if |b| < n then None else
      ToFromBE(b[..n]);
      Some((FromBE(b[..n]), b[n..]))
  }

  lemma IntComplete(n: nat, v: nat, k: Bytes)
    requires v < Pow256(n)
    ensures GetInt(n, PutInt(n, v, k)) == Some((v, k))
  {
    FromToBE(v, n);
    assert PutInt(n, v, k)[..n] == ToBE(v, n);
    assert PutInt(n, v, k)[n..] == k;
  }

  // ---------------------------------------------------------------- fixed-width fields

  function PutU8(v: Byte, k: Bytes): Bytes {
    [v] + k
  }

  function GetU8(b: Bytes): (r: Parsed<Byte>)
    ensures r.Some? ==> b == PutU8(r.value.0, r.value.1)
    ensures r.Some? ==> |b| == 1 + |r.value.1|
  {
    if |b| == 0 then None else Some((b[0], b[1..]))
  }

  function PutU32(v: U32, k: Bytes): Bytes {
    PutInt(4, v, k)
  }

  function GetU32(b: Bytes): (r: Parsed<U32>)
    ensures r.Some? ==> b == PutU32(r.value.0, r.value.1)
    ensures r.Some? <==> |b| >= 4
    ensures r.Some? ==> |b| == 4 + |r.value.1|
  {
    WidthFacts();
    GetInt(4, b)
  }

  function PutU64(v: U64, k: Bytes): Bytes {
    PutInt(8, v, k)
  }

  function GetU64(b: Bytes): (r: Parsed<U64>)
    ensures r.Some? ==> b == PutU64(r.value.0, r.value.1)
    ensures r.Some? <==> |b| >= 8
    ensures r.Some? ==> |b| == 8 + |r.value.1|
  {
    WidthFacts();
    GetInt(8, b)
  }

  /** Two's complement: the cast from a signed to an unsigned 32-bit integer. */
  function BitsOfI32(v: I32): U32 {
    if v < 0 then v + 0x1_0000_0000 else v
  }

  function I32OfBits(v: U32): (r: I32)
    ensures BitsOfI32(r) == v
  {
    if v < 0x8000_0000 then v else v - 0x1_0000_0000
  }

  function PutI32(v: I32, k: Bytes): Bytes {
    PutU32(BitsOfI32(v), k)
  }

  function GetI32(b: Bytes): (r: Parsed<I32>)
    ensures r.Some? ==> b == PutI32(r.value.0, r.value.1)
    ensures r.Some? ==> |b| == 4 + |r.value.1|
  {
    match GetU32(b)
    case None => None
    case Some((v, k)) => Some((I32OfBits(v), k))
  }

  function PutBool(v: bool, k: Bytes): Bytes {
    PutU8(if v then 1 else 0, k)
  }

  function GetBool(b: Bytes): (r: Parsed<bool>)
    ensures r.Some? ==> b == PutBool(r.value.0, r.value.1)
    ensures r.Some? ==> |b| == 1 + |r.value.1|
  {
    match GetU8(b)
    case None => None
    case Some((v, k)) => if v > 1 then None else Some((v == 1, k))
  }

  /** Fixed-width fields are read back whatever follows them. */
  lemma FieldsComplete()
    ensures forall v: Byte, k {:trigger PutU8(v, k)} :: GetU8(PutU8(v, k)) == Some((v, k))
    ensures forall v: U32, k {:trigger PutU32(v, k)} :: GetU32(PutU32(v, k)) == Some((v, k))
    ensures forall v: U64, k {:trigger PutU64(v, k)} :: GetU64(PutU64(v, k)) == Some((v, k))
    ensures forall v: I32, k {:trigger PutI32(v, k)} :: GetI32(PutI32(v, k)) == Some((v, k))
    ensures forall v: bool, k {:trigger PutBool(v, k)} :: GetBool(PutBool(v, k)) == Some((v, k))
  {
    WidthFacts();
    forall v: Byte, k ensures GetU8(PutU8(v, k)) == Some((v, k)) {
      assert PutU8(v, k)[1..] == k;
    }
    forall v: U32, k ensures GetU32(PutU32(v, k)) == Some((v, k)) {
      IntComplete(4, v, k);
    }
    forall v: U64, k ensures GetU64(PutU64(v, k)) == Some((v, k)) {
      IntComplete(8, v, k);
    }
  }

  // ---------------------------------------------------------------- optional fields

  function PutOpt<T>(put: Putter<T>, v: Option<T>, k: Bytes): Bytes {
    match v
    case None => PutU8(0, k)
    case Some(x) => PutU8(1, put(x, k))
  }

  function GetOpt<T>(get: Getter<T>, b: Bytes): Parsed<Option<T>> {
    match GetU8(b)
    case None => None
    case Some((flag, k)) =>
      if flag > 1 then None
      else if flag == 0 then Some((None, k))
      else match get(k)
        case None => None
        case Some((x, k2)) => Some((Some(x), k2))
  }

  predicate OptOk<T>(ok: T -> bool, v: Option<T>) {
    v.Some? ==> ok(v.value)
  }

  // ---------------------------------------------------------------- repeated fields

  function PutMany<T>(put: Putter<T>, xs: seq<T>, k: Bytes): Bytes {
    if |xs| == 0 then k else put(xs[0], PutMany(put, xs[1..], k))
  }

  function GetMany<T>(get: Getter<T>, n: nat, b: Bytes): (r: Parsed<seq<T>>)
    ensures r.Some? ==> |r.value.0| == n
  {
    if n == 0 then Some(([], b)) else
      match get(b)
      case None => None
      case Some((x, k)) =>
        match GetMany(get, n - 1, k)
        case None => None
        case Some((xs, k2)) => Some(([x] + xs, k2))
  }

  predicate AllOk<T>(ok: T -> bool, xs: seq<T>) {
    forall i :: 0 <= i < |xs| ==> ok(xs[i])
  }

  lemma {:induction false} ManySound<T(!new)>(ok: T -> bool, put: Putter<T>, get: Getter<T>, n: nat, b: Bytes)
    requires Sound(ok, put, get)
    ensures var r := GetMany(get, n, b); r.Some? ==> AllOk(ok, r.value.0) && b == PutMany(put, r.value.0, r.value.1)
  {
    if n > 0 && get(b).Some? {
      ManySound(ok, put, get, n - 1, get(b).value.1);
      var rest := GetMany(get, n - 1, get(b).value.1);
      if rest.Some? {
        assert ([get(b).value.0] + rest.value.0)[1..] == rest.value.0;
      }
    }
  }

  lemma {:induction false} ManyComplete<T(!new)>(ok: T -> bool, put: Putter<T>, get: Getter<T>, xs: seq<T>, k: Bytes)
    requires Complete(ok, put, get) && AllOk(ok, xs)
    ensures GetMany(get, |xs|, PutMany(put, xs, k)) == Some((xs, k))
  {
    if |xs| > 0 {
      assert ok(xs[0]);
      ManyComplete(ok, put, get, xs[1..], k);
      assert [xs[0]] + xs[1..] == xs;
    }
  }

  /** A repeated field is at least as long as its elements' shortest encodings together. */
  lemma {:induction false} ManyConsumes<T(!new)>(get: Getter<T>, size: nat, n: nat, b: Bytes)
    requires Consumes(get, size)
    ensures var r := GetMany(get, n, b); r.Some? ==> |b| >= n * size + |r.value.1|
  {
    if n > 0 && get(b).Some? {
      ManyConsumes(get, size, n - 1, get(b).value.1);
      assert n * size == (n - 1) * size + size;
    }
  }

  /** Adjacent elements are related. */
  predicate Ordered<T>(rel: (T, T) -> bool, xs: seq<T>) {
    forall i :: 0 < i < |xs| ==> rel(xs[i - 1], xs[i])
  }

  predicate ListOk<T>(ok: T -> bool, rel: (T, T) -> bool, xs: seq<T>) {
    |xs| <= U32_MAX && AllOk(ok, xs) && Ordered(rel, xs)
  }

  /** The count prefix, as the cast to 32 bits writes it. */
  function PutCount(n: nat, k: Bytes): Bytes {
    PutU32(n % 0x1_0000_0000, k)
  }

  function PutList<T>(put: Putter<T>, xs: seq<T>, k: Bytes): Bytes {
    PutCount(|xs|, PutMany(put, xs, k))
  }

  function GetList<T>(get: Getter<T>, rel: (T, T) -> bool, b: Bytes): Parsed<seq<T>> {
    match GetU32(b)
    case None => None
    case Some((n, k)) =>
      match GetMany(get, n, k)
      case None => None
      case Some((xs, k2)) => if Ordered(rel, xs) then Some((xs, k2)) else None
  }

  // ---------------------------------------------------------------- laws of the combinators

  lemma FieldLaws()
    ensures Lawful(AnyOk, PutU8, GetU8, 1) && Lawful(AnyOk, PutU32, GetU32, 4) && Lawful(AnyOk, PutU64, GetU64, 8)
    ensures Lawful(AnyOk, PutI32, GetI32, 4) && Lawful(AnyOk, PutBool, GetBool, 1)
  {
    FieldsComplete();
    hide PutU8, PutU32, PutU64, PutI32, PutBool, GetU8, GetU32, GetU64, GetI32, GetBool;
  }

  predicate AnyOk<T>(x: T) {
    true
  }

  /** The same laws for an optional field. */
  ghost predicate OptLawful<T(!new)>(ok: T -> bool, put: Putter<T>, get: Getter<T>) {
    OptSound(ok, put, get) && OptComplete(ok, put, get)
  }

  ghost predicate OptSound<T(!new)>(ok: T -> bool, put: Putter<T>, get: Getter<T>) {
    forall b {:trigger GetOpt(get, b)} :: GetOpt(get, b).Some? ==>
      && OptOk(ok, GetOpt(get, b).value.0)
      && b == PutOpt(put, GetOpt(get, b).value.0, GetOpt(get, b).value.1)
      && |b| >= 1 + |GetOpt(get, b).value.1|
  }

  ghost predicate OptComplete<T(!new)>(ok: T -> bool, put: Putter<T>, get: Getter<T>) {
    forall x, k {:trigger PutOpt(put, x, k)} :: OptOk(ok, x) ==> GetOpt(get, PutOpt(put, x, k)) == Some((x, k))
  }

  /** The same laws for a repeated field whose elements take at least `size` bytes each. */
  ghost predicate ListLawful<T(!new)>(ok: T -> bool, put: Putter<T>, get: Getter<T>, rel: (T, T) -> bool, size: nat) {
    ListSound(ok, put, get, rel, size) && ListComplete(ok, put, get, rel)
  }

  ghost predicate ListSound<T(!new)>(ok: T -> bool, put: Putter<T>, get: Getter<T>, rel: (T, T) -> bool, size: nat) {
    forall b {:trigger GetList(get, rel, b)} :: GetList(get, rel, b).Some? ==>
      && ListOk(ok, rel, GetList(get, rel, b).value.0)
      && b == PutList(put, GetList(get, rel, b).value.0, GetList(get, rel, b).value.1)
      && |b| >= 4 + |GetList(get, rel, b).value.0| * size + |GetList(get, rel, b).value.1|
  }

  ghost predicate ListComplete<T(!new)>(ok: T -> bool, put: Putter<T>, get: Getter<T>, rel: (T, T) -> bool) {
    forall xs, k {:trigger PutList(put, xs, k)} ::
      ListOk(ok, rel, xs) ==> GetList(get, rel, PutList(put, xs, k)) == Some((xs, k))
  }

  lemma OptReadsBack<T(!new)>(ok: T -> bool, put: Putter<T>, get: Getter<T>, size: nat)
    requires Sound(ok, put, get) && Consumes(get, size)
    ensures OptSound(ok, put, get)
  {
    hide PutU8, GetU8;
  }

  lemma OptIsRead<T(!new)>(ok: T -> bool, put: Putter<T>, get: Getter<T>)
    requires Complete(ok, put, get)
    ensures OptComplete(ok, put, get)
  {
    FieldsComplete();
    hide PutU8, GetU8;
  }

  lemma OptLaws<T(!new)>(ok: T -> bool, put: Putter<T>, get: Getter<T>, size: nat)
    requires Lawful(ok, put, get, size)
    ensures OptLawful(ok, put, get)
  {
    OptReadsBack(ok, put, get, size);
    OptIsRead(ok, put, get);
  }

  lemma OptFieldLaws()
    ensures OptLawful(AnyOk, PutU8, GetU8) && OptLawful(AnyOk, PutU32, GetU32)
    ensures OptLawful(AnyOk, PutU64, GetU64) && OptLawful(AnyOk, PutI32, GetI32)
  {
    FieldLaws();
    OptLaws(AnyOk, PutU8, GetU8, 1);
    OptLaws(AnyOk, PutU32, GetU32, 4);
    OptLaws(AnyOk, PutU64, GetU64, 8);
    OptLaws(AnyOk, PutI32, GetI32, 4);
  }

  lemma ListReadsBack<T(!new)>(ok: T -> bool, put: Putter<T>, get: Getter<T>, rel: (T, T) -> bool, size: nat, b: Bytes)
    requires Lawful(ok, put, get, size) && GetList(get, rel, b).Some?
    ensures var (xs, k) := GetList(get, rel, b).value;
      ListOk(ok, rel, xs) && b == PutList(put, xs, k) && |b| >= 4 + |xs| * size + |k|
  {
    hide PutU32, GetU32;
    var (n, k) := GetU32(b).value;
    ManySound(ok, put, get, n, k);
    ManyConsumes(get, size, n, k);
    assert n % 0x1_0000_0000 == n;
  }

  lemma ListIsRead<T(!new)>(ok: T -> bool, put: Putter<T>, get: Getter<T>, rel: (T, T) -> bool, xs: seq<T>, k: Bytes)
    requires Complete(ok, put, get) && ListOk(ok, rel, xs)
    ensures GetList(get, rel, PutList(put, xs, k)) == Some((xs, k))
  {
    FieldsComplete();
    hide PutU32, GetU32;
    ManyComplete(ok, put, get, xs, k);
    assert |xs| % 0x1_0000_0000 == |xs|;
  }

  lemma ListLaws<T(!new)>(ok: T -> bool, put: Putter<T>, get: Getter<T>, rel: (T, T) -> bool, size: nat)
    requires Lawful(ok, put, get, size)
    ensures ListLawful(ok, put, get, rel, size)
  {
    assert Complete(ok, put, get);
    hide GetList, PutList, ListOk, Lawful, Complete;
    forall b | GetList(get, rel, b).Some?
      ensures var (xs, k) := GetList(get, rel, b).value;
        ListOk(ok, rel, xs) && b == PutList(put, xs, k) && |b| >= 4 + |xs| * size + |k|
    {
      ListReadsBack(ok, put, get, rel, size, b);
    }
    forall xs, k | ListOk(ok, rel, xs) ensures GetList(get, rel, PutList(put, xs, k)) == Some((xs, k)) {
      ListIsRead(ok, put, get, rel, xs, k);
    }
  }
}
