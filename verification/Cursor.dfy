/** The byte cursor both decoders advance, and the bookkeeping of a counted list read. */
module Cursors {
  import opened Bytes
  import opened Text

  // ---------------------------------------------------------------- shifts as arithmetic

  /** Four bytes combined by shifts of 24, 16, 8 and 0 bits. */
  lemma FourBytes(bs: Bytes, a: int, b: int, c: int, d: int)
    requires |bs| == 4 && bs[0] == a && bs[1] == b && bs[2] == c && bs[3] == d
    ensures FromBE(bs) == a * 0x100_0000 + b * 0x1_0000 + c * 0x100 + d
  {
    assert bs[..1][..0] == [] && bs[..2][..1] == bs[..1] && bs[..3][..2] == bs[..2];
    assert FromBE(bs[..1]) == a;
    assert FromBE(bs[..2]) == FromBE(bs[..1]) * 256 + b;
    assert FromBE(bs[..3]) == FromBE(bs[..2]) * 256 + c;
  }

  /** One more byte placed below the ones already read. */
  lemma NextByte(bs: Bytes, i: nat, n: nat)
    requires i < n <= |bs|
    ensures FromBE(bs[..i + 1]) * Pow256(n - i - 1) == FromBE(bs[..i]) * Pow256(n - i) + bs[i] * Pow256(n - i - 1)
  {
    var head, p := FromBE(bs[..i]), Pow256(n - i - 1);
    assert bs[..i + 1][..i] == bs[..i];
    assert FromBE(bs[..i + 1]) == head * 256 + bs[i];
    assert (head * 256 + bs[i]) * p == head * (256 * p) + bs[i] * p;
  }

  class Cursor {
    const bytes: Bytes
    var position: nat

    ghost predicate Valid()
      reads this
    {
      position <= |bytes|
    }

    /** What is still to be read. */
    ghost function Rest(): Bytes
      requires Valid()
      reads this
    {
      bytes[position..]
    }

    constructor (bytes: Bytes)
      ensures Valid() && Rest() == bytes
    {
      this.bytes := bytes;
      position := 0;
    }

    method Remaining() returns (n: nat)
      requires Valid()
      ensures n == |Rest()|
    {
      n := |bytes| - position;
    }

    method End() returns (atEnd: bool)
      requires Valid()
      ensures atEnd <==> Rest() == []
    {
      atEnd := position == |bytes|;
    }

    method U8() returns (r: Option<Byte>)
      requires Valid()
      modifies this
      ensures Valid() && Agrees(GetU8(old(Rest())), r, Rest())
    {
      if position >= |bytes| {
        return None;
      }
      r := Some(bytes[position]);
      position := position + 1;
      assert Rest() == old(Rest())[1..];
    }

    method U32() returns (r: Option<U32>)
      requires Valid()
      modifies this
      ensures Valid() && Agrees(GetU32(old(Rest())), r, Rest())
    {
      if |bytes| - position < 4 {
        return None;
      }
      var b3: int, b2: int := bytes[position], bytes[position + 1];
      var b1: int, b0: int := bytes[position + 2], bytes[position + 3];
      FourBytes(Rest()[..4], b3, b2, b1, b0);
      hide FromBE;
      r := Some(b3 * 0x100_0000 + b2 * 0x1_0000 + b1 * 0x100 + b0);
      position := position + 4;
      assert Rest() == old(Rest())[4..];
    }

    method U64() returns (r: Option<U64>)
      requires Valid()
      modifies this
      ensures Valid() && Agrees(GetU64(old(Rest())), r, Rest())
    {
      if |bytes| - position < 8 {
        return None;
      }
      ghost var before := Rest();
      WidthFacts();
      var value: int, weight: int := 0, 0x1_0000_0000_0000_0000;
      hide FromBE, Pow256;
      EmptyIsZero();
      for i := 0 to 8
        invariant Valid() && bytes[position..] == before[i..]
        invariant weight == Pow256(8 - i)
        invariant value == FromBE(before[..i]) * Pow256(8 - i)
      {
        NextByte(before, i, 8);
        LessWeight(8 - i);
        weight := weight / 0x100;
        assert bytes[position] == before[i];
        value := value + bytes[position] * weight;
        position := position + 1;
      }
      assert before[..8] == before[0..8];
      LastWeight();
      r := Some(value);
    }

    method Text() returns (r: Option<Bytes>)
      requires Valid()
      modifies this
      ensures Valid() && Agrees(GetString(true, old(Rest())), r, Rest())
    {
      hide GetU32;
      var length :- U32();
      if length > |bytes| - position {
        return None;
      }
      ghost var k := Rest();
      var value := bytes[position..position + length];
      assert value == k[..length];
      position := position + length;
      assert Rest() == k[length..];
      var valid := ValidUtf8(value);
      return if valid then Some(value) else None;
    }

    /** A length-prefixed byte string that need not be text. */
    method Raw() returns (r: Option<Bytes>)
      requires Valid()
      modifies this
      ensures Valid() && Agrees(GetString(false, old(Rest())), r, Rest())
    {
      hide GetU32;
      var length :- U32();
      if length > |bytes| - position {
        return None;
      }
      ghost var k := Rest();
      r := Some(bytes[position..position + length]);
      assert r.value == k[..length];
      position := position + length;
      assert Rest() == k[length..];
    }

    /** A presence flag: 0 or 1. */
    method Flag() returns (r: Option<bool>)
      requires Valid()
      modifies this
      ensures Valid() && Agrees(GetBool(old(Rest())), r, Rest())
    {
      hide GetU8;
      var encoded :- U8();
      return if encoded > 1 then None else Some(encoded == 1);
    }

    method OptionalU8() returns (r: Option<Option<Byte>>)
      requires Valid()
      modifies this
      ensures Valid() && Agrees(GetOpt(GetU8, old(Rest())), r, Rest())
    {
      hide GetU8;
      var flag :- U8();
      if flag > 1 {
        return None;
      }
      if flag == 0 {
        return Some(None);
      }
      var value :- U8();
      return Some(Some(value));
    }

    method OptionalU32() returns (r: Option<Option<U32>>)
      requires Valid()
      modifies this
      ensures Valid() && Agrees(GetOpt(GetU32, old(Rest())), r, Rest())
    {
      hide GetU8, GetU32;
      var flag :- U8();
      if flag > 1 {
        return None;
      }
      if flag == 0 {
        return Some(None);
      }
      var value :- U32();
      return Some(Some(value));
    }

    method OptionalU64() returns (r: Option<Option<U64>>)
      requires Valid()
      modifies this
      ensures Valid() && Agrees(GetOpt(GetU64, old(Rest())), r, Rest())
    {
      hide GetU8, GetU64;
      var flag :- U8();
      if flag > 1 {
        return None;
      }
      if flag == 0 {
        return Some(None);
      }
      var value :- U64();
      return Some(Some(value));
    }

    method OptionalI32() returns (r: Option<Option<I32>>)
      requires Valid()
      modifies this
      ensures Valid() && Agrees(GetOpt(GetI32, old(Rest())), r, Rest())
    {
      hide GetU8, GetU32;
      var bits :- OptionalU32();
      return match bits
        case None => Some(None)
        case Some(v) => Some(Some(I32OfBits(v)));
    }
  }

  lemma EmptyIsZero()
    ensures forall bs: Bytes :: |bs| == 0 ==> FromBE(bs) == 0
  {
  }

  lemma LessWeight(n: nat)
    requires n > 0
    ensures Pow256(n) / 0x100 == Pow256(n - 1)
  {
  }

  lemma LastWeight()
    ensures Pow256(0) == 1
  {
  }

  // ---------------------------------------------------------------- counted lists

  function Prepend<T>(xs: seq<T>, rest: Parsed<seq<T>>): Parsed<seq<T>> {
    match rest
    case None => None
    case Some((ys, k)) => Some((xs + ys, k))
  }

  /** The list at the front of `b` announces `n` elements; `xs` have been read, in order, and
      `rest` is what follows them. */
  ghost predicate Reading<T(!new)>(get: Getter<T>, rel: (T, T) -> bool, b: Bytes, n: nat, xs: seq<T>, rest: Bytes) {
    && GetU32(b).Some? && GetU32(b).value.0 == n
    && |xs| <= n && Ordered(rel, xs)
    && GetMany(get, n, GetU32(b).value.1) == Prepend(xs, GetMany(get, n - |xs|, rest))
  }

  lemma ReadingStarts<T(!new)>(get: Getter<T>, rel: (T, T) -> bool, b: Bytes)
    requires GetU32(b).Some?
    ensures Reading(get, rel, b, GetU32(b).value.0, [], GetU32(b).value.1)
  {
    hide GetU32;
    var r := GetMany(get, GetU32(b).value.0, GetU32(b).value.1);
    if r.Some? {
      assert [] + r.value.0 == r.value.0;
    }
  }

  /** The count guard never rejects a list that would have been read. */
  lemma GuardIsSafe<T(!new)>(get: Getter<T>, rel: (T, T) -> bool, b: Bytes, size: nat)
    requires Consumes(get, size) && size > 0
    requires GetU32(b).Some? && GetU32(b).value.0 > |GetU32(b).value.1| / size
    ensures GetList(get, rel, b).None?
  {
    hide GetU32;
    var (n, k) := GetU32(b).value;
    ManyConsumes(get, size, n, k);
    QuotientBound(|k|, n, size);
  }

  lemma QuotientBound(a: nat, n: nat, size: nat)
    requires size > 0 && n > a / size
    ensures a < n * size
  {
    var q := a / size;
    assert a == q * size + a % size;
    assert (q + 1) * size <= n * size;
  }

  lemma ElementFails<T(!new)>(get: Getter<T>, rel: (T, T) -> bool, b: Bytes, n: nat, xs: seq<T>, rest: Bytes)
    requires Reading(get, rel, b, n, xs, rest) && |xs| < n && get(rest).None?
    ensures GetList(get, rel, b).None?
  {
    hide GetU32;
  }

  lemma OutOfOrder<T(!new)>(get: Getter<T>, rel: (T, T) -> bool, b: Bytes, n: nat, xs: seq<T>, rest: Bytes)
    requires Reading(get, rel, b, n, xs, rest) && 0 < |xs| < n && get(rest).Some?
    requires !rel(xs[|xs| - 1], get(rest).value.0)
    ensures GetList(get, rel, b).None?
  {
    hide GetU32;
    var (x, k) := get(rest).value;
    var tail := GetMany(get, n - |xs| - 1, k);
    if tail.Some? {
      var all := xs + ([x] + tail.value.0);
      assert all[|xs|] == x && all[|xs| - 1] == xs[|xs| - 1];
      assert !Ordered(rel, all);
    }
  }

  lemma ElementRead<T(!new)>(get: Getter<T>, rel: (T, T) -> bool, b: Bytes, n: nat, xs: seq<T>, rest: Bytes)
    requires Reading(get, rel, b, n, xs, rest) && |xs| < n && get(rest).Some?
    requires xs == [] || rel(xs[|xs| - 1], get(rest).value.0)
    ensures Reading(get, rel, b, n, xs + [get(rest).value.0], get(rest).value.1)
  {
    hide GetU32;
    var (x, k) := get(rest).value;
    var tail := GetMany(get, n - |xs| - 1, k);
    if tail.Some? {
      assert xs + ([x] + tail.value.0) == (xs + [x]) + tail.value.0;
    }
  }

  lemma ListRead<T(!new)>(get: Getter<T>, rel: (T, T) -> bool, b: Bytes, n: nat, xs: seq<T>, rest: Bytes)
    requires Reading(get, rel, b, n, xs, rest) && |xs| == n
    ensures GetList(get, rel, b) == Some((xs, rest))
  {
    hide GetU32;
    assert xs + [] == xs;
  }
}
