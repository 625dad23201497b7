/** The growing byte buffer both encoders append to. Each method says, for whatever bytes come
    next, that the buffer followed by them is the old buffer followed by the field's layout. */
module Writers {
  import opened Bytes
  import opened Text

  /** The byte a shift by 8 * n bits and a cast leave. */
  function ByteAt(v: nat, n: nat): Byte {
    v / Pow256(n) % 256
  }

  lemma {:induction false} ToBEAt(v: nat, n: nat, i: nat)
    requires i < n
    ensures ToBE(v, n)[i] == ByteAt(v, n - 1 - i)
  {
    if i < n - 1 {
      ToBEAt(v / 256, n - 1, i);
      DivideTwice(v, Pow256(n - 2 - i));
    }
  }

  lemma DivideTwice(v: nat, p: nat)
    requires p > 0
    ensures v / 256 / p == v / (256 * p)
  {
    var q := v / 256 / p;
    var r := v / 256 % p;
    assert v / 256 == q * p + r;
    assert v == (q * p + r) * 256 + v % 256;
    assert v == q * (256 * p) + (r * 256 + v % 256);
    assert 0 <= r * 256 + v % 256 < 256 * p;
    Quotient(v, 256 * p, q, r * 256 + v % 256);
  }

  lemma Scaled(a: nat, b: nat, d: nat)
    requires a <= b
    ensures a * d <= b * d
  {
    assert b * d == a * d + (b - a) * d;
  }

  lemma Quotient(v: nat, d: nat, q: nat, r: nat)
    requires d > 0 && v == q * d + r && r < d
    ensures v / d == q
  {
    var other := v / d;
    assert v == other * d + v % d;
    assert (other + 1) * d == other * d + d && (q + 1) * d == q * d + d;
    if other < q {
      Scaled(other + 1, q, d);
    } else if other > q {
      Scaled(q + 1, other, d);
    }
  }

  class Writer {
    var bytes: Bytes

    constructor ()
      ensures bytes == []
    {
      bytes := [];
    }

    method U8(v: Byte)
      modifies this
      ensures forall k :: bytes + k == old(bytes) + PutU8(v, k)
    {
      bytes := bytes + [v];
    }

    method Flag(v: bool)
      modifies this
      ensures forall k :: bytes + k == old(bytes) + PutBool(v, k)
    {
      U8(if v then 1 else 0);
    }

    method U32(v: U32)
      modifies this
      ensures forall k :: bytes + k == old(bytes) + PutU32(v, k)
    {
      bytes := bytes + [ByteAt(v, 3)];
      bytes := bytes + [ByteAt(v, 2)];
      bytes := bytes + [ByteAt(v, 1)];
      bytes := bytes + [ByteAt(v, 0)];
      ghost var field := [ByteAt(v, 3), ByteAt(v, 2), ByteAt(v, 1), ByteAt(v, 0)];
      forall i | 0 <= i < 4 ensures field[i] == ToBE(v, 4)[i] {
        ToBEAt(v, 4, i);
      }
      assert field == ToBE(v, 4);
      assert bytes == old(bytes) + field;
      hide ToBE;
    }

    method U64(v: U64)
      modifies this
      ensures forall k :: bytes + k == old(bytes) + PutU64(v, k)
    {
      hide ToBE, Pow256;
      for i := 0 to 8
        invariant bytes == old(bytes) + ToBE(v, 8)[..i]
      {
        ToBEAt(v, 8, i);
        bytes := bytes + [ByteAt(v, 7 - i)];
      }
      assert ToBE(v, 8)[..8] == ToBE(v, 8);
    }

    /** A 32-bit length or count; one that does not fit is a length error. */
    method Count(n: nat) returns (r: Option<()>)
      modifies this
      ensures r.Some? <==> n <= U32_MAX
      ensures r.Some? ==> forall k :: bytes + k == old(bytes) + PutCount(n, k)
    {
      hide PutU32;
      if n > U32_MAX {
        return None;
      }
      assert n % 0x1_0000_0000 == n;
      U32(n);
      r := Some(());
    }

    method Text(s: Bytes) returns (r: Option<()>)
      modifies this
      ensures r.Some? <==> |s| <= U32_MAX
      ensures r.Some? ==> forall k :: bytes + k == old(bytes) + PutString(s, k)
    {
      hide PutCount;
      var _ :- Count(|s|);
      ghost var prefix := bytes;
      bytes := bytes + s;
      forall k ensures bytes + k == old(bytes) + PutString(s, k) {
        assert bytes + k == prefix + (s + k);
      }
      r := Some(());
    }

    method OptionalU8(v: Option<Byte>)
      modifies this
      ensures forall k :: bytes + k == old(bytes) + PutOpt(PutU8, v, k)
    {
      hide PutU8;
      Flag(v.Some?);
      if v.Some? {
        U8(v.value);
      }
    }

    method OptionalU32(v: Option<U32>)
      modifies this
      ensures forall k :: bytes + k == old(bytes) + PutOpt(PutU32, v, k)
    {
      hide PutU8, PutU32;
      Flag(v.Some?);
      if v.Some? {
        U32(v.value);
      }
    }

    method OptionalU64(v: Option<U64>)
      modifies this
      ensures forall k :: bytes + k == old(bytes) + PutOpt(PutU64, v, k)
    {
      hide PutU8, PutU64;
      Flag(v.Some?);
      if v.Some? {
        U64(v.value);
      }
    }

    method OptionalI32(v: Option<I32>)
      modifies this
      ensures forall k :: bytes + k == old(bytes) + PutOpt(PutI32, v, k)
    {
      hide PutU8, PutU32;
      Flag(v.Some?);
      if v.Some? {
        U32(BitsOfI32(v.value));
      }
    }
  }

  /** One element written leaves the layout of the remaining ones to write. */
  lemma PutManyStep<T(!new)>(put: Putter<T>, xs: seq<T>, i: nat)
    requires i < |xs|
    ensures forall k :: PutMany(put, xs[i..], k) == put(xs[i], PutMany(put, xs[i + 1..], k))
  {
    assert xs[i..][1..] == xs[i + 1..];
  }
}
