/** The streaming SHA-256 used for deck files, proved equal to the one-shot definition of
    FIPS 180-4 for every way of cutting the input into updates. */
module Sha256 {
  import opened Bytes
  import opened Text
  import opened Writers
  import opened PublicActionKeys
  import opened WordBits

  // ---------------------------------------------------------------- FIPS 180-4

  datatype Words = Words(a: U32, b: U32, c: U32, d: U32, e: U32, f: U32, g: U32, h: U32)

  /** Section 5.3.3: the initial hash value. */
  const INITIAL: Words := Words(0x6a09e667, 0xbb67ae85, 0x3c6ef372, 0xa54ff53a, 0x510e527f, 0x9b05688c, 0x1f83d9ab,
    0x5be0cd19)

  /** Section 4.2.2: the round constants, eight a row. */
  const K: seq<seq<U32>> := [
    [0x428a2f98, 0x71374491, 0xb5c0fbcf, 0xe9b5dba5, 0x3956c25b, 0x59f111f1, 0x923f82a4, 0xab1c5ed5],
    [0xd807aa98, 0x12835b01, 0x243185be, 0x550c7dc3, 0x72be5d74, 0x80deb1fe, 0x9bdc06a7, 0xc19bf174],
    [0xe49b69c1, 0xefbe4786, 0x0fc19dc6, 0x240ca1cc, 0x2de92c6f, 0x4a7484aa, 0x5cb0a9dc, 0x76f988da],
    [0x983e5152, 0xa831c66d, 0xb00327c8, 0xbf597fc7, 0xc6e00bf3, 0xd5a79147, 0x06ca6351, 0x14292967],
    [0x27b70a85, 0x2e1b2138, 0x4d2c6dfc, 0x53380d13, 0x650a7354, 0x766a0abb, 0x81c2c92e, 0x92722c85],
    [0xa2bfe8a1, 0xa81a664b, 0xc24b8b70, 0xc76c51a3, 0xd192e819, 0xd6990624, 0xf40e3585, 0x106aa070],
    [0x19a4c116, 0x1e376c08, 0x2748774c, 0x34b0bcb5, 0x391c0cb3, 0x4ed8aa4a, 0x5b9cca4f, 0x682e6ff3],
    [0x748f82ee, 0x78a5636f, 0x84c87814, 0x8cc70208, 0x90befffa, 0xa4506ceb, 0xbef9a3f7, 0xc67178f2]]

  function RoundConstant(t: nat): U32
    requires t < 64
  {
    K[t / 8][t % 8]
  }

  /** Addition modulo 2^32. */
  function Add(x: U32, y: U32): U32 {
    (x as int + y) % 0x1_0000_0000
  }

  /** Section 4.1.2, on words as numbers. */
  function Ch(x: U32, y: U32, z: U32): U32 {
    Choose(x as bv32, y as bv32, z as bv32) as U32
  }

  function Maj(x: U32, y: U32, z: U32): U32 {
    Majority(x as bv32, y as bv32, z as bv32) as U32
  }

  function BigSigma0(x: U32): U32 {
    BigMix0(x as bv32) as U32
  }

  function BigSigma1(x: U32): U32 {
    BigMix1(x as bv32) as U32
  }

  function SmallSigma0(x: U32): U32 {
    SmallMix0(x as bv32) as U32
  }

  function SmallSigma1(x: U32): U32 {
    SmallMix1(x as bv32) as U32
  }

  /** The i-th big-endian word of a block. */
  function WordAt(block: Bytes, i: nat): U32
    requires |block| == 64 && i < 16
  {
    var b3: int, b2: int, b1: int, b0: int := block[4 * i], block[4 * i + 1], block[4 * i + 2], block[4 * i + 3];
    b3 * 0x100_0000 + b2 * 0x1_0000 + b1 * 0x100 + b0
  }

  /** The next word of the schedule, as section 6.2.2 writes the sum. */
  function Expand(w2: U32, w7: U32, w15: U32, w16: U32): U32 {
    Add(Add(Add(SmallSigma1(w2), w7), SmallSigma0(w15)), w16)
  }

  /** Section 6.2.2, step 1: the message schedule. */
  function Schedule(block: Bytes, t: nat): U32
    requires |block| == 64 && t < 64
  {
    if t < 16 then WordAt(block, t)
    else Expand(Schedule(block, t - 2), Schedule(block, t - 7), Schedule(block, t - 15), Schedule(block, t - 16))
  }

  /** Step 3: one round. */
  function Round(v: Words, k: U32, w: U32): Words {
    var t1 := Add(Add(Add(Add(v.h, BigSigma1(v.e)), Ch(v.e, v.f, v.g)), k), w);
    var t2 := Add(BigSigma0(v.a), Maj(v.a, v.b, v.c));
    Words(Add(t1, t2), v.a, v.b, v.c, Add(v.d, t1), v.e, v.f, v.g)
  }

  function Rounds(v: Words, block: Bytes, t: nat): Words
    requires |block| == 64 && t <= 64
  {
    if t == 0 then v else Round(Rounds(v, block, t - 1), RoundConstant(t - 1), Schedule(block, t - 1))
  }

  function AddWords(x: Words, y: Words): Words {
    Words(Add(x.a, y.a), Add(x.b, y.b), Add(x.c, y.c), Add(x.d, y.d), Add(x.e, y.e), Add(x.f, y.f), Add(x.g, y.g),
      Add(x.h, y.h))
  }

  /** Steps 2 to 4: one block compressed into the hash value. */
  function Compress(v: Words, block: Bytes): Words
    requires |block| == 64
  {
    AddWords(v, Rounds(v, block, 64))
  }

  /** The hash value after all blocks of `m`. */
  function HashBlocks(m: Bytes): Words
    requires |m| % 64 == 0
  {
    if m == [] then INITIAL else Compress(HashBlocks(m[..|m| - 64]), m[|m| - 64..])
  }

  function Zeros(n: nat): (z: Bytes)
    ensures |z| == n
  {
    seq(n, _ => 0)
  }

  /** How many zero bytes bring a message of this length and its end marker to 56 modulo 64. */
  function ZeroCount(length: nat): nat {
    (119 - length % 64) % 64
  }

  /** Section 5.1.1, in whole bytes; the bit length is kept modulo 2^64. */
  function Padded(m: Bytes): (p: Bytes)
    ensures |p| % 64 == 0
  {
    m + [0x80] + Zeros(ZeroCount(|m|)) + ToBE(8 * |m| % 0x1_0000_0000_0000_0000, 8)
  }

  /** Below 2^61 bytes the length field holds the exact bit length. */
  lemma LengthIsExact(m: Bytes)
    requires |m| < 0x2000_0000_0000_0000
    ensures FromBE(Padded(m)[|Padded(m)| - 8..]) == 8 * |m|
  {
    hide FromBE, ToBE, Pow256;
    WidthFacts();
    FromToBE(8 * |m|, 8);
    assert Padded(m)[|Padded(m)| - 8..] == ToBE(8 * |m| % 0x1_0000_0000_0000_0000, 8);
  }

  /** The zero bits are the fewest that align the block. */
  lemma PaddingIsShortest(length: nat, k: nat)
    ensures (length + 1 + ZeroCount(length)) % 64 == 56
    ensures (length + 1 + k) % 64 == 56 ==> k >= ZeroCount(length)
  {
    var q, r := length / 64, length % 64;
    assert length == 64 * q + r;
    assert (length + 1 + k) % 64 == (r + 1 + k) % 64;
    assert (length + 1 + ZeroCount(length)) % 64 == (r + 1 + ZeroCount(length)) % 64;
  }

  /** Section 6.2.2, last step: the digest. */
  function DigestBytes(v: Words): Bytes {
    ToBE(v.a, 4) + ToBE(v.b, 4) + ToBE(v.c, 4) + ToBE(v.d, 4)
    + ToBE(v.e, 4) + ToBE(v.f, 4) + ToBE(v.g, 4) + ToBE(v.h, 4)
  }

  /** SHA-256 of a whole message, in lower-case hexadecimal. */
  function HashHex(m: Bytes): Bytes {
    LowerHex(DigestBytes(HashBlocks(Padded(m))))
  }

  // ---------------------------------------------------------------- the streaming hash

  /** The code adds the same four terms in the opposite order. */
  method NextWord(w16: U32, w15: U32, w7: U32, w2: U32) returns (w: U32)
    ensures w == Expand(w2, w7, w15, w16)
  {
    hide Add, SmallSigma0, SmallSigma1;
    var s0 := SmallSigma0(w15);
    var s1 := SmallSigma1(w2);
    SameSum(w16, s0, w7, s1);
    w := Add(Add(Add(w16, s0), w7), s1);
  }

  lemma AddCommutes(x: U32, y: U32)
    ensures Add(x, y) == Add(y, x)
  {
  }

  lemma AddAssociates(x: U32, y: U32, z: U32)
    ensures Add(Add(x, y), z) == Add(x, Add(y, z))
  {
    AddAbsorbs(x as int + y, z);
    AddAbsorbs(y as int + z, x);
  }

  lemma AddAbsorbs(a: nat, b: nat)
    ensures (a % 0x1_0000_0000 + b) % 0x1_0000_0000 == (a + b) % 0x1_0000_0000
  {
  }

  lemma SameSum(p: U32, q: U32, r: U32, s: U32)
    ensures Add(Add(Add(p, q), r), s) == Add(Add(Add(s, r), q), p)
  {
    hide Add;
    AddCommutes(Add(Add(p, q), r), s);
    AddCommutes(Add(p, q), r);
    AddCommutes(p, q);
    AddAssociates(s, r, Add(q, p));
    AddAssociates(Add(s, r), q, p);
  }

  method NextRound(v: Words, constant: U32, word: U32) returns (r: Words)
    ensures r == Round(v, constant, word)
  {
    hide Add, BigSigma0, BigSigma1, Ch, Maj;
    var a, b, c, d := v.a, v.b, v.c, v.d;
    var e, f, g, h := v.e, v.f, v.g, v.h;
    var temp1 := Add(Add(Add(Add(h, BigSigma1(e)), Ch(e, f, g)), constant), word);
    var temp2 := Add(BigSigma0(a), Maj(a, b, c));
    h := g;
    g := f;
    f := e;
    e := Add(d, temp1);
    d := c;
    c := b;
    b := a;
    a := Add(temp1, temp2);
    r := Words(a, b, c, d, e, f, g, h);
  }

  /** The code's compression: a schedule array filled in place, then 64 rounds. */
  method Transform(state: Words, block: Bytes) returns (r: Words)
    requires |block| == 64
    ensures r == Compress(state, block)
  {
    hide WordAt, Expand, Round, RoundConstant, AddWords;
    var schedule := new U32[64];
    for i := 0 to 16
      invariant forall t :: 0 <= t < i ==> schedule[t] == Schedule(block, t)
    {
      schedule[i] := WordAt(block, i);
    }
    for i := 16 to 64
      invariant forall t :: 0 <= t < i ==> schedule[t] == Schedule(block, t)
    {
      schedule[i] := NextWord(schedule[i - 16], schedule[i - 15], schedule[i - 7], schedule[i - 2]);
    }
    var v := state;
    for i := 0 to 64
      invariant forall t :: 0 <= t < 64 ==> schedule[t] == Schedule(block, t)
      invariant v == Rounds(state, block, i)
    {
      v := NextRound(v, RoundConstant(i), schedule[i]);
    }
    r := AddWords(state, v);
  }

  lemma AbsorbBlock(m: Bytes, block: Bytes)
    requires |m| % 64 == 0 && |block| == 64
    ensures HashBlocks(m + block) == Compress(HashBlocks(m), block)
  {
    hide Compress;
    assert (m + block)[..|m + block| - 64] == m && (m + block)[|m + block| - 64..] == block;
  }

  lemma CountOn(n: nat, more: nat)
    ensures (n % 0x1_0000_0000_0000_0000 + more) % 0x1_0000_0000_0000_0000 == (n + more) % 0x1_0000_0000_0000_0000
  {
  }

  class Hasher {
    var state: Words
    const block: array<Byte>
    var blockSize: nat
    var totalBytes: U64
    /** Everything absorbed so far. */
    ghost var message: Bytes

    /** The buffer holds the end of the message, the state stands for the blocks before it. */
    ghost predicate Pending()
      reads this, block
    {
      && block.Length == 64 && blockSize <= 64 && blockSize <= |message| && (|message| - blockSize) % 64 == 0
      && totalBytes == |message| % 0x1_0000_0000_0000_0000
      && block[..blockSize] == message[|message| - blockSize..]
      && state == HashBlocks(message[..|message| - blockSize])
    }

    ghost predicate Valid()
      reads this, block
    {
      Pending() && blockSize < 64
    }

    constructor ()
      ensures Valid() && message == [] && fresh(block)
    {
      state, blockSize, totalBytes, message := INITIAL, 0, 0, [];
      block := new Byte[64](_ => 0);
    }

    /** Copies input into the block buffer. */
    method CopyIn(data: Bytes)
      requires block.Length == 64 && blockSize + |data| <= 64
      modifies block
      ensures block[..blockSize + |data|] == old(block[..blockSize]) + data
    {
      for i := 0 to |data|
        invariant block[..blockSize + i] == old(block[..blockSize]) + data[..i]
      {
        block[blockSize + i] := data[i];
        assert block[..blockSize + i + 1] == block[..blockSize + i] + [data[i]];
      }
      assert data[..|data|] == data;
    }

    /** Absorbs input of any length, one block at a time. */
    method Update(data: Bytes)
      requires Valid() && |data| < 0x1_0000_0000_0000_0000
      modifies this, block
      ensures Valid() && message == old(message) + data
    {
      hide HashBlocks, Compress;
      ghost var before := message;
      var offset := 0;
      while offset < |data|
        invariant offset <= |data| && Valid() && message == before + data[..offset]
      {
        var room := 64 - blockSize;
        var take := if |data| - offset < room then |data| - offset else room;
        AbsorbPart(data[offset..offset + take]);
        assert data[..offset] + data[offset..offset + take] == data[..offset + take];
        offset := offset + take;
      }
      assert data[..offset] == data;
    }

    /** A part that fits the buffer; a full buffer is compressed. */
    method AbsorbPart(part: Bytes)
      requires Valid() && blockSize + |part| <= 64
      modifies this, block
      ensures Valid() && message == old(message) + part
    {
      Extend(part);
      if blockSize == 64 {
        Flush();
      }
    }

    method Extend(part: Bytes)
      requires Pending() && blockSize + |part| <= 64
      modifies this, block
      ensures Pending() && message == old(message) + part && blockSize == old(blockSize) + |part|
    {
      hide HashBlocks, Compress;
      CountOn(|message|, |part|);
      CopyIn(part);
      totalBytes := (totalBytes + |part|) % 0x1_0000_0000_0000_0000;
      blockSize := blockSize + |part|;
      message := message + part;
      ghost var cut := |message| - blockSize;
      assert cut == old(|message| - blockSize);
      assert message[..cut] == old(message)[..cut];
      assert message[cut..] == old(message)[cut..] + part;
    }

    method Flush()
      requires Pending() && blockSize == 64
      modifies this
      ensures Valid() && message == old(message)
    {
      hide HashBlocks, Compress;
      assert block[..64] == block[..];
      ghost var head := message[..|message| - 64];
      AbsorbBlock(head, block[..]);
      assert head + block[..] == message;
      state := Transform(state, block[..]);
      blockSize := 0;
      assert message[..|message|] == message;
    }

    /** Fills the buffer with zeros from its end marker up to `limit`. */
    method FillZeros(limit: nat)
      requires block.Length == 64 && blockSize <= limit <= 64
      modifies block
      ensures block[..limit] == old(block[..blockSize]) + Zeros(limit - blockSize)
    {
      for i := blockSize to limit
        invariant block[..i] == old(block[..blockSize]) + Zeros(i - blockSize)
      {
        block[i] := 0;
        assert block[..i + 1] == block[..i] + [0];
        assert Zeros(i - blockSize) + [0] == Zeros(i + 1 - blockSize);
      }
    }

    /** Writes the bit length over the last eight bytes, least significant last. */
    method PutLength(bitLength: U64)
      requires block.Length == 64
      modifies block
      ensures block[..] == old(block[..56]) + ToBE(bitLength, 8)
    {
      hide ToBE, Pow256;
      for i := 0 to 8
        invariant forall j :: 0 <= j < 56 ==> block[j] == old(block[j])
        invariant forall j :: 64 - i <= j < 64 ==> block[j] == ToBE(bitLength, 8)[j - 56]
      {
        ToBEAt(bitLength, 8, 7 - i);
        block[63 - i] := ByteAt(bitLength, i);
      }
    }

    /** Pads and closes the hash. The result is the one-shot hash of everything absorbed. */
    method Finish() returns (hex: Bytes)
      requires Valid()
      modifies this, block
      ensures hex == HashHex(old(message))
    {
      hide HashBlocks, Compress, LowerHex, DigestBytes, Padded;
      var bitLength := totalBytes * 8 % 0x1_0000_0000_0000_0000;
      ghost var m, head, tail := message, message[..|message| - blockSize], message[|message| - blockSize..];
      assert m == head + tail;
      block[blockSize] := 0x80;
      blockSize := blockSize + 1;
      assert block[..blockSize] == tail + [0x80];
      ghost var done, rest := MakeRoom(head, tail + [0x80]);
      FillZeros(56);
      PutLength(bitLength);
      assert block[..] == rest + Zeros(56 - |rest|) + ToBE(bitLength, 8);
      PaddedSplits(m, head, tail, done, rest, bitLength);
      AbsorbBlock(done, block[..]);
      state := Transform(state, block[..]);
      hex := WriteLowerHex(DigestBytes(state));
    }

    /** When the end marker leaves no room for the length, the block is closed with zeros. */
    method MakeRoom(ghost head: Bytes, ghost marked: Bytes) returns (ghost done: Bytes, ghost rest: Bytes)
      requires block.Length == 64 && 0 < blockSize <= 64 && |head| % 64 == 0
      requires block[..blockSize] == marked && state == HashBlocks(head)
      modifies this, block
      ensures blockSize == |rest| <= 56 && block[..blockSize] == rest
      ensures |done| % 64 == 0 && state == HashBlocks(done)
      ensures if |marked| > 56 then done == head + (marked + Zeros(64 - |marked|)) && rest == []
        else done == head && rest == marked
    {
      hide HashBlocks, Compress;
      done, rest := head, marked;
      if blockSize > 56 {
        FillZeros(64);
        assert block[..] == marked + Zeros(64 - blockSize);
        AbsorbBlock(head, block[..]);
        state := Transform(state, block[..]);
        done, rest := head + block[..], [];
        blockSize := 0;
      }
    }
  }

  lemma PaddedSplits(m: Bytes, head: Bytes, tail: Bytes, done: Bytes, rest: Bytes, bitLength: U64)
    requires m == head + tail && |head| % 64 == 0 && |tail| < 64
    requires bitLength == (|m| % 0x1_0000_0000_0000_0000) * 8 % 0x1_0000_0000_0000_0000
    requires if |tail| + 1 > 56 then done == head + ((tail + [0x80]) + Zeros(64 - |tail + [0x80]|)) && rest == []
             else done == head && rest == tail + [0x80]
    ensures Padded(m) == done + (rest + Zeros(56 - |rest|) + ToBE(bitLength, 8)) && |done| % 64 == 0
  {
    hide ToBE;
    var length := ToBE(bitLength, 8);
    SameBits(|m|);
    TailLength(|m|, |head|, |tail|);
    var zeros := Zeros(ZeroCount(|m|));
    assert Padded(m) == head + (tail + [0x80]) + zeros + length;
    if |tail| + 1 > 56 {
      assert Zeros(63 - |tail|) + Zeros(56) == zeros;
      assert head + (tail + [0x80]) + (Zeros(63 - |tail|) + Zeros(56)) + length
        == head + (tail + [0x80] + Zeros(63 - |tail|)) + (Zeros(56) + length);
      assert rest + Zeros(56 - |rest|) + length == Zeros(56) + length;
    } else {
      assert head + (tail + [0x80]) + zeros + length == head + (tail + [0x80] + zeros + length);
    }
  }

  lemma SameBits(n: nat)
    ensures (n % 0x1_0000_0000_0000_0000) * 8 % 0x1_0000_0000_0000_0000 == 8 * n % 0x1_0000_0000_0000_0000
  {
  }

  lemma TailLength(n: nat, head: nat, tail: nat)
    requires n == head + tail && head % 64 == 0 && tail < 64
    ensures tail + 1 > 56 ==> ZeroCount(n) == (63 - tail) + 56 && (head + 64) % 64 == 0
    ensures tail + 1 <= 56 ==> ZeroCount(n) == 56 - (tail + 1)
  {
    assert n % 64 == tail;
  }

  /** Hashing a file in chunks: whatever the chunks, the hash of their concatenation. */
  method HashChunks(chunks: seq<Bytes>) returns (hex: Bytes)
    requires forall i :: 0 <= i < |chunks| ==> |chunks[i]| <= 4096
    ensures hex == HashHex(Join(chunks))
  {
    hide HashHex, Hasher.Valid, Hasher.Pending, Join;
    JoinOfNothing();
    var digest := new Hasher();
    for i := 0 to |chunks|
      invariant digest.Valid() && digest.message == Join(chunks[..i]) && fresh(digest) && fresh(digest.block)
    {
      JoinPush(chunks[..i], chunks[i]);
      assert chunks[..i] + [chunks[i]] == chunks[..i + 1];
      digest.Update(chunks[i]);
    }
    assert chunks[..|chunks|] == chunks;
    hex := digest.Finish();
  }

  lemma JoinOfNothing()
    ensures Join([]) == []
  {
  }

  lemma {:induction false} JoinPush(parts: seq<Bytes>, part: Bytes)
    ensures Join(parts + [part]) == Join(parts) + part
  {
    if parts == [] {
      assert Join([part]) == part + Join([part][1..]);
    } else {
      JoinPush(parts[1..], part);
      assert (parts + [part])[1..] == parts[1..] + [part];
    }
  }
}
