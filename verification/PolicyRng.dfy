/** The policy's random numbers: raw words read from a counter-mode hash, a rejection sampler on
    top of them, and the policy that picks a legal action with it. */
module PolicyRng {
  import opened Bytes
  import opened Text
  import opened Writers
  import opened PublicAction
  import opened PublicActionKeys
  import opened PublicActionDomain

  const WORDS: int := 0x1_0000_0000_0000_0000

  /** A SHA-256 value. */
  type Digest = d: Bytes | |d| == 32 witness seq(32, _ => 0)

  // ---------------------------------------------------------------- words of a digest

  /** The number a run of hexadecimal digits spells, four bits at a time. */
  function HexNumber(s: Bytes): int {
    if s == [] then 0 else HexNumber(s[..|s| - 1]) * 16 + HexValue(s[|s| - 1])
  }

  lemma {:induction false} HexOfBytes(bs: Bytes)
    ensures HexNumber(LowerHex(bs)) == FromBE(bs)
  {
    if bs != [] {
      var init := bs[..|bs| - 1];
      var hex := LowerHex(bs);
      HexOfBytes(init);
      LowerHexAt(bs, |bs| - 1);
      assert hex[..|hex| - 1][..|hex| - 2] == LowerHex(init);
      assert hex[..|hex| - 1][|hex| - 2] == hex[2 * (|bs| - 1)];
      assert HexNumber(hex) == (FromBE(init) * 16 + HexValue(hex[|hex| - 2])) * 16 + HexValue(hex[|hex| - 1]);
    }
  }

  lemma {:induction false} HexOfSlice(bs: Bytes, i: nat, j: nat)
    requires i <= j <= |bs|
    ensures LowerHex(bs)[2 * i..2 * j] == LowerHex(bs[i..j])
  {
    if i < j {
      HexOfSlice(bs, i, j - 1);
      LowerHexAt(bs, j - 1);
      assert bs[i..j][..j - i - 1] == bs[i..j - 1];
      assert LowerHex(bs)[2 * i..2 * j] ==
        LowerHex(bs)[2 * i..2 * (j - 1)] + [LowerHex(bs)[2 * (j - 1)], LowerHex(bs)[2 * (j - 1) + 1]];
    }
  }

  /** The digest read as four big-endian words, from its hexadecimal text. */
  method DigestWords(hex: Bytes, ghost digest: Digest) returns (words: seq<U64>)
    requires hex == LowerHex(digest)
    ensures |words| == 4 && forall i :: 0 <= i < 4 ==> words[i] == FromBE(digest[8 * i..8 * i + 8])
  {
    words := [];
    hide LowerHex, FromBE;
    for index := 0 to 4
      invariant |words| == index
      invariant forall i :: 0 <= i < index ==> words[i] == FromBE(digest[8 * i..8 * i + 8])
    {
      var word: int := 0;
      ghost var part := digest[8 * index..8 * index + 8];
      HexOfSlice(digest, 8 * index, 8 * index + 8);
      for nibble := 0 to 16
        invariant word == HexNumber(LowerHex(part)[..nibble])
      {
        assert hex[index * 16 + nibble] == LowerHex(part)[nibble];
        assert LowerHex(part)[..nibble + 1][..nibble] == LowerHex(part)[..nibble];
        word := word * 16 + HexValue(hex[index * 16 + nibble]);
      }
      assert LowerHex(part)[..16] == LowerHex(part);
      HexOfBytes(part);
      WordBound(part);
      words := words + [word];
    }
  }

  lemma WordBound(part: Bytes)
    requires |part| == 8
    ensures FromBE(part) < WORDS
  {
    WidthFacts();
  }

  // ---------------------------------------------------------------- exact uniformity

  /** The smallest raw word the sampler accepts: unsigned negation, then remainder. */
  function Threshold(n: U64): (t: U64)
    requires n > 0
    ensures t < n
  {
    (WORDS - n) % n
  }

  /** The accepted raw words that give residue `r`. */
  ghost function Accepted(n: U64, r: U64): set<int>
    requires n > 0
  {
    set w: int | Threshold(n) <= w < WORDS && w % n == r
  }

  lemma ThresholdIsRemainder(n: U64)
    requires n > 0
    ensures Threshold(n) == WORDS % n && (WORDS - Threshold(n)) % n == 0
  {
    var q, t := (WORDS - n) / n, Threshold(n);
    assert WORDS == (q + 1) * n + t;
    RemainderOf(WORDS, n, q + 1, t);
    RemainderOf(WORDS - t, n, q + 1, 0);
  }

  lemma RemainderOf(v: nat, n: nat, q: nat, r: nat)
    requires n > 0 && v == q * n + r && r < n
    ensures v % n == r && v / n == q
  {
    Quotient(v, n, q, r);
    assert v == (v / n) * n + v % n;
  }

  /** No multiple of n but zero lies strictly between -n and n. */
  lemma OnlyZeroMultiple(d: int, n: int)
    requires n > 0 && -n < d * n < n
    ensures d == 0
  {
    if d > 0 {
      Scaled(1, d, n);
    } else if d < 0 {
      assert (-d) * n == -(d * n);
      Scaled(1, -d, n);
    }
  }

  ghost function Residues(lo: int, hi: int, n: int, r: int): set<int>
    requires n > 0
  {
    set w: int | lo <= w < hi && w % n == r
  }

  /** Two numbers less than n apart with the same residue are the same number. */
  lemma SameResidue(v: nat, w: nat, n: int)
    requires n > 0 && v % n == w % n && -n < v - w < n
    ensures v == w
  {
    var p, q := v / n, w / n;
    assert v == p * n + v % n && w == q * n + w % n;
    assert (p - q) * n == p * n - q * n;
    OnlyZeroMultiple(p - q, n);
  }

  /** In any block of n consecutive numbers each residue occurs once. */
  lemma OneInBlock(lo: nat, n: nat, r: nat) returns (w: nat)
    requires n > 0 && r < n
    ensures Residues(lo, lo + n, n, r) == {w}
  {
    var q, s := lo / n, lo % n;
    assert lo == q * n + s;
    if r >= s {
      w := lo + (r - s);
      RemainderOf(w, n, q, r);
    } else {
      w := lo + (n + r - s);
      assert (q + 1) * n == q * n + n;
      RemainderOf(w, n, q + 1, r);
    }
    forall v | lo <= v < lo + n && v % n == r ensures v == w {
      SameResidue(v, w, n);
    }
  }

  lemma {:induction false} CountInBlocks(lo: nat, blocks: nat, n: nat, r: nat)
    requires n > 0 && 0 <= r < n
    ensures |Residues(lo, lo + blocks * n, n, r)| == blocks
    decreases blocks
  {
    if blocks == 0 {
      assert Residues(lo, lo, n, r) == {};
    } else {
      var mid := lo + (blocks - 1) * n;
      CountInBlocks(lo, blocks - 1, n, r);
      var w := OneInBlock(mid, n, r);
      assert blocks * n == (blocks - 1) * n + n;
      assert w in Residues(mid, mid + n, n, r);
      assert (blocks - 1) * n >= 0;
      assert Residues(lo, mid + n, n, r) == Residues(lo, mid, n, r) + {w};
    }
  }

  /** The sampler is exactly uniform: every residue below n has the same number of accepted raw
      words, and together they are all the accepted words. */
  lemma SamplerIsUniform(n: U64, r: U64)
    requires r < n
    ensures |Accepted(n, r)| * n == WORDS - Threshold(n) && |Accepted(n, r)| >= 1
  {
    ThresholdIsRemainder(n);
    var t := Threshold(n);
    var blocks := (WORDS - t) / n;
    assert WORDS - t == blocks * n;
    CountInBlocks(t, blocks, n, r);
    assert Accepted(n, r) == Residues(t, WORDS, n, r);
    assert blocks > 0 by {
      assert 0 * n == 0;
    }
  }

  lemma EveryOutcomeEquallyLikely(n: U64, r: U64, s: U64)
    requires r < n && s < n
    ensures |Accepted(n, r)| == |Accepted(n, s)|
  {
    SamplerIsUniform(n, r);
    SamplerIsUniform(n, s);
    var a, b := |Accepted(n, r)|, |Accepted(n, s)|;
    assert (a - b) * n == 0;
    OnlyZeroMultiple(a - b, n);
  }

  // ---------------------------------------------------------------- the generator

  const BLOCK_DOMAIN: string := "ocgforge.policy_rng.sha256_counter.block.v1"

  function BlockBytes(domain: Bytes, identity: Bytes, index: U64): Bytes {
    PutString(domain, PutString(identity, PutU64(index, [])))
  }

  /** Different blocks hash different bytes. */
  lemma BlocksDiffer(domain: Bytes, identity: Bytes, i: U64, j: U64)
    requires |domain| <= U32_MAX && |identity| <= U32_MAX
    ensures BlockBytes(domain, identity, i) == BlockBytes(domain, identity, j) <==> i == j
  {
    hide PutString, PutU64, GetU64;
    FieldsComplete();
    if BlockBytes(domain, identity, i) == BlockBytes(domain, identity, j) {
      TextSplits(domain, PutString(identity, PutU64(i, [])), domain, PutString(identity, PutU64(j, [])));
      TextSplits(identity, PutU64(i, []), identity, PutU64(j, []));
    }
  }

  datatype RngError = RngExhausted | EmptyDomain

  datatype WordResult = Word(value: U64, preCursor: U64, postCursor: U64) | NoWord(error: RngError, before: U64,
    after: U64)

  class Sha256CounterRng {
    const sha256: Bytes -> Digest
    const domain: Bytes
    const identity: Bytes
    var cursor: U64

    /** The raw word at a position: lane `c % 4` of the hash of block `c / 4`. */
    ghost function RawWord(c: U64): (w: U64) {
      var d := sha256(BlockBytes(domain, identity, c / 4));
      WordBound(d[8 * (c % 4)..8 * (c % 4) + 8]);
      FromBE(d[8 * (c % 4)..8 * (c % 4) + 8])
    }

    constructor (sha256: Bytes -> Digest, identity: Bytes)
      ensures cursor == 0 && this.sha256 == sha256 && this.identity == identity
      ensures domain == Ascii(BLOCK_DOMAIN) && |domain| <= U32_MAX
    {
      this.sha256, domain, this.identity, cursor := sha256, Ascii(BLOCK_DOMAIN), identity, 0;
    }

    method NextRawU64() returns (r: WordResult)
      requires |domain| <= U32_MAX && |identity| <= U32_MAX
      modifies this
      ensures if old(cursor) == U64_MAX then r == NoWord(RngExhausted, old(cursor), old(cursor))
        && cursor == old(cursor)
              else cursor == old(cursor) + 1 && r == Word(RawWord(old(cursor)), old(cursor), cursor)
    {
      var before := cursor;
      if cursor == U64_MAX {
        return NoWord(RngExhausted, before, before);
      }
      hide LowerHex, FromBE, PutString, PutU64;
      var w := new Writer();
      var part := w.Text(domain);
      part := w.Text(identity);
      w.U64(cursor / 4);
      assert w.bytes + [] == w.bytes;
      assert [] + BlockBytes(domain, identity, cursor / 4) == BlockBytes(domain, identity, cursor / 4);
      var digest := sha256(w.bytes);
      var hex := WriteLowerHex(digest);
      var words := DigestWords(hex, digest);
      cursor := cursor + 1;
      return Word(words[before % 4], before, cursor);
    }

    /** A number below n. It is the first accepted raw word's residue, the cursor ends one past
        that word, and every word consumed before it was a rejected one. */
    method UniformBelow(n: U64) returns (r: WordResult)
      requires |domain| <= U32_MAX && |identity| <= U32_MAX
      modifies this
      ensures n == 0 ==> r == NoWord(EmptyDomain, old(cursor), old(cursor)) && cursor == old(cursor)
      ensures n == 1 ==> r == Word(0, old(cursor), old(cursor)) && cursor == old(cursor)
      ensures n > 1 && r.Word? ==>
        && r.preCursor == old(cursor) < cursor == r.postCursor
        && (forall c :: old(cursor) <= c < cursor - 1 ==> RawWord(c) < Threshold(n))
        && RawWord(cursor - 1) >= Threshold(n) && r.value == RawWord(cursor - 1) % n
        && RawWord(cursor - 1) in Accepted(n, r.value)
      ensures n > 1 && r.NoWord? ==>
        && r == NoWord(RngExhausted, old(cursor), cursor) && cursor == U64_MAX
        && forall c :: old(cursor) <= c < cursor ==> RawWord(c) < Threshold(n)
    {
      var before := cursor;
      if n == 0 {
        return NoWord(EmptyDomain, before, before);
      }
      if n == 1 {
        return Word(0, before, before);
      }
      hide RawWord;
      var threshold := Threshold(n);
      while true
        invariant before <= cursor
        invariant forall c :: before <= c < cursor ==> RawWord(c) < threshold
        decreases U64_MAX - cursor
      {
        var raw := NextRawU64();
        if raw.NoWord? {
          return NoWord(raw.error, before, raw.after);
        }
        if raw.value >= threshold {
          return Word(raw.value % n, before, raw.postCursor);
        }
      }
    }
  }

  // ---------------------------------------------------------------- choosing a legal action

  datatype PolicyError = EmptyCandidateDomain | InvalidCandidateDomain | Exhausted

  datatype Selection = Chosen(key: Bytes, preCursor: U64, postCursor: U64) | NotChosen(error: PolicyError)

  class RandomLegalPolicy {
    const rng: Sha256CounterRng

    constructor (rng: Sha256CounterRng)
      ensures this.rng == rng
    {
      this.rng := rng;
    }

    /** Draws only for a non-empty domain of distinct public keys, and answers the key at the
        drawn position; a refused domain consumes no randomness. */
    method Select(keys: seq<Bytes>) returns (r: Selection)
      requires |rng.domain| <= U32_MAX && |rng.identity| <= U32_MAX && |keys| <= U64_MAX
      modifies rng
      ensures keys == [] ==> r == NotChosen(EmptyCandidateDomain)
      ensures keys != [] && !KeysOk(V1, keys) ==> r == NotChosen(InvalidCandidateDomain)
      ensures keys == [] || !KeysOk(V1, keys) || |keys| == 1 ==> rng.cursor == old(rng.cursor)
      ensures keys != [] && KeysOk(V1, keys) ==>
        && (r.Chosen? ==>
              && r.preCursor == old(rng.cursor) && r.postCursor == rng.cursor
              && (|keys| == 1 ==> r.key == keys[0])
              && (|keys| > 1 ==>
                    && old(rng.cursor) < rng.cursor && rng.RawWord(rng.cursor - 1) >= Threshold(|keys|)
                    && r.key == keys[rng.RawWord(rng.cursor - 1) % |keys|]))
        && (r.NotChosen? ==> r.error == Exhausted && rng.cursor == U64_MAX)
    {
      hide KeysOk, Sha256CounterRng.RawWord, Threshold, Accepted;
      if keys == [] {
        return NotChosen(EmptyCandidateDomain);
      }
      var valid := ValidKeys(V1, keys);
      if !valid {
        return NotChosen(InvalidCandidateDomain);
      }
      var sampled := rng.UniformBelow(|keys|);
      if sampled.NoWord? {
        return NotChosen(Exhausted);
      }
      return Chosen(keys[sampled.value], sampled.preCursor, sampled.postCursor);
    }
  }

  /** Every candidate of a domain is chosen by equally many accepted raw words. */
  lemma EveryCandidateEquallyLikely(keys: seq<Bytes>, i: nat, j: nat)
    requires i < |keys| <= U64_MAX && j < |keys|
    ensures |Accepted(|keys|, i)| == |Accepted(|keys|, j)| && |Accepted(|keys|, i)| >= 1
  {
    EveryOutcomeEquallyLikely(|keys|, i, j);
    SamplerIsUniform(|keys|, i);
  }
}
