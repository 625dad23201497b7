/** What the parts of the hash are, from the sections of FIPS 180-4 that introduce them: words
    of the schedule, functions bit by bit, and constants as roots of primes. */
module Sha256Meaning {
  import opened Bytes
  import opened Sha256
  import opened WordBits

  // ---------------------------------------------------------------- words

  lemma FourBytes(bs: Bytes)
    requires |bs| == 4
    ensures FromBE(bs) == ((bs[0] as int * 0x100 + bs[1]) * 0x100 + bs[2]) * 0x100 + bs[3]
  {
    assert bs[..3][..2] == bs[..2] && bs[..3][..2][..1] == bs[..1] && bs[..1][..0] == [];
    assert FromBE(bs[..1]) == bs[0];
    assert FromBE(bs[..2]) == FromBE(bs[..2][..1]) * 256 + bs[1];
    assert FromBE(bs[..3]) == FromBE(bs[..3][..2]) * 256 + bs[2];
  }

  /** Section 5.2.1: a block is sixteen words, most significant byte first. */
  lemma WordIsBigEndian(block: Bytes, i: nat)
    requires |block| == 64 && i < 16
    ensures WordAt(block, i) == FromBE(block[4 * i..4 * i + 4])
  {
    FourBytes(block[4 * i..4 * i + 4]);
  }

  /** Section 2.2.1: addition modulo 2^32. */
  lemma AddIsModular(x: U32, y: U32)
    ensures Add(x, y) == x as int + y || Add(x, y) == x as int + y - 0x1_0000_0000
  {
  }

  /** Section 6.2.2: the eight words are added place by place. */
  lemma WordsAddedInPlace(x: Words, y: Words)
    ensures var s := AddWords(x, y);
      && s.a == Add(x.a, y.a) && s.b == Add(x.b, y.b) && s.c == Add(x.c, y.c) && s.d == Add(x.d, y.d)
      && s.e == Add(x.e, y.e) && s.f == Add(x.f, y.f) && s.g == Add(x.g, y.g) && s.h == Add(x.h, y.h)
  {
  }

  lemma WrittenWord(before: Bytes, w: U32, after: Bytes)
    ensures var d := before + ToBE(w, 4) + after; FromBE(d[|before|..|before| + 4]) == w
  {
    WidthFacts();
    FromToBE(w, 4);
    hide ToBE, FromBE;
    assert (before + ToBE(w, 4) + after)[|before|..|before| + 4] == ToBE(w, 4);
  }

  /** The digest is the eight words in order, most significant byte first. */
  lemma DigestInOrder(x: Words, i: nat)
    requires i < 8
    ensures |DigestBytes(x)| == 32
      && FromBE(DigestBytes(x)[4 * i..4 * i + 4]) == [x.a, x.b, x.c, x.d, x.e, x.f, x.g, x.h][i]
  {
    hide ToBE, FromBE;
    var abc := ToBE(x.a, 4) + ToBE(x.b, 4) + ToBE(x.c, 4);
    var abcde := abc + ToBE(x.d, 4) + ToBE(x.e, 4);
    var d := DigestBytes(x);
    var words, before := [x.a, x.b, x.c, x.d, x.e, x.f, x.g, x.h], [
      [], ToBE(x.a, 4), ToBE(x.a, 4) + ToBE(x.b, 4), abc, abc + ToBE(x.d, 4), abcde, abcde + ToBE(x.f, 4),
      abcde + ToBE(x.f, 4) + ToBE(x.g, 4)];
    WrittenWord(before[i], words[i], d[4 * i + 4..]);
    assert d == before[i] + ToBE(words[i], 4) + d[4 * i + 4..];
  }

  // ---------------------------------------------------------------- functions of words

  lemma WordAsBits(p: bv32)
    ensures (p as U32) as bv32 == p
  {
  }

  /** Section 4.1.2: each function of the hash is the operation on bits of its own name. */
  lemma NumbersAreWords(x: U32, y: U32, z: U32)
    ensures var p, q, r := x as bv32, y as bv32, z as bv32;
      && Ch(x, y, z) as bv32 == Choose(p, q, r) && Maj(x, y, z) as bv32 == Majority(p, q, r)
      && BigSigma0(x) as bv32 == BigMix0(p) && BigSigma1(x) as bv32 == BigMix1(p)
      && SmallSigma0(x) as bv32 == SmallMix0(p) && SmallSigma1(x) as bv32 == SmallMix1(p)
  {
    var p, q, r := x as bv32, y as bv32, z as bv32;
    WordAsBits(Choose(p, q, r));
    WordAsBits(Majority(p, q, r));
    WordAsBits(BigMix0(p));
    WordAsBits(BigMix1(p));
    WordAsBits(SmallMix0(p));
    WordAsBits(SmallMix1(p));
    hide Choose, Majority, BigMix0, BigMix1, SmallMix0, SmallMix1;
  }

  // ---------------------------------------------------------------- constants

  /** The first sixty-four primes, eight a row. */
  const PRIMES: seq<seq<nat>> := [
    [2, 3, 5, 7, 11, 13, 17, 19],
    [23, 29, 31, 37, 41, 43, 47, 53],
    [59, 61, 67, 71, 73, 79, 83, 89],
    [97, 101, 103, 107, 109, 113, 127, 131],
    [137, 139, 149, 151, 157, 163, 167, 173],
    [179, 181, 191, 193, 197, 199, 211, 223],
    [227, 229, 233, 239, 241, 251, 257, 263],
    [269, 271, 277, 281, 283, 293, 307, 311]]

  /** The whole parts of their cube roots. */
  const WHOLE: seq<seq<nat>> := [
    [1, 1, 1, 1, 2, 2, 2, 2],
    [2, 3, 3, 3, 3, 3, 3, 3],
    [3, 3, 4, 4, 4, 4, 4, 4],
    [4, 4, 4, 4, 4, 4, 5, 5],
    [5, 5, 5, 5, 5, 5, 5, 5],
    [5, 5, 5, 5, 5, 5, 5, 6],
    [6, 6, 6, 6, 6, 6, 6, 6],
    [6, 6, 6, 6, 6, 6, 6, 6]]

  /** The first 32 bits of the fraction of a square root: q + w / 2^32 is the root, cut off. */
  predicate SquareRoot(n: nat, q: nat, w: U32) {
    var r := q * 0x1_0000_0000 + w;
    r * r <= n * 0x1_0000_0000_0000_0000 < (r + 1) * (r + 1)
  }

  /** The same of a cube root. */
  predicate CubeRoot(n: nat, q: nat, w: U32) {
    var r := q * 0x1_0000_0000 + w;
    r * r * r <= n * 0x1_0000_0000_0000_0000_0000_0000 < (r + 1) * (r + 1) * (r + 1)
  }

  /** Section 5.3.3: the initial words are square roots of the first eight primes. */
  lemma InitialWordsAreRoots()
    ensures SquareRoot(2, 1, INITIAL.a) && SquareRoot(3, 1, INITIAL.b) && SquareRoot(5, 2, INITIAL.c)
    ensures SquareRoot(7, 2, INITIAL.d) && SquareRoot(11, 3, INITIAL.e) && SquareRoot(13, 3, INITIAL.f)
    ensures SquareRoot(17, 4, INITIAL.g) && SquareRoot(19, 4, INITIAL.h)
  {
  }

  /** A row of constants against a row of primes, given the whole parts of the roots. */
  predicate RowRooted(ps: seq<nat>, whole: seq<nat>, ws: seq<U32>)
    requires |ps| == |whole| == |ws| == 8
  {
    && CubeRoot(ps[0], whole[0], ws[0]) && CubeRoot(ps[1], whole[1], ws[1]) && CubeRoot(ps[2], whole[2], ws[2])
    && CubeRoot(ps[3], whole[3], ws[3]) && CubeRoot(ps[4], whole[4], ws[4]) && CubeRoot(ps[5], whole[5], ws[5])
    && CubeRoot(ps[6], whole[6], ws[6]) && CubeRoot(ps[7], whole[7], ws[7])
  }

  lemma Rooted0()
    ensures RowRooted(PRIMES[0], WHOLE[0], K[0])
  {
    assert CubeRoot(2, 1, 0x428a2f98) && CubeRoot(3, 1, 0x71374491);
    assert CubeRoot(5, 1, 0xb5c0fbcf) && CubeRoot(7, 1, 0xe9b5dba5);
    assert CubeRoot(11, 2, 0x3956c25b) && CubeRoot(13, 2, 0x59f111f1);
    assert CubeRoot(17, 2, 0x923f82a4) && CubeRoot(19, 2, 0xab1c5ed5);
    hide CubeRoot;
  }

  lemma Rooted1()
    ensures RowRooted(PRIMES[1], WHOLE[1], K[1])
  {
    assert CubeRoot(23, 2, 0xd807aa98) && CubeRoot(29, 3, 0x12835b01);
    assert CubeRoot(31, 3, 0x243185be) && CubeRoot(37, 3, 0x550c7dc3);
    assert CubeRoot(41, 3, 0x72be5d74) && CubeRoot(43, 3, 0x80deb1fe);
    assert CubeRoot(47, 3, 0x9bdc06a7) && CubeRoot(53, 3, 0xc19bf174);
    hide CubeRoot;
  }

  lemma Rooted2()
    ensures RowRooted(PRIMES[2], WHOLE[2], K[2])
  {
    assert CubeRoot(59, 3, 0xe49b69c1) && CubeRoot(61, 3, 0xefbe4786);
    assert CubeRoot(67, 4, 0x0fc19dc6) && CubeRoot(71, 4, 0x240ca1cc);
    assert CubeRoot(73, 4, 0x2de92c6f) && CubeRoot(79, 4, 0x4a7484aa);
    assert CubeRoot(83, 4, 0x5cb0a9dc) && CubeRoot(89, 4, 0x76f988da);
    hide CubeRoot;
  }

  lemma Rooted3()
    ensures RowRooted(PRIMES[3], WHOLE[3], K[3])
  {
    assert CubeRoot(97, 4, 0x983e5152) && CubeRoot(101, 4, 0xa831c66d);
    assert CubeRoot(103, 4, 0xb00327c8) && CubeRoot(107, 4, 0xbf597fc7);
    assert CubeRoot(109, 4, 0xc6e00bf3) && CubeRoot(113, 4, 0xd5a79147);
    assert CubeRoot(127, 5, 0x06ca6351) && CubeRoot(131, 5, 0x14292967);
    hide CubeRoot;
  }

  lemma Rooted4()
    ensures RowRooted(PRIMES[4], WHOLE[4], K[4])
  {
    assert CubeRoot(137, 5, 0x27b70a85) && CubeRoot(139, 5, 0x2e1b2138);
    assert CubeRoot(149, 5, 0x4d2c6dfc) && CubeRoot(151, 5, 0x53380d13);
    assert CubeRoot(157, 5, 0x650a7354) && CubeRoot(163, 5, 0x766a0abb);
    assert CubeRoot(167, 5, 0x81c2c92e) && CubeRoot(173, 5, 0x92722c85);
    hide CubeRoot;
  }

  lemma Rooted5()
    ensures RowRooted(PRIMES[5], WHOLE[5], K[5])
  {
    assert CubeRoot(179, 5, 0xa2bfe8a1) && CubeRoot(181, 5, 0xa81a664b);
    assert CubeRoot(191, 5, 0xc24b8b70) && CubeRoot(193, 5, 0xc76c51a3);
    assert CubeRoot(197, 5, 0xd192e819) && CubeRoot(199, 5, 0xd6990624);
    assert CubeRoot(211, 5, 0xf40e3585) && CubeRoot(223, 6, 0x106aa070);
    hide CubeRoot;
  }

  lemma Rooted6()
    ensures RowRooted(PRIMES[6], WHOLE[6], K[6])
  {
    assert CubeRoot(227, 6, 0x19a4c116) && CubeRoot(229, 6, 0x1e376c08);
    assert CubeRoot(233, 6, 0x2748774c) && CubeRoot(239, 6, 0x34b0bcb5);
    assert CubeRoot(241, 6, 0x391c0cb3) && CubeRoot(251, 6, 0x4ed8aa4a);
    assert CubeRoot(257, 6, 0x5b9cca4f) && CubeRoot(263, 6, 0x682e6ff3);
    hide CubeRoot;
  }

  lemma Rooted7()
    ensures RowRooted(PRIMES[7], WHOLE[7], K[7])
  {
    assert CubeRoot(269, 6, 0x748f82ee) && CubeRoot(271, 6, 0x78a5636f);
    assert CubeRoot(277, 6, 0x84c87814) && CubeRoot(281, 6, 0x8cc70208);
    assert CubeRoot(283, 6, 0x90befffa) && CubeRoot(293, 6, 0xa4506ceb);
    assert CubeRoot(307, 6, 0xbef9a3f7) && CubeRoot(311, 6, 0xc67178f2);
    hide CubeRoot;
  }

  /** Section 4.2.2: the constants are cube roots of the first sixty-four primes. */
  lemma ConstantsAreRoots(t: nat)
    requires t < 64
    ensures CubeRoot(PRIMES[t / 8][t % 8], WHOLE[t / 8][t % 8], RoundConstant(t))
  {
    Rooted0();
    Rooted1();
    Rooted2();
    Rooted3();
    Rooted4();
    Rooted5();
    Rooted6();
    Rooted7();
    assert RowRooted(PRIMES[t / 8], WHOLE[t / 8], K[t / 8]);
  }
}
