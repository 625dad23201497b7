/** Byte strings as text: UTF-8 validity, the byte order on strings, and the character
    classes the codecs insist on. */
module Text {
  import opened Bytes

  // ---------------------------------------------------------------- UTF-8

  predicate Tail(b: Byte) {
    0x80 <= b <= 0xBF
  }

  /** One UTF8-char of section 4 of RFC 3629, by its table of permitted bytes. */
  predicate Utf8Char(s: Bytes) {
    match |s|
    case 1 => s[0] <= 0x7F
    case 2 => 0xC2 <= s[0] <= 0xDF && Tail(s[1])
    case 3 =>
      && Tail(s[2])
      && (|| (s[0] == 0xE0 && 0xA0 <= s[1] <= 0xBF)
          || (0xE1 <= s[0] <= 0xEC && Tail(s[1]))
          || (s[0] == 0xED && 0x80 <= s[1] <= 0x9F)
          || (0xEE <= s[0] <= 0xEF && Tail(s[1])))
    case 4 =>
      && Tail(s[2]) && Tail(s[3])
      && (|| (s[0] == 0xF0 && 0x90 <= s[1] <= 0xBF)
          || (0xF1 <= s[0] <= 0xF3 && Tail(s[1]))
          || (s[0] == 0xF4 && 0x80 <= s[1] <= 0x8F))
    case _ => false
  }

  /** The number of bytes a lead byte announces; 0 when it announces none. */
  function LeadWidth(first: Byte): (w: nat)
    ensures w <= 4
  {
    if first <= 0x7F then 1
    else if 0xC2 <= first <= 0xDF then 2
    else if 0xE0 <= first <= 0xEF then 3
    else if 0xF0 <= first <= 0xF4 then 4
    else 0
  }

  /** A string that splits into UTF8-chars, each as wide as its lead byte announces. */
  predicate Utf8Octets(s: Bytes) {
    s == [] ||
    var w := LeadWidth(s[0]);
    1 <= w <= |s| && Utf8Char(s[..w]) && Utf8Octets(s[w..])
  }

  function Join(parts: seq<Bytes>): Bytes {
    if parts == [] then [] else parts[0] + Join(parts[1..])
  }

  /** UTF8-octets of the same section, as the grammar has it: any run of UTF8-chars. */
  ghost predicate Utf8Grammar(s: Bytes) {
    exists parts: seq<Bytes> :: Join(parts) == s && forall i :: 0 <= i < |parts| ==> Utf8Char(parts[i])
  }

  lemma {:induction false} JoinIsUtf8(parts: seq<Bytes>)
    requires forall i :: 0 <= i < |parts| ==> Utf8Char(parts[i])
    ensures Utf8Octets(Join(parts))
  {
    if parts != [] {
      JoinIsUtf8(parts[1..]);
      assert Join(parts)[..|parts[0]|] == parts[0];
      assert Join(parts)[|parts[0]|..] == Join(parts[1..]);
    }
  }

  lemma {:induction false} SplitUtf8(s: Bytes) returns (parts: seq<Bytes>)
    requires Utf8Octets(s)
    ensures Join(parts) == s && forall i :: 0 <= i < |parts| ==> Utf8Char(parts[i])
  {
    if s == [] {
      parts := [];
    } else {
      var w := LeadWidth(s[0]);
      var rest := SplitUtf8(s[w..]);
      parts := [s[..w]] + rest;
      assert parts[1..] == rest;
    }
  }

  /** The lead byte forces the split, so the deterministic reading decides the grammar. */
  lemma Utf8OctetsIsGrammar(s: Bytes)
    ensures Utf8Octets(s) <==> Utf8Grammar(s)
  {
    if Utf8Octets(s) {
      var parts := SplitUtf8(s);
    }
    if Utf8Grammar(s) {
      var parts :| Join(parts) == s && forall i :: 0 <= i < |parts| ==> Utf8Char(parts[i]);
      JoinIsUtf8(parts);
    }
  }

  /** The payload bits of a lead byte. */
  function LeadPayload(first: Byte): (p: nat) {
    if first <= 0x7F then first
    else if first <= 0xDF then first % 0x20
    else if first <= 0xEF then first % 0x10
    else first % 0x08
  }

  /** The number the validator accumulates: six more bits from each continuation byte. */
  function CodePoint(lead: nat, tail: Bytes): nat {
    if |tail| == 0 then lead else CodePoint(lead, tail[..|tail| - 1]) * 64 + tail[|tail| - 1] % 64
  }

  lemma CodePointOf(lead: nat, tail: Bytes)
    requires forall i :: 0 <= i < |tail| ==> Tail(tail[i])
    ensures |tail| == 1 ==> CodePoint(lead, tail) == lead * 64 + Six(tail[0])
    ensures |tail| == 2 ==> CodePoint(lead, tail) == lead * 4096 + Six(tail[0]) * 64 + Six(tail[1])
    ensures |tail| == 3 ==>
      CodePoint(lead, tail) == lead * 262144 + Six(tail[0]) * 4096 + Six(tail[1]) * 64 + Six(tail[2])
  {
    if 1 <= |tail| <= 3 {
      CodePointOf(lead, tail[..|tail| - 1]);
    }
  }

  function Six(b: Byte): (r: nat)
    ensures Tail(b) ==> r == b as int - 0x80 < 64
  {
    b % 64
  }

  /** The overlong, surrogate and range tests on the accumulated number say exactly what the
      table of permitted second bytes says. */
  lemma RangeTestsAreTheTable(s: Bytes)
    requires 2 <= |s| <= 4 && LeadWidth(s[0]) == |s|
    requires forall i :: 1 <= i < |s| ==> Tail(s[i])
    ensures var cp := CodePoint(LeadPayload(s[0]), s[1..]);
      Utf8Char(s) <==>
        !((|s| == 3 && cp < 0x800) || (|s| == 4 && cp < 0x10000) || cp > 0x10FFFF || 0xD800 <= cp <= 0xDFFF)
  {
    CodePointOf(LeadPayload(s[0]), s[1..]);
    var lead: int := s[0];
    var six := Six(s[1]);
    if |s| == 2 {
      assert LeadPayload(s[0]) == lead - 0xC0;
    } else if |s| == 3 {
      assert LeadPayload(s[0]) == lead - 0xE0;
    } else {
      assert LeadPayload(s[0]) == lead - 0xF0;
    }
  }

  /** The checks on one multi-byte character whose lead byte is already classified. */
  method ValidUnit(unit: Bytes, lead: nat) returns (ok: bool)
    requires 2 <= |unit| <= 4 && LeadWidth(unit[0]) == |unit| && lead == LeadPayload(unit[0])
    ensures ok <==> Utf8Char(unit)
  {
    var width := |unit|;
    var codePoint: nat := lead;
    for continuation := 1 to width
      invariant forall i :: 1 <= i < continuation ==> Tail(unit[i])
      invariant codePoint == CodePoint(lead, unit[1..continuation])
    {
      var byte := unit[continuation];
      if byte / 64 != 2 {
        return false;
      }
      assert unit[1..continuation + 1][..continuation - 1] == unit[1..continuation];
      codePoint := codePoint * 64 + byte % 64;
    }
    assert unit[1..width] == unit[1..];
    RangeTestsAreTheTable(unit);
    return !((width == 3 && codePoint < 0x800) || (width == 4 && codePoint < 0x10000)
             || codePoint > 0x10FFFF || 0xD800 <= codePoint <= 0xDFFF);
  }

  /** Reading one character moves the question to the rest of the string. */
  lemma Utf8Step(value: Bytes, index: nat)
    requires index < |value|
    ensures var w := LeadWidth(value[index]);
      Utf8Octets(value[index..]) <==>
        1 <= w <= |value| - index && Utf8Char(value[index..index + w]) && Utf8Octets(value[index + w..])
  {
    var w := LeadWidth(value[index]);
    if w <= |value| - index {
      assert value[index..][..w] == value[index..index + w];
      assert value[index..][w..] == value[index + w..];
    }
  }

  method ValidUtf8(value: Bytes) returns (ok: bool)
    ensures ok <==> Utf8Octets(value)
    ensures ok <==> Utf8Grammar(value)
  {
    Utf8OctetsIsGrammar(value);
    hide Utf8Octets, Utf8Grammar;
    var index := 0;
    assert value[index..] == value;
    while index < |value|
      invariant index <= |value|
      invariant Utf8Octets(value) <==> Utf8Octets(value[index..])
    {
      Utf8Step(value, index);
      var first := value[index];
      if first <= 0x7F {
        index := index + 1;
        continue;
      }
      var width, lead: nat := 0, 0;
      if 0xC2 <= first <= 0xDF {
        width, lead := 2, first % 0x20;
      } else if 0xE0 <= first <= 0xEF {
        width, lead := 3, first % 0x10;
      } else if 0xF0 <= first <= 0xF4 {
        width, lead := 4, first % 0x08;
      } else {
        return false;
      }
      if width > |value| - index {
        return false;
      }
      var unitOk := ValidUnit(value[index..index + width], lead);
      if !unitOk {
        return false;
      }
      index := index + width;
    }
    Utf8Empty();
    assert value[index..] == [];
    return true;
  }

  lemma Utf8Empty()
    ensures Utf8Octets([])
  {
  }

  // ---------------------------------------------------------------- byte order on strings

  /** Lexicographic order on unsigned bytes; a proper prefix comes first. */
  predicate LexLess(a: Bytes, b: Bytes) {
    if |b| == 0 then false
    else if |a| == 0 then true
    else a[0] < b[0] || (a[0] == b[0] && LexLess(a[1..], b[1..]))
  }

  predicate LexLe(a: Bytes, b: Bytes) {
    !LexLess(b, a)
  }

  lemma {:induction false} LexTotal(a: Bytes, b: Bytes)
    ensures a == b || LexLess(a, b) || LexLess(b, a)
  {
    if |a| > 0 && |b| > 0 {
      LexTotal(a[1..], b[1..]);
      assert a == [a[0]] + a[1..] && b == [b[0]] + b[1..];
    }
  }

  lemma {:induction false} LexIrreflexive(a: Bytes)
    ensures !LexLess(a, a)
  {
    if |a| > 0 {
      LexIrreflexive(a[1..]);
    }
  }

  lemma {:induction false} LexTransitive(a: Bytes, b: Bytes, c: Bytes)
    requires LexLess(a, b) && LexLess(b, c)
    ensures LexLess(a, c)
  {
    if |a| > 0 && a[0] == b[0] == c[0] {
      LexTransitive(a[1..], b[1..], c[1..]);
    }
  }

  /** The order is a strict total order, stated over all strings at once. */
  lemma LexOrder()
    ensures forall a: Bytes :: !LexLess(a, a)
    ensures forall a: Bytes, b: Bytes {:trigger LexLess(a, b)} :: a == b || LexLess(a, b) || LexLess(b, a)
    ensures forall a: Bytes, b: Bytes, c: Bytes {:trigger LexLess(a, b), LexLess(b, c)} ::
      LexLess(a, b) && LexLess(b, c) ==> LexLess(a, c)
  {
    forall a: Bytes ensures !LexLess(a, a) { LexIrreflexive(a); }
    forall a: Bytes, b: Bytes ensures a == b || LexLess(a, b) || LexLess(b, a) { LexTotal(a, b); }
    forall a: Bytes, b: Bytes, c: Bytes | LexLess(a, b) && LexLess(b, c) ensures LexLess(a, c) {
      LexTransitive(a, b, c);
    }
  }

  // ---------------------------------------------------------------- character classes

  /** Non-empty and free of ASCII control characters. */
  predicate IsLocator(s: Bytes) {
    s != [] && forall i :: 0 <= i < |s| ==> s[i] >= 0x20 && s[i] != 0x7F
  }

  predicate IsTokenByte(b: Byte) {
    'a' as int <= b <= 'z' as int || '0' as int <= b <= '9' as int || b == '_' as int
  }

  predicate IsLowerToken(s: Bytes) {
    s != [] && forall i :: 0 <= i < |s| ==> IsTokenByte(s[i])
  }

  function Ascii(s: string): (r: Bytes)
    requires forall i :: 0 <= i < |s| ==> s[i] < 128 as char
    ensures |r| == |s| && forall i :: 0 <= i < |s| ==> r[i] == s[i] as int && r[i] < 0x80
  {
    seq(|s|, i requires 0 <= i < |s| => s[i] as int)
  }

  lemma {:induction false} AsciiIsUtf8(s: Bytes)
    requires forall i :: 0 <= i < |s| ==> s[i] < 0x80
    ensures Utf8Octets(s)
  {
    if s != [] {
      AsciiIsUtf8(s[1..]);
    }
  }

  // ---------------------------------------------------------------- length-prefixed strings

  /** A text field is UTF-8 only for the readers that ask for it. */
  predicate TextOk(utf8: bool, s: Bytes) {
    |s| <= U32_MAX && (utf8 ==> Utf8Octets(s))
  }

  predicate IsShort(s: Bytes) {
    |s| <= U32_MAX
  }

  function PutString(s: Bytes, k: Bytes): Bytes {
    PutCount(|s|, s + k)
  }

  function GetString(utf8: bool, b: Bytes): Parsed<Bytes> {
    match GetU32(b)
    case None => None
    case Some((n, k)) =>
      if n > |k| || (utf8 && !Utf8Octets(k[..n])) then None else Some((k[..n], k[n..]))
  }

  lemma StringSound(utf8: bool, b: Bytes)
    ensures var r := GetString(utf8, b);
      r.Some? ==>
        && TextOk(utf8, r.value.0) && b == PutString(r.value.0, r.value.1)
        && |b| == 4 + |r.value.0| + |r.value.1|
  {
    hide Utf8Octets, PutU32, GetU32;
    if GetU32(b).Some? && GetU32(b).value.0 <= |GetU32(b).value.1| {
      var (n, k) := GetU32(b).value;
      assert k == k[..n] + k[n..];
      assert n % 0x1_0000_0000 == n;
    }
  }

  lemma StringComplete(utf8: bool, s: Bytes, k: Bytes)
    requires TextOk(utf8, s)
    ensures GetString(utf8, PutString(s, k)) == Some((s, k))
  {
    hide Utf8Octets, PutU32, GetU32;
    FieldsComplete();
    assert |s| % 0x1_0000_0000 == |s|;
    assert (s + k)[..|s|] == s && (s + k)[|s|..] == k;
  }

  function StringGetter(utf8: bool): Getter<Bytes> {
    b => GetString(utf8, b)
  }

  function TextRule(utf8: bool): Bytes -> bool {
    s => TextOk(utf8, s)
  }

  lemma StringLaws(utf8: bool)
    ensures Lawful(TextRule(utf8), PutString, StringGetter(utf8), 4)
    ensures forall b {:trigger GetString(utf8, b)} :: GetString(utf8, b).Some? ==>
      TextOk(utf8, GetString(utf8, b).value.0) && b == PutString(GetString(utf8, b).value.0, GetString(utf8, b).value.1)
      && |b| >= 4 + |GetString(utf8, b).value.1|
    ensures forall s, k {:trigger PutString(s, k)} :: TextOk(utf8, s) ==>
      GetString(utf8, PutString(s, k)) == Some((s, k))
  {
    hide GetString, PutString, TextOk;
    forall b | GetString(utf8, b).Some?
      ensures var (s, k) := GetString(utf8, b).value; TextOk(utf8, s) && b == PutString(s, k) && |b| >= 4 + |k|
    {
      StringSound(utf8, b);
    }
    forall s, k | TextOk(utf8, s) ensures GetString(utf8, PutString(s, k)) == Some((s, k)) {
      StringComplete(utf8, s, k);
    }
  }
}
