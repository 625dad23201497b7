/** Public action keys as they run: the encoder, the separately written recogniser, the hex
    wrapping, the byte forms built from keys, and the resolver back to internal keys. */
module PublicActionKeys {
  import opened Bytes
  import opened Text
  import opened Cursors
  import opened Writers
  import opened PublicAction

  // ---------------------------------------------------------------- hexadecimal

  function HexDigit(d: nat): Byte
    requires d < 16
  {
    if d < 10 then '0' as int + d else 'a' as int + d - 10
  }

  function LowerHex(bs: Bytes): (s: Bytes)
    ensures |s| == 2 * |bs|
  {
    if bs == [] then [] else LowerHex(bs[..|bs| - 1]) + [HexDigit(bs[|bs| - 1] / 16), HexDigit(bs[|bs| - 1] % 16)]
  }

  /** The value of a hexadecimal character; -1 when it is not one. */
  function HexValue(c: Byte): int {
    if '0' as int <= c <= '9' as int then c as int - '0' as int
    else if 'a' as int <= c <= 'f' as int then c as int - 'a' as int + 10
    else -1
  }

  lemma {:induction false} LowerHexAt(bs: Bytes, i: nat)
    requires i < |bs|
    ensures LowerHex(bs)[2 * i] == HexDigit(bs[i] / 16) && LowerHex(bs)[2 * i + 1] == HexDigit(bs[i] % 16)
    ensures HexValue(LowerHex(bs)[2 * i]) >= 0 && HexValue(LowerHex(bs)[2 * i + 1]) >= 0
    ensures HexValue(LowerHex(bs)[2 * i]) * 16 + HexValue(LowerHex(bs)[2 * i + 1]) == bs[i]
  {
    if i < |bs| - 1 {
      LowerHexAt(bs[..|bs| - 1], i);
    } else {
      var b: int := bs[i];
      assert HexValue(HexDigit(b / 16)) == b / 16 && HexValue(HexDigit(b % 16)) == b % 16;
    }
  }

  lemma LowerHexInjective(a: Bytes, b: Bytes)
    requires LowerHex(a) == LowerHex(b)
    ensures a == b
  {
    assert |a| == |b|;
    forall i | 0 <= i < |a| ensures a[i] == b[i] {
      LowerHexAt(a, i);
      LowerHexAt(b, i);
    }
  }

  lemma NotHex(encoded: Bytes, i: nat)
    requires 2 * i + 1 < |encoded| && (HexValue(encoded[2 * i]) < 0 || HexValue(encoded[2 * i + 1]) < 0)
    ensures forall bs :: encoded != LowerHex(bs)
  {
    forall bs ensures encoded != LowerHex(bs) {
      if i < |bs| {
        LowerHexAt(bs, i);
      }
    }
  }

  /** Two digits more are one byte more. */
  lemma HexStep(encoded: Bytes, index: nat, bytes: Bytes, byte: Byte)
    requires index + 1 < |encoded| && encoded[..index] == LowerHex(bytes)
    requires HexValue(encoded[index]) >= 0 && HexValue(encoded[index + 1]) >= 0
    requires byte as int == HexValue(encoded[index]) * 16 + HexValue(encoded[index + 1])
    ensures encoded[..index + 2] == LowerHex(bytes + [byte])
  {
    var more := bytes + [byte];
    assert more[..|more| - 1] == bytes;
    assert byte as int / 16 == HexValue(encoded[index]) && byte as int % 16 == HexValue(encoded[index + 1]);
    assert encoded[..index + 2] == encoded[..index] + [encoded[index], encoded[index + 1]];
  }

  method WriteLowerHex(bs: Bytes) returns (s: Bytes)
    ensures s == LowerHex(bs)
  {
    s := [];
    for i := 0 to |bs|
      invariant s == LowerHex(bs[..i])
    {
      assert bs[..i + 1][..i] == bs[..i];
      s := s + [HexDigit(bs[i] / 16), HexDigit(bs[i] % 16)];
    }
    assert bs[..|bs|] == bs;
  }

  lemma HexOfNothing()
    ensures LowerHex([]) == [] && forall c :: -1 <= HexValue(c) < 16
  {
  }

  /** Accepts exactly the non-empty images of the hex writer. */
  method DecodeLowerHex(encoded: Bytes) returns (r: Option<Bytes>)
    ensures r.Some? ==> encoded != [] && encoded == LowerHex(r.value)
    ensures r.None? ==> forall bs :: bs != [] ==> encoded != LowerHex(bs)
  {
    hide LowerHex, HexValue;
    HexOfNothing();
    if encoded == [] || |encoded| % 2 != 0 {
      return None;
    }
    var bytes: Bytes := [];
    var index := 0;
    while index < |encoded|
      invariant index % 2 == 0 && index <= |encoded| && |bytes| == index / 2
      invariant encoded[..index] == LowerHex(bytes)
    {
      var high, low := HexValue(encoded[index]), HexValue(encoded[index + 1]);
      if high < 0 || low < 0 {
        NotHex(encoded, index / 2);
        return None;
      }
      var byte: int := high * 16 + low;
      HexStep(encoded, index, bytes, byte);
      bytes := bytes + [byte];
      index := index + 2;
    }
    assert encoded[..index] == encoded;
    return Some(bytes);
  }

  // ---------------------------------------------------------------- keys

  function Prefix(version: Version): string {
    match version
    case V1 => "public_action.v1."
    case V2 => "public_action.v2."
  }

  function KeyOf(version: Version, x: ActionInput): Bytes {
    Ascii(Prefix(version)) + LowerHex(PutAction(version, x, []))
  }

  /** A key is public exactly when some admissible action has it. */
  ghost predicate IsPublicKey(version: Version, key: Bytes) {
    exists x :: ActionOk(version, x) && key == KeyOf(version, x)
  }

  lemma PrefixesDiffer()
    ensures |Ascii(Prefix(V1))| == 17 == |Ascii(Prefix(V2))| && Ascii(Prefix(V1))[15] != Ascii(Prefix(V2))[15]
  {
  }

  /** An admissible action has one key, and a key belongs to one action of one version. */
  lemma KeysAreUnique(v: Version, x: ActionInput, w: Version, y: ActionInput)
    requires ActionOk(v, x) && ActionOk(w, y)
    ensures KeyOf(v, x) == KeyOf(w, y) <==> v == w && x == y
  {
    hide PutAction, GetAction, ActionOk, LowerHex, Ascii, Prefix;
    PrefixesDiffer();
    if KeyOf(v, x) == KeyOf(w, y) {
      assert Ascii(Prefix(v))[15] == KeyOf(v, x)[15] == Ascii(Prefix(w))[15];
      assert v == w;
      assert KeyOf(v, x)[17..] == LowerHex(PutAction(v, x, []));
      assert KeyOf(v, y)[17..] == LowerHex(PutAction(v, y, []));
      LowerHexInjective(PutAction(v, x, []), PutAction(v, y, []));
      ActionComplete(v, x, []);
      ActionComplete(v, y, []);
    }
  }

  // ---------------------------------------------------------------- the encoder

  predicate ValidChoice(kind: Byte, value: U64, hasResponseIndex: bool) {
    match kind
    case 1 => value <= 1 && !hasResponseIndex
    case 2 => value <= 1 && !hasResponseIndex
    case 3 => value <= U32_MAX && !hasResponseIndex
    case 4 => hasResponseIndex
    case 5 => hasResponseIndex
    case _ => false
  }

  /** The recogniser's table on raw codes is the encoder's rule on typed choices. */
  lemma ChoiceTables(kind: Byte, value: U64, responseIndex: Option<U32>)
    ensures ValidChoice(kind, value, responseIndex.Some?) <==>
      DecodeChoiceKind(kind).Some? && ChoiceOk(Choice(DecodeChoiceKind(kind).value, value, responseIndex))
  {
  }

  method AppendChoice(w: Writer, choice: Option<Choice>) returns (r: Option<()>)
    modifies w
    ensures r.Some? <==> OptOk(ChoiceOk, choice)
    ensures r.Some? ==> forall k :: w.bytes + k == old(w.bytes) + PutOpt(PutChoice, choice, k)
  {
    hide PutU8, PutChoice, ChoiceOk;
    w.Flag(choice.Some?);
    if choice.None? {
      return Some(());
    }
    r := AppendChoiceFields(w, choice.value);
  }

  method AppendChoiceFields(w: Writer, c: Choice) returns (r: Option<()>)
    modifies w
    ensures r.Some? <==> ChoiceOk(c)
    ensures r.Some? ==> forall k :: w.bytes + k == old(w.bytes) + PutChoice(c, k)
  {
    hide PutU8, PutU64, PutOpt, ChoiceCode, ChoiceOk, ValidChoice, DecodeChoiceKind;
    ChoiceKindCodes(c.kind, ChoiceCode(c.kind));
    ChoiceTables(ChoiceCode(c.kind), c.value, c.responseIndex);
    if !ValidChoice(ChoiceCode(c.kind), c.value, c.responseIndex.Some?) {
      return None;
    }
    w.U8(ChoiceCode(c.kind));
    w.U64(c.value);
    w.OptionalU32(c.responseIndex);
    r := Some(());
  }

  method AppendReference(w: Writer, reference: Option<CardReference>) returns (r: Option<()>)
    modifies w
    ensures r.Some? <==> (reference.Some? ==> |reference.value.locator| <= U32_MAX)
    ensures r.Some? ==> forall k :: w.bytes + k == old(w.bytes) + PutOpt(PutReference, reference, k)
  {
    hide PutU8, PutString;
    w.Flag(reference.Some?);
    if reference.None? {
      return Some(());
    }
    w.U8(ReferenceCode(reference.value.kind));
    r := w.Text(reference.value.locator);
  }

  method AppendActionHeader(w: Writer, version: Version)
    modifies w
    ensures forall k :: w.bytes + k == old(w.bytes) + PutActionHeader(version, k)
  {
    var name := Ascii(SchemaId(version));
    assert |name| <= U32_MAX;
    hide PutString, Ascii, SchemaId;
    var first := w.Text(name);
    var second := w.Text(name);
  }

  /** What the encoder checks before it writes anything. */
  predicate InputChecked(version: Version, x: ActionInput) {
    && IsLowerToken(x.actionKind) && OperationOk(version, x.actionKind, x.operation)
    && (x.continuation != [] ==> IsLowerToken(x.continuation))
    && (x.source.Some? ==> IsLocator(x.source.value.locator)) && (x.target.Some? ==> IsLocator(x.target.value.locator))
  }

  /** What it can still fail on while writing: lengths and the choice. */
  predicate InputWritable(x: ActionInput) {
    && |x.actionKind| <= U32_MAX && |x.continuation| <= U32_MAX && OptOk(ChoiceOk, x.choice)
    && (x.source.Some? ==> |x.source.value.locator| <= U32_MAX)
    && (x.target.Some? ==> |x.target.value.locator| <= U32_MAX)
  }

  lemma ChecksAreAdmission(version: Version, x: ActionInput)
    ensures ActionOk(version, x) <==> InputChecked(version, x) && InputWritable(x)
  {
    hide IsLocator, IsLowerToken, OperationOk;
  }

  method AppendAction(w: Writer, version: Version, x: ActionInput) returns (r: Option<()>)
    modifies w
    ensures r.Some? <==> InputWritable(x)
    ensures r.Some? ==> forall k :: w.bytes + k == old(w.bytes) + PutAction(version, x, k)
  {
    hide PutActionHeader, PutString, PutOpt, PutU8, OptOk, OperationCode;
    AppendActionHeader(w, version);
    var _ :- w.Text(x.actionKind);
    if version == V2 {
      w.U8(OperationCode(x.operation));
    }
    var _ :- AppendChoice(w, x.choice);
    var _ :- AppendReference(w, x.source);
    var _ :- AppendReference(w, x.target);
    w.OptionalU32(x.phase);
    w.OptionalU8(x.position);
    w.OptionalU32(x.sourceIndex);
    w.OptionalI32(x.amount);
    var _ :- w.Text(x.continuation);
    r := Some(());
  }

  /** The canonical bytes of an admissible action; every other input throws. */
  method CanonicalActionBytes(version: Version, x: ActionInput) returns (r: Option<Bytes>)
    ensures r == if ActionOk(version, x) then Some(PutAction(version, x, [])) else None
  {
    hide PutAction, IsLocator, IsLowerToken, OperationOk, ActionOk, InputWritable;
    ChecksAreAdmission(version, x);
    if !IsLowerToken(x.actionKind) || !OperationOk(version, x.actionKind, x.operation) {
      return None;
    }
    if x.continuation != [] && !IsLowerToken(x.continuation) {
      return None;
    }
    if x.source.Some? && !IsLocator(x.source.value.locator) {
      return None;
    }
    if x.target.Some? && !IsLocator(x.target.value.locator) {
      return None;
    }
    assert InputChecked(version, x);
    var w := new Writer();
    var written := AppendAction(w, version, x);
    if written.None? {
      return None;
    }
    assert w.bytes + [] == w.bytes;
    assert [] + PutAction(version, x, []) == PutAction(version, x, []);
    r := Some(w.bytes);
  }

  method PublicActionKey(version: Version, x: ActionInput) returns (r: Option<Bytes>)
    ensures r == if ActionOk(version, x) then Some(KeyOf(version, x)) else None
  {
    hide ActionOk, PutAction;
    var bytes :- CanonicalActionBytes(version, x);
    var hex := WriteLowerHex(bytes);
    return Some(Ascii(Prefix(version)) + hex);
  }

  // ---------------------------------------------------------------- the recogniser

  method SkipOptionalChoice(cursor: Cursor) returns (ok: bool)
    requires cursor.Valid()
    modifies cursor
    ensures cursor.Valid()
    ensures var spec := GetOpt(GetChoice, old(cursor.Rest()));
      && ok == spec.Some?
      && (ok ==> cursor.Rest() == spec.value.1)
  {
    hide GetU8, GetU64, GetU32, DecodeChoiceKind, ChoiceOk;
    var present := cursor.U8();
    if present.None? || present.value > 1 {
      return false;
    }
    if present.value == 0 {
      return true;
    }
    var kind := cursor.U8();
    if kind.None? {
      return false;
    }
    var value := cursor.U64();
    if value.None? {
      return false;
    }
    var responseIndex := cursor.OptionalU32();
    if responseIndex.None? {
      return false;
    }
    ChoiceTables(kind.value, value.value, responseIndex.value);
    return ValidChoice(kind.value, value.value, responseIndex.value.Some?);
  }

  method SkipOptionalReference(cursor: Cursor) returns (ok: bool)
    requires cursor.Valid()
    modifies cursor
    ensures cursor.Valid()
    ensures var spec := GetOpt(GetReference, old(cursor.Rest()));
      ok == spec.Some? && (ok ==> cursor.Rest() == spec.value.1)
  {
    hide GetU8, GetString, IsLocator;
    var present := cursor.U8();
    if present.None? || present.value > 1 {
      return false;
    }
    if present.value == 0 {
      return true;
    }
    var kind := cursor.U8();
    if kind.None? || kind.value > 1 {
      return false;
    }
    var locator := cursor.Raw();
    return locator.Some? && IsLocator(locator.value);
  }

  method SkipHeader(cursor: Cursor, version: Version) returns (ok: bool)
    requires cursor.Valid()
    modifies cursor
    ensures cursor.Valid()
    ensures var spec := GetActionHeader(version, old(cursor.Rest()));
      ok == spec.Some? && (ok ==> cursor.Rest() == spec.value.1)
  {
    var name := Ascii(SchemaId(version));
    hide GetString, Ascii, SchemaId;
    var first := cursor.Raw();
    if first.None? || first.value != name {
      return false;
    }
    var second := cursor.Raw();
    return second.Some? && second.value == name;
  }

  method ReadKind(cursor: Cursor) returns (r: Option<Bytes>)
    requires cursor.Valid()
    modifies cursor
    ensures cursor.Valid() && Agrees(GetKind(old(cursor.Rest())), r, cursor.Rest())
  {
    hide GetString, IsLowerToken;
    var kind :- cursor.Raw();
    return if IsLowerToken(kind) then Some(kind) else None;
  }

  method ReadOperation(cursor: Cursor, version: Version, kind: Bytes) returns (r: Option<Operation>)
    requires cursor.Valid()
    modifies cursor
    ensures cursor.Valid() && Agrees(GetOperation(version, kind, old(cursor.Rest())), r, cursor.Rest())
  {
    var selection := Ascii(CARD_SELECTION);
    hide GetU8, Ascii, DecodeOperation;
    if version == V1 {
      return Some(NoOperation);
    }
    var code :- cursor.U8();
    var operation :- DecodeOperation(code);
    return if kind == selection || operation == NoOperation then Some(operation) else None;
  }

  method ReadContinuation(cursor: Cursor) returns (r: Option<Bytes>)
    requires cursor.Valid()
    modifies cursor
    ensures cursor.Valid() && Agrees(GetContinuation(old(cursor.Rest())), r, cursor.Rest())
  {
    hide GetString, IsLowerToken;
    var continuation :- cursor.Raw();
    return if continuation != [] && !IsLowerToken(continuation) then None else Some(continuation);
  }

  /** Walks the bytes without building an action. */
  method IsCanonicalActionBytes(version: Version, bytes: Bytes) returns (ok: bool)
    ensures ok <==> GetAction(version, bytes).Some? && GetAction(version, bytes).value.1 == []
  {
    hide GetActionHeader, GetKind, GetOperation, GetOpt, GetChoice, GetReference, GetContinuation;
    var cursor := new Cursor(bytes);
    ok := SkipHeader(cursor, version);
    if !ok {
      return false;
    }
    var kind := ReadKind(cursor);
    if kind.None? {
      return false;
    }
    var operation := ReadOperation(cursor, version, kind.value);
    if operation.None? {
      return false;
    }
    ok := SkipOptionalChoice(cursor);
    if !ok {
      return false;
    }
    ok := SkipOptionalReference(cursor);
    if !ok {
      return false;
    }
    ok := SkipOptionalReference(cursor);
    if !ok {
      return false;
    }
    var phase := cursor.OptionalU32();
    if phase.None? {
      return false;
    }
    var position := cursor.OptionalU8();
    if position.None? {
      return false;
    }
    var sourceIndex := cursor.OptionalU32();
    if sourceIndex.None? {
      return false;
    }
    var amount := cursor.OptionalI32();
    if amount.None? {
      return false;
    }
    var continuation := ReadContinuation(cursor);
    if continuation.None? {
      return false;
    }
    ok := cursor.End();
  }

  /** Bytes the walk accepts are the canonical bytes of exactly one admissible action. */
  lemma RecognisedIffEncoded(version: Version, bytes: Bytes)
    ensures (GetAction(version, bytes).Some? && GetAction(version, bytes).value.1 == []) <==>
      exists x :: ActionOk(version, x) && bytes == PutAction(version, x, [])
  {
    hide GetAction, PutAction, ActionOk;
    if GetAction(version, bytes).Some? && GetAction(version, bytes).value.1 == [] {
      ActionSound(version, bytes);
    }
    if x :| ActionOk(version, x) && bytes == PutAction(version, x, []) {
      ActionComplete(version, x, []);
    }
  }

  method IsPublicActionKey(version: Version, key: Bytes) returns (ok: bool)
    ensures ok <==> IsPublicKey(version, key)
  {
    hide GetAction, PutAction, ActionOk, LowerHex, Ascii, Prefix;
    PrefixesDiffer();
    var prefix := Ascii(Prefix(version));
    if |key| <= |prefix| || key[..|prefix|] != prefix {
      NotAKey(version, key);
      return false;
    }
    var encoded := key[|prefix|..];
    assert key == prefix + encoded;
    var bytes := DecodeLowerHex(encoded);
    if bytes.None? {
      forall x | ActionOk(version, x) ensures key != KeyOf(version, x) {
        assert KeyOf(version, x)[|prefix|..] == LowerHex(PutAction(version, x, []));
        ActionIsNotEmpty(version, x);
      }
      return false;
    }
    ok := IsCanonicalActionBytes(version, bytes.value);
    RecognisedIffEncoded(version, bytes.value);
    forall x | ActionOk(version, x) && key == KeyOf(version, x) ensures bytes.value == PutAction(version, x, []) {
      assert KeyOf(version, x)[|prefix|..] == LowerHex(PutAction(version, x, []));
      LowerHexInjective(bytes.value, PutAction(version, x, []));
    }
  }

  lemma ActionIsNotEmpty(version: Version, x: ActionInput)
    ensures PutAction(version, x, []) != []
  {
    hide PutOpt, Ascii, SchemaId, PutMany;
  }

  lemma NotAKey(version: Version, key: Bytes)
    requires var prefix := Ascii(Prefix(version)); |key| <= |prefix| || key[..|prefix|] != prefix
    ensures !IsPublicKey(version, key)
  {
    hide PutAction, ActionOk, Ascii, Prefix;
    forall x ensures key != KeyOf(version, x) {
      ActionIsNotEmpty(version, x);
      assert KeyOf(version, x)[..|Ascii(Prefix(version))|] == Ascii(Prefix(version));
    }
  }
}
