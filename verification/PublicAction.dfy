/** The public description of an action and the layout of its canonical key bytes, in both
    versions of the contract. */
module PublicAction {
  import opened Bytes
  import opened Text

  datatype Version = V1 | V2

  datatype ChoiceKind = YesNo | EffectYesNo | EffectChoice | OptionValue | AnnouncementNumber

  datatype Choice = Choice(kind: ChoiceKind, value: U64, responseIndex: Option<U32>)

  datatype ReferenceKind = VisibleCard | RedactedSlot

  datatype CardReference = CardReference(kind: ReferenceKind, locator: Bytes)

  datatype Operation = NoOperation | Select | Unselect

  datatype ActionInput = ActionInput(
    actionKind: Bytes, choice: Option<Choice>, source: Option<CardReference>, target: Option<CardReference>,
    phase: Option<U32>, position: Option<Byte>, sourceIndex: Option<U32>, amount: Option<I32>, continuation: Bytes,
    operation: Operation)

  function SchemaId(version: Version): string {
    match version
    case V1 => "ocgforge.public_action_identity.v1"
    case V2 => "ocgforge.public_action_identity.v2"
  }

  const CARD_SELECTION: string := "card_selection"

  // ---------------------------------------------------------------- code tables

  function ChoiceCode(c: ChoiceKind): Byte {
    match c
    case YesNo => 1
    case EffectYesNo => 2
    case EffectChoice => 3
    case OptionValue => 4
    case AnnouncementNumber => 5
  }

  function DecodeChoiceKind(c: Byte): (r: Option<ChoiceKind>)
    ensures r.Some? ==> ChoiceCode(r.value) == c
  {
    match c
    case 1 => Some(YesNo)
    case 2 => Some(EffectYesNo)
    case 3 => Some(EffectChoice)
    case 4 => Some(OptionValue)
    case 5 => Some(AnnouncementNumber)
    case _ => None
  }

  function ReferenceCode(k: ReferenceKind): Byte {
    match k
    case VisibleCard => 0
    case RedactedSlot => 1
  }

  function OperationCode(o: Operation): Byte {
    match o
    case NoOperation => 0
    case Select => 1
    case Unselect => 2
  }

  function DecodeOperation(c: Byte): (r: Option<Operation>)
    ensures r.Some? ==> OperationCode(r.value) == c
  {
    match c
    case 0 => Some(NoOperation)
    case 1 => Some(Select)
    case 2 => Some(Unselect)
    case _ => None
  }

  // ---------------------------------------------------------------- what a key may describe

  /** Which values and response selectors each kind of choice allows. */
  predicate ChoiceOk(c: Choice) {
    match c.kind
    case YesNo | EffectYesNo => c.value <= 1 && c.responseIndex.None?
    case EffectChoice => c.value <= U32_MAX && c.responseIndex.None?
    case OptionValue | AnnouncementNumber => c.responseIndex.Some?
  }

  predicate ReferenceOk(r: CardReference) {
    TextOk(false, r.locator) && IsLocator(r.locator)
  }

  predicate KindOk(s: Bytes) {
    TextOk(false, s) && IsLowerToken(s)
  }

  predicate ContinuationOk(s: Bytes) {
    TextOk(false, s) && (s != [] ==> IsLowerToken(s))
  }

  /** A selection operation needs V2 and a card-selection action. */
  predicate OperationOk(version: Version, kind: Bytes, o: Operation) {
    o == NoOperation || (version == V2 && kind == Ascii(CARD_SELECTION))
  }

  predicate ActionOk(version: Version, x: ActionInput) {
    && KindOk(x.actionKind) && OperationOk(version, x.actionKind, x.operation)
    && OptOk(ChoiceOk, x.choice) && OptOk(ReferenceOk, x.source) && OptOk(ReferenceOk, x.target)
    && ContinuationOk(x.continuation)
  }

  // ---------------------------------------------------------------- layout

  function PutChoice(c: Choice, k: Bytes): Bytes {
    PutU8(ChoiceCode(c.kind), PutU64(c.value, PutOpt(PutU32, c.responseIndex, k)))
  }

  function PutReference(r: CardReference, k: Bytes): Bytes {
    PutU8(ReferenceCode(r.kind), PutString(r.locator, k))
  }

  function PutActionHeader(version: Version, k: Bytes): Bytes {
    PutString(Ascii(SchemaId(version)), PutString(Ascii(SchemaId(version)), k))
  }

  function PutOperation(version: Version, o: Operation, k: Bytes): Bytes {
    if version == V2 then PutU8(OperationCode(o), k) else k
  }

  function PutAction(version: Version, x: ActionInput, k: Bytes): Bytes {
    PutActionHeader(version, PutString(x.actionKind, PutOperation(version, x.operation, PutOpt(PutChoice, x.choice,
    PutOpt(PutReference, x.source, PutOpt(PutReference, x.target, PutOpt(PutU32, x.phase, PutOpt(PutU8, x.position,
    PutOpt(PutU32, x.sourceIndex, PutOpt(PutI32, x.amount, PutString(x.continuation, k)))))))))))
  }

  // ---------------------------------------------------------------- reading it back

  function GetChoice(b: Bytes): Parsed<Choice> {
    var (code, b) :- GetU8(b);
    var (value, b) :- GetU64(b);
    var (responseIndex, b) :- GetOpt(GetU32, b);
    match DecodeChoiceKind(code)
    case None => None
    case Some(kind) =>
      var c := Choice(kind, value, responseIndex);
      if ChoiceOk(c) then Some((c, b)) else None
  }

  function GetReference(b: Bytes): Parsed<CardReference> {
    var (code, b) :- GetU8(b);
    if code > 1 then None else
    var (locator, b) :- GetString(false, b);
    if !IsLocator(locator) then None
    else Some((CardReference(if code == 0 then VisibleCard else RedactedSlot, locator), b))
  }

  function GetActionHeader(version: Version, b: Bytes): Parsed<()> {
    var (first, b) :- GetString(false, b);
    if first != Ascii(SchemaId(version)) then None else
    var (second, b) :- GetString(false, b);
    if second != Ascii(SchemaId(version)) then None else Some(((), b))
  }

  function GetOperation(version: Version, kind: Bytes, b: Bytes): Parsed<Operation> {
    if version == V1 then Some((NoOperation, b)) else
    var (code, b) :- GetU8(b);
    match DecodeOperation(code)
    case None => None
    case Some(o) => if OperationOk(version, kind, o) then Some((o, b)) else None
  }

  function GetKind(b: Bytes): Parsed<Bytes> {
    var (s, b) :- GetString(false, b);
    if IsLowerToken(s) then Some((s, b)) else None
  }

  function GetContinuation(b: Bytes): Parsed<Bytes> {
    var (s, b) :- GetString(false, b);
    if s == [] || IsLowerToken(s) then Some((s, b)) else None
  }

  function GetAction(version: Version, b: Bytes): Parsed<ActionInput> {
    var (_, b) :- GetActionHeader(version, b);
    var (actionKind, b) :- GetKind(b);
    var (operation, b) :- GetOperation(version, actionKind, b);
    var (choice, b) :- GetOpt(GetChoice, b);
    var (source, b) :- GetOpt(GetReference, b);
    var (target, b) :- GetOpt(GetReference, b);
    var (phase, b) :- GetOpt(GetU32, b);
    var (position, b) :- GetOpt(GetU8, b);
    var (sourceIndex, b) :- GetOpt(GetU32, b);
    var (amount, b) :- GetOpt(GetI32, b);
    var (continuation, b) :- GetContinuation(b);
    Some((ActionInput(actionKind, choice, source, target, phase, position, sourceIndex, amount, continuation,
      operation),
          b))
  }

  // ---------------------------------------------------------------- laws

  lemma ChoiceKindCodes(c: ChoiceKind, code: Byte)
    ensures DecodeChoiceKind(code) == Some(c) <==> ChoiceCode(c) == code
  {
  }

  lemma ChoiceSound(b: Bytes)
    requires GetChoice(b).Some?
    ensures var (c, k) := GetChoice(b).value; ChoiceOk(c) && b == PutChoice(c, k) && |b| >= 10 + |k|
  {
    hide PutU8, GetU8, PutU64, GetU64, PutU32, GetU32, PutOpt, GetOpt, ChoiceOk, DecodeChoiceKind, ChoiceCode;
    OptFieldLaws();
    hide OptComplete;
  }

  lemma ChoiceComplete(c: Choice, k: Bytes)
    requires ChoiceOk(c)
    ensures GetChoice(PutChoice(c, k)) == Some((c, k))
  {
    hide PutU8, GetU8, PutU64, GetU64, PutU32, GetU32, PutOpt, GetOpt, ChoiceOk, DecodeChoiceKind, ChoiceCode;
    FieldsComplete();
    OptFieldLaws();
    ChoiceKindCodes(c.kind, ChoiceCode(c.kind));
    hide OptSound;
  }

  lemma ChoiceLaws()
    ensures Lawful(ChoiceOk, PutChoice, GetChoice, 10)
  {
    hide GetChoice, PutChoice, ChoiceOk;
    forall b | GetChoice(b).Some?
      ensures var (c, k) := GetChoice(b).value; ChoiceOk(c) && b == PutChoice(c, k) && |b| >= 10 + |k|
    {
      ChoiceSound(b);
    }
    forall c, k | ChoiceOk(c) ensures GetChoice(PutChoice(c, k)) == Some((c, k)) {
      ChoiceComplete(c, k);
    }
  }

  lemma ReferenceLaws()
    ensures Lawful(ReferenceOk, PutReference, GetReference, 5)
  {
    hide PutU8, GetU8, PutString, GetString, TextOk, IsLocator;
    FieldsComplete();
    StringLaws(false);
  }

  lemma TextLaws()
    ensures Lawful(KindOk, PutString, GetKind, 4) && Lawful(ContinuationOk, PutString, GetContinuation, 4)
  {
    hide PutString, GetString, TextOk, IsLowerToken;
    StringLaws(false);
  }

  lemma HeaderLaws(version: Version)
    ensures forall b {:trigger GetActionHeader(version, b)} :: GetActionHeader(version, b).Some? ==>
      b == PutActionHeader(version, GetActionHeader(version, b).value.1)
    ensures forall k {:trigger PutActionHeader(version, k)} ::
      GetActionHeader(version, PutActionHeader(version, k)) == Some(((), k))
  {
    hide GetActionHeader, PutActionHeader;
    forall b | GetActionHeader(version, b).Some?
      ensures b == PutActionHeader(version, GetActionHeader(version, b).value.1)
    {
      HeaderSound(version, b);
    }
    forall k ensures GetActionHeader(version, PutActionHeader(version, k)) == Some(((), k)) {
      HeaderComplete(version, k);
    }
  }

  lemma HeaderSound(version: Version, b: Bytes)
    requires GetActionHeader(version, b).Some?
    ensures b == PutActionHeader(version, GetActionHeader(version, b).value.1)
  {
    hide PutString, GetString, TextOk, Ascii, SchemaId;
    StringLaws(false);
  }

  lemma HeaderComplete(version: Version, k: Bytes)
    ensures GetActionHeader(version, PutActionHeader(version, k)) == Some(((), k))
  {
    assert TextOk(false, Ascii(SchemaId(version)));
    hide PutString, GetString, TextOk, Ascii, SchemaId;
    StringLaws(false);
  }

  lemma OperationSound(version: Version, kind: Bytes, b: Bytes)
    ensures var r := GetOperation(version, kind, b);
      r.Some? ==> OperationOk(version, kind, r.value.0) && b == PutOperation(version, r.value.0, r.value.1)
  {
    hide PutU8, GetU8, Ascii;
  }

  lemma OperationComplete(version: Version, kind: Bytes, o: Operation, k: Bytes)
    requires OperationOk(version, kind, o)
    ensures GetOperation(version, kind, PutOperation(version, o, k)) == Some((o, k))
  {
    hide PutU8, GetU8, Ascii;
    FieldsComplete();
  }

  lemma ActionParts()
    ensures OptLawful(ChoiceOk, PutChoice, GetChoice) && OptLawful(ReferenceOk, PutReference, GetReference)
    ensures OptLawful(AnyOk, PutU32, GetU32) && OptLawful(AnyOk, PutU8, GetU8) && OptLawful(AnyOk, PutI32, GetI32)
  {
    ChoiceLaws();
    OptLaws(ChoiceOk, PutChoice, GetChoice, 10);
    ReferenceLaws();
    OptLaws(ReferenceOk, PutReference, GetReference, 5);
    OptFieldLaws();
  }

  lemma ActionSound(version: Version, b: Bytes)
    requires GetAction(version, b).Some?
    ensures var (x, k) := GetAction(version, b).value; ActionOk(version, x) && b == PutAction(version, x, k)
  {
    hide PutActionHeader, GetActionHeader, PutString, GetKind, GetContinuation, PutOperation, GetOperation, PutOpt,
      GetOpt, OperationOk, KindOk, ContinuationOk;
    HeaderLaws(version);
    TextLaws();
    ActionParts();
    hide Complete, OptComplete;
    var k := GetActionHeader(version, b).value.1;
    assert GetKind(k).Some?;
    var (kind, rest) := GetKind(k).value;
    OperationSound(version, kind, rest);
  }

  lemma ActionComplete(version: Version, x: ActionInput, k: Bytes)
    requires ActionOk(version, x)
    ensures GetAction(version, PutAction(version, x, k)) == Some((x, k))
  {
    hide PutActionHeader, GetActionHeader, PutString, GetKind, GetContinuation, PutOperation, GetOperation, PutOpt,
      GetOpt, OperationOk, KindOk, ContinuationOk;
    var rest := PutOpt(PutChoice, x.choice, PutOpt(PutReference, x.source, PutOpt(PutReference, x.target,
      PutOpt(PutU32, x.phase, PutOpt(PutU8, x.position, PutOpt(PutU32, x.sourceIndex, PutOpt(PutI32, x.amount,
      PutString(x.continuation, k))))))));
    HeaderLaws(version);
    TextLaws();
    ActionParts();
    hide Sound, Consumes, OptSound;
    OperationComplete(version, x.actionKind, x.operation, rest);
  }
}
