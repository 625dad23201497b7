/** The other bytes that are keyed or hashed, field by field: the observation container, the
    public action, the candidate domain, the decision identity, the card vocabulary and the
    blocks hashed for random numbers. */
module PublicLayouts {
  import opened Bytes
  import opened Text
  import opened SafeStateLayout
  import opened PublicObservation
  import opened PublicObservationCodec
  import opened PublicAction
  import opened PublicActionKeys
  import opened PublicActionDomain
  import CardVocabulary
  import PolicyRng
  import opened FieldLists

  /** Texts, present or not, and lists of them. */
  lemma NamesSpelled()
    ensures OptSpelled(IsShort, PutString, Named) && ListSpelled(IsShort, PutString, Named)
  {
    FieldsSpelled();
    hide Spells, PutString, Named;
    MaybeSpelled(IsShort, PutString, Named);
    ManySpelled(IsShort, PutString, Named);
  }

  // ---------------------------------------------------------------- the observation container

  function ObservationFields(o: Observation): seq<Field> {
    Named(Ascii(CONTAINER_SCHEMA_ID)) + Named(Ascii(CONTAINER_SCHEMA_ID)) + One(o.perspectivePlayer)
    + Eight(o.decisionIndex) + Named(o.safeState) + Maybe(Named, o.kind) + Maybe(One, o.player)
    + Listed(Named, o.references)
  }

  lemma ContainerNameIsShort()
    ensures |Ascii(CONTAINER_SCHEMA_ID)| <= U32_MAX
  {
  }

  lemma ObservationSpelled(o: Observation, k: Bytes)
    requires |o.safeState| <= U32_MAX && OptOk(IsShort, o.kind)
    requires |o.references| <= U32_MAX && AllOk(IsShort, o.references)
    ensures Spells(PutObservation(o, k), ObservationFields(o), k)
  {
    ContainerNameIsShort();
    hide Spells, PutOpt, PutList, Maybe, Listed, PutU8, PutU64, PutString, One, Eight, Named, Ascii, AllOk, OptOk;
    NumbersSpelled();
    NamesSpelled();
    FieldsSpelled();
    InTurn();
  }

  lemma ObservationIsShort(o: Observation)
    requires ObservationOk(true, o)
    ensures |o.safeState| <= U32_MAX && OptOk(IsShort, o.kind)
    ensures |o.references| <= U32_MAX && AllOk(IsShort, o.references)
  {
    hide StateMatches, IsLocator, IsLowerToken, Utf8Octets, Ordered;
  }

  /** The container decoder accepts exactly the spellings of admissible observations. */
  lemma ObservationIffSpelled(b: Bytes, o: Observation)
    ensures DecodeObservation(b) == Some(o) <==> ObservationOk(true, o) && Spells(b, ObservationFields(o), [])
  {
    hide DecodeObservation, PutObservation, ObservationOk, Spells, ObservationFields, OptOk, AllOk;
    ObservationIffCanonical(b, o);
    if ObservationOk(true, o) {
      ObservationIsShort(o);
      ObservationSpelled(o, []);
      if Spells(b, ObservationFields(o), []) {
        OneSpelling(b, PutObservation(o, []), ObservationFields(o), []);
      }
    }
  }

  // ---------------------------------------------------------------- public actions

  const CHOICES: seq<ChoiceKind> := [YesNo, EffectYesNo, EffectChoice, OptionValue, AnnouncementNumber]
  const REFERENCES: seq<ReferenceKind> := [VisibleCard, RedactedSlot]
  const OPERATIONS: seq<Operation> := [NoOperation, Select, Unselect]

  /** Codes are places in the lists, counted from one for choices. */
  lemma ActionCodesArePlaces(c: ChoiceKind, r: ReferenceKind, o: Operation)
    ensures 1 <= ChoiceCode(c) <= |CHOICES| && CHOICES[ChoiceCode(c) - 1] == c
    ensures ReferenceCode(r) < |REFERENCES| && REFERENCES[ReferenceCode(r)] == r
    ensures OperationCode(o) < |OPERATIONS| && OPERATIONS[OperationCode(o)] == o
  {
  }

  const DIGITS: string := "0123456789abcdef"

  /** A byte is two digits, the high one first. */
  lemma HexIsDigits(bs: Bytes, i: nat)
    requires i < |bs|
    ensures LowerHex(bs)[2 * i] == DIGITS[bs[i] / 16] as int && LowerHex(bs)[2 * i + 1] == DIGITS[bs[i] % 16] as int
  {
    LowerHexAt(bs, i);
    DigitsInOrder(bs[i] / 16);
    DigitsInOrder(bs[i] % 16);
  }

  lemma DigitsInOrder(d: nat)
    requires d < 16
    ensures HexDigit(d) == DIGITS[d] as int
  {
  }

  function ChoiceFields(c: Choice): seq<Field> {
    One(ChoiceCode(c.kind)) + Eight(c.value) + Maybe(Four, c.responseIndex)
  }

  function ReferenceFields(r: CardReference): seq<Field> {
    One(ReferenceCode(r.kind)) + Named(r.locator)
  }

  /** Only the second version writes the operation. */
  function OperationFields(version: Version, o: Operation): seq<Field> {
    if version == V1 then [] else One(OperationCode(o))
  }

  function ActionFields(version: Version, x: ActionInput): seq<Field> {
    Named(Ascii(SchemaId(version))) + Named(Ascii(SchemaId(version))) + Named(x.actionKind)
    + OperationFields(version, x.operation) + Maybe(ChoiceFields, x.choice) + Maybe(ReferenceFields, x.source)
    + Maybe(ReferenceFields, x.target) + Maybe(Four, x.phase) + Maybe(One, x.position) + Maybe(Four, x.sourceIndex)
    + Maybe(Signed, x.amount) + Named(x.continuation)
  }

  lemma ChoicesSpelled()
    ensures OptSpelled(ChoiceOk, PutChoice, ChoiceFields)
  {
    hide Spells, PutOpt, Maybe, PutU8, PutU64, One, Eight, ChoiceCode;
    NumbersSpelled();
    FieldsSpelled();
    InTurn();
    MaybeSpelled(ChoiceOk, PutChoice, ChoiceFields);
  }

  lemma ReferencesSpelled()
    ensures OptSpelled(ReferenceOk, PutReference, ReferenceFields)
  {
    hide Spells, PutU8, PutString, One, Named, ReferenceCode, IsLocator, Utf8Octets;
    FieldsSpelled();
    InTurn();
    MaybeSpelled(ReferenceOk, PutReference, ReferenceFields);
  }

  lemma OperationSpelled(version: Version, o: Operation, k: Bytes)
    ensures Spells(PutOperation(version, o, k), OperationFields(version, o), k)
  {
    FieldsSpelled();
  }

  lemma ActionNameIsShort(version: Version)
    ensures |Ascii(SchemaId(version))| <= U32_MAX
  {
  }

  lemma ActionSpelled(version: Version, x: ActionInput, k: Bytes)
    requires |x.actionKind| <= U32_MAX && |x.continuation| <= U32_MAX
    requires OptOk(ChoiceOk, x.choice) && OptOk(ReferenceOk, x.source) && OptOk(ReferenceOk, x.target)
    ensures Spells(PutAction(version, x, k), ActionFields(version, x), k)
  {
    ActionNameIsShort(version);
    hide Spells, PutOpt, Maybe, PutString, PutOperation, OperationFields, Named, Ascii, OptOk, ChoiceOk, ReferenceOk;
    NumbersSpelled();
    ChoicesSpelled();
    ReferencesSpelled();
    FieldsSpelled();
    InTurn();
    forall o, k ensures Spells(PutOperation(version, o, k), OperationFields(version, o), k) {
      OperationSpelled(version, o, k);
    }
  }

  /** Canonical action bytes are exactly the spellings of admissible actions. */
  lemma ActionIffSpelled(version: Version, b: Bytes, x: ActionInput)
    ensures GetAction(version, b) == Some((x, [])) <==>
      ActionOk(version, x) && Spells(b, ActionFields(version, x), [])
  {
    hide GetAction, PutAction, Spells, ActionFields, OptOk, IsLowerToken, Utf8Octets, OperationOk;
    if GetAction(version, b) == Some((x, [])) {
      ActionSound(version, b);
      ActionSpelled(version, x, []);
    }
    if ActionOk(version, x) && Spells(b, ActionFields(version, x), []) {
      ActionSpelled(version, x, []);
      OneSpelling(b, PutAction(version, x, []), ActionFields(version, x), []);
      ActionComplete(version, x, []);
    }
  }

  // ---------------------------------------------------------------- domains, decisions, vocabularies

  function DomainFields(version: Version, kind: Bytes, keys: seq<Bytes>): seq<Field> {
    Named(Ascii(DomainSchemaId(version))) + Named(kind) + Listed(Named, keys)
  }

  lemma DomainNameIsShort(version: Version)
    ensures |Ascii(DomainSchemaId(version))| <= U32_MAX
  {
  }

  lemma DomainIffSpelled(version: Version, kind: Bytes, keys: seq<Bytes>, b: Bytes)
    requires DomainFits(kind, keys)
    ensures b == PutDomain(version, kind, keys) <==> Spells(b, DomainFields(version, kind, keys), [])
  {
    DomainNameIsShort(version);
    assert AllOk(IsShort, keys);
    hide Spells, PutList, Listed, PutString, Named, Ascii, AllOk, Ordered;
    NamesSpelled();
    FieldsSpelled();
    InTurn();
    assert Spells(PutDomain(version, kind, keys), DomainFields(version, kind, keys), []);
    if Spells(b, DomainFields(version, kind, keys), []) {
      OneSpelling(b, PutDomain(version, kind, keys), DomainFields(version, kind, keys), []);
    }
  }

  function DecisionFields(version: Version, d: DecisionIdentity): seq<Field> {
    Named(Ascii(DecisionSchemaId(version))) + Named(Ascii(DecisionSchemaId(version))) + Named(d.episodeId)
    + Eight(d.decisionIndex) + One(d.actingPlayer) + Named(d.requestKind) + Named(d.observationDigest)
    + Named(d.domainDigest)
  }

  lemma DecisionNameIsShort(version: Version)
    ensures |Ascii(DecisionSchemaId(version))| <= U32_MAX
  {
  }

  lemma DecisionSpelled(version: Version, d: DecisionIdentity)
    requires DecisionOk(d)
    ensures Spells(PutDecision(version, d), DecisionFields(version, d), [])
  {
    DecisionNameIsShort(version);
    hide Spells, PutString, PutU8, PutU64, Named, One, Eight, Ascii, IsHexByte, IsLowerToken;
    FieldsSpelled();
    InTurn();
  }

  lemma DecisionIffSpelled(version: Version, d: DecisionIdentity, b: Bytes)
    requires DecisionOk(d)
    ensures b == PutDecision(version, d) <==> Spells(b, DecisionFields(version, d), [])
  {
    hide Spells, PutDecision, DecisionFields, DecisionOk;
    DecisionSpelled(version, d);
    if Spells(b, DecisionFields(version, d), []) {
      OneSpelling(b, PutDecision(version, d), DecisionFields(version, d), []);
    }
  }

  function VocabularyFields(passcodes: seq<U32>): seq<Field> {
    Named(Ascii(CardVocabulary.SCHEMA_ID)) + Named(Ascii(CardVocabulary.SCHEMA_ID))
    + Named(Ascii(CardVocabulary.MAPPING_RULE)) + Listed(Four, passcodes)
  }

  lemma VocabularyNamesAreShort()
    ensures |Ascii(CardVocabulary.SCHEMA_ID)| <= U32_MAX && |Ascii(CardVocabulary.MAPPING_RULE)| <= U32_MAX
  {
  }

  lemma VocabularyIffSpelled(passcodes: seq<U32>, b: Bytes)
    requires |passcodes| <= U32_MAX
    ensures b == CardVocabulary.VocabularyBytes(passcodes) <==> Spells(b, VocabularyFields(passcodes), [])
  {
    VocabularyNamesAreShort();
    hide Spells, PutList, Listed, PutString, Named, Ascii;
    NumbersSpelled();
    FieldsSpelled();
    InTurn();
    assert Spells(CardVocabulary.VocabularyBytes(passcodes), VocabularyFields(passcodes), []);
    if Spells(b, VocabularyFields(passcodes), []) {
      OneSpelling(b, CardVocabulary.VocabularyBytes(passcodes), VocabularyFields(passcodes), []);
    }
  }

  // ---------------------------------------------------------------- blocks of random numbers

  lemma BlockIffSpelled(domain: Bytes, identity: Bytes, index: U64, b: Bytes)
    requires |domain| <= U32_MAX && |identity| <= U32_MAX
    ensures b == PolicyRng.BlockBytes(domain, identity, index) <==>
      Spells(b, Named(domain) + Named(identity) + Eight(index), [])
  {
    hide Spells, PutString, PutU64, Named, Eight;
    FieldsSpelled();
    InTurn();
    var fields := Named(domain) + Named(identity) + Eight(index);
    assert Spells(PolicyRng.BlockBytes(domain, identity, index), fields, []);
    if Spells(b, fields, []) {
      OneSpelling(b, PolicyRng.BlockBytes(domain, identity, index), fields, []);
    }
  }
}
