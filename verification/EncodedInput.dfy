/** The encoded model input and what makes one valid. */
module EncodedInput {
  import opened Bytes
  import opened Text
  import opened PublicAction
  import opened PublicActionKeys
  import opened PublicActionDomain
  import opened SafeState
  import opened LocatorTables
  import opened EncodedState
  import CardVocabulary

  datatype EncodedChoice = EncodedChoice(kindCode: Byte, value: U64, responseIndex: Option<U32>)

  datatype EncodedCardRef = EncodedCardRef(kindCode: Byte, reference: Ref<nat>)

  datatype EncodedCandidate = EncodedCandidate(
    actionKindCode: U16, choice: Option<EncodedChoice>, source: Option<EncodedCardRef>, target: Option<EncodedCardRef>,
    phase: Option<U32>, position: Option<Byte>, sourceIndex: Option<U32>, amount: Option<I32>, continuationCode: Byte,
    submitsResponse: bool)

  datatype EncodedModelInput = EncodedModelInput(
    vocabularyIdentity: Bytes, observationDigest: Bytes, perspectivePlayer: Byte, decisionIndex: U64, table: seq<Bytes>,
    contextKindCode: Option<U16>, contextPlayer: Option<Byte>, state: State<nat>, domainDigest: Option<Bytes>,
    candidates: seq<EncodedCandidate>, routingKeys: seq<Bytes>)

  const UNKNOWN_ID: U32 := 1

  // ---------------------------------------------------------------- code and token tables

  function ActionKindToken(code: U16): string
  {
    match code
    case 1 => "idle_command"
    case 2 => "battle_command"
    case 3 => "chain"
    case 4 => "option"
    case 5 => "card_selection"
    case 6 => "announcement"
    case 7 => "place"
    case 8 => "position"
    case 9 => "yes_no"
    case 10 => "pick"
    case 11 => "finish"
    case 12 => "cancel"
    case 13 => "assign_amount"
    case _ => ""
  }

  function RequestKindToken(code: U16): string {
    match code
    case 1 => "idle_command"
    case 2 => "battle_command"
    case 3 => "chain"
    case 4 => "option"
    case 5 => "card_selection"
    case 6 => "tribute"
    case 7 => "sum"
    case 8 => "place"
    case 9 => "counter"
    case 10 => "ordering"
    case 11 => "announcement"
    case 12 => "unselect_card"
    case 13 => "position"
    case 14 => "yes_no"
    case _ => ""
  }

  function ContinuationToken(code: Byte): string {
    match code
    case 1 => "pick"
    case 2 => "amount"
    case 3 => "finish"
    case 4 => "cancel"
    case 5 => "bypass"
    case _ => ""
  }

  lemma ActionTokensAreAscii(code: U16)
    ensures forall i :: 0 <= i < |ActionKindToken(code)| ==> ActionKindToken(code)[i] < 128 as char
  {
  }

  lemma RequestTokensAreAscii(code: U16)
    ensures forall i :: 0 <= i < |RequestKindToken(code)| ==> RequestKindToken(code)[i] < 128 as char
  {
  }

  lemma ContinuationTokensAreAscii(code: Byte)
    ensures forall i :: 0 <= i < |ContinuationToken(code)| ==> ContinuationToken(code)[i] < 128 as char
  {
  }

  function ActionKindBytes(code: U16): Bytes {
    ActionTokensAreAscii(code);
    Ascii(ActionKindToken(code))
  }

  function RequestKindBytes(code: U16): Bytes {
    RequestTokensAreAscii(code);
    Ascii(RequestKindToken(code))
  }

  function ContinuationBytes(code: Byte): Bytes {
    ContinuationTokensAreAscii(code);
    Ascii(ContinuationToken(code))
  }

  // ---------------------------------------------------------------- validity

  predicate DigestOk(s: Bytes) {
    IsHexDigest(s)
  }

  predicate LocatorText(s: Bytes) {
    Utf8Octets(s) && IsLocator(s)
  }

  predicate PlayerFieldOk(p: Option<Byte>) {
    p.Some? ==> p.value <= 1
  }

  predicate CodeLeByte(a: Byte, b: Byte) {
    a <= b
  }

  predicate EncodedPropertiesOk(p: EncodedProperties) {
    && |p.markerCodes| <= U32_MAX && |p.counters| <= U32_MAX
    && (forall i :: 0 <= i < |p.markerCodes| ==> p.markerCodes[i] <= 7)
    && Ordered(CodeLeByte, p.markerCodes) && Ordered(CounterLe, p.counters)
  }

  /** A current reference names an entry of the table, and its entity, if any, has that entry. */
  predicate RefOk(tableSize: nat, entities: seq<Entity<nat>>, r: Ref<nat>) {
    && r.locator < tableSize
    && (r.entity.Some? ==> r.entity.value < |entities| && entities[r.entity.value].locator == r.locator)
  }

  predicate EntityOk(table: seq<Bytes>, e: Entity<nat>) {
    && e.locator < |table|
    && (if e.identityKnown then e.vocabularyId >= 2
        else e.vocabularyId == UNKNOWN_ID && e.printed.None? && e.current.None?)
    && e.zoneCode <= 10 && e.positionCode in {0, 1, 2, 4, 8}
    && PlayerFieldOk(e.owner) && PlayerFieldOk(e.controller) && !(e.faceUp && e.faceDown)
    && (e.printed.Some? ==> EncodedPropertiesOk(e.printed.value))
    && (e.current.Some? ==> EncodedPropertiesOk(e.current.value))
  }

  predicate EntitiesOk(table: seq<Bytes>, entities: seq<Entity<nat>>) {
    && |entities| <= U32_MAX && (forall i :: 0 <= i < |entities| ==> EntityOk(table, entities[i]))
    && (forall i :: 0 < i < |entities| ==> LexLess(table[entities[i - 1].locator], table[entities[i].locator]))
  }

  predicate RelationOk(tableSize: nat, entities: seq<Entity<nat>>, r: Relation<nat>) {
    r.kindCode <= 2 && RefOk(tableSize, entities, r.source) && RefOk(tableSize, entities, r.target)
  }

  predicate EncodedLinkOk(tableSize: nat, entities: seq<Entity<nat>>, l: Link<nat>) {
    && PlayerFieldOk(l.activatingPlayer) && (l.activationZoneCode.Some? ==> l.activationZoneCode.value <= 10)
    && |l.targets| <= U32_MAX && (l.source.Some? ==> RefOk(tableSize, entities, l.source.value))
    && (forall i :: 0 <= i < |l.targets| ==> RefOk(tableSize, entities, l.targets[i]))
  }

  predicate EncodedEventOk(tableSize: nat, e: Event<nat>) {
    && e.kindCode <= 22 && PlayerFieldOk(e.player) && (e.locator.Some? ==> e.locator.value < tableSize)
    && (e.fromZoneCode.Some? ==> e.fromZoneCode.value <= 10) && (e.toZoneCode.Some? ==> e.toZoneCode.value <= 10)
    && (e.vocabularyId.Some? ==> e.vocabularyId.value >= 2)
    && |e.targets| <= U32_MAX && (forall i :: 0 <= i < |e.targets| ==> e.targets[i] < tableSize)
  }

  predicate EventsOk(tableSize: nat, events: seq<Event<nat>>) {
    && |events| <= U32_MAX && (forall i :: 0 <= i < |events| ==> EncodedEventOk(tableSize, events[i]))
    && (forall i :: 0 < i < |events| ==> events[i - 1].eventIndex < events[i].eventIndex)
  }

  predicate EncodedDeckOk(d: Deck) {
    && |d.mainDeck| <= U32_MAX && |d.extraDeck| <= U32_MAX
    && (!d.known ==> d.mainDeck == [] && d.extraDeck == [])
    && Ordered(CodeLe, d.mainDeck) && Ordered(CodeLe, d.extraDeck)
    && (forall i :: 0 <= i < |d.mainDeck| ==> d.mainDeck[i] >= 2)
    && (forall i :: 0 <= i < |d.extraDeck| ==> d.extraDeck[i] >= 2)
  }

  predicate StateOk(table: seq<Bytes>, perspective: Byte, s: State<nat>) {
    && |s.references| <= U32_MAX && (forall i :: 0 <= i < |s.references| ==> s.references[i] < |table|)
    && |s.globals.lifePoints| <= U32_MAX
    && |s.zones| <= U32_MAX && (forall i :: 0 <= i < |s.zones| ==> s.zones[i].player <= 1 && s.zones[i].kindCode <= 10)
    && EntitiesOk(table, s.entities)
    && |s.relationships| <= U32_MAX
    && (forall i :: 0 <= i < |s.relationships| ==> RelationOk(|table|, s.entities, s.relationships[i]))
    && |s.links| <= U32_MAX && (forall i :: 0 <= i < |s.links| ==> EncodedLinkOk(|table|, s.entities, s.links[i]))
    && EventsOk(|table|, s.events)
    && s.context.perspectivePlayer == perspective
    && EncodedDeckOk(s.context.ownDeck) && EncodedDeckOk(s.context.opponentDeck)
  }

  predicate EncodedChoiceOk(c: EncodedChoice) {
    && 1 <= c.kindCode <= 5
    && (c.kindCode <= 2 ==> c.value <= 1 && c.responseIndex.None?)
    && (c.kindCode == 3 ==> c.responseIndex.None?) && (c.kindCode >= 4 ==> c.responseIndex.Some?)
  }

  predicate CardRefOk(tableSize: nat, entities: seq<Entity<nat>>, r: EncodedCardRef) {
    r.kindCode <= 1 && RefOk(tableSize, entities, r.reference)
  }

  predicate CandidateOk(tableSize: nat, entities: seq<Entity<nat>>, c: EncodedCandidate) {
    && 1 <= c.actionKindCode <= 13 && c.continuationCode <= 5
    && (c.choice.Some? ==> EncodedChoiceOk(c.choice.value))
    && (c.source.Some? ==> CardRefOk(tableSize, entities, c.source.value))
    && (c.target.Some? ==> CardRefOk(tableSize, entities, c.target.value))
  }

  function PublicChoiceOf(c: EncodedChoice): Choice
    requires EncodedChoiceOk(c)
  {
    Choice(DecodeChoiceKind(c.kindCode).value, c.value, c.responseIndex)
  }

  function PublicRefOf(table: seq<Bytes>, r: EncodedCardRef): CardReference {
    CardReference(if r.kindCode == 0 then VisibleCard else RedactedSlot, At(table, r.reference.locator))
  }

  /** The public description an encoded candidate stands for. */
  function ActionOf(table: seq<Bytes>, entities: seq<Entity<nat>>, c: EncodedCandidate): ActionInput
    requires CandidateOk(|table|, entities, c)
  {
    ActionInput(ActionKindBytes(c.actionKindCode),
      if c.choice.Some? then Some(PublicChoiceOf(c.choice.value)) else None,
                if c.source.Some? then Some(PublicRefOf(table, c.source.value)) else None,
                if c.target.Some? then Some(PublicRefOf(table, c.target.value)) else None, c.phase, c.position,
                c.sourceIndex, c.amount, ContinuationBytes(c.continuationCode), NoOperation)
  }

  /** A routing key is the public key of the candidate it stands beside. */
  predicate RoutingOk(table: seq<Bytes>, entities: seq<Entity<nat>>, c: EncodedCandidate, key: Bytes) {
    && CandidateOk(|table|, entities, c)
    && ActionOk(V1, ActionOf(table, entities, c)) && key == KeyOf(V1, ActionOf(table, entities, c))
  }

  predicate HeaderOk(e: EncodedModelInput) {
    && |e.vocabularyIdentity| == 25 + 64 && e.vocabularyIdentity[..25] == Ascii(CardVocabulary.IDENTITY_PREFIX)
    && DigestOk(e.vocabularyIdentity[25..]) && DigestOk(e.observationDigest) && e.perspectivePlayer <= 1
    && |e.table| <= U32_MAX && (forall i :: 0 <= i < |e.table| ==> LocatorText(e.table[i]))
    && IsTable(e.table)
    && (e.contextKindCode.Some? ==> 1 <= e.contextKindCode.value <= 14) && PlayerFieldOk(e.contextPlayer)
  }

  /** Everything the encoder's own validation asks of its result. */
  ghost predicate EncodedOk(sha256: Bytes -> Bytes, e: EncodedModelInput) {
    && HeaderOk(e) && StateOk(e.table, e.perspectivePlayer, e.state)
    && e.candidates != [] && |e.candidates| == |e.routingKeys| <= U32_MAX
    && KeysOk(V1, e.routingKeys)
    && (forall i :: 0 <= i < |e.candidates| ==> RoutingOk(e.table, e.state.entities, e.candidates[i], e.routingKeys[i]))
    && DomainDigestOk(sha256, e)
  }

  ghost predicate DomainDigestOk(sha256: Bytes -> Bytes, e: EncodedModelInput) {
    match e.contextKindCode
    case None => e.domainDigest.None?
    case Some(code) =>
      && e.domainDigest.Some? && DigestOk(e.domainDigest.value)
      && DomainOk(V1, RequestKindBytes(code), e.routingKeys)
      && e.domainDigest.value == sha256(PutDomain(V1, RequestKindBytes(code), e.routingKeys))
  }
}
