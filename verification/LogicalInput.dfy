/** The logical model input: the public state with every locator paired with its place in a
    table, and what the encoder checks before it encodes one. */
module LogicalInput {
  import opened Bytes
  import opened Text
  import opened PublicAction
  import opened PublicActionKeys
  import opened PublicActionDomain
  import opened SafeState
  import opened EncodedState
  import opened EncodedInput

  /** A locator and its ordinal in the table. */
  datatype Located = Located(value: Bytes, ordinal: nat)

  datatype LogicalEntity = LogicalEntity(card: ObservedCard, ordinal: nat, entityOrdinal: nat)

  datatype LogicalRelationship = LogicalRelationship(kind: RelationshipKind, source: Ref<Located>, target: Ref<Located>)

  datatype LogicalLink = LogicalLink(
    index: U32, activatingPlayer: Option<Byte>, source: Option<Ref<Located>>, activationZone: Option<SemanticZone>,
    effectDescription: Option<U64>, targets: seq<Ref<Located>>)

  datatype LogicalEvent = LogicalEvent(
    eventIndex: U64, kind: VisibleEventKind, player: Option<Byte>, entity: Option<Located>, publicPasscode: Option<U32>,
    fromZone: Option<SemanticZone>, toZone: Option<SemanticZone>, count: Option<U32>, amount: Option<I32>,
    counterType: Option<U32>, phase: Option<U32>, winner: Option<Byte>, winReason: Option<Byte>,
    effectDescription: Option<U64>, targets: seq<Located>)

  datatype LogicalState = LogicalState(
    globals: Globals, zones: seq<ObservedZone>, entities: seq<LogicalEntity>, relationships: seq<LogicalRelationship>,
    chainLength: U32, links: seq<LogicalLink>, events: seq<LogicalEvent>, context: MatchContext)

  datatype ActionKind =
    | Unsupported | IdleCommand | BattleCommand | Chain | Option | CardSelection | Announcement | Place | Position
    | YesNo | Pick | Finish | Cancel | AssignAmount

  datatype LogicalCardRef = LogicalCardRef(kind: ReferenceKind, reference: Ref<Located>)

  datatype LogicalCandidate = LogicalCandidate(
    actionKind: ActionKind, choice: Option<Choice>, source: Option<LogicalCardRef>, target: Option<LogicalCardRef>,
    phase: Option<U32>, position: Option<Byte>, sourceIndex: Option<U32>, amount: Option<I32>, continuation: Bytes,
    submitsResponse: bool)

  datatype LogicalModelInput = LogicalModelInput(
    observationDigest: Bytes, domainDigest: Option<Bytes>, perspectivePlayer: Byte, decisionIndex: U64,
    contextKind: Option<Bytes>, contextPlayer: Option<Byte>, references: seq<Located>, table: seq<Located>,
    state: LogicalState, routingKeys: seq<Bytes>, candidates: seq<LogicalCandidate>)

  // ---------------------------------------------------------------- codes of tokens

  function ActionKindCode(k: ActionKind): (c: U16)
    ensures c <= 13
  {
    match k
    case Unsupported => 0
    case IdleCommand => 1
    case BattleCommand => 2
    case Chain => 3
    case Option => 4
    case CardSelection => 5
    case Announcement => 6
    case Place => 7
    case Position => 8
    case YesNo => 9
    case Pick => 10
    case Finish => 11
    case Cancel => 12
    case AssignAmount => 13
  }

  function ActionKindOf(code: U16): ActionKind {
    match code
    case 1 => IdleCommand
    case 2 => BattleCommand
    case 3 => Chain
    case 4 => ActionKind.Option
    case 5 => CardSelection
    case 6 => Announcement
    case 7 => Place
    case 8 => ActionKind.Position
    case 9 => ActionKind.YesNo
    case 10 => Pick
    case 11 => Finish
    case 12 => Cancel
    case 13 => AssignAmount
    case _ => Unsupported
  }

  /** The code of a request kind, the least when several would do. */
  function RequestKindCode(kind: Bytes, from: U16): (r: Option<U16>)
    requires 1 <= from <= 15
    ensures r.Some? ==> from <= r.value <= 14 && RequestKindBytes(r.value) == kind
    ensures r.None? ==> forall c: U16 :: from <= c <= 14 ==> RequestKindBytes(c) != kind
    decreases 15 - from
  {
    if from > 14 then None else if RequestKindBytes(from) == kind then Some(from) else RequestKindCode(kind, from + 1)
  }

  function ContinuationCode(operation: Bytes, from: Byte): (r: Option<Byte>)
    requires from <= 6
    ensures r.Some? ==> from <= r.value <= 5 && ContinuationBytes(r.value) == operation
    ensures r.None? ==> forall c: Byte :: from <= c <= 5 ==> ContinuationBytes(c) != operation
    decreases 6 - from
  {
    if from > 5 then None
    else if ContinuationBytes(from) == operation then Some(from)
    else ContinuationCode(operation, from + 1)
  }

  // ---------------------------------------------------------------- validity

  predicate LocatedOk(table: seq<Located>, p: Located) {
    LocatorText(p.value) && p.ordinal < |table| && table[p.ordinal].value == p.value
  }

  predicate CurrentRefOk(table: seq<Located>, entities: seq<LogicalEntity>, r: Ref<Located>) {
    && LocatedOk(table, r.locator)
    && (r.entity.Some? ==> r.entity.value < |entities| && entities[r.entity.value].card.locator == r.locator.value)
  }

  predicate TableOk(table: seq<Located>) {
    && |table| <= U32_MAX
    && (forall i :: 0 <= i < |table| ==> LocatorText(table[i].value) && table[i].ordinal == i)
    && (forall i :: 0 < i < |table| ==> LexLess(table[i - 1].value, table[i].value))
  }

  predicate LogicalCardOk(table: seq<Located>, e: LogicalEntity) {
    && LocatedOk(table, Located(e.card.locator, e.ordinal))
    && PlayerFieldOk(e.card.owner) && PlayerFieldOk(e.card.controller) && !(e.card.faceUp && e.card.faceDown)
    && (!e.card.identityKnown ==> e.card.passcode.None? && e.card.printed.None? && e.card.current.None?)
    && OptOk(PropertiesOk, e.card.printed) && OptOk(PropertiesOk, e.card.current)
  }

  predicate LogicalEntitiesOk(table: seq<Located>, es: seq<LogicalEntity>) {
    && |es| <= U32_MAX
    && (forall i :: 0 <= i < |es| ==> LogicalCardOk(table, es[i]) && es[i].entityOrdinal == i)
    && (forall i :: 0 < i < |es| ==> LexLess(es[i - 1].card.locator, es[i].card.locator))
  }

  predicate LogicalRelationshipLe(a: LogicalRelationship, b: LogicalRelationship) {
    RelationshipLe(PlainRelationship(a), PlainRelationship(b))
  }

  function PlainRelationship(r: LogicalRelationship): Relationship {
    Relationship(r.kind, r.source.locator.value, r.target.locator.value)
  }

  predicate RefLe(a: Ref<Located>, b: Ref<Located>) {
    LexLe(a.locator.value, b.locator.value)
  }

  predicate LocatedLe(a: Located, b: Located) {
    LexLe(a.value, b.value)
  }

  predicate LogicalRelationshipsOk(table: seq<Located>, es: seq<LogicalEntity>, rs: seq<LogicalRelationship>) {
    && |rs| <= U32_MAX && Ordered(LogicalRelationshipLe, rs)
    && (forall i :: 0 <= i < |rs| ==> CurrentRefOk(table, es, rs[i].source) && CurrentRefOk(table, es, rs[i].target))
  }

  predicate LogicalLinkOk(table: seq<Located>, es: seq<LogicalEntity>, l: LogicalLink) {
    && PlayerFieldOk(l.activatingPlayer) && |l.targets| <= U32_MAX && Ordered(RefLe, l.targets)
    && (l.source.Some? ==> CurrentRefOk(table, es, l.source.value))
    && (forall i :: 0 <= i < |l.targets| ==> CurrentRefOk(table, es, l.targets[i]))
  }

  predicate LogicalLinksOk(table: seq<Located>, es: seq<LogicalEntity>, ls: seq<LogicalLink>) {
    |ls| <= U32_MAX && forall i :: 0 <= i < |ls| ==> LogicalLinkOk(table, es, ls[i])
  }

  predicate LogicalEventOk(table: seq<Located>, e: LogicalEvent) {
    && PlayerFieldOk(e.player) && |e.targets| <= U32_MAX && Ordered(LocatedLe, e.targets)
    && (e.entity.Some? ==> LocatedOk(table, e.entity.value))
    && (forall i :: 0 <= i < |e.targets| ==> LocatedOk(table, e.targets[i]))
  }

  predicate LogicalEventsOk(table: seq<Located>, es: seq<LogicalEvent>) {
    && |es| <= U32_MAX && (forall i :: 0 <= i < |es| ==> LogicalEventOk(table, es[i]))
    && (forall i :: 0 < i < |es| ==> es[i - 1].eventIndex < es[i].eventIndex)
  }

  predicate ReferencesOk(table: seq<Located>, rs: seq<Located>) {
    && |rs| <= U32_MAX && (forall i :: 0 <= i < |rs| ==> LocatedOk(table, rs[i]))
    && (forall i :: 0 < i < |rs| ==> LexLess(rs[i - 1].value, rs[i].value))
  }

  predicate LogicalStateOk(table: seq<Located>, perspective: Byte, s: LogicalState) {
    && GlobalsOk(s.globals) && ListOk(ZoneOk, ZoneLe, s.zones) && LogicalEntitiesOk(table, s.entities)
    && LogicalRelationshipsOk(table, s.entities, s.relationships) && LogicalLinksOk(table, s.entities, s.links)
    && LogicalEventsOk(table, s.events) && s.context.perspectivePlayer == perspective
    && DeckOk(s.context.ownDeck) && DeckOk(s.context.opponentDeck)
  }

  /** The code's own choice rule: it has no bound on an effect choice's value. */
  predicate LogicalChoiceOk(c: Choice) {
    match c.kind
    case YesNo | EffectYesNo => c.value <= 1 && c.responseIndex.None?
    case EffectChoice => c.responseIndex.None?
    case OptionValue | AnnouncementNumber => c.responseIndex.Some?
  }

  predicate LogicalCardRefOk(table: seq<Located>, es: seq<LogicalEntity>, r: Option<LogicalCardRef>) {
    r.Some? ==> CurrentRefOk(table, es, r.value.reference)
  }

  predicate LogicalCandidateOk(table: seq<Located>, es: seq<LogicalEntity>, c: LogicalCandidate) {
    && c.actionKind != Unsupported && OptOk(LogicalChoiceOk, c.choice) && ContinuationCode(c.continuation, 0).Some?
    && LogicalCardRefOk(table, es, c.source) && LogicalCardRefOk(table, es, c.target)
  }

  function PlainRef(r: Option<LogicalCardRef>): Option<CardReference> {
    if r.Some? then Some(CardReference(r.value.kind, r.value.reference.locator.value)) else None
  }

  function LogicalAction(c: LogicalCandidate): ActionInput {
    ActionInput(ActionKindBytes(ActionKindCode(c.actionKind)), c.choice, PlainRef(c.source), PlainRef(c.target),
      c.phase,
                c.position, c.sourceIndex, c.amount, c.continuation, NoOperation)
  }

  /** A routing key is the public key of its candidate. */
  predicate KeyMatches(c: LogicalCandidate, key: Bytes) {
    ActionOk(V1, LogicalAction(c)) && key == KeyOf(V1, LogicalAction(c))
  }

  predicate LogicalCandidatesOk(table: seq<Located>, es: seq<LogicalEntity>, cs: seq<LogicalCandidate>,
    keys: seq<Bytes>) {
    && 0 < |cs| == |keys| <= U32_MAX
    && forall i :: 0 <= i < |cs| ==> LogicalCandidateOk(table, es, cs[i]) && KeyMatches(cs[i], keys[i])
  }

  ghost predicate LogicalDigestOk(sha256: Bytes -> Bytes, kind: Option<Bytes>, keys: seq<Bytes>,
    digest: Option<Bytes>) {
    match kind
    case None => digest.None?
    case Some(k) => digest.Some? && DomainOk(V1, k, keys) && digest.value == sha256(PutDomain(V1, k, keys))
  }

  predicate LogicalHeaderOk(l: LogicalModelInput) {
    && DigestOk(l.observationDigest) && l.perspectivePlayer <= 1 && PlayerFieldOk(l.contextPlayer)
    && (l.domainDigest.Some? ==> DigestOk(l.domainDigest.value))
    && (l.contextKind.Some? ==> Utf8Octets(l.contextKind.value) && RequestKindCode(l.contextKind.value, 1).Some?)
    && TableOk(l.table) && ReferencesOk(l.table, l.references)
  }

  /** Everything the encoder checks before it encodes. */
  ghost predicate LogicalOk(sha256: Bytes -> Bytes, l: LogicalModelInput) {
    && LogicalHeaderOk(l) && LogicalStateOk(l.table, l.perspectivePlayer, l.state)
    && LogicalCandidatesOk(l.table, l.state.entities, l.candidates, l.routingKeys) && KeysOk(V1, l.routingKeys)
    && LogicalDigestOk(sha256, l.contextKind, l.routingKeys, l.domainDigest)
  }
}
