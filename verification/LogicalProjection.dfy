/** From a public observation and its candidates to the logical model input: a table of every
    locator either mentions, and a copy of the state with ordinals into it. */
module LogicalProjection {
  import opened Bytes
  import opened Text
  import opened Sorting
  import opened PublicAction
  import opened SafeState
  import opened SafeStateNormal
  import opened SafeStateCodec
  import opened LocatorTables
  import opened EncodedState
  import opened LogicalInput
  import opened LogicalStateWriter

  datatype PublicCandidate = PublicCandidate(
    key: Bytes, actionKind: ActionKind, choice: Option<Choice>, source: Option<CardReference>,
    target: Option<CardReference>, phase: Option<U32>, position: Option<Byte>, sourceIndex: Option<U32>,
    amount: Option<I32>, continuation: Bytes, submitsResponse: bool)

  datatype ProjectionError =
    | InvalidPublicObservation | PublicSafeStateDecodeFailure | EmptyCandidateDomain | InvalidPublicActionKey
    | DuplicatePublicActionKey | InvalidPublicCandidateDescriptor | InvalidPublicReference
    | CandidateDomainDigestFailure | LocatorTableFailure

  datatype Projection = Projected(value: LogicalModelInput) | ProjectionFailed(error: ProjectionError)

  // ---------------------------------------------------------------- every locator mentioned

  function CardLocator(): ObservedCard -> seq<Bytes> {
    (c: ObservedCard) => [c.locator]
  }

  function RelationshipLocators(): Relationship -> seq<Bytes> {
    (r: Relationship) => [r.source, r.target]
  }

  function LinkLocators(): ChainLink -> seq<Bytes> {
    (l: ChainLink) => OptionSeq(l.source) + l.targets
  }

  function EventLocators(): VisibleEvent -> seq<Bytes> {
    (e: VisibleEvent) => OptionSeq(e.entity) + e.targets
  }

  function ReferenceLocator(r: Option<CardReference>): seq<Bytes> {
    if r.Some? then [r.value.locator] else []
  }

  function CandidateLocators(): PublicCandidate -> seq<Bytes> {
    (c: PublicCandidate) => ReferenceLocator(c.source) + ReferenceLocator(c.target)
  }

  function ViewLocators(v: View): seq<Bytes> {
    Flat(CardLocator(), v.entities) + Flat(RelationshipLocators(), v.relationships)
      + Flat(LinkLocators(), v.chain.links)
    + Flat(EventLocators(), v.visibleEvents)
  }

  function Mentioned(references: seq<Bytes>, v: View, cs: seq<PublicCandidate>): seq<Bytes> {
    references + ViewLocators(v) + Flat(CandidateLocators(), cs)
  }

  // ---------------------------------------------------------------- the copy

  function Locate(table: seq<Bytes>): Bytes -> Located {
    (value: Bytes) => Located(value, IndexIn(table, value))
  }

  function FirstEntity(es: seq<ObservedCard>, value: Bytes, from: nat): Option<nat>
    decreases |es| - from
  {
    if from >= |es| then None else if es[from].locator == value then Some(from) else FirstEntity(es, value, from + 1)
  }

  /** The entity a locator names, if it names one. */
  function EntityNamed(es: seq<ObservedCard>, value: Bytes): Option<nat> {
    FirstEntity(es, value, 0)
  }

  function Current(table: seq<Bytes>, es: seq<ObservedCard>): Bytes -> Ref<Located> {
    (value: Bytes) => Ref(Located(value, IndexIn(table, value)), EntityNamed(es, value))
  }

  function CopyEntities(table: seq<Bytes>, es: seq<ObservedCard>): (r: seq<LogicalEntity>)
    ensures |r| == |es|
  {
    seq(|es|, i requires 0 <= i < |es| => LogicalEntity(es[i], IndexIn(table, es[i].locator), i))
  }

  function CopyRelationship(table: seq<Bytes>, es: seq<ObservedCard>): Relationship -> LogicalRelationship {
    (r: Relationship) => LogicalRelationship(r.kind, Current(table, es)(r.source), Current(table, es)(r.target))
  }

  function CopyLink(table: seq<Bytes>, es: seq<ObservedCard>): ChainLink -> LogicalLink {
    (l: ChainLink) =>
      LogicalLink(l.index, l.activatingPlayer, MapOption(Current(table, es), l.source), l.activationZone,
                  l.effectDescription, Map(Current(table, es), l.targets))
  }

  function CopyEvent(table: seq<Bytes>): VisibleEvent -> LogicalEvent {
    (e: VisibleEvent) =>
      LogicalEvent(e.eventIndex, e.kind, e.player, MapOption(Locate(table), e.entity), e.publicPasscode, e.fromZone,
                   e.toZone, e.count, e.amount, e.counterType, e.phase, e.winner, e.winReason, e.effectDescription,
                   Map(Locate(table), e.targets))
  }

  function CopyState(table: seq<Bytes>, v: View): LogicalState {
    LogicalState(v.globals, v.zones, CopyEntities(table, v.entities),
                 Map(CopyRelationship(table, v.entities), v.relationships), v.chain.length,
                 Map(CopyLink(table, v.entities), v.chain.links), Map(CopyEvent(table), v.visibleEvents),
                   v.matchContext)
  }

  function CopyReference(table: seq<Bytes>, es: seq<ObservedCard>): CardReference -> LogicalCardRef {
    (r: CardReference) => LogicalCardRef(r.kind, Current(table, es)(r.locator))
  }

  function CopyCandidate(table: seq<Bytes>, es: seq<ObservedCard>): PublicCandidate -> LogicalCandidate {
    (c: PublicCandidate) =>
      LogicalCandidate(c.actionKind, c.choice, MapOption(CopyReference(table, es), c.source),
                       MapOption(CopyReference(table, es), c.target), c.phase, c.position, c.sourceIndex, c.amount,
                       c.continuation, c.submitsResponse)
  }

  /** Copying forgets nothing: without its ordinals the copy is the state. */
  lemma CopyIsPlain(table: seq<Bytes>, v: View)
    ensures PlainState(CopyState(table, v)) == v
  {
    hide IndexIn, EntityNamed;
    var s := CopyState(table, v);
    var cards: seq<ObservedCard> := Map(CardOf(), s.entities);
    assert cards == v.entities;
    forall r: Relationship ensures PlainRelationship(CopyRelationship(table, v.entities)(r)) == r {
      var source, target := Current(table, v.entities)(r.source), Current(table, v.entities)(r.target);
      assert CopyRelationship(table, v.entities)(r) == LogicalRelationship(r.kind, source, target);
    }
    MapUndone(CopyRelationship(table, v.entities), PlainRelationship, v.relationships);
    forall l: ChainLink ensures PlainLink(CopyLink(table, v.entities)(l)) == l {
      MapUndone(Current(table, v.entities), RefText(), l.targets);
    }
    MapUndone(CopyLink(table, v.entities), PlainLink, v.chain.links);
    forall e: VisibleEvent ensures PlainEvent(CopyEvent(table)(e)) == e {
      MapUndone(Locate(table), LocatedText(), e.targets);
    }
    MapUndone(CopyEvent(table), PlainEvent, v.visibleEvents);
  }

  // ---------------------------------------------------------------- two writers agree

  /** A state in wire order is written as it stands. */
  lemma WrittenIsPlain(v: View)
    requires ViewOk(true, v)
    ensures Written(v) == v && Short(v) && UniqueLocators(v.entities) && UniqueIndices(v.visibleEvents)
  {
    NormalView(true, v);
    NormalizeAdmitted(true, v);
    hide Normalize, ViewOk, Sort, CardMeets, LinkMeets, EventMeets, DeckMeets, NormContext, NormLink, NormEvent;
    assert ViewMeets(Demand(true, true), v);
    ShortStates(v);
    EntitiesInOrder(v);
    NormalizedParts(v);
  }

  lemma NormalizedParts(v: View)
    requires Normalize(v) == v
    ensures Sort(ZoneLe, v.zones) == v.zones && Sort(RelationshipLe, v.relationships) == v.relationships
    ensures Map(NormLink, v.chain.links) == v.chain.links
      && Map(NormEvent, Sort(EventLe, v.visibleEvents)) == v.visibleEvents
    ensures NormContext(v.matchContext) == v.matchContext
  {
  }

  lemma EntitiesInOrder(v: View)
    requires ViewOk(true, v) && UniqueLocators(v.entities)
    ensures Sort(EntityLe, v.entities) == v.entities
  {
    hide CardOk, RelationshipOk, LinkOk, EventOk, GlobalsOk, ContextOk, LexLess;
    LocatorOrders();
    LexOrder();
    SafeStateEncoder.EntitiesDoNotTie(v.entities);
    assert Ordered(EntityLe, v.entities);
    SortOfSorted(EntityLe, v.entities);
  }

  lemma ShortStates(v: View)
    requires ViewMeets(Demand(true, true), v)
    ensures Short(v)
  {
    hide IsLocator, Utf8Octets, UniqueLocators, UniqueIndices;
    forall i | 0 <= i < |v.entities| ensures CardShort(v.entities[i]) {
    }
    forall i | 0 <= i < |v.chain.links| ensures LinkShort(v.chain.links[i]) {
    }
    forall i | 0 <= i < |v.visibleEvents| ensures EventShort(v.visibleEvents[i]) {
    }
  }

  /** Two independent writers agree: the copy of a decoded state can be written by the second
      writer, whatever the table, and what is written is the bytes that were decoded. */
  lemma CopiedStateRewrites(bytes: Bytes, table: seq<Bytes>)
    requires Decode(bytes).Some?
    ensures var plain := PlainState(CopyState(table, Decode(bytes).value));
      && UniqueLocators(plain.entities) && UniqueIndices(plain.visibleEvents) && Short(plain)
      && PutView(Written(plain), []) == bytes
  {
    hide Decode, PutView, ViewOk, CopyState, PlainState, Written, Short, UniqueLocators, UniqueIndices;
    var v := Decode(bytes).value;
    DecodeIffCanonical(bytes, v);
    WrittenIsPlain(v);
    CopyIsPlain(table, v);
  }
}
