/** From a logical model input to an encoded one: what the encoding is, that nothing is lost in
    it, and that it never needs the check that follows it. */
module ModelInputEncoder {
  import opened Bytes
  import opened Text
  import opened Sorting
  import opened PublicAction
  import opened PublicActionDomain
  import opened SafeState
  import opened LocatorTables
  import opened EncodedState
  import opened CardVocabulary
  import opened EncodedInput
  import opened LogicalInput

  datatype Fault = InvalidLogical | UnknownPasscode

  datatype Attempt<+T> = Done(value: T) | Failed(fault: Fault) {
    predicate IsFailure() {
      Failed?
    }

    function PropagateFailure<U>(): Attempt<U>
      requires Failed?
    {
      Failed(fault)
    }

    function Extract(): T
      requires Done?
    {
      value
    }
  }

  /** Encodes a list from the front; the first failure is the result. */
  function Each<A, B>(f: A -> Attempt<B>, xs: seq<A>): Attempt<seq<B>> {
    if xs == [] then Done([])
    else
      var init :- Each(f, xs[..|xs| - 1]);
      var last :- f(xs[|xs| - 1]);
      Done(init + [last])
  }

  lemma {:induction false} EachDone<A, B>(f: A -> Attempt<B>, xs: seq<A>)
    ensures Each(f, xs).Done? <==> forall i :: 0 <= i < |xs| ==> f(xs[i]).Done?
    ensures Each(f, xs).Done? ==>
      |Each(f, xs).value| == |xs| && forall i :: 0 <= i < |xs| ==> Each(f, xs).value[i] == f(xs[i]).value
  {
    if xs != [] {
      var init := xs[..|xs| - 1];
      EachDone(f, init);
      assert forall i :: 0 <= i < |init| ==> init[i] == xs[i];
    }
  }

  /** Nothing after the first failure matters. */
  lemma {:induction false} EachStops<A, B>(f: A -> Attempt<B>, xs: seq<A>, i: nat)
    requires i < |xs| && Each(f, xs[..i]).Done? && f(xs[i]).Failed?
    ensures Each(f, xs) == Failed(f(xs[i]).fault)
  {
    var init := xs[..|xs| - 1];
    if i < |xs| - 1 {
      assert init[..i] == xs[..i];
      EachStops(f, init, i);
    }
  }

  // ---------------------------------------------------------------- the encoding

  function EncodeCode(passcodes: seq<U32>, passcode: U32): Attempt<U32> {
    match IdOf(passcodes, passcode)
    case None => Failed(UnknownPasscode)
    case Some(id) => if id < 2 then Failed(UnknownPasscode) else Done(id)
  }

  function CodeEncoder(passcodes: seq<U32>): U32 -> Attempt<U32> {
    passcode => EncodeCode(passcodes, passcode)
  }

  function EncodeProperties(p: CardProperties): EncodedProperties {
    EncodedProperties(p.typ, p.attribute, p.race, p.attack, p.defense, p.baseAttack, p.baseDefense, p.level, p.rank,
                      p.linkRating, Map(MarkerCode, p.linkMarkers), p.leftScale, p.rightScale, p.statusFlags,
                        p.counters)
  }

  function EncodeZone(z: ObservedZone): EncodedZone {
    EncodedZone(z.player, ZoneCode(z.kind), z.totalCount, z.publicIdentityCount, z.hiddenCount, z.playerObservableOrder)
  }

  function EncodeIdentity(passcodes: seq<U32>, c: ObservedCard): Attempt<U32> {
    if !c.identityKnown then Done(UNKNOWN_ID)
    else if c.passcode.None? then Failed(InvalidLogical)
    else EncodeCode(passcodes, c.passcode.value)
  }

  function EntityWith(e: LogicalEntity, id: U32): Entity<nat> {
    var c := e.card;
    Entity(e.ordinal, c.identityKnown, id, c.owner, c.controller, ZoneCode(c.zone), c.sequence, c.overlaySequence,
           PositionCode(c.position), c.faceUp, c.faceDown,
           if c.identityKnown then MapOption(EncodeProperties, c.printed) else None,
           if c.identityKnown then MapOption(EncodeProperties, c.current) else None)
  }

  function EncodeEntity(passcodes: seq<U32>, e: LogicalEntity): Attempt<Entity<nat>> {
    var id :- EncodeIdentity(passcodes, e.card);
    Done(EntityWith(e, id))
  }

  function EntityEncoder(passcodes: seq<U32>): LogicalEntity -> Attempt<Entity<nat>> {
    e => EncodeEntity(passcodes, e)
  }

  function EncodeRef(r: Ref<Located>): Ref<nat> {
    Ref(r.locator.ordinal, r.entity)
  }

  function EncodeRelationship(r: LogicalRelationship): Relation<nat> {
    Relation(RelationshipCode(r.kind), EncodeRef(r.source), EncodeRef(r.target))
  }

  function EncodeLink(l: LogicalLink): Link<nat> {
    Link(l.index, l.activatingPlayer, MapOption(EncodeRef, l.source), MapOption(ZoneCode, l.activationZone),
         l.effectDescription, Map(EncodeRef, l.targets))
  }

  function OrdinalOf(): Located -> nat {
    (p: Located) => p.ordinal
  }

  function EncodePasscode(passcodes: seq<U32>, p: Option<U32>): Attempt<Option<U32>> {
    match p
    case None => Done(None)
    case Some(code) =>
      var id :- EncodeCode(passcodes, code);
      Done(Some(id))
  }

  function EventWith(e: LogicalEvent, id: Option<U32>): Event<nat> {
    Event(e.eventIndex, EventKindCode(e.kind), e.player, MapOption(OrdinalOf(), e.entity), id,
          MapOption(ZoneCode, e.fromZone), MapOption(ZoneCode, e.toZone), e.count, e.amount, e.counterType, e.phase,
          e.winner, e.winReason, e.effectDescription, Map(OrdinalOf(), e.targets))
  }

  function EncodeEvent(passcodes: seq<U32>, e: LogicalEvent): Attempt<Event<nat>> {
    var id :- EncodePasscode(passcodes, e.publicPasscode);
    Done(EventWith(e, id))
  }

  function EventEncoder(passcodes: seq<U32>): LogicalEvent -> Attempt<Event<nat>> {
    e => EncodeEvent(passcodes, e)
  }

  function EncodeDeck(passcodes: seq<U32>, d: Deck): Attempt<Deck> {
    var mainDeck :- Each(CodeEncoder(passcodes), d.mainDeck);
    var extraDeck :- Each(CodeEncoder(passcodes), d.extraDeck);
    Done(Deck(d.known, mainDeck, extraDeck))
  }

  function EncodeContext(passcodes: seq<U32>, m: MatchContext): Attempt<EncodedContext> {
    var own :- EncodeDeck(passcodes, m.ownDeck);
    var opponent :- EncodeDeck(passcodes, m.opponentDeck);
    Done(EncodedContext(m.perspectivePlayer, m.duelFlags, m.ownDecklistKnown, m.opponentDecklistKnown, own, opponent))
  }

  function EncodeState(passcodes: seq<U32>, references: seq<Located>, s: LogicalState): Attempt<State<nat>> {
    var entities :- Each(EntityEncoder(passcodes), s.entities);
    var events :- Each(EventEncoder(passcodes), s.events);
    var context :- EncodeContext(passcodes, s.context);
    Done(State(Map(OrdinalOf(), references), s.globals, Map(EncodeZone, s.zones), entities,
               Map(EncodeRelationship, s.relationships), s.chainLength, Map(EncodeLink, s.links), events, context))
  }

  function EncodeChoice(c: Choice): EncodedChoice {
    EncodedChoice(ChoiceCode(c.kind), c.value, c.responseIndex)
  }

  function EncodeCardRef(r: LogicalCardRef): EncodedCardRef {
    EncodedCardRef(ReferenceCode(r.kind), EncodeRef(r.reference))
  }

  function EncodeCandidate(c: LogicalCandidate): Attempt<EncodedCandidate> {
    if c.actionKind == Unsupported then Failed(InvalidLogical)
    else
      match ContinuationCode(c.continuation, 0)
      case None => Failed(InvalidLogical)
      case Some(code) =>
        Done(EncodedCandidate(ActionKindCode(c.actionKind), MapOption(EncodeChoice, c.choice),
                              MapOption(EncodeCardRef, c.source), MapOption(EncodeCardRef, c.target), c.phase,
                                c.position,
                              c.sourceIndex, c.amount, code, c.submitsResponse))
  }

  function ValueOf(): Located -> Bytes {
    (p: Located) => p.value
  }

  function KindCode(kind: Option<Bytes>): Option<U16> {
    match kind
    case None => None
    case Some(k) => RequestKindCode(k, 1)
  }

  /** The encoding, or the fault of the first part that has none. */
  function Encode(sha256: Bytes -> Bytes, passcodes: seq<U32>, l: LogicalModelInput): Attempt<EncodedModelInput> {
    var state :- EncodeState(passcodes, l.references, l.state);
    var candidates :- Each(EncodeCandidate, l.candidates);
    Done(EncodedModelInput(Identity(sha256, passcodes), l.observationDigest, l.perspectivePlayer, l.decisionIndex,
                           Map(ValueOf(), l.table), KindCode(l.contextKind), l.contextPlayer, state, l.domainDigest,
                           candidates, l.routingKeys))
  }

  // ---------------------------------------------------------------- when there is an encoding

  predicate CardNamed(passcodes: seq<U32>, c: ObservedCard) {
    c.identityKnown ==> c.passcode.Some? && IdOf(passcodes, c.passcode.value).Some?
  }

  predicate CodesNamed(passcodes: seq<U32>, codes: seq<U32>) {
    forall i :: 0 <= i < |codes| ==> IdOf(passcodes, codes[i]).Some?
  }

  predicate DeckNamed(passcodes: seq<U32>, d: Deck) {
    CodesNamed(passcodes, d.mainDeck) && CodesNamed(passcodes, d.extraDeck)
  }

  /** Every identity the input shows has a passcode, and the vocabulary lists it. */
  predicate AllNamed(passcodes: seq<U32>, s: LogicalState) {
    && (forall i :: 0 <= i < |s.entities| ==> CardNamed(passcodes, s.entities[i].card))
    && (forall i :: 0 <= i < |s.events| ==>
      s.events[i].publicPasscode.Some? ==> IdOf(passcodes, s.events[i].publicPasscode.value).Some?)
    && DeckNamed(passcodes, s.context.ownDeck) && DeckNamed(passcodes, s.context.opponentDeck)
  }

  lemma CodeEncodes(passcodes: seq<U32>, passcode: U32)
    ensures EncodeCode(passcodes, passcode).Done? <==> IdOf(passcodes, passcode).Some?
    ensures EncodeCode(passcodes, passcode).Done? ==>
      EncodeCode(passcodes, passcode).value == IdOf(passcodes, passcode).value >= 2
  {
    hide IdOf;
    IdIsRank(passcodes, passcode);
  }

  lemma DeckEncodes(passcodes: seq<U32>, d: Deck)
    ensures EncodeDeck(passcodes, d).Done? <==> DeckNamed(passcodes, d)
    ensures EncodeDeck(passcodes, d).Done? ==> var e := EncodeDeck(passcodes, d).value;
      && e.known == d.known && |e.mainDeck| == |d.mainDeck| && |e.extraDeck| == |d.extraDeck|
      && (forall i :: 0 <= i < |d.mainDeck| ==> IdOf(passcodes, d.mainDeck[i]) == Some(e.mainDeck[i]))
      && (forall i :: 0 <= i < |d.extraDeck| ==> IdOf(passcodes, d.extraDeck[i]) == Some(e.extraDeck[i]))
  {
    hide Each, IdOf, EncodeCode;
    EachDone(CodeEncoder(passcodes), d.mainDeck);
    EachDone(CodeEncoder(passcodes), d.extraDeck);
    forall c: U32 ensures EncodeCode(passcodes, c).Done? <==> IdOf(passcodes, c).Some?
      ensures EncodeCode(passcodes, c).Done? ==> EncodeCode(passcodes, c).value == IdOf(passcodes, c).value
    {
      CodeEncodes(passcodes, c);
    }
  }

  lemma EntityEncodes(passcodes: seq<U32>, e: LogicalEntity)
    ensures EncodeEntity(passcodes, e).Done? <==> CardNamed(passcodes, e.card)
    ensures EncodeEntity(passcodes, e).Done? ==>
      EncodeEntity(passcodes, e).value
      == EntityWith(e, if e.card.identityKnown then IdOf(passcodes, e.card.passcode.value).value else UNKNOWN_ID)
  {
    hide IdOf, EntityWith;
    if e.card.passcode.Some? {
      CodeEncodes(passcodes, e.card.passcode.value);
    }
  }

  lemma EventEncodes(passcodes: seq<U32>, e: LogicalEvent)
    ensures EncodeEvent(passcodes, e).Done? <==> (e.publicPasscode.Some? ==>
      IdOf(passcodes, e.publicPasscode.value).Some?)
    ensures EncodeEvent(passcodes, e).Done? ==>
      EncodeEvent(passcodes, e).value
      == EventWith(e, if e.publicPasscode.Some? then IdOf(passcodes, e.publicPasscode.value) else None)
  {
    hide IdOf, EventWith;
    if e.publicPasscode.Some? {
      CodeEncodes(passcodes, e.publicPasscode.value);
    }
  }

  /** A state encodes exactly when every identity it shows is named. */
  lemma StateEncodes(passcodes: seq<U32>, references: seq<Located>, s: LogicalState)
    ensures EncodeState(passcodes, references, s).Done? <==> AllNamed(passcodes, s)
  {
    hide Each, IdOf, EncodeDeck, EncodeEntity, EncodeEvent, DeckNamed, CardNamed;
    EachDone(EntityEncoder(passcodes), s.entities);
    EachDone(EventEncoder(passcodes), s.events);
    forall e: LogicalEntity ensures EncodeEntity(passcodes, e).Done? <==> CardNamed(passcodes, e.card) {
      EntityEncodes(passcodes, e);
    }
    forall i | 0 <= i < |s.events|
      ensures EncodeEvent(passcodes, s.events[i]).Done? <==>
        (s.events[i].publicPasscode.Some? ==> IdOf(passcodes, s.events[i].publicPasscode.value).Some?)
    {
      EventEncodes(passcodes, s.events[i]);
    }
    DeckEncodes(passcodes, s.context.ownDeck);
    DeckEncodes(passcodes, s.context.opponentDeck);
  }

  lemma CandidatesEncode(table: seq<Located>, es: seq<LogicalEntity>, cs: seq<LogicalCandidate>, keys: seq<Bytes>)
    requires LogicalCandidatesOk(table, es, cs, keys)
    ensures Each(EncodeCandidate, cs).Done?
  {
    hide Each, KeyMatches, ContinuationCode, LogicalCardRefOk;
    EachDone(EncodeCandidate, cs);
    forall i | 0 <= i < |cs| ensures EncodeCandidate(cs[i]).Done? {
      assert LogicalCandidateOk(table, es, cs[i]);
    }
  }

  /** A valid input encodes exactly when every identity it shows is named; in particular no
      token and no kind it admits lacks a code. */
  lemma EncodesIffNamed(sha256: Bytes -> Bytes, passcodes: seq<U32>, l: LogicalModelInput)
    requires LogicalOk(sha256, l)
    ensures Encode(sha256, passcodes, l).Done? <==> AllNamed(passcodes, l.state)
  {
    hide Each, EncodeState, AllNamed, LogicalStateOk, LogicalHeaderOk, LogicalCandidatesOk, KeysOk;
    StateEncodes(passcodes, l.references, l.state);
    CandidatesEncode(l.table, l.state.entities, l.candidates, l.routingKeys);
  }

  lemma {:induction false} EachFails<A, B>(f: A -> Attempt<B>, xs: seq<A>)
    requires Each(f, xs).Failed?
    ensures exists i :: 0 <= i < |xs| && f(xs[i]) == Failed(Each(f, xs).fault) && Each(f, xs[..i]).Done?
  {
    var init := xs[..|xs| - 1];
    if Each(f, init).Failed? {
      EachFails(f, init);
      var i :| 0 <= i < |init| && f(init[i]) == Failed(Each(f, init).fault) && Each(f, init[..i]).Done?;
      assert init[..i] == xs[..i] && init[i] == xs[i];
    }
  }

  /** An entity with an identity and no passcode, after entities that are all named. */
  predicate Nameless(passcodes: seq<U32>, es: seq<LogicalEntity>, i: nat) {
    && i < |es| && es[i].card.identityKnown && es[i].card.passcode.None?
    && forall j :: 0 <= j < i ==> CardNamed(passcodes, es[j].card)
  }

  lemma EntityFaults(passcodes: seq<U32>, es: seq<LogicalEntity>)
    requires Each(EntityEncoder(passcodes), es).Failed?
    ensures Each(EntityEncoder(passcodes), es) == Failed(InvalidLogical) <==> exists i :: Nameless(passcodes, es, i)
  {
    hide Each, IdOf, EntityWith;
    var f := EntityEncoder(passcodes);
    forall e: LogicalEntity
      ensures EncodeEntity(passcodes, e).Done? <==> CardNamed(passcodes, e.card)
      ensures EncodeEntity(passcodes, e) == Failed(InvalidLogical) <==> e.card.identityKnown && e.card.passcode.None?
    {
      EntityEncodes(passcodes, e);
    }
    EachFails(f, es);
    var first :| 0 <= first < |es| && f(es[first]) == Failed(Each(f, es).fault) && Each(f, es[..first]).Done?;
    EachDone(f, es[..first]);
    assert forall j :: 0 <= j < first ==> f(es[..first][j]).Done? && es[..first][j] == es[j];
    if f(es[first]) == Failed(InvalidLogical) {
      assert Nameless(passcodes, es, first);
    }
    forall i: nat | Nameless(passcodes, es, i) ensures f(es[first]) == Failed(InvalidLogical) {
      assert f(es[i]) == Failed(InvalidLogical);
      assert i != first ==> i > first;
    }
  }

  /** When a valid input has no encoding, it is a missing passcode that is reported, rather than
      an unlisted one, exactly when that is what the first unnamed entity lacks. */
  lemma FaultIsFirst(sha256: Bytes -> Bytes, passcodes: seq<U32>, l: LogicalModelInput)
    requires LogicalOk(sha256, l) && !AllNamed(passcodes, l.state)
    ensures Encode(sha256, passcodes, l).Failed?
    ensures Encode(sha256, passcodes, l) == Failed(InvalidLogical) <==>
      exists i :: Nameless(passcodes, l.state.entities, i)
  {
    EncodesIffNamed(sha256, passcodes, l);
    hide Each, EncodeDeck, EncodeEntity, IdOf, EncodeCode, AllNamed, LogicalStateOk, LogicalHeaderOk,
      LogicalCandidatesOk, KeysOk, LogicalDigestOk, CardNamed;
    CandidatesEncode(l.table, l.state.entities, l.candidates, l.routingKeys);
    var es, vs := l.state.entities, l.state.events;
    if Each(EntityEncoder(passcodes), es).Failed? {
      EntityFaults(passcodes, es);
    } else {
      EntitiesNamed(passcodes, es);
      EventFaults(passcodes, vs);
      DeckFaults(passcodes, l.state.context.ownDeck);
      DeckFaults(passcodes, l.state.context.opponentDeck);
    }
  }

  lemma EntitiesNamed(passcodes: seq<U32>, es: seq<LogicalEntity>)
    requires Each(EntityEncoder(passcodes), es).Done?
    ensures !exists i :: Nameless(passcodes, es, i)
  {
    hide Each, EntityWith, IdOf;
    EachDone(EntityEncoder(passcodes), es);
    forall i | 0 <= i < |es| ensures CardNamed(passcodes, es[i].card) {
      EntityEncodes(passcodes, es[i]);
    }
  }

  lemma EventFaults(passcodes: seq<U32>, es: seq<LogicalEvent>)
    ensures Each(EventEncoder(passcodes), es).Failed? ==> Each(EventEncoder(passcodes), es) == Failed(UnknownPasscode)
  {
    hide Each, IdOf;
    if Each(EventEncoder(passcodes), es).Failed? {
      EachFails(EventEncoder(passcodes), es);
    }
  }

  lemma CodeFaults(passcodes: seq<U32>, codes: seq<U32>)
    ensures Each(CodeEncoder(passcodes), codes).Failed? ==>
      Each(CodeEncoder(passcodes), codes) == Failed(UnknownPasscode)
  {
    hide Each, IdOf;
    if Each(CodeEncoder(passcodes), codes).Failed? {
      EachFails(CodeEncoder(passcodes), codes);
    }
  }

  lemma DeckFaults(passcodes: seq<U32>, d: Deck)
    ensures EncodeDeck(passcodes, d).Failed? ==> EncodeDeck(passcodes, d) == Failed(UnknownPasscode)
  {
    hide Each, IdOf;
    CodeFaults(passcodes, d.mainDeck);
    CodeFaults(passcodes, d.extraDeck);
  }

  // ---------------------------------------------------------------- nothing is lost

  function LocatedAt(table: seq<Bytes>): nat -> Located {
    (ordinal: nat) => Located(At(table, ordinal), ordinal)
  }

  function MarkerOf(code: Byte): LinkMarker {
    if DecodeMarker(code).Some? then DecodeMarker(code).value else BottomLeft
  }

  function ZoneOf(code: Byte): SemanticZone {
    if DecodeZone(code).Some? then DecodeZone(code).value else SemanticZone.Unknown
  }

  function PositionOf(code: Byte): SafeState.Position {
    if DecodePosition(code).Some? then DecodePosition(code).value else SafeState.Position.Unknown
  }

  function RelationshipOf(code: Byte): RelationshipKind {
    if DecodeRelationship(code).Some? then DecodeRelationship(code).value else RelationshipKind.Target
  }

  function EventKindOf(code: Byte): VisibleEventKind {
    if DecodeEventKind(code).Some? then DecodeEventKind(code).value else VisibleEventKind.Unknown
  }

  function PropertiesOf(p: EncodedProperties): CardProperties {
    CardProperties(p.typ, p.attribute, p.race, p.attack, p.defense, p.baseAttack, p.baseDefense, p.level, p.rank,
                   p.linkRating, Map(MarkerOf, p.markerCodes), p.leftScale, p.rightScale, p.statusFlags, p.counters)
  }

  function ObservedZoneOf(z: EncodedZone): ObservedZone {
    ObservedZone(z.player, ZoneOf(z.kindCode), z.totalCount, z.publicIdentityCount, z.hiddenCount,
      z.playerObservableOrder)
  }

  function LogicalEntityOf(passcodes: seq<U32>, table: seq<Bytes>, i: nat, e: Entity<nat>): LogicalEntity {
    LogicalEntity(
      ObservedCard(At(table, e.locator), e.identityKnown,
                   if e.identityKnown then PasscodeOf(passcodes, e.vocabularyId) else None, e.owner, e.controller,
                   ZoneOf(e.zoneCode), e.sequence, e.overlaySequence, PositionOf(e.positionCode), e.faceUp, e.faceDown,
                   MapOption(PropertiesOf, e.printed), MapOption(PropertiesOf, e.current)),
      e.locator, i)
  }

  function LogicalRelationshipOf(table: seq<Bytes>): Relation<nat> -> LogicalRelationship {
    (r: Relation<nat>) =>
      LogicalRelationship(RelationshipOf(r.kindCode), MapRef(LocatedAt(table), r.source),
        MapRef(LocatedAt(table), r.target))
  }

  function LogicalLinkOf(table: seq<Bytes>): Link<nat> -> LogicalLink {
    (l: Link<nat>) =>
      LogicalLink(l.index, l.activatingPlayer, MapOption(RefMap(LocatedAt(table)), l.source),
                  MapOption(ZoneOf, l.activationZoneCode), l.effectDescription,
                    Map(RefMap(LocatedAt(table)), l.targets))
  }

  function PasscodeFor(passcodes: seq<U32>, id: Option<U32>): Option<U32> {
    if id.Some? then PasscodeOf(passcodes, id.value) else None
  }

  function LogicalEventOf(passcodes: seq<U32>, table: seq<Bytes>): Event<nat> -> LogicalEvent {
    (e: Event<nat>) =>
      LogicalEvent(e.eventIndex, EventKindOf(e.kindCode), e.player, MapOption(LocatedAt(table), e.locator),
                   PasscodeFor(passcodes, e.vocabularyId), MapOption(ZoneOf, e.fromZoneCode),
                   MapOption(ZoneOf, e.toZoneCode), e.count, e.amount, e.counterType, e.phase, e.winner, e.winReason,
                   e.effectDescription, Map(LocatedAt(table), e.targets))
  }

  function CodeOf(passcodes: seq<U32>): U32 -> U32 {
    id => if PasscodeOf(passcodes, id).Some? then PasscodeOf(passcodes, id).value else 0
  }

  function DeckOf(passcodes: seq<U32>, d: Deck): Deck {
    Deck(d.known, Map(CodeOf(passcodes), d.mainDeck), Map(CodeOf(passcodes), d.extraDeck))
  }

  function ContextOf(passcodes: seq<U32>, m: EncodedContext): MatchContext {
    MatchContext(m.perspectivePlayer, m.duelFlags, m.ownDecklistKnown, m.opponentDecklistKnown,
                 DeckOf(passcodes, m.ownDeck), DeckOf(passcodes, m.opponentDeck))
  }

  function LogicalEntitiesOf(passcodes: seq<U32>, table: seq<Bytes>, es: seq<Entity<nat>>): seq<LogicalEntity> {
    seq(|es|, i requires 0 <= i < |es| => LogicalEntityOf(passcodes, table, i, es[i]))
  }

  function LogicalStateOf(passcodes: seq<U32>, table: seq<Bytes>, s: State<nat>): LogicalState {
    LogicalState(s.globals, Map(ObservedZoneOf, s.zones), LogicalEntitiesOf(passcodes, table, s.entities),
                 Map(LogicalRelationshipOf(table), s.relationships), s.chainLength, Map(LogicalLinkOf(table), s.links),
                 Map(LogicalEventOf(passcodes, table), s.events), ContextOf(passcodes, s.context))
  }

  function ChoiceOf(c: EncodedChoice): Choice {
    Choice(if DecodeChoiceKind(c.kindCode).Some? then DecodeChoiceKind(c.kindCode).value else ChoiceKind.YesNo, c.value,
           c.responseIndex)
  }

  function CardRefOf(table: seq<Bytes>): EncodedCardRef -> LogicalCardRef {
    (r: EncodedCardRef) =>
      LogicalCardRef(if r.kindCode == 0 then VisibleCard else RedactedSlot, MapRef(LocatedAt(table), r.reference))
  }

  function CandidateOf(table: seq<Bytes>): EncodedCandidate -> LogicalCandidate {
    (c: EncodedCandidate) =>
      LogicalCandidate(ActionKindOf(c.actionKindCode), MapOption(ChoiceOf, c.choice),
        MapOption(CardRefOf(table), c.source),
                       MapOption(CardRefOf(table), c.target), c.phase, c.position, c.sourceIndex, c.amount,
                       ContinuationBytes(c.continuationCode), c.submitsResponse)
  }

  function LocatedTable(table: seq<Bytes>): seq<Located> {
    seq(|table|, i requires 0 <= i < |table| => Located(table[i], i))
  }

  /** The logical input an encoded one stands for, under the vocabulary that encoded it. */
  function LogicalOf(passcodes: seq<U32>, e: EncodedModelInput): LogicalModelInput {
    LogicalModelInput(e.observationDigest, e.domainDigest, e.perspectivePlayer, e.decisionIndex,
                      MapOption(RequestKindBytes, e.contextKindCode), e.contextPlayer,
                      Map(LocatedAt(e.table), e.state.references), LocatedTable(e.table),
                      LogicalStateOf(passcodes, e.table, e.state), e.routingKeys,
                        Map(CandidateOf(e.table), e.candidates))
  }

  lemma SmallCodesUndone()
    ensures forall m: LinkMarker {:trigger MarkerCode(m)} :: MarkerOf(MarkerCode(m)) == m
    ensures forall p: SafeState.Position {:trigger PositionCode(p)} :: PositionOf(PositionCode(p)) == p
    ensures forall r: RelationshipKind {:trigger RelationshipCode(r)} :: RelationshipOf(RelationshipCode(r)) == r
  {
  }

  lemma ZoneCodesUndone()
    ensures forall z: SemanticZone {:trigger ZoneCode(z)} :: ZoneOf(ZoneCode(z)) == z
  {
  }

  lemma EventCodesUndone()
    ensures forall k: VisibleEventKind {:trigger EventKindCode(k)} :: EventKindOf(EventKindCode(k)) == k
  {
  }

  lemma CodesUndone()
    ensures forall m: LinkMarker {:trigger MarkerCode(m)} :: MarkerOf(MarkerCode(m)) == m
    ensures forall z: SemanticZone {:trigger ZoneCode(z)} :: ZoneOf(ZoneCode(z)) == z
    ensures forall p: SafeState.Position {:trigger PositionCode(p)} :: PositionOf(PositionCode(p)) == p
    ensures forall r: RelationshipKind {:trigger RelationshipCode(r)} :: RelationshipOf(RelationshipCode(r)) == r
    ensures forall k: VisibleEventKind {:trigger EventKindCode(k)} :: EventKindOf(EventKindCode(k)) == k
  {
    hide *;
    SmallCodesUndone();
    ZoneCodesUndone();
    EventCodesUndone();
  }

  lemma PropertiesUndone(p: CardProperties)
    ensures PropertiesOf(EncodeProperties(p)) == p
  {
    hide MarkerOf, MarkerCode, Map;
    CodesUndone();
    MapUndone(MarkerCode, MarkerOf, p.linkMarkers);
  }

  lemma LocatedUndone(table: seq<Located>, p: Located)
    requires LocatedOk(table, p)
    ensures LocatedAt(Map(ValueOf(), table))(p.ordinal) == p
  {
  }

  lemma EntityUndone(passcodes: seq<U32>, table: seq<Located>, e: LogicalEntity)
    requires PasscodesOk(passcodes) && LogicalCardOk(table, e) && EncodeEntity(passcodes, e).Done?
    ensures LogicalEntityOf(passcodes, Map(ValueOf(), table), e.entityOrdinal, EncodeEntity(passcodes, e).value) == e
  {
    hide IdOf, PasscodesOk, PasscodeOf, ZoneOf, ZoneCode, PositionOf, PositionCode, EncodeProperties, PropertiesOf,
      PropertiesOk, LocatorText, EncodeEntity;
    EntityEncodes(passcodes, e);
    CodesUndone();
    LocatedUndone(table, Located(e.card.locator, e.ordinal));
    if e.card.identityKnown {
      IdsAndPasscodes(passcodes, e.card.passcode.value, IdOf(passcodes, e.card.passcode.value).value);
    }
    if e.card.printed.Some? {
      PropertiesUndone(e.card.printed.value);
    }
    if e.card.current.Some? {
      PropertiesUndone(e.card.current.value);
    }
  }

  lemma EntitiesUndone(passcodes: seq<U32>, table: seq<Located>, es: seq<LogicalEntity>)
    requires PasscodesOk(passcodes) && LogicalEntitiesOk(table, es)
    requires Each(EntityEncoder(passcodes), es).Done?
    ensures LogicalEntitiesOf(passcodes, Map(ValueOf(), table), Each(EntityEncoder(passcodes), es).value) == es
  {
    hide Each, PasscodesOk, CardNamed, LogicalCardOk, LogicalEntityOf, Map, EncodeEntity, LexLess;
    EachDone(EntityEncoder(passcodes), es);
    forall i | 0 <= i < |es|
      ensures LogicalEntityOf(passcodes, Map(ValueOf(), table), i, EncodeEntity(passcodes, es[i]).value) == es[i]
    {
      EntityEncodes(passcodes, es[i]);
      EntityUndone(passcodes, table, es[i]);
    }
  }

  lemma RefsUndone(table: seq<Located>, es: seq<LogicalEntity>, r: Ref<Located>)
    requires CurrentRefOk(table, es, r)
    ensures MapRef(LocatedAt(Map(ValueOf(), table)), EncodeRef(r)) == r
  {
    LocatedUndone(table, r.locator);
  }

  lemma RelationshipsUndone(table: seq<Located>, es: seq<LogicalEntity>, rs: seq<LogicalRelationship>)
    requires LogicalRelationshipsOk(table, es, rs)
    ensures Map(LogicalRelationshipOf(Map(ValueOf(), table)), Map(EncodeRelationship, rs)) == rs
  {
    hide RelationshipOf, RelationshipCode, CurrentRefOk, Ordered, EncodeRef, MapRef;
    CodesUndone();
    forall i | 0 <= i < |rs| ensures LogicalRelationshipOf(Map(ValueOf(), table))(EncodeRelationship(rs[i])) == rs[i] {
      RefsUndone(table, es, rs[i].source);
      RefsUndone(table, es, rs[i].target);
    }
    MapUndone(EncodeRelationship, LogicalRelationshipOf(Map(ValueOf(), table)), rs);
  }

  lemma LinkUndone(table: seq<Located>, es: seq<LogicalEntity>, l: LogicalLink)
    requires LogicalLinkOk(table, es, l)
    ensures LogicalLinkOf(Map(ValueOf(), table))(EncodeLink(l)) == l
  {
    hide ZoneOf, ZoneCode, CurrentRefOk, Ordered, EncodeRef, MapRef, LocatedAt, Map;
    CodesUndone();
    var back := RefMap(LocatedAt(Map(ValueOf(), table)));
    forall i | 0 <= i < |l.targets| ensures back(EncodeRef(l.targets[i])) == l.targets[i] {
      RefsUndone(table, es, l.targets[i]);
    }
    MapUndone(EncodeRef, back, l.targets);
    if l.source.Some? {
      RefsUndone(table, es, l.source.value);
    }
  }

  lemma EventUndoes(passcodes: seq<U32>, table: seq<Located>, e: LogicalEvent)
    requires PasscodesOk(passcodes) && LogicalEventOk(table, e) && EncodeEvent(passcodes, e).Done?
    ensures LogicalEventOf(passcodes, Map(ValueOf(), table))(EncodeEvent(passcodes, e).value) == e
  {
    hide ZoneOf, ZoneCode, EventKindOf, EventKindCode, Ordered, LocatedOk, LocatedAt, Map, PasscodesOk, PasscodeOf,
      IdOf, EncodeEvent;
    EventEncodes(passcodes, e);
    CodesUndone();
    var back := LocatedAt(Map(ValueOf(), table));
    forall i | 0 <= i < |e.targets| ensures back(OrdinalOf()(e.targets[i])) == e.targets[i] {
      LocatedUndone(table, e.targets[i]);
    }
    MapUndone(OrdinalOf(), back, e.targets);
    if e.entity.Some? {
      LocatedUndone(table, e.entity.value);
    }
    if e.publicPasscode.Some? {
      IdsAndPasscodes(passcodes, e.publicPasscode.value, IdOf(passcodes, e.publicPasscode.value).value);
    }
  }

  lemma DeckUndone(passcodes: seq<U32>, d: Deck)
    requires PasscodesOk(passcodes) && EncodeDeck(passcodes, d).Done?
    ensures DeckOf(passcodes, EncodeDeck(passcodes, d).value) == d
  {
    hide PasscodesOk, PasscodeOf, IdOf, EncodeDeck, CodesNamed;
    DeckEncodes(passcodes, d);
    var e := EncodeDeck(passcodes, d).value;
    forall i | 0 <= i < |d.mainDeck| ensures PasscodeOf(passcodes, e.mainDeck[i]) == Some(d.mainDeck[i]) {
      IdsAndPasscodes(passcodes, d.mainDeck[i], e.mainDeck[i]);
    }
    forall i | 0 <= i < |d.extraDeck| ensures PasscodeOf(passcodes, e.extraDeck[i]) == Some(d.extraDeck[i]) {
      IdsAndPasscodes(passcodes, d.extraDeck[i], e.extraDeck[i]);
    }
    assert DeckOf(passcodes, e).mainDeck == d.mainDeck;
  }

  lemma EventsUndone(passcodes: seq<U32>, table: seq<Located>, es: seq<LogicalEvent>)
    requires PasscodesOk(passcodes) && LogicalEventsOk(table, es) && Each(EventEncoder(passcodes), es).Done?
    ensures Map(LogicalEventOf(passcodes, Map(ValueOf(), table)), Each(EventEncoder(passcodes), es).value) == es
  {
    hide Each, PasscodesOk, LogicalEventOk, LogicalEventOf, EncodeEvent;
    EachDone(EventEncoder(passcodes), es);
    forall i | 0 <= i < |es|
      ensures LogicalEventOf(passcodes, Map(ValueOf(), table))(EncodeEvent(passcodes, es[i]).value) == es[i]
    {
      EventUndoes(passcodes, table, es[i]);
    }
  }

  lemma LinksAndZonesUndone(table: seq<Located>, es: seq<LogicalEntity>, ls: seq<LogicalLink>, zs: seq<ObservedZone>)
    requires LogicalLinksOk(table, es, ls)
    ensures Map(LogicalLinkOf(Map(ValueOf(), table)), Map(EncodeLink, ls)) == ls
    ensures Map(ObservedZoneOf, Map(EncodeZone, zs)) == zs
  {
    hide LogicalLinkOk, LogicalLinkOf, EncodeLink, ZoneOf, ZoneCode;
    CodesUndone();
    MapUndone(EncodeZone, ObservedZoneOf, zs);
    forall i | 0 <= i < |ls| ensures LogicalLinkOf(Map(ValueOf(), table))(EncodeLink(ls[i])) == ls[i] {
      LinkUndone(table, es, ls[i]);
    }
    MapUndone(EncodeLink, LogicalLinkOf(Map(ValueOf(), table)), ls);
  }

  lemma StateIsUndone(passcodes: seq<U32>, table: seq<Located>, perspective: Byte, references: seq<Located>,
    s: LogicalState)
    requires PasscodesOk(passcodes) && LogicalStateOk(table, perspective, s)
    requires EncodeState(passcodes, references, s).Done?
    ensures LogicalStateOf(passcodes, Map(ValueOf(), table), EncodeState(passcodes, references, s).value) == s
    ensures EncodeState(passcodes, references, s).value.references == Map(OrdinalOf(), references)
  {
    hide Each, PasscodesOk, LogicalEntitiesOk, LogicalRelationshipsOk, LogicalLinksOk, LogicalEventsOk, DeckOk,
      GlobalsOk, ListOk, EncodeDeck, DeckOf, LogicalEntitiesOf, Map;
    EntitiesUndone(passcodes, table, s.entities);
    RelationshipsUndone(table, s.entities, s.relationships);
    LinksAndZonesUndone(table, s.entities, s.links, s.zones);
    EventsUndone(passcodes, table, s.events);
    DeckUndone(passcodes, s.context.ownDeck);
    DeckUndone(passcodes, s.context.opponentDeck);
  }

  lemma CandidateUndone(table: seq<Located>, es: seq<LogicalEntity>, c: LogicalCandidate)
    requires LogicalCandidateOk(table, es, c) && EncodeCandidate(c).Done?
    ensures CandidateOf(Map(ValueOf(), table))(EncodeCandidate(c).value) == c
  {
    hide ContinuationCode, ContinuationBytes, CurrentRefOk, EncodeRef, MapRef, LocatedAt, Map;
    if c.source.Some? {
      RefsUndone(table, es, c.source.value.reference);
    }
    if c.target.Some? {
      RefsUndone(table, es, c.target.value.reference);
    }
  }

  lemma CandidatesUndone(table: seq<Located>, es: seq<LogicalEntity>, cs: seq<LogicalCandidate>, keys: seq<Bytes>)
    requires LogicalCandidatesOk(table, es, cs, keys) && Each(EncodeCandidate, cs).Done?
    ensures Map(CandidateOf(Map(ValueOf(), table)), Each(EncodeCandidate, cs).value) == cs
  {
    hide Each, LogicalCandidateOk, CandidateOf, EncodeCandidate, KeyMatches;
    EachDone(EncodeCandidate, cs);
    forall i | 0 <= i < |cs| ensures CandidateOf(Map(ValueOf(), table))(EncodeCandidate(cs[i]).value) == cs[i] {
      CandidateUndone(table, es, cs[i]);
    }
  }

  lemma HeaderUndone(l: LogicalModelInput)
    requires LogicalHeaderOk(l)
    ensures var table := Map(ValueOf(), l.table);
      && LocatedTable(table) == l.table && Map(LocatedAt(table), Map(OrdinalOf(), l.references)) == l.references
      && MapOption(RequestKindBytes, KindCode(l.contextKind)) == l.contextKind
  {
    hide RequestKindCode, RequestKindBytes, LocatorText, Utf8Octets, LexLess, LocatedAt;
    var table := Map(ValueOf(), l.table);
    forall i | 0 <= i < |l.references| ensures LocatedAt(table)(OrdinalOf()(l.references[i])) == l.references[i] {
      LocatedUndone(l.table, l.references[i]);
    }
    MapUndone(OrdinalOf(), LocatedAt(table), l.references);
  }

  /** Encoding loses nothing: the vocabulary and the encoded input give the logical one back. */
  lemma EncodingUndone(sha256: Bytes -> Bytes, passcodes: seq<U32>, l: LogicalModelInput)
    requires PasscodesOk(passcodes) && LogicalOk(sha256, l) && Encode(sha256, passcodes, l).Done?
    ensures LogicalOf(passcodes, Encode(sha256, passcodes, l).value) == l
  {
    hide Each, EncodeState, PasscodesOk, LogicalStateOk, LogicalHeaderOk, LogicalCandidatesOk, KeysOk,
      LogicalDigestOk, LocatedTable, Map, LogicalStateOf, KindCode, Identity;
    StateIsUndone(passcodes, l.table, l.perspectivePlayer, l.references, l.state);
    CandidatesUndone(l.table, l.state.entities, l.candidates, l.routingKeys);
    HeaderUndone(l);
  }

  /** So under one vocabulary two valid inputs with the same encoding are the same input. */
  lemma EncodingIsInjective(sha256: Bytes -> Bytes, passcodes: seq<U32>, l: LogicalModelInput, m: LogicalModelInput)
    requires PasscodesOk(passcodes) && LogicalOk(sha256, l) && LogicalOk(sha256, m)
    requires Encode(sha256, passcodes, l).Done? && Encode(sha256, passcodes, l) == Encode(sha256, passcodes, m)
    ensures l == m
  {
    hide Encode, LogicalOf, PasscodesOk, LogicalOk;
    EncodingUndone(sha256, passcodes, l);
    EncodingUndone(sha256, passcodes, m);
  }
}
