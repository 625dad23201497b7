/** What an encoded input says of the logical one it encodes, field by field: ordinals denote
    the locators, ids the passcodes and codes the values they stand for. Joined with the
    projection, what it says of the observation and the candidates behind it. */
module EncodingMeaning {
  import opened Bytes
  import opened Text
  import opened Sorting
  import opened PublicAction
  import opened SafeState
  import opened SafeStateOrder
  import opened PublicObservation
  import opened EncodedState
  import opened CardVocabulary
  import opened EncodedInput
  import opened LogicalInput
  import opened ModelInputEncoder
  import opened LogicalProjection
  import opened LogicalProjectionValidity
  import P = ProjectionMeaning

  const ACTIONS: seq<ActionKind> := [
    Unsupported, IdleCommand, BattleCommand, Chain, ActionKind.Option, CardSelection, Announcement, Place,
    ActionKind.Position, ActionKind.YesNo, Pick, Finish, Cancel, AssignAmount]

  const CHOICES: seq<ChoiceKind> := [ChoiceKind.YesNo, EffectYesNo, EffectChoice, OptionValue, AnnouncementNumber]

  // ---------------------------------------------------------------- what codes and ids denote

  /** The value at a place in a list of values. */
  predicate Stands<T(==)>(values: seq<T>, code: nat, value: T) {
    code < |values| && values[code] == value
  }

  predicate StandsOption<T(==)>(values: seq<T>, code: Option<Byte>, value: Option<T>) {
    code.Some? == value.Some? && (code.Some? ==> Stands(values, code.value, value.value))
  }

  /** An id is two more than the rank of its passcode. */
  predicate Names(passcodes: seq<U32>, id: U32, passcode: U32) {
    2 <= id < |passcodes| + 2 && passcodes[id - 2] == passcode
  }

  predicate NamesAll(passcodes: seq<U32>, ids: seq<U32>, codes: seq<U32>) {
    |ids| == |codes| && forall i :: 0 <= i < |ids| ==> Names(passcodes, ids[i], codes[i])
  }

  predicate Denotes(table: seq<Bytes>, ordinal: nat, p: Located) {
    ordinal < |table| && table[ordinal] == p.value
  }

  predicate RefDenotes(table: seq<Bytes>, r: Ref<nat>, p: Ref<Located>) {
    Denotes(table, r.locator, p.locator) && r.entity == p.entity
  }

  // ---------------------------------------------------------------- part by part

  predicate PropertiesMean(p: EncodedProperties, q: CardProperties) {
    && p.typ == q.typ && p.attribute == q.attribute && p.race == q.race && p.attack == q.attack
    && p.defense == q.defense && p.baseAttack == q.baseAttack && p.baseDefense == q.baseDefense
    && p.level == q.level && p.rank == q.rank && p.linkRating == q.linkRating && p.leftScale == q.leftScale
    && p.rightScale == q.rightScale && p.statusFlags == q.statusFlags && p.counters == q.counters
    && |p.markerCodes| == |q.linkMarkers|
    && (forall i :: 0 <= i < |p.markerCodes| ==> Stands(MARKERS, p.markerCodes[i], q.linkMarkers[i]))
  }

  predicate OptionMeans(p: Option<EncodedProperties>, q: Option<CardProperties>) {
    p.Some? == q.Some? && (p.Some? ==> PropertiesMean(p.value, q.value))
  }

  predicate EntityMeans(passcodes: seq<U32>, table: seq<Bytes>, e: Entity<nat>, c: ObservedCard) {
    && e.locator < |table| && table[e.locator] == c.locator && e.identityKnown == c.identityKnown
    && (if c.identityKnown then c.passcode.Some? && Names(passcodes, e.vocabularyId, c.passcode.value)
        else e.vocabularyId == UNKNOWN_ID)
    && e.owner == c.owner && e.controller == c.controller && Stands(ZONES, e.zoneCode, c.zone)
    && e.sequence == c.sequence && e.overlaySequence == c.overlaySequence
    && DecodePosition(e.positionCode) == Some(c.position) && e.faceUp == c.faceUp && e.faceDown == c.faceDown
    && OptionMeans(e.printed, c.printed) && OptionMeans(e.current, c.current)
  }

  predicate ZoneMeans(z: EncodedZone, o: ObservedZone) {
    && z.player == o.player && Stands(ZONES, z.kindCode, o.kind) && z.totalCount == o.totalCount
    && z.publicIdentityCount == o.publicIdentityCount && z.hiddenCount == o.hiddenCount
    && z.playerObservableOrder == o.playerObservableOrder
  }

  predicate RelationMeans(table: seq<Bytes>, r: Relation<nat>, p: LogicalRelationship) {
    Stands(KINDS, r.kindCode, p.kind) && RefDenotes(table, r.source, p.source) && RefDenotes(table, r.target, p.target)
  }

  predicate LinkMeans(table: seq<Bytes>, l: Link<nat>, p: LogicalLink) {
    && l.index == p.index && l.activatingPlayer == p.activatingPlayer
    && l.source.Some? == p.source.Some? && (l.source.Some? ==> RefDenotes(table, l.source.value, p.source.value))
    && StandsOption(ZONES, l.activationZoneCode, p.activationZone) && l.effectDescription == p.effectDescription
    && |l.targets| == |p.targets|
    && (forall i :: 0 <= i < |l.targets| ==> RefDenotes(table, l.targets[i], p.targets[i]))
  }

  predicate EventMeans(passcodes: seq<U32>, table: seq<Bytes>, e: Event<nat>, p: LogicalEvent) {
    && e.eventIndex == p.eventIndex && Stands(EVENTS, e.kindCode, p.kind) && e.player == p.player
    && e.locator.Some? == p.entity.Some? && (e.locator.Some? ==> Denotes(table, e.locator.value, p.entity.value))
    && e.vocabularyId.Some? == p.publicPasscode.Some?
    && (e.vocabularyId.Some? ==> Names(passcodes, e.vocabularyId.value, p.publicPasscode.value))
    && StandsOption(ZONES, e.fromZoneCode, p.fromZone) && StandsOption(ZONES, e.toZoneCode, p.toZone)
    && e.count == p.count && e.amount == p.amount && e.counterType == p.counterType && e.phase == p.phase
    && e.winner == p.winner && e.winReason == p.winReason && e.effectDescription == p.effectDescription
    && |e.targets| == |p.targets| && (forall i :: 0 <= i < |e.targets| ==> Denotes(table, e.targets[i], p.targets[i]))
  }

  predicate DeckMeans(passcodes: seq<U32>, e: Deck, d: Deck) {
    && e.known == d.known && NamesAll(passcodes, e.mainDeck, d.mainDeck)
    && NamesAll(passcodes, e.extraDeck, d.extraDeck)
  }

  predicate ContextMeans(passcodes: seq<U32>, e: EncodedContext, m: MatchContext) {
    && e.perspectivePlayer == m.perspectivePlayer && e.duelFlags == m.duelFlags
    && e.ownDecklistKnown == m.ownDecklistKnown && e.opponentDecklistKnown == m.opponentDecklistKnown
    && DeckMeans(passcodes, e.ownDeck, m.ownDeck) && DeckMeans(passcodes, e.opponentDeck, m.opponentDeck)
  }

  predicate StateMeans(passcodes: seq<U32>, table: seq<Bytes>, s: State<nat>, l: LogicalState) {
    && s.globals == l.globals && s.chainLength == l.chainLength && ContextMeans(passcodes, s.context, l.context)
    && |s.zones| == |l.zones| && (forall i :: 0 <= i < |s.zones| ==> ZoneMeans(s.zones[i], l.zones[i]))
    && |s.entities| == |l.entities|
    && (forall i :: 0 <= i < |s.entities| ==> EntityMeans(passcodes, table, s.entities[i], l.entities[i].card))
    && |s.relationships| == |l.relationships|
    && (forall i :: 0 <= i < |s.relationships| ==> RelationMeans(table, s.relationships[i], l.relationships[i]))
    && |s.links| == |l.links| && (forall i :: 0 <= i < |s.links| ==> LinkMeans(table, s.links[i], l.links[i]))
    && |s.events| == |l.events|
    && (forall i :: 0 <= i < |s.events| ==> EventMeans(passcodes, table, s.events[i], l.events[i]))
  }

  predicate ChoiceMeans(e: EncodedChoice, c: Choice) {
    && 1 <= e.kindCode && Stands(CHOICES, e.kindCode - 1, c.kind) && e.value == c.value
    && e.responseIndex == c.responseIndex
  }

  predicate CardRefMeans(table: seq<Bytes>, e: Option<EncodedCardRef>, r: Option<LogicalCardRef>) {
    && e.Some? == r.Some?
    && (e.Some? ==>
          && RefDenotes(table, e.value.reference, r.value.reference)
          && e.value.kindCode == (if r.value.kind == VisibleCard then 0 else 1))
  }

  predicate CandidateMeans(table: seq<Bytes>, e: EncodedCandidate, c: LogicalCandidate) {
    && Stands(ACTIONS, e.actionKindCode, c.actionKind)
    && e.choice.Some? == c.choice.Some? && (e.choice.Some? ==> ChoiceMeans(e.choice.value, c.choice.value))
    && CardRefMeans(table, e.source, c.source) && CardRefMeans(table, e.target, c.target)
    && e.phase == c.phase && e.position == c.position && e.sourceIndex == c.sourceIndex && e.amount == c.amount
    && ContinuationBytes(e.continuationCode) == c.continuation && e.submitsResponse == c.submitsResponse
  }

  /** What an encoded input says of a logical one. */
  predicate Means(sha256: Bytes -> Bytes, passcodes: seq<U32>, e: EncodedModelInput, l: LogicalModelInput) {
    && e.vocabularyIdentity == Identity(sha256, passcodes) && e.observationDigest == l.observationDigest
    && e.domainDigest == l.domainDigest && e.perspectivePlayer == l.perspectivePlayer
    && e.decisionIndex == l.decisionIndex && e.contextPlayer == l.contextPlayer
    && e.contextKindCode.Some? == l.contextKind.Some?
    && (e.contextKindCode.Some? ==> RequestKindBytes(e.contextKindCode.value) == l.contextKind.value)
    && |e.table| == |l.table| && (forall i :: 0 <= i < |e.table| ==> e.table[i] == l.table[i].value)
    && |e.state.references| == |l.references|
    && (forall i :: 0 <= i < |l.references| ==> Denotes(e.table, e.state.references[i], l.references[i]))
    && StateMeans(passcodes, e.table, e.state, l.state) && e.routingKeys == l.routingKeys
    && |e.candidates| == |l.candidates|
    && (forall i :: 0 <= i < |e.candidates| ==> CandidateMeans(e.table, e.candidates[i], l.candidates[i]))
  }

  // ---------------------------------------------------------------- the encoding means what it encodes

  lemma SmallCodesStand()
    ensures forall m: LinkMarker {:trigger MarkerCode(m)} :: Stands(MARKERS, MarkerCode(m), m)
    ensures forall k: RelationshipKind {:trigger RelationshipCode(k)} :: Stands(KINDS, RelationshipCode(k), k)
    ensures forall p: SafeState.Position {:trigger PositionCode(p)} :: DecodePosition(PositionCode(p)) == Some(p)
    ensures forall c: ChoiceKind {:trigger ChoiceCode(c)} ::
      1 <= ChoiceCode(c) && Stands(CHOICES, ChoiceCode(c) - 1, c)
  {
  }

  lemma ZoneCodesStand()
    ensures forall z: SemanticZone {:trigger ZoneCode(z)} :: Stands(ZONES, ZoneCode(z), z)
  {
    forall z: SemanticZone ensures Stands(ZONES, ZoneCode(z), z) {
      ZoneCodesArePlaces(z, 0);
    }
  }

  lemma EventCodesStand()
    ensures forall k: VisibleEventKind {:trigger EventKindCode(k)} :: Stands(EVENTS, EventKindCode(k), k)
  {
    forall k: VisibleEventKind ensures Stands(EVENTS, EventKindCode(k), k) {
      EventCodesArePlaces(k, 0);
      hide EventKindCode;
    }
  }

  lemma ActionCodesStand(k: ActionKind)
    ensures Stands(ACTIONS, ActionKindCode(k), k)
  {
  }

  lemma NamedId(passcodes: seq<U32>, passcode: U32)
    ensures IdOf(passcodes, passcode).Some? ==> Names(passcodes, IdOf(passcodes, passcode).value, passcode)
  {
    IdIsRank(passcodes, passcode);
  }

  lemma RefIsMeant(table: seq<Located>, es: seq<LogicalEntity>, r: Ref<Located>)
    requires CurrentRefOk(table, es, r)
    ensures RefDenotes(Map(ValueOf(), table), EncodeRef(r), r)
  {
  }

  lemma EntityIsMeant(passcodes: seq<U32>, table: seq<Located>, e: LogicalEntity)
    requires LogicalCardOk(table, e) && EncodeEntity(passcodes, e).Done?
    ensures EntityMeans(passcodes, Map(ValueOf(), table), EncodeEntity(passcodes, e).value, e.card)
  {
    SmallCodesStand();
    ZoneCodesStand();
    EntityEncodes(passcodes, e);
    hide IdOf, ZoneCode, PositionCode, DecodePosition, LocatorText, PropertiesOk, EncodeEntity, MarkerCode;
    if e.card.identityKnown {
      NamedId(passcodes, e.card.passcode.value);
    }
  }

  lemma LinkIsMeant(table: seq<Located>, es: seq<LogicalEntity>, l: LogicalLink)
    requires LogicalLinkOk(table, es, l)
    ensures LinkMeans(Map(ValueOf(), table), EncodeLink(l), l)
  {
    ZoneCodesStand();
    hide ZoneCode, CurrentRefOk, Ordered, RefDenotes;
    if l.source.Some? {
      RefIsMeant(table, es, l.source.value);
    }
    forall i | 0 <= i < |l.targets| ensures RefDenotes(Map(ValueOf(), table), EncodeRef(l.targets[i]), l.targets[i]) {
      RefIsMeant(table, es, l.targets[i]);
    }
  }

  lemma EventIsMeant(passcodes: seq<U32>, table: seq<Located>, e: LogicalEvent)
    requires LogicalEventOk(table, e) && EncodeEvent(passcodes, e).Done?
    ensures EventMeans(passcodes, Map(ValueOf(), table), EncodeEvent(passcodes, e).value, e)
  {
    ZoneCodesStand();
    EventCodesStand();
    EventEncodes(passcodes, e);
    hide IdOf, ZoneCode, EventKindCode, LocatorText, EncodeEvent, Ordered;
    if e.publicPasscode.Some? {
      NamedId(passcodes, e.publicPasscode.value);
    }
  }

  lemma DeckIsMeant(passcodes: seq<U32>, d: Deck)
    requires EncodeDeck(passcodes, d).Done?
    ensures DeckMeans(passcodes, EncodeDeck(passcodes, d).value, d)
  {
    hide EncodeDeck, IdOf, CodesNamed;
    DeckEncodes(passcodes, d);
    forall i | 0 <= i < |d.mainDeck|
      ensures Names(passcodes, EncodeDeck(passcodes, d).value.mainDeck[i], d.mainDeck[i])
    {
      NamedId(passcodes, d.mainDeck[i]);
    }
    forall i | 0 <= i < |d.extraDeck|
      ensures Names(passcodes, EncodeDeck(passcodes, d).value.extraDeck[i], d.extraDeck[i])
    {
      NamedId(passcodes, d.extraDeck[i]);
    }
  }

  lemma StateIsMeant(passcodes: seq<U32>, table: seq<Located>, perspective: Byte, references: seq<Located>,
                     s: LogicalState)
    requires LogicalStateOk(table, perspective, s) && EncodeState(passcodes, references, s).Done?
    ensures StateMeans(passcodes, Map(ValueOf(), table), EncodeState(passcodes, references, s).value, s)
  {
    hide Each, LogicalCardOk, LogicalLinkOk, LogicalEventOk, DeckOk, GlobalsOk, ListOk, EncodeDeck, EncodeEntity,
      EncodeEvent, EncodeLink, EntityMeans, LinkMeans, EventMeans, DeckMeans, Ordered, LexLess, CurrentRefOk,
      RefDenotes, ZoneCode, RelationshipCode;
    SmallCodesStand();
    ZoneCodesStand();
    EachDone(EntityEncoder(passcodes), s.entities);
    EachDone(EventEncoder(passcodes), s.events);
    DeckIsMeant(passcodes, s.context.ownDeck);
    DeckIsMeant(passcodes, s.context.opponentDeck);
    forall i | 0 <= i < |s.entities|
      ensures EntityMeans(passcodes, Map(ValueOf(), table), EncodeEntity(passcodes, s.entities[i]).value,
        s.entities[i].card)
    {
      EntityIsMeant(passcodes, table, s.entities[i]);
    }
    forall i | 0 <= i < |s.relationships|
      ensures RelationMeans(Map(ValueOf(), table), EncodeRelationship(s.relationships[i]), s.relationships[i])
    {
      RefIsMeant(table, s.entities, s.relationships[i].source);
      RefIsMeant(table, s.entities, s.relationships[i].target);
    }
    forall i | 0 <= i < |s.links| ensures LinkMeans(Map(ValueOf(), table), EncodeLink(s.links[i]), s.links[i]) {
      LinkIsMeant(table, s.entities, s.links[i]);
    }
    forall i | 0 <= i < |s.events|
      ensures EventMeans(passcodes, Map(ValueOf(), table), EncodeEvent(passcodes, s.events[i]).value, s.events[i])
    {
      EventIsMeant(passcodes, table, s.events[i]);
    }
  }

  lemma CandidateIsMeant(table: seq<Located>, es: seq<LogicalEntity>, c: LogicalCandidate)
    requires LogicalCandidateOk(table, es, c) && EncodeCandidate(c).Done?
    ensures CandidateMeans(Map(ValueOf(), table), EncodeCandidate(c).value, c)
  {
    SmallCodesStand();
    ActionCodesStand(c.actionKind);
    hide ContinuationCode, ContinuationBytes, CurrentRefOk, RefDenotes, ActionKindCode, ChoiceCode, LogicalChoiceOk;
    if c.source.Some? {
      RefIsMeant(table, es, c.source.value.reference);
    }
    if c.target.Some? {
      RefIsMeant(table, es, c.target.value.reference);
    }
  }

  /** The encoding of a valid input says everything the input says. */
  lemma EncodingMeans(sha256: Bytes -> Bytes, passcodes: seq<U32>, l: LogicalModelInput)
    requires LogicalOk(sha256, l) && Encode(sha256, passcodes, l).Done?
    ensures Means(sha256, passcodes, Encode(sha256, passcodes, l).value, l)
  {
    hide Each, EncodeState, EncodeCandidate, LogicalStateOk, StateMeans, LogicalCandidateOk, CandidateMeans, KeyMatches,
      LocatorText, Utf8Octets, RequestKindCode, RequestKindBytes, Identity, LogicalDigestOk, LexLess;
    StateIsMeant(passcodes, l.table, l.perspectivePlayer, l.references, l.state);
    StateReferences(passcodes, l.references, l.state);
    EachDone(EncodeCandidate, l.candidates);
    forall i | 0 <= i < |l.candidates|
      ensures CandidateMeans(Map(ValueOf(), l.table), EncodeCandidate(l.candidates[i]).value, l.candidates[i])
    {
      CandidateIsMeant(l.table, l.state.entities, l.candidates[i]);
    }
  }

  lemma StateReferences(passcodes: seq<U32>, references: seq<Located>, s: LogicalState)
    requires EncodeState(passcodes, references, s).Done?
    ensures EncodeState(passcodes, references, s).value.references == Map(OrdinalOf(), references)
  {
    hide Each, EncodeDeck;
  }

  // ---------------------------------------------------------------- from the observation on

  /** Two observations with their candidates are encoded alike exactly when they agree, up to
      the order in which references are listed. */
  lemma EncodedObservationsDiffer(sha256: Bytes -> Bytes, passcodes: seq<U32>, o: Observation, cs: seq<PublicCandidate>,
                                  p: Observation, ds: seq<PublicCandidate>)
    requires IsDigest(sha256) && PasscodesOk(passcodes)
    requires Project(sha256, o, cs).Projected? && EncoderAdmits(o, cs)
    requires Project(sha256, p, ds).Projected? && EncoderAdmits(p, ds)
    requires Encode(sha256, passcodes, Project(sha256, o, cs).value).Done?
    ensures
      var e := Encode(sha256, passcodes, Project(sha256, o, cs).value);
      e == Encode(sha256, passcodes, Project(sha256, p, ds).value) <==> P.SameUpToReferenceOrder(o, p) && cs == ds
  {
    hide Project, Encode, LogicalOk, PasscodesOk, IsDigest, EncoderAdmits, P.SameUpToReferenceOrder;
    var l, m := Project(sha256, o, cs).value, Project(sha256, p, ds).value;
    ProjectedIsValid(sha256, o, cs);
    ProjectedIsValid(sha256, p, ds);
    P.ProjectionIsInjective(sha256, o, cs, p, ds);
    if Encode(sha256, passcodes, l) == Encode(sha256, passcodes, m) {
      EncodingIsInjective(sha256, passcodes, l, m);
    }
  }

  /** The encoded input says of the observation and the candidates what a logical input in
      between says of them. */
  lemma EncodedObservationMeans(sha256: Bytes -> Bytes, passcodes: seq<U32>, o: Observation, cs: seq<PublicCandidate>)
    requires IsDigest(sha256) && Project(sha256, o, cs).Projected? && EncoderAdmits(o, cs)
    requires Encode(sha256, passcodes, Project(sha256, o, cs).value).Done?
    ensures SafeStateCodec.Decode(o.safeState).Some? && exists l ::
      && P.Shows(sha256, l, o, SafeStateCodec.Decode(o.safeState).value, cs)
      && Means(sha256, passcodes, Encode(sha256, passcodes, Project(sha256, o, cs).value).value, l)
  {
    hide Project, Encode, LogicalOk, IsDigest, EncoderAdmits, P.Shows, Means, SafeStateCodec.Decode;
    ProjectedIsValid(sha256, o, cs);
    P.ProjectionShows(sha256, o, cs);
    EncodingMeans(sha256, passcodes, Project(sha256, o, cs).value);
  }
}
