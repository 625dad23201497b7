/** The encoder as it runs: fields appended to a growing buffer, collections copied and sorted
    by the library sort, and a count that does not fit 32 bits refused with a length error. */
module SafeStateEncoder {
  import opened Bytes
  import opened Text
  import opened Sorting
  import opened Writers
  import opened SafeState
  import opened SafeStateNormal
  import opened SafeStateCodec

  const RAW: Demand := Demand(false, false)
  const SIZED: Demand := Demand(false, true)

  function LocatorDemand(d: Demand): Bytes -> bool {
    s => LocatorMeets(d, s)
  }

  function RelationshipDemand(d: Demand): Relationship -> bool {
    (r: Relationship) => LocatorMeets(d, r.source) && LocatorMeets(d, r.target)
  }

  function LinkDemand(d: Demand): ChainLink -> bool {
    l => LinkMeets(d, l)
  }

  // ---------------------------------------------------------------- sorted lists of fields

  method AppendMarkersInOrder(w: Writer, xs: seq<LinkMarker>) returns (r: Option<()>)
    modifies w
    ensures r.Some? <==> |xs| <= U32_MAX
    ensures r.Some? ==> forall k :: w.bytes + k == old(w.bytes) + PutList(PutMarker, xs, k)
  {
    hide PutCount, MarkerCode, MarkerLe;
    var _ :- w.Count(|xs|);
    ghost var start := w.bytes;
    for i := 0 to |xs|
      invariant forall k :: w.bytes + PutMany(PutMarker, xs[i..], k) == start + PutMany(PutMarker, xs, k)
    {
      PutManyStep(PutMarker, xs, i);
      hide PutMany;
      w.U8(MarkerCode(xs[i]));
    }
    assert xs[|xs|..] == [];
    r := Some(());
  }

  method AppendMarkers(w: Writer, markers: seq<LinkMarker>) returns (r: Option<()>)
    modifies w
    ensures r.Some? <==> |markers| <= U32_MAX
    ensures r.Some? ==> forall k :: w.bytes + k == old(w.bytes) + PutList(PutMarker, Sort(MarkerLe, markers), k)
  {
    NumberOrders();
    FieldsDoNotTie(markers, [], []);
    hide TotalPreorder, NoTies, Sort, PutList, MarkerCode, MarkerLe;
    var xs := StdSort(MarkerLe, markers);
    AnySortIsSort(MarkerLe, markers, xs);
    SameElements(markers, xs);
    r := AppendMarkersInOrder(w, xs);
  }

  method AppendCountersInOrder(w: Writer, xs: seq<Counter>) returns (r: Option<()>)
    modifies w
    ensures r.Some? <==> |xs| <= U32_MAX
    ensures r.Some? ==> forall k :: w.bytes + k == old(w.bytes) + PutList(PutCounter, xs, k)
  {
    hide PutCount, PutU32, CounterLe;
    var _ :- w.Count(|xs|);
    ghost var start := w.bytes;
    for i := 0 to |xs|
      invariant forall k :: w.bytes + PutMany(PutCounter, xs[i..], k) == start + PutMany(PutCounter, xs, k)
    {
      PutManyStep(PutCounter, xs, i);
      hide PutMany;
      w.U32(xs[i].typ);
      w.U32(xs[i].count);
    }
    assert xs[|xs|..] == [];
    r := Some(());
  }

  method AppendCounters(w: Writer, counters: seq<Counter>) returns (r: Option<()>)
    modifies w
    ensures r.Some? <==> |counters| <= U32_MAX
    ensures r.Some? ==> forall k :: w.bytes + k == old(w.bytes) + PutList(PutCounter, Sort(CounterLe, counters), k)
  {
    NumberOrders();
    FieldsDoNotTie([], counters, []);
    hide TotalPreorder, NoTies, Sort, PutList, PutU32, CounterLe;
    var xs := StdSort(CounterLe, counters);
    AnySortIsSort(CounterLe, counters, xs);
    SameElements(counters, xs);
    r := AppendCountersInOrder(w, xs);
  }

  method AppendCodesInOrder(w: Writer, xs: seq<U32>) returns (r: Option<()>)
    modifies w
    ensures r.Some? <==> |xs| <= U32_MAX
    ensures r.Some? ==> forall k :: w.bytes + k == old(w.bytes) + PutList(PutU32, xs, k)
  {
    hide PutCount, PutU32, CodeLe;
    var _ :- w.Count(|xs|);
    ghost var start := w.bytes;
    for i := 0 to |xs|
      invariant forall k :: w.bytes + PutMany(PutU32, xs[i..], k) == start + PutMany(PutU32, xs, k)
    {
      PutManyStep(PutU32, xs, i);
      hide PutMany;
      w.U32(xs[i]);
    }
    assert xs[|xs|..] == [];
    r := Some(());
  }

  method AppendCodes(w: Writer, codes: seq<U32>) returns (r: Option<()>)
    modifies w
    ensures r.Some? <==> |codes| <= U32_MAX
    ensures r.Some? ==> forall k :: w.bytes + k == old(w.bytes) + PutList(PutU32, Sort(CodeLe, codes), k)
  {
    NumberOrders();
    FieldsDoNotTie([], [], codes);
    hide TotalPreorder, NoTies, Sort, PutList, PutU32, CodeLe;
    var xs := StdSort(CodeLe, codes);
    AnySortIsSort(CodeLe, codes, xs);
    SameElements(codes, xs);
    r := AppendCodesInOrder(w, xs);
  }

  method AppendLifePoints(w: Writer, xs: seq<U32>) returns (r: Option<()>)
    modifies w
    ensures r.Some? <==> |xs| <= U32_MAX
    ensures r.Some? ==> forall k :: w.bytes + k == old(w.bytes) + PutList(PutU32, xs, k)
  {
    hide PutCount, PutU32;
    var _ :- w.Count(|xs|);
    ghost var start := w.bytes;
    for i := 0 to |xs|
      invariant forall k :: w.bytes + PutMany(PutU32, xs[i..], k) == start + PutMany(PutU32, xs, k)
    {
      PutManyStep(PutU32, xs, i);
      hide PutMany;
      w.U32(xs[i]);
    }
    assert xs[|xs|..] == [];
    r := Some(());
  }

  method AppendTargetsInOrder(w: Writer, xs: seq<Bytes>) returns (r: Option<()>)
    requires AllOk(LocatorDemand(RAW), xs)
    modifies w
    ensures r.Some? <==> |xs| <= U32_MAX && AllOk(LocatorDemand(SIZED), xs)
    ensures r.Some? ==> forall k :: w.bytes + k == old(w.bytes) + PutList(PutString, xs, k)
  {
    hide PutCount, IsLocator, PutString, LexLe;
    var _ :- w.Count(|xs|);
    ghost var start := w.bytes;
    for i := 0 to |xs|
      invariant forall k :: w.bytes + PutMany(PutString, xs[i..], k) == start + PutMany(PutString, xs, k)
      invariant forall j :: 0 <= j < i ==> LocatorMeets(SIZED, xs[j])
    {
      PutManyStep(PutString, xs, i);
      hide PutMany;
      var _ :- w.Text(xs[i]);
    }
    assert xs[|xs|..] == [];
    r := Some(());
  }

  method AppendTargets(w: Writer, targets: seq<Bytes>) returns (r: Option<()>)
    requires AllOk(LocatorDemand(RAW), targets)
    modifies w
    ensures r.Some? <==> |targets| <= U32_MAX && AllOk(LocatorDemand(SIZED), targets)
    ensures r.Some? ==> forall k :: w.bytes + k == old(w.bytes) + PutList(PutString, Sort(LexLe, targets), k)
  {
    hide Sort, PutList, IsSortOf, AllOk, IsLocator, PutString, LexLe;
    LocatorOrders();
    LocatorsDoNotTie(targets);
    hide TotalPreorder, NoTies;
    var xs := StdSort(LexLe, targets);
    SortedCopy(LexLe, targets, xs, LocatorDemand(RAW), LocatorDemand(SIZED));
    r := AppendTargetsInOrder(w, xs);
  }

  // ---------------------------------------------------------------- records

  method AppendPropertyFields(w: Writer, p: CardProperties) returns (r: Option<()>)
    modifies w
    ensures r.Some? <==> PropertiesMeet(SIZED, p)
    ensures r.Some? ==> forall k :: w.bytes + k == old(w.bytes) + PutProperties(NormProperties(p), k)
  {
    hide PutU8, PutU32, PutU64, PutI32, PutBool, PutOpt, PutList, PutString, Sort, ZoneCode;
    w.OptionalU32(p.typ);
    w.OptionalU32(p.attribute);
    w.OptionalU64(p.race);
    w.OptionalI32(p.attack);
    w.OptionalI32(p.defense);
    w.OptionalI32(p.baseAttack);
    w.OptionalI32(p.baseDefense);
    w.OptionalU32(p.level);
    w.OptionalU32(p.rank);
    w.OptionalU32(p.linkRating);
    var _ :- AppendMarkers(w, p.linkMarkers);
    w.OptionalU32(p.leftScale);
    w.OptionalU32(p.rightScale);
    w.OptionalU32(p.statusFlags);
    var _ :- AppendCounters(w, p.counters);
    r := Some(());
  }

  method AppendProperties(w: Writer, value: Option<CardProperties>) returns (r: Option<()>)
    modifies w
    ensures r.Some? <==> (value.Some? ==> PropertiesMeet(SIZED, value.value))
    ensures r.Some? ==>
      forall k :: w.bytes + k == old(w.bytes) + PutOpt(PutProperties, MapOpt(NormProperties, value), k)
  {
    hide PutU8, PutProperties, NormProperties, PropertiesMeet;
    w.Flag(value.Some?);
    if value.None? {
      return Some(());
    }
    r := AppendPropertyFields(w, value.value);
  }

  method AppendOptionalLocator(w: Writer, value: Option<Bytes>) returns (r: Option<()>)
    modifies w
    ensures r.Some? <==> (value.Some? ==> |value.value| <= U32_MAX)
    ensures r.Some? ==> forall k :: w.bytes + k == old(w.bytes) + PutOpt(PutString, value, k)
  {
    hide PutU8, PutString;
    w.Flag(value.Some?);
    if value.None? {
      return Some(());
    }
    r := w.Text(value.value);
  }

  method AppendOptionalZone(w: Writer, value: Option<SemanticZone>)
    modifies w
    ensures forall k :: w.bytes + k == old(w.bytes) + PutOpt(PutZoneCode, value, k)
  {
    hide PutU8, ZoneCode;
    w.Flag(value.Some?);
    if value.Some? {
      w.U8(ZoneCode(value.value));
    }
  }

  method AppendGlobals(w: Writer, g: Globals) returns (r: Option<()>)
    modifies w
    ensures r.Some? <==> |g.lifePoints| <= U32_MAX
    ensures r.Some? ==> forall k :: w.bytes + k == old(w.bytes) + PutGlobals(g, k)
  {
    hide PutU8, PutU32, PutU64, PutI32, PutBool, PutOpt, PutList, PutString, Sort, ZoneCode;
    w.U64(g.duelFlags);
    var _ :- AppendLifePoints(w, g.lifePoints);
    w.OptionalU8(g.playerToAct);
    w.OptionalU8(g.turnPlayer);
    w.OptionalU32(g.turnCount);
    w.OptionalU32(g.phase);
    w.U32(g.chainLength);
    w.OptionalU8(g.winner);
    w.OptionalU8(g.winReason);
    w.Flag(g.terminal);
    r := Some(());
  }

  method AppendZone(w: Writer, z: ObservedZone)
    modifies w
    ensures forall k :: w.bytes + k == old(w.bytes) + PutZone(z, k)
  {
    hide PutU8, PutU32, PutU64, PutI32, PutBool, PutOpt, PutList, PutString, Sort, ZoneCode;
    w.U8(z.player);
    w.U8(ZoneCode(z.kind));
    w.U32(z.totalCount);
    w.U32(z.publicIdentityCount);
    w.U32(z.hiddenCount);
    w.Flag(z.playerObservableOrder);
  }

  method AppendCard(w: Writer, c: ObservedCard) returns (r: Option<()>)
    requires CardMeets(RAW, c)
    modifies w
    ensures r.Some? <==> CardMeets(SIZED, c)
    ensures r.Some? ==> forall k :: w.bytes + k == old(w.bytes) + PutCard(NormCard(c), k)
  {
    hide PutU8, PutU32, PutU64, PutI32, PutBool, PutOpt, PutList, PutString, Sort, ZoneCode, PositionCode, MapOpt,
      PropertiesMeet, PutProperties, IsLocator;
    var _ :- w.Text(c.locator);
    w.Flag(c.identityKnown);
    w.OptionalU32(c.passcode);
    w.OptionalU8(c.owner);
    w.OptionalU8(c.controller);
    w.U8(ZoneCode(c.zone));
    w.OptionalU32(c.sequence);
    w.OptionalU32(c.overlaySequence);
    w.U8(PositionCode(c.position));
    w.Flag(c.faceUp);
    w.Flag(c.faceDown);
    var _ :- AppendProperties(w, c.printed);
    var _ :- AppendProperties(w, c.current);
    r := Some(());
  }

  method AppendRelationship(w: Writer, x: Relationship) returns (r: Option<()>)
    modifies w
    ensures r.Some? <==> |x.source| <= U32_MAX && |x.target| <= U32_MAX
    ensures r.Some? ==> forall k :: w.bytes + k == old(w.bytes) + PutRelationship(x, k)
  {
    hide PutU8, PutString, RelationshipCode;
    w.U8(RelationshipCode(x.kind));
    var _ :- w.Text(x.source);
    r := w.Text(x.target);
  }

  method AppendLink(w: Writer, l: ChainLink) returns (r: Option<()>)
    requires LinkMeets(RAW, l)
    modifies w
    ensures r.Some? <==> LinkMeets(SIZED, l)
    ensures r.Some? ==> forall k :: w.bytes + k == old(w.bytes) + PutLink(NormLink(l), k)
  {
    hide PutU8, PutU32, PutU64, PutI32, PutBool, PutOpt, PutList, PutString, Sort, ZoneCode, IsLocator;
    w.U32(l.index);
    w.OptionalU8(l.activatingPlayer);
    var _ :- AppendOptionalLocator(w, l.source);
    AppendOptionalZone(w, l.activationZone);
    w.OptionalU64(l.effectDescription);
    assert AllOk(LocatorDemand(RAW), l.targets);
    assert TargetsMeet(SIZED, l.targets) <==> |l.targets| <= U32_MAX && AllOk(LocatorDemand(SIZED), l.targets);
    var _ :- AppendTargets(w, l.targets);
    r := Some(());
  }

  method AppendEvent(w: Writer, e: VisibleEvent) returns (r: Option<()>)
    requires EventMeets(RAW, e)
    modifies w
    ensures r.Some? <==> EventMeets(SIZED, e)
    ensures r.Some? ==> forall k :: w.bytes + k == old(w.bytes) + PutEvent(NormEvent(e), k)
  {
    hide PutU8, PutU32, PutU64, PutI32, PutBool, PutOpt, PutList, PutString, Sort, ZoneCode, EventKindCode,
      IsLocator;
    w.U64(e.eventIndex);
    w.U8(EventKindCode(e.kind));
    w.OptionalU8(e.player);
    var _ :- AppendOptionalLocator(w, e.entity);
    w.OptionalU32(e.publicPasscode);
    AppendOptionalZone(w, e.fromZone);
    AppendOptionalZone(w, e.toZone);
    w.OptionalU32(e.count);
    w.OptionalI32(e.amount);
    w.OptionalU32(e.counterType);
    w.OptionalU32(e.phase);
    w.OptionalU8(e.winner);
    w.OptionalU8(e.winReason);
    w.OptionalU64(e.effectDescription);
    assert AllOk(LocatorDemand(RAW), e.targets);
    assert TargetsMeet(SIZED, e.targets) <==> |e.targets| <= U32_MAX && AllOk(LocatorDemand(SIZED), e.targets);
    var _ :- AppendTargets(w, e.targets);
    r := Some(());
  }

  method AppendDeck(w: Writer, d: Deck) returns (r: Option<()>)
    modifies w
    ensures r.Some? <==> |d.mainDeck| <= U32_MAX && |d.extraDeck| <= U32_MAX
    ensures r.Some? ==> forall k :: w.bytes + k == old(w.bytes) + PutDeck(NormDeck(d), k)
  {
    hide PutU8, PutU32, PutU64, PutI32, PutBool, PutOpt, PutList, PutString, Sort, ZoneCode;
    w.Flag(d.known);
    var _ :- AppendCodes(w, d.mainDeck);
    var _ :- AppendCodes(w, d.extraDeck);
    r := Some(());
  }

  method AppendContext(w: Writer, m: MatchContext) returns (r: Option<()>)
    requires DeckMeets(RAW, m.ownDeck) && DeckMeets(RAW, m.opponentDeck)
    modifies w
    ensures r.Some? <==> DeckMeets(SIZED, m.ownDeck) && DeckMeets(SIZED, m.opponentDeck)
    ensures r.Some? ==> forall k :: w.bytes + k == old(w.bytes) + PutContext(NormContext(m), k)
  {
    hide PutU8, PutU64, PutBool, PutDeck, NormDeck;
    w.U8(m.perspectivePlayer);
    w.U64(m.duelFlags);
    w.Flag(m.ownDecklistKnown);
    w.Flag(m.opponentDecklistKnown);
    var _ :- AppendDeck(w, m.ownDeck);
    var _ :- AppendDeck(w, m.opponentDeck);
    r := Some(());
  }

  // ---------------------------------------------------------------- sorted lists of records

  method AppendZonesInOrder(w: Writer, xs: seq<ObservedZone>) returns (r: Option<()>)
    modifies w
    ensures r.Some? <==> |xs| <= U32_MAX
    ensures r.Some? ==> forall k :: w.bytes + k == old(w.bytes) + PutList(PutZone, xs, k)
  {
    hide PutCount, PutZone, ZoneLe;
    var _ :- w.Count(|xs|);
    ghost var start := w.bytes;
    for i := 0 to |xs|
      invariant forall k :: w.bytes + PutMany(PutZone, xs[i..], k) == start + PutMany(PutZone, xs, k)
    {
      PutManyStep(PutZone, xs, i);
      hide PutMany;
      AppendZone(w, xs[i]);
    }
    assert xs[|xs|..] == [];
    r := Some(());
  }

  method AppendZones(w: Writer, zones: seq<ObservedZone>) returns (r: Option<()>)
    modifies w
    ensures r.Some? <==> |zones| <= U32_MAX
    ensures r.Some? ==> forall k :: w.bytes + k == old(w.bytes) + PutList(PutZone, Sort(ZoneLe, zones), k)
  {
    ZoneOrder();
    ZonesDoNotTie(zones);
    hide TotalPreorder, NoTies, Sort, PutList, PutZone, ZoneLe;
    var xs := StdSort(ZoneLe, zones);
    AnySortIsSort(ZoneLe, zones, xs);
    SameElements(zones, xs);
    r := AppendZonesInOrder(w, xs);
  }

  lemma EntitiesDoNotTie(cs: seq<ObservedCard>)
    requires UniqueLocators(cs)
    ensures NoTies(EntityLe, cs)
  {
    LexOrder();
    hide LexLess;
  }

  lemma EventsDoNotTie(es: seq<VisibleEvent>)
    requires UniqueIndices(es)
    ensures NoTies(EventLe, es)
  {
  }

  method AppendCardsInOrder(w: Writer, xs: seq<ObservedCard>) returns (r: Option<()>)
    requires AllOk(CardDemand(RAW), xs)
    modifies w
    ensures r.Some? <==> |xs| <= U32_MAX && AllOk(CardDemand(SIZED), xs)
    ensures r.Some? ==> forall k :: w.bytes + k == old(w.bytes) + PutList(PutCard, Map(NormCard, xs), k)
  {
    hide PutCount, CardMeets, PutCard, NormCard, EntityLe;
    var _ :- w.Count(|xs|);
    ghost var ys := Map(NormCard, xs);
    ghost var start := w.bytes;
    for i := 0 to |xs|
      invariant forall k :: w.bytes + PutMany(PutCard, ys[i..], k) == start + PutMany(PutCard, ys, k)
      invariant forall j :: 0 <= j < i ==> CardMeets(SIZED, xs[j])
    {
      PutManyStep(PutCard, ys, i);
      hide PutMany;
      var _ :- AppendCard(w, xs[i]);
    }
    assert ys[|xs|..] == [];
    r := Some(());
  }

  method AppendCards(w: Writer, cards: seq<ObservedCard>) returns (r: Option<()>)
    requires AllOk(CardDemand(RAW), cards) && UniqueLocators(cards)
    modifies w
    ensures r.Some? <==> |cards| <= U32_MAX && AllOk(CardDemand(SIZED), cards)
    ensures r.Some? ==>
      forall k :: w.bytes + k == old(w.bytes) + PutList(PutCard, Map(NormCard, Sort(EntityLe, cards)), k)
  {
    hide Sort, PutList, IsSortOf, AllOk, CardMeets, PutCard, NormCard, EntityLe;
    LocatorOrders();
    EntitiesDoNotTie(cards);
    hide TotalPreorder, NoTies;
    var xs := StdSort(EntityLe, cards);
    SortedCopy(EntityLe, cards, xs, CardDemand(RAW), CardDemand(SIZED));
    r := AppendCardsInOrder(w, xs);
  }

  method AppendRelationshipsInOrder(w: Writer, xs: seq<Relationship>) returns (r: Option<()>)
    requires AllOk(RelationshipDemand(RAW), xs)
    modifies w
    ensures r.Some? <==> |xs| <= U32_MAX && AllOk(RelationshipDemand(SIZED), xs)
    ensures r.Some? ==> forall k :: w.bytes + k == old(w.bytes) + PutList(PutRelationship, xs, k)
  {
    hide PutCount, IsLocator, PutRelationship, RelationshipLe;
    var _ :- w.Count(|xs|);
    ghost var start := w.bytes;
    for i := 0 to |xs|
      invariant forall k :: w.bytes + PutMany(PutRelationship, xs[i..], k) == start + PutMany(PutRelationship, xs, k)
      invariant forall j :: 0 <= j < i ==> RelationshipDemand(SIZED)(xs[j])
    {
      PutManyStep(PutRelationship, xs, i);
      hide PutMany;
      var _ :- AppendRelationship(w, xs[i]);
    }
    assert xs[|xs|..] == [];
    r := Some(());
  }

  method AppendRelationships(w: Writer, relationships: seq<Relationship>) returns (r: Option<()>)
    requires AllOk(RelationshipDemand(RAW), relationships)
    modifies w
    ensures r.Some? <==> |relationships| <= U32_MAX && AllOk(RelationshipDemand(SIZED), relationships)
    ensures r.Some? ==>
      forall k :: w.bytes + k == old(w.bytes) + PutList(PutRelationship, Sort(RelationshipLe, relationships), k)
  {
    hide Sort, PutList, IsSortOf, AllOk, IsLocator, PutRelationship, RelationshipLe;
    RelationshipOrder();
    RelationshipsDoNotTie(relationships);
    hide TotalPreorder, NoTies;
    var xs := StdSort(RelationshipLe, relationships);
    SortedCopy(RelationshipLe, relationships, xs, RelationshipDemand(RAW), RelationshipDemand(SIZED));
    r := AppendRelationshipsInOrder(w, xs);
  }

  method AppendLinks(w: Writer, xs: seq<ChainLink>) returns (r: Option<()>)
    requires AllOk(LinkDemand(RAW), xs)
    modifies w
    ensures r.Some? <==> |xs| <= U32_MAX && AllOk(LinkDemand(SIZED), xs)
    ensures r.Some? ==> forall k :: w.bytes + k == old(w.bytes) + PutList(PutLink, Map(NormLink, xs), k)
  {
    hide PutCount, LinkMeets, PutLink, NormLink;
    var _ :- w.Count(|xs|);
    ghost var ys := Map(NormLink, xs);
    ghost var start := w.bytes;
    for i := 0 to |xs|
      invariant forall k :: w.bytes + PutMany(PutLink, ys[i..], k) == start + PutMany(PutLink, ys, k)
      invariant forall j :: 0 <= j < i ==> LinkMeets(SIZED, xs[j])
    {
      PutManyStep(PutLink, ys, i);
      hide PutMany;
      var _ :- AppendLink(w, xs[i]);
    }
    assert ys[|xs|..] == [];
    r := Some(());
  }

  method AppendEventsInOrder(w: Writer, xs: seq<VisibleEvent>) returns (r: Option<()>)
    requires AllOk(EventDemand(RAW), xs)
    modifies w
    ensures r.Some? <==> |xs| <= U32_MAX && AllOk(EventDemand(SIZED), xs)
    ensures r.Some? ==> forall k :: w.bytes + k == old(w.bytes) + PutList(PutEvent, Map(NormEvent, xs), k)
  {
    hide PutCount, EventMeets, PutEvent, NormEvent, EventLe;
    var _ :- w.Count(|xs|);
    ghost var ys := Map(NormEvent, xs);
    ghost var start := w.bytes;
    for i := 0 to |xs|
      invariant forall k :: w.bytes + PutMany(PutEvent, ys[i..], k) == start + PutMany(PutEvent, ys, k)
      invariant forall j :: 0 <= j < i ==> EventMeets(SIZED, xs[j])
    {
      PutManyStep(PutEvent, ys, i);
      hide PutMany;
      var _ :- AppendEvent(w, xs[i]);
    }
    assert ys[|xs|..] == [];
    r := Some(());
  }

  method AppendEvents(w: Writer, events: seq<VisibleEvent>) returns (r: Option<()>)
    requires AllOk(EventDemand(RAW), events) && UniqueIndices(events)
    modifies w
    ensures r.Some? <==> |events| <= U32_MAX && AllOk(EventDemand(SIZED), events)
    ensures r.Some? ==>
      forall k :: w.bytes + k == old(w.bytes) + PutList(PutEvent, Map(NormEvent, Sort(EventLe, events)), k)
  {
    hide Sort, PutList, IsSortOf, AllOk, EventMeets, PutEvent, NormEvent, EventLe;
    NumberOrders();
    EventsDoNotTie(events);
    hide TotalPreorder, NoTies;
    var xs := StdSort(EventLe, events);
    SortedCopy(EventLe, events, xs, EventDemand(RAW), EventDemand(SIZED));
    r := AppendEventsInOrder(w, xs);
  }

  // ---------------------------------------------------------------- the whole state

  /** What a valid state must still meet to be encodable, collection by collection. */
  predicate Fits(d: Demand, v: View) {
    && CountMeets(d, |v.globals.lifePoints|) && CountMeets(d, |v.zones|)
    && CountMeets(d, |v.entities|) && AllOk(CardDemand(d), v.entities)
    && CountMeets(d, |v.relationships|) && AllOk(RelationshipDemand(d), v.relationships)
    && CountMeets(d, |v.chain.links|) && AllOk(LinkDemand(d), v.chain.links)
    && CountMeets(d, |v.visibleEvents|) && AllOk(EventDemand(d), v.visibleEvents)
    && DeckMeets(d, v.matchContext.ownDeck) && DeckMeets(d, v.matchContext.opponentDeck)
  }

  lemma MeetsIffFits(d: Demand, v: View)
    requires ViewMeets(RAW, v)
    ensures Fits(d, v) <==> ViewMeets(d, v)
    ensures UniqueLocators(v.entities) && UniqueIndices(v.visibleEvents)
  {
    hide CardMeets, LinkMeets, EventMeets, LocatorMeets, DeckMeets, UniqueLocators, UniqueIndices;
    assert AllOk(CardDemand(d), v.entities) <==> forall i :: 0 <= i < |v.entities| ==> CardMeets(d, v.entities[i]);
    assert AllOk(LinkDemand(d), v.chain.links) <==>
      forall i :: 0 <= i < |v.chain.links| ==> LinkMeets(d, v.chain.links[i]);
    assert AllOk(EventDemand(d), v.visibleEvents) <==>
      forall i :: 0 <= i < |v.visibleEvents| ==> EventMeets(d, v.visibleEvents[i]);
    assert AllOk(RelationshipDemand(d), v.relationships) <==> forall i :: 0 <= i < |v.relationships| ==>
      LocatorMeets(d, v.relationships[i].source) && LocatorMeets(d, v.relationships[i].target);
  }

  method AppendHeader(w: Writer)
    modifies w
    ensures forall k :: w.bytes + k == old(w.bytes) + PutHeader(k)
  {
    var name := Ascii(SCHEMA_ID);
    assert |name| == 29;
    hide PutString, Ascii;
    var first := w.Text(name);
    var second := w.Text(name);
  }

  /** Encodes a valid state, or reports the length error of a field that does not fit. */
  method EncodeView(v: View) returns (r: Option<Bytes>)
    requires ViewMeets(RAW, v)
    ensures r.Some? <==> ViewMeets(SIZED, v)
    ensures r.Some? ==> r.value == Encode(v)
  {
    hide ViewMeets, PutHeader, PutGlobals, PutList, PutU32, PutContext, AllOk, LinkMeets, DeckMeets, UniqueLocators,
      UniqueIndices, Sort, NormContext, NormCard, NormEvent, NormLink, CardDemand, RelationshipDemand, EventDemand,
      LinkDemand, Map;
    MeetsIffFits(RAW, v);
    MeetsIffFits(SIZED, v);
    var w := new Writer();
    AppendHeader(w);
    var _ :- AppendGlobals(w, v.globals);
    var _ :- AppendZones(w, v.zones);
    var _ :- AppendCards(w, v.entities);
    var _ :- AppendRelationships(w, v.relationships);
    w.U32(v.chain.length);
    var _ :- AppendLinks(w, v.chain.links);
    var _ :- AppendEvents(w, v.visibleEvents);
    var _ :- AppendContext(w, v.matchContext);
    assert w.bytes + [] == w.bytes;
    r := Some(w.bytes);
  }
}
