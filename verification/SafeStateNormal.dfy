/** The normal form of a safe state: every unordered collection in its canonical order. */
module SafeStateNormal {
  import opened Bytes
  import opened Text
  import opened Sorting
  import opened SafeState

  // ---------------------------------------------------------------- the comparators are orders

  lemma NumberOrders()
    ensures TotalPreorder(MarkerLe) && TotalPreorder(CounterLe) && TotalPreorder(CodeLe) && TotalPreorder(EventLe)
  {
  }

  lemma ZoneOrder()
    ensures TotalPreorder(ZoneLe)
  {
    ZoneCodesDiffer();
    hide ZoneCode;
  }

  lemma ZoneCodesDiffer()
    ensures forall x: SemanticZone, y: SemanticZone {:trigger ZoneCode(x), ZoneCode(y)} ::
      ZoneCode(x) == ZoneCode(y) ==> x == y
  {
  }

  lemma LocatorOrders()
    ensures TotalPreorder(LexLe) && TotalPreorder(EntityLe)
  {
    LexOrder();
    hide LexLess;
  }

  lemma RelationshipOrder()
    ensures TotalPreorder(RelationshipLe)
  {
    LexOrder();
    hide LexLess;
  }

  // ---------------------------------------------------------------- when they leave no ties

  lemma FieldsDoNotTie(markers: seq<LinkMarker>, counters: seq<Counter>, codes: seq<U32>)
    ensures NoTies(MarkerLe, markers) && NoTies(CounterLe, counters) && NoTies(CodeLe, codes)
  {
    forall a, b | MarkerCode(a) == MarkerCode(b) ensures a == b {
    }
  }

  lemma ZonesDoNotTie(zones: seq<ObservedZone>)
    ensures NoTies(ZoneLe, zones)
  {
    ZoneCodesDiffer();
    hide ZoneCode;
  }

  lemma LocatorsDoNotTie(targets: seq<Bytes>)
    ensures NoTies(LexLe, targets)
  {
    LexOrder();
    hide LexLess;
  }

  lemma RelationshipsDoNotTie(rs: seq<Relationship>)
    ensures NoTies(RelationshipLe, rs)
  {
    LexOrder();
    hide LexLess;
  }

  // ---------------------------------------------------------------- normal forms

  function MapOpt<T>(f: T -> T, x: Option<T>): Option<T> {
    match x
    case None => None
    case Some(y) => Some(f(y))
  }

  function NormProperties(p: CardProperties): CardProperties {
    p.(linkMarkers := Sort(MarkerLe, p.linkMarkers), counters := Sort(CounterLe, p.counters))
  }

  function NormCard(c: ObservedCard): ObservedCard {
    c.(printed := MapOpt(NormProperties, c.printed), current := MapOpt(NormProperties, c.current))
  }

  function NormLink(l: ChainLink): ChainLink {
    l.(targets := Sort(LexLe, l.targets))
  }

  function NormEvent(e: VisibleEvent): VisibleEvent {
    e.(targets := Sort(LexLe, e.targets))
  }

  function NormDeck(d: Deck): Deck {
    d.(mainDeck := Sort(CodeLe, d.mainDeck), extraDeck := Sort(CodeLe, d.extraDeck))
  }

  function NormContext(m: MatchContext): MatchContext {
    m.(ownDeck := NormDeck(m.ownDeck), opponentDeck := NormDeck(m.opponentDeck))
  }

  function Normalize(v: View): View {
    View(v.globals, Sort(ZoneLe, v.zones), Map(NormCard, Sort(EntityLe, v.entities)),
         Sort(RelationshipLe, v.relationships), v.chain.(links := Map(NormLink, v.chain.links)),
         Map(NormEvent, Sort(EventLe, v.visibleEvents)), NormContext(v.matchContext))
  }

  // ---------------------------------------------------------------- what a state must meet

  /** `sized`: every string and collection fits a 32-bit count. `utf8`: every locator is text.
      With neither, a state meets the demand exactly when it passes validation. */
  datatype Demand = Demand(utf8: bool, sized: bool)

  predicate CountMeets(d: Demand, n: nat) {
    d.sized ==> n <= U32_MAX
  }

  predicate LocatorMeets(d: Demand, s: Bytes) {
    IsLocator(s) && CountMeets(d, |s|) && (d.utf8 ==> Utf8Octets(s))
  }

  predicate PropertiesMeet(d: Demand, p: CardProperties) {
    CountMeets(d, |p.linkMarkers|) && CountMeets(d, |p.counters|)
  }

  predicate CardMeets(d: Demand, c: ObservedCard) {
    && LocatorMeets(d, c.locator)
    && OptOk(PlayerOk, c.owner) && OptOk(PlayerOk, c.controller)
    && !(c.faceUp && c.faceDown)
    && (!c.identityKnown ==> c.passcode.None? && c.printed.None? && c.current.None?)
    && (c.printed.Some? ==> PropertiesMeet(d, c.printed.value))
    && (c.current.Some? ==> PropertiesMeet(d, c.current.value))
  }

  predicate TargetsMeet(d: Demand, ts: seq<Bytes>) {
    CountMeets(d, |ts|) && forall i :: 0 <= i < |ts| ==> LocatorMeets(d, ts[i])
  }

  predicate LinkMeets(d: Demand, l: ChainLink) {
    && OptOk(PlayerOk, l.activatingPlayer) && (l.source.Some? ==> LocatorMeets(d, l.source.value))
    && TargetsMeet(d, l.targets)
  }

  predicate EventMeets(d: Demand, e: VisibleEvent) {
    && OptOk(PlayerOk, e.player) && (e.entity.Some? ==> LocatorMeets(d, e.entity.value))
    && TargetsMeet(d, e.targets)
  }

  predicate DeckMeets(d: Demand, k: Deck) {
    && CountMeets(d, |k.mainDeck|) && CountMeets(d, |k.extraDeck|)
    && (!k.known ==> k.mainDeck == [] && k.extraDeck == [])
  }

  predicate UniqueLocators(cs: seq<ObservedCard>) {
    forall i, j :: 0 <= i < j < |cs| ==> cs[i].locator != cs[j].locator
  }

  predicate UniqueIndices(es: seq<VisibleEvent>) {
    forall i, j :: 0 <= i < j < |es| ==> es[i].eventIndex != es[j].eventIndex
  }

  predicate ViewMeets(d: Demand, v: View) {
    && CountMeets(d, |v.globals.lifePoints|)
    && OptOk(PlayerOk, v.globals.playerToAct) && OptOk(PlayerOk, v.globals.turnPlayer)
    && CountMeets(d, |v.zones|) && (forall i :: 0 <= i < |v.zones| ==> ZoneOk(v.zones[i]))
    && CountMeets(d, |v.entities|) && (forall i :: 0 <= i < |v.entities| ==> CardMeets(d, v.entities[i]))
    && UniqueLocators(v.entities)
    && CountMeets(d, |v.relationships|)
    && (forall i :: 0 <= i < |v.relationships| ==>
          LocatorMeets(d, v.relationships[i].source) && LocatorMeets(d, v.relationships[i].target))
    && CountMeets(d, |v.chain.links|) && (forall i :: 0 <= i < |v.chain.links| ==> LinkMeets(d, v.chain.links[i]))
    && CountMeets(d, |v.visibleEvents|)
    && (forall i :: 0 <= i < |v.visibleEvents| ==> EventMeets(d, v.visibleEvents[i]))
    && UniqueIndices(v.visibleEvents)
    && v.matchContext.perspectivePlayer <= 1
    && DeckMeets(d, v.matchContext.ownDeck) && DeckMeets(d, v.matchContext.opponentDeck)
  }

  // ---------------------------------------------------------------- normal forms are admitted

  lemma PropertiesAdmitted(utf8: bool, p: CardProperties)
    ensures PropertiesOk(NormProperties(p)) <==> PropertiesMeet(Demand(utf8, true), p)
  {
    NumberOrders();
    SortSorts(MarkerLe, p.linkMarkers);
    SortSorts(CounterLe, p.counters);
    hide Sort;
  }

  lemma CardAdmitted(utf8: bool, c: ObservedCard)
    ensures CardOk(utf8, NormCard(c)) <==> CardMeets(Demand(utf8, true), c)
  {
    if c.printed.Some? {
      PropertiesAdmitted(utf8, c.printed.value);
    }
    if c.current.Some? {
      PropertiesAdmitted(utf8, c.current.value);
    }
    hide PropertiesOk, PropertiesMeet, NormProperties, IsLocator, Utf8Octets;
  }

  lemma TargetsAdmitted(utf8: bool, ts: seq<Bytes>)
    ensures TargetsOk(utf8, Sort(LexLe, ts)) <==> TargetsMeet(Demand(utf8, true), ts)
  {
    LocatorOrders();
    SortSorts(LexLe, ts);
    SortKeeps(LexLe, ts, LocatorRule(utf8));
    hide Sort, IsLocator, Utf8Octets, LexLess;
    assert AllOk(LocatorRule(utf8), ts) <==>
      forall i :: 0 <= i < |ts| ==> TextOk(utf8, ts[i]) && IsLocator(ts[i]);
  }

  lemma LinkAdmitted(utf8: bool, l: ChainLink)
    ensures LinkOk(utf8, NormLink(l)) <==> LinkMeets(Demand(utf8, true), l)
  {
    TargetsAdmitted(utf8, l.targets);
    hide TargetsOk, TargetsMeet, Sort, IsLocator, Utf8Octets;
  }

  lemma EventAdmitted(utf8: bool, e: VisibleEvent)
    ensures EventOk(utf8, NormEvent(e)) <==> EventMeets(Demand(utf8, true), e)
  {
    TargetsAdmitted(utf8, e.targets);
    hide TargetsOk, TargetsMeet, Sort, IsLocator, Utf8Octets;
  }

  lemma DeckAdmitted(utf8: bool, k: Deck)
    ensures DeckOk(NormDeck(k)) <==> DeckMeets(Demand(utf8, true), k)
  {
    NumberOrders();
    SortSorts(CodeLe, k.mainDeck);
    SortSorts(CodeLe, k.extraDeck);
    hide Sort;
  }

  function LocatorOf(c: ObservedCard): Bytes {
    c.locator
  }

  function IndexOf(e: VisibleEvent): int {
    e.eventIndex
  }

  function CardDemand(d: Demand): ObservedCard -> bool {
    c => CardMeets(d, c)
  }

  function EventDemand(d: Demand): VisibleEvent -> bool {
    e => EventMeets(d, e)
  }

  /** The strict order the reader insists on is what uniqueness of locators gives. */
  lemma SortedLocators(cs: seq<ObservedCard>)
    requires Ordered(EntityLe, cs)
    ensures Ordered(EntityLess, cs) <==> Distinct(Map(LocatorOf, cs))
  {
    LexOrder();
    hide LexLess;
    StrictIffDistinct(EntityLe, EntityLess, LocatorOf, cs);
  }

  lemma SortedIndices(es: seq<VisibleEvent>)
    requires Ordered(EventLe, es)
    ensures Ordered(EventLess, es) <==> Distinct(Map(IndexOf, es))
  {
    StrictIffDistinct(EventLe, EventLess, IndexOf, es);
  }

  /** The sorted normal cards are strictly ascending exactly when no locator repeats. */
  lemma StrictIffUniqueLocators(cs: seq<ObservedCard>)
    ensures Ordered(EntityLess, Map(NormCard, Sort(EntityLe, cs))) <==> UniqueLocators(cs)
    ensures IsSortOf(EntityLe, cs, Sort(EntityLe, cs))
  {
    LocatorOrders();
    SortSorts(EntityLe, cs);
    var sorted := Sort(EntityLe, cs);
    assert Ordered(EntityLess, Map(NormCard, sorted)) <==> Ordered(EntityLess, sorted) by {
      hide LexLess;
    }
    SortedLocators(sorted);
    MapPermuted(LocatorOf, cs, sorted);
    DistinctPermuted(Map(LocatorOf, cs), Map(LocatorOf, sorted));
    hide NormCard, Sort, EntityLe, LexLess, TotalPreorder;
  }

  lemma StrictIffUniqueIndices(es: seq<VisibleEvent>)
    ensures Ordered(EventLess, Map(NormEvent, Sort(EventLe, es))) <==> UniqueIndices(es)
    ensures IsSortOf(EventLe, es, Sort(EventLe, es))
  {
    NumberOrders();
    SortSorts(EventLe, es);
    var sorted := Sort(EventLe, es);
    SortedIndices(sorted);
    MapPermuted(IndexOf, es, sorted);
    DistinctPermuted(Map(IndexOf, es), Map(IndexOf, sorted));
    hide Sort, TotalPreorder;
  }

  lemma CardsAdmitted(utf8: bool, cs: seq<ObservedCard>)
    ensures ListOk(CardRule(utf8), EntityLess, Map(NormCard, Sort(EntityLe, cs))) <==>
      (&& |cs| <= U32_MAX && (forall i :: 0 <= i < |cs| ==> CardMeets(Demand(utf8, true), cs[i]))
       && UniqueLocators(cs))
  {
    var d := Demand(utf8, true);
    StrictIffUniqueLocators(cs);
    LocatorOrders();
    SortKeeps(EntityLe, cs, CardDemand(d));
    SortSorts(EntityLe, cs);
    forall c ensures CardOk(utf8, NormCard(c)) <==> CardMeets(d, c) { CardAdmitted(utf8, c); }
    hide CardOk, CardMeets, NormCard, Sort, EntityLe, LexLess, TotalPreorder, UniqueLocators, Ordered;
  }

  lemma EventsAdmitted(utf8: bool, es: seq<VisibleEvent>)
    ensures ListOk(EventRule(utf8), EventLess, Map(NormEvent, Sort(EventLe, es))) <==>
      (&& |es| <= U32_MAX && (forall i :: 0 <= i < |es| ==> EventMeets(Demand(utf8, true), es[i]))
       && UniqueIndices(es))
  {
    var d := Demand(utf8, true);
    StrictIffUniqueIndices(es);
    NumberOrders();
    SortKeeps(EventLe, es, EventDemand(d));
    SortSorts(EventLe, es);
    forall e ensures EventOk(utf8, NormEvent(e)) <==> EventMeets(d, e) { EventAdmitted(utf8, e); }
    hide EventOk, EventMeets, NormEvent, Sort, TotalPreorder, UniqueIndices, Ordered;
  }

  lemma ZonesAdmitted(zs: seq<ObservedZone>)
    ensures ListOk(ZoneOk, ZoneLe, Sort(ZoneLe, zs)) <==>
      |zs| <= U32_MAX && (forall i :: 0 <= i < |zs| ==> ZoneOk(zs[i]))
  {
    ZoneOrder();
    SortSorts(ZoneLe, zs);
    SortKeeps(ZoneLe, zs, ZoneOk);
    hide Sort, TotalPreorder, ZoneLe;
  }

  lemma RelationshipsAdmitted(utf8: bool, rs: seq<Relationship>)
    ensures ListOk(RelationshipRule(utf8), RelationshipLe, Sort(RelationshipLe, rs)) <==>
      (var d := Demand(utf8, true);
       && |rs| <= U32_MAX
       && (forall i :: 0 <= i < |rs| ==> LocatorMeets(d, rs[i].source) && LocatorMeets(d, rs[i].target)))
  {
    RelationshipOrder();
    SortSorts(RelationshipLe, rs);
    SortKeeps(RelationshipLe, rs, RelationshipRule(utf8));
    hide Sort, TotalPreorder, RelationshipLe, IsLocator, Utf8Octets;
  }

  lemma LinksAdmitted(utf8: bool, ls: seq<ChainLink>)
    ensures ListOk(LinkRule(utf8), AnyLinks, Map(NormLink, ls)) <==>
      |ls| <= U32_MAX && (forall i :: 0 <= i < |ls| ==> LinkMeets(Demand(utf8, true), ls[i]))
  {
    forall l ensures LinkOk(utf8, NormLink(l)) <==> LinkMeets(Demand(utf8, true), l) { LinkAdmitted(utf8, l); }
    hide LinkOk, LinkMeets, NormLink;
    if AllOk(LinkRule(utf8), Map(NormLink, ls)) {
      forall i | 0 <= i < |ls| ensures LinkMeets(Demand(utf8, true), ls[i]) {
        assert LinkOk(utf8, Map(NormLink, ls)[i]);
      }
    }
  }

  /** The normal form is encodable exactly when the state meets the demand: sorting turns
      uniqueness of locators and event indices into the strict order of the wire format. */
  lemma NormalizeAdmitted(utf8: bool, v: View)
    ensures ViewOk(utf8, Normalize(v)) <==> ViewMeets(Demand(utf8, true), v)
  {
    ZonesAdmitted(v.zones);
    RelationshipsAdmitted(utf8, v.relationships);
    LinksAdmitted(utf8, v.chain.links);
    CardsAdmitted(utf8, v.entities);
    EventsAdmitted(utf8, v.visibleEvents);
    DeckAdmitted(utf8, v.matchContext.ownDeck);
    DeckAdmitted(utf8, v.matchContext.opponentDeck);
    hide Sort, ZoneLe, RelationshipLe, CardMeets, LinkMeets, EventMeets, LocatorMeets, DeckMeets, DeckOk, NormDeck,
      UniqueLocators, UniqueIndices, NormCard, NormEvent, NormLink;
  }
}
