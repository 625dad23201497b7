/** The canonical order of a safe state, said without the comparators the encoder sorts by: a
    first difference decides between two byte strings or two lists of numbers, and every
    unordered collection ascends. The codec accepts exactly the states in this order, and the
    bytes of a state show the one state in this order that has its content. */
module SafeStateOrder {
  import opened Bytes
  import opened Text
  import opened Sorting
  import opened SafeState
  import opened SafeStateNormal
  import opened SafeStateCodec
  import opened SafeStateContent
  import opened SafeStateBoundary

  // ---------------------------------------------------------------- codes

  const ZONES: seq<SemanticZone> := [
    SemanticZone.Unknown, MainDeck, Hand, MonsterZone, SpellTrapZone, Graveyard, Banished, ExtraDeck, FieldZone,
    PendulumRelevant, Overlay]

  const MARKERS: seq<LinkMarker> := [BottomLeft, Bottom, BottomRight, Left, Right, TopLeft, Top, TopRight]

  const KINDS: seq<RelationshipKind> := [XyzMaterial, Equip, RelationshipKind.Target]

  const EVENTS: seq<VisibleEventKind> := [
    VisibleEventKind.Unknown, TurnStarted, PhaseChanged, CardMoved, CardRevealed, Summoned, VisibleEventKind.Set, Draw,
    Shuffle, RandomizationBoundary, LifePointsChanged, ChainActivated, ChainResolved, ChainEnded, CardDestroyed,
    CardBanished, CardReturned, PositionChanged, CounterChanged, Equipped, Unequipped, Targeted, Win]

  /** The code of a value is its place in the list, and no other code is read. */
  lemma ZoneCodesArePlaces(z: SemanticZone, c: Byte)
    ensures ZONES[ZoneCode(z)] == z && DecodeZone(c) == (if c < |ZONES| then Some(ZONES[c]) else None)
  {
  }

  lemma MarkerCodesArePlaces(m: LinkMarker, c: Byte)
    ensures MARKERS[MarkerCode(m)] == m && DecodeMarker(c) == (if c < |MARKERS| then Some(MARKERS[c]) else None)
  {
  }

  lemma KindCodesArePlaces(k: RelationshipKind, c: Byte)
    ensures KINDS[RelationshipCode(k)] == k && DecodeRelationship(c) == (if c < |KINDS| then Some(KINDS[c]) else None)
  {
  }

  lemma EventCodesArePlaces(e: VisibleEventKind, c: Byte)
    ensures EVENTS[EventKindCode(e)] == e && DecodeEventKind(c) == (if c < |EVENTS| then Some(EVENTS[c]) else None)
  {
  }

  /** Positions are single bits, attack before defence and face up before face down. */
  lemma PositionsAreBits(p: Position)
    ensures PositionCode(p) == (if p in {FaceUpAttack, FaceUpDefense} then 1 else if p.Unknown? then 0 else 2)
      * (if p in {FaceUpDefense, FaceDownDefense} then 4 else 1)
    ensures forall c: Byte {:trigger DecodePosition(c)} :: DecodePosition(c) == Some(p) <==> c == PositionCode(p)
  {
  }

  // ---------------------------------------------------------------- first differences

  /** The lists agree up to a place, where the first ends before the second or is smaller. */
  predicate FirstLess(a: seq<int>, b: seq<int>, n: nat) {
    && n <= |a| && n < |b| && (forall k :: 0 <= k < n ==> a[k] == b[k])
    && (n < |a| ==> a[n] < b[n])
  }

  /** There is such a place. */
  ghost predicate Before(a: seq<int>, b: seq<int>) {
    exists n: nat :: FirstLess(a, b, n)
  }

  lemma {:induction false} LexLessIsBefore(a: Bytes, b: Bytes)
    ensures LexLess(a, b) <==> Before(a, b)
  {
    if a != [] && b != [] {
      LexLessIsBefore(a[1..], b[1..]);
      BeforeStep(a, b);
    } else if b != [] {
      assert FirstLess(a, b, 0);
    }
  }

  lemma FirstLessStep(a: seq<int>, b: seq<int>, n: nat)
    requires a != [] && b != []
    ensures FirstLess(a, b, n + 1) <==> a[0] == b[0] && FirstLess(a[1..], b[1..], n)
  {
    if FirstLess(a[1..], b[1..], n) && a[0] == b[0] {
      forall k | 0 <= k < n + 1 ensures a[k] == b[k] {
        assert k > 0 ==> a[k] == a[1..][k - 1] && b[k] == b[1..][k - 1];
      }
    }
  }

  lemma BeforeStep(a: seq<int>, b: seq<int>)
    requires a != [] && b != []
    ensures Before(a, b) <==> a[0] < b[0] || (a[0] == b[0] && Before(a[1..], b[1..]))
  {
    assert FirstLess(a, b, 0) <==> a[0] < b[0];
    hide FirstLess;
    if n: nat :| FirstLess(a, b, n) {
      if n > 0 {
        FirstLessStep(a, b, n - 1);
      }
    }
    if n: nat :| FirstLess(a[1..], b[1..], n) {
      FirstLessStep(a, b, n);
    }
  }

  // ---------------------------------------------------------------- the order of each collection

  function ZoneKey(z: ObservedZone): seq<int> {
    [z.player, ZoneCode(z.kind), z.totalCount, z.publicIdentityCount, z.hiddenCount,
     if z.playerObservableOrder then 1 else 0]
  }

  function CounterKey(c: Counter): seq<int> {
    [c.typ, c.count]
  }

  ghost predicate ZonesAscend(zs: seq<ObservedZone>) {
    forall i, j :: 0 <= i < j < |zs| ==> !Before(ZoneKey(zs[j]), ZoneKey(zs[i]))
  }

  ghost predicate PropertiesAscend(p: CardProperties) {
    && (forall i, j :: 0 <= i < j < |p.linkMarkers| ==> MarkerCode(p.linkMarkers[i]) <= MarkerCode(p.linkMarkers[j]))
    && (forall i, j :: 0 <= i < j < |p.counters| ==> !Before(CounterKey(p.counters[j]), CounterKey(p.counters[i])))
  }

  ghost predicate CardAscends(c: ObservedCard) {
    (c.printed.Some? ==> PropertiesAscend(c.printed.value)) && (c.current.Some? ==> PropertiesAscend(c.current.value))
  }

  /** By kind, then by source, then by target. */
  ghost predicate RelationshipBefore(a: Relationship, b: Relationship) {
    || RelationshipCode(a.kind) < RelationshipCode(b.kind)
    || (a.kind == b.kind && Before(a.source, b.source))
    || (a.kind == b.kind && a.source == b.source && Before(a.target, b.target))
  }

  ghost predicate TargetsAscend(ts: seq<Bytes>) {
    forall i, j :: 0 <= i < j < |ts| ==> !Before(ts[j], ts[i])
  }

  predicate DeckAscends(d: Deck) {
    && (forall i, j :: 0 <= i < j < |d.mainDeck| ==> d.mainDeck[i] <= d.mainDeck[j])
    && (forall i, j :: 0 <= i < j < |d.extraDeck| ==> d.extraDeck[i] <= d.extraDeck[j])
  }

  /** Entities by locator and events by index, strictly; everything else may repeat. */
  ghost predicate InCanonicalOrder(v: View) {
    && ZonesAscend(v.zones)
    && (forall i, j :: 0 <= i < j < |v.entities| ==> Before(v.entities[i].locator, v.entities[j].locator))
    && (forall i :: 0 <= i < |v.entities| ==> CardAscends(v.entities[i]))
    && (forall i, j :: 0 <= i < j < |v.relationships| ==> !RelationshipBefore(v.relationships[j], v.relationships[i]))
    && (forall i :: 0 <= i < |v.chain.links| ==> TargetsAscend(v.chain.links[i].targets))
    && (forall i, j :: 0 <= i < j < |v.visibleEvents| ==>
          v.visibleEvents[i].eventIndex < v.visibleEvents[j].eventIndex)
    && (forall i :: 0 <= i < |v.visibleEvents| ==> TargetsAscend(v.visibleEvents[i].targets))
    && DeckAscends(v.matchContext.ownDeck) && DeckAscends(v.matchContext.opponentDeck)
  }

  // ---------------------------------------------------------------- comparators and first differences

  lemma {:induction false} PairOrdered<T(!new)>(rel: (T, T) -> bool, xs: seq<T>, i: nat, j: nat)
    requires forall x, y, z :: rel(x, y) && rel(y, z) ==> rel(x, z)
    requires Ordered(rel, xs) && i < j < |xs|
    ensures rel(xs[i], xs[j])
  {
    if i < j - 1 {
      PairOrdered(rel, xs, i, j - 1);
      assert rel(xs[j - 1], xs[j]);
    }
  }

  /** Under a transitive relation, neighbours in order mean every pair in order. */
  lemma PairsOrdered<T(!new)>(rel: (T, T) -> bool, xs: seq<T>)
    requires forall x, y, z :: rel(x, y) && rel(y, z) ==> rel(x, z)
    ensures Ordered(rel, xs) <==> forall i, j :: 0 <= i < j < |xs| ==> rel(xs[i], xs[j])
  {
    if Ordered(rel, xs) {
      forall i, j | 0 <= i < j < |xs| ensures rel(xs[i], xs[j]) {
        PairOrdered(rel, xs, i, j);
      }
    }
  }

  lemma ZoneLeIsKeyOrder(a: ObservedZone, b: ObservedZone)
    ensures ZoneLe(a, b) <==> !Before(ZoneKey(b), ZoneKey(a))
  {
    ZoneCodesDiffer();
    hide ZoneCode;
    var x, y := ZoneKey(b), ZoneKey(a);
    BeforeStep(x, y);
    BeforeStep(x[1..], y[1..]);
    BeforeStep(x[2..], y[2..]);
    BeforeStep(x[3..], y[3..]);
    BeforeStep(x[4..], y[4..]);
    BeforeStep(x[5..], y[5..]);
    hide Before;
    assert x[1..][1..] == x[2..] && x[2..][1..] == x[3..] && x[3..][1..] == x[4..] && x[4..][1..] == x[5..];
    assert y[1..][1..] == y[2..] && y[2..][1..] == y[3..] && y[3..][1..] == y[4..] && y[4..][1..] == y[5..];
    NothingBefore(x[5..][1..], y[5..][1..]);
  }

  lemma NothingBefore(a: seq<int>, b: seq<int>)
    requires b == []
    ensures !Before(a, b)
  {
  }

  lemma CounterLeIsKeyOrder(a: Counter, b: Counter)
    ensures CounterLe(a, b) <==> !Before(CounterKey(b), CounterKey(a))
  {
    var x, y := CounterKey(b), CounterKey(a);
    BeforeStep(x, y);
    BeforeStep(x[1..], y[1..]);
    NothingBefore(x[1..][1..], y[1..][1..]);
    hide Before;
  }

  lemma RelationshipLeIsBefore(a: Relationship, b: Relationship)
    ensures RelationshipLe(a, b) <==> !RelationshipBefore(b, a)
  {
    LexLessIsBefore(a.source, b.source);
    LexLessIsBefore(b.source, a.source);
    LexLessIsBefore(b.target, a.target);
    LexTotal(a.source, b.source);
    LexIrreflexive(a.source);
    LexOrder();
    hide LexLess, Before;
    if RelationshipCode(a.kind) == RelationshipCode(b.kind) {
      assert KINDS[RelationshipCode(a.kind)] == a.kind && KINDS[RelationshipCode(b.kind)] == b.kind;
    }
  }

  lemma ZonesInOrder(zs: seq<ObservedZone>)
    ensures Ordered(ZoneLe, zs) <==> ZonesAscend(zs)
  {
    ZoneOrder();
    PairsOrdered(ZoneLe, zs);
    forall a, b ensures ZoneLe(a, b) <==> !Before(ZoneKey(b), ZoneKey(a)) {
      ZoneLeIsKeyOrder(a, b);
    }
    hide ZoneLe, Before, ZoneKey;
  }

  lemma PropertiesInOrder(p: CardProperties)
    ensures PropertiesOk(p) <==>
      |p.linkMarkers| <= U32_MAX && |p.counters| <= U32_MAX && PropertiesAscend(p)
  {
    NumberOrders();
    PairsOrdered(MarkerLe, p.linkMarkers);
    PairsOrdered(CounterLe, p.counters);
    forall a, b ensures CounterLe(a, b) <==> !Before(CounterKey(b), CounterKey(a)) {
      CounterLeIsKeyOrder(a, b);
    }
    hide CounterLe, Before, CounterKey;
  }

  lemma CardInOrder(utf8: bool, c: ObservedCard)
    ensures CardOk(utf8, c) <==> CardMeets(Demand(utf8, true), c) && CardAscends(c)
  {
    if c.printed.Some? {
      PropertiesInOrder(c.printed.value);
    }
    if c.current.Some? {
      PropertiesInOrder(c.current.value);
    }
    hide PropertiesOk, PropertiesAscend, IsLocator, Utf8Octets;
  }

  lemma CardsInOrder(utf8: bool, cs: seq<ObservedCard>)
    ensures ListOk(CardRule(utf8), EntityLess, cs) <==>
      && |cs| <= U32_MAX && (forall i :: 0 <= i < |cs| ==> CardMeets(Demand(utf8, true), cs[i]))
      && (forall i, j :: 0 <= i < j < |cs| ==> Before(cs[i].locator, cs[j].locator))
      && (forall i :: 0 <= i < |cs| ==> CardAscends(cs[i]))
  {
    forall c ensures CardOk(utf8, c) <==> CardMeets(Demand(utf8, true), c) && CardAscends(c) {
      CardInOrder(utf8, c);
    }
    hide CardOk, CardMeets, CardAscends;
    LexOrder();
    hide LexLess;
    PairsOrdered(EntityLess, cs);
    forall a: ObservedCard, b: ObservedCard
      ensures EntityLess(a, b) <==> Before(a.locator, b.locator)
    {
      LexLessIsBefore(a.locator, b.locator);
    }
    hide Before, EntityLess, Ordered;
    assert AllOk(CardRule(utf8), cs) <==> forall i :: 0 <= i < |cs| ==> CardOk(utf8, cs[i]);
  }

  /** Strictly ascending locators do not repeat. */
  lemma AscendingIsUnique(v: View)
    requires InCanonicalOrder(v)
    ensures UniqueLocators(v.entities) && UniqueIndices(v.visibleEvents)
  {
    hide ZonesAscend, CardAscends, RelationshipBefore, TargetsAscend, DeckAscends;
    forall i, j | 0 <= i < j < |v.entities| ensures v.entities[i].locator != v.entities[j].locator {
      LexLessIsBefore(v.entities[i].locator, v.entities[j].locator);
      LexIrreflexive(v.entities[i].locator);
    }
  }

  lemma RelationshipsInOrder(utf8: bool, rs: seq<Relationship>)
    ensures ListOk(RelationshipRule(utf8), RelationshipLe, rs) <==>
      var d := Demand(utf8, true);
      && |rs| <= U32_MAX
      && (forall i :: 0 <= i < |rs| ==> LocatorMeets(d, rs[i].source) && LocatorMeets(d, rs[i].target))
      && (forall i, j :: 0 <= i < j < |rs| ==> !RelationshipBefore(rs[j], rs[i]))
  {
    RelationshipOrder();
    PairsOrdered(RelationshipLe, rs);
    forall a, b ensures RelationshipLe(a, b) <==> !RelationshipBefore(b, a) {
      RelationshipLeIsBefore(a, b);
    }
    hide RelationshipLe, RelationshipBefore, IsLocator, Utf8Octets, Ordered;
    assert AllOk(RelationshipRule(utf8), rs) <==> forall i :: 0 <= i < |rs| ==> RelationshipOk(utf8, rs[i]);
  }

  lemma TargetsInOrder(utf8: bool, ts: seq<Bytes>)
    ensures TargetsOk(utf8, ts) <==> TargetsMeet(Demand(utf8, true), ts) && TargetsAscend(ts)
  {
    LocatorOrders();
    PairsOrdered(LexLe, ts);
    forall a: Bytes, b: Bytes ensures LexLess(a, b) <==> Before(a, b) {
      LexLessIsBefore(a, b);
    }
    hide LexLess, Before, IsLocator, Utf8Octets, Ordered;
    assert AllOk(LocatorRule(utf8), ts) <==> forall i :: 0 <= i < |ts| ==> LocatorOk(utf8, ts[i]);
  }

  lemma LinksInOrder(utf8: bool, ls: seq<ChainLink>)
    ensures ListOk(LinkRule(utf8), AnyLinks, ls) <==>
      && |ls| <= U32_MAX && (forall i :: 0 <= i < |ls| ==> LinkMeets(Demand(utf8, true), ls[i]))
      && (forall i :: 0 <= i < |ls| ==> TargetsAscend(ls[i].targets))
  {
    forall l: ChainLink ensures LinkOk(utf8, l) <==> LinkMeets(Demand(utf8, true), l) && TargetsAscend(l.targets) {
      TargetsInOrder(utf8, l.targets);
      hide TargetsOk, TargetsMeet, TargetsAscend, IsLocator, Utf8Octets;
    }
    hide LinkOk, LinkMeets, TargetsAscend;
    assert AllOk(LinkRule(utf8), ls) <==> forall i :: 0 <= i < |ls| ==> LinkOk(utf8, ls[i]);
  }

  lemma EventsInOrder(utf8: bool, es: seq<VisibleEvent>)
    ensures ListOk(EventRule(utf8), EventLess, es) <==>
      && |es| <= U32_MAX && (forall i :: 0 <= i < |es| ==> EventMeets(Demand(utf8, true), es[i]))
      && (forall i, j :: 0 <= i < j < |es| ==> es[i].eventIndex < es[j].eventIndex)
      && (forall i :: 0 <= i < |es| ==> TargetsAscend(es[i].targets))
  {
    forall e: VisibleEvent ensures EventOk(utf8, e) <==> EventMeets(Demand(utf8, true), e) && TargetsAscend(e.targets) {
      TargetsInOrder(utf8, e.targets);
      hide TargetsOk, TargetsMeet, TargetsAscend, IsLocator, Utf8Octets;
    }
    hide EventOk, EventMeets, TargetsAscend;
    PairsOrdered(EventLess, es);
    hide Ordered;
    assert AllOk(EventRule(utf8), es) <==> forall i :: 0 <= i < |es| ==> EventOk(utf8, es[i]);
  }

  lemma DeckInOrder(utf8: bool, d: Deck)
    ensures DeckOk(d) <==> DeckMeets(Demand(utf8, true), d) && DeckAscends(d)
  {
    NumberOrders();
    PairsOrdered(CodeLe, d.mainDeck);
    PairsOrdered(CodeLe, d.extraDeck);
  }

  // ---------------------------------------------------------------- main results

  /** A state has a canonical encoding as it stands exactly when it meets the demand on any
      encodable state and is in canonical order. */
  lemma CanonicalIffInOrder(utf8: bool, v: View)
    ensures ViewOk(utf8, v) <==> ViewMeets(Demand(utf8, true), v) && InCanonicalOrder(v)
  {
    ZonesInOrder(v.zones);
    CardsInOrder(utf8, v.entities);
    RelationshipsInOrder(utf8, v.relationships);
    LinksInOrder(utf8, v.chain.links);
    EventsInOrder(utf8, v.visibleEvents);
    DeckInOrder(utf8, v.matchContext.ownDeck);
    DeckInOrder(utf8, v.matchContext.opponentDeck);
    hide ZonesAscend, CardAscends, RelationshipBefore, TargetsAscend, DeckAscends, CardMeets, LinkMeets, EventMeets,
      LocatorMeets, DeckMeets, DeckOk, Before, UniqueLocators, UniqueIndices;
    if InCanonicalOrder(v) {
      AscendingIsUnique(v);
    }
  }

  /** So the parser accepts exactly the layouts of states in this order, and a byte string is
      the layout of at most one. */
  lemma DecodeIffInOrder(b: Bytes, v: View)
    ensures Decode(b) == Some(v) <==>
      ViewMeets(Demand(true, true), v) && InCanonicalOrder(v) && b == PutView(v, [])
  {
    hide Decode, ViewOk, ViewMeets, InCanonicalOrder, PutView;
    DecodeIffCanonical(b, v);
    CanonicalIffInOrder(true, v);
  }

  /** The normal form of an encodable state is the one state in canonical order that has its
      content. */
  lemma NormalFormIsOrderedContent(v: View, w: View)
    requires ViewMeets(Demand(false, true), v)
    ensures w == Normalize(v) <==> ViewMeets(Demand(false, true), w) && InCanonicalOrder(w) && SameContent(v, w)
  {
    hide ViewOk, ViewMeets, InCanonicalOrder, PutView, Normalize, SameContent;
    var n := Normalize(v);
    NormalizeAdmitted(false, v);
    NormalView(false, n);
    NormalizeAdmitted(false, n);
    CanonicalIffInOrder(false, n);
    SameBytesIffSameContent(v, n);
    if ViewMeets(Demand(false, true), w) && InCanonicalOrder(w) && SameContent(v, w) {
      CanonicalIffInOrder(false, w);
      NormalView(false, w);
      SameBytesIffSameContent(v, w);
      SameBytesIffSameNormalForm(v, w);
    }
  }

  /** What an observation shows, field by field: a state with its globals, zones, entities,
      relationships, chain, events and match context, in whatever order. */
  ghost predicate Shows(v: View, o: PlayerObservation) {
    && v.globals == o.globals && multiset(v.zones) == multiset(o.zones) && Matched(SameCard, v.entities, o.entities)
    && multiset(v.relationships) == multiset(o.relationships)
    && v.chain.length == o.chain.length && |v.chain.links| == |o.chain.links|
    && (forall i :: 0 <= i < |v.chain.links| ==> SameLink(v.chain.links[i], o.chain.links[i]))
    && Matched(SameEvent, v.visibleEvents, Map(PublicEvent, o.visibleEvents))
    && v.matchContext.perspectivePlayer == o.matchContext.perspectivePlayer
    && v.matchContext.duelFlags == o.matchContext.duelFlags
    && v.matchContext.ownDecklistKnown == o.matchContext.ownDecklistKnown
    && v.matchContext.opponentDecklistKnown == o.matchContext.opponentDecklistKnown
    && SameDeck(v.matchContext.ownDeck, o.matchContext.ownDeck)
    && SameDeck(v.matchContext.opponentDeck, o.matchContext.opponentDeck)
  }

  /** The canonical bytes of an observation are the layout of the one state in canonical order
      that shows what it shows. */
  lemma BytesAreOrderedContent(o: PlayerObservation, v: View)
    requires CanonicalBytes(o).Bytes?
    requires ViewMeets(Demand(false, true), v) && InCanonicalOrder(v) && Shows(v, o)
    ensures CanonicalBytes(o) == Encoded.Bytes(PutView(v, []))
  {
    hide ViewMeets, InCanonicalOrder, PutView, Normalize, Matched, SameCard, SameEvent, SameLink;
    ShownContent(o, v);
    NormalFormIsOrderedContent(StateOf(o), v);
  }

  /** Whatever decodes from them is that state. */
  lemma DecodedShowsObservation(o: PlayerObservation)
    requires CanonicalBytes(o).Bytes? && Decode(CanonicalBytes(o).bytes).Some?
    ensures var v := Decode(CanonicalBytes(o).bytes).value; InCanonicalOrder(v) && Shows(v, o)
  {
    hide ViewMeets, InCanonicalOrder, PutView, Normalize, Decode, Encode, Shows;
    ObservationRoundTrip(o);
    NormalFormIsOrderedContent(StateOf(o), Normalize(StateOf(o)));
    ShownContent(o, Normalize(StateOf(o)));
  }

  lemma ShownContent(o: PlayerObservation, v: View)
    ensures Shows(v, o) <==> SameContent(StateOf(o), v)
  {
    MatchedTurns(SameCard, v.entities, o.entities);
    MatchedTurns(SameEvent, v.visibleEvents, Map(PublicEvent, o.visibleEvents));
    assert forall l, m :: SameLink(l, m) <==> SameLink(m, l);
    hide SameCard, SameEvent, SameLink, Matched;
  }

  lemma MatchedTurns<T(!new)>(same: (T, T) -> bool, xs: seq<T>, ys: seq<T>)
    requires forall x, y :: same(x, y) <==> same(y, x)
    ensures Matched(same, xs, ys) <==> Matched(same, ys, xs)
  {
  }
}
