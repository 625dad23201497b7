/** When two states differ only in the order of their unordered collections. */
module SafeStateContent {
  import opened Bytes
  import opened Text
  import opened Sorting
  import opened SafeState
  import opened SafeStateNormal
  import opened SafeStateCodec

  predicate SameProperties(p: CardProperties, q: CardProperties) {
    && p.(linkMarkers := [], counters := []) == q.(linkMarkers := [], counters := [])
    && multiset(p.linkMarkers) == multiset(q.linkMarkers) && multiset(p.counters) == multiset(q.counters)
  }

  predicate SameOptProperties(p: Option<CardProperties>, q: Option<CardProperties>) {
    p.Some? == q.Some? && (p.Some? ==> SameProperties(p.value, q.value))
  }

  predicate SameCard(c: ObservedCard, d: ObservedCard) {
    && c.(printed := None, current := None) == d.(printed := None, current := None)
    && SameOptProperties(c.printed, d.printed) && SameOptProperties(c.current, d.current)
  }

  predicate SameLink(l: ChainLink, m: ChainLink) {
    l.(targets := []) == m.(targets := []) && multiset(l.targets) == multiset(m.targets)
  }

  predicate SameEvent(e: VisibleEvent, f: VisibleEvent) {
    e.(targets := []) == f.(targets := []) && multiset(e.targets) == multiset(f.targets)
  }

  predicate SameDeck(d: Deck, e: Deck) {
    d.known == e.known && multiset(d.mainDeck) == multiset(e.mainDeck) && multiset(d.extraDeck) == multiset(e.extraDeck)
  }

  /** Every element of `xs` has a counterpart in `ys`. */
  ghost predicate Covered<T>(same: (T, T) -> bool, xs: seq<T>, ys: seq<T>) {
    forall i :: 0 <= i < |xs| ==> exists j :: 0 <= j < |ys| && same(xs[i], ys[j])
  }

  ghost predicate Matched<T>(same: (T, T) -> bool, xs: seq<T>, ys: seq<T>) {
    Covered(same, xs, ys) && Covered(same, ys, xs)
  }

  ghost predicate SameContent(v: View, w: View) {
    && v.globals == w.globals
    && multiset(v.zones) == multiset(w.zones)
    && Matched(SameCard, v.entities, w.entities)
    && multiset(v.relationships) == multiset(w.relationships)
    && v.chain.length == w.chain.length && |v.chain.links| == |w.chain.links|
    && (forall i :: 0 <= i < |v.chain.links| ==> SameLink(v.chain.links[i], w.chain.links[i]))
    && Matched(SameEvent, v.visibleEvents, w.visibleEvents)
    && v.matchContext.(ownDeck := Deck(true, [], []), opponentDeck := Deck(true, [], []))
         == w.matchContext.(ownDeck := Deck(true, [], []), opponentDeck := Deck(true, [], []))
    && SameDeck(v.matchContext.ownDeck, w.matchContext.ownDeck)
    && SameDeck(v.matchContext.opponentDeck, w.matchContext.opponentDeck)
  }

  // ---------------------------------------------------------------- element by element

  lemma PropertiesAgree(p: CardProperties, q: CardProperties)
    ensures NormProperties(p) == NormProperties(q) <==> SameProperties(p, q)
  {
    NumberOrders();
    FieldsDoNotTie(p.linkMarkers, p.counters, []);
    SortsAgree(MarkerLe, p.linkMarkers, q.linkMarkers);
    SortsAgree(CounterLe, p.counters, q.counters);
    hide Sort, TotalPreorder, NoTies;
  }

  lemma OptPropertiesAgree(p: Option<CardProperties>, q: Option<CardProperties>)
    ensures MapOpt(NormProperties, p) == MapOpt(NormProperties, q) <==> SameOptProperties(p, q)
  {
    if p.Some? && q.Some? {
      PropertiesAgree(p.value, q.value);
    }
    hide NormProperties, SameProperties;
  }

  lemma CardsAgree(c: ObservedCard, d: ObservedCard)
    ensures NormCard(c) == NormCard(d) <==> SameCard(c, d)
  {
    OptPropertiesAgree(c.printed, d.printed);
    OptPropertiesAgree(c.current, d.current);
    hide MapOpt, SameOptProperties;
    var f, g := c.(printed := None, current := None), d.(printed := None, current := None);
    var np, nq := NormCard(c).printed, NormCard(c).current;
    assert NormCard(c) == f.(printed := np, current := nq);
    assert NormCard(d) == g.(printed := NormCard(d).printed, current := NormCard(d).current);
  }

  lemma TargetsAgree(ts: seq<Bytes>, us: seq<Bytes>)
    ensures Sort(LexLe, ts) == Sort(LexLe, us) <==> multiset(ts) == multiset(us)
  {
    LocatorOrders();
    LocatorsDoNotTie(ts);
    SortsAgree(LexLe, ts, us);
  }

  lemma DecksAgree(d: Deck, e: Deck)
    ensures NormDeck(d) == NormDeck(e) <==> SameDeck(d, e)
  {
    NumberOrders();
    FieldsDoNotTie([], [], d.mainDeck);
    FieldsDoNotTie([], [], d.extraDeck);
    SortsAgree(CodeLe, d.mainDeck, e.mainDeck);
    SortsAgree(CodeLe, d.extraDeck, e.extraDeck);
    hide Sort, TotalPreorder, NoTies;
  }

  // ---------------------------------------------------------------- keyed collections

  lemma MapMember<T>(norm: T -> T, xs: seq<T>, z: T)
    ensures z in Map(norm, xs) <==> exists i :: 0 <= i < |xs| && norm(xs[i]) == z
  {
    if i :| 0 <= i < |xs| && norm(xs[i]) == z {
      assert Map(norm, xs)[i] == z;
    }
  }

  lemma CoveredImages<T(!new)>(same: (T, T) -> bool, norm: T -> T, xs: seq<T>, ys: seq<T>)
    requires forall x, y :: norm(x) == norm(y) <==> same(x, y)
    ensures Covered(same, xs, ys) <==> forall z :: z in Map(norm, xs) ==> z in Map(norm, ys)
  {
    if Covered(same, xs, ys) {
      forall z | z in Map(norm, xs) ensures z in Map(norm, ys) {
        MapMember(norm, xs, z);
        var i :| 0 <= i < |xs| && norm(xs[i]) == z;
        var j :| 0 <= j < |ys| && same(xs[i], ys[j]);
        MapMember(norm, ys, z);
      }
    }
    if forall z :: z in Map(norm, xs) ==> z in Map(norm, ys) {
      forall i | 0 <= i < |xs| ensures exists j :: 0 <= j < |ys| && same(xs[i], ys[j]) {
        MapMember(norm, xs, norm(xs[i]));
        MapMember(norm, ys, norm(xs[i]));
        var j :| 0 <= j < |ys| && norm(ys[j]) == norm(xs[i]);
        assert same(xs[i], ys[j]);
      }
    }
  }

  /** Permuted lists match exactly when they have the same normal forms among them. */
  lemma ImagesMatch<T(!new)>(same: (T, T) -> bool, norm: T -> T, xs: seq<T>, sx: seq<T>, ys: seq<T>, sy: seq<T>)
    requires forall x, y :: norm(x) == norm(y) <==> same(x, y)
    requires multiset(xs) == multiset(sx) && multiset(ys) == multiset(sy)
    ensures Matched(same, xs, ys) <==> forall z :: z in Map(norm, sx) <==> z in Map(norm, sy)
  {
    CoveredImages(same, norm, xs, ys);
    CoveredImages(same, norm, ys, xs);
    MapPermuted(norm, xs, sx);
    MapPermuted(norm, ys, sy);
    SameElements(Map(norm, xs), Map(norm, sx));
    SameElements(Map(norm, ys), Map(norm, sy));
    hide Covered, Map;
  }

  lemma EntitiesAgree(cs: seq<ObservedCard>, ds: seq<ObservedCard>)
    requires UniqueLocators(cs) && UniqueLocators(ds)
    ensures Map(NormCard, Sort(EntityLe, cs)) == Map(NormCard, Sort(EntityLe, ds)) <==> Matched(SameCard, cs, ds)
  {
    StrictIffUniqueLocators(cs);
    StrictIffUniqueLocators(ds);
    var sc, sd := Sort(EntityLe, cs), Sort(EntityLe, ds);
    forall c, d ensures NormCard(c) == NormCard(d) <==> SameCard(c, d) { CardsAgree(c, d); }
    hide NormCard, SameCard, Matched, Sort;
    ImagesMatch(SameCard, NormCard, cs, sc, ds, sd);
    if Matched(SameCard, cs, ds) {
      LexOrder();
      hide LexLess;
      StrictIsUnique(EntityLess, Map(NormCard, sc), Map(NormCard, sd));
    }
  }

  lemma EventsAgree(es: seq<VisibleEvent>, fs: seq<VisibleEvent>)
    requires UniqueIndices(es) && UniqueIndices(fs)
    ensures Map(NormEvent, Sort(EventLe, es)) == Map(NormEvent, Sort(EventLe, fs)) <==> Matched(SameEvent, es, fs)
  {
    StrictIffUniqueIndices(es);
    StrictIffUniqueIndices(fs);
    var se, sf := Sort(EventLe, es), Sort(EventLe, fs);
    forall e, f ensures NormEvent(e) == NormEvent(f) <==> SameEvent(e, f) { TargetsAgree(e.targets, f.targets); }
    hide NormEvent, SameEvent, Matched, Sort;
    ImagesMatch(SameEvent, NormEvent, es, se, fs, sf);
    if Matched(SameEvent, es, fs) {
      StrictIsUnique(EventLess, Map(NormEvent, se), Map(NormEvent, sf));
    }
  }

  lemma LinksAgree(ls: seq<ChainLink>, ms: seq<ChainLink>)
    ensures Map(NormLink, ls) == Map(NormLink, ms) <==>
      |ls| == |ms| && forall i :: 0 <= i < |ls| ==> SameLink(ls[i], ms[i])
  {
    forall l, m ensures NormLink(l) == NormLink(m) <==> SameLink(l, m) { TargetsAgree(l.targets, m.targets); }
    hide NormLink, SameLink;
    if Map(NormLink, ls) == Map(NormLink, ms) {
      assert |ls| == |ms|;
      forall i | 0 <= i < |ls| ensures SameLink(ls[i], ms[i]) {
        assert Map(NormLink, ls)[i] == Map(NormLink, ms)[i];
      }
    }
  }

  lemma AdmittedIsUnique(v: View)
    requires ViewMeets(Demand(false, true), v)
    ensures UniqueLocators(v.entities) && UniqueIndices(v.visibleEvents)
  {
    hide CardMeets, LinkMeets, EventMeets, LocatorMeets, DeckMeets, UniqueLocators, UniqueIndices;
  }

  // ---------------------------------------------------------------- main result

  /** Two encodable states have equal canonical bytes exactly when they have the same content
      up to the order of zones, entities, relationships, targets, events, decks, link markers
      and counters. The order of life points and of chain links is content. */
  lemma SameBytesIffSameContent(v: View, w: View)
    requires ViewMeets(Demand(false, true), v) && ViewMeets(Demand(false, true), w)
    ensures Encode(v) == Encode(w) <==> SameContent(v, w)
  {
    hide Encode, ViewMeets, Matched, SameCard, SameEvent, SameDeck, SameLink, NormCard, NormEvent, NormDeck,
      NormLink, Sort, UniqueLocators, UniqueIndices;
    AdmittedIsUnique(v);
    AdmittedIsUnique(w);
    SameBytesIffSameNormalForm(v, w);
    ZoneOrder();
    ZonesDoNotTie(v.zones);
    SortsAgree(ZoneLe, v.zones, w.zones);
    RelationshipOrder();
    RelationshipsDoNotTie(v.relationships);
    SortsAgree(RelationshipLe, v.relationships, w.relationships);
    EntitiesAgree(v.entities, w.entities);
    EventsAgree(v.visibleEvents, w.visibleEvents);
    LinksAgree(v.chain.links, w.chain.links);
    DecksAgree(v.matchContext.ownDeck, w.matchContext.ownDeck);
    DecksAgree(v.matchContext.opponentDeck, w.matchContext.opponentDeck);
  }
}
