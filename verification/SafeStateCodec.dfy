/** The canonical safe-state codec as a whole: what is accepted, what comes back, and when
    two states have the same bytes. */
module SafeStateCodec {
  import opened Bytes
  import opened Text
  import opened Sorting
  import opened SafeState
  import opened SafeStateLaws
  import opened SafeStateNormal

  /** The canonical bytes of a state. */
  function Encode(v: View): Bytes {
    PutView(Normalize(v), [])
  }

  /** The decoder's parser alone: no comparison with a re-encoding. */
  function Decode(b: Bytes): Option<View> {
    match GetView(true, b)
    case None => None
    case Some((v, k)) => if k == [] then Some(v) else None
  }

  // ---------------------------------------------------------------- states that are already normal

  lemma NormalProperties(p: CardProperties)
    requires PropertiesOk(p)
    ensures NormProperties(p) == p
  {
    NumberOrders();
    FieldsDoNotTie(p.linkMarkers, p.counters, []);
    SortOfSorted(MarkerLe, p.linkMarkers);
    SortOfSorted(CounterLe, p.counters);
  }

  lemma NormalCard(utf8: bool, c: ObservedCard)
    requires CardOk(utf8, c)
    ensures NormCard(c) == c
  {
    if c.printed.Some? {
      NormalProperties(c.printed.value);
    }
    if c.current.Some? {
      NormalProperties(c.current.value);
    }
    hide NormProperties, PropertiesOk;
  }

  lemma NormalTargets(utf8: bool, ts: seq<Bytes>)
    requires TargetsOk(utf8, ts)
    ensures Sort(LexLe, ts) == ts
  {
    LocatorOrders();
    LocatorsDoNotTie(ts);
    SortOfSorted(LexLe, ts);
  }

  lemma NormalDeck(k: Deck)
    requires DeckOk(k)
    ensures NormDeck(k) == k
  {
    NumberOrders();
    FieldsDoNotTie([], [], k.mainDeck);
    FieldsDoNotTie([], [], k.extraDeck);
    SortOfSorted(CodeLe, k.mainDeck);
    SortOfSorted(CodeLe, k.extraDeck);
  }

  lemma NormalCards(utf8: bool, cs: seq<ObservedCard>)
    requires ListOk(CardRule(utf8), EntityLess, cs)
    ensures Map(NormCard, Sort(EntityLe, cs)) == cs
  {
    LocatorOrders();
    assert Ordered(EntityLe, cs) by { LexOrder(); hide LexLess; }
    assert NoTies(EntityLe, cs) by {
      SortedLocators(cs);
      var keys: seq<Bytes> := Map(LocatorOf, cs);
      forall i, j | 0 <= i < |cs| && 0 <= j < |cs| && EntityLe(cs[i], cs[j]) && EntityLe(cs[j], cs[i])
        ensures cs[i] == cs[j]
      {
        LexTotal(cs[i].locator, cs[j].locator);
        assert keys[i] == keys[j];
      }
    }
    SortOfSorted(EntityLe, cs);
    forall i | 0 <= i < |cs| ensures NormCard(cs[i]) == cs[i] {
      NormalCard(utf8, cs[i]);
    }
    hide NormCard, Sort, EntityLe;
  }

  lemma NormalEvents(utf8: bool, es: seq<VisibleEvent>)
    requires ListOk(EventRule(utf8), EventLess, es)
    ensures Map(NormEvent, Sort(EventLe, es)) == es
  {
    NumberOrders();
    assert NoTies(EventLe, es) by {
      SortedIndices(es);
      var keys: seq<int> := Map(IndexOf, es);
      forall i, j | 0 <= i < |es| && 0 <= j < |es| && EventLe(es[i], es[j]) && EventLe(es[j], es[i])
        ensures es[i] == es[j]
      {
        assert keys[i] == keys[j];
      }
    }
    SortOfSorted(EventLe, es);
    forall i | 0 <= i < |es| ensures NormEvent(es[i]) == es[i] {
      NormalTargets(utf8, es[i].targets);
    }
    hide Sort;
  }

  /** A state in canonical order is its own normal form. */
  lemma NormalView(utf8: bool, v: View)
    requires ViewOk(utf8, v)
    ensures Normalize(v) == v
  {
    ZoneOrder();
    ZonesDoNotTie(v.zones);
    SortOfSorted(ZoneLe, v.zones);
    RelationshipOrder();
    RelationshipsDoNotTie(v.relationships);
    SortOfSorted(RelationshipLe, v.relationships);
    NormalCards(utf8, v.entities);
    NormalEvents(utf8, v.visibleEvents);
    NormalDeck(v.matchContext.ownDeck);
    NormalDeck(v.matchContext.opponentDeck);
    assert Map(NormLink, v.chain.links) == v.chain.links by {
      forall i | 0 <= i < |v.chain.links| ensures NormLink(v.chain.links[i]) == v.chain.links[i] {
        NormalTargets(utf8, v.chain.links[i].targets);
      }
      hide Sort;
    }
    hide Sort, NormDeck, NormEvent, NormCard, NormLink;
  }

  // ---------------------------------------------------------------- main results

  /** The parser accepts exactly the layouts of canonical states, and a byte string is the
      layout of at most one. */
  lemma DecodeIffCanonical(b: Bytes, v: View)
    ensures Decode(b) == Some(v) <==> ViewOk(true, v) && b == PutView(v, [])
  {
    if Decode(b) == Some(v) {
      ViewSound(true, b);
    }
    if ViewOk(true, v) && b == PutView(v, []) {
      ViewComplete(true, v, []);
    }
  }

  /** Comparing the input with a re-encoding can never fail after the parser succeeds. */
  lemma ReencodeIsIdentity(b: Bytes)
    requires Decode(b).Some?
    ensures Encode(Decode(b).value) == b
  {
    DecodeIffCanonical(b, Decode(b).value);
    NormalView(true, Decode(b).value);
  }

  /** Every encodable state comes back as its normal form; it comes back at all exactly when
      its locators are UTF-8, which validation does not ask for. */
  lemma DecodeOfEncode(v: View)
    requires ViewMeets(Demand(false, true), v)
    ensures ViewMeets(Demand(true, true), v) ==> Decode(Encode(v)) == Some(Normalize(v))
    ensures !ViewMeets(Demand(true, true), v) ==> Decode(Encode(v)) == None
  {
    NormalizeAdmitted(false, v);
    NormalizeAdmitted(true, v);
    if Decode(Encode(v)).Some? {
      var w := Decode(Encode(v)).value;
      DecodeIffCanonical(Encode(v), w);
      WeakerText(w);
      ViewComplete(false, w, []);
      ViewComplete(false, Normalize(v), []);
    }
    if ViewMeets(Demand(true, true), v) {
      DecodeIffCanonical(Encode(v), Normalize(v));
    }
    hide ViewOk, ViewMeets, PutView, GetView, Normalize;
  }

  /** A state with nothing in it. */
  const QUIET := View(
    Globals(0, [], None, None, None, None, 0, None, None, false), [], [], [], ChainState(0, []), [],
    MatchContext(0, 0, false, false, Deck(false, [], []), Deck(false, [], [])))

  lemma QuietRoundTrip()
    ensures Decode(Encode(QUIET)) == Some(QUIET) && 0 < |Encode(QUIET)| <= 200
  {
    assert Normalize(QUIET) == QUIET;
    QuietLists();
    hide Decode, PutGlobals, QuietTail, Normalize;
    DecodeOfEncode(QUIET);
  }

  /** What follows the global part of that state: five empty lists and the context. */
  function QuietTail(): Bytes {
    PutList(PutZone, QUIET.zones, PutList(PutCard, QUIET.entities, PutList(PutRelationship, QUIET.relationships,
    PutChain(QUIET.chain, PutList(PutEvent, QUIET.visibleEvents, PutContext(QUIET.matchContext, []))))))
  }

  lemma QuietLists()
    ensures |QuietTail()| == 53 && |PutGlobals(QUIET.globals, QuietTail())| == 76
    ensures PutView(QUIET, []) == PutHeader(PutGlobals(QUIET.globals, QuietTail()))
  {
    QuietContext();
    hide PutContext;
    QuietGlobals(QuietTail());
    hide PutGlobals, PutHeader;
  }

  lemma QuietContext()
    ensures |PutContext(QUIET.matchContext, [])| == 29
  {
  }

  lemma QuietGlobals(k: Bytes)
    ensures |PutGlobals(QUIET.globals, k)| == 23 + |k|
  {
  }

  /** A state with one relationship whose source is no UTF-8. */
  const UNREADABLE := QUIET.(relationships := [Relationship(Equip, [0xFF], [0x20])])

  /** It can be encoded and does not come back. */
  lemma UnreadableIsLost()
    ensures ViewMeets(Demand(false, true), UNREADABLE) && !ViewMeets(Demand(true, true), UNREADABLE)
    ensures Decode(Encode(UNREADABLE)) == None
  {
    hide Decode, Encode;
    DecodeOfEncode(UNREADABLE);
  }

  lemma WeakerText(v: View)
    requires ViewOk(true, v)
    ensures ViewOk(false, v)
  {
    hide IsLocator, Utf8Octets, Ordered, PropertiesOk, GlobalsOk, ContextOk;
    forall i | 0 <= i < |v.entities| ensures CardOk(false, v.entities[i]) { assert CardRule(true)(v.entities[i]); }
    forall i | 0 <= i < |v.relationships| ensures RelationshipOk(false, v.relationships[i]) {
      assert RelationshipRule(true)(v.relationships[i]);
    }
    forall i | 0 <= i < |v.chain.links| ensures LinkOk(false, v.chain.links[i]) {
      assert LinkRule(true)(v.chain.links[i]);
    }
    forall i | 0 <= i < |v.visibleEvents| ensures EventOk(false, v.visibleEvents[i]) {
      assert EventRule(true)(v.visibleEvents[i]);
    }
  }

  /** Encoding forgets the order of the sorted collections. */
  lemma SameBytesIffSameNormalForm(v: View, w: View)
    requires ViewMeets(Demand(false, true), v) && ViewMeets(Demand(false, true), w)
    ensures Encode(v) == Encode(w) <==> Normalize(v) == Normalize(w)
  {
    NormalizeAdmitted(false, v);
    NormalizeAdmitted(false, w);
    ViewComplete(false, Normalize(v), []);
    ViewComplete(false, Normalize(w), []);
    hide ViewOk, ViewMeets, PutView, GetView, Normalize;
  }
}
