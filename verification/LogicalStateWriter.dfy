/** The second writer of the safe-state format: it writes a logical state, sorting every
    collection but a card's markers and counters, which it takes as they come. */
module LogicalStateWriter {
  import opened Bytes
  import opened Text
  import opened Sorting
  import opened Writers
  import opened SafeState
  import opened SafeStateNormal
  import opened SafeStateEncoder
  import opened EncodedState
  import opened LogicalInput

  // ---------------------------------------------------------------- the state without its table

  function CardOf(): LogicalEntity -> ObservedCard {
    (e: LogicalEntity) => e.card
  }

  function LocatedText(): Located -> Bytes {
    (p: Located) => p.value
  }

  function RefText(): Ref<Located> -> Bytes {
    (r: Ref<Located>) => r.locator.value
  }

  function PlainLink(l: LogicalLink): ChainLink {
    ChainLink(l.index, l.activatingPlayer, MapOption(RefText(), l.source), l.activationZone, l.effectDescription,
              Map(RefText(), l.targets))
  }

  function PlainEvent(e: LogicalEvent): VisibleEvent {
    VisibleEvent(e.eventIndex, e.kind, e.player, MapOption(LocatedText(), e.entity), e.publicPasscode, e.fromZone,
      e.toZone,
                 e.count, e.amount, e.counterType, e.phase, e.winner, e.winReason, e.effectDescription,
                 Map(LocatedText(), e.targets))
  }

  /** The public state a logical one describes. */
  function PlainState(s: LogicalState): View {
    View(s.globals, s.zones, Map(CardOf(), s.entities), Map(PlainRelationship, s.relationships),
         ChainState(s.chainLength, Map(PlainLink, s.links)), Map(PlainEvent, s.events), s.context)
  }

  /** What is written of a state: its collections in order, its cards untouched. */
  function Written(v: View): View {
    View(v.globals, Sort(ZoneLe, v.zones), Sort(EntityLe, v.entities), Sort(RelationshipLe, v.relationships),
         ChainState(v.chain.length, Map(NormLink, v.chain.links)), Map(NormEvent, Sort(EventLe, v.visibleEvents)),
         NormContext(v.matchContext))
  }

  // ---------------------------------------------------------------- when it can be written

  predicate CardShort(c: ObservedCard) {
    IsShort(c.locator)
  }

  predicate RelationshipShort(r: Relationship) {
    IsShort(r.source) && IsShort(r.target)
  }

  predicate LinkShort(l: ChainLink) {
    OptOk(IsShort, l.source) && AllOk(IsShort, l.targets)
  }

  predicate EventShort(e: VisibleEvent) {
    OptOk(IsShort, e.entity) && AllOk(IsShort, e.targets)
  }

  /** Every text fits 32 bits. Counts are not checked: they are cut to 32 bits, as the layout
      cuts them. */
  predicate Short(v: View) {
    && AllOk(CardShort, v.entities) && AllOk(RelationshipShort, v.relationships)
    && AllOk(LinkShort, v.chain.links) && AllOk(EventShort, v.visibleEvents)
  }

  // ---------------------------------------------------------------- sorting by a part

  function By<A, B>(le: (B, B) -> bool, f: A -> B): (A, A) -> bool {
    (a, b) => le(f(a), f(b))
  }

  /** Records sorted by a part have that part sorted, whichever arrangement came back. */
  lemma PartSorted<A(!new), B(!new)>(le: (B, B) -> bool, f: A -> B, xs: seq<A>, ys: seq<A>)
    requires TotalPreorder(le) && NoTies(le, Map(f, xs)) && IsSortOf(By(le, f), xs, ys)
    ensures Map(f, ys) == Sort(le, Map(f, xs)) && |ys| == |xs|
  {
    MapPermuted(f, xs, ys);
    assert Ordered(le, Map(f, ys)) by {
      forall i | 0 < i < |ys| ensures le(Map(f, ys)[i - 1], Map(f, ys)[i]) {
        assert By(le, f)(ys[i - 1], ys[i]);
      }
    }
    AnySortIsSort(le, Map(f, xs), Map(f, ys));
    SameElements(xs, ys);
  }

  lemma ByOrders<A(!new), B(!new)>(le: (B, B) -> bool, f: A -> B)
    requires TotalPreorder(le)
    ensures TotalPreorder(By(le, f))
  {
  }

  method SortBy<A(!new,==), B(!new)>(le: (B, B) -> bool, f: A -> B, xs: seq<A>) returns (ys: seq<A>)
    requires TotalPreorder(le) && NoTies(le, Map(f, xs))
    ensures Map(f, ys) == Sort(le, Map(f, xs)) && |ys| == |xs|
  {
    ByOrders(le, f);
    hide Sort, TotalPreorder, NoTies;
    ys := StdSort(By(le, f), xs);
    PartSorted(le, f, xs, ys);
  }

  // ---------------------------------------------------------------- fields

  /** A size as this writer has it: cast to 32 bits. */
  method WriteCount(w: Writer, n: nat)
    modifies w
    ensures forall k :: w.bytes + k == old(w.bytes) + PutCount(n, k)
  {
    hide PutU32;
    w.U32(n % 0x1_0000_0000);
  }

  method WriteNumbers(w: Writer, xs: seq<U32>)
    modifies w
    ensures forall k :: w.bytes + k == old(w.bytes) + PutList(PutU32, xs, k)
  {
    hide PutCount, PutU32;
    WriteCount(w, |xs|);
    ghost var start := w.bytes;
    for i := 0 to |xs|
      invariant forall k :: w.bytes + PutMany(PutU32, xs[i..], k) == start + PutMany(PutU32, xs, k)
    {
      PutManyStep(PutU32, xs, i);
      hide PutMany;
      w.U32(xs[i]);
    }
    assert xs[|xs|..] == [];
  }

  method WriteMarkers(w: Writer, xs: seq<LinkMarker>)
    modifies w
    ensures forall k :: w.bytes + k == old(w.bytes) + PutList(PutMarker, xs, k)
  {
    hide PutCount, PutU8, MarkerCode;
    WriteCount(w, |xs|);
    ghost var start := w.bytes;
    for i := 0 to |xs|
      invariant forall k :: w.bytes + PutMany(PutMarker, xs[i..], k) == start + PutMany(PutMarker, xs, k)
    {
      PutManyStep(PutMarker, xs, i);
      hide PutMany;
      w.U8(MarkerCode(xs[i]));
    }
    assert xs[|xs|..] == [];
  }

  method WriteCounters(w: Writer, xs: seq<Counter>)
    modifies w
    ensures forall k :: w.bytes + k == old(w.bytes) + PutList(PutCounter, xs, k)
  {
    hide PutCount, PutU32;
    WriteCount(w, |xs|);
    ghost var start := w.bytes;
    for i := 0 to |xs|
      invariant forall k :: w.bytes + PutMany(PutCounter, xs[i..], k) == start + PutMany(PutCounter, xs, k)
    {
      PutManyStep(PutCounter, xs, i);
      hide PutMany;
      w.U32(xs[i].typ);
      w.U32(xs[i].count);
    }
    assert xs[|xs|..] == [];
  }

  method WriteProperties(w: Writer, value: Option<CardProperties>)
    modifies w
    ensures forall k :: w.bytes + k == old(w.bytes) + PutOpt(PutProperties, value, k)
  {
    hide PutU8, PutU32, PutU64, PutI32, PutList;
    w.Flag(value.Some?);
    if value.None? {
      return;
    }
    var p := value.value;
    hide PutOpt;
    w.OptionalU32(p.typ);
    w.OptionalU32(p.attribute);
    w.OptionalU64(p.race);
    w.OptionalI32(p.attack);
    w.OptionalI32(p.defense);
    w.OptionalI32(p.baseAttack);
    w.OptionalI32(p.baseDefense);
    w.OptionalU32(p.level);
    w.OptionalU32(p.rank);
    w.OptionalU32(p.linkRating);
    WriteMarkers(w, p.linkMarkers);
    w.OptionalU32(p.leftScale);
    w.OptionalU32(p.rightScale);
    w.OptionalU32(p.statusFlags);
    WriteCounters(w, p.counters);
  }

  method WriteCard(w: Writer, c: ObservedCard) returns (r: Option<()>)
    modifies w
    ensures r.Some? <==> CardShort(c)
    ensures r.Some? ==> forall k :: w.bytes + k == old(w.bytes) + PutCard(c, k)
  {
    hide PutU8, PutU32, PutBool, PutOpt, PutString, ZoneCode, PositionCode, PutProperties;
    var _ :- w.Text(c.locator);
    w.Flag(c.identityKnown);
    w.OptionalU32(c.passcode);
    w.OptionalU8(c.owner);
    w.OptionalU8(c.controller);
    w.U8(ZoneCode(c.zone));
    w.OptionalU32(c.sequence);
    w.OptionalU32(c.overlaySequence);
    w.U8(PositionCode(c.position));
    w.Flag(c.faceUp);
    w.Flag(c.faceDown);
    WriteProperties(w, c.printed);
    WriteProperties(w, c.current);
    r := Some(());
  }

  /** Texts held in records: the records are sorted by them, and only they are written. */
  method WriteTexts<A(!new,==)>(w: Writer, text: A -> Bytes, xs: seq<A>) returns (r: Option<()>)
    modifies w
    ensures r.Some? <==> AllOk(IsShort, Map(text, xs))
    ensures r.Some? ==> forall k :: w.bytes + k == old(w.bytes) + PutList(PutString, Sort(LexLe, Map(text, xs)), k)
  {
    hide Sort, PutList, IsSortOf, AllOk, PutString, LexLess;
    LocatorOrders();
    LocatorsDoNotTie(Map(text, xs));
    hide TotalPreorder, NoTies;
    var sorted := SortBy(LexLe, text, xs);
    ShortWhenSorted(Map(text, xs));
    r := WriteTextsInOrder(w, text, sorted);
  }

  lemma ShortWhenSorted(ts: seq<Bytes>)
    ensures AllOk(IsShort, Sort(LexLe, ts)) <==> AllOk(IsShort, ts)
  {
    hide LexLess, Sort;
    LocatorOrders();
    SortKeeps(LexLe, ts, IsShort);
    SortSorts(LexLe, ts);
  }

  method WriteTextsInOrder<A(!new)>(w: Writer, text: A -> Bytes, xs: seq<A>) returns (r: Option<()>)
    modifies w
    ensures r.Some? <==> AllOk(IsShort, Map(text, xs))
    ensures r.Some? ==> forall k :: w.bytes + k == old(w.bytes) + PutList(PutString, Map(text, xs), k)
  {
    hide PutCount, PutString;
    WriteCount(w, |xs|);
    ghost var ys: seq<Bytes> := Map(text, xs);
    ghost var start := w.bytes;
    for i := 0 to |xs|
      invariant forall k :: w.bytes + PutMany(PutString, ys[i..], k) == start + PutMany(PutString, ys, k)
      invariant forall j :: 0 <= j < i ==> IsShort(ys[j])
    {
      PutManyStep(PutString, ys, i);
      hide PutMany;
      var _ :- w.Text(text(xs[i]));
    }
    assert ys[|xs|..] == [];
    r := Some(());
  }

  method WriteLink(w: Writer, l: LogicalLink) returns (r: Option<()>)
    modifies w
    ensures r.Some? <==> LinkShort(PlainLink(l))
    ensures r.Some? ==> forall k :: w.bytes + k == old(w.bytes) + PutLink(NormLink(PlainLink(l)), k)
  {
    hide PutU8, PutU32, PutU64, PutOpt, PutList, PutString, Sort, ZoneCode, AllOk, Map;
    w.U32(l.index);
    w.OptionalU8(l.activatingPlayer);
    var _ :- AppendOptionalLocator(w, MapOption(RefText(), l.source));
    AppendOptionalZone(w, l.activationZone);
    w.OptionalU64(l.effectDescription);
    var _ :- WriteTexts(w, RefText(), l.targets);
    r := Some(());
  }

  method WriteEvent(w: Writer, e: LogicalEvent) returns (r: Option<()>)
    modifies w
    ensures r.Some? <==> EventShort(PlainEvent(e))
    ensures r.Some? ==> forall k :: w.bytes + k == old(w.bytes) + PutEvent(NormEvent(PlainEvent(e)), k)
  {
    hide PutU8, PutU32, PutU64, PutI32, PutOpt, PutList, PutString, Sort, ZoneCode, EventKindCode, AllOk, Map;
    w.U64(e.eventIndex);
    w.U8(EventKindCode(e.kind));
    w.OptionalU8(e.player);
    var _ :- AppendOptionalLocator(w, MapOption(LocatedText(), e.entity));
    w.OptionalU32(e.publicPasscode);
    AppendOptionalZone(w, e.fromZone);
    AppendOptionalZone(w, e.toZone);
    w.OptionalU32(e.count);
    w.OptionalI32(e.amount);
    w.OptionalU32(e.counterType);
    w.OptionalU32(e.phase);
    w.OptionalU8(e.winner);
    w.OptionalU8(e.winReason);
    w.OptionalU64(e.effectDescription);
    var _ :- WriteTexts(w, LocatedText(), e.targets);
    r := Some(());
  }

  // ---------------------------------------------------------------- collections

  method WriteCards(w: Writer, es: seq<LogicalEntity>) returns (r: Option<()>)
    requires UniqueLocators(Map(CardOf(), es))
    modifies w
    ensures r.Some? <==> AllOk(CardShort, Map(CardOf(), es))
    ensures r.Some? ==> forall k :: w.bytes + k == old(w.bytes) + PutList(PutCard, Sort(EntityLe, Map(CardOf(), es)), k)
  {
    hide Sort, PutList, IsSortOf, AllOk, CardShort, PutCard, EntityLe;
    LocatorOrders();
    EntitiesDoNotTie(Map(CardOf(), es));
    SortKeeps(EntityLe, Map(CardOf(), es), CardShort);
    hide TotalPreorder, NoTies;
    var sorted := SortBy(EntityLe, CardOf(), es);
    r := WriteCardsInOrder(w, sorted);
  }

  method WriteCardsInOrder(w: Writer, es: seq<LogicalEntity>) returns (r: Option<()>)
    modifies w
    ensures r.Some? <==> AllOk(CardShort, Map(CardOf(), es))
    ensures r.Some? ==> forall k :: w.bytes + k == old(w.bytes) + PutList(PutCard, Map(CardOf(), es), k)
  {
    hide PutCount, CardShort, PutCard;
    WriteCount(w, |es|);
    ghost var ys: seq<ObservedCard> := Map(CardOf(), es);
    ghost var start := w.bytes;
    for i := 0 to |es|
      invariant forall k :: w.bytes + PutMany(PutCard, ys[i..], k) == start + PutMany(PutCard, ys, k)
      invariant forall j :: 0 <= j < i ==> CardShort(ys[j])
    {
      PutManyStep(PutCard, ys, i);
      hide PutMany;
      var _ :- WriteCard(w, es[i].card);
    }
    assert ys[|es|..] == [];
    r := Some(());
  }

  method WriteRelationships(w: Writer, rs: seq<LogicalRelationship>) returns (r: Option<()>)
    modifies w
    ensures r.Some? <==> AllOk(RelationshipShort, Map(PlainRelationship, rs))
    ensures r.Some? ==>
      forall k :: w.bytes + k == old(w.bytes) + PutList(PutRelationship,
        Sort(RelationshipLe, Map(PlainRelationship, rs)), k)
  {
    hide Sort, PutList, IsSortOf, AllOk, RelationshipShort, PutRelationship, RelationshipLe, PlainRelationship;
    RelationshipOrder();
    RelationshipsDoNotTie(Map(PlainRelationship, rs));
    SortKeeps(RelationshipLe, Map(PlainRelationship, rs), RelationshipShort);
    hide TotalPreorder, NoTies;
    var sorted := SortBy(RelationshipLe, PlainRelationship, rs);
    r := WriteRelationshipsInOrder(w, sorted);
  }

  method WriteRelationshipsInOrder(w: Writer, rs: seq<LogicalRelationship>) returns (r: Option<()>)
    modifies w
    ensures r.Some? <==> AllOk(RelationshipShort, Map(PlainRelationship, rs))
    ensures r.Some? ==>
      forall k :: w.bytes + k == old(w.bytes) + PutList(PutRelationship, Map(PlainRelationship, rs), k)
  {
    hide PutCount, PutRelationship, PlainRelationship;
    WriteCount(w, |rs|);
    ghost var ys: seq<Relationship> := Map(PlainRelationship, rs);
    ghost var start := w.bytes;
    for i := 0 to |rs|
      invariant forall k :: w.bytes + PutMany(PutRelationship, ys[i..], k) == start + PutMany(PutRelationship, ys, k)
      invariant forall j :: 0 <= j < i ==> RelationshipShort(ys[j])
    {
      PutManyStep(PutRelationship, ys, i);
      hide PutMany;
      var _ :- AppendRelationship(w, PlainRelationship(rs[i]));
    }
    assert ys[|rs|..] == [];
    r := Some(());
  }

  method WriteLinks(w: Writer, ls: seq<LogicalLink>) returns (r: Option<()>)
    modifies w
    ensures r.Some? <==> AllOk(LinkShort, Map(PlainLink, ls))
    ensures r.Some? ==> forall k :: w.bytes + k == old(w.bytes) + PutList(PutLink, Map(NormLink, Map(PlainLink, ls)), k)
  {
    hide PutCount, LinkShort, PutLink, NormLink, PlainLink;
    WriteCount(w, |ls|);
    ghost var ys: seq<ChainLink> := Map(NormLink, Map(PlainLink, ls));
    ghost var start := w.bytes;
    for i := 0 to |ls|
      invariant forall k :: w.bytes + PutMany(PutLink, ys[i..], k) == start + PutMany(PutLink, ys, k)
      invariant forall j :: 0 <= j < i ==> LinkShort(PlainLink(ls[j]))
    {
      PutManyStep(PutLink, ys, i);
      hide PutMany;
      var _ :- WriteLink(w, ls[i]);
    }
    assert ys[|ls|..] == [];
    r := Some(());
  }

  method WriteEvents(w: Writer, es: seq<LogicalEvent>) returns (r: Option<()>)
    requires UniqueIndices(Map(PlainEvent, es))
    modifies w
    ensures r.Some? <==> AllOk(EventShort, Map(PlainEvent, es))
    ensures r.Some? ==>
      forall k :: w.bytes + k == old(w.bytes) + PutList(PutEvent, Map(NormEvent, Sort(EventLe, Map(PlainEvent, es))), k)
  {
    hide Sort, PutList, IsSortOf, AllOk, EventShort, PutEvent, EventLe, PlainEvent, NormEvent;
    NumberOrders();
    EventsDoNotTie(Map(PlainEvent, es));
    SortKeeps(EventLe, Map(PlainEvent, es), EventShort);
    hide TotalPreorder, NoTies;
    var sorted := SortBy(EventLe, PlainEvent, es);
    r := WriteEventsInOrder(w, sorted);
  }

  method WriteEventsInOrder(w: Writer, es: seq<LogicalEvent>) returns (r: Option<()>)
    modifies w
    ensures r.Some? <==> AllOk(EventShort, Map(PlainEvent, es))
    ensures r.Some? ==>
      forall k :: w.bytes + k == old(w.bytes) + PutList(PutEvent, Map(NormEvent, Map(PlainEvent, es)), k)
  {
    hide PutCount, EventShort, PutEvent, NormEvent, PlainEvent;
    WriteCount(w, |es|);
    ghost var ys: seq<VisibleEvent> := Map(NormEvent, Map(PlainEvent, es));
    ghost var start := w.bytes;
    for i := 0 to |es|
      invariant forall k :: w.bytes + PutMany(PutEvent, ys[i..], k) == start + PutMany(PutEvent, ys, k)
      invariant forall j :: 0 <= j < i ==> EventShort(PlainEvent(es[j]))
    {
      PutManyStep(PutEvent, ys, i);
      hide PutMany;
      var _ :- WriteEvent(w, es[i]);
    }
    assert ys[|es|..] == [];
    r := Some(());
  }

  method WriteGlobals(w: Writer, g: Globals)
    modifies w
    ensures forall k :: w.bytes + k == old(w.bytes) + PutGlobals(g, k)
  {
    hide PutU8, PutU32, PutU64, PutBool, PutOpt, PutList;
    w.U64(g.duelFlags);
    WriteNumbers(w, g.lifePoints);
    w.OptionalU8(g.playerToAct);
    w.OptionalU8(g.turnPlayer);
    w.OptionalU32(g.turnCount);
    w.OptionalU32(g.phase);
    w.U32(g.chainLength);
    w.OptionalU8(g.winner);
    w.OptionalU8(g.winReason);
    w.Flag(g.terminal);
  }

  method WriteZones(w: Writer, zones: seq<ObservedZone>)
    modifies w
    ensures forall k :: w.bytes + k == old(w.bytes) + PutList(PutZone, Sort(ZoneLe, zones), k)
  {
    ZoneOrder();
    ZonesDoNotTie(zones);
    hide TotalPreorder, NoTies, Sort, PutCount, PutZone, ZoneLe;
    var xs := StdSort(ZoneLe, zones);
    AnySortIsSort(ZoneLe, zones, xs);
    WriteCount(w, |xs|);
    ghost var start := w.bytes;
    for i := 0 to |xs|
      invariant forall k :: w.bytes + PutMany(PutZone, xs[i..], k) == start + PutMany(PutZone, xs, k)
    {
      PutManyStep(PutZone, xs, i);
      hide PutMany;
      AppendZone(w, xs[i]);
    }
    assert xs[|xs|..] == [];
  }

  method WriteCodes(w: Writer, codes: seq<U32>)
    modifies w
    ensures forall k :: w.bytes + k == old(w.bytes) + PutList(PutU32, Sort(CodeLe, codes), k)
  {
    NumberOrders();
    FieldsDoNotTie([], [], codes);
    hide TotalPreorder, NoTies, Sort, PutList, PutU32, CodeLe;
    var xs := StdSort(CodeLe, codes);
    AnySortIsSort(CodeLe, codes, xs);
    WriteNumbers(w, xs);
  }

  method WriteDeck(w: Writer, d: Deck)
    modifies w
    ensures forall k :: w.bytes + k == old(w.bytes) + PutDeck(NormDeck(d), k)
  {
    hide PutBool, PutList, Sort;
    w.Flag(d.known);
    WriteCodes(w, d.mainDeck);
    WriteCodes(w, d.extraDeck);
  }

  method WriteContext(w: Writer, m: MatchContext)
    modifies w
    ensures forall k :: w.bytes + k == old(w.bytes) + PutContext(NormContext(m), k)
  {
    hide PutU8, PutU64, PutBool, PutDeck, NormDeck;
    w.U8(m.perspectivePlayer);
    w.U64(m.duelFlags);
    w.Flag(m.ownDecklistKnown);
    w.Flag(m.opponentDecklistKnown);
    WriteDeck(w, m.ownDeck);
    WriteDeck(w, m.opponentDeck);
  }

  // ---------------------------------------------------------------- the whole state

  /** The bytes of a logical state whose entities and events can be told apart, or the length
      error of a text that does not fit. */
  method WriteLogicalSafeState(s: LogicalState) returns (r: Option<Bytes>)
    requires UniqueLocators(PlainState(s).entities) && UniqueIndices(PlainState(s).visibleEvents)
    ensures r.Some? <==> Short(PlainState(s))
    ensures r.Some? ==> r.value == PutView(Written(PlainState(s)), [])
  {
    hide PutHeader, PutGlobals, PutList, PutU32, PutContext, AllOk, UniqueLocators, UniqueIndices, Sort,
      NormContext, NormEvent, NormLink, Map, PlainLink, PlainEvent, PlainRelationship;
    var w := new Writer();
    AppendHeader(w);
    WriteGlobals(w, s.globals);
    WriteZones(w, s.zones);
    var _ :- WriteCards(w, s.entities);
    var _ :- WriteRelationships(w, s.relationships);
    w.U32(s.chainLength);
    var _ :- WriteLinks(w, s.links);
    var _ :- WriteEvents(w, s.events);
    WriteContext(w, s.context);
    assert w.bytes + [] == w.bytes;
    r := Some(w.bytes);
  }
}
