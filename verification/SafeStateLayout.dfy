/** The canonical bytes of a safe state, field by field: which number or text stands where, how
    wide it is, and what says that it is missing. The decoder accepts exactly these bytes. */
module SafeStateLayout {
  import opened Bytes
  import opened Text
  import opened SafeState
  import opened SafeStateNormal
  import opened SafeStateCodec
  import opened SafeStateBoundary
  import opened SafeStateOrder
  import opened FieldLists

  // ---------------------------------------------------------------- fields

  function ZoneField(z: SemanticZone): seq<Field> {
    One(ZoneCode(z))
  }

  function MarkerField(m: LinkMarker): seq<Field> {
    One(MarkerCode(m))
  }

  function CounterFields(c: Counter): seq<Field> {
    Four(c.typ) + Four(c.count)
  }

  function PropertiesFields(p: CardProperties): seq<Field> {
    Maybe(Four, p.typ) + Maybe(Four, p.attribute) + Maybe(Eight, p.race) + Maybe(Signed, p.attack)
    + Maybe(Signed, p.defense) + Maybe(Signed, p.baseAttack) + Maybe(Signed, p.baseDefense) + Maybe(Four, p.level)
    + Maybe(Four, p.rank) + Maybe(Four, p.linkRating) + Listed(MarkerField, p.linkMarkers)
    + Maybe(Four, p.leftScale) + Maybe(Four, p.rightScale) + Maybe(Four, p.statusFlags)
    + Listed(CounterFields, p.counters)
  }

  function GlobalsFields(g: Globals): seq<Field> {
    Eight(g.duelFlags) + Listed(Four, g.lifePoints) + Maybe(One, g.playerToAct) + Maybe(One, g.turnPlayer)
    + Maybe(Four, g.turnCount) + Maybe(Four, g.phase) + Four(g.chainLength) + Maybe(One, g.winner)
    + Maybe(One, g.winReason) + Flag(g.terminal)
  }

  function ZoneFields(z: ObservedZone): seq<Field> {
    One(z.player) + ZoneField(z.kind) + Four(z.totalCount) + Four(z.publicIdentityCount) + Four(z.hiddenCount)
    + Flag(z.playerObservableOrder)
  }

  function CardFields(c: ObservedCard): seq<Field> {
    Named(c.locator) + Flag(c.identityKnown) + Maybe(Four, c.passcode) + Maybe(One, c.owner)
    + Maybe(One, c.controller) + ZoneField(c.zone) + Maybe(Four, c.sequence) + Maybe(Four, c.overlaySequence)
    + One(PositionCode(c.position)) + Flag(c.faceUp) + Flag(c.faceDown) + Maybe(PropertiesFields, c.printed)
    + Maybe(PropertiesFields, c.current)
  }

  function RelationshipFields(r: Relationship): seq<Field> {
    One(RelationshipCode(r.kind)) + Named(r.source) + Named(r.target)
  }

  function LinkFields(l: ChainLink): seq<Field> {
    Four(l.index) + Maybe(One, l.activatingPlayer) + Maybe(Named, l.source) + Maybe(ZoneField, l.activationZone)
    + Maybe(Eight, l.effectDescription) + Listed(Named, l.targets)
  }

  function EventFields(e: VisibleEvent): seq<Field> {
    Eight(e.eventIndex) + One(EventKindCode(e.kind)) + Maybe(One, e.player) + Maybe(Named, e.entity)
    + Maybe(Four, e.publicPasscode) + Maybe(ZoneField, e.fromZone) + Maybe(ZoneField, e.toZone)
    + Maybe(Four, e.count) + Maybe(Signed, e.amount) + Maybe(Four, e.counterType) + Maybe(Four, e.phase)
    + Maybe(One, e.winner) + Maybe(One, e.winReason) + Maybe(Eight, e.effectDescription) + Listed(Named, e.targets)
  }

  function DeckFields(d: Deck): seq<Field> {
    Flag(d.known) + Listed(Four, d.mainDeck) + Listed(Four, d.extraDeck)
  }

  function ContextFields(m: MatchContext): seq<Field> {
    One(m.perspectivePlayer) + Eight(m.duelFlags) + Flag(m.ownDecklistKnown) + Flag(m.opponentDecklistKnown)
    + DeckFields(m.ownDeck) + DeckFields(m.opponentDeck)
  }

  /** The schema name stands twice at the front. */
  function ViewFields(v: View): seq<Field> {
    Named(Ascii(SCHEMA_ID)) + Named(Ascii(SCHEMA_ID)) + GlobalsFields(v.globals) + Listed(ZoneFields, v.zones)
    + Listed(CardFields, v.entities) + Listed(RelationshipFields, v.relationships) + Four(v.chain.length)
    + Listed(LinkFields, v.chain.links) + Listed(EventFields, v.visibleEvents) + ContextFields(v.matchContext)
  }

  // ---------------------------------------------------------------- what the writers spell

  /** Numbers and codes, present or not, and lists of them. */
  lemma NumbersSpelled()
    ensures forall x, k {:trigger PutOpt(PutU8, x, k)} :: Spells(PutOpt(PutU8, x, k), Maybe(One, x), k)
    ensures forall x, k {:trigger PutOpt(PutU32, x, k)} :: Spells(PutOpt(PutU32, x, k), Maybe(Four, x), k)
    ensures forall x, k {:trigger PutOpt(PutU64, x, k)} :: Spells(PutOpt(PutU64, x, k), Maybe(Eight, x), k)
    ensures forall x, k {:trigger PutOpt(PutI32, x, k)} :: Spells(PutOpt(PutI32, x, k), Maybe(Signed, x), k)
    ensures forall x, k {:trigger PutOpt(PutZoneCode, x, k)} ::
      Spells(PutOpt(PutZoneCode, x, k), Maybe(ZoneField, x), k)
    ensures forall xs, k {:trigger PutList(PutU32, xs, k)} :: |xs| <= U32_MAX ==>
      Spells(PutList(PutU32, xs, k), Listed(Four, xs), k)
    ensures forall xs, k {:trigger PutList(PutMarker, xs, k)} :: |xs| <= U32_MAX ==>
      Spells(PutList(PutMarker, xs, k), Listed(MarkerField, xs), k)
  {
    FieldsSpelled();
    hide Spells, PutU8, PutU32, PutU64, PutI32, One, Four, Eight, Signed, PutOpt, PutList, Maybe, Listed;
    MaybeSpelled(AnyOk, PutU8, One);
    MaybeSpelled(AnyOk, PutU32, Four);
    MaybeSpelled(AnyOk, PutU64, Eight);
    MaybeSpelled(AnyOk, PutI32, Signed);
    MaybeSpelled(AnyOk, PutZoneCode, ZoneField);
    ManySpelled(AnyOk, PutU32, Four);
    ManySpelled(AnyOk, PutMarker, MarkerField);
  }

  lemma TextsSpelled(utf8: bool)
    ensures OptSpelled(LocatorRule(utf8), PutString, Named) && ListSpelled(LocatorRule(utf8), PutString, Named)
  {
    FieldsSpelled();
    hide Spells, PutString, Named;
    MaybeSpelled(LocatorRule(utf8), PutString, Named);
    ManySpelled(LocatorRule(utf8), PutString, Named);
  }

  lemma CountersSpelled()
    ensures forall xs, k {:trigger PutList(PutCounter, xs, k)} :: |xs| <= U32_MAX ==>
      Spells(PutList(PutCounter, xs, k), Listed(CounterFields, xs), k)
  {
    FieldsSpelled();
    InTurn();
    hide Spells, PutU32, Four, PutList, Listed;
    ManySpelled(AnyOk, PutCounter, CounterFields);
  }

  lemma PropertySpelled(p: CardProperties, k: Bytes)
    requires PropertiesOk(p)
    ensures Spells(PutProperties(p, k), PropertiesFields(p), k)
  {
    NumbersSpelled();
    CountersSpelled();
    InTurn();
    hide Spells, PutOpt, PutList, Maybe, Listed, AllOk, Ordered;
  }

  lemma PropertiesSpelled()
    ensures OptSpelled(PropertiesOk, PutProperties, PropertiesFields)
  {
    hide PropertiesOk, PutProperties, PropertiesFields, Spells;
    forall p, k | PropertiesOk(p) ensures Spells(PutProperties(p, k), PropertiesFields(p), k) {
      PropertySpelled(p, k);
    }
    MaybeSpelled(PropertiesOk, PutProperties, PropertiesFields);
  }

  lemma GlobalsSpelled(g: Globals, k: Bytes)
    requires GlobalsOk(g)
    ensures Spells(PutGlobals(g, k), GlobalsFields(g), k)
  {
    NumbersSpelled();
    FieldsSpelled();
    InTurn();
    hide Spells, PutOpt, PutList, Maybe, Listed, PutU64, PutU32, PutBool, Four, Eight, Flag, AllOk, Ordered;
  }

  lemma ZoneSpelled(z: ObservedZone, k: Bytes)
    ensures Spells(PutZone(z, k), ZoneFields(z), k)
  {
    FieldsSpelled();
    InTurn();
    hide Spells, PutU8, PutU32, PutBool, One, Four, Flag;
  }

  lemma CardSpelled(c: ObservedCard, k: Bytes)
    requires |c.locator| <= U32_MAX && OptOk(PropertiesOk, c.printed) && OptOk(PropertiesOk, c.current)
    ensures Spells(PutCard(c, k), CardFields(c), k)
  {
    hide Spells, PutOpt, PutList, Maybe, Listed, PutU8, PutBool, PutString, One, Flag, Named, PropertiesOk, OptOk,
      ZoneCode, PositionCode;
    NumbersSpelled();
    PropertiesSpelled();
    FieldsSpelled();
    InTurn();
  }

  lemma RelationshipSpelled(utf8: bool, r: Relationship, k: Bytes)
    requires RelationshipOk(utf8, r)
    ensures Spells(PutRelationship(r, k), RelationshipFields(r), k)
  {
    FieldsSpelled();
    InTurn();
    hide Spells, PutU8, PutString, One, Named, IsLocator, Utf8Octets;
  }

  lemma LinkSpelled(utf8: bool, l: ChainLink, k: Bytes)
    requires LinkOk(utf8, l)
    ensures Spells(PutLink(l, k), LinkFields(l), k)
  {
    NumbersSpelled();
    TextsSpelled(utf8);
    FieldsSpelled();
    InTurn();
    hide Spells, PutOpt, PutList, Maybe, Listed, PutU32, Four, LocatorOk, AllOk, Ordered;
  }

  lemma EventSpelled(utf8: bool, e: VisibleEvent, k: Bytes)
    requires EventOk(utf8, e)
    ensures Spells(PutEvent(e, k), EventFields(e), k)
  {
    NumbersSpelled();
    TextsSpelled(utf8);
    FieldsSpelled();
    InTurn();
    hide Spells, PutOpt, PutList, Maybe, Listed, PutU8, PutU64, One, Eight, LocatorOk, AllOk, Ordered, EventKindCode;
  }

  lemma DeckSpelled(d: Deck, k: Bytes)
    requires DeckOk(d)
    ensures Spells(PutDeck(d, k), DeckFields(d), k)
  {
    NumbersSpelled();
    FieldsSpelled();
    InTurn();
    hide Spells, PutList, Listed, PutBool, Flag, AllOk, Ordered;
  }

  lemma ContextSpelled(m: MatchContext, k: Bytes)
    requires ContextOk(m)
    ensures Spells(PutContext(m, k), ContextFields(m), k)
  {
    hide Spells, PutU8, PutU64, PutBool, PutDeck, One, Eight, Flag, DeckFields, DeckOk;
    FieldsSpelled();
    InTurn();
    DeckSpelled(m.opponentDeck, k);
    DeckSpelled(m.ownDeck, PutDeck(m.opponentDeck, k));
  }

  /** The lists of a view. */
  lemma ElementsSpelled(utf8: bool)
    ensures ListSpelled(ZoneOk, PutZone, ZoneFields) && ListSpelled(CardRule(utf8), PutCard, CardFields)
    ensures ListSpelled(RelationshipRule(utf8), PutRelationship, RelationshipFields)
    ensures ListSpelled(LinkRule(utf8), PutLink, LinkFields) && ListSpelled(EventRule(utf8), PutEvent, EventFields)
  {
    hide Spells, PutZone, PutCard, PutRelationship, PutLink, PutEvent, ZoneFields, CardFields, RelationshipFields,
      LinkFields, EventFields, RelationshipOk, LinkOk, EventOk, PropertiesOk, OptOk, IsLocator, Utf8Octets;
    forall z, k ensures Spells(PutZone(z, k), ZoneFields(z), k) {
      ZoneSpelled(z, k);
    }
    forall c, k | CardOk(utf8, c) ensures Spells(PutCard(c, k), CardFields(c), k) {
      CardSpelled(c, k);
    }
    forall r, k | RelationshipOk(utf8, r) ensures Spells(PutRelationship(r, k), RelationshipFields(r), k) {
      RelationshipSpelled(utf8, r, k);
    }
    forall l, k | LinkOk(utf8, l) ensures Spells(PutLink(l, k), LinkFields(l), k) {
      LinkSpelled(utf8, l, k);
    }
    forall e, k | EventOk(utf8, e) ensures Spells(PutEvent(e, k), EventFields(e), k) {
      EventSpelled(utf8, e, k);
    }
    hide CardOk;
    ManySpelled(ZoneOk, PutZone, ZoneFields);
    ManySpelled(CardRule(utf8), PutCard, CardFields);
    ManySpelled(RelationshipRule(utf8), PutRelationship, RelationshipFields);
    ManySpelled(LinkRule(utf8), PutLink, LinkFields);
    ManySpelled(EventRule(utf8), PutEvent, EventFields);
  }

  lemma SchemaIsShort()
    ensures |Ascii(SCHEMA_ID)| <= U32_MAX
  {
  }

  lemma ViewSpelled(utf8: bool, v: View, k: Bytes)
    requires ViewOk(utf8, v)
    ensures Spells(PutView(v, k), ViewFields(v), k)
  {
    SchemaIsShort();
    hide Spells, PutList, Listed, PutString, Named, PutU32, Four, PutGlobals, GlobalsFields, PutContext,
      ContextFields, Ascii, AllOk, Ordered, GlobalsOk, ContextOk;
    FieldsSpelled();
    ElementsSpelled(utf8);
    InTurn();
    var g := v.globals;
    forall k ensures Spells(PutGlobals(g, k), GlobalsFields(g), k) {
      GlobalsSpelled(g, k);
    }
    ContextSpelled(v.matchContext, k);
  }

  /** The decoder accepts exactly the spellings of canonical states. */
  lemma DecodeIffSpelled(b: Bytes, v: View)
    ensures Decode(b) == Some(v) <==> ViewOk(true, v) && Spells(b, ViewFields(v), [])
  {
    hide Decode, PutView, ViewOk, Spells, ViewFields;
    DecodeIffCanonical(b, v);
    if ViewOk(true, v) {
      ViewSpelled(true, v, []);
      if Spells(b, ViewFields(v), []) {
        OneSpelling(b, PutView(v, []), ViewFields(v), []);
      }
    }
  }

  /** The bytes of an observation spell the state in canonical order that shows what it shows. */
  lemma ObservationIsSpelled(o: PlayerObservation, v: View)
    requires CanonicalBytes(o).Bytes?
    requires ViewMeets(Demand(false, true), v) && InCanonicalOrder(v) && Shows(v, o)
    ensures Spells(CanonicalBytes(o).bytes, ViewFields(v), [])
  {
    hide ViewOk, ViewMeets, InCanonicalOrder, Shows, CanonicalBytes, PutView, Spells, ViewFields;
    BytesAreOrderedContent(o, v);
    CanonicalIffInOrder(false, v);
    ViewSpelled(false, v, []);
  }
}
