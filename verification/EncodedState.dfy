/** The encoded public state. Every reference to a locator is of a type of its own, so the same
    record serves with ordinals into a table and with the strings those ordinals denote. */
module EncodedState {
  import opened Bytes
  import opened Sorting
  import opened SafeState

  datatype EncodedProperties = EncodedProperties(
    typ: Option<U32>, attribute: Option<U32>, race: Option<U64>, attack: Option<I32>, defense: Option<I32>,
    baseAttack: Option<I32>, baseDefense: Option<I32>, level: Option<U32>, rank: Option<U32>,
    linkRating: Option<U32>, markerCodes: seq<Byte>, leftScale: Option<U32>, rightScale: Option<U32>,
    statusFlags: Option<U32>, counters: seq<Counter>)

  datatype EncodedZone = EncodedZone(
    player: Byte, kindCode: Byte, totalCount: U32, publicIdentityCount: U32, hiddenCount: U32,
    playerObservableOrder: bool)

  datatype Entity<R> = Entity(
    locator: R, identityKnown: bool, vocabularyId: U32, owner: Option<Byte>, controller: Option<Byte>,
    zoneCode: Byte, sequence: Option<U32>, overlaySequence: Option<U32>, positionCode: Byte, faceUp: bool,
    faceDown: bool, printed: Option<EncodedProperties>, current: Option<EncodedProperties>)

  /** A reference to something on the field now: its locator and its entity, if it is one. */
  datatype Ref<R> = Ref(locator: R, entity: Option<nat>)

  datatype Relation<R> = Relation(kindCode: Byte, source: Ref<R>, target: Ref<R>)

  datatype Link<R> = Link(
    index: U32, activatingPlayer: Option<Byte>, source: Option<Ref<R>>, activationZoneCode: Option<Byte>,
    effectDescription: Option<U64>, targets: seq<Ref<R>>)

  datatype Event<R> = Event(
    eventIndex: U64, kindCode: Byte, player: Option<Byte>, locator: Option<R>, vocabularyId: Option<U32>,
    fromZoneCode: Option<Byte>, toZoneCode: Option<Byte>, count: Option<U32>, amount: Option<I32>,
    counterType: Option<U32>, phase: Option<U32>, winner: Option<Byte>, winReason: Option<Byte>,
    effectDescription: Option<U64>, targets: seq<R>)

  datatype EncodedContext = EncodedContext(
    perspectivePlayer: Byte, duelFlags: U64, ownDecklistKnown: bool, opponentDecklistKnown: bool, ownDeck: Deck,
    opponentDeck: Deck)

  datatype State<R> = State(
    references: seq<R>, globals: Globals, zones: seq<EncodedZone>, entities: seq<Entity<R>>,
    relationships: seq<Relation<R>>, chainLength: U32, links: seq<Link<R>>, events: seq<Event<R>>,
    context: EncodedContext)

  // ---------------------------------------------------------------- replacing references

  function MapOption<R, S>(f: R -> S, x: Option<R>): Option<S> {
    match x
    case None => None
    case Some(y) => Some(f(y))
  }

  function MapRef<R, S>(f: R -> S, r: Ref<R>): Ref<S> {
    Ref(f(r.locator), r.entity)
  }

  function RefMap<R, S>(f: R -> S): Ref<R> -> Ref<S> {
    r => MapRef(f, r)
  }

  function MapEntity<R, S>(f: R -> S, e: Entity<R>): Entity<S> {
    Entity(f(e.locator), e.identityKnown, e.vocabularyId, e.owner, e.controller, e.zoneCode, e.sequence,
           e.overlaySequence, e.positionCode, e.faceUp, e.faceDown, e.printed, e.current)
  }

  function EntityMap<R, S>(f: R -> S): Entity<R> -> Entity<S> {
    e => MapEntity(f, e)
  }

  function MapRelation<R, S>(f: R -> S, r: Relation<R>): Relation<S> {
    Relation(r.kindCode, MapRef(f, r.source), MapRef(f, r.target))
  }

  function RelationMap<R, S>(f: R -> S): Relation<R> -> Relation<S> {
    r => MapRelation(f, r)
  }

  function MapLink<R, S>(f: R -> S, l: Link<R>): Link<S> {
    Link(l.index, l.activatingPlayer, MapOption(RefMap(f), l.source), l.activationZoneCode, l.effectDescription,
         Map(RefMap(f), l.targets))
  }

  function LinkMap<R, S>(f: R -> S): Link<R> -> Link<S> {
    l => MapLink(f, l)
  }

  function MapEvent<R, S>(f: R -> S, e: Event<R>): Event<S> {
    Event(e.eventIndex, e.kindCode, e.player, MapOption(f, e.locator), e.vocabularyId, e.fromZoneCode, e.toZoneCode,
          e.count, e.amount, e.counterType, e.phase, e.winner, e.winReason, e.effectDescription, Map(f, e.targets))
  }

  function EventMap<R, S>(f: R -> S): Event<R> -> Event<S> {
    e => MapEvent(f, e)
  }

  /** The same state with every reference replaced. */
  function MapState<R, S>(f: R -> S, s: State<R>): State<S> {
    State(Map(f, s.references), s.globals, s.zones, Map(EntityMap(f), s.entities), Map(RelationMap(f), s.relationships),
          s.chainLength, Map(LinkMap(f), s.links), Map(EventMap(f), s.events), s.context)
  }

  // ---------------------------------------------------------------- collecting references

  function Flat<A, B>(f: A -> seq<B>, xs: seq<A>): seq<B> {
    if xs == [] then [] else Flat(f, xs[..|xs| - 1]) + f(xs[|xs| - 1])
  }

  function OptionSeq<R>(x: Option<R>): seq<R> {
    if x.Some? then [x.value] else []
  }

  function RefLocator<R>(): Ref<R> -> R {
    (r: Ref<R>) => r.locator
  }

  function EntityRefs<R>(): Entity<R> -> seq<R> {
    (e: Entity<R>) => [e.locator]
  }

  function RelationRefs<R>(): Relation<R> -> seq<R> {
    (r: Relation<R>) => [r.source.locator, r.target.locator]
  }

  function LinkRefs<R>(): Link<R> -> seq<R> {
    (l: Link<R>) => OptionSeq(MapOption(RefLocator(), l.source)) + Map(RefLocator(), l.targets)
  }

  function EventRefs<R>(): Event<R> -> seq<R> {
    (e: Event<R>) => OptionSeq(e.locator) + e.targets
  }

  /** Every reference of a state, in the order the code visits them. */
  function Refs<R>(s: State<R>): seq<R> {
    s.references + Flat(EntityRefs(), s.entities) + Flat(RelationRefs(), s.relationships)
    + Flat(LinkRefs(), s.links) + Flat(EventRefs(), s.events)
  }

  lemma NoneFlat<A, B>(f: A -> seq<B>, xs: seq<A>)
    ensures Flat(f, xs[..0]) == []
  {
  }

  lemma FlatGrows<A, B>(f: A -> seq<B>, xs: seq<A>, i: nat)
    requires i < |xs|
    ensures Flat(f, xs[..i + 1]) == Flat(f, xs[..i]) + f(xs[i])
  {
    assert xs[..i + 1][..i] == xs[..i];
  }

  lemma {:induction false} FlatHas<A, B>(f: A -> seq<B>, xs: seq<A>, i: nat, b: B)
    requires i < |xs| && b in f(xs[i])
    ensures b in Flat(f, xs)
  {
    if i < |xs| - 1 {
      FlatHas(f, xs[..|xs| - 1], i, b);
    }
  }

  lemma {:induction false} FlatFrom<A, B>(f: A -> seq<B>, xs: seq<A>, b: B)
    requires b in Flat(f, xs)
    ensures exists i :: 0 <= i < |xs| && b in f(xs[i])
  {
    if xs != [] && b !in f(xs[|xs| - 1]) {
      FlatFrom(f, xs[..|xs| - 1], b);
      var i :| 0 <= i < |xs[..|xs| - 1]| && b in f(xs[..|xs| - 1][i]);
      assert b in f(xs[i]);
    }
  }

  lemma {:induction false} FlatMapped<A, B, C, D>(f: A -> seq<B>, m: A -> C, g: C -> seq<D>, h: B -> D, xs: seq<A>)
    requires forall x :: g(m(x)) == Map(h, f(x))
    ensures Flat(g, Map(m, xs)) == Map(h, Flat(f, xs))
  {
    if xs != [] {
      var init := xs[..|xs| - 1];
      FlatMapped(f, m, g, h, init);
      assert Map(m, xs)[..|xs| - 1] == Map(m, init);
    }
  }

  lemma MapPlus<A, B>(f: A -> B, a: seq<A>, b: seq<A>)
    ensures Map(f, a + b) == Map(f, a) + Map(f, b)
  {
  }

  lemma PairsMapped<R, S>(f: R -> S, es: seq<Entity<R>>, rs: seq<Relation<R>>)
    ensures Flat(EntityRefs(), Map(EntityMap(f), es)) == Map(f, Flat(EntityRefs(), es))
    ensures Flat(RelationRefs(), Map(RelationMap(f), rs)) == Map(f, Flat(RelationRefs(), rs))
  {
    FlatMapped(EntityRefs(), EntityMap(f), EntityRefs(), f, es);
    FlatMapped(RelationRefs(), RelationMap(f), RelationRefs(), f, rs);
  }

  lemma LinksMapped<R, S>(f: R -> S, ls: seq<Link<R>>)
    ensures Flat(LinkRefs(), Map(LinkMap(f), ls)) == Map(f, Flat(LinkRefs(), ls))
  {
    forall l: Link<R> ensures LinkRefs()(LinkMap(f)(l)) == Map(f, LinkRefs()(l)) {
      assert Map(RefLocator(), Map(RefMap(f), l.targets)) == Map(f, Map(RefLocator(), l.targets));
    }
    FlatMapped(LinkRefs(), LinkMap(f), LinkRefs(), f, ls);
  }

  lemma EventsMapped<R, S>(f: R -> S, es: seq<Event<R>>)
    ensures Flat(EventRefs(), Map(EventMap(f), es)) == Map(f, Flat(EventRefs(), es))
  {
    FlatMapped(EventRefs(), EventMap(f), EventRefs(), f, es);
  }

  /** Replacing references commutes with collecting them. */
  lemma RefsMapped<R, S>(f: R -> S, s: State<R>)
    ensures Refs(MapState(f, s)) == Map(f, Refs(s))
  {
    hide Flat, Map;
    PairsMapped(f, s.entities, s.relationships);
    LinksMapped(f, s.links);
    EventsMapped(f, s.events);
    var a, b, c := s.references, Flat(EntityRefs(), s.entities), Flat(RelationRefs(), s.relationships);
    var d, e := Flat(LinkRefs(), s.links), Flat(EventRefs(), s.events);
    MapPlus(f, a, b);
    MapPlus(f, a + b, c);
    MapPlus(f, a + b + c, d);
    MapPlus(f, a + b + c + d, e);
  }

  // ---------------------------------------------------------------- undoing a replacement

  lemma MapUndone<A, B>(f: A -> B, g: B -> A, xs: seq<A>)
    requires forall i :: 0 <= i < |xs| ==> g(f(xs[i])) == xs[i]
    ensures Map(g, Map(f, xs)) == xs
  {
  }

  lemma RefUndone<R, S>(f: R -> S, g: S -> R, l: Link<R>)
    requires forall r :: r in LinkRefs()(l) ==> g(f(r)) == r
    ensures LinkMap(g)(LinkMap(f)(l)) == l
  {
    forall i | 0 <= i < |l.targets| ensures RefMap(g)(RefMap(f)(l.targets[i])) == l.targets[i] {
      assert Map(RefLocator(), l.targets)[i] == l.targets[i].locator;
      assert l.targets[i].locator in LinkRefs()(l);
    }
    MapUndone(RefMap(f), RefMap(g), l.targets);
    if l.source.Some? {
      assert l.source.value.locator in LinkRefs()(l);
    }
  }

  lemma EventUndone<R, S>(f: R -> S, g: S -> R, e: Event<R>)
    requires forall r :: r in EventRefs()(e) ==> g(f(r)) == r
    ensures EventMap(g)(EventMap(f)(e)) == e
  {
    forall i | 0 <= i < |e.targets| ensures g(f(e.targets[i])) == e.targets[i] {
      assert e.targets[i] in EventRefs()(e);
    }
    MapUndone(f, g, e.targets);
    if e.locator.Some? {
      assert e.locator.value in EventRefs()(e);
    }
  }

  lemma PartsUndone<A, B, R, S>(refs: A -> seq<R>, f: R -> S, g: S -> R, there: A -> B, back: B -> A, xs: seq<A>)
    requires forall r :: r in Flat(refs, xs) ==> g(f(r)) == r
    requires forall x :: (forall r :: r in refs(x) ==> g(f(r)) == r) ==> back(there(x)) == x
    ensures Map(back, Map(there, xs)) == xs
  {
    forall i | 0 <= i < |xs| ensures back(there(xs[i])) == xs[i] {
      forall r | r in refs(xs[i]) ensures g(f(r)) == r {
        FlatHas(refs, xs, i, r);
      }
    }
    MapUndone(there, back, xs);
  }

  /** A replacement that is undone on every reference of a state is undone on the state. */
  lemma StateUndone<R, S>(f: R -> S, g: S -> R, s: State<R>)
    requires forall r :: r in Refs(s) ==> g(f(r)) == r
    ensures MapState(g, MapState(f, s)) == s
  {
    hide Flat, Map;
    forall i | 0 <= i < |s.references| ensures g(f(s.references[i])) == s.references[i] {
      assert s.references[i] in Refs(s);
    }
    MapUndone(f, g, s.references);
    PartsUndone(EntityRefs(), f, g, EntityMap(f), EntityMap(g), s.entities);
    PartsUndone(RelationRefs(), f, g, RelationMap(f), RelationMap(g), s.relationships);
    forall l: Link<R> | forall r :: r in LinkRefs()(l) ==> g(f(r)) == r ensures LinkMap(g)(LinkMap(f)(l)) == l {
      RefUndone(f, g, l);
    }
    PartsUndone(LinkRefs(), f, g, LinkMap(f), LinkMap(g), s.links);
    forall e: Event<R> | forall r :: r in EventRefs()(e) ==> g(f(r)) == r ensures EventMap(g)(EventMap(f)(e)) == e {
      EventUndone(f, g, e);
    }
    PartsUndone(EventRefs(), f, g, EventMap(f), EventMap(g), s.events);
  }

  // ---------------------------------------------------------------- composing replacements

  lemma MapComposed<A, B, C>(f: A -> B, g: B -> C, h: A -> C, xs: seq<A>)
    requires forall x :: h(x) == g(f(x))
    ensures Map(g, Map(f, xs)) == Map(h, xs)
  {
  }

  lemma PartsComposed<R, S, T>(f: R -> S, g: S -> T, h: R -> T)
    requires forall x :: h(x) == g(f(x))
    ensures forall e: Entity<R> :: EntityMap(h)(e) == EntityMap(g)(EntityMap(f)(e))
    ensures forall r: Relation<R> :: RelationMap(h)(r) == RelationMap(g)(RelationMap(f)(r))
    ensures forall l: Link<R> :: LinkMap(h)(l) == LinkMap(g)(LinkMap(f)(l))
    ensures forall e: Event<R> :: EventMap(h)(e) == EventMap(g)(EventMap(f)(e))
  {
    forall l: Link<R> ensures LinkMap(h)(l) == LinkMap(g)(LinkMap(f)(l)) {
      MapComposed(RefMap(f), RefMap(g), RefMap(h), l.targets);
    }
    forall e: Event<R> ensures EventMap(h)(e) == EventMap(g)(EventMap(f)(e)) {
      MapComposed(f, g, h, e.targets);
    }
  }

  /** Replacing twice is replacing once by the composition. */
  lemma StateComposed<R, S, T>(f: R -> S, g: S -> T, h: R -> T, s: State<R>)
    requires forall x :: h(x) == g(f(x))
    ensures MapState(g, MapState(f, s)) == MapState(h, s)
  {
    hide Map;
    PartsComposed(f, g, h);
    MapComposed(f, g, h, s.references);
    MapComposed(EntityMap(f), EntityMap(g), EntityMap(h), s.entities);
    MapComposed(RelationMap(f), RelationMap(g), RelationMap(h), s.relationships);
    MapComposed(LinkMap(f), LinkMap(g), LinkMap(h), s.links);
    MapComposed(EventMap(f), EventMap(g), EventMap(h), s.events);
  }
}
