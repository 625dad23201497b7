/** The perspective-safe state and the wire format of its canonical encoding.

    `PutView` is the layout of the bytes, field by field; `GetView` is a reader with no
    shortcuts: no count guards and no re-encoding. The stateful decoder and encoder are
    proved against these two in `SafeStateDecoder` and `SafeStateEncoder`. */
module SafeState {
  import opened Bytes
  import opened Text

  // ---------------------------------------------------------------- data model

  datatype SemanticZone =
    | Unknown | MainDeck | Hand | MonsterZone | SpellTrapZone | Graveyard | Banished | ExtraDeck | FieldZone
    | PendulumRelevant | Overlay

  datatype Position = Unknown | FaceUpAttack | FaceDownAttack | FaceUpDefense | FaceDownDefense

  datatype LinkMarker = BottomLeft | Bottom | BottomRight | Left | Right | TopLeft | Top | TopRight

  datatype RelationshipKind = XyzMaterial | Equip | Target

  datatype VisibleEventKind =
    | Unknown | TurnStarted | PhaseChanged | CardMoved | CardRevealed | Summoned | Set | Draw | Shuffle
    | RandomizationBoundary | LifePointsChanged | ChainActivated | ChainResolved | ChainEnded | CardDestroyed
    | CardBanished | CardReturned | PositionChanged | CounterChanged | Equipped | Unequipped | Targeted | Win

  datatype Counter = Counter(typ: U32, count: U32)

  datatype CardProperties = CardProperties(
    typ: Option<U32>, attribute: Option<U32>, race: Option<U64>, attack: Option<I32>, defense: Option<I32>,
    baseAttack: Option<I32>, baseDefense: Option<I32>, level: Option<U32>, rank: Option<U32>,
    linkRating: Option<U32>, linkMarkers: seq<LinkMarker>, leftScale: Option<U32>, rightScale: Option<U32>,
    statusFlags: Option<U32>, counters: seq<Counter>)

  datatype ObservedCard = ObservedCard(
    locator: Bytes, identityKnown: bool, passcode: Option<U32>, owner: Option<Byte>, controller: Option<Byte>,
    zone: SemanticZone, sequence: Option<U32>, overlaySequence: Option<U32>, position: Position, faceUp: bool,
    faceDown: bool, printed: Option<CardProperties>, current: Option<CardProperties>)

  datatype ObservedZone = ObservedZone(
    player: Byte, kind: SemanticZone, totalCount: U32, publicIdentityCount: U32, hiddenCount: U32,
    playerObservableOrder: bool)

  datatype Globals = Globals(
    duelFlags: U64, lifePoints: seq<U32>, playerToAct: Option<Byte>, turnPlayer: Option<Byte>,
    turnCount: Option<U32>, phase: Option<U32>, chainLength: U32, winner: Option<Byte>, winReason: Option<Byte>,
    terminal: bool)

  datatype Relationship = Relationship(kind: RelationshipKind, source: Bytes, target: Bytes)

  datatype ChainLink = ChainLink(
    index: U32, activatingPlayer: Option<Byte>, source: Option<Bytes>, activationZone: Option<SemanticZone>,
    effectDescription: Option<U64>, targets: seq<Bytes>)

  datatype ChainState = ChainState(length: U32, links: seq<ChainLink>)

  datatype VisibleEvent = VisibleEvent(
    eventIndex: U64, kind: VisibleEventKind, player: Option<Byte>, entity: Option<Bytes>,
    publicPasscode: Option<U32>, fromZone: Option<SemanticZone>, toZone: Option<SemanticZone>,
    count: Option<U32>, amount: Option<I32>, counterType: Option<U32>, phase: Option<U32>,
    winner: Option<Byte>, winReason: Option<Byte>, effectDescription: Option<U64>, targets: seq<Bytes>)

  datatype Deck = Deck(known: bool, mainDeck: seq<U32>, extraDeck: seq<U32>)

  datatype MatchContext = MatchContext(
    perspectivePlayer: Byte, duelFlags: U64, ownDecklistKnown: bool, opponentDecklistKnown: bool, ownDeck: Deck,
    opponentDeck: Deck)

  datatype View = View(
    globals: Globals, zones: seq<ObservedZone>, entities: seq<ObservedCard>, relationships: seq<Relationship>,
    chain: ChainState, visibleEvents: seq<VisibleEvent>, matchContext: MatchContext)

  const SCHEMA_ID: string := "ocgforge.public_safe_state.v1"

  // ---------------------------------------------------------------- code tables

  function ZoneCode(z: SemanticZone): (c: Byte)
    ensures c <= 10
  {
    match z
    case Unknown => 0
    case MainDeck => 1
    case Hand => 2
    case MonsterZone => 3
    case SpellTrapZone => 4
    case Graveyard => 5
    case Banished => 6
    case ExtraDeck => 7
    case FieldZone => 8
    case PendulumRelevant => 9
    case Overlay => 10
  }

  function DecodeZone(c: Byte): (r: Option<SemanticZone>)
    ensures r.Some? ==> ZoneCode(r.value) == c
  {
    match c
    case 0 => Some(SemanticZone.Unknown)
    case 1 => Some(MainDeck)
    case 2 => Some(Hand)
    case 3 => Some(MonsterZone)
    case 4 => Some(SpellTrapZone)
    case 5 => Some(Graveyard)
    case 6 => Some(Banished)
    case 7 => Some(ExtraDeck)
    case 8 => Some(FieldZone)
    case 9 => Some(PendulumRelevant)
    case 10 => Some(Overlay)
    case _ => None
  }

  function PositionCode(p: Position): (c: Byte)
  {
    match p
    case Unknown => 0
    case FaceUpAttack => 1
    case FaceDownAttack => 2
    case FaceUpDefense => 4
    case FaceDownDefense => 8
  }

  function DecodePosition(c: Byte): (r: Option<Position>)
    ensures r.Some? ==> PositionCode(r.value) == c
  {
    match c
    case 0 => Some(Position.Unknown)
    case 1 => Some(FaceUpAttack)
    case 2 => Some(FaceDownAttack)
    case 4 => Some(FaceUpDefense)
    case 8 => Some(FaceDownDefense)
    case _ => None
  }

  function MarkerCode(m: LinkMarker): (c: Byte)
    ensures c <= 7
  {
    match m
    case BottomLeft => 0
    case Bottom => 1
    case BottomRight => 2
    case Left => 3
    case Right => 4
    case TopLeft => 5
    case Top => 6
    case TopRight => 7
  }

  function DecodeMarker(c: Byte): (r: Option<LinkMarker>)
    ensures r.Some? ==> MarkerCode(r.value) == c
  {
    match c
    case 0 => Some(BottomLeft)
    case 1 => Some(Bottom)
    case 2 => Some(BottomRight)
    case 3 => Some(Left)
    case 4 => Some(Right)
    case 5 => Some(TopLeft)
    case 6 => Some(Top)
    case 7 => Some(TopRight)
    case _ => None
  }

  function RelationshipCode(r: RelationshipKind): (c: Byte)
    ensures c <= 2
  {
    match r
    case XyzMaterial => 0
    case Equip => 1
    case Target => 2
  }

  function DecodeRelationship(c: Byte): (r: Option<RelationshipKind>)
    ensures r.Some? ==> RelationshipCode(r.value) == c
  {
    match c
    case 0 => Some(XyzMaterial)
    case 1 => Some(Equip)
    case 2 => Some(Target)
    case _ => None
  }

  function EventKindCode(e: VisibleEventKind): (c: Byte)
    ensures c <= 22
  {
    match e
    case Unknown => 0
    case TurnStarted => 1
    case PhaseChanged => 2
    case CardMoved => 3
    case CardRevealed => 4
    case Summoned => 5
    case Set => 6
    case Draw => 7
    case Shuffle => 8
    case RandomizationBoundary => 9
    case LifePointsChanged => 10
    case ChainActivated => 11
    case ChainResolved => 12
    case ChainEnded => 13
    case CardDestroyed => 14
    case CardBanished => 15
    case CardReturned => 16
    case PositionChanged => 17
    case CounterChanged => 18
    case Equipped => 19
    case Unequipped => 20
    case Targeted => 21
    case Win => 22
  }

  function DecodeEventKind(c: Byte): (r: Option<VisibleEventKind>)
    ensures r.Some? ==> EventKindCode(r.value) == c
  {
    match c
    case 0 => Some(VisibleEventKind.Unknown)
    case 1 => Some(TurnStarted)
    case 2 => Some(PhaseChanged)
    case 3 => Some(CardMoved)
    case 4 => Some(CardRevealed)
    case 5 => Some(Summoned)
    case 6 => Some(VisibleEventKind.Set)
    case 7 => Some(Draw)
    case 8 => Some(Shuffle)
    case 9 => Some(RandomizationBoundary)
    case 10 => Some(LifePointsChanged)
    case 11 => Some(ChainActivated)
    case 12 => Some(ChainResolved)
    case 13 => Some(ChainEnded)
    case 14 => Some(CardDestroyed)
    case 15 => Some(CardBanished)
    case 16 => Some(CardReturned)
    case 17 => Some(PositionChanged)
    case 18 => Some(CounterChanged)
    case 19 => Some(Equipped)
    case 20 => Some(Unequipped)
    case 21 => Some(Targeted)
    case 22 => Some(Win)
    case _ => None
  }

  // ---------------------------------------------------------------- comparators

  predicate MarkerLe(a: LinkMarker, b: LinkMarker) {
    MarkerCode(a) <= MarkerCode(b)
  }

  predicate CounterLe(a: Counter, b: Counter) {
    a.typ < b.typ || (a.typ == b.typ && a.count <= b.count)
  }

  predicate ZoneLe(a: ObservedZone, b: ObservedZone) {
    a.player < b.player || (a.player == b.player &&
    (ZoneCode(a.kind) < ZoneCode(b.kind) || (a.kind == b.kind &&
    (a.totalCount < b.totalCount || (a.totalCount == b.totalCount &&
    (a.publicIdentityCount < b.publicIdentityCount || (a.publicIdentityCount == b.publicIdentityCount &&
    (a.hiddenCount < b.hiddenCount || (a.hiddenCount == b.hiddenCount &&
    (a.playerObservableOrder ==> b.playerObservableOrder))))))))))
  }

  predicate EntityLess(a: ObservedCard, b: ObservedCard) {
    LexLess(a.locator, b.locator)
  }

  predicate EntityLe(a: ObservedCard, b: ObservedCard) {
    LexLe(a.locator, b.locator)
  }

  predicate RelationshipLe(a: Relationship, b: Relationship) {
    RelationshipCode(a.kind) < RelationshipCode(b.kind) || (a.kind == b.kind &&
    (LexLess(a.source, b.source) || (a.source == b.source && LexLe(a.target, b.target))))
  }

  predicate EventLess(a: VisibleEvent, b: VisibleEvent) {
    a.eventIndex < b.eventIndex
  }

  predicate EventLe(a: VisibleEvent, b: VisibleEvent) {
    a.eventIndex <= b.eventIndex
  }

  predicate CodeLe(a: U32, b: U32) {
    a <= b
  }

  predicate AnyNumbers(a: U32, b: U32) {
    true
  }

  predicate AnyLinks(a: ChainLink, b: ChainLink) {
    true
  }

  // ---------------------------------------------------------------- what the format admits

  predicate PlayerOk(p: Byte) {
    p <= 1
  }

  predicate LocatorOk(utf8: bool, s: Bytes) {
    TextOk(utf8, s) && IsLocator(s)
  }

  predicate PropertiesOk(p: CardProperties) {
    ListOk(AnyOk, MarkerLe, p.linkMarkers) && ListOk(AnyOk, CounterLe, p.counters)
  }

  predicate CardOk(utf8: bool, c: ObservedCard) {
    && LocatorOk(utf8, c.locator)
    && OptOk(PlayerOk, c.owner) && OptOk(PlayerOk, c.controller)
    && !(c.faceUp && c.faceDown)
    && (!c.identityKnown ==> c.passcode.None? && c.printed.None? && c.current.None?)
    && OptOk(PropertiesOk, c.printed) && OptOk(PropertiesOk, c.current)
  }

  predicate ZoneOk(z: ObservedZone) {
    z.player <= 1
  }

  predicate GlobalsOk(g: Globals) {
    ListOk(AnyOk, AnyNumbers, g.lifePoints) && OptOk(PlayerOk, g.playerToAct) && OptOk(PlayerOk, g.turnPlayer)
  }

  predicate RelationshipOk(utf8: bool, r: Relationship) {
    LocatorOk(utf8, r.source) && LocatorOk(utf8, r.target)
  }

  predicate TargetsOk(utf8: bool, ts: seq<Bytes>) {
    ListOk(LocatorRule(utf8), LexLe, ts)
  }

  predicate LinkOk(utf8: bool, l: ChainLink) {
    && OptOk(PlayerOk, l.activatingPlayer) && OptOk(LocatorRule(utf8), l.source) && TargetsOk(utf8, l.targets)
  }

  predicate EventOk(utf8: bool, e: VisibleEvent) {
    && OptOk(PlayerOk, e.player) && OptOk(LocatorRule(utf8), e.entity) && TargetsOk(utf8, e.targets)
  }

  predicate DeckOk(d: Deck) {
    && ListOk(AnyOk, CodeLe, d.mainDeck) && ListOk(AnyOk, CodeLe, d.extraDeck)
    && (!d.known ==> d.mainDeck == [] && d.extraDeck == [])
  }

  predicate ContextOk(m: MatchContext) {
    m.perspectivePlayer <= 1 && DeckOk(m.ownDeck) && DeckOk(m.opponentDeck)
  }

  /** The views that have a canonical encoding: every field in range and every unordered
      collection already in its canonical order. With `utf8`, every locator is also text. */
  predicate ViewOk(utf8: bool, v: View) {
    && GlobalsOk(v.globals)
    && ListOk(ZoneOk, ZoneLe, v.zones)
    && ListOk(CardRule(utf8), EntityLess, v.entities)
    && ListOk(RelationshipRule(utf8), RelationshipLe, v.relationships)
    && ListOk(LinkRule(utf8), AnyLinks, v.chain.links)
    && ListOk(EventRule(utf8), EventLess, v.visibleEvents)
    && ContextOk(v.matchContext)
  }

  function LocatorRule(utf8: bool): Bytes -> bool {
    s => LocatorOk(utf8, s)
  }

  function CardRule(utf8: bool): ObservedCard -> bool {
    c => CardOk(utf8, c)
  }

  function RelationshipRule(utf8: bool): Relationship -> bool {
    r => RelationshipOk(utf8, r)
  }

  function LinkRule(utf8: bool): ChainLink -> bool {
    l => LinkOk(utf8, l)
  }

  function EventRule(utf8: bool): VisibleEvent -> bool {
    e => EventOk(utf8, e)
  }

  // ---------------------------------------------------------------- layout

  function PutZoneCode(z: SemanticZone, k: Bytes): Bytes {
    PutU8(ZoneCode(z), k)
  }

  function PutPositionCode(p: Position, k: Bytes): Bytes {
    PutU8(PositionCode(p), k)
  }

  function PutRelationshipCode(r: RelationshipKind, k: Bytes): Bytes {
    PutU8(RelationshipCode(r), k)
  }

  function PutEventKindCode(e: VisibleEventKind, k: Bytes): Bytes {
    PutU8(EventKindCode(e), k)
  }

  function PutMarker(m: LinkMarker, k: Bytes): Bytes {
    PutU8(MarkerCode(m), k)
  }

  function PutCounter(c: Counter, k: Bytes): Bytes {
    PutU32(c.typ, PutU32(c.count, k))
  }

  function PutProperties(p: CardProperties, k: Bytes): Bytes {
    PutOpt(PutU32, p.typ, PutOpt(PutU32, p.attribute, PutOpt(PutU64, p.race, PutOpt(PutI32, p.attack,
    PutOpt(PutI32, p.defense, PutOpt(PutI32, p.baseAttack, PutOpt(PutI32, p.baseDefense, PutOpt(PutU32, p.level,
    PutOpt(PutU32, p.rank, PutOpt(PutU32, p.linkRating, PutList(PutMarker, p.linkMarkers,
    PutOpt(PutU32, p.leftScale, PutOpt(PutU32, p.rightScale, PutOpt(PutU32, p.statusFlags,
    PutList(PutCounter, p.counters, k)))))))))))))))
  }

  function PutGlobals(g: Globals, k: Bytes): Bytes {
    PutU64(g.duelFlags, PutList(PutU32, g.lifePoints, PutOpt(PutU8, g.playerToAct, PutOpt(PutU8, g.turnPlayer,
    PutOpt(PutU32, g.turnCount, PutOpt(PutU32, g.phase, PutU32(g.chainLength, PutOpt(PutU8, g.winner,
    PutOpt(PutU8, g.winReason, PutBool(g.terminal, k))))))))))
  }

  function PutZone(z: ObservedZone, k: Bytes): Bytes {
    PutU8(z.player, PutZoneCode(z.kind, PutU32(z.totalCount, PutU32(z.publicIdentityCount,
    PutU32(z.hiddenCount, PutBool(z.playerObservableOrder, k))))))
  }

  function PutCard(c: ObservedCard, k: Bytes): Bytes {
    PutString(c.locator, PutBool(c.identityKnown, PutOpt(PutU32, c.passcode, PutOpt(PutU8, c.owner,
    PutOpt(PutU8, c.controller, PutZoneCode(c.zone, PutOpt(PutU32, c.sequence, PutOpt(PutU32, c.overlaySequence,
    PutPositionCode(c.position, PutBool(c.faceUp, PutBool(c.faceDown, PutOpt(PutProperties, c.printed,
    PutOpt(PutProperties, c.current, k)))))))))))))
  }

  function PutRelationship(r: Relationship, k: Bytes): Bytes {
    PutRelationshipCode(r.kind, PutString(r.source, PutString(r.target, k)))
  }

  function PutLink(l: ChainLink, k: Bytes): Bytes {
    PutU32(l.index, PutOpt(PutU8, l.activatingPlayer, PutOpt(PutString, l.source,
    PutOpt(PutZoneCode, l.activationZone, PutOpt(PutU64, l.effectDescription,
    PutList(PutString, l.targets, k))))))
  }

  function PutEvent(e: VisibleEvent, k: Bytes): Bytes {
    PutU64(e.eventIndex, PutEventKindCode(e.kind, PutOpt(PutU8, e.player, PutOpt(PutString, e.entity,
    PutOpt(PutU32, e.publicPasscode, PutOpt(PutZoneCode, e.fromZone, PutOpt(PutZoneCode, e.toZone,
    PutOpt(PutU32, e.count, PutOpt(PutI32, e.amount, PutOpt(PutU32, e.counterType, PutOpt(PutU32, e.phase,
    PutOpt(PutU8, e.winner, PutOpt(PutU8, e.winReason, PutOpt(PutU64, e.effectDescription,
    PutList(PutString, e.targets, k)))))))))))))))
  }

  function PutDeck(d: Deck, k: Bytes): Bytes {
    PutBool(d.known, PutList(PutU32, d.mainDeck, PutList(PutU32, d.extraDeck, k)))
  }

  function PutContext(m: MatchContext, k: Bytes): Bytes {
    PutU8(m.perspectivePlayer, PutU64(m.duelFlags, PutBool(m.ownDecklistKnown, PutBool(m.opponentDecklistKnown,
    PutDeck(m.ownDeck, PutDeck(m.opponentDeck, k))))))
  }

  function PutChain(c: ChainState, k: Bytes): Bytes {
    PutU32(c.length, PutList(PutLink, c.links, k))
  }

  /** The schema name, twice. */
  function PutHeader(k: Bytes): Bytes {
    PutString(Ascii(SCHEMA_ID), PutString(Ascii(SCHEMA_ID), k))
  }

  function PutView(v: View, k: Bytes): Bytes {
    PutHeader(PutGlobals(v.globals, PutList(PutZone, v.zones, PutList(PutCard, v.entities,
    PutList(PutRelationship, v.relationships, PutChain(v.chain, PutList(PutEvent, v.visibleEvents,
    PutContext(v.matchContext, k))))))))
  }

  // ---------------------------------------------------------------- reading it back

  function GetPlayer(b: Bytes): (r: Parsed<Byte>)
    ensures r.Some? ==> PlayerOk(r.value.0) && b == PutU8(r.value.0, r.value.1) && |b| == 1 + |r.value.1|
  {
    match GetU8(b)
    case None => None
    case Some((p, k)) => if p > 1 then None else Some((p, k))
  }

  function GetZoneCode(b: Bytes): (r: Parsed<SemanticZone>)
    ensures r.Some? ==> b == PutZoneCode(r.value.0, r.value.1) && |b| == 1 + |r.value.1|
  {
    match GetU8(b)
    case None => None
    case Some((c, k)) => match DecodeZone(c)
      case None => None
      case Some(z) => Some((z, k))
  }

  function GetMarker(b: Bytes): (r: Parsed<LinkMarker>)
    ensures r.Some? ==> b == PutMarker(r.value.0, r.value.1) && |b| == 1 + |r.value.1|
  {
    match GetU8(b)
    case None => None
    case Some((c, k)) => match DecodeMarker(c)
      case None => None
      case Some(m) => Some((m, k))
  }

  function GetPositionCode(b: Bytes): (r: Parsed<Position>)
    ensures r.Some? ==> b == PutPositionCode(r.value.0, r.value.1) && |b| == 1 + |r.value.1|
  {
    match GetU8(b)
    case None => None
    case Some((c, k)) => match DecodePosition(c)
      case None => None
      case Some(p) => Some((p, k))
  }

  function GetRelationshipCode(b: Bytes): (r: Parsed<RelationshipKind>)
    ensures r.Some? ==> b == PutRelationshipCode(r.value.0, r.value.1) && |b| == 1 + |r.value.1|
  {
    match GetU8(b)
    case None => None
    case Some((c, k)) => match DecodeRelationship(c)
      case None => None
      case Some(r) => Some((r, k))
  }

  function GetEventKindCode(b: Bytes): (r: Parsed<VisibleEventKind>)
    ensures r.Some? ==> b == PutEventKindCode(r.value.0, r.value.1) && |b| == 1 + |r.value.1|
  {
    match GetU8(b)
    case None => None
    case Some((c, k)) => match DecodeEventKind(c)
      case None => None
      case Some(e) => Some((e, k))
  }

  function GetLocator(utf8: bool, b: Bytes): (r: Parsed<Bytes>)
    ensures r.Some? ==> LocatorOk(utf8, r.value.0) && b == PutString(r.value.0, r.value.1) && |b| >= 4 + |r.value.1|
  {
    StringSound(utf8, b);
    match GetString(utf8, b)
    case None => None
    case Some((s, k)) => if IsLocator(s) then Some((s, k)) else None
  }

  function GetCounter(b: Bytes): Parsed<Counter> {
    var (typ, b) :- GetU32(b);
    var (count, b) :- GetU32(b);
    Some((Counter(typ, count), b))
  }

  function GetProperties(b: Bytes): Parsed<CardProperties> {
    var (typ, b) :- GetOpt(GetU32, b);
    var (attribute, b) :- GetOpt(GetU32, b);
    var (race, b) :- GetOpt(GetU64, b);
    var (attack, b) :- GetOpt(GetI32, b);
    var (defense, b) :- GetOpt(GetI32, b);
    var (baseAttack, b) :- GetOpt(GetI32, b);
    var (baseDefense, b) :- GetOpt(GetI32, b);
    var (level, b) :- GetOpt(GetU32, b);
    var (rank, b) :- GetOpt(GetU32, b);
    var (linkRating, b) :- GetOpt(GetU32, b);
    var (linkMarkers, b) :- GetList(GetMarker, MarkerLe, b);
    var (leftScale, b) :- GetOpt(GetU32, b);
    var (rightScale, b) :- GetOpt(GetU32, b);
    var (statusFlags, b) :- GetOpt(GetU32, b);
    var (counters, b) :- GetList(GetCounter, CounterLe, b);
    Some((CardProperties(typ, attribute, race, attack, defense, baseAttack, baseDefense, level, rank, linkRating,
                         linkMarkers, leftScale, rightScale, statusFlags, counters), b))
  }

  function GetGlobals(b: Bytes): Parsed<Globals> {
    var (duelFlags, b) :- GetU64(b);
    var (lifePoints, b) :- GetList(GetU32, AnyNumbers, b);
    var (playerToAct, b) :- GetOpt(GetPlayer, b);
    var (turnPlayer, b) :- GetOpt(GetPlayer, b);
    var (turnCount, b) :- GetOpt(GetU32, b);
    var (phase, b) :- GetOpt(GetU32, b);
    var (chainLength, b) :- GetU32(b);
    var (winner, b) :- GetOpt(GetU8, b);
    var (winReason, b) :- GetOpt(GetU8, b);
    var (terminal, b) :- GetBool(b);
    Some((Globals(duelFlags, lifePoints, playerToAct, turnPlayer, turnCount, phase, chainLength, winner, winReason,
                  terminal), b))
  }

  function GetZone(b: Bytes): Parsed<ObservedZone> {
    var (player, b) :- GetPlayer(b);
    var (kind, b) :- GetZoneCode(b);
    var (totalCount, b) :- GetU32(b);
    var (publicIdentityCount, b) :- GetU32(b);
    var (hiddenCount, b) :- GetU32(b);
    var (playerObservableOrder, b) :- GetBool(b);
    Some((ObservedZone(player, kind, totalCount, publicIdentityCount, hiddenCount, playerObservableOrder), b))
  }

  function GetCard(utf8: bool, b: Bytes): Parsed<ObservedCard> {
    var (locator, b) :- GetLocator(utf8, b);
    var (identityKnown, b) :- GetBool(b);
    var (passcode, b) :- GetOpt(GetU32, b);
    var (owner, b) :- GetOpt(GetPlayer, b);
    var (controller, b) :- GetOpt(GetPlayer, b);
    var (zone, b) :- GetZoneCode(b);
    var (sequence, b) :- GetOpt(GetU32, b);
    var (overlaySequence, b) :- GetOpt(GetU32, b);
    var (position, b) :- GetPositionCode(b);
    var (faceUp, b) :- GetBool(b);
    var (faceDown, b) :- GetBool(b);
    var (printed, b) :- GetOpt(GetProperties, b);
    var (current, b) :- GetOpt(GetProperties, b);
    if faceUp && faceDown then None
    else if !identityKnown && (passcode.Some? || printed.Some? || current.Some?) then None
    else Some((ObservedCard(locator, identityKnown, passcode, owner, controller, zone, sequence, overlaySequence,
                            position, faceUp, faceDown, printed, current), b))
  }

  function GetRelationship(utf8: bool, b: Bytes): Parsed<Relationship> {
    var (kind, b) :- GetRelationshipCode(b);
    var (source, b) :- GetLocator(utf8, b);
    var (target, b) :- GetLocator(utf8, b);
    Some((Relationship(kind, source, target), b))
  }

  function GetLink(utf8: bool, b: Bytes): Parsed<ChainLink> {
    var (index, b) :- GetU32(b);
    var (activatingPlayer, b) :- GetOpt(GetPlayer, b);
    var (source, b) :- GetOpt(LocatorGetter(utf8), b);
    var (activationZone, b) :- GetOpt(GetZoneCode, b);
    var (effectDescription, b) :- GetOpt(GetU64, b);
    var (targets, b) :- GetList(LocatorGetter(utf8), LexLe, b);
    Some((ChainLink(index, activatingPlayer, source, activationZone, effectDescription, targets), b))
  }

  function GetEvent(utf8: bool, b: Bytes): Parsed<VisibleEvent> {
    var (eventIndex, b) :- GetU64(b);
    var (kind, b) :- GetEventKindCode(b);
    var (player, b) :- GetOpt(GetPlayer, b);
    var (entity, b) :- GetOpt(LocatorGetter(utf8), b);
    var (publicPasscode, b) :- GetOpt(GetU32, b);
    var (fromZone, b) :- GetOpt(GetZoneCode, b);
    var (toZone, b) :- GetOpt(GetZoneCode, b);
    var (count, b) :- GetOpt(GetU32, b);
    var (amount, b) :- GetOpt(GetI32, b);
    var (counterType, b) :- GetOpt(GetU32, b);
    var (phase, b) :- GetOpt(GetU32, b);
    var (winner, b) :- GetOpt(GetU8, b);
    var (winReason, b) :- GetOpt(GetU8, b);
    var (effectDescription, b) :- GetOpt(GetU64, b);
    var (targets, b) :- GetList(LocatorGetter(utf8), LexLe, b);
    Some((VisibleEvent(eventIndex, kind, player, entity, publicPasscode, fromZone, toZone, count, amount, counterType,
                       phase, winner, winReason, effectDescription, targets), b))
  }

  function GetDeck(b: Bytes): Parsed<Deck> {
    var (known, b) :- GetBool(b);
    var (mainDeck, b) :- GetList(GetU32, CodeLe, b);
    var (extraDeck, b) :- GetList(GetU32, CodeLe, b);
    if !known && (mainDeck != [] || extraDeck != []) then None else Some((Deck(known, mainDeck, extraDeck), b))
  }

  function GetContext(b: Bytes): Parsed<MatchContext> {
    var (perspectivePlayer, b) :- GetPlayer(b);
    var (duelFlags, b) :- GetU64(b);
    var (ownDecklistKnown, b) :- GetBool(b);
    var (opponentDecklistKnown, b) :- GetBool(b);
    var (ownDeck, b) :- GetDeck(b);
    var (opponentDeck, b) :- GetDeck(b);
    Some((MatchContext(perspectivePlayer, duelFlags, ownDecklistKnown, opponentDecklistKnown, ownDeck, opponentDeck),
      b))
  }

  function GetChain(utf8: bool, b: Bytes): Parsed<ChainState> {
    var (length, b) :- GetU32(b);
    var (links, b) :- GetList(LinkGetter(utf8), AnyLinks, b);
    Some((ChainState(length, links), b))
  }

  function GetHeader(utf8: bool, b: Bytes): Parsed<()> {
    var (first, b) :- GetString(utf8, b);
    if first != Ascii(SCHEMA_ID) then None else
    var (second, b) :- GetString(utf8, b);
    if second != Ascii(SCHEMA_ID) then None else Some(((), b))
  }

  function GetView(utf8: bool, b: Bytes): Parsed<View> {
    var (_, b) :- GetHeader(utf8, b);
    var (globals, b) :- GetGlobals(b);
    var (zones, b) :- GetList(GetZone, ZoneLe, b);
    var (entities, b) :- GetList(CardGetter(utf8), EntityLess, b);
    var (relationships, b) :- GetList(RelationshipGetter(utf8), RelationshipLe, b);
    var (chain, b) :- GetChain(utf8, b);
    var (visibleEvents, b) :- GetList(EventGetter(utf8), EventLess, b);
    var (matchContext, b) :- GetContext(b);
    Some((View(globals, zones, entities, relationships, chain, visibleEvents, matchContext), b))
  }

  function LocatorGetter(utf8: bool): Getter<Bytes> {
    b => GetLocator(utf8, b)
  }

  function CardGetter(utf8: bool): Getter<ObservedCard> {
    b => GetCard(utf8, b)
  }

  function RelationshipGetter(utf8: bool): Getter<Relationship> {
    b => GetRelationship(utf8, b)
  }

  function LinkGetter(utf8: bool): Getter<ChainLink> {
    b => GetLink(utf8, b)
  }

  function EventGetter(utf8: bool): Getter<VisibleEvent> {
    b => GetEvent(utf8, b)
  }
}
