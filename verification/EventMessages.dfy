/** The engine's event messages: how one is read from its frame, and what a player is shown of
    it. The engine's own constants are not part of this model: which byte names which message,
    what zone a location is, which positions are face up. */
module EventMessages {
  import opened Bytes
  import opened SafeState

  datatype Family =
    | NewTurnFamily | NewPhaseFamily | WinFamily | ShuffleDeckFamily | ShuffleCardsFamily | ShuffleSetFamily
    | ReverseDeckFamily | MoveFamily | PositionFamily | SetFamily | SummoningFamily | SummonedFamily | DrawFamily
    | ConfirmFamily | LifePointsFamily | DamageFamily | RecoverFamily | ChainingFamily | ChainedFamily
    | ChainResolvedFamily | ChainEndFamily | TargetsFamily | EquipFamily | UnequipFamily | CardTargetFamily
    | CounterFamily | OtherFamily

  datatype Location = Location(controller: Byte, place: Byte, sequence: U32, position: U32)

  datatype Engine = Engine(
    familyOf: Byte -> Family, zoneOf: (Byte, Byte, U32) -> SemanticZone, faceUp: U32 -> bool, destroyed: U32 -> bool,
    shuffles: Byte -> bool, faceUpPosition: U32, locatorText: (Byte, SemanticZone, U32) -> Bytes)

  datatype CardSeen = CardSeen(code: U32, location: Location)

  datatype CardDrawn = CardDrawn(code: U32, position: U32)

  datatype Message =
    | NewTurn(player: Byte)
    | NewPhase(phase: U16)
    | WinBy(winner: Byte, winReason: Byte)
    | Shuffled(shuffler: Option<Byte>, codes: seq<U32>)
    | Moved(code: U32, from: Location, to: Location, reason: U32)
    | Turned(code: U32, at: Location, oldPosition: U32)
    | Placing(isSet: bool, code: U32, at: Location)
    | Summoned
    | Drawn(player: Byte, cards: seq<CardDrawn>)
    | Confirmed(recipient: Byte, seen: seq<CardSeen>)
    | LifeChanged(player: Byte, amount: I32)
    | Chaining(code: U32, at: Location, player: Byte, description: U64, chainCount: U32)
    | Chained(links: Byte)
    | Resolved(links: Byte)
    | ChainDone
    | Targets(targets: seq<Location>)
    | Related(kind: VisibleEventKind, source: Location, target: Location)
    | Counted(counterType: U16, at: Location, count: U16)
    | NotShown

  // ---------------------------------------------------------------- little-endian fields

  function FromLE(bs: Bytes): (v: nat)
    ensures v < Pow256(|bs|)
  {
    if bs == [] then 0 else bs[0] + 256 * FromLE(bs[1..])
  }

  function GetLE16(b: Bytes): Parsed<U16> {
    WidthFacts();
    if |b| < 2 then None else Some((FromLE(b[..2]), b[2..]))
  }

  function GetLE32(b: Bytes): Parsed<U32> {
    WidthFacts();
    if |b| < 4 then None else Some((FromLE(b[..4]), b[4..]))
  }

  function GetLE64(b: Bytes): Parsed<U64> {
    WidthFacts();
    if |b| < 8 then None else Some((FromLE(b[..8]), b[8..]))
  }

  function Signed(v: U32): I32 {
    I32OfBits(v)
  }

  /** Two's complement: the least value is its own negation. */
  function Negated(v: I32): I32 {
    if v == -0x8000_0000 then v else -v
  }

  function GetLocation(b: Bytes): Parsed<Location> {
    var (controller, b) :- GetU8(b);
    var (place, b) :- GetU8(b);
    var (sequence, b) :- GetLE32(b);
    var (position, b) :- GetLE32(b);
    Some((Location(controller, place, sequence, position), b))
  }

  /** The compact shape: no position field, taken as face up. */
  function GetCompact(engine: Engine, b: Bytes): Parsed<Location> {
    var (controller, b) :- GetU8(b);
    var (place, b) :- GetU8(b);
    var (sequence, b) :- GetLE32(b);
    Some((Location(controller, place, sequence, engine.faceUpPosition), b))
  }

  function GetDrawn(b: Bytes): Parsed<CardDrawn> {
    var (code, b) :- GetLE32(b);
    var (position, b) :- GetLE32(b);
    Some((CardDrawn(code, position), b))
  }

  function GetSeen(engine: Engine, extended: bool, b: Bytes): Parsed<CardSeen> {
    var (code, b) :- GetLE32(b);
    var (location, b) :- if extended then GetLocation(b) else GetCompact(engine, b);
    Some((CardSeen(code, location), b))
  }

  function SeenGetter(engine: Engine, extended: bool): Getter<CardSeen> {
    b => GetSeen(engine, extended, b)
  }

  function Finish(m: Message, b: Bytes): Option<Message> {
    if b == [] then Some(m) else None
  }

  // ---------------------------------------------------------------- one message

  predicate IsZero(l: Location) {
    l.controller == 0 && l.place == 0 && l.sequence == 0 && l.position == 0
  }

  predicate PreviousOk(place: Byte, player: Byte, ls: seq<Location>) {
    forall i :: 0 <= i < |ls| ==> ls[i].controller == player <= 1 && ls[i].place == place
  }

  predicate CurrentOk(place: Byte, player: Byte, ls: seq<Location>) {
    forall i :: 0 <= i < |ls| ==> IsZero(ls[i]) || (ls[i].controller == player <= 1 && ls[i].place == place)
  }

  function ParseShuffleSet(engine: Engine, b: Bytes): Option<Message> {
    var (place, b) :- GetU8(b);
    var (count, b) :- GetU8(b);
    if !engine.shuffles(place) || count == 0 then None else
    var (previous, b) :- GetMany(GetLocation, count, b);
    if previous == [] || !PreviousOk(place, previous[0].controller, previous) then None else
    var (current, b) :- GetMany(GetLocation, count, b);
    if !CurrentOk(place, previous[0].controller, current) then None else
    Finish(Shuffled(Some(previous[0].controller), []), b)
  }

  function ParseShuffleCards(b: Bytes): Option<Message> {
    var (player, b) :- GetU8(b);
    var (count, b) :- GetLE32(b);
    var (codes, b) :- GetMany(GetLE32, count, b);
    Finish(Shuffled(Some(player), codes), b)
  }

  function ParseMove(b: Bytes): Option<Message> {
    var (code, b) :- GetLE32(b);
    var (from, b) :- GetLocation(b);
    var (to, b) :- GetLocation(b);
    var (reason, b) :- GetLE32(b);
    Finish(Moved(code, from, to, reason), b)
  }

  function ParsePosition(b: Bytes): Option<Message> {
    var (code, b) :- GetLE32(b);
    var (controller, b) :- GetU8(b);
    var (place, b) :- GetU8(b);
    var (sequence, b) :- GetU8(b);
    var (oldPosition, b) :- GetU8(b);
    var (newPosition, b) :- GetU8(b);
    Finish(Turned(code, Location(controller, place, sequence, newPosition), oldPosition), b)
  }

  function ParsePlacing(isSet: bool, b: Bytes): Option<Message> {
    var (code, b) :- GetLE32(b);
    var (location, b) :- GetLocation(b);
    Finish(Placing(isSet, code, location), b)
  }

  function ParseDraw(b: Bytes): Option<Message> {
    var (player, b) :- GetU8(b);
    var (count, b) :- GetLE32(b);
    var (cards, b) :- GetMany(GetDrawn, count, b);
    Finish(Drawn(player, cards), b)
  }

  const EXTENDED: nat := 14
  const COMPACT: nat := 10

  /** The size of the payload decides the shape of its entries. */
  function ParseConfirm(engine: Engine, b: Bytes): Option<Message> {
    var (recipient, b) :- GetU8(b);
    var (count, b) :- GetLE32(b);
    if |b| != count * EXTENDED && |b| != count * COMPACT then None else
    var (seen, b) :- GetMany(SeenGetter(engine, count > 0 && |b| == count * EXTENDED), count, b);
    Finish(Confirmed(recipient, seen), b)
  }

  function ParseLife(negated: bool, b: Bytes): Option<Message> {
    var (player, b) :- GetU8(b);
    var (amount, b) :- GetLE32(b);
    Finish(LifeChanged(player, if negated then Negated(Signed(amount)) else Signed(amount)), b)
  }

  function ParseChaining(b: Bytes): Option<Message> {
    var (code, b) :- GetLE32(b);
    var (location, b) :- GetLocation(b);
    var (player, b) :- GetU8(b);
    var (_, b) :- GetU8(b);
    var (_, b) :- GetLE32(b);
    var (description, b) :- GetLE64(b);
    var (chainCount, b) :- GetLE32(b);
    Finish(Chaining(code, location, player, description, chainCount), b)
  }

  function ParseTargets(b: Bytes): Option<Message> {
    var (count, b) :- GetLE32(b);
    var (targets, b) :- GetMany(GetLocation, count, b);
    Finish(Targets(targets), b)
  }

  function ParseRelated(kind: VisibleEventKind, b: Bytes): Option<Message> {
    var (source, b) :- GetLocation(b);
    var (target, b) :- GetLocation(b);
    Finish(Related(kind, source, target), b)
  }

  function ParseCounter(engine: Engine, b: Bytes): Option<Message> {
    var (counterType, b) :- GetLE16(b);
    var (controller, b) :- GetU8(b);
    var (place, b) :- GetU8(b);
    var (sequence, b) :- GetU8(b);
    var (count, b) :- GetLE16(b);
    Finish(Counted(counterType, Location(controller, place, sequence, engine.faceUpPosition), count), b)
  }

  function ParseByte(make: Byte -> Message, b: Bytes): Option<Message> {
    var (v, b) :- GetU8(b);
    Finish(make(v), b)
  }

  function ParseWin(b: Bytes): Option<Message> {
    var (winner, b) :- GetU8(b);
    var (reason, b) :- GetU8(b);
    Finish(WinBy(winner, reason), b)
  }

  function ParsePhase(b: Bytes): Option<Message> {
    var (phase, b) :- GetLE16(b);
    Finish(NewPhase(phase), b)
  }

  function ParseBody(engine: Engine, family: Family, b: Bytes): Option<Message> {
    match family
    case NewTurnFamily => ParseByte((v: Byte) => NewTurn(v), b)
    case NewPhaseFamily => ParsePhase(b)
    case WinFamily => ParseWin(b)
    case ShuffleDeckFamily => ParseByte((v: Byte) => Shuffled(Some(v), []), b)
    case ShuffleCardsFamily => ParseShuffleCards(b)
    case ShuffleSetFamily => ParseShuffleSet(engine, b)
    case ReverseDeckFamily => Finish(Shuffled(None, []), b)
    case MoveFamily => ParseMove(b)
    case PositionFamily => ParsePosition(b)
    case SetFamily => ParsePlacing(true, b)
    case SummoningFamily => ParsePlacing(false, b)
    case SummonedFamily => Finish(Message.Summoned, b)
    case DrawFamily => ParseDraw(b)
    case ConfirmFamily => ParseConfirm(engine, b)
    case LifePointsFamily => ParseLife(false, b)
    case DamageFamily => ParseLife(true, b)
    case RecoverFamily => ParseLife(false, b)
    case ChainingFamily => ParseChaining(b)
    case ChainedFamily => ParseByte((v: Byte) => Chained(v), b)
    case ChainResolvedFamily => ParseByte((v: Byte) => Resolved(v), b)
    case ChainEndFamily => Finish(ChainDone, b)
    case TargetsFamily => ParseTargets(b)
    case EquipFamily => ParseRelated(Equipped, b)
    case UnequipFamily => ParseRelated(Unequipped, b)
    case CardTargetFamily => ParseRelated(Targeted, b)
    case CounterFamily => ParseCounter(engine, b)
    case OtherFamily => Some(NotShown)
  }

  /** One frame: a type byte and a body of that type, nothing left over. */
  function Parse(engine: Engine, frame: Bytes): Option<Message> {
    var (kind, b) :- GetU8(frame);
    ParseBody(engine, engine.familyOf(kind), b)
  }

  // ---------------------------------------------------------------- what is shown

  function Blank(kind: VisibleEventKind): VisibleEvent {
    VisibleEvent(0, kind, None, None, None, None, None, None, None, None, None, None, None, None, [])
  }

  function ZoneAt(engine: Engine, l: Location): SemanticZone {
    engine.zoneOf(l.place, l.controller, l.sequence)
  }

  predicate IdentityVisible(engine: Engine, l: Location, code: U32) {
    code != 0 && l.controller != 2 && engine.faceUp(l.position)
  }

  function SafeLocator(engine: Engine, l: Location, perspective: Byte, revealed: bool): Option<Bytes> {
    var zone := ZoneAt(engine, l);
    if zone == MainDeck || (zone == Hand && l.controller != perspective && !revealed) then None
    else if zone == ExtraDeck && !revealed && l.controller != perspective && !engine.faceUp(l.position) then None
    else Some(engine.locatorText(l.controller, zone, l.sequence))
  }

  function MoveKind(engine: Engine, from: Location, to: Location, reason: U32): VisibleEventKind {
    if ZoneAt(engine, to) == Banished then CardBanished
    else if ZoneAt(engine, to) == Graveyard && engine.destroyed(reason) then CardDestroyed
    else if ZoneAt(engine, from) == Banished || ZoneAt(engine, from) == Graveyard then CardReturned
    else CardMoved
  }

  function CodeIf(shown: bool, code: U32): Option<U32> {
    if shown then Some(code) else None
  }

  function DrawnShown(engine: Engine, perspective: Byte, player: Byte, cards: seq<CardDrawn>): seq<VisibleEvent> {
    if cards == [] then []
    else
      var last := cards[|cards| - 1];
      DrawnShown(engine, perspective, player, cards[..|cards| - 1])
      + if player == perspective || engine.faceUp(last.position) then
          [Blank(CardRevealed).(player := Some(player), publicPasscode := Some(last.code))]
        else []
  }

  function SeenShown(engine: Engine, perspective: Byte, recipient: Byte, c: CardSeen): VisibleEvent {
    var e := Blank(CardRevealed).(player := Some(c.location.controller), toZone := Some(ZoneAt(engine, c.location)));
    if recipient == perspective then
      e.(publicPasscode := Some(c.code), entity := SafeLocator(engine, c.location, perspective, true))
    else e
  }

  function AllSeenShown(engine: Engine, perspective: Byte, recipient: Byte, cs: seq<CardSeen>): (es: seq<VisibleEvent>)
    ensures |es| == |cs|
  {
    seq(|cs|, i requires 0 <= i < |cs| => SeenShown(engine, perspective, recipient, cs[i]))
  }

  function LocatorsShown(engine: Engine, perspective: Byte, ls: seq<Location>): seq<Bytes> {
    if ls == [] then []
    else
      var locator := SafeLocator(engine, ls[|ls| - 1], perspective, false);
      LocatorsShown(engine, perspective, ls[..|ls| - 1]) + if locator.Some? then [locator.value] else []
  }

  /** The events a player sees of one message; indices are given afterwards. */
  function Show(engine: Engine, perspective: Byte, m: Message): seq<VisibleEvent> {
    match m
    case NewTurn(player) => [Blank(TurnStarted).(player := Some(player))]
    case NewPhase(phase) => [Blank(PhaseChanged).(phase := Some(phase))]
    case WinBy(winner, reason) => [Blank(Win).(winner := Some(winner), winReason := Some(reason))]
    case Shuffled(player, _) =>
      [Blank(Shuffle).(player := player), Blank(RandomizationBoundary).(player := player, count := Some(0))]
    case Moved(code, from, to, reason) =>
      [Blank(MoveKind(engine, from, to, reason)).(
        player := Some(to.controller), fromZone := Some(ZoneAt(engine, from)), toZone := Some(ZoneAt(engine, to)),
        publicPasscode := CodeIf(IdentityVisible(engine, from, code) || IdentityVisible(engine, to, code), code),
        entity := SafeLocator(engine, to, perspective, false))]
    case Turned(code, at, oldPosition) =>
      [Blank(PositionChanged).(
        player := Some(at.controller), toZone := Some(ZoneAt(engine, at)),
        publicPasscode := CodeIf(
          IdentityVisible(engine, at, code) || engine.faceUp(oldPosition) || engine.faceUp(at.position), code),
        entity := SafeLocator(engine, at, perspective, false))]
    case Placing(isSet, code, at) =>
      [Blank(if isSet then VisibleEventKind.Set else VisibleEventKind.Summoned).(
        player := Some(at.controller), toZone := Some(ZoneAt(engine, at)),
        publicPasscode := CodeIf(IdentityVisible(engine, at, code), code),
        entity := SafeLocator(engine, at, perspective, false))]
    case Summoned => [Blank(VisibleEventKind.Summoned)]
    case Drawn(player, cards) =>
      [Blank(Draw).(player := Some(player), count := Some(|cards| % 0x1_0000_0000))]
      + DrawnShown(engine, perspective, player, cards)
    case Confirmed(recipient, seen) => AllSeenShown(engine, perspective, recipient, seen)
    case LifeChanged(player, amount) => [Blank(LifePointsChanged).(player := Some(player), amount := Some(amount))]
    case Chaining(code, at, player, description, chainCount) =>
      var visible := IdentityVisible(engine, at, code);
      [Blank(ChainActivated).(
        player := Some(player), toZone := Some(ZoneAt(engine, at)), count := Some(chainCount),
        publicPasscode := CodeIf(visible, code), effectDescription := if visible then Some(description) else None,
        entity := SafeLocator(engine, at, perspective, false))]
    case Chained(links) => [Blank(ChainActivated).(count := Some(links))]
    case Resolved(links) => [Blank(ChainResolved).(count := Some(links))]
    case ChainDone => [Blank(ChainEnded)]
    case Targets(targets) => [Blank(Targeted).(targets := LocatorsShown(engine, perspective, targets))]
    case Related(kind, source, target) =>
      [Blank(kind).(
        player := Some(source.controller), entity := SafeLocator(engine, source, perspective, false),
        targets := LocatorsShown(engine, perspective, [target]))]
    case Counted(counterType, at, count) =>
      [Blank(CounterChanged).(
        counterType := Some(counterType), player := Some(at.controller), amount := Some(count),
        entity := SafeLocator(engine, at, perspective, false))]
    case NotShown => []
  }

  // ---------------------------------------------------------------- a card that turned

  /** The rule every other event of a single located card follows fails for a card that turned:
      its code is shown exactly when either face is up, whatever the code and the controller. So
      a position change shows what a placing or chaining of the same card there shows exactly
      when neither face is up, or the new face is, the code is not zero and the controller is
      not 2. */
  lemma TurnedCodeShown(engine: Engine, perspective: Byte, isSet: bool, code: U32, at: Location, oldPosition: U32,
                        player: Byte, description: U64, links: U32)
    ensures var turned := Show(engine, perspective, Turned(code, at, oldPosition))[0].publicPasscode;
      && (turned.Some? <==> engine.faceUp(oldPosition) || engine.faceUp(at.position))
      && (turned.Some? ==> turned == Some(code))
      && (turned == Show(engine, perspective, Placing(isSet, code, at))[0].publicPasscode <==>
            || (!engine.faceUp(oldPosition) && !engine.faceUp(at.position))
            || (engine.faceUp(at.position) && code != 0 && at.controller != 2))
    ensures Show(engine, perspective, Placing(isSet, code, at))[0].publicPasscode
         == Show(engine, perspective, Chaining(code, at, player, description, links))[0].publicPasscode
  {
  }

  /** An engine with one face-up position. */
  const UPRIGHT := Engine((b: Byte) => OtherFamily, (p: Byte, c: Byte, s: U32) => MonsterZone,
    (position: U32) => position == 1,
    (reason: U32) => false, (place: Byte) => false, 1, (p: Byte, z: SemanticZone, s: U32) => [0x70])

  /** The three ways it fails: a zero code, a controller out of play, a card just turned down. */
  lemma TurnedCodeFails(perspective: Byte)
    ensures Show(UPRIGHT, perspective, Turned(0, Location(0, 4, 0, 1), 1))[0].publicPasscode == Some(0)
    ensures Show(UPRIGHT, perspective, Placing(true, 0, Location(0, 4, 0, 1)))[0].publicPasscode == None
    ensures Show(UPRIGHT, perspective, Turned(5, Location(2, 4, 0, 1), 1))[0].publicPasscode == Some(5)
    ensures Show(UPRIGHT, perspective, Placing(true, 5, Location(2, 4, 0, 1)))[0].publicPasscode == None
    ensures Show(UPRIGHT, perspective, Turned(5, Location(0, 4, 0, 2), 1))[0].publicPasscode == Some(5)
    ensures Show(UPRIGHT, perspective, Placing(true, 5, Location(0, 4, 0, 2)))[0].publicPasscode == None
  {
  }

  // ---------------------------------------------------------------- what is not

  /** A face-up card's code is everyone's; any other code is nobody's, except in a draw, where
      it is the drawer's, and in a confirmation, where it is the recipient's. */
  predicate CodePublic(engine: Engine, l: Location) {
    l.controller != 2 && engine.faceUp(l.position)
  }

  /** The card is not to be placed: it is in a main deck, in the hand of another, or face down
      in the extra deck of another. */
  predicate Concealed(engine: Engine, perspective: Byte, l: Location) {
    var zone := engine.zoneOf(l.place, l.controller, l.sequence);
    || zone == MainDeck
    || (l.controller != perspective && (zone == Hand || (zone == ExtraDeck && !engine.faceUp(l.position))))
  }

  /** Without its sequence, unless the zone hangs on it. */
  function Unplaced(engine: Engine, l: Location): (r: Location)
    ensures ZoneAt(engine, r) == ZoneAt(engine, l)
  {
    if ZoneAt(engine, l.(sequence := 0)) == ZoneAt(engine, l) then l.(sequence := 0) else l
  }

  /** Without its position, unless that is face up. */
  function Unturned(engine: Engine, l: Location): (r: Location)
    ensures engine.faceUp(r.position) == engine.faceUp(l.position)
  {
    if engine.faceUp(l.position) || engine.faceUp(0) then l else l.(position := 0)
  }

  /** A location as far as the player may learn it. */
  function HideAt(engine: Engine, perspective: Byte): Location -> Location {
    (l: Location) => if Concealed(engine, perspective, l) then Unturned(engine, Unplaced(engine, l)) else l
  }

  function HideDrawn(engine: Engine, perspective: Byte, player: Byte): CardDrawn -> CardDrawn {
    (c: CardDrawn) => if player == perspective || engine.faceUp(c.position) then c else c.(code := 0)
  }

  function HideSeen(engine: Engine, perspective: Byte, recipient: Byte): CardSeen -> CardSeen {
    (c: CardSeen) =>
      if recipient != perspective then CardSeen(0, Unplaced(engine, c.location).(position := 0))
      else if ZoneAt(engine, c.location) == MainDeck then c.(location := Unplaced(engine, c.location).(position := 0))
      else c.(location := c.location.(position := 0))
  }

  /** The locations among these that are not concealed. */
  function Apparent(engine: Engine, perspective: Byte, ls: seq<Location>): seq<Location> {
    if ls == [] then []
    else
      var last := ls[|ls| - 1];
      Apparent(engine, perspective, ls[..|ls| - 1]) + if Concealed(engine, perspective, last) then [] else [last]
  }

  /** The message with everything blanked that the player is not to learn: codes of cards not
      face up, the description of a link not face up, all codes of a shuffle, places of
      concealed cards, where a moved card was, and concealed targets altogether. */
  function Hide(engine: Engine, perspective: Byte, m: Message): Message {
    var at := HideAt(engine, perspective);
    match m
    case Shuffled(player, codes) => Shuffled(player, [])
    case Moved(code, from, to, reason) =>
      var shown := if CodePublic(engine, from) || CodePublic(engine, to) then code else 0;
      Moved(shown, Unturned(engine, Unplaced(engine, from)), at(to), reason)
    case Turned(code, l, oldPosition) =>
      Turned(if engine.faceUp(oldPosition) || engine.faceUp(l.position) then code else 0, at(l), oldPosition)
    case Placing(isSet, code, l) => Placing(isSet, if CodePublic(engine, l) then code else 0, at(l))
    case Drawn(player, cards) => Drawn(player, MapCards(HideDrawn(engine, perspective, player), cards))
    case Confirmed(recipient, seen) => Confirmed(recipient, MapCards(HideSeen(engine, perspective, recipient), seen))
    case Chaining(code, l, player, description, chainCount) =>
      if CodePublic(engine, l) && code != 0 then Chaining(code, at(l), player, description, chainCount)
      else Chaining(0, at(l), player, 0, chainCount)
    case Targets(targets) => Targets(Apparent(engine, perspective, targets))
    case Related(kind, source, target) => Related(kind, at(source), at(target))
    case Counted(counterType, l, count) => Counted(counterType, at(l), count)
    case _ => m
  }

  /** Where zones of concealed cards do not hang on the sequence, and position zero is face
      down, as in the engine at hand, nothing is left of a concealed face-down card's place. */
  lemma ConcealedIsBlank(engine: Engine, perspective: Byte, l: Location)
    requires forall p, c, s, t :: engine.zoneOf(p, c, s) in {MainDeck, Hand, ExtraDeck} ==>
      engine.zoneOf(p, c, s) == engine.zoneOf(p, c, t)
    requires !engine.faceUp(0) && Concealed(engine, perspective, l) && !engine.faceUp(l.position)
    ensures HideAt(engine, perspective)(l) == Location(l.controller, l.place, 0, 0)
  {
    assert engine.zoneOf(l.place, l.controller, l.sequence) == engine.zoneOf(l.place, l.controller, 0);
  }

  function MapCards<T>(f: T -> T, xs: seq<T>): (ys: seq<T>)
    ensures |ys| == |xs| && forall i :: 0 <= i < |xs| ==> ys[i] == f(xs[i])
  {
    seq(|xs|, i requires 0 <= i < |xs| => f(xs[i]))
  }

  lemma {:induction false} DrawnHidden(engine: Engine, perspective: Byte, player: Byte, cards: seq<CardDrawn>)
    ensures DrawnShown(engine, perspective, player, MapCards(HideDrawn(engine, perspective, player), cards))
         == DrawnShown(engine, perspective, player, cards)
  {
    if cards != [] {
      var init := cards[..|cards| - 1];
      DrawnHidden(engine, perspective, player, init);
      var hidden := MapCards(HideDrawn(engine, perspective, player), cards);
      assert hidden[..|cards| - 1] == MapCards(HideDrawn(engine, perspective, player), init);
    }
  }

  lemma {:induction false} ApparentShown(engine: Engine, perspective: Byte, ls: seq<Location>)
    ensures LocatorsShown(engine, perspective, Apparent(engine, perspective, ls))
         == LocatorsShown(engine, perspective, ls)
  {
    if ls != [] {
      var init, last := ls[..|ls| - 1], ls[|ls| - 1];
      ApparentShown(engine, perspective, init);
      var kept := Apparent(engine, perspective, init);
      assert (kept + [last])[..|kept|] == kept;
      assert kept + [] == kept;
    }
  }

  lemma HiddenPlace(engine: Engine, perspective: Byte, l: Location)
    ensures var h := HideAt(engine, perspective)(l);
      && h.controller == l.controller && ZoneAt(engine, h) == ZoneAt(engine, l)
      && SafeLocator(engine, h, perspective, false) == SafeLocator(engine, l, perspective, false)
      && engine.faceUp(h.position) == engine.faceUp(l.position)
  {
  }

  /** What is hidden plays no part in what is shown. */
  lemma HiddenIsNotShown(engine: Engine, perspective: Byte, m: Message)
    ensures Show(engine, perspective, Hide(engine, perspective, m)) == Show(engine, perspective, m)
  {
    hide HideAt, SafeLocator;
    match m
    case Moved(code, from, to, reason) =>
      HiddenPlace(engine, perspective, to);
    case Turned(code, l, oldPosition) =>
      HiddenPlace(engine, perspective, l);
    case Placing(isSet, code, l) =>
      HiddenPlace(engine, perspective, l);
    case Drawn(player, cards) =>
      hide DrawnShown;
      DrawnHidden(engine, perspective, player, cards);
    case Confirmed(recipient, seen) =>
      SeenHidden(engine, perspective, recipient, seen);
    case Chaining(code, l, player, description, chainCount) =>
      HiddenPlace(engine, perspective, l);
    case Targets(targets) =>
      ApparentShown(engine, perspective, targets);
    case Related(kind, source, target) =>
      HiddenPlace(engine, perspective, source);
      HiddenPlace(engine, perspective, target);
    case Counted(counterType, l, count) =>
      HiddenPlace(engine, perspective, l);
    case _ =>
  }

  lemma SeenHidden(engine: Engine, perspective: Byte, recipient: Byte, seen: seq<CardSeen>)
    ensures AllSeenShown(engine, perspective, recipient, MapCards(HideSeen(engine, perspective, recipient), seen))
         == AllSeenShown(engine, perspective, recipient, seen)
  {
    forall c: CardSeen
      ensures SeenShown(engine, perspective, recipient, HideSeen(engine, perspective, recipient)(c))
           == SeenShown(engine, perspective, recipient, c)
    {
    }
    hide SeenShown, HideSeen;
  }
}
