/** The bytes of event messages, written: which body spells which message, and that reading a
    body is finding the message it spells. */
module EventWire {
  import opened Bytes
  import opened SafeState
  import opened EventMessages
  import opened EventStreams

  // ---------------------------------------------------------------- little-endian integers

  /** The low `n` bytes of `v`, least significant first. */
  function ToLE(v: nat, n: nat): (bs: Bytes)
    ensures |bs| == n
  {
    if n == 0 then [] else [v % 256] + ToLE(v / 256, n - 1)
  }

  lemma {:induction false} FromToLE(v: nat, n: nat)
    requires v < Pow256(n)
    ensures FromLE(ToLE(v, n)) == v
  {
    if n > 0 {
      assert ToLE(v, n)[1..] == ToLE(v / 256, n - 1);
      FromToLE(v / 256, n - 1);
    }
  }

  lemma {:induction false} ToFromLE(bs: Bytes)
    ensures ToLE(FromLE(bs), |bs|) == bs
  {
    if bs != [] {
      var high := FromLE(bs[1..]);
      assert FromLE(bs) == bs[0] + 256 * high;
      assert FromLE(bs) % 256 == bs[0] && FromLE(bs) / 256 == high;
      ToFromLE(bs[1..]);
      assert bs == [bs[0]] + bs[1..];
    }
  }

  function PutLE16(v: U16, k: Bytes): Bytes {
    ToLE(v, 2) + k
  }

  function PutLE32(v: U32, k: Bytes): Bytes {
    ToLE(v, 4) + k
  }

  function PutLE64(v: U64, k: Bytes): Bytes {
    ToLE(v, 8) + k
  }

  /** Written, they are read back whatever follows; and they are read only from what is written. */
  lemma LittleRead()
    ensures forall v: U16, k {:trigger PutLE16(v, k)} :: GetLE16(PutLE16(v, k)) == Some((v, k))
    ensures forall v: U32, k {:trigger PutLE32(v, k)} :: GetLE32(PutLE32(v, k)) == Some((v, k))
    ensures forall v: U64, k {:trigger PutLE64(v, k)} :: GetLE64(PutLE64(v, k)) == Some((v, k))
    ensures forall b {:trigger GetLE16(b)} :: GetLE16(b).Some? ==>
      b == PutLE16(GetLE16(b).value.0, GetLE16(b).value.1) && |b| == 2 + |GetLE16(b).value.1|
    ensures forall b {:trigger GetLE32(b)} :: GetLE32(b).Some? ==>
      b == PutLE32(GetLE32(b).value.0, GetLE32(b).value.1) && |b| == 4 + |GetLE32(b).value.1|
    ensures forall b {:trigger GetLE64(b)} :: GetLE64(b).Some? ==>
      b == PutLE64(GetLE64(b).value.0, GetLE64(b).value.1) && |b| == 8 + |GetLE64(b).value.1|
  {
    WidthFacts();
    forall v: U16, k ensures GetLE16(PutLE16(v, k)) == Some((v, k)) {
      FromToLE(v, 2);
      assert PutLE16(v, k)[..2] == ToLE(v, 2) && PutLE16(v, k)[2..] == k;
    }
    forall v: U32, k ensures GetLE32(PutLE32(v, k)) == Some((v, k)) {
      FromToLE(v, 4);
      assert PutLE32(v, k)[..4] == ToLE(v, 4) && PutLE32(v, k)[4..] == k;
    }
    forall v: U64, k ensures GetLE64(PutLE64(v, k)) == Some((v, k)) {
      FromToLE(v, 8);
      assert PutLE64(v, k)[..8] == ToLE(v, 8) && PutLE64(v, k)[8..] == k;
    }
    forall b: Bytes | GetLE16(b).Some? ensures b == PutLE16(GetLE16(b).value.0, GetLE16(b).value.1) {
      ToFromLE(b[..2]);
    }
    forall b: Bytes | GetLE32(b).Some? ensures b == PutLE32(GetLE32(b).value.0, GetLE32(b).value.1) {
      ToFromLE(b[..4]);
    }
    forall b: Bytes | GetLE64(b).Some? ensures b == PutLE64(GetLE64(b).value.0, GetLE64(b).value.1) {
      ToFromLE(b[..8]);
    }
    hide ToLE, FromLE;
  }

  lemma LittleLaws()
    ensures Lawful(AnyOk, PutLE32, GetLE32, 4)
  {
    LittleRead();
    hide PutLE32, GetLE32;
  }

  // ---------------------------------------------------------------- parts of a body

  function PutLocation(l: Location, k: Bytes): Bytes {
    PutU8(l.controller, PutU8(l.place, PutLE32(l.sequence, PutLE32(l.position, k))))
  }

  function PutDrawn(c: CardDrawn, k: Bytes): Bytes {
    PutLE32(c.code, PutLE32(c.position, k))
  }

  /** A confirmed card in either shape; the compact one has no position. */
  function PutSeen(extended: bool): Putter<CardSeen> {
    (c: CardSeen, k: Bytes) =>
      if extended then PutLE32(c.code, PutLocation(c.location, k))
      else PutLE32(c.code, PutU8(c.location.controller, PutU8(c.location.place, PutLE32(c.location.sequence, k))))
  }

  predicate FacesUp(engine: Engine, c: CardSeen) {
    c.location.position == engine.faceUpPosition
  }

  function SeenRule(engine: Engine, extended: bool): CardSeen -> bool {
    (c: CardSeen) => extended || FacesUp(engine, c)
  }

  lemma LocationRead()
    ensures forall l, k {:trigger PutLocation(l, k)} :: GetLocation(PutLocation(l, k)) == Some((l, k))
    ensures forall b {:trigger GetLocation(b)} :: GetLocation(b).Some? ==>
      && b == PutLocation(GetLocation(b).value.0, GetLocation(b).value.1)
      && |b| == 10 + |GetLocation(b).value.1|
  {
    LittleRead();
    FieldsComplete();
    hide PutU8, GetU8, PutLE32, GetLE32;
  }

  lemma LocationLaws()
    ensures Lawful(AnyOk, PutLocation, GetLocation, 10)
  {
    LocationRead();
    hide PutLocation, GetLocation;
  }

  lemma DrawnLaws()
    ensures Lawful(AnyOk, PutDrawn, GetDrawn, 8)
  {
    LittleRead();
    hide PutLE32, GetLE32;
  }

  lemma SeenLaws(engine: Engine, extended: bool)
    ensures Lawful(SeenRule(engine, extended), PutSeen(extended), SeenGetter(engine, extended),
              if extended then EXTENDED else COMPACT)
  {
    LittleRead();
    FieldsComplete();
    LocationRead();
    hide PutU8, GetU8, PutLE32, GetLE32, PutLocation, GetLocation;
  }

  // ---------------------------------------------------------------- bodies

  ghost predicate SpellsShuffleCards(m: Message, b: Bytes) {
    && m.Shuffled? && m.shuffler.Some? && |m.codes| <= U32_MAX
    && b == PutU8(m.shuffler.value, PutLE32(|m.codes|, PutMany(PutLE32, m.codes, [])))
  }

  /** The places of a shuffle, then and now. */
  function PutPlaces(previous: seq<Location>, current: seq<Location>): Bytes {
    PutMany(PutLocation, previous, PutMany(PutLocation, current, []))
  }

  /** Where cards were and where they are now: of one player, at one shuffled place. */
  ghost predicate SpellsShuffleSet(engine: Engine, m: Message, b: Bytes) {
    && m.Shuffled? && m.shuffler.Some? && m.codes == []
    && exists place: Byte, previous: seq<Location>, current: seq<Location> ::
         && engine.shuffles(place) && 0 < |previous| == |current| <= 0xFF
         && PreviousOk(place, m.shuffler.value, previous) && CurrentOk(place, m.shuffler.value, current)
         && b == PutU8(place, PutU8(|previous|, PutPlaces(previous, current)))
  }

  ghost predicate SpellsDraw(m: Message, b: Bytes) {
    && m.Drawn? && |m.cards| <= U32_MAX
    && b == PutU8(m.player, PutLE32(|m.cards|, PutMany(PutDrawn, m.cards, [])))
  }

  ghost predicate SpellsConfirm(engine: Engine, m: Message, b: Bytes) {
    && m.Confirmed? && |m.seen| <= U32_MAX
    && exists extended: bool ::
         && AllOk(SeenRule(engine, extended), m.seen)
         && b == PutU8(m.recipient, PutLE32(|m.seen|, PutMany(PutSeen(extended), m.seen, [])))
  }

  ghost predicate SpellsChaining(m: Message, b: Bytes) {
    && m.Chaining?
    && exists place: Byte, sequence: U32 :: b == PutLE32(m.code, PutLocation(m.at, PutU8(m.player, PutU8(place,
         PutLE32(sequence, PutLE64(m.description, PutLE32(m.chainCount, [])))))))
  }

  ghost predicate SpellsTargets(m: Message, b: Bytes) {
    && m.Targets? && |m.targets| <= U32_MAX && b == PutLE32(|m.targets|, PutMany(PutLocation, m.targets, []))
  }

  predicate SpellsRelated(kind: VisibleEventKind, m: Message, b: Bytes) {
    m.Related? && m.kind == kind && b == PutLocation(m.source, PutLocation(m.target, []))
  }

  /** Damage takes away what it says, with the least amount its own negative. */
  predicate SpellsLife(taken: bool, m: Message, b: Bytes) {
    && m.LifeChanged?
    && b == PutU8(m.player, PutLE32(BitsOfI32(if taken then Negated(m.amount) else m.amount), []))
  }

  predicate SpellsMove(m: Message, b: Bytes) {
    m.Moved? && b == PutLE32(m.code, PutLocation(m.from, PutLocation(m.to, PutLE32(m.reason, []))))
  }

  predicate SpellsPosition(m: Message, b: Bytes) {
    && m.Turned? && m.at.sequence <= 0xFF && m.oldPosition <= 0xFF && m.at.position <= 0xFF
    && b == PutLE32(m.code, PutU8(m.at.controller, PutU8(m.at.place, PutU8(m.at.sequence, PutU8(m.oldPosition,
         PutU8(m.at.position, []))))))
  }

  predicate SpellsPlacing(isSet: bool, m: Message, b: Bytes) {
    m.Placing? && m.isSet == isSet && b == PutLE32(m.code, PutLocation(m.at, []))
  }

  predicate SpellsCounter(engine: Engine, m: Message, b: Bytes) {
    && m.Counted? && m.at.sequence <= 0xFF && m.at.position == engine.faceUpPosition
    && b == PutLE16(m.counterType, PutU8(m.at.controller, PutU8(m.at.place, PutU8(m.at.sequence,
         PutLE16(m.count, [])))))
  }

  /** A body of a family spells a message. */
  ghost predicate Spells(engine: Engine, family: Family, m: Message, b: Bytes) {
    match family
    case NewTurnFamily => m.NewTurn? && b == PutU8(m.player, [])
    case NewPhaseFamily => m.NewPhase? && b == PutLE16(m.phase, [])
    case WinFamily => m.WinBy? && b == PutU8(m.winner, PutU8(m.winReason, []))
    case ShuffleDeckFamily => m.Shuffled? && m.shuffler.Some? && m.codes == [] && b == PutU8(m.shuffler.value, [])
    case ShuffleCardsFamily => SpellsShuffleCards(m, b)
    case ShuffleSetFamily => SpellsShuffleSet(engine, m, b)
    case ReverseDeckFamily => m == Shuffled(None, []) && b == []
    case MoveFamily => SpellsMove(m, b)
    case PositionFamily => SpellsPosition(m, b)
    case SetFamily => SpellsPlacing(true, m, b)
    case SummoningFamily => SpellsPlacing(false, m, b)
    case SummonedFamily => m == Message.Summoned && b == []
    case DrawFamily => SpellsDraw(m, b)
    case ConfirmFamily => SpellsConfirm(engine, m, b)
    case LifePointsFamily => SpellsLife(false, m, b)
    case DamageFamily => SpellsLife(true, m, b)
    case RecoverFamily => SpellsLife(false, m, b)
    case ChainingFamily => SpellsChaining(m, b)
    case ChainedFamily => m.Chained? && b == PutU8(m.links, [])
    case ChainResolvedFamily => m.Resolved? && b == PutU8(m.links, [])
    case ChainEndFamily => m == ChainDone && b == []
    case TargetsFamily => SpellsTargets(m, b)
    case EquipFamily => SpellsRelated(Equipped, m, b)
    case UnequipFamily => SpellsRelated(Unequipped, m, b)
    case CardTargetFamily => SpellsRelated(Targeted, m, b)
    case CounterFamily => SpellsCounter(engine, m, b)
    case OtherFamily => m == NotShown
  }

  // ---------------------------------------------------------------- reading is spelling backwards

  lemma ShuffleCardsRead(m: Message, b: Bytes)
    ensures ParseShuffleCards(b) == Some(m) <==> SpellsShuffleCards(m, b)
  {
    LittleLaws();
    FieldLaws();
    hide PutU8, GetU8, PutLE32, GetLE32;
    if SpellsShuffleCards(m, b) {
      ManyComplete(AnyOk, PutLE32, GetLE32, m.codes, []);
    }
    if ParseShuffleCards(b) == Some(m) {
      var (player, b1) := GetU8(b).value;
      var (count, b2) := GetLE32(b1).value;
      ManySound(AnyOk, PutLE32, GetLE32, count, b2);
    }
  }

  lemma DrawRead(m: Message, b: Bytes)
    ensures ParseDraw(b) == Some(m) <==> SpellsDraw(m, b)
  {
    LittleLaws();
    FieldLaws();
    DrawnLaws();
    hide PutU8, GetU8, PutLE32, GetLE32, PutDrawn, GetDrawn;
    if SpellsDraw(m, b) {
      ManyComplete(AnyOk, PutDrawn, GetDrawn, m.cards, []);
    }
    if ParseDraw(b) == Some(m) {
      var (player, b1) := GetU8(b).value;
      var (count, b2) := GetLE32(b1).value;
      ManySound(AnyOk, PutDrawn, GetDrawn, count, b2);
    }
  }

  lemma TargetsRead(m: Message, b: Bytes)
    ensures ParseTargets(b) == Some(m) <==> SpellsTargets(m, b)
  {
    LittleLaws();
    LocationLaws();
    hide PutLE32, GetLE32, PutLocation, GetLocation;
    if SpellsTargets(m, b) {
      ManyComplete(AnyOk, PutLocation, GetLocation, m.targets, []);
    }
    if ParseTargets(b) == Some(m) {
      var (count, b1) := GetLE32(b).value;
      ManySound(AnyOk, PutLocation, GetLocation, count, b1);
    }
  }

  lemma PlacesRead(previous: seq<Location>, current: seq<Location>)
    ensures GetMany(GetLocation, |previous|, PutPlaces(previous, current)) ==
      Some((previous, PutMany(PutLocation, current, [])))
    ensures GetMany(GetLocation, |current|, PutMany(PutLocation, current, [])) == Some((current, []))
  {
    LocationLaws();
    ManyComplete(AnyOk, PutLocation, GetLocation, previous, PutMany(PutLocation, current, []));
    ManyComplete(AnyOk, PutLocation, GetLocation, current, []);
  }

  lemma PlacesSpelled(count: nat, b: Bytes)
    requires GetMany(GetLocation, count, b).Some?
    requires GetMany(GetLocation, count, GetMany(GetLocation, count, b).value.1).Some?
    requires GetMany(GetLocation, count, GetMany(GetLocation, count, b).value.1).value.1 == []
    ensures b == PutPlaces(GetMany(GetLocation, count, b).value.0,
      GetMany(GetLocation, count, GetMany(GetLocation, count, b).value.1).value.0)
  {
    LocationLaws();
    ManySound(AnyOk, PutLocation, GetLocation, count, b);
    ManySound(AnyOk, PutLocation, GetLocation, count, GetMany(GetLocation, count, b).value.1);
  }

  lemma ShuffleSetSpelled(engine: Engine, m: Message, place: Byte, previous: seq<Location>, current: seq<Location>)
    requires m.Shuffled? && m.shuffler.Some? && m.codes == [] && engine.shuffles(place)
    requires 0 < |previous| == |current| <= 0xFF
    requires PreviousOk(place, m.shuffler.value, previous) && CurrentOk(place, m.shuffler.value, current)
    ensures ParseShuffleSet(engine, PutU8(place, PutU8(|previous|, PutPlaces(previous, current)))) == Some(m)
  {
    PlacesRead(previous, current);
    FieldsComplete();
    assert previous[0].controller == m.shuffler.value;
    hide PutU8, GetU8, PutLocation, GetLocation, GetMany, PutMany, PutPlaces, CurrentOk, PreviousOk;
  }

  lemma ShuffleSetRead(engine: Engine, m: Message, b: Bytes)
    ensures ParseShuffleSet(engine, b) == Some(m) <==> SpellsShuffleSet(engine, m, b)
  {
    hide PutLocation, GetLocation, GetMany, PutMany, CurrentOk, PreviousOk;
    if SpellsShuffleSet(engine, m, b) {
      var place: Byte, previous: seq<Location>, current: seq<Location> :|
        && engine.shuffles(place) && 0 < |previous| == |current| <= 0xFF
        && PreviousOk(place, m.shuffler.value, previous) && CurrentOk(place, m.shuffler.value, current)
        && b == PutU8(place, PutU8(|previous|, PutPlaces(previous, current)));
      ShuffleSetSpelled(engine, m, place, previous, current);
    }
    if ParseShuffleSet(engine, b) == Some(m) {
      hide PutPlaces, PutU8;
      var (place, b1) := GetU8(b).value;
      var (count, b2) := GetU8(b1).value;
      PlacesSpelled(count, b2);
      var (previous, b3) := GetMany(GetLocation, count, b2).value;
      var (current, b4) := GetMany(GetLocation, count, b3).value;
      assert b == PutU8(place, PutU8(|previous|, PutPlaces(previous, current)));
    }
  }

  lemma ConfirmSpelled(engine: Engine, m: Message, b: Bytes, extended: bool)
    requires m.Confirmed? && |m.seen| <= U32_MAX && AllOk(SeenRule(engine, extended), m.seen)
    requires b == PutU8(m.recipient, PutLE32(|m.seen|, PutMany(PutSeen(extended), m.seen, [])))
    ensures ParseConfirm(engine, b) == Some(m)
  {
    SeenLaws(engine, extended);
    SeenLength(extended, m.seen);
    ManyComplete(SeenRule(engine, extended), PutSeen(extended), SeenGetter(engine, extended), m.seen, []);
    LittleRead();
    FieldsComplete();
    hide PutU8, GetU8, PutLE32, GetLE32, PutSeen, SeenGetter, SeenRule, Lawful, PutMany;
    if m.seen != [] {
      hide GetMany;
    }
  }

  lemma {:induction false} SeenLength(extended: bool, seen: seq<CardSeen>)
    ensures |PutMany(PutSeen(extended), seen, [])| == |seen| * (if extended then EXTENDED else COMPACT)
  {
    if seen != [] {
      SeenLength(extended, seen[1..]);
      var k := PutMany(PutSeen(extended), seen[1..], []);
      assert |PutSeen(extended)(seen[0], k)| == (if extended then EXTENDED else COMPACT) + |k|;
    }
  }

  lemma ConfirmRead(engine: Engine, m: Message, b: Bytes)
    ensures ParseConfirm(engine, b) == Some(m) <==> SpellsConfirm(engine, m, b)
  {
    if SpellsConfirm(engine, m, b) {
      var extended: bool :| AllOk(SeenRule(engine, extended), m.seen)
        && b == PutU8(m.recipient, PutLE32(|m.seen|, PutMany(PutSeen(extended), m.seen, [])));
      ConfirmSpelled(engine, m, b, extended);
    }
    if ParseConfirm(engine, b) == Some(m) {
      var (recipient, b1) := GetU8(b).value;
      var (count, b2) := GetLE32(b1).value;
      var extended := count > 0 && |b2| == count * EXTENDED;
      SeenLaws(engine, extended);
      ManySound(SeenRule(engine, extended), PutSeen(extended), SeenGetter(engine, extended), count, b2);
      LittleRead();
      hide PutU8, GetU8, PutLE32, GetLE32, PutSeen, SeenGetter, SeenRule, Lawful, PutMany, GetMany;
    }
  }

  lemma ChainingRead(m: Message, b: Bytes)
    ensures ParseChaining(b) == Some(m) <==> SpellsChaining(m, b)
  {
    LittleRead();
    FieldsComplete();
    LocationRead();
    hide PutU8, GetU8, PutLE32, GetLE32, PutLE64, GetLE64, PutLocation, GetLocation, PutLE16, GetLE16;
    if ParseChaining(b) == Some(m) {
      var (_, b1) := GetLE32(b).value;
      var (_, b2) := GetLocation(b1).value;
      var (_, b3) := GetU8(b2).value;
      var (place, b4) := GetU8(b3).value;
      var (sequence, b5) := GetLE32(b4).value;
      assert b == PutLE32(m.code, PutLocation(m.at, PutU8(m.player, PutU8(place,
        PutLE32(sequence, PutLE64(m.description, PutLE32(m.chainCount, [])))))));
    }
  }

  lemma LifeRead(taken: bool, m: Message, b: Bytes)
    ensures ParseLife(taken, b) == Some(m) <==> SpellsLife(taken, m, b)
  {
    LittleRead();
    FieldsComplete();
    assert forall v: I32 :: Negated(Negated(v)) == v && I32OfBits(BitsOfI32(v)) == v;
    assert forall v: U32 :: BitsOfI32(I32OfBits(v)) == v;
    hide PutU8, GetU8, PutLE32, GetLE32, Negated, BitsOfI32, I32OfBits;
  }

  lemma MoveRead(m: Message, b: Bytes)
    ensures ParseMove(b) == Some(m) <==> SpellsMove(m, b)
  {
    LittleRead();
    LocationRead();
    hide PutLE32, GetLE32, PutLocation, GetLocation;
  }

  lemma PositionRead(m: Message, b: Bytes)
    ensures ParsePosition(b) == Some(m) <==> SpellsPosition(m, b)
  {
    LittleRead();
    FieldsComplete();
    hide PutLE32, GetLE32, PutU8, GetU8;
  }

  lemma PlacingRead(isSet: bool, m: Message, b: Bytes)
    ensures ParsePlacing(isSet, b) == Some(m) <==> SpellsPlacing(isSet, m, b)
  {
    LittleRead();
    LocationRead();
    hide PutLE32, GetLE32, PutLocation, GetLocation;
  }

  lemma RelatedRead(kind: VisibleEventKind, m: Message, b: Bytes)
    ensures ParseRelated(kind, b) == Some(m) <==> SpellsRelated(kind, m, b)
  {
    LocationRead();
    hide PutLocation, GetLocation;
  }

  lemma CounterRead(engine: Engine, m: Message, b: Bytes)
    ensures ParseCounter(engine, b) == Some(m) <==> SpellsCounter(engine, m, b)
  {
    LittleRead();
    FieldsComplete();
    hide PutLE16, GetLE16, PutU8, GetU8;
  }

  /** A body is read as a message exactly when it spells it. */
  lemma BodyIsSpelled(engine: Engine, family: Family, m: Message, b: Bytes)
    ensures ParseBody(engine, family, b) == Some(m) <==> Spells(engine, family, m, b)
  {
    LittleRead();
    FieldsComplete();
    hide PutU8, GetU8, PutLE16, GetLE16, ParseShuffleCards, ParseShuffleSet, ParseMove, ParsePosition, ParsePlacing,
      ParseDraw, ParseConfirm, ParseLife, ParseChaining, ParseTargets, ParseRelated, ParseCounter, SpellsShuffleCards,
      SpellsShuffleSet, SpellsMove, SpellsPosition, SpellsPlacing, SpellsDraw, SpellsConfirm, SpellsLife,
      SpellsChaining, SpellsTargets, SpellsRelated, SpellsCounter;
    match family
    case ShuffleCardsFamily => ShuffleCardsRead(m, b);
    case ShuffleSetFamily => ShuffleSetRead(engine, m, b);
    case MoveFamily => MoveRead(m, b);
    case PositionFamily => PositionRead(m, b);
    case SetFamily => PlacingRead(true, m, b);
    case SummoningFamily => PlacingRead(false, m, b);
    case DrawFamily => DrawRead(m, b);
    case ConfirmFamily => ConfirmRead(engine, m, b);
    case LifePointsFamily => LifeRead(false, m, b);
    case DamageFamily => LifeRead(true, m, b);
    case RecoverFamily => LifeRead(false, m, b);
    case ChainingFamily => ChainingRead(m, b);
    case TargetsFamily => TargetsRead(m, b);
    case EquipFamily => RelatedRead(Equipped, m, b);
    case UnequipFamily => RelatedRead(Unequipped, m, b);
    case CardTargetFamily => RelatedRead(Targeted, m, b);
    case CounterFamily => CounterRead(engine, m, b);
    case _ =>
  }

  /** A frame is its length and then itself, and never empty. */
  lemma FrameIsSpelled(b: Bytes, frame: Bytes, k: Bytes)
    ensures GetFrame(b) == Some((frame, k)) <==> 0 < |frame| <= U32_MAX && b == PutLE32(|frame|, frame + k)
  {
    LittleRead();
    hide PutLE32, GetLE32;
    if 0 < |frame| <= U32_MAX && b == PutLE32(|frame|, frame + k) {
      assert (frame + k)[..|frame|] == frame && (frame + k)[|frame|..] == k;
    }
    if GetFrame(b) == Some((frame, k)) {
      assert GetLE32(b).value.1 == frame + k;
    }
  }
}
