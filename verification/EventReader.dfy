/** The event projection as it runs: a reader over one frame, a loop over the frames of a
    stream, and the session it feeds. */
module EventReader {
  import opened Bytes
  import opened SafeState
  import opened SafeStateBoundary
  import opened EventMessages
  import opened EventStreams

  lemma LowFirst(bs: Bytes, a: int, b: int, c: int, d: int)
    requires |bs| == 4 && bs[0] == a && bs[1] == b && bs[2] == c && bs[3] == d
    ensures FromLE(bs) == a + b * 0x100 + c * 0x1_0000 + d * 0x100_0000
  {
    assert bs[1..][1..] == bs[2..] && bs[2..][1..] == bs[3..] && bs[3..][1..] == [];
    assert FromLE(bs[3..]) == d;
    assert FromLE(bs[2..]) == c + 256 * FromLE(bs[3..]);
    assert FromLE(bs[1..]) == b + 256 * FromLE(bs[2..]);
  }

  lemma LowPair(bs: Bytes, a: int, b: int)
    requires |bs| == 2 && bs[0] == a && bs[1] == b
    ensures FromLE(bs) == a + b * 0x100
  {
    assert bs[1..][1..] == [];
    assert FromLE(bs[1..]) == b;
  }

  lemma LowestFirst(bs: Bytes)
    requires bs != []
    ensures FromLE(bs) == bs[0] + 256 * FromLE(bs[1..])
  {
  }

  lemma Distributed(low: int, p: int, high: int, b: int)
    requires high == low + b * p
    ensures 256 * high == 256 * low + b * (256 * p)
  {
  }

  /** One more byte placed above the ones already read. */
  lemma {:induction false} NextHigher(bs: Bytes, i: nat)
    requires i < |bs|
    ensures FromLE(bs[..i + 1]) == FromLE(bs[..i]) + bs[i] * Pow256(i)
  {
    if i > 0 {
      hide FromLE;
      NextHigher(bs[1..], i - 1);
      assert bs[1..][..i] == bs[..i + 1][1..] && bs[1..][..i - 1] == bs[..i][1..];
      LowestFirst(bs[..i + 1]);
      LowestFirst(bs[..i]);
      Distributed(FromLE(bs[..i][1..]), Pow256(i - 1), FromLE(bs[..i + 1][1..]), bs[i]);
    } else {
      assert bs[..1][1..] == [] && bs[..0] == [];
    }
  }

  class Reader {
    const bytes: Bytes
    var offset: nat

    ghost predicate Valid()
      reads this
    {
      offset <= |bytes|
    }

    ghost function Rest(): Bytes
      requires Valid()
      reads this
    {
      bytes[offset..]
    }

    constructor (bytes: Bytes)
      ensures Valid() && Rest() == bytes
    {
      this.bytes := bytes;
      offset := 0;
    }

    method Remaining() returns (n: nat)
      requires Valid()
      ensures n == |Rest()|
    {
      n := |bytes| - offset;
    }

    method U8() returns (r: Option<Byte>)
      requires Valid()
      modifies this
      ensures Valid() && Agrees(GetU8(old(Rest())), r, Rest())
    {
      if |bytes| - offset < 1 {
        return None;
      }
      r := Some(bytes[offset]);
      offset := offset + 1;
      assert Rest() == old(Rest())[1..];
    }

    method U16() returns (r: Option<U16>)
      requires Valid()
      modifies this
      ensures Valid() && Agrees(GetLE16(old(Rest())), r, Rest())
    {
      if |bytes| - offset < 2 {
        return None;
      }
      var low: int, high: int := bytes[offset], bytes[offset + 1];
      LowPair(Rest()[..2], low, high);
      hide FromLE;
      r := Some(low + high * 0x100);
      offset := offset + 2;
      assert Rest() == old(Rest())[2..];
    }

    method U32() returns (r: Option<U32>)
      requires Valid()
      modifies this
      ensures Valid() && Agrees(GetLE32(old(Rest())), r, Rest())
    {
      if |bytes| - offset < 4 {
        return None;
      }
      var b0: int, b1: int := bytes[offset], bytes[offset + 1];
      var b2: int, b3: int := bytes[offset + 2], bytes[offset + 3];
      LowFirst(Rest()[..4], b0, b1, b2, b3);
      hide FromLE;
      r := Some(b0 + b1 * 0x100 + b2 * 0x1_0000 + b3 * 0x100_0000);
      offset := offset + 4;
      assert Rest() == old(Rest())[4..];
    }

    method U64() returns (r: Option<U64>)
      requires Valid()
      modifies this
      ensures Valid() && Agrees(GetLE64(old(Rest())), r, Rest())
    {
      if |bytes| - offset < 8 {
        return None;
      }
      ghost var before := Rest();
      WidthFacts();
      var value: int, weight: int := 0, 1;
      assert before[..0] == [] && FromLE(before[..0]) == 0 && Pow256(0) == 1;
      for i := 0 to 8
        invariant Valid() && bytes[offset..] == before[i..]
        invariant weight == Pow256(i) && value == FromLE(before[..i])
      {
        NextHigher(before, i);
        assert bytes[offset] == before[i];
        value := value + bytes[offset] * weight;
        weight := weight * 256;
        offset := offset + 1;
        assert before[i..][1..] == before[i + 1..];
      }
      r := Some(value);
    }
  }

  // ---------------------------------------------------------------- repeated entries

  /** After some entries, what a repeated read still has to give. */
  ghost predicate Pending<T>(get: Getter<T>, n: nat, b: Bytes, xs: seq<T>, rest: Bytes) {
    |xs| <= n &&
    GetMany(get, n, b) ==
      match GetMany(get, n - |xs|, rest)
      case None => None
      case Some((ys, k)) => Some((xs + ys, k))
  }

  lemma PendingStarts<T>(get: Getter<T>, n: nat, b: Bytes)
    ensures Pending(get, n, b, [], b)
  {
    if GetMany(get, n, b).Some? {
      assert [] + GetMany(get, n, b).value.0 == GetMany(get, n, b).value.0;
    }
  }

  lemma PendingStep<T>(get: Getter<T>, n: nat, b: Bytes, xs: seq<T>, rest: Bytes)
    requires Pending(get, n, b, xs, rest) && |xs| < n
    ensures get(rest).None? ==> GetMany(get, n, b).None?
    ensures get(rest).Some? ==> Pending(get, n, b, xs + [get(rest).value.0], get(rest).value.1)
  {
    if get(rest).Some? {
      var (x, k) := get(rest).value;
      var more := GetMany(get, n - |xs| - 1, k);
      if more.Some? {
        assert xs + ([x] + more.value.0) == (xs + [x]) + more.value.0;
      }
    }
  }

  lemma PendingEnds<T>(get: Getter<T>, n: nat, b: Bytes, xs: seq<T>, rest: Bytes)
    requires Pending(get, n, b, xs, rest) && |xs| == n
    ensures GetMany(get, n, b) == Some((xs, rest))
  {
    assert xs + [] == xs;
  }

  lemma TooMany<T(!new)>(get: Getter<T>, size: nat, n: nat, b: Bytes)
    requires size > 0 && Consumes(get, size) && n > |b| / size
    ensures GetMany(get, n, b).None?
  {
    ManyConsumes(get, size, n, b);
    assert |b| == |b| / size * size + |b| % size;
    assert n * size >= (|b| / size + 1) * size;
  }

  lemma EntrySizes()
    ensures Consumes(GetLE32, 4) && Consumes(GetDrawn, 8) && Consumes(GetLocation, 10)
  {
    hide FromLE;
  }

  method ReadLocation(reader: Reader) returns (r: Option<Location>)
    requires reader.Valid()
    modifies reader
    ensures reader.Valid() && Agrees(GetLocation(old(reader.Rest())), r, reader.Rest())
  {
    hide GetLE32, GetU8;
    var controller :- reader.U8();
    var place :- reader.U8();
    var sequence :- reader.U32();
    var position :- reader.U32();
    return Some(Location(controller, place, sequence, position));
  }

  method ReadConfirmLocation(engine: Engine, reader: Reader) returns (r: Option<Location>)
    requires reader.Valid()
    modifies reader
    ensures reader.Valid() && Agrees(GetCompact(engine, old(reader.Rest())), r, reader.Rest())
  {
    hide GetLE32, GetU8;
    var controller :- reader.U8();
    var place :- reader.U8();
    var sequence :- reader.U32();
    return Some(Location(controller, place, sequence, engine.faceUpPosition));
  }

  method ReadLocations(reader: Reader, count: nat) returns (r: Option<seq<Location>>)
    requires reader.Valid()
    modifies reader
    ensures reader.Valid() && Agrees(GetMany(GetLocation, count, old(reader.Rest())), r, reader.Rest())
  {
    hide GetLocation, Pending, GetMany;
    ghost var b := reader.Rest();
    PendingStarts(GetLocation, count, b);
    var xs: seq<Location> := [];
    while |xs| < count
      invariant reader.Valid() && |xs| <= count && Pending(GetLocation, count, b, xs, reader.Rest())
      decreases count - |xs|
    {
      PendingStep(GetLocation, count, b, xs, reader.Rest());
      var x :- ReadLocation(reader);
      xs := xs + [x];
    }
    PendingEnds(GetLocation, count, b, xs, reader.Rest());
    return Some(xs);
  }

  method ReadCodes(reader: Reader, count: nat) returns (r: Option<seq<U32>>)
    requires reader.Valid()
    modifies reader
    ensures reader.Valid() && Agrees(GetMany(GetLE32, count, old(reader.Rest())), r, reader.Rest())
  {
    hide GetLE32, Pending, GetMany;
    ghost var b := reader.Rest();
    PendingStarts(GetLE32, count, b);
    var xs: seq<U32> := [];
    while |xs| < count
      invariant reader.Valid() && |xs| <= count && Pending(GetLE32, count, b, xs, reader.Rest())
      decreases count - |xs|
    {
      PendingStep(GetLE32, count, b, xs, reader.Rest());
      var x :- reader.U32();
      xs := xs + [x];
    }
    PendingEnds(GetLE32, count, b, xs, reader.Rest());
    return Some(xs);
  }

  method ReadCardDrawn(reader: Reader) returns (r: Option<CardDrawn>)
    requires reader.Valid()
    modifies reader
    ensures reader.Valid() && Agrees(GetDrawn(old(reader.Rest())), r, reader.Rest())
  {
    hide GetLE32;
    var code :- reader.U32();
    var position :- reader.U32();
    return Some(CardDrawn(code, position));
  }

  method ReadCardsDrawn(reader: Reader, count: nat) returns (r: Option<seq<CardDrawn>>)
    requires reader.Valid()
    modifies reader
    ensures reader.Valid() && Agrees(GetMany(GetDrawn, count, old(reader.Rest())), r, reader.Rest())
  {
    hide GetDrawn, Pending, GetMany;
    ghost var b := reader.Rest();
    PendingStarts(GetDrawn, count, b);
    var xs: seq<CardDrawn> := [];
    while |xs| < count
      invariant reader.Valid() && |xs| <= count && Pending(GetDrawn, count, b, xs, reader.Rest())
      decreases count - |xs|
    {
      PendingStep(GetDrawn, count, b, xs, reader.Rest());
      var x :- ReadCardDrawn(reader);
      xs := xs + [x];
    }
    PendingEnds(GetDrawn, count, b, xs, reader.Rest());
    return Some(xs);
  }

  method ReadCardSeen(engine: Engine, extended: bool, reader: Reader) returns (r: Option<CardSeen>)
    requires reader.Valid()
    modifies reader
    ensures reader.Valid() && Agrees(GetSeen(engine, extended, old(reader.Rest())), r, reader.Rest())
  {
    hide GetLE32, GetLocation, GetCompact;
    var code :- reader.U32();
    if extended {
      var location :- ReadLocation(reader);
      return Some(CardSeen(code, location));
    }
    var location :- ReadConfirmLocation(engine, reader);
    return Some(CardSeen(code, location));
  }

  method ReadCardsSeen(engine: Engine, extended: bool, reader: Reader, count: nat) returns (r: Option<seq<CardSeen>>)
    requires reader.Valid()
    modifies reader
    ensures reader.Valid() && Agrees(GetMany(SeenGetter(engine, extended), count, old(reader.Rest())), r, reader.Rest())
  {
    hide GetSeen, Pending, GetMany;
    ghost var b := reader.Rest();
    var get := SeenGetter(engine, extended);
    PendingStarts(get, count, b);
    var xs: seq<CardSeen> := [];
    while |xs| < count
      invariant reader.Valid() && |xs| <= count && Pending(get, count, b, xs, reader.Rest())
      decreases count - |xs|
    {
      PendingStep(get, count, b, xs, reader.Rest());
      var x :- ReadCardSeen(engine, extended, reader);
      xs := xs + [x];
    }
    PendingEnds(get, count, b, xs, reader.Rest());
    return Some(xs);
  }

  // ---------------------------------------------------------------- message bodies

  method AtEnd(m: Message, reader: Reader) returns (r: Option<Message>)
    requires reader.Valid()
    ensures r == Finish(m, reader.Rest())
  {
    var remaining := reader.Remaining();
    return if remaining == 0 then Some(m) else None;
  }

  method ReadShuffleSet(engine: Engine, reader: Reader) returns (r: Option<Message>)
    requires reader.Valid()
    modifies reader
    ensures r == ParseShuffleSet(engine, old(reader.Rest()))
  {
    hide GetU8, GetMany, GetLocation;
    var place :- reader.U8();
    var count :- reader.U8();
    if !engine.shuffles(place) || count == 0 {
      return None;
    }
    var previous :- ReadLocations(reader, count);
    if previous == [] || !PreviousOk(place, previous[0].controller, previous) {
      return None;
    }
    var current :- ReadLocations(reader, count);
    if !CurrentOk(place, previous[0].controller, current) {
      return None;
    }
    r := AtEnd(Shuffled(Some(previous[0].controller), []), reader);
  }

  method ReadShuffleCards(reader: Reader) returns (r: Option<Message>)
    requires reader.Valid()
    modifies reader
    ensures r == ParseShuffleCards(old(reader.Rest()))
  {
    EntrySizes();
    hide GetU8, GetMany, GetLE32, Consumes;
    var player :- reader.U8();
    var count :- reader.U32();
    var remaining := reader.Remaining();
    if count > remaining / 4 {
      TooMany(GetLE32, 4, count, reader.Rest());
      return None;
    }
    var codes :- ReadCodes(reader, count);
    r := AtEnd(Shuffled(Some(player), codes), reader);
  }

  method ReadMove(reader: Reader) returns (r: Option<Message>)
    requires reader.Valid()
    modifies reader
    ensures r == ParseMove(old(reader.Rest()))
  {
    hide GetLE32, GetLocation;
    var code :- reader.U32();
    var from :- ReadLocation(reader);
    var to :- ReadLocation(reader);
    var reason :- reader.U32();
    r := AtEnd(Moved(code, from, to, reason), reader);
  }

  method ReadPosition(reader: Reader) returns (r: Option<Message>)
    requires reader.Valid()
    modifies reader
    ensures r == ParsePosition(old(reader.Rest()))
  {
    hide GetLE32, GetU8;
    var code :- reader.U32();
    var controller :- reader.U8();
    var place :- reader.U8();
    var sequence :- reader.U8();
    var oldPosition :- reader.U8();
    var newPosition :- reader.U8();
    r := AtEnd(Turned(code, Location(controller, place, sequence, newPosition), oldPosition), reader);
  }

  method ReadPlacing(isSet: bool, reader: Reader) returns (r: Option<Message>)
    requires reader.Valid()
    modifies reader
    ensures r == ParsePlacing(isSet, old(reader.Rest()))
  {
    hide GetLE32, GetLocation;
    var code :- reader.U32();
    var location :- ReadLocation(reader);
    r := AtEnd(Placing(isSet, code, location), reader);
  }

  method ReadDraw(reader: Reader) returns (r: Option<Message>)
    requires reader.Valid()
    modifies reader
    ensures r == ParseDraw(old(reader.Rest()))
  {
    EntrySizes();
    hide GetU8, GetMany, GetLE32, GetDrawn, Consumes;
    var player :- reader.U8();
    var count :- reader.U32();
    var remaining := reader.Remaining();
    if count > remaining / 8 {
      TooMany(GetDrawn, 8, count, reader.Rest());
      return None;
    }
    var cards :- ReadCardsDrawn(reader, count);
    r := AtEnd(Drawn(player, cards), reader);
  }

  /** The code's three tests of the payload size are the one the layout asks for. */
  lemma ShapeTests(count: nat, size: nat)
    ensures count > 0 && count <= size / EXTENDED && size == count * EXTENDED <==> count > 0 && size == count * EXTENDED
    ensures count > 0 && count <= size / COMPACT && size == count * COMPACT <==> count > 0 && size == count * COMPACT
    ensures count == 0 ==> (size == 0 <==> size == count * COMPACT)
  {
  }

  method ReadConfirm(engine: Engine, reader: Reader) returns (r: Option<Message>)
    requires reader.Valid()
    modifies reader
    ensures r == ParseConfirm(engine, old(reader.Rest()))
  {
    hide GetU8, GetMany, GetLE32, SeenGetter;
    var recipient :- reader.U8();
    var count :- reader.U32();
    var size := reader.Remaining();
    ShapeTests(count, size);
    var extended := count > 0 && count <= size / EXTENDED && size == count * EXTENDED;
    var compact := (count == 0 && size == 0) || (count > 0 && count <= size / COMPACT && size == count * COMPACT);
    if !extended && !compact {
      return None;
    }
    var seen :- ReadCardsSeen(engine, extended, reader, count);
    r := AtEnd(Confirmed(recipient, seen), reader);
  }

  method ReadLife(negated: bool, reader: Reader) returns (r: Option<Message>)
    requires reader.Valid()
    modifies reader
    ensures r == ParseLife(negated, old(reader.Rest()))
  {
    hide GetU8, GetLE32;
    var player :- reader.U8();
    var amount :- reader.U32();
    r := AtEnd(LifeChanged(player, if negated then Negated(Signed(amount)) else Signed(amount)), reader);
  }

  method ReadChaining(reader: Reader) returns (r: Option<Message>)
    requires reader.Valid()
    modifies reader
    ensures r == ParseChaining(old(reader.Rest()))
  {
    hide GetU8, GetLE32, GetLE64, GetLocation;
    var code :- reader.U32();
    var location :- ReadLocation(reader);
    var player :- reader.U8();
    var _ :- reader.U8();
    var _ :- reader.U32();
    var description :- reader.U64();
    var chainCount :- reader.U32();
    r := AtEnd(Chaining(code, location, player, description, chainCount), reader);
  }

  method ReadTargets(reader: Reader) returns (r: Option<Message>)
    requires reader.Valid()
    modifies reader
    ensures r == ParseTargets(old(reader.Rest()))
  {
    EntrySizes();
    hide GetMany, GetLE32, GetLocation, Consumes;
    var count :- reader.U32();
    var remaining := reader.Remaining();
    if count > remaining / 10 {
      TooMany(GetLocation, 10, count, reader.Rest());
      return None;
    }
    var targets :- ReadLocations(reader, count);
    r := AtEnd(Targets(targets), reader);
  }

  method ReadRelated(kind: VisibleEventKind, reader: Reader) returns (r: Option<Message>)
    requires reader.Valid()
    modifies reader
    ensures r == ParseRelated(kind, old(reader.Rest()))
  {
    hide GetLocation;
    var source :- ReadLocation(reader);
    var target :- ReadLocation(reader);
    r := AtEnd(Related(kind, source, target), reader);
  }

  method ReadCounter(engine: Engine, reader: Reader) returns (r: Option<Message>)
    requires reader.Valid()
    modifies reader
    ensures r == ParseCounter(engine, old(reader.Rest()))
  {
    hide GetU8, GetLE16;
    var counterType :- reader.U16();
    var controller :- reader.U8();
    var place :- reader.U8();
    var sequence :- reader.U8();
    var count :- reader.U16();
    r := AtEnd(Counted(counterType, Location(controller, place, sequence, engine.faceUpPosition), count), reader);
  }

  method ReadByte(make: Byte -> Message, reader: Reader) returns (r: Option<Message>)
    requires reader.Valid()
    modifies reader
    ensures r == ParseByte(make, old(reader.Rest()))
  {
    hide GetU8;
    var v :- reader.U8();
    r := AtEnd(make(v), reader);
  }

  method ReadWin(reader: Reader) returns (r: Option<Message>)
    requires reader.Valid()
    modifies reader
    ensures r == ParseWin(old(reader.Rest()))
  {
    hide GetU8;
    var winner :- reader.U8();
    var reason :- reader.U8();
    r := AtEnd(WinBy(winner, reason), reader);
  }

  method ReadPhase(reader: Reader) returns (r: Option<Message>)
    requires reader.Valid()
    modifies reader
    ensures r == ParsePhase(old(reader.Rest()))
  {
    hide GetLE16;
    var phase :- reader.U16();
    r := AtEnd(NewPhase(phase), reader);
  }

  method ReadMessage(engine: Engine, frame: Bytes) returns (r: Option<Message>)
    ensures r == Parse(engine, frame)
  {
    hide GetU8, Finish, ParsePhase, ParseWin, ParseByte, ParseShuffleSet, ParseShuffleCards, ParseMove,
      ParsePosition, ParsePlacing, ParseDraw, ParseConfirm, ParseLife, ParseChaining, ParseTargets, ParseRelated,
      ParseCounter;
    var reader := new Reader(frame);
    var kind :- reader.U8();
    match engine.familyOf(kind) {
      case NewTurnFamily => r := ReadByte((v: Byte) => NewTurn(v), reader);
      case NewPhaseFamily => r := ReadPhase(reader);
      case WinFamily => r := ReadWin(reader);
      case ShuffleDeckFamily => r := ReadByte((v: Byte) => Shuffled(Some(v), []), reader);
      case ShuffleCardsFamily => r := ReadShuffleCards(reader);
      case ShuffleSetFamily => r := ReadShuffleSet(engine, reader);
      case ReverseDeckFamily => r := AtEnd(Shuffled(None, []), reader);
      case MoveFamily => r := ReadMove(reader);
      case PositionFamily => r := ReadPosition(reader);
      case SetFamily => r := ReadPlacing(true, reader);
      case SummoningFamily => r := ReadPlacing(false, reader);
      case SummonedFamily => r := AtEnd(Message.Summoned, reader);
      case DrawFamily => r := ReadDraw(reader);
      case ConfirmFamily => r := ReadConfirm(engine, reader);
      case LifePointsFamily => r := ReadLife(false, reader);
      case DamageFamily => r := ReadLife(true, reader);
      case RecoverFamily => r := ReadLife(false, reader);
      case ChainingFamily => r := ReadChaining(reader);
      case ChainedFamily => r := ReadByte((v: Byte) => Chained(v), reader);
      case ChainResolvedFamily => r := ReadByte((v: Byte) => Resolved(v), reader);
      case ChainEndFamily => r := AtEnd(ChainDone, reader);
      case TargetsFamily => r := ReadTargets(reader);
      case EquipFamily => r := ReadRelated(Equipped, reader);
      case UnequipFamily => r := ReadRelated(Unequipped, reader);
      case CardTargetFamily => r := ReadRelated(Targeted, reader);
      case CounterFamily => r := ReadCounter(engine, reader);
      case OtherFamily => return Some(NotShown);
    }
  }

  // ---------------------------------------------------------------- the stream and the session

  method ReadFrameLength(bytes: Bytes, offset: nat) returns (r: Option<U32>)
    requires offset <= |bytes|
    ensures r.Some? <==> GetLE32(bytes[offset..]).Some?
    ensures r.Some? ==> r.value == GetLE32(bytes[offset..]).value.0
  {
    if |bytes| - offset < 4 {
      return None;
    }
    var b0: int, b1: int := bytes[offset], bytes[offset + 1];
    var b2: int, b3: int := bytes[offset + 2], bytes[offset + 3];
    LowFirst(bytes[offset..][..4], b0, b1, b2, b3);
    hide FromLE;
    return Some(b0 + b1 * 0x100 + b2 * 0x1_0000 + b3 * 0x100_0000);
  }

  const WRAP: nat := 0x1_0000_0000_0000_0000

  /** Pushes the events of one message, numbered on. */
  method EmitAll(shown: seq<VisibleEvent>, step: U64, events: seq<VisibleGameEvent>, next: U64, ghost first: nat)
    returns (r: seq<VisibleGameEvent>, nextIndex: U64)
    requires next == first % WRAP
    ensures r == events + Numbered(shown, step, first) && nextIndex == (first + |shown|) % WRAP
  {
    r, nextIndex := events, next;
    for i := 0 to |shown|
      invariant nextIndex == (first + i) % WRAP
      invariant r == events + Numbered(shown, step, first)[..i]
    {
      r := r + [VisibleGameEvent(step, shown[i].(eventIndex := nextIndex))];
      nextIndex := if nextIndex == U64_MAX then 0 else nextIndex + 1;
    }
    assert Numbered(shown, step, first)[..|shown|] == Numbered(shown, step, first);
  }

  /** What the frames still to come add to the events so far. */
  ghost predicate Projecting(engine: Engine, perspective: Byte, bytes: Bytes, shown: seq<VisibleEvent>, rest: Bytes) {
    Project(engine, perspective, bytes) ==
      match Project(engine, perspective, rest)
      case None => None
      case Some(more) => Some(shown + more)
  }

  lemma ProjectingStarts(engine: Engine, perspective: Byte, bytes: Bytes)
    ensures Projecting(engine, perspective, bytes, [], bytes)
  {
    hide Project;
    if Project(engine, perspective, bytes).Some? {
      assert [] + Project(engine, perspective, bytes).value == Project(engine, perspective, bytes).value;
    }
  }

  lemma ProjectingStep(engine: Engine, perspective: Byte, bytes: Bytes, shown: seq<VisibleEvent>, rest: Bytes)
    requires Projecting(engine, perspective, bytes, shown, rest) && rest != []
    ensures GetFrame(rest).None? ==> Project(engine, perspective, bytes).None?
    ensures GetFrame(rest).Some? ==>
      match Parse(engine, GetFrame(rest).value.0)
      case None => Project(engine, perspective, bytes).None?
      case Some(m) =>
        Projecting(engine, perspective, bytes, shown + Show(engine, perspective, m), GetFrame(rest).value.1)
  {
    hide GetFrame, Parse, Show;
    if GetFrame(rest).Some? {
      FrameConsumes(rest);
      var (frame, after) := GetFrame(rest).value;
      if Parse(engine, frame).Some? && Project(engine, perspective, after).Some? {
        var now, more := Show(engine, perspective, Parse(engine, frame).value),
          Project(engine, perspective, after).value;
        assert shown + (now + more) == (shown + now) + more;
      }
    }
  }

  /** The whole stream's events, numbered from `first`; a malformed frame anywhere throws them
      all away. */
  method ProjectVisibleEvents(engine: Engine, perspective: Byte, bytes: Bytes, step: U64, ghost first: nat,
    firstIndex: U64)
    returns (r: Option<seq<VisibleGameEvent>>)
    requires firstIndex == first % WRAP
    ensures r.Some? <==> perspective <= 1 && Project(engine, perspective, bytes).Some?
    ensures r.Some? ==> r.value == Numbered(Project(engine, perspective, bytes).value, step, first)
  {
    hide Project, Parse, Show, Projecting, FromLE, Numbered;
    if perspective > 1 {
      return None;
    }
    var events: seq<VisibleGameEvent>, next := [], firstIndex;
    ghost var shown: seq<VisibleEvent> := [];
    var offset := 0;
    assert bytes[0..] == bytes;
    ProjectingStarts(engine, perspective, bytes);
    NoneNumbered(step, first);
    while offset < |bytes|
      invariant offset <= |bytes| && next == (first + |shown|) % WRAP
      invariant events == Numbered(shown, step, first)
      invariant Projecting(engine, perspective, bytes, shown, bytes[offset..])
      decreases |bytes| - offset
    {
      ProjectingStep(engine, perspective, bytes, shown, bytes[offset..]);
      var length :- ReadFrameLength(bytes, offset);
      offset := offset + 4;
      if length == 0 || length > |bytes| - offset {
        return None;
      }
      var frame := bytes[offset..offset + length];
      FrameAt(bytes, offset - 4, length);
      offset := offset + length;
      var message :- ReadMessage(engine, frame);
      var emitted := Show(engine, perspective, message);
      events, next := EmitAll(emitted, step, events, next, first + |shown|);
      NumberedParts(shown, emitted, step, first);
      shown := shown + emitted;
    }
    assert bytes[offset..] == [];
    ProjectingEnds(engine, perspective, bytes, shown);
    return Some(events);
  }

  lemma NoneNumbered(step: U64, first: nat)
    ensures Numbered([], step, first) == []
  {
  }

  lemma ProjectingEnds(engine: Engine, perspective: Byte, bytes: Bytes, shown: seq<VisibleEvent>)
    requires Projecting(engine, perspective, bytes, shown, [])
    ensures Project(engine, perspective, bytes) == Some(shown)
  {
    assert shown + [] == shown;
  }

  lemma FrameAt(bytes: Bytes, start: nat, length: nat)
    requires start + 4 + length <= |bytes| && length > 0 && GetLE32(bytes[start..]).Some?
    requires GetLE32(bytes[start..]).value.0 == length
    ensures GetFrame(bytes[start..]) == Some((bytes[start + 4..start + 4 + length], bytes[start + 4 + length..]))
  {
    hide FromLE;
    assert bytes[start..][4..] == bytes[start + 4..];
    assert bytes[start + 4..][..length] == bytes[start + 4..start + 4 + length];
    assert bytes[start + 4..][length..] == bytes[start + 4 + length..];
  }

  /** The events one player has seen, and the index of the next one. */
  class ObservationSession {
    const engine: Engine
    const perspective: Byte
    var nextEventIndex: U64
    var events: seq<VisibleGameEvent>

    /** The i-th event has index i, counted from the last clear. */
    ghost predicate Valid()
      reads this
    {
      && perspective <= 1 && nextEventIndex == |events| % WRAP
      && forall i :: 0 <= i < |events| ==> events[i].event.eventIndex == i % WRAP
    }

    constructor (engine: Engine, perspective: Byte)
      requires perspective <= 1
      ensures Valid() && events == [] && this.engine == engine && this.perspective == perspective
    {
      this.engine := engine;
      this.perspective := perspective;
      nextEventIndex := 0;
      events := [];
    }

    /** Takes in a stream whole, or, when a frame of it is malformed, not at all. */
    method Ingest(bytes: Bytes, step: U64) returns (ok: bool)
      requires Valid()
      modifies this
      ensures Valid() && (ok <==> Project(engine, perspective, bytes).Some?)
      ensures ok ==> events == old(events) + Numbered(Project(engine, perspective, bytes).value, step, |old(events)|)
      ensures !ok ==> unchanged(this)
    {
      hide Project;
      var projected := ProjectVisibleEvents(engine, perspective, bytes, step, |events|, nextEventIndex);
      if projected.None? {
        return false;
      }
      var seen := projected.value;
      if seen != [] {
        var last := seen[|seen| - 1].event.eventIndex;
        nextEventIndex := if last == U64_MAX then 0 else last + 1;
        events := events + seen;
      }
      return true;
    }

    method Clear()
      requires Valid()
      modifies this
      ensures Valid() && events == []
    {
      events := [];
      nextEventIndex := 0;
    }
  }

  /** What a session holds after some streams taken in at one step is what it would hold after
      taking them in as one. */
  lemma IngestedTogether(engine: Engine, perspective: Byte, a: Bytes, b: Bytes, step: U64, first: nat)
    requires Project(engine, perspective, a).Some? && Project(engine, perspective, b).Some?
    ensures Project(engine, perspective, a + b).Some?
    ensures var x := Project(engine, perspective, a).value;
      Numbered(Project(engine, perspective, a + b).value, step, first)
      == Numbered(x, step, first) + Numbered(Project(engine, perspective, b).value, step, first + |x|)
  {
    hide Project, Numbered;
    ProjectionOfMore(engine, perspective, a, b);
    NumberedParts(Project(engine, perspective, a).value, Project(engine, perspective, b).value, step, first);
  }
}
