/** The decoder as it runs: a cursor, counted loops with a guard on the count, and the order
    checks made while reading. Every method is proved to compute the layout's plain reader. */
module SafeStateDecoder {
  import opened Bytes
  import opened Text
  import opened Cursors
  import opened SafeState
  import opened SafeStateLaws
  import opened SafeStateCodec

  // ---------------------------------------------------------------- optional fields

  method ReadOptionalPlayer(cursor: Cursor) returns (r: Option<Option<Byte>>)
    requires cursor.Valid()
    modifies cursor
    ensures cursor.Valid() && Agrees(GetOpt(GetPlayer, old(cursor.Rest())), r, cursor.Rest())
  {
    hide GetU8;
    var value :- cursor.OptionalU8();
    return if value.Some? && value.value > 1 then None else Some(value);
  }

  method ReadOptionalLocator(cursor: Cursor) returns (r: Option<Option<Bytes>>)
    requires cursor.Valid()
    modifies cursor
    ensures cursor.Valid() && Agrees(GetOpt(LocatorGetter(true), old(cursor.Rest())), r, cursor.Rest())
  {
    hide GetU8, GetString, IsLocator;
    var flag :- cursor.U8();
    if flag > 1 {
      return None;
    }
    if flag == 0 {
      return Some(None);
    }
    var decoded :- cursor.Text();
    return if IsLocator(decoded) then Some(Some(decoded)) else None;
  }

  method ReadOptionalZone(cursor: Cursor) returns (r: Option<Option<SemanticZone>>)
    requires cursor.Valid()
    modifies cursor
    ensures cursor.Valid() && Agrees(GetOpt(GetZoneCode, old(cursor.Rest())), r, cursor.Rest())
  {
    hide GetU8, DecodeZone;
    var flag :- cursor.U8();
    if flag > 1 {
      return None;
    }
    if flag == 0 {
      return Some(None);
    }
    var code :- cursor.U8();
    var decoded :- DecodeZone(code);
    return Some(Some(decoded));
  }

  // ---------------------------------------------------------------- lists of fields

  method ReadMarker(cursor: Cursor) returns (r: Option<LinkMarker>)
    requires cursor.Valid()
    modifies cursor
    ensures cursor.Valid() && Agrees(GetMarker(old(cursor.Rest())), r, cursor.Rest())
  {
    hide GetU8, DecodeMarker;
    var code :- cursor.U8();
    r := DecodeMarker(code);
  }

  method ReadCounter(cursor: Cursor) returns (r: Option<Counter>)
    requires cursor.Valid()
    modifies cursor
    ensures cursor.Valid() && Agrees(GetCounter(old(cursor.Rest())), r, cursor.Rest())
  {
    hide GetU32;
    var typ :- cursor.U32();
    var count :- cursor.U32();
    return Some(Counter(typ, count));
  }

  method ReadLocator(cursor: Cursor) returns (r: Option<Bytes>)
    requires cursor.Valid()
    modifies cursor
    ensures cursor.Valid() && Agrees(GetLocator(true, old(cursor.Rest())), r, cursor.Rest())
  {
    hide GetString, IsLocator;
    var decoded :- cursor.Text();
    return if IsLocator(decoded) then Some(decoded) else None;
  }

  method ReadMarkers(cursor: Cursor) returns (r: Option<seq<LinkMarker>>)
    requires cursor.Valid()
    modifies cursor
    ensures cursor.Valid() && Agrees(GetList(GetMarker, MarkerLe, old(cursor.Rest())), r, cursor.Rest())
  {
    MarkerLaws();
    ghost var b := cursor.Rest();
    hide GetU32, GetMarker;
    var count :- cursor.U32();
    hide GetList;
    var remaining := cursor.Remaining();
    if count > remaining {
      GuardIsSafe(GetMarker, MarkerLe, b, 1);
      return None;
    }
    ReadingStarts(GetMarker, MarkerLe, b);
    var xs: seq<LinkMarker> := [];
    hide Reading, Consumes;
    while |xs| < count
      invariant cursor.Valid() && |xs| <= count
      invariant Reading(GetMarker, MarkerLe, b, count, xs, cursor.Rest())
      decreases count - |xs|
    {
      ghost var rest := cursor.Rest();
      var next := ReadMarker(cursor);
      if next.None? {
        ElementFails(GetMarker, MarkerLe, b, count, xs, rest);
        return None;
      }
      var x := next.value;
      if xs != [] && !MarkerLe(xs[|xs| - 1], x) {
        OutOfOrder(GetMarker, MarkerLe, b, count, xs, rest);
        return None;
      }
      ElementRead(GetMarker, MarkerLe, b, count, xs, rest);
      xs := xs + [x];
    }
    ListRead(GetMarker, MarkerLe, b, count, xs, cursor.Rest());
    return Some(xs);
  }

  method ReadCounters(cursor: Cursor) returns (r: Option<seq<Counter>>)
    requires cursor.Valid()
    modifies cursor
    ensures cursor.Valid() && Agrees(GetList(GetCounter, CounterLe, old(cursor.Rest())), r, cursor.Rest())
  {
    CounterLaws();
    ghost var b := cursor.Rest();
    hide GetU32, GetCounter;
    var count :- cursor.U32();
    hide GetList;
    var remaining := cursor.Remaining();
    if count > remaining / 8 {
      GuardIsSafe(GetCounter, CounterLe, b, 8);
      return None;
    }
    ReadingStarts(GetCounter, CounterLe, b);
    var xs: seq<Counter> := [];
    hide Reading, Consumes;
    while |xs| < count
      invariant cursor.Valid() && |xs| <= count
      invariant Reading(GetCounter, CounterLe, b, count, xs, cursor.Rest())
      decreases count - |xs|
    {
      ghost var rest := cursor.Rest();
      var next := ReadCounter(cursor);
      if next.None? {
        ElementFails(GetCounter, CounterLe, b, count, xs, rest);
        return None;
      }
      var x := next.value;
      if xs != [] && !CounterLe(xs[|xs| - 1], x) {
        OutOfOrder(GetCounter, CounterLe, b, count, xs, rest);
        return None;
      }
      ElementRead(GetCounter, CounterLe, b, count, xs, rest);
      xs := xs + [x];
    }
    ListRead(GetCounter, CounterLe, b, count, xs, cursor.Rest());
    return Some(xs);
  }

  method ReadSortedTargets(cursor: Cursor) returns (r: Option<seq<Bytes>>)
    requires cursor.Valid()
    modifies cursor
    ensures cursor.Valid() && Agrees(GetList(LocatorGetter(true), LexLe, old(cursor.Rest())), r, cursor.Rest())
  {
    LocatorLaws(true);
    ghost var b := cursor.Rest();
    hide GetU32, GetLocator, LexLe;
    var count :- cursor.U32();
    hide GetList;
    var remaining := cursor.Remaining();
    if count > remaining / 4 {
      GuardIsSafe(LocatorGetter(true), LexLe, b, 4);
      return None;
    }
    ReadingStarts(LocatorGetter(true), LexLe, b);
    var xs: seq<Bytes> := [];
    hide Reading, Consumes;
    while |xs| < count
      invariant cursor.Valid() && |xs| <= count
      invariant Reading(LocatorGetter(true), LexLe, b, count, xs, cursor.Rest())
      decreases count - |xs|
    {
      ghost var rest := cursor.Rest();
      var next := ReadLocator(cursor);
      if next.None? {
        ElementFails(LocatorGetter(true), LexLe, b, count, xs, rest);
        return None;
      }
      var x := next.value;
      if xs != [] && !LexLe(xs[|xs| - 1], x) {
        OutOfOrder(LocatorGetter(true), LexLe, b, count, xs, rest);
        return None;
      }
      ElementRead(LocatorGetter(true), LexLe, b, count, xs, rest);
      xs := xs + [x];
    }
    ListRead(LocatorGetter(true), LexLe, b, count, xs, cursor.Rest());
    return Some(xs);
  }

  method ReadLifePoints(cursor: Cursor) returns (r: Option<seq<U32>>)
    requires cursor.Valid()
    modifies cursor
    ensures cursor.Valid() && Agrees(GetList(GetU32, AnyNumbers, old(cursor.Rest())), r, cursor.Rest())
  {
    FieldLaws();
    ghost var b := cursor.Rest();
    hide GetU32;
    var count :- cursor.U32();
    hide GetList;
    var remaining := cursor.Remaining();
    if count > remaining / 4 {
      GuardIsSafe(GetU32, AnyNumbers, b, 4);
      return None;
    }
    ReadingStarts(GetU32, AnyNumbers, b);
    var xs: seq<U32> := [];
    hide Reading, Consumes;
    while |xs| < count
      invariant cursor.Valid() && |xs| <= count
      invariant Reading(GetU32, AnyNumbers, b, count, xs, cursor.Rest())
      decreases count - |xs|
    {
      ghost var rest := cursor.Rest();
      var next := cursor.U32();
      if next.None? {
        ElementFails(GetU32, AnyNumbers, b, count, xs, rest);
        return None;
      }
      var x := next.value;
      ElementRead(GetU32, AnyNumbers, b, count, xs, rest);
      xs := xs + [x];
    }
    ListRead(GetU32, AnyNumbers, b, count, xs, cursor.Rest());
    return Some(xs);
  }

  method ReadCodes(cursor: Cursor) returns (r: Option<seq<U32>>)
    requires cursor.Valid()
    modifies cursor
    ensures cursor.Valid() && Agrees(GetList(GetU32, CodeLe, old(cursor.Rest())), r, cursor.Rest())
  {
    FieldLaws();
    ghost var b := cursor.Rest();
    hide GetU32;
    var count :- cursor.U32();
    hide GetList;
    var remaining := cursor.Remaining();
    if count > remaining / 4 {
      GuardIsSafe(GetU32, CodeLe, b, 4);
      return None;
    }
    ReadingStarts(GetU32, CodeLe, b);
    var xs: seq<U32> := [];
    hide Reading, Consumes;
    while |xs| < count
      invariant cursor.Valid() && |xs| <= count
      invariant Reading(GetU32, CodeLe, b, count, xs, cursor.Rest())
      decreases count - |xs|
    {
      ghost var rest := cursor.Rest();
      var next := cursor.U32();
      if next.None? {
        ElementFails(GetU32, CodeLe, b, count, xs, rest);
        return None;
      }
      var x := next.value;
      if xs != [] && !CodeLe(xs[|xs| - 1], x) {
        OutOfOrder(GetU32, CodeLe, b, count, xs, rest);
        return None;
      }
      ElementRead(GetU32, CodeLe, b, count, xs, rest);
      xs := xs + [x];
    }
    ListRead(GetU32, CodeLe, b, count, xs, cursor.Rest());
    return Some(xs);
  }

  // ---------------------------------------------------------------- records

  method ReadPropertyFields(cursor: Cursor) returns (r: Option<CardProperties>)
    requires cursor.Valid()
    modifies cursor
    ensures cursor.Valid() && Agrees(GetProperties(old(cursor.Rest())), r, cursor.Rest())
  {
    hide GetU8, GetU32, GetU64, GetBool, GetOpt, GetList;
    var typ :- cursor.OptionalU32();
    var attribute :- cursor.OptionalU32();
    var race :- cursor.OptionalU64();
    var attack :- cursor.OptionalI32();
    var defense :- cursor.OptionalI32();
    var baseAttack :- cursor.OptionalI32();
    var baseDefense :- cursor.OptionalI32();
    var level :- cursor.OptionalU32();
    var rank :- cursor.OptionalU32();
    var linkRating :- cursor.OptionalU32();
    var linkMarkers :- ReadMarkers(cursor);
    var leftScale :- cursor.OptionalU32();
    var rightScale :- cursor.OptionalU32();
    var statusFlags :- cursor.OptionalU32();
    var counters :- ReadCounters(cursor);
    return Some(CardProperties(typ, attribute, race, attack, defense, baseAttack, baseDefense, level, rank,
      linkRating, linkMarkers, leftScale, rightScale, statusFlags, counters));
  }

  method ReadProperties(cursor: Cursor) returns (r: Option<Option<CardProperties>>)
    requires cursor.Valid()
    modifies cursor
    ensures cursor.Valid() && Agrees(GetOpt(GetProperties, old(cursor.Rest())), r, cursor.Rest())
  {
    hide GetU8, GetProperties;
    var flag :- cursor.U8();
    if flag > 1 {
      return None;
    }
    if flag == 0 {
      return Some(None);
    }
    var properties :- ReadPropertyFields(cursor);
    return Some(Some(properties));
  }

  method ReadGlobals(cursor: Cursor) returns (r: Option<Globals>)
    requires cursor.Valid()
    modifies cursor
    ensures cursor.Valid() && Agrees(GetGlobals(old(cursor.Rest())), r, cursor.Rest())
  {
    hide GetU8, GetU32, GetU64, GetBool, GetOpt, GetList;
    var duelFlags :- cursor.U64();
    var lifePoints :- ReadLifePoints(cursor);
    var playerToAct :- ReadOptionalPlayer(cursor);
    var turnPlayer :- ReadOptionalPlayer(cursor);
    var turnCount :- cursor.OptionalU32();
    var phase :- cursor.OptionalU32();
    var chainLength :- cursor.U32();
    var winner :- cursor.OptionalU8();
    var winReason :- cursor.OptionalU8();
    var terminal :- cursor.Flag();
    return Some(Globals(duelFlags, lifePoints, playerToAct, turnPlayer, turnCount, phase, chainLength, winner,
      winReason, terminal));
  }

  method ReadZone(cursor: Cursor) returns (r: Option<ObservedZone>)
    requires cursor.Valid()
    modifies cursor
    ensures cursor.Valid() && Agrees(GetZone(old(cursor.Rest())), r, cursor.Rest())
  {
    hide GetU8, GetU32, GetBool, DecodeZone;
    var player :- cursor.U8();
    var kindCode :- cursor.U8();
    var totalCount :- cursor.U32();
    var publicIdentityCount :- cursor.U32();
    var hiddenCount :- cursor.U32();
    var playerObservableOrder :- cursor.Flag();
    if player > 1 {
      return None;
    }
    var kind :- DecodeZone(kindCode);
    return Some(ObservedZone(player, kind, totalCount, publicIdentityCount, hiddenCount, playerObservableOrder));
  }

  method ReadZoneCode(cursor: Cursor) returns (r: Option<SemanticZone>)
    requires cursor.Valid()
    modifies cursor
    ensures cursor.Valid() && Agrees(GetZoneCode(old(cursor.Rest())), r, cursor.Rest())
  {
    hide GetU8, DecodeZone;
    var code :- cursor.U8();
    r := DecodeZone(code);
  }

  method ReadPosition(cursor: Cursor) returns (r: Option<Position>)
    requires cursor.Valid()
    modifies cursor
    ensures cursor.Valid() && Agrees(GetPositionCode(old(cursor.Rest())), r, cursor.Rest())
  {
    hide GetU8, DecodePosition;
    var code :- cursor.U8();
    r := DecodePosition(code);
  }

  /** The fields of a card after its locator. */
  function GetCardAfter(locator: Bytes, b: Bytes): Parsed<ObservedCard> {
    var (identityKnown, b) :- GetBool(b);
    var (passcode, b) :- GetOpt(GetU32, b);
    var (owner, b) :- GetOpt(GetPlayer, b);
    var (controller, b) :- GetOpt(GetPlayer, b);
    var (zone, b) :- GetZoneCode(b);
    var (sequence, b) :- GetOpt(GetU32, b);
    var (overlaySequence, b) :- GetOpt(GetU32, b);
    var (position, b) :- GetPositionCode(b);
    var (faceUp, b) :- GetBool(b);
    var (faceDown, b) :- GetBool(b);
    var (printed, b) :- GetOpt(GetProperties, b);
    var (current, b) :- GetOpt(GetProperties, b);
    if faceUp && faceDown then None
    else if !identityKnown && (passcode.Some? || printed.Some? || current.Some?) then None
    else Some((ObservedCard(locator, identityKnown, passcode, owner, controller, zone, sequence, overlaySequence,
                            position, faceUp, faceDown, printed, current), b))
  }

  lemma CardInTwo(b: Bytes)
    ensures GetCard(true, b) ==
      match GetLocator(true, b)
      case None => None
      case Some((locator, k)) => GetCardAfter(locator, k)
    ensures forall locator, k :: GetCardAfter(locator, k).Some? ==> GetCardAfter(locator, k).value.0.locator == locator
  {
    hide GetU32, GetBool, GetOpt, GetLocator, GetZoneCode, GetPositionCode, PlayerOk, LocatorOk, PutU8, PutString,
      PutBool, PutZoneCode, PutPositionCode, GetPlayer, GetProperties;
  }

  method ReadCardAfter(cursor: Cursor, locator: Bytes) returns (r: Option<ObservedCard>)
    requires cursor.Valid()
    modifies cursor
    ensures cursor.Valid() && Agrees(GetCardAfter(locator, old(cursor.Rest())), r, cursor.Rest())
  {
    hide GetU32, GetBool, GetOpt, GetZoneCode, GetPositionCode, PlayerOk, PutU8, PutBool, PutZoneCode,
      PutPositionCode, GetPlayer, GetProperties;
    var identityKnown :- cursor.Flag();
    var passcode :- cursor.OptionalU32();
    var owner :- ReadOptionalPlayer(cursor);
    var controller :- ReadOptionalPlayer(cursor);
    var zone :- ReadZoneCode(cursor);
    var sequence :- cursor.OptionalU32();
    var overlaySequence :- cursor.OptionalU32();
    var position :- ReadPosition(cursor);
    var faceUp :- cursor.Flag();
    var faceDown :- cursor.Flag();
    if faceUp && faceDown {
      return None;
    }
    var printed :- ReadProperties(cursor);
    var current :- ReadProperties(cursor);
    if !identityKnown && (passcode.Some? || printed.Some? || current.Some?) {
      return None;
    }
    return Some(ObservedCard(locator, identityKnown, passcode, owner, controller, zone, sequence, overlaySequence,
      position, faceUp, faceDown, printed, current));
  }

  /** One card, refused as soon as its locator does not come after `previous`. */
  method ReadCard(cursor: Cursor, previous: Option<Bytes>) returns (r: Option<ObservedCard>)
    requires cursor.Valid()
    modifies cursor
    ensures cursor.Valid()
    ensures var spec := GetCard(true, old(cursor.Rest()));
      if spec.Some? && (previous.None? || LexLess(previous.value, spec.value.0.locator))
      then r == Some(spec.value.0) && cursor.Rest() == spec.value.1 else r.None?
  {
    hide GetCard, GetCardAfter, GetLocator, LexLess, LocatorOk, PutString;
    CardInTwo(cursor.Rest());
    var locator :- ReadLocator(cursor);
    if previous.Some? && !LexLess(previous.value, locator) {
      return None;
    }
    r := ReadCardAfter(cursor, locator);
  }

  method ReadRelationship(cursor: Cursor) returns (r: Option<Relationship>)
    requires cursor.Valid()
    modifies cursor
    ensures cursor.Valid() && Agrees(GetRelationship(true, old(cursor.Rest())), r, cursor.Rest())
  {
    hide GetU8, GetLocator, DecodeRelationship;
    var kindCode :- cursor.U8();
    var kind :- DecodeRelationship(kindCode);
    var source :- ReadLocator(cursor);
    var target :- ReadLocator(cursor);
    return Some(Relationship(kind, source, target));
  }

  method ReadLink(cursor: Cursor) returns (r: Option<ChainLink>)
    requires cursor.Valid()
    modifies cursor
    ensures cursor.Valid() && Agrees(GetLink(true, old(cursor.Rest())), r, cursor.Rest())
  {
    hide GetU8, GetU32, GetU64, GetBool, GetOpt, GetList, LocatorGetter;
    var index :- cursor.U32();
    var activatingPlayer :- ReadOptionalPlayer(cursor);
    var source :- ReadOptionalLocator(cursor);
    var activationZone :- ReadOptionalZone(cursor);
    var effectDescription :- cursor.OptionalU64();
    var targets :- ReadSortedTargets(cursor);
    return Some(ChainLink(index, activatingPlayer, source, activationZone, effectDescription, targets));
  }

  /** The fields of an event after its index and kind. */
  function GetEventAfter(eventIndex: U64, kind: VisibleEventKind, b: Bytes): Parsed<VisibleEvent> {
    var (player, b) :- GetOpt(GetPlayer, b);
    var (entity, b) :- GetOpt(LocatorGetter(true), b);
    var (publicPasscode, b) :- GetOpt(GetU32, b);
    var (fromZone, b) :- GetOpt(GetZoneCode, b);
    var (toZone, b) :- GetOpt(GetZoneCode, b);
    var (count, b) :- GetOpt(GetU32, b);
    var (amount, b) :- GetOpt(GetI32, b);
    var (counterType, b) :- GetOpt(GetU32, b);
    var (phase, b) :- GetOpt(GetU32, b);
    var (winner, b) :- GetOpt(GetU8, b);
    var (winReason, b) :- GetOpt(GetU8, b);
    var (effectDescription, b) :- GetOpt(GetU64, b);
    var (targets, b) :- GetList(LocatorGetter(true), LexLe, b);
    Some((VisibleEvent(eventIndex, kind, player, entity, publicPasscode, fromZone, toZone, count, amount, counterType,
                       phase, winner, winReason, effectDescription, targets), b))
  }

  lemma EventInTwo(b: Bytes)
    ensures GetEvent(true, b) ==
      match GetU64(b)
      case None => None
      case Some((index, k)) =>
        match GetEventKindCode(k)
        case None => None
        case Some((kind, l)) => GetEventAfter(index, kind, l)
    ensures forall index, kind, k :: GetEventAfter(index, kind, k).Some? ==>
      GetEventAfter(index, kind, k).value.0.eventIndex == index
  {
    hide GetU8, GetU32, GetU64, GetOpt, GetList, LocatorGetter, GetEventKindCode;
  }

  method ReadEventAfter(cursor: Cursor, eventIndex: U64, kind: VisibleEventKind) returns (r: Option<VisibleEvent>)
    requires cursor.Valid()
    modifies cursor
    ensures cursor.Valid() && Agrees(GetEventAfter(eventIndex, kind, old(cursor.Rest())), r, cursor.Rest())
  {
    hide GetU8, GetU32, GetU64, GetOpt, GetList, LocatorGetter;
    var player :- ReadOptionalPlayer(cursor);
    var entity :- ReadOptionalLocator(cursor);
    var publicPasscode :- cursor.OptionalU32();
    var fromZone :- ReadOptionalZone(cursor);
    var toZone :- ReadOptionalZone(cursor);
    var count :- cursor.OptionalU32();
    var amount :- cursor.OptionalI32();
    var counterType :- cursor.OptionalU32();
    var phase :- cursor.OptionalU32();
    var winner :- cursor.OptionalU8();
    var winReason :- cursor.OptionalU8();
    var effectDescription :- cursor.OptionalU64();
    var targets :- ReadSortedTargets(cursor);
    return Some(VisibleEvent(eventIndex, kind, player, entity, publicPasscode, fromZone, toZone, count, amount,
      counterType, phase, winner, winReason, effectDescription, targets));
  }

  /** One event, refused as soon as its index does not come after `previous`. */
  method ReadEvent(cursor: Cursor, previous: Option<U64>) returns (r: Option<VisibleEvent>)
    requires cursor.Valid()
    modifies cursor
    ensures cursor.Valid()
    ensures var spec := GetEvent(true, old(cursor.Rest()));
      if spec.Some? && (previous.None? || previous.value < spec.value.0.eventIndex)
      then r == Some(spec.value.0) && cursor.Rest() == spec.value.1 else r.None?
  {
    hide GetU8, GetU64, GetEvent, GetEventAfter, DecodeEventKind;
    EventInTwo(cursor.Rest());
    var eventIndex :- cursor.U64();
    var kindCode :- cursor.U8();
    var kind :- DecodeEventKind(kindCode);
    if previous.Some? && eventIndex <= previous.value {
      return None;
    }
    r := ReadEventAfter(cursor, eventIndex, kind);
  }

  method ReadDeck(cursor: Cursor) returns (r: Option<Deck>)
    requires cursor.Valid()
    modifies cursor
    ensures cursor.Valid() && Agrees(GetDeck(old(cursor.Rest())), r, cursor.Rest())
  {
    hide GetU8, GetU32, GetU64, GetBool, GetOpt, GetList;
    var known :- cursor.Flag();
    var mainDeck :- ReadCodes(cursor);
    var extraDeck :- ReadCodes(cursor);
    if !known && (mainDeck != [] || extraDeck != []) {
      return None;
    }
    return Some(Deck(known, mainDeck, extraDeck));
  }

  method ReadContext(cursor: Cursor) returns (r: Option<MatchContext>)
    requires cursor.Valid()
    modifies cursor
    ensures cursor.Valid() && Agrees(GetContext(old(cursor.Rest())), r, cursor.Rest())
  {
    hide GetU8, GetU64, GetBool, GetDeck;
    var perspectivePlayer :- cursor.U8();
    if perspectivePlayer > 1 {
      return None;
    }
    var duelFlags :- cursor.U64();
    var ownDecklistKnown :- cursor.Flag();
    var opponentDecklistKnown :- cursor.Flag();
    var ownDeck :- ReadDeck(cursor);
    var opponentDeck :- ReadDeck(cursor);
    return Some(MatchContext(perspectivePlayer, duelFlags, ownDecklistKnown, opponentDecklistKnown, ownDeck,
      opponentDeck));
  }

  // ---------------------------------------------------------------- lists of records

  method ReadZones(cursor: Cursor) returns (r: Option<seq<ObservedZone>>)
    requires cursor.Valid()
    modifies cursor
    ensures cursor.Valid() && Agrees(GetList(GetZone, ZoneLe, old(cursor.Rest())), r, cursor.Rest())
  {
    ZoneLaws();
    ghost var b := cursor.Rest();
    hide GetU32, GetZone, ZoneLe;
    var count :- cursor.U32();
    hide GetList;
    var remaining := cursor.Remaining();
    if count > remaining / 15 {
      GuardIsSafe(GetZone, ZoneLe, b, 15);
      return None;
    }
    ReadingStarts(GetZone, ZoneLe, b);
    var xs: seq<ObservedZone> := [];
    hide Reading, Consumes;
    while |xs| < count
      invariant cursor.Valid() && |xs| <= count
      invariant Reading(GetZone, ZoneLe, b, count, xs, cursor.Rest())
      decreases count - |xs|
    {
      ghost var rest := cursor.Rest();
      var next := ReadZone(cursor);
      if next.None? {
        ElementFails(GetZone, ZoneLe, b, count, xs, rest);
        return None;
      }
      var x := next.value;
      if xs != [] && !ZoneLe(xs[|xs| - 1], x) {
        OutOfOrder(GetZone, ZoneLe, b, count, xs, rest);
        return None;
      }
      ElementRead(GetZone, ZoneLe, b, count, xs, rest);
      xs := xs + [x];
    }
    ListRead(GetZone, ZoneLe, b, count, xs, cursor.Rest());
    return Some(xs);
  }

  method ReadCards(cursor: Cursor) returns (r: Option<seq<ObservedCard>>)
    requires cursor.Valid()
    modifies cursor
    ensures cursor.Valid() && Agrees(GetList(CardGetter(true), EntityLess, old(cursor.Rest())), r, cursor.Rest())
  {
    CardLaws(true);
    ghost var b := cursor.Rest();
    hide GetU32, GetCard, LexLess;
    var count :- cursor.U32();
    hide GetList;
    var remaining := cursor.Remaining();
    if count > remaining / 16 {
      GuardIsSafe(CardGetter(true), EntityLess, b, 16);
      return None;
    }
    ReadingStarts(CardGetter(true), EntityLess, b);
    var xs: seq<ObservedCard> := [];
    hide Reading, Consumes;
    while |xs| < count
      invariant cursor.Valid() && |xs| <= count
      invariant Reading(CardGetter(true), EntityLess, b, count, xs, cursor.Rest())
      decreases count - |xs|
    {
      ghost var rest := cursor.Rest();
      var previous: Option<Bytes> := if xs == [] then None else Some(xs[|xs| - 1].locator);
      var next := ReadCard(cursor, previous);
      if next.None? {
        if CardGetter(true)(rest).None? {
          ElementFails(CardGetter(true), EntityLess, b, count, xs, rest);
        } else {
          OutOfOrder(CardGetter(true), EntityLess, b, count, xs, rest);
        }
        return None;
      }
      var x := next.value;
      ElementRead(CardGetter(true), EntityLess, b, count, xs, rest);
      xs := xs + [x];
    }
    ListRead(CardGetter(true), EntityLess, b, count, xs, cursor.Rest());
    return Some(xs);
  }

  method ReadRelationships(cursor: Cursor) returns (r: Option<seq<Relationship>>)
    requires cursor.Valid()
    modifies cursor
    ensures cursor.Valid() && Agrees(GetList(RelationshipGetter(true), RelationshipLe, old(cursor.Rest())), r,
      cursor.Rest())
  {
    RelationshipLaws(true);
    ghost var b := cursor.Rest();
    hide GetU32, GetRelationship, RelationshipLe;
    var count :- cursor.U32();
    hide GetList;
    var remaining := cursor.Remaining();
    if count > remaining / 9 {
      GuardIsSafe(RelationshipGetter(true), RelationshipLe, b, 9);
      return None;
    }
    ReadingStarts(RelationshipGetter(true), RelationshipLe, b);
    var xs: seq<Relationship> := [];
    hide Reading, Consumes;
    while |xs| < count
      invariant cursor.Valid() && |xs| <= count
      invariant Reading(RelationshipGetter(true), RelationshipLe, b, count, xs, cursor.Rest())
      decreases count - |xs|
    {
      ghost var rest := cursor.Rest();
      var next := ReadRelationship(cursor);
      if next.None? {
        ElementFails(RelationshipGetter(true), RelationshipLe, b, count, xs, rest);
        return None;
      }
      var x := next.value;
      if xs != [] && !RelationshipLe(xs[|xs| - 1], x) {
        OutOfOrder(RelationshipGetter(true), RelationshipLe, b, count, xs, rest);
        return None;
      }
      ElementRead(RelationshipGetter(true), RelationshipLe, b, count, xs, rest);
      xs := xs + [x];
    }
    ListRead(RelationshipGetter(true), RelationshipLe, b, count, xs, cursor.Rest());
    return Some(xs);
  }

  method ReadLinks(cursor: Cursor) returns (r: Option<seq<ChainLink>>)
    requires cursor.Valid()
    modifies cursor
    ensures cursor.Valid() && Agrees(GetList(LinkGetter(true), AnyLinks, old(cursor.Rest())), r, cursor.Rest())
  {
    LinkLaws(true);
    ghost var b := cursor.Rest();
    hide GetU32, GetLink;
    var count :- cursor.U32();
    hide GetList;
    var remaining := cursor.Remaining();
    if count > remaining / 12 {
      GuardIsSafe(LinkGetter(true), AnyLinks, b, 12);
      return None;
    }
    ReadingStarts(LinkGetter(true), AnyLinks, b);
    var xs: seq<ChainLink> := [];
    hide Reading, Consumes;
    while |xs| < count
      invariant cursor.Valid() && |xs| <= count
      invariant Reading(LinkGetter(true), AnyLinks, b, count, xs, cursor.Rest())
      decreases count - |xs|
    {
      ghost var rest := cursor.Rest();
      var next := ReadLink(cursor);
      if next.None? {
        ElementFails(LinkGetter(true), AnyLinks, b, count, xs, rest);
        return None;
      }
      var x := next.value;
      ElementRead(LinkGetter(true), AnyLinks, b, count, xs, rest);
      xs := xs + [x];
    }
    ListRead(LinkGetter(true), AnyLinks, b, count, xs, cursor.Rest());
    return Some(xs);
  }

  method ReadEvents(cursor: Cursor) returns (r: Option<seq<VisibleEvent>>)
    requires cursor.Valid()
    modifies cursor
    ensures cursor.Valid() && Agrees(GetList(EventGetter(true), EventLess, old(cursor.Rest())), r, cursor.Rest())
  {
    EventLaws(true);
    ghost var b := cursor.Rest();
    hide GetU32, GetEvent;
    var count :- cursor.U32();
    hide GetList;
    var remaining := cursor.Remaining();
    if count > remaining / 25 {
      GuardIsSafe(EventGetter(true), EventLess, b, 25);
      return None;
    }
    ReadingStarts(EventGetter(true), EventLess, b);
    var xs: seq<VisibleEvent> := [];
    hide Reading, Consumes;
    while |xs| < count
      invariant cursor.Valid() && |xs| <= count
      invariant Reading(EventGetter(true), EventLess, b, count, xs, cursor.Rest())
      decreases count - |xs|
    {
      ghost var rest := cursor.Rest();
      var previous: Option<U64> := if xs == [] then None else Some(xs[|xs| - 1].eventIndex);
      var next := ReadEvent(cursor, previous);
      if next.None? {
        if EventGetter(true)(rest).None? {
          ElementFails(EventGetter(true), EventLess, b, count, xs, rest);
        } else {
          OutOfOrder(EventGetter(true), EventLess, b, count, xs, rest);
        }
        return None;
      }
      var x := next.value;
      ElementRead(EventGetter(true), EventLess, b, count, xs, rest);
      xs := xs + [x];
    }
    ListRead(EventGetter(true), EventLess, b, count, xs, cursor.Rest());
    return Some(xs);
  }

  // ---------------------------------------------------------------- the whole state

  method ReadHeader(cursor: Cursor) returns (r: Option<()>)
    requires cursor.Valid()
    modifies cursor
    ensures cursor.Valid() && Agrees(GetHeader(true, old(cursor.Rest())), r, cursor.Rest())
  {
    hide GetString, Ascii;
    var first :- cursor.Text();
    if first != Ascii(SCHEMA_ID) {
      return None;
    }
    var second :- cursor.Text();
    return if second == Ascii(SCHEMA_ID) then Some(()) else None;
  }

  method ReadView(cursor: Cursor) returns (r: Option<View>)
    requires cursor.Valid()
    modifies cursor
    ensures cursor.Valid() && Agrees(GetView(true, old(cursor.Rest())), r, cursor.Rest())
  {
    hide GetHeader, GetGlobals, GetList, GetU32, GetContext, CardGetter, RelationshipGetter, LinkGetter,
      EventGetter;
    var _ :- ReadHeader(cursor);
    var globals :- ReadGlobals(cursor);
    var zones :- ReadZones(cursor);
    var entities :- ReadCards(cursor);
    var relationships :- ReadRelationships(cursor);
    var length :- cursor.U32();
    var links :- ReadLinks(cursor);
    var visibleEvents :- ReadEvents(cursor);
    var matchContext :- ReadContext(cursor);
    return Some(View(globals, zones, entities, relationships, ChainState(length, links), visibleEvents, matchContext));
  }

  method ReadSafeState(bytes: Bytes) returns (r: Option<View>)
    ensures r == Decode(bytes)
  {
    hide GetView;
    var cursor := new Cursor(bytes);
    var view :- ReadView(cursor);
    var atEnd := cursor.End();
    return if atEnd then Some(view) else None;
  }
}
