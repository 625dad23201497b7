/** The public entry points of the safe-state codec: validation, canonical bytes of an
    observation, and the decoder with its final comparison against a re-encoding. */
module SafeStateBoundary {
  import opened Bytes
  import opened Text
  import opened Sorting
  import opened SafeState
  import opened SafeStateNormal
  import opened SafeStateCodec
  import opened SafeStateContent
  import opened SafeStateDecoder
  import opened SafeStateEncoder

  const OBSERVATION_SCHEMA_ID: string := "ygo.player_observation.v1"

  /** A visible event as the observation layer records it. */
  datatype VisibleGameEvent = VisibleGameEvent(engineStepIndex: U64, event: VisibleEvent)

  /** Decision context of the observation layer; most of it is internal. */
  datatype DecisionContext = DecisionContext(
    decisionId: Option<Bytes>, kind: Option<Bytes>, engineStepIndex: Option<U64>, player: Option<Byte>,
    engineMessageType: Option<Byte>, engineMessageName: Option<Bytes>, continuationId: Option<Bytes>,
    referencedEntities: seq<Bytes>)

  datatype PlayerObservation = PlayerObservation(
    schemaVersion: string, perspectivePlayer: Byte, decisionIndex: U64, engineStepIndex: U64, globals: Globals,
    zones: seq<ObservedZone>, entities: seq<ObservedCard>, relationships: seq<Relationship>, chain: ChainState,
    visibleEvents: seq<VisibleGameEvent>, decisionContext: DecisionContext, matchContext: MatchContext,
    observationHash: Bytes)

  datatype Encoded = Bytes(bytes: Bytes) | InvalidArgument | LengthError

  function PublicEvent(e: VisibleGameEvent): VisibleEvent {
    e.event
  }

  /** The fields of an observation that the safe state keeps. */
  function StateOf(o: PlayerObservation): View {
    View(o.globals, o.zones, o.entities, o.relationships, o.chain, Map(PublicEvent, o.visibleEvents), o.matchContext)
  }

  predicate Validates(o: PlayerObservation) {
    && o.schemaVersion == OBSERVATION_SCHEMA_ID && o.perspectivePlayer <= 1
    && ViewMeets(RAW, StateOf(o)) && o.matchContext.perspectivePlayer == o.perspectivePlayer
  }

  // ---------------------------------------------------------------- validation

  /** Once the copy is sorted, a repeated locator shows up next to itself. */
  lemma AdjacentLocators(cs: seq<ObservedCard>, sorted: seq<ObservedCard>)
    requires IsSortOf(EntityLe, cs, sorted)
    ensures UniqueLocators(cs) <==> forall i :: 0 < i < |sorted| ==> sorted[i - 1].locator != sorted[i].locator
  {
    SortedLocators(sorted);
    MapPermuted(LocatorOf, cs, sorted);
    DistinctPermuted(Map(LocatorOf, cs), Map(LocatorOf, sorted));
    LexOrder();
    hide LexLess;
    assert UniqueLocators(cs) <==> Ordered(EntityLess, sorted);
    forall i | 0 < i < |sorted|
      ensures EntityLess(sorted[i - 1], sorted[i]) <==> sorted[i - 1].locator != sorted[i].locator
    {
      assert EntityLe(sorted[i - 1], sorted[i]);
    }
  }

  predicate IndexLe(a: int, b: int) {
    a <= b
  }

  predicate IndexLess(a: int, b: int) {
    a < b
  }

  lemma AdjacentIndices(keys: seq<int>, sorted: seq<int>)
    requires IsSortOf(IndexLe, keys, sorted)
    ensures Distinct(keys) <==> forall i :: 0 < i < |sorted| ==> sorted[i - 1] != sorted[i]
  {
    DistinctPermuted(keys, sorted);
    StrictIffDistinct(IndexLe, IndexLess, (key: int) => key, sorted);
    var same: seq<int> := Map((key: int) => key, sorted);
    assert same == sorted;
    assert Ordered(IndexLess, sorted) <==> forall i :: 0 < i < |sorted| ==> sorted[i - 1] != sorted[i] by {
      forall i | 0 < i < |sorted| ensures IndexLess(sorted[i - 1], sorted[i]) <==> sorted[i - 1] != sorted[i] {
        assert IndexLe(sorted[i - 1], sorted[i]);
      }
    }
  }

  method ValidEntities(entities: seq<ObservedCard>) returns (ok: bool)
    ensures ok <==> AllOk(CardDemand(RAW), entities) && UniqueLocators(entities)
  {
    hide CardMeets;
    for i := 0 to |entities|
      invariant forall j :: 0 <= j < i ==> CardMeets(RAW, entities[j])
    {
      if !CardMeets(RAW, entities[i]) {
        assert !CardDemand(RAW)(entities[i]);
        return false;
      }
    }
    LocatorOrders();
    var sorted := StdSort(EntityLe, entities);
    AdjacentLocators(entities, sorted);
    hide UniqueLocators, IsSortOf, TotalPreorder;
    var index := 1;
    while index < |sorted|
      invariant index >= 1 && forall i :: 0 < i < index && i < |sorted| ==> sorted[i - 1].locator != sorted[i].locator
    {
      if sorted[index - 1].locator == sorted[index].locator {
        return false;
      }
      index := index + 1;
    }
    return true;
  }

  method ValidEvents(events: seq<VisibleEvent>) returns (ok: bool)
    ensures ok <==> AllOk(EventDemand(RAW), events) && UniqueIndices(events)
  {
    hide EventMeets;
    var indices: seq<int> := [];
    for i := 0 to |events|
      invariant forall j :: 0 <= j < i ==> EventMeets(RAW, events[j])
      invariant |indices| == i && forall j :: 0 <= j < i ==> indices[j] == events[j].eventIndex
    {
      if !EventMeets(RAW, events[i]) {
        assert !EventDemand(RAW)(events[i]);
        return false;
      }
      indices := indices + [events[i].eventIndex];
    }
    assert UniqueIndices(events) <==> Distinct(indices);
    var sorted := StdSort(IndexLe, indices);
    AdjacentIndices(indices, sorted);
    hide UniqueIndices, IsSortOf, Distinct;
    var index := 1;
    while index < |sorted|
      invariant index >= 1 && forall i :: 0 < i < index && i < |sorted| ==> sorted[i - 1] != sorted[i]
    {
      if sorted[index - 1] == sorted[index] {
        return false;
      }
      index := index + 1;
    }
    return true;
  }

  method ValidLinks(links: seq<ChainLink>) returns (ok: bool)
    ensures ok <==> AllOk(LinkDemand(RAW), links)
  {
    hide LinkMeets;
    for i := 0 to |links|
      invariant forall j :: 0 <= j < i ==> LinkMeets(RAW, links[j])
    {
      if !LinkMeets(RAW, links[i]) {
        assert !LinkDemand(RAW)(links[i]);
        return false;
      }
    }
    return true;
  }

  method ValidRelationships(relationships: seq<Relationship>) returns (ok: bool)
    ensures ok <==> AllOk(RelationshipDemand(RAW), relationships)
  {
    hide LocatorMeets;
    for i := 0 to |relationships|
      invariant forall j :: 0 <= j < i ==> RelationshipDemand(RAW)(relationships[j])
    {
      if !LocatorMeets(RAW, relationships[i].source) || !LocatorMeets(RAW, relationships[i].target) {
        return false;
      }
    }
    return true;
  }

  method ValidZones(zones: seq<ObservedZone>) returns (ok: bool)
    ensures ok <==> AllOk(ZoneOk, zones)
  {
    for i := 0 to |zones|
      invariant forall j :: 0 <= j < i ==> ZoneOk(zones[j])
    {
      if zones[i].player > 1 {
        return false;
      }
    }
    return true;
  }

  /** What validation establishes about a state, collection by collection. */
  lemma ValidParts(v: View)
    ensures ViewMeets(RAW, v) <==>
      && OptOk(PlayerOk, v.globals.playerToAct) && OptOk(PlayerOk, v.globals.turnPlayer)
      && AllOk(ZoneOk, v.zones) && AllOk(CardDemand(RAW), v.entities) && UniqueLocators(v.entities)
      && AllOk(RelationshipDemand(RAW), v.relationships) && AllOk(LinkDemand(RAW), v.chain.links)
      && AllOk(EventDemand(RAW), v.visibleEvents) && UniqueIndices(v.visibleEvents)
      && v.matchContext.perspectivePlayer <= 1
      && DeckMeets(RAW, v.matchContext.ownDeck) && DeckMeets(RAW, v.matchContext.opponentDeck)
  {
    hide CardMeets, LinkMeets, EventMeets, LocatorMeets, DeckMeets, UniqueLocators, UniqueIndices, OptOk;
    assert AllOk(CardDemand(RAW), v.entities) <==> forall i :: 0 <= i < |v.entities| ==> CardMeets(RAW, v.entities[i]);
    assert AllOk(LinkDemand(RAW), v.chain.links) <==>
      forall i :: 0 <= i < |v.chain.links| ==> LinkMeets(RAW, v.chain.links[i]);
    assert AllOk(EventDemand(RAW), v.visibleEvents) <==>
      forall i :: 0 <= i < |v.visibleEvents| ==> EventMeets(RAW, v.visibleEvents[i]);
    assert AllOk(RelationshipDemand(RAW), v.relationships) <==> forall i :: 0 <= i < |v.relationships| ==>
      LocatorMeets(RAW, v.relationships[i].source) && LocatorMeets(RAW, v.relationships[i].target);
  }

  method ValidateObservation(o: PlayerObservation) returns (ok: bool)
    ensures ok <==> Validates(o)
  {
    ValidParts(StateOf(o));
    hide ViewMeets, AllOk, UniqueLocators, UniqueIndices, DeckMeets, OptOk, Map;
    if o.schemaVersion != OBSERVATION_SCHEMA_ID || o.perspectivePlayer > 1 {
      return false;
    }
    var part := ValidZones(o.zones);
    if !part {
      return false;
    }
    part := ValidEntities(o.entities);
    if !part {
      return false;
    }
    part := ValidRelationships(o.relationships);
    if !part {
      return false;
    }
    if !OptOk(PlayerOk, o.globals.playerToAct) || !OptOk(PlayerOk, o.globals.turnPlayer) {
      return false;
    }
    part := ValidLinks(o.chain.links);
    if !part {
      return false;
    }
    part := ValidEvents(StateOf(o).visibleEvents);
    if !part {
      return false;
    }
    if o.matchContext.perspectivePlayer > 1 || o.matchContext.perspectivePlayer != o.perspectivePlayer {
      return false;
    }
    return DeckMeets(RAW, o.matchContext.ownDeck) && DeckMeets(RAW, o.matchContext.opponentDeck);
  }

  // ---------------------------------------------------------------- the entry points

  /** What the entry point promises: canonical bytes, or which error it throws. */
  function CanonicalBytes(o: PlayerObservation): Encoded {
    if !Validates(o) then InvalidArgument
    else if !ViewMeets(SIZED, StateOf(o)) then LengthError
    else Encoded.Bytes(Encode(StateOf(o)))
  }

  method CanonicalSafeStateBytes(o: PlayerObservation) returns (r: Encoded)
    ensures r == CanonicalBytes(o)
  {
    hide ViewMeets, Encode;
    var valid := ValidateObservation(o);
    if !valid {
      return InvalidArgument;
    }
    var encoded := EncodeView(StateOf(o));
    return if encoded.None? then LengthError else Encoded.Bytes(encoded.value);
  }

  /** A state the parser produced is valid, unique where it must be, and fits. */
  lemma ParsedStateIsEncodable(b: Bytes)
    requires Decode(b).Some?
    ensures ViewMeets(RAW, Decode(b).value) && ViewMeets(SIZED, Decode(b).value)
    ensures ViewMeets(Demand(true, true), Decode(b).value)
  {
    var v := Decode(b).value;
    hide Decode, PutView;
    DecodeIffCanonical(b, v);
    NormalView(true, v);
    WeakerText(v);
    NormalizeAdmitted(false, v);
    NormalizeAdmitted(true, v);
    hide ViewOk, Normalize;
    SizedIsRaw(v);
  }

  lemma SizedIsRaw(v: View)
    requires ViewMeets(SIZED, v)
    ensures ViewMeets(RAW, v)
  {
    hide IsLocator, Utf8Octets, UniqueLocators, UniqueIndices, OptOk;
  }

  /** The decoder with its last check. The comparison is there in the code; the proof is that
      it never decides anything. */
  method DecodeCanonicalSafeState(bytes: Bytes) returns (r: Option<View>)
    ensures r == Decode(bytes)
  {
    hide Decode, ViewMeets, Encode;
    var parsed :- ReadSafeState(bytes);
    ParsedStateIsEncodable(bytes);
    ReencodeIsIdentity(bytes);
    var again := EncodeView(parsed);
    return if again == Some(bytes) then Some(parsed) else None;
  }

  // ---------------------------------------------------------------- main results

  /** Encoding a valid observation and decoding the bytes gives its public state in normal
      form exactly when its locators are text. */
  lemma ObservationRoundTrip(o: PlayerObservation)
    requires CanonicalBytes(o).Bytes?
    ensures ViewMeets(Demand(true, true), StateOf(o)) ==> Decode(CanonicalBytes(o).bytes) == Some(Normalize(StateOf(o)))
    ensures !ViewMeets(Demand(true, true), StateOf(o)) ==> Decode(CanonicalBytes(o).bytes) == None
  {
    DecodeOfEncode(StateOf(o));
  }

  /** A valid observation whose bytes are refused: one locator is not text. */
  const UNREADABLE_OBSERVATION := PlayerObservation(
    OBSERVATION_SCHEMA_ID, 0, 0, 0, UNREADABLE.globals, [], [], UNREADABLE.relationships, UNREADABLE.chain, [],
    DecisionContext(None, None, None, None, None, None, None, []), UNREADABLE.matchContext, [])

  lemma RefusedObservation()
    ensures Validates(UNREADABLE_OBSERVATION) && CanonicalBytes(UNREADABLE_OBSERVATION).Bytes?
    ensures Decode(CanonicalBytes(UNREADABLE_OBSERVATION).bytes) == None
  {
    hide Decode, Encode;
    UnreadableIsLost();
    assert StateOf(UNREADABLE_OBSERVATION) == UNREADABLE;
  }

  /** Two observations that encode at all have the same canonical bytes exactly when they show
      the same content: the decision context, step indices, hash and the engine step of each
      event leave no trace. */
  lemma BytesShowContentOnly(o: PlayerObservation, p: PlayerObservation)
    requires CanonicalBytes(o).Bytes? && CanonicalBytes(p).Bytes?
    ensures CanonicalBytes(o) == CanonicalBytes(p) <==> SameContent(StateOf(o), StateOf(p))
  {
    SameBytesIffSameContent(StateOf(o), StateOf(p));
  }
}
