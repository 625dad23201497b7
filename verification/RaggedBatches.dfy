/** A batch of encoded samples in its ragged layout: headers, thirteen columns, and the routing
    keys and presence masks that go with the candidate column. */
module RaggedBatches {
  import opened Bytes
  import opened Sorting
  import opened SafeState
  import opened EncodedState
  import opened EncodedInput
  import opened BatchColumns

  /** What is kept of a sample once its collections are taken out. */
  datatype SampleHeader = SampleHeader(
    vocabularyIdentity: Bytes, observationDigest: Bytes, perspectivePlayer: Byte, decisionIndex: U64,
    contextKindCode: Option<U16>, contextPlayer: Option<Byte>, globals: Globals, chainLength: U32,
    context: EncodedContext, domainDigest: Option<Bytes>)

  /** Which optional fields of a candidate are there, one byte each. */
  datatype Presence = Presence(
    choice: Byte, source: Byte, target: Byte, phase: Byte, position: Byte, sourceIndex: Byte, amount: Byte)

  datatype Columns = Columns(
    candidates: Column<EncodedCandidate>,
    zones: Column<EncodedZone>,
    entities: Column<Entity<nat>>,
    relationships: Column<Relation<nat>>,
    links: Column<Link<nat>>,
    events: Column<Event<nat>>,
    references: Column<nat>,
    tokens: Column<Bytes>,
    lifePoints: Column<U32>,
    ownMain: Column<U32>,
    opponentMain: Column<U32>,
    ownExtra: Column<U32>,
    opponentExtra: Column<U32>,
    presence: seq<Presence>, routingKeys: seq<Bytes>)

  datatype RaggedBatch = RaggedBatch(batchSize: U32, samples: seq<SampleHeader>, columns: Columns)

  // ---------------------------------------------------------------- parts of a sample

  function CandidatesOf(): EncodedModelInput -> seq<EncodedCandidate> {
    (e: EncodedModelInput) => e.candidates
  }

  function ZonesOf(): EncodedModelInput -> seq<EncodedZone> {
    (e: EncodedModelInput) => e.state.zones
  }

  function EntitiesOf(): EncodedModelInput -> seq<Entity<nat>> {
    (e: EncodedModelInput) => e.state.entities
  }

  function RelationshipsOf(): EncodedModelInput -> seq<Relation<nat>> {
    (e: EncodedModelInput) => e.state.relationships
  }

  function LinksOf(): EncodedModelInput -> seq<Link<nat>> {
    (e: EncodedModelInput) => e.state.links
  }

  function EventsOf(): EncodedModelInput -> seq<Event<nat>> {
    (e: EncodedModelInput) => e.state.events
  }

  function ReferencesOf(): EncodedModelInput -> seq<nat> {
    (e: EncodedModelInput) => e.state.references
  }

  function TokensOf(): EncodedModelInput -> seq<Bytes> {
    (e: EncodedModelInput) => e.table
  }

  function LifePointsOf(): EncodedModelInput -> seq<U32> {
    (e: EncodedModelInput) => e.state.globals.lifePoints
  }

  function OwnMainOf(): EncodedModelInput -> seq<U32> {
    (e: EncodedModelInput) => e.state.context.ownDeck.mainDeck
  }

  function OpponentMainOf(): EncodedModelInput -> seq<U32> {
    (e: EncodedModelInput) => e.state.context.opponentDeck.mainDeck
  }

  function OwnExtraOf(): EncodedModelInput -> seq<U32> {
    (e: EncodedModelInput) => e.state.context.ownDeck.extraDeck
  }

  function OpponentExtraOf(): EncodedModelInput -> seq<U32> {
    (e: EncodedModelInput) => e.state.context.opponentDeck.extraDeck
  }

  function KeysOf(): EncodedModelInput -> seq<Bytes> {
    (e: EncodedModelInput) => e.routingKeys
  }

  function Mark(present: bool): Byte {
    if present then 1 else 0
  }

  function PresenceOf(c: EncodedCandidate): Presence {
    Presence(Mark(c.choice.Some?), Mark(c.source.Some?), Mark(c.target.Some?), Mark(c.phase.Some?),
      Mark(c.position.Some?),
             Mark(c.sourceIndex.Some?), Mark(c.amount.Some?))
  }

  function WithoutDeck(d: Deck): Deck {
    Deck(d.known, [], [])
  }

  function HeaderOf(e: EncodedModelInput): SampleHeader {
    var m := e.state.context;
    SampleHeader(e.vocabularyIdentity, e.observationDigest, e.perspectivePlayer, e.decisionIndex, e.contextKindCode,
                 e.contextPlayer, e.state.globals.(lifePoints := []), e.state.chainLength,
                 m.(ownDeck := WithoutDeck(m.ownDeck), opponentDeck := WithoutDeck(m.opponentDeck)), e.domainDigest)
  }

  predicate HeaderEmptied(h: SampleHeader) {
    && h.globals.lifePoints == [] && h.context.ownDeck.mainDeck == [] && h.context.ownDeck.extraDeck == []
    && h.context.opponentDeck.mainDeck == [] && h.context.opponentDeck.extraDeck == []
  }

  // ---------------------------------------------------------------- batching

  function ColumnsOf(samples: seq<EncodedModelInput>): Columns {
    Columns(
      ColumnOf(CandidatesOf(), samples),
      ColumnOf(ZonesOf(), samples),
      ColumnOf(EntitiesOf(), samples),
      ColumnOf(RelationshipsOf(), samples),
      ColumnOf(LinksOf(), samples),
      ColumnOf(EventsOf(), samples),
      ColumnOf(ReferencesOf(), samples),
      ColumnOf(TokensOf(), samples),
      ColumnOf(LifePointsOf(), samples),
      ColumnOf(OwnMainOf(), samples),
      ColumnOf(OpponentMainOf(), samples),
      ColumnOf(OwnExtraOf(), samples),
      ColumnOf(OpponentExtraOf(), samples),
      Map(PresenceOf, Flat(CandidatesOf(), samples)), Flat(KeysOf(), samples))
  }

  function RaggedOf(samples: seq<EncodedModelInput>): RaggedBatch
    requires |samples| <= U32_MAX
  {
    RaggedBatch(|samples|, Map(HeaderOf, samples), ColumnsOf(samples))
  }

  /** The sample at an index: its header with its row of every column. */
  function SampleAt(h: SampleHeader, c: Columns, i: nat): EncodedModelInput {
    var m := h.context;
    EncodedModelInput(
      h.vocabularyIdentity, h.observationDigest, h.perspectivePlayer, h.decisionIndex, Row(c.tokens, i),
        h.contextKindCode,
      h.contextPlayer,
      State(Row(c.references, i), h.globals.(lifePoints := Row(c.lifePoints, i)), Row(c.zones, i), Row(c.entities, i),
            Row(c.relationships, i), h.chainLength, Row(c.links, i), Row(c.events, i),
            m.(ownDeck := Deck(m.ownDeck.known, Row(c.ownMain, i), Row(c.ownExtra, i)),
               opponentDeck := Deck(m.opponentDeck.known, Row(c.opponentMain, i), Row(c.opponentExtra, i)))),
      h.domainDigest, Row(c.candidates, i), Row(KeyColumn(c), i))
  }

  /** The routing keys, cut where the candidates are. */
  function KeyColumn(c: Columns): Column<Bytes> {
    Column(c.routingKeys, c.candidates.offsets)
  }

  function SamplesOf(r: RaggedBatch): (samples: seq<EncodedModelInput>)
    ensures |samples| == |r.samples|
    ensures forall i :: 0 <= i < |r.samples| ==> samples[i] == SampleAt(r.samples[i], r.columns, i)
  {
    seq(|r.samples|, i requires 0 <= i < |r.samples| => SampleAt(r.samples[i], r.columns, i))
  }

  /** Every offset array runs from zero to its flat length without descending. */
  predicate OffsetsOk(c: Columns, n: nat) {
    && ColumnOk(c.candidates, n)
    && ColumnOk(c.zones, n)
    && ColumnOk(c.entities, n)
    && ColumnOk(c.relationships, n)
    && ColumnOk(c.links, n)
    && ColumnOk(c.events, n)
    && ColumnOk(c.references, n)
    && ColumnOk(c.tokens, n)
    && ColumnOk(c.lifePoints, n)
    && ColumnOk(c.ownMain, n)
    && ColumnOk(c.opponentMain, n)
    && ColumnOk(c.ownExtra, n)
    && ColumnOk(c.opponentExtra, n)
  }

  predicate ColumnsOk(c: Columns, n: nat) {
    && OffsetsOk(c, n)
    && |c.routingKeys| == |c.candidates.values| == |c.presence|
    && c.presence == Map(PresenceOf, c.candidates.values)
  }

  /** A ragged batch the layout accepts; `valid` is what the encoded-input layer accepts. */
  predicate RaggedOk(valid: EncodedModelInput -> bool, r: RaggedBatch) {
    && 0 < r.batchSize == |r.samples| && (forall i :: 0 <= i < |r.samples| ==> HeaderEmptied(r.samples[i]))
    && ColumnsOk(r.columns, |r.samples|)
    && (forall i :: 0 <= i < |r.samples| ==> valid(SampleAt(r.samples[i], r.columns, i)))
  }

  /** Why a ragged batch is refused, if it is: the first check that fails. */
  function RaggedFault(valid: EncodedModelInput -> bool, r: RaggedBatch): Option<LayoutError> {
    var c := r.columns;
    if r.batchSize == 0 || |r.samples| != r.batchSize then Some(EmptyBatch)
    else if !(forall i :: 0 <= i < |r.samples| ==> HeaderEmptied(r.samples[i])) then Some(InvalidRaggedLayout)
    else if !OffsetsOk(c, r.batchSize) || |c.routingKeys| != |c.candidates.values|
      || |c.presence| != |c.candidates.values| then
      Some(InvalidRaggedLayout)
    else if c.presence != Map(PresenceOf, c.candidates.values) then Some(OptionalPresenceMismatch)
    else if !(forall i :: 0 <= i < |r.samples| ==> valid(SampleAt(r.samples[i], c, i))) then Some(InvalidEncodedSample)
    else None
  }

  lemma FaultlessRagged(valid: EncodedModelInput -> bool, r: RaggedBatch)
    ensures RaggedFault(valid, r).None? <==> RaggedOk(valid, r)
  {
    hide ColumnOk, SampleAt;
  }

  /** The machine's size type counts every column. */
  predicate Counted(c: Columns) {
    && |c.candidates.values| <= U64_MAX && |c.zones.values| <= U64_MAX && |c.entities.values| <= U64_MAX
    && |c.relationships.values| <= U64_MAX && |c.links.values| <= U64_MAX && |c.events.values| <= U64_MAX
    && |c.references.values| <= U64_MAX && |c.tokens.values| <= U64_MAX && |c.lifePoints.values| <= U64_MAX
    && |c.ownMain.values| <= U64_MAX && |c.opponentMain.values| <= U64_MAX && |c.ownExtra.values| <= U64_MAX
    && |c.opponentExtra.values| <= U64_MAX
  }

  /** Why some samples cannot be batched, taking them in order, if they cannot. */
  function SamplesFault(valid: EncodedModelInput -> bool, samples: seq<EncodedModelInput>): Option<LayoutError> {
    if samples == [] then None
    else
      var before := SamplesFault(valid, samples[..|samples| - 1]);
      if before.Some? then before
      else if !valid(samples[|samples| - 1]) then Some(InvalidEncodedSample)
      else if !Counted(ColumnsOf(samples)) then Some(CountOverflow)
      else None
  }

  function BatchingFault(valid: EncodedModelInput -> bool, samples: seq<EncodedModelInput>): Option<LayoutError> {
    if samples == [] then Some(EmptyBatch)
    else if |samples| > U32_MAX then Some(CountOverflow)
    else SamplesFault(valid, samples)
  }

  /** All that is used of that layer: a sample it accepts has one routing key a candidate. */
  ghost predicate PairsKeys(valid: EncodedModelInput -> bool) {
    forall e :: valid(e) ==> |e.candidates| == |e.routingKeys|
  }

  predicate Paired(samples: seq<EncodedModelInput>) {
    forall i :: 0 <= i < |samples| ==> |samples[i].candidates| == |samples[i].routingKeys|
  }

  // ---------------------------------------------------------------- nothing is lost

  lemma KeysAreCut(samples: seq<EncodedModelInput>, i: nat)
    requires Paired(samples) && i < |samples|
    ensures KeyColumn(ColumnsOf(samples)) == ColumnOf(KeysOf(), samples)
    ensures Row(KeyColumn(ColumnsOf(samples)), i) == samples[i].routingKeys
  {
    hide Flat, Ends, Row;
    SameEnds(CandidatesOf(), KeysOf(), samples);
    RunIsRow(KeysOf(), samples, i);
  }

  /** Batching loses nothing: the sample at an index is the sample that went in there. */
  lemma BatchedSampleIsItself(samples: seq<EncodedModelInput>, i: nat)
    requires |samples| <= U32_MAX && Paired(samples) && i < |samples|
    ensures SamplesOf(RaggedOf(samples))[i] == samples[i]
  {
    hide Flat, Ends, Row;
    KeysAreCut(samples, i);
    RunIsRow(CandidatesOf(), samples, i);
    RunIsRow(ZonesOf(), samples, i);
    RunIsRow(EntitiesOf(), samples, i);
    RunIsRow(RelationshipsOf(), samples, i);
    RunIsRow(LinksOf(), samples, i);
    RunIsRow(EventsOf(), samples, i);
    RunIsRow(ReferencesOf(), samples, i);
    RunIsRow(TokensOf(), samples, i);
    RunIsRow(LifePointsOf(), samples, i);
    RunIsRow(OwnMainOf(), samples, i);
    RunIsRow(OpponentMainOf(), samples, i);
    RunIsRow(OwnExtraOf(), samples, i);
    RunIsRow(OpponentExtraOf(), samples, i);
  }

  lemma BatchedSamples(samples: seq<EncodedModelInput>)
    requires |samples| <= U32_MAX && Paired(samples)
    ensures SamplesOf(RaggedOf(samples)) == samples
  {
    hide RaggedOf, SampleAt;
    BatchedCount(samples);
    forall i | 0 <= i < |samples| ensures SamplesOf(RaggedOf(samples))[i] == samples[i] {
      BatchedSampleIsItself(samples, i);
    }
  }

  lemma BatchedCount(samples: seq<EncodedModelInput>)
    requires |samples| <= U32_MAX
    ensures |RaggedOf(samples).samples| == |samples| == RaggedOf(samples).batchSize
    ensures forall i :: 0 <= i < |samples| ==> RaggedOf(samples).samples[i] == HeaderOf(samples[i])
  {
    hide ColumnsOf;
  }

  lemma ColumnsAreOk(samples: seq<EncodedModelInput>)
    requires Paired(samples)
    ensures ColumnsOk(ColumnsOf(samples), |samples|)
  {
    hide Flat, Ends, ColumnOk;
    SameEnds(CandidatesOf(), KeysOf(), samples);
    LaidIsOk(CandidatesOf(), samples);
    LaidIsOk(ZonesOf(), samples);
    LaidIsOk(EntitiesOf(), samples);
    LaidIsOk(RelationshipsOf(), samples);
    LaidIsOk(LinksOf(), samples);
    LaidIsOk(EventsOf(), samples);
    LaidIsOk(ReferencesOf(), samples);
    LaidIsOk(TokensOf(), samples);
    LaidIsOk(LifePointsOf(), samples);
    LaidIsOk(OwnMainOf(), samples);
    LaidIsOk(OpponentMainOf(), samples);
    LaidIsOk(OwnExtraOf(), samples);
    LaidIsOk(OpponentExtraOf(), samples);
  }

  /** The check after batching can never fail: every batch of valid samples is valid, its
      thirteen offset arrays monotone from zero to the flat length. */
  lemma BatchedIsValid(valid: EncodedModelInput -> bool, samples: seq<EncodedModelInput>)
    requires PairsKeys(valid) && 0 < |samples| <= U32_MAX && forall i :: 0 <= i < |samples| ==> valid(samples[i])
    ensures Paired(samples) && RaggedOk(valid, RaggedOf(samples))
  {
    hide ColumnsOk, ColumnsOf, SampleAt;
    ColumnsAreOk(samples);
    BatchedSamples(samples);
    BatchedCount(samples);
    forall i | 0 <= i < |samples| ensures valid(SampleAt(RaggedOf(samples).samples[i], RaggedOf(samples).columns, i)) {
      assert SamplesOf(RaggedOf(samples))[i] == samples[i];
    }
  }

  // ---------------------------------------------------------------- a batch is its samples

  lemma RowsAreParts(r: RaggedBatch, i: nat)
    requires i < |r.samples|
    ensures var e := SampleAt(r.samples[i], r.columns, i);
      && CandidatesOf()(e) == Row(r.columns.candidates, i)
      && ZonesOf()(e) == Row(r.columns.zones, i)
      && EntitiesOf()(e) == Row(r.columns.entities, i)
      && RelationshipsOf()(e) == Row(r.columns.relationships, i)
      && LinksOf()(e) == Row(r.columns.links, i)
      && EventsOf()(e) == Row(r.columns.events, i)
      && ReferencesOf()(e) == Row(r.columns.references, i)
      && TokensOf()(e) == Row(r.columns.tokens, i)
      && LifePointsOf()(e) == Row(r.columns.lifePoints, i)
      && OwnMainOf()(e) == Row(r.columns.ownMain, i)
      && OpponentMainOf()(e) == Row(r.columns.opponentMain, i)
      && OwnExtraOf()(e) == Row(r.columns.ownExtra, i)
      && OpponentExtraOf()(e) == Row(r.columns.opponentExtra, i)
      && KeysOf()(e) == Row(KeyColumn(r.columns), i)
  {
    hide Row;
  }

  lemma HeadersKept(r: RaggedBatch, i: nat)
    requires i < |r.samples| && HeaderEmptied(r.samples[i])
    ensures HeaderOf(SampleAt(r.samples[i], r.columns, i)) == r.samples[i]
  {
    hide Row;
  }

  lemma KeyColumnOk(c: Columns, n: nat)
    requires ColumnsOk(c, n)
    ensures ColumnOk(KeyColumn(c), n)
  {
  }

  lemma ColumnsRebuilt(r: RaggedBatch)
    requires ColumnsOk(r.columns, |r.samples|)
    ensures ColumnsOf(SamplesOf(r)) == r.columns
  {
    hide Row, Flat, Ends, ColumnOk, SampleAt, SamplesOf;
    var samples := SamplesOf(r);
    forall i | 0 <= i < |r.samples|
      ensures CandidatesOf()(samples[i]) == Row(r.columns.candidates, i)
      ensures ZonesOf()(samples[i]) == Row(r.columns.zones, i)
      ensures EntitiesOf()(samples[i]) == Row(r.columns.entities, i)
      ensures RelationshipsOf()(samples[i]) == Row(r.columns.relationships, i)
      ensures LinksOf()(samples[i]) == Row(r.columns.links, i)
      ensures EventsOf()(samples[i]) == Row(r.columns.events, i)
      ensures ReferencesOf()(samples[i]) == Row(r.columns.references, i)
      ensures TokensOf()(samples[i]) == Row(r.columns.tokens, i)
      ensures LifePointsOf()(samples[i]) == Row(r.columns.lifePoints, i)
      ensures OwnMainOf()(samples[i]) == Row(r.columns.ownMain, i)
      ensures OpponentMainOf()(samples[i]) == Row(r.columns.opponentMain, i)
      ensures OwnExtraOf()(samples[i]) == Row(r.columns.ownExtra, i)
      ensures OpponentExtraOf()(samples[i]) == Row(r.columns.opponentExtra, i)
      ensures KeysOf()(samples[i]) == Row(KeyColumn(r.columns), i)
    {
      RowsAreParts(r, i);
    }
    KeyColumnOk(r.columns, |r.samples|);
    ColumnFromParts(KeysOf(), samples, KeyColumn(r.columns));
    ColumnFromParts(CandidatesOf(), samples, r.columns.candidates);
    ColumnFromParts(ZonesOf(), samples, r.columns.zones);
    ColumnFromParts(EntitiesOf(), samples, r.columns.entities);
    ColumnFromParts(RelationshipsOf(), samples, r.columns.relationships);
    ColumnFromParts(LinksOf(), samples, r.columns.links);
    ColumnFromParts(EventsOf(), samples, r.columns.events);
    ColumnFromParts(ReferencesOf(), samples, r.columns.references);
    ColumnFromParts(TokensOf(), samples, r.columns.tokens);
    ColumnFromParts(LifePointsOf(), samples, r.columns.lifePoints);
    ColumnFromParts(OwnMainOf(), samples, r.columns.ownMain);
    ColumnFromParts(OpponentMainOf(), samples, r.columns.opponentMain);
    ColumnFromParts(OwnExtraOf(), samples, r.columns.ownExtra);
    ColumnFromParts(OpponentExtraOf(), samples, r.columns.opponentExtra);
  }

  /** A valid ragged batch is the batch of its samples, so two batches with the same samples are
      the same batch. */
  lemma BatchIsItsSamples(valid: EncodedModelInput -> bool, r: RaggedBatch)
    requires RaggedOk(valid, r)
    ensures RaggedOf(SamplesOf(r)) == r
  {
    hide SampleAt, ColumnsOk, ColumnsOf, HeaderEmptied, HeaderOf;
    ColumnsRebuilt(r);
    forall i | 0 <= i < |r.samples| ensures HeaderOf(SamplesOf(r)[i]) == r.samples[i] {
      HeadersKept(r, i);
    }
    assert Map(HeaderOf, SamplesOf(r)) == r.samples;
  }
}
