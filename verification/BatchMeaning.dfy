/** What a batch holds, cell by cell: which field of which sample stands where in the ragged
    and in the padded layout, and how wide each collection of the padded one is. */
module BatchMeaning {
  import opened Bytes
  import opened Sorting
  import opened EncodedState
  import opened EncodedInput
  import opened BatchColumns
  import opened RaggedBatches
  import opened PaddedBatches
  import opened PaddedBatchRun

  // ---------------------------------------------------------------- ragged

  /** The values between the i-th offset and the next are this list. */
  predicate RowIs<T(==)>(c: Column<T>, i: nat, row: seq<T>) {
    && i + 1 < |c.offsets| && c.offsets[i] <= c.offsets[i + 1] <= |c.values|
    && c.values[c.offsets[i]..c.offsets[i + 1]] == row
  }

  predicate Marks(p: Presence, c: EncodedCandidate) {
    && p.choice == (if c.choice.Some? then 1 else 0) && p.source == (if c.source.Some? then 1 else 0)
    && p.target == (if c.target.Some? then 1 else 0) && p.phase == (if c.phase.Some? then 1 else 0)
    && p.position == (if c.position.Some? then 1 else 0) && p.sourceIndex == (if c.sourceIndex.Some? then 1 else 0)
    && p.amount == (if c.amount.Some? then 1 else 0)
  }

  predicate AllMarked(ps: seq<Presence>, cs: seq<EncodedCandidate>) {
    |ps| == |cs| && forall k :: 0 <= k < |cs| ==> Marks(ps[k], cs[k])
  }

  /** A header keeps of a sample what has a fixed size. */
  predicate HeaderShows(h: SampleHeader, e: EncodedModelInput) {
    && h.vocabularyIdentity == e.vocabularyIdentity && h.observationDigest == e.observationDigest
    && h.perspectivePlayer == e.perspectivePlayer && h.decisionIndex == e.decisionIndex
    && h.contextKindCode == e.contextKindCode && h.contextPlayer == e.contextPlayer
    && h.domainDigest == e.domainDigest && h.chainLength == e.state.chainLength
    && h.globals.lifePoints == [] && h.globals.(lifePoints := e.state.globals.lifePoints) == e.state.globals
    && h.context.perspectivePlayer == e.state.context.perspectivePlayer
    && h.context.duelFlags == e.state.context.duelFlags
    && h.context.ownDecklistKnown == e.state.context.ownDecklistKnown
    && h.context.opponentDecklistKnown == e.state.context.opponentDecklistKnown
    && h.context.ownDeck.known == e.state.context.ownDeck.known
    && h.context.opponentDeck.known == e.state.context.opponentDeck.known
    && h.context.ownDeck.mainDeck == h.context.ownDeck.extraDeck == []
    && h.context.opponentDeck.mainDeck == h.context.opponentDeck.extraDeck == []
  }

  /** The i-th row of every column is that collection of the sample. */
  predicate RowsAre(c: Columns, i: nat, e: EncodedModelInput) {
    && RowIs(c.candidates, i, e.candidates) && RowIs(c.zones, i, e.state.zones)
    && RowIs(c.entities, i, e.state.entities) && RowIs(c.relationships, i, e.state.relationships)
    && RowIs(c.links, i, e.state.links) && RowIs(c.events, i, e.state.events)
    && RowIs(c.references, i, e.state.references) && RowIs(c.tokens, i, e.table)
    && RowIs(c.lifePoints, i, e.state.globals.lifePoints)
    && RowIs(c.ownMain, i, e.state.context.ownDeck.mainDeck)
    && RowIs(c.opponentMain, i, e.state.context.opponentDeck.mainDeck)
    && RowIs(c.ownExtra, i, e.state.context.ownDeck.extraDeck)
    && RowIs(c.opponentExtra, i, e.state.context.opponentDeck.extraDeck)
    && RowIs(Column(c.routingKeys, c.candidates.offsets), i, e.routingKeys)
  }

  /** A ragged batch of these samples, in their order. */
  predicate RaggedShows(r: RaggedBatch, samples: seq<EncodedModelInput>) {
    && r.batchSize == |samples| == |r.samples|
    && (forall i :: 0 <= i < |samples| ==> HeaderShows(r.samples[i], samples[i]) && RowsAre(r.columns, i, samples[i]))
    && AllMarked(r.columns.presence, r.columns.candidates.values)
  }

  lemma ColumnShows<A, T>(part: A -> seq<T>, xs: seq<A>, i: nat)
    requires i < |xs|
    ensures RowIs(ColumnOf(part, xs), i, part(xs[i]))
  {
    hide Flat, Ends;
    RunIsRow(part, xs, i);
    LaidIsOk(part, xs);
    OffsetsAscend(ColumnOf(part, xs), |xs|, i + 1, |xs|);
  }

  lemma HeaderIsShown(e: EncodedModelInput)
    ensures HeaderShows(HeaderOf(e), e)
  {
  }

  lemma RowsAreShown(samples: seq<EncodedModelInput>, i: nat)
    requires Paired(samples) && i < |samples|
    ensures RowsAre(ColumnsOf(samples), i, samples[i])
  {
    hide Flat, Ends, RowIs;
    KeysAreCut(samples, i);
    ColumnShows(KeysOf(), samples, i);
    ColumnShows(CandidatesOf(), samples, i);
    ColumnShows(ZonesOf(), samples, i);
    ColumnShows(EntitiesOf(), samples, i);
    ColumnShows(RelationshipsOf(), samples, i);
    ColumnShows(LinksOf(), samples, i);
    ColumnShows(EventsOf(), samples, i);
    ColumnShows(ReferencesOf(), samples, i);
    ColumnShows(TokensOf(), samples, i);
    ColumnShows(LifePointsOf(), samples, i);
    ColumnShows(OwnMainOf(), samples, i);
    ColumnShows(OpponentMainOf(), samples, i);
    ColumnShows(OwnExtraOf(), samples, i);
    ColumnShows(OpponentExtraOf(), samples, i);
  }

  lemma MarksAreMade(cs: seq<EncodedCandidate>)
    ensures AllMarked(Map(PresenceOf, cs), cs)
  {
  }

  lemma BatchParts(samples: seq<EncodedModelInput>)
    requires |samples| <= U32_MAX
    ensures RaggedOf(samples).columns == ColumnsOf(samples)
    ensures ColumnsOf(samples).presence == Map(PresenceOf, ColumnsOf(samples).candidates.values)
  {
    hide Flat, Ends, Map;
  }

  /** Batching lays every collection of every sample out as a row of its own column. */
  lemma BatchShowsSamples(samples: seq<EncodedModelInput>)
    requires |samples| <= U32_MAX && Paired(samples)
    ensures RaggedShows(RaggedOf(samples), samples)
  {
    BatchedCount(samples);
    BatchParts(samples);
    forall i | 0 <= i < |samples|
      ensures HeaderShows(HeaderOf(samples[i]), samples[i]) && RowsAre(ColumnsOf(samples), i, samples[i])
    {
      HeaderIsShown(samples[i]);
      RowsAreShown(samples, i);
    }
    MarksAreMade(ColumnsOf(samples).candidates.values);
    hide HeaderShows, RowsAre, HeaderOf, AllMarked, RaggedOf, ColumnsOf, Paired;
  }

  // ---------------------------------------------------------------- padded

  /** The i-th row of a rectangle: the list, marked, then padding, unmarked. */
  predicate CellsAre<T(==)>(b: Block<T>, width: nat, padding: T, i: nat, row: seq<T>) {
    && |row| <= width && i * width + width <= |b.values| == |b.mask|
    && var values, mask := b.values[i * width..i * width + width], b.mask[i * width..i * width + width];
       && (forall j :: 0 <= j < width ==> values[j] == if j < |row| then row[j] else padding)
       && (forall j :: 0 <= j < width ==> mask[j] == if j < |row| then 1 else 0)
  }

  /** The i-th row of every rectangle is that collection of the sample. */
  predicate CellRowsAre(b: Blocks, w: Widths, i: nat, e: EncodedModelInput) {
    && CellsAre(b.candidates, w.candidates, PAD_CANDIDATE, i, e.candidates)
    && CellsAre(b.zones, w.zones, PAD_ZONE, i, e.state.zones)
    && CellsAre(b.entities, w.entities, PAD_ENTITY, i, e.state.entities)
    && CellsAre(b.relationships, w.relationships, PAD_RELATION, i, e.state.relationships)
    && CellsAre(b.links, w.links, PAD_LINK, i, e.state.links)
    && CellsAre(b.events, w.events, PAD_EVENT, i, e.state.events)
    && CellsAre(b.references, w.references, 0, i, e.state.references)
    && CellsAre(b.tokens, w.tokens, [], i, e.table)
    && CellsAre(b.lifePoints, w.lifePoints, 0, i, e.state.globals.lifePoints)
    && CellsAre(b.ownMain, w.ownMain, 0, i, e.state.context.ownDeck.mainDeck)
    && CellsAre(b.opponentMain, w.opponentMain, 0, i, e.state.context.opponentDeck.mainDeck)
    && CellsAre(b.ownExtra, w.ownExtra, 0, i, e.state.context.ownDeck.extraDeck)
    && CellsAre(b.opponentExtra, w.opponentExtra, 0, i, e.state.context.opponentDeck.extraDeck)
    && CellsAre(Block(b.routingKeys, b.candidates.mask), w.candidates, [], i, e.routingKeys)
  }

  /** A padded batch of these samples at these widths. */
  predicate PaddedShows(p: PaddedBatch, samples: seq<EncodedModelInput>, w: Widths) {
    && p.batchSize == |samples| == |p.samples| && p.widths == w
    && (forall i :: 0 <= i < |samples| ==>
          HeaderShows(p.samples[i], samples[i]) && CellRowsAre(p.blocks, w, i, samples[i]))
    && AllMarked(p.blocks.presence, p.blocks.candidates.values)
  }

  lemma PaddedRowIs<T>(c: Column<T>, n: nat, width: nat, padding: T, i: nat, row: seq<T>)
    requires i < n && RowIs(c, i, row) && Fit(width, Rows(c, n))
    ensures CellsAre(Padded(c, n, width, padding), width, padding, i, row)
  {
    var rows: seq<seq<T>> := Rows(c, n);
    assert rows[i] == row;
    hide RowIs, BlockOf, Row, Rows;
    BlockRow(width, padding, rows, i);
  }

  lemma CellRowsAreShown(c: Columns, n: nat, w: Widths, i: nat, e: EncodedModelInput)
    requires ColumnsOk(c, n) && WidthsFit(c, n, w) && i < n && RowsAre(c, i, e)
    ensures CellRowsAre(PadColumns(c, n, w), w, i, e)
  {
    hide RowIs, Fit, CellsAre, ColumnOk, BlockOf, Rows;
    PaddedRowIs(c.candidates, n, w.candidates, PAD_CANDIDATE, i, e.candidates);
    PaddedRowIs(c.zones, n, w.zones, PAD_ZONE, i, e.state.zones);
    PaddedRowIs(c.entities, n, w.entities, PAD_ENTITY, i, e.state.entities);
    PaddedRowIs(c.relationships, n, w.relationships, PAD_RELATION, i, e.state.relationships);
    PaddedRowIs(c.links, n, w.links, PAD_LINK, i, e.state.links);
    PaddedRowIs(c.events, n, w.events, PAD_EVENT, i, e.state.events);
    PaddedRowIs(c.references, n, w.references, 0, i, e.state.references);
    PaddedRowIs(c.tokens, n, w.tokens, [], i, e.table);
    PaddedRowIs(c.lifePoints, n, w.lifePoints, 0, i, e.state.globals.lifePoints);
    PaddedRowIs(c.ownMain, n, w.ownMain, 0, i, e.state.context.ownDeck.mainDeck);
    PaddedRowIs(c.opponentMain, n, w.opponentMain, 0, i, e.state.context.opponentDeck.mainDeck);
    PaddedRowIs(c.ownExtra, n, w.ownExtra, 0, i, e.state.context.ownDeck.extraDeck);
    PaddedRowIs(c.opponentExtra, n, w.opponentExtra, 0, i, e.state.context.opponentDeck.extraDeck);
    KeysAreShown(c, n, w, i, e);
  }

  lemma KeysAreShown(c: Columns, n: nat, w: Widths, i: nat, e: EncodedModelInput)
    requires ColumnsOk(c, n) && WidthsFit(c, n, w) && i < n && RowIs(KeyColumn(c), i, e.routingKeys)
    ensures CellsAre(Block(PadColumns(c, n, w).routingKeys, PadColumns(c, n, w).candidates.mask), w.candidates, [], i,
              e.routingKeys)
  {
    hide RowIs, Fit, CellsAre, ColumnOk, BlockOf, Rows;
    KeysPadded(c, n, w);
    CutAlike(c.candidates, KeyColumn(c), n, w.candidates);
    PaddedRowIs(KeyColumn(c), n, w.candidates, [], i, e.routingKeys);
  }

  lemma MarksAreShown(c: Columns, n: nat, w: Widths)
    requires ColumnsOk(c, n) && WidthsFit(c, n, w)
    ensures AllMarked(PadColumns(c, n, w).presence, PadColumns(c, n, w).candidates.values)
  {
    hide ColumnOk, Fit, Flat, Rows, PresenceOf;
    PresencePadded(c, n, w.candidates);
    MarksAreMade(PadColumns(c, n, w).candidates.values);
  }

  lemma PaddedFromRagged(r: RaggedBatch, samples: seq<EncodedModelInput>, w: Widths)
    requires RaggedShows(r, samples) && ColumnsOk(r.columns, |samples|) && WidthsFit(r.columns, |samples|, w)
    ensures PaddedShows(PadOf(r, w), samples, w)
  {
    hide ColumnsOk, WidthsFit, PadColumns, RowsAre, CellRowsAre, HeaderShows, AllMarked;
    MarksAreShown(r.columns, |samples|, w);
    forall i | 0 <= i < |samples| ensures CellRowsAre(PadColumns(r.columns, |samples|, w), w, i, samples[i]) {
      CellRowsAreShown(r.columns, |samples|, w, i, samples[i]);
    }
  }

  /** Padding lays every collection of every sample out as a row of its own rectangle. */
  lemma PaddingShowsSamples(samples: seq<EncodedModelInput>, w: Widths)
    requires |samples| <= U32_MAX && Paired(samples) && WidthsFit(RaggedOf(samples).columns, |samples|, w)
    ensures PaddedShows(PadOf(RaggedOf(samples), w), samples, w)
  {
    BatchShowsSamples(samples);
    ColumnsAreOk(samples);
    BatchParts(samples);
    hide RaggedOf, RaggedShows, ColumnsOk, WidthsFit, PaddedShows, PadOf, ColumnsOf, Paired;
    PaddedFromRagged(RaggedOf(samples), samples, w);
  }

  // ---------------------------------------------------------------- widths

  /** A width is the one asked for; or, if none is, that of the longest list. */
  ghost predicate WidthIs<T>(requested: Option<U64>, part: EncodedModelInput -> seq<T>,
                             samples: seq<EncodedModelInput>, width: nat)
  {
    if requested.Some? then width == requested.value
    else
      && (forall e :: e in samples ==> |part(e)| <= width)
      && (width == 0 || exists e :: e in samples && |part(e)| == width)
  }

  /** Every collection has the width of its own request and its own lists. */
  ghost predicate WidthsAre(q: WidthRequest, samples: seq<EncodedModelInput>, w: Widths) {
    && w.candidates == q.candidates
    && WidthIs(q.zones, (e: EncodedModelInput) => e.state.zones, samples, w.zones)
    && WidthIs(q.entities, (e: EncodedModelInput) => e.state.entities, samples, w.entities)
    && WidthIs(q.relationships, (e: EncodedModelInput) => e.state.relationships, samples, w.relationships)
    && WidthIs(q.links, (e: EncodedModelInput) => e.state.links, samples, w.links)
    && WidthIs(q.events, (e: EncodedModelInput) => e.state.events, samples, w.events)
    && WidthIs(q.references, (e: EncodedModelInput) => e.state.references, samples, w.references)
    && WidthIs(q.tokens, (e: EncodedModelInput) => e.table, samples, w.tokens)
    && WidthIs(q.lifePoints, (e: EncodedModelInput) => e.state.globals.lifePoints, samples, w.lifePoints)
    && WidthIs(q.ownMain, (e: EncodedModelInput) => e.state.context.ownDeck.mainDeck, samples, w.ownMain)
    && WidthIs(q.opponentMain, (e: EncodedModelInput) => e.state.context.opponentDeck.mainDeck, samples, w.opponentMain)
    && WidthIs(q.ownExtra, (e: EncodedModelInput) => e.state.context.ownDeck.extraDeck, samples, w.ownExtra)
    && WidthIs(q.opponentExtra, (e: EncodedModelInput) => e.state.context.opponentDeck.extraDeck, samples,
         w.opponentExtra)
  }

  lemma {:induction false} LongestIsReached(offsets: seq<nat>)
    ensures Longest(offsets) == 0 ||
      exists i :: 0 < i < |offsets| && offsets[i] == offsets[i - 1] + Longest(offsets)
  {
    var n := |offsets|;
    if n >= 2 {
      var init := offsets[..n - 1];
      LongestIsReached(init);
      if Longest(offsets) == Longest(init) != 0 {
        var i :| 0 < i < n - 1 && init[i] == init[i - 1] + Longest(init);
        assert offsets[i] == offsets[i - 1] + Longest(offsets);
      } else if Longest(offsets) != 0 {
        assert offsets[n - 1] == offsets[n - 2] + Longest(offsets);
      }
    }
  }

  lemma ChosenIsWidth<T>(requested: Option<U64>, part: EncodedModelInput -> seq<T>, samples: seq<EncodedModelInput>)
    ensures WidthIs(requested, part, samples, ChosenWidth(requested, Longest(ColumnOf(part, samples).offsets)))
  {
    var c := ColumnOf(part, samples);
    LaidIsOk(part, samples);
    hide Flat, Ends, Longest;
    var longest := Longest(c.offsets);
    LongestBounds(c.offsets, longest);
    LongestIsReached(c.offsets);
    forall i | 0 <= i < |samples| ensures c.offsets[i + 1] - c.offsets[i] == |part(samples[i])| {
      ColumnShows(part, samples, i);
    }
    forall e | e in samples ensures |part(e)| <= longest {
      var i :| 0 <= i < |samples| && samples[i] == e;
      assert c.offsets[i + 1] - c.offsets[i + 1 - 1] <= longest;
    }
    if longest != 0 {
      var i :| 0 < i < |c.offsets| && c.offsets[i] == c.offsets[i - 1] + longest;
      assert samples[i - 1] in samples && |part(samples[i - 1])| == longest;
    }
  }

  /** The widths a batch is padded to. */
  lemma WidthsAreChosen(q: WidthRequest, samples: seq<EncodedModelInput>)
    ensures WidthsAre(q, samples, WidthsFor(q, ColumnsOf(samples)))
  {
    ChosenIsWidth(q.zones, ZonesOf(), samples);
    ChosenIsWidth(q.entities, EntitiesOf(), samples);
    ChosenIsWidth(q.relationships, RelationshipsOf(), samples);
    ChosenIsWidth(q.links, LinksOf(), samples);
    ChosenIsWidth(q.events, EventsOf(), samples);
    ChosenIsWidth(q.references, ReferencesOf(), samples);
    ChosenIsWidth(q.tokens, TokensOf(), samples);
    ChosenIsWidth(q.lifePoints, LifePointsOf(), samples);
    ChosenIsWidth(q.ownMain, OwnMainOf(), samples);
    ChosenIsWidth(q.opponentMain, OpponentMainOf(), samples);
    ChosenIsWidth(q.ownExtra, OwnExtraOf(), samples);
    ChosenIsWidth(q.opponentExtra, OpponentExtraOf(), samples);
    hide Flat, Ends, Longest, ChosenWidth;
  }

  /** A batch of accepted samples, padded as asked, holds every field of every sample at its
      place, in rectangles of the widths asked for or needed. */
  lemma PaddedAsAsked(valid: EncodedModelInput -> bool, samples: seq<EncodedModelInput>, q: WidthRequest)
    requires PairsKeys(valid) && 0 < |samples| <= U32_MAX && forall i :: 0 <= i < |samples| ==> valid(samples[i])
    requires PadFault(valid, RaggedOf(samples), q).None?
    ensures var w := WidthsFor(q, ColumnsOf(samples));
      WidthsAre(q, samples, w) && PaddedShows(PadOf(RaggedOf(samples), w), samples, w)
  {
    BatchedCount(samples);
    BatchedIsValid(valid, samples);
    WidthsAreChosen(q, samples);
    EnoughFits(ColumnsOf(samples), |samples|, WidthsFor(q, ColumnsOf(samples)));
    hide ColumnsOk, WidthsFit, WidthsFor, Enough, WidthsAre, PadOf, PaddedShows, SampleAt, ColumnsOf;
    PaddingShowsSamples(samples, WidthsFor(q, ColumnsOf(samples)));
  }
}
