/** Padding and unpadding as the code does them, collection by collection. */
module PaddedBatchRun {
  import opened Bytes
  import opened Sorting
  import opened EncodedState
  import opened EncodedInput
  import opened BatchColumns
  import opened RaggedBatches
  import opened RaggedBatchRun
  import opened PaddedBatches

  /** The widths asked for; every one but the candidates' may be left to the batch. */
  datatype WidthRequest = WidthRequest(
    candidates: U64,
    zones: Option<U64>, entities: Option<U64>, relationships: Option<U64>, links: Option<U64>,
    events: Option<U64>, references: Option<U64>, tokens: Option<U64>, lifePoints: Option<U64>,
    ownMain: Option<U64>, opponentMain: Option<U64>, ownExtra: Option<U64>, opponentExtra: Option<U64>)

  function WidthsFor(q: WidthRequest, c: Columns): Widths {
    Widths(q.candidates,
           ChosenWidth(q.zones, Longest(c.zones.offsets)),
           ChosenWidth(q.entities, Longest(c.entities.offsets)),
           ChosenWidth(q.relationships, Longest(c.relationships.offsets)),
           ChosenWidth(q.links, Longest(c.links.offsets)),
           ChosenWidth(q.events, Longest(c.events.offsets)),
           ChosenWidth(q.references, Longest(c.references.offsets)),
           ChosenWidth(q.tokens, Longest(c.tokens.offsets)),
           ChosenWidth(q.lifePoints, Longest(c.lifePoints.offsets)),
           ChosenWidth(q.ownMain, Longest(c.ownMain.offsets)),
           ChosenWidth(q.opponentMain, Longest(c.opponentMain.offsets)),
           ChosenWidth(q.ownExtra, Longest(c.ownExtra.offsets)),
           ChosenWidth(q.opponentExtra, Longest(c.opponentExtra.offsets)))
  }

  /** No width chosen is below the longest row of its collection. */
  predicate Enough(w: Widths, c: Columns) {
    && Longest(c.candidates.offsets) <= w.candidates
    && Longest(c.zones.offsets) <= w.zones
    && Longest(c.entities.offsets) <= w.entities
    && Longest(c.relationships.offsets) <= w.relationships
    && Longest(c.links.offsets) <= w.links
    && Longest(c.events.offsets) <= w.events
    && Longest(c.references.offsets) <= w.references
    && Longest(c.tokens.offsets) <= w.tokens
    && Longest(c.lifePoints.offsets) <= w.lifePoints
    && Longest(c.ownMain.offsets) <= w.ownMain
    && Longest(c.opponentMain.offsets) <= w.opponentMain
    && Longest(c.ownExtra.offsets) <= w.ownExtra
    && Longest(c.opponentExtra.offsets) <= w.opponentExtra
  }

  lemma EnoughFits(c: Columns, n: nat, w: Widths)
    requires ColumnsOk(c, n)
    ensures Enough(w, c) <==> WidthsFit(c, n, w)
  {
    hide ColumnOk, Fit, Longest;
    WideEnough(c.candidates, n, w.candidates);
    WideEnough(c.zones, n, w.zones);
    WideEnough(c.entities, n, w.entities);
    WideEnough(c.relationships, n, w.relationships);
    WideEnough(c.links, n, w.links);
    WideEnough(c.events, n, w.events);
    WideEnough(c.references, n, w.references);
    WideEnough(c.tokens, n, w.tokens);
    WideEnough(c.lifePoints, n, w.lifePoints);
    WideEnough(c.ownMain, n, w.ownMain);
    WideEnough(c.opponentMain, n, w.opponentMain);
    WideEnough(c.ownExtra, n, w.ownExtra);
    WideEnough(c.opponentExtra, n, w.opponentExtra);
  }

  method ChooseWidth<T>(requested: Option<U64>, c: Column<T>, ghost n: nat) returns (r: Layout<nat>)
    requires ColumnOk(c, n) && n > 0
    ensures var width := ChosenWidth(requested, Longest(c.offsets));
      r == if Longest(c.offsets) <= width then Laid(width) else LayoutFailed(CapacityTooSmall)
  {
    var longest := MaxCollectionLength(c.offsets);
    var maximum := longest.value;
    var width := if requested.Some? then requested.value else maximum;
    if width < maximum {
      return LayoutFailed(CapacityTooSmall);
    }
    return Laid(width);
  }

  method ChooseWidths(q: WidthRequest, c: Columns, ghost n: nat) returns (r: Layout<Widths>)
    requires ColumnsOk(c, n) && n > 0
    ensures r == if Enough(WidthsFor(q, c), c) then Laid(WidthsFor(q, c)) else LayoutFailed(CapacityTooSmall)
  {
    hide ColumnOk, Longest;
    var candidates :- ChooseWidth(Some(q.candidates), c.candidates, n);
    var zones :- ChooseWidth(q.zones, c.zones, n);
    var entities :- ChooseWidth(q.entities, c.entities, n);
    var relationships :- ChooseWidth(q.relationships, c.relationships, n);
    var links :- ChooseWidth(q.links, c.links, n);
    var events :- ChooseWidth(q.events, c.events, n);
    var references :- ChooseWidth(q.references, c.references, n);
    var tokens :- ChooseWidth(q.tokens, c.tokens, n);
    var lifePoints :- ChooseWidth(q.lifePoints, c.lifePoints, n);
    var ownMain :- ChooseWidth(q.ownMain, c.ownMain, n);
    var opponentMain :- ChooseWidth(q.opponentMain, c.opponentMain, n);
    var ownExtra :- ChooseWidth(q.ownExtra, c.ownExtra, n);
    var opponentExtra :- ChooseWidth(q.opponentExtra, c.opponentExtra, n);
    return Laid(Widths(candidates, zones, entities, relationships, links, events, references, tokens,
      lifePoints, ownMain, opponentMain, ownExtra, opponentExtra));
  }

  // ---------------------------------------------------------------- padding

  /** Every collection at its width. After the widths are chosen no row can be too long, so only
      a size the machine cannot hold is refused. */
  method FillBlocks(c: Columns, n: U32, w: Widths) returns (r: Layout<Blocks>)
    requires ColumnsOk(c, n) && WidthsFit(c, n, w)
    ensures r == if SizesOk(n, w) then Laid(PadColumns(c, n, w)) else LayoutFailed(CountOverflow)
  {
    hide ColumnOk, Fit, Flat, Row, SizeOk;
    CutAlike(c.candidates, PresenceColumn(c), n, w.candidates);
    CutAlike(c.candidates, KeyColumn(c), n, w.candidates);
    var candidates :- FillPadded(c.candidates, n, w.candidates, PAD_CANDIDATE);
    var presence := FillPadded(PresenceColumn(c), n, w.candidates, NO_PRESENCE);
    var routingKeys := FillPadded(KeyColumn(c), n, w.candidates, []);
    var zones :- FillPadded(c.zones, n, w.zones, PAD_ZONE);
    var entities :- FillPadded(c.entities, n, w.entities, PAD_ENTITY);
    var relationships :- FillPadded(c.relationships, n, w.relationships, PAD_RELATION);
    var links :- FillPadded(c.links, n, w.links, PAD_LINK);
    var events :- FillPadded(c.events, n, w.events, PAD_EVENT);
    var references :- FillPadded(c.references, n, w.references, 0);
    var tokens :- FillPadded(c.tokens, n, w.tokens, []);
    var lifePoints :- FillPadded(c.lifePoints, n, w.lifePoints, 0);
    var ownMain :- FillPadded(c.ownMain, n, w.ownMain, 0);
    var opponentMain :- FillPadded(c.opponentMain, n, w.opponentMain, 0);
    var ownExtra :- FillPadded(c.ownExtra, n, w.ownExtra, 0);
    var opponentExtra :- FillPadded(c.opponentExtra, n, w.opponentExtra, 0);
    return Laid(Blocks(candidates, zones, entities, relationships, links, events, references, tokens,
      lifePoints, ownMain, opponentMain, ownExtra, opponentExtra, presence.value.values, routingKeys.value.values));
  }

  /** Why a batch is not padded to the widths asked for, if it is not. */
  function PadFault(valid: EncodedModelInput -> bool, r: RaggedBatch, q: WidthRequest): Option<LayoutError> {
    if RaggedFault(valid, r).Some? then RaggedFault(valid, r)
    else if !Enough(WidthsFor(q, r.columns), r.columns) then Some(CapacityTooSmall)
    else if !SizesOk(|r.samples|, WidthsFor(q, r.columns)) then Some(CountOverflow)
    else None
  }

  /** Pads a valid batch to the widths asked for, or says what stands in the way. */
  method PadBatch(valid: EncodedModelInput -> bool, r: RaggedBatch, q: WidthRequest) returns (p: Layout<PaddedBatch>)
    ensures p == match PadFault(valid, r, q)
      case None => Laid(PadOf(r, WidthsFor(q, r.columns)))
      case Some(error) => LayoutFailed(error)
    ensures p.Laid? ==> PaddedOk(valid, p.value) && UnpadOf(p.value) == r
  {
    hide ColumnsOk, WidthsFit, PadColumns, SizesOk, SampleAt, UnpadOf, PaddedOk, Enough, WidthsFor, RaggedFault;
    var checked := ValidateRagged(valid, r);
    if checked.LayoutFailed? {
      return LayoutFailed(checked.error);
    }
    FaultlessRagged(valid, r);
    var widths :- ChooseWidths(q, r.columns, |r.samples|);
    EnoughFits(r.columns, |r.samples|, widths);
    var blocks :- FillBlocks(r.columns, r.batchSize, widths);
    PadUndone(valid, r, widths);
    return Laid(PaddedBatch(r.batchSize, r.samples, widths, blocks));
  }

  // ---------------------------------------------------------------- unpadding

  /** The masks of the marked cells, if every cell has the right one. */
  method CollectPresence(presence: seq<Presence>, b: Block<EncodedCandidate>) returns (r: Layout<()>)
    requires |presence| == |b.values| == |b.mask|
    requires forall i :: 0 <= i < |b.mask| ==> b.mask[i] == 1 || (b.mask[i] == 0 && b.values[i] == PAD_CANDIDATE)
    ensures r.Laid? <==> presence == Map(PresenceOf, b.values)
    ensures r.LayoutFailed? ==> r.error == OptionalPresenceMismatch
  {
    hide PresenceOf;
    PaddingIsRecognised();
    for index := 0 to |b.values|
      invariant forall i :: 0 <= i < index ==> presence[i] == PresenceOf(b.values[i])
    {
      var expected := if b.mask[index] == 0 then NO_PRESENCE else PresenceOf(b.values[index]);
      if presence[index] != expected {
        return LayoutFailed(OptionalPresenceMismatch);
      }
    }
    return Laid(());
  }

  /** A cell of an accepted rectangle is marked, or unmarked padding. */
  lemma CellIsMarkedOrPadding(b: Block<EncodedCandidate>, n: nat, width: nat)
    requires BlockOk(b, n, width, PAD_CANDIDATE)
    ensures |b.values| == |b.mask|
    ensures forall i :: 0 <= i < |b.mask| ==> b.mask[i] == 1 || (b.mask[i] == 0 && b.values[i] == PAD_CANDIDATE)
  {
    hide RowShown, Flat;
    BlockOkIsSized(b, n, width, PAD_CANDIDATE);
    CellsMarked(width, RowsShown(b, width, n));
  }

  lemma {:induction false} CellsMarked(width: nat, rows: seq<seq<EncodedCandidate>>)
    ensures var b := BlockOf(width, PAD_CANDIDATE, rows);
      && |b.values| == |b.mask|
      && forall i :: 0 <= i < |b.mask| ==> b.mask[i] == 1 || (b.mask[i] == 0 && b.values[i] == PAD_CANDIDATE)
  {
    if rows != [] {
      CellsMarked(width, rows[..|rows| - 1]);
    }
  }

  method CheckLength(length: nat, n: U32, width: nat) returns (fault: Option<LayoutError>)
    ensures fault == LengthFault(length, n, width)
  {
    var size := CheckedProduct(n, width);
    if size.LayoutFailed? {
      return Some(size.error);
    }
    return if length != size.value then Some(InvalidPaddedLayout) else None;
  }

  method CheckBlock<T>(b: Block<T>, n: U32, width: nat) returns (fault: Option<LayoutError>)
    ensures fault == BlockSizeFault(b, n, width)
  {
    hide LengthFault;
    fault := CheckLength(|b.values|, n, width);
    if fault.None? {
      fault := CheckLength(|b.mask|, n, width);
    }
  }

  /** The lengths of everything, in the order they are checked. */
  method CheckSizes(b: Blocks, n: U32, w: Widths) returns (fault: Option<LayoutError>)
    ensures fault == SizesFault(b, n, w)
  {
    hide LengthFault, BlockSizeFault;
    fault := CheckBlock(b.candidates, n, w.candidates);
    if fault.Some? { return; }
    fault := CheckLength(|b.presence|, n, w.candidates);
    if fault.Some? { return; }
    fault := CheckLength(|b.routingKeys|, n, w.candidates);
    if fault.Some? { return; }
    fault := CheckBlock(b.zones, n, w.zones);
    if fault.Some? { return; }
    fault := CheckBlock(b.entities, n, w.entities);
    if fault.Some? { return; }
    fault := CheckBlock(b.relationships, n, w.relationships);
    if fault.Some? { return; }
    fault := CheckBlock(b.links, n, w.links);
    if fault.Some? { return; }
    fault := CheckBlock(b.events, n, w.events);
    if fault.Some? { return; }
    fault := CheckBlock(b.references, n, w.references);
    if fault.Some? { return; }
    fault := CheckBlock(b.tokens, n, w.tokens);
    if fault.Some? { return; }
    fault := CheckBlock(b.lifePoints, n, w.lifePoints);
    if fault.Some? { return; }
    fault := CheckBlock(b.ownMain, n, w.ownMain);
    if fault.Some? { return; }
    fault := CheckBlock(b.opponentMain, n, w.opponentMain);
    if fault.Some? { return; }
    fault := CheckBlock(b.ownExtra, n, w.ownExtra);
    if fault.Some? { return; }
    fault := CheckBlock(b.opponentExtra, n, w.opponentExtra);
  }

  method CollectColumns(b: Blocks, n: U32, w: Widths) returns (r: Layout<Columns>)
    ensures r == match BlocksFault(b, n, w)
      case None => Laid(UnpadBlocks(b, n, w))
      case Some(error) => LayoutFailed(error)
  {
    hide BlockFault, BlockOk, RowShown, SizeOk, Recognises, ColumnOf, PresenceOf, Map;
    PaddingIsRecognised();
    var candidates :- CollectPadded(b.candidates, n, w.candidates, IsPaddingCandidate);
    FaultlessBlock(b.candidates, n, w.candidates, IsPaddingCandidate, PAD_CANDIDATE);
    CellIsMarkedOrPadding(b.candidates, n, w.candidates);
    if |b.presence| != |b.candidates.values| {
      return LayoutFailed(InvalidPaddedLayout);
    }
    var _ :- CollectPresence(b.presence, b.candidates);
    var presence := Map(PresenceOf, candidates.values);
    var routingKeys :- CollectPadded(KeyBlock(b), n, w.candidates, IsNoText);
    var zones :- CollectPadded(b.zones, n, w.zones, IsPaddingZone);
    var entities :- CollectPadded(b.entities, n, w.entities, IsPaddingEntity);
    var relationships :- CollectPadded(b.relationships, n, w.relationships, IsPaddingRelation);
    var links :- CollectPadded(b.links, n, w.links, IsPaddingLink);
    var events :- CollectPadded(b.events, n, w.events, IsPaddingEvent);
    var references :- CollectPadded(b.references, n, w.references, IsZeroOrdinal);
    var tokens :- CollectPadded(b.tokens, n, w.tokens, IsNoText);
    var lifePoints :- CollectPadded(b.lifePoints, n, w.lifePoints, IsZero);
    var ownMain :- CollectPadded(b.ownMain, n, w.ownMain, IsZero);
    var opponentMain :- CollectPadded(b.opponentMain, n, w.opponentMain, IsZero);
    var ownExtra :- CollectPadded(b.ownExtra, n, w.ownExtra, IsZero);
    var opponentExtra :- CollectPadded(b.opponentExtra, n, w.opponentExtra, IsZero);
    return Laid(Columns(candidates, zones, entities, relationships, links, events, references, tokens,
      lifePoints, ownMain, opponentMain, ownExtra, opponentExtra, presence, routingKeys.values));
  }

  /** Unpads exactly the batches that padding makes, and says of any other what is wrong first. */
  method UnpadBatch(valid: EncodedModelInput -> bool, p: PaddedBatch) returns (r: Layout<RaggedBatch>)
    ensures r == match UnpadFault(valid, p)
      case None => Laid(UnpadOf(p))
      case Some(error) => LayoutFailed(error)
    ensures r.Laid? <==> PaddedOk(valid, p)
    ensures r.Laid? ==> PadOf(r.value, p.widths) == p
  {
    hide ColumnsOk, WidthsFit, PadColumns, UnpadBlocks, SizesOk, BlocksOk, SampleAt, SizesFault, BlocksFault,
      RaggedFault, HeaderEmptied, PaddedOk;
    FaultlessPadded(valid, p);
    if p.batchSize == 0 || |p.samples| != p.batchSize {
      return LayoutFailed(InvalidPaddedLayout);
    }
    for i := 0 to |p.samples|
      invariant forall j :: 0 <= j < i ==> HeaderEmptied(p.samples[j])
    {
      if !HeaderEmptied(p.samples[i]) {
        return LayoutFailed(InvalidRaggedLayout);
      }
    }
    var sizes := CheckSizes(p.blocks, p.batchSize, p.widths);
    if sizes.Some? {
      return LayoutFailed(sizes.value);
    }
    var columns :- CollectColumns(p.blocks, p.batchSize, p.widths);
    r := ValidateRagged(valid, RaggedBatch(p.batchSize, p.samples, columns));
    if r.Laid? {
      UnpadUndone(valid, p);
    }
  }

  /** A sample out of a batch: whatever went in, and through padding and back, comes out. */
  lemma BatchedSampleSurvives(valid: EncodedModelInput -> bool, samples: seq<EncodedModelInput>, w: Widths, i: nat)
    requires PairsKeys(valid) && i < |samples| <= U32_MAX && forall j :: 0 <= j < |samples| ==> valid(samples[j])
    requires WidthsFit(RaggedOf(samples).columns, |samples|, w) && SizesOk(|samples|, w)
    ensures |UnpadOf(PadOf(RaggedOf(samples), w)).samples| == |samples|
    ensures SamplesOf(UnpadOf(PadOf(RaggedOf(samples), w)))[i] == samples[i]
  {
    hide ColumnsOf, WidthsFit, SizesOk, RaggedOk, PadOf, UnpadOf, PaddedOk, SamplesOf, RaggedOf;
    BatchedIsValid(valid, samples);
    BatchedCount(samples);
    PadUndone(valid, RaggedOf(samples), w);
    BatchedSampleIsItself(samples, i);
  }
}
