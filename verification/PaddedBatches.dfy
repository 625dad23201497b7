/** A batch in its padded layout, and that padding and unpadding undo each other. */
module PaddedBatches {
  import opened Bytes
  import opened Sorting
  import opened EncodedState
  import opened EncodedInput
  import opened BatchColumns
  import opened RaggedBatches

  datatype Widths = Widths(
    candidates: nat, zones: nat, entities: nat, relationships: nat, links: nat, events: nat, references: nat,
      tokens: nat,
    lifePoints: nat, ownMain: nat, opponentMain: nat, ownExtra: nat, opponentExtra: nat)

  datatype Blocks = Blocks(
    candidates: Block<EncodedCandidate>,
    zones: Block<EncodedZone>,
    entities: Block<Entity<nat>>,
    relationships: Block<Relation<nat>>,
    links: Block<Link<nat>>,
    events: Block<Event<nat>>,
    references: Block<nat>,
    tokens: Block<Bytes>,
    lifePoints: Block<U32>,
    ownMain: Block<U32>,
    opponentMain: Block<U32>,
    ownExtra: Block<U32>,
    opponentExtra: Block<U32>,
    presence: seq<Presence>, routingKeys: seq<Bytes>)

  datatype PaddedBatch = PaddedBatch(batchSize: U32, samples: seq<SampleHeader>, widths: Widths, blocks: Blocks)

  // ---------------------------------------------------------------- padding rows

  const PAD_CANDIDATE: EncodedCandidate := EncodedCandidate(0, None, None, None, None, None, None, None, 0, false)
  const PAD_ZONE: EncodedZone := EncodedZone(0, 0, 0, 0, 0, false)
  const PAD_ENTITY: Entity<nat> := Entity(0, false, 0, None, None, 0, None, None, 0, false, false, None, None)
  const PAD_RELATION: Relation<nat> := Relation(0, Ref(0, None), Ref(0, None))
  const PAD_LINK: Link<nat> := Link(0, None, None, None, None, [])
  const PAD_EVENT: Event<nat> :=
    Event(0, 0, None, None, None, None, None, None, None, None, None, None, None, None, [])
  const NO_PRESENCE: Presence := Presence(0, 0, 0, 0, 0, 0, 0)

  predicate IsPaddingCandidate(c: EncodedCandidate) {
    && c.actionKindCode == 0 && c.choice.None? && c.source.None? && c.target.None? && c.phase.None? && c.position.None?
    && c.sourceIndex.None? && c.amount.None? && c.continuationCode == 0 && !c.submitsResponse
  }

  predicate IsPaddingZone(z: EncodedZone) {
    && z.player == 0 && z.kindCode == 0 && z.totalCount == 0 && z.publicIdentityCount == 0 && z.hiddenCount == 0
    && !z.playerObservableOrder
  }

  predicate IsPaddingEntity(e: Entity<nat>) {
    && e.locator == 0 && !e.identityKnown && e.vocabularyId == 0 && e.owner.None? && e.controller.None?
         && e.zoneCode == 0
    && e.sequence.None? && e.overlaySequence.None? && e.positionCode == 0 && !e.faceUp && !e.faceDown && e.printed.None?
    && e.current.None?
  }

  predicate IsPaddingRef(r: Ref<nat>) {
    r.locator == 0 && r.entity.None?
  }

  predicate IsPaddingRelation(r: Relation<nat>) {
    r.kindCode == 0 && IsPaddingRef(r.source) && IsPaddingRef(r.target)
  }

  predicate IsPaddingLink(l: Link<nat>) {
    && l.index == 0 && l.activatingPlayer.None? && l.source.None? && l.activationZoneCode.None?
         && l.effectDescription.None?
    && l.targets == []
  }

  predicate IsPaddingEvent(e: Event<nat>) {
    && e.eventIndex == 0 && e.kindCode == 0 && e.player.None? && e.locator.None? && e.vocabularyId.None?
    && e.fromZoneCode.None? && e.toZoneCode.None? && e.count.None? && e.amount.None? && e.counterType.None?
         && e.phase.None?
    && e.winner.None? && e.winReason.None? && e.effectDescription.None? && e.targets == []
  }

  predicate IsZeroOrdinal(n: nat) {
    n == 0
  }

  predicate IsNoText(s: Bytes) {
    s == []
  }

  predicate IsZero(n: U32) {
    n == 0
  }

  /** Each test accepts exactly the row that padding writes. */
  lemma PaddingIsRecognised()
    ensures Recognises(IsPaddingCandidate, PAD_CANDIDATE) && Recognises(IsPaddingZone, PAD_ZONE)
    ensures Recognises(IsPaddingEntity, PAD_ENTITY) && Recognises(IsPaddingRelation, PAD_RELATION)
    ensures Recognises(IsPaddingLink, PAD_LINK) && Recognises(IsPaddingEvent, PAD_EVENT)
    ensures Recognises(IsZeroOrdinal, 0) && Recognises(IsNoText, []) && Recognises(IsZero, 0)
    ensures PresenceOf(PAD_CANDIDATE) == NO_PRESENCE
  {
  }

  // ---------------------------------------------------------------- padding and unpadding

  /** The presence masks, cut where the candidates are. */
  function PresenceColumn(c: Columns): Column<Presence> {
    Column(c.presence, c.candidates.offsets)
  }

  function PadColumns(c: Columns, n: nat, w: Widths): Blocks {
    Blocks(
      Padded(c.candidates, n, w.candidates, PAD_CANDIDATE),
      Padded(c.zones, n, w.zones, PAD_ZONE),
      Padded(c.entities, n, w.entities, PAD_ENTITY),
      Padded(c.relationships, n, w.relationships, PAD_RELATION),
      Padded(c.links, n, w.links, PAD_LINK),
      Padded(c.events, n, w.events, PAD_EVENT),
      Padded(c.references, n, w.references, 0),
      Padded(c.tokens, n, w.tokens, []),
      Padded(c.lifePoints, n, w.lifePoints, 0),
      Padded(c.ownMain, n, w.ownMain, 0),
      Padded(c.opponentMain, n, w.opponentMain, 0),
      Padded(c.ownExtra, n, w.ownExtra, 0),
      Padded(c.opponentExtra, n, w.opponentExtra, 0),
      Padded(PresenceColumn(c), n, w.candidates, NO_PRESENCE).values, Padded(KeyColumn(c), n, w.candidates, []).values)
  }

  function PadOf(r: RaggedBatch, w: Widths): PaddedBatch {
    PaddedBatch(r.batchSize, r.samples, w, PadColumns(r.columns, |r.samples|, w))
  }

  /** The routing keys, marked where the candidates are. */
  function KeyBlock(b: Blocks): Block<Bytes> {
    Block(b.routingKeys, b.candidates.mask)
  }

  function UnpadBlocks(b: Blocks, n: nat, w: Widths): Columns {
    Columns(
      Unpadded(b.candidates, n, w.candidates),
      Unpadded(b.zones, n, w.zones),
      Unpadded(b.entities, n, w.entities),
      Unpadded(b.relationships, n, w.relationships),
      Unpadded(b.links, n, w.links),
      Unpadded(b.events, n, w.events),
      Unpadded(b.references, n, w.references),
      Unpadded(b.tokens, n, w.tokens),
      Unpadded(b.lifePoints, n, w.lifePoints),
      Unpadded(b.ownMain, n, w.ownMain),
      Unpadded(b.opponentMain, n, w.opponentMain),
      Unpadded(b.ownExtra, n, w.ownExtra),
      Unpadded(b.opponentExtra, n, w.opponentExtra),
      Map(PresenceOf, Unpadded(b.candidates, n, w.candidates).values), Unpadded(KeyBlock(b), n, w.candidates).values)
  }

  function UnpadOf(p: PaddedBatch): RaggedBatch {
    RaggedBatch(p.batchSize, p.samples, UnpadBlocks(p.blocks, |p.samples|, p.widths))
  }

  predicate WidthsFit(c: Columns, n: nat, w: Widths) {
    && Fit(w.candidates, Rows(c.candidates, n))
    && Fit(w.zones, Rows(c.zones, n))
    && Fit(w.entities, Rows(c.entities, n))
    && Fit(w.relationships, Rows(c.relationships, n))
    && Fit(w.links, Rows(c.links, n))
    && Fit(w.events, Rows(c.events, n))
    && Fit(w.references, Rows(c.references, n))
    && Fit(w.tokens, Rows(c.tokens, n))
    && Fit(w.lifePoints, Rows(c.lifePoints, n))
    && Fit(w.ownMain, Rows(c.ownMain, n))
    && Fit(w.opponentMain, Rows(c.opponentMain, n))
    && Fit(w.ownExtra, Rows(c.ownExtra, n))
    && Fit(w.opponentExtra, Rows(c.opponentExtra, n))
  }

  predicate SizesOk(n: nat, w: Widths) {
    && SizeOk(n, w.candidates) && SizeOk(n, w.zones) && SizeOk(n, w.entities) && SizeOk(n, w.relationships)
         && SizeOk(n, w.links)
    && SizeOk(n, w.events) && SizeOk(n, w.references) && SizeOk(n, w.tokens) && SizeOk(n, w.lifePoints)
    && SizeOk(n, w.ownMain) && SizeOk(n, w.opponentMain) && SizeOk(n, w.ownExtra) && SizeOk(n, w.opponentExtra)
  }

  /** Thirteen rectangles that rows fill, keys marked as the candidates are, and a presence mask
      for every cell, padding included. */
  predicate BlocksOk(b: Blocks, n: nat, w: Widths) {
    && BlockOk(b.candidates, n, w.candidates, PAD_CANDIDATE)
    && BlockOk(b.zones, n, w.zones, PAD_ZONE)
    && BlockOk(b.entities, n, w.entities, PAD_ENTITY)
    && BlockOk(b.relationships, n, w.relationships, PAD_RELATION)
    && BlockOk(b.links, n, w.links, PAD_LINK)
    && BlockOk(b.events, n, w.events, PAD_EVENT)
    && BlockOk(b.references, n, w.references, 0)
    && BlockOk(b.tokens, n, w.tokens, [])
    && BlockOk(b.lifePoints, n, w.lifePoints, 0)
    && BlockOk(b.ownMain, n, w.ownMain, 0)
    && BlockOk(b.opponentMain, n, w.opponentMain, 0)
    && BlockOk(b.ownExtra, n, w.ownExtra, 0)
    && BlockOk(b.opponentExtra, n, w.opponentExtra, 0)
    && BlockOk(KeyBlock(b), n, w.candidates, []) && b.presence == Map(PresenceOf, b.candidates.values)
  }

  /** A padded batch the layout accepts. */
  predicate PaddedOk(valid: EncodedModelInput -> bool, p: PaddedBatch) {
    && SizesOk(|p.samples|, p.widths) && BlocksOk(p.blocks, |p.samples|, p.widths) && RaggedOk(valid, UnpadOf(p))
  }

  // ---------------------------------------------------------------- why a padded batch is refused

  function Then(first: Option<LayoutError>, second: Option<LayoutError>): Option<LayoutError> {
    if first.Some? then first else second
  }

  function LengthFault(length: nat, n: nat, width: nat): Option<LayoutError> {
    if !SizeOk(n, width) then Some(CountOverflow) else if length != n * width then Some(InvalidPaddedLayout) else None
  }

  function BlockSizeFault<T>(b: Block<T>, n: nat, width: nat): Option<LayoutError> {
    Then(LengthFault(|b.values|, n, width), LengthFault(|b.mask|, n, width))
  }

  /** The first length that is not the batch size times the width. */
  function SizesFault(b: Blocks, n: nat, w: Widths): Option<LayoutError> {
    Then(BlockSizeFault(b.candidates, n, w.candidates),
    Then(LengthFault(|b.presence|, n, w.candidates),
    Then(LengthFault(|b.routingKeys|, n, w.candidates),
    Then(BlockSizeFault(b.zones, n, w.zones),
    Then(BlockSizeFault(b.entities, n, w.entities),
    Then(BlockSizeFault(b.relationships, n, w.relationships),
    Then(BlockSizeFault(b.links, n, w.links),
    Then(BlockSizeFault(b.events, n, w.events),
    Then(BlockSizeFault(b.references, n, w.references),
    Then(BlockSizeFault(b.tokens, n, w.tokens),
    Then(BlockSizeFault(b.lifePoints, n, w.lifePoints),
    Then(BlockSizeFault(b.ownMain, n, w.ownMain),
    Then(BlockSizeFault(b.opponentMain, n, w.opponentMain),
    Then(BlockSizeFault(b.ownExtra, n, w.ownExtra),
         BlockSizeFault(b.opponentExtra, n, w.opponentExtra)))))))))))))))
  }

  function PresenceFault(b: Blocks): Option<LayoutError> {
    if |b.presence| != |b.candidates.values| then Some(InvalidPaddedLayout)
    else if b.presence != Map(PresenceOf, b.candidates.values) then Some(OptionalPresenceMismatch)
    else None
  }

  /** The first thing wrong with a rectangle or the presence masks. */
  function BlocksFault(b: Blocks, n: nat, w: Widths): Option<LayoutError> {
    Then(BlockFault(b.candidates, n, w.candidates, IsPaddingCandidate),
    Then(PresenceFault(b),
    Then(BlockFault(KeyBlock(b), n, w.candidates, IsNoText),
    Then(BlockFault(b.zones, n, w.zones, IsPaddingZone),
    Then(BlockFault(b.entities, n, w.entities, IsPaddingEntity),
    Then(BlockFault(b.relationships, n, w.relationships, IsPaddingRelation),
    Then(BlockFault(b.links, n, w.links, IsPaddingLink),
    Then(BlockFault(b.events, n, w.events, IsPaddingEvent),
    Then(BlockFault(b.references, n, w.references, IsZeroOrdinal),
    Then(BlockFault(b.tokens, n, w.tokens, IsNoText),
    Then(BlockFault(b.lifePoints, n, w.lifePoints, IsZero),
    Then(BlockFault(b.ownMain, n, w.ownMain, IsZero),
    Then(BlockFault(b.opponentMain, n, w.opponentMain, IsZero),
    Then(BlockFault(b.ownExtra, n, w.ownExtra, IsZero),
         BlockFault(b.opponentExtra, n, w.opponentExtra, IsZero)))))))))))))))
  }

  /** Why a padded batch is refused, if it is: the first check that fails. */
  function UnpadFault(valid: EncodedModelInput -> bool, p: PaddedBatch): Option<LayoutError> {
    var n := |p.samples|;
    if p.batchSize == 0 || n != p.batchSize then Some(InvalidPaddedLayout)
    else if !(forall i :: 0 <= i < n ==> HeaderEmptied(p.samples[i])) then Some(InvalidRaggedLayout)
    else
      Then(SizesFault(p.blocks, n, p.widths), Then(BlocksFault(p.blocks, n, p.widths), RaggedFault(valid, UnpadOf(p))))
  }

  /** The rectangles have nothing wrong with them exactly when rows fill them all. */
  lemma FaultlessBlocks(b: Blocks, n: nat, w: Widths)
    ensures BlocksFault(b, n, w).None? <==> SizesOk(n, w) && BlocksOk(b, n, w)
    ensures BlocksFault(b, n, w).None? ==> SizesFault(b, n, w).None?
  {
    hide BlockOk, SizeOk, RowsFault, PresenceOf, Map;
    PaddingIsRecognised();
    FaultlessBlock(b.candidates, n, w.candidates, IsPaddingCandidate, PAD_CANDIDATE);
    FaultlessBlock(KeyBlock(b), n, w.candidates, IsNoText, []);
    FaultlessBlock(b.zones, n, w.zones, IsPaddingZone, PAD_ZONE);
    FaultlessBlock(b.entities, n, w.entities, IsPaddingEntity, PAD_ENTITY);
    FaultlessBlock(b.relationships, n, w.relationships, IsPaddingRelation, PAD_RELATION);
    FaultlessBlock(b.links, n, w.links, IsPaddingLink, PAD_LINK);
    FaultlessBlock(b.events, n, w.events, IsPaddingEvent, PAD_EVENT);
    FaultlessBlock(b.references, n, w.references, IsZeroOrdinal, 0);
    FaultlessBlock(b.tokens, n, w.tokens, IsNoText, []);
    FaultlessBlock(b.lifePoints, n, w.lifePoints, IsZero, 0);
    FaultlessBlock(b.ownMain, n, w.ownMain, IsZero, 0);
    FaultlessBlock(b.opponentMain, n, w.opponentMain, IsZero, 0);
    FaultlessBlock(b.ownExtra, n, w.ownExtra, IsZero, 0);
    FaultlessBlock(b.opponentExtra, n, w.opponentExtra, IsZero, 0);
    hide Recognises;
  }

  /** Nothing is wrong with a padded batch exactly when the layout accepts it. */
  lemma FaultlessPadded(valid: EncodedModelInput -> bool, p: PaddedBatch)
    ensures UnpadFault(valid, p).None? <==> PaddedOk(valid, p)
  {
    hide SizesOk, BlocksOk, BlocksFault, SizesFault, UnpadBlocks, SampleAt, ColumnsOk, RaggedFault;
    FaultlessBlocks(p.blocks, |p.samples|, p.widths);
    FaultlessRagged(valid, UnpadOf(p));
  }

  // ---------------------------------------------------------------- masks and presence

  lemma {:induction false} MappedCells<T, U>(f: T -> U, width: nat, padding: T, rows: seq<seq<T>>, others: seq<seq<U>>)
    requires |rows| == |others| && forall i :: 0 <= i < |rows| ==> others[i] == Map(f, rows[i]) && |rows[i]| <= width
    ensures Flat(Padder(width, f(padding)), others) == Map(f, Flat(Padder(width, padding), rows))
    ensures Flat(Masker<U>(width), others) == Flat(Masker<T>(width), rows)
  {
    if rows != [] {
      var row, other := rows[|rows| - 1], others[|others| - 1];
      MappedCells(f, width, padding, rows[..|rows| - 1], others[..|others| - 1]);
      assert PadRow(width, f(padding), other) == Map(f, PadRow(width, padding, row));
    }
  }

  lemma {:induction false} SameMarks<T, U>(width: nat, rows: seq<seq<T>>, others: seq<seq<U>>)
    requires |rows| == |others| && forall i :: 0 <= i < |rows| ==> |others[i]| == |rows[i]|
    ensures Flat(Masker<U>(width), others) == Flat(Masker<T>(width), rows)
  {
    if rows != [] {
      SameMarks(width, rows[..|rows| - 1], others[..|others| - 1]);
    }
  }

  /** Columns cut alike are padded with the same marks, fit the same widths. */
  lemma CutAlike<T, U>(c: Column<T>, d: Column<U>, n: nat, width: nat)
    requires ColumnOk(c, n) && d.offsets == c.offsets && |d.values| == |c.values|
    ensures ColumnOk(d, n) && (Fit(width, Rows(d, n)) <==> Fit(width, Rows(c, n)))
    ensures Flat(Masker<U>(width), Rows(d, n)) == Flat(Masker<T>(width), Rows(c, n))
  {
    hide Flat;
    forall i | 0 <= i < n ensures |Rows(d, n)[i]| == |Rows(c, n)[i]| {
      assert |Row(d, i)| == |Row(c, i)|;
    }
    SameMarks(width, Rows(c, n), Rows(d, n));
  }

  lemma PresencePadded(c: Columns, n: nat, width: nat)
    requires ColumnsOk(c, n) && Fit(width, Rows(c.candidates, n))
    ensures Padded(PresenceColumn(c), n, width, NO_PRESENCE).values
      == Map(PresenceOf, Padded(c.candidates, n, width, PAD_CANDIDATE).values)
  {
    hide Flat, ColumnOk, PresenceOf, Row, Map;
    PaddingIsRecognised();
    var rows, others := Rows(c.candidates, n), Rows(PresenceColumn(c), n);
    forall i | 0 <= i < n ensures others[i] == Map(PresenceOf, rows[i]) {
      RowMapped(PresenceOf, c.candidates, PresenceColumn(c), i);
    }
    MappedCells(PresenceOf, width, PAD_CANDIDATE, rows, others);
  }

  lemma RowMapped<T, U>(f: T -> U, c: Column<T>, d: Column<U>, i: nat)
    requires d.offsets == c.offsets && d.values == Map(f, c.values)
    ensures Row(d, i) == Map(f, Row(c, i))
  {
  }

  // ---------------------------------------------------------------- the two round trips

  lemma KeysPadded(c: Columns, n: nat, w: Widths)
    requires ColumnsOk(c, n) && Fit(w.candidates, Rows(c.candidates, n))
    ensures ColumnOk(KeyColumn(c), n) && Fit(w.candidates, Rows(KeyColumn(c), n))
    ensures KeyBlock(PadColumns(c, n, w)) == Padded(KeyColumn(c), n, w.candidates, [])
  {
    hide Flat, ColumnOk, Row;
    CutAlike(c.candidates, KeyColumn(c), n, w.candidates);
  }

  lemma ColumnsPadded(c: Columns, n: nat, w: Widths)
    requires ColumnsOk(c, n) && WidthsFit(c, n, w)
    ensures BlocksOk(PadColumns(c, n, w), n, w) && UnpadBlocks(PadColumns(c, n, w), n, w) == c
  {
    hide ColumnOk, Fit, Padded, Unpadded, BlockOk, Map, PresenceOf;
    KeysPadded(c, n, w);
    PresencePadded(c, n, w.candidates);
    PaddingUndone(KeyColumn(c), n, w.candidates, []);
    PaddingUndone(c.candidates, n, w.candidates, PAD_CANDIDATE);
    PaddingUndone(c.zones, n, w.zones, PAD_ZONE);
    PaddingUndone(c.entities, n, w.entities, PAD_ENTITY);
    PaddingUndone(c.relationships, n, w.relationships, PAD_RELATION);
    PaddingUndone(c.links, n, w.links, PAD_LINK);
    PaddingUndone(c.events, n, w.events, PAD_EVENT);
    PaddingUndone(c.references, n, w.references, 0);
    PaddingUndone(c.tokens, n, w.tokens, []);
    PaddingUndone(c.lifePoints, n, w.lifePoints, 0);
    PaddingUndone(c.ownMain, n, w.ownMain, 0);
    PaddingUndone(c.opponentMain, n, w.opponentMain, 0);
    PaddingUndone(c.ownExtra, n, w.ownExtra, 0);
    PaddingUndone(c.opponentExtra, n, w.opponentExtra, 0);
  }

  /** Unpadding a padded batch gives the ragged batch back, real rows that look like padding and
      all. */
  lemma PadUndone(valid: EncodedModelInput -> bool, r: RaggedBatch, w: Widths)
    requires RaggedOk(valid, r) && WidthsFit(r.columns, |r.samples|, w) && SizesOk(|r.samples|, w)
    ensures UnpadOf(PadOf(r, w)) == r && PaddedOk(valid, PadOf(r, w))
  {
    hide ColumnsOk, WidthsFit, PadColumns, UnpadBlocks, BlocksOk, SizesOk, SampleAt;
    ColumnsPadded(r.columns, |r.samples|, w);
  }

  lemma BlocksUnpadded(b: Blocks, n: nat, w: Widths)
    requires BlocksOk(b, n, w) && ColumnsOk(UnpadBlocks(b, n, w), n)
    ensures WidthsFit(UnpadBlocks(b, n, w), n, w) && PadColumns(UnpadBlocks(b, n, w), n, w) == b
  {
    hide ColumnOk, Fit, Padded, Unpadded, BlockOk, Map, PresenceOf;
    var c := UnpadBlocks(b, n, w);
    UnpaddingUndone(KeyBlock(b), n, w.candidates, []);
    UnpaddingUndone(b.candidates, n, w.candidates, PAD_CANDIDATE);
    UnpaddingUndone(b.zones, n, w.zones, PAD_ZONE);
    UnpaddingUndone(b.entities, n, w.entities, PAD_ENTITY);
    UnpaddingUndone(b.relationships, n, w.relationships, PAD_RELATION);
    UnpaddingUndone(b.links, n, w.links, PAD_LINK);
    UnpaddingUndone(b.events, n, w.events, PAD_EVENT);
    UnpaddingUndone(b.references, n, w.references, 0);
    UnpaddingUndone(b.tokens, n, w.tokens, []);
    UnpaddingUndone(b.lifePoints, n, w.lifePoints, 0);
    UnpaddingUndone(b.ownMain, n, w.ownMain, 0);
    UnpaddingUndone(b.opponentMain, n, w.opponentMain, 0);
    UnpaddingUndone(b.ownExtra, n, w.ownExtra, 0);
    UnpaddingUndone(b.opponentExtra, n, w.opponentExtra, 0);
    PresencePadded(c, n, w.candidates);
    KeysCutAlike(b, n, w);
  }

  /** Keys and candidates marked alike are cut alike. */
  lemma KeysCutAlike(b: Blocks, n: nat, w: Widths)
    requires BlockOk(b.candidates, n, w.candidates, PAD_CANDIDATE) && BlockOk(KeyBlock(b), n, w.candidates, [])
    ensures KeyColumn(UnpadBlocks(b, n, w)) == Unpadded(KeyBlock(b), n, w.candidates)
  {
    hide BlockOk, Flat, Ends, Padded, Map, Ones;
    BlockOkIsSized(b.candidates, n, w.candidates, PAD_CANDIDATE);
    BlockOkIsSized(KeyBlock(b), n, w.candidates, []);
    var rows, others := RowsShown(b.candidates, w.candidates, n), RowsShown(KeyBlock(b), w.candidates, n);
    forall i | 0 <= i < n ensures |others[i]| == |rows[i]| {
      RowsFit(i, n, w.candidates);
    }
    SameEndsOfRows(rows, others);
  }

  lemma {:induction false} SameEndsOfRows<T, U>(rows: seq<seq<T>>, others: seq<seq<U>>)
    requires |rows| == |others| && forall i :: 0 <= i < |rows| ==> |others[i]| == |rows[i]|
    ensures Ends(Same(), rows) == Ends(Same(), others) && |Flat(Same(), rows)| == |Flat(Same(), others)|
  {
    if rows != [] {
      SameEndsOfRows(rows[..|rows| - 1], others[..|others| - 1]);
    }
  }

  /** Padding an accepted batch's unpadded form at its own widths gives the batch back. */
  lemma UnpadUndone(valid: EncodedModelInput -> bool, p: PaddedBatch)
    requires PaddedOk(valid, p)
    ensures WidthsFit(UnpadOf(p).columns, |p.samples|, p.widths) && PadOf(UnpadOf(p), p.widths) == p
  {
    hide ColumnsOk, WidthsFit, PadColumns, UnpadBlocks, BlocksOk, SizesOk, SampleAt;
    BlocksUnpadded(p.blocks, |p.samples|, p.widths);
  }
}
