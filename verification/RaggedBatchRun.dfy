/** Ragged batches as the code builds, checks and takes them apart. */
module RaggedBatchRun {
  import opened Bytes
  import opened Sorting
  import opened EncodedState
  import opened EncodedInput
  import opened BatchColumns
  import opened RaggedBatches

  /** A sample's run at the end of a column, and its offset. */
  method Push<T>(c: Column<T>, run: seq<T>) returns (r: Layout<Column<T>>)
    requires c.offsets != [] && c.offsets[|c.offsets| - 1] == |c.values|
    ensures r.Laid? <==> |c.values| + |run| <= U64_MAX
    ensures r.Laid? ==> r.value == Column(c.values + run, c.offsets + [|c.values| + |run|])
    ensures r.LayoutFailed? ==> r.error == CountOverflow
  {
    var values := c.values + run;
    var offsets :- AppendOffset(c.offsets, |values|);
    return Laid(Column(values, offsets));
  }

  lemma OneMoreSample<A, T>(part: A -> seq<T>, xs: seq<A>, k: nat)
    requires k < |xs|
    ensures var c := ColumnOf(part, xs[..k]);
      && c.offsets != [] && c.offsets[|c.offsets| - 1] == |c.values|
      && ColumnOf(part, xs[..k + 1]) == Column(c.values + part(xs[k]), c.offsets + [|c.values| + |part(xs[k])|])
  {
    assert xs[..k + 1][..k] == xs[..k];
  }

  /** The run of one more sample. */
  method PushRun<A, T>(part: A -> seq<T>, samples: seq<A>, k: nat, c: Column<T>) returns (r: Layout<Column<T>>)
    requires k < |samples| && c == ColumnOf(part, samples[..k])
    ensures var next := ColumnOf(part, samples[..k + 1]);
      r == if |next.values| <= U64_MAX then Laid(next) else LayoutFailed(CountOverflow)
  {
    hide ColumnOf;
    OneMoreSample(part, samples, k);
    r := Push(c, part(samples[k]));
  }

  method PushPresence(presence: seq<Presence>, cs: seq<EncodedCandidate>) returns (r: seq<Presence>)
    ensures r == presence + Map(PresenceOf, cs)
  {
    r := presence;
    for i := 0 to |cs|
      invariant r == presence + Map(PresenceOf, cs[..i])
    {
      r := r + [PresenceOf(cs[i])];
      assert Map(PresenceOf, cs[..i + 1]) == Map(PresenceOf, cs[..i]) + [PresenceOf(cs[i])];
    }
    assert cs[..|cs|] == cs;
  }

  method AppendBoard(c: Columns, samples: seq<EncodedModelInput>, k: nat) returns (r: Layout<Columns>)
    requires k < |samples| && c == ColumnsOf(samples[..k])
    ensures var d := ColumnsOf(samples[..k + 1]);
      r == if |d.candidates.values| <= U64_MAX && |d.zones.values| <= U64_MAX && |d.entities.values| <= U64_MAX
             && |d.relationships.values| <= U64_MAX && |d.links.values| <= U64_MAX then
        Laid(c.(candidates := d.candidates, zones := d.zones, entities := d.entities, relationships := d.relationships,
                links := d.links))
      else LayoutFailed(CountOverflow)
  {
    hide ColumnOf, Flat, Map;
    var candidates :- PushRun(CandidatesOf(), samples, k, c.candidates);
    var zones :- PushRun(ZonesOf(), samples, k, c.zones);
    var entities :- PushRun(EntitiesOf(), samples, k, c.entities);
    var relationships :- PushRun(RelationshipsOf(), samples, k, c.relationships);
    var links :- PushRun(LinksOf(), samples, k, c.links);
    return Laid(c.(candidates := candidates, zones := zones, entities := entities, relationships := relationships,
      links := links));
  }

  method AppendHistory(c: Columns, samples: seq<EncodedModelInput>, k: nat) returns (r: Layout<Columns>)
    requires k < |samples|
    requires var b := ColumnsOf(samples[..k]);
      c.events == b.events && c.references == b.references && c.tokens == b.tokens && c.lifePoints == b.lifePoints
    ensures var d := ColumnsOf(samples[..k + 1]);
      r == if |d.events.values| <= U64_MAX && |d.references.values| <= U64_MAX && |d.tokens.values| <= U64_MAX
             && |d.lifePoints.values| <= U64_MAX then
        Laid(c.(events := d.events, references := d.references, tokens := d.tokens, lifePoints := d.lifePoints))
      else LayoutFailed(CountOverflow)
  {
    hide ColumnOf, Flat, Map;
    var events :- PushRun(EventsOf(), samples, k, c.events);
    var references :- PushRun(ReferencesOf(), samples, k, c.references);
    var tokens :- PushRun(TokensOf(), samples, k, c.tokens);
    var lifePoints :- PushRun(LifePointsOf(), samples, k, c.lifePoints);
    return Laid(c.(events := events, references := references, tokens := tokens, lifePoints := lifePoints));
  }

  method AppendDecks(c: Columns, samples: seq<EncodedModelInput>, k: nat) returns (r: Layout<Columns>)
    requires k < |samples|
    requires var b := ColumnsOf(samples[..k]);
      c.ownMain == b.ownMain && c.opponentMain == b.opponentMain && c.ownExtra == b.ownExtra
      && c.opponentExtra == b.opponentExtra
    ensures var d := ColumnsOf(samples[..k + 1]);
      r == if |d.ownMain.values| <= U64_MAX && |d.opponentMain.values| <= U64_MAX && |d.ownExtra.values| <= U64_MAX
             && |d.opponentExtra.values| <= U64_MAX then
        Laid(c.(ownMain := d.ownMain, opponentMain := d.opponentMain, ownExtra := d.ownExtra,
                opponentExtra := d.opponentExtra))
      else LayoutFailed(CountOverflow)
  {
    hide ColumnOf, Flat, Map;
    var ownMain :- PushRun(OwnMainOf(), samples, k, c.ownMain);
    var opponentMain :- PushRun(OpponentMainOf(), samples, k, c.opponentMain);
    var ownExtra :- PushRun(OwnExtraOf(), samples, k, c.ownExtra);
    var opponentExtra :- PushRun(OpponentExtraOf(), samples, k, c.opponentExtra);
    return Laid(c.(ownMain := ownMain, opponentMain := opponentMain, ownExtra := ownExtra,
      opponentExtra := opponentExtra));
  }

  lemma PresenceGrows(samples: seq<EncodedModelInput>, k: nat)
    requires k < |samples|
    ensures var c, d, e := ColumnsOf(samples[..k]), ColumnsOf(samples[..k + 1]), samples[k];
      && d.presence == c.presence + Map(PresenceOf, e.candidates) && d.routingKeys == c.routingKeys + e.routingKeys
  {
    hide Flat, Ends, ColumnOf, Map;
    FlatGrows(KeysOf(), samples, k);
    FlatGrows(CandidatesOf(), samples, k);
    MapPlus(PresenceOf, Flat(CandidatesOf(), samples[..k]), samples[k].candidates);
  }

  method AppendSample(c: Columns, samples: seq<EncodedModelInput>, k: nat) returns (r: Layout<Columns>)
    requires k < |samples| && c == ColumnsOf(samples[..k])
    ensures var d := ColumnsOf(samples[..k + 1]); r == if Counted(d) then Laid(d) else LayoutFailed(CountOverflow)
  {
    hide ColumnsOf, Map;
    var e := samples[k];
    PresenceGrows(samples, k);
    var more :- AppendBoard(c, samples, k);
    more :- AppendHistory(more, samples, k);
    more :- AppendDecks(more, samples, k);
    var presence := PushPresence(c.presence, e.candidates);
    return Laid(more.(presence := presence, routingKeys := c.routingKeys + e.routingKeys));
  }

  method ValidateOffsets<T>(c: Column<T>, n: nat) returns (ok: bool)
    ensures ok <==> ColumnOk(c, n)
  {
    if |c.offsets| != n + 1 || c.offsets[0] != 0 || c.offsets[n] != |c.values| {
      return false;
    }
    for index := 1 to |c.offsets|
      invariant forall i :: 0 < i < index ==> c.offsets[i - 1] <= c.offsets[i]
    {
      if c.offsets[index - 1] > c.offsets[index] {
        return false;
      }
    }
    return true;
  }

  method ValidateColumns(c: Columns, n: nat) returns (ok: bool)
    ensures ok <==> OffsetsOk(c, n)
  {
    hide ColumnOk;
    ok := ValidateOffsets(c.candidates, n);
    if ok {
      ok := ValidateOffsets(c.zones, n);
    }
    if ok {
      ok := ValidateOffsets(c.entities, n);
    }
    if ok {
      ok := ValidateOffsets(c.relationships, n);
    }
    if ok {
      ok := ValidateOffsets(c.links, n);
    }
    if ok {
      ok := ValidateOffsets(c.events, n);
    }
    if ok {
      ok := ValidateOffsets(c.references, n);
    }
    if ok {
      ok := ValidateOffsets(c.tokens, n);
    }
    if ok {
      ok := ValidateOffsets(c.lifePoints, n);
    }
    if ok {
      ok := ValidateOffsets(c.ownMain, n);
    }
    if ok {
      ok := ValidateOffsets(c.opponentMain, n);
    }
    if ok {
      ok := ValidateOffsets(c.ownExtra, n);
    }
    if ok {
      ok := ValidateOffsets(c.opponentExtra, n);
    }
  }

  /** The first check a batch fails, if it fails one. */
  method ValidateRagged(valid: EncodedModelInput -> bool, r: RaggedBatch) returns (checked: Layout<RaggedBatch>)
    ensures checked == match RaggedFault(valid, r)
      case None => Laid(r)
      case Some(error) => LayoutFailed(error)
  {
    hide ColumnOk, SampleAt, PresenceOf, OffsetsOk, HeaderEmptied;
    if r.batchSize == 0 || |r.samples| != r.batchSize {
      return LayoutFailed(EmptyBatch);
    }
    for i := 0 to |r.samples|
      invariant forall j :: 0 <= j < i ==> HeaderEmptied(r.samples[j])
    {
      if !HeaderEmptied(r.samples[i]) {
        return LayoutFailed(InvalidRaggedLayout);
      }
    }
    var c := r.columns;
    var ok := ValidateColumns(c, r.batchSize);
    if !ok || |c.routingKeys| != |c.candidates.values| || |c.presence| != |c.candidates.values| {
      return LayoutFailed(InvalidRaggedLayout);
    }
    for i := 0 to |c.presence|
      invariant forall j :: 0 <= j < i ==> c.presence[j] == PresenceOf(c.candidates.values[j])
    {
      if c.presence[i] != PresenceOf(c.candidates.values[i]) {
        return LayoutFailed(OptionalPresenceMismatch);
      }
    }
    assert c.presence == Map(PresenceOf, c.candidates.values);
    for i := 0 to |r.samples|
      invariant forall j :: 0 <= j < i ==> valid(SampleAt(r.samples[j], c, j))
    {
      if !valid(SampleAt(r.samples[i], c, i)) {
        return LayoutFailed(InvalidEncodedSample);
      }
    }
    return Laid(r);
  }

  /** The batch of some samples. Only an empty list, an invalid sample or a count too large for
      its type is refused; the check of the result never is the reason. */
  method MakeRaggedBatch(valid: EncodedModelInput -> bool, samples: seq<EncodedModelInput>)
    returns (r: Layout<RaggedBatch>)
    requires PairsKeys(valid)
    ensures r == match BatchingFault(valid, samples)
      case None => Laid(RaggedOf(samples))
      case Some(error) => LayoutFailed(error)
    ensures r.Laid? ==> RaggedOk(valid, r.value)
  {
    hide PairsKeys, ColumnsOf, RaggedOk, HeaderOf, RaggedFault, Counted;
    if samples == [] {
      return LayoutFailed(EmptyBatch);
    }
    if |samples| > U32_MAX {
      return LayoutFailed(CountOverflow);
    }
    var headers: seq<SampleHeader> := [];
    var columns := EmptyColumns(samples);
    for k := 0 to |samples|
      invariant forall i :: 0 <= i < k ==> valid(samples[i])
      invariant |headers| == k && forall i :: 0 <= i < k ==> headers[i] == HeaderOf(samples[i])
      invariant columns == ColumnsOf(samples[..k]) && SamplesFault(valid, samples[..k]).None?
    {
      assert samples[..k + 1][..k] == samples[..k];
      FaultStays(valid, samples, k + 1);
      if !valid(samples[k]) {
        return LayoutFailed(InvalidEncodedSample);
      }
      headers := headers + [HeaderOf(samples[k])];
      columns :- AppendSample(columns, samples, k);
    }
    assert samples[..|samples|] == samples && headers == Map(HeaderOf, samples);
    var batch := RaggedBatch(|samples|, headers, columns);
    BatchedIsValid(valid, samples);
    FaultlessRagged(valid, batch);
    r := ValidateRagged(valid, batch);
  }

  /** What is wrong with the first samples is what is wrong with all of them. */
  lemma {:induction false} FaultStays(valid: EncodedModelInput -> bool, samples: seq<EncodedModelInput>, k: nat)
    requires k <= |samples|
    ensures SamplesFault(valid, samples[..k]).Some? ==>
      SamplesFault(valid, samples) == SamplesFault(valid, samples[..k])
  {
    hide Counted, ColumnsOf;
    if k < |samples| {
      FaultStays(valid, samples[..|samples| - 1], k);
      assert samples[..|samples| - 1][..k] == samples[..k];
    } else {
      assert samples[..k] == samples;
    }
  }

  method EmptyColumns(samples: seq<EncodedModelInput>) returns (c: Columns)
    ensures c == ColumnsOf(samples[..0])
  {
    c := Columns(Column([], [0]), Column([], [0]), Column([], [0]), Column([], [0]), Column([], [0]), Column([], [0]),
      Column([], [0]), Column([], [0]), Column([], [0]), Column([], [0]), Column([], [0]), Column([], [0]),
      Column([], [0]), [], []);
    assert samples[..0] == [];
  }
}
