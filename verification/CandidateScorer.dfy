/** The scorer's view of an encoded input: a state with a table of its own, candidates that may
    use locators the state does not, and a selection among scored candidates. */
module CandidateScorer {
  import opened Bytes
  import opened Text
  import opened Sorting
  import opened LocatorTables
  import opened EncodedState
  import opened EncodedInput
  import ModelInputEncoding

  datatype StateInput = StateInput(
    vocabularyIdentity: Bytes, observationDigest: Bytes, perspectivePlayer: Byte, decisionIndex: U64, table: seq<Bytes>,
    contextKindCode: Option<U16>, contextPlayer: Option<Byte>, state: State<nat>)

  datatype Namespace = StateTable | CandidateOnly

  datatype CandidateRef = CandidateRef(kindCode: Byte, space: Namespace, ordinal: nat, entity: Option<nat>)

  datatype CandidateInput = CandidateInput(
    actionKindCode: U16, choice: Option<EncodedChoice>, source: Option<CandidateRef>, target: Option<CandidateRef>,
    phase: Option<U32>, position: Option<Byte>, sourceIndex: Option<U32>, amount: Option<I32>, continuationCode: Byte,
    submitsResponse: bool)

  // ---------------------------------------------------------------- what a state denotes

  function Denoter(table: seq<Bytes>): nat -> Bytes {
    ordinal => At(table, ordinal)
  }

  function Indexer(table: seq<Bytes>): Bytes -> nat {
    value => IndexIn(table, value)
  }

  /** The state with strings where the encoded one has ordinals. */
  function Denote(table: seq<Bytes>, s: State<nat>): State<Bytes> {
    MapState(Denoter(table), s)
  }

  /** The state input of a denoted state: its own strings, and ordinals into them. */
  function Compact(d: State<Bytes>): (seq<Bytes>, State<nat>) {
    var table := TableOf(Refs(d));
    (table, MapState(Indexer(table), d))
  }

  function StateInputOf(e: EncodedModelInput): StateInput {
    var (table, state) := Compact(Denote(e.table, e.state));
    StateInput(e.vocabularyIdentity, e.observationDigest, e.perspectivePlayer, e.decisionIndex, table,
      e.contextKindCode,
               e.contextPlayer, state)
  }

  // ---------------------------------------------------------------- independence

  /** Compaction keeps what every reference denotes. */
  lemma CompactDenotes(d: State<Bytes>)
    ensures var (table, state) := Compact(d); Denote(table, state) == d
  {
    hide TableOf, Refs, MapState;
    var table := TableOf(Refs(d));
    TableHolds(Refs(d));
    forall v | v in Refs(d) ensures Denoter(table)(Indexer(table)(v)) == v {
    }
    StateUndone(Indexer(table), Denoter(table), d);
  }

  /** Everything about an encoded input that is not its table or its candidates. */
  predicate SameHeader(e: EncodedModelInput, f: EncodedModelInput) {
    && e.vocabularyIdentity == f.vocabularyIdentity && e.observationDigest == f.observationDigest
    && e.perspectivePlayer == f.perspectivePlayer && e.decisionIndex == f.decisionIndex
    && e.contextKindCode == f.contextKindCode && e.contextPlayer == f.contextPlayer
  }

  /** The scorer's state input does not depend on the candidates: two encoded inputs give the
      same one exactly when their headers agree and their states denote the same strings, however
      candidate-only locators have shifted the ordinals. */
  lemma StateInputIgnoresCandidates(e: EncodedModelInput, f: EncodedModelInput)
    ensures StateInputOf(e) == StateInputOf(f) <==>
      SameHeader(e, f) && Denote(e.table, e.state) == Denote(f.table, f.state)
  {
    hide Compact, Denote;
    CompactDenotes(Denote(e.table, e.state));
    CompactDenotes(Denote(f.table, f.state));
  }

  // ---------------------------------------------------------------- the state input as it runs

  predicate InRange(table: seq<Bytes>, ordinals: seq<nat>) {
    forall i :: 0 <= i < |ordinals| ==> ordinals[i] < |table|
  }

  lemma MapOneMore<A, B>(f: A -> B, xs: seq<A>, x: A)
    ensures Map(f, xs + [x]) == Map(f, xs) + [f(x)]
  {
  }

  /** Pushes the strings of some ordinals. */
  method Collect(table: seq<Bytes>, ordinals: seq<nat>, values: seq<Bytes>) returns (r: seq<Bytes>)
    requires InRange(table, ordinals)
    ensures r == values + Map(Denoter(table), ordinals)
  {
    r := values;
    for i := 0 to |ordinals|
      invariant r == values + Map(Denoter(table), ordinals[..i])
    {
      MapOneMore(Denoter(table), ordinals[..i], ordinals[i]);
      assert ordinals[..i] + [ordinals[i]] == ordinals[..i + 1];
      r := r + [table[ordinals[i]]];
    }
    assert ordinals[..|ordinals|] == ordinals;
  }

  /** The strings of all references of a collection. */
  function Strings<A>(refs: A -> seq<nat>, table: seq<Bytes>, xs: seq<A>): seq<Bytes> {
    Map(Denoter(table), Flat(refs, xs))
  }

  lemma NoStrings<A>(refs: A -> seq<nat>, table: seq<Bytes>, xs: seq<A>)
    ensures Strings(refs, table, xs[..0]) == []
  {
  }

  /** One more element of a collection, one more run of references. */
  lemma OneMoreRun<A>(refs: A -> seq<nat>, table: seq<Bytes>, xs: seq<A>, i: nat)
    requires i < |xs| && InRange(table, Flat(refs, xs))
    ensures Strings(refs, table, xs[..i + 1]) == Strings(refs, table, xs[..i]) + Map(Denoter(table), refs(xs[i]))
    ensures InRange(table, refs(xs[i]))
  {
    assert xs[..i + 1][..i] == xs[..i];
    MapPlus(Denoter(table), Flat(refs, xs[..i]), refs(xs[i]));
    forall j | 0 <= j < |refs(xs[i])| ensures refs(xs[i])[j] < |table| {
      FlatHas(refs, xs, i, refs(xs[i])[j]);
    }
  }

  method CollectEntities(table: seq<Bytes>, xs: seq<Entity<nat>>, values: seq<Bytes>) returns (r: seq<Bytes>)
    requires InRange(table, Flat(EntityRefs(), xs))
    ensures r == values + Strings(EntityRefs(), table, xs)
  {
    hide Strings, InRange, Flat;
    r := values;
    NoStrings(EntityRefs(), table, xs);
    for i := 0 to |xs|
      invariant r == values + Strings(EntityRefs(), table, xs[..i])
    {
      OneMoreRun(EntityRefs(), table, xs, i);
      ghost var before := r;
      r := Collect(table, [xs[i].locator], r);
      assert r == values + (Strings(EntityRefs(), table, xs[..i]) + Map(Denoter(table), EntityRefs()(xs[i])));
    }
    assert xs[..|xs|] == xs;
  }

  method CollectRelationships(table: seq<Bytes>, xs: seq<Relation<nat>>, values: seq<Bytes>) returns (r: seq<Bytes>)
    requires InRange(table, Flat(RelationRefs(), xs))
    ensures r == values + Strings(RelationRefs(), table, xs)
  {
    hide Strings, InRange, Flat;
    r := values;
    NoStrings(RelationRefs(), table, xs);
    for i := 0 to |xs|
      invariant r == values + Strings(RelationRefs(), table, xs[..i])
    {
      OneMoreRun(RelationRefs(), table, xs, i);
      ghost var before := r;
      r := Collect(table, [xs[i].source.locator, xs[i].target.locator], r);
      assert r == values + (Strings(RelationRefs(), table, xs[..i]) + Map(Denoter(table), RelationRefs()(xs[i])));
    }
    assert xs[..|xs|] == xs;
  }

  method CollectLinks(table: seq<Bytes>, xs: seq<Link<nat>>, values: seq<Bytes>) returns (r: seq<Bytes>)
    requires InRange(table, Flat(LinkRefs(), xs))
    ensures r == values + Strings(LinkRefs(), table, xs)
  {
    hide Strings, InRange, Flat;
    r := values;
    NoStrings(LinkRefs(), table, xs);
    for i := 0 to |xs|
      invariant r == values + Strings(LinkRefs(), table, xs[..i])
    {
      OneMoreRun(LinkRefs(), table, xs, i);
      ghost var before := r;
      r := Collect(table, LinkRefs()(xs[i]), r);
      assert r == values + (Strings(LinkRefs(), table, xs[..i]) + Map(Denoter(table), LinkRefs()(xs[i])));
    }
    assert xs[..|xs|] == xs;
  }

  method CollectEvents(table: seq<Bytes>, xs: seq<Event<nat>>, values: seq<Bytes>) returns (r: seq<Bytes>)
    requires InRange(table, Flat(EventRefs(), xs))
    ensures r == values + Strings(EventRefs(), table, xs)
  {
    hide Strings, InRange, Flat;
    r := values;
    NoStrings(EventRefs(), table, xs);
    for i := 0 to |xs|
      invariant r == values + Strings(EventRefs(), table, xs[..i])
    {
      OneMoreRun(EventRefs(), table, xs, i);
      ghost var before := r;
      r := Collect(table, EventRefs()(xs[i]), r);
      assert r == values + (Strings(EventRefs(), table, xs[..i]) + Map(Denoter(table), EventRefs()(xs[i])));
    }
    assert xs[..|xs|] == xs;
  }

  /** A run of references is in range when the whole is. */
  lemma PartsInRange(table: seq<Bytes>, a: seq<nat>, b: seq<nat>)
    requires InRange(table, a + b)
    ensures InRange(table, a) && InRange(table, b)
  {
    forall i | 0 <= i < |a| ensures a[i] < |table| {
      assert (a + b)[i] == a[i];
    }
    forall i | 0 <= i < |b| ensures b[i] < |table| {
      assert (a + b)[|a| + i] == b[i];
    }
  }

  method CollectLocators(table: seq<Bytes>, s: State<nat>) returns (values: seq<Bytes>)
    requires InRange(table, Refs(s))
    ensures values == Map(Denoter(table), Refs(s))
  {
    hide Flat, Map, InRange;
    ghost var f := Denoter(table);
    ghost var b, c := Flat(EntityRefs(), s.entities), Flat(RelationRefs(), s.relationships);
    ghost var d, e := Flat(LinkRefs(), s.links), Flat(EventRefs(), s.events);
    PartsInRange(table, s.references + b + c + d, e);
    PartsInRange(table, s.references + b + c, d);
    PartsInRange(table, s.references + b, c);
    PartsInRange(table, s.references, b);
    MapPlus(f, s.references + b + c + d, e);
    MapPlus(f, s.references + b + c, d);
    MapPlus(f, s.references + b, c);
    MapPlus(f, s.references, b);
    values := Collect(table, s.references, []);
    values := CollectEntities(table, s.entities, values);
    values := CollectRelationships(table, s.relationships, values);
    values := CollectLinks(table, s.links, values);
    values := CollectEvents(table, s.events, values);
  }

  /** The new ordinal of an old one: its string's place in the state's own table. */
  function Remapper(table: seq<Bytes>, own: seq<Bytes>): nat -> nat {
    ordinal => IndexIn(own, At(table, ordinal))
  }

  method RemapOrdinal(table: seq<Bytes>, own: seq<Bytes>, ordinal: nat) returns (r: nat)
    requires IsTable(own) && ordinal < |table| && table[ordinal] in own
    ensures r == Remapper(table, own)(ordinal)
  {
    hide IsTable;
    var found := Ordinal(own, table[ordinal]);
    r := found.value;
  }

  predicate Covers(table: seq<Bytes>, own: seq<Bytes>, ordinals: seq<nat>) {
    InRange(table, ordinals) && forall i :: 0 <= i < |ordinals| ==> table[ordinals[i]] in own
  }

  method RemapOrdinals(table: seq<Bytes>, own: seq<Bytes>, ordinals: seq<nat>) returns (r: seq<nat>)
    requires IsTable(own) && Covers(table, own, ordinals)
    ensures r == Map(Remapper(table, own), ordinals)
  {
    hide IsTable;
    r := ordinals;
    for i := 0 to |ordinals|
      invariant |r| == |ordinals| && forall j :: i <= j < |r| ==> r[j] == ordinals[j]
      invariant forall j :: 0 <= j < i ==> r[j] == Remapper(table, own)(ordinals[j])
    {
      var ordinal := RemapOrdinal(table, own, r[i]);
      r := r[i := ordinal];
    }
  }

  lemma FlatCovered<A>(refs: A -> seq<nat>, table: seq<Bytes>, own: seq<Bytes>, xs: seq<A>, i: nat)
    requires i < |xs| && Covers(table, own, Flat(refs, xs))
    ensures Covers(table, own, refs(xs[i]))
  {
    forall j | 0 <= j < |refs(xs[i])| ensures refs(xs[i])[j] < |table| && table[refs(xs[i])[j]] in own {
      FlatHas(refs, xs, i, refs(xs[i])[j]);
      var k :| 0 <= k < |Flat(refs, xs)| && Flat(refs, xs)[k] == refs(xs[i])[j];
    }
  }

  method RemapEntities(table: seq<Bytes>, own: seq<Bytes>, xs: seq<Entity<nat>>) returns (r: seq<Entity<nat>>)
    requires IsTable(own) && Covers(table, own, Flat(EntityRefs(), xs))
    ensures r == Map(EntityMap(Remapper(table, own)), xs)
  {
    hide IsTable, Flat;
    r := xs;
    for i := 0 to |xs|
      invariant |r| == |xs| && forall j :: i <= j < |r| ==> r[j] == xs[j]
      invariant forall j :: 0 <= j < i ==> r[j] == EntityMap(Remapper(table, own))(xs[j])
    {
      FlatCovered(EntityRefs(), table, own, xs, i);
      assert EntityRefs()(xs[i])[0] == xs[i].locator;
      var ordinal := RemapOrdinal(table, own, r[i].locator);
      r := r[i := r[i].(locator := ordinal)];
    }
  }

  method RemapRelationships(table: seq<Bytes>, own: seq<Bytes>, xs: seq<Relation<nat>>) returns (r: seq<Relation<nat>>)
    requires IsTable(own) && Covers(table, own, Flat(RelationRefs(), xs))
    ensures r == Map(RelationMap(Remapper(table, own)), xs)
  {
    hide IsTable, Flat;
    r := xs;
    for i := 0 to |xs|
      invariant |r| == |xs| && forall j :: i <= j < |r| ==> r[j] == xs[j]
      invariant forall j :: 0 <= j < i ==> r[j] == RelationMap(Remapper(table, own))(xs[j])
    {
      FlatCovered(RelationRefs(), table, own, xs, i);
      assert RelationRefs()(xs[i])[0] == xs[i].source.locator && RelationRefs()(xs[i])[1] == xs[i].target.locator;
      var source := RemapOrdinal(table, own, r[i].source.locator);
      var target := RemapOrdinal(table, own, r[i].target.locator);
      r := r[i := r[i].(source := r[i].source.(locator := source), target := r[i].target.(locator := target))];
    }
  }

  method RemapRefs(table: seq<Bytes>, own: seq<Bytes>, xs: seq<Ref<nat>>) returns (r: seq<Ref<nat>>)
    requires IsTable(own) && Covers(table, own, Map(RefLocator(), xs))
    ensures r == Map(RefMap(Remapper(table, own)), xs)
  {
    hide IsTable;
    r := xs;
    for i := 0 to |xs|
      invariant |r| == |xs| && forall j :: i <= j < |r| ==> r[j] == xs[j]
      invariant forall j :: 0 <= j < i ==> r[j] == RefMap(Remapper(table, own))(xs[j])
    {
      assert Map(RefLocator(), xs)[i] == xs[i].locator;
      var ordinal := RemapOrdinal(table, own, r[i].locator);
      r := r[i := r[i].(locator := ordinal)];
    }
  }

  lemma CoversParts(table: seq<Bytes>, own: seq<Bytes>, a: seq<nat>, b: seq<nat>)
    requires Covers(table, own, a + b)
    ensures Covers(table, own, a) && Covers(table, own, b)
  {
    forall i | 0 <= i < |a| ensures a[i] < |table| && table[a[i]] in own {
      assert (a + b)[i] == a[i];
    }
    forall i | 0 <= i < |b| ensures b[i] < |table| && table[b[i]] in own {
      assert (a + b)[|a| + i] == b[i];
    }
  }

  method RemapLinks(table: seq<Bytes>, own: seq<Bytes>, xs: seq<Link<nat>>) returns (r: seq<Link<nat>>)
    requires IsTable(own) && Covers(table, own, Flat(LinkRefs(), xs))
    ensures r == Map(LinkMap(Remapper(table, own)), xs)
  {
    hide IsTable, Flat;
    r := xs;
    for i := 0 to |xs|
      invariant |r| == |xs| && forall j :: i <= j < |r| ==> r[j] == xs[j]
      invariant forall j :: 0 <= j < i ==> r[j] == LinkMap(Remapper(table, own))(xs[j])
    {
      FlatCovered(LinkRefs(), table, own, xs, i);
      CoversParts(table, own, OptionSeq(MapOption(RefLocator(), xs[i].source)), Map(RefLocator(), xs[i].targets));
      var link := r[i];
      if link.source.Some? {
        assert OptionSeq(MapOption(RefLocator(), xs[i].source))[0] == link.source.value.locator;
        var ordinal := RemapOrdinal(table, own, link.source.value.locator);
        link := link.(source := Some(link.source.value.(locator := ordinal)));
      }
      var targets := RemapRefs(table, own, link.targets);
      r := r[i := link.(targets := targets)];
    }
  }

  method RemapEvents(table: seq<Bytes>, own: seq<Bytes>, xs: seq<Event<nat>>) returns (r: seq<Event<nat>>)
    requires IsTable(own) && Covers(table, own, Flat(EventRefs(), xs))
    ensures r == Map(EventMap(Remapper(table, own)), xs)
  {
    hide IsTable, Flat;
    r := xs;
    for i := 0 to |xs|
      invariant |r| == |xs| && forall j :: i <= j < |r| ==> r[j] == xs[j]
      invariant forall j :: 0 <= j < i ==> r[j] == EventMap(Remapper(table, own))(xs[j])
    {
      FlatCovered(EventRefs(), table, own, xs, i);
      CoversParts(table, own, OptionSeq(xs[i].locator), xs[i].targets);
      var event := r[i];
      if event.locator.Some? {
        assert OptionSeq(xs[i].locator)[0] == event.locator.value;
        var ordinal := RemapOrdinal(table, own, event.locator.value);
        event := event.(locator := Some(ordinal));
      }
      var targets := RemapOrdinals(table, own, event.targets);
      r := r[i := event.(targets := targets)];
    }
  }

  method RemapState(table: seq<Bytes>, own: seq<Bytes>, s: State<nat>) returns (r: State<nat>)
    requires IsTable(own) && Covers(table, own, Refs(s))
    ensures r == MapState(Remapper(table, own), s)
  {
    hide IsTable, Flat, Map, Covers;
    ghost var b, c := Flat(EntityRefs(), s.entities), Flat(RelationRefs(), s.relationships);
    ghost var d, e := Flat(LinkRefs(), s.links), Flat(EventRefs(), s.events);
    CoversParts(table, own, s.references + b + c + d, e);
    CoversParts(table, own, s.references + b + c, d);
    CoversParts(table, own, s.references + b, c);
    CoversParts(table, own, s.references, b);
    var references := RemapOrdinals(table, own, s.references);
    var entities := RemapEntities(table, own, s.entities);
    var relationships := RemapRelationships(table, own, s.relationships);
    var links := RemapLinks(table, own, s.links);
    var events := RemapEvents(table, own, s.events);
    return State(references, s.globals, s.zones, entities, relationships, s.chainLength, links, events, s.context);
  }

  lemma OwnTableCovers(table: seq<Bytes>, s: State<nat>)
    requires InRange(table, Refs(s))
    ensures var own := TableOf(Map(Denoter(table), Refs(s))); IsTable(own) && Covers(table, own, Refs(s))
  {
    hide TableOf, IsTable, Refs;
    var values := Map(Denoter(table), Refs(s));
    TableHolds(values);
    forall i | 0 <= i < |Refs(s)| ensures table[Refs(s)[i]] in TableOf(values) {
      assert values[i] == table[Refs(s)[i]];
    }
  }

  /** The state input of a valid encoded input. None of the range and lookup failures the code
      guards against can happen. */
  method StateInputFromEncoded(e: EncodedModelInput) returns (r: StateInput)
    requires InRange(e.table, Refs(e.state))
    ensures r == StateInputOf(e)
  {
    hide TableOf, IsTable, Refs, MapState, Map, InRange, Covers;
    var values := CollectLocators(e.table, e.state);
    var own := MakeTable(values);
    OwnTableCovers(e.table, e.state);
    var state := RemapState(e.table, own, e.state);
    RefsMapped(Denoter(e.table), e.state);
    StateComposed(Denoter(e.table), Indexer(own), Remapper(e.table, own), e.state);
    r := StateInput(e.vocabularyIdentity, e.observationDigest, e.perspectivePlayer, e.decisionIndex, own,
      e.contextKindCode,
      e.contextPlayer, state);
  }

  // ---------------------------------------------------------------- valid inputs are in range

  lemma {:induction false} FlatInRange<A>(refs: A -> seq<nat>, table: seq<Bytes>, xs: seq<A>)
    requires forall i :: 0 <= i < |xs| ==> InRange(table, refs(xs[i]))
    ensures InRange(table, Flat(refs, xs))
  {
    if xs != [] {
      FlatInRange(refs, table, xs[..|xs| - 1]);
    }
  }

  /** No reference of a valid state points past its table. */
  lemma ValidIsInRange(table: seq<Bytes>, perspective: Byte, s: State<nat>)
    requires StateOk(table, perspective, s)
    ensures InRange(table, Refs(s))
  {
    hide Flat, EncodedPropertiesOk, EncodedDeckOk, LexLess;
    FlatInRange(EntityRefs(), table, s.entities);
    FlatInRange(RelationRefs(), table, s.relationships);
    forall i | 0 <= i < |s.links| ensures InRange(table, LinkRefs()(s.links[i])) {
      assert EncodedLinkOk(|table|, s.entities, s.links[i]);
    }
    FlatInRange(LinkRefs(), table, s.links);
    forall i | 0 <= i < |s.events| ensures InRange(table, EventRefs()(s.events[i])) {
      assert EncodedEventOk(|table|, s.events[i]);
    }
    FlatInRange(EventRefs(), table, s.events);
  }

  // ---------------------------------------------------------------- candidates

  function RefStrings(table: seq<Bytes>, r: Option<EncodedCardRef>): seq<Bytes> {
    if r.Some? then [At(table, r.value.reference.locator)] else []
  }

  function CandidateStrings(table: seq<Bytes>): EncodedCandidate -> seq<Bytes> {
    (c: EncodedCandidate) => RefStrings(table, c.source) + RefStrings(table, c.target)
  }

  function Outside(own: seq<Bytes>, values: seq<Bytes>): seq<Bytes> {
    if values == [] then []
    else Outside(own, values[..|values| - 1]) + (if values[|values| - 1] in own then [] else [values[|values| - 1]])
  }

  /** The table of locators that only candidates mention. */
  function CandidateOnlyTable(table: seq<Bytes>, own: seq<Bytes>, candidates: seq<EncodedCandidate>): seq<Bytes> {
    TableOf(Outside(own, Flat(CandidateStrings(table), candidates)))
  }

  lemma {:induction false} OutsideHas(own: seq<Bytes>, values: seq<Bytes>, v: Bytes)
    ensures v in Outside(own, values) <==> v in values && v !in own
  {
    if values != [] {
      OutsideHas(own, values[..|values| - 1], v);
      assert values == values[..|values| - 1] + [values[|values| - 1]];
    }
  }

  function CandidateRefOf(table: seq<Bytes>, own: seq<Bytes>, only: seq<Bytes>, r: EncodedCardRef): CandidateRef {
    var value := At(table, r.reference.locator);
    if value in own then CandidateRef(r.kindCode, StateTable, IndexIn(own, value), r.reference.entity)
    else CandidateRef(r.kindCode, CandidateOnly, IndexIn(only, value), r.reference.entity)
  }

  function CandidateInputOf(table: seq<Bytes>, own: seq<Bytes>, only: seq<Bytes>, c: EncodedCandidate): CandidateInput {
    CandidateInput(c.actionKindCode, c.choice,
                   if c.source.Some? then Some(CandidateRefOf(table, own, only, c.source.value)) else None,
                   if c.target.Some? then Some(CandidateRefOf(table, own, only, c.target.value)) else None,
                   c.phase, c.position, c.sourceIndex, c.amount, c.continuationCode, c.submitsResponse)
  }

  /** The string a candidate reference stands for. */
  function DenoteCandidateRef(own: seq<Bytes>, only: seq<Bytes>, r: CandidateRef): Bytes {
    At(if r.space == StateTable then own else only, r.ordinal)
  }

  /** A candidate reference of a valid input keeps its string in its new namespace, and one that
      names a current entity is always in the state's namespace. */
  lemma CandidateRefKeepsString(e: EncodedModelInput, perspective: Byte, i: nat, r: EncodedCardRef)
    requires StateOk(e.table, perspective, e.state) && i < |e.candidates| && CardRefOk(|e.table|, e.state.entities, r)
    requires e.candidates[i].source == Some(r) || e.candidates[i].target == Some(r)
    ensures var own := StateInputOf(e).table;
      var only := CandidateOnlyTable(e.table, own, e.candidates);
      var n := CandidateRefOf(e.table, own, only, r);
      && DenoteCandidateRef(own, only, n) == e.table[r.reference.locator]
      && (n.space == CandidateOnly ==> n.entity.None? && e.table[r.reference.locator] !in own)
  {
    hide TableOf, MapState, Flat, EntityOk, EncodedLinkOk, EncodedEventOk, RelationOk, EncodedDeckOk, LexLess;
    var d := Denote(e.table, e.state);
    var own := TableOf(Refs(d));
    var value := e.table[r.reference.locator];
    var mentioned := Flat(CandidateStrings(e.table), e.candidates);
    TableHolds(Refs(d));
    TableHolds(Outside(own, mentioned));
    FlatHas(CandidateStrings(e.table), e.candidates, i, value);
    OutsideHas(own, mentioned, value);
    if r.reference.entity.Some? {
      EntityStringInState(e.table, e.state, r.reference.entity.value);
    }
  }

  lemma EntityStringInState(table: seq<Bytes>, s: State<nat>, k: nat)
    requires k < |s.entities|
    ensures At(table, s.entities[k].locator) in Refs(Denote(table, s))
  {
    hide Flat, Map;
    RefsMapped(Denoter(table), s);
    FlatHas(EntityRefs(), s.entities, k, s.entities[k].locator);
    InImage(Denoter(table), Refs(s), s.entities[k].locator);
  }

  lemma InImage<A, B>(f: A -> B, xs: seq<A>, x: A)
    requires x in xs
    ensures f(x) in Map(f, xs)
  {
    var i :| 0 <= i < |xs| && xs[i] == x;
    assert Map(f, xs)[i] == f(x);
  }

  /** The strings outside the state's table among those of the first candidates. */
  function OutsideOf(table: seq<Bytes>, own: seq<Bytes>, candidates: seq<EncodedCandidate>): seq<Bytes> {
    Outside(own, Flat(CandidateStrings(table), candidates))
  }

  lemma NoneOutside(table: seq<Bytes>, own: seq<Bytes>, candidates: seq<EncodedCandidate>)
    ensures OutsideOf(table, own, candidates[..0]) == []
  {
  }

  lemma OneMoreCandidate(table: seq<Bytes>, candidates: seq<EncodedCandidate>, i: nat)
    requires i < |candidates|
    ensures Flat(CandidateStrings(table), candidates[..i + 1]) ==
      (Flat(CandidateStrings(table), candidates[..i]) + RefStrings(table, candidates[i].source))
        + RefStrings(table, candidates[i].target)
  {
    assert candidates[..i + 1][..i] == candidates[..i];
  }

  /** Pushes the candidate strings the state does not have, then sorts and deduplicates. */
  method CandidateOnlyLocators(table: seq<Bytes>, own: seq<Bytes>, candidates: seq<EncodedCandidate>)
    returns (only: seq<Bytes>)
    requires IsTable(own)
    ensures only == CandidateOnlyTable(table, own, candidates)
  {
    hide IsTable, TableOf, Flat, Outside, RefStrings;
    var locators: seq<Bytes> := [];
    NoneOutside(table, own, candidates);
    for i := 0 to |candidates|
      invariant locators == OutsideOf(table, own, candidates[..i])
    {
      OneMoreCandidate(table, candidates, i);
      ghost var before := Flat(CandidateStrings(table), candidates[..i]);
      locators := PushOutside(table, own, candidates[i].source, locators, before);
      locators := PushOutside(table, own, candidates[i].target, locators,
        before + RefStrings(table, candidates[i].source));
    }
    assert candidates[..|candidates|] == candidates;
    only := MakeTable(locators);
  }

  method PushOutside(table: seq<Bytes>, own: seq<Bytes>, r: Option<EncodedCardRef>, locators: seq<Bytes>,
    ghost before: seq<Bytes>)
    returns (more: seq<Bytes>)
    requires IsTable(own) && locators == Outside(own, before)
    ensures more == Outside(own, before + RefStrings(table, r))
  {
    if r.None? {
      assert before + [] == before;
      return locators;
    }
    var value := At(table, r.value.reference.locator);
    assert (before + [value])[..|before|] == before;
    var found := Ordinal(own, value);
    return if found.Some? then locators else locators + [value];
  }

  method CandidateReference(table: seq<Bytes>, own: seq<Bytes>, only: seq<Bytes>, r: EncodedCardRef)
    returns (n: CandidateRef)
    requires IsTable(own) && IsTable(only)
    requires var value := At(table, r.reference.locator); value in own || (value in only && r.reference.entity.None?)
    ensures n == CandidateRefOf(table, own, only, r)
  {
    hide IsTable;
    var value := At(table, r.reference.locator);
    var found := Ordinal(own, value);
    if found.Some? {
      return CandidateRef(r.kindCode, StateTable, found.value, r.reference.entity);
    }
    found := Ordinal(only, value);
    return CandidateRef(r.kindCode, CandidateOnly, found.value, r.reference.entity);
  }

  // ---------------------------------------------------------------- selection

  /** `best` scores highest and, among equal scores, has the least key. */
  predicate IsBest(scores: seq<real>, keys: seq<Bytes>, best: nat)
    requires |scores| == |keys|
  {
    best < |keys| &&
    forall i :: 0 <= i < |keys| ==>
      scores[i] < scores[best] || (scores[i] == scores[best] && LexLe(keys[best], keys[i]))
  }

  /** What a scoring function gives: the code scores in floating point, so also no number. */
  datatype Score = Finite(value: real) | NotFinite

  datatype Selection = Picked(best: nat) | NotPicked(error: ScorerError)

  function Worth(s: Score): real {
    if s.Finite? then s.value else 0.0
  }

  predicate AllFinite(scores: seq<Score>) {
    forall i :: 0 <= i < |scores| ==> scores[i].Finite?
  }

  /** The place of the best candidate. As many scores as keys are needed, and all finite. */
  method SelectBest(scores: seq<Score>, keys: seq<Bytes>) returns (r: Selection)
    requires keys != []
    ensures |scores| != |keys| ==> r == NotPicked(ScoreCountMismatch)
    ensures |scores| == |keys| && !AllFinite(scores) ==> r == NotPicked(NonFiniteScore)
    ensures |scores| == |keys| && AllFinite(scores) ==> r.Picked? && IsBest(Map(Worth, scores), keys, r.best)
  {
    LexOrder();
    hide LexLess;
    if |scores| != |keys| {
      return NotPicked(ScoreCountMismatch);
    }
    for index := 0 to |scores|
      invariant forall i :: 0 <= i < index ==> scores[i].Finite?
    {
      if !scores[index].Finite? {
        return NotPicked(NonFiniteScore);
      }
    }
    var best := 0;
    for index := 1 to |scores|
      invariant best < index
      invariant forall i :: 0 <= i < index ==>
        scores[i].value < scores[best].value || (scores[i].value == scores[best].value && LexLe(keys[best], keys[i]))
    {
      var higher := scores[index].value > scores[best].value;
      var equalAndLowerKey := scores[index].value == scores[best].value && LexLess(keys[index], keys[best]);
      if higher || equalAndLowerKey {
        best := index;
      }
    }
    return Picked(best);
  }

  datatype Row = Row(score: real, key: Bytes)

  function Rows(scores: seq<real>, keys: seq<Bytes>): (rows: seq<Row>)
    requires |scores| == |keys|
    ensures |rows| == |keys| && forall i :: 0 <= i < |keys| ==> rows[i] == Row(scores[i], keys[i])
  {
    seq(|keys|, i requires 0 <= i < |keys| => Row(scores[i], keys[i]))
  }

  /** The selected key depends on the scored candidates as a collection, not on their order. */
  lemma SelectionIgnoresOrder(scores: seq<real>, keys: seq<Bytes>, best: nat, scores2: seq<real>, keys2: seq<Bytes>,
    best2: nat)
    requires |scores| == |keys| && |scores2| == |keys2|
    requires IsBest(scores, keys, best) && IsBest(scores2, keys2, best2)
    requires multiset(Rows(scores, keys)) == multiset(Rows(scores2, keys2))
    ensures keys[best] == keys2[best2] && scores[best] == scores2[best2]
  {
    LexOrder();
    hide LexLess;
    var rows, rows2 := Rows(scores, keys), Rows(scores2, keys2);
    SameElements(rows, rows2);
    assert rows[best] in rows2 && rows2[best2] in rows;
    var i :| 0 <= i < |rows2| && rows2[i] == rows[best];
    var j :| 0 <= j < |rows| && rows[j] == rows2[best2];
  }

  // ---------------------------------------------------------------- scoring

  type Representation = seq<U64>

  /** The callbacks as pure functions that may fail. */
  datatype Scorer = Scorer(
    encodeState: StateInput -> Option<Representation>,
      encodeCandidate: (Representation, CandidateInput) -> Option<Representation>,
    score: (Representation, Representation) -> Option<Score>)

  /** A scorer as it is configured: callbacks may be missing; a physical width may be given. */
  datatype Setup = Setup(
    encodeState: Option<StateInput -> Option<Representation>>,
    encodeCandidate: Option<(Representation, CandidateInput) -> Option<Representation>>,
    score: Option<(Representation, Representation) -> Option<Score>>, capacity: Option<U64>)

  function ScorerOf(setup: Setup): Scorer
    requires setup.encodeState.Some? && setup.encodeCandidate.Some? && setup.score.Some?
  {
    Scorer(setup.encodeState.value, setup.encodeCandidate.value, setup.score.value)
  }

  datatype Inference = Inference(scores: seq<Score>, best: nat, key: Bytes)

  datatype ScorerError =
    | InvalidEncodedInput | CandidateCapacityTooSmall | MissingStateEncoder | StateEncoderFailure
    | MissingCandidateEncoder | CandidateEncoderFailure | MissingScoringFunction | CandidateScoringFailure
    | ScoreCountMismatch | NonFiniteScore

  datatype Scored = Selected(inference: Inference) | ScoringFailed(error: ScorerError)

  predicate FitsCapacity(capacity: Option<U64>, e: EncodedModelInput) {
    capacity.Some? ==> |e.candidates| <= capacity.value
  }

  function OnlyTableOf(e: EncodedModelInput): seq<Bytes> {
    CandidateOnlyTable(e.table, StateInputOf(e).table, e.candidates)
  }

  /** The score of one candidate, given its input's tables. */
  function ScoreWith(scorer: Scorer, state: Representation, table: seq<Bytes>, own: seq<Bytes>, only: seq<Bytes>,
    c: EncodedCandidate): Option<Score> {
    match scorer.encodeCandidate(state, CandidateInputOf(table, own, only, c))
    case None => None
    case Some(candidate) => scorer.score(state, candidate)
  }

  function ScoreOf(scorer: Scorer, state: Representation, e: EncodedModelInput, c: EncodedCandidate): Option<Score> {
    ScoreWith(scorer, state, e.table, StateInputOf(e).table, OnlyTableOf(e), c)
  }

  ghost predicate ScoresAre(scorer: Scorer, state: Representation, e: EncodedModelInput, scores: seq<real>) {
    |scores| == |e.candidates| && forall i :: 0 <= i < |scores| ==>
      ScoreOf(scorer, state, e, e.candidates[i]) == Some(Finite(scores[i]))
  }

  /** The key a scorer selects, if every callback answers. */
  ghost predicate Selects(scorer: Scorer, e: EncodedModelInput, key: Bytes)
    requires |e.candidates| == |e.routingKeys|
  {
    exists state: Representation, scores: seq<real>, best: nat ::
      && scorer.encodeState(StateInputOf(e)) == Some(state) && ScoresAre(scorer, state, e, scores)
      && IsBest(scores, e.routingKeys, best) && key == e.routingKeys[best]
  }

  /** What a callback refuses of the candidates from one on: the first refusal. */
  function CallbackFault(scorer: Scorer, state: Representation, e: EncodedModelInput, i: nat): Option<ScorerError>
    decreases |e.candidates| - i
  {
    if i >= |e.candidates| then None
    else
      var input := CandidateInputOf(e.table, StateInputOf(e).table, OnlyTableOf(e), e.candidates[i]);
      match scorer.encodeCandidate(state, input)
      case None => Some(CandidateEncoderFailure)
      case Some(candidate) =>
        if scorer.score(state, candidate).None? then Some(CandidateScoringFailure)
        else CallbackFault(scorer, state, e, i + 1)
  }

  /** Which callback fails first, or that a score is no number. */
  ghost function ScorerFault(scorer: Scorer, e: EncodedModelInput): Option<ScorerError> {
    match scorer.encodeState(StateInputOf(e))
    case None => Some(StateEncoderFailure)
    case Some(state) =>
      if CallbackFault(scorer, state, e, 0).Some? then CallbackFault(scorer, state, e, 0)
      else if HasNoNumber(scorer, state, e) then Some(NonFiniteScore)
      else None
  }

  predicate HasNoNumber(scorer: Scorer, state: Representation, e: EncodedModelInput) {
    exists i :: 0 <= i < |e.candidates| && ScoreOf(scorer, state, e, e.candidates[i]) == Some(NotFinite)
  }

  /** Why scoring fails, if it does: the first check or callback that does. */
  ghost function ScoringFault(sha256: Bytes -> Bytes, e: EncodedModelInput, setup: Setup): Option<ScorerError> {
    if !EncodedOk(sha256, e) then Some(InvalidEncodedInput)
    else if !FitsCapacity(setup.capacity, e) then Some(CandidateCapacityTooSmall)
    else if setup.encodeState.None? then Some(MissingStateEncoder)
    else if setup.encodeCandidate.None? then Some(MissingCandidateEncoder)
    else if setup.score.None? then Some(MissingScoringFunction)
    else ScorerFault(ScorerOf(setup), e)
  }

  /** What was selected: the scores of all candidates, and the best of them. */
  ghost predicate IsInference(scorer: Scorer, e: EncodedModelInput, r: Inference)
    requires |e.candidates| == |e.routingKeys|
  {
    && |r.scores| == |e.candidates| && AllFinite(r.scores) && r.best < |e.routingKeys|
    && IsBest(Map(Worth, r.scores), e.routingKeys, r.best) && r.key == e.routingKeys[r.best]
    && exists state: Representation ::
         && scorer.encodeState(StateInputOf(e)) == Some(state)
         && forall i :: 0 <= i < |e.candidates| ==> ScoreOf(scorer, state, e, e.candidates[i]) == Some(r.scores[i])
  }

  lemma InferenceSelects(scorer: Scorer, e: EncodedModelInput, r: Inference)
    requires |e.candidates| == |e.routingKeys| && IsInference(scorer, e, r)
    ensures Selects(scorer, e, r.key)
  {
    hide IsBest, ScoreOf, StateInputOf;
    var state: Representation :| scorer.encodeState(StateInputOf(e)) == Some(state)
      && forall i :: 0 <= i < |e.candidates| ==> ScoreOf(scorer, state, e, e.candidates[i]) == Some(r.scores[i]);
    var scores: seq<real> := Map(Worth, r.scores);
    assert ScoresAre(scorer, state, e, scores);
  }

  /** Every reference of a valid candidate can be placed: in the state's table, or, without a
      current entity, in the candidates' own. */
  lemma CandidateIsPlaced(e: EncodedModelInput, perspective: Byte, i: nat, r: EncodedCardRef)
    requires StateOk(e.table, perspective, e.state) && i < |e.candidates| && CardRefOk(|e.table|, e.state.entities, r)
    requires e.candidates[i].source == Some(r) || e.candidates[i].target == Some(r)
    ensures var value := At(e.table, r.reference.locator);
      value in StateInputOf(e).table || (value in OnlyTableOf(e) && r.reference.entity.None?)
  {
    hide TableOf, MapState, Flat, EntityOk, EncodedLinkOk, EncodedEventOk, RelationOk, EncodedDeckOk, LexLess;
    CandidateRefKeepsString(e, perspective, i, r);
    var own := StateInputOf(e).table;
    var value := At(e.table, r.reference.locator);
    var mentioned := Flat(CandidateStrings(e.table), e.candidates);
    TableHolds(Outside(own, mentioned));
    FlatHas(CandidateStrings(e.table), e.candidates, i, value);
    OutsideHas(own, mentioned, value);
  }

  method MakeCandidateInput(e: EncodedModelInput, own: seq<Bytes>, only: seq<Bytes>, i: nat) returns (r: CandidateInput)
    requires i < |e.candidates| && CandidateOk(|e.table|, e.state.entities, e.candidates[i])
    requires StateOk(e.table, e.perspectivePlayer, e.state)
    requires own == StateInputOf(e).table && only == OnlyTableOf(e) && IsTable(own) && IsTable(only)
    ensures r == CandidateInputOf(e.table, own, only, e.candidates[i])
  {
    hide StateOk, StateInputOf, CandidateOnlyTable, IsTable, EncodedChoiceOk;
    var c := e.candidates[i];
    var source, target: Option<CandidateRef> := None, None;
    if c.source.Some? {
      CandidateIsPlaced(e, e.perspectivePlayer, i, c.source.value);
      var n := CandidateReference(e.table, own, only, c.source.value);
      source := Some(n);
    }
    if c.target.Some? {
      CandidateIsPlaced(e, e.perspectivePlayer, i, c.target.value);
      var n := CandidateReference(e.table, own, only, c.target.value);
      target := Some(n);
    }
    return CandidateInput(c.actionKindCode, c.choice, source, target, c.phase, c.position, c.sourceIndex, c.amount,
      c.continuationCode, c.submitsResponse);
  }

  lemma OwnTables(e: EncodedModelInput)
    ensures IsTable(StateInputOf(e).table) && IsTable(OnlyTableOf(e))
  {
    hide TableOf, IsTable, Refs, MapState, Outside;
    TableHolds(Refs(Denote(e.table, e.state)));
    TableHolds(OutsideOf(e.table, StateInputOf(e).table, e.candidates));
  }

  /** Scores every candidate of a valid input and selects, or says what failed first. Every
      lookup the code guards succeeds. */
  method ScoreEncodedModelInput(sha256: Bytes -> Bytes, e: EncodedModelInput, setup: Setup) returns (r: Scored)
    ensures match ScoringFault(sha256, e, setup)
      case Some(error) => r == ScoringFailed(error)
      case None => r.Selected? && IsInference(ScorerOf(setup), e, r.inference)
    ensures r.Selected? ==> Selects(ScorerOf(setup), e, r.inference.key)
  {
    hide StateInputOf, IsBest, StateOk, RoutingOk, HeaderOk, DomainDigestOk;
    var valid := ModelInputEncoding.ValidateEncoded(sha256, e);
    if !valid {
      return ScoringFailed(InvalidEncodedInput);
    }
    if setup.capacity.Some? && setup.capacity.value < |e.candidates| {
      return ScoringFailed(CandidateCapacityTooSmall);
    }
    if setup.encodeState.None? {
      return ScoringFailed(MissingStateEncoder);
    }
    if setup.encodeCandidate.None? {
      return ScoringFailed(MissingCandidateEncoder);
    }
    if setup.score.None? {
      return ScoringFailed(MissingScoringFunction);
    }
    ValidHasCandidates(sha256, e);
    hide EncodedOk, ScorerFault, IsInference, Selects, CandidateOk;
    r := ScoreWithCallbacks(ScorerOf(setup), e);
  }

  /** The scoring proper, every callback at hand. */
  method ScoreWithCallbacks(scorer: Scorer, e: EncodedModelInput) returns (r: Scored)
    requires StateOk(e.table, e.perspectivePlayer, e.state) && InRange(e.table, Refs(e.state))
    requires |e.candidates| == |e.routingKeys| > 0
    requires forall i :: 0 <= i < |e.candidates| ==> CandidateOk(|e.table|, e.state.entities, e.candidates[i])
    ensures match ScorerFault(scorer, e)
      case Some(error) => r == ScoringFailed(error)
      case None => r.Selected? && IsInference(scorer, e, r.inference)
    ensures r.Selected? ==> Selects(scorer, e, r.inference.key)
  {
    hide StateInputOf, OnlyTableOf, IsBest, StateOk, CallbackFault, ScoreOf, CandidateOk, InRange, Selects, IsTable,
      AllFinite;
    var stateInput := StateInputFromEncoded(e);
    var only := CandidateOnlyTables(e, stateInput.table);
    var state := scorer.encodeState(stateInput);
    if state.None? {
      return ScoringFailed(StateEncoderFailure);
    }
    var scored := ScoreCandidates(scorer, state.value, e, stateInput.table, only);
    if scored.Refused? {
      return ScoringFailed(scored.error);
    }
    NumbersOrNot(scorer, state.value, e, scored.scores);
    var picked := SelectBest(scored.scores, e.routingKeys);
    if picked.NotPicked? {
      return ScoringFailed(picked.error);
    }
    BestIsPlace(Map(Worth, scored.scores), e.routingKeys, picked.best);
    r := Selected(Inference(scored.scores, picked.best, e.routingKeys[picked.best]));
    InferenceSelects(scorer, e, r.inference);
  }

  lemma NumbersOrNot(scorer: Scorer, state: Representation, e: EncodedModelInput, scores: seq<Score>)
    requires |scores| == |e.candidates|
    requires forall i :: 0 <= i < |scores| ==> ScoreOf(scorer, state, e, e.candidates[i]) == Some(scores[i])
    ensures HasNoNumber(scorer, state, e) <==> !AllFinite(scores)
  {
    hide ScoreOf;
    if !AllFinite(scores) {
      var i :| 0 <= i < |scores| && !scores[i].Finite?;
      assert ScoreOf(scorer, state, e, e.candidates[i]) == Some(NotFinite);
    }
  }

  datatype Scores = AllScored(scores: seq<Score>) | Refused(error: ScorerError)

  lemma ValidHasCandidates(sha256: Bytes -> Bytes, e: EncodedModelInput)
    requires EncodedOk(sha256, e)
    ensures StateOk(e.table, e.perspectivePlayer, e.state) && InRange(e.table, Refs(e.state))
    ensures |e.candidates| == |e.routingKeys| > 0
    ensures forall i :: 0 <= i < |e.candidates| ==> CandidateOk(|e.table|, e.state.entities, e.candidates[i])
  {
    hide StateOk, HeaderOk, DomainDigestOk, CandidateOk;
    ValidIsInRange(e.table, e.perspectivePlayer, e.state);
  }

  method CandidateOnlyTables(e: EncodedModelInput, own: seq<Bytes>) returns (only: seq<Bytes>)
    requires own == StateInputOf(e).table
    ensures only == OnlyTableOf(e) && IsTable(own) && IsTable(only)
  {
    hide StateInputOf, IsTable, CandidateOnlyTable;
    OwnTables(e);
    only := CandidateOnlyLocators(e.table, own, e.candidates);
  }

  /** Encodes and scores the candidates in order; the first refusal ends it. */
  method ScoreCandidates(scorer: Scorer, state: Representation, e: EncodedModelInput, own: seq<Bytes>, only: seq<Bytes>)
    returns (r: Scores)
    requires StateOk(e.table, e.perspectivePlayer, e.state)
    requires forall i :: 0 <= i < |e.candidates| ==> CandidateOk(|e.table|, e.state.entities, e.candidates[i])
    requires own == StateInputOf(e).table && only == OnlyTableOf(e) && IsTable(own) && IsTable(only)
    ensures match CallbackFault(scorer, state, e, 0)
      case Some(error) => r == Refused(error)
      case None =>
        && r.AllScored? && |r.scores| == |e.candidates|
        && forall i :: 0 <= i < |r.scores| ==> ScoreOf(scorer, state, e, e.candidates[i]) == Some(r.scores[i])
  {
    hide StateOk, StateInputOf, CandidateOnlyTable, IsTable, CandidateOk, CandidateInputOf;
    var scores: seq<Score> := [];
    for index := 0 to |e.candidates|
      invariant |scores| == index
      invariant CallbackFault(scorer, state, e, 0) == CallbackFault(scorer, state, e, index)
      invariant forall i :: 0 <= i < index ==> ScoreOf(scorer, state, e, e.candidates[i]) == Some(scores[i])
    {
      var input := MakeCandidateInput(e, own, only, index);
      var candidate := scorer.encodeCandidate(state, input);
      if candidate.None? {
        return Refused(CandidateEncoderFailure);
      }
      var score := scorer.score(state, candidate.value);
      if score.None? {
        return Refused(CandidateScoringFailure);
      }
      scores := scores + [score.value];
    }
    return AllScored(scores);
  }

  lemma BestIsPlace(scores: seq<real>, keys: seq<Bytes>, best: nat)
    requires |scores| == |keys| && IsBest(scores, keys, best)
    ensures best < |keys|
  {
  }

  // ---------------------------------------------------------------- candidate order

  datatype Pair = Pair(candidate: EncodedCandidate, key: Bytes)

  function Pairs(e: EncodedModelInput): (ps: seq<Pair>)
    requires |e.candidates| == |e.routingKeys|
    ensures |ps| == |e.candidates|
    ensures forall i :: 0 <= i < |ps| ==> ps[i] == Pair(e.candidates[i], e.routingKeys[i])
  {
    seq(|e.candidates|, i requires 0 <= i < |e.candidates| => Pair(e.candidates[i], e.routingKeys[i]))
  }

  /** The same input with its candidates, and their keys with them, in another order. */
  ghost predicate Reordered(e: EncodedModelInput, f: EncodedModelInput)
    requires |e.candidates| == |e.routingKeys| && |f.candidates| == |f.routingKeys|
  {
    && e.table == f.table && e.state == f.state && SameHeader(e, f)
    && multiset(Pairs(e)) == multiset(Pairs(f))
  }

  lemma SameMentions(table: seq<Bytes>, own: seq<Bytes>, cs: seq<EncodedCandidate>, ds: seq<EncodedCandidate>, v: Bytes)
    requires forall c :: c in cs ==> c in ds
    ensures v in OutsideOf(table, own, cs) ==> v in OutsideOf(table, own, ds)
  {
    hide Flat;
    OutsideHas(own, Flat(CandidateStrings(table), cs), v);
    OutsideHas(own, Flat(CandidateStrings(table), ds), v);
    if v in Flat(CandidateStrings(table), cs) {
      FlatFrom(CandidateStrings(table), cs, v);
      var i :| 0 <= i < |cs| && v in CandidateStrings(table)(cs[i]);
      assert cs[i] in ds;
      var j :| 0 <= j < |ds| && ds[j] == cs[i];
      FlatHas(CandidateStrings(table), ds, j, v);
    }
  }

  lemma ReorderedTables(e: EncodedModelInput, f: EncodedModelInput)
    requires |e.candidates| == |e.routingKeys| && |f.candidates| == |f.routingKeys| && Reordered(e, f)
    ensures StateInputOf(e) == StateInputOf(f) && OnlyTableOf(e) == OnlyTableOf(f)
    ensures forall i :: 0 <= i < |e.candidates| ==> Pair(e.candidates[i], e.routingKeys[i]) in Pairs(f)
  {
    SameElements(Pairs(e), Pairs(f));
    hide Denote, Compact, TableOf, OutsideOf, Outside, Flat;
    forall i | 0 <= i < |e.candidates| ensures Pair(e.candidates[i], e.routingKeys[i]) in Pairs(f) {
      assert Pairs(e)[i] in Pairs(f);
    }
    forall c | c in e.candidates ensures c in f.candidates {
      var i :| 0 <= i < |e.candidates| && e.candidates[i] == c;
      var j :| 0 <= j < |Pairs(f)| && Pairs(f)[j] == Pairs(e)[i];
    }
    forall c | c in f.candidates ensures c in e.candidates {
      var i :| 0 <= i < |f.candidates| && f.candidates[i] == c;
      assert Pairs(f)[i] in Pairs(e);
      var j :| 0 <= j < |Pairs(e)| && Pairs(e)[j] == Pairs(f)[i];
    }
    var own := StateInputOf(e).table;
    forall v ensures v in OutsideOf(e.table, own, e.candidates) <==> v in OutsideOf(e.table, own, f.candidates) {
      SameMentions(e.table, own, e.candidates, f.candidates, v);
      SameMentions(e.table, own, f.candidates, e.candidates, v);
    }
    SameStringsSameTable(OutsideOf(e.table, own, e.candidates), OutsideOf(e.table, own, f.candidates));
    OnlyTableIsOutside(e);
    OnlyTableIsOutside(f);
  }

  lemma OnlyTableIsOutside(e: EncodedModelInput)
    ensures OnlyTableOf(e) == TableOf(OutsideOf(e.table, StateInputOf(e).table, e.candidates))
  {
    hide StateInputOf, TableOf;
  }

  /** In another order every candidate scores what it did, so none beats the one selected. */
  lemma ScoresBelow(scorer: Scorer, state: Representation, e: EncodedModelInput, f: EncodedModelInput,
    scores: seq<real>,
                    best: nat, j: nat)
    requires |e.candidates| == |e.routingKeys| && |f.candidates| == |f.routingKeys| && e.table == f.table
    requires StateInputOf(e) == StateInputOf(f) && OnlyTableOf(e) == OnlyTableOf(f)
    requires j < |f.candidates| && Pair(f.candidates[j], f.routingKeys[j]) in Pairs(e)
    requires ScoresAre(scorer, state, e, scores) && IsBest(scores, e.routingKeys, best)
    ensures ScoreOf(scorer, state, f, f.candidates[j]).Some? && ScoreOf(scorer, state, f, f.candidates[j]).value.Finite?
    ensures var s := ScoreOf(scorer, state, f, f.candidates[j]).value.value;
      s < scores[best] || (s == scores[best] && LexLe(e.routingKeys[best], f.routingKeys[j]))
  {
    hide StateInputOf, OnlyTableOf, ScoreWith, LexLess;
    var i :| 0 <= i < |Pairs(e)| && Pairs(e)[i] == Pair(f.candidates[j], f.routingKeys[j]);
    assert ScoreOf(scorer, state, e, e.candidates[i]) == Some(Finite(scores[i]));
  }

  /** Which key is selected does not depend on the order the candidates come in. */
  lemma SelectionIsOrderFree(scorer: Scorer, e: EncodedModelInput, f: EncodedModelInput, key: Bytes)
    requires |e.candidates| == |e.routingKeys| && |f.candidates| == |f.routingKeys| && Reordered(e, f)
    requires Selects(scorer, e, key)
    ensures Selects(scorer, f, key)
  {
    hide StateInputOf, OnlyTableOf, ScoreWith, LexLess;
    ReorderedTables(e, f);
    ReorderedTables(f, e);
    hide Reordered;
    var state: Representation, scores: seq<real>, best: nat :|
      && scorer.encodeState(StateInputOf(e)) == Some(state) && ScoresAre(scorer, state, e, scores)
      && IsBest(scores, e.routingKeys, best) && key == e.routingKeys[best];
    forall j | 0 <= j < |f.candidates|
      ensures ScoreOf(scorer, state, f, f.candidates[j]).Some?
        && ScoreOf(scorer, state, f, f.candidates[j]).value.Finite?
      ensures var s := ScoreOf(scorer, state, f, f.candidates[j]).value.value;
        s < scores[best] || (s == scores[best] && LexLe(key, f.routingKeys[j]))
    {
      ScoresBelow(scorer, state, e, f, scores, best, j);
    }
    var best2 :| 0 <= best2 < |Pairs(f)| && Pairs(f)[best2] == Pair(e.candidates[best], e.routingKeys[best]);
    assert ScoreOf(scorer, state, e, e.candidates[best]) == Some(Finite(scores[best]));
    hide ScoreOf;
    var scores2 := seq(|f.candidates|, j requires 0 <= j < |f.candidates| =>
      Worth(ScoreOf(scorer, state, f, f.candidates[j]).value));
    assert ScoreOf(scorer, state, f, f.candidates[best2]) == Some(Finite(scores[best]));
    assert ScoresAre(scorer, state, f, scores2);
    assert IsBest(scores2, f.routingKeys, best2);
  }
}
