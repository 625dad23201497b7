/** What the scorer is given, said without the functions that make it: the state it sees is the
    encoded one under a table of its own, and a candidate is the encoded candidate with every
    reference denoting the string it denoted. */
module ScorerMeaning {
  import opened Bytes
  import opened Text
  import opened Sorting
  import opened LocatorTables
  import opened EncodedState
  import opened EncodedInput
  import opened CandidateScorer

  // ---------------------------------------------------------------- the state

  /** Two ordinals stand for the same string. */
  predicate Same(own: seq<Bytes>, a: nat, table: seq<Bytes>, b: nat) {
    a < |own| && b < |table| && own[a] == table[b]
  }

  predicate SameRef(own: seq<Bytes>, a: Ref<nat>, table: seq<Bytes>, b: Ref<nat>) {
    Same(own, a.locator, table, b.locator) && a.entity == b.entity
  }

  predicate SameEntity(own: seq<Bytes>, a: Entity<nat>, table: seq<Bytes>, b: Entity<nat>) {
    Same(own, a.locator, table, b.locator) && a.(locator := 0) == b.(locator := 0)
  }

  predicate SameRelation(own: seq<Bytes>, a: Relation<nat>, table: seq<Bytes>, b: Relation<nat>) {
    a.kindCode == b.kindCode && SameRef(own, a.source, table, b.source) && SameRef(own, a.target, table, b.target)
  }

  predicate SameLink(own: seq<Bytes>, a: Link<nat>, table: seq<Bytes>, b: Link<nat>) {
    && a.(source := None, targets := []) == b.(source := None, targets := [])
    && a.source.Some? == b.source.Some? && (a.source.Some? ==> SameRef(own, a.source.value, table, b.source.value))
    && |a.targets| == |b.targets|
    && (forall i :: 0 <= i < |a.targets| ==> SameRef(own, a.targets[i], table, b.targets[i]))
  }

  predicate SameEvent(own: seq<Bytes>, a: Event<nat>, table: seq<Bytes>, b: Event<nat>) {
    && a.(locator := None, targets := []) == b.(locator := None, targets := [])
    && a.locator.Some? == b.locator.Some? && (a.locator.Some? ==> Same(own, a.locator.value, table, b.locator.value))
    && |a.targets| == |b.targets|
    && (forall i :: 0 <= i < |a.targets| ==> Same(own, a.targets[i], table, b.targets[i]))
  }

  /** One state under two tables: everything but the ordinals is equal, and these stand for the
      same strings. */
  predicate SameState(own: seq<Bytes>, s: State<nat>, table: seq<Bytes>, t: State<nat>) {
    && s.globals == t.globals && s.zones == t.zones && s.chainLength == t.chainLength && s.context == t.context
    && |s.references| == |t.references|
    && (forall i :: 0 <= i < |s.references| ==> Same(own, s.references[i], table, t.references[i]))
    && |s.entities| == |t.entities|
    && (forall i :: 0 <= i < |s.entities| ==> SameEntity(own, s.entities[i], table, t.entities[i]))
    && |s.relationships| == |t.relationships|
    && (forall i :: 0 <= i < |s.relationships| ==> SameRelation(own, s.relationships[i], table, t.relationships[i]))
    && |s.links| == |t.links| && (forall i :: 0 <= i < |s.links| ==> SameLink(own, s.links[i], table, t.links[i]))
    && |s.events| == |t.events|
    && (forall i :: 0 <= i < |s.events| ==> SameEvent(own, s.events[i], table, t.events[i]))
  }

  /** A state input gives the header and the state of an encoded input, under a strictly
      ascending table of the strings the state refers to and of no other. */
  ghost predicate StateMeans(s: StateInput, e: EncodedModelInput) {
    && s.vocabularyIdentity == e.vocabularyIdentity && s.observationDigest == e.observationDigest
    && s.perspectivePlayer == e.perspectivePlayer && s.decisionIndex == e.decisionIndex
    && s.contextKindCode == e.contextKindCode && s.contextPlayer == e.contextPlayer
    && SameState(s.table, s.state, e.table, e.state) && IsTable(s.table)
    && (forall x :: x in s.table <==> exists k :: k in Refs(e.state) && At(e.table, k) == x)
  }

  /** Every entry is a string, so an ordinal past a table denotes none of them. */
  predicate NoneEmpty(table: seq<Bytes>) {
    forall i :: 0 <= i < |table| ==> table[i] != []
  }

  lemma EqualStringsSame(own: seq<Bytes>, a: nat, table: seq<Bytes>, b: nat)
    requires NoneEmpty(table) && b < |table| && At(own, a) == At(table, b)
    ensures Same(own, a, table, b)
  {
  }

  lemma {:induction false} FlatRuns<A>(refs: A -> seq<nat>, table: seq<Bytes>, xs: seq<A>, i: nat)
    requires i < |xs| && InRange(table, Flat(refs, xs))
    ensures InRange(table, refs(xs[i]))
  {
    hide Flat;
    forall j | 0 <= j < |refs(xs[i])| ensures refs(xs[i])[j] < |table| {
      FlatHas(refs, xs, i, refs(xs[i])[j]);
      var k :| 0 <= k < |Flat(refs, xs)| && Flat(refs, xs)[k] == refs(xs[i])[j];
    }
  }

  lemma RangeParts(table: seq<Bytes>, s: State<nat>)
    requires InRange(table, Refs(s))
    ensures InRange(table, s.references) && InRange(table, Flat(EntityRefs(), s.entities))
    ensures InRange(table, Flat(RelationRefs(), s.relationships)) && InRange(table, Flat(LinkRefs(), s.links))
    ensures InRange(table, Flat(EventRefs(), s.events))
  {
    hide Flat, InRange;
    var b, c := Flat(EntityRefs(), s.entities), Flat(RelationRefs(), s.relationships);
    var d, e := Flat(LinkRefs(), s.links), Flat(EventRefs(), s.events);
    PartsInRange(table, s.references + b + c + d, e);
    PartsInRange(table, s.references + b + c, d);
    PartsInRange(table, s.references + b, c);
    PartsInRange(table, s.references, b);
  }

  lemma EntityIsSame(own: seq<Bytes>, a: Entity<nat>, table: seq<Bytes>, b: Entity<nat>)
    requires NoneEmpty(table) && InRange(table, EntityRefs()(b))
    requires MapEntity(Denoter(own), a) == MapEntity(Denoter(table), b)
    ensures SameEntity(own, a, table, b)
  {
    assert EntityRefs()(b)[0] == b.locator;
    var x, y := MapEntity(Denoter(own), a), MapEntity(Denoter(table), b);
    EqualStringsSame(own, a.locator, table, b.locator);
    assert a.identityKnown == x.identityKnown && a.printed == x.printed;
  }

  lemma RefIsSame(own: seq<Bytes>, a: Ref<nat>, table: seq<Bytes>, b: Ref<nat>)
    requires NoneEmpty(table) && b.locator < |table| && MapRef(Denoter(own), a) == MapRef(Denoter(table), b)
    ensures SameRef(own, a, table, b)
  {
    var x, y := MapRef(Denoter(own), a), MapRef(Denoter(table), b);
    assert x.locator == y.locator;
  }

  lemma RelationIsSame(own: seq<Bytes>, a: Relation<nat>, table: seq<Bytes>, b: Relation<nat>)
    requires NoneEmpty(table) && InRange(table, RelationRefs()(b))
    requires MapRelation(Denoter(own), a) == MapRelation(Denoter(table), b)
    ensures SameRelation(own, a, table, b)
  {
    assert RelationRefs()(b)[0] == b.source.locator && RelationRefs()(b)[1] == b.target.locator;
    var x, y := MapRelation(Denoter(own), a), MapRelation(Denoter(table), b);
    assert x.source == y.source && x.target == y.target && x.kindCode == y.kindCode;
    RefIsSame(own, a.source, table, b.source);
    RefIsSame(own, a.target, table, b.target);
  }

  lemma LinkIsSame(own: seq<Bytes>, a: Link<nat>, table: seq<Bytes>, b: Link<nat>)
    requires NoneEmpty(table) && InRange(table, LinkRefs()(b))
    requires MapLink(Denoter(own), a) == MapLink(Denoter(table), b)
    ensures SameLink(own, a, table, b)
  {
    hide NoneEmpty, SameRef;
    var x, y := MapLink(Denoter(own), a), MapLink(Denoter(table), b);
    assert x.index == y.index && x.source == y.source && x.targets == y.targets;
    assert x.activatingPlayer == y.activatingPlayer && x.activationZoneCode == y.activationZoneCode;
    assert x.effectDescription == y.effectDescription;
    PartsInRange(table, OptionSeq(MapOption(RefLocator(), b.source)), Map(RefLocator(), b.targets));
    if b.source.Some? {
      assert OptionSeq(MapOption(RefLocator(), b.source))[0] == b.source.value.locator;
      RefIsSame(own, a.source.value, table, b.source.value);
    }
    assert |a.targets| == |x.targets| == |b.targets|;
    forall i | 0 <= i < |a.targets| ensures SameRef(own, a.targets[i], table, b.targets[i]) {
      assert Map(RefLocator(), b.targets)[i] == b.targets[i].locator;
      assert x.targets[i] == MapRef(Denoter(own), a.targets[i]);
      assert y.targets[i] == MapRef(Denoter(table), b.targets[i]);
      RefIsSame(own, a.targets[i], table, b.targets[i]);
    }
  }

  lemma EventIsSame(own: seq<Bytes>, a: Event<nat>, table: seq<Bytes>, b: Event<nat>)
    requires NoneEmpty(table) && InRange(table, EventRefs()(b))
    requires MapEvent(Denoter(own), a) == MapEvent(Denoter(table), b)
    ensures SameEvent(own, a, table, b)
  {
    hide NoneEmpty, Same;
    var x, y := MapEvent(Denoter(own), a), MapEvent(Denoter(table), b);
    assert x.locator == y.locator && x.targets == y.targets;
    assert a.(locator := None, targets := []) == b.(locator := None, targets := []) by {
      assert x.eventIndex == y.eventIndex && x.kindCode == y.kindCode && x.player == y.player;
      assert x.vocabularyId == y.vocabularyId && x.fromZoneCode == y.fromZoneCode && x.toZoneCode == y.toZoneCode;
      assert x.count == y.count && x.amount == y.amount && x.counterType == y.counterType && x.phase == y.phase;
      assert x.winner == y.winner && x.winReason == y.winReason && x.effectDescription == y.effectDescription;
    }
    PartsInRange(table, OptionSeq(b.locator), b.targets);
    if b.locator.Some? {
      assert OptionSeq(b.locator)[0] == b.locator.value;
      EqualStringsSame(own, a.locator.value, table, b.locator.value);
    }
    assert |a.targets| == |x.targets| == |b.targets|;
    forall i | 0 <= i < |a.targets| ensures Same(own, a.targets[i], table, b.targets[i]) {
      assert x.targets[i] == Denoter(own)(a.targets[i]) && y.targets[i] == Denoter(table)(b.targets[i]);
      EqualStringsSame(own, a.targets[i], table, b.targets[i]);
    }
  }

  lemma EntitiesSame(own: seq<Bytes>, xs: seq<Entity<nat>>, table: seq<Bytes>, ys: seq<Entity<nat>>)
    requires NoneEmpty(table) && InRange(table, Flat(EntityRefs(), ys))
    requires Map(EntityMap(Denoter(own)), xs) == Map(EntityMap(Denoter(table)), ys)
    ensures |xs| == |ys| && forall i :: 0 <= i < |xs| ==> SameEntity(own, xs[i], table, ys[i])
  {
    hide NoneEmpty, Flat, MapEntity, InRange;
    var ms, ns: seq<Entity<Bytes>> := Map(EntityMap(Denoter(own)), xs), Map(EntityMap(Denoter(table)), ys);
    assert |xs| == |ms| == |ns| == |ys|;
    forall i | 0 <= i < |xs| ensures SameEntity(own, xs[i], table, ys[i]) {
      assert ms[i] == MapEntity(Denoter(own), xs[i]) && ns[i] == MapEntity(Denoter(table), ys[i]);
      FlatRuns(EntityRefs(), table, ys, i);
      EntityIsSame(own, xs[i], table, ys[i]);
    }
  }

  lemma RelationsSame(own: seq<Bytes>, xs: seq<Relation<nat>>, table: seq<Bytes>, ys: seq<Relation<nat>>)
    requires NoneEmpty(table) && InRange(table, Flat(RelationRefs(), ys))
    requires Map(RelationMap(Denoter(own)), xs) == Map(RelationMap(Denoter(table)), ys)
    ensures |xs| == |ys| && forall i :: 0 <= i < |xs| ==> SameRelation(own, xs[i], table, ys[i])
  {
    hide NoneEmpty, Flat, MapRelation, InRange;
    var ms, ns: seq<Relation<Bytes>> := Map(RelationMap(Denoter(own)), xs), Map(RelationMap(Denoter(table)), ys);
    assert |xs| == |ms| == |ns| == |ys|;
    forall i | 0 <= i < |xs| ensures SameRelation(own, xs[i], table, ys[i]) {
      assert ms[i] == MapRelation(Denoter(own), xs[i]) && ns[i] == MapRelation(Denoter(table), ys[i]);
      FlatRuns(RelationRefs(), table, ys, i);
      RelationIsSame(own, xs[i], table, ys[i]);
    }
  }

  lemma LinksSame(own: seq<Bytes>, xs: seq<Link<nat>>, table: seq<Bytes>, ys: seq<Link<nat>>)
    requires NoneEmpty(table) && InRange(table, Flat(LinkRefs(), ys))
    requires Map(LinkMap(Denoter(own)), xs) == Map(LinkMap(Denoter(table)), ys)
    ensures |xs| == |ys| && forall i :: 0 <= i < |xs| ==> SameLink(own, xs[i], table, ys[i])
  {
    hide NoneEmpty, Flat, MapLink, InRange;
    var ms, ns: seq<Link<Bytes>> := Map(LinkMap(Denoter(own)), xs), Map(LinkMap(Denoter(table)), ys);
    assert |xs| == |ms| == |ns| == |ys|;
    forall i | 0 <= i < |xs| ensures SameLink(own, xs[i], table, ys[i]) {
      assert ms[i] == MapLink(Denoter(own), xs[i]) && ns[i] == MapLink(Denoter(table), ys[i]);
      FlatRuns(LinkRefs(), table, ys, i);
      LinkIsSame(own, xs[i], table, ys[i]);
    }
  }

  lemma EventsSame(own: seq<Bytes>, xs: seq<Event<nat>>, table: seq<Bytes>, ys: seq<Event<nat>>)
    requires NoneEmpty(table) && InRange(table, Flat(EventRefs(), ys))
    requires Map(EventMap(Denoter(own)), xs) == Map(EventMap(Denoter(table)), ys)
    ensures |xs| == |ys| && forall i :: 0 <= i < |xs| ==> SameEvent(own, xs[i], table, ys[i])
  {
    hide NoneEmpty, Flat, MapEvent, InRange;
    var ms, ns: seq<Event<Bytes>> := Map(EventMap(Denoter(own)), xs), Map(EventMap(Denoter(table)), ys);
    assert |xs| == |ms| == |ns| == |ys|;
    forall i | 0 <= i < |xs| ensures SameEvent(own, xs[i], table, ys[i]) {
      assert ms[i] == MapEvent(Denoter(own), xs[i]) && ns[i] == MapEvent(Denoter(table), ys[i]);
      FlatRuns(EventRefs(), table, ys, i);
      EventIsSame(own, xs[i], table, ys[i]);
    }
  }

  lemma OrdinalsSame(own: seq<Bytes>, xs: seq<nat>, table: seq<Bytes>, ys: seq<nat>)
    requires NoneEmpty(table) && InRange(table, ys) && Map(Denoter(own), xs) == Map(Denoter(table), ys)
    ensures |xs| == |ys| && forall i :: 0 <= i < |xs| ==> Same(own, xs[i], table, ys[i])
  {
    hide NoneEmpty;
    var ms, ns: seq<Bytes> := Map(Denoter(own), xs), Map(Denoter(table), ys);
    assert |xs| == |ms| == |ns| == |ys|;
    forall i | 0 <= i < |xs| ensures Same(own, xs[i], table, ys[i]) {
      assert ms[i] == At(own, xs[i]) && ns[i] == At(table, ys[i]);
      EqualStringsSame(own, xs[i], table, ys[i]);
    }
  }

  /** States that denote the same are the same under their tables. */
  lemma DenotedAlike(own: seq<Bytes>, s: State<nat>, table: seq<Bytes>, t: State<nat>)
    requires NoneEmpty(table) && InRange(table, Refs(t)) && Denote(own, s) == Denote(table, t)
    ensures SameState(own, s, table, t)
  {
    RangeParts(table, t);
    hide NoneEmpty, Refs, Flat, SameEntity, SameRelation, SameLink, SameEvent, Same, Map, InRange;
    OrdinalsSame(own, s.references, table, t.references);
    EntitiesSame(own, s.entities, table, t.entities);
    RelationsSame(own, s.relationships, table, t.relationships);
    LinksSame(own, s.links, table, t.links);
    EventsSame(own, s.events, table, t.events);
  }

  lemma ValidTable(sha256: Bytes -> Bytes, e: EncodedModelInput)
    requires EncodedOk(sha256, e)
    ensures NoneEmpty(e.table) && InRange(e.table, Refs(e.state)) && StateOk(e.table, e.perspectivePlayer, e.state)
  {
    hide StateOk, Refs, RoutingOk, Utf8Octets;
    assert forall i :: 0 <= i < |e.table| ==> LocatorText(e.table[i]);
    ValidIsInRange(e.table, e.perspectivePlayer, e.state);
  }

  /** The state input of a valid input is that input's header and state. */
  lemma StateInputMeans(sha256: Bytes -> Bytes, e: EncodedModelInput)
    requires EncodedOk(sha256, e)
    ensures StateMeans(StateInputOf(e), e)
  {
    ValidTable(sha256, e);
    hide EncodedOk, Denote, SameState, StateInputOf, NoneEmpty, StateOk, Refs, InRange, IsTable;
    OwnState(e);
    OwnTable(e);
  }

  lemma OwnState(e: EncodedModelInput)
    requires NoneEmpty(e.table) && InRange(e.table, Refs(e.state))
    ensures SameState(StateInputOf(e).table, StateInputOf(e).state, e.table, e.state)
  {
    hide Refs, NoneEmpty, InRange, SameState, Denote;
    CompactDenotes(Denote(e.table, e.state));
    hide Compact;
    DenotedAlike(StateInputOf(e).table, StateInputOf(e).state, e.table, e.state);
  }

  lemma OwnTable(e: EncodedModelInput)
    ensures var own := StateInputOf(e).table;
      IsTable(own) && forall x :: x in own <==> exists k :: k in Refs(e.state) && At(e.table, k) == x
  {
    hide Refs, TableOf, IsTable, MapState;
    var strings := Refs(Denote(e.table, e.state));
    TableHolds(strings);
    RefsMapped(Denoter(e.table), e.state);
    forall x ensures x in StateInputOf(e).table <==> exists k :: k in Refs(e.state) && At(e.table, k) == x {
      Images(e.table, Refs(e.state), x);
    }
  }

  lemma Images(table: seq<Bytes>, ordinals: seq<nat>, x: Bytes)
    ensures x in Map(Denoter(table), ordinals) <==> exists k :: k in ordinals && At(table, k) == x
  {
    var strings: seq<Bytes> := Map(Denoter(table), ordinals);
    if x in strings {
      var i :| 0 <= i < |strings| && strings[i] == x;
      assert ordinals[i] in ordinals && At(table, ordinals[i]) == x;
    }
    if k :| k in ordinals && At(table, k) == x {
      InImage(Denoter(table), ordinals, k);
    }
  }

  // ---------------------------------------------------------------- candidates

  /** A candidate's reference: present when the encoded one is, of its kind and entity, and
      denoting its string, in the state's table exactly when that has it. */
  predicate RefMeans(own: seq<Bytes>, only: seq<Bytes>, n: Option<CandidateRef>, table: seq<Bytes>,
                     r: Option<EncodedCardRef>)
  {
    && n.Some? == r.Some?
    && (n.Some? ==>
          var home := if n.value.space == StateTable then own else only;
          && n.value.kindCode == r.value.kindCode && n.value.entity == r.value.reference.entity
          && Same(home, n.value.ordinal, table, r.value.reference.locator)
          && (n.value.space == StateTable <==> table[r.value.reference.locator] in own))
  }

  /** What the scorer is given for a candidate gives the candidate back. */
  predicate CandidateMeans(own: seq<Bytes>, only: seq<Bytes>, n: CandidateInput, table: seq<Bytes>,
                           c: EncodedCandidate)
  {
    && n.actionKindCode == c.actionKindCode && n.choice == c.choice && n.phase == c.phase && n.position == c.position
    && n.sourceIndex == c.sourceIndex && n.amount == c.amount && n.continuationCode == c.continuationCode
    && n.submitsResponse == c.submitsResponse
    && RefMeans(own, only, n.source, table, c.source) && RefMeans(own, only, n.target, table, c.target)
  }

  lemma PlacedRefMeans(e: EncodedModelInput, i: nat, r: EncodedCardRef)
    requires StateOk(e.table, e.perspectivePlayer, e.state) && NoneEmpty(e.table) && i < |e.candidates|
    requires CardRefOk(|e.table|, e.state.entities, r)
    requires e.candidates[i].source == Some(r) || e.candidates[i].target == Some(r)
    ensures var own, only := StateInputOf(e).table, OnlyTableOf(e);
      RefMeans(own, only, Some(CandidateRefOf(e.table, own, only, r)), e.table, Some(r))
  {
    hide StateOk, StateInputOf, CandidateOnlyTable, IndexIn;
    CandidateRefKeepsString(e, e.perspectivePlayer, i, r);
    CandidateIsPlaced(e, e.perspectivePlayer, i, r);
  }

  lemma CandidateInputMeans(sha256: Bytes -> Bytes, e: EncodedModelInput, i: nat)
    requires EncodedOk(sha256, e) && i < |e.candidates|
    ensures var own, only := StateInputOf(e).table, OnlyTableOf(e);
      CandidateMeans(own, only, CandidateInputOf(e.table, own, only, e.candidates[i]), e.table, e.candidates[i])
  {
    ValidTable(sha256, e);
    ValidHasCandidates(sha256, e);
    hide EncodedOk, StateOk, StateInputOf, OnlyTableOf, CandidateInputOf, CandidateMeans, NoneEmpty, CandidateOk, Refs;
    PlacedCandidateMeans(e, i);
  }

  lemma PlacedCandidateMeans(e: EncodedModelInput, i: nat)
    requires StateOk(e.table, e.perspectivePlayer, e.state) && NoneEmpty(e.table) && i < |e.candidates|
    requires CandidateOk(|e.table|, e.state.entities, e.candidates[i])
    ensures var own, only := StateInputOf(e).table, OnlyTableOf(e);
      CandidateMeans(own, only, CandidateInputOf(e.table, own, only, e.candidates[i]), e.table, e.candidates[i])
  {
    hide StateOk, StateInputOf, OnlyTableOf, CandidateRefOf, RefMeans, NoneEmpty, CardRefOk, EncodedChoiceOk;
    var c := e.candidates[i];
    if c.source.Some? {
      PlacedRefMeans(e, i, c.source.value);
    }
    if c.target.Some? {
      PlacedRefMeans(e, i, c.target.value);
    }
    NoReferenceMeans(StateInputOf(e).table, OnlyTableOf(e), e.table);
  }

  lemma NoReferenceMeans(own: seq<Bytes>, only: seq<Bytes>, table: seq<Bytes>)
    ensures RefMeans(own, only, None, table, None)
  {
  }

  /** Candidates given to the scorer alike, under the same tables, are the same public action. */
  lemma AlikeIsSameAction(own: seq<Bytes>, only: seq<Bytes>, n: CandidateInput, e: EncodedModelInput,
                          c: EncodedCandidate, f: EncodedModelInput, d: EncodedCandidate)
    requires CandidateOk(|e.table|, e.state.entities, c) && CandidateOk(|f.table|, f.state.entities, d)
    requires CandidateMeans(own, only, n, e.table, c) && CandidateMeans(own, only, n, f.table, d)
    ensures ActionOf(e.table, e.state.entities, c) == ActionOf(f.table, f.state.entities, d)
    ensures c.submitsResponse == d.submitsResponse
  {
    hide ActionKindBytes, ContinuationBytes, RefOk;
  }

  // ---------------------------------------------------------------- main result

  /** An inference scores, for one state input that is the encoded input's state, for every
      candidate one candidate input that is that candidate, and selects the best. */
  ghost predicate InferenceMeans(scorer: Scorer, e: EncodedModelInput, r: Inference) {
    && |r.scores| == |e.candidates| == |e.routingKeys| && r.best < |r.scores| && AllFinite(r.scores)
    && r.key == e.routingKeys[r.best] && IsBest(Map(Worth, r.scores), e.routingKeys, r.best)
    && exists s: StateInput, only: seq<Bytes>, state: Representation :: ScoredUnder(scorer, s, only, state, e, r)
  }

  ghost predicate ScoredUnder(scorer: Scorer, s: StateInput, only: seq<Bytes>, state: Representation,
                              e: EncodedModelInput, r: Inference)
    requires |r.scores| == |e.candidates|
  {
    && StateMeans(s, e) && scorer.encodeState(s) == Some(state)
    && forall i :: 0 <= i < |r.scores| ==> ScoredAs(scorer, state, s, only, e, e.candidates[i], r.scores[i])
  }

  ghost predicate ScoredAs(scorer: Scorer, state: Representation, s: StateInput, only: seq<Bytes>, e: EncodedModelInput,
                           c: EncodedCandidate, score: Score)
  {
    exists n: CandidateInput, candidate: Representation ::
      && CandidateMeans(s.table, only, n, e.table, c)
      && scorer.encodeCandidate(state, n) == Some(candidate) && scorer.score(state, candidate) == Some(score)
  }

  lemma InferenceIsMeant(sha256: Bytes -> Bytes, scorer: Scorer, e: EncodedModelInput, r: Inference)
    requires EncodedOk(sha256, e) && |e.candidates| == |e.routingKeys| && IsInference(scorer, e, r)
    ensures InferenceMeans(scorer, e, r)
  {
    StateInputMeans(sha256, e);
    hide EncodedOk, StateInputOf, OnlyTableOf, StateMeans, ScoredAs, ScoreOf, IsBest;
    var s := StateInputOf(e);
    var state: Representation :| scorer.encodeState(s) == Some(state)
      && forall i :: 0 <= i < |e.candidates| ==> ScoreOf(scorer, state, e, e.candidates[i]) == Some(r.scores[i]);
    forall i | 0 <= i < |r.scores|
      ensures ScoredAs(scorer, state, s, OnlyTableOf(e), e, e.candidates[i], r.scores[i])
    {
      ScoreIsMeant(sha256, scorer, state, e, i, r.scores[i]);
    }
    assert ScoredUnder(scorer, s, OnlyTableOf(e), state, e, r);
  }

  lemma ScoreIsMeant(sha256: Bytes -> Bytes, scorer: Scorer, state: Representation, e: EncodedModelInput, i: nat,
                     score: Score)
    requires EncodedOk(sha256, e) && i < |e.candidates|
    requires ScoreOf(scorer, state, e, e.candidates[i]) == Some(score)
    ensures ScoredAs(scorer, state, StateInputOf(e), OnlyTableOf(e), e, e.candidates[i], score)
  {
    CandidateInputMeans(sha256, e, i);
    hide EncodedOk, StateInputOf, OnlyTableOf, CandidateMeans, CandidateInputOf;
    var n := CandidateInputOf(e.table, StateInputOf(e).table, OnlyTableOf(e), e.candidates[i]);
    assert scorer.encodeCandidate(state, n).Some?;
  }
}
