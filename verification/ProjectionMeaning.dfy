/** What a logical input says of the observation and the candidates it was projected from,
    field by field, and that nothing of them is lost in it. */
module ProjectionMeaning {
  import opened Bytes
  import opened Text
  import opened Sorting
  import opened PublicAction
  import opened PublicActionDomain
  import opened SafeState
  import opened SafeStateNormal
  import opened SafeStateCodec
  import opened SafeStateContent
  import opened PublicObservation
  import opened PublicObservationCodec
  import opened LocatorTables
  import opened EncodedState
  import opened EncodedInput
  import opened LogicalInput
  import opened ModelInputEncoder
  import opened LogicalProjection
  import opened LogicalProjectionValidity

  // ---------------------------------------------------------------- the state

  /** An entity ordinal is that of an entity with this locator, and is there when one is. */
  ghost predicate NamesEntity(es: seq<ObservedCard>, entity: Option<nat>, x: Bytes) {
    && (entity.Some? ==> entity.value < |es| && es[entity.value].locator == x)
    && (entity.None? ==> forall k :: 0 <= k < |es| ==> es[k].locator != x)
  }

  ghost predicate RefShows(es: seq<ObservedCard>, r: Ref<Located>, x: Bytes) {
    r.locator.value == x && NamesEntity(es, r.entity, x)
  }

  ghost predicate RelationshipShows(es: seq<ObservedCard>, r: LogicalRelationship, plain: Relationship) {
    r.kind == plain.kind && RefShows(es, r.source, plain.source) && RefShows(es, r.target, plain.target)
  }

  ghost predicate LinkShows(es: seq<ObservedCard>, l: LogicalLink, plain: ChainLink) {
    && l.index == plain.index && l.activatingPlayer == plain.activatingPlayer
    && l.activationZone == plain.activationZone && l.effectDescription == plain.effectDescription
    && l.source.Some? == plain.source.Some? && (l.source.Some? ==> RefShows(es, l.source.value, plain.source.value))
    && |l.targets| == |plain.targets|
    && (forall i :: 0 <= i < |l.targets| ==> RefShows(es, l.targets[i], plain.targets[i]))
  }

  predicate EventShows(e: LogicalEvent, plain: VisibleEvent) {
    && e.eventIndex == plain.eventIndex && e.kind == plain.kind && e.player == plain.player
    && e.entity.Some? == plain.entity.Some? && (e.entity.Some? ==> e.entity.value.value == plain.entity.value)
    && e.publicPasscode == plain.publicPasscode && e.fromZone == plain.fromZone && e.toZone == plain.toZone
    && e.count == plain.count && e.amount == plain.amount && e.counterType == plain.counterType
    && e.phase == plain.phase && e.winner == plain.winner && e.winReason == plain.winReason
    && e.effectDescription == plain.effectDescription && |e.targets| == |plain.targets|
    && (forall i :: 0 <= i < |e.targets| ==> e.targets[i].value == plain.targets[i])
  }

  /** A logical state shows a public one: every field, and for every reference to the field the
      entity it names. */
  ghost predicate StateShows(s: LogicalState, v: View) {
    && s.globals == v.globals && s.zones == v.zones && s.context == v.matchContext
    && |s.entities| == |v.entities|
    && (forall i :: 0 <= i < |s.entities| ==> s.entities[i].card == v.entities[i] && s.entities[i].entityOrdinal == i)
    && |s.relationships| == |v.relationships|
    && (forall i :: 0 <= i < |s.relationships| ==>
          RelationshipShows(v.entities, s.relationships[i], v.relationships[i]))
    && s.chainLength == v.chain.length && |s.links| == |v.chain.links|
    && (forall i :: 0 <= i < |s.links| ==> LinkShows(v.entities, s.links[i], v.chain.links[i]))
    && |s.events| == |v.visibleEvents|
    && (forall i :: 0 <= i < |s.events| ==> EventShows(s.events[i], v.visibleEvents[i]))
  }

  lemma {:induction false} NoEntityBefore(es: seq<ObservedCard>, x: Bytes, from: nat)
    requires FirstEntity(es, x, from).None?
    ensures forall k :: from <= k < |es| ==> es[k].locator != x
    decreases |es| - from
  {
    if from < |es| {
      NoEntityBefore(es, x, from + 1);
    }
  }

  lemma CurrentShows(table: seq<Bytes>, es: seq<ObservedCard>, x: Bytes)
    ensures RefShows(es, Current(table, es)(x), x)
  {
    EntityFound(es, x, 0);
    if FirstEntity(es, x, 0).None? {
      NoEntityBefore(es, x, 0);
    }
  }

  lemma CopyShows(table: seq<Bytes>, v: View)
    ensures StateShows(CopyState(table, v), v)
  {
    hide IndexIn, RefShows, Current;
    var es := v.entities;
    forall x: Bytes ensures RefShows(es, Current(table, es)(x), x) {
      CurrentShows(table, es, x);
    }
    forall i | 0 <= i < |v.chain.links| ensures LinkShows(es, CopyLink(table, es)(v.chain.links[i]), v.chain.links[i]) {
    }
    forall i | 0 <= i < |v.visibleEvents| ensures EventShows(CopyEvent(table)(v.visibleEvents[i]), v.visibleEvents[i]) {
    }
  }

  /** A logical state shows at most one public state. */
  lemma OneStateShown(s: LogicalState, v: View, w: View)
    requires StateShows(s, v) && StateShows(s, w)
    ensures v == w
  {
    assert v.entities == w.entities;
    assert v.relationships == w.relationships;
    forall i | 0 <= i < |s.links| ensures v.chain.links[i] == w.chain.links[i] {
      var l, m := v.chain.links[i], w.chain.links[i];
      assert LinkShows(v.entities, s.links[i], l) && LinkShows(w.entities, s.links[i], m);
      assert l.targets == m.targets;
    }
    forall i | 0 <= i < |s.events| ensures v.visibleEvents[i] == w.visibleEvents[i] {
      var e, f := v.visibleEvents[i], w.visibleEvents[i];
      assert EventShows(s.events[i], e) && EventShows(s.events[i], f);
      assert e.targets == f.targets;
    }
    assert v.chain.links == w.chain.links && v.visibleEvents == w.visibleEvents;
  }

  // ---------------------------------------------------------------- candidates and header

  ghost predicate CardRefShows(es: seq<ObservedCard>, r: Option<LogicalCardRef>, plain: Option<CardReference>) {
    && r.Some? == plain.Some?
    && (r.Some? ==> r.value.kind == plain.value.kind && RefShows(es, r.value.reference, plain.value.locator))
  }

  ghost predicate CandidateShows(es: seq<ObservedCard>, l: LogicalCandidate, c: PublicCandidate) {
    && l.actionKind == c.actionKind && l.choice == c.choice && CardRefShows(es, l.source, c.source)
    && CardRefShows(es, l.target, c.target) && l.phase == c.phase && l.position == c.position
    && l.sourceIndex == c.sourceIndex && l.amount == c.amount && l.continuation == c.continuation
    && l.submitsResponse == c.submitsResponse
  }

  lemma CandidateCopyShows(table: seq<Bytes>, es: seq<ObservedCard>, c: PublicCandidate)
    ensures CandidateShows(es, CopyCandidate(table, es)(c), c)
  {
    hide IndexIn, RefShows, Current;
    if c.source.Some? {
      CurrentShows(table, es, c.source.value.locator);
    }
    if c.target.Some? {
      CurrentShows(table, es, c.target.value.locator);
    }
  }

  /** Where a locator may be mentioned. */
  ghost predicate Mentions(o: Observation, v: View, cs: seq<PublicCandidate>, x: Bytes) {
    || x in o.references
    || (exists c :: c in v.entities && c.locator == x)
    || (exists r :: r in v.relationships && (r.source == x || r.target == x))
    || (exists l :: l in v.chain.links && (l.source == Some(x) || x in l.targets))
    || (exists e :: e in v.visibleEvents && (e.entity == Some(x) || x in e.targets))
    || (exists c :: c in cs && ((c.source.Some? && c.source.value.locator == x)
                                || (c.target.Some? && c.target.value.locator == x)))
  }

  lemma FlatMember<A, R>(f: A -> seq<R>, xs: seq<A>, y: R)
    ensures y in Flat(f, xs) <==> exists x :: x in xs && y in f(x)
  {
    hide Flat;
    if y in Flat(f, xs) {
      FlatFrom(f, xs, y);
      var i :| 0 <= i < |xs| && y in f(xs[i]);
      assert xs[i] in xs;
    }
    if x :| x in xs && y in f(x) {
      var i :| 0 <= i < |xs| && xs[i] == x;
      FlatHas(f, xs, i, y);
    }
  }

  lemma MentionedIsMentions(o: Observation, v: View, cs: seq<PublicCandidate>, x: Bytes)
    ensures x in Mentioned(o.references, v, cs) <==> Mentions(o, v, cs, x)
  {
    FlatMember(CardLocator(), v.entities, x);
    FlatMember(RelationshipLocators(), v.relationships, x);
    FlatMember(LinkLocators(), v.chain.links, x);
    FlatMember(EventLocators(), v.visibleEvents, x);
    FlatMember(CandidateLocators(), cs, x);
    hide Flat;
  }

  /** What a logical input says of an observation, of the state in it, and of candidates. */
  ghost predicate Shows(sha256: Bytes -> Bytes, l: LogicalModelInput, o: Observation, v: View, cs: seq<PublicCandidate>)
  {
    && ContainerBytes(o).Bytes? && l.observationDigest == sha256(ContainerBytes(o).bytes)
    && l.perspectivePlayer == o.perspectivePlayer && l.decisionIndex == o.decisionIndex
    && l.contextKind == o.kind && l.contextPlayer == o.player
    && l.domainDigest == (if o.kind.Some? then Some(sha256(PutDomain(V1, o.kind.value, l.routingKeys))) else None)
    && multiset(Map(ValueOf(), l.references)) == multiset(o.references)
    && StateShows(l.state, v) && |l.candidates| == |l.routingKeys| == |cs|
    && (forall i :: 0 <= i < |cs| ==>
          l.routingKeys[i] == cs[i].key && CandidateShows(v.entities, l.candidates[i], cs[i]))
  }

  /** The table of a logical input: every locator mentioned, once, in byte order, under its
      place. */
  ghost predicate TableShows(l: LogicalModelInput, o: Observation, v: View, cs: seq<PublicCandidate>) {
    && TableOk(l.table)
    && (forall x :: (exists i :: 0 <= i < |l.table| && l.table[i].value == x) <==> Mentions(o, v, cs, x))
    && ReferencesOk(l.table, l.references) && LogicalStateOk(l.table, l.perspectivePlayer, l.state)
  }

  // ---------------------------------------------------------------- main results

  /** A projection shows the observation and the candidates it was made from. */
  lemma ProjectionShows(sha256: Bytes -> Bytes, o: Observation, cs: seq<PublicCandidate>)
    requires Project(sha256, o, cs).Projected?
    ensures Decode(o.safeState).Some?
      && Shows(sha256, Project(sha256, o, cs).value, o, Decode(o.safeState).value, cs)
  {
    hide Decode, FirstFault, LocatorText, TableFor, DomainOk, PutDomain, CopyState, StateShows, CopyCandidate,
      CandidateShows, LocatedTable, Sort, Distinct, AllOk, EncodeObservation, InputValid, InputFits;
    var v := Decode(o.safeState).value;
    var table := TableFor(o, v, cs);
    CopyShows(table, v);
    forall i | 0 <= i < |cs| ensures CandidateShows(v.entities, CopyCandidate(table, v.entities)(cs[i]), cs[i]) {
      CandidateCopyShows(table, v.entities, cs[i]);
    }
    LocatorOrders();
    SortSorts(LexLe, o.references);
    MapUndone(Locate(table), ValueOf(), Sort(LexLe, o.references));
  }

  /** Its ordinals are places in the table of everything mentioned. */
  lemma ProjectionPlaces(sha256: Bytes -> Bytes, o: Observation, cs: seq<PublicCandidate>)
    requires Project(sha256, o, cs).Projected?
    ensures TableShows(Project(sha256, o, cs).value, o, Decode(o.safeState).value, cs)
  {
    hide Decode, FirstFault, LocatorText, TableFor, CopyState, CopyCandidate, Distinct, AllOk, EncodeObservation, Sort,
      LogicalStateOk, ReferencesOk, TableOk, PutView, Mentions, LocatedTable, InputValid, InputFits;
    var v := Decode(o.safeState).value;
    DecodeIffCanonical(o.safeState, v);
    ContainerIsValid(o);
    ReferencesFit(o);
    hide ViewOk;
    CopiesArePlaced(o, v, cs);
    EntriesAreMentioned(o, v, cs);
  }

  lemma CopiesArePlaced(o: Observation, v: View, cs: seq<PublicCandidate>)
    requires ViewOk(true, v) && FirstFault(cs).None? && AllOk(LocatorText, o.references)
    requires Distinct(o.references) && |o.references| <= U32_MAX && |TableFor(o, v, cs)| <= U32_MAX
    ensures var table := TableFor(o, v, cs);
      && TableOk(LocatedTable(table))
      && ReferencesOk(LocatedTable(table), Map(Locate(table), Sort(LexLe, o.references)))
      && LogicalStateOk(LocatedTable(table), v.matchContext.perspectivePlayer, CopyState(table, v))
  {
    hide LocatorText, TableFor, CopyState, Distinct, AllOk, Sort, LogicalStateOk, ReferencesOk, TableOk, LocatedTable,
      ViewOk, FirstFault, IsTable, Covers, Mentioned;
    AllCovered(o, v, cs);
    var table := TableFor(o, v, cs);
    TableLocated(table);
    ReferencesCopied(table, o.references);
    StateCopied(table, v);
  }

  lemma EntriesAreMentioned(o: Observation, v: View, cs: seq<PublicCandidate>)
    ensures var table := LocatedTable(TableFor(o, v, cs));
      forall x :: (exists i :: 0 <= i < |table| && table[i].value == x) <==> Mentions(o, v, cs, x)
  {
    hide TableOf, Mentions, Mentioned;
    var table := TableFor(o, v, cs);
    TableHolds(Mentioned(o.references, v, cs));
    forall x ensures (exists i :: 0 <= i < |table| && LocatedTable(table)[i].value == x) <==> Mentions(o, v, cs, x) {
      MentionedIsMentions(o, v, cs, x);
      if x in table {
        assert LocatedTable(table)[IndexIn(table, x)].value == x;
      }
    }
  }

  lemma ReferencesFit(o: Observation)
    requires InputValid(o) && InputFits(o)
    ensures Distinct(o.references) && |o.references| <= U32_MAX
  {
  }

  /** Nothing is lost: two projections are equal exactly when their observations agree up to
      the order of their references and their candidates agree one by one. */
  lemma ProjectionIsInjective(sha256: Bytes -> Bytes, o: Observation, cs: seq<PublicCandidate>, p: Observation,
                              ds: seq<PublicCandidate>)
    requires Project(sha256, o, cs).Projected? && Project(sha256, p, ds).Projected?
    ensures Project(sha256, o, cs) == Project(sha256, p, ds) <==> SameUpToReferenceOrder(o, p) && cs == ds
  {
    if Project(sha256, o, cs) == Project(sha256, p, ds) {
      ProjectionShows(sha256, o, cs);
      ProjectionShows(sha256, p, ds);
      OneInputShown(sha256, Project(sha256, o, cs).value, o, cs, p, ds);
    }
    if SameUpToReferenceOrder(o, p) && cs == ds {
      SameProjection(sha256, o, p, cs);
    }
  }

  predicate SameUpToReferenceOrder(o: Observation, p: Observation) {
    o.(references := []) == p.(references := []) && multiset(o.references) == multiset(p.references)
  }

  lemma OneInputShown(sha256: Bytes -> Bytes, l: LogicalModelInput, o: Observation, cs: seq<PublicCandidate>,
                      p: Observation, ds: seq<PublicCandidate>)
    requires Decode(o.safeState).Some? && Shows(sha256, l, o, Decode(o.safeState).value, cs)
    requires Decode(p.safeState).Some? && Shows(sha256, l, p, Decode(p.safeState).value, ds)
    ensures SameUpToReferenceOrder(o, p) && cs == ds
  {
    hide Decode, StateShows, ContainerBytes, NamesEntity, SafeStateCodec.Encode;
    var v := Decode(o.safeState).value;
    OneStateShown(l.state, v, Decode(p.safeState).value);
    ReencodeIsIdentity(o.safeState);
    ReencodeIsIdentity(p.safeState);
    forall i | 0 <= i < |cs| ensures cs[i] == ds[i] {
      assert CandidateShows(v.entities, l.candidates[i], cs[i]) && CandidateShows(v.entities, l.candidates[i], ds[i]);
    }
  }

  lemma SameProjection(sha256: Bytes -> Bytes, o: Observation, p: Observation, cs: seq<PublicCandidate>)
    requires Project(sha256, o, cs).Projected? && Project(sha256, p, cs).Projected?
    requires SameUpToReferenceOrder(o, p)
    ensures Project(sha256, o, cs) == Project(sha256, p, cs)
  {
    hide Decode, FirstFault, LocatorText, TableOf, DomainOk, PutDomain, CopyState, CopyCandidate, Distinct,
      AllOk, ViewLocators, Flat, Sort, InputValid, InputFits, LocatedTable;
    TargetsAgree(o.references, p.references);
    assert SortReferences(o) == SortReferences(p);
    var v := Decode(o.safeState).value;
    SameElements(o.references, p.references);
    SameStringsSameTable(Mentioned(o.references, v, cs), Mentioned(p.references, v, cs));
  }
}
