/** The projection as it runs: strings pushed, sorted and searched, one loop a collection. */
module LogicalProjectionRun {
  import opened Bytes
  import opened Text
  import opened Sorting
  import opened PublicAction
  import opened PublicActionKeys
  import opened PublicActionDomain
  import opened SafeState
  import opened SafeStateCodec
  import opened SafeStateNormal
  import opened SafeStateBoundary
  import opened SafeStateEncoder
  import opened PublicObservation
  import opened PublicObservationCodec
  import opened LocatorTables
  import opened EncodedState
  import opened EncodedInput
  import opened LogicalInput
  import opened ModelInputEncoder
  import opened LogicalProjection
  import opened LogicalProjectionValidity

  // ---------------------------------------------------------------- the locator table

  method AddTexts(xs: seq<Bytes>, values: seq<Bytes>) returns (r: Option<seq<Bytes>>)
    ensures r == if AllOk(LocatorText, xs) then Some(values + xs) else None
  {
    hide LocatorText;
    var pushed := values;
    for i := 0 to |xs|
      invariant pushed == values + xs[..i] && forall j :: 0 <= j < i ==> LocatorText(xs[j])
    {
      if !LocatorText(xs[i]) {
        return None;
      }
      pushed := pushed + [xs[i]];
    }
    assert xs[..|xs|] == xs;
    return Some(pushed);
  }

  /** Pushes the locators of some records, unless one is not text. */
  method AddLocators<A>(locators: A -> seq<Bytes>, xs: seq<A>, values: seq<Bytes>) returns (r: Option<seq<Bytes>>)
    ensures r == if AllOk(LocatorText, Flat(locators, xs)) then Some(values + Flat(locators, xs)) else None
  {
    hide LocatorText, AllOk, Flat;
    var pushed := values;
    NoLocators(locators, xs);
    for i := 0 to |xs|
      invariant AllOk(LocatorText, Flat(locators, xs[..i])) && pushed == values + Flat(locators, xs[..i])
    {
      FlatGrows(locators, xs, i);
      JoinedOk(Flat(locators, xs[..i]), locators(xs[i]));
      var more := AddTexts(locators(xs[i]), pushed);
      if more.None? {
        SomeRecordFails(locators, xs, i);
        return None;
      }
      pushed := more.value;
    }
    assert xs[..|xs|] == xs;
    return Some(pushed);
  }

  lemma NoLocators<A>(locators: A -> seq<Bytes>, xs: seq<A>)
    ensures Flat(locators, xs[..0]) == [] && AllOk(LocatorText, Flat(locators, xs[..0]))
  {
  }

  lemma SomeRecordFails<A>(locators: A -> seq<Bytes>, xs: seq<A>, i: nat)
    requires i < |xs| && !AllOk(LocatorText, locators(xs[i]))
    ensures !AllOk(LocatorText, Flat(locators, xs))
  {
    hide LocatorText, Flat;
    var j :| 0 <= j < |locators(xs[i])| && !LocatorText(locators(xs[i])[j]);
    FlatHas(locators, xs, i, locators(xs[i])[j]);
    NotAll(Flat(locators, xs), locators(xs[i])[j]);
  }

  lemma NotAll(xs: seq<Bytes>, x: Bytes)
    requires x in xs && !LocatorText(x)
    ensures !AllOk(LocatorText, xs)
  {
    hide LocatorText;
    var i :| 0 <= i < |xs| && xs[i] == x;
  }

  lemma JoinedOk(a: seq<Bytes>, b: seq<Bytes>)
    ensures AllOk(LocatorText, a + b) <==> AllOk(LocatorText, a) && AllOk(LocatorText, b)
  {
    hide LocatorText;
    if AllOk(LocatorText, a + b) {
      forall i | 0 <= i < |a| ensures LocatorText(a[i]) {
        assert (a + b)[i] == a[i];
      }
      forall i | 0 <= i < |b| ensures LocatorText(b[i]) {
        assert (a + b)[|a| + i] == b[i];
      }
    }
  }

  function One(): Bytes -> seq<Bytes> {
    (x: Bytes) => [x]
  }

  lemma {:induction false} FlatOfOnes(xs: seq<Bytes>)
    ensures Flat(One(), xs) == xs
  {
    if xs != [] {
      FlatOfOnes(xs[..|xs| - 1]);
    }
  }

  /** The strings of the table before sorting, unless one is not text. */
  method CollectMentioned(references: seq<Bytes>, v: View, cs: seq<PublicCandidate>) returns (r: Option<seq<Bytes>>)
    ensures r == if AllOk(LocatorText, Mentioned(references, v, cs)) then Some(Mentioned(references, v, cs)) else None
  {
    hide LocatorText, Flat, AllOk;
    FlatOfOnes(references);
    var a, b, c, d, e, f := references, Flat(CardLocator(), v.entities), Flat(RelationshipLocators(), v.relationships),
      Flat(LinkLocators(), v.chain.links), Flat(EventLocators(), v.visibleEvents), Flat(CandidateLocators(), cs);
    JoinedOk(a + (b + c + d + e), f);
    JoinedOk(a, b + c + d + e);
    JoinedOk(b + c + d, e);
    JoinedOk(b + c, d);
    JoinedOk(b, c);
    var values :- AddLocators(One(), references, []);
    values :- AddLocators(CardLocator(), v.entities, values);
    values :- AddLocators(RelationshipLocators(), v.relationships, values);
    values :- AddLocators(LinkLocators(), v.chain.links, values);
    values :- AddLocators(EventLocators(), v.visibleEvents, values);
    values :- AddLocators(CandidateLocators(), cs, values);
    assert values == Mentioned(references, v, cs);
    return Some(values);
  }

  // ---------------------------------------------------------------- references

  /** The entity with a locator; none of two entities may have it. */
  method CurrentEntityOrdinal(es: seq<ObservedCard>, value: Bytes) returns (r: Option<Option<nat>>)
    ensures UniqueLocators(es) ==> r == Some(EntityNamed(es, value))
    ensures r.None? <==> exists i, j :: 0 <= i < j < |es| && es[i].locator == value == es[j].locator
  {
    var result: Option<nat> := None;
    for index := 0 to |es|
      invariant result.Some? ==> result.value < index && es[result.value].locator == value
      invariant forall i :: 0 <= i < index && es[i].locator == value ==> result == Some(i)
    {
      if es[index].locator == value {
        if result.Some? {
          return None;
        }
        result := Some(index);
      }
    }
    FirstIsOnly(es, value, 0, result);
    return Some(result);
  }

  lemma {:induction false} FirstIsOnly(es: seq<ObservedCard>, value: Bytes, from: nat, result: Option<nat>)
    requires result.Some? ==> from <= result.value < |es| && es[result.value].locator == value
    requires forall i :: from <= i < |es| && es[i].locator == value ==> result == Some(i)
    ensures FirstEntity(es, value, from) == result
    decreases |es| - from
  {
    if from < |es| && es[from].locator != value {
      FirstIsOnly(es, value, from + 1, result);
    }
  }

  method MakeLocated(table: seq<Bytes>, value: Bytes) returns (r: Located)
    requires IsTable(table) && value in table
    ensures r == Locate(table)(value)
  {
    hide IsTable, IndexIn;
    var ordinal := Ordinal(table, value);
    return Located(value, ordinal.value);
  }

  method MakeCurrent(table: seq<Bytes>, es: seq<ObservedCard>, value: Bytes) returns (r: Ref<Located>)
    requires IsTable(table) && value in table && UniqueLocators(es)
    ensures r == Current(table, es)(value)
  {
    hide IsTable, IndexIn, UniqueLocators, EntityNamed;
    var located := MakeLocated(table, value);
    var entity := CurrentEntityOrdinal(es, value);
    return Ref(located, entity.value);
  }

  predicate Inside(table: seq<Bytes>, values: seq<Bytes>) {
    forall i :: 0 <= i < |values| ==> values[i] in table
  }

  method MakeCurrents(table: seq<Bytes>, es: seq<ObservedCard>, values: seq<Bytes>) returns (r: seq<Ref<Located>>)
    requires IsTable(table) && Inside(table, values) && UniqueLocators(es)
    ensures r == Map(Current(table, es), values)
  {
    hide IsTable, UniqueLocators;
    r := [];
    for i := 0 to |values|
      invariant |r| == i && forall j :: 0 <= j < i ==> r[j] == Current(table, es)(values[j])
    {
      var ref := MakeCurrent(table, es, values[i]);
      r := r + [ref];
    }
  }

  method MakeLocateds(table: seq<Bytes>, values: seq<Bytes>) returns (r: seq<Located>)
    requires IsTable(table) && Inside(table, values)
    ensures r == Map(Locate(table), values)
  {
    hide IsTable;
    r := [];
    for i := 0 to |values|
      invariant |r| == i && forall j :: 0 <= j < i ==> r[j] == Locate(table)(values[j])
    {
      var located := MakeLocated(table, values[i]);
      r := r + [located];
    }
  }

  // ---------------------------------------------------------------- the copy

  predicate ViewInside(table: seq<Bytes>, v: View) {
    && (forall i :: 0 <= i < |v.entities| ==> v.entities[i].locator in table)
    && (forall i :: 0 <= i < |v.relationships| ==>
          v.relationships[i].source in table && v.relationships[i].target in table)
    && (forall i :: 0 <= i < |v.chain.links| ==>
          Inside(table, v.chain.links[i].targets) && (v.chain.links[i].source.Some? ==>
            v.chain.links[i].source.value in table))
    && (forall i :: 0 <= i < |v.visibleEvents| ==>
          Inside(table, v.visibleEvents[i].targets) && (v.visibleEvents[i].entity.Some? ==>
            v.visibleEvents[i].entity.value in table))
  }

  method CopyEntitiesInOrder(table: seq<Bytes>, v: View) returns (r: seq<LogicalEntity>)
    requires IsTable(table) && ViewInside(table, v)
    ensures r == CopyEntities(table, v.entities)
  {
    hide IsTable, IndexIn;
    r := [];
    for i := 0 to |v.entities|
      invariant |r| == i && forall j :: 0 <= j < i ==> r[j] == CopyEntities(table, v.entities)[j]
    {
      var ordinal := Ordinal(table, v.entities[i].locator);
      r := r + [LogicalEntity(v.entities[i], ordinal.value, i)];
    }
  }

  method CopyRelationships(table: seq<Bytes>, v: View) returns (r: seq<LogicalRelationship>)
    requires IsTable(table) && ViewInside(table, v) && UniqueLocators(v.entities)
    ensures r == Map(CopyRelationship(table, v.entities), v.relationships)
  {
    hide IsTable, UniqueLocators, Current, Inside;
    r := [];
    for i := 0 to |v.relationships|
      invariant |r| == i && forall j :: 0 <= j < i ==> r[j] == CopyRelationship(table, v.entities)(v.relationships[j])
    {
      var source := MakeCurrent(table, v.entities, v.relationships[i].source);
      var target := MakeCurrent(table, v.entities, v.relationships[i].target);
      r := r + [LogicalRelationship(v.relationships[i].kind, source, target)];
    }
  }

  method CopyLinks(table: seq<Bytes>, v: View) returns (r: seq<LogicalLink>)
    requires IsTable(table) && ViewInside(table, v) && UniqueLocators(v.entities)
    ensures r == Map(CopyLink(table, v.entities), v.chain.links)
  {
    hide IsTable, UniqueLocators, Current, Inside;
    r := [];
    for i := 0 to |v.chain.links|
      invariant |r| == i && forall j :: 0 <= j < i ==> r[j] == CopyLink(table, v.entities)(v.chain.links[j])
    {
      var l := v.chain.links[i];
      var source: Option<Ref<Located>> := None;
      if l.source.Some? {
        var current := MakeCurrent(table, v.entities, l.source.value);
        source := Some(current);
      }
      var targets := MakeCurrents(table, v.entities, l.targets);
      r := r + [LogicalLink(l.index, l.activatingPlayer, source, l.activationZone, l.effectDescription, targets)];
    }
  }

  method CopyEvents(table: seq<Bytes>, v: View) returns (r: seq<LogicalEvent>)
    requires IsTable(table) && ViewInside(table, v)
    ensures r == Map(CopyEvent(table), v.visibleEvents)
  {
    hide IsTable, Locate, Inside;
    r := [];
    for i := 0 to |v.visibleEvents|
      invariant |r| == i && forall j :: 0 <= j < i ==> r[j] == CopyEvent(table)(v.visibleEvents[j])
    {
      var e := v.visibleEvents[i];
      var entity: Option<Located> := None;
      if e.entity.Some? {
        var located := MakeLocated(table, e.entity.value);
        entity := Some(located);
      }
      var targets := MakeLocateds(table, e.targets);
      r := r + [LogicalEvent(e.eventIndex, e.kind, e.player, entity, e.publicPasscode, e.fromZone, e.toZone, e.count,
        e.amount, e.counterType, e.phase, e.winner, e.winReason, e.effectDescription, targets)];
    }
  }

  method CopyPublicState(table: seq<Bytes>, v: View) returns (r: LogicalState)
    requires IsTable(table) && ViewInside(table, v) && UniqueLocators(v.entities)
    ensures r == CopyState(table, v)
  {
    hide IsTable, ViewInside, UniqueLocators, Map, CopyEntities, CopyRelationship, CopyLink, CopyEvent;
    var entities := CopyEntitiesInOrder(table, v);
    var relationships := CopyRelationships(table, v);
    var links := CopyLinks(table, v);
    var events := CopyEvents(table, v);
    return LogicalState(v.globals, v.zones, entities, relationships, v.chain.length, links, events, v.matchContext);
  }

  predicate CandidatesInside(table: seq<Bytes>, cs: seq<PublicCandidate>) {
    forall i :: 0 <= i < |cs| ==>
      (cs[i].source.Some? ==> cs[i].source.value.locator in table)
        && (cs[i].target.Some? ==> cs[i].target.value.locator in table)
  }

  method CopyOptionalReference(table: seq<Bytes>, es: seq<ObservedCard>, x: Option<CardReference>)
    returns (r: Option<LogicalCardRef>)
    requires IsTable(table) && UniqueLocators(es) && (x.Some? ==> x.value.locator in table)
    ensures r == MapOption(CopyReference(table, es), x)
  {
    hide IsTable, UniqueLocators, Current;
    if x.None? {
      return None;
    }
    var current := MakeCurrent(table, es, x.value.locator);
    return Some(LogicalCardRef(x.value.kind, current));
  }

  method CopyCandidates(table: seq<Bytes>, es: seq<ObservedCard>, cs: seq<PublicCandidate>)
    returns (r: Option<seq<LogicalCandidate>>)
    requires IsTable(table) && UniqueLocators(es) && CandidatesInside(table, cs)
    ensures r == if Distinct(Map(KeyOfCandidate(), cs)) then Some(Map(CopyCandidate(table, es), cs)) else None
  {
    hide IsTable, UniqueLocators, CopyReference;
    var keys: seq<Bytes> := [];
    var candidates: seq<LogicalCandidate> := [];
    ghost var all: seq<Bytes> := Map(KeyOfCandidate(), cs);
    for i := 0 to |cs|
      invariant keys == all[..i] && Distinct(keys)
      invariant |candidates| == i && forall j :: 0 <= j < i ==> candidates[j] == CopyCandidate(table, es)(cs[j])
    {
      var c := cs[i];
      if c.key in keys {
        var j :| 0 <= j < |keys| && keys[j] == c.key;
        assert all[j] == all[i];
        return None;
      }
      keys := keys + [c.key];
      var source := CopyOptionalReference(table, es, c.source);
      var target := CopyOptionalReference(table, es, c.target);
      candidates := candidates + [LogicalCandidate(c.actionKind, c.choice, source, target, c.phase, c.position,
        c.sourceIndex,
        c.amount, c.continuation, c.submitsResponse)];
    }
    assert all[..|cs|] == all && candidates == Map(CopyCandidate(table, es), cs);
    return Some(candidates);
  }

  // ---------------------------------------------------------------- candidates

  method ValidateCandidate(c: PublicCandidate) returns (fault: Option<ProjectionError>)
    ensures fault == CandidateFault(c)
  {
    hide IsPublicKey, ActionOk, KeyOf, LocatorText, ContinuationCode, LogicalChoiceOk, ActionKindBytes;
    var public := IsPublicActionKey(V1, c.key);
    if !public {
      return Some(InvalidPublicActionKey);
    }
    if c.actionKind == Unsupported || !OptOk(LogicalChoiceOk, c.choice) {
      return Some(InvalidPublicCandidateDescriptor);
    }
    if !ReferenceText(c.source) || !ReferenceText(c.target) {
      return Some(InvalidPublicReference);
    }
    if ContinuationCode(c.continuation, 0).None? {
      return Some(InvalidPublicCandidateDescriptor);
    }
    var key := PublicActionKey(V1, DescribedAction(c));
    return if key == Some(c.key) then None else Some(InvalidPublicCandidateDescriptor);
  }

  lemma {:induction false} FaultStops(cs: seq<PublicCandidate>, i: nat)
    requires i < |cs| && FirstFault(cs[..i]).None? && CandidateFault(cs[i]).Some?
    ensures FirstFault(cs) == CandidateFault(cs[i])
  {
    hide CandidateFault;
    var init := cs[..|cs| - 1];
    if i < |cs| - 1 {
      assert init[..i] == cs[..i];
      FaultStops(init, i);
    }
  }

  method ValidateCandidates(cs: seq<PublicCandidate>) returns (fault: Option<ProjectionError>)
    ensures fault == FirstFault(cs)
  {
    hide CandidateFault;
    for i := 0 to |cs|
      invariant FirstFault(cs[..i]).None?
    {
      var found := ValidateCandidate(cs[i]);
      if found.Some? {
        FaultStops(cs, i);
        return found;
      }
      assert cs[..i + 1][..i] == cs[..i];
    }
    assert cs[..|cs|] == cs;
    return None;
  }

  // ---------------------------------------------------------------- the entry point

  lemma MentionedIsText(o: Observation, v: View, cs: seq<PublicCandidate>)
    requires ViewOk(true, v) && FirstFault(cs).None?
    ensures AllOk(LocatorText, Mentioned(o.references, v, cs)) <==> AllOk(LocatorText, o.references)
  {
    hide LocatorText, ViewOk, FirstFault, ViewLocators, Flat;
    ViewIsText(v);
    CandidatesAreText(cs);
    JoinedOk(o.references + ViewLocators(v), Flat(CandidateLocators(), cs));
    JoinedOk(o.references, ViewLocators(v));
    AllFromMembers(ViewLocators(v));
    AllFromMembers(Flat(CandidateLocators(), cs));
  }

  lemma AllFromMembers(xs: seq<Bytes>)
    requires forall x :: x in xs ==> LocatorText(x)
    ensures AllOk(LocatorText, xs)
  {
    hide LocatorText;
    forall i | 0 <= i < |xs| ensures LocatorText(xs[i]) {
      assert xs[i] in xs;
    }
  }

  lemma EverythingInside(o: Observation, v: View, cs: seq<PublicCandidate>)
    requires ViewOk(true, v) && FirstFault(cs).None? && AllOk(LocatorText, o.references)
    ensures var table := TableFor(o, v, cs);
      && IsTable(table) && ViewInside(table, v) && CandidatesInside(table, cs)
           && Inside(table, Sort(LexLe, o.references))
  {
    hide IsTable, LocatorText, ViewOk, FirstFault, TableFor, ViewLocators, Flat, Sort, LexLess;
    AllCovered(o, v, cs);
    var table := TableFor(o, v, cs);
    forall i | 0 <= i < |v.entities| ensures v.entities[i].locator in table {
      CardMembers(v, i);
    }
    forall i | 0 <= i < |v.relationships| ensures v.relationships[i].source in table
      && v.relationships[i].target in table {
      RelationshipMembers(v, i);
    }
    forall i, x | 0 <= i < |v.chain.links| && (v.chain.links[i].source == Some(x) || x in v.chain.links[i].targets)
      ensures x in table
    {
      LinkMembers(v, i, x);
    }
    forall i, x | 0 <= i < |v.visibleEvents| && (v.visibleEvents[i].entity == Some(x)
      || x in v.visibleEvents[i].targets)
      ensures x in table
    {
      EventMembers(v, i, x);
    }
    forall i | 0 <= i < |cs|
      ensures cs[i].source.Some? ==> cs[i].source.value.locator in table
      ensures cs[i].target.Some? ==> cs[i].target.value.locator in table
    {
      if cs[i].source.Some? {
        CandidateMembers(cs, i, cs[i].source.value.locator);
      }
      if cs[i].target.Some? {
        CandidateMembers(cs, i, cs[i].target.value.locator);
      }
    }
    LocatorOrders();
    SortSorts(LexLe, o.references);
    SameElements(o.references, Sort(LexLe, o.references));
    forall i | 0 <= i < |o.references| ensures Sort(LexLe, o.references)[i] in table {
      assert Sort(LexLe, o.references)[i] in o.references;
    }
  }

  method MakeDomainDigest(sha256: Bytes -> Bytes, o: Observation, keys: seq<Bytes>) returns (r: Option<Option<Bytes>>)
    ensures r == if DomainFails(o, keys) then None else Some(DomainDigestOf(sha256, o.kind, keys))
  {
    hide DomainOk, PutDomain;
    if o.kind.None? {
      return Some(None);
    }
    var bytes :- CanonicalDomainBytes(V1, o.kind.value, keys);
    return Some(Some(sha256(bytes)));
  }

  /** Decodes the observation's state and writes it again, as the code does; the comparison
      never decides anything. */
  method DecodeState(bytes: Bytes) returns (r: Option<View>)
    ensures r == Decode(bytes)
  {
    hide Decode, SafeStateCodec.Encode, ViewMeets;
    var v :- DecodeCanonicalSafeState(bytes);
    ParsedStateIsEncodable(bytes);
    ReencodeIsIdentity(bytes);
    var again := EncodeView(v);
    return if again == Some(bytes) then Some(v) else None;
  }

  /** The part after validation. The table has every string it is asked for, so of the failures
      the code guards against only the repeated key and the domain remain. */
  method Assemble(sha256: Bytes -> Bytes, o: Observation, v: View, cs: seq<PublicCandidate>, table: seq<Bytes>)
    returns (r: Projection)
    requires table == TableFor(o, v, cs) && IsTable(table) && ViewInside(table, v) && CandidatesInside(table, cs)
    requires Inside(table, Sort(LexLe, o.references)) && UniqueLocators(v.entities)
    ensures r ==
      if !Distinct(Map(KeyOfCandidate(), cs)) then ProjectionFailed(DuplicatePublicActionKey)
      else if DomainFails(o, Map(KeyOfCandidate(), cs)) then ProjectionFailed(CandidateDomainDigestFailure)
      else Projected(LogicalFrom(sha256, o, v, cs))
  {
    hide IsTable, ViewInside, CandidatesInside, Inside, UniqueLocators, Distinct, DomainFails, DomainDigestOf, Sort,
      CopyState, CopyCandidate, LocatedTable, TableFor, EncodeObservation;
    var sorted := SortedReferences(o.references);
    var references := MakeLocateds(table, sorted);
    var state := CopyPublicState(table, v);
    var candidates := CopyCandidates(table, v.entities, cs);
    if candidates.None? {
      return ProjectionFailed(DuplicatePublicActionKey);
    }
    var keys := Map(KeyOfCandidate(), cs);
    var digest := MakeDomainDigest(sha256, o, keys);
    if digest.None? {
      return ProjectionFailed(CandidateDomainDigestFailure);
    }
    return Projected(LogicalModelInput(sha256(EncodeObservation(o)), digest.value, o.perspectivePlayer,
      o.decisionIndex, o.kind,
      o.player, references, LocatedTable(table), state, keys, candidates.value));
  }

  method ProjectLogicalModelInput(sha256: Bytes -> Bytes, o: Observation, cs: seq<PublicCandidate>)
    returns (r: Projection)
    ensures r == Project(sha256, o, cs)
  {
    hide Decode, ContainerBytes, FirstFault, LocatorText, AllOk, Distinct, DomainFails, LogicalFrom, IsTable,
      ViewInside, CandidatesInside, Inside, UniqueLocators, Sort, Mentioned, ViewOk;
    if cs == [] {
      return ProjectionFailed(EmptyCandidateDomain);
    }
    var decoded := DecodeState(o.safeState);
    if decoded.None? {
      return ProjectionFailed(PublicSafeStateDecodeFailure);
    }
    var v := decoded.value;
    if v.matchContext.perspectivePlayer != o.perspectivePlayer {
      return ProjectionFailed(InvalidPublicObservation);
    }
    var container := CanonicalObservationBytes(o);
    if !container.Bytes? {
      return ProjectionFailed(InvalidPublicObservation);
    }
    var fault := ValidateCandidates(cs);
    if fault.Some? {
      return ProjectionFailed(fault.value);
    }
    StateIsOk(o.safeState, v);
    MentionedIsText(o, v, cs);
    var values := CollectMentioned(o.references, v, cs);
    if values.None? {
      return ProjectionFailed(InvalidPublicReference);
    }
    var table := MakeTable(values.value);
    if |table| > U32_MAX {
      return ProjectionFailed(LocatorTableFailure);
    }
    EverythingInside(o, v, cs);
    r := Assemble(sha256, o, v, cs, table);
  }

  lemma StateIsOk(bytes: Bytes, v: View)
    requires Decode(bytes) == Some(v)
    ensures ViewOk(true, v) && UniqueLocators(v.entities)
  {
    hide Decode, PutView, ViewOk, UniqueLocators;
    DecodeIffCanonical(bytes, v);
    WrittenIsPlain(v);
  }
}
