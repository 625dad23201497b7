/** The projection as a whole, its failures in order, and when the encoder accepts its result. */
module LogicalProjectionValidity {
  import opened Bytes
  import opened Text
  import opened Sorting
  import opened PublicAction
  import opened PublicActionKeys
  import opened PublicActionDomain
  import opened SafeState
  import opened SafeStateNormal
  import opened SafeStateCodec
  import opened PublicObservation
  import opened PublicObservationCodec
  import opened LocatorTables
  import opened EncodedState
  import opened CardVocabulary
  import opened EncodedInput
  import opened LogicalInput
  import opened ModelInputEncoder
  import opened LogicalProjection

  // ---------------------------------------------------------------- candidates

  function DescribedAction(c: PublicCandidate): ActionInput {
    ActionInput(ActionKindBytes(ActionKindCode(c.actionKind)), c.choice, c.source, c.target, c.phase, c.position,
                c.sourceIndex, c.amount, c.continuation, NoOperation)
  }

  predicate ReferenceText(r: Option<CardReference>) {
    r.Some? ==> LocatorText(r.value.locator)
  }

  /** Why a candidate is refused, if it is: the first of its checks to fail. */
  ghost function CandidateFault(c: PublicCandidate): Option<ProjectionError> {
    if !IsPublicKey(V1, c.key) then Some(InvalidPublicActionKey)
    else if c.actionKind == Unsupported || !OptOk(LogicalChoiceOk, c.choice) then Some(InvalidPublicCandidateDescriptor)
    else if !ReferenceText(c.source) || !ReferenceText(c.target) then Some(InvalidPublicReference)
    else if ContinuationCode(c.continuation, 0).None? then Some(InvalidPublicCandidateDescriptor)
    else if !ActionOk(V1, DescribedAction(c)) || c.key != KeyOf(V1, DescribedAction(c)) then
      Some(InvalidPublicCandidateDescriptor)
    else None
  }

  ghost function FirstFault(cs: seq<PublicCandidate>): Option<ProjectionError> {
    if cs == [] then None
    else if FirstFault(cs[..|cs| - 1]).Some? then FirstFault(cs[..|cs| - 1])
    else CandidateFault(cs[|cs| - 1])
  }

  lemma {:induction false} NoFault(cs: seq<PublicCandidate>)
    ensures FirstFault(cs).None? <==> forall i :: 0 <= i < |cs| ==> CandidateFault(cs[i]).None?
  {
    hide CandidateFault;
    if cs != [] {
      NoFault(cs[..|cs| - 1]);
      assert forall i :: 0 <= i < |cs| - 1 ==> cs[..|cs| - 1][i] == cs[i];
    }
  }

  function KeyOfCandidate(): PublicCandidate -> Bytes {
    (c: PublicCandidate) => c.key
  }

  // ---------------------------------------------------------------- the projection

  function TableFor(o: Observation, v: View, cs: seq<PublicCandidate>): seq<Bytes> {
    TableOf(Mentioned(o.references, v, cs))
  }

  function DomainDigestOf(sha256: Bytes -> Bytes, kind: Option<Bytes>, keys: seq<Bytes>): Option<Bytes> {
    match kind
    case None => None
    case Some(k) => Some(sha256(PutDomain(V1, k, keys)))
  }

  function LogicalFrom(sha256: Bytes -> Bytes, o: Observation, v: View, cs: seq<PublicCandidate>): LogicalModelInput {
    var table := TableFor(o, v, cs);
    var keys := Map(KeyOfCandidate(), cs);
    LogicalModelInput(sha256(EncodeObservation(o)), DomainDigestOf(sha256, o.kind, keys), o.perspectivePlayer,
                      o.decisionIndex, o.kind, o.player, Map(Locate(table), Sort(LexLe, o.references)),
                      LocatedTable(table), CopyState(table, v), keys, Map(CopyCandidate(table, v.entities), cs))
  }

  ghost predicate DomainFails(o: Observation, keys: seq<Bytes>) {
    o.kind.Some? && !DomainOk(V1, o.kind.value, keys)
  }

  /** The projection of an observation and its candidates, or the first thing wrong with them. */
  ghost function Project(sha256: Bytes -> Bytes, o: Observation, cs: seq<PublicCandidate>): Projection {
    if cs == [] then ProjectionFailed(EmptyCandidateDomain)
    else
      match Decode(o.safeState)
      case None => ProjectionFailed(PublicSafeStateDecodeFailure)
      case Some(v) =>
        if v.matchContext.perspectivePlayer != o.perspectivePlayer || !ContainerBytes(o).Bytes? then
          ProjectionFailed(InvalidPublicObservation)
        else if FirstFault(cs).Some? then ProjectionFailed(FirstFault(cs).value)
        else if !AllOk(LocatorText, o.references) then ProjectionFailed(InvalidPublicReference)
        else if |TableFor(o, v, cs)| > U32_MAX then ProjectionFailed(LocatorTableFailure)
        else if !Distinct(Map(KeyOfCandidate(), cs)) then ProjectionFailed(DuplicatePublicActionKey)
        else if DomainFails(o, Map(KeyOfCandidate(), cs)) then ProjectionFailed(CandidateDomainDigestFailure)
        else Projected(LogicalFrom(sha256, o, v, cs))
  }

  // ---------------------------------------------------------------- locators find their place

  predicate Covers(table: seq<Bytes>, values: seq<Bytes>) {
    forall x :: x in values ==> x in table && LocatorText(x)
  }

  lemma ValueIsLocated(table: seq<Bytes>, value: Bytes)
    requires IsTable(table) && value in table && LocatorText(value)
    ensures LocatedOk(LocatedTable(table), Locate(table)(value))
  {
    hide IsTable, LocatorText;
  }

  lemma {:induction false} EntityFound(es: seq<ObservedCard>, value: Bytes, from: nat)
    ensures var r := FirstEntity(es, value, from); r.Some? ==> from <= r.value < |es| && es[r.value].locator == value
    decreases |es| - from
  {
    if from < |es| && es[from].locator != value {
      EntityFound(es, value, from + 1);
    }
  }

  lemma CurrentIsOk(table: seq<Bytes>, es: seq<ObservedCard>, value: Bytes)
    requires IsTable(table) && value in table && LocatorText(value)
    ensures CurrentRefOk(LocatedTable(table), CopyEntities(table, es), Current(table, es)(value))
  {
    hide IsTable, LocatorText, IndexIn;
    ValueIsLocated(table, value);
    EntityFound(es, value, 0);
    assert Current(table, es)(value).locator == Locate(table)(value);
  }

  lemma CardMembers(v: View, i: nat)
    requires i < |v.entities|
    ensures v.entities[i].locator in ViewLocators(v)
  {
    hide Flat;
    assert v.entities[i].locator in CardLocator()(v.entities[i]);
    FlatHas(CardLocator(), v.entities, i, v.entities[i].locator);
  }

  lemma RelationshipMembers(v: View, i: nat)
    requires i < |v.relationships|
    ensures v.relationships[i].source in ViewLocators(v) && v.relationships[i].target in ViewLocators(v)
  {
    hide Flat;
    var r := v.relationships[i];
    assert RelationshipLocators()(r)[0] == r.source && RelationshipLocators()(r)[1] == r.target;
    FlatHas(RelationshipLocators(), v.relationships, i, r.source);
    FlatHas(RelationshipLocators(), v.relationships, i, r.target);
  }

  lemma LinkMembers(v: View, i: nat, x: Bytes)
    requires i < |v.chain.links| && (v.chain.links[i].source == Some(x) || x in v.chain.links[i].targets)
    ensures x in ViewLocators(v)
  {
    hide Flat;
    assert x in LinkLocators()(v.chain.links[i]);
    FlatHas(LinkLocators(), v.chain.links, i, x);
  }

  lemma EventMembers(v: View, i: nat, x: Bytes)
    requires i < |v.visibleEvents| && (v.visibleEvents[i].entity == Some(x) || x in v.visibleEvents[i].targets)
    ensures x in ViewLocators(v)
  {
    hide Flat;
    assert x in EventLocators()(v.visibleEvents[i]);
    FlatHas(EventLocators(), v.visibleEvents, i, x);
  }

  lemma CandidateMembers(cs: seq<PublicCandidate>, i: nat, x: Bytes)
    requires i < |cs|
    requires (cs[i].source.Some? && cs[i].source.value.locator == x)
      || (cs[i].target.Some? && cs[i].target.value.locator == x)
    ensures x in Flat(CandidateLocators(), cs)
  {
    hide Flat;
    assert x in CandidateLocators()(cs[i]);
    FlatHas(CandidateLocators(), cs, i, x);
  }

  // ---------------------------------------------------------------- the copied state is valid

  lemma EntitiesCopied(table: seq<Bytes>, v: View)
    requires ViewOk(true, v) && IsTable(table) && Covers(table, ViewLocators(v))
    ensures LogicalEntitiesOk(LocatedTable(table), CopyEntities(table, v.entities))
  {
    hide IsTable, IsLocator, Utf8Octets, IndexIn, LexLess, LocatedOk, LocatedTable, RelationshipOk, LinkOk, EventOk,
      GlobalsOk, ContextOk, ViewLocators, PropertiesOk;
    var es := v.entities;
    forall i | 0 <= i < |es| ensures LogicalCardOk(LocatedTable(table), CopyEntities(table, es)[i]) {
      assert CardRule(true)(es[i]);
      CardMembers(v, i);
      ValueIsLocated(table, es[i].locator);
    }
    forall i | 0 < i < |es| ensures LexLess(es[i - 1].locator, es[i].locator) {
      assert EntityLess(es[i - 1], es[i]);
    }
  }

  lemma RelationshipsCopied(table: seq<Bytes>, v: View)
    requires ViewOk(true, v) && IsTable(table) && Covers(table, ViewLocators(v))
    ensures LogicalRelationshipsOk(LocatedTable(table), CopyEntities(table, v.entities),
                                   Map(CopyRelationship(table, v.entities), v.relationships))
  {
    hide IsTable, LocatorText, IndexIn, LexLess, LocatedTable, CardOk, LinkOk, EventOk, GlobalsOk, ContextOk,
      ViewLocators, CurrentRefOk, RelationshipLe, CopyEntities, EntityNamed;
    var rs := v.relationships;
    var f := CopyRelationship(table, v.entities);
    forall i | 0 <= i < |rs|
      ensures CurrentRefOk(LocatedTable(table), CopyEntities(table, v.entities), f(rs[i]).source)
      ensures CurrentRefOk(LocatedTable(table), CopyEntities(table, v.entities), f(rs[i]).target)
    {
      RelationshipMembers(v, i);
      CurrentIsOk(table, v.entities, rs[i].source);
      CurrentIsOk(table, v.entities, rs[i].target);
    }
    forall i | 0 < i < |rs| ensures LogicalRelationshipLe(f(rs[i - 1]), f(rs[i])) {
      assert RelationshipLe(rs[i - 1], rs[i]);
      PlainCopy(table, v.entities, rs[i - 1]);
      PlainCopy(table, v.entities, rs[i]);
    }
  }

  lemma PlainCopy(table: seq<Bytes>, es: seq<ObservedCard>, r: Relationship)
    ensures PlainRelationship(CopyRelationship(table, es)(r)) == r
  {
    hide IndexIn, EntityNamed;
    var source, target := Current(table, es)(r.source), Current(table, es)(r.target);
    assert CopyRelationship(table, es)(r) == LogicalRelationship(r.kind, source, target);
  }

  lemma LinkCopied(table: seq<Bytes>, v: View, i: nat)
    requires ViewOk(true, v) && IsTable(table) && Covers(table, ViewLocators(v)) && i < |v.chain.links|
    ensures LogicalLinkOk(LocatedTable(table), CopyEntities(table, v.entities),
      CopyLink(table, v.entities)(v.chain.links[i]))
  {
    hide IsTable, LocatorText, IndexIn, LexLess, LocatedTable, CardOk, RelationshipOk, EventOk, GlobalsOk,
      ContextOk, ViewLocators, CurrentRefOk, CopyEntities, EntityNamed, LocatorOk;
    var l := v.chain.links[i];
    assert LinkRule(true)(l);
    var f := Current(table, v.entities);
    forall j | 0 <= j < |l.targets|
      ensures CurrentRefOk(LocatedTable(table), CopyEntities(table, v.entities), f(l.targets[j]))
      ensures f(l.targets[j]).locator.value == l.targets[j]
    {
      LinkMembers(v, i, l.targets[j]);
      CurrentIsOk(table, v.entities, l.targets[j]);
    }
    forall j | 0 < j < |l.targets| ensures RefLe(f(l.targets[j - 1]), f(l.targets[j])) {
      assert LexLe(l.targets[j - 1], l.targets[j]);
    }
    if l.source.Some? {
      LinkMembers(v, i, l.source.value);
      CurrentIsOk(table, v.entities, l.source.value);
    }
  }

  lemma EventCopied(table: seq<Bytes>, v: View, i: nat)
    requires ViewOk(true, v) && IsTable(table) && Covers(table, ViewLocators(v)) && i < |v.visibleEvents|
    ensures LogicalEventOk(LocatedTable(table), CopyEvent(table)(v.visibleEvents[i]))
  {
    hide IsTable, LocatorText, IndexIn, LexLess, LocatedTable, CardOk, RelationshipOk, LinkOk, GlobalsOk, ContextOk,
      ViewLocators, LocatedOk, LocatorOk;
    var e := v.visibleEvents[i];
    assert EventRule(true)(e);
    var f := Locate(table);
    forall j | 0 <= j < |e.targets|
      ensures LocatedOk(LocatedTable(table), f(e.targets[j])) && f(e.targets[j]).value == e.targets[j]
    {
      EventMembers(v, i, e.targets[j]);
      ValueIsLocated(table, e.targets[j]);
    }
    forall j | 0 < j < |e.targets| ensures LocatedLe(f(e.targets[j - 1]), f(e.targets[j])) {
      assert LexLe(e.targets[j - 1], e.targets[j]);
    }
    if e.entity.Some? {
      EventMembers(v, i, e.entity.value);
      ValueIsLocated(table, e.entity.value);
    }
  }

  lemma EventsCopied(table: seq<Bytes>, v: View)
    requires ViewOk(true, v) && IsTable(table) && Covers(table, ViewLocators(v))
    ensures LogicalEventsOk(LocatedTable(table), Map(CopyEvent(table), v.visibleEvents))
  {
    hide IsTable, LexLess, LocatedTable, CardOk, RelationshipOk, LinkOk, GlobalsOk, ContextOk, ViewLocators,
      LogicalEventOk, EventOk, IndexIn, Covers;
    forall i | 0 <= i < |v.visibleEvents|
      ensures LogicalEventOk(LocatedTable(table), CopyEvent(table)(v.visibleEvents[i]))
      ensures CopyEvent(table)(v.visibleEvents[i]).eventIndex == v.visibleEvents[i].eventIndex
    {
      EventCopied(table, v, i);
    }
    forall i | 0 < i < |v.visibleEvents| ensures v.visibleEvents[i - 1].eventIndex < v.visibleEvents[i].eventIndex {
      assert EventLess(v.visibleEvents[i - 1], v.visibleEvents[i]);
    }
  }

  lemma StateCopied(table: seq<Bytes>, v: View)
    requires ViewOk(true, v) && IsTable(table) && Covers(table, ViewLocators(v))
    ensures LogicalStateOk(LocatedTable(table), v.matchContext.perspectivePlayer, CopyState(table, v))
  {
    hide IsTable, LocatedTable, ViewLocators, LogicalEntitiesOk, LogicalRelationshipsOk, LogicalEventsOk,
      LogicalLinkOk, CopyEntities, CardOk, RelationshipOk, LinkOk, EventOk, GlobalsOk, Covers, Ordered, AllOk,
      DeckOk;
    EntitiesCopied(table, v);
    RelationshipsCopied(table, v);
    EventsCopied(table, v);
    forall i | 0 <= i < |v.chain.links|
      ensures LogicalLinkOk(LocatedTable(table), CopyEntities(table, v.entities),
        CopyLink(table, v.entities)(v.chain.links[i]))
    {
      LinkCopied(table, v, i);
    }
  }

  // ---------------------------------------------------------------- the whole input is valid

  lemma CandidateCopied(table: seq<Bytes>, es: seq<ObservedCard>, cs: seq<PublicCandidate>, i: nat)
    requires IsTable(table) && Covers(table, Flat(CandidateLocators(), cs)) && i < |cs| && CandidateFault(cs[i]).None?
    ensures var c := CopyCandidate(table, es)(cs[i]);
      LogicalCandidateOk(LocatedTable(table), CopyEntities(table, es), c) && KeyMatches(c, cs[i].key)
  {
    hide IsTable, LocatorText, IndexIn, LocatedTable, CurrentRefOk, CopyEntities, EntityNamed, Flat, IsPublicKey,
      ActionOk, KeyOf, ContinuationCode, ActionKindBytes, LogicalChoiceOk;
    var p := cs[i];
    var c := CopyCandidate(table, es)(p);
    if p.source.Some? {
      CandidateMembers(cs, i, p.source.value.locator);
      CurrentIsOk(table, es, p.source.value.locator);
    }
    if p.target.Some? {
      CandidateMembers(cs, i, p.target.value.locator);
      CurrentIsOk(table, es, p.target.value.locator);
    }
    PlainReference(table, es, p.source);
    PlainReference(table, es, p.target);
    assert LogicalAction(c) == DescribedAction(p);
  }

  lemma PlainReference(table: seq<Bytes>, es: seq<ObservedCard>, r: Option<CardReference>)
    ensures PlainRef(MapOption(CopyReference(table, es), r)) == r
  {
    hide IndexIn, EntityNamed;
    if r.Some? {
      var current := Current(table, es)(r.value.locator);
      assert CopyReference(table, es)(r.value) == LogicalCardRef(r.value.kind, current);
    }
  }

  /** Every locator mentioned is in the table, and is text. */
  lemma AllCovered(o: Observation, v: View, cs: seq<PublicCandidate>)
    requires ViewOk(true, v) && FirstFault(cs).None? && AllOk(LocatorText, o.references)
    ensures var table := TableFor(o, v, cs);
      && IsTable(table) && Covers(table, Mentioned(o.references, v, cs))
      && Covers(table, o.references) && Covers(table, ViewLocators(v)) && Covers(table, Flat(CandidateLocators(), cs))
      && forall i :: 0 <= i < |table| ==> LocatorText(table[i])
  {
    hide IsTable, LocatorText, TableOf, ViewOk, FirstFault, ViewLocators, Flat;
    TableHolds(Mentioned(o.references, v, cs));
    ViewIsText(v);
    CandidatesAreText(cs);
    forall x | x in Mentioned(o.references, v, cs) ensures LocatorText(x) {
      if x in o.references {
        var i :| 0 <= i < |o.references| && o.references[i] == x;
        assert LocatorText(o.references[i]);
      }
    }
    var table := TableFor(o, v, cs);
    forall i | 0 <= i < |table| ensures LocatorText(table[i]) {
      assert table[i] in table;
    }
  }

  lemma ViewIsText(v: View)
    requires ViewOk(true, v)
    ensures forall x :: x in ViewLocators(v) ==> LocatorText(x)
  {
    hide Flat, IsLocator, Utf8Octets, LexLess, PropertiesOk, GlobalsOk, ContextOk, EntityLess, RelationshipLe;
    forall x | x in Flat(CardLocator(), v.entities) ensures LocatorText(x) {
      FlatFrom(CardLocator(), v.entities, x);
      var i :| 0 <= i < |v.entities| && x in CardLocator()(v.entities[i]);
      assert CardRule(true)(v.entities[i]);
    }
    forall x | x in Flat(RelationshipLocators(), v.relationships) ensures LocatorText(x) {
      FlatFrom(RelationshipLocators(), v.relationships, x);
      var i :| 0 <= i < |v.relationships| && x in RelationshipLocators()(v.relationships[i]);
      assert RelationshipRule(true)(v.relationships[i]);
    }
    forall x | x in Flat(LinkLocators(), v.chain.links) ensures LocatorText(x) {
      FlatFrom(LinkLocators(), v.chain.links, x);
      var i :| 0 <= i < |v.chain.links| && x in LinkLocators()(v.chain.links[i]);
      LinkText(v.chain.links[i], x);
    }
    forall x | x in Flat(EventLocators(), v.visibleEvents) ensures LocatorText(x) {
      FlatFrom(EventLocators(), v.visibleEvents, x);
      var i :| 0 <= i < |v.visibleEvents| && x in EventLocators()(v.visibleEvents[i]);
      assert EventRule(true)(v.visibleEvents[i]);
      EventText(v.visibleEvents[i], x);
    }
  }

  lemma LinkText(l: ChainLink, x: Bytes)
    requires LinkRule(true)(l) && x in LinkLocators()(l)
    ensures LocatorText(x)
  {
    hide IsLocator, Utf8Octets, LexLess;
    if x in l.targets {
      var j :| 0 <= j < |l.targets| && l.targets[j] == x;
      assert LocatorRule(true)(l.targets[j]);
    }
  }

  lemma EventText(e: VisibleEvent, x: Bytes)
    requires EventRule(true)(e) && x in EventLocators()(e)
    ensures LocatorText(x)
  {
    hide IsLocator, Utf8Octets, LexLess;
    if x in e.targets {
      var j :| 0 <= j < |e.targets| && e.targets[j] == x;
      assert LocatorRule(true)(e.targets[j]);
    }
  }

  lemma CandidatesAreText(cs: seq<PublicCandidate>)
    requires FirstFault(cs).None?
    ensures forall x :: x in Flat(CandidateLocators(), cs) ==> LocatorText(x)
  {
    hide Flat, FirstFault, LocatorText, IsPublicKey, ActionOk, KeyOf, ContinuationCode, ActionKindBytes,
      LogicalChoiceOk;
    NoFault(cs);
    forall x | x in Flat(CandidateLocators(), cs) ensures LocatorText(x) {
      FlatFrom(CandidateLocators(), cs, x);
      var i :| 0 <= i < |cs| && x in CandidateLocators()(cs[i]);
      assert CandidateFault(cs[i]).None?;
    }
  }

  lemma ReferencesCopied(table: seq<Bytes>, references: seq<Bytes>)
    requires IsTable(table) && Covers(table, references) && Distinct(references) && |references| <= U32_MAX
    ensures ReferencesOk(LocatedTable(table), Map(Locate(table), Sort(LexLe, references)))
  {
    hide IsTable, LocatorText, IndexIn, LexLess, LocatedTable, LocatedOk, Sort;
    LocatorOrders();
    SortSorts(LexLe, references);
    var sorted := Sort(LexLe, references);
    SameElements(references, sorted);
    DistinctPermuted(references, sorted);
    SortedTexts(sorted);
    forall i | 0 <= i < |sorted| ensures LocatedOk(LocatedTable(table), Locate(table)(sorted[i])) {
      assert sorted[i] in references;
      ValueIsLocated(table, sorted[i]);
    }
    forall i | 0 < i < |sorted| ensures LexLess(sorted[i - 1], sorted[i]) {
    }
  }

  lemma TableLocated(table: seq<Bytes>)
    requires IsTable(table) && |table| <= U32_MAX && forall i :: 0 <= i < |table| ==> LocatorText(table[i])
    ensures TableOk(LocatedTable(table))
  {
    hide LocatorText, LexLess;
  }

  /** What the encoder still asks of a projected input. */
  predicate EncoderAdmits(o: Observation, cs: seq<PublicCandidate>) {
    |cs| <= U32_MAX && (o.kind.Some? ==> RequestKindCode(o.kind.value, 1).Some?)
  }

  lemma HeaderProjected(sha256: Bytes -> Bytes, o: Observation, v: View, cs: seq<PublicCandidate>)
    requires IsDigest(sha256) && ViewOk(true, v) && FirstFault(cs).None? && AllOk(LocatorText, o.references)
    requires InputValid(o) && InputFits(o) && |TableFor(o, v, cs)| <= U32_MAX
    ensures LogicalHeaderOk(LogicalFrom(sha256, o, v, cs)) <==>
      (o.kind.Some? ==> RequestKindCode(o.kind.value, 1).Some?)
  {
    hide IsTable, LocatorText, TableOf, ViewOk, FirstFault, ViewLocators, Flat, Sort, IsLowerToken, RequestKindCode,
      CopyState, LocatedTable, CopyCandidate, EncodeObservation, PutDomain, Covers, Utf8Octets, DigestOk, Mentioned,
      ReferencesOk, TableOk, Distinct, IsHexDigest;
    AllCovered(o, v, cs);
    var table := TableFor(o, v, cs);
    TableLocated(table);
    ReferencesCopied(table, o.references);
    DigestIsOk(sha256, EncodeObservation(o));
    if o.kind.Some? {
      TokenIsText(o.kind.value);
      DigestIsOk(sha256, PutDomain(V1, o.kind.value, Map(KeyOfCandidate(), cs)));
    }
  }

  lemma DigestIsOk(sha256: Bytes -> Bytes, b: Bytes)
    requires IsDigest(sha256)
    ensures DigestOk(sha256(b))
  {
  }

  lemma CandidatesProjected(table: seq<Bytes>, es: seq<ObservedCard>, cs: seq<PublicCandidate>)
    requires IsTable(table) && Covers(table, Flat(CandidateLocators(), cs)) && FirstFault(cs).None? && cs != []
    ensures var keys := Map(KeyOfCandidate(), cs);
      LogicalCandidatesOk(LocatedTable(table), CopyEntities(table, es), Map(CopyCandidate(table, es), cs), keys)
      <==> |cs| <= U32_MAX
    ensures Distinct(Map(KeyOfCandidate(), cs)) ==> KeysOk(V1, Map(KeyOfCandidate(), cs))
  {
    hide IsTable, LocatorText, FirstFault, Flat, LogicalCandidateOk, KeyMatches, CopyCandidate, LocatedTable,
      CopyEntities, Covers, IsPublicKey, Distinct, ActionOk, KeyOf, ContinuationCode, ActionKindBytes,
      LogicalChoiceOk, ReferenceText, DescribedAction;
    NoFault(cs);
    forall i | 0 <= i < |cs|
      ensures LogicalCandidateOk(LocatedTable(table), CopyEntities(table, es), CopyCandidate(table, es)(cs[i]))
      ensures KeyMatches(CopyCandidate(table, es)(cs[i]), cs[i].key) && IsPublicKey(V1, cs[i].key)
    {
      CandidateCopied(table, es, cs, i);
    }
  }

  /** The encoder accepts a projected input exactly when there are not too many candidates and
      the request kind, any token to the projection, is one of the fourteen the encoder knows. */
  lemma ProjectedIsValid(sha256: Bytes -> Bytes, o: Observation, cs: seq<PublicCandidate>)
    requires IsDigest(sha256) && Project(sha256, o, cs).Projected?
    ensures LogicalOk(sha256, Project(sha256, o, cs).value) <==> EncoderAdmits(o, cs)
  {
    hide IsDigest, Decode, ContainerBytes, FirstFault, LocatorText, TableFor, LogicalHeaderOk, LogicalStateOk,
      LogicalCandidatesOk, KeysOk, DomainOk, PutDomain, RequestKindCode, CopyState, CopyEntities, CopyCandidate,
      LocatedTable, Sort, Distinct, AllOk, EncodeObservation;
    var v := Decode(o.safeState).value;
    var table := TableFor(o, v, cs);
    DecodeIffCanonical(o.safeState, v);
    hide ViewOk, PutView;
    ContainerIsValid(o);
    hide InputValid, InputFits;
    AllCovered(o, v, cs);
    hide IsTable, Covers;
    HeaderProjected(sha256, o, v, cs);
    StateCopied(table, v);
    CandidatesProjected(table, v.entities, cs);
    CopiedEntities(table, v);
  }

  // ---------------------------------------------------------------- a projection the encoder refuses

  const FINISHING := ActionInput(ActionKindBytes(11), None, None, None, None, None, None, None, [], NoOperation)

  const FINISH_CANDIDATE := PublicCandidate(
    KeyOf(V1, FINISHING), Finish, None, None, None, None, None, None, None, [], true)

  /** An observation whose request kind is the token `x`, which the encoder does not know. */
  const UNKNOWN_KIND := Observation(0, 0, SafeStateCodec.Encode(QUIET), Some([0x78]), None, [])

  lemma FinishIsShort()
    ensures |PutAction(V1, FINISHING, [])| <= 400
  {
    var x := FINISHING;
    var tail := PutString(x.continuation, []);
    var numbers := PutOpt(PutU32, x.phase, PutOpt(PutU8, x.position,
      PutOpt(PutU32, x.sourceIndex, PutOpt(PutI32, x.amount, tail))));
    var body := PutOpt(PutChoice, x.choice, PutOpt(PutReference, x.source, PutOpt(PutReference, x.target, numbers)));
    assert |tail| == 4 && |numbers| == 8 && |body| == 11;
    assert PutAction(V1, x, []) == PutActionHeader(V1, PutString(x.actionKind, body));
  }

  lemma FinishIsPublic()
    ensures |FINISH_CANDIDATE.key| <= 1000 && FirstFault([FINISH_CANDIDATE]).None?
    ensures KeysOk(V1, [FINISH_CANDIDATE.key])
  {
    FinishIsShort();
    hide PutAction, LowerHex, ContinuationCode;
    assert DescribedAction(FINISH_CANDIDATE) == FINISHING;
    assert ContinuationBytes(0) == [];
    assert ActionOk(V1, FINISHING);
    assert CandidateFault(FINISH_CANDIDATE).None?;
    hide CandidateFault;
    NoFault([FINISH_CANDIDATE]);
  }

  lemma UnknownKind()
    ensures IsLowerToken([0x78]) && RequestKindCode([0x78], 1).None?
  {
    forall c: U16 | 1 <= c <= 14 ensures RequestKindBytes(c) != [0x78] {
    }
  }

  /** The projection takes it, the encoder does not. */
  lemma UnknownKindIsRefused(sha256: Bytes -> Bytes)
    requires IsDigest(sha256)
    ensures Project(sha256, UNKNOWN_KIND, [FINISH_CANDIDATE]).Projected?
    ensures !LogicalOk(sha256, Project(sha256, UNKNOWN_KIND, [FINISH_CANDIDATE]).value)
  {
    QuietRoundTrip();
    FinishIsPublic();
    UnknownKind();
    hide IsDigest, Decode, EncodeObservation, FirstFault, CopyState, KeyOf, LogicalOk, KeysOk, RequestKindCode,
      SafeStateCodec.Encode, LogicalFrom;
    var keys := Map(KeyOfCandidate(), [FINISH_CANDIDATE]);
    assert keys == [FINISH_CANDIDATE.key];
    assert DomainOk(V1, [0x78], keys);
    assert Mentioned([], QUIET, [FINISH_CANDIDATE]) == [] by {
      assert CandidateLocators()(FINISH_CANDIDATE) == [];
      assert Flat(CandidateLocators(), [FINISH_CANDIDATE]) == [];
    }
    TableHolds([]);
    ProjectedIsValid(sha256, UNKNOWN_KIND, [FINISH_CANDIDATE]);
  }

  lemma CopiedEntities(table: seq<Bytes>, v: View)
    ensures CopyState(table, v).entities == CopyEntities(table, v.entities)
  {
    hide CopyEntities, Map;
  }

  lemma ContainerIsValid(o: Observation)
    requires ContainerBytes(o).Bytes?
    ensures InputValid(o) && InputFits(o)
  {
    hide InputValid, InputFits, EncodeObservation;
  }
}
