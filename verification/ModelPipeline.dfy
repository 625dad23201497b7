/** Projection, encoding and compaction together: what the scorer is shown of the state depends
    on the observation alone. */
module ModelPipeline {
  import opened Bytes
  import opened Text
  import opened Sorting
  import opened SafeState
  import opened SafeStateCodec
  import opened PublicObservation
  import opened PublicObservationCodec
  import opened LocatorTables
  import opened EncodedState
  import opened CardVocabulary
  import opened EncodedInput
  import opened LogicalInput
  import opened ModelInputEncoder
  import opened LogicalProjection
  import opened LogicalProjectionValidity
  import opened LogicalProjectionRun
  import opened CandidateScorer

  /** Both tables have the string. */
  predicate Both(t: seq<Bytes>, u: seq<Bytes>, x: Bytes) {
    x in t && x in u
  }

  lemma OrdinalDenotes(t: seq<Bytes>, x: Bytes)
    requires x in t
    ensures Denoter(t)(OrdinalOf()(Locate(t)(x))) == x
  {
    hide IndexIn;
  }

  lemma RefDenotes(t: seq<Bytes>, es: seq<ObservedCard>, x: Bytes)
    requires x in t
    ensures MapRef(Denoter(t), EncodeRef(Current(t, es)(x))) == Ref(x, EntityNamed(es, x))
  {
    hide IndexIn, EntityNamed;
    var r := Current(t, es)(x);
    assert r.locator == Located(x, IndexIn(t, x));
  }

  lemma EntityDenotes(passcodes: seq<U32>, t: seq<Bytes>, u: seq<Bytes>, c: ObservedCard, i: nat)
    requires Both(t, u, c.locator) && CardNamed(passcodes, c)
    ensures EncodeEntity(passcodes, LogicalEntity(c, IndexIn(t, c.locator), i)).Done?
    ensures EncodeEntity(passcodes, LogicalEntity(c, IndexIn(u, c.locator), i)).Done?
    ensures MapEntity(Denoter(t), EncodeEntity(passcodes, LogicalEntity(c, IndexIn(t, c.locator), i)).value)
         == MapEntity(Denoter(u), EncodeEntity(passcodes, LogicalEntity(c, IndexIn(u, c.locator), i)).value)
  {
    hide IndexIn, IdOf, EncodeEntity, EncodeProperties;
    EntityEncodes(passcodes, LogicalEntity(c, IndexIn(t, c.locator), i));
    EntityEncodes(passcodes, LogicalEntity(c, IndexIn(u, c.locator), i));
  }

  lemma RelationshipDenotes(t: seq<Bytes>, u: seq<Bytes>, es: seq<ObservedCard>, r: Relationship)
    requires Both(t, u, r.source) && Both(t, u, r.target)
    ensures MapRelation(Denoter(t), EncodeRelationship(CopyRelationship(t, es)(r)))
         == MapRelation(Denoter(u), EncodeRelationship(CopyRelationship(u, es)(r)))
  {
    hide IndexIn, EntityNamed, EncodeRef, Current;
    RefDenotes(t, es, r.source);
    RefDenotes(u, es, r.source);
    RefDenotes(t, es, r.target);
    RefDenotes(u, es, r.target);
  }

  lemma LinkDenotes(t: seq<Bytes>, u: seq<Bytes>, es: seq<ObservedCard>, l: ChainLink)
    requires Inside(t, l.targets) && Inside(u, l.targets) && (l.source.Some? ==> Both(t, u, l.source.value))
    ensures MapLink(Denoter(t), EncodeLink(CopyLink(t, es)(l))) == MapLink(Denoter(u), EncodeLink(CopyLink(u, es)(l)))
  {
    hide IndexIn, EntityNamed, EncodeRef, Current, MapRef, ZoneCode;
    if l.source.Some? {
      RefDenotes(t, es, l.source.value);
      RefDenotes(u, es, l.source.value);
    }
    forall i | 0 <= i < |l.targets|
      ensures MapRef(Denoter(t), EncodeRef(Current(t, es)(l.targets[i])))
        == MapRef(Denoter(u), EncodeRef(Current(u, es)(l.targets[i])))
    {
      RefDenotes(t, es, l.targets[i]);
      RefDenotes(u, es, l.targets[i]);
    }
    var a, b := MapLink(Denoter(t), EncodeLink(CopyLink(t, es)(l))),
      MapLink(Denoter(u), EncodeLink(CopyLink(u, es)(l)));
    assert a.targets == b.targets;
  }

  lemma EventDenotes(passcodes: seq<U32>, t: seq<Bytes>, u: seq<Bytes>, e: VisibleEvent)
    requires Inside(t, e.targets) && Inside(u, e.targets) && (e.entity.Some? ==> Both(t, u, e.entity.value))
    requires e.publicPasscode.Some? ==> IdOf(passcodes, e.publicPasscode.value).Some?
    ensures EncodeEvent(passcodes, CopyEvent(t)(e)).Done? && EncodeEvent(passcodes, CopyEvent(u)(e)).Done?
    ensures MapEvent(Denoter(t), EncodeEvent(passcodes, CopyEvent(t)(e)).value)
         == MapEvent(Denoter(u), EncodeEvent(passcodes, CopyEvent(u)(e)).value)
  {
    hide IndexIn, IdOf, EncodeEvent, ZoneCode, EventKindCode, Locate;
    EventEncodes(passcodes, CopyEvent(t)(e));
    EventEncodes(passcodes, CopyEvent(u)(e));
    if e.entity.Some? {
      OrdinalDenotes(t, e.entity.value);
      OrdinalDenotes(u, e.entity.value);
    }
    forall i | 0 <= i < |e.targets|
      ensures Denoter(t)(OrdinalOf()(Locate(t)(e.targets[i]))) == Denoter(u)(OrdinalOf()(Locate(u)(e.targets[i])))
    {
      OrdinalDenotes(t, e.targets[i]);
      OrdinalDenotes(u, e.targets[i]);
    }
    var a := MapEvent(Denoter(t), EncodeEvent(passcodes, CopyEvent(t)(e)).value);
    var b := MapEvent(Denoter(u), EncodeEvent(passcodes, CopyEvent(u)(e)).value);
    assert a.targets == b.targets;
  }

  // ---------------------------------------------------------------- collections

  lemma EntitiesDenote(passcodes: seq<U32>, t: seq<Bytes>, u: seq<Bytes>, v: View)
    requires ViewInside(t, v) && ViewInside(u, v)
    requires Each(EntityEncoder(passcodes), CopyEntities(t, v.entities)).Done?
    ensures Each(EntityEncoder(passcodes), CopyEntities(u, v.entities)).Done?
    ensures Map(EntityMap(Denoter(t)), Each(EntityEncoder(passcodes), CopyEntities(t, v.entities)).value)
         == Map(EntityMap(Denoter(u)), Each(EntityEncoder(passcodes), CopyEntities(u, v.entities)).value)
  {
    hide IndexIn, Each, EncodeEntity, CardNamed, Inside, MapEntity;
    var f := EntityEncoder(passcodes);
    EachDone(f, CopyEntities(t, v.entities));
    EachDone(f, CopyEntities(u, v.entities));
    forall i | 0 <= i < |v.entities|
      ensures f(CopyEntities(u, v.entities)[i]).Done?
      ensures MapEntity(Denoter(t), f(CopyEntities(t, v.entities)[i]).value)
        == MapEntity(Denoter(u), f(CopyEntities(u, v.entities)[i]).value)
    {
      EntityEncodes(passcodes, CopyEntities(t, v.entities)[i]);
      EntityEncodes(passcodes, CopyEntities(u, v.entities)[i]);
      EntityDenotes(passcodes, t, u, v.entities[i], i);
    }
  }

  lemma EventsDenote(passcodes: seq<U32>, t: seq<Bytes>, u: seq<Bytes>, v: View)
    requires ViewInside(t, v) && ViewInside(u, v)
    requires Each(EventEncoder(passcodes), Map(CopyEvent(t), v.visibleEvents)).Done?
    ensures Each(EventEncoder(passcodes), Map(CopyEvent(u), v.visibleEvents)).Done?
    ensures Map(EventMap(Denoter(t)), Each(EventEncoder(passcodes), Map(CopyEvent(t), v.visibleEvents)).value)
         == Map(EventMap(Denoter(u)), Each(EventEncoder(passcodes), Map(CopyEvent(u), v.visibleEvents)).value)
  {
    hide IndexIn, Each, EncodeEvent, Inside, MapEvent, IdOf, Locate;
    var f := EventEncoder(passcodes);
    EachDone(f, Map(CopyEvent(t), v.visibleEvents));
    EachDone(f, Map(CopyEvent(u), v.visibleEvents));
    forall i | 0 <= i < |v.visibleEvents|
      ensures f(CopyEvent(u)(v.visibleEvents[i])).Done?
      ensures MapEvent(Denoter(t), f(CopyEvent(t)(v.visibleEvents[i])).value)
        == MapEvent(Denoter(u), f(CopyEvent(u)(v.visibleEvents[i])).value)
    {
      EventEncodes(passcodes, CopyEvent(t)(v.visibleEvents[i]));
      EventDenotes(passcodes, t, u, v.visibleEvents[i]);
    }
  }

  lemma RelationsDenote(t: seq<Bytes>, u: seq<Bytes>, v: View)
    requires ViewInside(t, v) && ViewInside(u, v)
    ensures Map(RelationMap(Denoter(t)), Map(EncodeRelationship, Map(CopyRelationship(t, v.entities), v.relationships)))
         == Map(RelationMap(Denoter(u)), Map(EncodeRelationship, Map(CopyRelationship(u, v.entities), v.relationships)))
    ensures Map(LinkMap(Denoter(t)), Map(EncodeLink, Map(CopyLink(t, v.entities), v.chain.links)))
         == Map(LinkMap(Denoter(u)), Map(EncodeLink, Map(CopyLink(u, v.entities), v.chain.links)))
  {
    hide Inside, CopyRelationship, CopyLink, EncodeRelationship, EncodeLink, MapRelation, MapLink;
    forall i | 0 <= i < |v.relationships|
      ensures MapRelation(Denoter(t), EncodeRelationship(CopyRelationship(t, v.entities)(v.relationships[i])))
           == MapRelation(Denoter(u), EncodeRelationship(CopyRelationship(u, v.entities)(v.relationships[i])))
    {
      RelationshipDenotes(t, u, v.entities, v.relationships[i]);
    }
    forall i | 0 <= i < |v.chain.links|
      ensures MapLink(Denoter(t), EncodeLink(CopyLink(t, v.entities)(v.chain.links[i])))
           == MapLink(Denoter(u), EncodeLink(CopyLink(u, v.entities)(v.chain.links[i])))
    {
      LinkDenotes(t, u, v.entities, v.chain.links[i]);
    }
  }

  lemma ReferencesDenote(t: seq<Bytes>, xs: seq<Bytes>)
    requires Inside(t, xs)
    ensures Map(Denoter(t), Map(OrdinalOf(), Map(Locate(t), xs))) == xs
  {
    hide Locate;
    forall i | 0 <= i < |xs| ensures Denoter(t)(OrdinalOf()(Locate(t)(xs[i]))) == xs[i] {
      OrdinalDenotes(t, xs[i]);
    }
  }

  /** Two tables with the state's strings give encodings that denote the same state. */
  lemma StatesDenoteTheSame(passcodes: seq<U32>, t: seq<Bytes>, u: seq<Bytes>, references: seq<Bytes>, v: View)
    requires ViewInside(t, v) && ViewInside(u, v) && Inside(t, references) && Inside(u, references)
    requires EncodeState(passcodes, Map(Locate(t), references), CopyState(t, v)).Done?
    ensures EncodeState(passcodes, Map(Locate(u), references), CopyState(u, v)).Done?
    ensures Denote(t, EncodeState(passcodes, Map(Locate(t), references), CopyState(t, v)).value)
         == Denote(u, EncodeState(passcodes, Map(Locate(u), references), CopyState(u, v)).value)
  {
    hide Map, Each, ViewInside, Inside, CopyEntities, EncodeContext;
    EntitiesDenote(passcodes, t, u, v);
    EventsDenote(passcodes, t, u, v);
    RelationsDenote(t, u, v);
    ReferencesDenote(t, references);
    ReferencesDenote(u, references);
  }

  // ---------------------------------------------------------------- main result

  lemma TableIsItself(t: seq<Bytes>)
    ensures Map(ValueOf(), LocatedTable(t)) == t
  {
    var values: seq<Bytes> := Map(ValueOf(), LocatedTable(t));
    assert values == t;
  }

  /** Whatever candidates an observation comes with, the state input the scorer derives is the
      same, although each candidate set has its own table and shifts every ordinal. */
  lemma ScorerSeesObservationOnly(sha256: Bytes -> Bytes, passcodes: seq<U32>, o: Observation,
    cs: seq<PublicCandidate>, ds: seq<PublicCandidate>)
    requires Project(sha256, o, cs).Projected? && Project(sha256, o, ds).Projected?
    requires ModelInputEncoder.Encode(sha256, passcodes, Project(sha256, o, cs).value).Done?
    requires ModelInputEncoder.Encode(sha256, passcodes, Project(sha256, o, ds).value).Done?
    ensures StateInputOf(ModelInputEncoder.Encode(sha256, passcodes, Project(sha256, o, cs).value).value)
         == StateInputOf(ModelInputEncoder.Encode(sha256, passcodes, Project(sha256, o, ds).value).value)
  {
    hide Decode, ContainerBytes, FirstFault, LocatorText, AllOk, Distinct, DomainFails, TableFor, IsTable,
      ViewInside, CandidatesInside, Inside, Sort, ViewOk, EncodeState, Each, CopyState, CopyCandidate, LocatedTable,
      Identity, KindCode, StateInputOf, EncodeObservation;
    var v := Decode(o.safeState).value;
    StateIsOk(o.safeState, v);
    EverythingInside(o, v, cs);
    EverythingInside(o, v, ds);
    var t, u := TableFor(o, v, cs), TableFor(o, v, ds);
    var references := Sort(LexLe, o.references);
    StatesDenoteTheSame(passcodes, t, u, references, v);
    TableIsItself(t);
    TableIsItself(u);
    var e := ModelInputEncoder.Encode(sha256, passcodes, Project(sha256, o, cs).value).value;
    var f := ModelInputEncoder.Encode(sha256, passcodes, Project(sha256, o, ds).value).value;
    StateInputIgnoresCandidates(e, f);
  }
}
