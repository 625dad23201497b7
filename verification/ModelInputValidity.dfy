/** Whatever a valid logical input encodes to is a valid encoded input. */
module ModelInputValidity {
  import opened Bytes
  import opened Text
  import opened Sorting
  import opened PublicAction
  import opened PublicActionKeys
  import opened PublicActionDomain
  import opened SafeState
  import opened LocatorTables
  import opened EncodedState
  import opened CardVocabulary
  import opened EncodedInput
  import opened LogicalInput
  import opened ModelInputEncoder

  lemma PropertiesStayValid(p: CardProperties)
    requires PropertiesOk(p)
    ensures EncodedPropertiesOk(EncodeProperties(p))
  {
  }

  lemma EntityStaysValid(passcodes: seq<U32>, table: seq<Located>, e: LogicalEntity)
    requires PasscodesOk(passcodes) && LogicalCardOk(table, e) && EncodeEntity(passcodes, e).Done?
    ensures EntityOk(Map(ValueOf(), table), EncodeEntity(passcodes, e).value)
  {
    hide IdOf, PasscodesOk, PropertiesOk, EncodedPropertiesOk, EncodeProperties, LocatorText, EncodeEntity;
    EntityEncodes(passcodes, e);
    if e.card.identityKnown {
      IdIsRank(passcodes, e.card.passcode.value);
    }
    if e.card.printed.Some? {
      PropertiesStayValid(e.card.printed.value);
    }
    if e.card.current.Some? {
      PropertiesStayValid(e.card.current.value);
    }
  }

  /** The entities' ordinals are theirs, so their locators still ascend and stay distinct. */
  lemma EntitiesStayValid(passcodes: seq<U32>, table: seq<Located>, es: seq<LogicalEntity>)
    requires PasscodesOk(passcodes) && LogicalEntitiesOk(table, es) && Each(EntityEncoder(passcodes), es).Done?
    ensures var encoded := Each(EntityEncoder(passcodes), es).value;
      && EntitiesOk(Map(ValueOf(), table), encoded) && |encoded| == |es|
      && forall i :: 0 <= i < |es| ==> encoded[i].locator == es[i].ordinal
  {
    hide Each, PasscodesOk, EntityOk, LexLess, IdOf, LocatorText, PropertiesOk, EncodeEntity;
    EachDone(EntityEncoder(passcodes), es);
    forall i | 0 <= i < |es|
      ensures EntityOk(Map(ValueOf(), table), EncodeEntity(passcodes, es[i]).value)
      ensures EncodeEntity(passcodes, es[i]).value.locator == es[i].ordinal
    {
      EntityStaysValid(passcodes, table, es[i]);
      EntityEncodes(passcodes, es[i]);
    }
  }

  predicate Follows(es: seq<LogicalEntity>, encoded: seq<Entity<nat>>) {
    |encoded| == |es| && forall i :: 0 <= i < |es| ==> encoded[i].locator == es[i].ordinal
  }

  /** A locator has one ordinal: the table has no duplicates. */
  lemma OneOrdinal(table: seq<Located>, p: Located, q: Located)
    requires TableOk(table) && LocatedOk(table, p) && LocatedOk(table, q) && p.value == q.value
    ensures p.ordinal == q.ordinal
  {
    hide LexLess, LocatorText;
    var values := Map(ValueOf(), table);
    TableDistinct(values, p.ordinal, q.ordinal);
  }

  lemma RefStaysValid(table: seq<Located>, es: seq<LogicalEntity>, encoded: seq<Entity<nat>>, r: Ref<Located>)
    requires TableOk(table) && LogicalEntitiesOk(table, es) && Follows(es, encoded) && CurrentRefOk(table, es, r)
    ensures RefOk(|table|, encoded, EncodeRef(r))
  {
    hide TableOk, LexLess, LocatorText;
    if r.entity.Some? {
      var e := es[r.entity.value];
      assert LogicalCardOk(table, e);
      OneOrdinal(table, r.locator, Located(e.card.locator, e.ordinal));
    }
  }

  lemma RelationshipsStayValid(table: seq<Located>, es: seq<LogicalEntity>, encoded: seq<Entity<nat>>,
    rs: seq<LogicalRelationship>)
    requires TableOk(table) && LogicalEntitiesOk(table, es) && Follows(es, encoded)
      && LogicalRelationshipsOk(table, es, rs)
    ensures var relations := Map(EncodeRelationship, rs);
      forall i :: 0 <= i < |relations| ==> RelationOk(|table|, encoded, relations[i])
  {
    hide TableOk, LogicalEntitiesOk, Follows, CurrentRefOk, RefOk, EncodeRef, Ordered;
    forall i | 0 <= i < |rs| ensures RelationOk(|table|, encoded, EncodeRelationship(rs[i])) {
      RefStaysValid(table, es, encoded, rs[i].source);
      RefStaysValid(table, es, encoded, rs[i].target);
    }
  }

  lemma LinkStaysValid(table: seq<Located>, es: seq<LogicalEntity>, encoded: seq<Entity<nat>>, l: LogicalLink)
    requires TableOk(table) && LogicalEntitiesOk(table, es) && Follows(es, encoded) && LogicalLinkOk(table, es, l)
    ensures EncodedLinkOk(|table|, encoded, EncodeLink(l))
  {
    hide TableOk, LogicalEntitiesOk, Follows, CurrentRefOk, RefOk, EncodeRef, Ordered;
    forall i | 0 <= i < |l.targets| ensures RefOk(|table|, encoded, EncodeRef(l.targets[i])) {
      RefStaysValid(table, es, encoded, l.targets[i]);
    }
    if l.source.Some? {
      RefStaysValid(table, es, encoded, l.source.value);
    }
  }

  lemma EventsStayValid(passcodes: seq<U32>, table: seq<Located>, es: seq<LogicalEvent>)
    requires LogicalEventsOk(table, es) && Each(EventEncoder(passcodes), es).Done?
    ensures EventsOk(|table|, Each(EventEncoder(passcodes), es).value)
  {
    hide Each, IdOf, Ordered, LocatorText, EncodeEvent;
    EachDone(EventEncoder(passcodes), es);
    forall i | 0 <= i < |es|
      ensures EncodedEventOk(|table|, EncodeEvent(passcodes, es[i]).value)
      ensures EncodeEvent(passcodes, es[i]).value.eventIndex == es[i].eventIndex
    {
      EventEncodes(passcodes, es[i]);
      if es[i].publicPasscode.Some? {
        IdIsRank(passcodes, es[i].publicPasscode.value);
      }
    }
  }

  /** Ranks keep the decks in order. */
  lemma DeckStaysValid(passcodes: seq<U32>, d: Deck)
    requires PasscodesOk(passcodes) && DeckOk(d) && EncodeDeck(passcodes, d).Done?
    ensures EncodedDeckOk(EncodeDeck(passcodes, d).value)
  {
    hide PasscodesOk, IdOf, EncodeDeck;
    DeckEncodes(passcodes, d);
    CodesStayOrdered(passcodes, d.mainDeck, EncodeDeck(passcodes, d).value.mainDeck);
    CodesStayOrdered(passcodes, d.extraDeck, EncodeDeck(passcodes, d).value.extraDeck);
  }

  lemma CodesStayOrdered(passcodes: seq<U32>, codes: seq<U32>, ids: seq<U32>)
    requires PasscodesOk(passcodes) && |ids| == |codes| && Ordered(CodeLe, codes)
    requires forall i :: 0 <= i < |codes| ==> IdOf(passcodes, codes[i]) == Some(ids[i])
    ensures Ordered(CodeLe, ids) && forall i :: 0 <= i < |ids| ==> ids[i] >= 2
  {
    hide PasscodesOk, IdOf;
    forall i | 0 <= i < |ids| ensures ids[i] >= 2 {
      IdsAscend(passcodes, codes[i], codes[i]);
    }
    forall i | 0 < i < |ids| ensures CodeLe(ids[i - 1], ids[i]) {
      assert CodeLe(codes[i - 1], codes[i]);
      IdsAscend(passcodes, codes[i - 1], codes[i]);
      IdsAscend(passcodes, codes[i], codes[i - 1]);
    }
  }

  lemma StateStaysValid(passcodes: seq<U32>, table: seq<Located>, perspective: Byte, references: seq<Located>,
    s: LogicalState)
    requires PasscodesOk(passcodes) && TableOk(table) && ReferencesOk(table, references)
    requires LogicalStateOk(table, perspective, s) && EncodeState(passcodes, references, s).Done?
    ensures StateOk(Map(ValueOf(), table), perspective, EncodeState(passcodes, references, s).value)
  {
    hide Each, PasscodesOk, TableOk, LogicalEntitiesOk, LogicalRelationshipsOk, LogicalLinkOk, LogicalEventsOk,
      DeckOk, EncodeDeck, EntitiesOk, RelationOk, EncodedLinkOk, EventsOk, EncodedDeckOk, LocatorText, LexLess,
      OptOk, Ordered;
    EntitiesStayValid(passcodes, table, s.entities);
    var encoded := Each(EntityEncoder(passcodes), s.entities).value;
    RelationshipsStayValid(table, s.entities, encoded, s.relationships);
    RelationshipCount(table, s);
    forall i | 0 <= i < |s.links| ensures EncodedLinkOk(|table|, encoded, EncodeLink(s.links[i])) {
      LinkStaysValid(table, s.entities, encoded, s.links[i]);
    }
    EventsStayValid(passcodes, table, s.events);
    DeckStaysValid(passcodes, s.context.ownDeck);
    DeckStaysValid(passcodes, s.context.opponentDeck);
  }

  lemma RelationshipCount(table: seq<Located>, s: LogicalState)
    requires LogicalRelationshipsOk(table, s.entities, s.relationships)
    ensures |s.relationships| <= U32_MAX
  {
  }

  lemma ChoiceStaysValid(c: Choice)
    requires LogicalChoiceOk(c)
    ensures EncodedChoiceOk(EncodeChoice(c)) && PublicChoiceOf(EncodeChoice(c)) == c
  {
  }

  lemma CardRefStaysValid(table: seq<Located>, es: seq<LogicalEntity>, encoded: seq<Entity<nat>>, r: LogicalCardRef)
    requires TableOk(table) && LogicalEntitiesOk(table, es) && Follows(es, encoded)
      && CurrentRefOk(table, es, r.reference)
    ensures CardRefOk(|table|, encoded, EncodeCardRef(r))
    ensures PublicRefOf(Map(ValueOf(), table), EncodeCardRef(r)) == CardReference(r.kind, r.reference.locator.value)
  {
    hide TableOk, LogicalEntitiesOk, Follows, RefOk, LocatorText;
    RefStaysValid(table, es, encoded, r.reference);
  }

  /** An encoded candidate stands for the action the logical one describes, so its routing key
      still is its own. */
  lemma CandidateStaysValid(table: seq<Located>, es: seq<LogicalEntity>, encoded: seq<Entity<nat>>, c: LogicalCandidate)
    requires TableOk(table) && LogicalEntitiesOk(table, es) && Follows(es, encoded)
    requires LogicalCandidateOk(table, es, c) && EncodeCandidate(c).Done?
    ensures CandidateOk(|table|, encoded, EncodeCandidate(c).value)
    ensures ActionOf(Map(ValueOf(), table), encoded, EncodeCandidate(c).value) == LogicalAction(c)
  {
    hide TableOk, LogicalEntitiesOk, Follows, CurrentRefOk, CardRefOk, EncodeCardRef, PublicRefOf, EncodedChoiceOk,
      EncodeChoice, PublicChoiceOf, LogicalChoiceOk, ContinuationCode, ContinuationBytes, ActionKindBytes;
    if c.choice.Some? {
      ChoiceStaysValid(c.choice.value);
    }
    if c.source.Some? {
      CardRefStaysValid(table, es, encoded, c.source.value);
    }
    if c.target.Some? {
      CardRefStaysValid(table, es, encoded, c.target.value);
    }
  }

  lemma CandidatesStayValid(table: seq<Located>, es: seq<LogicalEntity>, encoded: seq<Entity<nat>>,
    cs: seq<LogicalCandidate>, keys: seq<Bytes>)
    requires TableOk(table) && LogicalEntitiesOk(table, es) && Follows(es, encoded)
    requires LogicalCandidatesOk(table, es, cs, keys) && Each(EncodeCandidate, cs).Done?
    ensures var candidates := Each(EncodeCandidate, cs).value;
      && 0 < |candidates| == |keys| <= U32_MAX
      && forall i :: 0 <= i < |candidates| ==> RoutingOk(Map(ValueOf(), table), encoded, candidates[i], keys[i])
  {
    hide Each, TableOk, LogicalEntitiesOk, Follows, LogicalCandidateOk, CandidateOk, ActionOf, LogicalAction,
      EncodeCandidate, ActionOk, KeyOf;
    EachDone(EncodeCandidate, cs);
    forall i | 0 <= i < |cs|
      ensures RoutingOk(Map(ValueOf(), table), encoded, EncodeCandidate(cs[i]).value, keys[i])
    {
      CandidateStaysValid(table, es, encoded, cs[i]);
      assert KeyMatches(cs[i], keys[i]);
    }
  }

  lemma IdentityIsValid(sha256: Bytes -> Bytes, passcodes: seq<U32>)
    requires IsDigest(sha256)
    ensures var identity := Identity(sha256, passcodes);
      |identity| == 25 + 64 && identity[..25] == Ascii(IDENTITY_PREFIX) && DigestOk(identity[25..])
  {
    hide VocabularyBytes, Ascii;
    assert IsHexDigest(sha256(VocabularyBytes(passcodes)));
  }

  lemma HeaderStaysValid(sha256: Bytes -> Bytes, passcodes: seq<U32>, l: LogicalModelInput, e: EncodedModelInput)
    requires IsDigest(sha256) && LogicalHeaderOk(l)
    requires e.vocabularyIdentity == Identity(sha256, passcodes) && e.observationDigest == l.observationDigest
    requires e.perspectivePlayer == l.perspectivePlayer && e.table == Map(ValueOf(), l.table)
    requires e.contextKindCode == KindCode(l.contextKind) && e.contextPlayer == l.contextPlayer
    ensures HeaderOk(e)
  {
    hide Identity, LocatorText, LexLess, DigestOk, RequestKindCode, Utf8Octets, Ascii;
    IdentityIsValid(sha256, passcodes);
  }

  lemma DigestStaysValid(sha256: Bytes -> Bytes, l: LogicalModelInput, e: EncodedModelInput)
    requires IsDigest(sha256) && LogicalHeaderOk(l) && LogicalDigestOk(sha256, l.contextKind, l.routingKeys,
      l.domainDigest)
    requires e.contextKindCode == KindCode(l.contextKind) && e.domainDigest == l.domainDigest
      && e.routingKeys == l.routingKeys
    ensures DomainDigestOk(sha256, e)
  {
    hide LocatorText, LexLess, DigestOk, RequestKindCode, RequestKindBytes, Utf8Octets, DomainOk, PutDomain,
      TableOk, ReferencesOk;
  }

  /** The check after encoding can never fail: whatever a valid input encodes to satisfies
      everything that check asks. */
  lemma EncodingIsValid(sha256: Bytes -> Bytes, passcodes: seq<U32>, l: LogicalModelInput)
    requires IsDigest(sha256) && PasscodesOk(passcodes) && LogicalOk(sha256, l) && Encode(sha256, passcodes, l).Done?
    ensures EncodedOk(sha256, Encode(sha256, passcodes, l).value)
  {
    hide Each, EncodeState, PasscodesOk, LogicalStateOk, TableOk, ReferencesOk, LogicalCandidatesOk,
      LogicalDigestOk, KeysOk, StateOk, RoutingOk, HeaderOk, DomainDigestOk, Identity, KindCode, IsDigest;
    var e := Encode(sha256, passcodes, l).value;
    HeaderStaysValid(sha256, passcodes, l, e);
    DigestStaysValid(sha256, l, e);
    StateStaysValid(passcodes, l.table, l.perspectivePlayer, l.references, l.state);
    StateFollows(passcodes, l.table, l.perspectivePlayer, l.references, l.state);
    CandidatesStayValid(l.table, l.state.entities, e.state.entities, l.candidates, l.routingKeys);
  }

  lemma StateFollows(passcodes: seq<U32>, table: seq<Located>, perspective: Byte, references: seq<Located>,
    s: LogicalState)
    requires PasscodesOk(passcodes) && LogicalStateOk(table, perspective, s)
      && EncodeState(passcodes, references, s).Done?
    ensures Follows(s.entities, EncodeState(passcodes, references, s).value.entities)
      && LogicalEntitiesOk(table, s.entities)
  {
    hide Each, PasscodesOk, LogicalEntitiesOk, LogicalRelationshipsOk, LogicalLinksOk, LogicalEventsOk, DeckOk,
      GlobalsOk, ListOk, EntitiesOk;
    EntitiesStayValid(passcodes, table, s.entities);
  }
}
