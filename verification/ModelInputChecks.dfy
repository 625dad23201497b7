/** The checks on the two model inputs as they run: one loop a collection, leaving at the first
    element that fails. */
module ModelInputChecks {
  import opened Bytes
  import opened Text
  import opened SafeState
  import opened EncodedState
  import opened EncodedInput
  import opened LogicalInput

  // ---------------------------------------------------------------- shared by both

  method ValidLocator(value: Bytes) returns (ok: bool)
    ensures ok <==> LocatorText(value)
  {
    hide Utf8Octets, Utf8Grammar, IsLocator;
    var text := ValidUtf8(value);
    return text && IsLocator(value);
  }

  method InOrder<T>(le: (T, T) -> bool, xs: seq<T>) returns (ok: bool)
    ensures ok <==> Ordered(le, xs)
  {
    for index := 0 to |xs|
      invariant forall i :: 0 < i < index ==> le(xs[i - 1], xs[i])
    {
      if index != 0 && !le(xs[index - 1], xs[index]) {
        return false;
      }
    }
    return true;
  }

  method AtMost(codes: seq<Byte>, largest: Byte) returns (ok: bool)
    ensures ok <==> forall i :: 0 <= i < |codes| ==> codes[i] <= largest
  {
    for index := 0 to |codes|
      invariant forall i :: 0 <= i < index ==> codes[i] <= largest
    {
      if codes[index] > largest {
        return false;
      }
    }
    return true;
  }

  // ---------------------------------------------------------------- the logical input

  method LocatedIsOk(table: seq<Located>, p: Located) returns (ok: bool)
    ensures ok <==> LocatedOk(table, p)
  {
    hide LocatorText;
    var valid := ValidLocator(p.value);
    return valid && p.ordinal < |table| && table[p.ordinal].value == p.value;
  }

  method CurrentRefIsOk(table: seq<Located>, entities: seq<LogicalEntity>, r: Ref<Located>) returns (ok: bool)
    ensures ok <==> CurrentRefOk(table, entities, r)
  {
    hide LocatedOk;
    ok := LocatedIsOk(table, r.locator);
    if ok && r.entity.Some? {
      ok := r.entity.value < |entities| && entities[r.entity.value].card.locator == r.locator.value;
    }
  }

  method TableIsOk(table: seq<Located>) returns (ok: bool)
    ensures ok <==> TableOk(table)
  {
    hide LocatorText, LexLess;
    if |table| > U32_MAX {
      return false;
    }
    for index := 0 to |table|
      invariant forall i :: 0 <= i < index ==> LocatorText(table[i].value) && table[i].ordinal == i
      invariant forall i :: 0 < i < index ==> LexLess(table[i - 1].value, table[i].value)
    {
      var valid := ValidLocator(table[index].value);
      if !valid || table[index].ordinal != index
        || (index != 0 && !LexLess(table[index - 1].value, table[index].value))
      {
        return false;
      }
    }
    return true;
  }

  method ReferencesAreOk(table: seq<Located>, rs: seq<Located>) returns (ok: bool)
    ensures ok <==> ReferencesOk(table, rs)
  {
    hide LocatedOk, LexLess;
    if |rs| > U32_MAX {
      return false;
    }
    for index := 0 to |rs|
      invariant forall i :: 0 <= i < index ==> LocatedOk(table, rs[i])
    {
      var valid := LocatedIsOk(table, rs[index]);
      if !valid {
        return false;
      }
    }
    for index := 0 to |rs|
      invariant forall i :: 0 < i < index ==> LexLess(rs[i - 1].value, rs[i].value)
    {
      if index != 0 && !LexLess(rs[index - 1].value, rs[index].value) {
        return false;
      }
    }
    return true;
  }

  method HeaderIsOk(l: LogicalModelInput) returns (ok: bool)
    ensures ok <==> LogicalHeaderOk(l)
  {
    hide DigestOk, Utf8Octets, Utf8Grammar, RequestKindCode, TableOk, ReferencesOk;
    if !DigestOk(l.observationDigest) || l.perspectivePlayer > 1 || !PlayerFieldOk(l.contextPlayer)
      || (l.domainDigest.Some? && !DigestOk(l.domainDigest.value))
    {
      return false;
    }
    if l.contextKind.Some? {
      var text := ValidUtf8(l.contextKind.value);
      if !text || RequestKindCode(l.contextKind.value, 1).None? {
        return false;
      }
    }
    ok := TableIsOk(l.table);
    if ok {
      ok := ReferencesAreOk(l.table, l.references);
    }
  }

  method PropertiesAreOk(p: Option<CardProperties>) returns (ok: bool)
    ensures ok <==> OptOk(PropertiesOk, p)
  {
    hide MarkerLe, CounterLe;
    if p.None? {
      return true;
    }
    if |p.value.linkMarkers| > U32_MAX || |p.value.counters| > U32_MAX {
      return false;
    }
    ok := InOrder(MarkerLe, p.value.linkMarkers);
    if ok {
      ok := InOrder(CounterLe, p.value.counters);
    }
  }

  method CardIsOk(table: seq<Located>, e: LogicalEntity) returns (ok: bool)
    ensures ok <==> LogicalCardOk(table, e)
  {
    hide LocatedOk, PropertiesOk;
    var card := e.card;
    ok := LocatedIsOk(table, Located(card.locator, e.ordinal));
    if !ok || !PlayerFieldOk(card.owner) || !PlayerFieldOk(card.controller) || (card.faceUp && card.faceDown)
      || (!card.identityKnown && (card.passcode.Some? || card.printed.Some? || card.current.Some?))
    {
      return false;
    }
    ok := PropertiesAreOk(card.printed);
    if ok {
      ok := PropertiesAreOk(card.current);
    }
  }

  method LogicalEntitiesAreOk(table: seq<Located>, es: seq<LogicalEntity>) returns (ok: bool)
    ensures ok <==> LogicalEntitiesOk(table, es)
  {
    hide LogicalCardOk, LexLess;
    if |es| > U32_MAX {
      return false;
    }
    for index := 0 to |es|
      invariant forall i :: 0 <= i < index ==> LogicalCardOk(table, es[i]) && es[i].entityOrdinal == i
      invariant forall i :: 0 < i < index ==> LexLess(es[i - 1].card.locator, es[i].card.locator)
    {
      var valid := CardIsOk(table, es[index]);
      if !valid || es[index].entityOrdinal != index
        || (index != 0 && !LexLess(es[index - 1].card.locator, es[index].card.locator))
      {
        return false;
      }
    }
    return true;
  }

  method LogicalZonesAreOk(zones: seq<ObservedZone>) returns (ok: bool)
    ensures ok <==> ListOk(ZoneOk, ZoneLe, zones)
  {
    hide ZoneLe;
    if |zones| > U32_MAX {
      return false;
    }
    for index := 0 to |zones|
      invariant forall i :: 0 <= i < index ==> ZoneOk(zones[i])
      invariant forall i :: 0 < i < index ==> ZoneLe(zones[i - 1], zones[i])
    {
      if zones[index].player > 1 || (index != 0 && !ZoneLe(zones[index - 1], zones[index])) {
        return false;
      }
    }
    return true;
  }

  method LogicalRelationshipsAreOk(table: seq<Located>, es: seq<LogicalEntity>, rs: seq<LogicalRelationship>)
    returns (ok: bool)
    ensures ok <==> LogicalRelationshipsOk(table, es, rs)
  {
    hide CurrentRefOk, LogicalRelationshipLe;
    if |rs| > U32_MAX {
      return false;
    }
    for index := 0 to |rs|
      invariant forall i :: 0 <= i < index ==>
        CurrentRefOk(table, es, rs[i].source) && CurrentRefOk(table, es, rs[i].target)
      invariant forall i :: 0 < i < index ==> LogicalRelationshipLe(rs[i - 1], rs[i])
    {
      var source := CurrentRefIsOk(table, es, rs[index].source);
      var target := CurrentRefIsOk(table, es, rs[index].target);
      if !source || !target || (index != 0 && !LogicalRelationshipLe(rs[index - 1], rs[index])) {
        return false;
      }
    }
    return true;
  }

  method LogicalLinkIsOk(table: seq<Located>, es: seq<LogicalEntity>, l: LogicalLink) returns (ok: bool)
    ensures ok <==> LogicalLinkOk(table, es, l)
  {
    hide CurrentRefOk, RefLe;
    if !PlayerFieldOk(l.activatingPlayer) || |l.targets| > U32_MAX {
      return false;
    }
    if l.source.Some? {
      var source := CurrentRefIsOk(table, es, l.source.value);
      if !source {
        return false;
      }
    }
    for index := 0 to |l.targets|
      invariant forall i :: 0 <= i < index ==> CurrentRefOk(table, es, l.targets[i])
      invariant forall i :: 0 < i < index ==> RefLe(l.targets[i - 1], l.targets[i])
    {
      var target := CurrentRefIsOk(table, es, l.targets[index]);
      if !target || (index != 0 && !RefLe(l.targets[index - 1], l.targets[index])) {
        return false;
      }
    }
    return true;
  }

  method LogicalLinksAreOk(table: seq<Located>, es: seq<LogicalEntity>, ls: seq<LogicalLink>) returns (ok: bool)
    ensures ok <==> LogicalLinksOk(table, es, ls)
  {
    hide LogicalLinkOk;
    if |ls| > U32_MAX {
      return false;
    }
    for index := 0 to |ls|
      invariant forall i :: 0 <= i < index ==> LogicalLinkOk(table, es, ls[i])
    {
      var valid := LogicalLinkIsOk(table, es, ls[index]);
      if !valid {
        return false;
      }
    }
    return true;
  }

  method LogicalEventIsOk(table: seq<Located>, e: LogicalEvent) returns (ok: bool)
    ensures ok <==> LogicalEventOk(table, e)
  {
    hide LocatedOk, LocatedLe;
    if !PlayerFieldOk(e.player) || |e.targets| > U32_MAX {
      return false;
    }
    if e.entity.Some? {
      var entity := LocatedIsOk(table, e.entity.value);
      if !entity {
        return false;
      }
    }
    for index := 0 to |e.targets|
      invariant forall i :: 0 <= i < index ==> LocatedOk(table, e.targets[i])
      invariant forall i :: 0 < i < index ==> LocatedLe(e.targets[i - 1], e.targets[i])
    {
      var target := LocatedIsOk(table, e.targets[index]);
      if !target || (index != 0 && !LocatedLe(e.targets[index - 1], e.targets[index])) {
        return false;
      }
    }
    return true;
  }

  method LogicalEventsAreOk(table: seq<Located>, es: seq<LogicalEvent>) returns (ok: bool)
    ensures ok <==> LogicalEventsOk(table, es)
  {
    hide LogicalEventOk;
    if |es| > U32_MAX {
      return false;
    }
    for index := 0 to |es|
      invariant forall i :: 0 <= i < index ==> LogicalEventOk(table, es[i])
      invariant forall i :: 0 < i < index ==> es[i - 1].eventIndex < es[i].eventIndex
    {
      var valid := LogicalEventIsOk(table, es[index]);
      if !valid || (index != 0 && es[index].eventIndex <= es[index - 1].eventIndex) {
        return false;
      }
    }
    return true;
  }

  method DeckIsOk(d: Deck) returns (ok: bool)
    ensures ok <==> DeckOk(d)
  {
    if (!d.known && (d.mainDeck != [] || d.extraDeck != [])) || |d.mainDeck| > U32_MAX || |d.extraDeck| > U32_MAX {
      return false;
    }
    ok := InOrder(CodeLe, d.mainDeck);
    if ok {
      ok := InOrder(CodeLe, d.extraDeck);
    }
  }

  method LogicalStateIsOk(table: seq<Located>, perspective: Byte, s: LogicalState) returns (ok: bool)
    ensures ok <==> LogicalStateOk(table, perspective, s)
  {
    hide ZoneLe, ZoneOk, LogicalEntitiesOk, LogicalRelationshipsOk, LogicalLinksOk, LogicalEventsOk, DeckOk;
    if !PlayerFieldOk(s.globals.playerToAct) || !PlayerFieldOk(s.globals.turnPlayer)
      || |s.globals.lifePoints| > U32_MAX
    {
      return false;
    }
    ok := LogicalZonesAreOk(s.zones);
    if ok {
      ok := LogicalEntitiesAreOk(table, s.entities);
    }
    if ok {
      ok := LogicalRelationshipsAreOk(table, s.entities, s.relationships);
    }
    if ok {
      ok := LogicalLinksAreOk(table, s.entities, s.links);
    }
    if ok {
      ok := LogicalEventsAreOk(table, s.events);
    }
    if ok {
      ok := DeckIsOk(s.context.ownDeck);
    }
    if ok {
      ok := DeckIsOk(s.context.opponentDeck);
    }
    ok := ok && s.context.perspectivePlayer == perspective;
  }

  // ---------------------------------------------------------------- the encoded input

  method EncodedHeaderIsOk(e: EncodedModelInput) returns (ok: bool)
    ensures ok <==> HeaderOk(e)
  {
    hide DigestOk, LocatorText, LexLess;
    if |e.vocabularyIdentity| != 25 + 64 || e.vocabularyIdentity[..25] != Ascii(CardVocabulary.IDENTITY_PREFIX)
      || !DigestOk(e.vocabularyIdentity[25..]) || !DigestOk(e.observationDigest) || e.perspectivePlayer > 1
      || |e.table| > U32_MAX
    {
      return false;
    }
    for index := 0 to |e.table|
      invariant forall i :: 0 <= i < index ==> LocatorText(e.table[i])
      invariant forall i :: 0 < i < index ==> LexLess(e.table[i - 1], e.table[i])
    {
      var valid := ValidLocator(e.table[index]);
      if !valid || (index != 0 && !LexLess(e.table[index - 1], e.table[index])) {
        return false;
      }
    }
    return (e.contextKindCode.Some? ==> 1 <= e.contextKindCode.value <= 14) && PlayerFieldOk(e.contextPlayer);
  }

  method OrdinalsAreBelow(ordinals: seq<nat>, size: nat) returns (ok: bool)
    ensures ok <==> forall i :: 0 <= i < |ordinals| ==> ordinals[i] < size
  {
    for index := 0 to |ordinals|
      invariant forall i :: 0 <= i < index ==> ordinals[i] < size
    {
      if ordinals[index] >= size {
        return false;
      }
    }
    return true;
  }

  method EncodedZonesAreOk(zones: seq<EncodedZone>) returns (ok: bool)
    ensures ok <==> forall i :: 0 <= i < |zones| ==> zones[i].player <= 1 && zones[i].kindCode <= 10
  {
    for index := 0 to |zones|
      invariant forall i :: 0 <= i < index ==> zones[i].player <= 1 && zones[i].kindCode <= 10
    {
      if zones[index].player > 1 || zones[index].kindCode > 10 {
        return false;
      }
    }
    return true;
  }

  method EncodedPropertiesAreOk(p: Option<EncodedProperties>) returns (ok: bool)
    ensures ok <==> (p.Some? ==> EncodedPropertiesOk(p.value))
  {
    if p.None? {
      return true;
    }
    if |p.value.markerCodes| > U32_MAX || |p.value.counters| > U32_MAX {
      return false;
    }
    ok := AtMost(p.value.markerCodes, 7);
    if ok {
      ok := InOrder(CodeLeByte, p.value.markerCodes);
    }
    if ok {
      ok := InOrder(CounterLe, p.value.counters);
    }
  }

  method EntityIsOk(table: seq<Bytes>, e: Entity<nat>) returns (ok: bool)
    ensures ok <==> EntityOk(table, e)
  {
    hide EncodedPropertiesOk;
    if e.locator >= |table| || (e.identityKnown && e.vocabularyId < 2)
      || (!e.identityKnown && e.vocabularyId != UNKNOWN_ID) || e.zoneCode > 10
      || (e.positionCode != 0 && e.positionCode != 1 && e.positionCode != 2 && e.positionCode != 4
        && e.positionCode != 8)
      || !PlayerFieldOk(e.owner) || !PlayerFieldOk(e.controller) || (e.faceUp && e.faceDown)
      || (!e.identityKnown && (e.printed.Some? || e.current.Some?))
    {
      return false;
    }
    ok := EncodedPropertiesAreOk(e.printed);
    if ok {
      ok := EncodedPropertiesAreOk(e.current);
    }
  }

  method EntitiesAreOk(table: seq<Bytes>, es: seq<Entity<nat>>) returns (ok: bool)
    ensures ok <==> EntitiesOk(table, es)
  {
    hide LexLess;
    if |es| > U32_MAX {
      return false;
    }
    for index := 0 to |es|
      invariant forall i :: 0 <= i < index ==> EntityOk(table, es[i])
      invariant forall i :: 0 < i < index ==> LexLess(table[es[i - 1].locator], table[es[i].locator])
    {
      var valid := EntityIsOk(table, es[index]);
      if !valid || (index != 0 && !LexLess(table[es[index - 1].locator], table[es[index].locator])) {
        return false;
      }
    }
    return true;
  }

  method RelationsAreOk(tableSize: nat, es: seq<Entity<nat>>, rs: seq<Relation<nat>>) returns (ok: bool)
    ensures ok <==> forall i :: 0 <= i < |rs| ==> RelationOk(tableSize, es, rs[i])
  {
    hide RefOk;
    for index := 0 to |rs|
      invariant forall i :: 0 <= i < index ==> RelationOk(tableSize, es, rs[i])
    {
      if rs[index].kindCode > 2 || !RefOk(tableSize, es, rs[index].source) || !RefOk(tableSize, es, rs[index].target) {
        return false;
      }
    }
    return true;
  }

  method LinkIsOk(tableSize: nat, es: seq<Entity<nat>>, l: Link<nat>) returns (ok: bool)
    ensures ok <==> EncodedLinkOk(tableSize, es, l)
  {
    hide RefOk;
    if !PlayerFieldOk(l.activatingPlayer) || (l.activationZoneCode.Some? && l.activationZoneCode.value > 10)
      || |l.targets| > U32_MAX || (l.source.Some? && !RefOk(tableSize, es, l.source.value))
    {
      return false;
    }
    for index := 0 to |l.targets|
      invariant forall i :: 0 <= i < index ==> RefOk(tableSize, es, l.targets[i])
    {
      if !RefOk(tableSize, es, l.targets[index]) {
        return false;
      }
    }
    return true;
  }

  method LinksAreOk(tableSize: nat, es: seq<Entity<nat>>, ls: seq<Link<nat>>) returns (ok: bool)
    ensures ok <==> forall i :: 0 <= i < |ls| ==> EncodedLinkOk(tableSize, es, ls[i])
  {
    hide EncodedLinkOk;
    for index := 0 to |ls|
      invariant forall i :: 0 <= i < index ==> EncodedLinkOk(tableSize, es, ls[i])
    {
      var valid := LinkIsOk(tableSize, es, ls[index]);
      if !valid {
        return false;
      }
    }
    return true;
  }

  method EventIsOk(tableSize: nat, e: Event<nat>) returns (ok: bool)
    ensures ok <==> EncodedEventOk(tableSize, e)
  {
    if e.kindCode > 22 || !PlayerFieldOk(e.player) || (e.locator.Some? && e.locator.value >= tableSize)
      || (e.fromZoneCode.Some? && e.fromZoneCode.value > 10) || (e.toZoneCode.Some? && e.toZoneCode.value > 10)
      || (e.vocabularyId.Some? && e.vocabularyId.value < 2) || |e.targets| > U32_MAX
    {
      return false;
    }
    ok := OrdinalsAreBelow(e.targets, tableSize);
  }

  method EventsAreOk(tableSize: nat, es: seq<Event<nat>>) returns (ok: bool)
    ensures ok <==> EventsOk(tableSize, es)
  {
    hide EncodedEventOk;
    if |es| > U32_MAX {
      return false;
    }
    for index := 0 to |es|
      invariant forall i :: 0 <= i < index ==> EncodedEventOk(tableSize, es[i])
      invariant forall i :: 0 < i < index ==> es[i - 1].eventIndex < es[i].eventIndex
    {
      var valid := EventIsOk(tableSize, es[index]);
      if !valid || (index != 0 && es[index].eventIndex <= es[index - 1].eventIndex) {
        return false;
      }
    }
    return true;
  }

  method IdsAreKnown(ids: seq<U32>) returns (ok: bool)
    ensures ok <==> forall i :: 0 <= i < |ids| ==> ids[i] >= 2
  {
    for index := 0 to |ids|
      invariant forall i :: 0 <= i < index ==> ids[i] >= 2
    {
      if ids[index] < 2 {
        return false;
      }
    }
    return true;
  }

  method EncodedDeckIsOk(d: Deck) returns (ok: bool)
    ensures ok <==> EncodedDeckOk(d)
  {
    ok := DeckIsOk(d);
    if ok {
      ok := IdsAreKnown(d.mainDeck);
    }
    if ok {
      ok := IdsAreKnown(d.extraDeck);
    }
  }

  method StateIsOk(table: seq<Bytes>, perspective: Byte, s: State<nat>) returns (ok: bool)
    ensures ok <==> StateOk(table, perspective, s)
  {
    hide EntitiesOk, RelationOk, EncodedLinkOk, EventsOk, EncodedDeckOk;
    if |s.references| > U32_MAX || |s.globals.lifePoints| > U32_MAX || |s.zones| > U32_MAX
      || |s.relationships| > U32_MAX
      || |s.links| > U32_MAX || s.context.perspectivePlayer != perspective
    {
      return false;
    }
    ok := OrdinalsAreBelow(s.references, |table|);
    if ok {
      ok := EncodedZonesAreOk(s.zones);
    }
    if ok {
      ok := EntitiesAreOk(table, s.entities);
    }
    if ok {
      ok := RelationsAreOk(|table|, s.entities, s.relationships);
    }
    if ok {
      ok := LinksAreOk(|table|, s.entities, s.links);
    }
    if ok {
      ok := EventsAreOk(|table|, s.events);
    }
    if ok {
      ok := EncodedDeckIsOk(s.context.ownDeck);
    }
    if ok {
      ok := EncodedDeckIsOk(s.context.opponentDeck);
    }
  }
}
