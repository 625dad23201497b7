/** Reader and layout of the safe state undo each other, record by record. */
module SafeStateLaws {
  import opened Bytes
  import opened Text
  import opened SafeState

  /** Each pair of code tables is a bijection between the enumeration and its codes. */
  lemma ZoneCodes(z: SemanticZone, c: Byte)
    ensures DecodeZone(c) == Some(z) <==> ZoneCode(z) == c
  {
  }

  lemma PositionCodes(p: Position, c: Byte)
    ensures DecodePosition(c) == Some(p) <==> PositionCode(p) == c
  {
  }

  lemma MarkerCodes(m: LinkMarker, c: Byte)
    ensures DecodeMarker(c) == Some(m) <==> MarkerCode(m) == c
  {
  }

  lemma RelationshipCodes(r: RelationshipKind, c: Byte)
    ensures DecodeRelationship(c) == Some(r) <==> RelationshipCode(r) == c
  {
  }

  lemma EventKindCodes(e: VisibleEventKind, c: Byte)
    ensures DecodeEventKind(c) == Some(e) <==> EventKindCode(e) == c
  {
  }

  // ---------------------------------------------------------------- single fields

  lemma PlayerLaws()
    ensures Lawful(PlayerOk, PutU8, GetPlayer, 1)
  {
    FieldsComplete();
    hide PutU8, GetU8;
  }

  lemma ZoneCodeLaws()
    ensures Lawful(AnyOk, PutZoneCode, GetZoneCode, 1)
  {
    FieldsComplete();
    forall z, c ensures DecodeZone(c) == Some(z) <==> ZoneCode(z) == c { ZoneCodes(z, c); }
    hide PutU8, GetU8, DecodeZone, ZoneCode;
  }

  lemma PositionLaws()
    ensures Lawful(AnyOk, PutPositionCode, GetPositionCode, 1)
  {
    FieldsComplete();
    forall p, c ensures DecodePosition(c) == Some(p) <==> PositionCode(p) == c { PositionCodes(p, c); }
    hide PutU8, GetU8, DecodePosition, PositionCode;
  }

  lemma MarkerLaws()
    ensures Lawful(AnyOk, PutMarker, GetMarker, 1)
  {
    FieldsComplete();
    forall m, c ensures DecodeMarker(c) == Some(m) <==> MarkerCode(m) == c { MarkerCodes(m, c); }
    hide PutU8, GetU8, DecodeMarker, MarkerCode;
  }

  lemma RelationshipCodeLaws()
    ensures Lawful(AnyOk, PutRelationshipCode, GetRelationshipCode, 1)
  {
    FieldsComplete();
    forall r, c ensures DecodeRelationship(c) == Some(r) <==> RelationshipCode(r) == c { RelationshipCodes(r, c); }
    hide PutU8, GetU8, DecodeRelationship, RelationshipCode;
  }

  lemma EventKindLaws()
    ensures Lawful(AnyOk, PutEventKindCode, GetEventKindCode, 1)
  {
    FieldsComplete();
    forall e, c ensures DecodeEventKind(c) == Some(e) <==> EventKindCode(e) == c { EventKindCodes(e, c); }
    hide PutU8, GetU8, DecodeEventKind, EventKindCode;
  }

  lemma CounterLaws()
    ensures Lawful(AnyOk, PutCounter, GetCounter, 8)
  {
    FieldsComplete();
    hide PutU32, GetU32;
  }

  lemma LocatorLaws(utf8: bool)
    ensures Lawful(LocatorRule(utf8), PutString, LocatorGetter(utf8), 4)
  {
    StringLaws(utf8);
    hide GetString, PutString, TextOk, IsLocator;
  }

  // ---------------------------------------------------------------- Properties

  lemma MarkerListLaws()
    ensures ListLawful(AnyOk, PutMarker, GetMarker, MarkerLe, 1)
  {
    MarkerLaws();
    ListLaws(AnyOk, PutMarker, GetMarker, MarkerLe, 1);
  }

  lemma CounterListLaws()
    ensures ListLawful(AnyOk, PutCounter, GetCounter, CounterLe, 8)
  {
    CounterLaws();
    ListLaws(AnyOk, PutCounter, GetCounter, CounterLe, 8);
  }

  lemma PropertiesSound(b: Bytes)
    requires GetProperties(b).Some?
    ensures var (x, k) := GetProperties(b).value; PropertiesOk(x) && b == PutProperties(x, k) && |b| >= 1 + |k|
  {
    OptFieldLaws();
    MarkerListLaws();
    CounterListLaws();
    hide PutOpt, GetOpt, PutList, GetList, ListOk, PutU8, GetU8, PutU32, GetU32, PutU64, GetU64, PutI32, GetI32;
  }

  lemma PropertiesComplete(x: CardProperties, k: Bytes)
    requires PropertiesOk(x)
    ensures GetProperties(PutProperties(x, k)) == Some((x, k))
  {
    OptFieldLaws();
    MarkerListLaws();
    CounterListLaws();
    hide PutOpt, GetOpt, PutList, GetList, ListOk, PutU8, GetU8, PutU32, GetU32, PutU64, GetU64, PutI32, GetI32;
  }

  lemma PropertiesLaws()
    ensures Lawful(PropertiesOk, PutProperties, GetProperties, 1)
  {
    hide PutProperties, GetProperties, PropertiesOk;
    forall b | GetProperties(b).Some?
      ensures var (x, k) := GetProperties(b).value; PropertiesOk(x) && b == PutProperties(x, k) && |b| >= 1 + |k|
    {
      PropertiesSound(b);
    }
    forall x, k | PropertiesOk(x) ensures GetProperties(PutProperties(x, k)) == Some((x, k)) {
      PropertiesComplete(x, k);
    }
  }

  lemma OptPlayerLaws()
    ensures OptLawful(PlayerOk, PutU8, GetPlayer)
  {
    PlayerLaws();
    OptLaws(PlayerOk, PutU8, GetPlayer, 1);
  }

  lemma OptZoneLaws()
    ensures OptLawful(AnyOk, PutZoneCode, GetZoneCode)
  {
    ZoneCodeLaws();
    OptLaws(AnyOk, PutZoneCode, GetZoneCode, 1);
  }

  lemma OptLocatorLaws(utf8: bool)
    ensures OptLawful(LocatorRule(utf8), PutString, LocatorGetter(utf8))
  {
    LocatorLaws(utf8);
    OptLaws(LocatorRule(utf8), PutString, LocatorGetter(utf8), 4);
  }

  lemma OptPropertiesLaws()
    ensures OptLawful(PropertiesOk, PutProperties, GetProperties)
  {
    PropertiesLaws();
    hide PutProperties, GetProperties, PropertiesOk;
    OptLaws(PropertiesOk, PutProperties, GetProperties, 1);
  }

  lemma NumberListLaws(rel: (U32, U32) -> bool)
    ensures ListLawful(AnyOk, PutU32, GetU32, rel, 4)
  {
    FieldLaws();
    ListLaws(AnyOk, PutU32, GetU32, rel, 4);
  }

  lemma TargetListLaws(utf8: bool)
    ensures ListLawful(LocatorRule(utf8), PutString, LocatorGetter(utf8), LexLe, 4)
  {
    LocatorLaws(utf8);
    ListLaws(LocatorRule(utf8), PutString, LocatorGetter(utf8), LexLe, 4);
  }

  // ---------------------------------------------------------------- globals

  lemma GlobalsSound(b: Bytes)
    requires GetGlobals(b).Some?
    ensures var (x, k) := GetGlobals(b).value; GlobalsOk(x) && b == PutGlobals(x, k) && |b| >= 23 + |k|
  {
    OptFieldLaws();
    OptPlayerLaws();
    NumberListLaws(AnyNumbers);
    hide Complete, OptComplete, ListComplete;
    hide PutOpt, GetOpt, PutList, GetList, ListOk, PutU8, GetU8, PutU32, GetU32, PutU64, GetU64, PutI32, GetI32,
      PutBool, GetBool;
  }

  lemma GlobalsComplete(x: Globals, k: Bytes)
    requires GlobalsOk(x)
    ensures GetGlobals(PutGlobals(x, k)) == Some((x, k))
  {
    FieldsComplete();
    OptFieldLaws();
    OptPlayerLaws();
    NumberListLaws(AnyNumbers);
    hide Sound, Consumes, OptSound, ListSound;
    hide PutOpt, GetOpt, PutList, GetList, ListOk, PutU8, GetU8, PutU32, GetU32, PutU64, GetU64, PutI32, GetI32,
      PutBool, GetBool;
  }

  // ---------------------------------------------------------------- zone

  lemma ZoneSound(b: Bytes)
    requires GetZone(b).Some?
    ensures var (x, k) := GetZone(b).value; ZoneOk(x) && b == PutZone(x, k) && |b| >= 15 + |k|
  {
    PlayerLaws();
    ZoneCodeLaws();
    hide Complete, OptComplete, ListComplete;
    hide PutOpt, GetOpt, PutList, GetList, ListOk, PutU8, GetU8, PutU32, GetU32, PutU64, GetU64, PutI32, GetI32,
      PutBool, GetBool, PutZoneCode, GetZoneCode, GetPlayer;
  }

  lemma ZoneComplete(x: ObservedZone, k: Bytes)
    requires ZoneOk(x)
    ensures GetZone(PutZone(x, k)) == Some((x, k))
  {
    FieldsComplete();
    PlayerLaws();
    ZoneCodeLaws();
    hide Sound, Consumes, OptSound, ListSound;
    hide PutOpt, GetOpt, PutList, GetList, ListOk, PutU8, GetU8, PutU32, GetU32, PutU64, GetU64, PutI32, GetI32,
      PutBool, GetBool, PutZoneCode, GetZoneCode, GetPlayer;
  }

  lemma ZoneLaws()
    ensures Lawful(ZoneOk, PutZone, GetZone, 15)
  {
    hide PutZone, GetZone, ZoneOk;
    forall b | GetZone(b).Some?
      ensures var (x, k) := GetZone(b).value; ZoneOk(x) && b == PutZone(x, k) && |b| >= 15 + |k|
    {
      ZoneSound(b);
    }
    forall x, k | ZoneOk(x) ensures GetZone(PutZone(x, k)) == Some((x, k)) {
      ZoneComplete(x, k);
    }
  }

  // ---------------------------------------------------------------- card

  lemma CardParts(utf8: bool)
    ensures OptLawful(AnyOk, PutU32, GetU32) && OptLawful(PlayerOk, PutU8, GetPlayer)
    ensures OptLawful(PropertiesOk, PutProperties, GetProperties)
    ensures Lawful(LocatorRule(utf8), PutString, LocatorGetter(utf8), 4)
    ensures Lawful(AnyOk, PutZoneCode, GetZoneCode, 1) && Lawful(AnyOk, PutPositionCode, GetPositionCode, 1)
  {
    OptFieldLaws();
    OptPlayerLaws();
    OptPropertiesLaws();
    LocatorLaws(utf8);
    ZoneCodeLaws();
    PositionLaws();
  }

  lemma CardSound(utf8: bool, b: Bytes)
    requires GetCard(utf8, b).Some?
    ensures var (x, k) := GetCard(utf8, b).value; CardOk(utf8, x) && b == PutCard(x, k) && |b| >= 16 + |k|
  {
    CardParts(utf8);
    hide Complete, OptComplete, ListComplete;
    hide PutOpt, GetOpt, PutList, GetList, ListOk, PutU8, GetU8, PutU32, GetU32, PutU64, GetU64, PutI32, GetI32,
      PutBool, GetBool, PutZoneCode, GetZoneCode, PutPositionCode, GetPositionCode, PutString, GetLocator,
      LocatorOk, PropertiesOk;
  }

  lemma CardComplete(utf8: bool, x: ObservedCard, k: Bytes)
    requires CardOk(utf8, x)
    ensures GetCard(utf8, PutCard(x, k)) == Some((x, k))
  {
    FieldsComplete();
    CardParts(utf8);
    hide Sound, Consumes, OptSound, ListSound;
    hide PutOpt, GetOpt, PutList, GetList, ListOk, PutU8, GetU8, PutU32, GetU32, PutU64, GetU64, PutI32, GetI32,
      PutBool, GetBool, PutZoneCode, GetZoneCode, PutPositionCode, GetPositionCode, PutString, GetLocator,
      LocatorOk, PropertiesOk;
  }

  lemma CardLaws(utf8: bool)
    ensures Lawful(CardRule(utf8), PutCard, CardGetter(utf8), 16)
  {
    hide PutCard, GetCard, CardOk;
    forall b | GetCard(utf8, b).Some?
      ensures var (x, k) := GetCard(utf8, b).value; CardOk(utf8, x) && b == PutCard(x, k) && |b| >= 16 + |k|
    {
      CardSound(utf8, b);
    }
    forall x, k | CardOk(utf8, x) ensures GetCard(utf8, PutCard(x, k)) == Some((x, k)) {
      CardComplete(utf8, x, k);
    }
  }

  // ---------------------------------------------------------------- relationship

  lemma RelationshipSound(utf8: bool, b: Bytes)
    requires GetRelationship(utf8, b).Some?
    ensures var (x, k) := GetRelationship(utf8, b).value;
      RelationshipOk(utf8, x) && b == PutRelationship(x, k) && |b| >= 9 + |k|
  {

    hide Complete, OptComplete, ListComplete;
    hide PutOpt, GetOpt, PutList, GetList, ListOk, PutU8, GetU8, PutU32, GetU32, PutU64, GetU64, PutI32, GetI32,
      PutString, GetLocator, LocatorOk, PutRelationshipCode, GetRelationshipCode;
  }

  lemma RelationshipComplete(utf8: bool, x: Relationship, k: Bytes)
    requires RelationshipOk(utf8, x)
    ensures GetRelationship(utf8, PutRelationship(x, k)) == Some((x, k))
  {
    LocatorLaws(utf8);
    RelationshipCodeLaws();
    hide Sound, Consumes, OptSound, ListSound;
    hide PutOpt, GetOpt, PutList, GetList, ListOk, PutU8, GetU8, PutU32, GetU32, PutU64, GetU64, PutI32, GetI32,
      PutString, GetLocator, LocatorOk, PutRelationshipCode, GetRelationshipCode;
  }

  lemma RelationshipLaws(utf8: bool)
    ensures Lawful(RelationshipRule(utf8), PutRelationship, RelationshipGetter(utf8), 9)
  {
    hide PutRelationship, GetRelationship, RelationshipOk;
    forall b | GetRelationship(utf8, b).Some?
      ensures var (x, k) := GetRelationship(utf8, b).value;
        RelationshipOk(utf8, x) && b == PutRelationship(x, k) && |b| >= 9 + |k|
    {
      RelationshipSound(utf8, b);
    }
    forall x, k | RelationshipOk(utf8, x) ensures GetRelationship(utf8, PutRelationship(x, k)) == Some((x, k)) {
      RelationshipComplete(utf8, x, k);
    }
  }

  // ---------------------------------------------------------------- chain links

  lemma LinkParts(utf8: bool)
    ensures OptLawful(AnyOk, PutU64, GetU64) && OptLawful(PlayerOk, PutU8, GetPlayer)
    ensures OptLawful(LocatorRule(utf8), PutString, LocatorGetter(utf8))
    ensures OptLawful(AnyOk, PutZoneCode, GetZoneCode)
    ensures ListLawful(LocatorRule(utf8), PutString, LocatorGetter(utf8), LexLe, 4)
  {
    OptFieldLaws();
    OptPlayerLaws();
    OptLocatorLaws(utf8);
    OptZoneLaws();
    TargetListLaws(utf8);
  }

  lemma LinkSound(utf8: bool, b: Bytes)
    requires GetLink(utf8, b).Some?
    ensures var (x, k) := GetLink(utf8, b).value; LinkOk(utf8, x) && b == PutLink(x, k) && |b| >= 12 + |k|
  {
    LinkParts(utf8);
    hide Complete, OptComplete, ListComplete;
    hide PutOpt, GetOpt, PutList, GetList, ListOk, PutU8, GetU8, PutU32, GetU32, PutU64, GetU64, PutI32, GetI32,
      PutString, GetLocator, LocatorOk, PutZoneCode, GetZoneCode, GetPlayer;
  }

  lemma LinkComplete(utf8: bool, x: ChainLink, k: Bytes)
    requires LinkOk(utf8, x)
    ensures GetLink(utf8, PutLink(x, k)) == Some((x, k))
  {
    FieldsComplete();
    LinkParts(utf8);
    hide Sound, Consumes, OptSound, ListSound;
    hide PutOpt, GetOpt, PutList, GetList, ListOk, PutU8, GetU8, PutU32, GetU32, PutU64, GetU64, PutI32, GetI32,
      PutString, GetLocator, LocatorOk, PutZoneCode, GetZoneCode, GetPlayer;
  }

  lemma LinkLaws(utf8: bool)
    ensures Lawful(LinkRule(utf8), PutLink, LinkGetter(utf8), 12)
  {
    hide PutLink, GetLink, LinkOk;
    forall b | GetLink(utf8, b).Some?
      ensures var (x, k) := GetLink(utf8, b).value; LinkOk(utf8, x) && b == PutLink(x, k) && |b| >= 12 + |k|
    {
      LinkSound(utf8, b);
    }
    forall x, k | LinkOk(utf8, x) ensures GetLink(utf8, PutLink(x, k)) == Some((x, k)) {
      LinkComplete(utf8, x, k);
    }
  }

  // ---------------------------------------------------------------- visible events

  lemma EventSound(utf8: bool, b: Bytes)
    requires GetEvent(utf8, b).Some?
    ensures var (x, k) := GetEvent(utf8, b).value; EventOk(utf8, x) && b == PutEvent(x, k) && |b| >= 25 + |k|
  {
    OptFieldLaws();
    LinkParts(utf8);
    hide Complete, OptComplete, ListComplete;
    hide PutOpt, GetOpt, PutList, GetList, ListOk, PutU8, GetU8, PutU32, GetU32, PutU64, GetU64, PutI32, GetI32,
      PutString, GetLocator, LocatorOk, PutZoneCode, GetZoneCode, GetPlayer, PutEventKindCode, GetEventKindCode;
  }

  lemma EventComplete(utf8: bool, x: VisibleEvent, k: Bytes)
    requires EventOk(utf8, x)
    ensures GetEvent(utf8, PutEvent(x, k)) == Some((x, k))
  {
    FieldsComplete();
    OptFieldLaws();
    LinkParts(utf8);
    EventKindLaws();
    hide Sound, Consumes, OptSound, ListSound;
    hide PutOpt, GetOpt, PutList, GetList, ListOk, PutU8, GetU8, PutU32, GetU32, PutU64, GetU64, PutI32, GetI32,
      PutString, GetLocator, LocatorOk, PutZoneCode, GetZoneCode, GetPlayer, PutEventKindCode, GetEventKindCode;
  }

  lemma EventLaws(utf8: bool)
    ensures Lawful(EventRule(utf8), PutEvent, EventGetter(utf8), 25)
  {
    hide PutEvent, GetEvent, EventOk;
    forall b | GetEvent(utf8, b).Some?
      ensures var (x, k) := GetEvent(utf8, b).value; EventOk(utf8, x) && b == PutEvent(x, k) && |b| >= 25 + |k|
    {
      EventSound(utf8, b);
    }
    forall x, k | EventOk(utf8, x) ensures GetEvent(utf8, PutEvent(x, k)) == Some((x, k)) {
      EventComplete(utf8, x, k);
    }
  }

  // ---------------------------------------------------------------- deck

  lemma DeckSound(b: Bytes)
    requires GetDeck(b).Some?
    ensures var (x, k) := GetDeck(b).value; DeckOk(x) && b == PutDeck(x, k) && |b| >= 9 + |k|
  {
    NumberListLaws(CodeLe);
    hide Complete, OptComplete, ListComplete;
    hide PutOpt, GetOpt, PutList, GetList, ListOk, PutU8, GetU8, PutU32, GetU32, PutU64, GetU64, PutI32, GetI32,
      PutBool, GetBool;
  }

  lemma DeckComplete(x: Deck, k: Bytes)
    requires DeckOk(x)
    ensures GetDeck(PutDeck(x, k)) == Some((x, k))
  {
    FieldsComplete();
    NumberListLaws(CodeLe);
    hide Sound, Consumes, OptSound, ListSound;
    hide PutOpt, GetOpt, PutList, GetList, ListOk, PutU8, GetU8, PutU32, GetU32, PutU64, GetU64, PutI32, GetI32,
      PutBool, GetBool;
  }

  lemma DeckLaws()
    ensures Lawful(DeckOk, PutDeck, GetDeck, 9)
  {
    hide PutDeck, GetDeck, DeckOk;
    forall b | GetDeck(b).Some?
      ensures var (x, k) := GetDeck(b).value; DeckOk(x) && b == PutDeck(x, k) && |b| >= 9 + |k|
    {
      DeckSound(b);
    }
    forall x, k | DeckOk(x) ensures GetDeck(PutDeck(x, k)) == Some((x, k)) {
      DeckComplete(x, k);
    }
  }

  // ---------------------------------------------------------------- match context

  lemma DeckReads()
    ensures forall b {:trigger GetDeck(b)} :: GetDeck(b).Some? ==>
      && DeckOk(GetDeck(b).value.0) && b == PutDeck(GetDeck(b).value.0, GetDeck(b).value.1)
      && |b| >= 9 + |GetDeck(b).value.1|
  {
    forall b | GetDeck(b).Some?
      ensures var (x, k) := GetDeck(b).value; DeckOk(x) && b == PutDeck(x, k) && |b| >= 9 + |k|
    {
      DeckSound(b);
    }
  }

  lemma ContextSound(b: Bytes)
    requires GetContext(b).Some?
    ensures var (x, k) := GetContext(b).value; ContextOk(x) && b == PutContext(x, k) && |b| >= 29 + |k|
  {
    DeckLaws();
    DeckReads();
    hide Complete, OptComplete, ListComplete;
    hide PutOpt, GetOpt, PutList, GetList, ListOk, PutU8, GetU8, PutU32, GetU32, PutU64, GetU64, PutI32, GetI32,
      PutBool, GetBool, PutDeck, GetDeck, DeckOk, GetPlayer;
  }

  lemma ContextComplete(x: MatchContext, k: Bytes)
    requires ContextOk(x)
    ensures GetContext(PutContext(x, k)) == Some((x, k))
  {
    FieldsComplete();
    PlayerLaws();
    DeckLaws();
    hide Sound, Consumes, OptSound, ListSound;
    hide PutOpt, GetOpt, PutList, GetList, ListOk, PutU8, GetU8, PutU32, GetU32, PutU64, GetU64, PutI32, GetI32,
      PutBool, GetBool, PutDeck, GetDeck, DeckOk, GetPlayer;
  }

  // ---------------------------------------------------------------- the whole state

  lemma ElementLaws(utf8: bool)
    ensures Lawful(ZoneOk, PutZone, GetZone, 15)
    ensures Lawful(CardRule(utf8), PutCard, CardGetter(utf8), 16)
    ensures Lawful(RelationshipRule(utf8), PutRelationship, RelationshipGetter(utf8), 9)
    ensures Lawful(LinkRule(utf8), PutLink, LinkGetter(utf8), 12)
    ensures Lawful(EventRule(utf8), PutEvent, EventGetter(utf8), 25)
  {
    hide Lawful;
    ZoneLaws();
    CardLaws(utf8);
    RelationshipLaws(utf8);
    LinkLaws(utf8);
    EventLaws(utf8);
  }

  lemma LawsAreComplete(utf8: bool)
    ensures Complete(ZoneOk, PutZone, GetZone) && Complete(CardRule(utf8), PutCard, CardGetter(utf8))
    ensures Complete(RelationshipRule(utf8), PutRelationship, RelationshipGetter(utf8))
    ensures Complete(LinkRule(utf8), PutLink, LinkGetter(utf8))
      && Complete(EventRule(utf8), PutEvent, EventGetter(utf8))
  {
    ElementLaws(utf8);
    hide Sound, Complete, Consumes;
  }

  lemma HeaderSound(utf8: bool, b: Bytes)
    requires GetHeader(utf8, b).Some?
    ensures b == PutHeader(GetHeader(utf8, b).value.1)
  {
    hide GetString, PutString, Ascii;
    StringSound(utf8, b);
    StringSound(utf8, GetString(utf8, b).value.1);
  }

  lemma HeaderComplete(utf8: bool, k: Bytes)
    ensures GetHeader(utf8, PutHeader(k)) == Some(((), k))
  {
    AsciiIsUtf8(Ascii(SCHEMA_ID));
    hide GetString, PutString;
    StringComplete(utf8, Ascii(SCHEMA_ID), k);
    StringComplete(utf8, Ascii(SCHEMA_ID), PutString(Ascii(SCHEMA_ID), k));
  }

  /** Canonical in, canonical out: the reader accepts nothing but layouts of admitted views. */
  lemma ViewSound(utf8: bool, b: Bytes)
    requires GetView(utf8, b).Some?
    ensures var (v, k) := GetView(utf8, b).value; ViewOk(utf8, v) && b == PutView(v, k)
  {
    hide Lawful, PutHeader, GetHeader, PutList, GetList, ListOk, PutGlobals, GetGlobals, GlobalsOk, PutContext,
      GetContext, ContextOk, PutU32, GetU32;
    ElementLaws(utf8);
    HeaderSound(utf8, b);
    var (_, b1) := GetHeader(utf8, b).value;
    GlobalsSound(b1);
    var (_, b2) := GetGlobals(b1).value;
    ListReadsBack(ZoneOk, PutZone, GetZone, ZoneLe, 15, b2);
    var (_, b3) := GetList(GetZone, ZoneLe, b2).value;
    ListReadsBack(CardRule(utf8), PutCard, CardGetter(utf8), EntityLess, 16, b3);
    var (_, b4) := GetList(CardGetter(utf8), EntityLess, b3).value;
    ListReadsBack(RelationshipRule(utf8), PutRelationship, RelationshipGetter(utf8), RelationshipLe, 9, b4);
    var (_, b5) := GetList(RelationshipGetter(utf8), RelationshipLe, b4).value;
    var (_, b6) := GetU32(b5).value;
    ListReadsBack(LinkRule(utf8), PutLink, LinkGetter(utf8), AnyLinks, 12, b6);
    var (_, b7) := GetList(LinkGetter(utf8), AnyLinks, b6).value;
    ListReadsBack(EventRule(utf8), PutEvent, EventGetter(utf8), EventLess, 25, b7);
    var (_, b8) := GetList(EventGetter(utf8), EventLess, b7).value;
    ContextSound(b8);
  }

  /** Every admitted view is read back from its layout, whatever bytes follow. */
  lemma ViewComplete(utf8: bool, v: View, k: Bytes)
    requires ViewOk(utf8, v)
    ensures GetView(utf8, PutView(v, k)) == Some((v, k))
  {
    FieldsComplete();
    ElementLaws(utf8);
    LawsAreComplete(utf8);
    hide Lawful, Complete, PutHeader, GetHeader, PutList, GetList, ListOk, PutGlobals, GetGlobals, GlobalsOk,
      PutContext, GetContext, ContextOk, PutU32, GetU32;
    ContextComplete(v.matchContext, k);
    var k7 := PutContext(v.matchContext, k);
    ListIsRead(EventRule(utf8), PutEvent, EventGetter(utf8), EventLess, v.visibleEvents, k7);
    var k6 := PutList(PutEvent, v.visibleEvents, k7);
    ListIsRead(LinkRule(utf8), PutLink, LinkGetter(utf8), AnyLinks, v.chain.links, k6);
    var k5 := PutChain(v.chain, k6);
    ListIsRead(RelationshipRule(utf8), PutRelationship, RelationshipGetter(utf8), RelationshipLe, v.relationships, k5);
    var k4 := PutList(PutRelationship, v.relationships, k5);
    ListIsRead(CardRule(utf8), PutCard, CardGetter(utf8), EntityLess, v.entities, k4);
    var k3 := PutList(PutCard, v.entities, k4);
    ListIsRead(ZoneOk, PutZone, GetZone, ZoneLe, v.zones, k3);
    var k2 := PutList(PutZone, v.zones, k3);
    GlobalsComplete(v.globals, k2);
    HeaderComplete(utf8, PutGlobals(v.globals, k2));
  }
}
