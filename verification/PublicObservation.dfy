/** The public-observation container around a safe state: layout, plain reader and laws. */
module PublicObservation {
  import opened Bytes
  import opened Text
  import opened SafeState
  import opened SafeStateLaws
  import opened SafeStateCodec

  const CONTAINER_SCHEMA_ID: string := "ocgforge.public_environment_observation.v1"

  datatype Observation = Observation(
    perspectivePlayer: Byte, decisionIndex: U64, safeState: Bytes, kind: Option<Bytes>, player: Option<Byte>,
    references: seq<Bytes>)

  // ---------------------------------------------------------------- what the container admits

  predicate TokenOk(s: Bytes) {
    TextOk(true, s) && IsLowerToken(s)
  }

  /** `strict`: references are text and the safe state is canonical for the same perspective.
      Without it, any bytes of a 32-bit length pass. */
  predicate ObservationOk(strict: bool, o: Observation) {
    && PlayerOk(o.perspectivePlayer) && |o.safeState| <= U32_MAX
    && (strict ==> StateMatches(o.safeState, o.perspectivePlayer))
    && OptOk(TokenOk, o.kind) && OptOk(PlayerOk, o.player)
    && ListOk(LocatorRule(strict), LexLess, o.references)
  }

  predicate StateMatches(safeState: Bytes, perspective: Byte) {
    var state := Decode(safeState);
    state.Some? && state.value.matchContext.perspectivePlayer == perspective
  }

  // ---------------------------------------------------------------- layout

  function PutContainerHeader(k: Bytes): Bytes {
    PutString(Ascii(CONTAINER_SCHEMA_ID), PutString(Ascii(CONTAINER_SCHEMA_ID), k))
  }

  function PutObservation(o: Observation, k: Bytes): Bytes {
    PutContainerHeader(PutU8(o.perspectivePlayer, PutU64(o.decisionIndex, PutString(o.safeState,
    PutOpt(PutString, o.kind, PutOpt(PutU8, o.player, PutList(PutString, o.references, k)))))))
  }

  function GetContainerHeader(b: Bytes): Parsed<()> {
    var (first, b) :- GetString(true, b);
    if first != Ascii(CONTAINER_SCHEMA_ID) then None else
    var (second, b) :- GetString(true, b);
    if second != Ascii(CONTAINER_SCHEMA_ID) then None else Some(((), b))
  }

  function GetToken(b: Bytes): Parsed<Bytes> {
    match GetString(true, b)
    case None => None
    case Some((s, k)) => if IsLowerToken(s) then Some((s, k)) else None
  }

  function GetObservation(strict: bool, b: Bytes): Parsed<Observation> {
    var (_, b) :- GetContainerHeader(b);
    var (perspective, b) :- GetPlayer(b);
    var (decisionIndex, b) :- GetU64(b);
    var (safeState, b) :- GetString(false, b);
    if strict && !StateMatches(safeState, perspective) then None else
    var (kind, b) :- GetOpt(GetToken, b);
    var (player, b) :- GetOpt(GetPlayer, b);
    var (references, b) :- GetList(LocatorGetter(strict), LexLess, b);
    Some((Observation(perspective, decisionIndex, safeState, kind, player, references), b))
  }

  function DecodeObservation(b: Bytes): Option<Observation> {
    match GetObservation(true, b)
    case None => None
    case Some((o, k)) => if k == [] then Some(o) else None
  }

  // ---------------------------------------------------------------- laws

  lemma ContainerHeaderSound(b: Bytes)
    requires GetContainerHeader(b).Some?
    ensures b == PutContainerHeader(GetContainerHeader(b).value.1)
  {
    StringLaws(true);
    hide GetString, PutString, TextOk, Ascii;
  }

  lemma ContainerHeaderComplete(k: Bytes)
    ensures GetContainerHeader(PutContainerHeader(k)) == Some(((), k))
  {
    var name := Ascii(CONTAINER_SCHEMA_ID);
    AsciiIsUtf8(name);
    hide GetString, PutString, Ascii, Utf8Octets;
    StringLaws(true);
  }

  lemma TokenIsText(s: Bytes)
    requires IsLowerToken(s)
    ensures Utf8Octets(s)
  {
    AsciiIsUtf8(s);
  }

  lemma TokenLaws()
    ensures Lawful(TokenOk, PutString, GetToken, 4)
  {
    StringLaws(true);
    hide GetString, PutString, TextOk, IsLowerToken;
  }

  lemma ObservationParts(strict: bool)
    ensures OptLawful(TokenOk, PutString, GetToken) && OptLawful(PlayerOk, PutU8, GetPlayer)
    ensures ListLawful(LocatorRule(strict), PutString, LocatorGetter(strict), LexLess, 4)
  {
    TokenLaws();
    OptLaws(TokenOk, PutString, GetToken, 4);
    PlayerLaws();
    OptLaws(PlayerOk, PutU8, GetPlayer, 1);
    LocatorLaws(strict);
    ListLaws(LocatorRule(strict), PutString, LocatorGetter(strict), LexLess, 4);
  }

  lemma ObservationSound(strict: bool, b: Bytes)
    requires GetObservation(strict, b).Some?
    ensures var (o, k) := GetObservation(strict, b).value; ObservationOk(strict, o) && b == PutObservation(o, k)
  {
    hide GetContainerHeader, PutContainerHeader, GetString, PutString, TextOk, PutOpt, GetOpt, PutList, GetList,
      ListOk, PutU8, GetU8, PutU64, GetU64, Decode, TokenOk;
    ContainerHeaderSound(b);
    ObservationParts(strict);
    StringLaws(false);
    RawStringsAreShort();
    hide Complete, OptComplete, ListComplete, StateMatches;
  }

  lemma RawStringsAreShort()
    ensures forall s :: TextOk(false, s) <==> |s| <= U32_MAX
  {
  }

  lemma ObservationComplete(strict: bool, o: Observation, k: Bytes)
    requires ObservationOk(strict, o)
    ensures GetObservation(strict, PutObservation(o, k)) == Some((o, k))
  {
    hide GetContainerHeader, PutContainerHeader, GetString, PutString, TextOk, PutOpt, GetOpt, PutList, GetList,
      ListOk, PutU8, GetU8, PutU64, GetU64, Decode, TokenOk, StateMatches;
    var body := PutU8(o.perspectivePlayer, PutU64(o.decisionIndex, PutString(o.safeState,
      PutOpt(PutString, o.kind, PutOpt(PutU8, o.player, PutList(PutString, o.references, k))))));
    ContainerHeaderComplete(body);
    ObservationParts(strict);
    StringLaws(false);
    FieldsComplete();
    RawStringsAreShort();
    hide Sound, Consumes, OptSound, ListSound;
  }
}
