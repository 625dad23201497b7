/** The public-observation codec as it runs, and what its bytes determine. */
module PublicObservationCodec {
  import opened Bytes
  import opened Text
  import opened Sorting
  import opened Cursors
  import opened Writers
  import opened SafeState
  import opened SafeStateLaws
  import opened SafeStateNormal
  import opened SafeStateCodec
  import opened SafeStateContent
  import opened SafeStateDecoder
  import opened SafeStateBoundary
  import opened PublicObservation

  // ---------------------------------------------------------------- what an input must meet

  predicate InputValid(i: Observation) {
    && PlayerOk(i.perspectivePlayer) && i.safeState != []
    && OptOk(IsLowerToken, i.kind) && OptOk(PlayerOk, i.player)
    && AllOk(IsLocator, i.references) && Distinct(i.references)
  }

  predicate InputFits(i: Observation) {
    && IsShort(i.safeState) && OptOk(IsShort, i.kind)
    && |i.references| <= U32_MAX && AllOk(IsShort, i.references)
  }

  function SortReferences(i: Observation): Observation {
    i.(references := Sort(LexLe, i.references))
  }

  function EncodeObservation(i: Observation): Bytes {
    PutObservation(SortReferences(i), [])
  }

  function ContainerBytes(i: Observation): Encoded {
    if !InputValid(i) then InvalidArgument
    else if !InputFits(i) then LengthError
    else Encoded.Bytes(EncodeObservation(i))
  }

  // ---------------------------------------------------------------- sorted references

  lemma SortedTexts(ts: seq<Bytes>)
    requires Ordered(LexLe, ts)
    ensures Ordered(LexLess, ts) <==> Distinct(ts)
  {
    LexOrder();
    hide LexLess;
    StrictIffDistinct(LexLe, LexLess, (t: Bytes) => t, ts);
    assert Map((t: Bytes) => t, ts) == ts;
  }

  lemma ReferencesAdmitted(utf8: bool, ts: seq<Bytes>)
    ensures ListOk(LocatorRule(utf8), LexLess, Sort(LexLe, ts)) <==>
      |ts| <= U32_MAX && AllOk(LocatorRule(utf8), ts) && Distinct(ts)
  {
    hide LexLess, Sort;
    LocatorOrders();
    SortSorts(LexLe, ts);
    SortKeeps(LexLe, ts, LocatorRule(utf8));
    SortedTexts(Sort(LexLe, ts));
    DistinctPermuted(ts, Sort(LexLe, ts));
  }

  predicate ReferencesAreText(i: Observation) {
    AllOk(Utf8Octets, i.references)
  }

  /** A valid input of representable size has a layout the plain reader accepts; the strict
      reader also wants text and a matching canonical state. */
  lemma InputAdmitted(i: Observation)
    requires InputValid(i) && InputFits(i)
    ensures ObservationOk(false, SortReferences(i))
    ensures ObservationOk(true, SortReferences(i)) <==>
      StateMatches(i.safeState, i.perspectivePlayer) && ReferencesAreText(i)
  {
    hide StateMatches, Sort, Utf8Octets, IsLocator, IsLowerToken;
    ReferencesAdmitted(false, i.references);
    ReferencesAdmitted(true, i.references);
    if i.kind.Some? {
      TokenIsText(i.kind.value);
    }
    assert AllOk(LocatorRule(false), i.references);
    assert AllOk(LocatorRule(true), i.references) <==> ReferencesAreText(i) by {
      if AllOk(LocatorRule(true), i.references) {
        forall j | 0 <= j < |i.references| ensures Utf8Octets(i.references[j]) {
          assert LocatorRule(true)(i.references[j]);
        }
      }
    }
  }

  // ---------------------------------------------------------------- main results

  /** The parser accepts exactly the layouts of admitted observations, so the decoder's own
      comparison with a re-encoding is redundant. */
  lemma ObservationIffCanonical(b: Bytes, o: Observation)
    ensures DecodeObservation(b) == Some(o) <==> ObservationOk(true, o) && b == PutObservation(o, [])
  {
    hide GetObservation, PutObservation, ObservationOk;
    if DecodeObservation(b) == Some(o) {
      ObservationSound(true, b);
    }
    if ObservationOk(true, o) && b == PutObservation(o, []) {
      ObservationComplete(true, o, []);
    }
  }

  lemma ReferencesSorted(o: Observation)
    requires ObservationOk(true, o)
    ensures SortReferences(o) == o && InputValid(o) && InputFits(o)
  {
    hide LexLess, Sort, Utf8Octets, IsLocator, IsLowerToken, Decode;
    LocatorOrders();
    LocatorsDoNotTie(o.references);
    LexOrder();
    SortOfSorted(LexLe, o.references);
    SortedTexts(o.references);
    EmptyStateFails(o.perspectivePlayer);
    forall j | 0 <= j < |o.references| ensures IsLocator(o.references[j]) && IsShort(o.references[j]) {
      assert LocatorRule(true)(o.references[j]);
    }
  }

  lemma EmptyStateFails(perspective: Byte)
    ensures !StateMatches([], perspective)
  {
    hide GetGlobals, GetList, GetChain, GetContext, Ascii;
    assert GetHeader(true, []).None?;
  }

  lemma ReencodedObservation(b: Bytes)
    requires DecodeObservation(b).Some?
    ensures ContainerBytes(DecodeObservation(b).value) == Encoded.Bytes(b)
  {
    hide DecodeObservation, ObservationOk, PutObservation, InputValid, InputFits, SortReferences;
    ObservationIffCanonical(b, DecodeObservation(b).value);
    ReferencesSorted(DecodeObservation(b).value);
  }

  /** A valid input comes back with its references sorted, and it comes back at all exactly
      when its references are text and its state is canonical for its perspective. */
  lemma ContainerRoundTrip(i: Observation)
    requires ContainerBytes(i).Bytes?
    ensures DecodeObservation(ContainerBytes(i).bytes) ==
      if StateMatches(i.safeState, i.perspectivePlayer) && ReferencesAreText(i) then Some(SortReferences(i)) else None
  {
    hide StateMatches, ReferencesAreText, DecodeObservation, ObservationOk, PutObservation, GetObservation,
      SortReferences, InputValid, InputFits;
    InputAdmitted(i);
    var b := EncodeObservation(i);
    ObservationIffCanonical(b, SortReferences(i));
    if DecodeObservation(b).Some? {
      var o := DecodeObservation(b).value;
      ObservationIffCanonical(b, o);
      AdmittedEitherWay(o);
      ObservationComplete(false, o, []);
      ObservationComplete(false, SortReferences(i), []);
    }
  }

  lemma AdmittedEitherWay(o: Observation)
    requires ObservationOk(true, o)
    ensures ObservationOk(false, o)
  {
    hide Utf8Octets, IsLocator, IsLowerToken, StateMatches, LexLess;
    forall j | 0 <= j < |o.references| ensures LocatorRule(false)(o.references[j]) {
      assert LocatorRule(true)(o.references[j]);
    }
  }

  /** Equal bytes mean equal fields, the references up to order: nothing is conflated. */
  lemma SameContainerBytes(i: Observation, j: Observation)
    requires ContainerBytes(i).Bytes? && ContainerBytes(j).Bytes?
    ensures ContainerBytes(i) == ContainerBytes(j) <==>
      i.(references := []) == j.(references := []) && multiset(i.references) == multiset(j.references)
  {
    hide Sort, ObservationOk, PutObservation, GetObservation, InputValid, InputFits;
    InputAdmitted(i);
    InputAdmitted(j);
    ObservationComplete(false, SortReferences(i), []);
    ObservationComplete(false, SortReferences(j), []);
    TargetsAgree(i.references, j.references);
    assert i == i.(references := []).(references := i.references);
  }

  // ---------------------------------------------------------------- from player observations

  /** The container of a player observation: its safe-state bytes and the public part of its
      decision context. */
  function ProjectionOf(o: PlayerObservation, safeState: Bytes): Observation {
    Observation(o.perspectivePlayer, o.decisionIndex, safeState, o.decisionContext.kind, o.decisionContext.player,
                o.decisionContext.referencedEntities)
  }

  datatype ProjectedObservation = ObservationShown(value: Observation) | StateRefused(error: Encoded)

  /** What a player observation is projected to: that container, if its state encodes and its
      context is valid. */
  function ProjectedValue(o: PlayerObservation): ProjectedObservation {
    match CanonicalBytes(o)
    case Bytes(state) =>
      if InputValid(ProjectionOf(o, state)) then ObservationShown(ProjectionOf(o, state))
      else StateRefused(InvalidArgument)
    case error => StateRefused(error)
  }

  /** Two observations are projected to one value exactly when they agree on what the policy may
      see, down to the order of the referenced entities. */
  lemma ProjectionShowsPublicPartOnly(o: PlayerObservation, p: PlayerObservation)
    requires ProjectedValue(o).ObservationShown? && ProjectedValue(p).ObservationShown?
    ensures ProjectedValue(o) == ProjectedValue(p) <==>
      && SameContent(StateOf(o), StateOf(p))
      && o.perspectivePlayer == p.perspectivePlayer && o.decisionIndex == p.decisionIndex
      && o.decisionContext.kind == p.decisionContext.kind && o.decisionContext.player == p.decisionContext.player
      && o.decisionContext.referencedEntities == p.decisionContext.referencedEntities
  {
    hide CanonicalBytes, InputValid, SameContent, StateOf;
    BytesShowContentOnly(o, p);
  }

  function ProjectedBytes(o: PlayerObservation): Encoded {
    match CanonicalBytes(o)
    case Bytes(state) => ContainerBytes(ProjectionOf(o, state))
    case error => error
  }

  /** Two observations have the same public bytes exactly when they agree on what the policy
      may see: state content, perspective, decision index, request kind, acting player and the
      set of referenced entities. */
  lemma ProjectedBytesShowPublicPartOnly(o: PlayerObservation, p: PlayerObservation)
    requires ProjectedBytes(o).Bytes? && ProjectedBytes(p).Bytes?
    ensures ProjectedBytes(o) == ProjectedBytes(p) <==>
      && SameContent(StateOf(o), StateOf(p))
      && o.perspectivePlayer == p.perspectivePlayer && o.decisionIndex == p.decisionIndex
      && o.decisionContext.kind == p.decisionContext.kind && o.decisionContext.player == p.decisionContext.player
      && multiset(o.decisionContext.referencedEntities) == multiset(p.decisionContext.referencedEntities)
  {
    hide CanonicalBytes, ContainerBytes, SameContent, StateOf;
    BytesShowContentOnly(o, p);
    SameContainerBytes(ProjectionOf(o, CanonicalBytes(o).bytes), ProjectionOf(p, CanonicalBytes(p).bytes));
  }

  /** The public bytes of an observation decode exactly when all its locators are text, and the
      state inside is then the observation's public state in normal form. */
  lemma ProjectedRoundTrip(o: PlayerObservation)
    requires ProjectedBytes(o).Bytes?
    ensures var d := DecodeObservation(ProjectedBytes(o).bytes);
      && (d.Some? <==>
            ViewMeets(Demand(true, true), StateOf(o)) && AllOk(Utf8Octets, o.decisionContext.referencedEntities))
      && (d.Some? ==> Decode(d.value.safeState) == Some(Normalize(StateOf(o))))
  {
    hide DecodeObservation, Decode, ViewMeets, Normalize, Encode, InputValid, InputFits, StateOf, Utf8Octets;
    var state := CanonicalBytes(o).bytes;
    ContainerRoundTrip(ProjectionOf(o, state));
    ObservationRoundTrip(o);
    NormalPerspective(o);
  }

  lemma NormalPerspective(o: PlayerObservation)
    requires Validates(o)
    ensures Normalize(StateOf(o)).matchContext.perspectivePlayer == o.perspectivePlayer
  {
    hide ViewMeets, Sort;
  }

  // ---------------------------------------------------------------- the encoder as it runs

  method ValidReferences(references: seq<Bytes>) returns (ok: bool)
    ensures ok <==> AllOk(IsLocator, references) && Distinct(references)
  {
    hide IsLocator;
    for index := 0 to |references|
      invariant forall j :: 0 <= j < index ==> IsLocator(references[j])
      invariant forall i, j :: 0 <= i < j < index ==> references[i] != references[j]
    {
      var locator := references[index];
      if !IsLocator(locator) {
        return false;
      }
      for previous := 0 to index
        invariant forall i :: 0 <= i < previous ==> references[i] != locator
      {
        if locator == references[previous] {
          return false;
        }
      }
    }
    return true;
  }

  method ValidateInput(i: Observation) returns (ok: bool)
    ensures ok <==> InputValid(i)
  {
    hide IsLocator, IsLowerToken, Distinct;
    if i.perspectivePlayer > 1 || i.safeState == [] {
      return false;
    }
    if i.kind.Some? && !IsLowerToken(i.kind.value) {
      return false;
    }
    if i.player.Some? && i.player.value > 1 {
      return false;
    }
    ok := ValidReferences(i.references);
  }

  method AppendReferences(w: Writer, xs: seq<Bytes>) returns (r: Option<()>)
    modifies w
    ensures r.Some? <==> |xs| <= U32_MAX && AllOk(IsShort, xs)
    ensures r.Some? ==> forall k :: w.bytes + k == old(w.bytes) + PutList(PutString, xs, k)
  {
    hide PutCount, PutString;
    var _ :- w.Count(|xs|);
    ghost var start := w.bytes;
    for i := 0 to |xs|
      invariant forall k :: w.bytes + PutMany(PutString, xs[i..], k) == start + PutMany(PutString, xs, k)
      invariant forall j :: 0 <= j < i ==> IsShort(xs[j])
    {
      PutManyStep(PutString, xs, i);
      hide PutMany;
      var _ :- w.Text(xs[i]);
    }
    assert xs[|xs|..] == [];
    r := Some(());
  }

  method AppendContainerHeader(w: Writer)
    modifies w
    ensures forall k :: w.bytes + k == old(w.bytes) + PutContainerHeader(k)
  {
    var name := Ascii(CONTAINER_SCHEMA_ID);
    assert |name| == 42;
    hide PutString, Ascii;
    var first := w.Text(name);
    var second := w.Text(name);
  }

  method AppendOptionalText(w: Writer, value: Option<Bytes>) returns (r: Option<()>)
    modifies w
    ensures r.Some? <==> OptOk(IsShort, value)
    ensures r.Some? ==> forall k :: w.bytes + k == old(w.bytes) + PutOpt(PutString, value, k)
  {
    hide PutU8, PutString;
    w.Flag(value.Some?);
    if value.None? {
      return Some(());
    }
    r := w.Text(value.value);
  }

  method SortedReferences(references: seq<Bytes>) returns (sorted: seq<Bytes>)
    ensures sorted == Sort(LexLe, references)
    ensures |sorted| == |references| && (AllOk(IsShort, sorted) <==> AllOk(IsShort, references))
  {
    hide Sort, AllOk, LexLess, IsSortOf;
    LocatorOrders();
    LocatorsDoNotTie(references);
    hide TotalPreorder, NoTies;
    sorted := StdSort(LexLe, references);
    SortedCopy(LexLe, references, sorted, IsShort, IsLocator);
  }

  /** The layout of a validated input, or the length error of a field that does not fit. */
  method AppendObservation(i: Observation) returns (r: Option<Bytes>)
    ensures r.Some? <==> InputFits(i)
    ensures r.Some? ==> r.value == EncodeObservation(i)
  {
    hide PutContainerHeader, PutU8, PutU64, PutString, PutOpt, PutList, Sort, AllOk, OptOk;
    var references := SortedReferences(i.references);
    var w := new Writer();
    AppendContainerHeader(w);
    w.U8(i.perspectivePlayer);
    w.U64(i.decisionIndex);
    var _ :- w.Text(i.safeState);
    var _ :- AppendOptionalText(w, i.kind);
    w.OptionalU8(i.player);
    var _ :- AppendReferences(w, references);
    assert w.bytes + [] == w.bytes;
    r := Some(w.bytes);
  }

  method CanonicalObservationBytes(i: Observation) returns (r: Encoded)
    ensures r == ContainerBytes(i)
  {
    hide InputValid, InputFits, EncodeObservation;
    var valid := ValidateInput(i);
    if !valid {
      return InvalidArgument;
    }
    var bytes := AppendObservation(i);
    return if bytes.Some? then Encoded.Bytes(bytes.value) else LengthError;
  }

  method ProjectPublicObservation(o: PlayerObservation) returns (r: ProjectedObservation)
    ensures r == ProjectedValue(o)
  {
    hide CanonicalBytes, InputValid;
    var state := CanonicalSafeStateBytes(o);
    if !state.Bytes? {
      return StateRefused(state);
    }
    var projected := ProjectionOf(o, state.bytes);
    var valid := ValidateInput(projected);
    return if valid then ObservationShown(projected) else StateRefused(InvalidArgument);
  }

  // ---------------------------------------------------------------- the decoder as it runs

  method ReadContainerHeader(cursor: Cursor) returns (r: Option<()>)
    requires cursor.Valid()
    modifies cursor
    ensures cursor.Valid() && Agrees(GetContainerHeader(old(cursor.Rest())), r, cursor.Rest())
  {
    hide GetString, Ascii;
    var first :- cursor.Text();
    if first != Ascii(CONTAINER_SCHEMA_ID) {
      return None;
    }
    var second :- cursor.Text();
    return if second == Ascii(CONTAINER_SCHEMA_ID) then Some(()) else None;
  }

  method ReadOptionalToken(cursor: Cursor) returns (r: Option<Option<Bytes>>)
    requires cursor.Valid()
    modifies cursor
    ensures cursor.Valid() && Agrees(GetOpt(GetToken, old(cursor.Rest())), r, cursor.Rest())
  {
    hide GetU8, GetString, IsLowerToken;
    var present :- cursor.U8();
    if present > 1 {
      return None;
    }
    if present == 0 {
      return Some(None);
    }
    var kind :- cursor.Text();
    return if IsLowerToken(kind) then Some(Some(kind)) else None;
  }

  method ReadReferences(cursor: Cursor) returns (r: Option<seq<Bytes>>)
    requires cursor.Valid()
    modifies cursor
    ensures cursor.Valid() && Agrees(GetList(LocatorGetter(true), LexLess, old(cursor.Rest())), r, cursor.Rest())
  {
    LocatorLaws(true);
    ghost var b := cursor.Rest();
    hide GetU32, GetLocator, LexLess;
    var count :- cursor.U32();
    hide GetList;
    var remaining := cursor.Remaining();
    if count > remaining / 4 {
      GuardIsSafe(LocatorGetter(true), LexLess, b, 4);
      return None;
    }
    ReadingStarts(LocatorGetter(true), LexLess, b);
    var xs: seq<Bytes> := [];
    hide Reading, Consumes;
    while |xs| < count
      invariant cursor.Valid() && |xs| <= count
      invariant Reading(LocatorGetter(true), LexLess, b, count, xs, cursor.Rest())
      decreases count - |xs|
    {
      ghost var rest := cursor.Rest();
      var next := ReadLocator(cursor);
      if next.None? {
        ElementFails(LocatorGetter(true), LexLess, b, count, xs, rest);
        return None;
      }
      var x := next.value;
      if xs != [] && !LexLess(xs[|xs| - 1], x) {
        OutOfOrder(LocatorGetter(true), LexLess, b, count, xs, rest);
        return None;
      }
      ElementRead(LocatorGetter(true), LexLess, b, count, xs, rest);
      xs := xs + [x];
    }
    ListRead(LocatorGetter(true), LexLess, b, count, xs, cursor.Rest());
    return Some(xs);
  }

  method ReadObservation(cursor: Cursor) returns (r: Option<Observation>)
    requires cursor.Valid()
    modifies cursor
    ensures cursor.Valid() && Agrees(GetObservation(true, old(cursor.Rest())), r, cursor.Rest())
  {
    hide GetContainerHeader, GetU8, GetU64, GetString, GetOpt, GetList, LocatorGetter, Decode;
    var _ :- ReadContainerHeader(cursor);
    var perspective :- cursor.U8();
    if perspective > 1 {
      return None;
    }
    var decisionIndex :- cursor.U64();
    var safeState :- cursor.Raw();
    var state :- DecodeCanonicalSafeState(safeState);
    if state.matchContext.perspectivePlayer != perspective {
      return None;
    }
    var kind :- ReadOptionalToken(cursor);
    var player :- ReadOptionalPlayer(cursor);
    var references :- ReadReferences(cursor);
    return Some(Observation(perspective, decisionIndex, safeState, kind, player, references));
  }

  method DecodeCanonicalObservation(bytes: Bytes) returns (r: Option<Observation>)
    ensures r == DecodeObservation(bytes)
  {
    hide GetObservation, ContainerBytes;
    var cursor := new Cursor(bytes);
    var observation :- ReadObservation(cursor);
    var atEnd := cursor.End();
    if !atEnd {
      return None;
    }
    ReencodedObservation(bytes);
    var again := CanonicalObservationBytes(observation);
    return if again == Encoded.Bytes(bytes) then Some(observation) else None;
  }
}
