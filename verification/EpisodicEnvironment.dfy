/** The episode facade over the driver: reset, step, interrupt, submission tokens, and the
    single closure record every ended episode leaves.

    Decision frames are projected with the public-observation and public-action codecs of this
    project; what those need from code outside it (coupling checks, the choice of public fields
    for a candidate, hashing) is a `Projector`, and driver construction and identity checks are
    answers given to `Reset`. */
module EpisodicEnvironment {
  import opened Bytes
  import opened Sorting
  import opened PublicAction
  import opened PublicActionKeys
  import opened PublicActionDomain
  import opened SafeStateBoundary
  import opened PublicObservation
  import opened PublicObservationCodec
  import D = EpisodeDriver

  // ---------------------------------------------------------------- values

  datatype Token = Token(incarnation: U64, generation: U64)

  datatype FrameCandidate = FrameCandidate(publicKey: Bytes, action: ActionInput, submitsResponse: bool)

  datatype Frame = Frame(
    episodeId: Bytes, decisionId: Bytes, token: Token, decisionIndex: U64, engineStepIndex: U64, actingPlayer: Byte,
    kind: Bytes, observation: Observation, candidates: seq<FrameCandidate>, observationDigest: Bytes,
    domainDigest: Bytes)

  datatype FailureCode =
    | RetryFailure | CoreError | UnsupportedProtocol | MalformedProtocol | IncompleteCandidates | DuplicateCandidates
    | ResponseInconsistency | PrivacyInvariant | PublicFrameInvariant | InvalidAuthoritativeState
    | ObservationFailure | InternalDomainDivergence | TokenNamespaceExhausted

  datatype FailureStage = Construction | Advance | Projection | Action | Interruption | Teardown

  datatype InterruptionReason = EngineProcessBudget | SemanticActionBudget | AdministrativeCancel

  datatype EpisodeTerminal = EpisodeTerminal(
    episodeId: Bytes, winner: Byte, winReason: Byte, semanticActionCount: U64, lastDecisionIndex: Option<U64>)

  datatype EpisodeInterrupted = EpisodeInterrupted(
    episodeId: Bytes, reason: InterruptionReason, semanticActionCount: U64, lastDecisionId: Option<Bytes>,
    lastDecisionIndex: Option<U64>, processBudget: U64, semanticBudget: U64, processCount: U64)

  datatype EpisodeFailure = EpisodeFailure(
    episodeId: Option<Bytes>, code: FailureCode, stage: FailureStage, semanticActionCount: U64,
    lastDecisionId: Option<Bytes>, mutation: bool)

  datatype Next =
    | NextFrame(frame: Frame)
    | NextTerminal(terminal: EpisodeTerminal)
    | NextInterrupted(interruption: EpisodeInterrupted)
    | NextFailure(failure: EpisodeFailure)

  /** How a boundary is taken: a reply, a boundary error, or any other exception. */
  datatype Consumed =
    Consumed(next: Next) | BoundaryError(code: FailureCode, stage: FailureStage, mutation: bool) | OtherException

  datatype Lifecycle = Empty | AwaitingAction | GameTerminal | Interrupted | Failed

  datatype RejectionCode =
    | IncompatibleContract | InvalidLifecycle | WrongEpisode | StaleSubmissionToken | WrongPublicSemanticDecision
    | UnknownPublicActionKey | PublicActionDomainDivergence | UnsupportedInterruptionReason

  datatype ResetRejectionCode =
    | ResetWhileAwaitingAction | InvalidContract | InvalidEpisodeSpec | InvalidStartingPlayer | InvalidRunControl
    | ResourceIdentityMismatch | TokenNamespaceFull | UnsupportedResetConfiguration

  datatype Selection = Selection(contractId: Bytes, episodeId: Bytes, decisionId: Bytes, token: Token, publicKey: Bytes)

  datatype Transition = Transition(
    episodeId: Bytes, decisionId: Bytes, decisionIndex: U64, selectedKey: Bytes, responseSubmitted: bool,
    finalHash: Option<Bytes>)

  datatype StepResult = StepAccepted(transition: Transition, next: Next) | StepRejected(code: RejectionCode)

  datatype ResetResult = ResetAccepted(next: Next) | ResetRejected(code: ResetRejectionCode)

  datatype InterruptResult =
    | InterruptAccepted(interruption: EpisodeInterrupted)
    | InterruptRejected(code: RejectionCode)
    | InterruptFailed(failure: EpisodeFailure)

  datatype EpisodeSpec = EpisodeSpec(contractId: Bytes, startingPlayer: Byte, seatKnown: bool)

  datatype RunControl = RunControl(processBudget: U64, semanticBudget: U64, cancelReasonKnown: bool, source: Bytes)

  // ---------------------------------------------------------------- what the environment answers

  datatype ProjectedAction = Projected(action: ActionInput) | Refused(code: FailureCode)

  /** Frame projection from outside this project: which requests are in the public domain, the
      checks that couple a request to the decision context of its observation and to its
      continuation, the public description of a candidate, observation hashing, and SHA-256. */
  datatype Projector = Projector(
    supported: D.Request -> bool, coupled: (D.Request, PlayerObservation) -> bool,
    continuation: (D.Request, PlayerObservation) -> Option<FailureCode>, hashOk: PlayerObservation -> bool,
      kindName: D.Request -> Bytes, action: (D.Request, D.Candidate, PlayerObservation) -> ProjectedAction,
    digest: Bytes -> Bytes)

  datatype IdentityReply = EpisodeIdentity(id: Bytes) | IdentityMismatch | IdentityInvalid

  /** What a reset learns about the outside: certified resources, the episode's identity, and
      an engine, or none when constructing the driver throws. */
  datatype ResetWorld = ResetWorld(resourcesMatch: bool, identity: IdentityReply, engine: Option<D.Engine>, probe: bool)

  predicate SafeSourceLabel(s: Bytes) {
    |s| <= 128 && forall i :: 0 <= i < |s| ==> s[i] >= 0x20 && s[i] != 0x7F
  }

  function CodeOf(r: D.Reason): (code: FailureCode)
    ensures code == FailureCode.RetryFailure <==> r == D.RetryFailure
    ensures code == FailureCode.CoreError <==> r == D.CoreFailure
    ensures code == FailureCode.UnsupportedProtocol <==> r in {D.UnsupportedProtocol, D.ForcedUnsupported}
    ensures code == FailureCode.MalformedProtocol <==> r == D.MalformedProtocol
    ensures code == FailureCode.IncompleteCandidates <==> r == D.CandidateTruncated
    ensures code == FailureCode.ResponseInconsistency <==> r == D.ResponseInconsistency
    ensures code == FailureCode.InvalidAuthoritativeState <==> r == D.InvalidAuthoritativeState
    ensures code == FailureCode.InternalDomainDivergence <==> r == D.SimulationError
  {
    match r
    case RetryFailure => FailureCode.RetryFailure
    case CoreFailure => FailureCode.CoreError
    case UnsupportedProtocol => FailureCode.UnsupportedProtocol
    case ForcedUnsupported => FailureCode.UnsupportedProtocol
    case MalformedProtocol => FailureCode.MalformedProtocol
    case CandidateTruncated => FailureCode.IncompleteCandidates
    case ResponseInconsistency => FailureCode.ResponseInconsistency
    case InvalidAuthoritativeState => FailureCode.InvalidAuthoritativeState
    case SimulationError => FailureCode.InternalDomainDivergence
  }

  function StageOf(s: D.Stage): (stage: FailureStage)
    ensures stage == Action <==> s == D.ActionStage
    ensures stage == Advance <==> s == D.AdvanceStage
  {
    match s
    case AdvanceStage => Advance
    case ActionStage => Action
  }

  // ---------------------------------------------------------------- frames

  function KeyOfCandidate(c: FrameCandidate): Bytes {
    c.publicKey
  }

  function FrameKeys(f: Frame): seq<Bytes> {
    Map(KeyOfCandidate, f.candidates)
  }

  function IdentityOf(f: Frame): DecisionIdentity {
    DecisionIdentity(f.episodeId, f.decisionIndex, f.actingPlayer, f.kind, f.observationDigest, f.domainDigest)
  }

  /** A frame's digests and decision identifier are those of its own contents. */
  predicate FrameOk(version: Version, digest: Bytes -> Bytes, f: Frame) {
    && ContainerBytes(f.observation).Bytes? && f.observationDigest == digest(ContainerBytes(f.observation).bytes)
    && DomainFits(f.kind, FrameKeys(f)) && f.domainDigest == digest(PutDomain(version, f.kind, FrameKeys(f)))
    && DecisionOk(IdentityOf(f)) && f.decisionId == digest(PutDecision(version, IdentityOf(f)))
  }

  /** Candidate by candidate: the public key in the frame, the binding, and the internal key of
      the driver's pending request stand at the same position. */
  predicate Aligned(f: Frame, bindings: seq<Binding>, request: D.Request) {
    && |f.candidates| == |bindings| == |request.candidates|
    && forall i :: 0 <= i < |bindings| ==>
         bindings[i] == Binding(f.candidates[i].publicKey, request.candidates[i].semanticKey)
  }

  predicate AgreeOn(digest: Bytes -> Bytes, a: Bytes, b: Bytes) {
    digest(a) == digest(b) ==> a == b
  }

  /** Where hashing does not collide on the bytes at hand, equal decision identifiers mean the
      same episode, index, player, request kind, ordered candidate keys and, up to the order of
      its references, observation. */
  lemma DecisionIdsIdentify(version: Version, digest: Bytes -> Bytes, f: Frame, g: Frame)
    requires FrameOk(version, digest, f) && FrameOk(version, digest, g) && f.decisionId == g.decisionId
    requires AgreeOn(digest, PutDecision(version, IdentityOf(f)), PutDecision(version, IdentityOf(g)))
    requires AgreeOn(digest, PutDomain(version, f.kind, FrameKeys(f)), PutDomain(version, g.kind, FrameKeys(g)))
    requires AgreeOn(digest, ContainerBytes(f.observation).bytes, ContainerBytes(g.observation).bytes)
    ensures f.episodeId == g.episodeId && f.decisionIndex == g.decisionIndex && f.actingPlayer == g.actingPlayer
    ensures f.kind == g.kind && FrameKeys(f) == FrameKeys(g)
    ensures f.observation.(references := []) == g.observation.(references := [])
    ensures multiset(f.observation.references) == multiset(g.observation.references)
  {
    hide PutDecision, PutDomain, DecisionOk, DomainFits, FrameKeys, ContainerBytes;
    SameContainerBytes(f.observation, g.observation);
    DecisionBytesAreInjective(version, IdentityOf(f), version, IdentityOf(g));
    DomainBytesAreInjective(version, f.kind, FrameKeys(f), version, g.kind, FrameKeys(g));
  }

  /** The submission token is no part of what a frame hashes. */
  lemma TokenIsNotHashed(version: Version, digest: Bytes -> Bytes, f: Frame, token: Token)
    requires FrameOk(version, digest, f)
    ensures FrameOk(version, digest, f.(token := token)) && FrameKeys(f.(token := token)) == FrameKeys(f)
  {
    hide PutDecision, PutDomain, DecisionOk, DomainFits, ContainerBytes;
  }

  /** Giving a projected frame its token leaves it coupled to bindings and request. */
  lemma TokenKeepsCoupling(version: Version, projector: Projector, f: Frame, bindings: seq<Binding>,
    request: D.Request, observed: Option<PlayerObservation>, token: Token)
    requires FrameOk(version, projector.digest, f) && Aligned(f, bindings, request)
    requires Describes(version, projector, f, request, observed)
    ensures FrameOk(version, projector.digest, f.(token := token)) && Aligned(f.(token := token), bindings, request)
    ensures Describes(version, projector, f.(token := token), request, observed)
  {
    hide FrameOk, DescribesAll, ProjectedValue;
    TokenIsNotHashed(version, projector.digest, f, token);
  }

  lemma NextToken(issued: seq<Token>, spent: set<Token>, token: Token)
    requires History(issued, spent) && token.generation == |issued| + 1 && token.incarnation > 0
    requires issued != [] ==> issued[|issued| - 1].incarnation <= token.incarnation
    ensures History(issued + [token], spent) && token !in spent
  {
  }

  lemma SpendToken(issued: seq<Token>, spent: set<Token>)
    requires History(issued, spent) && issued != []
    ensures History(issued, spent + {issued[|issued| - 1]})
  {
  }

  /** A published candidate describes one internal candidate: its action is what the projector
      says of that one, its key is that action's, and it submits a response when that one does. */
  predicate DescribesCandidate(version: Version, projector: Projector, c: FrameCandidate, request: D.Request,
                               internal: D.Candidate, observation: PlayerObservation)
  {
    && projector.action(request, internal, observation) == Projected(c.action)
    && ActionOk(version, c.action) && c.publicKey == KeyOf(version, c.action)
    && c.submitsResponse == internal.submitsResponse
  }

  predicate DescribesAll(version: Version, projector: Projector, candidates: seq<FrameCandidate>, request: D.Request,
                         observation: PlayerObservation)
  {
    && |candidates| == |request.candidates|
    && forall i :: 0 <= i < |candidates| ==>
         DescribesCandidate(version, projector, candidates[i], request, request.candidates[i], observation)
  }

  /** A frame describes a request and what was observed with it. */
  predicate Describes(version: Version, projector: Projector, f: Frame, request: D.Request,
                      observed: Option<PlayerObservation>)
  {
    && observed.Some? && DescribesAll(version, projector, f.candidates, request, observed.value)
    && ProjectedValue(observed.value.(decisionIndex := f.decisionIndex)) == ObservationShown(f.observation)
    && f.actingPlayer == request.player && f.kind == projector.kindName(request)
    && f.engineStepIndex == request.engineStepIndex
  }

  /** Why a candidate cannot be published. */
  function CandidateFault(version: Version, projector: Projector, request: D.Request, c: D.Candidate,
                          observation: PlayerObservation): Option<FailureCode>
  {
    match projector.action(request, c, observation)
    case Refused(code) => Some(code)
    case Projected(action) => if ActionOk(version, action) then None else Some(PublicFrameInvariant)
  }

  /** Of the candidates from a position on, the first that cannot be published says why. */
  function FirstCandidateFault(version: Version, projector: Projector, request: D.Request,
                               observation: PlayerObservation, from: nat): Option<FailureCode>
    requires from <= |request.candidates|
    decreases |request.candidates| - from
  {
    if from == |request.candidates| then None else
      var fault := CandidateFault(version, projector, request, request.candidates[from], observation);
      if fault.Some? then fault else FirstCandidateFault(version, projector, request, observation, from + 1)
  }

  function KeyFor(version: Version, projector: Projector, request: D.Request, observation: PlayerObservation)
    : D.Candidate -> Bytes
  {
    c => match projector.action(request, c, observation)
         case Projected(action) => KeyOf(version, action)
         case Refused(_) => []
  }

  /** Described candidates carry the keys of the internal ones, in their order. */
  lemma DescribedKeys(version: Version, projector: Projector, candidates: seq<FrameCandidate>, request: D.Request,
                      observation: PlayerObservation)
    requires DescribesAll(version, projector, candidates, request, observation)
    ensures Map(KeyOfCandidate, candidates) ==
      Map(KeyFor(version, projector, request, observation), request.candidates)
  {
    hide ActionOk, KeyOf;
  }

  /** Why projecting a frame fails; the digest of a container too long for its layout throws
      something else than a boundary error. */
  datatype FrameFault = Refuses(code: FailureCode) | DigestThrows

  /** The first reason, in the order the checks are made, why a decision cannot be published. */
  ghost function FaultOf(version: Version, projector: Projector, episodeId: Bytes, request: D.Request,
                         observed: Option<PlayerObservation>, decisionIndex: U64): Option<FrameFault>
  {
    if observed.None? then Some(Refuses(PublicFrameInvariant))
    else if !D.CandidatesOk(request) then
      Some(Refuses(if D.RepeatsKey(request) then DuplicateCandidates else IncompleteCandidates))
    else if !projector.supported(request) || request.player > 1 then Some(Refuses(FailureCode.UnsupportedProtocol))
    else if !Coupled(projector, request, observed.value) then Some(Refuses(PublicFrameInvariant))
    else ShownFault(version, projector, episodeId, request, observed.value, decisionIndex)
  }

  predicate Coupled(projector: Projector, request: D.Request, observation: PlayerObservation) {
    && observation.schemaVersion == OBSERVATION_SCHEMA_ID && observation.perspectivePlayer == request.player
    && observation.engineStepIndex == request.engineStepIndex && projector.hashOk(observation)
    && projector.coupled(request, observation)
  }

  ghost function ShownFault(version: Version, projector: Projector, episodeId: Bytes, request: D.Request,
                            observation: PlayerObservation, decisionIndex: U64): Option<FrameFault>
  {
    var shown := ProjectedValue(observation.(decisionIndex := decisionIndex));
    if shown.StateRefused? then Some(Refuses(ObservationFailure))
    else if !ContainerBytes(shown.value).Bytes? then Some(DigestThrows)
    else if projector.continuation(request, observation).Some? then
      Some(Refuses(projector.continuation(request, observation).value))
    else
      match FirstCandidateFault(version, projector, request, observation, 0)
      case Some(code) => Some(Refuses(code))
      case None =>
        var keys := Map(KeyFor(version, projector, request, observation), request.candidates);
        var observationDigest := projector.digest(ContainerBytes(shown.value).bytes);
        IdentityFault(version, projector, episodeId, request, decisionIndex, keys, observationDigest)
  }

  ghost function IdentityFault(version: Version, projector: Projector, episodeId: Bytes, request: D.Request,
                               decisionIndex: U64, keys: seq<Bytes>, observationDigest: Bytes): Option<FrameFault>
  {
    var kind := projector.kindName(request);
    var identity := DecisionIdentity(episodeId, decisionIndex, request.player, kind, observationDigest,
      projector.digest(PutDomain(version, kind, keys)));
    if DomainOk(version, kind, keys) && DecisionOk(identity) then None else Some(Refuses(PublicFrameInvariant))
  }

  datatype ProjectedFrame = FrameProjected(frame: Frame, bindings: seq<Binding>) | ProjectionFailed(fault: FrameFault)

  /** The candidates of a request with their public keys, in the request's order. */
  method ProjectCandidates(version: Version, projector: Projector, request: D.Request, observation: PlayerObservation)
    returns (failure: Option<FailureCode>, candidates: seq<FrameCandidate>, bindings: seq<Binding>)
    ensures failure == FirstCandidateFault(version, projector, request, observation, 0)
    ensures failure.None? ==> DescribesAll(version, projector, candidates, request, observation)
    ensures failure.None? ==> |bindings| == |request.candidates| && forall i :: 0 <= i < |bindings| ==>
      bindings[i] == Binding(candidates[i].publicKey, request.candidates[i].semanticKey)
  {
    hide KeyOf, ActionOk;
    candidates, bindings := [], [];
    for i := 0 to |request.candidates|
      invariant |candidates| == |bindings| == i
      invariant FirstCandidateFault(version, projector, request, observation, 0) ==
        FirstCandidateFault(version, projector, request, observation, i)
      invariant forall j :: 0 <= j < i ==>
        DescribesCandidate(version, projector, candidates[j], request, request.candidates[j], observation)
      invariant forall j :: 0 <= j < i ==>
        bindings[j] == Binding(candidates[j].publicKey, request.candidates[j].semanticKey)
    {
      var candidate := request.candidates[i];
      var projected := projector.action(request, candidate, observation);
      if projected.Refused? {
        return Some(projected.code), candidates, bindings;
      }
      var key := PublicActionKey(version, projected.action);
      if key.None? {
        return Some(PublicFrameInvariant), candidates, bindings;
      }
      candidates := candidates + [FrameCandidate(key.value, projected.action, candidate.submitsResponse)];
      bindings := bindings + [Binding(key.value, candidate.semanticKey)];
    }
    return None, candidates, bindings;
  }

  /** A frame without its token: everything that can fail before a token is spent. */
  method ProjectFrame(version: Version, projector: Projector, episodeId: Bytes, request: D.Request,
                      observed: Option<PlayerObservation>, decisionIndex: U64)
    returns (r: ProjectedFrame)
    ensures match FaultOf(version, projector, episodeId, request, observed, decisionIndex)
      case Some(fault) => r == ProjectionFailed(fault)
      case None =>
        && r.FrameProjected? && Describes(version, projector, r.frame, request, observed)
        && FrameOk(version, projector.digest, r.frame) && Aligned(r.frame, r.bindings, request)
        && KeysOk(version, FrameKeys(r.frame))
        && r.frame.episodeId == episodeId && r.frame.decisionIndex == decisionIndex
  {
    hide ProjectedValue, ContainerBytes, PutDomain, PutDecision, KeysOk, DecisionOk, DomainFits, Map,
      D.CandidatesOk, D.RepeatsKey, ShownFault;
    if observed.None? {
      return ProjectionFailed(Refuses(PublicFrameInvariant));
    }
    var observation := observed.value;
    var defect := D.ValidateCandidateSet(request);
    if defect.Some? {
      return ProjectionFailed(Refuses(if defect.value.RepeatedKey? then DuplicateCandidates else IncompleteCandidates));
    }
    if !projector.supported(request) || request.player > 1 {
      return ProjectionFailed(Refuses(FailureCode.UnsupportedProtocol));
    }
    if observation.schemaVersion != OBSERVATION_SCHEMA_ID || observation.perspectivePlayer != request.player
      || observation.engineStepIndex != request.engineStepIndex || !projector.hashOk(observation)
      || !projector.coupled(request, observation)
    {
      return ProjectionFailed(Refuses(PublicFrameInvariant));
    }
    r := ShowFrame(version, projector, episodeId, request, observation, decisionIndex);
  }

  method ShowFrame(version: Version, projector: Projector, episodeId: Bytes, request: D.Request,
                   observation: PlayerObservation, decisionIndex: U64)
    returns (r: ProjectedFrame)
    ensures match ShownFault(version, projector, episodeId, request, observation, decisionIndex)
      case Some(fault) => r == ProjectionFailed(fault)
      case None =>
        && r.FrameProjected? && Describes(version, projector, r.frame, request, Some(observation))
        && FrameOk(version, projector.digest, r.frame) && Aligned(r.frame, r.bindings, request)
        && KeysOk(version, FrameKeys(r.frame))
        && r.frame.episodeId == episodeId && r.frame.decisionIndex == decisionIndex
  {
    hide ProjectedValue, ContainerBytes, PutDomain, PutDecision, KeysOk, DecisionOk, DomainFits, Map, KeyFor,
      FirstCandidateFault, DescribesAll;
    var shown := ProjectPublicObservation(observation.(decisionIndex := decisionIndex));
    if shown.StateRefused? {
      return ProjectionFailed(Refuses(ObservationFailure));
    }
    var bytes := CanonicalObservationBytes(shown.value);
    if !bytes.Bytes? {
      return ProjectionFailed(DigestThrows);
    }
    var observationDigest := projector.digest(bytes.bytes);
    var continuation := projector.continuation(request, observation);
    if continuation.Some? {
      return ProjectionFailed(Refuses(continuation.value));
    }
    var failure, candidates, bindings := ProjectCandidates(version, projector, request, observation);
    if failure.Some? {
      return ProjectionFailed(Refuses(failure.value));
    }
    DescribedKeys(version, projector, candidates, request, observation);
    var keys := Map(KeyOfCandidate, candidates);
    var kind := projector.kindName(request);
    var domain := CanonicalDomainBytes(version, kind, keys);
    if domain.None? {
      return ProjectionFailed(Refuses(PublicFrameInvariant));
    }
    var domainDigest := projector.digest(domain.value);
    var identity := CanonicalDecisionBytes(version,
      DecisionIdentity(episodeId, decisionIndex, request.player, kind, observationDigest, domainDigest));
    if identity.None? {
      return ProjectionFailed(Refuses(PublicFrameInvariant));
    }
    var frame := Frame(episodeId, projector.digest(identity.value), Token(0, 0), decisionIndex, request.engineStepIndex,
      request.player, kind, shown.value, candidates, observationDigest, domainDigest);
    assert |candidates| == |request.candidates| by {
      DescribedCount(version, projector, candidates, request, observation);
    }
    return FrameProjected(frame, bindings);
  }

  lemma DescribedCount(version: Version, projector: Projector, candidates: seq<FrameCandidate>, request: D.Request,
                       observation: PlayerObservation)
    requires DescribesAll(version, projector, candidates, request, observation)
    ensures |candidates| == |request.candidates|
  {
  }

  /** Aligned frames have bindings the resolver accepts. */
  lemma AlignedBindings(version: Version, f: Frame, bindings: seq<Binding>, request: D.Request)
    requires Aligned(f, bindings, request) && KeysOk(version, FrameKeys(f)) && D.CandidatesOk(request)
    ensures BindingsOk(version, bindings)
  {
    hide KeysOk;
    assert Map(PublicKeyOf, bindings) == FrameKeys(f) by {
      forall i | 0 <= i < |bindings| ensures Map(PublicKeyOf, bindings)[i] == FrameKeys(f)[i] {
      }
    }
  }

  /** Tokens in the order they were issued: generations count up from one across all episodes,
      incarnations never go back. */
  predicate InOrder(issued: seq<Token>) {
    && (forall i :: 0 <= i < |issued| ==> issued[i].generation == i + 1 && issued[i].incarnation > 0)
    && (forall i :: 0 < i < |issued| ==> issued[i - 1].incarnation <= issued[i].incarnation)
  }

  /** Only issued tokens have been spent. */
  predicate History(issued: seq<Token>, spent: set<Token>) {
    InOrder(issued) && forall t :: t in spent ==> t in issued
  }

  // ---------------------------------------------------------------- what a boundary leads to

  /** What an environment knows when its driver reports a boundary. */
  datatype Moment = Moment(
    episodeId: Bytes, control: RunControl, frame: Option<Frame>, publicDecisionIndex: U64, actions: U64, calls: U64,
    incarnation: U64, generation: U64)

  datatype Views = Views(zero: Option<Observation>, one: Option<Observation>)

  function IdOf(episodeId: Bytes): Option<Bytes> {
    if episodeId == [] then None else Some(episodeId)
  }

  /** The records of an episode closed at a moment. */
  function FailureAt(m: Moment, code: FailureCode, stage: FailureStage, mutation: bool): (next: Next)
    ensures next.NextFailure?
  {
    var last := if m.frame.Some? then Some(m.frame.value.decisionId) else None;
    NextFailure(EpisodeFailure(IdOf(m.episodeId), code, stage, m.actions, last, mutation))
  }

  function InterruptionAt(m: Moment, reason: InterruptionReason): (next: Next)
    ensures next.NextInterrupted?
  {
    var lastId := if m.frame.Some? then Some(m.frame.value.decisionId) else None;
    var lastIndex := if m.frame.Some? then Some(m.frame.value.decisionIndex) else None;
    NextInterrupted(EpisodeInterrupted(m.episodeId, reason, m.actions, lastId, lastIndex, m.control.processBudget,
      m.control.semanticBudget, m.calls))
  }

  /** What a terminal observation is checked for before anything is projected. */
  predicate TerminalOk(projector: Projector, observed: Option<PlayerObservation>, player: Byte) {
    && observed.Some? && observed.value.schemaVersion == OBSERVATION_SCHEMA_ID
    && observed.value.perspectivePlayer == player && projector.hashOk(observed.value)
  }

  /** The terminal view of one perspective: the public value at the episode's last index. */
  function TerminalView(m: Moment, observed: Option<PlayerObservation>): ProjectedObservation
    requires observed.Some?
  {
    ProjectedValue(observed.value.(decisionIndex := m.publicDecisionIndex))
  }

  /** A finished game is reported with its winner and both views, or fails at a named stage. */
  ghost predicate EndsAs(projector: Projector, m: Moment, b: D.Boundary, accepted: bool, next: Next, views: Views)
    requires b.GameTerminal?
  {
    if !TerminalOk(projector, b.zero, 0) || !TerminalOk(projector, b.one, 1) then
      next == FailureAt(m, ObservationFailure, Teardown, accepted)
    else if TerminalView(m, b.zero).StateRefused? || TerminalView(m, b.one).StateRefused? then
      next == FailureAt(m, ObservationFailure, Projection, accepted)
    else
      && next == NextTerminal(EpisodeTerminal(m.episodeId, b.winner, b.winReason, m.actions,
           if m.frame.Some? then Some(m.frame.value.decisionIndex) else None))
      && views.zero == Some(TerminalView(m, b.zero).value) && views.one == Some(TerminalView(m, b.one).value)
  }

  /** A decision is published under the next index and the next token, described by its frame,
      or fails for the first reason it cannot be. */
  ghost predicate PublishesAs(version: Version, projector: Projector, m: Moment, b: D.Boundary, accepted: bool,
                              next: Next)
    requires b.DecisionBoundary?
  {
    if accepted && (m.frame.None? || m.frame.value.decisionIndex == U64_MAX) then
      next == FailureAt(m, FailureCode.InvalidAuthoritativeState, Projection, true)
    else
      var index := if accepted then m.frame.value.decisionIndex + 1 else 0;
      match FaultOf(version, projector, m.episodeId, b.request, b.observation, index)
      case Some(Refuses(code)) => next == FailureAt(m, code, Projection, accepted)
      case Some(DigestThrows) =>
        next == FailureAt(m, InternalDomainDivergence, if accepted then Action else Construction, true)
      case None =>
        if m.incarnation == 0 || m.generation == U64_MAX then
          next == FailureAt(m, TokenNamespaceExhausted, Projection, accepted)
        else
          && next.NextFrame? && next.frame.token == Token(m.incarnation, m.generation + 1)
          && next.frame.episodeId == m.episodeId && next.frame.decisionIndex == index
          && Describes(version, projector, next.frame, b.request, b.observation)
          && FrameOk(version, projector.digest, next.frame)
  }

  /** The reply to every boundary of a driver, after an accepted action or at the start. */
  ghost predicate RepliesAs(version: Version, projector: Projector, m: Moment, b: D.Boundary, accepted: bool,
                            next: Next, views: Views)
  {
    match b
    case DecisionBoundary(_, _) => PublishesAs(version, projector, m, b, accepted, next)
    case GameTerminal(_, _, _, _) => EndsAs(projector, m, b, accepted, next, views)
    case ProcessBudgetExceeded(_) => next == InterruptionAt(m, EngineProcessBudget)
    case SemanticBudgetExceeded(_) => next == InterruptionAt(m, SemanticActionBudget)
    case AdministrativeInterrupt(_, _) => next == InterruptionAt(m, AdministrativeCancel)
    case DriverFailure(reason, stage, mutation) =>
      next == FailureAt(m, CodeOf(reason), StageOf(stage), accepted || mutation)
  }

  /** The same while errors are still to be turned into a closure. */
  ghost predicate TakenAs(version: Version, projector: Projector, m: Moment, b: D.Boundary, accepted: bool,
                          r: Consumed, views: Views)
  {
    match r
    case Consumed(next) => RepliesAs(version, projector, m, b, accepted, next, views)
    case BoundaryError(code, stage, mutation) =>
      RepliesAs(version, projector, m, b, accepted, FailureAt(m, code, stage, accepted || mutation), views)
    case OtherException =>
      RepliesAs(version, projector, m, b, accepted,
        FailureAt(m, InternalDomainDivergence, if accepted then Action else Construction, true), views)
  }

  /** A failure shows no views. */
  lemma FailureHasNoViews(version: Version, projector: Projector, m: Moment, b: D.Boundary, accepted: bool,
                          next: Next, v: Views, w: Views)
    requires next.NextFailure? && RepliesAs(version, projector, m, b, accepted, next, v)
    ensures RepliesAs(version, projector, m, b, accepted, next, w)
  {
    hide PublishesAs, TerminalOk, TerminalView;
  }

  /** A driver at an open decision. */
  datatype Pending = Pending(
    setting: D.Setting, clock: nat, log: D.Log, request: D.Request, observed: Option<PlayerObservation>)

  /** What an accepted step did: an internal candidate, whose own public description has the
      chosen key, was applied to the driver, and the reply is that to the boundary it led to. */
  ghost predicate Took(version: Version, projector: Projector, m: Moment, p: Pending, selection: Selection,
                       t: Transition, next: Next, views: Views, after: D.Log)
  {
    exists i, applied | 0 <= i < |p.request.candidates| ::
      TookAt(version, projector, m, p, selection, p.request.candidates[i], applied, t, next, views, after)
  }

  ghost predicate TookAt(version: Version, projector: Projector, m: Moment, p: Pending, selection: Selection,
                         internal: D.Candidate, applied: D.ApplyResult, t: Transition, next: Next, views: Views,
                         after: D.Log)
  {
    && m.frame.Some? && p.observed.Some? && applied.Applied?
    && (exists c | c in m.frame.value.candidates :: c.publicKey == selection.publicKey
          && DescribesCandidate(version, projector, c, p.request, internal, p.observed.value))
    && D.AppliesAs(p.setting, p.clock, p.log, p.request, internal, applied, after)
    && t == Transition(m.frame.value.episodeId, m.frame.value.decisionId, m.frame.value.decisionIndex,
         selection.publicKey, applied.accepted.responseSubmitted, applied.accepted.finalHash)
    && RepliesAs(version, projector, m, applied.next, true, next, views)
  }

  class Environment {
    const contractId: Bytes
    const version: Version
    const projector: Projector

    var lifecycle: Lifecycle
    var driver: D.Driver?
    var control: RunControl
    var episodeId: Bytes
    var publicDecisionIndex: U64
    var incarnation: U64
    var generation: U64
    var frame: Option<Frame>
    var terminal: Option<EpisodeTerminal>
    var interruption: Option<EpisodeInterrupted>
    var failure: Option<EpisodeFailure>
    var viewZero: Option<Observation>
    var viewOne: Option<Observation>
    var bindings: seq<Binding>
    /** Every token issued so far, and those an accepted step has used. */
    ghost var issued: seq<Token>
    ghost var spent: set<Token>

    ghost function Repr(): set<object>
      reads this
    {
      if driver == null then {this} else {this, driver}
    }

    /** The token counters and the history they stand for. */
    ghost predicate Tokens()
      reads `issued, `spent, `generation, `incarnation
    {
      && History(issued, spent) && |issued| == generation
      && (issued != [] ==> issued[|issued| - 1].incarnation <= incarnation)
    }

    /** Exactly one record per closed state, and both terminal views exactly when the game
        ended. */
    ghost predicate Closures()
      reads `lifecycle, `terminal, `interruption, `failure, `viewZero, `viewOne
    {
      && (terminal.Some? <==> lifecycle == GameTerminal) && (interruption.Some? <==> lifecycle == Interrupted)
      && (failure.Some? <==> lifecycle == Failed)
      && (viewZero.Some? <==> lifecycle == GameTerminal) && (viewOne.Some? <==> lifecycle == GameTerminal)
    }

    /** An open decision: frame, bindings and the driver's pending request agree, the frame
        carries the newest token, and its index counts the actions taken so far. */
    ghost predicate Awaiting()
      reads Repr()
    {
      && frame.Some? && driver != null && driver.Valid() && driver.lifecycle == D.AwaitingDecision
      && FrameOk(version, projector.digest, frame.value)
      && Aligned(frame.value, bindings, driver.currentRequest.value) && BindingsOk(version, bindings)
      && Describes(version, projector, frame.value, driver.currentRequest.value, driver.currentObservation)
      && issued != [] && frame.value.token == issued[|issued| - 1] && frame.value.token !in spent
      && frame.value.token.incarnation == incarnation
      && frame.value.episodeId == episodeId
      && frame.value.decisionIndex == publicDecisionIndex == driver.semanticActionCount
    }

    ghost predicate Valid()
      reads Repr()
    {
      && Tokens() && Closures() && (lifecycle == Empty <==> incarnation == 0)
      && (lifecycle == AwaitingAction ==> Awaiting())
      && (lifecycle != AwaitingAction ==> driver == null && frame.None? && bindings == [])
    }

    /** A result shown to the caller is the state the environment is in. */
    ghost predicate Shows(next: Next)
      reads this
    {
      match next
      case NextFrame(f) => lifecycle == AwaitingAction && frame == Some(f)
      case NextTerminal(t) => lifecycle == GameTerminal && terminal == Some(t)
      case NextInterrupted(i) => lifecycle == Interrupted && interruption == Some(i)
      case NextFailure(f) => lifecycle == Failed && failure == Some(f)
    }

    constructor (contractId: Bytes, version: Version, projector: Projector)
      ensures Valid() && fresh(Repr()) && lifecycle == Empty && issued == [] && spent == {}
    {
      this.contractId, this.version, this.projector := contractId, version, projector;
      lifecycle, driver, episodeId, publicDecisionIndex, incarnation, generation := Empty, null, [], 0, 0, 0;
      control := RunControl(0, 0, false, []);
      frame, terminal, interruption, failure, viewZero, viewOne, bindings := None, None, None, None, None, None, [];
      issued, spent := [], {};
    }

    // -------------------------------------------------------------- closing an episode

    ghost function Now(): Moment
      requires driver != null
      reads this, driver
    {
      Moment(episodeId, control, frame, publicDecisionIndex, driver.semanticActionCount, driver.processCallCount,
        incarnation, generation)
    }

    ghost function Open(): Pending
      requires driver != null && driver.currentRequest.Some?
      reads this, driver
    {
      Pending(driver.Config(), driver.clock, driver.Written(), driver.currentRequest.value, driver.currentObservation)
    }

    function ActionCount(): U64
      reads Repr()
    {
      if driver == null then 0 else driver.semanticActionCount
    }

    function LastDecisionId(): Option<Bytes>
      reads this
    {
      if frame.Some? then Some(frame.value.decisionId) else None
    }

    function LastDecisionIndex(): Option<U64>
      reads this
    {
      if frame.Some? then Some(frame.value.decisionIndex) else None
    }

    /** Closes the episode with exactly one record. */
    method Close(state: Lifecycle, t: Option<EpisodeTerminal>, i: Option<EpisodeInterrupted>, f: Option<EpisodeFailure>,
                 zero: Option<Observation>, one: Option<Observation>)
      requires Tokens() && incarnation > 0
      requires state != Empty && state != AwaitingAction && (t.Some? <==> state == GameTerminal)
      requires (i.Some? <==> state == Interrupted) && (f.Some? <==> state == Failed)
      requires (zero.Some? <==> state == GameTerminal) && (one.Some? <==> state == GameTerminal)
      modifies this
      ensures Valid() && lifecycle == state && terminal == t && interruption == i && failure == f && driver == null
      ensures viewZero == zero && viewOne == one
      ensures issued == old(issued) && spent == old(spent) && incarnation == old(incarnation)
    {
      hide Tokens, Awaiting, D.Driver.Valid;
      EndDecision(state);
      terminal, interruption, failure := t, i, f;
      viewZero, viewOne := zero, one;
    }

    method EndDecision(state: Lifecycle)
      modifies `driver, `frame, `bindings, `lifecycle
      ensures driver == null && frame.None? && bindings == [] && lifecycle == state
    {
      driver, frame, bindings := null, None, [];
      lifecycle := state;
    }

    method CloseFailure(code: FailureCode, stage: FailureStage, mutation: bool) returns (next: Next)
      requires Tokens() && incarnation > 0
      modifies this
      ensures Valid() && Shows(next) && driver == null && viewZero.None? && viewOne.None?
      ensures issued == old(issued) && spent == old(spent) && incarnation == old(incarnation)
      ensures next == if old(driver) != null then FailureAt(old(Now()), code, stage, mutation)
        else NextFailure(EpisodeFailure(IdOf(old(episodeId)), code, stage, 0, None, mutation))
    {
      hide Tokens, Awaiting, Closures, D.Driver.Valid;
      var value := EpisodeFailure(if episodeId == [] then None else Some(episodeId), code, stage, ActionCount(),
        if driver == null then None else LastDecisionId(), mutation);
      Close(Failed, None, None, Some(value), None, None);
      return NextFailure(value);
    }

    method CloseInterrupted(reason: InterruptionReason) returns (next: Next)
      requires Tokens() && incarnation > 0 && driver != null
      modifies this
      ensures Valid() && Shows(next) && driver == null
      ensures issued == old(issued) && spent == old(spent) && incarnation == old(incarnation)
      ensures next == InterruptionAt(old(Now()), reason)
    {
      hide Tokens, Awaiting, Closures, D.Driver.Valid;
      var value := EpisodeInterrupted(episodeId, reason, ActionCount(), LastDecisionId(), LastDecisionIndex(),
        control.processBudget, control.semanticBudget, driver.processCallCount);
      Close(Interrupted, None, Some(value), None, None, None);
      return NextInterrupted(value);
    }

    /** The game ended: both views or a failure that names its stage. */
    method ReachTerminal(b: D.Boundary, ghost accepted: bool) returns (r: Consumed)
      requires b.GameTerminal? && Tokens() && incarnation > 0 && driver != null
      modifies this
      ensures TakenAs(version, projector, old(Now()), b, accepted, r, Views(viewZero, viewOne))
      ensures r.Consumed? ==> Valid() && Shows(r.next) && r.next.NextTerminal? && driver == null
      ensures !r.Consumed? ==> driver != null && Now() == old(Now())
      ensures !r.Consumed? ==> Tokens() && driver == old(driver) && frame == old(frame)
      ensures issued == old(issued) && spent == old(spent) && incarnation == old(incarnation)
    {
      hide Awaiting, Closures, D.Driver.Valid, History, ProjectedValue;
      if !TerminalOk(projector, b.zero, 0) || !TerminalOk(projector, b.one, 1) {
        return BoundaryError(ObservationFailure, Teardown, false);
      }
      var zero := ProjectPublicObservation(b.zero.value.(decisionIndex := publicDecisionIndex));
      if zero.StateRefused? {
        return BoundaryError(ObservationFailure, Projection, false);
      }
      viewZero := Some(zero.value);
      var one := ProjectPublicObservation(b.one.value.(decisionIndex := publicDecisionIndex));
      if one.StateRefused? {
        return BoundaryError(ObservationFailure, Projection, false);
      }
      viewOne := Some(one.value);
      var value := EpisodeTerminal(episodeId, b.winner, b.winReason, ActionCount(), LastDecisionIndex());
      Close(GameTerminal, Some(value), None, None, viewZero, viewOne);
      return Consumed(NextTerminal(value));
    }

    /** Publishes the next decision under a fresh token; nothing is spent if projection fails. */
    method OpenDecision(b: D.Boundary, accepted: bool) returns (r: Consumed)
      requires b.DecisionBoundary? && Tokens() && incarnation > 0 && driver != null && driver.Valid()
        && driver.Reports(b)
      requires viewZero.None? && viewOne.None?
      requires accepted ==> frame.Some? && driver.semanticActionCount == frame.value.decisionIndex + 1
      requires !accepted ==> driver.semanticActionCount == 0
      modifies this
      ensures r.Consumed? ==> Valid() && Shows(r.next) && r.next.NextFrame? && driver == old(driver)
      ensures TakenAs(version, projector, old(Now()), b, accepted, r, Views(None, None))
      ensures r.Consumed? ==>
        && issued == old(issued) + [r.next.frame.token] && r.next.frame.token == Token(incarnation, generation)
        && r.next.frame.decisionIndex == (if accepted then old(frame).value.decisionIndex + 1 else 0)
      ensures !r.Consumed? ==> Tokens() && driver == old(driver) && issued == old(issued) && Now() == old(Now())
      ensures spent == old(spent) && incarnation == old(incarnation) && viewZero.None? && viewOne.None?
    {
      hide KeysOk, FrameOk, BindingsOk, D.CandidatesOk, Aligned, History;
      var nextIndex: U64 := 0;
      if accepted {
        if frame.value.decisionIndex == U64_MAX {
          return BoundaryError(InvalidAuthoritativeState, Projection, true);
        }
        nextIndex := frame.value.decisionIndex + 1;
      }
      var projected := ProjectFrame(version, projector, episodeId, b.request, b.observation, nextIndex);
      if projected.ProjectionFailed? {
        return match projected.fault
          case Refuses(code) => BoundaryError(code, Projection, false)
          case DigestThrows => OtherException;
      }
      if incarnation == 0 || generation == U64_MAX {
        return BoundaryError(FailureCode.TokenNamespaceExhausted, Projection, false);
      }
      AlignedBindings(version, projected.frame, projected.bindings, b.request);
      var issuedFrame := IssueFrame(projected.frame, projected.bindings, nextIndex);
      return Consumed(NextFrame(issuedFrame));
    }

    /** The frame goes out under the next token. */
    method IssueFrame(projected: Frame, projectedBindings: seq<Binding>, nextIndex: U64) returns (f: Frame)
      requires Tokens() && incarnation > 0 && generation < U64_MAX && viewZero.None? && viewOne.None?
      requires driver != null && driver.Valid() && driver.lifecycle == D.AwaitingDecision && driver.currentRequest.Some?
      requires driver.semanticActionCount == nextIndex == projected.decisionIndex && projected.episodeId == episodeId
      requires FrameOk(version, projector.digest, projected) && BindingsOk(version, projectedBindings)
      requires Aligned(projected, projectedBindings, driver.currentRequest.value)
      requires Describes(version, projector, projected, driver.currentRequest.value, driver.currentObservation)
      modifies this
      ensures Valid() && driver == old(driver) && frame == Some(f) && lifecycle == AwaitingAction
      ensures f == projected.(token := Token(incarnation, generation)) && issued == old(issued) + [f.token]
      ensures generation == old(generation) + 1 && viewZero.None? && viewOne.None?
      ensures FrameOk(version, projector.digest, f)
      ensures Describes(version, projector, f, driver.currentRequest.value, driver.currentObservation)
      ensures spent == old(spent) && incarnation == old(incarnation) && episodeId == old(episodeId)
    {
      hide FrameOk, BindingsOk, Aligned, Describes, Tokens, D.Driver.Valid;
      var token := IssueToken();
      TokenKeepsCoupling(version, projector, projected, projectedBindings, driver.currentRequest.value,
        driver.currentObservation, token);
      OpenFrame(projected.(token := token), projectedBindings);
      return frame.value;
    }

    /** The state of an open decision. */
    method OpenFrame(f: Frame, frameBindings: seq<Binding>)
      modifies `publicDecisionIndex, `bindings, `frame, `lifecycle, `terminal, `interruption, `failure
      ensures frame == Some(f) && bindings == frameBindings && publicDecisionIndex == f.decisionIndex
      ensures lifecycle == AwaitingAction && terminal.None? && interruption.None? && failure.None?
    {
      publicDecisionIndex := f.decisionIndex;
      bindings := frameBindings;
      frame := Some(f);
      lifecycle := AwaitingAction;
      terminal, interruption, failure := None, None, None;
    }

    method IssueToken() returns (token: Token)
      requires Tokens() && incarnation > 0 && generation < U64_MAX
      modifies `issued, `generation
      ensures Tokens() && token == Token(incarnation, generation) && issued == old(issued) + [token] && token !in spent
      ensures generation == old(generation) + 1
    {
      hide History;
      generation := generation + 1;
      token := Token(incarnation, generation);
      NextToken(issued, spent, token);
      issued := issued + [token];
    }

    method ConsumeBoundary(b: D.Boundary, accepted: bool) returns (r: Consumed)
      requires Tokens() && incarnation > 0 && driver != null && driver.Valid() && driver.Reports(b)
      requires viewZero.None? && viewOne.None?
      requires accepted && b.DecisionBoundary? ==>
        frame.Some? && driver.semanticActionCount == frame.value.decisionIndex + 1
      requires !accepted && b.DecisionBoundary? ==> driver.semanticActionCount == 0
      modifies this
      ensures r.Consumed? ==> Valid() && Shows(r.next) && (driver == null || driver == old(driver))
      ensures TakenAs(version, projector, old(Now()), b, accepted, r, Views(viewZero, viewOne))
      ensures b.AdministrativeInterrupt? ==> r.Consumed?
      ensures r.Consumed? && r.next.NextFrame? ==>
        && issued == old(issued) + [r.next.frame.token] && r.next.frame.token == Token(incarnation, generation)
        && r.next.frame.decisionIndex == (if accepted then old(frame).value.decisionIndex + 1 else 0)
      ensures r.Consumed? && !r.next.NextFrame? ==> issued == old(issued)
      ensures !r.Consumed? ==> Tokens() && driver == old(driver) && issued == old(issued) && Now() == old(Now())
      ensures spent == old(spent) && incarnation == old(incarnation)
    {
      hide Tokens, Awaiting, Closures, PublishesAs, EndsAs, FailureAt, InterruptionAt;
      match b
      case DecisionBoundary(_, _) =>
        r := OpenDecision(b, accepted);
      case GameTerminal(_, _, _, _) =>
        r := ReachTerminal(b, accepted);
      case ProcessBudgetExceeded(_) =>
        var next := CloseInterrupted(EngineProcessBudget);
        return Consumed(next);
      case SemanticBudgetExceeded(_) =>
        var next := CloseInterrupted(SemanticActionBudget);
        return Consumed(next);
      case AdministrativeInterrupt(_, _) =>
        var next := CloseInterrupted(AdministrativeCancel);
        return Consumed(next);
      case DriverFailure(reason, stage, mutation) =>
        var next := CloseFailure(CodeOf(reason), StageOf(stage), accepted || mutation);
        return Consumed(next);
    }

    // -------------------------------------------------------------- the public calls

    /** Why a reset is refused, in the order the checks are made. */
    function ResetRejection(spec: EpisodeSpec, run: RunControl, world: ResetWorld): Option<ResetRejectionCode>
      reads this
    {
      if lifecycle == AwaitingAction then Some(ResetWhileAwaitingAction)
      else if spec.contractId != contractId then Some(InvalidContract)
      else if !run.cancelReasonKnown then Some(UnsupportedResetConfiguration)
      else if spec.startingPlayer > 1 then Some(InvalidStartingPlayer)
      else if !spec.seatKnown then Some(InvalidEpisodeSpec)
      else if run.processBudget == 0 || run.semanticBudget == 0 || !SafeSourceLabel(run.source) then
        Some(InvalidRunControl)
      else if incarnation == U64_MAX then Some(TokenNamespaceFull)
      else if !world.resourcesMatch || world.identity.IdentityMismatch? then Some(ResourceIdentityMismatch)
      else if world.identity.IdentityInvalid? then Some(InvalidEpisodeSpec)
      else None
    }

    /** What an accepted reset leads to: the first boundary of the new driver, or the failure of
        one that could not be built. */
    ghost predicate Starts(run: RunControl, world: ResetWorld, issuedBefore: U64, next: Next)
      requires world.identity.EpisodeIdentity?
      reads this
    {
      var id := world.identity.id;
      if world.engine.None? then
        next == NextFailure(EpisodeFailure(IdOf(id), InternalDomainDivergence, Construction, 0, None, true))
      else
        var s := D.Setting(world.engine.value, run.processBudget, run.semanticBudget, true, world.probe);
        exists b, calls :: D.RunsTo(s, 0, 0, 0, b) && RepliesAs(version, projector,
          Moment(id, run, None, 0, 0, calls, incarnation, issuedBefore), b, false, next, Views(viewZero, viewOne))
    }

    method Reset(spec: EpisodeSpec, run: RunControl, world: ResetWorld) returns (r: ResetResult)
      requires Valid()
      modifies this
      ensures Valid() && fresh(Repr() - old(Repr()))
      ensures match old(ResetRejection(spec, run, world))
        case Some(code) => r == ResetRejected(code) && unchanged(this)
        case None =>
          && r.ResetAccepted? && Shows(r.next) && incarnation == old(incarnation) + 1
          && Starts(run, world, old(generation), r.next)
      ensures spent == old(spent) && old(issued) <= issued
      ensures r.ResetAccepted? && r.next.NextFrame? ==>
        && r.next.frame.decisionIndex == 0 && issued == old(issued) + [r.next.frame.token]
        && r.next.frame.token == Token(incarnation, |issued|)
      ensures r.ResetAccepted? && !r.next.NextFrame? ==> issued == old(issued)
    {
      hide Tokens, Closures, D.Driver.Valid, D.Driver.Reports, Awaiting, SafeSourceLabel;
      var rejection := ResetRejection(spec, run, world);
      if rejection.Some? {
        return ResetRejected(rejection.value);
      }
      BeginEpisode(run, world.identity.id);
      if world.engine.None? {
        var next := CloseFailure(InternalDomainDivergence, Construction, true);
        return ResetAccepted(next);
      }
      driver := new D.Driver(world.engine.value, run.processBudget, run.semanticBudget, true, world.probe);
      var boundary := driver.AdvanceUntilBoundary();
      var consumed := ConsumeFirst(boundary.value);
      return ResetAccepted(consumed);
    }

    /** A new incarnation with every field of the last episode cleared. */
    method BeginEpisode(run: RunControl, id: Bytes)
      requires Tokens() && incarnation < U64_MAX
      modifies this
      ensures Tokens() && incarnation == old(incarnation) + 1 && issued == old(issued) && spent == old(spent)
      ensures driver == null && frame.None? && viewZero.None? && viewOne.None?
      ensures control == run && episodeId == id && publicDecisionIndex == 0 && generation == old(generation)
    {
      hide History;
      incarnation := incarnation + 1;
      control := run;
      episodeId := id;
      publicDecisionIndex := 0;
      frame, terminal, interruption, failure := None, None, None, None;
      viewZero, viewOne := None, None;
      driver := null;
    }

    /** The first boundary of an episode; a projection error closes it. */
    method ConsumeFirst(b: D.Boundary) returns (next: Next)
      requires Tokens() && incarnation > 0 && driver != null && driver.Valid() && driver.Reports(b)
      requires viewZero.None? && viewOne.None? && driver.semanticActionCount == 0
      modifies this
      ensures Valid() && Shows(next) && (driver == null || driver == old(driver))
      ensures RepliesAs(version, projector, old(Now()), b, false, next, Views(viewZero, viewOne))
      ensures next.NextFrame? ==>
        && next.frame.decisionIndex == 0 && issued == old(issued) + [next.frame.token]
        && next.frame.token == Token(incarnation, |issued|)
      ensures !next.NextFrame? ==> issued == old(issued)
      ensures spent == old(spent) && incarnation == old(incarnation)
    {
      hide History, D.Driver.Valid, D.Driver.Reports, Awaiting, RepliesAs, FailureAt;
      ghost var m := Now();
      var consumed := ConsumeBoundary(b, false);
      ghost var views := Views(viewZero, viewOne);
      if consumed.BoundaryError? {
        next := CloseFailure(consumed.code, consumed.stage, consumed.mutation);
        FailureHasNoViews(version, projector, m, b, false, next, views, Views(None, None));
        return;
      }
      if consumed.OtherException? {
        next := CloseFailure(InternalDomainDivergence, Construction, true);
        FailureHasNoViews(version, projector, m, b, false, next, views, Views(None, None));
        return;
      }
      return consumed.next;
    }

    /** Why a step is refused, in the order the checks are made. The code has one more reason,
        a divergence between candidates and bindings; `Step` proves it never arises. */
    function StepRejection(selection: Selection): Option<RejectionCode>
      reads this
    {
      if selection.contractId != contractId then Some(IncompatibleContract)
      else if lifecycle != AwaitingAction || frame.None? then Some(InvalidLifecycle)
      else if selection.episodeId != frame.value.episodeId then Some(WrongEpisode)
      else if selection.token != frame.value.token then Some(StaleSubmissionToken)
      else if selection.decisionId != frame.value.decisionId then Some(WrongPublicSemanticDecision)
      else if selection.publicKey !in FrameKeys(frame.value) then Some(UnknownPublicActionKey)
      else None
    }

    method FindPublicKey(key: Bytes) returns (position: Option<nat>)
      requires frame.Some?
      ensures position.Some? ==>
        position.value < |frame.value.candidates| && frame.value.candidates[position.value].publicKey == key
      ensures position.None? <==> key !in FrameKeys(frame.value)
    {
      var keys := FrameKeys(frame.value);
      for i := 0 to |keys|
        invariant forall j :: 0 <= j < i ==> keys[j] != key
      {
        if keys[i] == key {
          return Some(i);
        }
      }
      return None;
    }

    /** One step. A refusal changes nothing; an acceptance spends the token for good and leaves
        either the next decision, one index further and under the next token, or one closure. */
    method Step(selection: Selection) returns (r: StepResult)
      requires Valid()
      modifies Repr()
      ensures Valid() && fresh(Repr() - old(Repr()))
      ensures match old(StepRejection(selection))
        case Some(code) => r == StepRejected(code)
        case None => r.StepAccepted? && Shows(r.next)
      ensures r.StepRejected? ==> unchanged(this) && (old(driver) != null ==> unchanged(old(driver)))
      ensures incarnation == old(incarnation) && old(issued) <= issued
      ensures r.StepRejected? ==> spent == old(spent) && issued == old(issued)
      ensures r.StepAccepted? ==> selection.token !in old(spent) && spent == old(spent) + {selection.token}
      ensures r.StepAccepted? && r.next.NextFrame? ==>
        && r.next.frame.decisionIndex == old(frame).value.decisionIndex + 1
        && issued == old(issued) + [r.next.frame.token] && r.next.frame.token == Token(incarnation, |issued|)
      ensures r.StepAccepted? && !r.next.NextFrame? ==> issued == old(issued)
      ensures r.StepAccepted? ==>
        var d := old(driver);
        var m := old(Now()).(actions := d.semanticActionCount, calls := d.processCallCount);
        Took(version, projector, m, old(Open()), selection, r.transition, r.next, Views(viewZero, viewOne), d.Written())
    {
      hide History, FrameOk, BindingsOk, Describes, Took, D.CandidatesOk, FrameKeys, D.Driver.Records,
        D.Driver.Ongoing;
      if selection.contractId != contractId {
        return StepRejected(IncompatibleContract);
      }
      if lifecycle != AwaitingAction || frame.None? || driver == null {
        return StepRejected(InvalidLifecycle);
      }
      if selection.episodeId != frame.value.episodeId {
        return StepRejected(WrongEpisode);
      }
      if selection.token != frame.value.token {
        return StepRejected(StaleSubmissionToken);
      }
      if selection.decisionId != frame.value.decisionId {
        return StepRejected(WrongPublicSemanticDecision);
      }
      var position := FindPublicKey(selection.publicKey);
      if position.None? {
        return StepRejected(UnknownPublicActionKey);
      }
      var internalKey := ResolveChosen(position.value);
      r := TakeStep(selection, position.value, internalKey);
    }

    /** The resolver answers for every candidate of an open frame, with the key at its place. */
    method ResolveChosen(position: nat) returns (internalKey: Bytes)
      requires Valid() && lifecycle == AwaitingAction && position < |frame.value.candidates|
      ensures internalKey == driver.currentRequest.value.candidates[position].semanticKey
    {
      hide History, FrameOk, BindingsOk, D.CandidatesOk;
      var resolved := ResolvePublicActionKey(version, bindings, frame.value.candidates[position].publicKey);
      ResolvesOnce(version, bindings, position, bindings[position].internalKey);
      assert resolved.Some?;
      ResolvesOnce(version, bindings, position, resolved.value);
      return resolved.value;
    }

    method TakeStep(selection: Selection, position: nat, internalKey: Bytes) returns (r: StepResult)
      requires Valid() && lifecycle == AwaitingAction && position < |frame.value.candidates|
      requires selection.token == frame.value.token && selection.publicKey == frame.value.candidates[position].publicKey
      requires internalKey == driver.currentRequest.value.candidates[position].semanticKey
      modifies this, driver
      ensures Valid() && fresh(Repr() - old(Repr())) && r.StepAccepted? && Shows(r.next)
      ensures incarnation == old(incarnation) && old(issued) <= issued
      ensures selection.token !in old(spent) && spent == old(spent) + {selection.token}
      ensures r.next.NextFrame? ==>
        && r.next.frame.decisionIndex == old(frame).value.decisionIndex + 1
        && issued == old(issued) + [r.next.frame.token] && r.next.frame.token == Token(incarnation, |issued|)
      ensures !r.next.NextFrame? ==> issued == old(issued)
      ensures
        var d := old(driver);
        var m := old(Now()).(actions := d.semanticActionCount, calls := d.processCallCount);
        Took(version, projector, m, old(Open()), selection, r.transition, r.next, Views(viewZero, viewOne), d.Written())
    {
      hide History, Awaiting, D.AppliesAs, D.Driver.Valid, D.Driver.Reports, RepliesAs, DescribesCandidate, Closures;
      OpenCandidate(position);
      ghost var d, m, p, was := driver, Now(), Open(), frame.value;
      var applied := ApplyChosen(position, internalKey);
      var transition := Transition(frame.value.episodeId, frame.value.decisionId, frame.value.decisionIndex,
        selection.publicKey, applied.accepted.responseSubmitted, applied.accepted.finalHash);
      SpendToken(issued, spent);
      spent := spent + {selection.token};
      ghost var now := m.(actions := d.semanticActionCount, calls := d.processCallCount);
      assert now == Now();
      var next := ConsumeNext(applied.next);
      assert was.candidates[position] in was.candidates;
      assert TookAt(version, projector, now, p, selection, p.request.candidates[position], applied, transition, next,
        Views(viewZero, viewOne), d.Written());
      return StepAccepted(transition, next);
    }

    /** What the invariant says of one candidate of an open decision. */
    lemma OpenCandidate(position: nat)
      requires Valid() && lifecycle == AwaitingAction && position < |frame.value.candidates|
      ensures Tokens() && frame.Some? && driver != null && driver.Valid() && driver.lifecycle == D.AwaitingDecision
      ensures driver.currentRequest.Some? && driver.currentObservation.Some?
      ensures var request := driver.currentRequest.value;
        && position < |request.candidates|
        && DescribesCandidate(version, projector, frame.value.candidates[position], request,
             request.candidates[position], driver.currentObservation.value)
      ensures issued != [] && frame.value.token == issued[|issued| - 1] && frame.value.token !in spent
      ensures driver.semanticActionCount == frame.value.decisionIndex && viewZero.None? && viewOne.None?
    {
      hide FrameOk, BindingsOk, History, DescribesCandidate, D.CandidatesOk, D.Driver.Ongoing;
    }

    /** The candidate at a position is applied to the driver. */
    method ApplyChosen(position: nat, internalKey: Bytes) returns (applied: D.ApplyResult)
      requires driver != null && driver.Valid() && driver.lifecycle == D.AwaitingDecision
      requires position < |driver.currentRequest.value.candidates|
      requires internalKey == driver.currentRequest.value.candidates[position].semanticKey
      modifies driver
      ensures driver.Valid() && applied.Applied? && driver.Reports(applied.next)
      ensures var p := old(Open());
        D.AppliesAs(p.setting, p.clock, p.log, p.request, p.request.candidates[position], applied, driver.Written())
      ensures applied.next.DecisionBoundary? ==> driver.semanticActionCount == old(driver.semanticActionCount) + 1
    {
      hide D.CandidatesOk, D.AppliesAs, D.Driver.InStep, D.Driver.Reports, D.FinalHashes, Map;
      applied := driver.ApplySemanticKey(internalKey);
    }

    /** The boundary after an accepted action; a projection error closes the episode. */
    method ConsumeNext(b: D.Boundary) returns (next: Next)
      requires Tokens() && incarnation > 0 && driver != null && driver.Valid() && driver.Reports(b)
      requires viewZero.None? && viewOne.None? && frame.Some?
      requires b.DecisionBoundary? ==> driver.semanticActionCount == frame.value.decisionIndex + 1
      modifies this
      ensures Valid() && Shows(next) && (driver == null || driver == old(driver))
      ensures RepliesAs(version, projector, old(Now()), b, true, next, Views(viewZero, viewOne))
      ensures next.NextFrame? ==>
        && next.frame.decisionIndex == old(frame).value.decisionIndex + 1 && issued == old(issued) + [next.frame.token]
        && next.frame.token == Token(incarnation, |issued|)
      ensures !next.NextFrame? ==> issued == old(issued)
      ensures spent == old(spent) && incarnation == old(incarnation)
    {
      hide History, D.Driver.Valid, D.Driver.Reports, Awaiting, RepliesAs, FailureAt;
      ghost var m := Now();
      var consumed := ConsumeBoundary(b, true);
      ghost var views := Views(viewZero, viewOne);
      if consumed.BoundaryError? {
        next := CloseFailure(consumed.code, consumed.stage, true);
        FailureHasNoViews(version, projector, m, b, true, next, views, Views(None, None));
        return;
      }
      if consumed.OtherException? {
        next := CloseFailure(InternalDomainDivergence, Action, true);
        FailureHasNoViews(version, projector, m, b, true, next, views, Views(None, None));
        return;
      }
      return consumed.next;
    }

    function InterruptRejection(requestContract: Bytes, reason: InterruptionReason): Option<RejectionCode>
      reads this
    {
      if requestContract != contractId then Some(IncompatibleContract)
      else if lifecycle != AwaitingAction then Some(InvalidLifecycle)
      else if reason != AdministrativeCancel then Some(UnsupportedInterruptionReason)
      else None
    }

    /** Ends an open episode. Once accepted it always succeeds: the failure results the code
        allows for do not arise. */
    method Interrupt(requestContract: Bytes, reason: InterruptionReason) returns (r: InterruptResult)
      requires Valid()
      modifies Repr()
      ensures r.InterruptRejected? ==> unchanged(this) && (old(driver) != null ==> unchanged(old(driver)))
      ensures match old(InterruptRejection(requestContract, reason))
        case Some(code) => r == InterruptRejected(code)
        case None =>
          && r.InterruptAccepted? && Shows(NextInterrupted(r.interruption)) && old(driver) != null
          && NextInterrupted(r.interruption) == InterruptionAt(old(Now()), AdministrativeCancel)
      ensures issued == old(issued) && spent == old(spent) && incarnation == old(incarnation)
      ensures fresh(Repr() - old(Repr())) && Valid()
    {
      hide History, FrameOk, BindingsOk, D.CandidatesOk, FrameKeys, D.Driver.Records, D.Driver.Ongoing;
      var rejection := InterruptRejection(requestContract, reason);
      if rejection.Some? {
        return InterruptRejected(rejection.value);
      }
      var boundary := driver.Interrupt();
      var consumed := ConsumeBoundary(boundary.value, false);
      return InterruptAccepted(consumed.next.interruption);
    }

    /** The public view of a finished game from one side. */
    method PerspectiveTerminalView(player: Byte) returns (view: Option<Observation>)
      requires Valid()
      ensures view == if lifecycle != GameTerminal then None else if player == 0 then viewZero
        else if player == 1 then viewOne else None
    {
      if lifecycle != GameTerminal || player > 1 {
        return None;
      }
      return if player == 0 then viewZero else viewOne;
    }
  }
}
