/** The episode driver: a process loop over a closed engine, one applied action at a time, an
    engine trace, two budgets, and failure paths that must leave a closed driver behind.

    The engine is an oracle. Every interaction that may answer differently or throw (process,
    observation building, trace hashing, continuation steps, response submission) consults it
    with a running clock, so what is proved holds for every engine behaviour. */
module EpisodeDriver {
  import opened Bytes
  import opened Sorting
  import opened PublicAction
  import opened SafeStateBoundary

  // ---------------------------------------------------------------- requests

  datatype Candidate = Candidate(
    semanticKey: Bytes, cardSelection: bool, operation: Operation, submitsResponse: bool, response: Bytes)

  /** A decoded decision request; `rest` stands for the fields the driver does not look at. */
  datatype Request = Request(
    player: Byte, unselectCard: bool, continuation: bool, engineStepIndex: U64, candidates: seq<Candidate>, rest: Bytes)

  predicate CandidateOk(request: Request, c: Candidate) {
    && c.semanticKey != []
    && (if request.unselectCard && c.cardSelection then c.operation != NoOperation else c.operation == NoOperation)
    && (c.submitsResponse <==> c.response != [])
  }

  /** Complete: at least one candidate, each well formed, no semantic key twice. */
  predicate CandidatesOk(request: Request) {
    && request.candidates != []
    && (forall i :: 0 <= i < |request.candidates| ==> CandidateOk(request, request.candidates[i]))
    && (forall i, j :: 0 <= i < j < |request.candidates| ==>
          request.candidates[i].semanticKey != request.candidates[j].semanticKey)
  }

  datatype SetDefect = IncompleteSet | RepeatedKey

  /** A semantic key comes up again while every candidate so far is well formed. */
  predicate RepeatsKey(request: Request) {
    exists i, j :: 0 <= j < i < |request.candidates|
      && request.candidates[j].semanticKey == request.candidates[i].semanticKey
      && forall k :: 0 <= k <= i ==> CandidateOk(request, request.candidates[k])
  }

  /** The first defect of a candidate set. */
  method ValidateCandidateSet(request: Request) returns (defect: Option<SetDefect>)
    ensures defect.None? <==> CandidatesOk(request)
    ensures defect == Some(RepeatedKey) <==> RepeatsKey(request)
  {
    var candidates := request.candidates;
    if candidates == [] {
      return Some(IncompleteSet);
    }
    for i := 0 to |candidates|
      invariant forall k :: 0 <= k < i ==> CandidateOk(request, candidates[k])
      invariant forall j, k :: 0 <= j < k < i ==> candidates[j].semanticKey != candidates[k].semanticKey
    {
      if !CandidateOk(request, candidates[i]) {
        return Some(IncompleteSet);
      }
      for j := 0 to i
        invariant forall k :: 0 <= k < j ==> candidates[k].semanticKey != candidates[i].semanticKey
      {
        if candidates[i].semanticKey == candidates[j].semanticKey {
          return Some(RepeatedKey);
        }
      }
    }
    return None;
  }

  // ---------------------------------------------------------------- the engine as an oracle

  datatype ProtocolCode = MalformedMessage | UnsupportedDecision | InvalidSemanticKey | IncompleteCandidates

  datatype Exception = ProtocolError(code: ProtocolCode) | CoreError | OtherError

  datatype Decoded =
    | Undecodable(error: Exception)
    | Retry
    | TerminalMessage(winner: Byte, winReason: Byte)
    | Quiet
    | Interactive(decisions: seq<Request>)

  datatype ProcessReply = ProcessThrew(error: Exception) | Processed(decoded: Decoded)

  datatype PublishReply = PublishThrew(error: Exception) | Published(observation: Option<PlayerObservation>)

  datatype TerminalReply =
    | TerminalThrew(error: Exception)
    | TerminalBuilt(zero: Option<PlayerObservation>, one: Option<PlayerObservation>)

  datatype ContinuationReply =
    | ContinuationThrew(error: Exception)
    | Transition(engineAdvanced: bool, response: Bytes, terminal: bool, request: Request)

  /** Whether submitting a response threw, and if so whether the engine had taken it. */
  datatype SubmitReply = Submitted | SubmitThrew(taken: bool)

  datatype Engine = Engine(
    process: nat -> ProcessReply, publish: nat -> PublishReply, terminal: nat -> TerminalReply,
    continuation: nat -> ContinuationReply, prepareStep: nat -> Option<Exception>, submit: nat -> SubmitReply,
    probeDecodes: bool, digest: Bytes -> Bytes)

  // ---------------------------------------------------------------- trace and boundaries

  datatype TraceStep = TraceStep(
    stepIndex: int, decisionIndex: U32, selectedKey: Bytes, engineAdvanced: bool, responseHash: Option<Bytes>,
    finalHash: Option<Bytes>, terminal: bool)

  /** The final response hashes recorded in a trace, in order. */
  function FinalHashes(steps: seq<TraceStep>): seq<Bytes> {
    if steps == [] then [] else
      var last := steps[|steps| - 1].finalHash;
      FinalHashes(steps[..|steps| - 1]) + (if last.Some? then [last.value] else [])
  }

  lemma FinalHashesPush(steps: seq<TraceStep>, step: TraceStep)
    ensures FinalHashes(steps + [step]) ==
      FinalHashes(steps) + (if step.finalHash.Some? then [step.finalHash.value] else [])
  {
    assert (steps + [step])[..|steps|] == steps;
  }

  datatype Reason =
    | RetryFailure | CoreFailure | UnsupportedProtocol | ForcedUnsupported | MalformedProtocol | CandidateTruncated
    | ResponseInconsistency | InvalidAuthoritativeState | SimulationError

  datatype Stage = AdvanceStage | ActionStage

  datatype Boundary =
    | DecisionBoundary(request: Request, observation: Option<PlayerObservation>)
    | GameTerminal(winner: Byte, winReason: Byte, zero: Option<PlayerObservation>, one: Option<PlayerObservation>)
    | ProcessBudgetExceeded(processCalls: U64)
    | SemanticBudgetExceeded(semanticActions: U64)
    | AdministrativeInterrupt(calls: U64, actions: U64)
    | DriverFailure(reason: Reason, stage: Stage, mutation: bool)

  datatype Accepted = Accepted(selectedKey: Bytes, responseSubmitted: bool, finalHash: Option<Bytes>)

  datatype ApplyResult =
    | Applied(accepted: Accepted, next: Boundary)
    | NotApplied(next: Boundary)
    | Threw(error: Exception)

  datatype Lifecycle =
    | Advancing | AwaitingDecision | Terminal | BudgetExhausted | SemanticBudgetExhausted | Interrupted | Failed

  function ReasonOf(e: Exception): (r: Reason)
    ensures r == CandidateTruncated <==> e == ProtocolError(IncompleteCandidates)
    ensures r == MalformedProtocol <==> e == ProtocolError(MalformedMessage)
    ensures r == UnsupportedProtocol <==> e in {ProtocolError(UnsupportedDecision), ProtocolError(InvalidSemanticKey)}
    ensures r == CoreFailure <==> e == CoreError
    ensures r == SimulationError <==> e == OtherError
  {
    match e
    case ProtocolError(IncompleteCandidates) => CandidateTruncated
    case ProtocolError(MalformedMessage) => MalformedProtocol
    case ProtocolError(_) => UnsupportedProtocol
    case CoreError => CoreFailure
    case OtherError => SimulationError
  }

  /** What a driver is configured with, and the engine it drives. */
  datatype Setting = Setting(
    engine: Engine, processBudget: U64, semanticBudget: U64, fullObservation: bool, forceUnsupported: bool)

  // ---------------------------------------------------------------- what the engine answered

  /** Opening a request at a time ends in this boundary: the request itself with the
      observation published then, or the failure of what went wrong. */
  ghost predicate OpensAs(s: Setting, t: nat, request: Request, b: Boundary) {
    match b
    case DecisionBoundary(shown, observation) =>
      && shown == request && CandidatesOk(request)
      && (if s.fullObservation then s.engine.publish(t) == Published(observation) else observation.None?)
    case DriverFailure(reason, stage, mutation) =>
      && stage == AdvanceStage && !mutation
      && (if CandidatesOk(request) then
            s.fullObservation && s.engine.publish(t).PublishThrew? && reason == ReasonOf(s.engine.publish(t).error)
          else reason == CandidateTruncated)
    case _ => false
  }

  /** The reply to the engine call at a time ends in this boundary, after so many actions. */
  ghost predicate AnswersAs(s: Setting, t: nat, actions: U64, b: Boundary) {
    match b
    case GameTerminal(winner, winReason, zero, one) =>
      && s.engine.process(t) == Processed(TerminalMessage(winner, winReason))
      && s.engine.terminal(t + 1) == TerminalBuilt(zero, one)
    case DecisionBoundary(request, _) =>
      && actions < s.semanticBudget && s.engine.process(t) == Processed(Interactive([request]))
      && OpensAs(s, t + 1, request, b)
    case SemanticBudgetExceeded(counted) =>
      && counted == actions >= s.semanticBudget && s.engine.process(t).Processed?
      && s.engine.process(t).decoded.Interactive? && |s.engine.process(t).decoded.decisions| == 1
    case DriverFailure(reason, stage, mutation) =>
      stage == AdvanceStage && !mutation && FailsAs(s, t, actions, reason)
    case _ => false
  }

  /** The call failed, or what followed it did, for this reason. */
  ghost predicate FailsAs(s: Setting, t: nat, actions: U64, reason: Reason) {
    match s.engine.process(t)
    case ProcessThrew(error) => reason == ReasonOf(error)
    case Processed(Undecodable(error)) => reason == ReasonOf(error)
    case Processed(Retry) => reason == RetryFailure
    case Processed(TerminalMessage(_, _)) =>
      s.engine.terminal(t + 1).TerminalThrew? && reason == ReasonOf(s.engine.terminal(t + 1).error)
    case Processed(Quiet) => false
    case Processed(Interactive(decisions)) =>
      if |decisions| != 1 then reason == UnsupportedProtocol
      else actions < s.semanticBudget && OpensAs(s, t + 1, decisions[0], DriverFailure(reason, AdvanceStage, false))
  }

  /** A reply other than a quiet one ends in one boundary only, so whatever boundary a method
      reports under `AnswersAs` is the one that reply gives. */
  lemma OneAnswer(s: Setting, t: nat, actions: U64, b: Boundary, c: Boundary)
    requires AnswersAs(s, t, actions, b) && AnswersAs(s, t, actions, c)
    ensures b == c && s.engine.process(t) != Processed(Quiet)
  {
  }

  lemma FailureAnswers(s: Setting, t: nat, actions: U64, reason: Reason)
    requires FailsAs(s, t, actions, reason)
    ensures AnswersAs(s, t, actions, DriverFailure(reason, AdvanceStage, false))
  {
  }

  lemma TerminalAnswers(s: Setting, t: nat, actions: U64, winner: Byte, winReason: Byte, b: Boundary)
    requires s.engine.process(t) == Processed(TerminalMessage(winner, winReason))
    requires match s.engine.terminal(t + 1)
      case TerminalBuilt(zero, one) => b == GameTerminal(winner, winReason, zero, one)
      case TerminalThrew(error) => b == DriverFailure(ReasonOf(error), AdvanceStage, false)
    ensures AnswersAs(s, t, actions, b)
  {
  }

  lemma DecisionAnswers(s: Setting, t: nat, actions: U64, decisions: seq<Request>, b: Boundary)
    requires s.engine.process(t) == Processed(Interactive(decisions))
    requires
      if |decisions| != 1 then b == DriverFailure(UnsupportedProtocol, AdvanceStage, false)
      else if actions >= s.semanticBudget then b == SemanticBudgetExceeded(actions)
      else OpensAs(s, t + 1, decisions[0], b)
    ensures AnswersAs(s, t, actions, b)
  {
    hide CandidatesOk, ReasonOf;
    if |decisions| == 1 {
      assert decisions == [decisions[0]];
    }
  }

  ghost predicate QuietFor(s: Setting, t: nat, turns: nat) {
    forall now :: t <= now < t + turns ==> s.engine.process(now) == Processed(Quiet)
  }

  /** Running the engine from a time and a call index ends in this boundary: after some quiet
      turns the budget is spent, the call index no longer fits, or a reply is not quiet. */
  ghost predicate RunsTo(s: Setting, t: nat, index: U64, actions: U64, b: Boundary) {
    if s.forceUnsupported then
      b == DriverFailure(if s.engine.probeDecodes then SimulationError else ForcedUnsupported, AdvanceStage, false)
    else exists turns: nat :: QuietFor(s, t, turns) && RunsAfter(s, t, index, actions, b, turns)
  }

  ghost predicate RunsAfter(s: Setting, t: nat, index: U64, actions: U64, b: Boundary, turns: nat) {
    if index + turns >= s.processBudget then
      index + turns == s.processBudget && b == ProcessBudgetExceeded(s.processBudget)
    else if index + turns > U32_MAX then b == DriverFailure(InvalidAuthoritativeState, AdvanceStage, false)
    else AnswersAs(s, t + turns, actions, b)
  }

  // ---------------------------------------------------------------- what an action led to

  /** How often the engine was called to advance, what the trace holds, and what the engine took. */
  datatype Log = Log(calls: U64, steps: seq<TraceStep>, submissions: seq<Bytes>)

  /** The step of a finished game, at the last call and under the next index. */
  function EndingStep(calls: U64, index: U32): TraceStep {
    TraceStep(calls - 1, index, [], true, None, None, true)
  }

  /** A trace at a boundary: only a finished game adds a step of its own. */
  function WithEnding(steps: seq<TraceStep>, b: Boundary, calls: U64, index: U32): seq<TraceStep> {
    if b.GameTerminal? then steps + [EndingStep(calls, index)] else steps
  }

  /** Nothing recorded, nothing submitted, the driver closed. */
  ghost predicate Unrecorded(before: Log, key: Bytes, reason: Reason, stage: Stage, r: ApplyResult, after: Log) {
    r == Applied(Accepted(key, false, None), DriverFailure(reason, stage, false)) && after == before
  }

  /** One intermediate step recorded, nothing submitted, the next request opened if the budget
      allows another action. */
  ghost predicate ContinuesAs(s: Setting, t: nat, before: Log, key: Bytes, transition: ContinuationReply,
                              r: ApplyResult, after: Log)
    requires transition.Transition? && |before.steps| < U32_MAX
  {
    var count := |before.steps|;
    var hash := if transition.response == [] then None else Some(s.engine.digest(transition.response));
    var step := TraceStep(before.calls - 1, count, key, transition.engineAdvanced, hash, None, false);
    && r.Applied? && r.accepted == Accepted(key, false, None) && after == before.(steps := before.steps + [step])
    && (if count + 1 >= s.semanticBudget then r.next == SemanticBudgetExceeded(count + 1)
        else OpensAs(s, t, transition.request, r.next))
  }

  /** One final step recorded with the hash of the response, and the response handed over. If
      the engine takes it without a throw, it runs on from there. */
  ghost predicate SubmitsAs(s: Setting, t: nat, before: Log, key: Bytes, engineAdvanced: bool, response: Bytes,
                            r: ApplyResult, after: Log)
    requires |before.steps| < U32_MAX
  {
    var count := |before.steps|;
    var hash := s.engine.digest(response);
    var step := TraceStep(before.calls - 1, count, key, engineAdvanced, Some(hash), Some(hash), false);
    && r.Applied? && after.steps == WithEnding(before.steps + [step], r.next, after.calls, count + 1)
    && after.submissions == (if response != [] && s.engine.submit(t) != SubmitThrew(false)
                             then before.submissions + [response] else before.submissions)
    && (if response != [] && s.engine.submit(t) == Submitted then
          r.accepted == Accepted(key, true, Some(hash)) && RunsTo(s, t + 1, before.calls, count + 1, r.next)
        else r == Applied(Accepted(key, false, None), DriverFailure(ResponseInconsistency, ActionStage, true)))
  }

  /** What applying a candidate at a time leads to, given every answer of the engine. */
  ghost predicate AppliesAs(s: Setting, t: nat, before: Log, request: Request, selected: Candidate, r: ApplyResult,
                            after: Log)
  {
    var key := selected.semanticKey;
    var now := if request.continuation then t + 1 else t;
    var reply := s.engine.continuation(t);
    if |before.steps| >= U32_MAX then Unrecorded(before, key, InvalidAuthoritativeState, ActionStage, r, after)
    else if request.continuation && reply.ContinuationThrew? then
      Unrecorded(before, key, ReasonOf(reply.error), AdvanceStage, r, after)
    else if s.engine.prepareStep(now).Some? then
      Unrecorded(before, key, ReasonOf(s.engine.prepareStep(now).value), AdvanceStage, r, after)
    else if !request.continuation then SubmitsAs(s, now + 1, before, key, true, selected.response, r, after)
    else if reply.terminal then SubmitsAs(s, now + 1, before, key, reply.engineAdvanced, reply.response, r, after)
    else ContinuesAs(s, now + 1, before, key, reply, r, after)
  }

  class Driver {
    const engine: Engine
    const processBudget: U64
    const semanticBudget: U64
    const fullObservation: bool
    const forceUnsupported: bool

    var lifecycle: Lifecycle
    var clock: nat
    var hostAlive: bool
    var hostProcessCalls: U64
    /** Every response the engine has taken, in order. */
    var submissions: seq<Bytes>

    var currentRequest: Option<Request>
    var currentObservation: Option<PlayerObservation>
    var steps: seq<TraceStep>
    var nextProcessIndex: U64
    var traceDecisionIndex: U32
    var semanticActionCount: U64
    var continuationSteps: U32
    var processCallCount: U64
    var failure: Option<(Reason, Stage, bool)>

    ghost function Config(): Setting {
      Setting(engine, processBudget, semanticBudget, fullObservation, forceUnsupported)
    }

    ghost function Written(): Log
      reads `nextProcessIndex, `steps, `submissions
    {
      Log(nextProcessIndex, steps, submissions)
    }

    /** What the trace and the counters agree on in every state, open or closed. */
    ghost predicate Records()
      reads `steps, `semanticActionCount, `continuationSteps, `nextProcessIndex, `hostProcessCalls, `submissions
    {
      && (forall i :: 0 <= i < |steps| ==> steps[i].decisionIndex == i)
      && (forall i :: 0 <= i < |steps| - 1 ==> !steps[i].terminal)
      && semanticActionCount == DecisionSteps()
      && semanticActionCount == continuationSteps + |FinalHashes(steps)|
      && semanticActionCount <= semanticBudget
      && nextProcessIndex <= hostProcessCalls <= nextProcessIndex + 1
      && hostProcessCalls <= processBudget
      && Map(engine.digest, submissions) <= FinalHashes(steps)
      && |FinalHashes(steps)| <= |submissions| + 1
    }

    ghost function DecisionSteps(): nat
      reads `steps
    {
      if steps != [] && steps[|steps| - 1].terminal then |steps| - 1 else |steps|
    }

    /** Nothing is half done: the engine and the driver count the same calls and responses. */
    ghost predicate InStep()
      reads `steps, `semanticActionCount, `continuationSteps, `nextProcessIndex, `hostProcessCalls, `submissions
      reads `hostAlive, `failure
    {
      && Records() && hostAlive && failure.None?
      && hostProcessCalls == nextProcessIndex
      && FinalHashes(steps) == Map(engine.digest, submissions)
    }

    /** The game is still on: the trace holds decision steps only. */
    ghost predicate Ongoing()
      reads `steps, `semanticActionCount, `continuationSteps, `nextProcessIndex, `hostProcessCalls, `submissions
      reads `hostAlive, `failure, `traceDecisionIndex
    {
      InStep() && traceDecisionIndex == |steps| == semanticActionCount
    }

    /** About to run the engine. */
    ghost predicate Ready()
      reads `lifecycle, `currentRequest, `processCallCount, `hostProcessCalls
    {
      lifecycle == Advancing && currentRequest.None? && processCallCount == hostProcessCalls
    }

    lemma ReadyIsValid()
      requires Ongoing() && Ready()
      ensures Valid()
    {
    }

    ghost predicate Valid()
      reads this
    {
      && Records() && processCallCount == hostProcessCalls
      && (lifecycle == AwaitingDecision <==> currentRequest.Some?)
      && (lifecycle == Failed <==> failure.Some?)
      && (hostAlive <==> lifecycle != Failed && lifecycle != Interrupted)
      && match lifecycle
        case Advancing => Ongoing()
        case AwaitingDecision =>
          Ongoing() && CandidatesOk(currentRequest.value) && semanticActionCount < semanticBudget
            && nextProcessIndex > 0
        case Terminal => InStep() && steps != [] && steps[|steps| - 1].terminal
        case BudgetExhausted => Ongoing() && hostProcessCalls == processBudget
        case SemanticBudgetExhausted => Ongoing() && semanticActionCount == semanticBudget
        case Interrupted => steps == [] || !steps[|steps| - 1].terminal
        case Failed => steps == [] || !steps[|steps| - 1].terminal
    }

    /** The boundary a call reports is the state the driver is in. */
    ghost predicate Reports(b: Boundary)
      reads this
    {
      match b
      case DecisionBoundary(request, observation) =>
        lifecycle == AwaitingDecision && currentRequest == Some(request) && currentObservation == observation
      case GameTerminal(_, _, _, _) => lifecycle == Terminal
      case ProcessBudgetExceeded(calls) => lifecycle == BudgetExhausted && calls == hostProcessCalls == processBudget
      case SemanticBudgetExceeded(actions) =>
        lifecycle == SemanticBudgetExhausted && actions == semanticActionCount == semanticBudget
      case AdministrativeInterrupt(calls, actions) =>
        lifecycle == Interrupted && calls == hostProcessCalls && actions == semanticActionCount
      case DriverFailure(reason, stage, mutation) => lifecycle == Failed && failure == Some((reason, stage, mutation))
    }

    constructor (engine: Engine, processBudget: U64, semanticBudget: U64, fullObservation: bool, forceUnsupported: bool)
      ensures Valid() && lifecycle == Advancing && steps == [] && submissions == [] && semanticActionCount == 0
      ensures this.engine == engine && this.processBudget == processBudget && this.semanticBudget == semanticBudget
      ensures this.fullObservation == fullObservation && this.forceUnsupported == forceUnsupported
      ensures clock == 0 && nextProcessIndex == 0 && currentRequest.None?
    {
      this.engine, this.processBudget, this.semanticBudget := engine, processBudget, semanticBudget;
      this.fullObservation, this.forceUnsupported := fullObservation, forceUnsupported;
      lifecycle, clock, hostAlive, hostProcessCalls, submissions := Advancing, 0, true, 0, [];
      currentRequest, currentObservation, steps := None, None, [];
      nextProcessIndex, traceDecisionIndex, semanticActionCount, continuationSteps := 0, 0, 0, 0;
      processCallCount, failure := 0, None;
    }

    method Tick() returns (now: nat)
      modifies `clock
      ensures now == old(clock) && clock == now + 1
    {
      now := clock;
      clock := clock + 1;
    }

    /** Every failure lands here: the driver is closed and says why. */
    method CloseWithFailure(reason: Reason, mutation: bool, stage: Stage) returns (b: Boundary)
      requires Records() && (steps == [] || !steps[|steps| - 1].terminal)
      modifies this
      ensures Valid() && Reports(b) && b == DriverFailure(reason, stage, mutation) && lifecycle == Failed
      ensures Written() == old(Written())
      ensures semanticActionCount == old(semanticActionCount)
    {
      hide FinalHashes, Map, CandidatesOk;
      failure := Some((reason, stage, mutation));
      processCallCount := hostProcessCalls;
      currentRequest, currentObservation := None, None;
      lifecycle := Failed;
      hostAlive := false;
      return DriverFailure(reason, stage, mutation);
    }

    method CloseOnException(e: Exception) returns (b: Boundary)
      requires Records() && failure.None? && (steps == [] || !steps[|steps| - 1].terminal)
      modifies this
      ensures Valid() && Reports(b) && b == DriverFailure(ReasonOf(e), AdvanceStage, false) && lifecycle == Failed
      ensures Written() == old(Written())
      ensures semanticActionCount == old(semanticActionCount)
    {
      b := CloseWithFailure(ReasonOf(e), false, AdvanceStage);
    }

    /** Checks the candidates again, builds the observation, and opens the decision. */
    method PublishCurrentRequest() returns (thrown: Option<Exception>)
      requires Ongoing() && currentRequest.Some? && nextProcessIndex > 0 && semanticActionCount < semanticBudget
      modifies `currentObservation, `lifecycle, `clock
      ensures Ongoing() && currentRequest == old(currentRequest)
      ensures thrown.None? ==> lifecycle == AwaitingDecision && CandidatesOk(currentRequest.value)
      ensures thrown.None? ==>
        OpensAs(Config(), old(clock), currentRequest.value, DecisionBoundary(currentRequest.value, currentObservation))
      ensures thrown.Some? ==> lifecycle == old(lifecycle)
      ensures thrown.Some? ==>
        OpensAs(Config(), old(clock), currentRequest.value, DriverFailure(ReasonOf(thrown.value), AdvanceStage, false))
    {
      hide FinalHashes, Map, CandidatesOk, RepeatsKey;
      var defect := ValidateCandidateSet(currentRequest.value);
      if defect.Some? {
        return Some(ProtocolError(IncompleteCandidates));
      }
      currentObservation := None;
      if fullObservation {
        var now := Tick();
        match engine.publish(now)
        case PublishThrew(error) => return Some(error);
        case Published(observation) => currentObservation := observation;
      }
      lifecycle := AwaitingDecision;
      return None;
    }

    /** Records the terminal step. The decision index is taken before anything can throw, and
        wraps at 32 bits as the code's increment does. */
    method AppendTerminal(winner: Byte, winReason: Byte, engineStep: int) returns (r: TerminalReply)
      requires Ongoing() && lifecycle == Advancing && currentRequest.None?
      modifies `traceDecisionIndex, `steps, `lifecycle, `clock
      ensures old(steps) <= steps && |steps| <= |old(steps)| + 1
      ensures InStep() && semanticActionCount == old(semanticActionCount)
      ensures r == engine.terminal(old(clock))
      ensures r.TerminalBuilt? ==>
        lifecycle == Terminal && steps == old(steps) + [TraceStep(engineStep, |old(steps)|, [], true, None, None, true)]
      ensures r.TerminalThrew? ==> lifecycle == Advancing && steps == old(steps)
    {
      hide FinalHashes, Map, CandidatesOk;
      var index := traceDecisionIndex;
      traceDecisionIndex := (traceDecisionIndex + 1) % 0x1_0000_0000;
      var now := Tick();
      r := engine.terminal(now);
      if r.TerminalThrew? {
        return;
      }
      var step := TraceStep(engineStep, index, [], true, None, None, true);
      FinalHashesPush(steps, step);
      steps := steps + [step];
      lifecycle := Terminal;
    }

    /** Runs the engine until somebody must decide, the game ends, a budget is spent, or
        something fails. Outside the advancing state it throws and nothing changes. */
    method AdvanceUntilBoundary() returns (r: Option<Boundary>)
      requires Valid()
      modifies this
      ensures r.None? <==> old(lifecycle) != Advancing
      ensures r.None? ==> unchanged(this)
      ensures Valid()
      ensures r.Some? ==> Reports(r.value) && lifecycle != Advancing && lifecycle != Interrupted
      ensures r.Some? ==> RunsTo(Config(), old(clock), old(nextProcessIndex), old(semanticActionCount), r.value)
      ensures r.Some? ==> steps == WithEnding(old(steps), r.value, nextProcessIndex, old(traceDecisionIndex))
      ensures semanticActionCount == old(semanticActionCount) && submissions == old(submissions)
    {
      if lifecycle != Advancing {
        return None;
      }
      if forceUnsupported {
        var b := CloseWithFailure(if engine.probeDecodes then SimulationError else ForcedUnsupported, false,
          AdvanceStage);
        return Some(b);
      }
      var b := CallUntilBoundary();
      return Some(b);
    }

    /** The process loop. */
    method CallUntilBoundary() returns (b: Boundary)
      requires Ongoing() && lifecycle == Advancing && currentRequest.None? && !forceUnsupported
      modifies this
      ensures Valid() && Reports(b) && lifecycle != Advancing && lifecycle != Interrupted
      ensures RunsTo(Config(), old(clock), old(nextProcessIndex), old(semanticActionCount), b)
      ensures steps == WithEnding(old(steps), b, nextProcessIndex, old(traceDecisionIndex))
      ensures semanticActionCount == old(semanticActionCount) && submissions == old(submissions)
    {
      hide Reports, AnswersAs, EndingStep, FinalHashes, Map;
      ghost var start, index := clock, nextProcessIndex;
      while nextProcessIndex < processBudget
        invariant Ongoing() && lifecycle == Advancing && currentRequest.None?
        invariant steps == old(steps) && submissions == old(submissions)
        invariant semanticActionCount == old(semanticActionCount) && index <= nextProcessIndex
        invariant clock == start + (nextProcessIndex - index) && QuietFor(Config(), start, nextProcessIndex - index)
        decreases processBudget - nextProcessIndex
      {
        hide Records;
        ghost var turns := nextProcessIndex - index;
        if nextProcessIndex > U32_MAX {
          b := CloseOngoing(InvalidAuthoritativeState);
          assert RunsAfter(Config(), start, index, semanticActionCount, b, turns);
          return;
        }
        var reached := ProcessOnce();
        if reached.Some? {
          assert RunsAfter(Config(), start, index, semanticActionCount, reached.value, turns);
          return reached.value;
        }
      }
      b := StopAtCalls();
      assert RunsAfter(Config(), start, index, semanticActionCount, b, nextProcessIndex - index);
    }

    /** No call is left to make. */
    method StopAtCalls() returns (b: Boundary)
      requires Ongoing() && nextProcessIndex >= processBudget && currentRequest.None?
      modifies this
      ensures Valid() && Reports(b) && b == ProcessBudgetExceeded(processBudget) && nextProcessIndex == processBudget
      ensures lifecycle == BudgetExhausted && Written() == old(Written())
      ensures semanticActionCount == old(semanticActionCount)
    {
      hide FinalHashes, Map, CandidatesOk;
      lifecycle := BudgetExhausted;
      processCallCount := hostProcessCalls;
      return ProcessBudgetExceeded(processCallCount);
    }

    /** A failure between two calls of the engine. */
    method CloseOngoing(reason: Reason) returns (b: Boundary)
      requires Ongoing()
      modifies this
      ensures Valid() && Reports(b) && b == DriverFailure(reason, AdvanceStage, false) && lifecycle == Failed
      ensures Written() == old(Written()) && semanticActionCount == old(semanticActionCount)
    {
      b := CloseWithFailure(reason, false, AdvanceStage);
    }

    /** One turn of the process loop; no boundary means the engine had nothing to ask. */
    method ProcessOnce() returns (r: Option<Boundary>)
      requires Ongoing() && lifecycle == Advancing && currentRequest.None?
      requires nextProcessIndex < processBudget && nextProcessIndex <= U32_MAX
      modifies this
      ensures r.None? ==> Ongoing() && lifecycle == Advancing && currentRequest.None? && steps == old(steps)
      ensures r.None? ==> nextProcessIndex == old(nextProcessIndex) + 1 && clock == old(clock) + 1
      ensures r.None? <==> engine.process(old(clock)) == Processed(Quiet)
      ensures r.Some? ==> AnswersAs(Config(), old(clock), old(semanticActionCount), r.value)
      ensures r.Some? ==> Valid() && Reports(r.value) && lifecycle != Advancing && lifecycle != Interrupted
      ensures r.Some? ==> steps == WithEnding(old(steps), r.value, nextProcessIndex, old(traceDecisionIndex))
      ensures semanticActionCount == old(semanticActionCount) && submissions == old(submissions)
    {
      hide FinalHashes, Map, CandidatesOk, AnswersAs, ReasonOf, Reports, EndingStep;
      hostProcessCalls := hostProcessCalls + 1;
      var now := Tick();
      var reply := engine.process(now);
      if reply.ProcessThrew? {
        FailureAnswers(Config(), now, semanticActionCount, ReasonOf(reply.error));
        var b := CloseOnException(reply.error);
        return Some(b);
      }
      nextProcessIndex := nextProcessIndex + 1;
      if reply.decoded.Quiet? {
        return None;
      }
      var b := TakeMessage(reply.decoded, now);
      return Some(b);
    }

    /** A message that ends the process loop. */
    method TakeMessage(decoded: Decoded, ghost now: nat) returns (b: Boundary)
      requires Ongoing() && lifecycle == Advancing && currentRequest.None? && nextProcessIndex > 0
      requires clock == now + 1 && engine.process(now) == Processed(decoded) && !decoded.Quiet?
      modifies this
      ensures AnswersAs(Config(), now, old(semanticActionCount), b)
      ensures Valid() && Reports(b) && lifecycle != Advancing && lifecycle != Interrupted
      ensures steps == WithEnding(old(steps), b, nextProcessIndex, old(traceDecisionIndex))
      ensures semanticActionCount == old(semanticActionCount) && submissions == old(submissions)
    {
      hide Ongoing, Valid, Reports, AnswersAs, OpensAs, ReasonOf, EndingStep;
      match decoded
      case Undecodable(error) =>
        FailureAnswers(Config(), now, semanticActionCount, ReasonOf(error));
        b := CloseOngoing(ReasonOf(error));
      case Retry =>
        FailureAnswers(Config(), now, semanticActionCount, RetryFailure);
        b := CloseOngoing(RetryFailure);
      case TerminalMessage(winner, winReason) =>
        b := ReachTerminal(winner, winReason);
        TerminalAnswers(Config(), now, old(semanticActionCount), winner, winReason, b);
      case Interactive(decisions) =>
        b := OpenDecision(decisions);
        DecisionAnswers(Config(), now, old(semanticActionCount), decisions, b);
    }

    method ReachTerminal(winner: Byte, winReason: Byte) returns (b: Boundary)
      requires Ongoing() && lifecycle == Advancing && currentRequest.None? && nextProcessIndex > 0
      modifies this
      ensures Valid() && Reports(b) && match engine.terminal(old(clock))
        case TerminalBuilt(zero, one) => b == GameTerminal(winner, winReason, zero, one)
        case TerminalThrew(error) => b == DriverFailure(ReasonOf(error), AdvanceStage, false)
      ensures nextProcessIndex == old(nextProcessIndex)
      ensures steps == WithEnding(old(steps), b, nextProcessIndex, old(traceDecisionIndex))
      ensures lifecycle == Terminal || lifecycle == Failed
      ensures semanticActionCount == old(semanticActionCount) && submissions == old(submissions)
    {
      hide FinalHashes, Map, CandidatesOk;
      var ending := AppendTerminal(winner, winReason, nextProcessIndex - 1);
      if ending.TerminalThrew? {
        b := CloseOnException(ending.error);
        return;
      }
      processCallCount := hostProcessCalls;
      return GameTerminal(winner, winReason, ending.zero, ending.one);
    }

    /** No action is left to take. */
    method StopAtBudget() returns (b: Boundary)
      requires Ongoing() && semanticActionCount == semanticBudget
      modifies this
      ensures Valid() && Reports(b) && b == SemanticBudgetExceeded(semanticActionCount)
      ensures lifecycle == SemanticBudgetExhausted && Written() == old(Written())
      ensures semanticActionCount == old(semanticActionCount)
    {
      hide FinalHashes, Map, CandidatesOk;
      currentRequest, currentObservation := None, None;
      lifecycle := SemanticBudgetExhausted;
      processCallCount := hostProcessCalls;
      return SemanticBudgetExceeded(semanticActionCount);
    }

    /** An interactive message: exactly one decision, and budget left to take it. */
    method OpenDecision(decisions: seq<Request>) returns (b: Boundary)
      requires Ongoing() && lifecycle == Advancing && currentRequest.None? && nextProcessIndex > 0
      modifies this
      ensures Valid() && Reports(b) && lifecycle != Advancing && lifecycle != Interrupted && !b.GameTerminal?
      ensures
        if |decisions| != 1 then b == DriverFailure(UnsupportedProtocol, AdvanceStage, false)
        else if old(semanticActionCount) >= semanticBudget then b == SemanticBudgetExceeded(old(semanticActionCount))
        else OpensAs(Config(), old(clock), decisions[0], b)
      ensures steps == old(steps) && submissions == old(submissions)
      ensures semanticActionCount == old(semanticActionCount)
    {
      hide FinalHashes, Map, CandidatesOk;
      if |decisions| != 1 {
        b := CloseOnException(ProtocolError(UnsupportedDecision));
        return;
      }
      if semanticActionCount >= semanticBudget {
        b := StopAtBudget();
        return;
      }
      currentRequest := Some(decisions[0]);
      b := Publish();
    }

    method Publish() returns (b: Boundary)
      requires Ongoing() && lifecycle == Advancing && currentRequest.Some? && nextProcessIndex > 0
      requires semanticActionCount < semanticBudget
      modifies this
      ensures Valid() && Reports(b) && (b.DecisionBoundary? || b.DriverFailure?)
      ensures OpensAs(Config(), old(clock), old(currentRequest.value), b)
      ensures Written() == old(Written())
      ensures semanticActionCount == old(semanticActionCount)
    {
      var thrown := PublishCurrentRequest();
      if thrown.Some? {
        b := CloseOnException(thrown.value);
        return;
      }
      processCallCount := hostProcessCalls;
      return DecisionBoundary(currentRequest.value, currentObservation);
    }

    // -------------------------------------------------------------- applying an action

    /** A decision step enters the trace and is counted; no counter can overflow on the way,
        since the action count is the length of a trace indexed by 32 bits. */
    method PushStep(step: TraceStep)
      requires Ongoing() && semanticActionCount < semanticBudget && |steps| < U32_MAX
      requires step.decisionIndex == |steps| && !step.terminal
      modifies `traceDecisionIndex, `semanticActionCount, `continuationSteps, `steps
      ensures steps == old(steps) + [step] && semanticActionCount == old(semanticActionCount) + 1
      ensures step.finalHash.None? ==> Ongoing()
      ensures step.finalHash.Some? ==> Owing(step.finalHash.value)
    {
      hide FinalHashes, Map, CandidatesOk;
      FinalHashesPush(steps, step);
      assert continuationSteps <= semanticActionCount;
      traceDecisionIndex := traceDecisionIndex + 1;
      semanticActionCount := semanticActionCount + 1;
      if step.finalHash.None? {
        continuationSteps := continuationSteps + 1;
      }
      steps := steps + [step];
    }

    /** A final response is recorded but not yet handed to the engine. */
    ghost predicate Owing(hash: Bytes)
      reads `steps, `semanticActionCount, `continuationSteps, `nextProcessIndex, `hostProcessCalls, `submissions
      reads `hostAlive, `failure, `traceDecisionIndex
    {
      && Records() && hostAlive && failure.None? && hostProcessCalls == nextProcessIndex
      && FinalHashes(steps) == Map(engine.digest, submissions) + [hash]
      && traceDecisionIndex == |steps| == semanticActionCount
    }

    /** Handing it over settles what was owed; failing to do so leaves records to close with. */
    twostate lemma Settled(response: Bytes)
      requires old(Owing(engine.digest(response)))
      requires unchanged(`steps, `traceDecisionIndex, `semanticActionCount, `continuationSteps, `hostAlive, `failure)
      requires unchanged(`hostProcessCalls, `nextProcessIndex)
      ensures submissions == old(submissions) + [response] ==> Ongoing()
      ensures submissions == old(submissions) || submissions == old(submissions) + [response] ==> Records()
    {
      hide FinalHashes;
      MapPush(engine.digest, old(submissions), response);
      hide Map;
      assert Map(engine.digest, old(submissions)) + [engine.digest(response)] == FinalHashes(steps);
      assert |Map(engine.digest, old(submissions))| == |old(submissions)|;
    }

    /** The intermediate step of a continuation: recorded, and the next request published if
        the budget allows another action. */
    method RecordIntermediate(step: TraceStep, next: Request) returns (b: Boundary)
      requires Ongoing() && lifecycle == AwaitingDecision && currentRequest.Some? && nextProcessIndex > 0
      requires semanticActionCount < semanticBudget && |steps| < U32_MAX
      requires step.decisionIndex == |steps| && step.finalHash.None? && !step.terminal
      modifies this
      ensures Valid() && Reports(b) && (b.DecisionBoundary? || b.SemanticBudgetExceeded? || b.DriverFailure?)
      ensures lifecycle != Advancing && lifecycle != Interrupted
      ensures
        if old(semanticActionCount) + 1 >= semanticBudget then b == SemanticBudgetExceeded(old(semanticActionCount) + 1)
        else OpensAs(Config(), old(clock), next, b)
      ensures Written() == old(Written()).(steps := old(steps) + [step])
      ensures semanticActionCount == old(semanticActionCount) + 1
    {
      hide FinalHashes, Map, CandidatesOk, OpensAs;
      PushStep(step);
      if semanticActionCount >= semanticBudget {
        b := StopAtBudget();
        return;
      }
      currentRequest, currentObservation := Some(next), None;
      lifecycle := Advancing;
      b := Publish();
    }

    /** Hands a response to the engine, which refuses an empty one and may throw having taken it. */
    method SubmitResponse(response: Bytes) returns (ok: bool)
      modifies `submissions, `clock
      ensures ok <==> response != [] && engine.submit(old(clock)) == Submitted
      ensures submissions ==
        if response != [] && engine.submit(old(clock)) != SubmitThrew(false) then old(submissions) + [response]
        else old(submissions)
      ensures clock == if response == [] then old(clock) else old(clock) + 1
    {
      if response == [] {
        return false;
      }
      var now := Tick();
      match engine.submit(now)
      case Submitted =>
        submissions := submissions + [response];
        return true;
      case SubmitThrew(taken) =>
        if taken {
          submissions := submissions + [response];
        }
        return false;
    }

    /** The step that carries a final response: recorded first, then submitted. */
    method RecordFinal(step: TraceStep, response: Bytes) returns (ok: bool, closed: Boundary)
      requires Ongoing() && lifecycle == AwaitingDecision && nextProcessIndex > 0
      requires semanticActionCount < semanticBudget && |steps| < U32_MAX
      requires step.decisionIndex == |steps| && step.finalHash == Some(engine.digest(response)) && !step.terminal
      modifies this
      ensures steps == old(steps) + [step] && semanticActionCount == old(semanticActionCount) + 1
      ensures ok ==> Ongoing() && Ready()
      ensures ok ==> submissions == old(submissions) + [response] && nextProcessIndex == old(nextProcessIndex)
      ensures ok <==> response != [] && engine.submit(old(clock)) == Submitted
      ensures ok ==> clock == old(clock) + 1
      ensures !ok ==> Valid() && Reports(closed) && closed == DriverFailure(ResponseInconsistency, ActionStage, true)
      ensures !ok ==> lifecycle == Failed && old(submissions) <= submissions
      ensures submissions ==
        if response != [] && engine.submit(old(clock)) != SubmitThrew(false) then old(submissions) + [response]
        else old(submissions)
    {
      hide FinalHashes, CandidatesOk, Map, Records, Valid, Owing, Reports;
      PushStep(step);
      label pushed:
      currentRequest, currentObservation := None, None;
      lifecycle := Advancing;
      ok := SubmitResponse(response);
      closed := DriverFailure(ResponseInconsistency, ActionStage, true);
      if ok {
        processCallCount := hostProcessCalls;
      }
      Settled@pushed(response);
      if !ok {
        closed := CloseWithFailure(ResponseInconsistency, true, ActionStage);
      }
    }

    /** Applies the candidate with this semantic key. It throws, and changes nothing, when no
        decision is open or no candidate has the key; the two failures the code guards against
        besides (an incomplete candidate set, an action count at its maximum) cannot happen. */
    method ApplySemanticKey(key: Bytes) returns (r: ApplyResult)
      requires Valid()
      modifies this
      ensures Valid()
      ensures r.Threw? <==>
        !(old(lifecycle) == AwaitingDecision
          && exists i :: 0 <= i < |old(currentRequest).value.candidates|
               && old(currentRequest).value.candidates[i].semanticKey == key)
      ensures r.Threw? ==> unchanged(this)
      ensures !r.NotApplied?
      ensures r.Applied? ==>
        r.accepted.selectedKey == key && Reports(r.next) && lifecycle != Advancing && lifecycle != Interrupted
      ensures r.Applied? ==> Advanced(old(steps), old(submissions), key, r)
      ensures r.Applied? ==>
        forall i | 0 <= i < |old(currentRequest).value.candidates|
          && old(currentRequest).value.candidates[i].semanticKey == key ::
          AppliesAs(Config(), old(clock), old(Written()), old(currentRequest).value,
            old(currentRequest).value.candidates[i], r, Written())
    {
      hide FinalHashes, Map, Records, Advanced, AppliesAs, Reports, RepeatsKey;
      if lifecycle != AwaitingDecision {
        return Threw(OtherError);
      }
      var request := currentRequest.value;
      var defect := ValidateCandidateSet(request);
      assert defect.None?;
      var position := FindCandidate(request, key);
      if position.None? {
        return Threw(ProtocolError(InvalidSemanticKey));
      }
      r := TakeAction(request.candidates[position.value]);
    }

    /** The action of an open decision, from the trace limit to the next boundary. */
    method TakeAction(selected: Candidate) returns (r: ApplyResult)
      requires Valid() && lifecycle == AwaitingDecision
      modifies this
      ensures Valid() && r.Applied? && r.accepted.selectedKey == selected.semanticKey
      ensures Reports(r.next) && lifecycle != Advancing && lifecycle != Interrupted
      ensures Advanced(old(steps), old(submissions), selected.semanticKey, r)
      ensures AppliesAs(Config(), old(clock), old(Written()), old(currentRequest).value, selected, r, Written())
    {
      hide CandidatesOk, FinalHashes, Map, Reports, ContinuesAs, SubmitsAs, Unrecorded, ReasonOf, Advanced;
      var key := selected.semanticKey;
      if traceDecisionIndex == U32_MAX {
        r := CloseUnrecorded(key, InvalidAuthoritativeState, ActionStage);
        return;
      }
      var transition: Option<ContinuationReply> := None;
      if currentRequest.value.continuation {
        var now := Tick();
        var reply := engine.continuation(now);
        if reply.ContinuationThrew? {
          r := CloseUnrecorded(key, ReasonOf(reply.error), AdvanceStage);
          return;
        }
        transition := Some(reply);
      }
      var now := Tick();
      var prepared := engine.prepareStep(now);
      if prepared.Some? {
        r := CloseUnrecorded(key, ReasonOf(prepared.value), AdvanceStage);
        return;
      }
      assert semanticActionCount < U64_MAX;
      if transition.Some? && !transition.value.terminal {
        r := ContinueDecision(key, transition.value);
      } else if transition.Some? {
        r := SubmitAndAdvance(key, transition.value.engineAdvanced, transition.value.response);
      } else {
        r := SubmitAndAdvance(key, true, selected.response);
      }
    }

    /** An action that fails before its step is recorded. */
    method CloseUnrecorded(key: Bytes, reason: Reason, stage: Stage) returns (r: ApplyResult)
      requires Ongoing()
      modifies this
      ensures Valid() && r.Applied? && r.accepted.selectedKey == key && Reports(r.next) && lifecycle == Failed
      ensures Unrecorded(old(Written()), key, reason, stage, r, Written())
      ensures Advanced(old(steps), old(submissions), key, r)
    {
      hide FinalHashes, Map;
      var b := CloseWithFailure(reason, false, stage);
      return Applied(Accepted(key, false, None), b);
    }

    method ContinueDecision(key: Bytes, t: ContinuationReply) returns (r: ApplyResult)
      requires Ongoing() && lifecycle == AwaitingDecision && currentRequest.Some? && nextProcessIndex > 0
      requires semanticActionCount < semanticBudget && |steps| < U32_MAX
      requires t.Transition? && !t.terminal
      modifies this
      ensures Valid() && r.Applied? && r.accepted.selectedKey == key && !r.accepted.responseSubmitted
      ensures Reports(r.next) && lifecycle != Advancing && lifecycle != Interrupted
      ensures Advanced(old(steps), old(submissions), key, r)
      ensures ContinuesAs(Config(), old(clock), old(Written()), key, t, r, Written())
    {
      hide CandidatesOk, FinalHashes, Map, Reports, OpensAs;
      var hash := if t.response == [] then None else Some(engine.digest(t.response));
      var step := TraceStep(nextProcessIndex - 1, traceDecisionIndex, key, t.engineAdvanced, hash, None, false);
      var b := RecordIntermediate(step, t.request);
      return Applied(Accepted(key, false, None), b);
    }

    method SubmitAndAdvance(key: Bytes, engineAdvanced: bool, response: Bytes) returns (r: ApplyResult)
      requires Ongoing() && lifecycle == AwaitingDecision && nextProcessIndex > 0
      requires semanticActionCount < semanticBudget && |steps| < U32_MAX
      modifies this
      ensures Valid() && r.Applied? && r.accepted.selectedKey == key
      ensures Reports(r.next) && lifecycle != Advancing && lifecycle != Interrupted
      ensures Advanced(old(steps), old(submissions), key, r)
      ensures SubmitsAs(Config(), old(clock), old(Written()), key, engineAdvanced, response, r, Written())
    {
      hide CandidatesOk, FinalHashes, Map, Reports, RunsTo, Records, Valid;
      var hash := engine.digest(response);
      var step := TraceStep(nextProcessIndex - 1, traceDecisionIndex, key, engineAdvanced, Some(hash), Some(hash),
        false);
      var submitted, closed := RecordFinal(step, response);
      if !submitted {
        return Applied(Accepted(key, false, None), closed);
      }
      ReadyIsValid();
      var next := AdvanceUntilBoundary();
      return Applied(Accepted(key, true, Some(hash)), next.value);
    }

    /** What an applied action leaves behind: the old trace extended by one decision step for
        the chosen key, unless it failed before it could be recorded; the hash it reports is
        the one in that step; and only a submitted response reaches the engine. */
    ghost predicate Advanced(before: seq<TraceStep>, taken: seq<Bytes>, key: Bytes, r: ApplyResult)
      requires r.Applied?
      reads this
    {
      && before <= steps && taken <= submissions
      && (steps == before ==> r.next.DriverFailure? && !r.accepted.responseSubmitted)
      && (steps != before ==>
            && |steps| > |before| && steps[|before|].selectedKey == key && !steps[|before|].terminal
            && semanticActionCount == |before| + 1
            && (r.next.DecisionBoundary? ==> |steps| == |before| + 1)
            && (r.accepted.responseSubmitted ==>
                  && r.accepted.finalHash.Some? && steps[|before|].finalHash == r.accepted.finalHash
                  && |submissions| == |taken| + 1
                  && r.accepted.finalHash.value == engine.digest(submissions[|taken|])))
      && (!r.accepted.responseSubmitted ==>
            r.accepted.finalHash.None? && (r.next.DriverFailure? || submissions == taken))
    }

    /** Closes an open decision at the caller's wish. */
    method Interrupt() returns (r: Option<Boundary>)
      requires Valid()
      modifies this
      ensures Valid()
      ensures r.None? <==> old(lifecycle) != AwaitingDecision
      ensures r.None? ==> unchanged(this)
      ensures r.Some? ==>
        r.value == AdministrativeInterrupt(old(processCallCount), old(semanticActionCount)) && Reports(r.value)
      ensures processCallCount == old(processCallCount)
      ensures steps == old(steps) && submissions == old(submissions) && semanticActionCount == old(semanticActionCount)
    {
      if lifecycle != AwaitingDecision {
        return None;
      }
      hide CandidatesOk, FinalHashes, Map;
      currentRequest, currentObservation := None, None;
      lifecycle := Interrupted;
      processCallCount := hostProcessCalls;
      hostAlive := false;
      return Some(AdministrativeInterrupt(processCallCount, semanticActionCount));
    }
  }

  lemma MapPush(f: Bytes -> Bytes, xs: seq<Bytes>, x: Bytes)
    ensures Map(f, xs + [x]) == Map(f, xs) + [f(x)]
  {
  }

  /** The position of the candidate with this key; there is at most one. */
  method FindCandidate(request: Request, key: Bytes) returns (position: Option<nat>)
    ensures position.Some? ==>
      position.value < |request.candidates| && request.candidates[position.value].semanticKey == key
    ensures position.None? ==> forall i :: 0 <= i < |request.candidates| ==> request.candidates[i].semanticKey != key
  {
    for i := 0 to |request.candidates|
      invariant forall j :: 0 <= j < i ==> request.candidates[j].semanticKey != key
    {
      if request.candidates[i].semanticKey == key {
        return Some(i);
      }
    }
    return None;
  }
}
