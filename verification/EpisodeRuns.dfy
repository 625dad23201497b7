/** What holds over every sequence of calls to an environment, whatever the callers, the
    outside answers and the engines do. */
module EpisodeRuns {
  import opened Bytes
  import opened EpisodicEnvironment

  datatype Call =
    | CallReset(spec: EpisodeSpec, run: RunControl, world: ResetWorld)
    | CallStep(selection: Selection)
    | CallInterrupt(contractId: Bytes, reason: InterruptionReason)

  datatype Reply =
    ResetReply(reset: ResetResult) | StepReply(step: StepResult) | InterruptReply(interrupt: InterruptResult)

  predicate AcceptsStep(call: Call, reply: Reply) {
    call.CallStep? && reply.StepReply? && reply.step.StepAccepted?
  }

  /** The frame a reply shows, if it opens a decision. */
  function FrameShown(reply: Reply): Option<Frame> {
    match reply
    case ResetReply(ResetAccepted(NextFrame(f))) => Some(f)
    case StepReply(StepAccepted(_, NextFrame(f))) => Some(f)
    case _ => None
  }

  function FramesShown(replies: seq<Reply>): seq<Frame> {
    if replies == [] then [] else
      var last := FrameShown(replies[|replies| - 1]);
      FramesShown(replies[..|replies| - 1]) + (if last.Some? then [last.value] else [])
  }

  lemma FramesPush(replies: seq<Reply>, reply: Reply)
    ensures FrameShown(reply).Some? ==>
      FramesShown(replies + [reply]) == FramesShown(replies) + [FrameShown(reply).value]
    ensures FrameShown(reply).None? ==> FramesShown(replies + [reply]) == FramesShown(replies)
  {
    assert (replies + [reply])[..|replies|] == replies;
    assert FramesShown(replies) + [] == FramesShown(replies);
  }

  /** Frames carry the generations 1, 2, 3, ... across episodes; within an episode decision
      indices are contiguous, and every episode starts again at zero. */
  predicate WellNumbered(frames: seq<Frame>) {
    && (forall i :: 0 <= i < |frames| ==> frames[i].token.generation == i + 1)
    && (frames != [] ==> frames[0].decisionIndex == 0)
    && (forall i :: 0 < i < |frames| ==>
          && frames[i - 1].token.incarnation <= frames[i].token.incarnation
          && frames[i].decisionIndex == (if frames[i].token.incarnation == frames[i - 1].token.incarnation
                                         then frames[i - 1].decisionIndex + 1 else 0))
  }

  /** No token is accepted twice. */
  predicate TokensSpentOnce(calls: seq<Call>, replies: seq<Reply>)
    requires |replies| <= |calls|
  {
    forall i, j :: 0 <= i < j < |replies| && AcceptsStep(calls[i], replies[i]) && AcceptsStep(calls[j], replies[j]) ==>
      calls[i].selection.token != calls[j].selection.token
  }

  lemma NextWellNumbered(frames: seq<Frame>, f: Frame)
    requires WellNumbered(frames) && f.token.generation == |frames| + 1
    requires frames == [] ==> f.decisionIndex == 0
    requires frames != [] ==>
      var last := frames[|frames| - 1];
      && last.token.incarnation <= f.token.incarnation
      && f.decisionIndex == (if f.token.incarnation == last.token.incarnation then last.decisionIndex + 1 else 0)
    ensures WellNumbered(frames + [f])
  {
    var more := frames + [f];
    assert more[..|frames|] == frames && more[|frames|] == f;
  }

  lemma NextSpentOnce(calls: seq<Call>, replies: seq<Reply>, reply: Reply, spent: set<Token>)
    requires |replies| < |calls| && TokensSpentOnce(calls, replies)
    requires forall i :: 0 <= i < |replies| && AcceptsStep(calls[i], replies[i]) ==> calls[i].selection.token in spent
    requires AcceptsStep(calls[|replies|], reply) ==> calls[|replies|].selection.token !in spent
    ensures TokensSpentOnce(calls, replies + [reply])
  {
  }

  method Perform(env: Environment, call: Call) returns (reply: Reply)
    requires env.Valid()
    modifies env.Repr()
    ensures env.Valid() && fresh(env.Repr() - old(env.Repr()))
    ensures AcceptsStep(call, reply) ==> call.selection.token !in old(env.spent)
    ensures env.spent == if AcceptsStep(call, reply) then old(env.spent) + {call.selection.token} else old(env.spent)
    ensures env.incarnation >= old(env.incarnation)
    ensures match FrameShown(reply)
      case None => env.issued == old(env.issued)
      case Some(f) =>
        && env.frame == Some(f) && env.issued == old(env.issued) + [f.token]
             && f.token == Token(env.incarnation, |env.issued|)
        && (if call.CallStep? then old(env.frame).Some? && env.incarnation == old(env.incarnation)
                                   && f.decisionIndex == old(env.frame).value.decisionIndex + 1
            else f.decisionIndex == 0 && env.incarnation > old(env.incarnation))
    ensures FrameShown(reply).None? ==>
      env.frame.None? || (env.frame == old(env.frame) && env.incarnation == old(env.incarnation))
  {
    hide Environment.Awaiting, Environment.Tokens, Environment.Closures, Environment.ResetRejection,
      Environment.InterruptRejection, Took;
    match call
    case CallReset(spec, run, world) =>
      var r := env.Reset(spec, run, world);
      return ResetReply(r);
    case CallStep(selection) =>
      var r := env.Step(selection);
      return StepReply(r);
    case CallInterrupt(contractId, reason) =>
      var r := env.Interrupt(contractId, reason);
      return InterruptReply(r);
  }

  /** Any run from a new environment: frames are well numbered and no token is spent twice. */
  method AnyRun(env: Environment, calls: seq<Call>) returns (replies: seq<Reply>)
    requires env.Valid() && env.issued == [] && env.spent == {}
    modifies env.Repr()
    ensures env.Valid() && |replies| == |calls|
    ensures WellNumbered(FramesShown(replies))
    ensures TokensSpentOnce(calls, replies)
  {
    hide WellNumbered, TokensSpentOnce, FrameShown, FramesShown, Environment.Valid;
    replies := [];
    ghost var frames: seq<Frame> := [];
    NothingYet(calls, env);
    for n := 0 to |calls|
      invariant env.Valid() && |replies| == n && fresh(env.Repr() - old(env.Repr()))
      invariant frames == FramesShown(replies) && WellNumbered(frames) && |frames| == |env.issued|
      invariant frames != [] ==> frames[|frames| - 1].token.incarnation <= env.incarnation
      invariant env.frame.Some? ==> frames != [] && env.frame.value == frames[|frames| - 1]
      invariant TokensSpentOnce(calls, replies)
      invariant forall i :: 0 <= i < n && AcceptsStep(calls[i], replies[i]) ==> calls[i].selection.token in env.spent
      invariant env.frame.Some? ==> env.frame.value.token.incarnation == env.incarnation
    {
      ghost var spent := env.spent;
      var reply := Perform(env, calls[n]);
      NextSpentOnce(calls, replies, reply, spent);
      FramesPush(replies, reply);
      if FrameShown(reply).Some? {
        NextWellNumbered(frames, FrameShown(reply).value);
      }
      replies := replies + [reply];
      frames := FramesShown(replies);
    }
  }

  lemma NothingYet(calls: seq<Call>, env: Environment)
    requires env.Valid() && env.issued == []
    ensures WellNumbered(FramesShown([])) && FramesShown([]) == [] && TokensSpentOnce(calls, []) && env.frame.None?
  {
  }
}
