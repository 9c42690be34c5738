/**
 * SMEConsiderationVoteAction: the vote options for one project, the reason
 * modal, and the recorded vote. It is reached from the project list and has
 * no button of its own.
 */
module SmeConsiderationVoteAction {
  import opened Wrappers
  import opened JsValues
  import opened Routing
  import opened Dispatch
  import opened ConsiderationHome

  /** The cases of `handleOperation`. */
  datatype Handler =
    | HandleShowVoteOptions
    | HandleSubmitVote
    | HandleConfirmVote
    | HandleInvalidOperation

  function OpId(h: Handler): string
    requires h != HandleInvalidOperation
  {
    match h
    case HandleShowVoteOptions => OpShowVoteOptions
    case HandleSubmitVote => OpSubmitVote
    case HandleConfirmVote => OpConfirmVote
  }

  /** The switch: each listed id reaches the one case it names, any other id the invalid-operation handler. */
  function Route(op: string): (h: Handler)
    ensures h == HandleInvalidOperation <==> op !in Operations(SmeConsiderationVoteID)
    ensures h != HandleInvalidOperation ==> OpId(h) == op
  {
    if op == OpShowVoteOptions then HandleShowVoteOptions
    else if op == OpSubmitVote then HandleSubmitVote
    else if op == OpConfirmVote then HandleConfirmVote
    else HandleInvalidOperation
  }

  lemma RouteInvertsOpId(h: Handler)
    requires h != HandleInvalidOperation
    ensures Route(OpId(h)) == h
  {
  }

  function Tok(op: string, args: seq<(string, string)>): Token
  {
    Token(SmeConsiderationVoteID, op, args)
  }

  /** `getComponent` always throws: the Action is only reached through the project list. */
  function Component(): (r: Result<Token, Escape>)
    ensures r.Failure? && r.error == NoStandaloneComponent
  {
    Failure(NoStandaloneComponent)
  }

  /** The arguments the project list passes to `SHOW_VOTE_OPTIONS`. */
  datatype VoteArgs = VoteArgs(projectId: Num, fundingRoundId: Num)

  /** A vote button: project, round and the vote it casts. */
  function VoteToken(projectId: Num, fundingRoundId: Num, vote: string): Token
  {
    Tok(OpSubmitVote, [(KeyProjectId, NumText(projectId)), (KeyFundingRoundId, NumText(fundingRoundId)), (KeyVote, vote)])
  }

  /**
   * `handleShowVoteOptions`: with project and round found, the vote
   * buttons the caller's latest vote leaves open. Reached without
   * arguments, the destructuring of `args` throws.
   */
  function ShowVoteOptionsTrace(ix: Interaction, be: Backend, args: Option<VoteArgs>): (t: Trace)
    ensures Handled(t) && NoMutation(t)
    ensures args.None? <==> t == [Raise(ArgsMissing)]
    ensures args.Some? ==>
              var a := args.value;
              && |t| == 4
              && t[..3] == [Query(ProjectById(a.projectId)), Query(RoundById(a.fundingRoundId)), Query(MostRecentVote(a.projectId))]
              && (!ProjectExists(be, a.projectId) || !RoundExists(be, a.fundingRoundId) <==> t[3] == Send(Notice(ProjectOrRoundNotFound)))
              && (ProjectExists(be, a.projectId) && RoundExists(be, a.fundingRoundId) ==> t[3] == Send(VoteOptionsReply(be, a)))
    ensures forall tok :: tok in SentTokens(t) ==> Route(tok.op) == HandleSubmitVote
  {
    if args.None? then
      CallsThenRaise(NoCalls, ArgsMissing);
      [Raise(ArgsMissing)]
    else
      var a := args.value;
      var calls: Trace := [Query(ProjectById(a.projectId)), Query(RoundById(a.fundingRoundId)), Query(MostRecentVote(a.projectId))];
      if !ProjectExists(be, a.projectId) || !RoundExists(be, a.fundingRoundId) then
        CallsThenReply(calls, Notice(ProjectOrRoundNotFound));
        calls + [Send(Notice(ProjectOrRoundNotFound))]
      else
        var reply := VoteOptionsReply(be, a);
        VoteOptionsTokens(be, a);
        CallsThenReply(calls, reply);
        calls + [Send(reply)]
  }

  /** The vote-options message for a found project and round. */
  function VoteOptionsReply(be: Backend, a: VoteArgs): Reply
  {
    var approve := Button(VoteToken(a.projectId, a.fundingRoundId, VoteApprove), false);
    var reject := Button(VoteToken(a.projectId, a.fundingRoundId, VoteReject), false);
    Render(Respond, VoteOptions(LastVote(be, a.projectId)), [VoteRow(LastVote(be, a.projectId), approve, reject)])
  }

  /** The vote buttons offered: every one casts a vote on the shown project and round, and they are exactly those `VoteRow` keeps. */
  lemma VoteOptionsTokens(be: Backend, a: VoteArgs)
    ensures var existing := LastVote(be, a.projectId);
            && (VoteToken(a.projectId, a.fundingRoundId, VoteApprove) in ReplyTokens(VoteOptionsReply(be, a)) <==> existing != Some(true))
            && (VoteToken(a.projectId, a.fundingRoundId, VoteReject) in ReplyTokens(VoteOptionsReply(be, a)) <==> existing != Some(false))
            && ReplyTokens(VoteOptionsReply(be, a)) <= {VoteToken(a.projectId, a.fundingRoundId, VoteApprove), VoteToken(a.projectId, a.fundingRoundId, VoteReject)}
  {
    var approve := Button(VoteToken(a.projectId, a.fundingRoundId, VoteApprove), false);
    var reject := Button(VoteToken(a.projectId, a.fundingRoundId, VoteReject), false);
    var existing := LastVote(be, a.projectId);
    var m := Respond;
    var v := VoteOptions(existing);
    if existing == Some(true) {
      TokensOfOne(m, v, reject);
    } else if existing == Some(false) {
      TokensOfOne(m, v, approve);
    } else {
      TokensOfTwo(m, v, approve, reject);
    }
  }

  /** The reason modal of `handleSubmitVote`: project and round as parsed, the vote as received. */
  function ConfirmToken(projectId: Num, fundingRoundId: Num, vote: string): Token
  {
    Tok(OpConfirmVote, [(KeyProjectId, NumText(projectId)), (KeyFundingRoundId, NumText(fundingRoundId)), (KeyVote, vote)])
  }

  /**
   * `handleSubmitVote`: without a vote argument an error and no modal;
   * otherwise the reason modal, whose token carries project, round and
   * vote on. Nothing is looked up.
   */
  function SubmitVoteTrace(ix: Interaction): (t: Trace)
    ensures Handled(t) && NoMutation(t) && |t| == 1
    ensures !Present(Arg(ix, KeyVote)) ==> t == [Send(Notice(VoteNotProvided))]
    ensures Present(Arg(ix, KeyVote)) && !CanShowModal(ix) ==> t == [Send(Notice(ModalFailed))]
    ensures Present(Arg(ix, KeyVote)) && CanShowModal(ix) ==>
              t == [Send(Modal(ConfirmToken(ArgNum(ix, KeyProjectId), ArgNum(ix, KeyFundingRoundId), Arg(ix, KeyVote).value)))]
  {
    var projectId := ArgNum(ix, KeyProjectId);
    var fundingRoundId := ArgNum(ix, KeyFundingRoundId);
    var vote := Arg(ix, KeyVote);
    if !Present(vote) then
      CallsThenReply(NoCalls, Notice(VoteNotProvided));
      [Send(Notice(VoteNotProvided))]
    else if !CanShowModal(ix) then
      CallsThenReply(NoCalls, Notice(ModalFailed));
      [Send(Notice(ModalFailed))]
    else
      var modal := ConfirmToken(projectId, fundingRoundId, vote.value);
      CallsThenReply(NoCalls, Modal(modal));
      [Send(Modal(modal))]
  }

  /**
   * The reason modal carries the vote on: its token reaches the confirm
   * handler with the project and round as the vote button gave them and
   * the vote unchanged.
   */
  lemma SubmitVoteForwards(ix: Interaction)
    ensures forall tok :: tok in SentTokens(SubmitVoteTrace(ix)) ==>
              && Route(tok.op) == HandleConfirmVote
              && ParseInt(OrEmpty(TokenArg(tok, KeyProjectId))) == ArgNum(ix, KeyProjectId)
              && ParseInt(OrEmpty(TokenArg(tok, KeyFundingRoundId))) == ArgNum(ix, KeyFundingRoundId)
              && TokenArg(tok, KeyVote) == Arg(ix, KeyVote)
  {
    var t := SubmitVoteTrace(ix);
    var vote := Arg(ix, KeyVote);
    if Present(vote) && CanShowModal(ix) {
      var projectId := ArgNum(ix, KeyProjectId);
      var fundingRoundId := ArgNum(ix, KeyFundingRoundId);
      var modal := ConfirmToken(projectId, fundingRoundId, vote.value);
      ArgsOfThree(SmeConsiderationVoteID, OpConfirmVote, KeyProjectId, NumText(projectId), KeyFundingRoundId, NumText(fundingRoundId), KeyVote, vote.value);
      ForwardsParsed({modal}, KeyProjectId, projectId);
      ForwardsParsed({modal}, KeyFundingRoundId, fundingRoundId);
      SentTokensOfReply(NoCalls, Modal(modal));
    } else if !Present(vote) {
      SentTokensOfReply(NoCalls, Notice(VoteNotProvided));
    } else {
      SentTokensOfReply(NoCalls, Notice(ModalFailed));
    }
  }

  /**
   * `handleConfirmVote`: the vote is recorded as an approval exactly when
   * the token's vote is the approve option (an absent vote records a
   * rejection), with the reason typed into the modal.
   */
  function ConfirmVoteTrace(ix: Interaction, be: Backend): (t: Trace)
    ensures Handled(t)
    ensures !IsModalSubmit(ix) ==> t == [Send(Notice(InvalidInteractionType))]
    ensures IsModalSubmit(ix) && InputReason !in ix.fields ==> t == [Raise(MissingField(InputReason))]
    ensures forall i :: 0 <= i < |t| && t[i].Mutate? ==>
              && i == 0 && IsModalSubmit(ix) && InputReason in ix.fields
              && t[i].mutation == RecordVote(ArgNum(ix, KeyProjectId), ArgNum(ix, KeyFundingRoundId),
                                             Arg(ix, KeyVote) == Some(VoteApprove), ix.fields[InputReason])
    ensures IsModalSubmit(ix) && InputReason in ix.fields ==>
              && |t| == 2 && t[0].Mutate?
              && (be.voteFails <==> t[1] == Send(Notice(VoteFailed)))
              && (!be.voteFails ==> t[1] == Send(Render(Respond, VoteRecorded(Arg(ix, KeyVote) == Some(VoteApprove)), [])))
  {
    if !IsModalSubmit(ix) then
      CallsThenReply(NoCalls, Notice(InvalidInteractionType));
      [Send(Notice(InvalidInteractionType))]
    else if InputReason !in ix.fields then
      CallsThenRaise(NoCalls, MissingField(InputReason));
      [Raise(MissingField(InputReason))]
    else
      var isApprove := Arg(ix, KeyVote) == Some(VoteApprove);
      var submit: Trace := [Mutate(RecordVote(ArgNum(ix, KeyProjectId), ArgNum(ix, KeyFundingRoundId), isApprove, ix.fields[InputReason]))];
      if be.voteFails then
        CallsThenReply(submit, Notice(VoteFailed));
        submit + [Send(Notice(VoteFailed))]
      else
        CallsThenReply(submit, Render(Respond, VoteRecorded(isApprove), []));
        submit + [Send(Render(Respond, VoteRecorded(isApprove), []))]
  }

  /** The modal submission that answers the reason modal carrying `tok`. */
  function Submitted(tok: Token, fields: map<string, string>, caller: string): (ix: Interaction)
    ensures IsModalSubmit(ix) && ix.fields == fields
    ensures forall k :: Arg(ix, k) == TokenArg(tok, k)
  {
    Interaction(FormSubmission, ArgsMap(tok.args), [], fields, false, 0, caller)
  }

  /**
   * Pressing a vote button and submitting the modal with a reason records
   * that vote, approval iff the button was the approve button, on the
   * project and round the vote options showed.
   */
  lemma VoteButtonRecordsItsVote(be: Backend, a: VoteArgs, vote: string, press: Interaction, fields: map<string, string>, later: Backend)
    requires vote == VoteApprove || vote == VoteReject
    requires CanShowModal(press) && forall k :: Arg(press, k) == TokenArg(VoteToken(a.projectId, a.fundingRoundId, vote), k)
    requires InputReason in fields
    ensures var modal := ConfirmToken(a.projectId, a.fundingRoundId, vote);
            && SubmitVoteTrace(press) == [Send(Modal(modal))]
            && ConfirmVoteTrace(Submitted(modal, fields, press.caller), later)[0]
                 == Mutate(RecordVote(a.projectId, a.fundingRoundId, vote == VoteApprove, fields[InputReason]))
  {
    var pid := a.projectId;
    var rid := a.fundingRoundId;
    ArgsOfThree(SmeConsiderationVoteID, OpSubmitVote, KeyProjectId, NumText(pid), KeyFundingRoundId, NumText(rid), KeyVote, vote);
    ParseNumText(pid);
    ParseNumText(rid);
    assert ArgNum(press, KeyProjectId) == pid;
    assert ArgNum(press, KeyFundingRoundId) == rid;
    assert Arg(press, KeyVote) == Some(vote);
    var modal := ConfirmToken(pid, rid, vote);
    ArgsOfThree(SmeConsiderationVoteID, OpConfirmVote, KeyProjectId, NumText(pid), KeyFundingRoundId, NumText(rid), KeyVote, vote);
    var submission := Submitted(modal, fields, press.caller);
    assert ArgNum(submission, KeyProjectId) == pid;
    assert ArgNum(submission, KeyFundingRoundId) == rid;
    assert Arg(submission, KeyVote) == Some(vote);
  }

  /** `handleOperation`; `args` is what a chaining Action passes, None for a token. */
  function OperationTrace(ix: Interaction, be: Backend, op: string, args: Option<VoteArgs>): (t: Trace)
    ensures Route(op) == HandleInvalidOperation <==> t == [Send(InvalidOperation(op))]
    ensures Route(op) != HandleInvalidOperation ==> Handled(t)
  {
    match Route(op)
    case HandleShowVoteOptions => ShowVoteOptionsTrace(ix, be, args)
    case HandleSubmitVote => SubmitVoteTrace(ix)
    case HandleConfirmVote => ConfirmVoteTrace(ix, be)
    case HandleInvalidOperation => [Send(InvalidOperation(op))]
  }

  method ShowVoteOptions(ix: Interaction, be: Backend, args: Option<VoteArgs>) returns (trace: Trace)
    ensures trace == ShowVoteOptionsTrace(ix, be, args)
  {
    if args.None? {
      return [Raise(ArgsMissing)];
    }
    var projectId := args.value.projectId;
    var fundingRoundId := args.value.fundingRoundId;
    trace := [Query(ProjectById(projectId)), Query(RoundById(fundingRoundId)), Query(MostRecentVote(projectId))];
    var existingVote := LastVote(be, projectId);
    if !ProjectExists(be, projectId) || !RoundExists(be, fundingRoundId) {
      return trace + [Send(Notice(ProjectOrRoundNotFound))];
    }
    var approveButton := Button(VoteToken(projectId, fundingRoundId, VoteApprove), false);
    var rejectButton := Button(VoteToken(projectId, fundingRoundId, VoteReject), false);
    var row: seq<Control> := [];
    if existingVote.Some? && existingVote.value {
      row := row + [rejectButton];
    } else if existingVote.Some? && !existingVote.value {
      row := row + [approveButton];
    } else {
      row := row + [approveButton, rejectButton];
    }
    assert row == VoteRow(existingVote, approveButton, rejectButton);
    trace := trace + [Send(Render(Respond, VoteOptions(existingVote), [row]))];
  }

  method SubmitVote(ix: Interaction) returns (trace: Trace)
    ensures trace == SubmitVoteTrace(ix)
  {
    var projectId := ParseInt(OrEmpty(Arg(ix, KeyProjectId)));
    var fundingRoundId := ParseInt(OrEmpty(Arg(ix, KeyFundingRoundId)));
    var vote := Arg(ix, KeyVote);
    if !Present(vote) {
      return [Send(Notice(VoteNotProvided))];
    }
    var modal := Tok(OpConfirmVote, [(KeyProjectId, NumText(projectId)), (KeyFundingRoundId, NumText(fundingRoundId)), (KeyVote, vote.value)]);
    if !CanShowModal(ix) {
      return [Send(Notice(ModalFailed))];
    }
    trace := [Send(Modal(modal))];
  }

  method ConfirmVote(ix: Interaction, be: Backend) returns (trace: Trace)
    ensures trace == ConfirmVoteTrace(ix, be)
  {
    if !IsModalSubmit(ix) {
      return [Send(Notice(InvalidInteractionType))];
    }
    var projectId := ParseInt(OrEmpty(Arg(ix, KeyProjectId)));
    var fundingRoundId := ParseInt(OrEmpty(Arg(ix, KeyFundingRoundId)));
    var vote := Arg(ix, KeyVote);
    if InputReason !in ix.fields {
      return [Raise(MissingField(InputReason))];
    }
    var reason := ix.fields[InputReason];
    var isApprove := vote == Some(VoteApprove);
    trace := [Mutate(RecordVote(projectId, fundingRoundId, isApprove, reason))];
    if be.voteFails {
      return trace + [Send(Notice(VoteFailed))];
    }
    trace := trace + [Send(Render(Respond, VoteRecorded(isApprove), []))];
  }

  method HandleOperation(ix: Interaction, be: Backend, operationId: string, args: Option<VoteArgs>) returns (trace: Trace)
    ensures trace == OperationTrace(ix, be, operationId, args)
  {
    match Route(operationId)
    case HandleShowVoteOptions => trace := ShowVoteOptions(ix, be, args);
    case HandleSubmitVote => trace := SubmitVote(ix);
    case HandleConfirmVote => trace := ConfirmVote(ix, be);
    case HandleInvalidOperation => trace := [Send(InvalidOperation(operationId))];
  }
}
