/**
 * SubmitProposalToFundingRoundAction: pick a draft, pick one of the rounds
 * it is eligible for, confirm, and submit. The confirmation's button hands
 * both ids on to the submission.
 */
module SubmitProposalToFundingRoundAction {
  import opened Wrappers
  import opened JsValues
  import opened Routing
  import opened Dispatch
  import opened ProposalHome
  import ManageDraftsAction

  /** The cases of `handleOperation`. */
  datatype Handler =
    | HandleShowDraftProposals
    | HandleSelectFundingRound
    | HandleConfirmSubmission
    | HandleExecuteSubmission
    | HandleInvalidOperation

  function OpId(h: Handler): string
    requires h != HandleInvalidOperation
  {
    match h
    case HandleShowDraftProposals => OpShowDraftProposals
    case HandleSelectFundingRound => OpSelectFundingRound
    case HandleConfirmSubmission => OpConfirmSubmission
    case HandleExecuteSubmission => OpExecuteSubmission
  }

  /** The switch: each listed id reaches the one case it names, any other id the invalid-operation handler. */
  function Route(op: string): (h: Handler)
    ensures h == HandleInvalidOperation <==> op !in Operations(SubmitProposalToFundingRoundID)
    ensures h != HandleInvalidOperation ==> OpId(h) == op
  {
    if op == OpShowDraftProposals then HandleShowDraftProposals
    else if op == OpSelectFundingRound then HandleSelectFundingRound
    else if op == OpConfirmSubmission then HandleConfirmSubmission
    else if op == OpExecuteSubmission then HandleExecuteSubmission
    else HandleInvalidOperation
  }

  lemma RouteInvertsOpId(h: Handler)
    requires h != HandleInvalidOperation
    ensures Route(OpId(h)) == h
  {
  }

  function Tok(op: string, args: seq<(string, string)>): Token
  {
    Token(SubmitProposalToFundingRoundID, op, args)
  }

  /** `getComponent`: the home-screen button lists the drafts that can be submitted. */
  function Component(): (t: Token)
    ensures Routes(t) && Route(t.op) == HandleShowDraftProposals
  {
    Tok(OpShowDraftProposals, [])
  }

  /**
   * `handleShowDraftProposals`: every draft of the caller in one list (this
   * Action does not paginate), or a notice when there is none.
   */
  function ShowDraftProposalsTrace(ix: Interaction, be: Backend): (t: Trace)
    ensures Handled(t) && NoMutation(t)
    ensures |t| == 2 && t[0] == Query(UserDrafts)
    ensures be.drafts == [] <==> t[1] == Send(Notice(NoDraftsToSubmit))
    ensures be.drafts != [] ==>
              && t[1].Send? && t[1].reply.Render? && t[1].reply.view == DraftList
              && (t[1].reply.mode == Update <==> Arg(ix, KeyUdt) == Some("1"))
              && FirstControl(t[1].reply).Some? && FirstControl(t[1].reply).value.Select?
              && var options := FirstControl(t[1].reply).value.options;
                 && |options| == |be.drafts|
                 && forall i :: 0 <= i < |options| ==> ParseInt(options[i]) == N(be.drafts[i].id)
    ensures forall tok :: tok in SentTokens(t) ==> tok == Tok(OpSelectFundingRound, [])
  {
    var calls := [Query(UserDrafts)];
    if |be.drafts| == 0 then
      CallsThenReply(calls, Notice(NoDraftsToSubmit));
      calls + [Send(Notice(NoDraftsToSubmit))]
    else
      var list := Select(Tok(OpSelectFundingRound, []), IdTexts(ProposalIds(be.drafts)));
      var mode := if Arg(ix, KeyUdt) == Some("1") then Update else Respond;
      TokensOfOne(mode, DraftList, list);
      CallsThenReply(calls, Render(mode, DraftList, [[list]]));
      calls + [Send(Render(mode, DraftList, [[list]]))]
  }

  /** The list of eligible rounds whose choice goes on to the confirmation, carrying the draft's id. */
  function RoundChoice(proposalIdText: string, rounds: seq<int>): Control
  {
    Select(Tok(OpConfirmSubmission, [(KeyProposalId, proposalIdText)]), IdTexts(rounds))
  }

  /**
   * `handleSelectFundingRound`: the rounds the chosen draft is eligible
   * for; the lookup throws when the draft does not exist.
   */
  function SelectFundingRoundTrace(ix: Interaction, be: Backend): (t: Trace)
    ensures Handled(t) && NoMutation(t)
    ensures !HasValues(ix) ==> t == [Send(Notice(InvalidInteractionType))]
    ensures HasValues(ix) ==>
              && |t| == 2 && t[0] == Query(EligibleRoundsFor(FirstValue(ix)))
              && (ProposalAt(be, FirstValue(ix)).None? ==> t[1] == Raise(ProposalNotFoundThrown))
              && (ProposalAt(be, FirstValue(ix)).Some? && be.eligibleRounds == [] ==> t[1] == Send(Notice(NoEligibleRounds)))
              && (ProposalAt(be, FirstValue(ix)).Some? && be.eligibleRounds != [] ==>
                    t[1] == Send(Render(Respond, EligibleRoundList, [[RoundChoice(NumText(FirstValue(ix)), be.eligibleRounds)]])))
  {
    if !HasValues(ix) then
      CallsThenReply(NoCalls, Notice(InvalidInteractionType));
      [Send(Notice(InvalidInteractionType))]
    else
      var pid := FirstValue(ix);
      var calls := [Query(EligibleRoundsFor(pid))];
      if ProposalAt(be, pid).None? then
        CallsThenRaise(calls, ProposalNotFoundThrown);
        calls + [Raise(ProposalNotFoundThrown)]
      else if |be.eligibleRounds| == 0 then
        CallsThenReply(calls, Notice(NoEligibleRounds));
        calls + [Send(Notice(NoEligibleRounds))]
      else
        var list := RoundChoice(NumText(pid), be.eligibleRounds);
        TokensOfOne(Respond, EligibleRoundList, list);
        CallsThenReply(calls, Render(Respond, EligibleRoundList, [[list]]));
        calls + [Send(Render(Respond, EligibleRoundList, [[list]]))]
  }

  /** The round list goes on to the confirmation and names the draft that was chosen. */
  lemma SelectFundingRoundForwardsId(ix: Interaction, be: Backend)
    ensures forall tok :: tok in SentTokens(SelectFundingRoundTrace(ix, be)) ==>
              && Route(tok.op) == HandleConfirmSubmission
              && ParseInt(OrEmpty(TokenArg(tok, KeyProposalId))) == FirstValue(ix)
  {
    var pid := FirstValue(ix);
    if HasValues(ix) && ProposalAt(be, pid).Some? && be.eligibleRounds != [] {
      var list := RoundChoice(NumText(pid), be.eligibleRounds);
      ArgsOfOne(SubmitProposalToFundingRoundID, OpConfirmSubmission, KeyProposalId, NumText(pid));
      ForwardsParsed({list.token}, KeyProposalId, pid);
      TokensOfOne(Respond, EligibleRoundList, list);
      var calls: Trace := [Query(EligibleRoundsFor(pid))];
      SentTokensOfReply(calls, Render(Respond, EligibleRoundList, [[list]]));
    }
  }

  /** The confirmation's submit button: both ids as text. */
  function ExecuteToken(proposalId: Num, fundingRoundId: Num): Token
  {
    Tok(OpExecuteSubmission, [(KeyProposalId, NumText(proposalId)), (KeyFundingRoundId, NumText(fundingRoundId))])
  }

  /** The confirmation's cancel button: the drafts list again, replacing this message. */
  function BackToDrafts(): Token
  {
    Tok(OpShowDraftProposals, [(KeyUdt, "1")])
  }

  /**
   * `handleConfirmSubmission`: the round is the chosen value, the draft the
   * token's `proposalId`; with both found, a confirmation replacing the
   * list, whose submit button carries both ids.
   */
  function ConfirmSubmissionTrace(ix: Interaction, be: Backend): (t: Trace)
    ensures Handled(t) && NoMutation(t)
    ensures !HasValues(ix) ==> t == [Send(Notice(InvalidInteractionType))]
    ensures HasValues(ix) ==>
              var pid := ArgNum(ix, KeyProposalId);
              var rid := FirstValue(ix);
              && |t| == 3 && t[0] == Query(ProposalById(pid)) && t[1] == Query(RoundById(rid))
              && (ProposalAt(be, pid).None? || RoundAt(be, rid).None? <==> t[2] == Send(Notice(ProposalOrRoundNotFound)))
              && (ProposalAt(be, pid).Some? && RoundAt(be, rid).Some? ==>
                    && t[2].Send? && t[2].reply.Render? && t[2].reply.mode == Update
                    && SentTokens(t) == {ExecuteToken(pid, rid), BackToDrafts()})
  {
    if !HasValues(ix) then
      CallsThenReply(NoCalls, Notice(InvalidInteractionType));
      [Send(Notice(InvalidInteractionType))]
    else
      var rid := FirstValue(ix);
      var pid := ArgNum(ix, KeyProposalId);
      var calls := [Query(ProposalById(pid)), Query(RoundById(rid))];
      if ProposalAt(be, pid).None? || RoundAt(be, rid).None? then
        CallsThenReply(calls, Notice(ProposalOrRoundNotFound));
        calls + [Send(Notice(ProposalOrRoundNotFound))]
      else
        var confirm := Button(ExecuteToken(pid, rid), false);
        var cancel := Button(BackToDrafts(), false);
        TokensOfTwo(Update, SubmissionConfirmation, confirm, cancel);
        CallsThenReply(calls, Render(Update, SubmissionConfirmation, [[confirm, cancel]]));
        calls + [Send(Render(Update, SubmissionConfirmation, [[confirm, cancel]]))]
  }

  /** The button of the success reply: the caller's submitted proposals. */
  function ManageSubmittedButton(): Control
  {
    Button(Token(ManageSubmittedProposalsID, OpShowFundingRounds, []), false)
  }

  /**
   * `handleExecuteSubmission`: no guard; both ids are parsed from the
   * token, an absent one as NaN, and reach the submission as they are.
   */
  function ExecuteSubmissionTrace(ix: Interaction, be: Backend): (t: Trace)
    ensures Handled(t)
    ensures |t| == 2 && t[0] == Mutate(SubmitToRound(ArgNum(ix, KeyProposalId), ArgNum(ix, KeyFundingRoundId)))
    ensures be.mutationFails <==> t[1] == Send(Notice(SubmitFailed))
    ensures !be.mutationFails ==> t[1] == Send(Render(Update, ProposalSubmitted, [[ManageSubmittedButton()]]))
  {
    var submit := Mutate(SubmitToRound(ArgNum(ix, KeyProposalId), ArgNum(ix, KeyFundingRoundId)));
    if be.mutationFails then
      CallsThenReply([submit], Notice(SubmitFailed));
      [submit, Send(Notice(SubmitFailed))]
    else
      TokensOfOne(Update, ProposalSubmitted, ManageSubmittedButton());
      CallsThenReply([submit], Render(Update, ProposalSubmitted, [[ManageSubmittedButton()]]));
      [submit, Send(Render(Update, ProposalSubmitted, [[ManageSubmittedButton()]]))]
  }

  /**
   * Confirming and then pressing the submit button submits exactly the
   * draft and the round the confirmation showed.
   */
  lemma ConfirmThenExecute(ix: Interaction, be: Backend, later: Backend)
    requires HasValues(ix)
    requires ProposalAt(be, ArgNum(ix, KeyProposalId)).Some? && RoundAt(be, FirstValue(ix)).Some?
    ensures var pid := ArgNum(ix, KeyProposalId);
            var rid := FirstValue(ix);
            && ExecuteToken(pid, rid) in SentTokens(ConfirmSubmissionTrace(ix, be))
            && Route(ExecuteToken(pid, rid).op) == HandleExecuteSubmission
            && ExecuteSubmissionTrace(Pressed(ExecuteToken(pid, rid), ix.caller), later)[0] == Mutate(SubmitToRound(pid, rid))
  {
    var pid := ArgNum(ix, KeyProposalId);
    var rid := FirstValue(ix);
    var press := Pressed(ExecuteToken(pid, rid), ix.caller);
    ArgsOfTwo(SubmitProposalToFundingRoundID, OpExecuteSubmission, KeyProposalId, NumText(pid), KeyFundingRoundId, NumText(rid));
    ParseNumText(pid);
    ParseNumText(rid);
    assert ArgNum(press, KeyProposalId) == pid;
    assert ArgNum(press, KeyFundingRoundId) == rid;
  }

  /**
   * The draft chosen in the drafts list and the round chosen in the
   * eligible-round list reach the confirmation: the round list's token
   * names the draft, so the confirmation looks up exactly that draft.
   */
  lemma SelectThenConfirm(ix: Interaction, be: Backend, tok: Token, roundChoice: seq<string>, later: Backend)
    requires tok in SentTokens(SelectFundingRoundTrace(ix, be))
    requires roundChoice != []
    ensures var next := Interaction(ListSelection, ArgsMap(tok.args), roundChoice, map[], false, 0, ix.caller);
            ConfirmSubmissionTrace(next, later)[0] == Query(ProposalById(FirstValue(ix)))
  {
    var next := Interaction(ListSelection, ArgsMap(tok.args), roundChoice, map[], false, 0, ix.caller);
    SelectFundingRoundForwardsId(ix, be);
    assert Arg(next, KeyProposalId) == TokenArg(tok, KeyProposalId);
  }

  method ShowDraftProposals(ix: Interaction, be: Backend) returns (trace: Trace)
    ensures trace == ShowDraftProposalsTrace(ix, be)
  {
    trace := [Query(UserDrafts)];
    var draftProposals := be.drafts;
    if |draftProposals| == 0 {
      return trace + [Send(Notice(NoDraftsToSubmit))];
    }
    var selectMenu := Select(Tok(OpSelectFundingRound, []), IdTexts(ProposalIds(draftProposals)));
    var asUpdate := Arg(ix, KeyUdt);
    var isUpdate := asUpdate == Some("1");
    if isUpdate {
      trace := trace + [Send(Render(Update, DraftList, [[selectMenu]]))];
    } else {
      trace := trace + [Send(Render(Respond, DraftList, [[selectMenu]]))];
    }
  }

  method SelectFundingRound(ix: Interaction, be: Backend) returns (trace: Trace)
    ensures trace == SelectFundingRoundTrace(ix, be)
  {
    if !HasValues(ix) {
      return [Send(Notice(InvalidInteractionType))];
    }
    var proposalId := FirstValue(ix);
    trace := [Query(EligibleRoundsFor(proposalId))];
    if ProposalAt(be, proposalId).None? {
      return trace + [Raise(ProposalNotFoundThrown)];
    }
    var eligibleFundingRounds := be.eligibleRounds;
    if |eligibleFundingRounds| == 0 {
      return trace + [Send(Notice(NoEligibleRounds))];
    }
    var selectMenu := Select(Tok(OpConfirmSubmission, [(KeyProposalId, NumText(proposalId))]), IdTexts(eligibleFundingRounds));
    trace := trace + [Send(Render(Respond, EligibleRoundList, [[selectMenu]]))];
  }

  method ConfirmSubmission(ix: Interaction, be: Backend) returns (trace: Trace)
    ensures trace == ConfirmSubmissionTrace(ix, be)
  {
    if !HasValues(ix) {
      return [Send(Notice(InvalidInteractionType))];
    }
    var fundingRoundId := FirstValue(ix);
    var proposalId := ParseInt(OrEmpty(Arg(ix, KeyProposalId)));
    trace := [Query(ProposalById(proposalId)), Query(RoundById(fundingRoundId))];
    var proposal := ProposalAt(be, proposalId);
    var fundingRound := RoundAt(be, fundingRoundId);
    if proposal.None? || fundingRound.None? {
      return trace + [Send(Notice(ProposalOrRoundNotFound))];
    }
    var confirmButton := Button(Tok(OpExecuteSubmission, [(KeyProposalId, NumText(proposalId)), (KeyFundingRoundId, NumText(fundingRoundId))]), false);
    var cancelButton := Button(Tok(OpShowDraftProposals, [(KeyUdt, "1")]), false);
    trace := trace + [Send(Render(Update, SubmissionConfirmation, [[confirmButton, cancelButton]]))];
  }

  method ExecuteSubmission(ix: Interaction, be: Backend) returns (trace: Trace)
    ensures trace == ExecuteSubmissionTrace(ix, be)
  {
    var proposalId := ParseInt(OrEmpty(Arg(ix, KeyProposalId)));
    var fundingRoundId := ParseInt(OrEmpty(Arg(ix, KeyFundingRoundId)));
    trace := [Mutate(SubmitToRound(proposalId, fundingRoundId))];
    if be.mutationFails {
      return trace + [Send(Notice(SubmitFailed))];
    }
    var manageButton := Button(Token(ManageSubmittedProposalsID, OpShowFundingRounds, []), false);
    trace := trace + [Send(Render(Update, ProposalSubmitted, [[manageButton]]))];
  }

  method HandleOperation(ix: Interaction, be: Backend, operationId: string) returns (trace: Trace)
    ensures trace == OperationTrace(ix, be, operationId)
  {
    match Route(operationId)
    case HandleShowDraftProposals => trace := ShowDraftProposals(ix, be);
    case HandleSelectFundingRound => trace := SelectFundingRound(ix, be);
    case HandleConfirmSubmission => trace := ConfirmSubmission(ix, be);
    case HandleExecuteSubmission => trace := ExecuteSubmission(ix, be);
    case HandleInvalidOperation => trace := [Send(InvalidOperation(operationId))];
  }

  /** `handleOperation` */
  function OperationTrace(ix: Interaction, be: Backend, op: string): (t: Trace)
    ensures Route(op) == HandleInvalidOperation <==> t == [Send(InvalidOperation(op))]
    ensures Route(op) != HandleInvalidOperation ==> Handled(t)
  {
    match Route(op)
    case HandleShowDraftProposals => ShowDraftProposalsTrace(ix, be)
    case HandleSelectFundingRound => SelectFundingRoundTrace(ix, be)
    case HandleConfirmSubmission => ConfirmSubmissionTrace(ix, be)
    case HandleExecuteSubmission => ExecuteSubmissionTrace(ix, be)
    case HandleInvalidOperation => [Send(InvalidOperation(op))]
  }
}
