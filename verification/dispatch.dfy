/**
 * The operation ids of every Action's `handleOperation` switch, and the
 * shape a handler's trace keeps: one concluding reply or error, every token
 * handed out reaching a case of its Action's switch.
 */
module Dispatch {
  import opened Wrappers
  import opened JsValues
  import opened Routing

  // Operation ids of ManageSubmittedProposalsAction
  const OpShowFundingRounds: string := "showFundingRounds"
  const OpSelectFundingRound: string := "selectFundingRound"
  const OpShowProposals: string := "showProposals"
  const OpShowProposalDetails: string := "showProposalDetails"
  const OpConfirmCancelProposal: string := "confirmCancelProposal"
  const OpExecuteCancelProposal: string := "executeCancelProposal"
  // Operation ids of ManageDraftsAction
  const OpShowDrafts: string := "showDrafts"
  const OpSelectDraft: string := "selectDraft"
  const OpEditDraft: string := "editDraft"
  const OpSubmitEdit: string := "submitEdit"
  const OpDeleteDraft: string := "deleteDraft"
  const OpConfirmDelete: string := "confirmDelete"
  const OpSubmitToFundingRound: string := "submitToFundingRound"
  // Operation ids of CreateNewProposalAction
  const OpShowCreateForm: string := "showCreateForm"
  const OpSubmitCreateForm: string := "submitCreateForm"
  // Operation ids of SubmitProposalToFundingRoundAction (it reuses "selectFundingRound")
  const OpShowDraftProposals: string := "showDraftProposals"
  const OpConfirmSubmission: string := "confirmSubmission"
  const OpExecuteSubmission: string := "executeSubmission"

  // Operation ids of the consideration screen's Actions. They are the values
  // of CONSIDERATION_CONSTANTS.OPERATION_IDS, which is not part of this model:
  // the strings below stand in for them, and nothing here depends on them
  // beyond their being distinct within each Action and different from
  // 'paginate'.
  const OpShowConsiderationRounds: string := "showFundingRounds"   // SHOW_FUNDING_ROUNDS
  const OpSelectConsiderationRound: string := "selectFundingRound" // SELECT_FUNDING_ROUND
  const OpShowVoteTypes: string := "showVoteTypes"
  const OpSelectVoteType: string := "selectVoteType"
  const OpShowProjects: string := "showProjects"
  const OpSelectProject: string := "selectProject"
  const OpShowVoteOptions: string := "showVoteOptions"
  const OpSubmitVote: string := "submitVote"
  const OpConfirmVote: string := "confirmVote"
  // The pagination base class's operation, listed literally in SelectProjectAction's switch
  const OpPaginate: string := "paginate"

  /** The operation ids each Action's `handleOperation` switch has a case for. */
  function Operations(a: ActionId): seq<string>
  {
    match a
    case ManageSubmittedProposalsID =>
      [OpShowFundingRounds, OpSelectFundingRound, OpShowProposals,
       OpShowProposalDetails, OpConfirmCancelProposal, OpExecuteCancelProposal]
    case ManageDraftsID =>
      [OpShowDrafts, OpSelectDraft, OpEditDraft, OpSubmitEdit,
       OpDeleteDraft, OpConfirmDelete, OpSubmitToFundingRound]
    case CreateNewProposalID => [OpShowCreateForm, OpSubmitCreateForm]
    case SubmitProposalToFundingRoundID =>
      [OpShowDraftProposals, OpSelectFundingRound, OpConfirmSubmission, OpExecuteSubmission]
    case SelectFundingRoundID => [OpShowConsiderationRounds, OpSelectConsiderationRound]
    case SelectVoteTypeID => [OpShowVoteTypes, OpSelectVoteType]
    case SelectProjectID => [OpShowProjects, OpSelectProject, OpPaginate]
    case SmeConsiderationVoteID => [OpShowVoteOptions, OpSubmitVote, OpConfirmVote]
  }

  /** The token reaches a case of its Action's switch rather than `handleInvalidOperation`. */
  predicate Routes(t: Token)
  {
    t.op in Operations(t.action)
  }

  /** Every token the trace hands out reaches a handler. */
  predicate TokensRoute<Q, M>(t: seq<Event<Q, M>>)
  {
    forall tok :: tok in SentTokens(t) ==> Routes(tok)
  }

  /**
   * The shape every handler but one keeps: it ends with exactly one reply or
   * uncaught error, every token it hands out reaches a handler, and it never
   * answers with the invalid-operation reply.
   */
  predicate Handled<Q, M>(t: seq<Event<Q, M>>)
  {
    Concludes(t) && TokensRoute(t) && NoInvalidOperation(t)
  }

  /** Collaborator calls followed by one routed reply form a handled trace that hands out that reply's tokens. */
  lemma CallsThenReply<Q, M>(calls: seq<Event<Q, M>>, r: Reply)
    requires forall i :: 0 <= i < |calls| ==> calls[i].Query? || calls[i].Mutate?
    requires !r.InvalidOperation?
    requires forall tok :: tok in ReplyTokens(r) ==> Routes(tok)
    ensures SentTokens(calls + [Send(r)]) == ReplyTokens(r)
    ensures Handled(calls + [Send(r)])
    ensures (forall i :: 0 <= i < |calls| ==> calls[i].Query?) ==> NoMutation(calls + [Send(r)])
  {
    var t := calls + [Send(r)];
    SentTokensOfReply(calls, r);
    ConcludesAfterCalls(calls, [Send(r)]);
    assert forall i :: 0 <= i < |calls| ==> t[i] == calls[i];
    if forall i :: 0 <= i < |calls| ==> calls[i].Query? {
      assert NoMutation(t);
    }
  }

  /** Collaborator calls followed by a handled trace (a chained handler) form a handled trace. */
  lemma CallsThenHandled<Q, M>(calls: seq<Event<Q, M>>, rest: seq<Event<Q, M>>)
    requires forall i :: 0 <= i < |calls| ==> calls[i].Query? || calls[i].Mutate?
    requires Handled(rest)
    ensures SentTokens(calls + rest) == SentTokens(rest)
    ensures Handled(calls + rest)
  {
    var t := calls + rest;
    ConcludesAfterCalls(calls, rest);
    assert forall i :: 0 <= i < |calls| ==> t[i] == calls[i];
    assert forall i :: |calls| <= i < |t| ==> t[i] == rest[i - |calls|];
    forall tok | tok in SentTokens(t)
      ensures tok in SentTokens(rest)
    {
      var i :| 0 <= i < |t| && t[i].Send? && tok in ReplyTokens(t[i].reply);
      assert t[i] == rest[i - |calls|];
    }
    forall tok | tok in SentTokens(rest)
      ensures tok in SentTokens(t)
    {
      var i :| 0 <= i < |rest| && rest[i].Send? && tok in ReplyTokens(rest[i].reply);
      assert t[i + |calls|] == rest[i];
    }
  }

  /** Collaborator calls followed by an uncaught error form a handled trace with no tokens. */
  lemma CallsThenRaise<Q, M>(calls: seq<Event<Q, M>>, e: Escape)
    requires forall i :: 0 <= i < |calls| ==> calls[i].Query? || calls[i].Mutate?
    ensures SentTokens(calls + [Raise(e)]) == {}
    ensures Handled(calls + [Raise(e)])
  {
    var t := calls + [Raise(e)];
    ConcludesAfterCalls(calls, [Raise(e)]);
    assert forall i :: 0 <= i < |calls| ==> t[i] == calls[i];
    SentTokensNoReply(t);
  }

  /** Tokens carrying `n` as text under `key` give `n` back to the handler that parses it. */
  lemma ForwardsParsed(tokens: set<Token>, key: string, n: Num)
    requires forall tok :: tok in tokens ==> TokenArg(tok, key) == Some(NumText(n))
    ensures forall tok :: tok in tokens ==> ParseInt(OrEmpty(TokenArg(tok, key))) == n
  {
    ParseNumText(n);
  }

  /** The option values of a select menu listing ids: `id.toString()`; each parses back to its id. */
  function IdTexts(ids: seq<int>): (r: seq<string>)
    ensures |r| == |ids|
    ensures forall i :: 0 <= i < |ids| ==> r[i] == NumText(N(ids[i]))
    ensures forall i :: 0 <= i < |ids| ==> ParseInt(r[i]) == N(ids[i])
  {
    if ids == [] then []
    else
      ParseNumText(N(ids[0]));
      [NumText(N(ids[0]))] + IdTexts(ids[1..])
  }
}
