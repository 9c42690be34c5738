/**
 * ManageSubmittedProposalsAction: the caller picks one of the rounds they
 * have proposals in, then one of their active proposals in it, and may
 * cancel it after a confirmation step.
 */
module ManageSubmittedProposalsAction {
  import opened Wrappers
  import opened JsValues
  import opened Routing
  import opened Dispatch
  import opened Pagination
  import opened FundingRules
  import opened ProposalHome

  /** The cases of `handleOperation`. */
  datatype Handler =
    | HandleShowFundingRounds
    | HandleSelectFundingRound
    | HandleShowProposals
    | HandleShowProposalDetails
    | HandleConfirmCancelProposal
    | HandleExecuteCancelProposal
    | HandleInvalidOperation

  /** The operation id each case of the switch matches. */
  function OpId(h: Handler): string
    requires h != HandleInvalidOperation
  {
    match h
    case HandleShowFundingRounds => OpShowFundingRounds
    case HandleSelectFundingRound => OpSelectFundingRound
    case HandleShowProposals => OpShowProposals
    case HandleShowProposalDetails => OpShowProposalDetails
    case HandleConfirmCancelProposal => OpConfirmCancelProposal
    case HandleExecuteCancelProposal => OpExecuteCancelProposal
  }

  /** The switch: each listed id reaches the one case it names, any other id the invalid-operation handler. */
  function Route(op: string): (h: Handler)
    ensures h == HandleInvalidOperation <==> op !in Operations(ManageSubmittedProposalsID)
    ensures h != HandleInvalidOperation ==> OpId(h) == op
  {
    if op == OpShowFundingRounds then HandleShowFundingRounds
    else if op == OpSelectFundingRound then HandleSelectFundingRound
    else if op == OpShowProposals then HandleShowProposals
    else if op == OpShowProposalDetails then HandleShowProposalDetails
    else if op == OpConfirmCancelProposal then HandleConfirmCancelProposal
    else if op == OpExecuteCancelProposal then HandleExecuteCancelProposal
    else HandleInvalidOperation
  }

  lemma RouteInvertsOpId(h: Handler)
    requires h != HandleInvalidOperation
    ensures Route(OpId(h)) == h
  {
  }

  function Tok(op: string, args: seq<(string, string)>): Token
  {
    Token(ManageSubmittedProposalsID, op, args)
  }

  /** `getComponent`: the home-screen button opens the list of rounds. */
  function Component(): (t: Token)
    ensures Routes(t) && Route(t.op) == HandleShowFundingRounds
  {
    Tok(OpShowFundingRounds, [])
  }

  /** `handleShowFundingRounds`: one page of the rounds the caller has proposals in. */
  function ShowFundingRoundsTrace(ix: Interaction, be: Backend): (t: Trace)
    ensures Handled(t) && NoMutation(t)
    ensures FinalReply(t).Some? && FinalReply(t).value.Render?
    ensures var r := FinalReply(t).value;
            var ids := be.roundsWithUserProposals;
            && |r.rows| > 0 && r.rows[0] == [Select(Tok(OpSelectFundingRound, []), IdTexts(ItemsForPage(ids, ix.page)))]
            && (PaginationShown(r) <==> TotalPages(|ids|) > 1)
  {
    var ids := be.roundsWithUserProposals;
    var list := Select(Tok(OpSelectFundingRound, []), IdTexts(ItemsForPage(ids, ix.page)));
    var reply := Render(Respond, FundingRoundList, ListRows(list, ix.page, TotalPages(|ids|)));
    var calls := [Query(RoundsWithUserProposals), Query(RoundsWithUserProposals)];
    TokensOfList(Respond, FundingRoundList, list, ix.page, TotalPages(|ids|));
    ListRowsPagination(Respond, FundingRoundList, list, ix.page, TotalPages(|ids|));
    CallsThenReply(calls, reply);
    calls + [Send(reply)]
  }

  /** The round id `handleShowProposals` works with: the one passed in, unless falsy, else the token's. */
  function RoundIdFor(ix: Interaction, given: Num): Num
  {
    if Falsy(given) then ArgNum(ix, KeyFundingRoundId) else given
  }

  /**
   * `handleShowProposals`: the caller's proposals in the round that pass the
   * filter `f`. The handler as written applies `AsWritten`, which keeps them all.
   */
  function ShowProposalsTrace(ix: Interaction, be: Backend, given: Num, f: ProposalFilter): (t: Trace)
    ensures Handled(t) && NoMutation(t)
    ensures var id := RoundIdFor(ix, given);
            && (Falsy(id) ==> t == [Send(Notice(InvalidFundingRoundId))])
            && (!Falsy(id) ==> t[0] == Query(RoundById(id)))
            && (!Falsy(id) && RoundAt(be, id).None? ==> FinalReply(t) == Some(Notice(FundingRoundNotFound)))
    ensures var id := RoundIdFor(ix, given);
            !Falsy(id) && RoundAt(be, id).Some? ==>
              var shown := Eligible(f, UserProposalsIn(be, id.v), RoundAt(be, id).value, WindowsAt(be, id.v), be.now);
              FinalReply(t) == Some(Render(Respond, ProposalList,
                [[Select(Tok(OpShowProposalDetails, [(KeyFundingRoundId, NumText(id))]), IdTexts(ProposalIds(shown)))]]))
    ensures forall tok :: tok in SentTokens(t) ==> ParseInt(OrEmpty(TokenArg(tok, KeyFundingRoundId))) == RoundIdFor(ix, given)
  {
    var id := RoundIdFor(ix, given);
    if Falsy(id) then
      CallsThenReply(NoCalls, Notice(InvalidFundingRoundId));
      [Send(Notice(InvalidFundingRoundId))]
    else if RoundAt(be, id).None? then
      var calls: Trace := [Query(RoundById(id))];
      CallsThenReply(calls, Notice(FundingRoundNotFound));
      calls + [Send(Notice(FundingRoundNotFound))]
    else
      var shown := Eligible(f, UserProposalsIn(be, id.v), RoundAt(be, id).value, WindowsAt(be, id.v), be.now);
      var list := Select(Tok(OpShowProposalDetails, [(KeyFundingRoundId, NumText(id))]), IdTexts(ProposalIds(shown)));
      ArgsOfOne(ManageSubmittedProposalsID, OpShowProposalDetails, KeyFundingRoundId, NumText(id));
      var calls := [Query(RoundById(id)), Query(UserProposalsForRound(id.v))];
      ParseNumText(id);
      TokensOfOne(Respond, ProposalList, list);
      CallsThenReply(calls, Render(Respond, ProposalList, [[list]]));
      calls + [Send(Render(Respond, ProposalList, [[list]]))]
  }

  /** `handleSelectFundingRound`: the chosen round's proposals, or an error when nothing was chosen from a list. */
  function SelectFundingRoundTrace(ix: Interaction, be: Backend): (t: Trace)
    ensures Handled(t) && NoMutation(t)
    ensures !HasValues(ix) ==> t == [Send(Notice(InvalidInteractionType))]
    ensures HasValues(ix) ==> t == ShowProposalsTrace(ix, be, FirstValue(ix), AsWritten)
  {
    if !HasValues(ix) then
      CallsThenReply(NoCalls, Notice(InvalidInteractionType));
      [Send(Notice(InvalidInteractionType))]
    else ShowProposalsTrace(ix, be, FirstValue(ix), AsWritten)
  }

  /** The round a listing is shown for: a truthy id that names a round. */
  predicate ListsRound(ix: Interaction, be: Backend, given: Num)
  {
    var id := RoundIdFor(ix, given);
    !Falsy(id) && RoundAt(be, id).Some?
  }

  /** The option values of the list a shown round's trace ends with. */
  function ListedIds(t: Trace): seq<string>
  {
    var r := FinalReply(t);
    if r.Some? && r.value.Render? && |r.value.rows| == 1 && |r.value.rows[0]| == 1 && r.value.rows[0][0].Select?
    then r.value.rows[0][0].options else []
  }

  /** As written, the list names every proposal the caller has in the round, cancelled ones included. */
  lemma ShowProposalsListsEveryProposal(ix: Interaction, be: Backend, given: Num)
    requires ListsRound(ix, be, given)
    ensures var id := RoundIdFor(ix, given);
            ListedIds(ShowProposalsTrace(ix, be, given, AsWritten)) == IdTexts(ProposalIds(UserProposalsIn(be, id.v)))
  {
    var id := RoundIdFor(ix, given);
    AsWrittenKeepsEveryProposal(UserProposalsIn(be, id.v), RoundAt(be, id).value, WindowsAt(be, id.v), be.now);
  }

  /** With the intended filter, the list names exactly the caller's proposals that are active in the round. */
  lemma IntendedListsActiveProposals(ix: Interaction, be: Backend, given: Num)
    requires ListsRound(ix, be, given)
    ensures var id := RoundIdFor(ix, given);
            var active := ActiveProposals(UserProposalsIn(be, id.v), RoundAt(be, id).value, WindowsAt(be, id.v), be.now);
            && ListedIds(ShowProposalsTrace(ix, be, given, Intended)) == IdTexts(ProposalIds(active))
            && forall p :: p in active <==> p in UserProposalsIn(be, id.v) && IsProposalActive(p.status, RoundAt(be, id).value, WindowsAt(be, id.v), be.now)
  {
  }

  /** `handleShowProposalDetails`: the chosen proposal with a cancel button, disabled once cancelled. */
  function ShowProposalDetailsTrace(ix: Interaction, be: Backend): (t: Trace)
    ensures Handled(t) && NoMutation(t)
    ensures !HasValues(ix) ==> t == [Send(Notice(InvalidInteractionType))]
    ensures HasValues(ix) ==>
              var pid := FirstValue(ix);
              var rid := ArgNum(ix, KeyFundingRoundId);
              && |t| == 3 && t[..2] == [Query(ProposalById(pid)), Query(RoundById(rid))]
              && (ProposalAt(be, pid).None? || RoundAt(be, rid).None? ==> FinalReply(t) == Some(Notice(ProposalOrRoundNotFound)))
              && (ProposalAt(be, pid).Some? && RoundAt(be, rid).Some? ==>
                    && FinalReply(t).Some? && FinalReply(t).value.Render? && FinalReply(t).value.view == ProposalDetails
                    && FirstControl(FinalReply(t).value).Some? && FirstControl(FinalReply(t).value).value.Button?
                    && (FirstControl(FinalReply(t).value).value.disabled <==> ProposalAt(be, pid).value.status == Cancelled))
    ensures HasValues(ix) ==>
              forall tok :: tok in SentTokens(t) ==>
                && tok.op == OpConfirmCancelProposal
                && ParseInt(OrEmpty(TokenArg(tok, KeyProposalId))) == FirstValue(ix)
                && ParseInt(OrEmpty(TokenArg(tok, KeyFundingRoundId))) == ArgNum(ix, KeyFundingRoundId)
  {
    if !HasValues(ix) then
      CallsThenReply(NoCalls, Notice(InvalidInteractionType));
      [Send(Notice(InvalidInteractionType))]
    else
      var pid := FirstValue(ix);
      var rid := ArgNum(ix, KeyFundingRoundId);
      var lookups := [Query(ProposalById(pid)), Query(RoundById(rid))];
      if ProposalAt(be, pid).None? || RoundAt(be, rid).None? then
        CallsThenReply(lookups, Notice(ProposalOrRoundNotFound));
        lookups + [Send(Notice(ProposalOrRoundNotFound))]
      else
        ParseNumText(pid);
        ParseNumText(rid);
        var cancel := Tok(OpConfirmCancelProposal, [(KeyProposalId, NumText(pid)), (KeyFundingRoundId, NumText(rid))]);
        ArgsOfTwo(ManageSubmittedProposalsID, OpConfirmCancelProposal, KeyProposalId, NumText(pid), KeyFundingRoundId, NumText(rid));
        var reply := Render(Respond, ProposalDetails, [[Button(cancel, ProposalAt(be, pid).value.status == Cancelled)]]);
        TokensOfOne(Respond, ProposalDetails, reply.rows[0][0]);
        CallsThenReply(lookups, reply);
        lookups + [Send(reply)]
  }

  /** Both named ids are present and non-empty. */
  predicate IdsPresent(ix: Interaction)
  {
    Present(Arg(ix, KeyProposalId)) && Present(Arg(ix, KeyFundingRoundId))
  }

  /** `handleConfirmCancelProposal`: the confirmation step, whose buttons carry both ids on unchanged. */
  function ConfirmCancelProposalTrace(ix: Interaction, be: Backend): (t: Trace)
    ensures Handled(t) && NoMutation(t)
    ensures !IdsPresent(ix) ==> t == [Send(Notice(InvalidProposalOrRoundId))]
    ensures IdsPresent(ix) ==>
              var pid := ParseInt(Arg(ix, KeyProposalId).value);
              var rid := ParseInt(Arg(ix, KeyFundingRoundId).value);
              && |t| == 3 && t[..2] == [Query(ProposalById(pid)), Query(RoundById(rid))]
              && (ProposalAt(be, pid).None? || RoundAt(be, rid).None? ==> FinalReply(t) == Some(Notice(ProposalOrRoundNotFound)))
              && (ProposalAt(be, pid).Some? && RoundAt(be, rid).Some? ==>
                    FinalReply(t).Some? && FinalReply(t).value.Render? && FinalReply(t).value.mode == Update)
    ensures forall tok :: tok in SentTokens(t) ==>
              && tok.op in [OpExecuteCancelProposal, OpShowProposalDetails]
              && TokenArg(tok, KeyProposalId) == Arg(ix, KeyProposalId)
              && TokenArg(tok, KeyFundingRoundId) == Arg(ix, KeyFundingRoundId)
    ensures IdsPresent(ix) && ProposalAt(be, ParseInt(Arg(ix, KeyProposalId).value)).Some?
            && RoundAt(be, ParseInt(Arg(ix, KeyFundingRoundId).value)).Some? ==>
              exists tok :: tok in SentTokens(t) && tok.op == OpExecuteCancelProposal
  {
    if !IdsPresent(ix) then
      CallsThenReply(NoCalls, Notice(InvalidProposalOrRoundId));
      [Send(Notice(InvalidProposalOrRoundId))]
    else
      var proposalId := Arg(ix, KeyProposalId).value;
      var roundId := Arg(ix, KeyFundingRoundId).value;
      var pid := ParseInt(proposalId);
      var rid := ParseInt(roundId);
      var lookups := [Query(ProposalById(pid)), Query(RoundById(rid))];
      if ProposalAt(be, pid).None? || RoundAt(be, rid).None? then
        CallsThenReply(lookups, Notice(ProposalOrRoundNotFound));
        lookups + [Send(Notice(ProposalOrRoundNotFound))]
      else
        var args := [(KeyProposalId, proposalId), (KeyFundingRoundId, roundId)];
        ArgsOfTwo(ManageSubmittedProposalsID, OpExecuteCancelProposal, KeyProposalId, proposalId, KeyFundingRoundId, roundId);
        ArgsOfTwo(ManageSubmittedProposalsID, OpShowProposalDetails, KeyProposalId, proposalId, KeyFundingRoundId, roundId);
        var confirm := Button(Tok(OpExecuteCancelProposal, args), false);
        var back := Button(Tok(OpShowProposalDetails, args), false);
        var reply := Render(Update, CancelConfirmation, [[confirm, back]]);
        TokensOfTwo(Update, CancelConfirmation, confirm, back);
        CallsThenReply(lookups, reply);
        lookups + [Send(reply)]
  }

  /** `handleExecuteCancelProposal`: cancels only once both ids are present. */
  function ExecuteCancelProposalTrace(ix: Interaction, be: Backend): (t: Trace)
    ensures Handled(t)
    ensures !IdsPresent(ix) ==> t == [Send(Notice(InvalidProposalOrRoundId))]
    ensures IdsPresent(ix) ==>
              && t[0] == Mutate(CancelProposal(ParseInt(Arg(ix, KeyProposalId).value)))
              && (be.mutationFails ==> FinalReply(t) == Some(Notice(CancelFailed)))
              && (!be.mutationFails ==> FinalReply(t).Some? && FinalReply(t).value.Render? && FinalReply(t).value.mode == Update)
    ensures forall i :: 0 <= i < |t| && t[i].Mutate? ==> IdsPresent(ix) && i == 0
    ensures forall tok :: tok in SentTokens(t) ==>
              tok.op == OpShowProposals && TokenArg(tok, KeyFundingRoundId) == Arg(ix, KeyFundingRoundId)
  {
    if !IdsPresent(ix) then
      CallsThenReply(NoCalls, Notice(InvalidProposalOrRoundId));
      [Send(Notice(InvalidProposalOrRoundId))]
    else
      var cancel := Mutate(CancelProposal(ParseInt(Arg(ix, KeyProposalId).value)));
      if be.mutationFails then
        CallsThenReply([cancel], Notice(CancelFailed));
        [cancel, Send(Notice(CancelFailed))]
      else
        var back := Tok(OpShowProposals, [(KeyFundingRoundId, Arg(ix, KeyFundingRoundId).value)]);
        ArgsOfOne(ManageSubmittedProposalsID, OpShowProposals, KeyFundingRoundId, Arg(ix, KeyFundingRoundId).value);
        var reply := Render(Update, ProposalCancelled, [[Button(back, false)]]);
        TokensOfOne(Update, ProposalCancelled, Button(back, false));
        CallsThenReply([cancel], reply);
        [cancel, Send(reply)]
  }

  /**
   * As written the switch has no `'paginate'` case. The round list of a
   * caller with proposals in more than 25 rounds shows a pagination row,
   * and the operation id its buttons carry gets the invalid-operation reply.
   */
  lemma PaginateRefusedAsWritten(ix: Interaction, be: Backend)
    requires |be.roundsWithUserProposals| > PageSize
    ensures PaginationShown(FinalReply(ShowFundingRoundsTrace(ix, be)).value)
    ensures OperationTrace(ix, be, OpPaginate) == [Send(InvalidOperation(OpPaginate))]
  {
    PaginationRowIffOverflow(|be.roundsWithUserProposals|);
  }

  /**
   * The switch as evidently intended, with the `'paginate'` case
   * `SelectProjectAction` has: a pagination button hands over to the
   * pagination base class, and every other id is routed as written.
   */
  function IntendedOperationTrace(ix: Interaction, be: Backend, op: string): (t: Trace)
    ensures op == OpPaginate <==> t == [Paginate]
    ensures t == [Send(InvalidOperation(op))] <==> op != OpPaginate && Route(op) == HandleInvalidOperation
  {
    if op == OpPaginate then [Paginate] else OperationTrace(ix, be, op)
  }

  /** `handleOperation` */
  function OperationTrace(ix: Interaction, be: Backend, op: string): (t: Trace)
    ensures Route(op) == HandleInvalidOperation <==> t == [Send(InvalidOperation(op))]
    ensures Route(op) != HandleInvalidOperation ==> Handled(t)
    ensures TokensRoute(t)
  {
    match Route(op)
    case HandleShowFundingRounds => ShowFundingRoundsTrace(ix, be)
    case HandleSelectFundingRound => SelectFundingRoundTrace(ix, be)
    case HandleShowProposals => ShowProposalsTrace(ix, be, NaN, AsWritten)
    case HandleShowProposalDetails => ShowProposalDetailsTrace(ix, be)
    case HandleConfirmCancelProposal => ConfirmCancelProposalTrace(ix, be)
    case HandleExecuteCancelProposal => ExecuteCancelProposalTrace(ix, be)
    case HandleInvalidOperation => [Send(InvalidOperation(op))]
  }

  // ---- The handlers, step by step ----

  method ShowFundingRounds(ix: Interaction, be: Backend) returns (trace: Trace)
    ensures trace == ShowFundingRoundsTrace(ix, be)
  {
    var currentPage := ix.page;
    trace := [Query(RoundsWithUserProposals)];
    var totalPages := TotalPages(|be.roundsWithUserProposals|);
    trace := trace + [Query(RoundsWithUserProposals)];
    var fundingRounds := ItemsForPage(be.roundsWithUserProposals, currentPage);
    var selectMenu := Select(Tok(OpSelectFundingRound, []), IdTexts(fundingRounds));
    var components := [[selectMenu]];
    if totalPages > 1 {
      components := components + [[PaginationRow(currentPage, totalPages)]];
    }
    assert components == ListRows(selectMenu, currentPage, totalPages);
    trace := trace + [Send(Render(Respond, FundingRoundList, components))];
  }

  method SelectFundingRound(ix: Interaction, be: Backend) returns (trace: Trace)
    ensures trace == SelectFundingRoundTrace(ix, be)
  {
    if !HasValues(ix) {
      return [Send(Notice(InvalidInteractionType))];
    }
    var fundingRoundId := FirstValue(ix);
    trace := ShowProposals(ix, be, fundingRoundId);
  }

  /** `fundingRoundId` is NaN when the caller passes none; both are falsy. */
  method ShowProposals(ix: Interaction, be: Backend, fundingRoundId: Num) returns (trace: Trace)
    ensures trace == ShowProposalsTrace(ix, be, fundingRoundId, AsWritten)
  {
    var id := fundingRoundId;
    if Falsy(id) {
      id := ArgNum(ix, KeyFundingRoundId);
    }
    if Falsy(id) {
      return [Send(Notice(InvalidFundingRoundId))];
    }
    trace := [Query(RoundById(id))];
    var fundingRound := RoundAt(be, id);
    if fundingRound.None? {
      return trace + [Send(Notice(FundingRoundNotFound))];
    }
    trace := trace + [Query(UserProposalsForRound(id.v))];
    var proposals := UserProposalsIn(be, id.v);
    var eligibleProposals := ActiveProposalsAsWritten(proposals, fundingRound.value, WindowsAt(be, id.v), be.now);
    var selectMenu := Select(Tok(OpShowProposalDetails, [(KeyFundingRoundId, NumText(id))]), IdTexts(ProposalIds(eligibleProposals)));
    trace := trace + [Send(Render(Respond, ProposalList, [[selectMenu]]))];
  }

  method ShowProposalDetails(ix: Interaction, be: Backend) returns (trace: Trace)
    ensures trace == ShowProposalDetailsTrace(ix, be)
  {
    if !HasValues(ix) {
      return [Send(Notice(InvalidInteractionType))];
    }
    var proposalId := FirstValue(ix);
    var fundingRoundId := ArgNum(ix, KeyFundingRoundId);
    trace := [Query(ProposalById(proposalId)), Query(RoundById(fundingRoundId))];
    var proposal := ProposalAt(be, proposalId);
    var fundingRound := RoundAt(be, fundingRoundId);
    if proposal.None? || fundingRound.None? {
      return trace + [Send(Notice(ProposalOrRoundNotFound))];
    }
    var cancelToken := Tok(OpConfirmCancelProposal, [(KeyProposalId, NumText(proposalId)), (KeyFundingRoundId, NumText(fundingRoundId))]);
    var disabled := false;
    if proposal.value.status == Cancelled {
      disabled := true;
    }
    trace := trace + [Send(Render(Respond, ProposalDetails, [[Button(cancelToken, disabled)]]))];
  }

  method ConfirmCancelProposal(ix: Interaction, be: Backend) returns (trace: Trace)
    ensures trace == ConfirmCancelProposalTrace(ix, be)
  {
    var proposalId := Arg(ix, KeyProposalId);
    var fundingRoundId := Arg(ix, KeyFundingRoundId);
    if !Present(proposalId) || !Present(fundingRoundId) {
      return [Send(Notice(InvalidProposalOrRoundId))];
    }
    var pid := ParseInt(proposalId.value);
    var rid := ParseInt(fundingRoundId.value);
    trace := [Query(ProposalById(pid)), Query(RoundById(rid))];
    if ProposalAt(be, pid).None? || RoundAt(be, rid).None? {
      return trace + [Send(Notice(ProposalOrRoundNotFound))];
    }
    var args := [(KeyProposalId, proposalId.value), (KeyFundingRoundId, fundingRoundId.value)];
    var confirmButton := Button(Tok(OpExecuteCancelProposal, args), false);
    var cancelButton := Button(Tok(OpShowProposalDetails, args), false);
    trace := trace + [Send(Render(Update, CancelConfirmation, [[confirmButton, cancelButton]]))];
  }

  method ExecuteCancelProposal(ix: Interaction, be: Backend) returns (trace: Trace)
    ensures trace == ExecuteCancelProposalTrace(ix, be)
  {
    var proposalId := Arg(ix, KeyProposalId);
    var fundingRoundId := Arg(ix, KeyFundingRoundId);
    if !Present(proposalId) || !Present(fundingRoundId) {
      return [Send(Notice(InvalidProposalOrRoundId))];
    }
    trace := [Mutate(CancelProposal(ParseInt(proposalId.value)))];
    if be.mutationFails {
      return trace + [Send(Notice(CancelFailed))];
    }
    var backButton := Button(Tok(OpShowProposals, [(KeyFundingRoundId, fundingRoundId.value)]), false);
    trace := trace + [Send(Render(Update, ProposalCancelled, [[backButton]]))];
  }

  method HandleOperation(ix: Interaction, be: Backend, operationId: string) returns (trace: Trace)
    ensures trace == OperationTrace(ix, be, operationId)
  {
    match Route(operationId)
    case HandleShowFundingRounds => trace := ShowFundingRounds(ix, be);
    case HandleSelectFundingRound => trace := SelectFundingRound(ix, be);
    case HandleShowProposals => trace := ShowProposals(ix, be, NaN);
    case HandleShowProposalDetails => trace := ShowProposalDetails(ix, be);
    case HandleConfirmCancelProposal => trace := ConfirmCancelProposal(ix, be);
    case HandleExecuteCancelProposal => trace := ExecuteCancelProposal(ix, be);
    case HandleInvalidOperation => trace := [Send(InvalidOperation(operationId))];
  }
}
