/**
 * ManageDraftsAction: the caller pages through their drafts, opens one, and
 * edits it through a modal, deletes it after a confirmation step, or starts
 * submitting it to a funding round.
 */
module ManageDraftsAction {
  import opened Wrappers
  import opened JsValues
  import opened Routing
  import opened Dispatch
  import opened Pagination
  import opened ProposalHome

  /** The cases of `handleOperation`. */
  datatype Handler =
    | HandleShowDrafts
    | HandleSelectDraft
    | HandleEditDraft
    | HandleSubmitEdit
    | HandleDeleteDraft
    | HandleConfirmDelete
    | HandleSubmitToFundingRound
    | HandleInvalidOperation

  /** The operation id each case of the switch matches. */
  function OpId(h: Handler): string
    requires h != HandleInvalidOperation
  {
    match h
    case HandleShowDrafts => OpShowDrafts
    case HandleSelectDraft => OpSelectDraft
    case HandleEditDraft => OpEditDraft
    case HandleSubmitEdit => OpSubmitEdit
    case HandleDeleteDraft => OpDeleteDraft
    case HandleConfirmDelete => OpConfirmDelete
    case HandleSubmitToFundingRound => OpSubmitToFundingRound
  }

  /** The switch: each listed id reaches the one case it names, any other id the invalid-operation handler. */
  function Route(op: string): (h: Handler)
    ensures h == HandleInvalidOperation <==> op !in Operations(ManageDraftsID)
    ensures h != HandleInvalidOperation ==> OpId(h) == op
  {
    if op == OpShowDrafts then HandleShowDrafts
    else if op == OpSelectDraft then HandleSelectDraft
    else if op == OpEditDraft then HandleEditDraft
    else if op == OpSubmitEdit then HandleSubmitEdit
    else if op == OpDeleteDraft then HandleDeleteDraft
    else if op == OpConfirmDelete then HandleConfirmDelete
    else if op == OpSubmitToFundingRound then HandleSubmitToFundingRound
    else HandleInvalidOperation
  }

  lemma RouteInvertsOpId(h: Handler)
    requires h != HandleInvalidOperation
    ensures Route(OpId(h)) == h
  {
  }

  function Tok(op: string, args: seq<(string, string)>): Token
  {
    Token(ManageDraftsID, op, args)
  }

  /** `getComponent`: the home-screen button opens the list of drafts. */
  function Component(): (t: Token)
    ensures Routes(t) && Route(t.op) == HandleShowDrafts
  {
    Tok(OpShowDrafts, [])
  }

  /** The `udt` rule of `handleShowDrafts`: update the originating message iff `udt` is `'1'`. */
  function ShowDraftsMode(ix: Interaction): (m: Mode)
    ensures m == Update <==> Arg(ix, KeyUdt) == Some("1")
  {
    if Arg(ix, KeyUdt) == Some("1") then Update else Respond
  }

  /** `handleShowDrafts`: one page of the caller's drafts, or a notice when the page is empty. */
  function ShowDraftsTrace(ix: Interaction, be: Backend): (t: Trace)
    ensures Handled(t) && NoMutation(t)
    ensures FinalReply(t).Some?
    ensures FinalReply(t) == Some(Notice(NoDraftProposals)) <==> ix.page >= TotalPages(|be.drafts|)
    ensures var r := FinalReply(t).value;
            r.Render? ==>
              && r.view == DraftList
              && (r.mode == Update <==> Arg(ix, KeyUdt) == Some("1"))
              && (PaginationShown(r) <==> TotalPages(|be.drafts|) > 1)
              && |r.rows| > 0 && r.rows[0] == [Select(Tok(OpSelectDraft, []), IdTexts(ProposalIds(ItemsForPage(be.drafts, ix.page))))]
  {
    DraftPageTrace(ix, ItemsForPage(be.drafts, ix.page), TotalPages(|be.drafts|))
  }

  /**
   * After the page count and the page are read: the notice for an empty
   * page, otherwise the list of the page's drafts, with the pagination row
   * exactly when there is more than one page.
   */
  function DraftPageTrace(ix: Interaction, drafts: seq<Proposal>, total: nat): (t: Trace)
    ensures Handled(t) && NoMutation(t)
    ensures FinalReply(t).Some?
    ensures FinalReply(t) == Some(Notice(NoDraftProposals)) <==> drafts == []
    ensures var r := FinalReply(t).value;
            r.Render? ==>
              && r.view == DraftList
              && (r.mode == Update <==> Arg(ix, KeyUdt) == Some("1"))
              && (PaginationShown(r) <==> total > 1)
              && |r.rows| > 0 && r.rows[0] == [Select(Tok(OpSelectDraft, []), IdTexts(ProposalIds(drafts)))]
  {
    var calls: Trace := [Query(UserDrafts), Query(UserDrafts)];
    if drafts == [] then
      CallsThenReply(calls, Notice(NoDraftProposals));
      calls + [Send(Notice(NoDraftProposals))]
    else
      var list := Select(Tok(OpSelectDraft, []), IdTexts(ProposalIds(drafts)));
      var reply := Render(ShowDraftsMode(ix), DraftList, ListRows(list, ix.page, total));
      TokensOfList(ShowDraftsMode(ix), DraftList, list, ix.page, total);
      ListRowsPagination(ShowDraftsMode(ix), DraftList, list, ix.page, total);
      CallsThenReply(calls, reply);
      calls + [Send(reply)]
  }

  /** The draft `handleSelectDraft` opens: the chosen list value, else the token's `proposalId`. */
  function DraftIdFor(ix: Interaction): Num
  {
    if HasValues(ix) then FirstValue(ix) else ParseInt(OrEmpty(Arg(ix, KeyProposalId)))
  }

  /** The `udt` rule of `handleSelectDraft`: a `udt` of `'1'` forces an update, any other value leaves `asUpdate` as it was. */
  function SelectDraftMode(ix: Interaction, asUpdate: bool): (m: Mode)
    ensures m == Update <==> asUpdate || Arg(ix, KeyUdt) == Some("1")
    ensures asUpdate ==> m == Update
  {
    var doUpdate := if Present(Arg(ix, KeyUdt)) && Arg(ix, KeyUdt).value == "1" then true else asUpdate;
    if doUpdate then Update else Respond
  }

  /**
   * `handleSelectDraft`: the draft with edit, delete and submit buttons,
   * each carrying its id; `updatedName` is the draft whose update the
   * success embed confirms.
   */
  function SelectDraftTrace(ix: Interaction, be: Backend, asUpdate: bool, updatedName: Option<string>): (t: Trace)
    ensures Handled(t) && NoMutation(t)
    ensures !HasValues(ix) && !Present(Arg(ix, KeyProposalId)) ==> t == [Send(Notice(NoProposalIdPassed))]
  {
    if !HasValues(ix) && !Present(Arg(ix, KeyProposalId)) then
      CallsThenReply(NoCalls, Notice(NoProposalIdPassed));
      [Send(Notice(NoProposalIdPassed))]
    else
      var pid := DraftIdFor(ix);
      var calls := [Query(ProposalById(pid))];
      if ProposalAt(be, pid).None? then
        CallsThenReply(calls, Notice(ProposalNotFound));
        calls + [Send(Notice(ProposalNotFound))]
      else
        var args := [(KeyProposalId, NumText(pid))];
        var edit := Button(Tok(OpEditDraft, args), false);
        var delete := Button(Tok(OpDeleteDraft, args), false);
        var submit := Button(Tok(OpSubmitToFundingRound, args), false);
        var reply := Render(SelectDraftMode(ix, asUpdate), DraftDetails(updatedName), [[edit, delete, submit]]);
        ArgsOfOne(ManageDraftsID, OpEditDraft, KeyProposalId, NumText(pid));
        ArgsOfOne(ManageDraftsID, OpDeleteDraft, KeyProposalId, NumText(pid));
        ArgsOfOne(ManageDraftsID, OpSubmitToFundingRound, KeyProposalId, NumText(pid));
        ForwardsParsed({edit.token, delete.token, submit.token}, KeyProposalId, pid);
        TokensOfThree(reply.mode, reply.view, edit, delete, submit);
        CallsThenReply(calls, reply);
        calls + [Send(reply)]
  }

  /** What `handleSelectDraft` answers once it has an id: not found, or the draft view in the mode the `udt` rule picks. */
  lemma SelectDraftOutcome(ix: Interaction, be: Backend, asUpdate: bool, updatedName: Option<string>)
    requires HasValues(ix) || Present(Arg(ix, KeyProposalId))
    ensures var t := SelectDraftTrace(ix, be, asUpdate, updatedName);
            && |t| == 2 && t[0] == Query(ProposalById(DraftIdFor(ix)))
            && (ProposalAt(be, DraftIdFor(ix)).None? ==> t[1] == Send(Notice(ProposalNotFound)))
            && (ProposalAt(be, DraftIdFor(ix)).Some? ==>
                  && t[1].Send? && t[1].reply.Render?
                  && t[1].reply.view == DraftDetails(updatedName)
                  && (t[1].reply.mode == Update <==> asUpdate || Arg(ix, KeyUdt) == Some("1")))
  {
  }

  /** Every button of the draft view carries the id of the draft it shows. */
  lemma SelectDraftForwardsId(ix: Interaction, be: Backend, asUpdate: bool, updatedName: Option<string>)
    ensures forall tok :: tok in SentTokens(SelectDraftTrace(ix, be, asUpdate, updatedName)) ==>
              ParseInt(OrEmpty(TokenArg(tok, KeyProposalId))) == DraftIdFor(ix)
  {
    var pid := DraftIdFor(ix);
    if (HasValues(ix) || Present(Arg(ix, KeyProposalId))) && ProposalAt(be, pid).Some? {
      var args := [(KeyProposalId, NumText(pid))];
      var edit := Button(Tok(OpEditDraft, args), false);
      var delete := Button(Tok(OpDeleteDraft, args), false);
      var submit := Button(Tok(OpSubmitToFundingRound, args), false);
      ArgsOfOne(ManageDraftsID, OpEditDraft, KeyProposalId, NumText(pid));
      ArgsOfOne(ManageDraftsID, OpDeleteDraft, KeyProposalId, NumText(pid));
      ArgsOfOne(ManageDraftsID, OpSubmitToFundingRound, KeyProposalId, NumText(pid));
      ForwardsParsed({edit.token, delete.token, submit.token}, KeyProposalId, pid);
    }
  }

  /** `handleEditDraft`: the edit modal, which carries the draft's id on unchanged. */
  function EditDraftTrace(ix: Interaction, be: Backend): (t: Trace)
    ensures Handled(t) && NoMutation(t)
    ensures !Present(Arg(ix, KeyProposalId)) ==> t == [Send(Notice(InvalidProposalId))]
    ensures Present(Arg(ix, KeyProposalId)) ==>
              var pid := ParseInt(Arg(ix, KeyProposalId).value);
              && t[0] == Query(ProposalById(pid))
              && (ProposalAt(be, pid).None? ==> FinalReply(t) == Some(Notice(ProposalNotFound)))
              && (ProposalAt(be, pid).Some? && !CanShowModal(ix) ==> FinalReply(t) == Some(Notice(ModalsNotSupported)))
              && (ProposalAt(be, pid).Some? && CanShowModal(ix) ==> FinalReply(t).Some? && FinalReply(t).value.Modal?)
    ensures forall tok :: tok in SentTokens(t) ==>
              tok.op == OpSubmitEdit && TokenArg(tok, KeyProposalId) == Arg(ix, KeyProposalId)
  {
    if !Present(Arg(ix, KeyProposalId)) then
      CallsThenReply(NoCalls, Notice(InvalidProposalId));
      [Send(Notice(InvalidProposalId))]
    else
      var proposalId := Arg(ix, KeyProposalId).value;
      var calls := [Query(ProposalById(ParseInt(proposalId)))];
      if ProposalAt(be, ParseInt(proposalId)).None? then
        CallsThenReply(calls, Notice(ProposalNotFound));
        calls + [Send(Notice(ProposalNotFound))]
      else if !CanShowModal(ix) then
        CallsThenReply(calls, Notice(ModalsNotSupported));
        calls + [Send(Notice(ModalsNotSupported))]
      else
        var modal := Tok(OpSubmitEdit, [(KeyProposalId, proposalId)]);
        ArgsOfOne(ManageDraftsID, OpSubmitEdit, KeyProposalId, proposalId);
        CallsThenReply(calls, Modal(modal));
        calls + [Send(Modal(modal))]
  }

  /** A submitted modal whose token names a draft and whose three inputs are all there. */
  predicate FormComplete(ix: Interaction)
  {
    && IsModalSubmit(ix)
    && Present(Arg(ix, KeyProposalId))
    && InputName in ix.fields && InputBudget in ix.fields && InputUri in ix.fields
  }

  /** The edit form passed every check `handleSubmitEdit` makes before updating. */
  predicate EditAccepted(ix: Interaction)
  {
    FormComplete(ix) && ix.budgetParses && UriAccepted(ix.fields[InputUri])
  }

  /**
   * `handleSubmitEdit`: the update happens only for an accepted form, with
   * the URI exactly as typed (the edit path does not normalise it), and is
   * followed by the draft view as an update.
   */
  function SubmitEditTrace(ix: Interaction, be: Backend): (t: Trace)
    ensures Handled(t)
    ensures !IsModalSubmit(ix) ==> t == [Send(Notice(InvalidInteractionType))]
    ensures IsModalSubmit(ix) && !Present(Arg(ix, KeyProposalId)) ==> t == [Send(Notice(InvalidProposalId))]
    ensures FormComplete(ix) && !ix.budgetParses ==> t == [Send(Notice(InvalidBudget))]
    ensures FormComplete(ix) && ix.budgetParses && !UriAccepted(ix.fields[InputUri]) ==> t == [Send(Notice(InvalidUri))]
    ensures forall i :: 0 <= i < |t| && t[i].Mutate? ==>
              && EditAccepted(ix) && i == 0
              && t[i].mutation == UpdateProposal(ParseInt(Arg(ix, KeyProposalId).value), ix.fields[InputName], ix.fields[InputUri])
  {
    if !IsModalSubmit(ix) then
      CallsThenReply(NoCalls, Notice(InvalidInteractionType));
      [Send(Notice(InvalidInteractionType))]
    else if !Present(Arg(ix, KeyProposalId)) then
      CallsThenReply(NoCalls, Notice(InvalidProposalId));
      [Send(Notice(InvalidProposalId))]
    else if InputName !in ix.fields then
      CallsThenRaise(NoCalls, MissingField(InputName));
      [Raise(MissingField(InputName))]
    else if InputBudget !in ix.fields then
      CallsThenRaise(NoCalls, MissingField(InputBudget));
      [Raise(MissingField(InputBudget))]
    else if InputUri !in ix.fields then
      CallsThenRaise(NoCalls, MissingField(InputUri));
      [Raise(MissingField(InputUri))]
    else if !ix.budgetParses then
      CallsThenReply(NoCalls, Notice(InvalidBudget));
      [Send(Notice(InvalidBudget))]
    else if !UriAccepted(ix.fields[InputUri]) then
      CallsThenReply(NoCalls, Notice(InvalidUri));
      [Send(Notice(InvalidUri))]
    else
      var name := ix.fields[InputName];
      var update := Mutate(UpdateProposal(ParseInt(Arg(ix, KeyProposalId).value), name, ix.fields[InputUri]));
      if be.mutationFails then
        CallsThenReply([update], Notice(UpdateFailed));
        [update, Send(Notice(UpdateFailed))]
      else
        var rest := SelectDraftTrace(ix, be, true, Some(name));
        CallsThenHandled([update], rest);
        assert forall i :: 1 <= i < |[update] + rest| ==> ([update] + rest)[i] == rest[i - 1];
        [update] + rest
  }

  /**
   * An accepted edit: after the update, a failure gives the error notice,
   * and success reopens the draft, with its new name, as an update.
   */
  lemma SubmitEditOutcome(ix: Interaction, be: Backend)
    requires EditAccepted(ix)
    ensures var t := SubmitEditTrace(ix, be);
            && |t| > 1 && t[0].Mutate?
            && (!be.mutationFails ==> t[1..] == SelectDraftTrace(ix, be, true, Some(ix.fields[InputName])))
            && (be.mutationFails ==> FinalReply(t) == Some(Notice(UpdateFailed)))
  {
    var t := SubmitEditTrace(ix, be);
    if !be.mutationFails {
      var rest := SelectDraftTrace(ix, be, true, Some(ix.fields[InputName]));
      assert t == [t[0]] + rest;
    }
  }

  /** `handleDeleteDraft`: the confirmation step; Cancel reopens the draft as an update. */
  function DeleteDraftTrace(ix: Interaction, be: Backend): (t: Trace)
    ensures Handled(t) && NoMutation(t)
    ensures !Present(Arg(ix, KeyProposalId)) ==> t == [Send(Notice(InvalidProposalId))]
    ensures forall tok :: tok in SentTokens(t) ==>
              && tok.op in [OpConfirmDelete, OpSelectDraft]
              && TokenArg(tok, KeyProposalId) == Arg(ix, KeyProposalId)
              && (tok.op == OpSelectDraft ==> TokenArg(tok, KeyUdt) == Some("1"))
  {
    if !Present(Arg(ix, KeyProposalId)) then
      CallsThenReply(NoCalls, Notice(InvalidProposalId));
      [Send(Notice(InvalidProposalId))]
    else
      var proposalId := Arg(ix, KeyProposalId).value;
      var calls := [Query(ProposalById(ParseInt(proposalId)))];
      if ProposalAt(be, ParseInt(proposalId)).None? then
        CallsThenReply(calls, Notice(ProposalNotFound));
        calls + [Send(Notice(ProposalNotFound))]
      else
        var confirm := Button(Tok(OpConfirmDelete, [(KeyProposalId, proposalId)]), false);
        var cancel := Button(Tok(OpSelectDraft, [(KeyProposalId, proposalId), (KeyUdt, "1")]), false);
        var reply := Render(Update, DeleteConfirmation, [[confirm, cancel]]);
        ArgsOfOne(ManageDraftsID, OpConfirmDelete, KeyProposalId, proposalId);
        ArgsOfTwo(ManageDraftsID, OpSelectDraft, KeyProposalId, proposalId, KeyUdt, "1");
        TokensOfTwo(Update, DeleteConfirmation, confirm, cancel);
        CallsThenReply(calls, reply);
        calls + [Send(reply)]
  }

  /**
   * With a draft id: the draft is looked up first; a missing draft gives
   * not found, and otherwise the confirmation replaces the message and
   * offers the Cancel button back to the draft.
   */
  lemma DeleteDraftOutcome(ix: Interaction, be: Backend)
    requires Present(Arg(ix, KeyProposalId))
    ensures var t := DeleteDraftTrace(ix, be);
            var pid := ParseInt(Arg(ix, KeyProposalId).value);
            && t[0] == Query(ProposalById(pid))
            && (ProposalAt(be, pid).None? ==> FinalReply(t) == Some(Notice(ProposalNotFound)))
            && (ProposalAt(be, pid).Some? ==>
                  && FinalReply(t).Some? && FinalReply(t).value.Render? && FinalReply(t).value.mode == Update
                  && Tok(OpSelectDraft, [(KeyProposalId, Arg(ix, KeyProposalId).value), (KeyUdt, "1")]) in SentTokens(t))
  {
    var proposalId := Arg(ix, KeyProposalId).value;
    if ProposalAt(be, ParseInt(proposalId)).Some? {
      var calls: Trace := [Query(ProposalById(ParseInt(proposalId)))];
      var confirm := Button(Tok(OpConfirmDelete, [(KeyProposalId, proposalId)]), false);
      var cancel := Button(Tok(OpSelectDraft, [(KeyProposalId, proposalId), (KeyUdt, "1")]), false);
      TokensOfTwo(Update, DeleteConfirmation, confirm, cancel);
      SentTokensOfReply(calls, Render(Update, DeleteConfirmation, [[confirm, cancel]]));
    }
  }

  /** A mutation, a notice, then a handled trace without mutations: the tokens are the rest's, the mutation comes first. */
  lemma NoticeThenHandled(m: Event<Query, Mutation>, n: Notice, rest: Trace)
    requires m.Mutate?
    requires Handled(rest) && NoMutation(rest)
    ensures var t := [m, Send(Notice(n))] + rest;
            && SentTokens(t) == SentTokens(rest) && TokensRoute(t) && NoInvalidOperation(t)
            && |t| > 2 && t[2..] == rest
            && (forall i :: 0 <= i < |t| && t[i].Mutate? ==> i == 0)
  {
    var t := [m, Send(Notice(n))] + rest;
    assert forall i :: 2 <= i < |t| ==> t[i] == rest[i - 2];
    assert t[2..] == rest;
    forall tok | tok in SentTokens(t)
      ensures tok in SentTokens(rest)
    {
      var i :| 0 <= i < |t| && t[i].Send? && tok in ReplyTokens(t[i].reply);
      assert i >= 2;
    }
    forall tok | tok in SentTokens(rest)
      ensures tok in SentTokens(t)
    {
      var i :| 0 <= i < |rest| && rest[i].Send? && tok in ReplyTokens(rest[i].reply);
      assert t[i + 2] == rest[i];
    }
  }

  /**
   * The collaborators once `deleteProposal(id)` has succeeded: the proposal
   * with that id is gone from the caller's drafts and from the lookup by
   * id, and nothing else changes; NaN deletes nothing.
   */
  function AfterDelete(be: Backend, id: Num): (after: Backend)
    ensures forall p :: p in after.drafts <==> p in be.drafts && !(id.N? && p.id == id.v)
    ensures ProposalAt(after, id).None?
    ensures forall k :: k in after.proposals <==> k in be.proposals && !(id.N? && k == id.v)
    ensures forall k :: k in after.proposals ==> after.proposals[k] == be.proposals[k]
    ensures after.rounds == be.rounds && after.userProposals == be.userProposals && after.mutationFails == be.mutationFails
  {
    be.(drafts := Filter(be.drafts, (p: Proposal) => Bool(!(id.N? && p.id == id.v))),
        proposals := if id.N? then be.proposals - {id.v} else be.proposals)
  }

  /**
   * `handleConfirmDelete`: deletes only once the id is present; on success
   * it sends the deletion notice and then the drafts list as a second reply.
   */
  function ConfirmDeleteTrace(ix: Interaction, be: Backend): (t: Trace)
    ensures TokensRoute(t) && NoInvalidOperation(t) && |t| > 0
    ensures !Present(Arg(ix, KeyProposalId)) ==> t == [Send(Notice(InvalidProposalId))]
    ensures Present(Arg(ix, KeyProposalId)) ==>
              && t[0] == Mutate(DeleteProposal(ParseInt(Arg(ix, KeyProposalId).value)))
              && (be.mutationFails ==> t == [t[0], Send(Notice(DeleteFailed))])
              && (!be.mutationFails ==>
                    && |t| > 2 && t[1] == Send(Notice(ProposalDeleted))
                    && t[2..] == ShowDraftsTrace(ix, AfterDelete(be, ParseInt(Arg(ix, KeyProposalId).value))))
    ensures forall i :: 0 <= i < |t| && t[i].Mutate? ==> i == 0
  {
    if !Present(Arg(ix, KeyProposalId)) then
      CallsThenReply(NoCalls, Notice(InvalidProposalId));
      [Send(Notice(InvalidProposalId))]
    else
      var delete := Mutate(DeleteProposal(ParseInt(Arg(ix, KeyProposalId).value)));
      if be.mutationFails then
        CallsThenReply([delete], Notice(DeleteFailed));
        [delete, Send(Notice(DeleteFailed))]
      else
        var rest := ShowDraftsTrace(ix, AfterDelete(be, ParseInt(Arg(ix, KeyProposalId).value)));
        NoticeThenHandled(delete, ProposalDeleted, rest);
        [delete, Send(Notice(ProposalDeleted))] + rest
  }

  /** The drafts list sent after a deletion no longer names the deleted draft. */
  lemma DeletedDraftNotListed(ix: Interaction, be: Backend)
    requires Present(Arg(ix, KeyProposalId)) && !be.mutationFails
    ensures var pid := ParseInt(Arg(ix, KeyProposalId).value);
            var t := ConfirmDeleteTrace(ix, be);
            && t[2..] == ShowDraftsTrace(ix, AfterDelete(be, pid))
            && (pid.N? ==> pid.v !in ProposalIds(ItemsForPage(AfterDelete(be, pid).drafts, ix.page)))
  {
    var pid := ParseInt(Arg(ix, KeyProposalId).value);
    var shown := ItemsForPage(AfterDelete(be, pid).drafts, ix.page);
    forall i | 0 <= i < |shown|
      ensures shown[i] in AfterDelete(be, pid).drafts
    {
    }
  }

  /** `handleSubmitToFundingRound`: the eligible rounds, in a list that carries the draft's id on unchanged. */
  function SubmitToFundingRoundTrace(ix: Interaction, be: Backend): (t: Trace)
    ensures Handled(t) && NoMutation(t)
    ensures !Present(Arg(ix, KeyProposalId)) ==> t == [Send(Notice(InvalidProposalId))]
    ensures forall tok :: tok in SentTokens(t) ==>
              && tok.action == SubmitProposalToFundingRoundID && tok.op == OpConfirmSubmission
              && TokenArg(tok, KeyProposalId) == Arg(ix, KeyProposalId)
  {
    if !Present(Arg(ix, KeyProposalId)) then
      CallsThenReply(NoCalls, Notice(InvalidProposalId));
      [Send(Notice(InvalidProposalId))]
    else
      var proposalId := Arg(ix, KeyProposalId).value;
      var calls := [Query(EligibleRoundsFor(ParseInt(proposalId)))];
      if ProposalAt(be, ParseInt(proposalId)).None? then
        CallsThenRaise(calls, ProposalNotFoundThrown);
        calls + [Raise(ProposalNotFoundThrown)]
      else if be.eligibleRounds == [] then
        CallsThenReply(calls, Notice(NoEligibleRounds));
        calls + [Send(Notice(NoEligibleRounds))]
      else
        var next := Token(SubmitProposalToFundingRoundID, OpConfirmSubmission, [(KeyProposalId, proposalId)]);
        var list := Select(next, IdTexts(be.eligibleRounds));
        ArgsOfOne(SubmitProposalToFundingRoundID, OpConfirmSubmission, KeyProposalId, proposalId);
        TokensOfOne(Respond, EligibleRoundList, list);
        CallsThenReply(calls, Render(Respond, EligibleRoundList, [[list]]));
        calls + [Send(Render(Respond, EligibleRoundList, [[list]]))]
  }

  /**
   * With a draft id: the eligible rounds are looked up first; a missing
   * draft throws, no eligible round gives a notice, and otherwise the
   * rounds are listed, the list carrying the draft's id on.
   */
  lemma SubmitToFundingRoundOutcome(ix: Interaction, be: Backend)
    requires Present(Arg(ix, KeyProposalId))
    ensures var t := SubmitToFundingRoundTrace(ix, be);
            var pid := ParseInt(Arg(ix, KeyProposalId).value);
            && t[0] == Query(EligibleRoundsFor(pid))
            && (ProposalAt(be, pid).None? ==> t == [t[0], Raise(ProposalNotFoundThrown)])
            && (ProposalAt(be, pid).Some? && be.eligibleRounds == [] ==> FinalReply(t) == Some(Notice(NoEligibleRounds)))
            && (ProposalAt(be, pid).Some? && be.eligibleRounds != [] ==>
                  FinalReply(t) == Some(Render(Respond, EligibleRoundList, [[Select(
                    Token(SubmitProposalToFundingRoundID, OpConfirmSubmission, [(KeyProposalId, Arg(ix, KeyProposalId).value)]),
                    IdTexts(be.eligibleRounds))]])))
  {
  }

  /**
   * As written the switch has no `'paginate'` case. The first page of a
   * caller with more than 25 drafts shows a pagination row, and the
   * operation id its buttons carry gets the invalid-operation reply.
   */
  lemma PaginateRefusedAsWritten(ix: Interaction, be: Backend)
    requires |be.drafts| > PageSize && ix.page == 0
    ensures PaginationShown(FinalReply(ShowDraftsTrace(ix, be)).value)
    ensures OperationTrace(ix, be, OpPaginate) == [Send(InvalidOperation(OpPaginate))]
  {
    PaginationRowIffOverflow(|be.drafts|);
  }

  /**
   * The switch as evidently intended, with the `'paginate'` case
   * `SelectProjectAction` has: a pagination button hands over to the
   * pagination base class, and every other id is routed as written.
   */
  function IntendedOperationTrace(ix: Interaction, be: Backend, op: string): (t: Trace)
    ensures op == OpPaginate <==> t == [Paginate]
    ensures t == [Send(InvalidOperation(op))] <==> op != OpPaginate && Route(op) == HandleInvalidOperation
  {
    if op == OpPaginate then [Paginate] else OperationTrace(ix, be, op)
  }

  /** `handleOperation`; a deletion answers twice, every other case once. */
  function OperationTrace(ix: Interaction, be: Backend, op: string): (t: Trace)
    ensures Route(op) == HandleInvalidOperation <==> t == [Send(InvalidOperation(op))]
    ensures Route(op) != HandleInvalidOperation && Route(op) != HandleConfirmDelete ==> Handled(t)
    ensures TokensRoute(t)
  {
    match Route(op)
    case HandleShowDrafts => ShowDraftsTrace(ix, be)
    case HandleSelectDraft => SelectDraftTrace(ix, be, false, None)
    case HandleEditDraft => EditDraftTrace(ix, be)
    case HandleSubmitEdit => SubmitEditTrace(ix, be)
    case HandleDeleteDraft => DeleteDraftTrace(ix, be)
    case HandleConfirmDelete => ConfirmDeleteTrace(ix, be)
    case HandleSubmitToFundingRound => SubmitToFundingRoundTrace(ix, be)
    case HandleInvalidOperation => [Send(InvalidOperation(op))]
  }

  method ShowDrafts(ix: Interaction, be: Backend) returns (trace: Trace)
    ensures trace == ShowDraftsTrace(ix, be)
  {
    var currentPage := ix.page;
    var totalPages := TotalPages(|be.drafts|);
    var drafts := ItemsForPage(be.drafts, currentPage);
    trace := ShowDraftPage(ix, drafts, totalPages);
  }

  /** The part of `handleShowDrafts` after `getTotalPages` and `getItemsForPage`. */
  method ShowDraftPage(ix: Interaction, drafts: seq<Proposal>, totalPages: nat) returns (trace: Trace)
    ensures trace == DraftPageTrace(ix, drafts, totalPages)
  {
    var currentPage := ix.page;
    trace := [Query(UserDrafts), Query(UserDrafts)];
    if |drafts| == 0 {
      return trace + [Send(Notice(NoDraftProposals))];
    }
    var selectMenu := Select(Tok(OpSelectDraft, []), IdTexts(ProposalIds(drafts)));
    var components := [[selectMenu]];
    if totalPages > 1 {
      components := components + [[PaginationRow(currentPage, totalPages)]];
    }
    assert components == ListRows(selectMenu, currentPage, totalPages);
    var asUpdate := Arg(ix, KeyUdt) == Some("1");
    if asUpdate {
      trace := trace + [Send(Render(Update, DraftList, components))];
    } else {
      trace := trace + [Send(Render(Respond, DraftList, components))];
    }
  }

  method SelectDraft(ix: Interaction, be: Backend, asUpdate: bool, updatedName: Option<string>) returns (trace: Trace)
    ensures trace == SelectDraftTrace(ix, be, asUpdate, updatedName)
  {
    var proposalId: Num;
    if HasValues(ix) {
      proposalId := FirstValue(ix);
    } else {
      var proposalIdFromCustomId := Arg(ix, KeyProposalId);
      if !Present(proposalIdFromCustomId) {
        return [Send(Notice(NoProposalIdPassed))];
      }
      proposalId := ParseInt(proposalIdFromCustomId.value);
    }
    trace := [Query(ProposalById(proposalId))];
    var proposal := ProposalAt(be, proposalId);
    if proposal.None? {
      return trace + [Send(Notice(ProposalNotFound))];
    }
    var args := [(KeyProposalId, NumText(proposalId))];
    var editButton := Button(Tok(OpEditDraft, args), false);
    var deleteButton := Button(Tok(OpDeleteDraft, args), false);
    var submitButton := Button(Tok(OpSubmitToFundingRound, args), false);
    var asUpdateFromCustomId := Arg(ix, KeyUdt);
    var doUpdate := asUpdate;
    if Present(asUpdateFromCustomId) {
      if asUpdateFromCustomId.value == "1" {
        doUpdate := true;
      }
    }
    var rows := [[editButton, deleteButton, submitButton]];
    if doUpdate {
      trace := trace + [Send(Render(Update, DraftDetails(updatedName), rows))];
    } else {
      trace := trace + [Send(Render(Respond, DraftDetails(updatedName), rows))];
    }
  }

  method EditDraft(ix: Interaction, be: Backend) returns (trace: Trace)
    ensures trace == EditDraftTrace(ix, be)
  {
    var proposalId := Arg(ix, KeyProposalId);
    if !Present(proposalId) {
      return [Send(Notice(InvalidProposalId))];
    }
    trace := [Query(ProposalById(ParseInt(proposalId.value)))];
    if ProposalAt(be, ParseInt(proposalId.value)).None? {
      return trace + [Send(Notice(ProposalNotFound))];
    }
    if !CanShowModal(ix) {
      return trace + [Send(Notice(ModalsNotSupported))];
    }
    var modal := Tok(OpSubmitEdit, [(KeyProposalId, proposalId.value)]);
    trace := trace + [Send(Modal(modal))];
  }

  method SubmitEdit(ix: Interaction, be: Backend) returns (trace: Trace)
    ensures trace == SubmitEditTrace(ix, be)
  {
    if !IsModalSubmit(ix) {
      return [Send(Notice(InvalidInteractionType))];
    }
    var proposalId := Arg(ix, KeyProposalId);
    if !Present(proposalId) {
      return [Send(Notice(InvalidProposalId))];
    }
    if InputName !in ix.fields {
      return [Raise(MissingField(InputName))];
    }
    var name := ix.fields[InputName];
    if InputBudget !in ix.fields {
      return [Raise(MissingField(InputBudget))];
    }
    if InputUri !in ix.fields {
      return [Raise(MissingField(InputUri))];
    }
    var uri := ix.fields[InputUri];
    if !ix.budgetParses {
      return [Send(Notice(InvalidBudget))];
    }
    if !UriAccepted(uri) {
      return [Send(Notice(InvalidUri))];
    }
    trace := [Mutate(UpdateProposal(ParseInt(proposalId.value), name, uri))];
    if be.mutationFails {
      return trace + [Send(Notice(UpdateFailed))];
    }
    var rest := SelectDraft(ix, be, true, Some(name));
    trace := trace + rest;
  }

  method DeleteDraft(ix: Interaction, be: Backend) returns (trace: Trace)
    ensures trace == DeleteDraftTrace(ix, be)
  {
    var proposalId := Arg(ix, KeyProposalId);
    if !Present(proposalId) {
      return [Send(Notice(InvalidProposalId))];
    }
    trace := [Query(ProposalById(ParseInt(proposalId.value)))];
    if ProposalAt(be, ParseInt(proposalId.value)).None? {
      return trace + [Send(Notice(ProposalNotFound))];
    }
    var confirmButton := Button(Tok(OpConfirmDelete, [(KeyProposalId, proposalId.value)]), false);
    var cancelButton := Button(Tok(OpSelectDraft, [(KeyProposalId, proposalId.value), (KeyUdt, "1")]), false);
    trace := trace + [Send(Render(Update, DeleteConfirmation, [[confirmButton, cancelButton]]))];
  }

  method ConfirmDelete(ix: Interaction, be: Backend) returns (trace: Trace)
    ensures trace == ConfirmDeleteTrace(ix, be)
  {
    var proposalId := Arg(ix, KeyProposalId);
    if !Present(proposalId) {
      return [Send(Notice(InvalidProposalId))];
    }
    trace := [Mutate(DeleteProposal(ParseInt(proposalId.value)))];
    if be.mutationFails {
      return trace + [Send(Notice(DeleteFailed))];
    }
    trace := trace + [Send(Notice(ProposalDeleted))];
    var rest := ShowDrafts(ix, AfterDelete(be, ParseInt(proposalId.value)));
    trace := trace + rest;
  }

  method SubmitToFundingRound(ix: Interaction, be: Backend) returns (trace: Trace)
    ensures trace == SubmitToFundingRoundTrace(ix, be)
  {
    var proposalId := Arg(ix, KeyProposalId);
    if !Present(proposalId) {
      return [Send(Notice(InvalidProposalId))];
    }
    trace := [Query(EligibleRoundsFor(ParseInt(proposalId.value)))];
    if ProposalAt(be, ParseInt(proposalId.value)).None? {
      return trace + [Raise(ProposalNotFoundThrown)];
    }
    var eligibleFundingRounds := be.eligibleRounds;
    if |eligibleFundingRounds| == 0 {
      return trace + [Send(Notice(NoEligibleRounds))];
    }
    var next := Token(SubmitProposalToFundingRoundID, OpConfirmSubmission, [(KeyProposalId, proposalId.value)]);
    var selectMenu := Select(next, IdTexts(eligibleFundingRounds));
    trace := trace + [Send(Render(Respond, EligibleRoundList, [[selectMenu]]))];
  }

  method HandleOperation(ix: Interaction, be: Backend, operationId: string) returns (trace: Trace)
    ensures trace == OperationTrace(ix, be, operationId)
  {
    match Route(operationId)
    case HandleShowDrafts => trace := ShowDrafts(ix, be);
    case HandleSelectDraft => trace := SelectDraft(ix, be, false, None);
    case HandleEditDraft => trace := EditDraft(ix, be);
    case HandleSubmitEdit => trace := SubmitEdit(ix, be);
    case HandleDeleteDraft => trace := DeleteDraft(ix, be);
    case HandleConfirmDelete => trace := ConfirmDelete(ix, be);
    case HandleSubmitToFundingRound => trace := SubmitToFundingRound(ix, be);
    case HandleInvalidOperation => trace := [Send(InvalidOperation(operationId))];
  }
}
