/**
 * The vocabulary every Action handler is written in: the token an outgoing
 * control carries, the inbound interaction with its decoded arguments, the
 * replies a handler sends, and the trace of collaborator calls and replies
 * one invocation produces.
 */
module Routing {
  import opened Wrappers
  import opened JsValues
  import opened Pagination

  /** The Actions of the proposal and consideration screens. */
  datatype ActionId =
    | ManageSubmittedProposalsID
    | ManageDraftsID
    | CreateNewProposalID
    | SubmitProposalToFundingRoundID
    | SelectFundingRoundID
    | SelectVoteTypeID
    | SelectProjectID
    | SmeConsiderationVoteID

  /** A token as `addArgumentsToAction` builds it: action, operation id, name/value pairs in order. */
  datatype Token = Token(action: ActionId, op: string, args: seq<(string, string)>)

  /** The value of the first pair named `key`. */
  function ArgIn(args: seq<(string, string)>, key: string): Option<string>
  {
    if args == [] then None
    else if args[0].0 == key then Some(args[0].1)
    else ArgIn(args[1..], key)
  }

  /** `getNamedArgument` on a token this model builds. */
  function TokenArg(t: Token, key: string): Option<string>
  {
    ArgIn(t.args, key)
  }

  /** The arguments of a token built with one name/value pair. */
  lemma ArgsOfOne(a: ActionId, op: string, k: string, v: string)
    ensures TokenArg(Token(a, op, [(k, v)]), k) == Some(v)
  {
  }

  /** The arguments of a token built with two pairs under different names. */
  lemma ArgsOfTwo(a: ActionId, op: string, k1: string, v1: string, k2: string, v2: string)
    requires k1 != k2
    ensures TokenArg(Token(a, op, [(k1, v1), (k2, v2)]), k1) == Some(v1)
    ensures TokenArg(Token(a, op, [(k1, v1), (k2, v2)]), k2) == Some(v2)
  {
    assert [(k1, v1), (k2, v2)][1..] == [(k2, v2)];
    assert ArgIn([(k2, v2)], k2) == Some(v2);
  }

  /** The arguments of a token built with three pairs under different names. */
  lemma ArgsOfThree(a: ActionId, op: string, k1: string, v1: string, k2: string, v2: string, k3: string, v3: string)
    requires k1 != k2 && k1 != k3 && k2 != k3
    ensures TokenArg(Token(a, op, [(k1, v1), (k2, v2), (k3, v3)]), k1) == Some(v1)
    ensures TokenArg(Token(a, op, [(k1, v1), (k2, v2), (k3, v3)]), k2) == Some(v2)
    ensures TokenArg(Token(a, op, [(k1, v1), (k2, v2), (k3, v3)]), k3) == Some(v3)
  {
    var args := [(k1, v1), (k2, v2), (k3, v3)];
    assert args[1..] == [(k2, v2), (k3, v3)];
    ArgsOfTwo(a, op, k2, v2, k3, v3);
  }

  /** The interaction kinds that reach an Action: a button press, a select-menu choice, a modal submission. */
  datatype Kind = ControlActivation | ListSelection | FormSubmission

  /**
   * One inbound interaction. `args` are the named arguments of the token it
   * carries; `values` the chosen options of a select menu; `fields` the text
   * inputs of a submitted modal. `budgetParses` is whether `parseFloat` of
   * the budget input gives a number. `page` is what `getCurrentPage` reads.
   */
  datatype Interaction = Interaction(
    kind: Kind,
    args: map<string, string>,
    values: seq<string>,
    fields: map<string, string>,
    budgetParses: bool,
    page: nat,
    caller: string)

  /** `getNamedArgument(interaction.customId, key)` */
  function Arg(ix: Interaction, key: string): Option<string>
  {
    if key in ix.args then Some(ix.args[key]) else None
  }

  /** `parseInt(getNamedArgument(interaction.customId, key) || '')` */
  function ArgNum(ix: Interaction, key: string): Num
  {
    ParseInt(OrEmpty(Arg(ix, key)))
  }

  /** The named arguments `getNamedArgument` finds in a token: the first pair under each name. */
  function ArgsMap(args: seq<(string, string)>): (m: map<string, string>)
    ensures forall k :: k in m <==> ArgIn(args, k).Some?
    ensures forall k :: k in m ==> m[k] == ArgIn(args, k).value
  {
    if args == [] then map[] else ArgsMap(args[1..])[args[0].0 := args[0].1]
  }

  /** The interaction a press of a button carrying `tok` delivers to its Action. */
  function Pressed(tok: Token, caller: string): (ix: Interaction)
    ensures forall k :: Arg(ix, k) == TokenArg(tok, k)
  {
    Interaction(ControlActivation, ArgsMap(tok.args), [], map[], false, 0, caller)
  }

  /** `toInteractionWithValuesOrUndefined` succeeds. */
  predicate HasValues(ix: Interaction)
  {
    ix.kind == ListSelection
  }

  /** `toShowModalOrUndefined` succeeds: message components can open a modal. */
  predicate CanShowModal(ix: Interaction)
  {
    ix.kind == ControlActivation || ix.kind == ListSelection
  }

  /** `toModalSubmitInteractionOrUndefined` succeeds. */
  predicate IsModalSubmit(ix: Interaction)
  {
    ix.kind == FormSubmission
  }

  /** `parseInt(interactionWithValues.values[0])`; no chosen value parses as NaN. */
  function FirstValue(ix: Interaction): Num
  {
    if |ix.values| > 0 then ParseInt(ix.values[0]) else NaN
  }

  /** A control of a rendered message. The pagination row's buttons are built by the pagination base class. */
  datatype Control =
    | Button(token: Token, disabled: bool)
    | Select(token: Token, options: seq<string>)
    | PaginationRow(page: nat, totalPages: nat)

  /** `interaction.respond` sends a new message, `interaction.update` replaces the originating one. */
  datatype Mode = Respond | Update

  /** The content a rendered reply presents; texts, colours and fields are not modelled. */
  datatype View =
    | FundingRoundList
    | ProposalList
    | ProposalDetails
    | CancelConfirmation
    | ProposalCancelled
    | DraftList
    | DraftDetails(updatedName: Option<string>)
    | DeleteConfirmation
    | EligibleRoundList
    | ProposalCreated
    | SubmissionConfirmation
    | ProposalSubmitted
    | ConsiderationRoundList
    | VoteTypeChoice(unvotedCount: nat)
    | ProjectList(page: nat, totalPages: nat)
    | VoteOptions(existingVote: Option<bool>)
    | VoteRecorded(isApprove: bool)

  /** The plain text replies. */
  datatype Notice =
    | InvalidInteractionType
    | InvalidFundingRoundId
    | FundingRoundNotFound
    | ProposalOrRoundNotFound
    | InvalidProposalOrRoundId
    | CancelFailed
    | NoDraftProposals
    | NoProposalIdPassed
    | ProposalNotFound
    | InvalidProposalId
    | ModalsNotSupported
    | InvalidBudget
    | InvalidUri
    | InvalidUrl
    | UpdateFailed
    | ProposalDeleted
    | DeleteFailed
    | NoEligibleRounds
    | CreateFailed
    | NoDraftsToSubmit
    | SubmitFailed
    | OnlyForSmes
    | FundingRoundIdNotProvided
    | InvalidVoteType
    | NoEligibleProjects
    | ProjectOrRoundNotFound
    | VoteNotProvided
    | ModalFailed
    | VoteFailed

  datatype Reply =
    | Notice(notice: Notice)
    | Render(mode: Mode, view: View, rows: seq<seq<Control>>)
    | Modal(token: Token)
    | InvalidOperation(op: string)

  /** Errors a handler does not catch; they leave the Action. */
  datatype Escape =
    | ProposalNotFoundThrown
    | MissingField(id: string)
    | ArgsMissing
    | NoStandaloneComponent

  /**
   * One step of a handler: a collaborator query or mutation, a reply sent,
   * an error thrown, or the hand-off of a 'paginate' operation to the
   * pagination base class.
   */
  datatype Event<+Q, +M> =
    | Query(query: Q)
    | Mutate(mutation: M)
    | Send(reply: Reply)
    | Raise(escape: Escape)
    | Paginate

  /** An event that ends a handler: a reply, an uncaught error, or the pagination hand-off. */
  predicate Final<Q, M>(e: Event<Q, M>)
  {
    e.Send? || e.Raise? || e.Paginate?
  }

  /** The handler ends with exactly one reply (or error), and nothing before it replies. */
  predicate Concludes<Q, M>(t: seq<Event<Q, M>>)
  {
    |t| > 0 && Final(t[|t| - 1]) && forall i :: 0 <= i < |t| - 1 ==> !Final(t[i])
  }

  /** The trace contains no mutation. */
  predicate NoMutation<Q, M>(t: seq<Event<Q, M>>)
  {
    forall i :: 0 <= i < |t| ==> !t[i].Mutate?
  }

  /** No reply of the trace is the invalid-operation reply. */
  predicate NoInvalidOperation<Q, M>(t: seq<Event<Q, M>>)
  {
    forall i :: 0 <= i < |t| && t[i].Send? ==> !t[i].reply.InvalidOperation?
  }

  /** Collaborator calls, none of which ends the handler, followed by a concluding trace conclude. */
  lemma ConcludesAfterCalls<Q, M>(a: seq<Event<Q, M>>, b: seq<Event<Q, M>>)
    requires forall i :: 0 <= i < |a| ==> a[i].Query? || a[i].Mutate?
    requires Concludes(b)
    ensures Concludes(a + b)
  {
    forall i | 0 <= i < |a + b| - 1
      ensures !Final((a + b)[i])
    {
      if i >= |a| {
        assert (a + b)[i] == b[i - |a|];
      }
    }
  }

  /** The reply a trace ends with, if it ends with one. */
  function FinalReply<Q, M>(t: seq<Event<Q, M>>): Option<Reply>
  {
    if |t| > 0 && t[|t| - 1].Send? then Some(t[|t| - 1].reply) else None
  }

  /** The reply carries a pagination row. */
  predicate PaginationShown(r: Reply)
  {
    r.Render? && exists i, j :: 0 <= i < |r.rows| && 0 <= j < |r.rows[i]| && r.rows[i][j].PaginationRow?
  }

  /** The tokens a reply hands to the caller: those of its buttons and select menus, or the modal's. */
  function ReplyTokens(r: Reply): set<Token>
  {
    match r
    case Render(_, _, rows) => set row, c | row in rows && c in row && !c.PaginationRow? :: c.token
    case Modal(t) => {t}
    case _ => {}
  }

  /** Every token the trace's replies hand out. */
  function SentTokens<Q, M>(t: seq<Event<Q, M>>): set<Token>
  {
    set i, tok | 0 <= i < |t| && t[i].Send? && tok in ReplyTokens(t[i].reply) :: tok
  }

  /** The first control of the first row of a rendered reply. */
  function FirstControl(r: Reply): Option<Control>
  {
    if r.Render? && |r.rows| > 0 && |r.rows[0]| > 0 then Some(r.rows[0][0]) else None
  }

  /** Collaborator calls followed by one reply hand out that reply's tokens. */
  lemma SentTokensOfReply<Q, M>(calls: seq<Event<Q, M>>, r: Reply)
    requires forall i :: 0 <= i < |calls| ==> !calls[i].Send?
    ensures SentTokens(calls + [Send(r)]) == ReplyTokens(r)
  {
    var t := calls + [Send(r)];
    assert t[|calls|] == Send(r);
    forall tok | tok in SentTokens(t)
      ensures tok in ReplyTokens(r)
    {
      var i :| 0 <= i < |t| && t[i].Send? && tok in ReplyTokens(t[i].reply);
      if i < |calls| {
        assert t[i] == calls[i];
      }
    }
  }

  /** A trace with no reply hands out no token. */
  lemma SentTokensNoReply<Q, M>(t: seq<Event<Q, M>>)
    requires forall i :: 0 <= i < |t| ==> !t[i].Send?
    ensures SentTokens(t) == {}
  {
  }

  /** The tokens of a one-row reply. */
  lemma TokensOfRow(m: Mode, v: View, row: seq<Control>)
    requires forall i :: 0 <= i < |row| ==> !row[i].PaginationRow?
    ensures ReplyTokens(Render(m, v, [row])) == set i | 0 <= i < |row| :: row[i].token
  {
    var lhs := ReplyTokens(Render(m, v, [row]));
    var rhs := set i | 0 <= i < |row| :: row[i].token;
    forall tok | tok in lhs
      ensures tok in rhs
    {
      var rw, c :| rw in [row] && c in rw && !c.PaginationRow? && c.token == tok;
      var i :| 0 <= i < |row| && row[i] == c;
    }
    forall tok | tok in rhs
      ensures tok in lhs
    {
      var i :| 0 <= i < |row| && row[i].token == tok;
      assert row in [row];
    }
  }

  lemma TokensOfOne(m: Mode, v: View, a: Control)
    requires !a.PaginationRow?
    ensures ReplyTokens(Render(m, v, [[a]])) == {a.token}
  {
    TokensOfRow(m, v, [a]);
    var s := set i | 0 <= i < 1 :: [a][i].token;
    assert [a][0].token in s;
  }

  lemma TokensOfTwo(m: Mode, v: View, a: Control, b: Control)
    requires !a.PaginationRow? && !b.PaginationRow?
    ensures ReplyTokens(Render(m, v, [[a, b]])) == {a.token, b.token}
  {
    TokensOfRow(m, v, [a, b]);
    var s := set i | 0 <= i < 2 :: [a, b][i].token;
    assert [a, b][0].token in s && [a, b][1].token in s;
  }

  lemma TokensOfThree(m: Mode, v: View, a: Control, b: Control, c: Control)
    requires !a.PaginationRow? && !b.PaginationRow? && !c.PaginationRow?
    ensures ReplyTokens(Render(m, v, [[a, b, c]])) == {a.token, b.token, c.token}
  {
    TokensOfRow(m, v, [a, b, c]);
    var s := set i | 0 <= i < 3 :: [a, b, c][i].token;
    assert [a, b, c][0].token in s && [a, b, c][1].token in s && [a, b, c][2].token in s;
  }

  /** A list reply hands out only the list control's token; the pagination row's buttons are the base class's. */
  lemma TokensOfList(m: Mode, v: View, list: Control, page: nat, totalPages: nat)
    requires !list.PaginationRow?
    ensures ReplyTokens(Render(m, v, ListRows(list, page, totalPages))) == {list.token}
  {
    var rows := ListRows(list, page, totalPages);
    var lhs := ReplyTokens(Render(m, v, rows));
    forall tok | tok in lhs
      ensures tok == list.token
    {
      var rw, c :| rw in rows && c in rw && !c.PaginationRow? && c.token == tok;
    }
    assert rows[0] in rows && list in rows[0];
  }

  /** A list reply shows the pagination row exactly when there is more than one page. */
  lemma ListRowsPagination(m: Mode, v: View, list: Control, page: nat, totalPages: nat)
    requires !list.PaginationRow?
    ensures PaginationShown(Render(m, v, ListRows(list, page, totalPages))) <==> ShowsPaginationRow(totalPages)
  {
    var rows: seq<seq<Control>> := ListRows(list, page, totalPages);
    if ShowsPaginationRow(totalPages) {
      assert rows[1][0].PaginationRow?;
    } else {
      assert rows == [[list]];
    }
  }

  /** The list rows: the list control, then the pagination row when there is more than one page. */
  function ListRows(list: Control, page: nat, totalPages: nat): (rows: seq<seq<Control>>)
    ensures 1 <= |rows| <= 2 && rows[0] == [list]
    ensures |rows| == 2 <==> ShowsPaginationRow(totalPages)
    ensures |rows| == 2 ==> rows[1] == [PaginationRow(page, totalPages)]
  {
    if ShowsPaginationRow(totalPages) then [[list], [PaginationRow(page, totalPages)]] else [[list]]
  }
}
