# govbot proposal, consideration and funding-round core in Dafny

govbot is a Discord bot for a grants programme. Members draft proposals and
submit them to funding rounds. Subject matter experts (SMEs) then vote on
the proposals of a round in its consideration phase. Administrators manage
the phases, the committees and the approval votes of rounds.

This project models three parts of it.

- **The proposal home screen** (`ProposalHomeScreen.ts`). Its four Actions
  are: managing submitted proposals, managing drafts, creating a proposal,
  and submitting a draft to a round.
- **The consideration home screen** (`ConsiderationHomeScreen.ts`). Its four
  Actions are: choosing a round, choosing a vote type, choosing a project,
  and casting the SME vote.
- **The funding-round logic** (`FundingRoundLogic.ts`). This covers phase
  windows, proposal activity, phase setters, approval votes and committees.

## How a handler is modelled

An inbound interaction is the value `Routing.Interaction`. It holds:

- the kind: a button press, a list selection or a modal submission;
- the named token arguments;
- the chosen list values;
- the modal fields;
- the page number;
- the caller.

The collaborators a handler calls are one plain-data `Backend` snapshot:

- `ProposalLogic`, `FundingRoundLogic`, `ConsiderationLogic`;
- the Sequelize models.

A handler produces a **trace**. A trace is the sequence of its events:

- collaborator queries and mutations;
- the one reply it sends (`respond`, `update`, a modal, a notice);
- an error it lets escape;
- the hand-off of `'paginate'` to the pagination base class.

Each handler has two parts:

- a specification function `XTrace`. Its contract states what the source
  promises: the guards, which mutation happens and with which arguments,
  which buttons are offered, and which arguments a token carries on;
- a `method` that follows the source's local reassignments and loops. It is
  proved equal to `XTrace`.

Every handler trace satisfies `Dispatch.Handled`:

- it ends with exactly one reply or escaping error;
- every token of its buttons and menus reaches a case of its Action's switch;
- it never answers with the invalid-operation reply.

The buttons of a pagination row are built by the pagination base class,
which is not part of this model. Their tokens carry the operation id
`'paginate'` and are not among the tokens `Handled` checks. Only
`SelectProjectAction`'s switch has a case for that id (see Findings).

Round-trip lemmas follow a token from the handler that sends it to the
handler it reaches. Two examples: a confirm button and the submission it
triggers; a vote button, the reason modal and the recorded vote.

`FundingRoundLogic.FundingRoundStore` is a class. Its fields are the tables
the logic reads and upserts. Its methods change the fields in place, as the
source does, and their `ensures` clauses give the whole new state.

Some behaviour is kept as the source has it:

- a successful deletion replies twice: a notice, then the drafts list
  (`ManageDraftsAction.ConfirmDeleteTrace`);
- `SelectProjectAction.Component` builds a `SHOW_PROJECTS` button that
  carries its arguments only in the token. The handler reads them from its
  `args` parameter, so a press of that button escapes with `ArgsMissing`;
- the vote-type buttons carry no `showUnvoted` argument (see Findings);
- the submitted-proposals list keeps every proposal of the caller in the
  round, because the activity filter's callback is `async`
  (`ManageSubmittedProposalsAction.ShowProposalsListsEveryProposal`, see
  Findings);
- the project list counts its pages from the inbound token's `showUnvoted`
  argument (`SelectProjectAction.ShowProjectsOutcome`, see Findings).

Where the source is evidently wrong, the model keeps the handler as written
and adds the evidently intended version beside it, with its property
proved: `ShowProposalsTrace` with the `Intended` filter,
`IntendedShowProjectsTrace`, and the `IntendedOperationTrace` of the two
proposal-home Actions that lack a `'paginate'` case.

## Model

| member | source | states |
|---|---|---|
| Pagination.TotalPages | src/channels/propose/screens/ProposalHomeScreen.ts:105-108 | the page count `ceil(count/25)`: enough pages of 25 for every item, no empty last page, zero pages exactly for no items |
| Pagination.ItemsForPage | src/channels/propose/screens/ProposalHomeScreen.ts:110-113 | page `p` holds at most 25 items, item `i` of the page is item `25p+i` of the list, the page is non-empty exactly when `p` is below the page count, and every page before the last is full |
| Pagination.PagesPartitionItems | src/channels/propose/screens/ProposalHomeScreen.ts:366-374 | pages `0 .. totalPages-1` laid end to end are exactly the list, in order |
| Pagination.PagesUpToPrefix | src/channels/propose/screens/ProposalHomeScreen.ts:366-374 | the first `k` pages are the list's first `min(25k, n)` items |
| Pagination.ItemOnItsPage | src/channels/propose/screens/ProposalHomeScreen.ts:366-374 | item `i` is on page `i / 25` at position `i % 25` |
| Pagination.PaginationRowIffOverflow | src/channels/propose/screens/ProposalHomeScreen.ts:162-165 | the pagination row appears exactly when there are more than 25 items |
| Routing.ListRows | src/channels/propose/screens/ProposalHomeScreen.ts:431-434 | the components are the list control, followed by the pagination row exactly when `totalPages > 1` |
| Routing.ListRowsPagination | src/channels/propose/screens/ProposalHomeScreen.ts:162-165 | a list reply carries a pagination row exactly when there is more than one page |
| JsValues.ParseInt | src/channels/propose/screens/ProposalHomeScreen.ts:447-460 | for text without leading whitespace or a `0x` prefix, `parseInt` gives NaN exactly when no digit follows the optional sign |
| JsValues.ParseNumText | src/channels/propose/screens/ProposalHomeScreen.ts:304-313 | `parseInt(n.toString())` gives `n` back for every id below 2^53, and for NaN, so an id put in a token as text reaches the next handler unchanged |
| Dispatch.IdTexts | src/channels/propose/screens/ProposalHomeScreen.ts:204-212 | the option values of a select menu are the ids as text, one per item and in order, and each parses back to its id |
| ProposalHome.NormalizeUriCases | src/channels/propose/screens/ProposalHomeScreen.ts:788-794 | the three cases of the rewrite: `http://` becomes `https://`, a bare `forums.minaprotocol.com/` path gets `https://` prepended, anything else is unchanged; an accepted URI is kept as it is |
| ProposalHome.NormalizeUriIdempotent | src/channels/propose/screens/ProposalHomeScreen.ts:790-794 | normalising twice equals normalising once |
| ProposalHome.NormalizeUriRepairsForumPath | src/channels/propose/screens/ProposalHomeScreen.ts:792-801 | a bare forum path passes the forum check once normalised |
| ProposalHome.NormalizeUriRepairsHttpForumLink | src/channels/propose/screens/ProposalHomeScreen.ts:790-801 | a plain-http forum link passes the forum check once normalised |
| ProposalHome.ProposalIds | src/channels/propose/screens/ProposalHomeScreen.ts:204-212 | the ids of the listed proposals, one per proposal and in order |
| ProposalHome.Filter | src/channels/propose/screens/ProposalHomeScreen.ts:198-200 | `Array.filter` keeps exactly the elements whose callback value is truthy, in order |
| ProposalHome.AsWrittenKeepsEveryProposal | src/channels/propose/screens/ProposalHomeScreen.ts:198-200 | as written, the filter with the `async` callback keeps every proposal |
| ProposalHome.CancelledProposalListedAsWritten | src/channels/propose/screens/ProposalHomeScreen.ts:198-200 | a cancelled proposal is listed by the filter as written, and left out by the intended one |
| ProposalHome.ActiveProposals | src/channels/propose/screens/ProposalHomeScreen.ts:198-200 | the intended filter keeps exactly the proposals that are active in the round |
| ProposalHome.FilterAppend | src/channels/propose/screens/ProposalHomeScreen.ts:198-200 | `Array.filter` works element by element: the filter of a concatenation is the concatenation of the filters, so kept elements stay in their order |
| ProposalHome.FilterOne | src/channels/propose/screens/ProposalHomeScreen.ts:198-200 | `Array.filter` keeps a single element exactly when its callback value is truthy; with `FilterAppend` this fixes the result, order included |
| ProposalHome.ActiveProposalsAppend | src/channels/propose/screens/ProposalHomeScreen.ts:198-200 | the intended filter of a concatenation is the concatenation of the filtered parts |
| ProposalHome.ActiveProposalsOne | src/channels/propose/screens/ProposalHomeScreen.ts:198-200 | the intended filter keeps a single proposal exactly when it is active; with `ActiveProposalsAppend` this fixes the result, order included |
| ManageSubmittedProposalsAction.Route | src/channels/propose/screens/ProposalHomeScreen.ts:115-138 | each of the six operation ids reaches the one case it names; every other id reaches the invalid-operation handler |
| ManageSubmittedProposalsAction.RouteInvertsOpId | src/channels/propose/screens/ProposalHomeScreen.ts:115-138 | every case is reached by its own id |
| ManageSubmittedProposalsAction.Component | src/channels/propose/screens/ProposalHomeScreen.ts:337-342 | the home-screen button reaches the round list |
| ManageSubmittedProposalsAction.ShowFundingRoundsTrace | src/channels/propose/screens/ProposalHomeScreen.ts:140-168 | one page of the rounds the caller has proposals in, with the pagination row exactly past one page; no mutation |
| ManageSubmittedProposalsAction.ShowProposalsTrace | src/channels/propose/screens/ProposalHomeScreen.ts:181-219 | a falsy round id gives an error before any lookup; a missing round gives not found; otherwise the round lookup, the proposals lookup, and a list of the caller's proposals in the round that pass the filter, whose token carries the round id on; with the filter `AsWritten` that is every one of them |
| ManageSubmittedProposalsAction.SelectFundingRoundTrace | src/channels/propose/screens/ProposalHomeScreen.ts:170-179 | without list values an error; otherwise the proposals of the chosen round, with the filter as written |
| ManageSubmittedProposalsAction.ShowProposalsListsEveryProposal | src/channels/propose/screens/ProposalHomeScreen.ts:181-219 | as written, the list of a found round names every proposal the caller has in it, cancelled ones included |
| ManageSubmittedProposalsAction.IntendedListsActiveProposals | src/channels/propose/screens/ProposalHomeScreen.ts:181-219 | with the intended filter, the list of a found round names exactly the caller's proposals that are active in it |
| ManageSubmittedProposalsAction.ShowProposalDetailsTrace | src/channels/propose/screens/ProposalHomeScreen.ts:221-259 | the chosen proposal with a cancel button, disabled exactly when the proposal is cancelled; the button carries both ids on |
| ManageSubmittedProposalsAction.ConfirmCancelProposalTrace | src/channels/propose/screens/ProposalHomeScreen.ts:261-301 | a missing id gives an error with no lookup and no cancel; the confirm button forwards both ids unchanged to the execute step |
| ManageSubmittedProposalsAction.ExecuteCancelProposalTrace | src/channels/propose/screens/ProposalHomeScreen.ts:303-331 | the proposal is cancelled only when both ids are present, and then it is the named proposal |
| ManageSubmittedProposalsAction.OperationTrace | src/channels/propose/screens/ProposalHomeScreen.ts:115-138 | the invalid-operation reply exactly for an unknown id; every known id gives a handled trace |
| ManageSubmittedProposalsAction.PaginateRefusedAsWritten | src/channels/propose/screens/ProposalHomeScreen.ts:115-138 | the round list of a caller with proposals in more than 25 rounds shows a pagination row, and `'paginate'` gets the invalid-operation reply |
| ManageSubmittedProposalsAction.IntendedOperationTrace | src/channels/propose/screens/ProposalHomeScreen.ts:115-138 | with a `'paginate'` case added, exactly `'paginate'` hands over to the pagination base class, and the invalid-operation reply is left for the ids no case names |
| ManageSubmittedProposalsAction.ShowFundingRounds | src/channels/propose/screens/ProposalHomeScreen.ts:140-168 | equals `ShowFundingRoundsTrace` |
| ManageSubmittedProposalsAction.SelectFundingRound | src/channels/propose/screens/ProposalHomeScreen.ts:170-179 | equals `SelectFundingRoundTrace` |
| ManageSubmittedProposalsAction.ShowProposals | src/channels/propose/screens/ProposalHomeScreen.ts:181-219 | equals `ShowProposalsTrace` with the filter as written |
| ManageSubmittedProposalsAction.ShowProposalDetails | src/channels/propose/screens/ProposalHomeScreen.ts:221-259 | equals `ShowProposalDetailsTrace`, including the `setDisabled` rule |
| ManageSubmittedProposalsAction.ConfirmCancelProposal | src/channels/propose/screens/ProposalHomeScreen.ts:261-301 | equals `ConfirmCancelProposalTrace` |
| ManageSubmittedProposalsAction.ExecuteCancelProposal | src/channels/propose/screens/ProposalHomeScreen.ts:303-331 | equals `ExecuteCancelProposalTrace` |
| ManageSubmittedProposalsAction.HandleOperation | src/channels/propose/screens/ProposalHomeScreen.ts:115-138 | equals `OperationTrace` |
| ManageDraftsAction.Route | src/channels/propose/screens/ProposalHomeScreen.ts:376-402 | each of the seven operation ids reaches the one case it names; every other id reaches the invalid-operation handler |
| ManageDraftsAction.RouteInvertsOpId | src/channels/propose/screens/ProposalHomeScreen.ts:376-402 | every case is reached by its own id |
| ManageDraftsAction.Component | src/channels/propose/screens/ProposalHomeScreen.ts:706-711 | the home-screen button reaches the drafts list |
| ManageDraftsAction.ShowDraftsMode | src/channels/propose/screens/ProposalHomeScreen.ts:436-442 | the drafts list replaces the message exactly when `udt` is `'1'` |
| ManageDraftsAction.ShowDraftsTrace | src/channels/propose/screens/ProposalHomeScreen.ts:404-445 | the no-drafts notice exactly when the current page is past the last one; otherwise the page of drafts, replacing the message exactly when `udt` is `'1'`, with the pagination row exactly past one page |
| ManageDraftsAction.DraftPageTrace | src/channels/propose/screens/ProposalHomeScreen.ts:409-442 | after the two draft reads: the notice exactly for an empty page, otherwise the list of that page's drafts, with the pagination row exactly when there is more than one page |
| ManageDraftsAction.SelectDraftMode | src/channels/propose/screens/ProposalHomeScreen.ts:513-527 | the draft view replaces the message exactly when `asUpdate` holds or `udt` is `'1'`; another `udt` value never clears `asUpdate` |
| ManageDraftsAction.SelectDraftTrace | src/channels/propose/screens/ProposalHomeScreen.ts:447-528 | without a draft id an error and no lookup; no mutation in any case |
| ManageDraftsAction.SelectDraftOutcome | src/channels/propose/screens/ProposalHomeScreen.ts:462-527 | with an id: one lookup, then not found, or the draft view in the mode the `udt` rule gives |
| ManageDraftsAction.SelectDraftForwardsId | src/channels/propose/screens/ProposalHomeScreen.ts:490-512 | the edit, delete and submit buttons each carry the shown draft's id |
| ManageDraftsAction.EditDraftTrace | src/channels/propose/screens/ProposalHomeScreen.ts:530-581 | a missing id or a missing draft gives an error; otherwise the edit modal, carrying the id unchanged |
| ManageDraftsAction.SubmitEditTrace | src/channels/propose/screens/ProposalHomeScreen.ts:583-617 | an invalid budget or a URI not starting with the forum prefix is rejected before any update; the only update is of the named draft, with the URI exactly as typed |
| ManageDraftsAction.SubmitEditOutcome | src/channels/propose/screens/ProposalHomeScreen.ts:610-616 | after an accepted edit, a failed update gives the error notice, and a successful one reopens the draft, with its new name, as an update |
| ManageDraftsAction.DeleteDraftTrace | src/channels/propose/screens/ProposalHomeScreen.ts:619-656 | without an id an error; every button hands on the id, and the Cancel button asks for the draft view as an update |
| ManageDraftsAction.DeleteDraftOutcome | src/channels/propose/screens/ProposalHomeScreen.ts:626-655 | with an id, the draft is looked up first; a missing draft gives not found, otherwise the confirmation replaces the message and offers Cancel back to the draft |
| ManageDraftsAction.ConfirmDeleteTrace | src/channels/propose/screens/ProposalHomeScreen.ts:658-672 | the draft is deleted only when the id is present; a failed deletion gives its notice; on success the deletion notice is followed by the drafts list read after the deletion |
| ManageDraftsAction.AfterDelete | src/channels/propose/screens/ProposalHomeScreen.ts:658-672 | after `deleteProposal(id)` no draft and no proposal has that id, and every other draft and proposal is kept |
| ManageDraftsAction.DeletedDraftNotListed | src/channels/propose/screens/ProposalHomeScreen.ts:658-672 | the drafts list sent after a successful deletion does not name the deleted draft |
| ManageDraftsAction.SubmitToFundingRoundTrace | src/channels/propose/screens/ProposalHomeScreen.ts:674-700 | without an id an error; no mutation; every token handed out is the submission Action's confirm step carrying the draft's id |
| ManageDraftsAction.SubmitToFundingRoundOutcome | src/channels/propose/screens/ProposalHomeScreen.ts:681-699 | with an id, the eligible rounds are looked up first; a missing draft throws, no eligible round gives a notice, otherwise the rounds are listed with the draft's id on |
| ManageDraftsAction.OperationTrace | src/channels/propose/screens/ProposalHomeScreen.ts:376-402 | the invalid-operation reply exactly for an unknown id |
| ManageDraftsAction.PaginateRefusedAsWritten | src/channels/propose/screens/ProposalHomeScreen.ts:376-402 | the first page of more than 25 drafts shows a pagination row, and `'paginate'` gets the invalid-operation reply |
| ManageDraftsAction.IntendedOperationTrace | src/channels/propose/screens/ProposalHomeScreen.ts:376-402 | with a `'paginate'` case added, exactly `'paginate'` hands over to the pagination base class, and the invalid-operation reply is left for the ids no case names |
| ManageDraftsAction.ShowDrafts | src/channels/propose/screens/ProposalHomeScreen.ts:404-445 | equals `ShowDraftsTrace` |
| ManageDraftsAction.ShowDraftPage | src/channels/propose/screens/ProposalHomeScreen.ts:409-442 | equals `DraftPageTrace`, including the `components.push` of the pagination row |
| ManageDraftsAction.SelectDraft | src/channels/propose/screens/ProposalHomeScreen.ts:447-528 | equals `SelectDraftTrace`, with the `let proposalId` and `let doUpdate` reassignments |
| ManageDraftsAction.EditDraft | src/channels/propose/screens/ProposalHomeScreen.ts:530-581 | equals `EditDraftTrace` |
| ManageDraftsAction.SubmitEdit | src/channels/propose/screens/ProposalHomeScreen.ts:583-617 | equals `SubmitEditTrace` |
| ManageDraftsAction.DeleteDraft | src/channels/propose/screens/ProposalHomeScreen.ts:619-656 | equals `DeleteDraftTrace` |
| ManageDraftsAction.ConfirmDelete | src/channels/propose/screens/ProposalHomeScreen.ts:658-672 | equals `ConfirmDeleteTrace` |
| ManageDraftsAction.SubmitToFundingRound | src/channels/propose/screens/ProposalHomeScreen.ts:674-700 | equals `SubmitToFundingRoundTrace` |
| ManageDraftsAction.HandleOperation | src/channels/propose/screens/ProposalHomeScreen.ts:376-402 | equals `OperationTrace` |
| CreateNewProposalAction.Route | src/channels/propose/screens/ProposalHomeScreen.ts:728-739 | the two operation ids reach their cases; every other id reaches the invalid-operation handler |
| CreateNewProposalAction.RouteInvertsOpId | src/channels/propose/screens/ProposalHomeScreen.ts:728-739 | every case is reached by its own id |
| CreateNewProposalAction.Component | src/channels/propose/screens/ProposalHomeScreen.ts:844-849 | the home-screen button reaches the creation form |
| CreateNewProposalAction.ShowCreateFormTrace | src/channels/propose/screens/ProposalHomeScreen.ts:741-777 | the form exactly when a modal can be shown, otherwise a notice; no lookup; the form submits to the create handler |
| CreateNewProposalAction.SubmitCreateFormTrace | src/channels/propose/screens/ProposalHomeScreen.ts:779-838 | a draft is created only for a modal submission with all fields, a parsing budget and a normalised URI that passes the forum check; it is created with the normalised URI and the caller as proposer |
| CreateNewProposalAction.CreateRepairsForumLinks | src/channels/propose/screens/ProposalHomeScreen.ts:788-801 | a scheme-less or plain-http forum link is repaired and the draft is created |
| CreateNewProposalAction.EditRejectsWhatCreateRepairs | src/channels/propose/screens/ProposalHomeScreen.ts:598-611 | the same form with a scheme-less forum link is refused by the edit handler, before any update, and accepted by the create handler |
| CreateNewProposalAction.OperationTrace | src/channels/propose/screens/ProposalHomeScreen.ts:728-739 | the invalid-operation reply exactly for an unknown id |
| CreateNewProposalAction.ShowCreateForm | src/channels/propose/screens/ProposalHomeScreen.ts:741-777 | equals `ShowCreateFormTrace` |
| CreateNewProposalAction.SubmitCreateForm | src/channels/propose/screens/ProposalHomeScreen.ts:779-838 | equals `SubmitCreateFormTrace`, with the `let uri` reassignment |
| CreateNewProposalAction.HandleOperation | src/channels/propose/screens/ProposalHomeScreen.ts:728-739 | equals `OperationTrace` |
| SubmitProposalToFundingRoundAction.Route | src/channels/propose/screens/ProposalHomeScreen.ts:862-879 | each of the four operation ids reaches the one case it names; every other id reaches the invalid-operation handler |
| SubmitProposalToFundingRoundAction.RouteInvertsOpId | src/channels/propose/screens/ProposalHomeScreen.ts:862-879 | every case is reached by its own id |
| SubmitProposalToFundingRoundAction.Component | src/channels/propose/screens/ProposalHomeScreen.ts:1024-1028 | the home-screen button reaches the list of drafts that can be submitted |
| SubmitProposalToFundingRoundAction.ShowDraftProposalsTrace | src/channels/propose/screens/ProposalHomeScreen.ts:881-915 | all of the caller's drafts in one list, whose options parse to the draft ids, or a notice when there are none |
| SubmitProposalToFundingRoundAction.SelectFundingRoundTrace | src/channels/propose/screens/ProposalHomeScreen.ts:917-944 | the rounds the chosen draft is eligible for, or a notice when there are none; no mutation |
| SubmitProposalToFundingRoundAction.SelectFundingRoundForwardsId | src/channels/propose/screens/ProposalHomeScreen.ts:932-940 | the round list's token names the draft that was chosen |
| SubmitProposalToFundingRoundAction.ConfirmSubmissionTrace | src/channels/propose/screens/ProposalHomeScreen.ts:946-992 | with draft and round found, a confirmation whose buttons are the submit button with both ids and the button back to the drafts |
| SubmitProposalToFundingRoundAction.ExecuteSubmissionTrace | src/channels/propose/screens/ProposalHomeScreen.ts:994-1018 | the submission of the token's two ids, each parsed and NaN when absent; nothing is checked first |
| SubmitProposalToFundingRoundAction.ConfirmThenExecute | src/channels/propose/screens/ProposalHomeScreen.ts:975-1001 | pressing the confirmation's submit button submits exactly the draft and the round it showed |
| SubmitProposalToFundingRoundAction.SelectThenConfirm | src/channels/propose/screens/ProposalHomeScreen.ts:932-958 | the confirmation looks up the draft chosen in the drafts list and the round chosen in the round list |
| SubmitProposalToFundingRoundAction.OperationTrace | src/channels/propose/screens/ProposalHomeScreen.ts:862-879 | the invalid-operation reply exactly for an unknown id |
| SubmitProposalToFundingRoundAction.ShowDraftProposals | src/channels/propose/screens/ProposalHomeScreen.ts:881-915 | equals `ShowDraftProposalsTrace` |
| SubmitProposalToFundingRoundAction.SelectFundingRound | src/channels/propose/screens/ProposalHomeScreen.ts:917-944 | equals `SelectFundingRoundTrace` |
| SubmitProposalToFundingRoundAction.ConfirmSubmission | src/channels/propose/screens/ProposalHomeScreen.ts:946-992 | equals `ConfirmSubmissionTrace` |
| SubmitProposalToFundingRoundAction.ExecuteSubmission | src/channels/propose/screens/ProposalHomeScreen.ts:994-1018 | equals `ExecuteSubmissionTrace` |
| SubmitProposalToFundingRoundAction.HandleOperation | src/channels/propose/screens/ProposalHomeScreen.ts:862-879 | equals `OperationTrace` |
| ConsiderationHome.ResolveShowUnvoted | src/channels/consider/screens/ConsiderationHomeScreen.ts:259-268 | a `showUnvoted` passed in wins; otherwise it is true exactly when the token argument is `'true'`; absent means false |
| ConsiderationHome.VoteTypeRoute | src/channels/consider/screens/ConsiderationHomeScreen.ts:220-233 | `'new'` selects the unvoted projects, `'change'` the voted ones, and any other value selects no route |
| ConsiderationHome.VoteRow | src/channels/consider/screens/ConsiderationHomeScreen.ts:420-428 | Approve is offered exactly unless the latest vote approved, and Reject exactly unless it rejected; with no vote both are offered, Approve first |
| ConsiderationHome.BoolText | src/channels/consider/screens/ConsiderationHomeScreen.ts:322 | `showUnvoted.toString()` is `'true'` exactly for true |
| ConsiderationHome.VoteLookups | src/channels/consider/screens/ConsiderationHomeScreen.ts:308-319 | one latest-vote lookup per listed project, in list order |
| SelectFundingRoundAction.Route | src/channels/consider/screens/ConsiderationHomeScreen.ts:74-85 | the two operation ids reach their cases; every other id reaches the invalid-operation handler |
| SelectFundingRoundAction.RouteInvertsOpId | src/channels/consider/screens/ConsiderationHomeScreen.ts:74-85 | every case is reached by its own id |
| SelectFundingRoundAction.Component | src/channels/consider/screens/ConsiderationHomeScreen.ts:138-143 | the button of `getComponent` and of the home screen's `getResponse` reaches the round list |
| SelectFundingRoundAction.ShowFundingRoundsTrace | src/channels/consider/screens/ConsiderationHomeScreen.ts:87-117 | one query; no eligible round gives the SME-only notice; otherwise every eligible round in one list that goes on to the round choice |
| SelectFundingRoundAction.SelectFundingRoundTrace | src/channels/consider/screens/ConsiderationHomeScreen.ts:119-132 | without list values an error; otherwise the vote-type choice for the parsed chosen round |
| SelectFundingRoundAction.ChosenRoundGetsVoteTypes | src/channels/consider/screens/ConsiderationHomeScreen.ts:96-132 | choosing the `i`-th round of the list shows the vote-type choice of exactly that round |
| SelectFundingRoundAction.OperationTrace | src/channels/consider/screens/ConsiderationHomeScreen.ts:74-85 | the invalid-operation reply exactly for an unknown id |
| SelectFundingRoundAction.ShowFundingRounds | src/channels/consider/screens/ConsiderationHomeScreen.ts:87-117 | equals `ShowFundingRoundsTrace` |
| SelectFundingRoundAction.RoundOptions | src/channels/consider/screens/ConsiderationHomeScreen.ts:96-100 | the option values are the round ids as text, in order |
| SelectFundingRoundAction.SelectFundingRound | src/channels/consider/screens/ConsiderationHomeScreen.ts:119-132 | equals `SelectFundingRoundTrace` |
| SelectFundingRoundAction.HandleOperation | src/channels/consider/screens/ConsiderationHomeScreen.ts:74-85 | equals `OperationTrace` |
| SelectVoteTypeAction.Route | src/channels/consider/screens/ConsiderationHomeScreen.ts:149-160 | the two operation ids reach their cases; every other id reaches the invalid-operation handler |
| SelectVoteTypeAction.RouteInvertsOpId | src/channels/consider/screens/ConsiderationHomeScreen.ts:149-160 | every case is reached by its own id |
| SelectVoteTypeAction.Component | src/channels/consider/screens/ConsiderationHomeScreen.ts:240-242 | `getComponent` always throws |
| SelectVoteTypeAction.VoteTypeReply | src/channels/consider/screens/ConsiderationHomeScreen.ts:191-204 | two buttons, each carrying its vote type and the round; Evaluate is disabled exactly when the unvoted count is 0, Update exactly when the caller has voted on nothing |
| SelectVoteTypeAction.ShowVoteTypesTrace | src/channels/consider/screens/ConsiderationHomeScreen.ts:162-207 | without `args` the handler throws; a missing round gives not found after one lookup; otherwise the count and voted lookups and the vote-type choice |
| SelectVoteTypeAction.SelectVoteTypeTrace | src/channels/consider/screens/ConsiderationHomeScreen.ts:209-234 | a missing round id gives an error before any routing; `'new'` lists the unvoted projects, `'change'` the voted ones, in the parsed round, through `handleShowProjects` as written; anything else gives "Invalid vote type" |
| SelectVoteTypeAction.VoteTypeButtonListsProjects | src/channels/consider/screens/ConsiderationHomeScreen.ts:191-233 | pressing a vote-type button lists the projects of the shown round with the matching flag; the button has no `showUnvoted` argument |
| SelectVoteTypeAction.VoteTypeButtonCountsVotedList | src/channels/consider/screens/ConsiderationHomeScreen.ts:191-253 | as written, the list a vote-type button opens has the page count and pagination row of the voted-on projects, whichever list it shows |
| SelectVoteTypeAction.OperationTrace | src/channels/consider/screens/ConsiderationHomeScreen.ts:149-160 | the invalid-operation reply exactly for an unknown id |
| SelectVoteTypeAction.ShowVoteTypes | src/channels/consider/screens/ConsiderationHomeScreen.ts:162-207 | equals `ShowVoteTypesTrace` |
| SelectVoteTypeAction.SelectVoteType | src/channels/consider/screens/ConsiderationHomeScreen.ts:209-234 | equals `SelectVoteTypeTrace` |
| SelectVoteTypeAction.HandleOperation | src/channels/consider/screens/ConsiderationHomeScreen.ts:149-160 | equals `OperationTrace` |
| SelectProjectAction.Route | src/channels/consider/screens/ConsiderationHomeScreen.ts:274-288 | `SHOW_PROJECTS`, `SELECT_PROJECT` and `'paginate'` reach their cases; every other id reaches the invalid-operation handler |
| SelectProjectAction.RouteInvertsOpId | src/channels/consider/screens/ConsiderationHomeScreen.ts:274-288 | every case is reached by its own id |
| SelectProjectAction.Component | src/channels/consider/screens/ConsiderationHomeScreen.ts:358-363 | a `SHOW_PROJECTS` button carrying the round and the flag as text |
| SelectProjectAction.ProjectListTrace | src/channels/consider/screens/ConsiderationHomeScreen.ts:290-335 | the project list, whatever list the page count comes from, is handled and mutates nothing |
| SelectProjectAction.PageTrace | src/channels/consider/screens/ConsiderationHomeScreen.ts:296-335 | after the project queries: the empty-page message, or the lookups and the list; it hands out only the menu token |
| SelectProjectAction.PageTraceOutcome | src/channels/consider/screens/ConsiderationHomeScreen.ts:296-335 | the empty-page message exactly for an empty page, otherwise the list of that page |
| SelectProjectAction.ProjectListOutcome | src/channels/consider/screens/ConsiderationHomeScreen.ts:248-299 | the two project queries come first; the empty-page message exactly when the page holds no listed project; otherwise that page with the page count of the list the count flag selects |
| SelectProjectAction.ShowProjectsTrace | src/channels/consider/screens/ConsiderationHomeScreen.ts:247-335 | as written: without `args` the handler throws; otherwise it is handled, mutates nothing, hands out only the menu token, and first queries the list the inbound token's flag selects |
| SelectProjectAction.ShowProjectsOutcome | src/channels/consider/screens/ConsiderationHomeScreen.ts:247-299 | as written: zero projects on the page gives "no eligible projects"; otherwise page `p` of the listed projects, with the page count and the pagination row of the list the inbound token's flag selects |
| SelectProjectAction.IntendedShowProjectsTrace | src/channels/consider/screens/ConsiderationHomeScreen.ts:290-335 | as intended, with the page count of the list shown: without `args` the handler throws; otherwise it is handled, mutates nothing, and hands out only the menu token |
| SelectProjectAction.IntendedShowProjectsOutcome | src/channels/consider/screens/ConsiderationHomeScreen.ts:247-299 | as intended: zero projects on the page gives "no eligible projects"; otherwise page `p` is `slice(25p, 25(p+1))` of the listed projects, with `ceil(n/25)` pages of that list |
| SelectProjectAction.AsWrittenAgreesWhenFlagsAgree | src/channels/consider/screens/ConsiderationHomeScreen.ts:247-253 | the handler as written and as intended give the same trace whenever the token's flag equals the `showUnvoted` passed in |
| SelectProjectAction.IntendedShowProjectsPages | src/channels/consider/screens/ConsiderationHomeScreen.ts:247-335 | as intended: a shown page is within the page count; the pages together are the listed projects; the pagination row is there exactly past 25 projects |
| SelectProjectAction.ListTokenForwards | src/channels/consider/screens/ConsiderationHomeScreen.ts:321-322 | the project menu reaches the select handler and carries the round and the flag on |
| SelectProjectAction.SelectProjectTrace | src/channels/consider/screens/ConsiderationHomeScreen.ts:337-352 | without list values an error; otherwise the vote options of the chosen project in the token's round |
| SelectProjectAction.ChosenProjectGetsVoteOptions | src/channels/consider/screens/ConsiderationHomeScreen.ts:308-352 | choosing the `i`-th project of a shown page opens the vote options of exactly that project, in the round the list was shown for |
| SelectProjectAction.UnvotedListMiscountedAsWritten | src/channels/consider/screens/ConsiderationHomeScreen.ts:248-253 | as written, a list of more than 25 unvoted projects, none voted on, reached without a token flag, says page 1 of 0 and has no pagination row; counted from the listed projects it has at least two pages and the row |
| SelectProjectAction.OperationTrace | src/channels/consider/screens/ConsiderationHomeScreen.ts:274-288 | the invalid-operation reply exactly for an unknown id, and the pagination hand-off exactly for `'paginate'` |
| SelectProjectAction.ShowProjects | src/channels/consider/screens/ConsiderationHomeScreen.ts:247-335 | equals `ShowProjectsTrace`, the handler as written |
| SelectProjectAction.ShowPage | src/channels/consider/screens/ConsiderationHomeScreen.ts:296-335 | equals `PageTrace`, including the `components.push` of the pagination row |
| SelectProjectAction.ProjectOptions | src/channels/consider/screens/ConsiderationHomeScreen.ts:308-319 | one option and one latest-vote lookup per project, in order |
| SelectProjectAction.SelectProject | src/channels/consider/screens/ConsiderationHomeScreen.ts:337-352 | equals `SelectProjectTrace` |
| SelectProjectAction.HandleOperation | src/channels/consider/screens/ConsiderationHomeScreen.ts:274-288 | equals `OperationTrace` |
| SmeConsiderationVoteAction.Route | src/channels/consider/screens/ConsiderationHomeScreen.ts:369-383 | the three operation ids reach their cases; every other id reaches the invalid-operation handler |
| SmeConsiderationVoteAction.RouteInvertsOpId | src/channels/consider/screens/ConsiderationHomeScreen.ts:369-383 | every case is reached by its own id |
| SmeConsiderationVoteAction.Component | src/channels/consider/screens/ConsiderationHomeScreen.ts:504-506 | `getComponent` always throws |
| SmeConsiderationVoteAction.ShowVoteOptionsTrace | src/channels/consider/screens/ConsiderationHomeScreen.ts:385-431 | without `args` the handler throws; after the project, round and latest-vote lookups, a missing project or round gives not found, and otherwise the vote options of that project and round; every button reaches the submit handler |
| SmeConsiderationVoteAction.VoteOptionsTokens | src/channels/consider/screens/ConsiderationHomeScreen.ts:412-428 | the approve button is offered exactly unless the latest vote approved, the reject button exactly unless it rejected, and no other token |
| SmeConsiderationVoteAction.SubmitVoteTrace | src/channels/consider/screens/ConsiderationHomeScreen.ts:433-464 | a missing vote gives an error and no modal; otherwise the reason modal when one can be shown; nothing is looked up |
| SmeConsiderationVoteAction.SubmitVoteForwards | src/channels/consider/screens/ConsiderationHomeScreen.ts:436-447 | the modal's token reaches the confirm handler and forwards the project, the round and the vote unchanged |
| SmeConsiderationVoteAction.ConfirmVoteTrace | src/channels/consider/screens/ConsiderationHomeScreen.ts:466-498 | only a modal submission with a reason submits a vote; it is an approval exactly when the vote is the approve option, so an absent vote records a rejection; a failed submission gives the error reply |
| SmeConsiderationVoteAction.VoteButtonRecordsItsVote | src/channels/consider/screens/ConsiderationHomeScreen.ts:412-481 | pressing a vote button and submitting the modal records that vote on the shown project and round |
| SmeConsiderationVoteAction.OperationTrace | src/channels/consider/screens/ConsiderationHomeScreen.ts:369-383 | the invalid-operation reply exactly for an unknown id |
| SmeConsiderationVoteAction.ShowVoteOptions | src/channels/consider/screens/ConsiderationHomeScreen.ts:385-431 | equals `ShowVoteOptionsTrace`, including the conditional `row.addComponents` |
| SmeConsiderationVoteAction.SubmitVote | src/channels/consider/screens/ConsiderationHomeScreen.ts:433-464 | equals `SubmitVoteTrace` |
| SmeConsiderationVoteAction.ConfirmVote | src/channels/consider/screens/ConsiderationHomeScreen.ts:466-498 | equals `ConfirmVoteTrace` |
| SmeConsiderationVoteAction.HandleOperation | src/channels/consider/screens/ConsiderationHomeScreen.ts:369-383 | equals `OperationTrace` |
| FundingRules.IsProposalActive | src/channels/admin/screens/FundingRoundLogic.ts:504-540 | an active proposal belongs to an approved round, is neither draft nor cancelled, and has the status of a phase whose window contains `now` |
| FundingRules.ActiveIffFirstOpenPhase | src/channels/admin/screens/FundingRoundLogic.ts:504-540 | active exactly when the round is approved, the proposal is not draft or cancelled, and the first open phase in the order consideration, deliberation, voting has the proposal's status |
| FundingRules.NoOpenPhaseNoActivity | src/channels/admin/screens/FundingRoundLogic.ts:521-540 | with no window containing `now`, no proposal is active |
| FundingRules.OpenPhases | src/channels/admin/screens/FundingRoundLogic.ts:563-588 | no more phases than given |
| FundingRules.OpenPhasesMembers | src/channels/admin/screens/FundingRoundLogic.ts:563-588 | a phase is reported active exactly when its window contains `now`, both ends included |
| FundingRules.OpenPhasesOrdered | src/channels/admin/screens/FundingRoundLogic.ts:563-588 | active phases come out in the order consideration, deliberation, funding, each once |
| FundingRules.OpenPhasesUnfold | src/channels/admin/screens/FundingRoundLogic.ts:570-586 | the active phases are the three checks of the source, one after the other |
| FundingRules.ExistingPhases | src/channels/admin/screens/FundingRoundLogic.ts:41-73 | no more phases than given |
| FundingRules.ExistingPhasesMembers | src/channels/admin/screens/FundingRoundLogic.ts:41-73 | a phase is listed exactly when it has a record |
| FundingRules.ExistingPhasesOrdered | src/channels/admin/screens/FundingRoundLogic.ts:41-73 | listed phases come out in the order consideration, deliberation, voting, each once |
| FundingRules.ExistingPhasesUnfold | src/channels/admin/screens/FundingRoundLogic.ts:41-73 | the listed phases are the three checks of the source, one after the other |
| FundingRules.StatusForPhaseName | src/channels/admin/screens/FundingRoundLogic.ts:596-609 | the lower-cased name consideration, deliberation or funding maps to its proposal status; anything else is "Invalid phase" |
| FundingRules.ActiveNamesSelectTheirStatus | src/channels/admin/screens/FundingRoundLogic.ts:563-609 | each name `getActiveFundingRoundPhases` reports is accepted by `getActiveProposalsForPhase` and selects that phase's status |
| FundingRules.ListedVotingNameRefused | src/channels/admin/screens/FundingRoundLogic.ts:596-609 | the name `voting` that `getFundingRoundPhases` gives the last phase is refused by `getActiveProposalsForPhase` |
| FundingRoundLogic.ProposalsWithMembers | src/channels/admin/screens/FundingRoundLogic.ts:596-609 | the proposals returned are exactly those of the round with the selected status |
| FundingRoundLogic.AbsentMembers | src/channels/admin/screens/FundingRoundLogic.ts:189-225 | exactly the duids missing from the set read at the start are inserted |
| FundingRoundLogic.RepeatedDuidInsertedTwice | src/channels/admin/screens/FundingRoundLogic.ts:199-221 | a new duid given twice is inserted twice, because the set read at the start is not updated in the loop |
| FundingRoundLogic.FundingRoundStore.GetFundingRoundPhases | src/channels/admin/screens/FundingRoundLogic.ts:41-73 | the existing phase records, in the fixed order, and nothing changes |
| FundingRoundLogic.FundingRoundStore.SetFundingRoundPhase | src/channels/admin/screens/FundingRoundLogic.ts:75-112 | a missing round or an unknown phase throws before any write; `'round'` sets only the round's own dates; each other phase upserts only its own record |
| FundingRoundLogic.FundingRoundStore.CanChangeVote | src/channels/admin/screens/FundingRoundLogic.ts:396-411 | throws for a missing round; otherwise true exactly when the round is VOTING and `votingOpenUntil >= now` |
| FundingRoundLogic.FundingRoundStore.VoteGuardMatchesCanChangeVote | src/channels/admin/screens/FundingRoundLogic.ts:343-411 | the checks of the vote and unvote operations let a vote through exactly when `canChangeVote` is true |
| FundingRoundLogic.Latest | src/channels/admin/screens/FundingRoundLogic.ts:386-394 | the newest row of a voter on a round is one of theirs on that round, and there is none exactly when they have no row there |
| FundingRoundLogic.LatestAfterAppend | src/channels/admin/screens/FundingRoundLogic.ts:386-394 | a new row becomes the latest vote of its voter and round and leaves every other latest vote as it was |
| FundingRoundLogic.FundingRoundStore.LatestVote | src/channels/admin/screens/FundingRoundLogic.ts:386-394 | `getLatestVote` gives a row of that user on that round |
| FundingRoundLogic.FundingRoundStore.HasUserVoted | src/channels/admin/screens/FundingRoundLogic.ts:328-340 | `hasUserVotedOnFundingRound` is true exactly when some row of the user on the round exists |
| FundingRoundLogic.FundingRoundStore.UpsertApproval | src/channels/admin/screens/FundingRoundLogic.ts:357-361 | the upsert adds a row without a reason, which becomes the user's latest vote on the round; no other latest vote changes |
| FundingRoundLogic.FundingRoundStore.VoteFundingRound | src/channels/admin/screens/FundingRoundLogic.ts:343-362 | exactly when the guard passes, adds an approving row for the user and round, which becomes their latest vote, and no other latest vote changes; otherwise it throws and nothing changes |
| FundingRoundLogic.FundingRoundStore.UnvoteFundingRound | src/channels/admin/screens/FundingRoundLogic.ts:364-384 | exactly when the guard passes, adds a rejecting row for the user and round, which becomes their latest vote, and no other latest vote changes; otherwise it throws and nothing changes |
| FundingRoundLogic.FundingRoundStore.CreateVoteGuard | src/channels/admin/screens/FundingRoundLogic.ts:413-437 | "Voting is not allowed at this time" exactly when `canChangeVote` is false for an existing round |
| FundingRoundLogic.FundingRoundStore.CreateApproveVote | src/channels/admin/screens/FundingRoundLogic.ts:413-424 | exactly when the guard passes, adds an approving row with the reason, which becomes the latest vote of the user on the round; otherwise nothing changes |
| FundingRoundLogic.FundingRoundStore.CreateRejectVote | src/channels/admin/screens/FundingRoundLogic.ts:426-437 | exactly when the guard passes, adds a rejecting row with the reason, which becomes the latest vote of the user on the round; otherwise nothing changes |
| FundingRoundLogic.FundingRoundStore.CreateApproval | src/channels/admin/screens/FundingRoundLogic.ts:418-423 | the create adds a row with the reason, which becomes the user's latest vote on the round; no other latest vote changes |
| FundingRoundLogic.FundingRoundStore.SetFundingRoundCommittee | src/channels/admin/screens/FundingRoundLogic.ts:173-187 | the round's committee becomes exactly the given list; a missing round throws and nothing changes |
| FundingRoundLogic.FundingRoundStore.AppendFundingRoundCommitteeMembers | src/channels/admin/screens/FundingRoundLogic.ts:189-225 | existing members are kept, the duids absent from the set read at the start are appended in order, and the count returned is the number inserted |
| FundingRoundLogic.FundingRoundStore.GetActiveFundingRoundPhases | src/channels/admin/screens/FundingRoundLogic.ts:563-588 | throws for a missing round; otherwise the names of the phases whose windows contain `now`, in order |
| FundingRoundLogic.FundingRoundStore.GetActiveProposalsForPhase | src/channels/admin/screens/FundingRoundLogic.ts:590-609 | throws for a missing round or an unknown phase; otherwise the round's proposals with that phase's status |
| FundingRoundLogic.FundingRoundStore.IsProposalActiveForFundingRound | src/channels/admin/screens/FundingRoundLogic.ts:504-540 | the activity rule applied to the round's phase records |

## Left out

- I/O: Discord clients, channels, `renderToTextChannel`, embeds, colours, labels, texts and date formatting. A reply is modelled as its kind, its view, its controls with their tokens and disabled flags, or a notice.
- Collaborators: `ProposalLogic`, `ConsiderationLogic` and the Sequelize models are read as one `Backend` snapshot per handler. The functions behind them, their transactions and their SQL are not part of this model. A write either succeeds or throws, and `mutationFails`/`voteFails` selects which.
- Budgets: `parseFloat` and `isNaN` (floating point) are modelled as the flag `budgetParses` of the interaction. The budget value is not carried into mutations.
- The token codec `CustomIDOracle`, the `Action`/`Screen` base classes and `PaginationComponent` are not part of this model. A token is an Action id, an operation id and named arguments. `getNamedArgument` is a map lookup. `getCurrentPage` is the interaction's `page`. The row `getPaginationRow` builds is one `PaginationRow` control, and its buttons' tokens are not modelled. `'paginate'` is a `Paginate` hand-off whose effect is not modelled.
- `InteractionProperties` is not part of this model. Values exist exactly for a list selection, a modal can be shown for a button press or a list selection, and a modal submission is its own kind.
- `CONSIDERATION_CONSTANTS` is not part of this model. The consideration operation ids, argument names, vote options and the reason input are placeholder strings; only their being distinct matters.
- The `Promise.all` fan-out over the project options is modelled as sequential lookups in list order.
- `getEligibleFundingRoundsForProposal` is left out. Its SME-group limiter passes an `async` callback to `filter`, so it keeps every round; the model takes the eligible rounds as given.
- `countSMEMembersInDeliberationCommittee` and `getFundingRoundsWithUserProposals` are query pass-throughs and are read from the snapshot.
- The try/catch logging paths: a caught error becomes the handler's error reply, and logging is not modelled.
- src/bot.ts (client setup, login, channel lookup, the event handler) is not part of this model.
- `new Date()` is the integer `now`. Dates are integers and windows are compared inclusively.
- ManageDraftsAction.SelectDraftTrace: its contract states the guard and the shape only. The outcome and the forwarded ids are stated by `SelectDraftOutcome` and `SelectDraftForwardsId`.
- SelectProjectAction.ShowProjectsTrace: its contract states the guard, the shape, the token and the first query only. The pages are stated by `ShowProjectsOutcome`.
- SelectProjectAction.IntendedShowProjectsTrace: its contract states the guard, the shape and the token only. The pages are stated by `IntendedShowProjectsOutcome` and `IntendedShowProjectsPages`.
- ParseInt: leading whitespace and the `0x`/`0X` hexadecimal prefix, both of which `parseInt` accepts, are not modelled. The texts the handlers parse are token arguments and list values the bot wrote itself from integers.
- ParseNumText: ids are taken to be integers below 2^53, where `toString` writes every digit. Larger numbers, which `toString` writes in exponent form, are not modelled.
- FundingRoundLogic.FundingRoundStore.VoteFundingRound, UnvoteFundingRound, CreateApproveVote, CreateRejectVote, UpsertApproval, CreateApproval, LatestVote, HasUserVoted: the `FundingRoundApprovalVote` model is not part of this model. The table is read as having no unique key besides its generated id, the reading `getLatestVote`'s `createdAt DESC` ordering needs. So `upsert` and `create` both add a row, and the latest row per user and round is the vote that stands.
- AppendFundingRoundCommitteeMembers: a `create` that throws inside the loop is caught, logged and skipped, and is not counted. The model takes every `create` to succeed, so the count is the number of absent duids.
- ManageDraftsAction.AfterDelete: `deleteProposal` is not part of this model. Its effect is taken to remove the proposal from the drafts list and the lookup by id, and to change nothing else.
- ManageDraftsAction.SubmitEditTrace: its contract states the guards and the update. What follows an accepted edit is stated by `SubmitEditOutcome`.
- ManageDraftsAction.DeleteDraftTrace: its contract states the guard and the tokens. The lookup and the confirmation are stated by `DeleteDraftOutcome`.
- ManageDraftsAction.SubmitToFundingRoundTrace: its contract states the guard and the tokens. The lookup and the replies are stated by `SubmitToFundingRoundOutcome`.

## Findings

| source | as written | input that shows it | evidently intended | confidence | as-written member | corrected member |
|---|---|---|---|---|---|---|
| src/channels/propose/screens/ProposalHomeScreen.ts:198-200 | `proposals.filter(p => FundingRoundLogic.isProposalActiveForFundingRound(p, fundingRound))` passes an `async` function, so each callback value is a Promise, which is truthy | a cancelled proposal of the caller in an approved round whose consideration window contains `now`: it is listed | keep only the proposals whose activity check resolves to true | not executed | ManageSubmittedProposalsAction.ShowProposalsListsEveryProposal | ManageSubmittedProposalsAction.IntendedListsActiveProposals |
| src/channels/consider/screens/ConsiderationHomeScreen.ts:248-253 | `getTotalPages` reads `showUnvoted` from the inbound token. After "Evaluate New Proposals" the token is the vote-type button's, which has no such argument, so the pages of the voted-on list are counted while the unvoted list is shown | a round with 26 unvoted projects and none voted on: pressing "Evaluate New Proposals" shows page 1 of 0 and no pagination row | count the pages of the list that is shown, that is, of the `showUnvoted` passed in | not executed; assumes the `SHOW_UNVOTED` argument name differs from the vote-type and round argument names | SelectProjectAction.UnvotedListMiscountedAsWritten | SelectProjectAction.IntendedShowProjectsOutcome |
| src/channels/propose/screens/ProposalHomeScreen.ts:115-138 | `ManageSubmittedProposalsAction.handleOperation` has no `'paginate'` case, though the Action pages its round list | a caller with proposals in 26 rounds presses the next-page button of the round list: the invalid-operation reply | a `'paginate'` case that calls `handlePagination`, as `SelectProjectAction` has | not executed; assumes the pagination base class, which is not part of this model, gives its buttons the operation id `'paginate'` and leaves its routing to `handleOperation` | ManageSubmittedProposalsAction.PaginateRefusedAsWritten | ManageSubmittedProposalsAction.IntendedOperationTrace |
| src/channels/propose/screens/ProposalHomeScreen.ts:376-402 | `ManageDraftsAction.handleOperation` has no `'paginate'` case, though the Action pages its drafts list | a caller with 26 drafts presses the next-page button of the drafts list: the invalid-operation reply | a `'paginate'` case that calls `handlePagination`, as `SelectProjectAction` has | not executed; assumes the pagination base class, which is not part of this model, gives its buttons the operation id `'paginate'` and leaves its routing to `handleOperation` | ManageDraftsAction.PaginateRefusedAsWritten | ManageDraftsAction.IntendedOperationTrace |
