/**
 * CreateNewProposalAction: a modal form for a new draft. The URI typed in
 * is normalised before it is checked, and the draft is created only once
 * the budget parses and the URI points at the Mina forum.
 */
module CreateNewProposalAction {
  import opened Wrappers
  import opened JsValues
  import opened Routing
  import opened Dispatch
  import opened ProposalHome
  import ManageDraftsAction

  /** The cases of `handleOperation`. */
  datatype Handler =
    | HandleShowCreateForm
    | HandleSubmitCreateForm
    | HandleInvalidOperation

  function OpId(h: Handler): string
    requires h != HandleInvalidOperation
  {
    match h
    case HandleShowCreateForm => OpShowCreateForm
    case HandleSubmitCreateForm => OpSubmitCreateForm
  }

  /** The switch: the two listed ids reach their case, any other id the invalid-operation handler. */
  function Route(op: string): (h: Handler)
    ensures h == HandleInvalidOperation <==> op !in Operations(CreateNewProposalID)
    ensures h != HandleInvalidOperation ==> OpId(h) == op
  {
    if op == OpShowCreateForm then HandleShowCreateForm
    else if op == OpSubmitCreateForm then HandleSubmitCreateForm
    else HandleInvalidOperation
  }

  lemma RouteInvertsOpId(h: Handler)
    requires h != HandleInvalidOperation
    ensures Route(OpId(h)) == h
  {
  }

  function Tok(op: string, args: seq<(string, string)>): Token
  {
    Token(CreateNewProposalID, op, args)
  }

  /** `getComponent`: the home-screen button opens the creation form. */
  function Component(): (t: Token)
    ensures Routes(t) && Route(t.op) == HandleShowCreateForm
  {
    Tok(OpShowCreateForm, [])
  }

  /** `handleShowCreateForm`: the form, when the interaction can open one; nothing is looked up. */
  function ShowCreateFormTrace(ix: Interaction): (t: Trace)
    ensures Handled(t) && NoMutation(t)
    ensures forall i :: 0 <= i < |t| ==> !t[i].Query?
    ensures !CanShowModal(ix) <==> t == [Send(Notice(ModalsNotSupported))]
    ensures forall tok :: tok in SentTokens(t) ==> tok.action == CreateNewProposalID && Route(tok.op) == HandleSubmitCreateForm
  {
    if !CanShowModal(ix) then
      CallsThenReply(NoCalls, Notice(ModalsNotSupported));
      [Send(Notice(ModalsNotSupported))]
    else
      CallsThenReply(NoCalls, Modal(Tok(OpSubmitCreateForm, [])));
      [Send(Modal(Tok(OpSubmitCreateForm, [])))]
  }

  /** The three inputs of the submitted form are all there. */
  predicate FieldsPresent(ix: Interaction)
  {
    InputName in ix.fields && InputBudget in ix.fields && InputUri in ix.fields
  }

  /** The form passed every check `handleSubmitCreateForm` makes before creating the draft. */
  predicate CreateAccepted(ix: Interaction)
  {
    IsModalSubmit(ix) && FieldsPresent(ix) && ix.budgetParses && UriAccepted(NormalizeUri(ix.fields[InputUri]))
  }

  /** The button of the success reply: the caller's drafts, replacing this message. */
  function ManageDraftsButton(): Control
  {
    Button(Token(ManageDraftsID, OpShowDrafts, [(KeyUdt, "1")]), false)
  }

  /**
   * `handleSubmitCreateForm`: a draft is created only for an accepted form,
   * with the normalised URI and the caller as proposer; the reply then
   * offers the caller's drafts.
   */
  function SubmitCreateFormTrace(ix: Interaction, be: Backend): (t: Trace)
    ensures Handled(t)
    ensures !IsModalSubmit(ix) ==> t == [Send(Notice(InvalidInteractionType))]
    ensures IsModalSubmit(ix) && InputName !in ix.fields ==> t == [Raise(MissingField(InputName))]
    ensures IsModalSubmit(ix) && FieldsPresent(ix) && !ix.budgetParses ==> t == [Send(Notice(InvalidBudget))]
    ensures IsModalSubmit(ix) && FieldsPresent(ix) && ix.budgetParses && !UriAccepted(NormalizeUri(ix.fields[InputUri])) ==>
              t == [Send(Notice(InvalidUrl))]
    ensures forall i :: 0 <= i < |t| && t[i].Mutate? ==>
              && CreateAccepted(ix) && i == 0
              && t[i].mutation == CreateDraft(ix.fields[InputName], NormalizeUri(ix.fields[InputUri]), ix.caller)
    ensures CreateAccepted(ix) ==> |t| == 2 && t[0].Mutate?
    ensures CreateAccepted(ix) && be.mutationFails ==> t[1] == Send(Notice(CreateFailed))
    ensures CreateAccepted(ix) && !be.mutationFails ==> t[1] == Send(Render(Respond, ProposalCreated, [[ManageDraftsButton()]]))
  {
    if !IsModalSubmit(ix) then
      CallsThenReply(NoCalls, Notice(InvalidInteractionType));
      [Send(Notice(InvalidInteractionType))]
    else if InputName !in ix.fields then
      CallsThenRaise(NoCalls, MissingField(InputName));
      [Raise(MissingField(InputName))]
    else if InputBudget !in ix.fields then
      CallsThenRaise(NoCalls, MissingField(InputBudget));
      [Raise(MissingField(InputBudget))]
    else if InputUri !in ix.fields then
      CallsThenRaise(NoCalls, MissingField(InputUri));
      [Raise(MissingField(InputUri))]
    else
      var uri := NormalizeUri(ix.fields[InputUri]);
      if !ix.budgetParses then
        CallsThenReply(NoCalls, Notice(InvalidBudget));
        [Send(Notice(InvalidBudget))]
      else if !UriAccepted(uri) then
        CallsThenReply(NoCalls, Notice(InvalidUrl));
        [Send(Notice(InvalidUrl))]
      else
        var create := Mutate(CreateDraft(ix.fields[InputName], uri, ix.caller));
        if be.mutationFails then
          CallsThenReply([create], Notice(CreateFailed));
          [create, Send(Notice(CreateFailed))]
        else
          var reply := Render(Respond, ProposalCreated, [[ManageDraftsButton()]]);
          TokensOfOne(Respond, ProposalCreated, ManageDraftsButton());
          CallsThenReply([create], reply);
          [create, Send(reply)]
  }

  /**
   * A forum link typed without a scheme, or with `http://`, is repaired
   * and accepted: with a parsing budget the draft is created with the
   * `https://` form of the link.
   */
  lemma CreateRepairsForumLinks(ix: Interaction, be: Backend)
    requires IsModalSubmit(ix) && FieldsPresent(ix) && ix.budgetParses
    requires StartsWith(ix.fields[InputUri], ForumPath) || StartsWith(ix.fields[InputUri], Http + ForumHost)
    ensures var t := SubmitCreateFormTrace(ix, be);
            && t[0] == Mutate(CreateDraft(ix.fields[InputName], NormalizeUri(ix.fields[InputUri]), ix.caller))
            && UriAccepted(NormalizeUri(ix.fields[InputUri]))
  {
    var uri := ix.fields[InputUri];
    if StartsWith(uri, ForumPath) {
      NormalizeUriRepairsForumPath(uri);
    } else {
      NormalizeUriRepairsHttpForumLink(uri);
    }
  }

  /**
   * The edit form does not normalise: the same form data naming a draft
   * and a scheme-less forum link is rejected by `handleSubmitEdit` before
   * any update, while `handleSubmitCreateForm` creates the draft.
   */
  lemma EditRejectsWhatCreateRepairs(ix: Interaction, be: Backend)
    requires IsModalSubmit(ix) && FieldsPresent(ix) && ix.budgetParses
    requires Present(Arg(ix, KeyProposalId))
    requires StartsWith(ix.fields[InputUri], ForumPath)
    ensures ManageDraftsAction.SubmitEditTrace(ix, be) == [Send(Notice(InvalidUri))]
    ensures SubmitCreateFormTrace(ix, be)[0].Mutate?
  {
    var uri := ix.fields[InputUri];
    assert uri[0] == 'f';
    assert !UriAccepted(uri) by {
      assert ForumPrefix[0] == 'h';
    }
    NormalizeUriRepairsForumPath(uri);
  }

  method ShowCreateForm(ix: Interaction) returns (trace: Trace)
    ensures trace == ShowCreateFormTrace(ix)
  {
    if !CanShowModal(ix) {
      return [Send(Notice(ModalsNotSupported))];
    }
    var modal := Tok(OpSubmitCreateForm, []);
    trace := [Send(Modal(modal))];
  }

  method SubmitCreateForm(ix: Interaction, be: Backend) returns (trace: Trace)
    ensures trace == SubmitCreateFormTrace(ix, be)
  {
    if !IsModalSubmit(ix) {
      return [Send(Notice(InvalidInteractionType))];
    }
    if InputName !in ix.fields {
      return [Raise(MissingField(InputName))];
    }
    var name := ix.fields[InputName];
    if InputBudget !in ix.fields {
      return [Raise(MissingField(InputBudget))];
    }
    if InputUri !in ix.fields {
      return [Raise(MissingField(InputUri))];
    }
    var uri := ix.fields[InputUri];
    if StartsWith(uri, Http) {
      uri := Https + uri[|Http|..];
    } else if StartsWith(uri, ForumPath) {
      uri := Https + uri;
    }
    if !ix.budgetParses {
      return [Send(Notice(InvalidBudget))];
    }
    if !StartsWith(uri, ForumPrefix) {
      return [Send(Notice(InvalidUrl))];
    }
    trace := [Mutate(CreateDraft(name, uri, ix.caller))];
    if be.mutationFails {
      return trace + [Send(Notice(CreateFailed))];
    }
    var manageButton := Button(Token(ManageDraftsID, OpShowDrafts, [(KeyUdt, "1")]), false);
    trace := trace + [Send(Render(Respond, ProposalCreated, [[manageButton]]))];
  }

  method HandleOperation(ix: Interaction, be: Backend, operationId: string) returns (trace: Trace)
    ensures trace == OperationTrace(ix, be, operationId)
  {
    match Route(operationId)
    case HandleShowCreateForm => trace := ShowCreateForm(ix);
    case HandleSubmitCreateForm => trace := SubmitCreateForm(ix, be);
    case HandleInvalidOperation => trace := [Send(InvalidOperation(operationId))];
  }

  /** `handleOperation` */
  function OperationTrace(ix: Interaction, be: Backend, op: string): (t: Trace)
    ensures Route(op) == HandleInvalidOperation <==> t == [Send(InvalidOperation(op))]
    ensures Route(op) != HandleInvalidOperation ==> Handled(t)
  {
    match Route(op)
    case HandleShowCreateForm => ShowCreateFormTrace(ix)
    case HandleSubmitCreateForm => SubmitCreateFormTrace(ix, be)
    case HandleInvalidOperation => [Send(InvalidOperation(op))]
  }
}
