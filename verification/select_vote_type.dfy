/**
 * SelectVoteTypeAction: for a chosen round, the choice between voting on
 * proposals not yet voted on and changing an earlier vote, and the routing
 * of that choice to the project list. It has no button of its own.
 */
module SelectVoteTypeAction {
  import opened Wrappers
  import opened JsValues
  import opened Routing
  import opened Dispatch
  import opened ConsiderationHome
  import SelectProject = SelectProjectAction
  import opened Pagination

  /** The cases of `handleOperation`. */
  datatype Handler =
    | HandleShowVoteTypes
    | HandleSelectVoteType
    | HandleInvalidOperation

  function OpId(h: Handler): string
    requires h != HandleInvalidOperation
  {
    match h
    case HandleShowVoteTypes => OpShowVoteTypes
    case HandleSelectVoteType => OpSelectVoteType
  }

  /** The switch: the two listed ids reach their case, any other id the invalid-operation handler. */
  function Route(op: string): (h: Handler)
    ensures h == HandleInvalidOperation <==> op !in Operations(SelectVoteTypeID)
    ensures h != HandleInvalidOperation ==> OpId(h) == op
  {
    if op == OpShowVoteTypes then HandleShowVoteTypes
    else if op == OpSelectVoteType then HandleSelectVoteType
    else HandleInvalidOperation
  }

  lemma RouteInvertsOpId(h: Handler)
    requires h != HandleInvalidOperation
    ensures Route(OpId(h)) == h
  {
  }

  function Tok(op: string, args: seq<(string, string)>): Token
  {
    Token(SelectVoteTypeID, op, args)
  }

  /** `getComponent` always throws: the Action is only reached through the round list. */
  function Component(): (r: Result<Token, Escape>)
    ensures r.Failure? && r.error == NoStandaloneComponent
  {
    Failure(NoStandaloneComponent)
  }

  /** A vote-type button: the vote type, then the round as text. */
  function VoteTypeToken(voteType: string, fundingRoundId: Num): Token
  {
    Tok(OpSelectVoteType, [(KeyVoteType, voteType), (KeyFundingRoundId, NumText(fundingRoundId))])
  }

  /**
   * The two buttons: "Evaluate New Proposals", disabled when nothing is
   * left to vote on, and "Update Previous Vote", disabled when the caller
   * has voted on nothing in the round.
   */
  function VoteTypeReply(be: Backend, fundingRoundId: Num): (r: Reply)
    ensures r.Render? && r.view == VoteTypeChoice(UnvotedIn(be, fundingRoundId))
    ensures |r.rows| == 1 && |r.rows[0]| == 2 && r.rows[0][0].Button? && r.rows[0][1].Button?
    ensures r.rows[0][0].token == VoteTypeToken(VoteTypeNew, fundingRoundId)
    ensures r.rows[0][0].disabled <==> UnvotedIn(be, fundingRoundId) == 0
    ensures r.rows[0][1].token == VoteTypeToken(VoteTypeChange, fundingRoundId)
    ensures r.rows[0][1].disabled <==> !HasVotedIn(be, fundingRoundId)
  {
    var count := UnvotedIn(be, fundingRoundId);
    var evaluate := Button(VoteTypeToken(VoteTypeNew, fundingRoundId), count == 0);
    var update := Button(VoteTypeToken(VoteTypeChange, fundingRoundId), !HasVotedIn(be, fundingRoundId));
    Render(Respond, VoteTypeChoice(count), [[evaluate, update]])
  }

  /**
   * `handleShowVoteTypes`: for a found round, the vote-type choice. Reached
   * without arguments, the destructuring of `args` throws.
   */
  function ShowVoteTypesTrace(ix: Interaction, be: Backend, args: Option<Num>): (t: Trace)
    ensures Handled(t) && NoMutation(t)
    ensures args.None? <==> t == [Raise(ArgsMissing)]
    ensures args.Some? ==> t[0] == Query(RoundById(args.value))
    ensures args.Some? && !RoundExists(be, args.value) ==> t == [Query(RoundById(args.value)), Send(Notice(FundingRoundNotFound))]
    ensures args.Some? && RoundExists(be, args.value) ==>
              t == [Query(RoundById(args.value)), Query(UnvotedCount(args.value)), Query(HasVotedProposals(args.value)),
                    Send(VoteTypeReply(be, args.value))]
    ensures forall tok :: tok in SentTokens(t) ==> Route(tok.op) == HandleSelectVoteType
  {
    if args.None? then
      CallsThenRaise(NoCalls, ArgsMissing);
      [Raise(ArgsMissing)]
    else
      var rid := args.value;
      if !RoundExists(be, rid) then
        var calls: Trace := [Query(RoundById(rid))];
        CallsThenReply(calls, Notice(FundingRoundNotFound));
        calls + [Send(Notice(FundingRoundNotFound))]
      else
        var calls: Trace := [Query(RoundById(rid)), Query(UnvotedCount(rid)), Query(HasVotedProposals(rid))];
        var reply := VoteTypeReply(be, rid);
        TokensOfTwo(Respond, VoteTypeChoice(UnvotedIn(be, rid)), reply.rows[0][0], reply.rows[0][1]);
        CallsThenReply(calls, reply);
        calls + [Send(reply)]
  }

  /**
   * `handleSelectVoteType`: without a round id in the token an error before
   * any routing; `'new'` lists the projects still unvoted, `'change'` those
   * voted on, in the parsed round; any other vote type is refused.
   */
  function SelectVoteTypeTrace(ix: Interaction, be: Backend): (t: Trace)
    ensures Handled(t) && NoMutation(t)
    ensures !Present(Arg(ix, KeyFundingRoundId)) ==> t == [Send(Notice(FundingRoundIdNotProvided))]
    ensures Present(Arg(ix, KeyFundingRoundId)) && VoteTypeRoute(Arg(ix, KeyVoteType)).None? ==>
              t == [Send(Notice(InvalidVoteType))]
    ensures Present(Arg(ix, KeyFundingRoundId)) && Arg(ix, KeyVoteType) == Some(VoteTypeNew) ==>
              t == SelectProject.ShowProjectsTrace(ix, be, Some(SelectProject.ProjectArgs(ParseInt(Arg(ix, KeyFundingRoundId).value), true)))
    ensures Present(Arg(ix, KeyFundingRoundId)) && Arg(ix, KeyVoteType) == Some(VoteTypeChange) ==>
              t == SelectProject.ShowProjectsTrace(ix, be, Some(SelectProject.ProjectArgs(ParseInt(Arg(ix, KeyFundingRoundId).value), false)))
  {
    var voteType := Arg(ix, KeyVoteType);
    var raw := Arg(ix, KeyFundingRoundId);
    if !Present(raw) then
      CallsThenReply(NoCalls, Notice(FundingRoundIdNotProvided));
      [Send(Notice(FundingRoundIdNotProvided))]
    else
      var fundingRoundId := ParseInt(raw.value);
      match VoteTypeRoute(voteType)
      case Some(showUnvoted) =>
        SelectProject.OperationTrace(ix, be, OpShowProjects, Some(SelectProject.ProjectArgs(fundingRoundId, showUnvoted)))
      case None =>
        CallsThenReply(NoCalls, Notice(InvalidVoteType));
        [Send(Notice(InvalidVoteType))]
  }

  /**
   * Pressing a vote-type button of a shown round lists that round's
   * projects, the unvoted ones for "Evaluate New Proposals" and the voted
   * ones for "Update Previous Vote". The button carries no `showUnvoted`
   * argument.
   */
  lemma VoteTypeButtonListsProjects(be: Backend, rid: Num, isNew: bool, caller: string, later: Backend)
    ensures var tok := VoteTypeToken(if isNew then VoteTypeNew else VoteTypeChange, rid);
            var press := Pressed(tok, caller);
            && Arg(press, KeyShowUnvoted).None?
            && SelectProject.RoundOf(press) == rid
            && SelectVoteTypeTrace(press, later) == SelectProject.ShowProjectsTrace(press, later, Some(SelectProject.ProjectArgs(rid, isNew)))
  {
    var voteType := if isNew then VoteTypeNew else VoteTypeChange;
    var tok := VoteTypeToken(voteType, rid);
    ArgsOfTwo(SelectVoteTypeID, OpSelectVoteType, KeyVoteType, voteType, KeyFundingRoundId, NumText(rid));
    assert KeyVoteType[0] != KeyShowUnvoted[0] && KeyFundingRoundId[0] != KeyShowUnvoted[0];
    assert tok.args[1..] == [(KeyFundingRoundId, NumText(rid))];
    assert tok.args[1..][1..] == [];
    assert ArgIn(tok.args[1..], KeyShowUnvoted) == None;
    ParseNumText(rid);
  }

  /**
   * As written, the list a vote-type button opens is counted from the
   * projects already voted on, whichever button it is: for "Evaluate New
   * Proposals" the page count and the pagination row ignore the unvoted
   * projects that are listed.
   */
  lemma VoteTypeButtonCountsVotedList(be: Backend, rid: Num, isNew: bool, caller: string, later: Backend)
    ensures var tok := VoteTypeToken(if isNew then VoteTypeNew else VoteTypeChange, rid);
            var press := Pressed(tok, caller);
            var items := ItemsForPage(ProjectsIn(later, rid, isNew), press.page);
            var voted := ProjectsIn(later, rid, false);
            var r := FinalReply(SelectVoteTypeTrace(press, later));
            && (items == [] <==> r == Some(Notice(NoEligibleProjects)))
            && (items != [] ==> r == Some(SelectProject.ProjectListReply(SelectProject.ProjectArgs(rid, isNew), items, press.page, TotalPages(|voted|))))
            && (items != [] ==> (PaginationShown(r.value) <==> |voted| > PageSize))
  {
    var tok := VoteTypeToken(if isNew then VoteTypeNew else VoteTypeChange, rid);
    var press := Pressed(tok, caller);
    var a := SelectProject.ProjectArgs(rid, isNew);
    VoteTypeButtonListsProjects(be, rid, isNew, caller, later);
    SelectProject.ShowProjectsOutcome(press, later, a);
    assert !SelectProject.TokenShowUnvoted(press);
    assert SelectProject.Listed(press, later, a) == ProjectsIn(later, rid, isNew);
  }

  /** `handleOperation`; `args` is the round a chaining Action passes, None for a token. */
  function OperationTrace(ix: Interaction, be: Backend, op: string, args: Option<Num>): (t: Trace)
    ensures Route(op) == HandleInvalidOperation <==> t == [Send(InvalidOperation(op))]
    ensures Route(op) != HandleInvalidOperation ==> Handled(t)
  {
    match Route(op)
    case HandleShowVoteTypes => ShowVoteTypesTrace(ix, be, args)
    case HandleSelectVoteType => SelectVoteTypeTrace(ix, be)
    case HandleInvalidOperation => [Send(InvalidOperation(op))]
  }

  method ShowVoteTypes(ix: Interaction, be: Backend, args: Option<Num>) returns (trace: Trace)
    ensures trace == ShowVoteTypesTrace(ix, be, args)
  {
    if args.None? {
      return [Raise(ArgsMissing)];
    }
    var fundingRoundId := args.value;
    trace := [Query(RoundById(fundingRoundId))];
    if !RoundExists(be, fundingRoundId) {
      return trace + [Send(Notice(FundingRoundNotFound))];
    }
    trace := trace + [Query(UnvotedCount(fundingRoundId))];
    var unvotedProposalsCount := UnvotedIn(be, fundingRoundId);
    trace := trace + [Query(HasVotedProposals(fundingRoundId))];
    var hasVotedProposals := HasVotedIn(be, fundingRoundId);
    var evaluateNewProposalsButton := Button(VoteTypeToken(VoteTypeNew, fundingRoundId), unvotedProposalsCount == 0);
    var updatePreviousVoteButton := Button(VoteTypeToken(VoteTypeChange, fundingRoundId), !hasVotedProposals);
    trace := trace + [Send(Render(Respond, VoteTypeChoice(unvotedProposalsCount), [[evaluateNewProposalsButton, updatePreviousVoteButton]]))];
  }

  method SelectVoteType(ix: Interaction, be: Backend) returns (trace: Trace)
    ensures trace == SelectVoteTypeTrace(ix, be)
  {
    var voteType := Arg(ix, KeyVoteType);
    var fundingRoundIdRaw := Arg(ix, KeyFundingRoundId);
    if !Present(fundingRoundIdRaw) {
      return [Send(Notice(FundingRoundIdNotProvided))];
    }
    var fundingRoundId := ParseInt(fundingRoundIdRaw.value);
    if voteType == Some(VoteTypeNew) {
      trace := SelectProject.HandleOperation(ix, be, OpShowProjects, Some(SelectProject.ProjectArgs(fundingRoundId, true)));
    } else if voteType == Some(VoteTypeChange) {
      trace := SelectProject.HandleOperation(ix, be, OpShowProjects, Some(SelectProject.ProjectArgs(fundingRoundId, false)));
    } else {
      trace := [Send(Notice(InvalidVoteType))];
    }
  }

  method HandleOperation(ix: Interaction, be: Backend, operationId: string, args: Option<Num>) returns (trace: Trace)
    ensures trace == OperationTrace(ix, be, operationId, args)
  {
    match Route(operationId)
    case HandleShowVoteTypes => trace := ShowVoteTypes(ix, be, args);
    case HandleSelectVoteType => trace := SelectVoteType(ix, be);
    case HandleInvalidOperation => trace := [Send(InvalidOperation(operationId))];
  }
}
