/**
 * SelectProjectAction: one page of the projects a subject matter expert may
 * vote on in a round, as a select menu, and the hand-off of the chosen
 * project to the vote options. It is a paginated Action: `'paginate'` is
 * handed to the pagination base class.
 */
module SelectProjectAction {
  import opened Wrappers
  import opened JsValues
  import opened Routing
  import opened Dispatch
  import opened Pagination
  import opened ConsiderationHome
  import SmeVote = SmeConsiderationVoteAction

  /** The cases of `handleOperation`. */
  datatype Handler =
    | HandleShowProjects
    | HandleSelectProject
    | HandlePagination
    | HandleInvalidOperation

  function OpId(h: Handler): string
    requires h != HandleInvalidOperation
  {
    match h
    case HandleShowProjects => OpShowProjects
    case HandleSelectProject => OpSelectProject
    case HandlePagination => OpPaginate
  }

  /** The switch: the two listed ids and `'paginate'` reach their case, any other id the invalid-operation handler. */
  function Route(op: string): (h: Handler)
    ensures h == HandleInvalidOperation <==> op !in Operations(SelectProjectID)
    ensures h != HandleInvalidOperation ==> OpId(h) == op
  {
    if op == OpShowProjects then HandleShowProjects
    else if op == OpSelectProject then HandleSelectProject
    else if op == OpPaginate then HandlePagination
    else HandleInvalidOperation
  }

  lemma RouteInvertsOpId(h: Handler)
    requires h != HandleInvalidOperation
    ensures Route(OpId(h)) == h
  {
  }

  function Tok(op: string, args: seq<(string, string)>): Token
  {
    Token(SelectProjectID, op, args)
  }

  /**
   * `getComponent`: a button for `SHOW_PROJECTS` carrying round and flag as
   * token arguments. The handler reads them from its `args` parameter, so a
   * press of this button reaches `ShowProjectsTrace` without arguments.
   */
  function Component(fundingRoundId: Num, showUnvoted: bool): (t: Token)
    ensures Routes(t) && Route(t.op) == HandleShowProjects
    ensures ParseInt(OrEmpty(TokenArg(t, KeyFundingRoundId))) == fundingRoundId
    ensures TokenArg(t, KeyShowUnvoted) == Some(BoolText(showUnvoted))
  {
    ArgsOfTwo(SelectProjectID, OpShowProjects, KeyFundingRoundId, NumText(fundingRoundId), KeyShowUnvoted, BoolText(showUnvoted));
    ParseNumText(fundingRoundId);
    Tok(OpShowProjects, [(KeyFundingRoundId, NumText(fundingRoundId)), (KeyShowUnvoted, BoolText(showUnvoted))])
  }

  /** The arguments a vote-type choice passes to `SHOW_PROJECTS`. */
  datatype ProjectArgs = ProjectArgs(fundingRoundId: Num, showUnvoted: bool)

  /** The token of the project select menu: round and flag as passed in. */
  function ListToken(a: ProjectArgs): Token
  {
    Tok(OpSelectProject, [(KeyFundingRoundId, NumText(a.fundingRoundId)), (KeyShowUnvoted, BoolText(a.showUnvoted))])
  }

  /** The list reply: the menu of this page's projects, and the pagination row past one page. */
  function ProjectListReply(a: ProjectArgs, items: seq<int>, page: nat, totalPages: nat): Reply
  {
    Render(Respond, ProjectList(page, totalPages), ListRows(Select(ListToken(a), IdTexts(items)), page, totalPages))
  }

  /** The round whose projects are listed: the one in the inbound token, parsed. */
  function RoundOf(ix: Interaction): Num
  {
    ArgNum(ix, KeyFundingRoundId)
  }

  /** The projects listed: those the resolved `showUnvoted` flag selects. */
  function Listed(ix: Interaction, be: Backend, a: ProjectArgs): seq<int>
  {
    ProjectsIn(be, RoundOf(ix), ResolveShowUnvoted(Some(a.showUnvoted), Arg(ix, KeyShowUnvoted)))
  }

  /**
   * The body of `handleShowProjects` once `args` is there, with the page
   * count taken from the list `countFlag` selects: the two project queries,
   * then either the empty-page message or one vote lookup per shown project
   * and the list.
   */
  function ProjectListTrace(ix: Interaction, be: Backend, a: ProjectArgs, countFlag: bool): (t: Trace)
    ensures Handled(t) && NoMutation(t)
  {
    var rid := RoundOf(ix);
    var itemsFlag := ResolveShowUnvoted(Some(a.showUnvoted), Arg(ix, KeyShowUnvoted));
    var calls: Trace := [Query(EligibleProjects(rid, countFlag)), Query(EligibleProjects(rid, itemsFlag))];
    PageTrace(calls, a, ItemsForPage(ProjectsIn(be, rid, itemsFlag), ix.page), ix.page, TotalPages(|ProjectsIn(be, rid, countFlag)|))
  }

  /** After the project queries: the empty-page message, or one vote lookup per shown project and the list. */
  function PageTrace(calls: Trace, a: ProjectArgs, items: seq<int>, page: nat, totalPages: nat): (t: Trace)
    requires forall i :: 0 <= i < |calls| ==> calls[i].Query?
    ensures Handled(t) && NoMutation(t)
    ensures SentTokens(t) <= {ListToken(a)}
  {
    if items == [] then
      CallsThenReply(calls, Notice(NoEligibleProjects));
      calls + [Send(Notice(NoEligibleProjects))]
    else
      var reply := ProjectListReply(a, items, page, totalPages);
      ListReplyRoutes(a, items, page, totalPages);
      QueriesOnly(calls, VoteLookups(items));
      CallsThenReply(calls + VoteLookups(items), reply);
      calls + VoteLookups(items) + [Send(reply)]
  }

  /** The list reply hands out the menu token only, and that token routes. */
  lemma ListReplyRoutes(a: ProjectArgs, items: seq<int>, page: nat, totalPages: nat)
    ensures ReplyTokens(ProjectListReply(a, items, page, totalPages)) == {ListToken(a)}
    ensures Routes(ListToken(a))
    ensures !ProjectListReply(a, items, page, totalPages).InvalidOperation?
  {
    TokensOfList(Respond, ProjectList(page, totalPages), Select(ListToken(a), IdTexts(items)), page, totalPages);
  }

  /** Two runs of queries are a run of queries. */
  lemma QueriesOnly(a: Trace, b: Trace)
    requires forall i :: 0 <= i < |a| ==> a[i].Query?
    requires forall i :: 0 <= i < |b| ==> b[i].Query?
    ensures forall i :: 0 <= i < |a + b| ==> (a + b)[i].Query?
  {
  }

  lemma PageTraceOutcome(calls: Trace, a: ProjectArgs, items: seq<int>, page: nat, totalPages: nat)
    requires forall i :: 0 <= i < |calls| ==> calls[i].Query?
    ensures var t := PageTrace(calls, a, items, page, totalPages);
            && |t| > |calls| && t[..|calls|] == calls
            && (items == [] <==> FinalReply(t) == Some(Notice(NoEligibleProjects)))
            && (items != [] ==> FinalReply(t) == Some(ProjectListReply(a, items, page, totalPages)))
  {
    var t := PageTrace(calls, a, items, page, totalPages);
    if items != [] {
      assert t == calls + (VoteLookups(items) + [Send(ProjectListReply(a, items, page, totalPages))]);
    }
  }

  /**
   * What the project list does: the two project queries come first; the
   * empty-page message exactly when the page holds no listed project;
   * otherwise the list of that page's projects with the page count taken
   * from the list `countFlag` selects.
   */
  lemma ProjectListOutcome(ix: Interaction, be: Backend, a: ProjectArgs, countFlag: bool)
    ensures var t := ProjectListTrace(ix, be, a, countFlag);
            && |t| >= 3
            && t[..2] == [Query(EligibleProjects(RoundOf(ix), countFlag)),
                          Query(EligibleProjects(RoundOf(ix), ResolveShowUnvoted(Some(a.showUnvoted), Arg(ix, KeyShowUnvoted))))]
            && (ItemsForPage(Listed(ix, be, a), ix.page) == [] <==> FinalReply(t) == Some(Notice(NoEligibleProjects)))
            && (ItemsForPage(Listed(ix, be, a), ix.page) != [] ==>
                  FinalReply(t) == Some(ProjectListReply(a, ItemsForPage(Listed(ix, be, a), ix.page), ix.page,
                                                         TotalPages(|ProjectsIn(be, RoundOf(ix), countFlag)|))))
  {
    var rid := RoundOf(ix);
    var itemsFlag := ResolveShowUnvoted(Some(a.showUnvoted), Arg(ix, KeyShowUnvoted));
    var items := ItemsForPage(ProjectsIn(be, rid, itemsFlag), ix.page);
    var calls: Trace := [Query(EligibleProjects(rid, countFlag)), Query(EligibleProjects(rid, itemsFlag))];
    var totalPages := TotalPages(|ProjectsIn(be, rid, countFlag)|);
    PageTraceOutcome(calls, a, items, ix.page, totalPages);
  }

  /** The flag `getTotalPages` counts with: the inbound token's `showUnvoted` argument is `'true'`. */
  predicate TokenShowUnvoted(ix: Interaction)
  {
    Arg(ix, KeyShowUnvoted) == Some("true")
  }

  /**
   * `handleShowProjects` as written: reached without arguments, the
   * destructuring of `args` throws; otherwise page `ix.page` of the projects
   * the `showUnvoted` passed in selects, with the page count `getTotalPages`
   * takes from the list the inbound token's flag selects.
   */
  function ShowProjectsTrace(ix: Interaction, be: Backend, args: Option<ProjectArgs>): (t: Trace)
    ensures Handled(t) && NoMutation(t)
    ensures args.None? <==> t == [Raise(ArgsMissing)]
    ensures args.Some? ==> SentTokens(t) <= {ListToken(args.value)}
    ensures args.Some? ==> t[0] == Query(EligibleProjects(RoundOf(ix), TokenShowUnvoted(ix)))
  {
    if args.None? then
      CallsThenRaise(NoCalls, ArgsMissing);
      [Raise(ArgsMissing)]
    else
      ProjectListOutcome(ix, be, args.value, TokenShowUnvoted(ix));
      ProjectListTrace(ix, be, args.value, TokenShowUnvoted(ix))
  }

  /**
   * The list shown as written: the empty-page message exactly when page
   * `ix.page` holds none of the listed projects, and otherwise those of its
   * projects, with the page count of the list the token's flag selects; the
   * pagination row is shown exactly when that list has more than 25 projects.
   */
  lemma ShowProjectsOutcome(ix: Interaction, be: Backend, a: ProjectArgs)
    ensures var t := ShowProjectsTrace(ix, be, Some(a));
            var items := ItemsForPage(Listed(ix, be, a), ix.page);
            var counted := ProjectsIn(be, RoundOf(ix), TokenShowUnvoted(ix));
            && (items == [] <==> FinalReply(t) == Some(Notice(NoEligibleProjects)))
            && (items != [] ==> FinalReply(t) == Some(ProjectListReply(a, items, ix.page, TotalPages(|counted|))))
            && (items != [] ==> (PaginationShown(FinalReply(t).value) <==> |counted| > PageSize))
  {
    var items := ItemsForPage(Listed(ix, be, a), ix.page);
    var counted := ProjectsIn(be, RoundOf(ix), TokenShowUnvoted(ix));
    ProjectListOutcome(ix, be, a, TokenShowUnvoted(ix));
    PaginationRowIffOverflow(|counted|);
    ListRowsPagination(Respond, ProjectList(ix.page, TotalPages(|counted|)), Select(ListToken(a), IdTexts(items)), ix.page, TotalPages(|counted|));
  }

  /**
   * `handleShowProjects` as evidently intended: the page count is taken
   * from the list that is shown, the one the `showUnvoted` passed in selects.
   */
  function IntendedShowProjectsTrace(ix: Interaction, be: Backend, args: Option<ProjectArgs>): (t: Trace)
    ensures Handled(t) && NoMutation(t)
    ensures args.None? <==> t == [Raise(ArgsMissing)]
    ensures args.Some? ==> SentTokens(t) <= {ListToken(args.value)}
  {
    if args.None? then
      CallsThenRaise(NoCalls, ArgsMissing);
      [Raise(ArgsMissing)]
    else
      var a := args.value;
      ProjectListTrace(ix, be, a, a.showUnvoted)
  }

  /** The two agree whenever the token's flag is the one passed in, as on a press of the project menu or the pagination row. */
  lemma AsWrittenAgreesWhenFlagsAgree(ix: Interaction, be: Backend, a: ProjectArgs)
    requires TokenShowUnvoted(ix) == a.showUnvoted
    ensures ShowProjectsTrace(ix, be, Some(a)) == IntendedShowProjectsTrace(ix, be, Some(a))
  {
  }

  /**
   * The list shown as intended: the empty-page message exactly when page
   * `ix.page` holds none of the listed projects, and otherwise those of its
   * projects, with the page count of that same list.
   */
  lemma IntendedShowProjectsOutcome(ix: Interaction, be: Backend, a: ProjectArgs)
    ensures var t := IntendedShowProjectsTrace(ix, be, Some(a));
            var items := ItemsForPage(Listed(ix, be, a), ix.page);
            && (items == [] <==> FinalReply(t) == Some(Notice(NoEligibleProjects)))
            && (items != [] ==> FinalReply(t) == Some(ProjectListReply(a, items, ix.page, TotalPages(|Listed(ix, be, a)|))))
  {
    ProjectListOutcome(ix, be, a, a.showUnvoted);
  }

  /**
   * As intended, a shown page lists every project it should: the projects
   * of pages `0 .. TotalPages - 1` laid end to end are the eligible list,
   * and the pagination row is shown exactly when there are more than 25
   * projects.
   */
  lemma IntendedShowProjectsPages(ix: Interaction, be: Backend, a: ProjectArgs)
    requires ItemsForPage(Listed(ix, be, a), ix.page) != []
    ensures var all := Listed(ix, be, a);
            && ix.page < TotalPages(|all|)
            && PagesUpTo(all, TotalPages(|all|)) == all
            && (PaginationShown(FinalReply(IntendedShowProjectsTrace(ix, be, Some(a))).value) <==> |all| > PageSize)
  {
    var all := Listed(ix, be, a);
    var totalPages := TotalPages(|all|);
    var items := ItemsForPage(all, ix.page);
    IntendedShowProjectsOutcome(ix, be, a);
    PagesPartitionItems(all);
    PaginationRowIffOverflow(|all|);
    ListRowsPagination(Respond, ProjectList(ix.page, totalPages), Select(ListToken(a), IdTexts(items)), ix.page, totalPages);
  }

  /**
   * The project menu carries round and flag on: choosing a project from it
   * reaches `SelectProjectTrace` with the round that was passed in and the
   * flag as its text.
   */
  lemma ListTokenForwards(a: ProjectArgs)
    ensures Route(ListToken(a).op) == HandleSelectProject
    ensures ParseInt(OrEmpty(TokenArg(ListToken(a), KeyFundingRoundId))) == a.fundingRoundId
    ensures TokenArg(ListToken(a), KeyShowUnvoted) == Some(BoolText(a.showUnvoted))
  {
    ArgsOfTwo(SelectProjectID, OpSelectProject, KeyFundingRoundId, NumText(a.fundingRoundId), KeyShowUnvoted, BoolText(a.showUnvoted));
    ParseNumText(a.fundingRoundId);
  }

  /** `handleSelectProject`: the vote options of the chosen project in the token's round. */
  function SelectProjectTrace(ix: Interaction, be: Backend): (t: Trace)
    ensures Handled(t) && NoMutation(t)
    ensures !HasValues(ix) ==> t == [Send(Notice(InvalidInteractionType))]
    ensures HasValues(ix) ==> t == SmeVote.ShowVoteOptionsTrace(ix, be, Some(SmeVote.VoteArgs(FirstValue(ix), RoundOf(ix))))
  {
    if !HasValues(ix) then
      CallsThenReply(NoCalls, Notice(InvalidInteractionType));
      [Send(Notice(InvalidInteractionType))]
    else
      SmeVote.OperationTrace(ix, be, OpShowVoteOptions, Some(SmeVote.VoteArgs(FirstValue(ix), RoundOf(ix))))
  }

  /** The selection of the `i`-th option of a shown menu. */
  function Chosen(tok: Token, option: string, caller: string): (ix: Interaction)
    ensures HasValues(ix) && FirstValue(ix) == ParseInt(option)
    ensures forall k :: Arg(ix, k) == TokenArg(tok, k)
  {
    Interaction(ListSelection, ArgsMap(tok.args), [option], map[], false, 0, caller)
  }

  /**
   * Choosing the `i`-th project of a shown page opens the vote options of
   * exactly that project, in the round the list was shown for.
   */
  lemma ChosenProjectGetsVoteOptions(ix: Interaction, be: Backend, a: ProjectArgs, i: nat, later: Backend)
    requires i < |ItemsForPage(Listed(ix, be, a), ix.page)|
    ensures var items := ItemsForPage(Listed(ix, be, a), ix.page);
            var choice := Chosen(ListToken(a), IdTexts(items)[i], ix.caller);
            SelectProjectTrace(choice, later)
              == SmeVote.ShowVoteOptionsTrace(choice, later, Some(SmeVote.VoteArgs(N(items[i]), a.fundingRoundId)))
  {
    var items := ItemsForPage(Listed(ix, be, a), ix.page);
    var choice := Chosen(ListToken(a), IdTexts(items)[i], ix.caller);
    ListTokenForwards(a);
    assert RoundOf(choice) == a.fundingRoundId;
  }

  /**
   * The page count as written disagrees with the list. An interaction whose
   * token has no `showUnvoted` argument (the "Evaluate New Proposals"
   * button of the vote-type choice is one) lists the unvoted projects but
   * counts the voted ones: with more than 25 unvoted projects and none
   * voted on, the first page says it is page 1 of 0 and has no pagination
   * row, while counted from the listed projects there are at least two
   * pages and the row is there.
   */
  lemma UnvotedListMiscountedAsWritten(ix: Interaction, be: Backend)
    requires Arg(ix, KeyShowUnvoted).None? && ix.page == 0
    requires ProjectsIn(be, RoundOf(ix), false) == [] && |ProjectsIn(be, RoundOf(ix), true)| > PageSize
    ensures var a := ProjectArgs(RoundOf(ix), true);
            var asWritten := FinalReply(ShowProjectsTrace(ix, be, Some(a)));
            var counted := FinalReply(IntendedShowProjectsTrace(ix, be, Some(a)));
            && asWritten.Some? && asWritten.value.Render? && asWritten.value.view == ProjectList(0, 0)
            && !PaginationShown(asWritten.value)
            && counted.Some? && counted.value.Render? && counted.value.view == ProjectList(0, TotalPages(|ProjectsIn(be, RoundOf(ix), true)|))
            && TotalPages(|ProjectsIn(be, RoundOf(ix), true)|) >= 2
            && PaginationShown(counted.value)
  {
    var a := ProjectArgs(RoundOf(ix), true);
    var all := ProjectsIn(be, RoundOf(ix), true);
    assert Listed(ix, be, a) == all;
    var items := ItemsForPage(all, 0);
    assert all[0] == items[0];
    var list := Select(ListToken(a), IdTexts(items));
    ProjectListOutcome(ix, be, a, false);
    ProjectListOutcome(ix, be, a, true);
    PaginationRowIffOverflow(|all|);
    ListRowsPagination(Respond, ProjectList(0, 0), list, 0, 0);
    ListRowsPagination(Respond, ProjectList(0, TotalPages(|all|)), list, 0, TotalPages(|all|));
  }

  /** `handleOperation`; `args` is what a chaining Action passes, None for a token. */
  function OperationTrace(ix: Interaction, be: Backend, op: string, args: Option<ProjectArgs>): (t: Trace)
    ensures Route(op) == HandleInvalidOperation <==> t == [Send(InvalidOperation(op))]
    ensures Route(op) == HandlePagination <==> t == [Paginate]
    ensures Route(op) != HandleInvalidOperation ==> Handled(t)
  {
    match Route(op)
    case HandleShowProjects => ShowProjectsTrace(ix, be, args)
    case HandleSelectProject => SelectProjectTrace(ix, be)
    case HandlePagination => SentTokensNoReply<Query, Mutation>([Paginate]); [Paginate]
    case HandleInvalidOperation => [Send(InvalidOperation(op))]
  }

  method ShowProjects(ix: Interaction, be: Backend, args: Option<ProjectArgs>) returns (trace: Trace)
    ensures trace == ShowProjectsTrace(ix, be, args)
  {
    if args.None? {
      return [Raise(ArgsMissing)];
    }
    var showUnvoted := args.value.showUnvoted;
    var currentPage := ix.page;
    var roundId := RoundOf(ix);
    var tokenShowUnvoted := Arg(ix, KeyShowUnvoted) == Some("true");
    var totalPages := TotalPages(|ProjectsIn(be, roundId, tokenShowUnvoted)|);
    var finalShowUnvoted := ResolveShowUnvoted(Some(showUnvoted), Arg(ix, KeyShowUnvoted));
    var projects := ItemsForPage(ProjectsIn(be, roundId, finalShowUnvoted), currentPage);
    var calls: Trace := [Query(EligibleProjects(roundId, tokenShowUnvoted)), Query(EligibleProjects(roundId, finalShowUnvoted))];
    trace := ShowPage(calls, args.value, projects, currentPage, totalPages);
  }

  /** The rest of `handleShowProjects` once the projects are fetched. */
  method ShowPage(calls: Trace, a: ProjectArgs, projects: seq<int>, currentPage: nat, totalPages: nat) returns (trace: Trace)
    requires forall i :: 0 <= i < |calls| ==> calls[i].Query?
    ensures trace == PageTrace(calls, a, projects, currentPage, totalPages)
  {
    if |projects| == 0 {
      return calls + [Send(Notice(NoEligibleProjects))];
    }
    var options, lookups := ProjectOptions(projects);
    var selectMenu := Select(Tok(OpSelectProject, [(KeyFundingRoundId, NumText(a.fundingRoundId)), (KeyShowUnvoted, BoolText(a.showUnvoted))]), options);
    var components: seq<seq<Control>> := [[selectMenu]];
    if totalPages > 1 {
      components := components + [[PaginationRow(currentPage, totalPages)]];
    }
    assert components == ListRows(Select(ListToken(a), IdTexts(projects)), currentPage, totalPages);
    trace := calls + lookups + [Send(Render(Respond, ProjectList(currentPage, totalPages), components))];
  }

  /**
   * The options of the project menu, one per shown project in order, and
   * the latest-vote lookup made for each.
   */
  method ProjectOptions(projects: seq<int>) returns (options: seq<string>, lookups: Trace)
    ensures options == IdTexts(projects)
    ensures lookups == VoteLookups(projects)
  {
    options := [];
    lookups := [];
    var i := 0;
    while i < |projects|
      invariant 0 <= i <= |projects|
      invariant |options| == i && |lookups| == i
      invariant forall j :: 0 <= j < i ==> options[j] == NumText(N(projects[j]))
      invariant forall j :: 0 <= j < i ==> lookups[j] == Query(MostRecentVote(N(projects[j])))
    {
      lookups := lookups + [Query(MostRecentVote(N(projects[i])))];
      options := options + [NumText(N(projects[i]))];
      i := i + 1;
    }
  }

  method SelectProject(ix: Interaction, be: Backend) returns (trace: Trace)
    ensures trace == SelectProjectTrace(ix, be)
  {
    if !HasValues(ix) {
      return [Send(Notice(InvalidInteractionType))];
    }
    var projectId := FirstValue(ix);
    var fundingRoundId := ParseInt(OrEmpty(Arg(ix, KeyFundingRoundId)));
    trace := SmeVote.HandleOperation(ix, be, OpShowVoteOptions, Some(SmeVote.VoteArgs(projectId, fundingRoundId)));
  }

  method HandleOperation(ix: Interaction, be: Backend, operationId: string, args: Option<ProjectArgs>) returns (trace: Trace)
    ensures trace == OperationTrace(ix, be, operationId, args)
  {
    match Route(operationId)
    case HandleShowProjects => trace := ShowProjects(ix, be, args);
    case HandleSelectProject => trace := SelectProject(ix, be);
    case HandlePagination => trace := [Paginate];
    case HandleInvalidOperation => trace := [Send(InvalidOperation(operationId))];
  }
}
