/**
 * SelectFundingRoundAction of the consideration home screen: the rounds
 * the caller may consider on, as a select menu, and the hand-off of the
 * chosen round to the vote-type choice.
 */
module SelectFundingRoundAction {
  import opened Wrappers
  import opened JsValues
  import opened Routing
  import opened Dispatch
  import opened ConsiderationHome
  import SelectVoteType = SelectVoteTypeAction

  /** The cases of `handleOperation`. */
  datatype Handler =
    | HandleShowFundingRounds
    | HandleSelectFundingRound
    | HandleInvalidOperation

  function OpId(h: Handler): string
    requires h != HandleInvalidOperation
  {
    match h
    case HandleShowFundingRounds => OpShowConsiderationRounds
    case HandleSelectFundingRound => OpSelectConsiderationRound
  }

  /** The switch: the two listed ids reach their case, any other id the invalid-operation handler. */
  function Route(op: string): (h: Handler)
    ensures h == HandleInvalidOperation <==> op !in Operations(SelectFundingRoundID)
    ensures h != HandleInvalidOperation ==> OpId(h) == op
  {
    if op == OpShowConsiderationRounds then HandleShowFundingRounds
    else if op == OpSelectConsiderationRound then HandleSelectFundingRound
    else HandleInvalidOperation
  }

  lemma RouteInvertsOpId(h: Handler)
    requires h != HandleInvalidOperation
    ensures Route(OpId(h)) == h
  {
  }

  function Tok(op: string, args: seq<(string, string)>): Token
  {
    Token(SelectFundingRoundID, op, args)
  }

  /** `getComponent`, and the button of the home screen's `getResponse`: they open the round list. */
  function Component(): (t: Token)
    ensures Routes(t) && Route(t.op) == HandleShowFundingRounds
  {
    Tok(OpShowConsiderationRounds, [])
  }

  /** The round menu: one option per eligible round, in the order given. */
  function RoundMenu(be: Backend): Control
  {
    Select(Tok(OpSelectConsiderationRound, []), IdTexts(be.eligibleRounds))
  }

  /**
   * `handleShowFundingRounds`: the eligible rounds as a select menu, or the
   * notice that the screen is for selected experts only when there is none.
   */
  function ShowFundingRoundsTrace(ix: Interaction, be: Backend): (t: Trace)
    ensures Handled(t) && NoMutation(t)
    ensures |t| == 2 && t[0] == Query(EligibleRounds)
    ensures be.eligibleRounds == [] <==> t[1] == Send(Notice(OnlyForSmes))
    ensures be.eligibleRounds != [] ==> t[1] == Send(Render(Respond, ConsiderationRoundList, [[RoundMenu(be)]]))
    ensures forall tok :: tok in SentTokens(t) ==> Route(tok.op) == HandleSelectFundingRound
  {
    var calls: Trace := [Query(EligibleRounds)];
    if be.eligibleRounds == [] then
      CallsThenReply(calls, Notice(OnlyForSmes));
      calls + [Send(Notice(OnlyForSmes))]
    else
      TokensOfOne(Respond, ConsiderationRoundList, RoundMenu(be));
      CallsThenReply(calls, Render(Respond, ConsiderationRoundList, [[RoundMenu(be)]]));
      calls + [Send(Render(Respond, ConsiderationRoundList, [[RoundMenu(be)]]))]
  }

  /** `handleSelectFundingRound`: the vote-type choice for the chosen round. */
  function SelectFundingRoundTrace(ix: Interaction, be: Backend): (t: Trace)
    ensures Handled(t) && NoMutation(t)
    ensures !HasValues(ix) ==> t == [Send(Notice(InvalidInteractionType))]
    ensures HasValues(ix) ==> t == SelectVoteType.ShowVoteTypesTrace(ix, be, Some(FirstValue(ix)))
  {
    if !HasValues(ix) then
      CallsThenReply(NoCalls, Notice(InvalidInteractionType));
      [Send(Notice(InvalidInteractionType))]
    else
      SelectVoteType.OperationTrace(ix, be, OpShowVoteTypes, Some(FirstValue(ix)))
  }

  /** The selection of one option of the round menu. */
  function Chosen(option: string, caller: string): (ix: Interaction)
    ensures HasValues(ix) && FirstValue(ix) == ParseInt(option)
  {
    Interaction(ListSelection, map[], [option], map[], false, 0, caller)
  }

  /**
   * Choosing the `i`-th round of the menu shows the vote-type choice of
   * exactly that round.
   */
  lemma ChosenRoundGetsVoteTypes(be: Backend, i: nat, caller: string, later: Backend)
    requires i < |be.eligibleRounds|
    ensures var choice := Chosen(RoundMenu(be).options[i], caller);
            SelectFundingRoundTrace(choice, later) == SelectVoteType.ShowVoteTypesTrace(choice, later, Some(N(be.eligibleRounds[i])))
  {
  }

  /** `handleOperation` */
  function OperationTrace(ix: Interaction, be: Backend, op: string): (t: Trace)
    ensures Route(op) == HandleInvalidOperation <==> t == [Send(InvalidOperation(op))]
    ensures Route(op) != HandleInvalidOperation ==> Handled(t)
  {
    match Route(op)
    case HandleShowFundingRounds => ShowFundingRoundsTrace(ix, be)
    case HandleSelectFundingRound => SelectFundingRoundTrace(ix, be)
    case HandleInvalidOperation => [Send(InvalidOperation(op))]
  }

  method ShowFundingRounds(ix: Interaction, be: Backend) returns (trace: Trace)
    ensures trace == ShowFundingRoundsTrace(ix, be)
  {
    trace := [Query(EligibleRounds)];
    var eligibleFundingRounds := be.eligibleRounds;
    if |eligibleFundingRounds| == 0 {
      return trace + [Send(Notice(OnlyForSmes))];
    }
    var options := RoundOptions(eligibleFundingRounds);
    var selectMenu := Select(Tok(OpSelectConsiderationRound, []), options);
    trace := trace + [Send(Render(Respond, ConsiderationRoundList, [[selectMenu]]))];
  }

  /** `eligibleFundingRounds.map(fr => fr.id.toString())`, the option values of the round menu. */
  method RoundOptions(rounds: seq<int>) returns (options: seq<string>)
    ensures options == IdTexts(rounds)
  {
    options := [];
    var i := 0;
    while i < |rounds|
      invariant 0 <= i <= |rounds|
      invariant |options| == i
      invariant forall j :: 0 <= j < i ==> options[j] == NumText(N(rounds[j]))
    {
      options := options + [NumText(N(rounds[i]))];
      i := i + 1;
    }
    assert forall j :: 0 <= j < |rounds| ==> options[j] == IdTexts(rounds)[j];
  }

  method SelectFundingRound(ix: Interaction, be: Backend) returns (trace: Trace)
    ensures trace == SelectFundingRoundTrace(ix, be)
  {
    if !HasValues(ix) {
      return [Send(Notice(InvalidInteractionType))];
    }
    var fundingRoundId := FirstValue(ix);
    trace := SelectVoteType.HandleOperation(ix, be, OpShowVoteTypes, Some(fundingRoundId));
  }

  method HandleOperation(ix: Interaction, be: Backend, operationId: string) returns (trace: Trace)
    ensures trace == OperationTrace(ix, be, operationId)
  {
    match Route(operationId)
    case HandleShowFundingRounds => trace := ShowFundingRounds(ix, be);
    case HandleSelectFundingRound => trace := SelectFundingRound(ix, be);
    case HandleInvalidOperation => trace := [Send(InvalidOperation(operationId))];
  }
}
