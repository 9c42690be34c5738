/**
 * The pure decisions of the funding-round logic: which phase window holds a
 * moment, when a proposal counts as active in a round, which phase names
 * map to which proposal status, and whether a round still accepts votes.
 * Dates are integer timestamps; `now` is always a parameter.
 */
module FundingRules {
  import opened Wrappers
  import opened JsValues

  datatype RoundStatus = Voting | Approved | Rejected

  datatype ProposalStatus =
    | Draft
    | ConsiderationPhase
    | DeliberationPhase
    | FundingVotingPhase
    | Cancelled

  /** A funding round record as fetched from the store. */
  datatype Round = Round(status: RoundStatus, votingOpenUntil: int, startAt: int, endAt: int)

  /** The start and end of one phase of a round. */
  datatype Window = Window(startAt: int, endAt: int)

  /** `now >= startAt && now <= endAt`: both ends are inclusive. */
  predicate Contains(w: Window, now: int)
  {
    w.startAt <= now <= w.endAt
  }

  /** The three phases of a round, in the order the code always checks them. */
  datatype Phase = Consideration | Deliberation | FundingVoting

  const PhaseOrder: seq<Phase> := [Consideration, Deliberation, FundingVoting]

  /** The phase records a round has; a missing record is `None`. */
  datatype PhaseWindows = PhaseWindows(consideration: Option<Window>, deliberation: Option<Window>, voting: Option<Window>)

  function WindowOf(ws: PhaseWindows, ph: Phase): Option<Window>
  {
    match ph
    case Consideration => ws.consideration
    case Deliberation => ws.deliberation
    case FundingVoting => ws.voting
  }

  /** The phase exists and its window contains `now`. */
  predicate IsOpen(ws: PhaseWindows, ph: Phase, now: int)
  {
    WindowOf(ws, ph).Some? && Contains(WindowOf(ws, ph).value, now)
  }

  /** The proposal status that belongs to a phase. */
  function PhaseStatus(ph: Phase): ProposalStatus
  {
    match ph
    case Consideration => ConsiderationPhase
    case Deliberation => DeliberationPhase
    case FundingVoting => FundingVotingPhase
  }

  /** The names `getActiveFundingRoundPhases` reports. */
  function ActiveName(ph: Phase): string
  {
    match ph
    case Consideration => "consideration"
    case Deliberation => "deliberation"
    case FundingVoting => "funding"
  }

  /** The names `getFundingRoundPhases` reports. */
  function ListedName(ph: Phase): string
  {
    match ph
    case Consideration => "consideration"
    case Deliberation => "deliberation"
    case FundingVoting => "voting"
  }

  /** The phases of `phases` whose window contains `now`, in their order. */
  function OpenPhases(ws: PhaseWindows, now: int, phases: seq<Phase>): (r: seq<Phase>)
    ensures |r| <= |phases|
  {
    if phases == [] then []
    else (if IsOpen(ws, phases[0], now) then [phases[0]] else []) + OpenPhases(ws, now, phases[1..])
  }

  /** The phases of `phases` that have a record, in their order. */
  function ExistingPhases(ws: PhaseWindows, phases: seq<Phase>): (r: seq<Phase>)
    ensures |r| <= |phases|
  {
    if phases == [] then []
    else (if WindowOf(ws, phases[0]).Some? then [phases[0]] else []) + ExistingPhases(ws, phases[1..])
  }

  /** A phase is reported active iff its window contains `now`. */
  lemma {:induction false} OpenPhasesMembers(ws: PhaseWindows, now: int, phases: seq<Phase>, ph: Phase)
    ensures ph in OpenPhases(ws, now, phases) <==> ph in phases && IsOpen(ws, ph, now)
  {
    if phases != [] {
      OpenPhasesMembers(ws, now, phases[1..], ph);
    }
  }

  /** A phase is listed iff it has a record. */
  lemma {:induction false} ExistingPhasesMembers(ws: PhaseWindows, phases: seq<Phase>, ph: Phase)
    ensures ph in ExistingPhases(ws, phases) <==> ph in phases && WindowOf(ws, ph).Some?
  {
    if phases != [] {
      ExistingPhasesMembers(ws, phases[1..], ph);
    }
  }

  /** Position of a phase in `PhaseOrder`. */
  function Rank(ph: Phase): nat
  {
    match ph
    case Consideration => 0
    case Deliberation => 1
    case FundingVoting => 2
  }

  /** Strictly increasing in `PhaseOrder`: in order and without repetition. */
  predicate InPhaseOrder(s: seq<Phase>)
  {
    forall i, j :: 0 <= i < j < |s| ==> Rank(s[i]) < Rank(s[j])
  }

  /** The active phases come out in the order consideration, deliberation, funding, once each. */
  lemma OpenPhasesOrdered(ws: PhaseWindows, now: int)
    ensures InPhaseOrder(OpenPhases(ws, now, PhaseOrder))
  {
    var t2 := OpenPhases(ws, now, [FundingVoting]);
    var t1 := OpenPhases(ws, now, [Deliberation, FundingVoting]);
    assert [Deliberation, FundingVoting][1..] == [FundingVoting];
    assert PhaseOrder[1..] == [Deliberation, FundingVoting];
    assert forall x :: x in t2 ==> Rank(x) == 2 by {
      forall x | x in t2 ensures Rank(x) == 2 { OpenPhasesMembers(ws, now, [FundingVoting], x); }
    }
    assert forall x :: x in t1 ==> Rank(x) >= 1 by {
      forall x | x in t1 ensures Rank(x) >= 1 { OpenPhasesMembers(ws, now, [Deliberation, FundingVoting], x); }
    }
  }

  /** The listed phases come out in the order consideration, deliberation, voting, once each. */
  lemma ExistingPhasesOrdered(ws: PhaseWindows)
    ensures InPhaseOrder(ExistingPhases(ws, PhaseOrder))
  {
    var t2 := ExistingPhases(ws, [FundingVoting]);
    var t1 := ExistingPhases(ws, [Deliberation, FundingVoting]);
    assert [Deliberation, FundingVoting][1..] == [FundingVoting];
    assert PhaseOrder[1..] == [Deliberation, FundingVoting];
    assert forall x :: x in t2 ==> Rank(x) == 2 by {
      forall x | x in t2 ensures Rank(x) == 2 { ExistingPhasesMembers(ws, [FundingVoting], x); }
    }
    assert forall x :: x in t1 ==> Rank(x) >= 1 by {
      forall x | x in t1 ensures Rank(x) >= 1 { ExistingPhasesMembers(ws, [Deliberation, FundingVoting], x); }
    }
  }

  /**
   * `isProposalActiveForFundingRound`: only an APPROVED round and a proposal
   * that is neither DRAFT nor CANCELLED qualify; then the first phase, in the
   * order consideration, deliberation, voting, whose window contains `now`
   * decides, by comparing the proposal's status with that phase's status.
   */
  function IsProposalActive(status: ProposalStatus, round: Round, ws: PhaseWindows, now: int): (r: bool)
    ensures r ==> round.status == Approved && status != Draft && status != Cancelled
    ensures r ==> exists ph :: IsOpen(ws, ph, now) && status == PhaseStatus(ph)
  {
    if round.status != Approved then false
    else if status == Cancelled || status == Draft then false
    else if IsOpen(ws, Consideration, now) then status == ConsiderationPhase
    else if IsOpen(ws, Deliberation, now) then status == DeliberationPhase
    else if IsOpen(ws, FundingVoting, now) then status == FundingVotingPhase
    else false
  }

  /**
   * The activity rule, restated through the list of active phases: a
   * proposal is active iff the round is APPROVED, the proposal is not DRAFT
   * or CANCELLED, some phase is active, and the proposal's status is the
   * status of the earliest active phase.
   */
  lemma ActiveIffFirstOpenPhase(status: ProposalStatus, round: Round, ws: PhaseWindows, now: int)
    ensures IsProposalActive(status, round, ws, now) <==>
      var open := OpenPhases(ws, now, PhaseOrder);
      round.status == Approved && status != Draft && status != Cancelled &&
      open != [] && status == PhaseStatus(open[0])
  {
    OpenPhasesUnfold(ws, now);
  }

  /** `OpenPhases` over `PhaseOrder`, written out phase by phase. */
  lemma OpenPhasesUnfold(ws: PhaseWindows, now: int)
    ensures OpenPhases(ws, now, PhaseOrder) ==
      (if IsOpen(ws, Consideration, now) then [Consideration] else []) +
      (if IsOpen(ws, Deliberation, now) then [Deliberation] else []) +
      (if IsOpen(ws, FundingVoting, now) then [FundingVoting] else [])
  {
    assert PhaseOrder[1..] == [Deliberation, FundingVoting];
    assert [Deliberation, FundingVoting][1..] == [FundingVoting];
    assert [FundingVoting][1..] == [];
    var c := if IsOpen(ws, Consideration, now) then [Consideration] else [];
    var d := if IsOpen(ws, Deliberation, now) then [Deliberation] else [];
    var f := if IsOpen(ws, FundingVoting, now) then [FundingVoting] else [];
    assert OpenPhases(ws, now, [FundingVoting]) == f + OpenPhases(ws, now, []);
    assert OpenPhases(ws, now, [Deliberation, FundingVoting]) == d + f;
    assert OpenPhases(ws, now, PhaseOrder) == c + (d + f);
  }

  /** `ExistingPhases` over `PhaseOrder`, written out phase by phase. */
  lemma ExistingPhasesUnfold(ws: PhaseWindows)
    ensures ExistingPhases(ws, PhaseOrder) ==
      (if ws.consideration.Some? then [Consideration] else []) +
      (if ws.deliberation.Some? then [Deliberation] else []) +
      (if ws.voting.Some? then [FundingVoting] else [])
  {
    assert PhaseOrder[1..] == [Deliberation, FundingVoting];
    assert [Deliberation, FundingVoting][1..] == [FundingVoting];
    assert [FundingVoting][1..] == [];
    var c := if ws.consideration.Some? then [Consideration] else [];
    var d := if ws.deliberation.Some? then [Deliberation] else [];
    var f := if ws.voting.Some? then [FundingVoting] else [];
    assert ExistingPhases(ws, [FundingVoting]) == f + ExistingPhases(ws, []);
    assert ExistingPhases(ws, [Deliberation, FundingVoting]) == d + f;
    assert ExistingPhases(ws, PhaseOrder) == c + (d + f);
  }

  /** With no phase window containing `now`, no proposal is active. */
  lemma NoOpenPhaseNoActivity(status: ProposalStatus, round: Round, ws: PhaseWindows, now: int)
    requires OpenPhases(ws, now, PhaseOrder) == []
    ensures !IsProposalActive(status, round, ws, now)
  {
    ActiveIffFirstOpenPhase(status, round, ws, now);
  }

  /** Errors the funding-round logic throws. */
  datatype Fault =
    | RoundNotFound
    | InvalidPhase
    | NotOpenForVoting
    | VotingEnded
    | VotingNotAllowed

  /** The `switch (phase.toLowerCase())` of `getActiveProposalsForPhase`. */
  function StatusForPhaseName(phase: string): (r: Result<ProposalStatus, Fault>)
    ensures r.Failure? ==> r.error == InvalidPhase
    ensures r.Success? <==> ToLower(phase) in [ActiveName(Consideration), ActiveName(Deliberation), ActiveName(FundingVoting)]
    ensures forall ph :: ToLower(phase) == ActiveName(ph) ==> r == Success(PhaseStatus(ph))
  {
    var name := ToLower(phase);
    if name == "consideration" then Success(ConsiderationPhase)
    else if name == "deliberation" then Success(DeliberationPhase)
    else if name == "funding" then Success(FundingVotingPhase)
    else Failure(InvalidPhase)
  }

  /** A string without upper-case ASCII letters is its own lower case. */
  lemma {:induction false} LowerOfLower(s: string)
    requires forall i :: 0 <= i < |s| ==> LowerChar(s[i]) == s[i]
    ensures ToLower(s) == s
  {
    if s != [] {
      LowerOfLower(s[1..]);
    }
  }

  /**
   * Every name `getActiveFundingRoundPhases` reports is accepted by
   * `getActiveProposalsForPhase` and selects that phase's status.
   */
  lemma ActiveNamesSelectTheirStatus(ph: Phase)
    ensures StatusForPhaseName(ActiveName(ph)) == Success(PhaseStatus(ph))
  {
    ActiveNameLower(ph);
  }

  /** The name "voting" that `getFundingRoundPhases` uses for the last phase is refused. */
  lemma ListedVotingNameRefused()
    ensures StatusForPhaseName(ListedName(FundingVoting)).Failure?
  {
    LowerOfLower("voting");
  }

  /** The names `getActiveFundingRoundPhases` reports are already lower case. */
  lemma ActiveNameLower(ph: Phase)
    ensures ToLower(ActiveName(ph)) == ActiveName(ph)
  {
    match ph
    case Consideration => LowerOfLower("consideration");
    case Deliberation => LowerOfLower("deliberation");
    case FundingVoting => LowerOfLower("funding");
  }

  /** `canChangeVote` on a fetched round: VOTING and `votingOpenUntil >= now`. */
  predicate VotingOpen(round: Round, now: int)
  {
    round.status == Voting && !(round.votingOpenUntil < now)
  }
}
