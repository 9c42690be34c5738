/**
 * What the four Actions of the consideration home screen share: token
 * argument names and vote options, the consideration collaborators seen as
 * plain data, the queries and the vote submission a handler issues, and the
 * small decision rules the handlers apply.
 */
module ConsiderationHome {
  import opened Wrappers
  import opened JsValues
  import opened Routing

  // Named token arguments and vote options. They are the values of
  // CONSIDERATION_CONSTANTS.CUSTOM_ID_ARGS and VOTE_OPTIONS, which are not part
  // of this model: the strings stand in for them, and only their being
  // distinct matters.
  const KeyVoteType: string := "voteType"
  const KeyFundingRoundId: string := "fundingRoundId"
  const KeyShowUnvoted: string := "showUnvoted"
  const KeyProjectId: string := "projectId"
  const KeyVote: string := "vote"
  const VoteApprove: string := "approve"
  const VoteReject: string := "reject"
  // The text input of the vote modal (CONSIDERATION_CONSTANTS.INPUT_IDS.REASON)
  const InputReason: string := "reason"

  // The vote types the vote-type buttons carry, written literally in the source
  const VoteTypeNew: string := "new"
  const VoteTypeChange: string := "change"

  /**
   * The collaborators as the caller sees them: the rounds they may consider
   * on, which rounds and proposals exist, per round the number of proposals
   * still waiting for their vote and whether they voted on any, per round
   * and `showUnvoted` flag the eligible projects, their latest vote per
   * project, and whether the vote submission throws.
   */
  datatype Backend = Backend(
    eligibleRounds: seq<int>,
    rounds: set<int>,
    projects: set<int>,
    unvotedCount: map<int, nat>,
    votedRounds: set<int>,
    eligibleProjects: map<(int, bool), seq<int>>,
    lastVotes: map<int, bool>,
    voteFails: bool)

  /** `FundingRound.findByPk`; NaN finds nothing. */
  predicate RoundExists(be: Backend, id: Num)
  {
    id.N? && id.v in be.rounds
  }

  /** `Proposal.findByPk`; NaN finds nothing. */
  predicate ProjectExists(be: Backend, id: Num)
  {
    id.N? && id.v in be.projects
  }

  /** `getUnvotedProposalsCount` */
  function UnvotedIn(be: Backend, id: Num): nat
  {
    if id.N? && id.v in be.unvotedCount then be.unvotedCount[id.v] else 0
  }

  /** `hasVotedProposals` */
  predicate HasVotedIn(be: Backend, id: Num)
  {
    id.N? && id.v in be.votedRounds
  }

  /** `getEligibleProjects` */
  function ProjectsIn(be: Backend, id: Num, showUnvoted: bool): seq<int>
  {
    if id.N? && (id.v, showUnvoted) in be.eligibleProjects then be.eligibleProjects[(id.v, showUnvoted)] else []
  }

  /** `mostRecentSMEVote(...).isPass`, or None when the caller has not voted on the project. */
  function LastVote(be: Backend, id: Num): Option<bool>
  {
    if id.N? && id.v in be.lastVotes then Some(be.lastVotes[id.v]) else None
  }

  /** The collaborator reads a consideration handler issues. */
  datatype Query =
    | EligibleRounds
    | RoundById(id: Num)
    | UnvotedCount(roundId: Num)
    | HasVotedProposals(roundId: Num)
    | EligibleProjects(roundId: Num, showUnvoted: bool)
    | ProjectById(id: Num)
    | MostRecentVote(projectId: Num)

  /** `ConsiderationLogic.submitVote` */
  datatype Mutation = RecordVote(projectId: Num, fundingRoundId: Num, isApprove: bool, reason: string)

  type Trace = seq<Event<Query, Mutation>>

  /** The empty prefix of a handler that replies before calling any collaborator. */
  const NoCalls: Trace := []

  /** `b.toString()` */
  function BoolText(b: bool): (r: string)
    ensures r == "true" <==> b
  {
    if b then "true" else "false"
  }

  /**
   * The `showUnvoted` rule of `getItemsForPage`: a flag passed by the caller
   * wins; otherwise the token's argument decides, true only for `'true'`,
   * and an absent argument means false.
   */
  function ResolveShowUnvoted(given: Option<bool>, raw: Option<string>): (r: bool)
    ensures given.Some? ==> r == given.value
    ensures given.None? ==> (r <==> raw == Some("true"))
  {
    var finalShowUnvoted := false;
    if given.None? then
      if Present(raw) then raw.value == "true" else finalShowUnvoted
    else
      given.value
  }

  /**
   * The routing of `handleSelectVoteType`: `'new'` lists the projects still
   * unvoted, `'change'` those already voted on, anything else is no route.
   */
  function VoteTypeRoute(voteType: Option<string>): (r: Option<bool>)
    ensures r == Some(true) <==> voteType == Some(VoteTypeNew)
    ensures r == Some(false) <==> voteType == Some(VoteTypeChange)
    ensures r == None <==> voteType != Some(VoteTypeNew) && voteType != Some(VoteTypeChange)
  {
    if voteType == Some(VoteTypeNew) then Some(true)
    else if voteType == Some(VoteTypeChange) then Some(false)
    else None
  }

  /**
   * The vote buttons offered given the caller's latest vote: the opposite
   * choice only, or both in the order approve, reject when there is no
   * vote yet.
   */
  function VoteRow(existing: Option<bool>, approve: Control, reject: Control): (row: seq<Control>)
    requires approve != reject
    ensures approve in row <==> existing != Some(true)
    ensures reject in row <==> existing != Some(false)
    ensures existing.None? ==> row == [approve, reject]
    ensures 1 <= |row| <= 2
  {
    if existing == Some(true) then [reject]
    else if existing == Some(false) then [approve]
    else [approve, reject]
  }

  /** The option values of the project list: one query for the caller's latest vote per listed project. */
  function VoteLookups(ids: seq<int>): (r: Trace)
    ensures |r| == |ids|
    ensures forall i :: 0 <= i < |r| ==> r[i] == Query(MostRecentVote(N(ids[i])))
  {
    if ids == [] then [] else [Query(MostRecentVote(N(ids[0])))] + VoteLookups(ids[1..])
  }
}
