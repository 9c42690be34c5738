/**
 * The funding-round store and the operations of `FundingRoundLogic` that
 * read and change it: phase records, approval votes and the deliberation
 * committee. The database tables are fields of one object; each query of
 * the original becomes a read of these fields and each `create`, `upsert`,
 * `update` or `destroy` an assignment to them. Thrown errors are returned
 * as `Fail`/`Failure` values, and a call that fails changes nothing.
 */
module FundingRoundLogic {
  import opened Wrappers
  import opened JsValues
  import opened FundingRules

  /** A row of the proposal table, as far as these queries look at it. */
  datatype ProposalRecord = ProposalRecord(id: int, fundingRoundId: Option<int>, status: ProposalStatus)

  /** A row of the approval-vote table: who voted on which round, which way, and why. */
  datatype ApprovalRow = ApprovalRow(duid: string, fundingRoundId: int, isPass: bool, reason: Option<string>)

  /** An entry of the list `getFundingRoundPhases` returns. */
  datatype PhaseRecord = PhaseRecord(phase: string, startDate: int, endDate: int)

  function Lookup<K, V>(m: map<K, V>, k: K): Option<V>
  {
    if k in m then Some(m[k]) else None
  }

  /** The newest row of the voter `duid` on round `id`: the last such row in creation order. */
  function Latest(rows: seq<ApprovalRow>, duid: string, id: int): (r: Option<ApprovalRow>)
    ensures r.Some? ==> r.value in rows && r.value.duid == duid && r.value.fundingRoundId == id
    ensures r.None? <==> forall row :: row in rows ==> !(row.duid == duid && row.fundingRoundId == id)
  {
    if rows == [] then None
    else
      var last := rows[|rows| - 1];
      assert rows == rows[..|rows| - 1] + [last];
      if last.duid == duid && last.fundingRoundId == id then Some(last)
      else Latest(rows[..|rows| - 1], duid, id)
  }

  /** A new row becomes the latest vote of its voter and round, and leaves every other voter's and round's latest vote as it was. */
  lemma LatestAfterAppend(rows: seq<ApprovalRow>, row: ApprovalRow, duid: string, id: int)
    ensures Latest(rows + [row], duid, id)
              == (if row.duid == duid && row.fundingRoundId == id then Some(row) else Latest(rows, duid, id))
  {
    assert (rows + [row])[..|rows + [row]| - 1] == rows;
  }

  /** The proposals of round `id` with status `status`, in table order. */
  function ProposalsWith(ps: seq<ProposalRecord>, id: int, status: ProposalStatus): (r: seq<ProposalRecord>)
    ensures |r| <= |ps|
  {
    if ps == [] then []
    else
      (if ps[0].fundingRoundId == Some(id) && ps[0].status == status then [ps[0]] else [])
      + ProposalsWith(ps[1..], id, status)
  }

  lemma {:induction false} ProposalsWithMembers(ps: seq<ProposalRecord>, id: int, status: ProposalStatus, p: ProposalRecord)
    ensures p in ProposalsWith(ps, id, status) <==> p in ps && p.fundingRoundId == Some(id) && p.status == status
  {
    if ps != [] {
      ProposalsWithMembers(ps[1..], id, status, p);
    }
  }

  /** The duids of `duids` that are not in `existing`, in order and with repetitions. */
  function Absent(duids: seq<string>, existing: set<string>): (r: seq<string>)
    ensures |r| <= |duids|
  {
    if duids == [] then []
    else
      Absent(duids[..|duids| - 1], existing)
      + (if duids[|duids| - 1] !in existing then [duids[|duids| - 1]] else [])
  }

  /** One more duid read: it is inserted after the earlier ones exactly when it is missing from `existing`. */
  lemma AbsentSnoc(duids: seq<string>, i: nat, existing: set<string>)
    requires i < |duids|
    ensures Absent(duids[..i + 1], existing) ==
            Absent(duids[..i], existing) + (if duids[i] !in existing then [duids[i]] else [])
  {
    var next := duids[..i + 1];
    assert next[..|next| - 1] == duids[..i];
  }

  /** Exactly the duids missing from `existing` are inserted. */
  lemma {:induction false} AbsentMembers(duids: seq<string>, existing: set<string>, d: string)
    ensures d in Absent(duids, existing) <==> d in duids && d !in existing
  {
    if duids != [] {
      var init := duids[..|duids| - 1];
      AbsentMembers(init, existing, d);
      assert duids == init + [duids[|duids| - 1]];
    }
  }

  /**
   * The set of existing duids is read once, before the loop: a duid that
   * appears twice in the input and not in the committee is inserted twice.
   */
  lemma RepeatedDuidInsertedTwice(d: string, existing: set<string>)
    requires d !in existing
    ensures Absent([d, d], existing) == [d, d]
  {
    assert [d, d][..1] == [d];
    assert [d][..0] == [];
  }

  class FundingRoundStore {
    var rounds: map<int, Round>
    var considerationPhases: map<int, Window>
    var deliberationPhases: map<int, Window>
    var votingPhases: map<int, Window>
    /** Deliberation committee selections per round, in insertion order. */
    var committee: map<int, seq<string>>
    /** The approval-vote rows in creation order; a voter may have several on one round. */
    var approvalVotes: seq<ApprovalRow>
    var proposals: seq<ProposalRecord>

    constructor ()
      ensures rounds == map[] && considerationPhases == map[] && deliberationPhases == map[]
      ensures votingPhases == map[] && committee == map[] && approvalVotes == [] && proposals == []
    {
      rounds, considerationPhases, deliberationPhases, votingPhases := map[], map[], map[], map[];
      committee, approvalVotes, proposals := map[], [], [];
    }

    /** The three phase records of round `id`. */
    function WindowsOf(id: int): PhaseWindows
      reads this
    {
      PhaseWindows(Lookup(considerationPhases, id), Lookup(deliberationPhases, id), Lookup(votingPhases, id))
    }

    /** `getFundingRoundCommitteeMembers` */
    function CommitteeOf(id: int): seq<string>
      reads this
    {
      if id in committee then committee[id] else []
    }

    /**
     * `getFundingRoundPhases`: one record per phase that exists, named
     * consideration, deliberation and voting, always in that order.
     */
    method GetFundingRoundPhases(id: int) returns (phases: seq<PhaseRecord>)
      ensures var listed := ExistingPhases(WindowsOf(id), PhaseOrder);
        |phases| == |listed| &&
        forall i :: 0 <= i < |phases| ==>
          WindowOf(WindowsOf(id), listed[i]).Some? &&
          phases[i] == PhaseRecord(ListedName(listed[i]), WindowOf(WindowsOf(id), listed[i]).value.startAt,
                                   WindowOf(WindowsOf(id), listed[i]).value.endAt)
    {
      ExistingPhasesUnfold(WindowsOf(id));
      phases := [];
      if id in considerationPhases {
        var w := considerationPhases[id];
        phases := phases + [PhaseRecord("consideration", w.startAt, w.endAt)];
      }
      if id in deliberationPhases {
        var w := deliberationPhases[id];
        phases := phases + [PhaseRecord("deliberation", w.startAt, w.endAt)];
      }
      if id in votingPhases {
        var w := votingPhases[id];
        phases := phases + [PhaseRecord("voting", w.startAt, w.endAt)];
      }
    }

    /**
     * `setFundingRoundPhase`: a missing round or an unknown phase throws
     * before anything is written; "round" sets the round's own start and
     * end, every other phase upserts its own record only.
     */
    method SetFundingRoundPhase(id: int, phase: string, startDate: int, endDate: int) returns (r: Outcome<Fault>)
      modifies this`rounds, this`considerationPhases, this`deliberationPhases, this`votingPhases
      ensures id !in old(rounds) ==> r == Fail(RoundNotFound)
      ensures id in old(rounds) && ToLower(phase) !in ["consideration", "deliberation", "voting", "round"] ==> r == Fail(InvalidPhase)
      ensures r.Fail? ==>
        (rounds == old(rounds) && considerationPhases == old(considerationPhases)
         && deliberationPhases == old(deliberationPhases) && votingPhases == old(votingPhases))
      ensures r.Pass? ==> id in old(rounds)
      ensures r.Pass? && ToLower(phase) == "round" ==>
        rounds == old(rounds)[id := old(rounds)[id].(startAt := startDate, endAt := endDate)]
        && considerationPhases == old(considerationPhases) && deliberationPhases == old(deliberationPhases)
        && votingPhases == old(votingPhases)
      ensures r.Pass? && ToLower(phase) == "consideration" ==>
        considerationPhases == old(considerationPhases)[id := Window(startDate, endDate)]
        && rounds == old(rounds) && deliberationPhases == old(deliberationPhases) && votingPhases == old(votingPhases)
      ensures r.Pass? && ToLower(phase) == "deliberation" ==>
        deliberationPhases == old(deliberationPhases)[id := Window(startDate, endDate)]
        && rounds == old(rounds) && considerationPhases == old(considerationPhases) && votingPhases == old(votingPhases)
      ensures r.Pass? && ToLower(phase) == "voting" ==>
        votingPhases == old(votingPhases)[id := Window(startDate, endDate)]
        && rounds == old(rounds) && considerationPhases == old(considerationPhases)
        && deliberationPhases == old(deliberationPhases)
    {
      if id !in rounds {
        return Fail(RoundNotFound);
      }
      var name := ToLower(phase);
      if name == "consideration" {
        considerationPhases := considerationPhases[id := Window(startDate, endDate)];
      } else if name == "deliberation" {
        deliberationPhases := deliberationPhases[id := Window(startDate, endDate)];
      } else if name == "voting" {
        votingPhases := votingPhases[id := Window(startDate, endDate)];
      } else if name == "round" {
        rounds := rounds[id := rounds[id].(startAt := startDate, endAt := endDate)];
      } else {
        return Fail(InvalidPhase);
      }
      r := Pass;
    }

    /**
     * `canChangeVote`: throws when the round is missing; otherwise true
     * iff the round is VOTING and its voting has not closed before `now`.
     */
    function CanChangeVote(id: int, now: int): (r: Result<bool, Fault>)
      reads this
      ensures r.Failure? <==> id !in rounds
      ensures r.Failure? ==> r.error == RoundNotFound
      ensures r.Success? ==> (r.value <==> rounds[id].status == Voting && rounds[id].votingOpenUntil >= now)
    {
      if id !in rounds then Failure(RoundNotFound)
      else Success(VotingOpen(rounds[id], now))
    }

    /** The three checks `voteFundingRound` and `unvoteFundingRound` make, in their order. */
    function VoteGuard(id: int, now: int): Outcome<Fault>
      reads this
    {
      if id !in rounds then Fail(RoundNotFound)
      else if rounds[id].status != Voting then Fail(NotOpenForVoting)
      else if rounds[id].votingOpenUntil < now then Fail(VotingEnded)
      else Pass
    }

    /** The vote guard lets a vote through exactly when `canChangeVote` is true. */
    lemma VoteGuardMatchesCanChangeVote(id: int, now: int)
      ensures VoteGuard(id, now).Pass? <==> CanChangeVote(id, now) == Success(true)
      ensures VoteGuard(id, now) == Fail(RoundNotFound) <==> CanChangeVote(id, now).Failure?
    {
    }

    /** `getLatestVote`: the newest row of the voter on the round, if any. */
    function LatestVote(userId: string, id: int): (r: Option<ApprovalRow>)
      reads this
      ensures r.Some? ==> r.value in approvalVotes && r.value.duid == userId && r.value.fundingRoundId == id
    {
      Latest(approvalVotes, userId, id)
    }

    /** `hasUserVotedOnFundingRound`: some row of the voter on the round exists. */
    function HasUserVoted(userId: string, id: int): (voted: bool)
      reads this
      ensures voted <==> exists row :: row in approvalVotes && row.duid == userId && row.fundingRoundId == id
    {
      LatestVote(userId, id).Some?
    }

    /**
     * The `upsert` both voting operations perform. Its values name no
     * unique column (the row id is generated), so it never conflicts with a
     * stored row and inserts a new one, without a reason.
     */
    method UpsertApproval(userId: string, id: int, isPass: bool)
      modifies this`approvalVotes
      ensures approvalVotes == old(approvalVotes) + [ApprovalRow(userId, id, isPass, None)]
      ensures LatestVote(userId, id) == Some(ApprovalRow(userId, id, isPass, None))
      ensures forall d, k :: d != userId || k != id ==> LatestVote(d, k) == old(LatestVote(d, k))
    {
      ghost var before := approvalVotes;
      approvalVotes := approvalVotes + [ApprovalRow(userId, id, isPass, None)];
      forall d, k
        ensures LatestVote(d, k) == Latest(before, d, k)
                  || (d == userId && k == id && LatestVote(d, k) == Some(ApprovalRow(userId, id, isPass, None)))
      {
        LatestAfterAppend(before, ApprovalRow(userId, id, isPass, None), d, k);
      }
    }

    /** `voteFundingRound`: records an approving vote when the guard passes, and nothing otherwise. */
    method VoteFundingRound(userId: string, id: int, now: int) returns (r: Outcome<Fault>)
      modifies this`approvalVotes
      ensures r == old(VoteGuard(id, now))
      ensures r.Fail? ==> approvalVotes == old(approvalVotes)
      ensures r.Pass? ==> approvalVotes == old(approvalVotes) + [ApprovalRow(userId, id, true, None)]
      ensures r.Pass? ==> LatestVote(userId, id) == Some(ApprovalRow(userId, id, true, None))
      ensures forall d, k :: d != userId || k != id ==> LatestVote(d, k) == old(LatestVote(d, k))
    {
      r := VoteGuard(id, now);
      if r.Pass? {
        UpsertApproval(userId, id, true);
      }
    }

    /** `unvoteFundingRound`: records a rejecting vote when the guard passes, and nothing otherwise. */
    method UnvoteFundingRound(userId: string, id: int, now: int) returns (r: Outcome<Fault>)
      modifies this`approvalVotes
      ensures r == old(VoteGuard(id, now))
      ensures r.Fail? ==> approvalVotes == old(approvalVotes)
      ensures r.Pass? ==> approvalVotes == old(approvalVotes) + [ApprovalRow(userId, id, false, None)]
      ensures r.Pass? ==> LatestVote(userId, id) == Some(ApprovalRow(userId, id, false, None))
      ensures forall d, k :: d != userId || k != id ==> LatestVote(d, k) == old(LatestVote(d, k))
    {
      r := VoteGuard(id, now);
      if r.Pass? {
        UpsertApproval(userId, id, false);
      }
    }

    /** The `create` both reasoned votes perform: a new row, with the reason. */
    method CreateApproval(userId: string, id: int, isPass: bool, reason: string)
      modifies this`approvalVotes
      ensures approvalVotes == old(approvalVotes) + [ApprovalRow(userId, id, isPass, Some(reason))]
      ensures LatestVote(userId, id) == Some(ApprovalRow(userId, id, isPass, Some(reason)))
      ensures forall d, k :: d != userId || k != id ==> LatestVote(d, k) == old(LatestVote(d, k))
    {
      ghost var before := approvalVotes;
      approvalVotes := approvalVotes + [ApprovalRow(userId, id, isPass, Some(reason))];
      forall d, k
        ensures LatestVote(d, k) == Latest(before, d, k)
                  || (d == userId && k == id && LatestVote(d, k) == Some(ApprovalRow(userId, id, isPass, Some(reason))))
      {
        LatestAfterAppend(before, ApprovalRow(userId, id, isPass, Some(reason)), d, k);
      }
    }

    /** The guard of `createApproveVote` and `createRejectVote`. */
    function CreateVoteGuard(id: int, now: int): (r: Outcome<Fault>)
      reads this
      ensures r.Pass? <==> CanChangeVote(id, now) == Success(true)
      ensures r == Fail(RoundNotFound) <==> id !in rounds
      ensures r.Fail? ==> r.error in {RoundNotFound, VotingNotAllowed}
    {
      match CanChangeVote(id, now)
      case Failure(e) => Fail(e)
      case Success(allowed) => if allowed then Pass else Fail(VotingNotAllowed)
    }

    /** `createApproveVote`: "Voting is not allowed at this time" exactly when `canChangeVote` is false. */
    method CreateApproveVote(userId: string, id: int, reason: string, now: int) returns (r: Outcome<Fault>)
      modifies this`approvalVotes
      ensures r == old(CreateVoteGuard(id, now))
      ensures r.Fail? ==> approvalVotes == old(approvalVotes)
      ensures r.Pass? ==> approvalVotes == old(approvalVotes) + [ApprovalRow(userId, id, true, Some(reason))]
      ensures r.Pass? ==> LatestVote(userId, id) == Some(ApprovalRow(userId, id, true, Some(reason)))
      ensures forall d, k :: d != userId || k != id ==> LatestVote(d, k) == old(LatestVote(d, k))
    {
      r := CreateVoteGuard(id, now);
      if r.Pass? {
        CreateApproval(userId, id, true, reason);
      }
    }

    /** `createRejectVote`: as `createApproveVote`, recording a rejection. */
    method CreateRejectVote(userId: string, id: int, reason: string, now: int) returns (r: Outcome<Fault>)
      modifies this`approvalVotes
      ensures r == old(CreateVoteGuard(id, now))
      ensures r.Fail? ==> approvalVotes == old(approvalVotes)
      ensures r.Pass? ==> approvalVotes == old(approvalVotes) + [ApprovalRow(userId, id, false, Some(reason))]
      ensures r.Pass? ==> LatestVote(userId, id) == Some(ApprovalRow(userId, id, false, Some(reason)))
      ensures forall d, k :: d != userId || k != id ==> LatestVote(d, k) == old(LatestVote(d, k))
    {
      r := CreateVoteGuard(id, now);
      if r.Pass? {
        CreateApproval(userId, id, false, reason);
      }
    }

    /**
     * `setFundingRoundCommittee`: destroys the round's selections, then
     * creates one per given duid, so the committee becomes the given list.
     */
    method SetFundingRoundCommittee(id: int, memberDuids: seq<string>) returns (r: Outcome<Fault>)
      modifies this`committee
      ensures id !in rounds ==> r == Fail(RoundNotFound) && committee == old(committee)
      ensures id in rounds ==> r == Pass && committee == old(committee)[id := memberDuids]
    {
      if id !in rounds {
        return Fail(RoundNotFound);
      }
      committee := committee[id := []];
      var i := 0;
      while i < |memberDuids|
        invariant 0 <= i <= |memberDuids|
        invariant committee == old(committee)[id := memberDuids[..i]]
      {
        assert memberDuids[..i + 1] == memberDuids[..i] + [memberDuids[i]];
        committee := committee[id := committee[id] + [memberDuids[i]]];
        i := i + 1;
      }
      assert memberDuids[..i] == memberDuids;
      r := Pass;
    }

    /**
     * `appendFundingRoundCommitteeMembers`: reads the existing duids once,
     * then creates a selection for each given duid not among them; returns
     * how many were created. Existing members are never removed.
     */
    method AppendFundingRoundCommitteeMembers(id: int, memberDuids: seq<string>) returns (r: Result<nat, Fault>)
      modifies this`committee
      ensures id !in rounds ==> r == Failure(RoundNotFound) && committee == old(committee)
      ensures id in rounds ==>
        var added := Absent(memberDuids, set d | d in old(CommitteeOf(id)));
        r == Success(|added|) && committee == old(committee)[id := old(CommitteeOf(id)) + added]
    {
      if id !in rounds {
        return Failure(RoundNotFound);
      }
      var before := CommitteeOf(id);
      var existingDuids := set d | d in before;
      var insertedCount := 0;
      committee := committee[id := before];
      var i := 0;
      assert memberDuids[..0] == [];
      assert before + Absent(memberDuids[..0], existingDuids) == before;
      while i < |memberDuids|
        invariant 0 <= i <= |memberDuids|
        invariant committee == old(committee)[id := before + Absent(memberDuids[..i], existingDuids)]
        invariant insertedCount == |Absent(memberDuids[..i], existingDuids)|
      {
        AbsentSnoc(memberDuids, i, existingDuids);
        if memberDuids[i] !in existingDuids {
          assert committee[id] + [memberDuids[i]] == before + Absent(memberDuids[..i + 1], existingDuids);
          committee := committee[id := committee[id] + [memberDuids[i]]];
          insertedCount := insertedCount + 1;
        } else {
          assert Absent(memberDuids[..i + 1], existingDuids) == Absent(memberDuids[..i], existingDuids);
        }
        i := i + 1;
      }
      assert memberDuids[..i] == memberDuids;
      r := Success(insertedCount);
    }

    /**
     * `getActiveFundingRoundPhases`: throws when the round is missing,
     * otherwise names the phases whose window contains `now`, in the order
     * consideration, deliberation, funding.
     */
    method GetActiveFundingRoundPhases(id: int, now: int) returns (r: Result<seq<string>, Fault>)
      ensures r.Failure? <==> id !in rounds
      ensures r.Failure? ==> r.error == RoundNotFound
      ensures r.Success? ==>
        var open := OpenPhases(WindowsOf(id), now, PhaseOrder);
        |r.value| == |open| && forall i :: 0 <= i < |open| ==> r.value[i] == ActiveName(open[i])
    {
      if id !in rounds {
        return Failure(RoundNotFound);
      }
      OpenPhasesUnfold(WindowsOf(id), now);
      var activePhases: seq<string> := [];
      if id in considerationPhases && Contains(considerationPhases[id], now) {
        activePhases := activePhases + ["consideration"];
      }
      if id in deliberationPhases && Contains(deliberationPhases[id], now) {
        activePhases := activePhases + ["deliberation"];
      }
      if id in votingPhases && Contains(votingPhases[id], now) {
        activePhases := activePhases + ["funding"];
      }
      r := Success(activePhases);
    }

    /**
     * `getActiveProposalsForPhase`: throws when the round is missing, then
     * "Invalid phase" for a name other than consideration, deliberation or
     * funding (in any case); otherwise the round's proposals in that status.
     */
    method GetActiveProposalsForPhase(id: int, phase: string) returns (r: Result<seq<ProposalRecord>, Fault>)
      ensures id !in rounds ==> r == Failure(RoundNotFound)
      ensures id in rounds && StatusForPhaseName(phase).Failure? ==> r == Failure(InvalidPhase)
      ensures id in rounds && StatusForPhaseName(phase).Success? ==>
        r == Success(ProposalsWith(proposals, id, StatusForPhaseName(phase).value))
    {
      if id !in rounds {
        return Failure(RoundNotFound);
      }
      match StatusForPhaseName(phase)
      case Failure(e) =>
        r := Failure(e);
      case Success(status) =>
        r := Success(ProposalsWith(proposals, id, status));
    }

    /**
     * `isProposalActiveForFundingRound` over this store's phase records:
     * the proposal is active iff the round is APPROVED, the proposal is
     * neither DRAFT nor CANCELLED, and its status is that of the earliest
     * phase whose window contains `now`.
     */
    function IsProposalActiveForFundingRound(p: ProposalRecord, roundId: int, round: Round, now: int): (active: bool)
      reads this
      ensures var open := OpenPhases(WindowsOf(roundId), now, PhaseOrder);
        active <==>
          (round.status == Approved && p.status != Draft && p.status != Cancelled
           && open != [] && p.status == PhaseStatus(open[0]))
    {
      ActiveIffFirstOpenPhase(p.status, round, WindowsOf(roundId), now);
      IsProposalActive(p.status, round, WindowsOf(roundId), now)
    }
  }
}
