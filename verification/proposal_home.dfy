/**
 * What the four Actions of the proposal home screen share: their operation
 * ids and token argument names, the proposal collaborators seen as plain
 * data, the queries and mutations a handler issues, the option values of a
 * select menu, the URI rule for proposals and the active-proposal filter.
 */
module ProposalHome {
  import opened Wrappers
  import opened JsValues
  import opened Routing
  import opened Dispatch
  import opened FundingRules

  // Named token arguments
  const KeyProposalId: string := "proposalId"
  const KeyFundingRoundId: string := "fundingRoundId"
  const KeyUdt: string := "udt"

  // Text inputs of the create and edit modals
  const InputName: string := "name"
  const InputBudget: string := "budget"
  const InputUri: string := "uri"

  datatype Proposal = Proposal(id: int, status: ProposalStatus)

  /**
   * The collaborators as the caller sees them at the time of the
   * interaction: proposals and rounds by id, the phase windows of each
   * round, the rounds in which the caller has proposals, the caller's
   * proposals per round and drafts, the rounds a draft may be submitted to,
   * the clock, and whether the next ProposalLogic mutation throws.
   */
  datatype Backend = Backend(
    proposals: map<int, Proposal>,
    rounds: map<int, Round>,
    windows: map<int, PhaseWindows>,
    roundsWithUserProposals: seq<int>,
    userProposals: map<int, seq<Proposal>>,
    drafts: seq<Proposal>,
    eligibleRounds: seq<int>,
    now: int,
    mutationFails: bool)

  /** `getProposalById`; NaN finds nothing. */
  function ProposalAt(be: Backend, id: Num): Option<Proposal>
  {
    if id.N? && id.v in be.proposals then Some(be.proposals[id.v]) else None
  }

  /** `getFundingRoundById`; NaN finds nothing. */
  function RoundAt(be: Backend, id: Num): Option<Round>
  {
    if id.N? && id.v in be.rounds then Some(be.rounds[id.v]) else None
  }

  function WindowsAt(be: Backend, id: int): PhaseWindows
  {
    if id in be.windows then be.windows[id] else PhaseWindows(None, None, None)
  }

  function UserProposalsIn(be: Backend, id: int): seq<Proposal>
  {
    if id in be.userProposals then be.userProposals[id] else []
  }

  /** The collaborator reads a handler issues. */
  datatype Query =
    | RoundsWithUserProposals
    | RoundById(id: Num)
    | ProposalById(id: Num)
    | UserProposalsForRound(roundId: int)
    | UserDrafts
    | EligibleRoundsFor(proposalId: Num)

  /** The ProposalLogic writes a handler issues; budgets are not modelled. */
  datatype Mutation =
    | CancelProposal(id: Num)
    | UpdateProposal(id: Num, name: string, uri: string)
    | DeleteProposal(id: Num)
    | CreateDraft(name: string, uri: string, proposerDuid: string)
    | SubmitToRound(proposalId: Num, fundingRoundId: Num)

  type Trace = seq<Event<Query, Mutation>>

  /** The empty prefix of a handler that replies before calling any collaborator. */
  const NoCalls: Trace := []

  function ProposalIds(ps: seq<Proposal>): (r: seq<int>)
    ensures |r| == |ps|
    ensures forall i :: 0 <= i < |ps| ==> r[i] == ps[i].id
  {
    if ps == [] then [] else [ps[0].id] + ProposalIds(ps[1..])
  }

  // ---- URI rule of the create and edit forms ----

  const Http: string := "http://"
  const Https: string := "https://"
  const ForumHost: string := "forums.minaprotocol.com"
  const ForumPath: string := ForumHost + "/"
  const ForumPrefix: string := Https + ForumHost

  /**
   * The create form's rewrite: an `http://` prefix becomes `https://`
   * (`replace` changes the first occurrence, which is the prefix), a bare
   * `forums.minaprotocol.com/` gets `https://` in front, anything else is
   * kept.
   */
  function NormalizeUri(uri: string): string
  {
    if StartsWith(uri, Http) then Https + uri[|Http|..]
    else if StartsWith(uri, ForumPath) then Https + uri
    else uri
  }

  /** The URI the forms accept. */
  predicate UriAccepted(uri: string)
  {
    StartsWith(uri, ForumPrefix)
  }

  /** Normalising twice changes nothing more. */
  lemma NormalizeUriIdempotent(uri: string)
    ensures NormalizeUri(NormalizeUri(uri)) == NormalizeUri(uri)
  {
    var r := NormalizeUri(uri);
    if r != uri {
      assert r[4] == 's';
      assert !StartsWith(r, Http);
      assert r[0] == 'h';
      assert !StartsWith(r, ForumPath);
    }
  }

  /** Each of the three cases of the rewrite, and that an accepted URI is kept. */
  lemma NormalizeUriCases(uri: string)
    ensures StartsWith(uri, Http) ==> NormalizeUri(uri) == Https + uri[|Http|..]
    ensures StartsWith(uri, ForumPath) ==> NormalizeUri(uri) == Https + uri
    ensures !StartsWith(uri, Http) && !StartsWith(uri, ForumPath) ==> NormalizeUri(uri) == uri
    ensures UriAccepted(uri) ==> NormalizeUri(uri) == uri
  {
    if StartsWith(uri, ForumPath) {
      assert uri[0] == 'f';
    }
    if UriAccepted(uri) {
      assert uri[4] == 's';
    }
  }

  lemma PrefixUnderConcat(a: string, b: string, c: string)
    requires b <= c
    ensures a + b <= a + c
  {
    assert (a + c)[..|a + b|] == a + c[..|b|];
  }

  lemma PrefixAfterDrop(p: string, q: string, s: string)
    requires p + q <= s
    ensures q <= s[|p|..]
  {
    assert s[|p|..][..|q|] == s[..|p| + |q|][|p|..];
    assert (p + q)[|p|..] == q;
  }

  /** A bare forum path is accepted once `https://` is put in front. */
  lemma NormalizeUriRepairsForumPath(uri: string)
    requires StartsWith(uri, ForumPath)
    ensures UriAccepted(NormalizeUri(uri))
  {
    NormalizeUriCases(uri);
    assert ForumHost <= ForumPath;
    PrefixUnderConcat(Https, ForumHost, uri);
  }

  /** A plain-http forum link is accepted once its scheme is upgraded. */
  lemma NormalizeUriRepairsHttpForumLink(uri: string)
    requires StartsWith(uri, Http + ForumHost)
    ensures UriAccepted(NormalizeUri(uri))
  {
    assert Http <= Http + ForumHost;
    NormalizeUriCases(uri);
    PrefixAfterDrop(Http, ForumHost, uri);
    PrefixUnderConcat(Https, ForumHost, uri[|Http|..]);
  }

  // ---- The filter in handleShowProposals ----

  /** What an `Array.filter` callback returns: a boolean, or, for an `async` callback, a Promise. */
  datatype CallbackValue = Bool(b: bool) | Promise

  /** `filter` keeps an element whose callback value is truthy; a Promise object is always truthy. */
  predicate Truthy(v: CallbackValue)
  {
    v.Promise? || v.b
  }

  function Filter(ps: seq<Proposal>, f: Proposal -> CallbackValue): (r: seq<Proposal>)
    ensures |r| <= |ps|
    ensures forall p :: p in r <==> p in ps && Truthy(f(p))
  {
    if ps == [] then []
    else (if Truthy(f(ps[0])) then [ps[0]] else []) + Filter(ps[1..], f)
  }

  /**
   * The filter as written: the callback is the `async`
   * `isProposalActiveForFundingRound`, so every call yields a Promise.
   */
  function ActiveProposalsAsWritten(ps: seq<Proposal>, round: Round, ws: PhaseWindows, now: int): seq<Proposal>
  {
    Filter(ps, (p: Proposal) => Promise)
  }

  lemma {:induction false} FilterKeepsAllTruthy(ps: seq<Proposal>, f: Proposal -> CallbackValue)
    requires forall p :: Truthy(f(p))
    ensures Filter(ps, f) == ps
  {
    if ps != [] {
      FilterKeepsAllTruthy(ps[1..], f);
      assert [ps[0]] + ps[1..] == ps;
    }
  }

  /** As written, the filter keeps every proposal, whatever its status and the round's phases. */
  lemma AsWrittenKeepsEveryProposal(ps: seq<Proposal>, round: Round, ws: PhaseWindows, now: int)
    ensures ActiveProposalsAsWritten(ps, round, ws, now) == ps
  {
    FilterKeepsAllTruthy(ps, (p: Proposal) => Promise);
  }

  /** The intended filter: keep the proposals `isProposalActiveForFundingRound` resolves to true for. */
  function ActiveProposals(ps: seq<Proposal>, round: Round, ws: PhaseWindows, now: int): (r: seq<Proposal>)
    ensures forall p :: p in r <==> p in ps && IsProposalActive(p.status, round, ws, now)
  {
    Filter(ps, (p: Proposal) => Bool(IsProposalActive(p.status, round, ws, now)))
  }

  /** `filter` works element by element: filtering a concatenation filters each part. */
  lemma {:induction false} FilterAppend(a: seq<Proposal>, b: seq<Proposal>, f: Proposal -> CallbackValue)
    ensures Filter(a + b, f) == Filter(a, f) + Filter(b, f)
  {
    if a != [] {
      assert (a + b)[1..] == a[1..] + b;
      FilterAppend(a[1..], b, f);
    } else {
      assert a + b == b;
    }
  }

  /** A one-element list keeps its element exactly when its callback value is truthy; with `FilterAppend` this fixes the result, order included. */
  lemma FilterOne(p: Proposal, f: Proposal -> CallbackValue)
    ensures Filter([p], f) == (if Truthy(f(p)) then [p] else [])
  {
    assert [p][1..] == [];
  }

  /** The intended filter keeps the kept proposals in their order: a list is filtered part by part ... */
  lemma ActiveProposalsAppend(a: seq<Proposal>, b: seq<Proposal>, round: Round, ws: PhaseWindows, now: int)
    ensures ActiveProposals(a + b, round, ws, now) == ActiveProposals(a, round, ws, now) + ActiveProposals(b, round, ws, now)
  {
    FilterAppend(a, b, (p: Proposal) => Bool(IsProposalActive(p.status, round, ws, now)));
  }

  /** ... and a one-element list keeps its proposal exactly when it is active. */
  lemma ActiveProposalsOne(p: Proposal, round: Round, ws: PhaseWindows, now: int)
    ensures ActiveProposals([p], round, ws, now) == (if IsProposalActive(p.status, round, ws, now) then [p] else [])
  {
    assert [p][1..] == [];
  }

  /** Which filter a listing applies: the source's as written, or the one it evidently intends. */
  datatype ProposalFilter = AsWritten | Intended

  function Eligible(f: ProposalFilter, ps: seq<Proposal>, round: Round, ws: PhaseWindows, now: int): seq<Proposal>
  {
    if f == AsWritten then ActiveProposalsAsWritten(ps, round, ws, now) else ActiveProposals(ps, round, ws, now)
  }

  /** A cancelled proposal is listed as written, and left out by the intended filter. */
  lemma CancelledProposalListedAsWritten()
    ensures var p := Proposal(7, Cancelled);
            var round := Round(Approved, 0, 0, 100);
            var ws := PhaseWindows(Some(Window(0, 100)), None, None);
            p in ActiveProposalsAsWritten([p], round, ws, 50) && p !in ActiveProposals([p], round, ws, 50)
  {
    var p := Proposal(7, Cancelled);
    var round := Round(Approved, 0, 0, 100);
    var ws := PhaseWindows(Some(Window(0, 100)), None, None);
    AsWrittenKeepsEveryProposal([p], round, ws, 50);
    assert !IsProposalActive(p.status, round, ws, 50);
  }
}
