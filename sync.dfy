/**
 * How the client derives its view from what it reads, and how each wallet
 * poll and each command outcome changes that view. Every function here takes
 * the view before the step and returns the view after it.
 */
module Sync {
  import opened Config
  import opened Remote
  import opened View
  import History

  /** The account is authorised when it is the contract's owner or the superuser. */
  predicate IsOwner(account: string, owner: string)
  {
    account == owner || account == PROFESSOR_ADDRESS
  }

  /** Votes the caller may still cast, from its on-chain vote count. */
  function RemainingVotes(voteCount: int): (n: int)
    ensures 0 <= voteCount <= VOTES_PER_ACCOUNT ==> 0 <= n <= VOTES_PER_ACCOUNT
    ensures n == 0 <==> voteCount == VOTES_PER_ACCOUNT
    ensures voteCount < VOTES_PER_ACCOUNT ==> n > 0
  {
    VOTES_PER_ACCOUNT - voteCount
  }

  /** Whether the wallet is on the network the client expects. */
  predicate CorrectNetwork(networkId: int)
  {
    networkId == EXPECTED_NETWORK_ID
  }

  /** The load finds an account, so it goes past the early exit. */
  predicate HasAccount(rs: Reads)
  {
    rs.accounts.Returned? && rs.accounts.value != []
  }

  /** Every read of a load returns and the wallet exposes an account. */
  predicate Completes(rs: Reads)
  {
    HasAccount(rs) && Reached(rs) == 7
  }

  /**
   * One run of the load routine. Each read is followed at once by the
   * update of the cells it feeds; the first read that throws ends the run,
   * so the cells fed by earlier reads keep their new values and the rest
   * keep their old ones. An empty account list only marks the wallet as
   * disconnected.
   */
  function Load(v: View, rs: Reads): (r: View)
    ensures rs.accounts.Threw? ==> r == v
    ensures rs.accounts == Returned([]) ==> r == v.(metamaskConnected := false)
    ensures HasAccount(rs) ==>
      var a, k := rs.accounts.value[0], Reached(rs);
      && r.account == Address(a)
      && r.contractOwner == (if k >= 1 then rs.owner.value else v.contractOwner)
      && r.isOwner == (if k >= 1 then a == rs.owner.value || a == PROFESSOR_ADDRESS else v.isOwner)
      && r.proposals == (if k >= 2 then rs.proposals.value else v.proposals)
      && r.proposalVotes == (if k >= 3 then ToInts(rs.votes.value) else v.proposalVotes)
      && r.winner == (if k >= 4 then rs.winner.value else v.winner)
      && r.votingEnded == (if k >= 5 then rs.votingEnded.value else v.votingEnded)
      && r.remainingVotes == (if k >= 6 then VOTES_PER_ACCOUNT - ToInt(rs.voteCount.value) else v.remainingVotes)
      && r.correctNetwork == (if k >= 7 then ToInt(rs.networkId.value) == EXPECTED_NETWORK_ID else v.correctNetwork)
      && r.votingHistory == v.votingHistory
      && r.endVotingClicked == v.endVotingClicked
      && r.metamaskInstalled == v.metamaskInstalled
      && r.metamaskConnected == v.metamaskConnected
  {
    match rs.accounts
    case Threw => v
    case Returned(accounts) =>
      if |accounts| == 0 then v.(metamaskConnected := false)
      else LoadOwner(v.(account := Address(accounts[0])), accounts[0], rs)
  }

  /** The steps of a load after the account is stored, one per remote read. */
  function LoadOwner(v: View, a: string, rs: Reads): View
  {
    match rs.owner
    case Threw => v
    case Returned(owner) => LoadProposals(v.(contractOwner := owner, isOwner := IsOwner(a, owner)), rs)
  }

  function LoadProposals(v: View, rs: Reads): View
  {
    match rs.proposals
    case Threw => v
    case Returned(proposals) => LoadVotes(v.(proposals := proposals), rs)
  }

  function LoadVotes(v: View, rs: Reads): View
  {
    match rs.votes
    case Threw => v
    case Returned(votes) => LoadWinner(v.(proposalVotes := ToInts(votes)), rs)
  }

  function LoadWinner(v: View, rs: Reads): View
  {
    match rs.winner
    case Threw => v
    case Returned(winner) => LoadVotingEnded(v.(winner := winner), rs)
  }

  function LoadVotingEnded(v: View, rs: Reads): View
  {
    match rs.votingEnded
    case Threw => v
    case Returned(ended) => LoadVoteCount(v.(votingEnded := ended), rs)
  }

  function LoadVoteCount(v: View, rs: Reads): View
  {
    match rs.voteCount
    case Threw => v
    case Returned(count) => LoadNetwork(v.(remainingVotes := RemainingVotes(ToInt(count))), rs)
  }

  function LoadNetwork(v: View, rs: Reads): View
  {
    match rs.networkId
    case Threw => v
    case Returned(id) => v.(correctNetwork := CorrectNetwork(ToInt(id)))
  }

  /** The superuser is authorised by any load that reads the owner, whoever the owner is. */
  lemma ProfessorIsAlwaysOwner(v: View, rs: Reads)
    requires HasAccount(rs) && rs.accounts.value[0] == PROFESSOR_ADDRESS && Reached(rs) >= 1
    ensures Load(v, rs).isOwner
  {
  }

  /** Any other account is authorised only when it is the owner the contract reports. */
  lemma OthersNeedOwnership(v: View, rs: Reads)
    requires HasAccount(rs) && rs.accounts.value[0] != PROFESSOR_ADDRESS && Reached(rs) >= 1
    ensures Load(v, rs).isOwner <==> rs.accounts.value[0] == rs.owner.value
  {
  }

  /** After a completed load with a legal vote count, the remaining votes lie in 0..5 and are 0 exactly after five votes. */
  lemma RemainingVotesAfterLoad(v: View, rs: Reads)
    requires Completes(rs) && ToInt(rs.voteCount.value) <= VOTES_PER_ACCOUNT
    ensures 0 <= Load(v, rs).remainingVotes <= VOTES_PER_ACCOUNT
    ensures Load(v, rs).remainingVotes == 0 <==> ToInt(rs.voteCount.value) == VOTES_PER_ACCOUNT
  {
  }

  /** A completed load marks the network correct exactly when the wallet reports Sepolia's id. */
  lemma NetworkFlagAfterLoad(v: View, rs: Reads)
    requires Completes(rs)
    ensures Load(v, rs).correctNetwork <==> ToInt(rs.networkId.value) == 11155111
  {
  }

  /** With no account exposed, a load only clears the connected flag. */
  lemma LoadWithoutAccount(v: View, rs: Reads)
    requires rs.accounts == Returned([])
    ensures !Load(v, rs).metamaskConnected
    ensures Load(v, rs).account == v.account && Load(v, rs).contractOwner == v.contractOwner
    ensures Load(v, rs).proposals == v.proposals && Load(v, rs).proposalVotes == v.proposalVotes
    ensures Load(v, rs).winner == v.winner && Load(v, rs).remainingVotes == v.remainingVotes
    ensures Load(v, rs).isOwner == v.isOwner
  {
  }

  /** A load never touches the command flag, the history or the wallet-installed flag, and never marks the wallet connected. */
  lemma LoadKeepsLocalState(v: View, rs: Reads)
    ensures Load(v, rs).endVotingClicked == v.endVotingClicked
    ensures Load(v, rs).votingHistory == v.votingHistory
    ensures Load(v, rs).metamaskInstalled == v.metamaskInstalled
    ensures Load(v, rs).metamaskConnected ==> v.metamaskConnected
  {
  }

  /** Loading twice from the same reads leaves the same cells as loading once. */
  lemma LoadIdempotent(v: View, rs: Reads)
    ensures Load(Load(v, rs), rs) == Load(v, rs)
  {
  }

  /** A completed load replaces every cell it reads, so the view it started from no longer matters. */
  lemma CompletedLoadForgetsPrevious(v: View, w: View, rs: Reads)
    requires Completes(rs)
    requires v.votingHistory == w.votingHistory && v.endVotingClicked == w.endVotingClicked
    requires v.metamaskInstalled == w.metamaskInstalled && v.metamaskConnected == w.metamaskConnected
    ensures Load(v, rs) == Load(w, rs)
  {
  }

  /** `accounts[0]`, which is `undefined` for an empty list. */
  function FirstAccount(accounts: seq<string>): Account
  {
    if |accounts| == 0 then Undefined else Address(accounts[0])
  }

  /** Whether a wallet poll that read `accounts` finds the account changed. */
  predicate AccountChanged(v: View, accounts: Call<seq<string>>)
  {
    accounts.Returned? && FirstAccount(accounts.value) != v.account
  }

  /**
   * One tick of the account poll: when the first account differs from the
   * stored one, store it and run the load routine; otherwise nothing.
   * A failed account read rejects the tick.
   */
  function OnAccountPoll(v: View, accounts: Call<seq<string>>, rs: Reads): View
  {
    if accounts.Returned? && FirstAccount(accounts.value) != v.account then
      Load(v.(account := FirstAccount(accounts.value)), rs)
    else
      v
  }

  /** A poll that finds the same account, or fails to read any, changes nothing and reloads nothing. */
  lemma PollWithoutChange(v: View, accounts: Call<seq<string>>, rs: Reads)
    requires !AccountChanged(v, accounts)
    ensures OnAccountPoll(v, accounts, rs) == v
  {
  }

  /**
   * A poll that finds a new account and completes its reload shows the data
   * of the account the reload read, which is the polled one when the wallet
   * did not switch in between.
   */
  lemma PollWithChange(v: View, accounts: seq<string>, rs: Reads)
    requires AccountChanged(v, Returned(accounts)) && Completes(rs)
    ensures OnAccountPoll(v, Returned(accounts), rs).account == Address(rs.accounts.value[0])
    ensures rs.accounts == Returned(accounts) ==> OnAccountPoll(v, Returned(accounts), rs).account == Address(accounts[0])
    ensures OnAccountPoll(v, Returned(accounts), rs).remainingVotes == VOTES_PER_ACCOUNT - ToInt(rs.voteCount.value)
    ensures OnAccountPoll(v, Returned(accounts), rs).isOwner == IsOwner(rs.accounts.value[0], rs.owner.value)
  {
  }

  /** A poll that found no account stores `undefined`, and a reload without account keeps it so. */
  lemma PollToNoAccount(v: View, rs: Reads)
    requires v.account.Address? && rs.accounts == Returned([])
    ensures OnAccountPoll(v, Returned([]), rs).account == Undefined
    ensures !OnAccountPoll(v, Returned([]), rs).metamaskConnected
  {
  }

  /** When the reload sees the same wallet as the poll, the next poll of that wallet finds nothing changed. */
  lemma PollSettles(v: View, accounts: seq<string>, rs: Reads)
    requires rs.accounts == Returned(accounts)
    ensures !AccountChanged(OnAccountPoll(v, Returned(accounts), rs), Returned(accounts))
  {
  }

  /**
   * The start-up connection check: records whether a wallet is installed and
   * connected and whether it is on the expected network, and runs the load
   * routine only when all three hold. A read that throws ends the check.
   */
  function OnConnectionCheck(v: View, walletPresent: bool, accounts: Call<seq<string>>,
                             networkId: Call<Numeric>, rs: Reads): View
  {
    if !walletPresent then v.(metamaskInstalled := false)
    else
      var v := v.(metamaskInstalled := true);
      match accounts
      case Threw => v
      case Returned(accounts) =>
        if |accounts| == 0 then v.(metamaskConnected := false)
        else
          var v := v.(metamaskConnected := true);
          match networkId
          case Threw => v
          case Returned(id) =>
            if CorrectNetwork(ToInt(id)) then Load(v.(correctNetwork := true), rs)
            else v.(correctNetwork := false)
  }

  /** A vote: on success the view is reloaded; a rejected vote changes nothing. */
  function AfterVote(v: View, sent: Outcome, rs: Reads): View
  {
    if sent.Committed? then Load(v, rs) else v
  }

  /** Ending the round: on success the End Voting flag is raised, then the view is reloaded. */
  function AfterEndVoting(v: View, sent: Outcome, rs: Reads): View
  {
    if sent.Committed? then Load(v.(endVotingClicked := true), rs) else v
  }

  /**
   * Declaring the winner: after the ledger accepts, the winner is read back
   * and stored, then the view is reloaded. A failing read of the winner
   * ends the command before the reload.
   */
  function AfterDeclareWinner(v: View, sent: Outcome, winner: Call<string>, rs: Reads): View
  {
    if sent.Committed? && winner.Returned? then Load(v.(winner := winner.value), rs) else v
  }

  /** Resetting the round: on success the End Voting flag is cleared and the winner emptied, then the view is reloaded. */
  function AfterResetVoting(v: View, sent: Outcome, rs: Reads): View
  {
    if sent.Committed? then Load(v.(endVotingClicked := false, winner := ""), rs) else v
  }

  /** Withdraw, ownership transfer and destruction: on success the view is reloaded. */
  function AfterOwnerCommand(v: View, sent: Outcome, rs: Reads): View
  {
    if sent.Committed? then Load(v, rs) else v
  }

  /** Fetching the history replaces it by the latest window; a failed fetch changes nothing. */
  function AfterHistoryFetch(v: View, history: Call<seq<RawEntry>>): View
  {
    if history.Returned? then v.(votingHistory := History.LatestHistory(history.value)) else v
  }

  /** No local cell changes when the ledger rejects a command, or a read it needs throws. */
  lemma FailuresChangeNothing(v: View, rs: Reads, winner: Call<string>)
    ensures AfterVote(v, Rejected, rs) == v
    ensures AfterEndVoting(v, Rejected, rs) == v
    ensures AfterDeclareWinner(v, Rejected, winner, rs) == v
    ensures AfterDeclareWinner(v, Committed, Threw, rs) == v
    ensures AfterResetVoting(v, Rejected, rs) == v
    ensures AfterOwnerCommand(v, Rejected, rs) == v
    ensures AfterHistoryFetch(v, Threw) == v
  {
  }

  /** A successful End Voting leaves the flag raised whatever its reload reads. */
  lemma EndVotingRaisesFlag(v: View, rs: Reads)
    ensures AfterEndVoting(v, Committed, rs).endVotingClicked
  {
  }

  /**
   * A successful reset leaves the flag cleared; the winner stays empty unless
   * the reload reaches its winner read, in which case it is the ledger's.
   */
  lemma ResetClearsFlagAndWinner(v: View, rs: Reads)
    ensures !AfterResetVoting(v, Committed, rs).endVotingClicked
    ensures AfterResetVoting(v, Committed, rs).winner ==
      if HasAccount(rs) && Reached(rs) >= 4 then rs.winner.value else ""
  {
  }

  /** A declared winner is shown as read back, unless the reload reaches its own winner read. */
  lemma DeclaredWinnerShown(v: View, w: string, rs: Reads)
    requires !(HasAccount(rs) && Reached(rs) >= 4)
    ensures AfterDeclareWinner(v, Committed, Returned(w), rs).winner == w
  {
  }

  /** The view shows the ledger state that the reads report: tallies, the caller's remaining votes, round flag, winner and owner. */
  predicate ShowsLedger(r: View, rs: Reads)
    requires Completes(rs)
  {
    && r.proposalVotes == ToInts(rs.votes.value)
    && r.remainingVotes == VOTES_PER_ACCOUNT - ToInt(rs.voteCount.value)
    && r.votingEnded == rs.votingEnded.value
    && r.winner == rs.winner.value
    && r.contractOwner == rs.owner.value
  }

  /**
   * Every accepted command reloads the view without waiting for an event:
   * after a completed reload the view shows the ledger's tallies, the
   * caller's remaining votes, the round flag, the winner and the owner.
   */
  lemma CommitResyncs(v: View, rs: Reads, w: string)
    requires Completes(rs)
    ensures ShowsLedger(AfterVote(v, Committed, rs), rs)
    ensures ShowsLedger(AfterEndVoting(v, Committed, rs), rs)
    ensures ShowsLedger(AfterDeclareWinner(v, Committed, Returned(w), rs), rs)
    ensures ShowsLedger(AfterResetVoting(v, Committed, rs), rs)
    ensures ShowsLedger(AfterOwnerCommand(v, Committed, rs), rs)
  {
  }

  /** A history fetch touches only the history. */
  lemma HistoryFetchOnlyHistory(v: View, h: seq<RawEntry>)
    ensures AfterHistoryFetch(v, Returned(h)).(votingHistory := v.votingHistory) == v
    ensures AfterHistoryFetch(v, Returned(h)).votingHistory == History.LatestHistory(h)
  {
  }
}
