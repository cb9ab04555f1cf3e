/** Which commands the client offers, what it shows per proposal, and which wallet message it shows. */
module Controls {
  import opened Config
  import opened Remote
  import opened View
  import opened Sync

  /** One flag per button: true when the button is enabled. */
  datatype Buttons = Buttons(
    vote: bool,
    endVoting: bool,
    declareWinner: bool,
    resetVoting: bool,
    withdraw: bool,
    transferOwnership: bool,
    destroyContract: bool,
    votingHistory: bool)

  /** The buttons, each enabled when its `disabled` condition is false. */
  function Enabled(v: View): (b: Buttons)
    ensures b.vote <==> !v.votingEnded && !v.isOwner && v.remainingVotes != 0
    ensures b.endVoting <==> v.isOwner && !v.votingEnded && !v.endVotingClicked
    ensures b.declareWinner <==> v.isOwner && v.votingEnded
    ensures b.resetVoting == v.isOwner && b.withdraw == v.isOwner
    ensures b.transferOwnership == v.isOwner && b.destroyContract == v.isOwner
    ensures b.votingHistory
    ensures b.vote ==> !b.endVoting && !b.declareWinner && !b.resetVoting
  {
    Buttons(
      vote := !(v.votingEnded || v.isOwner || v.remainingVotes == 0),
      endVoting := !(!v.isOwner || v.votingEnded || v.endVotingClicked),
      declareWinner := !(!v.isOwner || !v.votingEnded),
      resetVoting := !(!v.isOwner),
      withdraw := !(!v.isOwner),
      transferOwnership := !(!v.isOwner),
      destroyContract := !(!v.isOwner),
      votingHistory := true)
  }

  /** The tally shown under proposal `index`: its vote count, or 0 when the tallies have no such entry. */
  function VotesShown(votes: seq<int>, index: nat): int
  {
    if index < |votes| then votes[index] else 0
  }

  /** The tallies under the proposal cards, one per proposal. */
  function Tallies(v: View): (t: seq<int>)
    ensures |t| == |v.proposals|
    ensures forall i :: 0 <= i < |v.proposals| && i < |v.proposalVotes| ==> t[i] == v.proposalVotes[i]
    ensures |v.proposalVotes| >= |v.proposals| ==> t == v.proposalVotes[..|v.proposals|]
    ensures forall i :: |v.proposalVotes| <= i < |v.proposals| ==> t[i] == 0
  {
    seq(|v.proposals|, i requires 0 <= i < |v.proposals| => VotesShown(v.proposalVotes, i))
  }

  /** When the proposal and tally lists have equal length, each card shows its own tally. */
  lemma AlignedTallies(v: View)
    requires |v.proposalVotes| == |v.proposals|
    ensures Tallies(v) == v.proposalVotes
  {
  }

  /** The four wallet messages, in priority order. */
  datatype Status = InstallPrompt | ConnectPrompt | NetworkPrompt | AllGood

  /** Message text of each status. */
  function StatusText(s: Status): string
  {
    match s
    case InstallPrompt => "Please install Metamask to use this DApp."
    case ConnectPrompt => "Please connect Metamask to this application."
    case NetworkPrompt => "Please connect to the Sepolia Ethereum network."
    case AllGood => "Metamask is installed, connected, and on the correct network."
  }

  /** Rank of a status in the check order: lower is checked first. */
  function Rank(s: Status): nat
  {
    match s
    case InstallPrompt => 0
    case ConnectPrompt => 1
    case NetworkPrompt => 2
    case AllGood => 3
  }

  /** The problem a status reports holds of the view (for AllGood: no problem holds). */
  predicate Reports(s: Status, v: View)
  {
    match s
    case InstallPrompt => !v.metamaskInstalled
    case ConnectPrompt => !v.metamaskConnected
    case NetworkPrompt => !v.correctNetwork
    case AllGood => v.metamaskInstalled && v.metamaskConnected && v.correctNetwork
  }

  /**
   * The message shown: the first problem found, checking installation, then
   * connection, then network. It reports a condition that holds, and no
   * status checked before it does.
   */
  function MetamaskStatus(v: View): (s: Status)
    ensures Reports(s, v)
    ensures forall t: Status :: Rank(t) < Rank(s) ==> !Reports(t, v)
    ensures s == AllGood <==> v.metamaskInstalled && v.metamaskConnected && v.correctNetwork
  {
    if !v.metamaskInstalled then InstallPrompt
    else if !v.metamaskConnected then ConnectPrompt
    else if !v.correctNetwork then NetworkPrompt
    else AllGood
  }

  /** Exactly one status is the first applicable one: any status that reports a true condition and has nothing applicable before it is the one shown. */
  lemma StatusUnique(v: View, s: Status)
    requires Reports(s, v)
    requires forall t: Status :: Rank(t) < Rank(s) ==> !Reports(t, v)
    ensures s == MetamaskStatus(v)
  {
  }

  /** Distinct statuses show distinct messages. */
  lemma StatusTextsDistinct(s: Status, t: Status)
    requires s != t
    ensures StatusText(s) != StatusText(t)
  {
  }

  /** After the fifth vote of an account, a completed reload disables Vote. */
  lemma FifthVoteDisablesVote(v: View, rs: Reads)
    requires Completes(rs) && ToInt(rs.voteCount.value) == VOTES_PER_ACCOUNT
    ensures !Enabled(AfterVote(v, Committed, rs)).vote
  {
  }

  /** The superuser gets every owner action and no Vote button, whoever owns the contract. */
  lemma ProfessorControls(v: View, rs: Reads)
    requires HasAccount(rs) && rs.accounts.value[0] == PROFESSOR_ADDRESS && Reached(rs) >= 1
    ensures var b := Enabled(Load(v, rs));
      !b.vote && b.resetVoting && b.withdraw && b.transferOwnership && b.destroyContract
  {
  }

  /** After a successful End Voting, the End Voting button stays disabled. */
  lemma EndVotingOfferedOnce(v: View, rs: Reads)
    ensures !Enabled(AfterEndVoting(v, Committed, rs)).endVoting
  {
  }

  /** After a successful reset, an owner whose reload reads voting as open is offered End Voting again and not Declare Winner. */
  lemma ResetReoffersEndVoting(v: View, rs: Reads)
    requires Completes(rs) && IsOwner(rs.accounts.value[0], rs.owner.value) && !rs.votingEnded.value
    ensures Enabled(AfterResetVoting(v, Committed, rs)).endVoting
    ensures !Enabled(AfterResetVoting(v, Committed, rs)).declareWinner
  {
  }

  /** The message after the start-up connection check, in each outcome of that check. */
  lemma StatusAfterConnectionCheck(v: View, present: bool, accounts: Call<seq<string>>, id: Call<Numeric>, rs: Reads)
    ensures !present ==> MetamaskStatus(OnConnectionCheck(v, present, accounts, id, rs)) == InstallPrompt
    ensures present && accounts == Returned([]) ==>
      MetamaskStatus(OnConnectionCheck(v, present, accounts, id, rs)) == ConnectPrompt
    ensures present && accounts.Returned? && accounts.value != [] && id.Returned? && ToInt(id.value) != EXPECTED_NETWORK_ID ==>
      MetamaskStatus(OnConnectionCheck(v, present, accounts, id, rs)) == NetworkPrompt
    ensures present && accounts.Returned? && accounts.value != [] && id.Returned? && ToInt(id.value) == EXPECTED_NETWORK_ID
            && rs.accounts == accounts && (rs.networkId.Threw? || rs.networkId == id) ==>
      MetamaskStatus(OnConnectionCheck(v, present, accounts, id, rs)) == AllGood
  {
  }

  /**
   * After the wallet disconnected, a poll that finds an account reloads but
   * never brings back "all OK": with MetaMask installed it leaves the
   * connect prompt. The connection check that runs after it brings back
   * "all OK" when the wallet is on Sepolia.
   */
  lemma ReconnectNeedsConnectionCheck(v: View, accounts: seq<string>, id: Numeric, rs: Reads, rs2: Reads)
    requires accounts != [] && AccountChanged(v, Returned(accounts)) && !v.metamaskConnected
    requires rs.accounts == Returned(accounts) && rs2.accounts == Returned(accounts)
    requires ToInt(id) == EXPECTED_NETWORK_ID && (rs2.networkId.Threw? || rs2.networkId == Returned(id))
    ensures MetamaskStatus(OnAccountPoll(v, Returned(accounts), rs)) != AllGood
    ensures v.metamaskInstalled ==> MetamaskStatus(OnAccountPoll(v, Returned(accounts), rs)) == ConnectPrompt
    ensures MetamaskStatus(OnConnectionCheck(OnAccountPoll(v, Returned(accounts), rs), true,
                                             Returned(accounts), Returned(id), rs2)) == AllGood
  {
  }
}
