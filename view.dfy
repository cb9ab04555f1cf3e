/** The client's local view: one value per React state cell of the app. */
module View {
  import opened Config
  import History

  /** The `account` cell: a string, or `undefined` once a poll found no account. */
  datatype Account = Undefined | Address(text: string)

  datatype View = View(
    account: Account,
    contractOwner: string,
    proposals: seq<string>,
    proposalVotes: seq<int>,
    winner: string,
    votingHistory: seq<History.Entry>,
    isOwner: bool,
    votingEnded: bool,
    endVotingClicked: bool,
    metamaskInstalled: bool,
    metamaskConnected: bool,
    correctNetwork: bool,
    remainingVotes: int)

  /** The values the cells start with. */
  const INITIAL: View := View(
    account := Address(""),
    contractOwner := "",
    proposals := [],
    proposalVotes := [],
    winner := "",
    votingHistory := [],
    isOwner := false,
    votingEnded := false,
    endVotingClicked := false,
    metamaskInstalled := false,
    metamaskConnected := false,
    correctNetwork := false,
    remainingVotes := VOTES_PER_ACCOUNT)
}
