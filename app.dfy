/**
 * The app component's state cells and its handlers. Each handler receives
 * the results of the remote calls it awaits as parameters and updates the
 * cells in the order the handler sets them.
 */
module Client {
  import opened Config
  import opened Remote
  import opened View
  import opened Sync
  import History

  class App {
    var account: Account
    var contractOwner: string
    var proposals: seq<string>
    var proposalVotes: seq<int>
    var winner: string
    var votingHistory: seq<History.Entry>
    var isOwner: bool
    var votingEnded: bool
    var endVotingClicked: bool
    var metamaskInstalled: bool
    var metamaskConnected: bool
    var correctNetwork: bool
    var remainingVotes: int

    /** The cells as one view value. */
    function Snapshot(): View
      reads this
    {
      View(account, contractOwner, proposals, proposalVotes, winner, votingHistory,
           isOwner, votingEnded, endVotingClicked, metamaskInstalled, metamaskConnected,
           correctNetwork, remainingVotes)
    }

    constructor ()
      ensures Snapshot() == INITIAL
    {
      account := Address("");
      contractOwner := "";
      proposals := [];
      proposalVotes := [];
      winner := "";
      votingHistory := [];
      isOwner := false;
      votingEnded := false;
      endVotingClicked := false;
      metamaskInstalled := false;
      metamaskConnected := false;
      correctNetwork := false;
      remainingVotes := VOTES_PER_ACCOUNT;
    }

    /** The load routine: read, then set, one cell group at a time; a thrown read ends it. */
    method LoadBlockchainData(rs: Reads)
      modifies this
      ensures Snapshot() == Load(old(Snapshot()), rs)
    {
      if rs.accounts.Threw? { return; }
      var accounts := rs.accounts.value;
      if |accounts| == 0 {
        metamaskConnected := false;
        return;
      }
      account := Address(accounts[0]);
      if rs.owner.Threw? { return; }
      var owner := rs.owner.value;
      contractOwner := owner;
      isOwner := IsOwner(accounts[0], owner);
      LoadRoundState(rs);
    }

    /** The load routine's reads of the round: proposals, tallies, winner and the ended flag. */
    method LoadRoundState(rs: Reads)
      modifies this
      ensures Snapshot() == LoadProposals(old(Snapshot()), rs)
    {
      if rs.proposals.Threw? { return; }
      proposals := rs.proposals.value;
      if rs.votes.Threw? { return; }
      proposalVotes := ToInts(rs.votes.value);
      if rs.winner.Threw? { return; }
      winner := rs.winner.value;
      if rs.votingEnded.Threw? { return; }
      votingEnded := rs.votingEnded.value;
      LoadCallerState(rs);
    }

    /** The load routine's last reads: the caller's vote count and the wallet's network. */
    method LoadCallerState(rs: Reads)
      modifies this
      ensures Snapshot() == LoadVoteCount(old(Snapshot()), rs)
    {
      if rs.voteCount.Threw? { return; }
      remainingVotes := RemainingVotes(ToInt(rs.voteCount.value));
      if rs.networkId.Threw? { return; }
      correctNetwork := CorrectNetwork(ToInt(rs.networkId.value));
    }

    /** The start-up check of the wallet's presence, connection and network. */
    method CheckMetamaskConnection(walletPresent: bool, accounts: Call<seq<string>>,
                                   networkId: Call<Numeric>, rs: Reads)
      modifies this
      ensures Snapshot() == OnConnectionCheck(old(Snapshot()), walletPresent, accounts, networkId, rs)
    {
      if !walletPresent {
        metamaskInstalled := false;
        return;
      }
      metamaskInstalled := true;
      if accounts.Threw? { return; }
      if |accounts.value| == 0 {
        metamaskConnected := false;
        return;
      }
      metamaskConnected := true;
      if networkId.Threw? { return; }
      if CorrectNetwork(ToInt(networkId.value)) {
        correctNetwork := true;
        LoadBlockchainData(rs);
      } else {
        correctNetwork := false;
      }
    }

    /** One tick of the account poll; `reloaded` tells whether the load routine ran. */
    method CheckAccountChange(accounts: Call<seq<string>>, rs: Reads) returns (reloaded: bool)
      modifies this
      ensures reloaded <==> accounts.Returned? && FirstAccount(accounts.value) != old(account)
      ensures Snapshot() == OnAccountPoll(old(Snapshot()), accounts, rs)
    {
      reloaded := false;
      if accounts.Threw? { return; }
      var first := FirstAccount(accounts.value);
      if first != account {
        account := first;
        LoadBlockchainData(rs);
        reloaded := true;
      }
    }

    /** Casting a vote; `reloaded` tells whether the load routine ran. */
    method Vote(index: nat, sent: Outcome, rs: Reads) returns (reloaded: bool)
      modifies this
      ensures reloaded <==> sent.Committed?
      ensures Snapshot() == AfterVote(old(Snapshot()), sent, rs)
    {
      reloaded := sent.Committed?;
      if reloaded {
        LoadBlockchainData(rs);
      }
    }

    /** Ending the round. */
    method EndVoting(sent: Outcome, rs: Reads) returns (reloaded: bool)
      modifies this
      ensures reloaded <==> sent.Committed?
      ensures sent.Committed? ==> endVotingClicked
      ensures Snapshot() == AfterEndVoting(old(Snapshot()), sent, rs)
    {
      reloaded := sent.Committed?;
      if reloaded {
        endVotingClicked := true;
        LoadBlockchainData(rs);
      }
    }

    /** Declaring the winner; `winnerRead` is the winner read back after the ledger accepts. */
    method DeclareWinner(sent: Outcome, winnerRead: Call<string>, rs: Reads) returns (reloaded: bool)
      modifies this
      ensures reloaded <==> sent.Committed? && winnerRead.Returned?
      ensures Snapshot() == AfterDeclareWinner(old(Snapshot()), sent, winnerRead, rs)
    {
      reloaded := sent.Committed? && winnerRead.Returned?;
      if reloaded {
        winner := winnerRead.value;
        LoadBlockchainData(rs);
      }
    }

    /** Resetting the round. */
    method ResetVoting(sent: Outcome, rs: Reads) returns (reloaded: bool)
      modifies this
      ensures reloaded <==> sent.Committed?
      ensures sent.Committed? ==> !endVotingClicked
      ensures Snapshot() == AfterResetVoting(old(Snapshot()), sent, rs)
    {
      reloaded := sent.Committed?;
      if reloaded {
        endVotingClicked := false;
        winner := "";
        LoadBlockchainData(rs);
      }
    }

    /** Withdrawing the collected stakes. */
    method Withdraw(sent: Outcome, rs: Reads) returns (reloaded: bool)
      modifies this
      ensures reloaded <==> sent.Committed?
      ensures Snapshot() == AfterOwnerCommand(old(Snapshot()), sent, rs)
    {
      reloaded := sent.Committed?;
      if reloaded {
        LoadBlockchainData(rs);
      }
    }

    /** Transferring ownership; `restart` tells whether the page is reloaded afterwards. */
    method TransferOwnership(newOwner: string, sent: Outcome, rs: Reads) returns (restart: bool)
      modifies this
      ensures restart <==> sent.Committed?
      ensures Snapshot() == AfterOwnerCommand(old(Snapshot()), sent, rs)
    {
      restart := sent.Committed?;
      if restart {
        LoadBlockchainData(rs);
      }
    }

    /** Destroying the contract. */
    method DestroyContract(sent: Outcome, rs: Reads) returns (reloaded: bool)
      modifies this
      ensures reloaded <==> sent.Committed?
      ensures Snapshot() == AfterOwnerCommand(old(Snapshot()), sent, rs)
    {
      reloaded := sent.Committed?;
      if reloaded {
        LoadBlockchainData(rs);
      }
    }

    /** Fetching the voting history. */
    method GetVotingHistory(history: Call<seq<RawEntry>>)
      modifies this
      ensures Snapshot() == AfterHistoryFetch(old(Snapshot()), history)
    {
      if history.Returned? {
        votingHistory := History.LatestHistory(history.value);
      }
    }
  }
}
