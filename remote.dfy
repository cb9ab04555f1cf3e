/** What the client gets back from the wallet and from the voting contract. */
module Remote {
  /** The outcome of one awaited remote call: the value it resolved to, or a thrown error. */
  datatype Call<T> = Returned(value: T) | Threw

  /** The outcome of a state-changing `send`: accepted by the ledger, or rejected. */
  datatype Outcome = Committed | Rejected

  /** A uint as the wallet or the contract returns it; `ToInt` stands for the client's `parseInt(…, 10)`. */
  datatype Numeric = Numeric(value: nat)

  function ToInt(n: Numeric): int
  {
    n.value
  }

  /** `ns.map(n => parseInt(n, 10))`. */
  function ToInts(ns: seq<Numeric>): seq<int>
  {
    seq(|ns|, i requires 0 <= i < |ns| => ToInt(ns[i]))
  }

  /** One element of the contract's voting history, as returned by the call. */
  datatype RawEntry = RawEntry(round: Numeric, winnerName: string, voteCount: Numeric)

  /**
   * Everything one run of the load routine reads, in the order it reads it:
   * the wallet's accounts, then the contract's owner, proposal names, vote
   * tallies, winner, voting-ended flag, the caller's own vote count, and
   * finally the wallet's network id. A read after a `Threw` is never made,
   * so its value is irrelevant.
   */
  datatype Reads = Reads(
    accounts: Call<seq<string>>,
    owner: Call<string>,
    proposals: Call<seq<string>>,
    votes: Call<seq<Numeric>>,
    winner: Call<string>,
    votingEnded: Call<bool>,
    voteCount: Call<Numeric>,
    networkId: Call<Numeric>)

  /** How many of the reads after the accounts read returned before the first one threw (0..7). */
  function Reached(r: Reads): nat
  {
    if r.owner.Threw? then 0
    else if r.proposals.Threw? then 1
    else if r.votes.Threw? then 2
    else if r.winner.Threw? then 3
    else if r.votingEnded.Threw? then 4
    else if r.voteCount.Threw? then 5
    else if r.networkId.Threw? then 6
    else 7
  }
}
