# Voting DApp client: view derivation and command gating

A model of the React client of a proposal-voting contract on Sepolia
(`src/App.js`). The client keeps a local view of the contract in state
cells (account, owner, proposals, tallies, winner, round flags, wallet
flags, the caller's remaining votes, the voting history). It refreshes that
view by reading the wallet and the contract, and it offers the commands
Vote, End Voting, Declare Winner, Reset Voting, Withdraw, Transfer
Ownership, Destroy Contract and Get Voting History.

Every remote call is an input. `Remote.Call<T>` is either the value the
call resolved to or `Threw`, and `Remote.Outcome` says whether a `send`
was committed or rejected. The model has these parts:

- `config.dfy`: the superuser address, the Sepolia chain id 11155111, the
  five votes per account, and the ten-round history window.
- `remote.dfy`: what the client reads. `Reads` holds the results of one
  load, in the order the load makes its calls.
- `history.dfy`: the history window, `slice(-10).reverse().map(parse)`.
- `view.dfy`: the state cells as one value, and their initial values.
- `sync.dfy`: pure functions for one step each. They cover the load
  routine, the account poll, the start-up connection check, and the local
  effect of each command's success or failure. The lemmas about them are
  here too.
- `controls.dfy`: which buttons are enabled, the tally shown under each
  proposal, and the wallet-status message with its priority order.
- `app.dfy`: class `Client.App`. It has one field per state cell and one
  method per handler. Each method is proved to leave the cells equal to
  the matching function of `sync.dfy`, applied to the cells as they were.

## Model

| member | source | states |
|---|---|---|
| `History.Last` | src/App.js:228 | `slice(-k)` for `k >= 1`: the last `min(k, n)` elements, in their original order |
| `History.Reverse` | src/App.js:228 | the length is kept, and element `i` of the result is element `n-1-i` of the input |
| `History.LatestHistory` | src/App.js:227-233 | the window has length `min(10, n)`; its element `i` is remote entry `n-1-i` converted, so the newest entry comes first |
| `History.WindowEntries` | src/App.js:229-233 | each kept entry has its round and vote count converted to integers and its winner name copied unchanged |
| `History.TwentyThreeRounds` | src/App.js:228-233 | with 23 rounds numbered 1..23, the window holds exactly 10 entries: rounds 23 down to 14 |
| `History.NewestFirst` | src/App.js:228 | if the remote log has increasing rounds, the window's rounds strictly decrease |
| `Sync.IsOwner` | src/App.js:35 | defines authorisation: the account equals the owner read from the contract, or the superuser address; its properties are `Sync.ProfessorIsAlwaysOwner` and `Sync.OthersNeedOwnership` |
| `Sync.CorrectNetwork` | src/App.js:54-68 | defines the network check as equality with 11155111; its property after a load is `Sync.NetworkFlagAfterLoad` |
| `Sync.RemainingVotes` | src/App.js:52 | for a vote count in 0..5 the result is in 0..5; it is 0 exactly when the count is 5, and positive below 5 |
| `Sync.Load` | src/App.js:23-68 | a thrown `getAccounts` changes nothing. No account only clears `metamaskConnected`. Otherwise the account is stored, and each read that returned before the first one that threw sets its cells: `isOwner` is "account is owner or superuser", `remainingVotes` is `5 - count`, `correctNetwork` is "id is 11155111". The cells after that read keep their old values. The history, `endVotingClicked` and both wallet flags are never touched |
| `Sync.ProfessorIsAlwaysOwner` | src/App.js:35 | the superuser account is authorised after any load that reads the owner, whoever the owner is |
| `Sync.OthersNeedOwnership` | src/App.js:35 | any other account is authorised exactly when it equals the owner the contract reports |
| `Sync.RemainingVotesAfterLoad` | src/App.js:51-52 | after a completed load with a legal count, remaining votes are in 0..5, and 0 exactly after five votes |
| `Sync.NetworkFlagAfterLoad` | src/App.js:54-68 | after a completed load, `correctNetwork` holds exactly when the network id is 11155111 |
| `Sync.LoadWithoutAccount` | src/App.js:26-30 | with an empty account list, `metamaskConnected` becomes false. Account, owner, `isOwner`, proposals, tallies, winner and remaining votes are unchanged |
| `Sync.LoadKeepsLocalState` | src/App.js:23-93 | a load never changes `endVotingClicked`, the history or `metamaskInstalled`, and never sets `metamaskConnected` |
| `Sync.LoadIdempotent` | src/App.js:23-68 | loading twice from the same reads leaves the same cells as loading once |
| `Sync.CompletedLoadForgetsPrevious` | src/App.js:31-68 | after a completed load, every cell it feeds depends only on the reads, not on the earlier view |
| `Sync.OnAccountPoll` | src/App.js:128-134 | one poll tick as a view transition: store `accounts[0]` and reload when it differs from the stored account; its properties are the four `Sync.Poll…` lemmas |
| `Sync.PollWithoutChange` | src/App.js:128-134 | a poll that finds the stored account, or whose account read throws, changes nothing and does not reload |
| `Sync.PollWithChange` | src/App.js:130-133 | a poll that finds a different account, and whose reload completes, shows the account the reload read, with its owner status and remaining votes; that is the polled account when the reload read the same list |
| `Sync.PollToNoAccount` | src/App.js:129-131 | when the wallet exposes no account any more, a poll stores `undefined` and the reload marks the wallet disconnected |
| `Sync.PollSettles` | src/App.js:128-134 | when the reload sees the same wallet as the poll, the next poll of that wallet finds no change |
| `Sync.OnConnectionCheck` | src/App.js:95-126 | the start-up check as a view transition: record installation, connection and network, and load only on Sepolia; its property is `Controls.StatusAfterConnectionCheck` |
| `Sync.AfterVote` | src/App.js:142-151 | a vote's local effect: reload on commit, nothing on rejection; see `Sync.FailuresChangeNothing` and `Sync.CommitResyncs` |
| `Sync.AfterEndVoting` | src/App.js:153-163 | End Voting's local effect: raise the flag and reload on commit; see `Sync.EndVotingRaisesFlag` |
| `Sync.AfterDeclareWinner` | src/App.js:165-176 | Declare Winner's local effect: store the winner read back and reload; see `Sync.DeclaredWinnerShown` |
| `Sync.AfterResetVoting` | src/App.js:178-189 | Reset's local effect: clear the flag and the winner, then reload; see `Sync.ResetClearsFlagAndWinner` |
| `Sync.AfterOwnerCommand` | src/App.js:191-223 | the local effect of Withdraw, Transfer and Destroy: reload on commit, nothing on rejection |
| `Sync.AfterHistoryFetch` | src/App.js:225-240 | the history fetch's local effect: the history becomes the latest window; see `Sync.HistoryFetchOnlyHistory` |
| `Sync.FailuresChangeNothing` | src/App.js:142-240 | a rejected vote, end, declare, reset, withdraw, transfer or destroy changes no cell. So does a failed winner read-back or a failed history fetch |
| `Sync.EndVotingRaisesFlag` | src/App.js:153-158 | after a successful End Voting, `endVotingClicked` is true, whatever the reload reads |
| `Sync.ResetClearsFlagAndWinner` | src/App.js:178-184 | after a successful reset, `endVotingClicked` is false. The winner is `""` unless the reload reaches its winner read; then it is the ledger's winner |
| `Sync.DeclaredWinnerShown` | src/App.js:165-171 | after a successful declaration, the winner read back is shown unless the reload reads the winner again |
| `Sync.CommitResyncs` | src/App.js:142-223 | every committed command (vote, end, declare, reset, owner commands) reloads without waiting for an event. After a completed reload the view shows the ledger's tallies, the caller's remaining votes, the round flag, the winner and the owner |
| `Sync.HistoryFetchOnlyHistory` | src/App.js:225-234 | a successful history fetch replaces only the history, with the latest window |
| `Controls.Enabled` | src/App.js:273-291 | Vote is enabled iff voting is open, the caller is not an owner and has votes left. End Voting iff owner, open and not yet clicked. Declare Winner iff owner and ended. Reset, Withdraw, Transfer and Destroy iff owner. History always. Vote is never enabled together with an owner action |
| `Controls.Tallies` | src/App.js:266-280 | one tally per proposal. Where the tally list has an entry, the card shows it; where it has none, the card shows 0. A longer tally list is cut to the proposals |
| `Controls.AlignedTallies` | src/App.js:276 | when both lists have the same length, each card shows its own tally |
| `Controls.MetamaskStatus` | src/App.js:242-253 | the message reports a condition that holds, and no message checked before it applies. "All OK" is shown iff installed, connected and on the right network |
| `Controls.StatusUnique` | src/App.js:242-253 | there is exactly one first applicable message: any status whose condition holds, with none applicable before it, is the one shown |
| `Controls.StatusTextsDistinct` | src/App.js:244-252 | the four messages have different texts |
| `Controls.FifthVoteDisablesVote` | src/App.js:273 | after a vote that brings the caller's count to 5, and a completed reload, Vote is disabled |
| `Controls.ProfessorControls` | src/App.js:285-290 | the superuser gets Reset, Withdraw, Transfer and Destroy, and no Vote button, whoever owns the contract |
| `Controls.EndVotingOfferedOnce` | src/App.js:285 | after a successful End Voting, the End Voting button stays disabled |
| `Controls.ResetReoffersEndVoting` | src/App.js:285-286 | after a successful reset, an owner whose reload reads voting as open gets End Voting again, and not Declare Winner |
| `Controls.ReconnectNeedsConnectionCheck` | src/App.js:128-140 | after a disconnect, a poll that finds an account never shows "all OK", and with MetaMask installed it leaves the connect prompt. The connection check that follows brings back "all OK" on Sepolia |
| `Controls.StatusAfterConnectionCheck` | src/App.js:95-126 | the start-up check shows "install" without a wallet and "connect" without an account. It shows "network" on a wrong network, and "all OK" on Sepolia when its reload sees the same wallet |
| `Client.App.constructor` | src/App.js:9-21 | the cells start with their initial values, including 5 remaining votes |
| `Client.App.LoadBlockchainData` | src/App.js:23-68 | sets the cells read by read, stopping at the first read that throws; the result equals `Sync.Load` of the old cells |
| `Client.App.LoadRoundState` | src/App.js:37-48 | the load's proposal, tally, winner and round-flag steps, followed by the caller steps |
| `Client.App.LoadCallerState` | src/App.js:50-68 | the load's remaining-votes and network steps |
| `Client.App.CheckMetamaskConnection` | src/App.js:95-126 | records installed, connected and network flags, and loads only on the expected network; the result equals `Sync.OnConnectionCheck` |
| `Client.App.CheckAccountChange` | src/App.js:128-134 | reloads exactly when the account just read differs from the stored one; the new cells equal `Sync.OnAccountPoll` |
| `Client.App.Vote` | src/App.js:142-151 | reloads exactly on a committed vote; otherwise no cell changes |
| `Client.App.EndVoting` | src/App.js:153-163 | on success raises `endVotingClicked` and reloads; on rejection no cell changes |
| `Client.App.DeclareWinner` | src/App.js:165-176 | on success with a winner read back, stores that winner and reloads; otherwise no cell changes |
| `Client.App.ResetVoting` | src/App.js:178-189 | on success clears `endVotingClicked` and the winner, then reloads; on rejection no cell changes |
| `Client.App.Withdraw` | src/App.js:191-200 | reloads exactly on success |
| `Client.App.TransferOwnership` | src/App.js:202-212 | reloads and requests a page restart exactly on success |
| `Client.App.DestroyContract` | src/App.js:214-223 | reloads exactly on success |
| `Client.App.GetVotingHistory` | src/App.js:225-240 | on success the history becomes the latest window; on failure it is unchanged |

## Behaviour of the code worth knowing

- A load is not atomic. The code sets one cell after each read, and a read
  that throws ends the routine. The cells fed by earlier reads already hold
  their new values (`Sync.Load`).
- A proposal list and a tally list of different lengths are not treated as
  an error. A proposal without a tally shows 0, and extra tallies are
  ignored (`Controls.Tallies`).
- The remaining votes are `5 - count`, with no clamping. They lie in 0..5
  only when the contract reports at most five votes (`Sync.RemainingVotes`).
- A command reloads the view only after the ledger accepted it. A rejected
  command changes nothing and does not reload.
- Reloads are neither serialised nor coalesced: every trigger starts an
  independent load.
- `winner || ""` has no effect on the string the contract returns, so the
  winner read is modelled as a string.

## Left out

- The wallet and contract calls (`getAccounts`, `.call()`, `.send()`, `toWei`, `net.getId`) are remote I/O. Their results are parameters.
- `parseInt` is a library routine. Every number the client parses (tallies, the vote count, the network id, history fields) arrives as a `Remote.Numeric`. `Remote.ToInt` and `Remote.ToInts` stand for the conversion, which never fails in the model.
- The event subscriptions (src/App.js:71-88) are asynchronous callbacks. Each delivered event only triggers another load, which `Sync.Load` covers. The model does not capture that every completed load adds two more subscriptions.
- `Client.App.CheckAccountChange` and `Sync.OnAccountPoll` model one poll tick only. React re-runs the effect at src/App.js:136-140 whenever `account` changes, because `checkAccountChange` depends on `account` (src/App.js:134). That re-run calls the connection check again, and it is the only path after start-up that sets `metamaskConnected` back to true (src/App.js:103). The model does not chain the two: a caller must run `Client.App.CheckMetamaskConnection` after a poll that reloaded, as `Controls.ReconnectNeedsConnectionCheck` shows.
- The one-second account poll timer (src/App.js:136-140) is not modelled. Nor is the interleaving of loads that are started without `await`: the model runs the reload of each handler to completion before the handler returns. A single poll tick is modelled (`Client.App.CheckAccountChange`).
- React's capture of `account` inside the poll callback is not modelled: the model compares against the current cell.
- `alert`, `console.*`, `prompt` and `window.location.reload` are browser I/O. The page restart after a transfer is only the `restart` result.
- The JSX layout, the winner CSS class and the image URLs (src/App.js:255-303) are presentation.
