/** Build-time constants of the voting client. */
module Config {
  /** The superuser whose account is always treated as an owner. */
  const PROFESSOR_ADDRESS: string := "0x153dfef4355E823dCB0FCc76Efe942BefCa86477"

  /** Chain id of the Sepolia test network, the only network the client accepts. */
  const EXPECTED_NETWORK_ID: int := 11155111

  /** Number of votes one account may cast per round (also the initial remaining-votes value). */
  const VOTES_PER_ACCOUNT: int := 5

  /** Number of history rounds the client keeps after a fetch. */
  const HISTORY_WINDOW: nat := 10
}
