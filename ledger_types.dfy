/**
 * The records the dashboard receives from the ledger client, already fetched
 * and parsed, and the stake row shown in the stakes table.
 * All amounts are integer lamports.
 */
module LedgerTypes {
  import opened Wrappers

  /** The `info` payload of a parsed instruction; every field may be missing. */
  datatype Info = Info(
    lamports: Option<nat>,
    // numeric value of the string `amount` field; None when the field is
    // missing or does not read as a number (Number(...) gives NaN)
    amount: Option<int>,
    destination: Option<string>,
    newAccount: Option<string>)

  /** `instruction.parsed`: the type tag (`type` in the client) and its payload. */
  datatype Parsed = Parsed(kind: Option<string>, info: Option<Info>)

  /** An instruction; `parsed` is missing for instructions the client could not decode. */
  datatype Instruction = Instruction(parsed: Option<Parsed>)

  /**
   * A parsed transaction with its metadata. `err` is the execution error,
   * None when the metadata carries `null`.
   */
  datatype Transaction = Transaction(
    slot: nat,
    blockTime: Option<int>,
    instructions: seq<Instruction>,
    err: Option<string>)

  /** JavaScript truthiness of the execution error (an empty string is falsy). */
  predicate ErrTruthy(err: Option<string>) {
    err.Some? && err.value != ""
  }

  datatype Delegation = Delegation(activationEpoch: int)

  /**
   * The data of a stake account: raw bytes, or parsed with its `stake` part,
   * which is null for an account that is initialised but not delegated.
   */
  datatype StakeData = Unparsed | ParsedStake(stake: Option<Delegation>)

  /** A stake account owned by the tracked address. */
  datatype StakeAccount = StakeAccount(
    pubkey: string,
    lamports: nat,
    data: StakeData,
    rentEpoch: Option<int>)

  /** A stake account after the funding lookup has attached `initStake` and `blockTime`. */
  datatype FundedStake = FundedStake(
    account: StakeAccount,
    initStake: Option<nat>,
    blockTime: Option<int>)

  /** A row of the stakes table (`StakesTableItem`). */
  datatype StakeRow = StakeRow(
    pubkey: string,
    initStake: Option<nat>,
    stake: nat,
    reward: Option<int>,
    activationEpoch: Option<int>,
    rentEpoch: Option<int>,
    blockTime: Option<int>)

  /** One entry of an inflation-reward batch. */
  datatype Reward = Reward(epoch: nat, amount: nat, postBalance: nat)
}
