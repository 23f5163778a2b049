/**
 * Stake record projection (`prepareStakesTableData`): one stakes-table row per
 * funded stake account, in the same order.
 */
module StakeProjection {
  import opened Wrappers
  import opened LedgerTypes

  /**
   * `item.account.data.parsed?.info.stake.delegation` throws when the data is
   * parsed but the account is not delegated (`stake` is null).
   */
  predicate ProjectionSafe(s: FundedStake) {
    s.account.data != ParsedStake(None)
  }

  /** The activation epoch; NaN (None) when the account data is not parsed. */
  function ActivationEpoch(d: StakeData): (r: Option<int>)
    requires d != ParsedStake(None)
    ensures r.Some? <==> d.ParsedStake?
    ensures r.Some? ==> r.value == d.stake.value.activationEpoch
  {
    match d
    case Unparsed => None
    case ParsedStake(del) => Some(del.value.activationEpoch)
  }

  /**
   * The row for one stake: its balance is the current stake, and the reward
   * is balance minus initial stake, NaN (None) when the initial stake is unknown.
   */
  function Project(s: FundedStake): (r: StakeRow)
    requires ProjectionSafe(s)
    ensures r.pubkey == s.account.pubkey && r.stake == s.account.lamports
    ensures r.initStake == s.initStake && r.blockTime == s.blockTime
    ensures r.rentEpoch == s.account.rentEpoch
    ensures r.activationEpoch == ActivationEpoch(s.account.data)
    ensures r.reward.Some? <==> s.initStake.Some?
    ensures r.reward.Some? ==> r.reward.value + s.initStake.value == s.account.lamports
  {
    StakeRow(
      s.account.pubkey,
      s.initStake,
      s.account.lamports,
      match s.initStake { case None => None case Some(init) => Some(s.account.lamports - init) },
      ActivationEpoch(s.account.data),
      s.account.rentEpoch,
      s.blockTime)
  }

  predicate AllProjectionSafe(stakes: seq<FundedStake>) {
    forall i :: 0 <= i < |stakes| ==> ProjectionSafe(stakes[i])
  }

  /** `prepareStakesTableData`: one row per stake, in input order; empty input gives []. */
  function PrepareStakesTableData(stakes: seq<FundedStake>): (rows: seq<StakeRow>)
    requires AllProjectionSafe(stakes)
    ensures |rows| == |stakes|
    ensures forall i :: 0 <= i < |stakes| ==> rows[i] == Project(stakes[i])
  {
    seq(|stakes|, i requires 0 <= i < |stakes| => Project(stakes[i]))
  }

  /** The record invariant: the reward is known exactly when the initial stake is, and is their difference. */
  predicate RowConsistent(row: StakeRow) {
    && (row.reward.Some? <==> row.initStake.Some?)
    && (row.reward.Some? ==> row.reward.value == row.stake - row.initStake.value)
  }

  /** Every projected row keeps the record invariant. */
  lemma ProjectedRowsConsistent(stakes: seq<FundedStake>)
    requires AllProjectionSafe(stakes)
    ensures forall i :: 0 <= i < |stakes| ==> RowConsistent(PrepareStakesTableData(stakes)[i])
  {
  }
}
