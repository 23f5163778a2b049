/**
 * Portfolio totals (`total_stake`, `total_init_stake`, `total_reward`,
 * `total_return`), in lamports before the display division.
 */
module Portfolio {
  import opened Wrappers
  import opened LedgerTypes

  /** `item.initStake || item.stake`: an unknown or zero initial stake falls back to the stake. */
  function InitOrStake(row: StakeRow): (r: nat)
    ensures Truthy(row.initStake) ==> r == row.initStake.value
    ensures !Truthy(row.initStake) ==> r == row.stake
  {
    if row.initStake.Some? && row.initStake.value != 0 then row.initStake.value else row.stake
  }

  /** Left fold of `reduce`: Σ stake. */
  function TotalStake(rows: seq<StakeRow>): (r: int)
    ensures r >= 0
  {
    if rows == [] then 0 else TotalStake(rows[..|rows| - 1]) + rows[|rows| - 1].stake
  }

  /** Σ (initStake || stake). */
  function TotalInitStake(rows: seq<StakeRow>): (r: int)
    ensures r >= 0
  {
    if rows == [] then 0 else TotalInitStake(rows[..|rows| - 1]) + InitOrStake(rows[|rows| - 1])
  }

  /** Σ (stake − (initStake || stake)). */
  function TotalReward(rows: seq<StakeRow>): (r: int)
    ensures r <= TotalStake(rows)
  {
    if rows == [] then 0
    else TotalReward(rows[..|rows| - 1]) + (rows[|rows| - 1].stake - InitOrStake(rows[|rows| - 1]))
  }

  /** The three totals are sums: they add up over concatenation, so fold order does not matter. */
  lemma {:induction false} TotalsAppend(a: seq<StakeRow>, b: seq<StakeRow>)
    ensures TotalStake(a + b) == TotalStake(a) + TotalStake(b)
    ensures TotalInitStake(a + b) == TotalInitStake(a) + TotalInitStake(b)
    ensures TotalReward(a + b) == TotalReward(a) + TotalReward(b)
    decreases |b|
  {
    if b == [] {
      assert a + b == a;
    } else {
      var n := |b| - 1;
      assert (a + b)[..|a + b| - 1] == a + b[..n];
      assert (a + b)[|a + b| - 1] == b[n];
      assert b[..n] == b[..|b| - 1];
      TotalsAppend(a, b[..n]);
    }
  }

  /** Total reward is total stake minus total initial stake. */
  lemma {:induction false} TotalRewardIsDifference(rows: seq<StakeRow>)
    ensures TotalReward(rows) == TotalStake(rows) - TotalInitStake(rows)
  {
    if rows != [] {
      TotalRewardIsDifference(rows[..|rows| - 1]);
    }
  }

  /** A row without a known (or with a zero) initial stake adds its stake to both totals and nothing to the reward. */
  lemma UnfundedRowAddsNoReward(rows: seq<StakeRow>, row: StakeRow)
    requires !Truthy(row.initStake)
    ensures TotalReward(rows + [row]) == TotalReward(rows)
    ensures TotalInitStake(rows + [row]) == TotalInitStake(rows) + row.stake
    ensures TotalStake(rows + [row]) == TotalStake(rows) + row.stake
  {
    assert (rows + [row])[..|rows|] == rows;
  }

  /** A zero total initial stake forces every stake, hence the reward, to be zero: the return is 0/0. */
  lemma {:induction false} ZeroInitMeansZeroReward(rows: seq<StakeRow>)
    requires TotalInitStake(rows) == 0
    ensures TotalReward(rows) == 0
  {
    if rows != [] {
      var n := |rows| - 1;
      assert InitOrStake(rows[n]) == 0;
      ZeroInitMeansZeroReward(rows[..n]);
    }
  }

  /**
   * `total_reward / total_init_stake * 100`; NaN (None) when the total
   * initial stake is zero, which only happens as 0/0.
   */
  function TotalReturn(rows: seq<StakeRow>): (r: Option<real>)
    ensures r.None? <==> TotalInitStake(rows) == 0
    ensures r.Some? ==> r.value * TotalInitStake(rows) as real == TotalReward(rows) as real * 100.0
  {
    var init := TotalInitStake(rows);
    if init == 0 then None else Some(TotalReward(rows) as real / init as real * 100.0)
  }

  /** The return is non-negative exactly when the portfolio is worth at least what was put in. */
  lemma TotalReturnSign(rows: seq<StakeRow>)
    requires TotalReturn(rows).Some?
    ensures TotalReturn(rows).value >= 0.0 <==> TotalStake(rows) >= TotalInitStake(rows)
  {
    TotalRewardIsDifference(rows);
  }
}
