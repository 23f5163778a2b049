/**
 * The reconciliation pipeline end to end: funding index, join, projection
 * and portfolio totals, on two small histories.
 */
module Reconciliation {
  import opened Wrappers
  import opened LedgerTypes
  import opened StakeProjection
  import opened FundingIndex
  import opened Portfolio

  /** The stakes table that `buildInitStakeInstructionsList` stores for a history. */
  function Reconcile(history: seq<Option<Transaction>>, stakes: seq<StakeAccount>): (rows: seq<StakeRow>)
    requires JoinSafe(stakes, FundingEntries(history))
    requires StakesProjectionSafe(stakes)
    ensures |rows| == |stakes|
    ensures forall i :: 0 <= i < |rows| ==> rows[i].pubkey == stakes[i].pubkey && rows[i].stake == stakes[i].lamports
    ensures forall i :: 0 <= i < |rows| ==> RowConsistent(rows[i])
    ensures forall i :: 0 <= i < |rows| ==> rows[i] == Project(FundStake(stakes[i], FundingEntries(history)))
  {
    PrepareStakesTableData(JoinFunding(stakes, FundingEntries(history)))
  }

  function CreateAccount(newAccount: string, lamports: nat): Instruction {
    Instruction(Some(Parsed(Some("createAccount"), Some(Info(Some(lamports), None, None, Some(newAccount))))))
  }

  /** The creation type test is a substring test: "createAccountWithSeed" counts too. */
  lemma CreateAccountWithSeedCounts(e: Tagged)
    requires e.instr.parsed == Some(Parsed(Some("createAccountWithSeed"), None))
    ensures IsCreateAccount(e)
  {
    IncludesIff("createAccountWithSeed", "createAccount");
    assert OccursAt("createAccountWithSeed", "createAccount", 0);
  }

  /** A transfer is not a creation. */
  lemma TransferIsNotCreateAccount(e: Tagged)
    requires e.instr.parsed.Some? && e.instr.parsed.value.kind == Some("transfer")
    ensures !IsCreateAccount(e)
  {
    IncludesIff("transfer", "createAccount");
  }

  /** Account "A" funded with 1 000 000 000 lamports and now holding 2 000 000 000 earns a 100% return. */
  lemma FundedScenario(blockTime: int)
    ensures
      var history := [Some(Transaction(7, Some(blockTime), [CreateAccount("A", 1_000_000_000)], None))];
      var stakes := [StakeAccount("A", 2_000_000_000, Unparsed, None)];
      && JoinSafe(stakes, FundingEntries(history))
      && StakesProjectionSafe(stakes)
      && var rows := Reconcile(history, stakes);
      && rows[0].initStake == Some(1_000_000_000)
      && rows[0].reward == Some(1_000_000_000)
      && rows[0].blockTime == Some(blockTime)
      && TotalReturn(rows) == Some(100.0)
  {
    var tx := Transaction(7, Some(blockTime), [CreateAccount("A", 1_000_000_000)], None);
    var history := [Some(tx)];
    var stakes := [StakeAccount("A", 2_000_000_000, Unparsed, None)];
    var e := Tagged(CreateAccount("A", 1_000_000_000), Some(blockTime));
    assert history[..0] == [];
    assert Flatten(history) == [e];
    assert IsCreateAccount(e) by {
      IncludesIff("createAccount", "createAccount");
      assert OccursAt("createAccount", "createAccount", 0);
    }
    assert [e][1..] == [];
    assert FundingEntries(history) == [e];
    assert ScanSafe([e], "A");
    var rows := Reconcile(history, stakes);
    assert rows[0] == Project(FundStake(stakes[0], [e]));
    assert rows == [rows[0]];
    assert rows[..0] == [];
    assert TotalInitStake(rows) == 1_000_000_000;
    assert TotalReward(rows) == 1_000_000_000;
  }

  /** Account "B" with no creation instruction: initial stake falls back to its balance and the reward is 0. */
  lemma UnfundedScenario()
    ensures
      var stakes := [StakeAccount("B", 500_000_000, Unparsed, None)];
      && JoinSafe(stakes, FundingEntries([]))
      && var rows := Reconcile([], stakes);
      && rows[0].initStake == None
      && rows[0].reward == None
      && TotalInitStake(rows) == 500_000_000
      && TotalReward(rows) == 0
      && TotalReturn(rows) == Some(0.0)
  {
    var stakes := [StakeAccount("B", 500_000_000, Unparsed, None)];
    assert FundingEntries([]) == [];
    var rows := Reconcile([], stakes);
    assert rows == [rows[0]];
    assert rows[..0] == [];
  }
}
