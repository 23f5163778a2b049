/**
 * Funding index and join (`buildInitStakeInstructionsList`): the
 * account-creation instructions of the transaction history, tagged with their
 * transaction's block time, and for each stake account the first of them
 * that created it.
 */
module FundingIndex {
  import opened Wrappers
  import opened LedgerTypes
  import opened StakeProjection

  /** An instruction together with its transaction's `blockTime`. */
  datatype Tagged = Tagged(instr: Instruction, blockTime: Option<int>)

  predicate OccursAt(s: string, sub: string, i: int) {
    0 <= i && i + |sub| <= |s| && s[i..i + |sub|] == sub
  }

  /** `String.prototype.includes`. */
  function Includes(s: string, sub: string): (b: bool)
    ensures b ==> |sub| <= |s|
    decreases |s|
  {
    |sub| <= |s| && (s[..|sub|] == sub || Includes(s[1..], sub))
  }

  /** A substring occurring at position i is found. */
  lemma {:induction false} IncludesComplete(s: string, sub: string, i: nat)
    requires OccursAt(s, sub, i)
    ensures Includes(s, sub)
    decreases i
  {
    if i > 0 && s[..|sub|] != sub {
      assert s[1..][i - 1..i - 1 + |sub|] == s[i..i + |sub|];
      IncludesComplete(s[1..], sub, i - 1);
    }
  }

  /** What `includes` finds occurs at some position. */
  lemma {:induction false} IncludesSound(s: string, sub: string)
    requires Includes(s, sub)
    ensures exists i :: OccursAt(s, sub, i)
    decreases |s|
  {
    if s[..|sub|] == sub {
      assert OccursAt(s, sub, 0);
    } else {
      IncludesSound(s[1..], sub);
      var i :| OccursAt(s[1..], sub, i);
      assert s[1..][i..i + |sub|] == s[i + 1..i + 1 + |sub|];
      assert OccursAt(s, sub, i + 1);
    }
  }

  /** `includes` holds exactly when the substring occurs at some position. */
  lemma IncludesIff(s: string, sub: string)
    ensures Includes(s, sub) <==> exists i :: OccursAt(s, sub, i)
  {
    if Includes(s, sub) {
      IncludesSound(s, sub);
    } else if exists i :: OccursAt(s, sub, i) {
      var i :| OccursAt(s, sub, i);
      IncludesComplete(s, sub, i);
    }
  }

  /** The instructions of one transaction, each tagged with its block time. */
  function TagAll(tx: Transaction): (r: seq<Tagged>)
    ensures |r| == |tx.instructions|
    ensures forall j :: 0 <= j < |r| ==> r[j] == Tagged(tx.instructions[j], tx.blockTime)
  {
    seq(|tx.instructions|, j requires 0 <= j < |tx.instructions| => Tagged(tx.instructions[j], tx.blockTime))
  }

  function TagEntry(t: Option<Transaction>): seq<Tagged> {
    match t
    case None => []
    case Some(tx) => TagAll(tx)
  }

  /** All instructions of the non-null transactions, in transaction order. */
  function Flatten(h: seq<Option<Transaction>>): (r: seq<Tagged>)
    ensures forall e :: e in r ==>
      (exists i :: 0 <= i < |h| && h[i].Some? && e.blockTime == h[i].value.blockTime && e.instr in h[i].value.instructions)
  {
    if h == [] then [] else TagEntry(h[0]) + Flatten(h[1..])
  }

  /** Flattening distributes over concatenation, so transaction order is kept. */
  lemma {:induction false} FlattenAppend(a: seq<Option<Transaction>>, b: seq<Option<Transaction>>)
    ensures Flatten(a + b) == Flatten(a) + Flatten(b)
  {
    if a == [] {
      assert a + b == b;
    } else {
      assert (a + b)[1..] == a[1..] + b;
      FlattenAppend(a[1..], b);
    }
  }

  /** Pushing one more transaction appends its tagged instructions. */
  lemma FlattenSnoc(h: seq<Option<Transaction>>, i: nat)
    requires i < |h|
    ensures Flatten(h[..i + 1]) == Flatten(h[..i]) + TagEntry(h[i])
  {
    assert h[..i + 1] == h[..i] + [h[i]];
    FlattenAppend(h[..i], [h[i]]);
    assert [h[i]][1..] == [];
  }

  /** An entry is in the flattened list exactly when it is some instruction of some non-null transaction. */
  lemma {:induction false} FlattenMember(h: seq<Option<Transaction>>, e: Tagged)
    ensures e in Flatten(h) <==>
      exists i, j :: 0 <= i < |h| && h[i].Some? && 0 <= j < |h[i].value.instructions|
                     && e == Tagged(h[i].value.instructions[j], h[i].value.blockTime)
  {
    if h != [] {
      FlattenMember(h[1..], e);
      if e in TagEntry(h[0]) {
        var j :| 0 <= j < |TagEntry(h[0])| && TagEntry(h[0])[j] == e;
        assert h[0].Some?;
      } else if e in Flatten(h[1..]) {
        var i, j :| 0 <= i < |h[1..]| && h[1..][i].Some? && 0 <= j < |h[1..][i].value.instructions|
                    && e == Tagged(h[1..][i].value.instructions[j], h[1..][i].value.blockTime);
        assert h[i + 1] == h[1..][i];
      } else {
        forall i, j | 0 <= i < |h| && h[i].Some? && 0 <= j < |h[i].value.instructions|
          ensures e != Tagged(h[i].value.instructions[j], h[i].value.blockTime)
        {
          if i > 0 {
            assert h[1..][i - 1] == h[i];
          } else {
            assert TagEntry(h[0])[j] == Tagged(h[i].value.instructions[j], h[i].value.blockTime);
          }
        }
      }
    }
  }

  /** `instr.parsed?.type?.includes("createAccount")`. */
  predicate IsCreateAccount(e: Tagged)
    ensures IsCreateAccount(e) ==> e.instr.parsed.Some? && e.instr.parsed.value.kind.Some? && |e.instr.parsed.value.kind.value| >= |"createAccount"|
  {
    e.instr.parsed.Some? && e.instr.parsed.value.kind.Some?
    && Includes(e.instr.parsed.value.kind.value, "createAccount")
  }

  /** The creation instructions, in order. */
  function FilterCreateAccount(es: seq<Tagged>): (r: seq<Tagged>)
    ensures |r| <= |es|
    ensures forall e :: e in r <==> e in es && IsCreateAccount(e)
  {
    if es == [] then []
    else (if IsCreateAccount(es[0]) then [es[0]] else []) + FilterCreateAccount(es[1..])
  }

  /** The filter keeps order: it distributes over concatenation. */
  lemma {:induction false} FilterAppend(a: seq<Tagged>, b: seq<Tagged>)
    ensures FilterCreateAccount(a + b) == FilterCreateAccount(a) + FilterCreateAccount(b)
  {
    if a == [] {
      assert a + b == b;
    } else {
      assert (a + b)[1..] == a[1..] + b;
      FilterAppend(a[1..], b);
    }
  }

  /** The funding candidates of a transaction history. */
  function FundingEntries(h: seq<Option<Transaction>>): seq<Tagged> {
    FilterCreateAccount(Flatten(h))
  }

  /**
   * The candidates of a longer history are those of the earlier transactions
   * followed by those of the later ones, so the first match is the first in
   * transaction order.
   */
  lemma FundingEntriesAppend(a: seq<Option<Transaction>>, b: seq<Option<Transaction>>)
    ensures FundingEntries(a + b) == FundingEntries(a) + FundingEntries(b)
  {
    FlattenAppend(a, b);
    FilterAppend(Flatten(a), Flatten(b));
  }

  /** `instr.parsed?.info.newAccount`, None when absent. */
  function NewAccount(e: Tagged): Option<string> {
    if e.instr.parsed.Some? && e.instr.parsed.value.info.Some?
    then e.instr.parsed.value.info.value.newAccount else None
  }

  /** The lookup does not throw on this entry: it is unparsed, or parsed with an `info`. */
  predicate InfoReadable(e: Tagged) {
    e.instr.parsed.None? || e.instr.parsed.value.info.Some?
  }

  /**
   * `Array.find` reads `info.newAccount` of every entry up to the first match,
   * and throws on a parsed entry without `info`.
   */
  predicate ScanSafe(es: seq<Tagged>, key: string) {
    es == [] || (InfoReadable(es[0]) && (NewAccount(es[0]) == Some(key) || ScanSafe(es[1..], key)))
  }

  /** The first entry that created account `key`. */
  function FindFunding(es: seq<Tagged>, key: string): (r: Option<Tagged>)
    requires ScanSafe(es, key)
    ensures r.Some? ==> r.value in es && NewAccount(r.value) == Some(key)
  {
    if es == [] then None
    else if NewAccount(es[0]) == Some(key) then Some(es[0])
    else FindFunding(es[1..], key)
  }

  /** The lookup returns the FIRST entry naming the account when there are several. */
  lemma {:induction false} FindFundingIsFirstMatch(es: seq<Tagged>, key: string, k: nat)
    requires ScanSafe(es, key)
    requires k < |es| && NewAccount(es[k]) == Some(key)
    requires forall j :: 0 <= j < k ==> NewAccount(es[j]) != Some(key)
    ensures FindFunding(es, key) == Some(es[k])
  {
    if k > 0 {
      assert NewAccount(es[0]) != Some(key);
      FindFundingIsFirstMatch(es[1..], key, k - 1);
    }
  }

  /** The lookup finds nothing exactly when no entry names the account. */
  lemma {:induction false} FindFundingNone(es: seq<Tagged>, key: string)
    requires ScanSafe(es, key)
    ensures FindFunding(es, key).None? <==> forall j :: 0 <= j < |es| ==> NewAccount(es[j]) != Some(key)
  {
    if es != [] && NewAccount(es[0]) != Some(key) {
      FindFundingNone(es[1..], key);
      assert forall j :: 1 <= j < |es| ==> es[j] == es[1..][j - 1];
    }
  }

  /** `selected?.parsed?.info.lamports`. */
  function FundedLamports(sel: Option<Tagged>): (r: Option<nat>)
    ensures sel.None? ==> r.None?
    ensures r.Some? ==> sel.Some? && sel.value.instr.parsed.Some? && sel.value.instr.parsed.value.info.Some?
                        && sel.value.instr.parsed.value.info.value.lamports == r
  {
    match sel
    case None => None
    case Some(e) =>
      if e.instr.parsed.Some? && e.instr.parsed.value.info.Some?
      then e.instr.parsed.value.info.value.lamports else None
  }

  /** The stake with the amount and block time of its first funding instruction attached. */
  function FundStake(s: StakeAccount, es: seq<Tagged>): (r: FundedStake)
    requires ScanSafe(es, s.pubkey)
    ensures r.account == s
    ensures FindFunding(es, s.pubkey).None? ==> r.initStake.None? && r.blockTime.None?
    ensures FindFunding(es, s.pubkey).Some? ==> r.blockTime == FindFunding(es, s.pubkey).value.blockTime
  {
    var sel := FindFunding(es, s.pubkey);
    FundedStake(s, FundedLamports(sel), match sel { case None => None case Some(e) => e.blockTime })
  }

  predicate JoinSafe(stakes: seq<StakeAccount>, es: seq<Tagged>) {
    forall i :: 0 <= i < |stakes| ==> ScanSafe(es, stakes[i].pubkey)
  }

  /** Every stake keeps its place and gets its funding attached. */
  function JoinFunding(stakes: seq<StakeAccount>, es: seq<Tagged>): (r: seq<FundedStake>)
    requires JoinSafe(stakes, es)
    ensures |r| == |stakes|
    ensures forall i :: 0 <= i < |stakes| ==> r[i] == FundStake(stakes[i], es)
  {
    seq(|stakes|, i requires 0 <= i < |stakes| => FundStake(stakes[i], es))
  }

  /**
   * The join attaches the lamports and block time of the first creation
   * entry whose `newAccount` is the stake's own pubkey.
   */
  lemma JoinUsesFirstFunding(stakes: seq<StakeAccount>, es: seq<Tagged>, i: nat, k: nat)
    requires JoinSafe(stakes, es)
    requires i < |stakes| && k < |es| && NewAccount(es[k]) == Some(stakes[i].pubkey)
    requires forall j :: 0 <= j < k ==> NewAccount(es[j]) != Some(stakes[i].pubkey)
    ensures JoinFunding(stakes, es)[i].initStake == es[k].instr.parsed.value.info.value.lamports
    ensures JoinFunding(stakes, es)[i].blockTime == es[k].blockTime
  {
    FindFundingIsFirstMatch(es, stakes[i].pubkey, k);
  }

  /** A stake that no entry created has neither an initial stake nor a block time. */
  lemma JoinUnfunded(stakes: seq<StakeAccount>, es: seq<Tagged>, i: nat)
    requires JoinSafe(stakes, es)
    requires i < |stakes|
    requires forall j :: 0 <= j < |es| ==> NewAccount(es[j]) != Some(stakes[i].pubkey)
    ensures JoinFunding(stakes, es)[i].initStake.None?
    ensures JoinFunding(stakes, es)[i].blockTime.None?
  {
    FindFundingNone(es, stakes[i].pubkey);
  }

  predicate StakesProjectionSafe(stakes: seq<StakeAccount>) {
    forall i :: 0 <= i < |stakes| ==> stakes[i].data != ParsedStake(None)
  }

  /**
   * `buildInitStakeInstructionsList`: nothing happens without a history;
   * otherwise the instructions of the non-null transactions are pushed into
   * one list, filtered to creations, joined with the stakes and projected
   * into the stakes table.
   */
  method BuildInitStakeInstructionsList(history: Option<seq<Option<Transaction>>>, stakes: seq<StakeAccount>)
    returns (table: Option<seq<StakeRow>>)
    requires history.Some? ==> JoinSafe(stakes, FundingEntries(history.value))
    requires history.Some? ==> StakesProjectionSafe(stakes)
    ensures table.None? <==> history.None?
    ensures table.Some? ==> |table.value| == |stakes|
    ensures table.Some? ==> forall i :: 0 <= i < |stakes| ==>
      table.value[i] == Project(FundStake(stakes[i], FundingEntries(history.value)))
  {
    if history.None? {
      return None;
    }
    var h := history.value;
    var instructions: seq<Tagged> := [];
    var i := 0;
    while i < |h|
      invariant 0 <= i <= |h|
      invariant instructions == Flatten(h[..i])
    {
      FlattenSnoc(h, i);
      if h[i].Some? {
        instructions := instructions + TagAll(h[i].value);
      }
      i := i + 1;
    }
    assert h[..|h|] == h;
    instructions := FilterCreateAccount(instructions);
    var funded := JoinFunding(stakes, instructions);
    table := Some(PrepareStakesTableData(funded));
  }
}
