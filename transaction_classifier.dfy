/**
 * Transaction classification (`prepareTransactionsTableData`): keeps the
 * transactions that hold a transfer instruction with a payload and turns each
 * into a ledger row with a signed volume and a Success/Failed status.
 */
module TransactionClassifier {
  import opened Wrappers
  import opened LedgerTypes

  datatype Status = Success | Failed

  /** A row of the transactions table (`TransactionsTableItem`). */
  datatype TxRow = TxRow(volume: Option<int>, slot: nat, blockTime: Option<int>, status: Status)

  predicate IsTransfer(ins: Instruction) {
    ins.parsed.Some? && ins.parsed.value.kind == Some("transfer")
  }

  /** `info` of the first transfer instruction; None when there is none or it carries no info. */
  function TransferInfo(instrs: seq<Instruction>): (r: Option<Info>)
    ensures r.Some? ==> exists k :: 0 <= k < |instrs| && IsTransfer(instrs[k]) && instrs[k].parsed.value.info == r
  {
    if instrs == [] then None
    else if IsTransfer(instrs[0]) then instrs[0].parsed.value.info
    else TransferInfo(instrs[1..])
  }

  /** The volume is taken from the first transfer instruction, whichever it is. */
  lemma {:induction false} TransferInfoIsFirstTransfer(instrs: seq<Instruction>, k: nat)
    requires k < |instrs| && IsTransfer(instrs[k])
    requires forall j :: 0 <= j < k ==> !IsTransfer(instrs[j])
    ensures TransferInfo(instrs) == instrs[k].parsed.value.info
  {
    if k > 0 {
      assert !IsTransfer(instrs[0]);
      TransferInfoIsFirstTransfer(instrs[1..], k - 1);
    }
  }

  /** Without a transfer instruction there is no info, so the transaction is dropped. */
  lemma {:induction false} TransferInfoNoTransfer(instrs: seq<Instruction>)
    requires forall j :: 0 <= j < |instrs| ==> !IsTransfer(instrs[j])
    ensures TransferInfo(instrs) == None
  {
    if instrs != [] {
      assert !IsTransfer(instrs[0]);
      TransferInfoNoTransfer(instrs[1..]);
    }
  }

  /** `info.lamports || Number(info.amount) || undefined`: zero counts as missing. */
  function RawVolume(info: Info): (r: Option<int>)
    ensures r.Some? <==> Truthy(info.lamports) || Truthy(info.amount)
    ensures r.Some? ==> r.value != 0
    ensures Truthy(info.lamports) ==> r == info.lamports
    ensures !Truthy(info.lamports) && Truthy(info.amount) ==> r == info.amount
  {
    if info.lamports.Some? && info.lamports.value != 0 then Some(info.lamports.value as int)
    else if Truthy(info.amount) then info.amount
    else None
  }

  /**
   * The raw volume negated when the destination is not the tracked address
   * (`publicKey?.toString()`, None when no wallet is connected); a missing
   * volume stays missing (`undefined * -1` is NaN).
   */
  function SignedVolume(info: Info, tracked: Option<string>): (r: Option<int>)
    ensures r.Some? <==> RawVolume(info).Some?
    ensures r.Some? ==> r.value == RawVolume(info).value || r.value == -RawVolume(info).value
    ensures r.Some? ==> (r.value == RawVolume(info).value <==> info.destination == tracked)
    ensures r.Some? && RawVolume(info).value > 0 ==> (r.value > 0 <==> info.destination == tracked)
  {
    match RawVolume(info)
    case None => None
    case Some(v) => if info.destination != tracked then Some(-v) else Some(v)
  }

  /** The row for one transaction, or None when the transaction is dropped. */
  function ClassifyOne(tx: Transaction, tracked: Option<string>): (r: Option<TxRow>)
    ensures r.Some? <==> TransferInfo(tx.instructions).Some?
    ensures r.Some? ==> r.value.slot == tx.slot
    ensures r.Some? ==> (r.value.status == Failed <==> ErrTruthy(tx.err))
    ensures r.Some? ==> r.value.volume == SignedVolume(TransferInfo(tx.instructions).value, tracked)
    ensures r.Some? ==> (r.value.blockTime.Some? <==> Truthy(tx.blockTime))
    ensures r.Some? && r.value.blockTime.Some? ==> r.value.blockTime == tx.blockTime
  {
    match TransferInfo(tx.instructions)
    case None => None
    case Some(info) =>
      Some(TxRow(
        SignedVolume(info, tracked),
        tx.slot,
        if Truthy(tx.blockTime) then tx.blockTime else None,
        if ErrTruthy(tx.err) then Failed else Success))
  }

  predicate AllPresent(txs: seq<Option<Transaction>>) {
    forall i :: 0 <= i < |txs| ==> txs[i].Some?
  }

  /**
   * `prepareTransactionsTableData`: every entry is dereferenced, so none may
   * be null; an empty input gives no rows.
   */
  function PrepareTransactionsTableData(txs: seq<Option<Transaction>>, tracked: Option<string>): (rows: seq<TxRow>)
    requires AllPresent(txs)
    ensures |rows| <= |txs|
    ensures txs == [] ==> rows == []
  {
    if txs == [] then []
    else
      (match ClassifyOne(txs[0].value, tracked) case None => [] case Some(row) => [row])
      + PrepareTransactionsTableData(txs[1..], tracked)
  }

  /** Classification preserves order: it distributes over concatenation. */
  lemma {:induction false} ClassifyAppend(a: seq<Option<Transaction>>, b: seq<Option<Transaction>>, tracked: Option<string>)
    requires AllPresent(a) && AllPresent(b)
    ensures AllPresent(a + b)
    ensures PrepareTransactionsTableData(a + b, tracked)
         == PrepareTransactionsTableData(a, tracked) + PrepareTransactionsTableData(b, tracked)
  {
    if a != [] {
      assert (a + b)[1..] == a[1..] + b;
      ClassifyAppend(a[1..], b, tracked);
    } else {
      assert a + b == b;
    }
  }

  /** A single transaction gives its row when it has transfer info and nothing otherwise. */
  lemma ClassifySingle(tx: Transaction, tracked: Option<string>)
    ensures AllPresent([Some(tx)])
    ensures PrepareTransactionsTableData([Some(tx)], tracked)
         == if TransferInfo(tx.instructions).Some? then [ClassifyOne(tx, tracked).value] else []
  {
    assert [Some(tx)][1..] == [];
  }

  /** A transaction without transfer info leaves no trace in the output, wherever it sits. */
  lemma DropsTransactionWithoutTransfer(a: seq<Option<Transaction>>, tx: Transaction, b: seq<Option<Transaction>>, tracked: Option<string>)
    requires AllPresent(a) && AllPresent(b)
    requires TransferInfo(tx.instructions).None?
    ensures AllPresent(a + [Some(tx)] + b)
    ensures PrepareTransactionsTableData(a + [Some(tx)] + b, tracked)
         == PrepareTransactionsTableData(a, tracked) + PrepareTransactionsTableData(b, tracked)
  {
    ClassifyAppend(a, [Some(tx)], tracked);
    ClassifyAppend(a + [Some(tx)], b, tracked);
    ClassifySingle(tx, tracked);
  }

  /** Every row comes from some input transaction. */
  lemma {:induction false} ClassifySound(txs: seq<Option<Transaction>>, tracked: Option<string>, row: TxRow)
    requires AllPresent(txs)
    requires row in PrepareTransactionsTableData(txs, tracked)
    ensures exists i :: 0 <= i < |txs| && ClassifyOne(txs[i].value, tracked) == Some(row)
  {
    var rest := PrepareTransactionsTableData(txs[1..], tracked);
    if ClassifyOne(txs[0].value, tracked) != Some(row) {
      assert row in rest;
      ClassifySound(txs[1..], tracked, row);
      var i :| 0 <= i < |txs[1..]| && ClassifyOne(txs[1..][i].value, tracked) == Some(row);
      assert txs[i + 1] == txs[1..][i];
    }
  }

  /** Every transaction with transfer info gives a row. */
  lemma {:induction false} ClassifyComplete(txs: seq<Option<Transaction>>, tracked: Option<string>, i: nat)
    requires AllPresent(txs)
    requires i < |txs| && TransferInfo(txs[i].value.instructions).Some?
    ensures ClassifyOne(txs[i].value, tracked).value in PrepareTransactionsTableData(txs, tracked)
  {
    if i > 0 {
      ClassifyComplete(txs[1..], tracked, i - 1);
      assert txs[1..][i - 1] == txs[i];
    }
  }
}
