/**
 * Reward series: the epochs `fetchStakeRewards` queries, the per-address
 * accumulation of reward batches, and the chart projection
 * (`prepareStakesChartData`).
 */
module RewardSeries {
  import opened Wrappers
  import opened LedgerTypes

  /** A chart point: the epoch and the balance after its reward, in lamports. */
  datatype ChartPoint = ChartPoint(epoch: nat, value: nat)

  /** Number of non-null entries. */
  function PresentCount(rewards: seq<Option<Reward>>): nat {
    if rewards == [] then 0 else (if rewards[0].Some? then 1 else 0) + PresentCount(rewards[1..])
  }

  /** `prepareStakesChartData`: null entries are dropped, the others become points in order. */
  function PrepareStakesChartData(rewards: seq<Option<Reward>>): (r: seq<ChartPoint>)
    ensures |r| <= |rewards|
  {
    if rewards == [] then []
    else
      (match rewards[0] case None => [] case Some(w) => [ChartPoint(w.epoch, w.postBalance)])
      + PrepareStakesChartData(rewards[1..])
  }

  /** One point per non-null entry. */
  lemma {:induction false} ChartLength(rewards: seq<Option<Reward>>)
    ensures |PrepareStakesChartData(rewards)| == PresentCount(rewards)
  {
    if rewards != [] {
      ChartLength(rewards[1..]);
    }
  }

  /** The projection keeps order: it distributes over concatenation. */
  lemma {:induction false} ChartAppend(a: seq<Option<Reward>>, b: seq<Option<Reward>>)
    ensures PrepareStakesChartData(a + b) == PrepareStakesChartData(a) + PrepareStakesChartData(b)
  {
    if a == [] {
      assert a + b == b;
    } else {
      assert (a + b)[1..] == a[1..] + b;
      ChartAppend(a[1..], b);
    }
  }

  /** Every point comes from a non-null entry with the same epoch and post balance. */
  lemma {:induction false} ChartSound(rewards: seq<Option<Reward>>, p: ChartPoint)
    requires p in PrepareStakesChartData(rewards)
    ensures exists i :: 0 <= i < |rewards| && rewards[i].Some?
                        && p == ChartPoint(rewards[i].value.epoch, rewards[i].value.postBalance)
  {
    if !(rewards[0].Some? && p == ChartPoint(rewards[0].value.epoch, rewards[0].value.postBalance)) {
      ChartSound(rewards[1..], p);
      var i :| 0 <= i < |rewards[1..]| && rewards[1..][i].Some?
               && p == ChartPoint(rewards[1..][i].value.epoch, rewards[1..][i].value.postBalance);
      assert rewards[i + 1] == rewards[1..][i];
    }
  }

  /** All-null input gives an empty series (the chart then has nothing to draw). */
  lemma {:induction false} ChartOfNulls(rewards: seq<Option<Reward>>)
    requires forall i :: 0 <= i < |rewards| ==> rewards[i].None?
    ensures PrepareStakesChartData(rewards) == []
  {
    if rewards != [] {
      assert rewards[0].None?;
      ChartOfNulls(rewards[1..]);
    }
  }

  /** Nulls between rewards leave no points: [null, epoch 5, null, epoch 10] gives the points of epochs 5 and 10. */
  lemma ChartSkipsNulls(r5: Reward, r10: Reward)
    requires r5.epoch == 5 && r10.epoch == 10
    ensures PrepareStakesChartData([None, Some(r5), None, Some(r10)])
         == [ChartPoint(5, r5.postBalance), ChartPoint(10, r10.postBalance)]
  {
    var s := [None, Some(r5), None, Some(r10)];
    assert s[1..] == [Some(r5), None, Some(r10)];
    assert s[1..][1..] == [None, Some(r10)];
    assert s[1..][1..][1..] == [Some(r10)];
    assert s[1..][1..][1..][1..] == [];
    assert PrepareStakesChartData([Some(r10)]) == [ChartPoint(10, r10.postBalance)];
    assert PrepareStakesChartData([None, Some(r10)]) == [ChartPoint(10, r10.postBalance)];
  }

  /**
   * The epochs queried by the loop `for (i = epochEnd; i > epochStart; i -= step)`.
   * The loop only ends when it does not start or when the step is positive.
   */
  function Schedule(epochStart: int, epochEnd: int, step: int): (r: seq<int>)
    requires step > 0 || epochEnd <= epochStart
    ensures forall x :: x in r ==> epochStart < x <= epochEnd
    decreases epochEnd - epochStart
  {
    if epochEnd <= epochStart then [] else [epochEnd] + Schedule(epochStart, epochEnd - step, step)
  }

  /** The schedule counts down from `epochEnd` by `step`, stays above `epochStart`, and stops at the first epoch that would not. */
  lemma {:induction false} ScheduleShape(epochStart: int, epochEnd: int, step: int)
    requires step > 0 || epochEnd <= epochStart
    ensures forall j :: 0 <= j < |Schedule(epochStart, epochEnd, step)| ==>
      Schedule(epochStart, epochEnd, step)[j] == epochEnd - j * step
      && Schedule(epochStart, epochEnd, step)[j] > epochStart
    ensures epochEnd - |Schedule(epochStart, epochEnd, step)| * step <= epochStart
    decreases epochEnd - epochStart
  {
    if epochEnd > epochStart {
      ScheduleShape(epochStart, epochEnd - step, step);
      var rest := Schedule(epochStart, epochEnd - step, step);
      var s := Schedule(epochStart, epochEnd, step);
      assert s == [epochEnd] + rest;
      forall j | 0 <= j < |s| ensures s[j] == epochEnd - j * step && s[j] > epochStart {
        if j > 0 {
          assert s[j] == rest[j - 1];
          assert (epochEnd - step) - (j - 1) * step == epochEnd - j * step;
        }
      }
      assert (epochEnd - step) - |rest| * step == epochEnd - |s| * step;
    }
  }

  /** The dashboard's call (from currentEpoch − 200 to currentEpoch − 1, step 5) queries 40 epochs, down to currentEpoch − 196. */
  lemma CallSiteSchedule(currentEpoch: int)
    ensures |Schedule(currentEpoch - 200, currentEpoch - 1, 5)| == 40
    ensures Schedule(currentEpoch - 200, currentEpoch - 1, 5)[0] == currentEpoch - 1
    ensures Schedule(currentEpoch - 200, currentEpoch - 1, 5)[39] == currentEpoch - 196
  {
    ScheduleShape(currentEpoch - 200, currentEpoch - 1, 5);
    var s := Schedule(currentEpoch - 200, currentEpoch - 1, 5);
    assert s[0] == currentEpoch - 1;
    assert s[|s| - 1] > currentEpoch - 200;
  }

  /** The loop of `fetchStakeRewards`: returns the epochs it queries, in query order. */
  method EpochsQueried(epochStart: int, epochEnd: int, step: int) returns (epochs: seq<int>)
    requires step > 0 || epochEnd <= epochStart
    ensures epochs == Schedule(epochStart, epochEnd, step)
  {
    epochs := [];
    var i := epochEnd;
    while i > epochStart
      invariant step > 0 || i <= epochStart
      invariant epochs + Schedule(epochStart, i, step) == Schedule(epochStart, epochEnd, step)
      decreases i - epochStart
    {
      assert Schedule(epochStart, i, step) == [i] + Schedule(epochStart, i - step, step);
      epochs := epochs + [i];
      i := i - step;
    }
  }

  /**
   * One merge step of `setStakeRewards`: the entry goes in front of the
   * address's list, or starts a one-element list; other addresses keep theirs.
   */
  function Prepend(m: map<string, seq<Option<Reward>>>, address: string, item: Option<Reward>)
    : (r: map<string, seq<Option<Reward>>>)
    ensures r.Keys == m.Keys + {address}
    ensures r[address] == [item] + (if address in m then m[address] else [])
    ensures forall k :: k in m && k != address ==> r[k] == m[k]
  {
    m[address := [item] + (if address in m then m[address] else [])]
  }

  /** Merges into different addresses commute: they touch independent slots. */
  lemma PrependCommutes(m: map<string, seq<Option<Reward>>>, a1: string, x1: Option<Reward>, a2: string, x2: Option<Reward>)
    requires a1 != a2
    ensures Prepend(Prepend(m, a1, x1), a2, x2) == Prepend(Prepend(m, a2, x2), a1, x1)
  {
    var l := Prepend(Prepend(m, a1, x1), a2, x2);
    var r := Prepend(Prepend(m, a2, x2), a1, x1);
    assert l.Keys == r.Keys;
    forall k | k in l ensures l[k] == r[k] { }
  }

  /** The addresses a list names. */
  function AddressSet(addresses: seq<string>): set<string> {
    set a | a in addresses
  }

  /** A batch merged entry by entry: `batch[k]` goes to `addresses[k]`, in order of k. */
  function MergeBatch(m: map<string, seq<Option<Reward>>>, addresses: seq<string>, batch: seq<Option<Reward>>)
    : (r: map<string, seq<Option<Reward>>>)
    requires |batch| <= |addresses|
    ensures r.Keys == m.Keys + AddressSet(addresses[..|batch|])
    decreases |batch|
  {
    if batch == [] then m
    else
      assert addresses[..|batch|] == [addresses[0]] + addresses[1..][..|batch[1..]|];
      MergeBatch(Prepend(m, addresses[0], batch[0]), addresses[1..], batch[1..])
  }

  /** Addresses outside the batch keep their lists unchanged. */
  lemma {:induction false} MergeBatchOtherKeys(m: map<string, seq<Option<Reward>>>, addresses: seq<string>,
                                               batch: seq<Option<Reward>>, key: string)
    requires |batch| <= |addresses|
    requires key in m
    requires forall k :: 0 <= k < |batch| ==> addresses[k] != key
    ensures MergeBatch(m, addresses, batch)[key] == m[key]
    decreases |batch|
  {
    if batch != [] {
      MergeBatchOtherKeys(Prepend(m, addresses[0], batch[0]), addresses[1..], batch[1..], key);
    }
  }

  /** With distinct addresses, each address's list gains exactly its own entry, in front. */
  lemma {:induction false} MergeBatchDistinct(m: map<string, seq<Option<Reward>>>, addresses: seq<string>,
                                             batch: seq<Option<Reward>>, k: nat)
    requires |batch| <= |addresses|
    requires forall i, j :: 0 <= i < j < |addresses| ==> addresses[i] != addresses[j]
    requires k < |batch|
    ensures MergeBatch(m, addresses, batch)[addresses[k]]
         == [batch[k]] + (if addresses[k] in m then m[addresses[k]] else [])
    decreases |batch|
  {
    var m1 := Prepend(m, addresses[0], batch[0]);
    if k == 0 {
      MergeBatchOtherKeys(m1, addresses[1..], batch[1..], addresses[0]);
    } else {
      MergeBatchDistinct(m1, addresses[1..], batch[1..], k - 1);
      assert addresses[1..][k - 1] == addresses[k];
    }
  }

  /** The shared reward map of the dashboard, keyed by stake address. */
  class RewardStore {
    var rewards: map<string, seq<Option<Reward>>>

    constructor ()
      ensures rewards == map[]
    {
      rewards := map[];
    }

    /** One read-modify-write of the map for `addresses[k]` and `batch[k]` (`item && item` is `item`). */
    method MergeEntry(address: string, item: Option<Reward>)
      modifies this
      ensures rewards == Prepend(old(rewards), address, item)
    {
      if address in rewards {
        rewards := rewards[address := [item] + rewards[address]];
      } else {
        rewards := rewards[address := [item]];
        assert [item] + [] == [item];
      }
    }

    /** The arrival of one epoch's batch: one merge per entry, in index order. */
    method MergeEpochBatch(addresses: seq<string>, batch: seq<Option<Reward>>)
      requires |batch| <= |addresses|
      modifies this
      ensures rewards == MergeBatch(old(rewards), addresses, batch)
    {
      var k := 0;
      while k < |batch|
        invariant 0 <= k <= |batch|
        invariant MergeBatch(rewards, addresses[k..], batch[k..]) == MergeBatch(old(rewards), addresses, batch)
      {
        assert addresses[k..][1..] == addresses[k + 1..] && batch[k..][1..] == batch[k + 1..];
        MergeEntry(addresses[k], batch[k]);
        k := k + 1;
      }
    }
  }
}
