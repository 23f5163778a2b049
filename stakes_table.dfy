/**
 * The stakes table (`StakesTable`): rows sorted in place by block time,
 * newest first, each with an abbreviated pubkey, the staking duration in
 * days and the return percentage.
 */
module StakesTable {
  import opened Wrappers
  import opened LedgerTypes
  import Portfolio
  import StakeProjection

  const SEC: int := 1000
  const MIN: int := SEC * 60
  const HOUR: int := MIN * 60
  /** One day in milliseconds: 86 400 000. */
  const DAY: int := HOUR * 24

  const VISIBLE_LENGTH: int := 4

  /**
   * The sort key. The comparator `b.blockTime - a.blockTime` is NaN when a
   * block time is missing, which leaves the order of such rows to the engine;
   * the model places them as if their block time were 0.
   */
  function SortKey(row: StakeRow): int {
    row.blockTime.GetOr(0)
  }

  /** Non-increasing block time. */
  predicate SortedNewestFirst(s: seq<StakeRow>) {
    forall p, q :: 0 <= p < q < |s| ==> SortKey(s[p]) >= SortKey(s[q])
  }

  /** When every row has a block time, the order is non-increasing block time. */
  lemma SortedRowsByBlockTime(s: seq<StakeRow>)
    requires SortedNewestFirst(s)
    requires forall p :: 0 <= p < |s| ==> s[p].blockTime.Some?
    ensures forall p, q :: 0 <= p < q < |s| ==> s[p].blockTime.value >= s[q].blockTime.value
  {
    forall p, q | 0 <= p < q < |s| ensures s[p].blockTime.value >= s[q].blockTime.value {
      assert SortKey(s[p]) >= SortKey(s[q]);
    }
  }

  /** Exchanges the rows at j − 1 and j. */
  method SwapDown(a: array<StakeRow>, j: int)
    requires 0 < j < a.Length
    modifies a
    ensures a[j - 1] == old(a[j]) && a[j] == old(a[j - 1])
    ensures forall m :: 0 <= m < a.Length && m != j - 1 && m != j ==> a[m] == old(a[m])
    ensures multiset(a[..]) == multiset(old(a[..]))
  {
    a[j - 1], a[j] := a[j], a[j - 1];
  }

  /** Moves the row at i down into the sorted prefix a[..i]. */
  method InsertDown(a: array<StakeRow>, i: int)
    requires 0 <= i < a.Length
    requires forall p, q :: 0 <= p < q < i ==> SortKey(a[p]) >= SortKey(a[q])
    modifies a
    ensures forall p, q :: 0 <= p < q <= i ==> SortKey(a[p]) >= SortKey(a[q])
    ensures multiset(a[..]) == multiset(old(a[..]))
  {
    var j := i;
    while j > 0 && SortKey(a[j - 1]) < SortKey(a[j])
      invariant 0 <= j <= i
      invariant forall p, q :: 0 <= p < q <= i && p != j && q != j ==> SortKey(a[p]) >= SortKey(a[q])
      invariant forall q :: j < q <= i ==> SortKey(a[j]) >= SortKey(a[q])
      invariant multiset(a[..]) == multiset(old(a[..]))
    {
      SwapDown(a, j);
      j := j - 1;
    }
  }

  /** `data.sort((a, b) => b.blockTime - a.blockTime)`: reorders the caller's array in place. */
  method SortByBlockTime(a: array<StakeRow>)
    modifies a
    ensures SortedNewestFirst(a[..])
    ensures multiset(a[..]) == multiset(old(a[..]))
  {
    var i := 0;
    while i < a.Length
      invariant 0 <= i <= a.Length
      invariant forall p, q :: 0 <= p < q < i ==> SortKey(a[p]) >= SortKey(a[q])
      invariant multiset(a[..]) == multiset(old(a[..]))
    {
      InsertDown(a, i);
      i := i + 1;
    }
  }

  /** `String.prototype.slice` index normalisation: negative indices count from the end. */
  function SliceIndex(i: int, len: nat): (r: nat)
    ensures r <= len
    ensures 0 <= i <= len ==> r == i
  {
    if i < 0 then (if len + i < 0 then 0 else len + i)
    else if i > len then len else i
  }

  /** `s.slice(start, end)`. */
  function Slice(s: string, start: int, end: int): (r: string)
    ensures |r| <= |s|
    ensures 0 <= start <= end <= |s| ==> r == s[start..end]
  {
    var b := SliceIndex(start, |s|);
    var e := SliceIndex(end, |s|);
    if b < e then s[b..e] else ""
  }

  /** `pubkey.slice(0, 4) + " ... " + pubkey.slice(length - 4, length)`. */
  function Abbreviate(pubkey: string): (r: string)
    ensures |r| >= 5
    ensures |pubkey| >= VISIBLE_LENGTH ==> |r| == 2 * VISIBLE_LENGTH + 5
  {
    Slice(pubkey, 0, VISIBLE_LENGTH) + " ... " + Slice(pubkey, |pubkey| - VISIBLE_LENGTH, |pubkey|)
  }

  /** A pubkey of 4 characters or more shows its first 4 and its last 4 characters. */
  lemma AbbreviateShape(pubkey: string)
    requires |pubkey| >= VISIBLE_LENGTH
    ensures Abbreviate(pubkey) == pubkey[..VISIBLE_LENGTH] + " ... " + pubkey[|pubkey| - VISIBLE_LENGTH..]
  {
    assert Slice(pubkey, 0, VISIBLE_LENGTH) == pubkey[..VISIBLE_LENGTH];
    assert Slice(pubkey, |pubkey| - VISIBLE_LENGTH, |pubkey|) == pubkey[|pubkey| - VISIBLE_LENGTH..];
  }

  /**
   * A shorter pubkey is shown whole, then the tail from index 2·length − 4:
   * the negative start of `slice` counts from the end.
   */
  lemma AbbreviateShortKey(pubkey: string)
    requires |pubkey| < VISIBLE_LENGTH
    ensures Abbreviate(pubkey)
         == pubkey + " ... " + pubkey[(if 2 * |pubkey| < VISIBLE_LENGTH then 0 else 2 * |pubkey| - VISIBLE_LENGTH)..]
  {
    assert Slice(pubkey, 0, VISIBLE_LENGTH) == pubkey;
    var start := if 2 * |pubkey| < VISIBLE_LENGTH then 0 else 2 * |pubkey| - VISIBLE_LENGTH;
    assert SliceIndex(|pubkey| - VISIBLE_LENGTH, |pubkey|) == start;
    assert Slice(pubkey, |pubkey| - VISIBLE_LENGTH, |pubkey|) == pubkey[start..];
  }

  /**
   * A pubkey of at least 8 characters shows 13 characters: two 4-character ends around " ... ".
   * Every tail character comes from position 4 or later, so the ends never share a character.
   */
  lemma AbbreviateLongKey(pubkey: string)
    requires |pubkey| >= 2 * VISIBLE_LENGTH
    ensures |Abbreviate(pubkey)| == 2 * VISIBLE_LENGTH + 5
    ensures Abbreviate(pubkey)[..VISIBLE_LENGTH] == pubkey[..VISIBLE_LENGTH]
    ensures Abbreviate(pubkey)[VISIBLE_LENGTH..VISIBLE_LENGTH + 5] == " ... "
    ensures Abbreviate(pubkey)[VISIBLE_LENGTH + 5..] == pubkey[|pubkey| - VISIBLE_LENGTH..]
    ensures forall k :: VISIBLE_LENGTH + 5 <= k < |Abbreviate(pubkey)| ==>
      VISIBLE_LENGTH <= k + |pubkey| - 2 * VISIBLE_LENGTH - 5 < |pubkey| &&
      Abbreviate(pubkey)[k] == pubkey[k + |pubkey| - 2 * VISIBLE_LENGTH - 5]
  {
    AbbreviateShape(pubkey);
    var r := Abbreviate(pubkey);
    assert r == pubkey[..VISIBLE_LENGTH] + " ... " + pubkey[|pubkey| - VISIBLE_LENGTH..];
    assert r[..VISIBLE_LENGTH] == pubkey[..VISIBLE_LENGTH];
    assert r[VISIBLE_LENGTH..VISIBLE_LENGTH + 5] == " ... ";
    assert r[VISIBLE_LENGTH + 5..] == pubkey[|pubkey| - VISIBLE_LENGTH..];
  }

  /**
   * `floor((now − blockTime·1000) / DAY, 0)`: whole days since the funding,
   * rounded down; absent when the block time is unknown (NaN) or the elapsed
   * time is exactly 0 (`floor` returns nothing for a falsy number).
   */
  function DurationDays(now: int, blockTime: Option<int>): (r: Option<int>)
    ensures r.None? <==> blockTime.None? || now == blockTime.value * SEC
    ensures r.Some? ==> r.value * DAY <= now - blockTime.value * SEC < (r.value + 1) * DAY
  {
    match blockTime
    case None => None
    case Some(t) =>
      var elapsed := now - t * SEC;
      if elapsed == 0 then None else Some(elapsed / DAY)
  }

  /** `reward / initStake * 100`: absent when either is unknown or the initial stake is 0. */
  function RowReturnPct(row: StakeRow): (r: Option<real>)
    ensures r.Some? <==> row.reward.Some? && Truthy(row.initStake)
    ensures r.Some? ==> r.value * row.initStake.value as real == row.reward.value as real * 100.0
  {
    if row.reward.Some? && row.initStake.Some? && row.initStake.value != 0
    then Some(row.reward.value as real / row.initStake.value as real * 100.0)
    else None
  }

  /** For one funded row the shown return equals the portfolio return of that row alone. */
  lemma RowReturnMatchesTotal(row: StakeRow)
    requires StakeProjection.RowConsistent(row)
    requires Truthy(row.initStake)
    ensures RowReturnPct(row) == Portfolio.TotalReturn([row])
  {
    assert [row][..0] == [];
    var init := row.initStake.value;
    assert Portfolio.TotalInitStake([row]) == init;
    assert Portfolio.TotalReward([row]) == row.reward.value;
  }

  /** What one table row shows; amounts stay in lamports. */
  datatype DisplayRow = DisplayRow(
    key: string,
    shortPubkey: string,
    durationDays: Option<int>,
    initStake: Option<nat>,
    stake: nat,
    reward: Option<int>,
    returnPct: Option<real>,
    blockTime: Option<int>)

  function Display(row: StakeRow, now: int): (d: DisplayRow)
    ensures d.key == row.pubkey && d.shortPubkey == Abbreviate(row.pubkey)
    ensures d.durationDays == DurationDays(now, row.blockTime)
    ensures d.returnPct == RowReturnPct(row)
    ensures d.initStake == row.initStake && d.stake == row.stake
    ensures d.reward == row.reward && d.blockTime == row.blockTime
  {
    DisplayRow(row.pubkey, Abbreviate(row.pubkey), DurationDays(now, row.blockTime),
               row.initStake, row.stake, row.reward, RowReturnPct(row), row.blockTime)
  }

  /**
   * The component's body: missing or empty data renders nothing (None);
   * otherwise the array is sorted in place and each row is displayed in the
   * new order. `now` is the clock reading `new Date().getTime()`.
   */
  method Render(data: array?<StakeRow>, now: int) returns (shown: Option<seq<DisplayRow>>)
    modifies data
    ensures data == null ==> shown.None?
    ensures data != null && data.Length == 0 ==> shown.None?
    ensures data != null && data.Length > 0 ==>
      && SortedNewestFirst(data[..])
      && multiset(data[..]) == multiset(old(data[..]))
      && shown.Some? && |shown.value| == data.Length
      && forall i :: 0 <= i < data.Length ==> shown.value[i] == Display(data[i], now)
  {
    if data == null || data.Length == 0 {
      return None;
    }
    SortByBlockTime(data);
    shown := Some(seq(data.Length, i reads data requires 0 <= i < data.Length => Display(data[i], now)));
  }
}
