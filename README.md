# Stake reconciliation of the staking dashboard, in Dafny

The dashboard shows the stake accounts, rewards and transaction history of a
connected ledger address. Its logic sits in the `Wallet` component
(`src/app/wallet.tsx`) and the `StakesTable` component
(`src/app/components/StakesTable.tsx`). With the React state and the client
calls removed, it is a short pipeline over integer lamport amounts:

- **TransactionClassifier** (`transaction_classifier.dfy`, `prepareTransactionsTableData`).
  It keeps the transactions whose first `"transfer"` instruction carries an `info` payload.
  The volume is `lamports || Number(amount) || undefined`. It is negated when the destination
  is not the tracked address. The status is Failed exactly when `meta.err` is truthy.
- **FundingIndex** (`funding_index.dfy`, `buildInitStakeInstructionsList`).
  A loop pushes the instructions of every non-null transaction, each tagged with its block time.
  The list is filtered to types that contain `"createAccount"`. Each stake account then takes
  the lamports and block time of the FIRST entry whose `info.newAccount` is its pubkey.
- **StakeProjection** (`stake_projection.dfy`, `prepareStakesTableData`).
  It gives one row per stake, in order. The row's reward is `lamports − initStake`, and it is
  NaN (None) when the initial stake is unknown.
- **Portfolio** (`portfolio.dfy`, the `total_*` reductions). Three sums and a return percentage.
  An unknown or zero initial stake falls back to the current stake.
- **RewardSeries** (`reward_series.dfy`, `fetchStakeRewards` and `prepareStakesChartData`).
  It covers the epochs the reward loop queries and the per-address merge of a reward batch into
  the shared map. The map is a class field that the merge methods update. Null entries are dropped
  from the chart.
- **StakesTable** (`stakes_table.dfy`). The in-place sort of the rows by block time, newest first.
  Also the pubkey abbreviation (with JavaScript `slice` semantics), the duration in whole days,
  and the per-row return.
- **Reconciliation** (`reconciliation.dfy`). The pipeline end to end, on a funded and an unfunded
  stake account.

`wrappers.dfy` holds `Option` and JavaScript truthiness. `ledger_types.dfy` holds the records the
ledger client delivers. JavaScript's `undefined`, `null` and `NaN` are all modelled as `None`. `Infinity` is too: a row whose initial stake is 0 is the one place it arises (see `StakesTable.RowReturnPct` under "## Left out").
Every `||` on a number is modelled with `Truthy`, which treats 0 as missing.

Behaviours of the code that the model keeps:

- The per-row reward stays NaN (None) when the initial stake is unknown. Only the totals fall
  back to the current stake.
- The funding join is a linear `Array.find` over the filtered creation list for each stake.
  The first match in the order of the scanned history wins (`FundingEntriesAppend`,
  `FindFundingIsFirstMatch`).
- Merges into different addresses commute (`PrependCommutes`). Merges into the same address put
  the later arrival in front.
- A transaction whose first transfer instruction has no `info` is dropped, even when a later
  transfer instruction has one.

## Model

| member | source | states |
|---|---|---|
| TransactionClassifier.TransferInfo | src/app/wallet.tsx:140-142 | `filter(type === "transfer")[0]?.parsed?.info`: any info found belongs to some transfer instruction; TransferInfoIsFirstTransfer and TransferInfoNoTransfer pin it to the first one |
| TransactionClassifier.TransferInfoIsFirstTransfer | src/app/wallet.tsx:140-142 | the info used is that of the first instruction whose type is "transfer" |
| TransactionClassifier.TransferInfoNoTransfer | src/app/wallet.tsx:129-132 | a transaction with no transfer instruction yields no info, so it is dropped |
| TransactionClassifier.RawVolume | src/app/wallet.tsx:143 | the volume is lamports if non-zero, else the numeric amount if non-zero, else absent; never 0 |
| TransactionClassifier.SignedVolume | src/app/wallet.tsx:143-144 | absent exactly when the raw volume is; same magnitude; the raw value is kept exactly when the destination is the tracked address (negated otherwise), so a positive amount stays positive exactly then |
| TransactionClassifier.ClassifyOne | src/app/wallet.tsx:139-150 | a row exists exactly when there is transfer info; it copies the slot, blanks a falsy block time, and is Failed exactly when the error is truthy |
| TransactionClassifier.PrepareTransactionsTableData | src/app/wallet.tsx:123-152 | non-null input required (entries are dereferenced); empty input gives no rows; never more rows than transactions |
| TransactionClassifier.ClassifyAppend | src/app/wallet.tsx:127-139 | classification distributes over concatenation, so input order is preserved |
| TransactionClassifier.ClassifySingle | src/app/wallet.tsx:127-150 | one transaction gives its row when it has transfer info and nothing otherwise |
| TransactionClassifier.DropsTransactionWithoutTransfer | src/app/wallet.tsx:132-138 | a transaction without transfer info can be removed from the input without changing the output |
| TransactionClassifier.ClassifySound | src/app/wallet.tsx:139-151 | every output row is the row of some input transaction |
| TransactionClassifier.ClassifyComplete | src/app/wallet.tsx:127-138 | every transaction with transfer info contributes its row |
| FundingIndex.Includes | src/app/wallet.tsx:199 | `String.prototype.includes`: a match needs the substring to fit; IncludesIff ties it to an occurrence at some position |
| FundingIndex.IncludesComplete | src/app/wallet.tsx:199 | a substring that occurs at some position is found by `includes` |
| FundingIndex.IncludesSound | src/app/wallet.tsx:199 | whatever `includes` finds occurs at some position |
| FundingIndex.IncludesIff | src/app/wallet.tsx:199 | `includes` holds exactly when the substring occurs somewhere |
| FundingIndex.TagAll | src/app/wallet.tsx:192-195 | each instruction of a transaction, in order, tagged with that transaction's block time |
| FundingIndex.Flatten | src/app/wallet.tsx:189-197 | the pushed list: every entry is an instruction of a non-null transaction, tagged with its block time; ordered by FlattenAppend, complete by FlattenMember |
| FundingIndex.FlattenSnoc | src/app/wallet.tsx:189-197 | one more push appends the next transaction's tagged instructions (the loop step) |
| FundingIndex.FlattenAppend | src/app/wallet.tsx:189-197 | the flattened instruction list distributes over concatenation of the history (transaction order kept) |
| FundingIndex.FlattenMember | src/app/wallet.tsx:189-197 | an entry is in the flattened list exactly when it is an instruction of a non-null transaction tagged with its block time |
| FundingIndex.IsCreateAccount | src/app/wallet.tsx:199 | `parsed?.type?.includes("createAccount")`: only parsed instructions with a type at least as long as "createAccount" qualify |
| FundingIndex.FilterCreateAccount | src/app/wallet.tsx:198-200 | keeps exactly the entries whose type contains "createAccount" |
| FundingIndex.FilterAppend | src/app/wallet.tsx:198-200 | the creation filter distributes over concatenation, so the kept entries stay in order |
| FundingIndex.FundingEntriesAppend | src/app/wallet.tsx:189-200 | the candidates of a history are those of its earlier transactions followed by those of its later ones |
| FundingIndex.FindFunding | src/app/wallet.tsx:211-213 | a found entry is in the list and names the stake's pubkey as its new account |
| FundingIndex.FindFundingIsFirstMatch | src/app/wallet.tsx:211-213 | when several entries name the account, the first one is returned |
| FundingIndex.FindFundingNone | src/app/wallet.tsx:211-213 | nothing is found exactly when no entry names the account |
| FundingIndex.FundedLamports | src/app/wallet.tsx:214 | `selected?.parsed?.info.lamports`: absent without a match, otherwise the matched instruction's lamports |
| FundingIndex.FundStake | src/app/wallet.tsx:210-220 | the stake is kept; without a match both initStake and blockTime are absent; with one, the block time is the match's |
| FundingIndex.JoinFunding | src/app/wallet.tsx:210-221 | one funded stake per stake account, in the same order |
| FundingIndex.JoinUsesFirstFunding | src/app/wallet.tsx:211-219 | initStake and blockTime come from the first entry creating the stake's pubkey |
| FundingIndex.JoinUnfunded | src/app/wallet.tsx:211-219 | a stake no entry creates gets neither initStake nor blockTime |
| FundingIndex.BuildInitStakeInstructionsList | src/app/wallet.tsx:186-224 | no update without a history; otherwise one row per stake, in order, each the projection of that stake joined with the first creation instruction of the pushed and filtered list |
| StakeProjection.ActivationEpoch | src/app/wallet.tsx:157-159 | the activation epoch is known exactly when the account data is parsed, and is then the delegation's activation epoch |
| StakeProjection.Project | src/app/wallet.tsx:161-169 | the row copies pubkey, stake, initStake, rentEpoch, blockTime and the activation epoch; the reward is known exactly when initStake is and then is stake minus initStake |
| StakeProjection.PrepareStakesTableData | src/app/wallet.tsx:154-171 | one row per input stake, in the same order |
| StakeProjection.ProjectedRowsConsistent | src/app/wallet.tsx:161-169 | every projected row satisfies reward = stake − initStake when known |
| Portfolio.InitOrStake | src/app/wallet.tsx:248 | a truthy initial stake is used, otherwise the current stake |
| Portfolio.TotalStake | src/app/wallet.tsx:242-245 | Σ stake as the left fold of `reduce`; non-negative; additive by TotalsAppend |
| Portfolio.TotalInitStake | src/app/wallet.tsx:246-249 | Σ (initStake \|\| stake) as a left fold; non-negative; additive by TotalsAppend |
| Portfolio.TotalReward | src/app/wallet.tsx:250-253 | Σ (stake − (initStake \|\| stake)) as a left fold; never above the total stake; equals total stake − total init by TotalRewardIsDifference |
| Portfolio.TotalsAppend | src/app/wallet.tsx:242-253 | each total of a concatenation is the sum of the totals of its parts |
| Portfolio.TotalRewardIsDifference | src/app/wallet.tsx:242-253 | total reward = total stake − total initial stake |
| Portfolio.UnfundedRowAddsNoReward | src/app/wallet.tsx:246-253 | a row without a truthy initStake adds its stake to both totals and 0 to the reward |
| Portfolio.ZeroInitMeansZeroReward | src/app/wallet.tsx:246-254 | a zero total initial stake forces a zero total reward, so the return is 0/0 |
| Portfolio.TotalReturn | src/app/wallet.tsx:254 | absent exactly when the total initial stake is 0; otherwise return × total init = total reward × 100 |
| Portfolio.TotalReturnSign | src/app/wallet.tsx:254 | the return is non-negative exactly when total stake ≥ total initial stake |
| RewardSeries.PrepareStakesChartData | src/app/wallet.tsx:173-184 | null entries dropped, at most one point per entry; exact count, order and contents by ChartLength, ChartAppend and ChartSound |
| RewardSeries.ChartLength | src/app/wallet.tsx:176-183 | one chart point per non-null reward |
| RewardSeries.ChartAppend | src/app/wallet.tsx:176-183 | the projection distributes over concatenation, so order is kept |
| RewardSeries.ChartSound | src/app/wallet.tsx:176-183 | every point carries the epoch and post balance of a non-null entry |
| RewardSeries.ChartOfNulls | src/app/wallet.tsx:177-179 | an all-null input gives an empty series |
| RewardSeries.ChartSkipsNulls | src/app/wallet.tsx:176-183 | [null, epoch 5, null, epoch 10] gives exactly the points for epochs 5 and 10 |
| RewardSeries.Schedule | src/app/wallet.tsx:81 | the epochs the loop visits: each lies in (epochStart, epochEnd]; spacing and stop point by ScheduleShape |
| RewardSeries.ScheduleShape | src/app/wallet.tsx:81 | the j-th queried epoch is epochEnd − j·step, each is above epochStart, and the next one would not be |
| RewardSeries.CallSiteSchedule | src/app/wallet.tsx:264-269 | the dashboard's call queries 40 epochs, from currentEpoch − 1 down to currentEpoch − 196 |
| RewardSeries.EpochsQueried | src/app/wallet.tsx:81 | the loop queries exactly the schedule, in order, provided it can end (positive step) |
| RewardSeries.Prepend | src/app/wallet.tsx:85-96 | the entry goes in front of the address's list or starts a one-element list; other keys keep their lists |
| RewardSeries.PrependCommutes | src/app/wallet.tsx:85-96 | merges into different addresses commute |
| RewardSeries.MergeBatch | src/app/wallet.tsx:83-97 | after a batch the keys are the old keys plus the batch's addresses |
| RewardSeries.MergeBatchOtherKeys | src/app/wallet.tsx:83-97 | addresses outside the batch keep their lists |
| RewardSeries.MergeBatchDistinct | src/app/wallet.tsx:83-97 | with distinct addresses, each gains exactly its own entry in front |
| RewardSeries.RewardStore.constructor | src/app/wallet.tsx:42-44 | the reward map starts empty |
| RewardSeries.RewardStore.MergeEntry | src/app/wallet.tsx:85-96 | the map becomes the one-step merge of the old map |
| RewardSeries.RewardStore.MergeEpochBatch | src/app/wallet.tsx:82-98 | the map becomes the batch merge of the old map |
| StakesTable.SortedRowsByBlockTime | src/app/components/StakesTable.tsx:87 | when every row has a block time, the sorted rows have non-increasing block times |
| StakesTable.SortByBlockTime | src/app/components/StakesTable.tsx:87 | the array is rearranged in place into newest-first order and keeps the same multiset of rows |
| StakesTable.SliceIndex | src/app/components/StakesTable.tsx:100-103 | slice indices are clamped to the string and equal the index when it is in range |
| StakesTable.Slice | src/app/components/StakesTable.tsx:99-103 | `String.prototype.slice`: never longer than the string, and the plain substring for in-range indices |
| StakesTable.Abbreviate | src/app/components/StakesTable.tsx:99-103 | the two slices around " ... ": 13 characters for a pubkey of 4 or more; exact text by AbbreviateShape and AbbreviateShortKey |
| StakesTable.AbbreviateShape | src/app/components/StakesTable.tsx:99-103 | a pubkey of length ≥ 4 shows its first 4 characters, " ... ", and its last 4 characters |
| StakesTable.AbbreviateShortKey | src/app/components/StakesTable.tsx:99-103 | a shorter pubkey is shown whole, then its tail from index 2·length − 4 (negative slice start) |
| StakesTable.AbbreviateLongKey | src/app/components/StakesTable.tsx:88-103 | for length ≥ 8 the text is 13 characters: the first 4, " ... ", then the last 4, every tail character taken from position 4 or later, so the two ends are disjoint |
| StakesTable.DurationDays | src/app/components/StakesTable.tsx:92-106 | absent when the block time is unknown or the elapsed time is 0; otherwise the whole days d with d·DAY ≤ now − blockTime·1000 < (d+1)·DAY |
| StakesTable.RowReturnPct | src/app/components/StakesTable.tsx:114 | known exactly when reward and a non-zero initStake are; then pct × initStake = reward × 100 |
| StakesTable.RowReturnMatchesTotal | src/app/components/StakesTable.tsx:114 | for a funded row, the row return equals the portfolio return of that row alone |
| StakesTable.Display | src/app/components/StakesTable.tsx:88-114 | a displayed row shows the abbreviated pubkey, the duration, the row return, and the initStake, stake, reward and block time of its stake row |
| StakesTable.Render | src/app/components/StakesTable.tsx:60-121 | missing or empty data renders nothing; otherwise the rows are sorted in place and displayed one per row in the new order |
| Reconciliation.Reconcile | src/app/wallet.tsx:208-223 | one row per stake account with its pubkey and balance, each satisfying the reward invariant and equal to the row `BuildInitStakeInstructionsList` stores |
| Reconciliation.CreateAccountWithSeedCounts | src/app/wallet.tsx:198-200 | a "createAccountWithSeed" instruction counts as a creation |
| Reconciliation.TransferIsNotCreateAccount | src/app/wallet.tsx:198-200 | a "transfer" instruction is not a creation |
| Reconciliation.FundedScenario | src/app/wallet.tsx:186-254 | an account funded with 1e9 lamports now holding 2e9 gets reward 1e9 and a 100% total return |
| Reconciliation.UnfundedScenario | src/app/wallet.tsx:242-254 | an unfunded account has no per-row reward, adds its balance to the initial total and 0 to the reward |

## Left out

- Client calls (`fetchTransactions`, `fetchStakes`, `getEpochInfo`, `onAccountChange`, `getAccountInfo`, `getInflationReward`): they are I/O through the ledger SDK. Their results are the model's inputs.
- The sort of the fetched transactions by slot (src/app/wallet.tsx:73): its comparator `a?.slot || 0 - (b?.slot || 0)` is not a consistent ordering, so the resulting order depends on the engine. The sort works in place on the array stored as the transaction history (src/app/wallet.tsx:71), so the "order of the history" the funding join scans is this engine-dependent order, not the fetch order. The model takes the history in whatever order it is given.
- `countSum` (src/app/wallet.tsx:226-240): it is never called, and its filter callback returns nothing, so it matches no instruction.
- The asynchronous arrival of reward batches: the model gives one sequential merge per batch. Interleavings across promises are not modelled.
- React state, effects and JSX rendering. Also the clipboard copy, the popover timeout, `toLocaleDateString`, and the logging (`console.table` at src/app/wallet.tsx:76 and 201-206, `console.log` at src/app/wallet.tsx:298-300).
- StakesTable.Render: the clock is one `now` parameter shared by every row, while the source reads `new Date().getTime()` once per row inside the `map` callback (src/app/components/StakesTable.tsx:92), so rows rendered a few milliseconds apart may differ in the source.
- Floating point: the division by `LAMPORTS_PER_SOL` and `floor`/`round` with a precision (src/app/utils/index.ts) for amounts, percentages and chart values. Amounts stay in integer lamports, and percentages are exact rationals. Integers are unbounded, so the 53-bit precision of JavaScript numbers is not modelled.
- The display-level blanking of a zero amount or percentage by `floor` is not modelled. For the duration, `floor` with precision 0 is modelled as an integer floor with that blanking, except for the two cases on the `StakesTable.DurationDays` line below.
- StakesTable.DurationDays: does not model two inputs. (1) A funded row whose creating transaction has a `null` block time: `null * 1000` is 0, so the source shows the days since 1970, while the model (which does not tell `null` from `undefined`) shows nothing. (2) An elapsed time with 0 < |elapsed| < 86.4 ms: the quotient prints in exponent form, `floor` appends `"e+0"` to it and gets NaN, while the model gives 0 or −1.
- The balance display (src/app/wallet.tsx:285 and 291 use different units). It is display-only.
- src/app/components/TransactionsTable.tsx (colour choice), src/app/components/StakesChart.tsx (chart configuration), src/app/page.tsx (provider wiring). The chart rendering itself is commented out in the source.
- `Number(info.amount)`: the string is given to the model as its numeric value, or None when it does not read as a number.
- The execution error `meta.err` is modelled as an optional string, and the metadata is assumed present (the source asserts it with `!`).
- StakesTable.RowReturnPct: a row whose initial stake is 0 but whose reward is known (src/app/components/StakesTable.tsx:114) gives `reward / 0 * 100`, which is `Infinity` in the source for a positive reward. `floor` (src/app/utils/index.ts:11-19) passes `Infinity` on as `Number("Infinitye+2")`, which is NaN, so the cell shows "NaN". The model gives None, so it does not tell this apart from an unknown reward, whose cell the source leaves blank (a zero reward gives NaN, which `floor` also blanks).
- StakesTable.SortByBlockTime: the source comparator yields NaN for a row whose block time is `undefined`, which leaves such rows' positions to the engine. The model sorts them as if their block time were 0, which is what the source does for a `null` block time (`x - null` is `x`). Array.prototype.sort's stability is not stated.
- TransactionClassifier.PrepareTransactionsTableData: requires non-null entries, because the source dereferences every entry.
- FundingIndex.BuildInitStakeInstructionsList: requires that the `find` scan never reads `info.newAccount` of a parsed instruction without `info`, and that no stake account is parsed but undelegated. The source throws a TypeError in both cases.
- RewardSeries.EpochsQueried: requires a positive step whenever the loop runs at all, because otherwise the loop never ends.
- RewardSeries.MergeBatch: requires the batch to be no longer than the address list, because the source indexes `addresses[k]` for every entry.
