# Verification of the chain-state writer

A Dafny model of the part of the Stacks blockchain API that writes blocks into its database, with proofs
of what it keeps true over every run of blocks, forks and repeated deliveries included. The writer
(`src/datastore/pg-write-store.ts`) updates its tables incrementally: canonical flags on blocks and on every
per-block row, running balances, the counters of the chain tip, the mempool with replace-by-fee, and the
message that tells a consumer which blocks to apply and roll back. The proofs tie all of them to references
that are not incremental: the path of parents from the tip, and the balance recalculation that the
repository ships as a migration. Smaller protocols around the writer are proved the same way.

`dafny verify dfyconfig.toml` checks everything.

## How the model is built

* **Tables** are fields of classes, updated in place: `WriteStore` (blocks, per-block rows, chain tip),
  `FtBalanceTable`, `MempoolTable`, `NftCustodyTable`. A SQL statement is one atomic update. `Update` is the
  write transaction: when a statement fails it puts back what it saved.
* **Per-block rows** carry the hash and height of their block and a canonical flag. Transactions, principal
  rows, miner rewards, STX and FT events have a table each. The nine tables of which the writer only flips
  flags (stx lock, NFT and PoX events, contract logs, smart contracts, pox sets and cycles) are one relation
  tagged with the table's name.
* **Two records are ghost**: `chain`, the blocks that were delivered and the tip that follows from them
  (`Deliver`: the first block of a new greatest height), and `everMined`, the transactions that were ever
  canonical.
* **Ties and orders are relations.** Where the database may pick among equal rows or return ids in any order,
  a mempool step is a relation between the rows before and after (`Arrives`, `RestoreStep`, `PoolFollows`),
  carried through every method up to `Update`, with its failure condition beside it (`MayFail`,
  `RestoreMayFail`, `UpdateMayFail`).
* **Laws on columns.** What a statement does is a function that a method and the relations above it share. What that
  means is stated without the function: balances over the four columns of a reward, headers over hash, height and time,
  mempool rows column by column (`PoolRows`), winners over fee, receipt time, block height and index.
* **Regime.** As in Nakamoto there are no microblocks, so every row is microblock-canonical; there is no boot
  block at height 0; the caller marks blocks canonical; transaction ids differ inside a block; a block hash
  identifies its content; a transfer has both parties, a mint only a recipient, a burn only a sender. A
  transaction is sponsored exactly when it has a sponsor address. That an id fixes sender, sponsor and nonce, and
  that transactions of a block have places of their own (`Regular`), is asked for only where a canonical block's
  commit condition is stated.
* **Parameters.** The clock (`now`), JSON parsing, the size of each file read, the choice among rows the
  database may order freely, and the order of database rows with equal keys are arguments or arbitrary
  choices; every result holds for all of them.

| file | what it holds |
|---|---|
| `Types.dfy` | the rows and the block message |
| `Balances.dfy`, `Tables.dfy`, `Ledger.dfy` | balance changes, re-flagging a block's rows, the migration, and why both ways of changing the ledger keep the balances right |
| `Chain.dfy` | delivered blocks, paths, the canonical chain, runs and convergence |
| `Mempool.dfy`, `PoolRows.dfy`, `MempoolTable.dfy` | the mempool's statements, what they leave in every column of a row, replace-by-fee and when it fails, the pending counter |
| `FtBalances.dfy` | the balance maps filled in loops and upserted in batches |
| `ReOrg.dfy`, `ReOrgStates.dfy` | a re-org half way, one round of it, and the recursion over the parents |
| `BlockUpdates.dfy` | one whole block update and its message, on values |
| `MempoolReOrg.dfy`, `PoolUpdates.dfy` | the mempool through a re-org and through a whole update: what is never forgotten, what stays pending though mined, when nothing fails |
| `CommitConditions.dfy` | exactly when replace-by-fee lets a canonical block commit |
| `WriteStore.dfy` | the writer itself |
| `Runs.dfy` | runs of updates: agreement with the chain, convergence, the consumer of the messages |
| `EventServer.dfy` | the queue of node messages in front of the writer: aborted and refused ones included, what it commits is a run |
| `RunExamples.dfy` | examples in which something one might expect does not hold |
| `TokenHolders.dfy`, `StxBalances.dfy` | conservation and total supply; the v1 and v2 balances |
| `MicroblockWalk.dfy`, `MempoolStatDebouncer.dfy`, `ReverseFileStream.dfy`, `BlocksPagination.dfy`, `BurnWindows.dfy`, `TenureGroups.dfy`, `NftCustody.dfy` | the protocols around it |

Some predicates come in two forms, an open one and a folded one (`Synced` and `Tracks`, `InStep` and
`Steady`, `Sound` and `Sealed`, `Answered` and `Steps`). They mean the same; the folded one keeps the
verifier from unfolding large definitions where they only have to be passed on.

## What turned out not to hold

* **Restoring un-prunes mined transactions.** `restoreMempoolTxs` revives every touched row without asking
  whether it is mined. The reviving statement alone leaves no mined transaction pending exactly when no touched
  row is canonically mined (`Mempool.RestoreNoneMined`). The whole method inserts the missing transactions and
  recomputes their groups, which may drop a revived row again: a mined transaction is pending afterwards only
  if it was touched and wins every recomputed group it is in, and a touched one stays pending unless it loses,
  or ties, in one (`MempoolReOrgs.RestoredMined`). Where ids fix their payers and places are unique a mined
  transaction never ties, so no mined one is pending exactly when every touched mined row loses in a recomputed
  group (`RestoredExactly`; `RestoredNoneMined` asks only that no touched mined one ties). A run of five
  messages shows it happening (`RunExamples.MinedStaysPending`): X, sponsored by P, is mined, then Y of P with
  the same nonce; a re-org orphans Y and X is pending again. So "never pending and mined" is an invariant only
  until a re-org puts transactions back (`WriteStore.restored`).
* **Restoring can leave two pending transactions of one payer and nonce.** The reviving statement keeps them
  unique exactly when no revived transaction has a rival that is revived or pending too (`Mempool.RestoreUnique`).
  The whole method keeps them unique if it recomputes the groups of those rivals (`MempoolReOrgs.RestoredUnique`),
  and it recomputes only the groups of what it inserts: a loser and the orphaned winner that both have rows
  are both pending afterwards (`RunExamples.RestoreBreaksUniqueness`). A recomputed group has at most one pending
  transaction again (`Mempool.DecidedIsUnique`), which may be mined: the run above ends in a decided group.
* **Replace-by-fee can abort.** A losing transaction that is in two affected groups of a batch makes the scalar
  subquery return two rows, and the whole update is undone. For the winners the database picks, a batch fails
  exactly then (`Mempool.FailsIffLoserInTwo`, `SettleGroups`); it can happen (`Mempool.OverlapFails`). Before
  the winners are picked both questions have an exact answer: some choice fails iff a row in two of the groups
  need not win in one of them (`SomeChoiceFails`), and some choice passes iff every such row can win its groups
  and no two of them would have to win the same one (`SomeChoicePasses`). The same holds for all batches of an
  update (`MempoolTables.FailsExact`, `ReplacesExact`, `PoolUpdates.SettlesExact`, `FollowsExact`).
  A canonical block leaves no choice, because every affected group holds one of its transactions: without a re-org it
  commits if and only if, in every batch of its ids, each mempool row in two of the batch's groups is the
  transaction mined last in each of them (`CommitConditions.CanonicalCommits`, and the contract of `Update`).
  After a re-org the same condition decides on the mempool the re-org left; the restored transactions themselves may
  tie in fee and receipt time, so there it says when a commit and when an abort is possible (`CanonicalChoices`).
  While every transaction is paid by its sender no update fails, re-orgs included, over whole runs
  (`PlainUpdates`, `EventServers.ProcessMessages`).
* **Two writers that are given the same blocks need not agree.** `RunExamples.WritersDisagree` has one block with
  a transaction of address 1 and one of address 2, of equal nonces. A writer that knows a third transaction of
  that nonce, sent by 1 and sponsored by 2, refuses it; one with an empty mempool takes it. Writers agree exactly as
  far as the blocks they committed do (`EventServers.WritersConverge`).
* **A page past the last holder reports a supply of zero.** `getTokenHolders` reads its totals from the first
  row of the page; the reported supply is right exactly when the page has a row or there is no supply
  (`TokenHolders.ReportedSupply`; `LatePageReportsNothing` is such a page).
* **An empty file has no last line.** The reversed reader gives the reverse of the split file exactly when
  the file is not empty (`ReverseFileStreams.EmptyFileDiffers`).
* **A late event loop delays the debouncer.** A trigger replaces a timer that is already overdue. The next run
  is due by the first waiting trigger plus the maximum, or by the end of the last run, exactly when the last
  event came no later than that (`DueInTime`); a punctual event loop suffices (`PunctualInTime`), a late one
  fails (`LateLoopDelays`).
* **A lock that arrives after its window is never reported** as unlocked (`BurnWindows.LockSelectedOnce`;
  `LateLockIsNeverSelected` is such a lock).

## Model

| member | source | states |
|---|---|---|
| `Balances.UpsertGrouped` | src/datastore/pg-write-store.ts:1178-1186 | grouping changes per address and token and adding the groups with the conflict upsert moves every balance by exactly the total of its changes; absent rows count as zero |
| `Balances.ReadingsAgree` | src/datastore/pg-write-store.ts:1148-1159 | reading an event by the parties present (new blocks) and by its type (re-orgs, migration) gives the same changes for well-formed events |
| `Tables.RowsForLaws` | src/datastore/pg-write-store.ts:533-553 | the rows inserted for a block hold exactly its content, belong to it, and are canonical all or none |
| `Ledger.EntriesInOrder` | src/datastore/pg-write-store.ts:356-370 | which is its transactions in order, and the events of each in order, one transaction after the other |
| `Tables.MarkTotal` | src/datastore/pg-write-store.ts:3219-3261 | re-flagging a block's rows moves the sum over canonical rows by the signed sum of the rows that flipped |
| `Tables.MarkCount` | src/datastore/pg-write-store.ts:3219-3261 | and the number of canonical rows by the number of rows that flipped |
| `Tables.MarkEveryTable` | src/datastore/pg-write-store.ts:3323-3561 | the updates of the flag-only tables together re-flag every row of the block and no other |
| `Ledger.MigratedIsTotal` | migrations/1752852195051_recalculate-balances.js:9-97 | the migration's separate sums of sent, received, fees and rewards (coinbase, anchored and both streamed fees) are the total of all canonical balance changes, for STX and every token |
| `Ledger.ReflagInBalance` | src/datastore/pg-write-store.ts:3219-3419 | re-flagging a block keeps every balance equal to the recalculation |
| `Ledger.MarkAllTracks` | src/datastore/pg-write-store.ts:3190-3565 | re-flagging a block in all tables keeps every row canonical iff its block is, contents and balances included; its transactions flip all or none |
| `Ledger.MarkPrincipalsFlipped` | src/datastore/pg-write-store.ts:3276-3283 | restricting the principal rows to the ids that flipped restricts nothing: they follow their block too |
| `Ledger.InsertInBalance` | src/datastore/pg-write-store.ts:330-345 | a new canonical block keeps every balance equal to the recalculation, a non-canonical one leaves them alone |
| `Ledger.InsertTracks` | src/datastore/pg-write-store.ts:330-377 | inserting a block keeps flags, contents and balances in step, and adds its transactions to the canonical count iff it is canonical |
| `Ledger.TracksChainTotal` | src/datastore/pg-write-store.ts:1130-1232 | balances and the transaction count are sums over the blocks of the canonical chain alone |
| `FtBalanceTables.AddStxEntry` | src/datastore/pg-write-store.ts:1137-1160 | the fee goes to the sponsor or the sender, then every event debits and credits the parties it has |
| `FtBalanceTables.UpsertSplit` | src/datastore/pg-write-store.ts:1178-1186 | upserting a map in two disjoint parts is upserting it at once |
| `FtBalanceTables.FtBalanceTable.UpdateStxBalances` | src/datastore/pg-write-store.ts:1130-1187 | the balance map filled in loops and upserted in batches of 500 applies all fee, event and reward changes of the block, grouped |
| `FtBalanceTables.FtBalanceTable.UpdateFtBalances` | src/datastore/pg-write-store.ts:1189-1232 | the same for fungible tokens |
| `Ledger.ReflagLaw` | src/datastore/pg-write-store.ts:3238-3261 | the upsert at the end of a re-flagging statement moves each balance by the difference of the canonical changes of its table after and before |
| `Chain.PathLaws` | src/datastore/pg-write-store.ts:3730-3753 | a block at height n has exactly n blocks on its path, one per height from 1 |
| `Chain.CanonicalLaws` | src/datastore/pg-write-store.ts:395-410 | the canonical chain has one block per height from 1 to the tip, each the parent of the next |
| `Chain.DeliverCanonical` | src/datastore/pg-write-store.ts:252-255 | a block changes the canonical chain exactly if it is accepted and taller than the tip, and then it is the path of its parent and itself |
| `Chain.RunTip` | src/datastore/pg-write-store.ts:252-255 | after any parent-first run the tip is the tallest block that was seen first |
| `Chain.RunsConverge` | src/datastore/pg-write-store.ts:252-255 | runs over the same blocks deliver the same blocks, and end in the same chain iff they saw the same tallest block first |
| `Chain.UniqueTallestConverges` | src/datastore/pg-write-store.ts:252-255 | with a unique tallest block the order of arrival is irrelevant |
| `Mempool.PruneKeepsClean` | src/datastore/pg-write-store.ts:3078-3144 | pruning for a block leaves neither its transactions nor any that shares a nonce with a payer pending, and keeps the mempool unique and free of mined ones |
| `Mempool.RestoreNoneMined` | src/datastore/pg-write-store.ts:3029-3041 | the reviving statement keeps mined transactions out of the pending ones iff no touched row is mined |
| `Mempool.ChunkPending` | src/datastore/pg-write-store.ts:2085-2196 | what is pending after reviving, inserting and pruning one chunk |
| `Mempool.ChunkKeeps` | src/datastore/pg-write-store.ts:2085-2196 | a chunk leaves nothing mined pending, and uniqueness can break only in the groups of what it made pending |
| `Mempool.SettledDecides` | src/datastore/pg-write-store.ts:2235-2305 | after a replace-by-fee batch every affected group has one winner (latest mined, else highest fee) and everything else in it is dropped |
| `Mempool.LossesCountRows` | src/datastore/pg-write-store.ts:2284-2308 | unless the subquery fails, the count of losses is the number of rows that stop pending, though losses are listed per group |
| `Mempool.NoOverlapSucceeds` | src/datastore/pg-write-store.ts:2296-2301 | the scalar subquery cannot fail while no row is in two affected groups |
| `Mempool.FailsIffLoserInTwo` | src/datastore/pg-write-store.ts:2284-2305 | for the winners picked it fails iff a row is in two affected groups and loses in one |
| `Mempool.ClashFails` | src/datastore/pg-write-store.ts:2246-2305 | whatever is picked among ties: a clash fails, and only a possible clash can |
| `Mempool.SomeChoicePasses` | src/datastore/pg-write-store.ts:2246-2305 | some choice of winners passes iff every row in two affected groups can win its groups and no two such rows would have to win the same one |
| `Mempool.SomeChoiceFails` | src/datastore/pg-write-store.ts:2246-2305 | some choice of winners fails iff a row in two affected groups need not win in one of them |
| `Mempool.NoTiesExact` | src/datastore/pg-write-store.ts:2246-2305 | without ties in the affected groups the two conditions are one |
| `Mempool.ClashStays` | src/datastore/pg-write-store.ts:2222-2305 | rows replaced by earlier batches change neither condition for later ones |
| `Mempool.OverlapFails` | src/datastore/pg-write-store.ts:2296-2301 | a concrete mempool in which it fails for every choice of winners |
| `Mempool.DecidedIsUnique` | src/datastore/pg-write-store.ts:2209-2311 | once the ambiguous groups are decided, at most one pending transaction is left per payer and nonce |
| `Mempool.SettledOnlyLosers` | src/datastore/pg-write-store.ts:2284-2305 | every row a batch changes lost in an affected group to the transaction it now points at |
| `Mempool.OnlyLosersCompose` | src/datastore/pg-write-store.ts:2222-2310 | winners do not move when rows are replaced, so the batches add up |
| `MempoolTables.PickLatestMined` | src/datastore/pg-write-store.ts:2250-2269 | the winner is mined last among the group's canonical transactions, if there is one: none of another id has a greater height or, at the same height, a greater index |
| `MempoolTables.PickHighestFee` | src/datastore/pg-write-store.ts:2239-2274 | else no row of the group has a higher fee than the winner, or the same fee and a later receipt |
| `MempoolTables.ReplaceLosers` | src/datastore/pg-write-store.ts:2284-2305 | losers are pruned and point at the winner of their group; fails iff a loser has two groups |
| `MempoolTables.FindTxs` | src/datastore/pg-write-store.ts:3054-3064 | one value per listed id that was ever mined, with sender, sponsor, nonce and fee of the row of that id mined last, received at its block time |
| `PoolRows.PruneByRow` | src/datastore/pg-write-store.ts:3078-3144 | the pruning statement row by row, column by column |
| `PoolRows.RestoreByRow` | src/datastore/pg-write-store.ts:3029-3041 | the reviving statement row by row, column by column |
| `PoolRows.ChunkByRow` | src/datastore/pg-write-store.ts:2091-2196 | what the three statements on a chunk make of every row, column by column |
| `PoolRows.DecidedDrops` | src/datastore/pg-write-store.ts:2246-2305 | in a decided group no beaten row is pending: neither one with a later mined rival nor, where none was mined, one with a rival of higher fee or of the same fee and later receipt |
| `MempoolTables.ChunksRegister` | src/datastore/pg-write-store.ts:2085-2200 | over all chunks: the first value of a new id gives its row; a row that comes back has the receipt of the value its chunk of 500 begins with |
| `MempoolTables.ArrivesByRow` | src/datastore/pg-write-store.ts:2085-2202 | after a whole insertion every row has those columns or was replaced by fee since, and for everything new or revived whatever is beaten has been dropped |
| `MempoolTables.RestoreStepByRow` | src/datastore/pg-write-store.ts:2977-3071 | after a whole restoration: rows that meet a listed transaction are pending again; a listed one without a row has that of its last mined row, fee and block time included; all else stays, unless it is mined or replaced by fee |
| `MempoolTables.MempoolTable.Prune` | src/datastore/pg-write-store.ts:3078-3144 | a pending row is pruned iff it is a listed transaction or spends the nonce of one from its payer; its other columns stay, its replacing id is cleared; the counter stays the number of pending rows |
| `MempoolTables.MempoolTable.Drop` | src/datastore/pg-write-store.ts:2384-2412 | exactly the listed pending rows get the status and the replacing id, batch by batch; the counter follows |
| `MempoolTables.MempoolTable.GarbageCollect` | src/datastore/pg-write-store.ts:3152-3188 | a pending row is dropped iff it was received 2560 minutes ago or more, once blocks are signed, or 256 blocks ago or more, before; the counter follows |
| `MempoolTables.MempoolTable.SettleGroups` | src/datastore/pg-write-store.ts:2223-2309 | one replace-by-fee batch: winners, losers, counter, and failure iff the scalar subquery fails |
| `MempoolTables.ReplacesExact` | src/datastore/pg-write-store.ts:2222-2310 | the statements for a list of ids can all pass iff no batch of it clashes |
| `MempoolTables.FailsExact` | src/datastore/pg-write-store.ts:2222-2310 | one of them can fail iff in some batch a clash is possible |
| `MempoolTables.ReplacesLaws` | src/datastore/pg-write-store.ts:2222-2310 | whatever is picked, exactly losers of affected groups change and every affected group is decided |
| `MempoolTables.PassableIffSafe` | src/datastore/pg-write-store.ts:2222-2305 | without ties, all batches pass for sure exactly when none of them clashes |
| `MempoolTables.ArrivalsExact` | src/datastore/pg-write-store.ts:2085-2202 | for each order of the ids an insertion can succeed if no batch clashes, and may fail if one can |
| `MempoolTables.NoOverlapNoFail` | src/datastore/pg-write-store.ts:2209-2311 | an insertion cannot fail while no row is in two groups of what becomes pending |
| `MempoolTables.MempoolTable.UpdateReplacedByFee` | src/datastore/pg-write-store.ts:2209-2311 | the batches do what some choice of winners makes of the rows: every affected group is decided, exactly rows that lost in one of them change, the counter follows; for the payer and nonce of every listed transaction, whatever a later mined one beats, or with none mined a higher fee or a later receipt at the same fee, is dropped as replaced; a failure is one that some choice leads to |
| `MempoolTables.MempoolTable.InsertBatch` | src/datastore/pg-write-store.ts:2134-2196 | a new id gets the columns of its first value and the tip height, pruned iff mined; a pruned row that is not mined is pending again with the receipt of the chunk's first value; a pending one that is mined is pruned; nothing else changes; the counter is right after the three statements |
| `MempoolTables.MempoolTable.InsertDbMempoolTxs` | src/datastore/pg-write-store.ts:2085-2202 | all chunks, then replace-by-fee for what became pending, in the order it was returned: every row ends with the columns `ArrivesByRow` tells; succeeds if in no batch of it a clash is possible, and only if in none one is certain |
| `MempoolTables.MempoolTable.UpdateMempoolTxs` | src/datastore/pg-write-store.ts:2370-2382 | all chunks are inserted, with the columns `ArrivesByRow` tells, and then only losers of affected groups change; every arrival is pending, replaced or mined; a clean mempool stays clean; fails only where a clash is possible, and then changes nothing |
| `MempoolTables.MempoolTable.Restore` | src/datastore/pg-write-store.ts:2977-3071 | the row-by-row result of `RestoreStepByRow`; each listed transaction that was ever mined has a row again, and what was revived or pending is pending, replaced or mined; the counter follows; fails only where that insertion may clash |
| `MempoolReOrgs.RestoredMined` | src/datastore/pg-write-store.ts:2977-3071 | a mined transaction is pending after a whole restoration only if it was touched and wins every recomputed group it is in; a touched one stays pending unless it loses or ties in one |
| `MempoolReOrgs.RestoredNoneMined` | src/datastore/pg-write-store.ts:2977-3071 | if no touched mined transaction ties, no mined one is pending afterwards iff every touched mined row loses in a recomputed group |
| `MempoolReOrgs.RestoredExactly` | src/datastore/pg-write-store.ts:2977-3071 | the same for every restoration where ids fix their payers and no two canonical transactions share a place |
| `Mempool.RestoreUnique` | src/datastore/pg-write-store.ts:3029-3041 | the reviving statement keeps pending transactions unique per payer and nonce iff no revived one has a rival that is revived or pending |
| `MempoolReOrgs.RestoredUnique` | src/datastore/pg-write-store.ts:2977-3071 | the whole restoration keeps them unique if it recomputes the groups of such rivals |
| `MempoolReOrgs.ArrivesReasoned` | src/datastore/pg-write-store.ts:2085-2311 | insertion prunes nothing without a reason: a replacing or dropping status, or a canonical transaction that is the same or shares payer and nonce |
| `MempoolReOrgs.RestoreReasoned` | src/datastore/pg-write-store.ts:2977-3071 | restoring for an orphaned block revives every row whose only reason was one of the block's transactions |
| `MempoolReOrgs.RestoredPoolKeeps` | src/datastore/pg-write-store.ts:3574-3720 | a re-org of any depth loses no mempool row, and prunes none without a reason |
| `MempoolReOrgs.RestoredPoolReturns` | src/datastore/pg-write-store.ts:3647-3657 | a transaction that a re-org of any depth takes out of the canonical chain has a row that is pending, replaced, collected or crowded out |
| `MempoolReOrgs.RestoredPlain` | src/datastore/pg-write-store.ts:3574-3720 | while every payer is a sender no re-org can fail in replace-by-fee, and it stays so |
| `ReOrg.PathIsChain` | src/datastore/pg-write-store.ts:3699-3718 | paths are parent-linked with one block per height |
| `ReOrg.MixedStep` | src/datastore/pg-write-store.ts:3600-3608 | restoring the fork's block and orphaning its rival moves the border between fork and old chain down by one |
| `ReOrg.MixedDone` | src/datastore/pg-write-store.ts:3699-3718 | when the chains agree at the border they agree all the way down, so the fork is canonical |
| `ReOrgStates.RoundMovesBorder` | src/datastore/pg-write-store.ts:3574-3698 | one round: flags, rows and balances in step with the lower border, the two headers put in front, the counts of flipped transactions |
| `ReOrgStates.ForkGoesOn` | src/datastore/pg-write-store.ts:3699-3718 | the parent is non-canonical exactly while the chains still differ below |
| `ReOrgStates.RestoredIsFork` | src/datastore/pg-write-store.ts:3574-3720 | the recursion ends, makes exactly the fork canonical, and collects exactly the headers and transactions above the last common block, ascending |
| `BlockUpdates.ReorgRivals` | src/datastore/pg-write-store.ts:3754-3757 | a re-org only starts at the height of the tip, so fork and old chain have equal length |
| `BlockUpdates.ReorgAligns` | src/datastore/pg-write-store.ts:3722-3772 | after the re-org the chain below the new block is canonical and the corrected counters count canonical transactions |
| `BlockUpdates.KnownChangesNothing` | src/datastore/pg-write-store.ts:581-585 | delivering a known block again changes no table and announces nothing |
| `BlockUpdates.UpdateAligns` | src/datastore/pg-write-store.ts:244-413 | one update keeps blocks, rows, balances, counters and tip in step with the canonical chain of the delivered blocks |
| `BlockUpdates.SignedTipStays` | src/datastore/pg-write-store.ts:3154-3163 | garbage collection during an update goes by the old tip |
| `BlockUpdates.SignedTipIsLast` | src/datastore/pg-write-store.ts:3154-3163 | and the tip it goes by is the last canonical block |
| `BlockUpdates.AnnouncesSwitch` | src/datastore/redis-notifier.ts:30-56 | a message goes out exactly for updates of a canonical block; with the last common block at height j it tells hash, height and block time of the old canonical blocks above j to roll back and of the new ones above j to apply, each in ascending order |
| `WriteStores.WriteStore.MarkEntitiesCanonical` | src/datastore/pg-write-store.ts:3190-3565 | all tables re-flagged and the balances moved, statement by statement; returns the transactions that flipped |
| `WriteStores.WriteStore.MarkFlagTables` | src/datastore/pg-write-store.ts:3323-3561 | the flag-only tables, one after the other |
| `WriteStores.WriteStore.FlagBlocks` | src/datastore/pg-write-store.ts:3579-3608 | fails iff the block is missing or canonical; else it becomes canonical, its rival does not, and hash, height and time of each are put in front of the collected headers |
| `WriteStores.WriteStore.RestoreOrphanedChain` | src/datastore/pg-write-store.ts:3574-3720 | computes the recursion above in place, ends because the height falls; the mempool goes, round by round, through restoring the rival's transactions and pruning the block's; fails for a missing block iff there is none, and in replace-by-fee only where some round may |
| `WriteStores.WriteStore.HandleReorg` | src/datastore/pg-write-store.ts:3722-3772 | fails for a missing parent iff there is none; else restores the orphaned chain iff the block is taller than the tip and corrects the counts; without a re-org the mempool stays as it is and nothing fails |
| `WriteStores.WriteStore.InsertBlock` | src/datastore/pg-write-store.ts:330-377 | inserts all rows of a new block, none of a known one; only a canonical block changes balances |
| `WriteStores.WriteStore.SettleMempool` | src/datastore/pg-write-store.ts:378-389 | exactly expired rows are dropped and losers in groups of the block's transactions replaced; fails only where a batch may clash |
| `PoolUpdates.RefreshedIsTidy` | src/datastore/pg-write-store.ts:258-389 | after a new block nothing pending has reached its age limit, every group of its transactions is decided and whatever is beaten in one dropped as replaced, and after a canonical one neither its transactions nor any sharing a nonce with a payer is pending |
| `PoolUpdates.KeptIsYoung` | src/datastore/pg-write-store.ts:3164-3186 | what stays pending was received less than 2560 minutes ago if the last canonical block was signed, less than 256 blocks below it if not |
| `PoolUpdates.PlacingKeeps` | src/datastore/pg-write-store.ts:258-266 | pruning before inserting keeps the mempool clean and the mined transactions covered |
| `PoolUpdates.UpdateKeepsRows` | src/datastore/pg-write-store.ts:244-413 | an update, with a re-org of any depth, loses no mempool row, and prunes none without a reason |
| `PoolUpdates.NothingIsForgotten` | src/datastore/pg-write-store.ts:244-413 | whatever was pending before an update or left the canonical chain in it has a row that is pending, replaced by fee, collected, or crowded out by a canonical transaction: the same, or one of the same payer and nonce |
| `PoolUpdates.SettlesExact` | src/datastore/pg-write-store.ts:378-389 | the end of an update can pass iff no batch of the block's ids clashes, and can fail iff in one a clash is possible |
| `PoolUpdates.FollowsExact` | src/datastore/pg-write-store.ts:378-389 | without a re-org an update of a new block can commit, and can fail, exactly where its end can |
| `PoolUpdates.FollowsOrFails` | src/datastore/pg-write-store.ts:378-389 | without ties it can fail iff it cannot commit |
| `CommitConditions.OnTopNoTies` | src/datastore/pg-write-store.ts:2250-2283 | after a canonical block every affected group has exactly one winner, the transaction mined last |
| `CommitConditions.CanonicalCommits` | src/datastore/pg-write-store.ts:2222-2310 | a canonical block without a re-org commits iff, in every batch of its ids, each mempool row in two of the batch's groups was mined last in each of them; else it aborts |
| `CommitConditions.LatestInBatches` | src/datastore/pg-write-store.ts:2222-2223 | the batches of that condition are the ids in order, 500 at a time |
| `CommitConditions.CanonicalChoices` | src/datastore/pg-write-store.ts:244-413 | with a re-org it can commit iff some outcome of the re-org meets that condition, and can abort iff the re-org can fail or some outcome does not meet it |
| `PoolUpdates.NoOverlapUpdates` | src/datastore/pg-write-store.ts:378-389 | an update without a re-org commits while no row is in two groups of the block's transactions |
| `PoolUpdates.PlainUpdates` | src/datastore/pg-write-store.ts:244-413 | while every transaction is paid by its sender no update can fail in replace-by-fee, re-orgs included, and it stays so |
| `WriteStores.UpdateSeals` | src/datastore/pg-write-store.ts:250-412 | a committed update keeps everything the store promises between transactions |
| `WriteStores.WriteStore.Transact` | src/datastore/pg-write-store.ts:250-412 | all statements or none; none only for a missing parent or where replace-by-fee may clash |
| `WriteStores.WriteStore.Update` | src/datastore/pg-write-store.ts:244-425 | commits in step with the chain or aborts and changes nothing; missing parent iff not accepted; a re-org never fails to find its blocks; every other abort is one that some choice of replace-by-fee winners leads to; a canonical block without a re-org commits iff each row in two groups of a batch was mined last in both; the message is the switch that `AnnouncesSwitch` tells; the mempool after re-org, pruning, collection and replace-by-fee, no row lost |
| `WriteStores.WriteStore.UpdateMempoolTxs` | src/datastore/pg-write-store.ts:2370-2382 | arrivals between blocks keep all of it and end in rows with the columns `ArrivesByRow` tells, at the height of the tip; they fail only where a clash is possible |
| `WriteStores.WriteStore.DropMempoolTxs` | src/datastore/pg-write-store.ts:2384-2412 | drops keep all of it and give exactly the listed pending rows the status and the replacing id |
| `WriteStores.OrphanCovers` | src/datastore/pg-write-store.ts:3647-3657 | a transaction that leaves the canonical chain has a mempool row afterwards |
| `Runs.RunAligned` | src/datastore/pg-write-store.ts:244-413 | after every run of updates, refused and repeated blocks included, all tables are in step with the canonical chain; a run is what a writer commits (see `EventServers.ProcessMessages`) |
| `Runs.BalancesAreMigrated` | migrations/1752852195051_recalculate-balances.js:9-97 | then every balance equals the migration's recalculation |
| `Runs.PrincipalsFollow` | src/datastore/pg-write-store.ts:1381-1418 | an address has a row for a transaction of a block exactly if it sends or sponsors it, is party to one of its STX events or is named by it; the row is flagged like the block |
| `Runs.CanonicalIsAncestor` | src/datastore/pg-write-store.ts:3574-3720 | a block is canonical iff it is the tip or an ancestor of the tip |
| `Runs.OneCanonicalPerHeight` | src/datastore/pg-write-store.ts:395-410 | exactly the heights from 1 to the tip have a canonical block, one each, and block_count is their number |
| `Runs.AlignedDetermines` | src/datastore/pg-write-store.ts:244-413 | the chain alone determines flags, contents, balances and counters |
| `Runs.TablesConverge` | src/datastore/pg-write-store.ts:252-255 | runs of committed blocks, the same in both, end with the same tables if they saw the same tallest block first, with different tips otherwise |
| `Runs.UniqueTallestTables` | src/datastore/pg-write-store.ts:252-255 | runs of the same committed blocks with a unique tallest one always do |
| `Runs.ConsumerFollows` | src/datastore/redis-notifier.ts:37-53 | a consumer that starts empty, removes rolled-back blocks from the end and appends applied ones holds, after every run of updates, hash, height and block time of exactly the canonical blocks, ascending from height 1 |
| `EventServers.HandleBlock` | src/event-stream/event-server.ts:690-697 | one block message commits or changes nothing, for a missing parent or a possible clash; without other payers than senders every accepted block commits |
| `EventServers.ProcessMessages` | src/event-stream/event-server.ts:637-763 | from an empty database and any messages in any order, aborts included: each step is one of the writer's, the tables and the chain are those of the run of committed blocks, the consumer of what was sent holds the canonical chain; whatever was canonical at any step is mined or has a mempool row at the end, and the mempool is clean unless a re-org put transactions back; while every transaction is paid by its sender the tables are those of all delivered blocks |
| `EventServers.CommitsNext` | src/datastore/pg-write-store.ts:250-425 | a committed update and its message make the run and what was sent one longer |
| `EventServers.WritersConverge` | src/event-stream/event-server.ts:637-763 | two writers that committed the same blocks hold the same tables iff they committed the same tallest one first, whatever else they refused or rolled back; then their consumers hold the same chain |
| `RunExamples.MinedStaysPending` | src/datastore/pg-write-store.ts:3029-3041 | five messages after which, whatever the database picks, a canonically mined transaction is pending in a group that replace-by-fee has decided |
| `RunExamples.RestoreBreaksUniqueness` | src/datastore/pg-write-store.ts:2977-3071 | a mempool in which, whatever the database picks, restoring one transaction leaves two pending of one payer and nonce |
| `RunExamples.WritersDisagree` | src/datastore/pg-write-store.ts:2235-2301 | one block that every writer with a certain mempool row refuses and every writer with an empty mempool takes |
| `TokenHolders.BalancesConserved` | src/datastore/pg-write-store.ts:1130-1232 | the balances of a token add up to mints minus burns; for STX also minus fees plus the four kinds of reward |
| `TokenHolders.RunConserves` | src/datastore/pg-write-store.ts:3190-3565 | and do so after every run, re-orgs included |
| `TokenHolders.ReportedSupply` | src/datastore/pg-store.ts:3328-3358 | the reported total supply is the supply iff the page has a row or there is no supply |
| `TokenHolders.LatePageReportsNothing` | src/datastore/pg-store.ts:3328-3358 | a holder of five and the page behind it: the reported supply is zero |
| `TokenHolders.PageOfHolders` | src/datastore/pg-store.ts:3328-3358 | row i of a page is the holder ranked offset + i with its balance, descending, as many rows as asked for and there are |
| `TokenHolders.LongPageShowsAll` | src/datastore/pg-store.ts:3328-3358 | a long enough page shows every holder with its balance, once |
| `StxBalances.TableIsAggregate` | src/datastore/pg-store.ts:2246-2466 | at the tip the table balance is the v1 aggregate plus the canonical rewards not yet mature, so they agree iff there are none; the v2 lookup finds that sum, or no row where it is zero |
| `StxBalances.BalanceAtHeight` | src/datastore/pg-store.ts:2246-2466 | at any height up to the tip the v1 aggregate is what the canonical blocks up to it total, with the rewards mature by then in place of theirs |
| `StxBalances.BalanceOfThatTime` | src/datastore/pg-store.ts:2246-2466 | when rewards mature with their block it is the balance the canonical chain up to that height gives |
| `StxBalances.BalancesAgreeAtTip` | src/datastore/pg-store-v2.ts:1039-1056 | when rewards mature no later than their block, v1 and v2 agree for every address after every run, a missing row counting as zero |
| `MicroblockWalks.StopsOnce` | src/datastore/pg-write-store.ts:2942-2961 | the parent closure stops at one block only |
| `MicroblockWalks.FindUnanchoredMicroblocks` | src/datastore/pg-write-store.ts:2914-2975 | accepted is the tip and its parent closure among the candidates, orphaned all other candidates; a gap iff the closure stops at a sequence other than 0 |
| `MempoolStatDebouncers.MempoolStatDebouncer.Debounce` | src/datastore/pg-write-store.ts:2321-2334 | the trigger: first trigger kept, nothing more while running, else the pending timer replaced |
| `MempoolStatDebouncers.MempoolStatDebouncer.FinishRun` | src/datastore/pg-write-store.ts:2358-2367 | the end of a run arms the timer again iff triggers came in |
| `MempoolStatDebouncers.TraceShape` | src/datastore/pg-write-store.ts:2313-2368 | in every interleaving at most one timer is pending, none while a run is going on or nothing waits, and it is due at its computed delay |
| `MempoolStatDebouncers.NeverTwoRuns` | src/datastore/pg-write-store.ts:2334-2336 | no run starts while another is going on |
| `MempoolStatDebouncers.EveryTriggerServed` | src/datastore/pg-write-store.ts:2313-2368 | every trigger is followed by a run that starts after it, or one is still to come |
| `MempoolStatDebouncers.FinishRearms` | src/datastore/pg-write-store.ts:2358-2367 | triggers during a run get a timer when it ends |
| `MempoolStatDebouncers.DueInTime` | src/datastore/pg-write-store.ts:2325-2334 | while idle with a waiting trigger the timer is due no later than first trigger plus maximum, or the last event; no later than that maximum or the end of the last run iff the last event came no later |
| `MempoolStatDebouncers.DueExactly` | src/datastore/pg-write-store.ts:2325-2334 | it is due the interval after the last event, cut short only by the maximum after the first trigger, and at once when that is over |
| `MempoolStatDebouncers.RunsAreApart` | src/datastore/pg-write-store.ts:2331-2337 | no run starts before the interval has passed since the last event or the maximum since the first waiting trigger |
| `MempoolStatDebouncers.PunctualInTime` | src/datastore/pg-write-store.ts:2325-2334 | which a punctual event loop meets |
| `MempoolStatDebouncers.LateLoopDelays` | src/datastore/pg-write-store.ts:2331-2334 | a late event loop breaks the tighter bound |
| `ReverseFileStreams.JoinSplit` | src/event-replay/reverse-file-stream.ts:4-18 | joining the pieces gives the input back |
| `ReverseFileStreams.SplitJoin` | src/event-replay/reverse-file-stream.ts:4-18 | and splitting is the only way to cut it into pieces without separators |
| `ReverseFileStreams.SplitBuffer` | src/event-replay/reverse-file-stream.ts:4-18 | the do-while loop splits |
| `ReverseFileStreams.SplitAgain` | src/event-replay/reverse-file-stream.ts:114-121 | prepending a chunk to the open line leaves all later lines as they are |
| `ReverseFileStreams.LineReverser.Transform` | src/event-replay/reverse-file-stream.ts:114-133 | after each chunk the complete lines are pushed from the end and the first is open |
| `ReverseFileStreams.ReadLinesReversed` | src/event-replay/reverse-file-stream.ts:86-140 | for any positive chunk sizes the lines of the file come out in reverse order |
| `ReverseFileStreams.EmptyFileDiffers` | src/event-replay/reverse-file-stream.ts:52-56 | the output is the reversed split iff the file is not empty |
| `ReverseFileStreams.FindTsvBlockHeight` | src/event-replay/helpers.ts:13-31 | the height of the last /new_block line that has one, 0 if there is none, an error iff a line behind it cannot be parsed |
| `ReverseFileStreams.EventLine` | src/event-replay/helpers.ts:17-20 | a line of four tab-separated columns counts iff the third is /new_block, and its payload is the fourth |
| `ReverseFileStreams.ShortLine` | src/event-replay/helpers.ts:17-20 | a line without a third column does not count, one without a fourth cannot be parsed |
| `ReverseFileStreams.LastBlockLine` | src/event-replay/helpers.ts:13-31 | for a file written that way the answer is the height of its last block line that has one, or an error if its payload cannot be parsed |
| `ReverseFileStreams.NoBlockLine` | src/event-replay/helpers.ts:13-31 | and 0 if no block line has a height |
| `BlocksPagination.PageAt` | src/datastore/pg-store-v2.ts:73-149 | a page holds the next rows below its cursor and offset; its cursors point one limit further down and up, null where there is no row |
| `BlocksPagination.UnknownCursor` | src/datastore/pg-store-v2.ts:73-87 | an unknown cursor gives an empty page without cursors |
| `BlocksPagination.FollowVisitsAll` | src/datastore/pg-store-v2.ts:95-108 | following prev_cursor visits every row once, in order, for every limit from 1 |
| `BlocksPagination.NextUndoesPrev` | src/datastore/pg-store-v2.ts:95-123 | the next cursor of the page so reached is the cursor left behind |
| `BlocksPagination.FollowsCanonicalChain` | src/datastore/pg-store-v2.ts:73-149 | from the tip a client sees exactly the canonical chain, descending |
| `BlocksPagination.RowsAreCanonicalBlocks` | src/datastore/pg-store-v2.ts:73-149 | and those are exactly the canonical rows of the blocks table the writer leaves, by descending height |
| `BurnWindows.UnlocksOnce` | src/datastore/pg-store.ts:4149-4197 | the windows (previous, current] tile the burn range of the chain, its start excluded |
| `BurnWindows.ForcedOnce` | src/datastore/pg-store.ts:4263-4266 | a forced unlock height triggers at exactly one block iff it is crossed |
| `BurnWindows.LockSelectedOnce` | src/datastore/pg-store.ts:4383-4400 | a pox-4 lock row is selected by exactly one block iff it unlocks above the burn height before its own block, within the chain's range |
| `BurnWindows.LateLockIsNeverSelected` | src/datastore/pg-store.ts:4383-4400 | a lock mined at burn height 30 that unlocks at 15 is selected by no block |
| `BurnWindows.HandledSelectedOnce` | src/datastore/pg-store.ts:4383-4400 | the same for handle-unlock rows with the half-open window |
| `BurnWindows.FutureLockUnlocksOnce` | src/datastore/pg-store.ts:4383-4400 | a lock that ends above its own block's burn height unlocks once, after its block |
| `TenureGroups.TenureCases` | src/datastore/pg-store.ts:4627-4639 | the loop builds one case per tenure, numbered from 1, or nothing without enough tenures |
| `TenureGroups.FindTenure` | src/datastore/pg-store.ts:4627-4639 | every height of the range is in exactly one tenure, equal change heights allowed |
| `TenureGroups.TenureIndex` | src/datastore/pg-store.ts:4632-4639 | the CASE gives it that tenure's index, and ELSE exactly to heights outside the range |
| `NftCustody.BatchIsPutAll` | src/datastore/pg-write-store.ts:1574-1657 | upserting the winners of a batch is putting its events one by one |
| `NftCustody.NftCustodyTable.UpdateNftEvents` | src/datastore/pg-write-store.ts:1568-1660 | batches of 500 change custody like single events, and only for canonical transactions |
| `NftCustody.PutAllHoldsLatest` | src/datastore/pg-write-store.ts:1594-1612 | putting more events keeps the table holding, per NFT, an event after which none happened |
| `NftCustody.LaterIsPreceded` | src/datastore/pg-write-store.ts:1594-1612 | the guard of the upsert is the lexicographic order of (block height, microblock sequence, tx index, event index) |
| `NftCustody.OrderIsIrrelevant` | src/datastore/pg-write-store.ts:1594-1612 | two sequences of the same events give the same table, if no two of an NFT happened at the same place |
| `NftCustody.NftCustodyTable.RunQueue` | src/datastore/pg-write-store.ts:371-376 | the queued transactions of a block, in any order, bring the table to the latest canonical event per NFT |
| `NftCustody.NftCustodyTable.RunBlocks` | src/datastore/pg-write-store.ts:371-376 | block after block, whatever order the queues run in: per NFT a canonical event, none of which has a greater (block height, microblock sequence, tx index, event index); one table if places differ |

## Left out

- Microblocks: `handleMicroReorg`, micro-canonical flags and balances under microblock re-orgs; their flags are decoupled from the block-level ones. Only the walk along parent hashes is modelled.
- Block 0 boot data: rewritten outside the re-org path and outside the counters.
- Names, namespaces, subdomains and zonefiles: their rows are upserted with conflicts of their own and carry no computation.
- `burnchain_rewards` flags, pox_state unlock heights, NFT custody across re-orgs (restored blocks are re-applied newest first without the guard), and the lock state behind balances.
- Counters of `ReOrgUpdatedEntities` other than transactions and block headers.
- The order of statements in the write queue is the source's order; its parallelism is not modelled, each statement is atomic.
- `pruned` on arrival is always false, as the event server sends it; notifications, metrics, websockets and the Redis client are not modelled.
- Keys built by joining two strings (`address|asset`, `asset_value`) are pairs.
- Natural unlocks of pox-1 to pox-3 at the exact forced height, the amounts of forced unlocks and the choice of one row per stacker: only the windows are modelled. A `PoxEvent` is either a handle-unlock or one of the six lock events the query names.
- The weighted average over tenures, and the totals of `getBlocks` with a tenure filter; pages over a filtered list are covered, because the rows are arbitrary.
- The debouncer's connection always succeeds, and every file read fills its buffer; failures of either are not modelled.
- SQL types, connections, retries, row parsing and object copies; amounts are unbounded integers, as `NUMERIC` and `bigint` values are in the source.
- Node messages other than blocks, mempool transactions and dropped transactions (burn blocks, microblocks, attachments, raw events): they do not touch the modelled tables.
- WriteStores.WriteStore.Update: with a re-org, or for a block that does not become canonical, replace-by-fee may have a choice among ties; then it is stated when a commit and when an abort is possible, and both may be. The ids of more than 500 arrivals are taken in any order, not chunk by chunk.
- WriteStores.WriteStore.Update: promises a clean mempool only until a re-org restores transactions, because restoring does not keep it (see above).
