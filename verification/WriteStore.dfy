/**
 The chain-state writer. Its tables are fields updated in place; `chain` and `everMined` are ghost
 records of what was delivered and of every transaction that was ever canonical.
 */
module WriteStores {
  import opened Types
  import opened Balances
  import opened Tables
  import opened Chain
  import opened Ledger
  import opened Mempool
  import opened MempoolTables
  import opened PoolRows
  import opened ReOrg
  import opened ReOrgStates
  import opened BlockUpdates
  import opened MempoolReOrgs
  import opened PoolUpdates
  import opened CommitConditions
  import opened FtBalanceTables

  datatype Error = OrphanNotFound | MissingParent | SubqueryFailed

  datatype Outcome = Committed(message: Option<Message>) | Aborted(error: Error)

  class ReOrgUpdatedEntities {
    var markedCanonical: seq<BlockHeader>
    var markedNonCanonical: seq<BlockHeader>
    var txsMarkedCanonical: nat
    var txsMarkedNonCanonical: nat

    constructor ()
      ensures markedCanonical == [] && markedNonCanonical == []
      ensures txsMarkedCanonical == 0 && txsMarkedNonCanonical == 0
    {
      markedCanonical, markedNonCanonical := [], [];
      txsMarkedCanonical, txsMarkedNonCanonical := 0, 0;
    }
  }

  lemma RestoreCovers(ever: set<TxId>, txs: seq<Row<Tx>>, h: Hash, pool: Pool, headers: seq<Header>)
    requires Covered(ever, txs, pool)
    ensures Covered(ever, Mark(txs, h, true), PruneRows(pool, headers))
  {
    MarkMined(txs, h, true);
  }

  lemma RestoreCleans(txs: seq<Row<Tx>>, h: Hash, pool: Pool)
    requires Clean(pool, Mined(txs))
    ensures Clean(PruneRows(pool, HeadersOf(Flipped(txs, h, true))), Mined(Mark(txs, h, true)))
  {
    MarkMined(txs, h, true);
    HeaderIds(Flipped(txs, h, true));
    PruneKeepsClean(pool, HeadersOf(Flipped(txs, h, true)), Mined(txs));
  }

  lemma OrphanCovers(ever: set<TxId>, txs: seq<Row<Tx>>, h: Hash, headers: seq<Header>, pool: Pool, pool': Pool)
    requires Covered(ever, txs, pool) && pool.Keys <= pool'.Keys
    requires headers == HeadersOf(Flipped(txs, h, false))
    requires headers != [] ==> BackInPool(pool, headers, Mark(txs, h, false), pool')
    ensures Covered(ever, Mark(txs, h, false), pool')
  {
    MarkMined(txs, h, false);
    HeaderIds(Flipped(txs, h, false));
    forall t | t in ever
      ensures t in Mined(Mark(txs, h, false)) + pool'.Keys
    {
      if t in Mined(txs) && t !in Mined(Mark(txs, h, false)) {
        var x :| x in headers && x.txId == t;
        assert Resolved(pool', t, Mined(Mark(txs, h, false)));
      }
    }
  }

  lemma {:induction false} NoneFlipped<T>(rows: seq<Row<T>>, h: Hash, c: bool)
    requires Flipped(rows, h, c) == []
    ensures Mark(rows, h, c) == rows
  {
    if rows != [] {
      NoneFlipped(rows[..|rows| - 1], h, c);
    }
  }

  // ---- What holds between two transactions -------------------------------------------------------

  /**
   The tables are in step with the chain, the mempool counter is right, every transaction that was ever
   canonical is mined or has a mempool row, no row was pruned without a reason, and, until a re-org puts
   transactions back, no two pending ones share payer and nonce and none is mined.
   */
  ghost predicate Sound(t: ChainTables, c: Chain, pool: Pool, txCount: int, ever: set<TxId>, restored: bool) {
    && Aligned(t, c)
    && txCount == |PendingIn(pool)|
    && Covered(ever, t.ledger.txs, pool)
    && Mined(t.ledger.txs) <= ever
    && Reasoned(pool, t.ledger.txs)
    && (!restored ==> Clean(pool, Mined(t.ledger.txs)))
  }

  /** The same, folded. */
  ghost predicate Sealed(t: ChainTables, c: Chain, pool: Pool, txCount: int, ever: set<TxId>, restored: bool) {
    && (c.tip.Some? ==> c.tip.value in c.known)
    && forall k :: Opened(k, t) ==> Sound(t, c, pool, txCount, ever, restored)
  }

  lemma SealedSound(t: ChainTables, c: Chain, pool: Pool, txCount: int, ever: set<TxId>, restored: bool)
    ensures Sealed(t, c, pool, txCount, ever, restored) <==> Sound(t, c, pool, txCount, ever, restored)
  {
    assert Opened(0, t);
  }

  lemma SealedAligned(t: ChainTables, c: Chain, pool: Pool, txCount: int, ever: set<TxId>, restored: bool, d: BlockData)
    requires Sealed(t, c, pool, txCount, ever, restored) && Fits(c, d) && ValidData(d)
    ensures Aligned(Updated(t, d), Deliver(c, d))
  {
    SealedSound(t, c, pool, txCount, ever, restored);
    UpdateAligns(t, c, d);
  }

  lemma SealedAccepts(t: ChainTables, c: Chain, pool: Pool, txCount: int, ever: set<TxId>, restored: bool, d: BlockData)
    requires Sealed(t, c, pool, txCount, ever, restored)
    ensures HasParent(t.blocks, d.info) <==> Accepts(c, d)
  {
    SealedSound(t, c, pool, txCount, ever, restored);
    SameParents(t, c, d);
  }

  /** What the statements of an update may rely on. */
  lemma SealedReady(t: ChainTables, c: Chain, pool: Pool, txCount: int, ever: set<TxId>, restored: bool, d: BlockData)
    requires Sealed(t, c, pool, txCount, ever, restored) && Fits(c, d)
    ensures OnePerHeight(t.blocks) && txCount == |PendingIn(pool)| && Covered(ever, t.ledger.txs, pool)
    ensures t.tip.indexBlockHash.Some? ==> t.tip.indexBlockHash.value in t.blocks
    ensures d.hash in t.blocks ==> d.info.height <= t.tip.blockHeight
  {
    SealedSound(t, c, pool, txCount, ever, restored);
    AlignedOnePerHeight(t, c);
    AlignedBlocks(t, c);
  }

  lemma SealedClean(t: ChainTables, c: Chain, pool: Pool, txCount: int, ever: set<TxId>, restored: bool)
    requires Sealed(t, c, pool, txCount, ever, restored) && !restored
    ensures Clean(pool, Mined(t.ledger.txs))
  {
    SealedSound(t, c, pool, txCount, ever, restored);
  }

  lemma SealedReasoned(t: ChainTables, c: Chain, pool: Pool, txCount: int, ever: set<TxId>, restored: bool)
    requires Sealed(t, c, pool, txCount, ever, restored)
    ensures Reasoned(pool, t.ledger.txs)
  {
    SealedSound(t, c, pool, txCount, ever, restored);
  }

  lemma Seal(t: ChainTables, c: Chain, pool: Pool, txCount: int, ever: set<TxId>, restored: bool)
    requires Aligned(t, c) && txCount == |PendingIn(pool)| && Covered(ever, t.ledger.txs, pool)
    requires Reasoned(pool, t.ledger.txs)
    requires !restored ==> Clean(pool, Mined(t.ledger.txs))
    ensures Sealed(t, c, pool, txCount, ever + Mined(t.ledger.txs), restored)
  {
    SealedSound(t, c, pool, txCount, ever + Mined(t.ledger.txs), restored);
  }

  lemma SealedKnown(t: ChainTables, c: Chain, pool: Pool, txCount: int, ever: set<TxId>, restored: bool, d: BlockData)
    requires Sealed(t, c, pool, txCount, ever, restored) && Fits(c, d) && d.hash in t.blocks
    ensures Updated(t, d) == t
  {
    SealedSound(t, c, pool, txCount, ever, restored);
    SameParents(t, c, d);
    KnownChangesNothing(t, c, d);
  }

  /** A block for the top of the chain that needs no re-org, with transactions of its own places and ids. */
  ghost predicate Direct(t: ChainTables, c: Chain, d: BlockData)
    requires c.tip.Some? ==> c.tip.value in c.known
  {
    Accepts(c, d) && Regular(c, d) && t.tip.blockHeight < d.info.height && !Reorgs(t, d.info)
  }

  lemma SealedCommits(t: ChainTables, c: Chain, pool: Pool, txCount: int, ever: set<TxId>, restored: bool, d: BlockData,
                      now: int)
    requires Sealed(t, c, pool, txCount, ever, restored) && Fits(c, d) && ValidData(d) && Direct(t, c, d)
    ensures var txs := Updated(t, d).ledger.txs;
      var condition := LatestInAll(pool, txs, IdSeq(TxsOf(d.txs)), 0);
      && d.hash !in t.blocks
      && (UpdateMayFail(t, pool, d, now) <==> !condition) && (CanFollow(t, pool, txs, d, now) <==> condition)
  {
    SealedSound(t, c, pool, txCount, ever, restored);
    SameParents(t, c, d);
    DeliverCanonical(c, d);
    CanonicalCommits(t, c, pool, d, now);
  }

  /** The mempool after an update: that of a new block, or the same. */
  ghost predicate PoolMoves(t: ChainTables, pool: Pool, pool': Pool, d: BlockData, now: int) {
    if d.hash in t.blocks then pool' == pool else PoolFollows(t, pool, pool', Updated(t, d).ledger.txs, d, now)
  }

  lemma UpdateReasoned(t: ChainTables, c: Chain, pool: Pool, txCount: int, ever: set<TxId>, restored: bool,
                       d: BlockData,
                       st: ReOrgState, pool': Pool, now: int)
    requires Sealed(t, c, pool, txCount, ever, restored) && Fits(c, d) && LeadsTo(t, d.info, st)
    requires PoolMoves(t, pool, pool', d, now)
    ensures Follows(pool, pool') && Reasoned(pool', Updated(t, d).ledger.txs)
  {
    SealedReasoned(t, c, pool, txCount, ever, restored);
    if d.hash in t.blocks {
      SealedKnown(t, c, pool, txCount, ever, restored, d);
    } else {
      LeadsToReorged(t, d.info, st);
      UpdateKeepsRows(t, pool, pool', d, now);
    }
  }

  /** A committed update keeps all of it. */
  lemma UpdateSeals(t: ChainTables, c: Chain, pool: Pool, txCount: int, ever: set<TxId>, restored: bool, d: BlockData,
                    st: ReOrgState, t': ChainTables, pool': Pool, txCount': int, now: int)
    requires Sealed(t, c, pool, txCount, ever, restored) && Fits(c, d) && ValidData(d) && LeadsTo(t, d.info, st)
    requires t' == Finished(AfterReorg(t.tip, st), d, t.tip.blockHeight < d.info.height)
    requires txCount' == |PendingIn(pool')| && Covered(ever, t'.ledger.txs, pool')
    requires PoolMoves(t, pool, pool', d, now)
    requires st.unmarked == 0 && Clean(pool, Mined(t.ledger.txs)) ==> Clean(pool', Mined(t'.ledger.txs))
    ensures Sealed(t', Deliver(c, d), pool', txCount', ever + Mined(t'.ledger.txs), restored || OrphansTxs(t, d.info))
    ensures Follows(pool, pool')
  {
    LeadsToUpdated(t, d, st);
    SealedAligned(t, c, pool, txCount, ever, restored, d);
    UpdateReasoned(t, c, pool, txCount, ever, restored, d, st, pool', now);
    if !restored {
      SealedClean(t, c, pool, txCount, ever, restored);
    }
    Seal(t', Deliver(c, d), pool', txCount', ever, restored || OrphansTxs(t, d.info));
  }

  /** So does a step of the mempool alone that forgets no transaction. */
  lemma PoolStepSeals(t: ChainTables, c: Chain, pool: Pool, txCount: int, ever: set<TxId>, restored: bool,
                      pool': Pool, txCount': int)
    requires Sealed(t, c, pool, txCount, ever, restored)
    requires txCount' == |PendingIn(pool')| && pool.Keys <= pool'.Keys
    requires Reasoned(pool, t.ledger.txs) ==> Reasoned(pool', t.ledger.txs)
    requires Clean(pool, Mined(t.ledger.txs)) ==> Clean(pool', Mined(t.ledger.txs))
    ensures Sealed(t, c, pool', txCount', ever, restored)
  {
    SealedSound(t, c, pool, txCount, ever, restored);
    SealedSound(t, c, pool', txCount', ever, restored);
  }

  /** A direct block commits exactly if, in every batch, a row in two of its groups was mined last in both. Folded. */
  ghost predicate DecidedByGroups(t: ChainTables, c: Chain, pool: Pool, d: BlockData, committed: bool) {
    forall k :: Opened(k, [pool]) ==> (c.tip.Some? ==> c.tip.value in c.known) && Direct(t, c, d) ==>
      (committed <==> LatestInAll(pool, Updated(t, d).ledger.txs, IdSeq(TxsOf(d.txs)), 0))
  }

  lemma SealedDecides(t: ChainTables, c: Chain, pool: Pool, txCount: int, ever: set<TxId>, restored: bool, d: BlockData,
                      now: int, committed: bool, pool': Pool)
    requires Sealed(t, c, pool, txCount, ever, restored) && Fits(c, d) && ValidData(d)
    requires committed ==> PoolMoves(t, pool, pool', d, now)
    requires !committed ==> !Accepts(c, d) || UpdateMayFail(t, pool, d, now)
    ensures DecidedByGroups(t, c, pool, d, committed)
  {
    if Direct(t, c, d) {
      SealedCommits(t, c, pool, txCount, ever, restored, d, now);
    }
  }

  class WriteStore {
    var blocks: BlockTable
    var ledger: Ledger
    var chainTip: ChainTip
    const ftBalances: FtBalanceTable
    const mempool: MempoolTable
    ghost var chain: Chain
    ghost var everMined: set<TxId>
    ghost var restored: bool   // whether a re-org ever put transactions back into the mempool

    constructor ()
      ensures fresh(ftBalances) && fresh(mempool)
      ensures Content() == NO_TABLES && mempool.rows == map[]
      ensures chain == GENESIS && everMined == {} && !restored && Valid()
    {
      blocks, ledger := map[], EMPTY;
      chainTip := ChainTip(0, None, 0, 0, 0);
      ftBalances := new FtBalanceTable();
      mempool := new MempoolTable();
      chain, everMined, restored := GENESIS, {}, false;
      new;
      AlignedFromStart();
      SealedSound(Content(), chain, mempool.rows, mempool.txCount, everMined, restored);
    }

    /** markEntitiesCanonical: re-flag every row of a block and move the balances with it. */
    method MarkEntitiesCanonical(h: Hash, c: bool, updated: ReOrgUpdatedEntities) returns (headers: seq<Header>)
      modifies this`ledger, ftBalances, updated`txsMarkedCanonical, updated`txsMarkedNonCanonical
      ensures ledger == MarkAll(old(ledger), h, c)
      ensures ftBalances.rows == ReflagAll(old(ftBalances.rows), old(ledger), h, c)
      ensures headers == HeadersOf(Flipped(old(ledger.txs), h, c))
      ensures updated.txsMarkedCanonical == old(updated.txsMarkedCanonical) + if c then |headers| else 0
      ensures updated.txsMarkedNonCanonical == old(updated.txsMarkedNonCanonical) + if c then 0 else |headers|
    {
      var flipped := Flipped(ledger.txs, h, c);
      ledger := ledger.(txs := Mark(ledger.txs, h, c));
      ftBalances.Apply(Signed(c, ChangesOf(flipped, FeeChanges)));
      headers := HeadersOf(flipped);
      if c {
        updated.txsMarkedCanonical := updated.txsMarkedCanonical + |headers|;
      } else {
        updated.txsMarkedNonCanonical := updated.txsMarkedNonCanonical + |headers|;
      }
      if |headers| > 0 {
        ledger := ledger.(principalTxs := MarkPrincipals(ledger.principalTxs, IdsOf(flipped), h, c));
      } else {
        assert MarkPrincipals(ledger.principalTxs, IdsOf(flipped), h, c) == ledger.principalTxs;
      }
      var rewards := Flipped(ledger.rewards, h, c);
      ledger := ledger.(rewards := Mark(ledger.rewards, h, c));
      ftBalances.Apply(Signed(c, ChangesOf(rewards, RewardChanges)));
      var stxEvents := Flipped(ledger.stxEvents, h, c);
      ledger := ledger.(stxEvents := Mark(ledger.stxEvents, h, c));
      ftBalances.Apply(Signed(c, ChangesOf(stxEvents, StxChanges)));
      var ftEvents := Flipped(ledger.ftEvents, h, c);
      ledger := ledger.(ftEvents := Mark(ledger.ftEvents, h, c));
      ftBalances.Apply(Signed(c, ChangesOf(ftEvents, FtChanges)));
      MarkFlagTables(h, c);
    }

    /** The nine tables whose rows carry a flag only. */
    method MarkFlagTables(h: Hash, c: bool)
      modifies this`ledger
      ensures ledger == old(ledger).(flagged := Mark(old(ledger.flagged), h, c))
    {
      MarkNoTables(ledger.flagged, h, c);
      for i := 0 to |FLAG_TABLES|
        invariant ledger == old(ledger).(flagged := MarkTables(old(ledger.flagged), FLAG_TABLES[..i], h, c))
      {
        MarkOneMore(old(ledger.flagged), FLAG_TABLES[..i], FLAG_TABLES[i], h, c);
        ledger := ledger.(flagged := MarkTables(ledger.flagged, [FLAG_TABLES[i]], h, c));
        assert FLAG_TABLES[..i + 1] == FLAG_TABLES[..i] + [FLAG_TABLES[i]];
      }
      assert FLAG_TABLES[..|FLAG_TABLES|] == FLAG_TABLES;
      MarkEveryTable(old(ledger.flagged), h, c);
    }

    /** The part of a re-org that takes a block's rows out and its transactions back to the mempool. */
    method OrphanEntities(h: Hash, updated: ReOrgUpdatedEntities) returns (ok: bool)
      requires mempool.Counted() && Covered(everMined, ledger.txs, mempool.rows)
      modifies this`ledger, ftBalances, mempool, updated`txsMarkedCanonical, updated`txsMarkedNonCanonical
      ensures ledger == MarkAll(old(ledger), h, false)
      ensures ftBalances.rows == ReflagAll(old(ftBalances.rows), old(ledger), h, false)
      ensures mempool.Counted()
      ensures ok ==> Covered(everMined, ledger.txs, mempool.rows)
      ensures ok ==> OrphanPool(old(ledger), Some(h), chainTip.blockHeight, old(mempool.rows), mempool.rows)
      ensures !ok ==> OrphanMayFail(old(ledger), Some(h), chainTip.blockHeight, old(mempool.rows))
      ensures updated.txsMarkedCanonical == old(updated.txsMarkedCanonical)
      ensures updated.txsMarkedNonCanonical
           == old(updated.txsMarkedNonCanonical) + |Flipped(old(ledger.txs), h, false)|
      ensures Flipped(old(ledger.txs), h, false) == [] ==> mempool.rows == old(mempool.rows)
    {
      ghost var txs, pool := ledger.txs, mempool.rows;
      var headers := MarkEntitiesCanonical(h, false, updated);
      ok := mempool.Restore(headers, ledger.txs, chainTip.blockHeight);
      if ok {
        OrphanCovers(everMined, txs, h, headers, pool, mempool.rows);
      }
    }

    /** The part that brings a block's rows back and prunes its transactions from the mempool. */
    method RestoreEntities(h: Hash, updated: ReOrgUpdatedEntities)
      requires mempool.Counted()
      modifies this`ledger, ftBalances, mempool, updated`txsMarkedCanonical, updated`txsMarkedNonCanonical
      ensures ledger == MarkAll(old(ledger), h, true)
      ensures ftBalances.rows == ReflagAll(old(ftBalances.rows), old(ledger), h, true)
      ensures mempool.Counted()
      ensures mempool.rows == PruneRows(old(mempool.rows), HeadersOf(Flipped(old(ledger.txs), h, true)))
      ensures updated.txsMarkedNonCanonical == old(updated.txsMarkedNonCanonical)
      ensures updated.txsMarkedCanonical == old(updated.txsMarkedCanonical) + |Flipped(old(ledger.txs), h, true)|
    {
      var headers := MarkEntitiesCanonical(h, true, updated);
      var _ := mempool.Prune(headers);
    }

    /** The re-org state: the tables it changes and what it collected. */
    ghost function StateOf(updated: ReOrgUpdatedEntities): ReOrgState
      reads this`blocks, this`ledger, ftBalances, updated
    {
      ReOrgState(blocks, ledger, ftBalances.rows, updated.markedCanonical, updated.markedNonCanonical,
                 updated.txsMarkedCanonical, updated.txsMarkedNonCanonical)
    }

    /** The two updates of blocks at the head of restoreOrphanedChain. */
    method FlagBlocks(h: Hash, updated: ReOrgUpdatedEntities) returns (error: Option<Error>, orphaned: Option<Hash>)
      requires OnePerHeight(blocks)
      modifies this`blocks, updated`markedCanonical, updated`markedNonCanonical
      ensures error == if h in old(blocks) && !old(blocks)[h].canonical then None else Some(OrphanNotFound)
      ensures error.None? ==> blocks == FlipBlocks(old(blocks), h) && orphaned == RivalOf(old(blocks), h)
      ensures error.None? ==>
        updated.markedCanonical
        == [BlockHeader(h, old(blocks)[h].info.height, old(blocks)[h].info.time)] + old(updated.markedCanonical)
      ensures error.None? ==>
        updated.markedNonCanonical
        == (if orphaned.None? then [] else
              var info := old(blocks)[orphaned.value].info;
              [BlockHeader(orphaned.value, info.height, info.time)])
           + old(updated.markedNonCanonical)
    {
      orphaned := None;
      if h !in blocks || blocks[h].canonical {
        return Some(OrphanNotFound), None;
      }
      error := None;
      updated.markedCanonical := [HeaderFor(h, blocks[h].info)] + updated.markedCanonical;
      var rivals := RivalsOf(blocks, h);
      if rivals != {} {
        var o :| o in rivals;
        orphaned := Some(o);
        updated.markedNonCanonical := [HeaderFor(o, blocks[o].info)] + updated.markedNonCanonical;
      }
      blocks := FlipBlocks(blocks, h);
    }

    /** The entity part of restoreOrphanedChain: the rival's rows out, if there is one, then the block's in. */
    method SwapEntities(h: Hash, orphaned: Option<Hash>, updated: ReOrgUpdatedEntities) returns (ok: bool)
      requires mempool.Counted() && Covered(everMined, ledger.txs, mempool.rows)
      modifies this`ledger, ftBalances, mempool, updated`txsMarkedCanonical, updated`txsMarkedNonCanonical
      ensures mempool.Counted()
      ensures ok ==> Covered(everMined, ledger.txs, mempool.rows)
      ensures ok ==>
        SwapPool(old(ledger), orphaned, h, chainTip.blockHeight, old(mempool.rows), mempool.rows)
      ensures !ok ==> OrphanMayFail(old(ledger), orphaned, chainTip.blockHeight, old(mempool.rows))
      ensures ok ==> ledger == SwapLedger(old(ledger), orphaned, h)
      ensures ok ==> ftBalances.rows == SwapBalances(old(ftBalances.rows), old(ledger), orphaned, h)
      ensures ok ==>
        updated.txsMarkedCanonical == old(updated.txsMarkedCanonical) + RestoredTxs(old(ledger), orphaned, h)
      ensures ok ==>
        updated.txsMarkedNonCanonical == old(updated.txsMarkedNonCanonical) + OrphanedTxs(old(ledger), orphaned)
      ensures ok && OrphanedTxs(old(ledger), orphaned) == 0 && Clean(old(mempool.rows), Mined(old(ledger).txs)) ==>
        Clean(mempool.rows, Mined(ledger.txs))
    {
      ok := true;
      if orphaned.Some? {
        ok := OrphanEntities(orphaned.value, updated);
        if !ok {
          return;
        }
        if OrphanedTxs(old(ledger), orphaned) == 0 {
          NoneFlipped(old(ledger).txs, orphaned.value, false);
        }
      }
      ghost var pool, txs := mempool.rows, ledger.txs;
      assert OrphanPool(old(ledger), orphaned, chainTip.blockHeight, old(mempool.rows), pool);
      RestoreEntities(h, updated);
      SwapPoolSwapped(old(ledger), orphaned, h, chainTip.blockHeight, old(mempool.rows), mempool.rows);
      RestoreCovers(everMined, txs, h, pool, HeadersOf(Flipped(txs, h, true)));
      if Clean(pool, Mined(txs)) {
        RestoreCleans(txs, h, pool);
      }
    }

    /** restoreOrphanedChain up to the search for the parent. */
    method RestoreBlock(h: Hash, updated: ReOrgUpdatedEntities) returns (error: Option<Error>)
      requires OnePerHeight(blocks)
      requires mempool.Counted() && Covered(everMined, ledger.txs, mempool.rows)
      modifies this`blocks, this`ledger, ftBalances, mempool, updated
      ensures mempool.Counted()
      ensures error == Some(OrphanNotFound) <==> !(h in old(blocks) && !old(blocks)[h].canonical)
      ensures error != Some(MissingParent)
      ensures error.None? ==> StepsTo(old(StateOf(updated)), h, StateOf(updated))
      ensures error.None? ==>
        RoundPool(old(StateOf(updated)), h, chainTip.blockHeight, old(mempool.rows), mempool.rows)
      ensures error == Some(SubqueryFailed) ==>
        OrphanMayFail(old(ledger), RivalOf(old(blocks), h), chainTip.blockHeight, old(mempool.rows))
      ensures error.None? ==> Covered(everMined, ledger.txs, mempool.rows)
      ensures
        error.None? && updated.txsMarkedNonCanonical == old(updated.txsMarkedNonCanonical)
        && Clean(old(mempool.rows), Mined(old(ledger).txs))
        ==> Clean(mempool.rows, Mined(ledger.txs))
    {
      ghost var st := StateOf(updated);
      var orphaned;
      error, orphaned := FlagBlocks(h, updated);
      if error.Some? {
        return;
      }
      var ok := SwapEntities(h, orphaned, updated);
      if !ok {
        return Some(SubqueryFailed);
      }
      assert orphaned == RivalOf(st.blocks, h);
      RoundMade(st, h, StateOf(updated));
    }

    /**
     restoreOrphanedChain: bring back block h, push out its rival, and go on with the parent while
     that is not canonical. The height decreases.
     */
    method RestoreOrphanedChain(h: Hash, updated: ReOrgUpdatedEntities) returns (error: Option<Error>)
      requires OnePerHeight(blocks)
      requires mempool.Counted() && Covered(everMined, ledger.txs, mempool.rows)
      modifies this`blocks, this`ledger, ftBalances, mempool, updated
      ensures mempool.Counted()
      ensures error == Some(OrphanNotFound) <==> !(h in old(blocks) && !old(blocks)[h].canonical)
      ensures error != Some(MissingParent)
      ensures error.None? ==> RestoresTo(old(StateOf(updated)), h, StateOf(updated))
      ensures error.None? ==>
        LeadsPool(old(StateOf(updated)), h, chainTip.blockHeight, old(mempool.rows), mempool.rows)
      ensures error == Some(SubqueryFailed) ==>
        LeadsFail(old(StateOf(updated)), h, chainTip.blockHeight, old(mempool.rows))
      ensures error.None? ==> Covered(everMined, ledger.txs, mempool.rows)
      ensures error.None? ==> old(updated.txsMarkedNonCanonical) <= updated.txsMarkedNonCanonical
      ensures
        error.None? && updated.txsMarkedNonCanonical == old(updated.txsMarkedNonCanonical)
        && Clean(old(mempool.rows), Mined(old(ledger).txs))
        ==> Clean(mempool.rows, Mined(ledger.txs))
      decreases if h in blocks then blocks[h].info.height else 0
    {
      ghost var st, pool := StateOf(updated), mempool.rows;
      error := RestoreBlock(h, updated);
      if error.Some? {
        if error == Some(SubqueryFailed) {
          LeadsFailHere(st, h, chainTip.blockHeight, pool);
        }
        return;
      }
      ghost var next, between := StateOf(updated), mempool.rows;
      StepKeeps(st, h, next);
      if GoesOn(blocks, h) {
        var parent := blocks[h].info.parent;
        error := RestoreOrphanedChain(parent, updated);
        LeadsOn(st, next, h, parent, chainTip.blockHeight, pool, between, mempool.rows);
        if error.None? {
          RestoresOn(st, h, next, parent, StateOf(updated));
        }
      } else {
        RestoresLast(st, h, next);
        LeadsLast(st, next, h, chainTip.blockHeight, pool, between);
      }
    }

    // ---- A block update --------------------------------------------------------------------------

    ghost function Content(): ChainTables
      reads this`blocks, this`ledger, this`chainTip, ftBalances
    {
      ChainTables(blocks, ledger, ftBalances.rows, chainTip)
    }

    /** The part of handleReorg that restores an orphaned parent under a block taller than the tip. */
    method RestoreParent(info: BlockInfo, tipHeight: nat, updated: ReOrgUpdatedEntities) returns (error: Option<Error>)
      requires OnePerHeight(blocks) && tipHeight == chainTip.blockHeight
      requires mempool.Counted() && Covered(everMined, ledger.txs, mempool.rows)
      requires StateOf(updated) == BeforeReorg(Content()) && info.height > 1 && HasParent(blocks, info)
      modifies this`blocks, this`ledger, ftBalances, mempool, updated
      ensures mempool.Counted()
      ensures error != Some(MissingParent) && error != Some(OrphanNotFound)
      ensures error.None? ==> LeadsTo(old(Content()), info, StateOf(updated))
      ensures error.None? ==> Covered(everMined, ledger.txs, mempool.rows)
      ensures error.None? && updated.txsMarkedNonCanonical == 0 && Clean(old(mempool.rows), Mined(old(ledger).txs)) ==>
        Clean(mempool.rows, Mined(ledger.txs))
      ensures error.None? ==> ReorgPool(old(Content()), info, old(mempool.rows), mempool.rows)
      ensures error == Some(SubqueryFailed) ==> ReorgMayFail(old(Content()), info, old(mempool.rows))
    {
      ghost var t := Content();
      error := None;
      if !blocks[info.parent].canonical && info.height > tipHeight {
        error := RestoreOrphanedChain(info.parent, updated);
        if error.None? {
          LeadsByRestoring(t, info, StateOf(updated));
        }
      } else {
        LeadsToReorged(t, info, StateOf(updated));
      }
    }

    /**
     handleReorg: find the parent, restore its chain where needed, correct the transaction counts. The
     ghost result is where the re-org led.
     */
    method HandleReorg(info: BlockInfo, tipHeight: nat, updated: ReOrgUpdatedEntities)
      returns (error: Option<Error>, ghost st: ReOrgState)
      requires OnePerHeight(blocks) && tipHeight == chainTip.blockHeight
      requires mempool.Counted() && Covered(everMined, ledger.txs, mempool.rows)
      requires StateOf(updated) == BeforeReorg(Content())
      modifies this`blocks, this`ledger, this`chainTip, ftBalances, mempool, updated
      ensures mempool.Counted()
      ensures error == Some(MissingParent) <==> !HasParent(old(blocks), info)
      ensures error != Some(OrphanNotFound)
      ensures error.None? ==> LeadsTo(old(Content()), info, st) && StateOf(updated) == st
      ensures error.None? ==> Content() == AfterReorg(old(chainTip), st)
      ensures error.None? ==> Covered(everMined, ledger.txs, mempool.rows)
      ensures error.None? && st.unmarked == 0 && Clean(old(mempool.rows), Mined(old(ledger).txs)) ==>
        Clean(mempool.rows, Mined(ledger.txs))
      ensures error.None? ==> ReorgPool(old(Content()), info, old(mempool.rows), mempool.rows)
      ensures error == Some(SubqueryFailed) ==> ReorgMayFail(old(Content()), info, old(mempool.rows))
    {
      error, st := None, StateOf(updated);
      ghost var t := Content();
      if info.height > 1 {
        if info.parent !in blocks || blocks[info.parent].info.height != info.height - 1 {
          return Some(MissingParent), st;
        }
        error := RestoreParent(info, tipHeight, updated);
        st := StateOf(updated);
        if error.Some? {
          return;
        }
        var delta := updated.txsMarkedCanonical - updated.txsMarkedNonCanonical;
        chainTip := MovedTip(chainTip, delta);
      } else {
        LeadsToReorged(t, info, st);
      }
    }

    /** updateBlock and the inserts that follow it for a new block. */
    method InsertBlock(d: BlockData, c: bool) returns (inserted: bool)
      modifies this`blocks, this`ledger, ftBalances
      ensures inserted <==> d.hash !in old(blocks)
      ensures Content() == InsertedBlock(old(Content()), d, c)
    {
      inserted := d.hash !in blocks;
      if !inserted {
        return;
      }
      blocks := blocks[d.hash := BlockRow(d.info, c)];
      if c {
        ftBalances.UpdateStxBalances(d.txs, d.rewards);
        ftBalances.UpdateFtBalances(d.txs);
      }
      InsertRows(d, c);
    }

    /** The rows of a block, table by table; those of its transactions only if it has any. */
    method InsertRows(d: BlockData, c: bool)
      modifies this`ledger
      ensures ledger == InsertAll(old(ledger), d, c)
    {
      var height := d.info.height;
      ledger := ledger.(rewards := ledger.rewards + RowsFor(d.hash, height, c, d.rewards));
      ledger := ledger.(flagged := ledger.flagged + RowsFor(d.hash, height, c, d.flagged));
      if |d.txs| > 0 {
        ledger := ledger.(txs := ledger.txs + RowsFor(d.hash, height, c, TxsOf(d.txs)));
        ledger := ledger.(stxEvents := ledger.stxEvents + RowsFor(d.hash, height, c, StxEventsOf(d.txs)));
        ledger := ledger.(principalTxs := ledger.principalTxs
                                          + PrincipalRowsFor(d.hash, height, c, PrincipalTxsOf(d.txs)));
        ledger := ledger.(ftEvents := ledger.ftEvents + RowsFor(d.hash, height, c, FtEventsOf(d.txs)));
      } else {
        assert PrincipalRowsFor(d.hash, height, c, PrincipalTxsOf(d.txs)) == {};
      }
    }

    /** The end of the queue: collect what expired, then recompute replace-by-fee for the block's nonces. */
    method SettleMempool(d: BlockData, now: int) returns (ok: bool)
      requires mempool.Counted()
      modifies mempool
      ensures ok ==> mempool.Counted()
      ensures ok ==>
        Settles(old(mempool.rows), ledger.txs, d, SignedTip(Content()), now, chainTip.blockHeight, mempool.rows)
      ensures !ok ==>
        SettleMayFail(old(mempool.rows), ledger.txs, d, SignedTip(Content()), now, chainTip.blockHeight)
    {
      var signed := SignedTip(ChainTables(blocks, ledger, ftBalances.rows, chainTip));
      mempool.GarbageCollect(signed, now, chainTip.blockHeight);
      ok := mempool.UpdateReplacedByFee(ledger.txs, IdSeq(TxsOf(d.txs)), false);
    }

    /** What holds between two transactions. */
    ghost predicate Valid()
      reads this, ftBalances, mempool
    {
      Sealed(Content(), chain, mempool.rows, mempool.txCount, everMined, restored)
    }

    /** The middle of an update: the mempool makes room for a canonical block, then its rows go in. */
    method PlaceBlock(d: BlockData, canonical: bool) returns (inserted: bool)
      requires mempool.Counted()
      modifies this`blocks, this`ledger, ftBalances, mempool
      ensures mempool.Counted()
      ensures inserted <==> d.hash !in old(blocks)
      ensures Content() == InsertedBlock(old(Content()), d, canonical)
      ensures mempool.rows ==
        if canonical then PruneRows(old(mempool.rows), HeadersOf(TxsOf(d.txs))) else old(mempool.rows)
    {
      if canonical {
        var _ := mempool.Prune(HeadersOf(TxsOf(d.txs)));
      }
      inserted := InsertBlock(d, canonical);
    }

    /** The end of an update: the mempool is settled after a new block, and the tip follows a canonical one. */
    method CloseBlock(d: BlockData, now: int, canonical: bool, inserted: bool) returns (ok: bool)
      requires mempool.Counted()
      modifies this`chainTip, mempool
      ensures ok ==> mempool.Counted()
      ensures chainTip == if ok && canonical then AdvancedTip(old(chainTip), d) else old(chainTip)
      ensures !inserted ==> ok && mempool.rows == old(mempool.rows)
      ensures ok && inserted ==>
        Settles(old(mempool.rows), ledger.txs, d, SignedTip(old(Content())), now, old(chainTip).blockHeight,
          mempool.rows)
      ensures !ok ==> inserted
      ensures !ok ==>
        SettleMayFail(old(mempool.rows), ledger.txs, d, SignedTip(old(Content())), now, old(chainTip).blockHeight)
    {
      ok := true;
      if inserted {
        ok := SettleMempool(d, now);
        if !ok {
          return;
        }
      }
      if canonical {
        chainTip := AdvancedTip(chainTip, d);
      }
    }

    /** An update up to its rows: the re-org, then the block. */
    method TakeBlock(d: BlockData, canonical: bool, updated: ReOrgUpdatedEntities)
      returns (error: Option<Error>, inserted: bool, ghost st: ReOrgState, ghost before: Pool)
      requires OnePerHeight(blocks) && mempool.Counted() && Covered(everMined, ledger.txs, mempool.rows)
      requires StateOf(updated) == BeforeReorg(Content())
      modifies this`blocks, this`ledger, this`chainTip, ftBalances, mempool, updated
      ensures error == Some(MissingParent) <==> !HasParent(old(blocks), d.info)
      ensures error != Some(OrphanNotFound)
      ensures error.None? ==> LeadsTo(old(Content()), d.info, st)
      ensures error.None? ==> Content() == InsertedBlock(AfterReorg(old(chainTip), st), d, canonical)
      ensures error.None? ==> updated.markedCanonical == st.applied && updated.markedNonCanonical == st.rolledBack
      ensures error.None? ==> mempool.Counted() && Covered(everMined, ledger.txs, mempool.rows)
      ensures error.None? ==> (inserted <==> d.hash !in old(blocks))
      ensures error.None? ==> ReorgPool(old(Content()), d.info, old(mempool.rows), before)
      ensures error == Some(SubqueryFailed) ==> ReorgMayFail(old(Content()), d.info, old(mempool.rows))
      ensures error.None? ==> mempool.rows == MadeRoom(before, d, canonical)
      ensures error.None? && inserted && st.unmarked == 0 && Clean(old(mempool.rows), Mined(old(ledger).txs)) ==>
        Clean(mempool.rows, Mined(ledger.txs))
    {
      ghost var t := Content();
      inserted, before := false, mempool.rows;
      error, st := HandleReorg(d.info, chainTip.blockHeight, updated);
      if error.Some? {
        return;
      }
      LeadsKeepsBlocks(t, d.info, st);
      before := mempool.rows;
      ghost var l := ledger;
      inserted := PlaceBlock(d, canonical);
      if inserted {
        assert ledger == InsertAll(l, d, canonical);
        PlacingKeeps(everMined, l, before, d, canonical, mempool.rows);
      }
    }

    /** The statements of one update, in order; on an error the caller undoes what they did. */
    method ApplyBlock(d: BlockData, now: int, updated: ReOrgUpdatedEntities)
      returns (error: Option<Error>, ghost st: ReOrgState)
      requires Valid() && Fits(chain, d) && ValidData(d)
      requires StateOf(updated) == BeforeReorg(Content())
      modifies this`blocks, this`ledger, this`chainTip, ftBalances, mempool, updated
      ensures error == Some(MissingParent) <==> !HasParent(old(blocks), d.info)
      ensures error != Some(OrphanNotFound)
      ensures error.None? ==> LeadsTo(old(Content()), d.info, st)
      ensures error.None? ==>
        Content() == Finished(AfterReorg(old(chainTip), st), d, old(chainTip).blockHeight < d.info.height)
      ensures error.None? ==> updated.markedCanonical == st.applied && updated.markedNonCanonical == st.rolledBack
      ensures error.None? ==> mempool.Counted() && Covered(everMined, ledger.txs, mempool.rows)
      ensures error.None? && d.hash in old(blocks) ==> mempool.rows == old(mempool.rows)
      ensures error.None? && d.hash !in old(blocks) ==>
        PoolFollows(old(Content()), old(mempool.rows), mempool.rows, ledger.txs, d, now)
      ensures error == Some(SubqueryFailed) ==> UpdateMayFail(old(Content()), old(mempool.rows), d, now)
      ensures error.None? && st.unmarked == 0 && Clean(old(mempool.rows), Mined(old(ledger).txs)) ==>
        Clean(mempool.rows, Mined(ledger.txs))
    {
      ghost var t := Content();
      SealedReady(t, chain, mempool.rows, mempool.txCount, everMined, restored, d);
      var canonical := d.info.height > chainTip.blockHeight;
      var inserted;
      ghost var pool, before := mempool.rows, mempool.rows;
      error, inserted, st, before := TakeBlock(d, canonical, updated);
      if error.Some? {
        return;
      }
      SignedTipStays(t, d, st, canonical);
      if !inserted {
        LeadsNowhere(t, d.info, st);
      }
      ghost var placed := mempool.rows;
      var ok := CloseBlock(d, now, canonical, inserted);
      if !ok {
        FailsAtTheEnd(t, d, st, pool, before, ledger.txs, now);
        return Some(SubqueryFailed), st;
      }
      if inserted {
        SettlingCleans(placed, ledger.txs, d, SignedTip(t), now, t.tip.blockHeight, mempool.rows);
      }
    }

    /** sqlWriteTransaction: all statements, or none. */
    method Transact(d: BlockData, now: int, updated: ReOrgUpdatedEntities)
      returns (error: Option<Error>, ghost st: ReOrgState)
      requires Valid() && Fits(chain, d) && ValidData(d)
      requires StateOf(updated) == BeforeReorg(Content())
      modifies this`blocks, this`ledger, this`chainTip, ftBalances, mempool, updated
      ensures error == Some(MissingParent) <==> !HasParent(old(blocks), d.info)
      ensures error != Some(OrphanNotFound)
      ensures error.Some? ==> Content() == old(Content())
      ensures error.Some? ==> mempool.rows == old(mempool.rows) && mempool.txCount == old(mempool.txCount)
      ensures error.None? ==> LeadsTo(old(Content()), d.info, st)
      ensures error.None? ==>
        Content() == Finished(AfterReorg(old(chainTip), st), d, old(chainTip).blockHeight < d.info.height)
      ensures error.None? ==> updated.markedCanonical == st.applied && updated.markedNonCanonical == st.rolledBack
      ensures error.None? ==> mempool.Counted() && Covered(everMined, ledger.txs, mempool.rows)
      ensures error.None? && d.hash in old(blocks) ==> mempool.rows == old(mempool.rows)
      ensures error.None? && d.hash !in old(blocks) ==>
        PoolFollows(old(Content()), old(mempool.rows), mempool.rows, ledger.txs, d, now)
      ensures error == Some(SubqueryFailed) ==> UpdateMayFail(old(Content()), old(mempool.rows), d, now)
      ensures error.None? && st.unmarked == 0 && Clean(old(mempool.rows), Mined(old(ledger).txs)) ==>
        Clean(mempool.rows, Mined(ledger.txs))
    {
      var savedBlocks, savedLedger, savedTip := blocks, ledger, chainTip;
      var savedBalances, savedPool, savedCount := ftBalances.rows, mempool.rows, mempool.txCount;
      error, st := ApplyBlock(d, now, updated);
      if error.Some? {
        blocks, ledger, chainTip := savedBlocks, savedLedger, savedTip;
        ftBalances.rows, mempool.rows, mempool.txCount := savedBalances, savedPool, savedCount;
      }
    }

    /** Keeps the ghost record of a committed update. */
    ghost method Record(t: ChainTables, pool: Pool, txCount: int, d: BlockData, st: ReOrgState, now: int)
      requires Sealed(t, chain, pool, txCount, everMined, restored) && Fits(chain, d) && ValidData(d)
      requires LeadsTo(t, d.info, st) && Content() ==
        Finished(AfterReorg(t.tip, st), d, t.tip.blockHeight < d.info.height)
      requires mempool.Counted() && Covered(everMined, ledger.txs, mempool.rows)
      requires PoolMoves(t, pool, mempool.rows, d, now)
      requires st.unmarked == 0 && Clean(pool, Mined(t.ledger.txs)) ==> Clean(mempool.rows, Mined(ledger.txs))
      modifies this`chain, this`everMined, this`restored
      ensures Valid() && Follows(pool, mempool.rows)
      ensures chain == Deliver(old(chain), d) && everMined == old(everMined) + Mined(ledger.txs)
      ensures restored == (old(restored) || OrphansTxs(t, d.info))
      ensures DecidedByGroups(t, old(chain), pool, d, true)
    {
      ghost var t' := Content();
      SealedDecides(t, chain, pool, txCount, everMined, restored, d, now, true, mempool.rows);
      UpdateSeals(t, chain, pool, txCount, everMined, restored, d, st, t', mempool.rows, mempool.txCount, now);
      chain, everMined := Deliver(chain, d), everMined + Mined(ledger.txs);
      restored := restored || OrphansTxs(t, d.info);
      assert Content() == t';
    }

    /**
     update: one block in one transaction. It either commits, and then every table is in step with the
     chain the block was delivered to, or it aborts and changes nothing. It aborts for a missing parent
     exactly when the chain does not accept the block, and a re-org never fails to find its blocks. A canonical
     block without a re-org commits exactly when, in every batch of its ids, each mempool row that is in two of the
     batch's groups was mined last in each of them.
     */
    method Update(d: BlockData, now: int) returns (outcome: Outcome)
      requires Valid() && Fits(chain, d) && ValidData(d)
      modifies this, ftBalances, mempool
      ensures Valid()
      ensures outcome == Aborted(MissingParent) <==> !Accepts(old(chain), d)
      ensures outcome != Aborted(OrphanNotFound)
      ensures outcome == Aborted(SubqueryFailed) ==> UpdateMayFail(old(Content()), old(mempool.rows), d, now)
      ensures DecidedByGroups(old(Content()), old(chain), old(mempool.rows), d, outcome.Committed?)
      ensures outcome.Aborted? ==> Content() == old(Content()) && mempool.rows == old(mempool.rows)
      ensures outcome.Aborted? ==> chain == old(chain) && everMined == old(everMined) && restored == old(restored)
      ensures outcome.Committed? ==> chain == Deliver(old(chain), d) && Content() == Updated(old(Content()), d)
      ensures outcome.Committed? ==> outcome.message == Announced(old(Content()), d)
      ensures outcome.Committed? ==> everMined == old(everMined) + Mined(ledger.txs)
      ensures outcome.Committed? ==> restored == (old(restored) || OrphansTxs(old(Content()), d.info))
      ensures outcome.Committed? ==> Follows(old(mempool.rows), mempool.rows)
      ensures outcome.Committed? && d.hash in old(blocks) ==> mempool.rows == old(mempool.rows)
      ensures outcome.Committed? && d.hash !in old(blocks) ==>
        PoolFollows(old(Content()), old(mempool.rows), mempool.rows, ledger.txs, d, now)
    {
      ghost var t := Content();
      ghost var pool, txCount := mempool.rows, mempool.txCount;
      SealedAccepts(t, chain, pool, txCount, everMined, restored, d);
      var canonical := d.info.height > chainTip.blockHeight;
      var updated := new ReOrgUpdatedEntities();
      var error;
      ghost var st;
      error, st := Transact(d, now, updated);
      if error.Some? {
        assert error.value == MissingParent || error.value == SubqueryFailed;
        SealedDecides(t, chain, pool, txCount, everMined, restored, d, now, false, pool);
        return Aborted(error.value);
      }
      LeadsToUpdated(t, d, st);
      Record(t, pool, txCount, d, st, now);
      var message := if canonical
        then Some(MessageFor(HeaderFor(d.hash, d.info), updated.markedCanonical, updated.markedNonCanonical)) else None;
      return Committed(message);
    }

    /** updateMempoolTxs: arrivals between blocks; they fail only where a clash is possible. */
    method UpdateMempoolTxs(incoming: seq<MempoolTx>) returns (ok: bool)
      requires Valid()
      modifies mempool
      ensures Valid()
      ensures ok ==> Arrives(old(mempool.rows), incoming, ledger.txs, chainTip.blockHeight, mempool.rows)
      ensures ok ==> ArrivedByRow(old(mempool.rows), incoming, ledger.txs, chainTip.blockHeight, mempool.rows)
      ensures ok ==> Inserted(old(mempool.rows), incoming, ledger.txs, mempool.rows)
      ensures !ok ==> MayFail(old(mempool.rows), incoming, ledger.txs, chainTip.blockHeight)
      ensures !ok ==> mempool.rows == old(mempool.rows)
    {
      ghost var t, pool, txCount := Content(), mempool.rows, mempool.txCount;
      SealedSound(t, chain, pool, txCount, everMined, restored);
      ok := mempool.UpdateMempoolTxs(incoming, ledger.txs, chainTip.blockHeight);
      if ok {
        ArrivesReasoned(pool, incoming, ledger.txs, chainTip.blockHeight, mempool.rows);
      }
      PoolStepSeals(t, chain, pool, txCount, everMined, restored, mempool.rows, mempool.txCount);
    }

    /** dropMempoolTxs: what the node dropped is no longer pending. */
    method DropMempoolTxs(status: DropStatus, ids: seq<TxId>, newTx: Option<TxId>)
      requires Valid()
      modifies mempool
      ensures Valid()
      ensures mempool.rows == DropRows(old(mempool.rows), SetOf(ids), status, newTx)
      ensures RowsDropped(old(mempool.rows), ids, status, newTx, mempool.rows)
      ensures PendingIn(mempool.rows) == PendingIn(old(mempool.rows)) - SetOf(ids)
    {
      ghost var t, pool, txCount := Content(), mempool.rows, mempool.txCount;
      SealedSound(t, chain, pool, txCount, everMined, restored);
      mempool.Drop(status, ids, newTx);
      DropKeeps(pool, SetOf(ids), status, newTx, ledger.txs);
      PoolStepSeals(t, chain, pool, txCount, everMined, restored, mempool.rows, mempool.txCount);
    }
  }
}
