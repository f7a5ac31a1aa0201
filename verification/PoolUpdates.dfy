/**
 The mempool across a block update, as a relation, and what every update keeps of it.
 */
module PoolUpdates {
  import opened Types
  import opened Tables
  import opened Chain
  import opened Ledger
  import opened Mempool
  import opened MempoolTables
  import opened PoolRows
  import opened ReOrg
  import opened ReOrgStates
  import opened BlockUpdates
  import opened MempoolReOrgs

  // ---- The mempool across a block update ---------------------------------------------------------

  /** No transaction of the block is pending, nor one that shares a nonce with the payer of one. */
  ghost predicate Vacated(m: Pool, txs: seq<Tx>) {
    forall t, tx :: t in PendingIn(m) && tx in txs ==> !Meets(tx.txId, tx.sender, tx.sponsor, tx.nonce, t, m[t])
  }

  /** Nothing pending has been there for too long. */
  ghost predicate Swept(m: Pool, signed: bool, now: int, tipHeight: nat) {
    forall t :: t in PendingIn(m) ==> !Outlived(m[t], signed, now, tipHeight)
  }

  predicate SameTx(r: MempoolRow, r': MempoolRow) {
    && r'.sender == r.sender && r'.sponsor == r.sponsor && r'.nonce == r.nonce
    && r'.receiptTime == r.receiptTime && r'.receiptBlockHeight == r.receiptBlockHeight
  }

  /** The same transactions, no more of them pending. */
  ghost predicate Shrinks(m: Pool, m': Pool) {
    && m'.Keys == m.Keys
    && forall t :: t in m ==> SameTx(m[t], m'[t]) && (m[t].pruned ==> m'[t].pruned)
  }

  /** Garbage collection, then replace-by-fee for the block's transactions. */
  ghost predicate Settles(m: Pool, txs: seq<Row<Tx>>, d: BlockData, signed: bool, now: int, tipHeight: nat, m': Pool) {
    Replaces(CollectRows(m, signed, now, tipHeight), txs, IdSeq(TxsOf(d.txs)), 0, false, m')
  }

  /** Only expired rows and losers change, and every affected group is decided. */
  lemma SettlesLaws(m: Pool, txs: seq<Row<Tx>>, d: BlockData, signed: bool, now: int, tipHeight: nat, m': Pool)
    requires Settles(m, txs, d, signed, now, tipHeight, m')
    ensures var kept := CollectRows(m, signed, now, tipHeight);
      var groups := GroupsFor(kept, txs, IdsOf(TxsOf(d.txs)), false);
      OnlyReplaces(kept, m') && OnlyLosers(kept, txs, groups, m') && AllDecided(m', txs, groups)
  {
    var ids := IdSeq(TxsOf(d.txs));
    ReplacesLaws(CollectRows(m, signed, now, tipHeight), txs, ids, 0, false, m');
    assert ids[0..] == ids;
  }

  /** Replace-by-fee for the block may fail: in one of its batches a clash is possible. */
  ghost predicate SettleMayFail(m: Pool, txs: seq<Row<Tx>>, d: BlockData, signed: bool, now: int, tipHeight: nat) {
    !Safe(CollectRows(m, signed, now, tipHeight), txs, IdSeq(TxsOf(d.txs)), 0, false)
  }

  ghost predicate CanSettle(m: Pool, txs: seq<Row<Tx>>, d: BlockData, signed: bool, now: int, tipHeight: nat) {
    exists m' :: Settles(m, txs, d, signed, now, tipHeight, m')
  }

  /** Exactly: it can pass iff no batch clashes, and fail iff in some batch a clash is possible. */
  lemma SettlesExact(m: Pool, txs: seq<Row<Tx>>, d: BlockData, signed: bool, now: int, tipHeight: nat)
    ensures var kept, ids := CollectRows(m, signed, now, tipHeight), IdSeq(TxsOf(d.txs));
      && (CanSettle(m, txs, d, signed, now, tipHeight) <==> Passable(kept, txs, ids, 0, false))
      && (SettleMayFail(m, txs, d, signed, now, tipHeight) <==> ReplacingFails(kept, txs, ids, 0, false))
  {
    var kept, ids := CollectRows(m, signed, now, tipHeight), IdSeq(TxsOf(d.txs));
    FailsExact(kept, txs, ids, 0, false);
    if Passable(kept, txs, ids, 0, false) {
      var m' := PassableReplaces(kept, txs, ids, 0, false);
      assert Settles(m, txs, d, signed, now, tipHeight, m');
    }
    if CanSettle(m, txs, d, signed, now, tipHeight) {
      var m' :| Settles(m, txs, d, signed, now, tipHeight, m');
      ReplacesPasses(kept, txs, ids, 0, false, m');
    }
  }

  /** Without ties the two conditions are one. */
  lemma SettlesOrFails(m: Pool, txs: seq<Row<Tx>>, d: BlockData, signed: bool, now: int, tipHeight: nat)
    requires var kept := CollectRows(m, signed, now, tipHeight);
      NoTies(kept, txs, GroupsFor(kept, txs, IdsOf(TxsOf(d.txs)), false))
    ensures SettleMayFail(m, txs, d, signed, now, tipHeight)
        <==> !Passable(CollectRows(m, signed, now, tipHeight), txs, IdSeq(TxsOf(d.txs)), 0, false)
  {
    PassableIffSafe(CollectRows(m, signed, now, tipHeight), txs, IdSeq(TxsOf(d.txs)), 0, false);
  }

  /** The mempool a re-org leaves, and the one that has made room for a canonical block. */
  ghost predicate ReorgPool(t: ChainTables, info: BlockInfo, pool: Pool, before: Pool) {
    && HasParent(t.blocks, info)
    && if StartsReorg(t, info) then LeadsPool(BeforeReorg(t), info.parent, t.tip.blockHeight, pool, before)
       else before == pool
  }

  ghost predicate ReorgMayFail(t: ChainTables, info: BlockInfo, pool: Pool) {
    Reorgs(t, info) && LeadsFail(BeforeReorg(t), info.parent, t.tip.blockHeight, pool)
  }

  function MadeRoom(before: Pool, d: BlockData, canonical: bool): Pool {
    if canonical then PruneRows(before, HeadersOf(TxsOf(d.txs))) else before
  }

  /** What a new block does to the mempool it finds after the re-org; t are the tables before the update. */
  ghost predicate Refreshed(t: ChainTables, before: Pool, m: Pool, txs: seq<Row<Tx>>, d: BlockData, now: int) {
    Settles(MadeRoom(before, d, t.tip.blockHeight < d.info.height), txs, d, SignedTip(t), now, t.tip.blockHeight, m)
  }

  /** The mempool after a new block: the re-org, room for the block, garbage collection, replace-by-fee. */
  ghost predicate PoolFollowed(t: ChainTables, pool: Pool, m: Pool, txs: seq<Row<Tx>>, d: BlockData, now: int) {
    exists before :: ReorgPool(t, d.info, pool, before) && Refreshed(t, before, m, txs, d, now)
  }

  /** The same, folded. */
  ghost predicate PoolFollows(t: ChainTables, pool: Pool, m: Pool, txs: seq<Row<Tx>>, d: BlockData, now: int) {
    forall k :: Opened(k, [pool, m]) ==> PoolFollowed(t, pool, m, txs, d, now)
  }

  /** A new block can commit. */
  ghost predicate CanFollow(t: ChainTables, pool: Pool, txs: seq<Row<Tx>>, d: BlockData, now: int) {
    exists m :: PoolFollows(t, pool, m, txs, d, now)
  }

  lemma PoolFollowsOpen(t: ChainTables, pool: Pool, m: Pool, txs: seq<Row<Tx>>, d: BlockData, now: int)
    ensures PoolFollows(t, pool, m, txs, d, now) <==> PoolFollowed(t, pool, m, txs, d, now)
  {
    assert Opened(0, [pool, m]);
  }

  /** Where an update may fail in replace-by-fee: in the re-org, or for a new block at the end. */
  ghost predicate UpdateMayFail(t: ChainTables, pool: Pool, d: BlockData, now: int) {
    || ReorgMayFail(t, d.info, pool)
    || (d.hash !in t.blocks
        && exists before :: ReorgPool(t, d.info, pool, before)
             && SettleMayFail(MadeRoom(before, d, t.tip.blockHeight < d.info.height), Updated(t, d).ledger.txs, d,
                              SignedTip(t), now, t.tip.blockHeight))
  }

  lemma ShrinkingKeeps(m: Pool, m': Pool, mined: set<TxId>, txs: seq<Tx>)
    requires Shrinks(m, m')
    ensures Clean(m, mined) ==> Clean(m', mined)
    ensures Vacated(m, txs) ==> Vacated(m', txs)
  {
    if Clean(m, mined) {
      FewerPendingKeepsClean(m, m', mined);
    }
  }

  /** What the node drops leaves the pending ones, and nothing else changes. */
  lemma DropKeeps(m: Pool, ids: set<TxId>, status: DropStatus, newTx: Option<TxId>, txs: seq<Row<Tx>>)
    ensures DropRows(m, ids, status, newTx).Keys == m.Keys
    ensures PendingIn(DropRows(m, ids, status, newTx)) == PendingIn(m) - ids
    ensures Reasoned(m, txs) ==> Reasoned(DropRows(m, ids, status, newTx), txs)
    ensures Clean(m, Mined(txs)) ==> Clean(DropRows(m, ids, status, newTx), Mined(txs))
  {
    ShrinkingKeeps(m, DropRows(m, ids, status, newTx), Mined(txs), []);
  }

  lemma PruneVacates(m: Pool, txs: seq<Tx>)
    ensures Vacated(PruneRows(m, HeadersOf(txs)), txs)
  {
    var headers := HeadersOf(txs);
    PruneByRow(m, headers);
    forall t, tx | t in PendingIn(PruneRows(m, headers)) && tx in txs
      ensures !Meets(tx.txId, tx.sender, tx.sponsor, tx.nonce, t, m[t])
    {
      var i :| 0 <= i < |txs| && txs[i] == tx;
      assert headers[i] == HeaderOf(tx);
      assert !MeetsAny(headers, t, m[t]);
    }
  }

  lemma CollectedShrinks(m: Pool, signed: bool, now: int, tipHeight: nat)
    ensures Shrinks(m, CollectRows(m, signed, now, tipHeight))
      && Swept(CollectRows(m, signed, now, tipHeight), signed, now, tipHeight)
  {
  }

  lemma ReplacedShrinks(m: Pool, kept: Pool, m': Pool)
    requires Shrinks(m, kept) && OnlyReplaces(kept, m')
    ensures Shrinks(m, m')
    ensures forall signed, now, tipHeight :: Swept(kept, signed, now, tipHeight) ==> Swept(m', signed, now, tipHeight)
  {
  }

  lemma SettlingShrinks(m: Pool, txs: seq<Row<Tx>>, d: BlockData, signed: bool, now: int, tipHeight: nat, m': Pool)
    requires Settles(m, txs, d, signed, now, tipHeight, m')
    ensures Shrinks(m, m') && Swept(m', signed, now, tipHeight)
  {
    SettlesLaws(m, txs, d, signed, now, tipHeight, m');
    CollectedShrinks(m, signed, now, tipHeight);
    ReplacedShrinks(m, CollectRows(m, signed, now, tipHeight), m');
  }

  lemma SettlingCleans(m: Pool, txs: seq<Row<Tx>>, d: BlockData, signed: bool, now: int, tipHeight: nat, m': Pool)
    requires Settles(m, txs, d, signed, now, tipHeight, m')
    ensures m'.Keys == m.Keys && (Clean(m, Mined(txs)) ==> Clean(m', Mined(txs)))
  {
    SettlingShrinks(m, txs, d, signed, now, tipHeight, m');
    ShrinkingKeeps(m, m', Mined(txs), []);
  }

  /** A failure at the end of an update is one the update may have. */
  lemma FailsAtTheEnd(t: ChainTables, d: BlockData, st: ReOrgState, pool: Pool, before: Pool, txs: seq<Row<Tx>>,
                      now: int)
    requires LeadsTo(t, d.info, st) && d.hash !in t.blocks && ReorgPool(t, d.info, pool, before)
    requires txs == InsertedBlock(AfterReorg(t.tip, st), d, t.tip.blockHeight < d.info.height).ledger.txs
    requires SettleMayFail(MadeRoom(before, d, t.tip.blockHeight < d.info.height), txs, d, SignedTip(t), now,
                           t.tip.blockHeight)
    ensures UpdateMayFail(t, pool, d, now)
  {
    LeadsToUpdated(t, d, st);
  }

  /** After a new block nothing pending is expired, and after a canonical one nothing of it is pending. */
  lemma RefreshedIsTidy(t: ChainTables, pool: Pool, m: Pool, txs: seq<Row<Tx>>, d: BlockData, now: int)
    requires PoolFollows(t, pool, m, txs, d, now)
    ensures Swept(m, SignedTip(t), now, t.tip.blockHeight)
    ensures t.tip.blockHeight < d.info.height ==> Vacated(m, TxsOf(d.txs))
    ensures AllDecided(m, txs, GroupsFor(m, txs, IdsOf(TxsOf(d.txs)), false))
    ensures NoncesSettled(m, txs, IdsOf(TxsOf(d.txs)), false)
  {
    PoolFollowsOpen(t, pool, m, txs, d, now);
    var before :| ReorgPool(t, d.info, pool, before) && Refreshed(t, before, m, txs, d, now);
    var made := MadeRoom(before, d, t.tip.blockHeight < d.info.height);
    SettlesLaws(made, txs, d, SignedTip(t), now, t.tip.blockHeight, m);
    SettlingShrinks(made, txs, d, SignedTip(t), now, t.tip.blockHeight, m);
    PruneVacates(before, TxsOf(d.txs));
    ShrinkingKeeps(made, m, {}, TxsOf(d.txs));
    DecidedSettles(m, m, txs, IdsOf(TxsOf(d.txs)), false);
  }

  /** What is kept is young enough, by time if the last canonical block was signed, by height if not. */
  lemma KeptIsYoung(t: ChainTables, c: Chain, pool: Pool, m: Pool, txs: seq<Row<Tx>>, d: BlockData, now: int, x: TxId)
    requires Aligned(t, c) && PoolFollows(t, pool, m, txs, d, now) && x in m && !m[x].pruned
    ensures
      if c.tip.Some? && c.known[c.tip.value].info.signed then now - m[x].receiptTime < 2560 * 60
      else TipHeight(c) - m[x].receiptBlockHeight < 256
  {
    SignedTipIsLast(t, c);
    RefreshedIsTidy(t, pool, m, txs, d, now);
    assert x in PendingIn(m);
  }

  function IdSeq(txs: seq<Tx>): (r: seq<TxId>)
    ensures SetOf(r) == IdsOf(txs)
  {
    var r := seq(|txs|, i requires 0 <= i < |txs| => txs[i].txId);
    assert forall i :: 0 <= i < |txs| ==> r[i] == txs[i].txId;
    assert forall t :: t in txs ==> t.txId in r;
    r
  }

  lemma {:induction false} InsertMined(txs: seq<Row<Tx>>, h: Hash, height: nat, c: bool, data: seq<Tx>)
    ensures Mined(txs + RowsFor(h, height, c, data)) == Mined(txs) + if c then IdsOf(data) else {}
  {
    if data == [] {
      assert txs + RowsFor(h, height, c, data) == txs;
    } else {
      var init, last := data[..|data| - 1], data[|data| - 1];
      InsertMined(txs, h, height, c, init);
      assert data == init + [last];
      assert txs + RowsFor(h, height, c, data) == (txs + RowsFor(h, height, c, init)) + [Row(h, height, c, last)];
      MinedAppend(txs + RowsFor(h, height, c, init), Row(h, height, c, last));
      IdsAppend(init, last);
    }
  }

  lemma InsertCovers(ever: set<TxId>, l: Ledger, d: BlockData, c: bool, pool: Pool)
    requires Covered(ever, l.txs, pool)
    ensures Covered(ever, InsertAll(l, d, c).txs, pool)
  {
    InsertMined(l.txs, d.hash, d.info.height, c, TxsOf(d.txs));
  }

  /** Transactions of a canonical block leave the mempool before they count as mined. */
  lemma PlacingKeeps(ever: set<TxId>, l: Ledger, pool: Pool, d: BlockData, c: bool, pool': Pool)
    requires Covered(ever, l.txs, pool)
    requires pool' == if c then PruneRows(pool, HeadersOf(TxsOf(d.txs))) else pool
    ensures Covered(ever, InsertAll(l, d, c).txs, pool')
    ensures Clean(pool, Mined(l.txs)) ==> Clean(pool', Mined(InsertAll(l, d, c).txs))
    ensures c ==> Vacated(pool', TxsOf(d.txs))
  {
    InsertCovers(ever, l, d, c, pool);
    InsertMined(l.txs, d.hash, d.info.height, c, TxsOf(d.txs));
    PruneVacates(pool, TxsOf(d.txs));
    if c && Clean(pool, Mined(l.txs)) {
      HeaderIds(TxsOf(d.txs));
      PruneKeepsClean(pool, HeadersOf(TxsOf(d.txs)), Mined(l.txs));
    }
  }

  // ---- What every update keeps -------------------------------------------------------------------

  lemma ReplacedKeeps(m: Pool, m': Pool, txs: seq<Row<Tx>>)
    requires OnlyReplaces(m, m')
    ensures Follows(m, m') && (PlainPool(m) ==> PlainPool(m')) && (Reasoned(m, txs) ==> Reasoned(m', txs))
  {
  }

  lemma CollectedKeeps(m: Pool, signed: bool, now: int, tipHeight: nat, txs: seq<Row<Tx>>)
    ensures var kept := CollectRows(m, signed, now, tipHeight);
      Follows(m, kept) && (PlainPool(m) ==> PlainPool(kept)) && (Reasoned(m, txs) ==> Reasoned(kept, txs))
  {
  }

  lemma SettlingKeeps(m: Pool, txs: seq<Row<Tx>>, d: BlockData, signed: bool, now: int, tipHeight: nat, m': Pool)
    requires Settles(m, txs, d, signed, now, tipHeight, m')
    ensures Follows(m, m')
    ensures Reasoned(m, txs) ==> Reasoned(m', txs)
    ensures PlainPool(m) ==> PlainPool(m')
  {
    SettlesLaws(m, txs, d, signed, now, tipHeight, m');
    CollectedKeeps(m, signed, now, tipHeight, txs);
    ReplacedKeeps(CollectRows(m, signed, now, tipHeight), m', txs);
    FollowsCompose(m, CollectRows(m, signed, now, tipHeight), m');
  }

  lemma ReorgKeeps(t: ChainTables, d: BlockData, pool: Pool, before: Pool)
    requires ReorgPool(t, d.info, pool, before)
    ensures Follows(pool, before)
    ensures Reasoned(pool, t.ledger.txs) ==> Reasoned(before, HandledReorg(t, d.info).ledger.txs)
  {
    if StartsReorg(t, d.info) {
      LeadsPoolRestored(BeforeReorg(t), d.info.parent, t.tip.blockHeight, pool, before);
      RestoredPoolKeeps(BeforeReorg(t), d.info.parent, t.tip.blockHeight, pool, before);
    }
  }

  lemma HandledKeys(t: ChainTables, info: BlockInfo)
    requires HasParent(t.blocks, info)
    ensures HandledReorg(t, info).blocks.Keys == t.blocks.Keys
  {
    if StartsReorg(t, info) {
      RestoredKeepsInfo(BeforeReorg(t), info.parent);
    }
  }

  /**
   Through re-orgs, garbage collection and replace-by-fee no row is lost, and none is pruned without a
   reason: a row that was pending is still pending, was replaced or collected, or its place was taken by a
   canonical transaction.
   */
  lemma UpdateKeepsRows(t: ChainTables, pool: Pool, m: Pool, d: BlockData, now: int)
    requires PoolFollows(t, pool, m, Updated(t, d).ledger.txs, d, now)
    requires HasParent(t.blocks, d.info) && d.hash !in t.blocks
    ensures Follows(pool, m)
    ensures Reasoned(pool, t.ledger.txs) ==> Reasoned(m, Updated(t, d).ledger.txs)
  {
    var txs := Updated(t, d).ledger.txs;
    PoolFollowsOpen(t, pool, m, txs, d, now);
    var before :| ReorgPool(t, d.info, pool, before) && Refreshed(t, before, m, txs, d, now);
    var taller := t.tip.blockHeight < d.info.height;
    var made := MadeRoom(before, d, taller);
    ReorgKeeps(t, d, pool, before);
    PrunedFollows(before, HeadersOf(TxsOf(d.txs)));
    SettlingKeeps(made, txs, d, SignedTip(t), now, t.tip.blockHeight, m);
    FollowsCompose(pool, before, made);
    FollowsCompose(pool, made, m);
    if Reasoned(pool, t.ledger.txs) {
      HandledKeys(t, d.info);
      PlaceReasoned(before, HandledReorg(t, d.info).ledger, d, taller);
    }
  }

  lemma ReorgReturns(t: ChainTables, d: BlockData, pool: Pool, before: Pool, x: TxId)
    requires ReorgPool(t, d.info, pool, before) && Reasoned(pool, t.ledger.txs) && x in Mined(t.ledger.txs)
    ensures x in Mined(HandledReorg(t, d.info).ledger.txs) || Returned(before, x)
  {
    if StartsReorg(t, d.info) {
      LeadsPoolRestored(BeforeReorg(t), d.info.parent, t.tip.blockHeight, pool, before);
      RestoredPoolReturns(BeforeReorg(t), d.info.parent, t.tip.blockHeight, pool, before, x);
    }
  }

  lemma RefreshedFollows(t: ChainTables, before: Pool, m: Pool, txs: seq<Row<Tx>>, d: BlockData, now: int)
    requires Refreshed(t, before, m, txs, d, now)
    ensures Follows(before, m)
  {
    var made := MadeRoom(before, d, t.tip.blockHeight < d.info.height);
    PrunedFollows(before, HeadersOf(TxsOf(d.txs)));
    SettlingKeeps(made, txs, d, SignedTip(t), now, t.tip.blockHeight, m);
    FollowsCompose(before, made, m);
  }

  lemma UpdateReturns(t: ChainTables, pool: Pool, m: Pool, d: BlockData, now: int, x: TxId)
    requires PoolFollows(t, pool, m, Updated(t, d).ledger.txs, d, now) && HasParent(t.blocks, d.info)
    requires d.hash !in t.blocks && Reasoned(pool, t.ledger.txs)
    requires x in PendingIn(pool) || (x in Mined(t.ledger.txs) && x !in Mined(Updated(t, d).ledger.txs))
    ensures Returned(m, x)
  {
    var txs := Updated(t, d).ledger.txs;
    PoolFollowsOpen(t, pool, m, txs, d, now);
    var before :| ReorgPool(t, d.info, pool, before) && Refreshed(t, before, m, txs, d, now);
    RefreshedFollows(t, before, m, txs, d, now);
    if x in PendingIn(pool) {
      ReorgKeeps(t, d, pool, before);
      FollowsReturned(pool, before, x);
    } else {
      ReorgReturns(t, d, pool, before, x);
      HandledKeys(t, d.info);
      var taller := t.tip.blockHeight < d.info.height;
      InsertMined(HandledReorg(t, d.info).ledger.txs, d.hash, d.info.height, taller, TxsOf(d.txs));
    }
    FollowsReturned(before, m, x);
  }

  /**
   Across an update with a re-org of any depth: whatever was pending before, and whatever left the
   canonical chain, is pending, replaced by fee, collected, or crowded out by a canonical transaction, which
   is the same one or one of the same payer and nonce.
   */
  lemma NothingIsForgotten(t: ChainTables, pool: Pool, m: Pool, d: BlockData, now: int, x: TxId)
    requires PoolFollows(t, pool, m, Updated(t, d).ledger.txs, d, now) && HasParent(t.blocks, d.info)
    requires d.hash !in t.blocks && Reasoned(pool, t.ledger.txs)
    requires x in PendingIn(pool) || (x in Mined(t.ledger.txs) && x !in Mined(Updated(t, d).ledger.txs))
    ensures x in m
    ensures
      || !m[x].pruned || m[x].status in {DroppedReplaceByFee, DroppedApiGarbageCollect}
      || Crowded(Updated(t, d).ledger.txs, x, m[x])
  {
    UpdateReturns(t, pool, m, d, now, x);
    UpdateKeepsRows(t, pool, m, d, now);
  }

  // ---- When an update cannot fail ----------------------------------------------------------------

  ghost predicate PlainBlock(d: BlockData) {
    forall tx :: tx in TxsOf(d.txs) ==> PaysAlone(tx.sender, tx.sponsor)
  }

  lemma InsertPlain(l: Ledger, d: BlockData, c: bool)
    requires PlainTxs(l.txs) && PlainBlock(d)
    ensures PlainTxs(InsertAll(l, d, c).txs)
  {
    var rows := RowsFor(d.hash, d.info.height, c, TxsOf(d.txs));
    forall i | 0 <= i < |l.txs + rows|
      ensures PaysAlone((l.txs + rows)[i].data.sender, (l.txs + rows)[i].data.sponsor)
    {
      if |l.txs| <= i {
        assert rows[i - |l.txs|].data == TxsOf(d.txs)[i - |l.txs|];
      }
    }
  }

  lemma HandledPlain(t: ChainTables, info: BlockInfo)
    requires PlainTxs(t.ledger.txs) && HasParent(t.blocks, info)
    ensures PlainTxs(HandledReorg(t, info).ledger.txs)
  {
    if StartsReorg(t, info) {
      RestoredTxsPlain(BeforeReorg(t), info.parent);
    }
  }

  lemma UpdatedPlain(t: ChainTables, d: BlockData)
    requires PlainTxs(t.ledger.txs) && PlainBlock(d)
    ensures PlainTxs(Updated(t, d).ledger.txs)
  {
    if HasParent(t.blocks, d.info) {
      HandledPlain(t, d.info);
      InsertPlain(HandledReorg(t, d.info).ledger, d, t.tip.blockHeight < d.info.height);
    }
  }

  lemma ReorgPlain(t: ChainTables, info: BlockInfo, pool: Pool)
    requires PlainPool(pool) && PlainTxs(t.ledger.txs)
    ensures !ReorgMayFail(t, info, pool)
    ensures forall before :: ReorgPool(t, info, pool, before) ==> PlainPool(before)
  {
    if Reorgs(t, info) {
      RestoredPlain(BeforeReorg(t), info.parent, t.tip.blockHeight, pool);
      forall before
        ensures LeadsPool(BeforeReorg(t), info.parent, t.tip.blockHeight, pool, before) ==> PlainPool(before)
        ensures !LeadsFail(BeforeReorg(t), info.parent, t.tip.blockHeight, pool)
      {
        LeadsPoolRestored(BeforeReorg(t), info.parent, t.tip.blockHeight, pool, before);
      }
      LeadsPoolRestored(BeforeReorg(t), info.parent, t.tip.blockHeight, pool, pool);
    }
  }

  /** While every transaction is paid by its sender, no update can fail in replace-by-fee, and it stays so. */
  lemma PlainUpdates(t: ChainTables, pool: Pool, d: BlockData, now: int)
    requires PlainPool(pool) && PlainTxs(t.ledger.txs) && PlainBlock(d)
    ensures !UpdateMayFail(t, pool, d, now) && PlainTxs(Updated(t, d).ledger.txs)
    ensures forall m, txs :: PoolFollows(t, pool, m, txs, d, now) ==> PlainPool(m)
  {
    UpdatedPlain(t, d);
    ReorgPlain(t, d.info, pool);
    var taller := t.tip.blockHeight < d.info.height;
    forall before | ReorgPool(t, d.info, pool, before)
      ensures !SettleMayFail(MadeRoom(before, d, taller), Updated(t, d).ledger.txs, d, SignedTip(t), now,
        t.tip.blockHeight)
      ensures forall m, txs :: Refreshed(t, before, m, txs, d, now) ==> PlainPool(m)
    {
      PlainSettles(MadeRoom(before, d, taller), Updated(t, d).ledger.txs, d, SignedTip(t), now, t.tip.blockHeight);
      forall m, txs | Refreshed(t, before, m, txs, d, now)
        ensures PlainPool(m)
      {
        SettlingKeeps(MadeRoom(before, d, taller), txs, d, SignedTip(t), now, t.tip.blockHeight, m);
      }
    }
    forall m, txs | PoolFollows(t, pool, m, txs, d, now)
      ensures PlainPool(m)
    {
      PoolFollowsOpen(t, pool, m, txs, d, now);
    }
  }

  lemma PlainSettles(m: Pool, txs: seq<Row<Tx>>, d: BlockData, signed: bool, now: int, tipHeight: nat)
    requires PlainPool(m)
    ensures !SettleMayFail(m, txs, d, signed, now, tipHeight)
  {
    var kept := CollectRows(m, signed, now, tipHeight);
    PlainNoOverlap(kept, GroupsFor(kept, txs, SetOf(IdSeq(TxsOf(d.txs))), false));
    NoOverlapIsSafe(kept, txs, IdSeq(TxsOf(d.txs)), 0, false);
  }

  /** Without a re-org an update of a new block can do what its end can do; SettlesExact says what that is. */
  lemma FollowsExact(t: ChainTables, pool: Pool, d: BlockData, now: int)
    requires HasParent(t.blocks, d.info) && !StartsReorg(t, d.info) && d.hash !in t.blocks
    ensures var txs, made := Updated(t, d).ledger.txs, MadeRoom(pool, d, t.tip.blockHeight < d.info.height);
      && (UpdateMayFail(t, pool, d, now) <==> SettleMayFail(made, txs, d, SignedTip(t), now, t.tip.blockHeight))
      && (CanFollow(t, pool, txs, d, now) <==> CanSettle(made, txs, d, SignedTip(t), now, t.tip.blockHeight))
  {
    var txs, made := Updated(t, d).ledger.txs, MadeRoom(pool, d, t.tip.blockHeight < d.info.height);
    assert ReorgPool(t, d.info, pool, pool);
    forall m
      ensures PoolFollows(t, pool, m, txs, d, now) <==> Settles(made, txs, d, SignedTip(t), now, t.tip.blockHeight, m)
    {
      PoolFollowsOpen(t, pool, m, txs, d, now);
      assert Refreshed(t, pool, m, txs, d, now) <==> Settles(made, txs, d, SignedTip(t), now, t.tip.blockHeight, m);
    }
  }

  /** Without ties it commits or fails, never either. */
  lemma FollowsOrFails(t: ChainTables, pool: Pool, d: BlockData, now: int)
    requires HasParent(t.blocks, d.info) && !StartsReorg(t, d.info) && d.hash !in t.blocks
    requires var txs := Updated(t, d).ledger.txs;
      var made := MadeRoom(pool, d, t.tip.blockHeight < d.info.height);
      var kept := CollectRows(made, SignedTip(t), now, t.tip.blockHeight);
      NoTies(kept, txs, GroupsFor(kept, txs, IdsOf(TxsOf(d.txs)), false))
    ensures UpdateMayFail(t, pool, d, now) <==> !CanFollow(t, pool, Updated(t, d).ledger.txs, d, now)
  {
    var made := MadeRoom(pool, d, t.tip.blockHeight < d.info.height);
    SettlesOrFails(made, Updated(t, d).ledger.txs, d, SignedTip(t), now, t.tip.blockHeight);
    SettlesExact(made, Updated(t, d).ledger.txs, d, SignedTip(t), now, t.tip.blockHeight);
    FollowsExact(t, pool, d, now);
  }

  /** Nor can an update without a re-org, if no row is in two groups of the block's transactions. */
  lemma NoOverlapUpdates(t: ChainTables, pool: Pool, d: BlockData, now: int)
    requires !Reorgs(t, d.info)
    requires NoOverlap(pool, GroupsFor(pool, Updated(t, d).ledger.txs, IdsOf(TxsOf(d.txs)), false))
    ensures !UpdateMayFail(t, pool, d, now)
  {
    var txs := Updated(t, d).ledger.txs;
    var made := MadeRoom(pool, d, t.tip.blockHeight < d.info.height);
    var kept := CollectRows(made, SignedTip(t), now, t.tip.blockHeight);
    SamePayersNoOverlap(pool, kept, txs, IdsOf(TxsOf(d.txs)));
    NoOverlapIsSafe(kept, txs, IdSeq(TxsOf(d.txs)), 0, false);
  }

  lemma SamePayersNoOverlap(m: Pool, m': Pool, txs: seq<Row<Tx>>, ids: set<TxId>)
    requires m'.Keys == m.Keys && forall t :: t in m ==> SamePayer(m[t], m'[t])
    requires NoOverlap(m, GroupsFor(m, txs, ids, false))
    ensures NoOverlap(m', GroupsFor(m', txs, ids, false))
  {
  }
}
