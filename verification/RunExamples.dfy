/**
 Two runs of a few messages in which something a caller might expect does not hold: a canonically mined
 transaction ends up pending, and a block is refused by one writer and taken by another.
 */
module RunExamples {
  import opened Types
  import opened Tables
  import opened Chain
  import opened Ledger
  import opened Mempool
  import opened MempoolTables
  import opened ReOrg
  import opened ReOrgStates
  import opened BlockUpdates
  import opened MempoolReOrgs
  import opened PoolUpdates
  import opened Runs
  import opened WriteStores
  import opened EventServers

  // ---- A mined transaction that stays pending ----------------------------------------------------

  // X, sponsored by address 2, is mined in B1; Y, sent by address 2 with the same nonce, is mined in B2; a
  // re-org to A2 and A3 orphans B2. Restoring Y revives X, whose row has the payer and nonce of Y.
  // Replace-by-fee then decides the group, and X, its latest mined transaction, is the winner.

  const X := Tx(10, 1, Some(2), 0, 1, 0, 0, {})
  const Y := Tx(11, 2, None, 0, 1, 0, 0, {})
  const G := Group(2, 0)

  const ARRIVAL := MempoolTx(10, 1, Some(2), 0, 1, 0)
  const B1 := BlockData(1, BlockInfo(0, 1, 0, false), [TxEntry(X, [], [])], [], [])
  const B2 := BlockData(2, BlockInfo(1, 2, 0, false), [TxEntry(Y, [], [])], [], [])
  const A2 := BlockData(3, BlockInfo(1, 2, 0, false), [], [], [])
  const A3 := BlockData(4, BlockInfo(3, 3, 0, false), [], [], [])

  const MESSAGES :=
    [MempoolMessage([ARRIVAL]), BlockMessage(B1, 0), BlockMessage(B2, 0), BlockMessage(A2, 0), BlockMessage(A3, 0)]

  // ---- One id cannot clash -----------------------------------------------------------------------

  lemma OneGroup(m: Pool, groups: set<Group>, g: Group)
    requires groups <= {g}
    ensures NoOverlap(m, groups)
  {
  }

  lemma {:induction false} ChunkIdsListed(m: Pool, incoming: seq<MempoolTx>, i: nat, mined: set<TxId>, height: nat)
    ensures ChunkIds(m, incoming, i, mined, height) <= IdsIn(incoming)
    decreases |incoming| - i
  {
    if i < |incoming| {
      var n := if |incoming| - i < INSERT_BATCH_SIZE then |incoming| else i + INSERT_BATCH_SIZE;
      ChunkIdsListed(InsertChunk(m, incoming[i..n], mined, height), incoming, n, mined, height);
      assert forall v :: v in incoming[i..n] ==> v in incoming;
    }
  }

  lemma OneArrival(m: Pool, incoming: seq<MempoolTx>, txs: seq<Row<Tx>>, height: nat, t: TxId)
    requires IdsIn(incoming) <= {t}
    ensures !MayFail(m, incoming, txs, height)
  {
    var inserted := InsertChunks(m, incoming, 0, Mined(txs), height);
    var groups := GroupsFor(inserted, txs, ChunkIds(m, incoming, 0, Mined(txs), height), true);
    ChunkIdsListed(m, incoming, 0, Mined(txs), height);
    OneGroup(inserted, groups, if t in inserted then GroupOfRow(inserted[t]) else G);
    NoOverlapNoFail(m, incoming, txs, height);
  }

  // ---- Updates without a re-org ------------------------------------------------------------------

  /** The row of X: pending or not, its payer is address 2. */
  predicate HasX(pool: Pool) {
    && pool.Keys == {X.txId}
    && pool[X.txId].sender == X.sender && pool[X.txId].sponsor == X.sponsor && pool[X.txId].nonce == X.nonce
  }

  lemma SimpleUpdate(t: ChainTables, d: BlockData)
    requires HasParent(t.blocks, d.info) && !StartsReorg(t, d.info) && d.hash !in t.blocks
    ensures var taller := t.tip.blockHeight < d.info.height;
      && Updated(t, d).blocks == t.blocks[d.hash := BlockRow(d.info, taller)]
      && Updated(t, d).ledger.txs == t.ledger.txs + RowsFor(d.hash, d.info.height, taller, TxsOf(d.txs))
      && Updated(t, d).tip.blockHeight == (if taller then d.info.height else t.tip.blockHeight)
      && Updated(t, d).tip.indexBlockHash == (if taller then Some(d.hash) else t.tip.indexBlockHash)
  {
  }

  /** Without a re-org no row is added; what is pruned stays pruned, and a canonical block prunes what it touches. */
  lemma SimplePool(t: ChainTables, pool: Pool, pool': Pool, d: BlockData, now: int)
    requires HasParent(t.blocks, d.info) && !StartsReorg(t, d.info)
    requires PoolFollows(t, pool, pool', Updated(t, d).ledger.txs, d, now) && HasX(pool)
    ensures HasX(pool') && (pool[X.txId].pruned ==> pool'[X.txId].pruned)
    ensures t.tip.blockHeight < d.info.height ==>
      forall h :: h in HeadersOf(TxsOf(d.txs)) && Touches(h, X.txId, pool'[X.txId]) ==> pool'[X.txId].pruned
  {
    var txs := Updated(t, d).ledger.txs;
    PoolFollowsOpen(t, pool, pool', txs, d, now);
    RefreshedIsTidy(t, pool, pool', txs, d, now);
    var made := MadeRoom(pool, d, t.tip.blockHeight < d.info.height);
    assert Refreshed(t, pool, pool', txs, d, now);
    SettlingShrinks(made, txs, d, SignedTip(t), now, t.tip.blockHeight, pool');
  }

  predicate Stage(b: State, blocks: BlockTable, known: Blocks, tip: Option<Hash>, height: nat, txs: seq<Row<Tx>>) {
    && b.tables.blocks == blocks && b.chain.known == known && b.chain.tip == tip
    && b.tables.tip.blockHeight == height && b.tables.tip.indexBlockHash == tip
    && b.tables.ledger.txs == txs && HasX(b.pool)
  }

  predicate Stage1(b: State) {
    Stage(b, map[], map[], None, 0, [])
  }

  predicate Stage2(b: State) {
    Stage(b, map[1 := BlockRow(B1.info, true)], map[1 := B1], Some(1), 1, [Row(1, 1, true, X)])
  }

  predicate Stage3(b: State) {
    && Stage(b, map[1 := BlockRow(B1.info, true), 2 := BlockRow(B2.info, true)], map[1 := B1, 2 := B2], Some(2), 2,
             MINED)
    && b.pool[X.txId].pruned
  }

  predicate Stage4(b: State) {
    && Stage(b, map[1 := BlockRow(B1.info, true), 2 := BlockRow(B2.info, true), 3 := BlockRow(A2.info, false)],
             map[1 := B1, 2 := B2, 3 := A2], Some(2), 2, MINED)
    && b.pool[X.txId].pruned
  }

  /** The one row of the mempool is that of v, pending or not. */
  predicate Alone(m: Pool, v: MempoolTx) {
    m.Keys == {v.txId} && m[v.txId].sender == v.sender && m[v.txId].sponsor == v.sponsor && m[v.txId].nonce == v.nonce
  }

  lemma InsertAlone(v: MempoolTx, mined: set<TxId>)
    ensures Alone(InsertChunks(map[], [v], 0, mined, 0), v)
  {
    var inserted := InsertChunks(map[], [v], 0, mined, 0);
    ChunksExtend(map[], [v], 0, mined, 0);
    NothingArrived(map[], mined);
    ChunksArrive(map[], map[], [v], 0, mined, 0, {});
    EnteredArrived(map[], inserted, [v], mined, {} + ChunkIds(map[], [v], 0, mined, 0));
    assert inserted.Keys == {v.txId};
  }

  lemma ArrivesAlone(v: MempoolTx, txs: seq<Row<Tx>>, m: Pool)
    requires Arrives(map[], [v], txs, 0, m)
    ensures Alone(m, v)
  {
    var inserted := InsertChunks(map[], [v], 0, Mined(txs), 0);
    InsertAlone(v, Mined(txs));
    ArrivesLaws(map[], [v], txs, 0, m);
  }

  lemma ArriveAlone(v: MempoolTx, b: State, ok: bool)
    requires Answered(MempoolMessage([v]), EMPTY_STATE, b, ok)
    ensures b.tables == NO_TABLES && b.chain == GENESIS && Alone(b.pool, v)
  {
    var txs: seq<Row<Tx>> := [];
    OneArrival(map[], [v], txs, 0, v.txId);
    assert EMPTY_STATE.tables.ledger.txs == txs;
    ArrivesAlone(v, txs, b.pool);
  }

  lemma Arrive(b: State, ok: bool)
    requires Steps(MESSAGES[0], EMPTY_STATE, b, ok)
    ensures Stage1(b)
  {
    StepsAnswered(MESSAGES[0], EMPTY_STATE, b, ok);
    ArriveAlone(ARRIVAL, b, ok);
  }

  lemma OneTx(tx: Tx)
    ensures TxsOf([TxEntry(tx, [], [])]) == [tx] && IdsOf([tx]) == {tx.txId}
  {
    assert [TxEntry(tx, [], [])][..0] == [];
  }

  lemma B1Commits(a: State)
    requires Stage1(a)
    ensures HasParent(a.tables.blocks, B1.info) && !StartsReorg(a.tables, B1.info) && Accepts(a.chain, B1)
    ensures Updated(a.tables, B1).ledger.txs == [Row(1, 1, true, X)] && !UpdateMayFail(a.tables, a.pool, B1, 0)
  {
    OneTx(X);
    SimpleUpdate(a.tables, B1);
    var txs := Updated(a.tables, B1).ledger.txs;
    assert txs == a.tables.ledger.txs + RowsFor(1, 1, true, [X]);
    assert IdsOf(TxsOf(B1.txs)) == {X.txId};
    OneGroup(a.pool, GroupsFor(a.pool, txs, {X.txId}, false), G);
    NoOverlapUpdates(a.tables, a.pool, B1, 0);
  }

  lemma TakeB1(a: State, b: State, ok: bool)
    requires Stage1(a) && Steps(MESSAGES[1], a, b, ok)
    ensures Stage2(b)
  {
    StepsAnswered(MESSAGES[1], a, b, ok);
    B1Commits(a);
    SimpleUpdate(a.tables, B1);
    SimplePool(a.tables, a.pool, b.pool, B1, 0);
  }

  const MINED := [Row(1, 1, true, X), Row(2, 2, true, Y)]

  lemma MinedRows(pool: Pool)
    ensures [Row(1, 1, true, X)] + RowsFor(2, 2, true, [Y]) == MINED
    ensures NoOverlap(pool, GroupsFor(pool, MINED, {Y.txId}, false))
  {
    OneTx(Y);
    assert MINED[0].data.txId == 10 && MINED[1].data.txId == 11;
    assert PayerGroup(MINED[1].data.sender, MINED[1].data.sponsor, MINED[1].data.nonce) == G;
    OneGroup(pool, GroupsFor(pool, MINED, {Y.txId}, false), G);
  }

  lemma B2Commits(a: State)
    requires Stage2(a)
    ensures HasParent(a.tables.blocks, B2.info) && !StartsReorg(a.tables, B2.info) && Accepts(a.chain, B2)
    ensures Updated(a.tables, B2).ledger.txs == MINED && !UpdateMayFail(a.tables, a.pool, B2, 0)
  {
    OneTx(Y);
    MinedRows(a.pool);
    SimpleUpdate(a.tables, B2);
    assert IdsOf(TxsOf(B2.txs)) == {Y.txId};
    NoOverlapUpdates(a.tables, a.pool, B2, 0);
  }

  lemma TakeB2(a: State, b: State, ok: bool)
    requires Stage2(a) && Steps(MESSAGES[2], a, b, ok)
    ensures Stage3(b)
  {
    StepsAnswered(MESSAGES[2], a, b, ok);
    OneTx(Y);
    B2Commits(a);
    SimpleUpdate(a.tables, B2);
    SimplePool(a.tables, a.pool, b.pool, B2, 0);
    assert HeadersOf([Y])[0] == HeaderOf(Y) && HeaderOf(Y) in HeadersOf([Y]);
  }

  lemma TakeA2(a: State, b: State, ok: bool)
    requires Stage3(a) && Steps(MESSAGES[3], a, b, ok)
    ensures Stage4(b)
  {
    StepsAnswered(MESSAGES[3], a, b, ok);
    SimpleUpdate(a.tables, A2);
    OneGroup(a.pool, GroupsFor(a.pool, Updated(a.tables, A2).ledger.txs, {}, false), G);
    NoOverlapUpdates(a.tables, a.pool, A2, 0);
    SimplePool(a.tables, a.pool, b.pool, A2, 0);
  }

  // ---- The re-org --------------------------------------------------------------------------------

  const ORPHANED := [Row(1, 1, true, X), Row(2, 2, false, Y)]

  lemma ReflagTwo(a: Row<Tx>, b: Row<Tx>, h: Hash, c: bool)
    requires a.indexBlockHash != h
    ensures Mark([a, b], h, c) == [a, if b.indexBlockHash == h then b.(canonical := c) else b]
    ensures Flipped([a, b], h, c) == if b.indexBlockHash == h && b.canonical != c then [b.data] else []
  {
    assert [a, b][..1] == [a] && [a][..0] == [];
    assert Mark([a], h, c) == [a] && Flipped([a], h, c) == [];
  }

  lemma Reflagged()
    ensures Flipped(MINED, 2, false) == [Y] && Mark(MINED, 2, false) == ORPHANED
    ensures Flipped(ORPHANED, 3, true) == [] && Mark(ORPHANED, 3, true) == ORPHANED
  {
    ReflagTwo(Row(1, 1, true, X), Row(2, 2, true, Y), 2, false);
    ReflagTwo(Row(1, 1, true, X), Row(2, 2, false, Y), 3, true);
  }

  lemma OnlyXMined()
    ensures Mined(ORPHANED) == {X.txId}
    ensures forall m, t :: Wins(m, ORPHANED, G, t) <==> t == X.txId
  {
    assert MinedRowIn(ORPHANED[0], G) && !MinedRowIn(ORPHANED[1], G);
    assert HasMined(ORPHANED, G);
  }

  /** What restoring Y inserts is Y, and the one group it recomputes is that of X. */
  lemma FoundY(pool: Pool, found: seq<MempoolTx>)
    requires HasX(pool) && FoundFor(pool, [HeaderOf(Y)], ORPHANED, found)
    ensures IdsIn(found) == {Y.txId}
    ensures forall v :: v in found ==> v == ToMempoolTx(Y)
  {
    assert ORPHANED[1].data.txId == Y.txId;
    assert HeaderOf(Y) in [HeaderOf(Y)];
    assert forall t :: t in IdsIn(found) <==> t == Y.txId;
    forall v | v in found
      ensures v == ToMempoolTx(Y)
    {
      assert v.txId in IdsIn(found) && FromLatest(ORPHANED, v);
    }
  }

  lemma RestoredGroup(pool: Pool, found: seq<MempoolTx>)
    requires HasX(pool) && found != [] && IdsIn(found) == {Y.txId} && forall v :: v in found ==> v == ToMempoolTx(Y)
    ensures var inserted := InsertChunks(pool, found, 0, {X.txId}, 2);
      && inserted.Keys == {X.txId, Y.txId} && RowIn(inserted[X.txId], G) && RowIn(inserted[Y.txId], G)
      && GroupsFor(inserted, ORPHANED, ChunkIds(pool, found, 0, {X.txId}, 2), true) == {G}
  {
    var inserted := InsertChunks(pool, found, 0, {X.txId}, 2);
    var ids := ChunkIds(pool, found, 0, {X.txId}, 2);
    ChunksExtend(pool, found, 0, {X.txId}, 2);
    NothingArrived(pool, {X.txId});
    ChunksArrive(pool, pool, found, 0, {X.txId}, 2, {});
    EnteredArrived(pool, inserted, found, {X.txId}, {} + ids);
    ChunkIdsListed(pool, found, 0, {X.txId}, 2);
    var n := if |found| < INSERT_BATCH_SIZE then |found| else INSERT_BATCH_SIZE;
    assert found[0..n][0] in found[0..n] && found[0..n][0] in found;
    assert Y.txId in NewlyPending(pool, found[0..n], {X.txId});
    assert ids == {Y.txId};
    var v :| v in found && FromValue(v, Y.txId, inserted[Y.txId]);
    assert GroupOfRow(inserted[Y.txId]) == G;
  }

  lemma TouchesX(pool: Pool)
    requires HasX(pool)
    ensures X.txId in Touched(pool, [HeaderOf(Y)])
    ensures HasX(RestoreRows(pool, [HeaderOf(Y)])) && NoneMined(pool, {X.txId}) == pool[X.txId].pruned
  {
    assert Touches([HeaderOf(Y)][0], X.txId, pool[X.txId]);
  }

  /** X is the winner of G, and everything else in G has lost. */
  ghost predicate Unpruned(m: Pool) {
    X.txId in PendingIn(m) && RowIn(m[X.txId], G) && OthersLost(m, G, X.txId)
  }

  lemma Revives(pool: Pool, q: Pool)
    requires HasX(pool) && pool[X.txId].pruned && RestoreStep(pool, [HeaderOf(Y)], ORPHANED, 2, q)
    ensures Unpruned(q)
  {
    var back := RestoreRows(pool, [HeaderOf(Y)]);
    var found :| FoundFor(pool, [HeaderOf(Y)], ORPHANED, found) && Arrives(back, found, ORPHANED, 2, q);
    FoundY(pool, found);
    TouchesX(pool);
    OnlyXMined();
    RestoredGroup(back, found);
    RestoredMined(pool, [HeaderOf(Y)], ORPHANED, found, 2, q, X.txId);
    ArrivesLaws(back, found, ORPHANED, 2, q);
    DecidedForX(InsertChunks(back, found, 0, {X.txId}, 2), q);
  }

  lemma DecidedForX(m: Pool, q: Pool)
    requires OnlyLosers(m, ORPHANED, {G}, q) && AllDecided(q, ORPHANED, {G})
    requires X.txId in m && RowIn(m[X.txId], G)
    ensures X.txId in q && RowIn(q[X.txId], G) && OthersLost(q, G, X.txId) && SoleWinner(m, ORPHANED, G, X.txId)
  {
    OnlyXMined();
    OnlyLosersReplace(m, ORPHANED, {G}, q);
    assert GroupDecided(q, ORPHANED, G) && RowIn(q[X.txId], G);
    var w :| Wins(q, ORPHANED, G, w) && OthersLost(q, G, w);
  }

  lemma NothingToPrune(m: Pool)
    ensures PruneRows(m, HeadersOf([])) == m
  {
  }

  lemma A3Round(st: ReOrgState)
    requires st.blocks == map[1 := BlockRow(B1.info, true), 2 := BlockRow(B2.info, true), 3 := BlockRow(A2.info, false)]
    requires st.ledger.txs == MINED
    ensures RivalOf(st.blocks, 3) == Some(2) && !GoesOn(Round(st, 3).blocks, 3)
    ensures Restored(st, 3) == Round(st, 3) && Round(st, 3).ledger.txs == ORPHANED
    ensures Round(st, 3).blocks.Keys == st.blocks.Keys
  {
    Reflagged();
    assert 2 in RivalsOf(st.blocks, 3);
    assert RivalsOf(st.blocks, 3) == {2};
    assert 1 !in RivalsOf(st.blocks, 3);
  }

  lemma A3Cannot(st: ReOrgState, pool: Pool)
    requires st.blocks == map[1 := BlockRow(B1.info, true), 2 := BlockRow(B2.info, true), 3 := BlockRow(A2.info, false)]
    requires st.ledger.txs == MINED && HasX(pool)
    ensures !LeadsFail(st, 3, 2, pool)
  {
    A3Round(st);
    Reflagged();
    assert HeadersOf([Y]) == [HeaderOf(Y)];
    forall found | FoundFor(pool, [HeaderOf(Y)], ORPHANED, found)
      ensures !MayFail(RestoreRows(pool, [HeaderOf(Y)]), found, ORPHANED, 2)
    {
      FoundY(pool, found);
      OneArrival(RestoreRows(pool, [HeaderOf(Y)]), found, ORPHANED, 2, Y.txId);
    }
    LeadsPoolRestored(st, 3, 2, pool, pool);
  }

  lemma A3Revives(st: ReOrgState, pool: Pool, q: Pool)
    requires st.blocks == map[1 := BlockRow(B1.info, true), 2 := BlockRow(B2.info, true), 3 := BlockRow(A2.info, false)]
    requires st.ledger.txs == MINED && HasX(pool) && pool[X.txId].pruned && LeadsPool(st, 3, 2, pool, q)
    ensures Unpruned(q)
  {
    A3Round(st);
    Reflagged();
    assert HeadersOf([Y]) == [HeaderOf(Y)];
    LeadsPoolRestored(st, 3, 2, pool, q);
    SwapPoolSwapped(st.ledger, Some(2), 3, 2, pool, q);
    var orphaned :| OrphanPool(st.ledger, Some(2), 2, pool, orphaned)
      && q == PruneRows(orphaned, HeadersOf(Flipped(Orphaned(st.ledger, Some(2)).txs, 3, true)));
    NothingToPrune(orphaned);
    Revives(pool, orphaned);
  }

  lemma A3Tables(t: ChainTables)
    requires t.blocks == map[1 := BlockRow(B1.info, true), 2 := BlockRow(B2.info, true), 3 := BlockRow(A2.info, false)]
    requires t.ledger.txs == MINED && t.tip.blockHeight == 2
    ensures Reorgs(t, A3.info) && Updated(t, A3).ledger.txs == ORPHANED
  {
    A3Round(BeforeReorg(t));
    assert TxsOf(A3.txs) == [];
    assert ORPHANED + [] == ORPHANED;
  }

  /** At the end of the update nothing expires and there are no groups to recompute. */
  lemma NothingSettles(m: Pool, now: int, m': Pool)
    requires Settles(m, ORPHANED, A3, false, now, 2, m')
    ensures m' == m
  {
    assert CollectRows(m, false, now, 2) == m;
    assert GroupsFor(m, ORPHANED, IdsOf([]), false) == {};
  }

  lemma A3Commits(t: ChainTables, pool: Pool)
    requires t.blocks == map[1 := BlockRow(B1.info, true), 2 := BlockRow(B2.info, true), 3 := BlockRow(A2.info, false)]
    requires t.ledger.txs == MINED && t.tip.blockHeight == 2 && t.tip.indexBlockHash == Some(2)
    requires HasX(pool)
    ensures !UpdateMayFail(t, pool, A3, 0)
  {
    A3Tables(t);
    A3Cannot(BeforeReorg(t), pool);
    assert IdSeq(TxsOf(A3.txs)) == [];
  }

  lemma A3Back(t: ChainTables, pool: Pool, before: Pool)
    requires t.blocks == map[1 := BlockRow(B1.info, true), 2 := BlockRow(B2.info, true), 3 := BlockRow(A2.info, false)]
    requires t.ledger.txs == MINED && t.tip.blockHeight == 2 && t.tip.indexBlockHash == Some(2)
    requires HasX(pool) && pool[X.txId].pruned && ReorgPool(t, A3.info, pool, before)
    ensures Unpruned(before)
  {
    A3Tables(t);
    A3Revives(BeforeReorg(t), pool, before);
  }

  lemma A3Calm(t: ChainTables, before: Pool, m: Pool)
    requires t.blocks == map[1 := BlockRow(B1.info, true), 2 := BlockRow(B2.info, true), 3 := BlockRow(A2.info, false)]
    requires t.ledger.txs == MINED && t.tip.blockHeight == 2 && t.tip.indexBlockHash == Some(2)
    requires Refreshed(t, before, m, ORPHANED, A3, 0)
    ensures m == before
  {
    NothingToPrune(before);
    NothingSettles(before, 0, m);
  }

  lemma A3Pool(t: ChainTables, pool: Pool, m: Pool)
    requires t.blocks == map[1 := BlockRow(B1.info, true), 2 := BlockRow(B2.info, true), 3 := BlockRow(A2.info, false)]
    requires t.ledger.txs == MINED && t.tip.blockHeight == 2 && t.tip.indexBlockHash == Some(2)
    requires HasX(pool) && pool[X.txId].pruned && PoolFollows(t, pool, m, ORPHANED, A3, 0)
    ensures Unpruned(m)
  {
    PoolFollowsOpen(t, pool, m, ORPHANED, A3, 0);
    var before :| ReorgPool(t, A3.info, pool, before) && Refreshed(t, before, m, ORPHANED, A3, 0);
    A3Back(t, pool, before);
    A3Calm(t, before, m);
  }

  lemma TakeA3(a: State, b: State, ok: bool)
    requires Stage4(a) && Steps(MESSAGES[4], a, b, ok)
    ensures Unpruned(b.pool) && b.tables.ledger.txs == ORPHANED
  {
    StepsAnswered(MESSAGES[4], a, b, ok);
    A3Tables(a.tables);
    A3Commits(a.tables, a.pool);
    assert ok;
    A3Pool(a.tables, a.pool, b.pool);
  }

  lemma UnprunedDecided(m: Pool)
    requires Unpruned(m)
    ensures X.txId in Mined(ORPHANED) && GroupDecided(m, ORPHANED, G)
  {
    OnlyXMined();
    assert Wins(m, ORPHANED, G, X.txId);
  }

  /**
   Whatever the database chooses on the way, the messages end with a pending transaction that is canonically
   mined, in a group that replace-by-fee has decided.
   */
  lemma MinedStaysPending(done: seq<bool>, trace: seq<State>)
    requires IsTrace(MESSAGES, done, trace)
    ensures var end := trace[|MESSAGES|];
      && X.txId in PendingIn(end.pool) && X.txId in Mined(end.tables.ledger.txs)
      && RowIn(end.pool[X.txId], G) && GroupDecided(end.pool, end.tables.ledger.txs, G)
  {
    Arrive(trace[1], done[0]);
    TakeB1(trace[1], trace[2], done[1]);
    TakeB2(trace[2], trace[3], done[2]);
    TakeA2(trace[3], trace[4], done[3]);
    TakeA3(trace[4], trace[5], done[4]);
    UnprunedDecided(trace[5].pool);
  }

  lemma ExampleMessages()
    ensures BlocksIn(MESSAGES) == [B1, B2, A2, A3]
  {
    assert MESSAGES[..0] == [] && MESSAGES[..5] == MESSAGES;
    for i := 0 to 5
      invariant BlocksIn(MESSAGES[..i]) == [B1, B2, A2, A3][..if i == 0 then 0 else i - 1]
    {
      BlocksNext(MESSAGES, i);
    }
  }

  lemma ExampleIsValid(d: BlockData)
    requires d in [B1, B2, A2, A3]
    ensures ValidData(d)
  {
    assert StxEventsOf(d.txs) == [] && FtEventsOf(d.txs) == [] by {
      assert d.txs == [] || (|d.txs| == 1 && d.txs[..0] == []);
    }
  }

  lemma ExampleBlocks()
    ensures Genuine(BlocksIn(MESSAGES))
  {
    ExampleMessages();
    forall d | d in [B1, B2, A2, A3]
      ensures ValidData(d)
    {
      ExampleIsValid(d);
    }
  }

  /** Such a run exists: the event server's queue makes it. */
  method RunExample() returns (store: WriteStore)
    ensures X.txId in PendingIn(store.mempool.rows) && X.txId in Mined(store.ledger.txs)
  {
    ExampleBlocks();
    var done, sent;
    ghost var trace;
    store, done, sent, trace := ProcessMessages(MESSAGES);
    MinedStaysPending(done, trace);
  }

  // ---- Two pending transactions of one payer and nonce -------------------------------------------

  // W, of address 1, was mined and had replaced L, of the same nonce. When W is orphaned both are revived: W
  // has a row, so nothing is inserted, and nothing recomputes their group.

  const W := Tx(21, 1, None, 0, 2, 0, 0, {})

  /** L and W, both pruned. */
  predicate BothPruned(m: Pool) {
    && m.Keys == {20, 21} && m[20].pruned && m[21].pruned
    && m[20].sender == m[21].sender == 1 && m[20].sponsor == m[21].sponsor == None && m[20].nonce == m[21].nonce == 0
  }

  lemma NoIdsNoValues(values: seq<MempoolTx>)
    ensures IdsIn(values) == {} ==> values == []
  {
    if values != [] {
      assert values[0].txId in IdsIn(values);
    }
  }

  lemma NothingFound(m: Pool, txs: seq<Row<Tx>>, found: seq<MempoolTx>)
    requires BothPruned(m) && FoundFor(m, [HeaderOf(W)], txs, found)
    ensures found == [] && Touched(m, [HeaderOf(W)]) == {20, 21}
  {
    var headers := [HeaderOf(W)];
    assert Touches(headers[0], 20, m[20]) && Touches(headers[0], 21, m[21]);
    NoIdsNoValues(found);
  }

  lemma NothingArrives(m: Pool, txs: seq<Row<Tx>>, height: nat, m': Pool)
    requires Arrives(m, [], txs, height, m')
    ensures m' == m
  {
    ArrivesLaws(m, [], txs, height, m');
  }

  /** Before, nothing is pending; after restoring W, whatever the database picks, both are. */
  lemma RestoreBreaksUniqueness(m: Pool, txs: seq<Row<Tx>>, height: nat, m': Pool)
    requires BothPruned(m) && RestoreStep(m, [HeaderOf(W)], txs, height, m')
    ensures PendingIn(m) == {} && PendingIn(m') == {20, 21} && GroupOfRow(m'[20]) == GroupOfRow(m'[21])
    ensures UniqueExcept(m, {}) && !UniqueExcept(m', {})
  {
    var headers := [HeaderOf(W)];
    var back := RestoreRows(m, headers);
    var found :| FoundFor(m, headers, txs, found) && Arrives(back, found, txs, height, m');
    NothingFound(m, txs, found);
    NothingArrives(back, txs, height, m');
    TwoAlike(back);
    assert GroupOfRow(back[20]) == GroupOfRow(back[21]);
  }

  lemma TwoAlike(m: Pool)
    requires {20, 21} <= PendingIn(m) && GroupOfRow(m[20]) == GroupOfRow(m[21])
    ensures !UniqueExcept(m, {})
  {
    assert 20 in PendingIn(m) && 21 in PendingIn(m);
  }

  // ---- A block that one writer refuses -----------------------------------------------------------

  // The block has a transaction of address 1 and one of address 2 with equal nonces. A mempool row of address
  // 1 sponsored by address 2 is in both groups and loses in both, so the statement fails wherever that row is.

  const SPONSORED := MempoolTx(12, 1, Some(2), 0, 1, 0)
  const T1 := Tx(10, 1, None, 0, 1, 0, 0, {})
  const T2 := Tx(11, 2, None, 0, 1, 1, 0, {})
  const BOTH := BlockData(1, BlockInfo(0, 1, 0, false), [TxEntry(T1, [], []), TxEntry(T2, [], [])], [], [])

  const WITH_MEMPOOL := [MempoolMessage([SPONSORED]), BlockMessage(BOTH, 0)]
  const WITHOUT_MEMPOOL := [BlockMessage(BOTH, 0)]

  const BOTH_ROWS := [Row(1, 1, true, T1), Row(1, 1, true, T2)]

  lemma TwoTxs(a: Tx, b: Tx)
    ensures TxsOf([TxEntry(a, [], []), TxEntry(b, [], [])]) == [a, b]
  {
    var one, two := [TxEntry(a, [], [])], [TxEntry(a, [], []), TxEntry(b, [], [])];
    OneTx(a);
    assert two[..|two| - 1] == one;
    assert TxsOf(two) == TxsOf(one) + [b];
  }

  lemma TwoRows(a: Tx, b: Tx, h: Hash, height: nat)
    ensures RowsFor(h, height, true, [a, b]) == [Row(h, height, true, a), Row(h, height, true, b)]
    ensures IdSeq([a, b]) == [a.txId, b.txId]
  {
  }

  /** Nothing was delivered yet. */
  predicate Blank(t: ChainTables) {
    t.blocks == map[] && t.ledger.txs == [] && t.tip.blockHeight == 0 && t.tip.indexBlockHash == None
  }

  lemma BothUpdated(t: ChainTables)
    requires Blank(t)
    ensures TxsOf(BOTH.txs) == [T1, T2] && IdSeq([T1, T2]) == [10, 11]
    ensures Updated(t, BOTH).ledger.txs == BOTH_ROWS && Updated(t, BOTH).tip.indexBlockHash == Some(1)
  {
    TwoTxs(T1, T2);
    TwoRows(T1, T2, 1, 1);
    SimpleUpdate(t, BOTH);
    assert t.ledger.txs + BOTH_ROWS == BOTH_ROWS;
  }

  /** A mempool row like the sponsored one. */
  predicate HasSponsored(m: Pool) {
    Alone(m, SPONSORED)
  }

  lemma BothClash(m: Pool)
    requires HasSponsored(m)
    ensures Clashes(m, BOTH_ROWS, GroupsFor(m, BOTH_ROWS, SetOf([10, 11]), false))
  {
    var groups := GroupsFor(m, BOTH_ROWS, SetOf([10, 11]), false);
    assert 10 in [10, 11] && 11 in [10, 11];
    assert BOTH_ROWS[0].data.txId == 10 && BOTH_ROWS[1].data.txId == 11;
    assert Group(1, 0) in groups && Group(2, 0) in groups;
    assert InTwo(m, groups, 12, Group(1, 0), Group(2, 0));
    assert MinedRowIn(BOTH_ROWS[0], Group(1, 0));
    assert HasMined(BOTH_ROWS, Group(1, 0)) && !LatestMined(BOTH_ROWS, Group(1, 0), 12);
  }

  lemma BothCannotPass(m: Pool, ids: seq<TxId>)
    requires HasSponsored(m) && ids == [10, 11]
    ensures !Passable(m, BOTH_ROWS, ids, 0, false)
  {
    BothClash(m);
    assert ids[0..BatchEnd(ids, 0)] == ids;
  }

  lemma BothRefuses(t: ChainTables, m: Pool, signed: bool, now: int, m': Pool)
    requires HasSponsored(m) && Blank(t)
    ensures !Settles(m, BOTH_ROWS, BOTH, signed, now, 0, m')
  {
    BothUpdated(t);
    BothCannotPass(CollectRows(m, signed, now, 0), IdSeq(TxsOf(BOTH.txs)));
    SettlesExact(m, BOTH_ROWS, BOTH, signed, now, 0);
  }

  lemma BothRefused(t: ChainTables, pool: Pool, m: Pool)
    requires HasSponsored(pool) && Blank(t)
    ensures !PoolFollows(t, pool, m, BOTH_ROWS, BOTH, 0)
  {
    PoolFollowsOpen(t, pool, m, BOTH_ROWS, BOTH, 0);
    BothRefuses(t, MadeRoom(pool, BOTH, true), SignedTip(t), 0, m);
  }

  lemma BothTaken(t: ChainTables, pool: Pool)
    requires Blank(t) && pool == map[]
    ensures !UpdateMayFail(t, pool, BOTH, 0)
  {
    NoOverlapUpdates(t, pool, BOTH, 0);
  }

  lemma ArriveSponsored(b: State, ok: bool)
    requires Steps(WITH_MEMPOOL[0], EMPTY_STATE, b, ok)
    ensures Blank(b.tables) && HasSponsored(b.pool)
  {
    StepsAnswered(WITH_MEMPOOL[0], EMPTY_STATE, b, ok);
    ArriveAlone(SPONSORED, b, ok);
  }

  lemma Refuse(a: State, b: State, ok: bool)
    requires Blank(a.tables) && HasSponsored(a.pool) && Steps(WITH_MEMPOOL[1], a, b, ok)
    ensures !ok && b == a
  {
    StepsAnswered(WITH_MEMPOOL[1], a, b, ok);
    BothUpdated(a.tables);
    BothRefused(a.tables, a.pool, b.pool);
  }

  lemma Take(a: State, b: State, ok: bool)
    requires Blank(a.tables) && a.pool == map[] && Steps(WITHOUT_MEMPOOL[0], a, b, ok)
    ensures ok && b.tables.tip.indexBlockHash == Some(1)
  {
    StepsAnswered(WITHOUT_MEMPOOL[0], a, b, ok);
    BothUpdated(a.tables);
    BothTaken(a.tables, a.pool);
  }

  /** The same block, in every run: refused by the writer that knows the sponsored transaction, taken by the other. */
  lemma WritersDisagree(done: seq<bool>, trace: seq<State>, done': seq<bool>, trace': seq<State>)
    requires IsTrace(WITH_MEMPOOL, done, trace) && IsTrace(WITHOUT_MEMPOOL, done', trace')
    ensures !done[1] && trace[2].tables.tip.indexBlockHash == None
    ensures done'[0] && trace'[1].tables.tip.indexBlockHash == Some(BOTH.hash)
  {
    ArriveSponsored(trace[1], done[0]);
    Refuse(trace[1], trace[2], done[1]);
    Take(trace'[0], trace'[1], done'[0]);
  }
}
