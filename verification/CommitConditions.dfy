/**
 Exactly when replace-by-fee lets a canonical block commit. Every affected group then holds one of the
 block's own transactions, so it has a winner mined last, and never a tie.
 */
module CommitConditions {
  import opened Types
  import opened Tables
  import opened Chain
  import opened Ledger
  import opened Mempool
  import opened MempoolTables
  import opened ReOrg
  import opened ReOrgStates
  import opened BlockUpdates
  import opened MempoolReOrgs
  import opened PoolUpdates

  // ---- The facts ---------------------------------------------------------------------------------

  predicate SameHeader(a: Tx, b: Tx) {
    a.sender == b.sender && a.sponsor == b.sponsor && a.nonce == b.nonce
  }

  /** A transaction id fixes sender, sponsor and nonce, and the transactions of the block have places of their own. */
  ghost predicate Regular(c: Chain, d: BlockData) {
    && (forall h, x, y :: h in c.known && x in TxsOf(c.known[h].txs) && y in TxsOf(d.txs) && x.txId == y.txId ==>
          SameHeader(x, y))
    && (forall x, y :: x in TxsOf(d.txs) && y in TxsOf(d.txs) && (x.txId == y.txId || x.txIndex == y.txIndex) ==>
      x == y)
  }

  function PayerOf(tx: Tx): Group {
    PayerGroup(tx.sender, tx.sponsor, tx.nonce)
  }

  /** No canonical row is above the block's own, and every row of one of its ids is in a group of its own. */
  ghost predicate OnTop(txs: seq<Row<Tx>>, d: BlockData) {
    && (forall i :: 0 <= i < |txs| && txs[i].canonical ==>
          txs[i].blockHeight < d.info.height || (txs[i].blockHeight == d.info.height && txs[i].data in TxsOf(d.txs)))
    && (forall x :: x in TxsOf(d.txs) ==> exists i :: 0 <= i < |txs| && IsOwn(txs[i], d, x))
    && (forall i :: 0 <= i < |txs| && txs[i].data.txId in IdsOf(TxsOf(d.txs)) ==>
          exists x :: x in TxsOf(d.txs) && PayerOf(x) == PayerOf(txs[i].data))
  }

  predicate IsOwn(r: Row<Tx>, d: BlockData, x: Tx) {
    r.canonical && r.blockHeight == d.info.height && r.data == x
  }

  lemma {:induction false} DataMembers(rows: seq<Row<Tx>>, h: Hash)
    ensures forall i :: 0 <= i < |rows| && rows[i].indexBlockHash == h ==> rows[i].data in DataOf(rows, h)
    ensures forall x :: x in DataOf(rows, h) ==>
      exists i :: 0 <= i < |rows| && rows[i].indexBlockHash == h && rows[i].data == x
  {
    if rows != [] {
      var init := rows[..|rows| - 1];
      DataMembers(init, h);
      forall x | x in DataOf(rows, h)
        ensures exists i :: 0 <= i < |rows| && rows[i].indexBlockHash == h && rows[i].data == x
      {
        if x in DataOf(init, h) {
          var i :| 0 <= i < |init| && init[i].indexBlockHash == h && init[i].data == x;
          assert rows[i].data == x;
        } else {
          assert rows[|rows| - 1].data == x;
        }
      }
    }
  }

  lemma ContentRows(txs: seq<Row<Tx>>, known: Blocks, s: set<Hash>)
    requires Agrees(txs, known, s) && forall h :: h in known ==> DataOf(txs, h) == TxsOf(known[h].txs)
    ensures forall i :: 0 <= i < |txs| ==> txs[i].data in TxsOf(known[txs[i].indexBlockHash].txs)
    ensures forall h, x :: h in known && x in TxsOf(known[h].txs) ==>
      exists i :: 0 <= i < |txs| && txs[i].indexBlockHash == h && txs[i].data == x
  {
    forall i | 0 <= i < |txs|
      ensures txs[i].data in TxsOf(known[txs[i].indexBlockHash].txs)
    {
      DataMembers(txs, txs[i].indexBlockHash);
    }
    forall h, x | h in known && x in TxsOf(known[h].txs)
      ensures exists i :: 0 <= i < |txs| && txs[i].indexBlockHash == h && txs[i].data == x
    {
      DataMembers(txs, h);
    }
  }

  lemma AlignedContent(t: ChainTables, c: Chain)
    requires Aligned(t, c)
    ensures Agrees(t.ledger.txs, c.known, SetOf(Canonical(c)))
    ensures forall h :: h in c.known ==> DataOf(t.ledger.txs, h) == TxsOf(c.known[h].txs)
  {
    SteadyInStep(BeforeReorg(t), c.known, SetOf(Canonical(c)));
    TracksSynced(t.ledger, t.balances, c.known, SetOf(Canonical(c)));
    forall h | h in c.known
      ensures DataOf(t.ledger.txs, h) == TxsOf(c.known[h].txs)
    {
      assert Contains(t.ledger, c.known[h]);
    }
  }

  /** The rows of an aligned table are those of the delivered blocks. */
  lemma AlignedRows(t: ChainTables, c: Chain)
    requires Aligned(t, c)
    ensures Agrees(t.ledger.txs, c.known, SetOf(Canonical(c)))
    ensures forall i :: 0 <= i < |t.ledger.txs| ==>
      t.ledger.txs[i].data in TxsOf(c.known[t.ledger.txs[i].indexBlockHash].txs)
    ensures forall h, x :: h in c.known && x in TxsOf(c.known[h].txs) ==>
      exists i :: 0 <= i < |t.ledger.txs| && t.ledger.txs[i].indexBlockHash == h && t.ledger.txs[i].data == x
  {
    AlignedContent(t, c);
    ContentRows(t.ledger.txs, c.known, SetOf(Canonical(c)));
  }

  lemma TipOnly(c: Chain, d: BlockData, h: Hash)
    requires Good(c) && c.tip == Some(d.hash) && d.hash in c.known && c.known[d.hash] == d
    requires h in SetOf(Canonical(c))
    ensures h in c.known && c.known[h].info.height <= d.info.height
    ensures c.known[h].info.height == d.info.height ==> h == d.hash
  {
    PathMember(c.known, d.hash, h);
    PathLaws(c.known, d.hash);
  }

  lemma NewTipOnTop(t: ChainTables, c: Chain, before: Chain, d: BlockData)
    requires Aligned(t, c) && c.tip == Some(d.hash) && d.hash in c.known && c.known[d.hash] == d
    requires c.known == before.known[d.hash := d] && Regular(before, d)
    ensures OnTop(t.ledger.txs, d)
  {
    AlignedRows(t, c);
    PathLaws(c.known, d.hash);
    OwnRows(t.ledger.txs, c, before, d);
    forall i | 0 <= i < |t.ledger.txs| && t.ledger.txs[i].canonical
      ensures t.ledger.txs[i].blockHeight <= d.info.height
      ensures t.ledger.txs[i].blockHeight == d.info.height ==> t.ledger.txs[i].data in TxsOf(d.txs)
    {
      TipOnly(c, d, t.ledger.txs[i].indexBlockHash);
    }
  }

  lemma OwnRows(txs: seq<Row<Tx>>, c: Chain, before: Chain, d: BlockData)
    requires Good(c) && c.tip == Some(d.hash) && c.known == before.known[d.hash := d] && Regular(before, d)
    requires Agrees(txs, c.known, SetOf(Canonical(c))) && d.hash in SetOf(Canonical(c))
    requires forall i :: 0 <= i < |txs| ==> txs[i].data in TxsOf(c.known[txs[i].indexBlockHash].txs)
    requires forall x :: x in TxsOf(d.txs) ==>
      exists i :: 0 <= i < |txs| && txs[i].indexBlockHash == d.hash && txs[i].data == x
    ensures forall x :: x in TxsOf(d.txs) ==> exists i :: 0 <= i < |txs| && IsOwn(txs[i], d, x)
    ensures forall i :: 0 <= i < |txs| && txs[i].data.txId in IdsOf(TxsOf(d.txs)) ==>
      exists x :: x in TxsOf(d.txs) && PayerOf(x) == PayerOf(txs[i].data)
  {
    forall x | x in TxsOf(d.txs)
      ensures exists i :: 0 <= i < |txs| && IsOwn(txs[i], d, x)
    {
      var i :| 0 <= i < |txs| && txs[i].indexBlockHash == d.hash && txs[i].data == x;
      assert IsOwn(txs[i], d, x);
    }
    forall i | 0 <= i < |txs| && txs[i].data.txId in IdsOf(TxsOf(d.txs))
      ensures exists x :: x in TxsOf(d.txs) && PayerOf(x) == PayerOf(txs[i].data)
    {
      var y :| y in TxsOf(d.txs) && y.txId == txs[i].data.txId;
      assert txs[i].indexBlockHash != d.hash ==> SameHeader(txs[i].data, y);
      assert txs[i].indexBlockHash == d.hash ==> txs[i].data == y;
      assert PayerOf(y) == PayerOf(txs[i].data);
    }
  }

  /** After a taller block all of that holds, re-org or not. */
  lemma CanonicalOnTop(t: ChainTables, c: Chain, d: BlockData)
    requires Aligned(t, c) && Fits(c, d) && ValidData(d) && Accepts(c, d)
    requires t.tip.blockHeight < d.info.height && Regular(c, d)
    ensures OnTop(Updated(t, d).ledger.txs, d)
  {
    SameParents(t, c, d);
    UpdateAligns(t, c, d);
    DeliverCanonical(c, d);
    NewTipOnTop(Updated(t, d), Deliver(c, d), c, d);
  }

  // ---- No ties -----------------------------------------------------------------------------------

  lemma InPayerGroup(tx: Tx)
    ensures InGroup(tx.sender, tx.sponsor, tx.nonce, PayerOf(tx))
  {
  }

  /** An affected group is the payer's of a transaction of the block. */
  lemma OwnPayer(txs: seq<Row<Tx>>, d: BlockData, g: Group, m: Pool) returns (x: Tx)
    requires OnTop(txs, d) && g in GroupsFor(m, txs, IdsOf(TxsOf(d.txs)), false)
    ensures x in TxsOf(d.txs) && PayerOf(x) == g
  {
    var k :| 0 <= k < |txs| && txs[k].data.txId in IdsOf(TxsOf(d.txs)) && PayerOf(txs[k].data) == g;
    x :| x in TxsOf(d.txs) && PayerOf(x) == PayerOf(txs[k].data);
  }

  lemma OwnGroup(txs: seq<Row<Tx>>, d: BlockData, g: Group, m: Pool) returns (i: nat)
    requires OnTop(txs, d) && g in GroupsFor(m, txs, IdsOf(TxsOf(d.txs)), false)
    ensures i < |txs| && MinedRowIn(txs[i], g) && txs[i].blockHeight == d.info.height
  {
    var x := OwnPayer(txs, d, g, m);
    InPayerGroup(x);
    i :| 0 <= i < |txs| && IsOwn(txs[i], d, x);
  }

  lemma LatestIsOwn(txs: seq<Row<Tx>>, d: BlockData, g: Group, m: Pool, u: TxId) returns (i: nat)
    requires OnTop(txs, d) && g in GroupsFor(m, txs, IdsOf(TxsOf(d.txs)), false) && LatestMined(txs, g, u)
    ensures i < |txs| && MinedRowIn(txs[i], g) && txs[i].data.txId == u && txs[i].data in TxsOf(d.txs)
    ensures forall j :: 0 <= j < |txs| && MinedRowIn(txs[j], g) ==> MinedNotAfter(txs[j], txs[i])
  {
    i :| 0 <= i < |txs| && MinedRowIn(txs[i], g) && txs[i].data.txId == u
      && forall j :: 0 <= j < |txs| && MinedRowIn(txs[j], g) ==> MinedNotAfter(txs[j], txs[i]);
    var k := OwnGroup(txs, d, g, m);
    assert MinedNotAfter(txs[k], txs[i]);
  }

  lemma OnTopNoTies(txs: seq<Row<Tx>>, c: Chain, d: BlockData, m: Pool)
    requires OnTop(txs, d) && Regular(c, d)
    ensures NoTies(m, txs, GroupsFor(m, txs, IdsOf(TxsOf(d.txs)), false))
    ensures forall g, u :: g in GroupsFor(m, txs, IdsOf(TxsOf(d.txs)), false) ==>
      (Wins(m, txs, g, u) <==> LatestMined(txs, g, u))
  {
    forall g, u | g in GroupsFor(m, txs, IdsOf(TxsOf(d.txs)), false)
      ensures Wins(m, txs, g, u) <==> LatestMined(txs, g, u)
    {
      var k := OwnGroup(txs, d, g, m);
      assert HasMined(txs, g);
    }
    forall g, u, v | g in GroupsFor(m, txs, IdsOf(TxsOf(d.txs)), false) && Wins(m, txs, g, u) && Wins(m, txs, g, v)
      ensures u == v
    {
      var i := LatestIsOwn(txs, d, g, m, u);
      var j := LatestIsOwn(txs, d, g, m, v);
      assert MinedNotAfter(txs[i], txs[j]) && MinedNotAfter(txs[j], txs[i]);
    }
  }

  // ---- The condition -----------------------------------------------------------------------------

  /** In every batch of the ids, a row that is in two of its groups was mined last in each of them. */
  ghost predicate LatestInAll(m: Pool, txs: seq<Row<Tx>>, ids: seq<TxId>, i: nat)
    decreases |ids| - i
  {
    i < |ids| ==>
      && (forall t, g, h :: t in m && InTwo(m, GroupsFor(m, txs, SetOf(ids[i..BatchEnd(ids, i)]), false), t, g, h) ==>
            LatestMined(txs, g, t))
      && LatestInAll(m, txs, ids, BatchEnd(ids, i))
  }

  /** The same for the ids from position 500 j on, 500 of them or as many as there are. */
  ghost predicate LatestInBatch(m: Pool, txs: seq<Row<Tx>>, ids: seq<TxId>, j: nat)
    requires 500 * j < |ids|
  {
    var to := if 500 * j + 500 < |ids| then 500 * j + 500 else |ids|;
    forall t, g, h :: t in m && InTwo(m, GroupsFor(m, txs, SetOf(ids[500 * j..to]), false), t, g, h) ==>
      LatestMined(txs, g, t)
  }

  ghost predicate LatestFrom(m: Pool, txs: seq<Row<Tx>>, ids: seq<TxId>, k: nat) {
    forall j: nat :: k <= j && 500 * j < |ids| ==> LatestInBatch(m, txs, ids, j)
  }

  lemma LatestFromNext(m: Pool, txs: seq<Row<Tx>>, ids: seq<TxId>, k: nat)
    requires 500 * k < |ids|
    ensures LatestFrom(m, txs, ids, k) <==> LatestInBatch(m, txs, ids, k) && LatestFrom(m, txs, ids, k + 1)
  {
    if LatestInBatch(m, txs, ids, k) && LatestFrom(m, txs, ids, k + 1) {
      forall j: nat | k <= j && 500 * j < |ids|
        ensures LatestInBatch(m, txs, ids, j)
      {
        assert j != k ==> k + 1 <= j;
      }
    }
  }

  lemma LatestInAllNext(m: Pool, txs: seq<Row<Tx>>, ids: seq<TxId>, k: nat)
    requires 500 * k < |ids|
    ensures LatestInAll(m, txs, ids, 500 * k) <==>
      LatestInBatch(m, txs, ids, k) && LatestInAll(m, txs, ids, 500 * (k + 1))
  {
    assert LatestInAll(m, txs, ids, BatchEnd(ids, 500 * k)) <==> LatestInAll(m, txs, ids, 500 * (k + 1));
  }

  /** The condition, batch by batch of 500 ids. */
  lemma {:induction false} LatestInBatches(m: Pool, txs: seq<Row<Tx>>, ids: seq<TxId>, k: nat)
    ensures LatestInAll(m, txs, ids, 500 * k) <==> LatestFrom(m, txs, ids, k)
    decreases |ids| - 500 * k
  {
    if 500 * k < |ids| {
      LatestInBatches(m, txs, ids, k + 1);
      LatestInAllNext(m, txs, ids, k);
      LatestFromNext(m, txs, ids, k);
    }
  }

  lemma BatchCondition(m: Pool, txs: seq<Row<Tx>>, groups: set<Group>)
    requires NoTies(m, txs, groups)
    requires forall g, u :: g in groups ==> (Wins(m, txs, g, u) <==> LatestMined(txs, g, u))
    ensures !Clashes(m, txs, groups) <==>
      forall t, g, h :: t in m && InTwo(m, groups, t, g, h) ==> LatestMined(txs, g, t)
  {
    NoTiesExact(m, txs, groups);
  }

  lemma {:induction false} PassesIfLatest(m: Pool, txs: seq<Row<Tx>>, ids: seq<TxId>, i: nat)
    requires NoTies(m, txs, GroupsFor(m, txs, SetOf(ids), false))
    requires forall g, u :: g in GroupsFor(m, txs, SetOf(ids), false) ==> (Wins(m, txs, g, u) <==>
      LatestMined(txs, g, u))
    ensures Passable(m, txs, ids, i, false) <==> LatestInAll(m, txs, ids, i)
    decreases |ids| - i
  {
    if i < |ids| {
      var groups := GroupsFor(m, txs, SetOf(ids[i..BatchEnd(ids, i)]), false);
      SomeGroups(m, txs, ids, i, BatchEnd(ids, i), false);
      BatchCondition(m, txs, groups);
      PassesIfLatest(m, txs, ids, BatchEnd(ids, i));
    }
  }

  /** Pruning and collecting rows does not touch the condition. */
  lemma {:induction false} LatestStays(m: Pool, m': Pool, txs: seq<Row<Tx>>, ids: seq<TxId>, i: nat)
    requires m'.Keys == m.Keys && forall t :: t in m ==> SamePayer(m[t], m'[t])
    ensures LatestInAll(m', txs, ids, i) <==> LatestInAll(m, txs, ids, i)
    decreases |ids| - i
  {
    if i < |ids| {
      var groups := GroupsFor(m, txs, SetOf(ids[i..BatchEnd(ids, i)]), false);
      assert GroupsFor(m', txs, SetOf(ids[i..BatchEnd(ids, i)]), false) == groups;
      assert forall t, g, h :: t in m ==> (InTwo(m', groups, t, g, h) <==> InTwo(m, groups, t, g, h));
      LatestStays(m, m', txs, ids, BatchEnd(ids, i));
    }
  }

  lemma OnTopSettles(txs: seq<Row<Tx>>, c: Chain, d: BlockData, m: Pool, signed: bool, now: int, tipHeight: nat)
    requires OnTop(txs, d) && Regular(c, d)
    ensures var condition := LatestInAll(m, txs, IdSeq(TxsOf(d.txs)), 0);
      && (SettleMayFail(m, txs, d, signed, now, tipHeight) <==> !condition)
      && (CanSettle(m, txs, d, signed, now, tipHeight) <==> condition)
  {
    var ids, kept := IdSeq(TxsOf(d.txs)), CollectRows(m, signed, now, tipHeight);
    OnTopNoTies(txs, c, d, kept);
    PassesIfLatest(kept, txs, ids, 0);
    LatestStays(m, kept, txs, ids, 0);
    SettlesOrFails(m, txs, d, signed, now, tipHeight);
    SettlesExact(m, txs, d, signed, now, tipHeight);
  }

  lemma RoomSettles(txs: seq<Row<Tx>>, c: Chain, d: BlockData, m: Pool, signed: bool, now: int, tipHeight: nat)
    requires OnTop(txs, d) && Regular(c, d)
    ensures var condition := LatestInAll(m, txs, IdSeq(TxsOf(d.txs)), 0);
      && (SettleMayFail(MadeRoom(m, d, true), txs, d, signed, now, tipHeight) <==> !condition)
      && (CanSettle(MadeRoom(m, d, true), txs, d, signed, now, tipHeight) <==> condition)
  {
    OnTopSettles(txs, c, d, MadeRoom(m, d, true), signed, now, tipHeight);
    LatestStays(m, MadeRoom(m, d, true), txs, IdSeq(TxsOf(d.txs)), 0);
  }

  /** The end of the update passes exactly under the condition. */
  ghost predicate EndIsExact(t: ChainTables, before: Pool, d: BlockData, now: int) {
    var txs, made := Updated(t, d).ledger.txs, MadeRoom(before, d, true);
    var condition := LatestInAll(before, txs, IdSeq(TxsOf(d.txs)), 0);
    && (SettleMayFail(made, txs, d, SignedTip(t), now, t.tip.blockHeight) <==> !condition)
    && (CanSettle(made, txs, d, SignedTip(t), now, t.tip.blockHeight) <==> condition)
  }

  /** The end of an update of a canonical block, after a re-org or not: it passes exactly under the condition. */
  lemma CanonicalSettles(t: ChainTables, c: Chain, before: Pool, d: BlockData, now: int)
    requires Aligned(t, c) && Fits(c, d) && ValidData(d) && Accepts(c, d)
    requires t.tip.blockHeight < d.info.height && Regular(c, d)
    ensures EndIsExact(t, before, d, now)
  {
    CanonicalOnTop(t, c, d);
    RoomSettles(Updated(t, d).ledger.txs, c, d, before, SignedTip(t), now, t.tip.blockHeight);
  }

  /**
   A canonical block without a re-org commits if and only if, in every batch of its ids, each mempool row that is
   in two of the batch's groups is the transaction mined last in each of them. Otherwise it aborts.
   */
  lemma CanonicalCommits(t: ChainTables, c: Chain, pool: Pool, d: BlockData, now: int)
    requires Aligned(t, c) && Fits(c, d) && ValidData(d) && Accepts(c, d)
    requires t.tip.blockHeight < d.info.height && Regular(c, d) && !Reorgs(t, d.info)
    ensures var txs := Updated(t, d).ledger.txs;
      var condition := LatestInAll(pool, txs, IdSeq(TxsOf(d.txs)), 0);
      && (UpdateMayFail(t, pool, d, now) <==> !condition)
      && (CanFollow(t, pool, txs, d, now) <==> condition)
  {
    var txs := Updated(t, d).ledger.txs;
    SameParents(t, c, d);
    DeliverCanonical(c, d);
    CanonicalSettles(t, c, pool, d, now);
    FollowsExact(t, pool, d, now);
  }

  /** The same after a re-org, for a mempool it can leave. */
  ghost predicate EndsWell(t: ChainTables, pool: Pool, d: BlockData) {
    exists before :: ReorgPool(t, d.info, pool, before)
      && LatestInAll(before, Updated(t, d).ledger.txs, IdSeq(TxsOf(d.txs)), 0)
  }

  ghost predicate EndsBadly(t: ChainTables, pool: Pool, d: BlockData) {
    exists before :: ReorgPool(t, d.info, pool, before)
      && !LatestInAll(before, Updated(t, d).ledger.txs, IdSeq(TxsOf(d.txs)), 0)
  }

  /**
   With a re-org the restored transactions may tie, so that a run of the statements has a choice: the block can commit
   iff some choice leaves a mempool under the condition, and can abort iff some choice fails on the way or leaves one
   that is not.
   */
  lemma CanonicalChoices(t: ChainTables, c: Chain, pool: Pool, d: BlockData, now: int)
    requires Aligned(t, c) && Fits(c, d) && ValidData(d) && Accepts(c, d)
    requires t.tip.blockHeight < d.info.height && Regular(c, d)
    ensures CanFollow(t, pool, Updated(t, d).ledger.txs, d, now) <==> EndsWell(t, pool, d)
    ensures UpdateMayFail(t, pool, d, now) <==> ReorgMayFail(t, d.info, pool) || EndsBadly(t, pool, d)
  {
    SameParents(t, c, d);
    DeliverCanonical(c, d);
    forall before
      ensures EndIsExact(t, before, d, now)
    {
      CanonicalSettles(t, c, before, d, now);
    }
    CanonicalFollows(t, pool, d, now);
    ChoicesFail(t, pool, d, now);
  }

  lemma ChoicesFail(t: ChainTables, pool: Pool, d: BlockData, now: int)
    requires t.tip.blockHeight < d.info.height && d.hash !in t.blocks
    requires forall before :: EndIsExact(t, before, d, now)
    ensures UpdateMayFail(t, pool, d, now) <==> ReorgMayFail(t, d.info, pool) || EndsBadly(t, pool, d)
  {
    forall before
      ensures SettleMayFail(MadeRoom(before, d, true), Updated(t, d).ledger.txs, d, SignedTip(t), now,
        t.tip.blockHeight)
          <==> !LatestInAll(before, Updated(t, d).ledger.txs, IdSeq(TxsOf(d.txs)), 0)
    {
      assert EndIsExact(t, before, d, now);
    }
  }

  lemma CanonicalFollows(t: ChainTables, pool: Pool, d: BlockData, now: int)
    requires t.tip.blockHeight < d.info.height && forall before :: EndIsExact(t, before, d, now)
    ensures CanFollow(t, pool, Updated(t, d).ledger.txs, d, now) <==> EndsWell(t, pool, d)
  {
    var txs := Updated(t, d).ledger.txs;
    forall m
      ensures PoolFollows(t, pool, m, txs, d, now) <==>
        exists before :: ReorgPool(t, d.info, pool, before) && Refreshed(t, before, m, txs, d, now)
    {
      PoolFollowsOpen(t, pool, m, txs, d, now);
    }
    forall before, m
      ensures Refreshed(t, before, m, txs, d, now) <==>
        Settles(MadeRoom(before, d, true), txs, d, SignedTip(t), now, t.tip.blockHeight, m)
    {
    }
    if CanFollow(t, pool, txs, d, now) {
      var m :| PoolFollows(t, pool, m, txs, d, now);
      var before :| ReorgPool(t, d.info, pool, before) && Refreshed(t, before, m, txs, d, now);
      assert EndIsExact(t, before, d, now) && LatestInAll(before, txs, IdSeq(TxsOf(d.txs)), 0);
    }
    forall before | ReorgPool(t, d.info, pool, before) && LatestInAll(before, txs, IdSeq(TxsOf(d.txs)), 0)
      ensures CanFollow(t, pool, txs, d, now)
    {
      assert EndIsExact(t, before, d, now);
      var m :| Settles(MadeRoom(before, d, true), txs, d, SignedTip(t), now, t.tip.blockHeight, m);
      assert Refreshed(t, before, m, txs, d, now);
      assert PoolFollows(t, pool, m, txs, d, now);
    }
  }
}
