/**
 The mempool through a re-org, as a relation: the database may break ties and order ids as it likes, so a
 step has a set of results. With it, what no step forgets.
 */
module MempoolReOrgs {
  import opened Types
  import opened Tables
  import opened Ledger
  import opened Mempool
  import opened MempoolTables
  import opened ReOrg
  import opened ReOrgStates
  import opened BlockUpdates

  // ---- What insertion and restoring leave alone --------------------------------------------------

  predicate SamePayer(r: MempoolRow, r': MempoolRow) {
    r'.sender == r.sender && r'.sponsor == r.sponsor && r'.nonce == r.nonce
  }

  predicate FromValue(v: MempoolTx, t: TxId, r: MempoolRow) {
    v.txId == t && r.sender == v.sender && r.sponsor == v.sponsor && r.nonce == v.nonce && r.status == Pending
  }

  /** No row is lost or changes hands; new rows come from the listed values; other rows stay as they are. */
  ghost predicate Extends(m: Pool, values: seq<MempoolTx>, m': Pool) {
    && m.Keys <= m'.Keys
    && (forall t :: t in m ==>
          && SamePayer(m[t], m'[t])
          && (m'[t].status == m[t].status || m'[t].status == Pending)
          && (t !in IdsIn(values) ==> m'[t] == m[t]))
    && (forall t :: t in m' && t !in m ==> exists v :: v in values && FromValue(v, t, m'[t]))
  }

  lemma {:induction false} InsertRowsExtends(m: Pool, values: seq<MempoolTx>, height: nat)
    ensures Extends(m, values, InsertRows(m, values, height))
  {
    InsertRowsLaws(m, values, height);
    if values != [] {
      var init, v := values[..|values| - 1], values[|values| - 1];
      InsertRowsExtends(m, init, height);
      assert v in values && forall x :: x in init ==> x in values;
    }
  }

  lemma ReviveExtends(m: Pool, values: seq<MempoolTx>, mined: set<TxId>, height: nat)
    requires values != []
    ensures Extends(m, values, ReviveRows(m, values, mined, height))
  {
  }

  lemma ExtendsCompose(m: Pool, a: seq<MempoolTx>, m1: Pool, b: seq<MempoolTx>, m2: Pool, all: seq<MempoolTx>)
    requires Extends(m, a, m1) && Extends(m1, b, m2)
    requires forall v :: v in a || v in b ==> v in all
    ensures Extends(m, all, m2)
  {
    forall t | t in m2 && t !in m
      ensures exists v :: v in all && FromValue(v, t, m2[t])
    {
      if t in m1 {
        var v :| v in a && FromValue(v, t, m1[t]);
        assert FromValue(v, t, m2[t]);
      }
    }
  }

  lemma ChunkExtends(m: Pool, values: seq<MempoolTx>, mined: set<TxId>, height: nat)
    requires values != []
    ensures Extends(m, values, InsertChunk(m, values, mined, height))
  {
    var revived := ReviveRows(m, values, mined, height);
    var inserted := InsertRows(revived, values, height);
    ReviveExtends(m, values, mined, height);
    InsertRowsExtends(revived, values, height);
    ExtendsCompose(m, values, revived, values, inserted, values);
    assert Extends(inserted, values, PruneMined(inserted, IdsIn(values), mined));
    ExtendsCompose(m, values, inserted, values, PruneMined(inserted, IdsIn(values), mined), values);
  }

  lemma {:induction false} ChunksExtend(m: Pool, incoming: seq<MempoolTx>, i: nat, mined: set<TxId>, height: nat)
    ensures Extends(m, incoming, InsertChunks(m, incoming, i, mined, height))
    decreases |incoming| - i
  {
    if i < |incoming| {
      var n := if |incoming| - i < INSERT_BATCH_SIZE then |incoming| else i + INSERT_BATCH_SIZE;
      var next := InsertChunk(m, incoming[i..n], mined, height);
      NextChunk(m, incoming, i, n, mined, height);
      ChunkExtends(m, incoming[i..n], mined, height);
      ChunksExtend(next, incoming, n, mined, height);
      ExtendsCompose(m, incoming[i..n], next, incoming, InsertChunks(next, incoming, n, mined, height), incoming);
    }
  }

  // ---- Nothing is pruned without a reason --------------------------------------------------------

  /** A canonical transaction takes the place of a mempool row: the same one, or one of the same payer and nonce. */
  predicate Crowds(row: Row<Tx>, t: TxId, r: MempoolRow) {
    row.canonical && Touches(HeaderOf(row.data), t, r)
  }

  ghost predicate Crowded(txs: seq<Row<Tx>>, t: TxId, r: MempoolRow) {
    exists i :: 0 <= i < |txs| && Crowds(txs[i], t, r)
  }

  /**
   A pending row has no other status; a pruned one says why in its status, or a canonical transaction has
   taken its place.
   */
  ghost predicate Reasoned(m: Pool, txs: seq<Row<Tx>>) {
    forall t :: t in m ==>
      if m[t].pruned then m[t].status == Pending ==> Crowded(txs, t, m[t]) else m[t].status == Pending
  }

  lemma MinedCrowds(txs: seq<Row<Tx>>, t: TxId, r: MempoolRow)
    requires t in Mined(txs)
    ensures Crowded(txs, t, r)
  {
    var i :| 0 <= i < |txs| && txs[i].canonical && txs[i].data.txId == t;
    assert Crowds(txs[i], t, r);
  }

  lemma ChunkReasoned(m: Pool, values: seq<MempoolTx>, txs: seq<Row<Tx>>, height: nat)
    requires values != [] && Reasoned(m, txs)
    ensures Reasoned(InsertChunk(m, values, Mined(txs), height), txs)
  {
    var revived := ReviveRows(m, values, Mined(txs), height);
    var inserted := InsertRows(revived, values, height);
    InsertRowsLaws(revived, values, height);
    InsertRowsExtends(revived, values, height);
    forall t | t in inserted
      ensures !inserted[t].pruned ==> inserted[t].status == Pending
      ensures inserted[t].pruned ==> t in m && inserted[t] == m[t]
    {
      assert t in revived ==> inserted[t] == revived[t];
    }
    forall t | t in Mined(txs)
      ensures forall r :: Crowded(txs, t, r)
    {
      forall r
        ensures Crowded(txs, t, r)
      {
        MinedCrowds(txs, t, r);
      }
    }
  }

  lemma {:induction false} ChunksReasoned(m: Pool, incoming: seq<MempoolTx>, i: nat, txs: seq<Row<Tx>>, height: nat)
    requires Reasoned(m, txs)
    ensures Reasoned(InsertChunks(m, incoming, i, Mined(txs), height), txs)
    decreases |incoming| - i
  {
    if i < |incoming| {
      var n := if |incoming| - i < INSERT_BATCH_SIZE then |incoming| else i + INSERT_BATCH_SIZE;
      var next := InsertChunk(m, incoming[i..n], Mined(txs), height);
      NextChunk(m, incoming, i, n, Mined(txs), height);
      ChunkReasoned(m, incoming[i..n], txs, height);
      ChunksReasoned(next, incoming, n, txs, height);
    }
  }

  lemma LosersReasoned(m: Pool, txs: seq<Row<Tx>>, groups: set<Group>, m': Pool)
    requires Reasoned(m, txs) && OnlyLosers(m, txs, groups, m')
    ensures Reasoned(m', txs)
  {
    OnlyLosersReplace(m, txs, groups, m');
  }

  lemma ArrivesReasoned(m: Pool, incoming: seq<MempoolTx>, txs: seq<Row<Tx>>, height: nat, m': Pool)
    requires Reasoned(m, txs) && Arrives(m, incoming, txs, height, m')
    ensures Reasoned(m', txs)
  {
    var inserted := InsertChunks(m, incoming, 0, Mined(txs), height);
    ChunksReasoned(m, incoming, 0, txs, height);
    ArrivesLaws(m, incoming, txs, height, m');
    LosersReasoned(inserted, txs, GroupsFor(inserted, txs, ChunkIds(m, incoming, 0, Mined(txs), height), true), m');
  }

  lemma {:induction false} FlippedMembers(txs: seq<Row<Tx>>, h: Hash, c: bool)
    ensures forall i :: 0 <= i < |txs| && txs[i].indexBlockHash == h && txs[i].canonical != c ==>
      txs[i].data in Flipped(txs, h, c)
    ensures forall tx :: tx in Flipped(txs, h, c) ==>
      exists i :: 0 <= i < |txs| && txs[i].indexBlockHash == h && txs[i].data == tx
  {
    if txs != [] {
      var init := txs[..|txs| - 1];
      FlippedMembers(init, h, c);
      forall tx | tx in Flipped(txs, h, c)
        ensures exists i :: 0 <= i < |txs| && txs[i].indexBlockHash == h && txs[i].data == tx
      {
        if tx in Flipped(init, h, c) {
          var i :| 0 <= i < |init| && init[i].indexBlockHash == h && init[i].data == tx;
          assert txs[i].data == tx;
        } else {
          assert txs[|txs| - 1].data == tx;
        }
      }
    }
  }

  lemma TouchedBy(m: Pool, txs: seq<Tx>, tx: Tx, t: TxId)
    requires tx in txs && t in m && Touches(HeaderOf(tx), t, m[t])
    ensures t in Touched(m, HeadersOf(txs))
  {
    var j :| 0 <= j < |txs| && txs[j] == tx;
    assert HeadersOf(txs)[j] == HeaderOf(tx);
  }

  /** A row whose place was taken by an orphaned transaction is revived, unless another still takes it. */
  lemma ReviveReasoned(m: Pool, txs: seq<Row<Tx>>, h: Hash)
    requires Reasoned(m, txs)
    ensures Reasoned(RestoreRows(m, HeadersOf(Flipped(txs, h, false))), Mark(txs, h, false))
  {
    var headers := HeadersOf(Flipped(txs, h, false));
    var m' := RestoreRows(m, headers);
    MarkAt(txs, h, false);
    FlippedMembers(txs, h, false);
    forall t | t in m' && m'[t].pruned && m'[t].status == Pending
      ensures Crowded(Mark(txs, h, false), t, m'[t])
    {
      assert m'[t] == m[t] && t !in Touched(m, headers);
      var i :| 0 <= i < |txs| && Crowds(txs[i], t, m[t]);
      if txs[i].indexBlockHash == h {
        TouchedBy(m, Flipped(txs, h, false), txs[i].data, t);
      }
      assert Crowds(Mark(txs, h, false)[i], t, m'[t]);
    }
  }

  lemma RestoreReasoned(m: Pool, txs: seq<Row<Tx>>, h: Hash, height: nat, m': Pool)
    requires Reasoned(m, txs)
    requires RestoreStep(m, HeadersOf(Flipped(txs, h, false)), Mark(txs, h, false), height, m')
    ensures Reasoned(m', Mark(txs, h, false))
  {
    var headers, txs' := HeadersOf(Flipped(txs, h, false)), Mark(txs, h, false);
    ReviveReasoned(m, txs, h);
    if headers == [] {
      assert Touched(m, headers) == {};
      assert RestoreRows(m, headers) == m;
    } else {
      var found :| FoundFor(m, headers, txs', found) && Arrives(RestoreRows(m, headers), found, txs', height, m');
      ArrivesReasoned(RestoreRows(m, headers), found, txs', height, m');
    }
  }

  /** Pruning for transactions that are canonical gives the reason at once. */
  lemma PruneReasoned(m: Pool, txs: seq<Row<Tx>>, block: seq<Tx>, txs': seq<Row<Tx>>)
    requires Reasoned(m, txs)
    requires forall t, r :: Crowded(txs, t, r) ==> Crowded(txs', t, r)
    requires forall tx :: tx in block ==> exists i :: 0 <= i < |txs'| && txs'[i].canonical && txs'[i].data == tx
    ensures Reasoned(PruneRows(m, HeadersOf(block)), txs')
  {
    var m' := PruneRows(m, HeadersOf(block));
    forall t | t in m' && m'[t].pruned && m'[t].status == Pending
      ensures Crowded(txs', t, m'[t])
    {
      if m'[t] == m[t] {
        assert Crowded(txs, t, m[t]);
      } else {
        var j :| 0 <= j < |block| && Touches(HeadersOf(block)[j], t, m[t]);
        assert block[j] in block;
        var i :| 0 <= i < |txs'| && txs'[i].canonical && txs'[i].data == block[j];
        assert Crowds(txs'[i], t, m'[t]);
      }
    }
  }

  lemma CrowdedStays(txs: seq<Row<Tx>>, txs': seq<Row<Tx>>, t: TxId, r: MempoolRow)
    requires |txs| <= |txs'| && Crowded(txs, t, r)
    requires forall i :: 0 <= i < |txs| ==> txs'[i].data == txs[i].data && (txs[i].canonical ==> txs'[i].canonical)
    ensures Crowded(txs', t, r)
  {
    var i :| 0 <= i < |txs| && Crowds(txs[i], t, r);
    assert Crowds(txs'[i], t, r);
  }

  lemma RestorePruneReasoned(m: Pool, txs: seq<Row<Tx>>, h: Hash)
    requires Reasoned(m, txs)
    ensures Reasoned(PruneRows(m, HeadersOf(Flipped(txs, h, true))), Mark(txs, h, true))
  {
    MarkAt(txs, h, true);
    FlippedMembers(txs, h, true);
    var txs' := Mark(txs, h, true);
    forall t, r | Crowded(txs, t, r)
      ensures Crowded(txs', t, r)
    {
      CrowdedStays(txs, txs', t, r);
    }
    forall tx | tx in Flipped(txs, h, true)
      ensures exists i :: 0 <= i < |txs'| && txs'[i].canonical && txs'[i].data == tx
    {
      var i :| 0 <= i < |txs| && txs[i].indexBlockHash == h && txs[i].data == tx;
      assert txs'[i].canonical;
    }
    PruneReasoned(m, txs, Flipped(txs, h, true), txs');
  }

  lemma PlaceReasoned(m: Pool, l: Ledger, d: BlockData, c: bool)
    requires Reasoned(m, l.txs)
    ensures Reasoned(if c then PruneRows(m, HeadersOf(TxsOf(d.txs))) else m, InsertAll(l, d, c).txs)
  {
    var rows := RowsFor(d.hash, d.info.height, c, TxsOf(d.txs));
    var txs' := l.txs + rows;
    forall t, r | Crowded(l.txs, t, r)
      ensures Crowded(txs', t, r)
    {
      CrowdedStays(l.txs, txs', t, r);
    }
    if c {
      forall tx | tx in TxsOf(d.txs)
        ensures exists i :: 0 <= i < |txs'| && txs'[i].canonical && txs'[i].data == tx
      {
        var j :| 0 <= j < |TxsOf(d.txs)| && TxsOf(d.txs)[j] == tx;
        assert txs'[|l.txs| + j] == rows[j];
      }
      PruneReasoned(m, l.txs, TxsOf(d.txs), txs');
    }
  }

  // ---- The re-org --------------------------------------------------------------------------------

  /** The rival's transactions come back. */
  ghost predicate OrphanPool(l: Ledger, o: Option<Hash>, height: nat, p: Pool, q: Pool) {
    if o.None? then q == p
    else RestoreStep(p, HeadersOf(Flipped(l.txs, o.value, false)), Mark(l.txs, o.value, false), height, q)
  }

  ghost predicate OrphanMayFail(l: Ledger, o: Option<Hash>, height: nat, p: Pool) {
    o.Some? && RestoreMayFail(p, HeadersOf(Flipped(l.txs, o.value, false)), Mark(l.txs, o.value, false), height)
  }

  /** Then those of the restored block go. */
  ghost predicate SwappedPool(l: Ledger, o: Option<Hash>, h: Hash, height: nat, p: Pool, p': Pool) {
    exists q :: OrphanPool(l, o, height, p, q) && p' == PruneRows(q, HeadersOf(Flipped(Orphaned(l, o).txs, h, true)))
  }

  /** The same, folded. */
  ghost predicate SwapPool(l: Ledger, o: Option<Hash>, h: Hash, height: nat, p: Pool, p': Pool) {
    forall k :: Opened(k, [p, p']) ==> SwappedPool(l, o, h, height, p, p')
  }

  lemma SwapPoolSwapped(l: Ledger, o: Option<Hash>, h: Hash, height: nat, p: Pool, p': Pool)
    ensures SwapPool(l, o, h, height, p, p') <==> SwappedPool(l, o, h, height, p, p')
  {
    assert Opened(0, [p, p']);
  }

  /** One round of the re-org; height is that of the chain tip, which stays. */
  ghost predicate RoundPool(st: ReOrgState, h: Hash, height: nat, p: Pool, p': Pool)
    requires h in st.blocks
  {
    SwapPool(st.ledger, RivalOf(st.blocks, h), h, height, p, p')
  }

  ghost predicate RestoredPool(st: ReOrgState, h: Hash, height: nat, p: Pool, p': Pool)
    requires h in st.blocks
    decreases st.blocks[h].info.height
  {
    var next := Round(st, h);
    if GoesOn(next.blocks, h)
      then exists q :: RoundPool(st, h, height, p, q) && RestoredPool(next, st.blocks[h].info.parent, height, q, p')
    else RoundPool(st, h, height, p, p')
  }

  /** The re-org may fail: some round comes to a restoring that may. */
  ghost predicate RestoredMayFail(st: ReOrgState, h: Hash, height: nat, p: Pool)
    requires h in st.blocks
    decreases st.blocks[h].info.height
  {
    var next := Round(st, h);
    || OrphanMayFail(st.ledger, RivalOf(st.blocks, h), height, p)
    || (GoesOn(next.blocks, h)
        && exists q :: RoundPool(st, h, height, p, q) && RestoredMayFail(next, st.blocks[h].info.parent, height, q))
  }

  /** The two, folded. */
  ghost predicate LeadsPool(st: ReOrgState, h: Hash, height: nat, p: Pool, p': Pool) {
    forall k :: Opened(k, [st]) ==> h in st.blocks && RestoredPool(st, h, height, p, p')
  }

  ghost predicate LeadsFail(st: ReOrgState, h: Hash, height: nat, p: Pool) {
    forall k :: Opened(k, [st]) ==> h in st.blocks && RestoredMayFail(st, h, height, p)
  }

  lemma LeadsPoolRestored(st: ReOrgState, h: Hash, height: nat, p: Pool, p': Pool)
    ensures LeadsPool(st, h, height, p, p') <==> h in st.blocks && RestoredPool(st, h, height, p, p')
    ensures LeadsFail(st, h, height, p) <==> h in st.blocks && RestoredMayFail(st, h, height, p)
  {
    assert Opened(0, [st]);
  }

  lemma LeadsLast(st: ReOrgState, next: ReOrgState, h: Hash, height: nat, p: Pool, p': Pool)
    requires h in st.blocks && RoundPool(st, h, height, p, p')
    requires StepsTo(st, h, next) && h in next.blocks && !GoesOn(next.blocks, h)
    ensures LeadsPool(st, h, height, p, p')
  {
    StepsToRound(st, h, next);
    LeadsPoolRestored(st, h, height, p, p');
  }

  lemma LeadsOn(st: ReOrgState, next: ReOrgState, h: Hash, parent: Hash, height: nat, p: Pool, q: Pool, p': Pool)
    requires h in st.blocks && RoundPool(st, h, height, p, q)
    requires StepsTo(st, h, next) && h in next.blocks && GoesOn(next.blocks, h) && parent == next.blocks[h].info.parent
    ensures LeadsPool(next, parent, height, q, p') ==> LeadsPool(st, h, height, p, p')
    ensures LeadsFail(next, parent, height, q) ==> LeadsFail(st, h, height, p)
  {
    StepsToRound(st, h, next);
    LeadsPoolRestored(next, parent, height, q, p');
    LeadsPoolRestored(st, h, height, p, p');
  }

  lemma LeadsFailHere(st: ReOrgState, h: Hash, height: nat, p: Pool)
    requires h in st.blocks && OrphanMayFail(st.ledger, RivalOf(st.blocks, h), height, p)
    ensures LeadsFail(st, h, height, p)
  {
    LeadsPoolRestored(st, h, height, p, p);
  }

  // ---- What a re-org never forgets ---------------------------------------------------------------

  /** Every row is still there, of the same payer, with its status, pending again, replaced or collected. */
  ghost predicate Follows(m: Pool, m': Pool) {
    && m.Keys <= m'.Keys
    && forall t :: t in m ==>
         && SamePayer(m[t], m'[t])
         && (m'[t].status == m[t].status || m'[t].status in {Pending, DroppedReplaceByFee, DroppedApiGarbageCollect})
  }

  lemma ArrivesFollows(m: Pool, incoming: seq<MempoolTx>, txs: seq<Row<Tx>>, height: nat, m': Pool)
    requires Arrives(m, incoming, txs, height, m')
    ensures Follows(m, m')
  {
    var inserted := InsertChunks(m, incoming, 0, Mined(txs), height);
    ChunksExtend(m, incoming, 0, Mined(txs), height);
    ArrivesLaws(m, incoming, txs, height, m');
  }

  lemma FollowsCompose(m: Pool, m1: Pool, m2: Pool)
    requires Follows(m, m1) && Follows(m1, m2)
    ensures Follows(m, m2)
  {
  }

  lemma PrunedFollows(m: Pool, headers: seq<Header>)
    ensures Follows(m, PruneRows(m, headers)) && Follows(m, RestoreRows(m, headers))
  {
  }

  lemma RestoreFollows(m: Pool, headers: seq<Header>, txs: seq<Row<Tx>>, height: nat, m': Pool)
    requires RestoreStep(m, headers, txs, height, m')
    ensures Follows(m, m')
  {
    if headers != [] {
      var found :| FoundFor(m, headers, txs, found) && Arrives(RestoreRows(m, headers), found, txs, height, m');
      PrunedFollows(m, headers);
      ArrivesFollows(RestoreRows(m, headers), found, txs, height, m');
      FollowsCompose(m, RestoreRows(m, headers), m');
    }
  }

  lemma OrphanKeeps(l: Ledger, o: Option<Hash>, height: nat, p: Pool, q: Pool)
    requires OrphanPool(l, o, height, p, q)
    ensures Follows(p, q)
    ensures Reasoned(p, l.txs) ==> Reasoned(q, Orphaned(l, o).txs)
  {
    if o.Some? {
      RestoreFollows(p, HeadersOf(Flipped(l.txs, o.value, false)), Mark(l.txs, o.value, false), height, q);
      if Reasoned(p, l.txs) {
        RestoreReasoned(p, l.txs, o.value, height, q);
      }
    }
  }

  lemma SwapKeeps(l: Ledger, o: Option<Hash>, h: Hash, height: nat, p: Pool, p': Pool)
    requires SwapPool(l, o, h, height, p, p')
    ensures Follows(p, p')
    ensures Reasoned(p, l.txs) ==> Reasoned(p', SwapLedger(l, o, h).txs)
  {
    SwapPoolSwapped(l, o, h, height, p, p');
    var headers := HeadersOf(Flipped(Orphaned(l, o).txs, h, true));
    var q :| OrphanPool(l, o, height, p, q) && p' == PruneRows(q, headers);
    OrphanKeeps(l, o, height, p, q);
    PrunedFollows(q, headers);
    FollowsCompose(p, q, p');
    if Reasoned(p, l.txs) {
      RestorePruneReasoned(q, Orphaned(l, o).txs, h);
    }
  }

  /** A re-org of any depth loses no row, and prunes none without a reason. */
  lemma {:induction false} RestoredPoolKeeps(st: ReOrgState, h: Hash, height: nat, p: Pool, p': Pool)
    requires h in st.blocks && RestoredPool(st, h, height, p, p')
    ensures Follows(p, p')
    ensures Reasoned(p, st.ledger.txs) ==> Reasoned(p', Restored(st, h).ledger.txs)
    decreases st.blocks[h].info.height
  {
    var next, o := Round(st, h), RivalOf(st.blocks, h);
    if GoesOn(next.blocks, h) {
      var q :| RoundPool(st, h, height, p, q) && RestoredPool(next, st.blocks[h].info.parent, height, q, p');
      SwapKeeps(st.ledger, o, h, height, p, q);
      RestoredPoolKeeps(next, st.blocks[h].info.parent, height, q, p');
    } else {
      SwapKeeps(st.ledger, o, h, height, p, p');
    }
  }

  // ---- Transactions that leave the canonical chain -----------------------------------------------

  /** The transaction has a row that was not dropped by the node: it is pending, replaced, collected or crowded. */
  ghost predicate Returned(m: Pool, t: TxId) {
    t in m && m[t].status in {Pending, DroppedReplaceByFee, DroppedApiGarbageCollect}
  }

  lemma InsertedReturned(m: Pool, incoming: seq<MempoolTx>, mined: set<TxId>, height: nat, t: TxId)
    requires if t in m then m[t].status == Pending else t in IdsIn(incoming)
    ensures var inserted := InsertChunks(m, incoming, 0, mined, height); t in inserted && inserted[t].status == Pending
  {
    var inserted := InsertChunks(m, incoming, 0, mined, height);
    var ids := ChunkIds(m, incoming, 0, mined, height);
    ChunksExtend(m, incoming, 0, mined, height);
    NothingArrived(m, mined);
    ChunksArrive(m, m, incoming, 0, mined, height, {});
    EnteredArrived(m, inserted, incoming, mined, {} + ids);
  }

  lemma ReplacedReturned(m: Pool, m': Pool, t: TxId)
    requires OnlyReplaces(m, m') && t in m && m[t].status == Pending
    ensures Returned(m', t)
  {
  }

  lemma ArrivesReturned(m: Pool, incoming: seq<MempoolTx>, txs: seq<Row<Tx>>, height: nat, m': Pool, t: TxId)
    requires Arrives(m, incoming, txs, height, m')
    requires if t in m then m[t].status == Pending else t in IdsIn(incoming)
    ensures Returned(m', t)
  {
    InsertedReturned(m, incoming, Mined(txs), height, t);
    ArrivesLaws(m, incoming, txs, height, m');
    ReplacedReturned(InsertChunks(m, incoming, 0, Mined(txs), height), m', t);
  }

  lemma TouchedById(m: Pool, headers: seq<Header>, x: Header)
    requires x in headers && x.txId in m
    ensures x.txId in Touched(m, headers)
  {
    var i :| 0 <= i < |headers| && headers[i] == x;
    assert Touches(headers[i], x.txId, m[x.txId]);
  }

  lemma OrphanReturns(l: Ledger, o: Option<Hash>, height: nat, p: Pool, q: Pool, t: TxId)
    requires OrphanPool(l, o, height, p, q) && Reasoned(p, l.txs)
    requires t in Mined(l.txs) && t !in Mined(Orphaned(l, o).txs)
    ensures Returned(q, t)
  {
    var flipped := Flipped(l.txs, o.value, false);
    MarkMined(l.txs, o.value, false);
    HeaderIds(flipped);
    var headers, txs := HeadersOf(flipped), Mark(l.txs, o.value, false);
    var x :| x in headers && x.txId == t;
    var found :| FoundFor(p, headers, txs, found) && Arrives(RestoreRows(p, headers), found, txs, height, q);
    if t in p {
      TouchedById(p, headers, x);
    }
    ArrivesReturned(RestoreRows(p, headers), found, txs, height, q, t);
  }

  lemma FollowsReturned(m: Pool, m': Pool, t: TxId)
    requires Follows(m, m') && Returned(m, t)
    ensures Returned(m', t)
  {
  }

  lemma SwapReturns(l: Ledger, o: Option<Hash>, h: Hash, height: nat, p: Pool, p': Pool, t: TxId)
    requires SwapPool(l, o, h, height, p, p') && Reasoned(p, l.txs) && t in Mined(l.txs)
    ensures t in Mined(SwapLedger(l, o, h).txs) || Returned(p', t)
  {
    SwapPoolSwapped(l, o, h, height, p, p');
    var headers := HeadersOf(Flipped(Orphaned(l, o).txs, h, true));
    var q :| OrphanPool(l, o, height, p, q) && p' == PruneRows(q, headers);
    if t in Mined(Orphaned(l, o).txs) {
      MarkMined(Orphaned(l, o).txs, h, true);
    } else {
      OrphanReturns(l, o, height, p, q, t);
      PrunedFollows(q, headers);
      FollowsReturned(q, p', t);
    }
  }

  /** A transaction that a re-org takes out of the canonical chain is back in the mempool. */
  lemma {:induction false} RestoredPoolReturns(st: ReOrgState, h: Hash, height: nat, p: Pool, p': Pool, t: TxId)
    requires h in st.blocks && RestoredPool(st, h, height, p, p')
    requires Reasoned(p, st.ledger.txs) && t in Mined(st.ledger.txs)
    ensures t in Mined(Restored(st, h).ledger.txs) || Returned(p', t)
    decreases st.blocks[h].info.height
  {
    var next, o := Round(st, h), RivalOf(st.blocks, h);
    if GoesOn(next.blocks, h) {
      var parent := st.blocks[h].info.parent;
      var q :| RoundPool(st, h, height, p, q) && RestoredPool(next, parent, height, q, p');
      SwapReturns(st.ledger, o, h, height, p, q, t);
      if t in Mined(next.ledger.txs) {
        SwapKeeps(st.ledger, o, h, height, p, q);
        RestoredPoolReturns(next, parent, height, q, p', t);
      } else {
        RestoredPoolKeeps(next, parent, height, q, p');
        FollowsReturned(q, p', t);
      }
    } else {
      SwapReturns(st.ledger, o, h, height, p, p', t);
    }
  }

  // ---- Mined and pending -------------------------------------------------------------------------

  /** In one of the groups the row cannot be the winner. */
  ghost predicate LosesOne(m: Pool, txs: seq<Row<Tx>>, groups: set<Group>, t: TxId)
    requires t in m
  {
    exists g :: g in groups && RowIn(m[t], g) && !Wins(m, txs, g, t)
  }

  /** In one of the groups the row need not be the winner: it loses or ties. */
  ghost predicate MayLoseOne(m: Pool, txs: seq<Row<Tx>>, groups: set<Group>, t: TxId)
    requires t in m
  {
    exists g :: g in groups && RowIn(m[t], g) && !SoleWinner(m, txs, g, t)
  }

  /** What insertion leaves pending of the mined: those that were pending and are not inserted again. */
  lemma ChunkMinedPending(m: Pool, values: seq<MempoolTx>, mined: set<TxId>, height: nat)
    requires values != []
    ensures PendingIn(InsertChunk(m, values, mined, height)) * mined == PendingIn(m) * mined - IdsIn(values)
  {
    ChunkPending(m, values, mined, height);
    var m' := InsertChunk(m, values, mined, height);
    forall t | t in mined
      ensures t in PendingIn(m') <==> t in PendingIn(m) && t !in IdsIn(values)
    {
      assert t !in Revivable(m, values, mined);
      assert t in NewlyPending(m, values, mined) ==> t in IdsIn(values);
    }
  }

  lemma {:induction false} ChunksMinedPending(m: Pool, incoming: seq<MempoolTx>, i: nat, mined: set<TxId>, height: nat)
    requires i <= |incoming|
    ensures PendingIn(InsertChunks(m, incoming, i, mined, height)) * mined ==
      PendingIn(m) * mined - IdsIn(incoming[i..])
    decreases |incoming| - i
  {
    if i < |incoming| {
      var n := if |incoming| - i < INSERT_BATCH_SIZE then |incoming| else i + INSERT_BATCH_SIZE;
      var next := InsertChunk(m, incoming[i..n], mined, height);
      NextChunk(m, incoming, i, n, mined, height);
      ChunkMinedPending(m, incoming[i..n], mined, height);
      ChunksMinedPending(next, incoming, n, mined, height);
      assert incoming[i..] == incoming[i..n] + incoming[n..];
      assert IdsIn(incoming[i..]) == IdsIn(incoming[i..n]) + IdsIn(incoming[n..]);
    }
  }

  /** Replace-by-fee keeps a row if it wins all its groups alone, and drops it if it cannot win one. */
  lemma LosersPending(m: Pool, txs: seq<Row<Tx>>, groups: set<Group>, m': Pool, t: TxId)
    requires OnlyLosers(m, txs, groups, m') && AllDecided(m', txs, groups) && t in PendingIn(m)
    ensures t in PendingIn(m') ==> !LosesOne(m, txs, groups, t)
    ensures t !in PendingIn(m') ==> MayLoseOne(m, txs, groups, t)
  {
    OnlyLosersReplace(m, txs, groups, m');
    if t in PendingIn(m') {
      forall g | g in groups && RowIn(m[t], g)
        ensures Wins(m, txs, g, t)
      {
        assert RowIn(m'[t], g) && GroupDecided(m', txs, g);
        var w :| Wins(m', txs, g, w) && OthersLost(m', g, w);
        WinsBefore(m, m', txs, g, w);
      }
    } else {
      var g :| g in groups && LostTo(m, txs, g, t, m'[t]);
      assert !SoleWinner(m, txs, g, t);
    }
  }

  /** After the insertion exactly the touched ones of the mined are pending. */
  lemma InsertedMined(m: Pool, headers: seq<Header>, txs: seq<Row<Tx>>, found: seq<MempoolTx>, height: nat, t: TxId)
    requires NoneMined(m, Mined(txs)) && FoundFor(m, headers, txs, found) && t in Mined(txs)
    ensures t in PendingIn(InsertChunks(RestoreRows(m, headers), found, 0, Mined(txs), height)) <==>
      t in Touched(m, headers)
  {
    var back := RestoreRows(m, headers);
    var inserted := InsertChunks(back, found, 0, Mined(txs), height);
    assert PendingIn(back) == PendingIn(m) + Touched(m, headers);
    ChunksMinedPending(back, found, 0, Mined(txs), height);
    assert found[0..] == found;
    assert t in PendingIn(inserted) * Mined(txs) <==> t in PendingIn(back) * Mined(txs) - IdsIn(found);
  }

  lemma MinedAfter(m: Pool, txs: seq<Row<Tx>>, groups: set<Group>, m': Pool, t: TxId)
    requires OnlyReplaces(m, m') && OnlyLosers(m, txs, groups, m') && AllDecided(m', txs, groups)
    ensures t in PendingIn(m') ==> t in PendingIn(m) && !LosesOne(m, txs, groups, t)
    ensures t in PendingIn(m) && t !in PendingIn(m') ==> MayLoseOne(m, txs, groups, t)
  {
    if t in PendingIn(m) {
      LosersPending(m, txs, groups, m', t);
    }
  }

  /**
   When a whole restoration leaves a mined transaction pending: it was touched, and wins every recomputed
   group it is in. Conversely a touched mined transaction stays pending unless it loses, or ties, in one.
   */
  lemma RestoredMined(m: Pool, headers: seq<Header>, txs: seq<Row<Tx>>, found: seq<MempoolTx>, height: nat, m': Pool,
                      t: TxId)
    requires NoneMined(m, Mined(txs)) && FoundFor(m, headers, txs, found) && t in Mined(txs)
    requires Arrives(RestoreRows(m, headers), found, txs, height, m')
    ensures var inserted := InsertChunks(RestoreRows(m, headers), found, 0, Mined(txs), height);
      var groups := GroupsFor(inserted, txs, ChunkIds(RestoreRows(m, headers), found, 0, Mined(txs), height), true);
      && (t in PendingIn(m') ==> t in Touched(m, headers) && t in inserted && !LosesOne(inserted, txs, groups, t))
      && (t in Touched(m, headers) && t !in PendingIn(m') ==> t in inserted && MayLoseOne(inserted, txs, groups, t))
  {
    var back := RestoreRows(m, headers);
    var inserted := InsertChunks(back, found, 0, Mined(txs), height);
    InsertedMined(m, headers, txs, found, height, t);
    ArrivesLaws(back, found, txs, height, m');
    MinedAfter(inserted, txs, GroupsFor(inserted, txs, ChunkIds(back, found, 0, Mined(txs), height), true), m', t);
  }

  /** None of the transactions ties for a group that its row is in. */
  ghost predicate NoTiesFor(m: Pool, txs: seq<Row<Tx>>, groups: set<Group>, ts: set<TxId>) {
    forall t, g :: t in ts && t in m && g in groups && RowIn(m[t], g) && Wins(m, txs, g, t) ==> SoleWinner(m, txs, g, t)
  }

  /**
   If no touched mined transaction ties: nothing mined is pending afterwards iff every touched mined row loses in a
   recomputed group.
   */
  lemma RestoredNoneMined(m: Pool, headers: seq<Header>, txs: seq<Row<Tx>>, found: seq<MempoolTx>, height: nat,
                          m': Pool)
    requires NoneMined(m, Mined(txs)) && FoundFor(m, headers, txs, found)
    requires Arrives(RestoreRows(m, headers), found, txs, height, m')
    requires var inserted := InsertChunks(RestoreRows(m, headers), found, 0, Mined(txs), height);
      var ids := ChunkIds(RestoreRows(m, headers), found, 0, Mined(txs), height);
      NoTiesFor(inserted, txs, GroupsFor(inserted, txs, ids, true), Touched(m, headers) * Mined(txs))
    ensures var inserted := InsertChunks(RestoreRows(m, headers), found, 0, Mined(txs), height);
      var groups := GroupsFor(inserted, txs, ChunkIds(RestoreRows(m, headers), found, 0, Mined(txs), height), true);
      NoneMined(m', Mined(txs)) <==>
        forall t :: t in Touched(m, headers) && t in Mined(txs) ==> t in inserted && LosesOne(inserted, txs, groups, t)
  {
    var inserted := InsertChunks(RestoreRows(m, headers), found, 0, Mined(txs), height);
    var groups := GroupsFor(inserted, txs, ChunkIds(RestoreRows(m, headers), found, 0, Mined(txs), height), true);
    forall t | t in Mined(txs)
      ensures t in PendingIn(m') ==> t in Touched(m, headers) && t in inserted && !LosesOne(inserted, txs, groups, t)
      ensures t in Touched(m, headers) && t !in PendingIn(m') ==> t in inserted && LosesOne(inserted, txs, groups, t)
    {
      RestoredMined(m, headers, txs, found, height, m', t);
      if t in Touched(m, headers) && t !in PendingIn(m') {
        var g :| g in groups && RowIn(inserted[t], g) && !SoleWinner(inserted, txs, g, t);
        assert t in Touched(m, headers) * Mined(txs);
        assert !Wins(inserted, txs, g, t);
      }
    }
  }

  /** A mempool row has the sender, sponsor and nonce of every mined row of its id. */
  ghost predicate RowsMatch(m: Pool, txs: seq<Row<Tx>>) {
    forall t, i :: t in m && 0 <= i < |txs| && txs[i].data.txId == t ==>
      m[t].sender == txs[i].data.sender && m[t].sponsor == txs[i].data.sponsor && m[t].nonce == txs[i].data.nonce
  }

  predicate SamePlace(a: Row<Tx>, b: Row<Tx>) {
    a.canonical && b.canonical && a.blockHeight == b.blockHeight && a.data.txIndex == b.data.txIndex
  }

  /** No two canonical transactions are mined at one place. */
  ghost predicate PlacesUnique(txs: seq<Row<Tx>>) {
    forall i, j :: 0 <= i < |txs| && 0 <= j < |txs| && SamePlace(txs[i], txs[j]) ==>
      txs[i].data.txId == txs[j].data.txId
  }

  /** A transaction id fixes sender, sponsor and nonce. */
  ghost predicate IdsFixed(txs: seq<Row<Tx>>) {
    forall i, j :: 0 <= i < |txs| && 0 <= j < |txs| && txs[i].data.txId == txs[j].data.txId ==>
      HeaderOf(txs[i].data) == HeaderOf(txs[j].data)
  }

  lemma LatestIsOne(txs: seq<Row<Tx>>, g: Group, t: TxId, u: TxId)
    requires PlacesUnique(txs) && LatestMined(txs, g, t) && LatestMined(txs, g, u)
    ensures t == u
  {
    var i :| 0 <= i < |txs| && MinedRowIn(txs[i], g) && txs[i].data.txId == t
      && forall j :: 0 <= j < |txs| && MinedRowIn(txs[j], g) ==> MinedNotAfter(txs[j], txs[i]);
    var k :| 0 <= k < |txs| && MinedRowIn(txs[k], g) && txs[k].data.txId == u
      && forall j :: 0 <= j < |txs| && MinedRowIn(txs[j], g) ==> MinedNotAfter(txs[j], txs[k]);
    assert SamePlace(txs[i], txs[k]);
  }

  /** A group that holds a mined transaction has a latest one, and only one. */
  lemma MinedNeverTie(m: Pool, txs: seq<Row<Tx>>, groups: set<Group>)
    requires PlacesUnique(txs) && RowsMatch(m, txs)
    ensures NoTiesFor(m, txs, groups, Mined(txs))
  {
    forall t, g | t in Mined(txs) && t in m && g in groups && RowIn(m[t], g) && Wins(m, txs, g, t)
      ensures SoleWinner(m, txs, g, t)
    {
      var i :| 0 <= i < |txs| && txs[i].canonical && txs[i].data.txId == t;
      assert MinedRowIn(txs[i], g);
      forall u | Wins(m, txs, g, u)
        ensures u == t
      {
        LatestIsOne(txs, g, t, u);
      }
    }
  }

  lemma InsertedMatch(m: Pool, headers: seq<Header>, txs: seq<Row<Tx>>, found: seq<MempoolTx>, height: nat)
    requires RowsMatch(m, txs) && FoundFor(m, headers, txs, found)
    requires IdsFixed(txs)
    ensures RowsMatch(InsertChunks(RestoreRows(m, headers), found, 0, Mined(txs), height), txs)
  {
    var back := RestoreRows(m, headers);
    var inserted := InsertChunks(back, found, 0, Mined(txs), height);
    ChunksExtend(back, found, 0, Mined(txs), height);
    forall t, i | t in inserted && 0 <= i < |txs| && txs[i].data.txId == t
      ensures inserted[t].sender == txs[i].data.sender && inserted[t].sponsor == txs[i].data.sponsor
      ensures inserted[t].nonce == txs[i].data.nonce
    {
      if t in m {
        assert SamePayer(back[t], inserted[t]);
      } else {
        var v :| v in found && FromValue(v, t, inserted[t]);
        assert FromLatest(txs, v);
        var j :| MinedLast(txs, j, v.txId)
          && v.sender == txs[j].data.sender && v.sponsor == txs[j].data.sponsor && v.nonce == txs[j].data.nonce;
        assert HeaderOf(txs[i].data) == HeaderOf(txs[j].data);
      }
    }
  }

  /**
   So where an id fixes sender, sponsor and nonce and places are unique, the condition is exact for every restoration,
   whatever else ties.
   */
  lemma RestoredExactly(m: Pool, headers: seq<Header>, txs: seq<Row<Tx>>, found: seq<MempoolTx>, height: nat, m': Pool)
    requires NoneMined(m, Mined(txs)) && FoundFor(m, headers, txs, found)
    requires Arrives(RestoreRows(m, headers), found, txs, height, m')
    requires RowsMatch(m, txs) && PlacesUnique(txs) && IdsFixed(txs)
    ensures var inserted := InsertChunks(RestoreRows(m, headers), found, 0, Mined(txs), height);
      var groups := GroupsFor(inserted, txs, ChunkIds(RestoreRows(m, headers), found, 0, Mined(txs), height), true);
      NoneMined(m', Mined(txs)) <==>
        forall t :: t in Touched(m, headers) && t in Mined(txs) ==> t in inserted && LosesOne(inserted, txs, groups, t)
  {
    var inserted := InsertChunks(RestoreRows(m, headers), found, 0, Mined(txs), height);
    InsertedMatch(m, headers, txs, found, height);
    var ids := ChunkIds(RestoreRows(m, headers), found, 0, Mined(txs), height);
    MinedNeverTie(inserted, txs, GroupsFor(inserted, txs, ids, true));
    RestoredNoneMined(m, headers, txs, found, height, m');
  }

  // ---- Uniqueness after a restoration ------------------------------------------------------------

  lemma {:induction false} ChunksUnique(m: Pool, incoming: seq<MempoolTx>, mined: set<TxId>, height: nat,
                                        dirty: set<Group>)
    requires UniqueExcept(m, dirty)
    ensures var inserted := InsertChunks(m, incoming, 0, mined, height);
      UniqueExcept(inserted, dirty + GroupsFor(inserted, [], ChunkIds(m, incoming, 0, mined, height), true))
  {
    var inserted := InsertChunks(m, incoming, 0, mined, height);
    var ids := ChunkIds(m, incoming, 0, mined, height);
    ChunksExtend(m, incoming, 0, mined, height);
    ChunksPendingWithin(m, incoming, 0, mined, height);
    forall t, u | t in PendingIn(inserted) && u in PendingIn(inserted) && t != u
                  && GroupOfRow(inserted[t]) == GroupOfRow(inserted[u])
      ensures GroupOfRow(inserted[t]) in dirty + GroupsFor(inserted, [], ids, true)
    {
      if t !in ids && u !in ids {
        assert SamePayer(m[t], inserted[t]) && SamePayer(m[u], inserted[u]);
      }
    }
  }

  /** Pending after the chunks is only what was pending before or what they made pending. */
  lemma {:induction false} ChunksPendingWithin(m: Pool, incoming: seq<MempoolTx>, i: nat, mined: set<TxId>, height: nat)
    ensures PendingIn(InsertChunks(m, incoming, i, mined, height)) <= PendingIn(m) + ChunkIds(m, incoming, i,
      mined, height)
    decreases |incoming| - i
  {
    if i < |incoming| {
      var n := if |incoming| - i < INSERT_BATCH_SIZE then |incoming| else i + INSERT_BATCH_SIZE;
      ChunkPending(m, incoming[i..n], mined, height);
      ChunksPendingWithin(InsertChunk(m, incoming[i..n], mined, height), incoming, n, mined, height);
    }
  }

  lemma RevivedWithin(m: Pool, headers: seq<Header>, groups: set<Group>)
    requires UniqueExcept(m, {}) && forall t, u :: RevivesRival(m, headers, t, u) ==> GroupOfRow(m[t]) in groups
    ensures UniqueExcept(RestoreRows(m, headers), groups)
  {
    var back := RestoreRows(m, headers);
    assert PendingIn(back) == PendingIn(m) + Touched(m, headers);
    forall t, u | t in PendingIn(back) && u in PendingIn(back) && t != u && GroupOfRow(back[t]) == GroupOfRow(back[u])
      ensures GroupOfRow(back[t]) in groups
    {
      assert RevivesRival(m, headers, t, u) || RevivesRival(m, headers, u, t);
    }
  }

  /** A whole restoration keeps uniqueness if it recomputes the group of every revived transaction with a rival. */
  lemma RestoredUnique(m: Pool, headers: seq<Header>, txs: seq<Row<Tx>>, found: seq<MempoolTx>, height: nat, m': Pool)
    requires UniqueExcept(m, {}) && Arrives(RestoreRows(m, headers), found, txs, height, m')
    requires var inserted := InsertChunks(RestoreRows(m, headers), found, 0, Mined(txs), height);
      var groups := GroupsFor(inserted, txs, ChunkIds(RestoreRows(m, headers), found, 0, Mined(txs), height), true);
      forall t, u :: RevivesRival(m, headers, t, u) ==> GroupOfRow(m[t]) in groups
    ensures UniqueExcept(m', {})
  {
    var back := RestoreRows(m, headers);
    var inserted := InsertChunks(back, found, 0, Mined(txs), height);
    var ids := ChunkIds(back, found, 0, Mined(txs), height);
    var groups := GroupsFor(inserted, txs, ids, true);
    assert groups == GroupsFor(inserted, [], ids, true);
    RevivedWithin(m, headers, groups);
    ChunksUnique(back, found, Mined(txs), height, groups);
    assert groups + groups == groups;
    ArrivesLaws(back, found, txs, height, m');
    DecidedIsUnique(inserted, m', txs, groups);
  }

  // ---- When nothing can fail ---------------------------------------------------------------------

  /** Nobody else pays: there is no sponsor, or it is the sender. */
  predicate PaysAlone(sender: Address, sponsor: Option<Address>) {
    sponsor.None? || sponsor.value == sender
  }

  ghost predicate PlainPool(m: Pool) {
    forall t :: t in m ==> PaysAlone(m[t].sender, m[t].sponsor)
  }

  ghost predicate PlainTxs(txs: seq<Row<Tx>>) {
    forall i :: 0 <= i < |txs| ==> PaysAlone(txs[i].data.sender, txs[i].data.sponsor)
  }

  ghost predicate PlainArrivals(values: seq<MempoolTx>) {
    forall v :: v in values ==> PaysAlone(v.sender, v.sponsor)
  }

  lemma PlainNoOverlap(m: Pool, groups: set<Group>)
    requires PlainPool(m)
    ensures NoOverlap(m, groups)
  {
  }

  lemma ExtendsPlain(m: Pool, values: seq<MempoolTx>, m': Pool)
    requires Extends(m, values, m') && PlainPool(m) && PlainArrivals(values)
    ensures PlainPool(m')
  {
    forall t | t in m'
      ensures PaysAlone(m'[t].sender, m'[t].sponsor)
    {
      if t !in m {
        var v :| v in values && FromValue(v, t, m'[t]);
      } else {
        assert SamePayer(m[t], m'[t]);
      }
    }
  }

  lemma ArrivesPlain(m: Pool, incoming: seq<MempoolTx>, txs: seq<Row<Tx>>, height: nat)
    requires PlainPool(m) && PlainArrivals(incoming)
    ensures !MayFail(m, incoming, txs, height)
    ensures forall m' :: Arrives(m, incoming, txs, height, m') ==> PlainPool(m')
  {
    var inserted := InsertChunks(m, incoming, 0, Mined(txs), height);
    var groups := GroupsFor(inserted, txs, ChunkIds(m, incoming, 0, Mined(txs), height), true);
    ChunksExtend(m, incoming, 0, Mined(txs), height);
    ExtendsPlain(m, incoming, inserted);
    PlainNoOverlap(inserted, groups);
    NoOverlapNoFail(m, incoming, txs, height);
    forall m' | Arrives(m, incoming, txs, height, m')
      ensures PlainPool(m')
    {
      ArrivesLaws(m, incoming, txs, height, m');
    }
  }

  lemma FoundPlain(m: Pool, headers: seq<Header>, txs: seq<Row<Tx>>, found: seq<MempoolTx>)
    requires PlainTxs(txs) && FoundFor(m, headers, txs, found)
    ensures PlainArrivals(found)
  {
    forall v | v in found
      ensures PaysAlone(v.sender, v.sponsor)
    {
      var i :| MinedLast(txs, i, v.txId) && v.sender == txs[i].data.sender && v.sponsor == txs[i].data.sponsor;
    }
  }

  lemma RestorePlain(m: Pool, headers: seq<Header>, txs: seq<Row<Tx>>, height: nat)
    requires PlainPool(m) && PlainTxs(txs)
    ensures !RestoreMayFail(m, headers, txs, height)
    ensures forall m' :: RestoreStep(m, headers, txs, height, m') ==> PlainPool(m')
  {
    forall found | FoundFor(m, headers, txs, found)
      ensures !MayFail(RestoreRows(m, headers), found, txs, height)
      ensures forall m' :: Arrives(RestoreRows(m, headers), found, txs, height, m') ==> PlainPool(m')
    {
      FoundPlain(m, headers, txs, found);
      ArrivesPlain(RestoreRows(m, headers), found, txs, height);
    }
  }

  lemma MarkPlain(txs: seq<Row<Tx>>, h: Hash, c: bool)
    requires PlainTxs(txs)
    ensures PlainTxs(Mark(txs, h, c))
  {
    MarkAt(txs, h, c);
  }

  lemma SwapPlain(l: Ledger, o: Option<Hash>, h: Hash, height: nat, p: Pool)
    requires PlainPool(p) && PlainTxs(l.txs)
    ensures !OrphanMayFail(l, o, height, p) && PlainTxs(SwapLedger(l, o, h).txs)
    ensures forall p' :: SwapPool(l, o, h, height, p, p') ==> PlainPool(p')
  {
    if o.Some? {
      MarkPlain(l.txs, o.value, false);
      RestorePlain(p, HeadersOf(Flipped(l.txs, o.value, false)), Mark(l.txs, o.value, false), height);
    }
    MarkPlain(Orphaned(l, o).txs, h, true);
    forall p' | SwapPool(l, o, h, height, p, p')
      ensures PlainPool(p')
    {
      SwapPoolSwapped(l, o, h, height, p, p');
    }
  }

  lemma {:induction false} RestoredTxsPlain(st: ReOrgState, h: Hash)
    requires h in st.blocks && PlainTxs(st.ledger.txs)
    ensures PlainTxs(Restored(st, h).ledger.txs)
    decreases st.blocks[h].info.height
  {
    var next, o := Round(st, h), RivalOf(st.blocks, h);
    SwapPlain(st.ledger, o, h, 0, map[]);
    if GoesOn(next.blocks, h) {
      RestoredTxsPlain(next, st.blocks[h].info.parent);
    }
  }

  /** While every payer is a sender, a re-org cannot fail. */
  lemma {:induction false} RestoredPlain(st: ReOrgState, h: Hash, height: nat, p: Pool)
    requires h in st.blocks && PlainPool(p) && PlainTxs(st.ledger.txs)
    ensures !RestoredMayFail(st, h, height, p)
    ensures forall p' :: RestoredPool(st, h, height, p, p') ==> PlainPool(p')
    decreases st.blocks[h].info.height
  {
    var next, o := Round(st, h), RivalOf(st.blocks, h);
    SwapPlain(st.ledger, o, h, height, p);
    if GoesOn(next.blocks, h) {
      forall q | RoundPool(st, h, height, p, q)
        ensures !RestoredMayFail(next, st.blocks[h].info.parent, height, q)
        ensures forall p' :: RestoredPool(next, st.blocks[h].info.parent, height, q, p') ==> PlainPool(p')
      {
        RestoredPlain(next, st.blocks[h].info.parent, height, q);
      }
    }
  }
}
