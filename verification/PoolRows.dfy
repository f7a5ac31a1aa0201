/**
 The mempool statements row by row: which rows change, and what every column of them is afterwards. All of it is
 said of the columns themselves and of the transactions that come in or are mined.
 */
module PoolRows {
  import opened Types
  import opened Tables
  import opened Mempool

  /** Nonce n with address a as sender or sponsor. */
  predicate Spends(sender: Address, sponsor: Option<Address>, nonce: nat, a: Address, n: nat) {
    nonce == n && (sender == a || sponsor == Some(a))
  }

  function PaidBy(sender: Address, sponsor: Option<Address>): Address {
    match sponsor
    case Some(a) => a
    case None => sender
  }

  /** Row r of id t is the given transaction, or shares its nonce with the one who pays for it. */
  predicate Meets(id: TxId, sender: Address, sponsor: Option<Address>, nonce: nat, t: TxId, r: MempoolRow) {
    t == id || Spends(r.sender, r.sponsor, r.nonce, PaidBy(sender, sponsor), nonce)
  }

  ghost predicate MeetsAny(headers: seq<Header>, t: TxId, r: MempoolRow) {
    exists i :: 0 <= i < |headers|
      && Meets(headers[i].txId, headers[i].sender, headers[i].sponsor, headers[i].nonce, t, r)
  }

  // ---- Pruning, reviving, dropping, collecting ---------------------------------------------------

  ghost predicate RowsPruned(m: Pool, headers: seq<Header>, m': Pool) {
    && m'.Keys == m.Keys
    && forall t :: t in m ==>
         var r := m[t];
         m'[t] == if !r.pruned && MeetsAny(headers, t, r)
                  then MempoolRow(r.sender, r.sponsor, r.nonce, r.fee, r.receiptTime, r.receiptBlockHeight, true,
                                  r.status, None)
                  else r
  }

  ghost predicate RowsRevived(m: Pool, headers: seq<Header>, m': Pool) {
    && m'.Keys == m.Keys
    && forall t :: t in m ==>
         var r := m[t];
         m'[t] == if r.pruned && MeetsAny(headers, t, r)
                  then MempoolRow(r.sender, r.sponsor, r.nonce, r.fee, r.receiptTime, r.receiptBlockHeight, false,
                                  Pending, None)
                  else r
  }

  ghost predicate RowsDropped(m: Pool, ids: seq<TxId>, status: DropStatus, newTx: Option<TxId>, m': Pool) {
    && m'.Keys == m.Keys
    && forall t :: t in m ==>
         var r := m[t];
         m'[t] == if t in ids && !r.pruned
                  then MempoolRow(r.sender, r.sponsor, r.nonce, r.fee, r.receiptTime, r.receiptBlockHeight, true,
                                  status, newTx)
                  else r
  }

  /** 2560 minutes after its receipt, or 256 blocks before blocks were signed, a transaction is given up. */
  predicate Outlived(r: MempoolRow, signed: bool, now: int, tipHeight: nat) {
    if signed then 153600 <= now - r.receiptTime else 256 <= tipHeight - r.receiptBlockHeight
  }

  ghost predicate RowsCollected(m: Pool, signed: bool, now: int, tipHeight: nat, m': Pool) {
    && m'.Keys == m.Keys
    && forall t :: t in m ==>
         var r := m[t];
         m'[t] == if !r.pruned && Outlived(r, signed, now, tipHeight)
                  then MempoolRow(r.sender, r.sponsor, r.nonce, r.fee, r.receiptTime, r.receiptBlockHeight, true,
                                  DroppedApiGarbageCollect, r.replacedBy)
                  else r
  }

  lemma TouchedMeet(m: Pool, headers: seq<Header>, t: TxId)
    requires t in m
    ensures t in Touched(m, headers) <==> MeetsAny(headers, t, m[t])
  {
    assert forall h: Header :: Touches(h, t, m[t]) <==> Meets(h.txId, h.sender, h.sponsor, h.nonce, t, m[t]);
  }

  lemma PruneByRow(m: Pool, headers: seq<Header>)
    ensures RowsPruned(m, headers, PruneRows(m, headers))
  {
    forall t | t in m
      ensures t in Touched(m, headers) <==> MeetsAny(headers, t, m[t])
    {
      TouchedMeet(m, headers, t);
    }
  }

  lemma RestoreByRow(m: Pool, headers: seq<Header>)
    ensures RowsRevived(m, headers, RestoreRows(m, headers))
  {
    forall t | t in m
      ensures t in Touched(m, headers) <==> MeetsAny(headers, t, m[t])
    {
      TouchedMeet(m, headers, t);
    }
  }

  // ---- Inserting ---------------------------------------------------------------------------------

  /** Position k is the first from i on with its id. */
  predicate FirstOfId(values: seq<MempoolTx>, i: int, k: int) {
    0 <= i <= k < |values| && forall j :: i <= j < k ==> values[j].txId != values[k].txId
  }

  /** Every id that comes in comes in for a first time. */
  lemma {:induction false} FirstExists(values: seq<MempoolTx>, t: TxId) returns (k: int)
    requires t in IdsIn(values)
    ensures FirstOfId(values, 0, k) && values[k].txId == t
    decreases |values|
  {
    var init, v := values[..|values| - 1], values[|values| - 1];
    assert values == init + [v];
    if t in IdsIn(init) {
      k := FirstExists(init, t);
    } else {
      k := |init|;
      assert forall j :: 0 <= j < |init| ==> init[j].txId in IdsIn(init);
    }
  }

  /** The first row of an id is the one that stays. */
  lemma {:induction false} InsertByRow(m: Pool, values: seq<MempoolTx>, height: nat, k: int)
    requires FirstOfId(values, 0, k) && values[k].txId !in m
    ensures values[k].txId in InsertRows(m, values, height)
    ensures var v := values[k];
      InsertRows(m, values, height)[v.txId]
      == MempoolRow(v.sender, v.sponsor, v.nonce, v.fee, v.receiptTime, height, false, Pending, None)
  {
    var init, v := values[..|values| - 1], values[|values| - 1];
    InsertRowsLaws(m, init, height);
    if k < |init| {
      InsertByRow(m, init, height, k);
    } else {
      assert v.txId !in IdsIn(init);
    }
  }

  /**
   One chunk: a new id gets the row of its first value, pruned at once if it is mined; a pruned row that is not
   mined comes back with the receipt of the chunk; a pending row that is mined is pruned; all else stays.
   */
  ghost predicate ChunkRow(m: Pool, values: seq<MempoolTx>, mined: set<TxId>, height: nat, m': Pool, k: int)
    requires 0 <= k < |values|
  {
    var v := values[k];
    var t := v.txId;
    t in m' &&
    if t !in m then
      m'[t] == MempoolRow(v.sender, v.sponsor, v.nonce, v.fee, v.receiptTime, height, t in mined, Pending, None)
    else if m[t].pruned && t !in mined then
      m'[t] == MempoolRow(m[t].sender, m[t].sponsor, m[t].nonce, m[t].fee, values[0].receiptTime, height, false,
                          Pending, None)
    else
      m'[t] == m[t].(pruned := m[t].pruned || t in mined)
  }

  ghost predicate RowsOfChunk(m: Pool, values: seq<MempoolTx>, mined: set<TxId>, height: nat, m': Pool) {
    && m'.Keys == m.Keys + IdsIn(values)
    && (forall k :: FirstOfId(values, 0, k) ==> ChunkRow(m, values, mined, height, m', k))
    && (forall t :: t in m && t !in IdsIn(values) ==> m'[t] == m[t])
  }

  lemma ChunkByRow(m: Pool, values: seq<MempoolTx>, mined: set<TxId>, height: nat)
    requires values != []
    ensures RowsOfChunk(m, values, mined, height, InsertChunk(m, values, mined, height))
  {
    var revived := ReviveRows(m, values, mined, height);
    InsertRowsLaws(revived, values, height);
    forall k | FirstOfId(values, 0, k)
      ensures ChunkRow(m, values, mined, height, InsertChunk(m, values, mined, height), k)
    {
      assert values[k].txId in IdsIn(values);
      if values[k].txId !in m {
        InsertByRow(revived, values, height, k);
      }
    }
  }

  // ---- Replace-by-fee ----------------------------------------------------------------------------

  /** Row i of txs is canonical and spends nonce n of address a. */
  predicate MinedWith(txs: seq<Row<Tx>>, i: int, a: Address, n: nat) {
    0 <= i < |txs| && txs[i].canonical && Spends(txs[i].data.sender, txs[i].data.sponsor, txs[i].data.nonce, a, n)
  }

  predicate MinedBefore(x: Row<Tx>, y: Row<Tx>) {
    x.blockHeight < y.blockHeight || (x.blockHeight == y.blockHeight && x.data.txIndex < y.data.txIndex)
  }

  /** Position i was mined with the nonce, and every position of id t that was is earlier. */
  ghost predicate MinedAfter(txs: seq<Row<Tx>>, a: Address, n: nat, i: int, t: TxId) {
    && MinedWith(txs, i, a, n)
    && forall j :: MinedWith(txs, j, a, n) && txs[j].data.txId == t ==> MinedBefore(txs[j], txs[i])
  }

  /** u spends the same nonce for a higher fee, or for the same one and was received later. */
  predicate Outbids(m: Pool, a: Address, n: nat, u: TxId, r: MempoolRow) {
    && u in m && Spends(m[u].sender, m[u].sponsor, m[u].nonce, a, n)
    && (r.fee < m[u].fee || (r.fee == m[u].fee && r.receiptTime < m[u].receiptTime))
  }

  /** Row t spends the nonce and is beaten: by a later mined transaction, or, if none was mined, by a higher fee. */
  ghost predicate Beaten(m: Pool, txs: seq<Row<Tx>>, a: Address, n: nat, t: TxId) {
    && t in m && Spends(m[t].sender, m[t].sponsor, m[t].nonce, a, n)
    && (|| (exists i :: MinedAfter(txs, a, n, i, t))
        || ((forall i :: !MinedWith(txs, i, a, n)) && exists u :: Outbids(m, a, n, u, m[t])))
  }

  /** Whatever is beaten has been dropped. */
  ghost predicate BeatenDropped(m: Pool, txs: seq<Row<Tx>>, a: Address, n: nat) {
    forall t :: Beaten(m, txs, a, n, t) ==> m[t].pruned && m[t].status == DroppedReplaceByFee
  }

  lemma DecidedDrops(m: Pool, txs: seq<Row<Tx>>, a: Address, n: nat)
    requires GroupDecided(m, txs, Group(a, n))
    ensures BeatenDropped(m, txs, a, n)
  {
    var g := Group(a, n);
    assert forall i :: 0 <= i < |txs| ==> (MinedWith(txs, i, a, n) <==> MinedRowIn(txs[i], g));
    forall t | Beaten(m, txs, a, n, t)
      ensures m[t].pruned && m[t].status == DroppedReplaceByFee
    {
      assert RowIn(m[t], g);
      var w :| Wins(m, txs, g, w) && OthersLost(m, g, w);
      BeatenLoses(m, txs, a, n, t);
    }
  }

  /** What is beaten does not win. */
  lemma BeatenLoses(m: Pool, txs: seq<Row<Tx>>, a: Address, n: nat, t: TxId)
    requires Beaten(m, txs, a, n, t)
    ensures !Wins(m, txs, Group(a, n), t)
  {
    var g := Group(a, n);
    if i :| MinedAfter(txs, a, n, i, t) {
      assert MinedRowIn(txs[i], g);
      forall j | 0 <= j < |txs| && MinedRowIn(txs[j], g) && txs[j].data.txId == t
        ensures !MinedNotAfter(txs[i], txs[j])
      {
        assert MinedWith(txs, j, a, n);
      }
    } else {
      forall i | 0 <= i < |txs|
        ensures !MinedRowIn(txs[i], g)
      {
        assert !MinedWith(txs, i, a, n);
      }
      var u :| Outbids(m, a, n, u, m[t]);
      assert RowIn(m[u], g) && !FeeNotAbove(m[u], m[t]);
    }
  }
}
