/**
 A re-org half way: above some height the chain is already that of the fork, at and below it still
 the old one. Restoring one block and orphaning its rival moves the border down by one.
 */
module ReOrg {
  import opened Types
  import opened Tables
  import opened Chain
  import opened Ledger
  import opened Mempool
  import opened MempoolTables

  datatype BlockRow = BlockRow(info: BlockInfo, canonical: bool)

  type BlockTable = map<Hash, BlockRow>

  /** The blocks table holds the delivered blocks, canonical exactly for those in s. */
  ghost predicate BlocksAgree(blocks: BlockTable, known: Blocks, s: set<Hash>) {
    && blocks.Keys == known.Keys
    && forall h :: h in blocks ==> blocks[h].info == known[h].info && (blocks[h].canonical <==> h in s)
  }

  ghost predicate ParentAt(known: Blocks, p: seq<Hash>, i: nat)
    requires i < |p| && p[i] in known
  {
    i > 0 ==> known[p[i]].info.parent == p[i - 1]
  }

  /** A path from height 1 up: one block per height, each the parent of the next. */
  ghost predicate IsChain(known: Blocks, p: seq<Hash>) {
    && (forall i :: 0 <= i < |p| ==> p[i] in known && known[p[i]].info.height == i + 1)
    && (forall i {:trigger ParentAt(known, p, i)} :: 0 <= i < |p| ==> ParentAt(known, p, i))
  }

  /** The chain of the fork and the old chain, of equal length. */
  ghost predicate RivalChains(known: Blocks, fork: seq<Hash>, rival: seq<Hash>) {
    Linked(known) && IsChain(known, fork) && IsChain(known, rival) && |fork| == |rival|
  }

  // The existential keeps the verifier from taking RivalChains apart at every call.
  ghost predicate Rivals(known: Blocks, fork: seq<Hash>, rival: seq<Hash>) {
    exists k :: k == known && RivalChains(k, fork, rival)
  }

  lemma PathIsChain(known: Blocks, h: Hash)
    requires Linked(known) && h in known
    ensures IsChain(known, Path(known, h))
  {
    PathLaws(known, h);
    forall i | 0 <= i < |Path(known, h)|
      ensures ParentAt(known, Path(known, h), i)
    {
      PathPrefix(known, h, i);
      if i > 0 {
        var x := Path(known, h)[i];
        assert Grounded(known, x);
        PathLaws(known, known[x].info.parent);
        assert Path(known, x)[i - 1] == known[x].info.parent;
      }
    }
  }

  /** The fork above height n, the old chain up to n. */
  function Mixed(fork: seq<Hash>, rival: seq<Hash>, n: nat): set<Hash>
    requires n <= |fork| && n <= |rival|
  {
    SetOf(fork[n..] + rival[..n])
  }

  lemma MixedAt(known: Blocks, fork: seq<Hash>, rival: seq<Hash>, n: nat, x: Hash)
    requires Rivals(known, fork, rival) && n <= |fork| && x in known
    ensures x in Mixed(fork, rival, n) <==>
      var i := known[x].info.height;
      1 <= i <= |fork| && x == if n < i then fork[i - 1] else rival[i - 1]
  {
    var i := known[x].info.height;
    var all := fork[n..] + rival[..n];
    if x in Mixed(fork, rival, n) {
      var j :| 0 <= j < |all| && all[j] == x;
      if j < |fork| - n {
        assert fork[n + j] == x;
      } else {
        assert rival[j - (|fork| - n)] == x;
      }
    }
    if 1 <= i <= |fork| {
      if n < i && x == fork[i - 1] {
        assert all[i - 1 - n] == x;
      }
      if i <= n && x == rival[i - 1] {
        assert all[|fork| - n + i - 1] == x;
      }
    }
  }

  lemma MixedKnown(known: Blocks, fork: seq<Hash>, rival: seq<Hash>, n: nat)
    requires Rivals(known, fork, rival) && n <= |fork|
    ensures forall x :: x in Mixed(fork, rival, n) ==> x in known
  {
  }

  /** Restoring the fork's block at height n and orphaning the old one moves the border to n - 1. */
  lemma MixedStep(known: Blocks, fork: seq<Hash>, rival: seq<Hash>, n: nat)
    requires Rivals(known, fork, rival) && 1 <= n <= |fork|
    ensures var b, o := fork[n - 1], rival[n - 1];
      && b in known && o in known && known[b].info.height == n && known[o].info.height == n
      && o in Mixed(fork, rival, n)
      && (b in Mixed(fork, rival, n) <==> b == o)
      && (forall x :: x in known && known[x].info.height == n && x in Mixed(fork, rival, n) ==> x == o)
      && Mixed(fork, rival, n - 1) == Mixed(fork, rival, n) - {o} + {b}
  {
    MixedKnown(known, fork, rival, n);
    MixedKnown(known, fork, rival, n - 1);
    var b, o := fork[n - 1], rival[n - 1];
    forall x | x in known
      ensures x in Mixed(fork, rival, n - 1) <==> x in Mixed(fork, rival, n) - {o} + {b}
      ensures known[x].info.height == n && x in Mixed(fork, rival, n) ==> x == o
    {
      MixedAt(known, fork, rival, n, x);
      MixedAt(known, fork, rival, n - 1, x);
    }
    MixedAt(known, fork, rival, n, o);
    MixedAt(known, fork, rival, n, b);
  }

  /** Chains that share a block share everything below it. */
  lemma {:induction false} SharedPrefix(known: Blocks, p: seq<Hash>, q: seq<Hash>, n: nat)
    requires IsChain(known, p) && IsChain(known, q)
    requires n <= |p| && n <= |q| && (n > 0 ==> p[n - 1] == q[n - 1])
    ensures p[..n] == q[..n]
  {
    if n > 0 {
      assert ParentAt(known, p, n - 1) && ParentAt(known, q, n - 1);
      SharedPrefix(known, p, q, n - 1);
      assert p[..n] == p[..n - 1] + [p[n - 1]] && q[..n] == q[..n - 1] + [q[n - 1]];
    }
  }

  /** The re-org is over when the chains agree at the border: they then agree all the way down. */
  lemma MixedDone(known: Blocks, fork: seq<Hash>, rival: seq<Hash>, n: nat)
    requires Rivals(known, fork, rival) && n < |fork| && (n > 0 ==> fork[n - 1] == rival[n - 1])
    ensures fork[..n] == rival[..n]
    ensures Mixed(fork, rival, n) == SetOf(fork)
  {
    SharedPrefix(known, fork, rival, n);
    assert fork == fork[..n] + fork[n..];
  }

  // ---- Block headers -----------------------------------------------------------------------------

  datatype BlockHeader = BlockHeader(hash: Hash, height: nat, time: nat)

  function HeaderFor(h: Hash, info: BlockInfo): BlockHeader {
    BlockHeader(h, info.height, info.time)
  }

  /** b tells hash, height and time of block h. */
  predicate Describes(b: BlockHeader, known: Blocks, h: Hash) {
    b.hash == h && h in known && b.height == known[h].info.height && b.time == known[h].info.time
  }

  /** What a chain looks like from outside, whoever announced it. */
  ghost function BlockHeaders(known: Blocks, hs: seq<Hash>): (r: seq<BlockHeader>)
    requires forall h :: h in hs ==> h in known
    ensures |r| == |hs|
    ensures forall i :: 0 <= i < |r| ==> Describes(r[i], known, hs[i])
  {
    seq(|hs|, i requires 0 <= i < |hs| => BlockHeader(hs[i], known[hs[i]].info.height, known[hs[i]].info.time))
  }

  // ---- Mined transactions across a re-flagging ---------------------------------------------------

  lemma {:induction false} MinedAppend(rows: seq<Row<Tx>>, r: Row<Tx>)
    ensures Mined(rows + [r]) == Mined(rows) + if r.canonical then {r.data.txId} else {}
  {
    var all := rows + [r];
    assert all[|rows|] == r;
    forall t | t in Mined(rows)
      ensures t in Mined(all)
    {
      var i :| 0 <= i < |rows| && rows[i].canonical && rows[i].data.txId == t;
      assert all[i] == rows[i];
    }
  }

  lemma IdsAppend(txs: seq<Tx>, t: Tx)
    ensures IdsOf(txs + [t]) == IdsOf(txs) + {t.txId}
  {
    assert forall x :: x in txs + [t] <==> x in txs || x == t;
  }

  lemma {:induction false} MarkMined(rows: seq<Row<Tx>>, h: Hash, c: bool)
    ensures c ==> Mined(Mark(rows, h, c)) == Mined(rows) + IdsOf(Flipped(rows, h, c))
    ensures !c ==> Mined(Mark(rows, h, c)) <= Mined(rows) <= Mined(Mark(rows, h, c)) + IdsOf(Flipped(rows, h, c))
    ensures forall t :: t in IdsOf(Flipped(rows, h, c)) ==> HasTx(Mark(rows, h, c), t)
  {
    if rows != [] {
      var init, r := rows[..|rows| - 1], rows[|rows| - 1];
      MarkMined(init, h, c);
      assert rows == init + [r];
      var m := Mark(init, h, c);
      var r' := if r.indexBlockHash == h then r.(canonical := c) else r;
      assert Mark(rows, h, c) == m + [r'];
      MinedAppend(init, r);
      MinedAppend(m, r');
      if r.indexBlockHash == h && r.canonical != c {
        IdsAppend(Flipped(init, h, c), r.data);
      }
      forall t | t in IdsOf(Flipped(rows, h, c))
        ensures HasTx(Mark(rows, h, c), t)
      {
        if t in IdsOf(Flipped(init, h, c)) {
          var i :| 0 <= i < |m| && m[i].data.txId == t;
          assert (m + [r'])[i] == m[i];
        } else {
          assert (m + [r'])[|m|].data.txId == t;
        }
      }
    }
  }

  lemma HeaderIds(txs: seq<Tx>)
    ensures (set h | h in HeadersOf(txs) :: h.txId) == IdsOf(txs)
  {
    var hs := HeadersOf(txs);
    forall t | t in IdsOf(txs)
      ensures t in set h | h in hs :: h.txId
    {
      var i :| 0 <= i < |txs| && txs[i].txId == t;
      assert hs[i] in hs;
    }
  }

  /** Every transaction that was ever canonical is canonical now or has a mempool row. */
  ghost predicate Covered(ever: set<TxId>, txs: seq<Row<Tx>>, pool: Pool) {
    ever <= Mined(txs) + pool.Keys
  }
}
