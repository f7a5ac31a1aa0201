/**
 Whole runs of block updates: the tables follow the chain, balances equal the recalculation, runs over
 the same blocks converge, and a consumer of the messages always holds the canonical chain.
 */
module Runs {
  import opened Types
  import opened Balances
  import opened Tables
  import opened Chain
  import opened Ledger
  import opened ReOrg
  import opened ReOrgStates
  import opened BlockUpdates

  /** Well-formed messages in which a hash always stands for the same block; any order, any parents. */
  ghost predicate Genuine(s: seq<BlockData>) {
    && (forall d :: d in s ==> ValidData(d))
    && (forall d, e :: d in s && e in s && d.hash == e.hash ==> d == e)
  }

  ghost function RunTables(s: seq<BlockData>): ChainTables {
    if s == [] then NO_TABLES else Updated(RunTables(s[..|s| - 1]), s[|s| - 1])
  }

  ghost predicate KnownFrom(c: Chain, s: seq<BlockData>) {
    forall h :: h in c.known ==> c.known[h] in s && c.known[h].hash == h
  }

  lemma KnownFromStep(c: Chain, s: seq<BlockData>)
    requires s != [] && Genuine(s) && Good(c) && KnownFrom(c, s[..|s| - 1])
    ensures Genuine(s[..|s| - 1]) && Fits(c, s[|s| - 1]) && ValidData(s[|s| - 1])
    ensures KnownFrom(Deliver(c, s[|s| - 1]), s)
  {
    var init, d := s[..|s| - 1], s[|s| - 1];
    assert s == init + [d];
    assert d in s && forall e :: e in init ==> e in s;
  }

  /** After every run, rejected and repeated blocks included, the tables are in step with the chain. */
  lemma {:induction false} RunAligned(s: seq<BlockData>)
    requires Genuine(s)
    ensures Aligned(RunTables(s), Run(s)) && KnownFrom(Run(s), s)
  {
    if s == [] {
      AlignedFromStart();
    } else {
      assert Genuine(s[..|s| - 1]) by {
        assert forall e :: e in s[..|s| - 1] ==> e in s;
      }
      RunAligned(s[..|s| - 1]);
      KnownFromStep(Run(s[..|s| - 1]), s);
      UpdateAligns(RunTables(s[..|s| - 1]), Run(s[..|s| - 1]), s[|s| - 1]);
    }
  }

  /** Opens Aligned in full. */
  lemma AlignedInStep(t: ChainTables, c: Chain)
    requires Aligned(t, c)
    ensures BlocksAgree(t.blocks, c.known, SetOf(Canonical(c)))
    ensures Synced(t.ledger, t.balances, c.known, SetOf(Canonical(c)))
  {
    SteadyInStep(BeforeReorg(t), c.known, SetOf(Canonical(c)));
    TracksSynced(t.ledger, t.balances, c.known, SetOf(Canonical(c)));
  }

  /** The running balances equal the migration's recalculation from the canonical rows, for every key. */
  lemma BalancesAreMigrated(t: ChainTables, c: Chain, k: Key)
    requires Aligned(t, c)
    ensures BalanceOf(t.balances, k) == Migrated(t.ledger, k)
  {
    AlignedInStep(t, c);
    MigratedIsTotal(t.ledger, k);
  }

  lemma {:induction false} PathNoRepeats(c: Chain)
    requires Good(c)
    ensures NoRepeats(Canonical(c)) && forall h :: h in Canonical(c) ==> h in c.known
  {
    CanonicalLaws(c);
  }

  /** The block has a transaction of the id in which the address takes part. */
  ghost predicate HasPart(d: BlockData, id: TxId, a: Address) {
    exists i :: 0 <= i < |d.txs| && d.txs[i].tx.txId == id && TakesPart(d.txs[i], a)
  }

  /** Each address has one principal row per block for every transaction it takes part in, flagged like the block. */
  lemma PrincipalsFollow(t: ChainTables, c: Chain, h: Hash, height: nat, canonical: bool, id: TxId, a: Address)
    requires Aligned(t, c)
    ensures Row(h, height, canonical, PrincipalTx(id, a)) in t.ledger.principalTxs <==>
      && h in c.known && HasPart(c.known[h], id, a)
      && height == c.known[h].info.height && (canonical <==> h in Canonical(c))
  {
    AlignedInStep(t, c);
    var row := Row(h, height, canonical, PrincipalTx(id, a));
    if h in c.known {
      assert PrincipalTx(id, a) in PrincipalTxsOf(c.known[h].txs) <==> HasPart(c.known[h], id, a) by {
        PartHasRow(c.known[h], id, a);
      }
    }
  }

  lemma PartHasRow(d: BlockData, id: TxId, a: Address)
    ensures PrincipalTx(id, a) in PrincipalTxsOf(d.txs) <==> HasPart(d, id, a)
  {
    if PrincipalTx(id, a) in PrincipalTxsOf(d.txs) {
      var e :| e in d.txs && a in Principals(e) && e.tx.txId == id;
      var i :| 0 <= i < |d.txs| && d.txs[i] == e;
      PrincipalsTakePart(e, a);
    }
    if i :| 0 <= i < |d.txs| && d.txs[i].tx.txId == id && TakesPart(d.txs[i], a) {
      PrincipalsTakePart(d.txs[i], a);
      assert d.txs[i] in d.txs && PrincipalTx(d.txs[i].tx.txId, a) == PrincipalTx(id, a);
    }
  }

  /** Balances and counters are sums over the blocks of the chain. */
  lemma AlignedChainTotal(t: ChainTables, c: Chain, k: Key)
    requires Aligned(t, c)
    ensures forall h :: h in Canonical(c) ==> h in c.known
    ensures BalanceOf(t.balances, k) == ChainTotal(c.known, Canonical(c), k)
    ensures t.tip.txCount == ChainTxCount(c.known, Canonical(c))
  {
    PathNoRepeats(c);
    SteadyInStep(BeforeReorg(t), c.known, SetOf(Canonical(c)));
    TracksChainTotal(t.ledger, t.balances, c.known, Canonical(c), k);
  }

  /** Same content and flags of every table, block by block. */
  ghost predicate SameTables(t: ChainTables, u: ChainTables) {
    && t.blocks == u.blocks && t.tip == u.tip
    && (forall k :: BalanceOf(t.balances, k) == BalanceOf(u.balances, k))
    && t.ledger.principalTxs == u.ledger.principalTxs
    && (forall h {:trigger SameRows(t.ledger, u.ledger, h)} :: SameRows(t.ledger, u.ledger, h))
  }

  ghost predicate SameRows(l: Ledger, m: Ledger, h: Hash) {
    && DataOf(l.txs, h) == DataOf(m.txs, h)
    && DataOf(l.rewards, h) == DataOf(m.rewards, h)
    && DataOf(l.stxEvents, h) == DataOf(m.stxEvents, h)
    && DataOf(l.ftEvents, h) == DataOf(m.ftEvents, h)
    && DataOf(l.flagged, h) == DataOf(m.flagged, h)
  }

  lemma SameRowsOf<T>(a: seq<Row<T>>, b: seq<Row<T>>, known: Blocks, s: set<Hash>, h: Hash)
    requires Agrees(a, known, s) && Agrees(b, known, s) && h !in known
    ensures DataOf(a, h) == DataOf(b, h)
  {
    DataOfUnknown(a, h);
    DataOfUnknown(b, h);
  }

  lemma SameRowsEverywhere(l: Ledger, m: Ledger, known: Blocks, s: set<Hash>, h: Hash)
    requires Flags(l, known, s) && Holds(l, known) && Flags(m, known, s) && Holds(m, known)
    ensures SameRows(l, m, h)
  {
    if h in known {
      assert Contains(l, known[h]) && Contains(m, known[h]);
    } else {
      SameRowsOf(l.txs, m.txs, known, s, h);
      SameRowsOf(l.rewards, m.rewards, known, s, h);
      SameRowsOf(l.stxEvents, m.stxEvents, known, s, h);
      SameRowsOf(l.ftEvents, m.ftEvents, known, s, h);
      SameRowsOf(l.flagged, m.flagged, known, s, h);
    }
  }

  lemma PrincipalsIncluded(a: set<Row<PrincipalTx>>, b: set<Row<PrincipalTx>>, known: Blocks, s: set<Hash>)
    requires PrincipalsAgree(a, known, s) && PrincipalsAgree(b, known, s)
    ensures a <= b
  {
    forall r | r in a
      ensures r in b
    {
      var h := r.indexBlockHash;
      assert r == Row(h, known[h].info.height, h in s, r.data);
    }
  }

  /** The chain alone determines flags, contents, balances and counters, whatever run led to it. */
  lemma AlignedDetermines(t: ChainTables, u: ChainTables, c: Chain)
    requires Aligned(t, c) && Aligned(u, c)
    ensures SameTables(t, u)
  {
    var s := SetOf(Canonical(c));
    AlignedInStep(t, c);
    AlignedInStep(u, c);
    assert t.blocks == u.blocks;
    PrincipalsIncluded(t.ledger.principalTxs, u.ledger.principalTxs, c.known, s);
    PrincipalsIncluded(u.ledger.principalTxs, t.ledger.principalTxs, c.known, s);
    forall h
      ensures SameRows(t.ledger, u.ledger, h)
    {
      SameRowsEverywhere(t.ledger, u.ledger, c.known, s, h);
    }
    forall k
      ensures BalanceOf(t.balances, k) == BalanceOf(u.balances, k)
    {
      AlignedChainTotal(t, c, k);
      AlignedChainTotal(u, c, k);
    }
    AlignedChainTotal(t, c, Key(0, Stx));
    AlignedChainTotal(u, c, Key(0, Stx));
  }

  /**
   Convergence: two runs over the same blocks, parents first, repetitions allowed, end with the same
   tables if both saw the same tallest block first; and they end at different tips if they did not.
   */
  lemma TablesConverge(s: seq<BlockData>, i: int, t: seq<BlockData>, j: int)
    requires Genuine(s) && Genuine(t) && ParentFirst(s) && ParentFirst(t)
    requires forall d :: d in s <==> d in t
    requires FirstTallest(s, i) && FirstTallest(t, j)
    ensures s[i] == t[j] ==> SameTables(RunTables(s), RunTables(t))
    ensures s[i] != t[j] ==> RunTables(s).tip.indexBlockHash != RunTables(t).tip.indexBlockHash
  {
    RunAligned(s);
    RunAligned(t);
    RunsConverge(s, i, t, j);
    if s[i] == t[j] {
      AlignedDetermines(RunTables(s), RunTables(t), Run(s));
    }
  }

  /** With a unique tallest block the order of arrival does not matter. */
  lemma UniqueTallestTables(s: seq<BlockData>, t: seq<BlockData>, d: BlockData)
    requires Genuine(s) && Genuine(t) && ParentFirst(s) && ParentFirst(t)
    requires forall x :: x in s <==> x in t
    requires d in s && forall x :: x in s && x != d ==> x.info.height < d.info.height
    ensures SameTables(RunTables(s), RunTables(t)) && RunTables(s).tip.indexBlockHash == Some(d.hash)
  {
    UniqueTallestConverges(s, t, d);
    RunAligned(s);
    RunAligned(t);
    AlignedDetermines(RunTables(s), RunTables(t), Run(s));
  }

  // ---- The canonical flags -----------------------------------------------------------------------

  /** The blocks of a path are the ancestors of its last block. */
  lemma PathIsPrefix(known: Blocks, h: Hash, tip: Hash)
    requires Linked(known) && h in known && tip in known
    ensures h in Path(known, tip) <==> Path(known, h) <= Path(known, tip)
  {
    PathLaws(known, h);
    PathLaws(known, tip);
    PathMember(known, tip, h);
    if h in Path(known, tip) {
      PathPrefix(known, tip, known[h].info.height - 1);
    }
  }

  /** A block is canonical exactly when it is the tip or an ancestor of the tip. */
  lemma CanonicalIsAncestor(t: ChainTables, c: Chain, h: Hash)
    requires Aligned(t, c) && h in t.blocks
    ensures h in c.known && t.blocks[h].info == c.known[h].info
    ensures t.blocks[h].canonical <==> c.tip.Some? && Path(c.known, h) <= Path(c.known, c.tip.value)
  {
    AlignedBlocks(t, c);
    if c.tip.Some? {
      PathIsPrefix(c.known, h, c.tip.value);
    }
  }

  function CanonicalBlocks(blocks: BlockTable): set<Hash> {
    set h | h in blocks && blocks[h].canonical
  }

  lemma {:induction false} DistinctCount(p: seq<Hash>)
    requires NoRepeats(p)
    ensures |SetOf(p)| == |p|
  {
    if p != [] {
      DistinctCount(p[..|p| - 1]);
      assert SetOf(p) == SetOf(p[..|p| - 1]) + {p[|p| - 1]};
    }
  }

  ghost predicate HasCanonicalAt(blocks: BlockTable, n: int) {
    exists h :: h in CanonicalBlocks(blocks) && blocks[h].info.height == n
  }

  /** Each height from 1 to the tip has exactly one canonical block; block_count counts them. */
  lemma OneCanonicalPerHeight(t: ChainTables, c: Chain)
    requires Aligned(t, c)
    ensures |CanonicalBlocks(t.blocks)| == t.tip.blockCount == t.tip.blockHeight
    ensures forall n :: HasCanonicalAt(t.blocks, n) <==> 1 <= n <= t.tip.blockHeight
    ensures OnePerHeight(t.blocks)
  {
    AlignedBlocks(t, c);
    AlignedOnePerHeight(t, c);
    PathNoRepeats(c);
    CanonicalLaws(c);
    DistinctCount(Canonical(c));
    assert CanonicalBlocks(t.blocks) == SetOf(Canonical(c));
    forall n | 1 <= n <= t.tip.blockHeight
      ensures HasCanonicalAt(t.blocks, n)
    {
      var h := Canonical(c)[n - 1];
      assert h in CanonicalBlocks(t.blocks) && t.blocks[h].info.height == n;
    }
  }

  // ---- The consumer of the messages --------------------------------------------------------------

  /** The blocks to roll back are the last ones the consumer holds. */
  predicate Fitting(view: seq<BlockHeader>, m: Message) {
    |m.rollbackBlocks| <= |view| && view[|view| - |m.rollbackBlocks|..] == m.rollbackBlocks
  }

  function Consume(view: seq<BlockHeader>, m: Message): seq<BlockHeader>
    requires Fitting(view, m)
  {
    view[..|view| - |m.rollbackBlocks|] + m.applyBlocks
  }

  /** One more update: no message changes nothing, and a message that does not fit loses the view. */
  function NextView(view: Option<seq<BlockHeader>>, m: Option<Message>): Option<seq<BlockHeader>> {
    if m.None? || view.None? then view
    else if Fitting(view.value, m.value) then Some(Consume(view.value, m.value)) else None
  }

  /** What a consumer that starts empty holds after a run. */
  ghost function View(s: seq<BlockData>): Option<seq<BlockHeader>> {
    if s == [] then Some([])
    else NextView(View(s[..|s| - 1]), Announced(RunTables(s[..|s| - 1]), s[|s| - 1]))
  }

  lemma SwitchConsumed(m: Option<Message>, before: seq<BlockHeader>, after: seq<BlockHeader>)
    requires m.None? ==> after == before
    requires m.Some? ==> exists j: nat :: Switches(m.value, before, after, j)
    ensures NextView(Some(before), m) == Some(after)
  {
    if m.Some? {
      var j: nat :| Switches(m.value, before, after, j);
      assert |before| - |m.value.rollbackBlocks| == j;
      assert after == after[..j] + after[j..];
    }
  }

  lemma AnnouncesConsumed(m: Option<Message>, c: Chain, c': Chain)
    requires Good(c) && Good(c')
    requires m.None? ==> CanonicalHeaders(c') == CanonicalHeaders(c)
    requires m.Some? ==> Announces(m.value, c, c')
    ensures NextView(Some(CanonicalHeaders(c)), m) == Some(CanonicalHeaders(c'))
  {
    SwitchConsumed(m, CanonicalHeaders(c), CanonicalHeaders(c'));
  }

  /** The view holds hash, height and time of the canonical blocks, in ascending height order. */
  ghost predicate Mirrors(view: seq<BlockHeader>, c: Chain)
    requires Good(c)
  {
    |view| == TipHeight(c) && HeadersTell(view, c.known, Canonical(c))
  }

  lemma HeadersMirror(c: Chain)
    requires Good(c)
    ensures Mirrors(CanonicalHeaders(c), c)
  {
    CanonicalLaws(c);
    CanonicalTold(c, c.known);
  }

  /** The consumer always holds exactly the canonical chain. */
  lemma {:induction false} ConsumerFollows(s: seq<BlockData>)
    requires Genuine(s)
    ensures Good(Run(s)) && View(s) == Some(CanonicalHeaders(Run(s)))
    ensures Mirrors(View(s).value, Run(s))
  {
    RunAligned(s);
    HeadersMirror(Run(s));
    if s != [] {
      var init, d := s[..|s| - 1], s[|s| - 1];
      assert Genuine(init) by {
        assert forall e :: e in init ==> e in s;
      }
      ConsumerFollows(init);
      RunAligned(init);
      KnownFromStep(Run(init), s);
      AnnouncesSwitch(RunTables(init), Run(init), d);
      AnnouncesConsumed(Announced(RunTables(init), d), Run(init), Run(s));
    }
  }
}
