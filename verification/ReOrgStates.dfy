/**
 What restoreOrphanedChain computes, on values: one round of it, the recursion over the parents, and
 the proof that it ends in the chain of the fork.
 */
module ReOrgStates {
  import opened Types
  import opened Balances
  import opened Tables
  import opened Chain
  import opened Ledger
  import opened ReOrg

  datatype ReOrgState = ReOrgState(blocks: BlockTable, ledger: Ledger, balances: BalanceTable,
                                   applied: seq<BlockHeader>, rolledBack: seq<BlockHeader>,
                                   marked: nat, unmarked: nat)

  // ---- One round ---------------------------------------------------------------------------------

  /** The canonical blocks at the height of h, other than h. */
  function RivalsOf(blocks: BlockTable, h: Hash): set<Hash>
    requires h in blocks
  {
    set x | x in blocks && x != h && blocks[x].info.height == blocks[h].info.height && blocks[x].canonical
  }

  /** The updates of blocks that restore h and orphan its rivals. */
  function FlipBlocks(blocks: BlockTable, h: Hash): (r: BlockTable)
    requires h in blocks
    ensures r.Keys == blocks.Keys
    ensures forall x :: x in r ==> r[x].info == blocks[x].info
  {
    map x | x in blocks ::
      if x == h then blocks[x].(canonical := true)
      else if x in RivalsOf(blocks, h) then blocks[x].(canonical := false) else blocks[x]
  }

  /** No height has two canonical blocks. */
  ghost predicate OnePerHeight(blocks: BlockTable) {
    forall x, y | x in blocks && y in blocks && blocks[x].canonical && blocks[y].canonical && x != y ::
      blocks[x].info.height != blocks[y].info.height
  }

  lemma FlipKeepsOnePerHeight(blocks: BlockTable, h: Hash)
    requires h in blocks && OnePerHeight(blocks)
    ensures OnePerHeight(FlipBlocks(blocks, h))
  {
  }

  ghost function RivalOf(blocks: BlockTable, h: Hash): (o: Option<Hash>)
    requires h in blocks
    ensures o.None? <==> RivalsOf(blocks, h) == {}
    ensures o.Some? ==> o.value in RivalsOf(blocks, h)
  {
    if o :| o in RivalsOf(blocks, h) then Some(o) else None
  }

  function Orphaned(l: Ledger, o: Option<Hash>): Ledger {
    if o.Some? then MarkAll(l, o.value, false) else l
  }

  function OrphanedTxs(l: Ledger, o: Option<Hash>): nat {
    if o.Some? then |Flipped(l.txs, o.value, false)| else 0
  }

  /** The ledger after rival o was orphaned and block h restored. */
  function SwapLedger(l: Ledger, o: Option<Hash>, h: Hash): Ledger {
    MarkAll(Orphaned(l, o), h, true)
  }

  function SwapBalances(b: BalanceTable, l: Ledger, o: Option<Hash>, h: Hash): BalanceTable {
    ReflagAll(if o.Some? then ReflagAll(b, l, o.value, false) else b, Orphaned(l, o), h, true)
  }

  function RestoredTxs(l: Ledger, o: Option<Hash>, h: Hash): nat {
    |Flipped(Orphaned(l, o).txs, h, true)|
  }

  ghost function Round(st: ReOrgState, h: Hash): ReOrgState
    requires h in st.blocks
  {
    var o := RivalOf(st.blocks, h);
    ReOrgState(
      FlipBlocks(st.blocks, h), SwapLedger(st.ledger, o, h), SwapBalances(st.balances, st.ledger, o, h),
      [HeaderFor(h, st.blocks[h].info)] + st.applied,
      (if o.Some? then [HeaderFor(o.value, st.blocks[o.value].info)] else []) + st.rolledBack,
      st.marked + RestoredTxs(st.ledger, o, h), st.unmarked + OrphanedTxs(st.ledger, o))
  }

  // ---- The recursion -----------------------------------------------------------------------------

  /** There is a parent one height below, and it is not canonical. */
  predicate GoesOn(blocks: BlockTable, h: Hash)
    requires h in blocks
  {
    var p := blocks[h].info.parent;
    p in blocks && blocks[p].info.height == blocks[h].info.height - 1 && !blocks[p].canonical
  }

  ghost function Restored(st: ReOrgState, h: Hash): ReOrgState
    requires h in st.blocks
    decreases st.blocks[h].info.height
  {
    var next := Round(st, h);
    if GoesOn(next.blocks, h) then Restored(next, st.blocks[h].info.parent) else next
  }

  /** st' is what the recursion ends in, folded. */
  ghost predicate RestoresTo(st: ReOrgState, h: Hash, st': ReOrgState) {
    forall k :: Opened(k, [st]) ==> h in st.blocks && st' == Restored(st, h)
  }

  lemma RestoresToRestored(st: ReOrgState, h: Hash, st': ReOrgState)
    ensures RestoresTo(st, h, st') <==> h in st.blocks && st' == Restored(st, h)
  {
    assert Opened(0, [st]);
  }

  /** st' is what one round makes of st, folded. */
  ghost predicate StepsTo(st: ReOrgState, h: Hash, st': ReOrgState) {
    forall k :: Opened(k, [st]) ==> h in st.blocks && st' == Round(st, h)
  }

  lemma StepsToRound(st: ReOrgState, h: Hash, st': ReOrgState)
    ensures StepsTo(st, h, st') <==> h in st.blocks && st' == Round(st, h)
  {
    assert Opened(0, [st]);
  }

  lemma RoundMade(st: ReOrgState, h: Hash, st': ReOrgState)
    requires h in st.blocks
    requires var o := RivalOf(st.blocks, h);
      && st'.blocks == FlipBlocks(st.blocks, h)
      && st'.ledger == SwapLedger(st.ledger, o, h) && st'.balances == SwapBalances(st.balances, st.ledger, o, h)
      && st'.applied == [HeaderFor(h, st.blocks[h].info)] + st.applied
      && st'.rolledBack == (if o.Some? then [HeaderFor(o.value, st.blocks[o.value].info)] else []) + st.rolledBack
      && st'.marked == st.marked + RestoredTxs(st.ledger, o, h)
      && st'.unmarked == st.unmarked + OrphanedTxs(st.ledger, o)
    ensures StepsTo(st, h, st')
  {
  }

  lemma StepKeeps(st: ReOrgState, h: Hash, st': ReOrgState)
    requires StepsTo(st, h, st') && OnePerHeight(st.blocks)
    ensures h in st.blocks && st'.blocks.Keys == st.blocks.Keys && OnePerHeight(st'.blocks)
    ensures forall x :: x in st.blocks ==> st'.blocks[x].info == st.blocks[x].info
    ensures st.unmarked <= st'.unmarked
  {
    StepsToRound(st, h, st');
    FlipKeepsOnePerHeight(st.blocks, h);
  }

  lemma RestoresLast(st: ReOrgState, h: Hash, next: ReOrgState)
    requires StepsTo(st, h, next) && h in next.blocks && !GoesOn(next.blocks, h)
    ensures RestoresTo(st, h, next)
  {
    StepsToRound(st, h, next);
    RestoresToRestored(st, h, next);
  }

  lemma RestoresOn(st: ReOrgState, h: Hash, next: ReOrgState, parent: Hash, st': ReOrgState)
    requires StepsTo(st, h, next) && h in next.blocks && GoesOn(next.blocks, h) && parent == next.blocks[h].info.parent
    requires RestoresTo(next, parent, st')
    ensures RestoresTo(st, h, st')
  {
    StepsToRound(st, h, next);
    RestoresToRestored(next, parent, st');
    RestoresToRestored(st, h, st');
  }

  // ---- It ends in the fork -----------------------------------------------------------------------

  /** Blocks, ledger and balances are in step with the canonical set s. */
  ghost predicate InStep(blocks: BlockTable, l: Ledger, b: BalanceTable, known: Blocks, s: set<Hash>) {
    BlocksAgree(blocks, known, s) && Tracks(l, b, known, s)
  }

  /** The same for the tables of a re-org, folded. */
  ghost predicate Steady(st: ReOrgState, known: Blocks, s: set<Hash>) {
    forall k :: Opened(k, st) ==> InStep(st.blocks, st.ledger, st.balances, known, s)
  }

  lemma SteadyInStep(st: ReOrgState, known: Blocks, s: set<Hash>)
    ensures Steady(st, known, s) <==> InStep(st.blocks, st.ledger, st.balances, known, s)
  {
    assert Opened(0, st);
  }

  /** n is the height of a block of the fork that the old chain does not have. */
  ghost predicate Diverges(fork: seq<Hash>, rival: seq<Hash>, n: nat, h: Hash) {
    && 1 <= n <= |fork| && n <= |rival|
    && fork[n - 1] == h && rival[n - 1] != h
  }

  lemma FlipMovesBorder(blocks: BlockTable, known: Blocks, fork: seq<Hash>, rival: seq<Hash>, n: nat, h: Hash)
    requires Rivals(known, fork, rival) && Diverges(fork, rival, n, h)
    requires BlocksAgree(blocks, known, Mixed(fork, rival, n))
    ensures h in blocks && !blocks[h].canonical
    ensures RivalsOf(blocks, h) == {rival[n - 1]}
    ensures BlocksAgree(FlipBlocks(blocks, h), known, Mixed(fork, rival, n - 1))
  {
    MixedStep(known, fork, rival, n);
  }

  lemma SwapMovesBorder(l: Ledger, b: BalanceTable, known: Blocks, fork: seq<Hash>, rival: seq<Hash>, n: nat,
                        h: Hash, o: Hash)
    requires Rivals(known, fork, rival) && Diverges(fork, rival, n, h) && rival[n - 1] == o
    requires Tracks(l, b, known, Mixed(fork, rival, n))
    ensures Tracks(SwapLedger(l, Some(o), h), SwapBalances(b, l, Some(o), h), known, Mixed(fork, rival, n - 1))
    ensures o in known && OrphanedTxs(l, Some(o)) == |known[o].txs|
    ensures CountCanonical(SwapLedger(l, Some(o), h).txs) == CountCanonical(l.txs)
         - OrphanedTxs(l, Some(o)) + RestoredTxs(l, Some(o), h)
  {
    MixedStep(known, fork, rival, n);
    var s := Mixed(fork, rival, n);
    MarkAllTracks(l, b, known, s, o, false);
    MarkAllTracks(MarkAll(l, o, false), ReflagAll(b, l, o, false), known, s - {o}, h, true);
    MarkCount(l.txs, o, false);
    MarkCount(MarkAll(l, o, false).txs, h, true);
    TxsOfLength(known[o].txs);
  }

  /** One round moves the border of the re-org down by one and collects the two headers. */
  lemma RoundMovesBorder(st: ReOrgState, known: Blocks, fork: seq<Hash>, rival: seq<Hash>, n: nat, h: Hash)
    requires Rivals(known, fork, rival) && Diverges(fork, rival, n, h)
    requires Steady(st, known, Mixed(fork, rival, n))
    ensures h in st.blocks && !st.blocks[h].canonical && h in known && rival[n - 1] in known
    ensures st.blocks[h].info == known[h].info
    ensures var next, o := Round(st, h), rival[n - 1];
      && Steady(next, known, Mixed(fork, rival, n - 1))
      && next.applied == [HeaderFor(h, known[h].info)] + st.applied
      && next.rolledBack == [HeaderFor(o, known[o].info)] + st.rolledBack
      && next.unmarked == st.unmarked + |known[o].txs|
      && CountCanonical(next.ledger.txs) - next.marked + next.unmarked
         == CountCanonical(st.ledger.txs) - st.marked + st.unmarked
  {
    var o := rival[n - 1];
    SteadyInStep(st, known, Mixed(fork, rival, n));
    FlipMovesBorder(st.blocks, known, fork, rival, n, h);
    SwapMovesBorder(st.ledger, st.balances, known, fork, rival, n, h, o);
    assert RivalOf(st.blocks, h) == Some(o);
    var next := Round(st, h);
    SteadyInStep(next, known, Mixed(fork, rival, n - 1));
  }

  /** The parent is restored next exactly when the chains still differ one height below. */
  lemma ForkGoesOn(blocks: BlockTable, known: Blocks, fork: seq<Hash>, rival: seq<Hash>, n: nat, h: Hash)
    requires Rivals(known, fork, rival) && Diverges(fork, rival, n, h) && h in blocks
    requires BlocksAgree(blocks, known, Mixed(fork, rival, n - 1))
    ensures GoesOn(blocks, h) ==> n > 1 && Diverges(fork, rival, n - 1, blocks[h].info.parent)
    ensures !GoesOn(blocks, h) ==>
      fork[..n - 1] == rival[..n - 1] && Mixed(fork, rival, n - 1) == SetOf(fork)
  {
    assert ParentAt(known, fork, n - 1);
    var p := known[h].info.parent;
    if n > 1 {
      assert p in known && known[p].info.height == n - 1;
      MixedAt(known, fork, rival, n - 1, p);
      if blocks[p].canonical {
        MixedDone(known, fork, rival, n - 1);
      }
    } else {
      MixedDone(known, fork, rival, 0);
      assert p in known ==> Grounded(known, p);
    }
  }

  lemma SteadyForkGoesOn(st: ReOrgState, known: Blocks, fork: seq<Hash>, rival: seq<Hash>, n: nat, h: Hash)
    requires Rivals(known, fork, rival) && Diverges(fork, rival, n, h) && h in st.blocks
    requires Steady(st, known, Mixed(fork, rival, n - 1))
    ensures GoesOn(st.blocks, h) ==> n > 1 && Diverges(fork, rival, n - 1, st.blocks[h].info.parent)
    ensures !GoesOn(st.blocks, h) ==> fork[..n - 1] == rival[..n - 1] && Steady(st, known, SetOf(fork))
  {
    SteadyInStep(st, known, Mixed(fork, rival, n - 1));
    ForkGoesOn(st.blocks, known, fork, rival, n, h);
  }

  /**
   From height n down to j + 1 the fork replaced the old chain; below they agree, and j + 1 is the
   first height where they do not. The headers were put in front of those already collected.
   */
  ghost predicate Replaced(st: ReOrgState, st': ReOrgState, known: Blocks, fork: seq<Hash>, rival: seq<Hash>,
                           n: nat, j: nat)
    requires forall h :: h in fork || h in rival ==> h in known
  {
    && j < n <= |fork| && n <= |rival|
    && fork[..j] == rival[..j] && fork[j] != rival[j]
    && st'.applied == BlockHeaders(known, fork[j..n]) + st.applied
    && st'.rolledBack == BlockHeaders(known, rival[j..n]) + st.rolledBack
    && st'.unmarked == st.unmarked + ChainTxCount(known, rival[j..n])
    && CountCanonical(st'.ledger.txs) - st'.marked + st'.unmarked
       == CountCanonical(st.ledger.txs) - st.marked + st.unmarked
  }

  lemma HeadersStep(known: Blocks, path: seq<Hash>, j: nat, n: nat, more: seq<BlockHeader>)
    requires j < n <= |path| && forall h :: h in path ==> h in known
    ensures BlockHeaders(known, path[j..n - 1]) + ([HeaderFor(path[n - 1], known[path[n - 1]].info)] + more)
         == BlockHeaders(known, path[j..n]) + more
    ensures ChainTxCount(known, path[j..n]) == ChainTxCount(known, path[j..n - 1]) + |known[path[n - 1]].txs|
  {
    assert path[j..n][..n - j - 1] == path[j..n - 1];
  }

  lemma RivalsKnown(known: Blocks, fork: seq<Hash>, rival: seq<Hash>)
    requires Rivals(known, fork, rival)
    ensures |fork| == |rival|
    ensures forall h :: h in fork || h in rival ==> h in known
  {
  }

  /** Restoring the fork from its block at height n ends with exactly the fork canonical. */
  lemma {:induction false} RestoredIsFork(st: ReOrgState, known: Blocks, fork: seq<Hash>, rival: seq<Hash>,
                                          n: nat, h: Hash) returns (j: nat)
    requires Rivals(known, fork, rival) && Diverges(fork, rival, n, h)
    requires Steady(st, known, Mixed(fork, rival, n))
    ensures h in st.blocks && !st.blocks[h].canonical
    ensures Steady(Restored(st, h), known, SetOf(fork))
    ensures forall x :: x in fork || x in rival ==> x in known
    ensures Replaced(st, Restored(st, h), known, fork, rival, n, j)
    decreases n
  {
    RivalsKnown(known, fork, rival);
    RoundMovesBorder(st, known, fork, rival, n, h);
    var next := Round(st, h);
    SteadyForkGoesOn(next, known, fork, rival, n, h);
    if GoesOn(next.blocks, h) {
      j := RestoredIsFork(next, known, fork, rival, n - 1, st.blocks[h].info.parent);
    } else {
      j := n - 1;
      assert fork[j..n - 1] == [] && rival[j..n - 1] == [];
    }
    HeadersStep(known, fork, j, n, st.applied);
    HeadersStep(known, rival, j, n, st.rolledBack);
  }
}
