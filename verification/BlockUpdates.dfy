/**
 What one block update computes, on values: the re-org it may start, the insertion of its rows, the
 chain tip and the message for the Redis queue; and the proof that the tables stay in step with the
 canonical chain.
 */
module BlockUpdates {
  import opened Types
  import opened Balances
  import opened Tables
  import opened Chain
  import opened Ledger
  import opened ReOrg
  import opened ReOrgStates

  datatype ChainTip = ChainTip(blockHeight: nat, indexBlockHash: Option<Hash>, blockCount: nat,
                               txCount: int, txCountUnanchored: int)

  /** The tables a block update writes, the mempool aside. */
  datatype ChainTables = ChainTables(blocks: BlockTable, ledger: Ledger, balances: BalanceTable, tip: ChainTip)

  const NO_TABLES := ChainTables(map[], EMPTY, map[], ChainTip(0, None, 0, 0, 0))

  /** What is sent to the Redis queue after a canonical update. */
  datatype Message = Message(applyBlocks: seq<BlockHeader>, rollbackBlocks: seq<BlockHeader>)

  /** The re-orged headers, then the new block. */
  function MessageFor(block: BlockHeader, canonical: seq<BlockHeader>, nonCanonical: seq<BlockHeader>): Message {
    Message(canonical + [block], nonCanonical)
  }

  // ---- The update, step by step ------------------------------------------------------------------

  /** Whether handleReorg finds the parent it asks for. */
  predicate HasParent(blocks: BlockTable, info: BlockInfo) {
    info.height <= 1 || (info.parent in blocks && blocks[info.parent].info.height == info.height - 1)
  }

  /** The block builds on an orphaned parent and is taller than the tip. */
  predicate StartsReorg(t: ChainTables, info: BlockInfo)
    requires HasParent(t.blocks, info)
  {
    1 < info.height && !t.blocks[info.parent].canonical && t.tip.blockHeight < info.height
  }

  /** The update goes through a re-org. */
  predicate Reorgs(t: ChainTables, info: BlockInfo) {
    HasParent(t.blocks, info) && StartsReorg(t, info)
  }

  function BeforeReorg(t: ChainTables): ReOrgState {
    ReOrgState(t.blocks, t.ledger, t.balances, [], [], 0, 0)
  }

  ghost function Reorged(t: ChainTables, info: BlockInfo): ReOrgState
    requires HasParent(t.blocks, info)
  {
    if StartsReorg(t, info) then Restored(BeforeReorg(t), info.parent) else BeforeReorg(t)
  }

  function MovedTip(tip: ChainTip, delta: int): ChainTip {
    tip.(txCount := tip.txCount + delta, txCountUnanchored := tip.txCountUnanchored + delta)
  }

  function AfterReorg(tip: ChainTip, st: ReOrgState): ChainTables {
    ChainTables(st.blocks, st.ledger, st.balances, MovedTip(tip, st.marked - st.unmarked))
  }

  /** handleReorg */
  ghost function HandledReorg(t: ChainTables, info: BlockInfo): ChainTables
    requires HasParent(t.blocks, info)
  {
    AfterReorg(t.tip, Reorged(t, info))
  }

  /** The re-org takes transactions out of the canonical chain. */
  ghost predicate OrphansTxs(t: ChainTables, info: BlockInfo) {
    HasParent(t.blocks, info) && Reorged(t, info).unmarked > 0
  }

  /** The inserts, skipped for a block that is already there. */
  function InsertedBlock(t: ChainTables, d: BlockData, c: bool): ChainTables {
    if d.hash in t.blocks then t
    else t.(blocks := t.blocks[d.hash := BlockRow(d.info, c)], ledger := InsertAll(t.ledger, d, c),
            balances := if c then UpdateBalances(t.balances, d) else t.balances)
  }

  function AdvancedTip(tip: ChainTip, d: BlockData): ChainTip {
    ChainTip(d.info.height, Some(d.hash), d.info.height, tip.txCount + |d.txs|, tip.txCount + |d.txs|)
  }

  /** The rest of an update: the block's rows and, if it is canonical, the tip. */
  function Finished(t: ChainTables, d: BlockData, c: bool): ChainTables {
    var t' := InsertedBlock(t, d, c);
    if c then t'.(tip := AdvancedTip(t'.tip, d)) else t'
  }

  /** A whole update; a block without its parent is refused. */
  ghost function Updated(t: ChainTables, d: BlockData): ChainTables {
    if !HasParent(t.blocks, d.info) then t
    else Finished(HandledReorg(t, d.info), d, t.tip.blockHeight < d.info.height)
  }

  ghost function Announced(t: ChainTables, d: BlockData): Option<Message> {
    if HasParent(t.blocks, d.info) && t.tip.blockHeight < d.info.height then
      var st := Reorged(t, d.info);
      Some(MessageFor(HeaderFor(d.hash, d.info), st.applied, st.rolledBack))
    else None
  }

  // ---- In step with the chain --------------------------------------------------------------------

  ghost predicate TipAgrees(tip: ChainTip, c: Chain, txs: seq<Row<Tx>>)
    requires Good(c)
  {
    && tip.blockHeight == tip.blockCount == TipHeight(c)
    && tip.indexBlockHash == c.tip
    && tip.txCount == tip.txCountUnanchored == CountCanonical(txs)
  }

  /** Flags, balances, counters and tip are those of the canonical chain. */
  ghost predicate Aligned(t: ChainTables, c: Chain) {
    Good(c) && TipAgrees(t.tip, c, t.ledger.txs) && TablesSteady(t, c.known, SetOf(Canonical(c)))
  }

  ghost predicate TablesSteady(t: ChainTables, known: Blocks, s: set<Hash>) {
    Steady(BeforeReorg(t), known, s)
  }

  /** Unfolds the part of Aligned that speaks of the blocks table. */
  lemma AlignedBlocks(t: ChainTables, c: Chain)
    requires Aligned(t, c)
    ensures BlocksAgree(t.blocks, c.known, SetOf(Canonical(c)))
  {
    SteadyInStep(BeforeReorg(t), c.known, SetOf(Canonical(c)));
  }

  lemma AlignedFromStart()
    ensures Aligned(NO_TABLES, GENESIS)
  {
    var t, c := NO_TABLES, GENESIS;
    TracksSynced(t.ledger, t.balances, c.known, SetOf(Canonical(c)));
    SteadyInStep(BeforeReorg(t), c.known, SetOf(Canonical(c)));
  }

  /** A canonical set has one block per height. */
  lemma AlignedOnePerHeight(t: ChainTables, c: Chain)
    requires Aligned(t, c)
    ensures OnePerHeight(t.blocks)
  {
    AlignedBlocks(t, c);
    forall x, y | x in t.blocks && y in t.blocks && t.blocks[x].canonical && t.blocks[y].canonical && x != y
      ensures t.blocks[x].info.height != t.blocks[y].info.height
    {
      PathMember(c.known, c.tip.value, x);
      PathMember(c.known, c.tip.value, y);
    }
  }

  lemma SameParents(t: ChainTables, c: Chain, d: BlockData)
    requires Aligned(t, c)
    ensures HasParent(t.blocks, d.info) <==> Accepts(c, d)
    ensures d.hash in t.blocks <==> d.hash in c.known
    ensures t.tip.blockHeight == TipHeight(c)
  {
    AlignedBlocks(t, c);
  }

  /** The chain that the block extends, or the canonical one if it extends it by nothing. */
  ghost function Base(c: Chain, d: BlockData): seq<Hash>
    requires Good(c) && Accepts(c, d)
  {
    if d.info.height <= TipHeight(c) then Canonical(c)
    else if d.info.height <= 1 then [] else Path(c.known, d.info.parent)
  }

  ghost function Delivered(c: Chain, d: BlockData): seq<Hash>
    requires Good(c) && Accepts(c, d)
  {
    if d.info.height <= TipHeight(c) then Canonical(c) else Base(c, d) + [d.hash]
  }

  /** Without a re-org the block extends the tip, or does not matter. */
  lemma NoReorgBase(t: ChainTables, c: Chain, d: BlockData)
    requires Aligned(t, c) && Accepts(c, d) && HasParent(t.blocks, d.info) && !StartsReorg(t, d.info)
    ensures Base(c, d) == Canonical(c)
  {
    AlignedBlocks(t, c);
    if d.info.height <= 1 {
      assert c.tip.Some? ==> Grounded(c.known, c.tip.value);
    } else if TipHeight(c) < d.info.height {
      var p := d.info.parent;
      assert p in SetOf(Canonical(c));
      assert c.known[p].info.height <= TipHeight(c);
      PathMember(c.known, c.tip.value, p);
      PathLaws(c.known, c.tip.value);
    }
  }

  /** A re-org starts at the height of the tip: the fork and the old chain are rivals. */
  lemma ReorgRivals(t: ChainTables, c: Chain, d: BlockData)
    requires Aligned(t, c) && Accepts(c, d) && HasParent(t.blocks, d.info) && StartsReorg(t, d.info)
    ensures c.tip.Some? && Base(c, d) == Path(c.known, d.info.parent) && Canonical(c) == Path(c.known, c.tip.value)
    ensures Rivals(c.known, Base(c, d), Canonical(c))
    ensures Diverges(Base(c, d), Canonical(c), TipHeight(c), d.info.parent)
    ensures |Base(c, d)| == |Canonical(c)| == TipHeight(c)
    ensures Mixed(Base(c, d), Canonical(c), TipHeight(c)) == SetOf(Canonical(c))
  {
    AlignedBlocks(t, c);
    var p, tip := d.info.parent, c.tip.value;
    assert c.known[p].info.height <= TipHeight(c);
    PathLaws(c.known, tip);
    assert p !in SetOf(Canonical(c)) && tip in SetOf(Canonical(c));
    RivalPaths(c.known, p, tip);
  }

  lemma RivalPaths(known: Blocks, p: Hash, tip: Hash)
    requires Linked(known) && p in known && tip in known && p != tip && known[p].info.height == known[tip].info.height
    ensures Rivals(known, Path(known, p), Path(known, tip))
    ensures |Path(known, p)| == |Path(known, tip)| == known[tip].info.height
    ensures Diverges(Path(known, p), Path(known, tip), known[tip].info.height, p)
    ensures Mixed(Path(known, p), Path(known, tip), known[tip].info.height) == SetOf(Path(known, tip))
  {
    PathLaws(known, p);
    PathLaws(known, tip);
    PathIsChain(known, p);
    PathIsChain(known, tip);
    assert RivalChains(known, Path(known, p), Path(known, tip));
    var n := known[tip].info.height;
    assert Path(known, p)[n..] + Path(known, tip)[..n] == Path(known, tip);
  }

  /** The re-org leaves the base of the block canonical, and the counters follow the canonical txs. */
  ghost predicate Handled(t: ChainTables, t': ChainTables, known: Blocks, base: seq<Hash>) {
    && TablesSteady(t', known, SetOf(base))
    && t'.tip == MovedTip(t.tip, CountCanonical(t'.ledger.txs) - CountCanonical(t.ledger.txs))
  }

  lemma ReorgAligns(t: ChainTables, c: Chain, d: BlockData)
    requires Aligned(t, c) && Accepts(c, d)
    ensures HasParent(t.blocks, d.info) && Handled(t, HandledReorg(t, d.info), c.known, Base(c, d))
  {
    SameParents(t, c, d);
    if StartsReorg(t, d.info) {
      ReorgRivals(t, c, d);
      var j := RestoredFromTip(t, c.known, Base(c, d), Canonical(c), d.info.parent);
      RestoredHandles(t, Reorged(t, d.info), c.known, Base(c, d), Canonical(c), j);
    } else {
      NoReorgBase(t, c, d);
      SameHandled(t, c.known, Canonical(c));
    }
  }

  lemma SameHandled(t: ChainTables, known: Blocks, base: seq<Hash>)
    requires TablesSteady(t, known, SetOf(base)) && t.tip.txCount == t.tip.txCountUnanchored
    ensures Handled(t, AfterReorg(t.tip, BeforeReorg(t)), known, base)
  {
  }

  lemma RestoredHandles(t: ChainTables, st: ReOrgState, known: Blocks, fork: seq<Hash>, rival: seq<Hash>, j: nat)
    requires forall h :: h in fork || h in rival ==> h in known
    requires Steady(st, known, SetOf(fork)) && Replaced(BeforeReorg(t), st, known, fork, rival, |fork|, j)
    ensures Handled(t, AfterReorg(t.tip, st), known, fork)
  {
    SteadyInStep(st, known, SetOf(fork));
    SteadyInStep(BeforeReorg(AfterReorg(t.tip, st)), known, SetOf(fork));
  }

  lemma RestoredFromTip(t: ChainTables, known: Blocks, fork: seq<Hash>, rival: seq<Hash>, h: Hash) returns (j: nat)
    requires Rivals(known, fork, rival) && Diverges(fork, rival, |fork|, h) && |fork| == |rival|
    requires TablesSteady(t, known, Mixed(fork, rival, |fork|))
    ensures h in t.blocks
    ensures forall x :: x in fork || x in rival ==> x in known
    ensures var st := Restored(BeforeReorg(t), h);
      && Steady(st, known, SetOf(fork))
      && Replaced(BeforeReorg(t), st, known, fork, rival, |fork|, j)
  {
    j := RestoredIsFork(BeforeReorg(t), known, fork, rival, |fork|, h);
  }

  // ---- The insertion -----------------------------------------------------------------------------

  lemma BlocksInsert(blocks: BlockTable, known: Blocks, s: set<Hash>, d: BlockData, c: bool)
    requires BlocksAgree(blocks, known, s) && d.hash !in known && d.hash !in s
    ensures BlocksAgree(blocks[d.hash := BlockRow(d.info, c)], known[d.hash := d], if c then s + {d.hash} else s)
  {
  }

  /** A block taller than all others is new, and its insertion completes its path. */
  lemma DeliveredIsCanonical(c: Chain, d: BlockData)
    requires Good(c) && Accepts(c, d) && Fits(c, d)
    ensures Good(Deliver(c, d)) && Canonical(Deliver(c, d)) == Delivered(c, d)
    ensures TipHeight(c) < d.info.height ==> d.hash !in c.known
    ensures forall h :: h in SetOf(Base(c, d)) ==> h in c.known
    ensures SetOf(Delivered(c, d))
         == if TipHeight(c) < d.info.height then SetOf(Base(c, d)) + {d.hash} else SetOf(Base(c, d))
  {
    DeliverCanonical(c, d);
    CanonicalLaws(c);
    if TipHeight(c) < d.info.height && 1 < d.info.height {
      PathLaws(c.known, d.info.parent);
    }
  }

  lemma InsertSteady(t: ChainTables, known: Blocks, s: set<Hash>, d: BlockData, c: bool)
    requires TablesSteady(t, known, s) && ValidData(d) && d.hash !in known && d.hash !in s
    ensures TablesSteady(InsertedBlock(t, d, c), known[d.hash := d], if c then s + {d.hash} else s)
    ensures CountCanonical(InsertedBlock(t, d, c).ledger.txs) == CountCanonical(t.ledger.txs) + if c then |d.txs| else 0
    ensures InsertedBlock(t, d, c).tip == t.tip
  {
    SteadyInStep(BeforeReorg(t), known, s);
    BlocksInsert(t.blocks, known, s, d, c);
    InsertTracks(t.ledger, t.balances, known, s, d, c);
    SteadyInStep(BeforeReorg(InsertedBlock(t, d, c)), known[d.hash := d], if c then s + {d.hash} else s);
  }

  /** Delivering a known block again changes nothing at all. */
  lemma KnownChangesNothing(t: ChainTables, c: Chain, d: BlockData)
    requires Aligned(t, c) && Fits(c, d) && d.hash in c.known
    ensures Updated(t, d) == t && Deliver(c, d) == c && Announced(t, d) == None
  {
    SameParents(t, c, d);
    assert d.info.height <= TipHeight(c);
  }

  /** The main step: an update keeps the tables in step with the chain it delivers the block to. */
  lemma UpdateAligns(t: ChainTables, c: Chain, d: BlockData)
    requires Aligned(t, c) && Fits(c, d) && ValidData(d)
    ensures Aligned(Updated(t, d), Deliver(c, d))
  {
    SameParents(t, c, d);
    if d.hash in c.known {
      KnownChangesNothing(t, c, d);
    } else if Accepts(c, d) {
      NewBlockAligns(t, c, d);
    }
  }

  lemma NewBlockAligns(t: ChainTables, c: Chain, d: BlockData)
    requires Aligned(t, c) && Fits(c, d) && ValidData(d) && Accepts(c, d) && d.hash !in c.known
    ensures Aligned(Updated(t, d), Deliver(c, d))
  {
    SameParents(t, c, d);
    ReorgAligns(t, c, d);
    FinishAligns(t, HandledReorg(t, d.info), c, d);
  }

  lemma FinishSteady(t': ChainTables, c: Chain, d: BlockData)
    requires Good(c) && Fits(c, d) && ValidData(d) && Accepts(c, d) && d.hash !in c.known
    requires TablesSteady(t', c.known, SetOf(Base(c, d)))
    ensures var taller := TipHeight(c) < d.info.height;
      && TablesSteady(InsertedBlock(t', d, taller), Deliver(c, d).known, SetOf(Delivered(c, d)))
      && CountCanonical(InsertedBlock(t', d, taller).ledger.txs)
         == CountCanonical(t'.ledger.txs) + if taller then |d.txs| else 0
  {
    DeliveredIsCanonical(c, d);
    InsertSteady(t', c.known, SetOf(Base(c, d)), d, TipHeight(c) < d.info.height);
    assert Deliver(c, d).known == c.known[d.hash := d];
  }

  lemma FinishAligns(t: ChainTables, t': ChainTables, c: Chain, d: BlockData)
    requires Good(c) && TipAgrees(t.tip, c, t.ledger.txs)
    requires Fits(c, d) && ValidData(d) && Accepts(c, d) && d.hash !in c.known
    requires Handled(t, t', c.known, Base(c, d))
    ensures Aligned(Finished(t', d, TipHeight(c) < d.info.height), Deliver(c, d))
  {
    DeliveredIsCanonical(c, d);
    FinishSteady(t', c, d);
    assert BeforeReorg(Finished(t', d, TipHeight(c) < d.info.height))
        == BeforeReorg(InsertedBlock(t', d, TipHeight(c) < d.info.height));
  }

  /** Whether the block at the chain tip was signed. */
  predicate SignedTip(t: ChainTables) {
    t.tip.indexBlockHash.Some? && t.tip.indexBlockHash.value in t.blocks
      && t.blocks[t.tip.indexBlockHash.value].info.signed
  }

  /** It is the last canonical block that counts. */
  lemma SignedTipIsLast(t: ChainTables, c: Chain)
    requires Aligned(t, c)
    ensures SignedTip(t) <==> c.tip.Some? && c.known[c.tip.value].info.signed
  {
    AlignedBlocks(t, c);
  }

  lemma {:induction false} RestoredKeepsInfo(st: ReOrgState, h: Hash)
    requires h in st.blocks
    ensures Restored(st, h).blocks.Keys == st.blocks.Keys
    ensures forall x :: x in st.blocks ==> Restored(st, h).blocks[x].info == st.blocks[x].info
    decreases st.blocks[h].info.height
  {
    var next := Round(st, h);
    if GoesOn(next.blocks, h) {
      RestoredKeepsInfo(next, st.blocks[h].info.parent);
    }
  }

  /** st is what the re-org of the update ends in, folded. */
  ghost predicate LeadsTo(t: ChainTables, info: BlockInfo, st: ReOrgState) {
    forall k :: Opened(k, st) ==> HasParent(t.blocks, info) && st == Reorged(t, info)
  }

  lemma LeadsToReorged(t: ChainTables, info: BlockInfo, st: ReOrgState)
    ensures LeadsTo(t, info, st) <==> HasParent(t.blocks, info) && st == Reorged(t, info)
  {
    assert Opened(0, st);
  }

  lemma LeadsByRestoring(t: ChainTables, info: BlockInfo, st: ReOrgState)
    requires Reorgs(t, info) && RestoresTo(BeforeReorg(t), info.parent, st)
    ensures LeadsTo(t, info, st)
  {
    RestoresToRestored(BeforeReorg(t), info.parent, st);
  }

  lemma LeadsNowhere(t: ChainTables, info: BlockInfo, st: ReOrgState)
    requires LeadsTo(t, info, st) && info.height <= t.tip.blockHeight
    ensures st == BeforeReorg(t)
  {
    LeadsToReorged(t, info, st);
  }

  lemma LeadsKeepsBlocks(t: ChainTables, info: BlockInfo, st: ReOrgState)
    requires LeadsTo(t, info, st)
    ensures st.blocks.Keys == t.blocks.Keys
    ensures forall x :: x in t.blocks ==> st.blocks[x].info == t.blocks[x].info
  {
    LeadsToReorged(t, info, st);
    if StartsReorg(t, info) {
      RestoredKeepsInfo(BeforeReorg(t), info.parent);
    }
  }

  /** Until the tip moves on, it is the old tip that decides how the mempool is collected. */
  lemma SignedTipStays(t: ChainTables, d: BlockData, st: ReOrgState, canonical: bool)
    requires LeadsTo(t, d.info, st)
    requires t.tip.indexBlockHash.Some? ==> t.tip.indexBlockHash.value in t.blocks
    ensures SignedTip(InsertedBlock(AfterReorg(t.tip, st), d, canonical)) == SignedTip(t)
  {
    LeadsKeepsBlocks(t, d.info, st);
  }

  /** What the update amounts to, given where its re-org leads. */
  lemma LeadsToUpdated(t: ChainTables, d: BlockData, st: ReOrgState)
    requires LeadsTo(t, d.info, st)
    ensures Updated(t, d) == Finished(AfterReorg(t.tip, st), d, t.tip.blockHeight < d.info.height)
    ensures OrphansTxs(t, d.info) <==> st.unmarked > 0
    ensures Announced(t, d)
         == if t.tip.blockHeight < d.info.height
            then Some(MessageFor(HeaderFor(d.hash, d.info), st.applied, st.rolledBack)) else None
  {
    LeadsToReorged(t, d.info, st);
  }

  // ---- The message -------------------------------------------------------------------------------

  /** The message rolls back the old chain from position j on and applies the new one from there. */
  ghost predicate Switches(m: Message, before: seq<BlockHeader>, after: seq<BlockHeader>, j: nat) {
    && j <= |before| && j < |after|
    && before[..j] == after[..j]
    && (j < |before| ==> before[j] != after[j])
    && m == Message(after[j..], before[j..])
  }

  ghost function CanonicalHeaders(c: Chain): seq<BlockHeader>
    requires Good(c)
  {
    CanonicalLaws(c);
    BlockHeaders(c.known, Canonical(c))
  }

  lemma HeadersStay(c: Chain, d: BlockData)
    requires Good(c) && Fits(c, d) && (!Accepts(c, d) || d.info.height <= TipHeight(c))
    ensures Good(Deliver(c, d)) && CanonicalHeaders(Deliver(c, d)) == CanonicalHeaders(c)
  {
    DeliverCanonical(c, d);
    CanonicalLaws(c);
  }

  lemma HeadersExtend(c: Chain, d: BlockData)
    requires Good(c) && Fits(c, d) && Accepts(c, d) && TipHeight(c) < d.info.height
    ensures forall h :: h in Base(c, d) ==> h in c.known
    ensures Good(Deliver(c, d))
    ensures CanonicalHeaders(Deliver(c, d))
         == BlockHeaders(c.known, Base(c, d)) + [BlockHeader(d.hash, d.info.height, d.info.time)]
  {
    DeliveredIsCanonical(c, d);
  }

  /** The message of a re-org: everything above the last common block. */
  lemma ReorgSwitches(t: ChainTables, c: Chain, d: BlockData) returns (j: nat)
    requires Aligned(t, c) && Fits(c, d) && Accepts(c, d) && HasParent(t.blocks, d.info) && StartsReorg(t, d.info)
    ensures Announced(t, d).Some? && Good(Deliver(c, d))
    ensures Switches(Announced(t, d).value, CanonicalHeaders(c), CanonicalHeaders(Deliver(c, d)), j)
  {
    ReorgRivals(t, c, d);
    HeadersExtend(c, d);
    j := RestoredFromTip(t, c.known, Base(c, d), Canonical(c), d.info.parent);
    ReplacedSwitches(BeforeReorg(t), Reorged(t, d.info), c.known, Base(c, d), Canonical(c), j, HeaderFor(d.hash,
      d.info));
  }

  lemma ReplacedSwitches(st: ReOrgState, st': ReOrgState, known: Blocks, fork: seq<Hash>, rival: seq<Hash>, j: nat,
                         block: BlockHeader)
    requires forall h :: h in fork || h in rival ==> h in known
    requires |fork| == |rival| && Replaced(st, st', known, fork, rival, |fork|, j)
    requires st.applied == st.rolledBack == []
    ensures Switches(MessageFor(block, st'.applied, st'.rolledBack),
                     BlockHeaders(known, rival), BlockHeaders(known, fork) + [block], j)
  {
    assert fork[j..|fork|] == fork[j..] && rival[j..|fork|] == rival[j..];
    SplitHeaders(known, fork, rival, j);
    var all := BlockHeaders(known, fork) + [block];
    assert all[j..] == BlockHeaders(known, fork)[j..] + [block];
    assert all[..j] == BlockHeaders(known, fork)[..j];
  }

  lemma SplitHeaders(known: Blocks, p: seq<Hash>, q: seq<Hash>, j: nat)
    requires forall h :: h in p || h in q ==> h in known
    requires j < |p| && j < |q| && p[..j] == q[..j] && p[j] != q[j]
    ensures BlockHeaders(known, p)[j..] == BlockHeaders(known, p[j..])
    ensures BlockHeaders(known, q)[j..] == BlockHeaders(known, q[j..])
    ensures BlockHeaders(known, p)[..j] == BlockHeaders(known, q)[..j]
    ensures BlockHeaders(known, p)[j] != BlockHeaders(known, q)[j]
  {
    forall i | 0 <= i < j
      ensures p[i] == q[i]
    {
      assert p[..j][i] == q[..j][i];
    }
  }

  /** The message of a block on top of the tip: that block. */
  lemma ExtensionSwitches(t: ChainTables, c: Chain, d: BlockData)
    requires Aligned(t, c) && Fits(c, d) && Accepts(c, d) && HasParent(t.blocks, d.info) && !StartsReorg(t, d.info)
    requires TipHeight(c) < d.info.height && t.tip.blockHeight == TipHeight(c)
    ensures Announced(t, d).Some? && Good(Deliver(c, d))
    ensures Switches(Announced(t, d).value, CanonicalHeaders(c), CanonicalHeaders(Deliver(c, d)), |CanonicalHeaders(c)|)
  {
    NoReorgBase(t, c, d);
    HeadersExtend(c, d);
  }

  /** The message tells hash, height and time of the blocks of the two chains from position j on. */
  ghost predicate Tells(m: Message, known: Blocks, before: seq<Hash>, after: seq<Hash>, j: nat) {
    && j <= |before| && j < |after|
    && before[..j] == after[..j]
    && (j < |before| ==> before[j] != after[j])
    && |m.rollbackBlocks| == |before| - j && |m.applyBlocks| == |after| - j
    && (forall i :: 0 <= i < |before| - j ==>
          Describes(m.rollbackBlocks[i], known, before[j + i]) && m.rollbackBlocks[i].height == j + i + 1)
    && (forall i :: 0 <= i < |after| - j ==>
          Describes(m.applyBlocks[i], known, after[j + i]) && m.applyBlocks[i].height == j + i + 1)
  }

  /** The headers are those of the hashes, in ascending height order. */
  ghost predicate HeadersTell(headers: seq<BlockHeader>, known: Blocks, path: seq<Hash>) {
    && |headers| == |path|
    && forall i :: 0 <= i < |path| ==> Describes(headers[i], known, path[i]) && headers[i].height == i + 1
  }

  lemma SwitchTells(m: Message, known: Blocks, before: seq<BlockHeader>, p: seq<Hash>, after: seq<BlockHeader>,
                    q: seq<Hash>, j: nat)
    requires HeadersTell(before, known, p) && HeadersTell(after, known, q) && Switches(m, before, after, j)
    ensures Tells(m, known, p, q, j)
  {
    forall i | 0 <= i < j
      ensures p[i] == q[i]
    {
      assert before[..j][i] == after[..j][i];
      assert Describes(before[i], known, p[i]) && Describes(after[i], known, q[i]);
    }
    assert j < |p| ==> Describes(before[j], known, p[j]) && Describes(after[j], known, q[j]);
  }

  lemma CanonicalTold(c: Chain, known: Blocks)
    requires Good(c) && forall h :: h in c.known ==> h in known && known[h] == c.known[h]
    ensures HeadersTell(CanonicalHeaders(c), known, Canonical(c))
  {
    CanonicalLaws(c);
    forall i | 0 <= i < |Canonical(c)|
      ensures Describes(CanonicalHeaders(c)[i], known, Canonical(c)[i]) && CanonicalHeaders(c)[i].height == i + 1
    {
      assert Describes(CanonicalHeaders(c)[i], c.known, Canonical(c)[i]);
    }
  }

  /** The message switches from the one chain to the other. */
  ghost predicate Announces(m: Message, c: Chain, c': Chain)
    requires Good(c) && Good(c')
  {
    exists j: nat :: Switches(m, CanonicalHeaders(c), CanonicalHeaders(c'), j)
      && Tells(m, c'.known, Canonical(c), Canonical(c'), j)
  }

  lemma SwitchAnnounces(m: Message, c: Chain, c': Chain, j: nat)
    requires Good(c) && Good(c') && forall h :: h in c.known ==> h in c'.known && c'.known[h] == c.known[h]
    requires Switches(m, CanonicalHeaders(c), CanonicalHeaders(c'), j)
    ensures Announces(m, c, c')
  {
    CanonicalTold(c, c'.known);
    CanonicalTold(c', c'.known);
    SwitchTells(m, c'.known, CanonicalHeaders(c), Canonical(c), CanonicalHeaders(c'), Canonical(c'), j);
  }

  lemma DeliverKeepsKnown(c: Chain, d: BlockData)
    requires Good(c) && Fits(c, d)
    ensures Good(Deliver(c, d))
    ensures forall h :: h in c.known ==> h in Deliver(c, d).known && Deliver(c, d).known[h] == c.known[h]
  {
    DeliverKeepsGood(c, d);
  }

  lemma ReorgAnnounces(t: ChainTables, c: Chain, d: BlockData)
    requires Aligned(t, c) && Fits(c, d) && Accepts(c, d) && HasParent(t.blocks, d.info) && StartsReorg(t, d.info)
    ensures Announced(t, d).Some? && Good(Deliver(c, d)) && Announces(Announced(t, d).value, c, Deliver(c, d))
  {
    var j := ReorgSwitches(t, c, d);
    DeliverKeepsKnown(c, d);
    SwitchAnnounces(Announced(t, d).value, c, Deliver(c, d), j);
  }

  lemma ExtensionAnnounces(t: ChainTables, c: Chain, d: BlockData)
    requires Aligned(t, c) && Fits(c, d) && Accepts(c, d) && HasParent(t.blocks, d.info) && !StartsReorg(t, d.info)
    requires TipHeight(c) < d.info.height && t.tip.blockHeight == TipHeight(c)
    ensures Announced(t, d).Some? && Good(Deliver(c, d)) && Announces(Announced(t, d).value, c, Deliver(c, d))
  {
    ExtensionSwitches(t, c, d);
    DeliverKeepsKnown(c, d);
    SwitchAnnounces(Announced(t, d).value, c, Deliver(c, d), |CanonicalHeaders(c)|);
  }

  /**
   Exactly the updates that change the canonical chain announce a message. It rolls back no more than
   the part of the old chain that is gone and applies exactly the part that is new.
   */
  lemma AnnouncesSwitch(t: ChainTables, c: Chain, d: BlockData)
    requires Aligned(t, c) && Fits(c, d)
    ensures Good(Deliver(c, d))
    ensures Announced(t, d).None? ==> CanonicalHeaders(Deliver(c, d)) == CanonicalHeaders(c)
    ensures Announced(t, d).Some? ==> Announces(Announced(t, d).value, c, Deliver(c, d))
  {
    SameParents(t, c, d);
    if !Accepts(c, d) || d.info.height <= TipHeight(c) {
      HeadersStay(c, d);
    } else if StartsReorg(t, d.info) {
      ReorgAnnounces(t, c, d);
    } else {
      ExtensionAnnounces(t, c, d);
    }
  }
}
