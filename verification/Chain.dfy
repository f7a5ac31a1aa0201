/**
 What the canonical chain is: the delivered blocks, the tip, and the path of parents from the tip
 down to height 1. This is the reference the incremental writer is proved against.
 */
module Chain {
  import opened Types

  type Blocks = map<Hash, BlockData>

  /** A block above height 1 has its parent, one height below, among the delivered blocks. */
  ghost predicate Grounded(known: Blocks, h: Hash)
    requires h in known
  {
    && 1 <= known[h].info.height
    && (1 < known[h].info.height ==>
          known[h].info.parent in known && known[known[h].info.parent].info.height == known[h].info.height - 1)
  }

  // The trigger keeps the verifier from walking up the parents by itself.
  ghost predicate Linked(known: Blocks) {
    forall h {:trigger Grounded(known, h)} :: h in known ==> Grounded(known, h)
  }

  /** The block h and its ancestors, in ascending height order. */
  ghost function Path(known: Blocks, h: Hash): seq<Hash>
    requires Linked(known) && h in known
    decreases known[h].info.height
  {
    assert Grounded(known, h);
    if known[h].info.height == 1 then [h] else Path(known, known[h].info.parent) + [h]
  }

  lemma {:induction false} PathLaws(known: Blocks, h: Hash)
    requires Linked(known) && h in known
    ensures |Path(known, h)| == known[h].info.height
    ensures Path(known, h)[|Path(known, h)| - 1] == h
    ensures forall i :: 0 <= i < |Path(known, h)| ==>
      Path(known, h)[i] in known && known[Path(known, h)[i]].info.height == i + 1
    decreases known[h].info.height
  {
    assert Grounded(known, h);
    if known[h].info.height > 1 {
      PathLaws(known, known[h].info.parent);
    }
  }

  /** A prefix of a path is the path of its last block. */
  lemma {:induction false} PathPrefix(known: Blocks, h: Hash, n: nat)
    requires Linked(known) && h in known && n < |Path(known, h)|
    ensures Path(known, h)[n] in known
    ensures Path(known, Path(known, h)[n]) == Path(known, h)[..n + 1]
    decreases known[h].info.height
  {
    PathLaws(known, h);
    assert Grounded(known, h);
    if n < |Path(known, h)| - 1 {
      var p := known[h].info.parent;
      PathLaws(known, p);
      PathPrefix(known, p, n);
      assert Path(known, h)[..n + 1] == Path(known, p)[..n + 1];
    } else {
      assert Path(known, h)[..n + 1] == Path(known, h);
    }
  }

  /** A path is the only one of its length that ends where it ends: membership is position. */
  lemma PathMember(known: Blocks, h: Hash, x: Hash)
    requires Linked(known) && h in known
    ensures x in Path(known, h) <==>
      x in known && 1 <= known[x].info.height <= |Path(known, h)| && Path(known, h)[known[x].info.height - 1] == x
  {
    PathLaws(known, h);
  }

  /** New blocks leave the paths of old ones alone. */
  lemma {:induction false} PathExtends(known: Blocks, more: Blocks, h: Hash)
    requires Linked(known) && Linked(more) && h in known
    requires forall x :: x in known ==> x in more && more[x] == known[x]
    ensures Path(more, h) == Path(known, h)
    decreases known[h].info.height
  {
    assert Grounded(known, h) && Grounded(more, h);
    if known[h].info.height > 1 {
      PathExtends(known, more, known[h].info.parent);
    }
  }

  // ---- The abstract chain ----------------------------------------------------------------------

  datatype Chain = Chain(known: Blocks, tip: Option<Hash>)

  const GENESIS := Chain(map[], None)

  function TipHeight(c: Chain): nat
    requires c.tip.Some? ==> c.tip.value in c.known
  {
    if c.tip.Some? then c.known[c.tip.value].info.height else 0
  }

  /** The tip is the tallest delivered block; there is none only before the first block. */
  ghost predicate Good(c: Chain) {
    && Linked(c.known)
    && (forall h :: h in c.known ==> c.known[h].hash == h)
    && (c.tip.None? <==> c.known == map[])
    && (c.tip.Some? ==> c.tip.value in c.known)
    && (forall h :: h in c.known ==> c.known[h].info.height <= TipHeight(c))
  }

  /** The canonical chain, ascending. */
  ghost function Canonical(c: Chain): seq<Hash>
    requires Good(c)
  {
    if c.tip.Some? then Path(c.known, c.tip.value) else []
  }

  /** A block is accepted at height 1, or on top of a delivered parent one height below. */
  predicate Accepts(c: Chain, d: BlockData) {
    d.info.height <= 1
    || (d.info.parent in c.known && c.known[d.info.parent].info.height == d.info.height - 1)
  }

  /** A hash identifies the content of its block. */
  ghost predicate Fits(c: Chain, d: BlockData) {
    1 <= d.info.height && (d.hash in c.known ==> c.known[d.hash] == d)
  }

  /** Deliver one block: keep it, and move the tip only to a strictly taller block. */
  function Deliver(c: Chain, d: BlockData): Chain
    requires c.tip.Some? ==> c.tip.value in c.known
  {
    if !Accepts(c, d) || d.hash in c.known then c
    else Chain(c.known[d.hash := d], if TipHeight(c) < d.info.height then Some(d.hash) else c.tip)
  }

  lemma DeliverKeepsGood(c: Chain, d: BlockData)
    requires Good(c) && Fits(c, d)
    ensures Good(Deliver(c, d))
  {
    var c' := Deliver(c, d);
    forall h | h in c'.known
      ensures Grounded(c'.known, h)
    {
      assert h != d.hash ==> Grounded(c.known, h);
      assert d.hash in c.known ==> Grounded(c.known, d.hash);
    }
  }

  /** The tip's height is the number of canonical blocks, one per height, parent-linked. */
  lemma CanonicalLaws(c: Chain)
    requires Good(c)
    ensures |Canonical(c)| == TipHeight(c)
    ensures forall i :: 0 <= i < |Canonical(c)| ==>
      Canonical(c)[i] in c.known && c.known[Canonical(c)[i]].info.height == i + 1
    ensures forall i :: 0 < i < |Canonical(c)| ==> c.known[Canonical(c)[i]].info.parent == Canonical(c)[i - 1]
  {
    if c.tip.Some? {
      PathLaws(c.known, c.tip.value);
      forall i | 0 < i < |Canonical(c)|
        ensures c.known[Canonical(c)[i]].info.parent == Canonical(c)[i - 1]
      {
        PathPrefix(c.known, c.tip.value, i);
        assert Grounded(c.known, Canonical(c)[i]);
        PathLaws(c.known, c.known[Canonical(c)[i]].info.parent);
      }
    }
  }

  /** Delivering a block keeps the chain, unless the block is taller: then the chain is its path. */
  lemma DeliverCanonical(c: Chain, d: BlockData)
    requires Good(c) && Fits(c, d)
    ensures Good(Deliver(c, d))
    ensures Accepts(c, d) && TipHeight(c) < d.info.height ==>
      && d.hash !in c.known
      && d.info.height == TipHeight(c) + 1
      && Canonical(Deliver(c, d)) == (if d.info.height == 1 then [] else Path(c.known, d.info.parent)) + [d.hash]
    ensures !Accepts(c, d) || d.info.height <= TipHeight(c) ==> Canonical(Deliver(c, d)) == Canonical(c)
  {
    DeliverKeepsGood(c, d);
    var c' := Deliver(c, d);
    if Accepts(c, d) && TipHeight(c) < d.info.height {
      assert Grounded(c'.known, d.hash);
      if d.info.height > 1 {
        PathExtends(c.known, c'.known, d.info.parent);
      }
    } else if c.tip.Some? {
      PathExtends(c.known, c'.known, c.tip.value);
    }
  }

  // ---- Runs ------------------------------------------------------------------------------------

  ghost function Run(s: seq<BlockData>): Chain
    ensures Run(s).tip.Some? ==> Run(s).tip.value in Run(s).known
  {
    if s == [] then GENESIS else Deliver(Run(s[..|s| - 1]), s[|s| - 1])
  }

  /** A block may come next if its parent came before, and a block of the same hash is the same block. */
  ghost predicate MayFollow(s: seq<BlockData>, d: BlockData) {
    && 1 <= d.info.height
    && (forall e :: e in s && e.hash == d.hash ==> e == d)
    && (1 < d.info.height ==>
          exists e :: e in s && e.hash == d.info.parent && e.info.height == d.info.height - 1)
  }

  /** A run in which every block finds its parent delivered; duplicates may occur anywhere. */
  ghost predicate ParentFirst(s: seq<BlockData>) {
    s == [] || (ParentFirst(s[..|s| - 1]) && MayFollow(s[..|s| - 1], s[|s| - 1]))
  }

  /** Position i holds the tallest block of the run, seen before any other block of that height. */
  ghost predicate FirstTallest(s: seq<BlockData>, i: int) {
    && 0 <= i < |s|
    && (forall j :: 0 <= j < |s| ==> s[j].info.height <= s[i].info.height)
    && (forall j :: 0 <= j < i ==> s[j].info.height < s[i].info.height)
  }

  /** The delivered blocks are exactly those of the run. */
  ghost predicate Keeps(c: Chain, s: seq<BlockData>) {
    && (forall d :: d in s ==> d.hash in c.known && c.known[d.hash] == d)
    && (forall h :: h in c.known ==> c.known[h] in s && c.known[h].hash == h)
  }

  lemma NextIsAccepted(c: Chain, s: seq<BlockData>)
    requires s != [] && ParentFirst(s) && Keeps(c, s[..|s| - 1])
    ensures Accepts(c, s[|s| - 1]) && Fits(c, s[|s| - 1])
  {
  }

  lemma {:induction false} RunKeepsBlocks(s: seq<BlockData>)
    requires ParentFirst(s)
    ensures Good(Run(s)) && Keeps(Run(s), s)
  {
    if s != [] {
      var init, d := s[..|s| - 1], s[|s| - 1];
      RunKeepsBlocks(init);
      NextIsAccepted(Run(init), s);
      DeliverKeepsGood(Run(init), d);
      assert s == init + [d];
    }
  }

  lemma KeptHeights(c: Chain, s: seq<BlockData>)
    requires Good(c) && Keeps(c, s)
    ensures forall j :: 0 <= j < |s| ==> s[j].info.height <= TipHeight(c)
  {
    forall j | 0 <= j < |s|
      ensures s[j].info.height <= TipHeight(c)
    {
      assert s[j] in s;
    }
  }

  lemma TallestNext(s: seq<BlockData>, top: nat, d: BlockData, i: int)
    requires forall j :: 0 <= j < |s| ==> s[j].info.height <= top
    requires if top < d.info.height then i == |s| else FirstTallest(s, i) && s[i].info.height == top
    ensures FirstTallest(s + [d], i)
  {
  }

  lemma RunStep(s: seq<BlockData>, d: BlockData)
    requires ParentFirst(s + [d])
    ensures ParentFirst(s) && Good(Run(s)) && Keeps(Run(s), s)
    ensures Run(s + [d]) == Deliver(Run(s), d) && Accepts(Run(s), d) && Fits(Run(s), d)
  {
    assert (s + [d])[..|s + [d]| - 1] == s;
    RunKeepsBlocks(s);
    NextIsAccepted(Run(s), s + [d]);
  }

  /** The tip after a run is the first seen tallest block. */
  lemma {:induction false} RunTip(s: seq<BlockData>) returns (i: int)
    requires ParentFirst(s) && s != []
    ensures FirstTallest(s, i) && Run(s).tip == Some(s[i].hash)
    decreases |s|
  {
    var init, d := s[..|s| - 1], s[|s| - 1];
    assert s == init + [d];
    RunStep(init, d);
    KeptHeights(Run(init), init);
    if TipHeight(Run(init)) < d.info.height {
      i := |init|;
      assert Run(s).tip == Some(d.hash);
    } else {
      assert init != [];
      i := RunTip(init);
      assert init[i] in init && Run(s).tip == Run(init).tip;
    }
    TallestNext(init, TipHeight(Run(init)), d, i);
  }

  lemma SameBlocksKept(c: Chain, e: Chain, s: seq<BlockData>, t: seq<BlockData>)
    requires Good(c) && Good(e) && Keeps(c, s) && Keeps(e, t)
    requires forall d :: d in s <==> d in t
    ensures c.known == e.known
  {
    forall h | h in c.known
      ensures h in e.known && e.known[h] == c.known[h]
    {
      assert c.known[h] in t;
    }
    forall h | h in e.known
      ensures h in c.known
    {
      assert e.known[h] in s;
    }
  }

  /**
   Convergence: two runs over the same blocks, in different orders and with repetitions, deliver the
   same blocks, and they end in the same chain exactly when they saw the same tallest block first.
   */
  lemma RunsConverge(s: seq<BlockData>, i: int, t: seq<BlockData>, j: int)
    requires ParentFirst(s) && ParentFirst(t)
    requires forall d :: d in s <==> d in t
    requires FirstTallest(s, i) && FirstTallest(t, j)
    ensures Run(s).known == Run(t).known
    ensures Run(s).tip == Some(s[i].hash) && Run(t).tip == Some(t[j].hash)
    ensures Run(s) == Run(t) <==> s[i] == t[j]
  {
    RunKeepsBlocks(s);
    RunKeepsBlocks(t);
    SameBlocksKept(Run(s), Run(t), s, t);
    var i' := RunTip(s);
    var j' := RunTip(t);
    assert s[i] in s && t[j] in t;
  }

  /** In particular a unique tallest block makes the order irrelevant. */
  lemma UniqueTallestConverges(s: seq<BlockData>, t: seq<BlockData>, d: BlockData)
    requires ParentFirst(s) && ParentFirst(t)
    requires forall x :: x in s <==> x in t
    requires d in s && forall x :: x in s && x != d ==> x.info.height < d.info.height
    ensures Run(s) == Run(t) && Run(s).tip == Some(d.hash)
  {
    assert d in t;
    var i :| 0 <= i < |s| && s[i] == d;
    var j :| 0 <= j < |t| && t[j] == d;
    RunKeepsBlocks(s);
    RunKeepsBlocks(t);
    SameBlocksKept(Run(s), Run(t), s, t);
    var i' := RunTip(s);
    var j' := RunTip(t);
    assert s[i'] in s && t[j'] in t;
  }
}
