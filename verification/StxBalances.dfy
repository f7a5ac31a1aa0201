/**
 The two STX balances served to clients: the v1 aggregate over events, fees and matured rewards up to a
 height, and the v2 lookup in ft_balances.
 */
module StxBalances {
  import opened Types
  import opened Balances
  import opened Tables
  import opened Chain
  import opened Ledger
  import opened ReOrg
  import opened ReOrgStates
  import opened BlockUpdates
  import opened Runs
  import opened TokenHolders

  /** SUM(amount) of events the address is the recipient of, whatever their type. */
  function CreditTotal(rows: seq<Row<StxEvent>>, a: Address, height: nat): nat {
    if rows == [] then 0
    else
      var r := rows[|rows| - 1];
      CreditTotal(rows[..|rows| - 1], a, height)
      + if r.canonical && r.data.recipient == Some(a) && r.blockHeight <= height then r.data.amount else 0
  }

  function DebitTotal(rows: seq<Row<StxEvent>>, a: Address, height: nat): nat {
    if rows == [] then 0
    else
      var r := rows[|rows| - 1];
      DebitTotal(rows[..|rows| - 1], a, height)
      + if r.canonical && r.data.sender == Some(a) && r.blockHeight <= height then r.data.amount else 0
  }

  function FeeTotal(rows: seq<Row<Tx>>, a: Address, height: nat): nat {
    if rows == [] then 0
    else
      var r := rows[|rows| - 1];
      FeeTotal(rows[..|rows| - 1], a, height)
      + if r.canonical && ((r.data.sender == a && r.data.sponsor.None?) || r.data.sponsor == Some(a))
           && r.blockHeight <= height then r.data.fee else 0
  }

  /** Rewards count from the height at which they mature, not from their block's. */
  function MatureRewards(rows: seq<Row<Reward>>, a: Address, height: nat): nat {
    if rows == [] then 0
    else
      var r := rows[|rows| - 1];
      MatureRewards(rows[..|rows| - 1], a, height)
      + if r.canonical && r.data.recipient == a && r.data.matureBlockHeight <= height
        then r.data.coinbase + r.data.feesAnchored + r.data.feesStreamedConfirmed + r.data.feesStreamedProduced else 0
  }

  /** internalGetStxBalanceAtBlock: the sums, without the lock state. */
  function StxBalanceAtBlock(l: Ledger, a: Address, height: nat): int {
    CreditTotal(l.stxEvents, a, height) - DebitTotal(l.stxEvents, a, height)
    - FeeTotal(l.txs, a, height) + MatureRewards(l.rewards, a, height)
  }

  /** getStxHolderBalance: not found without a row. */
  function StxHolderBalance(b: BalanceTable, a: Address): Option<int> {
    if Key(a, Stx) in b then Some(b[Key(a, Stx)]) else None
  }

  /** What the aggregate leaves out: canonical rewards that mature above the height. */
  function ImmatureRewards(rows: seq<Row<Reward>>, a: Address, height: nat): nat {
    if rows == [] then 0
    else
      var r := rows[|rows| - 1];
      ImmatureRewards(rows[..|rows| - 1], a, height)
      + if r.canonical && r.data.recipient == a && height < r.data.matureBlockHeight
        then r.data.coinbase + r.data.feesAnchored + r.data.feesStreamedConfirmed + r.data.feesStreamedProduced else 0
  }

  ghost predicate UpTo<T>(rows: seq<Row<T>>, height: nat) {
    forall i :: 0 <= i < |rows| && rows[i].canonical ==> rows[i].blockHeight <= height
  }

  lemma {:induction false} EventTotals(rows: seq<Row<StxEvent>>, a: Address, height: nat)
    requires UpTo(rows, height) && forall i :: 0 <= i < |rows| ==> WellFormed(rows[i].data)
    ensures CreditTotal(rows, a, height) == ReceivedStx(rows, a)
    ensures DebitTotal(rows, a, height) == SentStx(rows, a)
  {
    if rows != [] {
      EventTotals(rows[..|rows| - 1], a, height);
    }
  }

  lemma {:induction false} FeeTotals(rows: seq<Row<Tx>>, a: Address, height: nat)
    requires UpTo(rows, height)
    ensures FeeTotal(rows, a, height) == FeesPaid(rows, a)
  {
    if rows != [] {
      FeeTotals(rows[..|rows| - 1], a, height);
    }
  }

  lemma {:induction false} RewardTotals(rows: seq<Row<Reward>>, a: Address, height: nat)
    ensures MatureRewards(rows, a, height) + ImmatureRewards(rows, a, height) == RewardsPaid(rows, a)
  {
    if rows != [] {
      RewardTotals(rows[..|rows| - 1], a, height);
    }
  }

  lemma CanonicalUpTo<T>(rows: seq<Row<T>>, c: Chain)
    requires Good(c) && Agrees(rows, c.known, SetOf(Canonical(c)))
    ensures UpTo(rows, TipHeight(c))
  {
    CanonicalLaws(c);
  }

  /**
   At the tip the table holds the aggregate balance plus the rewards that have not matured, so the two
   services agree on an address exactly when it has no canonical reward left to mature.
   */
  lemma TableIsAggregate(t: ChainTables, c: Chain, a: Address)
    requires Aligned(t, c) && forall h :: h in c.known ==> ValidData(c.known[h])
    ensures var v1 := StxBalanceAtBlock(t.ledger, a, t.tip.blockHeight);
            var immature := ImmatureRewards(t.ledger.rewards, a, t.tip.blockHeight);
      && BalanceOf(t.balances, Key(a, Stx)) == v1 + immature
      && (BalanceOf(t.balances, Key(a, Stx)) == v1 <==> immature == 0)
      && (StxHolderBalance(t.balances, a) == None ==> v1 + immature == 0)
      && (StxHolderBalance(t.balances, a).Some? ==> StxHolderBalance(t.balances, a).value == v1 + immature)
  {
    var l := t.ledger;
    RunEventsWellFormed(t, c);
    AlignedInStep(t, c);
    CanonicalUpTo(l.stxEvents, c);
    CanonicalUpTo(l.txs, c);
    EventTotals(l.stxEvents, a, TipHeight(c));
    FeeTotals(l.txs, a, TipHeight(c));
    RewardTotals(l.rewards, a, TipHeight(c));
    BalancesAreMigrated(t, c, Key(a, Stx));
  }

  ghost predicate MaturesInBlock(d: BlockData) {
    forall r :: r in d.rewards ==> r.matureBlockHeight <= d.info.height
  }

  lemma {:induction false} NothingImmature(rows: seq<Row<Reward>>, a: Address, height: nat)
    requires forall i :: 0 <= i < |rows| && rows[i].canonical ==> rows[i].data.matureBlockHeight <= height
    ensures ImmatureRewards(rows, a, height) == 0
  {
    if rows != [] {
      NothingImmature(rows[..|rows| - 1], a, height);
    }
  }

  /** Rewards arrive with the block at whose height they mature: then v1 and v2 agree after every run. */
  lemma BalancesAgreeAtTip(s: seq<BlockData>, a: Address)
    requires Genuine(s) && forall d :: d in s ==> MaturesInBlock(d)
    ensures var t := RunTables(s);
      && StxBalanceAtBlock(t.ledger, a, t.tip.blockHeight) == BalanceOf(t.balances, Key(a, Stx))
      && var v2 := StxHolderBalance(t.balances, a);
         StxBalanceAtBlock(t.ledger, a, t.tip.blockHeight) == if v2.Some? then v2.value else 0
  {
    RunAligned(s);
    var t, c := RunTables(s), Run(s);
    AlignedInStep(t, c);
    CanonicalUpTo(t.ledger.rewards, c);
    var rows := t.ledger.rewards;
    forall i | 0 <= i < |rows| && rows[i].canonical
      ensures rows[i].data.matureBlockHeight <= TipHeight(c)
    {
      RowInData(rows, i);
      assert Contains(t.ledger, c.known[rows[i].indexBlockHash]);
      assert MaturesInBlock(c.known[rows[i].indexBlockHash]);
    }
    NothingImmature(rows, a, TipHeight(c));
    TableIsAggregate(t, c, a);
  }

  // ---- Below the tip -----------------------------------------------------------------------------

  /** The rows as they were flagged when the chain was n blocks high. */
  function Cut<T>(rows: seq<Row<T>>, n: nat): (r: seq<Row<T>>)
    ensures |r| == |rows|
    ensures forall i :: 0 <= i < |r| ==> r[i] == rows[i].(canonical := rows[i].canonical && rows[i].blockHeight <= n)
  {
    if rows == [] then []
    else
      var r := rows[|rows| - 1];
      Cut(rows[..|rows| - 1], n) + [r.(canonical := r.canonical && r.blockHeight <= n)]
  }

  lemma {:induction false} CutData<T>(rows: seq<Row<T>>, n: nat, h: Hash)
    ensures DataOf(Cut(rows, n), h) == DataOf(rows, h)
  {
    if rows != [] {
      CutData(rows[..|rows| - 1], n, h);
    }
  }

  lemma {:induction false} CutEvents(rows: seq<Row<StxEvent>>, a: Address, n: nat)
    requires forall i :: 0 <= i < |rows| ==> WellFormed(rows[i].data)
    ensures CreditTotal(rows, a, n) == ReceivedStx(Cut(rows, n), a)
    ensures DebitTotal(rows, a, n) == SentStx(Cut(rows, n), a)
  {
    if rows != [] {
      CutEvents(rows[..|rows| - 1], a, n);
    }
  }

  lemma {:induction false} CutFees(rows: seq<Row<Tx>>, a: Address, n: nat)
    ensures FeeTotal(rows, a, n) == FeesPaid(Cut(rows, n), a)
  {
    if rows != [] {
      CutFees(rows[..|rows| - 1], a, n);
    }
  }

  lemma {:induction false} CutRewards(rows: seq<Row<Reward>>, a: Address, n: nat)
    requires forall i :: 0 <= i < |rows| && rows[i].canonical ==> rows[i].data.matureBlockHeight == rows[i].blockHeight
    ensures MatureRewards(rows, a, n) == RewardsPaid(Cut(rows, n), a)
  {
    if rows != [] {
      CutRewards(rows[..|rows| - 1], a, n);
    }
  }

  function CutLedger(l: Ledger, n: nat): Ledger {
    l.(txs := Cut(l.txs, n), rewards := Cut(l.rewards, n), stxEvents := Cut(l.stxEvents, n),
       ftEvents := Cut(l.ftEvents, n))
  }

  lemma CutOnPath<T>(rows: seq<Row<T>>, c: Chain, n: nat)
    requires Good(c) && n <= TipHeight(c) == |Canonical(c)| && Agrees(rows, c.known, SetOf(Canonical(c)))
    ensures forall i :: 0 <= i < |rows| ==>
      (Cut(rows, n)[i].canonical <==> Cut(rows, n)[i].indexBlockHash in Canonical(c)[..n])
  {
    CanonicalLaws(c);
    var path := Canonical(c);
    forall i | 0 <= i < |rows|
      ensures Cut(rows, n)[i].canonical <==> Cut(rows, n)[i].indexBlockHash in path[..n]
    {
      var h := rows[i].indexBlockHash;
      if h in path {
        var j :| 0 <= j < |path| && path[j] == h;
        assert rows[i].blockHeight == j + 1;
        assert j < n ==> path[..n][j] == h;
      }
    }
  }

  lemma CutHolds(l: Ledger, known: Blocks, n: nat)
    requires Holds(l, known)
    ensures Holds(CutLedger(l, n), known)
  {
    forall h | h in known
      ensures Contains(CutLedger(l, n), known[h])
    {
      assert Contains(l, known[h]);
      CutData(l.txs, n, h);
      CutData(l.rewards, n, h);
      CutData(l.stxEvents, n, h);
      CutData(l.ftEvents, n, h);
    }
  }

  /** The rows up to a height total what the first blocks of the canonical chain total. */
  lemma CutTotal(t: ChainTables, c: Chain, k: Key, n: nat)
    requires Aligned(t, c) && n <= TipHeight(c)
    ensures forall h :: h in Canonical(c) ==> h in c.known
    ensures |Canonical(c)| == TipHeight(c)
    ensures Migrated(CutLedger(t.ledger, n), k) == ChainTotal(c.known, Canonical(c)[..n], k)
  {
    AlignedInStep(t, c);
    PathNoRepeats(c);
    CanonicalLaws(c);
    var l, path := CutLedger(t.ledger, n), Canonical(c)[..n];
    CutOnPath(t.ledger.txs, c, n);
    CutOnPath(t.ledger.rewards, c, n);
    CutOnPath(t.ledger.stxEvents, c, n);
    CutOnPath(t.ledger.ftEvents, c, n);
    GroupByBlock(l.txs, path, FeeChanges, k);
    GroupByBlock(l.rewards, path, RewardChanges, k);
    GroupByBlock(l.stxEvents, path, StxChanges, k);
    GroupByBlock(l.ftEvents, path, FtChanges, k);
    CutHolds(t.ledger, c.known, n);
    SumsAreChainTotal(l, c.known, path, k);
    MigratedIsTotal(l, k);
  }

  /**
   At any height up to the tip, the aggregate is what the first blocks of the canonical chain total, with the
   rewards mature by then in place of the rewards of those blocks.
   */
  lemma BalanceAtHeight(t: ChainTables, c: Chain, a: Address, n: nat)
    requires Aligned(t, c) && n <= TipHeight(c) && forall h :: h in c.known ==> ValidData(c.known[h])
    ensures forall h :: h in Canonical(c) ==> h in c.known
    ensures |Canonical(c)| == TipHeight(c)
    ensures StxBalanceAtBlock(t.ledger, a, n)
         == ChainTotal(c.known, Canonical(c)[..n], Key(a, Stx))
            - RewardsPaid(Cut(t.ledger.rewards, n), a) + MatureRewards(t.ledger.rewards, a, n)
  {
    RunEventsWellFormed(t, c);
    CutTotal(t, c, Key(a, Stx), n);
    CutEvents(t.ledger.stxEvents, a, n);
    CutFees(t.ledger.txs, a, n);
  }

  /** Rewards that mature with their block: the aggregate at a height is the balance the chain of that height had. */
  lemma BalanceOfThatTime(t: ChainTables, c: Chain, a: Address, n: nat)
    requires Aligned(t, c) && n <= TipHeight(c) && forall h :: h in c.known ==> ValidData(c.known[h])
    requires forall h, r :: h in c.known && r in c.known[h].rewards ==> r.matureBlockHeight == c.known[h].info.height
    ensures forall h :: h in Canonical(c) ==> h in c.known
    ensures |Canonical(c)| == TipHeight(c)
    ensures StxBalanceAtBlock(t.ledger, a, n) == ChainTotal(c.known, Canonical(c)[..n], Key(a, Stx))
  {
    AlignedInStep(t, c);
    var rows := t.ledger.rewards;
    forall i | 0 <= i < |rows| && rows[i].canonical
      ensures rows[i].data.matureBlockHeight == rows[i].blockHeight
    {
      RowInData(rows, i);
      assert Contains(t.ledger, c.known[rows[i].indexBlockHash]);
    }
    CutRewards(rows, a, n);
    BalanceAtHeight(t, c, a, n);
  }
}
