/**
 Conservation: what all holders of a token have together is what was minted and not burned on the
 canonical chain, and what getTokenHolders reports as the total supply.
 */
module TokenHolders {
  import opened Types
  import opened Balances
  import opened Tables
  import opened Chain
  import opened Ledger
  import opened ReOrg
  import opened ReOrgStates
  import opened BlockUpdates
  import opened Runs

  // ---- Sums over a balance table -----------------------------------------------------------------

  /** SELECT SUM(balance) FROM ft_balances WHERE token = t */
  ghost function SumToken(b: BalanceTable, t: Token): int {
    if b == map[] then 0
    else
      var k :| k in b;
      SumToken(b - {k}, t) + if k.token == t then b[k] else 0
  }

  /** The sum does not depend on the order in which the rows are visited. */
  lemma {:induction false} SumWithout(b: BalanceTable, t: Token, k: Key)
    requires k in b
    ensures SumToken(b, t) == SumToken(b - {k}, t) + if k.token == t then b[k] else 0
    decreases |b|
  {
    var x :| x in b && SumToken(b, t) == SumToken(b - {x}, t) + if x.token == t then b[x] else 0;
    if x != k {
      assert |b - {x}| < |b| && |b - {k}| < |b| by {
        assert (b - {x}).Keys == b.Keys - {x} && (b - {k}).Keys == b.Keys - {k};
      }
      SumWithout(b - {x}, t, k);
      SumWithout(b - {k}, t, x);
      assert (b - {x}) - {k} == (b - {k}) - {x};
    }
  }

  lemma SumUpdate(b: BalanceTable, t: Token, k: Key, v: int)
    ensures SumToken(b[k := v], t) == SumToken(b, t) + if k.token == t then v - BalanceOf(b, k) else 0
  {
    var b' := b[k := v];
    SumWithout(b', t, k);
    if k in b {
      SumWithout(b, t, k);
      assert b' - {k} == b - {k};
    } else {
      assert b' - {k} == b;
    }
  }

  function SumChanges(cs: seq<Change>, t: Token): int {
    if cs == [] then 0
    else SumChanges(cs[..|cs| - 1], t) + if cs[|cs| - 1].key.token == t then cs[|cs| - 1].amount else 0
  }

  lemma {:induction false} SumChangesAppend(a: seq<Change>, b: seq<Change>, t: Token)
    ensures SumChanges(a + b, t) == SumChanges(a, t) + SumChanges(b, t)
  {
    if b == [] {
      assert a + b == a;
    } else {
      assert (a + b)[..|a + b| - 1] == a + b[..|b| - 1];
      SumChangesAppend(a, b[..|b| - 1], t);
    }
  }

  lemma {:induction false} AllZero(b: BalanceTable, t: Token)
    requires forall k :: k in b ==> b[k] == 0
    ensures SumToken(b, t) == 0
    decreases |b|
  {
    if k :| k in b {
      assert |b - {k}| < |b| by { assert (b - {k}).Keys == b.Keys - {k}; }
      SumWithout(b, t, k);
      AllZero(b - {k}, t);
    }
  }

  /** A table whose balances are totals of changes sums up to the sum of the changes. */
  lemma {:induction false} SumIsChanges(b: BalanceTable, cs: seq<Change>, t: Token)
    requires forall k :: BalanceOf(b, k) == Total(cs, k)
    ensures SumToken(b, t) == SumChanges(cs, t)
    decreases |cs|
  {
    if cs == [] {
      forall k | k in b
        ensures b[k] == 0
      {
        assert BalanceOf(b, k) == Total(cs, k);
      }
      AllZero(b, t);
    } else {
      var init, c := cs[..|cs| - 1], cs[|cs| - 1];
      var b' := b[c.key := BalanceOf(b, c.key) - c.amount];
      forall k
        ensures BalanceOf(b', k) == Total(init, k)
      {
        assert BalanceOf(b, k) == Total(cs, k);
      }
      SumIsChanges(b', init, t);
      SumUpdate(b, t, c.key, BalanceOf(b, c.key) - c.amount);
    }
  }

  // ---- What is in circulation --------------------------------------------------------------------

  function FeesBurned(rows: seq<Row<Tx>>): nat {
    if rows == [] then 0
    else FeesBurned(rows[..|rows| - 1]) + if rows[|rows| - 1].canonical then rows[|rows| - 1].data.fee else 0
  }

  function RewardsIssued(rows: seq<Row<Reward>>): nat {
    if rows == [] then 0
    else
      var r := rows[|rows| - 1];
      RewardsIssued(rows[..|rows| - 1])
      + if r.canonical
        then r.data.coinbase + r.data.feesAnchored + r.data.feesStreamedConfirmed + r.data.feesStreamedProduced else 0
  }

  /** Mints add, burns take away, transfers do neither. */
  function NetIssue(e: StxEvent): int {
    match e.kind
    case Mint => e.amount
    case Burn => 0 - e.amount
    case Transfer => 0
  }

  function StxIssued(rows: seq<Row<StxEvent>>): int {
    if rows == [] then 0
    else StxIssued(rows[..|rows| - 1]) + if rows[|rows| - 1].canonical then NetIssue(rows[|rows| - 1].data) else 0
  }

  function FtIssued(rows: seq<Row<FtEvent>>, asset: Asset): int {
    if rows == [] then 0
    else
      var r := rows[|rows| - 1];
      FtIssued(rows[..|rows| - 1], asset)
      + if r.canonical && r.data.asset == asset then NetIssue(r.data.transfer) else 0
  }

  /** Minted minus burned on the canonical chain; for STX also minus fees plus miner rewards. */
  function Supply(l: Ledger, t: Token): int {
    match t
    case Stx => StxIssued(l.stxEvents) - FeesBurned(l.txs) + RewardsIssued(l.rewards)
    case Ft(asset) => FtIssued(l.ftEvents, asset)
  }

  lemma {:induction false} FeesSum(rows: seq<Row<Tx>>, t: Token)
    ensures SumChanges(CanonicalChanges(rows, FeeChanges), t) == if t.Stx? then 0 - FeesBurned(rows) else 0
  {
    if rows != [] {
      var init, r := rows[..|rows| - 1], rows[|rows| - 1];
      FeesSum(init, t);
      SumChangesAppend(CanonicalChanges(init, FeeChanges), if r.canonical then FeeChanges(r.data) else [], t);
    }
  }

  lemma {:induction false} RewardsSum(rows: seq<Row<Reward>>, t: Token)
    ensures SumChanges(CanonicalChanges(rows, RewardChanges), t) == if t.Stx? then RewardsIssued(rows) else 0
  {
    if rows != [] {
      var init, r := rows[..|rows| - 1], rows[|rows| - 1];
      RewardsSum(init, t);
      SumChangesAppend(CanonicalChanges(init, RewardChanges), if r.canonical then RewardChanges(r.data) else [], t);
    }
  }

  lemma PartySum(party: Option<Address>, of: Token, amount: nat, t: Token)
    ensures SumChanges(Debit(party, of, amount), t) == if party.Some? && of == t then 0 - amount else 0
    ensures SumChanges(Credit(party, of, amount), t) == if party.Some? && of == t then amount else 0
  {
    if party.Some? {
      var d, c := Debit(party, of, amount), Credit(party, of, amount);
      assert d[..0] == [] && c[..0] == [];
    }
  }

  lemma TransferSum(e: StxEvent, of: Token, t: Token)
    requires WellFormed(e)
    ensures SumChanges(TypedChanges(e, of), t) == if t == of then NetIssue(e) else 0
  {
    var debits := if e.kind.Transfer? || e.kind.Burn? then Debit(e.sender, of, e.amount) else [];
    var credits := if e.kind.Transfer? || e.kind.Mint? then Credit(e.recipient, of, e.amount) else [];
    SumChangesAppend(debits, credits, t);
    PartySum(e.sender, of, e.amount, t);
    PartySum(e.recipient, of, e.amount, t);
  }

  lemma {:induction false} StxSum(rows: seq<Row<StxEvent>>, t: Token)
    requires forall i :: 0 <= i < |rows| ==> WellFormed(rows[i].data)
    ensures SumChanges(CanonicalChanges(rows, StxChanges), t) == if t.Stx? then StxIssued(rows) else 0
  {
    if rows != [] {
      var init, r := rows[..|rows| - 1], rows[|rows| - 1];
      StxSum(init, t);
      TransferSum(r.data, Stx, t);
      SumChangesAppend(CanonicalChanges(init, StxChanges), if r.canonical then StxChanges(r.data) else [], t);
    }
  }

  lemma {:induction false} FtSum(rows: seq<Row<FtEvent>>, t: Token)
    requires forall i :: 0 <= i < |rows| ==> WellFormed(rows[i].data.transfer)
    ensures SumChanges(CanonicalChanges(rows, FtChanges), t) == if t.Ft? then FtIssued(rows, t.asset) else 0
  {
    if rows != [] {
      var init, r := rows[..|rows| - 1], rows[|rows| - 1];
      FtSum(init, t);
      TransferSum(r.data.transfer, Ft(r.data.asset), t);
      SumChangesAppend(CanonicalChanges(init, FtChanges), if r.canonical then FtChanges(r.data) else [], t);
    }
  }

  ghost predicate EventsWellFormed(l: Ledger) {
    && (forall i :: 0 <= i < |l.stxEvents| ==> WellFormed(l.stxEvents[i].data))
    && (forall i :: 0 <= i < |l.ftEvents| ==> WellFormed(l.ftEvents[i].data.transfer))
  }

  function AllChanges(l: Ledger): seq<Change> {
    CanonicalChanges(l.txs, FeeChanges) + CanonicalChanges(l.rewards, RewardChanges)
    + CanonicalChanges(l.stxEvents, StxChanges) + CanonicalChanges(l.ftEvents, FtChanges)
  }

  lemma AllChangesTotal(l: Ledger, k: Key)
    ensures Total(AllChanges(l), k) == LedgerTotal(l, k)
  {
    var a, b := CanonicalChanges(l.txs, FeeChanges), CanonicalChanges(l.rewards, RewardChanges);
    var c, d := CanonicalChanges(l.stxEvents, StxChanges), CanonicalChanges(l.ftEvents, FtChanges);
    TotalAppend(a, b, k);
    TotalAppend(a + b, c, k);
    TotalAppend(a + b + c, d, k);
  }

  lemma AllChangesSum(l: Ledger, t: Token)
    requires EventsWellFormed(l)
    ensures SumChanges(AllChanges(l), t) == Supply(l, t)
  {
    var a, b := CanonicalChanges(l.txs, FeeChanges), CanonicalChanges(l.rewards, RewardChanges);
    var c, d := CanonicalChanges(l.stxEvents, StxChanges), CanonicalChanges(l.ftEvents, FtChanges);
    SumChangesAppend(a, b, t);
    SumChangesAppend(a + b, c, t);
    SumChangesAppend(a + b + c, d, t);
    FeesSum(l.txs, t);
    RewardsSum(l.rewards, t);
    StxSum(l.stxEvents, t);
    FtSum(l.ftEvents, t);
  }

  lemma BalancesConserved(l: Ledger, b: BalanceTable, t: Token)
    requires InBalance(l, b) && EventsWellFormed(l)
    ensures SumToken(b, t) == Supply(l, t)
  {
    forall k
      ensures BalanceOf(b, k) == Total(AllChanges(l), k)
    {
      AllChangesTotal(l, k);
      assert BalanceOf(b, k) == LedgerTotal(l, k);
    }
    SumIsChanges(b, AllChanges(l), t);
    AllChangesSum(l, t);
  }

  // ---- Along every run ---------------------------------------------------------------------------

  lemma {:induction false} RowInData<T>(rows: seq<Row<T>>, i: nat)
    requires i < |rows|
    ensures rows[i].data in DataOf(rows, rows[i].indexBlockHash)
  {
    if i < |rows| - 1 {
      RowInData(rows[..|rows| - 1], i);
    }
  }

  lemma RunEventsWellFormed(t: ChainTables, c: Chain)
    requires Aligned(t, c) && forall h :: h in c.known ==> ValidData(c.known[h])
    ensures EventsWellFormed(t.ledger)
  {
    AlignedInStep(t, c);
    forall i | 0 <= i < |t.ledger.stxEvents|
      ensures WellFormed(t.ledger.stxEvents[i].data)
    {
      RowInData(t.ledger.stxEvents, i);
      assert Contains(t.ledger, c.known[t.ledger.stxEvents[i].indexBlockHash]);
    }
    forall i | 0 <= i < |t.ledger.ftEvents|
      ensures WellFormed(t.ledger.ftEvents[i].data.transfer)
    {
      RowInData(t.ledger.ftEvents, i);
      assert Contains(t.ledger, c.known[t.ledger.ftEvents[i].indexBlockHash]);
    }
  }

  /** After every run, re-orgs included, the balances of a token add up to its supply. */
  lemma RunConserves(s: seq<BlockData>, t: Token)
    requires Genuine(s)
    ensures EventsWellFormed(RunTables(s).ledger)
    ensures SumToken(RunTables(s).balances, t) == Supply(RunTables(s).ledger, t)
  {
    RunAligned(s);
    RunEventsWellFormed(RunTables(s), Run(s));
    AlignedInStep(RunTables(s), Run(s));
    BalancesConserved(RunTables(s).ledger, RunTables(s).balances, t);
  }

  // ---- getTokenHolders ---------------------------------------------------------------------------

  function HoldersOf(b: BalanceTable, t: Token): set<Address> {
    set k | k in b && k.token == t :: k.address
  }

  /** The holders by descending balance; the order among equal balances is the database's choice. */
  ghost predicate Ranked(b: BalanceTable, t: Token, order: seq<Address>) {
    && (forall a :: a in order <==> Key(a, t) in b)
    && (forall i, j :: 0 <= i < j < |order| ==> order[i] != order[j])
    && (forall i, j :: 0 <= i < j < |order| ==> BalanceOf(b, Key(order[j], t)) <= BalanceOf(b, Key(order[i], t)))
  }

  datatype HolderPage = HolderPage(results: seq<(Address, int)>, totalSupply: int, total: nat)

  /** LIMIT and OFFSET on the ranked rows; the totals are read from the first row of the page, if any. */
  ghost function GetTokenHolders(b: BalanceTable, t: Token, order: seq<Address>, limit: nat, offset: nat): HolderPage {
    var from := if offset < |order| then offset else |order|;
    var to := if from + limit < |order| then from + limit else |order|;
    var results := seq(to - from, i requires 0 <= i < to - from =>
      (order[from + i], BalanceOf(b, Key(order[from + i], t))));
    if results == [] then HolderPage([], 0, 0) else HolderPage(results, SumToken(b, t), |HoldersOf(b, t)|)
  }

  /**
   The reported supply is the supply exactly when the page has a row or there is no supply: a page
   past the last holder reports zero.
   */
  lemma ReportedSupply(l: Ledger, b: BalanceTable, t: Token, order: seq<Address>, limit: nat, offset: nat)
    requires InBalance(l, b) && EventsWellFormed(l) && Ranked(b, t, order)
    ensures var page := GetTokenHolders(b, t, order, limit, offset);
      && (page.results != [] <==> 0 < limit && offset < |order|)
      && (page.totalSupply == Supply(l, t) <==> (0 < limit && offset < |order|) || Supply(l, t) == 0)
      && (page.results != [] ==> page.total == |order|)
  {
    BalancesConserved(l, b, t);
    HoldersRanked(b, t, order);
  }

  /** Such a page: one holder of five micro-STX, and the page behind it. */
  lemma LatePageReportsNothing(l: Ledger, b: BalanceTable)
    requires l == EMPTY.(stxEvents := [Row(1, 1, true, StxEvent(Mint, None, Some(1), 5))]) && b == map[Key(1, Stx) := 5]
    ensures InBalance(l, b) && EventsWellFormed(l) && Ranked(b, Stx, [1]) && Supply(l, Stx) == 5
    ensures GetTokenHolders(b, Stx, [1], 10, 1).totalSupply == 0
  {
    forall k
      ensures BalanceOf(b, k) == LedgerTotal(l, k)
    {
      assert l.stxEvents[..0] == [];
      assert CanonicalChanges(l.stxEvents, StxChanges) == [] + StxChanges(l.stxEvents[0].data);
    }
    assert Ranked(b, Stx, [1]) by {
      assert forall a :: a in [1] <==> a == 1;
    }
  }

  /** A page holds the ranked addresses from its offset on, each with its balance, as many as asked for. */
  lemma PageOfHolders(b: BalanceTable, t: Token, order: seq<Address>, limit: nat, offset: nat)
    requires Ranked(b, t, order)
    ensures var rows := GetTokenHolders(b, t, order, limit, offset).results;
      && |rows| == (if |order| <= offset then 0 else if |order| - offset < limit then |order| - offset else limit)
      && (forall i :: 0 <= i < |rows| ==>
            && rows[i].0 == order[offset + i]
            && Key(rows[i].0, t) in b && rows[i].1 == b[Key(rows[i].0, t)])
      && (forall i, j :: 0 <= i < j < |rows| ==> rows[j].1 <= rows[i].1 && rows[i].0 != rows[j].0)
  {
    var rows := GetTokenHolders(b, t, order, limit, offset).results;
    forall i | 0 <= i < |rows|
      ensures rows[i].0 == order[offset + i] && Key(rows[i].0, t) in b && rows[i].1 == b[Key(rows[i].0, t)]
    {
      assert order[offset + i] in order;
      assert rows[i] == (order[offset + i], BalanceOf(b, Key(order[offset + i], t)));
    }
  }

  /** A page that is long enough shows every holder with its balance, once. */
  lemma LongPageShowsAll(b: BalanceTable, t: Token, order: seq<Address>, limit: nat)
    requires Ranked(b, t, order) && |order| <= limit
    ensures var rows := GetTokenHolders(b, t, order, limit, 0).results;
      && (forall k :: k in b && k.token == t ==> (k.address, b[k]) in rows)
      && |rows| == |HoldersOf(b, t)|
  {
    var rows := GetTokenHolders(b, t, order, limit, 0).results;
    PageOfHolders(b, t, order, limit, 0);
    HoldersRanked(b, t, order);
    forall k | k in b && k.token == t
      ensures (k.address, b[k]) in rows
    {
      var i :| 0 <= i < |order| && order[i] == k.address;
      assert rows[i].0 == k.address && rows[i].1 == b[k];
      assert rows[i] == (k.address, b[k]);
    }
  }

  lemma HoldersRanked(b: BalanceTable, t: Token, order: seq<Address>)
    requires Ranked(b, t, order)
    ensures HoldersOf(b, t) == SetOf(order) && |HoldersOf(b, t)| == |order|
    ensures forall k :: k in b && k.token == t ==> k.address in order
  {
    forall a | a in order
      ensures a in HoldersOf(b, t)
    {
      assert Key(a, t) in b;
    }
    forall k | k in b && k.token == t
      ensures k.address in order
    {
      assert k == Key(k.address, t);
    }
    DistinctCount(order);
  }
}
