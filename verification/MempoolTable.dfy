/**
 The mempool rows and their counter, updated in place. The txs table is only read. An operation that
 answers false stands for a failed statement: the enclosing transaction is rolled back by its owner.
 */
module MempoolTables {
  import opened Types
  import opened Tables
  import opened Mempool
  import opened PoolRows
  import opened Ledger

  /** The arrivals from position i on, in chunks of at most 500, one after the other. */
  function InsertChunks(m: Pool, incoming: seq<MempoolTx>, i: nat, mined: set<TxId>, height: nat): Pool
    decreases |incoming| - i
  {
    if i >= |incoming| then m
    else
      var n := if |incoming| - i < INSERT_BATCH_SIZE then |incoming| else i + INSERT_BATCH_SIZE;
      InsertChunks(InsertChunk(m, incoming[i..n], mined, height), incoming, n, mined, height)
  }

  /** What the chunks make pending: the revived and the inserted. */
  function ChunkIds(m: Pool, incoming: seq<MempoolTx>, i: nat, mined: set<TxId>, height: nat): set<TxId>
    decreases |incoming| - i
  {
    if i >= |incoming| then {}
    else
      var n := if |incoming| - i < INSERT_BATCH_SIZE then |incoming| else i + INSERT_BATCH_SIZE;
      NewlyPending(m, incoming[i..n], mined)
      + ChunkIds(InsertChunk(m, incoming[i..n], mined, height), incoming, n, mined, height)
  }

  /** The set in some order, each member once. */
  predicate Lists(q: seq<TxId>, s: set<TxId>) {
    SetOf(q) == s && |q| == |s|
  }

  /** The database answers in any order. */
  method ToSeq(s: set<TxId>) returns (q: seq<TxId>)
    ensures Lists(q, s)
  {
    q := [];
    var todo := s;
    while todo != {}
      invariant todo <= s
      invariant SetOf(q) == s - todo && |q| == |s| - |todo|
    {
      var x :| x in todo;
      assert SetOf(q + [x]) == SetOf(q) + {x};
      q, todo := q + [x], todo - {x};
    }
  }

  lemma ListsBoth(p: seq<TxId>, a: set<TxId>, q: seq<TxId>, b: set<TxId>)
    requires Lists(p, a) && Lists(q, b) && a !! b
    ensures Lists(p + q, a + b)
  {
    assert SetOf(p + q) == SetOf(p) + SetOf(q);
  }

  /** DISTINCT ON ... ORDER BY block_height DESC, tx_index DESC over the mined rows of a group. */
  method PickLatestMined(txs: seq<Row<Tx>>, g: Group) returns (best: Option<TxId>)
    ensures best.Some? <==> HasMined(txs, g)
    ensures best.Some? ==> LatestMined(txs, g, best.value)
    ensures best.Some? ==> !exists i :: MinedAfter(txs, g.address, g.nonce, i, best.value)
  {
    best := None;
    var at := 0;
    for i := 0 to |txs|
      invariant best.None? ==> forall j :: 0 <= j < i ==> !MinedRowIn(txs[j], g)
      invariant best.Some? ==> 0 <= at < i && MinedRowIn(txs[at], g) && txs[at].data.txId == best.value
      invariant best.Some? ==> forall j :: 0 <= j < i && MinedRowIn(txs[j], g) ==> MinedNotAfter(txs[j], txs[at])
    {
      if MinedRowIn(txs[i], g) && (best.None? || MinedNotAfter(txs[at], txs[i])) {
        best, at := Some(txs[i].data.txId), i;
      }
    }
    assert best.Some? ==> MinedWith(txs, at, g.address, g.nonce);
  }

  /** DISTINCT ON ... ORDER BY fee_rate DESC, receipt_time DESC over the rows of a group. */
  method PickHighestFee(m: Pool, g: Group) returns (best: Option<TxId>)
    ensures best.None? <==> forall t :: t in m ==> !RowIn(m[t], g)
    ensures best.Some? ==> HighestFee(m, g, best.value)
    ensures best.Some? ==> best.value in m && !exists u :: Outbids(m, g.address, g.nonce, u, m[best.value])
  {
    best := None;
    var todo := m.Keys;
    while todo != {}
      invariant todo <= m.Keys
      invariant best.None? ==> forall t :: t in m && t !in todo ==> !RowIn(m[t], g)
      invariant best.Some? ==> best.value in m && RowIn(m[best.value], g)
      invariant best.Some? ==>
        forall t :: t in m && t !in todo && RowIn(m[t], g) ==> FeeNotAbove(m[t], m[best.value])
    {
      var t :| t in todo;
      todo := todo - {t};
      if RowIn(m[t], g) && (best.None? || FeeNotAbove(m[best.value], m[t])) {
        best := Some(t);
      }
    }
  }

  lemma DropTwice(m: Pool, a: set<TxId>, b: set<TxId>, status: DropStatus, newTx: Option<TxId>)
    ensures DropRows(DropRows(m, a, status, newTx), b, status, newTx) == DropRows(m, a + b, status, newTx)
  {
  }

  lemma SliceUnion(ids: seq<TxId>, i: nat, n: nat)
    requires i <= n <= |ids|
    ensures SetOf(ids[..n]) == SetOf(ids[..i]) + SetOf(ids[i..n])
    ensures SetOf(ids[i..n]) <= SetOf(ids)
  {
    assert ids[..n] == ids[..i] + ids[i..n];
  }

  ghost predicate AllDecided(m: Pool, txs: seq<Row<Tx>>, groups: set<Group>) {
    forall g :: g in groups ==> GroupDecided(m, txs, g)
  }

  function BatchEnd(ids: seq<TxId>, i: nat): nat {
    if |ids| - i < INSERT_BATCH_SIZE then |ids| else i + INSERT_BATCH_SIZE
  }

  /** No batch of the ids from position i on clashes. */
  ghost predicate Passable(m: Pool, txs: seq<Row<Tx>>, ids: seq<TxId>, i: nat, mempool: bool)
    decreases |ids| - i
  {
    i < |ids| ==>
      && !Clashes(m, txs, GroupsFor(m, txs, SetOf(ids[i..BatchEnd(ids, i)]), mempool))
      && Passable(m, txs, ids, BatchEnd(ids, i), mempool)
  }

  /** In no batch of the ids from position i on a clash is possible. */
  ghost predicate Safe(m: Pool, txs: seq<Row<Tx>>, ids: seq<TxId>, i: nat, mempool: bool)
    decreases |ids| - i
  {
    i < |ids| ==>
      && !MayClash(m, txs, GroupsFor(m, txs, SetOf(ids[i..BatchEnd(ids, i)]), mempool))
      && Safe(m, txs, ids, BatchEnd(ids, i), mempool)
  }

  lemma NoTiesInSubset(m: Pool, txs: seq<Row<Tx>>, some: set<Group>, all: set<Group>)
    requires some <= all && NoTies(m, txs, all)
    ensures NoTies(m, txs, some)
  {
  }

  lemma SomeGroups(m: Pool, txs: seq<Row<Tx>>, ids: seq<TxId>, i: nat, n: nat, mempool: bool)
    requires i <= n <= |ids|
    ensures GroupsFor(m, txs, SetOf(ids[i..n]), mempool) <= GroupsFor(m, txs, SetOf(ids), mempool)
  {
    SliceUnion(ids, i, n);
  }

  /** Without ties among the affected groups, the statements pass exactly when no batch has a clash. */
  lemma {:induction false} PassableIffSafe(m: Pool, txs: seq<Row<Tx>>, ids: seq<TxId>, i: nat, mempool: bool)
    requires NoTies(m, txs, GroupsFor(m, txs, SetOf(ids), mempool))
    ensures Passable(m, txs, ids, i, mempool) <==> Safe(m, txs, ids, i, mempool)
    decreases |ids| - i
  {
    if i < |ids| {
      var n := BatchEnd(ids, i);
      var groups := GroupsFor(m, txs, SetOf(ids[i..n]), mempool);
      SomeGroups(m, txs, ids, i, n, mempool);
      NoTiesInSubset(m, txs, groups, GroupsFor(m, txs, SetOf(ids), mempool));
      NoTiesExact(m, txs, groups);
      PassableIffSafe(m, txs, ids, n, mempool);
    }
  }

  /** While no row is in two affected groups nothing can fail. */
  lemma {:induction false} NoOverlapIsSafe(m: Pool, txs: seq<Row<Tx>>, ids: seq<TxId>, i: nat, mempool: bool)
    requires NoOverlap(m, GroupsFor(m, txs, SetOf(ids), mempool))
    ensures Safe(m, txs, ids, i, mempool)
    decreases |ids| - i
  {
    if i < |ids| {
      var n := BatchEnd(ids, i);
      SomeGroups(m, txs, ids, i, n, mempool);
      NoOverlapNoClash(m, txs, GroupsFor(m, txs, SetOf(ids[i..n]), mempool));
      NoOverlapIsSafe(m, txs, ids, n, mempool);
    }
  }

  /** The groups of a batch, read from rows already partly replaced, are the original ones. */
  lemma BatchGroups(m0: Pool, m: Pool, txs: seq<Row<Tx>>, ids: seq<TxId>, i: nat, n: nat, mempool: bool)
    requires OnlyReplaces(m0, m) && i <= n <= |ids|
    ensures GroupsFor(m0, txs, SetOf(ids[..n]), mempool)
         == GroupsFor(m0, txs, SetOf(ids[..i]), mempool) + GroupsFor(m, txs, SetOf(ids[i..n]), mempool)
    ensures GroupsFor(m, txs, SetOf(ids[i..n]), mempool) <= GroupsFor(m0, txs, SetOf(ids), mempool)
    ensures NoOverlap(m0, GroupsFor(m0, txs, SetOf(ids), mempool))
        ==> NoOverlap(m, GroupsFor(m, txs, SetOf(ids[i..n]), mempool))
  {
    SliceUnion(ids, i, n);
    GroupsForStable(m0, m, txs, SetOf(ids[i..n]), mempool);
    assert GroupsFor(m0, txs, SetOf(ids[i..n]), mempool) <= GroupsFor(m0, txs, SetOf(ids), mempool);
  }

  lemma BatchLoses(m0: Pool, m: Pool, m': Pool, txs: seq<Row<Tx>>, groups: set<Group>, w: Winners, all: set<Group>)
    requires OnlyLosers(m0, txs, all, m) && groups <= all
    requires AreWinners(m, txs, groups, w) && Settled(m, w, m') && !SubqueryFails(m, w)
    ensures OnlyLosers(m0, txs, all, m')
  {
    SettledOnlyLosers(m, txs, groups, w, m');
    OnlyLosersCompose(m0, m, m', txs, all, groups);
    assert all + groups == all;
  }

  // ---- What the batches may do, and exactly when -------------------------------------------------

  ghost predicate BatchPasses(m: Pool, txs: seq<Row<Tx>>, groups: set<Group>, m': Pool) {
    exists w :: AreWinners(m, txs, groups, w) && !SubqueryFails(m, w) && Settled(m, w, m')
  }

  ghost predicate BatchFails(m: Pool, txs: seq<Row<Tx>>, groups: set<Group>) {
    exists w :: AreWinners(m, txs, groups, w) && SubqueryFails(m, w)
  }

  /** The statements for the ids from position i on can turn m into m'. */
  ghost predicate Replaces(m: Pool, txs: seq<Row<Tx>>, ids: seq<TxId>, i: nat, mempool: bool, m': Pool)
    decreases |ids| - i
  {
    if |ids| <= i then m' == m
    else
      var n := BatchEnd(ids, i);
      exists next :: BatchPasses(m, txs, GroupsFor(m, txs, SetOf(ids[i..n]), mempool), next)
        && Replaces(next, txs, ids, n, mempool, m')
  }

  /** One of them can fail. */
  ghost predicate ReplacingFails(m: Pool, txs: seq<Row<Tx>>, ids: seq<TxId>, i: nat, mempool: bool)
    decreases |ids| - i
  {
    i < |ids| &&
    var n := BatchEnd(ids, i);
    var groups := GroupsFor(m, txs, SetOf(ids[i..n]), mempool);
    || BatchFails(m, txs, groups)
    || exists next :: BatchPasses(m, txs, groups, next) && ReplacingFails(next, txs, ids, n, mempool)
  }

  ghost function LossGroup(m: Pool, w: Winners, t: TxId): (g: Group)
    requires t in m && t in Losers(m, w)
    ensures g in w && RowIn(m[t], g)
  {
    var p :| p in Losses(m, w) && p.0 == t;
    p.1
  }

  lemma SettledExists(m: Pool, w: Winners) returns (m': Pool)
    ensures Settled(m, w, m')
  {
    m' := map t | t in m ::
      if t in Losers(m, w)
      then m[t].(pruned := true, status := DroppedReplaceByFee, replacedBy := Some(w[LossGroup(m, w, t)])) else m[t];
    forall t | t in m && t in Losers(m, w)
      ensures exists g :: ReplacedIn(m[t], m'[t], w, g)
    {
      assert ReplacedIn(m[t], m'[t], w, LossGroup(m, w, t));
    }
  }

  /** A batch can pass iff it has no clash. */
  lemma BatchPassesExact(m: Pool, txs: seq<Row<Tx>>, groups: set<Group>)
    ensures !Clashes(m, txs, groups) <==> exists m' :: BatchPasses(m, txs, groups, m')
  {
    SomeChoicePasses(m, txs, groups);
    if w :| AreWinners(m, txs, groups, w) && !SubqueryFails(m, w) {
      var m' := SettledExists(m, w);
      assert BatchPasses(m, txs, groups, m');
    }
  }

  lemma BatchReplaces(m: Pool, txs: seq<Row<Tx>>, groups: set<Group>, m': Pool)
    requires BatchPasses(m, txs, groups, m')
    ensures OnlyReplaces(m, m') && OnlyLosers(m, txs, groups, m') && AllDecided(m', txs, groups)
  {
    var w :| AreWinners(m, txs, groups, w) && !SubqueryFails(m, w) && Settled(m, w, m');
    SettledOnlyReplaces(m, w, m');
    SettledOnlyLosers(m, txs, groups, w, m');
    forall g | g in groups
      ensures GroupDecided(m', txs, g)
    {
      SettledDecides(m, txs, groups, w, m', g);
    }
  }

  /** Replacing rows changes neither condition. */
  lemma {:induction false} PassableStays(m: Pool, m': Pool, txs: seq<Row<Tx>>, ids: seq<TxId>, i: nat, mempool: bool)
    requires OnlyReplaces(m, m')
    ensures Passable(m', txs, ids, i, mempool) <==> Passable(m, txs, ids, i, mempool)
    ensures Safe(m', txs, ids, i, mempool) <==> Safe(m, txs, ids, i, mempool)
    decreases |ids| - i
  {
    if i < |ids| {
      var n := BatchEnd(ids, i);
      GroupsForStable(m, m', txs, SetOf(ids[i..n]), mempool);
      ClashStays(m, m', txs, GroupsFor(m, txs, SetOf(ids[i..n]), mempool));
      PassableStays(m, m', txs, ids, n, mempool);
    }
  }

  lemma {:induction false} ReplacesPasses(m: Pool, txs: seq<Row<Tx>>, ids: seq<TxId>, i: nat, mempool: bool, m': Pool)
    requires Replaces(m, txs, ids, i, mempool, m')
    ensures Passable(m, txs, ids, i, mempool)
    decreases |ids| - i
  {
    if i < |ids| {
      var n := BatchEnd(ids, i);
      var groups := GroupsFor(m, txs, SetOf(ids[i..n]), mempool);
      var next :| BatchPasses(m, txs, groups, next) && Replaces(next, txs, ids, n, mempool, m');
      BatchPassesExact(m, txs, groups);
      BatchReplaces(m, txs, groups, next);
      ReplacesPasses(next, txs, ids, n, mempool, m');
      PassableStays(m, next, txs, ids, n, mempool);
    }
  }

  lemma {:induction false} PassableReplaces(m: Pool, txs: seq<Row<Tx>>, ids: seq<TxId>, i: nat, mempool: bool)
    returns (m': Pool)
    requires Passable(m, txs, ids, i, mempool)
    ensures Replaces(m, txs, ids, i, mempool, m')
    decreases |ids| - i
  {
    m' := m;
    if i < |ids| {
      var n := BatchEnd(ids, i);
      var groups := GroupsFor(m, txs, SetOf(ids[i..n]), mempool);
      BatchPassesExact(m, txs, groups);
      var next :| BatchPasses(m, txs, groups, next);
      BatchReplaces(m, txs, groups, next);
      PassableStays(m, next, txs, ids, n, mempool);
      m' := PassableReplaces(next, txs, ids, n, mempool);
    }
  }

  ghost predicate CanReplace(m: Pool, txs: seq<Row<Tx>>, ids: seq<TxId>, i: nat, mempool: bool) {
    exists m' :: Replaces(m, txs, ids, i, mempool, m')
  }

  /** Exactly: the statements can pass iff no batch clashes. */
  lemma ReplacesExact(m: Pool, txs: seq<Row<Tx>>, ids: seq<TxId>, i: nat, mempool: bool)
    ensures Passable(m, txs, ids, i, mempool) <==> CanReplace(m, txs, ids, i, mempool)
  {
    if Passable(m, txs, ids, i, mempool) {
      var m' := PassableReplaces(m, txs, ids, i, mempool);
      assert CanReplace(m, txs, ids, i, mempool);
    }
    if CanReplace(m, txs, ids, i, mempool) {
      var m' :| Replaces(m, txs, ids, i, mempool, m');
      ReplacesPasses(m, txs, ids, i, mempool, m');
    }
  }

  /** And they can fail iff in some batch a clash is possible. */
  lemma {:induction false} FailsExact(m: Pool, txs: seq<Row<Tx>>, ids: seq<TxId>, i: nat, mempool: bool)
    ensures ReplacingFails(m, txs, ids, i, mempool) <==> !Safe(m, txs, ids, i, mempool)
    decreases |ids| - i
  {
    if i < |ids| {
      var n := BatchEnd(ids, i);
      var groups := GroupsFor(m, txs, SetOf(ids[i..n]), mempool);
      SomeChoiceFails(m, txs, groups);
      SomeChoicePasses(m, txs, groups);
      BatchPassesExact(m, txs, groups);
      forall next | BatchPasses(m, txs, groups, next)
        ensures ReplacingFails(next, txs, ids, n, mempool) <==> !Safe(m, txs, ids, n, mempool)
      {
        BatchReplaces(m, txs, groups, next);
        PassableStays(m, next, txs, ids, n, mempool);
        FailsExact(next, txs, ids, n, mempool);
      }
      if !MayClash(m, txs, groups) {
        var w := Preferring(m, txs, groups);
        assert !SubqueryFails(m, w);
        assert exists next :: BatchPasses(m, txs, groups, next);
      }
    }
  }

  lemma TailGroups(m: Pool, txs: seq<Row<Tx>>, ids: seq<TxId>, i: nat, n: nat, mempool: bool)
    requires i <= n <= |ids|
    ensures GroupsFor(m, txs, SetOf(ids[i..]), mempool)
         == GroupsFor(m, txs, SetOf(ids[i..n]), mempool) + GroupsFor(m, txs, SetOf(ids[n..]), mempool)
  {
    assert ids[i..] == ids[i..n] + ids[n..];
    assert SetOf(ids[i..]) == SetOf(ids[i..n]) + SetOf(ids[n..]);
  }

  lemma DecidedAfter(m: Pool, next: Pool, m': Pool, txs: seq<Row<Tx>>, a: set<Group>, b: set<Group>)
    requires BatchPasses(m, txs, a, next)
    requires OnlyReplaces(next, m') && OnlyLosers(next, txs, b, m') && AllDecided(m', txs, b)
    ensures OnlyReplaces(m, m') && OnlyLosers(m, txs, a + b, m') && AllDecided(m', txs, a + b)
  {
    BatchReplaces(m, txs, a, next);
    OnlyLosersCompose(m, next, m', txs, a, b);
    forall g | g in a
      ensures GroupDecided(m', txs, g)
    {
      DecidedStays(next, m', txs, g);
    }
  }

  /** What they do: exactly losers of affected groups change, and every affected group is decided. */
  lemma {:induction false} ReplacesLaws(m: Pool, txs: seq<Row<Tx>>, ids: seq<TxId>, i: nat, mempool: bool, m': Pool)
    requires i <= |ids| && Replaces(m, txs, ids, i, mempool, m')
    ensures OnlyReplaces(m, m')
    ensures OnlyLosers(m, txs, GroupsFor(m, txs, SetOf(ids[i..]), mempool), m')
    ensures AllDecided(m', txs, GroupsFor(m, txs, SetOf(ids[i..]), mempool))
    decreases |ids| - i
  {
    if i < |ids| {
      var n := BatchEnd(ids, i);
      var groups := GroupsFor(m, txs, SetOf(ids[i..n]), mempool);
      var next :| BatchPasses(m, txs, groups, next) && Replaces(next, txs, ids, n, mempool, m');
      BatchReplaces(m, txs, groups, next);
      ReplacesLaws(next, txs, ids, n, mempool, m');
      GroupsForStable(m, next, txs, SetOf(ids[n..]), mempool);
      DecidedAfter(m, next, m', txs, groups, GroupsFor(m, txs, SetOf(ids[n..]), mempool));
      TailGroups(m, txs, ids, i, n, mempool);
    } else {
      assert SetOf(ids[i..]) == {};
    }
  }

  /** For the payer and nonce of every listed transaction: whatever is beaten has been dropped. */
  ghost predicate NoncesSettled(m: Pool, txs: seq<Row<Tx>>, ids: set<TxId>, mempool: bool) {
    if mempool then
      forall t :: t in ids && t in m ==> BeatenDropped(m, txs, PaidBy(m[t].sender, m[t].sponsor), m[t].nonce)
    else
      forall i :: 0 <= i < |txs| && txs[i].data.txId in ids ==>
        BeatenDropped(m, txs, PaidBy(txs[i].data.sender, txs[i].data.sponsor), txs[i].data.nonce)
  }

  lemma DecidedSettles(m: Pool, m': Pool, txs: seq<Row<Tx>>, ids: set<TxId>, mempool: bool)
    requires OnlyReplaces(m, m') && AllDecided(m', txs, GroupsFor(m, txs, ids, mempool))
    ensures NoncesSettled(m', txs, ids, mempool)
  {
    if mempool {
      forall t | t in ids && t in m'
        ensures BeatenDropped(m', txs, PaidBy(m'[t].sender, m'[t].sponsor), m'[t].nonce)
      {
        assert GroupOfRow(m[t]) in GroupsFor(m, txs, ids, true);
        DecidedDrops(m', txs, PaidBy(m'[t].sender, m'[t].sponsor), m'[t].nonce);
      }
    } else {
      forall i | 0 <= i < |txs| && txs[i].data.txId in ids
        ensures BeatenDropped(m', txs, PaidBy(txs[i].data.sender, txs[i].data.sponsor), txs[i].data.nonce)
      {
        assert PayerGroup(txs[i].data.sender, txs[i].data.sponsor, txs[i].data.nonce)
            in GroupsFor(m, txs, ids, false);
        DecidedDrops(m', txs, PaidBy(txs[i].data.sender, txs[i].data.sponsor), txs[i].data.nonce);
      }
    }
  }

  /** Whatever the statements from position i on do to m, all of them can do to m0. */
  ghost predicate Continues(m0: Pool, m: Pool, txs: seq<Row<Tx>>, ids: seq<TxId>, i: nat, mempool: bool) {
    && (forall m' :: Replaces(m, txs, ids, i, mempool, m') ==> Replaces(m0, txs, ids, 0, mempool, m'))
    && (ReplacingFails(m, txs, ids, i, mempool) ==> ReplacingFails(m0, txs, ids, 0, mempool))
  }

  lemma ContinuesNext(m0: Pool, m: Pool, m': Pool, txs: seq<Row<Tx>>, ids: seq<TxId>, i: nat, mempool: bool, w: Winners)
    requires Continues(m0, m, txs, ids, i, mempool) && i < |ids|
    requires AreWinners(m, txs, GroupsFor(m, txs, SetOf(ids[i..BatchEnd(ids, i)]), mempool), w)
    ensures SubqueryFails(m, w) ==> ReplacingFails(m0, txs, ids, 0, mempool)
    ensures !SubqueryFails(m, w) && Settled(m, w, m') ==> Continues(m0, m', txs, ids, BatchEnd(ids, i), mempool)
  {
    var groups := GroupsFor(m, txs, SetOf(ids[i..BatchEnd(ids, i)]), mempool);
    if SubqueryFails(m, w) {
      assert BatchFails(m, txs, groups);
    } else if Settled(m, w, m') {
      assert BatchPasses(m, txs, groups, m');
    }
  }

  /** The end of the statements, with all that is known of them. */
  lemma ReplacesEnds(m0: Pool, m: Pool, txs: seq<Row<Tx>>, ids: seq<TxId>, i: nat, mempool: bool)
    requires Continues(m0, m, txs, ids, i, mempool) && |ids| <= i
    ensures Replaces(m0, txs, ids, 0, mempool, m) && Passable(m0, txs, ids, 0, mempool)
    ensures OnlyLosers(m0, txs, GroupsFor(m0, txs, SetOf(ids), mempool), m)
    ensures AllDecided(m, txs, GroupsFor(m0, txs, SetOf(ids), mempool))
    ensures NoncesSettled(m, txs, SetOf(ids), mempool)
  {
    assert Replaces(m, txs, ids, i, mempool, m);
    ReplacesLaws(m0, txs, ids, 0, mempool, m);
    assert ids[0..] == ids;
    DecidedSettles(m0, m, txs, SetOf(ids), mempool);
    ReplacesPasses(m0, txs, ids, 0, mempool, m);
  }

  /** The UPDATE of the replace-by-fee statement, row by row, with its scalar subquery. */
  method ReplaceLosers(m: Pool, w: Winners) returns (ok: bool, m': Pool)
    ensures ok <==> !SubqueryFails(m, w)
    ensures ok ==> Settled(m, w, m')
  {
    m' := m;
    ok := true;
    var todo := Losers(m, w);
    while todo != {}
      invariant todo <= Losers(m, w) <= m.Keys == m'.Keys
      invariant forall t :: t in Losers(m, w) - todo ==> |GroupsWith(m, w, t)| <= 1
      invariant forall t :: t in m && (t in todo || t !in Losers(m, w)) ==> m'[t] == m[t]
      invariant forall t :: t in Losers(m, w) - todo ==> exists g :: ReplacedIn(m[t], m'[t], w, g)
    {
      var t :| t in todo;
      todo := todo - {t};
      var gs := GroupsWith(m, w, t);
      if |gs| > 1 {
        ok := false;
        return;
      }
      LoserHasGroup(m, w, t);
      var g :| g in gs;
      m' := m'[t := m[t].(pruned := true, status := DroppedReplaceByFee, replacedBy := Some(w[g]))];
      assert ReplacedIn(m[t], m'[t], w, g);
    }
  }

  lemma LoserHasGroup(m: Pool, w: Winners, t: TxId)
    requires t in m && t in Losers(m, w)
    ensures GroupsWith(m, w, t) != {}
  {
    var p :| p in Losses(m, w) && p.0 == t;
    assert p.1 in GroupsWith(m, w, t);
  }

  /** Clean but for groups of the listed ids, which replace-by-fee has yet to decide. */
  ghost predicate AlmostClean(m: Pool, mined: set<TxId>, ids: set<TxId>) {
    NoneMined(m, mined) && UniqueExcept(m, GroupsFor(m, [], ids, true))
  }

  lemma ChunkResolves(m: Pool, values: seq<MempoolTx>, mined: set<TxId>, height: nat, t: TxId)
    requires values != []
    requires t in IdsIn(values) || Resolved(m, t, mined)
    ensures Resolved(InsertChunk(m, values, mined, height), t, mined)
  {
    ChunkPending(m, values, mined, height);
    InsertRowsLaws(ReviveRows(m, values, mined, height), values, height);
  }

  predicate IsNextChunk(incoming: seq<MempoolTx>, i: nat, n: nat) {
    i < n <= |incoming| && n == if |incoming| - i < INSERT_BATCH_SIZE then |incoming| else i + INSERT_BATCH_SIZE
  }

  lemma NextChunk(m: Pool, incoming: seq<MempoolTx>, i: nat, n: nat, mined: set<TxId>, height: nat)
    requires IsNextChunk(incoming, i, n)
    ensures var next := InsertChunk(m, incoming[i..n], mined, height);
      && InsertChunks(m, incoming, i, mined, height) == InsertChunks(next, incoming, n, mined, height)
      && ChunkIds(m, incoming, i, mined, height)
         == NewlyPending(m, incoming[i..n], mined) + ChunkIds(next, incoming, n, mined, height)
  {
  }

  /** What a chunk made pending does not become pending again. */
  lemma {:induction false} ChunkIdsFresh(m: Pool, incoming: seq<MempoolTx>, i: nat, mined: set<TxId>, height: nat,
                                         done: set<TxId>)
    requires forall t :: t in done ==> t in m && (t in PendingIn(m) || t in mined)
    ensures ChunkIds(m, incoming, i, mined, height) !! done
    decreases |incoming| - i
  {
    if i < |incoming| {
      var n := if |incoming| - i < INSERT_BATCH_SIZE then |incoming| else i + INSERT_BATCH_SIZE;
      ChunkPending(m, incoming[i..n], mined, height);
      ChunkIdsFresh(InsertChunk(m, incoming[i..n], mined, height), incoming, n, mined, height, done);
    }
  }

  lemma ChunkIdsCount(m: Pool, incoming: seq<MempoolTx>, i: nat, n: nat, mined: set<TxId>, height: nat)
    requires IsNextChunk(incoming, i, n)
    ensures var next := InsertChunk(m, incoming[i..n], mined, height);
      |ChunkIds(m, incoming, i, mined, height)|
      == |NewlyPending(m, incoming[i..n], mined)| + |ChunkIds(next, incoming, n, mined, height)|
  {
    var next := InsertChunk(m, incoming[i..n], mined, height);
    var first := NewlyPending(m, incoming[i..n], mined);
    NextChunk(m, incoming, i, n, mined, height);
    ChunkPending(m, incoming[i..n], mined, height);
    ChunkIdsFresh(next, incoming, n, mined, height, first);
  }

  /** What is left of the insertion: from here on it ends where it was meant to end. Folded. */
  ghost predicate Remains(m0: Pool, m: Pool, incoming: seq<MempoolTx>, i: nat, mined: set<TxId>, height: nat,
                          ids: seq<TxId>)
  {
    forall k :: Opened(k, [m, m0]) ==>
      && InsertChunks(m, incoming, i, mined, height) == InsertChunks(m0, incoming, 0, mined, height)
      && SetOf(ids) + ChunkIds(m, incoming, i, mined, height) == ChunkIds(m0, incoming, 0, mined, height)
      && |ids| + |ChunkIds(m, incoming, i, mined, height)| == |ChunkIds(m0, incoming, 0, mined, height)|
  }

  lemma RemainsAll(m: Pool, incoming: seq<MempoolTx>, mined: set<TxId>, height: nat)
    ensures Remains(m, m, incoming, 0, mined, height, [])
  {
  }

  lemma ListsMore(ids: seq<TxId>, q: seq<TxId>, a: set<TxId>, b: set<TxId>, c: set<TxId>, all: set<TxId>)
    requires SetOf(ids) + a == all && |ids| + |a| == |all|
    requires a == b + c && |a| == |b| + |c| && Lists(q, b)
    ensures SetOf(ids + q) + c == all && |ids + q| + |c| == |all|
  {
    assert SetOf(ids + q) == SetOf(ids) + SetOf(q);
  }

  lemma RemainsNext(m0: Pool, m: Pool, incoming: seq<MempoolTx>, i: nat, n: nat, mined: set<TxId>, height: nat,
                    ids: seq<TxId>, m': Pool, newIds: seq<TxId>)
    requires IsNextChunk(incoming, i, n) && Remains(m0, m, incoming, i, mined, height, ids)
    requires m' == InsertChunk(m, incoming[i..n], mined, height)
    requires Lists(newIds, NewlyPending(m, incoming[i..n], mined))
    ensures Remains(m0, m', incoming, n, mined, height, ids + newIds)
  {
    assert Opened(0, [m, m0]);
    NextChunk(m, incoming, i, n, mined, height);
    ChunkIdsCount(m, incoming, i, n, mined, height);
    ListsMore(ids, newIds, ChunkIds(m, incoming, i, mined, height), NewlyPending(m, incoming[i..n], mined),
              ChunkIds(m', incoming, n, mined, height), ChunkIds(m0, incoming, 0, mined, height));
  }

  lemma RemainsNothing(m0: Pool, m: Pool, incoming: seq<MempoolTx>, i: nat, mined: set<TxId>, height: nat,
                       ids: seq<TxId>)
    requires |incoming| <= i && Remains(m0, m, incoming, i, mined, height, ids)
    ensures m == InsertChunks(m0, incoming, 0, mined, height) && Arrivals(m0, incoming, mined, height, ids)
  {
    assert Opened(0, [m, m0]);
    var none := ChunkIds(m, incoming, i, mined, height);
    assert InsertChunks(m, incoming, i, mined, height) == m && none == {};
    assert SetOf(ids) + none == SetOf(ids);
  }

  lemma SliceIds(incoming: seq<MempoolTx>, i: nat, n: nat)
    requires i <= n <= |incoming|
    ensures IdsIn(incoming[..n]) == IdsIn(incoming[..i]) + IdsIn(incoming[i..n])
  {
    assert incoming[..n] == incoming[..i] + incoming[i..n];
  }

  /** Part of the arrivals are in: they are accounted for, and only groups of the listed ids are undecided. */
  ghost predicate Arrived(m0: Pool, m: Pool, values: seq<MempoolTx>, mined: set<TxId>, ids: set<TxId>) {
    && m.Keys == m0.Keys + IdsIn(values)
    && ids <= m.Keys
    && (Clean(m0, mined) ==> AlmostClean(m, mined, ids))
    && (forall t :: t in PendingIn(m0) + IdsIn(values) ==> Resolved(m, t, mined))
  }

  /** The same, folded. */
  ghost predicate Entered(m0: Pool, m: Pool, values: seq<MempoolTx>, mined: set<TxId>, ids: set<TxId>) {
    forall k :: Opened(k, [m0, m]) ==> Arrived(m0, m, values, mined, ids)
  }

  lemma EnteredArrived(m0: Pool, m: Pool, values: seq<MempoolTx>, mined: set<TxId>, ids: set<TxId>)
    ensures Entered(m0, m, values, mined, ids) <==> Arrived(m0, m, values, mined, ids)
  {
    assert Opened(0, [m0, m]);
  }

  lemma ChunkClean(m0: Pool, m: Pool, values: seq<MempoolTx>, mined: set<TxId>, height: nat, ids: set<TxId>)
    requires values != [] && ids <= m.Keys
    requires Clean(m0, mined) ==> AlmostClean(m, mined, ids)
    ensures Clean(m0, mined) ==>
      AlmostClean(InsertChunk(m, values, mined, height), mined, ids + NewlyPending(m, values, mined))
  {
    if Clean(m0, mined) {
      ChunkKeeps(m, values, mined, height, ids);
    }
  }

  lemma ChunkArrives(m0: Pool, m: Pool, before: set<TxId>, values: seq<MempoolTx>, mined: set<TxId>, height: nat)
    requires values != []
    requires forall t :: t in PendingIn(m0) + before ==> Resolved(m, t, mined)
    ensures forall t :: t in PendingIn(m0) + (before + IdsIn(values)) ==>
      Resolved(InsertChunk(m, values, mined, height), t, mined)
  {
    forall t | t in PendingIn(m0) + (before + IdsIn(values))
      ensures Resolved(InsertChunk(m, values, mined, height), t, mined)
    {
      ChunkResolves(m, values, mined, height, t);
    }
  }

  lemma ChunkStep(m0: Pool, m: Pool, incoming: seq<MempoolTx>, i: nat, n: nat, mined: set<TxId>, height: nat,
                  ids: set<TxId>)
    requires IsNextChunk(incoming, i, n)
    requires Entered(m0, m, incoming[..i], mined, ids)
    ensures Entered(m0, InsertChunk(m, incoming[i..n], mined, height), incoming[..n], mined,
                    ids + NewlyPending(m, incoming[i..n], mined))
  {
    EnteredArrived(m0, m, incoming[..i], mined, ids);
    EnteredArrived(m0, InsertChunk(m, incoming[i..n], mined, height), incoming[..n], mined,
                   ids + NewlyPending(m, incoming[i..n], mined));
    SliceIds(incoming, i, n);
    ChunkKeys(m, incoming[i..n], mined, height);
    ChunkClean(m0, m, incoming[i..n], mined, height, ids);
    ChunkArrives(m0, m, IdsIn(incoming[..i]), incoming[i..n], mined, height);
  }

  lemma NothingArrived(m: Pool, mined: set<TxId>)
    ensures Entered(m, m, [], mined, {})
  {
  }

  /** The whole insertion, chunk after chunk. */
  lemma {:induction false} ChunksArrive(m0: Pool, m: Pool, incoming: seq<MempoolTx>, i: nat, mined: set<TxId>,
                                        height: nat,
                                        ids: set<TxId>)
    requires i <= |incoming| && Entered(m0, m, incoming[..i], mined, ids)
    ensures Entered(m0, InsertChunks(m, incoming, i, mined, height), incoming, mined,
                    ids + ChunkIds(m, incoming, i, mined, height))
    decreases |incoming| - i
  {
    if i < |incoming| {
      var n := if |incoming| - i < INSERT_BATCH_SIZE then |incoming| else i + INSERT_BATCH_SIZE;
      var next := InsertChunk(m, incoming[i..n], mined, height);
      var newIds := NewlyPending(m, incoming[i..n], mined);
      NextChunk(m, incoming, i, n, mined, height);
      ChunkStep(m0, m, incoming, i, n, mined, height, ids);
      ChunksArrive(m0, next, incoming, n, mined, height, ids + newIds);
      assert (ids + newIds) + ChunkIds(next, incoming, n, mined, height) ==
        ids + ChunkIds(m, incoming, i, mined, height);
    } else {
      assert incoming[..i] == incoming;
      assert ids + {} == ids;
    }
  }

  lemma ChunkKeys(m: Pool, values: seq<MempoolTx>, mined: set<TxId>, height: nat)
    requires values != []
    ensures InsertChunk(m, values, mined, height).Keys == m.Keys + IdsIn(values)
    ensures NewlyPending(m, values, mined) <= m.Keys + IdsIn(values)
  {
    ChunkPending(m, values, mined, height);
  }

  /** After a successful insertion every arrival is accounted for, and a clean mempool stays clean. */
  ghost predicate Inserted(m: Pool, incoming: seq<MempoolTx>, txs: seq<Row<Tx>>, m': Pool) {
    && m'.Keys == m.Keys + IdsIn(incoming)
    && (Clean(m, Mined(txs)) ==> Clean(m', Mined(txs)))
    && (forall t :: t in PendingIn(m) + IdsIn(incoming) ==> Resolved(m', t, Mined(txs)))
  }

  /** ids are what the chunks make pending, each once, in some order. */
  ghost predicate Arrivals(m: Pool, incoming: seq<MempoolTx>, mined: set<TxId>, height: nat, ids: seq<TxId>) {
    Lists(ids, ChunkIds(m, incoming, 0, mined, height))
  }

  /** What the insertion can make of m: all chunks, then replace-by-fee for the ids they answered. */
  ghost predicate Arrives(m: Pool, incoming: seq<MempoolTx>, txs: seq<Row<Tx>>, height: nat, m': Pool) {
    exists ids :: Arrivals(m, incoming, Mined(txs), height, ids)
      && Replaces(InsertChunks(m, incoming, 0, Mined(txs), height), txs, ids, 0, true, m')
  }

  /** The insertion may fail: in some order of the ids a clash is possible in a batch. */
  ghost predicate MayFail(m: Pool, incoming: seq<MempoolTx>, txs: seq<Row<Tx>>, height: nat) {
    exists ids :: Arrivals(m, incoming, Mined(txs), height, ids)
      && !Safe(InsertChunks(m, incoming, 0, Mined(txs), height), txs, ids, 0, true)
  }

  /** Up to the choices: only losers of the affected groups change after the chunks, and all are decided. */
  lemma ArrivesLaws(m: Pool, incoming: seq<MempoolTx>, txs: seq<Row<Tx>>, height: nat, m': Pool)
    requires Arrives(m, incoming, txs, height, m')
    ensures var inserted := InsertChunks(m, incoming, 0, Mined(txs), height);
      var groups := GroupsFor(inserted, txs, ChunkIds(m, incoming, 0, Mined(txs), height), true);
      OnlyLosers(inserted, txs, groups, m') && AllDecided(m', txs, groups) && OnlyReplaces(inserted, m')
  {
    var inserted := InsertChunks(m, incoming, 0, Mined(txs), height);
    var ids :| Arrivals(m, incoming, Mined(txs), height, ids) && Replaces(inserted, txs, ids, 0, true, m');
    ReplacesLaws(inserted, txs, ids, 0, true, m');
    assert ids[0..] == ids;
  }

  /** For each order of the ids: the insertion can succeed iff no batch clashes, and fail iff a clash is possible. */
  lemma ArrivalsExact(m: Pool, incoming: seq<MempoolTx>, txs: seq<Row<Tx>>, height: nat, ids: seq<TxId>)
    requires Arrivals(m, incoming, Mined(txs), height, ids)
    ensures var inserted := InsertChunks(m, incoming, 0, Mined(txs), height);
      && (Passable(inserted, txs, ids, 0, true) ==> exists m' :: Arrives(m, incoming, txs, height, m'))
      && (ReplacingFails(inserted, txs, ids, 0, true) ==> MayFail(m, incoming, txs, height))
  {
    var inserted := InsertChunks(m, incoming, 0, Mined(txs), height);
    if Passable(inserted, txs, ids, 0, true) {
      var m' := PassableReplaces(inserted, txs, ids, 0, true);
      assert Arrives(m, incoming, txs, height, m');
    }
    FailsExact(inserted, txs, ids, 0, true);
  }

  /** It cannot fail while no row is in two of the groups of what becomes pending. */
  lemma NoOverlapNoFail(m: Pool, incoming: seq<MempoolTx>, txs: seq<Row<Tx>>, height: nat)
    requires var inserted := InsertChunks(m, incoming, 0, Mined(txs), height);
      NoOverlap(inserted, GroupsFor(inserted, txs, ChunkIds(m, incoming, 0, Mined(txs), height), true))
    ensures !MayFail(m, incoming, txs, height)
  {
    var inserted := InsertChunks(m, incoming, 0, Mined(txs), height);
    forall ids | Arrivals(m, incoming, Mined(txs), height, ids)
      ensures Safe(inserted, txs, ids, 0, true)
    {
        NoOverlapIsSafe(inserted, txs, ids, 0, true);
    }
  }

  // ---- The insertion row by row ------------------------------------------------------------------

  /** The row is as told, or was replaced by fee after that. */
  predicate StandsOrReplaced(r: MempoolRow, r': MempoolRow) {
    || r' == r
    || (r'.replacedBy.Some?
        && r' == MempoolRow(r.sender, r.sponsor, r.nonce, r.fee, r.receiptTime, r.receiptBlockHeight, true,
                            DroppedReplaceByFee, r'.replacedBy))
  }

  /**
   For the first value of an id: a new id has its row, pruned only if mined; a pruned row that is not mined is
   pending again, with the receipt of the first value of its chunk; any other row is pruned if it is mined.
   */
  ghost predicate RegisteredAt(m: Pool, incoming: seq<MempoolTx>, mined: set<TxId>, height: nat, m': Pool, k: int)
    requires 0 <= k < |incoming|
  {
    var v := incoming[k];
    v.txId in m' &&
    if v.txId !in m then
      StandsOrReplaced(MempoolRow(v.sender, v.sponsor, v.nonce, v.fee, v.receiptTime, height, v.txId in mined, Pending,
                                  None), m'[v.txId])
    else
      var r := m[v.txId];
      if r.pruned && v.txId !in mined then
        StandsOrReplaced(MempoolRow(r.sender, r.sponsor, r.nonce, r.fee, incoming[k - k % 500].receiptTime, height,
                                    false, Pending, None), m'[v.txId])
      else
        StandsOrReplaced(r.(pruned := r.pruned || v.txId in mined), m'[v.txId])
  }

  /** What the values from position i on leave in the rows. */
  ghost predicate Registered(m: Pool, incoming: seq<MempoolTx>, i: nat, mined: set<TxId>, height: nat, m': Pool)
    requires i <= |incoming|
  {
    && m'.Keys == m.Keys + IdsIn(incoming[i..])
    && (forall k :: FirstOfId(incoming, i, k) ==> RegisteredAt(m, incoming, mined, height, m', k))
    && (forall t :: t in m && t !in IdsIn(incoming[i..]) ==> StandsOrReplaced(m[t], m'[t]))
  }

  /** What a chunk has dealt with stays, unless it is replaced. */
  lemma StaysRegistered(m: Pool, incoming: seq<MempoolTx>, i: nat, mined: set<TxId>, height: nat, m': Pool, t: TxId)
    requires i <= |incoming| && Registered(m, incoming, i, mined, height, m')
    requires t in m && (m[t].pruned <==> t in mined)
    ensures t in m' && StandsOrReplaced(m[t], m'[t])
  {
    if t in IdsIn(incoming[i..]) {
      var k := FirstExists(incoming[i..], t);
      assert FirstOfId(incoming, i, i + k);
      assert RegisteredAt(m, incoming, mined, height, m', i + k);
    }
  }

  lemma ChunkPosition(incoming: seq<MempoolTx>, i: nat, n: nat, k: int)
    requires IsNextChunk(incoming, i, n) && i % 500 == 0 && FirstOfId(incoming, i, k) && k < n
    ensures FirstOfId(incoming[i..n], 0, k - i) && incoming[i..n][k - i] == incoming[k]
    ensures incoming[i..n][0] == incoming[k - k % 500]
  {
    assert forall j :: 0 <= j < n - i ==> incoming[i..n][j] == incoming[i + j];
    assert k - k % 500 == i;
  }

  lemma ChunkRegisters(m: Pool, next: Pool, incoming: seq<MempoolTx>, i: nat, n: nat, mined: set<TxId>, height: nat,
                       m': Pool, k: int)
    requires IsNextChunk(incoming, i, n) && i % 500 == 0 && FirstOfId(incoming, i, k) && k < n
    requires RowsOfChunk(m, incoming[i..n], mined, height, next) && Registered(next, incoming, n, mined, height, m')
    ensures RegisteredAt(m, incoming, mined, height, m', k)
  {
    ChunkPosition(incoming, i, n, k);
    assert ChunkRow(m, incoming[i..n], mined, height, next, k - i);
    StaysRegistered(next, incoming, n, mined, height, m', incoming[k].txId);
  }

  lemma LaterRegisters(m: Pool, next: Pool, incoming: seq<MempoolTx>, i: nat, n: nat, mined: set<TxId>, height: nat,
                       m': Pool, k: int)
    requires IsNextChunk(incoming, i, n) && FirstOfId(incoming, i, k) && n <= k
    requires RowsOfChunk(m, incoming[i..n], mined, height, next) && Registered(next, incoming, n, mined, height, m')
    ensures RegisteredAt(m, incoming, mined, height, m', k)
  {
    assert RegisteredAt(next, incoming, mined, height, m', k);
    assert incoming[k].txId !in IdsIn(incoming[i..n]);
  }

  lemma {:induction false} ChunksRegister(m: Pool, incoming: seq<MempoolTx>, i: nat, mined: set<TxId>, height: nat)
    requires i <= |incoming| && (i == |incoming| || i % 500 == 0)
    ensures Registered(m, incoming, i, mined, height, InsertChunks(m, incoming, i, mined, height))
    decreases |incoming| - i
  {
    var m' := InsertChunks(m, incoming, i, mined, height);
    if i < |incoming| {
      var n := if |incoming| - i < INSERT_BATCH_SIZE then |incoming| else i + INSERT_BATCH_SIZE;
      var next := InsertChunk(m, incoming[i..n], mined, height);
      NextChunk(m, incoming, i, n, mined, height);
      ChunkByRow(m, incoming[i..n], mined, height);
      ChunksRegister(next, incoming, n, mined, height);
      forall k | FirstOfId(incoming, i, k)
        ensures RegisteredAt(m, incoming, mined, height, m', k)
      {
        if k < n {
          ChunkRegisters(m, next, incoming, i, n, mined, height, m', k);
        } else {
          LaterRegisters(m, next, incoming, i, n, mined, height, m', k);
        }
      }
      assert incoming[i..] == incoming[i..n] + incoming[n..];
      assert IdsIn(incoming[i..]) == IdsIn(incoming[i..n]) + IdsIn(incoming[n..]);
    } else {
      assert IdsIn(incoming[i..]) == {};
    }
  }

  /** Everything that is new or comes back is among the ids replace-by-fee is recomputed for. */
  lemma {:induction false} ChunkIdsAll(m: Pool, incoming: seq<MempoolTx>, i: nat, mined: set<TxId>, height: nat)
    requires i <= |incoming|
    ensures NewlyPending(m, incoming[i..], mined) <= ChunkIds(m, incoming, i, mined, height)
    decreases |incoming| - i
  {
    if i < |incoming| {
      var n := if |incoming| - i < INSERT_BATCH_SIZE then |incoming| else i + INSERT_BATCH_SIZE;
      var next := InsertChunk(m, incoming[i..n], mined, height);
      ChunkByRow(m, incoming[i..n], mined, height);
      ChunkIdsAll(next, incoming, n, mined, height);
      assert incoming[i..] == incoming[i..n] + incoming[n..];
      assert IdsIn(incoming[i..]) == IdsIn(incoming[i..n]) + IdsIn(incoming[n..]);
    } else {
      assert IdsIn(incoming[i..]) == {};
    }
  }

  /** After a whole insertion: every row has the right columns, and what is beaten has been dropped. */
  ghost predicate ArrivedByRow(m: Pool, incoming: seq<MempoolTx>, txs: seq<Row<Tx>>, height: nat, m': Pool) {
    && Registered(m, incoming, 0, Mined(txs), height, m')
    && NoncesSettled(m', txs, NewlyPending(m, incoming, Mined(txs)), true)
  }

  lemma ReplacedRegistered(m: Pool, incoming: seq<MempoolTx>, mined: set<TxId>, height: nat, m1: Pool, m2: Pool)
    requires Registered(m, incoming, 0, mined, height, m1) && OnlyReplaces(m1, m2)
    ensures Registered(m, incoming, 0, mined, height, m2)
  {
    forall k | FirstOfId(incoming, 0, k)
      ensures RegisteredAt(m, incoming, mined, height, m2, k)
    {
      assert RegisteredAt(m, incoming, mined, height, m1, k);
    }
  }

  lemma ArrivesByRow(m: Pool, incoming: seq<MempoolTx>, txs: seq<Row<Tx>>, height: nat, m': Pool)
    requires Arrives(m, incoming, txs, height, m')
    ensures ArrivedByRow(m, incoming, txs, height, m')
  {
    var inserted := InsertChunks(m, incoming, 0, Mined(txs), height);
    var ids := ChunkIds(m, incoming, 0, Mined(txs), height);
    assert incoming[0..] == incoming;
    ChunksRegister(m, incoming, 0, Mined(txs), height);
    ChunkIdsAll(m, incoming, 0, Mined(txs), height);
    ArrivesLaws(m, incoming, txs, height, m');
    ReplacedRegistered(m, incoming, Mined(txs), height, inserted, m');
    DecidedSettles(inserted, m', txs, ids, true);
  }

  lemma DecidedInserted(m: Pool, m1: Pool, incoming: seq<MempoolTx>, txs: seq<Row<Tx>>, ids: seq<TxId>, m': Pool)
    requires m1.Keys == m.Keys + IdsIn(incoming)
    requires Clean(m, Mined(txs)) ==> AlmostClean(m1, Mined(txs), SetOf(ids))
    requires forall t :: t in PendingIn(m) + IdsIn(incoming) ==> Resolved(m1, t, Mined(txs))
    requires OnlyReplaces(m1, m') && AllDecided(m', txs, GroupsFor(m1, txs, SetOf(ids), true))
    ensures Inserted(m, incoming, txs, m')
  {
    if Clean(m, Mined(txs)) {
      var dirty := GroupsFor(m1, [], SetOf(ids), true);
      assert dirty == GroupsFor(m1, txs, SetOf(ids), true);
      DecidedIsUnique(m1, m', txs, dirty);
    }
    forall t | t in PendingIn(m) + IdsIn(incoming)
      ensures Resolved(m', t, Mined(txs))
    {
      assert Resolved(m1, t, Mined(txs));
    }
  }

  /** convertTxQueryResultToDbMempoolTx: the block time of the mined row becomes the receipt time. */
  function ToMempoolTx(tx: Tx): MempoolTx {
    MempoolTx(tx.txId, tx.sender, tx.sponsor, tx.nonce, tx.fee, tx.burnBlockTime)
  }

  predicate HasTx(txs: seq<Row<Tx>>, t: TxId) {
    exists i :: 0 <= i < |txs| && txs[i].data.txId == t
  }

  /** Row i has the id, and none that has it was mined later. */
  ghost predicate MinedLast(txs: seq<Row<Tx>>, i: int, t: TxId) {
    && 0 <= i < |txs| && txs[i].data.txId == t
    && forall j :: 0 <= j < |txs| && txs[j].data.txId == t ==> !MinedBefore(txs[i], txs[j])
  }

  /** SELECT DISTINCT ON (tx_id) ... ORDER BY tx_id, block_height DESC, tx_index DESC */
  method FindTx(txs: seq<Row<Tx>>, t: TxId) returns (found: Option<Tx>)
    ensures found.Some? <==> HasTx(txs, t)
    ensures found.Some? ==> exists i :: MinedLast(txs, i, t) && txs[i].data == found.value
  {
    found := None;
    var at := 0;
    for i := 0 to |txs|
      invariant found.None? ==> forall j :: 0 <= j < i ==> txs[j].data.txId != t
      invariant found.Some? ==> 0 <= at < i && txs[at].data == found.value && found.value.txId == t
      invariant found.Some? ==> forall j :: 0 <= j < i && txs[j].data.txId == t ==> MinedNotAfter(txs[j], txs[at])
    {
      if txs[i].data.txId == t && (found.None? || MinedNotAfter(txs[at], txs[i])) {
        found, at := Some(txs[i].data), i;
      }
    }
    assert found.Some? ==> MinedLast(txs, at, t);
  }

  /** v tells of the row of its id that was mined last; its receipt is the block's time. */
  ghost predicate FromLatest(txs: seq<Row<Tx>>, v: MempoolTx) {
    exists i :: MinedLast(txs, i, v.txId)
      && v.sender == txs[i].data.sender && v.sponsor == txs[i].data.sponsor && v.nonce == txs[i].data.nonce
      && v.fee == txs[i].data.fee && v.receiptTime == txs[i].data.burnBlockTime
  }

  /** No id comes twice. */
  predicate EachOnce(values: seq<MempoolTx>) {
    forall i, j :: 0 <= i < j < |values| ==> values[i].txId != values[j].txId
  }

  lemma OneMoreFound(found: seq<MempoolTx>, v: MempoolTx)
    requires EachOnce(found) && v.txId !in IdsIn(found)
    ensures EachOnce(found + [v]) && IdsIn(found + [v]) == IdsIn(found) + {v.txId}
  {
    assert forall i :: 0 <= i < |found| ==> found[i].txId in IdsIn(found);
    assert forall x :: x in found + [v] <==> x in found || x == v;
  }

  method FindTxs(txs: seq<Row<Tx>>, ids: set<TxId>) returns (found: seq<MempoolTx>)
    ensures IdsIn(found) == set t | t in ids && HasTx(txs, t)
    ensures forall v :: v in found ==> FromLatest(txs, v)
    ensures EachOnce(found)
  {
    found := [];
    var todo := ids;
    while todo != {}
      invariant todo <= ids
      invariant IdsIn(found) == set t | t in ids - todo && HasTx(txs, t)
      invariant forall v :: v in found ==> FromLatest(txs, v)
      invariant EachOnce(found)
    {
      var t :| t in todo;
      todo := todo - {t};
      var tx := FindTx(txs, t);
      if tx.Some? {
        var v := ToMempoolTx(tx.value);
        assert FromLatest(txs, v) by {
          var i :| MinedLast(txs, i, t) && txs[i].data == tx.value;
          assert MinedLast(txs, i, v.txId);
        }
        OneMoreFound(found, v);
        found := found + [v];
      }
    }
  }

  /**
   After a successful restoration every listed transaction that was ever mined has a row again, and
   everything it revived is pending, replaced by fee, or mined.
   */
  ghost predicate BackInPool(m: Pool, headers: seq<Header>, txs: seq<Row<Tx>>, m': Pool) {
    && m.Keys <= m'.Keys
    && (forall h :: h in headers && (h.txId in m || HasTx(txs, h.txId)) ==> Resolved(m', h.txId, Mined(txs)))
    && (forall t :: t in Touched(m, headers) + PendingIn(m) ==> Resolved(m', t, Mined(txs)))
  }

  /** What restoreMempoolTxs makes of the mempool. */
  ghost predicate RestoreStep(m: Pool, headers: seq<Header>, txs: seq<Row<Tx>>, height: nat, m': Pool) {
    if headers == [] then m' == m
    else exists found :: FoundFor(m, headers, txs, found) && Arrives(RestoreRows(m, headers), found, txs, height, m')
  }

  /** restoreMempoolTxs may fail: inserting the found transactions may clash. */
  ghost predicate RestoreMayFail(m: Pool, headers: seq<Header>, txs: seq<Row<Tx>>, height: nat) {
    && headers != []
    && exists found :: FoundFor(m, headers, txs, found) && MayFail(RestoreRows(m, headers), found, txs, height)
  }

  lemma RestoredIsBack(m: Pool, headers: seq<Header>, txs: seq<Row<Tx>>, found: seq<MempoolTx>, m': Pool)
    requires Inserted(RestoreRows(m, headers), found, txs, m')
    requires forall h :: h in headers && HasTx(txs, h.txId) && !(h.txId in Touched(m, headers) && m[h.txId].pruned) ==>
      h.txId in IdsIn(found)
    ensures BackInPool(m, headers, txs, m')
  {
    var restored := RestoreRows(m, headers);
    assert PendingIn(restored) == PendingIn(m) + Touched(m, headers);
    forall h | h in headers && h.txId in m
      ensures h.txId in Touched(m, headers)
    {
      var i :| 0 <= i < |headers| && headers[i] == h;
      assert Touches(headers[i], h.txId, m[h.txId]);
    }
  }

  /** The listed transactions without a revived row, as far as they were ever mined, with their latest data. */
  ghost predicate FoundFor(m: Pool, headers: seq<Header>, txs: seq<Row<Tx>>, found: seq<MempoolTx>) {
    && (forall v :: v in found ==> FromLatest(txs, v))
    && EachOnce(found)
    && (forall t :: t in IdsIn(found) <==>
          HasTx(txs, t) && (exists h :: h in headers && h.txId == t) && !(t in Touched(m, headers) && m[t].pruned))
  }

  lemma FoundAll(m: Pool, headers: seq<Header>, txs: seq<Row<Tx>>, found: seq<MempoolTx>, missing: set<TxId>)
    requires missing == (set h | h in headers :: h.txId) - (Touched(m, headers) - PendingIn(m))
    requires IdsIn(found) == set t | t in missing && HasTx(txs, t)
    requires forall v :: v in found ==> FromLatest(txs, v)
    requires EachOnce(found)
    ensures FoundFor(m, headers, txs, found)
  {
  }

  // ---- Restoring row by row ----------------------------------------------------------------------

  predicate Listed(headers: seq<Header>, t: TxId) {
    exists i :: 0 <= i < |headers| && headers[i].txId == t
  }

  /** r' is the row of a mined transaction that had none: what its last mined row says, received with its block. */
  ghost predicate BroughtBack(txs: seq<Row<Tx>>, height: nat, t: TxId, r': MempoolRow) {
    exists i :: MinedLast(txs, i, t) &&
      var x := txs[i].data;
      StandsOrReplaced(MempoolRow(x.sender, x.sponsor, x.nonce, x.fee, x.burnBlockTime, height, t in Mined(txs),
                                  Pending, None), r')
  }

  /** A row that is there: revived if it is met, pruned if it is pending, listed and mined. */
  ghost predicate RevivedOrStale(m: Pool, headers: seq<Header>, txs: seq<Row<Tx>>, t: TxId, r': MempoolRow)
    requires t in m
  {
    var r := m[t];
    StandsOrReplaced(
      if !r.pruned then r.(pruned := Listed(headers, t) && t in Mined(txs))
      else if !MeetsAny(headers, t, r) then r
      else MempoolRow(r.sender, r.sponsor, r.nonce, r.fee, r.receiptTime, r.receiptBlockHeight, false, Pending, None),
      r')
  }

  ghost predicate RestoredByRow(m: Pool, headers: seq<Header>, txs: seq<Row<Tx>>, height: nat, m': Pool) {
    && (forall t :: t in m' <==> t in m || (Listed(headers, t) && HasTx(txs, t)))
    && (forall t :: t in m ==> RevivedOrStale(m, headers, txs, t, m'[t]))
    && (forall t :: t in m' && t !in m ==> BroughtBack(txs, height, t, m'[t]))
    && NoncesSettled(m', txs, m'.Keys - m.Keys, true)
  }

  lemma FoundIds(m: Pool, headers: seq<Header>, txs: seq<Row<Tx>>, found: seq<MempoolTx>, t: TxId)
    requires FoundFor(m, headers, txs, found)
    ensures t in IdsIn(found) <==> HasTx(txs, t) && Listed(headers, t) && (t in m ==> !m[t].pruned)
  {
    if i :| 0 <= i < |headers| && headers[i].txId == t {
      assert headers[i] in headers;
      assert t in m ==> Touches(headers[i], t, m[t]);
    }
    if h :| h in headers && h.txId == t {
      var i :| 0 <= i < |headers| && headers[i] == h;
      assert t in m ==> Touches(headers[i], t, m[t]);
    }
  }

  lemma OldRowRestored(m: Pool, headers: seq<Header>, txs: seq<Row<Tx>>, found: seq<MempoolTx>, height: nat, m': Pool,
                       t: TxId)
    requires FoundFor(m, headers, txs, found) && ArrivedByRow(RestoreRows(m, headers), found, txs, height, m')
    requires t in m
    ensures t in m' && RevivedOrStale(m, headers, txs, t, m'[t])
  {
    RestoreByRow(m, headers);
    FoundIds(m, headers, txs, found, t);
    assert found[0..] == found;
    if t in IdsIn(found) {
      var k := FirstExists(found, t);
      assert RegisteredAt(RestoreRows(m, headers), found, Mined(txs), height, m', k);
    } else if t in Mined(txs) {
      var i :| 0 <= i < |txs| && txs[i].canonical && txs[i].data.txId == t;
    }
  }

  lemma NewRowRestored(m: Pool, headers: seq<Header>, txs: seq<Row<Tx>>, found: seq<MempoolTx>, height: nat, m': Pool,
                       t: TxId)
    requires FoundFor(m, headers, txs, found) && ArrivedByRow(RestoreRows(m, headers), found, txs, height, m')
    requires t in IdsIn(found) && t !in m
    ensures t in m' && BroughtBack(txs, height, t, m'[t])
  {
    var k := FirstExists(found, t);
    assert RegisteredAt(RestoreRows(m, headers), found, Mined(txs), height, m', k);
    assert FromLatest(txs, found[k]);
  }

  /** The restoration row by row, whatever the database picks. */
  lemma RestoreStepByRow(m: Pool, headers: seq<Header>, txs: seq<Row<Tx>>, height: nat, m': Pool)
    requires headers != [] && RestoreStep(m, headers, txs, height, m')
    ensures RestoredByRow(m, headers, txs, height, m')
  {
    var back := RestoreRows(m, headers);
    var found :| FoundFor(m, headers, txs, found) && Arrives(back, found, txs, height, m');
    ArrivesByRow(back, found, txs, height, m');
    assert found[0..] == found;
    forall t
      ensures t in m' <==> t in m || (Listed(headers, t) && HasTx(txs, t))
      ensures t in m ==> RevivedOrStale(m, headers, txs, t, m'[t])
      ensures t in m' && t !in m ==> BroughtBack(txs, height, t, m'[t])
    {
      FoundIds(m, headers, txs, found, t);
      if t in m {
        OldRowRestored(m, headers, txs, found, height, m', t);
      } else if t in IdsIn(found) {
        NewRowRestored(m, headers, txs, found, height, m', t);
      }
    }
    assert m'.Keys - m.Keys <= NewlyPending(back, found, Mined(txs));
  }

  class MempoolTable {
    var rows: Pool
    var txCount: int   // chain_tip.mempool_tx_count

    /** The counter is the number of pending rows. */
    ghost predicate Counted()
      reads this
    {
      txCount == |PendingIn(rows)|
    }

    constructor ()
      ensures rows == map[] && Counted()
    {
      rows, txCount := map[], 0;
    }

    /** pruneMempoolTxs */
    method Prune(headers: seq<Header>) returns (removed: set<TxId>)
      requires Counted()
      modifies this
      ensures Counted()
      ensures rows == PruneRows(old(rows), headers) && RowsPruned(old(rows), headers, rows)
      ensures removed == PendingIn(old(rows)) * Touched(old(rows), headers)
    {
      removed := PendingIn(rows) * Touched(rows, headers);
      var m' := PruneRows(rows, headers);
      assert PendingIn(m') == PendingIn(rows) - removed;
      PruneByRow(rows, headers);
      rows, txCount := m', txCount - |removed|;
    }

    /** One statement of dropMempoolTxs. */
    method DropBatch(status: DropStatus, batch: set<TxId>, newTx: Option<TxId>)
      requires Counted()
      modifies this
      ensures Counted()
      ensures rows == DropRows(old(rows), batch, status, newTx)
    {
      var dropped := PendingIn(rows) * batch;
      var m' := DropRows(rows, batch, status, newTx);
      assert PendingIn(m') == PendingIn(rows) - dropped;
      rows, txCount := m', txCount - |dropped|;
    }

    /** dropMempoolTxs */
    method Drop(status: DropStatus, ids: seq<TxId>, newTx: Option<TxId>)
      requires Counted()
      modifies this
      ensures Counted()
      ensures rows == DropRows(old(rows), SetOf(ids), status, newTx)
      ensures RowsDropped(old(rows), ids, status, newTx, rows)
    {
      var i := 0;
      while i < |ids|
        invariant 0 <= i <= |ids|
        invariant Counted()
        invariant rows == DropRows(old(rows), SetOf(ids[..i]), status, newTx)
      {
        var n := if |ids| - i < INSERT_BATCH_SIZE then |ids| else i + INSERT_BATCH_SIZE;
        DropBatch(status, SetOf(ids[i..n]), newTx);
        DropTwice(old(rows), SetOf(ids[..i]), SetOf(ids[i..n]), status, newTx);
        SliceUnion(ids, i, n);
        i := n;
      }
      assert ids[..i] == ids;
    }

    /** deleteGarbageCollectedMempoolTxs */
    method GarbageCollect(signed: bool, now: int, tipHeight: nat)
      requires Counted()
      modifies this
      ensures Counted()
      ensures rows == CollectRows(old(rows), signed, now, tipHeight)
      ensures RowsCollected(old(rows), signed, now, tipHeight, rows)
    {
      var expired := set t | t in rows && !rows[t].pruned && Expired(rows[t], signed, now, tipHeight);
      var m' := CollectRows(rows, signed, now, tipHeight);
      assert PendingIn(m') == PendingIn(rows) - expired;
      rows, txCount := m', txCount - |expired|;
    }

    /** winning_txs: the latest mined transaction of a group, else its highest fee in the mempool. */
    method PickWinners(txs: seq<Row<Tx>>, groups: set<Group>) returns (w: Winners)
      ensures AreWinners(rows, txs, groups, w)
    {
      w := map[];
      var todo := groups;
      while todo != {}
        invariant todo <= groups
        invariant w.Keys <= groups - todo
        invariant forall g :: g in w ==> Wins(rows, txs, g, w[g])
        invariant forall g, t :: g in groups - todo && t in rows && RowIn(rows[t], g) ==> g in w
      {
        var g :| g in todo;
        todo := todo - {g};
        var mined := PickLatestMined(txs, g);
        var highest := PickHighestFee(rows, g);
        if mined.Some? {
          w := w[g := mined.value];
        } else if highest.Some? {
          w := w[g := highest.value];
        }
      }
    }

    /** One batch of the replace-by-fee statement; it fails exactly when its scalar subquery does. */
    method SettleGroups(txs: seq<Row<Tx>>, groups: set<Group>) returns (ok: bool, w: Winners)
      requires Counted()
      modifies this
      ensures AreWinners(old(rows), txs, groups, w)
      ensures ok <==> !SubqueryFails(old(rows), w)
      ensures ok ==> Settled(old(rows), w, rows) && Counted()
      ensures !ok ==> rows == old(rows) && txCount == old(txCount)
    {
      w := PickWinners(txs, groups);
      var m';
      ok, m' := ReplaceLosers(rows, w);
      if ok {
        LossesCountRows(rows, w);
        SettledOnlyReplaces(rows, w, m');
        assert PendingIn(m') == PendingIn(rows) - PendingIn(rows) * Losers(rows, w);
        txCount := txCount - |PendingLosses(rows, w)|;
        rows := m';
      }
    }

    /**
     updateReplacedByFeeStatusForTxIds, in batches: afterwards every affected group is decided, and
     exactly rows that lost in one of them changed. It can pass exactly when no batch clashes, and fail exactly
     when in one of them a clash is possible.
     */
    method UpdateReplacedByFee(txs: seq<Row<Tx>>, ids: seq<TxId>, mempool: bool) returns (ok: bool)
      requires Counted()
      modifies this
      ensures OnlyLosers(old(rows), txs, GroupsFor(old(rows), txs, SetOf(ids), mempool), rows)
      ensures ok ==> Counted()
      ensures ok ==> Replaces(old(rows), txs, ids, 0, mempool, rows)
      ensures !ok ==> ReplacingFails(old(rows), txs, ids, 0, mempool)
      ensures ok ==> AllDecided(rows, txs, GroupsFor(old(rows), txs, SetOf(ids), mempool))
      ensures ok ==> NoncesSettled(rows, txs, SetOf(ids), mempool)
      ensures ok ==> Passable(old(rows), txs, ids, 0, mempool)
      ensures Safe(old(rows), txs, ids, 0, mempool) ==> ok
      ensures NoOverlap(old(rows), GroupsFor(old(rows), txs, SetOf(ids), mempool)) ==> ok
    {
      var i := 0;
      ok := true;
      if NoOverlap(rows, GroupsFor(rows, txs, SetOf(ids), mempool)) {
        NoOverlapIsSafe(rows, txs, ids, 0, mempool);
      }
      FailsExact(rows, txs, ids, 0, mempool);
      ghost var m0, all := rows, GroupsFor(rows, txs, SetOf(ids), mempool);
      while i < |ids|
        invariant 0 <= i <= |ids|
        invariant ok && Counted()
        invariant OnlyLosers(m0, txs, all, rows)
        invariant Continues(m0, rows, txs, ids, i, mempool)
      {
        var n := BatchEnd(ids, i);
        var groups := GroupsFor(rows, txs, SetOf(ids[i..n]), mempool);
        ghost var before := rows;
        OnlyLosersReplace(m0, txs, all, before);
        BatchGroups(m0, before, txs, ids, i, n, mempool);
        var w;
        ok, w := SettleGroups(txs, groups);
        ContinuesNext(m0, before, rows, txs, ids, i, mempool, w);
        if !ok {
          return;
        }
        BatchLoses(m0, before, rows, txs, groups, w, all);
        i := n;
      }
      ReplacesEnds(m0, rows, txs, ids, i, mempool);
    }

    /** The rows come back at once; the insert below counts them. */
    method ReviveBatch(values: seq<MempoolTx>, mined: set<TxId>, height: nat) returns (revived: set<TxId>)
      requires Counted() && values != []
      modifies this`rows
      ensures rows == ReviveRows(old(rows), values, mined, height)
      ensures revived == Revivable(old(rows), values, mined)
      ensures rows.Keys == old(rows).Keys
      ensures txCount + |revived| == |PendingIn(rows)|
    {
      revived := Revivable(rows, values, mined);
      RevivePending(rows, values, mined, height);
      assert PendingIn(rows) !! revived;
      rows := ReviveRows(rows, values, mined, height);
    }

    method InsertNew(values: seq<MempoolTx>, height: nat, revived: nat) returns (inserted: set<TxId>)
      requires txCount + revived == |PendingIn(rows)|
      modifies this
      ensures Counted()
      ensures rows == InsertRows(old(rows), values, height)
      ensures inserted == IdsIn(values) - old(rows).Keys
    {
      InsertPending(rows, values, height);
      var m' := InsertRows(rows, values, height);
      inserted := m'.Keys - rows.Keys;
      assert PendingIn(rows) !! inserted;
      rows, txCount := m', txCount + |inserted| + revived;
    }

    method PruneStale(ids: set<TxId>, mined: set<TxId>)
      requires Counted()
      modifies this
      ensures Counted()
      ensures rows == PruneMined(old(rows), ids, mined)
    {
      var stale := PendingIn(rows) * (ids * mined);
      StalePending(rows, ids, mined);
      assert PendingIn(rows) - stale == PendingIn(rows) - ids * mined;
      rows, txCount := PruneMined(rows, ids, mined), txCount - |stale|;
    }

    /** The three statements of insertDbMempoolTxs on one chunk: revive, insert, prune the mined. */
    method InsertBatch(values: seq<MempoolTx>, mined: set<TxId>, height: nat) returns (ids: seq<TxId>)
      requires Counted() && values != []
      modifies this
      ensures Counted()
      ensures rows == InsertChunk(old(rows), values, mined, height)
      ensures RowsOfChunk(old(rows), values, mined, height, rows)
      ensures Lists(ids, NewlyPending(old(rows), values, mined))
    {
      var revived := ReviveBatch(values, mined, height);
      var inserted := InsertNew(values, height, |revived|);
      PruneStale(IdsIn(values), mined);
      var first := ToSeq(revived);
      var second := ToSeq(inserted);
      ids := first + second;
      ListsBoth(first, revived, second, inserted);
      ChunkByRow(old(rows), values, mined, height);
    }

    /** All chunks, one after the other. */
    method InsertAll(incoming: seq<MempoolTx>, mined: set<TxId>, height: nat) returns (ids: seq<TxId>)
      requires Counted()
      modifies this
      ensures Counted()
      ensures rows == InsertChunks(old(rows), incoming, 0, mined, height)
      ensures Arrivals(old(rows), incoming, mined, height, ids)
    {
      ids := [];
      var i := 0;
      ghost var m0 := rows;
      RemainsAll(rows, incoming, mined, height);
      while i < |incoming|
        invariant 0 <= i <= |incoming|
        invariant Counted()
        invariant Remains(m0, rows, incoming, i, mined, height, ids)
      {
        var n := if |incoming| - i < INSERT_BATCH_SIZE then |incoming| else i + INSERT_BATCH_SIZE;
        ghost var m := rows;
        var newIds := InsertBatch(incoming[i..n], mined, height);
        RemainsNext(m0, m, incoming, i, n, mined, height, ids, rows, newIds);
        ids, i := ids + newIds, n;
      }
      RemainsNothing(m0, rows, incoming, i, mined, height, ids);
    }

    /** insertDbMempoolTxs: insert every chunk, then recompute replace-by-fee for what became pending. */
    method InsertDbMempoolTxs(incoming: seq<MempoolTx>, txs: seq<Row<Tx>>, height: nat)
      returns (ok: bool, ids: seq<TxId>)
      requires Counted()
      modifies this
      ensures Arrivals(old(rows), incoming, Mined(txs), height, ids)
      ensures ok ==> Arrives(old(rows), incoming, txs, height, rows)
      ensures ok ==> ArrivedByRow(old(rows), incoming, txs, height, rows)
      ensures ok ==> Inserted(old(rows), incoming, txs, rows) && Counted()
      ensures ok ==> Passable(InsertChunks(old(rows), incoming, 0, Mined(txs), height), txs, ids, 0, true)
      ensures Safe(InsertChunks(old(rows), incoming, 0, Mined(txs), height), txs, ids, 0, true) ==> ok
      ensures !ok ==> ReplacingFails(InsertChunks(old(rows), incoming, 0, Mined(txs), height), txs, ids, 0, true)
    {
      ids := InsertAll(incoming, Mined(txs), height);
      ghost var m := rows;
      NothingArrived(old(rows), Mined(txs));
      ChunksArrive(old(rows), old(rows), incoming, 0, Mined(txs), height, {});
      assert {} + SetOf(ids) == SetOf(ids);
      EnteredArrived(old(rows), rows, incoming, Mined(txs), SetOf(ids));
      ok := UpdateReplacedByFee(txs, ids, true);
      if ok {
        OnlyLosersReplace(m, txs, GroupsFor(m, txs, SetOf(ids), true), rows);
        DecidedInserted(old(rows), m, incoming, txs, ids, rows);
        ArrivesByRow(old(rows), incoming, txs, height, rows);
      }
    }

    /**
     updateMempoolTxs: the insertion as one transaction, undone when a statement fails; it fails only
     where a clash is possible.
     */
    method UpdateMempoolTxs(incoming: seq<MempoolTx>, txs: seq<Row<Tx>>, height: nat) returns (ok: bool)
      requires Counted()
      modifies this
      ensures Counted()
      ensures ok ==> Inserted(old(rows), incoming, txs, rows)
      ensures ok ==> Arrives(old(rows), incoming, txs, height, rows)
      ensures ok ==> ArrivedByRow(old(rows), incoming, txs, height, rows)
      ensures !ok ==> rows == old(rows)
      ensures !ok ==> MayFail(old(rows), incoming, txs, height)
    {
      var saved, savedCount := rows, txCount;
      var ids;
      ok, ids := InsertDbMempoolTxs(incoming, txs, height);
      if !ok {
        rows, txCount := saved, savedCount;
      }
    }

    /** restoreMempoolTxs: revive the touched rows, then insert the listed transactions without a revived row. */
    method Restore(headers: seq<Header>, txs: seq<Row<Tx>>, height: nat) returns (ok: bool)
      requires Counted()
      modifies this
      ensures Counted()
      ensures headers == [] ==> ok && rows == old(rows)
      ensures ok ==> RestoreStep(old(rows), headers, txs, height, rows)
      ensures !ok ==> RestoreMayFail(old(rows), headers, txs, height)
      ensures ok && headers != [] ==> BackInPool(old(rows), headers, txs, rows)
      ensures ok && headers != [] ==> RestoredByRow(old(rows), headers, txs, height, rows)
      ensures ok ==> old(rows).Keys <= rows.Keys
    {
      if headers == [] {
        return true;
      }
      var revived := Touched(rows, headers) - PendingIn(rows);
      var m' := RestoreRows(rows, headers);
      assert PendingIn(m') == PendingIn(rows) + revived;
      rows, txCount := m', txCount + |revived|;
      var missing := (set h | h in headers :: h.txId) - revived;
      var found := FindTxs(txs, missing);
      FoundAll(old(rows), headers, txs, found, missing);
      ok := UpdateMempoolTxs(found, txs, height);
      if ok {
        RestoredIsBack(old(rows), headers, txs, found, rows);
        RestoreStepByRow(old(rows), headers, txs, height, rows);
      }
    }
  }
}
