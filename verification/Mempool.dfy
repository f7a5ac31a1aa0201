/**
 The mempool table: what each statement on mempool_txs does to its rows, and replace-by-fee, which
 leaves at most one transaction pending among those that share a nonce with a paying address.
 */
module Mempool {
  import opened Types
  import opened Tables

  datatype Status = Pending | DroppedReplaceByFee | DroppedApiGarbageCollect | DroppedOther(code: nat)

  /** What the node reports for a dropped transaction. */
  type DropStatus = s: Status | s != Pending witness DroppedReplaceByFee

  /** A transaction as it enters the mempool; it is never pruned on arrival. */
  datatype MempoolTx = MempoolTx(txId: TxId, sender: Address, sponsor: Option<Address>, nonce: nat, fee: nat,
                                 receiptTime: nat)

  datatype MempoolRow = MempoolRow(sender: Address, sponsor: Option<Address>, nonce: nat, fee: nat, receiptTime: nat,
                                   receiptBlockHeight: nat, pruned: bool, status: Status, replacedBy: Option<TxId>)

  /** mempool_txs is unique on tx_id. */
  type Pool = map<TxId, MempoolRow>

  datatype Group = Group(address: Address, nonce: nat)

  datatype Header = Header(txId: TxId, sender: Address, sponsor: Option<Address>, nonce: nat)

  function HeaderOf(tx: Tx): Header {
    Header(tx.txId, tx.sender, tx.sponsor, tx.nonce)
  }

  function HeadersOf(txs: seq<Tx>): seq<Header> {
    seq(|txs|, i requires 0 <= i < |txs| => HeaderOf(txs[i]))
  }

  /** CASE sponsored WHEN true THEN sponsor_address ELSE sender_address END, with the nonce. */
  function PayerGroup(sender: Address, sponsor: Option<Address>, nonce: nat): Group {
    Group(if sponsor.Some? then sponsor.value else sender, nonce)
  }

  function GroupOfRow(r: MempoolRow): Group {
    PayerGroup(r.sender, r.sponsor, r.nonce)
  }

  function GroupOfHeader(h: Header): Group {
    PayerGroup(h.sender, h.sponsor, h.nonce)
  }

  /** A row joins every group whose address is its sender or its sponsor. */
  predicate InGroup(sender: Address, sponsor: Option<Address>, nonce: nat, g: Group) {
    nonce == g.nonce && (sender == g.address || sponsor == Some(g.address))
  }

  predicate RowIn(r: MempoolRow, g: Group) {
    InGroup(r.sender, r.sponsor, r.nonce, g)
  }

  function PendingIn(m: Pool): set<TxId> {
    set t | t in m && !m[t].pruned
  }

  /** Ids of the canonically mined transactions. */
  function Mined(txs: seq<Row<Tx>>): set<TxId> {
    set i | 0 <= i < |txs| && txs[i].canonical :: txs[i].data.txId
  }

  // ---- Pruning and restoring by header -----------------------------------------------------------

  predicate Touches(h: Header, t: TxId, r: MempoolRow) {
    t == h.txId || RowIn(r, GroupOfHeader(h))
  }

  /** The listed transactions and every row sharing a nonce with the payer of one of them. */
  function Touched(m: Pool, headers: seq<Header>): set<TxId> {
    set t | t in m && exists i :: 0 <= i < |headers| && Touches(headers[i], t, m[t])
  }

  function PruneRows(m: Pool, headers: seq<Header>): Pool {
    map t | t in m ::
      if t in Touched(m, headers) && !m[t].pruned then m[t].(pruned := true, replacedBy := None) else m[t]
  }

  function RestoreRows(m: Pool, headers: seq<Header>): Pool {
    map t | t in m ::
      if t in Touched(m, headers) && m[t].pruned
      then m[t].(pruned := false, status := Pending, replacedBy := None) else m[t]
  }

  function DropRows(m: Pool, ids: set<TxId>, status: DropStatus, newTx: Option<TxId>): Pool {
    map t | t in m ::
      if t in ids && !m[t].pruned then m[t].(pruned := true, status := status, replacedBy := newTx) else m[t]
  }

  /** By receipt time once blocks are signed, by receipt height before. */
  predicate Expired(r: MempoolRow, signed: bool, now: int, tipHeight: nat) {
    if signed then r.receiptTime <= now - 2560 * 60 else r.receiptBlockHeight <= tipHeight - 256
  }

  function CollectRows(m: Pool, signed: bool, now: int, tipHeight: nat): Pool {
    map t | t in m ::
      if !m[t].pruned && Expired(m[t], signed, now, tipHeight)
      then m[t].(pruned := true, status := DroppedApiGarbageCollect) else m[t]
  }

  // ---- Inserting ---------------------------------------------------------------------------------

  function IdsIn(values: seq<MempoolTx>): set<TxId> {
    set v | v in values :: v.txId
  }

  function Revivable(m: Pool, values: seq<MempoolTx>, mined: set<TxId>): set<TxId> {
    set t | t in IdsIn(values) && t in m && m[t].pruned && t !in mined
  }

  function ReviveRows(m: Pool, values: seq<MempoolTx>, mined: set<TxId>, height: nat): Pool
    requires values != []
  {
    map t | t in m ::
      if t in Revivable(m, values, mined)
      then m[t].(pruned := false, status := Pending, replacedBy := None,
                 receiptBlockHeight := height, receiptTime := values[0].receiptTime)
      else m[t]
  }

  function NewRow(v: MempoolTx, height: nat): MempoolRow {
    MempoolRow(v.sender, v.sponsor, v.nonce, v.fee, v.receiptTime, height, false, Pending, None)
  }

  /** ON CONFLICT ON CONSTRAINT unique_tx_id DO NOTHING: the first row of an id stays. */
  function InsertRows(m: Pool, values: seq<MempoolTx>, height: nat): Pool {
    if values == [] then m
    else
      var v := values[|values| - 1];
      var r := InsertRows(m, values[..|values| - 1], height);
      if v.txId in r then r else r[v.txId := NewRow(v, height)]
  }

  lemma {:induction false} InsertRowsLaws(m: Pool, values: seq<MempoolTx>, height: nat)
    ensures InsertRows(m, values, height).Keys == m.Keys + IdsIn(values)
    ensures forall t :: t in m ==> InsertRows(m, values, height)[t] == m[t]
    ensures forall t :: t in InsertRows(m, values, height) && t !in m ==> !InsertRows(m, values, height)[t].pruned
  {
    if values != [] {
      var init, v := values[..|values| - 1], values[|values| - 1];
      InsertRowsLaws(m, init, height);
      assert values == init + [v];
      assert IdsIn(values) == IdsIn(init) + {v.txId};
    }
  }

  /** Transactions that were already mined do not stay pending. */
  function PruneMined(m: Pool, ids: set<TxId>, mined: set<TxId>): Pool {
    map t | t in m :: if t in ids && t in mined && !m[t].pruned then m[t].(pruned := true) else m[t]
  }

  function InsertChunk(m: Pool, values: seq<MempoolTx>, mined: set<TxId>, height: nat): Pool
    requires values != []
  {
    PruneMined(InsertRows(ReviveRows(m, values, mined, height), values, height), IdsIn(values), mined)
  }

  // ---- Replace-by-fee ----------------------------------------------------------------------------

  predicate MinedRowIn(r: Row<Tx>, g: Group) {
    r.canonical && InGroup(r.data.sender, r.data.sponsor, r.data.nonce, g)
  }

  predicate MinedNotAfter(a: Row<Tx>, b: Row<Tx>) {
    a.blockHeight < b.blockHeight || (a.blockHeight == b.blockHeight && a.data.txIndex <= b.data.txIndex)
  }

  predicate FeeNotAbove(a: MempoolRow, b: MempoolRow) {
    a.fee < b.fee || (a.fee == b.fee && a.receiptTime <= b.receiptTime)
  }

  predicate HasMined(txs: seq<Row<Tx>>, g: Group) {
    exists i :: 0 <= i < |txs| && MinedRowIn(txs[i], g)
  }

  /** t was mined last among the transactions of the group. */
  predicate LatestMined(txs: seq<Row<Tx>>, g: Group, t: TxId) {
    exists i :: 0 <= i < |txs| && MinedRowIn(txs[i], g) && txs[i].data.txId == t
      && forall j :: 0 <= j < |txs| && MinedRowIn(txs[j], g) ==> MinedNotAfter(txs[j], txs[i])
  }

  /** t pays the highest fee in the group, pruned rows included, the latest received on equal fees. */
  predicate HighestFee(m: Pool, g: Group, t: TxId) {
    t in m && RowIn(m[t], g) && forall u :: u in m && RowIn(m[u], g) ==> FeeNotAbove(m[u], m[t])
  }

  predicate Wins(m: Pool, txs: seq<Row<Tx>>, g: Group, t: TxId) {
    if HasMined(txs, g) then LatestMined(txs, g, t) else HighestFee(m, g, t)
  }

  type Winners = map<Group, TxId>

  /** Every affected group that has any transaction has one winner. */
  ghost predicate AreWinners(m: Pool, txs: seq<Row<Tx>>, groups: set<Group>, w: Winners) {
    && w.Keys <= groups
    && (forall g :: g in w ==> Wins(m, txs, g, w[g]))
    && (forall g, t :: g in groups && t in m && RowIn(m[t], g) ==> g in w)
  }

  /** txs_to_prune: one entry per losing transaction and group. */
  function Losses(m: Pool, w: Winners): set<(TxId, Group)> {
    set t, g | t in m && g in w && RowIn(m[t], g) && t != w[g] :: (t, g)
  }

  function Losers(m: Pool, w: Winners): set<TxId> {
    set p | p in Losses(m, w) :: p.0
  }

  function PendingLosses(m: Pool, w: Winners): set<(TxId, Group)> {
    set p | p in Losses(m, w) && p.0 in m && !m[p.0].pruned
  }

  /** The groups with a winner that a transaction is in: what the scalar subquery ranges over. */
  function GroupsWith(m: Pool, w: Winners, t: TxId): set<Group>
    requires t in m
  {
    set g | g in w && RowIn(m[t], g)
  }

  /** A losing transaction in two affected groups makes the scalar subquery return two rows. */
  predicate SubqueryFails(m: Pool, w: Winners) {
    exists t :: t in m && t in Losers(m, w) && |GroupsWith(m, w, t)| > 1
  }

  predicate ReplacedIn(r: MempoolRow, r': MempoolRow, w: Winners, g: Group) {
    g in w && RowIn(r, g) && r' == r.(pruned := true, status := DroppedReplaceByFee, replacedBy := Some(w[g]))
  }

  /** The rows after a batch: losers are pruned and point at the winner of their group. */
  ghost predicate Settled(m: Pool, w: Winners, m': Pool) {
    && m'.Keys == m.Keys
    && (forall t :: t in m && t !in Losers(m, w) ==> m'[t] == m[t])
    && (forall t :: t in m && t in Losers(m, w) ==> exists g :: ReplacedIn(m[t], m'[t], w, g))
  }

  // ---- Cleanliness -------------------------------------------------------------------------------

  /** No two pending transactions share payer and nonce, except in the given groups. */
  ghost predicate UniqueExcept(m: Pool, dirty: set<Group>) {
    forall t, u :: t in PendingIn(m) && u in PendingIn(m) && t != u && GroupOfRow(m[t]) == GroupOfRow(m[u]) ==>
      GroupOfRow(m[t]) in dirty
  }

  ghost predicate NoneMined(m: Pool, mined: set<TxId>) {
    PendingIn(m) !! mined
  }

  /** At most one pending transaction per payer and nonce, and none that is canonically mined. */
  ghost predicate Clean(m: Pool, mined: set<TxId>) {
    UniqueExcept(m, {}) && NoneMined(m, mined)
  }

  /** Every row stays as it is or becomes a replaced one; nothing disappears, nothing is revived. */
  ghost predicate OnlyReplaces(m: Pool, m': Pool) {
    && m'.Keys == m.Keys
    && forall t :: t in m ==>
         || m'[t] == m[t]
         || (m'[t].replacedBy.Some?
             && m'[t] == m[t].(pruned := true, status := DroppedReplaceByFee, replacedBy := m'[t].replacedBy))
  }

  /** In group g everything but the winner w has lost. */
  ghost predicate OthersLost(m: Pool, g: Group, w: TxId) {
    forall t :: t in m && RowIn(m[t], g) && t != w ==> m[t].pruned && m[t].status == DroppedReplaceByFee
  }

  ghost predicate GroupDecided(m: Pool, txs: seq<Row<Tx>>, g: Group) {
    (forall t :: t in m ==> !RowIn(m[t], g)) || exists w :: Wins(m, txs, g, w) && OthersLost(m, g, w)
  }

  lemma SettledOnlyReplaces(m: Pool, w: Winners, m': Pool)
    requires Settled(m, w, m')
    ensures OnlyReplaces(m, m')
    ensures PendingIn(m') == PendingIn(m) - Losers(m, w)
  {
    forall t | t in m && t in Losers(m, w)
      ensures m'[t].pruned && m'[t].replacedBy.Some?
      ensures m'[t] == m[t].(pruned := true, status := DroppedReplaceByFee, replacedBy := m'[t].replacedBy)
    {
      var g :| ReplacedIn(m[t], m'[t], w, g);
    }
  }

  /** In group g transaction t lost to the one its row r' now points at. */
  predicate LostTo(m: Pool, txs: seq<Row<Tx>>, g: Group, t: TxId, r': MempoolRow)
    requires t in m
  {
    && RowIn(m[t], g)
    && r'.replacedBy.Some? && r'.replacedBy.value != t && Wins(m, txs, g, r'.replacedBy.value)
    && r' == m[t].(pruned := true, status := DroppedReplaceByFee, replacedBy := r'.replacedBy)
  }

  /** Every row stays as it is or lost in one of the groups. */
  ghost predicate OnlyLosers(m: Pool, txs: seq<Row<Tx>>, groups: set<Group>, m': Pool) {
    && m'.Keys == m.Keys
    && forall t :: t in m && m'[t] != m[t] ==> exists g :: g in groups && LostTo(m, txs, g, t, m'[t])
  }

  lemma OnlyLosersReplace(m: Pool, txs: seq<Row<Tx>>, groups: set<Group>, m': Pool)
    requires OnlyLosers(m, txs, groups, m')
    ensures OnlyReplaces(m, m')
  {
  }

  /** Winners are the same before and after rows were replaced, so losses add up. */
  lemma OnlyLosersCompose(m: Pool, m1: Pool, m2: Pool, txs: seq<Row<Tx>>, a: set<Group>, b: set<Group>)
    requires OnlyLosers(m, txs, a, m1) && OnlyLosers(m1, txs, b, m2)
    ensures OnlyLosers(m, txs, a + b, m2)
  {
    OnlyLosersReplace(m, txs, a, m1);
    forall t | t in m && m2[t] != m[t]
      ensures exists g :: g in a + b && LostTo(m, txs, g, t, m2[t])
    {
      if m2[t] != m1[t] {
        var g :| g in b && LostTo(m1, txs, g, t, m2[t]);
        WinsBefore(m, m1, txs, g, m2[t].replacedBy.value);
        assert LostTo(m, txs, g, t, m2[t]);
      } else {
        var g :| g in a && LostTo(m, txs, g, t, m1[t]);
      }
    }
  }

  lemma WinsBefore(m: Pool, m': Pool, txs: seq<Row<Tx>>, g: Group, t: TxId)
    requires OnlyReplaces(m, m') && Wins(m', txs, g, t)
    ensures Wins(m, txs, g, t)
  {
  }

  lemma WinsStays(m: Pool, m': Pool, txs: seq<Row<Tx>>, g: Group, t: TxId)
    requires OnlyReplaces(m, m') && Wins(m, txs, g, t)
    ensures Wins(m', txs, g, t)
  {
  }

  /** Replacing rows keeps a group decided, because fees, times and mined rows do not move. */
  lemma DecidedStays(m: Pool, m': Pool, txs: seq<Row<Tx>>, g: Group)
    requires OnlyReplaces(m, m') && GroupDecided(m, txs, g)
    ensures GroupDecided(m', txs, g)
  {
    if t :| t in m && RowIn(m[t], g) {
      var x :| Wins(m, txs, g, x) && OthersLost(m, g, x);
      WinsStays(m, m', txs, g, x);
      assert OthersLost(m', g, x);
    } else {
      assert forall t :: t in m' ==> !RowIn(m'[t], g) by {
        assert forall t :: t in m ==> !RowIn(m[t], g);
      }
    }
  }

  lemma SettledDecides(m: Pool, txs: seq<Row<Tx>>, groups: set<Group>, w: Winners, m': Pool, g: Group)
    requires AreWinners(m, txs, groups, w) && Settled(m, w, m') && g in groups
    ensures GroupDecided(m', txs, g)
  {
    SettledOnlyReplaces(m, w, m');
    if g in w {
      WinsStays(m, m', txs, g, w[g]);
      forall u | u in m' && RowIn(m'[u], g) && u != w[g]
        ensures m'[u].pruned && m'[u].status == DroppedReplaceByFee
      {
        assert (u, g) in Losses(m, w);
        assert u in Losers(m, w);
        var h :| ReplacedIn(m[u], m'[u], w, h);
      }
      assert OthersLost(m', g, w[g]);
    }
  }

  /** Distinct keys project to as many values. */
  lemma {:induction false} PairsCount(pairs: set<(TxId, Group)>)
    requires forall p, q :: p in pairs && q in pairs && p.0 == q.0 ==> p == q
    ensures |pairs| == |set p | p in pairs :: p.0|
  {
    if pairs != {} {
      var p :| p in pairs;
      PairsCount(pairs - {p});
      assert (set q | q in pairs :: q.0) == (set q | q in pairs - {p} :: q.0) + {p.0};
    }
  }

  lemma SingletonGroups(gs: set<Group>, a: Group, b: Group)
    requires a in gs && b in gs && |gs| <= 1
    ensures a == b
  {
    if a != b {
      assert {a, b} <= gs;
      assert |gs - {a}| >= 1 by { assert b in gs - {a}; }
    }
  }

  /** A losing transaction has only the group it lost in. */
  lemma LosesOnce(m: Pool, w: Winners, t: TxId, g: Group)
    requires t in m && t in Losers(m, w) && |GroupsWith(m, w, t)| <= 1
    requires g in w && RowIn(m[t], g)
    ensures t != w[g]
  {
    var p :| p in Losses(m, w) && p.0 == t;
    SingletonGroups(GroupsWith(m, w, t), p.1, g);
  }

  /** So the group a row is replaced in is one it lost. */
  lemma SettledOnlyLosers(m: Pool, txs: seq<Row<Tx>>, groups: set<Group>, w: Winners, m': Pool)
    requires AreWinners(m, txs, groups, w) && Settled(m, w, m') && !SubqueryFails(m, w)
    ensures OnlyLosers(m, txs, groups, m')
  {
    forall t | t in m && m'[t] != m[t]
      ensures exists g :: g in groups && LostTo(m, txs, g, t, m'[t])
    {
      assert t in Losers(m, w);
      var g :| ReplacedIn(m[t], m'[t], w, g);
      LosesOnce(m, w, t, g);
      assert LostTo(m, txs, g, t, m'[t]);
    }
  }

  /** Unless the subquery fails, the counter drops by exactly the number of rows that stop pending. */
  lemma LossesCountRows(m: Pool, w: Winners)
    requires !SubqueryFails(m, w)
    ensures |PendingLosses(m, w)| == |PendingIn(m) * Losers(m, w)|
  {
    var pairs := PendingLosses(m, w);
    forall p, q | p in pairs && q in pairs && p.0 == q.0
      ensures p == q
    {
      assert p.0 in Losers(m, w);
      SingletonGroups(GroupsWith(m, w, p.0), p.1, q.1);
    }
    PairsCount(pairs);
    assert (set p | p in pairs :: p.0) == PendingIn(m) * Losers(m, w) by {
      forall t | t in PendingIn(m) * Losers(m, w)
        ensures t in set p | p in pairs :: p.0
      {
        var p :| p in Losses(m, w) && p.0 == t;
        assert p in pairs;
      }
    }
  }

  /** The affected groups: payers and nonces of the given ids, in the mempool or among all mined rows. */
  function GroupsFor(m: Pool, txs: seq<Row<Tx>>, ids: set<TxId>, mempool: bool): set<Group> {
    if mempool then (set t | t in ids && t in m :: GroupOfRow(m[t]))
    else (set i | 0 <= i < |txs| && txs[i].data.txId in ids ::
            PayerGroup(txs[i].data.sender, txs[i].data.sponsor, txs[i].data.nonce))
  }

  /** No mempool row is in two of the groups. */
  ghost predicate NoOverlap(m: Pool, groups: set<Group>) {
    forall t, g, h :: t in m && g in groups && h in groups && RowIn(m[t], g) && RowIn(m[t], h) ==> g == h
  }

  // ---- When the statement fails ------------------------------------------------------------------

  /** t is in two of the groups. */
  predicate InTwo(m: Pool, groups: set<Group>, t: TxId, g: Group, h: Group)
    requires t in m
  {
    g in groups && h in groups && g != h && RowIn(m[t], g) && RowIn(m[t], h)
  }

  ghost predicate SoleWinner(m: Pool, txs: seq<Row<Tx>>, g: Group, t: TxId) {
    Wins(m, txs, g, t) && forall u :: Wins(m, txs, g, u) ==> u == t
  }

  /** A row is in two of the groups and cannot win in one of them. */
  ghost predicate CannotWinOne(m: Pool, txs: seq<Row<Tx>>, groups: set<Group>) {
    exists t, g, h :: t in m && InTwo(m, groups, t, g, h) && !Wins(m, txs, g, t)
  }

  /** Two rows that are each in another of the groups too would both have to win the same one. */
  ghost predicate TwoMustWin(m: Pool, groups: set<Group>) {
    exists t, u, g, h, k :: t in m && u in m && t != u && InTwo(m, groups, t, g, h) && InTwo(m, groups, u, g, k)
  }

  /** No choice of winners lets every row that is in two of the groups win all of its groups. */
  ghost predicate Clashes(m: Pool, txs: seq<Row<Tx>>, groups: set<Group>) {
    CannotWinOne(m, txs, groups) || TwoMustWin(m, groups)
  }

  /** A row is in two of the groups and need not win in one of them: it loses, or ties. */
  ghost predicate MayClash(m: Pool, txs: seq<Row<Tx>>, groups: set<Group>) {
    exists t, g, h :: t in m && InTwo(m, groups, t, g, h) && !SoleWinner(m, txs, g, t)
  }

  /** No affected group has two transactions that tie for it. */
  ghost predicate NoTies(m: Pool, txs: seq<Row<Tx>>, groups: set<Group>) {
    forall g, t :: g in groups && Wins(m, txs, g, t) ==> SoleWinner(m, txs, g, t)
  }

  lemma TwoGroups(gs: set<Group>, g: Group, h: Group)
    requires g in gs && h in gs && g != h
    ensures |gs| > 1
  {
    if |gs| <= 1 {
      SingletonGroups(gs, g, h);
    }
  }

  /** For chosen winners: the statement fails iff a row is in two affected groups and loses in one. */
  lemma FailsIffLoserInTwo(m: Pool, txs: seq<Row<Tx>>, groups: set<Group>, w: Winners)
    requires AreWinners(m, txs, groups, w)
    ensures SubqueryFails(m, w) <==> exists t, g, h :: t in m && InTwo(m, groups, t, g, h) && g in w && w[g] != t
  {
    if SubqueryFails(m, w) {
      var t :| t in m && t in Losers(m, w) && |GroupsWith(m, w, t)| > 1;
      var p :| p in Losses(m, w) && p.0 == t;
      assert GroupsWith(m, w, t) != {p.1};
      var h :| h in GroupsWith(m, w, t) && h != p.1;
      assert InTwo(m, groups, t, p.1, h);
    }
    if t, g, h :| t in m && InTwo(m, groups, t, g, h) && g in w && w[g] != t {
      assert (t, g) in Losses(m, w);
      assert t in Losers(m, w);
      TwoGroups(GroupsWith(m, w, t), g, h);
    }
  }

  /** Whatever the choice among ties: a clash fails, and only a possible clash can. */
  lemma ClashFails(m: Pool, txs: seq<Row<Tx>>, groups: set<Group>, w: Winners)
    requires AreWinners(m, txs, groups, w)
    ensures Clashes(m, txs, groups) ==> SubqueryFails(m, w)
    ensures SubqueryFails(m, w) ==> MayClash(m, txs, groups)
  {
    FailsIffLoserInTwo(m, txs, groups, w);
    if t, g, h :| t in m && InTwo(m, groups, t, g, h) && !Wins(m, txs, g, t) {
      assert g in w && w[g] != t;
    }
    if t, u, g, h, k :| t in m && u in m && t != u && InTwo(m, groups, t, g, h) && InTwo(m, groups, u, g, k) {
      assert g in w && (w[g] != t || w[g] != u);
    }
    if t, g, h :| t in m && InTwo(m, groups, t, g, h) && g in w && w[g] != t {
      assert Wins(m, txs, g, w[g]) && !SoleWinner(m, txs, g, t);
    }
  }

  /** Some canonical transaction of a group was mined last. */
  lemma {:induction false} LatestExists(txs: seq<Row<Tx>>, g: Group) returns (at: nat)
    requires HasMined(txs, g)
    ensures at < |txs| && MinedRowIn(txs[at], g)
    ensures forall j :: 0 <= j < |txs| && MinedRowIn(txs[j], g) ==> MinedNotAfter(txs[j], txs[at])
    decreases |txs|
  {
    var n := |txs| - 1;
    if HasMined(txs[..n], g) {
      at := LatestExists(txs[..n], g);
      if MinedRowIn(txs[n], g) && MinedNotAfter(txs[at], txs[n]) {
        at := n;
      }
    } else {
      assert forall i :: 0 <= i < n ==> txs[..n][i] == txs[i];
      at := n;
    }
  }

  /** Some row of a group pays the most. */
  lemma {:induction false} HighestExists(m: Pool, g: Group, among: set<TxId>, t: TxId) returns (best: TxId)
    requires among <= m.Keys && t in among && RowIn(m[t], g)
    ensures best in among && RowIn(m[best], g)
    ensures forall u :: u in among && RowIn(m[u], g) ==> FeeNotAbove(m[u], m[best])
    decreases among
  {
    if u :| u in among && u != t && RowIn(m[u], g) {
      best := HighestExists(m, g, among - {u}, t);
      if FeeNotAbove(m[best], m[u]) {
        best := u;
      }
    } else {
      best := t;
    }
  }

  lemma WinnerExists(m: Pool, txs: seq<Row<Tx>>, g: Group, t: TxId) returns (u: TxId)
    requires t in m && RowIn(m[t], g)
    ensures Wins(m, txs, g, u)
  {
    if HasMined(txs, g) {
      var at := LatestExists(txs, g);
      u := txs[at].data.txId;
    } else {
      u := HighestExists(m, g, m.Keys, t);
    }
  }

  ghost predicate HasWinner(m: Pool, txs: seq<Row<Tx>>, g: Group) {
    exists t :: Wins(m, txs, g, t)
  }

  /** A winner of the group; one that is in another of the groups too, if there is one. */
  ghost function Preferred(m: Pool, txs: seq<Row<Tx>>, groups: set<Group>, g: Group): (t: TxId)
    requires HasWinner(m, txs, g)
    ensures Wins(m, txs, g, t)
  {
    if t: TxId, h: Group :| t in m && InTwo(m, groups, t, g, h) && Wins(m, txs, g, t) then t
    else
      var u: TxId :| Wins(m, txs, g, u);
      u
  }

  ghost function Preferring(m: Pool, txs: seq<Row<Tx>>, groups: set<Group>): (w: Winners)
    ensures AreWinners(m, txs, groups, w)
  {
    assert forall g, t :: g in groups && t in m && RowIn(m[t], g) ==> HasWinner(m, txs, g) by {
      forall g, t | g in groups && t in m && RowIn(m[t], g)
        ensures HasWinner(m, txs, g)
      {
        var u := WinnerExists(m, txs, g, t);
      }
    }
    map g | g in groups && HasWinner(m, txs, g) :: Preferred(m, txs, groups, g)
  }

  /** The condition is exact: some choice of winners passes iff there is no clash. */
  lemma SomeChoicePasses(m: Pool, txs: seq<Row<Tx>>, groups: set<Group>)
    ensures !Clashes(m, txs, groups) <==> exists w :: AreWinners(m, txs, groups, w) && !SubqueryFails(m, w)
  {
    var w := Preferring(m, txs, groups);
    FailsIffLoserInTwo(m, txs, groups, w);
    if t, g, h :| t in m && InTwo(m, groups, t, g, h) && g in w && w[g] != t {
      if Wins(m, txs, g, t) {
        var u, k :| u in m && InTwo(m, groups, u, g, k) && Wins(m, txs, g, u) && u == w[g];
        assert TwoMustWin(m, groups);
      }
      assert Clashes(m, txs, groups);
    }
    forall w' | AreWinners(m, txs, groups, w')
      ensures Clashes(m, txs, groups) ==> SubqueryFails(m, w')
    {
      ClashFails(m, txs, groups, w');
    }
  }

  /** And some choice fails iff a clash is possible. */
  lemma SomeChoiceFails(m: Pool, txs: seq<Row<Tx>>, groups: set<Group>)
    ensures MayClash(m, txs, groups) <==> exists w :: AreWinners(m, txs, groups, w) && SubqueryFails(m, w)
  {
    if t, g, h :| t in m && InTwo(m, groups, t, g, h) && !SoleWinner(m, txs, g, t) {
      var w := Preferring(m, txs, groups);
      var u := WinnerExists(m, txs, g, t);
      if u == t {
        u :| Wins(m, txs, g, u) && u != t;
      }
      var other := w[g := u];
      assert AreWinners(m, txs, groups, other);
      FailsIffLoserInTwo(m, txs, groups, other);
      assert InTwo(m, groups, t, g, h) && g in other && other[g] != t;
    }
    forall w | AreWinners(m, txs, groups, w)
      ensures SubqueryFails(m, w) ==> MayClash(m, txs, groups)
    {
      ClashFails(m, txs, groups, w);
    }
  }

  /** Without ties every choice is the same one, and the two conditions are one. */
  lemma NoTiesExact(m: Pool, txs: seq<Row<Tx>>, groups: set<Group>)
    requires NoTies(m, txs, groups)
    ensures Clashes(m, txs, groups) <==> MayClash(m, txs, groups)
  {
    if t, g, h :| t in m && InTwo(m, groups, t, g, h) && !Wins(m, txs, g, t) {
      assert !SoleWinner(m, txs, g, t);
    }
    if t, u, g, h, k :| t in m && u in m && t != u && InTwo(m, groups, t, g, h) && InTwo(m, groups, u, g, k) {
      assert !SoleWinner(m, txs, g, t) || !SoleWinner(m, txs, g, u);
    }
    if t, g, h :| t in m && InTwo(m, groups, t, g, h) && !SoleWinner(m, txs, g, t) {
      assert !Wins(m, txs, g, t);
    }
  }

  /** Replacing rows moves neither groups nor winners. */
  lemma ClashStays(m: Pool, m': Pool, txs: seq<Row<Tx>>, groups: set<Group>)
    requires OnlyReplaces(m, m')
    ensures Clashes(m', txs, groups) <==> Clashes(m, txs, groups)
    ensures MayClash(m', txs, groups) <==> MayClash(m, txs, groups)
  {
    forall g, t
      ensures Wins(m', txs, g, t) <==> Wins(m, txs, g, t)
    {
      if Wins(m', txs, g, t) {
        WinsBefore(m, m', txs, g, t);
      }
      if Wins(m, txs, g, t) {
        WinsStays(m, m', txs, g, t);
      }
    }
    assert forall g, t :: SoleWinner(m', txs, g, t) <==> SoleWinner(m, txs, g, t);
    assert forall t, g, h :: t in m ==> (InTwo(m', groups, t, g, h) <==> InTwo(m, groups, t, g, h));
  }

  lemma NoOverlapNoClash(m: Pool, txs: seq<Row<Tx>>, groups: set<Group>)
    requires NoOverlap(m, groups)
    ensures !MayClash(m, txs, groups)
  {
  }

  /** In particular the statement cannot fail while no row is in two affected groups. */
  lemma NoOverlapSucceeds(m: Pool, txs: seq<Row<Tx>>, groups: set<Group>, w: Winners)
    requires AreWinners(m, txs, groups, w) && NoOverlap(m, groups)
    ensures !SubqueryFails(m, w)
  {
    NoOverlapNoClash(m, txs, groups);
    ClashFails(m, txs, groups, w);
  }

  function PendingRow(sender: Address, sponsor: Option<Address>, fee: nat): MempoolRow {
    MempoolRow(sender, sponsor, 0, fee, 0, 0, false, Pending, None)
  }

  /**
   Overlapping groups do fail: a cheap sponsored transaction that loses to one of its sender's and to one
   of its sponsor's, when both groups are recomputed in one batch.
   */
  lemma OverlapFails(w: Winners)
    requires var m := map[10 := PendingRow(1, None, 5), 11 := PendingRow(2, None, 5), 12 := PendingRow(1, Some(2), 1)];
      AreWinners(m, [], {Group(1, 0), Group(2, 0)}, w)
    ensures var m := map[10 := PendingRow(1, None, 5), 11 := PendingRow(2, None, 5), 12 := PendingRow(1, Some(2), 1)];
      SubqueryFails(m, w)
  {
    var m := map[10 := PendingRow(1, None, 5), 11 := PendingRow(2, None, 5), 12 := PendingRow(1, Some(2), 1)];
    var g, h := Group(1, 0), Group(2, 0);
    assert RowIn(m[10], g) && RowIn(m[11], h) && RowIn(m[12], g) && RowIn(m[12], h);
    assert g in w && h in w && w[g] == 10 && w[h] == 11;
    assert (12, g) in Losses(m, w);
    assert 12 in Losers(m, w);
    assert {g, h} <= GroupsWith(m, w, 12);
    if |GroupsWith(m, w, 12)| <= 1 {
      SingletonGroups(GroupsWith(m, w, 12), g, h);
    }
  }

  lemma GroupsForStable(m: Pool, m': Pool, txs: seq<Row<Tx>>, ids: set<TxId>, mempool: bool)
    requires OnlyReplaces(m, m')
    ensures GroupsFor(m', txs, ids, mempool) == GroupsFor(m, txs, ids, mempool)
    ensures forall groups :: NoOverlap(m, groups) ==> NoOverlap(m', groups)
  {
    assert forall t :: t in m ==> GroupOfRow(m'[t]) == GroupOfRow(m[t]);
  }

  lemma DecidedAllowsOne(m: Pool, txs: seq<Row<Tx>>, g: Group, t: TxId, u: TxId)
    requires GroupDecided(m, txs, g) && t in m && u in m && t != u && RowIn(m[t], g) && RowIn(m[u], g)
    ensures m[t].pruned || m[u].pruned
  {
    var w :| Wins(m, txs, g, w) && OthersLost(m, g, w);
  }

  /** Once the dirty groups are decided, pending transactions are unique. */
  lemma DecidedIsUnique(m: Pool, m': Pool, txs: seq<Row<Tx>>, dirty: set<Group>)
    requires UniqueExcept(m, dirty) && OnlyReplaces(m, m')
    requires forall g :: g in dirty ==> GroupDecided(m', txs, g)
    ensures UniqueExcept(m', {})
  {
    forall t, u | t in m' && u in m' && t != u && GroupOfRow(m'[t]) == GroupOfRow(m'[u])
      ensures m'[t].pruned || m'[u].pruned
    {
      if GroupOfRow(m'[t]) in dirty {
        DecidedAllowsOne(m', txs, GroupOfRow(m'[t]), t, u);
      } else {
        assert GroupOfRow(m[t]) == GroupOfRow(m[u]);
      }
    }
  }

  // ---- What the statements keep ------------------------------------------------------------------

  /** A transaction is accounted for: pending, replaced by fee, or mined. */
  ghost predicate Resolved(m: Pool, t: TxId, mined: set<TxId>) {
    t in m && (!m[t].pruned || m[t].status == DroppedReplaceByFee || t in mined)
  }

  /** Pruning for a block leaves nothing pending that the block mines, and keeps the rest clean. */
  lemma PruneKeepsClean(m: Pool, headers: seq<Header>, mined: set<TxId>)
    requires Clean(m, mined)
    ensures Clean(PruneRows(m, headers), mined + set h | h in headers :: h.txId)
    ensures forall t, h :: t in PendingIn(PruneRows(m, headers)) && h in headers ==> !RowIn(m[t], GroupOfHeader(h))
  {
    var m' := PruneRows(m, headers);
    forall t, h | t in PendingIn(m') && h in headers
      ensures t != h.txId && !RowIn(m[t], GroupOfHeader(h))
    {
      var i :| 0 <= i < |headers| && headers[i] == h;
      assert !Touches(headers[i], t, m[t]);
    }
  }

  /** Garbage collection and drops only take pending rows away. */
  lemma FewerPendingKeepsClean(m: Pool, m': Pool, mined: set<TxId>)
    requires Clean(m, mined) && m'.Keys == m.Keys
    requires forall t :: t in m ==> GroupOfRow(m'[t]) == GroupOfRow(m[t]) && (m[t].pruned ==> m'[t].pruned)
    ensures Clean(m', mined)
  {
  }

  /**
   Restoring revives every touched row, mined or not: the pool stays free of mined pending rows
   exactly when no touched row is canonically mined.
   */
  lemma RestoreNoneMined(m: Pool, headers: seq<Header>, mined: set<TxId>)
    requires NoneMined(m, mined)
    ensures NoneMined(RestoreRows(m, headers), mined) <==> Touched(m, headers) !! mined
  {
    var m' := RestoreRows(m, headers);
    assert PendingIn(m') == PendingIn(m) + Touched(m, headers);
  }

  /** Restoring revives t, and u, of the same payer and nonce, is pending afterwards too. */
  predicate RevivesRival(m: Pool, headers: seq<Header>, t: TxId, u: TxId) {
    && t in Touched(m, headers) && m[t].pruned && u in Touched(m, headers) + PendingIn(m)
    && t != u && GroupOfRow(m[t]) == GroupOfRow(m[u])
  }

  /** So pending transactions stay unique per payer and nonce exactly when no revived one has such a rival. */
  lemma RestoreUnique(m: Pool, headers: seq<Header>)
    requires UniqueExcept(m, {})
    ensures UniqueExcept(RestoreRows(m, headers), {}) <==> forall t, u :: !RevivesRival(m, headers, t, u)
  {
    var m' := RestoreRows(m, headers);
    assert PendingIn(m') == PendingIn(m) + Touched(m, headers);
    forall t, u | RevivesRival(m, headers, t, u)
      ensures !UniqueExcept(m', {})
    {
      assert t in PendingIn(m') && u in PendingIn(m') && GroupOfRow(m'[t]) == GroupOfRow(m'[u]);
    }
    forall t, u | t in PendingIn(m') && u in PendingIn(m') && t != u && GroupOfRow(m'[t]) == GroupOfRow(m'[u])
      ensures RevivesRival(m, headers, t, u) || RevivesRival(m, headers, u, t)
    {
    }
  }

  /** Groups a chunk of arrivals may have made ambiguous: those of the revived and the inserted. */
  function NewlyPending(m: Pool, values: seq<MempoolTx>, mined: set<TxId>): set<TxId> {
    Revivable(m, values, mined) + (IdsIn(values) - m.Keys)
  }

  lemma RevivePending(m: Pool, values: seq<MempoolTx>, mined: set<TxId>, height: nat)
    requires values != []
    ensures ReviveRows(m, values, mined, height).Keys == m.Keys
    ensures PendingIn(ReviveRows(m, values, mined, height)) == PendingIn(m) + Revivable(m, values, mined)
  {
  }

  lemma InsertPending(m: Pool, values: seq<MempoolTx>, height: nat)
    ensures PendingIn(InsertRows(m, values, height)) == PendingIn(m) + (IdsIn(values) - m.Keys)
    ensures InsertRows(m, values, height).Keys - m.Keys == IdsIn(values) - m.Keys
  {
    InsertRowsLaws(m, values, height);
  }

  lemma StalePending(m: Pool, ids: set<TxId>, mined: set<TxId>)
    ensures PruneMined(m, ids, mined).Keys == m.Keys
    ensures PendingIn(PruneMined(m, ids, mined)) == PendingIn(m) - ids * mined
  {
  }

  lemma ChunkPending(m: Pool, values: seq<MempoolTx>, mined: set<TxId>, height: nat)
    requires values != []
    ensures InsertChunk(m, values, mined, height).Keys == m.Keys + IdsIn(values)
    ensures PendingIn(InsertChunk(m, values, mined, height))
         == (PendingIn(m) + NewlyPending(m, values, mined)) - (IdsIn(values) * mined)
    ensures forall t :: t in m ==> GroupOfRow(InsertChunk(m, values, mined, height)[t]) == GroupOfRow(m[t])
  {
    var m1 := ReviveRows(m, values, mined, height);
    RevivePending(m, values, mined, height);
    InsertPending(m1, values, height);
    InsertRowsLaws(m1, values, height);
    StalePending(InsertRows(m1, values, height), IdsIn(values), mined);
  }

  lemma ChunkKeeps(m: Pool, values: seq<MempoolTx>, mined: set<TxId>, height: nat, ids: set<TxId>)
    requires values != [] && ids <= m.Keys
    requires NoneMined(m, mined) && UniqueExcept(m, GroupsFor(m, [], ids, true))
    ensures NoneMined(InsertChunk(m, values, mined, height), mined)
    ensures UniqueExcept(InsertChunk(m, values, mined, height),
                         GroupsFor(InsertChunk(m, values, mined, height), [], ids + NewlyPending(m, values, mined),
                           true))
  {
    ChunkPending(m, values, mined, height);
    var m' := InsertChunk(m, values, mined, height);
    var ids' := ids + NewlyPending(m, values, mined);
    assert forall t :: t in ids' && t in m' ==> GroupOfRow(m'[t]) in GroupsFor(m', [], ids', true);
    forall t, u | t in PendingIn(m') && u in PendingIn(m') && t != u && GroupOfRow(m'[t]) == GroupOfRow(m'[u])
      ensures GroupOfRow(m'[t]) in GroupsFor(m', [], ids', true)
    {
      if t !in ids' && u !in ids' {
        assert GroupOfRow(m[t]) in GroupsFor(m, [], ids, true);
        var x :| x in ids && x in m && GroupOfRow(m[x]) == GroupOfRow(m[t]);
        assert GroupOfRow(m'[x]) in GroupsFor(m', [], ids', true);
      }
    }
  }
}
