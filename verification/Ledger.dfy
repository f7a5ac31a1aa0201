/**
 All per-block tables together, the recalculation migration that says what the balances should be,
 and the two ways a block update changes them: inserting a block and re-flagging one.
 */
module Ledger {
  import opened Types
  import opened Balances
  import opened Tables
  import opened Chain

  datatype PrincipalTx = PrincipalTx(txId: TxId, principal: Address)

  datatype Ledger = Ledger(
    txs: seq<Row<Tx>>,
    principalTxs: set<Row<PrincipalTx>>,
    rewards: seq<Row<Reward>>,
    stxEvents: seq<Row<StxEvent>>,
    ftEvents: seq<Row<FtEvent>>,
    flagged: seq<Row<Flagged>>)

  const EMPTY := Ledger([], {}, [], [], [], [])

  // ---- The migration: balances from scratch ----------------------------------------------------

  function SentStx(rows: seq<Row<StxEvent>>, a: Address): nat {
    if rows == [] then 0
    else
      var r := rows[|rows| - 1];
      SentStx(rows[..|rows| - 1], a)
      + if r.canonical && r.data.kind in {Transfer, Burn} && r.data.sender == Some(a) then r.data.amount else 0
  }

  function ReceivedStx(rows: seq<Row<StxEvent>>, a: Address): nat {
    if rows == [] then 0
    else
      var r := rows[|rows| - 1];
      ReceivedStx(rows[..|rows| - 1], a)
      + if r.canonical && r.data.kind in {Transfer, Mint} && r.data.recipient == Some(a) then r.data.amount else 0
  }

  function SentFt(rows: seq<Row<FtEvent>>, asset: Asset, a: Address): nat {
    if rows == [] then 0
    else
      var r := rows[|rows| - 1];
      SentFt(rows[..|rows| - 1], asset, a)
      + if r.canonical && r.data.asset == asset && r.data.transfer.kind in {Transfer, Burn}
           && r.data.transfer.sender == Some(a) then r.data.transfer.amount else 0
  }

  function ReceivedFt(rows: seq<Row<FtEvent>>, asset: Asset, a: Address): nat {
    if rows == [] then 0
    else
      var r := rows[|rows| - 1];
      ReceivedFt(rows[..|rows| - 1], asset, a)
      + if r.canonical && r.data.asset == asset && r.data.transfer.kind in {Transfer, Mint}
           && r.data.transfer.recipient == Some(a) then r.data.transfer.amount else 0
  }

  function FeesPaid(rows: seq<Row<Tx>>, a: Address): nat {
    if rows == [] then 0
    else
      var r := rows[|rows| - 1];
      FeesPaid(rows[..|rows| - 1], a)
      + if r.canonical && (if r.data.sponsor.Some? then r.data.sponsor == Some(a) else r.data.sender == a)
        then r.data.fee else 0
  }

  function RewardsPaid(rows: seq<Row<Reward>>, a: Address): nat {
    if rows == [] then 0
    else
      var r := rows[|rows| - 1];
      RewardsPaid(rows[..|rows| - 1], a)
      + if r.canonical && r.data.recipient == a
        then r.data.coinbase + r.data.feesAnchored + r.data.feesStreamedConfirmed + r.data.feesStreamedProduced else 0
  }

  /** What the migration recomputes for one address and token. */
  function Migrated(l: Ledger, k: Key): int {
    match k.token
    case Stx =>
      ReceivedStx(l.stxEvents, k.address) - SentStx(l.stxEvents, k.address)
      - FeesPaid(l.txs, k.address) + RewardsPaid(l.rewards, k.address)
    case Ft(asset) =>
      ReceivedFt(l.ftEvents, asset, k.address) - SentFt(l.ftEvents, asset, k.address)
  }

  /** The same number as a total of changes, the form the incremental statements work with. */
  function LedgerTotal(l: Ledger, k: Key): int {
    Total(CanonicalChanges(l.txs, FeeChanges), k)
    + Total(CanonicalChanges(l.rewards, RewardChanges), k)
    + Total(CanonicalChanges(l.stxEvents, StxChanges), k)
    + Total(CanonicalChanges(l.ftEvents, FtChanges), k)
  }

  lemma {:induction false} FeesAreTotal(rows: seq<Row<Tx>>, k: Key)
    ensures Total(CanonicalChanges(rows, FeeChanges), k) == if k.token.Stx? then 0 - FeesPaid(rows, k.address) else 0
  {
    if rows != [] {
      var init, r := rows[..|rows| - 1], rows[|rows| - 1];
      FeesAreTotal(init, k);
      TotalAppend(CanonicalChanges(init, FeeChanges), if r.canonical then FeeChanges(r.data) else [], k);
    }
  }

  lemma {:induction false} RewardsAreTotal(rows: seq<Row<Reward>>, k: Key)
    ensures Total(CanonicalChanges(rows, RewardChanges), k)
         == if k.token.Stx? then RewardsPaid(rows, k.address) else 0
  {
    if rows != [] {
      var init, r := rows[..|rows| - 1], rows[|rows| - 1];
      RewardsAreTotal(init, k);
      TotalAppend(CanonicalChanges(init, RewardChanges), if r.canonical then RewardChanges(r.data) else [], k);
    }
  }

  lemma PartyTotal(party: Option<Address>, t: Token, amount: nat, k: Key)
    ensures Total(Debit(party, t, amount), k) == if party == Some(k.address) && k.token == t then 0 - amount else 0
    ensures Total(Credit(party, t, amount), k) == if party == Some(k.address) && k.token == t then amount else 0
  {
    if party.Some? {
      var d, c := Debit(party, t, amount), Credit(party, t, amount);
      assert d[..0] == [] && c[..0] == [];
    }
  }

  function In(e: StxEvent, t: Token, k: Key): nat {
    if e.kind in {Transfer, Mint} && e.recipient == Some(k.address) && k.token == t then e.amount else 0
  }

  function Out(e: StxEvent, t: Token, k: Key): nat {
    if e.kind in {Transfer, Burn} && e.sender == Some(k.address) && k.token == t then e.amount else 0
  }

  lemma TypedTotal(e: StxEvent, t: Token, k: Key)
    ensures Total(TypedChanges(e, t), k) == In(e, t, k) - Out(e, t, k)
  {
    var debits := if e.kind.Transfer? || e.kind.Burn? then Debit(e.sender, t, e.amount) else [];
    var credits := if e.kind.Transfer? || e.kind.Mint? then Credit(e.recipient, t, e.amount) else [];
    TotalAppend(debits, credits, k);
    PartyTotal(e.sender, t, e.amount, k);
    PartyTotal(e.recipient, t, e.amount, k);
  }

  lemma {:induction false} StxIsTotal(rows: seq<Row<StxEvent>>, k: Key)
    ensures Total(CanonicalChanges(rows, StxChanges), k)
         == if k.token.Stx? then ReceivedStx(rows, k.address) - SentStx(rows, k.address) else 0
  {
    if rows != [] {
      var init, r := rows[..|rows| - 1], rows[|rows| - 1];
      StxIsTotal(init, k);
      TotalAppend(CanonicalChanges(init, StxChanges), if r.canonical then StxChanges(r.data) else [], k);
      TypedTotal(r.data, Stx, k);
    }
  }

  lemma FtRowTotal(r: Row<FtEvent>, k: Key)
    ensures Total(if r.canonical then FtChanges(r.data) else [], k)
         == if r.canonical && k.token == Ft(r.data.asset)
            then In(r.data.transfer, k.token, k) - Out(r.data.transfer, k.token, k) else 0
  {
    TypedTotal(r.data.transfer, Ft(r.data.asset), k);
  }

  lemma {:induction false} FtIsTotal(rows: seq<Row<FtEvent>>, k: Key)
    ensures Total(CanonicalChanges(rows, FtChanges), k)
         == if k.token.Ft? then ReceivedFt(rows, k.token.asset, k.address) - SentFt(rows, k.token.asset, k.address)
            else 0
  {
    if rows != [] {
      var init, r := rows[..|rows| - 1], rows[|rows| - 1];
      FtIsTotal(init, k);
      TotalAppend(CanonicalChanges(init, FtChanges), if r.canonical then FtChanges(r.data) else [], k);
      FtRowTotal(r, k);
    }
  }

  lemma MigratedIsTotal(l: Ledger, k: Key)
    ensures LedgerTotal(l, k) == Migrated(l, k)
  {
    FeesAreTotal(l.txs, k);
    RewardsAreTotal(l.rewards, k);
    StxIsTotal(l.stxEvents, k);
    FtIsTotal(l.ftEvents, k);
  }

  // ---- Principal rows --------------------------------------------------------------------------

  function Parties(events: seq<StxEvent>): set<Address> {
    (set e | e in events && e.sender.Some? :: e.sender.value)
    + (set e | e in events && e.recipient.Some? :: e.recipient.value)
  }

  function Principals(e: TxEntry): set<Address> {
    {e.tx.sender} + e.tx.otherPrincipals + (if e.tx.sponsor.Some? then {e.tx.sponsor.value} else {})
    + Parties(e.stxEvents)
  }

  /** The address sends or sponsors the transaction, is party to one of its STX events, or is named by it. */
  predicate TakesPart(e: TxEntry, a: Address) {
    || e.tx.sender == a || e.tx.sponsor == Some(a) || a in e.tx.otherPrincipals
    || exists i :: 0 <= i < |e.stxEvents| && (e.stxEvents[i].sender == Some(a) || e.stxEvents[i].recipient == Some(a))
  }

  lemma PrincipalsTakePart(e: TxEntry, a: Address)
    ensures a in Principals(e) <==> TakesPart(e, a)
  {
    if a in Parties(e.stxEvents) {
      var x :| x in e.stxEvents && (x.sender == Some(a) || x.recipient == Some(a));
      var i :| 0 <= i < |e.stxEvents| && e.stxEvents[i] == x;
      assert TakesPart(e, a);
    }
    if i :| 0 <= i < |e.stxEvents| && (e.stxEvents[i].sender == Some(a) || e.stxEvents[i].recipient == Some(a)) {
      assert e.stxEvents[i] in e.stxEvents;
    }
  }

  function PrincipalTxsOf(entries: seq<TxEntry>): set<PrincipalTx> {
    set e, p | e in entries && p in Principals(e) :: PrincipalTx(e.tx.txId, p)
  }

  function PrincipalRowsFor(h: Hash, height: nat, c: bool, data: set<PrincipalTx>): set<Row<PrincipalTx>> {
    set p | p in data :: Row(h, height, c, p)
  }

  /** WHERE tx_id IN ids AND index_block_hash = h AND canonical != c */
  function MarkPrincipals(rows: set<Row<PrincipalTx>>, ids: set<TxId>, h: Hash, c: bool): set<Row<PrincipalTx>> {
    set r | r in rows :: if r.indexBlockHash == h && r.data.txId in ids then r.(canonical := c) else r
  }

  function IdsOf(txs: seq<Tx>): set<TxId> {
    set t | t in txs :: t.txId
  }

  ghost predicate PrincipalsAgree(rows: set<Row<PrincipalTx>>, known: Blocks, s: set<Hash>) {
    && (forall r :: r in rows ==>
          && r.indexBlockHash in known
          && r.blockHeight == known[r.indexBlockHash].info.height
          && (r.canonical <==> r.indexBlockHash in s)
          && r.data in PrincipalTxsOf(known[r.indexBlockHash].txs))
    && (forall h, p :: h in known && p in PrincipalTxsOf(known[h].txs) ==>
          Row(h, known[h].info.height, h in s, p) in rows)
  }

  lemma {:induction false} TxsOfMember(entries: seq<TxEntry>, e: TxEntry)
    requires e in entries
    ensures e.tx in TxsOf(entries)
  {
    if e != entries[|entries| - 1] {
      assert e in entries[..|entries| - 1];
      TxsOfMember(entries[..|entries| - 1], e);
    }
  }

  lemma MarkPrincipalsAgree(rows: set<Row<PrincipalTx>>, known: Blocks, s: set<Hash>, h: Hash, c: bool)
    requires PrincipalsAgree(rows, known, s) && h in known
    ensures PrincipalsAgree(MarkPrincipals(rows, IdsOf(TxsOf(known[h].txs)), h, c), known,
      if c then s + {h} else s - {h})
  {
    var ids := IdsOf(TxsOf(known[h].txs));
    var s' := if c then s + {h} else s - {h};
    var rows' := MarkPrincipals(rows, ids, h, c);
    forall p | p in PrincipalTxsOf(known[h].txs)
      ensures p.txId in ids
    {
      var e :| e in known[h].txs && p.principal in Principals(e) && p.txId == e.tx.txId;
      TxsOfMember(known[h].txs, e);
    }
    forall x, p | x in known && p in PrincipalTxsOf(known[x].txs)
      ensures Row(x, known[x].info.height, x in s', p) in rows'
    {
      var r := Row(x, known[x].info.height, x in s, p);
      assert r in rows;
    }
  }

  // ---- The ledger in step with a set of canonical blocks -----------------------------------------

  /** Every row of a delivered block is in its table, once and in order, and nothing else is. */
  ghost predicate Contains(l: Ledger, d: BlockData) {
    && DataOf(l.txs, d.hash) == TxsOf(d.txs)
    && DataOf(l.rewards, d.hash) == d.rewards
    && DataOf(l.stxEvents, d.hash) == StxEventsOf(d.txs)
    && DataOf(l.ftEvents, d.hash) == FtEventsOf(d.txs)
    && DataOf(l.flagged, d.hash) == d.flagged
  }

  ghost predicate Flags(l: Ledger, known: Blocks, s: set<Hash>) {
    && Agrees(l.txs, known, s)
    && Agrees(l.rewards, known, s)
    && Agrees(l.stxEvents, known, s)
    && Agrees(l.ftEvents, known, s)
    && Agrees(l.flagged, known, s)
    && PrincipalsAgree(l.principalTxs, known, s)
  }

  ghost predicate Holds(l: Ledger, known: Blocks) {
    forall h :: h in known ==> known[h].hash == h && Contains(l, known[h])
  }

  ghost predicate InBalance(l: Ledger, b: BalanceTable) {
    forall k :: BalanceOf(b, k) == LedgerTotal(l, k)
  }

  /** Every row is canonical iff its block is in s, and the balances are those of the canonical rows. */
  ghost predicate Synced(l: Ledger, b: BalanceTable, known: Blocks, s: set<Hash>) {
    Flags(l, known, s) && Holds(l, known) && InBalance(l, b)
  }

  ghost predicate Opened<T>(k: int, x: T) {
    true
  }

  /** The same, folded: the verifier looks inside only where a proof mentions Opened. */
  ghost predicate Tracks(l: Ledger, b: BalanceTable, known: Blocks, s: set<Hash>) {
    forall k :: Opened(k, l) ==> Synced(l, b, known, s)
  }

  lemma TracksSynced(l: Ledger, b: BalanceTable, known: Blocks, s: set<Hash>)
    ensures Tracks(l, b, known, s) <==> Synced(l, b, known, s)
  {
    assert Opened(0, l);
  }

  // ---- Re-flagging a block -----------------------------------------------------------------------

  function MarkAll(l: Ledger, h: Hash, c: bool): Ledger {
    Ledger(Mark(l.txs, h, c), MarkPrincipals(l.principalTxs, IdsOf(Flipped(l.txs, h, c)), h, c),
           Mark(l.rewards, h, c), Mark(l.stxEvents, h, c), Mark(l.ftEvents, h, c), Mark(l.flagged, h, c))
  }

  /** One balance statement of a re-flagging: the signed changes of the flipped rows, grouped and upserted. */
  function Reflag<T>(b: BalanceTable, rows: seq<Row<T>>, h: Hash, c: bool, effect: T -> seq<Change>): BalanceTable {
    Upsert(b, Grouped(Signed(c, ChangesOf(Flipped(rows, h, c), effect))))
  }

  function ReflagAll(b: BalanceTable, l: Ledger, h: Hash, c: bool): BalanceTable {
    var b1 := Reflag(b, l.txs, h, c, FeeChanges);
    var b2 := Reflag(b1, l.rewards, h, c, RewardChanges);
    var b3 := Reflag(b2, l.stxEvents, h, c, StxChanges);
    Reflag(b3, l.ftEvents, h, c, FtChanges)
  }

  lemma ReflagLaw<T>(b: BalanceTable, rows: seq<Row<T>>, h: Hash, c: bool, effect: T -> seq<Change>, k: Key)
    ensures BalanceOf(Reflag(b, rows, h, c, effect), k)
         == BalanceOf(b, k) + Total(CanonicalChanges(Mark(rows, h, c), effect), k)
            - Total(CanonicalChanges(rows, effect), k)
  {
    UpsertGrouped(b, Signed(c, ChangesOf(Flipped(rows, h, c), effect)), k);
    MarkTotal(rows, h, c, effect, k);
  }

  /** Re-flagging keeps the balances equal to the recalculation. */
  lemma ReflagInBalance(l: Ledger, b: BalanceTable, h: Hash, c: bool)
    requires InBalance(l, b)
    ensures InBalance(MarkAll(l, h, c), ReflagAll(b, l, h, c))
  {
    forall k
      ensures BalanceOf(ReflagAll(b, l, h, c), k) == LedgerTotal(MarkAll(l, h, c), k)
    {
      var b1 := Reflag(b, l.txs, h, c, FeeChanges);
      var b2 := Reflag(b1, l.rewards, h, c, RewardChanges);
      var b3 := Reflag(b2, l.stxEvents, h, c, StxChanges);
      ReflagLaw(b, l.txs, h, c, FeeChanges, k);
      ReflagLaw(b1, l.rewards, h, c, RewardChanges, k);
      ReflagLaw(b2, l.stxEvents, h, c, StxChanges, k);
      ReflagLaw(b3, l.ftEvents, h, c, FtChanges, k);
      assert BalanceOf(b, k) == LedgerTotal(l, k);
    }
  }

  lemma MarkAllFlags(l: Ledger, known: Blocks, s: set<Hash>, h: Hash, c: bool)
    requires Flags(l, known, s) && Holds(l, known) && h in known
    ensures Flags(MarkAll(l, h, c), known, if c then s + {h} else s - {h})
    ensures Flipped(l.txs, h, c) == if (h in s) != c then TxsOf(known[h].txs) else []
  {
    MarkAgrees(l.txs, known, s, h, c);
    MarkAgrees(l.rewards, known, s, h, c);
    MarkAgrees(l.stxEvents, known, s, h, c);
    MarkAgrees(l.ftEvents, known, s, h, c);
    MarkAgrees(l.flagged, known, s, h, c);
    FlippedIsBlock(l.txs, known, s, h, c);
    assert Contains(l, known[h]);
    MarkPrincipalsFlipped(l.principalTxs, known, s, h, c, Flipped(l.txs, h, c));
  }

  /** The update is restricted to the ids that flipped, which is no restriction. */
  lemma MarkPrincipalsFlipped(rows: set<Row<PrincipalTx>>, known: Blocks, s: set<Hash>, h: Hash, c: bool,
                              flipped: seq<Tx>)
    requires PrincipalsAgree(rows, known, s) && h in known
    requires flipped == if (h in s) != c then TxsOf(known[h].txs) else []
    ensures PrincipalsAgree(MarkPrincipals(rows, IdsOf(flipped), h, c), known, if c then s + {h} else s - {h})
  {
    if (h in s) != c {
      MarkPrincipalsAgree(rows, known, s, h, c);
    } else {
      assert MarkPrincipals(rows, IdsOf(flipped), h, c) == rows;
      assert s == if c then s + {h} else s - {h};
    }
  }

  lemma MarkAllHolds(l: Ledger, known: Blocks, h: Hash, c: bool)
    requires Holds(l, known)
    ensures Holds(MarkAll(l, h, c), known)
  {
    forall x | x in known
      ensures Contains(MarkAll(l, h, c), known[x])
    {
      assert Contains(l, known[x]);
      MarkKeepsData(l.txs, h, c, x);
      MarkKeepsData(l.rewards, h, c, x);
      MarkKeepsData(l.stxEvents, h, c, x);
      MarkKeepsData(l.ftEvents, h, c, x);
      MarkKeepsData(l.flagged, h, c, x);
    }
  }

  lemma MarkAllTracks(l: Ledger, b: BalanceTable, known: Blocks, s: set<Hash>, h: Hash, c: bool)
    requires Tracks(l, b, known, s) && h in known
    ensures Tracks(MarkAll(l, h, c), ReflagAll(b, l, h, c), known, if c then s + {h} else s - {h})
    ensures Flipped(l.txs, h, c) == if (h in s) != c then TxsOf(known[h].txs) else []
  {
    TracksSynced(l, b, known, s);
    TracksSynced(MarkAll(l, h, c), ReflagAll(b, l, h, c), known, if c then s + {h} else s - {h});
    MarkAllFlags(l, known, s, h, c);
    MarkAllHolds(l, known, h, c);
    ReflagInBalance(l, b, h, c);
  }

  // ---- Inserting a block -------------------------------------------------------------------------

  function InsertAll(l: Ledger, d: BlockData, c: bool): Ledger {
    var height := d.info.height;
    Ledger(l.txs + RowsFor(d.hash, height, c, TxsOf(d.txs)),
           l.principalTxs + PrincipalRowsFor(d.hash, height, c, PrincipalTxsOf(d.txs)),
           l.rewards + RowsFor(d.hash, height, c, d.rewards),
           l.stxEvents + RowsFor(d.hash, height, c, StxEventsOf(d.txs)),
           l.ftEvents + RowsFor(d.hash, height, c, FtEventsOf(d.txs)),
           l.flagged + RowsFor(d.hash, height, c, d.flagged))
  }

  lemma AppendAgrees<T>(rows: seq<Row<T>>, known: Blocks, s: set<Hash>, d: BlockData, c: bool, data: seq<T>)
    requires Agrees(rows, known, s) && d.hash !in known && d.hash !in s
    ensures Agrees(rows + RowsFor(d.hash, d.info.height, c, data), known[d.hash := d], if c then s + {d.hash} else s)
  {
  }

  lemma AppendChanges<T>(rows: seq<Row<T>>, d: BlockData, c: bool, data: seq<T>, effect: T -> seq<Change>, k: Key)
    ensures CountCanonical(rows + RowsFor(d.hash, d.info.height, c, data)) ==
      CountCanonical(rows) + if c then |data| else 0
    ensures Total(CanonicalChanges(rows + RowsFor(d.hash, d.info.height, c, data), effect), k)
         == Total(CanonicalChanges(rows, effect), k) + if c then Total(ChangesOf(data, effect), k) else 0
  {
    AppendLaws(rows, RowsFor(d.hash, d.info.height, c, data), effect, d.hash);
    RowsForLaws(d.hash, d.info.height, c, data, effect, d.hash);
    TotalAppend(CanonicalChanges(rows, effect), if c then ChangesOf(data, effect) else [], k);
  }

  lemma AppendData<T>(rows: seq<Row<T>>, known: Blocks, s: set<Hash>, d: BlockData, c: bool, data: seq<T>, x: Hash)
    requires Agrees(rows, known, s) && d.hash !in known
    ensures DataOf(rows + RowsFor(d.hash, d.info.height, c, data), x) == if x == d.hash then data else DataOf(rows, x)
  {
    var effect := (t: T) => [];
    AppendLaws(rows, RowsFor(d.hash, d.info.height, c, data), effect, x);
    RowsForLaws(d.hash, d.info.height, c, data, effect, x);
    if x == d.hash {
      DataOfUnknown(rows, x);
    }
  }

  /** The rows of a block are its transactions in order, and their events in order, one transaction after the other. */
  lemma {:induction false} EntriesInOrder(entries: seq<TxEntry>, i: nat)
    requires i < |entries|
    ensures |TxsOf(entries)| == |entries| && TxsOf(entries)[i] == entries[i].tx
    ensures var from, to := |StxEventsOf(entries[..i])|, |StxEventsOf(entries[..i + 1])|;
      from <= to <= |StxEventsOf(entries)| && StxEventsOf(entries)[from..to] == entries[i].stxEvents
    ensures var from, to := |FtEventsOf(entries[..i])|, |FtEventsOf(entries[..i + 1])|;
      from <= to <= |FtEventsOf(entries)| && FtEventsOf(entries)[from..to] == entries[i].ftEvents
  {
    var init := entries[..|entries| - 1];
    TxsOfLength(entries);
    if i < |init| {
      EntriesInOrder(init, i);
      assert init[..i] == entries[..i] && init[..i + 1] == entries[..i + 1];
    } else {
      assert entries[..i] == init && entries[..i + 1] == entries;
    }
  }

  lemma {:induction false} TxsOfLength(entries: seq<TxEntry>)
    ensures |TxsOf(entries)| == |entries|
  {
    if entries != [] {
      TxsOfLength(entries[..|entries| - 1]);
    }
  }

  /** All changes of one new canonical block, as its rows will be read later. */
  function BlockTotal(d: BlockData, k: Key): int {
    Total(ChangesOf(TxsOf(d.txs), FeeChanges), k)
    + Total(ChangesOf(d.rewards, RewardChanges), k)
    + Total(ChangesOf(StxEventsOf(d.txs), StxChanges), k)
    + Total(ChangesOf(FtEventsOf(d.txs), FtChanges), k)
  }

  /** The changes of new blocks, read by the parties present. */
  function StxPartyChanges(e: StxEvent): seq<Change> {
    PartyChanges(e, Stx)
  }

  function FtPartyChanges(e: FtEvent): seq<Change> {
    PartyChanges(e.transfer, Ft(e.asset))
  }

  function EntryStxChanges(e: TxEntry): seq<Change> {
    FeeChanges(e.tx) + ChangesOf(e.stxEvents, StxPartyChanges)
  }

  function EntryFtChanges(e: TxEntry): seq<Change> {
    ChangesOf(e.ftEvents, FtPartyChanges)
  }

  /** In the order the balance maps are filled: fee and events per transaction, then the rewards. */
  function StxUpdateChanges(entries: seq<TxEntry>, rewards: seq<Reward>): seq<Change> {
    ChangesOf(entries, EntryStxChanges) + ChangesOf(rewards, RewardChanges)
  }

  function FtUpdateChanges(entries: seq<TxEntry>): seq<Change> {
    ChangesOf(entries, EntryFtChanges)
  }

  lemma {:induction false} StxReadingsAgree(events: seq<StxEvent>)
    requires forall e :: e in events ==> WellFormed(e)
    ensures ChangesOf(events, StxPartyChanges) == ChangesOf(events, StxChanges)
  {
    if events != [] {
      StxReadingsAgree(events[..|events| - 1]);
      ReadingsAgree(events[|events| - 1], Stx);
    }
  }

  lemma {:induction false} FtReadingsAgree(events: seq<FtEvent>)
    requires forall e :: e in events ==> WellFormed(e.transfer)
    ensures ChangesOf(events, FtPartyChanges) == ChangesOf(events, FtChanges)
  {
    if events != [] {
      FtReadingsAgree(events[..|events| - 1]);
      ReadingsAgree(events[|events| - 1].transfer, Ft(events[|events| - 1].asset));
    }
  }

  lemma {:induction false} EntriesTotal(entries: seq<TxEntry>, k: Key)
    ensures Total(ChangesOf(entries, EntryStxChanges), k)
         == Total(ChangesOf(TxsOf(entries), FeeChanges), k) + Total(ChangesOf(StxEventsOf(entries), StxPartyChanges), k)
    ensures ChangesOf(entries, EntryFtChanges) == ChangesOf(FtEventsOf(entries), FtPartyChanges)
  {
    if entries != [] {
      var init, e := entries[..|entries| - 1], entries[|entries| - 1];
      EntriesTotal(init, k);
      TotalAppend(ChangesOf(init, EntryStxChanges), EntryStxChanges(e), k);
      TotalAppend(FeeChanges(e.tx), ChangesOf(e.stxEvents, StxPartyChanges), k);
      assert TxsOf(entries)[..|TxsOf(entries)| - 1] == TxsOf(init);
      TotalAppend(ChangesOf(TxsOf(init), FeeChanges), FeeChanges(e.tx), k);
      ChangesAppend(StxEventsOf(init), e.stxEvents, StxPartyChanges);
      TotalAppend(ChangesOf(StxEventsOf(init), StxPartyChanges), ChangesOf(e.stxEvents, StxPartyChanges), k);
      ChangesAppend(FtEventsOf(init), e.ftEvents, FtPartyChanges);
    }
  }

  /** What the two balance updates of a new block add is what its rows total. */
  lemma UpdateTotal(d: BlockData, k: Key)
    requires ValidData(d)
    ensures Total(StxUpdateChanges(d.txs, d.rewards), k) + Total(FtUpdateChanges(d.txs), k) == BlockTotal(d, k)
  {
    EntriesTotal(d.txs, k);
    StxReadingsAgree(StxEventsOf(d.txs));
    FtReadingsAgree(FtEventsOf(d.txs));
    TotalAppend(ChangesOf(d.txs, EntryStxChanges), ChangesOf(d.rewards, RewardChanges), k);
  }

  function UpdateBalances(b: BalanceTable, d: BlockData): BalanceTable {
    Upsert(Upsert(b, Grouped(StxUpdateChanges(d.txs, d.rewards))), Grouped(FtUpdateChanges(d.txs)))
  }

  lemma InsertTotal(l: Ledger, d: BlockData, c: bool, k: Key)
    ensures LedgerTotal(InsertAll(l, d, c), k) == LedgerTotal(l, k) + if c then BlockTotal(d, k) else 0
  {
    AppendChanges(l.txs, d, c, TxsOf(d.txs), FeeChanges, k);
    AppendChanges(l.rewards, d, c, d.rewards, RewardChanges, k);
    AppendChanges(l.stxEvents, d, c, StxEventsOf(d.txs), StxChanges, k);
    AppendChanges(l.ftEvents, d, c, FtEventsOf(d.txs), FtChanges, k);
  }

  /** A new canonical block keeps the balances equal to the recalculation; any other leaves them alone. */
  lemma InsertInBalance(l: Ledger, b: BalanceTable, d: BlockData, c: bool)
    requires InBalance(l, b) && ValidData(d)
    ensures InBalance(InsertAll(l, d, c), if c then UpdateBalances(b, d) else b)
  {
    forall k
      ensures BalanceOf(if c then UpdateBalances(b, d) else b, k) == LedgerTotal(InsertAll(l, d, c), k)
    {
      assert BalanceOf(b, k) == LedgerTotal(l, k);
      InsertTotal(l, d, c, k);
      UpdateTotal(d, k);
      UpsertGrouped(b, StxUpdateChanges(d.txs, d.rewards), k);
      UpsertGrouped(Upsert(b, Grouped(StxUpdateChanges(d.txs, d.rewards))), FtUpdateChanges(d.txs), k);
    }
  }

  lemma InsertFlags(l: Ledger, known: Blocks, s: set<Hash>, d: BlockData, c: bool)
    requires Flags(l, known, s) && d.hash !in known && d.hash !in s
    ensures Flags(InsertAll(l, d, c), known[d.hash := d], if c then s + {d.hash} else s)
  {
    AppendAgrees(l.txs, known, s, d, c, TxsOf(d.txs));
    AppendAgrees(l.rewards, known, s, d, c, d.rewards);
    AppendAgrees(l.stxEvents, known, s, d, c, StxEventsOf(d.txs));
    AppendAgrees(l.ftEvents, known, s, d, c, FtEventsOf(d.txs));
    AppendAgrees(l.flagged, known, s, d, c, d.flagged);
    InsertPrincipals(l.principalTxs, known, s, d, c);
  }

  lemma InsertPrincipals(rows: set<Row<PrincipalTx>>, known: Blocks, s: set<Hash>, d: BlockData, c: bool)
    requires PrincipalsAgree(rows, known, s) && d.hash !in known && d.hash !in s
    ensures PrincipalsAgree(rows + PrincipalRowsFor(d.hash, d.info.height, c, PrincipalTxsOf(d.txs)),
                            known[d.hash := d], if c then s + {d.hash} else s)
  {
  }

  lemma InsertHolds(l: Ledger, known: Blocks, s: set<Hash>, d: BlockData, c: bool)
    requires Flags(l, known, s) && Holds(l, known) && d.hash !in known
    ensures Holds(InsertAll(l, d, c), known[d.hash := d])
  {
    var known' := known[d.hash := d];
    forall h | h in known'
      ensures known'[h].hash == h && Contains(InsertAll(l, d, c), known'[h])
    {
      AppendData(l.txs, known, s, d, c, TxsOf(d.txs), h);
      AppendData(l.rewards, known, s, d, c, d.rewards, h);
      AppendData(l.stxEvents, known, s, d, c, StxEventsOf(d.txs), h);
      AppendData(l.ftEvents, known, s, d, c, FtEventsOf(d.txs), h);
      AppendData(l.flagged, known, s, d, c, d.flagged, h);
      assert h != d.hash ==> known[h].hash == h && Contains(l, known[h]);
    }
  }

  lemma InsertTracks(l: Ledger, b: BalanceTable, known: Blocks, s: set<Hash>, d: BlockData, c: bool)
    requires Tracks(l, b, known, s) && d.hash !in known && d.hash !in s && ValidData(d)
    ensures Tracks(InsertAll(l, d, c), if c then UpdateBalances(b, d) else b,
                   known[d.hash := d], if c then s + {d.hash} else s)
    ensures CountCanonical(InsertAll(l, d, c).txs) == CountCanonical(l.txs) + if c then |d.txs| else 0
  {
    TracksSynced(l, b, known, s);
    TracksSynced(InsertAll(l, d, c), if c then UpdateBalances(b, d) else b,
                 known[d.hash := d], if c then s + {d.hash} else s);
    InsertFlags(l, known, s, d, c);
    InsertHolds(l, known, s, d, c);
    InsertInBalance(l, b, d, c);
    AppendChanges(l.txs, d, c, TxsOf(d.txs), FeeChanges, Key(0, Stx));
    TxsOfLength(d.txs);
  }

  // ---- Balances of a chain -----------------------------------------------------------------------

  ghost predicate NoRepeats(path: seq<Hash>) {
    forall i, j :: 0 <= i < j < |path| ==> path[i] != path[j]
  }

  function SumBlocks<T>(rows: seq<Row<T>>, path: seq<Hash>, effect: T -> seq<Change>, k: Key): int {
    if path == [] then 0
    else SumBlocks(rows, path[..|path| - 1], effect, k) + Total(ChangesOf(DataOf(rows, path[|path| - 1]), effect), k)
  }

  function CountBlocks<T>(rows: seq<Row<T>>, path: seq<Hash>): nat {
    if path == [] then 0 else CountBlocks(rows, path[..|path| - 1]) + |DataOf(rows, path[|path| - 1])|
  }

  lemma {:induction false} SumBlocksStep<T>(rows: seq<Row<T>>, r: Row<T>, path: seq<Hash>, effect: T -> seq<Change>,
                                            k: Key)
    requires NoRepeats(path)
    ensures SumBlocks(rows + [r], path, effect, k)
         == SumBlocks(rows, path, effect, k) + if r.indexBlockHash in path then Total(effect(r.data), k) else 0
    ensures CountBlocks(rows + [r], path) == CountBlocks(rows, path) + if r.indexBlockHash in path then 1 else 0
  {
    if path != [] {
      var init, h := path[..|path| - 1], path[|path| - 1];
      SumBlocksStep(rows, r, init, effect, k);
      assert (rows + [r])[..|rows + [r]| - 1] == rows;
      assert path == init + [h];
      if r.indexBlockHash == h {
        assert DataOf(rows + [r], h)[..|DataOf(rows, h)|] == DataOf(rows, h);
        TotalAppend(ChangesOf(DataOf(rows, h), effect), effect(r.data), k);
      } else {
        assert DataOf(rows + [r], h) == DataOf(rows, h);
      }
    }
  }

  /** Summing canonical rows is summing the contents of the canonical blocks. */
  lemma {:induction false} GroupByBlock<T>(rows: seq<Row<T>>, path: seq<Hash>, effect: T -> seq<Change>, k: Key)
    requires NoRepeats(path)
    requires forall i :: 0 <= i < |rows| ==> (rows[i].canonical <==> rows[i].indexBlockHash in path)
    ensures Total(CanonicalChanges(rows, effect), k) == SumBlocks(rows, path, effect, k)
    ensures CountCanonical(rows) == CountBlocks(rows, path)
  {
    if rows == [] {
      SumNoRows<T>(path, effect, k);
    } else {
      var init, r := rows[..|rows| - 1], rows[|rows| - 1];
      GroupByBlock(init, path, effect, k);
      assert rows == init + [r];
      SumBlocksStep(init, r, path, effect, k);
      TotalAppend(CanonicalChanges(init, effect), if r.canonical then effect(r.data) else [], k);
    }
  }

  lemma {:induction false} SumNoRows<T>(path: seq<Hash>, effect: T -> seq<Change>, k: Key)
    ensures SumBlocks<T>([], path, effect, k) == 0
    ensures CountBlocks<T>([], path) == 0
  {
    if path != [] {
      SumNoRows<T>(path[..|path| - 1], effect, k);
    }
  }

  /** The balance of a key on a chain of blocks: what the blocks total. */
  function ChainTotal(known: Blocks, path: seq<Hash>, k: Key): int
    requires forall h :: h in path ==> h in known
  {
    if path == [] then 0
    else ChainTotal(known, path[..|path| - 1], k) + BlockTotal(known[path[|path| - 1]], k)
  }

  function ChainTxCount(known: Blocks, path: seq<Hash>): nat
    requires forall h :: h in path ==> h in known
  {
    if path == [] then 0
    else ChainTxCount(known, path[..|path| - 1]) + |known[path[|path| - 1]].txs|
  }

  lemma {:induction false} SumsAreChainTotal(l: Ledger, known: Blocks, path: seq<Hash>, k: Key)
    requires Holds(l, known)
    requires forall h :: h in path ==> h in known
    ensures ChainTotal(known, path, k)
         == SumBlocks(l.txs, path, FeeChanges, k) + SumBlocks(l.rewards, path, RewardChanges, k)
            + SumBlocks(l.stxEvents, path, StxChanges, k) + SumBlocks(l.ftEvents, path, FtChanges, k)
    ensures ChainTxCount(known, path) == CountBlocks(l.txs, path)
  {
    if path != [] {
      var h := path[|path| - 1];
      SumsAreChainTotal(l, known, path[..|path| - 1], k);
      assert Contains(l, known[h]);
      TxsOfLength(known[h].txs);
    }
  }

  /** The table balances and the tx count are functions of the canonical blocks alone. */
  lemma TracksChainTotal(l: Ledger, b: BalanceTable, known: Blocks, path: seq<Hash>, k: Key)
    requires NoRepeats(path) && Tracks(l, b, known, SetOf(path))
    requires forall h :: h in path ==> h in known
    ensures BalanceOf(b, k) == ChainTotal(known, path, k)
    ensures CountCanonical(l.txs) == ChainTxCount(known, path)
  {
    TracksSynced(l, b, known, SetOf(path));
    assert BalanceOf(b, k) == LedgerTotal(l, k);
    GroupByBlock(l.txs, path, FeeChanges, k);
    GroupByBlock(l.rewards, path, RewardChanges, k);
    GroupByBlock(l.stxEvents, path, StxChanges, k);
    GroupByBlock(l.ftEvents, path, FtChanges, k);
    SumsAreChainTotal(l, known, path, k);
  }
}
