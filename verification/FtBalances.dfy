/**
 The ft_balances table, updated in place: by the balance maps of new blocks, and by the grouped
 changes of re-flagged rows.
 */
module FtBalanceTables {
  import opened Types
  import opened Balances
  import opened Tables
  import opened Ledger

  /** balanceMap.set(key, (balanceMap.get(key) ?? 0) + amount) */
  function AddTo(m: BalanceTable, k: Key, amount: int): BalanceTable {
    m[k := BalanceOf(m, k) + amount]
  }

  lemma AddsChange(cs: seq<Change>, c: Change)
    ensures AddTo(Grouped(cs), c.key, c.amount) == Grouped(cs + [c])
  {
    GroupedAppend(cs, c);
  }

  method AddParty(m: BalanceTable, party: Option<Address>, t: Token, amount: int, ghost cs: seq<Change>)
    returns (r: BalanceTable)
    requires m == Grouped(cs)
    ensures r == Grouped(cs + if party.Some? then [Change(Key(party.value, t), amount)] else [])
  {
    r := m;
    if party.Some? {
      r := AddTo(m, Key(party.value, t), amount);
      AddsChange(cs, Change(Key(party.value, t), amount));
    } else {
      assert cs + [] == cs;
    }
  }

  /** Decrease the sender, increase the recipient, whichever are present. */
  method AddParties(m: BalanceTable, e: StxEvent, t: Token, ghost cs: seq<Change>) returns (r: BalanceTable)
    requires m == Grouped(cs)
    ensures r == Grouped(cs + PartyChanges(e, t))
  {
    r := AddParty(m, e.sender, t, 0 - e.amount, cs);
    r := AddParty(r, e.recipient, t, e.amount, cs + Debit(e.sender, t, e.amount));
    assert (cs + Debit(e.sender, t, e.amount)) + Credit(e.recipient, t, e.amount) == cs + PartyChanges(e, t);
  }

  lemma ChangesStep<T>(cs: seq<Change>, data: seq<T>, i: nat, effect: T -> seq<Change>)
    requires i < |data|
    ensures (cs + ChangesOf(data[..i], effect)) + effect(data[i]) == cs + ChangesOf(data[..i + 1], effect)
  {
    assert data[..i + 1][..i] == data[..i];
  }

  /** The sponsor pays the fee of a sponsored transaction, the sender any other. */
  method AddFee(m: BalanceTable, tx: Tx, ghost cs: seq<Change>) returns (r: BalanceTable)
    requires m == Grouped(cs)
    ensures r == Grouped(cs + FeeChanges(tx))
  {
    if tx.sponsor.Some? {
      r := AddTo(m, Key(tx.sponsor.value, Stx), 0 - tx.fee);
    } else {
      r := AddTo(m, Key(tx.sender, Stx), 0 - tx.fee);
    }
    AddsChange(cs, FeeChanges(tx)[0]);
  }

  /** The fee of one transaction, then its events. */
  method AddStxEntry(m: BalanceTable, entry: TxEntry, ghost cs: seq<Change>) returns (r: BalanceTable)
    requires m == Grouped(cs)
    ensures r == Grouped(cs + EntryStxChanges(entry))
  {
    var events := entry.stxEvents;
    ghost var base := cs + FeeChanges(entry.tx);
    r := AddFee(m, entry.tx, cs);
    assert base + ChangesOf(events[..0], StxPartyChanges) == base;
    for j := 0 to |events|
      invariant r == Grouped(base + ChangesOf(events[..j], StxPartyChanges))
    {
      r := AddParties(r, events[j], Stx, base + ChangesOf(events[..j], StxPartyChanges));
      ChangesStep(base, events, j, StxPartyChanges);
    }
    assert events[..|events|] == events;
    assert base + ChangesOf(events, StxPartyChanges) ==
      cs + (FeeChanges(entry.tx) + ChangesOf(events, StxPartyChanges));
  }

  method AddFtEntry(m: BalanceTable, entry: TxEntry, ghost cs: seq<Change>) returns (r: BalanceTable)
    requires m == Grouped(cs)
    ensures r == Grouped(cs + EntryFtChanges(entry))
  {
    r := m;
    var events := entry.ftEvents;
    assert cs + ChangesOf(events[..0], FtPartyChanges) == cs;
    for j := 0 to |events|
      invariant r == Grouped(cs + ChangesOf(events[..j], FtPartyChanges))
    {
      r := AddParties(r, events[j].transfer, Ft(events[j].asset), cs + ChangesOf(events[..j], FtPartyChanges));
      ChangesStep(cs, events, j, FtPartyChanges);
    }
    assert events[..|events|] == events;
  }

  method TakeBatch(m: BalanceTable) returns (batch: set<Key>)
    requires m != map[]
    ensures batch <= m.Keys && 0 < |batch| <= INSERT_BATCH_SIZE
    ensures |m - batch| < |m|
  {
    batch := {};
    var todo := m.Keys;
    while todo != {} && |batch| < INSERT_BATCH_SIZE
      invariant batch + todo == m.Keys && batch !! todo
      invariant |batch| <= INSERT_BATCH_SIZE
      invariant batch == {} ==> todo == m.Keys
    {
      var k :| k in todo;
      batch, todo := batch + {k}, todo - {k};
    }
    assert m.Keys != {};
    assert (m - batch).Keys == m.Keys - batch;
  }

  lemma UpsertSplit(b: BalanceTable, m: BalanceTable, batch: set<Key>)
    requires batch <= m.Keys
    ensures Upsert(Upsert(b, map k | k in batch :: m[k]), m - batch) == Upsert(b, m)
  {
  }

  class FtBalanceTable {
    var rows: BalanceTable

    constructor ()
      ensures rows == map[]
    {
      rows := map[];
    }

    /** The upsert that ends a re-flagging statement. */
    method Apply(changes: seq<Change>)
      modifies this
      ensures rows == Upsert(old(rows), Grouped(changes))
    {
      rows := Upsert(rows, Grouped(changes));
    }

    /** updateStxBalances: one map over fees, events and rewards, upserted in batches. */
    method UpdateStxBalances(entries: seq<TxEntry>, rewards: seq<Reward>)
      modifies this
      ensures rows == Upsert(old(rows), Grouped(StxUpdateChanges(entries, rewards)))
    {
      var balanceMap: BalanceTable := map[];
      assert balanceMap == Grouped([]);
      for i := 0 to |entries|
        invariant balanceMap == Grouped([] + ChangesOf(entries[..i], EntryStxChanges))
        invariant rows == old(rows)
      {
        balanceMap := AddStxEntry(balanceMap, entries[i], [] + ChangesOf(entries[..i], EntryStxChanges));
        ChangesStep([], entries, i, EntryStxChanges);
      }
      assert entries[..|entries|] == entries;
      ghost var fees := ChangesOf(entries, EntryStxChanges);
      assert [] + fees == fees && fees + ChangesOf(rewards[..0], RewardChanges) == fees;
      for i := 0 to |rewards|
        invariant balanceMap == Grouped(fees + ChangesOf(rewards[..i], RewardChanges))
        invariant rows == old(rows)
      {
        AddsChange(fees + ChangesOf(rewards[..i], RewardChanges), RewardChanges(rewards[i])[0]);
        balanceMap := AddTo(balanceMap, Key(rewards[i].recipient, Stx), rewards[i].Amount());
        ChangesStep(fees, rewards, i, RewardChanges);
      }
      assert rewards[..|rewards|] == rewards;
      UpsertInBatches(balanceMap);
    }

    /** updateFtBalances */
    method UpdateFtBalances(entries: seq<TxEntry>)
      modifies this
      ensures rows == Upsert(old(rows), Grouped(FtUpdateChanges(entries)))
    {
      var balanceMap: BalanceTable := map[];
      assert balanceMap == Grouped([]);
      for i := 0 to |entries|
        invariant balanceMap == Grouped([] + ChangesOf(entries[..i], EntryFtChanges))
        invariant rows == old(rows)
      {
        balanceMap := AddFtEntry(balanceMap, entries[i], [] + ChangesOf(entries[..i], EntryFtChanges));
        ChangesStep([], entries, i, EntryFtChanges);
      }
      assert entries[..|entries|] == entries;
      assert [] + ChangesOf(entries, EntryFtChanges) == FtUpdateChanges(entries);
      UpsertInBatches(balanceMap);
    }

    /** batchIterate over the map's rows: every batch upserts at most 500 distinct keys. */
    method UpsertInBatches(values: BalanceTable)
      modifies this
      ensures rows == Upsert(old(rows), values)
    {
      var rest := values;
      ghost var goal := Upsert(rows, values);
      while rest != map[]
        invariant Upsert(rows, rest) == goal
        decreases |rest|
      {
        var batch := TakeBatch(rest);
        UpsertSplit(rows, rest, batch);
        rows := Upsert(rows, map k | k in batch :: rest[k]);
        rest := rest - batch;
      }
      assert Upsert(rows, map[]) == rows;
      assert goal == Upsert(old(rows), values);
    }
  }
}
