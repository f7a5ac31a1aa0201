/**
 The running balance table. A change adds an amount to one (address, token); statements group their
 changes per key and upsert the groups into ft_balances. The reference is the recalculation
 migration, a plain sum over canonical rows.
 */
module Balances {
  import opened Types

  datatype Change = Change(key: Key, amount: int)

  type BalanceTable = map<Key, int>

  /** An absent row counts as zero. */
  function BalanceOf(b: BalanceTable, k: Key): int {
    if k in b then b[k] else 0
  }

  function Total(cs: seq<Change>, k: Key): int {
    if cs == [] then 0
    else Total(cs[..|cs| - 1], k) + (if cs[|cs| - 1].key == k then cs[|cs| - 1].amount else 0)
  }

  function KeysOf(cs: seq<Change>): set<Key> {
    set c | c in cs :: c.key
  }

  /** SELECT key, SUM(amount) ... GROUP BY key */
  function Grouped(cs: seq<Change>): BalanceTable {
    map k | k in KeysOf(cs) :: Total(cs, k)
  }

  /** INSERT ... ON CONFLICT (address, token) DO UPDATE SET balance = ft_balances.balance + EXCLUDED.balance */
  function Upsert(b: BalanceTable, values: BalanceTable): BalanceTable {
    map k | k in b.Keys + values.Keys :: BalanceOf(b, k) + BalanceOf(values, k)
  }

  lemma {:induction false} TotalAppend(a: seq<Change>, b: seq<Change>, k: Key)
    ensures Total(a + b, k) == Total(a, k) + Total(b, k)
  {
    if b == [] {
      assert a + b == a;
    } else {
      assert (a + b)[..|a + b| - 1] == a + b[..|b| - 1];
      TotalAppend(a, b[..|b| - 1], k);
    }
  }

  lemma {:induction false} TotalUntouched(cs: seq<Change>, k: Key)
    requires k !in KeysOf(cs)
    ensures Total(cs, k) == 0
  {
    if cs != [] {
      assert cs[|cs| - 1].key in KeysOf(cs);
      assert KeysOf(cs[..|cs| - 1]) <= KeysOf(cs);
      TotalUntouched(cs[..|cs| - 1], k);
    }
  }

  /** Upserting grouped changes moves every balance by exactly the total of its changes. */
  lemma UpsertGrouped(b: BalanceTable, cs: seq<Change>, k: Key)
    ensures BalanceOf(Upsert(b, Grouped(cs)), k) == BalanceOf(b, k) + Total(cs, k)
  {
    if k !in KeysOf(cs) {
      TotalUntouched(cs, k);
    }
  }

  lemma GroupedAppend(cs: seq<Change>, c: Change)
    ensures Grouped(cs + [c]) == Grouped(cs)[c.key := BalanceOf(Grouped(cs), c.key) + c.amount]
  {
    assert (cs + [c])[..|cs + [c]| - 1] == cs;
    assert KeysOf(cs + [c]) == KeysOf(cs) + {c.key} by {
      assert forall x :: x in cs + [c] <==> x in cs || x == c;
    }
    if c.key !in KeysOf(cs) {
      TotalUntouched(cs, c.key);
    }
  }

  // ---- What one row does to the balances -------------------------------------------------------

  /** The fee is paid by the sponsor of a sponsored transaction, by the sender otherwise. */
  function FeeChanges(tx: Tx): seq<Change> {
    [Change(Key(tx.Payer(), Stx), 0 - tx.fee)]
  }

  function RewardChanges(r: Reward): seq<Change> {
    [Change(Key(r.recipient, Stx), r.Amount())]
  }

  function Debit(party: Option<Address>, t: Token, amount: nat): seq<Change> {
    if party.Some? then [Change(Key(party.value, t), 0 - amount)] else []
  }

  function Credit(party: Option<Address>, t: Token, amount: nat): seq<Change> {
    if party.Some? then [Change(Key(party.value, t), amount)] else []
  }

  /** How new blocks are read: whichever party is present is debited or credited. */
  function PartyChanges(e: StxEvent, t: Token): seq<Change> {
    Debit(e.sender, t, e.amount) + Credit(e.recipient, t, e.amount)
  }

  /** How re-orgs and the migration read the same row: by the event type. */
  function TypedChanges(e: StxEvent, t: Token): seq<Change> {
    (if e.kind.Transfer? || e.kind.Burn? then Debit(e.sender, t, e.amount) else [])
    + (if e.kind.Transfer? || e.kind.Mint? then Credit(e.recipient, t, e.amount) else [])
  }

  function StxChanges(e: StxEvent): seq<Change> {
    TypedChanges(e, Stx)
  }

  function FtChanges(e: FtEvent): seq<Change> {
    TypedChanges(e.transfer, Ft(e.asset))
  }

  /** The two readings of an event agree when it has the parties of its type. */
  lemma ReadingsAgree(e: StxEvent, t: Token)
    requires WellFormed(e)
    ensures PartyChanges(e, t) == TypedChanges(e, t)
  {
  }
}
