/**
 The current owner of every NFT, kept by upserts that only a later event may win.
 */
module NftCustody {
  import opened Types

  /** nft_custody is unique on (asset_identifier, value). */
  datatype NftKey = NftKey(asset: Asset, value: nat)

  datatype Custody = Custody(key: NftKey, recipient: Option<Address>, txId: TxId, blockHeight: nat,
                             microblockSequence: nat, txIndex: nat, eventIndex: nat)

  type CustodyTable = map<NftKey, Custody>

  /** The guard, written out as in the code and in the statement. */
  predicate Later(a: Custody, b: Custody) {
    || a.blockHeight > b.blockHeight
    || (a.blockHeight == b.blockHeight && a.microblockSequence > b.microblockSequence)
    || (a.blockHeight == b.blockHeight && a.microblockSequence == b.microblockSequence && a.txIndex > b.txIndex)
    || (a.blockHeight == b.blockHeight && a.microblockSequence == b.microblockSequence && a.txIndex == b.txIndex
        && a.eventIndex > b.eventIndex)
  }

  /** Where an event happened, from the block down to the event. */
  function PlaceOf(x: Custody): seq<nat> {
    [x.blockHeight, x.microblockSequence, x.txIndex, x.eventIndex]
  }

  /** a is smaller at the first position where the two differ. */
  predicate Precedes(a: seq<nat>, b: seq<nat>) {
    exists i :: 0 <= i < |a| && i < |b| && a[i] < b[i] && forall j :: 0 <= j < i ==> a[j] == b[j]
  }

  /** The guard compares places in that order. */
  lemma LaterIsPreceded(a: Custody, b: Custody)
    ensures Later(a, b) <==> Precedes(PlaceOf(b), PlaceOf(a))
  {
    var p, q := PlaceOf(a), PlaceOf(b);
    if Later(a, b) {
      var i := if q[0] != p[0] then 0 else if q[1] != p[1] then 1 else if q[2] != p[2] then 2 else 3;
      assert q[i] < p[i];
    }
    if i :| 0 <= i < 4 && q[i] < p[i] && forall j :: 0 <= j < i ==> q[j] == p[j] {
      assert 0 < i ==> q[0] == p[0];
      assert 1 < i ==> q[1] == p[1];
      assert 2 < i ==> q[2] == p[2];
    }
  }

  /** The place of an event in the chain. */
  predicate SamePlace(a: Custody, b: Custody) {
    && a.blockHeight == b.blockHeight && a.microblockSequence == b.microblockSequence
    && a.txIndex == b.txIndex && a.eventIndex == b.eventIndex
  }

  function Put(m: CustodyTable, x: Custody): CustodyTable {
    if x.key in m && !Later(x, m[x.key]) then m else m[x.key := x]
  }

  /** One event after the other. */
  function PutAll(m: CustodyTable, xs: seq<Custody>): CustodyTable {
    if xs == [] then m else Put(PutAll(m, xs[..|xs| - 1]), xs[|xs| - 1])
  }

  /** INSERT ... ON CONFLICT ON CONSTRAINT nft_custody_unique DO UPDATE ... WHERE the new row is later */
  function Upsert(m: CustodyTable, values: CustodyTable): CustodyTable {
    map k | k in m.Keys + values.Keys ::
      if k in values && (k !in m || Later(values[k], m[k])) then values[k] else m[k]
  }

  ghost predicate Keyed(m: CustodyTable) {
    forall k :: k in m ==> m[k].key == k
  }

  lemma PutThenUpsert(m: CustodyTable, v: CustodyTable, x: Custody)
    requires Keyed(m) && Keyed(v)
    ensures Upsert(m, Put(v, x)) == Put(Upsert(m, v), x)
  {
  }

  lemma {:induction false} PutAllKeyed(m: CustodyTable, xs: seq<Custody>)
    requires Keyed(m)
    ensures Keyed(PutAll(m, xs))
  {
    if xs != [] {
      PutAllKeyed(m, xs[..|xs| - 1]);
    }
  }

  /** Upserting the winners of a batch is putting its events one by one. */
  lemma {:induction false} BatchIsPutAll(m: CustodyTable, xs: seq<Custody>)
    requires Keyed(m)
    ensures Upsert(m, PutAll(map[], xs)) == PutAll(m, xs)
  {
    if xs == [] {
      assert Upsert(m, map[]) == m;
    } else {
      var init := xs[..|xs| - 1];
      BatchIsPutAll(m, init);
      PutAllKeyed(map[], init);
      PutThenUpsert(m, PutAll(map[], init), xs[|xs| - 1]);
    }
  }

  lemma {:induction false} PutAllAppend(m: CustodyTable, a: seq<Custody>, b: seq<Custody>)
    ensures PutAll(m, a + b) == PutAll(PutAll(m, a), b)
  {
    if b == [] {
      assert a + b == a;
    } else {
      assert (a + b)[..|a + b| - 1] == a + b[..|b| - 1];
      PutAllAppend(m, a, b[..|b| - 1]);
    }
  }

  // ---- What the table holds ----------------------------------------------------------------------

  /** Per NFT an event that happened to it, and none that happened later. */
  ghost predicate HoldsLatest(m: CustodyTable, xs: seq<Custody>) {
    && (forall x :: x in xs ==> x.key in m && !Later(x, m[x.key]))
    && (forall k :: k in m ==> m[k] in xs && m[k].key == k)
  }

  /** Said of places: per NFT an event that happened to it, and none at a place behind. */
  ghost predicate HoldsLast(m: CustodyTable, xs: seq<Custody>) {
    && (forall x :: x in xs ==> x.key in m && !Precedes(PlaceOf(m[x.key]), PlaceOf(x)))
    && (forall k :: k in m ==> m[k] in xs && m[k].key == k)
  }

  lemma LatestIsLast(m: CustodyTable, xs: seq<Custody>)
    ensures HoldsLatest(m, xs) <==> HoldsLast(m, xs)
  {
    forall x, y
      ensures Later(x, y) <==> Precedes(PlaceOf(y), PlaceOf(x))
    {
      LaterIsPreceded(x, y);
    }
  }

  /** Putting more events goes on holding the latest of all. */
  lemma {:induction false} PutAllHoldsLatest(m: CustodyTable, xs: seq<Custody>, ys: seq<Custody>)
    requires HoldsLatest(m, xs)
    ensures HoldsLatest(PutAll(m, ys), xs + ys)
  {
    if ys == [] {
      assert xs + ys == xs;
    } else {
      var init, last := ys[..|ys| - 1], ys[|ys| - 1];
      PutAllHoldsLatest(m, xs, init);
      assert xs + ys == (xs + init) + [last];
    }
  }

  lemma FromEmpty(xs: seq<Custody>)
    ensures HoldsLatest(PutAll(map[], xs), xs)
  {
    PutAllHoldsLatest(map[], [], xs);
    assert [] + xs == xs;
  }

  /** No two events of an NFT happen at the same place. */
  ghost predicate PlacesDiffer(xs: seq<Custody>) {
    forall a, b :: a in xs && b in xs && a.key == b.key && SamePlace(a, b) ==> a == b
  }

  /** Which events happened decides the table, if no two of an NFT happened at the same place. */
  lemma LatestIsUnique(m: CustodyTable, n: CustodyTable, xs: seq<Custody>, ys: seq<Custody>)
    requires HoldsLatest(m, xs) && HoldsLatest(n, ys)
    requires PlacesDiffer(xs) && forall x :: x in xs <==> x in ys
    ensures m == n
  {
    forall k | k in m
      ensures k in n && m[k] == n[k]
    {
      assert m[k] in ys;
      assert n[k] in xs;
      assert SamePlace(m[k], n[k]);
    }
    forall k | k in n
      ensures k in m
    {
      assert n[k] in xs;
    }
  }

  /** Whatever the order of the events and wherever the batches end, the table is the same. */
  lemma OrderIsIrrelevant(xs: seq<Custody>, ys: seq<Custody>)
    requires PlacesDiffer(xs) && forall x :: x in xs <==> x in ys
    ensures PutAll(map[], xs) == PutAll(map[], ys)
  {
    FromEmpty(xs);
    FromEmpty(ys);
    LatestIsUnique(PutAll(map[], xs), PutAll(map[], ys), xs, ys);
  }

  // ---- The queue of a block ----------------------------------------------------------------------

  /** A call of updateNftEvents in the write queue: a transaction's flag and its NFT events. */
  datatype QueuedTx = QueuedTx(canonical: bool, events: seq<Custody>)

  /** The canonical events of a queue. */
  function EventsIn(queue: seq<QueuedTx>): seq<Custody> {
    if queue == [] then []
    else
      var last := queue[|queue| - 1];
      EventsIn(queue[..|queue| - 1]) + if last.canonical then last.events else []
  }

  lemma {:induction false} EventsInMember(queue: seq<QueuedTx>, x: Custody)
    ensures x in EventsIn(queue) <==> exists i :: 0 <= i < |queue| && queue[i].canonical && x in queue[i].events
  {
    if queue != [] {
      var init := queue[..|queue| - 1];
      EventsInMember(init, x);
      if x in EventsIn(queue) && x !in EventsIn(init) {
        assert queue[|queue| - 1].canonical && x in queue[|queue| - 1].events;
      }
      if i :| 0 <= i < |queue| && queue[i].canonical && x in queue[i].events {
        assert i < |queue| - 1 ==> init[i] == queue[i];
      }
    }
  }

  /** The canonical events of all blocks. */
  function EventsOfAll(blocks: seq<seq<QueuedTx>>): seq<Custody> {
    if blocks == [] then [] else EventsOfAll(blocks[..|blocks| - 1]) + EventsIn(blocks[|blocks| - 1])
  }

  predicate IsQueued(queue: seq<QueuedTx>, i: nat) {
    i < |queue|
  }

  function Queued(queue: seq<QueuedTx>): set<nat> {
    set i: nat | i < |queue| && IsQueued(queue, i)
  }

  /** seen are the canonical events of the calls that are not left to do. */
  ghost predicate Seen(queue: seq<QueuedTx>, todo: set<nat>, seen: seq<Custody>) {
    forall x :: x in seen <==>
      exists i :: 0 <= i < |queue| && i !in todo && queue[i].canonical && x in queue[i].events
  }

  lemma SeenNext(queue: seq<QueuedTx>, todo: set<nat>, seen: seq<Custody>, i: nat)
    requires Seen(queue, todo, seen) && i in todo && i < |queue|
    ensures Seen(queue, todo - {i}, seen + if queue[i].canonical then queue[i].events else [])
  {
    var seen' := seen + if queue[i].canonical then queue[i].events else [];
    forall x
      ensures x in seen' <==>
        exists k :: 0 <= k < |queue| && k !in todo - {i} && queue[k].canonical && x in queue[k].events
    {
      if x in seen {
        var k :| 0 <= k < |queue| && k !in todo && queue[k].canonical && x in queue[k].events;
        assert k !in todo - {i};
      } else if x in seen' {
        assert i !in todo - {i} && queue[i].canonical && x in queue[i].events;
      }
    }
  }

  lemma SeenAll(queue: seq<QueuedTx>, m: CustodyTable, before: seq<Custody>, seen: seq<Custody>)
    requires Seen(queue, {}, seen) && HoldsLatest(m, before + seen)
    ensures HoldsLatest(m, before + EventsIn(queue))
  {
    forall x
      ensures x in seen <==> x in EventsIn(queue)
    {
      EventsInMember(queue, x);
    }
  }

  class NftCustodyTable {
    var rows: CustodyTable

    constructor ()
      ensures rows == map[]
    {
      rows := map[];
    }

    /** The map of one batch: at most one row per NFT, the latest. */
    static method Winners(batch: seq<Custody>) returns (custodyInsertsMap: CustodyTable)
      ensures custodyInsertsMap == PutAll(map[], batch)
    {
      custodyInsertsMap := map[];
      for i := 0 to |batch|
        invariant custodyInsertsMap == PutAll(map[], batch[..i])
      {
        var custodyItem := batch[i];
        if custodyItem.key in custodyInsertsMap {
          if Later(custodyItem, custodyInsertsMap[custodyItem.key]) {
            custodyInsertsMap := custodyInsertsMap[custodyItem.key := custodyItem];
          }
        } else {
          custodyInsertsMap := custodyInsertsMap[custodyItem.key := custodyItem];
        }
        assert batch[..i + 1][..i] == batch[..i];
      }
      assert batch[..|batch|] == batch;
    }

    /** updateNftEvents for the events of one transaction: only a canonical one changes custody. */
    method UpdateNftEvents(canonical: bool, events: seq<Custody>)
      requires Keyed(rows)
      modifies this
      ensures Keyed(rows)
      ensures rows == if canonical then PutAll(old(rows), events) else old(rows)
    {
      var i := 0;
      while i < |events|
        invariant 0 <= i <= |events| && Keyed(rows)
        invariant rows == if canonical then PutAll(old(rows), events[..i]) else old(rows)
      {
        var n := if |events| - i < INSERT_BATCH_SIZE then |events| else i + INSERT_BATCH_SIZE;
        var custodyInsertsMap := Winners(events[i..n]);
        if canonical {
          BatchIsPutAll(rows, events[i..n]);
          PutAllKeyed(rows, events[i..n]);
          PutAllAppend(old(rows), events[..i], events[i..n]);
          assert events[..n] == events[..i] + events[i..n];
          rows := Upsert(rows, custodyInsertsMap);
        }
        i := n;
      }
      assert events[..i] == events;
    }

    /** The write queue of one block: its transactions in any order. */
    method RunQueue(queue: seq<QueuedTx>, ghost before: seq<Custody>)
      requires HoldsLatest(rows, before)
      modifies this
      ensures HoldsLatest(rows, before + EventsIn(queue))
    {
      var todo := Queued(queue);
      ghost var seen := [];
      assert before + seen == before;
      while todo != {}
        invariant forall i :: i in todo ==> i < |queue|
        invariant Seen(queue, todo, seen)
        invariant HoldsLatest(rows, before + seen)
      {
        var i :| i in todo;
        ghost var was := rows;
        UpdateNftEvents(queue[i].canonical, queue[i].events);
        SeenNext(queue, todo, seen, i);
        if queue[i].canonical {
          PutAllHoldsLatest(was, before + seen, queue[i].events);
        }
        seen := seen + if queue[i].canonical then queue[i].events else [];
        todo := todo - {i};
      }
      SeenAll(queue, rows, before, seen);
    }

    /**
     Block after block: whatever order the queues run in, the table holds per NFT its latest canonical
     event, and so it does not depend on the order if no two events of an NFT happen at the same place.
     */
    method RunBlocks(blocks: seq<seq<QueuedTx>>)
      requires rows == map[]
      modifies this
      ensures HoldsLatest(rows, EventsOfAll(blocks)) && HoldsLast(rows, EventsOfAll(blocks))
      ensures PlacesDiffer(EventsOfAll(blocks)) ==> rows == PutAll(map[], EventsOfAll(blocks))
    {
      for n := 0 to |blocks|
        invariant HoldsLatest(rows, EventsOfAll(blocks[..n]))
      {
        assert blocks[..n + 1][..n] == blocks[..n];
        RunQueue(blocks[n], EventsOfAll(blocks[..n]));
      }
      assert blocks[..|blocks|] == blocks;
      LatestIsLast(rows, EventsOfAll(blocks));
      if PlacesDiffer(EventsOfAll(blocks)) {
        FromEmpty(EventsOfAll(blocks));
        LatestIsUnique(rows, PutAll(map[], EventsOfAll(blocks)), EventsOfAll(blocks), EventsOfAll(blocks));
      }
    }
  }
}
