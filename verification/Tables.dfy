/**
 Per-block tables: rows tagged with the block they belong to and a canonical flag, and what the
 statement UPDATE ... SET canonical = c WHERE index_block_hash = h AND canonical != c does to them.
 */
module Tables {
  import opened Types
  import opened Balances

  datatype Row<+T> = Row(indexBlockHash: Hash, blockHeight: nat, canonical: bool, data: T)

  /** The update: rows of block h get the flag, all others keep theirs. */
  function Mark<T>(rows: seq<Row<T>>, h: Hash, c: bool): seq<Row<T>> {
    if rows == [] then []
    else
      var last := rows[|rows| - 1];
      Mark(rows[..|rows| - 1], h, c) + [if last.indexBlockHash == h then last.(canonical := c) else last]
  }

  /** The rows RETURNING gives: those of block h whose flag changes. */
  function Flipped<T>(rows: seq<Row<T>>, h: Hash, c: bool): seq<T> {
    if rows == [] then []
    else
      var last := rows[|rows| - 1];
      Flipped(rows[..|rows| - 1], h, c)
      + (if last.indexBlockHash == h && last.canonical != c then [last.data] else [])
  }

  /** The content of block h in a table, in insertion order. */
  function DataOf<T>(rows: seq<Row<T>>, h: Hash): seq<T> {
    if rows == [] then []
    else
      var last := rows[|rows| - 1];
      DataOf(rows[..|rows| - 1], h) + (if last.indexBlockHash == h then [last.data] else [])
  }

  /** Rows built from the content of one block, ready for INSERT. */
  function RowsFor<T>(h: Hash, height: nat, c: bool, data: seq<T>): (r: seq<Row<T>>)
    ensures |r| == |data|
    ensures forall i :: 0 <= i < |r| ==> r[i] == Row(h, height, c, data[i])
  {
    if data == [] then []
    else RowsFor(h, height, c, data[..|data| - 1]) + [Row(h, height, c, data[|data| - 1])]
  }

  function CountCanonical<T>(rows: seq<Row<T>>): nat {
    if rows == [] then 0
    else CountCanonical(rows[..|rows| - 1]) + (if rows[|rows| - 1].canonical then 1 else 0)
  }

  /** The balance changes of the canonical rows. */
  function CanonicalChanges<T>(rows: seq<Row<T>>, effect: T -> seq<Change>): seq<Change> {
    if rows == [] then []
    else
      var last := rows[|rows| - 1];
      CanonicalChanges(rows[..|rows| - 1], effect) + (if last.canonical then effect(last.data) else [])
  }

  function ChangesOf<T>(data: seq<T>, effect: T -> seq<Change>): seq<Change> {
    if data == [] then []
    else ChangesOf(data[..|data| - 1], effect) + effect(data[|data| - 1])
  }

  /** CASE WHEN canonical THEN amount ELSE -amount END, over the rows that flipped. */
  function Signed(c: bool, cs: seq<Change>): (r: seq<Change>)
    ensures |r| == |cs|
    ensures forall i :: 0 <= i < |r| ==> r[i] == Change(cs[i].key, if c then cs[i].amount else 0 - cs[i].amount)
  {
    seq(|cs|, i requires 0 <= i < |cs| => Change(cs[i].key, if c then cs[i].amount else 0 - cs[i].amount))
  }

  lemma {:induction false} SignedTotal(c: bool, cs: seq<Change>, k: Key)
    ensures Total(Signed(c, cs), k) == if c then Total(cs, k) else -Total(cs, k)
  {
    if cs != [] {
      assert Signed(c, cs)[..|cs| - 1] == Signed(c, cs[..|cs| - 1]);
      SignedTotal(c, cs[..|cs| - 1], k);
    }
  }

  lemma {:induction false} ChangesAppend<T>(a: seq<T>, b: seq<T>, effect: T -> seq<Change>)
    ensures ChangesOf(a + b, effect) == ChangesOf(a, effect) + ChangesOf(b, effect)
  {
    if b == [] {
      assert a + b == a;
    } else {
      assert (a + b)[..|a + b| - 1] == a + b[..|b| - 1];
      ChangesAppend(a, b[..|b| - 1], effect);
    }
  }

  // ---- Laws of the update ----------------------------------------------------------------------

  lemma {:induction false} MarkAt<T>(rows: seq<Row<T>>, h: Hash, c: bool)
    ensures |Mark(rows, h, c)| == |rows|
    ensures forall i :: 0 <= i < |rows| ==>
      Mark(rows, h, c)[i] == if rows[i].indexBlockHash == h then rows[i].(canonical := c) else rows[i]
  {
    if rows != [] {
      MarkAt(rows[..|rows| - 1], h, c);
    }
  }

  lemma {:induction false} MarkKeepsData<T>(rows: seq<Row<T>>, h: Hash, c: bool, x: Hash)
    ensures DataOf(Mark(rows, h, c), x) == DataOf(rows, x)
  {
    if rows != [] {
      MarkKeepsData(rows[..|rows| - 1], h, c, x);
      assert Mark(rows, h, c)[..|Mark(rows, h, c)| - 1] == Mark(rows[..|rows| - 1], h, c);
    }
  }

  /** Re-flagging a block moves every balance sum by the signed changes of the rows that flipped. */
  lemma {:induction false} MarkTotal<T>(rows: seq<Row<T>>, h: Hash, c: bool, effect: T -> seq<Change>, k: Key)
    ensures Total(CanonicalChanges(Mark(rows, h, c), effect), k)
         == Total(CanonicalChanges(rows, effect), k) + Total(Signed(c, ChangesOf(Flipped(rows, h, c), effect)), k)
  {
    if rows != [] {
      var init, last := rows[..|rows| - 1], rows[|rows| - 1];
      MarkTotal(init, h, c, effect, k);
      var m := Mark(rows, h, c);
      assert m[..|m| - 1] == Mark(init, h, c);
      TotalAppend(CanonicalChanges(init, effect), if last.canonical then effect(last.data) else [], k);
      TotalAppend(CanonicalChanges(Mark(init, h, c), effect),
                  if m[|m| - 1].canonical then effect(last.data) else [], k);
      var f := Flipped(init, h, c);
      SignedTotal(c, ChangesOf(f, effect), k);
      SignedTotal(c, ChangesOf(Flipped(rows, h, c), effect), k);
      if last.indexBlockHash == h && last.canonical != c {
        assert Flipped(rows, h, c)[..|f|] == f;
        TotalAppend(ChangesOf(f, effect), effect(last.data), k);
      } else {
        assert Flipped(rows, h, c) == f;
      }
    }
  }

  lemma {:induction false} MarkCount<T>(rows: seq<Row<T>>, h: Hash, c: bool)
    ensures CountCanonical(Mark(rows, h, c))
         == CountCanonical(rows) + if c then |Flipped(rows, h, c)| else -|Flipped(rows, h, c)|
  {
    if rows != [] {
      MarkCount(rows[..|rows| - 1], h, c);
      var m := Mark(rows, h, c);
      assert m[..|m| - 1] == Mark(rows[..|rows| - 1], h, c);
    }
  }

  lemma {:induction false} AppendLaws<T>(rows: seq<Row<T>>, more: seq<Row<T>>, effect: T -> seq<Change>, x: Hash)
    ensures CountCanonical(rows + more) == CountCanonical(rows) + CountCanonical(more)
    ensures CanonicalChanges(rows + more, effect) == CanonicalChanges(rows, effect) + CanonicalChanges(more, effect)
    ensures DataOf(rows + more, x) == DataOf(rows, x) + DataOf(more, x)
  {
    if more == [] {
      assert rows + more == rows;
    } else {
      assert (rows + more)[..|rows + more| - 1] == rows + more[..|more| - 1];
      AppendLaws(rows, more[..|more| - 1], effect, x);
    }
  }

  lemma {:induction false} RowsForLaws<T>(h: Hash, height: nat, c: bool, data: seq<T>, effect: T -> seq<Change>,
                                          x: Hash)
    ensures CountCanonical(RowsFor(h, height, c, data)) == if c then |data| else 0
    ensures CanonicalChanges(RowsFor(h, height, c, data), effect) == if c then ChangesOf(data, effect) else []
    ensures DataOf(RowsFor(h, height, c, data), x) == if x == h then data else []
  {
    if data != [] {
      var init, last := data[..|data| - 1], data[|data| - 1];
      RowsForLaws(h, height, c, init, effect, x);
      AppendLaws(RowsFor(h, height, c, init), [Row(h, height, c, last)], effect, x);
      var single := [Row(h, height, c, last)];
      assert single[..0] == [] && data == init + [last];
      assert CanonicalChanges(single, effect) == if c then effect(last) else [];
      assert DataOf(single, x) == if x == h then [last] else [];
      assert CountCanonical(single) == if c then 1 else 0;
    }
  }

  // ---- Agreement with a set of canonical blocks ------------------------------------------------

  /** Every row belongs to a delivered block, carries its height, and is canonical iff its block is in s. */
  ghost predicate Agrees<T>(rows: seq<Row<T>>, known: map<Hash, BlockData>, s: set<Hash>) {
    forall i :: 0 <= i < |rows| ==>
      && rows[i].indexBlockHash in known
      && rows[i].blockHeight == known[rows[i].indexBlockHash].info.height
      && (rows[i].canonical <==> rows[i].indexBlockHash in s)
  }

  lemma MarkAgrees<T>(rows: seq<Row<T>>, known: map<Hash, BlockData>, s: set<Hash>, h: Hash, c: bool)
    requires Agrees(rows, known, s)
    ensures Agrees(Mark(rows, h, c), known, if c then s + {h} else s - {h})
  {
    MarkAt(rows, h, c);
  }

  /** In an agreeing table either all rows of a block flip or none do. */
  lemma {:induction false} FlippedIsBlock<T>(rows: seq<Row<T>>, known: map<Hash, BlockData>, s: set<Hash>, h: Hash,
                                             c: bool)
    requires Agrees(rows, known, s)
    ensures Flipped(rows, h, c) == if (h in s) != c then DataOf(rows, h) else []
  {
    if rows != [] {
      FlippedIsBlock(rows[..|rows| - 1], known, s, h, c);
    }
  }

  lemma {:induction false} DataOfUnknown<T>(rows: seq<Row<T>>, h: Hash)
    requires forall i :: 0 <= i < |rows| ==> rows[i].indexBlockHash != h
    ensures DataOf(rows, h) == []
  {
    if rows != [] {
      DataOfUnknown(rows[..|rows| - 1], h);
    }
  }

  // ---- The flag-only tables ----------------------------------------------------------------------

  const FLAG_TABLES := [StxLockEvents, NftEvents, Pox2Events, Pox3Events, Pox4Events,
                        ContractLogs, SmartContracts, PoxSets, PoxCycles]

  /** UPDATE t SET canonical = c WHERE index_block_hash = h, for each of the given tables. */
  function MarkTables(rows: seq<Row<Flagged>>, ts: seq<FlagTable>, h: Hash, c: bool): seq<Row<Flagged>> {
    if rows == [] then []
    else
      var last := rows[|rows| - 1];
      MarkTables(rows[..|rows| - 1], ts, h, c)
      + [if last.indexBlockHash == h && last.data.table in ts then last.(canonical := c) else last]
  }

  lemma {:induction false} MarkOneMore(rows: seq<Row<Flagged>>, ts: seq<FlagTable>, t: FlagTable, h: Hash, c: bool)
    ensures MarkTables(MarkTables(rows, ts, h, c), [t], h, c) == MarkTables(rows, ts + [t], h, c)
  {
    if rows != [] {
      MarkOneMore(rows[..|rows| - 1], ts, t, h, c);
      var m := MarkTables(rows, ts, h, c);
      assert m[..|m| - 1] == MarkTables(rows[..|rows| - 1], ts, h, c);
    }
  }

  lemma {:induction false} MarkNoTables(rows: seq<Row<Flagged>>, h: Hash, c: bool)
    ensures MarkTables(rows, [], h, c) == rows
  {
    if rows != [] {
      MarkNoTables(rows[..|rows| - 1], h, c);
    }
  }

  lemma AllTables(t: FlagTable)
    ensures t in FLAG_TABLES
  {
    assert FLAG_TABLES[0] == StxLockEvents && FLAG_TABLES[1] == NftEvents && FLAG_TABLES[2] == Pox2Events;
    assert FLAG_TABLES[3] == Pox3Events && FLAG_TABLES[4] == Pox4Events && FLAG_TABLES[5] == ContractLogs;
    assert FLAG_TABLES[6] == SmartContracts && FLAG_TABLES[7] == PoxSets && FLAG_TABLES[8] == PoxCycles;
  }

  /** The nine updates together re-flag every row of the block. */
  lemma {:induction false} MarkEveryTable(rows: seq<Row<Flagged>>, h: Hash, c: bool)
    ensures MarkTables(rows, FLAG_TABLES, h, c) == Mark(rows, h, c)
  {
    if rows != [] {
      MarkEveryTable(rows[..|rows| - 1], h, c);
      AllTables(rows[|rows| - 1].data.table);
    }
  }
}
