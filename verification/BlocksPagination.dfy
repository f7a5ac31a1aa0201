/**
 Cursor pagination of blocks: the query's common table expressions over the canonical blocks, and what a
 client sees that follows the cursors.
 */
module BlocksPagination {
  import opened Types
  import opened Chain
  import opened Ledger
  import opened ReOrg
  import opened BlockUpdates

  datatype Page = Page(results: seq<BlockHeader>, prevCursor: Option<Hash>, nextCursor: Option<Hash>,
                       currentCursor: Option<Hash>)

  /** Ordered by descending height: one row per height and hash. */
  ghost predicate StrictlyDescending(rows: seq<BlockHeader>) {
    forall i, j :: 0 <= i < j < |rows| ==> rows[j].height < rows[i].height && rows[i].hash != rows[j].hash
  }

  /** The order of the rows a query ranges over, folded. */
  ghost predicate Descending(rows: seq<BlockHeader>) {
    forall k :: Opened(k, [rows]) ==> StrictlyDescending(rows)
  }

  lemma DescendingStrictly(rows: seq<BlockHeader>)
    ensures Descending(rows) <==> StrictlyDescending(rows)
  {
    assert Opened(0, [rows]);
  }

  // ---- The query ---------------------------------------------------------------------------------

  function Take<T>(s: seq<T>, limit: nat): seq<T> {
    if |s| <= limit then s else s[..limit]
  }

  /** OFFSET n LIMIT 1 */
  function Nth<T>(s: seq<T>, n: nat): Option<T> {
    if n < |s| then Some(s[n]) else None
  }

  /** WHERE block_height <= h */
  function AtMost(rows: seq<BlockHeader>, h: nat): seq<BlockHeader> {
    if rows == [] then []
    else AtMost(rows[..|rows| - 1], h) + if rows[|rows| - 1].height <= h then [rows[|rows| - 1]] else []
  }

  /** WHERE block_height < h */
  function Below(rows: seq<BlockHeader>, h: nat): seq<BlockHeader> {
    if h == 0 then [] else AtMost(rows, h - 1)
  }

  /** WHERE block_height > h ORDER BY block_height ASC */
  function AboveAscending(rows: seq<BlockHeader>, h: nat): seq<BlockHeader> {
    if rows == [] then []
    else (if rows[|rows| - 1].height > h then [rows[|rows| - 1]] else []) + AboveAscending(rows[..|rows| - 1], h)
  }

  function Position(rows: seq<BlockHeader>, cursor: Hash): (r: Option<nat>)
    ensures r.Some? ==> r.value < |rows| && rows[r.value].hash == cursor
    ensures r.None? ==> forall i :: 0 <= i < |rows| ==> rows[i].hash != cursor
  {
    if rows == [] then None
    else if rows[|rows| - 1].hash == cursor then Some(|rows| - 1) else Position(rows[..|rows| - 1], cursor)
  }

  /** LEAD(block_height, offset) at the row of the cursor; null without such a row. */
  function CursorHeight(rows: seq<BlockHeader>, cursor: Hash, offset: nat): Option<nat> {
    var p := Position(rows, cursor);
    if p.None? then None
    else
      var lead := Nth(rows, p.value + offset);
      if lead.Some? then Some(lead.value.height) else None
  }

  function HashOf(row: Option<BlockHeader>): Option<Hash> {
    if row.Some? then Some(row.value.hash) else None
  }

  /** getBlocks: the cursors are read from the first row and are null on an empty page. */
  function GetBlocks(rows: seq<BlockHeader>, limit: nat, offset: nat, cursor: Hash): Page
    requires limit >= 1
  {
    var top := CursorHeight(rows, cursor, offset);
    var selected := if top.Some? then Take(AtMost(rows, top.value), limit) else [];
    if selected == [] then Page([], None, None, None)
    else
      var h := selected[0].height;
      Page(selected, HashOf(Nth(Below(rows, h), limit - 1)), HashOf(Nth(AboveAscending(rows, h), limit - 1)),
           Some(selected[0].hash))
  }

  // ---- What it selects ---------------------------------------------------------------------------

  /** Rows before position i are above h, the others are not. */
  ghost predicate CutAt(rows: seq<BlockHeader>, h: int, i: nat) {
    && i <= |rows|
    && (forall k :: 0 <= k < i ==> rows[k].height > h)
    && (forall k :: i <= k < |rows| ==> rows[k].height <= h)
  }

  lemma CutAtRow(rows: seq<BlockHeader>, i: nat)
    requires Descending(rows) && i < |rows|
    ensures CutAt(rows, rows[i].height, i) && CutAt(rows, rows[i].height - 1, i + 1)
  {
    DescendingStrictly(rows);
  }

  lemma {:induction false} AtMostIsSuffix(rows: seq<BlockHeader>, h: nat, i: nat)
    requires CutAt(rows, h, i)
    ensures AtMost(rows, h) == rows[i..]
  {
    if rows != [] {
      var init := rows[..|rows| - 1];
      if i == |rows| {
        AtMostIsSuffix(init, h, i - 1);
      } else {
        AtMostIsSuffix(init, h, i);
        assert rows[i..] == init[i..] + [rows[|rows| - 1]];
      }
    }
  }

  lemma {:induction false} AboveFromBehind(rows: seq<BlockHeader>, h: nat, i: nat, n: nat)
    requires CutAt(rows, h, i)
    ensures Nth(AboveAscending(rows, h), n) == if n < i then Some(rows[i - 1 - n]) else None
  {
    if rows != [] {
      var init := rows[..|rows| - 1];
      if i < |rows| {
        AboveFromBehind(init, h, i, n);
      } else {
        assert CutAt(init, h, i - 1);
        if n > 0 {
          AboveFromBehind(init, h, i - 1, n - 1);
        } else {
          AboveFromBehind(init, h, i - 1, 0);
        }
      }
    }
  }

  lemma PositionIs(rows: seq<BlockHeader>, i: nat)
    requires Descending(rows) && i < |rows|
    ensures Position(rows, rows[i].hash) == Some(i)
  {
    DescendingStrictly(rows);
  }

  /** The rows `limit` steps below and above a row. */
  lemma CursorsAt(rows: seq<BlockHeader>, limit: nat, i: nat)
    requires Descending(rows) && limit >= 1 && i < |rows|
    ensures Nth(Below(rows, rows[i].height), limit - 1)
         == if i + limit < |rows| then Some(rows[i + limit]) else None
    ensures Nth(AboveAscending(rows, rows[i].height), limit - 1) == if limit <= i then Some(rows[i - limit]) else None
  {
    CutAtRow(rows, i);
    AboveFromBehind(rows, rows[i].height, i, limit - 1);
    BelowAt(rows, limit, i);
  }

  lemma BelowAt(rows: seq<BlockHeader>, limit: nat, i: nat)
    requires Descending(rows) && limit >= 1 && i < |rows|
    ensures Nth(Below(rows, rows[i].height), limit - 1)
         == if i + limit < |rows| then Some(rows[i + limit]) else None
  {
    var h := rows[i].height;
    CutAtRow(rows, i);
    if h > 0 {
      AtMostIsSuffix(rows, h - 1, i + 1);
    }
  }

  lemma SelectedAt(rows: seq<BlockHeader>, limit: nat, i: nat)
    requires Descending(rows) && limit >= 1 && i < |rows|
    ensures var selected := Take(AtMost(rows, rows[i].height), limit);
      selected == Take(rows[i..], limit) && selected != [] && selected[0] == rows[i]
  {
    CutAtRow(rows, i);
    AtMostIsSuffix(rows, rows[i].height, i);
  }

  /** Where a page starts that is `offset` rows below its cursor. */
  function PageFrom(rows: seq<BlockHeader>, limit: nat, from: nat): Page {
    if from >= |rows| then Page([], None, None, None)
    else
      Page(Take(rows[from..], limit),
           if from + limit < |rows| then Some(rows[from + limit].hash) else None,
           if limit <= from then Some(rows[from - limit].hash) else None,
           Some(rows[from].hash))
  }

  /**
   A page starts `offset` rows below its cursor and holds the next `limit` rows; its cursors point `limit`
   rows further down and up, and are null where there is no such row.
   */
  lemma PageAt(rows: seq<BlockHeader>, limit: nat, offset: nat, i: nat)
    requires Descending(rows) && limit >= 1 && i < |rows|
    ensures GetBlocks(rows, limit, offset, rows[i].hash) == PageFrom(rows, limit, i + offset)
  {
    PositionIs(rows, i);
    var from := i + offset;
    if from < |rows| {
      SelectedAt(rows, limit, from);
      CursorsAt(rows, limit, from);
      assert CursorHeight(rows, rows[i].hash, offset) == Some(rows[from].height);
    }
  }

  /** An unknown cursor gives an empty page. */
  lemma UnknownCursor(rows: seq<BlockHeader>, limit: nat, offset: nat, cursor: Hash)
    requires limit >= 1 && forall i :: 0 <= i < |rows| ==> rows[i].hash != cursor
    ensures GetBlocks(rows, limit, offset, cursor) == Page([], None, None, None)
  {
  }

  // ---- Following the cursors ---------------------------------------------------------------------

  /** What up to n requests to a server return, each following the prev_cursor of the one before. */
  function Follow(server: Hash -> Page, cursor: Option<Hash>, n: nat): seq<BlockHeader>
    decreases n
  {
    if n == 0 || cursor.None? then []
    else server(cursor.value).results + Follow(server, server(cursor.value).prevCursor, n - 1)
  }

  /** The server answers without offset. */
  function Server(rows: seq<BlockHeader>, limit: nat): Hash -> Page
    requires limit >= 1
  {
    (cursor: Hash) => GetBlocks(rows, limit, 0, cursor)
  }

  ghost predicate ServesAt(server: Hash -> Page, rows: seq<BlockHeader>, limit: nat, i: nat)
    requires i < |rows|
  {
    server(rows[i].hash) == PageFrom(rows, limit, i)
  }

  // The trigger keeps the verifier from walking along the cursors by itself.
  ghost predicate Serves(server: Hash -> Page, rows: seq<BlockHeader>, limit: nat) {
    forall i {:trigger ServesAt(server, rows, limit, i)} :: 0 <= i < |rows| ==> ServesAt(server, rows, limit, i)
  }

  lemma ServerServes(rows: seq<BlockHeader>, limit: nat)
    requires Descending(rows) && limit >= 1
    ensures Serves(Server(rows, limit), rows, limit)
  {
    forall i | 0 <= i < |rows|
      ensures ServesAt(Server(rows, limit), rows, limit, i)
    {
      PageAt(rows, limit, 0, i);
    }
  }

  lemma TakeThenRest(rows: seq<BlockHeader>, limit: nat, i: nat)
    requires i + limit < |rows|
    ensures Take(rows[i..], limit) + rows[i + limit..] == rows[i..]
  {
    assert rows[i..][..limit] == rows[i..i + limit];
  }

  /** Nothing is skipped and nothing comes twice; |rows| requests are enough for any limit. */
  lemma {:induction false} FollowVisitsAll(server: Hash -> Page, rows: seq<BlockHeader>, limit: nat, i: nat, n: nat)
    requires Serves(server, rows, limit) && limit >= 1 && i < |rows| && |rows| - i <= n
    ensures Follow(server, Some(rows[i].hash), n) == rows[i..]
    decreases n
  {
    assert ServesAt(server, rows, limit, i);
    if i + limit < |rows| {
      FollowVisitsAll(server, rows, limit, i + limit, n - 1);
      TakeThenRest(rows, limit, i);
    }
  }

  /** The next cursor of the page a prev cursor leads to is the cursor that was left. */
  lemma NextUndoesPrev(rows: seq<BlockHeader>, limit: nat, i: nat)
    requires Descending(rows) && limit >= 1 && i < |rows|
    ensures var page := Server(rows, limit)(rows[i].hash);
      page.prevCursor.Some? ==> Server(rows, limit)(page.prevCursor.value).nextCursor == Some(rows[i].hash)
  {
    ServerServes(rows, limit);
    ServedBack(Server(rows, limit), rows, limit, i);
  }

  lemma ServedBack(server: Hash -> Page, rows: seq<BlockHeader>, limit: nat, i: nat)
    requires Serves(server, rows, limit) && limit >= 1 && i < |rows|
    ensures var page := server(rows[i].hash);
      page.prevCursor.Some? ==> server(page.prevCursor.value).nextCursor == Some(rows[i].hash)
  {
    assert ServesAt(server, rows, limit, i);
    if i + limit < |rows| {
      assert ServesAt(server, rows, limit, i + limit);
    }
  }

  // ---- On the canonical chain --------------------------------------------------------------------

  /** From the tip, the default cursor, a client sees every canonical block once, from the tip down. */
  lemma FollowsCanonicalChain(c: Chain, limit: nat)
    requires Good(c) && c.tip.Some? && limit >= 1
    ensures var rows := Reverse(CanonicalHeaders(c));
      && Descending(rows) && rows != [] && rows[0].hash == c.tip.value
      && Follow(Server(rows, limit), c.tip, |rows|) == rows
  {
    CanonicalDescends(c);
    var rows := Reverse(CanonicalHeaders(c));
    ServerServes(rows, limit);
    FollowVisitsAll(Server(rows, limit), rows, limit, 0, |rows|);
    assert rows[0..] == rows;
  }

  lemma CanonicalDescends(c: Chain)
    requires Good(c) && c.tip.Some?
    ensures var rows := Reverse(CanonicalHeaders(c));
      Descending(rows) && rows != [] && rows[0].hash == c.tip.value
  {
    CanonicalLaws(c);
    PathLaws(c.known, c.tip.value);
    var rows := Reverse(CanonicalHeaders(c));
    forall i | 0 <= i < |rows|
      ensures rows[i].height == |rows| - i && rows[i].hash in c.known && c.known[rows[i].hash].info.height == |rows| - i
    {
    }
    DescendingStrictly(rows);
  }

  /** b is the header of a canonical row. */
  predicate IsCanonicalRow(blocks: BlockTable, b: BlockHeader) {
    && b.hash in blocks && blocks[b.hash].canonical
    && b.height == blocks[b.hash].info.height && b.time == blocks[b.hash].info.time
  }

  lemma CanonicalRow(t: ChainTables, c: Chain, i: nat)
    requires Aligned(t, c) && i < |CanonicalHeaders(c)|
    ensures IsCanonicalRow(t.blocks, CanonicalHeaders(c)[i])
  {
    CanonicalLaws(c);
    AlignedBlocks(t, c);
    assert Describes(CanonicalHeaders(c)[i], c.known, Canonical(c)[i]);
  }

  lemma CanonicalRowAt(t: ChainTables, c: Chain, b: BlockHeader) returns (i: nat)
    requires Aligned(t, c) && IsCanonicalRow(t.blocks, b)
    ensures i < |CanonicalHeaders(c)| && CanonicalHeaders(c)[i] == b
  {
    CanonicalLaws(c);
    AlignedBlocks(t, c);
    i :| 0 <= i < |Canonical(c)| && Canonical(c)[i] == b.hash;
    assert Describes(CanonicalHeaders(c)[i], c.known, b.hash);
  }

  /** Those are the rows of the query: the canonical rows of the blocks table, as the writer leaves it. */
  lemma RowsAreCanonicalBlocks(t: ChainTables, c: Chain)
    requires Aligned(t, c) && c.tip.Some?
    ensures var rows := Reverse(CanonicalHeaders(c));
      Descending(rows) && forall b: BlockHeader :: b in rows <==> IsCanonicalRow(t.blocks, b)
  {
    CanonicalDescends(c);
    var headers := CanonicalHeaders(c);
    var rows := Reverse(headers);
    forall b: BlockHeader
      ensures b in rows <==> IsCanonicalRow(t.blocks, b)
    {
      if i :| 0 <= i < |rows| && rows[i] == b {
        CanonicalRow(t, c, |rows| - 1 - i);
      }
      if IsCanonicalRow(t.blocks, b) {
        var i := CanonicalRowAt(t, c, b);
        assert rows[|rows| - 1 - i] == b;
      }
    }
  }
}
