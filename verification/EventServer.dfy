/**
 The event server's queue: node messages of all kinds, one at a time, each handled by the writer. What it
 commits is a run, so everything proved of runs holds of the database it leaves.
 */
module EventServers {
  import opened Types
  import opened Tables
  import opened Chain
  import opened Mempool
  import opened MempoolTables
  import opened Ledger
  import opened ReOrg
  import opened BlockUpdates
  import opened MempoolReOrgs
  import opened PoolUpdates
  import opened Runs
  import opened WriteStores

  datatype NodeMessage =
    | BlockMessage(block: BlockData, now: int)
    | MempoolMessage(incoming: seq<MempoolTx>)
    | DropMessage(status: DropStatus, ids: seq<TxId>, newTx: Option<TxId>)

  /** The blocks among the messages, in order. */
  function BlocksIn(q: seq<NodeMessage>): seq<BlockData> {
    if q == [] then []
    else
      var last := q[|q| - 1];
      BlocksIn(q[..|q| - 1]) + if last.BlockMessage? then [last.block] else []
  }

  lemma BlocksNext(q: seq<NodeMessage>, i: nat)
    requires i < |q|
    ensures q[i].BlockMessage? ==> BlocksIn(q[..i + 1]) == BlocksIn(q[..i]) + [q[i].block]
    ensures !q[i].BlockMessage? ==> BlocksIn(q[..i + 1]) == BlocksIn(q[..i])
  {
    assert q[..i + 1][..i] == q[..i];
  }

  /** Those that were committed. */
  function CommittedIn(q: seq<NodeMessage>, done: seq<bool>): seq<BlockData>
    requires |done| == |q|
  {
    if q == [] then []
    else
      var n := |q| - 1;
      CommittedIn(q[..n], done[..n]) + if q[n].BlockMessage? && done[n] then [q[n].block] else []
  }

  lemma {:induction false} CommittedMembers(q: seq<NodeMessage>, done: seq<bool>)
    requires |done| == |q|
    ensures forall d :: d in CommittedIn(q, done) ==> d in BlocksIn(q)
    ensures Genuine(BlocksIn(q)) ==> Genuine(CommittedIn(q, done))
  {
    if q != [] {
      CommittedMembers(q[..|q| - 1], done[..|q| - 1]);
    }
  }

  lemma CommittedNext(q: seq<NodeMessage>, i: nat, done: seq<bool>, ok: bool)
    requires i < |q| && |done| == i
    ensures q[..i + 1][..i] == q[..i] && (done + [ok])[..i] == done
    ensures q[i].BlockMessage? && ok ==>
      CommittedIn(q[..i + 1], done + [ok]) == CommittedIn(q[..i], done) + [q[i].block]
    ensures !(q[i].BlockMessage? && ok) ==> CommittedIn(q[..i + 1], done + [ok]) == CommittedIn(q[..i], done)
  {
    assert q[..i + 1][..i] == q[..i];
    assert (done + [ok])[..i] == done;
  }

  lemma {:induction false} BlocksPrefix(q: seq<NodeMessage>, i: nat)
    requires i <= |q|
    ensures forall d :: d in BlocksIn(q[..i]) ==> d in BlocksIn(q)
    decreases |q|
  {
    if i < |q| {
      BlocksPrefix(q[..|q| - 1], i);
      assert q[..|q| - 1][..i] == q[..i];
    } else {
      assert q[..i] == q;
    }
  }

  lemma PrefixGenuine(q: seq<NodeMessage>, i: nat, done: seq<bool>, d: BlockData)
    requires i < |q| && q[i].BlockMessage? && q[i].block == d
    requires Genuine(BlocksIn(q)) && |done| == i
    ensures Genuine(CommittedIn(q[..i], done) + [d])
  {
    BlocksPrefix(q, i);
    BlocksPrefix(q, i + 1);
    BlocksNext(q, i);
    CommittedMembers(q[..i], done);
    assert d in BlocksIn(q[..i + 1]);
  }

  // ---- What the messages may do ------------------------------------------------------------------

  datatype State = State(tables: ChainTables, chain: Chain, pool: Pool)

  const EMPTY_STATE := State(NO_TABLES, GENESIS, map[])

  /** One message: it commits, or it changes nothing, and then the reason is one of the two known ones. */
  ghost predicate Answered(m: NodeMessage, a: State, b: State, ok: bool) {
    match m
    case BlockMessage(d, now) =>
      if ok then
        && Accepts(a.chain, d) && (a.chain.tip.Some? ==> a.chain.tip.value in a.chain.known)
        && b.tables == Updated(a.tables, d) && b.chain == Deliver(a.chain, d)
        && PoolMoves(a.tables, a.pool, b.pool, d, now)
      else b == a && (!Accepts(a.chain, d) || UpdateMayFail(a.tables, a.pool, d, now))
    case MempoolMessage(incoming) =>
      if ok then
        && b.tables == a.tables && b.chain == a.chain
        && Arrives(a.pool, incoming, a.tables.ledger.txs, a.tables.tip.blockHeight, b.pool)
      else b == a && MayFail(a.pool, incoming, a.tables.ledger.txs, a.tables.tip.blockHeight)
    case DropMessage(status, ids, newTx) =>
      ok && b == a.(pool := DropRows(a.pool, SetOf(ids), status, newTx))
  }

  /** The same, folded. */
  ghost predicate Steps(m: NodeMessage, a: State, b: State, ok: bool) {
    forall k :: Opened(k, [a, b]) ==> Answered(m, a, b, ok)
  }

  lemma StepsAnswered(m: NodeMessage, a: State, b: State, ok: bool)
    ensures Steps(m, a, b, ok) <==> Answered(m, a, b, ok)
  {
    assert Opened(0, [a, b]);
  }

  /** The states that the messages of q lead through from an empty database; done tells which committed. */
  ghost predicate IsTrace(q: seq<NodeMessage>, done: seq<bool>, trace: seq<State>) {
    && |done| == |q| && |trace| == |q| + 1 && trace[0] == EMPTY_STATE
    && forall i :: 0 <= i < |q| ==> Steps(q[i], trace[i], trace[i + 1], done[i])
  }

  lemma TraceNext(q: seq<NodeMessage>, i: nat, done: seq<bool>, trace: seq<State>, ok: bool, b: State)
    requires i < |q| && IsTrace(q[..i], done, trace) && Steps(q[i], trace[i], b, ok)
    ensures IsTrace(q[..i + 1], done + [ok], trace + [b])
  {
    forall k | 0 <= k < i + 1
      ensures Steps(q[..i + 1][k], (trace + [b])[k], (trace + [b])[k + 1], (done + [ok])[k])
    {
      assert k < i ==> q[..i + 1][k] == q[..i][k];
    }
  }

  /** What a consumer of the queue holds after the messages, starting empty. */
  function ConsumeAll(messages: seq<Message>): Option<seq<BlockHeader>> {
    if messages ==
      [] then Some([]) else NextView(ConsumeAll(messages[..|messages| - 1]), Some(messages[|messages| - 1]))
  }

  /**
   The tables and the chain are those of a run of committed blocks, each of which found its parent, and
   the messages sent are those of the run.
   */
  ghost predicate InRun(t: ChainTables, c: Chain, s: seq<BlockData>, sent: seq<Message>) {
    && t == RunTables(s) && c == Run(s)
    && Genuine(s) && ParentFirst(s)
    && ConsumeAll(sent) == View(s)
  }

  lemma AcceptedFollows(s: seq<BlockData>, d: BlockData)
    requires Genuine(s + [d]) && KnownFrom(Run(s), s) && Accepts(Run(s), d)
    ensures MayFollow(s, d)
  {
    assert d in s + [d] && forall e :: e in s ==> e in s + [d];
  }

  /** One more committed block makes the run one longer. */
  lemma CommitsNext(t: ChainTables, c: Chain, s: seq<BlockData>, sent: seq<Message>, d: BlockData)
    requires InRun(t, c, s, sent) && Genuine(s + [d]) && Accepts(c, d)
    ensures InRun(Updated(t, d), Deliver(c, d), s + [d],
                  sent + if Announced(t, d).Some? then [Announced(t, d).value] else [])
  {
    RunAligned(s);
    AcceptedFollows(s, d);
    assert (s + [d])[..|s + [d]| - 1] == s;
    if Announced(t, d).Some? {
      var m := Announced(t, d).value;
      assert (sent + [m])[..|sent + [m]| - 1] == sent;
    } else {
      assert sent + [] == sent;
    }
  }

  lemma InRunFits(c: Chain, s: seq<BlockData>, d: BlockData)
    requires Genuine(s + [d]) && c == Run(s)
    ensures Fits(c, d) && ValidData(d)
  {
    assert forall e :: e in s ==> e in s + [d];
    assert d in s + [d];
    RunAligned(s);
  }

  /** The consumer of a run holds the canonical chain of the writer. */
  lemma InRunConsumed(t: ChainTables, c: Chain, s: seq<BlockData>, sent: seq<Message>)
    requires InRun(t, c, s, sent)
    ensures Aligned(t, c) && Good(c) && ConsumeAll(sent) == Some(CanonicalHeaders(c))
  {
    RunAligned(s);
    ConsumerFollows(s);
  }

  /**
   Two writers that committed the same blocks, in different orders and with repetitions, hold the same tables
   exactly when they committed the same tallest block first; whatever else they refused or rolled back.
   */
  lemma WritersConverge(t: ChainTables, c: Chain, s: seq<BlockData>, sent: seq<Message>, i: int,
                        u: ChainTables, e: Chain, r: seq<BlockData>, sent': seq<Message>, j: int)
    requires InRun(t, c, s, sent) && InRun(u, e, r, sent')
    requires forall d :: d in s <==> d in r
    requires FirstTallest(s, i) && FirstTallest(r, j)
    ensures SameTables(t, u) <==> s[i] == r[j]
    ensures s[i] == r[j] ==> ConsumeAll(sent) == ConsumeAll(sent')
  {
    TablesConverge(s, i, r, j);
    RunsConverge(s, i, r, j);
    InRunConsumed(t, c, s, sent);
    InRunConsumed(u, e, r, sent');
  }

  // ---- When every accepted block commits ---------------------------------------------------------

  predicate PlainMessage(m: NodeMessage) {
    match m
    case BlockMessage(d, _) => forall tx :: tx in TxsOf(d.txs) ==> PaysAlone(tx.sender, tx.sponsor)
    case MempoolMessage(incoming) => forall v :: v in incoming ==> PaysAlone(v.sender, v.sponsor)
    case DropMessage(_, _, _) => true
  }

  /** No transaction of the messages is paid by another than its sender. */
  ghost predicate PlainMessages(q: seq<NodeMessage>) {
    forall m :: m in q ==> PlainMessage(m)
  }

  /** The state in which nothing can fail. */
  ghost predicate PlainState(pool: Pool, txs: seq<Row<Tx>>) {
    PlainPool(pool) && PlainTxs(txs)
  }

  /** The tables and the chain are those of all delivered blocks, the refused ones included. */
  ghost predicate AllTaken(t: ChainTables, c: Chain, r: seq<BlockData>) {
    t == RunTables(r) && c == Run(r)
  }

  lemma TakesNext(t: ChainTables, c: Chain, r: seq<BlockData>, d: BlockData)
    requires AllTaken(t, c, r)
    ensures AllTaken(Updated(t, d), Deliver(c, d), r + [d])
  {
    assert (r + [d])[..|r + [d]| - 1] == r;
  }

  lemma RefusedNext(t: ChainTables, c: Chain, r: seq<BlockData>, d: BlockData)
    requires AllTaken(t, c, r) && Aligned(t, c) && !Accepts(c, d)
    ensures AllTaken(t, c, r + [d])
  {
    SameParents(t, c, d);
    TakesNext(t, c, r, d);
  }

  // ---- The queue ---------------------------------------------------------------------------------

  ghost function StateOf(store: WriteStore): State
    reads store, store.ftBalances, store.mempool
  {
    State(store.Content(), store.chain, store.mempool.rows)
  }

  /** A committed block whose re-org put transactions back. Folded. */
  ghost predicate PutBack(m: NodeMessage, a: State, ok: bool) {
    forall k :: Opened(k, [a]) ==> m.BlockMessage? && ok && OrphansTxs(a.tables, m.block.info)
  }

  lemma PutBackOpens(m: NodeMessage, a: State, ok: bool)
    ensures PutBack(m, a, ok) <==> m.BlockMessage? && ok && OrphansTxs(a.tables, m.block.info)
  {
    assert Opened(0, [a]);
  }

  /** One block message; without other payers every accepted block commits. */
  method HandleBlock(store: WriteStore, d: BlockData, now: int) returns (ok: bool, message: Option<Message>)
    requires store.Valid() && Fits(store.chain, d) && ValidData(d)
    modifies store, store.ftBalances, store.mempool
    ensures store.Valid()
    ensures Steps(BlockMessage(d, now), old(StateOf(store)), StateOf(store), ok)
    ensures ok ==> Accepts(old(store.chain), d)
    ensures ok ==> store.chain == Deliver(old(store.chain), d) && store.Content() == Updated(old(store.Content()), d)
    ensures message == if ok then Announced(old(store.Content()), d) else None
    ensures !ok ==> store.chain == old(store.chain) && store.Content() == old(store.Content())
    ensures store.everMined == old(store.everMined) + if ok then Mined(store.ledger.txs) else {}
    ensures store.restored == (old(store.restored) || PutBack(BlockMessage(d, now), old(StateOf(store)), ok))
    ensures PlainState(old(store.mempool.rows), old(store.ledger.txs)) && PlainMessage(BlockMessage(d, now)) ==>
      PlainState(store.mempool.rows, store.ledger.txs) && (ok <==> Accepts(old(store.chain), d))
  {
    ghost var t, pool, before := store.Content(), store.mempool.rows, StateOf(store);
    SealedReady(t, store.chain, pool, store.mempool.txCount, store.everMined, store.restored, d);
    var outcome := store.Update(d, now);
    ok := outcome.Committed?;
    message := if ok then outcome.message else None;
    assert !ok && Accepts(before.chain, d) ==> outcome.error == SubqueryFailed;
    StepsAnswered(BlockMessage(d, now), before, StateOf(store), ok);
    PutBackOpens(BlockMessage(d, now), before, ok);
    if PlainState(pool, t.ledger.txs) && PlainMessage(BlockMessage(d, now)) {
      PlainUpdates(t, pool, d, now);
    }
  }

  lemma ArrivalSteps(incoming: seq<MempoolTx>, a: State, b: State, ok: bool)
    requires b.tables == a.tables && b.chain == a.chain
    requires ok ==> Arrives(a.pool, incoming, a.tables.ledger.txs, a.tables.tip.blockHeight, b.pool)
    requires !ok ==> b.pool == a.pool && MayFail(a.pool, incoming, a.tables.ledger.txs, a.tables.tip.blockHeight)
    ensures Steps(MempoolMessage(incoming), a, b, ok)
    ensures PlainState(a.pool, a.tables.ledger.txs) && PlainMessage(MempoolMessage(incoming)) ==>
      PlainState(b.pool, b.tables.ledger.txs)
  {
    StepsAnswered(MempoolMessage(incoming), a, b, ok);
    if PlainPool(a.pool) && PlainMessage(MempoolMessage(incoming)) {
      ArrivesPlain(a.pool, incoming, a.tables.ledger.txs, a.tables.tip.blockHeight);
    }
  }

  lemma DropSteps(status: DropStatus, ids: seq<TxId>, newTx: Option<TxId>, a: State, b: State)
    requires b == a.(pool := DropRows(a.pool, SetOf(ids), status, newTx))
    ensures Steps(DropMessage(status, ids, newTx), a, b, true)
    ensures PlainState(a.pool, a.tables.ledger.txs) ==> PlainState(b.pool, b.tables.ledger.txs)
  {
    StepsAnswered(DropMessage(status, ids, newTx), a, b, true);
  }

  /** A message that concerns the mempool alone. */
  method HandleMempool(store: WriteStore, m: NodeMessage) returns (ok: bool)
    requires store.Valid() && !m.BlockMessage?
    modifies store.mempool
    ensures store.Valid()
    ensures Steps(m, old(StateOf(store)), StateOf(store), ok)
    ensures PlainState(old(store.mempool.rows), old(store.ledger.txs)) && PlainMessage(m) ==>
      PlainState(store.mempool.rows, store.ledger.txs)
  {
    ghost var before := StateOf(store);
    match m {
      case MempoolMessage(incoming) =>
        ok := store.UpdateMempoolTxs(incoming);
        ArrivalSteps(incoming, before, StateOf(store), ok);
      case DropMessage(status, ids, newTx) =>
        store.DropMempoolTxs(status, ids, newTx);
        ok := true;
        DropSteps(status, ids, newTx, before, StateOf(store));
    }
  }

  /** The first i messages are done. */
  ghost predicate Progressed(q: seq<NodeMessage>, i: nat, done: seq<bool>, sent: seq<Message>, trace: seq<State>,
                             b: State)
  {
    && i <= |q|
    && IsTrace(q[..i], done, trace) && b == trace[i]
    && InRun(b.tables, b.chain, CommittedIn(q[..i], done), sent)
    && (PlainMessages(q) ==> AllTaken(b.tables, b.chain, BlocksIn(q[..i])) && PlainState(b.pool, b.tables.ledger.txs))
  }

  /** The same, folded. */
  ghost predicate Progress(q: seq<NodeMessage>, i: nat, done: seq<bool>, sent: seq<Message>, trace: seq<State>,
                           b: State)
  {
    forall k :: Opened(k, [b]) ==> Progressed(q, i, done, sent, trace, b)
  }

  lemma ProgressOpens(q: seq<NodeMessage>, i: nat, done: seq<bool>, sent: seq<Message>, trace: seq<State>, b: State)
    ensures Progress(q, i, done, sent, trace, b) <==> Progressed(q, i, done, sent, trace, b)
  {
    assert Opened(0, [b]);
  }

  lemma ProgressStarts(q: seq<NodeMessage>)
    ensures Progress(q, 0, [], [], [EMPTY_STATE], EMPTY_STATE)
  {
    assert q[..0] == [];
  }

  lemma ProgressFits(q: seq<NodeMessage>, i: nat, done: seq<bool>, sent: seq<Message>, trace: seq<State>, a: State)
    requires Progress(q, i, done, sent, trace, a) && i < |q| && q[i].BlockMessage? && Genuine(BlocksIn(q))
    ensures Fits(a.chain, q[i].block) && ValidData(q[i].block)
  {
    ProgressOpens(q, i, done, sent, trace, a);
    PrefixGenuine(q, i, done, q[i].block);
    InRunFits(a.chain, CommittedIn(q[..i], done), q[i].block);
  }

  lemma ProgressPlain(q: seq<NodeMessage>, i: nat, done: seq<bool>, sent: seq<Message>, trace: seq<State>, a: State)
    requires Progress(q, i, done, sent, trace, a) && i < |q| && PlainMessages(q)
    ensures PlainState(a.pool, a.tables.ledger.txs) && PlainMessage(q[i])
  {
    ProgressOpens(q, i, done, sent, trace, a);
  }

  lemma CommitProgresses(q: seq<NodeMessage>, i: nat, done: seq<bool>, sent: seq<Message>, trace: seq<State>, a: State,
                         b: State, sent': seq<Message>)
    requires Progress(q, i, done, sent, trace, a) && i < |q| && q[i].BlockMessage? && Genuine(BlocksIn(q))
    requires Steps(q[i], a, b, true)
    requires PlainMessages(q) ==> PlainState(b.pool, b.tables.ledger.txs)
    requires sent' ==
      sent + if Announced(a.tables, q[i].block).Some? then [Announced(a.tables, q[i].block).value] else []
    ensures Progress(q, i + 1, done + [true], sent', trace + [b], b)
  {
    StepsAnswered(q[i], a, b, true);
    ProgressOpens(q, i, done, sent, trace, a);
    ProgressOpens(q, i + 1, done + [true], sent', trace + [b], b);
    var d, committed := q[i].block, CommittedIn(q[..i], done);
    BlocksNext(q, i);
    CommittedNext(q, i, done, true);
    TraceNext(q, i, done, trace, true, b);
    PrefixGenuine(q, i, done, d);
    CommitsNext(a.tables, a.chain, committed, sent, d);
    if PlainMessages(q) {
      TakesNext(a.tables, a.chain, BlocksIn(q[..i]), d);
    }
  }

  lemma RefusalProgresses(q: seq<NodeMessage>, i: nat, done: seq<bool>, sent: seq<Message>, trace: seq<State>, a: State)
    requires Progress(q, i, done, sent, trace, a) && i < |q| && q[i].BlockMessage?
    requires Steps(q[i], a, a, false)
    requires PlainMessages(q) ==> !Accepts(a.chain, q[i].block)
    ensures Progress(q, i + 1, done + [false], sent, trace + [a], a)
  {
    ProgressOpens(q, i, done, sent, trace, a);
    ProgressOpens(q, i + 1, done + [false], sent, trace + [a], a);
    BlocksNext(q, i);
    CommittedNext(q, i, done, false);
    TraceNext(q, i, done, trace, false, a);
    if PlainMessages(q) {
      InRunConsumed(a.tables, a.chain, CommittedIn(q[..i], done), sent);
      RefusedNext(a.tables, a.chain, BlocksIn(q[..i]), q[i].block);
    }
  }

  lemma ProgressBlock(q: seq<NodeMessage>, i: nat, done: seq<bool>, sent: seq<Message>, trace: seq<State>, a: State,
                      ok: bool, b: State, sent': seq<Message>)
    requires Progress(q, i, done, sent, trace, a) && i < |q| && q[i].BlockMessage? && Genuine(BlocksIn(q))
    requires Steps(q[i], a, b, ok)
    requires PlainMessages(q) ==> PlainState(b.pool, b.tables.ledger.txs) && (ok <==> Accepts(a.chain, q[i].block))
    requires sent' ==
      if ok && Announced(a.tables, q[i].block).Some? then sent + [Announced(a.tables, q[i].block).value] else sent
    ensures Progress(q, i + 1, done + [ok], sent', trace + [b], b)
  {
    StepsAnswered(q[i], a, b, ok);
    if ok {
      assert sent + [] == sent;
      CommitProgresses(q, i, done, sent, trace, a, b, sent');
    } else {
      RefusalProgresses(q, i, done, sent, trace, a);
    }
  }

  lemma ProgressOther(q: seq<NodeMessage>, i: nat, done: seq<bool>, sent: seq<Message>, trace: seq<State>, a: State,
                      ok: bool, b: State)
    requires Progress(q, i, done, sent, trace, a) && i < |q| && !q[i].BlockMessage?
    requires Steps(q[i], a, b, ok)
    requires PlainMessages(q) ==> PlainState(b.pool, b.tables.ledger.txs)
    ensures Progress(q, i + 1, done + [ok], sent, trace + [b], b)
  {
    ProgressOpens(q, i, done, sent, trace, a);
    ProgressOpens(q, i + 1, done + [ok], sent, trace + [b], b);
    StepsAnswered(q[i], a, b, ok);
    BlocksNext(q, i);
    CommittedNext(q, i, done, ok);
    TraceNext(q, i, done, trace, ok, b);
  }

  lemma ProgressEnds(q: seq<NodeMessage>, done: seq<bool>, sent: seq<Message>, trace: seq<State>, b: State)
    requires Progress(q, |q|, done, sent, trace, b)
    ensures IsTrace(q, done, trace) && b == trace[|q|]
    ensures InRun(b.tables, b.chain, CommittedIn(q, done), sent)
    ensures Good(b.chain) && ConsumeAll(sent) == Some(CanonicalHeaders(b.chain))
    ensures PlainMessages(q) ==> AllTaken(b.tables, b.chain, BlocksIn(q))
  {
    ProgressOpens(q, |q|, done, sent, trace, b);
    assert q[..|q|] == q;
    InRunConsumed(b.tables, b.chain, CommittedIn(q, done), sent);
  }

  // ---- What the mempool still promises -----------------------------------------------------------

  /** Some message of the first i did. */
  ghost predicate AnyPutBack(q: seq<NodeMessage>, i: nat, done: seq<bool>, trace: seq<State>) {
    exists k :: 0 <= k < i && k < |q| && k < |done| && k < |trace| && PutBack(q[k], trace[k], done[k])
  }

  /** What the store recorded of its run: all that was ever canonical, and whether transactions were put back. */
  ghost predicate Records(q: seq<NodeMessage>, i: nat, done: seq<bool>, trace: seq<State>, ever: set<TxId>,
                           restored: bool)
  {
    && |done| == i <= |q| && |trace| == i + 1
    && (forall k :: 0 <= k <= i ==> Mined(trace[k].tables.ledger.txs) <= ever)
    && (restored <==> AnyPutBack(q, i, done, trace))
  }

  /** The same, folded. */
  ghost predicate Recorded(q: seq<NodeMessage>, i: nat, done: seq<bool>, trace: seq<State>, ever: set<TxId>,
                           restored: bool)
  {
    forall k :: Opened(k, trace) ==> Records(q, i, done, trace, ever, restored)
  }

  lemma RecordedOpens(q: seq<NodeMessage>, i: nat, done: seq<bool>, trace: seq<State>, ever: set<TxId>, restored: bool)
    ensures Recorded(q, i, done, trace, ever, restored) <==> Records(q, i, done, trace, ever, restored)
  {
    assert Opened(0, trace);
  }

  lemma RecordedStarts(q: seq<NodeMessage>)
    ensures Recorded(q, 0, [], [EMPTY_STATE], {}, false)
  {
  }

  lemma RecordedNext(q: seq<NodeMessage>, i: nat, done: seq<bool>, trace: seq<State>, ever: set<TxId>, restored: bool,
                     a: State, ok: bool, b: State, ever': set<TxId>, restored': bool)
    requires Recorded(q, i, done, trace, ever, restored) && i < |q|
    requires ever <= ever' && Mined(b.tables.ledger.txs) <= ever'
    requires i < |trace| && trace[i] == a && restored' == (restored || PutBack(q[i], a, ok))
    ensures Recorded(q, i + 1, done + [ok], trace + [b], ever', restored')
  {
    var done', trace' := done + [ok], trace + [b];
    RecordedOpens(q, i, done, trace, ever, restored);
    RecordedOpens(q, i + 1, done', trace', ever', restored');
    assert forall k :: 0 <= k <= i ==> trace'[k] == trace[k];
    if AnyPutBack(q, i, done, trace) {
      var k :| 0 <= k < i && k < |q| && PutBack(q[k], trace[k], done[k]);
      assert PutBack(q[k], trace'[k], done'[k]);
    }
    if PutBack(q[i], trace[i], ok) {
      assert PutBack(q[i], trace'[i], done'[i]);
    }
    if AnyPutBack(q, i + 1, done', trace') {
      var k :| 0 <= k < i + 1 && k < |q| && PutBack(q[k], trace'[k], done'[k]);
      assert k < i ==> PutBack(q[k], trace[k], done[k]);
    }
  }

  /** Nothing that was ever mined is forgotten, and without a re-org that puts transactions back the pool is clean. */
  lemma RecordedPromises(q: seq<NodeMessage>, done: seq<bool>, trace: seq<State>, b: State, txCount: int,
                         ever: set<TxId>, restored: bool)
    requires Recorded(q, |q|, done, trace, ever, restored)
    requires Sealed(b.tables, b.chain, b.pool, txCount, ever, restored) && |trace| == |q| + 1
    ensures forall k :: 0 <= k <= |q| ==> Mined(trace[k].tables.ledger.txs) <= Mined(b.tables.ledger.txs) + b.pool.Keys
    ensures !AnyPutBack(q, |q|, done, trace) ==> Clean(b.pool, Mined(b.tables.ledger.txs))
  {
    RecordedOpens(q, |q|, done, trace, ever, restored);
    SealedSound(b.tables, b.chain, b.pool, txCount, ever, restored);
  }

  /** Any message. */
  method HandleMessage(store: WriteStore, m: NodeMessage) returns (ok: bool, message: Option<Message>)
    requires store.Valid() && (m.BlockMessage? ==> Fits(store.chain, m.block) && ValidData(m.block))
    modifies store, store.ftBalances, store.mempool
    ensures store.Valid()
    ensures Steps(m, old(StateOf(store)), StateOf(store), ok)
    ensures message == if m.BlockMessage? && ok then Announced(old(store.Content()), m.block) else None
    ensures old(store.everMined) <= store.everMined && Mined(store.ledger.txs) <= store.everMined
    ensures store.restored == (old(store.restored) || PutBack(m, old(StateOf(store)), ok))
    ensures PlainState(old(store.mempool.rows), old(store.ledger.txs)) && PlainMessage(m) ==>
      && PlainState(store.mempool.rows, store.ledger.txs)
      && (m.BlockMessage? ==> (ok <==> Accepts(old(store.chain), m.block)))
  {
    ghost var before := StateOf(store);
    message := None;
    if m.BlockMessage? {
      ok, message := HandleBlock(store, m.block, m.now);
    } else {
      ok := HandleMempool(store, m);
      PutBackOpens(m, before, ok);
    }
    ValidMined(store.Content(), store.chain, store.mempool.rows, store.mempool.txCount, store.everMined,
      store.restored);
  }

  lemma ValidMined(t: ChainTables, c: Chain, pool: Pool, txCount: int, ever: set<TxId>, restored: bool)
    requires Sealed(t, c, pool, txCount, ever, restored)
    ensures Mined(t.ledger.txs) <= ever
  {
    SealedSound(t, c, pool, txCount, ever, restored);
  }

  lemma ProgressNext(q: seq<NodeMessage>, i: nat, done: seq<bool>, sent: seq<Message>, trace: seq<State>, a: State,
                     ok: bool, b: State, message: Option<Message>)
    requires Progress(q, i, done, sent, trace, a) && i < |q| && Genuine(BlocksIn(q))
    requires Steps(q[i], a, b, ok)
    requires message == if q[i].BlockMessage? && ok then Announced(a.tables, q[i].block) else None
    requires PlainMessages(q) ==> PlainState(b.pool, b.tables.ledger.txs)
    requires PlainMessages(q) && q[i].BlockMessage? ==> (ok <==> Accepts(a.chain, q[i].block))
    ensures Progress(q, i + 1, done + [ok], if message.Some? then sent + [message.value] else sent, trace + [b], b)
  {
    if q[i].BlockMessage? {
      ProgressBlock(q, i, done, sent, trace, a, ok, b, if message.Some? then sent + [message.value] else sent);
    } else {
      ProgressOther(q, i, done, sent, trace, a, ok, b);
    }
  }

  /**
   The queue from an empty database: any messages in any order. Each commits or changes nothing, and fails
   only for a missing parent or where replace-by-fee may clash. The database ends with the tables and the
   chain of the committed blocks, and a consumer of what was sent holds the canonical chain. While every
   transaction is paid by its sender only blocks without a parent are refused: the tables are those of all
   delivered blocks. Every transaction that was canonical at any time is mined at the end or has a mempool row,
   and unless a re-org put transactions back no two pending ones share payer and nonce and none is mined.
   */
  method ProcessMessages(q: seq<NodeMessage>)
    returns (store: WriteStore, done: seq<bool>, sent: seq<Message>, ghost trace: seq<State>)
    requires Genuine(BlocksIn(q))
    ensures fresh(store) && fresh(store.ftBalances) && fresh(store.mempool) && store.Valid()
    ensures IsTrace(q, done, trace) && StateOf(store) == trace[|q|]
    ensures InRun(store.Content(), store.chain, CommittedIn(q, done), sent)
    ensures Good(store.chain) && ConsumeAll(sent) == Some(CanonicalHeaders(store.chain))
    ensures PlainMessages(q) ==> AllTaken(store.Content(), store.chain, BlocksIn(q))
    ensures Recorded(q, |q|, done, trace, store.everMined, store.restored)
    ensures forall k :: 0 <= k <= |q| ==>
      Mined(trace[k].tables.ledger.txs) <= Mined(store.ledger.txs) + store.mempool.rows.Keys
    ensures !AnyPutBack(q, |q|, done, trace) ==> Clean(store.mempool.rows, Mined(store.ledger.txs))
  {
    store := new WriteStore();
    done, sent, trace := [], [], [EMPTY_STATE];
    ProgressStarts(q);
    RecordedStarts(q);
    for i := 0 to |q|
      invariant fresh(store) && fresh(store.ftBalances) && fresh(store.mempool)
      invariant store.Valid()
      invariant Progress(q, i, done, sent, trace, StateOf(store))
      invariant Recorded(q, i, done, trace, store.everMined, store.restored)
      invariant |trace| == i + 1 && StateOf(store) == trace[i]
    {
      ghost var before, ever, restored := StateOf(store), store.everMined, store.restored;
      if PlainMessages(q) {
        ProgressPlain(q, i, done, sent, trace, before);
      }
      if q[i].BlockMessage? {
        ProgressFits(q, i, done, sent, trace, before);
      }
      var ok, message := HandleMessage(store, q[i]);
      ProgressNext(q, i, done, sent, trace, before, ok, StateOf(store), message);
      RecordedNext(q, i, done, trace, ever, restored, before, ok, StateOf(store), store.everMined, store.restored);
      sent := if message.Some? then sent + [message.value] else sent;
      done, trace := done + [ok], trace + [StateOf(store)];
    }
    ProgressEnds(q, done, sent, trace, StateOf(store));
    RecordedPromises(q, done, trace, StateOf(store), store.mempool.txCount, store.everMined, store.restored);
  }
}
