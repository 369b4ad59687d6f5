/** The UsageWriter and the sending half of ProxyHandler as objects over Go slices and the
    store; their steps are the steps of the usage pipeline. */
module UsageWriterObject {
  import opened Prelude
  import opened Database
  import opened Integrity
  import opened Slices
  import opened SseStream
  import opened StoreObject
  import opened UsageLedger
  import opened UsagePipeline
  import opened Turns
  import LedgerRuns

  class Channel {
    const capacity: nat
    var queue: seq<UsageEntry>
    var closed: bool

    constructor (capacity: nat)
      ensures queue == [] && !closed && this.capacity == capacity
    {
      this.capacity, queue, closed := capacity, [], false;
    }
  }

  class ProxyHandler {
    const usageCh: Channel
    var droppedCount: nat

    constructor (ch: Channel)
      ensures usageCh == ch && droppedCount == 0
    {
      usageCh, droppedCount := ch, 0;
    }

    /** The select with a default branch: never blocks. */
    method SendUsage(gateId: Id, realId: Id, usage: UsageData, path: string, status: int)
      requires !usageCh.closed
      modifies this, usageCh
      ensures !usageCh.closed
      ensures var e := UsageEntry(gateId, realId, usage, path, status);
        if |old(usageCh.queue)| < usageCh.capacity
        then usageCh.queue == old(usageCh.queue) + [e] && droppedCount == old(droppedCount)
        else usageCh.queue == old(usageCh.queue) && droppedCount == old(droppedCount) + 1
    {
      if |usageCh.queue| < usageCh.capacity {
        usageCh.queue := usageCh.queue + [UsageEntry(gateId, realId, usage, path, status)];
      } else {
        droppedCount := droppedCount + 1;
      }
    }
  }

  lemma GroupSnoc(ls: seq<UsageLog>, l: UsageLog, c: Column)
    ensures var key, u := LogKey(c, l), Usage(l.input, l.output);
      var before := Group(ls, c);
      Group(ls + [l], c) == before[key := if key in before then Plus(before[key], u) else u]
  {
    KeysSnoc(ls, l, c);
    forall id
      ensures SumFor(ls + [l], c, id) == Plus(SumFor(ls, c, id), Portion(l, c, id))
      ensures id !in KeysIn(ls, c) ==> SumFor(ls, c, id) == Nothing()
    {
      SumForSnoc(ls, l, c, id);
      if id !in KeysIn(ls, c) {
        SumForAbsent(ls, c, id);
      }
    }
  }

  lemma SumForSnoc(ls: seq<UsageLog>, l: UsageLog, c: Column, id: Id)
    ensures SumFor(ls + [l], c, id) == Plus(SumFor(ls, c, id), Portion(l, c, id))
  {
    SumForAppend(ls, [l], c, id);
    SumForOne(l, c, id);
  }

  lemma KeysSnoc(ls: seq<UsageLog>, l: UsageLog, c: Column)
    ensures KeysIn(ls + [l], c) == KeysIn(ls, c) + {LogKey(c, l)}
  {
    var all := ls + [l];
    assert all[|ls|] == l;
    forall i | 0 <= i < |ls|
      ensures LogKey(c, ls[i]) in KeysIn(all, c)
    {
      assert all[i] == ls[i];
    }
  }

  lemma ToLogsAppend(a: seq<UsageEntry>, b: seq<UsageEntry>)
    ensures ToLogs(a + b) == ToLogs(a) + ToLogs(b)
  {
  }

  /** The entries of the stored rows, in id order. */
  function LogsIn(db: Database): seq<UsageLog> {
    LedgerRuns.Entries(db.logs)
  }

  /** The ledger, and a property that every step of it keeps. */
  datatype Books = Books(ledger: LedgerRuns.Ledger, keeps: LedgerRuns.Ledger -> bool)

  /** The store is where the ledger is, and the property holds. */
  ghost predicate Kept(b: Books, db: Database) {
    b.ledger.db == db && LedgerRuns.Stable(b.keeps) && b.keeps(b.ledger)
  }

  /** Nothing more has been left out of any total but the missed ones. */
  ghost predicate Spares(b: Books, b': Books, missed: set<LedgerRuns.Owed>) {
    forall k :: k !in missed ==>
      (k in b'.ledger.unpaid <==> k in b.ledger.unpaid) &&
      (k in b'.ledger.unpaid ==> b'.ledger.unpaid[k] == b.ledger.unpaid[k])
  }

  /** The same books, with some entries committed, some of the ids used and some updates missed. */
  ghost predicate Continues(b: Books, b': Books, more: seq<UsageLog>, now: Time, f: Faults) {
    && b'.keeps == b.keeps && b'.ledger.committed == b.ledger.committed + more
    && b'.ledger.written == b.ledger.written + LedgerRuns.NewRows(b.ledger.db, more, now)
    && Does(b.ledger, b'.ledger, f.others)
    && b'.ledger.used <= b.ledger.used + LedgerRuns.IdsOf(f.others)
    && Spares(b, b', MissedBy(f))
  }

  /** Between two turns nothing is due, and what the ledger has committed are the pipeline's
      committed batches, in order. */
  ghost predicate Booked(db: Database, b: Books, s: State) {
    Kept(b, db) && b.ledger.pending == map[] && b.ledger.committed == ToLogs(Stored(s.blocks))
  }

  /** The same property, no ids used but those of the operations, and no updates missed but these. */
  ghost predicate Same(b: Books, b': Books, ops: seq<Op>, missed: set<LedgerRuns.Owed>) {
    && b'.keeps == b.keeps && b'.ledger.used <= b.ledger.used + LedgerRuns.IdsOf(ops)
    && Does(b.ledger, b'.ledger, ops) && Spares(b, b', missed)
  }

  /** A flush of this batch, or of nothing: committed exactly when the insert succeeds. */
  ghost predicate FlushMoves(b: Books, b': Books, batch: seq<UsageEntry>, now: Time, f: Faults) {
    var db, logs := b.ledger.db, if InsertSucceeds(b.ledger.db, f, batch) then ToLogs(batch) else [];
    && Same(b, b', f.others, MissedBy(f))
    && b'.ledger.written == b.ledger.written + LedgerRuns.NewRows(db, logs, now)
    && LeavesOut(b.ledger, b'.ledger, LedgerRuns.Dues(logs), MissedBy(f))
    && (f.others == [] ==> b'.ledger.db == if logs != [] then Paid(WithLogs(db, logs, now), logs, f) else db)
  }

  /** Of the operations that others want to do, those in `left` are still to come. */
  ghost predicate Waits(b: Books, b': Books, others: seq<Op>, left: seq<Op>) {
    && b'.keeps == b.keeps && b'.ledger.committed == b.ledger.committed && b'.ledger.written == b.ledger.written
    && b'.ledger.done + left == b.ledger.done + others && |left| <= |others|
    && LedgerRuns.AdmitsAll(b'.ledger.used, left)
    && b'.ledger.used + LedgerRuns.IdsOf(left) <= b.ledger.used + LedgerRuns.IdsOf(others)
  }

  lemma NothingPaid(db: Database, c: Column, agg: map<Id, Usage>, failing: set<Id>)
    ensures AddAll(db, c, (agg - agg.Keys) - failing) == db && LedgerRuns.Keys(c, agg.Keys - agg.Keys) == {}
  {
    var none: map<Id, Usage> := map[];
    assert (agg - agg.Keys) - failing == none;
    var after := AddAll(db, c, none);
    assert after.gates == db.gates && after.reals == db.reals;
  }

  /** What one more update adds to those made so far. */
  lemma OneMorePaid(db: Database, pending: map<LedgerRuns.Owed, Usage>, c: Column, agg: map<Id, Usage>,
                    rest: set<Id>, failing: set<Id>, id: Id)
    requires id in rest && rest <= agg.Keys
    ensures var done := AddAll(db, c, (agg - rest) - failing);
      AddAll(db, c, (agg - (rest - {id})) - failing) == if id in failing then done else AddUsage(done, c, id, agg[id])
    ensures pending - LedgerRuns.Keys(c, agg.Keys - (rest - {id})) ==
      (pending - LedgerRuns.Keys(c, agg.Keys - rest)) - {LedgerRuns.Owed(c, id)}
    ensures LedgerRuns.Owed(c, id) !in LedgerRuns.Keys(c, agg.Keys - rest)
  {
    var done := (agg - rest) - failing;
    if id in failing {
      assert (agg - (rest - {id})) - failing == done;
    } else {
      assert (agg - (rest - {id})) - failing == done[id := agg[id]];
      AddAllSnoc(db, c, done, id, agg[id]);
    }
    assert agg.Keys - (rest - {id}) == (agg.Keys - rest) + {id};
    assert LedgerRuns.Keys(c, agg.Keys - (rest - {id})) ==
      LedgerRuns.Keys(c, agg.Keys - rest) + {LedgerRuns.Owed(c, id)};
  }

  lemma DoneInOrder(l: LedgerRuns.Ledger, l': LedgerRuns.Ledger, ops: seq<Op>, left: seq<Op>)
    requires l'.done + left == l.done + ops && |left| <= |ops|
    ensures Does(l, l', ops)
  {
    assert l'.done == (l.done + ops)[..|l'.done|];
  }

  lemma BothPaid(b: Books, mid: Books, b': Books, now: Time, f: Faults, between: seq<Op>, left: seq<Op>)
    requires Waits(b, mid, f.others, between) && Waits(mid, b', between, left)
    requires Spares(b, mid, LedgerRuns.Keys(GateTokenId, f.gates))
    requires Spares(mid, b', LedgerRuns.Keys(RealTokenId, f.reals))
    ensures Continues(b, b', [], now, f)
  {
    DoneInOrder(b.ledger, b'.ledger, f.others, left);
  }

  /** The same for some amounts of one column. */
  ghost predicate LeavesOutOf(b: Books, b': Books, col: Column, agg: map<Id, Usage>, failing: set<Id>) {
    forall c: Column, id: Id ::
      LedgerRuns.Due(b'.ledger.unpaid, c, id) ==
        var before := LedgerRuns.Due(b.ledger.unpaid, c, id);
        if c == col && id in failing && id in agg then Plus(before, agg[id]) else before
  }

  lemma OneMoreLeftOut(b: Books, mid: Books, b': Books, c: Column, agg: map<Id, Usage>, rest: set<Id>,
                       failing: set<Id>, id: Id)
    requires id in rest && rest <= agg.Keys
    requires LeavesOutOf(b, mid, c, agg - rest, failing)
    requires LeavesOutOf(mid, b', c, map[id := agg[id]], if id in failing then {id} else {})
    ensures LeavesOutOf(b, b', c, agg - (rest - {id}), failing)
  {
  }

  lemma BothLeftOut(b: Books, mid: Books, b': Books, gateAgg: map<Id, Usage>, realAgg: map<Id, Usage>, f: Faults)
    requires LedgerRuns.DueByColumn(b.ledger.pending, gateAgg, realAgg)
    requires LeavesOutOf(b, mid, GateTokenId, gateAgg, f.gates) && LeavesOutOf(mid, b', RealTokenId, realAgg, f.reals)
    ensures LeavesOut(b.ledger, b'.ledger, b.ledger.pending, MissedBy(f))
  {
    forall k: LedgerRuns.Owed | k in b.ledger.pending
      ensures if k.column.GateTokenId? then k.id in gateAgg else k.id in realAgg
    {
      assert k == LedgerRuns.Owed(k.column, k.id);
      assert k !in (b.ledger.pending - LedgerRuns.Keys(GateTokenId, gateAgg.Keys)) -
        LedgerRuns.Keys(RealTokenId, realAgg.Keys);
    }
  }

  lemma NothingLeftOut(b: Books, b': Books, f: Faults)
    requires b'.ledger.unpaid == b.ledger.unpaid
    ensures LeavesOut(b.ledger, b'.ledger, LedgerRuns.Dues([]), MissedBy(f))
  {
    assert LedgerRuns.OwedBy([]) == {};
  }

  /** The insert alone: the rows are written, nothing else has happened. */
  ghost predicate Inserts(b: Books, b': Books, logs: seq<UsageLog>, now: Time) {
    && b'.keeps == b.keeps && b'.ledger.committed == b.ledger.committed + logs
    && b'.ledger.written == b.ledger.written + LedgerRuns.NewRows(b.ledger.db, logs, now)
    && b'.ledger.done == b.ledger.done && b'.ledger.used == b.ledger.used && b'.ledger.unpaid == b.ledger.unpaid
  }

  /** The insert, and then what pays for it. */
  lemma InsertThenPaid(b: Books, mid: Books, b': Books, logs: seq<UsageLog>, now: Time, f: Faults)
    requires Inserts(b, mid, logs, now) && Continues(mid, b', [], now, f)
    ensures Continues(b, b', logs, now, f)
  {
    assert LedgerRuns.NewRows(mid.ledger.db, [], now) == [];
  }

  lemma InsertFailed(b: Books, b': Books, now: Time, f: Faults)
    requires Inserts(b, b', [], now)
    ensures Continues(b, b', [], now, f)
  {
  }

  lemma NothingInserted(b: Books, now: Time, f: Faults)
    ensures Continues(b, b, [], now, f)
  {
    assert LedgerRuns.NewRows(b.ledger.db, [], now) == [];
  }

  /** s' is s after a flush. */
  ghost predicate FlushedTo(s: State, ok: bool, s': State) {
    && s'.writer == Flushed(s.writer, ok) && s'.channel == s.channel && s'.capacity == s.capacity
    && s'.closed == s.closed && s'.phase == s.phase && s'.dropped == s.dropped
    && ToLogs(Stored(s'.blocks)) == ToLogs(Stored(s.blocks)) + if ok then ToLogs(Batch(s.writer)) else []
  }

  lemma FlushGoesTo(s: State, ok: bool)
    ensures FlushedTo(s, ok, UsagePipeline.Flush(s, ok))
  {
    FlushFrame(s, ok);
    FlushStoresBatch(s, ok);
    ToLogsAppend(Stored(s.blocks), if ok then Batch(s.writer) else []);
    assert ToLogs([]) == [];
  }

  /** The same for the flush of a full buffer only. */
  ghost predicate FlushedIfFull(t: State, ok: bool, t': State) {
    if |t.writer.buf| >= 100 then FlushedTo(t, ok, t') else t' == t
  }

  lemma ReceiveGoesTo(s: State, ok: bool)
    requires s.channel != []
    ensures FlushedIfFull(Take(s), ok, AfterReceive(s, ok))
  {
    FlushGoesTo(Take(s), ok);
  }

  lemma PrependedFlushesAlike(w: Writer)
    requires Batch(w) != []
    ensures var p := Writer(Batch(w), [], w.retryCount);
      Flushed(p, true) == Flushed(w, true) && Flushed(p, false) == Flushed(w, false)
  {
    assert Batch(Writer(Batch(w), [], w.retryCount)) == Batch(w);
  }

  lemma NothingFlushed(b: Books, now: Time, f: Faults)
    ensures FlushMoves(b, b, [], now, f)
  {
    assert ToLogs([]) == [] && LedgerRuns.NewRows(b.ledger.db, [], now) == [];
    NothingLeftOut(b, b, f);
  }

  /** A signal changes the channel, the phase or the drop counter, and the history of the senders. */
  lemma SignalMoves(b: Books, s: State, t: Turn)
    requires t.SendTurn? || t.CloseTurn? || t.DoneTurn?
    ensures var s' := Moved(s, t, b.ledger.db);
      && s'.writer == s.writer && s'.blocks == s.blocks && s'.capacity == s.capacity
      && s' == (if t.SendTurn? then SendUsage(s, t.entry) else if t.CloseTurn? then s.(closed := true)
                else if s.phase == Running then s.(phase := Draining) else s)
      && Same(b, b, OpsOf(t), MissedIn(t)) && TurnMoves(Moment(s, b.ledger), t, Moment(s', b.ledger))
  {
  }

  lemma FlushTurnMoves(b: Books, b': Books, s: State, s': State, t: Turn)
    requires MayFlush(t) && s' == Moved(s, t, b.ledger.db)
    requires FlushMoves(b, b', InsertedIn(s, t), t.now, t.faults)
    ensures Same(b, b', OpsOf(t), MissedIn(t)) && TurnMoves(Moment(s, b.ledger), t, Moment(s', b'.ledger))
  {
  }

  /** What a run has come to: the pipeline, the books, the ids used at most, and every moment so far. */
  datatype Record = Record(state: State, books: Books, used: set<LedgerRuns.Owed>, trace: seq<Moment>)

  /** The record after i turns. */
  ghost predicate Recorded(r: Record, origin: Record, turns: seq<Turn>, i: nat)
    requires i <= |turns|
  {
    && r.books.keeps == origin.books.keeps && Spares(origin.books, r.books, Missed(turns))
    && r.books.ledger.used <= r.used && FreshTurns(turns[i..], r.used)
    && Traces(r.trace, turns[..i]) && |origin.trace| == 1 && r.trace[0] == origin.trace[0]
    && r.trace[i] == Moment(r.state, r.books.ledger)
  }

  ghost function RecordTurn(r: Record, t: Turn, s': State, b': Books): Record {
    Record(s', b', r.used + LedgerRuns.IdsOf(OpsOf(t)), r.trace + [Moment(s', b'.ledger)])
  }

  lemma RecordStarts(origin: Record, turns: seq<Turn>)
    requires origin.trace == [Moment(origin.state, origin.books.ledger)]
    requires origin.used == origin.books.ledger.used && FreshTurns(turns, origin.used)
    ensures Recorded(origin, origin, turns, 0)
  {
    assert turns[0..] == turns && turns[..0] == [];
  }

  lemma TurnIsAdmitted(r: Record, origin: Record, turns: seq<Turn>, i: nat)
    requires i < |turns| && Recorded(r, origin, turns, i)
    ensures LedgerRuns.AdmitsAll(r.books.ledger.used, OpsOf(turns[i]))
    ensures FreshTurns(turns[i + 1..], r.used + LedgerRuns.IdsOf(OpsOf(turns[i])))
  {
    HeadAndTail(turns, i);
    LedgerRuns.FewerUsedAdmitsAll(r.books.ledger.used, r.used, OpsOf(turns[i]));
  }

  lemma SparesGoesOn(a: Books, b: Books, b': Books, turns: seq<Turn>, i: nat)
    requires i < |turns| && Spares(a, b, Missed(turns)) && Spares(b, b', MissedIn(turns[i]))
    ensures Spares(a, b', Missed(turns))
  {
    assert MissedIn(turns[i]) <= Missed(turns);
  }

  lemma RecordGoesOn(r: Record, origin: Record, turns: seq<Turn>, i: nat, s': State, b': Books)
    requires i < |turns| && Recorded(r, origin, turns, i)
    requires Same(r.books, b', OpsOf(turns[i]), MissedIn(turns[i]))
    requires TurnMoves(Moment(r.state, r.books.ledger), turns[i], Moment(s', b'.ledger))
    ensures Recorded(RecordTurn(r, turns[i], s', b'), origin, turns, i + 1)
  {
    TurnIsAdmitted(r, origin, turns, i);
    OneMoreMoment(r.trace, turns[..i], turns[i], Moment(s', b'.ledger));
    assert turns[..i] + [turns[i]] == turns[..i + 1];
    SparesGoesOn(origin.books, r.books, b', turns, i);
  }

  class UsageWriter {
    const ch: Channel
    const store: Store
    var buf: Slice<UsageEntry>
    var retryBuf: Slice<UsageEntry>
    var retryCount: nat
    var phase: Phase

    /** The two buffers never share a backing array, and an empty retry buffer is nil. */
    ghost predicate Valid()
      reads this, buf.Memory(), retryBuf.Memory()
    {
      && buf.Valid() && retryBuf.Valid()
      && buf.Memory() !! retryBuf.Memory()
      && (retryBuf.Len() == 0 ==> retryBuf.Nil?)
    }

    ghost function Memory(): set<array<UsageEntry>>
      reads this
    {
      buf.Memory() + retryBuf.Memory()
    }

    ghost function View(): Writer
      requires buf.Valid() && retryBuf.Valid()
      reads this, buf.Memory(), retryBuf.Memory()
    {
      Writer(buf.Contents(), retryBuf.Contents(), retryCount)
    }

    constructor (ch: Channel, store: Store)
      ensures Valid() && View() == Writer([], [], 0) && phase == Running
      ensures this.ch == ch && this.store == store && fresh(Memory())
    {
      this.ch, this.store := ch, store;
      var room := new UsageEntry[BATCH_SIZE];
      buf, retryBuf, retryCount, phase := Slice(room, 0, 0), Nil, 0, Running;
    }

    /** flush.  `ok` is false exactly when the insert failed.  The store's part of it is a run of
        the ledger, in which other parts of the program take steps of their own. */
    method Flush(now: Time, f: Faults, ghost b: Books) returns (ok: bool, ghost b': Books)
      requires Valid() && Kept(b, store.db) && b.ledger.pending == map[]
      requires LedgerRuns.AdmitsAll(b.ledger.used, f.others)
      modifies this`buf, this`retryBuf, this`retryCount, Memory(), store
      ensures Valid() && fresh(Memory() - old(Memory()))
      ensures View() == Flushed(old(View()), ok)
      ensures Kept(b', store.db) && b'.ledger.pending == map[]
      ensures var logs := ToLogs(Batch(old(View())));
        && (ok <==> logs == [] || (f.failAt > |logs| + 2 && AllReference(old(store.db), logs)))
        && Continues(b, b', if ok then logs else [], now, f)
        && LeavesOut(b.ledger, b'.ledger, LedgerRuns.Dues(if ok then logs else []), MissedBy(f))
        && (f.others == [] ==>
              store.db == if ok && logs != [] then Paid(WithLogs(old(store.db), logs, now), logs, f) else old(store.db))
    {
      if buf.Len() == 0 && retryBuf.Len() == 0 {
        assert Batch(View()) == [] && ToLogs([]) == [];
        NothingInserted(b, now, f);
        NothingLeftOut(b, b, f);
        return true, b;
      }
      ok, b' := FlushBatch(now, f, b);
    }

    /** flush when there is something to insert. */
    method FlushBatch(now: Time, f: Faults, ghost b: Books) returns (ok: bool, ghost b': Books)
      requires Valid() && Batch(View()) != [] && Kept(b, store.db) && b.ledger.pending == map[]
      requires LedgerRuns.AdmitsAll(b.ledger.used, f.others)
      modifies this`buf, this`retryBuf, this`retryCount, Memory(), store
      ensures Valid() && fresh(Memory() - old(Memory()))
      ensures View() == Flushed(old(View()), ok)
      ensures Kept(b', store.db) && b'.ledger.pending == map[]
      ensures var logs := ToLogs(Batch(old(View())));
        && (ok <==> f.failAt > |logs| + 2 && AllReference(old(store.db), logs))
        && Continues(b, b', if ok then logs else [], now, f)
        && LeavesOut(b.ledger, b'.ledger, LedgerRuns.Dues(if ok then logs else []), MissedBy(f))
        && (f.others == [] ==>
              store.db == if ok then Paid(WithLogs(old(store.db), logs, now), logs, f) else old(store.db))
    {
      PrependedFlushesAlike(View());
      var logs := Prepare();
      ok, b' := InsertBatch(logs, now, f, b);
    }

    /** The batch, in one buffer and as rows. */
    method Prepare() returns (logs: seq<UsageLog>)
      requires Valid() && Batch(View()) != []
      modifies this`buf, this`retryBuf, Memory()
      ensures Valid() && fresh(Memory() - old(Memory()))
      ensures View() == Writer(Batch(old(View())), [], retryCount)
      ensures retryBuf.Nil? && buf.Len() > 0
      ensures logs == ToLogs(Batch(old(View()))) && logs != []
    {
      PrependRetries();
      assert |buf.Contents()| > 0;
      logs := BuildLogs(buf.Contents());
    }

    /** flush from the insert on. */
    method InsertBatch(logs: seq<UsageLog>, now: Time, f: Faults, ghost b: Books) returns (ok: bool, ghost b': Books)
      requires Valid() && retryBuf.Nil? && buf.Len() > 0 && logs != []
      requires Kept(b, store.db) && b.ledger.pending == map[] && LedgerRuns.AdmitsAll(b.ledger.used, f.others)
      modifies this`buf, this`retryBuf, this`retryCount, store
      ensures Valid() && fresh(Memory() - old(Memory()))
      ensures View() == Flushed(old(View()), ok)
      ensures ok <==> f.failAt > |logs| + 2 && AllReference(old(store.db), logs)
      ensures Kept(b', store.db) && b'.ledger.pending == map[]
      ensures Continues(b, b', if ok then logs else [], now, f)
      ensures LeavesOut(b.ledger, b'.ledger, LedgerRuns.Dues(if ok then logs else []), MissedBy(f))
      ensures f.others == [] ==>
        store.db == if ok then Paid(WithLogs(old(store.db), logs, now), logs, f) else old(store.db)
    {
      ok, b' := InsertAndPay(logs, now, f, b);
      if ok {
        retryCount := 0;
        buf := buf.Emptied();
      } else {
        KeepOrDiscard();
      }
    }

    /** What flush does to the store: the insert, and the totals if it succeeds. */
    method InsertAndPay(logs: seq<UsageLog>, now: Time, f: Faults, ghost b: Books) returns (ok: bool, ghost b': Books)
      requires logs != [] && Kept(b, store.db) && b.ledger.pending == map[]
      requires LedgerRuns.AdmitsAll(b.ledger.used, f.others)
      modifies store
      ensures ok <==> f.failAt > |logs| + 2 && AllReference(old(store.db), logs)
      ensures Kept(b', store.db) && b'.ledger.pending == map[]
      ensures Continues(b, b', if ok then logs else [], now, f)
      ensures LeavesOut(b.ledger, b'.ledger, LedgerRuns.Dues(if ok then logs else []), MissedBy(f))
      ensures f.others == [] ==>
        store.db == if ok then Paid(WithLogs(old(store.db), logs, now), logs, f) else old(store.db)
    {
      ghost var mid;
      ok, mid := Insert(logs, now, f.failAt, b);
      b' := mid;
      if ok {
        b' := PayTotals(logs, now, f, mid);
        InsertThenPaid(b, mid, b', logs, now, f);
      } else {
        InsertFailed(b, mid, now, f);
        NothingLeftOut(b, mid, f);
      }
    }

    /** Aggregate per token, then update once per token. */
    method PayTotals(logs: seq<UsageLog>, now: Time, f: Faults, ghost b: Books) returns (ghost b': Books)
      requires Kept(b, store.db) && b.ledger.pending == LedgerRuns.Dues(logs)
      requires LedgerRuns.AdmitsAll(b.ledger.used, f.others)
      modifies store
      ensures Kept(b', store.db) && b'.ledger.pending == map[] && Continues(b, b', [], now, f)
      ensures LeavesOut(b.ledger, b'.ledger, b.ledger.pending, MissedBy(f))
      ensures f.others == [] ==> store.db == Paid(old(store.db), logs, f)
    {
      LedgerRuns.DuesAreGrouped(logs);
      var gateAgg, realAgg := Aggregate(logs);
      b' := PayBoth(gateAgg, realAgg, now, f, b);
    }

    method PayBoth(gateAgg: map<Id, Usage>, realAgg: map<Id, Usage>, now: Time, f: Faults, ghost b: Books)
      returns (ghost b': Books)
      requires Kept(b, store.db) && LedgerRuns.AdmitsAll(b.ledger.used, f.others)
      requires LedgerRuns.DueByColumn(b.ledger.pending, gateAgg, realAgg)
      modifies store
      ensures Kept(b', store.db) && b'.ledger.pending == map[] && Continues(b, b', [], now, f)
      ensures LeavesOut(b.ledger, b'.ledger, b.ledger.pending, MissedBy(f))
      ensures f.others == [] ==>
        store.db == AddAll(AddAll(old(store.db), GateTokenId, gateAgg - f.gates), RealTokenId, realAgg - f.reals)
    {
      ghost var mid;
      var left;
      left, mid := PayAll(GateTokenId, gateAgg, f.gates, f.others, b);
      ghost var between := left;
      left, b' := PayAll(RealTokenId, realAgg, f.reals, left, mid);
      BothPaid(b, mid, b', now, f, between, left);
      BothLeftOut(b, mid, b', gateAgg, realAgg, f);
    }

    method Insert(logs: seq<UsageLog>, now: Time, failAt: nat, ghost b: Books) returns (ok: bool, ghost b': Books)
      requires logs != [] && Kept(b, store.db) && b.ledger.pending == map[]
      modifies store
      ensures ok <==> failAt > |logs| + 2 && AllReference(old(store.db), logs)
      ensures store.db == if ok then WithLogs(old(store.db), logs, now) else old(store.db)
      ensures Kept(b', store.db) && Inserts(b, b', if ok then logs else [], now)
      ensures b'.ledger.pending == (if ok then LedgerRuns.Dues(logs) else map[])
    {
      ok := store.InsertUsageLogs(logs, now, failAt);
      b' := b;
      assert LedgerRuns.NewRows(b.ledger.db, [], now) == [];
      if ok {
        b' := b.(ledger := LedgerRuns.Next(b.ledger, LedgerRuns.CommitBatch(logs, now)));
      }
    }

    /** append(uw.retryBuf, uw.buf...): the buffer may take over the retry buffer's array. */
    method PrependRetries()
      requires Valid()
      modifies this`buf, this`retryBuf, Memory()
      ensures Valid() && fresh(Memory() - old(Memory()))
      ensures View() == Writer(Batch(old(View())), [], retryCount)
    {
      if retryBuf.Len() > 0 {
        buf := Append(retryBuf, buf.Contents());
        retryBuf := Nil;
      } else {
        assert retryBuf.Contents() + buf.Contents() == buf.Contents();
      }
    }

    /** The error branch: the batch is copied to memory of its own, so that later appends to
        the buffer cannot overwrite it. */
    method KeepOrDiscard()
      requires Valid() && retryBuf.Nil? && buf.Len() > 0
      modifies this`buf, this`retryBuf, this`retryCount
      ensures Valid() && fresh(Memory() - old(Memory()))
      ensures View() == Flushed(old(View()), false)
    {
      assert [] + buf.Contents() == buf.Contents();
      if retryCount < MAX_RETRIES {
        retryBuf := Append(retryBuf.Emptied(), buf.Contents());
        retryCount := retryCount + 1;
      } else {
        retryCount := 0;
      }
      buf := buf.Emptied();
    }

    static method BuildLogs(entries: seq<UsageEntry>) returns (logs: seq<UsageLog>)
      ensures logs == ToLogs(entries)
      ensures forall i :: 0 <= i < |entries| ==>
        var e, l := entries[i], logs[i];
        && l.gateId == e.gateId && l.realId == e.realId && l.path == e.path && l.status == e.status
        && UsageData(l.input, l.output, l.cacheCreation, l.cacheRead, l.model) == e.usage
    {
      logs := [];
      for i := 0 to |entries|
        invariant logs == ToLogs(entries[..i])
      {
        logs := logs + [ToLog(entries[i])];
      }
      assert entries[..|entries|] == entries;
    }

    /** The two accumulation maps. */
    static method Aggregate(logs: seq<UsageLog>) returns (gateAgg: map<Id, Usage>, realAgg: map<Id, Usage>)
      ensures gateAgg == Group(logs, GateTokenId) && realAgg == Group(logs, RealTokenId)
    {
      gateAgg, realAgg := map[], map[];
      for i := 0 to |logs|
        invariant gateAgg == Group(logs[..i], GateTokenId)
        invariant realAgg == Group(logs[..i], RealTokenId)
      {
        var l := logs[i];
        var u := Usage(l.input, l.output);
        assert logs[..i + 1] == logs[..i] + [l];
        GroupSnoc(logs[..i], l, GateTokenId);
        GroupSnoc(logs[..i], l, RealTokenId);
        gateAgg := gateAgg[l.gateId := if l.gateId in gateAgg then Plus(gateAgg[l.gateId], u) else u];
        realAgg := realAgg[l.realId := if l.realId in realAgg then Plus(realAgg[l.realId], u) else u];
      }
      assert logs[..|logs|] == logs;
    }

    /** One update per token, in whatever order the map is ranged over. */
    method PayAll(c: Column, agg: map<Id, Usage>, failing: set<Id>, others: seq<Op>, ghost b: Books)
      returns (left: seq<Op>, ghost b': Books)
      requires Kept(b, store.db) && LedgerRuns.AdmitsAll(b.ledger.used, others)
      requires LedgerRuns.AmountsDue(b.ledger.pending, c, agg)
      modifies store
      ensures Kept(b', store.db) && Waits(b, b', others, left)
      ensures b'.ledger.pending == b.ledger.pending - LedgerRuns.Keys(c, agg.Keys)
      ensures Spares(b, b', LedgerRuns.Keys(c, failing)) && LeavesOutOf(b, b', c, agg, failing)
      ensures others == [] ==> left == [] && store.db == AddAll(old(store.db), c, agg - failing)
    {
      var rest := agg.Keys;
      left, b' := others, b;
      NothingPaid(store.db, c, agg, failing);
      while rest != {}
        invariant rest <= agg.Keys && Kept(b', store.db) && Waits(b, b', others, left)
        invariant b'.ledger.pending == b.ledger.pending - LedgerRuns.Keys(c, agg.Keys - rest)
        invariant Spares(b, b', LedgerRuns.Keys(c, failing)) && LeavesOutOf(b, b', c, agg - rest, failing)
        invariant others == [] ==> left == [] && store.db == AddAll(old(store.db), c, (agg - rest) - failing)
        decreases rest
      {
        var id :| id in rest;
        OneMorePaid(old(store.db), b.ledger.pending, c, agg, rest, failing, id);
        ghost var before := b';
        left, b' := PayOne(c, id, agg[id], id in failing, left, b');
        OneMoreLeftOut(b, before, b', c, agg, rest, failing, id);
        rest := rest - {id};
      }
      assert agg - {} == agg && agg.Keys - {} == agg.Keys;
    }

    /** One update, after whatever other parts of the program do before it. */
    method PayOne(c: Column, id: Id, u: Usage, fails: bool, others: seq<Op>, ghost b: Books)
      returns (left: seq<Op>, ghost b': Books)
      requires Kept(b, store.db) && LedgerRuns.AdmitsAll(b.ledger.used, others)
      requires LedgerRuns.Owed(c, id) in b.ledger.pending && b.ledger.pending[LedgerRuns.Owed(c, id)] == u
      modifies store
      ensures Kept(b', store.db) && Waits(b, b', others, left)
      ensures b'.ledger.pending == b.ledger.pending - {LedgerRuns.Owed(c, id)}
      ensures Spares(b, b', if fails then {LedgerRuns.Owed(c, id)} else {})
      ensures LeavesOutOf(b, b', c, map[id := u], if fails then {id} else {})
      ensures others == [] ==>
        left == [] && store.db == if fails then old(store.db) else AddUsage(old(store.db), c, id, u)
    {
      left, b' := LetOthers(others, b);
      ghost var k := LedgerRuns.Owed(c, id);
      if fails {
        b' := b'.(ledger := LedgerRuns.Next(b'.ledger, LedgerRuns.SkipTotal(k)));
      } else {
        var op :=
          if c.GateTokenId? then AddGateUsageOp(id, u.input, u.output) else AddRealUsageOp(id, u.input, u.output);
        var _ := store.Exec(op, false);
        b' := b'.(ledger := LedgerRuns.Next(b'.ledger, LedgerRuns.PayTotal(k)));
      }
    }

    /** Any number of the operations that others still want to do. */
    method LetOthers(others: seq<Op>, ghost b: Books) returns (left: seq<Op>, ghost b': Books)
      requires Kept(b, store.db) && LedgerRuns.AdmitsAll(b.ledger.used, others)
      modifies store
      ensures Kept(b', store.db) && Waits(b, b', others, left)
      ensures b'.ledger.pending == b.ledger.pending && b'.ledger.unpaid == b.ledger.unpaid
      ensures others == [] ==> left == [] && store.db == old(store.db)
    {
      left, b' := others, b;
      var n: nat :| n <= |others|;               // the scheduler's choice
      for i := 0 to n
        invariant |left| == |others| - i
        invariant Kept(b', store.db) && Waits(b, b', others, left)
        invariant b'.ledger.pending == b.ledger.pending && b'.ledger.unpaid == b.ledger.unpaid
        invariant others == [] ==> store.db == old(store.db)
      {
        b' := RunOp(left[0], b');
        left := left[1..];
      }
    }

    /** Another part of the program uses the store. */
    method RunOp(op: Op, ghost b: Books) returns (ghost b': Books)
      requires Kept(b, store.db) && LedgerRuns.Admits(b.ledger.used, op)
      modifies store
      ensures store.db == Apply(old(store.db), op)
      ensures Kept(b', store.db) && b' == b.(ledger := LedgerRuns.DoOther(b.ledger, op))
    {
      if op.DeleteOp? {
        var _ := store.Delete(op.column, op.id, if op.faulty then 0 else 6);
      } else {
        var _ := store.Exec(op, false);
      }
      b' := b.(ledger := LedgerRuns.Next(b.ledger, LedgerRuns.Other(op)));
    }

    /** flush as a step: s is where the pipeline stands before it, s' after it. */
    method FlushStep(now: Time, f: Faults, ghost b: Books, ghost s: State, ghost s': State) returns (ghost b': Books)
      requires Valid() && View() == s.writer && Booked(store.db, b, s)
      requires LedgerRuns.AdmitsAll(b.ledger.used, f.others)
      requires FlushedTo(s, InsertSucceeds(store.db, f, Batch(s.writer)), s')
      modifies this`buf, this`retryBuf, this`retryCount, Memory(), store
      ensures Valid() && fresh(Memory() - old(Memory()))
      ensures View() == s'.writer && Booked(store.db, b', s') && FlushMoves(b, b', Batch(s.writer), now, f)
    {
      var ok;
      ok, b' := Flush(now, f, b);
    }

    /** The receive case of the select: t is where the pipeline stands when the entry has been taken. */
    method OnEntry(now: Time, f: Faults, ghost b: Books, ghost t: State, ghost t': State) returns (ghost b': Books)
      requires Valid() && ch.queue != [] && t.writer == View().(buf := View().buf + [ch.queue[0]])
      requires Booked(store.db, b, t) && LedgerRuns.AdmitsAll(b.ledger.used, f.others)
      requires FlushedIfFull(t, InsertSucceeds(store.db, f, DueWhenFull(t)), t')
      modifies this`buf, this`retryBuf, this`retryCount, Memory(), store, ch
      ensures Valid() && fresh(Memory() - old(Memory()))
      ensures ch.queue == old(ch.queue)[1..] && ch.closed == old(ch.closed)
      ensures View() == t'.writer && Booked(store.db, b', t') && FlushMoves(b, b', DueWhenFull(t), now, f)
    {
      AppendEntry();
      b' := FlushIfFull(now, f, b, t, t');
    }

    /** The flush of a full buffer. */
    method FlushIfFull(now: Time, f: Faults, ghost b: Books, ghost t: State, ghost t': State) returns (ghost b': Books)
      requires Valid() && View() == t.writer && Booked(store.db, b, t)
      requires LedgerRuns.AdmitsAll(b.ledger.used, f.others)
      requires FlushedIfFull(t, InsertSucceeds(store.db, f, DueWhenFull(t)), t')
      modifies this`buf, this`retryBuf, this`retryCount, Memory(), store
      ensures Valid() && fresh(Memory() - old(Memory()))
      ensures View() == t'.writer && Booked(store.db, b', t') && FlushMoves(b, b', DueWhenFull(t), now, f)
    {
      b' := b;
      if buf.Len() >= BATCH_SIZE {
        b' := FlushStep(now, f, b, t, t');
      } else {
        NothingFlushed(b, now, f);
      }
    }

    method AppendEntry()
      requires Valid() && ch.queue != []
      modifies this`buf, Memory(), ch
      ensures Valid() && fresh(Memory() - old(Memory()))
      ensures ch.queue == old(ch.queue)[1..] && ch.closed == old(ch.closed)
      ensures View() == old(View()).(buf := old(View()).buf + [old(ch.queue)[0]])
    {
      var entry := ch.queue[0];
      ch.queue := ch.queue[1..];
      buf := Append(buf, [entry]);
    }

    /** drain, when no sender runs beside it: takes everything the channel holds. */
    method Drain()
      requires Valid()
      modifies this`buf, Memory(), ch
      ensures Valid() && fresh(Memory() - old(Memory()))
      ensures ch.queue == [] && ch.closed == old(ch.closed)
      ensures View() == old(View()).(buf := old(View()).buf + old(ch.queue))
    {
      ghost var w, all, i := View(), ch.queue, 0;
      assert w.buf + all[..0] == w.buf;
      while |ch.queue| > 0
        invariant Valid() && fresh(Memory() - old(Memory())) && ch.closed == old(ch.closed)
        invariant i <= |all| && ch.queue == all[i..]
        invariant View() == w.(buf := w.buf + all[..i])
        decreases |ch.queue|
      {
        OneMoves(w.buf, all, i);
        AppendEntry();
        i := i + 1;
      }
      assert all[..i] == all;
    }

    // ------------------------------------------------- the writer as the pipeline

    /** The objects stand where the transition system stands. */
    ghost predicate Simulates(h: ProxyHandler, s: State)
      reads this, ch, h, buf.Memory(), retryBuf.Memory()
    {
      && Valid() && h.usageCh == ch
      && s.channel == ch.queue && s.capacity == ch.capacity && s.closed == ch.closed
      && s.phase == phase && s.writer == View() && s.dropped == h.droppedCount
    }

    /** The objects have taken the turn. */
    ghost predicate Answers(h: ProxyHandler, b: Books, b': Books, s: State, s': State, t: Turn)
      reads this, ch, h, store, buf.Memory(), retryBuf.Memory()
    {
      && Simulates(h, s') && Booked(store.db, b', s') && Same(b, b', OpsOf(t), MissedIn(t))
      && TurnMoves(Moment(s, b.ledger), t, Moment(s', b'.ledger))
    }

    /** The sender's turn. */
    method OnSend(h: ProxyHandler, e: UsageEntry, ghost s: State)
      requires Simulates(h, s)
      modifies ch, h
      ensures Simulates(h, SendUsage(s, e))
    {
      if !ch.closed {
        h.SendUsage(e.gateId, e.realId, e.usage, e.path, e.status);
      }
    }

    /** The select loop finds the channel ready, or closed. */
    method OnReady(h: ProxyHandler, now: Time, f: Faults, ghost b: Books, ghost s: State)
      returns (ghost s': State, ghost b': Books)
      requires Simulates(h, s) && Booked(store.db, b, s) && LedgerRuns.AdmitsAll(b.ledger.used, f.others)
      modifies this`buf, this`retryBuf, this`retryCount, this`phase, Memory(), store, ch, h
      ensures fresh(Memory() - old(Memory())) && Answers(h, b, b', s, s', ReadyTurn(now, f))
    {
      b', s' := b, Moved(s, ReadyTurn(now, f), store.db);
      ReadySteps(s, now, f, store.db);
      if phase == Running && |ch.queue| > 0 {
        ReceiveGoesTo(s, InsertSucceeds(store.db, f, DueWhenFull(Take(s))));
        b' := OnReceive(h, now, f, b, s, s');
      } else if phase == Running && ch.closed {
        FlushGoesTo(s, InsertSucceeds(store.db, f, Batch(s.writer)));
        b' := FinalFlush(h, now, f, b, s, s');
      } else {
        NothingFlushed(b, now, f);
      }
      FlushTurnMoves(b, b', s, s', ReadyTurn(now, f));
    }

    /** The channel is ready. */
    method OnReceive(h: ProxyHandler, now: Time, f: Faults, ghost b: Books, ghost s: State, ghost s': State)
      returns (ghost b': Books)
      requires Simulates(h, s) && Booked(store.db, b, s) && LedgerRuns.AdmitsAll(b.ledger.used, f.others)
      requires ch.queue != [] && FlushedIfFull(Take(s), InsertSucceeds(store.db, f, DueWhenFull(Take(s))), s')
      modifies this`buf, this`retryBuf, this`retryCount, Memory(), store, ch
      ensures fresh(Memory() - old(Memory())) && Simulates(h, s') && Booked(store.db, b', s')
      ensures FlushMoves(b, b', DueWhenFull(Take(s)), now, f)
    {
      b' := OnEntry(now, f, b, Take(s), s');
    }

    /** The ticker fires. */
    method OnTick(h: ProxyHandler, now: Time, f: Faults, ghost b: Books, ghost s: State)
      returns (ghost s': State, ghost b': Books)
      requires Simulates(h, s) && Booked(store.db, b, s) && LedgerRuns.AdmitsAll(b.ledger.used, f.others)
      modifies this`buf, this`retryBuf, this`retryCount, this`phase, Memory(), store, ch, h
      ensures fresh(Memory() - old(Memory())) && Answers(h, b, b', s, s', TickTurn(now, f))
    {
      b', s' := b, Moved(s, TickTurn(now, f), store.db);
      TickSteps(s, now, f, store.db);
      if phase == Running && (buf.Len() > 0 || retryBuf.Len() > 0) {
        FlushGoesTo(s, InsertSucceeds(store.db, f, Batch(s.writer)));
        b' := FlushHeld(h, now, f, b, s, s');
      } else {
        NothingFlushed(b, now, f);
      }
      FlushTurnMoves(b, b', s, s', TickTurn(now, f));
    }

    /** The ticker's flush. */
    method FlushHeld(h: ProxyHandler, now: Time, f: Faults, ghost b: Books, ghost s: State, ghost s': State)
      returns (ghost b': Books)
      requires Simulates(h, s) && Booked(store.db, b, s) && LedgerRuns.AdmitsAll(b.ledger.used, f.others)
      requires FlushedTo(s, InsertSucceeds(store.db, f, Batch(s.writer)), s')
      modifies this`buf, this`retryBuf, this`retryCount, Memory(), store
      ensures fresh(Memory() - old(Memory())) && Simulates(h, s') && Booked(store.db, b', s')
      ensures FlushMoves(b, b', Batch(s.writer), now, f)
    {
      b' := FlushStep(now, f, b, s, s');
    }

    /** One turn of drain, or, when the channel is empty, the final flush. */
    method OnDrain(h: ProxyHandler, now: Time, f: Faults, ghost b: Books, ghost s: State)
      returns (ghost s': State, ghost b': Books)
      requires Simulates(h, s) && Booked(store.db, b, s) && LedgerRuns.AdmitsAll(b.ledger.used, f.others)
      modifies this`buf, this`retryBuf, this`retryCount, this`phase, Memory(), store, ch, h
      ensures fresh(Memory() - old(Memory())) && Answers(h, b, b', s, s', DrainTurn(now, f))
    {
      b', s' := b, Moved(s, DrainTurn(now, f), store.db);
      DrainSteps(s, now, f, store.db);
      if phase == Draining && |ch.queue| > 0 {
        AppendEntry();
        NothingFlushed(b, now, f);
      } else if phase == Draining {
        FlushGoesTo(s, InsertSucceeds(store.db, f, Batch(s.writer)));
        b' := FinalFlush(h, now, f, b, s, s');
      } else {
        NothingFlushed(b, now, f);
      }
      FlushTurnMoves(b, b', s, s', DrainTurn(now, f));
    }

    /** The last flush before Run returns. */
    method FinalFlush(h: ProxyHandler, now: Time, f: Faults, ghost b: Books, ghost s: State, ghost s': State)
      returns (ghost b': Books)
      requires Simulates(h, s) && Booked(store.db, b, s) && LedgerRuns.AdmitsAll(b.ledger.used, f.others)
      requires s'.phase == UsagePipeline.Stopped
      requires FlushedTo(s, InsertSucceeds(store.db, f, Batch(s.writer)), s'.(phase := s.phase))
      modifies this`buf, this`retryBuf, this`retryCount, this`phase, Memory(), store
      ensures fresh(Memory() - old(Memory())) && Simulates(h, s') && Booked(store.db, b', s')
      ensures FlushMoves(b, b', Batch(s.writer), now, f)
    {
      b' := FlushHeld(h, now, f, b, s, s'.(phase := s.phase));
      phase := Stopped;
    }

    /** One event of a run, in whatever order the scheduler produced it: the objects take the step
        that the turn is; the store's other users are no part of the pipeline. */
    method Dispatch(h: ProxyHandler, t: Turn, ghost b: Books, ghost s: State) returns (ghost s': State, ghost b': Books)
      requires Simulates(h, s) && Booked(store.db, b, s) && LedgerRuns.AdmitsAll(b.ledger.used, OpsOf(t))
      modifies this`buf, this`retryBuf, this`retryCount, this`phase, Memory(), store, ch, h
      ensures fresh(Memory() - old(Memory())) && Answers(h, b, b', s, s', t)
    {
      match t
      case StoreTurn(op) => s', b' := OnStore(h, op, b, s);
      case ReadyTurn(now, f) => s', b' := OnReady(h, now, f, b, s);
      case TickTurn(now, f) => s', b' := OnTick(h, now, f, b, s);
      case DrainTurn(now, f) => s', b' := OnDrain(h, now, f, b, s);
      case _ => s', b' := OnSignal(h, t, b, s);
    }

    /** Another part of the program uses the store between two turns. */
    method OnStore(h: ProxyHandler, op: Op, ghost b: Books, ghost s: State) returns (ghost s': State, ghost b': Books)
      requires Simulates(h, s) && Booked(store.db, b, s) && LedgerRuns.Admits(b.ledger.used, op)
      modifies store
      ensures Answers(h, b, b', s, s', StoreTurn(op))
    {
      b' := RunOp(op, b);
      s' := s;
      assert [op][1..] == [];
    }

    /** A turn that touches neither buffers nor store: a send, or the end of sending or of running. */
    method OnSignal(h: ProxyHandler, t: Turn, ghost b: Books, ghost s: State) returns (ghost s': State, ghost b': Books)
      requires Simulates(h, s) && Booked(store.db, b, s) && (t.SendTurn? || t.CloseTurn? || t.DoneTurn?)
      modifies this`phase, ch, h
      ensures Answers(h, b, b', s, s', t)
    {
      b', s' := b, Moved(s, t, b.ledger.db);
      SignalMoves(b, s, t);
      match t
      case SendTurn(e) => OnSend(h, e, s);
      case CloseTurn => OnClose(h, s);
      case DoneTurn => OnDone(h, s);
    }

    /** The channel is closed. */
    method OnClose(h: ProxyHandler, ghost s: State)
      requires Simulates(h, s)
      modifies ch
      ensures Simulates(h, s.(closed := true))
    {
      ch.closed := true;
    }

    /** The context is cancelled. */
    method OnDone(h: ProxyHandler, ghost s: State)
      requires Simulates(h, s)
      modifies this`phase
      ensures Simulates(h, if s.phase == Running then s.(phase := Draining) else s)
    {
      if phase == Running {
        phase := Draining;
      }
    }

    /** One turn of a run: the record of the run goes on. */
    method TakeTurn(h: ProxyHandler, turns: seq<Turn>, i: nat, ghost r: Record, ghost origin: Record,
                    ghost p: State -> bool, ghost held: set<array<UsageEntry>>)
      returns (ghost r': Record, ghost held': set<array<UsageEntry>>)
      requires i < |turns| && Recorded(r, origin, turns, i) && Stable(p) && p(r.state)
      requires Simulates(h, r.state) && Booked(store.db, r.books, r.state) && Memory() <= held
      modifies this`buf, this`retryBuf, this`retryCount, this`phase, Memory(), store, ch, h
      ensures Memory() <= held' && fresh(held' - held)
      ensures Recorded(r', origin, turns, i + 1) && p(r'.state)
      ensures Simulates(h, r'.state) && Booked(store.db, r'.books, r'.state)
    {
      TurnIsAdmitted(r, origin, turns, i);
      ghost var s', b' := Dispatch(h, turns[i], r.books, r.state);
      held' := held + Memory();
      r' := RecordTurn(r, turns[i], s', b');
      RecordGoesOn(r, origin, turns, i, s', b');
      MovedKeeps(p, r.state, turns[i], r.books.ledger.db);
    }

    /** Run, with everything that happens around it, other users of the store included, between the
        turns and in the middle of a flush: every turn takes pipeline and store where it must; so
        whatever every step of the pipeline keeps and whatever every step of the ledger keeps,
        such as being reachable or balanced, holds of objects and store after every schedule. */
    method Run(h: ProxyHandler, turns: seq<Turn>, ghost start: State, ghost opening: Books, ghost p: State -> bool)
      returns (ghost end: State, ghost b: Books, ghost trace: seq<Moment>)
      requires Simulates(h, start) && Booked(store.db, opening, start) && Stable(p) && p(start)
      requires FreshTurns(turns, opening.ledger.used)
      modifies this`buf, this`retryBuf, this`retryCount, this`phase, Memory(), store, ch, h
      ensures fresh(Memory() - old(Memory()))
      ensures Simulates(h, end) && Booked(store.db, b, end) && p(end) && b.keeps == opening.keeps
      ensures Spares(opening, b, Missed(turns))
      ensures Traces(trace, turns) && trace[0] == Moment(start, opening.ledger)
      ensures trace[|turns|] == Moment(end, b.ledger)
    {
      ghost var initial, held := Memory(), Memory();
      ghost var origin := Record(start, opening, opening.ledger.used, [Moment(start, opening.ledger)]);
      ghost var r := origin;
      RecordStarts(origin, turns);
      for i := 0 to |turns|
        invariant Memory() <= held && fresh(held - initial)
        invariant Recorded(r, origin, turns, i) && p(r.state)
        invariant Simulates(h, r.state) && Booked(store.db, r.books, r.state)
      {
        r, held := TakeTurn(h, turns, i, r, origin, p, held);
      }
      end, b, trace := r.state, r.books, r.trace;
      assert turns[..|turns|] == turns;
    }

    /** So the retry invariant and the size bounds hold of the writer's own slices. */
    lemma SlicesAreBounded(h: ProxyHandler, s: State, capacity: nat)
      requires Simulates(h, s) && Reachable(s, capacity)
      ensures retryCount <= 3 && (retryCount == 0 <==> retryBuf.Nil?)
      ensures phase == Running ==> buf.Len() < 100 && retryBuf.Len() <= 100 * retryCount
    {
      RetryInvariant(s, capacity);
    }
  }

  /** From nothing: a channel, its sender and its writer on any store, under any schedule of senders,
      ticks, cancellation, faults and other users of the store.  The pipeline and the ledger end
      where some run of theirs ends; and usage_logs then holds, in order, of what it held before
      and of the committed entries, each once, those whose tokens both still exist. */
  method Serve(store: Store, capacity: nat, turns: seq<Turn>)
    returns (h: ProxyHandler, w: UsageWriter, ghost end: State, ghost l: LedgerRuns.Ledger, ghost trace: seq<Moment>)
    requires FreshTurns(turns, LedgerRuns.IdsIn(store.db))
    modifies store
    ensures fresh(h) && fresh(w) && w.Simulates(h, end) && Reachable(end, capacity)
    ensures LedgerRuns.Reachable(l, old(store.db)) && l.db == store.db
    ensures l.pending == map[] && l.committed == ToLogs(Stored(end.blocks)) && l.unpaid.Keys <= Missed(turns)
    ensures Traces(trace, turns) && trace[0] == Moment(Start(capacity), LedgerRuns.Start(old(store.db)))
    ensures trace[|turns|] == Moment(end, l)
    ensures Integral(old(store.db)) ==>
      LogsIn(store.db) == LedgerRuns.Live(LogsIn(old(store.db)) + ToLogs(Stored(end.blocks)), store.db)
  {
    var ch := new Channel(capacity);
    h := new ProxyHandler(ch);
    w := new UsageWriter(ch, store);
    ghost var start, db := Start(capacity), store.db;
    ghost var opening := Books(LedgerRuns.Start(db), l => LedgerRuns.Reachable(l, db));
    assert start == Steps(start, []);
    assert opening.ledger == LedgerRuns.Steps(opening.ledger, []);
    ReachableIsStable(capacity);
    LedgerRuns.ReachableIsStable(db);
    ghost var b;
    end, b, trace := w.Run(h, turns, start, opening, s => Reachable(s, capacity));
    l := b.ledger;
    assert opening.keeps(l);
    if Integral(db) {
      LedgerRuns.RowsAreLive(l, db);
    }
  }
}
