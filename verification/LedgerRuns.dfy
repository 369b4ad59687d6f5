/** Token totals over runs on any store.  The writer commits a batch and then pays each grouped
    total in some order, or fails to; between any two of these steps other operations may
    create, delete or change tokens. */
module LedgerRuns {
  import opened Prelude
  import opened Database
  import opened Integrity
  import opened Statistics
  import opened UsageLedger

  datatype Owed = Owed(column: Column, id: Id)

  datatype Ledger = Ledger(
    db: Database,
    pending: map<Owed, Usage>,       // grouped totals of the last batch, not yet paid
    // history
    unpaid: map<Owed, Usage>,        // what failed updates have left out, per token
    committed: seq<UsageLog>,        // every entry committed since the start, in order
    written: seq<LogRow>,            // the rows they became
    done: seq<Op>,                   // every other operation, in order
    used: set<Owed>,                 // every id given to a token
    opening: Database)               // the store at the start

  datatype Step =
    | CommitBatch(batch: seq<UsageLog>, now: Time)
    | PayTotal(owed: Owed)
    | SkipTotal(owed: Owed)          // the update failed; the error is logged
    | Other(op: Op)

  function OwedBy(ls: seq<UsageLog>): set<Owed> {
    (set i | 0 <= i < |ls| :: Owed(GateTokenId, ls[i].gateId)) +
    (set i | 0 <= i < |ls| :: Owed(RealTokenId, ls[i].realId))
  }

  function NewIds(op: Op): set<Owed> {
    if op.CreateRealOp? then {Owed(RealTokenId, op.id)}
    else if op.CreateGateOp? then {Owed(GateTokenId, op.id)}
    else {}
  }

  /** Operations that neither insert logs nor update totals; ids of new tokens are fresh. */
  predicate Admits(used: set<Owed>, op: Op) {
    && !op.InsertBatchOp? && !op.AddRealUsageOp? && !op.AddGateUsageOp?
    && NewIds(op) !! used
  }

  predicate Allowed(l: Ledger, op: Op) {
    Admits(l.used, op)
  }

  /** The grouped totals of a batch. */
  function Dues(batch: seq<UsageLog>): map<Owed, Usage> {
    map k | k in OwedBy(batch) :: SumFor(batch, k.column, k.id)
  }

  /** The ids of the tokens that the operations create. */
  function IdsOf(ops: seq<Op>): set<Owed> {
    if ops == [] then {} else NewIds(ops[0]) + IdsOf(ops[1..])
  }

  /** The operations one after the other. */
  predicate AdmitsAll(used: set<Owed>, ops: seq<Op>)
    decreases |ops|
  {
    ops == [] || (Admits(used, ops[0]) && AdmitsAll(used + NewIds(ops[0]), ops[1..]))
  }

  lemma {:induction false} FewerUsedAdmitsAll(used: set<Owed>, more: set<Owed>, ops: seq<Op>)
    requires used <= more && AdmitsAll(more, ops)
    ensures AdmitsAll(used, ops)
    decreases |ops|
  {
    if ops != [] {
      FewerUsedAdmitsAll(used + NewIds(ops[0]), more + NewIds(ops[0]), ops[1..]);
    }
  }

  /** The rows of a batch that is inserted now: the next ids, in order, and the time of insertion. */
  function NewRows(db: Database, batch: seq<UsageLog>, now: Time): seq<LogRow> {
    seq(|batch|, i requires 0 <= i < |batch| => LogRow(db.nextLogId + i, batch[i], now))
  }

  function DoCommit(l: Ledger, batch: seq<UsageLog>, now: Time): Ledger {
    if l.pending != map[] || !AllReference(l.db, batch) then l
    else l.(db := WithLogs(l.db, batch, now),
            pending := Dues(batch),
            committed := l.committed + batch,
            written := l.written + NewRows(l.db, batch, now))
  }

  function DoPay(l: Ledger, k: Owed): Ledger {
    if k !in l.pending then l
    else l.(db := AddUsage(l.db, k.column, k.id, l.pending[k]), pending := l.pending - {k})
  }

  function DoSkip(l: Ledger, k: Owed): Ledger {
    if k !in l.pending then l
    else l.(unpaid := l.unpaid[k := Plus(Due(l.unpaid, k.column, k.id), l.pending[k])], pending := l.pending - {k})
  }

  function DoOther(l: Ledger, op: Op): Ledger {
    if !Allowed(l, op) then l
    else l.(db := Apply(l.db, op), done := l.done + [op], used := l.used + NewIds(op))
  }

  function Next(l: Ledger, s: Step): Ledger {
    match s
    case CommitBatch(batch, now) => DoCommit(l, batch, now)
    case PayTotal(k) => DoPay(l, k)
    case SkipTotal(k) => DoSkip(l, k)
    case Other(op) => DoOther(l, op)
  }

  function Steps(l: Ledger, ss: seq<Step>): Ledger
    decreases |ss|
  {
    if ss == [] then l else Steps(Next(l, ss[0]), ss[1..])
  }

  function IdsIn(db: Database): set<Owed> {
    (set g | g in db.gates :: Owed(GateTokenId, g)) + (set r | r in db.reals :: Owed(RealTokenId, r))
  }

  function Start(db: Database): Ledger {
    Ledger(db, map[], map[], [], [], [], IdsIn(db), db)
  }

  // --------------------------------------------------------------- invariant

  function Due(pending: map<Owed, Usage>, c: Column, id: Id): Usage {
    if Owed(c, id) in pending then pending[Owed(c, id)] else Nothing()
  }

  /** What the token had at the start; a token created since had nothing. */
  function OpeningTotal(opening: Database, c: Column, id: Id): Usage {
    if id in TableKeys(opening, c) then TokenTotals(opening, c, id) else Nothing()
  }

  /** Paid, due and left out together. */
  function Credited(db: Database, pending: map<Owed, Usage>, unpaid: map<Owed, Usage>, c: Column, id: Id): Usage
    requires id in TableKeys(db, c)
  {
    Plus(Plus(TokenTotals(db, c, id), Due(pending, c, id)), Due(unpaid, c, id))
  }

  /** They are what the token had at the start and the sum over everything committed for it since. */
  ghost predicate Accounted(db: Database, pending: map<Owed, Usage>, unpaid: map<Owed, Usage>,
                            committed: seq<UsageLog>, opening: Database) {
    forall c: Column, id: Id :: id in TableKeys(db, c) ==>
      Credited(db, pending, unpaid, c, id) == Plus(OpeningTotal(opening, c, id), SumFor(committed, c, id))
  }

  /** The committed entries whose tokens both still exist. */
  function Live(ls: seq<UsageLog>, db: Database): seq<UsageLog> {
    if ls == [] then []
    else (if References(db, ls[0]) then [ls[0]] else []) + Live(ls[1..], db)
  }

  /** The rows whose tokens both still exist. */
  function LiveRows(rows: seq<LogRow>, db: Database): seq<LogRow> {
    if rows == [] then []
    else (if References(db, rows[0].log) then [rows[0]] else []) + LiveRows(rows[1..], db)
  }

  function Entries(rows: seq<LogRow>): seq<UsageLog> {
    if rows == [] then [] else [rows[0].log] + Entries(rows[1..])
  }

  /** Every entry there ever was: those in the table at the start, and those committed since. */
  function Ever(opening: Database, committed: seq<UsageLog>): seq<UsageLog> {
    Entries(opening.logs) + committed
  }

  ghost predicate IdsUsed(l: Ledger) {
    && (forall c: Column, id: Id :: id in TableKeys(l.db, c) ==> Owed(c, id) in l.used)
    && OwedBy(Ever(l.opening, l.committed)) <= l.used && IdsIn(l.opening) <= l.used
    && l.pending.Keys <= l.used && l.unpaid.Keys <= l.used
  }

  ghost predicate Balanced(l: Ledger) {
    && Accounted(l.db, l.pending, l.unpaid, l.committed, l.opening)
    && l.db.logs == LiveRows(l.opening.logs + l.written, l.db) && Entries(l.written) == l.committed
    && IdsUsed(l)
  }

  // ------------------------------------------------------ entries and filters

  lemma {:induction false} EntriesAppend(a: seq<LogRow>, b: seq<LogRow>)
    ensures Entries(a + b) == Entries(a) + Entries(b)
  {
    if a == [] {
      assert a + b == b;
    } else {
      AppendPeels(a, b);
      EntriesAppend(a[1..], b);
    }
  }

  lemma {:induction false} EntriesOf(rows: seq<LogRow>, ls: seq<UsageLog>)
    requires |rows| == |ls| && forall i :: 0 <= i < |ls| ==> rows[i].log == ls[i]
    ensures Entries(rows) == ls
  {
    if rows != [] {
      EntriesOf(rows[1..], ls[1..]);
    }
  }

  lemma {:induction false} EntriesOfLive(rows: seq<LogRow>, db: Database)
    ensures Entries(LiveRows(rows, db)) == Live(Entries(rows), db)
  {
    if rows != [] {
      EntriesOfLive(rows[1..], db);
      var first, rest := rows[0], LiveRows(rows[1..], db);
      assert Entries(rows)[0] == first.log && Entries(rows)[1..] == Entries(rows[1..]);
      if References(db, first.log) {
        assert LiveRows(rows, db) == [first] + rest && ([first] + rest)[1..] == rest;
      } else {
        assert LiveRows(rows, db) == rest;
      }
    }
  }

  lemma {:induction false} LiveAppend(a: seq<LogRow>, b: seq<LogRow>, db: Database)
    ensures LiveRows(a + b, db) == LiveRows(a, db) + LiveRows(b, db)
  {
    if a == [] {
      assert a + b == b;
    } else {
      AppendPeels(a, b);
      LiveAppend(a[1..], b, db);
    }
  }

  lemma {:induction false} AllLive(rows: seq<LogRow>, db: Database)
    requires forall i :: 0 <= i < |rows| ==> References(db, rows[i].log)
    ensures LiveRows(rows, db) == rows
  {
    if rows != [] {
      AllLive(rows[1..], db);
    }
  }

  lemma {:induction false} SameLive(rows: seq<LogRow>, a: Database, b: Database)
    requires forall i :: 0 <= i < |rows| ==> (References(a, rows[i].log) <==> References(b, rows[i].log))
    ensures LiveRows(rows, a) == LiveRows(rows, b)
  {
    if rows != [] {
      assert References(a, rows[0].log) <==> References(b, rows[0].log);
      forall i | 0 <= i < |rows[1..]|
        ensures References(a, rows[1..][i].log) <==> References(b, rows[1..][i].log)
      {
        assert rows[1..][i] == rows[i + 1];
      }
      SameLive(rows[1..], a, b);
    }
  }

  /** Deleting a token drops from the table what it drops from the live rows. */
  lemma {:induction false} WithoutIsDropped(rows: seq<LogRow>, a: Database, b: Database, c: Column, id: Id)
    requires b.gates.Keys == (if c.GateTokenId? then a.gates.Keys - {id} else a.gates.Keys)
    requires b.reals.Keys == (if c.RealTokenId? then a.reals.Keys - {id} else a.reals.Keys)
    ensures Without(LiveRows(rows, a), c, id) == LiveRows(rows, b)
  {
    if rows == [] {
      assert LiveRows(rows, a) == [];
    } else {
      var rest := LiveRows(rows[1..], a);
      WithoutIsDropped(rows[1..], a, b, c, id);
      if References(a, rows[0].log) {
        assert LiveRows(rows, a)[0] == rows[0] && LiveRows(rows, a)[1..] == rest;
        assert References(b, rows[0].log) <==> LogKey(c, rows[0].log) != id;
      } else {
        assert !References(b, rows[0].log);
        assert LiveRows(rows, a) == rest;
      }
    }
  }

  // -------------------------------------------------------------- the steps

  lemma {:induction false} OwedByHas(ls: seq<UsageLog>, c: Column, id: Id)
    ensures Owed(c, id) in OwedBy(ls) <==> id in KeysIn(ls, c)
  {
    if id in KeysIn(ls, c) {
      var i :| 0 <= i < |ls| && LogKey(c, ls[i]) == id;
      if c.GateTokenId? {
        assert Owed(GateTokenId, ls[i].gateId) in OwedBy(ls);
      } else {
        assert Owed(RealTokenId, ls[i].realId) in OwedBy(ls);
      }
    }
    if Owed(c, id) in OwedBy(ls) {
      var i :| 0 <= i < |ls| && LogKey(c, ls[i]) == id;
      assert LogKey(c, ls[i]) in KeysIn(ls, c);
    }
  }

  lemma UnusedIsZero(ls: seq<UsageLog>, c: Column, id: Id)
    requires Owed(c, id) !in OwedBy(ls)
    ensures SumFor(ls, c, id) == Nothing()
  {
    OwedByHas(ls, c, id);
    SumForAbsent(ls, c, id);
  }

  /** A commit leaves due what the batch amounts to. */
  lemma DueAfterCommit(l: Ledger, batch: seq<UsageLog>, now: Time, c: Column, id: Id)
    requires l.pending == map[] && AllReference(l.db, batch)
    ensures Due(DoCommit(l, batch, now).pending, c, id) == SumFor(batch, c, id)
  {
    if Owed(c, id) !in OwedBy(batch) {
      UnusedIsZero(batch, c, id);
    }
  }

  lemma AmountArrives(total: Usage, left: Usage, opening: Usage, sum: Usage, amount: Usage)
    requires Plus(Plus(total, Nothing()), left) == Plus(opening, sum)
    ensures Plus(Plus(total, amount), left) == Plus(opening, Plus(sum, amount))
  {
  }

  lemma CommitKeepsAccount(l: Ledger, batch: seq<UsageLog>, now: Time, c: Column, id: Id)
    requires l.pending == map[] && AllReference(l.db, batch) && id in TableKeys(l.db, c)
    requires Credited(l.db, map[], l.unpaid, c, id) == Plus(OpeningTotal(l.opening, c, id), SumFor(l.committed, c, id))
    ensures var l' := DoCommit(l, batch, now);
      Credited(l'.db, l'.pending, l.unpaid, c, id) ==
        Plus(OpeningTotal(l.opening, c, id), Plus(SumFor(l.committed, c, id), SumFor(batch, c, id)))
  {
    var total, left, sum := TokenTotals(l.db, c, id), Due(l.unpaid, c, id), SumFor(l.committed, c, id);
    DueAfterCommit(l, batch, now, c, id);
    AmountArrives(total, left, OpeningTotal(l.opening, c, id), sum, SumFor(batch, c, id));
    assert TokenTotals(DoCommit(l, batch, now).db, c, id) == total;
  }

  lemma CommitKeepsAccounts(l: Ledger, batch: seq<UsageLog>, now: Time)
    requires Balanced(l) && l.pending == map[] && AllReference(l.db, batch)
    ensures var l' := DoCommit(l, batch, now); Accounted(l'.db, l'.pending, l'.unpaid, l'.committed, l'.opening)
  {
    var l' := DoCommit(l, batch, now);
    forall c: Column, id: Id | id in TableKeys(l'.db, c)
      ensures Credited(l'.db, l'.pending, l'.unpaid, c, id) ==
        Plus(OpeningTotal(l'.opening, c, id), SumFor(l'.committed, c, id))
    {
      CommitKeepsAccount(l, batch, now, c, id);
      SumForAppend(l.committed, batch, c, id);
    }
  }

  lemma CommitKeepsLive(l: Ledger, batch: seq<UsageLog>, now: Time)
    requires Balanced(l) && l.pending == map[] && AllReference(l.db, batch)
    ensures var l' := DoCommit(l, batch, now);
      l'.db.logs == LiveRows(l'.opening.logs + l'.written, l'.db) && Entries(l'.written) == l'.committed
  {
    var l', ever, rows := DoCommit(l, batch, now), l.opening.logs + l.written, NewRows(l.db, batch, now);
    assert l'.db.logs == l.db.logs + rows;
    EntriesAppend(l.written, rows);
    EntriesOf(rows, batch);
    Associates(l.opening.logs, l.written, rows);
    LiveAppend(ever, rows, l'.db);
    SameLive(ever, l.db, l'.db);
    forall i | 0 <= i < |rows|
      ensures References(l'.db, rows[i].log)
    {
      assert rows[i].log == batch[i] && References(l.db, batch[i]);
    }
    AllLive(rows, l'.db);
  }

  lemma BatchIdsUsed(l: Ledger, batch: seq<UsageLog>)
    requires AllReference(l.db, batch)
    requires forall c: Column, id: Id :: id in TableKeys(l.db, c) ==> Owed(c, id) in l.used
    ensures OwedBy(batch) <= l.used
  {
    forall k | k in OwedBy(batch)
      ensures k in l.used
    {
      OwedByHas(batch, k.column, k.id);
      var i :| 0 <= i < |batch| && LogKey(k.column, batch[i]) == k.id;
      assert References(l.db, batch[i]);
      assert k.id in TableKeys(l.db, k.column);
    }
  }

  lemma OwedByAppend(a: seq<UsageLog>, b: seq<UsageLog>)
    ensures OwedBy(a + b) == OwedBy(a) + OwedBy(b)
  {
    forall k
      ensures k in OwedBy(a + b) <==> k in OwedBy(a) || k in OwedBy(b)
    {
      KeysAppend(a, b, k.column);
      OwedByHas(a + b, k.column, k.id);
      OwedByHas(a, k.column, k.id);
      OwedByHas(b, k.column, k.id);
    }
  }

  lemma KeysAppend(a: seq<UsageLog>, b: seq<UsageLog>, c: Column)
    ensures KeysIn(a + b, c) == KeysIn(a, c) + KeysIn(b, c)
  {
    var all := a + b;
    forall i | 0 <= i < |a|
      ensures LogKey(c, a[i]) in KeysIn(all, c)
    {
      assert all[i] == a[i];
    }
    forall i | 0 <= i < |b|
      ensures LogKey(c, b[i]) in KeysIn(all, c)
    {
      assert all[|a| + i] == b[i];
    }
    forall i | 0 <= i < |all|
      ensures LogKey(c, all[i]) in KeysIn(a, c) + KeysIn(b, c)
    {
      assert all[i] == if i < |a| then a[i] else b[i - |a|];
    }
  }

  lemma CommitKeepsUsed(l: Ledger, batch: seq<UsageLog>, now: Time)
    requires Balanced(l) && l.pending == map[] && AllReference(l.db, batch)
    ensures IdsUsed(DoCommit(l, batch, now))
  {
    BatchIdsUsed(l, batch);
    Associates(Entries(l.opening.logs), l.committed, batch);
    OwedByAppend(Ever(l.opening, l.committed), batch);
  }

  lemma PaidIsNoLongerDue(pending: map<Owed, Usage>, k: Owed, c: Column, id: Id)
    requires k in pending
    ensures Due(pending - {k}, c, id) == if c == k.column && id == k.id then Nothing() else Due(pending, c, id)
    ensures c == k.column && id == k.id ==> Due(pending, c, id) == pending[k]
  {
    assert Owed(c, id) == k <==> c == k.column && id == k.id;
  }

  /** Paying moves an amount from due to paid. */
  lemma PayMovesAmount(l: Ledger, k: Owed)
    requires k in l.pending
    ensures SameButTotals(l.db, DoPay(l, k).db)
    ensures forall c: Column, id: Id :: id in TableKeys(l.db, c) ==>
      Plus(TokenTotals(DoPay(l, k).db, c, id), Due(DoPay(l, k).pending, c, id)) ==
        Plus(TokenTotals(l.db, c, id), Due(l.pending, c, id))
  {
    var l' := DoPay(l, k);
    AddUsageEffect(l.db, k.column, k.id, l.pending[k]);
    forall c: Column, id: Id | id in TableKeys(l.db, c)
      ensures Plus(TokenTotals(l'.db, c, id), Due(l'.pending, c, id)) ==
        Plus(TokenTotals(l.db, c, id), Due(l.pending, c, id))
    {
      PaidIsNoLongerDue(l.pending, k, c, id);
    }
  }

  lemma PayKeepsBalance(l: Ledger, k: Owed)
    requires Balanced(l)
    ensures Balanced(DoPay(l, k))
  {
    if k in l.pending {
      PayMovesAmount(l, k);
      SameLive(l.opening.logs + l.written, l.db, DoPay(l, k).db);
    }
  }

  /** A failed update moves it from due to left out. */
  lemma SkipKeepsCredit(l: Ledger, k: Owed, c: Column, id: Id)
    requires k in l.pending && id in TableKeys(l.db, c)
    ensures Credited(l.db, DoSkip(l, k).pending, DoSkip(l, k).unpaid, c, id) ==
      Credited(l.db, l.pending, l.unpaid, c, id)
  {
    PaidIsNoLongerDue(l.pending, k, c, id);
    assert Owed(c, id) == k <==> c == k.column && id == k.id;
  }

  lemma SkipKeepsAccounts(l: Ledger, k: Owed)
    requires Accounted(l.db, l.pending, l.unpaid, l.committed, l.opening) && k in l.pending
    ensures Accounted(l.db, DoSkip(l, k).pending, DoSkip(l, k).unpaid, l.committed, l.opening)
  {
    forall c: Column, id: Id | id in TableKeys(l.db, c)
      ensures Credited(l.db, DoSkip(l, k).pending, DoSkip(l, k).unpaid, c, id) ==
        Plus(OpeningTotal(l.opening, c, id), SumFor(l.committed, c, id))
    {
      SkipKeepsCredit(l, k, c, id);
    }
  }

  lemma SkipKeepsBalance(l: Ledger, k: Owed)
    requires Balanced(l)
    ensures Balanced(DoSkip(l, k))
  {
    if k in l.pending {
      SkipKeepsAccounts(l, k);
    }
  }

  /** Operations on tokens and sessions leave every surviving total alone. */
  lemma OtherKeepsTotals(l: Ledger, op: Op, c: Column, id: Id)
    requires Allowed(l, op) && id in TableKeys(l.db, c) && id in TableKeys(Apply(l.db, op), c)
    ensures TokenTotals(Apply(l.db, op), c, id) == TokenTotals(l.db, c, id)
  {
  }

  /** They start new tokens, and only those with fresh ids, at zero. */
  lemma NewTokensStartAtZero(l: Ledger, op: Op, c: Column, id: Id)
    requires Allowed(l, op) && id !in TableKeys(l.db, c) && id in TableKeys(Apply(l.db, op), c)
    ensures TokenTotals(Apply(l.db, op), c, id) == Nothing() && Owed(c, id) !in l.used
  {
  }

  lemma OtherKeepsAccount(l: Ledger, op: Op, c: Column, id: Id)
    requires Balanced(l) && Allowed(l, op) && id in TableKeys(Apply(l.db, op), c)
    ensures Credited(Apply(l.db, op), l.pending, l.unpaid, c, id) ==
      Plus(OpeningTotal(l.opening, c, id), SumFor(l.committed, c, id))
  {
    if id in TableKeys(l.db, c) {
      OtherKeepsTotals(l, op, c, id);
    } else {
      NewTokensStartAtZero(l, op, c, id);
      OwedByAppend(Entries(l.opening.logs), l.committed);
      UnusedIsZero(l.committed, c, id);
      assert Owed(c, id) !in IdsIn(l.opening);
      assert id !in TableKeys(l.opening, c);
    }
  }

  lemma OtherKeepsAccounts(l: Ledger, op: Op)
    requires Balanced(l) && Allowed(l, op)
    ensures Accounted(Apply(l.db, op), l.pending, l.unpaid, l.committed, l.opening)
  {
    forall c: Column, id: Id | id in TableKeys(Apply(l.db, op), c)
      ensures Credited(Apply(l.db, op), l.pending, l.unpaid, c, id) ==
        Plus(OpeningTotal(l.opening, c, id), SumFor(l.committed, c, id))
    {
      OtherKeepsAccount(l, op, c, id);
    }
  }

  /** No token that any entry ever named comes or goes, unless one is deleted. */
  lemma OtherKeepsReferences(l: Ledger, op: Op, e: UsageLog)
    requires IdsUsed(l) && Allowed(l, op) && e in Ever(l.opening, l.committed)
    requires !(op.DeleteOp? && DeleteCascade(l.db, op.column, op.id, op.faulty).Ok?)
    ensures References(l.db, e) <==> References(Apply(l.db, op), e)
  {
    var ever := Ever(l.opening, l.committed);
    var i :| 0 <= i < |ever| && ever[i] == e;
    assert Owed(GateTokenId, ever[i].gateId) in OwedBy(ever);
    assert Owed(RealTokenId, ever[i].realId) in OwedBy(ever);
  }

  lemma OtherKeepsLive(l: Ledger, op: Op)
    requires Balanced(l) && Allowed(l, op)
    ensures Apply(l.db, op).logs == LiveRows(l.opening.logs + l.written, Apply(l.db, op))
  {
    var db', ever := Apply(l.db, op), l.opening.logs + l.written;
    if op.DeleteOp? && DeleteCascade(l.db, op.column, op.id, op.faulty).Ok? {
      WithoutIsDropped(ever, l.db, db', op.column, op.id);
    } else {
      EntriesAppend(l.opening.logs, l.written);
      forall i | 0 <= i < |ever|
        ensures References(l.db, ever[i].log) <==> References(db', ever[i].log)
      {
        EntriesAt(ever, i);
        OtherKeepsReferences(l, op, ever[i].log);
      }
      SameLive(ever, l.db, db');
      OtherKeepsLogs(l.db, op);
    }
  }

  lemma OtherKeepsLogs(db: Database, op: Op)
    requires !op.InsertBatchOp? && !(op.DeleteOp? && DeleteCascade(db, op.column, op.id, op.faulty).Ok?)
    ensures Apply(db, op).logs == db.logs
  {
  }

  lemma OtherAddsOnlyNewIds(db: Database, op: Op, c: Column, id: Id)
    requires id in TableKeys(Apply(db, op), c)
    ensures id in TableKeys(db, c) || Owed(c, id) in NewIds(op)
  {
  }

  lemma OtherKeepsUsed(l: Ledger, op: Op)
    requires IdsUsed(l) && Allowed(l, op)
    ensures IdsUsed(DoOther(l, op))
  {
    forall c: Column, id: Id | id in TableKeys(Apply(l.db, op), c)
      ensures Owed(c, id) in l.used + NewIds(op)
    {
      OtherAddsOnlyNewIds(l.db, op, c, id);
    }
  }

  lemma StepKeepsBalance(l: Ledger, s: Step)
    requires Balanced(l)
    ensures Balanced(Next(l, s))
  {
    match s
    case CommitBatch(batch, now) =>
      if l.pending == map[] && AllReference(l.db, batch) {
        CommitKeepsAccounts(l, batch, now);
        CommitKeepsLive(l, batch, now);
        CommitKeepsUsed(l, batch, now);
      }
    case PayTotal(k) => PayKeepsBalance(l, k);
    case SkipTotal(k) => SkipKeepsBalance(l, k);
    case Other(op) =>
      if Allowed(l, op) {
        OtherKeepsAccounts(l, op);
        OtherKeepsLive(l, op);
        OtherKeepsUsed(l, op);
      }
  }

  lemma {:induction false} StepsKeepBalance(l: Ledger, ss: seq<Step>)
    requires Balanced(l)
    ensures Balanced(Steps(l, ss))
    decreases |ss|
  {
    if ss != [] {
      StepKeepsBalance(l, ss[0]);
      StepsKeepBalance(Next(l, ss[0]), ss[1..]);
    }
  }

  // -------------------------------------------------------------- the results

  /** What one step never destroys. */
  ghost predicate Stable(q: Ledger -> bool) {
    forall l, s :: q(l) ==> q(Next(l, s))
  }

  ghost predicate Reachable(l: Ledger, db: Database) {
    exists ss :: l == Steps(Start(db), ss)
  }

  lemma {:induction false} EntriesAt(rows: seq<LogRow>, i: nat)
    requires i < |rows|
    ensures |Entries(rows)| == |rows| && Entries(rows)[i] == rows[i].log
  {
    if |rows| > 1 {
      EntriesAt(rows[1..], if i > 0 then i - 1 else 0);
    }
  }

  lemma EntriesReference(db: Database)
    requires Integral(db)
    ensures AllReference(db, Entries(db.logs))
  {
    var ls := Entries(db.logs);
    forall i | 0 <= i < |ls|
      ensures References(db, ls[i])
    {
      if db.logs != [] {
        EntriesAt(db.logs, 0);
        EntriesAt(db.logs, i);
        assert References(db, db.logs[i].log);
      }
    }
  }

  lemma StartIsAccounted(db: Database)
    ensures Accounted(db, map[], map[], [], db)
  {
    forall c: Column, id: Id | id in TableKeys(db, c)
      ensures Credited(db, map[], map[], c, id) == Plus(OpeningTotal(db, c, id), SumFor([], c, id))
    {
      assert Due(map[], c, id) == Nothing() && SumFor([], c, id) == Nothing();
    }
  }

  lemma StartIsUsed(db: Database)
    requires Integral(db)
    ensures IdsUsed(Start(db))
  {
    var ls := Entries(db.logs);
    assert ls + [] == ls;
    EntriesReference(db);
    BatchIdsUsed(Start(db), ls);
  }

  lemma StartIsBalanced(db: Database)
    requires Integral(db)
    ensures Balanced(Start(db))
  {
    StartIsAccounted(db);
    StartIsUsed(db);
    AllLive(db.logs, db);
    assert db.logs + [] == db.logs && Entries([]) == [];
  }

  lemma ReachableIsBalanced(l: Ledger, db: Database)
    requires Integral(db) && Reachable(l, db)
    ensures Balanced(l) && l.opening == db
  {
    var ss :| l == Steps(Start(db), ss);
    StartIsBalanced(db);
    StepsKeepBalance(Start(db), ss);
    StepsKeepOpening(Start(db), ss);
  }

  lemma {:induction false} StepsKeepOpening(l: Ledger, ss: seq<Step>)
    ensures Steps(l, ss).opening == l.opening
    decreases |ss|
  {
    if ss != [] {
      StepsKeepOpening(Next(l, ss[0]), ss[1..]);
    }
  }

  /** In every reachable state, in the middle of a flush too: what a token has been paid since the
      start, what is due to it and what failed updates have left out add up to everything
      committed for it. */
  lemma TotalsAccountForCommitted(l: Ledger, db: Database, c: Column, id: Id)
    requires Integral(db) && Reachable(l, db) && id in TableKeys(l.db, c)
    ensures Plus(Plus(TokenTotals(l.db, c, id), Due(l.pending, c, id)), Due(l.unpaid, c, id)) ==
      Plus(OpeningTotal(db, c, id), SumFor(l.committed, c, id))
  {
    ReachableIsBalanced(l, db);
    assert Credited(l.db, l.pending, l.unpaid, c, id) ==
      Plus(OpeningTotal(l.opening, c, id), SumFor(l.committed, c, id));
  }

  /** In every reachable state the rows are those ever written whose tokens both exist, in order,
      with the ids and times they were written with. */
  lemma RowsAreLive(l: Ledger, db: Database)
    requires Integral(db) && Reachable(l, db)
    ensures l.db.logs == LiveRows(db.logs + l.written, l.db) && Entries(l.written) == l.committed
    ensures Entries(l.db.logs) == Live(Entries(db.logs) + l.committed, l.db)
  {
    ReachableIsBalanced(l, db);
    EntriesOfLive(db.logs + l.written, l.db);
    EntriesAppend(db.logs, l.written);
  }

  lemma {:induction false} StepsThen(l: Ledger, ss: seq<Step>, s: Step)
    ensures Steps(l, ss + [s]) == Next(Steps(l, ss), s)
    decreases |ss|
  {
    if ss == [] {
      assert (ss + [s])[1..] == [];
    } else {
      AppendPeels(ss, [s]);
      StepsThen(Next(l, ss[0]), ss[1..], s);
    }
  }

  lemma ReachableIsStable(db: Database)
    ensures Stable(l => Reachable(l, db))
  {
    forall l, s | Reachable(l, db)
      ensures Reachable(Next(l, s), db)
    {
      var ss :| l == Steps(Start(db), ss);
      StepsThen(Start(db), ss, s);
    }
  }

  // ---------------------------------------------------- what a commit leaves due

  function Keys(c: Column, ids: set<Id>): set<Owed> {
    set id | id in ids :: Owed(c, id)
  }

  /** The amounts of the column are due. */
  ghost predicate AmountsDue(pending: map<Owed, Usage>, c: Column, agg: map<Id, Usage>) {
    forall id :: id in agg ==> Owed(c, id) in pending && pending[Owed(c, id)] == agg[id]
  }

  /** What is due are the amounts of both columns, and nothing else. */
  ghost predicate DueByColumn(pending: map<Owed, Usage>, gateAgg: map<Id, Usage>, realAgg: map<Id, Usage>) {
    var left := pending - Keys(GateTokenId, gateAgg.Keys);
    && AmountsDue(pending, GateTokenId, gateAgg) && AmountsDue(left, RealTokenId, realAgg)
    && left - Keys(RealTokenId, realAgg.Keys) == map[]
  }

  lemma ColumnIsDue(batch: seq<UsageLog>, c: Column)
    ensures AmountsDue(Dues(batch), c, Group(batch, c))
  {
    var dues := Dues(batch);
    forall id | id in Group(batch, c)
      ensures Owed(c, id) in dues && dues[Owed(c, id)] == SumFor(batch, c, id)
    {
      OwedByHas(batch, c, id);
    }
  }

  /** Nothing else is due. */
  lemma OnlyColumnsAreDue(batch: seq<UsageLog>)
    ensures Dues(batch).Keys <=
      Keys(GateTokenId, KeysIn(batch, GateTokenId)) + Keys(RealTokenId, KeysIn(batch, RealTokenId))
  {
    forall k | k in OwedBy(batch)
      ensures k in Keys(k.column, KeysIn(batch, k.column))
    {
      assert k == Owed(k.column, k.id);
      OwedByHas(batch, k.column, k.id);
    }
  }

  lemma ColumnsGroup(pending: map<Owed, Usage>, gateAgg: map<Id, Usage>, realAgg: map<Id, Usage>)
    requires AmountsDue(pending, GateTokenId, gateAgg) && AmountsDue(pending, RealTokenId, realAgg)
    requires pending.Keys <= Keys(GateTokenId, gateAgg.Keys) + Keys(RealTokenId, realAgg.Keys)
    ensures DueByColumn(pending, gateAgg, realAgg)
  {
  }

  /** After a commit these are the two aggregation maps. */
  lemma DuesAreGrouped(batch: seq<UsageLog>)
    ensures DueByColumn(Dues(batch), Group(batch, GateTokenId), Group(batch, RealTokenId))
  {
    ColumnIsDue(batch, GateTokenId);
    ColumnIsDue(batch, RealTokenId);
    OnlyColumnsAreDue(batch);
    assert Group(batch, GateTokenId).Keys == KeysIn(batch, GateTokenId);
    assert Group(batch, RealTokenId).Keys == KeysIn(batch, RealTokenId);
    ColumnsGroup(Dues(batch), Group(batch, GateTokenId), Group(batch, RealTokenId));
  }

  function PayEach(l: Ledger, order: seq<Owed>): Ledger
    decreases |order|
  {
    if order == [] then l else PayEach(DoPay(l, order[0]), order[1..])
  }

  /** Between the commit and the last payment: what has grown and what is still due make up the batch. */
  ghost predicate Paying(start: Database, l: Ledger, batch: seq<UsageLog>) {
    && SameButTotals(start, l.db)
    && forall c: Column, id: Id :: id in TableKeys(start, c) ==>
         Plus(TokenTotals(l.db, c, id), Due(l.pending, c, id)) == Plus(TokenTotals(start, c, id), SumFor(batch, c, id))
  }

  lemma PayKeepsPaying(start: Database, l: Ledger, batch: seq<UsageLog>, k: Owed)
    requires Paying(start, l, batch)
    ensures Paying(start, DoPay(l, k), batch)
  {
    if k in l.pending {
      PayMovesAmount(l, k);
      SameButTotalsComposes(start, l.db, DoPay(l, k).db);
    }
  }

  lemma {:induction false} PayEachKeepsPaying(start: Database, l: Ledger, batch: seq<UsageLog>, order: seq<Owed>)
    requires Paying(start, l, batch)
    ensures Paying(start, PayEach(l, order), batch)
    decreases |order|
  {
    if order != [] {
      PayKeepsPaying(start, l, batch, order[0]);
      PayEachKeepsPaying(start, DoPay(l, order[0]), batch, order[1..]);
    }
  }

  lemma CommitStartsPaying(l: Ledger, batch: seq<UsageLog>, now: Time)
    requires l.pending == map[] && AllReference(l.db, batch)
    ensures Paying(WithLogs(l.db, batch, now), DoCommit(l, batch, now), batch)
  {
    var l' := DoCommit(l, batch, now);
    forall c: Column, id: Id | id in TableKeys(l'.db, c)
      ensures Due(l'.pending, c, id) == SumFor(batch, c, id)
    {
      DueAfterCommit(l, batch, now, c, id);
    }
  }

  /** The order in which the grouped totals are paid cannot be seen: once nothing is due, the
      database is the one that a single update of both totals per entry would have left. */
  lemma PaymentOrderInvisible(l: Ledger, batch: seq<UsageLog>, now: Time, order: seq<Owed>)
    requires l.pending == map[] && AllReference(l.db, batch)
    requires PayEach(DoCommit(l, batch, now), order).pending == map[]
    ensures PayEach(DoCommit(l, batch, now), order).db == OneByOne(WithLogs(l.db, batch, now), batch)
  {
    var start, paid := WithLogs(l.db, batch, now), PayEach(DoCommit(l, batch, now), order);
    CommitStartsPaying(l, batch, now);
    PayEachKeepsPaying(start, DoCommit(l, batch, now), batch, order);
    assert TotalsGrew(start, paid.db, batch) by {
      forall c: Column, id: Id | id in TableKeys(start, c)
        ensures TokenTotals(paid.db, c, id) == Plus(TokenTotals(start, c, id), SumFor(batch, c, id))
      {
        assert Due(paid.pending, c, id) == Nothing();
      }
    }
    OneByOneGrows(start, batch);
    GrownAlike(start, paid.db, OneByOne(start, batch), batch);
  }

  /** The committed entries that lost one of their tokens. */
  function Lost(ls: seq<UsageLog>, db: Database): seq<UsageLog> {
    if ls == [] then []
    else (if References(db, ls[0]) then [] else [ls[0]]) + Lost(ls[1..], db)
  }

  lemma SumForCons(l: UsageLog, rest: seq<UsageLog>, c: Column, id: Id)
    ensures SumFor([l] + rest, c, id) == Plus(Portion(l, c, id), SumFor(rest, c, id))
  {
    SumForAppend([l], rest, c, id);
    SumForOne(l, c, id);
  }

  lemma {:induction false} LiveAndLost(ls: seq<UsageLog>, db: Database, c: Column, id: Id)
    ensures SumFor(ls, c, id) == Plus(SumFor(Live(ls, db), c, id), SumFor(Lost(ls, db), c, id))
  {
    if ls == [] {
      assert Live(ls, db) == [] && Lost(ls, db) == [];
      assert SumFor(ls, c, id) == Nothing();
    } else {
      var first, rest := ls[0], ls[1..];
      var live, lost := Live(rest, db), Lost(rest, db);
      LiveAndLost(rest, db, c, id);
      PlusLaws(Portion(first, c, id), SumFor(live, c, id), SumFor(lost, c, id));
      SumForCons(first, live, c, id);
      SumForCons(first, lost, c, id);
      assert SumFor(ls, c, id) == Plus(Portion(first, c, id), SumFor(rest, c, id));
      if References(db, first) {
        assert Live(ls, db) == [first] + live && Lost(ls, db) == lost;
      } else {
        assert Live(ls, db) == live && Lost(ls, db) == [first] + lost;
      }
    }
  }

  function UsageOf(s: Stats): Usage {
    Usage(s.input, s.output)
  }

  lemma QueryCons(rows: seq<LogRow>, c: Column, id: Id, since: Time)
    requires rows != [] && rows[0].createdAt >= since
    ensures UsageOf(Query(rows, SinceFor(c, id, since))) ==
      Plus(Portion(rows[0].log, c, id), UsageOf(Query(rows[1..], SinceFor(c, id, since))))
  {
    var w := SinceFor(c, id, since);
    var own := Counted(w, rows[0]);
    var rest := Query(rows[1..], w);
    assert Query(rows, w) == Add(own, rest);
    assert UsageOf(Add(own, rest)) == Plus(UsageOf(own), UsageOf(rest));
    assert Matches(w, rows[0]) <==> LogKey(c, rows[0].log) == id;
  }

  lemma {:induction false} QuerySums(rows: seq<LogRow>, c: Column, id: Id, since: Time)
    requires forall i :: 0 <= i < |rows| ==> rows[i].createdAt >= since
    ensures UsageOf(Query(rows, SinceFor(c, id, since))) == SumFor(Entries(rows), c, id)
  {
    if rows == [] {
      assert Query(rows, SinceFor(c, id, since)) == Zero();
      assert Entries(rows) == [] && SumFor([], c, id) == Nothing();
    } else {
      var l, rest := rows[0].log, Entries(rows[1..]);
      QuerySums(rows[1..], c, id, since);
      QueryCons(rows, c, id, since);
      SumForCons(l, rest, c, id);
      assert SumFor(Entries(rows), c, id) == SumFor([l] + rest, c, id);
    }
  }

  lemma {:induction false} NoneLost(ls: seq<UsageLog>, db: Database)
    requires AllReference(db, ls)
    ensures Lost(ls, db) == []
  {
    if ls != [] {
      assert References(db, ls[0]);
      NoneLost(ls[1..], db);
    }
  }

  /** What the token's total was at the start beyond the rows the table then held for it. */
  predicate OpenedInStep(opening: Database, c: Column, id: Id) {
    OpeningTotal(opening, c, id) == SumFor(Entries(opening.logs), c, id)
  }

  lemma SumsAcross(total: Usage, unpaid: Usage, opening: Usage, earlier: Usage, sum: Usage, live: Usage, lost: Usage)
    requires Plus(Plus(total, Nothing()), unpaid) == Plus(opening, sum) && Plus(earlier, sum) == Plus(live, lost)
    ensures Plus(Plus(total, unpaid), earlier) == Plus(Plus(opening, live), lost)
  {
  }

  lemma BalancedAgainstQuery(l: Ledger, c: Column, id: Id, since: Time)
    requires l.pending == map[] && id in TableKeys(l.db, c)
    requires Credited(l.db, map[], l.unpaid, c, id) == Plus(OpeningTotal(l.opening, c, id), SumFor(l.committed, c, id))
    requires Entries(l.db.logs) == Live(Ever(l.opening, l.committed), l.db)
    requires forall i :: 0 <= i < |l.db.logs| ==> l.db.logs[i].createdAt >= since
    ensures Plus(Plus(TokenTotals(l.db, c, id), Due(l.unpaid, c, id)), SumFor(Entries(l.opening.logs), c, id)) ==
      Plus(Plus(OpeningTotal(l.opening, c, id), UsageOf(TokenStats(l.db, c, id, since))),
           SumFor(Lost(Ever(l.opening, l.committed), l.db), c, id))
  {
    var ever, earlier := Ever(l.opening, l.committed), Entries(l.opening.logs);
    QuerySums(l.db.logs, c, id, since);
    LiveAndLost(ever, l.db, c, id);
    SumForAppend(earlier, l.committed, c, id);
    assert Due(map[], c, id) == Nothing();
    SumsAcross(TokenTotals(l.db, c, id), Due(l.unpaid, c, id), OpeningTotal(l.opening, c, id),
               SumFor(earlier, c, id), SumFor(l.committed, c, id),
               SumFor(Live(ever, l.db), c, id), SumFor(Lost(ever, l.db), c, id));
  }

  lemma NothingLostOrLeftOut(total: Usage, query: Usage, unpaid: map<Owed, Usage>, opening: Database,
                             ls: seq<UsageLog>, db: Database, c: Column, id: Id)
    requires Plus(Plus(total, Due(unpaid, c, id)), SumFor(Entries(opening.logs), c, id)) ==
      Plus(Plus(OpeningTotal(opening, c, id), query), SumFor(Lost(ls, db), c, id))
    requires AllReference(db, ls) && Due(unpaid, c, id) == Nothing()
    ensures total == query <==> OpenedInStep(opening, c, id)
  {
    NoneLost(ls, db);
    assert SumFor([], c, id) == Nothing();
  }

  /** At a flush boundary, for every integral store to start from: a token's total, with what
      failed updates left out of it and the rows the table held for it at the start, is its
      opening total, its all-time usage query and the entries whose other token has been
      deleted since.  If nothing was left out or lost, total and query agree exactly when they
      agreed at the start, as they do in an empty store. */
  lemma TotalsAgainstQuery(l: Ledger, db: Database, c: Column, id: Id, since: Time)
    requires Integral(db) && Reachable(l, db) && l.pending == map[] && id in TableKeys(l.db, c)
    requires forall i :: 0 <= i < |l.db.logs| ==> l.db.logs[i].createdAt >= since
    ensures Plus(Plus(TokenTotals(l.db, c, id), Due(l.unpaid, c, id)), SumFor(Entries(db.logs), c, id)) ==
      Plus(Plus(OpeningTotal(db, c, id), UsageOf(TokenStats(l.db, c, id, since))),
           SumFor(Lost(Ever(db, l.committed), l.db), c, id))
    ensures AllReference(l.db, Ever(db, l.committed)) && Due(l.unpaid, c, id) == Nothing() ==>
      (TokenTotals(l.db, c, id) == UsageOf(TokenStats(l.db, c, id, since)) <==> OpenedInStep(db, c, id))
    ensures db == Empty() ==> OpenedInStep(db, c, id)
  {
    ReachableIsBalanced(l, db);
    RowsAreLive(l, db);
    BalancedAgainstQuery(l, c, id, since);
    var ever := Ever(db, l.committed);
    if AllReference(l.db, ever) && Due(l.unpaid, c, id) == Nothing() {
      var total, query := TokenTotals(l.db, c, id), UsageOf(TokenStats(l.db, c, id, since));
      NothingLostOrLeftOut(total, query, l.unpaid, db, ever, l.db, c, id);
    }
    EmptyOpensInStep(c, id);
  }

  lemma EmptyOpensInStep(c: Column, id: Id)
    ensures OpenedInStep(Empty(), c, id)
  {
    assert Entries(Empty().logs) == [] && SumFor([], c, id) == Nothing();
  }

  // ------------------------------------------------------ queries with a cut-off

  /** Of the rows, the entries whose tokens both exist and that were inserted at or after the cut-off. */
  function LiveSince(rows: seq<LogRow>, db: Database, since: Time): seq<UsageLog> {
    if rows == [] then []
    else (if References(db, rows[0].log) && rows[0].createdAt >= since then [rows[0].log] else []) +
         LiveSince(rows[1..], db, since)
  }

  lemma {:induction false} MatchingLive(rows: seq<LogRow>, db: Database, since: Time, c: Column, id: Id)
    ensures Matching(LiveRows(rows, db), Since(since)) == LiveSince(rows, db, since)
    ensures Matching(LiveRows(rows, db), SinceFor(c, id, since)) == EntriesFor(LiveSince(rows, db, since), c, id)
  {
    if rows != [] {
      var first, rest, late := rows[0], LiveRows(rows[1..], db), LiveSince(rows[1..], db, since);
      MatchingLive(rows[1..], db, since, c, id);
      if References(db, first.log) {
        assert LiveRows(rows, db) == [first] + rest && ([first] + rest)[1..] == rest;
      } else {
        assert LiveRows(rows, db) == rest;
      }
      if References(db, first.log) && first.createdAt >= since {
        assert LiveSince(rows, db, since) == [first.log] + late && ([first.log] + late)[1..] == late;
      } else {
        assert LiveSince(rows, db, since) == late;
      }
    }
  }

  /** In every reachable state and for every cut-off, the global and the per-token figures are those
      of the entries ever written, at or after the cut-off, whose tokens both still exist. */
  lemma QueriesAreHistory(l: Ledger, db: Database, c: Column, id: Id, since: Time)
    requires Integral(db) && Reachable(l, db)
    ensures var late := LiveSince(db.logs + l.written, l.db, since);
      GlobalStats(l.db, since) == Amounts(late) && TokenStats(l.db, c, id, since) == Amounts(EntriesFor(late, c, id))
  {
    RowsAreLive(l, db);
    MatchingLive(db.logs + l.written, l.db, since, c, id);
    MatchingAmounts(l.db.logs, Since(since));
    MatchingAmounts(l.db.logs, SinceFor(c, id, since));
  }

  // ------------------------------------------------------ a total beyond its query

  lemma TakeStep(l: Ledger, db: Database, s: Step) returns (l': Ledger)
    requires Reachable(l, db)
    ensures l' == Next(l, s) && Reachable(l', db)
  {
    ReachableIsStable(db);
    var q := l => Reachable(l, db);
    assert q(l) && q(Next(l, s));
    l' := Next(l, s);
  }

  /** A store with one gate token and one real token, each with the given totals. */
  function TwoTokens(g: Id, r: Id, u: Usage, logs: seq<LogRow>): Database {
    Database(map[r := RealToken("", "access", "", true, 0, u.input, u.output, 0)],
             map[g := GateToken("", "gate", true, u.input, u.output, 0)], logs, map[], |logs| + 1)
  }

  lemma OneGateOneReal(g: Id, r: Id) returns (l: Ledger)
    ensures Reachable(l, Empty()) && l.pending == map[] && l.unpaid == map[] && l.committed == []
    ensures l.db == TwoTokens(g, r, Nothing(), [])
  {
    l := Start(Empty());
    assert l == Steps(l, []);
    l := TakeStep(l, Empty(), Other(CreateGateOp(g, "", "gate", "", 0)));
    l := TakeStep(l, Empty(), Other(CreateRealOp(r, "", "access", "", 0)));
  }

  lemma OwedByOne(e: UsageLog)
    ensures OwedBy([e]) == {Owed(GateTokenId, e.gateId), Owed(RealTokenId, e.realId)}
  {
    var one := [e];
    assert one[0] == e;
  }

  lemma OwnPortion(e: UsageLog, k: Owed)
    requires k == Owed(GateTokenId, e.gateId) || k == Owed(RealTokenId, e.realId)
    ensures SumFor([e], k.column, k.id) == Usage(e.input, e.output)
  {
    SumForOne(e, k.column, k.id);
  }

  lemma MapOfTwo(m: map<Owed, Usage>, a: Owed, b: Owed, u: Usage)
    requires m.Keys == {a, b} && m[a] == u && m[b] == u
    ensures m == map[a := u, b := u]
  {
  }

  lemma DuesOfOne(e: UsageLog)
    ensures var u := Usage(e.input, e.output);
      Dues([e]) == map[Owed(GateTokenId, e.gateId) := u, Owed(RealTokenId, e.realId) := u]
  {
    var g, r, one := Owed(GateTokenId, e.gateId), Owed(RealTokenId, e.realId), [e];
    OwedByOne(e);
    OwnPortion(e, g);
    OwnPortion(e, r);
    var dues := Dues(one);
    assert dues.Keys == {g, r};
    assert dues[g] == SumFor(one, g.column, g.id) && dues[r] == SumFor(one, r.column, r.id);
    MapOfTwo(dues, g, r, Usage(e.input, e.output));
  }

  lemma OneCommitted(e: UsageLog) returns (l: Ledger)
    ensures Reachable(l, Empty()) && l.unpaid == map[] && l.committed == [e]
    ensures var u := Usage(e.input, e.output);
      l.pending == map[Owed(GateTokenId, e.gateId) := u, Owed(RealTokenId, e.realId) := u]
    ensures l.db == TwoTokens(e.gateId, e.realId, Nothing(), [LogRow(1, e, 0)])
  {
    l := OneGateOneReal(e.gateId, e.realId);
    DuesOfOne(e);
    OneRow(l.db, e);
    l := TakeCommit(l, e);
  }

  lemma OneRow(db: Database, e: UsageLog)
    requires db.logs == [] && db.nextLogId == 1
    ensures WithLogs(db, [e], 0) == db.(logs := [LogRow(1, e, 0)], nextLogId := 2)
  {
  }

  lemma TakeCommit(l: Ledger, e: UsageLog) returns (l': Ledger)
    requires Reachable(l, Empty()) && l.pending == map[] && References(l.db, e)
    ensures l' == DoCommit(l, [e], 0) && l'.db == WithLogs(l.db, [e], 0) && l'.committed == l.committed + [e]
    ensures Reachable(l', Empty())
  {
    l' := TakeStep(l, Empty(), CommitBatch([e], 0));
  }

  lemma OnePaid(e: UsageLog) returns (l: Ledger)
    ensures Reachable(l, Empty()) && l.unpaid == map[] && l.committed == [e] && l.pending == map[]
    ensures l.db == TwoTokens(e.gateId, e.realId, Usage(e.input, e.output), [LogRow(1, e, 0)])
  {
    l := OneCommitted(e);
    l := TakeStep(l, Empty(), PayTotal(Owed(GateTokenId, e.gateId)));
    l := TakeStep(l, Empty(), PayTotal(Owed(RealTokenId, e.realId)));
  }

  /** Deleting the other token of an entry takes its row out of the query and leaves the total. */
  lemma TotalBeyondQuery(e: UsageLog) returns (l: Ledger)
    ensures Reachable(l, Empty()) && l.pending == map[] && l.unpaid == map[] && l.committed == [e]
    ensures e.gateId in l.db.gates && TokenTotals(l.db, GateTokenId, e.gateId) == Usage(e.input, e.output)
    ensures forall since :: UsageOf(TokenStats(l.db, GateTokenId, e.gateId, since)) == Nothing()
  {
    l := OnePaid(e);
    var rows := l.db.logs;
    assert rows[1..] == [];
    assert Without(rows, RealTokenId, e.realId) == [];
    l := TakeStep(l, Empty(), Other(DeleteOp(RealTokenId, e.realId, false)));
    assert l.db.logs == [];
  }
}
