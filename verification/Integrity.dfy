/** What every sequence of store operations keeps: foreign keys, uniqueness and
    the order of log ids; and what a cascading delete removes. */
module Integrity {
  import opened Prelude
  import opened Database

  /** One call on the store.  `faulty` says that some database call inside the
      transaction failed for a reason of its own. */
  datatype Op =
    | CreateRealOp(id: Id, name: string, access: string, refresh: string, now: Time)
    | CreateGateOp(id: Id, name: string, custom: string, generated: string, now: Time)
    | SetRealActiveOp(id: Id, active: bool)
    | SetGateActiveOp(id: Id, active: bool)
    | IncrementFailureOp(id: Id)
    | AddRealUsageOp(id: Id, input: int, output: int)
    | AddGateUsageOp(id: Id, input: int, output: int)
    | InsertBatchOp(batch: seq<UsageLog>, now: Time, faulty: bool)
    | UpsertStickyOp(gateId: Id, realId: Id, expiresAt: Time)
    | DeleteStickyOp(gateId: Id)
    | DeleteExpiredOp(later: LaterThan, now: Time)
    | DeleteOp(column: Column, id: Id, faulty: bool)

  function Commit(db: Database, r: Result<Database, Error>): Database {
    if r.Ok? then r.value else db
  }

  /** The database after a call; a failed call leaves it as it was. */
  function Apply(db: Database, op: Op): Database {
    match op
    case CreateRealOp(id, name, access, refresh, now) => Commit(db, CreateReal(db, id, name, access, refresh, now))
    case CreateGateOp(id, name, custom, generated, now) => Commit(db, CreateGate(db, id, name, custom, generated, now))
    case SetRealActiveOp(id, active) => Commit(db, SetRealActive(db, id, active))
    case SetGateActiveOp(id, active) => Commit(db, SetGateActive(db, id, active))
    case IncrementFailureOp(id) => IncrementFailure(db, id)
    case AddRealUsageOp(id, input, output) => AddRealUsage(db, id, input, output)
    case AddGateUsageOp(id, input, output) => AddGateUsage(db, id, input, output)
    case InsertBatchOp(batch, now, faulty) => Commit(db, InsertBatch(db, batch, now, faulty))
    case UpsertStickyOp(gateId, realId, expiresAt) => Commit(db, UpsertSticky(db, gateId, realId, expiresAt))
    case DeleteStickyOp(gateId) => DeleteSticky(db, gateId)
    case DeleteExpiredOp(later, now) => DeleteExpired(db, later, now)
    case DeleteOp(column, id, faulty) => Commit(db, DeleteCascade(db, column, id, faulty))
  }

  /** The call returns no error. */
  predicate Succeeds(db: Database, op: Op) {
    match op
    case CreateRealOp(id, name, access, refresh, now) => CreateReal(db, id, name, access, refresh, now).Ok?
    case CreateGateOp(id, name, custom, generated, now) => CreateGate(db, id, name, custom, generated, now).Ok?
    case SetRealActiveOp(id, active) => id in db.reals
    case SetGateActiveOp(id, active) => id in db.gates
    case InsertBatchOp(batch, now, faulty) => InsertBatch(db, batch, now, faulty).Ok?
    case UpsertStickyOp(gateId, realId, expiresAt) => gateId in db.gates && realId in db.reals
    case DeleteOp(column, id, faulty) => !faulty && id in TableKeys(db, column)
    case _ => true
  }

  function Run(db: Database, ops: seq<Op>): Database
    decreases |ops|
  {
    if ops == [] then db else Run(Apply(db, ops[0]), ops[1..])
  }

  // ----------------------------------------------------------- the invariant

  ghost predicate LogsReference(db: Database) {
    forall i :: 0 <= i < |db.logs| ==> References(db, db.logs[i].log)
  }

  ghost predicate SessionsReference(db: Database) {
    forall g :: g in db.sticky ==> g in db.gates && db.sticky[g].realId in db.reals
  }

  ghost predicate UniqueTokens(db: Database) {
    && (forall a, b :: a in db.gates && b in db.gates && db.gates[a].token == db.gates[b].token ==> a == b)
    && (forall a, b :: a in db.reals && b in db.reals && db.reals[a].accessToken == db.reals[b].accessToken ==> a == b)
  }

  ghost predicate OrderedIds(db: Database) {
    && (forall i :: 0 <= i < |db.logs| ==> db.logs[i].id < db.nextLogId)
    && (forall i, j :: 0 <= i < j < |db.logs| ==> db.logs[i].id < db.logs[j].id)
  }

  ghost predicate Integral(db: Database) {
    LogsReference(db) && SessionsReference(db) && UniqueTokens(db) && OrderedIds(db)
  }

  // ------------------------------------------------------ the rows that stay

  /** Without keeps exactly the rows that do not name the token. */
  lemma {:induction false} WithoutMembers(rows: seq<LogRow>, c: Column, id: Id)
    ensures forall r :: r in Without(rows, c, id) <==> r in rows && LogKey(c, r.log) != id
  {
    if rows != [] {
      WithoutMembers(rows[1..], c, id);
      assert rows == [rows[0]] + rows[1..];
    }
  }

  ghost predicate Ascending(rows: seq<LogRow>) {
    forall i, j :: 0 <= i < j < |rows| ==> rows[i].id < rows[j].id
  }

  /** Without keeps the rows in id order. */
  lemma {:induction false} WithoutAscending(rows: seq<LogRow>, c: Column, id: Id)
    requires Ascending(rows)
    ensures Ascending(Without(rows, c, id))
  {
    if rows != [] {
      WithoutAscending(rows[1..], c, id);
      WithoutMembers(rows[1..], c, id);
      var rest := Without(rows[1..], c, id);
      forall j | 0 <= j < |rest|
        ensures rows[0].id < rest[j].id
      {
        assert rest[j] in rows[1..];
      }
    }
  }

  // ----------------------------------------------------- the cascading delete

  /** `after` is `before` less the token's row and exactly the rows that name it. */
  ghost predicate Removed(before: Database, after: Database, c: Column, id: Id) {
    && id in TableKeys(before, c)
    && after.gates == (if c.GateTokenId? then before.gates - {id} else before.gates)
    && after.reals == (if c.RealTokenId? then before.reals - {id} else before.reals)
    && after.nextLogId == before.nextLogId
    && (forall r :: r in after.logs <==> r in before.logs && LogKey(c, r.log) != id)
    && Ascending(after.logs)
    && (forall g :: g in after.sticky <==> g in before.sticky && KeyOf(c, g, before.sticky[g].realId) != id)
    && (forall g :: g in after.sticky ==> after.sticky[g] == before.sticky[g])
  }

  /** A delete removes the token with exactly the rows that refer to it, or does nothing. */
  lemma DeleteRemovesExactly(db: Database, c: Column, id: Id, faulty: bool)
    requires Integral(db)
    ensures DeleteCascade(db, c, id, faulty).Ok? <==> !faulty && id in TableKeys(db, c)
    ensures var db' := Apply(db, DeleteOp(c, id, faulty));
      if DeleteCascade(db, c, id, faulty).Ok? then Removed(db, db', c, id) else db' == db
  {
    WithoutMembers(db.logs, c, id);
    WithoutAscending(db.logs, c, id);
  }

  /** After the two child deletes the parent DELETE cannot violate a foreign key,
      whatever the database held before. */
  lemma CascadeClearsReferences(db: Database, c: Column, id: Id)
    ensures !Referenced(DeleteLogsOf(DeleteSessionsOf(db, c, id), c, id), c, id)
  {
    WithoutMembers(db.logs, c, id);
    var cleared := DeleteLogsOf(DeleteSessionsOf(db, c, id), c, id);
    forall i | 0 <= i < |cleared.logs|
      ensures LogKey(c, cleared.logs[i].log) != id
    {
      assert cleared.logs[i] in cleared.logs;
    }
  }

  /** The child deletes are needed: with the parent DELETE alone, a token can be
      deleted exactly when nothing names it. */
  lemma ParentFirstFails(db: Database, c: Column, id: Id)
    requires id in TableKeys(db, c)
    ensures DeleteToken(db, c, id).Err? <==>
      (exists r :: r in db.logs && LogKey(c, r.log) == id) ||
      (exists g :: g in db.sticky && KeyOf(c, g, db.sticky[g].realId) == id)
  {
    if r :| r in db.logs && LogKey(c, r.log) == id {
      var i :| 0 <= i < |db.logs| && db.logs[i] == r;
    }
    if DeleteToken(db, c, id).Err? && !exists g :: g in db.sticky && KeyOf(c, g, db.sticky[g].realId) == id {
      var i :| 0 <= i < |db.logs| && LogKey(c, db.logs[i].log) == id;
      assert db.logs[i] in db.logs;
    }
  }

  lemma RemovedKeepsIntegrity(db: Database, db': Database, c: Column, id: Id)
    requires Integral(db) && Removed(db, db', c, id)
    ensures Integral(db')
  {
    forall i | 0 <= i < |db'.logs|
      ensures References(db', db'.logs[i].log) && db'.logs[i].id < db'.nextLogId
    {
      assert db'.logs[i] in db.logs;
    }
  }

  lemma DeleteKeepsIntegrity(db: Database, c: Column, id: Id)
    requires Integral(db) && id in TableKeys(db, c)
    ensures Integral(Apply(db, DeleteOp(c, id, false)))
  {
    var db' := Apply(db, DeleteOp(c, id, false));
    DeleteRemovesExactly(db, c, id, false);
    RemovedKeepsIntegrity(db, db', c, id);
  }

  lemma InsertKeepsIntegrity(db: Database, ls: seq<UsageLog>, now: Time)
    requires Integral(db) && AllReference(db, ls)
    ensures Integral(WithLogs(db, ls, now))
  {
    var db' := WithLogs(db, ls, now);
    forall i | 0 <= i < |db'.logs|
      ensures References(db', db'.logs[i].log) && db'.logs[i].id < db'.nextLogId
    {
      if i >= |db.logs| {
        assert db'.logs[i] == LogRow(db.nextLogId + (i - |db.logs|), ls[i - |db.logs|], now);
      }
    }
  }

  lemma CreateKeepsIntegrity(db: Database, op: Op)
    requires Integral(db) && (op.CreateRealOp? || op.CreateGateOp?)
    ensures Integral(Apply(db, op))
  {
  }

  /** A gate token is created exactly when its id and its string, the caller's or else the
      generated one, are new; it then is the only gate with that string, active and unused. */
  lemma GateStringIsUnique(db: Database, id: Id, name: string, custom: string, generated: string, now: Time)
    requires Integral(db)
    ensures var text, r := if custom != "" then custom else generated, CreateGate(db, id, name, custom, generated, now);
      && (r.Ok? <==> id !in db.gates && forall g :: g in db.gates ==> db.gates[g].token != text)
      && (r.Ok? ==>
            && (forall g :: g in r.value.gates && r.value.gates[g].token == text <==> g == id)
            && r.value.gates[id] == GateToken(name, text, true, 0, 0, now)
            && r.value.gates - {id} == db.gates && r.value.(gates := db.gates) == db)
  {
    var r := CreateGate(db, id, name, custom, generated, now);
    if r.Ok? {
      assert r.value.gates - {id} == db.gates;
    }
  }

  lemma RealUpdateKeepsIntegrity(db: Database, op: Op)
    requires Integral(db) && (op.SetRealActiveOp? || op.IncrementFailureOp? || op.AddRealUsageOp?)
    ensures Integral(Apply(db, op))
  {
  }

  lemma GateUpdateKeepsIntegrity(db: Database, op: Op)
    requires Integral(db) && (op.SetGateActiveOp? || op.AddGateUsageOp?)
    ensures Integral(Apply(db, op))
  {
  }

  lemma SessionKeepsIntegrity(db: Database, op: Op)
    requires Integral(db)
    requires op.UpsertStickyOp? || op.DeleteStickyOp? || op.DeleteExpiredOp?
    ensures Integral(Apply(db, op))
  {
  }

  /** One operation keeps every foreign key, both uniqueness constraints and the id order. */
  lemma StepKeepsIntegrity(db: Database, op: Op)
    requires Integral(db)
    ensures Integral(Apply(db, op))
  {
    if op.InsertBatchOp? {
      if AllReference(db, op.batch) {
        InsertKeepsIntegrity(db, op.batch, op.now);
      }
    } else if op.DeleteOp? {
      if op.id in TableKeys(db, op.column) {
        DeleteKeepsIntegrity(db, op.column, op.id);
      }
    } else if op.CreateRealOp? || op.CreateGateOp? {
      CreateKeepsIntegrity(db, op);
    } else if op.UpsertStickyOp? || op.DeleteStickyOp? || op.DeleteExpiredOp? {
      SessionKeepsIntegrity(db, op);
    } else if op.SetGateActiveOp? || op.AddGateUsageOp? {
      GateUpdateKeepsIntegrity(db, op);
    } else {
      RealUpdateKeepsIntegrity(db, op);
    }
  }

  /** Every reachable database is integral. */
  lemma {:induction false} RunKeepsIntegrity(db: Database, ops: seq<Op>)
    requires Integral(db)
    ensures Integral(Run(db, ops))
    decreases |ops|
  {
    if ops != [] {
      StepKeepsIntegrity(db, ops[0]);
      RunKeepsIntegrity(Apply(db, ops[0]), ops[1..]);
    }
  }

  lemma {:induction false} RunAppends(db: Database, ops: seq<Op>, more: seq<Op>)
    ensures Run(db, ops + more) == Run(Run(db, ops), more)
    decreases |ops|
  {
    if ops == [] {
      assert ops + more == more;
    } else {
      AppendPeels(ops, more);
      RunAppends(Apply(db, ops[0]), ops[1..], more);
    }
  }

  /** After any run, a batch with one row that names a missing token is refused whole:
      the good rows in it are not stored either. */
  lemma PoisonedBatchNeverCommits(ops: seq<Op>, batch: seq<UsageLog>, k: nat, now: Time, faulty: bool)
    requires k < |batch|
    requires !References(Run(Empty(), ops), batch[k])
    ensures Run(Empty(), ops + [InsertBatchOp(batch, now, faulty)]) == Run(Empty(), ops)
  {
    RunAppends(Empty(), ops, [InsertBatchOp(batch, now, faulty)]);
    var db := Run(Empty(), ops);
    assert Run(db, [InsertBatchOp(batch, now, faulty)]) == Apply(db, InsertBatchOp(batch, now, faulty));
  }
}
