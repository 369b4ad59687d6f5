/** The relational store of claude-gate as values: one datatype per row, one
    function per SQL statement.  A table with a primary key is a map; the
    AUTOINCREMENT table usage_logs is a sequence in id order.  Every function
    that stands for a statement returns the whole database after it. */
module Database {
  import opened Prelude

  type Id = string
  type Time = int

  datatype RealToken = RealToken(
    name: string, accessToken: string, refreshToken: string,
    isActive: bool, failureCount: int,
    totalInput: int, totalOutput: int, createdAt: Time)

  datatype GateToken = GateToken(
    name: string, token: string, isActive: bool,
    totalInput: int, totalOutput: int, createdAt: Time)

  /** What a caller supplies for one usage_logs row. */
  datatype UsageLog = UsageLog(
    gateId: Id, realId: Id, model: string,
    input: int, output: int, cacheCreation: int, cacheRead: int,
    path: string, status: int)

  /** A stored row: the supplied columns, the AUTOINCREMENT id and the time of insertion. */
  datatype LogRow = LogRow(id: nat, log: UsageLog, createdAt: Time)

  datatype StickySession = StickySession(realId: Id, expiresAt: Time)

  datatype Database = Database(
    reals: map<Id, RealToken>,
    gates: map<Id, GateToken>,
    logs: seq<LogRow>,
    sticky: map<Id, StickySession>,
    nextLogId: nat)

  datatype Error = NoRows | Constraint | Fault

  function Empty(): Database { Database(map[], map[], [], map[], 1) }

  /** The two foreign-key columns that usage_logs and sticky_sessions share. */
  datatype Column = GateTokenId | RealTokenId

  function KeyOf(c: Column, gateId: Id, realId: Id): Id {
    if c.GateTokenId? then gateId else realId
  }

  function LogKey(c: Column, l: UsageLog): Id {
    KeyOf(c, l.gateId, l.realId)
  }

  function TableKeys(db: Database, c: Column): set<Id> {
    if c.GateTokenId? then db.gates.Keys else db.reals.Keys
  }

  // ------------------------------------------------------------------ tokens

  function InsertReal(db: Database, id: Id, row: RealToken): Result<Database, Error> {
    if id in db.reals || exists other :: other in db.reals && db.reals[other].accessToken == row.accessToken
    then Err(Constraint)
    else Ok(db.(reals := db.reals[id := row]))
  }

  function InsertGate(db: Database, id: Id, row: GateToken): Result<Database, Error> {
    if id in db.gates || exists other :: other in db.gates && db.gates[other].token == row.token
    then Err(Constraint)
    else Ok(db.(gates := db.gates[id := row]))
  }

  function CreateReal(db: Database, id: Id, name: string, access: string, refresh: string, now: Time)
    : Result<Database, Error>
  {
    InsertReal(db, id, RealToken(name, access, refresh, true, 0, 0, 0, now))
  }

  function CreateGate(db: Database, id: Id, name: string, custom: string, generated: string, now: Time)
    : Result<Database, Error>
  {
    InsertGate(db, id, GateToken(name, if custom == "" then generated else custom, true, 0, 0, now))
  }

  /** Reactivation clears the failure count; deactivation keeps it. */
  function SetRealActive(db: Database, id: Id, active: bool): Result<Database, Error> {
    if id !in db.reals then Err(NoRows)
    else
      var t := db.reals[id];
      Ok(db.(reals := db.reals[id := t.(isActive := active, failureCount := if active then 0 else t.failureCount)]))
  }

  function SetGateActive(db: Database, id: Id, active: bool): Result<Database, Error> {
    if id !in db.gates then Err(NoRows)
    else Ok(db.(gates := db.gates[id := db.gates[id].(isActive := active)]))
  }

  /** No error when no row matches: the rows-affected count is not looked at. */
  function IncrementFailure(db: Database, id: Id): Database {
    if id !in db.reals then db
    else db.(reals := db.reals[id := db.reals[id].(failureCount := db.reals[id].failureCount + 1)])
  }

  function AddRealUsage(db: Database, id: Id, input: int, output: int): Database {
    if id !in db.reals then db
    else
      var t := db.reals[id];
      db.(reals := db.reals[id := t.(totalInput := t.totalInput + input, totalOutput := t.totalOutput + output)])
  }

  function AddGateUsage(db: Database, id: Id, input: int, output: int): Database {
    if id !in db.gates then db
    else
      var t := db.gates[id];
      db.(gates := db.gates[id := t.(totalInput := t.totalInput + input, totalOutput := t.totalOutput + output)])
  }

  // -------------------------------------------------------------- usage logs

  /** The two REFERENCES clauses of usage_logs. */
  predicate References(db: Database, l: UsageLog) {
    l.gateId in db.gates && l.realId in db.reals
  }

  function InsertLog(db: Database, l: UsageLog, now: Time): Result<Database, Error> {
    if References(db, l)
    then Ok(db.(logs := db.logs + [LogRow(db.nextLogId, l, now)], nextLogId := db.nextLogId + 1))
    else Err(Constraint)
  }

  /** The committed effect of inserting a whole batch. */
  function WithLogs(db: Database, ls: seq<UsageLog>, now: Time): Database {
    db.(logs := db.logs + seq(|ls|, i requires 0 <= i < |ls| => LogRow(db.nextLogId + i, ls[i], now)),
        nextLogId := db.nextLogId + |ls|)
  }

  predicate AllReference(db: Database, ls: seq<UsageLog>) {
    forall i :: 0 <= i < |ls| ==> References(db, ls[i])
  }

  /** InsertUsageLogs seen from outside: every row or none. */
  function InsertBatch(db: Database, ls: seq<UsageLog>, now: Time, faulty: bool): Result<Database, Error> {
    if ls == [] then Ok(db)
    else if faulty then Err(Fault)
    else if AllReference(db, ls) then Ok(WithLogs(db, ls, now))
    else Err(Constraint)
  }

  // ---------------------------------------------------------- sticky sessions

  function UpsertSticky(db: Database, gateId: Id, realId: Id, expiresAt: Time): Result<Database, Error> {
    if gateId in db.gates && realId in db.reals
    then Ok(db.(sticky := db.sticky[gateId := StickySession(realId, expiresAt)]))
    else Err(Constraint)
  }

  function DeleteSticky(db: Database, gateId: Id): Database {
    db.(sticky := db.sticky - {gateId})
  }

  /** How SQLite compares the stored text of a time with datetime('now'): true
      when it takes `expiresAt` to be later than `now`. */
  type LaterThan = (Time, Time) -> bool

  /** The comparison may be coarse, but never takes an unexpired row to be expired. */
  ghost predicate NeverHides(later: LaterThan) {
    forall expiresAt, now :: expiresAt > now ==> later(expiresAt, now)
  }

  function GetSticky(db: Database, later: LaterThan, gateId: Id, now: Time): Option<StickySession> {
    if gateId in db.sticky && later(db.sticky[gateId].expiresAt, now) then Some(db.sticky[gateId]) else None
  }

  function DeleteExpired(db: Database, later: LaterThan, now: Time): Database {
    db.(sticky := map g | g in db.sticky && later(db.sticky[g].expiresAt, now) :: db.sticky[g])
  }

  // ----------------------------------------------------- the cascading delete

  function DeleteSessionsOf(db: Database, c: Column, id: Id): Database {
    db.(sticky := map g | g in db.sticky && KeyOf(c, g, db.sticky[g].realId) != id :: db.sticky[g])
  }

  function Without(rows: seq<LogRow>, c: Column, id: Id): seq<LogRow> {
    if rows == [] then []
    else (if LogKey(c, rows[0].log) == id then [] else [rows[0]]) + Without(rows[1..], c, id)
  }

  function DeleteLogsOf(db: Database, c: Column, id: Id): Database {
    db.(logs := Without(db.logs, c, id))
  }

  /** Some usage log or sticky session still names the token. */
  predicate Referenced(db: Database, c: Column, id: Id) {
    || (exists i :: 0 <= i < |db.logs| && LogKey(c, db.logs[i].log) == id)
    || (exists g :: g in db.sticky && KeyOf(c, g, db.sticky[g].realId) == id)
  }

  function DropRow(db: Database, c: Column, id: Id): Database {
    if c.GateTokenId? then db.(gates := db.gates - {id}) else db.(reals := db.reals - {id})
  }

  /** DELETE of the parent row, with foreign keys enforced: the new database and the rows affected. */
  function DeleteToken(db: Database, c: Column, id: Id): Result<(Database, nat), Error> {
    if id !in TableKeys(db, c) then Ok((db, 0))
    else if Referenced(db, c, id) then Err(Constraint)
    else Ok((DropRow(db, c, id), 1))
  }

  /** DeleteRealToken and DeleteGateToken seen from outside. */
  function DeleteCascade(db: Database, c: Column, id: Id, faulty: bool): Result<Database, Error> {
    if faulty then Err(Fault)
    else if id !in TableKeys(db, c) then Err(NoRows)
    else Ok(DropRow(DeleteLogsOf(DeleteSessionsOf(db, c, id), c, id), c, id))
  }
}
