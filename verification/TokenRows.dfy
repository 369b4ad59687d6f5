/** What the operations on the store do to its rows, said without their statements: a token's row
    after any run is what the operations that name the token made of it, and every operation
    leaves alone what it does not name. */
module TokenRows {
  import opened Database
  import opened Integrity

  /** The operation takes the token out of its table. */
  predicate Drops(op: Op, c: Column, id: Id) {
    op.DeleteOp? && op.column == c && op.id == id && !op.faulty
  }

  /** It puts the token into its table, if it succeeds. */
  predicate Creates(op: Op, c: Column, id: Id) {
    (op.CreateRealOp? && c.RealTokenId? && op.id == id) || (op.CreateGateOp? && c.GateTokenId? && op.id == id)
  }

  ghost predicate Kept(ops: seq<Op>, c: Column, id: Id) {
    forall i :: 0 <= i < |ops| ==> !Drops(ops[i], c, id)
  }

  // --------------------------------------------------- what a run makes of one row

  predicate Switches(op: Op, c: Column, id: Id) {
    if c.RealTokenId? then op.SetRealActiveOp? && op.id == id else op.SetGateActiveOp? && op.id == id
  }

  /** The flag of the last switch of the token; what it was before, if there is none. */
  function LastSwitch(ops: seq<Op>, c: Column, id: Id, before: bool): bool {
    if ops == [] then before
    else
      var last := ops[|ops| - 1];
      if Switches(last, c, id) then last.active else LastSwitch(ops[..|ops| - 1], c, id, before)
  }

  /** The failures counted since the last reactivation; all of them, and those before, if there is none. */
  function Failures(ops: seq<Op>, id: Id, before: int): int {
    if ops == [] then before
    else
      var last, init := ops[|ops| - 1], ops[..|ops| - 1];
      if Switches(last, RealTokenId, id) && last.active then 0
      else if last.IncrementFailureOp? && last.id == id then Failures(init, id, before) + 1
      else Failures(init, id, before)
  }

  predicate AddsTo(op: Op, c: Column, id: Id) {
    if c.RealTokenId? then op.AddRealUsageOp? && op.id == id else op.AddGateUsageOp? && op.id == id
  }

  function AddedInput(ops: seq<Op>, c: Column, id: Id): int {
    if ops == [] then 0
    else
      var last := ops[|ops| - 1];
      AddedInput(ops[..|ops| - 1], c, id) + if AddsTo(last, c, id) then last.input else 0
  }

  function AddedOutput(ops: seq<Op>, c: Column, id: Id): int {
    if ops == [] then 0
    else
      var last := ops[|ops| - 1];
      AddedOutput(ops[..|ops| - 1], c, id) + if AddsTo(last, c, id) then last.output else 0
  }

  lemma RunSnoc(db: Database, ops: seq<Op>)
    requires ops != []
    ensures Run(db, ops) == Apply(Run(db, ops[..|ops| - 1]), ops[|ops| - 1])
  {
    var init, last := ops[..|ops| - 1], ops[|ops| - 1];
    RunAppends(db, init, [last]);
    assert init + [last] == ops && [last][1..] == [];
  }

  lemma RealRowStep(db: Database, op: Op, id: Id)
    requires id in db.reals && !Drops(op, RealTokenId, id)
    ensures id in Apply(db, op).reals
    ensures var r, r' := db.reals[id], Apply(db, op).reals[id];
      && r'.name == r.name && r'.accessToken == r.accessToken && r'.refreshToken == r.refreshToken
      && r'.createdAt == r.createdAt
      && r'.isActive == (if Switches(op, RealTokenId, id) then op.active else r.isActive)
      && r'.failureCount == (if Switches(op, RealTokenId, id) && op.active then 0
                             else if op.IncrementFailureOp? && op.id == id then r.failureCount + 1
                             else r.failureCount)
      && r'.totalInput == r.totalInput + (if AddsTo(op, RealTokenId, id) then op.input else 0)
      && r'.totalOutput == r.totalOutput + (if AddsTo(op, RealTokenId, id) then op.output else 0)
  {
  }

  /** A real token's row after any run that does not delete it: switched as the last switch of it
      said, with the failures of its own since its last reactivation, its own usage added to its
      totals, and its name, its tokens and its time of creation as they were. */
  lemma {:induction false} RealRowIsItsHistory(db: Database, ops: seq<Op>, id: Id)
    requires id in db.reals && Kept(ops, RealTokenId, id)
    ensures id in Run(db, ops).reals
    ensures var r := db.reals[id];
      Run(db, ops).reals[id] ==
        RealToken(r.name, r.accessToken, r.refreshToken,
                  LastSwitch(ops, RealTokenId, id, r.isActive), Failures(ops, id, r.failureCount),
                  r.totalInput + AddedInput(ops, RealTokenId, id),
                  r.totalOutput + AddedOutput(ops, RealTokenId, id), r.createdAt)
  {
    if ops != [] {
      var init := ops[..|ops| - 1];
      assert forall i :: 0 <= i < |init| ==> init[i] == ops[i];
      RealRowIsItsHistory(db, init, id);
      RunSnoc(db, ops);
      RealRowStep(Run(db, init), ops[|ops| - 1], id);
    }
  }

  lemma GateRowStep(db: Database, op: Op, id: Id)
    requires id in db.gates && !Drops(op, GateTokenId, id)
    ensures id in Apply(db, op).gates
    ensures var g, g' := db.gates[id], Apply(db, op).gates[id];
      && g'.name == g.name && g'.token == g.token && g'.createdAt == g.createdAt
      && g'.isActive == (if Switches(op, GateTokenId, id) then op.active else g.isActive)
      && g'.totalInput == g.totalInput + (if AddsTo(op, GateTokenId, id) then op.input else 0)
      && g'.totalOutput == g.totalOutput + (if AddsTo(op, GateTokenId, id) then op.output else 0)
  {
  }

  /** And so a gate token's. */
  lemma {:induction false} GateRowIsItsHistory(db: Database, ops: seq<Op>, id: Id)
    requires id in db.gates && Kept(ops, GateTokenId, id)
    ensures id in Run(db, ops).gates
    ensures var g := db.gates[id];
      Run(db, ops).gates[id] ==
        GateToken(g.name, g.token, LastSwitch(ops, GateTokenId, id, g.isActive),
                  g.totalInput + AddedInput(ops, GateTokenId, id),
                  g.totalOutput + AddedOutput(ops, GateTokenId, id), g.createdAt)
  {
    if ops != [] {
      var init := ops[..|ops| - 1];
      assert forall i :: 0 <= i < |init| ==> init[i] == ops[i];
      GateRowIsItsHistory(db, init, id);
      RunSnoc(db, ops);
      GateRowStep(Run(db, init), ops[|ops| - 1], id);
    }
  }

  // ------------------------------------------------------- which rows come and go

  /** Tokens come by their own creation and go by their own deletion only. */
  lemma TokensComeAndGo(db: Database, op: Op, c: Column, id: Id)
    ensures id in TableKeys(Apply(db, op), c) <==>
      (id in TableKeys(db, c) && !Drops(op, c, id)) || (Creates(op, c, id) && Succeeds(db, op))
  {
  }

  /** A real token is created exactly when its id and its access token are new: active, without
      failures or usage. */
  lemma RealIsCreated(db: Database, id: Id, name: string, access: string, refresh: string, now: Time)
    ensures var op := CreateRealOp(id, name, access, refresh, now);
      && (Succeeds(db, op) <==> id !in db.reals && forall r :: r in db.reals ==> db.reals[r].accessToken != access)
      && (if Succeeds(db, op) then
            var after := Apply(db, op);
            && id in after.reals && after.reals[id] == RealToken(name, access, refresh, true, 0, 0, 0, now)
            && after.reals - {id} == db.reals && after.(reals := db.reals) == db
          else Apply(db, op) == db)
  {
    var op := CreateRealOp(id, name, access, refresh, now);
    if Succeeds(db, op) {
      assert Apply(db, op).reals - {id} == db.reals;
    }
  }

  /** Only inserts and deletes change the logs; an insert appends its rows, with the next ids and the
      time of insertion, or nothing. */
  lemma LogsAfter(db: Database, op: Op)
    ensures op.InsertBatchOp? && !op.faulty && AllReference(db, op.batch) ==>
      var after := Apply(db, op);
      && |after.logs| == |db.logs| + |op.batch| && db.logs <= after.logs
      && after.nextLogId == db.nextLogId + |op.batch|
      && (forall i :: 0 <= i < |op.batch| ==>
            after.logs[|db.logs| + i] == LogRow(db.nextLogId + i, op.batch[i], op.now))
      && after.(logs := db.logs, nextLogId := db.nextLogId) == db
    ensures !op.DeleteOp? && !(op.InsertBatchOp? && !op.faulty && AllReference(db, op.batch)) ==>
      Apply(db, op).logs == db.logs && Apply(db, op).nextLogId == db.nextLogId
  {
  }

  /** A gate's session after one operation. */
  lemma SessionAfter(db: Database, op: Op, g: Id)
    requires !op.DeleteOp?
    ensures var before, after := db.sticky, Apply(db, op).sticky;
      if op.UpsertStickyOp? && op.gateId == g && g in db.gates && op.realId in db.reals then
        g in after && after[g] == StickySession(op.realId, op.expiresAt)
      else if (op.DeleteStickyOp? && op.gateId == g) ||
              (op.DeleteExpiredOp? && g in before && !op.later(before[g].expiresAt, op.now)) then
        g !in after
      else (g in after <==> g in before) && (g in before ==> after[g] == before[g])
  {
  }
}
