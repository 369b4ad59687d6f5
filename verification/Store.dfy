/** The Store object: its statements change the committed database in place, its
    transactions work on a copy that Commit installs and Rollback forgets. */
module StoreObject {
  import opened Prelude
  import opened Database
  import opened Integrity

  class Store {
    var db: Database

    constructor ()
      ensures db == Run(Empty(), [])
    {
      db := Empty();
    }

    /** A single statement outside a transaction: commits by itself, or fails and changes nothing. */
    method Exec(op: Op, faulty: bool) returns (ok: bool)
      requires !op.InsertBatchOp? && !op.DeleteOp?
      modifies this
      ensures db == if faulty then old(db) else Apply(old(db), op)
      ensures ok <==> !faulty && Succeeds(old(db), op)
    {
      if faulty {
        return false;
      }
      ok := true;
      match op
      case CreateRealOp(id, name, access, refresh, now) =>
        ok := Install(CreateReal(db, id, name, access, refresh, now));
      case CreateGateOp(id, name, custom, generated, now) =>
        ok := Install(CreateGate(db, id, name, custom, generated, now));
      case SetRealActiveOp(id, active) => ok := Install(SetRealActive(db, id, active));
      case SetGateActiveOp(id, active) => ok := Install(SetGateActive(db, id, active));
      case IncrementFailureOp(id) => db := IncrementFailure(db, id);
      case AddRealUsageOp(id, input, output) => db := AddRealUsage(db, id, input, output);
      case AddGateUsageOp(id, input, output) => db := AddGateUsage(db, id, input, output);
      case UpsertStickyOp(g, r, expiresAt) => ok := Install(UpsertSticky(db, g, r, expiresAt));
      case DeleteStickyOp(g) => db := DeleteSticky(db, g);
      case DeleteExpiredOp(later, now) => db := DeleteExpired(db, later, now);
    }

    /** UpsertStickySession. */
    method Upsert(gateId: Id, realId: Id, expiresAt: Time, faulty: bool) returns (ok: bool)
      modifies this
      ensures ok <==> !faulty && gateId in old(db).gates && realId in old(db).reals
      ensures db == if ok then Commit(old(db), UpsertSticky(old(db), gateId, realId, expiresAt)) else old(db)
    {
      ok := Exec(UpsertStickyOp(gateId, realId, expiresAt), faulty);
    }

    method Install(r: Result<Database, Error>) returns (ok: bool)
      modifies this
      ensures db == Commit(old(db), r) && (ok <==> r.Ok?)
    {
      ok := r.Ok?;
      if ok {
        db := r.value;
      }
    }

    /** withTx around cascadeDelete.  The database call numbered `failAt` fails, if there is
        such a call: begin 0, the three deletes 1 to 3, the row count 4, commit 5. */
    method Delete(c: Column, id: Id, failAt: nat) returns (r: Result<(), Error>)
      modifies this
      ensures r.Ok? <==> failAt > 5 && id in TableKeys(old(db), c)
      ensures r.Err? ==> r.error == if failAt >= 5 && id !in TableKeys(old(db), c) then NoRows else Fault
      ensures db == Apply(old(db), DeleteOp(c, id, r.Err?))
    {
      if failAt == 0 {
        return Err(Fault);
      }
      var work, affected;
      r, work, affected := CascadeDelete(db, c, id, failAt);
      if r.Err? {
        return;                   // Rollback: the working copy is dropped
      }
      if failAt == 5 {
        return Err(Fault);
      }
      db := work;
    }

    /** The three deletes inside the transaction; foreign keys are enforced at each. */
    method CascadeDelete(start: Database, c: Column, id: Id, failAt: nat)
      returns (r: Result<(), Error>, work: Database, affected: nat)
      ensures r.Ok? <==> !(1 <= failAt <= 4) && id in TableKeys(start, c)
      ensures r.Err? ==> r.error == if 1 <= failAt <= 4 then Fault else NoRows
      ensures r.Ok? ==> Ok(work) == DeleteCascade(start, c, id, false) && affected == 1
    {
      work, affected := start, 0;
      if failAt == 1 {
        return Err(Fault), work, affected;
      }
      work := DeleteSessionsOf(work, c, id);
      if failAt == 2 {
        return Err(Fault), work, affected;
      }
      work := DeleteLogsOf(work, c, id);
      if failAt == 3 {
        return Err(Fault), work, affected;
      }
      CascadeClearsReferences(start, c, id);
      match DeleteToken(work, c, id)
      case Err(e) =>
        return Err(e), work, affected;
      case Ok(after) =>
        work, affected := after.0, after.1;
        if failAt == 4 {
          return Err(Fault), work, affected;
        }
        if affected == 0 {
          return Err(NoRows), work, affected;
        }
        r := Ok(());
    }

    /** InsertUsageLogs.  Begin is call 0, Prepare 1, the insert of row i is 2 + i, Commit comes last. */
    method InsertUsageLogs(ls: seq<UsageLog>, now: Time, failAt: nat) returns (ok: bool)
      modifies this
      ensures ok <==> ls == [] || (failAt > |ls| + 2 && AllReference(old(db), ls))
      ensures db == Apply(old(db), InsertBatchOp(ls, now, !ok))
    {
      if |ls| == 0 {
        return true;
      }
      if failAt <= 1 {
        return false;
      }
      var work := db;
      for i := 0 to |ls|
        invariant AllReference(db, ls[..i]) && failAt >= i + 2
        invariant work == WithLogs(db, ls[..i], now)
      {
        assert ls[..i + 1] == ls[..i] + [ls[i]];
        if failAt == i + 2 {
          return false;
        }
        match InsertLog(work, ls[i], now)
        case Err(_) =>
          assert !References(db, ls[i]);
          return false;
        case Ok(next) =>
          assert next.logs == WithLogs(db, ls[..i + 1], now).logs;
          work := next;
      }
      assert ls[..|ls|] == ls;
      if failAt == |ls| + 2 {
        return false;
      }
      db := work;
      return true;
    }

    /** The rows of ListActiveRealTokens: every eligible token once, oldest first. */
    method ListActiveRealTokens(maxFailures: int) returns (rows: seq<(Id, RealToken)>)
      ensures ListsActive(rows, db, maxFailures)
    {
      rows := [];
      var eligible := set id | id in db.reals && Eligible(db, maxFailures, id);
      var rest := eligible;
      while rest != {}
        invariant ListsOldest(rows, db, eligible, rest)
        decreases rest
      {
        OldestExists(db, rest);
        var oldest :| IsOldest(db, rest, oldest);
        ListOldest(rows, db, eligible, rest, oldest);
        rows := rows + [(oldest, db.reals[oldest])];
        rest := rest - {oldest};
      }
    }
  }

  predicate Eligible(db: Database, maxFailures: int, id: Id)
    requires id in db.reals
  {
    db.reals[id].isActive && db.reals[id].failureCount < maxFailures
  }

  ghost predicate Listed(rows: seq<(Id, RealToken)>, id: Id) {
    exists i :: 0 <= i < |rows| && rows[i].0 == id
  }

  ghost predicate ListsActive(rows: seq<(Id, RealToken)>, db: Database, maxFailures: int) {
    && (forall i :: 0 <= i < |rows| ==>
          rows[i].0 in db.reals && rows[i].1 == db.reals[rows[i].0] && Eligible(db, maxFailures, rows[i].0))
    && (forall id :: id in db.reals && Eligible(db, maxFailures, id) ==> Listed(rows, id))
    && (forall i, j :: 0 <= i < j < |rows| ==> rows[i].0 != rows[j].0 && rows[i].1.createdAt <= rows[j].1.createdAt)
  }

  predicate IsOldest(db: Database, ids: set<Id>, oldest: Id) {
    oldest in ids && oldest in db.reals &&
    forall id :: id in ids && id in db.reals ==> db.reals[oldest].createdAt <= db.reals[id].createdAt
  }

  /** The rows list the eligible tokens that are not in `rest`, each once, oldest first, and none of
      them is younger than one in `rest`. */
  ghost predicate ListsOldest(rows: seq<(Id, RealToken)>, db: Database, eligible: set<Id>, rest: set<Id>) {
    && rest <= eligible <= db.reals.Keys
    && (forall id :: id in eligible && id !in rest ==> Listed(rows, id))
    && (forall i :: 0 <= i < |rows| ==>
          rows[i].0 in eligible && rows[i].0 !in rest && rows[i].1 == db.reals[rows[i].0])
    && (forall i, j :: 0 <= i < j < |rows| ==>
          rows[i].0 != rows[j].0 && rows[i].1.createdAt <= rows[j].1.createdAt)
    && (forall i, id :: 0 <= i < |rows| && id in rest ==> rows[i].1.createdAt <= db.reals[id].createdAt)
  }

  lemma ListedLonger(rows: seq<(Id, RealToken)>, row: (Id, RealToken), id: Id)
    ensures Listed(rows + [row], id) <==> Listed(rows, id) || row.0 == id
  {
    var more := rows + [row];
    assert more[|rows|] == row;
    if Listed(rows, id) {
      var i :| 0 <= i < |rows| && rows[i].0 == id;
      assert more[i].0 == id;
    }
  }

  lemma ListOldest(rows: seq<(Id, RealToken)>, db: Database, eligible: set<Id>, rest: set<Id>, oldest: Id)
    requires ListsOldest(rows, db, eligible, rest) && IsOldest(db, rest, oldest)
    ensures ListsOldest(rows + [(oldest, db.reals[oldest])], db, eligible, rest - {oldest})
  {
    var row := (oldest, db.reals[oldest]);
    forall id | id in eligible && id !in rest - {oldest}
      ensures Listed(rows + [row], id)
    {
      ListedLonger(rows, row, id);
    }
  }

  lemma {:induction false} OldestExists(db: Database, ids: set<Id>)
    requires ids != {} && ids <= db.reals.Keys
    ensures exists oldest :: IsOldest(db, ids, oldest)
  {
    var some :| some in ids;
    var rest := ids - {some};
    if rest == {} {
      assert ids == {some};
      assert IsOldest(db, ids, some);
    } else {
      OldestExists(db, rest);
      var oldest :| IsOldest(db, rest, oldest);
      assert IsOldest(db, ids, if db.reals[some].createdAt <= db.reals[oldest].createdAt then some else oldest);
    }
  }
}
