/** The StickyManager and Manager objects: their methods compute what Affinity and
    PoolProtocol say, on the store, the cache, the pool and the refresh timer in place. */
module ManagerObject {
  import opened Prelude
  import opened Database
  import opened Integrity
  import opened StoreObject
  import opened TokenPoolObject
  import opened Affinity
  import P = PoolProtocol

  class StickyManager {
    const store: Store
    const later: LaterThan
    var cache: Cache

    constructor (store: Store, later: LaterThan)
      ensures this.store == store && this.later == later && cache == map[]
    {
      this.store, this.later, cache := store, later, map[];
    }

    /** Resolve: cache first, then the table; a hit in the table fills the cache for the time left. */
    method Resolve(gateId: Id, now: Time, extended: Time, readFails: bool) returns (r: Option<Id>)
      modifies this`cache
      ensures (r, cache) == ResolveSticky(old(cache), store.db, later, gateId, now, extended, readFails)
    {
      var hit := CacheGet(cache, gateId, now);
      if hit.Some? {
        cache := Touch(cache, gateId, extended);
        return hit;
      }
      if readFails {
        return None;
      }
      var row := GetSticky(store.db, later, gateId, now);
      if row.None? {
        return None;
      }
      var ttl := row.value.expiresAt - now;
      if ttl <= 0 {
        return None;
      }
      cache := cache[gateId := CacheItem(row.value.realId, now + ttl)];
      return Some(row.value.realId);
    }

    /** Bind: the table, and the cache only if the table took it. */
    method Bind(gateId: Id, realId: Id, ttl: Ttl, now: Time, writeFails: bool) returns (ok: bool)
      modifies this`cache, store
      ensures ok <==> !writeFails && gateId in old(store.db).gates && realId in old(store.db).reals
      ensures Bound(store.db, cache) == Affinity.Bind(old(store.db), old(cache), gateId, realId, ttl, now, writeFails)
    {
      ok := store.Upsert(gateId, realId, now + ttl, writeFails);
      if ok {
        cache := cache[gateId := CacheItem(realId, now + ttl)];
      }
    }

    /** One tick of dbCleanupLoop. */
    method CleanUp(now: Time, faulty: bool)
      modifies store
      ensures store.db == if faulty then old(store.db) else DeleteExpired(old(store.db), later, now)
    {
      var _ := store.Exec(DeleteExpiredOp(later, now), faulty);
    }
  }

  datatype TimerStatus = Armed | Fired | Stopped

  /** A timer that has fired cannot be stopped. */
  function StatusAfterStop(status: TimerStatus): TimerStatus {
    if status == Armed then Stopped else status
  }

  /** A time.AfterFunc timer. */
  class RefreshTimer {
    var status: TimerStatus

    constructor ()
      ensures status == Armed
    {
      status := Armed;
    }

    /** Stop: no effect once the timer has fired. */
    method Stop()
      modifies this
      ensures status == StatusAfterStop(old(status))
    {
      if status == Armed {
        status := Stopped;
      }
    }

    /** The delay is over; a stopped timer never fires. */
    method Fire() returns (fired: bool)
      modifies this
      ensures fired <==> old(status) == Armed
      ensures status == if fired then Fired else old(status)
    {
      fired := status == Armed;
      if fired {
        status := Fired;
      }
    }
  }

  /** One uninterrupted RecordFailure on the database.  Call number failAt fails, if it is made:
      the increment is 0, the read 1, the deactivation 2. */
  function FailureRecorded(db: Database, maxFailures: int, id: Id, failAt: nat): Database {
    if failAt == 0 then db
    else
      var counted := IncrementFailure(db, id);
      if failAt > 2 && id in counted.reals && counted.reals[id].failureCount >= maxFailures
      then Commit(counted, SetRealActive(counted, id, false))
      else counted
  }

  /** The protocol's steps of one call taken in a row, up to the one that fails. */
  function StepsInARow(s: P.State, maxFailures: int, c: P.CallId, id: Id, failAt: nat): P.State {
    if failAt == 0 then s
    else
      var counted := P.DoIncrement(s, c, id);
      if failAt == 1 then P.DoFail(counted, c)
      else
        var read := P.DoReadCount(counted, maxFailures, c);
        if failAt == 2 && c in read.calls && read.calls[c].Deactivating? then P.DoFail(read, c)
        else P.DoDeactivate(read, c)
  }

  /** An uninterrupted call leaves the database that those steps leave, and is about to schedule
      a refresh exactly when no step failed and the row was there. */
  lemma RecordFailureIsProtocol(s: P.State, maxFailures: int, c: P.CallId, id: Id, failAt: nat)
    requires c !in s.calls
    ensures var after := StepsInARow(s, maxFailures, c, id, failAt);
      && after.db == FailureRecorded(s.db, maxFailures, id, failAt)
      && (c in after.calls ==> after.calls[c] == P.Notifying)
      && (c in after.calls <==> (failAt > 1 && id in s.db.reals &&
                                 !(failAt == 2 && s.db.reals[id].failureCount + 1 >= maxFailures)))
  {
    var s1 := P.DoIncrement(s, c, id);
    var s2 := P.DoReadCount(s1, maxFailures, c);
    assert s2.db == s1.db && (c in s2.calls <==> id in s.db.reals);
  }

  // ------------------------------------------------ the pool as the protocol sees it

  /** The ids and access tokens of a listing. */
  function ListingOf(rows: seq<Row>): P.Listing {
    if rows == [] then map[]
    else
      var last := rows[|rows| - 1];
      ListingOf(rows[..|rows| - 1])[last.0 := last.1.accessToken]
  }

  lemma {:induction false} ListingOfRows(rows: seq<Row>, db: Database)
    requires forall i :: 0 <= i < |rows| ==> rows[i].0 in db.reals && rows[i].1 == db.reals[rows[i].0]
    ensures forall id :: id in ListingOf(rows) <==> Listed(rows, id)
    ensures forall id :: id in ListingOf(rows) ==> id in db.reals && ListingOf(rows)[id] == db.reals[id].accessToken
  {
    if rows != [] {
      var init := rows[..|rows| - 1];
      ListingOfRows(init, db);
      forall id
        ensures Listed(rows, id) <==> Listed(init, id) || id == rows[|rows| - 1].0
      {
        ListedSplits(rows, id);
      }
    }
  }

  lemma ListedSplits(rows: seq<Row>, id: Id)
    requires rows != []
    ensures Listed(rows, id) <==> Listed(rows[..|rows| - 1], id) || id == rows[|rows| - 1].0
  {
    var init := rows[..|rows| - 1];
    if Listed(init, id) {
      var i :| 0 <= i < |init| && init[i].0 == id;
      assert rows[i].0 == id;
    }
    if Listed(rows, id) && id != rows[|rows| - 1].0 {
      var i :| 0 <= i < |rows| && rows[i].0 == id;
      assert init[i].0 == id;
    }
  }

  /** What the query lists is what the protocol's load reads. */
  lemma ListsActiveIsEligible(rows: seq<Row>, db: Database, maxFailures: int)
    requires ListsActive(rows, db, maxFailures)
    ensures ListingOf(rows) == P.EligibleListing(db, maxFailures)
  {
    ListingOfRows(rows, db);
    forall id | id in ListingOf(rows)
      ensures Eligible(db, maxFailures, id)
    {
      var i :| 0 <= i < |rows| && rows[i].0 == id;
    }
  }

  class Manager {
    const pool: TokenPool
    const sticky: StickyManager
    const store: Store
    const ttl: Ttl
    const maxFailures: int
    var refreshTimer: RefreshTimer?

    ghost predicate Valid()
      reads this, pool
    {
      pool.Valid() && pool.store == store && sticky.store == store && pool.maxFailures == maxFailures
    }

    ghost function View(now: Time): System
      reads this, store, sticky, pool
    {
      System(now, store.db, sticky.cache, pool.tokens, pool.counter)
    }

    constructor (store: Store, later: LaterThan, ttl: Ttl, maxFailures: int)
      ensures Valid() && this.store == store && this.ttl == ttl && this.maxFailures == maxFailures
      ensures fresh(pool) && fresh(sticky) && refreshTimer == null && sticky.later == later
      ensures forall now :: View(now) == System(now, store.db, map[], [], 0)
    {
      this.store, this.ttl, this.maxFailures := store, ttl, maxFailures;
      pool := new TokenPool(store, maxFailures);
      sticky := new StickyManager(store, later);
      refreshTimer := null;
    }

    method ResolveToken(gateId: Id, now: Time, extended: Time, readFails: bool, writeFails: bool)
      returns (r: Option<Row>)
      requires Valid()
      modifies store, sticky`cache, pool`counter
      ensures Valid()
      ensures Outcome(r, View(now)) ==
        Affinity.ResolveToken(old(View(now)), Config(sticky.later, ttl), gateId, extended, readFails, writeFails)
    {
      var bound := sticky.Resolve(gateId, now, extended, readFails);
      if bound.Some? {
        var t := pool.GetByID(bound.value);
        if t.Some? {
          return t;
        }
      }
      r := pool.Select(None);
      if r.None? {
        return;
      }
      var _ := sticky.Bind(gateId, r.value.0, ttl, now, writeFails);
    }

    /** The timer in the field is the protocol's current one, armed or not. */
    ghost predicate TimerStands(s: P.State)
      reads this, refreshTimer
    {
      && (refreshTimer == null <==> s.current.None?)
      && (refreshTimer != null ==>
            (refreshTimer.status == Armed <==> s.current.value in s.timers && s.timers[s.current.value] == P.Armed))
    }

    /** RefreshPool is the protocol's. */
    method RefreshPoolStep(ghost s: P.State)
      requires TimerStands(s)
      modifies this`refreshTimer, refreshTimer
      ensures TimerStands(P.RefreshPool(s))
      ensures old(refreshTimer) != null && s.current.value in s.timers && s.current.value != s.nextTimer ==>
        (s.current.value !in P.RefreshPool(s).timers <==> old(refreshTimer.status) == Armed)
    {
      RefreshPool();
    }

    /** The delay of the timer in the field is over: it fires exactly when the protocol's step is enabled. */
    method FireStep(ghost s: P.State) returns (fired: bool)
      requires TimerStands(s) && refreshTimer != null
      modifies refreshTimer
      ensures fired <==> P.DoFire(s, s.current.value) != s
      ensures TimerStands(P.DoFire(s, s.current.value))
    {
      fired := refreshTimer.Fire();
      assert fired ==> P.DoFire(s, s.current.value).timers[s.current.value] == P.Fired;
    }

    /** Stops the pending timer, if it is still pending, and arms a new one. */
    method RefreshPool()
      modifies this`refreshTimer, refreshTimer
      ensures refreshTimer != null && fresh(refreshTimer) && refreshTimer.status == Armed
      ensures old(refreshTimer) != null ==>
        old(refreshTimer).status == StatusAfterStop(old(refreshTimer.status))
    {
      if refreshTimer != null {
        refreshTimer.Stop();
      }
      refreshTimer := new RefreshTimer();
    }

    /** The timer's callback. */
    method OnTimer(faulty: bool)
      requires Valid()
      modifies pool`tokens
      ensures Valid()
      ensures if faulty then pool.tokens == old(pool.tokens) else ListsActive(pool.tokens, store.db, maxFailures)
      ensures !faulty ==> ListingOf(pool.tokens) == P.EligibleListing(store.db, maxFailures)
    {
      var ok := pool.Refresh(faulty);
      if ok {
        ListsActiveIsEligible(pool.tokens, store.db, maxFailures);
      }
    }

    /** RecordFailure by itself.  An error at any step returns at once, without a refresh. */
    method RecordFailure(id: Id, failAt: nat) returns (ok: bool)
      requires Valid()
      modifies store, this`refreshTimer, refreshTimer
      ensures Valid()
      ensures store.db == FailureRecorded(old(store.db), maxFailures, id, failAt)
      ensures ok <==> (failAt > 1 && id in old(store.db).reals &&
        !(failAt == 2 && old(store.db).reals[id].failureCount + 1 >= maxFailures))
      ensures ok ==> refreshTimer != null && fresh(refreshTimer) && refreshTimer.status == Armed
      ensures !ok ==> refreshTimer == old(refreshTimer)
      ensures old(refreshTimer) != null ==>
        old(refreshTimer).status == if ok then StatusAfterStop(old(refreshTimer.status)) else old(refreshTimer.status)
    {
      var done := Increment(id, failAt == 0);
      if !done {
        return false;
      }
      if failAt == 1 || id !in store.db.reals {
        return false;                              // GetRealToken failed
      }
      if store.db.reals[id].failureCount >= maxFailures {
        done := SwitchOff(id, failAt == 2);
        if !done {
          return false;
        }
      }
      RefreshPool();
      return true;
    }

    method Increment(id: Id, faulty: bool) returns (ok: bool)
      modifies store
      ensures ok == !faulty && store.db == if faulty then old(store.db) else IncrementFailure(old(store.db), id)
    {
      ok := store.Exec(IncrementFailureOp(id), faulty);
    }

    method SwitchOff(id: Id, faulty: bool) returns (ok: bool)
      modifies store
      ensures ok == (!faulty && id in old(store.db).reals)
      ensures store.db ==
        if faulty then old(store.db) else Commit(old(store.db), SetRealActive(old(store.db), id, false))
    {
      ok := store.Exec(SetRealActiveOp(id, false), faulty);
    }
  }

  datatype Status = Created | Done | NotFound | ServerError

  class AdminHandler {
    const store: Store
    const manager: Manager

    constructor (store: Store, manager: Manager)
      ensures this.store == store && this.manager == manager
    {
      this.store, this.manager := store, manager;
    }

    /** setTokenActive: onPoolChanged comes after the mutation, for real tokens, on success only. */
    method SetTokenActive(c: Column, id: Id, active: bool, faulty: bool) returns (status: Status)
      modifies store, manager`refreshTimer, manager.refreshTimer
      ensures var op := if c.RealTokenId? then SetRealActiveOp(id, active) else SetGateActiveOp(id, active);
        && status == (if faulty then ServerError else if id in TableKeys(old(store.db), c) then Done else NotFound)
        && store.db == if status == Done then Apply(old(store.db), op) else old(store.db)
      ensures if status == Done && c.RealTokenId?
        then manager.refreshTimer != null && fresh(manager.refreshTimer) && manager.refreshTimer.status == Armed
        else manager.refreshTimer == old(manager.refreshTimer)
      ensures old(manager.refreshTimer) != null ==>
        var before := old(manager.refreshTimer.status);
        old(manager.refreshTimer).status == if status == Done && c.RealTokenId? then StatusAfterStop(before) else before
    {
      var op := if c.RealTokenId? then SetRealActiveOp(id, active) else SetGateActiveOp(id, active);
      var ok := store.Exec(op, faulty);
      if !ok {
        return if faulty then ServerError else NotFound;
      }
      if c.RealTokenId? {
        manager.RefreshPool();
      }
      return Done;
    }

    /** deleteToken. */
    method DeleteToken(c: Column, id: Id, failAt: nat) returns (status: Status)
      modifies store, manager`refreshTimer, manager.refreshTimer
      ensures status ==
        if failAt > 5 && id in TableKeys(old(store.db), c) then Done
        else if failAt >= 5 && id !in TableKeys(old(store.db), c) then NotFound
        else ServerError
      ensures store.db == Apply(old(store.db), DeleteOp(c, id, status != Done))
      ensures if status == Done && c.RealTokenId?
        then manager.refreshTimer != null && fresh(manager.refreshTimer) && manager.refreshTimer.status == Armed
        else manager.refreshTimer == old(manager.refreshTimer)
      ensures old(manager.refreshTimer) != null ==>
        var before := old(manager.refreshTimer.status);
        old(manager.refreshTimer).status == if status == Done && c.RealTokenId? then StatusAfterStop(before) else before
    {
      var r := store.Delete(c, id, failAt);
      if r.Err? {
        return if r.error == NoRows then NotFound else ServerError;
      }
      if c.RealTokenId? {
        manager.RefreshPool();
      }
      return Done;
    }

    /** createRealToken, after the request has been checked. */
    method CreateRealToken(id: Id, name: string, access: string, refresh: string, now: Time, faulty: bool)
      returns (status: Status)
      modifies store, manager`refreshTimer, manager.refreshTimer
      ensures var op := CreateRealOp(id, name, access, refresh, now);
        && status == (if !faulty && Succeeds(old(store.db), op) then Created else ServerError)
        && store.db == if status == Created then Apply(old(store.db), op) else old(store.db)
      ensures if status == Created
        then manager.refreshTimer != null && fresh(manager.refreshTimer) && manager.refreshTimer.status == Armed
        else manager.refreshTimer == old(manager.refreshTimer)
      ensures old(manager.refreshTimer) != null ==>
        var before := old(manager.refreshTimer.status);
        old(manager.refreshTimer).status == if status == Created then StatusAfterStop(before) else before
    {
      var ok := store.Exec(CreateRealOp(id, name, access, refresh, now), faulty);
      if !ok {
        return ServerError;
      }
      manager.RefreshPool();
      return Created;
    }
  }
}
