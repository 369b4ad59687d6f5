/** Sticky sessions and token resolution as functions of the whole state: one undivided call
    each, and what it promises under any stale cache, table and pool. */
module Affinity {
  import opened Prelude
  import opened Database
  import opened RoundRobin
  import opened TokenPoolObject

  datatype CacheItem = CacheItem(realId: Id, expiresAt: Time)

  type Cache = map<Id, CacheItem>

  /** Get of the in-memory cache: an entry past its expiry is not returned. */
  function CacheGet(cache: Cache, gateId: Id, now: Time): Option<Id> {
    if gateId in cache && now < cache[gateId].expiresAt then Some(cache[gateId].realId) else None
  }

  /** A hit may extend the entry, never shorten it. */
  function Touch(cache: Cache, gateId: Id, extended: Time): Cache
    requires gateId in cache
  {
    if extended > cache[gateId].expiresAt then cache[gateId := cache[gateId].(expiresAt := extended)] else cache
  }

  /** StickyManager.Resolve: the id found, and the cache after it. */
  function ResolveSticky(cache: Cache, db: Database, later: LaterThan, gateId: Id, now: Time, extended: Time,
                         readFails: bool)
    : (Option<Id>, Cache)
  {
    var hit := CacheGet(cache, gateId, now);
    if hit.Some? then (hit, Touch(cache, gateId, extended))
    else
      var row := if readFails then None else GetSticky(db, later, gateId, now);
      if row.None? || row.value.expiresAt - now <= 0 then (None, cache)
      else (Some(row.value.realId), cache[gateId := CacheItem(row.value.realId, row.value.expiresAt)])
  }

  datatype Bound = Bound(db: Database, cache: Cache)

  /** StickyManager.Bind: table first, cache only if that succeeded. */
  function Bind(db: Database, cache: Cache, gateId: Id, realId: Id, ttl: Ttl, now: Time, writeFails: bool): Bound {
    var r := UpsertSticky(db, gateId, realId, now + ttl);
    if writeFails || r.Err? then Bound(db, cache)
    else Bound(r.value, cache[gateId := CacheItem(realId, now + ttl)])
  }

  /** Everything that token resolution reads. */
  datatype System = System(now: Time, db: Database, cache: Cache, pool: seq<Row>, counter: nat)

  type Ttl = t: int | t > 0 witness 1

  /** Parameters of the deployment. */
  datatype Config = Config(later: LaterThan, ttl: Ttl)

  datatype Outcome = Outcome(token: Option<Row>, after: System)

  /** The rest of ResolveToken, once Resolve has answered. */
  function KeepOrChoose(s: System, c: Config, gateId: Id, sticky: Option<Id>, writeFails: bool): Outcome {
    var kept := if sticky.Some? then Find(s.pool, sticky.value) else None;
    if kept.Some? then Outcome(kept, s)
    else if s.pool == [] then Outcome(None, s)
    else
      var t := RoundRobinChoice(s.pool, s.counter);
      var b := Bind(s.db, s.cache, gateId, t.0, c.ttl, s.now, writeFails);
      Outcome(Some(t), s.(db := b.db, cache := b.cache, counter := (s.counter + 1) % TWO_64))
  }

  /** ResolveToken. */
  function ResolveToken(s: System, c: Config, gateId: Id, extended: Time, readFails: bool, writeFails: bool): Outcome {
    var (sticky, cache) := ResolveSticky(s.cache, s.db, c.later, gateId, s.now, extended, readFails);
    KeepOrChoose(s.(cache := cache), c, gateId, sticky, writeFails)
  }

  // --------------------------------------------------------- safety of one call

  /** For any cache, table and pool, bindings to deleted or deactivated tokens included:
      resolution fails exactly when the pool is empty, and otherwise yields a pool member. */
  lemma ResolutionIsSafe(s: System, c: Config, gateId: Id, extended: Time, readFails: bool, writeFails: bool)
    ensures var o := ResolveToken(s, c, gateId, extended, readFails, writeFails);
      && (o.token.None? <==> s.pool == [])
      && (o.token.Some? ==> o.token.value in s.pool)
      && o.after.pool == s.pool && o.after.now == s.now
  {
  }

  /** On a cache miss the table yields a binding exactly when its row has not expired, to the
      instant, although the query's own comparison is coarser. */
  lemma FallbackIsExact(s: System, c: Config, gateId: Id, extended: Time)
    requires NeverHides(c.later) && CacheGet(s.cache, gateId, s.now).None?
    ensures var r := ResolveSticky(s.cache, s.db, c.later, gateId, s.now, extended, false);
      && (r.0.Some? <==> gateId in s.db.sticky && s.now < s.db.sticky[gateId].expiresAt)
      && (r.0.Some? ==> r.0.value == s.db.sticky[gateId].realId)
  {
  }

  /** The cache has an entry of the gate that has not expired. */
  predicate EntryLasts(s: System, gateId: Id) {
    gateId in s.cache && s.now < s.cache[gateId].expiresAt
  }

  predicate RowLasts(s: System, gateId: Id) {
    gateId in s.db.sticky && s.now < s.db.sticky[gateId].expiresAt
  }

  /** Resolve answers exactly when an unexpired entry or, if the table can be read, an unexpired row
      exists; the entry goes first.  A hit may extend the entry and never shortens it, an entry
      filled from a row expires with the row, and other gates' entries stay as they are. */
  lemma ResolveIsExact(s: System, c: Config, gateId: Id, extended: Time, readFails: bool)
    requires NeverHides(c.later)
    ensures var r := ResolveSticky(s.cache, s.db, c.later, gateId, s.now, extended, readFails);
      && (r.0.Some? <==> EntryLasts(s, gateId) || (!readFails && RowLasts(s, gateId)))
      && (if EntryLasts(s, gateId) then
            var before := s.cache[gateId].expiresAt;
            && r.0 == Some(s.cache[gateId].realId) && gateId in r.1 && r.1[gateId].realId == s.cache[gateId].realId
            && r.1[gateId].expiresAt == (if before < extended then extended else before)
          else if r.0.Some? then
            var row := s.db.sticky[gateId];
            r.0 == Some(row.realId) && gateId in r.1 && r.1[gateId] == CacheItem(row.realId, row.expiresAt)
          else r.1 == s.cache)
      && forall h :: h != gateId ==> (h in r.1 <==> h in s.cache) && (h in r.1 ==> r.1[h] == s.cache[h])
  {
  }

  /** The slot of a ticket: the token that round robin gives. */
  predicate IsNext(t: Row, s: System) {
    |s.pool| > 0 && t == s.pool[(s.counter % 0x1_0000_0000_0000_0000) % |s.pool|]
  }

  /** The token that an unexpired entry or, failing that, a readable unexpired row names. */
  function BoundToken(s: System, gateId: Id, readFails: bool): Option<Id> {
    if EntryLasts(s, gateId) then Some(s.cache[gateId].realId)
    else if !readFails && RowLasts(s, gateId) then Some(s.db.sticky[gateId].realId)
    else None
  }

  predicate InPool(pool: seq<Row>, id: Id) {
    exists i :: 0 <= i < |pool| && pool[i].0 == id
  }

  /** Table and cache bind the gate to the token up to then; otherwise the store is as it was. */
  ghost predicate BoundUntil(before: Database, after: System, gateId: Id, realId: Id, until: Time) {
    && gateId in after.db.sticky && after.db.sticky[gateId] == StickySession(realId, until)
    && gateId in after.cache && after.cache[gateId] == CacheItem(realId, until)
    && after.db.(sticky := before.sticky) == before
    && (forall h :: h != gateId ==> (h in after.db.sticky <==> h in before.sticky))
    && (forall h :: h != gateId && h in before.sticky ==> after.db.sticky[h] == before.sticky[h])
  }

  /** ResolveToken, case by case: the bound token, if the binding has not expired and the token is in
      the pool, and then no ticket is taken and the store not touched; otherwise the token of the
      next ticket, to which the gate is then bound for the time to live, if both exist. */
  lemma ResolvesBoundOrNext(s: System, c: Config, gateId: Id, extended: Time, readFails: bool, writeFails: bool)
    requires NeverHides(c.later) && s.counter < TWO_64
    ensures var o := ResolveToken(s, c, gateId, extended, readFails, writeFails);
      var bound := BoundToken(s, gateId, readFails);
      && o.after.pool == s.pool && o.after.now == s.now
      && if bound.Some? && InPool(s.pool, bound.value) then
           && o.token.Some? && o.token.value in s.pool && o.token.value.0 == bound.value
           && o.after.db == s.db && o.after.counter == s.counter
         else if s.pool == [] then
           o.token.None? && o.after.db == s.db && o.after.counter == s.counter
         else
           && o.token.Some? && IsNext(o.token.value, s)
           && o.after.counter == (if s.counter == TWO_64 - 1 then 0 else s.counter + 1)
           && if writeFails || gateId !in s.db.gates || o.token.value.0 !in s.db.reals then o.after.db == s.db
              else BoundUntil(s.db, o.after, gateId, o.token.value.0, s.now + c.ttl)
  {
    ResolveIsExact(s, c, gateId, extended, readFails);
  }

  /** The cleanup keeps exactly the rows that a query of the same moment finds, and no later
      query can tell that it ran. */
  lemma CleanupIsInvisible(db: Database, later: LaterThan, g: Id, now: Time, moment: Time)
    requires forall expiresAt, a, b :: a <= b && later(expiresAt, b) ==> later(expiresAt, a)
    requires now <= moment
    ensures g in DeleteExpired(db, later, now).sticky <==> GetSticky(db, later, g, now).Some?
    ensures GetSticky(DeleteExpired(db, later, now), later, g, moment) == GetSticky(db, later, g, moment)
  {
  }

  // ---------------------------------------------- one undivided call and a binding

  /** The gate is bound to the token until the given time. */
  ghost predicate Sticks(s: System, gateId: Id, realId: Id, until: Time) {
    && gateId in s.db.sticky && s.db.sticky[gateId] == StickySession(realId, until)
    && (gateId in s.cache ==> s.cache[gateId].realId == realId)
  }

  /** The expiry is not reached, the row is there, and the token is in the installed pool. */
  ghost predicate Undisturbed(s: System, gateId: Id, realId: Id, until: Time) {
    s.now < until && gateId in s.db.sticky && Find(s.pool, realId).Some?
  }

  /** A round-robin choice whose upsert succeeds binds the gate for the configured time. */
  lemma BindSticks(s: System, c: Config, gateId: Id, extended: Time, readFails: bool)
    requires s.pool != [] && gateId in s.db.gates && RoundRobinChoice(s.pool, s.counter).0 in s.db.reals
    requires var (sticky, _) := ResolveSticky(s.cache, s.db, c.later, gateId, s.now, extended, readFails);
      sticky.None? || Find(s.pool, sticky.value).None?
    ensures var o := ResolveToken(s, c, gateId, extended, readFails, false);
      o.token.Some? && Sticks(o.after, gateId, o.token.value.0, s.now + c.ttl)
  {
  }

  /** While it is undisturbed, a bound gate resolves to its token. */
  lemma StickyResolves(s: System, c: Config, gateId: Id, realId: Id, until: Time, extended: Time, writeFails: bool)
    requires NeverHides(c.later) && Sticks(s, gateId, realId, until) && Undisturbed(s, gateId, realId, until)
    ensures var o := ResolveToken(s, c, gateId, extended, false, writeFails);
      && o.token == Find(s.pool, realId) && o.token.Some? && o.token.value.0 == realId
      && Sticks(o.after, gateId, realId, until)
  {
  }
}
