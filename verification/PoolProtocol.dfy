/** The concurrent half of the token manager as one transition system: failure
    recording (increment, read, deactivate as separate database steps), admin
    mutations, the debounce timer, and the refresh callback (load, install).  The
    reads and the deactivation may fail, and so may the query of a refresh. */
module PoolProtocol {
  import opened Prelude
  import opened Database
  import opened Integrity
  import opened StoreObject

  type CallId = nat
  type TimerId = nat

  /** What the cache agrees with the store on: id and access token of each eligible token. */
  type Listing = map<Id, string>

  /** Who refreshes: the callback of a timer, or Manager.Start. */
  type Refresher = Option<TimerId>

  /** A call between two of its database steps. */
  datatype Call =
    | Incremented(token: Id)     // RecordFailure, before it reads the count
    | Deactivating(token: Id)    // RecordFailure, after it read a count at the threshold
    | Notifying                  // any mutator, before it calls RefreshPool

  /** A refresh timer that is neither stopped nor finished. */
  datatype Timer = Armed | Fired | Loaded(listing: Listing)

  /** History: what each refresh read, and which one read and installed last. */
  datatype RefreshLog = RefreshLog(loads: map<Refresher, Listing>, lastLoader: Refresher, lastInstaller: Refresher)

  datatype State = State(
    db: Database,
    pool: Listing,
    calls: map<CallId, Call>,
    timers: map<TimerId, Timer>,
    current: Option<TimerId>,               // the field refreshTimer
    nextTimer: TimerId,
    // history
    lastIncrementer: map<Id, CallId>,
    abandoned: set<Id>,                     // tokens whose latest failure call ended in an error
    log: RefreshLog,
    missed: bool)                           // an error cost a refresh, and none has read since

  datatype Step =
    | Increment(call: CallId, token: Id)
    | ReadCount(call: CallId)
    | Deactivate(call: CallId)
    | Fail(call: CallId)                    // the next database step of a failure call fails
    | Admin(call: CallId, op: Op)
    | Notify(call: CallId)
    | Fire(timer: TimerId)
    | Load(timer: TimerId)
    | Install(timer: TimerId)
    | FailLoad(timer: TimerId)              // the query of a refresh fails
    | Background(op: Op)

  function EligibleListing(db: Database, maxFailures: int): Listing {
    map t | t in db.reals && Eligible(db, maxFailures, t) :: db.reals[t].accessToken
  }

  predicate IsAdmin(op: Op) {
    op.CreateRealOp? || op.SetRealActiveOp? || (op.DeleteOp? && op.column.RealTokenId?)
  }

  /** Operations of the rest of the program: gate tokens, usage, sticky sessions. */
  predicate IsBackground(op: Op) {
    !IsAdmin(op) && !op.IncrementFailureOp?
  }

  /** RefreshPool: stop the timer in the field, if it has not fired, and arm a new one. */
  function RefreshPool(s: State): State {
    var kept := if s.current.Some? && s.current.value in s.timers && s.timers[s.current.value] == Armed
                then s.timers - {s.current.value} else s.timers;
    s.(timers := kept[s.nextTimer := Armed], current := Some(s.nextTimer), nextTimer := s.nextTimer + 1)
  }

  // Each step, by itself; one that is not enabled leaves the state as it is.

  /** IncrementRealTokenFailure. */
  function DoIncrement(s: State, c: CallId, t: Id): State {
    if c in s.calls then s
    else s.(db := IncrementFailure(s.db, t),
            calls := s.calls[c := Incremented(t)], lastIncrementer := s.lastIncrementer[t := c],
            abandoned := s.abandoned - {t})
  }

  /** GetRealToken and the comparison; if the row is gone the call returns. */
  function DoReadCount(s: State, maxFailures: int, c: CallId): State {
    if c !in s.calls || !s.calls[c].Incremented? then s
    else
      var t := s.calls[c].token;
      if t !in s.db.reals then s.(calls := s.calls - {c})
      else s.(calls := s.calls[c := if s.db.reals[t].failureCount >= maxFailures then Deactivating(t) else Notifying])
  }

  /** SetRealTokenActive(false); if the row is gone the call returns. */
  function DoDeactivate(s: State, c: CallId): State {
    if c !in s.calls || !s.calls[c].Deactivating? then s
    else
      var r := SetRealActive(s.db, s.calls[c].token, false);
      if r.Err? then s.(calls := s.calls - {c})
      else s.(db := r.value, calls := s.calls[c := Notifying])
  }

  /** A failure call whose read or deactivation fails returns at once, without a refresh. */
  function DoFail(s: State, c: CallId): State {
    if c !in s.calls || s.calls[c] == Notifying then s
    else
      var t := s.calls[c].token;
      var latest := t in s.lastIncrementer && s.lastIncrementer[t] == c;
      s.(calls := s.calls - {c}, abandoned := if latest then s.abandoned + {t} else s.abandoned, missed := true)
  }

  /** The mutation of an admin request; the callback is yet to come. */
  function DoAdmin(s: State, c: CallId, op: Op): State {
    if c in s.calls || !IsAdmin(op) || !Succeeds(s.db, op) then s
    else s.(db := Apply(s.db, op), calls := s.calls[c := Notifying])
  }

  function DoNotify(s: State, c: CallId): State {
    if c !in s.calls || s.calls[c] != Notifying then s
    else RefreshPool(s.(calls := s.calls - {c}))
  }

  function DoFire(s: State, i: TimerId): State {
    if i !in s.timers || s.timers[i] != Armed then s
    else s.(timers := s.timers[i := Fired])
  }

  /** Refresh, first half: read the eligible tokens. */
  function DoLoad(s: State, maxFailures: int, i: TimerId): State {
    if i !in s.timers || s.timers[i] != Fired then s
    else
      var listing := EligibleListing(s.db, maxFailures);
      s.(timers := s.timers[i := Loaded(listing)], missed := false,
         log := s.log.(loads := s.log.loads[Some(i) := listing], lastLoader := Some(i)))
  }

  /** Refresh, second half: install the list that was read. */
  function DoInstall(s: State, i: TimerId): State {
    if i !in s.timers || !s.timers[i].Loaded? then s
    else s.(pool := s.timers[i].listing, timers := s.timers - {i}, log := s.log.(lastInstaller := Some(i)))
  }

  /** A refresh whose query fails logs the error; nothing is scheduled in its place. */
  function DoFailLoad(s: State, i: TimerId): State {
    if i !in s.timers || s.timers[i] != Fired then s
    else s.(timers := s.timers - {i}, missed := true)
  }

  function DoBackground(s: State, op: Op): State {
    if IsBackground(op) then s.(db := Apply(s.db, op)) else s
  }

  function Next(s: State, maxFailures: int, step: Step): State {
    match step
    case Increment(c, t) => DoIncrement(s, c, t)
    case ReadCount(c) => DoReadCount(s, maxFailures, c)
    case Deactivate(c) => DoDeactivate(s, c)
    case Fail(c) => DoFail(s, c)
    case Admin(c, op) => DoAdmin(s, c, op)
    case Notify(c) => DoNotify(s, c)
    case Fire(i) => DoFire(s, i)
    case Load(i) => DoLoad(s, maxFailures, i)
    case Install(i) => DoInstall(s, i)
    case FailLoad(i) => DoFailLoad(s, i)
    case Background(op) => DoBackground(s, op)
  }

  function Steps(s: State, maxFailures: int, steps: seq<Step>): State
    decreases |steps|
  {
    if steps == [] then s else Steps(Next(s, maxFailures, steps[0]), maxFailures, steps[1..])
  }

  /** Manager.Start refreshed the pool once; nothing is in flight. */
  function Start(db: Database, maxFailures: int): State {
    var listing := EligibleListing(db, maxFailures);
    State(db, listing, map[], map[], None, 0, map[], {}, RefreshLog(map[None := listing], None, None), false)
  }

  ghost predicate Reachable(s: State, db: Database, maxFailures: int) {
    exists steps :: s == Steps(Start(db, maxFailures), maxFailures, steps)
  }

  lemma {:induction false} StepsThen(s: State, maxFailures: int, steps: seq<Step>, step: Step)
    ensures Steps(s, maxFailures, steps + [step]) == Next(Steps(s, maxFailures, steps), maxFailures, step)
    decreases |steps|
  {
    if steps == [] {
      assert (steps + [step])[1..] == [];
    } else {
      AppendPeels(steps, [step]);
      StepsThen(Next(s, maxFailures, steps[0]), maxFailures, steps[1..], step);
    }
  }

  lemma NextReachable(s: State, db: Database, maxFailures: int, step: Step) returns (s': State)
    requires Reachable(s, db, maxFailures)
    ensures s' == Next(s, maxFailures, step) && Reachable(s', db, maxFailures)
  {
    var steps :| s == Steps(Start(db, maxFailures), maxFailures, steps);
    StepsThen(Start(db, maxFailures), maxFailures, steps, step);
    s' := Next(s, maxFailures, step);
  }

  lemma StartReachable(db: Database, maxFailures: int) returns (s: State)
    ensures s == Start(db, maxFailures) && Reachable(s, db, maxFailures)
  {
    s := Start(db, maxFailures);
    assert s == Steps(s, maxFailures, []);
  }

  // One step at a time: each hides the other cases of Next from the runs built below.

  lemma TakeIncrement(s: State, db: Database, maxFailures: int, c: CallId, t: Id) returns (s': State)
    requires Reachable(s, db, maxFailures)
    ensures s' == DoIncrement(s, c, t) && Reachable(s', db, maxFailures)
  {
    s' := NextReachable(s, db, maxFailures, Increment(c, t));
  }

  lemma TakeReadCount(s: State, db: Database, maxFailures: int, c: CallId) returns (s': State)
    requires Reachable(s, db, maxFailures)
    ensures s' == DoReadCount(s, maxFailures, c) && Reachable(s', db, maxFailures)
  {
    s' := NextReachable(s, db, maxFailures, ReadCount(c));
  }

  lemma TakeDeactivate(s: State, db: Database, maxFailures: int, c: CallId) returns (s': State)
    requires Reachable(s, db, maxFailures)
    ensures s' == DoDeactivate(s, c) && Reachable(s', db, maxFailures)
  {
    s' := NextReachable(s, db, maxFailures, Deactivate(c));
  }

  lemma TakeFail(s: State, db: Database, maxFailures: int, c: CallId) returns (s': State)
    requires Reachable(s, db, maxFailures)
    ensures s' == DoFail(s, c) && Reachable(s', db, maxFailures)
  {
    s' := NextReachable(s, db, maxFailures, Fail(c));
  }

  lemma TakeAdmin(s: State, db: Database, maxFailures: int, c: CallId, op: Op) returns (s': State)
    requires Reachable(s, db, maxFailures)
    ensures s' == DoAdmin(s, c, op) && Reachable(s', db, maxFailures)
  {
    s' := NextReachable(s, db, maxFailures, Admin(c, op));
  }

  lemma TakeNotify(s: State, db: Database, maxFailures: int, c: CallId) returns (s': State)
    requires Reachable(s, db, maxFailures)
    ensures s' == DoNotify(s, c) && Reachable(s', db, maxFailures)
  {
    s' := NextReachable(s, db, maxFailures, Notify(c));
  }

  lemma TakeFire(s: State, db: Database, maxFailures: int, i: TimerId) returns (s': State)
    requires Reachable(s, db, maxFailures)
    ensures s' == DoFire(s, i) && Reachable(s', db, maxFailures)
  {
    s' := NextReachable(s, db, maxFailures, Fire(i));
  }

  lemma TakeLoad(s: State, db: Database, maxFailures: int, i: TimerId) returns (s': State)
    requires Reachable(s, db, maxFailures)
    ensures s' == DoLoad(s, maxFailures, i) && Reachable(s', db, maxFailures)
  {
    s' := NextReachable(s, db, maxFailures, Load(i));
  }

  lemma TakeInstall(s: State, db: Database, maxFailures: int, i: TimerId) returns (s': State)
    requires Reachable(s, db, maxFailures)
    ensures s' == DoInstall(s, i) && Reachable(s', db, maxFailures)
  {
    s' := NextReachable(s, db, maxFailures, Install(i));
  }

  lemma TakeFailLoad(s: State, db: Database, maxFailures: int, i: TimerId) returns (s': State)
    requires Reachable(s, db, maxFailures)
    ensures s' == DoFailLoad(s, i) && Reachable(s', db, maxFailures)
  {
    s' := NextReachable(s, db, maxFailures, FailLoad(i));
  }

  lemma NotifyFollows(s: State, c: CallId, db': Database)
    requires c !in s.calls
    ensures DoNotify(s.(db := db', calls := s.calls[c := Notifying]), c) == RefreshPool(s.(db := db'))
  {
    assert s.calls[c := Notifying] - {c} == s.calls;
  }

  /** One whole admin request. */
  lemma AdminRequest(s: State, db: Database, maxFailures: int, c: CallId, op: Op) returns (s': State)
    requires Reachable(s, db, maxFailures) && c !in s.calls && IsAdmin(op) && Succeeds(s.db, op)
    ensures Reachable(s', db, maxFailures)
    ensures s' == RefreshPool(s.(db := Apply(s.db, op)))
  {
    s' := TakeAdmin(s, db, maxFailures, c, op);
    NotifyFollows(s, c, Apply(s.db, op));
    s' := TakeNotify(s', db, maxFailures, c);
  }

  lemma OneTokenStore(maxFailures: int, id: Id) returns (s: State)
    ensures Reachable(s, Empty(), maxFailures) && s.calls == map[] && s.timers == map[0 := Armed]
    ensures s.current == Some(0) && s.nextTimer == 1 && s.abandoned == {} && s.lastIncrementer == map[]
    ensures s.pool == map[] && s.log.lastLoader == s.log.lastInstaller == None && !s.missed
    ensures s.db.reals == map[id := RealToken("name", "access", "", true, 0, 0, 0, 0)]
  {
    s := StartReachable(Empty(), maxFailures);
    s := AdminRequest(s, Empty(), maxFailures, 0, CreateRealOp(id, "name", "access", "", 0));
  }

  lemma OneTokenListing(db: Database, id: Id, row: RealToken, maxFailures: int)
    requires db.reals == map[id := row]
    ensures EligibleListing(db, maxFailures) ==
      if row.isActive && row.failureCount < maxFailures then map[id := row.accessToken] else map[]
  {
  }

  /** An admin switches the only token on or off. */
  lemma SwitchOnlyToken(s: State, db: Database, maxFailures: int, c: CallId, id: Id, row: RealToken, active: bool)
    returns (s': State)
    requires Reachable(s, db, maxFailures) && c !in s.calls && s.db.reals == map[id := row]
    ensures Reachable(s', db, maxFailures)
    ensures s'.db.reals == map[id := row.(isActive := active, failureCount := if active then 0 else row.failureCount)]
    ensures s'.calls == s.calls && s'.timers == RefreshPool(s).timers && s'.missed == s.missed
  {
    s' := AdminRequest(s, db, maxFailures, c, SetRealActiveOp(id, active));
    SwitchedRow(s.db, id, row, active);
  }

  lemma SwitchedRow(db: Database, id: Id, row: RealToken, active: bool)
    requires db.reals == map[id := row]
    ensures Apply(db, SetRealActiveOp(id, active)).reals ==
      map[id := row.(isActive := active, failureCount := if active then 0 else row.failureCount)]
  {
  }

  predicate Quiescent(s: State) {
    s.calls == map[] && s.timers == map[]
  }

  /** The columns that decide eligibility. */
  ghost predicate SameStanding(a: Database, b: Database) {
    && a.reals.Keys == b.reals.Keys
    && forall t :: t in a.reals ==>
         && a.reals[t].isActive == b.reals[t].isActive
         && a.reals[t].failureCount == b.reals[t].failureCount
         && a.reals[t].accessToken == b.reals[t].accessToken
  }

  lemma BackgroundKeepsStanding(db: Database, op: Op)
    requires IsBackground(op)
    ensures SameStanding(db, Apply(db, op))
  {
  }
}
