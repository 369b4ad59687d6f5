/** Token resolution with its calls taken apart: every read and write of cache, table and pool
    is a step of its own, and any number of calls interleave with each other, with the rest of
    the store, with refreshes, cleanup, evictions and restarts. */
module AffinityProtocol {
  import opened Prelude
  import opened Database
  import opened Integrity
  import opened RoundRobin
  import opened TokenPoolObject
  import opened Affinity

  type CallId = nat

  /** A ResolveToken between two of its steps. */
  datatype Phase =
    | Looking                              // the cache had nothing; the table is next
    | Found(realId: Id, left: Time)        // the row has been read; the cache is next
    | Checking(realId: Id)                 // a binding is known; the pool is next
    | Choosing                             // round robin is next
    | Binding(row: Row)                    // a token is chosen; the table is next
    | Written(row: Row)                    // the table is written; the cache is next

  datatype Call = Call(gateId: Id, phase: Phase)

  datatype Answer = Answer(gateId: Id, token: Option<Row>)

  datatype State = State(
    sys: System,
    calls: map<CallId, Call>,
    // history
    bound: map<Id, Id>,        // the token of the latest table write of each gate
    cached: map<Id, Id>,       // the token of the latest cache write of each gate, in this process
    answers: seq<Answer>)      // what the calls returned, in order

  datatype Step =
    | Begin(call: CallId, gateId: Id, extended: Time)
    | ReadRow(call: CallId, fails: bool)
    | FillCache(call: CallId)
    | Check(call: CallId)
    | Choose(call: CallId)
    | WriteTable(call: CallId, fails: bool)
    | WriteCache(call: CallId)
    | Advance(now: Time)
    | StoreCall(op: Op)                    // any other store operation; only calls upsert sessions
    | Cleanup                              // dbCleanupLoop
    | Evict(gateId: Id)                    // the cache drops an expired entry
    | Refresh(listing: seq<Row>)           // Pool.Refresh installs a list, however old
    | Restart(listing: seq<Row>)           // a new process: no calls, empty cache, new counter

  predicate At(s: State, c: CallId, g: Id, p: Phase) {
    c in s.calls && s.calls[c] == Call(g, p)
  }

  function Move(s: State, c: CallId, p: Phase): State
    requires c in s.calls
  {
    s.(calls := s.calls[c := s.calls[c].(phase := p)])
  }

  function Return(s: State, c: CallId, token: Option<Row>): State
    requires c in s.calls
  {
    s.(calls := s.calls - {c}, answers := s.answers + [Answer(s.calls[c].gateId, token)])
  }

  // Each step, by itself; one that is not enabled leaves the state as it is.

  function DoBegin(s: State, c: CallId, g: Id, extended: Time): State {
    if c in s.calls then s
    else
      var hit := CacheGet(s.sys.cache, g, s.sys.now);
      if hit.None? then s.(calls := s.calls[c := Call(g, Looking)])
      else s.(calls := s.calls[c := Call(g, Checking(hit.value))],
              sys := s.sys.(cache := Touch(s.sys.cache, g, extended)))
  }

  /** GetStickySession and the comparison of the time left. */
  function DoReadRow(s: State, later: LaterThan, c: CallId, fails: bool): State {
    if c !in s.calls || !s.calls[c].phase.Looking? then s
    else
      var row := if fails then None else GetSticky(s.sys.db, later, s.calls[c].gateId, s.sys.now);
      if row.None? || row.value.expiresAt - s.sys.now <= 0 then Move(s, c, Choosing)
      else Move(s, c, Found(row.value.realId, row.value.expiresAt - s.sys.now))
  }

  /** Resolve's own cache.Set. */
  function DoFillCache(s: State, c: CallId): State {
    if c !in s.calls || !s.calls[c].phase.Found? then s
    else
      var g, p := s.calls[c].gateId, s.calls[c].phase;
      Move(s, c, Checking(p.realId)).(
        sys := s.sys.(cache := s.sys.cache[g := CacheItem(p.realId, s.sys.now + p.left)]),
        cached := s.cached[g := p.realId])
  }

  /** pool.GetByID */
  function DoCheck(s: State, c: CallId): State {
    if c !in s.calls || !s.calls[c].phase.Checking? then s
    else
      var t := Find(s.sys.pool, s.calls[c].phase.realId);
      if t.Some? then Return(s, c, t) else Move(s, c, Choosing)
  }

  /** pool.Select(nil) */
  function DoChoose(s: State, c: CallId): State {
    if c !in s.calls || !s.calls[c].phase.Choosing? then s
    else if s.sys.pool == [] then Return(s, c, None)
    else Move(s, c, Binding(RoundRobinChoice(s.sys.pool, s.sys.counter))).(
           sys := s.sys.(counter := (s.sys.counter + 1) % TWO_64))
  }

  /** Bind's UpsertStickySession; its error is ignored by ResolveToken. */
  function DoWriteTable(s: State, ttl: Ttl, c: CallId, fails: bool): State {
    if c !in s.calls || !s.calls[c].phase.Binding? then s
    else
      var g, row := s.calls[c].gateId, s.calls[c].phase.row;
      var r := UpsertSticky(s.sys.db, g, row.0, s.sys.now + ttl);
      if fails || r.Err? then Return(s, c, Some(row))
      else Move(s, c, Written(row)).(sys := s.sys.(db := r.value), bound := s.bound[g := row.0])
  }

  /** Bind's cache.Set. */
  function DoWriteCache(s: State, ttl: Ttl, c: CallId): State {
    if c !in s.calls || !s.calls[c].phase.Written? then s
    else
      var g, row := s.calls[c].gateId, s.calls[c].phase.row;
      Return(s, c, Some(row)).(
        sys := s.sys.(cache := s.sys.cache[g := CacheItem(row.0, s.sys.now + ttl)]),
        cached := s.cached[g := row.0])
  }

  function DoStoreCall(s: State, op: Op): State {
    if op.UpsertStickyOp? then s else s.(sys := s.sys.(db := Apply(s.sys.db, op)))
  }

  function DoEvict(s: State, g: Id): State {
    if g in s.sys.cache && s.sys.cache[g].expiresAt <= s.sys.now
    then s.(sys := s.sys.(cache := s.sys.cache - {g})) else s
  }

  function DoRestart(s: State, listing: seq<Row>): State {
    s.(sys := s.sys.(pool := listing, cache := map[], counter := 0), calls := map[], cached := map[])
  }

  function Next(s: State, c: Config, step: Step): State {
    match step
    case Begin(i, g, extended) => DoBegin(s, i, g, extended)
    case ReadRow(i, fails) => DoReadRow(s, c.later, i, fails)
    case FillCache(i) => DoFillCache(s, i)
    case Check(i) => DoCheck(s, i)
    case Choose(i) => DoChoose(s, i)
    case WriteTable(i, fails) => DoWriteTable(s, c.ttl, i, fails)
    case WriteCache(i) => DoWriteCache(s, c.ttl, i)
    case Advance(now) => if now > s.sys.now then s.(sys := s.sys.(now := now)) else s
    case StoreCall(op) => DoStoreCall(s, op)
    case Cleanup => s.(sys := s.sys.(db := DeleteExpired(s.sys.db, c.later, s.sys.now)))
    case Evict(g) => DoEvict(s, g)
    case Refresh(listing) => s.(sys := s.sys.(pool := listing))
    case Restart(listing) => DoRestart(s, listing)
  }

  function Steps(s: State, c: Config, steps: seq<Step>): State
    decreases |steps|
  {
    if steps == [] then s else Steps(Next(s, c, steps[0]), c, steps[1..])
  }

  /** A process that has just started: whatever the table holds, the cache is empty. */
  function Start(sys: System): State {
    State(sys.(cache := map[]), map[], map g | g in sys.db.sticky :: sys.db.sticky[g].realId, map[], [])
  }

  ghost predicate Reachable(s: State, sys: System, c: Config) {
    exists steps :: s == Steps(Start(sys), c, steps)
  }

  /** The steps of one call in a row, those that are not enabled passed over: Resolve first. */
  function ResolveInARow(s: State, c: Config, i: CallId, g: Id, extended: Time, readFails: bool): State {
    DoFillCache(DoReadRow(DoBegin(s, i, g, extended), c.later, i, readFails), i)
  }

  function ChooseInARow(s: State, c: Config, i: CallId, writeFails: bool): State {
    DoWriteCache(DoWriteTable(DoChoose(s, i), c.ttl, i, writeFails), c.ttl, i)
  }

  function InARow(s: State, c: Config, i: CallId, g: Id, extended: Time, readFails: bool, writeFails: bool): State {
    ChooseInARow(DoCheck(ResolveInARow(s, c, i, g, extended, readFails), i), c, i, writeFails)
  }

  lemma KnownBindingStays(s: State, c: Config, i: CallId, readFails: bool)
    requires i in s.calls && s.calls[i].phase.Checking?
    ensures DoFillCache(DoReadRow(s, c.later, i, readFails), i) == s
  {
  }

  lemma MissReadsTable(s: State, c: Config, i: CallId, g: Id, extended: Time, readFails: bool)
    requires At(s, i, g, Looking) && CacheGet(s.sys.cache, g, s.sys.now).None?
    ensures var after := DoFillCache(DoReadRow(s, c.later, i, readFails), i);
      var (sticky, cache) := ResolveSticky(s.sys.cache, s.sys.db, c.later, g, s.sys.now, extended, readFails);
      && after.sys == s.sys.(cache := cache) && after.answers == s.answers
      && after.calls == s.calls[i := Call(g, if sticky.Some? then Checking(sticky.value) else Choosing)]
  {
    var row := if readFails then None else GetSticky(s.sys.db, c.later, g, s.sys.now);
    var read := DoReadRow(s, c.later, i, readFails);
    if row.Some? && row.value.expiresAt - s.sys.now > 0 {
      var left := row.value.expiresAt - s.sys.now;
      assert read == Move(s, i, Found(row.value.realId, left));
      assert s.sys.now + left == row.value.expiresAt;
    } else {
      assert read == Move(s, i, Choosing);
    }
  }

  lemma ResolveInARowIsResolveSticky(s: State, c: Config, i: CallId, g: Id, extended: Time, readFails: bool)
    requires i !in s.calls
    ensures var after := ResolveInARow(s, c, i, g, extended, readFails);
      var (sticky, cache) := ResolveSticky(s.sys.cache, s.sys.db, c.later, g, s.sys.now, extended, readFails);
      && after.sys == s.sys.(cache := cache) && after.answers == s.answers
      && after.calls == s.calls[i := Call(g, if sticky.Some? then Checking(sticky.value) else Choosing)]
  {
    var begun := DoBegin(s, i, g, extended);
    if CacheGet(s.sys.cache, g, s.sys.now).Some? {
      KnownBindingStays(begun, c, i, readFails);
    } else {
      assert begun == s.(calls := s.calls[i := Call(g, Looking)]);
      MissReadsTable(begun, c, i, g, extended, readFails);
    }
  }

  lemma ChooseInARowBinds(s: State, c: Config, i: CallId, g: Id, writeFails: bool)
    requires At(s, i, g, Choosing) && s.sys.pool != []
    ensures var after, t := ChooseInARow(s, c, i, writeFails), RoundRobinChoice(s.sys.pool, s.sys.counter);
      var b := Bind(s.sys.db, s.sys.cache, g, t.0, c.ttl, s.sys.now, writeFails);
      && after.sys == s.sys.(db := b.db, cache := b.cache, counter := (s.sys.counter + 1) % TWO_64)
      && after.calls == s.calls - {i} && after.answers == s.answers + [Answer(g, Some(t))]
  {
    var chosen := DoChoose(s, i);
    var written := DoWriteTable(chosen, c.ttl, i, writeFails);
    assert chosen.calls - {i} == s.calls - {i};
    assert written.calls - {i} == s.calls - {i};
  }

  lemma ReturnedCallDoesNothing(s: State, c: Config, i: CallId, writeFails: bool)
    requires i !in s.calls
    ensures ChooseInARow(s, c, i, writeFails) == s
  {
  }

  /** Once Resolve has returned, the rest of the call is the rest of ResolveToken. */
  lemma ResolvedCallFinishes(s: State, c: Config, i: CallId, g: Id, sticky: Option<Id>, writeFails: bool)
    requires At(s, i, g, if sticky.Some? then Checking(sticky.value) else Choosing)
    ensures var after := ChooseInARow(DoCheck(s, i), c, i, writeFails);
      var o := KeepOrChoose(s.sys, c, g, sticky, writeFails);
      && after.sys == o.after && after.calls == s.calls - {i}
      && after.answers == s.answers + [Answer(g, o.token)]
  {
    var checked := DoCheck(s, i);
    if i !in checked.calls {
      ReturnedCallDoesNothing(checked, c, i, writeFails);
    } else {
      assert checked.calls - {i} == s.calls - {i};
      if s.sys.pool == [] {
        ReturnedCallDoesNothing(DoChoose(checked, i), c, i, writeFails);
      } else {
        ChooseInARowBinds(checked, c, i, g, writeFails);
      }
    }
  }

  /** An undivided call is ResolveToken. */
  lemma UndividedCallIsResolveToken(s: State, c: Config, i: CallId, g: Id, extended: Time, readFails: bool,
                                    writeFails: bool)
    requires i !in s.calls
    ensures var after := InARow(s, c, i, g, extended, readFails, writeFails);
      var o := ResolveToken(s.sys, c, g, extended, readFails, writeFails);
      && after.sys == o.after && after.calls == s.calls
      && after.answers == s.answers + [Answer(g, o.token)]
  {
    var resolved := ResolveInARow(s, c, i, g, extended, readFails);
    var (sticky, cache) := ResolveSticky(s.sys.cache, s.sys.db, c.later, g, s.sys.now, extended, readFails);
    ResolveInARowIsResolveSticky(s, c, i, g, extended, readFails);
    assert resolved.calls - {i} == s.calls;
    ResolvedCallFinishes(resolved, c, i, g, sticky, writeFails);
  }

  // ------------------------------------------------------------ who wrote what

  /** The history says what cache and table name. */
  ghost predicate Recorded(sys: System, bound: map<Id, Id>, cached: map<Id, Id>) {
    && (forall g :: g in sys.cache ==> g in cached && cached[g] == sys.cache[g].realId)
    && (forall g :: g in sys.db.sticky ==> g in bound && bound[g] == sys.db.sticky[g].realId)
  }

  /** No store operation but the upsert adds or redirects a session. */
  lemma SessionsOnlyShrink(db: Database, op: Op, g: Id)
    requires !op.UpsertStickyOp?
    ensures g in Apply(db, op).sticky ==> g in db.sticky && Apply(db, op).sticky[g] == db.sticky[g]
  {
  }

  lemma StoreCallKeepsRecorded(s: State, op: Op)
    requires Recorded(s.sys, s.bound, s.cached)
    ensures var s' := DoStoreCall(s, op); Recorded(s'.sys, s'.bound, s'.cached)
  {
    if !op.UpsertStickyOp? {
      forall g | g in Apply(s.sys.db, op).sticky
        ensures g in s.bound && s.bound[g] == Apply(s.sys.db, op).sticky[g].realId
      {
        SessionsOnlyShrink(s.sys.db, op, g);
      }
    }
  }

  lemma StepKeepsRecorded(s: State, c: Config, step: Step)
    requires Recorded(s.sys, s.bound, s.cached)
    ensures var s' := Next(s, c, step); Recorded(s'.sys, s'.bound, s'.cached)
  {
    match step
    case StoreCall(op) => StoreCallKeepsRecorded(s, op);
    case _ =>
  }

  lemma {:induction false} StepsKeepRecorded(s: State, c: Config, steps: seq<Step>)
    requires Recorded(s.sys, s.bound, s.cached)
    ensures var s' := Steps(s, c, steps); Recorded(s'.sys, s'.bound, s'.cached)
    decreases |steps|
  {
    if steps != [] {
      StepKeepsRecorded(s, c, steps[0]);
      StepsKeepRecorded(Next(s, c, steps[0]), c, steps[1..]);
    }
  }

  /** A gate with both a cache entry and a row is bound to the same token by both. */
  ghost predicate Agree(sys: System, g: Id) {
    g in sys.cache && g in sys.db.sticky ==> sys.cache[g].realId == sys.db.sticky[g].realId
  }

  /** In every reachable state a gate's cache entry and row agree exactly when its last cache
      write and its last table write were of the same token. */
  lemma AgreeIffLastWritesMatch(s: State, sys: System, c: Config, g: Id)
    requires Reachable(s, sys, c) && g in s.sys.cache && g in s.sys.db.sticky
    ensures g in s.cached && g in s.bound && (Agree(s.sys, g) <==> s.cached[g] == s.bound[g])
  {
    var steps :| s == Steps(Start(sys), c, steps);
    StepsKeepRecorded(Start(sys), c, steps);
  }

  // ---------------------------------------------------- when the writes cannot cross

  /** The call holds a token of g that it is about to put into the cache. */
  predicate Holding(s: State, i: CallId, g: Id) {
    i in s.calls && s.calls[i].gateId == g && (s.calls[i].phase.Found? || s.calls[i].phase.Written?)
  }

  function Held(s: State, i: CallId): Id
    requires i in s.calls && (s.calls[i].phase.Found? || s.calls[i].phase.Written?)
  {
    if s.calls[i].phase.Found? then s.calls[i].phase.realId else s.calls[i].phase.row.0
  }

  ghost predicate Updating(s: State, g: Id) {
    exists i :: i in s.calls && s.calls[i].gateId == g && s.calls[i].phase.Written?
  }

  /** Every token about to be cached is the one the table was last given, and unless a call stands
      between its two writes so is the one cached. */
  ghost predicate InStep(s: State, g: Id) {
    && (forall i :: Holding(s, i, g) ==> g in s.bound && s.bound[g] == Held(s, i))
    && (!Updating(s, g) && g in s.cached ==> g in s.bound && s.bound[g] == s.cached[g])
  }

  /** The step writes the table for g while another call is about to cache a token of g. */
  ghost predicate Crosses(s: State, step: Step, g: Id) {
    && step.WriteTable? && step.call in s.calls && s.calls[step.call].gateId == g && s.calls[step.call].phase.Binding?
    && exists i :: i != step.call && Holding(s, i, g)
  }

  lemma ReadKeepsInStep(s: State, c: Config, i: CallId, fails: bool, g: Id)
    requires Recorded(s.sys, s.bound, s.cached) && InStep(s, g) && i in s.calls && s.calls[i].phase.Looking?
    ensures InStep(DoReadRow(s, c.later, i, fails), g)
  {
    var s' := DoReadRow(s, c.later, i, fails);
    assert Updating(s', g) <==> Updating(s, g) by {
      OtherCallsUpdate(s, s', i, g);
    }
    forall j | Holding(s', j, g)
      ensures g in s'.bound && s'.bound[g] == Held(s', j)
    {
      assert j != i ==> Holding(s, j, g);
    }
  }

  /** A step of call i, before and after which i is not between its two writes. */
  lemma OtherCallsUpdate(s: State, s': State, i: CallId, g: Id)
    requires i in s.calls && s.calls[i].gateId == g ==> !s.calls[i].phase.Written?
    requires i in s'.calls && s'.calls[i].gateId == g ==> !s'.calls[i].phase.Written?
    requires forall j :: j != i ==> (j in s.calls <==> j in s'.calls) && (j in s.calls ==> s'.calls[j] == s.calls[j])
    ensures Updating(s', g) <==> Updating(s, g)
  {
    if Updating(s, g) {
      var j :| j in s.calls && s.calls[j].gateId == g && s.calls[j].phase.Written?;
      assert j in s'.calls && s'.calls[j] == s.calls[j];
    }
    if Updating(s', g) {
      var j :| j in s'.calls && s'.calls[j].gateId == g && s'.calls[j].phase.Written?;
      assert j in s.calls && s'.calls[j] == s.calls[j];
    }
  }

  lemma FillKeepsInStep(s: State, i: CallId, g: Id)
    requires InStep(s, g)
    ensures InStep(DoFillCache(s, i), g)
  {
    if i in s.calls && s.calls[i].phase.Found? {
      var s' := DoFillCache(s, i);
      OtherCallsUpdate(s, s', i, g);
      assert s.calls[i].gateId == g ==> Holding(s, i, g);
      forall j | Holding(s', j, g)
        ensures g in s'.bound && s'.bound[g] == Held(s', j)
      {
        assert Holding(s, j, g);
      }
    }
  }

  lemma WriteTableKeepsInStep(s: State, ttl: Ttl, i: CallId, fails: bool, g: Id)
    requires InStep(s, g) && !Crosses(s, WriteTable(i, fails), g)
    ensures InStep(DoWriteTable(s, ttl, i, fails), g)
  {
    var s' := DoWriteTable(s, ttl, i, fails);
    if i in s.calls && s.calls[i].phase.Binding? {
      if i in s'.calls && s.calls[i].gateId == g {
        assert s'.calls[i].phase.Written?;
        assert Updating(s', g);
        forall j | Holding(s', j, g)
          ensures g in s'.bound && s'.bound[g] == Held(s', j)
        {
          assert j != i ==> Holding(s, j, g);
        }
      } else {
        OtherCallsUpdate(s, s', i, g);
        forall j | Holding(s', j, g)
          ensures g in s'.bound && s'.bound[g] == Held(s', j)
        {
          assert Holding(s, j, g);
        }
      }
    }
  }

  lemma WriteCacheKeepsInStep(s: State, ttl: Ttl, i: CallId, g: Id)
    requires InStep(s, g)
    ensures InStep(DoWriteCache(s, ttl, i), g)
  {
    if i in s.calls && s.calls[i].phase.Written? {
      var s' := DoWriteCache(s, ttl, i);
      forall j | Holding(s', j, g)
        ensures g in s'.bound && s'.bound[g] == Held(s', j)
      {
        assert Holding(s, j, g);
      }
      if s.calls[i].gateId == g {
        assert Holding(s, i, g);
      } else {
        OtherCallsUpdate(s, s', i, g);
      }
    }
  }

  /** A step of call i that neither takes hold of a token nor writes. */
  lemma IdleMoveKeepsInStep(s: State, s': State, i: CallId, g: Id)
    requires InStep(s, g) && s'.bound == s.bound && s'.cached == s.cached
    requires i in s.calls ==> !s.calls[i].phase.Written?
    requires i in s'.calls ==> !s'.calls[i].phase.Found? && !s'.calls[i].phase.Written?
    requires forall j :: j != i ==> (j in s.calls <==> j in s'.calls) && (j in s.calls ==> s'.calls[j] == s.calls[j])
    ensures InStep(s', g)
  {
    OtherCallsUpdate(s, s', i, g);
    forall j | Holding(s', j, g)
      ensures g in s'.bound && s'.bound[g] == Held(s', j)
    {
      assert Holding(s, j, g);
    }
  }

  lemma SystemMovesKeepInStep(s: State, s': State, g: Id)
    requires InStep(s, g) && s'.calls == s.calls && s'.bound == s.bound && s'.cached == s.cached
    ensures InStep(s', g)
  {
    forall j | Holding(s', j, g)
      ensures g in s'.bound && s'.bound[g] == Held(s', j)
    {
      assert Holding(s, j, g);
    }
  }

  lemma RestartIsInStep(s: State, listing: seq<Row>, g: Id)
    requires InStep(s, g)
    ensures InStep(DoRestart(s, listing), g)
  {
  }

  predicate OfTheSystem(step: Step) {
    step.Advance? || step.StoreCall? || step.Cleanup? || step.Evict? || step.Refresh?
  }

  lemma SystemStepsLeaveCalls(s: State, c: Config, step: Step)
    requires OfTheSystem(step)
    ensures var s' := Next(s, c, step);
      s'.calls == s.calls && s'.bound == s.bound && s'.cached == s.cached && s'.answers == s.answers
  {
  }

  lemma QuietCallKeepsInStep(s: State, i: CallId, h: Id, extended: Time, g: Id)
    requires InStep(s, g)
    ensures InStep(DoBegin(s, i, h, extended), g) && InStep(DoCheck(s, i), g) && InStep(DoChoose(s, i), g)
  {
    if i !in s.calls {
      IdleMoveKeepsInStep(s, DoBegin(s, i, h, extended), i, g);
    } else if s.calls[i].phase.Checking? {
      IdleMoveKeepsInStep(s, DoCheck(s, i), i, g);
    } else if s.calls[i].phase.Choosing? {
      IdleMoveKeepsInStep(s, DoChoose(s, i), i, g);
    }
  }

  lemma StepKeepsInStep(s: State, c: Config, step: Step, g: Id)
    requires Recorded(s.sys, s.bound, s.cached) && InStep(s, g) && !Crosses(s, step, g)
    ensures InStep(Next(s, c, step), g)
  {
    match step
    case Begin(i, h, extended) => QuietCallKeepsInStep(s, i, h, extended, g);
    case ReadRow(i, fails) =>
      if i in s.calls && s.calls[i].phase.Looking? {
        ReadKeepsInStep(s, c, i, fails, g);
      }
    case FillCache(i) => FillKeepsInStep(s, i, g);
    case Check(i) => QuietCallKeepsInStep(s, i, "", 0, g);
    case Choose(i) => QuietCallKeepsInStep(s, i, "", 0, g);
    case WriteTable(i, fails) => WriteTableKeepsInStep(s, c.ttl, i, fails, g);
    case WriteCache(i) => WriteCacheKeepsInStep(s, c.ttl, i, g);
    case Restart(listing) => RestartIsInStep(s, listing, g);
    case _ =>
      SystemStepsLeaveCalls(s, c, step);
      SystemMovesKeepInStep(s, Next(s, c, step), g);
  }

  // ------------------------------------------------------------------- agreement

  /** No table write for g in the run crosses a token about to be cached. */
  ghost predicate Uncrossed(s: State, c: Config, steps: seq<Step>, g: Id)
    decreases |steps|
  {
    steps == [] || (!Crosses(s, steps[0], g) && Uncrossed(Next(s, c, steps[0]), c, steps[1..], g))
  }

  lemma {:induction false} UncrossedKeepsInStep(s: State, c: Config, steps: seq<Step>, g: Id)
    requires Recorded(s.sys, s.bound, s.cached) && InStep(s, g) && Uncrossed(s, c, steps, g)
    ensures var s' := Steps(s, c, steps); Recorded(s'.sys, s'.bound, s'.cached) && InStep(s', g)
    decreases |steps|
  {
    if steps != [] {
      StepKeepsRecorded(s, c, steps[0]);
      StepKeepsInStep(s, c, steps[0], g);
      UncrossedKeepsInStep(Next(s, c, steps[0]), c, steps[1..], g);
    }
  }

  /** Whatever the calls of other gates do: unless a table write for g crosses a token about to be
      cached, entry and row of g name the same token in every state in which no call of g
      stands between its two writes. */
  lemma UncrossedWritesAgree(sys: System, c: Config, steps: seq<Step>, g: Id)
    requires Uncrossed(Start(sys), c, steps, g)
    ensures var s := Steps(Start(sys), c, steps); !Updating(s, g) ==> Agree(s.sys, g)
  {
    UncrossedKeepsInStep(Start(sys), c, steps, g);
  }

  /** The condition is needed: a cache write leaves entry and row agreeing exactly when it is of
      the token that the row names, so each crossing by another token ends in disagreement. */
  lemma LateCacheWriteAgreesIff(s: State, c: Config, i: CallId, g: Id)
    requires Holding(s, i, g) && g in s.sys.db.sticky
    ensures var s' := if s.calls[i].phase.Found? then DoFillCache(s, i) else DoWriteCache(s, c.ttl, i);
      g in s'.sys.cache && g in s'.sys.db.sticky && (Agree(s'.sys, g) <==> Held(s, i) == s.sys.db.sticky[g].realId)
  {
  }

  /** At most one call of g is in flight. */
  ghost predicate Single(s: State, g: Id) {
    forall i, j :: i in s.calls && j in s.calls && s.calls[i].gateId == s.calls[j].gateId == g ==> i == j
  }

  /** No call of g begins while another one is in flight. */
  ghost predicate Separate(s: State, c: Config, steps: seq<Step>, g: Id)
    decreases |steps|
  {
    steps == [] ||
    ((steps[0].Begin? && steps[0].gateId == g ==> forall i :: i in s.calls ==> s.calls[i].gateId != g)
     && Separate(Next(s, c, steps[0]), c, steps[1..], g))
  }

  /** No step but Begin adds a call or changes whose it is. */
  lemma CallsKeepTheirGate(s: State, c: Config, step: Step, i: CallId)
    requires i in Next(s, c, step).calls
    ensures if i in s.calls then Next(s, c, step).calls[i].gateId == s.calls[i].gateId
      else step.Begin? && step.call == i && Next(s, c, step).calls[i].gateId == step.gateId
  {
  }

  lemma SeparateStepKeepsSingle(s: State, c: Config, step: Step, g: Id)
    requires Single(s, g)
    requires step.Begin? && step.gateId == g ==> forall i :: i in s.calls ==> s.calls[i].gateId != g
    ensures Single(Next(s, c, step), g)
  {
    var s' := Next(s, c, step);
    forall i, j | i in s'.calls && j in s'.calls && s'.calls[i].gateId == s'.calls[j].gateId == g
      ensures i == j
    {
      CallsKeepTheirGate(s, c, step, i);
      CallsKeepTheirGate(s, c, step, j);
    }
  }

  lemma {:induction false} SeparateCallsDoNotCross(s: State, c: Config, steps: seq<Step>, g: Id)
    requires Single(s, g) && Separate(s, c, steps, g)
    ensures Uncrossed(s, c, steps, g)
    decreases |steps|
  {
    if steps != [] {
      SeparateStepKeepsSingle(s, c, steps[0], g);
      SeparateCallsDoNotCross(Next(s, c, steps[0]), c, steps[1..], g);
    }
  }

  /** As long as no two calls of one gate overlap, whatever other gates do, cache and table name
      the same token for it whenever none of its calls is in flight. */
  lemma CacheAgreesWithTable(sys: System, c: Config, steps: seq<Step>, g: Id)
    requires Separate(Start(sys), c, steps, g)
    ensures var s := Steps(Start(sys), c, steps);
      (forall i :: i in s.calls ==> s.calls[i].gateId != g) ==> Agree(s.sys, g)
  {
    SeparateCallsDoNotCross(Start(sys), c, steps, g);
    UncrossedWritesAgree(sys, c, steps, g);
  }

  // --------------------------------------------- agreement without another table write

  /** Every token about to be cached for g is the row's, and unless a call stands between its two
      writes the cached one agrees with the row. */
  ghost predicate Tuned(s: State, g: Id) {
    g in s.sys.db.sticky ==>
      && (forall i :: Holding(s, i, g) ==> Held(s, i) == s.sys.db.sticky[g].realId)
      && (!Updating(s, g) ==> Agree(s.sys, g))
  }

  predicate WritesTable(s: State, step: Step, g: Id) {
    step.WriteTable? && step.call in s.calls && s.calls[step.call].gateId == g
  }

  /** No call writes the table for g in the run; new calls of g may begin, read and return. */
  ghost predicate NoTableWrite(s: State, c: Config, steps: seq<Step>, g: Id)
    decreases |steps|
  {
    steps == [] || (!WritesTable(s, steps[0], g) && NoTableWrite(Next(s, c, steps[0]), c, steps[1..], g))
  }

  /** Call i neither takes hold of a token of g nor stops or starts standing between its writes. */
  lemma IdleMoveKeepsTuned(s: State, s': State, i: CallId, g: Id)
    requires Tuned(s, g) && s'.sys.db == s.sys.db
    requires g in s'.sys.cache ==> g in s.sys.cache && s'.sys.cache[g].realId == s.sys.cache[g].realId
    requires i in s.calls && s.calls[i].gateId == g ==> !s.calls[i].phase.Written?
    requires i in s'.calls && s'.calls[i].gateId == g ==> !s'.calls[i].phase.Found? && !s'.calls[i].phase.Written?
    requires forall j :: j != i ==> (j in s.calls <==> j in s'.calls) && (j in s.calls ==> s'.calls[j] == s.calls[j])
    ensures Tuned(s', g)
  {
    OtherCallsUpdate(s, s', i, g);
    assert forall j :: Holding(s', j, g) ==> Holding(s, j, g) && Held(s', j) == Held(s, j);
  }

  lemma QuietCallKeepsTuned(s: State, i: CallId, h: Id, extended: Time, g: Id)
    requires Tuned(s, g)
    ensures Tuned(DoBegin(s, i, h, extended), g) && Tuned(DoCheck(s, i), g) && Tuned(DoChoose(s, i), g)
  {
    if i !in s.calls {
      IdleMoveKeepsTuned(s, DoBegin(s, i, h, extended), i, g);
    } else if s.calls[i].phase.Checking? {
      IdleMoveKeepsTuned(s, DoCheck(s, i), i, g);
    } else if s.calls[i].phase.Choosing? {
      IdleMoveKeepsTuned(s, DoChoose(s, i), i, g);
    }
  }

  lemma ReadKeepsTuned(s: State, c: Config, i: CallId, fails: bool, g: Id)
    requires Tuned(s, g) && i in s.calls && s.calls[i].phase.Looking?
    ensures Tuned(DoReadRow(s, c.later, i, fails), g)
  {
    var s' := DoReadRow(s, c.later, i, fails);
    OtherCallsUpdate(s, s', i, g);
    assert forall j :: j != i && Holding(s', j, g) ==> Holding(s, j, g) && Held(s', j) == Held(s, j);
  }

  lemma FillKeepsTuned(s: State, i: CallId, g: Id)
    requires Tuned(s, g) && i in s.calls && s.calls[i].phase.Found?
    ensures Tuned(DoFillCache(s, i), g)
  {
    var s' := DoFillCache(s, i);
    OtherCallsUpdate(s, s', i, g);
    assert s.calls[i].gateId == g ==> Holding(s, i, g);
    assert forall j :: Holding(s', j, g) ==> Holding(s, j, g) && Held(s', j) == Held(s, j);
  }

  /** A step of another gate's call. */
  lemma OtherGateKeepsTuned(s: State, s': State, i: CallId, g: Id)
    requires Tuned(s, g)
    requires g in s'.sys.db.sticky ==> g in s.sys.db.sticky && s'.sys.db.sticky[g] == s.sys.db.sticky[g]
    requires s'.sys.cache == s.sys.cache
    requires i in s.calls ==> s.calls[i].gateId != g
    requires i in s'.calls ==> s'.calls[i].gateId != g
    requires forall j :: j != i ==> (j in s.calls <==> j in s'.calls) && (j in s.calls ==> s'.calls[j] == s.calls[j])
    ensures Tuned(s', g)
  {
    OtherCallsUpdate(s, s', i, g);
    assert forall j :: Holding(s', j, g) ==> Holding(s, j, g) && Held(s', j) == Held(s, j);
  }

  lemma OtherTableWriteKeepsTuned(s: State, ttl: Ttl, i: CallId, fails: bool, g: Id)
    requires Tuned(s, g) && i in s.calls && s.calls[i].gateId != g && s.calls[i].phase.Binding?
    ensures Tuned(DoWriteTable(s, ttl, i, fails), g)
  {
    OtherGateKeepsTuned(s, DoWriteTable(s, ttl, i, fails), i, g);
  }

  lemma CacheWriteKeepsTuned(s: State, ttl: Ttl, i: CallId, g: Id)
    requires Tuned(s, g) && i in s.calls && s.calls[i].phase.Written?
    ensures Tuned(DoWriteCache(s, ttl, i), g)
  {
    var s' := DoWriteCache(s, ttl, i);
    assert forall j :: Holding(s', j, g) ==> Holding(s, j, g) && Held(s', j) == Held(s, j);
    if s.calls[i].gateId == g {
      assert Holding(s, i, g);
    } else {
      OtherCallsUpdate(s, s', i, g);
    }
  }

  lemma SystemStepsShrink(s: State, c: Config, step: Step, g: Id)
    requires OfTheSystem(step)
    ensures var s' := Next(s, c, step);
      && (g in s'.sys.db.sticky ==> g in s.sys.db.sticky && s'.sys.db.sticky[g] == s.sys.db.sticky[g])
      && (g in s'.sys.cache ==> g in s.sys.cache && s'.sys.cache[g] == s.sys.cache[g])
  {
    if step.StoreCall? && !step.op.UpsertStickyOp? {
      SessionsOnlyShrink(s.sys.db, step.op, g);
    }
  }

  lemma SystemKeepsTuned(s: State, s': State, g: Id)
    requires Tuned(s, g) && s'.calls == s.calls
    requires g in s'.sys.db.sticky ==> g in s.sys.db.sticky && s'.sys.db.sticky[g] == s.sys.db.sticky[g]
    requires g in s'.sys.cache ==> g in s.sys.cache && s'.sys.cache[g] == s.sys.cache[g]
    ensures Tuned(s', g)
  {
    assert forall j :: Holding(s', j, g) ==> Holding(s, j, g) && Held(s', j) == Held(s, j);
    assert Updating(s', g) <==> Updating(s, g);
  }

  lemma RestartIsTuned(s: State, listing: seq<Row>, g: Id)
    ensures Tuned(DoRestart(s, listing), g)
  {
  }

  lemma StepKeepsTuned(s: State, c: Config, step: Step, g: Id)
    requires Tuned(s, g) && !WritesTable(s, step, g)
    ensures Tuned(Next(s, c, step), g)
  {
    match step
    case Begin(i, h, extended) => QuietCallKeepsTuned(s, i, h, extended, g);
    case ReadRow(i, fails) =>
      if i in s.calls && s.calls[i].phase.Looking? {
        ReadKeepsTuned(s, c, i, fails, g);
      }
    case FillCache(i) =>
      if i in s.calls && s.calls[i].phase.Found? {
        FillKeepsTuned(s, i, g);
      }
    case Check(i) => QuietCallKeepsTuned(s, i, "", 0, g);
    case Choose(i) => QuietCallKeepsTuned(s, i, "", 0, g);
    case WriteTable(i, fails) =>
      if i in s.calls && s.calls[i].phase.Binding? {
        OtherTableWriteKeepsTuned(s, c.ttl, i, fails, g);
      }
    case WriteCache(i) =>
      if i in s.calls && s.calls[i].phase.Written? {
        CacheWriteKeepsTuned(s, c.ttl, i, g);
      }
    case Restart(listing) => RestartIsTuned(s, listing, g);
    case _ =>
      SystemStepsLeaveCalls(s, c, step);
      SystemStepsShrink(s, c, step, g);
      SystemKeepsTuned(s, Next(s, c, step), g);
  }

  lemma {:induction false} StepsKeepTuned(s: State, c: Config, steps: seq<Step>, g: Id)
    requires Tuned(s, g) && NoTableWrite(s, c, steps, g)
    ensures Tuned(Steps(s, c, steps), g)
    decreases |steps|
  {
    if steps != [] {
      StepKeepsTuned(s, c, steps[0], g);
      StepsKeepTuned(Next(s, c, steps[0]), c, steps[1..], g);
    }
  }

  predicate WrittenFor(s: State, j: CallId, g: Id) {
    j in s.calls && s.calls[j].gateId == g && s.calls[j].phase.Written?
  }

  lemma PrependStep(s: State, c: Config, step: Step, steps: seq<Step>, g: Id)
    requires !WritesTable(s, step, g) && NoTableWrite(Next(s, c, step), c, steps, g)
    ensures NoTableWrite(s, c, [step] + steps, g)
    ensures Steps(s, c, [step] + steps) == Steps(Next(s, c, step), c, steps)
  {
    assert ([step] + steps)[0] == step && ([step] + steps)[1..] == steps;
  }

  /** Every other call of g that stands between its writes makes its second one. */
  lemma {:induction false} OthersFinish(s: State, c: Config, g: Id, i: CallId, ids: set<CallId>)
    returns (steps: seq<Step>)
    requires Holding(s, i, g) && i !in ids && forall j :: j in ids <==> j != i && WrittenFor(s, j, g)
    ensures NoTableWrite(s, c, steps, g)
    ensures var s' := Steps(s, c, steps);
      && s'.sys.db == s.sys.db && i in s'.calls && s'.calls[i] == s.calls[i]
      && forall j :: j != i ==> !WrittenFor(s', j, g)
    decreases |ids|
  {
    if ids == {} {
      steps := [];
    } else {
      var j :| j in ids;
      assert WrittenFor(s, j, g);
      var next := DoWriteCache(s, c.ttl, j);
      assert next == Next(s, c, WriteCache(j));
      assert forall k :: k in ids - {j} <==> k != i && WrittenFor(next, k, g);
      var rest := OthersFinish(next, c, g, i, ids - {j});
      PrependStep(s, c, WriteCache(j), rest, g);
      steps := [WriteCache(j)] + rest;
    }
  }

  lemma {:induction false} StepsAppend(s: State, c: Config, a: seq<Step>, step: Step, g: Id)
    requires NoTableWrite(s, c, a, g) && !WritesTable(Steps(s, c, a), step, g)
    ensures NoTableWrite(s, c, a + [step], g)
    decreases |a|
  {
    if a == [] {
      assert [] + [step] == [step] && [step][1..] == [];
    } else {
      AppendPeels(a, [step]);
      StepsAppend(Next(s, c, a[0]), c, a[1..], step, g);
    }
  }

  lemma NobodyUpdates(mid: State, end: State, i: CallId, g: Id)
    requires forall j :: j != i ==> !WrittenFor(mid, j, g)
    requires i in end.calls ==> !end.calls[i].phase.Written?
    requires forall j :: j != i ==>
      (j in mid.calls <==> j in end.calls) && (j in mid.calls ==> end.calls[j] == mid.calls[j])
    ensures !Updating(end, g)
  {
    forall j | j in end.calls && end.calls[j].gateId == g
      ensures !end.calls[j].phase.Written?
    {
      assert j != i ==> !WrittenFor(mid, j, g);
    }
  }

  /** A token about to be cached that is not the row's can be cached last. */
  lemma MistunedEndsApart(s: State, c: Config, g: Id, i: CallId) returns (steps: seq<Step>)
    requires g in s.sys.db.sticky && Holding(s, i, g) && Held(s, i) != s.sys.db.sticky[g].realId
    ensures NoTableWrite(s, c, steps, g)
    ensures var s' := Steps(s, c, steps); !Updating(s', g) && !Agree(s'.sys, g)
  {
    var others := set j | j in s.calls && j != i && WrittenFor(s, j, g);
    var first := OthersFinish(s, c, g, i, others);
    var mid := Steps(s, c, first);
    var last := if s.calls[i].phase.Found? then FillCache(i) else WriteCache(i);
    LateCacheWriteAgreesIff(mid, c, i, g);
    StepsThen(s, c, first, last);
    StepsAppend(s, c, first, last, g);
    var end := if s.calls[i].phase.Found? then DoFillCache(mid, i) else DoWriteCache(mid, c.ttl, i);
    assert Next(mid, c, last) == end;
    NobodyUpdates(mid, end, i, g);
    steps := first + [last];
  }

  lemma EmptyRun(s: State, c: Config, g: Id) returns (steps: seq<Step>)
    ensures NoTableWrite(s, c, steps, g) && Steps(s, c, steps) == s
  {
    steps := [];
  }

  /** From any state, over all runs in which no call writes the table for g: entry and row of g
      agree whenever no call of g stands between its two writes, exactly when every token of g
      about to be cached is the row's and so, unless such a call is there, is the cached one. */
  lemma AgreementLastsIff(s: State, c: Config, g: Id)
    ensures (forall steps :: NoTableWrite(s, c, steps, g) ==>
      Updating(Steps(s, c, steps), g) || Agree(Steps(s, c, steps).sys, g)) <==> Tuned(s, g)
  {
    if Tuned(s, g) {
      forall steps | NoTableWrite(s, c, steps, g)
        ensures Updating(Steps(s, c, steps), g) || Agree(Steps(s, c, steps).sys, g)
      {
        StepsKeepTuned(s, c, steps, g);
      }
    } else if i :| Holding(s, i, g) && Held(s, i) != s.sys.db.sticky[g].realId {
      var steps := MistunedEndsApart(s, c, g, i);
    } else {
      var none := EmptyRun(s, c, g);
    }
  }

  // ------------------------------------------------------------------ crossing runs

  lemma {:induction false} StepsThen(s: State, c: Config, steps: seq<Step>, step: Step)
    ensures Steps(s, c, steps + [step]) == Next(Steps(s, c, steps), c, step)
    decreases |steps|
  {
    if steps == [] {
      assert (steps + [step])[1..] == [];
    } else {
      AppendPeels(steps, [step]);
      StepsThen(Next(s, c, steps[0]), c, steps[1..], step);
    }
  }

  lemma NextReachable(s: State, sys: System, c: Config, step: Step) returns (s': State)
    requires Reachable(s, sys, c)
    ensures s' == Next(s, c, step) && Reachable(s', sys, c)
  {
    var steps :| s == Steps(Start(sys), c, steps);
    StepsThen(Start(sys), c, steps, step);
    s' := Next(s, c, step);
  }

  // One step at a time: each hides the other cases of Next from the runs built below.

  lemma TakeBegin(s: State, sys: System, c: Config, i: CallId, g: Id) returns (s': State)
    requires Reachable(s, sys, c)
    ensures s' == DoBegin(s, i, g, 0) && Reachable(s', sys, c)
  {
    s' := NextReachable(s, sys, c, Begin(i, g, 0));
  }

  lemma TakeReadRow(s: State, sys: System, c: Config, i: CallId, fails: bool) returns (s': State)
    requires Reachable(s, sys, c)
    ensures s' == DoReadRow(s, c.later, i, fails) && Reachable(s', sys, c)
  {
    s' := NextReachable(s, sys, c, ReadRow(i, fails));
  }

  lemma TakeFillCache(s: State, sys: System, c: Config, i: CallId) returns (s': State)
    requires Reachable(s, sys, c)
    ensures s' == DoFillCache(s, i) && Reachable(s', sys, c)
  {
    s' := NextReachable(s, sys, c, FillCache(i));
  }

  lemma TakeCheck(s: State, sys: System, c: Config, i: CallId) returns (s': State)
    requires Reachable(s, sys, c)
    ensures s' == DoCheck(s, i) && Reachable(s', sys, c)
  {
    s' := NextReachable(s, sys, c, Check(i));
  }

  lemma TakeChoose(s: State, sys: System, c: Config, i: CallId) returns (s': State)
    requires Reachable(s, sys, c)
    ensures s' == DoChoose(s, i) && Reachable(s', sys, c)
  {
    s' := NextReachable(s, sys, c, Choose(i));
  }

  lemma TakeWriteTable(s: State, sys: System, c: Config, i: CallId) returns (s': State)
    requires Reachable(s, sys, c)
    ensures s' == DoWriteTable(s, c.ttl, i, false) && Reachable(s', sys, c)
  {
    s' := NextReachable(s, sys, c, WriteTable(i, false));
  }

  lemma TakeWriteCache(s: State, sys: System, c: Config, i: CallId) returns (s': State)
    requires Reachable(s, sys, c)
    ensures s' == DoWriteCache(s, c.ttl, i) && Reachable(s', sys, c)
  {
    s' := NextReachable(s, sys, c, WriteCache(i));
  }

  /** A call that has chosen binds its token, undivided. */
  function BoundAtOnce(s: State, ttl: Ttl, i: CallId): State {
    DoWriteCache(DoWriteTable(s, ttl, i, false), ttl, i)
  }

  lemma BindAtOnce(s: State, ttl: Ttl, i: CallId, g: Id, row: Row)
    requires At(s, i, g, Binding(row)) && g in s.sys.db.gates && row.0 in s.sys.db.reals
    ensures var s' := BoundAtOnce(s, ttl, i);
      && s'.calls == s.calls - {i} && s'.sys.pool == s.sys.pool
      && s'.sys.db == s.sys.db.(sticky := s.sys.db.sticky[g := StickySession(row.0, s.sys.now + ttl)])
  {
    var w := DoWriteTable(s, ttl, i, false);
    assert w.calls == s.calls[i := Call(g, Written(row))];
    assert w.calls - {i} == s.calls - {i};
  }

  /** A call whose table read fails chooses a token. */
  function ChosenBlindly(s: State, later: LaterThan, i: CallId, g: Id): State {
    DoChoose(DoReadRow(DoBegin(s, i, g, 0), later, i, true), i)
  }

  lemma ChooseBlindly(s: State, later: LaterThan, i: CallId, g: Id)
    requires i !in s.calls && g !in s.sys.cache && s.sys.pool != []
    ensures var s' := ChosenBlindly(s, later, i, g);
      && s'.sys == s.sys.(counter := (s.sys.counter + 1) % TWO_64)
      && s'.calls == s.calls[i := Call(g, Binding(RoundRobinChoice(s.sys.pool, s.sys.counter)))]
  {
    var b := DoBegin(s, i, g, 0);
    assert b == s.(calls := s.calls[i := Call(g, Looking)]);
    var r := DoReadRow(b, later, i, true);
    assert r == Move(b, i, Choosing);
    assert r.calls == s.calls[i := Call(g, Choosing)];
  }

  lemma TakeBind(s: State, sys: System, c: Config, i: CallId, g: Id, row: Row) returns (s': State)
    requires Reachable(s, sys, c) && At(s, i, g, Binding(row)) && g in s.sys.db.gates && row.0 in s.sys.db.reals
    ensures Reachable(s', sys, c) && s'.calls == s.calls - {i} && s'.sys.pool == s.sys.pool
    ensures s'.sys.db == s.sys.db.(sticky := s.sys.db.sticky[g := StickySession(row.0, s.sys.now + c.ttl)])
  {
    BindAtOnce(s, c.ttl, i, g, row);
    s' := TakeWriteTable(s, sys, c, i);
    s' := TakeWriteCache(s', sys, c, i);
  }

  lemma TakeChoice(s: State, sys: System, c: Config, i: CallId, g: Id) returns (s': State)
    requires Reachable(s, sys, c) && i !in s.calls && g !in s.sys.cache && s.sys.pool != []
    ensures Reachable(s', sys, c) && s'.sys == s.sys.(counter := (s.sys.counter + 1) % TWO_64)
    ensures s'.calls == s.calls[i := Call(g, Binding(RoundRobinChoice(s.sys.pool, s.sys.counter)))]
  {
    ChooseBlindly(s, c.later, i, g);
    s' := TakeBegin(s, sys, c, i, g);
    s' := TakeReadRow(s', sys, c, i, true);
    s' := TakeChoose(s', sys, c, i);
  }

  lemma StartReachable(sys: System, c: Config) returns (s: State)
    ensures s == Start(sys) && Reachable(s, sys, c)
  {
    s := Start(sys);
    assert s == Steps(s, c, []);
  }

  /** A call that has read the row. */
  lemma RowRead(sys: System, c: Config, g: Id, first: Id) returns (s: State)
    requires NeverHides(c.later) && g in sys.db.sticky
    requires sys.db.sticky[g].realId == first && sys.db.sticky[g].expiresAt > sys.now
    ensures Reachable(s, sys, c) && s.sys == sys.(cache := map[])
    ensures s.calls == map[0 := Call(g, Found(first, sys.db.sticky[g].expiresAt - sys.now))]
  {
    s := StartReachable(sys, c);
    var b := TakeBegin(s, sys, c, 0, g);
    assert b == s.(calls := map[0 := Call(g, Looking)]);
    s := TakeReadRow(b, sys, c, 0, false);
  }

  /** It caches what it read, finds the token in the pool, and returns. */
  lemma LateFill(s: State, sys: System, c: Config, g: Id, first: Id, left: Time) returns (s': State)
    requires Reachable(s, sys, c) && s.calls == map[0 := Call(g, Found(first, left))]
    requires g in s.sys.db.sticky && s.sys.db.sticky[g].realId != first && Find(s.sys.pool, first).Some?
    ensures Reachable(s', sys, c) && s'.calls == map[]
    ensures g in s'.sys.cache && g in s'.sys.db.sticky && !Agree(s'.sys, g)
  {
    LateCacheWriteAgreesIff(s, c, 0, g);
    var d := TakeFillCache(s, sys, c, 0);
    s' := TakeCheck(d, sys, c, 0);
    assert d.calls - {0} == map[];
  }

  /** One bind is enough: a call reads the row, another one, whose read fails, binds the next
      token undivided, and the first then caches what it read. */
  lemma FallbackCrossesBind(sys: System, c: Config, g: Id, first: Id) returns (s: State)
    requires NeverHides(c.later) && g in sys.db.gates && g in sys.db.sticky
    requires sys.db.sticky[g].realId == first && sys.db.sticky[g].expiresAt > sys.now
    requires sys.pool != [] && Find(sys.pool, first).Some?
    requires var next := RoundRobinChoice(sys.pool, sys.counter).0; next != first && next in sys.db.reals
    ensures Reachable(s, sys, c) && s.calls == map[]
    ensures g in s.sys.cache && g in s.sys.db.sticky && !Agree(s.sys, g)
  {
    var next := RoundRobinChoice(sys.pool, sys.counter);
    var f := RowRead(sys, c, g, first);
    var n := TakeChoice(f, sys, c, 1, g);
    var w := TakeBind(n, sys, c, 1, g, next);
    assert w.calls == f.calls;
    s := LateFill(w, sys, c, g, first, sys.db.sticky[g].expiresAt - sys.now);
  }

  /** Two calls of one gate have chosen, one after the other. */
  lemma TwoChosen(sys: System, c: Config, g: Id, one: Row, two: Row) returns (s: State)
    requires sys.pool != []
    requires one == RoundRobinChoice(sys.pool, sys.counter)
    requires two == RoundRobinChoice(sys.pool, (sys.counter + 1) % TWO_64)
    ensures Reachable(s, sys, c) && s.calls == map[0 := Call(g, Binding(one)), 1 := Call(g, Binding(two))]
    ensures s.sys.db == sys.db
  {
    s := StartReachable(sys, c);
    s := TakeChoice(s, sys, c, 0, g);
    s := TakeChoice(s, sys, c, 1, g);
  }

  /** The first of them has written the table. */
  lemma FirstOfTwoWritten(sys: System, c: Config, g: Id, one: Row, two: Row) returns (s: State)
    requires g in sys.db.gates && sys.pool != [] && one.0 in sys.db.reals
    requires one == RoundRobinChoice(sys.pool, sys.counter)
    requires two == RoundRobinChoice(sys.pool, (sys.counter + 1) % TWO_64)
    ensures Reachable(s, sys, c) && s.calls == map[0 := Call(g, Written(one)), 1 := Call(g, Binding(two))]
    ensures s.sys.db.gates == sys.db.gates && s.sys.db.reals == sys.db.reals
  {
    s := TwoChosen(sys, c, g, one, two);
    s := TakeWriteTable(s, sys, c, 0);
  }

  /** Two binds of one gate that interleave: the table keeps the second token, the cache the first. */
  lemma BindsCross(sys: System, c: Config, g: Id, one: Row, two: Row) returns (s: State)
    requires g in sys.db.gates && sys.pool != [] && one.0 in sys.db.reals && two.0 in sys.db.reals && one.0 != two.0
    requires one == RoundRobinChoice(sys.pool, sys.counter)
    requires two == RoundRobinChoice(sys.pool, (sys.counter + 1) % TWO_64)
    ensures Reachable(s, sys, c) && s.calls == map[]
    ensures g in s.sys.cache && g in s.sys.db.sticky && !Agree(s.sys, g)
  {
    var w := FirstOfTwoWritten(sys, c, g, one, two);
    var v := TakeBind(w, sys, c, 1, g, two);
    assert v.calls == map[0 := Call(g, Written(one))];
    LateCacheWriteAgreesIff(v, c, 0, g);
    s := TakeWriteCache(v, sys, c, 0);
    assert v.calls - {0} == map[];
  }

  // ------------------------------------------------------------------ bindings stick

  /** The call, if it is one of g, knows no binding but realId and is not about to choose. */
  predicate Follows(call: Call, g: Id, realId: Id) {
    call.gateId == g ==>
      match call.phase
      case Looking => true
      case Found(id, _) => id == realId
      case Checking(id) => id == realId
      case Written(row) => row.0 == realId
      case _ => false
  }

  /** The gate is bound to the token until the given time, and no call of it goes another way. */
  ghost predicate StuckTo(s: State, g: Id, realId: Id, until: Time) {
    Sticks(s.sys, g, realId, until) && forall i :: i in s.calls ==> Follows(s.calls[i], g, realId)
  }

  /** What the step returned to callers of g, if anything, is the token. */
  ghost predicate Answered(s: State, s': State, g: Id, realId: Id) {
    && s.answers <= s'.answers
    && forall k :: |s.answers| <= k < |s'.answers| && s'.answers[k].gateId == g ==>
         s'.answers[k].token.Some? && s'.answers[k].token.value.0 == realId
  }

  /** No table read of a call of g fails in this step. */
  predicate ReadsWell(s: State, step: Step, g: Id) {
    step.ReadRow? && step.call in s.calls && s.calls[step.call].gateId == g ==> !step.fails
  }

  lemma ResolveStepsStick(s: State, c: Config, i: CallId, h: Id, extended: Time, fails: bool,
                          g: Id, realId: Id, until: Time)
    requires NeverHides(c.later) && StuckTo(s, g, realId, until) && Undisturbed(s.sys, g, realId, until)
    requires ReadsWell(s, ReadRow(i, fails), g)
    ensures StuckTo(DoBegin(s, i, h, extended), g, realId, until)
    ensures StuckTo(DoReadRow(s, c.later, i, fails), g, realId, until)
    ensures StuckTo(DoFillCache(s, i), g, realId, until)
    ensures DoBegin(s, i, h, extended).answers == s.answers
    ensures DoReadRow(s, c.later, i, fails).answers == DoFillCache(s, i).answers == s.answers
  {
  }

  lemma RestartSticks(s: State, listing: seq<Row>, g: Id, realId: Id, until: Time)
    requires StuckTo(s, g, realId, until)
    ensures var s' := DoRestart(s, listing); StuckTo(s', g, realId, until) && s'.answers == s.answers
  {
  }

  lemma CheckSticks(s: State, i: CallId, g: Id, realId: Id, until: Time)
    requires StuckTo(s, g, realId, until) && Undisturbed(s.sys, g, realId, until)
    ensures var s' := DoCheck(s, i); StuckTo(s', g, realId, until) && Answered(s, s', g, realId)
  {
  }

  lemma ChooseSticks(s: State, i: CallId, g: Id, realId: Id, until: Time)
    requires StuckTo(s, g, realId, until)
    ensures var s' := DoChoose(s, i); StuckTo(s', g, realId, until) && Answered(s, s', g, realId)
  {
  }

  lemma WritesStick(s: State, ttl: Ttl, i: CallId, fails: bool, g: Id, realId: Id, until: Time)
    requires StuckTo(s, g, realId, until)
    ensures var s' := DoWriteTable(s, ttl, i, fails); StuckTo(s', g, realId, until) && Answered(s, s', g, realId)
    ensures var s' := DoWriteCache(s, ttl, i); StuckTo(s', g, realId, until) && Answered(s, s', g, realId)
  {
  }

  lemma SystemStepsStick(s: State, c: Config, step: Step, g: Id, realId: Id, until: Time)
    requires OfTheSystem(step) && StuckTo(s, g, realId, until)
    requires Undisturbed(s.sys, g, realId, until) && Undisturbed(Next(s, c, step).sys, g, realId, until)
    ensures StuckTo(Next(s, c, step), g, realId, until) && Next(s, c, step).answers == s.answers
  {
    SystemStepsLeaveCalls(s, c, step);
    if step.StoreCall? && !step.op.UpsertStickyOp? {
      SessionsOnlyShrink(s.sys.db, step.op, g);
    }
  }

  lemma StepSticks(s: State, c: Config, step: Step, g: Id, realId: Id, until: Time)
    requires NeverHides(c.later) && StuckTo(s, g, realId, until) && ReadsWell(s, step, g)
    requires Undisturbed(s.sys, g, realId, until) && Undisturbed(Next(s, c, step).sys, g, realId, until)
    ensures StuckTo(Next(s, c, step), g, realId, until) && Answered(s, Next(s, c, step), g, realId)
  {
    match step
    case Begin(i, h, extended) => ResolveStepsStick(s, c, i, h, extended, false, g, realId, until);
    case ReadRow(i, fails) => ResolveStepsStick(s, c, i, g, 0, fails, g, realId, until);
    case FillCache(i) => ResolveStepsStick(s, c, i, g, 0, false, g, realId, until);
    case Check(i) => CheckSticks(s, i, g, realId, until);
    case Choose(i) => ChooseSticks(s, i, g, realId, until);
    case WriteTable(i, fails) => WritesStick(s, c.ttl, i, fails, g, realId, until);
    case WriteCache(i) => WritesStick(s, c.ttl, i, false, g, realId, until);
    case Restart(listing) => RestartSticks(s, listing, g, realId, until);
    case _ => SystemStepsStick(s, c, step, g, realId, until);
  }

  /** In every state of the run the expiry is not reached, the row is there and the token is in
      the installed pool; and no table read for g fails. */
  ghost predicate UndisturbedRun(s: State, c: Config, steps: seq<Step>, g: Id, realId: Id, until: Time)
    decreases |steps|
  {
    && Undisturbed(s.sys, g, realId, until)
    && (steps == [] ||
        (ReadsWell(s, steps[0], g) && UndisturbedRun(Next(s, c, steps[0]), c, steps[1..], g, realId, until)))
  }

  /** Stickiness over runs: across any interleaving of calls of this and other gates, refreshes,
      expired-row cleanup, evictions, other store calls and restarts, as long as the expiry is
      not reached, the row is not deleted and the token stays in the pool, every call of the
      gate that returns yields its token, and the binding stays. */
  lemma {:induction false} BindingSticks(s: State, c: Config, steps: seq<Step>, g: Id, realId: Id, until: Time)
    requires NeverHides(c.later) && StuckTo(s, g, realId, until)
    requires UndisturbedRun(s, c, steps, g, realId, until)
    ensures var s' := Steps(s, c, steps); StuckTo(s', g, realId, until) && Answered(s, s', g, realId)
    decreases |steps|
  {
    if steps != [] {
      var mid := Next(s, c, steps[0]);
      assert Undisturbed(mid.sys, g, realId, until) && UndisturbedRun(mid, c, steps[1..], g, realId, until);
      StepSticks(s, c, steps[0], g, realId, until);
      BindingSticks(mid, c, steps[1..], g, realId, until);
    }
  }

  /** The table reads must not fail: a failed one sends its call of the gate to choose another token. */
  lemma FailedReadLetsGoIff(s: State, c: Config, i: CallId, g: Id, realId: Id, until: Time)
    requires StuckTo(s, g, realId, until)
    ensures StuckTo(DoReadRow(s, c.later, i, true), g, realId, until) <==>
      !(i in s.calls && s.calls[i].gateId == g && s.calls[i].phase.Looking?)
  {
    var s' := DoReadRow(s, c.later, i, true);
    if i in s.calls && s.calls[i].gateId == g && s.calls[i].phase.Looking? {
      assert i in s'.calls && !Follows(s'.calls[i], g, realId);
    }
  }

  /** It starts with the second write of a bind, if no call of the gate then in flight knows
      another token or is about to choose; the cache write needs no more than that. */
  lemma BindTakesHold(s: State, c: Config, i: CallId, g: Id, row: Row, until: Time)
    requires At(s, i, g, Written(row))
    requires g in s.sys.db.sticky && s.sys.db.sticky[g] == StickySession(row.0, until)
    ensures var s' := DoWriteCache(s, c.ttl, i);
      StuckTo(s', g, row.0, until) <==> forall j :: j in s.calls && j != i ==> Follows(s.calls[j], g, row.0)
  {
    var s' := DoWriteCache(s, c.ttl, i);
    assert forall j :: j in s'.calls <==> j in s.calls && j != i;
  }

  /** What goes without a call: an eviction takes an expired entry of that gate, the cleanup the rows
      that the table takes for expired, a restart every entry. */
  lemma OnlyExpiredGo(s: State, c: Config, h: Id, g: Id)
    ensures var evicted := Next(s, c, Evict(h)).sys;
      && (g in evicted.cache <==> g in s.sys.cache && !(g == h && s.sys.cache[g].expiresAt <= s.sys.now))
      && evicted.db == s.sys.db
    ensures var cleaned := Next(s, c, Cleanup).sys;
      && (g in cleaned.db.sticky <==> g in s.sys.db.sticky && c.later(s.sys.db.sticky[g].expiresAt, s.sys.now))
      && (g in cleaned.db.sticky ==> cleaned.db.sticky[g] == s.sys.db.sticky[g]) && cleaned.cache == s.sys.cache
    ensures Next(s, c, Restart([])).sys.cache == map[] && Next(s, c, Restart([])).sys.db == s.sys.db
  {
  }

  // ------------------------------------------------------------------ bindings end

  /** Entry or row of g is good for longer than that. */
  predicate Outlasts(sys: System, g: Id, until: Time) {
    (g in sys.cache && sys.cache[g].expiresAt > until) || (g in sys.db.sticky && sys.db.sticky[g].expiresAt > until)
  }

  /** What the step gives entry or row of g as an expiry, if anything: a hit extends an unexpired entry,
      an entry filled from a row gets the time that was left when the row was read, and a bind the
      time to live. */
  ghost predicate Renews(s: State, c: Config, step: Step, g: Id, until: Time) {
    match step
    case Begin(i, h, extended) => i !in s.calls && h == g && EntryLasts(s.sys, g) && extended > until
    case FillCache(i) => Holding(s, i, g) && s.calls[i].phase.Found? && s.sys.now + s.calls[i].phase.left > until
    case WriteTable(i, fails) =>
      && i in s.calls && s.calls[i].gateId == g && s.calls[i].phase.Binding? && s.sys.now + c.ttl > until
      && !fails && g in s.sys.db.gates && s.calls[i].phase.row.0 in s.sys.db.reals
    case WriteCache(i) => Holding(s, i, g) && s.calls[i].phase.Written? && s.sys.now + c.ttl > until
    case _ => false
  }

  /** No step but these makes a binding of g last longer. */
  lemma OnlyRenewalsOutlast(s: State, c: Config, step: Step, g: Id, until: Time)
    requires !Outlasts(s.sys, g, until) && Outlasts(Next(s, c, step).sys, g, until)
    ensures Renews(s, c, step, g, until)
  {
    if OfTheSystem(step) {
      SystemStepsShrink(s, c, step, g);
    }
  }

  /** No step of the run renews a binding of g beyond that. */
  ghost predicate EndsBy(s: State, c: Config, steps: seq<Step>, g: Id, until: Time)
    decreases |steps|
  {
    steps == [] || (!Renews(s, c, steps[0], g, until) && EndsBy(Next(s, c, steps[0]), c, steps[1..], g, until))
  }

  /** The clock does not go back, and the counter stays a 64-bit number. */
  lemma ClockAndCounter(s: State, c: Config, step: Step)
    ensures Next(s, c, step).sys.now >= s.sys.now
    ensures s.sys.counter < TWO_64 ==> Next(s, c, step).sys.counter < TWO_64
  {
  }

  lemma {:induction false} NothingOutlasts(s: State, c: Config, steps: seq<Step>, g: Id, until: Time)
    requires EndsBy(s, c, steps, g, until) && !Outlasts(s.sys, g, until) && s.sys.counter < TWO_64
    ensures !Outlasts(Steps(s, c, steps).sys, g, until) && Steps(s, c, steps).sys.counter < TWO_64
    decreases |steps|
  {
    if steps != [] {
      if Outlasts(Next(s, c, steps[0]).sys, g, until) {
        OnlyRenewalsOutlast(s, c, steps[0], g, until);
      }
      ClockAndCounter(s, c, steps[0]);
      NothingOutlasts(Next(s, c, steps[0]), c, steps[1..], g, until);
    }
  }

  /** The call, if it is one of g, has not found a binding. */
  predicate Unbound(call: Call, g: Id) {
    call.gateId == g ==> call.phase.Looking? || call.phase.Choosing? || call.phase.Binding?
  }

  ghost predicate AllUnbound(s: State, g: Id) {
    forall i :: i in s.calls ==> Unbound(s.calls[i], g)
  }

  /** In the step no caller of g gets an answer but that of round robin: none from an empty pool, or
      the token it chose. */
  ghost predicate AnswersChosen(s: State, s': State, g: Id) {
    && s.answers <= s'.answers
    && forall k :: |s.answers| <= k < |s'.answers| && s'.answers[k].gateId == g ==>
         || (s'.answers[k].token.None? && s.sys.pool == [])
         || exists i :: i in s.calls && s.calls[i].gateId == g && s.calls[i].phase.Binding? &&
              s'.answers[k].token == Some(s.calls[i].phase.row)
  }

  lemma LapsedResolveStepsKeepUnbound(s: State, c: Config, i: CallId, h: Id, extended: Time, fails: bool, g: Id)
    requires !Outlasts(s.sys, g, s.sys.now) && AllUnbound(s, g)
    ensures AllUnbound(DoBegin(s, i, h, extended), g) && AllUnbound(DoReadRow(s, c.later, i, fails), g)
    ensures AllUnbound(DoFillCache(s, i), g) && AllUnbound(DoCheck(s, i), g)
    ensures DoBegin(s, i, h, extended).answers == DoReadRow(s, c.later, i, fails).answers == s.answers
    ensures DoFillCache(s, i).answers == s.answers && AnswersChosen(s, DoCheck(s, i), g)
  {
  }

  lemma LapsedBindStepsKeepUnbound(s: State, c: Config, i: CallId, fails: bool, g: Id)
    requires AllUnbound(s, g) && !Renews(s, c, WriteTable(i, fails), g, s.sys.now)
    ensures AllUnbound(DoChoose(s, i), g) && AllUnbound(DoWriteTable(s, c.ttl, i, fails), g)
    ensures AllUnbound(DoWriteCache(s, c.ttl, i), g)
    ensures AnswersChosen(s, DoChoose(s, i), g) && AnswersChosen(s, DoWriteTable(s, c.ttl, i, fails), g)
    ensures AnswersChosen(s, DoWriteCache(s, c.ttl, i), g)
  {
  }

  lemma RenewsLater(s: State, c: Config, step: Step, g: Id, until: Time, later: Time)
    requires until <= later && Renews(s, c, step, g, later)
    ensures Renews(s, c, step, g, until)
  {
  }

  /** Once the latest expiry has passed, a step that does not renew the binding finds none. */
  lemma LapsedStepKeepsUnbound(s: State, c: Config, step: Step, g: Id)
    requires !Outlasts(s.sys, g, s.sys.now) && AllUnbound(s, g) && !Renews(s, c, step, g, s.sys.now)
    ensures AllUnbound(Next(s, c, step), g) && AnswersChosen(s, Next(s, c, step), g)
  {
    match step
    case Begin(i, h, extended) => LapsedResolveStepsKeepUnbound(s, c, i, h, extended, false, g);
    case ReadRow(i, fails) => LapsedResolveStepsKeepUnbound(s, c, i, "", 0, fails, g);
    case FillCache(i) => LapsedResolveStepsKeepUnbound(s, c, i, "", 0, false, g);
    case Check(i) => LapsedResolveStepsKeepUnbound(s, c, i, "", 0, false, g);
    case Choose(i) => LapsedBindStepsKeepUnbound(s, c, i, true, g);
    case WriteTable(i, fails) => LapsedBindStepsKeepUnbound(s, c, i, fails, g);
    case WriteCache(i) => LapsedBindStepsKeepUnbound(s, c, i, true, g);
    case Restart(listing) =>
    case _ => SystemStepsLeaveCalls(s, c, step);
  }

  /** So it is in every state of the run. */
  ghost predicate AllChosen(s: State, c: Config, steps: seq<Step>, g: Id)
    decreases |steps|
  {
    && AllUnbound(s, g)
    && (steps == [] || (AnswersChosen(s, Next(s, c, steps[0]), g) && AllChosen(Next(s, c, steps[0]), c, steps[1..], g)))
  }

  /** From the latest expiry on, in any interleaving and until a binding of g is renewed, no call of g
      finds a binding, and each is answered with what it chose by round robin. */
  lemma {:induction false} LapsedCallsChoose(s: State, c: Config, steps: seq<Step>, g: Id, until: Time)
    requires EndsBy(s, c, steps, g, until) && !Outlasts(s.sys, g, until) && until <= s.sys.now && AllUnbound(s, g)
    ensures AllChosen(s, c, steps, g)
    decreases |steps|
  {
    if steps != [] {
      var s' := Next(s, c, steps[0]);
      if Renews(s, c, steps[0], g, s.sys.now) {
        RenewsLater(s, c, steps[0], g, until, s.sys.now);
      }
      LapsedStepKeepsUnbound(s, c, steps[0], g);
      if Outlasts(s'.sys, g, until) {
        OnlyRenewalsOutlast(s, c, steps[0], g, until);
      }
      ClockAndCounter(s, c, steps[0]);
      LapsedCallsChoose(s', c, steps[1..], g, until);
    }
  }

  /** What round robin chooses: the token of the next ticket. */
  lemma ChooseTakesNext(s: State, i: CallId, g: Id)
    requires At(s, i, g, Choosing) && s.sys.pool != []
    ensures var s' := DoChoose(s, i);
      && i in s'.calls && s'.calls[i].gateId == g && s'.calls[i].phase.Binding?
      && IsNext(s'.calls[i].phase.row, s.sys)
      && s'.sys.counter == (s.sys.counter + 1) % TWO_64
  {
  }

  /** Bindings end: once the clock has reached the latest expiry that a gate's entry or row had, was
      given or was extended to, the next call of the gate chooses by round robin. */
  lemma BindingEnds(s: State, c: Config, steps: seq<Step>, g: Id, until: Time, i: CallId, extended: Time,
                    readFails: bool, writeFails: bool)
    requires NeverHides(c.later) && s.sys.counter < TWO_64
    requires !Outlasts(s.sys, g, until) && EndsBy(s, c, steps, g, until)
    requires var mid := Steps(s, c, steps); mid.sys.now >= until && i !in mid.calls
    ensures var mid := Steps(s, c, steps);
      var after := InARow(mid, c, i, g, extended, readFails, writeFails);
      && |after.answers| == |mid.answers| + 1 && mid.answers <= after.answers
      && var a := after.answers[|mid.answers|];
         && a.gateId == g
         && (mid.sys.pool == [] ==> a.token.None?)
         && (mid.sys.pool != [] ==> a.token.Some? && IsNext(a.token.value, mid.sys))
  {
    var mid := Steps(s, c, steps);
    NothingOutlasts(s, c, steps, g, until);
    UndividedCallIsResolveToken(mid, c, i, g, extended, readFails, writeFails);
    ResolvesBoundOrNext(mid.sys, c, g, extended, readFails, writeFails);
  }

  /** An entry can outlive the row that it was filled from, by the time between reading the row and
      filling the entry; filled at once it does not. */
  lemma SlowFillOutlivesRow(s: State, c: Config, i: CallId, g: Id, later: Time)
    requires NeverHides(c.later) && At(s, i, g, Looking) && RowLasts(s.sys, g) && later >= s.sys.now
    ensures var row := s.sys.db.sticky[g];
      var read := DoReadRow(s, c.later, i, false);
      var filled := DoFillCache(read.(sys := read.sys.(now := later)), i);
      && g in filled.sys.db.sticky && filled.sys.db.sticky[g] == row
      && g in filled.sys.cache && filled.sys.cache[g] == CacheItem(row.realId, row.expiresAt + (later - s.sys.now))
  {
  }
}
