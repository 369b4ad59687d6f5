/** The failure protocol: a token whose count reaches the threshold is deactivated, in every
    interleaving of failure calls with each other and with admin requests; what an error
    leaves undone; and when a reactivation holds. */
module FailureProtocol {
  import opened Database
  import opened Integrity
  import opened PoolProtocol

  ghost predicate ActiveIn(db: Database, t: Id) {
    t in db.reals && db.reals[t].isActive
  }

  /** No active token has reached the threshold. */
  ghost predicate Settled(db: Database, maxFailures: int) {
    forall t :: t in db.reals && db.reals[t].isActive ==> db.reals[t].failureCount < maxFailures
  }

  /** The most recent incrementer of t is in flight, and has either decided to
      deactivate t or has yet to read a count that makes it decide so. */
  ghost predicate WillDeactivate(s: State, t: Id) {
    t in s.lastIncrementer && s.lastIncrementer[t] in s.calls &&
    (s.calls[s.lastIncrementer[t]] == Incremented(t) || s.calls[s.lastIncrementer[t]] == Deactivating(t))
  }

  /** Unless an error cut it short. */
  ghost predicate Answered(s: State, t: Id) {
    t in s.abandoned || WillDeactivate(s, t)
  }

  ghost predicate Guarded(s: State, maxFailures: int) {
    forall t :: t in s.db.reals && s.db.reals[t].isActive && s.db.reals[t].failureCount >= maxFailures ==>
      Answered(s, t)
  }

  lemma IncrementKeepsGuard(s: State, maxFailures: int, c: CallId, t: Id)
    requires Guarded(s, maxFailures)
    ensures Guarded(DoIncrement(s, c, t), maxFailures)
  {
    var s' := DoIncrement(s, c, t);
    forall u | u in s'.db.reals && s'.db.reals[u].isActive && s'.db.reals[u].failureCount >= maxFailures
      ensures Answered(s', u)
    {
      assert u != t ==> Answered(s, u);
    }
  }

  /** A call that moves on to `next`, or returns: the guard stays if the call had nothing to
      guard, or goes on to deactivate. */
  lemma CallMovesOn(s: State, s': State, maxFailures: int, c: CallId)
    requires Guarded(s, maxFailures) && c in s.calls && s.calls[c] != Notifying
    requires s'.lastIncrementer == s.lastIncrementer && s'.abandoned == s.abandoned
    requires forall d :: d in s.calls && d != c ==> d in s'.calls && s'.calls[d] == s.calls[d]
    requires forall u :: u in s'.db.reals && u != s.calls[c].token ==>
      u in s.db.reals && s'.db.reals[u] == s.db.reals[u]
    requires var t := s.calls[c].token;
      t in s'.db.reals && s'.db.reals[t].isActive && s'.db.reals[t].failureCount >= maxFailures ==>
        s'.db == s.db && c in s'.calls && s'.calls[c] == Deactivating(t)
    ensures Guarded(s', maxFailures)
  {
    forall u | u in s'.db.reals && s'.db.reals[u].isActive && s'.db.reals[u].failureCount >= maxFailures
      ensures Answered(s', u)
    {
      assert Answered(s, u);
    }
  }

  lemma ReadKeepsGuard(s: State, maxFailures: int, c: CallId)
    requires Guarded(s, maxFailures)
    ensures Guarded(DoReadCount(s, maxFailures, c), maxFailures)
  {
    if c in s.calls && s.calls[c].Incremented? {
      CallMovesOn(s, DoReadCount(s, maxFailures, c), maxFailures, c);
    }
  }

  lemma DeactivateKeepsGuard(s: State, maxFailures: int, c: CallId)
    requires Guarded(s, maxFailures)
    ensures Guarded(DoDeactivate(s, c), maxFailures)
  {
    if c in s.calls && s.calls[c].Deactivating? {
      CallMovesOn(s, DoDeactivate(s, c), maxFailures, c);
    }
  }

  lemma FailKeepsGuard(s: State, maxFailures: int, c: CallId)
    requires Guarded(s, maxFailures)
    ensures Guarded(DoFail(s, c), maxFailures)
  {
    var s' := DoFail(s, c);
    forall u | u in s'.db.reals && s'.db.reals[u].isActive && s'.db.reals[u].failureCount >= maxFailures
      ensures Answered(s', u)
    {
      assert Answered(s, u);
    }
  }

  lemma AdminKeepsGuard(s: State, maxFailures: int, c: CallId, op: Op)
    requires maxFailures >= 1 && Guarded(s, maxFailures)
    ensures Guarded(DoAdmin(s, c, op), maxFailures)
  {
    var s' := DoAdmin(s, c, op);
    forall u | u in s'.db.reals && s'.db.reals[u].isActive && s'.db.reals[u].failureCount >= maxFailures
      ensures Answered(s', u)
    {
      assert Answered(s, u);
    }
  }

  lemma BackgroundKeepsGuard(s: State, maxFailures: int, op: Op)
    requires Guarded(s, maxFailures)
    ensures Guarded(DoBackground(s, op), maxFailures)
  {
    if IsBackground(op) {
      var db' := Apply(s.db, op);
      BackgroundKeepsStanding(s.db, op);
      forall u | u in db'.reals && db'.reals[u].isActive && db'.reals[u].failureCount >= maxFailures
        ensures Answered(DoBackground(s, op), u)
      {
        assert Answered(s, u);
      }
    }
  }

  /** Timers, and calls that have only RefreshPool left, guard nothing. */
  lemma CallbacksKeepGuard(s: State, s': State, maxFailures: int)
    requires Guarded(s, maxFailures)
    requires s'.db == s.db && s'.abandoned == s.abandoned && s'.lastIncrementer == s.lastIncrementer
    requires forall c :: c in s.calls && s.calls[c] != Notifying ==> c in s'.calls && s'.calls[c] == s.calls[c]
    ensures Guarded(s', maxFailures)
  {
    forall u | u in s'.db.reals && s'.db.reals[u].isActive && s'.db.reals[u].failureCount >= maxFailures
      ensures Answered(s', u)
    {
      assert Answered(s, u);
    }
  }

  lemma StepKeepsGuard(s: State, maxFailures: int, step: Step)
    requires maxFailures >= 1 && Guarded(s, maxFailures)
    ensures Guarded(Next(s, maxFailures, step), maxFailures)
  {
    match step
    case Increment(c, t) => IncrementKeepsGuard(s, maxFailures, c, t);
    case ReadCount(c) => ReadKeepsGuard(s, maxFailures, c);
    case Deactivate(c) => DeactivateKeepsGuard(s, maxFailures, c);
    case Admin(c, op) => AdminKeepsGuard(s, maxFailures, c, op);
    case Fail(c) => FailKeepsGuard(s, maxFailures, c);
    case Background(op) => BackgroundKeepsGuard(s, maxFailures, op);
    case Notify(c) => CallbacksKeepGuard(s, DoNotify(s, c), maxFailures);
    case Fire(i) => CallbacksKeepGuard(s, DoFire(s, i), maxFailures);
    case Load(i) => CallbacksKeepGuard(s, DoLoad(s, maxFailures, i), maxFailures);
    case Install(i) => CallbacksKeepGuard(s, DoInstall(s, i), maxFailures);
    case FailLoad(i) => CallbacksKeepGuard(s, DoFailLoad(s, i), maxFailures);
  }

  lemma {:induction false} StepsKeepGuard(s: State, maxFailures: int, steps: seq<Step>)
    requires maxFailures >= 1 && Guarded(s, maxFailures)
    ensures Guarded(Steps(s, maxFailures, steps), maxFailures)
    decreases |steps|
  {
    if steps != [] {
      StepKeepsGuard(s, maxFailures, steps[0]);
      StepsKeepGuard(Next(s, maxFailures, steps[0]), maxFailures, steps[1..]);
    }
  }

  /** In every reachable state a token that is active with its count at the threshold has its
      most recent incrementer in flight and bound to deactivate it, unless a database error
      cut that call short.  With no call in flight such an error is the only excuse. */
  lemma ThresholdIsGuarded(s: State, db: Database, maxFailures: int)
    requires maxFailures >= 1 && Settled(db, maxFailures) && Reachable(s, db, maxFailures)
    ensures Guarded(s, maxFailures)
    ensures s.calls == map[] ==>
      forall t :: ActiveIn(s.db, t) && s.db.reals[t].failureCount >= maxFailures ==> t in s.abandoned
    ensures s.calls == map[] && s.abandoned == {} ==> Settled(s.db, maxFailures)
  {
    var steps :| s == Steps(Start(db, maxFailures), maxFailures, steps);
    StepsKeepGuard(Start(db, maxFailures), maxFailures, steps);
  }

  /** The excuse is never given for nothing: only an error in the token's latest failure call gives
      it, and the next such call takes it back. */
  lemma AbandonedIff(s: State, maxFailures: int, step: Step, t: Id)
    ensures var counts := step.Increment? && step.call !in s.calls && step.token == t;
      var fails := step.Fail? && step.call in s.calls && s.calls[step.call] != Notifying &&
                   s.calls[step.call].token == t;
      var latest := step.Fail? && t in s.lastIncrementer && s.lastIncrementer[t] == step.call;
      && (t in Next(s, maxFailures, step).abandoned <==> (t in s.abandoned && !counts) || (fails && latest))
      && (counts ==> t in Next(s, maxFailures, step).lastIncrementer &&
                     Next(s, maxFailures, step).lastIncrementer[t] == step.call)
  {
    match step
    case Notify(c) =>
    case _ =>
  }

  /** With a threshold of zero or less, creating a token is enough to break the promise. */
  lemma NonPositiveThresholdFails(maxFailures: int, id: Id) returns (s: State)
    requires maxFailures <= 0
    ensures Reachable(s, Empty(), maxFailures) && s.calls == map[] && s.abandoned == {} && !Settled(s.db, maxFailures)
  {
    s := OneTokenStore(maxFailures, id);
    assert id in s.db.reals && s.db.reals[id].isActive;
  }

  /** The promise of RecordFailure, "if the count reaches maxFailures, the token is
      deactivated", holds in every reachable state with no call in flight and no token's
      latest call lost to an error, exactly when maxFailures is at least one. */
  lemma SettledIffPositiveThreshold(maxFailures: int)
    ensures maxFailures >= 1 <==>
      forall s :: Reachable(s, Empty(), maxFailures) && s.calls == map[] && s.abandoned == {} ==>
        Settled(s.db, maxFailures)
  {
    if maxFailures >= 1 {
      forall s | Reachable(s, Empty(), maxFailures) && s.calls == map[] && s.abandoned == {}
        ensures Settled(s.db, maxFailures)
      {
        ThresholdIsGuarded(s, Empty(), maxFailures);
      }
    } else {
      var s := NonPositiveThresholdFails(maxFailures, "token");
    }
  }

  /** An error between the count and the deactivation does leave a token active at the
      threshold, with nothing in flight. */
  lemma LostCallLeavesActive(id: Id) returns (s: State)
    ensures Reachable(s, Empty(), 1) && s.calls == map[] && s.abandoned == {id}
    ensures ActiveIn(s.db, id) && s.db.reals[id].failureCount == 1
  {
    s := OneTokenAtThreshold(id);
    s := TakeFail(s, Empty(), 1, 1);
  }

  // ------------------------------------------------ when a reactivation holds

  /** No call has already decided to deactivate t. */
  ghost predicate Undecided(s: State, t: Id) {
    forall c :: c in s.calls ==> s.calls[c] != Deactivating(t)
  }

  /** The step neither counts a new failure of t nor is an admin deactivating or deleting it. */
  ghost predicate LeavesAlone(step: Step, t: Id) {
    && !(step.Increment? && step.token == t)
    && !(step.Admin? && step.op == SetRealActiveOp(t, false))
    && !(step.Admin? && step.op.DeleteOp? && step.op.column.RealTokenId? && step.op.id == t)
  }

  ghost predicate Calm(steps: seq<Step>, t: Id) {
    forall i :: 0 <= i < |steps| ==> LeavesAlone(steps[i], t)
  }

  /** Active, below the threshold, and nobody about to deactivate it. */
  ghost predicate Standing(s: State, maxFailures: int, t: Id) {
    ActiveIn(s.db, t) && s.db.reals[t].failureCount < maxFailures && Undecided(s, t)
  }

  lemma AdminLeavesStanding(s: State, maxFailures: int, t: Id, c: CallId, op: Op)
    requires maxFailures >= 1 && Standing(s, maxFailures, t) && LeavesAlone(Admin(c, op), t)
    ensures Standing(DoAdmin(s, c, op), maxFailures, t)
  {
  }

  lemma CountingKeepsStanding(s: State, maxFailures: int, t: Id, c: CallId, u: Id)
    requires maxFailures >= 1 && Standing(s, maxFailures, t)
    ensures u != t ==> Standing(DoIncrement(s, c, u), maxFailures, t)
    ensures Standing(DoReadCount(s, maxFailures, c), maxFailures, t)
  {
  }

  lemma DecidedKeepsStanding(s: State, maxFailures: int, t: Id, c: CallId)
    requires Standing(s, maxFailures, t)
    ensures Standing(DoDeactivate(s, c), maxFailures, t)
  {
  }

  lemma CalmStepKeepsStanding(s: State, maxFailures: int, t: Id, step: Step)
    requires maxFailures >= 1 && Standing(s, maxFailures, t) && LeavesAlone(step, t)
    ensures Standing(Next(s, maxFailures, step), maxFailures, t)
  {
    match step
    case Increment(c, u) => CountingKeepsStanding(s, maxFailures, t, c, u);
    case ReadCount(c) => CountingKeepsStanding(s, maxFailures, t, c, t);
    case Deactivate(c) => DecidedKeepsStanding(s, maxFailures, t, c);
    case Admin(c, op) => AdminLeavesStanding(s, maxFailures, t, c, op);
    case Background(op) =>
      if IsBackground(op) {
        BackgroundKeepsStanding(s.db, op);
      }
    case _ =>
  }

  lemma {:induction false} CalmRunKeepsStanding(s: State, maxFailures: int, t: Id, steps: seq<Step>)
    requires maxFailures >= 1 && Standing(s, maxFailures, t) && Calm(steps, t)
    ensures Standing(Steps(s, maxFailures, steps), maxFailures, t)
    decreases |steps|
  {
    if steps != [] {
      assert LeavesAlone(steps[0], t);
      CalmStepKeepsStanding(s, maxFailures, t, steps[0]);
      forall i | 0 <= i < |steps[1..]|
        ensures LeavesAlone(steps[1..][i], t)
      {
        assert steps[1..][i] == steps[i + 1];
      }
      CalmRunKeepsStanding(Next(s, maxFailures, steps[0]), maxFailures, t, steps[1..]);
    }
  }

  /** A decided call switches the token off in its next step. */
  lemma DecidedCallSwitchesOff(s: State, maxFailures: int, t: Id, c: CallId)
    requires t in s.db.reals && c in s.calls && s.calls[c] == Deactivating(t)
    ensures Calm([Deactivate(c)], t) && !ActiveIn(Steps(s, maxFailures, [Deactivate(c)]).db, t)
  {
    assert [Deactivate(c)][1..] == [];
    assert Steps(s, maxFailures, [Deactivate(c)]) == DoDeactivate(s, c);
  }

  /** A token that is active below the threshold stays active in every run without a new failure
      of it and without an admin deactivating or deleting it, exactly when no call in flight
      has already decided to deactivate it. */
  lemma StaysActiveIff(s: State, maxFailures: int, t: Id)
    requires maxFailures >= 1 && ActiveIn(s.db, t) && s.db.reals[t].failureCount < maxFailures
    ensures (forall steps :: Calm(steps, t) ==> ActiveIn(Steps(s, maxFailures, steps).db, t)) <==> Undecided(s, t)
  {
    if Undecided(s, t) {
      forall steps | Calm(steps, t)
        ensures ActiveIn(Steps(s, maxFailures, steps).db, t)
      {
        CalmRunKeepsStanding(s, maxFailures, t, steps);
      }
    } else {
      var c :| c in s.calls && s.calls[c] == Deactivating(t);
      DecidedCallSwitchesOff(s, maxFailures, t, c);
    }
  }

  /** So an admin's reactivation holds, whatever the token's count was, exactly when no call
      had decided before it. */
  lemma ReactivationHoldsIff(s: State, maxFailures: int, t: Id, c: CallId)
    requires maxFailures >= 1 && t in s.db.reals && c !in s.calls
    ensures var s' := DoAdmin(s, c, SetRealActiveOp(t, true));
      && ActiveIn(s'.db, t)
      && ((forall steps :: Calm(steps, t) ==> ActiveIn(Steps(s', maxFailures, steps).db, t)) <==> Undecided(s, t))
  {
    var s' := DoAdmin(s, c, SetRealActiveOp(t, true));
    assert s'.calls == s.calls[c := Notifying];
    assert Undecided(s', t) <==> Undecided(s, t) by {
      forall d | d in s.calls
        ensures d in s'.calls && s'.calls[d] == s.calls[d]
      {
      }
    }
    StaysActiveIff(s', maxFailures, t);
  }

  lemma OneTokenCounted(id: Id) returns (s: State)
    ensures Reachable(s, Empty(), 1) && s.calls == map[1 := Incremented(id)]
    ensures s.db.reals == map[id := RealToken("name", "access", "", true, 1, 0, 0, 0)]
    ensures s.abandoned == {} && s.lastIncrementer == map[id := 1]
  {
    s := OneTokenStore(1, id);
    s := TakeIncrement(s, Empty(), 1, 1, id);
  }

  lemma OneTokenAtThreshold(id: Id) returns (s: State)
    ensures Reachable(s, Empty(), 1) && s.calls == map[1 := Deactivating(id)]
    ensures s.db.reals == map[id := RealToken("name", "access", "", true, 1, 0, 0, 0)]
    ensures s.abandoned == {} && s.lastIncrementer == map[id := 1]
  {
    s := OneTokenCounted(id);
    s := TakeReadCount(s, Empty(), 1, 1);
  }

  /** The decision to deactivate is not re-checked: a call that read the count before an
      admin reactivated the token still switches it off, with its count at zero. */
  lemma ReactivationCanBeUndone(id: Id) returns (s: State)
    ensures Reachable(s, Empty(), 1) && s.calls == map[]
    ensures id in s.db.reals && !s.db.reals[id].isActive && s.db.reals[id].failureCount == 0
  {
    s := OneTokenAtThreshold(id);
    s := SwitchOnlyToken(s, Empty(), 1, 2, id, s.db.reals[id], true);
    s := TakeDeactivate(s, Empty(), 1, 1);
    s := TakeNotify(s, Empty(), 1, 1);
  }
}
