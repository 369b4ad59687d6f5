/** The debounced refresh: while the pool is stale, something that will refresh it is under
    way, and a system at rest has an up-to-date pool, as long as refreshes install in the
    order in which they read and no error costs one. */
module RefreshProtocol {
  import opened Prelude
  import opened Database
  import opened Integrity
  import opened PoolProtocol
  import opened FailureProtocol

  /** Work that ends in a refresh is under way: a timer that has yet to load, or a call
      that has yet to call RefreshPool.  A failure call on a deleted token does not count:
      it returns early. */
  ghost predicate Scheduled(s: State) {
    || (exists i :: i in s.timers && !s.timers[i].Loaded?)
    || (exists c :: c in s.calls && (s.calls[c] == Notifying || s.calls[c].token in s.db.reals))
  }

  /** The latest list read is the eligible one, or work is under way, or an error has cost a
      refresh and no refresh has read since. */
  ghost predicate LoadCovered(s: State, maxFailures: int) {
    || (s.log.lastLoader in s.log.loads && s.log.loads[s.log.lastLoader] == EligibleListing(s.db, maxFailures))
    || Scheduled(s)
    || s.missed
  }

  /** At most one timer is armed, and it is the one in the field. */
  ghost predicate OneArmed(s: State) {
    && (forall i :: i in s.timers ==> i < s.nextTimer)
    && (forall i :: i in s.timers && s.timers[i] == Armed ==> s.current == Some(i))
  }

  /** The history is right: the pool is what its installer read, a callback that has read holds
      what it read, and a timer reads at most once. */
  ghost predicate Traced(timers: map<TimerId, Timer>, nextTimer: TimerId, pool: Listing, log: RefreshLog) {
    && log.lastLoader in log.loads && log.lastInstaller in log.loads
    && pool == log.loads[log.lastInstaller]
    && (forall i :: i in timers && timers[i].Loaded? ==>
          Some(i) in log.loads && log.loads[Some(i)] == timers[i].listing)
    && (forall i :: Some(i) in log.loads ==> i < nextTimer && (i in timers ==> timers[i].Loaded?))
  }

  ghost predicate Logged(s: State) {
    Traced(s.timers, s.nextTimer, s.pool, s.log)
  }

  ghost predicate Fresh(s: State, maxFailures: int) {
    LoadCovered(s, maxFailures) && OneArmed(s) && Logged(s)
  }

  lemma SameStandingSameListing(a: Database, b: Database, maxFailures: int)
    requires SameStanding(a, b)
    ensures EligibleListing(a, maxFailures) == EligibleListing(b, maxFailures)
  {
  }

  /** The calls and timers of s that promise a refresh still do in s'. */
  ghost predicate PromisesKept(s: State, s': State) {
    && (forall i :: i in s.timers && !s.timers[i].Loaded? ==> i in s'.timers && !s'.timers[i].Loaded?)
    && (forall c :: c in s.calls && (s.calls[c] == Notifying || s.calls[c].token in s.db.reals) ==>
          c in s'.calls && (s'.calls[c] == Notifying || s'.calls[c].token in s'.db.reals))
  }

  lemma PromisesKeepSchedule(s: State, s': State)
    requires PromisesKept(s, s') && Scheduled(s)
    ensures Scheduled(s')
  {
    if i :| i in s.timers && !s.timers[i].Loaded? {
      assert i in s'.timers && !s'.timers[i].Loaded?;
    } else {
      var c :| c in s.calls && (s.calls[c] == Notifying || s.calls[c].token in s.db.reals);
      assert c in s'.calls && (s'.calls[c] == Notifying || s'.calls[c].token in s'.db.reals);
    }
  }

  lemma IncrementKeepsCover(s: State, maxFailures: int, c: CallId, t: Id)
    requires LoadCovered(s, maxFailures)
    ensures LoadCovered(DoIncrement(s, c, t), maxFailures)
  {
    var s' := DoIncrement(s, c, t);
    if Scheduled(s) {
      PromisesKeepSchedule(s, s');
    } else if s'.db != s.db {
      assert c in s'.calls && s'.calls[c].token in s'.db.reals;
    }
  }

  /** A failure call that returns early has lost its token, so it never counted. */
  lemma ReadKeepsCover(s: State, maxFailures: int, c: CallId)
    requires LoadCovered(s, maxFailures)
    ensures LoadCovered(DoReadCount(s, maxFailures, c), maxFailures)
  {
    if Scheduled(s) {
      PromisesKeepSchedule(s, DoReadCount(s, maxFailures, c));
    }
  }

  lemma DeactivateKeepsCover(s: State, maxFailures: int, c: CallId)
    requires LoadCovered(s, maxFailures)
    ensures LoadCovered(DoDeactivate(s, c), maxFailures)
  {
    if c in s.calls && s.calls[c].Deactivating? {
      var s' := DoDeactivate(s, c);
      if s.calls[c].token in s.db.reals {
        assert c in s'.calls && s'.calls[c] == Notifying;
      } else if Scheduled(s) {
        PromisesKeepSchedule(s, s');
      }
    }
  }

  lemma MutatorKeepsCover(s: State, maxFailures: int, c: CallId, op: Op)
    requires LoadCovered(s, maxFailures)
    ensures LoadCovered(DoAdmin(s, c, op), maxFailures)
    ensures LoadCovered(DoNotify(s, c), maxFailures)
  {
    var a, n := DoAdmin(s, c, op), DoNotify(s, c);
    assert a != s ==> c in a.calls && a.calls[c] == Notifying;
    assert n != s ==> s.nextTimer in n.timers && !n.timers[s.nextTimer].Loaded?;
  }

  lemma TimerKeepsCover(s: State, maxFailures: int, i: TimerId)
    requires LoadCovered(s, maxFailures)
    ensures LoadCovered(DoFire(s, i), maxFailures)
    ensures LoadCovered(DoLoad(s, maxFailures, i), maxFailures)
    ensures LoadCovered(DoInstall(s, i), maxFailures)
    ensures LoadCovered(DoFailLoad(s, i), maxFailures)
  {
    if Scheduled(s) {
      PromisesKeepSchedule(s, DoFire(s, i));
      PromisesKeepSchedule(s, DoInstall(s, i));
    }
  }

  lemma FailKeepsCover(s: State, maxFailures: int, c: CallId)
    requires LoadCovered(s, maxFailures)
    ensures LoadCovered(DoFail(s, c), maxFailures)
  {
  }

  lemma BackgroundKeepsCover(s: State, maxFailures: int, op: Op)
    requires LoadCovered(s, maxFailures)
    ensures LoadCovered(DoBackground(s, op), maxFailures)
  {
    if IsBackground(op) {
      BackgroundKeepsStanding(s.db, op);
      SameStandingSameListing(s.db, Apply(s.db, op), maxFailures);
      if Scheduled(s) {
        PromisesKeepSchedule(s, DoBackground(s, op));
      }
    }
  }

  lemma StepKeepsCover(s: State, maxFailures: int, step: Step)
    requires LoadCovered(s, maxFailures)
    ensures LoadCovered(Next(s, maxFailures, step), maxFailures)
  {
    match step
    case Increment(c, t) => IncrementKeepsCover(s, maxFailures, c, t);
    case ReadCount(c) => ReadKeepsCover(s, maxFailures, c);
    case Deactivate(c) => DeactivateKeepsCover(s, maxFailures, c);
    case Fail(c) => FailKeepsCover(s, maxFailures, c);
    case Admin(c, op) => MutatorKeepsCover(s, maxFailures, c, op);
    case Notify(c) => MutatorKeepsCover(s, maxFailures, c, IncrementFailureOp(""));
    case Fire(i) => TimerKeepsCover(s, maxFailures, i);
    case Load(i) => TimerKeepsCover(s, maxFailures, i);
    case Install(i) => TimerKeepsCover(s, maxFailures, i);
    case FailLoad(i) => TimerKeepsCover(s, maxFailures, i);
    case Background(op) => BackgroundKeepsCover(s, maxFailures, op);
  }

  lemma StepKeepsOneArmed(s: State, maxFailures: int, step: Step)
    requires OneArmed(s)
    ensures OneArmed(Next(s, maxFailures, step))
  {
  }

  lemma LoadKeepsLogged(s: State, maxFailures: int, i: TimerId)
    requires OneArmed(s) && Logged(s)
    ensures Logged(DoLoad(s, maxFailures, i))
  {
  }

  lemma TimerKeepsLogged(s: State, i: TimerId)
    requires OneArmed(s) && Logged(s)
    ensures Logged(DoFire(s, i)) && Logged(DoInstall(s, i)) && Logged(DoFailLoad(s, i))
  {
  }

  lemma NotifyKeepsLogged(s: State, c: CallId)
    requires OneArmed(s) && Logged(s)
    ensures Logged(DoNotify(s, c))
  {
  }

  predicate SameRefreshes(s: State, s': State) {
    s'.timers == s.timers && s'.nextTimer == s.nextTimer && s'.pool == s.pool && s'.log == s.log
  }

  predicate TouchesTimers(step: Step) {
    step.Notify? || step.Fire? || step.Load? || step.Install? || step.FailLoad?
  }

  lemma CallsLeaveRefreshes(s: State, maxFailures: int, step: Step)
    requires !TouchesTimers(step)
    ensures SameRefreshes(s, Next(s, maxFailures, step))
  {
  }

  lemma StepKeepsLogged(s: State, maxFailures: int, step: Step)
    requires OneArmed(s) && Logged(s)
    ensures Logged(Next(s, maxFailures, step))
  {
    match step
    case Fire(i) => TimerKeepsLogged(s, i);
    case Load(i) => LoadKeepsLogged(s, maxFailures, i);
    case Install(i) => TimerKeepsLogged(s, i);
    case FailLoad(i) => TimerKeepsLogged(s, i);
    case Notify(c) => NotifyKeepsLogged(s, c);
    case _ => CallsLeaveRefreshes(s, maxFailures, step);
  }

  lemma StepKeepsFresh(s: State, maxFailures: int, step: Step)
    requires Fresh(s, maxFailures)
    ensures Fresh(Next(s, maxFailures, step), maxFailures)
  {
    StepKeepsCover(s, maxFailures, step);
    StepKeepsOneArmed(s, maxFailures, step);
    StepKeepsLogged(s, maxFailures, step);
  }

  lemma {:induction false} StepsKeepFresh(s: State, maxFailures: int, steps: seq<Step>)
    requires Fresh(s, maxFailures)
    ensures Fresh(Steps(s, maxFailures, steps), maxFailures)
    decreases |steps|
  {
    if steps != [] {
      StepKeepsFresh(s, maxFailures, steps[0]);
      StepsKeepFresh(Next(s, maxFailures, steps[0]), maxFailures, steps[1..]);
    }
  }

  lemma ReachableIsFresh(s: State, db: Database, maxFailures: int)
    requires Reachable(s, db, maxFailures)
    ensures Fresh(s, maxFailures)
  {
    var steps :| s == Steps(Start(db, maxFailures), maxFailures, steps);
    StepsKeepFresh(Start(db, maxFailures), maxFailures, steps);
  }

  // ------------------------------------------------------- the order of refreshes

  /** The refresh that read last has yet to install. */
  predicate Waiting(s: State) {
    s.log.lastLoader.Some? && s.log.lastLoader.value in s.timers && s.timers[s.log.lastLoader.value].Loaded?
  }

  /** The refresh that read last installed last, or has yet to install. */
  predicate InOrder(s: State) {
    s.log.lastInstaller == s.log.lastLoader || Waiting(s)
  }

  /** The step installs a list although the latest one has been installed already. */
  predicate InstallsOlder(s: State, step: Step) {
    step.Install? && step.timer in s.timers && s.timers[step.timer].Loaded? && !Waiting(s)
  }

  predicate Reads(s: State, step: Step) {
    step.Load? && step.timer in s.timers && s.timers[step.timer] == Fired
  }

  lemma TimersAndOrder(s: State, maxFailures: int, i: TimerId)
    requires Logged(s)
    ensures InOrder(DoFire(s, i)) == InOrder(DoFailLoad(s, i)) == InOrder(s)
    ensures InOrder(DoLoad(s, maxFailures, i)) <==> Reads(s, Load(i)) || InOrder(s)
    ensures InOrder(DoInstall(s, i)) <==> InOrder(s) && !InstallsOlder(s, Install(i))
  {
  }

  lemma NotifyKeepsOrder(s: State, c: CallId)
    requires OneArmed(s) && Logged(s)
    ensures InOrder(DoNotify(s, c)) <==> InOrder(s)
  {
  }

  /** The order is lost exactly when an older list is installed over the latest, and every
      refresh that reads restores it. */
  lemma OrderAfterStep(s: State, maxFailures: int, step: Step)
    requires OneArmed(s) && Logged(s)
    ensures InOrder(Next(s, maxFailures, step)) <==> Reads(s, step) || (InOrder(s) && !InstallsOlder(s, step))
  {
    match step
    case Notify(c) => NotifyKeepsOrder(s, c);
    case Fire(i) => TimersAndOrder(s, maxFailures, i);
    case Load(i) => TimersAndOrder(s, maxFailures, i);
    case Install(i) => TimersAndOrder(s, maxFailures, i);
    case FailLoad(i) => TimersAndOrder(s, maxFailures, i);
    case _ => CallsLeaveRefreshes(s, maxFailures, step);
  }

  /** A refresh counts as lost only by an error, in a failure call or in the query of a refresh, and
      only until the next one reads. */
  lemma MissedIff(s: State, maxFailures: int, step: Step)
    ensures Next(s, maxFailures, step).missed <==>
      || (step.Fail? && step.call in s.calls && s.calls[step.call] != Notifying)
      || (step.FailLoad? && step.timer in s.timers && s.timers[step.timer] == Fired)
      || (s.missed && !Reads(s, step))
  {
  }

  /** In every reachable state in which no error has cost a refresh since the latest read: if the
      list read last is not the eligible one, a refresh is on its way; and if the refreshes are
      in order, a stale pool means a refresh on its way or about to install.  At most one
      timer is armed. */
  lemma StalenessIsScheduled(s: State, db: Database, maxFailures: int)
    requires Reachable(s, db, maxFailures)
    ensures forall i, j :: i in s.timers && j in s.timers && s.timers[i] == s.timers[j] == Armed ==> i == j
    ensures s.log.lastLoader in s.log.loads && s.log.lastInstaller in s.log.loads
    ensures s.pool == s.log.loads[s.log.lastInstaller]
    ensures !s.missed && s.log.loads[s.log.lastLoader] != EligibleListing(s.db, maxFailures) ==> Scheduled(s)
    ensures !s.missed && InOrder(s) && s.pool != EligibleListing(s.db, maxFailures) ==> Scheduled(s) || Waiting(s)
  {
    ReachableIsFresh(s, db, maxFailures);
  }

  /** With nothing in flight and no refresh lost to an error, the pool is up to date if the
      refresh that installed last is the one that read last, and otherwise exactly when it
      happened to read the same. */
  lemma QuiescentPoolIsFresh(s: State, db: Database, maxFailures: int)
    requires Reachable(s, db, maxFailures) && Quiescent(s) && !s.missed
    ensures s.log.lastInstaller == s.log.lastLoader ==> s.pool == EligibleListing(s.db, maxFailures)
    ensures s.log.lastLoader in s.log.loads && s.log.lastInstaller in s.log.loads
    ensures s.pool == EligibleListing(s.db, maxFailures) <==>
      s.log.loads[s.log.lastInstaller] == s.log.loads[s.log.lastLoader]
  {
    StalenessIsScheduled(s, db, maxFailures);
  }

  /** Between the read of refresh i and its install, while no other refresh holds a list or reads. */
  ghost predicate Alone(s: State, i: TimerId) {
    && i < s.nextTimer && s.log.lastLoader == Some(i)
    && (i in s.timers ==> s.timers[i].Loaded?) && (i !in s.timers ==> s.log.lastInstaller == Some(i))
    && forall j :: j in s.timers && s.timers[j].Loaded? ==> j == i
  }

  lemma TimersKeepAlone(s: State, maxFailures: int, i: TimerId, j: TimerId, c: CallId)
    requires OneArmed(s) && Alone(s, i)
    ensures Alone(DoFire(s, j), i) && Alone(DoInstall(s, j), i) && Alone(DoFailLoad(s, j), i)
    ensures Alone(DoNotify(s, c), i)
  {
  }

  lemma StepKeepsAlone(s: State, maxFailures: int, i: TimerId, step: Step)
    requires OneArmed(s) && Alone(s, i) && !step.Load?
    ensures Alone(Next(s, maxFailures, step), i)
  {
    match step
    case Notify(c) => TimersKeepAlone(s, maxFailures, i, i, c);
    case Fire(j) => TimersKeepAlone(s, maxFailures, i, j, 0);
    case Install(j) => TimersKeepAlone(s, maxFailures, i, j, 0);
    case FailLoad(j) => TimersKeepAlone(s, maxFailures, i, j, 0);
    case _ => CallsLeaveRefreshes(s, maxFailures, step);
  }

  /** A refresh that overlaps no other restores the order, whatever happened before: if no list is
      waiting when it reads, and no other refresh reads until it installs, then once it has
      installed it is both the last to have read and the last to have installed. */
  lemma {:induction false} SerialRefreshRestores(s: State, maxFailures: int, i: TimerId, steps: seq<Step>)
    requires OneArmed(s) && Alone(s, i)
    requires forall k :: 0 <= k < |steps| ==> !steps[k].Load?
    ensures var s' := Steps(s, maxFailures, steps);
      InOrder(s') && (i !in s'.timers ==> s'.log.lastInstaller == s'.log.lastLoader)
    decreases |steps|
  {
    if steps != [] {
      StepKeepsAlone(s, maxFailures, i, steps[0]);
      StepKeepsOneArmed(s, maxFailures, steps[0]);
      assert forall k :: 0 <= k < |steps[1..]| ==> steps[1..][k] == steps[k + 1];
      SerialRefreshRestores(Next(s, maxFailures, steps[0]), maxFailures, i, steps[1..]);
    }
  }

  lemma SerialReadIsAlone(s: State, maxFailures: int, i: TimerId)
    requires OneArmed(s) && i in s.timers && s.timers[i] == Fired
    requires forall j :: j in s.timers ==> !s.timers[j].Loaded?
    ensures Alone(DoLoad(s, maxFailures, i), i)
  {
  }

  /** Both protocols together: at rest, with a positive threshold, no call or refresh lost to an
      error, and the refreshes in order, the pool holds exactly the active tokens. */
  lemma QuiescentPoolIsActiveTokens(s: State, db: Database, maxFailures: int)
    requires maxFailures >= 1 && Settled(db, maxFailures)
    requires Reachable(s, db, maxFailures) && Quiescent(s) && InOrder(s) && !s.missed && s.abandoned == {}
    ensures forall t :: t in s.pool <==> t in s.db.reals && s.db.reals[t].isActive
    ensures forall t :: t in s.pool ==> s.pool[t] == s.db.reals[t].accessToken
  {
    QuiescentPoolIsFresh(s, db, maxFailures);
    ThresholdIsGuarded(s, db, maxFailures);
  }

  // ------------------------------------------------------------------- witnesses

  /** A callback holds a list that names the token. */
  lemma OneTokenLoaded(id: Id) returns (s: State)
    ensures Reachable(s, Empty(), 5) && s.calls == map[] && s.current == Some(0) && s.nextTimer == 1
    ensures s.timers == map[0 := Loaded(map[id := "access"])] && !s.missed
    ensures s.db.reals == map[id := RealToken("name", "access", "", true, 0, 0, 0, 0)]
  {
    s := OneTokenStore(5, id);
    s := TakeFire(s, Empty(), 5, 0);
    OneTokenListing(s.db, id, s.db.reals[id], 5);
    s := TakeLoad(s, Empty(), 5, 0);
  }

  /** The token is then switched off. */
  lemma LoadedThenSwitchedOff(id: Id) returns (s: State)
    ensures Reachable(s, Empty(), 5) && s.calls == map[] && !s.missed
    ensures s.timers == map[0 := Loaded(map[id := "access"]), 1 := Armed]
    ensures s.db.reals == map[id := RealToken("name", "access", "", false, 0, 0, 0, 0)]
  {
    s := OneTokenLoaded(id);
    s := SwitchOnlyToken(s, Empty(), 5, 1, id, s.db.reals[id], false);
  }

  /** A second refresh then reads as well. */
  lemma BothLoaded(id: Id) returns (s: State)
    ensures Reachable(s, Empty(), 5) && s.calls == map[] && !s.missed && s.log.lastLoader == Some(1)
    ensures s.timers.Keys == {0, 1} && s.timers[0] == Loaded(map[id := "access"]) && s.timers[1].Loaded?
    ensures s.db.reals == map[id := RealToken("name", "access", "", false, 0, 0, 0, 0)]
  {
    s := LoadedThenSwitchedOff(id);
    s := TakeFire(s, Empty(), 5, 1);
    assert s.timers[1] == Fired;
    s := TakeLoad(s, Empty(), 5, 1);
  }

  /** And it installs before the first has installed. */
  lemma SecondInstallsFirst(id: Id) returns (s: State)
    ensures Reachable(s, Empty(), 5) && s.calls == map[] && !s.missed
    ensures s.timers == map[0 := Loaded(map[id := "access"])] && s.log.lastLoader == Some(1)
    ensures s.db.reals == map[id := RealToken("name", "access", "", false, 0, 0, 0, 0)]
  {
    s := BothLoaded(id);
    s := TakeInstall(s, Empty(), 5, 1);
  }

  /** Two overlapping refreshes that install in the wrong order can leave a deactivated token in
      the pool with nothing scheduled that would remove it. */
  lemma OverlappingRefreshesGoStale(id: Id) returns (s: State)
    ensures Reachable(s, Empty(), 5) && Quiescent(s) && !s.missed && !InOrder(s)
    ensures id in s.pool && id !in EligibleListing(s.db, 5)
  {
    s := SecondInstallsFirst(id);
    s := TakeInstall(s, Empty(), 5, 0);
  }

  /** A refresh whose query fails is not repeated: a new token can stay out of the pool with
      nothing scheduled that would add it. */
  lemma FailedRefreshGoesStale(id: Id) returns (s: State)
    ensures Reachable(s, Empty(), 5) && Quiescent(s) && InOrder(s) && s.missed
    ensures id !in s.pool && id in EligibleListing(s.db, 5)
  {
    s := OneTokenStore(5, id);
    s := TakeFire(s, Empty(), 5, 0);
    s := TakeFailLoad(s, Empty(), 5, 0);
  }
}
