/** The turns of the usage writer and of everything around it: what one turn must do to the
    pipeline and to the store, and that the writer, once told to, comes to its end. */
module Turns {
  import opened Prelude
  import opened Database
  import opened Integrity
  import opened UsageLedger
  import opened UsagePipeline
  import LedgerRuns

  /** What happens during one flush: the number of the failing database call of the insert, the
      tokens whose total update fails, and what other parts of the program do to the store
      between the insert and the updates. */
  datatype Faults = Faults(failAt: nat, gates: set<Id>, reals: set<Id>, others: seq<Op>)

  /** What the scheduler lets happen next. */
  datatype Turn =
    | SendTurn(entry: UsageEntry)
    | CloseTurn
    | ReadyTurn(now: Time, faults: Faults)    // the channel is ready to receive
    | TickTurn(now: Time, faults: Faults)
    | DoneTurn                                // the context is cancelled
    | DrainTurn(now: Time, faults: Faults)    // one turn of drain, or the final flush
    | StoreTurn(op: Op)                       // another part of the program uses the store

  /** The turn may run flush. */
  predicate MayFlush(t: Turn) {
    t.ReadyTurn? || t.TickTurn? || t.DrainTurn?
  }

  /** What the turn lets other parts of the program do to the store. */
  function OpsOf(t: Turn): seq<Op> {
    if t.StoreTurn? then [t.op] else if MayFlush(t) then t.faults.others else []
  }

  /** The totals that a flush with these faults fails to update. */
  function MissedBy(f: Faults): set<LedgerRuns.Owed> {
    LedgerRuns.Keys(GateTokenId, f.gates) + LedgerRuns.Keys(RealTokenId, f.reals)
  }

  function MissedIn(t: Turn): set<LedgerRuns.Owed> {
    if MayFlush(t) then MissedBy(t.faults) else {}
  }

  function Missed(turns: seq<Turn>): set<LedgerRuns.Owed> {
    set i, k | 0 <= i < |turns| && k in MissedIn(turns[i]) :: k
  }

  /** They give new tokens fresh ids. */
  predicate FreshTurns(turns: seq<Turn>, used: set<LedgerRuns.Owed>)
    decreases |turns|
  {
    turns == [] ||
    (LedgerRuns.AdmitsAll(used, OpsOf(turns[0])) && FreshTurns(turns[1..], used + LedgerRuns.IdsOf(OpsOf(turns[0]))))
  }

  /** The totals after a committed insert, if nobody else uses the store; a failed update is
      logged and skipped. */
  function Paid(db: Database, ls: seq<UsageLog>, f: Faults): Database {
    AddAll(AddAll(db, GateTokenId, Group(ls, GateTokenId) - f.gates), RealTokenId, Group(ls, RealTokenId) - f.reals)
  }

  /** A flush without faults leaves the logs and totals of one insert and two updates per entry. */
  lemma PaidWithoutFaults(db: Database, ls: seq<UsageLog>, f: Faults)
    requires f.gates == {} && f.reals == {}
    ensures Paid(db, ls, f) == OneByOne(db, ls)
  {
    assert Group(ls, GateTokenId) - f.gates == Group(ls, GateTokenId);
    assert Group(ls, RealTokenId) - f.reals == Group(ls, RealTokenId);
    GroupedIsOneByOne(db, ls);
  }

  // ------------------------------------------------------- what each turn must do

  /** The step of the pipeline that the turn is, by the channel it finds; none if it does not
      concern the pipeline. */
  function StepOf(s: State, t: Turn, ok: bool): Option<Step> {
    match t
    case SendTurn(e) => Some(Send(e))
    case CloseTurn => Some(Close)
    case ReadyTurn(_, _) => Some(if s.channel != [] then Receive(ok) else ReceiveClosed(ok))
    case TickTurn(_, _) => Some(Tick(ok))
    case DoneTurn => Some(Cancel)
    case DrainTurn(_, _) => Some(if s.channel != [] then DrainOne else DrainEnd(ok))
    case StoreTurn(_) => None
  }

  /** No call of the insert fails, and every row references existing tokens. */
  predicate InsertSucceeds(db: Database, f: Faults, batch: seq<UsageEntry>) {
    batch == [] || (f.failAt > |batch| + 2 && AllReference(db, ToLogs(batch)))
  }

  /** What the turn's flush tries to insert; nothing if it does not flush. */
  function InsertedIn(s: State, t: Turn): seq<UsageEntry> {
    var step := StepOf(s, t, true);
    if step.Some? && Flushes(s, step.value) then Inserted(s, step.value) else []
  }

  predicate Commits(s: State, t: Turn, db: Database) {
    MayFlush(t) ==> InsertSucceeds(db, t.faults, InsertedIn(s, t))
  }

  /** Where the turn takes the pipeline, on this store. */
  function Moved(s: State, t: Turn, db: Database): State {
    var step := StepOf(s, t, Commits(s, t, db));
    if step.None? then s else Next(s, step.value)
  }

  /** The entries that the turn commits. */
  function CommittedIn(s: State, t: Turn, db: Database): seq<UsageLog> {
    if MayFlush(t) && Commits(s, t, db) then ToLogs(InsertedIn(s, t)) else []
  }

  /** Where the turn takes the store, if nobody else uses it meanwhile. */
  function StoreAfter(s: State, t: Turn, db: Database): Database {
    if t.StoreTurn? then Apply(db, t.op)
    else
      var logs := CommittedIn(s, t, db);
      if MayFlush(t) && logs != [] then Paid(WithLogs(db, logs, t.now), logs, t.faults) else db
  }

  /** Pipeline and ledger between two turns. */
  datatype Moment = Moment(state: State, ledger: LedgerRuns.Ledger)

  /** The operations are done in order, those at the end perhaps not yet. */
  ghost predicate Does(l: LedgerRuns.Ledger, l': LedgerRuns.Ledger, ops: seq<Op>) {
    l.done <= l'.done <= l.done + ops
  }

  /** To what was left out of the totals before, the dues of the failing updates are added, and
      nothing else. */
  ghost predicate LeavesOut(l: LedgerRuns.Ledger, l': LedgerRuns.Ledger, dues: map<LedgerRuns.Owed, Usage>,
                            missed: set<LedgerRuns.Owed>) {
    forall c: Column, id: Id ::
      LedgerRuns.Due(l'.unpaid, c, id) ==
        var k, before := LedgerRuns.Owed(c, id), LedgerRuns.Due(l.unpaid, c, id);
        if k in missed && k in dues then Plus(before, dues[k]) else before
  }

  /** One turn: the step that the channel asks for, with the outcome that faults and store decide;
      exactly its batch committed, at its time; exactly the failing updates left out of the totals;
      and nobody else's operations but those of the turn. */
  ghost predicate TurnMoves(m: Moment, t: Turn, m': Moment) {
    && m'.state == Moved(m.state, t, m.ledger.db)
    && m'.ledger.written == m.ledger.written +
         (if MayFlush(t) then LedgerRuns.NewRows(m.ledger.db, CommittedIn(m.state, t, m.ledger.db), t.now) else [])
    && LeavesOut(m.ledger, m'.ledger, LedgerRuns.Dues(CommittedIn(m.state, t, m.ledger.db)), MissedIn(t))
    && Does(m.ledger, m'.ledger, OpsOf(t))
    && (t.StoreTurn? || OpsOf(t) == [] ==> m'.ledger.db == StoreAfter(m.state, t, m.ledger.db))
  }

  ghost predicate Traces(ms: seq<Moment>, turns: seq<Turn>) {
    |ms| == |turns| + 1 && forall i :: 0 <= i < |turns| ==> TurnMoves(ms[i], turns[i], ms[i + 1])
  }

  /** What a full buffer makes the writer flush. */
  function DueWhenFull(t: State): seq<UsageEntry> {
    if |t.writer.buf| >= 100 then Batch(t.writer) else []
  }

  /** What the turns of the writer insert, and the steps that they are, case by case. */
  lemma ReadySteps(s: State, now: Time, f: Faults, db: Database)
    ensures var t := ReadyTurn(now, f);
      if s.phase != Running || (s.channel == [] && !s.closed) then InsertedIn(s, t) == [] && Moved(s, t, db) == s
      else if s.channel != [] then
        && InsertedIn(s, t) == DueWhenFull(Take(s))
        && Moved(s, t, db) == AfterReceive(s, InsertSucceeds(db, f, DueWhenFull(Take(s))))
      else
        && InsertedIn(s, t) == Batch(s.writer)
        && Moved(s, t, db) == UsagePipeline.Flush(s, InsertSucceeds(db, f, Batch(s.writer))).(phase := Stopped)
  {
    if s.channel != [] {
      assert s.writer.retryBuf + s.writer.buf + [s.channel[0]] ==
        s.writer.retryBuf + (s.writer.buf + [s.channel[0]]);
    }
    assert s.writer.retryBuf + s.writer.buf + [] == Batch(s.writer);
  }

  lemma TickSteps(s: State, now: Time, f: Faults, db: Database)
    ensures var t := TickTurn(now, f);
      if s.phase != Running || Batch(s.writer) == [] then InsertedIn(s, t) == [] && Moved(s, t, db) == s
      else InsertedIn(s, t) == Batch(s.writer) &&
           Moved(s, t, db) == UsagePipeline.Flush(s, InsertSucceeds(db, f, Batch(s.writer)))
  {
    assert s.writer.retryBuf + s.writer.buf + [] == Batch(s.writer);
  }

  lemma DrainSteps(s: State, now: Time, f: Faults, db: Database)
    ensures var t := DrainTurn(now, f);
      if s.phase != Draining then InsertedIn(s, t) == [] && Moved(s, t, db) == s
      else if s.channel != [] then InsertedIn(s, t) == [] && Moved(s, t, db) == Take(s)
      else
        && InsertedIn(s, t) == Batch(s.writer)
        && Moved(s, t, db) == UsagePipeline.Flush(s, InsertSucceeds(db, f, Batch(s.writer))).(phase := Stopped)
  {
    assert s.writer.retryBuf + s.writer.buf + [] == Batch(s.writer);
  }

  lemma MovedKeeps(p: State -> bool, s: State, t: Turn, db: Database)
    requires Stable(p) && p(s)
    ensures p(Moved(s, t, db))
  {
  }

  lemma OneMoreMoment(ms: seq<Moment>, turns: seq<Turn>, t: Turn, m: Moment)
    requires Traces(ms, turns) && TurnMoves(ms[|turns|], t, m)
    ensures Traces(ms + [m], turns + [t])
  {
    var all, more := ms + [m], turns + [t];
    forall i | 0 <= i < |more|
      ensures TurnMoves(all[i], more[i], all[i + 1])
    {
      if i < |turns| {
        assert TurnMoves(ms[i], turns[i], ms[i + 1]);
      }
    }
  }

  // ------------------------------------------------------------- the writer stops

  function DrainTurns(turns: seq<Turn>): nat {
    if turns == [] then 0 else (if turns[0].DrainTurn? then 1 else 0) + DrainTurns(turns[1..])
  }

  function ReadyTurns(turns: seq<Turn>): nat {
    if turns == [] then 0 else (if turns[0].ReadyTurn? then 1 else 0) + ReadyTurns(turns[1..])
  }

  /** Nothing can enter the channel any more. */
  predicate Shut(s: State, turns: seq<Turn>) {
    s.closed || forall i :: 0 <= i < |turns| ==> !turns[i].SendTurn?
  }

  lemma TracesPeel(ms: seq<Moment>, turns: seq<Turn>)
    requires Traces(ms, turns) && turns != []
    ensures TurnMoves(ms[0], turns[0], ms[1]) && Traces(ms[1..], turns[1..])
  {
    forall i | 0 <= i < |turns[1..]|
      ensures TurnMoves(ms[1..][i], turns[1..][i], ms[1..][i + 1])
    {
      assert TurnMoves(ms[i + 1], turns[i + 1], ms[i + 2]);
    }
  }

  lemma ShutStays(s: State, turns: seq<Turn>, s': State)
    requires Shut(s, turns) && turns != [] && (s.closed ==> s'.closed)
    ensures Shut(s', turns[1..])
  {
    assert forall i :: 0 <= i < |turns[1..]| ==> turns[1..][i] == turns[i + 1];
  }

  /** What a turn does to phase and channel when nothing is sent. */
  lemma TurnProgress(s: State, t: Turn, db: Database)
    requires s.closed || !t.SendTurn?
    ensures var s' := Moved(s, t, db);
      && (s.closed ==> s'.closed) && s'.accepted == s.accepted
      && (s.phase == Stopped ==> s'.phase == Stopped && s'.channel == s.channel && s'.writer == s.writer)
      && (s.phase == Draining && !t.DrainTurn? ==> s'.phase == Draining && s'.channel == s.channel)
      && (s.phase == Draining && t.DrainTurn? && s.channel != [] ==>
            s'.phase == Draining && s'.channel == s.channel[1..])
      && (s.phase == Draining && t.DrainTurn? && s.channel == [] ==> s'.phase == Stopped && s'.channel == [])
      && (s.phase == Running && !t.DoneTurn? && !t.ReadyTurn? ==> s'.phase == Running && s'.channel == s.channel)
      && (s.phase == Running && t.ReadyTurn? && s.channel != [] ==>
            s'.phase == Running && s'.channel == s.channel[1..])
      && (s.phase == Running && t.ReadyTurn? && s.channel == [] && s.closed ==>
            s'.phase == Stopped && s'.channel == [])
  {
    match t
    case ReadyTurn(now, f) =>
      ReadySteps(s, now, f, db);
      FlushFrame(s, InsertSucceeds(db, f, Batch(s.writer)));
      if s.channel != [] {
        FlushFrame(Take(s), InsertSucceeds(db, f, DueWhenFull(Take(s))));
      }
    case TickTurn(now, f) =>
      TickSteps(s, now, f, db);
      FlushFrame(s, InsertSucceeds(db, f, Batch(s.writer)));
    case DrainTurn(now, f) =>
      DrainSteps(s, now, f, db);
      FlushFrame(s, InsertSucceeds(db, f, Batch(s.writer)));
    case _ =>
  }

  lemma {:induction false} StoppedStays(ms: seq<Moment>, turns: seq<Turn>)
    requires Traces(ms, turns) && ms[0].state.phase == Stopped && Shut(ms[0].state, turns)
    ensures var s, s' := ms[0].state, ms[|turns|].state;
      s'.phase == Stopped && s'.channel == s.channel && s'.writer == s.writer && s'.accepted == s.accepted
    decreases |turns|
  {
    if turns != [] {
      TracesPeel(ms, turns);
      TurnProgress(ms[0].state, turns[0], ms[0].ledger.db);
      ShutStays(ms[0].state, turns, ms[1].state);
      StoppedStays(ms[1..], turns[1..]);
    }
  }

  /** Cancelled, and with nothing sent any more, the writer needs one turn of drain for each entry in
      the channel and one for the final flush, whatever else happens in between. */
  lemma {:induction false} CancelledWriterStops(ms: seq<Moment>, turns: seq<Turn>)
    requires Traces(ms, turns) && ms[0].state.phase == Draining && Shut(ms[0].state, turns)
    requires DrainTurns(turns) > |ms[0].state.channel|
    ensures var s' := ms[|turns|].state;
      s'.phase == Stopped && s'.channel == [] && s'.accepted == ms[0].state.accepted
    decreases |turns|
  {
    var s, t := ms[0].state, turns[0];
    TracesPeel(ms, turns);
    TurnProgress(s, t, ms[0].ledger.db);
    ShutStays(s, turns, ms[1].state);
    if t.DrainTurn? && s.channel == [] {
      StoppedStays(ms[1..], turns[1..]);
    } else {
      CancelledWriterStops(ms[1..], turns[1..]);
    }
  }

  /** Once the channel is closed it needs one receive for each entry left, and one to see the end. */
  lemma {:induction false} ClosedWriterStops(ms: seq<Moment>, turns: seq<Turn>)
    requires Traces(ms, turns) && ms[0].state.phase == Running && ms[0].state.closed
    requires forall i :: 0 <= i < |turns| ==> !turns[i].DoneTurn?
    requires ReadyTurns(turns) > |ms[0].state.channel|
    ensures var s' := ms[|turns|].state;
      s'.phase == Stopped && s'.channel == [] && s'.accepted == ms[0].state.accepted
    decreases |turns|
  {
    var s, t := ms[0].state, turns[0];
    TracesPeel(ms, turns);
    TurnProgress(s, t, ms[0].ledger.db);
    assert forall i :: 0 <= i < |turns[1..]| ==> turns[1..][i] == turns[i + 1];
    if t.ReadyTurn? && s.channel == [] {
      StoppedStays(ms[1..], turns[1..]);
    } else {
      ClosedWriterStops(ms[1..], turns[1..]);
    }
  }

  /** The context has been cancelled and the turns suffice to drain. */
  predicate Cancelled(s: State, turns: seq<Turn>) {
    s.phase == Draining && Shut(s, turns) && DrainTurns(turns) > |s.channel|
  }

  /** The channel has been closed and the turns suffice to receive what is left. */
  predicate Closed(s: State, turns: seq<Turn>) {
    && s.phase == Running && s.closed && ReadyTurns(turns) > |s.channel|
    && forall i :: 0 <= i < |turns| ==> !turns[i].DoneTurn?
  }

  /** Every flush of these turns commits. */
  ghost predicate AllCommit(ms: seq<Moment>, turns: seq<Turn>)
    requires Traces(ms, turns)
  {
    forall i :: 0 <= i < |turns| ==> Commits(ms[i].state, turns[i], ms[i].ledger.db)
  }

  /** Nothing has been discarded, and nothing is left over in the end. */
  ghost predicate Neat(s: State) {
    && (s.phase == Stopped ==> s.writer.retryBuf == [])
    && forall i :: 0 <= i < |s.blocks| ==> s.blocks[i].Committed?
  }

  lemma TurnKeepsNeat(s: State, t: Turn, db: Database)
    requires Neat(s) && Commits(s, t, db)
    ensures Neat(Moved(s, t, db))
  {
    match t
    case ReadyTurn(now, f) => ReadySteps(s, now, f, db);
    case TickTurn(now, f) => TickSteps(s, now, f, db);
    case DrainTurn(now, f) => DrainSteps(s, now, f, db);
    case _ =>
  }

  lemma {:induction false} TurnsKeep(ms: seq<Moment>, turns: seq<Turn>, capacity: nat)
    requires Traces(ms, turns) && Reachable(ms[0].state, capacity)
    ensures Reachable(ms[|turns|].state, capacity)
    ensures Neat(ms[0].state) && AllCommit(ms, turns) ==> Neat(ms[|turns|].state)
    decreases |turns|
  {
    if turns != [] {
      TracesPeel(ms, turns);
      ReachableIsStable(capacity);
      MovedKeeps(s => Reachable(s, capacity), ms[0].state, turns[0], ms[0].ledger.db);
      TurnsKeep(ms[1..], turns[1..], capacity);
      if Neat(ms[0].state) && AllCommit(ms, turns) {
        TurnKeepsNeat(ms[0].state, turns[0], ms[0].ledger.db);
        forall i | 0 <= i < |turns[1..]|
          ensures Commits(ms[1..][i].state, turns[1..][i], ms[1..][i].ledger.db)
        {
          assert Commits(ms[i + 1].state, turns[i + 1], ms[i + 1].ledger.db);
        }
      }
    }
  }

  /** Shutdown, whatever else happens in between: the writer stops with an empty channel, and every
      entry ever accepted has been settled or is left in the retry buffer, in order.  If nothing
      was discarded before and every flush commits, every one of them is stored. */
  lemma Shutdown(ms: seq<Moment>, turns: seq<Turn>, capacity: nat)
    requires Traces(ms, turns) && Reachable(ms[0].state, capacity)
    requires Cancelled(ms[0].state, turns) || Closed(ms[0].state, turns)
    ensures var s' := ms[|turns|].state;
      && s'.phase == Stopped && s'.channel == []
      && s'.accepted == ms[0].state.accepted == Settled(s'.blocks) + s'.writer.retryBuf
      && (Neat(ms[0].state) && AllCommit(ms, turns) ==> s'.accepted == Stored(s'.blocks))
  {
    var s' := ms[|turns|].state;
    if Cancelled(ms[0].state, turns) {
      CancelledWriterStops(ms, turns);
    } else {
      ClosedWriterStops(ms, turns);
    }
    TurnsKeep(ms, turns, capacity);
    UsageConserved(s', capacity);
    assert Settled(s'.blocks) + s'.writer.retryBuf + [] == Settled(s'.blocks) + s'.writer.retryBuf;
    if Neat(s') {
      SettledIsStored(s'.blocks);
    }
  }
}
