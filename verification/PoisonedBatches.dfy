/** Pipeline and store together: what becomes of the entries of a token that is deleted while
    they wait, and of the entries that wait with them. */
module PoisonedBatches {
  import opened Prelude
  import opened Database
  import opened Integrity
  import opened UsageLedger
  import opened UsagePipeline
  import LedgerRuns
  import Turns

  type Owed = LedgerRuns.Owed

  /** The pipeline on its store; `used` are the ids ever given to a token. */
  datatype World = World(s: State, db: Database, used: set<Owed>)

  /** In a step that flushes, `ok` says that no database call fails of itself; the insert then
      still depends on the foreign keys. */
  datatype Event =
    | Pipe(step: Step, now: Time)
    | Store(op: Op)

  function KeysOf(e: UsageEntry): set<Owed> {
    {LedgerRuns.Owed(GateTokenId, e.gateId), LedgerRuns.Owed(RealTokenId, e.realId)}
  }

  /** The insert of the step's flush goes through. */
  predicate Inserts(w: World, step: Step) {
    Flushes(w.s, step) && step.ok && AllReference(w.db, ToLogs(Inserted(w.s, step)))
  }

  /** The step with the outcome that the store decides. */
  function Decided(w: World, step: Step): Step {
    if Flushes(w.s, step) then step.(ok := Inserts(w, step)) else step
  }

  /** Entries are sent for tokens that have existed. */
  function DoPipe(w: World, step: Step, now: Time): World {
    if step.Send? && !(KeysOf(step.entry) <= w.used) then w
    else
      var logs := if Inserts(w, step) then ToLogs(Inserted(w.s, step)) else [];
      w.(s := UsagePipeline.Next(w.s, Decided(w, step)),
         db := if logs == [] then w.db else OneByOne(WithLogs(w.db, logs, now), logs))
  }

  function DoStore(w: World, op: Op): World {
    if !LedgerRuns.Admits(w.used, op) then w
    else w.(db := Apply(w.db, op), used := w.used + LedgerRuns.NewIds(op))
  }

  function Next(w: World, e: Event): World {
    match e
    case Pipe(step, now) => DoPipe(w, step, now)
    case Store(op) => DoStore(w, op)
  }

  function Run(w: World, es: seq<Event>): World
    decreases |es|
  {
    if es == [] then w else Run(Next(w, es[0]), es[1..])
  }

  /** A turn of the writer, undisturbed and with every total updated, is such an event: the same
      pipeline and the same store. */
  lemma TurnIsEvent(w: World, t: Turns.Turn)
    requires Turns.MayFlush(t) && t.faults.others == [] && t.faults.gates == {} && t.faults.reals == {}
    ensures var ok := t.faults.failAt > |Turns.InsertedIn(w.s, t)| + 2;
      var step := Turns.StepOf(w.s, t, ok);
      step.Some? &&
      DoPipe(w, step.value, t.now) == World(Turns.Moved(w.s, t, w.db), Turns.StoreAfter(w.s, t, w.db), w.used)
  {
    var logs := Turns.CommittedIn(w.s, t, w.db);
    var start := WithLogs(w.db, logs, t.now);
    Turns.PaidWithoutFaults(start, logs, t.faults);
    assert ToLogs([]) == [];
    if Turns.InsertedIn(w.s, t) == [] {
      FlushIgnoresOutcome(w.s, t);
    }
  }

  /** With nothing to insert the outcome does not matter. */
  lemma FlushIgnoresOutcome(s: State, t: Turns.Turn)
    requires Turns.MayFlush(t) && Turns.InsertedIn(s, t) == []
    ensures UsagePipeline.Next(s, Turns.StepOf(s, t, true).value) ==
      UsagePipeline.Next(s, Turns.StepOf(s, t, false).value)
  {
  }

  // ------------------------------------------------------------- missing tokens

  predicate Exists(db: Database, k: Owed) {
    k.id in TableKeys(db, k.column)
  }

  /** The entry names a token that has been deleted. */
  predicate Missing(w: World, e: UsageEntry) {
    exists k :: k in KeysOf(e) && k in w.used && !Exists(w.db, k)
  }

  lemma DeletedStaysDeleted(w: World, e: Event, k: Owed)
    requires k in w.used && !Exists(w.db, k)
    ensures k in Next(w, e).used && !Exists(Next(w, e).db, k)
  {
    match e
    case Pipe(step, now) =>
      if Inserts(w, step) {
        var logs := ToLogs(Inserted(w.s, step));
        OneByOneGrows(WithLogs(w.db, logs, now), logs);
      }
    case Store(op) =>
      if LedgerRuns.Admits(w.used, op) && Exists(Apply(w.db, op), k) {
        LedgerRuns.OtherAddsOnlyNewIds(w.db, op, k.column, k.id);
      }
  }

  lemma MissingStays(w: World, ev: Event, e: UsageEntry)
    requires Missing(w, e)
    ensures Missing(Next(w, ev), e)
  {
    var k :| k in KeysOf(e) && k in w.used && !Exists(w.db, k);
    DeletedStaysDeleted(w, ev, k);
  }

  lemma MissingBlocksInsert(w: World, step: Step, e: UsageEntry)
    requires Flushes(w.s, step) && e in Inserted(w.s, step) && Missing(w, e)
    ensures !Inserts(w, step)
  {
    var es := Inserted(w.s, step);
    var i :| 0 <= i < |es| && es[i] == e;
    assert ToLogs(es)[i] == ToLog(e);
    assert !References(w.db, ToLog(e));
  }

  // ------------------------------------------------ one missing token takes the batch

  /** Since w0, where the writer held `held`, nothing has been decided and it is held still; or the
      first decision was to discard a batch that begins with it. */
  ghost predicate HeldOrDiscarded(blocks: seq<Block>, held: seq<UsageEntry>, s: State) {
    && blocks <= s.blocks
    && (if |s.blocks| == |blocks| then held <= Batch(s.writer)
        else s.blocks[|blocks|].Discarded? && held <= s.blocks[|blocks|].entries)
  }

  lemma UndecidedFlushKeepsBatch(s: State, ok: bool)
    requires Flush(s, ok).blocks == s.blocks
    ensures Batch(Flush(s, ok).writer) == Batch(s.writer)
  {
    assert Batch(s.writer) + [] == Batch(s.writer);
  }

  lemma TakeExtendsBatch(s: State)
    requires s.channel != []
    ensures Batch(s.writer) <= Batch(Take(s).writer)
  {
    assert Batch(Take(s).writer) == Batch(s.writer) + [s.channel[0]];
  }

  lemma UndecidedKeepsBatch(s: State, step: Step)
    requires UsagePipeline.Next(s, step).blocks == s.blocks
    ensures Batch(s.writer) <= Batch(UsagePipeline.Next(s, step).writer)
  {
    match step
    case Receive(ok) =>
      if s.phase == Running && s.channel != [] {
        TakeExtendsBatch(s);
        if |Take(s).writer.buf| >= BATCH_SIZE {
          UndecidedFlushKeepsBatch(Take(s), ok);
        }
      }
    case ReceiveClosed(ok) =>
      if s.phase == Running && s.channel == [] && s.closed {
        UndecidedFlushKeepsBatch(s, ok);
      }
    case Tick(ok) =>
      if s.phase == Running && Batch(s.writer) != [] {
        UndecidedFlushKeepsBatch(s, ok);
      }
    case DrainOne =>
      if s.phase == Draining && s.channel != [] {
        TakeExtendsBatch(s);
      }
    case DrainEnd(ok) =>
      if s.phase == Draining && s.channel == [] {
        UndecidedFlushKeepsBatch(s, ok);
      }
    case _ =>
  }

  lemma StepKeepsHeld(w: World, step: Step, now: Time, blocks: seq<Block>, held: seq<UsageEntry>, e: UsageEntry)
    requires Inv(w.s) && HeldOrDiscarded(blocks, held, w.s) && e in held && Missing(w, e)
    ensures HeldOrDiscarded(blocks, held, DoPipe(w, step, now).s)
  {
    var run := Decided(w, step);
    StepDecides(w.s, run);
    if Flushes(w.s, step) {
      assert Inserted(w.s, run) == Inserted(w.s, step);
      assert Batch(w.s.writer) <= Inserted(w.s, step);
    }
    if |w.s.blocks| == |blocks| {
      assert forall x :: x in held ==> x in Batch(w.s.writer);
      if Flushes(w.s, step) {
        assert e in Inserted(w.s, step);
        MissingBlocksInsert(w, step, e);
      }
      if UsagePipeline.Next(w.s, run).blocks == w.s.blocks {
        UndecidedKeepsBatch(w.s, run);
      }
    }
  }

  lemma StepKeepsInvariant(w: World, e: Event)
    requires Inv(w.s)
    ensures Inv(Next(w, e).s)
  {
    if e.Pipe? {
      StepKeepsInv(w.s, Decided(w, e.step));
    }
  }

  /** Once the writer holds an entry of a deleted token, every later flush fails, whatever else
      happens, until the whole batch is discarded with it: the first decision that follows, if
      there is one, discards everything that was held with the entry, in order, the entries of
      live tokens included. */
  lemma {:induction false} PoisonedBatchIsDiscarded(w: World, es: seq<Event>, blocks: seq<Block>,
                                                     held: seq<UsageEntry>, e: UsageEntry)
    requires Inv(w.s) && HeldOrDiscarded(blocks, held, w.s) && e in held && Missing(w, e)
    ensures var w' := Run(w, es); HeldOrDiscarded(blocks, held, w'.s) && Missing(w', e)
    decreases |es|
  {
    if es != [] {
      StepKeepsInvariant(w, es[0]);
      MissingStays(w, es[0], e);
      if es[0].Pipe? {
        StepKeepsHeld(w, es[0].step, es[0].now, blocks, held, e);
      }
      PoisonedBatchIsDiscarded(Next(w, es[0]), es[1..], blocks, held, e);
    }
  }

  /** The event flushes something, whatever becomes of it. */
  predicate IsAttempt(w: World, e: Event) {
    e.Pipe? && Flushes(w.s, e.step) && Inserted(w.s, e.step) != []
  }

  function Attempts(w: World, es: seq<Event>): nat
    decreases |es|
  {
    if es == [] then 0
    else
      var later := Attempts(Next(w, es[0]), es[1..]);
      if IsAttempt(w, es[0]) then later + 1 else later
  }

  lemma {:induction false} BlocksOnlyGrow(w: World, es: seq<Event>)
    requires Inv(w.s)
    ensures w.s.blocks <= Run(w, es).s.blocks
    decreases |es|
  {
    if es != [] {
      if es[0].Pipe? {
        StepDecides(w.s, Decided(w, es[0].step));
      }
      StepKeepsInvariant(w, es[0]);
      BlocksOnlyGrow(Next(w, es[0]), es[1..]);
    }
  }

  /** One event with a missing entry in the batch: a flush decides if it is the fourth failure in a
      row and lengthens the streak otherwise; anything else leaves the streak alone. */
  ghost predicate StreakMoves(s: State, s': State, e: UsageEntry, attempt: bool) {
    && s.blocks <= s'.blocks
    && (|s'.blocks| > |s.blocks| <==> attempt && s.streak == 3)
    && (|s'.blocks| == |s.blocks| ==> e in Batch(s'.writer) && s'.streak == s.streak + if attempt then 1 else 0)
  }

  lemma PoisonedFlush(w: World, step: Step, e: UsageEntry)
    requires Inv(w.s) && e in Batch(w.s.writer) && Missing(w, e) && Flushes(w.s, step)
    ensures StreakMoves(w.s, UsagePipeline.Next(w.s, Decided(w, step)), e, true)
  {
    var run := Decided(w, step);
    StepDecides(w.s, run);
    assert Inserted(w.s, run) == Inserted(w.s, step) && e in Inserted(w.s, step);
    MissingBlocksInsert(w, step, e);
    if UsagePipeline.Next(w.s, run).blocks == w.s.blocks {
      UndecidedKeepsBatch(w.s, run);
    }
  }

  lemma NoFlushMoves(s: State, step: Step, e: UsageEntry)
    requires Inv(s) && e in Batch(s.writer) && !Flushes(s, step)
    ensures StreakMoves(s, UsagePipeline.Next(s, step), e, false)
  {
    StepDecides(s, step);
    UndecidedKeepsBatch(s, step);
  }

  lemma PoisonedStep(w: World, ev: Event, e: UsageEntry)
    requires Inv(w.s) && e in Batch(w.s.writer) && Missing(w, e)
    ensures StreakMoves(w.s, Next(w, ev).s, e, IsAttempt(w, ev))
  {
    if ev.Pipe? {
      if Flushes(w.s, ev.step) {
        PoisonedFlush(w, ev.step, e);
        assert e in Inserted(w.s, ev.step);
      } else {
        NoFlushMoves(w.s, ev.step, e);
      }
    }
  }

  /** And the decision comes: the streak has at most four failures, so as many attempts as are left
      of it decide the batch, whatever else happens. */
  lemma {:induction false} PoisonedBatchIsDecided(w: World, es: seq<Event>, e: UsageEntry)
    requires Inv(w.s) && e in Batch(w.s.writer) && Missing(w, e)
    requires Attempts(w, es) >= 4 - w.s.streak
    ensures |Run(w, es).s.blocks| > |w.s.blocks|
    decreases |es|
  {
    if es != [] {
      var w' := Next(w, es[0]);
      PoisonedStep(w, es[0], e);
      StepKeepsInvariant(w, es[0]);
      MissingStays(w, es[0], e);
      if |w'.s.blocks| > |w.s.blocks| {
        BlocksOnlyGrow(w', es[1..]);
      } else {
        PoisonedBatchIsDecided(w', es[1..], e);
      }
    }
  }

  // ----------------------------------------------- without faults nothing else is lost

  predicate AllUsed(es: seq<UsageEntry>, used: set<Owed>) {
    forall e :: e in es ==> KeysOf(e) <= used
  }

  ghost predicate Sound(w: World) {
    Inv(w.s) && AllUsed(w.s.channel, w.used) && AllUsed(Batch(w.s.writer), w.used)
  }

  predicate Inside(s: State, e: UsageEntry) {
    e in s.channel || e in Batch(s.writer)
  }

  lemma FlushHoldsNoMore(s: State, ok: bool, e: UsageEntry)
    requires Inside(Flush(s, ok), e)
    ensures Inside(s, e)
  {
  }

  lemma TakeHoldsNoMore(s: State, e: UsageEntry)
    requires s.channel != [] && Inside(Take(s), e)
    ensures Inside(s, e)
  {
    assert Batch(Take(s).writer) == Batch(s.writer) + [s.channel[0]];
  }

  /** Only a send brings a new entry in. */
  lemma OnlySendsEnter(s: State, step: Step, e: UsageEntry)
    requires Inside(UsagePipeline.Next(s, step), e)
    ensures Inside(s, e) || (step.Send? && step.entry == e)
  {
    match step
    case Receive(ok) =>
      if s.phase == Running && s.channel != [] {
        if AfterReceive(s, ok) != Take(s) {
          FlushHoldsNoMore(Take(s), ok, e);
        }
        TakeHoldsNoMore(s, e);
      }
    case ReceiveClosed(ok) =>
      if s.phase == Running && s.channel == [] && s.closed {
        FlushHoldsNoMore(s, ok, e);
      }
    case Tick(ok) =>
      if s.phase == Running && Batch(s.writer) != [] {
        FlushHoldsNoMore(s, ok, e);
      }
    case DrainOne =>
      if s.phase == Draining && s.channel != [] {
        TakeHoldsNoMore(s, e);
      }
    case DrainEnd(ok) =>
      if s.phase == Draining && s.channel == [] {
        FlushHoldsNoMore(s, ok, e);
      }
    case _ =>
  }

  lemma PipeKeepsUsed(w: World, step: Step, now: Time, e: UsageEntry)
    requires Sound(w) && Inside(DoPipe(w, step, now).s, e)
    ensures KeysOf(e) <= w.used
  {
    if !step.Send? || KeysOf(step.entry) <= w.used {
      OnlySendsEnter(w.s, Decided(w, step), e);
    }
  }

  lemma StepKeepsSound(w: World, e: Event)
    requires Sound(w)
    ensures Sound(Next(w, e))
  {
    StepKeepsInvariant(w, e);
    if e.Pipe? {
      forall x | Inside(DoPipe(w, e.step, e.now).s, x)
        ensures KeysOf(x) <= w.used
      {
        PipeKeepsUsed(w, e.step, e.now, x);
      }
    }
  }

  predicate FaultFree(step: Step) {
    step.Receive? || step.ReceiveClosed? || step.Tick? || step.DrainEnd? ==> step.ok
  }

  lemma InsertedIsUsed(w: World, step: Step)
    requires Sound(w) && Flushes(w.s, step)
    ensures AllUsed(Inserted(w.s, step), w.used)
  {
  }

  /** Without faults of its own the insert fails exactly when the batch holds an entry of a deleted token. */
  lemma FaultFreeInsertIff(w: World, step: Step)
    requires Sound(w) && Flushes(w.s, step) && step.ok
    ensures Inserts(w, step) <==> forall e :: e in Inserted(w.s, step) ==> !Missing(w, e)
  {
    var es := Inserted(w.s, step);
    if Inserts(w, step) {
      forall e | e in es
        ensures !Missing(w, e)
      {
        if Missing(w, e) {
          MissingBlocksInsert(w, step, e);
        }
      }
    } else {
      var i :| 0 <= i < |es| && !References(w.db, ToLogs(es)[i]);
      InsertedIsUsed(w, step);
      var g, r := LedgerRuns.Owed(GateTokenId, es[i].gateId), LedgerRuns.Owed(RealTokenId, es[i].realId);
      assert g in KeysOf(es[i]) && r in KeysOf(es[i]);
      assert !Exists(w.db, g) || !Exists(w.db, r);
      assert Missing(w, es[i]);
    }
  }

  /** So a batch that is decided without faults is discarded exactly when it holds an entry of a
      deleted token, and stored otherwise. */
  lemma FaultFreeDecisionIff(w: World, step: Step, now: Time)
    requires Sound(w) && FaultFree(step)
    ensures var s' := DoPipe(w, step, now).s;
      |s'.blocks| > |w.s.blocks| ==>
        && s'.blocks == w.s.blocks + [s'.blocks[|w.s.blocks|]]
        && var b := s'.blocks[|w.s.blocks|];
           (b.Discarded? <==> exists e :: e in b.entries && Missing(w, e))
  {
    var run := Decided(w, step);
    var s' := DoPipe(w, step, now).s;
    StepDecides(w.s, run);
    if |s'.blocks| > |w.s.blocks| {
      assert Inserted(w.s, run) == Inserted(w.s, step);
      FaultFreeInsertIff(w, step);
    }
  }

  ghost predicate Explained(w: World) {
    forall i :: 0 <= i < |w.s.blocks| && w.s.blocks[i].Discarded? ==>
      exists e :: e in w.s.blocks[i].entries && Missing(w, e)
  }

  lemma StepKeepsExplained(w: World, e: Event)
    requires Sound(w) && Explained(w) && (e.Pipe? ==> FaultFree(e.step))
    ensures Explained(Next(w, e))
  {
    var w' := Next(w, e);
    if e.Pipe? {
      FaultFreeDecisionIff(w, e.step, e.now);
      StepDecides(w.s, Decided(w, e.step));
    }
    forall i | 0 <= i < |w'.s.blocks| && w'.s.blocks[i].Discarded?
      ensures exists x :: x in w'.s.blocks[i].entries && Missing(w', x)
    {
      assert i < |w.s.blocks| ==> w'.s.blocks[i] == w.s.blocks[i];
      var x :| x in w'.s.blocks[i].entries && Missing(w, x);
      MissingStays(w, e, x);
    }
  }

  /** In every run without faults, every batch ever discarded holds an entry of a deleted token. */
  lemma {:induction false} FaultFreeLossIsExplained(w: World, es: seq<Event>)
    requires Sound(w) && Explained(w)
    requires forall i :: 0 <= i < |es| && es[i].Pipe? ==> FaultFree(es[i].step)
    ensures Sound(Run(w, es)) && Explained(Run(w, es))
    decreases |es|
  {
    if es != [] {
      StepKeepsSound(w, es[0]);
      StepKeepsExplained(w, es[0]);
      assert forall i :: 0 <= i < |es[1..]| ==> es[1..][i] == es[i + 1];
      FaultFreeLossIsExplained(Next(w, es[0]), es[1..]);
    }
  }

  // ------------------------------------------------------------------ reachable worlds

  function Opening(capacity: nat, db: Database): World {
    World(Start(capacity), db, LedgerRuns.IdsIn(db))
  }

  predicate FaultFreeRun(es: seq<Event>) {
    forall i :: 0 <= i < |es| && es[i].Pipe? ==> FaultFree(es[i].step)
  }

  /** Reached without a database error. */
  ghost predicate FaultFreelyReachable(w: World, capacity: nat, db: Database) {
    exists es :: FaultFreeRun(es) && w == Run(Opening(capacity, db), es)
  }

  lemma StartIsSound(capacity: nat, db: Database)
    ensures Sound(Opening(capacity, db)) && Explained(Opening(capacity, db))
  {
  }

  /** In every world reached without errors every discarded batch holds an entry of a deleted token. */
  lemma ReachableLossIsExplained(w: World, capacity: nat, db: Database, i: nat)
    requires FaultFreelyReachable(w, capacity, db) && i < |w.s.blocks| && w.s.blocks[i].Discarded?
    ensures exists e :: e in w.s.blocks[i].entries && Missing(w, e)
  {
    var es :| FaultFreeRun(es) && w == Run(Opening(capacity, db), es);
    StartIsSound(capacity, db);
    FaultFreeLossIsExplained(Opening(capacity, db), es);
  }

  lemma {:induction false} RunThen(w: World, es: seq<Event>, e: Event)
    ensures Run(w, es + [e]) == Next(Run(w, es), e)
    decreases |es|
  {
    if es == [] {
      assert (es + [e])[1..] == [];
    } else {
      AppendPeels(es, [e]);
      RunThen(Next(w, es[0]), es[1..], e);
    }
  }

  lemma TakeEvent(w: World, capacity: nat, db: Database, e: Event) returns (w': World)
    requires FaultFreelyReachable(w, capacity, db) && (e.Pipe? ==> FaultFree(e.step))
    ensures w' == Next(w, e) && FaultFreelyReachable(w', capacity, db)
  {
    var es :| FaultFreeRun(es) && w == Run(Opening(capacity, db), es);
    RunThen(Opening(capacity, db), es, e);
    assert FaultFreeRun(es + [e]);
    w' := Next(w, e);
  }

  lemma TakeStore(w: World, capacity: nat, db: Database, op: Op) returns (w': World)
    requires FaultFreelyReachable(w, capacity, db)
    ensures w' == DoStore(w, op) && FaultFreelyReachable(w', capacity, db)
  {
    w' := TakeEvent(w, capacity, db, Store(op));
  }

  lemma TakeStep(w: World, capacity: nat, db: Database, step: Step) returns (w': World)
    requires FaultFreelyReachable(w, capacity, db) && FaultFree(step) && !Flushes(w.s, step)
    requires step.Send? ==> KeysOf(step.entry) <= w.used
    ensures w' == w.(s := UsagePipeline.Next(w.s, step)) && FaultFreelyReachable(w', capacity, db)
  {
    w' := TakeEvent(w, capacity, db, Pipe(step, 0));
  }

  // ------------------------------------------------------- a live entry that is lost

  lemma TakeReal(w: World, capacity: nat, db: Database, id: Id, access: string) returns (w': World)
    requires FaultFreelyReachable(w, capacity, db)
    requires LedgerRuns.Owed(RealTokenId, id) !in w.used && id !in w.db.reals
    requires forall r :: r in w.db.reals ==> w.db.reals[r].accessToken != access
    ensures FaultFreelyReachable(w', capacity, db) && w'.s == w.s
    ensures w'.used == w.used + {LedgerRuns.Owed(RealTokenId, id)}
    ensures w'.db == w.db.(reals := w.db.reals[id := RealToken("", access, "", true, 0, 0, 0, 0)])
  {
    w' := TakeStore(w, capacity, db, CreateRealOp(id, "", access, "", 0));
  }

  lemma OneGate(capacity: nat, g: Id) returns (w: World)
    ensures FaultFreelyReachable(w, capacity, Empty()) && w.s == Start(capacity)
    ensures w.db.gates.Keys == {g} && w.db.reals == map[] && w.used == {LedgerRuns.Owed(GateTokenId, g)}
  {
    w := Opening(capacity, Empty());
    assert w == Run(w, []) && FaultFreeRun([]);
    w := TakeStore(w, capacity, Empty(), CreateGateOp(g, "", "gate", "", 0));
  }

  lemma OneGateTwoReals(capacity: nat, g: Id, a: Id, b: Id) returns (w: World)
    requires a != b
    ensures FaultFreelyReachable(w, capacity, Empty()) && w.s == Start(capacity)
    ensures w.db.gates.Keys == {g} && w.db.reals.Keys == {a, b}
    ensures w.used ==
      {LedgerRuns.Owed(GateTokenId, g), LedgerRuns.Owed(RealTokenId, a), LedgerRuns.Owed(RealTokenId, b)}
  {
    w := OneGate(capacity, g);
    w := TakeReal(w, capacity, Empty(), a, "a");
    w := TakeReal(w, capacity, Empty(), b, "b");
  }

  lemma DeleteReal(w: World, capacity: nat, db: Database, id: Id) returns (w': World)
    requires FaultFreelyReachable(w, capacity, db) && id in w.db.reals
    ensures FaultFreelyReachable(w', capacity, db) && w'.s == w.s && w'.used == w.used
    ensures w'.db.gates == w.db.gates && w'.db.reals == w.db.reals - {id}
  {
    w' := TakeStore(w, capacity, db, DeleteOp(RealTokenId, id, false));
  }

  /** The entry is sent and received. */
  lemma Arrives(w: World, capacity: nat, db: Database, e: UsageEntry) returns (w': World)
    requires FaultFreelyReachable(w, capacity, db) && KeysOf(e) <= w.used && |w.s.writer.buf| < 50
    requires w.s.phase == Running && !w.s.closed && w.s.channel == [] && w.s.capacity >= 1
    ensures FaultFreelyReachable(w', capacity, db) && w'.db == w.db && w'.used == w.used
    ensures w'.s == w.s.(attempts := w.s.attempts + 1, accepted := w.s.accepted + [e],
                         writer := w.s.writer.(buf := w.s.writer.buf + [e]))
  {
    var sent := TakeStep(w, capacity, db, Send(e));
    assert sent.s.channel == [e];
    w' := TakeStep(sent, capacity, db, Receive(true));
    assert [e][1..] == [];
  }

  /** A tick with a missing entry in the batch is a failed flush. */
  lemma PoisonedTick(w: World, capacity: nat, db: Database, e: UsageEntry) returns (w': World)
    requires FaultFreelyReachable(w, capacity, db) && w.s.phase == Running
    requires e in Batch(w.s.writer) && Missing(w, e)
    ensures FaultFreelyReachable(w', capacity, db) && w' == w.(s := Flush(w.s, false))
  {
    assert Inserted(w.s, Tick(true)) == Batch(w.s.writer);
    MissingBlocksInsert(w, Tick(true), e);
    w' := TakeEvent(w, capacity, db, Pipe(Tick(true), 0));
    assert Decided(w, Tick(true)) == Tick(false);
  }

  /** What a failed flush makes of two entries that have failed k times. */
  lemma TwoFail(s: State, both: seq<UsageEntry>, k: nat)
    requires |both| == 2 && k <= 3
    requires s.tries == (if k == 0 then [] else [k, k]) && s.joined == if k == 0 then [] else [0, 0]
    requires s.writer == if k == 0 then Writer(both, [], 0) else Writer([], both, k)
    ensures var s' := Flush(s, false);
      if k < 3 then s'.writer == Writer([], both, k + 1) && s'.tries == [k + 1, k + 1] && s'.joined == [0, 0]
        && s'.blocks == s.blocks && s'.phase == s.phase
      else s'.blocks == s.blocks + [Discarded(both, [4, 4], [0, 0])]
  {
    assert Batch(s.writer) == both by {
      assert [] + both == both + [] == both;
    }
    assert TriesAfter(s.tries, |s.writer.buf|) == [k + 1, k + 1];
    assert JoinedAfter(s.joined, |s.writer.buf|, k) == [0, 0];
  }

  lemma {:induction false} FailuresInARow(w: World, capacity: nat, db: Database, both: seq<UsageEntry>, k: nat)
    returns (w': World)
    requires FaultFreelyReachable(w, capacity, db) && w.s.phase == Running && w.s.blocks == []
    requires |both| == 2 && Missing(w, both[1]) && k <= 3
    requires w.s.tries == (if k == 0 then [] else [k, k]) && w.s.joined == if k == 0 then [] else [0, 0]
    requires w.s.writer == if k == 0 then Writer(both, [], 0) else Writer([], both, k)
    ensures FaultFreelyReachable(w', capacity, db) && w'.db == w.db && w'.used == w.used
    ensures w'.s.blocks == [Discarded(both, [4, 4], [0, 0])]
    decreases 3 - k
  {
    assert both[1] in Batch(w.s.writer) by {
      assert [] + both == both + [] == both;
    }
    TwoFail(w.s, both, k);
    w' := PoisonedTick(w, capacity, db, both[1]);
    if k < 3 {
      w' := FailuresInARow(w', capacity, db, both, k + 1);
    }
  }

  /** Without any database error an entry of live tokens is discarded, because an entry of a token
      deleted meanwhile waits in the same batch. */
  lemma LiveEntryIsLost(capacity: nat, live: UsageEntry, dead: UsageEntry) returns (w: World)
    requires capacity >= 1 && live.gateId == dead.gateId && live.realId != dead.realId
    ensures FaultFreelyReachable(w, capacity, Empty())
    ensures w.s.blocks == [Discarded([live, dead], [4, 4], [0, 0])]
    ensures References(w.db, ToLog(live)) && !Missing(w, live) && Missing(w, dead)
  {
    var g, a, b := live.gateId, live.realId, dead.realId;
    w := OneGateTwoReals(capacity, g, a, b);
    w := Arrives(w, capacity, Empty(), live);
    w := Arrives(w, capacity, Empty(), dead);
    assert w.s.writer == Writer([live, dead], [], 0);
    w := DeleteReal(w, capacity, Empty(), b);
    assert LedgerRuns.Owed(RealTokenId, b) in KeysOf(dead) && !Exists(w.db, LedgerRuns.Owed(RealTokenId, b));
    w := FailuresInARow(w, capacity, Empty(), [live, dead], 0);
  }
}
