/** The usage pipeline as a transition system: senders that never block, a bounded
    channel, and one writer that batches, retries and discards. */
module UsagePipeline {
  import opened Prelude
  import opened Database
  import opened SseStream

  datatype UsageEntry = UsageEntry(gateId: Id, realId: Id, usage: UsageData, path: string, status: int)

  /** The row that flush inserts for an entry. */
  function ToLog(e: UsageEntry): UsageLog {
    UsageLog(e.gateId, e.realId, e.usage.model, e.usage.input, e.usage.output,
             e.usage.cacheCreation, e.usage.cacheRead, e.path, e.status)
  }

  function ToLogs(es: seq<UsageEntry>): seq<UsageLog> {
    seq(|es|, i requires 0 <= i < |es| => ToLog(es[i]))
  }

  const BATCH_SIZE := 100
  const MAX_RETRIES := 3

  /** The fields of UsageWriter. */
  datatype Writer = Writer(buf: seq<UsageEntry>, retryBuf: seq<UsageEntry>, retryCount: nat)

  /** The fate of one batch.  Per entry, `tries` counts the failed inserts it took part in, and
      `joined` is what the retry count was when the entry was first flushed. */
  datatype Block =
    | Committed(entries: seq<UsageEntry>)
    | Discarded(entries: seq<UsageEntry>, tries: seq<nat>, joined: seq<nat>)

  datatype Phase = Running | Draining | Stopped

  datatype State = State(
    channel: seq<UsageEntry>,
    capacity: nat,
    closed: bool,
    phase: Phase,                  // where Run is: the select loop, drain, or returned
    writer: Writer,
    dropped: nat,
    // history
    attempts: nat,                 // calls of sendUsage
    accepted: seq<UsageEntry>,     // entries that entered the channel
    blocks: seq<Block>,            // what flushes decided
    tries: seq<nat>,               // failed inserts of each entry of retryBuf
    joined: seq<nat>,              // the retry count at its first flush
    streak: nat)                   // consecutive failed inserts since the last block

  /** `ok` says whether the insert of that step's flush commits, if it flushes. */
  datatype Step =
    | Send(entry: UsageEntry)
    | Close
    | Receive(ok: bool)
    | ReceiveClosed(ok: bool)
    | Tick(ok: bool)
    | Cancel
    | DrainOne
    | DrainEnd(ok: bool)

  function Batch(w: Writer): seq<UsageEntry> {
    w.retryBuf + w.buf
  }

  /** flush on the writer's fields. */
  function Flushed(w: Writer, ok: bool): Writer {
    if Batch(w) == [] then w
    else if ok then Writer([], [], 0)
    else if w.retryCount < MAX_RETRIES then Writer([], Batch(w), w.retryCount + 1)
    else Writer([], [], 0)
  }

  function TriesAfter(tries: seq<nat>, added: nat): seq<nat> {
    seq(|tries| + added, i requires 0 <= i < |tries| + added => if i < |tries| then tries[i] + 1 else 1)
  }

  function JoinedAfter(joined: seq<nat>, added: nat, retryCount: nat): seq<nat> {
    joined + seq(added, i => retryCount)
  }

  /** flush with its history. */
  function Flush(s: State, ok: bool): State {
    var w := s.writer;
    var s' := s.(writer := Flushed(w, ok));
    if Batch(w) == [] then s'
    else if ok then s'.(blocks := s.blocks + [Committed(Batch(w))], tries := [], joined := [], streak := 0)
    else
      var tries, joined := TriesAfter(s.tries, |w.buf|), JoinedAfter(s.joined, |w.buf|, w.retryCount);
      if w.retryCount < MAX_RETRIES then s'.(tries := tries, joined := joined, streak := s.streak + 1)
      else s'.(blocks := s.blocks + [Discarded(Batch(w), tries, joined)], tries := [], joined := [], streak := 0)
  }

  /** append(uw.buf, <-uw.ch) */
  function Take(s: State): State
    requires s.channel != []
  {
    s.(channel := s.channel[1..], writer := s.writer.(buf := s.writer.buf + [s.channel[0]]))
  }

  function AfterReceive(s: State, ok: bool): State
    requires s.channel != []
  {
    var t := Take(s);
    if |t.writer.buf| >= BATCH_SIZE then Flush(t, ok) else t
  }

  /** sendUsage: enqueue if there is room, else count a drop.  A send on a closed channel panics. */
  function SendUsage(s: State, e: UsageEntry): State {
    if s.closed then s
    else if |s.channel| < s.capacity then
      s.(channel := s.channel + [e], attempts := s.attempts + 1, accepted := s.accepted + [e])
    else s.(dropped := s.dropped + 1, attempts := s.attempts + 1)
  }

  /** One step; a step that is not enabled leaves the state as it is. */
  function Next(s: State, step: Step): State {
    match step
    case Send(e) => SendUsage(s, e)
    case Close => s.(closed := true)
    case Receive(ok) =>
      if s.phase != Running || s.channel == [] then s
      else AfterReceive(s, ok)
    case ReceiveClosed(ok) =>
      if s.phase != Running || s.channel != [] || !s.closed then s else Flush(s, ok).(phase := Stopped)
    case Tick(ok) =>
      if s.phase != Running || (s.writer.buf == [] && s.writer.retryBuf == []) then s else Flush(s, ok)
    case Cancel =>
      if s.phase != Running then s else s.(phase := Draining)
    case DrainOne =>
      if s.phase != Draining || s.channel == [] then s else Take(s)
    case DrainEnd(ok) =>
      if s.phase != Draining || s.channel != [] then s else Flush(s, ok).(phase := Stopped)
  }

  function Steps(s: State, steps: seq<Step>): State
    decreases |steps|
  {
    if steps == [] then s else Steps(Next(s, steps[0]), steps[1..])
  }

  function Start(capacity: nat): State {
    State([], capacity, false, Running, Writer([], [], 0), 0, 0, [], [], [], [], 0)
  }

  // ------------------------------------------------------------ the invariant

  function Settled(blocks: seq<Block>): seq<UsageEntry> {
    if blocks == [] then [] else Settled(blocks[..|blocks| - 1]) + blocks[|blocks| - 1].entries
  }

  /** Every accepted entry is in exactly one place, in the order it was accepted. */
  ghost predicate Conserved(s: State) {
    && s.accepted == Settled(s.blocks) + s.writer.retryBuf + s.writer.buf + s.channel
    && s.attempts == |s.accepted| + s.dropped
    && |s.channel| <= s.capacity
  }

  /** The retry state, whatever the phase. */
  ghost predicate RetryState(w: Writer, tries: seq<nat>, joined: seq<nat>, streak: nat) {
    && w.retryCount <= MAX_RETRIES
    && (w.retryCount == 0 <==> w.retryBuf == [])
    && streak == w.retryCount
    && |tries| == |joined| == |w.retryBuf|
    && (forall i :: 0 <= i < |tries| ==> tries[i] + joined[i] == w.retryCount && tries[i] >= 1)
    && (joined != [] ==> joined[0] == 0)
  }

  /** The sizes between two steps of the select loop. */
  ghost predicate RunningSizes(w: Writer) {
    |w.buf| < BATCH_SIZE && |w.retryBuf| <= BATCH_SIZE * w.retryCount
  }

  /** Every entry of a discarded batch failed as often as was left of the streak when it was
      first flushed; the first entry was there from the start. */
  ghost predicate FairlyDiscarded(b: Block) {
    b.Discarded? ==>
      && |b.tries| == |b.joined| == |b.entries| > 0
      && b.joined[0] == 0
      && forall i :: 0 <= i < |b.tries| ==> b.tries[i] == MAX_RETRIES + 1 - b.joined[i] && b.tries[i] >= 1
  }

  ghost predicate Inv(s: State) {
    && Conserved(s)
    && RetryState(s.writer, s.tries, s.joined, s.streak)
    && (s.phase == Running ==> RunningSizes(s.writer))
    && (s.phase == Stopped ==> s.writer.buf == [])
    && forall i :: 0 <= i < |s.blocks| ==> FairlyDiscarded(s.blocks[i])
  }

  /** The entries of the committed batches. */
  function Stored(blocks: seq<Block>): seq<UsageEntry> {
    if blocks == [] then []
    else
      var last := blocks[|blocks| - 1];
      Stored(blocks[..|blocks| - 1]) + if last.Committed? then last.entries else []
  }

  lemma StoredAppend(blocks: seq<Block>, b: Block)
    ensures Stored(blocks + [b]) == Stored(blocks) + if b.Committed? then b.entries else []
  {
    assert (blocks + [b])[..|blocks + [b]| - 1] == blocks;
  }

  /** A flush commits the whole batch or nothing of it. */
  lemma FlushStoresBatch(s: State, ok: bool)
    ensures Stored(Flush(s, ok).blocks) == Stored(s.blocks) + if ok then Batch(s.writer) else []
  {
    var s' := Flush(s, ok);
    if |s'.blocks| > |s.blocks| {
      StoredAppend(s.blocks, s'.blocks[|s.blocks|]);
      assert s'.blocks == s.blocks + [s'.blocks[|s.blocks|]];
    }
  }

  lemma SettledAppend(blocks: seq<Block>, b: Block)
    ensures Settled(blocks + [b]) == Settled(blocks) + b.entries
  {
    assert (blocks + [b])[..|blocks + [b]| - 1] == blocks;
  }

  lemma FlushKeepsConserved(s: State, ok: bool)
    requires Conserved(s)
    ensures Conserved(Flush(s, ok))
  {
    var s' := Flush(s, ok);
    Regroup(Settled(s.blocks), s.writer.retryBuf, s.writer.buf, s.channel);
    if |s'.blocks| > |s.blocks| {
      SettledAppend(s.blocks, s'.blocks[|s.blocks|]);
      assert s'.blocks == s.blocks + [s'.blocks[|s.blocks|]];
    }
  }

  lemma FlushKeepsRetryState(s: State, ok: bool)
    requires RetryState(s.writer, s.tries, s.joined, s.streak)
    ensures var s' := Flush(s, ok); RetryState(s'.writer, s'.tries, s'.joined, s'.streak)
  {
  }

  lemma FlushKeepsFairness(s: State, ok: bool)
    requires RetryState(s.writer, s.tries, s.joined, s.streak)
    requires forall i :: 0 <= i < |s.blocks| ==> FairlyDiscarded(s.blocks[i])
    ensures forall i :: 0 <= i < |Flush(s, ok).blocks| ==> FairlyDiscarded(Flush(s, ok).blocks[i])
  {
    var w := s.writer;
    var tries, joined := TriesAfter(s.tries, |w.buf|), JoinedAfter(s.joined, |w.buf|, w.retryCount);
    if Batch(w) != [] && !ok && w.retryCount == MAX_RETRIES {
      assert FairlyDiscarded(Discarded(Batch(w), tries, joined));
    }
  }

  lemma FlushKeepsInv(s: State, ok: bool)
    requires Conserved(s) && RetryState(s.writer, s.tries, s.joined, s.streak)
    requires forall i :: 0 <= i < |s.blocks| ==> FairlyDiscarded(s.blocks[i])
    requires s.phase == Running ==>
      |s.writer.buf| <= BATCH_SIZE && |s.writer.retryBuf| <= BATCH_SIZE * s.writer.retryCount
    ensures Inv(Flush(s, ok))
  {
    FlushKeepsConserved(s, ok);
    FlushKeepsRetryState(s, ok);
    FlushKeepsFairness(s, ok);
  }

  lemma TakeConserves(s: State)
    requires Conserved(s) && s.channel != []
    ensures Conserved(Take(s))
  {
    var s' := Take(s);
    assert s.channel == [s.channel[0]] + s.channel[1..];
    assert s'.accepted == Settled(s'.blocks) + s'.writer.retryBuf + s'.writer.buf + s'.channel;
  }

  lemma SendConserves(s: State, e: UsageEntry)
    requires Conserved(s)
    ensures Conserved(SendUsage(s, e))
  {
    var s' := SendUsage(s, e);
    assert s'.accepted == Settled(s'.blocks) + s'.writer.retryBuf + s'.writer.buf + s'.channel;
  }

  lemma ReceiveKeepsInv(s: State, ok: bool)
    requires Inv(s)
    ensures Inv(Next(s, Receive(ok)))
  {
    if s.phase == Running && s.channel != [] {
      var t := Take(s);
      TakeConserves(s);
      assert t.phase == Running && |t.writer.buf| <= BATCH_SIZE;
      if |t.writer.buf| >= BATCH_SIZE {
        FlushKeepsInv(t, ok);
      }
    }
  }

  lemma ClosingFlushKeepsInv(s: State, ok: bool)
    requires Inv(s)
    ensures Inv(Flush(s, ok).(phase := Stopped))
  {
    FlushKeepsInv(s, ok);
    var f := Flush(s, ok);
    var s' := f.(phase := Stopped);
    assert Conserved(f) ==> Conserved(s');
  }

  lemma DrainKeepsInv(s: State)
    requires Inv(s)
    ensures Inv(Next(s, DrainOne))
  {
    if s.phase == Draining && s.channel != [] {
      TakeConserves(s);
    }
  }

  lemma QueueKeepsInv(s: State, step: Step)
    requires Inv(s) && (step.Send? || step.Close? || step.Cancel?)
    ensures Inv(Next(s, step))
  {
    if step.Send? {
      SendConserves(s, step.entry);
    }
  }

  lemma StepKeepsInv(s: State, step: Step)
    requires Inv(s)
    ensures Inv(Next(s, step))
  {
    match step
    case Receive(ok) => ReceiveKeepsInv(s, ok);
    case ReceiveClosed(ok) => ClosingFlushKeepsInv(s, ok);
    case Tick(ok) => FlushKeepsInv(s, ok);
    case DrainOne => DrainKeepsInv(s);
    case DrainEnd(ok) => ClosingFlushKeepsInv(s, ok);
    case _ => QueueKeepsInv(s, step);
  }

  lemma {:induction false} StepsKeepInv(s: State, steps: seq<Step>)
    requires Inv(s)
    ensures Inv(Steps(s, steps))
    decreases |steps|
  {
    if steps != [] {
      StepKeepsInv(s, steps[0]);
      StepsKeepInv(Next(s, steps[0]), steps[1..]);
    }
  }

  // ---------------------------------------------------------------- the results

  /** What one step of the system never destroys. */
  ghost predicate Stable(p: State -> bool) {
    forall s, step :: p(s) ==> p(Next(s, step))
  }

  ghost predicate Reachable(s: State, capacity: nat) {
    exists steps :: s == Steps(Start(capacity), steps)
  }

  lemma ReachableInv(s: State, capacity: nat)
    requires Reachable(s, capacity)
    ensures Inv(s)
  {
    var steps :| s == Steps(Start(capacity), steps);
    StepsKeepInv(Start(capacity), steps);
  }

  /** Conservation and FIFO, in every interleaving of senders, ticks, cancellation and insert
      outcomes: the accepted entries are the settled blocks in order, then the retry buffer,
      the buffer and the channel; every send was accepted or counted as dropped. */
  lemma UsageConserved(s: State, capacity: nat)
    requires Reachable(s, capacity)
    ensures s.accepted == Settled(s.blocks) + s.writer.retryBuf + s.writer.buf + s.channel
    ensures s.attempts == |s.accepted| + s.dropped && |s.channel| <= s.capacity
    ensures s.phase == Stopped ==> s.accepted == Settled(s.blocks) + s.writer.retryBuf + s.channel
  {
    ReachableInv(s, capacity);
  }

  lemma {:induction false} SettledIsStored(blocks: seq<Block>)
    requires forall i :: 0 <= i < |blocks| ==> blocks[i].Committed?
    ensures Settled(blocks) == Stored(blocks)
  {
    if blocks != [] {
      SettledIsStored(blocks[..|blocks| - 1]);
    }
  }

  /** As long as nothing has been discarded, what is not stored yet is still in flight. */
  lemma NothingLost(s: State, capacity: nat)
    requires Reachable(s, capacity)
    requires forall i :: 0 <= i < |s.blocks| ==> s.blocks[i].Committed?
    ensures s.accepted == Stored(s.blocks) + s.writer.retryBuf + s.writer.buf + s.channel
  {
    UsageConserved(s, capacity);
    SettledIsStored(s.blocks);
  }

  lemma ChannelBounded(s: State, capacity: nat)
    requires Reachable(s, capacity)
    ensures |s.channel| <= s.capacity
  {
    ReachableInv(s, capacity);
  }

  /** A flush touches the writer and the history, nothing else. */
  lemma FlushFrame(s: State, ok: bool)
    ensures var s' := Flush(s, ok);
      && s'.writer == Flushed(s.writer, ok) && s'.channel == s.channel && s'.capacity == s.capacity
      && s'.closed == s.closed && s'.phase == s.phase && s'.dropped == s.dropped && s'.accepted == s.accepted
  {
  }

  lemma OnlySendsChangeQueueHistory(s: State, step: Step)
    requires !step.Send?
    ensures Next(s, step).dropped == s.dropped && Next(s, step).accepted == s.accepted
  {
    match step
    case Receive(ok) =>
      if s.phase == Running && s.channel != [] {
        FlushFrame(Take(s), ok);
      }
    case ReceiveClosed(ok) => FlushFrame(s, ok);
    case Tick(ok) => FlushFrame(s, ok);
    case DrainEnd(ok) => FlushFrame(s, ok);
    case _ =>
  }

  /** A step drops an entry exactly when it is a send that finds the channel full. */
  lemma DroppedOnlyWhenFull(s: State, capacity: nat, step: Step)
    requires Reachable(s, capacity)
    ensures var s' := Next(s, step);
      && (s'.dropped != s.dropped <==> step.Send? && !s.closed && |s.channel| == s.capacity)
      && s.dropped <= s'.dropped <= s.dropped + 1
      && (s'.accepted != s.accepted ==> step.Send? && s'.accepted == s.accepted + [step.entry])
  {
    ChannelBounded(s, capacity);
    if !step.Send? {
      OnlySendsChangeQueueHistory(s, step);
    }
  }

  /** The retry invariant and the sizes while the writer runs. */
  lemma RetryInvariant(s: State, capacity: nat)
    requires Reachable(s, capacity)
    ensures 0 <= s.writer.retryCount <= 3 && (s.writer.retryCount == 0 <==> s.writer.retryBuf == [])
    ensures s.phase == Running ==> |s.writer.buf| < 100 && |s.writer.retryBuf| <= 100 * s.writer.retryCount
  {
    ReachableInv(s, capacity);
  }

  /** The step runs flush. */
  predicate Flushes(s: State, step: Step) {
    match step
    case Receive(_) => s.phase == Running && s.channel != [] && |s.writer.buf| + 1 >= BATCH_SIZE
    case ReceiveClosed(_) => s.phase == Running && s.channel == [] && s.closed
    case Tick(_) => s.phase == Running && Batch(s.writer) != []
    case DrainEnd(_) => s.phase == Draining && s.channel == []
    case _ => false
  }

  /** What that flush tries to insert. */
  function Inserted(s: State, step: Step): seq<UsageEntry>
    requires Flushes(s, step)
  {
    s.writer.retryBuf + s.writer.buf + if step.Receive? then [s.channel[0]] else []
  }

  /** The step's flush has something to insert, and the insert fails. */
  predicate InsertFails(s: State, step: Step) {
    Flushes(s, step) && Inserted(s, step) != [] && !step.ok
  }

  ghost predicate Discards(s: State, s': State) {
    |s'.blocks| == |s.blocks| + 1 && s.blocks <= s'.blocks && s'.blocks[|s.blocks|].Discarded?
  }

  ghost predicate Decides(s: State, s': State, b: Block) {
    s'.blocks == s.blocks + [b]
  }

  lemma FlushDecides(s: State, ok: bool)
    requires RetryState(s.writer, s.tries, s.joined, s.streak)
    ensures var s' := Flush(s, ok);
      if Batch(s.writer) == [] then s'.blocks == s.blocks && s'.streak == s.streak
      else if ok then Decides(s, s', Committed(Batch(s.writer))) && s'.streak == 0
      else if s.streak < 3 then s'.blocks == s.blocks && s'.streak == s.streak + 1
      else s'.streak == 0 && Decides(s, s', Discarded(Batch(s.writer), TriesAfter(s.tries, |s.writer.buf|),
                                                      JoinedAfter(s.joined, |s.writer.buf|, 3)))
  {
  }

  /** A step that flushes is the flush of what it inserts; any other decides nothing. */
  lemma StepDecides(s: State, step: Step)
    requires Inv(s)
    ensures var s' := Next(s, step);
      if !Flushes(s, step) || Inserted(s, step) == [] then s'.blocks == s.blocks && s'.streak == s.streak
      else if step.ok then Decides(s, s', Committed(Inserted(s, step))) && s'.streak == 0
      else if s.streak < 3 then s'.blocks == s.blocks && s'.streak == s.streak + 1
      else s'.streak == 0 && Discards(s, s') && s'.blocks[|s.blocks|].entries == Inserted(s, step)
  {
    if Flushes(s, step) {
      var f := if step.Receive? then Take(s) else s;
      assert Batch(f.writer) == Inserted(s, step);
      FlushDecides(f, step.ok);
    }
  }

  /** A step discards entries exactly when it is the fourth insert in a row to fail, and an
      earlier failure keeps everything; the batch is all that the writer holds, 400 entries at
      most in the select loop. */
  lemma DiscardedAtFourthFailure(s: State, capacity: nat, step: Step)
    requires Reachable(s, capacity)
    ensures var s' := Next(s, step);
      && s.blocks <= s'.blocks && |s'.blocks| <= |s.blocks| + 1
      && (Discards(s, s') <==> InsertFails(s, step) && s.streak == 3)
      && (s'.streak > s.streak <==> InsertFails(s, step) && s.streak < 3)
      && (s'.streak > s.streak ==> s'.streak == s.streak + 1 && s'.blocks == s.blocks)
      && (Discards(s, s') ==> s'.streak == 0 && s'.blocks[|s.blocks|].entries == Inserted(s, step))
      && (Discards(s, s') && s.phase == Running ==> |s'.blocks[|s.blocks|].entries| <= 400)
  {
    ReachableInv(s, capacity);
    StepDecides(s, step);
  }

  /** The budget of an entry: first flushed at retry count c, it is discarded, if at all, after
      exactly 4 - c failed inserts; the oldest entry of the batch after four. */
  lemma DiscardedAfterRestOfStreak(s: State, capacity: nat, k: nat)
    requires Reachable(s, capacity)
    requires k < |s.blocks| && s.blocks[k].Discarded?
    ensures var b := s.blocks[k];
      && |b.tries| == |b.joined| == |b.entries| > 0 && b.tries[0] == 4
      && forall i :: 0 <= i < |b.entries| ==> b.tries[i] + b.joined[i] == 4 && b.tries[i] >= 1
  {
    ReachableInv(s, capacity);
  }

  /** A receive takes the oldest entry of the channel.  Before the hundredth of the buffer nothing is
      flushed; with it everything held is, retries first. */
  lemma FlushesAtHundred(s: State, capacity: nat, ok: bool)
    requires Reachable(s, capacity) && s.phase == Running && s.channel != []
    ensures var s', held := Next(s, Receive(ok)), s.writer.buf + [s.channel[0]];
      && s'.channel == s.channel[1..] && s'.phase == Running && |held| <= 100
      && (|held| < 100 ==> s'.writer == s.writer.(buf := held) && s'.blocks == s.blocks)
      && (|held| == 100 ==> s'.writer.buf == [])
      && (|held| == 100 && ok ==> s'.blocks == s.blocks + [Committed(s.writer.retryBuf + held)])
      && (|held| == 100 && !ok && s.streak < 3 ==>
            s'.writer.retryBuf == s.writer.retryBuf + held && s'.blocks == s.blocks)
      && (|held| == 100 && !ok && s.streak == 3 ==>
            Discards(s, s') && s'.blocks[|s.blocks|].entries == s.writer.retryBuf + held)
  {
    ReachableInv(s, capacity);
    StepDecides(s, Receive(ok));
    assert s.writer.retryBuf + s.writer.buf + [s.channel[0]] == s.writer.retryBuf + (s.writer.buf + [s.channel[0]]);
  }

  lemma {:induction false} StepsThen(s: State, steps: seq<Step>, step: Step)
    ensures Steps(s, steps + [step]) == Next(Steps(s, steps), step)
    decreases |steps|
  {
    if steps == [] {
      assert (steps + [step])[1..] == [];
    } else {
      AppendPeels(steps, [step]);
      StepsThen(Next(s, steps[0]), steps[1..], step);
    }
  }

  lemma NextReachable(s: State, capacity: nat, step: Step) returns (s': State)
    requires Reachable(s, capacity)
    ensures s' == Next(s, step) && Reachable(s', capacity)
  {
    var steps :| s == Steps(Start(capacity), steps);
    StepsThen(Start(capacity), steps, step);
    s' := Next(s, step);
  }

  lemma ReachableIsStable(capacity: nat)
    ensures Stable(s => Reachable(s, capacity))
  {
    forall s, step | Reachable(s, capacity)
      ensures Reachable(Next(s, step), capacity)
    {
      var _ := NextReachable(s, capacity, step);
    }
  }

  /** One entry arrives and its insert keeps failing. */
  lemma FailingEntry(capacity: nat, e: UsageEntry) returns (s: State)
    requires capacity >= 1
    ensures Reachable(s, capacity) && s.phase == Running && !s.closed && s.capacity == capacity
    ensures s.channel == [] && s.blocks == [] && s.writer == Writer([], [e], 3)
    ensures s.tries == [3] && s.joined == [0]
  {
    s := Start(capacity);
    assert s == Steps(s, []);
    s := NextReachable(s, capacity, Send(e));
    s := NextReachable(s, capacity, Receive(true));
    assert s.writer == Writer([e], [], 0) && s.channel == [];
    s := NextReachable(s, capacity, Tick(false));
    assert s.writer == Writer([], [e], 1) && s.tries == [1] && s.joined == [0];
    s := NextReachable(s, capacity, Tick(false));
    assert s.writer == Writer([], [e], 2) && s.tries == [2] && s.joined == [0];
    s := NextReachable(s, capacity, Tick(false));
  }

  /** The budget is per streak, not per entry: an entry can be discarded by the first insert
      that ever included it. */
  lemma DiscardedOnFirstTry(capacity: nat, e: UsageEntry, late: UsageEntry) returns (s: State)
    requires capacity >= 1
    ensures Reachable(s, capacity)
    ensures s.blocks == [Discarded([e, late], [4, 1], [0, 3])]
  {
    s := FailingEntry(capacity, e);
    s := NextReachable(s, capacity, Send(late));
    s := NextReachable(s, capacity, Receive(true));
    assert s.writer == Writer([late], [e], 3) && s.tries == [3] && s.blocks == [];
    assert Batch(s.writer) == [e, late] && TriesAfter([3], 1) == [4, 1] && JoinedAfter([0], 1, 3) == [0, 3];
    s := NextReachable(s, capacity, Tick(false));
  }
}
