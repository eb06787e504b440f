/** The audit writer: producers push entries onto a bounded queue without blocking, one consumer collects them in a
    reused batch buffer and hands the buffer over when it is full, on every tick, and on exit after a drain. */
module AuditLog {
  datatype Entry = Entry(
    actorID: string, actorIP: string, actorUserAgent: string, action: string, targetResource: string,
    targetApp: string, beforeState: string, afterState: string, status: string, traceID: string, timestamp: int)

  /* ---- The multi-row insert ---- */

  datatype Arg = Null | Text(text: string) | Time(at: int)

  const COLS := 11

  function Nullable(s: string): Arg {
    if s == "" then Null else Text(s)
  }

  function Columns(e: Entry): (row: seq<Arg>)
    ensures |row| == COLS
  {
    [Nullable(e.actorID), Nullable(e.actorIP), Nullable(e.actorUserAgent), Text(e.action),
     Nullable(e.targetResource), Nullable(e.targetApp), Nullable(e.beforeState), Nullable(e.afterState),
     Text(e.status), Nullable(e.traceID), Time(e.timestamp)]
  }

  // The column list of the statement
  const COLUMN_NAMES: seq<string> := [
    "actor_id", "actor_ip", "actor_user_agent", "action", "target_resource", "target_app", "before_state",
    "after_state", "status", "trace_id", "timestamp"]

  // A column that takes NULL exactly for an empty value
  predicate MaybeText(a: Arg, s: string) {
    if s == "" then a == Null else a == Text(s)
  }

  // What belongs into a column, by its name
  predicate Belongs(name: string, a: Arg, e: Entry) {
    && (name == "actor_id" ==> MaybeText(a, e.actorID))
    && (name == "actor_ip" ==> MaybeText(a, e.actorIP))
    && (name == "actor_user_agent" ==> MaybeText(a, e.actorUserAgent))
    && (name == "action" ==> a == Text(e.action))
    && (name == "target_resource" ==> MaybeText(a, e.targetResource))
    && (name == "target_app" ==> MaybeText(a, e.targetApp))
    && (name == "before_state" ==> MaybeText(a, e.beforeState))
    && (name == "after_state" ==> MaybeText(a, e.afterState))
    && (name == "status" ==> a == Text(e.status))
    && (name == "trace_id" ==> MaybeText(a, e.traceID))
    && (name == "timestamp" ==> a == Time(e.timestamp))
  }

  // Reading a stored row back, column by column
  function Read(a: Arg): string {
    match a
    case Text(text) => text
    case _ => ""
  }

  function ReadRow(row: seq<Arg>): Entry
    requires |row| == COLS
  {
    Entry(
      actorID := Read(row[0]), actorIP := Read(row[1]), actorUserAgent := Read(row[2]), action := Read(row[3]),
      targetResource := Read(row[4]), targetApp := Read(row[5]), beforeState := Read(row[6]),
      afterState := Read(row[7]), status := Read(row[8]), traceID := Read(row[9]),
      timestamp := if row[10].Time? then row[10].at else 0)
  }

  lemma ColumnsBelong(e: Entry, j: nat)
    requires j < COLS
    ensures |COLUMN_NAMES| == COLS && Belongs(COLUMN_NAMES[j], Columns(e)[j], e)
  {
    var name := COLUMN_NAMES[j];
    if j == 0 { assert name == "actor_id"; }
    else if j == 1 { assert name == "actor_ip"; }
    else if j == 2 { assert name == "actor_user_agent"; }
    else if j == 3 { assert name == "action"; }
    else if j == 4 { assert name == "target_resource"; }
    else if j == 5 { assert name == "target_app"; }
    else if j == 6 { assert name == "before_state"; }
    else if j == 7 { assert name == "after_state"; }
    else if j == 8 { assert name == "status"; }
    else if j == 9 { assert name == "trace_id"; }
    else { assert name == "timestamp"; }
  }

  lemma ReadColumns(e: Entry)
    ensures ReadRow(Columns(e)) == e
  {
  }

  predicate Numbered(placeholders: seq<nat>, i: nat) {
    |placeholders| == 11 && forall j :: 0 <= j < 11 ==> placeholders[j] == 11 * i + j + 1
  }

  // Column j of entry i is argument 11i + j, counted from 0, and its placeholder has number 11i + j + 1.
  predicate LaidOut(placeholders: seq<seq<nat>>, args: seq<Arg>, entries: seq<Entry>, i: nat)
    requires i < |placeholders| && i < |entries| && COLS * (i + 1) <= |args|
  {
    Numbered(placeholders[i], i) && args[COLS * i..COLS * (i + 1)] == Columns(entries[i])
  }

  // The eleven arguments of entry i are its fields in the order of the column list, and say all of it.
  ghost predicate RowSays(args: seq<Arg>, entries: seq<Entry>, i: nat)
    requires i < |entries| && 11 * (i + 1) <= |args|
  {
    && (forall j :: 0 <= j < 11 ==> Belongs(COLUMN_NAMES[j], args[11 * i + j], entries[i]))
    && ReadRow(args[11 * i..11 * (i + 1)]) == entries[i]
  }

  lemma LaidOutSays(placeholders: seq<seq<nat>>, args: seq<Arg>, entries: seq<Entry>, i: nat)
    requires i < |placeholders| && i < |entries| && COLS * (i + 1) <= |args|
    requires LaidOut(placeholders, args, entries, i)
    ensures RowSays(args, entries, i)
  {
    ReadColumns(entries[i]);
    forall j | 0 <= j < 11 ensures Belongs(COLUMN_NAMES[j], args[11 * i + j], entries[i]) {
      ColumnsBelong(entries[i], j);
      assert args[11 * i + j] == args[COLS * i..COLS * (i + 1)][j];
    }
  }

  method BuildInsert(entries: seq<Entry>) returns (placeholders: seq<seq<nat>>, args: seq<Arg>)
    ensures |placeholders| == |entries| && |args| == 11 * |entries|
    ensures forall i :: 0 <= i < |entries| ==> Numbered(placeholders[i], i)
    ensures forall i :: 0 <= i < |entries| ==> RowSays(args, entries, i)
  {
    placeholders, args := [], [];
    for i := 0 to |entries|
      invariant |placeholders| == i && |args| == COLS * i
      invariant forall k :: 0 <= k < i ==> LaidOut(placeholders, args, entries, k)
    {
      var base: nat := i * COLS;
      var ph: seq<nat> := [];
      for j := 0 to COLS
        invariant |ph| == j && forall m :: 0 <= m < j ==> ph[m] == base + m + 1
      {
        ph := ph + [base + j + 1];
      }
      ghost var before, beforeArgs := placeholders, args;
      placeholders := placeholders + [ph];
      args := args + Columns(entries[i]);
      assert args[COLS * i..COLS * (i + 1)] == Columns(entries[i]);
      forall k | 0 <= k <= i ensures LaidOut(placeholders, args, entries, k) {
        if k < i {
          assert LaidOut(before, beforeArgs, entries, k);
          assert args[COLS * k..COLS * (k + 1)] == beforeArgs[COLS * k..COLS * (k + 1)];
        }
      }
    }
    forall i | 0 <= i < |entries| ensures Numbered(placeholders[i], i) && RowSays(args, entries, i) {
      assert LaidOut(placeholders, args, entries, i);
      LaidOutSays(placeholders, args, entries, i);
    }
  }

  /* ---- Producers and the consumer, step by step ---- */

  // The consumer selects; after a stop signal or a cancelled context it drains, hands over the rest and exits.
  datatype Phase = Selecting | Draining | Closing | Exited

  datatype Trigger = BySize | ByTick | ByExit

  datatype Batch = Batch(trigger: Trigger, entries: seq<Entry>)

  datatype Logged = Logged(entry: Entry, kept: bool)

  datatype Config = Config(capacity: nat, batchSize: int) {
    // A batch is full from its first entry on if the configured size is not positive.
    function Limit(): nat {
      if batchSize >= 1 then batchSize else 1
    }
  }

  datatype State = State(
    phase: Phase,
    stopped: bool,
    cancelled: bool,
    queue: seq<Entry>,
    batch: seq<Entry>,
    flushed: seq<Batch>,  // handed to insertBatch, in order
    log: seq<Logged>)     // every call of Log, in order

  datatype Action =
    | Log(entry: Entry) | Receive | Tick | CloseStop | Cancel | BeginDrain | DrainOne | EndDrain | LastFlush

  function Flush(s: State, trigger: Trigger): State {
    if s.batch == [] then s else s.(flushed := s.flushed + [Batch(trigger, s.batch)], batch := [])
  }

  function Collect(cfg: Config, s: State): State
    requires s.queue != []
  {
    var s' := s.(batch := s.batch + [s.queue[0]], queue := s.queue[1..]);
    if |s'.batch| >= cfg.batchSize then Flush(s', BySize) else s'
  }

  function Apply(cfg: Config, s: State, a: Action): State {
    match a
    case Log(e) =>
      var kept := |s.queue| < cfg.capacity;
      s.(log := s.log + [Logged(e, kept)], queue := if kept then s.queue + [e] else s.queue)
    case Receive => if s.phase.Selecting? && s.queue != [] then Collect(cfg, s) else s
    case Tick => if s.phase.Selecting? then Flush(s, ByTick) else s
    case CloseStop => s.(stopped := true)
    case Cancel => s.(cancelled := true)
    case BeginDrain => if s.phase.Selecting? && (s.stopped || s.cancelled) then s.(phase := Draining) else s
    case DrainOne =>
      if s.phase.Draining? && s.queue != []
      then s.(batch := s.batch + [s.queue[0]], queue := s.queue[1..]) else s
    case EndDrain => if s.phase.Draining? && s.queue == [] then s.(phase := Closing) else s
    case LastFlush => if s.phase.Closing? then Flush(s, ByExit).(phase := Exited) else s
  }

  function Run(cfg: Config, s: State, acts: seq<Action>): State
    decreases |acts|
  {
    if acts == [] then s else Run(cfg, Apply(cfg, s, acts[0]), acts[1..])
  }

  const START := State(Selecting, false, false, [], [], [], [])

  /* ---- Conservation and order ---- */

  function Accepted(log: seq<Logged>): seq<Entry> {
    if log == [] then [] else
    var last := log[|log| - 1];
    Accepted(log[..|log| - 1]) + if last.kept then [last.entry] else []
  }

  function Flat(batches: seq<Batch>): seq<Entry> {
    if batches == [] then [] else Flat(batches[..|batches| - 1]) + batches[|batches| - 1].entries
  }

  // The accepted entries, in order, are the batches handed over, then the current batch, then the queue.
  ghost predicate Conserved(s: State) {
    Accepted(s.log) == Flat(s.flushed) + s.batch + s.queue
  }

  ghost predicate WellSized(cfg: Config, b: Batch) {
    match b.trigger
    case BySize => |b.entries| == cfg.Limit()
    case ByTick => 0 < |b.entries| < cfg.Limit()
    case ByExit => 0 < |b.entries|
  }

  ghost predicate Sized(cfg: Config, s: State) {
    && |s.queue| <= cfg.capacity
    && (s.phase.Selecting? ==> |s.batch| < cfg.Limit())
    && (s.phase.Exited? ==> s.batch == [])
    && forall i :: 0 <= i < |s.flushed| ==> WellSized(cfg, s.flushed[i])
  }

  ghost predicate Inv(cfg: Config, s: State) {
    Conserved(s) && Sized(cfg, s)
  }

  lemma FlushConserves(s: State, trigger: Trigger)
    requires Conserved(s)
    ensures Conserved(Flush(s, trigger))
  {
  }

  lemma MoveConserves(s: State)
    requires Conserved(s) && s.queue != []
    ensures Conserved(s.(batch := s.batch + [s.queue[0]], queue := s.queue[1..]))
  {
  }

  lemma LogConserves(cfg: Config, s: State, e: Entry)
    requires Conserved(s)
    ensures Conserved(Apply(cfg, s, Log(e)))
    ensures Accepted(s.log) <= Accepted(Apply(cfg, s, Log(e)).log)
  {
  }

  lemma CollectConserves(cfg: Config, s: State)
    requires Conserved(s) && s.queue != []
    ensures Conserved(Collect(cfg, s))
  {
    MoveConserves(s);
    FlushConserves(s.(batch := s.batch + [s.queue[0]], queue := s.queue[1..]), BySize);
  }

  lemma StepConserves(cfg: Config, s: State, a: Action)
    requires Conserved(s)
    ensures Conserved(Apply(cfg, s, a))
    ensures Accepted(s.log) <= Accepted(Apply(cfg, s, a).log)
  {
    match a
    case Log(e) => LogConserves(cfg, s, e);
    case Receive => if s.phase.Selecting? && s.queue != [] { CollectConserves(cfg, s); }
    case Tick => FlushConserves(s, ByTick);
    case DrainOne => if s.queue != [] { MoveConserves(s); }
    case LastFlush => FlushConserves(s, ByExit);
    case _ =>
  }

  lemma StepKeepsSizes(cfg: Config, s: State, a: Action)
    requires Sized(cfg, s)
    ensures Sized(cfg, Apply(cfg, s, a))
  {
  }

  lemma StepKeepsInv(cfg: Config, s: State, a: Action)
    requires Inv(cfg, s)
    ensures Inv(cfg, Apply(cfg, s, a))
    ensures Accepted(s.log) <= Accepted(Apply(cfg, s, a).log)
  {
    StepConserves(cfg, s, a);
    StepKeepsSizes(cfg, s, a);
  }

  lemma {:induction false} RunKeepsInv(cfg: Config, s: State, acts: seq<Action>)
    requires Inv(cfg, s)
    ensures Inv(cfg, Run(cfg, s, acts))
    decreases |acts|
  {
    if acts != [] {
      StepKeepsInv(cfg, s, acts[0]);
      RunKeepsInv(cfg, Apply(cfg, s, acts[0]), acts[1..]);
    }
  }

  // Every interleaving of producers and the consumer loses, duplicates and reorders nothing it accepted, every
  // size-triggered batch is exactly full, and every tick-triggered one is not.
  lemma NothingLostOrReordered(cfg: Config, acts: seq<Action>)
    ensures var s := Run(cfg, START, acts);
            && Accepted(s.log) == Flat(s.flushed) + s.batch + s.queue
            && |s.queue| <= cfg.capacity
            && forall i :: 0 <= i < |s.flushed| ==>
                 var b, full := s.flushed[i], if cfg.batchSize >= 1 then cfg.batchSize else 1;
                 && b.entries != []
                 && (b.trigger.BySize? ==> |b.entries| == full) && (b.trigger.ByTick? ==> |b.entries| < full)
  {
    RunKeepsInv(cfg, START, acts);
  }

  lemma {:induction false} RunAppend(cfg: Config, s: State, first: seq<Action>, rest: seq<Action>)
    ensures Run(cfg, s, first + rest) == Run(cfg, Run(cfg, s, first), rest)
    decreases |first|
  {
    if first == [] {
      assert first + rest == rest;
    } else {
      assert (first + rest)[1..] == first[1..] + rest;
      RunAppend(cfg, Apply(cfg, s, first[0]), first[1..], rest);
    }
  }

  // The entries of all calls of Log, in order
  function Calls(acts: seq<Action>): seq<Entry> {
    if acts == [] then [] else (if acts[0].Log? then [acts[0].entry] else []) + Calls(acts[1..])
  }

  function Entries(log: seq<Logged>): seq<Entry> {
    if log == [] then [] else Entries(log[..|log| - 1]) + [log[|log| - 1].entry]
  }

  lemma StepRecords(cfg: Config, s: State, a: Action)
    ensures var log := Apply(cfg, s, a).log;
            s.log <= log && Entries(log) == Entries(s.log) + if a.Log? then [a.entry] else []
  {
    if a.Log? {
      var log := Apply(cfg, s, a).log;
      assert log[..|log| - 1] == s.log;
    } else {
      assert Entries(s.log) + [] == Entries(s.log);
    }
  }

  lemma {:induction false} LogGrows(cfg: Config, s: State, acts: seq<Action>)
    ensures s.log <= Run(cfg, s, acts).log
    decreases |acts|
  {
    if acts != [] {
      StepRecords(cfg, s, acts[0]);
      LogGrows(cfg, Apply(cfg, s, acts[0]), acts[1..]);
    }
  }

  lemma Regroup<T>(a: seq<T>, b: seq<T>, c: seq<T>)
    ensures a + b + c == a + (b + c)
  {
  }

  lemma {:induction false} CallsAreRecorded(cfg: Config, s: State, acts: seq<Action>)
    ensures Entries(Run(cfg, s, acts).log) == Entries(s.log) + Calls(acts)
    decreases |acts|
  {
    if acts == [] {
      assert Entries(s.log) + [] == Entries(s.log);
    } else {
      StepRecords(cfg, s, acts[0]);
      CallsAreRecorded(cfg, Apply(cfg, s, acts[0]), acts[1..]);
      Regroup(Entries(s.log), if acts[0].Log? then [acts[0].entry] else [], Calls(acts[1..]));
    }
  }

  // The k-th step of the run is a call, and this is its record.
  predicate RecordedAt(cfg: Config, acts: seq<Action>, k: nat)
    requires k < |acts| && acts[k].Log?
  {
    var before, log := Run(cfg, START, acts[..k]), Run(cfg, START, acts).log;
    |before.log| < |log| && log[|before.log|] == Logged(acts[k].entry, |before.queue| != cfg.capacity)
  }

  lemma RunThrough(cfg: Config, acts: seq<Action>, k: nat)
    requires k < |acts|
    ensures Run(cfg, START, acts) == Run(cfg, Apply(cfg, Run(cfg, START, acts[..k]), acts[k]), acts[k + 1..])
  {
    RunAppend(cfg, START, acts[..k], acts[k..]);
    assert acts == acts[..k] + acts[k..] && acts[k..][1..] == acts[k + 1..];
  }

  lemma CallIsRecorded(cfg: Config, acts: seq<Action>, k: nat)
    requires k < |acts| && acts[k].Log?
    ensures RecordedAt(cfg, acts, k)
  {
    RunKeepsInv(cfg, START, acts[..k]);
    RunThrough(cfg, acts, k);
    LogGrows(cfg, Apply(cfg, Run(cfg, START, acts[..k]), acts[k]), acts[k + 1..]);
  }

  lemma CallsInOrder(cfg: Config, acts: seq<Action>)
    ensures Entries(Run(cfg, START, acts).log) == Calls(acts)
  {
    CallsAreRecorded(cfg, START, acts);
    assert [] + Calls(acts) == Calls(acts);
  }

  lemma EveryCallRecorded(cfg: Config, acts: seq<Action>)
    ensures forall k :: 0 <= k < |acts| && acts[k].Log? ==> RecordedAt(cfg, acts, k)
  {
    forall k | 0 <= k < |acts| && acts[k].Log? ensures RecordedAt(cfg, acts, k) {
      CallIsRecorded(cfg, acts, k);
    }
  }

  // In every run each call of Log leaves one record, in order, and its entry was dropped exactly when the queue was
  // full at the call.
  lemma DroppedOnlyWhenFull(cfg: Config, acts: seq<Action>)
    ensures Entries(Run(cfg, START, acts).log) == Calls(acts)
    ensures forall k :: 0 <= k < |acts| && acts[k].Log? ==> RecordedAt(cfg, acts, k)
  {
    CallsInOrder(cfg, acts);
    EveryCallRecorded(cfg, acts);
  }

  /* ---- Progress ---- */

  // While the consumer selects, receiving takes the oldest entry out of the queue and hands the batch over exactly
  // when that fills it; a tick hands over whatever there is.
  lemma SelectingMakesProgress(cfg: Config, s: State)
    requires s.phase.Selecting?
    ensures var s' := Apply(cfg, s, Tick);
            s'.batch == [] && s'.queue == s.queue
            && s'.flushed == if s.batch == [] then s.flushed else s.flushed + [Batch(ByTick, s.batch)]
    ensures s.queue != [] ==>
              var s', batch := Apply(cfg, s, Receive), s.batch + [s.queue[0]];
              && s'.queue == s.queue[1..]
              && if |batch| >= cfg.batchSize then s'.batch == [] && s'.flushed == s.flushed + [Batch(BySize, batch)]
                 else s'.batch == batch && s'.flushed == s.flushed
  {
  }

  function Receives(n: nat): seq<Action> {
    if n == 0 then [] else [Receive] + Receives(n - 1)
  }

  lemma {:induction false} ReceivesEmptyQueue(cfg: Config, s: State)
    requires s.phase.Selecting?
    ensures var s' := Run(cfg, s, Receives(|s.queue|)); s'.phase.Selecting? && s'.queue == [] && s'.log == s.log
    decreases |s.queue|
  {
    if s.queue != [] {
      assert Receives(|s.queue|)[1..] == Receives(|s.queue| - 1);
      ReceivesEmptyQueue(cfg, Apply(cfg, s, Receive));
    }
  }

  // From whatever a run has come to without the loop having ended, as many receipts as the queue is long and one tick
  // hand over everything accepted, without any shutdown.
  lemma EverythingGetsOut(cfg: Config, acts: seq<Action>)
    requires Run(cfg, START, acts).phase.Selecting?
    ensures var s := Run(cfg, START, acts);
            var s' := Run(cfg, START, acts + Receives(|s.queue|) + [Tick]);
            s'.log == s.log && Flat(s'.flushed) == Accepted(s.log) && s'.batch == [] && s'.queue == []
  {
    var s := Run(cfg, START, acts);
    RunAppend(cfg, START, acts, Receives(|s.queue|));
    RunAppend(cfg, START, acts + Receives(|s.queue|), [Tick]);
    ReceivesEmptyQueue(cfg, s);
    var s1 := Run(cfg, s, Receives(|s.queue|));
    SelectingMakesProgress(cfg, s1);
    assert [Tick][1..] == [];
    assert Run(cfg, s1, [Tick]) == Apply(cfg, s1, Tick);
    RunKeepsInv(cfg, START, acts + Receives(|s.queue|) + [Tick]);
  }

  /* ---- Shutdown ---- */

  predicate DrainIsOver(s: State) {
    s.phase.Closing? || s.phase.Exited?
  }

  function HandedOver(s: State): seq<Entry> {
    Flat(s.flushed) + s.batch
  }

  lemma StepAfterDrain(cfg: Config, s: State, a: Action)
    requires DrainIsOver(s)
    ensures var s' := Apply(cfg, s, a); DrainIsOver(s') && HandedOver(s') == HandedOver(s)
  {
  }

  lemma {:induction false} AfterDrain(cfg: Config, s: State, acts: seq<Action>)
    requires DrainIsOver(s)
    ensures var s' := Run(cfg, s, acts); DrainIsOver(s') && HandedOver(s') == HandedOver(s)
    decreases |acts|
  {
    if acts != [] {
      StepAfterDrain(cfg, s, acts[0]);
      AfterDrain(cfg, Apply(cfg, s, acts[0]), acts[1..]);
    }
  }

  // The drain ends with an empty queue.
  lemma DrainEndsEmpty(cfg: Config, s: State, a: Action)
    requires Conserved(s) && !DrainIsOver(s) && DrainIsOver(Apply(cfg, s, a))
    ensures HandedOver(Apply(cfg, s, a)) == Accepted(Apply(cfg, s, a).log)
  {
    assert a.EndDrain? && s.queue == [];
  }

  lemma {:induction false} DrainTakesAll(cfg: Config, s: State, acts: seq<Action>, before: seq<Entry>)
    requires Conserved(s) && !DrainIsOver(s) && before <= Accepted(s.log)
    requires Run(cfg, s, acts).phase.Exited?
    ensures before <= HandedOver(Run(cfg, s, acts))
    decreases |acts|
  {
    if acts != [] {
      var s' := Apply(cfg, s, acts[0]);
      StepConserves(cfg, s, acts[0]);
      if DrainIsOver(s') {
        DrainEndsEmpty(cfg, s, acts[0]);
        AfterDrain(cfg, s', acts[1..]);
      } else {
        DrainTakesAll(cfg, s', acts[1..], before);
      }
    }
  }

  // Stop closes the stop channel and returns once the consumer has exited. Everything accepted before the call has
  // been handed over by then, in order and once, exactly when the consumer had not finished draining already (which
  // only a cancelled context can bring about) or nothing was queued.
  lemma StopFlushesIff(cfg: Config, earlier: seq<Action>, later: seq<Action>)
    requires Run(cfg, START, earlier + [CloseStop] + later).phase.Exited?
    ensures var s, s' := Run(cfg, START, earlier), Run(cfg, START, earlier + [CloseStop] + later);
            Accepted(s.log) <= Flat(s'.flushed) <==> !DrainIsOver(s) || s.queue == []
  {
    var s := Run(cfg, START, earlier);
    RunKeepsInv(cfg, START, earlier);
    RunAppend(cfg, START, earlier + [CloseStop], later);
    RunAppend(cfg, START, earlier, [CloseStop]);
    assert [CloseStop][1..] == [];
    var s1 := Apply(cfg, s, CloseStop);
    assert Run(cfg, s, [CloseStop]) == s1;
    var s' := Run(cfg, s1, later);
    RunKeepsInv(cfg, s1, later);
    assert HandedOver(s') == Flat(s'.flushed);
    if DrainIsOver(s) {
      AfterDrain(cfg, s1, later);
      assert Accepted(s.log) == HandedOver(s) + s.queue;
    } else {
      DrainTakesAll(cfg, s1, later, Accepted(s.log));
    }
  }

  lemma OneStep(cfg: Config, s: State, a: Action)
    ensures Run(cfg, s, [a]) == Apply(cfg, s, a)
  {
    assert [a][1..] == [];
  }

  // The context is cancelled, and the consumer finds nothing to drain.
  const CANCELLED: seq<Action> := [Cancel, BeginDrain, EndDrain]

  lemma DrainsAtOnce(cfg: Config)
    ensures Run(cfg, START, CANCELLED) == START.(phase := Closing, cancelled := true)
  {
    var acts := [Cancel, BeginDrain, EndDrain];
    assert acts[1..][1..] == [EndDrain] && [EndDrain][1..] == [];
    var s := START.(cancelled := true, phase := Draining);
    assert Run(cfg, s, [EndDrain]) == Apply(cfg, s, EndDrain);
    assert Run(cfg, START.(cancelled := true), acts[1..]) == Run(cfg, s, [EndDrain]);
  }

  function Late(e: Entry): State {
    START.(phase := Closing, cancelled := true, queue := [e], log := [Logged(e, true)])
  }

  lemma LateArrives(cfg: Config, e: Entry)
    requires cfg.capacity > 0
    ensures Run(cfg, START, CANCELLED + [Log(e)]) == Late(e) && Accepted(Late(e).log) == [e]
  {
    DrainsAtOnce(cfg);
    RunAppend(cfg, START, CANCELLED, [Log(e)]);
    OneStep(cfg, START.(phase := Closing, cancelled := true), Log(e));
    assert Late(e).log[..0] == [];
  }

  // The exception is real: after a cancelled context has ended the drain, an entry is accepted and never handed over.
  lemma LateEntryIsMissed(cfg: Config, e: Entry)
    requires cfg.capacity > 0
    ensures var earlier := CANCELLED + [Log(e)];
            var s, s' := Run(cfg, START, earlier), Run(cfg, START, earlier + [CloseStop] + [LastFlush]);
            Accepted(s.log) == [e] && s'.phase.Exited? && s'.queue == [e] && Flat(s'.flushed) == []
  {
    LateArrives(cfg, e);
    var earlier := CANCELLED + [Log(e)];
    RunAppend(cfg, START, earlier, [CloseStop]);
    OneStep(cfg, Late(e), CloseStop);
    RunAppend(cfg, START, earlier + [CloseStop], [LastFlush]);
    OneStep(cfg, Apply(cfg, Late(e), CloseStop), LastFlush);
  }

  // Only a cancelled context ends the drain before Stop is called.
  lemma {:induction false} NoStopNoCancelNoDrain(cfg: Config, s: State, acts: seq<Action>)
    requires s.phase.Selecting? && !s.stopped && !s.cancelled
    requires CloseStop !in acts && Cancel !in acts
    ensures var s' := Run(cfg, s, acts); s'.phase.Selecting? && !s'.stopped && !s'.cancelled
    decreases |acts|
  {
    if acts != [] {
      assert acts[0] in acts;
      NoStopNoCancelNoDrain(cfg, Apply(cfg, s, acts[0]), acts[1..]);
    }
  }

  // The program cancels the context only after Stop has returned. Then Stop hands over everything accepted before it.
  lemma StopBeforeCancelFlushesAll(cfg: Config, earlier: seq<Action>, later: seq<Action>)
    requires Cancel !in earlier && CloseStop !in earlier
    requires Run(cfg, START, earlier + [CloseStop] + later).phase.Exited?
    ensures Accepted(Run(cfg, START, earlier).log) <= Flat(Run(cfg, START, earlier + [CloseStop] + later).flushed)
  {
    NoStopNoCancelNoDrain(cfg, START, earlier);
    StopFlushesIff(cfg, earlier, later);
  }
}
