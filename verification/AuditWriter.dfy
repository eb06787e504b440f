/** The audit writer itself, with the batch buffer that is filled, handed over and filled again. Each method is one
    arm of the select statement, and does what the step of the same name does. */
module AuditWriter {
  import opened AuditLog

  /* ---- The courses of the loop ---- */

  function Drains(n: nat): seq<Action> {
    if n == 0 then [] else [DrainOne] + Drains(n - 1)
  }

  function ExitScript(n: nat): seq<Action> {
    [BeginDrain] + Drains(n) + [EndDrain, LastFlush]
  }

  lemma DrainsOne(cfg: Config, s: State, n: nat)
    requires n > 0
    ensures Run(cfg, s, Drains(n)) == Run(cfg, Apply(cfg, s, DrainOne), Drains(n - 1))
  {
    assert Drains(n)[1..] == Drains(n - 1);
  }

  lemma {:induction false} DrainsMoveQueue(cfg: Config, s: State)
    requires s.phase.Draining?
    ensures Run(cfg, s, Drains(|s.queue|)) == s.(batch := s.batch + s.queue, queue := [])
    decreases |s.queue|
  {
    if s.queue != [] {
      DrainsOne(cfg, s, |s.queue|);
      DrainsMoveQueue(cfg, Apply(cfg, s, DrainOne));
      assert s.batch + s.queue == (s.batch + [s.queue[0]]) + s.queue[1..];
    } else {
      assert s.batch + s.queue == s.batch;
    }
  }

  lemma ScriptDrains(cfg: Config, s: State)
    requires s.phase.Selecting? && (s.stopped || s.cancelled)
    ensures Run(cfg, s, ExitScript(|s.queue|))
         == Flush(s.(phase := Exited, batch := s.batch + s.queue, queue := []), ByExit)
  {
    var s1 := Apply(cfg, s, BeginDrain);
    var s2 := Run(cfg, s1, Drains(|s.queue|));
    DrainsMoveQueue(cfg, s1);
    RunAppend(cfg, s, [BeginDrain] + Drains(|s.queue|), [EndDrain, LastFlush]);
    assert ([BeginDrain] + Drains(|s.queue|))[1..] == Drains(|s.queue|);
    assert [EndDrain, LastFlush][1..] == [LastFlush] && [LastFlush][1..] == [];
    var s3 := Apply(cfg, s2, EndDrain);
    assert Run(cfg, s3, [LastFlush]) == Apply(cfg, s3, LastFlush);
  }

  datatype Turn = Logs(e: Entry) | Stops | Cancels | Entry | Ticks | Exits

  function StepsOf(s: State, t: Turn): seq<Action> {
    match t
    case Logs(e) => [Action.Log(e)]
    case Stops => [CloseStop]
    case Cancels => [Cancel]
    case Entry => [Receive]
    case Ticks => [Tick]
    case Exits => if s.stopped || s.cancelled then ExitScript(|s.queue|) else []
  }

  // What the loop has made of its turns, up to its return
  function Served(cfg: Config, s: State, turns: seq<Turn>): State
    decreases |turns|
  {
    if turns == [] then s else
    var s' := Served(cfg, s, turns[..|turns| - 1]);
    if s'.phase.Exited? then s' else Run(cfg, s', StepsOf(s', turns[|turns| - 1]))
  }

  lemma {:induction false} StaysExited(cfg: Config, s: State, turns: seq<Turn>, n: nat)
    requires n <= |turns| && Served(cfg, s, turns[..n]).phase.Exited?
    ensures Served(cfg, s, turns) == Served(cfg, s, turns[..n])
    decreases |turns|
  {
    if n < |turns| {
      var shorter := turns[..|turns| - 1];
      assert shorter[..n] == turns[..n];
      StaysExited(cfg, s, shorter, n);
    } else {
      assert turns[..n] == turns;
    }
  }

  // The loop is one of the interleavings: what is proved of all of them holds of it.
  lemma {:induction false} ServedIsRun(cfg: Config, s: State, turns: seq<Turn>) returns (trace: seq<Action>)
    ensures Served(cfg, s, turns) == Run(cfg, s, trace)
    decreases |turns|
  {
    if turns == [] {
      trace := [];
    } else {
      trace := ServedIsRun(cfg, s, turns[..|turns| - 1]);
      var s' := Run(cfg, s, trace);
      if !s'.phase.Exited? {
        var more := StepsOf(s', turns[|turns| - 1]);
        RunAppend(cfg, s, trace, more);
        trace := trace + more;
      }
    }
  }

  // Whatever the turns, once the loop has returned every entry accepted before its exit was picked is handed over,
  // in order and once.
  lemma LoopHandsOverEverything(cfg: Config, turns: seq<Turn>, last: Turn)
    requires last.Exits? && Served(cfg, START, turns).phase.Selecting?
    ensures var s, s' := Served(cfg, START, turns), Served(cfg, START, turns + [last]);
            s.stopped || s.cancelled ==>
              s'.phase.Exited? && s'.queue == [] && s'.log == s.log && Accepted(s.log) == Flat(s'.flushed)
  {
    var s := Served(cfg, START, turns);
    assert (turns + [last])[..|turns|] == turns;
    var trace := ServedIsRun(cfg, START, turns + [last]);
    NothingLostOrReordered(cfg, trace);
    if s.stopped || s.cancelled {
      ScriptDrains(cfg, s);
    }
  }

  // Stop and a cancelled context each bring the loop to its end, with everything accepted handed over.
  lemma AskedToStopItStops(cfg: Config, acts: seq<Action>, a: Action)
    requires Run(cfg, START, acts).phase.Selecting? && (a.CloseStop? || a.Cancel?)
    ensures var s := Run(cfg, START, acts);
            var s' := Run(cfg, START, acts + [a] + ExitScript(|s.queue|));
            s'.phase.Exited? && s'.queue == [] && s'.log == s.log && Flat(s'.flushed) == Accepted(s.log)
  {
    var s := Run(cfg, START, acts);
    RunAppend(cfg, START, acts, [a]);
    RunAppend(cfg, START, acts + [a], ExitScript(|s.queue|));
    OneStep(cfg, s, a);
    ScriptDrains(cfg, Apply(cfg, s, a));
    RunKeepsInv(cfg, START, acts + [a] + ExitScript(|s.queue|));
  }

  /* ---- The loop ---- */

  class Writer {
    const cfg: Config
    var queue: seq<Entry>
    var buf: array<Entry>
    var len: nat
    var stopped: bool
    var cancelled: bool
    var phase: Phase
    ghost var handed: seq<Batch>
    ghost var log: seq<Logged>

    ghost predicate Valid()
      reads this
    {
      len <= buf.Length
    }

    ghost function View(): State
      requires Valid()
      reads this, buf
    {
      State(phase, stopped, cancelled, queue, buf[..len], handed, log)
    }

    constructor (c: Config)
      requires c.batchSize >= 0
      ensures Valid() && fresh(buf) && cfg == c && View() == START
    {
      cfg := c;
      queue, len, stopped, cancelled, phase := [], 0, false, false, Selecting;
      buf := new Entry[c.batchSize];
      handed, log := [], [];
    }

    method Log(e: Entry)
      requires Valid()
      modifies this`queue, this`log
      ensures Valid() && View() == Apply(cfg, old(View()), Action.Log(e))
    {
      var room := |queue| < cfg.capacity;
      log := log + [Logged(e, room)];
      if room { queue := queue + [e]; }
    }

    method Stop()
      requires Valid()
      modifies this`stopped
      ensures Valid() && View() == Apply(cfg, old(View()), CloseStop)
    {
      stopped := true;
    }

    // append(batch, e): in place while the buffer has room, else in a larger copy
    method Append(e: Entry)
      requires Valid()
      modifies this`buf, this`len, buf
      ensures Valid() && (buf == old(buf) || fresh(buf))
      ensures buf[..len] == old(buf[..len]) + [e]
    {
      if len == buf.Length {
        var larger := new Entry[2 * len + 1];
        forall i | 0 <= i < len { larger[i] := buf[i]; }
        assert larger[..len] == buf[..len];
        buf := larger;
      }
      buf[len] := e;
      len := len + 1;
      assert buf[..len] == buf[..len - 1] + [e];
    }

    // insertBatch gets the filled part of the buffer; batch = batch[:0] then keeps the array for the next batch.
    method FlushBatch(trigger: Trigger)
      requires Valid()
      modifies this`len, this`handed
      ensures Valid() && View() == Flush(old(View()), trigger)
    {
      if len == 0 { return; }
      handed := handed + [Batch(trigger, buf[..len])];
      len := 0;
    }

    method OnEntry()
      requires Valid() && phase.Selecting? && queue != []
      modifies this`queue, this`buf, this`len, this`handed, buf
      ensures Valid() && (buf == old(buf) || fresh(buf))
      ensures View() == Apply(cfg, old(View()), Receive)
    {
      var e := queue[0];
      queue := queue[1..];
      Append(e);
      if len >= cfg.batchSize { FlushBatch(BySize); }
    }

    method OnTick()
      requires Valid() && phase.Selecting?
      modifies this`len, this`handed
      ensures Valid() && View() == Apply(cfg, old(View()), Tick)
    {
      FlushBatch(ByTick);
    }

    // The exit arms: drain, flush, return. With no producer in between, the rest goes out as one batch.
    method OnExit()
      requires Valid() && phase.Selecting? && (stopped || cancelled)
      modifies this`queue, this`buf, this`len, this`handed, this`phase, buf
      ensures Valid() && (buf == old(buf) || fresh(buf))
      ensures phase.Exited? && queue == [] && len == 0
      ensures log == old(log)
      ensures var rest := old(buf[..len]) + old(queue);
              handed == if rest == [] then old(handed) else old(handed) + [Batch(ByExit, rest)]
      ensures View() == Run(cfg, old(View()), ExitScript(|old(queue)|))
    {
      ghost var start := View();
      phase := Draining;
      ghost var drained := 0;
      while queue != []
        invariant Valid() && (buf == old(buf) || fresh(buf))
        invariant 0 <= drained <= |old(queue)| && queue == old(queue)[drained..]
        invariant phase.Draining? && handed == old(handed) && log == old(log)
        invariant stopped == old(stopped) && cancelled == old(cancelled)
        invariant buf[..len] == old(buf[..len]) + old(queue)[..drained]
        decreases |queue|
      {
        var e := queue[0];
        queue := queue[1..];
        Append(e);
        drained := drained + 1;
      }
      assert old(queue)[..drained] == old(queue);
      ScriptDrains(cfg, start);
      FlushBatch(ByExit);
      phase := Exited;
    }

    method TakeTurn(turn: Turn)
      requires Valid() && phase.Selecting?
      modifies this, buf
      ensures Valid() && (buf == old(buf) || fresh(buf))
      ensures phase.Selecting? || phase.Exited?
      ensures View() == Run(cfg, old(View()), StepsOf(old(View()), turn))
    {
      ghost var steps := StepsOf(View(), turn);
      if |steps| == 1 { OneStep(cfg, View(), steps[0]); }
      match turn
      case Logs(e) => Log(e);
      case Stops => Stop();
      case Cancels => cancelled := true;
      case Entry => if queue != [] { OnEntry(); }
      case Ticks => OnTick();
      case Exits => if stopped || cancelled { OnExit(); }
    }

    // The select loop. `turns` is what happens, in order: which producer calls Log, when the consumer runs and which
    // of its cases select picks; a case that is not ready is not picked.
    method Consume(turns: seq<Turn>)
      requires Valid() && phase.Selecting?
      modifies this, buf
      ensures Valid() && (buf == old(buf) || fresh(buf))
      ensures View() == Served(cfg, old(View()), turns)
    {
      for n := 0 to |turns|
        invariant Valid() && phase.Selecting? && (buf == old(buf) || fresh(buf))
        invariant View() == Served(cfg, old(View()), turns[..n])
      {
        TakeTurn(turns[n]);
        assert turns[..n + 1][..n] == turns[..n];
        if phase.Exited? {
          StaysExited(cfg, old(View()), turns, n + 1);
          return;
        }
      }
      assert turns[..|turns|] == turns;
    }
  }
}
