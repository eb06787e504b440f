/** The leader lease: one row per background job, claimed and renewed by three separate SQL statements
    that any number of instances interleave.

    The statements are functions on the lease table. `Lease.TryAcquire` runs the three of them back to back.
    `Apply` runs them one at a time, as steps of a system of processes that read their clock once, stall,
    crash, and see a statement succeed, be refused, or be executed with its answer lost. */
module LeaderLease {
  type Holder = string
  type Job = string

  datatype Row = Row(holder: Holder, expires: int)

  type Table = map<Job, Row>

  predicate Holds(table: Table, job: Job, holder: Holder) {
    job in table && table[job].holder == holder
  }

  // DELETE ... WHERE job_name = job AND expires_at < now
  function DeleteExpired(table: Table, job: Job, now: int): Table {
    if job in table && table[job].expires < now then table - {job} else table
  }

  // INSERT ...; the primary key on job_name refuses a second row
  function InsertRow(table: Table, job: Job, holder: Holder, expires: int): Table {
    if job in table then table else table[job := Row(holder, expires)]
  }

  // UPDATE ... WHERE job_name = job AND holder_id = holder
  function Renew(table: Table, job: Job, holder: Holder, expires: int): Table {
    if Holds(table, job, holder) then table[job := Row(holder, expires)] else table
  }

  class LeaseTable {
    var rows: Table

    constructor ()
      ensures rows == map[]
    {
      rows := map[];
    }
  }

  class Lease {
    const db: LeaseTable
    const holderID: Holder

    constructor (database: LeaseTable, id: Holder)
      ensures db == database && holderID == id
    {
      db, holderID := database, id;
    }

    // One undisturbed call: it makes this process the leader unless another process holds a row that has not
    // expired, and then it leaves everything as it was.
    method TryAcquire(job: Job, duration: int, now: int) returns (leader: bool)
      modifies db
      ensures leader <==>
                || job !in old(db.rows)
                || old(db.rows)[job].holder == holderID
                || old(db.rows)[job].expires < now
      ensures db.rows == if leader then old(db.rows)[job := Row(holderID, now + duration)] else old(db.rows)
    {
      var expiresAt := now + duration;
      db.rows := DeleteExpired(db.rows, job, now);
      db.rows := InsertRow(db.rows, job, holderID, expiresAt);
      var matched := Holds(db.rows, job, holderID);
      db.rows := Renew(db.rows, job, holderID, expiresAt);
      leader := matched;
    }
  }

  /* ---- The system of processes ---- */

  // The calls of one process for one job are made one after another.
  datatype Slot = Slot(holder: Holder, job: Job)

  datatype Phase = Deleting | Inserting | Updating

  datatype Call = Call(phase: Phase, now: int)

  // What became of a statement: executed and reported, executed with its report lost, or not executed.
  datatype Outcome = Done | Lost | Refused

  datatype Answer = Answer(slot: Slot, at: int, expires: int, leader: bool, failed: bool)

  // Every process clock stays within `skew` of the true clock; `steady` says that no process clock runs backwards.
  datatype Config = Config(duration: Slot -> int, skew: nat, steady: bool)

  datatype State = State(
    clock: int,
    table: Table,
    calls: map<Slot, Call>,
    readings: map<Slot, int>,  // the last clock reading of each slot
    answers: seq<Answer>)      // every completed call, in order

  datatype Action =
    | Tick(elapsed: nat)
    | Begin(slot: Slot, reading: int)
    | Delete(slot: Slot, outcome: Outcome)
    | Insert(slot: Slot, outcome: Outcome)
    | Update(slot: Slot, outcome: Outcome)
    | Crash(holder: Holder)

  predicate At(s: State, slot: Slot, phase: Phase) {
    slot in s.calls && s.calls[slot].phase == phase
  }

  predicate MayRead(cfg: Config, s: State, slot: Slot, reading: int) {
    && s.clock - cfg.skew <= reading <= s.clock + cfg.skew
    && (cfg.steady && slot in s.readings ==> s.readings[slot] <= reading)
  }

  function Advance(calls: map<Slot, Call>, slot: Slot, phase: Phase): map<Slot, Call>
    requires slot in calls
  {
    calls[slot := calls[slot].(phase := phase)]
  }

  function Finish(cfg: Config, s: State, slot: Slot, table: Table, leader: bool, failed: bool): State
    requires slot in s.calls
  {
    s.(table := table,
    calls := s.calls - {slot},
    answers := s.answers + [Answer(slot, s.clock, s.calls[slot].now + cfg.duration(slot), leader, failed)])
  }

  // One atomic step. A step that is not possible in `s` changes nothing.
  function Apply(cfg: Config, s: State, a: Action): State {
    match a
    case Tick(elapsed) => s.(clock := s.clock + elapsed)
    case Begin(slot, reading) =>
      if slot !in s.calls && MayRead(cfg, s, slot, reading) then
        s.(calls := s.calls[slot := Call(Deleting, reading)], readings := s.readings[slot := reading])
      else s
    case Delete(slot, outcome) =>
      if !At(s, slot, Deleting) then s else
      var table := if outcome.Refused? then s.table else DeleteExpired(s.table, slot.job, s.calls[slot].now);
      if outcome.Done? then s.(table := table, calls := Advance(s.calls, slot, Inserting))
      else Finish(cfg, s, slot, table, false, true)
    case Insert(slot, outcome) =>  // its error is never looked at
      if !At(s, slot, Inserting) then s else
      var expires := s.calls[slot].now + cfg.duration(slot);
      var table := if outcome.Refused? then s.table else InsertRow(s.table, slot.job, slot.holder, expires);
      s.(table := table, calls := Advance(s.calls, slot, Updating))
    case Update(slot, outcome) =>
      if !At(s, slot, Updating) then s else
      var expires := s.calls[slot].now + cfg.duration(slot);
      var table := if outcome.Refused? then s.table else Renew(s.table, slot.job, slot.holder, expires);
      Finish(cfg, s, slot, table, outcome.Done? && Holds(s.table, slot.job, slot.holder), !outcome.Done?)
    case Crash(holder) =>
      s.(calls := map slot | slot in s.calls && slot.holder != holder :: s.calls[slot])
  }

  function Run(cfg: Config, s: State, acts: seq<Action>): State
    decreases |acts|
  {
    if acts == [] then s else Run(cfg, Apply(cfg, s, acts[0]), acts[1..])
  }

  predicate Initial(s: State) {
    s.calls == map[] && s.readings == map[] && s.answers == []
  }

  // Whether an executed statement is reported makes no difference to the table, and one that is not executed leaves
  // it as it is.
  lemma ReportsOnlyShow(cfg: Config, s: State, slot: Slot)
    ensures Apply(cfg, s, Delete(slot, Lost)).table == Apply(cfg, s, Delete(slot, Done)).table
    ensures Apply(cfg, s, Insert(slot, Lost)) == Apply(cfg, s, Insert(slot, Done))
    ensures Apply(cfg, s, Update(slot, Lost)).table == Apply(cfg, s, Update(slot, Done)).table
    ensures Apply(cfg, s, Delete(slot, Refused)).table == s.table
    ensures Apply(cfg, s, Insert(slot, Refused)).table == s.table
    ensures Apply(cfg, s, Update(slot, Refused)).table == s.table
  {
  }

  predicate IsStatement(act: Action) {
    act.Delete? || act.Insert? || act.Update?
  }

  // A step changes the row of its own job at most, answers its own call at most, and answers true only when its UPDATE
  // was reported and found the row in the name of its process; a crash ends the calls of its process and nothing else.
  lemma StepKeepsToItself(cfg: Config, s: State, act: Action)
    ensures var s' := Apply(cfg, s, act);
            && (forall job :: !IsStatement(act) || job != act.slot.job ==>
                  (job in s'.table <==> job in s.table) && (job in s.table ==> s'.table[job] == s.table[job]))
            && s.answers <= s'.answers && |s'.answers| <= |s.answers| + 1
            && (|s'.answers| == |s.answers| + 1 ==>
                  var last := s'.answers[|s.answers|];
                  && IsStatement(act) && act.slot in s.calls && s'.calls == s.calls - {act.slot}
                  && last.slot == act.slot && last.at == s.clock
                  && last.expires == s.calls[act.slot].now + cfg.duration(act.slot)
                  && (last.leader <==>
                        act.Update? && act.outcome.Done?
                        && act.slot.job in s.table && s.table[act.slot.job].holder == act.slot.holder))
    ensures (act.Update? && At(s, act.slot, Updating))
            || (act.Delete? && At(s, act.slot, Deleting) && !act.outcome.Done?) ==>
              var answers := Apply(cfg, s, act).answers;
              |answers| == |s.answers| + 1 && answers[|s.answers|].failed == !act.outcome.Done?
    ensures act.Crash? ==>
              forall slot :: slot in Apply(cfg, s, act).calls <==> slot in s.calls && slot.holder != act.holder
  {
  }

  /* ---- Mutual exclusion ---- */

  // How far a later call of the same process may pull its expiry back.
  function Drift(cfg: Config): nat {
    if cfg.steady then 0 else 2 * cfg.skew
  }

  // How much longer than the clock error a grant may outlast a later one: that, and never more than its own length
  function Slack(cfg: Config, slot: Slot): int {
    if cfg.duration(slot) + 1 < Drift(cfg) then cfg.duration(slot) + 1 else Drift(cfg)
  }

  // Every grant was out of date, up to the clock error, when a later grant went to another process.
  ghost predicate Exclusive(cfg: Config, s: State) {
    forall i, k :: 0 <= i < k < |s.answers| ==>
      var a, b := s.answers[i], s.answers[k];
      a.leader && b.leader && a.slot.job == b.slot.job && a.slot.holder != b.slot.holder ==>
        a.expires < b.at + cfg.skew + Slack(cfg, a.slot)
  }

  // A grant is still backed by the row, or it has expired for every process that could read its clock now.
  ghost predicate Covered(cfg: Config, s: State, a: Answer) {
    || (Holds(s.table, a.slot.job, a.slot.holder) && a.expires - Drift(cfg) <= s.table[a.slot.job].expires)
    || a.expires < s.clock + cfg.skew + Drift(cfg)
  }

  // No call of the same process that is under way will set an expiry much earlier than the grant's.
  ghost predicate Outlasting(cfg: Config, s: State, a: Answer) {
    var d := cfg.duration(a.slot);
    && a.expires <= s.clock + cfg.skew + d
    && (cfg.steady ==> a.slot in s.readings && a.expires <= s.readings[a.slot] + d)
    && (a.slot in s.calls ==> a.expires - Drift(cfg) <= s.calls[a.slot].now + d)
  }

  ghost predicate ReadingsSound(cfg: Config, s: State) {
    && (forall slot :: slot in s.readings ==> s.readings[slot] <= s.clock + cfg.skew)
    && (forall slot :: slot in s.calls ==> slot in s.readings && s.readings[slot] == s.calls[slot].now)
  }

  ghost predicate GrantsSound(cfg: Config, s: State) {
    forall i :: 0 <= i < |s.answers| && s.answers[i].leader ==>
      Covered(cfg, s, s.answers[i]) && Outlasting(cfg, s, s.answers[i])
  }

  ghost predicate Inv(cfg: Config, s: State) {
    ReadingsSound(cfg, s) && GrantsSound(cfg, s) && Exclusive(cfg, s)
  }

  lemma GrantStaysSound(cfg: Config, s: State, act: Action, a: Answer)
    requires ReadingsSound(cfg, s) && Covered(cfg, s, a) && Outlasting(cfg, s, a)
    ensures Covered(cfg, Apply(cfg, s, act), a) && Outlasting(cfg, Apply(cfg, s, act), a)
  {
    assert a.slot == Slot(a.slot.holder, a.slot.job);
    match act
    case Update(slot, _) =>
      if slot.holder == a.slot.holder && slot.job == a.slot.job { assert slot == a.slot; }
    case _ =>
  }

  lemma StepKeepsInv(cfg: Config, s: State, act: Action)
    requires Inv(cfg, s)
    ensures Inv(cfg, Apply(cfg, s, act))
  {
    var s' := Apply(cfg, s, act);
    forall i | 0 <= i < |s'.answers| && s'.answers[i].leader
      ensures Covered(cfg, s', s'.answers[i]) && Outlasting(cfg, s', s'.answers[i])
    {
      if i < |s.answers| {
        assert s'.answers[i] == s.answers[i];
        GrantStaysSound(cfg, s, act, s.answers[i]);
      }
    }
    assert ReadingsSound(cfg, s');
  }

  lemma {:induction false} RunKeepsInv(cfg: Config, s: State, acts: seq<Action>)
    requires Inv(cfg, s)
    ensures Inv(cfg, Run(cfg, s, acts))
    decreases |acts|
  {
    if acts != [] {
      StepKeepsInv(cfg, s, acts[0]);
      RunKeepsInv(cfg, Apply(cfg, s, acts[0]), acts[1..]);
    }
  }

  // Whatever the interleaving, the stalls, the crashes and the lost answers: when a process becomes leader at
  // time T, every earlier grant of the job to another process had expires_at < T, plus the clock error.
  lemma MutualExclusion(cfg: Config, s: State, acts: seq<Action>)
    requires Initial(s)
    ensures Exclusive(cfg, Run(cfg, s, acts))
  {
    RunKeepsInv(cfg, s, acts);
  }

  // With exact clocks no instant lies inside two grants of a job to different processes.
  lemma OneLeaderAtATime(cfg: Config, s: State, acts: seq<Action>, i: nat, k: nat, t: int)
    requires Initial(s) && cfg.skew == 0
    requires i < k < |Run(cfg, s, acts).answers|
    ensures
      var a, b := Run(cfg, s, acts).answers[i], Run(cfg, s, acts).answers[k];
      a.leader && b.leader && a.slot.job == b.slot.job && t <= a.expires && b.at <= t ==> a.slot.holder == b.slot.holder
  {
    MutualExclusion(cfg, s, acts);
  }

  lemma {:induction false} RunAppend(cfg: Config, s: State, first: seq<Action>, rest: seq<Action>)
    ensures Run(cfg, s, first + rest) == Run(cfg, Run(cfg, s, first), rest)
    decreases |first|
  {
    if first == [] {
      assert first + rest == rest;
    } else {
      assert (first + rest)[1..] == first[1..] + rest;
      RunAppend(cfg, Apply(cfg, s, first[0]), first[1..], rest);
    }
  }

  lemma RunParts(cfg: Config, s: State, first: seq<Action>, middle: seq<Action>, last: seq<Action>)
    ensures Run(cfg, s, first + middle + last) == Run(cfg, Run(cfg, Run(cfg, s, first), middle), last)
  {
    RunAppend(cfg, s, first, middle);
    RunAppend(cfg, s, first + middle, last);
  }

  lemma RunThree(cfg: Config, s: State, acts: seq<Action>)
    requires |acts| == 3
    ensures Run(cfg, s, acts) == Apply(cfg, Apply(cfg, Apply(cfg, s, acts[0]), acts[1]), acts[2])
  {
    var s1 := Apply(cfg, s, acts[0]);
    var s2 := Apply(cfg, s1, acts[1]);
    assert acts[1..][1..] == [acts[2]];
    assert Run(cfg, s2, [acts[2]]) == Apply(cfg, s2, acts[2]);
    assert Run(cfg, s1, acts[1..]) == Run(cfg, s2, [acts[2]]);
  }

  /* ---- One call on its own ---- */

  // A call whose statements are all executed and reported, with time passing before each of them.
  function Attempt(slot: Slot, reading: int, d1: nat, d2: nat, d3: nat): seq<Action> {
    [Begin(slot, reading), Tick(d1), Delete(slot, Done)] + [Tick(d2), Insert(slot, Done), Tick(d3)]
    + [Update(slot, Done)]
  }

  predicate Wins(table: Table, slot: Slot, now: int) {
    slot.job !in table || table[slot.job].holder == slot.holder || table[slot.job].expires < now
  }

  lemma AttemptDeletes(cfg: Config, s: State, slot: Slot, reading: int, d1: nat)
    requires slot !in s.calls && MayRead(cfg, s, slot, reading)
    ensures Run(cfg, s, [Begin(slot, reading), Tick(d1), Delete(slot, Done)]) ==
            State(s.clock + d1, DeleteExpired(s.table, slot.job, reading), s.calls[slot := Call(Inserting, reading)],
                  s.readings[slot := reading], s.answers)
  {
    RunThree(cfg, s, [Begin(slot, reading), Tick(d1), Delete(slot, Done)]);
  }

  lemma AttemptInserts(cfg: Config, s: State, slot: Slot, reading: int, d2: nat, d3: nat)
    requires slot in s.calls && s.calls[slot] == Call(Inserting, reading)
    ensures Run(cfg, s, [Tick(d2), Insert(slot, Done), Tick(d3)]) ==
            State(s.clock + d2 + d3, InsertRow(s.table, slot.job, slot.holder, reading + cfg.duration(slot)),
                  s.calls[slot := Call(Updating, reading)], s.readings, s.answers)
  {
    RunThree(cfg, s, [Tick(d2), Insert(slot, Done), Tick(d3)]);
  }

  lemma AttemptUpdates(cfg: Config, s: State, slot: Slot, reading: int)
    requires slot in s.calls && s.calls[slot] == Call(Updating, reading)
    ensures var expires := reading + cfg.duration(slot);
            Run(cfg, s, [Update(slot, Done)]) ==
            State(s.clock, Renew(s.table, slot.job, slot.holder, expires), s.calls - {slot}, s.readings,
                  s.answers + [Answer(slot, s.clock, expires, Holds(s.table, slot.job, slot.holder), false)])
  {
  }

  // What the three statements do to the row together
  lemma ThreeStatements(table: Table, slot: Slot, now: int, expires: int)
    ensures var inserted := InsertRow(DeleteExpired(table, slot.job, now), slot.job, slot.holder, expires);
            && Holds(inserted, slot.job, slot.holder) == Wins(table, slot, now)
            && Renew(inserted, slot.job, slot.holder, expires) ==
               if Wins(table, slot, now) then table[slot.job := Row(slot.holder, expires)] else table
  {
  }

  // Undisturbed by other processes, the stepped call does what `Lease.TryAcquire` does.
  lemma UndisturbedAttempt(cfg: Config, s: State, slot: Slot, reading: int, d1: nat, d2: nat, d3: nat)
    requires slot !in s.calls && MayRead(cfg, s, slot, reading)
    ensures
      var wins, expires, at := Wins(s.table, slot, reading), reading + cfg.duration(slot), s.clock + d1 + d2 + d3;
      Run(cfg, s, Attempt(slot, reading, d1, d2, d3)) ==
      State(at,
            if wins then s.table[slot.job := Row(slot.holder, expires)] else s.table,
            s.calls,
            s.readings[slot := reading],
            s.answers + [Answer(slot, at, expires, wins, false)])
  {
    var first, middle := [Begin(slot, reading), Tick(d1), Delete(slot, Done)], [Tick(d2), Insert(slot, Done), Tick(d3)];
    RunParts(cfg, s, first, middle, [Update(slot, Done)]);
    AttemptDeletes(cfg, s, slot, reading, d1);
    AttemptInserts(cfg, Run(cfg, s, first), slot, reading, d2, d3);
    AttemptUpdates(cfg, Run(cfg, Run(cfg, s, first), middle), slot, reading);
    ThreeStatements(s.table, slot, reading, reading + cfg.duration(slot));
    assert s.calls[slot := Call(Inserting, reading)][slot := Call(Updating, reading)] - {slot} == s.calls;
  }

  /* ---- The bound of mutual exclusion is exact ---- */

  lemma WinsAtOnce(cfg: Config, s: State, slot: Slot, reading: int)
    requires slot !in s.calls && MayRead(cfg, s, slot, reading) && Wins(s.table, slot, reading)
    ensures var expires := reading + cfg.duration(slot);
            Run(cfg, s, Attempt(slot, reading, 0, 0, 0)) ==
            State(s.clock, s.table[slot.job := Row(slot.holder, expires)], s.calls, s.readings[slot := reading],
                  s.answers + [Answer(slot, s.clock, expires, true, false)])
  {
    UndisturbedAttempt(cfg, s, slot, reading, 0, 0, 0);
  }

  // Some time later another process reads its clock as fast as it may, and takes the job over.
  function TakeOver(cfg: Config, s: State, slot: Slot, wait: nat): seq<Action> {
    [Tick(wait)] + Attempt(slot, s.clock + wait + cfg.skew, 0, 0, 0)
  }

  lemma TakesOver(cfg: Config, s: State, slot: Slot, wait: nat)
    requires s.calls == map[] && slot !in s.readings
    requires Wins(s.table, slot, s.clock + wait + cfg.skew)
    ensures var at := s.clock + wait;
            Run(cfg, s, TakeOver(cfg, s, slot, wait)).answers ==
            s.answers + [Answer(slot, at, at + cfg.skew + cfg.duration(slot), true, false)]
  {
    var s' := Apply(cfg, s, Tick(wait));
    WinsAtOnce(cfg, s', slot, s.clock + wait + cfg.skew);
    assert TakeOver(cfg, s, slot, wait)[1..] == Attempt(slot, s.clock + wait + cfg.skew, 0, 0, 0);
  }

  const Q := Slot("q", "metrics-sampler")
  const P := Slot("p", "metrics-sampler")
  const EMPTY := State(0, map[], map[], map[], [])

  function Sampler(skew: nat, steady: bool, duration: int): Config {
    Config(slot => duration, skew, steady)
  }

  function AtLeastZero(n: int): nat {
    if n < 0 then 0 else n
  }

  // With steady clocks: q reads fast, and p reads fast as soon as that expiry has passed for it.
  lemma SteadyOverlap(skew: nat, duration: int) returns (acts: seq<Action>)
    ensures var answers := Run(Sampler(skew, true, duration), EMPTY, acts).answers;
            && |answers| == 2 && answers[0] == Answer(Q, 0, skew + duration, true, false)
            && answers[1].leader && answers[1].slot == P && answers[1].at == AtLeastZero(duration + 1)
  {
    var cfg, first, wait := Sampler(skew, true, duration), Attempt(Q, skew, 0, 0, 0), AtLeastZero(duration + 1);
    WinsAtOnce(cfg, EMPTY, Q, skew);
    var s := Run(cfg, EMPTY, first);
    TakesOver(cfg, s, P, wait);
    acts := first + TakeOver(cfg, s, P, wait);
    RunAppend(cfg, EMPTY, first, TakeOver(cfg, s, P, wait));
  }

  // With others: q reads fast and then slow, which pulls its expiry back.
  lemma UnsteadyOverlap(skew: nat, duration: int) returns (acts: seq<Action>)
    ensures var answers := Run(Sampler(skew, false, duration), EMPTY, acts).answers;
            && |answers| == 3 && answers[0] == Answer(Q, 0, skew + duration, true, false)
            && answers[2].leader && answers[2].slot == P && answers[2].at == AtLeastZero(duration - 2 * skew + 1)
  {
    var cfg, wait := Sampler(skew, false, duration), AtLeastZero(duration - 2 * skew + 1);
    var first, second := Attempt(Q, skew, 0, 0, 0), Attempt(Q, 0 - skew, 0, 0, 0);
    WinsAtOnce(cfg, EMPTY, Q, skew);
    var s := Run(cfg, EMPTY, first);
    WinsAtOnce(cfg, s, Q, 0 - skew);
    var s' := Run(cfg, s, second);
    TakesOver(cfg, s', P, wait);
    acts := first + (second + TakeOver(cfg, s', P, wait));
    RunAppend(cfg, EMPTY, first, second + TakeOver(cfg, s', P, wait));
    RunAppend(cfg, s, second, TakeOver(cfg, s', P, wait));
  }

  // The bound of `MutualExclusion` cannot be lowered, for any clock error, any lease duration, and process clocks that
  // may run backwards or not: when the last grant of a run comes, the first, to another process, still has all of it
  // but one to run.
  lemma DriftBoundIsReached(skew: nat, steady: bool, duration: int) returns (cfg: Config, s: State, acts: seq<Action>)
    ensures cfg.skew == skew && cfg.steady == steady && Initial(s)
    ensures forall slot :: cfg.duration(slot) == duration
    ensures
      var answers := Run(cfg, s, acts).answers;
      && |answers| >= 2
      && var a, b := answers[0], answers[|answers| - 1];
         && a.leader && b.leader && a.slot.job == b.slot.job && a.slot.holder != b.slot.holder
         && a.expires == b.at + cfg.skew + Slack(cfg, a.slot) - 1
  {
    cfg, s := Sampler(skew, steady, duration), EMPTY;
    if steady {
      acts := SteadyOverlap(skew, duration);
    } else {
      acts := UnsteadyOverlap(skew, duration);
    }
  }

  /* ---- Somebody wins ---- */

  // Every statement of the run is executed and reported, and no process crashes.
  predicate Reliable(act: Action) {
    match act
    case Delete(_, outcome) => outcome.Done?
    case Insert(_, outcome) => outcome.Done?
    case Update(_, outcome) => outcome.Done?
    case Crash(_) => false
    case _ => true
  }

  predicate Granted(s: State, slot: Slot) {
    exists i :: 0 <= i < |s.answers| && s.answers[i].slot == slot && s.answers[i].leader
  }

  // Whoever is in the row has been told so, is about to be, or was in it from the start.
  predicate RowExplained(start: Table, s: State, job: Job) {
    job in s.table ==>
      var slot := Slot(s.table[job].holder, job);
      Granted(s, slot) || At(s, slot, Updating) || Holds(start, job, slot.holder)
  }

  ghost predicate Attempted(s: State, job: Job) {
    || (exists i :: 0 <= i < |s.answers| && s.answers[i].slot.job == job)
    || (exists slot :: At(s, slot, Updating) && slot.job == job)
  }

  // A row is missing only before the first claim, or while somebody is about to insert one.
  ghost predicate RowKept(s: State, job: Job) {
    Attempted(s, job) ==> job in s.table || exists slot :: At(s, slot, Inserting) && slot.job == job
  }

  lemma StepExplainsRow(cfg: Config, start: Table, s: State, act: Action, job: Job)
    requires RowExplained(start, s, job) && Reliable(act)
    ensures RowExplained(start, Apply(cfg, s, act), job)
  {
    var s' := Apply(cfg, s, act);
    if job in s.table && job in s'.table && s'.table[job].holder == s.table[job].holder {
      var slot := Slot(s.table[job].holder, job);
      if Granted(s, slot) {
        var i :| 0 <= i < |s.answers| && s.answers[i].slot == slot && s.answers[i].leader;
        assert s'.answers[i] == s.answers[i];
      } else if act.Update? && act.slot == slot && At(s, slot, Updating) {
        assert s'.answers[|s.answers|].slot == slot && s'.answers[|s.answers|].leader;
      }
    }
  }

  lemma AttemptedBefore(cfg: Config, s: State, act: Action, job: Job)
    requires Reliable(act) && Attempted(Apply(cfg, s, act), job) && job !in Apply(cfg, s, act).table
    ensures Attempted(s, job)
  {
  }

  lemma StepKeepsRow(cfg: Config, s: State, act: Action, job: Job)
    requires RowKept(s, job) && Reliable(act)
    ensures RowKept(Apply(cfg, s, act), job)
  {
    var s' := Apply(cfg, s, act);
    if Attempted(s', job) && job !in s'.table {
      if act.Delete? && At(s, act.slot, Deleting) && act.slot.job == job {
        assert At(s', act.slot, Inserting);
      } else {
        assert Attempted(s, job) by { AttemptedBefore(cfg, s, act, job); }
        assert job !in s.table;
        var slot :| At(s, slot, Inserting) && slot.job == job;
        assert At(s', slot, Inserting);
      }
    }
  }

  lemma {:induction false} RunKeepsRow(cfg: Config, start: Table, s: State, acts: seq<Action>, job: Job)
    requires RowExplained(start, s, job) && RowKept(s, job)
    requires forall i :: 0 <= i < |acts| ==> Reliable(acts[i])
    ensures RowExplained(start, Run(cfg, s, acts), job) && RowKept(Run(cfg, s, acts), job)
    decreases |acts|
  {
    if acts != [] {
      StepExplainsRow(cfg, start, s, acts[0], job);
      StepKeepsRow(cfg, s, acts[0], job);
      RunKeepsRow(cfg, start, Apply(cfg, s, acts[0]), acts[1..], job);
    }
  }

  // When all calls have come to an end and nothing failed, whoever is in the row has been made leader,
  // unless the row still names its holder from the start. Together with `OneLeaderAtATime`: exactly one wins.
  lemma SomebodyWins(cfg: Config, s: State, acts: seq<Action>, k: nat)
    requires Initial(s) && forall i :: 0 <= i < |acts| ==> Reliable(acts[i])
    requires var s' := Run(cfg, s, acts); s'.calls == map[] && k < |s'.answers|
    ensures var s' := Run(cfg, s, acts);
            var job := s'.answers[k].slot.job;
            && job in s'.table
            && (Granted(s', Slot(s'.table[job].holder, job)) || Holds(s.table, job, s'.table[job].holder))
  {
    var s' := Run(cfg, s, acts);
    RunKeepsRow(cfg, s.table, s, acts, s'.answers[k].slot.job);
  }

  /* ---- A punctual leader keeps the job ---- */

  // The step at which the table gets the leader's new expiry.
  predicate Renewal(s: State, act: Action, leader: Slot) {
    act.Update? && act.slot == leader && !act.outcome.Refused? && At(s, leader, Updating)
  }

  // Every renewing UPDATE of `leader` in the run, and the end of the run, come no later than the expiry set by the
  // renewal before; the expiry is the clock reading of that call plus the lease duration.
  predicate Punctual(cfg: Config, s: State, acts: seq<Action>, leader: Slot, deadline: int)
    decreases |acts|
  {
    if acts == [] then
      s.clock + cfg.skew <= deadline
    else if Renewal(s, acts[0], leader) then
      && s.clock + cfg.skew <= deadline
      && Punctual(cfg, Apply(cfg, s, acts[0]), acts[1..], leader, s.calls[leader].now + cfg.duration(leader))
    else
      Punctual(cfg, Apply(cfg, s, acts[0]), acts[1..], leader, deadline)
  }

  lemma {:induction false} PunctualNow(cfg: Config, s: State, acts: seq<Action>, leader: Slot, deadline: int)
    requires Punctual(cfg, s, acts, leader, deadline)
    ensures s.clock + cfg.skew <= deadline
    decreases |acts|
  {
    if acts != [] && !Renewal(s, acts[0], leader) {
      PunctualNow(cfg, Apply(cfg, s, acts[0]), acts[1..], leader, deadline);
    }
  }

  ghost predicate CallsSound(cfg: Config, s: State) {
    forall slot :: slot in s.calls ==> s.calls[slot].now <= s.clock + cfg.skew
  }

  // What was answered for `leader`'s job after the first `n` answers.
  ghost predicate OnlyLeaderAnswered(s: State, n: nat, leader: Slot) {
    forall i :: n <= i < |s.answers| && s.answers[i].slot.job == leader.job ==>
      (s.answers[i].leader <==> s.answers[i].slot == leader && !s.answers[i].failed)
  }

  lemma {:induction false} PunctualLeaderStays(
      cfg: Config, s: State, acts: seq<Action>, leader: Slot, deadline: int, n: nat)
    requires CallsSound(cfg, s)
    requires leader.job in s.table && s.table[leader.job] == Row(leader.holder, deadline)
    requires Punctual(cfg, s, acts, leader, deadline)
    requires n <= |s.answers| && OnlyLeaderAnswered(s, n, leader)
    ensures var s' := Run(cfg, s, acts);
            Holds(s'.table, leader.job, leader.holder) && n <= |s'.answers| && OnlyLeaderAnswered(s', n, leader)
    decreases |acts|
  {
    if acts != [] {
      var s' := Apply(cfg, s, acts[0]);
      PunctualNow(cfg, s, acts, leader, deadline);
      var deadline' := if Renewal(s, acts[0], leader) then s.calls[leader].now + cfg.duration(leader) else deadline;
      assert leader == Slot(leader.holder, leader.job);
      assert s'.table[leader.job] == Row(leader.holder, deadline');
      PunctualLeaderStays(cfg, s', acts[1..], leader, deadline', n);
    }
  }

  /* ---- A dead leader is replaced ---- */

  predicate NeverBegins(acts: seq<Action>, dead: Slot) {
    forall i :: 0 <= i < |acts| && acts[i].Begin? ==> acts[i].slot != dead
  }

  lemma {:induction false} NeverReturns(cfg: Config, s: State, acts: seq<Action>, dead: Slot)
    requires dead !in s.calls && NeverBegins(acts, dead)
    requires !Holds(s.table, dead.job, dead.holder)
    ensures !Holds(Run(cfg, s, acts).table, dead.job, dead.holder)
    decreases |acts|
  {
    if acts != [] {
      assert dead == Slot(dead.holder, dead.job);
      var s' := Apply(cfg, s, acts[0]);
      assert dead !in s'.calls;
      assert !Holds(s'.table, dead.job, dead.holder);
      NeverReturns(cfg, s', acts[1..], dead);
    }
  }

  // Once the expiry of a dead holder has passed, the first DELETE of any other process removes its row for good,
  // whatever all the other processes do afterwards.
  lemma DeadHolderIsRemoved(cfg: Config, s: State, slot: Slot, outcome: Outcome, dead: Slot, acts: seq<Action>)
    requires dead !in s.calls && dead.job == slot.job && NeverBegins(acts, dead)
    requires Holds(s.table, dead.job, dead.holder)
    requires At(s, slot, Deleting) && !outcome.Refused?
    ensures s.table[dead.job].expires < s.calls[slot].now ==>
              !Holds(Run(cfg, s, [Delete(slot, outcome)] + acts).table, dead.job, dead.holder)
    ensures s.calls[slot].now <= s.table[dead.job].expires ==>
              Apply(cfg, s, Delete(slot, outcome)).table == s.table
  {
    var s' := Apply(cfg, s, Delete(slot, outcome));
    assert ([Delete(slot, outcome)] + acts)[1..] == acts;
    if s.table[dead.job].expires < s.calls[slot].now {
      NeverReturns(cfg, s', acts, dead);
    }
  }
}
