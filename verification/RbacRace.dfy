/** Resolutions and writes that overlap: a call that misses the cache reads the tables and stores the result in
    separate steps, and a write commits and drops cached resolutions in separate steps. */
module RbacRace {
  import opened Text
  import opened Groups
  import opened Scopes
  import opened TimedCache
  import opened Directory

  type Pid = string

  datatype Snapshot = Snapshot(since: int, db: Db)

  // When the call that produced a value began, read the tables and stored the value
  datatype Origin = Origin(begun: int, read: int, stored: int)

  datatype Call = Missed(user: Id, begun: int) | Loaded(user: Id, begun: int, read: int, value: Resolved)

  datatype Answer = Answer(user: Id, at: int, value: Resolved, origin: Origin)

  datatype State = State(
    now: int,
    history: seq<Snapshot>,        // every version of the tables, the last one current
    store: Store<Resolved>,
    origins: map<Id, Origin>,      // of the resolution last stored for each user
    calls: map<Pid, Call>,         // Resolve calls under way
    writes: map<Pid, Statement>,   // committed, cached resolutions not dropped yet
    answers: seq<Answer>)
  {
    function Tables(): Db
      requires history != []
    {
      history[|history| - 1].db
    }
  }

  datatype Action =
    | Elapse(time: nat)
    | Begin(pid: Pid, user: Id)
    | Read(pid: Pid, value: Resolved)
    | Save(pid: Pid)
    | Commit(pid: Pid, statement: Statement)
    | Drop(pid: Pid)
    | Reap

  ghost function Apply(s: State, a: Action, ttl: int): State
    requires s.history != []
  {
    match a
    case Elapse(time) => s.(now := s.now + time)
    case Begin(pid, user) =>
      if pid in s.calls then s
      else if LiveAt(s.store, Key(user), s.now) && user in s.origins then
        s.(answers := s.answers + [Answer(user, s.now, s.store[Key(user)].value, s.origins[user])])
      else s.(calls := s.calls[pid := Missed(user, s.now)])
    case Read(pid, value) =>
      if pid in s.calls && s.calls[pid].Missed? && ResolvesTo(s.Tables(), s.calls[pid].user, value) then
        var call := s.calls[pid];
        s.(calls := s.calls[pid := Loaded(call.user, call.begun, s.now, value)])
      else s
    case Save(pid) =>
      if pid in s.calls && s.calls[pid].Loaded? then
        var call := s.calls[pid];
        var origin := Origin(call.begun, call.read, s.now);
        s.(store := Put(s.store, Key(call.user), call.value, ttl, s.now),
        origins := s.origins[call.user := origin],
        calls := s.calls - {pid},
        answers := s.answers + [Answer(call.user, s.now, call.value, origin)])
      else s
    case Commit(pid, statement) =>
      if pid !in s.writes && Accepts(s.Tables(), statement) then
        s.(history := s.history + [Snapshot(s.now, Execute(s.Tables(), statement))],
        writes := s.writes[pid := statement])
      else s
    case Drop(pid) =>
      if pid in s.writes then
        s.(store := Dropped(s.store, Invalidates(s.writes[pid])), writes := s.writes - {pid})
      else s
    case Reap => s.(store := Reaped(s.store, s.now))
  }

  ghost function Run(s: State, acts: seq<Action>, ttl: int): State
    requires s.history != []
    ensures Run(s, acts, ttl).history != []
    decreases |acts|
  {
    if acts == [] then s else Run(Apply(s, acts[0], ttl), acts[1..], ttl)
  }

  lemma {:induction false} RunAppend(s: State, first: seq<Action>, rest: seq<Action>, ttl: int)
    requires s.history != []
    ensures Run(s, first + rest, ttl) == Run(Run(s, first, ttl), rest, ttl)
    decreases |first|
  {
    if first == [] {
      assert first + rest == rest;
    } else {
      assert (first + rest)[1..] == first[1..] + rest;
      RunAppend(Apply(s, first[0], ttl), first[1..], rest, ttl);
    }
  }

  /* ---- Calls on their own ---- */

  lemma OneAction(s: State, a: Action, ttl: int)
    requires s.history != []
    ensures Run(s, [a], ttl) == Apply(s, a, ttl)
  {
    assert [a][1..] == [];
  }

  lemma TwoActions(s: State, a: Action, b: Action, ttl: int)
    requires s.history != []
    ensures Run(s, [a, b], ttl) == Apply(Apply(s, a, ttl), b, ttl)
  {
    assert [a, b][1..] == [b];
    OneAction(Apply(s, a, ttl), b, ttl);
  }

  lemma MissLoads(s: State, pid: Pid, user: Id, value: Resolved, ttl: int)
    requires s.history != [] && pid !in s.calls
    requires !LiveAt(s.store, Key(user), s.now) && ResolvesTo(s.Tables(), user, value)
    ensures Run(s, [Begin(pid, user), Read(pid, value)], ttl)
         == s.(calls := s.calls[pid := Loaded(user, s.now, s.now, value)])
  {
    TwoActions(s, Begin(pid, user), Read(pid, value), ttl);
    assert s.calls[pid := Missed(user, s.now)][pid := Loaded(user, s.now, s.now, value)]
        == s.calls[pid := Loaded(user, s.now, s.now, value)];
  }

  lemma LoadedIsSaved(s: State, pid: Pid, user: Id, value: Resolved, ttl: int)
    requires s.history != [] && pid in s.calls && s.calls[pid] == Loaded(user, s.now, s.now, value)
    ensures Run(s, [Save(pid)], ttl)
         == s.(store := Put(s.store, Key(user), value, ttl, s.now),
               origins := s.origins[user := Origin(s.now, s.now, s.now)],
               calls := s.calls - {pid},
               answers := s.answers + [Answer(user, s.now, value, Origin(s.now, s.now, s.now))])
  {
    OneAction(s, Save(pid), ttl);
  }

  // A call that misses and that nothing disturbs does what asking does in one piece: the value of the tables is cached
  // for the lifetime and answered, and every other entry stays.
  lemma UndisturbedResolve(s: State, pid: Pid, user: Id, value: Resolved, ttl: int)
    requires s.history != [] && pid !in s.calls
    requires !LiveAt(s.store, Key(user), s.now) && ResolvesTo(s.Tables(), user, value)
    ensures var s', key := Run(s, [Begin(pid, user), Read(pid, value)] + [Save(pid)], ttl), "rbac:user:" + user;
            && s'.store == Next(System(s.Tables(), s.store, s.now), Asked(user, value), ttl).store
            && key in s'.store && s'.store[key].value == value && Expires(s'.store[key], ttl, s.now)
            && SameElsewhere(s.store, s'.store, [key])
            && s'.answers == s.answers + [Answer(user, s.now, value, Origin(s.now, s.now, s.now))]
            && s'.history == s.history && s'.calls == s.calls && s'.writes == s.writes
  {
    RunAppend(s, [Begin(pid, user), Read(pid, value)], [Save(pid)], ttl);
    MissLoads(s, pid, user, value, ttl);
    LoadedIsSaved(Run(s, [Begin(pid, user), Read(pid, value)], ttl), pid, user, value, ttl);
    assert s.calls[pid := Loaded(user, s.now, s.now, value)] - {pid} == s.calls;
  }

  // A write that nothing disturbs does what writing does in one piece; one that the database refuses does nothing.
  lemma UndisturbedWrite(s: State, pid: Pid, statement: Statement, ttl: int)
    requires s.history != [] && pid !in s.writes
    ensures var one := Next(System(s.Tables(), s.store, s.now), Wrote(statement), ttl);
            var s' := Run(s, [Commit(pid, statement), Drop(pid)], ttl);
            && s'.Tables() == one.db && s'.store == one.store
            && s'.answers == s.answers && s'.calls == s.calls && s'.writes == s.writes
    ensures !Accepts(s.Tables(), statement) ==> Apply(s, Commit(pid, statement), ttl) == s
  {
    TwoActions(s, Commit(pid, statement), Drop(pid), ttl);
    if Accepts(s.Tables(), statement) {
      assert s.writes[pid := statement] - {pid} == s.writes;
    }
  }

  /* ---- Bounded staleness ---- */

  predicate InForce(history: seq<Snapshot>, i: nat, t: int)
    requires i < |history|
  {
    history[i].since <= t && (i + 1 < |history| ==> t <= history[i + 1].since)
  }

  // At instant `t` the tables gave `value` for `user`.
  ghost predicate TrueAt(history: seq<Snapshot>, t: int, user: Id, value: Resolved) {
    exists i :: 0 <= i < |history| && InForce(history, i, t) && ResolvesTo(history[i].db, user, value)
  }

  predicate InSequence(o: Origin, now: int) {
    o.begun <= o.read <= o.stored <= now
  }

  ghost predicate HistorySound(s: State) {
    && s.history != []
    && s.history[|s.history| - 1].since <= s.now
    && ForeignKeysHold(s.Tables())
  }

  ghost predicate CallsSound(s: State) {
    forall pid :: pid in s.calls && s.calls[pid].Loaded? ==>
      var c := s.calls[pid];
      c.begun <= c.read <= s.now && TrueAt(s.history, c.read, c.user, c.value)
  }

  ghost predicate MissesSound(s: State) {
    forall pid :: pid in s.calls ==> s.calls[pid].begun <= s.now
  }

  ghost predicate EntrySound(s: State, user: Id, ttl: int)
    requires Key(user) in s.store
  {
    && user in s.origins
    && InSequence(s.origins[user], s.now)
    && s.store[Key(user)].expires == Some(s.origins[user].stored + ttl)
    && TrueAt(s.history, s.origins[user].read, user, s.store[Key(user)].value)
  }

  ghost predicate StoreSound(s: State, ttl: int) {
    forall user :: Key(user) in s.store ==> EntrySound(s, user, ttl)
  }

  // An answer was true no longer ago than the cache lifetime plus the running time of the call that stored it.
  ghost predicate AnswerSound(history: seq<Snapshot>, a: Answer, ttl: int) {
    && a.at - ttl - (a.origin.stored - a.origin.begun) <= a.origin.read <= a.at
    && TrueAt(history, a.origin.read, a.user, a.value)
  }

  ghost predicate AnswersSound(s: State, ttl: int) {
    forall i :: 0 <= i < |s.answers| ==> s.answers[i].at <= s.now && AnswerSound(s.history, s.answers[i], ttl)
  }

  ghost predicate Inv(s: State, ttl: int) {
    HistorySound(s) && CallsSound(s) && MissesSound(s) && StoreSound(s, ttl) && AnswersSound(s, ttl)
  }

  lemma TruthIsPast(history: seq<Snapshot>, next: Snapshot, t: int, user: Id, value: Resolved)
    requires TrueAt(history, t, user, value) && t <= next.since
    ensures TrueAt(history + [next], t, user, value)
  {
    var i :| 0 <= i < |history| && InForce(history, i, t) && ResolvesTo(history[i].db, user, value);
    assert InForce(history + [next], i, t);
    assert (history + [next])[i] == history[i];
  }

  // What was true up to `now` stays on record.
  ghost predicate KeepsTruth(a: seq<Snapshot>, b: seq<Snapshot>, now: int) {
    forall t, user, value :: t <= now && TrueAt(a, t, user, value) ==> TrueAt(b, t, user, value)
  }

  lemma LongerHistoryKeeps(s: State, s': State, ttl: int)
    requires Inv(s, ttl) && KeepsTruth(s.history, s'.history, s.now) && s'.now == s.now
    requires s'.store == s.store && s'.origins == s.origins && s'.calls == s.calls && s'.answers == s.answers
    ensures CallsSound(s') && StoreSound(s', ttl) && AnswersSound(s', ttl)
  {
    forall user | Key(user) in s'.store ensures EntrySound(s', user, ttl) {
      assert EntrySound(s, user, ttl);
    }
  }

  lemma CommitKeepsInv(s: State, pid: Pid, statement: Statement, ttl: int)
    requires Inv(s, ttl)
    ensures Inv(Apply(s, Commit(pid, statement), ttl), ttl)
  {
    var s' := Apply(s, Commit(pid, statement), ttl);
    if pid !in s.writes && Accepts(s.Tables(), statement) {
      ExecuteKeepsForeignKeys(s.Tables(), statement);
      var next := Snapshot(s.now, Execute(s.Tables(), statement));
      forall t, user, value | t <= s.now && TrueAt(s.history, t, user, value)
        ensures TrueAt(s'.history, t, user, value)
      {
        TruthIsPast(s.history, next, t, user, value);
      }
      LongerHistoryKeeps(s, s', ttl);
    }
  }

  lemma SaveKeepsInv(s: State, pid: Pid, ttl: int)
    requires Inv(s, ttl) && ttl > 0
    ensures Inv(Apply(s, Save(pid), ttl), ttl)
  {
    var s' := Apply(s, Save(pid), ttl);
    if pid in s.calls && s.calls[pid].Loaded? {
      var call := s.calls[pid];
      forall user | Key(user) in s'.store ensures EntrySound(s', user, ttl) {
        KeyInjective(user, call.user);
        if user != call.user { assert EntrySound(s, user, ttl); }
      }
    }
  }

  // Dropping entries and the passing of time
  lemma ShrinkKeepsInv(s: State, s': State, ttl: int)
    requires Inv(s, ttl) && s.now <= s'.now
    requires s'.history == s.history && s'.origins == s.origins && s'.calls == s.calls && s'.answers == s.answers
    requires forall k :: k in s'.store ==> k in s.store && s'.store[k] == s.store[k]
    ensures Inv(s', ttl)
  {
    forall user | Key(user) in s'.store ensures EntrySound(s', user, ttl) {
      assert EntrySound(s, user, ttl);
    }
  }

  lemma ReadKeepsInv(s: State, pid: Pid, value: Resolved, ttl: int)
    requires Inv(s, ttl)
    ensures Inv(Apply(s, Read(pid, value), ttl), ttl)
  {
    var s' := Apply(s, Read(pid, value), ttl);
    assert InForce(s.history, |s.history| - 1, s.now);
    forall user | Key(user) in s'.store ensures EntrySound(s', user, ttl) {
      assert EntrySound(s, user, ttl);
    }
  }

  lemma BeginKeepsInv(s: State, pid: Pid, user: Id, ttl: int)
    requires Inv(s, ttl) && ttl > 0
    ensures Inv(Apply(s, Begin(pid, user), ttl), ttl)
  {
    var s' := Apply(s, Begin(pid, user), ttl);
    if LiveAt(s.store, Key(user), s.now) {
      assert EntrySound(s, user, ttl);
    }
    forall u | Key(u) in s'.store ensures EntrySound(s', u, ttl) {
      assert EntrySound(s, u, ttl);
    }
  }

  lemma StepKeepsInv(s: State, a: Action, ttl: int)
    requires Inv(s, ttl) && ttl > 0
    ensures Inv(Apply(s, a, ttl), ttl)
  {
    match a
    case Commit(pid, statement) => CommitKeepsInv(s, pid, statement, ttl);
    case Save(pid) => SaveKeepsInv(s, pid, ttl);
    case Read(pid, value) => ReadKeepsInv(s, pid, value, ttl);
    case Begin(pid, user) => BeginKeepsInv(s, pid, user, ttl);
    case _ => ShrinkKeepsInv(s, Apply(s, a, ttl), ttl);
  }

  lemma {:induction false} RunKeepsInv(s: State, acts: seq<Action>, ttl: int)
    requires Inv(s, ttl) && ttl > 0
    ensures Inv(Run(s, acts, ttl), ttl)
    decreases |acts|
  {
    if acts != [] {
      StepKeepsInv(s, acts[0], ttl);
      RunKeepsInv(Apply(s, acts[0], ttl), acts[1..], ttl);
    }
  }

  ghost predicate Initial(s: State) {
    && |s.history| == 1 && s.history[0].since <= s.now && ForeignKeysHold(s.Tables())
    && s.store == map[] && s.calls == map[] && s.writes == map[] && s.answers == []
  }

  // Whatever the interleaving, every answer was the true resolution at one instant that lies no further back than
  // the cache lifetime and the running time of the call that stored it.
  lemma BoundedStaleness(s: State, acts: seq<Action>, ttl: int)
    requires Initial(s) && ttl > 0
    ensures var s' := Run(s, acts, ttl);
            forall i :: 0 <= i < |s'.answers| ==> AnswerSound(s'.history, s'.answers[i], ttl)
  {
    RunKeepsInv(s, acts, ttl);
  }

  /* ---- When a write is seen at once ---- */

  // Every resolution of `user` that has been read and not stored yet is one that `db` gives as well.
  ghost predicate NoStaleLoad(s: State, user: Id, db: Db) {
    forall pid :: pid in s.calls && s.calls[pid].Loaded? && s.calls[pid].user == user ==>
      ResolvesTo(db, user, s.calls[pid].value)
  }

  // No write in the run is one that invalidates `user`.
  predicate LeavesAlone(acts: seq<Action>, user: Id) {
    forall i :: 0 <= i < |acts| && acts[i].Commit? ==> !Invalidates(acts[i].statement).Includes(user)
  }

  // The tables and all the resolutions under way agree with `db` about `user`.
  ghost predicate CallsFresh(s: State, user: Id, db: Db) {
    && s.history != [] && ForeignKeysHold(s.Tables())
    && (forall r :: ResolvesTo(s.Tables(), user, r) <==> ResolvesTo(db, user, r))
    && forall pid :: pid in s.calls && s.calls[pid].Loaded? && s.calls[pid].user == user ==>
         ResolvesTo(db, user, s.calls[pid].value)
  }

  ghost predicate StoreFresh(s: State, user: Id, db: Db) {
    Key(user) in s.store ==> ResolvesTo(db, user, s.store[Key(user)].value)
  }

  ghost predicate AnswersFresh(s: State, from: nat, user: Id, db: Db) {
    forall i :: from <= i < |s.answers| && s.answers[i].user == user ==> ResolvesTo(db, user, s.answers[i].value)
  }

  lemma StepKeepsCallsFresh(s: State, a: Action, user: Id, db: Db, ttl: int)
    requires CallsFresh(s, user, db) && LeavesAlone([a], user)
    ensures CallsFresh(Apply(s, a, ttl), user, db)
  {
    if a.Commit? && a.pid !in s.writes && Accepts(s.Tables(), a.statement) {
      assert [a][0] == a;
      ExecuteKeepsForeignKeys(s.Tables(), a.statement);
      forall r ensures ResolvesTo(Execute(s.Tables(), a.statement), user, r) <==> ResolvesTo(s.Tables(), user, r) {
        OthersUnaffected(s.Tables(), a.statement, user, r);
      }
    }
  }

  lemma WriteStays(s: State, a: Action, pid: Pid, ttl: int)
    requires s.history != [] && pid in s.writes && a != Drop(pid)
    ensures var s' := Apply(s, a, ttl); pid in s'.writes && s'.writes[pid] == s.writes[pid]
  {
  }

  lemma {:induction false} RunKeepsCallsFresh(s: State, acts: seq<Action>, user: Id, db: Db, pid: Pid, ttl: int)
    requires CallsFresh(s, user, db) && LeavesAlone(acts, user) && pid in s.writes && Drop(pid) !in acts
    ensures var s' := Run(s, acts, ttl);
            CallsFresh(s', user, db) && pid in s'.writes && s'.writes[pid] == s.writes[pid]
    decreases |acts|
  {
    if acts != [] {
      StepKeepsCallsFresh(s, acts[0], user, db, ttl);
      assert acts[0] in acts;
      WriteStays(s, acts[0], pid, ttl);
      RunKeepsCallsFresh(Apply(s, acts[0], ttl), acts[1..], user, db, pid, ttl);
    }
  }

  lemma StepKeepsAnswersFresh(s: State, a: Action, user: Id, db: Db, from: nat, ttl: int)
    requires CallsFresh(s, user, db) && StoreFresh(s, user, db) && AnswersFresh(s, from, user, db)
    ensures StoreFresh(Apply(s, a, ttl), user, db) && AnswersFresh(Apply(s, a, ttl), from, user, db)
  {
    if a.Save? && a.pid in s.calls {
      KeyInjective(s.calls[a.pid].user, user);
    }
  }

  lemma {:induction false} RunAnswersFresh(s: State, acts: seq<Action>, user: Id, db: Db, from: nat, ttl: int)
    requires CallsFresh(s, user, db) && StoreFresh(s, user, db) && LeavesAlone(acts, user)
    requires AnswersFresh(s, from, user, db)
    ensures AnswersFresh(Run(s, acts, ttl), from, user, db)
    decreases |acts|
  {
    if acts != [] {
      StepKeepsCallsFresh(s, acts[0], user, db, ttl);
      StepKeepsAnswersFresh(s, acts[0], user, db, from, ttl);
      RunAnswersFresh(Apply(s, acts[0], ttl), acts[1..], user, db, from, ttl);
    }
  }

  // A write, whatever overlaps it, the drop of the cached resolutions, and whatever comes later: every answer for
  // `user` from the drop on shows the write.
  ghost predicate ShowsWrite(s: State, pid: Pid, statement: Statement, between: seq<Action>, later: seq<Action>,
                             user: Id, ttl: int)
    requires s.history != []
  {
    var written := Run(s, [Commit(pid, statement)] + between + [Drop(pid)], ttl);
    AnswersFresh(Run(written, later, ttl), |written.answers|, user, Execute(s.Tables(), statement))
  }

  lemma WrittenState(s: State, pid: Pid, statement: Statement, between: seq<Action>, ttl: int)
    requires s.history != []
    ensures Run(s, [Commit(pid, statement)] + between + [Drop(pid)], ttl)
         == Apply(Run(Apply(s, Commit(pid, statement), ttl), between, ttl), Drop(pid), ttl)
  {
    RunAppend(s, [Commit(pid, statement)] + between, [Drop(pid)], ttl);
    RunAppend(s, [Commit(pid, statement)], between, ttl);
    OneAction(s, Commit(pid, statement), ttl);
    OneAction(Run(Apply(s, Commit(pid, statement), ttl), between, ttl), Drop(pid), ttl);
  }

  lemma SeenAtOnce(s: State, pid: Pid, statement: Statement, between: seq<Action>, later: seq<Action>,
                   user: Id, ttl: int)
    requires HistorySound(s) && pid !in s.writes && Accepts(s.Tables(), statement)
    requires Invalidates(statement).Includes(user) && NoStaleLoad(s, user, Execute(s.Tables(), statement))
    requires LeavesAlone(between, user) && LeavesAlone(later, user) && Drop(pid) !in between
    ensures ShowsWrite(s, pid, statement, between, later, user, ttl)
  {
    var db := Execute(s.Tables(), statement);
    var s1 := Apply(s, Commit(pid, statement), ttl);
    ExecuteKeepsForeignKeys(s.Tables(), statement);
    assert CallsFresh(s1, user, db);
    var s2 := Run(s1, between, ttl);
    RunKeepsCallsFresh(s1, between, user, db, pid, ttl);
    var s3 := Apply(s2, Drop(pid), ttl);
    assert HasPrefix(Key(user), RBAC_PREFIX) && Key(user) in [Key(user)];
    assert StoreFresh(s3, user, db);
    RunAnswersFresh(s3, later, user, db, |s3.answers|, ttl);
    WrittenState(s, pid, statement, between, ttl);
  }

  lemma StaleLoadShows(s: State, pid: Pid, statement: Statement, user: Id, p: Pid, ttl: int)
    requires HistorySound(s) && pid !in s.writes && Accepts(s.Tables(), statement)
    requires p in s.calls && s.calls[p].Loaded? && s.calls[p].user == user
    requires ShowsWrite(s, pid, statement, [], [Save(p)], user, ttl)
    ensures ResolvesTo(Execute(s.Tables(), statement), user, s.calls[p].value)
  {
    WrittenState(s, pid, statement, [], ttl);
    var s1 := Apply(s, Commit(pid, statement), ttl);
    var s2 := Apply(s1, Drop(pid), ttl);
    OneAction(s2, Save(p), ttl);
    var answers := Apply(s2, Save(p), ttl).answers;
    assert answers[|s2.answers|].value == s.calls[p].value && answers[|s2.answers|].user == user;
  }

  // Whatever overlaps the write and whatever follows, short of another write for the user, from the moment a write
  // has dropped the cached resolution every answer shows it, exactly when at its commit no Resolve of the user held a
  // value, read and not yet stored, that the new tables do not give.
  lemma SeenAtOnceIff(s: State, pid: Pid, statement: Statement, user: Id, ttl: int)
    requires HistorySound(s) && pid !in s.writes && Accepts(s.Tables(), statement)
    requires Invalidates(statement).Includes(user)
    ensures (forall between, later ::
               LeavesAlone(between, user) && LeavesAlone(later, user) && Drop(pid) !in between ==>
                 ShowsWrite(s, pid, statement, between, later, user, ttl))
            <==> NoStaleLoad(s, user, Execute(s.Tables(), statement))
  {
    if NoStaleLoad(s, user, Execute(s.Tables(), statement)) {
      forall between, later | LeavesAlone(between, user) && LeavesAlone(later, user) && Drop(pid) !in between
        ensures ShowsWrite(s, pid, statement, between, later, user, ttl)
      {
        SeenAtOnce(s, pid, statement, between, later, user, ttl);
      }
    } else {
      var p :| p in s.calls && s.calls[p].Loaded? && s.calls[p].user == user
               && !ResolvesTo(Execute(s.Tables(), statement), user, s.calls[p].value);
      if ShowsWrite(s, pid, statement, [], [Save(p)], user, ttl) {
        StaleLoadShows(s, pid, statement, user, p, ttl);
      }
      assert LeavesAlone([], user) && LeavesAlone([Save(p)], user) && Drop(pid) !in [];
    }
  }

  /* ---- The old value coming back ---- */

  function Starting(db: Db): State {
    State(0, [Snapshot(0, db)], map[], map[], map[], map[], [])
  }

  // A Resolve reads before the write and stores after the drop; another one asks then.
  function Straddle(user: Id, value: Resolved, statement: Statement): seq<Action> {
    [Begin("p", user), Read("p", value)] + [Commit("w", statement), Drop("w")] + [Save("p"), Begin("q", user)]
  }

  lemma StraddleReads(db: Db, user: Id, value: Resolved, ttl: int)
    requires ResolvesTo(db, user, value)
    ensures Run(Starting(db), [Begin("p", user), Read("p", value)], ttl)
         == Starting(db).(calls := map["p" := Loaded(user, 0, 0, value)])
  {
    TwoActions(Starting(db), Begin("p", user), Read("p", value), ttl);
  }

  lemma StraddleStores(s: State, user: Id, value: Resolved, ttl: int)
    requires s.history != [] && s.calls == map["p" := Loaded(user, 0, 0, value)] && s.now == 0 && ttl > 0
    ensures var s' := Run(s, [Save("p"), Begin("q", user)], ttl);
            && s'.history == s.history && s'.writes == s.writes && |s'.answers| == |s.answers| + 2
            && s'.answers[|s.answers| + 1].user == user && s'.answers[|s.answers| + 1].value == value
  {
    TwoActions(s, Save("p"), Begin("q", user), ttl);
  }

  // From a start with nothing under way, any write that makes a resolution untrue can be followed by an answer with
  // that resolution.
  lemma LateStoreServesOldValue(db: Db, statement: Statement, user: Id, stale: Resolved, ttl: int)
    requires ForeignKeysHold(db) && Accepts(db, statement) && ttl > 0
    requires ResolvesTo(db, user, stale) && !ResolvesTo(Execute(db, statement), user, stale)
    ensures Initial(Starting(db))
    ensures var s' := Run(Starting(db), Straddle(user, stale, statement), ttl);
            && s'.Tables() == Execute(db, statement) && s'.writes == map[]
            && |s'.answers| == 2 && s'.answers[1].user == user && s'.answers[1].value == stale
            && !ResolvesTo(s'.Tables(), user, s'.answers[1].value)
  {
    var read, write := [Begin("p", user), Read("p", stale)], [Commit("w", statement), Drop("w")];
    RunAppend(Starting(db), read, write, ttl);
    RunAppend(Starting(db), read + write, [Save("p"), Begin("q", user)], ttl);
    StraddleReads(db, user, stale, ttl);
    var s1 := Run(Starting(db), read, ttl);
    TwoActions(s1, Commit("w", statement), Drop("w"), ttl);
    StraddleStores(Run(s1, write, ttl), user, stale, ttl);
  }

  const REPORTS := Permission("reports", "read")
  const READER := Resolved("u", ["reader"], [REPORTS])
  const READER_ROLE := DeleteUserRole("u", "r")
  const WITH_READER := Db(
    {"u"}, map[], {}, map["r" := "reader"], map["p" := REPORTS], {("r", "p")}, {}, {("u", "r")})

  lemma ReaderResolves()
    ensures ResolvesTo(WITH_READER, "u", READER) && Has(READER.permissions, "reports", "read")
  {
    var db := WITH_READER;
    assert EffectiveRoles(db, "u", []) == {"r"} by { assert ("u", "r") in db.userRoles; }
    assert NamesOf(db, {"r"}) == {"reader"};
    assert ("r", "p") in db.rolePermissions;
    assert PermissionsOf(db, {"r"}) == {REPORTS};
    assert ResolvesWith(db, "u", [], READER);
    assert READER.permissions[0].action == "read" && READER.permissions[0].Matches("reports");
  }

  lemma ReaderIsGone()
    ensures var db := Execute(WITH_READER, READER_ROLE);
            !GrantPath(db, "u", "reports", "read") && !ResolvesTo(db, "u", READER)
  {
    var db := Execute(WITH_READER, READER_ROLE);
    assert db.userRoles == {} && db.userGroups == {};
    ReaderResolves();
    if ResolvesTo(db, "u", READER) {
      HasMeansGrantPath(db, "u", READER, "reports", "read");
    }
  }

  // A user loses his only role, and is still told that he holds what it granted.
  lemma RevokedPermissionIsServed(ttl: int) returns (s: State, acts: seq<Action>)
    requires ttl > 0
    ensures Initial(s) && Run(s, acts, ttl).answers != []
    ensures var s' := Run(s, acts, ttl);
            var last := s'.answers[|s'.answers| - 1];
            && s'.writes == map[] && !ResolvesTo(s'.Tables(), last.user, last.value)
            && Has(last.value.permissions, "reports", "read")
            && !GrantPath(s'.Tables(), last.user, "reports", "read")
  {
    s, acts := Starting(WITH_READER), Straddle("u", READER, READER_ROLE);
    ReaderResolves();
    ReaderIsGone();
    LateStoreServesOldValue(WITH_READER, READER_ROLE, "u", READER, ttl);
  }
}
