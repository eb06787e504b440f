/** The migration runner: each call reads which migrations are recorded, and applies the missing ones of its own
    release in order, each in one transaction with its record. Calls may fail, crash and run side by side. */
module Migrations {
  import opened Text

  // Throughout, `names` are the migration files of all releases, sorted and without repetition; each release ships
  // the first so many of them.

  // The names that have not been applied
  function Missing(names: seq<string>, applied: set<string>): seq<string> {
    if names == [] then [] else
    (if names[0] in applied then [] else [names[0]]) + Missing(names[1..], applied)
  }

  // When the record is a prefix of the names, what is missing is the rest of them.
  lemma {:induction false} MissingIsRest(names: seq<string>, applied: set<string>, k: nat)
    requires k <= |names| && NoDuplicates(names)
    requires forall i :: 0 <= i < |names| ==> (names[i] in applied <==> i < k)
    ensures Missing(names, applied) == names[k..]
  {
    if names != [] {
      MissingIsRest(names[1..], applied, if k == 0 then 0 else k - 1);
    }
  }

  lemma {:induction false} MissingSplits(first: seq<string>, rest: seq<string>, applied: set<string>)
    ensures Missing(first + rest, applied) == Missing(first, applied) + Missing(rest, applied)
  {
    if first == [] {
      assert first + rest == rest;
    } else {
      assert (first + rest)[1..] == first[1..] + rest;
      MissingSplits(first[1..], rest, applied);
    }
  }

  // The next name adds itself to what is missing so far, unless it has been applied.
  lemma MissingGrows(names: seq<string>, applied: set<string>, i: nat)
    requires i < |names|
    ensures var done := Missing(names[..i], applied) + if names[i] in applied then [] else [names[i]];
            Missing(names[..i + 1], applied) == done && done <= Missing(names, applied)
  {
    assert names[..i + 1] == names[..i] + [names[i]] && [names[i]][1..] == [];
    MissingSplits(names[..i], [names[i]], applied);
    assert names == names[..i + 1] + names[i + 1..];
    MissingSplits(names[..i + 1], names[i + 1..], applied);
  }

  lemma {:induction false} MissingIsListed(names: seq<string>, applied: set<string>, x: string)
    ensures x in Missing(names, applied) <==> x in names && x !in applied
  {
    if names != [] {
      MissingIsListed(names[1..], applied, x);
      assert names == [names[0]] + names[1..];
    }
  }

  lemma MissingIsNew(names: seq<string>, applied: set<string>, i: nat)
    requires NoDuplicates(names) && i < |names|
    ensures names[i] !in Missing(names[..i], applied)
  {
    if names[i] in Missing(names[..i], applied) {
      MissingIsListed(names[..i], applied, names[i]);
    }
  }

  // What is missing before the i-th name, itself missing, is a proper beginning of all that is missing.
  lemma MissingStops(names: seq<string>, applied: set<string>, i: nat)
    requires i < |names| && names[i] !in applied
    ensures var done, all := Missing(names[..i], applied), Missing(names, applied);
            |done| < |all| && all[..|done|] == done
  {
    MissingGrows(names, applied, i);
  }

  class Schema {
    var recorded: seq<string>  // schema_migrations, in the order of the commits

    constructor ()
      ensures recorded == []
    {
      recorded := [];
    }

    // One transaction: the statements of the migration and its record, or nothing
    method ApplyMigration(name: string, works: bool) returns (ok: bool)
      modifies this
      ensures ok <==> works && name !in old(recorded)
      ensures recorded == if ok then old(recorded) + [name] else old(recorded)
    {
      if !works || name in recorded { return false; }
      recorded := recorded + [name];
      return true;
    }

    // `budget` is the number of transactions that work before one fails.
    method Migrate(names: seq<string>, budget: nat) returns (ok: bool)
      requires NoDuplicates(names)
      modifies this
      ensures var missing := Missing(names, set x | x in old(recorded));
              && (ok <==> |missing| <= budget)
              && recorded == old(recorded) + if ok then missing else missing[..budget]
    {
      var applied := set x | x in recorded;
      var start := |recorded|;
      assert names[..0] == [];
      for i := 0 to |names|
        invariant applied == set x | x in old(recorded)
        invariant start == |old(recorded)| && recorded == old(recorded) + Missing(names[..i], applied)
        invariant |Missing(names[..i], applied)| <= budget
      {
        MissingGrows(names, applied, i);
        if names[i] in applied {
          continue;
        }
        MissingIsNew(names, applied, i);
        var worked := ApplyMigration(names[i], |recorded| - start < budget);
        if !worked {
          MissingStops(names, applied, i);
          return false;
        }
      }
      assert names[..|names|] == names;
      return true;
    }
  }

  /* ---- Several instances at once ---- */

  type Pid = string

  // A call of the release with `size` migrations, at position `next` of its list
  datatype Call = Call(size: nat, applied: set<string>, next: nat)

  datatype Result = Result(size: nat, ok: bool)

  datatype State = State(recorded: seq<string>, calls: map<Pid, Call>, results: seq<Result>)

  datatype Outcome = Committed | CommittedUnseen | Failed

  datatype Action = Start(pid: Pid, size: nat) | Step(pid: Pid, outcome: Outcome) | Crash(pid: Pid)

  function Ended(s: State, pid: Pid, ok: bool): State
    requires pid in s.calls
  {
    s.(calls := s.calls - {pid}, results := s.results + [Result(s.calls[pid].size, ok)])
  }

  function Apply(names: seq<string>, s: State, a: Action): State {
    match a
    case Start(pid, size) =>
      if pid in s.calls || size > |names| then s
      else s.(calls := s.calls[pid := Call(size, set x | x in s.recorded, 0)])
    case Crash(pid) => s.(calls := s.calls - {pid})
    case Step(pid, outcome) =>
      if pid !in s.calls then s else
      var call := s.calls[pid];
      if call.next >= |names| || call.next >= call.size then Ended(s, pid, true) else
      var name := names[call.next];
      var moved := s.calls[pid := call.(next := call.next + 1)];
      if name in call.applied then s.(calls := moved)
      else if outcome.Failed? || name in s.recorded then Ended(s, pid, false)  // rolled back
      else
        var committed := s.(recorded := s.recorded + [name]);
        if outcome.Committed? then committed.(calls := moved) else Ended(committed, pid, false)
  }

  function Run(names: seq<string>, s: State, acts: seq<Action>): State
    decreases |acts|
  {
    if acts == [] then s else Run(names, Apply(names, s, acts[0]), acts[1..])
  }

  const START := State([], map[], [])

  ghost predicate CallSound(names: seq<string>, s: State, call: Call) {
    && call.size <= |names|
    && call.next <= |s.recorded|
    && exists m :: 0 <= m <= |s.recorded| && m <= |names| && call.applied == set x | x in names[..m]
  }

  ghost predicate Inv(names: seq<string>, s: State) {
    && s.recorded <= names
    && (forall pid :: pid in s.calls ==> CallSound(names, s, s.calls[pid]))
    && (forall i :: 0 <= i < |s.results| && s.results[i].ok ==> s.results[i].size <= |s.recorded|)
  }

  lemma CallStaysSound(names: seq<string>, s: State, s': State, call: Call)
    requires CallSound(names, s, call) && |s.recorded| <= |s'.recorded|
    ensures CallSound(names, s', call)
  {
  }

  // A name that the call has found applied is recorded before the place the call has come to, or at it.
  lemma AppliedIsRecorded(names: seq<string>, s: State, call: Call)
    requires NoDuplicates(names) && s.recorded <= names && CallSound(names, s, call)
    requires call.next < |names| && names[call.next] in call.applied
    ensures call.next < |s.recorded|
  {
    var m :| 0 <= m <= |s.recorded| && m <= |names| && call.applied == set x | x in names[..m];
    var k :| 0 <= k < m && names[..m][k] == names[call.next];
    assert k == call.next;
  }

  // What is not recorded comes right after the record.
  lemma NextIsRecorded(names: seq<string>, s: State, call: Call)
    requires s.recorded <= names && CallSound(names, s, call)
    requires call.next < |names| && names[call.next] !in s.recorded
    ensures s.recorded + [names[call.next]] == names[..call.next + 1]
  {
    assert forall i :: 0 <= i < |s.recorded| ==> s.recorded[i] == names[i];
    assert call.next == |s.recorded|;
  }

  lemma StepGrowsRecord(names: seq<string>, s: State, a: Action)
    requires NoDuplicates(names) && Inv(names, s)
    ensures s.recorded <= Apply(names, s, a).recorded <= names
  {
    if a.Step? && a.pid in s.calls {
      var call := s.calls[a.pid];
      if call.next < |names| && names[call.next] !in s.recorded {
        NextIsRecorded(names, s, call);
      }
    }
  }

  lemma StepKeepsCall(names: seq<string>, s: State, a: Action, pid: Pid)
    requires NoDuplicates(names) && Inv(names, s) && pid in Apply(names, s, a).calls
    requires s.recorded <= Apply(names, s, a).recorded
    ensures CallSound(names, Apply(names, s, a), Apply(names, s, a).calls[pid])
  {
    var s' := Apply(names, s, a);
    if pid in s.calls {
      CallStaysSound(names, s, s', s.calls[pid]);
      var call := s.calls[pid];
      if call.next < |names| && names[call.next] in call.applied {
        AppliedIsRecorded(names, s, call);
      }
      if call.next < |names| && names[call.next] !in s.recorded {
        NextIsRecorded(names, s, call);
      }
    } else {
      assert names[..|s.recorded|] == s.recorded;
    }
  }

  // What a call has passed is recorded, and what it does not find applied is not before the end of the record.
  lemma StepKeepsInv(names: seq<string>, s: State, a: Action)
    requires NoDuplicates(names) && Inv(names, s)
    ensures Inv(names, Apply(names, s, a)) && s.recorded <= Apply(names, s, a).recorded
  {
    var s' := Apply(names, s, a);
    StepGrowsRecord(names, s, a);
    forall pid | pid in s'.calls ensures CallSound(names, s', s'.calls[pid]) {
      StepKeepsCall(names, s, a, pid);
    }
  }

  lemma {:induction false} RunKeepsInv(names: seq<string>, s: State, acts: seq<Action>)
    requires NoDuplicates(names) && Inv(names, s)
    ensures Inv(names, Run(names, s, acts)) && s.recorded <= Run(names, s, acts).recorded
    decreases |acts|
  {
    if acts != [] {
      StepKeepsInv(names, s, acts[0]);
      RunKeepsInv(names, Apply(names, s, acts[0]), acts[1..]);
    }
  }

  // Over any interleaving of calls of any releases, with failures, lost answers and crashes, the record is a prefix
  // of the sorted names, so every migration commits once and in order, and a call that succeeds leaves all of its
  // release recorded.
  lemma RecordIsPrefix(names: seq<string>, acts: seq<Action>)
    requires NoDuplicates(names)
    ensures var s := Run(names, START, acts);
            && s.recorded <= names
            && forall i :: 0 <= i < |s.results| && s.results[i].ok ==>
                 s.results[i].size <= |s.recorded| && names[..s.results[i].size] <= s.recorded
  {
    RunKeepsInv(names, START, acts);
  }

  function Steps(pid: Pid, n: nat): seq<Action> {
    seq(n, _ => Step(pid, Committed))
  }

  // A call that finds its release recorded changes nothing and succeeds.
  lemma {:induction false} SettledCallChangesNothing(names: seq<string>, s: State, pid: Pid, left: nat)
    requires pid in s.calls && s.calls[pid].next + left == s.calls[pid].size <= |names|
    requires forall x :: x in names[..s.calls[pid].size] ==> x in s.calls[pid].applied
    ensures Run(names, s, Steps(pid, left + 1)) == Ended(s, pid, true)
    decreases left
  {
    var call := s.calls[pid];
    var s' := Apply(names, s, Step(pid, Committed));
    assert Steps(pid, left + 1)[1..] == Steps(pid, left);
    if left > 0 {
      assert names[..call.size][call.next] == names[call.next];
      SettledCallChangesNothing(names, s', pid, left - 1);
      assert s'.calls - {pid} == s.calls - {pid};
    } else {
      assert Steps(pid, 0) == [];
    }
  }

  lemma SecondCallChangesNothing(names: seq<string>, s: State, pid: Pid, size: nat)
    requires Inv(names, s) && pid !in s.calls && size <= |s.recorded|
    ensures Run(names, s, [Start(pid, size)] + Steps(pid, size + 1)) == s.(results := s.results + [Result(size, true)])
  {
    var s' := Apply(names, s, Start(pid, size));
    assert names[..size] == s.recorded[..size];
    assert ([Start(pid, size)] + Steps(pid, size + 1))[1..] == Steps(pid, size + 1);
    SettledCallChangesNothing(names, s', pid, size);
    assert s'.calls - {pid} == s.calls;
  }

  // A transaction that fails and a process that crashes leave no trace in the record; and the record grows by the
  // next missing name of a call at most.
  lemma StepRecordsAtMostItsName(names: seq<string>, s: State, a: Action)
    ensures a.Crash? || a.Start? || (a.Step? && a.outcome.Failed?) ==> Apply(names, s, a).recorded == s.recorded
    ensures Apply(names, s, a).recorded != s.recorded ==>
              && a.Step? && a.pid in s.calls && s.calls[a.pid].next < |names|
              && Apply(names, s, a).recorded == s.recorded + [names[s.calls[a.pid].next]]
    ensures a.Crash? ==> a.pid !in Apply(names, s, a).calls && Apply(names, s, a).results == s.results
  {
  }

  // A commit whose answer is lost is as good as any other for the record, but ends the call with a failure.
  lemma UnseenCommitCounts(names: seq<string>, s: State, pid: Pid)
    ensures var seen, unseen := Apply(names, s, Step(pid, Committed)), Apply(names, s, Step(pid, CommittedUnseen));
            && unseen.recorded == seen.recorded
            && (unseen.recorded != s.recorded ==>
                  pid in s.calls && pid !in unseen.calls
                  && unseen.results == s.results + [Result(s.calls[pid].size, false)])
  {
  }

  /* ---- A call that is left alone completes its release ---- */

  // The call stands at `next`, and everything before it is recorded.
  ghost predicate Underway(names: seq<string>, s: State, pid: Pid, start: nat) {
    && pid in s.calls && s.recorded <= names && start <= |names|
    && s.calls[pid].applied == (set x | x in names[..start])
    && s.calls[pid].next <= s.calls[pid].size <= |names|
    && |s.recorded| == if s.calls[pid].next < start then start else s.calls[pid].next
  }

  lemma StepsOn(names: seq<string>, s: State, pid: Pid, start: nat)
    requires NoDuplicates(names) && Underway(names, s, pid, start) && s.calls[pid].next < s.calls[pid].size
    ensures var s' := Apply(names, s, Step(pid, Committed));
            && Underway(names, s', pid, start) && s'.results == s.results && s'.calls - {pid} == s.calls - {pid}
            && s'.calls[pid].size == s.calls[pid].size && s'.calls[pid].next == s.calls[pid].next + 1
  {
    var call := s.calls[pid];
    var name := names[call.next];
    if call.next < start {
      assert names[..start][call.next] == name;
    } else {
      assert name !in names[..start];
      assert s.recorded == names[..call.next];
      assert name !in s.recorded;
      assert s.recorded + [name] == names[..call.next + 1];
    }
  }

  lemma {:induction false} StepsComplete(names: seq<string>, s: State, pid: Pid, start: nat, left: nat)
    requires NoDuplicates(names) && Underway(names, s, pid, start) && s.calls[pid].next + left == s.calls[pid].size
    ensures var size, s' := s.calls[pid].size, Run(names, s, Steps(pid, left + 1));
            && s'.recorded == names[..if size < start then start else size]
            && s'.results == s.results + [Result(size, true)] && s'.calls == s.calls - {pid}
    decreases left
  {
    var s' := Apply(names, s, Step(pid, Committed));
    assert Steps(pid, left + 1)[1..] == Steps(pid, left);
    if left > 0 {
      StepsOn(names, s, pid, start);
      StepsComplete(names, s', pid, start, left - 1);
    } else {
      assert Steps(pid, 0) == [];
    }
  }

  // From whatever a run has come to, one call that nobody disturbs and whose transactions work records exactly what
  // is missing of its release, in order, and succeeds.
  lemma UndisturbedCallCompletes(names: seq<string>, s: State, pid: Pid, size: nat)
    requires NoDuplicates(names) && Inv(names, s) && pid !in s.calls && size <= |names|
    ensures var s', done := Run(names, s, [Start(pid, size)] + Steps(pid, size + 1)), |s.recorded|;
            && s'.recorded == names[..if size < done then done else size]
            && s'.results == s.results + [Result(size, true)] && s'.calls == s.calls
  {
    var s1 := Apply(names, s, Start(pid, size));
    assert s.recorded == names[..|s.recorded|];
    assert ([Start(pid, size)] + Steps(pid, size + 1))[1..] == Steps(pid, size + 1);
    StepsComplete(names, s1, pid, |s.recorded|, size);
    assert s1.calls - {pid} == s.calls;
  }
}
