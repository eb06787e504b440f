/** Walking the group hierarchy: the groups a user belongs to, with all their ancestors. The walk shares one set of
    visited groups between its starting points and gives up after 100 steps from each. */
module Groups {
  import opened Text

  type Id = string  // "" is no group

  // group -> parent group, for the groups that have one
  type Parents = map<Id, Id>

  const GUARD: nat := 100

  function ParentOf(parents: Parents, g: Id): Id {
    if g in parents then parents[g] else ""
  }

  // The group n parent links above `g`
  function Climb(parents: Parents, g: Id, n: nat): Id {
    if n == 0 then g else
    var c := Climb(parents, g, n - 1);
    if c == "" then "" else ParentOf(parents, c)
  }

  ghost predicate Reaches(parents: Parents, g: Id, h: Id) {
    h != "" && exists n: nat :: Climb(parents, g, n) == h
  }

  ghost predicate Settles(parents: Parents, g: Id, k: nat) {
    Climb(parents, g, k) == "" || exists m :: 0 <= m < k && Climb(parents, g, m) == Climb(parents, g, k)
  }

  // Within n links the chain of `g` ends or comes back to a group it has visited.
  ghost predicate Short(parents: Parents, g: Id, n: nat) {
    exists k :: 0 <= k <= n && Settles(parents, g, k)
  }

  /* ---- The walk ---- */

  function Walk(parents: Parents, cur: Id, result: seq<Id>, fuel: nat): seq<Id>
    decreases fuel
  {
    if fuel == 0 || cur == "" || cur in result then result
    else Walk(parents, ParentOf(parents, cur), result + [cur], fuel - 1)
  }

  // What has been collected from the first n starting groups
  function Expanded(parents: Parents, groupIDs: seq<Id>, n: nat): seq<Id>
    requires n <= |groupIDs|
  {
    if n == 0 then [] else Walk(parents, groupIDs[n - 1], Expanded(parents, groupIDs, n - 1), GUARD)
  }

  method ExpandAncestorGroups(parents: Parents, groupIDs: seq<Id>) returns (result: seq<Id>)
    ensures result == Expanded(parents, groupIDs, |groupIDs|)
  {
    if groupIDs == [] { return []; }
    var seen: set<Id> := {};
    result := [];
    for n := 0 to |groupIDs|
      invariant result == Expanded(parents, groupIDs, n)
      invariant seen == set x | x in result
    {
      var cur := groupIDs[n];
      var i := 0;
      while i < GUARD && cur != ""
        invariant 0 <= i <= GUARD
        invariant seen == set x | x in result
        invariant Walk(parents, cur, result, GUARD - i) == Expanded(parents, groupIDs, n + 1)
        decreases GUARD - i
      {
        if cur in seen { break; }
        seen := seen + {cur};
        result := result + [cur];
        cur := ParentOf(parents, cur);
        i := i + 1;
      }
    }
  }

  /* ---- What it collects ---- */

  // Some of the first n starting groups has `h` as itself or as an ancestor.
  ghost predicate ReachedFrom(parents: Parents, groupIDs: seq<Id>, n: nat, h: Id)
    requires n <= |groupIDs|
  {
    exists k :: 0 <= k < n && Reaches(parents, groupIDs[k], h)
  }

  lemma {:induction false} ClimbFrom(parents: Parents, g: Id, n: nat)
    requires g != ""
    ensures Climb(parents, ParentOf(parents, g), n) == Climb(parents, g, n + 1)
  {
    if n > 0 {
      ClimbFrom(parents, g, n - 1);
    } else {
      assert Climb(parents, g, 0) == g;
    }
  }

  // `x` lies fewer than `fuel` links above `cur`.
  ghost predicate Within(parents: Parents, cur: Id, x: Id, fuel: nat) {
    x != "" && exists n :: 0 <= n < fuel && Climb(parents, cur, n) == x
  }

  lemma {:induction false} WalkAddsAncestors(parents: Parents, cur: Id, result: seq<Id>, fuel: nat)
    requires NoDuplicates(result)
    ensures var all := Walk(parents, cur, result, fuel);
            && result <= all && NoDuplicates(all)
            && (fuel > 0 && cur != "" ==> cur in all)
            && forall x :: x in all ==> x in result || Within(parents, cur, x, fuel)
    decreases fuel
  {
    if fuel > 0 && cur != "" && cur !in result {
      var up := ParentOf(parents, cur);
      var all := Walk(parents, up, result + [cur], fuel - 1);
      WalkAddsAncestors(parents, up, result + [cur], fuel - 1);
      assert (result + [cur])[|result|] == cur && all[|result|] == cur;
      forall x | x in all && x !in result ensures Within(parents, cur, x, fuel) {
        if x == cur {
          assert Climb(parents, cur, 0) == x;
        } else {
          assert Within(parents, up, x, fuel - 1);
          var n :| 0 <= n < fuel - 1 && Climb(parents, up, n) == x;
          ClimbFrom(parents, cur, n);
          assert Climb(parents, cur, n + 1) == x;
        }
      }
    }
  }

  // Every chain at all: no duplicates, every starting group, and true ancestors only.
  lemma {:induction false} ExpansionIsSound(parents: Parents, groupIDs: seq<Id>, n: nat)
    requires n <= |groupIDs|
    ensures var all := Expanded(parents, groupIDs, n);
            && NoDuplicates(all)
            && (forall k :: 0 <= k < n && groupIDs[k] != "" ==> groupIDs[k] in all)
            && forall h :: h in all ==> ReachedFrom(parents, groupIDs, n, h)
  {
    if n > 0 {
      var before := Expanded(parents, groupIDs, n - 1);
      ExpansionIsSound(parents, groupIDs, n - 1);
      WalkAddsAncestors(parents, groupIDs[n - 1], before, GUARD);
      var all := Expanded(parents, groupIDs, n);
      forall k | 0 <= k < n && groupIDs[k] != "" ensures groupIDs[k] in all {
        if k < n - 1 { assert groupIDs[k] in before; }
      }
      forall h | h in all ensures ReachedFrom(parents, groupIDs, n, h) {
        if h in before {
          assert ReachedFrom(parents, groupIDs, n - 1, h);
        } else {
          assert Within(parents, groupIDs[n - 1], h, GUARD);
          assert Reaches(parents, groupIDs[n - 1], h);
        }
      }
    }
  }

  // Parents of collected groups are collected, apart perhaps from `cur`.
  predicate ClosedBut(parents: Parents, s: seq<Id>, cur: Id) {
    forall x :: x in s ==> ParentOf(parents, x) == "" || ParentOf(parents, x) in s || ParentOf(parents, x) == cur
  }

  // The walk is i links above its start `g`; at link k the chain settles.
  lemma {:induction false} WalkCloses(parents: Parents, g: Id, i: nat, k: nat, result: seq<Id>, fuel: nat)
    requires i <= k <= i + fuel && Settles(parents, g, k)
    requires forall m :: 0 <= m < i ==> Climb(parents, g, m) in result
    requires ClosedBut(parents, result, Climb(parents, g, i))
    ensures ClosedBut(parents, Walk(parents, Climb(parents, g, i), result, fuel), "")
    decreases fuel
  {
    var cur := Climb(parents, g, i);
    if fuel > 0 && cur != "" && cur !in result {
      assert Climb(parents, g, i + 1) == ParentOf(parents, cur);
      assert k != i;
      WalkCloses(parents, g, i + 1, k, result + [cur], fuel - 1);
    }
  }

  lemma {:induction false} ExpansionCloses(parents: Parents, groupIDs: seq<Id>, n: nat)
    requires n <= |groupIDs|
    requires forall k :: 0 <= k < n ==> Short(parents, groupIDs[k], GUARD)
    ensures ClosedBut(parents, Expanded(parents, groupIDs, n), "")
  {
    if n > 0 {
      var g := groupIDs[n - 1];
      ExpansionCloses(parents, groupIDs, n - 1);
      var k :| 0 <= k <= GUARD && Settles(parents, g, k);
      assert Climb(parents, g, 0) == g;
      WalkCloses(parents, g, 0, k, Expanded(parents, groupIDs, n - 1), GUARD);
    }
  }

  lemma {:induction false} ClosedContainsChain(parents: Parents, s: seq<Id>, g: Id, n: nat)
    requires ClosedBut(parents, s, "") && (g == "" || g in s)
    ensures Climb(parents, g, n) == "" || Climb(parents, g, n) in s
  {
    if n > 0 {
      ClosedContainsChain(parents, s, g, n - 1);
    }
  }

  lemma {:induction false} NothingAboveNothing(parents: Parents, n: nat)
    ensures Climb(parents, "", n) == ""
  {
    if n > 0 { NothingAboveNothing(parents, n - 1); }
  }

  // When the chain of every starting group visits at most 100 groups, cycles included, exactly the groups
  // reachable by parent links are collected.
  lemma ExpansionIsClosure(parents: Parents, groupIDs: seq<Id>)
    requires forall k :: 0 <= k < |groupIDs| ==> Short(parents, groupIDs[k], GUARD)
    ensures forall h :: h in Expanded(parents, groupIDs, |groupIDs|) <==>
                        ReachedFrom(parents, groupIDs, |groupIDs|, h)
  {
    var all := Expanded(parents, groupIDs, |groupIDs|);
    ExpansionIsSound(parents, groupIDs, |groupIDs|);
    ExpansionCloses(parents, groupIDs, |groupIDs|);
    forall h | ReachedFrom(parents, groupIDs, |groupIDs|, h) ensures h in all {
      var k :| 0 <= k < |groupIDs| && Reaches(parents, groupIDs[k], h);
      var n: nat :| Climb(parents, groupIDs[k], n) == h;
      if groupIDs[k] == "" { NothingAboveNothing(parents, n); }
      ClosedContainsChain(parents, all, groupIDs[k], n);
    }
  }

  lemma SameStarts(parents: Parents, a: seq<Id>, b: seq<Id>, h: Id)
    requires forall g :: g in a <==> g in b
    ensures ReachedFrom(parents, a, |a|, h) ==> ReachedFrom(parents, b, |b|, h)
  {
    if ReachedFrom(parents, a, |a|, h) {
      var k :| 0 <= k < |a| && Reaches(parents, a[k], h);
      assert a[k] in b;
    }
  }

  // The order in which the database lists the starting groups does not matter then.
  lemma OrderDoesNotMatter(parents: Parents, a: seq<Id>, b: seq<Id>)
    requires forall g :: g in a <==> g in b
    requires forall k :: 0 <= k < |a| ==> Short(parents, a[k], GUARD)
    ensures forall h :: h in Expanded(parents, a, |a|) <==> h in Expanded(parents, b, |b|)
  {
    forall k | 0 <= k < |b| ensures Short(parents, b[k], GUARD) {
      assert b[k] in a;
    }
    ExpansionIsClosure(parents, a);
    ExpansionIsClosure(parents, b);
    forall h ensures h in Expanded(parents, a, |a|) <==> h in Expanded(parents, b, |b|) {
      SameStarts(parents, a, b, h);
      SameStarts(parents, b, a, h);
    }
  }

  // For one starting group the depth condition is exact: a longer chain loses an ancestor.
  lemma GuardIsExact(parents: Parents, g: Id)
    requires g != ""
    ensures (forall h :: Reaches(parents, g, h) ==> h in Expanded(parents, [g], 1)) <==> Short(parents, g, 100)
  {
    if Short(parents, g, GUARD) {
      ExpansionIsClosure(parents, [g]);
      assert [g][0] == g;
    } else {
      var h := Climb(parents, g, GUARD);
      assert !Settles(parents, g, GUARD);
      assert Reaches(parents, g, h);
      assert Expanded(parents, [g], 0) == [];
      WalkAddsAncestors(parents, g, [], GUARD);
    }
  }

  /* ---- Beyond the guard ---- */

  // The first n groups of the chain of `g`
  function Chain(parents: Parents, g: Id, n: nat): (s: seq<Id>)
    ensures |s| == n && forall i :: 0 <= i < n ==> s[i] == Climb(parents, g, i)
  {
    seq(n, i requires 0 <= i < n => Climb(parents, g, i))
  }

  predicate Linked(parents: Parents, g: Id, chain: seq<Id>) {
    && (chain != [] ==> chain[0] == g)
    && forall i :: 0 <= i < |chain| - 1 ==> chain[i + 1] == ParentOf(parents, chain[i])
  }

  // A chain of new groups is taken up to the guard.
  lemma {:induction false} WalkTakesChain(parents: Parents, g: Id, result: seq<Id>, chain: seq<Id>)
    requires Linked(parents, g, chain) && NoDuplicates(chain)
    requires forall x :: x in chain ==> x != "" && x !in result
    ensures Walk(parents, g, result, |chain|) == result + chain
    decreases |chain|
  {
    if chain == [] {
      assert result + chain == result;
    } else {
      var rest := chain[1..];
      forall x | x in rest ensures x !in result + [g] {
        var i :| 0 <= i < |rest| && rest[i] == x;
        assert x == chain[i + 1] != chain[0];
      }
      WalkTakesChain(parents, ParentOf(parents, g), result + [g], rest);
      assert result + [g] + rest == result + chain;
    }
  }

  lemma LongChain(parents: Parents, g: Id, n: nat)
    requires !Short(parents, g, n)
    ensures var chain := Chain(parents, g, n + 1);
            Linked(parents, g, chain) && NoDuplicates(chain) && "" !in chain
  {
    var chain := Chain(parents, g, n + 1);
    assert chain[0] == Climb(parents, g, 0) == g;
    forall k | 0 <= k <= n ensures chain[k] != "" && forall m :: 0 <= m < k ==> chain[m] != chain[k] {
      assert !Settles(parents, g, k);
      forall m | 0 <= m < k ensures chain[m] != chain[k] { assert chain[m] == Climb(parents, g, m); }
    }
    forall i | 0 <= i < n ensures chain[i + 1] == ParentOf(parents, chain[i]) {
      assert chain[i + 1] == Climb(parents, g, i + 1);
    }
  }

  lemma ExpandedTwo(parents: Parents, a: Id, b: Id)
    ensures Expanded(parents, [a, b], 2) == Walk(parents, b, Walk(parents, a, [], GUARD), GUARD)
  {
    assert Expanded(parents, [a, b], 0) == [] && Expanded(parents, [a, b], 1) == Walk(parents, a, [], GUARD);
  }

  lemma GroupFirst(parents: Parents, g: Id)
    requires g != "" && !Short(parents, g, GUARD)
    ensures Climb(parents, g, GUARD) !in Expanded(parents, [g, ParentOf(parents, g)], 2)
  {
    var p, chain := ParentOf(parents, g), Chain(parents, g, GUARD + 1);
    LongChain(parents, g, GUARD);
    var taken := chain[..GUARD];
    WalkTakesChain(parents, g, [], taken);
    assert p == chain[1] == taken[1];
    ExpandedTwo(parents, g, p);
    assert chain[GUARD] !in taken;
  }

  lemma ParentFirst(parents: Parents, g: Id)
    requires g != "" && !Short(parents, g, GUARD)
    ensures Climb(parents, g, GUARD) in Expanded(parents, [ParentOf(parents, g), g], 2)
  {
    var p, chain := ParentOf(parents, g), Chain(parents, g, GUARD + 1);
    LongChain(parents, g, GUARD);
    var rest := chain[1..];
    WalkTakesChain(parents, p, [], rest);
    ExpandedTwo(parents, p, g);
    assert rest[GUARD - 1] == chain[GUARD];
    WalkAddsAncestors(parents, g, rest, GUARD);
  }

  // The visited set and the guard interfere: whoever starts from a group with a longer chain and from its parent
  // finds the ancestor at the guard if the parent comes first, and misses it if the parent comes second.
  lemma OrderMattersBeyondGuard(parents: Parents, g: Id)
    requires g != "" && !Short(parents, g, 100)
    ensures var p, far := ParentOf(parents, g), Climb(parents, g, 100);
            && far !in Expanded(parents, [g, p], 2)
            && far in Expanded(parents, [p, g], 2)
  {
    GroupFirst(parents, g);
    ParentFirst(parents, g);
  }

  /* ---- Reaching is following links ---- */

  // A path of parent links from `g` to `h`
  predicate IsPath(parents: Parents, path: seq<Id>, g: Id, h: Id) {
    && path != [] && path[0] == g && path[|path| - 1] == h && h != ""
    && forall i :: 0 <= i < |path| - 1 ==> path[i] in parents && path[i + 1] == parents[path[i]]
  }

  lemma {:induction false} PathClimbs(parents: Parents, path: seq<Id>, g: Id, h: Id)
    requires IsPath(parents, path, g, h) && "" !in parents
    ensures Climb(parents, g, |path| - 1) == h
    decreases |path|
  {
    if |path| > 1 {
      var before := path[..|path| - 1];
      assert path[|path| - 2] in parents;
      PathClimbs(parents, before, g, path[|path| - 2]);
    }
  }

  lemma {:induction false} ClimbIsPath(parents: Parents, g: Id, n: nat) returns (path: seq<Id>)
    requires Climb(parents, g, n) != ""
    ensures IsPath(parents, path, g, Climb(parents, g, n))
  {
    if n == 0 {
      path := [g];
    } else {
      path := ClimbIsPath(parents, g, n - 1);
      path := path + [Climb(parents, g, n)];
    }
  }

  // The ancestors of a group are the groups at the ends of the paths of parent links from it.
  lemma ReachesIsPath(parents: Parents, g: Id, h: Id)
    requires "" !in parents
    ensures Reaches(parents, g, h) <==> exists path :: IsPath(parents, path, g, h)
  {
    if Reaches(parents, g, h) {
      var n: nat :| Climb(parents, g, n) == h;
      var path := ClimbIsPath(parents, g, n);
      assert IsPath(parents, path, g, h);
    }
    if path :| IsPath(parents, path, g, h) {
      PathClimbs(parents, path, g, h);
    }
  }
}
