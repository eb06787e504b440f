/** Delegation without any condition on the scope strings. The issuing check reads a scope at its last colon and the
    later use reads it at its first, so a holder of a wildcard can always hand on more than he holds. This module
    proves for exactly which root users no chain of issuances ever gains anything, whatever strings are asked for. */
module AnyScope {
  import opened Text
  import opened Scopes
  import opened Delegation

  ghost predicate IssuedAny(root: seq<Permission>, chain: seq<seq<string>>, n: nat)
    requires n < |chain|
  {
    && Issuer(root, chain, n).MayIssue()
    && forall i :: 0 <= i < |chain[n]| ==> Judge(Issuer(root, chain, n), chain[n][i]).Granted?
  }

  ghost predicate DelegatedAny(root: seq<Permission>, chain: seq<seq<string>>) {
    forall n {:trigger IssuedAny(root, chain, n)} :: 0 <= n < |chain| ==> IssuedAny(root, chain, n)
  }

  ghost predicate GainsAny(root: seq<Permission>, chain: seq<seq<string>>, resource: string, action: string) {
    chain != [] && DelegatedAny(root, chain) && HasScope(chain[|chain| - 1], resource, action)
    && !Has(root, resource, action)
  }

  ghost predicate NeverGainsAny(root: seq<Permission>) {
    forall chain, resource, action :: !GainsAny(root, chain, resource, action)
  }

  // ... with a single issuance, by the root user himself
  ghost predicate NeverGainsAnyAtOnce(root: seq<Permission>) {
    forall scopes, resource, action :: !GainsAny(root, [scopes], resource, action)
  }

  /* ---- Containment of patterns, decided on the strings ---- */

  predicate Includes(p: string, q: string) {
    if p == "*" || !IsWildcard(q) then Covers(p, q)
    else HasSuffix(p, WILD) && HasSuffix(q, WILD) && Inside(CutSuffix(p, WILD).value, CutSuffix(q, WILD).value)
  }

  lemma IncludesContains(p: string, q: string, target: string)
    requires Includes(p, q) && Covers(q, target)
    ensures Covers(p, target)
  {
  }

  lemma FolderAbove(y: string, x: string, tail: string)
    requires HasPrefix(x + "/" + tail, y + "/") && '/' !in tail
    ensures Inside(y, x)
  {
    var t := x + "/" + tail;
    assert t[|y|] == (y + "/")[|y|] == '/';
    assert forall k :: 0 <= k < |tail| ==> t[|x| + 1 + k] == tail[k];
    assert |y| <= |x|;
    assert t[..|y|] == y;
    if |y| < |x| {
      assert t[..|y| + 1] == x[..|y| + 1] == y + "/";
    } else {
      assert t[..|x|] == x;
    }
  }

  // One fresh name decides whether `p` includes the wildcard `q`.
  lemma FreshNameIncludes(p: string, q: string, n: nat)
    requires IsWildcard(q) && |p| <= n && Covers(p, FreshNameOf(n, q))
    ensures Includes(p, q)
  {
    var target, tail := FreshNameOf(n, q), Filler(n + 1);
    if p != "*" {
      var y := WildcardShape(p);
      CoversBelow(y, target);
      assert target[|y|] == (y + "/")[|y|] == '/';
      if q != "*" {
        var x := WildcardShape(q);
        assert target == x + "/" + tail;
        FolderAbove(y, x, tail);
      }
    }
  }

  // Some one permission of the root includes the pattern.
  predicate Includable(root: seq<Permission>, q: string, action: string) {
    exists j :: 0 <= j < |root| && root[j].action == action && Includes(root[j].resource, q)
  }

  // A list of permissions holds all that a pattern covers only if one of them includes it.
  lemma CoveredIsIncludable(root: seq<Permission>, q: string, action: string)
    requires forall target :: Covers(q, target) ==> Has(root, target, action)
    ensures Includable(root, q, action)
  {
    if IsWildcard(q) {
      var n := Longest(root);
      FreshNameTells("", q, n);
      var j :| 0 <= j < |root| && root[j].action == action && root[j].Matches(FreshNameOf(n, q));
      FreshNameIncludes(root[j].resource, q, n);
    } else {
      assert Has(root, q, action);
      var j :| 0 <= j < |root| && root[j].action == action && root[j].Matches(q);
      assert Includes(root[j].resource, q);
    }
  }

  /* ---- The exact condition on the root ---- */

  // What a permission rendered as a scope is later read as
  function Reread(p: Permission): Permission {
    Cut(p.Render()).value
  }

  // A permission that can be written as a scope is no wildcard, and what it is later read as is held as well.
  predicate Closed(root: seq<Permission>) {
    forall i :: 0 <= i < |root| && ':' !in root[i].action ==>
      !IsWildcard(root[i].resource) && Includable(root, Reread(root[i]).resource, Reread(root[i]).action)
  }

  // A plain permission is handed on as it is.
  lemma PlainIsRendered(p: Permission, scope: string)
    requires !IsWildcard(p.resource) && SplitScope(scope).Some?
    requires p.action == SplitScope(scope).value.action && p.Matches(SplitScope(scope).value.resource)
    ensures scope == p.Render() && ':' !in p.action
  {
  }

  // A rendered permission that grants an action without a colon has one colon itself, and is read as it was written.
  lemma ReadAlike(p: Permission, action: string, resource: string)
    requires ':' !in p.action && ':' !in action && ScopeGrants(p.Render(), resource, action)
    ensures p.action == action && p.Matches(resource)
  {
    var scope := p.Render();
    var cut := Cut(scope).value;
    assert scope == cut.resource + [':'] + cut.action;
    CountAround(cut.resource, cut.action, ':');
    CountZero(cut.resource, ':');
    CountZero(cut.action, ':');
    SplitsAgree(scope);
    SplitsAtLast(p.resource, p.action);
    assert cut == p;
    ScopeGrantsAsPermission(scope, resource, action);
  }

  lemma RootHandsOnItsOwn(root: seq<Permission>, scope: string) returns (k: nat)
    requires Closed(root) && Judge(User(root), scope).Granted?
    ensures k < |root| && ':' !in root[k].action && scope == root[k].Render()
  {
    var split := SplitScope(scope).value;
    k :| 0 <= k < |root| && root[k].action == split.action && root[k].Matches(split.resource);
    PlainIsRendered(root[k], scope);
  }

  // The scope through which a client passes the check is the scope it hands on.
  lemma ClientHandsOnItsOwn(root: seq<Permission>, k: nat, scope: string)
    requires Closed(root) && k < |root| && ':' !in root[k].action && SplitScope(scope).Some?
    requires ScopeGrants(root[k].Render(), SplitScope(scope).value.resource, SplitScope(scope).value.action)
    ensures scope == root[k].Render()
  {
    ReadAlike(root[k], SplitScope(scope).value.action, SplitScope(scope).value.resource);
    PlainIsRendered(root[k], scope);
  }

  lemma Checked(root: seq<Permission>, chain: seq<seq<string>>, n: nat, i: nat)
    requires DelegatedAny(root, chain) && n < |chain| && i < |chain[n]|
    ensures Judge(Issuer(root, chain, n), chain[n][i]).Granted?
  {
    assert IssuedAny(root, chain, n);
  }

  lemma HeldScope(held: seq<string>, scope: string) returns (h: nat)
    requires Judge(Client(held), scope).Granted?
    ensures h < |held| && SplitScope(scope).Some?
    ensures ScopeGrants(held[h], SplitScope(scope).value.resource, SplitScope(scope).value.action)
  {
    var split := SplitScope(scope).value;
    h :| 0 <= h < |held| && ScopeGrants(held[h], split.resource, split.action);
  }

  // Under that condition nothing but the root's own permissions is ever handed on.
  lemma {:induction false} OnlyRootPermissions(root: seq<Permission>, chain: seq<seq<string>>, n: nat, i: nat)
    returns (k: nat)
    requires Closed(root) && DelegatedAny(root, chain) && n < |chain| && i < |chain[n]|
    ensures k < |root| && ':' !in root[k].action && chain[n][i] == root[k].Render()
  {
    Checked(root, chain, n, i);
    if n == 0 {
      k := RootHandsOnItsOwn(root, chain[n][i]);
    } else {
      var h := HeldScope(chain[n - 1], chain[n][i]);
      k := OnlyRootPermissions(root, chain, n - 1, h);
      ClientHandsOnItsOwn(root, k, chain[n][i]);
    }
  }

  function LongestAction(root: seq<Permission>): (n: nat)
    ensures forall i :: 0 <= i < |root| ==> |root[i].action| <= n
  {
    if root == [] then 0 else
    var rest := LongestAction(root[1..]);
    if |root[0].action| <= rest then rest else |root[0].action|
  }

  lemma FirstIssuance(root: seq<Permission>, scopes: seq<string>)
    requires User(root).MayIssue()
    requires forall i :: 0 <= i < |scopes| ==> Judge(User(root), scopes[i]).Granted?
    ensures DelegatedAny(root, [scopes])
  {
    assert Issuer(root, [scopes], 0) == User(root);
    assert IssuedAny(root, [scopes], 0);
  }

  lemma OneClient(root: seq<Permission>, scopes: seq<string>, target: string, action: string)
    requires NeverGainsAnyAtOnce(root) && DelegatedAny(root, [scopes]) && HasScope(scopes, target, action)
    ensures Has(root, target, action)
  {
    assert !GainsAny(root, [scopes], target, action);
  }

  // What one issuance by the root user grants
  lemma OneIssuance(root: seq<Permission>, scope: string, target: string, action: string)
    requires NeverGainsAnyAtOnce(root) && User(root).MayIssue()
    requires Judge(User(root), scope).Granted? && ScopeGrants(scope, target, action)
    ensures Has(root, target, action)
  {
    assert [scope][0] == scope;
    assert HasScope([scope], target, action);
    FirstIssuance(root, [scope]);
    OneClient(root, [scope], target, action);
  }

  // Cut at its first colon, a scope keeps all but its head in the action.
  lemma RereadAction(head: string, tail: string)
    ensures var cut := Cut(head + ":" + tail);
            cut.Some? && |cut.value.action| >= |tail|
            && ScopeGrants(head + ":" + tail, cut.value.resource, cut.value.action)
  {
    var scope := head + ":" + tail;
    assert scope[|head|] == ':';
    assert ':' in scope;
    var cut := Cut(scope).value;
    assert scope == cut.resource + ":" + cut.action;
    assert |cut.resource| <= |head|;
  }

  // A wildcard covers names with a colon and any tail.
  lemma WildcardCoversTail(p: string, tail: string) returns (head: string)
    requires IsWildcard(p)
    ensures Covers(p, head + ":" + tail)
  {
    head := "z";
    if p != "*" {
      var prefix := WildcardShape(p);
      head := prefix + "/";
      CoversBelow(prefix, head + ":" + tail);
    }
  }

  // A wildcard at the root is handed on with an action nobody holds.
  lemma WildcardHandsOnMore(root: seq<Permission>, i: nat)
    requires User(root).MayIssue()
    requires i < |root| && ':' !in root[i].action && IsWildcard(root[i].resource)
    ensures !NeverGainsAnyAtOnce(root)
  {
    var action, long := root[i].action, Filler(LongestAction(root) + 1);
    var head := WildcardCoversTail(root[i].resource, long);
    assert root[i].Matches(head + ":" + long);
    SplitsAtLast(head + ":" + long, action);
    var scope, tail := head + ":" + long + ":" + action, long + ":" + action;
    assert scope == head + ":" + tail;
    RereadAction(head, tail);
    var cut := Cut(scope).value;
    assert !Has(root, cut.resource, cut.action);
    if NeverGainsAnyAtOnce(root) {
      OneIssuance(root, scope, cut.resource, cut.action);
    }
  }

  lemma RereadIsHeld(root: seq<Permission>, i: nat, target: string)
    requires NeverGainsAnyAtOnce(root) && User(root).MayIssue() && i < |root| && ':' !in root[i].action
    requires Covers(Reread(root[i]).resource, target)
    ensures Has(root, target, Reread(root[i]).action)
  {
    var scope := root[i].Render();
    SplitsAtLast(root[i].resource, root[i].action);
    assert root[i].Matches(root[i].resource);
    ScopeGrantsAsPermission(scope, target, Reread(root[i]).action);
    OneIssuance(root, scope, target, Reread(root[i]).action);
  }

  lemma ClosedHolds(root: seq<Permission>, chain: seq<seq<string>>, resource: string, action: string)
    requires Closed(root) && chain != [] && DelegatedAny(root, chain)
    requires HasScope(chain[|chain| - 1], resource, action)
    ensures Has(root, resource, action)
  {
    var n := |chain| - 1;
    var h :| 0 <= h < |chain[n]| && ScopeGrants(chain[n][h], resource, action);
    var k := OnlyRootPermissions(root, chain, n, h);
    ScopeGrantsAsPermission(chain[n][h], resource, action);
    var read := Reread(root[k]);
    var j :| 0 <= j < |root| && root[j].action == read.action && Includes(root[j].resource, read.resource);
    IncludesContains(root[j].resource, read.resource, resource);
    assert root[j].Matches(resource);
  }

  lemma NeverGainsIsClosed(root: seq<Permission>)
    requires NeverGainsAnyAtOnce(root) && User(root).MayIssue()
    ensures Closed(root)
  {
    forall i | 0 <= i < |root| && ':' !in root[i].action
      ensures !IsWildcard(root[i].resource)
      ensures Includable(root, Reread(root[i]).resource, Reread(root[i]).action)
    {
      if IsWildcard(root[i].resource) { WildcardHandsOnMore(root, i); }
      forall target | Covers(Reread(root[i]).resource, target) ensures Has(root, target, Reread(root[i]).action) {
        RereadIsHeld(root, i, target);
      }
      CoveredIsIncludable(root, Reread(root[i]).resource, Reread(root[i]).action);
    }
  }

  // Whatever scope strings are asked for, no chain of issuances gains anything exactly when the root user may not
  // issue clients at all, or is closed; and longer chains gain nothing that a single issuance does not.
  lemma AnyScopeNeverGainsIff(root: seq<Permission>)
    ensures NeverGainsAny(root) <==> (Has(root, "api_clients", "manage") ==> Closed(root))
    ensures NeverGainsAny(root) <==> NeverGainsAnyAtOnce(root)
  {
    if NeverGainsAnyAtOnce(root) && User(root).MayIssue() {
      NeverGainsIsClosed(root);
    }
    if User(root).MayIssue() ==> Closed(root) {
      forall chain, resource, action ensures !GainsAny(root, chain, resource, action) {
        if GainsAny(root, chain, resource, action) {
          assert IssuedAny(root, chain, 0);
          ClosedHolds(root, chain, resource, action);
        }
      }
    }
  }

  /* ---- A chain that gains ---- */

  const WITH_COLON: seq<Permission> := [Permission("a:b", "c"), MANAGE]

  lemma TwoColons()
    ensures Count("a:b:c", ':') == 2 && WITH_COLON[0].Render() == "a:b:c" == Permission("a", "b:c").Render()
  {
  }

  lemma TwoColonsRead()
    ensures SplitScope("a:b:c") == Some(WITH_COLON[0]) && Cut("a:b:c") == Some(Permission("a", "b:c"))
  {
    TwoColons();
    SplitsAtLast("a:b", "c");
    CutsAtFirst("a", "b:c");
  }

  lemma TwoColonsUsed()
    ensures HasScope(["a:b:c"], "a", "b:c")
  {
    TwoColonsRead();
    assert ScopeGrants(["a:b:c"][0], "a", "b:c");
  }

  lemma TwoColonsChecked()
    ensures Judge(User(WITH_COLON), "a:b:c").Granted?
  {
    TwoColonsRead();
    assert WITH_COLON[0].Matches("a:b");
  }

  lemma TwoColonsNotHeld()
    ensures !Has(WITH_COLON, "a", "b:c")
  {
    assert WITH_COLON[0].action != "b:c" && WITH_COLON[1].action != "b:c";
  }

  lemma MayIssueIt()
    ensures User(WITH_COLON).MayIssue() && Guarded(WITH_COLON)
  {
    assert WITH_COLON[1].Matches(MANAGE.resource);
    assert !ColonFree(WITH_COLON[0]) && !Nested(MANAGE.resource);
  }

  lemma GainShownAny(root: seq<Permission>, scope: string, resource: string, action: string)
    requires User(root).MayIssue() && Judge(User(root), scope).Granted?
    requires HasScope([scope], resource, action) && !Has(root, resource, action)
    ensures GainsAny(root, [[scope]], resource, action)
  {
    FirstIssuance(root, [scope]);
    assert [[scope]][0] == [scope];
  }

  // With two colons the issuing check and the later use read different permissions out of one scope, and a root user
  // without any wildcard can hand on what he does not hold.
  lemma TwoColonsReadApart()
    ensures Guarded(WITH_COLON) && Count("a:b:c", ':') == 2 && Judge(User(WITH_COLON), "a:b:c").Granted?
    ensures GainsAny(WITH_COLON, [["a:b:c"]], "a", "b:c")
  {
    TwoColons();
    TwoColonsUsed();
    TwoColonsChecked();
    TwoColonsNotHeld();
    MayIssueIt();
    GainShownAny(WITH_COLON, "a:b:c", "a", "b:c");
  }
}
