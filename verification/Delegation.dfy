/** Issuing API clients: nobody may hand on a scope they do not hold. The check treats the requested pattern as a
    plain name; this module proves when that keeps a whole chain of issuances within its root's power. */
module Delegation {
  import opened Text
  import opened Scopes

  const MANAGE := Permission("api_clients", "manage")

  datatype Actor = User(permissions: seq<Permission>) | Client(scopes: seq<string>) | Anonymous {
    predicate Holds(resource: string, action: string) {
      match this
      case User(permissions) => Has(permissions, resource, action)
      case Client(scopes) => HasScope(scopes, resource, action)
      case Anonymous => false
    }

    // The guard of the routes under /api-clients
    predicate MayIssue() {
      Holds(MANAGE.resource, MANAGE.action)
    }
  }

  datatype Verdict = Granted | BadRequest | Forbidden | Unauthorized

  function Judge(actor: Actor, scope: string): Verdict {
    var split := SplitScope(scope);
    if split.None? then BadRequest
    else if actor.Anonymous? then Unauthorized
    else if actor.Holds(split.value.resource, split.value.action) then Granted else Forbidden
  }

  lemma SplitsAtLast(resource: string, action: string)
    requires ':' !in action
    ensures SplitScope(resource + ":" + action) == Some(Permission(resource, action))
  {
    var s := resource + ":" + action;
    var i := LastColon(s);
    assert s[|resource|] == ':';
    assert forall k :: |resource| < k < |s| ==> s[k] == action[k - |resource| - 1];
    assert i == |resource|;
    assert s[..i] == resource && s[i + 1..] == action;
  }

  predicate SplitsInto(scope: string, resource: string, action: string) {
    scope == resource + ":" + action && ':' !in action
  }

  // A scope without a colon is malformed; nobody at all is turned away as such; and of the others a scope is granted
  // exactly when the actor holds its two parts, split at the last colon.
  lemma JudgeExactly(actor: Actor, scope: string)
    ensures Judge(actor, scope).BadRequest? <==> ':' !in scope
    ensures Judge(actor, scope).Unauthorized? <==> ':' in scope && actor.Anonymous?
    ensures Judge(actor, scope).Granted? <==>
            exists resource, action :: SplitsInto(scope, resource, action) && actor.Holds(resource, action)
  {
    if SplitScope(scope).Some? {
      var split := SplitScope(scope).value;
      assert SplitsInto(scope, split.resource, split.action);
      forall resource, action | SplitsInto(scope, resource, action)
        ensures resource == split.resource && action == split.action
      {
        SplitsAtLast(resource, action);
      }
    }
  }

  // Every requested scope is held, and otherwise the first that is not decides the error.
  method RequireOwnScopes(actor: Actor, scopes: seq<string>) returns (v: Verdict)
    ensures v.Granted? <==> forall i :: 0 <= i < |scopes| ==> Judge(actor, scopes[i]).Granted?
    ensures !v.Granted? ==>
              exists i :: 0 <= i < |scopes| && v == Judge(actor, scopes[i])
                          && forall k :: 0 <= k < i ==> Judge(actor, scopes[k]).Granted?
  {
    for n := 0 to |scopes|
      invariant forall k :: 0 <= k < n ==> Judge(actor, scopes[k]).Granted?
    {
      var resource, action, ok := SplitScopeLoop(scopes[n]);
      if !ok { return BadRequest; }
      match actor
      case User(permissions) =>
        if !Has(permissions, resource, action) { return Forbidden; }
      case Client(held) =>
        if !HasScope(held, resource, action) { return Forbidden; }
      case Anonymous =>
        return Unauthorized;
    }
    return Granted;
  }

  // The guard of a route
  function RequirePermission(actor: Actor, resource: string, action: string): (v: Verdict)
    ensures v.Granted? <==> actor.Holds(resource, action)
    ensures v.Unauthorized? <==> actor.Anonymous?
  {
    if actor.Anonymous? then Unauthorized else if actor.Holds(resource, action) then Granted else Forbidden
  }

  // A client is created exactly when the issuer passes the guard and holds every scope it asks for.
  method CreateAPIClient(actor: Actor, scopes: seq<string>) returns (v: Verdict)
    ensures v.Granted? <==>
              actor.MayIssue() && forall i :: 0 <= i < |scopes| ==> Judge(actor, scopes[i]).Granted?
    ensures !actor.MayIssue() ==> v == if actor.Anonymous? then Unauthorized else Forbidden
  {
    v := RequirePermission(actor, MANAGE.resource, MANAGE.action);
    if v != Granted { return; }
    v := RequireOwnScopes(actor, scopes);
  }

  /* ---- Chains of issuances ---- */

  // Who issues the n-th client of a chain: the user at its root, then each client in turn.
  function Issuer(root: seq<Permission>, chain: seq<seq<string>>, n: nat): Actor
    requires n <= |chain|
  {
    if n == 0 then User(root) else Client(chain[n - 1])
  }

  // The n-th client was created: its issuer passed the guard, and the scopes passed the check.
  ghost predicate Issued(root: seq<Permission>, chain: seq<seq<string>>, n: nat)
    requires n < |chain|
  {
    && Issuer(root, chain, n).MayIssue()
    && forall i :: 0 <= i < |chain[n]| ==>
         OneColon(chain[n][i]) && Judge(Issuer(root, chain, n), chain[n][i]).Granted?
  }

  ghost predicate Delegated(root: seq<Permission>, chain: seq<seq<string>>) {
    forall n {:trigger Issued(root, chain, n)} :: 0 <= n < |chain| ==> Issued(root, chain, n)
  }

  // The client at the end of the chain can do something that the user at its root could not.
  ghost predicate Gains(root: seq<Permission>, chain: seq<seq<string>>, resource: string, action: string) {
    chain != [] && Delegated(root, chain) && HasScope(chain[|chain| - 1], resource, action)
    && !Has(root, resource, action)
  }

  ghost predicate NeverGains(root: seq<Permission>) {
    forall chain, resource, action :: !Gains(root, chain, resource, action)
  }

  // ... with a single issuance, by the root user himself
  ghost predicate NeverGainsAtOnce(root: seq<Permission>) {
    forall scopes, resource, action :: !Gains(root, [scopes], resource, action)
  }

  predicate ColonFree(p: Permission) {
    ':' !in p.resource && ':' !in p.action
  }

  // `p` is held for real: by a permission that is not a nested wildcard.
  ghost predicate Anchored(root: seq<Permission>, resource: string, action: string) {
    exists j :: 0 <= j < |root| && root[j].action == action && !Nested(root[j].resource)
                && Covers(root[j].resource, resource)
  }

  // Every nested wildcard x/* that can be written in a scope comes with a plain permission that covers x.
  ghost predicate Guarded(root: seq<Permission>) {
    forall i :: 0 <= i < |root| && ColonFree(root[i]) && Nested(root[i].resource) ==>
      Anchored(root, CutSuffix(root[i].resource, WILD).value, root[i].action)
  }

  lemma AnchoredContains(root: seq<Permission>, resource: string, action: string, target: string)
    requires Anchored(root, resource, action) && Covers(resource, target)
    ensures Anchored(root, target, action)
  {
    var j :| 0 <= j < |root| && root[j].action == action && !Nested(root[j].resource)
             && Covers(root[j].resource, resource);
    LiteralCheckContains(root[j].resource, resource, target);
  }

  lemma WildcardCoversInside(p: string, target: string)
    requires IsWildcard(p) && (Inside(p, target) || target == p + WILD)
    ensures Covers(p, target)
  {
  }

  lemma OneColonParts(scope: string)
    requires OneColon(scope)
    ensures Cut(scope).Some? && SplitScope(scope) == Cut(scope) && ColonFree(Cut(scope).value)
  {
    SplitsAgree(scope);
    CountZero(scope, ':');
  }

  lemma RootCheckAnchors(root: seq<Permission>, resource: string, action: string)
    requires Guarded(root) && Has(root, resource, action) && ColonFree(Permission(resource, action))
    ensures Anchored(root, resource, action)
  {
    var i :| 0 <= i < |root| && root[i].action == action && root[i].Matches(resource);
    if Nested(root[i].resource) {
      var prefix := WildcardShape(root[i].resource);
      CoversBelow(prefix, resource);
      assert prefix <= resource;
      assert ':' !in root[i].resource;
      WildcardCoversInside(prefix, resource);
      AnchoredContains(root, prefix, action, resource);
    }
  }

  // What a client can do, its issuer held as a permission it could write in a scope.
  lemma IssuerHolds(root: seq<Permission>, chain: seq<seq<string>>, n: nat, resource: string, action: string)
    returns (p: Permission)
    requires Delegated(root, chain) && n < |chain| && HasScope(chain[n], resource, action)
    ensures p == Permission(p.resource, action) && ColonFree(p) && Covers(p.resource, resource)
    ensures if n == 0 then Has(root, p.resource, action) else HasScope(chain[n - 1], p.resource, action)
  {
    var i :| 0 <= i < |chain[n]| && ScopeGrants(chain[n][i], resource, action);
    assert Issued(root, chain, n);
    OneColonParts(chain[n][i]);
    ScopeGrantsAsPermission(chain[n][i], resource, action);
    p := Cut(chain[n][i]).value;
  }

  lemma {:induction false} ChainAnchored(
      root: seq<Permission>, chain: seq<seq<string>>, n: nat, resource: string, action: string)
    requires Guarded(root) && Delegated(root, chain) && n < |chain| && HasScope(chain[n], resource, action)
    ensures Anchored(root, resource, action)
  {
    var p := IssuerHolds(root, chain, n, resource, action);
    if n == 0 {
      RootCheckAnchors(root, p.resource, action);
    } else {
      ChainAnchored(root, chain, n - 1, p.resource, action);
    }
    AnchoredContains(root, p.resource, action, resource);
  }

  /* ---- The condition is also necessary ---- */

  function Filler(n: nat): (s: string)
    ensures |s| == n && forall k :: 0 <= k < n ==> s[k] == 'z'
  {
    seq(n, _ => 'z')
  }

  function Longest(root: seq<Permission>): (n: nat)
    ensures forall i :: 0 <= i < |root| ==> |root[i].resource| <= n
  {
    if root == [] then 0 else
    var rest := Longest(root[1..]);
    if |root[0].resource| <= rest then rest else |root[0].resource|
  }

  // A fresh long name below the wildcard `x`
  function FreshNameOf(n: nat, x: string): string {
    (if HasSuffix(x, WILD) then x[..|x| - 1] else "") + Filler(n + 1)
  }

  // A pattern no longer than `n` that covers it covers `x` read as a plain name.
  lemma FreshNameTells(p: string, x: string, n: nat)
    requires IsWildcard(x) && |p| <= n
    ensures Covers(x, FreshNameOf(n, x)) && |FreshNameOf(n, x)| > n
    ensures Covers(p, FreshNameOf(n, x)) ==> Covers(p, x) && (Nested(p) ==> |CutSuffix(p, WILD).value| < |x|)
  {
    var target := FreshNameOf(n, x);
    var head := if HasSuffix(x, WILD) then x[..|x| - 1] else "";
    if x != "*" {
      var w := WildcardShape(x);
      assert head == w + "/";
      CoversBelow(w, target);
    }
    if Covers(p, target) && p != "*" {
      var y := WildcardShape(p);
      CoversBelow(y, target);
      assert target[|y|] == (y + "/")[|y|] == '/';
      assert |y| < |head|;
      assert y + "/" <= x;
      CoversBelow(y, x);
    }
  }

  lemma {:induction false} CoveringIsAnchored(root: seq<Permission>, x: string, action: string)
    requires IsWildcard(x) && ':' !in x && ':' !in action
    requires forall target :: Covers(x, target) ==> Has(root, target, action)
    requires forall i, target :: 0 <= i < |root| && ColonFree(root[i]) && Nested(root[i].resource)
               && Covers(CutSuffix(root[i].resource, WILD).value, target)
               ==> Has(root, target, root[i].action)
    ensures Anchored(root, x, action)
    decreases |x|
  {
    var n := Longest(root);
    var target := FreshNameOf(n, x);
    FreshNameTells("", x, n);
    var j :| 0 <= j < |root| && root[j].action == action && root[j].Matches(target);
    var p := root[j].resource;
    FreshNameTells(p, x, n);
    if Nested(p) {
      var y := WildcardShape(p);
      CoversBelow(y, x);
      assert x != y;
      assert y <= x && ColonFree(root[j]);
      CoveringIsAnchored(root, y, action);
      WildcardCoversInside(y, x);
      AnchoredContains(root, y, action, x);
    }
  }

  lemma NestedIsDelegable(root: seq<Permission>, i: nat, target: string)
    requires NeverGainsAtOnce(root) && User(root).MayIssue()
    requires i < |root| && ColonFree(root[i]) && Nested(root[i].resource)
    requires Covers(CutSuffix(root[i].resource, WILD).value, target)
    ensures Has(root, target, root[i].action)
  {
    var x := WildcardShape(root[i].resource);
    CoversBelow(x, x);
    var p := Permission(x, root[i].action);
    var scope := p.Render();
    CountAround(x, p.action, ':');
    CountZero(x, ':');
    CountZero(p.action, ':');
    assert scope == x + [':'] + p.action;
    OneColonParts(scope);
    RenderingFaithful(p);
    var chain := [[scope]];
    assert root[i].Matches(x);
    assert Delegated(root, chain);
    assert ScopeGrants(chain[0][0], target, p.action);
    assert !Gains(root, [chain[0]], target, p.action);
  }

  lemma NeverGainsIsGuarded(root: seq<Permission>)
    requires NeverGainsAtOnce(root) && User(root).MayIssue()
    ensures Guarded(root)
  {
    forall i | 0 <= i < |root| && ColonFree(root[i]) && Nested(root[i].resource)
      ensures Anchored(root, CutSuffix(root[i].resource, WILD).value, root[i].action)
    {
      var x := WildcardShape(root[i].resource);
      forall target | Covers(x, target) ensures Has(root, target, root[i].action) {
        NestedIsDelegable(root, i, target);
      }
      forall k, target | 0 <= k < |root| && ColonFree(root[k]) && Nested(root[k].resource)
                         && Covers(CutSuffix(root[k].resource, WILD).value, target)
        ensures Has(root, target, root[k].action)
      {
        NestedIsDelegable(root, k, target);
      }
      CoveringIsAnchored(root, x, root[i].action);
    }
  }

  lemma GuardedNeverGains(root: seq<Permission>)
    requires User(root).MayIssue() ==> Guarded(root)
    ensures NeverGains(root)
  {
    forall chain, resource, action ensures !Gains(root, chain, resource, action) {
      if Gains(root, chain, resource, action) {
        assert Issued(root, chain, 0);
        ChainAnchored(root, chain, |chain| - 1, resource, action);
      }
    }
  }

  // Chains whose scopes have one colon each never gain power, whatever their length, exactly when the root user may
  // not issue clients at all, or every nested wildcard he holds is backed by a plain permission. Only the root
  // matters, and longer chains gain nothing that a single issuance by the user does not.
  lemma DelegationNeverGainsIff(root: seq<Permission>)
    ensures NeverGains(root) <==> (Has(root, "api_clients", "manage") ==> Guarded(root))
    ensures NeverGains(root) <==> NeverGainsAtOnce(root)
  {
    if NeverGainsAtOnce(root) && User(root).MayIssue() {
      NeverGainsIsGuarded(root);
    }
    if User(root).MayIssue() ==> Guarded(root) {
      GuardedNeverGains(root);
    }
  }

  lemma CutsAtFirst(resource: string, action: string)
    requires ':' !in resource
    ensures Cut(resource + ":" + action) == Some(Permission(resource, action))
  {
    RenderingFaithful(Permission(resource, action));
  }

  /* ---- Runs that gain ---- */

  lemma TwoParts(resource: string, action: string)
    requires ':' !in resource && ':' !in action
    ensures OneColon(resource + ":" + action)
  {
    CountAround(resource, action, ':');
    CountZero(resource, ':');
    CountZero(action, ':');
  }

  // One plain-text scope, issued by the root user
  lemma PlainIssuance(root: seq<Permission>, p: Permission)
    requires User(root).MayIssue() && ColonFree(p) && Has(root, p.resource, p.action)
    ensures Delegated(root, [[p.Render()]])
    ensures forall target :: p.Matches(target) ==> HasScope([p.Render()], target, p.action)
  {
    SplitsAtLast(p.resource, p.action);
    TwoParts(p.resource, p.action);
    assert Issued(root, [[p.Render()]], 0);
    RenderingFaithful(p);
    forall target | p.Matches(target) ensures HasScope([p.Render()], target, p.action) {
      assert ScopeGrants([p.Render()][0], target, p.action);
    }
  }

  lemma NestedCovers()
    ensures Covers("*/*", "*") && !Covers("*/*", "reports")
  {
    assert "*" + WILD == "*/*";
    CoversBelow("*", "*");
    CoversBelow("*", "reports");
    assert "reports"[0] != ("*" + "/")[0];
  }

  const NESTED: seq<Permission> := [Permission("*/*", "read"), MANAGE]

  lemma NestedHolds()
    ensures User(NESTED).MayIssue() && Has(NESTED, "*", "read") && !Has(NESTED, "reports", "read")
  {
    NestedCovers();
    assert NESTED[0].Matches("*") && NESTED[1].Matches(MANAGE.resource);
  }

  lemma NestedChain()
    ensures Delegated(NESTED, [["*:read"]]) && HasScope(["*:read"], "reports", "read")
  {
    var all := Permission("*", "read");
    assert all.Render() == "*:read";
    NestedHolds();
    PlainIssuance(NESTED, all);
    assert all.Matches("reports");
  }

  lemma GainShown(root: seq<Permission>, scopes: seq<string>, resource: string, action: string)
    requires Delegated(root, [scopes]) && HasScope(scopes, resource, action) && !Has(root, resource, action)
    ensures Gains(root, [scopes], resource, action)
  {
    assert [scopes][|[scopes]| - 1] == scopes;
  }

  // A nested wildcard that nothing backs hands on more than it covers: `*/*` matches the text `*`.
  lemma NestedWildcardHandsOnMore()
    ensures NESTED == [Permission("*/*", "read"), Permission("api_clients", "manage")]
    ensures Gains(NESTED, [["*:read"]], "reports", "read")
  {
    NestedChain();
    NestedHolds();
    GainShown(NESTED, ["*:read"], "reports", "read");
  }
}
