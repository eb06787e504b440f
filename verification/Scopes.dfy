/** Permissions and scopes: the resource patterns, the three copies of the matcher that read them, and what an
    API client can be granted by somebody who holds a given set of permissions. */
module Scopes {
  import opened Text

  const WILD := "/*"

  // Whether resource pattern `p` covers `target`.
  predicate Covers(p: string, target: string) {
    if p == target || p == "*" then true else
    var prefix := CutSuffix(p, WILD);
    prefix.Some? && (target == prefix.value || HasPrefix(target, prefix.value + "/"))
  }

  datatype Permission = Permission(resource: string, action: string) {
    predicate Matches(target: string) {
      Covers(resource, target)
    }

    // Permission.String, the form served to the browser and stored as a scope
    function Render(): string {
      resource + ":" + action
    }
  }

  // Resolved.Has
  predicate Has(permissions: seq<Permission>, resource: string, action: string) {
    exists i :: 0 <= i < |permissions| && permissions[i].action == action && permissions[i].Matches(resource)
  }

  /* ---- Reading a scope string ---- */

  // strings.Cut(s, ":"): at the first colon
  function Cut(s: string): (r: Option<Permission>)
    ensures r.None? <==> ':' !in s
    ensures r.Some? ==> s == r.value.Render() && ':' !in r.value.resource
  {
    var i := IndexOf(s, ':');
    if i < |s| then Some(Permission(s[..i], s[i + 1..])) else None
  }

  // The specification of splitScope: at the last colon
  function LastColon(s: string): (i: int)
    ensures -1 <= i < |s| && forall k :: i < k < |s| ==> s[k] != ':'
    ensures 0 <= i ==> s[i] == ':'
  {
    if s == "" then -1 else
    var last := |s| - 1;
    if s[last] == ':' then last else
    LastColon(s[..last])
  }

  function SplitScope(s: string): (r: Option<Permission>)
    ensures r.None? <==> ':' !in s
    ensures r.Some? ==> s == r.value.Render() && ':' !in r.value.action
  {
    var i := LastColon(s);
    if i < 0 then None else Some(Permission(s[..i], s[i + 1..]))
  }

  // The first colon met from the right is the last one.
  lemma LastColonIs(scope: string, i: int)
    requires -1 <= i < |scope| && forall k :: i < k < |scope| ==> scope[k] != ':'
    requires 0 <= i ==> scope[i] == ':'
    ensures LastColon(scope) == i
  {
  }

  method SplitScopeLoop(scope: string) returns (resource: string, action: string, ok: bool)
    ensures ok <==> SplitScope(scope).Some?
    ensures ok ==> SplitScope(scope) == Some(Permission(resource, action))
  {
    var i := |scope| - 1;
    while i >= 0
      invariant -1 <= i < |scope| && forall k :: i < k < |scope| ==> scope[k] != ':'
    {
      if scope[i] == ':' {
        LastColonIs(scope, i);
        return scope[..i], scope[i + 1..], true;
      }
      i := i - 1;
    }
    LastColonIs(scope, -1);
    return "", "", false;
  }

  predicate OneColon(scope: string) {
    Count(scope, ':') == 1
  }

  // The issuing check and the later use of a scope read the same resource and action out of it exactly when the
  // scope has at most one colon.
  lemma SplitsAgree(scope: string)
    ensures SplitScope(scope) == Cut(scope) <==> Count(scope, ':') <= 1
  {
    CountZero(scope, ':');
    if ':' in scope {
      var first, last := Cut(scope).value, SplitScope(scope).value;
      assert scope == first.resource + [':'] + first.action == last.resource + [':'] + last.action;
      CountAround(first.resource, first.action, ':');
      CountAround(last.resource, last.action, ':');
      CountZero(first.resource, ':');
      CountZero(first.action, ':');
      CountZero(last.resource, ':');
      CountZero(last.action, ':');
      if ':' !in last.resource {
        FirstSplitUnique(first.resource, first.action, last.resource, last.action, ':');
      }
    }
  }

  /* ---- The two string matchers ---- */

  // Client.HasScope for one scope
  predicate ScopeGrants(scope: string, resource: string, action: string) {
    var cut := Cut(scope);
    if cut.None? || cut.value.action != action then false
    else if cut.value.resource == resource || cut.value.resource == "*" then true
    else
      var prefix := CutSuffix(cut.value.resource, WILD);
      prefix.Some? && (resource == prefix.value || HasPrefix(resource, prefix.value + "/"))
  }

  // Client.HasScope
  predicate HasScope(scopes: seq<string>, resource: string, action: string) {
    exists i :: 0 <= i < |scopes| && ScopeGrants(scopes[i], resource, action)
  }

  // The browser's test of one permission string: indexOf, slice, endsWith, startsWith
  predicate BrowserGrants(p: string, resource: string, action: string) {
    var sep := IndexOf(p, ':');
    if sep == |p| then false else
    var res, act := p[..sep], p[sep + 1..];
    if act != action then false
    else if res == resource || res == "*" then true
    else if HasSuffix(res, WILD) then
      var prefix := res[..|res| - 2];
      resource == prefix || HasPrefix(resource, prefix + "/")
    else false
  }

  // hasPermission in web/lib/permissions.ts
  predicate BrowserHasPermission(permissions: seq<string>, resource: string, action: string) {
    exists i :: 0 <= i < |permissions| && BrowserGrants(permissions[i], resource, action)
  }

  function Rendered(permissions: seq<Permission>): (r: seq<string>)
    ensures |r| == |permissions| && forall i :: 0 <= i < |r| ==> r[i] == permissions[i].Render()
  {
    seq(|permissions|, i requires 0 <= i < |permissions| => permissions[i].Render())
  }

  lemma ScopeGrantsAsPermission(scope: string, resource: string, action: string)
    ensures ScopeGrants(scope, resource, action) <==>
            Cut(scope).Some? && Cut(scope).value.action == action && Cut(scope).value.Matches(resource)
  {
  }

  // Cutting at the first colon undoes the rendering exactly when the resource has no colon, and this is also
  // exactly when the rendered permission grants what the permission grants.
  lemma RenderingFaithful(p: Permission)
    ensures Cut(p.Render()) == Some(p) <==> ':' !in p.resource
    ensures (forall resource, action ::
               ScopeGrants(p.Render(), resource, action) <==> p.action == action && p.Matches(resource))
            <==> ':' !in p.resource
  {
    var cut := Cut(p.Render()).value;
    assert p.Render() == cut.resource + [':'] + cut.action == p.resource + [':'] + p.action;
    if ':' !in p.resource {
      FirstSplitUnique(cut.resource, cut.action, p.resource, p.action, ':');
      assert cut == p;
    } else {
      assert cut.resource != p.resource;
      assert |cut.action| != |p.action| by {
        assert |cut.resource| != |p.resource| by {
          assert cut.resource == p.Render()[..|cut.resource|];
          assert p.resource == p.Render()[..|p.resource|];
        }
      }
      assert p.Matches(p.resource) && !ScopeGrants(p.Render(), p.resource, p.action);
    }
  }

  // On any list of strings at all, the browser and the API client check agree.
  lemma BrowserAgreesWithScope(strings: seq<string>, resource: string, action: string)
    ensures BrowserHasPermission(strings, resource, action) <==> HasScope(strings, resource, action)
  {
  }

  // The server's permissions, an API client's scopes and the browser's permission strings are one language.
  lemma MatchersAgree(permissions: seq<Permission>, resource: string, action: string)
    requires forall i :: 0 <= i < |permissions| ==> ':' !in permissions[i].resource
    ensures Has(permissions, resource, action) <==> HasScope(Rendered(permissions), resource, action)
    ensures Has(permissions, resource, action) <==> BrowserHasPermission(Rendered(permissions), resource, action)
  {
    var rendered := Rendered(permissions);
    forall i | 0 <= i < |permissions|
      ensures ScopeGrants(rendered[i], resource, action) <==>
              permissions[i].action == action && permissions[i].Matches(resource)
    {
      RenderingFaithful(permissions[i]);
    }
    BrowserAgreesWithScope(rendered, resource, action);
  }

  // A pattern covers its own name; `*` covers everything; `x/*` covers x and all below it; and that is all.
  lemma CoversExactly(p: string, target: string)
    ensures Covers(p, target) <==>
            || p == target || p == "*"
            || exists folder :: p == folder + "/*" && (target == folder || folder + "/" <= target)
  {
    if HasSuffix(p, WILD) {
      assert p == p[..|p| - 2] + "/*";
    }
    if folder :| p == folder + "/*" && (target == folder || folder + "/" <= target) {
      assert p[|folder|..] == WILD && p[..|p| - 2] == folder;
    }
  }

  /* ---- When the literal check of a pattern implies containment ---- */

  // `*` or `.../*`
  predicate IsWildcard(p: string) {
    p == "*" || HasSuffix(p, WILD)
  }

  // A wildcard below a wildcard: `*/*` or `.../*/*`
  predicate Nested(p: string) {
    var prefix := CutSuffix(p, WILD);
    prefix.Some? && IsWildcard(prefix.value)
  }

  // `target` is the folder `prefix` or lies in it.
  predicate Inside(prefix: string, target: string) {
    target == prefix || HasPrefix(target, prefix + "/")
  }

  lemma CoversBelow(prefix: string, target: string)
    ensures Covers(prefix + WILD, target) <==> Inside(prefix, target)
  {
  }

  lemma WildcardShape(p: string) returns (prefix: string)
    requires HasSuffix(p, WILD)
    ensures p == prefix + WILD && CutSuffix(p, WILD) == Some(prefix) && p != "*"
  {
    prefix := p[..|p| - 2];
  }

  lemma InsideTransitive(outer: string, inner: string, target: string)
    requires Inside(outer, inner) && Inside(inner, target)
    ensures Inside(outer, target)
  {
  }

  // A folder that contains the text of a wildcard pattern contains the folder of the pattern.
  lemma InsideWildcard(outer: string, inner: string)
    requires HasPrefix(inner + WILD, outer + "/")
    ensures Inside(outer, inner)
  {
    var q := inner + WILD;
    assert q[|outer|] == (outer + "/")[|outer|] == '/';
    if |inner| < |outer| + 1 {
      assert q[|inner| + 1] == '*';
      assert |inner| == |outer|;
      assert inner == q[..|inner|] && outer == q[..|inner|];
    }
  }

  // What a pattern in a folder covers lies in the folder, if the folder is not itself named like a wildcard.
  lemma FolderContains(outer: string, q: string, target: string)
    requires !IsWildcard(outer) && Inside(outer, q) && Covers(q, target)
    ensures Inside(outer, target)
  {
    if q != target {
      assert q != outer;
      assert q[|outer|] == (outer + "/")[|outer|] == '/';
      assert q != "*";
      var inner := WildcardShape(q);
      CoversBelow(inner, target);
      InsideWildcard(outer, inner);
      InsideTransitive(outer, inner, target);
    }
  }

  // Holding `p` and passing the check for pattern `q` as if it were a plain name means holding all that `q` covers.
  lemma LiteralCheckContains(p: string, q: string, target: string)
    requires !Nested(p) && Covers(p, q) && Covers(q, target)
    ensures Covers(p, target)
  {
    if p != q && p != "*" {
      var outer := WildcardShape(p);
      CoversBelow(outer, q);
      FolderContains(outer, q, target);
      CoversBelow(outer, target);
    }
  }

  // The literal check implies containment for every scope exactly when the held pattern is not a nested wildcard.
  lemma LiteralCheckSoundIff(p: string)
    ensures (forall q, target :: Covers(p, q) && Covers(q, target) ==> Covers(p, target)) <==> !Nested(p)
  {
    if !Nested(p) {
      forall q, target | Covers(p, q) && Covers(q, target) ensures Covers(p, target) {
        LiteralCheckContains(p, q, target);
      }
    } else {
      var q := WildcardShape(p);
      CoversBelow(q, q);
      if q == "*" {
        CoversBelow(q, "");
        assert Covers(p, q) && Covers(q, "") && !Covers(p, "");
      } else {
        var x := WildcardShape(q);
        CoversBelow(x, x);
        CoversBelow(q, x);
        assert Covers(p, q) && Covers(q, x) && !Covers(p, x);
      }
    }
  }
}
