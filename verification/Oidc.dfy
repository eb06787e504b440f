/** The OpenID Connect grants: authorization codes bound to a client, a redirect URI and a PKCE challenge, refresh
    tokens rotated on use, and client credentials. Records live in the cache under the code, or under the hash of
    the refresh token. */
module Oidc {
  import opened Text
  import opened TimedCache

  datatype Client = Client(secretHash: string, redirectURIs: seq<string>, allowedScopes: seq<string>)

  datatype Record =
    | Blank
    | CodeRecord(
        clientID: string, redirectURI: string, scope: string, userID: string, challenge: string, transform: string)
    | RefreshRecord(clientID: string, userID: string, scope: string)

  // Base64 of SHA-256 for tokens and PKCE verifiers, hex of SHA-256 for client secrets
  datatype Config = Config(tokenHash: string -> string, secretHash: string -> string, refreshTTL: int)

  ghost predicate Injective(f: string -> string) {
    forall x, y :: f(x) == f(y) ==> x == y
  }

  const CODE_TTL := 120  // two minutes, in seconds
  const CODE_PREFIX := "oidc:code:"
  const REFRESH_PREFIX := "oidc:refresh:"

  function CodeKey(code: string): string {
    CODE_PREFIX + code
  }

  function RefreshKey(cfg: Config, token: string): string {
    REFRESH_PREFIX + cfg.tokenHash(token)
  }

  lemma CodeKeysApart(c: string, d: string)
    ensures CodeKey(c) == CodeKey(d) ==> c == d
  {
    assert c == CodeKey(c)[|CODE_PREFIX|..] && d == CodeKey(d)[|CODE_PREFIX|..];
  }

  lemma TokenKeysApart(cfg: Config, t: string, u: string)
    requires Injective(cfg.tokenHash)
    ensures RefreshKey(cfg, t) == RefreshKey(cfg, u) ==> t == u
  {
    assert cfg.tokenHash(t) == RefreshKey(cfg, t)[|REFRESH_PREFIX|..];
    assert cfg.tokenHash(u) == RefreshKey(cfg, u)[|REFRESH_PREFIX|..];
  }

  lemma KindsApart(cfg: Config, c: string, t: string)
    ensures CodeKey(c) != RefreshKey(cfg, t)
  {
    assert CodeKey(c)[5] == 'c' && RefreshKey(cfg, t)[5] == 'r';
  }

  /* ---- The requests ---- */

  type Clients = map<string, Client>

  datatype Grant = Grant(clientID: string, userID: string, scope: string, refresh: Option<string>)

  // The cache after a request, and the tokens it was answered with
  datatype Outcome = Outcome(store: Store<Record>, grant: Option<Grant>)

  datatype AuthorizeRequest = AuthorizeRequest(
    clientID: string, redirectURI: string, scope: string, challenge: string, challengeMethod: string, userID: string)

  function RecordOf(req: AuthorizeRequest): Record {
    CodeRecord(req.clientID, req.redirectURI, req.scope, req.userID, req.challenge, req.challengeMethod)
  }

  predicate MayAuthorize(clients: Clients, req: AuthorizeRequest) {
    && req.clientID in clients && req.redirectURI in clients[req.clientID].redirectURIs
    && req.challenge != "" && req.challengeMethod == "S256"
  }

  // A client registered without a secret hash is public.
  predicate Authenticates(cfg: Config, clients: Clients, clientID: string, secret: string) {
    clientID in clients
    && (clients[clientID].secretHash == "" || cfg.secretHash(secret) == clients[clientID].secretHash)
  }

  function Issue(cfg: Config, store: Store<Record>, now: int,
                 clientID: string, userID: string, scope: string, token: string): Outcome {
    Outcome(Put(store, RefreshKey(cfg, token), RefreshRecord(clientID, userID, scope), cfg.refreshTTL, now),
            Some(Grant(clientID, userID, scope, Some(token))))
  }

  function Exchanged(cfg: Config, clients: Clients, store: Store<Record>, now: int, clientID: string, secret: string,
                     code: string, redirectURI: string, verifier: string, token: string): Outcome {
    if !Authenticates(cfg, clients, clientID, secret) || !LiveAt(store, CodeKey(code), now) then Outcome(store, None)
    else
      var r := store[CodeKey(code)].value;
      var rest := Without(store, [CodeKey(code)]);
      if r.CodeRecord? && r.clientID == clientID && r.redirectURI == redirectURI
         && cfg.tokenHash(verifier) == r.challenge
      then Issue(cfg, rest, now, clientID, r.userID, r.scope, token)
      else Outcome(rest, None)
  }

  function Refreshed(cfg: Config, clients: Clients, store: Store<Record>, now: int, clientID: string, secret: string,
                     presented: string, token: string): Outcome {
    var key := RefreshKey(cfg, presented);
    if !Authenticates(cfg, clients, clientID, secret) || !LiveAt(store, key, now) then Outcome(store, None)
    else
      var r := store[key].value;
      if r.RefreshRecord? && r.clientID == clientID
      then Issue(cfg, Without(store, [key]), now, clientID, r.userID, r.scope, token)
      else Outcome(store, None)
  }

  /* ---- Scopes as lists ---- */

  // strings.Join(words, " ")
  function Joined(words: seq<string>): string {
    if words == [] then "" else if |words| == 1 then words[0] else words[0] + " " + Joined(words[1..])
  }

  // What a resource server reads out of a space-delimited scope (section 3.3 of RFC 6749)
  function Words(s: string): seq<string>
    decreases |s|
  {
    if s == "" then [] else
    var i := IndexOf(s, ' ');
    (if i == 0 then [] else [s[..i]]) + if i < |s| then Words(s[i + 1..]) else []
  }

  predicate IsToken(w: string) {
    w != "" && ' ' !in w
  }

  lemma {:induction false} WordsAreTokens(s: string)
    ensures forall w :: w in Words(s) ==> IsToken(w)
    decreases |s|
  {
    if s != "" {
      var i := IndexOf(s, ' ');
      if i < |s| { WordsAreTokens(s[i + 1..]); }
    }
  }

  lemma FirstWord(w: string, rest: string)
    requires IsToken(w)
    ensures Words(w) == [w] && Words(w + " " + rest) == [w] + Words(rest)
  {
    var s := w + " " + rest;
    assert s[|w|] == ' ';
    assert IndexOf(s, ' ') == |w| && s[..|w|] == w && s[|w| + 1..] == rest;
    assert IndexOf(w, ' ') == |w| && w[..|w|] == w;
  }

  lemma {:induction false} TokensSurvive(words: seq<string>)
    requires forall w :: w in words ==> IsToken(w)
    ensures Words(Joined(words)) == words
  {
    if words != [] {
      FirstWord(words[0], Joined(words[1..]));
      assert words == [words[0]] + words[1..];
      if |words| > 1 { TokensSurvive(words[1..]); }
    }
  }

  // The scope string of a client says exactly the scopes it is registered with when each of these is a token.
  lemma ScopeSaysRegisteredIff(words: seq<string>)
    ensures Words(Joined(words)) == words <==> forall w :: w in words ==> IsToken(w)
  {
    if forall w :: w in words ==> IsToken(w) { TokensSurvive(words); }
    WordsAreTokens(Joined(words));
  }

  function Credentialed(cfg: Config, clients: Clients, clientID: string, secret: string): Option<Grant> {
    if Authenticates(cfg, clients, clientID, secret)
    then Some(Grant(clientID, clientID, Joined(clients[clientID].allowedScopes), None)) else None
  }

  /* ---- What the cache holds after a request ---- */

  // The record lies under the key, for the lifetime that begins now.
  predicate LiesAt(store: Store<Record>, key: string, record: Record, ttl: int, now: int) {
    key in store && store[key].value == record && Expires(store[key], ttl, now)
  }

  // What lay under `key` is gone, a refresh token has taken its place, and nothing else has changed.
  predicate Rotated(cfg: Config, before: Store<Record>, after: Store<Record>, key: string,
                    clientID: string, userID: string, scope: string, token: string, now: int)
  {
    var next := "oidc:refresh:" + cfg.tokenHash(token);
    && LiesAt(after, next, RefreshRecord(clientID, userID, scope), cfg.refreshTTL, now)
    && (key in after ==> key == next)
    && SameElsewhere(before, after, [key, next])
  }

  class Provider {
    const cfg: Config
    const cache: MemoryCache<Record>
    var clients: Clients

    constructor (config: Config, c: MemoryCache<Record>, registered: Clients)
      ensures cfg == config && cache == c && clients == registered
    {
      cfg, cache, clients := config, c, registered;
    }

    method Authorize(req: AuthorizeRequest, code: string, now: int) returns (ok: bool)
      modifies cache
      ensures ok <==>
                && req.clientID in clients && req.redirectURI in clients[req.clientID].redirectURIs
                && req.challenge != "" && req.challengeMethod == "S256"
      ensures ok ==>
                && LiesAt(cache.data, "oidc:code:" + code, RecordOf(req), 120, now)
                && SameElsewhere(old(cache.data), cache.data, ["oidc:code:" + code])
      ensures ok == MayAuthorize(clients, req)
      ensures cache.data == if ok then Put(old(cache.data), CodeKey(code), RecordOf(req), CODE_TTL, now)
                            else old(cache.data)
    {
      if req.clientID !in clients { return false; }
      var allowed := false;
      for i := 0 to |clients[req.clientID].redirectURIs|
        invariant !allowed && req.redirectURI !in clients[req.clientID].redirectURIs[..i]
      {
        if clients[req.clientID].redirectURIs[i] == req.redirectURI { allowed := true; break; }
      }
      if !allowed { return false; }
      if req.challenge == "" || req.challengeMethod != "S256" { return false; }
      cache.Set("oidc:code:" + code, RecordOf(req), CODE_TTL, now);
      return true;
    }

    method AuthenticateClient(clientID: string, secret: string) returns (ok: bool)
      ensures ok == Authenticates(cfg, clients, clientID, secret)
      ensures ok <==>
                && clientID in clients
                && (clients[clientID].secretHash == "" || cfg.secretHash(secret) == clients[clientID].secretHash)
    {
      if clientID !in clients { return false; }
      if clients[clientID].secretHash == "" { return true; }
      return cfg.secretHash(secret) == clients[clientID].secretHash;
    }

    method IssueTokens(clientID: string, userID: string, scope: string, token: string, now: int)
      returns (grant: Option<Grant>)
      modifies cache
      ensures Outcome(cache.data, grant) == Issue(cfg, old(cache.data), now, clientID, userID, scope, token)
      ensures grant == Some(Grant(clientID, userID, scope, Some(token)))
      ensures var key := "oidc:refresh:" + cfg.tokenHash(token);
              && LiesAt(cache.data, key, RefreshRecord(clientID, userID, scope), cfg.refreshTTL, now)
              && SameElsewhere(old(cache.data), cache.data, [key])
    {
      cache.Set("oidc:refresh:" + cfg.tokenHash(token), RefreshRecord(clientID, userID, scope), cfg.refreshTTL, now);
      return Some(Grant(clientID, userID, scope, Some(token)));
    }

    method ExchangeCode(clientID: string, secret: string, code: string, redirectURI: string, verifier: string,
                        token: string, now: int) returns (grant: Option<Grant>)
      modifies cache
      ensures Outcome(cache.data, grant) ==
              Exchanged(cfg, clients, old(cache.data), now, clientID, secret, code, redirectURI, verifier, token)
      ensures
        var key, before := "oidc:code:" + code, old(cache.data);
        var known := clientID in clients
                     && (clients[clientID].secretHash == "" || cfg.secretHash(secret) == clients[clientID].secretHash);
        if !known || key !in before || !LivesAt(before[key], now) then grant == None && cache.data == before else
        var r := before[key].value;
        key !in cache.data
        && if r.CodeRecord? && r.clientID == clientID && r.redirectURI == redirectURI
              && cfg.tokenHash(verifier) == r.challenge
           then Rotated(cfg, before, cache.data, key, clientID, r.userID, r.scope, token, now)
                && grant == Some(Grant(clientID, r.userID, r.scope, Some(token)))
           else grant == None && KeysGone(before, cache.data, [key])
    {
      var known := AuthenticateClient(clientID, secret);
      if !known { return None; }
      var record := cache.Get("oidc:code:" + code, now);
      if record.None? { return None; }
      KindsApart(cfg, code, token);
      cache.Delete(["oidc:code:" + code]);
      var r := record.value;
      if !r.CodeRecord? { return None; }
      if r.clientID != clientID || r.redirectURI != redirectURI { return None; }
      if cfg.tokenHash(verifier) != r.challenge { return None; }
      grant := IssueTokens(clientID, r.userID, r.scope, token, now);
    }

    method RefreshTokens(clientID: string, secret: string, presented: string, token: string, now: int)
      returns (grant: Option<Grant>)
      modifies cache
      ensures Outcome(cache.data, grant) ==
              Refreshed(cfg, clients, old(cache.data), now, clientID, secret, presented, token)
      ensures
        var key, before := "oidc:refresh:" + cfg.tokenHash(presented), old(cache.data);
        var known := clientID in clients
                     && (clients[clientID].secretHash == "" || cfg.secretHash(secret) == clients[clientID].secretHash);
        if !known || key !in before || !LivesAt(before[key], now) then grant == None && cache.data == before else
        var r := before[key].value;
        if r.RefreshRecord? && r.clientID == clientID
        then Rotated(cfg, before, cache.data, key, clientID, r.userID, r.scope, token, now)
             && grant == Some(Grant(clientID, r.userID, r.scope, Some(token)))
        else grant == None && cache.data == before
    {
      var known := AuthenticateClient(clientID, secret);
      if !known { return None; }
      var key := "oidc:refresh:" + cfg.tokenHash(presented);
      var record := cache.Get(key, now);
      if record.None? { return None; }
      var r := record.value;
      if !r.RefreshRecord? { return None; }
      if r.clientID != clientID { return None; }
      cache.Delete([key]);
      grant := IssueTokens(clientID, r.userID, r.scope, token, now);
    }

    method ClientCredentials(clientID: string, secret: string) returns (grant: Option<Grant>)
      ensures grant == Credentialed(cfg, clients, clientID, secret)
      ensures grant.Some? <==>
                && clientID in clients
                && (clients[clientID].secretHash == "" || cfg.secretHash(secret) == clients[clientID].secretHash)
      ensures grant.Some? ==>
                && grant.value.clientID == grant.value.userID == clientID && grant.value.refresh.None?
                && var scopes := clients[clientID].allowedScopes;
                   grant.value.scope == Joined(scopes)
                   && (Words(grant.value.scope) == scopes <==> forall w :: w in scopes ==> IsToken(w))
    {
      var known := AuthenticateClient(clientID, secret);
      if !known { return None; }
      ScopeSaysRegisteredIff(clients[clientID].allowedScopes);
      return Some(Grant(clientID, clientID, Joined(clients[clientID].allowedScopes), None));
    }
  }
}

/** Runs of token requests, and what every code and every refresh token descended from it can be used for. */
module OidcLineage {
  import opened Text
  import opened TimedCache
  import opened Oidc

  // A code as it was issued, with the registration of its client then
  datatype Issued = Issued(record: Record, at: int, client: Client)

  datatype Source =
    | FromCode(code: string, redirectURI: string, verifier: string)
    | FromRefresh(token: string)
    | FromCredentials

  // The secret a request presented, and the registration of its client then
  datatype Presented = Presented(secret: string, registered: Option<Client>)

  datatype Response = Response(source: Source, grant: Grant, at: int, shown: Presented)

  datatype State = State(
    now: int,
    clients: Clients,
    store: Store<Record>,
    used: set<string>,           // every identifier generated so far
    codes: map<string, Issued>,  // every code ever issued, with what it was bound to
    root: map<string, string>,   // every refresh token ever issued, with the code it descends from
    responses: seq<Response>)    // every answered token request

  datatype Action =
    | Elapse(time: nat)
    | Register(clients: Clients)
    | Authorize(req: AuthorizeRequest, code: string)
    | Exchange(clientID: string, secret: string, code: string, redirectURI: string, verifier: string, next: string)
    | Refresh(clientID: string, secret: string, token: string, next: string)
    | Credentials(clientID: string, secret: string)
    | Reap

  function PresentedBy(s: State, clientID: string, secret: string): Presented {
    Presented(secret, if clientID in s.clients then Some(s.clients[clientID]) else None)
  }

  function Answered(s: State, outcome: Outcome, source: Source, next: string, code: string, shown: Presented): State {
    if outcome.grant.None? then s.(store := outcome.store)
    else s.(store := outcome.store, used := s.used + {next}, root := s.root[next := code],
    responses := s.responses + [Response(source, outcome.grant.value, s.now, shown)])
  }

  // Identifiers are UUIDs: a step with one that was generated before does not happen.
  function Apply(cfg: Config, s: State, a: Action): State {
    match a
    case Elapse(time) => s.(now := s.now + time)
    case Register(clients) => s.(clients := clients)
    case Authorize(req, code) =>
      if code in s.used || !MayAuthorize(s.clients, req) then s
      else s.(store := Put(s.store, CodeKey(code), RecordOf(req), CODE_TTL, s.now),
      used := s.used + {code}, codes := s.codes[code := Issued(RecordOf(req), s.now, s.clients[req.clientID])])
    case Exchange(clientID, secret, code, redirectURI, verifier, next) =>
      if next in s.used then s else
      var outcome := Exchanged(cfg, s.clients, s.store, s.now, clientID, secret, code, redirectURI, verifier, next);
      Answered(s, outcome, FromCode(code, redirectURI, verifier), next, code, PresentedBy(s, clientID, secret))
    case Refresh(clientID, secret, token, next) =>
      if next in s.used then s else
      var outcome := Refreshed(cfg, s.clients, s.store, s.now, clientID, secret, token, next);
      var code := if token in s.root then s.root[token] else token;
      Answered(s, outcome, FromRefresh(token), next, code, PresentedBy(s, clientID, secret))
    case Credentials(clientID, secret) =>
      var grant := Credentialed(cfg, s.clients, clientID, secret);
      if grant.None? then s else
      s.(responses := s.responses + [Response(FromCredentials, grant.value, s.now, PresentedBy(s, clientID, secret))])
    case Reap => s.(store := Reaped(s.store, s.now))
  }

  function Run(cfg: Config, s: State, acts: seq<Action>): State
    decreases |acts|
  {
    if acts == [] then s else Run(cfg, Apply(cfg, s, acts[0]), acts[1..])
  }

  predicate Initial(s: State) {
    s.store == map[] && s.used == {} && s.codes == map[] && s.root == map[] && s.responses == []
  }

  /* ---- The invariant ---- */

  type Codes = map<string, Issued>
  type Roots = map<string, string>

  predicate CameFrom(r: Response, code: string) {
    r.source.FromCode? && r.source.code == code
  }

  predicate Spent(responses: seq<Response>, code: string) {
    exists i :: 0 <= i < |responses| && CameFrom(responses[i], code)
  }

  predicate Used(responses: seq<Response>, token: string) {
    exists i :: 0 <= i < |responses| && responses[i].source == FromRefresh(token)
  }

  predicate Stored(cfg: Config, store: Store<Record>, token: string) {
    RefreshKey(cfg, token) in store
  }

  ghost predicate Accounted(codes: Codes, root: Roots, used: set<string>) {
    && (forall c :: c in codes ==> c in used && codes[c].record.CodeRecord?)
    && (forall t :: t in root ==> t in used && root[t] in codes)
  }

  ghost predicate CodeSound(store: Store<Record>, codes: Codes, root: Roots, responses: seq<Response>, c: string)
    requires CodeKey(c) in store
  {
    && c in codes
    && store[CodeKey(c)].value == codes[c].record
    && store[CodeKey(c)].expires == Some(codes[c].at + CODE_TTL)
    && !Spent(responses, c)
    && c !in root.Values
  }

  // A stored code is as issued, and nothing has come of it.
  ghost predicate CodesSound(store: Store<Record>, codes: Codes, root: Roots, responses: seq<Response>) {
    forall c :: CodeKey(c) in store ==> CodeSound(store, codes, root, responses, c)
  }

  ghost predicate TokenSound(cfg: Config, store: Store<Record>, codes: Codes, root: Roots, responses: seq<Response>,
                             t: string)
    requires Stored(cfg, store, t)
  {
    && t in root && root[t] in codes
    && (var r := codes[root[t]].record;
        r.CodeRecord? && store[RefreshKey(cfg, t)].value == RefreshRecord(r.clientID, r.userID, r.scope))
    && !Used(responses, t)
  }

  // A stored refresh token carries the client, user and scope of its code, and nothing has come of it.
  ghost predicate TokensSound(cfg: Config, store: Store<Record>, codes: Codes, root: Roots, responses: seq<Response>) {
    forall t :: Stored(cfg, store, t) ==> TokenSound(cfg, store, codes, root, responses, t)
  }

  ghost predicate OneTokenPerCode(cfg: Config, store: Store<Record>, root: Roots) {
    forall t, u :: Stored(cfg, store, t) && Stored(cfg, store, u) && t in root && u in root && root[t] == root[u] ==>
      t == u
  }

  predicate HasRoot(codes: Codes, root: Roots, source: Source) {
    match source
    case FromCode(c, _, _) => c in codes
    case FromRefresh(t) => t in root && root[t] in codes
    case FromCredentials => false
  }

  // The code a response descends from
  function RootOf(codes: Codes, root: Roots, source: Source): string
    requires HasRoot(codes, root, source)
  {
    match source
    case FromCode(c, _, _) => c
    case FromRefresh(t) => root[t]
  }

  predicate FaithfulTo(cfg: Config, r: Response, issued: Issued) {
    var bound := issued.record;
    && bound.CodeRecord?
    && r.grant.clientID == bound.clientID && r.grant.userID == bound.userID && r.grant.scope == bound.scope
    && (r.source.FromCode? ==>
          && r.source.redirectURI == bound.redirectURI
          && cfg.tokenHash(r.source.verifier) == bound.challenge
          && r.at <= issued.at + 120)
  }

  // With its own credentials a client is its own user, gets its registered scopes, and no refresh token.
  predicate OwnScopesOnly(r: Response) {
    && r.shown.registered.Some? && r.grant.userID == r.grant.clientID && r.grant.refresh.None?
    && r.grant.scope == Joined(r.shown.registered.value.allowedScopes)
  }

  // A response has the user, client and scope of the code at its root; a code was redeemed in time, for the
  // redirect URI and the verifier it was bound to.
  predicate ResponseSound(cfg: Config, codes: Codes, root: Roots, r: Response) {
    if r.source.FromCredentials? then OwnScopesOnly(r) else
    HasRoot(codes, root, r.source) && FaithfulTo(cfg, r, codes[RootOf(codes, root, r.source)])
  }

  predicate SameOrigin(a: Source, b: Source) {
    || (a.FromCode? && b.FromCode? && a.code == b.code)
    || (a.FromRefresh? && b.FromRefresh? && a.token == b.token)
  }

  // No code and no refresh token is answered twice.
  predicate SourcesDistinct(responses: seq<Response>) {
    forall i, k :: 0 <= i < k < |responses| ==> !SameOrigin(responses[i].source, responses[k].source)
  }

  ghost predicate ResponsesSound(cfg: Config, codes: Codes, root: Roots, responses: seq<Response>) {
    forall i :: 0 <= i < |responses| ==> ResponseSound(cfg, codes, root, responses[i])
  }

  ghost predicate Inv(cfg: Config, s: State) {
    && Accounted(s.codes, s.root, s.used)
    && CodesSound(s.store, s.codes, s.root, s.responses)
    && TokensSound(cfg, s.store, s.codes, s.root, s.responses)
    && OneTokenPerCode(cfg, s.store, s.root)
    && ResponsesSound(cfg, s.codes, s.root, s.responses)
    && SourcesDistinct(s.responses)
  }

  /* ---- Every request keeps it ---- */

  predicate SubStore(a: Store<Record>, b: Store<Record>) {
    forall k :: k in a ==> k in b && a[k] == b[k]
  }

  lemma ShrinkKeepsInv(cfg: Config, s: State, store: Store<Record>)
    requires Inv(cfg, s) && SubStore(store, s.store)
    ensures Inv(cfg, s.(store := store))
  {
    assert CodesSound(store, s.codes, s.root, s.responses) by {
      forall c | CodeKey(c) in store ensures CodeSound(store, s.codes, s.root, s.responses, c) {
        assert CodeSound(s.store, s.codes, s.root, s.responses, c);
      }
    }
    assert TokensSound(cfg, store, s.codes, s.root, s.responses) by {
      forall t | Stored(cfg, store, t) ensures TokenSound(cfg, store, s.codes, s.root, s.responses, t) {
        assert TokenSound(cfg, s.store, s.codes, s.root, s.responses, t);
      }
    }
    assert OneTokenPerCode(cfg, store, s.root) by {
      forall t | Stored(cfg, store, t) ensures Stored(cfg, s.store, t) {}
    }
  }

  lemma SpentIsIssued(cfg: Config, codes: Codes, root: Roots, responses: seq<Response>, code: string)
    requires ResponsesSound(cfg, codes, root, responses) && Spent(responses, code)
    ensures code in codes
  {
  }

  lemma UsedIsIssued(cfg: Config, codes: Codes, root: Roots, responses: seq<Response>, token: string)
    requires ResponsesSound(cfg, codes, root, responses) && Used(responses, token)
    ensures token in root
  {
  }

  lemma SpentGrows(responses: seq<Response>, r: Response, code: string)
    ensures Spent(responses + [r], code) <==> Spent(responses, code) || CameFrom(r, code)
  {
    var all := responses + [r];
    assert all[|responses|] == r;
    if Spent(responses, code) {
      var i :| 0 <= i < |responses| && CameFrom(responses[i], code);
      assert CameFrom(all[i], code);
    }
  }

  lemma UsedGrows(responses: seq<Response>, r: Response, token: string)
    ensures Used(responses + [r], token) <==> Used(responses, token) || r.source == FromRefresh(token)
  {
    var all := responses + [r];
    assert all[|responses|] == r;
    if Used(responses, token) {
      var i :| 0 <= i < |responses| && responses[i].source == FromRefresh(token);
      assert all[i].source == FromRefresh(token);
    }
  }

  // The records grow: old responses stay as sound as they were.
  lemma ResponsesStaySound(cfg: Config, codes: Codes, root: Roots, codes': Codes, root': Roots,
                           responses: seq<Response>)
    requires ResponsesSound(cfg, codes, root, responses)
    requires forall c :: c in codes ==> c in codes' && codes'[c] == codes[c]
    requires forall t :: t in root ==> t in root' && root'[t] == root[t]
    ensures ResponsesSound(cfg, codes', root', responses)
  {
  }

  lemma AuthorizedCodes(cfg: Config, s: State, req: AuthorizeRequest, code: string, client: Client)
    requires Inv(cfg, s) && code !in s.used
    ensures CodesSound(Put(s.store, CodeKey(code), RecordOf(req), CODE_TTL, s.now),
                       s.codes[code := Issued(RecordOf(req), s.now, client)], s.root, s.responses)
  {
    var store' := Put(s.store, CodeKey(code), RecordOf(req), CODE_TTL, s.now);
    var codes' := s.codes[code := Issued(RecordOf(req), s.now, client)];
    forall c | CodeKey(c) in store' ensures CodeSound(store', codes', s.root, s.responses, c) {
      CodeKeysApart(c, code);
      if c == code {
        if Spent(s.responses, c) { SpentIsIssued(cfg, s.codes, s.root, s.responses, c); }
      } else {
        assert CodeSound(s.store, s.codes, s.root, s.responses, c);
      }
    }
  }

  lemma AuthorizedTokens(cfg: Config, s: State, req: AuthorizeRequest, code: string, client: Client)
    requires Inv(cfg, s) && code !in s.used
    ensures var store' := Put(s.store, CodeKey(code), RecordOf(req), CODE_TTL, s.now);
            TokensSound(cfg, store', s.codes[code := Issued(RecordOf(req), s.now, client)], s.root, s.responses)
            && OneTokenPerCode(cfg, store', s.root)
  {
    var store' := Put(s.store, CodeKey(code), RecordOf(req), CODE_TTL, s.now);
    var codes' := s.codes[code := Issued(RecordOf(req), s.now, client)];
    forall t | Stored(cfg, store', t)
      ensures Stored(cfg, s.store, t) && TokenSound(cfg, store', codes', s.root, s.responses, t)
    {
      KindsApart(cfg, code, t);
      assert TokenSound(cfg, s.store, s.codes, s.root, s.responses, t);
    }
  }

  lemma AuthorizeKeepsInv(cfg: Config, s: State, req: AuthorizeRequest, code: string, client: Client)
    requires Inv(cfg, s) && code !in s.used
    ensures Inv(cfg, s.(store := Put(s.store, CodeKey(code), RecordOf(req), CODE_TTL, s.now),
                        used := s.used + {code}, codes := s.codes[code := Issued(RecordOf(req), s.now, client)]))
  {
    AuthorizedCodes(cfg, s, req, code, client);
    AuthorizedTokens(cfg, s, req, code, client);
    var codes' := s.codes[code := Issued(RecordOf(req), s.now, client)];
    ResponsesStaySound(cfg, s.codes, s.root, codes', s.root, s.responses);
  }

  // The request took its code or refresh token out of the cache, and no token of the code is left.
  ghost predicate Answerable(cfg: Config, s: State, source: Source, code: string, next: string) {
    && Inv(cfg, s) && code in s.codes && next !in s.used
    && CodeKey(code) !in s.store
    && (forall t :: Stored(cfg, s.store, t) && t in s.root ==> s.root[t] != code)
    && match source {
      case FromCode(c, redirectURI, verifier) =>
        && c == code && !Spent(s.responses, code) && s.now <= s.codes[code].at + CODE_TTL
        && redirectURI == s.codes[code].record.redirectURI
        && cfg.tokenHash(verifier) == s.codes[code].record.challenge
      case FromRefresh(t) =>
        && t in s.root && s.root[t] == code && !Used(s.responses, t) && !Stored(cfg, s.store, t)
      case FromCredentials => false
    }
  }

  function Token(cfg: Config, s: State, code: string, next: string): Outcome
    requires code in s.codes && s.codes[code].record.CodeRecord?
  {
    var r := s.codes[code].record;
    Issue(cfg, s.store, s.now, r.clientID, r.userID, r.scope, next)
  }

  lemma AnsweredCodes(cfg: Config, s: State, source: Source, code: string, next: string, shown: Presented)
    requires Answerable(cfg, s, source, code, next)
    ensures var s' := Answered(s, Token(cfg, s, code, next), source, next, code, shown);
            CodesSound(s'.store, s'.codes, s'.root, s'.responses)
  {
    var s' := Answered(s, Token(cfg, s, code, next), source, next, code, shown);
    forall c | CodeKey(c) in s'.store ensures CodeSound(s'.store, s'.codes, s'.root, s'.responses, c) {
      KindsApart(cfg, c, next);
      assert CodeSound(s.store, s.codes, s.root, s.responses, c);
      assert c != code;
      SpentGrows(s.responses, s'.responses[|s.responses|], c);
    }
  }

  lemma AnsweredTokens(cfg: Config, s: State, source: Source, code: string, next: string, shown: Presented)
    requires Injective(cfg.tokenHash) && Answerable(cfg, s, source, code, next)
    ensures var s' := Answered(s, Token(cfg, s, code, next), source, next, code, shown);
            TokensSound(cfg, s'.store, s'.codes, s'.root, s'.responses)
  {
    var s' := Answered(s, Token(cfg, s, code, next), source, next, code, shown);
    forall t | Stored(cfg, s'.store, t) ensures TokenSound(cfg, s'.store, s'.codes, s'.root, s'.responses, t) {
      TokenKeysApart(cfg, t, next);
      if t == next {
        if Used(s.responses, t) { UsedIsIssued(cfg, s.codes, s.root, s.responses, t); }
      } else {
        assert TokenSound(cfg, s.store, s.codes, s.root, s.responses, t);
      }
      UsedGrows(s.responses, s'.responses[|s.responses|], t);
    }
  }

  lemma AnsweredOneToken(cfg: Config, s: State, source: Source, code: string, next: string, shown: Presented)
    requires Injective(cfg.tokenHash) && Answerable(cfg, s, source, code, next)
    ensures var s' := Answered(s, Token(cfg, s, code, next), source, next, code, shown);
            OneTokenPerCode(cfg, s'.store, s'.root)
  {
    var s' := Answered(s, Token(cfg, s, code, next), source, next, code, shown);
    forall t | Stored(cfg, s'.store, t) ensures t == next || Stored(cfg, s.store, t) {
      TokenKeysApart(cfg, t, next);
    }
  }

  lemma AnsweredResponses(cfg: Config, s: State, source: Source, code: string, next: string, shown: Presented)
    requires Answerable(cfg, s, source, code, next)
    ensures var s' := Answered(s, Token(cfg, s, code, next), source, next, code, shown);
            ResponsesSound(cfg, s'.codes, s'.root, s'.responses) && SourcesDistinct(s'.responses)
  {
    var s' := Answered(s, Token(cfg, s, code, next), source, next, code, shown);
    assert next !in s.root;
    ResponsesStaySound(cfg, s.codes, s.root, s'.codes, s'.root, s.responses);
    var last := s'.responses[|s.responses|];
    assert ResponseSound(cfg, s'.codes, s'.root, last);
    forall i | 0 <= i < |s.responses| ensures !SameOrigin(s.responses[i].source, source) {
      assert source.FromCode? ==> !CameFrom(s.responses[i], code);
    }
  }

  lemma AnswerKeepsInv(cfg: Config, s: State, source: Source, code: string, next: string, shown: Presented)
    requires Injective(cfg.tokenHash) && Answerable(cfg, s, source, code, next)
    ensures Inv(cfg, Answered(s, Token(cfg, s, code, next), source, next, code, shown))
  {
    AnsweredCodes(cfg, s, source, code, next, shown);
    AnsweredTokens(cfg, s, source, code, next, shown);
    AnsweredOneToken(cfg, s, source, code, next, shown);
    AnsweredResponses(cfg, s, source, code, next, shown);
  }

  lemma CodeIsAnswerable(cfg: Config, s: State, rest: State, code: string, redirectURI: string, verifier: string,
                         next: string)
    requires Inv(cfg, s) && next !in s.used && LiveAt(s.store, CodeKey(code), s.now)
    requires rest == s.(store := Without(s.store, [CodeKey(code)])) && Inv(cfg, rest)
    requires var r := s.store[CodeKey(code)].value;
             r.CodeRecord? && r.redirectURI == redirectURI && cfg.tokenHash(verifier) == r.challenge
    ensures Answerable(cfg, rest, FromCode(code, redirectURI, verifier), code, next)
    ensures s.codes[code].record == s.store[CodeKey(code)].value
  {
  }

  lemma ExchangeKeepsInv(cfg: Config, s: State, a: Action)
    requires Injective(cfg.tokenHash) && Inv(cfg, s) && a.Exchange?
    ensures Inv(cfg, Apply(cfg, s, a))
  {
    if a.next !in s.used && Authenticates(cfg, s.clients, a.clientID, a.secret)
       && LiveAt(s.store, CodeKey(a.code), s.now) {
      var rest := s.(store := Without(s.store, [CodeKey(a.code)]));
      ShrinkKeepsInv(cfg, s, rest.store);
      var source := FromCode(a.code, a.redirectURI, a.verifier);
      var r := s.store[CodeKey(a.code)].value;
      if r.CodeRecord? && r.clientID == a.clientID && r.redirectURI == a.redirectURI
         && cfg.tokenHash(a.verifier) == r.challenge {
        CodeIsAnswerable(cfg, s, rest, a.code, a.redirectURI, a.verifier, a.next);
        AnswerKeepsInv(cfg, rest, source, a.code, a.next, PresentedBy(s, a.clientID, a.secret));
      }
    }
  }

  lemma TokenIsAnswerable(cfg: Config, s: State, rest: State, token: string, next: string)
    requires Inv(cfg, s) && next !in s.used && Stored(cfg, s.store, token)
    requires rest == s.(store := Without(s.store, [RefreshKey(cfg, token)])) && Inv(cfg, rest)
    ensures token in s.root && Answerable(cfg, rest, FromRefresh(token), s.root[token], next)
  {
  }

  lemma RefreshKeepsInv(cfg: Config, s: State, a: Action)
    requires Injective(cfg.tokenHash) && Inv(cfg, s) && a.Refresh?
    ensures Inv(cfg, Apply(cfg, s, a))
  {
    var key := RefreshKey(cfg, a.token);
    if a.next !in s.used && Authenticates(cfg, s.clients, a.clientID, a.secret) && LiveAt(s.store, key, s.now)
       && s.store[key].value.RefreshRecord? && s.store[key].value.clientID == a.clientID {
      var rest := s.(store := Without(s.store, [key]));
      ShrinkKeepsInv(cfg, s, rest.store);
      assert TokenSound(cfg, s.store, s.codes, s.root, s.responses, a.token);
      TokenIsAnswerable(cfg, s, rest, a.token, a.next);
      var shown := PresentedBy(s, a.clientID, a.secret);
      AnswerKeepsInv(cfg, rest, FromRefresh(a.token), s.root[a.token], a.next, shown);
    }
  }

  lemma CredentialsKeepInv(cfg: Config, s: State, a: Action)
    requires Inv(cfg, s) && a.Credentials?
    ensures Inv(cfg, Apply(cfg, s, a))
  {
    var s' := Apply(cfg, s, a);
    if s' != s {
      var last := s'.responses[|s.responses|];
      forall c | CodeKey(c) in s.store ensures CodeSound(s'.store, s'.codes, s'.root, s'.responses, c) {
        assert CodeSound(s.store, s.codes, s.root, s.responses, c);
        SpentGrows(s.responses, last, c);
      }
      forall t | Stored(cfg, s.store, t) ensures TokenSound(cfg, s'.store, s'.codes, s'.root, s'.responses, t) {
        assert TokenSound(cfg, s.store, s.codes, s.root, s.responses, t);
        UsedGrows(s.responses, last, t);
      }
    }
  }

  lemma StepKeepsInv(cfg: Config, s: State, a: Action)
    requires Injective(cfg.tokenHash) && Inv(cfg, s)
    ensures Inv(cfg, Apply(cfg, s, a))
  {
    match a
    case Authorize(req, code) =>
      if code !in s.used && MayAuthorize(s.clients, req) {
        AuthorizeKeepsInv(cfg, s, req, code, s.clients[req.clientID]);
      }
    case Exchange(_, _, _, _, _, _) => ExchangeKeepsInv(cfg, s, a);
    case Refresh(_, _, _, _) => RefreshKeepsInv(cfg, s, a);
    case Credentials(_, _) => CredentialsKeepInv(cfg, s, a);
    case Reap => ShrinkKeepsInv(cfg, s, Reaped(s.store, s.now));
    case _ =>
  }

  lemma {:induction false} RunKeepsInv(cfg: Config, s: State, acts: seq<Action>)
    requires Injective(cfg.tokenHash) && Inv(cfg, s)
    ensures Inv(cfg, Run(cfg, s, acts))
    decreases |acts|
  {
    if acts != [] {
      StepKeepsInv(cfg, s, acts[0]);
      RunKeepsInv(cfg, Apply(cfg, s, acts[0]), acts[1..]);
    }
  }

  /* ---- What a code is good for ---- */

  // Over any run: a code is answered at most once, in time, for what it was bound to; a refresh token is answered
  // at most once; at most one refresh token per code is left; and user, client and scope never change on the way.
  lemma LineageIsFaithful(cfg: Config, s: State, acts: seq<Action>)
    requires Injective(cfg.tokenHash) && Initial(s)
    ensures var s' := Run(cfg, s, acts);
            && SourcesDistinct(s'.responses)
            && OneTokenPerCode(cfg, s'.store, s'.root)
            && forall i :: 0 <= i < |s'.responses| ==> ResponseSound(cfg, s'.codes, s'.root, s'.responses[i])
  {
    RunKeepsInv(cfg, s, acts);
  }

  // A request that presents a live code to a client that authenticates uses the code up, whatever comes of it.
  lemma PresentedCodeIsGone(cfg: Config, s: State, a: Action)
    requires a.Exchange? && a.next !in s.used && a.clientID in s.clients
    requires var hash := s.clients[a.clientID].secretHash; hash == "" || cfg.secretHash(a.secret) == hash
    ensures !LiveAt(Apply(cfg, s, a).store, CodeKey(a.code), s.now)
  {
    assert CodeKey(a.code)[5] == 'c' && RefreshKey(cfg, a.next)[5] == 'r';
    assert CodeKey(a.code) in [CodeKey(a.code)];
  }

  // A refresh token presented by another client stays as it was.
  lemma ForeignRefreshChangesNothing(cfg: Config, s: State, a: Action)
    requires Inv(cfg, s) && a.Refresh? && Stored(cfg, s.store, a.token)
    requires s.codes[s.root[a.token]].record.clientID != a.clientID
    ensures Apply(cfg, s, a) == s
  {
  }
}
