/** Who is answered by the token endpoint: only clients that authenticate, only for codes issued to a registered
    redirect URI, and every client that presents in time what it was given. */
module OidcAnswers {
  import opened Text
  import opened TimedCache
  import opened Oidc
  import opened OidcLineage

  /* ---- Only clients that authenticate ---- */

  // The client was registered, and is public or presented a secret with the registered hash.
  predicate Admitted(cfg: Config, r: Response) {
    && r.shown.registered.Some?
    && var hash := r.shown.registered.value.secretHash;
       hash == "" || cfg.secretHash(r.shown.secret) == hash
  }

  predicate IsTokenRequest(a: Action) {
    a.Exchange? || a.Refresh? || a.Credentials?
  }

  // A step answers at most one request, and only one of a client registered at that moment that is public or presents
  // a secret with the registered hash; the answer is to that client, and is recorded with what it presented.
  lemma StepAnswers(cfg: Config, s: State, a: Action)
    ensures var s' := Apply(cfg, s, a);
            && s.responses <= s'.responses && |s'.responses| <= |s.responses| + 1
            && (|s'.responses| == |s.responses| + 1 ==>
                  && IsTokenRequest(a) && a.clientID in s.clients
                  && (s.clients[a.clientID].secretHash == ""
                      || cfg.secretHash(a.secret) == s.clients[a.clientID].secretHash)
                  && var last := s'.responses[|s.responses|];
                     && last.grant.clientID == a.clientID && last.at == s.now
                     && last.shown == Presented(a.secret, Some(s.clients[a.clientID])))
  {
  }

  // Where every hash belongs to one secret, a confidential client is answered with the secret it was registered with
  // only.
  lemma OnlyTheSecretPasses(cfg: Config, s: State, a: Action, secret: string)
    requires Injective(cfg.secretHash) && IsTokenRequest(a) && a.clientID in s.clients
    requires s.clients[a.clientID].secretHash == cfg.secretHash(secret) != ""
    ensures a.secret != secret ==> Apply(cfg, s, a).responses == s.responses
  {
    StepAnswers(cfg, s, a);
  }

  ghost predicate AllAdmitted(cfg: Config, s: State) {
    forall i :: 0 <= i < |s.responses| ==> Admitted(cfg, s.responses[i])
  }

  lemma {:induction false} RunAdmits(cfg: Config, s: State, acts: seq<Action>)
    requires AllAdmitted(cfg, s)
    ensures AllAdmitted(cfg, Run(cfg, s, acts))
    decreases |acts|
  {
    if acts != [] {
      StepAnswers(cfg, s, acts[0]);
      RunAdmits(cfg, Apply(cfg, s, acts[0]), acts[1..]);
    }
  }

  // Over any run, whatever the grant, every answered client was registered then, and public or in possession of a
  // secret with the registered hash.
  lemma OnlyAuthenticatedAreAnswered(cfg: Config, s: State, acts: seq<Action>)
    requires Initial(s)
    ensures AllAdmitted(cfg, Run(cfg, s, acts))
  {
    RunAdmits(cfg, s, acts);
  }

  /* ---- Only registered redirect URIs ---- */

  predicate Registered(issued: Issued) {
    && issued.record.CodeRecord? && issued.record.redirectURI in issued.client.redirectURIs
    && issued.record.challenge != "" && issued.record.transform == "S256"
  }

  // A code comes from an authorization request of a registered client, with a registered redirect URI and an S256
  // challenge, and is bound to all of it.
  lemma StepIssuesCodes(cfg: Config, s: State, a: Action, code: string)
    requires code in Apply(cfg, s, a).codes
    ensures code in s.codes && code in s.used ==> Apply(cfg, s, a).codes[code] == s.codes[code]
    ensures code !in s.codes ==>
              && a.Authorize? && a.code == code && a.req.clientID in s.clients
              && a.req.redirectURI in s.clients[a.req.clientID].redirectURIs
              && a.req.challenge != "" && a.req.challengeMethod == "S256"
              && Apply(cfg, s, a).codes[code] ==
                 Issued(CodeRecord(a.req.clientID, a.req.redirectURI, a.req.scope, a.req.userID, a.req.challenge,
                                   "S256"),
                        s.now, s.clients[a.req.clientID])
  {
  }

  ghost predicate AllRegistered(s: State) {
    forall c :: c in s.codes ==> Registered(s.codes[c])
  }

  lemma {:induction false} RunRegisters(cfg: Config, s: State, acts: seq<Action>)
    requires AllRegistered(s)
    ensures AllRegistered(Run(cfg, s, acts))
    decreases |acts|
  {
    if acts != [] {
      RunRegisters(cfg, Apply(cfg, s, acts[0]), acts[1..]);
    }
  }

  // Over any run every code that was answered had been issued for a redirect URI its client was registered with, and
  // with an S256 challenge.
  lemma OnlyRegisteredRedirects(cfg: Config, s: State, acts: seq<Action>)
    requires Injective(cfg.tokenHash) && Initial(s)
    ensures var s' := Run(cfg, s, acts);
            forall i :: 0 <= i < |s'.responses| && s'.responses[i].source.FromCode? ==>
              var source := s'.responses[i].source;
              && source.code in s'.codes && Registered(s'.codes[source.code])
              && source.redirectURI in s'.codes[source.code].client.redirectURIs
  {
    RunRegisters(cfg, s, acts);
    LineageIsFaithful(cfg, s, acts);
    var s' := Run(cfg, s, acts);
    forall i | 0 <= i < |s'.responses| && s'.responses[i].source.FromCode?
      ensures var source := s'.responses[i].source;
              && source.code in s'.codes && Registered(s'.codes[source.code])
              && source.redirectURI in s'.codes[source.code].client.redirectURIs
    {
      assert ResponseSound(cfg, s'.codes, s'.root, s'.responses[i]);
    }
  }

  /* ---- What was issued stays until it is presented or expires ---- */

  predicate PresentsCode(a: Action, code: string) {
    a.Exchange? && a.code == code
  }

  predicate PresentsToken(a: Action, token: string) {
    a.Refresh? && a.token == token
  }

  // An identifier that has been generated is never stored anew.
  lemma CodeStep(cfg: Config, s: State, a: Action, code: string)
    requires code in s.used
    ensures var s', key := Apply(cfg, s, a), CodeKey(code);
            && code in s'.used && s.now <= s'.now
            && (key in s'.store ==> key in s.store && s'.store[key] == s.store[key])
            && (key in s.store && LivesAt(s.store[key], s'.now) && !PresentsCode(a, code) ==> key in s'.store)
  {
    match a
    case Authorize(req, other) => CodeKeysApart(code, other);
    case Exchange(_, _, other, _, _, next) =>
      CodeKeysApart(code, other);
      KindsApart(cfg, code, next);
    case Refresh(_, _, token, next) =>
      KindsApart(cfg, code, next);
      KindsApart(cfg, code, token);
    case _ =>
  }

  lemma TokenStep(cfg: Config, s: State, a: Action, token: string)
    requires Injective(cfg.tokenHash) && token in s.used
    ensures var s', key := Apply(cfg, s, a), RefreshKey(cfg, token);
            && token in s'.used && s.now <= s'.now
            && (key in s'.store ==> key in s.store && s'.store[key] == s.store[key])
            && (key in s.store && LivesAt(s.store[key], s'.now) && !PresentsToken(a, token) ==> key in s'.store)
  {
    match a
    case Authorize(req, code) => KindsApart(cfg, code, token);
    case Exchange(_, _, code, _, _, next) =>
      KindsApart(cfg, code, token);
      TokenKeysApart(cfg, token, next);
    case Refresh(_, _, other, next) =>
      TokenKeysApart(cfg, token, other);
      TokenKeysApart(cfg, token, next);
    case _ =>
  }

  lemma {:induction false} TimePasses(cfg: Config, s: State, acts: seq<Action>)
    ensures s.now <= Run(cfg, s, acts).now
    decreases |acts|
  {
    if acts != [] { TimePasses(cfg, Apply(cfg, s, acts[0]), acts[1..]); }
  }

  lemma {:induction false} CodeRun(cfg: Config, s: State, acts: seq<Action>, code: string)
    requires code in s.used
    ensures var s', key := Run(cfg, s, acts), CodeKey(code);
            && code in s'.used
            && (key in s'.store ==> key in s.store && s'.store[key] == s.store[key])
            && (key in s.store && LivesAt(s.store[key], s'.now) && (forall a :: a in acts ==> !PresentsCode(a, code))
                ==> key in s'.store)
    decreases |acts|
  {
    if acts != [] {
      var s1 := Apply(cfg, s, acts[0]);
      CodeStep(cfg, s, acts[0], code);
      TimePasses(cfg, s1, acts[1..]);
      assert acts[0] in acts;
      CodeRun(cfg, s1, acts[1..], code);
    }
  }

  lemma {:induction false} TokenRun(cfg: Config, s: State, acts: seq<Action>, token: string)
    requires Injective(cfg.tokenHash) && token in s.used
    ensures var s', key := Run(cfg, s, acts), RefreshKey(cfg, token);
            && token in s'.used
            && (key in s'.store ==> key in s.store && s'.store[key] == s.store[key])
            && (key in s.store && LivesAt(s.store[key], s'.now) && (forall a :: a in acts ==> !PresentsToken(a, token))
                ==> key in s'.store)
    decreases |acts|
  {
    if acts != [] {
      var s1 := Apply(cfg, s, acts[0]);
      TokenStep(cfg, s, acts[0], token);
      TimePasses(cfg, s1, acts[1..]);
      assert acts[0] in acts;
      TokenRun(cfg, s1, acts[1..], token);
    }
  }

  /* ---- Honest clients are answered ---- */

  // The client is registered and presents what it must.
  predicate MayAsk(cfg: Config, s: State, clientID: string, secret: string) {
    && clientID in s.clients
    && (s.clients[clientID].secretHash == "" || cfg.secretHash(secret) == s.clients[clientID].secretHash)
  }

  // The step is answered, for this client, user and scope, with a refresh token that lies in the cache from then on.
  predicate AnsweredWith(cfg: Config, s: State, s': State, source: Source, clientID: string, userID: string,
                         scope: string, next: string)
  {
    && |s'.responses| == |s.responses| + 1
    && s'.responses[|s.responses|].source == source
    && s'.responses[|s.responses|].grant == Grant(clientID, userID, scope, Some(next))
    && next in s'.used
    && LiesAt(s'.store, RefreshKey(cfg, next), RefreshRecord(clientID, userID, scope), cfg.refreshTTL, s.now)
  }

  lemma LiveCodeIsAnswered(cfg: Config, s: State, a: Action, r: Record)
    requires a.Exchange? && a.next !in s.used && MayAsk(cfg, s, a.clientID, a.secret)
    requires CodeKey(a.code) in s.store && LivesAt(s.store[CodeKey(a.code)], s.now)
    requires s.store[CodeKey(a.code)].value == r && r.CodeRecord? && r.clientID == a.clientID
    requires r.redirectURI == a.redirectURI && cfg.tokenHash(a.verifier) == r.challenge
    ensures var source := FromCode(a.code, a.redirectURI, a.verifier);
            AnsweredWith(cfg, s, Apply(cfg, s, a), source, a.clientID, r.userID, r.scope, a.next)
  {
  }

  // A client that was issued a code and presents it for the first time within two minutes, with its redirect URI, the
  // verifier and its own secret, is answered, for the user and scope of the authorization, whatever came in between.
  lemma HonestExchangeIsAnswered(cfg: Config, s: State, req: AuthorizeRequest, code: string, between: seq<Action>,
                                 a: Action)
    requires code !in s.used && req.clientID in s.clients
    requires req.redirectURI in s.clients[req.clientID].redirectURIs
    requires req.challenge != "" && req.challengeMethod == "S256"
    requires forall b :: b in between ==> !PresentsCode(b, code)
    requires a.Exchange? && a.clientID == req.clientID && a.code == code && a.redirectURI == req.redirectURI
    requires cfg.tokenHash(a.verifier) == req.challenge
    requires var s2 := Run(cfg, Apply(cfg, s, Authorize(req, code)), between);
             s2.now <= s.now + 120 && a.next !in s2.used && MayAsk(cfg, s2, a.clientID, a.secret)
    ensures var s2 := Run(cfg, Apply(cfg, s, Authorize(req, code)), between);
            AnsweredWith(cfg, s2, Apply(cfg, s2, a), FromCode(code, a.redirectURI, a.verifier),
                         req.clientID, req.userID, req.scope, a.next)
  {
    var s1 := Apply(cfg, s, Authorize(req, code));
    CodeRun(cfg, s1, between, code);
    LiveCodeIsAnswered(cfg, Run(cfg, s1, between), a, RecordOf(req));
  }

  // A client that holds a refresh token and presents it for the first time before it expires is answered, for the same
  // user and scope, with a new one.
  lemma HonestRefreshIsAnswered(cfg: Config, s: State, between: seq<Action>, a: Action, userID: string, scope: string)
    requires Injective(cfg.tokenHash) && a.Refresh? && a.token in s.used
    requires RefreshKey(cfg, a.token) in s.store
    requires s.store[RefreshKey(cfg, a.token)].value == RefreshRecord(a.clientID, userID, scope)
    requires forall b :: b in between ==> !PresentsToken(b, a.token)
    requires var s2 := Run(cfg, s, between);
             LivesAt(s.store[RefreshKey(cfg, a.token)], s2.now) && a.next !in s2.used
             && MayAsk(cfg, s2, a.clientID, a.secret)
    ensures var s2 := Run(cfg, s, between);
            AnsweredWith(cfg, s2, Apply(cfg, s2, a), FromRefresh(a.token), a.clientID, userID, scope, a.next)
  {
    TokenRun(cfg, s, between, a.token);
  }

  // After its lifetime a refresh token is answered no more, whatever came in between.
  lemma LateRefreshIsRefused(cfg: Config, s: State, between: seq<Action>, a: Action)
    requires Injective(cfg.tokenHash) && a.Refresh? && a.token in s.used
    requires RefreshKey(cfg, a.token) in s.store ==>
               !LivesAt(s.store[RefreshKey(cfg, a.token)], Run(cfg, s, between).now)
    ensures var s2 := Run(cfg, s, between); Apply(cfg, s2, a).responses == s2.responses
  {
    TokenRun(cfg, s, between, a.token);
  }
}
