/** The realtime hub: a broadcast is written to the connections of its own instance at once, and published for every
    other instance to relay to theirs. */
module Fanout {
  import opened Text

  type Instance = string
  type Conn = string
  type Message = string

  datatype Envelope = Envelope(origin: Instance, auditOnly: bool, payload: Message)

  // What has been written to each connection, in order
  type Feeds = map<Conn, seq<Message>>

  // The value of a connection says whether it may see audit events.
  predicate Entitled(clients: map<Conn, bool>, c: Conn, auditOnly: bool) {
    c in clients && (auditOnly ==> clients[c])
  }

  function Delivered(feeds: Feeds, clients: map<Conn, bool>, msg: Message, auditOnly: bool): Feeds {
    map c | c in feeds :: if Entitled(clients, c, auditOnly) then feeds[c] + [msg] else feeds[c]
  }

  class Hub {
    const instanceID: Instance
    const clustered: bool
    var clients: map<Conn, bool>
    var feeds: Feeds
    var outbox: seq<Envelope>  // published

    ghost predicate Valid()
      reads this
    {
      clients.Keys <= feeds.Keys
    }

    constructor (id: Instance, redis: bool)
      ensures Valid() && instanceID == id && clustered == redis
      ensures clients == map[] && outbox == [] && feeds == map[]
    {
      instanceID, clustered, clients, outbox, feeds := id, redis, map[], [], map[];
    }

    method Add(c: Conn, canSeeAudit: bool)
      requires Valid()
      modifies this`clients, this`feeds
      ensures Valid() && clients == old(clients)[c := canSeeAudit]
      ensures feeds == if c in old(feeds) then old(feeds) else old(feeds)[c := []]
    {
      clients := clients[c := canSeeAudit];
      if c !in feeds {
        feeds := feeds[c := []];
      }
    }

    method Remove(c: Conn)
      requires Valid()
      modifies this`clients
      ensures Valid() && clients == old(clients) - {c}
    {
      clients := clients - {c};
    }

    method DeliverLocal(msg: Message, auditOnly: bool)
      requires Valid()
      modifies this`feeds
      ensures Valid() && feeds == Delivered(old(feeds), clients, msg, auditOnly)
    {
      var todo := clients.Keys;
      while todo != {}
        invariant todo <= clients.Keys && feeds.Keys == old(feeds).Keys
        invariant forall c :: c in feeds ==>
                    feeds[c] == if Entitled(clients, c, auditOnly) && c !in todo then old(feeds)[c] + [msg]
                                else old(feeds)[c]
        decreases |todo|
      {
        var c :| c in todo;
        todo := todo - {c};
        if auditOnly && !clients[c] {
          continue;
        }
        feeds := feeds[c := feeds[c] + [msg]];
      }
    }

    method Broadcast(msg: Message, auditOnly: bool)
      requires Valid()
      modifies this`feeds, this`outbox
      ensures Valid() && feeds == Delivered(old(feeds), clients, msg, auditOnly)
      ensures outbox == if clustered then old(outbox) + [Envelope(instanceID, auditOnly, msg)] else old(outbox)
    {
      DeliverLocal(msg, auditOnly);
      if !clustered { return; }
      outbox := outbox + [Envelope(instanceID, auditOnly, msg)];
    }

    // One message of the subscription
    method OnEnvelope(env: Envelope)
      requires Valid()
      modifies this`feeds
      ensures Valid()
      ensures feeds == if env.origin == instanceID then old(feeds)
                       else Delivered(old(feeds), clients, env.payload, env.auditOnly)
    {
      if env.origin == instanceID { return; }
      DeliverLocal(env.payload, env.auditOnly);
    }
  }

  /* ---- A cluster of instances ---- */

  datatype Home = Home(instance: Instance, canSeeAudit: bool)

  datatype Node = Node(
    clients: map<Conn, bool>,
    inbox: seq<Envelope>,     // handed over by the channel, not read yet
    handled: set<Message>)    // envelopes read

  datatype State = State(
    nodes: map<Instance, Node>,
    feeds: Feeds,
    homes: map<Conn, Home>,        // every connection so far
    sent: map<Message, Envelope>,  // every broadcast so far
    pending: set<Envelope>,        // delivered at the origin, not published yet
    lost: set<Message>)            // never published: the error is ignored

  datatype Action =
    | Add(instance: Instance, conn: Conn, canSeeAudit: bool)
    | Remove(instance: Instance, conn: Conn)
    | Broadcast(instance: Instance, message: Message, auditOnly: bool)
    | Publish(envelope: Envelope)
    | Lose(envelope: Envelope)
    | Relay(instance: Instance)

  function Published(nodes: map<Instance, Node>, env: Envelope): map<Instance, Node> {
    map i | i in nodes :: nodes[i].(inbox := nodes[i].inbox + [env])
  }

  // Broadcasts and connections are told apart: a step that reuses one does not happen.
  function Apply(s: State, a: Action): State {
    match a
    case Add(i, c, see) =>
      if i !in s.nodes || c in s.homes then s else
      var node := s.nodes[i];
      s.(nodes := s.nodes[i := node.(clients := node.clients[c := see])],
      homes := s.homes[c := Home(i, see)], feeds := s.feeds[c := []])
    case Remove(i, c) =>
      if i !in s.nodes then s else
      var node := s.nodes[i];
      s.(nodes := s.nodes[i := node.(clients := node.clients - {c})])
    case Broadcast(i, m, auditOnly) =>
      if i !in s.nodes || m in s.sent then s else
      var env := Envelope(i, auditOnly, m);
      s.(feeds := Delivered(s.feeds, s.nodes[i].clients, m, auditOnly),
      sent := s.sent[m := env], pending := s.pending + {env})
    case Publish(env) =>
      if env !in s.pending then s
      else s.(pending := s.pending - {env}, nodes := Published(s.nodes, env))
    case Lose(env) =>
      if env !in s.pending then s else s.(pending := s.pending - {env}, lost := s.lost + {env.payload})
    case Relay(i) =>
      if i !in s.nodes || s.nodes[i].inbox == [] then s else
      var node, env := s.nodes[i], s.nodes[i].inbox[0];
      s.(nodes := s.nodes[i := node.(inbox := node.inbox[1..], handled := node.handled + {env.payload})],
      feeds := if env.origin == i then s.feeds
      else Delivered(s.feeds, node.clients, env.payload, env.auditOnly))
  }

  function Run(s: State, acts: seq<Action>): State
    decreases |acts|
  {
    if acts == [] then s else Run(Apply(s, acts[0]), acts[1..])
  }

  // What a state says of a connection or of a broadcast is what the step that made it said, and stays so.
  lemma RecordsStay(s: State, a: Action, c: Conn, m: Message)
    ensures c in s.homes ==> c in Apply(s, a).homes && Apply(s, a).homes[c] == s.homes[c]
    ensures c in Apply(s, a).homes && c !in s.homes ==>
              var home := Apply(s, a).homes[c]; a == Add(home.instance, c, home.canSeeAudit)
    ensures m in s.sent ==> m in Apply(s, a).sent && Apply(s, a).sent[m] == s.sent[m]
    ensures m in Apply(s, a).sent && m !in s.sent ==>
              var env := Apply(s, a).sent[m]; a == Broadcast(env.origin, m, env.auditOnly) && env.payload == m
  {
  }

  predicate Initial(s: State) {
    && (forall i :: i in s.nodes ==> s.nodes[i] == Node(map[], [], {}))
    && s.feeds == map[] && s.homes == map[] && s.sent == map[] && s.pending == {} && s.lost == {}
  }

  /* ---- Where a broadcast is ---- */

  predicate Known(sent: map<Message, Envelope>, env: Envelope) {
    env.payload in sent && sent[env.payload] == env
  }

  ghost predicate PendingSound(sent: map<Message, Envelope>, pending: set<Envelope>, lost: set<Message>) {
    && (forall m :: m in sent ==> sent[m].payload == m)
    && (forall env :: env in pending ==> Known(sent, env) && env.payload !in lost)
    && lost <= sent.Keys
  }

  // For one instance, every broadcast is not published, lost, in the inbox, or read.
  predicate Somewhere(env: Envelope, pending: set<Envelope>, lost: set<Message>, inbox: seq<Envelope>,
                      handled: set<Message>)
  {
    env in pending || env.payload in lost || env in inbox || env.payload in handled
  }

  // ... and in no two of these places
  ghost predicate Placed(sent: map<Message, Envelope>, pending: set<Envelope>, lost: set<Message>,
                         inbox: seq<Envelope>, handled: set<Message>)
  {
    && NoDuplicates(inbox)
    && (forall env :: env in inbox ==>
          Known(sent, env) && env !in pending && env.payload !in lost && env.payload !in handled)
    && (forall m :: m in handled ==> m in sent && sent[m] !in pending && m !in lost)
    && (forall m :: m in sent ==> Somewhere(sent[m], pending, lost, inbox, handled))
  }

  ghost predicate ClientsSound(i: Instance, clients: map<Conn, bool>, homes: map<Conn, Home>) {
    forall c :: c in clients ==> c in homes && homes[c] == Home(i, clients[c])
  }

  // The broadcast was delivered at the instance: at its origin when it was sent, elsewhere when its envelope was read.
  predicate Arrived(env: Envelope, i: Instance, handled: set<Message>) {
    env.origin == i || env.payload in handled
  }

  predicate MaySee(env: Envelope, canSeeAudit: bool) {
    env.auditOnly ==> canSeeAudit
  }

  // Nothing is written twice, nothing to a connection that may not see it, nothing before it arrived.
  ghost predicate FeedSound(sent: map<Message, Envelope>, handled: set<Message>, home: Home, feed: seq<Message>) {
    && NoDuplicates(feed)
    && forall m :: m in feed ==>
         m in sent && sent[m].payload == m && Arrived(sent[m], home.instance, handled)
         && MaySee(sent[m], home.canSeeAudit)
  }

  ghost predicate NodeSound(s: State, i: Instance)
    requires i in s.nodes
  {
    && ClientsSound(i, s.nodes[i].clients, s.homes)
    && Placed(s.sent, s.pending, s.lost, s.nodes[i].inbox, s.nodes[i].handled)
  }

  ghost predicate ConnSound(s: State, c: Conn)
    requires c in s.homes
  {
    && s.homes[c].instance in s.nodes && c in s.feeds
    && FeedSound(s.sent, s.nodes[s.homes[c].instance].handled, s.homes[c], s.feeds[c])
  }

  ghost predicate Inv(s: State) {
    && PendingSound(s.sent, s.pending, s.lost)
    && s.feeds.Keys == s.homes.Keys
    && (forall i :: i in s.nodes ==> NodeSound(s, i))
    && (forall c :: c in s.homes ==> ConnSound(s, c))
  }

  /* ---- Each step, one instance at a time ---- */

  lemma BroadcastPlaced(sent: map<Message, Envelope>, pending: set<Envelope>, lost: set<Message>,
                        inbox: seq<Envelope>, handled: set<Message>, env: Envelope)
    requires PendingSound(sent, pending, lost) && env.payload !in sent
    requires Placed(sent, pending, lost, inbox, handled)
    ensures Placed(sent[env.payload := env], pending + {env}, lost, inbox, handled)
  {
  }

  lemma PublishPlaced(sent: map<Message, Envelope>, pending: set<Envelope>, lost: set<Message>,
                      inbox: seq<Envelope>, handled: set<Message>, env: Envelope)
    requires PendingSound(sent, pending, lost) && env in pending
    requires Placed(sent, pending, lost, inbox, handled)
    ensures Placed(sent, pending - {env}, lost, inbox + [env], handled)
  {
  }

  lemma LosePlaced(sent: map<Message, Envelope>, pending: set<Envelope>, lost: set<Message>,
                   inbox: seq<Envelope>, handled: set<Message>, env: Envelope)
    requires PendingSound(sent, pending, lost) && env in pending
    requires Placed(sent, pending, lost, inbox, handled)
    ensures Placed(sent, pending - {env}, lost + {env.payload}, inbox, handled)
  {
  }

  lemma RelayPlaced(sent: map<Message, Envelope>, pending: set<Envelope>, lost: set<Message>,
                    inbox: seq<Envelope>, handled: set<Message>)
    requires Placed(sent, pending, lost, inbox, handled) && inbox != []
    ensures Placed(sent, pending, lost, inbox[1..], handled + {inbox[0].payload})
  {
  }

  lemma StepPlaced(s: State, a: Action, i: Instance)
    requires i in s.nodes && NodeSound(s, i) && PendingSound(s.sent, s.pending, s.lost)
    ensures var s' := Apply(s, a);
            i in s'.nodes && Placed(s'.sent, s'.pending, s'.lost, s'.nodes[i].inbox, s'.nodes[i].handled)
  {
    var node := s.nodes[i];
    match a
    case Broadcast(j, m, auditOnly) =>
      if j in s.nodes && m !in s.sent {
        BroadcastPlaced(s.sent, s.pending, s.lost, node.inbox, node.handled, Envelope(j, auditOnly, m));
      }
    case Publish(env) =>
      if env in s.pending { PublishPlaced(s.sent, s.pending, s.lost, node.inbox, node.handled, env); }
    case Lose(env) =>
      if env in s.pending { LosePlaced(s.sent, s.pending, s.lost, node.inbox, node.handled, env); }
    case Relay(j) =>
      if j == i && node.inbox != [] { RelayPlaced(s.sent, s.pending, s.lost, node.inbox, node.handled); }
    case _ =>
  }

  lemma StepNode(s: State, a: Action, i: Instance)
    requires i in s.nodes && NodeSound(s, i) && PendingSound(s.sent, s.pending, s.lost)
    ensures i in Apply(s, a).nodes && NodeSound(Apply(s, a), i)
  {
    StepPlaced(s, a, i);
    assert ClientsSound(i, Apply(s, a).nodes[i].clients, Apply(s, a).homes);
  }

  /* ---- Each step, one connection at a time ---- */

  lemma FeedGrows(sent: map<Message, Envelope>, sent': map<Message, Envelope>, handled: set<Message>,
                  handled': set<Message>, home: Home, feed: seq<Message>)
    requires FeedSound(sent, handled, home, feed) && handled <= handled'
    requires forall m :: m in sent ==> m in sent' && sent'[m] == sent[m]
    ensures FeedSound(sent', handled', home, feed)
  {
  }

  lemma FeedGets(sent: map<Message, Envelope>, handled: set<Message>, home: Home, feed: seq<Message>, env: Envelope)
    requires FeedSound(sent, handled, home, feed) && Known(sent, env) && env.payload !in feed
    requires Arrived(env, home.instance, handled) && MaySee(env, home.canSeeAudit)
    ensures FeedSound(sent, handled, home, feed + [env.payload])
  {
  }

  lemma BroadcastConn(s: State, i: Instance, m: Message, auditOnly: bool, c: Conn)
    requires Inv(s) && c in s.homes && i in s.nodes && m !in s.sent
    ensures ConnSound(Apply(s, Broadcast(i, m, auditOnly)), c)
  {
    var env, home := Envelope(i, auditOnly, m), s.homes[c];
    assert ConnSound(s, c) && NodeSound(s, i);
    var handled := s.nodes[home.instance].handled;
    FeedGrows(s.sent, s.sent[m := env], handled, handled, home, s.feeds[c]);
    if Entitled(s.nodes[i].clients, c, auditOnly) {
      FeedGets(s.sent[m := env], handled, home, s.feeds[c], env);
    }
  }

  lemma RelayConn(s: State, i: Instance, c: Conn)
    requires Inv(s) && c in s.homes && i in s.nodes && s.nodes[i].inbox != []
    ensures ConnSound(Apply(s, Relay(i)), c)
  {
    var env, home, node := s.nodes[i].inbox[0], s.homes[c], s.nodes[i];
    assert ConnSound(s, c) && NodeSound(s, i);
    assert env in node.inbox;
    var handled := s.nodes[home.instance].handled;
    var handled' := Apply(s, Relay(i)).nodes[home.instance].handled;
    FeedGrows(s.sent, s.sent, handled, handled', home, s.feeds[c]);
    if env.origin != i && Entitled(node.clients, c, env.auditOnly) {
      FeedGets(s.sent, handled', home, s.feeds[c], env);
    }
  }

  // The other steps change neither what `c` was sent nor what its instance knows.
  lemma OtherConn(s: State, a: Action, c: Conn)
    requires c in s.homes && ConnSound(s, c) && !a.Broadcast? && !a.Relay?
    ensures var s', i := Apply(s, a), s.homes[c].instance;
            && c in s'.homes && s'.homes[c] == s.homes[c] && c in s'.feeds && s'.feeds[c] == s.feeds[c]
            && s'.sent == s.sent && i in s'.nodes && s'.nodes[i].handled == s.nodes[i].handled
  {
  }

  lemma StepConn(s: State, a: Action, c: Conn)
    requires Inv(s) && c in Apply(s, a).homes
    ensures ConnSound(Apply(s, a), c)
  {
    if c !in s.homes {
      assert a == Add(a.instance, c, a.canSeeAudit);
    } else if a.Broadcast? && a.instance in s.nodes && a.message !in s.sent {
      BroadcastConn(s, a.instance, a.message, a.auditOnly, c);
    } else if a.Relay? && a.instance in s.nodes && s.nodes[a.instance].inbox != [] {
      RelayConn(s, a.instance, c);
    } else {
      assert ConnSound(s, c);
      if !a.Broadcast? && !a.Relay? {
        OtherConn(s, a, c);
      }
    }
  }

  lemma StepPending(s: State, a: Action)
    requires PendingSound(s.sent, s.pending, s.lost) && s.feeds.Keys == s.homes.Keys
    ensures PendingSound(Apply(s, a).sent, Apply(s, a).pending, Apply(s, a).lost)
    ensures Apply(s, a).feeds.Keys == Apply(s, a).homes.Keys
  {
    match a
    case Lose(env) =>
      if env in s.pending {
        forall e | e in s.pending - {env} ensures e.payload != env.payload {
          assert Known(s.sent, e) && Known(s.sent, env);
        }
      }
    case _ =>
  }

  lemma StepKeepsInv(s: State, a: Action)
    requires Inv(s)
    ensures Inv(Apply(s, a)) && Apply(s, a).nodes.Keys == s.nodes.Keys
  {
    var s' := Apply(s, a);
    assert s'.nodes.Keys == s.nodes.Keys;
    forall i | i in s'.nodes ensures NodeSound(s', i) {
      StepNode(s, a, i);
    }
    forall c | c in s'.homes ensures ConnSound(s', c) {
      StepConn(s, a, c);
    }
    StepPending(s, a);
  }

  lemma {:induction false} RunKeepsInv(s: State, acts: seq<Action>)
    requires Inv(s)
    ensures Inv(Run(s, acts)) && Run(s, acts).nodes.Keys == s.nodes.Keys
    decreases |acts|
  {
    if acts != [] {
      StepKeepsInv(s, acts[0]);
      RunKeepsInv(Apply(s, acts[0]), acts[1..]);
    }
  }

  // In any interleaving nothing is written to a connection twice, and audit-only payloads never reach a connection
  // without audit rights.
  lemma AtMostOnceAndOnlyToTheEntitled(s: State, acts: seq<Action>, c: Conn)
    requires Initial(s) && c in Run(s, acts).homes
    ensures var s' := Run(s, acts);
            && c in s'.feeds && NoDuplicates(s'.feeds[c])
            && forall m :: m in s'.feeds[c] ==> m in s'.sent && MaySee(s'.sent[m], s'.homes[c].canSeeAudit)
  {
    RunKeepsInv(s, acts);
    assert ConnSound(Run(s, acts), c);
  }

  /* ---- Exactly once for whoever stays ---- */

  // `c` is connected to `i`; what was broadcast since `before` and has arrived at `i` is written to it.
  ghost predicate ServedSince(before: set<Message>, s: State, i: Instance, c: Conn, canSeeAudit: bool) {
    && i in s.nodes && c in s.nodes[i].clients && s.nodes[i].clients[c] == canSeeAudit
    && c in s.feeds && before <= s.sent.Keys
    && forall m :: m in s.sent && m !in before ==>
         (m in s.feeds[c] <==> Arrived(s.sent[m], i, s.nodes[i].handled) && MaySee(s.sent[m], canSeeAudit))
  }

  lemma BroadcastServes(before: set<Message>, s: State, j: Instance, m: Message, auditOnly: bool, i: Instance, c: Conn,
                        canSeeAudit: bool)
    requires Inv(s) && ServedSince(before, s, i, c, canSeeAudit) && j in s.nodes && m !in s.sent
    ensures ServedSince(before, Apply(s, Broadcast(j, m, auditOnly)), i, c, canSeeAudit)
  {
    assert NodeSound(s, i) && NodeSound(s, j) && ConnSound(s, c);
    assert Entitled(s.nodes[j].clients, c, auditOnly) <==> j == i && (auditOnly ==> canSeeAudit);
    assert m !in s.feeds[c] && m !in s.nodes[i].handled;
  }

  lemma RelayServes(before: set<Message>, s: State, j: Instance, i: Instance, c: Conn, canSeeAudit: bool)
    requires Inv(s) && ServedSince(before, s, i, c, canSeeAudit) && j in s.nodes && s.nodes[j].inbox != []
    ensures ServedSince(before, Apply(s, Relay(j)), i, c, canSeeAudit)
  {
    var env := s.nodes[j].inbox[0];
    assert NodeSound(s, i) && NodeSound(s, j) && ConnSound(s, c);
    assert env in s.nodes[j].inbox && Known(s.sent, env);
    assert Entitled(s.nodes[j].clients, c, env.auditOnly) <==> j == i && MaySee(env, canSeeAudit);
  }

  // The other steps change neither what `c` was sent nor what its instance knows.
  lemma OtherKeeps(s: State, a: Action, i: Instance, c: Conn)
    requires i in s.nodes && c in s.nodes[i].clients && c in s.homes && c in s.feeds
    requires a != Remove(i, c) && !a.Broadcast? && !a.Relay?
    ensures var s' := Apply(s, a);
            && s'.sent == s.sent && i in s'.nodes && c in s'.nodes[i].clients
            && s'.nodes[i].clients[c] == s.nodes[i].clients[c] && s'.nodes[i].handled == s.nodes[i].handled
            && c in s'.feeds && s'.feeds[c] == s.feeds[c]
  {
  }

  lemma SameServes(before: set<Message>, s: State, s': State, i: Instance, c: Conn, canSeeAudit: bool)
    requires ServedSince(before, s, i, c, canSeeAudit)
    requires s'.sent == s.sent && i in s'.nodes && c in s'.nodes[i].clients
    requires s'.nodes[i].clients[c] == s.nodes[i].clients[c] && s'.nodes[i].handled == s.nodes[i].handled
    requires c in s'.feeds && s'.feeds[c] == s.feeds[c]
    ensures ServedSince(before, s', i, c, canSeeAudit)
  {
  }

  lemma StepServes(before: set<Message>, s: State, a: Action, i: Instance, c: Conn, canSeeAudit: bool)
    requires Inv(s) && ServedSince(before, s, i, c, canSeeAudit) && a != Remove(i, c)
    ensures ServedSince(before, Apply(s, a), i, c, canSeeAudit)
  {
    match a
    case Broadcast(j, m, auditOnly) =>
      if j in s.nodes && m !in s.sent { BroadcastServes(before, s, j, m, auditOnly, i, c, canSeeAudit); }
    case Relay(j) =>
      if j in s.nodes && s.nodes[j].inbox != [] { RelayServes(before, s, j, i, c, canSeeAudit); }
    case _ =>
      assert NodeSound(s, i);
      OtherKeeps(s, a, i, c);
      SameServes(before, s, Apply(s, a), i, c, canSeeAudit);
  }

  lemma {:induction false} RunServes(before: set<Message>, s: State, acts: seq<Action>, i: Instance, c: Conn,
                                     canSeeAudit: bool)
    requires Inv(s) && ServedSince(before, s, i, c, canSeeAudit) && Remove(i, c) !in acts
    ensures ServedSince(before, Run(s, acts), i, c, canSeeAudit)
    decreases |acts|
  {
    if acts != [] {
      assert acts[0] in acts;
      StepKeepsInv(s, acts[0]);
      StepServes(before, s, acts[0], i, c, canSeeAudit);
      RunServes(before, Apply(s, acts[0]), acts[1..], i, c, canSeeAudit);
    }
  }

  // Everything published has been read by the instance.
  predicate Quiet(s: State, i: Instance) {
    i in s.nodes && s.pending == {} && s.nodes[i].inbox == []
  }

  lemma CountOnce<T>(s: seq<T>, x: T)
    requires NoDuplicates(s)
    ensures multiset(s)[x] == if x in s then 1 else 0
  {
    if s != [] {
      var last := |s| - 1;
      assert s == s[..last] + [s[last]];
      CountOnce(s[..last], x);
    }
  }

  lemma ServedFromNow(s: State, i: Instance, c: Conn)
    requires Inv(s) && i in s.nodes && c in s.nodes[i].clients
    ensures ServedSince(s.sent.Keys, s, i, c, s.nodes[i].clients[c])
  {
  }

  lemma WhenQuiet(before: set<Message>, s: State, i: Instance, c: Conn, canSeeAudit: bool, m: Message)
    requires Inv(s) && ServedSince(before, s, i, c, canSeeAudit) && Quiet(s, i) && m in s.sent && m !in before
    ensures multiset(s.feeds[c])[m] ==
            if MaySee(s.sent[m], canSeeAudit) && (s.sent[m].origin == i || m !in s.lost) then 1 else 0
  {
    assert NodeSound(s, i);
    assert ConnSound(s, c);
    assert s.sent[m].payload == m;
    assert Somewhere(s.sent[m], s.pending, s.lost, s.nodes[i].inbox, s.nodes[i].handled);
    CountOnce(s.feeds[c], m);
  }

  // A connection that stays registered gets every later broadcast it may see exactly once, as soon as everything
  // published has been read, unless the publishing itself failed; on the origin instance it gets it in any case.
  lemma ExactlyOnce(s: State, earlier: seq<Action>, later: seq<Action>, i: Instance, c: Conn, m: Message)
    requires Initial(s) && Remove(i, c) !in later
    requires var s1 := Run(s, earlier); i in s1.nodes && c in s1.nodes[i].clients && m !in s1.sent
    requires var s2 := Run(Run(s, earlier), later); Quiet(s2, i) && m in s2.sent
    ensures var s1, s2 := Run(s, earlier), Run(Run(s, earlier), later);
            && c in s2.feeds
            && multiset(s2.feeds[c])[m] ==
               if MaySee(s2.sent[m], s1.nodes[i].clients[c]) && (s2.sent[m].origin == i || m !in s2.lost) then 1 else 0
  {
    var s1 := Run(s, earlier);
    RunKeepsInv(s, earlier);
    ServedFromNow(s1, i, c);
    RunServes(s1.sent.Keys, s1, later, i, c, s1.nodes[i].clients[c]);
    RunKeepsInv(s1, later);
    WhenQuiet(s1.sent.Keys, Run(s1, later), i, c, s1.nodes[i].clients[c], m);
  }

  /* ---- A broadcast does arrive ---- */

  function Relays(i: Instance, n: nat): seq<Action> {
    if n == 0 then [] else [Relay(i)] + Relays(i, n - 1)
  }

  // As many receipts as the inbox is long read all of it.
  lemma {:induction false} RelaysReadAll(s: State, i: Instance)
    requires i in s.nodes
    ensures var s' := Run(s, Relays(i, |s.nodes[i].inbox|));
            && i in s'.nodes && s'.nodes[i].inbox == [] && s.nodes[i].handled <= s'.nodes[i].handled
            && (forall env :: env in s.nodes[i].inbox ==> env.payload in s'.nodes[i].handled)
    ensures s.sent == Run(s, Relays(i, |s.nodes[i].inbox|)).sent
    decreases |s.nodes[i].inbox|
  {
    var inbox := s.nodes[i].inbox;
    if inbox != [] {
      var s' := Apply(s, Relay(i));
      assert Relays(i, |inbox|)[1..] == Relays(i, |inbox| - 1);
      assert inbox == [inbox[0]] + inbox[1..];
      RelaysReadAll(s', i);
    }
  }

  lemma {:induction false} RelaysRemoveNobody(i: Instance, n: nat, j: Instance, c: Conn)
    ensures Remove(j, c) !in Relays(i, n)
  {
    if n > 0 { RelaysRemoveNobody(i, n - 1, j, c); }
  }

  lemma ArrivesIn(s: State, env: Envelope, j: Instance)
    requires env in s.pending && j in s.nodes
    ensures var s' := Apply(s, Publish(env));
            j in s'.nodes && env in s'.nodes[j].inbox && s'.sent == s.sent && s'.nodes.Keys == s.nodes.Keys
  {
    var inbox := s.nodes[j].inbox + [env];
    assert inbox[|s.nodes[j].inbox|] == env;
  }

  function SentAndPublished(s: State, env: Envelope): State {
    Apply(Apply(s, Broadcast(env.origin, env.payload, env.auditOnly)), Publish(env))
  }

  lemma StillServed(s: State, env: Envelope, j: Instance, c: Conn)
    requires Inv(s) && env.origin in s.nodes && env.payload !in s.sent && j in s.nodes && c in s.nodes[j].clients
    ensures var s2 := SentAndPublished(s, env);
            Inv(s2) && ServedSince(s.sent.Keys, s2, j, c, s.nodes[j].clients[c])
  {
    var send, publish, see := Broadcast(env.origin, env.payload, env.auditOnly), Publish(env), s.nodes[j].clients[c];
    ServedFromNow(s, j, c);
    StepKeepsInv(s, send);
    StepServes(s.sent.Keys, s, send, j, c, see);
    StepKeepsInv(Apply(s, send), publish);
    StepServes(s.sent.Keys, Apply(s, send), publish, j, c, see);
  }

  lemma InTheInbox(s: State, env: Envelope, j: Instance)
    requires env.origin in s.nodes && env.payload !in s.sent && j in s.nodes
    ensures var s2 := SentAndPublished(s, env);
            && j in s2.nodes && env in s2.nodes[j].inbox
            && env.payload in s2.sent && s2.sent[env.payload] == env
  {
    ArrivesIn(Apply(s, Broadcast(env.origin, env.payload, env.auditOnly)), env, j);
  }

  // Sent on one instance, published, and read on another: the message is with every connection there that may see it.
  lemma BroadcastArrives(s: State, env: Envelope, j: Instance, c: Conn)
    requires Inv(s) && env.origin in s.nodes && env.payload !in s.sent && j in s.nodes && c in s.nodes[j].clients
    requires env.auditOnly ==> s.nodes[j].clients[c]
    ensures var s2 := SentAndPublished(s, env);
            j in s2.nodes
            && var s3 := Run(s2, Relays(j, |s2.nodes[j].inbox|));
               c in s3.feeds && env.payload in s3.feeds[c]
  {
    var s2 := SentAndPublished(s, env);
    StillServed(s, env, j, c);
    InTheInbox(s, env, j);
    RelaysRemoveNobody(j, |s2.nodes[j].inbox|, j, c);
    RunServes(s.sent.Keys, s2, Relays(j, |s2.nodes[j].inbox|), j, c, s.nodes[j].clients[c]);
    RelaysReadAll(s2, j);
  }

  /* ---- Nothing after a connection is removed ---- */

  ghost predicate Disconnected(s: State, c: Conn) {
    c in s.homes && c in s.feeds && forall i :: i in s.nodes ==> c !in s.nodes[i].clients
  }

  lemma StepStaysSilent(s: State, a: Action, c: Conn)
    requires Disconnected(s, c)
    ensures Disconnected(Apply(s, a), c) && Apply(s, a).feeds[c] == s.feeds[c]
  {
  }

  lemma {:induction false} RunStaysSilent(s: State, acts: seq<Action>, c: Conn)
    requires Disconnected(s, c)
    ensures Disconnected(Run(s, acts), c) && Run(s, acts).feeds[c] == s.feeds[c]
    decreases |acts|
  {
    if acts != [] {
      StepStaysSilent(s, acts[0], c);
      RunStaysSilent(Apply(s, acts[0]), acts[1..], c);
    }
  }

  // Once a connection has been removed from its instance, nothing is written to it any more.
  lemma SilentAfterRemove(s: State, i: Instance, c: Conn, acts: seq<Action>)
    requires Inv(s) && i in s.nodes && c in s.nodes[i].clients
    ensures var s' := Run(Apply(s, Remove(i, c)), acts); c in s.feeds && c in s'.feeds && s'.feeds[c] == s.feeds[c]
  {
    assert NodeSound(s, i);
    forall j | j in s.nodes && j != i ensures c !in s.nodes[j].clients { assert NodeSound(s, j); }
    RunStaysSilent(Apply(s, Remove(i, c)), acts, c);
  }

  /* ---- The order of deliveries ---- */

  // A step writes at most one message to a connection, after what was written before.
  lemma FeedsOnlyGrow(s: State, a: Action, c: Conn)
    requires s.feeds.Keys == s.homes.Keys && c in s.feeds
    ensures c in Apply(s, a).feeds
    ensures s.feeds[c] <= Apply(s, a).feeds[c] && |Apply(s, a).feeds[c]| <= |s.feeds[c]| + 1
  {
  }

  predicate Before(feed: seq<Message>, x: Message, y: Message) {
    forall i, k :: 0 <= i < |feed| && 0 <= k < |feed| && feed[i] == x && feed[k] == y ==> i < k
  }

  predicate Queued(inbox: seq<Envelope>, x: Message, y: Message) {
    forall i, k :: 0 <= i < |inbox| && 0 <= k < |inbox| && inbox[i].payload == x && inbox[k].payload == y ==> i < k
  }

  // The instance has read `x`, or will before it reads `y`; what its connections have got is in this order.
  ghost predicate KeepsOrder(s: State, j: Instance, x: Message, y: Message) {
    && x != y && j in s.nodes && x in s.sent && s.sent[x].origin != j
    && (forall c :: c in s.homes && c in s.feeds && s.homes[c].instance == j ==> Before(s.feeds[c], x, y))
    && (x in s.nodes[j].handled
        || (s.sent[x] in s.nodes[j].inbox && y !in s.nodes[j].handled && Queued(s.nodes[j].inbox, x, y)))
  }

  // A message of the instance itself is written at once, without waiting for its turn.
  predicate SentFrom(s: State, j: Instance, y: Message) {
    y in s.sent && s.sent[y].origin == j
  }

  lemma BeforeGrows(feed: seq<Message>, x: Message, y: Message, m: Message)
    requires Before(feed, x, y) && m != x
    ensures Before(feed + [m], x, y)
  {
  }

  lemma BroadcastKeepsOrder(s: State, a: Action, j: Instance, x: Message, y: Message)
    requires Inv(s) && KeepsOrder(s, j, x, y) && a.Broadcast? && !SentFrom(Apply(s, a), j, y)
    ensures KeepsOrder(Apply(s, a), j, x, y)
  {
    var s' := Apply(s, a);
    if a.instance in s.nodes && a.message !in s.sent {
      forall c | c in s'.homes && s'.homes[c].instance == j ensures c in s'.feeds && Before(s'.feeds[c], x, y) {
        assert ConnSound(s, c);
        BeforeGrows(s.feeds[c], x, y, a.message);
      }
    }
  }

  // A connection has nothing yet that comes from elsewhere and that its instance has not read.
  lemma UnreadIsUnsent(s: State, j: Instance, y: Message, c: Conn)
    requires Inv(s) && c in s.homes && s.homes[c].instance == j && !SentFrom(s, j, y)
    requires j in s.nodes && y !in s.nodes[j].handled
    ensures c in s.feeds && y !in s.feeds[c]
  {
    assert ConnSound(s, c);
  }

  lemma RelayReadsInOrder(s: State, j: Instance, x: Message, y: Message)
    requires Inv(s) && KeepsOrder(s, j, x, y) && s.nodes[j].inbox != [] && !SentFrom(s, j, y)
    ensures var m := s.nodes[j].inbox[0].payload;
            if x in s.nodes[j].handled then m != x else m != y && (m != x ==> s.sent[x] in s.nodes[j].inbox[1..])
  {
    var inbox := s.nodes[j].inbox;
    assert NodeSound(s, j);
    assert inbox[0] in inbox && Known(s.sent, inbox[0]);
    if x !in s.nodes[j].handled {
      var i :| 0 <= i < |inbox| && inbox[i] == s.sent[x];
      assert inbox[i].payload == x;
      if i > 0 { assert inbox[1..][i - 1] == s.sent[x]; }
    }
  }

  lemma RelayKeepsOrder(s: State, j: Instance, x: Message, y: Message)
    requires Inv(s) && KeepsOrder(s, j, x, y) && s.nodes[j].inbox != [] && !SentFrom(s, j, y)
    ensures KeepsOrder(Apply(s, Relay(j)), j, x, y)
  {
    var s', env := Apply(s, Relay(j)), s.nodes[j].inbox[0];
    RelayReadsInOrder(s, j, x, y);
    assert NodeSound(s, j);
    forall c | c in s'.homes && s'.homes[c].instance == j ensures c in s'.feeds && Before(s'.feeds[c], x, y) {
      assert ConnSound(s, c);
      if env.payload != x {
        BeforeGrows(s.feeds[c], x, y, env.payload);
      } else {
        UnreadIsUnsent(s, j, y, c);
      }
    }
  }

  // A step that leaves the feeds and the readings of `j` alone keeps the order if the inbox does.
  lemma SameKeepsOrder(s: State, s': State, j: Instance, x: Message, y: Message)
    requires KeepsOrder(s, j, x, y) && j in s'.nodes && s'.nodes[j].handled == s.nodes[j].handled
    requires s'.sent == s.sent
    requires s.sent[x] in s.nodes[j].inbox && Queued(s.nodes[j].inbox, x, y) ==>
               s.sent[x] in s'.nodes[j].inbox && Queued(s'.nodes[j].inbox, x, y)
    requires forall c :: c in s'.homes && c in s'.feeds && s'.homes[c].instance == j ==>
               || s'.feeds[c] == []
               || (c in s.homes && c in s.feeds && s.homes[c] == s'.homes[c] && s'.feeds[c] == s.feeds[c])
    ensures KeepsOrder(s', j, x, y)
  {
  }

  lemma RelayElsewhere(s: State, i: Instance, j: Instance, c: Conn)
    requires Inv(s) && i != j && c in s.homes && s.homes[c].instance == j
    ensures c in s.feeds && c in Apply(s, Relay(i)).feeds && Apply(s, Relay(i)).feeds[c] == s.feeds[c]
  {
    assert ConnSound(s, c);
    if i in s.nodes { assert NodeSound(s, i); }
  }

  lemma RelayElsewhereKeepsOrder(s: State, i: Instance, j: Instance, x: Message, y: Message)
    requires Inv(s) && KeepsOrder(s, j, x, y) && i != j
    ensures KeepsOrder(Apply(s, Relay(i)), j, x, y)
  {
    forall c | c in s.homes && s.homes[c].instance == j
      ensures c in s.feeds && c in Apply(s, Relay(i)).feeds && Apply(s, Relay(i)).feeds[c] == s.feeds[c]
    {
      RelayElsewhere(s, i, j, c);
    }
    SameKeepsOrder(s, Apply(s, Relay(i)), j, x, y);
  }

  lemma PublishKeepsOrder(s: State, env: Envelope, j: Instance, x: Message, y: Message)
    requires Inv(s) && KeepsOrder(s, j, x, y)
    ensures KeepsOrder(Apply(s, Publish(env)), j, x, y)
  {
    if env in s.pending {
      assert NodeSound(s, j) && Known(s.sent, env);
      var inbox := s.nodes[j].inbox;
      if s.sent[x] in inbox { assert env.payload != x; }
      SameKeepsOrder(s, Apply(s, Publish(env)), j, x, y);
    }
  }

  lemma AddKeepsOrder(s: State, a: Action, j: Instance, x: Message, y: Message)
    requires Inv(s) && KeepsOrder(s, j, x, y) && a.Add?
    ensures KeepsOrder(Apply(s, a), j, x, y)
  {
    SameKeepsOrder(s, Apply(s, a), j, x, y);
  }

  lemma OtherKeepsOrder(s: State, a: Action, j: Instance, x: Message, y: Message)
    requires Inv(s) && KeepsOrder(s, j, x, y) && (a.Remove? || a.Lose?)
    ensures KeepsOrder(Apply(s, a), j, x, y)
  {
    SameKeepsOrder(s, Apply(s, a), j, x, y);
  }

  lemma StepKeepsOrder(s: State, a: Action, j: Instance, x: Message, y: Message)
    requires Inv(s) && (SentFrom(s, j, y) || KeepsOrder(s, j, x, y))
    ensures SentFrom(Apply(s, a), j, y) || KeepsOrder(Apply(s, a), j, x, y)
  {
    if !SentFrom(s, j, y) && !SentFrom(Apply(s, a), j, y) {
      match a
      case Add(_, _, _) => AddKeepsOrder(s, a, j, x, y);
      case Broadcast(_, _, _) => BroadcastKeepsOrder(s, a, j, x, y);
      case Publish(env) => PublishKeepsOrder(s, env, j, x, y);
      case Relay(i) =>
        if i != j { RelayElsewhereKeepsOrder(s, i, j, x, y); }
        else if s.nodes[j].inbox != [] { RelayKeepsOrder(s, j, x, y); }
      case _ => OtherKeepsOrder(s, a, j, x, y);
    }
  }

  lemma {:induction false} RunKeepsOrder(s: State, acts: seq<Action>, j: Instance, x: Message, y: Message)
    requires Inv(s) && (SentFrom(s, j, y) || KeepsOrder(s, j, x, y))
    ensures SentFrom(Run(s, acts), j, y) || KeepsOrder(Run(s, acts), j, x, y)
    decreases |acts|
  {
    if acts != [] {
      StepKeepsInv(s, acts[0]);
      StepKeepsOrder(s, acts[0], j, x, y);
      RunKeepsOrder(Apply(s, acts[0]), acts[1..], j, x, y);
    }
  }

  // The publication of `x`, with `y` still to come, puts them in order everywhere but at their origins.
  lemma PublishOrders(s: State, env: Envelope, y: Message, j: Instance)
    requires Inv(s) && env in s.pending && j in s.nodes && env.origin != j && y != env.payload
    requires y in s.sent ==> s.sent[y] in s.pending
    ensures SentFrom(s, j, y) || KeepsOrder(Apply(s, Publish(env)), j, env.payload, y)
  {
    ArrivesIn(s, env, j);
    assert NodeSound(s, j) && Known(s.sent, env);
    forall c | c in s.homes && s.homes[c].instance == j ensures Before(s.feeds[c], env.payload, y) {
      assert ConnSound(s, c);
      UnreadIsUnsent(s, j, env.payload, c);
    }
  }

  // Two messages from other instances reach every connection that gets both in the order of their publication.
  lemma PublicationOrderIsKept(s: State, env: Envelope, y: Message, acts: seq<Action>, j: Instance, c: Conn)
    requires Inv(s) && env in s.pending && (y in s.sent ==> s.sent[y] in s.pending) && y != env.payload
    requires j in s.nodes && env.origin != j
    ensures var s' := Run(Apply(s, Publish(env)), acts);
            c in s'.homes && s'.homes[c].instance == j && !(y in s'.sent && s'.sent[y].origin == j) ==>
              c in s'.feeds && Before(s'.feeds[c], env.payload, y)
  {
    var s1 := Apply(s, Publish(env));
    StepKeepsInv(s, Publish(env));
    PublishOrders(s, env, y, j);
    RunKeepsOrder(s1, acts, j, env.payload, y);
    RunKeepsInv(s1, acts);
    var s' := Run(s1, acts);
    if c in s'.homes { assert ConnSound(s', c); }
  }
}
