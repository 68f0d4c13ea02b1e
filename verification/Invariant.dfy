/** The system invariant holds after every run, so the indexes always equal a scan over the live
    connections. */
module Invariant {
  import opened Base
  import opened Messages
  import opened Addressing
  import opened Connections
  import opened Store
  import opened Routing
  import opened Registry
  import opened Daemon

  // ---------------------------------------------------------------- what a request may change

  /** Same session table, and every connection differs at most in its outbox. */
  ghost predicate OnlyPosts(h: Hub, g: Hub) {
    && g.connections == h.connections && g.conns.Keys == h.conns.Keys
    && forall d :: d in h.conns ==> g.conns[d] == h.conns[d].(outbox := g.conns[d].outbox)
  }

  /** The identity change that an accepted request makes on its own connection. */
  function Reshaped(cfg: Config, h: Hub, c: Connection, req: Request): Hub {
    if Handle(cfg, h, c, req).1.Err? then h
    else match req
      case ReqHello(sid, home, ts) => Register(h, c, sid, home)
      case ReqSetAlias(alias, ts) => Rename(h, c, if alias == "" then None else Some(alias))
      case ReqSetDmFilter(patterns) => SetDmFilter(h, c, patterns).0
      case ReqWatch(kinds, from, to) => Watch(h, c, kinds, from, to).0
      case ReqUnwatch => Unwatch(h, c).0
      case ReqSubscribe(topic, replay) => Subscribed(h, c, topic)
      case ReqUnsubscribe(topic) => Unsubscribed(h, c, topic)
      case _ => h
  }

  lemma PostOnlyPosts(h: Hub, targets: set<Connection>, f: Frame)
    ensures OnlyPosts(h, h.Post(targets, f))
  {
  }

  lemma DrainOnlyPosts(cfg: Config, h: Hub, c: Connection, address: string)
    requires c in h.conns
    ensures OnlyPosts(h, Drain(cfg, h, c, address))
  {
  }

  lemma OnlyPostsTrans(h: Hub, g: Hub, k: Hub)
    requires OnlyPosts(h, g) && OnlyPosts(g, k)
    ensures OnlyPosts(h, k)
  {
  }

  lemma HelloShape(cfg: Config, h: Hub, c: Connection, sid: string, home: string, ts: real)
    requires c in h.conns && Hello(cfg, h, c, sid, home, ts).1.Ok?
    ensures OnlyPosts(Register(h, c, sid, home), Hello(cfg, h, c, sid, home, ts).0)
  {
    var h1 := Register(h, c, sid, home);
    var h2 := Drain(cfg, h1, c, HomeKey(home));
    var h3 := Drain(cfg, h2, c, DirectKey(home, sid));
    var h4 := h3.Post(h3.Others(Some(sid)), PeerJoined(home, sid, ts));
    DrainOnlyPosts(cfg, h1, c, HomeKey(home));
    DrainOnlyPosts(cfg, h2, c, DirectKey(home, sid));
    PostOnlyPosts(h3, h3.Others(Some(sid)), PeerJoined(home, sid, ts));
    OnlyPostsTrans(h1, h2, h3);
    OnlyPostsTrans(h1, h3, h4);
  }

  lemma AdoptedShape(cfg: Config, h: Hub, c: Connection, chosen: Option<string>, ts: real)
    requires c in h.conns && h.At(c).sid.Some?
    ensures OnlyPosts(Rename(h, c, chosen), Adopted(cfg, h, c, chosen, ts))
  {
    var k, home := h.At(c), h.At(c).HomeOrEmpty();
    var h1 := Rename(h, c, chosen);
    var h2 := h1;
    if chosen.Some? && chosen != k.alias {
      h2 := Drain(cfg, h1, c, DirectKey(home, chosen.value));
      DrainOnlyPosts(cfg, h1, c, DirectKey(home, chosen.value));
    }
    var f := AliasChanged(home, k.sid.value, chosen, k.alias, ts);
    PostOnlyPosts(h2, h2.Others(None), f);
    OnlyPostsTrans(h1, h2, h2.Post(h2.Others(None), f));
  }

  lemma RoutedShape(cfg: Config, h: Hub, c: Connection, addr: Address, m: Message)
    requires addr.Home?
    ensures OnlyPosts(h, Routed(cfg, h, c, addr, m).0)
  {
    var rs := Receivers(cfg, h, c, addr, m);
    var h1 := h.Post(Sessions(h, rs), PeerMessage(m));
    var h2 := if rs == {} then h1.(dms := Enqueue(h1.dms, m, cfg.dmMax)) else h1;
    var f := WireMessage(m, |rs|, rs == {});
    PostOnlyPosts(h, Sessions(h, rs), PeerMessage(m));
    OnlyPostsTrans(h, h1, h2);
    PostOnlyPosts(h2, h2.Watchers(cfg, m, h.At(c).sid), f);
    OnlyPostsTrans(h, h2, h2.Post(h2.Watchers(cfg, m, h.At(c).sid), f));
  }

  lemma PublishedShape(cfg: Config, h: Hub, c: Connection, topic: string, m: Message)
    ensures OnlyPosts(h, Published(cfg, h, c, topic, m).0)
  {
    var h1 := h.(topics := Enqueue(h.topics, m, cfg.topicMax));
    var rs := Subscribers(h, topic, h.At(c).sid);
    var h2 := h1.Post(Sessions(h, rs), PeerMessage(m));
    var f := WireMessage(m, |rs|, false);
    PostOnlyPosts(h1, Sessions(h, rs), PeerMessage(m));
    OnlyPostsTrans(h, h1, h2);
    PostOnlyPosts(h2, h2.Watchers(cfg, m, h.At(c).sid), f);
    OnlyPostsTrans(h, h2, h2.Post(h2.Watchers(cfg, m, h.At(c).sid), f));
  }

  /** The requests that change nothing but filters of their own connection. */
  predicate IsPlain(req: Request) {
    req.ReqSetDmFilter? || req.ReqWatch? || req.ReqUnwatch? || req.ReqHistory? || req.Refused?
  }

  lemma PutKeeps(h: Hub, c: Connection, k: Conn)
    requires Indexed(h) && c in h.conns && SameIdentity(h.conns[c], k)
    ensures Indexed(h.Put(c, k))
  {
    SameRegistryKeeps(h, h.Put(c, k));
  }

  lemma PlainKeeps(cfg: Config, h: Hub, c: Connection, req: Request)
    requires Indexed(h) && c in h.conns && IsPlain(req)
    ensures Indexed(Handle(cfg, h, c, req).0)
  {
    hide Indexed;
    var g := Handle(cfg, h, c, req).0;
    if g != h {
      PutKeeps(h, c, g.conns[c]);
    }
  }

  lemma HandleKeepsIndexes(cfg: Config, h: Hub, c: Connection, req: Request)
    requires Indexed(h) && Consistent(h, c)
    ensures Indexed(Handle(cfg, h, c, req).0)
  {
    if IsPlain(req) {
      PlainKeeps(cfg, h, c, req);
    } else {
      RouterKeeps(cfg, h, c, req);
    }
  }

  lemma RouterKeeps(cfg: Config, h: Hub, c: Connection, req: Request)
    requires Indexed(h) && Consistent(h, c) && !IsPlain(req)
    ensures Indexed(Handle(cfg, h, c, req).0)
  {
    hide Indexed, Hello, SetAlias, Send, Publish, Subscribe, Unsubscribe, IsValidSid, IsNormalizedPath;
    match req {
      case ReqHello(sid, home, ts) =>
        if h.At(c).sid.None? {
          HelloKeeps(cfg, h, c, sid, home, ts);
        }
      case ReqSetAlias(alias, ts) => SetAliasKeeps(cfg, h, c, alias, ts);
      case ReqSend(dest, body, replyTo, id, ts) => SendKeeps(cfg, h, c, dest, body, replyTo, id, ts);
      case ReqPublish(topic, body, id, ts) => PublishKeeps(cfg, h, c, topic, body, id, ts);
      case ReqSubscribe(topic, replay) => SubscribeKeeps(h, c, topic, replay);
      case ReqUnsubscribe(topic) => UnsubscribeKeeps(h, c, topic);
    }
  }

  /** A rejected request is a no-op: the only trace it can leave is an empty inner alias table,
      which no lookup can tell from a missing one. */
  lemma RejectedIsNoOp(cfg: Config, h: Hub, c: Connection, req: Request)
    requires Handle(cfg, h, c, req).1.Err?
    ensures var g := Handle(cfg, h, c, req).0;
      g == h.(aliases := g.aliases) && forall home, a :: Holder(g.aliases, home, a) == Holder(h.aliases, home, a)
  {
    hide Adopted, Routed, Published, Register, Rename, Drain, Followed, Unsubscribed, ParseAddress, IsValidAlias;
    hide IsValidSid, IsNormalizedPath, ValidateTopic, Holder, SetAlias, PostTo, AnyMatch;
    if req.ReqSetAlias? {
      RejectedAlias(cfg, h, c, req.alias, req.ts);
    }
  }

  lemma RejectedAlias(cfg: Config, h: Hub, c: Connection, alias: string, ts: real)
    requires SetAlias(cfg, h, c, alias, ts).1.Err?
    ensures var g := SetAlias(cfg, h, c, alias, ts).0;
      g == h.(aliases := g.aliases) && forall home, a :: Holder(g.aliases, home, a) == Holder(h.aliases, home, a)
  {
    hide Adopted, IsValidAlias;
    var home := h.At(c).HomeOrEmpty();
    assert forall g, a :: Holder(WithHome(h.aliases, home), g, a) == Holder(h.aliases, g, a);
  }

  /** Beyond its own identity, a request changes connections only by enqueueing frames. */
  lemma HandleShape(cfg: Config, h: Hub, c: Connection, req: Request)
    requires c in h.conns
    ensures OnlyPosts(Reshaped(cfg, h, c, req), Handle(cfg, h, c, req).0)
  {
    if Handle(cfg, h, c, req).1.Err? {
      RejectedIsNoOp(cfg, h, c, req);
    } else if IsPlain(req) {
      OnlyPostsRefl(Handle(cfg, h, c, req).0);
    } else {
      RouterShape(cfg, h, c, req);
    }
  }

  lemma RouterShape(cfg: Config, h: Hub, c: Connection, req: Request)
    requires c in h.conns && !IsPlain(req) && Handle(cfg, h, c, req).1.Ok?
    ensures OnlyPosts(Reshaped(cfg, h, c, req), Handle(cfg, h, c, req).0)
  {
    hide Hello, Adopted, Routed, Published, Register, Rename, Drain, Followed, Subscribed, Unsubscribed, OnlyPosts;
    hide ParseAddress, IsValidAlias, IsValidSid, IsNormalizedPath, ValidateTopic;
    match req {
      case ReqHello(sid, home, ts) => HelloShape(cfg, h, c, sid, home, ts);
      case ReqSetAlias(alias, ts) => AdoptedShape(cfg, h, c, if alias == "" then None else Some(alias), ts);
      case ReqSend(dest, body, replyTo, id, ts) =>
        RoutedShape(cfg, h, c, ParseAddress(dest).value, Compose(h, c, dest, body, replyTo, id, ts));
      case ReqPublish(topic, body, id, ts) =>
        PublishedShape(cfg, h, c, topic, Compose(h, c, TopicKey(topic), body, None, id, ts));
      case ReqSubscribe(topic, replay) => FollowedShape(h, c, topic, replay);
      case ReqUnsubscribe(topic) => OnlyPostsRefl(Unsubscribed(h, c, topic));
    }
  }

  lemma FollowedShape(h: Hub, c: Connection, topic: string, replay: nat)
    requires c in h.conns && h.At(c).sid.Some?
    ensures OnlyPosts(Subscribed(h, c, topic), Followed(h, c, topic, replay))
  {
    if replay > 0 {
      var h1, ring := Subscribed(h, c, topic), QueueAt(h.topics, TopicKey(topic));
      PutOnlyPosts(h1.(topics := h.topics[TopicKey(topic) := ring]), c, MessageFrames(LastN(ring, replay)));
    }
  }

  lemma PutOnlyPosts(h: Hub, c: Connection, fs: seq<Frame>)
    requires c in h.conns
    ensures OnlyPosts(h, h.Put(c, h.At(c).EnqueueAll(fs)))
  {
  }

  lemma OnlyPostsRefl(h: Hub)
    ensures OnlyPosts(h, h)
  {
  }

  // ---------------------------------------------------------------- every run keeps the invariant

  /** The part of the invariant about single connections. */
  ghost predicate Settled(h: Hub, open: set<Connection>) {
    && (forall c :: c in open ==> Consistent(h, c) && ProperIdentity(h.At(c)))
    && (forall sid :: sid in h.connections ==> h.connections[sid] in open)
  }

  lemma OnlyPostsSettled(h: Hub, g: Hub, open: set<Connection>)
    requires Settled(h, open) && OnlyPosts(h, g)
    ensures Settled(g, open)
  {
    forall c | c in open
      ensures Consistent(g, c) && ProperIdentity(g.At(c))
    {
      assert g.At(c) == h.At(c).(outbox := g.At(c).outbox);
    }
  }

  /** A change to one connection that leaves the session table alone. */
  lemma PutSettled(h: Hub, g: Hub, c: Connection, k: Conn, open: set<Connection>)
    requires Settled(h, open) && c in open
    requires g.conns == h.conns[c := k] && g.connections == h.connections
    requires k.sid == h.At(c).sid && ProperIdentity(k) && (k.sid.None? ==> k.alias == None && k.subs == {})
    ensures Settled(g, open)
  {
    forall d | d in open
      ensures Consistent(g, d) && ProperIdentity(g.At(d))
    {
      assert Consistent(h, d);
    }
  }

  lemma RegisterSettled(h: Hub, c: Connection, sid: string, home: string, open: set<Connection>)
    requires Settled(h, open) && c in open && h.At(c).sid.None? && sid !in h.connections
    requires IsValidSid(sid) && IsNormalizedPath(home)
    ensures Settled(Register(h, c, sid, home), open)
  {
    hide IsValidSid, IsNormalizedPath, IsValidAlias;
    var g := Register(h, c, sid, home);
    forall d | d in open
      ensures Consistent(g, d) && ProperIdentity(g.At(d))
    {
      assert Consistent(h, d);
    }
  }

  lemma ReshapedSettled(cfg: Config, h: Hub, c: Connection, req: Request, open: set<Connection>)
    requires Settled(h, open) && c in open
    ensures Settled(Reshaped(cfg, h, c, req), open)
  {
    hide Adopted, Routed, Published, Drain, Followed, Settled, ParseAddress;
    hide IsValidSid, IsNormalizedPath, IsValidAlias, ValidateTopic;
    if Handle(cfg, h, c, req).1.Ok? {
      SelfSettled(h, c, open);
      var g := Reshaped(cfg, h, c, req);
      if req.ReqHello? {
        RegisterSettled(h, c, req.sid, req.home, open);
      } else if g != h {
        PutSettled(h, g, c, g.At(c), open);
      }
    }
  }

  lemma SelfSettled(h: Hub, c: Connection, open: set<Connection>)
    requires Settled(h, open) && c in open
    ensures c in h.conns && ProperIdentity(h.At(c))
    ensures h.At(c).sid.None? ==> h.At(c).alias == None && h.At(c).subs == {}
  {
  }

  lemma DispatchWell(cfg: Config, s: System, c: Connection, requestId: Option<RequestId>, req: Request)
    requires Well(s) && c in s.open
    ensures Well(s.(hub := Dispatch(cfg, s.hub, c, requestId, req)))
  {
    var (g, out) := Handle(cfg, s.hub, c, req);
    var k := Answer(g.At(c), requestId, out);
    assert Settled(s.hub, s.open);
    HandleShape(cfg, s.hub, c, req);
    ReshapedSettled(cfg, s.hub, c, req, s.open);
    OnlyPostsSettled(Reshaped(cfg, s.hub, c, req), g, s.open);
    HandleKeepsIndexes(cfg, s.hub, c, req);
    AnswerWell(g, c, k, s.open);
  }

  lemma AnswerWell(h: Hub, c: Connection, k: Conn, open: set<Connection>)
    requires Indexed(h) && Settled(h, open) && c in open && k == h.At(c).(outbox := k.outbox)
    ensures Indexed(h.Put(c, k)) && Settled(h.Put(c, k), open)
  {
    SelfSettled(h, c, open);
    PutKeeps(h, c, k);
    PutSettled(h, h.Put(c, k), c, k, open);
  }

  /** Saying goodbye removes the own entry of the session table and nobody else's. */
  lemma GoodbyeShape(h: Hub, c: Connection, ts: real)
    requires c in h.conns
    ensures var g := Goodbye(h, c, ts);
      && g.conns.Keys == h.conns.Keys
      && g.connections == (if h.At(c).sid.Some? then h.connections - {h.At(c).sid.value} else h.connections)
      && forall d :: d in h.conns && d != c ==> g.conns[d] == h.conns[d].(outbox := g.conns[d].outbox)
  {
    if h.At(c).sid.Some? {
      var h1 := Unregister(h, c);
      PostOnlyPosts(h1, h1.Others(h.At(c).sid),
                    PeerLeft(h.At(c).HomeOrEmpty(), h.At(c).sid.value, h.At(c).alias, ts));
    }
  }

  lemma HungUpWell(s: System, c: Connection, ts: real)
    requires Well(s) && c in s.open
    ensures Well(System(Close(Goodbye(s.hub, c, ts), c), s.open - {c}, s.closing))
  {
    hide Goodbye;
    var g := Goodbye(s.hub, c, ts);
    GoodbyeKeeps(s.hub, c, ts);
    GoodbyeShape(s.hub, c, ts);
    PutKeeps(g, c, g.At(c).(closed := true));
    LeaverSettled(s.hub, g, c, s.open);
  }

  lemma LeaverSettled(h: Hub, g: Hub, c: Connection, open: set<Connection>)
    requires SidsIndexed(h) && Settled(h, open) && c in open && g.conns.Keys == h.conns.Keys
    requires g.connections == if h.At(c).sid.Some? then h.connections - {h.At(c).sid.value} else h.connections
    requires forall d :: d in h.conns && d != c ==> g.conns[d] == h.conns[d].(outbox := g.conns[d].outbox)
    ensures Settled(Close(g, c), open - {c})
  {
    hide IsValidSid, IsValidAlias, IsNormalizedPath;
    forall d | d in open && d != c
      ensures Consistent(Close(g, c), d) && ProperIdentity(Close(g, c).At(d))
    {
      assert Consistent(h, d);
      assert Consistent(h, c);
      assert g.At(d) == h.At(d).(outbox := g.At(d).outbox);
    }
    forall sid | sid in g.connections
      ensures g.connections[sid] in open - {c}
    {
      assert h.At(h.connections[sid]).sid == Some(sid);
    }
  }

  lemma AcceptedWell(s: System, c: Connection)
    requires Well(s) && c !in s.hub.conns
    ensures Well(s.(hub := s.hub.Put(c, NEW_CONN), open := s.open + {c}))
  {
    var g := s.hub.Put(c, NEW_CONN);
    SameRegistryKeeps(s.hub, g);
    forall d | d in s.open
      ensures Consistent(g, d) && g.At(d) == s.hub.At(d)
    {
      assert Consistent(s.hub, d);
    }
  }

  lemma StepWell(cfg: Config, s: System, e: Event)
    requires Well(s)
    ensures Well(Step(cfg, s, e))
  {
    match e {
      case Accepted(c) =>
        if !s.closing && c !in s.hub.conns {
          AcceptedWell(s, c);
        }
      case Called(c, requestId, req) =>
        if c in s.open {
          DispatchWell(cfg, s, c, requestId, req);
        }
      case WriteFailed(c) =>
        if c in s.open {
          SelfSettled(s.hub, c, s.open);
          PutKeeps(s.hub, c, s.hub.At(c).(closed := true));
          PutSettled(s.hub, Close(s.hub, c), c, s.hub.At(c).(closed := true), s.open);
        }
      case HungUp(c, ts) =>
        if c in s.open {
          HungUpWell(s, c, ts);
        }
      case ShutdownBegun =>
      case Restarted =>
        var g := Reborn(s.hub);
        assert Scan(g) == map[];
    }
  }

  lemma {:induction false} RunWell(cfg: Config, s: System, es: seq<Event>)
    requires Well(s)
    ensures Well(Run(cfg, s, es))
  {
    if es == [] {
    } else {
      RunWell(cfg, s, es[..|es| - 1]);
      StepWell(cfg, Run(cfg, s, es[..|es| - 1]), es[|es| - 1]);
    }
  }
}
