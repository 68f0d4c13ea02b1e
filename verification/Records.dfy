/** What a request writes into the records of connections, what it replies, and that a closed connection
    stays closed and silent. */
module Records {
  import opened Base
  import opened Messages
  import opened Addressing
  import opened Connections
  import opened Store
  import opened Routing
  import opened Registry
  import opened Presence
  import opened Daemon
  import opened Invariant
  import opened Roster
  import opened Identity

  /** What an accepted request writes into the record of its own connection, besides the outbox. */
  function Rewritten(k: Conn, req: Request): Conn {
    match req
    case ReqHello(sid, home, _) => k.(sid := Some(sid), home := Some(home))
    case ReqSetAlias(alias, _) => k.(alias := Chosen(alias))
    case ReqSetDmFilter(patterns) => k.(dmFilter := patterns)
    case ReqWatch(_, from, to) =>
      k.(wireFrom := Some(if from.Some? then from.value else ["*"]), wireTo := if to.Some? then to.value else ["*"])
    case ReqUnwatch => k.(wireFrom := None, wireTo := ["*"])
    case ReqSubscribe(topic, _) => k.(subs := k.subs + {topic})
    case ReqUnsubscribe(topic) => k.(subs := k.subs - {topic})
    case _ => k
  }

  /** An accepted request writes just that, and enqueues; a rejected one writes nothing. Of all other
      connections only the outbox can change. */
  lemma RecordsAfter(cfg: Config, h: Hub, c: Connection, req: Request, d: Connection)
    requires c in h.conns && d in h.conns
    ensures var (g, out) := Handle(cfg, h, c, req);
      d in g.conns && g.conns[d]
        == (if d == c && out.Ok? then Rewritten(h.conns[d], req) else h.conns[d]).(outbox := g.conns[d].outbox)
  {
    hide OnlyPosts;
    HandleShape(cfg, h, c, req);
    ReshapedRecords(cfg, h, c, req, d);
    PostsRecords(Reshaped(cfg, h, c, req), Handle(cfg, h, c, req).0, d);
    hide Handle, Reshaped, Rewritten;
  }

  lemma PostsRecords(h: Hub, g: Hub, d: Connection)
    requires OnlyPosts(h, g) && d in h.conns
    ensures d in g.conns && g.conns[d] == h.conns[d].(outbox := g.conns[d].outbox)
  {
  }

  lemma ReshapedRecords(cfg: Config, h: Hub, c: Connection, req: Request, d: Connection)
    requires c in h.conns && d in h.conns
    ensures var r := Reshaped(cfg, h, c, req);
      d in r.conns
      && r.conns[d] == if d == c && Handle(cfg, h, c, req).1.Ok? then Rewritten(h.conns[d], req) else h.conns[d]
  {
    if IsPlain(req) {
      PlainRecords(cfg, h, c, req, d);
    } else {
      IdentityRecords(cfg, h, c, req, d);
    }
  }

  lemma IdentityRecords(cfg: Config, h: Hub, c: Connection, req: Request, d: Connection)
    requires c in h.conns && d in h.conns && !IsPlain(req)
    ensures var r := Reshaped(cfg, h, c, req);
      d in r.conns
      && r.conns[d] == if d == c && Handle(cfg, h, c, req).1.Ok? then Rewritten(h.conns[d], req) else h.conns[d]
  {
    hide Handle, Register, Rename, Subscribed, Unsubscribed, Routing.SetDmFilter, Routing.Watch, Routing.Unwatch;
    if Handle(cfg, h, c, req).1.Ok? {
      OwnRecord(cfg, h, c, req);
    }
  }

  lemma OwnRecord(cfg: Config, h: Hub, c: Connection, req: Request)
    requires c in h.conns && !IsPlain(req) && Handle(cfg, h, c, req).1.Ok?
    ensures Reshaped(cfg, h, c, req).conns == h.conns[c := Rewritten(h.conns[c], req)]
  {
    hide Handle, RenameIn, Enroll, Expel, Routing.SetDmFilter, Routing.Watch, Routing.Unwatch;
    assert h.conns[c := h.conns[c]] == h.conns;
  }

  lemma PlainRecords(cfg: Config, h: Hub, c: Connection, req: Request, d: Connection)
    requires c in h.conns && d in h.conns && IsPlain(req)
    ensures var r := Reshaped(cfg, h, c, req);
      d in r.conns
      && r.conns[d] == if d == c && Handle(cfg, h, c, req).1.Ok? then Rewritten(h.conns[d], req) else h.conns[d]
  {
    hide Register, Rename, Subscribed, Unsubscribed, History, Routing.SetDmFilter, Routing.Watch, Routing.Unwatch;
    if Handle(cfg, h, c, req).1.Ok? && !req.ReqHistory? {
      FilterRecords(cfg, h, c, req);
      assert h.Put(c, Rewritten(h.At(c), req)).conns[d] == if d == c then Rewritten(h.conns[c], req) else h.conns[d];
    }
  }

  lemma FilterRecords(cfg: Config, h: Hub, c: Connection, req: Request)
    requires IsPlain(req) && !req.ReqHistory? && Handle(cfg, h, c, req).1.Ok?
    ensures Handle(cfg, h, c, req).0 == h.Put(c, Rewritten(h.At(c), req))
  {
  }

  /** An accepted subscription: the own record as above, the end of the ring in the own outbox, and
      nothing else. */
  lemma SubscribeEffect(h: Hub, c: Connection, topic: string, replay: int)
    requires c in h.conns && Subscribe(h, c, topic, replay).1.Ok?
    ensures var ((g, out), k) := (Subscribe(h, c, topic, replay), h.conns[c]);
      && out == Ok(SubscribeReply(topic)) && replay >= 0
      && g.conns == h.conns[c := k.(subs := k.subs + {topic})
                    .EnqueueAll(MessageFrames(LastN(QueueAt(h.topics, "topic:" + topic), replay)))]
      && g == h.(conns := g.conns, topicSubs := g.topicSubs, topics := g.topics)
      && forall a :: QueueAt(g.topics, a) == QueueAt(h.topics, a)
  {
    hide ValidateTopic, Enroll;
    if replay == 0 {
      assert LastN(QueueAt(h.topics, "topic:" + topic), 0) == [];
      assert MessageFrames([]) == [] && h.conns[c].outbox + [] == h.conns[c].outbox;
    }
  }

  lemma UnsubscribeEffect(h: Hub, c: Connection, topic: string)
    requires c in h.conns && Unsubscribe(h, c, topic).1.Ok?
    ensures var ((g, out), k) := (Unsubscribe(h, c, topic), h.conns[c]);
      && out == Ok(UnsubscribeReply)
      && g == h.(conns := h.conns[c := k.(subs := k.subs - {topic})], topicSubs := g.topicSubs)
  {
    hide ValidateTopic, Expel;
  }

  /** A session that clears its alias, or asks for the one it has, is told so once and gets nothing from
      any queue. */
  lemma AliasWithoutDrain(cfg: Config, h: Hub, c: Connection, alias: string, ts: real)
    requires Indexed(h) && IsRegistered(h, c) && Consistent(h, c) && SetAlias(cfg, h, c, alias, ts).1.Ok?
    requires alias == "" || h.At(c).alias == Some(alias)
    ensures var ((g, out), k) := (SetAlias(cfg, h, c, alias, ts), h.At(c));
      && k.sid.Some? && out == Ok(AliasReply(Chosen(alias))) && g.dms == h.dms
      && g.At(c) == k.(alias := Chosen(alias))
                     .Enqueue(AliasChanged(k.HomeOrEmpty(), k.sid.value, Chosen(alias), k.alias, ts))
  {
    var k := h.At(c);
    var h1 := Rename(h, c, Chosen(alias));
    RenamedSids(h, c, Chosen(alias));
    BroadcastEffect(h1, None, AliasChanged(k.HomeOrEmpty(), k.sid.value, Chosen(alias), k.alias, ts), c);
    hide Indexed, Drain, PostTo, RenameIn, IsValidAlias;
  }

  /** What an accepted request is told. The counts are those of `SendMeaning` and `PublishMeaning`, the
      page is that of `HistoryReplies`. */
  lemma RepliesTo(cfg: Config, h: Hub, c: Connection, req: Request)
    requires Handle(cfg, h, c, req).1.Ok?
    ensures var reply := Handle(cfg, h, c, req).1.value;
      match req
      case ReqHello(sid, home, _) => reply == HelloReply(home, sid)
      case ReqSetAlias(alias, _) => reply == AliasReply(if alias == "" then None else Some(alias))
      case ReqSetDmFilter(patterns) => reply == FilterReply(patterns)
      case ReqWatch(_, _, _) => reply == WatchReply(true)
      case ReqUnwatch => reply == WatchReply(false)
      case ReqSend(_, _, _, id, _) => reply.SendReply? && reply.id == id
      case ReqPublish(_, _, id, _) => reply.PublishReply? && reply.id == id
      case ReqSubscribe(topic, _) => reply == SubscribeReply(topic)
      case ReqUnsubscribe(_) => reply == UnsubscribeReply
      case ReqHistory(_, _, _) => reply.HistoryReply?
      case Refused(_) => false
  {
    hide Drain, PostTo, Register, Adopted, Followed, Unsubscribed, ParseAddress, ValidateTopic, AnyMatch, IsValidAlias;
    hide IsValidSid, IsNormalizedPath, Persistence.Page, Receivers, Hub.Watchers;
  }

  // ---------------------------------------------------------------- closed connections

  /** A connection that is closed in the one state is so in the other, with the same outbox. */
  ghost predicate StaysSilent(h: Hub, g: Hub, c: Connection) {
    c in h.conns && h.conns[c].closed ==> c in g.conns && g.conns[c].closed && g.conns[c].outbox == h.conns[c].outbox
  }

  lemma PostSilent(h: Hub, targets: set<Connection>, f: Frame, c: Connection)
    ensures StaysSilent(h, h.Post(targets, f), c)
  {
  }

  lemma DrainSilent(cfg: Config, h: Hub, d: Connection, address: string, c: Connection)
    ensures StaysSilent(h, Drain(cfg, h, d, address), c)
  {
  }

  lemma HelloSilent(cfg: Config, h: Hub, d: Connection, sid: string, home: string, ts: real, c: Connection)
    requires d in h.conns
    ensures StaysSilent(h, Hello(cfg, h, d, sid, home, ts).0, c)
  {
    hide Drain, PostTo;
    if sid !in h.connections {
      var h1 := Register(h, d, sid, home);
      var h2 := Drain(cfg, h1, d, HomeKey(home));
      var h3 := Drain(cfg, h2, d, DirectKey(home, sid));
      DrainSilent(cfg, h1, d, HomeKey(home), c);
      DrainSilent(cfg, h2, d, DirectKey(home, sid), c);
      PostSilent(h3, h3.Others(Some(sid)), PeerJoined(home, sid, ts), c);
    }
  }

  lemma AdoptedSilent(cfg: Config, h: Hub, d: Connection, chosen: Option<string>, ts: real, c: Connection)
    requires d in h.conns && h.At(d).sid.Some?
    ensures StaysSilent(h, Adopted(cfg, h, d, chosen, ts), c)
  {
    hide Drain, PostTo, RenameIn;
    var k, h1 := h.At(d), Rename(h, d, chosen);
    var home := k.HomeOrEmpty();
    var h2 := h1;
    if chosen.Some? && chosen != k.alias {
      h2 := Drain(cfg, h1, d, DirectKey(home, chosen.value));
      DrainSilent(cfg, h1, d, DirectKey(home, chosen.value), c);
    }
    PostSilent(h2, h2.Others(None), AliasChanged(home, k.sid.value, chosen, k.alias, ts), c);
  }

  lemma RoutedSilent(cfg: Config, h: Hub, d: Connection, addr: Address, m: Message, c: Connection)
    requires addr.Home?
    ensures StaysSilent(h, Routed(cfg, h, d, addr, m).0, c)
  {
    hide PostTo, Receivers, Sessions, Hub.Watchers;
    var rs := Receivers(cfg, h, d, addr, m);
    var h1 := h.Post(Sessions(h, rs), PeerMessage(m));
    var h2 := if rs == {} then h1.(dms := Enqueue(h1.dms, m, cfg.dmMax)) else h1;
    PostSilent(h, Sessions(h, rs), PeerMessage(m), c);
    PostSilent(h2, h2.Watchers(cfg, m, h.At(d).sid), WireMessage(m, |rs|, rs == {}), c);
  }

  lemma PublishedSilent(cfg: Config, h: Hub, d: Connection, topic: string, m: Message, c: Connection)
    ensures StaysSilent(h, Published(cfg, h, d, topic, m).0, c)
  {
    hide PostTo, Routing.Subscribers, Sessions, Hub.Watchers;
    var h1 := h.(topics := Enqueue(h.topics, m, cfg.topicMax));
    var rs := Subscribers(h, topic, h.At(d).sid);
    var h2 := h1.Post(Sessions(h, rs), PeerMessage(m));
    PostSilent(h1, Sessions(h, rs), PeerMessage(m), c);
    PostSilent(h2, h2.Watchers(cfg, m, h.At(d).sid), WireMessage(m, |rs|, false), c);
  }

  lemma QuietSilent(cfg: Config, h: Hub, d: Connection, req: Request, c: Connection)
    requires d in h.conns && !req.ReqHello? && !req.ReqSetAlias? && !req.ReqSend? && !req.ReqPublish?
    requires Handle(cfg, h, d, req).1.Ok?
    ensures StaysSilent(h, Handle(cfg, h, d, req).0, c)
  {
    hide Subscribe, Unsubscribe, Routing.SetDmFilter, Routing.Watch, Routing.Unwatch, ParseAddress, Persistence.Page;
    match req {
      case ReqSubscribe(topic, replay) => SubscribeEffect(h, d, topic, replay);
      case ReqUnsubscribe(topic) => UnsubscribeEffect(h, d, topic);
      case ReqHistory(_, _, _) =>
      case _ => FilterRecords(cfg, h, d, req);
    }
  }

  lemma HandleSilent(cfg: Config, h: Hub, d: Connection, req: Request, c: Connection)
    requires d in h.conns
    ensures StaysSilent(h, Handle(cfg, h, d, req).0, c)
  {
    hide StaysSilent, Hello, Adopted, Routed, Published, ParseAddress, ValidateTopic, IsValidAlias, IsValidSid;
    hide IsNormalizedPath;
    if Handle(cfg, h, d, req).1.Err? {
      RejectedSilent(cfg, h, d, req, c);
    } else {
      match req {
        case ReqHello(sid, home, ts) => HelloSilent(cfg, h, d, sid, home, ts, c);
        case ReqSetAlias(alias, ts) => AdoptedSilent(cfg, h, d, Chosen(alias), ts, c);
        case ReqSend(dest, body, replyTo, id, ts) =>
          RoutedSilent(cfg, h, d, ParseAddress(dest).value, Compose(h, d, dest, body, replyTo, id, ts), c);
        case ReqPublish(topic, body, id, ts) =>
          PublishedSilent(cfg, h, d, topic, Compose(h, d, TopicKey(topic), body, None, id, ts), c);
        case _ => QuietSilent(cfg, h, d, req, c);
      }
    }
  }

  lemma RejectedSilent(cfg: Config, h: Hub, d: Connection, req: Request, c: Connection)
    requires Handle(cfg, h, d, req).1.Err?
    ensures StaysSilent(h, Handle(cfg, h, d, req).0, c)
  {
    hide Handle;
    RejectedIsNoOp(cfg, h, d, req);
  }

  lemma GoodbyeSilent(h: Hub, d: Connection, ts: real, c: Connection)
    requires d in h.conns
    ensures StaysSilent(h, Close(Goodbye(h, d, ts), d), c)
  {
    hide PostTo, LeaveIn, Expel, ExpelAll;
    if h.At(d).sid.Some? {
      var h1, k := Unregister(h, d), h.At(d);
      PostSilent(h1, h1.Others(k.sid), PeerLeft(k.HomeOrEmpty(), k.sid.value, k.alias, ts), c);
    }
  }

  lemma StepSilent(cfg: Config, s: System, e: Event, c: Connection)
    requires Well(s)
    ensures StaysSilent(s.hub, Step(cfg, s, e).hub, c)
  {
    hide Well, Handle, Goodbye;
    match e {
      case Called(d, requestId, req) =>
        if d in s.open {
          Listed(s, d);
          HandleSilent(cfg, s.hub, d, req, c);
        }
      case HungUp(d, ts) =>
        if d in s.open {
          Listed(s, d);
          GoodbyeSilent(s.hub, d, ts, c);
        }
      case _ =>
    }
  }

  /** What closes a connection: its handler ends, a write to it fails, or the daemon restarts. */
  predicate Closes(e: Event, c: Connection) {
    (e.HungUp? && e.c == c) || (e.WriteFailed? && e.c == c) || e.Restarted?
  }

  lemma StepCloses(cfg: Config, s: System, e: Event, c: Connection)
    requires Well(s) && c in s.open && Closes(e, c)
    ensures c in Step(cfg, s, e).hub.conns && Step(cfg, s, e).hub.conns[c].closed
  {
    hide Goodbye, Well;
    Listed(s, c);
    if e.HungUp? {
      GoodbyeShape(s.hub, c, e.ts);
    }
  }

  /** Once the handler of a connection has ended, a write to it has failed, or the daemon has restarted,
      it is closed for good and nothing is ever enqueued for it again. */
  lemma {:induction false} ClosedForGood(cfg: Config, s: System, e: Event, c: Connection, es: seq<Event>)
    requires Well(s) && c in s.open && Closes(e, c)
    ensures var (t, u) := (Step(cfg, s, e), Run(cfg, Step(cfg, s, e), es));
      && c in t.hub.conns && c in u.hub.conns && u.hub.conns[c].closed
      && u.hub.conns[c].outbox == t.hub.conns[c].outbox
  {
    hide Well, Step;
    if es == [] {
      StepCloses(cfg, s, e, c);
    } else {
      ClosedForGood(cfg, s, e, c, es[..|es| - 1]);
      StepWell(cfg, s, e);
      RunWell(cfg, Step(cfg, s, e), es[..|es| - 1]);
      StepSilent(cfg, Run(cfg, Step(cfg, s, e), es[..|es| - 1]), es[|es| - 1], c);
    }
  }
}
