/** The complete effect of an accepted send or publication: who gets which frame, and that nothing
    else changes. */
module Effects {
  import opened Base
  import opened Messages
  import opened Addressing
  import opened Connections
  import opened Store
  import opened Routing
  import opened Registry

  /** A registered session other than the sender that the address resolves to and whose filter
      lets the message through. */
  predicate GetsDirect(cfg: Config, h: Hub, c: Connection, addr: Address, m: Message, d: Connection)
    requires addr.Home?
  {
    IsRegistered(h, d) && d != c && h.At(d).sid.value in Resolve(h, addr) && cfg.Accepts(h.At(d), m)
  }

  /** A registered subscriber other than the sender. */
  predicate GetsTopic(h: Hub, c: Connection, topic: string, d: Connection) {
    IsRegistered(h, d) && d != c && topic in h.At(d).subs
  }

  /** A registered watcher other than the sender whose filters match. */
  predicate GetsWire(cfg: Config, h: Hub, c: Connection, m: Message, d: Connection) {
    IsRegistered(h, d) && d != c && cfg.Observes(h.At(d), m)
  }

  function If(b: bool, f: Frame): seq<Frame> {
    if b then [f] else []
  }

  lemma SessionsExact(h: Hub, sids: set<string>)
    requires SidsIndexed(h) && sids <= h.connections.Keys
    ensures |Sessions(h, sids)| == |sids|
    ensures forall d :: d in Sessions(h, sids) <==> IsRegistered(h, d) && h.At(d).sid.value in sids
  {
    forall d
      ensures d in Sessions(h, sids) <==> IsRegistered(h, d) && h.At(d).sid.value in sids
    {
      if d in Sessions(h, sids) {
        var s :| s in sids && s in h.connections && h.connections[s] == d;
        assert h.At(d).sid == Some(s);
      }
    }
    SessionsCount(h, sids);
  }

  /** Different session ids belong to different connections. */
  lemma {:induction false} SessionsCount(h: Hub, sids: set<string>)
    requires SidsIndexed(h) && sids <= h.connections.Keys
    ensures |Sessions(h, sids)| == |sids|
  {
    if sids == {} {
      assert Sessions(h, sids) == {};
    } else {
      var s :| s in sids;
      var rest := sids - {s};
      SessionsCount(h, rest);
      forall t | t in rest
        ensures h.connections[t] != h.connections[s]
      {
        assert h.At(h.connections[t]).sid == Some(t) && h.At(h.connections[s]).sid == Some(s);
      }
      assert Sessions(h, sids) == Sessions(h, rest) + {h.connections[s]};
    }
  }

  lemma WatchersExact(cfg: Config, h: Hub, c: Connection, m: Message)
    requires SidsIndexed(h) && IsRegistered(h, c)
    ensures forall d :: d in h.Watchers(cfg, m, h.At(c).sid) <==> GetsWire(cfg, h, c, m, d)
  {
    forall d
      ensures d in h.Watchers(cfg, m, h.At(c).sid) <==> GetsWire(cfg, h, c, m, d)
    {
      if d in h.Watchers(cfg, m, h.At(c).sid) {
        var s :| s in h.connections && Some(s) != h.At(c).sid && h.connections[s] == d;
        assert h.At(d).sid == Some(s);
      }
    }
  }

  /** Posting changes no filter, so the watchers afterwards are those before. */
  lemma WatchersStay(cfg: Config, h: Hub, g: Hub, m: Message, sender: Option<string>)
    requires SidsIndexed(h) && g.connections == h.connections && g.conns.Keys == h.conns.Keys
    requires forall d :: d in h.conns ==> g.conns[d] == h.conns[d].(outbox := g.conns[d].outbox)
    ensures g.Watchers(cfg, m, sender) == h.Watchers(cfg, m, sender)
  {
    forall s | s in h.connections
      ensures cfg.Observes(g.At(h.connections[s]), m) == cfg.Observes(h.At(h.connections[s]), m)
    {
      assert g.conns[h.connections[s]] == h.conns[h.connections[s]].(outbox := g.conns[h.connections[s]].outbox);
    }
  }

  /** An accepted send: the reply counts the sessions that get the message; each of them gets
      exactly one `peer.message`, each matching watcher exactly one `peer.wire_message` with the
      same count, the sender neither; and the queue of the address grows by one iff nobody got it.
      Nothing else changes. */
  lemma SendEffect(cfg: Config, h: Hub, c: Connection, to: string, body: Json, replyTo: Option<string>,
                   id: string, ts: real)
    requires Indexed(h) && IsRegistered(h, c) && Send(cfg, h, c, to, body, replyTo, id, ts).1.Ok?
    ensures var (g, out) := Send(cfg, h, c, to, body, replyTo, id, ts);
      var (addr, m) := (ParseAddress(to).value, Compose(h, c, to, body, replyTo, id, ts));
      var got := set d | d in h.conns && GetsDirect(cfg, h, c, addr, m, d);
      && out == Ok(SendReply(id, |got|))
      && g == h.(conns := g.conns, dms := if got == {} then Enqueue(h.dms, m, cfg.dmMax) else h.dms)
      && g.conns.Keys == h.conns.Keys
      && forall d :: d in h.conns ==> g.conns[d] == h.conns[d].EnqueueAll(
           If(GetsDirect(cfg, h, c, addr, m, d), PeerMessage(m))
           + If(GetsWire(cfg, h, c, m, d), WireMessage(m, |got|, got == {})))
  {
    var addr, m := ParseAddress(to).value, Compose(h, c, to, body, replyTo, id, ts);
    var g := Routed(cfg, h, c, addr, m).0;
    var gs := Sessions(h, Receivers(cfg, h, c, addr, m));
    var ws := h.Watchers(cfg, m, h.At(c).sid);
    RoutedEffect(cfg, h, c, addr, m);
    WatchersExact(cfg, h, c, m);
    hide Receivers, Sessions, Hub.Watchers, Indexed, Resolve, ParseAddress, Compose, Enqueue, GetsWire, Routed;
    hide Config.Accepts;
    assert gs == set d | d in h.conns && GetsDirect(cfg, h, c, addr, m, d);
    forall d | d in h.conns
      ensures g.conns[d] == h.conns[d].EnqueueAll(
        If(GetsDirect(cfg, h, c, addr, m, d), PeerMessage(m))
        + If(GetsWire(cfg, h, c, m, d), WireMessage(m, |gs|, gs == {})))
    {
      hide GetsDirect, If, Conn.EnqueueAll;
      assert d in gs <==> GetsDirect(cfg, h, c, addr, m, d);
      assert d in ws <==> GetsWire(cfg, h, c, m, d);
    }
  }

  /** A watcher that is also a recipient gets both notifications of the same message: the two views
      overlap exactly on the recipients whose watch filters match. */
  lemma ViewsOverlapIff(cfg: Config, h: Hub, c: Connection, to: string, body: Json, replyTo: Option<string>,
                        id: string, ts: real, d: Connection)
    requires Indexed(h) && IsRegistered(h, c) && Send(cfg, h, c, to, body, replyTo, id, ts).1.Ok?
    requires d in h.conns && !h.conns[d].closed
    ensures var g := Send(cfg, h, c, to, body, replyTo, id, ts).0;
      var (addr, m) := (ParseAddress(to).value, Compose(h, c, to, body, replyTo, id, ts));
      d in g.conns && (|g.conns[d].outbox| == |h.conns[d].outbox| + 2
        <==> GetsDirect(cfg, h, c, addr, m, d) && GetsWire(cfg, h, c, m, d))
  {
    SendEffect(cfg, h, c, to, body, replyTo, id, ts);
    hide Send, GetsDirect, GetsWire, Indexed;
  }

  lemma RoutedEffect(cfg: Config, h: Hub, c: Connection, addr: Address, m: Message)
    requires Indexed(h) && IsRegistered(h, c) && addr.Home?
    ensures var (g, out) := Routed(cfg, h, c, addr, m);
      var (gs, ws) := (Sessions(h, Receivers(cfg, h, c, addr, m)), h.Watchers(cfg, m, h.At(c).sid));
      && gs == (set d | d in h.conns && GetsDirect(cfg, h, c, addr, m, d))
      && out == Ok(SendReply(m.id, |gs|))
      && g == h.(conns := g.conns, dms := if gs == {} then Enqueue(h.dms, m, cfg.dmMax) else h.dms)
      && g.conns.Keys == h.conns.Keys
      && forall d :: d in h.conns ==> g.conns[d] == h.conns[d].EnqueueAll(
           If(d in gs, PeerMessage(m)) + If(d in ws, WireMessage(m, |gs|, gs == {})))
  {
    var rs := Receivers(cfg, h, c, addr, m);
    ReceiversExact(cfg, h, c, addr, m);
    RoutedPosts(cfg, h, c, addr, m);
    hide Receivers, Sessions, Hub.Watchers, Indexed, Resolve, Enqueue, GetsDirect, Routed;
    TwoPosts(h, Sessions(h, rs), PeerMessage(m), h.Watchers(cfg, m, h.At(c).sid), WireMessage(m, |rs|, rs == {}));
  }

  /** A routed message as two rounds of posting, with the watchers fixed beforehand. */
  lemma RoutedPosts(cfg: Config, h: Hub, c: Connection, addr: Address, m: Message)
    requires Indexed(h) && addr.Home?
    ensures var rs := Receivers(cfg, h, c, addr, m);
      var g := h.Post(Sessions(h, rs), PeerMessage(m))
                .Post(h.Watchers(cfg, m, h.At(c).sid), WireMessage(m, |rs|, rs == {}));
      Routed(cfg, h, c, addr, m)
        == (h.(conns := g.conns, dms := if rs == {} then Enqueue(h.dms, m, cfg.dmMax) else h.dms),
            Ok(SendReply(m.id, |rs|)))
  {
    var rs := Receivers(cfg, h, c, addr, m);
    var h1 := h.Post(Sessions(h, rs), PeerMessage(m));
    WatchersStay(cfg, h, h1, m, h.At(c).sid);
    WatchersStay(cfg, h, h1.(dms := Enqueue(h1.dms, m, cfg.dmMax)), m, h.At(c).sid);
    hide Receivers, Sessions, Hub.Watchers, Indexed, Enqueue, PostTo;
  }

  lemma ReceiversExact(cfg: Config, h: Hub, c: Connection, addr: Address, m: Message)
    requires Indexed(h) && IsRegistered(h, c) && addr.Home?
    ensures var rs := Receivers(cfg, h, c, addr, m);
      var got := set d | d in h.conns && GetsDirect(cfg, h, c, addr, m, d);
      Sessions(h, rs) == got && |rs| == |got| && (rs == {} <==> got == {})
  {
    var rs := Receivers(cfg, h, c, addr, m);
    SessionsExact(h, rs);
    assert Sessions(h, rs) == set d | d in h.conns && GetsDirect(cfg, h, c, addr, m, d);
  }

  lemma EnqueueTwice(k: Conn, x: bool, f: Frame, y: bool, e: Frame)
    ensures (if y then (if x then k.Enqueue(f) else k).Enqueue(e) else if x then k.Enqueue(f) else k)
      == k.EnqueueAll(If(x, f) + If(y, e))
  {
    assert k.outbox + [] == k.outbox;
    assert k.outbox + ([f] + [e]) == k.outbox + [f] + [e];
    assert [] + If(y, e) == If(y, e) && If(x, f) + [] == If(x, f);
  }

  lemma PostAt(h: Hub, a: set<Connection>, f: Frame, d: Connection)
    requires d in h.conns
    ensures d in h.Post(a, f).conns
    ensures h.Post(a, f).conns[d] == if d in a then h.conns[d].Enqueue(f) else h.conns[d]
  {
  }

  lemma TwoPostsAt(h: Hub, a: set<Connection>, f: Frame, b: set<Connection>, e: Frame, d: Connection)
    requires d in h.conns
    ensures d in h.Post(a, f).Post(b, e).conns
    ensures h.Post(a, f).Post(b, e).conns[d] == h.conns[d].EnqueueAll(If(d in a, f) + If(d in b, e))
  {
    PostAt(h, a, f, d);
    PostAt(h.Post(a, f), b, e, d);
    EnqueueTwice(h.conns[d], d in a, f, d in b, e);
    hide *;
  }

  lemma TwoPosts(h: Hub, a: set<Connection>, f: Frame, b: set<Connection>, e: Frame)
    ensures forall d :: d in h.conns ==>
      h.Post(a, f).Post(b, e).conns[d] == h.conns[d].EnqueueAll(If(d in a, f) + If(d in b, e))
  {
    forall d | d in h.conns {
      TwoPostsAt(h, a, f, b, e, d);
    }
    hide *;
  }

  /** An accepted publication: likewise, to the subscribers, and always into the ring. */
  lemma PublishEffect(cfg: Config, h: Hub, c: Connection, topic: string, body: Json, id: string, ts: real)
    requires Indexed(h) && IsRegistered(h, c) && Publish(cfg, h, c, topic, body, id, ts).1.Ok?
    ensures var (g, out) := Publish(cfg, h, c, topic, body, id, ts);
      var m := Compose(h, c, TopicKey(topic), body, None, id, ts);
      var got := set d | d in h.conns && GetsTopic(h, c, topic, d);
      && out == Ok(PublishReply(id, |got|))
      && g == h.(conns := g.conns, topics := Enqueue(h.topics, m, cfg.topicMax))
      && g.conns.Keys == h.conns.Keys
      && forall d :: d in h.conns ==> g.conns[d] == h.conns[d].EnqueueAll(
           If(GetsTopic(h, c, topic, d), PeerMessage(m))
           + If(GetsWire(cfg, h, c, m, d), WireMessage(m, |got|, false)))
  {
    var m := Compose(h, c, TopicKey(topic), body, None, id, ts);
    var rs := Subscribers(h, topic, h.At(c).sid);
    var got := set d | d in h.conns && GetsTopic(h, c, topic, d);
    SubscribersExact(h, c, topic);
    var h1 := h.(topics := Enqueue(h.topics, m, cfg.topicMax));
    var h2 := h1.Post(Sessions(h, rs), PeerMessage(m));
    WatchersStay(cfg, h, h2, m, h.At(c).sid);
    WatchersExact(cfg, h, c, m);
    TwoPosts(h1, Sessions(h, rs), PeerMessage(m), h.Watchers(cfg, m, h.At(c).sid), WireMessage(m, |rs|, false));
  }

  lemma SubscribersExact(h: Hub, c: Connection, topic: string)
    requires Indexed(h) && IsRegistered(h, c)
    ensures var rs := Subscribers(h, topic, h.At(c).sid);
      var got := set d | d in h.conns && GetsTopic(h, c, topic, d);
      Sessions(h, rs) == got && |rs| == |got|
  {
    var rs := Subscribers(h, topic, h.At(c).sid);
    SessionsExact(h, rs);
    forall d | d in h.conns && IsRegistered(h, d)
      ensures topic in h.At(d).subs <==> h.At(d).sid.value in Members(h.topicSubs, topic)
    {
      assert Scan(h)[h.At(d).sid.value] == SessionOf(h.At(d));
    }
    assert Sessions(h, rs) == set d | d in h.conns && GetsTopic(h, c, topic, d);
  }

  /** The router's topic check and the address parser agree: the check passes a name through iff the
      parser reads `topic:` and the name back as that topic, and rejects every other name. So every
      address published to is one that `peer.history` accepts. */
  lemma TopicCheckIff(topic: string)
    ensures ValidateTopic(topic) == Ok(topic) <==> ParseAddress(TopicKey(topic)) == Ok(Topic(topic))
    ensures ValidateTopic(topic) == if ParseAddress(TopicKey(topic)).Ok? then Ok(topic) else Err(INVALID_PARAMS)
  {
    assert TopicKey(topic)[6..] == topic;
    assert topic != "" ==> ("/" <= topic <==> topic[0] == '/');
    hide Utf8Length;
  }

  /** A publication can be read back at once: any session that asks for the history of its address
      gets it as the last message. */
  lemma PublicationReadable(cfg: Config, h: Hub, c: Connection, topic: string, body: Json, id: string, ts: real,
                            d: Connection, limit: int)
    requires Publish(cfg, h, c, topic, body, id, ts).1.Ok? && cfg.topicMax > 0
    requires h.At(d).sid.Some? && d in h.conns && 0 < limit <= 1000
    ensures var g := Publish(cfg, h, c, topic, body, id, ts).0;
      var m := Compose(h, c, TopicKey(topic), body, None, id, ts);
      var out := History(g, d, m.to, None, limit).1;
      out.Ok? && out.value.HistoryReply? && out.value.msgs != [] && out.value.msgs[|out.value.msgs| - 1] == m
  {
    hide PostTo, Routing.Subscribers, Hub.Watchers, ValidateTopic, ParseAddress;
    TopicCheckIff(topic);
    var g := Publish(cfg, h, c, topic, body, id, ts).0;
    var m := Compose(h, c, TopicKey(topic), body, None, id, ts);
    PublishedStays(cfg, h, c, topic, m, d);
    var ring := Push(QueueAt(h.topics, m.to), m, cfg.topicMax);
    assert QueueAt(g.topics, m.to) == ring && ring[|ring| - 1] == m;
  }

  lemma PublishedStays(cfg: Config, h: Hub, c: Connection, topic: string, m: Message, d: Connection)
    requires d in h.conns
    ensures var g := Published(cfg, h, c, topic, m).0;
      g.At(d).sid == h.At(d).sid && g.topics == Enqueue(h.topics, m, cfg.topicMax)
  {
  }
}
