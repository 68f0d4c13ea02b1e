/** What a subscriber sees: its replay, then every later publication of the others, in order. */
module Subscribers {
  import opened Base
  import opened Messages
  import opened Addressing
  import opened Connections
  import opened Store
  import opened Routing
  import opened Registry
  import opened Daemon
  import opened Effects
  import opened Invariant
  import opened Topics
  import opened Forms
  import opened Roster

  // ---------------------------------------------------------------- one primitive at a time

  lemma PostView(h: Hub, targets: set<Connection>, f: Frame, c: Connection, topic: string)
    requires c in h.conns
    ensures View(h.Post(targets, f), c, topic) == View(h, c, topic)
      + if c in targets && !h.At(c).closed && f.PeerMessage? && f.msg.to == TopicKey(topic) then [f.msg] else []
  {
    var out := h.At(c).outbox;
    SeenConcat(out, [f], TopicKey(topic));
    assert [f][..0] == [];
    assert View(h, c, topic) + [] == View(h, c, topic);
  }

  /** Messages for other destinations do not show. */
  lemma HandView(h: Hub, d: Connection, msgs: seq<Message>, c: Connection, topic: string)
    requires c in h.conns && forall i :: 0 <= i < |msgs| ==> msgs[i].to != TopicKey(topic)
    ensures View(h.Put(d, h.At(d).EnqueueAll(MessageFrames(msgs))), c, topic) == View(h, c, topic)
  {
    SeenConcat(h.At(c).outbox, MessageFrames(msgs), TopicKey(topic));
    SeenMessageFrames(msgs, TopicKey(topic));
    assert View(h, c, topic) + [] == View(h, c, topic);
  }

  lemma AcceptedFrom(cfg: Config, k: Conn, msgs: seq<Message>, address: string)
    requires forall i :: 0 <= i < |msgs| ==> msgs[i].to == address
    ensures forall i :: 0 <= i < |cfg.Accepted(k, msgs)| ==> cfg.Accepted(k, msgs)[i].to == address
  {
    FilterIn(m => cfg.Accepts(k, m), msgs);
    var got := cfg.Accepted(k, msgs);
    assert forall i :: 0 <= i < |got| ==> got[i] in msgs;
  }

  lemma HomeIsNoTopic(a: string, topic: string)
    requires "home:" <= a
    ensures a != TopicKey(topic)
  {
    assert TopicKey(topic)[0] == 't' && a[0] == 'h';
  }

  lemma DrainView(cfg: Config, h: Hub, d: Connection, address: string, c: Connection, topic: string)
    requires Labelled(h.dms) && c in h.conns && d in h.conns && "home:" <= address
    ensures View(Drain(cfg, h, d, address), c, topic) == View(h, c, topic)
    ensures Labelled(Drain(cfg, h, d, address).dms)
  {
    if QueueAt(h.dms, address) != [] {
      var msgs := cfg.Accepted(h.At(d), h.dms[address]);
      AcceptedFrom(cfg, h.At(d), h.dms[address], address);
      HomeIsNoTopic(address, topic);
      HandView(h, d, msgs, c, topic);
    }
  }

  // ---------------------------------------------------------------- requests

  lemma HelloView(cfg: Config, h: Hub, d: Connection, sid: string, home: string, ts: real, c: Connection, topic: string)
    requires Labelled(h.dms) && c in h.conns && d in h.conns && Hello(cfg, h, d, sid, home, ts).1.Ok?
    ensures View(Hello(cfg, h, d, sid, home, ts).0, c, topic) == View(h, c, topic)
  {
    hide Drain, Labelled, Seen;
    var h1 := Register(h, d, sid, home);
    var h2 := Drain(cfg, h1, d, HomeKey(home));
    var h3 := Drain(cfg, h2, d, DirectKey(home, sid));
    assert h1.At(c).outbox == h.At(c).outbox;
    DrainView(cfg, h1, d, HomeKey(home), c, topic);
    DrainOnlyPosts(cfg, h1, d, HomeKey(home));
    DrainView(cfg, h2, d, DirectKey(home, sid), c, topic);
    DrainOnlyPosts(cfg, h2, d, DirectKey(home, sid));
    PostView(h3, h3.Others(Some(sid)), PeerJoined(home, sid, ts), c, topic);
    assert View(h, c, topic) + [] == View(h, c, topic);
  }

  lemma AdoptedView(cfg: Config, h: Hub, d: Connection, chosen: Option<string>, ts: real, c: Connection, topic: string)
    requires Labelled(h.dms) && c in h.conns && d in h.conns && h.At(d).sid.Some?
    ensures View(Adopted(cfg, h, d, chosen, ts), c, topic) == View(h, c, topic)
  {
    hide Drain, Labelled, Seen, RenameIn;
    var k, home := h.At(d), h.At(d).HomeOrEmpty();
    var h1 := Rename(h, d, chosen);
    var h2 := h1;
    assert h1.At(c).outbox == h.At(c).outbox;
    if chosen.Some? && chosen != k.alias {
      h2 := Drain(cfg, h1, d, DirectKey(home, chosen.value));
      DrainView(cfg, h1, d, DirectKey(home, chosen.value), c, topic);
      DrainOnlyPosts(cfg, h1, d, DirectKey(home, chosen.value));
    }
    PostView(h2, h2.Others(None), AliasChanged(home, k.sid.value, chosen, k.alias, ts), c, topic);
    assert View(h, c, topic) + [] == View(h, c, topic);
  }

  lemma RoutedView(cfg: Config, h: Hub, d: Connection, addr: Address, m: Message, c: Connection, topic: string)
    requires c in h.conns && addr.Home? && "home:" <= m.to
    ensures View(Routed(cfg, h, d, addr, m).0, c, topic) == View(h, c, topic)
  {
    hide Seen, Receivers, Hub.Watchers, Sessions;
    var rs := Receivers(cfg, h, d, addr, m);
    var h1 := h.Post(Sessions(h, rs), PeerMessage(m));
    var h2 := if rs == {} then h1.(dms := Enqueue(h1.dms, m, cfg.dmMax)) else h1;
    HomeIsNoTopic(m.to, topic);
    PostView(h, Sessions(h, rs), PeerMessage(m), c, topic);
    PostOnlyPosts(h, Sessions(h, rs), PeerMessage(m));
    PostView(h2, h2.Watchers(cfg, m, h.At(d).sid), WireMessage(m, |rs|, rs == {}), c, topic);
    assert View(h, c, topic) + [] == View(h, c, topic);
  }

  /** A registered subscriber, other than the publisher, whose outbox is open. */
  predicate Hears(h: Hub, d: Connection, c: Connection, topic: string) {
    GetsTopic(h, d, topic, c) && !h.At(c).closed
  }

  /** A publication shows exactly to the subscribers other than its sender. */
  lemma PublishedView(cfg: Config, h: Hub, d: Connection, other: string, m: Message, c: Connection, topic: string)
    requires Indexed(h) && c in h.conns && IsRegistered(h, d) && m.to == TopicKey(other)
    ensures View(Published(cfg, h, d, other, m).0, c, topic)
      == View(h, c, topic) + if other == topic && Hears(h, d, c, topic) then [m] else []
  {
    hide Seen, Routing.Subscribers, Hub.Watchers, Sessions, Indexed, Enqueue, GetsTopic;
    var rs := Subscribers(h, other, h.At(d).sid);
    TopicKeyInjective(other, topic);
    SubscribersExact(h, d, other);
    var h1 := h.(topics := Enqueue(h.topics, m, cfg.topicMax));
    PostView(h1, Sessions(h, rs), PeerMessage(m), c, topic);
    PostOnlyPosts(h1, Sessions(h, rs), PeerMessage(m));
    var h2 := h1.Post(Sessions(h, rs), PeerMessage(m));
    PostView(h2, h2.Watchers(cfg, m, h.At(d).sid), WireMessage(m, |rs|, false), c, topic);
    assert View(h2, c, topic) + [] == View(h2, c, topic);
    assert c in Sessions(h, rs) <==> GetsTopic(h, d, other, c);
  }

  /** What a subscription with a replay shows to the session that makes it. */
  function Replayed(h: Hub, c: Connection, topic: string, replay: int): seq<Message> {
    if replay <= 0 || h.At(c).closed then [] else LastN(QueueAt(h.topics, TopicKey(topic)), replay)
  }

  lemma FollowedView(h: Hub, d: Connection, other: string, replay: nat, c: Connection, topic: string)
    requires Labelled(h.topics) && c in h.conns && d in h.conns && h.At(d).sid.Some?
    ensures View(Followed(h, d, other, replay), c, topic)
         == View(h, c, topic) + if d == c && other == topic then Replayed(h, c, topic, replay) else []
  {
    hide Seen, LastN;
    var h1, ring := Subscribed(h, d, other), QueueAt(h.topics, TopicKey(other));
    assert h1.At(c).outbox == h.At(c).outbox;
    assert View(h, c, topic) + [] == View(h, c, topic);
    if replay > 0 && d == c {
      TopicKeyInjective(other, topic);
      RingFor(h, other, replay);
      if other == topic {
        SeenConcat(h.At(c).outbox, MessageFrames(LastN(ring, replay)), TopicKey(topic));
        SeenMessageFrames(LastN(ring, replay), TopicKey(topic));
      } else {
        HandView(h1.(topics := h.topics[TopicKey(other) := ring]), d, LastN(ring, replay), c, topic);
      }
    }
  }

  lemma RingFor(h: Hub, topic: string, replay: nat)
    requires Labelled(h.topics)
    ensures var tail := LastN(QueueAt(h.topics, TopicKey(topic)), replay);
      forall i :: 0 <= i < |tail| ==> tail[i].to == TopicKey(topic)
  {
  }

  /** What one request adds to the view that a connection has of a topic: a replay that it asks for, or
      a publication of somebody else while it is subscribed. */
  function Shown(cfg: Config, h: Hub, d: Connection, req: Request, c: Connection, topic: string): seq<Message> {
    if d == c && req.ReqSubscribe? && req.topic == topic && Handle(cfg, h, d, req).1.Ok?
    then Replayed(h, c, topic, req.replay)
    else if Hears(h, d, c, topic) then Publication(cfg, h, d, req, topic)
    else []
  }

  lemma HandleView(cfg: Config, h: Hub, d: Connection, req: Request, c: Connection, topic: string)
    requires Indexed(h) && AllLabelled(h) && c in h.conns && Consistent(h, d)
    ensures View(Handle(cfg, h, d, req).0, c, topic) == View(h, c, topic) + Shown(cfg, h, d, req, c, topic)
  {
    hide Indexed, AllLabelled, View, Hears, Replayed, Handle;
    assert View(h, c, topic) + [] == View(h, c, topic);
    if Handle(cfg, h, d, req).1.Err? {
      RejectedView(cfg, h, d, req, c, topic);
    } else if IsPlain(req) {
      PlainView(cfg, h, d, req, c, topic);
    } else {
      TrafficView(cfg, h, d, req, c, topic);
    }
  }

  lemma RejectedView(cfg: Config, h: Hub, d: Connection, req: Request, c: Connection, topic: string)
    requires Handle(cfg, h, d, req).1.Err?
    ensures View(Handle(cfg, h, d, req).0, c, topic) == View(h, c, topic)
  {
    hide Handle, Seen;
    RejectedIsNoOp(cfg, h, d, req);
  }

  lemma PlainView(cfg: Config, h: Hub, d: Connection, req: Request, c: Connection, topic: string)
    requires c in h.conns && d in h.conns && IsPlain(req)
    ensures View(Handle(cfg, h, d, req).0, c, topic) == View(h, c, topic)
  {
    hide ParseAddress, AnyMatch, Persistence.Page, Seen;
    var g := Handle(cfg, h, d, req).0;
    assert g == h || g == h.Put(d, g.At(d));
    assert g.At(d).outbox == h.At(d).outbox;
  }

  lemma TrafficView(cfg: Config, h: Hub, d: Connection, req: Request, c: Connection, topic: string)
    requires Indexed(h) && AllLabelled(h) && c in h.conns && Consistent(h, d)
    requires Handle(cfg, h, d, req).1.Ok? && !IsPlain(req)
    ensures View(Handle(cfg, h, d, req).0, c, topic) == View(h, c, topic) + Shown(cfg, h, d, req, c, topic)
  {
    hide Indexed, Hello, Adopted, Routed, Published, Followed, Seen, Labelled, ParseAddress, RenameIn, Expel;
    hide IsValidAlias, IsValidSid, IsNormalizedPath, ValidateTopic, Hears, Replayed;
    assert View(h, c, topic) + [] == View(h, c, topic);
    match req {
      case ReqHello(sid, home, ts) => HelloView(cfg, h, d, sid, home, ts, c, topic);
      case ReqSetAlias(alias, ts) =>
        AdoptedView(cfg, h, d, if alias == "" then None else Some(alias), ts, c, topic);
      case ReqSend(dest, body, replyTo, id, ts) =>
        ParseRender(dest, ParseAddress(dest).value);
        RoutedView(cfg, h, d, ParseAddress(dest).value, Compose(h, d, dest, body, replyTo, id, ts), c, topic);
      case ReqPublish(other, body, id, ts) =>
        PublishedView(cfg, h, d, other, Compose(h, d, TopicKey(other), body, None, id, ts), c, topic);
      case ReqSubscribe(other, replay) => FollowedView(h, d, other, replay, c, topic);
      case ReqUnsubscribe(other) => assert Unsubscribed(h, d, other).At(c).outbox == h.At(c).outbox;
    }
  }

  // ---------------------------------------------------------------- runs

  /** A connected subscriber whose outbox is open. */
  ghost predicate Follows(h: Hub, c: Connection, topic: string) {
    Consistent(h, c) && h.At(c).sid.Some? && topic in h.At(c).subs && !h.At(c).closed
  }

  /** The event does not end the subscription of c to the topic or its connection. */
  predicate Spares(e: Event, c: Connection, topic: string) {
    && !e.Restarted? && !(e.HungUp? && e.c == c) && !(e.WriteFailed? && e.c == c)
    && !(e.Called? && e.c == c && e.req.ReqSubscribe? && e.req.topic == topic)
    && !(e.Called? && e.c == c && e.req.ReqUnsubscribe? && e.req.topic == topic)
  }

  lemma ReshapedFollows(cfg: Config, h: Hub, d: Connection, req: Request, c: Connection, topic: string)
    requires c in h.conns && h.At(c).sid.Some? && topic in h.At(c).subs && !h.At(c).closed
    requires d == c ==> !(req.ReqUnsubscribe? && req.topic == topic)
    ensures var k := Reshaped(cfg, h, d, req).At(c);
      k.sid == h.At(c).sid && topic in k.subs && !k.closed
  {
    hide Hello, Adopted, Routed, Published, Followed, ParseAddress, RenameIn, Enroll, Expel;
    hide IsValidAlias, IsValidSid, IsNormalizedPath, ValidateTopic;
  }

  lemma CalledFollows(cfg: Config, h: Hub, d: Connection, requestId: Option<RequestId>, req: Request,
                      c: Connection, topic: string)
    requires c in h.conns && d in h.conns && h.At(c).sid.Some? && topic in h.At(c).subs && !h.At(c).closed
    requires d == c ==> !(req.ReqUnsubscribe? && req.topic == topic)
    ensures var k := Dispatch(cfg, h, d, requestId, req).At(c);
      k.sid == h.At(c).sid && topic in k.subs && !k.closed
  {
    hide Handle, Reshaped;
    ReshapedFollows(cfg, h, d, req, c, topic);
    HandleShape(cfg, h, d, req);
    assert c in Handle(cfg, h, d, req).0.conns by {
      assert c in Reshaped(cfg, h, d, req).conns by { ReshapedKeepsKeys(cfg, h, d, req, c); }
    }
  }

  lemma ReshapedKeepsKeys(cfg: Config, h: Hub, d: Connection, req: Request, c: Connection)
    requires c in h.conns
    ensures c in Reshaped(cfg, h, d, req).conns
  {
    hide Handle, Enroll, Expel, RenameIn;
  }

  lemma StepFollows(cfg: Config, s: System, e: Event, c: Connection, topic: string)
    requires Well(s) && c in s.open && Follows(s.hub, c, topic) && Spares(e, c, topic)
    ensures c in Step(cfg, s, e).open && Follows(Step(cfg, s, e).hub, c, topic)
  {
    StepWell(cfg, s, e);
    hide Dispatch, Goodbye, Indexed;
    match e {
      case Called(d, requestId, req) =>
        if d in s.open {
          SelfSettled(s.hub, d, s.open);
          CalledFollows(cfg, s.hub, d, requestId, req, c, topic);
        }
      case HungUp(d, ts) =>
        if d in s.open {
          SelfSettled(s.hub, d, s.open);
          GoodbyeShape(s.hub, d, ts);
        }
      case _ =>
    }
  }

  lemma AnswerView(h: Hub, d: Connection, requestId: Option<RequestId>, out: Outcome, c: Connection, topic: string)
    requires c in h.conns && d in h.conns
    ensures View(h.Put(d, Answer(h.At(d), requestId, out)), c, topic) == View(h, c, topic)
  {
    if requestId.Some? {
      var f := if out.Ok? then Response(requestId.value, out.value) else Failure(requestId.value, out.error);
      SeenConcat(h.At(d).outbox, [f], TopicKey(topic));
      assert [f][..0] == [];
      assert View(h, c, topic) + [] == View(h, c, topic);
    }
  }

  lemma GoodbyeView(h: Hub, d: Connection, ts: real, c: Connection, topic: string)
    requires c in h.conns && d in h.conns
    ensures View(Close(Goodbye(h, d, ts), d), c, topic) == View(h, c, topic)
  {
    if h.At(d).sid.Some? {
      var h1, k := Unregister(h, d), h.At(d);
      assert h1.At(c).outbox == h.At(c).outbox;
      PostView(h1, h1.Others(k.sid), PeerLeft(k.HomeOrEmpty(), k.sid.value, k.alias, ts), c, topic);
      assert View(h, c, topic) + [] == View(h, c, topic);
    }
  }

  lemma CalledView(cfg: Config, h: Hub, d: Connection, requestId: Option<RequestId>, req: Request, c: Connection,
                   topic: string)
    requires Indexed(h) && AllLabelled(h) && c in h.conns && Consistent(h, d)
    ensures View(Dispatch(cfg, h, d, requestId, req), c, topic) == View(h, c, topic) + Shown(cfg, h, d, req, c, topic)
  {
    hide Handle, Indexed, AllLabelled, View, Shown;
    var (g, out) := Handle(cfg, h, d, req);
    HandleView(cfg, h, d, req, c, topic);
    HandleShape(cfg, h, d, req);
    ReshapedKeepsKeys(cfg, h, d, req, c);
    ReshapedKeepsKeys(cfg, h, d, req, d);
    AnswerView(g, d, requestId, out, c, topic);
  }

  /** What an event adds to the view. */
  function ShownBy(cfg: Config, s: System, e: Event, c: Connection, topic: string): seq<Message> {
    if e.Called? && e.c in s.open then Shown(cfg, s.hub, e.c, e.req, c, topic) else []
  }

  lemma StepView(cfg: Config, s: System, e: Event, c: Connection, topic: string)
    requires Well(s) && AllLabelled(s.hub) && c in s.hub.conns
    ensures c in Step(cfg, s, e).hub.conns
    ensures View(Step(cfg, s, e).hub, c, topic) == View(s.hub, c, topic) + ShownBy(cfg, s, e, c, topic)
  {
    hide Dispatch, Goodbye, Indexed, AllLabelled, Seen, Shown;
    assert View(s.hub, c, topic) + [] == View(s.hub, c, topic);
    match e {
      case Called(d, requestId, req) =>
        if d in s.open {
          CalledView(cfg, s.hub, d, requestId, req, c, topic);
          CalledKeeps(cfg, s.hub, d, requestId, req, c);
        }
      case _ => QuietView(cfg, s, e, c, topic);
    }
  }

  lemma QuietView(cfg: Config, s: System, e: Event, c: Connection, topic: string)
    requires Well(s) && c in s.hub.conns && !e.Called?
    ensures c in Step(cfg, s, e).hub.conns && View(Step(cfg, s, e).hub, c, topic) == View(s.hub, c, topic)
  {
    hide Well, View, Step;
    if e.HungUp? {
      LeaverView(cfg, s, e, c, topic);
    } else {
      OutboxStays(cfg, s, e, c);
      SameOutbox(s.hub, Step(cfg, s, e).hub, c, topic);
    }
  }

  lemma OutboxStays(cfg: Config, s: System, e: Event, c: Connection)
    requires c in s.hub.conns && !e.Called? && !e.HungUp?
    ensures c in Step(cfg, s, e).hub.conns && Step(cfg, s, e).hub.At(c).outbox == s.hub.At(c).outbox
  {
    hide Goodbye, Dispatch;
  }

  lemma LeaverView(cfg: Config, s: System, e: Event, c: Connection, topic: string)
    requires Well(s) && c in s.hub.conns && e.HungUp?
    ensures c in Step(cfg, s, e).hub.conns && View(Step(cfg, s, e).hub, c, topic) == View(s.hub, c, topic)
  {
    hide Goodbye, Well, View;
    if e.c in s.open {
      OpenKnown(s, e.c);
      GoodbyeShape(s.hub, e.c, e.ts);
      GoodbyeView(s.hub, e.c, e.ts, c, topic);
    }
  }

  lemma OpenKnown(s: System, c: Connection)
    requires Well(s) && c in s.open
    ensures c in s.hub.conns
  {
    assert Consistent(s.hub, c);
  }

  lemma SameOutbox(h: Hub, g: Hub, c: Connection, topic: string)
    requires g.At(c).outbox == h.At(c).outbox
    ensures View(g, c, topic) == View(h, c, topic)
  {
  }

  lemma CalledKeeps(cfg: Config, h: Hub, d: Connection, requestId: Option<RequestId>, req: Request, c: Connection)
    requires c in h.conns && d in h.conns
    ensures c in Dispatch(cfg, h, d, requestId, req).conns
  {
    hide Handle, Reshaped;
    HandleShape(cfg, h, d, req);
    ReshapedKeepsKeys(cfg, h, d, req, c);
  }

  /** What a run adds to the view. */
  function ShownLog(cfg: Config, s: System, es: seq<Event>, c: Connection, topic: string): seq<Message> {
    if es == [] then []
    else
      var init := es[..|es| - 1];
      ShownLog(cfg, s, init, c, topic) + ShownBy(cfg, Run(cfg, s, init), es[|es| - 1], c, topic)
  }

  /** The view of any connection over any run: its replays, and the publications of others while it was
      subscribed and open, in order, and nothing else. */
  lemma {:induction false} ViewLaw(cfg: Config, s: System, es: seq<Event>, c: Connection, topic: string)
    requires Well(s) && AllLabelled(s.hub) && c in s.hub.conns
    ensures var t := Run(cfg, s, es);
      && Well(t) && AllLabelled(t.hub) && c in t.hub.conns
      && View(t.hub, c, topic) == View(s.hub, c, topic) + ShownLog(cfg, s, es, c, topic)
  {
    if es == [] {
      assert View(s.hub, c, topic) + [] == View(s.hub, c, topic);
    } else {
      hide Well, AllLabelled, Step, View, ShownBy;
      var init, e := es[..|es| - 1], es[|es| - 1];
      ViewLaw(cfg, s, init, c, topic);
      var t := Run(cfg, s, init);
      StepWell(cfg, t, e);
      StepLabelled(cfg, t, e);
      StepView(cfg, t, e, c, topic);
      Associative(View(s.hub, c, topic), ShownLog(cfg, s, init, c, topic), ShownBy(cfg, t, e, c, topic));
    }
  }

  // ---------------------------------------------------------------- while a subscription lasts

  /** A follower hears every publication but its own. */
  lemma FollowerHears(cfg: Config, s: System, e: Event, c: Connection, topic: string)
    requires Well(s) && AllLabelled(s.hub) && c in s.open && Follows(s.hub, c, topic) && Spares(e, c, topic)
    ensures View(Step(cfg, s, e).hub, c, topic)
      == View(s.hub, c, topic) + if e.Called? && e.c == c then [] else PublishedBy(cfg, s, e, topic)
  {
    hide Well, AllLabelled, Step, View, Publication, Handle;
    StepView(cfg, s, e, c, topic);
  }

  /** Nothing is missed and nothing comes twice while a subscription lasts. */
  lemma {:induction false} ViewGrows(cfg: Config, s: System, es: seq<Event>, c: Connection, topic: string)
    requires Well(s) && AllLabelled(s.hub) && c in s.open && Follows(s.hub, c, topic)
    requires forall i :: 0 <= i < |es| ==> Spares(es[i], c, topic)
    ensures var t := Run(cfg, s, es);
      && Well(t) && AllLabelled(t.hub) && c in t.open && Follows(t.hub, c, topic)
      && View(t.hub, c, topic) == View(s.hub, c, topic) + OthersLog(cfg, s, es, topic, c)
  {
    if es == [] {
      assert View(s.hub, c, topic) + [] == View(s.hub, c, topic);
    } else {
      hide Well, AllLabelled, Follows, Spares, Step, View, PublishedBy;
      var init, e := es[..|es| - 1], es[|es| - 1];
      ViewGrows(cfg, s, init, c, topic);
      var t := Run(cfg, s, init);
      StepWell(cfg, t, e);
      StepLabelled(cfg, t, e);
      StepFollows(cfg, t, e, c, topic);
      FollowerHears(cfg, t, e, c, topic);
      var more := if e.Called? && e.c == c then [] else PublishedBy(cfg, t, e, topic);
      assert View(s.hub, c, topic) + OthersLog(cfg, s, init, topic, c) + more
          == View(s.hub, c, topic) + (OthersLog(cfg, s, init, topic, c) + more);
    }
  }

  /** The replay that an accepted subscription shows first: the end of the ring. */
  lemma SubscribeView(cfg: Config, s: System, c: Connection, requestId: Option<RequestId>, topic: string, replay: int)
    requires Well(s) && AllLabelled(s.hub) && c in s.open && !s.hub.At(c).closed
    requires Subscribe(s.hub, c, topic, replay).1.Ok?
    ensures var t := Step(cfg, s, Called(c, requestId, ReqSubscribe(topic, replay)));
      && c in t.open && Follows(t.hub, c, topic)
      && View(t.hub, c, topic) == View(s.hub, c, topic) + LastN(QueueAt(s.hub.topics, TopicKey(topic)), replay)
  {
    var e := Called(c, requestId, ReqSubscribe(topic, replay));
    StepWell(cfg, s, e);
    SelfSettled(s.hub, c, s.open);
    ReplayView(s.hub, c, topic, replay);
    SubscribedFollows(cfg, s.hub, c, requestId, topic, replay);
    hide Indexed, Seen, Followed, Dispatch, AllLabelled;
  }

  lemma ReplayView(h: Hub, c: Connection, topic: string, replay: nat)
    requires Labelled(h.topics) && c in h.conns && h.At(c).sid.Some? && !h.At(c).closed
    ensures var ring := QueueAt(h.topics, TopicKey(topic));
      View(Followed(h, c, topic, replay), c, topic) == View(h, c, topic) + LastN(ring, replay)
  {
    hide Seen;
    var ring := QueueAt(h.topics, TopicKey(topic));
    SeenConcat(h.At(c).outbox, MessageFrames(LastN(ring, replay)), TopicKey(topic));
    SeenMessageFrames(LastN(ring, replay), TopicKey(topic));
    assert View(h, c, topic) + [] == View(h, c, topic);
  }

  lemma SubscribedFollows(cfg: Config, h: Hub, c: Connection, requestId: Option<RequestId>, topic: string, replay: int)
    requires c in h.conns && h.At(c).sid.Some? && !h.At(c).closed && Subscribe(h, c, topic, replay).1.Ok?
    ensures var g := Followed(h, c, topic, replay);
      var k := Dispatch(cfg, h, c, requestId, ReqSubscribe(topic, replay)).At(c);
      && k.sid == h.At(c).sid && topic in k.subs && !k.closed
      && View(Dispatch(cfg, h, c, requestId, ReqSubscribe(topic, replay)), c, topic) == View(g, c, topic)
  {
    hide Followed, View, ValidateTopic;
    var g := Followed(h, c, topic, replay);
    FollowedRecord(h, c, topic, replay);
    AnswerView(g, c, requestId, Ok(SubscribeReply(topic)), c, topic);
  }

  lemma FollowedRecord(h: Hub, c: Connection, topic: string, replay: nat)
    requires c in h.conns && h.At(c).sid.Some? && !h.At(c).closed
    ensures var g := Followed(h, c, topic, replay);
      c in g.conns && g.At(c).sid == h.At(c).sid && topic in g.At(c).subs && !g.At(c).closed
  {
    hide Enroll;
  }

  /** The view of a subscriber over a whole span: the last messages of the ring at the time it
      subscribed, then every publication of the other sessions since, in publication order. */
  lemma SubscriberView(cfg: Config, s: System, c: Connection, requestId: Option<RequestId>, topic: string, replay: int,
                       es: seq<Event>)
    requires Well(s) && AllLabelled(s.hub) && c in s.open && !s.hub.At(c).closed
    requires Subscribe(s.hub, c, topic, replay).1.Ok?
    requires forall i :: 0 <= i < |es| ==> Spares(es[i], c, topic)
    ensures var t := Step(cfg, s, Called(c, requestId, ReqSubscribe(topic, replay)));
      View(Run(cfg, t, es).hub, c, topic) == View(s.hub, c, topic)
        + LastN(QueueAt(s.hub.topics, TopicKey(topic)), replay) + OthersLog(cfg, t, es, topic, c)
  {
    var e := Called(c, requestId, ReqSubscribe(topic, replay));
    StepWell(cfg, s, e);
    StepLabelled(cfg, s, e);
    hide Well, AllLabelled, Follows, Spares, Step, View;
    SubscribeView(cfg, s, c, requestId, topic, replay);
    ViewGrows(cfg, Step(cfg, s, e), es, c, topic);
  }

  // ---------------------------------------------------------------- after a subscription

  /** A subscription of the connection to the topic. */
  predicate Asks(e: Event, c: Connection, topic: string) {
    e.Called? && e.c == c && e.req.ReqSubscribe? && e.req.topic == topic
  }

  /** The connection is no subscriber of the topic. */
  ghost predicate NoSubscriber(r: Roster, c: Connection, topic: string) {
    c in r.who ==> r.who[c] in r.sessions && topic !in r.sessions[r.who[c]].subs
  }

  lemma StaysUnsubscribed(r: Roster, e: Event, c: Connection, topic: string)
    requires Intact(r) && NoSubscriber(r, c, topic) && !Asks(e, c, topic)
    ensures NoSubscriber(Next(r, e), c, topic)
  {
    hide Served;
    if e.Called? {
      ServedUnsubscribed(r, e.c, e.req, c, topic);
    }
  }

  lemma ServedUnsubscribed(r: Roster, d: Connection, req: Request, c: Connection, topic: string)
    requires Intact(r) && NoSubscriber(r, c, topic) && !(d == c && req.ReqSubscribe? && req.topic == topic)
    ensures NoSubscriber(Served(r, d, req), c, topic)
  {
    hide SessionVerdict, SidForm, PathForm;
  }

  lemma NotHeard(s: System, d: Connection, c: Connection, topic: string)
    requires Well(s) && NoSubscriber(RosterOf(s), c, topic)
    ensures !Hears(s.hub, d, c, topic)
  {
    if IsRegistered(s.hub, c) {
      Listed(s, c);
    }
  }

  lemma NothingShown(cfg: Config, s: System, e: Event, c: Connection, topic: string)
    requires Well(s) && NoSubscriber(RosterOf(s), c, topic) && !Asks(e, c, topic)
    ensures ShownBy(cfg, s, e, c, topic) == []
  {
    hide Well, RosterOf, Hears, Handle, Publication;
    if e.Called? {
      NotHeard(s, e.c, c, topic);
    }
  }

  /** A connection that is no subscriber sees nothing of the topic, and stays none, until it asks. */
  lemma {:induction false} SilentUntilAsked(cfg: Config, s: System, es: seq<Event>, c: Connection, topic: string)
    requires Well(s) && AllLabelled(s.hub) && c in s.hub.conns && NoSubscriber(RosterOf(s), c, topic)
    requires forall i :: 0 <= i < |es| ==> !Asks(es[i], c, topic)
    ensures var t := Run(cfg, s, es);
      && Well(t) && NoSubscriber(RosterOf(t), c, topic) && View(t.hub, c, topic) == View(s.hub, c, topic)
  {
    hide Well, AllLabelled, Step, View, ShownBy, RosterOf, NoSubscriber, Asks, Next;
    ViewLaw(cfg, s, es, c, topic);
    RunSilent(cfg, s, es, c, topic);
    assert View(s.hub, c, topic) + [] == View(s.hub, c, topic);
  }

  lemma {:induction false} RunSilent(cfg: Config, s: System, es: seq<Event>, c: Connection, topic: string)
    requires Well(s) && NoSubscriber(RosterOf(s), c, topic)
    requires forall i :: 0 <= i < |es| ==> !Asks(es[i], c, topic)
    ensures NoSubscriber(RosterOf(Run(cfg, s, es)), c, topic) && ShownLog(cfg, s, es, c, topic) == []
  {
    hide Well, Step, ShownBy, RosterOf, NoSubscriber, Asks, Next;
    if es == [] {
    } else {
      var init, e := es[..|es| - 1], es[|es| - 1];
      RunSilent(cfg, s, init, c, topic);
      RunWell(cfg, s, init);
      NothingShown(cfg, Run(cfg, s, init), e, c, topic);
      StepIs(cfg, Run(cfg, s, init), e);
      StaysUnsubscribed(RosterOf(Run(cfg, s, init)), e, c, topic);
    }
  }

  /** An accepted unsubscription ends the view: whatever is published afterwards, by whomever and over
      whatever run, nothing is added until the connection subscribes to the topic again. */
  lemma UnsubscribedForGood(cfg: Config, s: System, c: Connection, rid: Option<RequestId>, topic: string,
                            es: seq<Event>)
    requires Well(s) && AllLabelled(s.hub) && c in s.open && Handle(cfg, s.hub, c, ReqUnsubscribe(topic)).1.Ok?
    requires forall i :: 0 <= i < |es| ==> !Asks(es[i], c, topic)
    ensures var t := Step(cfg, s, Called(c, rid, ReqUnsubscribe(topic)));
      View(Run(cfg, t, es).hub, c, topic) == View(s.hub, c, topic)
  {
    hide Well, AllLabelled, View, RosterOf, Handle, Dispatch, Run, ShownBy, TopicForm;
    var e := Called(c, rid, ReqUnsubscribe(topic));
    var t := Step(cfg, s, e);
    Listed(s, c);
    VerdictIs(cfg, s, c, e.req);
    ServedIs(cfg, s, c, rid, e.req);
    assert NoSubscriber(RosterOf(t), c, topic);
    OwnUnsubscription(cfg, s, c, rid, topic);
    StepWell(cfg, s, e);
    StepLabelled(cfg, s, e);
    SilentUntilAsked(cfg, t, es, c, topic);
  }

  lemma OwnUnsubscription(cfg: Config, s: System, c: Connection, rid: Option<RequestId>, topic: string)
    requires Well(s) && AllLabelled(s.hub) && c in s.open
    ensures var t := Step(cfg, s, Called(c, rid, ReqUnsubscribe(topic)));
      c in t.hub.conns && View(t.hub, c, topic) == View(s.hub, c, topic)
  {
    hide Well, AllLabelled, View, Handle, Step, Publication;
    Listed(s, c);
    StepView(cfg, s, Called(c, rid, ReqUnsubscribe(topic)), c, topic);
    assert View(s.hub, c, topic) + [] == View(s.hub, c, topic);
  }

  // ---------------------------------------------------------------- no repeats, no gaps

  /** Without the own publications, what is left of a log still has no repeats. */
  lemma {:induction false} OthersDistinct(cfg: Config, s: System, es: seq<Event>, topic: string, c: Connection,
                                          ring: seq<Message>)
    requires DistinctIds(ring + PublicationLog(cfg, s, es, topic))
    ensures DistinctIds(ring + OthersLog(cfg, s, es, topic, c))
    ensures forall m :: m in OthersLog(cfg, s, es, topic, c) ==> m in PublicationLog(cfg, s, es, topic)
  {
    hide Run, PublishedBy;
    if es == [] {
    } else {
      var init, e := es[..|es| - 1], es[|es| - 1];
      var all, others := PublicationLog(cfg, s, init, topic), OthersLog(cfg, s, init, topic, c);
      var new_ := PublishedBy(cfg, Run(cfg, s, init), e, topic);
      assert ring + (all + new_) == ring + all + new_;
      PrefixDistinct(ring + all, new_);
      OthersDistinct(cfg, s, init, topic, c, ring);
      assert ring + (others + []) == ring + others;
      DistinctWithFewer(ring, all, others, new_);
      assert ring + (others + new_) == ring + others + new_;
    }
  }

  lemma PrefixDistinct(msgs: seq<Message>, more: seq<Message>)
    requires DistinctIds(msgs + more)
    ensures DistinctIds(msgs)
  {
    assert forall i :: 0 <= i < |msgs| ==> (msgs + more)[i] == msgs[i];
  }

  lemma DistinctWithFewer(ring: seq<Message>, all: seq<Message>, some: seq<Message>, new_: seq<Message>)
    requires DistinctIds(ring + all + new_) && DistinctIds(ring + some)
    requires forall m :: m in some ==> m in all
    ensures DistinctIds(ring + some + new_)
  {
    var whole, part := ring + all + new_, ring + some + new_;
    forall i, j | 0 <= i < j < |part|
      ensures part[i].id != part[j].id
    {
      if j < |ring + some| {
        assert part[i] == (ring + some)[i] && part[j] == (ring + some)[j];
      } else {
        var l := j - |ring + some| + |ring + all|;
        assert part[j] == whole[l];
        if i < |ring| {
          assert part[i] == whole[i];
        } else if i < |ring + some| {
          assert part[i] in all;
          var k :| 0 <= k < |all| && all[k] == part[i];
          assert whole[|ring| + k] == part[i];
        } else {
          assert part[i] == whole[i - |ring + some| + |ring + all|];
        }
      }
    }
  }

  lemma DistinctSuffix(msgs: seq<Message>, more: seq<Message>, n: nat)
    requires DistinctIds(msgs + more)
    ensures DistinctIds(LastN(msgs, n) + more)
  {
    var cut := if |msgs| <= n then 0 else |msgs| - n;
    assert LastN(msgs, n) == msgs[cut..];
    hide LastN;
    assert msgs[cut..] + more == (msgs + more)[cut..];
    SuffixDistinct(msgs + more, cut);
  }

  lemma SuffixDistinct(msgs: seq<Message>, cut: nat)
    requires DistinctIds(msgs) && cut <= |msgs|
    ensures DistinctIds(msgs[cut..])
  {
  }

  /** When publications have distinct ids, nothing in the view of a span repeats. */
  lemma ViewWithoutRepeats(cfg: Config, s: System, es: seq<Event>, topic: string, c: Connection,
                           ring: seq<Message>, replay: nat)
    requires DistinctIds(ring + PublicationLog(cfg, s, es, topic))
    ensures DistinctIds(LastN(ring, replay) + OthersLog(cfg, s, es, topic, c))
  {
    OthersDistinct(cfg, s, es, topic, c, ring);
    DistinctSuffix(ring, OthersLog(cfg, s, es, topic, c), replay);
  }

  /** The only publications missing from it are the own ones: a connection that publishes nothing to
      the topic sees them all. */
  lemma {:induction false} ViewWithoutGaps(cfg: Config, s: System, es: seq<Event>, topic: string, c: Connection)
    requires forall i :: 0 <= i < |es| ==>
      !(es[i].Called? && es[i].c == c && es[i].req.ReqPublish? && es[i].req.topic == topic)
    ensures OthersLog(cfg, s, es, topic, c) == PublicationLog(cfg, s, es, topic)
  {
    hide Run, Handle;
    if es == [] {
    } else {
      ViewWithoutGaps(cfg, s, es[..|es| - 1], topic, c);
    }
  }
}
