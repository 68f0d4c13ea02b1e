/** Topics over whole runs: the ring holds the end of the publication log, and a subscriber sees
    its replay followed by every later publication of the others. */
module Topics {
  import opened Base
  import opened Messages
  import opened Addressing
  import opened Connections
  import opened Store
  import opened Routing
  import opened Daemon
  import opened Invariant
  import opened Queues

  // ---------------------------------------------------------------- what an outbox shows

  /** The messages with this destination that were enqueued, in order. */
  function Seen(frames: seq<Frame>, to: string): seq<Message> {
    if frames == [] then []
    else
      var last := frames[|frames| - 1];
      Seen(frames[..|frames| - 1], to) + if last.PeerMessage? && last.msg.to == to then [last.msg] else []
  }

  lemma {:induction false} SeenConcat(fs: seq<Frame>, gs: seq<Frame>, to: string)
    ensures Seen(fs + gs, to) == Seen(fs, to) + Seen(gs, to)
  {
    if gs == [] {
      assert fs + gs == fs;
    } else {
      var init := gs[..|gs| - 1];
      SeenConcat(fs, init, to);
      assert (fs + gs)[..|fs + gs| - 1] == fs + init;
    }
  }

  lemma {:induction false} SeenMessageFrames(msgs: seq<Message>, to: string)
    ensures (forall i :: 0 <= i < |msgs| ==> msgs[i].to == to) ==> Seen(MessageFrames(msgs), to) == msgs
    ensures (forall i :: 0 <= i < |msgs| ==> msgs[i].to != to) ==> Seen(MessageFrames(msgs), to) == []
  {
    if msgs == [] {
      assert MessageFrames(msgs) == [];
    } else {
      var init, last := msgs[..|msgs| - 1], msgs[|msgs| - 1];
      SeenMessageFrames(init, to);
      assert MessageFrames(msgs)[..|msgs| - 1] == MessageFrames(init);
      assert MessageFrames(msgs)[|msgs| - 1] == PeerMessage(last);
      assert init + [last] == msgs && forall i :: 0 <= i < |init| ==> init[i] == msgs[i];
    }
  }

  function View(h: Hub, c: Connection, topic: string): seq<Message> {
    Seen(h.At(c).outbox, TopicKey(topic))
  }

  // ---------------------------------------------------------------- queues hold what they are for

  ghost predicate Labelled(queues: map<string, seq<Message>>) {
    forall a, i :: a in queues && 0 <= i < |queues[a]| ==> queues[a][i].to == a
  }

  ghost predicate AllLabelled(h: Hub) {
    Labelled(h.dms) && Labelled(h.topics)
  }

  lemma EnqueueLabelled(queues: map<string, seq<Message>>, m: Message, max: nat)
    requires Labelled(queues)
    ensures Labelled(Enqueue(queues, m, max))
  {
    var all := QueueAt(queues, m.to) + [m];
    assert forall i :: 0 <= i < |all| ==> all[i].to == m.to;
  }

  /** The rings after a request, whatever else it does. */
  function RingsAfter(cfg: Config, h: Hub, c: Connection, req: Request): map<string, seq<Message>> {
    if Handle(cfg, h, c, req).1.Err? then h.topics
    else match req
      case ReqPublish(topic, body, id, ts) =>
        Enqueue(h.topics, Compose(h, c, TopicKey(topic), body, None, id, ts), cfg.topicMax)
      case ReqSubscribe(topic, replay) =>
        if replay == 0 then h.topics else h.topics[TopicKey(topic) := QueueAt(h.topics, TopicKey(topic))]
      case _ => h.topics
  }

  lemma HandleRings(cfg: Config, h: Hub, c: Connection, req: Request)
    ensures Handle(cfg, h, c, req).0.topics == RingsAfter(cfg, h, c, req)
  {
    if req.ReqHello? || req.ReqSetAlias? {
      JoinerRings(cfg, h, c, req);
    } else {
      OtherRings(cfg, h, c, req);
    }
  }

  lemma JoinerRings(cfg: Config, h: Hub, c: Connection, req: Request)
    requires req.ReqHello? || req.ReqSetAlias?
    ensures Handle(cfg, h, c, req).0.topics == h.topics
  {
    hide Drain, PostTo, Register, Rename, Hub.Others, WithHome, IsValidAlias, IsValidSid, IsNormalizedPath;
    if Handle(cfg, h, c, req).1.Ok? {
      if req.ReqHello? {
        var h1 := Register(h, c, req.sid, req.home);
        RegisterRings(h, c, req.sid, req.home);
        DrainRings(cfg, h1, c, HomeKey(req.home));
        DrainRings(cfg, Drain(cfg, h1, c, HomeKey(req.home)), c, DirectKey(req.home, req.sid));
      } else {
        var chosen := if req.alias == "" then None else Some(req.alias);
        RenameRings(h, c, chosen);
        DrainRings(cfg, Rename(h, c, chosen), c, DirectKey(h.At(c).HomeOrEmpty(), req.alias));
      }
    }
  }

  lemma DrainRings(cfg: Config, h: Hub, c: Connection, address: string)
    ensures Drain(cfg, h, c, address).topics == h.topics
  {
  }

  lemma RegisterRings(h: Hub, c: Connection, sid: string, home: string)
    ensures Register(h, c, sid, home).topics == h.topics
  {
  }

  lemma RenameRings(h: Hub, c: Connection, chosen: Option<string>)
    requires h.At(c).sid.Some?
    ensures Rename(h, c, chosen).topics == h.topics
  {
  }

  lemma OtherRings(cfg: Config, h: Hub, c: Connection, req: Request)
    requires !req.ReqHello? && !req.ReqSetAlias?
    ensures Handle(cfg, h, c, req).0.topics == RingsAfter(cfg, h, c, req)
  {
    hide Routed, Published, Followed, Unsubscribed, Enqueue, Compose, ParseAddress, ValidateTopic;
    match req {
      case ReqSend(dest, body, replyTo, id, ts) =>
        if Handle(cfg, h, c, req).1.Ok? {
          RoutedRings(cfg, h, c, ParseAddress(dest).value, Compose(h, c, dest, body, replyTo, id, ts));
        }
      case ReqPublish(topic, body, id, ts) =>
        PublishedRings(cfg, h, c, topic, Compose(h, c, TopicKey(topic), body, None, id, ts));
      case ReqSubscribe(topic, replay) =>
        if Handle(cfg, h, c, req).1.Ok? {
          FollowedRings(h, c, topic, replay);
        }
      case ReqUnsubscribe(topic) =>
        if Handle(cfg, h, c, req).1.Ok? {
          FollowedRings(h, c, topic, 0);
        }
      case _ =>
    }
  }

  lemma RoutedRings(cfg: Config, h: Hub, c: Connection, addr: Address, m: Message)
    requires addr.Home?
    ensures Routed(cfg, h, c, addr, m).0.topics == h.topics
  {
  }

  lemma PublishedRings(cfg: Config, h: Hub, c: Connection, topic: string, m: Message)
    ensures Published(cfg, h, c, topic, m).0.topics == Enqueue(h.topics, m, cfg.topicMax)
  {
  }

  lemma FollowedRings(h: Hub, c: Connection, topic: string, replay: nat)
    requires h.At(c).sid.Some?
    ensures Followed(h, c, topic, replay).topics
      == if replay == 0 then h.topics else h.topics[TopicKey(topic) := QueueAt(h.topics, TopicKey(topic))]
    ensures Unsubscribed(h, c, topic).topics == h.topics
  {
  }

  lemma HandleLabelled(cfg: Config, h: Hub, c: Connection, req: Request)
    requires AllLabelled(h)
    ensures AllLabelled(Handle(cfg, h, c, req).0)
  {
    hide Handle;
    HandleRings(cfg, h, c, req);
    if req.ReqPublish? {
      EnqueueLabelled(h.topics, Compose(h, c, TopicKey(req.topic), req.body, None, req.id, req.ts), cfg.topicMax);
    }
    HandleQueuesLabelled(cfg, h, c, req);
  }

  lemma HandleQueuesLabelled(cfg: Config, h: Hub, c: Connection, req: Request)
    requires Labelled(h.dms)
    ensures Labelled(Handle(cfg, h, c, req).0.dms)
  {
    if req.ReqHello? || req.ReqSetAlias? {
      JoinerLabelled(cfg, h, c, req);
    } else {
      if req.ReqSend? {
        EnqueueLabelled(h.dms, Compose(h, c, req.dest, req.body, req.replyTo, req.id, req.ts), cfg.dmMax);
      }
      hide PostTo, MessageFrames, Enroll, Expel, Enqueue, Receivers, Resolve, Labelled;
      hide ParseAddress, ValidateTopic, Hub.Watchers;
    }
  }

  lemma JoinerLabelled(cfg: Config, h: Hub, c: Connection, req: Request)
    requires Labelled(h.dms) && (req.ReqHello? || req.ReqSetAlias?)
    ensures Labelled(Handle(cfg, h, c, req).0.dms)
  {
    hide Hello, Adopted, WithHome, IsValidAlias, IsValidSid, IsNormalizedPath;
    var g := Handle(cfg, h, c, req).0;
    forall a
      ensures |QueueAt(g.dms, a)| == 0 || QueueAt(g.dms, a) == QueueAt(h.dms, a)
    {
      if Handle(cfg, h, c, req).1.Err? {
        RejectedIsNoOp(cfg, h, c, req);
      } else if req.ReqHello? {
        HelloQueue(cfg, h, c, req.sid, req.home, req.ts, a);
      } else {
        AdoptedQueue(cfg, h, c, if req.alias == "" then None else Some(req.alias), req.ts, a);
      }
    }
    forall a, i | a in g.dms && 0 <= i < |g.dms[a]|
      ensures g.dms[a][i].to == a
    {
      assert QueueAt(g.dms, a) == QueueAt(h.dms, a);
    }
  }

  lemma StepLabelled(cfg: Config, s: System, e: Event)
    requires AllLabelled(s.hub)
    ensures AllLabelled(Step(cfg, s, e).hub)
  {
    hide Handle, Goodbye;
    match e {
      case Called(c, requestId, req) => HandleLabelled(cfg, s.hub, c, req);
      case HungUp(c, ts) => GoodbyeQueue(s.hub, c, ts);
      case _ =>
    }
  }

  /** In every state that a run reaches from such a state, every queue and ring holds only messages
      addressed to it. */
  lemma {:induction false} RunLabelled(cfg: Config, s: System, es: seq<Event>)
    requires AllLabelled(s.hub)
    ensures AllLabelled(Run(cfg, s, es).hub)
  {
    hide AllLabelled, Step;
    if es == [] {
    } else {
      RunLabelled(cfg, s, es[..|es| - 1]);
      StepLabelled(cfg, Run(cfg, s, es[..|es| - 1]), es[|es| - 1]);
    }
  }

  // ---------------------------------------------------------------- the publication log

  /** The message that a request publishes to a topic. */
  function Publication(cfg: Config, h: Hub, c: Connection, req: Request, topic: string): seq<Message> {
    if req.ReqPublish? && req.topic == topic && Handle(cfg, h, c, req).1.Ok?
    then [Compose(h, c, TopicKey(topic), req.body, None, req.id, req.ts)] else []
  }

  function PublishedBy(cfg: Config, s: System, e: Event, topic: string): seq<Message> {
    if e.Called? && e.c in s.open then Publication(cfg, s.hub, e.c, e.req, topic) else []
  }

  function PublicationLog(cfg: Config, s: System, es: seq<Event>, topic: string): seq<Message> {
    if es == [] then []
    else
      var init := es[..|es| - 1];
      PublicationLog(cfg, s, init, topic) + PublishedBy(cfg, Run(cfg, s, init), es[|es| - 1], topic)
  }

  /** The publications of everybody but one connection. */
  function OthersLog(cfg: Config, s: System, es: seq<Event>, topic: string, c: Connection): seq<Message> {
    if es == [] then []
    else
      var (init, e) := (es[..|es| - 1], es[|es| - 1]);
      OthersLog(cfg, s, init, topic, c)
        + if e.Called? && e.c == c then [] else PublishedBy(cfg, Run(cfg, s, init), e, topic)
  }

  ghost predicate RingBounded(cfg: Config, h: Hub) {
    forall a :: a in h.topics ==> |h.topics[a]| <= cfg.topicMax
  }

  lemma TopicKeyInjective(t: string, u: string)
    ensures TopicKey(t) == TopicKey(u) ==> t == u
  {
    assert TopicKey(t)[6..] == t && TopicKey(u)[6..] == u;
  }

  lemma HandleRing(cfg: Config, h: Hub, c: Connection, req: Request, topic: string)
    requires RingBounded(cfg, h)
    ensures QueueAt(Handle(cfg, h, c, req).0.topics, TopicKey(topic))
      == LastN(QueueAt(h.topics, TopicKey(topic)) + Publication(cfg, h, c, req, topic), cfg.topicMax)
    ensures RingBounded(cfg, Handle(cfg, h, c, req).0)
  {
    hide Handle;
    var key := TopicKey(topic);
    assert QueueAt(h.topics, key) + [] == QueueAt(h.topics, key);
    HandleRings(cfg, h, c, req);
    if req.ReqPublish? {
      TopicKeyInjective(topic, req.topic);
    }
  }

  lemma StepRing(cfg: Config, s: System, e: Event, topic: string)
    requires RingBounded(cfg, s.hub)
    ensures QueueAt(Step(cfg, s, e).hub.topics, TopicKey(topic))
      == LastN(QueueAt(s.hub.topics, TopicKey(topic)) + PublishedBy(cfg, s, e, topic), cfg.topicMax)
    ensures RingBounded(cfg, Step(cfg, s, e).hub)
  {
    hide Handle, Publication, Goodbye;
    assert QueueAt(s.hub.topics, TopicKey(topic)) + [] == QueueAt(s.hub.topics, TopicKey(topic));
    match e {
      case Called(c, requestId, req) => HandleRing(cfg, s.hub, c, req, topic);
      case HungUp(c, ts) => GoodbyeQueue(s.hub, c, ts);
      case _ =>
    }
  }

  /** The ring of a topic is always the last topicMax of everything ever published to it, across
      disconnects and restarts. */
  lemma {:induction false} RingWindow(cfg: Config, s: System, es: seq<Event>, topic: string)
    requires RingBounded(cfg, s.hub)
    ensures QueueAt(Run(cfg, s, es).hub.topics, TopicKey(topic))
      == LastN(QueueAt(s.hub.topics, TopicKey(topic)) + PublicationLog(cfg, s, es, topic), cfg.topicMax)
    ensures RingBounded(cfg, Run(cfg, s, es).hub)
  {
    var ring := QueueAt(s.hub.topics, TopicKey(topic));
    if es == [] {
      assert ring + [] == ring;
    } else {
      var init := es[..|es| - 1];
      RingWindow(cfg, s, init, topic);
      var t, log := Run(cfg, s, init), PublicationLog(cfg, s, init, topic);
      StepRing(cfg, t, es[|es| - 1], topic);
      var new_ := PublishedBy(cfg, t, es[|es| - 1], topic);
      LastNAbsorbs(ring + log, new_, cfg.topicMax);
      assert ring + log + new_ == ring + (log + new_);
    }
  }
}
