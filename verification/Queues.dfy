/** Offline queues over whole runs: the window law, and what a session gets when it claims an
    alias. */
module Queues {
  import opened Base
  import opened Messages
  import opened Addressing
  import opened Connections
  import opened Store
  import opened Routing
  import opened Registry
  import opened Daemon
  import opened Invariant
  import opened Reach

  /** The message that a request adds to the queue of an address: one accepted for it that found
      no receiver. */
  function Added(cfg: Config, h: Hub, c: Connection, req: Request, key: string): seq<Message> {
    if req.ReqSend? && req.dest == key && Handle(cfg, h, c, req).1.Ok? then
      var m := Compose(h, c, req.dest, req.body, req.replyTo, req.id, req.ts);
      if Receivers(cfg, h, c, ParseAddress(key).value, m) == {} then [m] else []
    else []
  }

  ghost predicate Bounded(cfg: Config, h: Hub) {
    forall a :: a in h.dms ==> |h.dms[a]| <= cfg.dmMax
  }

  lemma DrainQueue(cfg: Config, h: Hub, c: Connection, address: string, key: string)
    ensures QueueAt(Drain(cfg, h, c, address).dms, key) == if key == address then [] else QueueAt(h.dms, key)
  {
  }

  lemma AdoptedQueue(cfg: Config, h: Hub, c: Connection, chosen: Option<string>, ts: real, key: string)
    requires h.At(c).sid.Some?
    ensures QueueAt(Adopted(cfg, h, c, chosen, ts).dms, key)
      == if chosen.Some? && chosen != h.At(c).alias && key == DirectKey(h.At(c).HomeOrEmpty(), chosen.value)
         then [] else QueueAt(h.dms, key)
  {
    if chosen.Some? {
      DrainQueue(cfg, Rename(h, c, chosen), c, DirectKey(h.At(c).HomeOrEmpty(), chosen.value), key);
    }
  }

  lemma HelloQueue(cfg: Config, h: Hub, c: Connection, sid: string, home: string, ts: real, key: string)
    requires Hello(cfg, h, c, sid, home, ts).1.Ok?
    ensures QueueAt(Hello(cfg, h, c, sid, home, ts).0.dms, key)
      == if key == HomeKey(home) || key == DirectKey(home, sid) then [] else QueueAt(h.dms, key)
  {
    var h1 := Register(h, c, sid, home);
    DrainQueue(cfg, h1, c, HomeKey(home), key);
    DrainQueue(cfg, Drain(cfg, h1, c, HomeKey(home)), c, DirectKey(home, sid), key);
  }

  lemma RoutedQueue(cfg: Config, h: Hub, c: Connection, addr: Address, m: Message, key: string)
    requires addr.Home?
    ensures QueueAt(Routed(cfg, h, c, addr, m).0.dms, key)
      == if Receivers(cfg, h, c, addr, m) == {} && key == m.to then Push(QueueAt(h.dms, key), m, cfg.dmMax)
         else QueueAt(h.dms, key)
  {
  }

  /** What one request does to one queue. */
  lemma HandleQueue(cfg: Config, h: Hub, c: Connection, req: Request, key: string)
    requires Bounded(cfg, h)
    ensures QueueAt(Handle(cfg, h, c, req).0.dms, key)
      == if key in DrainedKeys(cfg, h, c, req) then []
         else LastN(QueueAt(h.dms, key) + Added(cfg, h, c, req, key), cfg.dmMax)
    ensures Bounded(cfg, Handle(cfg, h, c, req).0)
  {
    QueueEffect(cfg, h, c, req, key);
    var g := Handle(cfg, h, c, req).0;
    forall a | a in g.dms
      ensures |g.dms[a]| <= cfg.dmMax
    {
      QueueEffect(cfg, h, c, req, a);
      assert |QueueAt(h.dms, a)| <= cfg.dmMax;
    }
  }

  lemma QueueEffect(cfg: Config, h: Hub, c: Connection, req: Request, key: string)
    requires |QueueAt(h.dms, key)| <= cfg.dmMax
    ensures QueueAt(Handle(cfg, h, c, req).0.dms, key)
      == if key in DrainedKeys(cfg, h, c, req) then []
         else LastN(QueueAt(h.dms, key) + Added(cfg, h, c, req, key), cfg.dmMax)
  {
    hide Hello, Adopted, Routed, Published, Drain, Receivers, IsValidSid, IsNormalizedPath, IsValidAlias;
    hide ValidateTopic, Followed, Subscribed, Unsubscribed;
    assert QueueAt(h.dms, key) + [] == QueueAt(h.dms, key);
    if Handle(cfg, h, c, req).1.Err? {
      RejectedIsNoOp(cfg, h, c, req);
    } else {
      match req {
        case ReqHello(sid, home, ts) => HelloQueue(cfg, h, c, sid, home, ts, key);
        case ReqSetAlias(alias, ts) => AdoptedQueue(cfg, h, c, if alias == "" then None else Some(alias), ts, key);
        case ReqSend(dest, body, replyTo, id, ts) =>
          RoutedQueue(cfg, h, c, ParseAddress(dest).value, Compose(h, c, dest, body, replyTo, id, ts), key);
        case ReqPublish(topic, body, id, ts) =>
          PublishedQueue(cfg, h, c, topic, Compose(h, c, TopicKey(topic), body, None, id, ts));
        case ReqSubscribe(topic, replay) => FollowedQueue(h, c, topic, replay);
        case ReqUnsubscribe(topic) => FollowedQueue(h, c, topic, 0);
        case _ =>
      }
    }
  }

  lemma PublishedQueue(cfg: Config, h: Hub, c: Connection, topic: string, m: Message)
    ensures Published(cfg, h, c, topic, m).0.dms == h.dms
  {
  }

  lemma FollowedQueue(h: Hub, c: Connection, topic: string, replay: nat)
    requires h.At(c).sid.Some?
    ensures Followed(h, c, topic, replay).dms == h.dms == Unsubscribed(h, c, topic).dms
  {
    hide MessageFrames, Enroll, Expel, LastN, QueueAt;
  }

  // ---------------------------------------------------------------- events and runs

  predicate DrainsKey(cfg: Config, s: System, e: Event, key: string) {
    e.Called? && e.c in s.open && key in DrainedKeys(cfg, s.hub, e.c, e.req)
  }

  function AddedBy(cfg: Config, s: System, e: Event, key: string): seq<Message> {
    if e.Called? && e.c in s.open then Added(cfg, s.hub, e.c, e.req, key) else []
  }

  /** No event of the run drains the queue. */
  predicate Undrained(cfg: Config, s: System, es: seq<Event>, key: string) {
    forall i :: 0 <= i < |es| ==> !DrainsKey(cfg, Run(cfg, s, es[..i]), es[i], key)
  }

  /** Everything that a run adds to the queue, in order. */
  function AddedLog(cfg: Config, s: System, es: seq<Event>, key: string): seq<Message> {
    if es == [] then []
    else
      var init := es[..|es| - 1];
      AddedLog(cfg, s, init, key) + AddedBy(cfg, Run(cfg, s, init), es[|es| - 1], key)
  }

  lemma GoodbyeQueue(h: Hub, c: Connection, ts: real)
    ensures Close(Goodbye(h, c, ts), c).dms == h.dms && Close(Goodbye(h, c, ts), c).topics == h.topics
  {
  }

  lemma StepQueue(cfg: Config, s: System, e: Event, key: string)
    requires Bounded(cfg, s.hub)
    ensures QueueAt(Step(cfg, s, e).hub.dms, key)
      == if DrainsKey(cfg, s, e, key) then []
         else LastN(QueueAt(s.hub.dms, key) + AddedBy(cfg, s, e, key), cfg.dmMax)
    ensures Bounded(cfg, Step(cfg, s, e).hub)
  {
    hide Handle, DrainedKeys, Added, Goodbye;
    assert QueueAt(s.hub.dms, key) + [] == QueueAt(s.hub.dms, key);
    match e {
      case Called(c, requestId, req) => HandleQueue(cfg, s.hub, c, req, key);
      case HungUp(c, ts) => GoodbyeQueue(s.hub, c, ts);
      case _ =>
    }
  }

  /** The window law. As long as nobody drains it, a queue holds the last dmMax of the messages
      that it held at the start or that were added since, in order: across disconnects, rejected
      requests, shutdowns and restarts. */
  lemma {:induction false} QueueWindow(cfg: Config, s: System, es: seq<Event>, key: string)
    requires Bounded(cfg, s.hub) && Undrained(cfg, s, es, key)
    ensures QueueAt(Run(cfg, s, es).hub.dms, key)
      == LastN(QueueAt(s.hub.dms, key) + AddedLog(cfg, s, es, key), cfg.dmMax)
    ensures Bounded(cfg, Run(cfg, s, es).hub)
  {
    hide QueueAt, LastN, DrainsKey, AddedBy, Step;
    var q := QueueAt(s.hub.dms, key);
    if es == [] {
      WholeQueue(cfg, s.hub, key);
    } else {
      var init, last := es[..|es| - 1], es[|es| - 1];
      assert forall i :: 0 <= i < |init| ==> init[..i] == es[..i];
      QueueWindow(cfg, s, init, key);
      var t, log := Run(cfg, s, init), AddedLog(cfg, s, init, key);
      StepQueue(cfg, t, last, key);
      assert !DrainsKey(cfg, t, last, key);
      var new_ := AddedBy(cfg, t, last, key);
      LastNAbsorbs(q + log, new_, cfg.dmMax);
      Associative(q, log, new_);
    }
  }

  lemma WholeQueue(cfg: Config, h: Hub, key: string)
    requires Bounded(cfg, h)
    ensures LastN(QueueAt(h.dms, key) + [], cfg.dmMax) == QueueAt(h.dms, key)
  {
    assert QueueAt(h.dms, key) + [] == QueueAt(h.dms, key);
  }

  // ---------------------------------------------------------------- alias handover

  /** An accepted claim of another alias, on a connection whose outbox is open: the messages
      queued for the alias that pass the filter come first and in order, then the notification
      of the change, then the response; nothing else. The queue is then empty. */
  lemma ClaimDelivers(cfg: Config, h: Hub, c: Connection, alias: string, ts: real, rid: RequestId)
    requires Indexed(h) && Consistent(h, c) && h.At(c).sid.Some? && !h.At(c).closed
    requires SetAlias(cfg, h, c, alias, ts).1.Ok? && alias != "" && Some(alias) != h.At(c).alias
    ensures var (k, g) := (h.At(c), Dispatch(cfg, h, c, Some(rid), ReqSetAlias(alias, ts)));
      var key := DirectKey(k.HomeOrEmpty(), alias);
      && g.At(c).outbox == k.outbox + MessageFrames(cfg.Accepted(k, QueueAt(h.dms, key)))
           + [AliasChanged(k.HomeOrEmpty(), k.sid.value, Some(alias), k.alias, ts)]
           + [Response(rid, AliasReply(Some(alias)))]
      && QueueAt(g.dms, key) == []
  {
    var k, key := h.At(c), DirectKey(h.At(c).HomeOrEmpty(), alias);
    var h1 := Rename(h, c, Some(alias));
    var h2 := Drain(cfg, h1, c, key);
    DrainDelivers(cfg, h1, c, key);
    AcceptsByFilter(cfg, k, h1.At(c), QueueAt(h.dms, key));
    assert h.connections[k.sid.value] == c && h2.connections == h.connections;
    assert c in h2.Others(None);
    AdoptedQueue(cfg, h, c, Some(alias), ts, key);
  }

  lemma DrainDelivers(cfg: Config, h: Hub, c: Connection, address: string)
    requires c in h.conns && !h.At(c).closed
    ensures Drain(cfg, h, c, address).At(c)
      == h.At(c).(outbox := h.At(c).outbox + MessageFrames(cfg.Accepted(h.At(c), QueueAt(h.dms, address))))
  {
    if QueueAt(h.dms, address) == [] {
      assert h.At(c).outbox + MessageFrames([]) == h.At(c).outbox;
    }
  }

  /** Only the filter of a connection decides what it accepts. */
  lemma {:induction false} AcceptsByFilter(cfg: Config, k: Conn, j: Conn, msgs: seq<Message>)
    requires k.dmFilter == j.dmFilter
    ensures cfg.Accepted(k, msgs) == cfg.Accepted(j, msgs)
  {
    if msgs == [] {
    } else {
      AcceptsByFilter(cfg, k, j, msgs[1..]);
    }
  }

  /** Whatever happened between, the next session to claim an alias gets the last dmMax messages
      queued for it since the queue was last empty, and gets them before the notification of the
      claim and its response. */
  lemma AliasHandover(cfg: Config, s: System, es: seq<Event>, c: Connection, alias: string, ts: real, rid: RequestId)
    requires Well(s) && Bounded(cfg, s.hub)
    requires var t := Run(cfg, s, es);
      && c in t.open && t.hub.At(c).sid.Some? && !t.hub.At(c).closed
      && SetAlias(cfg, t.hub, c, alias, ts).1.Ok? && alias != "" && Some(alias) != t.hub.At(c).alias
      && Undrained(cfg, s, es, DirectKey(t.hub.At(c).HomeOrEmpty(), alias))
    ensures var (t, u) := (Run(cfg, s, es), Run(cfg, s, es + [Called(c, Some(rid), ReqSetAlias(alias, ts))]));
      var (k, key) := (t.hub.At(c), DirectKey(t.hub.At(c).HomeOrEmpty(), alias));
      var waiting := LastN(QueueAt(s.hub.dms, key) + AddedLog(cfg, s, es, key), cfg.dmMax);
      && u.hub.At(c).outbox == k.outbox + MessageFrames(cfg.Accepted(k, waiting))
           + [AliasChanged(k.HomeOrEmpty(), k.sid.value, Some(alias), k.alias, ts)]
           + [Response(rid, AliasReply(Some(alias)))]
      && QueueAt(u.hub.dms, key) == []
  {
    hide SetAlias, Dispatch, Undrained;
    var t := Run(cfg, s, es);
    var key := DirectKey(t.hub.At(c).HomeOrEmpty(), alias);
    var e := Called(c, Some(rid), ReqSetAlias(alias, ts));
    QueueWindow(cfg, s, es, key);
    RunWell(cfg, s, es);
    ClaimDelivers(cfg, t.hub, c, alias, ts, rid);
    assert (es + [e])[..|es|] == es;
  }

  // ---------------------------------------------------------------- who can drain an alias queue

  lemma DirectKeyRest(home: string, disc: string)
    ensures DirectKey(home, disc)[5..] == home + "#" + disc
  {
  }

  /** Without a `#` in the last part, the last `#` tells where it begins. */
  lemma SplitAtLast(home: string, d: string, h: string, e: string)
    requires home + "#" + d == h + "#" + e && '#' !in d && '#' !in e
    ensures h == home && d == e
  {
    var s := home + "#" + d;
    assert s[|h|] == '#' && s[|home|] == '#';
    assert forall i :: |home| < i < |s| ==> s[i] == d[i - |home| - 1];
    assert forall i :: |h| < i < |s| ==> s[i] == e[i - |h| - 1];
    assert |h| == |home|;
    assert s[..|h|] == h && s[..|home|] == home && s[|h| + 1..] == e && s[|home| + 1..] == d;
  }

  /** Neither aliases nor session ids contain a `#`. */
  lemma DiscriminatorIsHashless(d: string)
    requires IsValidDiscriminator(d)
    ensures '#' !in d
  {
    var core := DropNewline(d);
    assert IsValidSid(d) ==> forall i :: 0 <= i < 5 ==> core[i] == SID_PREFIX[i];
    assert forall i :: 0 <= i < |core| ==> core[i] != '#';
    assert forall i :: 0 <= i < |d| ==> d[i] == (if i < |core| then core[i] else '\n');
  }

  /** Different sessions, homes and aliases have different direct keys. */
  lemma DirectKeysIff(home: string, d: string, h: string, e: string)
    requires IsValidDiscriminator(d) && IsValidDiscriminator(e)
    ensures DirectKey(home, d) == DirectKey(h, e) <==> home == h && d == e
  {
    DirectKeyRest(home, d);
    DirectKeyRest(h, e);
    DiscriminatorIsHashless(d);
    DiscriminatorIsHashless(e);
    hide IsValidDiscriminator, DirectKey;
    if DirectKey(home, d) == DirectKey(h, e) {
      SplitAtLast(home, d, h, e);
    }
  }

  lemma HomeKeyIff(from: string, home: string, d: string)
    ensures HomeKey(from) == DirectKey(home, d) <==> from == home + "#" + d
    ensures HomeKey(from) == HomeKey(home) <==> from == home
  {
    DirectKeyRest(home, d);
    assert HomeKey(from)[5..] == from && HomeKey(home)[5..] == home;
    assert DirectKey(home, d) == "home:" + (home + "#" + d);
  }

  /** A changed claim of the alias by a session in its home. */
  predicate Claims(h: Hub, c: Connection, req: Request, home: string, alias: string) {
    req.ReqSetAlias? && req.alias == alias && Some(alias) != h.At(c).alias && h.At(c).home == Some(home)
  }

  /** A hello from the one home whose broadcast address reads like the address of the alias. */
  predicate Impersonates(req: Request, home: string, alias: string) {
    req.ReqHello? && req.home == home + "#" + alias
  }

  /** An accepted request drains the queue of an alias iff it is a changed claim of that alias in its
      home, or a hello from the one home whose broadcast address reads like it. */
  lemma AliasQueueDrainedIff(cfg: Config, h: Hub, c: Connection, req: Request, home: string, alias: string)
    requires IsValidAlias(alias) && Handle(cfg, h, c, req).1.Ok?
    requires h.At(c).sid.Some? ==> h.At(c).home.Some?
    ensures DirectKey(home, alias) in DrainedKeys(cfg, h, c, req)
       <==> Claims(h, c, req, home, alias) || Impersonates(req, home, alias)
  {
    AcceptedTokens(cfg, h, c, req);
    hide Handle, IsValidAlias, IsValidSid, DirectKey, HomeKey;
    if req.ReqHello? {
      HomeKeyIff(req.home, home, alias);
      DirectKeysIff(home, alias, req.home, req.sid);
      SidAliasDisjoint(alias);
    } else if req.ReqSetAlias? && req.alias != "" {
      DirectKeysIff(home, alias, h.At(c).HomeOrEmpty(), req.alias);
    }
  }

  /** An accepted hello carries a session id, an accepted claim an alias, on a known session. */
  lemma AcceptedTokens(cfg: Config, h: Hub, c: Connection, req: Request)
    requires Handle(cfg, h, c, req).1.Ok?
    ensures req.ReqHello? ==> IsValidSid(req.sid)
    ensures req.ReqSetAlias? ==> h.At(c).sid.Some? && (req.alias != "" ==> IsValidAlias(req.alias))
  {
    hide Adopted, WithHome, IsValidAlias, IsValidSid, IsNormalizedPath;
  }

  /** An accepted request drains the queue of a session id in a home iff it is the hello of that
      session id in that home, or a hello from the one home whose broadcast address reads like it. */
  lemma SidQueueDrainedIff(cfg: Config, h: Hub, c: Connection, req: Request, home: string, sid: string)
    requires IsValidSid(sid) && Handle(cfg, h, c, req).1.Ok?
    ensures DirectKey(home, sid) in DrainedKeys(cfg, h, c, req)
       <==> (req.ReqHello? && req.home == home && req.sid == sid) || Impersonates(req, home, sid)
  {
    AcceptedTokens(cfg, h, c, req);
    hide Handle, IsValidAlias, IsValidSid, DirectKey, HomeKey;
    if req.ReqHello? {
      HomeKeyIff(req.home, home, sid);
      DirectKeysIff(home, sid, req.home, req.sid);
    } else if req.ReqSetAlias? && req.alias != "" {
      DirectKeysIff(home, sid, h.At(c).HomeOrEmpty(), req.alias);
      SidAliasDisjoint(sid);
    }
  }

  /** The request drains a queue whose direct address reads like the broadcast address of the home. */
  predicate ReadsLikeHome(h: Hub, c: Connection, req: Request, home: string) {
    || (req.ReqHello? && home == req.home + "#" + req.sid)
    || (req.ReqSetAlias? && req.alias != "" && Some(req.alias) != h.At(c).alias
        && home == h.At(c).HomeOrEmpty() + "#" + req.alias)
  }

  /** An accepted request drains the queue of a home iff it is a hello from that home, or, when the
      home contains a `#`, it drains the direct address that reads like it. */
  lemma HomeQueueDrainedIff(cfg: Config, h: Hub, c: Connection, req: Request, home: string)
    requires Handle(cfg, h, c, req).1.Ok?
    ensures HomeKey(home) in DrainedKeys(cfg, h, c, req)
       <==> (req.ReqHello? && req.home == home) || ReadsLikeHome(h, c, req, home)
    ensures '#' !in home ==> !ReadsLikeHome(h, c, req, home)
  {
    hide Handle, DirectKey, HomeKey;
    if req.ReqHello? {
      HomeKeyIff(home, req.home, req.sid);
      HomeKeyIff(req.home, home, "");
      assert (req.home + "#" + req.sid)[|req.home|] == '#';
    } else if req.ReqSetAlias? {
      HomeKeyIff(home, h.At(c).HomeOrEmpty(), req.alias);
      assert (h.At(c).HomeOrEmpty() + "#" + req.alias)[|h.At(c).HomeOrEmpty()|] == '#';
    }
  }

  /** So not only claims drain alias queues: a session at home `/a#b` drains, on hello, the queue of
      alias `b` in `/a`. */
  lemma HashHomeDrainsAlias(cfg: Config, h: Hub, c: Connection, sid: string, ts: real)
    requires h.At(c).sid.None? && IsValidSid(sid) && sid !in h.connections
    ensures DirectKey("/a", "b") in DrainedKeys(cfg, h, c, ReqHello(sid, "/a#b", ts))
  {
    hide IsValidSid, IsNormalizedPath, Drain, Register, PostTo, HomeKey, DirectKey, ParseAddress;
    HashInHomeMisparses();
    KeysCollide();
  }

  lemma KeysCollide()
    ensures HomeKey("/a#b") == DirectKey("/a", "b")
  {
    assert "home:" + "/a" + "#" + "b" == "home:" + "/a#b";
  }

  /** Known sessions have a home. */
  lemma KnownHome(s: System, c: Connection)
    requires Well(s) && c in s.open
    ensures s.hub.At(c).sid.Some? ==> s.hub.At(c).home.Some?
  {
    SelfSettled(s.hub, c, s.open);
  }

  /** The event is an accepted claim of the alias in its home, or an accepted hello from the home that
      reads like the alias. */
  predicate Takes(cfg: Config, s: System, e: Event, home: string, alias: string) {
    && e.Called? && e.c in s.open && Handle(cfg, s.hub, e.c, e.req).1.Ok?
    && (Claims(s.hub, e.c, e.req, home, alias) || Impersonates(e.req, home, alias))
  }

  lemma DrainedByTakerIff(cfg: Config, s: System, e: Event, home: string, alias: string)
    requires Well(s) && IsValidAlias(alias)
    ensures DrainsKey(cfg, s, e, DirectKey(home, alias)) <==> Takes(cfg, s, e, home, alias)
  {
    if e.Called? && e.c in s.open {
      KnownHome(s, e.c);
      if Handle(cfg, s.hub, e.c, e.req).1.Ok? {
        AliasQueueDrainedIff(cfg, s.hub, e.c, e.req, home, alias);
      }
    }
    hide Well, Handle, IsValidAlias, DirectKey, Claims, Impersonates;
  }

  /** Over a run, the queue of an alias stays undrained iff no event takes it. */
  lemma UndrainedIff(cfg: Config, s: System, es: seq<Event>, home: string, alias: string)
    requires Well(s) && IsValidAlias(alias)
    ensures Undrained(cfg, s, es, DirectKey(home, alias))
       <==> forall i :: 0 <= i < |es| ==> !Takes(cfg, Run(cfg, s, es[..i]), es[i], home, alias)
  {
    forall i | 0 <= i < |es|
      ensures DrainsKey(cfg, Run(cfg, s, es[..i]), es[i], DirectKey(home, alias))
         <==> Takes(cfg, Run(cfg, s, es[..i]), es[i], home, alias)
    {
      RunWell(cfg, s, es[..i]);
      DrainedByTakerIff(cfg, Run(cfg, s, es[..i]), es[i], home, alias);
    }
    hide DrainsKey, Takes, Run, Well;
  }

  /** The event neither asks for the alias nor says hello from the home that reads like it. */
  predicate LeavesAlone(e: Event, home: string, alias: string) {
    e.Called? ==> !(e.req.ReqSetAlias? && e.req.alias == alias) && !Impersonates(e.req, home, alias)
  }

  /** The queue of an alias survives every run in which nobody asks for the alias and nobody comes
      from the home that reads like it: disconnects, restarts, other aliases and other sessions of
      the home included. */
  lemma SurvivesOthers(cfg: Config, s: System, es: seq<Event>, home: string, alias: string)
    requires Well(s) && IsValidAlias(alias)
    requires forall i :: 0 <= i < |es| ==> LeavesAlone(es[i], home, alias)
    ensures Undrained(cfg, s, es, DirectKey(home, alias))
  {
    UndrainedIff(cfg, s, es, home, alias);
    hide Undrained, Handle, Run, Well;
  }

  /** So whoever claims an alias next gets all that was ever queued for it within the bound, after
      any run in which nobody else asked for it, and before the notification and the response. */
  lemma HandedToNextClaim(cfg: Config, s: System, es: seq<Event>, c: Connection, home: string, alias: string, ts: real,
                          rid: RequestId)
    requires Well(s) && Bounded(cfg, s.hub)
    requires forall i :: 0 <= i < |es| ==> LeavesAlone(es[i], home, alias)
    requires var t := Run(cfg, s, es);
      && c in t.open && t.hub.At(c).sid.Some? && t.hub.At(c).home == Some(home) && !t.hub.At(c).closed
      && SetAlias(cfg, t.hub, c, alias, ts).1.Ok? && alias != "" && Some(alias) != t.hub.At(c).alias
    ensures var (t, u) := (Run(cfg, s, es), Run(cfg, s, es + [Called(c, Some(rid), ReqSetAlias(alias, ts))]));
      var (k, key) := (t.hub.At(c), DirectKey(home, alias));
      var waiting := LastN(QueueAt(s.hub.dms, key) + AddedLog(cfg, s, es, key), cfg.dmMax);
      && u.hub.At(c).outbox == k.outbox + MessageFrames(cfg.Accepted(k, waiting))
           + [AliasChanged(home, k.sid.value, Some(alias), k.alias, ts)]
           + [Response(rid, AliasReply(Some(alias)))]
      && QueueAt(u.hub.dms, key) == []
  {
    assert IsValidAlias(alias);
    hide SetAlias, Undrained, Run, AddedLog, LeavesAlone, IsValidAlias;
    SurvivesOthers(cfg, s, es, home, alias);
    AliasHandover(cfg, s, es, c, alias, ts, rid);
  }

  // ---------------------------------------------------------------- the queues of a newcomer

  /** The home ends like the direct address of the session id or alias. */
  predicate EndsLike(home: string, token: string) {
    |token| < |home| && home[|home| - |token| - 1..] == "#" + token
  }

  /** The event is no hello from the home, nor from the one that reads like the session id in it; and if
      the home itself ends in `#` and a name, nobody takes that name. */
  predicate LeavesNewcomer(e: Event, home: string, sid: string) {
    && (e.Called? && e.req.ReqHello? ==>
          e.req.home != home && !Impersonates(e.req, home, sid) && !EndsLike(home, e.req.sid))
    && (e.Called? && e.req.ReqSetAlias? ==> !EndsLike(home, e.req.alias))
  }

  /** The queues of a home and of a session id in it survive every run without a hello from the home. */
  lemma NewcomerQueuesSurvive(cfg: Config, s: System, es: seq<Event>, home: string, sid: string)
    requires IsValidSid(sid)
    requires forall i :: 0 <= i < |es| ==> LeavesNewcomer(es[i], home, sid)
    ensures Undrained(cfg, s, es, HomeKey(home)) && Undrained(cfg, s, es, DirectKey(home, sid))
  {
    forall i | 0 <= i < |es|
      ensures !DrainsKey(cfg, Run(cfg, s, es[..i]), es[i], HomeKey(home))
      ensures !DrainsKey(cfg, Run(cfg, s, es[..i]), es[i], DirectKey(home, sid))
    {
      NewcomerKept(cfg, Run(cfg, s, es[..i]), es[i], home, sid);
    }
    hide DrainsKey, LeavesNewcomer, Run;
  }

  lemma NewcomerKept(cfg: Config, s: System, e: Event, home: string, sid: string)
    requires IsValidSid(sid) && LeavesNewcomer(e, home, sid)
    ensures !DrainsKey(cfg, s, e, HomeKey(home)) && !DrainsKey(cfg, s, e, DirectKey(home, sid))
  {
    if e.Called? && Handle(cfg, s.hub, e.c, e.req).1.Ok? {
      HomeQueueDrainedIff(cfg, s.hub, e.c, e.req, home);
      SidQueueDrainedIff(cfg, s.hub, e.c, e.req, home, sid);
      if ReadsLikeHome(s.hub, e.c, e.req, home) {
        ReadsLikeEnds(s.hub, e.c, e.req, home);
      }
    }
    hide Handle, HomeKey, DirectKey, IsValidSid, ReadsLikeHome, Impersonates, EndsLike;
  }

  lemma ReadsLikeEnds(h: Hub, c: Connection, req: Request, home: string)
    requires ReadsLikeHome(h, c, req, home)
    ensures (req.ReqHello? && EndsLike(home, req.sid)) || (req.ReqSetAlias? && EndsLike(home, req.alias))
  {
    var (from, token) := if req.ReqHello? then (req.home, req.sid) else (h.At(c).HomeOrEmpty(), req.alias);
    assert from + "#" + token == from + ("#" + token);
  }
}
