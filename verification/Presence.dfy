/** Who hears about sessions that come, go or change their alias, and what the filters that a
    session sets let through. */
module Presence {
  import opened Base
  import opened Messages
  import opened Addressing
  import opened Connections
  import opened Store
  import opened Routing
  import opened Registry
  import opened Delivery
  import opened Daemon
  import opened Invariant
  import opened Queues
  import opened Effects

  lemma OthersExact(h: Hub, exclude: Option<string>)
    requires SidsIndexed(h)
    ensures forall d :: d in h.Others(exclude) <==> IsRegistered(h, d) && h.At(d).sid != exclude
  {
    forall d | d in h.Others(exclude)
      ensures IsRegistered(h, d) && h.At(d).sid != exclude
    {
      var s :| s in h.connections && Some(s) != exclude && h.connections[s] == d;
      assert h.At(d).sid == Some(s);
    }
  }

  /** Every registered session but the excluded one gets the frame once; nobody else changes. */
  lemma BroadcastEffect(h: Hub, exclude: Option<string>, f: Frame, d: Connection)
    requires SidsIndexed(h) && d in h.conns
    ensures var g := h.Post(h.Others(exclude), f);
      d in g.conns && g.conns[d]
        == if IsRegistered(h, d) && h.At(d).sid != exclude then h.conns[d].Enqueue(f) else h.conns[d]
  {
    OthersExact(h, exclude);
    PostAt(h, h.Others(exclude), f, d);
    hide *;
  }

  /** Draining changes one connection and one queue. */
  lemma DrainLeavesOthers(cfg: Config, h: Hub, c: Connection, address: string, d: Connection)
    requires d != c && d in h.conns
    ensures Drain(cfg, h, c, address).connections == h.connections
    ensures d in Drain(cfg, h, c, address).conns && Drain(cfg, h, c, address).conns[d] == h.conns[d]
  {
  }

  /** The two queue addresses of a newcomer are different. */
  lemma NewcomerKeys(home: string, sid: string)
    ensures HomeKey(home) != DirectKey(home, sid)
  {
    assert |DirectKey(home, sid)| > |HomeKey(home)|;
  }

  /** A newcomer gets everything that waits for its home and then everything that waits for its
      session id, each in order and nothing filtered out; it hears nothing else, not even of its own
      arrival. */
  lemma HelloDelivers(cfg: Config, h: Hub, c: Connection, sid: string, home: string, ts: real)
    requires cfg.StarMatchesAll() && Indexed(h) && Consistent(h, c) && ProperIdentity(h.At(c))
    requires h.At(c).sid.None? && !h.At(c).closed && Hello(cfg, h, c, sid, home, ts).1.Ok?
    ensures var g := Hello(cfg, h, c, sid, home, ts).0;
      && IsRegistered(g, c) && g.At(c).sid == Some(sid) && g.At(c).home == Some(home)
      && g.At(c).outbox == h.At(c).outbox + MessageFrames(QueueAt(h.dms, HomeKey(home)))
           + MessageFrames(QueueAt(h.dms, DirectKey(home, sid)))
  {
    var h1 := Register(h, c, sid, home);
    var h2 := Drain(cfg, h1, c, HomeKey(home));
    var h3 := Drain(cfg, h2, c, DirectKey(home, sid));
    RegisterKeeps(h, c, sid, home);
    NewcomerGets(cfg, h1, c, HomeKey(home));
    DrainKeepsConn(cfg, h1, c, HomeKey(home));
    NewcomerKeys(home, sid);
    DrainQueue(cfg, h1, c, HomeKey(home), DirectKey(home, sid));
    NewcomerGets(cfg, h2, c, DirectKey(home, sid));
    DrainKeepsConn(cfg, h2, c, DirectKey(home, sid));
    AfterDrain(cfg, h1, c, HomeKey(home));
    AfterDrain(cfg, h2, c, DirectKey(home, sid));
    BroadcastEffect(h3, Some(sid), PeerJoined(home, sid, ts), c);
    hide Drain, MessageFrames, Indexed, HomeKey, DirectKey, PostTo;
  }

  lemma DrainKeepsConn(cfg: Config, h: Hub, c: Connection, address: string)
    requires c in h.conns
    ensures c in Drain(cfg, h, c, address).conns && Drain(cfg, h, c, address).connections == h.connections
    ensures Drain(cfg, h, c, address).At(c) == h.At(c).(outbox := Drain(cfg, h, c, address).At(c).outbox)
  {
  }

  lemma NewcomerGets(cfg: Config, h: Hub, c: Connection, address: string)
    requires cfg.StarMatchesAll() && c in h.conns && h.At(c).dmFilter == ["*"] && !h.At(c).closed
    ensures Drain(cfg, h, c, address).At(c).outbox == h.At(c).outbox + MessageFrames(QueueAt(h.dms, address))
  {
    var k, msgs := h.At(c), QueueAt(h.dms, address);
    assert "*" in k.dmFilter;
    assert forall m :: m in msgs ==> cfg.Accepts(k, m);
    FilterAll(m => cfg.Accepts(k, m), msgs);
    DrainDelivers(cfg, h, c, address);
    hide MessageFrames, Drain, Filter;
  }

  /** Every session that was there before hears of an arrival exactly once; connections that have
      not said hello hear nothing. */
  lemma HelloAnnounced(cfg: Config, h: Hub, c: Connection, sid: string, home: string, ts: real, d: Connection)
    requires Indexed(h) && Consistent(h, c) && h.At(c).sid.None? && Hello(cfg, h, c, sid, home, ts).1.Ok?
    requires d != c && d in h.conns
    ensures var g := Hello(cfg, h, c, sid, home, ts).0;
      d in g.conns && g.conns[d]
        == if IsRegistered(h, d) then h.conns[d].Enqueue(PeerJoined(home, sid, ts)) else h.conns[d]
  {
    hide TablesAgree, Drain, PostTo, Enroll, Scan;
    var h1 := Register(h, c, sid, home);
    var h2 := Drain(cfg, h1, c, HomeKey(home));
    var h3 := Drain(cfg, h2, c, DirectKey(home, sid));
    RegisterKeeps(h, c, sid, home);
    AfterDrain(cfg, h1, c, HomeKey(home));
    AfterDrain(cfg, h2, c, DirectKey(home, sid));
    DrainLeavesOthers(cfg, h1, c, HomeKey(home), d);
    DrainLeavesOthers(cfg, h2, c, DirectKey(home, sid), d);
    BroadcastEffect(h3, Some(sid), PeerJoined(home, sid, ts), d);
  }

  /** Every other session hears of a departure exactly once, with the alias that is now free; the
      connection that leaves only loses its subscriptions. */
  lemma GoodbyeAnnounced(h: Hub, c: Connection, ts: real, d: Connection)
    requires Indexed(h) && IsRegistered(h, c) && c in h.conns && d in h.conns
    ensures var (g, k) := (Goodbye(h, c, ts), h.At(c));
      d in g.conns && g.conns[d]
        == if d == c then k.(subs := {})
           else if IsRegistered(h, d) then h.conns[d].Enqueue(PeerLeft(k.HomeOrEmpty(), k.sid.value, k.alias, ts))
           else h.conns[d]
  {
    var h1, k := Unregister(h, c), h.At(c);
    UnregisterKeeps(h, c);
    BroadcastEffect(h1, k.sid, PeerLeft(k.HomeOrEmpty(), k.sid.value, k.alias, ts), d);
    hide Indexed, PostTo, Expel, ExpelAll, LeaveIn;
  }

  /** Every session hears of a changed alias exactly once. */
  lemma AliasAnnounced(cfg: Config, h: Hub, c: Connection, alias: string, ts: real, d: Connection)
    requires Indexed(h) && IsRegistered(h, c) && Consistent(h, c) && SetAlias(cfg, h, c, alias, ts).1.Ok?
    requires d != c && d in h.conns
    ensures var (g, k) := (SetAlias(cfg, h, c, alias, ts).0, h.At(c));
      var chosen := if alias == "" then None else Some(alias);
      d in g.conns && g.conns[d]
        == if IsRegistered(h, d)
           then h.conns[d].Enqueue(AliasChanged(k.HomeOrEmpty(), k.sid.value, chosen, k.alias, ts))
           else h.conns[d]
  {
    var k, chosen, home := h.At(c), if alias == "" then None else Some(alias), h.At(c).HomeOrEmpty();
    var h1 := Rename(h, c, chosen);
    var h2 := if chosen.Some? && chosen != k.alias then Drain(cfg, h1, c, DirectKey(home, chosen.value)) else h1;
    RenamedSids(h, c, chosen);
    if chosen.Some? {
      DrainLeavesOthers(cfg, h1, c, DirectKey(home, chosen.value), d);
      DrainKeepsConn(cfg, h1, c, DirectKey(home, chosen.value));
      DrainedSids(cfg, h1, c, DirectKey(home, chosen.value));
    }
    BroadcastEffect(h2, None, AliasChanged(home, k.sid.value, chosen, k.alias, ts), d);
    hide Indexed, Drain, PostTo, RenameIn, IsValidAlias;
  }

  lemma RenamedSids(h: Hub, c: Connection, chosen: Option<string>)
    requires SidsIndexed(h) && c in h.conns && h.At(c).sid.Some?
    ensures SidsIndexed(Rename(h, c, chosen)) && c in Rename(h, c, chosen).conns
    ensures Rename(h, c, chosen).connections == h.connections
  {
  }

  lemma DrainedSids(cfg: Config, h: Hub, c: Connection, address: string)
    requires SidsIndexed(h) && c in h.conns
    ensures SidsIndexed(Drain(cfg, h, c, address))
  {
    DrainOnlyPosts(cfg, h, c, address);
    hide Drain;
  }

  // ---------------------------------------------------------------- filters

  /** Whether a session gets a direct message once c has set these patterns: for c they decide, for
      everybody else nothing has changed. */
  predicate GetsFiltered(cfg: Config, h: Hub, c: Connection, patterns: seq<string>, d: Connection, addr: Address,
                         m: Message, e: Connection)
    requires addr.Home?
  {
    if e == c && e != d
    then IsRegistered(h, c) && h.At(c).sid.value in Resolve(h, addr)
         && exists p :: p in patterns && cfg.matches(m.fromAddr, p)
    else GetsDirect(cfg, h, d, addr, m, e)
  }

  /** A message sent by anybody after a session has set its filter: the session gets it iff it is
      addressed and one of the patterns matches the sender; the other sessions get, and the watchers
      see, what they would have without the change; and the sender is told the number reached. */
  lemma FilterDecides(cfg: Config, h: Hub, c: Connection, patterns: seq<string>, d: Connection, to: string, body: Json,
                      replyTo: Option<string>, id: string, ts: real)
    requires Indexed(h) && IsRegistered(h, c) && c in h.conns && IsRegistered(h, d)
    requires Send(cfg, SetDmFilter(h, c, patterns).0, d, to, body, replyTo, id, ts).1.Ok?
    ensures var g := SetDmFilter(h, c, patterns).0;
      var (g1, out) := Send(cfg, g, d, to, body, replyTo, id, ts);
      var (addr, m) := (ParseAddress(to).value, Compose(h, d, to, body, replyTo, id, ts));
      && out.value.SendReply?
      && out.value.delivered == |set e | e in h.conns && GetsFiltered(cfg, h, c, patterns, d, addr, m, e)|
      && forall e :: e in h.conns ==> e in g.conns && e in g1.conns && g1.conns[e] == g.conns[e].EnqueueAll(
           If(GetsFiltered(cfg, h, c, patterns, d, addr, m, e), PeerMessage(m))
           + If(GetsWire(cfg, h, d, m, e), WireMessage(m, out.value.delivered, out.value.delivered == 0)))
  {
    hide GetsFiltered, GetsDirect, GetsWire, Indexed, Send, ParseAddress, Compose, If, IsRegistered, SetDmFilter;
    hide Enqueue, Conn.EnqueueAll;
    var g := SetDmFilter(h, c, patterns).0;
    SentToHome(cfg, g, d, to, body, replyTo, id, ts);
    var addr, m := ParseAddress(to).value, Compose(h, d, to, body, replyTo, id, ts);
    FilterKeepsIndexes(h, c, patterns);
    SameComposed(h, c, patterns, d, to, body, replyTo, id, ts);
    SendEffect(cfg, g, d, to, body, replyTo, id, ts);
    forall e {
      FilteredOne(cfg, h, c, patterns, d, addr, m, e);
    }
    var got := set e | e in g.conns && GetsDirect(cfg, g, d, addr, m, e);
    assert got == set e | e in h.conns && GetsFiltered(cfg, h, c, patterns, d, addr, m, e);
  }

  lemma SentToHome(cfg: Config, h: Hub, d: Connection, to: string, body: Json, replyTo: Option<string>, id: string,
                   ts: real)
    requires Send(cfg, h, d, to, body, replyTo, id, ts).1.Ok?
    ensures ParseAddress(to).Ok? && ParseAddress(to).value.Home?
  {
  }

  lemma SameComposed(h: Hub, c: Connection, patterns: seq<string>, d: Connection, to: string, body: Json,
                     replyTo: Option<string>, id: string, ts: real)
    requires c in h.conns
    ensures var g := SetDmFilter(h, c, patterns).0;
      Compose(g, d, to, body, replyTo, id, ts) == Compose(h, d, to, body, replyTo, id, ts)
  {
    assert d != c ==> SetDmFilter(h, c, patterns).0.At(d) == h.At(d);
  }

  lemma FilterKeepsIndexes(h: Hub, c: Connection, patterns: seq<string>)
    requires Indexed(h) && IsRegistered(h, c) && c in h.conns
    ensures var g := SetDmFilter(h, c, patterns).0;
      && Indexed(g) && g.conns.Keys == h.conns.Keys
      && forall d :: IsRegistered(h, d) ==> IsRegistered(g, d)
  {
    var g := SetDmFilter(h, c, patterns).0;
    SameRegistryKeeps(h, g);
    forall d | IsRegistered(h, d)
      ensures IsRegistered(g, d)
    {
      assert g.At(d).sid == h.At(d).sid;
    }
  }

  lemma FilteredOne(cfg: Config, h: Hub, c: Connection, patterns: seq<string>, d: Connection, addr: Address, m: Message,
                    e: Connection)
    requires addr.Home? && c in h.conns && IsRegistered(h, c)
    ensures var g := SetDmFilter(h, c, patterns).0;
      && (GetsDirect(cfg, g, d, addr, m, e) <==> GetsFiltered(cfg, h, c, patterns, d, addr, m, e))
      && (GetsWire(cfg, g, d, m, e) <==> GetsWire(cfg, h, d, m, e))
  {
    var g := SetDmFilter(h, c, patterns).0;
    assert Resolve(g, addr) == Resolve(h, addr);
    assert e != c ==> g.At(e) == h.At(e);
  }

  /** The two states differ at most in what one connection watches. */
  ghost predicate OnlyWatching(h: Hub, g: Hub, c: Connection) {
    && c in h.conns
    && g == h.Put(c, h.At(c).(wireFrom := g.At(c).wireFrom, wireTo := g.At(c).wireTo))
  }

  lemma WatchingKeeps(cfg: Config, h: Hub, g: Hub, c: Connection, d: Connection)
    requires Indexed(h) && OnlyWatching(h, g, c) && IsRegistered(h, d)
    ensures Indexed(g) && g.conns.Keys == h.conns.Keys && IsRegistered(g, d)
    ensures forall e :: g.At(e).sid == h.At(e).sid
  {
    SameRegistryKeeps(h, g);
  }

  /** What somebody watches decides neither who gets a message nor what the others observe. */
  lemma WatchingElsewhere(cfg: Config, h: Hub, g: Hub, c: Connection, d: Connection, m: Message, e: Connection)
    requires OnlyWatching(h, g, c)
    ensures forall addr: Address :: addr.Home? ==>
      (GetsDirect(cfg, g, d, addr, m, e) <==> GetsDirect(cfg, h, d, addr, m, e))
    ensures forall topic :: GetsTopic(g, d, topic, e) <==> GetsTopic(h, d, topic, e)
    ensures e != c ==> (GetsWire(cfg, g, d, m, e) <==> GetsWire(cfg, h, d, m, e))
  {
    assert forall x :: x != c ==> g.At(x) == h.At(x);
    forall addr: Address | addr.Home?
      ensures Resolve(g, addr) == Resolve(h, addr)
    {
    }
  }

  lemma WatchedSend(cfg: Config, h: Hub, g: Hub, c: Connection, d: Connection, to: string, body: Json,
                    replyTo: Option<string>, id: string, ts: real)
    requires Indexed(h) && OnlyWatching(h, g, c) && IsRegistered(h, d)
    requires Send(cfg, g, d, to, body, replyTo, id, ts).1.Ok?
    ensures var (g1, out) := Send(cfg, g, d, to, body, replyTo, id, ts);
      var (addr, m) := (ParseAddress(to).value, Compose(h, d, to, body, replyTo, id, ts));
      && out.value.SendReply?
      && out.value.delivered == |set e | e in h.conns && GetsDirect(cfg, h, d, addr, m, e)|
      && forall e :: e in h.conns ==> e in g.conns && e in g1.conns && g1.conns[e] == g.conns[e].EnqueueAll(
           If(GetsDirect(cfg, h, d, addr, m, e), PeerMessage(m))
           + If(GetsWire(cfg, g, d, m, e), WireMessage(m, out.value.delivered, out.value.delivered == 0)))
  {
    hide GetsDirect, GetsTopic, GetsWire, Indexed, Send, ParseAddress, Compose, If, IsRegistered, Enqueue;
    hide Conn.EnqueueAll, OnlyWatching;
    SentToHome(cfg, g, d, to, body, replyTo, id, ts);
    var addr, m := ParseAddress(to).value, Compose(h, d, to, body, replyTo, id, ts);
    WatchingKeeps(cfg, h, g, c, d);
    ComposedAlike(h, g, c, d, to, body, replyTo, id, ts);
    SendEffect(cfg, g, d, to, body, replyTo, id, ts);
    forall e {
      WatchingElsewhere(cfg, h, g, c, d, m, e);
    }
    var got := set e | e in g.conns && GetsDirect(cfg, g, d, addr, m, e);
    assert got == set e | e in h.conns && GetsDirect(cfg, h, d, addr, m, e);
  }

  lemma WatchedPublish(cfg: Config, h: Hub, g: Hub, c: Connection, d: Connection, topic: string, body: Json,
                       id: string, ts: real)
    requires Indexed(h) && OnlyWatching(h, g, c) && IsRegistered(h, d)
    requires Publish(cfg, g, d, topic, body, id, ts).1.Ok?
    ensures var (g1, out) := Publish(cfg, g, d, topic, body, id, ts);
      var m := Compose(h, d, TopicKey(topic), body, None, id, ts);
      && out.value.PublishReply?
      && forall e :: e in h.conns ==> e in g.conns && e in g1.conns && g1.conns[e] == g.conns[e].EnqueueAll(
           If(GetsTopic(h, d, topic, e), PeerMessage(m))
           + If(GetsWire(cfg, g, d, m, e), WireMessage(m, out.value.subscribers, false)))
  {
    hide GetsDirect, GetsTopic, GetsWire, Indexed, Publish, Compose, If, IsRegistered, Enqueue, TopicKey;
    hide Conn.EnqueueAll, OnlyWatching;
    var m := Compose(h, d, TopicKey(topic), body, None, id, ts);
    WatchingKeeps(cfg, h, g, c, d);
    ComposedAlike(h, g, c, d, TopicKey(topic), body, None, id, ts);
    PublishEffect(cfg, g, d, topic, body, id, ts);
    forall e {
      WatchingElsewhere(cfg, h, g, c, d, m, e);
    }
  }

  lemma ComposedAlike(h: Hub, g: Hub, c: Connection, d: Connection, to: string, body: Json,
                      replyTo: Option<string>, id: string, ts: real)
    requires OnlyWatching(h, g, c)
    ensures Compose(g, d, to, body, replyTo, id, ts) == Compose(h, d, to, body, replyTo, id, ts)
  {
    assert d != c ==> g.At(d) == h.At(d);
  }

  /** The patterns let the address through; a missing list means everything. */
  predicate Covers(cfg: Config, patterns: Option<seq<string>>, address: string) {
    patterns.Some? ==> exists p :: p in patterns.value && cfg.matches(address, p)
  }

  /** Whether a session sees a message of d once c watches with these filters: for c they decide, for
      everybody else nothing has changed. */
  predicate SeesWire(cfg: Config, h: Hub, c: Connection, from: Option<seq<string>>, to: Option<seq<string>>,
                     d: Connection, m: Message, e: Connection)
  {
    if e == c && e != d then IsRegistered(h, c) && Covers(cfg, from, m.fromAddr) && Covers(cfg, to, m.to)
    else GetsWire(cfg, h, d, m, e)
  }

  lemma WatchShows(cfg: Config, h: Hub, c: Connection, kinds: Option<seq<string>>, from: Option<seq<string>>,
                   to: Option<seq<string>>, d: Connection, m: Message, e: Connection)
    requires cfg.StarMatchesAll() && c in h.conns && Watch(h, c, kinds, from, to).1.Ok?
    ensures var g := Watch(h, c, kinds, from, to).0;
      OnlyWatching(h, g, c) && (GetsWire(cfg, g, d, m, e) <==> SeesWire(cfg, h, c, from, to, d, m, e))
  {
    var g := Watch(h, c, kinds, from, to).0;
    WatchingElsewhere(cfg, h, g, c, d, m, e);
    assert "*" in ["*"];
    assert g.At(c).sid == h.At(c).sid;
  }

  /** A direct message sent by anybody after a session has begun to watch: the watcher sees it iff its
      sender and its destination are covered by the filters given, with the number of recipients; who
      gets the message, and what the others see, is as without the watch. */
  lemma WatchDecides(cfg: Config, h: Hub, c: Connection, kinds: Option<seq<string>>, from: Option<seq<string>>,
                     to: Option<seq<string>>, d: Connection, dest: string, body: Json, replyTo: Option<string>,
                     id: string, ts: real)
    requires cfg.StarMatchesAll() && Indexed(h) && c in h.conns && IsRegistered(h, d)
    requires Watch(h, c, kinds, from, to).1.Ok?
    requires Send(cfg, Watch(h, c, kinds, from, to).0, d, dest, body, replyTo, id, ts).1.Ok?
    ensures var g := Watch(h, c, kinds, from, to).0;
      var (g1, out) := Send(cfg, g, d, dest, body, replyTo, id, ts);
      var (addr, m) := (ParseAddress(dest).value, Compose(h, d, dest, body, replyTo, id, ts));
      && out.value.SendReply?
      && out.value.delivered == |set e | e in h.conns && GetsDirect(cfg, h, d, addr, m, e)|
      && forall e :: e in h.conns ==> e in g.conns && e in g1.conns && g1.conns[e] == g.conns[e].EnqueueAll(
           If(GetsDirect(cfg, h, d, addr, m, e), PeerMessage(m))
           + If(SeesWire(cfg, h, c, from, to, d, m, e),
                WireMessage(m, out.value.delivered, out.value.delivered == 0)))
  {
    hide GetsDirect, GetsWire, SeesWire, Indexed, Send, Watch, ParseAddress, Compose, If, IsRegistered;
    hide Conn.EnqueueAll, OnlyWatching;
    var g, m := Watch(h, c, kinds, from, to).0, Compose(h, d, dest, body, replyTo, id, ts);
    forall e
      ensures OnlyWatching(h, g, c) && (GetsWire(cfg, g, d, m, e) <==> SeesWire(cfg, h, c, from, to, d, m, e))
    {
      WatchShows(cfg, h, c, kinds, from, to, d, m, e);
    }
    assert OnlyWatching(h, g, c) by { WatchShows(cfg, h, c, kinds, from, to, d, m, c); }
    SentToHome(cfg, g, d, dest, body, replyTo, id, ts);
    WatchedSend(cfg, h, g, c, d, dest, body, replyTo, id, ts);
  }

  /** Likewise for publications. */
  lemma WatchDecidesTopics(cfg: Config, h: Hub, c: Connection, kinds: Option<seq<string>>, from: Option<seq<string>>,
                           to: Option<seq<string>>, d: Connection, topic: string, body: Json, id: string, ts: real)
    requires cfg.StarMatchesAll() && Indexed(h) && c in h.conns && IsRegistered(h, d)
    requires Watch(h, c, kinds, from, to).1.Ok?
    requires Publish(cfg, Watch(h, c, kinds, from, to).0, d, topic, body, id, ts).1.Ok?
    ensures var g := Watch(h, c, kinds, from, to).0;
      var (g1, out) := Publish(cfg, g, d, topic, body, id, ts);
      var m := Compose(h, d, TopicKey(topic), body, None, id, ts);
      && out.value.PublishReply?
      && forall e :: e in h.conns ==> e in g.conns && e in g1.conns && g1.conns[e] == g.conns[e].EnqueueAll(
           If(GetsTopic(h, d, topic, e), PeerMessage(m))
           + If(SeesWire(cfg, h, c, from, to, d, m, e), WireMessage(m, out.value.subscribers, false)))
  {
    hide GetsTopic, GetsWire, SeesWire, Indexed, Publish, Watch, Compose, If, IsRegistered, TopicKey;
    hide Conn.EnqueueAll, OnlyWatching;
    var g, m := Watch(h, c, kinds, from, to).0, Compose(h, d, TopicKey(topic), body, None, id, ts);
    forall e
      ensures GetsWire(cfg, g, d, m, e) <==> SeesWire(cfg, h, c, from, to, d, m, e)
    {
      WatchShows(cfg, h, c, kinds, from, to, d, m, e);
    }
    assert OnlyWatching(h, g, c) by { WatchShows(cfg, h, c, kinds, from, to, d, m, c); }
    WatchedPublish(cfg, h, g, c, d, topic, body, id, ts);
  }

  /** After an unwatch the session sees no traffic of anybody: a direct message or publication reaches
      it as a message or not at all. */
  lemma UnwatchSilences(cfg: Config, h: Hub, c: Connection, d: Connection, dest: string, topic: string, body: Json,
                        replyTo: Option<string>, id: string, ts: real)
    requires Indexed(h) && c in h.conns && IsRegistered(h, d) && Unwatch(h, c).1.Ok?
    ensures var (g, m) := (Unwatch(h, c).0, Compose(h, d, dest, body, replyTo, id, ts));
      Send(cfg, g, d, dest, body, replyTo, id, ts).1.Ok? ==>
        Send(cfg, g, d, dest, body, replyTo, id, ts).0.At(c)
          == g.At(c).EnqueueAll(If(GetsDirect(cfg, h, d, ParseAddress(dest).value, m, c), PeerMessage(m)))
    ensures var (g, m) := (Unwatch(h, c).0, Compose(h, d, TopicKey(topic), body, None, id, ts));
      Publish(cfg, g, d, topic, body, id, ts).1.Ok? ==>
        Publish(cfg, g, d, topic, body, id, ts).0.At(c)
          == g.At(c).EnqueueAll(If(GetsTopic(h, d, topic, c), PeerMessage(m)))
  {
    var g := Unwatch(h, c).0;
    assert OnlyWatching(h, g, c) && g.At(c).wireFrom == None;
    assert forall m :: !GetsWire(cfg, g, d, m, c);
    hide GetsDirect, GetsTopic, GetsWire, Indexed, Send, Publish, Unwatch, ParseAddress, Compose, IsRegistered;
    hide OnlyWatching, TopicKey, Conn.EnqueueAll;
    assert forall fs: seq<Frame> :: fs + [] == fs;
    if Send(cfg, g, d, dest, body, replyTo, id, ts).1.Ok? {
      SentToHome(cfg, g, d, dest, body, replyTo, id, ts);
      WatchedSend(cfg, h, g, c, d, dest, body, replyTo, id, ts);
    }
    if Publish(cfg, g, d, topic, body, id, ts).1.Ok? {
      WatchedPublish(cfg, h, g, c, d, topic, body, id, ts);
    }
  }

  // ---------------------------------------------------------------- what waits for a newcomer

  /** After any run that leaves both queues alone, the next session to say hello from the home gets all that
      was ever queued for the home within the bound, then all that was queued for its session id, in
      order and unfiltered, and then the response; both queues are then empty. */
  lemma HandedToNextHello(cfg: Config, s: System, es: seq<Event>, c: Connection, home: string, sid: string, ts: real,
                          rid: RequestId)
    requires cfg.StarMatchesAll() && Well(s) && Bounded(cfg, s.hub)
    requires forall i :: 0 <= i < |es| ==> LeavesNewcomer(es[i], home, sid)
    requires var t := Run(cfg, s, es);
      c in t.open && !t.hub.At(c).closed && Handle(cfg, t.hub, c, ReqHello(sid, home, ts)).1.Ok?
    ensures var (t, u) := (Run(cfg, s, es), Run(cfg, s, es + [Called(c, Some(rid), ReqHello(sid, home, ts))]));
      var (homeKey, ownKey) := (HomeKey(home), DirectKey(home, sid));
      && u.hub.At(c).outbox == t.hub.At(c).outbox
           + MessageFrames(LastN(QueueAt(s.hub.dms, homeKey) + AddedLog(cfg, s, es, homeKey), cfg.dmMax))
           + MessageFrames(LastN(QueueAt(s.hub.dms, ownKey) + AddedLog(cfg, s, es, ownKey), cfg.dmMax))
           + [Response(rid, HelloReply(home, sid))]
      && QueueAt(u.hub.dms, homeKey) == QueueAt(u.hub.dms, ownKey) == []
  {
    var t, e := Run(cfg, s, es), Called(c, Some(rid), ReqHello(sid, home, ts));
    GreetingAccepted(cfg, t.hub, c, sid, home, ts);
    NewcomerQueuesSurvive(cfg, s, es, home, sid);
    QueueWindow(cfg, s, es, HomeKey(home));
    QueueWindow(cfg, s, es, DirectKey(home, sid));
    RunWell(cfg, s, es);
    assert (es + [e])[..|es|] == es;
    hide Run, AddedLog, Undrained, LeavesNewcomer, Bounded, LastN;
    GreetingAnswered(cfg, t, c, sid, home, ts, rid);
  }

  lemma GreetingAccepted(cfg: Config, h: Hub, c: Connection, sid: string, home: string, ts: real)
    requires Handle(cfg, h, c, ReqHello(sid, home, ts)).1.Ok?
    ensures IsValidSid(sid) && h.At(c).sid.None? && Hello(cfg, h, c, sid, home, ts).1.Ok?
    ensures Handle(cfg, h, c, ReqHello(sid, home, ts)) == Hello(cfg, h, c, sid, home, ts)
  {
    hide IsValidSid, IsNormalizedPath, Hello;
  }

  lemma GreetingAnswered(cfg: Config, t: System, c: Connection, sid: string, home: string, ts: real, rid: RequestId)
    requires cfg.StarMatchesAll() && Well(t) && c in t.open && !t.hub.At(c).closed
    requires Handle(cfg, t.hub, c, ReqHello(sid, home, ts)).1.Ok?
    ensures var u := Step(cfg, t, Called(c, Some(rid), ReqHello(sid, home, ts)));
      && u.hub.At(c).outbox == t.hub.At(c).outbox + MessageFrames(QueueAt(t.hub.dms, HomeKey(home)))
           + MessageFrames(QueueAt(t.hub.dms, DirectKey(home, sid))) + [Response(rid, HelloReply(home, sid))]
      && QueueAt(u.hub.dms, HomeKey(home)) == QueueAt(u.hub.dms, DirectKey(home, sid)) == []
  {
    var h := t.hub;
    SelfSettled(h, c, t.open);
    assert Consistent(h, c);
    GreetingAccepted(cfg, h, c, sid, home, ts);
    HelloDelivers(cfg, h, c, sid, home, ts);
    HelloQueue(cfg, h, c, sid, home, ts, HomeKey(home));
    HelloQueue(cfg, h, c, sid, home, ts, DirectKey(home, sid));
    HelloStaysOpen(cfg, h, c, sid, home, ts);
    hide Handle, Hello, MessageFrames, HomeKey, DirectKey, QueueAt, Indexed, Consistent, Well;
  }

  lemma HelloStaysOpen(cfg: Config, h: Hub, c: Connection, sid: string, home: string, ts: real)
    requires c in h.conns && Hello(cfg, h, c, sid, home, ts).1.Ok?
    ensures Hello(cfg, h, c, sid, home, ts).0.At(c).closed == h.At(c).closed
    ensures Hello(cfg, h, c, sid, home, ts).1 == Ok(HelloReply(home, sid))
  {
    HelloShape(cfg, h, c, sid, home, ts);
    hide Drain, PostTo;
  }
}
