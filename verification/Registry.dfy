/** The four redundant indexes of the router always agree with the connections they describe. */
module Registry {
  import opened Base
  import opened Messages
  import opened Addressing
  import opened Connections
  import opened Store
  import opened Routing

  // ---------------------------------------------------------------- the index invariant

  /** What the indexes record about a registered session. */
  datatype Session = Session(home: string, alias: Option<string>, subs: set<string>)

  function SessionOf(k: Conn): Session {
    Session(k.HomeOrEmpty(), k.alias, k.subs)
  }

  /** A scan over the registered connections. */
  function Scan(h: Hub): map<string, Session> {
    map s | s in h.connections :: SessionOf(h.At(h.connections[s]))
  }

  /** Every session id in the table belongs to the connection stored under it. */
  ghost predicate SidsIndexed(h: Hub) {
    forall s :: s in h.connections ==>
      && h.connections[s] in h.conns
      && h.At(h.connections[s]).sid == Some(s) && h.At(h.connections[s]).home.Some?
  }

  predicate NoEmptyEntry(table: map<string, set<string>>) {
    forall k :: k in table ==> table[k] != {}
  }

  /** The table lists exactly the sessions of each home. */
  ghost predicate HomesAgree(table: map<string, set<string>>, scan: map<string, Session>) {
    && NoEmptyEntry(table)
    && forall home, s :: s in Members(table, home) <==> s in scan && scan[s].home == home
  }

  /** An alias leads to a session iff that session is in the home under that alias; so an alias
      has at most one holder per home. */
  ghost predicate AliasesAgree(table: AliasTable, scan: map<string, Session>) {
    forall home, a, s :: Holder(table, home, a) == Some(s)
      <==> s in scan && scan[s].home == home && scan[s].alias == Some(a)
  }

  /** The table lists exactly the subscribers of each topic. */
  ghost predicate TopicsAgree(table: map<string, set<string>>, scan: map<string, Session>) {
    && NoEmptyEntry(table)
    && forall topic, s :: s in Members(table, topic) <==> s in scan && topic in scan[s].subs
  }

  ghost predicate TablesAgree(h: Hub, scan: map<string, Session>) {
    HomesAgree(h.byHome, scan) && AliasesAgree(h.aliases, scan) && TopicsAgree(h.topicSubs, scan)
  }

  ghost predicate Indexed(h: Hub) {
    SidsIndexed(h) && TablesAgree(h, Scan(h))
  }

  /** The connection holds its own session id in the table. */
  predicate IsRegistered(h: Hub, c: Connection) {
    var sid := h.At(c).sid;
    sid.Some? && sid.value in h.connections && h.connections[sid.value] == c
  }

  // ---------------------------------------------------------------- the tables

  lemma EnrollMembers(table: map<string, set<string>>, key: string, member: string)
    ensures forall k :: Members(Enroll(table, key, member), k)
              == if k == key then Members(table, k) + {member} else Members(table, k)
    ensures NoEmptyEntry(table) ==> NoEmptyEntry(Enroll(table, key, member))
  {
    assert member in Members(table, key) + {member};
  }

  lemma ExpelMembers(table: map<string, set<string>>, key: string, member: string)
    ensures forall k :: Members(Expel(table, key, member), k)
              == if k == key then Members(table, k) - {member} else Members(table, k)
    ensures NoEmptyEntry(table) ==> NoEmptyEntry(Expel(table, key, member))
  {
  }

  lemma EnrollAgrees(table: map<string, set<string>>, scan: map<string, Session>, sid: string, joined: Session)
    requires HomesAgree(table, scan) && sid !in scan
    ensures HomesAgree(Enroll(table, joined.home, sid), scan[sid := joined])
  {
    EnrollMembers(table, joined.home, sid);
  }

  lemma ExpelAgrees(table: map<string, set<string>>, scan: map<string, Session>, sid: string)
    requires HomesAgree(table, scan) && sid in scan
    ensures HomesAgree(Expel(table, scan[sid].home, sid), scan - {sid})
  {
    ExpelMembers(table, scan[sid].home, sid);
  }

  lemma ExpelAllAgrees(table: map<string, set<string>>, scan: map<string, Session>, sid: string)
    requires TopicsAgree(table, scan) && sid in scan
    ensures TopicsAgree(ExpelAll(table, scan[sid].subs, sid), scan - {sid})
  {
    var t := ExpelAll(table, scan[sid].subs, sid);
    forall topic, s
      ensures s in Members(t, topic) <==> s in Members(table, topic) && s != sid
    {
      assert s in Members(table, topic) && s != sid ==> s in table[topic] - {sid};
    }
  }

  lemma SetInnerHolder(table: AliasTable, home: string, inner: map<string, string>)
    ensures forall h, a :: Holder(SetInner(table, home, inner), h, a)
              == if h == home then (if a in inner then Some(inner[a]) else None) else Holder(table, h, a)
  {
  }

  lemma SubscribeAgrees(table: map<string, set<string>>, scan: map<string, Session>, sid: string, topic: string)
    requires TopicsAgree(table, scan) && sid in scan
    ensures TopicsAgree(Enroll(table, topic, sid), scan[sid := scan[sid].(subs := scan[sid].subs + {topic})])
  {
    EnrollMembers(table, topic, sid);
  }

  lemma UnsubscribeAgrees(table: map<string, set<string>>, scan: map<string, Session>, sid: string, topic: string)
    requires TopicsAgree(table, scan) && sid in scan
    ensures TopicsAgree(Expel(table, topic, sid), scan[sid := scan[sid].(subs := scan[sid].subs - {topic})])
  {
    ExpelMembers(table, topic, sid);
  }

  /** Dropping the own alias leaves no alias that leads to the session. */
  lemma Released(inner: map<string, string>, scan: map<string, Session>, sid: string)
    requires sid in scan
    requires forall a :: a in inner && inner[a] == sid <==> scan[sid].alias == Some(a)
    ensures var rest := WithoutOwn(inner, scan[sid].alias, sid);
      forall a :: (a in rest <==> a in inner && inner[a] != sid) && (a in rest ==> rest[a] == inner[a])
  {
  }

  /** Releasing the old alias and recording the new one, unless somebody else holds it. */
  lemma RenameAgrees(table: AliasTable, scan: map<string, Session>, sid: string, chosen: Option<string>)
    requires AliasesAgree(table, scan) && sid in scan
    requires chosen.Some? ==> Holder(table, scan[sid].home, chosen.value) in {None, Some(sid)}
    ensures AliasesAgree(RenameIn(table, scan[sid].home, scan[sid].alias, sid, chosen),
                         scan[sid := scan[sid].(alias := chosen)])
  {
    var home := scan[sid].home;
    var t0 := WithHome(table, home);
    forall h, a
      ensures Holder(t0, h, a) == Holder(table, h, a)
    {
    }
    forall a
      ensures a in t0[home] && t0[home][a] == sid <==> scan[sid].alias == Some(a)
    {
      assert Holder(t0, home, a) == Some(sid) <==> scan[sid].alias == Some(a);
    }
    Released(t0[home], scan, sid);
    var released := WithoutOwn(t0[home], scan[sid].alias, sid);
    var inner := if chosen.Some? then released[chosen.value := sid] else released;
    SetInnerHolder(t0, home, inner);
    forall h, a, s
      ensures Holder(SetInner(t0, home, inner), h, a) == Some(s)
        <==> if s == sid then h == home && chosen == Some(a) else Holder(table, h, a) == Some(s)
    {
    }
  }

  lemma LeaveAgrees(table: AliasTable, scan: map<string, Session>, sid: string)
    requires AliasesAgree(table, scan) && sid in scan
    ensures AliasesAgree(LeaveIn(table, scan[sid].home, scan[sid].alias, sid), scan - {sid})
  {
    var home := scan[sid].home;
    if home in table {
      forall a
        ensures a in table[home] && table[home][a] == sid <==> scan[sid].alias == Some(a)
      {
        assert Holder(table, home, a) == Some(sid) <==> scan[sid].alias == Some(a);
      }
      Released(table[home], scan, sid);
      SetInnerHolder(table, home, WithoutOwn(table[home], scan[sid].alias, sid));
    }
    forall h, a, s
      ensures Holder(LeaveIn(table, home, scan[sid].alias, sid), h, a) == Some(s)
        <==> s != sid && Holder(table, h, a) == Some(s)
    {
    }
  }

  // ---------------------------------------------------------------- the steps

  predicate SameIdentity(k: Conn, j: Conn) {
    k.sid == j.sid && k.home == j.home && k.alias == j.alias && k.subs == j.subs
  }

  /** The two states differ at most in queues, filters, outboxes and closed flags. */
  ghost predicate SameRegistry(h: Hub, g: Hub) {
    && h.connections == g.connections && h.byHome == g.byHome
    && h.aliases == g.aliases && h.topicSubs == g.topicSubs
    && h.conns.Keys <= g.conns.Keys
    && forall c :: c in h.conns ==> SameIdentity(h.conns[c], g.conns[c])
  }

  lemma SameRegistryKeeps(h: Hub, g: Hub)
    requires Indexed(h) && SameRegistry(h, g)
    ensures Indexed(g) && Scan(g) == Scan(h)
  {
    assert Scan(g) == Scan(h);
  }

  lemma PostSameRegistry(h: Hub, targets: set<Connection>, f: Frame)
    ensures SameRegistry(h, h.Post(targets, f))
  {
  }

  lemma DrainSameRegistry(cfg: Config, h: Hub, c: Connection, address: string)
    requires c in h.conns
    ensures SameRegistry(h, Drain(cfg, h, c, address))
  {
  }

  /** One session of the table is new or changed, and the scan changes with it. */
  lemma ScanUpdated(h: Hub, g: Hub, c: Connection, sid: string, changed: Session)
    requires SidsIndexed(h) && c in g.conns && h.conns.Keys <= g.conns.Keys
    requires g.connections == h.connections[sid := c]
    requires forall s :: s in h.connections && s != sid ==> h.connections[s] != c
    requires forall d :: d in h.conns && d != c ==> g.conns[d] == h.conns[d]
    requires g.conns[c].sid == Some(sid) && g.conns[c].home.Some? && SessionOf(g.conns[c]) == changed
    ensures SidsIndexed(g) && Scan(g) == Scan(h)[sid := changed]
  {
    assert Scan(g) == Scan(h)[sid := changed];
  }

  lemma RegisterKeeps(h: Hub, c: Connection, sid: string, home: string)
    requires Indexed(h) && sid !in h.connections
    requires c in h.conns && h.At(c).sid == None && h.At(c).alias == None && h.At(c).subs == {}
    ensures Indexed(Register(h, c, sid, home)) && IsRegistered(Register(h, c, sid, home), c)
  {
    var g, scan, joined := Register(h, c, sid, home), Scan(h), Session(home, None, {});
    ScanUpdated(h, g, c, sid, joined);
    EnrollAgrees(h.byHome, scan, sid, joined);
    NewcomerAgrees(h, scan, sid, joined);
  }

  lemma NewcomerAgrees(h: Hub, scan: map<string, Session>, sid: string, joined: Session)
    requires TablesAgree(h, scan) && sid !in scan && joined.alias == None && joined.subs == {}
    ensures AliasesAgree(h.aliases, scan[sid := joined])
    ensures TopicsAgree(h.topicSubs, scan[sid := joined])
  {
  }

  lemma UnregisterKeeps(h: Hub, c: Connection)
    requires Indexed(h) && IsRegistered(h, c)
    ensures Indexed(Unregister(h, c)) && h.At(c).sid.value !in Unregister(h, c).connections
  {
    var g, scan, sid := Unregister(h, c), Scan(h), h.At(c).sid.value;
    assert SidsIndexed(g);
    assert Scan(g) == scan - {sid};
    ExpelAgrees(h.byHome, scan, sid);
    LeaveAgrees(h.aliases, scan, sid);
    ExpelAllAgrees(h.topicSubs, scan, sid);
  }

  lemma RenameKeeps(h: Hub, c: Connection, chosen: Option<string>)
    requires Indexed(h) && IsRegistered(h, c)
    requires chosen.Some? ==>
      Holder(h.aliases, h.At(c).HomeOrEmpty(), chosen.value) in {None, h.At(c).sid}
    ensures Indexed(Rename(h, c, chosen))
  {
    var g, scan, sid := Rename(h, c, chosen), Scan(h), h.At(c).sid.value;
    var renamed := scan[sid].(alias := chosen);
    ScanUpdated(h, g, c, sid, renamed);
    RenameAgrees(h.aliases, scan, sid, chosen);
    RenamedElsewhere(h, scan, sid, renamed);
  }

  lemma RenamedElsewhere(h: Hub, scan: map<string, Session>, sid: string, renamed: Session)
    requires TablesAgree(h, scan) && sid in scan && renamed == scan[sid].(alias := renamed.alias)
    ensures HomesAgree(h.byHome, scan[sid := renamed])
    ensures TopicsAgree(h.topicSubs, scan[sid := renamed])
  {
  }

  /** A session that changes its own topics, with the topic table changed to match. */
  lemma ResubscribeKeeps(h: Hub, g: Hub, c: Connection)
    requires Indexed(h) && IsRegistered(h, c)
    requires g == h.(conns := h.conns[c := h.At(c).(subs := g.At(c).subs)], topicSubs := g.topicSubs)
    requires var sid := h.At(c).sid.value;
      TopicsAgree(g.topicSubs, Scan(h)[sid := Scan(h)[sid].(subs := g.At(c).subs)])
    ensures Indexed(g)
  {
    var scan, sid := Scan(h), h.At(c).sid.value;
    var changed := scan[sid].(subs := g.At(c).subs);
    ScanUpdated(h, g, c, sid, changed);
    ResubscribedElsewhere(h, scan, sid, changed);
  }

  lemma ResubscribedElsewhere(h: Hub, scan: map<string, Session>, sid: string, changed: Session)
    requires TablesAgree(h, scan) && sid in scan && changed == scan[sid].(subs := changed.subs)
    ensures HomesAgree(h.byHome, scan[sid := changed])
    ensures AliasesAgree(h.aliases, scan[sid := changed])
  {
  }

  // ---------------------------------------------------------------- whole requests

  /** A connection that has not said hello has no alias and no subscriptions, and one that has
      is found under its session id. */
  ghost predicate Consistent(h: Hub, c: Connection) {
    && c in h.conns
    && (h.At(c).sid.Some? ==> IsRegistered(h, c))
    && (h.At(c).sid.None? ==> h.At(c).alias == None && h.At(c).subs == {})
  }

  lemma HelloKeeps(cfg: Config, h: Hub, c: Connection, sid: string, home: string, ts: real)
    requires Indexed(h) && Consistent(h, c) && h.At(c).sid.None?
    ensures Indexed(Hello(cfg, h, c, sid, home, ts).0)
  {
    if sid !in h.connections {
      var h1 := Register(h, c, sid, home);
      var h2 := Drain(cfg, h1, c, HomeKey(home));
      var h3 := Drain(cfg, h2, c, DirectKey(home, sid));
      RegisterKeeps(h, c, sid, home);
      AfterDrain(cfg, h1, c, HomeKey(home));
      AfterDrain(cfg, h2, c, DirectKey(home, sid));
      AfterPost(h3, h3.Others(Some(sid)), PeerJoined(home, sid, ts));
    }
  }

  lemma AfterPost(h: Hub, targets: set<Connection>, f: Frame)
    requires Indexed(h)
    ensures Indexed(h.Post(targets, f))
  {
    PostSameRegistry(h, targets, f);
    SameRegistryKeeps(h, h.Post(targets, f));
  }

  lemma AfterDrain(cfg: Config, h: Hub, c: Connection, address: string)
    requires Indexed(h) && c in h.conns
    ensures Indexed(Drain(cfg, h, c, address)) && c in Drain(cfg, h, c, address).conns
  {
    DrainSameRegistry(cfg, h, c, address);
    SameRegistryKeeps(h, Drain(cfg, h, c, address));
  }

  lemma GoodbyeKeeps(h: Hub, c: Connection, ts: real)
    requires Indexed(h) && Consistent(h, c)
    ensures Indexed(Goodbye(h, c, ts))
  {
    var k := h.At(c);
    if k.sid.Some? {
      UnregisterKeeps(h, c);
      var h1 := Unregister(h, c);
      AfterPost(h1, h1.Others(k.sid), PeerLeft(k.HomeOrEmpty(), k.sid.value, k.alias, ts));
    }
  }

  /** The empty inner table that a rejected alias leaves behind changes no lookup. */
  lemma WithHomeKeeps(h: Hub, home: string)
    requires Indexed(h)
    ensures Indexed(h.(aliases := WithHome(h.aliases, home)))
    ensures forall g, a :: Holder(WithHome(h.aliases, home), g, a) == Holder(h.aliases, g, a)
  {
    var g := h.(aliases := WithHome(h.aliases, home));
    assert SidsIndexed(g) && Scan(g) == Scan(h);
    forall k, a
      ensures Holder(g.aliases, k, a) == Holder(h.aliases, k, a)
    {
    }
    assert AliasesAgree(g.aliases, Scan(h));
  }

  lemma AdoptedKeeps(cfg: Config, h: Hub, c: Connection, chosen: Option<string>, ts: real)
    requires Indexed(h) && IsRegistered(h, c)
    requires chosen.Some? ==> Holder(h.aliases, h.At(c).HomeOrEmpty(), chosen.value) in {None, h.At(c).sid}
    ensures Indexed(Adopted(cfg, h, c, chosen, ts))
  {
    var k, home := h.At(c), h.At(c).HomeOrEmpty();
    RenameKeeps(h, c, chosen);
    var h1 := Rename(h, c, chosen);
    var h2 := h1;
    if chosen.Some? && chosen != k.alias {
      AfterDrain(cfg, h1, c, DirectKey(home, chosen.value));
      h2 := Drain(cfg, h1, c, DirectKey(home, chosen.value));
    }
    AfterPost(h2, h2.Others(None), AliasChanged(home, k.sid.value, chosen, k.alias, ts));
  }

  lemma SetAliasKeeps(cfg: Config, h: Hub, c: Connection, alias: string, ts: real)
    requires Indexed(h) && Consistent(h, c)
    ensures Indexed(SetAlias(cfg, h, c, alias, ts).0)
  {
    var k := h.At(c);
    if k.sid.Some? {
      var home := k.HomeOrEmpty();
      WithHomeKeeps(h, home);
      if SetAlias(cfg, h, c, alias, ts).1.Ok? {
        var chosen := if alias == "" then None else Some(alias);
        assert chosen.Some? ==> Holder(WithHome(h.aliases, home), home, alias) in {None, k.sid};
        AdoptedKeeps(cfg, h, c, chosen, ts);
      }
    }
  }

  lemma ReplayKeeps(h: Hub, c: Connection, fs: seq<Frame>)
    requires Indexed(h) && c in h.conns
    ensures Indexed(h.Put(c, h.At(c).EnqueueAll(fs)))
  {
    SameRegistryKeeps(h, h.Put(c, h.At(c).EnqueueAll(fs)));
  }

  lemma AfterQueues(h: Hub, g: Hub)
    requires Indexed(h) && g == h.(dms := g.dms, topics := g.topics)
    ensures Indexed(g)
  {
    SameRegistryKeeps(h, g);
  }

  lemma SubscribeKeeps(h: Hub, c: Connection, topic: string, replay: int)
    requires Indexed(h) && Consistent(h, c)
    ensures Indexed(Subscribe(h, c, topic, replay).0)
  {
    if Subscribe(h, c, topic, replay).1.Ok? {
      var g, sid := Subscribed(h, c, topic), h.At(c).sid.value;
      SubscribeAgrees(h.topicSubs, Scan(h), sid, topic);
      ResubscribeKeeps(h, g, c);
      if replay > 0 {
        var fs := MessageFrames(LastN(QueueAt(h.topics, TopicKey(topic)), replay));
        ReplayKeeps(g, c, fs);
        AfterQueues(g.Put(c, g.At(c).EnqueueAll(fs)), Followed(h, c, topic, replay));
      }
    }
  }

  lemma UnsubscribeKeeps(h: Hub, c: Connection, topic: string)
    requires Indexed(h) && Consistent(h, c)
    ensures Indexed(Unsubscribe(h, c, topic).0)
  {
    if Unsubscribe(h, c, topic).1.Ok? {
      UnsubscribeAgrees(h.topicSubs, Scan(h), h.At(c).sid.value, topic);
      ResubscribeKeeps(h, Unsubscribe(h, c, topic).0, c);
    }
  }

  lemma SendKeeps(cfg: Config, h: Hub, c: Connection, to: string, body: Json, replyTo: Option<string>,
                  id: string, ts: real)
    requires Indexed(h)
    ensures Indexed(Send(cfg, h, c, to, body, replyTo, id, ts).0)
  {
    var parsed := ParseAddress(to);
    if h.At(c).sid.Some? && parsed.Ok? && parsed.value.Home? {
      var m := Compose(h, c, to, body, replyTo, id, ts);
      var rs := Receivers(cfg, h, c, parsed.value, m);
      var h1 := h.Post(Sessions(h, rs), PeerMessage(m));
      var h2 := if rs == {} then h1.(dms := Enqueue(h1.dms, m, cfg.dmMax)) else h1;
      AfterPost(h, Sessions(h, rs), PeerMessage(m));
      AfterQueues(h1, h2);
      AfterPost(h2, h2.Watchers(cfg, m, h.At(c).sid), WireMessage(m, |rs|, rs == {}));
    }
  }

  lemma PublishKeeps(cfg: Config, h: Hub, c: Connection, topic: string, body: Json, id: string, ts: real)
    requires Indexed(h)
    ensures Indexed(Publish(cfg, h, c, topic, body, id, ts).0)
  {
    if h.At(c).sid.Some? && ValidateTopic(topic).Ok? {
      var m := Compose(h, c, TopicKey(topic), body, None, id, ts);
      var h1 := h.(topics := Enqueue(h.topics, m, cfg.topicMax));
      var rs := Subscribers(h, topic, h.At(c).sid);
      AfterQueues(h, h1);
      AfterPost(h1, Sessions(h, rs), PeerMessage(m));
      var h2 := h1.Post(Sessions(h, rs), PeerMessage(m));
      AfterPost(h2, h2.Watchers(cfg, m, h.At(c).sid), WireMessage(m, |rs|, false));
    }
  }
}
