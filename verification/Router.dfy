/** The router as the program runs it: mutable tables over mutable connections and queues. Each
    method is proved to change the abstract state exactly as the value-level request does.

    A method comes in up to three layers, each with the part of the invariant that it can break. The
    one named as in the program checks the request and keeps Valid, the indexes included. Below it,
    one keeps Sound while connections, tables or queues change. The lowest changes the connections
    alone, keeps Clients, and knows nothing of tables and stores, which its frame leaves as they are. */
module RouterImpl {
  import opened Base
  import opened Messages
  import opened Addressing
  import opened Connections
  import opened Persistence
  import opened Store
  import opened Routing
  import opened Registry
  import opened Delivery
  import opened Plans

  class Router {
    const cfg: Config
    const dms: AddressableStore
    const topics: AddressableStore
    var connections: map<string, Connection>
    var byHome: map<string, set<string>>
    var aliasesByHome: AliasTable
    var topicSubs: map<string, set<string>>
    ghost var clients: set<Connection> // every connection ever accepted

    ghost var hub: Hub // the abstract state

    /** The tables are those of the abstract state. */
    ghost predicate Tables()
      reads this
    {
      && hub.connections == connections && hub.byHome == byHome
      && hub.aliases == aliasesByHome && hub.topicSubs == topicSubs
    }

    /** The queues and rings are those of the abstract state. */
    ghost predicate Queues()
      reads this, dms, topics
    {
      hub.dms == dms.contents && hub.topics == topics.contents
    }

    /** The fields of every connection are those of the abstract state. */
    ghost predicate Clients()
      reads this, clients
    {
      hub.conns.Keys == clients && forall c {:trigger c.Snapshot()} :: c in clients ==> hub.conns[c] == c.Snapshot()
    }

    /** The two stores are intact, agree with their disks, and share nothing with anybody. */
    ghost predicate Stores()
      reads this`clients, dms, dms.Repr, topics, topics.Repr
    {
      && dms.Valid() && dms.Rehydrated() && dms.config.maxlen == cfg.dmMax
      && topics.Valid() && topics.Rehydrated() && topics.config.maxlen == cfg.topicMax
      && dms.Repr !! topics.Repr && this !in dms.Repr && this !in topics.Repr
      && forall c :: c in clients ==> c as object !in dms.Repr && c as object !in topics.Repr
    }

    /** The objects that the stores own. */
    ghost function Footprint(): set<object>
      reads dms, topics
    {
      dms.Repr + topics.Repr
    }

    /** The concrete state is intact and is that of the abstract state. */
    ghost predicate Sound()
      reads this, clients, dms, dms.Repr, topics, topics.Repr
    {
      Stores() && Tables() && Clients() && Queues()
    }

    ghost predicate Valid()
      reads this, clients, dms, dms.Repr, topics, topics.Repr
    {
      Sound() && Indexed(hub)
    }

    constructor (cfg: Config, dms: AddressableStore, topics: AddressableStore)
      requires dms.Valid() && dms.Rehydrated() && dms.config.maxlen == cfg.dmMax
      requires topics.Valid() && topics.Rehydrated() && topics.config.maxlen == cfg.topicMax
      requires dms.Repr !! topics.Repr
      ensures Valid() && this.cfg == cfg && this.dms == dms && this.topics == topics
      ensures hub == EMPTY_HUB.(dms := dms.contents, topics := topics.contents)
    {
      hub := EMPTY_HUB.(dms := dms.contents, topics := topics.contents);
      this.cfg, this.dms, this.topics := cfg, dms, topics;
      connections, byHome, aliasesByHome, topicSubs := map[], map[], map[], map[];
      clients := {};
      new;
      NobodyIndexed(hub);
      hide Indexed, AddressableStore.Valid, StoreConfig.Rehydrated;
    }

    // -------------------------------------------------------------- delivery loops

    /** Enqueues one frame on one connection. */
    method Notify(conn: Connection, f: Frame)
      requires Clients() && conn in clients
      modifies conn`outbox, this`hub
      ensures Clients()
      ensures hub == old(hub).Put(conn, old(hub).At(conn).Enqueue(f))
    {
      ghost var k := conn.Snapshot();
      conn.Enqueue(f);
      assert conn.Snapshot() == k.Enqueue(f);
      hub := hub.Put(conn, k.Enqueue(f));
    }

    method BroadcastLoop(f: Frame, exclude: Option<string>)
      requires Tables() && Clients() && SidsIndexed(hub)
      modifies clients`outbox, this`hub
      ensures Tables() && Clients()
      ensures hub == old(hub).Post(old(hub).Others(exclude), f)
    {
      ghost var h := hub;
      var sids := ListOf(connections.Keys);
      ghost var trail := BroadcastTrail(h, sids, exclude, f);
      for i := 0 to |sids|
        invariant Clients() && hub == trail[i]
      {
        assert Served(h, sids[i], Some(sids[i]) != exclude, f, trail[i], trail[i + 1]);
        if exclude != Some(sids[i]) {
          var conn := connections[sids[i]];
          assert hub.At(conn) == conn.Snapshot();
          if conn.sid.Some? {
            Notify(conn, f);
          }
        }
      }
    }

    method FanoutLoop(m: Message, delivered: nat, queued: bool, sender: Option<string>)
      requires Tables() && Clients() && SidsIndexed(hub)
      modifies clients`outbox, this`hub
      ensures Tables() && Clients()
      ensures hub == old(hub).Post(old(hub).Watchers(cfg, m, sender), WireMessage(m, delivered, queued))
    {
      ghost var h := hub;
      var f := WireMessage(m, delivered, queued);
      var sids := ListOf(connections.Keys);
      ghost var trail := WatchTrail(cfg, h, sids, m, sender, f);
      for i := 0 to |sids|
        invariant Clients() && hub == trail[i]
      {
        var watcher := connections[sids[i]];
        assert Served(h, sids[i], Watches(cfg, h, sids[i], m, sender), f, trail[i], trail[i + 1]);
        assert hub.At(watcher) == watcher.Snapshot();
        if sender != Some(sids[i]) && watcher.MatchesWireFilter(cfg.matches, m.fromAddr, m.to) {
          Notify(watcher, f);
        }
      }
    }

    /** The delivery loop of `send`. */
    method DirectLoop(sids: seq<string>, m: Message, sender: Option<string>) returns (delivered: nat)
      requires Tables() && Clients() && SidsIndexed(hub) && Distinct(sids)
      modifies clients`outbox, this`hub
      ensures Tables() && Clients()
      ensures var rs := DueDirect(cfg, old(hub), sids, m, sender);
        delivered == |rs| && hub == old(hub).Post(Sessions(old(hub), rs), PeerMessage(m))
    {
      ghost var h := hub;
      var f := PeerMessage(m);
      ghost var trail, counts := DirectTrail(cfg, h, sids, m, sender, f);
      delivered := 0;
      for i := 0 to |sids|
        invariant Clients() && hub == trail[i] && delivered == counts[i]
      {
        assert Served(h, sids[i], IsDueDirect(cfg, h, sids[i], m, sender), f, trail[i], trail[i + 1]);
        if Some(sids[i]) != sender && sids[i] in connections {
          var target := connections[sids[i]];
          assert hub.At(target) == target.Snapshot();
          if target.MatchesDmFilter(cfg.matches, m.fromAddr) {
            Notify(target, f);
            delivered := delivered + 1;
          }
        }
      }
    }

    // -------------------------------------------------------------- queues

    /** Enqueues the messages that pass the filter of the connection, in order. */
    method HandOver(conn: Connection, msgs: seq<Message>)
      requires Clients() && conn in clients
      modifies conn`outbox, this`hub
      ensures Clients()
      ensures hub == HandedOver(old(hub), conn, cfg.Accepted(old(hub).At(conn), msgs))
    {
      ghost var trail := DrainTrail(cfg, hub, conn, msgs);
      for i := 0 to |msgs|
        invariant Clients() && hub == trail[i]
      {
        assert Handed(conn, msgs[i], cfg.Accepts(trail[i].At(conn), msgs[i]), trail[i], trail[i + 1]);
        assert hub.At(conn) == conn.Snapshot();
        if conn.MatchesDmFilter(cfg.matches, msgs[i].fromAddr) {
          Notify(conn, PeerMessage(msgs[i]));
        }
      }
    }

    /** Empties a nonempty queue. */
    method TakeQueue(address: string) returns (msgs: seq<Message>)
      requires Stores() && Tables() && Clients() && address in dms.contents
      modifies dms.Repr
      ensures Stores() && Tables() && Clients() && dms.Repr == old(dms.Repr)
      ensures msgs == old(dms.contents)[address]
      ensures dms.contents == old(dms.contents)[address := []]
      ensures unchanged(this) && topics.contents == old(topics.contents)
      ensures Footprint() == old(Footprint())
    {
      assert dms.Alone(address);
      msgs := dms.DrainAt(address);
    }

    ghost method RecordQueues()
      requires Stores() && Tables() && Clients()
      modifies this`hub
      ensures Sound()
      ensures hub == old(hub).(dms := dms.contents, topics := topics.contents)
    {
      hub := hub.(dms := dms.contents, topics := topics.contents);
    }

    method DeliverQueue(conn: Connection, msgs: seq<Message>)
      requires Sound() && conn in clients
      modifies conn`outbox, this`hub
      ensures Sound()
      ensures hub == HandedOver(old(hub), conn, cfg.Accepted(old(hub).At(conn), msgs))
    {
      HandOver(conn, msgs);
    }

    method EmptyQueue(address: string) returns (msgs: seq<Message>)
      requires Sound() && address in dms.contents
      modifies this`hub, dms.Repr
      ensures Sound() && dms.Repr == old(dms.Repr)
      ensures msgs == old(hub).dms[address]
      ensures hub == old(hub).(dms := old(hub).dms[address := []])
      ensures clients == old(clients)
      ensures Footprint() == old(Footprint())
    {
      msgs := TakeQueue(address);
      RecordQueues();
    }

    method HasQueued(address: string) returns (r: bool)
      requires Sound()
      ensures r <==> address in hub.dms && hub.dms[address] != []
      ensures r ==> address in dms.contents
    {
      r := dms.HasMessages(address);
    }

    method DrainDmQueue(conn: Connection, address: string)
      requires Sound() && conn in clients
      modifies conn`outbox, this`hub, dms.Repr
      ensures Sound() && clients == old(clients) && dms.Repr == old(dms.Repr)
      ensures hub == Drain(cfg, old(hub), conn, address)
      ensures Footprint() == old(Footprint())
    {
      hide *;
      DrainPlan(cfg, hub, conn, address);
      var pending := HasQueued(address);
      if pending {
        var msgs := EmptyQueue(address);
        DeliverQueue(conn, msgs);
      }
    }

    method Broadcast(f: Frame, exclude: Option<string>)
      requires Sound() && SidsIndexed(hub)
      modifies clients`outbox, this`hub
      ensures Sound()
      ensures hub == old(hub).Post(old(hub).Others(exclude), f)
    {
      BroadcastLoop(f, exclude);
    }

    method FanoutToWatchers(m: Message, delivered: nat, queued: bool, sender: Option<string>)
      requires Sound() && SidsIndexed(hub)
      modifies clients`outbox, this`hub
      ensures Sound()
      ensures hub == old(hub).Post(old(hub).Watchers(cfg, m, sender), WireMessage(m, delivered, queued))
      ensures Footprint() == old(Footprint())
    {
      FanoutLoop(m, delivered, queued, sender);
    }

    method DeliverDirect(sids: seq<string>, m: Message, sender: Option<string>) returns (delivered: nat)
      requires Sound() && SidsIndexed(hub) && Distinct(sids)
      modifies clients`outbox, this`hub
      ensures Sound() && clients == old(clients) && dms.Repr == old(dms.Repr) && dms.state == old(dms.state)
      ensures var rs := DueDirect(cfg, old(hub), sids, m, sender);
        delivered == |rs| && hub == old(hub).Post(Sessions(old(hub), rs), PeerMessage(m))
      ensures Footprint() == old(Footprint())
    {
      delivered := DirectLoop(sids, m, sender);
    }

    // -------------------------------------------------------------- connection lifecycle

    method AddToTables(conn: Connection, sid: string, home: string)
      requires Tables() && Clients() && conn in clients
      modifies this`connections, this`byHome, this`hub, conn`sid, conn`home
      ensures Tables() && Clients()
      ensures hub == Register(old(hub), conn, sid, home)
    {
      ghost var k := conn.Snapshot();
      conn.sid, conn.home := Some(sid), Some(home);
      connections := connections[sid := conn];
      var members := if home in byHome then byHome[home] else {};
      byHome := byHome[home := members + {sid}];
      assert conn.Snapshot() == k.(sid := Some(sid), home := Some(home));
      hub := Register(hub, conn, sid, home);
    }

    method AddSession(conn: Connection, sid: string, home: string)
      requires Sound() && conn in clients
      modifies this`connections, this`byHome, this`hub, conn`sid, conn`home
      ensures Sound()
      ensures hub == Register(old(hub), conn, sid, home)
    {
      AddToTables(conn, sid, home);
    }

    method Hello(conn: Connection, sid: string, home: string, ts: real) returns (r: Outcome)
      requires Valid() && conn in clients && Consistent(hub, conn) && hub.At(conn).sid.None?
      modifies this, clients, dms.Repr
      ensures Valid() && clients == old(clients)
      ensures (hub, r) == Routing.Hello(cfg, old(hub), conn, sid, home, ts)
      ensures Footprint() == old(Footprint())
    {
      if sid in connections {
        return Err(SID_IN_USE);
      }
      Join(conn, sid, home, ts);
      r := Ok(HelloReply(home, sid));
    }

    method Join(conn: Connection, sid: string, home: string, ts: real)
      requires Sound() && Indexed(hub) && conn in clients
      requires Consistent(hub, conn) && hub.At(conn).sid.None? && sid !in hub.connections
      modifies this, clients, dms.Repr
      ensures Sound() && Indexed(hub) && clients == old(clients)
      ensures hub == Routing.Hello(cfg, old(hub), conn, sid, home, ts).0
      ensures Footprint() == old(Footprint())
    {
      hide *;
      ghost var h1, h2, h3 := HelloPlan(cfg, hub, conn, sid, home, ts);
      AddSession(conn, sid, home);
      DrainDmQueue(conn, HomeKey(home));
      DrainDmQueue(conn, DirectKey(home, sid));
      Broadcast(PeerJoined(home, sid, ts), Some(sid));
    }

    /** Takes the session out of one topic. */
    method LeaveTopic(topic: string, sid: string)
      modifies this`topicSubs
      ensures topicSubs == Expel(old(topicSubs), topic, sid)
    {
      if topic in topicSubs {
        var subs := topicSubs[topic] - {sid};
        topicSubs := if subs == {} then topicSubs - {topic} else topicSubs[topic := subs];
      }
    }

    method LeaveTopics(topics: set<string>, sid: string)
      modifies this`topicSubs
      ensures topicSubs == ExpelAll(old(topicSubs), topics, sid)
    {
      var list := ListOf(topics);
      ghost var trail := ExpelTrail(topicSubs, list, sid);
      for i := 0 to |list|
        invariant topicSubs == trail[i]
      {
        LeaveTopic(list[i], sid);
      }
      assert (set k | k in list) == topics;
    }

    method LeaveHome(home: string, sid: string)
      modifies this`byHome
      ensures byHome == Expel(old(byHome), home, sid)
    {
      if home in byHome {
        var sids := byHome[home] - {sid};
        byHome := if sids == {} then byHome - {home} else byHome[home := sids];
      }
    }

    method ReleaseAlias(home: string, alias: Option<string>, sid: string)
      modifies this`aliasesByHome
      ensures aliasesByHome == LeaveIn(old(aliasesByHome), home, alias, sid)
    {
      if alias.Some? && home in aliasesByHome {
        var aliases := aliasesByHome[home];
        if alias.value in aliases && aliases[alias.value] == sid {
          aliases := aliases - {alias.value};
          aliasesByHome := if aliases == map[] then aliasesByHome - {home} else aliasesByHome[home := aliases];
        }
      }
    }

    method RemoveFromTables(conn: Connection, sid: string, home: string)
      requires Tables() && Clients() && conn in clients
      requires hub.At(conn).sid == Some(sid) && hub.At(conn).home == Some(home)
      modifies this`connections, this`byHome, this`aliasesByHome, this`topicSubs, this`hub, conn`subscriptions
      ensures Tables() && Clients()
      ensures hub == Unregister(old(hub), conn)
    {
      ghost var k := conn.Snapshot();
      connections := connections - {sid};
      LeaveHome(home, sid);
      ReleaseAlias(home, conn.alias, sid);
      LeaveTopics(conn.subscriptions, sid);
      conn.subscriptions := {};
      assert conn.Snapshot() == k.(subs := {});
      hub := Unregister(hub, conn);
    }

    method RemoveSession(conn: Connection, sid: string, home: string)
      requires Sound() && conn in clients
      requires hub.At(conn).sid == Some(sid) && hub.At(conn).home == Some(home)
      modifies this`connections, this`byHome, this`aliasesByHome, this`topicSubs, this`hub, conn`subscriptions
      ensures Sound()
      ensures hub == Unregister(old(hub), conn)
    {
      RemoveFromTables(conn, sid, home);
    }

    /** Also of a connection whose session id somebody else has taken over: what it then does to the
        other one is what the abstract goodbye does. */
    method Goodbye(conn: Connection, ts: real)
      requires Sound() && SidsIndexed(hub) && conn in clients
      requires hub.At(conn).sid.Some? ==> hub.At(conn).home.Some?
      modifies this, clients
      ensures Sound() && SidsIndexed(hub) && clients == old(clients)
      ensures hub == Routing.Goodbye(old(hub), conn, ts)
      ensures old(Indexed(hub) && Consistent(hub, conn)) ==> Valid()
      ensures Footprint() == old(Footprint())
    {
      hide TablesAgree;
      assert conn.Snapshot() == hub.At(conn);
      if Indexed(hub) && Consistent(hub, conn) {
        GoodbyeKeeps(hub, conn, ts);
      }
      if conn.sid.None? {
        return;
      }
      Leave(conn, conn.sid.value, conn.home.value, conn.alias, ts);
    }

    method Leave(conn: Connection, sid: string, home: string, alias: Option<string>, ts: real)
      requires Sound() && SidsIndexed(hub) && conn in clients && conn in hub.conns
      requires hub.At(conn).sid == Some(sid) && hub.At(conn).home == Some(home) && hub.At(conn).alias == alias
      modifies this, clients
      ensures Sound() && SidsIndexed(hub) && clients == old(clients)
      ensures hub == Routing.Goodbye(old(hub), conn, ts)
    {
      hide *;
      ghost var h1 := GoodbyePlan(hub, conn, ts);
      RemoveSession(conn, sid, home);
      Broadcast(PeerLeft(home, sid, alias, ts), Some(sid));
    }

    // -------------------------------------------------------------- aliases

    method EnsureHome(home: string)
      requires Sound()
      modifies this`aliasesByHome, this`hub
      ensures Sound()
      ensures hub == old(hub).(aliases := WithHome(old(hub).aliases, home))
    {
      AddInnerTable(home);
    }

    method AddInnerTable(home: string)
      requires Tables() && Clients()
      modifies this`aliasesByHome, this`hub
      ensures Tables() && Clients()
      ensures hub == old(hub).(aliases := WithHome(old(hub).aliases, home))
    {
      if home !in aliasesByHome {
        aliasesByHome := aliasesByHome[home := map[]];
      }
      hub := hub.(aliases := WithHome(hub.aliases, home));
    }

    method AliasOwner(home: string, alias: string) returns (owner: Option<string>)
      requires Sound()
      ensures owner == Holder(hub.aliases, home, alias)
    {
      owner := if home in aliasesByHome && alias in aliasesByHome[home]
               then Some(aliasesByHome[home][alias]) else None;
    }

    /** Releases the previous alias and records the chosen one in the inner table of the home. */
    method ReplaceAlias(home: string, previous: Option<string>, sid: string, chosen: Option<string>)
      requires home in aliasesByHome
      modifies this`aliasesByHome
      ensures aliasesByHome == RenameIn(old(aliasesByHome), home, previous, sid, chosen)
    {
      var aliases := aliasesByHome[home];
      if previous.Some? && previous.value in aliases && aliases[previous.value] == sid {
        aliases := aliases - {previous.value};
      }
      if chosen.Some? {
        aliases := aliases[chosen.value := sid];
      }
      aliasesByHome := if aliases == map[] then aliasesByHome - {home} else aliasesByHome[home := aliases];
    }

    method SwapAlias(conn: Connection, sid: string, home: string, chosen: Option<string>)
      requires Tables() && Clients() && conn in clients && home in hub.aliases
      requires hub.At(conn).sid == Some(sid) && hub.At(conn).home == Some(home)
      modifies this`aliasesByHome, this`hub, conn`alias
      ensures Tables() && Clients()
      ensures hub == Rename(old(hub), conn, chosen)
    {
      ghost var k := conn.Snapshot();
      ReplaceAlias(home, conn.alias, sid, chosen);
      conn.alias := chosen;
      assert conn.Snapshot() == k.(alias := chosen);
      hub := Rename(hub, conn, chosen);
    }

    method ChangeAlias(conn: Connection, sid: string, home: string, chosen: Option<string>)
      requires Sound() && conn in clients && home in hub.aliases
      requires hub.At(conn).sid == Some(sid) && hub.At(conn).home == Some(home)
      modifies this`aliasesByHome, this`hub, conn`alias
      ensures Sound()
      ensures hub == Rename(old(hub), conn, chosen)
    {
      SwapAlias(conn, sid, home, chosen);
    }

    method SetAlias(conn: Connection, alias: string, ts: real) returns (r: Outcome)
      requires Valid() && conn in clients && Consistent(hub, conn)
      modifies this, clients, dms.Repr
      ensures Valid() && clients == old(clients)
      ensures (hub, r) == Routing.SetAlias(cfg, old(hub), conn, alias, ts)
      ensures Footprint() == old(Footprint())
    {
      assert conn.Snapshot() == hub.At(conn);
      if conn.sid.None? {
        return Err(HELLO_REQUIRED);
      }
      assert hub.At(conn).home.Some?;
      r := Claim(conn, conn.sid.value, conn.home.value, conn.alias, alias, ts);
    }

    method Claim(conn: Connection, sid: string, home: string, previous: Option<string>, alias: string, ts: real)
      returns (r: Outcome)
      requires Sound() && Indexed(hub) && conn in clients && Consistent(hub, conn)
      requires hub.At(conn).sid == Some(sid) && hub.At(conn).home == Some(home) && hub.At(conn).alias == previous
      modifies this, clients, dms.Repr
      ensures Sound() && Indexed(hub) && clients == old(clients)
      ensures (hub, r) == Routing.SetAlias(cfg, old(hub), conn, alias, ts)
      ensures Footprint() == old(Footprint())
    {
      hide *;
      ghost var h0 := RejectPlan(cfg, hub, conn, alias, ts);
      EnsureHome(home);
      if alias != "" {
        if !IsValidAlias(alias) {
          return Err(INVALID_PARAMS);
        }
        var owner := AliasOwner(home, alias);
        if owner.Some? && owner.value != sid {
          return Err(ALIAS_TAKEN);
        }
      }
      var chosen := if alias == "" then None else Some(alias);
      Adopt(conn, sid, home, previous, chosen, ts);
      r := Ok(AliasReply(chosen));
    }

    method Adopt(conn: Connection, sid: string, home: string, previous: Option<string>,
                 chosen: Option<string>, ts: real)
      requires Sound() && Indexed(hub) && conn in clients && IsRegistered(hub, conn) && home in hub.aliases
      requires hub.At(conn).sid == Some(sid) && hub.At(conn).home == Some(home) && hub.At(conn).alias == previous
      requires chosen.Some? ==> Holder(hub.aliases, home, chosen.value) in {None, Some(sid)}
      modifies this, clients, dms.Repr
      ensures Sound() && Indexed(hub) && clients == old(clients)
      ensures hub == Adopted(cfg, old(hub), conn, chosen, ts)
      ensures Footprint() == old(Footprint())
    {
      hide *;
      ghost var h1, h2 := AdoptPlan(cfg, hub, conn, chosen, ts);
      ChangeAlias(conn, sid, home, chosen);
      if chosen.Some? && chosen != previous {
        DrainDmQueue(conn, DirectKey(home, chosen.value));
      }
      Broadcast(AliasChanged(home, sid, chosen, previous, ts), None);
    }

    // -------------------------------------------------------------- filters

    method SetDmFilter(conn: Connection, patterns: seq<string>) returns (r: Outcome)
      requires Valid() && conn in clients
      modifies this`hub, conn`dmFilter
      ensures Valid()
      ensures (hub, r) == Routing.SetDmFilter(old(hub), conn, patterns)
      ensures clients == old(clients) && Footprint() == old(Footprint())
    {
      hide Indexed, AddressableStore.Valid, StoreConfig.Rehydrated;
      assert conn.Snapshot() == hub.At(conn);
      FilterKeeps(hub, Routing.SetDmFilter(hub, conn, patterns).0, conn);
      if conn.sid.None? {
        return Err(HELLO_REQUIRED);
      }
      StoreDmFilter(conn, patterns);
      r := Ok(FilterReply(patterns));
    }

    method StoreDmFilter(conn: Connection, patterns: seq<string>)
      requires Sound() && conn in clients
      modifies this`hub, conn`dmFilter
      ensures Sound()
      ensures hub == old(hub).Put(conn, old(hub).At(conn).(dmFilter := patterns))
    {
      AssignDmFilter(conn, patterns);
    }

    method AssignDmFilter(conn: Connection, patterns: seq<string>)
      requires Clients() && conn in clients
      modifies this`hub, conn`dmFilter
      ensures Clients()
      ensures hub == old(hub).Put(conn, old(hub).At(conn).(dmFilter := patterns))
    {
      ghost var k := conn.Snapshot();
      conn.dmFilter := patterns;
      assert conn.Snapshot() == k.(dmFilter := patterns);
      hub := hub.Put(conn, k.(dmFilter := patterns));
    }

    method Watch(conn: Connection, kinds: Option<seq<string>>, fromFilter: Option<seq<string>>,
                 toFilter: Option<seq<string>>) returns (r: Outcome)
      requires Valid() && conn in clients
      modifies this`hub, conn`wireFromFilter, conn`wireToFilter
      ensures Valid()
      ensures (hub, r) == Routing.Watch(old(hub), conn, kinds, fromFilter, toFilter)
      ensures clients == old(clients) && Footprint() == old(Footprint())
    {
      hide Indexed, AddressableStore.Valid, StoreConfig.Rehydrated;
      assert conn.Snapshot() == hub.At(conn);
      FilterKeeps(hub, Routing.Watch(hub, conn, kinds, fromFilter, toFilter).0, conn);
      if conn.sid.None? {
        return Err(HELLO_REQUIRED);
      }
      if kinds.Some? && exists s :: s in kinds.value && s != "messages" {
        return Err(INVALID_PARAMS);
      }
      var from := if fromFilter.Some? then fromFilter.value else ["*"];
      var to := if toFilter.Some? then toFilter.value else ["*"];
      StoreWireFilter(conn, Some(from), to);
      r := Ok(WatchReply(true));
    }

    method Unwatch(conn: Connection) returns (r: Outcome)
      requires Valid() && conn in clients
      modifies this`hub, conn`wireFromFilter, conn`wireToFilter
      ensures Valid()
      ensures (hub, r) == Routing.Unwatch(old(hub), conn)
      ensures clients == old(clients) && Footprint() == old(Footprint())
    {
      hide Indexed, AddressableStore.Valid, StoreConfig.Rehydrated;
      assert conn.Snapshot() == hub.At(conn);
      FilterKeeps(hub, Routing.Unwatch(hub, conn).0, conn);
      if conn.sid.None? {
        return Err(HELLO_REQUIRED);
      }
      StoreWireFilter(conn, None, ["*"]);
      r := Ok(WatchReply(false));
    }

    method StoreWireFilter(conn: Connection, from: Option<seq<string>>, to: seq<string>)
      requires Sound() && conn in clients
      modifies this`hub, conn`wireFromFilter, conn`wireToFilter
      ensures Sound()
      ensures hub == old(hub).Put(conn, old(hub).At(conn).(wireFrom := from, wireTo := to))
    {
      AssignWireFilter(conn, from, to);
    }

    method AssignWireFilter(conn: Connection, from: Option<seq<string>>, to: seq<string>)
      requires Clients() && conn in clients
      modifies this`hub, conn`wireFromFilter, conn`wireToFilter
      ensures Clients()
      ensures hub == old(hub).Put(conn, old(hub).At(conn).(wireFrom := from, wireTo := to))
    {
      ghost var k := conn.Snapshot();
      conn.wireFromFilter, conn.wireToFilter := from, to;
      assert conn.Snapshot() == k.(wireFrom := from, wireTo := to);
      hub := hub.Put(conn, k.(wireFrom := from, wireTo := to));
    }

    // -------------------------------------------------------------- direct messages

    method ResolveDmRecipients(addr: Address) returns (sids: seq<string>)
      requires Sound() && SidsIndexed(hub) && addr.Home?
      ensures Distinct(sids) && (set s | s in sids) == Resolve(hub, addr)
    {
      if addr.disc.None? {
        sids := ListOf(if addr.home in byHome then byHome[addr.home] else {});
        return;
      }
      var d := addr.disc.value;
      var holder := AliasOwner(addr.home, d);
      if holder.Some? {
        return [holder.value];
      }
      if d in connections {
        var owner := connections[d];
        assert owner.Snapshot() == hub.At(owner);
        if owner.home == Some(addr.home) {
          return [d];
        }
      }
      return [];
    }

    /** `persistence.dms.get(to).append(msg)`. */
    method AppendDm(m: Message)
      requires Stores() && dms.config.Alone(dms.state.mem, m.to)
      modifies dms.Repr
      ensures Stores() && fresh(dms.Repr - old(dms.Repr))
      ensures dms.contents == Enqueue(old(dms.contents), m, cfg.dmMax)
      ensures unchanged(this) && topics.contents == old(topics.contents)
      ensures forall o :: o in Footprint() - old(Footprint()) ==> fresh(o)
    {
      ghost var disks := dms.AppendTo(m.to, m);
    }

    method QueueMessage(m: Message)
      requires Sound() && dms.config.Alone(dms.state.mem, m.to)
      modifies this`hub, dms.Repr
      ensures Sound() && clients == old(clients) && fresh(dms.Repr - old(dms.Repr))
      ensures hub == old(hub).(dms := Enqueue(old(hub).dms, m, cfg.dmMax))
      ensures forall o :: o in Footprint() - old(Footprint()) ==> fresh(o)
    {
      AppendDm(m);
      RecordQueues();
    }

    method Send(conn: Connection, to: string, body: Json, replyTo: Option<string>, id: string, ts: real)
      returns (r: Outcome)
      requires Valid() && conn in clients && dms.config.Alone(dms.state.mem, to)
      modifies this`hub, clients`outbox, dms.Repr
      ensures Valid() && clients == old(clients)
      ensures (hub, r) == Routing.Send(cfg, old(hub), conn, to, body, replyTo, id, ts)
      ensures forall o :: o in Footprint() - old(Footprint()) ==> fresh(o)
    {
      assert conn.Snapshot() == hub.At(conn);
      SendKeeps(cfg, hub, conn, to, body, replyTo, id, ts);
      if conn.sid.None? {
        return Err(HELLO_REQUIRED);
      }
      var parsed := ParseAddress(to);
      if parsed.Err? || parsed.value.Topic? {
        return Err(INVALID_PARAMS);
      }
      var from := "home:" + (if conn.home.Some? then conn.home.value else "") + "#" + conn.sid.value;
      var m := Message(id, from, conn.alias, to, body, replyTo, ts);
      r := Route(conn, parsed.value, m, conn.sid);
    }

    method Route(conn: Connection, addr: Address, m: Message, sender: Option<string>) returns (r: Outcome)
      requires Sound() && Indexed(hub) && addr.Home? && sender == hub.At(conn).sid
      requires dms.config.Alone(dms.state.mem, m.to)
      modifies this`hub, clients`outbox, dms.Repr
      ensures Sound() && clients == old(clients)
      ensures (hub, r) == Routed(cfg, old(hub), conn, addr, m)
      ensures forall o :: o in Footprint() - old(Footprint()) ==> fresh(o)
    {
      hide *;
      ghost var h1, h2, rs := RoutePlan(cfg, hub, conn, addr, m);
      var sids := ResolveDmRecipients(addr);
      DueIsReceivers(cfg, hub, conn, addr, m, sids);
      var delivered := DeliverDirect(sids, m, sender);
      var queued := delivered == 0;
      if queued {
        QueueMessage(m);
      }
      FanoutToWatchers(m, delivered, queued, sender);
      r := Ok(SendReply(m.id, delivered));
    }

    // -------------------------------------------------------------- topics

    method TopicLoop(sids: seq<string>, m: Message, sender: Option<string>) returns (delivered: nat)
      requires Tables() && Clients() && SidsIndexed(hub) && Distinct(sids)
      modifies clients`outbox, this`hub
      ensures Tables() && Clients()
      ensures var rs := DueTopic(old(hub), sids, sender);
        delivered == |rs| && hub == old(hub).Post(Sessions(old(hub), rs), PeerMessage(m))
    {
      ghost var h := hub;
      var f := PeerMessage(m);
      ghost var trail, counts := TopicTrail(h, sids, sender, f);
      delivered := 0;
      for i := 0 to |sids|
        invariant Clients() && hub == trail[i] && delivered == counts[i]
      {
        assert Served(h, sids[i], IsDueTopic(h, sids[i], sender), f, trail[i], trail[i + 1]);
        if Some(sids[i]) != sender && sids[i] in connections {
          Notify(connections[sids[i]], f);
          delivered := delivered + 1;
        }
      }
    }

    method DeliverTopic(sids: seq<string>, m: Message, sender: Option<string>) returns (delivered: nat)
      requires Sound() && SidsIndexed(hub) && Distinct(sids)
      modifies clients`outbox, this`hub
      ensures Sound() && clients == old(clients)
      ensures var rs := DueTopic(old(hub), sids, sender);
        delivered == |rs| && hub == old(hub).Post(Sessions(old(hub), rs), PeerMessage(m))
    {
      delivered := TopicLoop(sids, m, sender);
    }

    /** `persistence.topics.get(full_addr).append(msg)`. */
    method AppendTopic(m: Message)
      requires Stores() && topics.config.Alone(topics.state.mem, m.to)
      modifies topics.Repr
      ensures Stores() && fresh(topics.Repr - old(topics.Repr))
      ensures topics.contents == Enqueue(old(topics.contents), m, cfg.topicMax)
      ensures unchanged(this) && dms.contents == old(dms.contents)
      ensures forall o :: o in Footprint() - old(Footprint()) ==> fresh(o)
    {
      ghost var disks := topics.AppendTo(m.to, m);
    }

    method RingMessage(m: Message)
      requires Sound() && topics.config.Alone(topics.state.mem, m.to)
      modifies this`hub, topics.Repr
      ensures Sound() && clients == old(clients) && fresh(topics.Repr - old(topics.Repr))
      ensures hub == old(hub).(topics := Enqueue(old(hub).topics, m, cfg.topicMax))
      ensures forall o :: o in Footprint() - old(Footprint()) ==> fresh(o)
    {
      AppendTopic(m);
      RecordQueues();
    }

    method SubscribersOf(topic: string) returns (sids: seq<string>)
      requires Sound()
      ensures Distinct(sids) && (set s | s in sids) == Members(hub.topicSubs, topic)
    {
      sids := ListOf(if topic in topicSubs then topicSubs[topic] else {});
    }

    method Publish(conn: Connection, topic: string, body: Json, id: string, ts: real) returns (r: Outcome)
      requires Valid() && conn in clients && topics.config.Alone(topics.state.mem, TopicKey(topic))
      modifies this`hub, clients`outbox, topics.Repr
      ensures Valid() && clients == old(clients)
      ensures (hub, r) == Routing.Publish(cfg, old(hub), conn, topic, body, id, ts)
      ensures forall o :: o in Footprint() - old(Footprint()) ==> fresh(o)
    {
      assert conn.Snapshot() == hub.At(conn);
      PublishKeeps(cfg, hub, conn, topic, body, id, ts);
      if conn.sid.None? {
        return Err(HELLO_REQUIRED);
      }
      if ValidateTopic(topic).Err? {
        return Err(INVALID_PARAMS);
      }
      var from := "home:" + (if conn.home.Some? then conn.home.value else "") + "#" + conn.sid.value;
      var m := Message(id, from, conn.alias, TopicKey(topic), body, None, ts);
      r := Spread(conn, topic, m, conn.sid);
    }

    method Spread(conn: Connection, topic: string, m: Message, sender: Option<string>) returns (r: Outcome)
      requires Sound() && Indexed(hub) && sender == hub.At(conn).sid && m.to == TopicKey(topic)
      requires topics.config.Alone(topics.state.mem, m.to)
      modifies this`hub, clients`outbox, topics.Repr
      ensures Sound() && clients == old(clients)
      ensures (hub, r) == Published(cfg, old(hub), conn, topic, m)
      ensures forall o :: o in Footprint() - old(Footprint()) ==> fresh(o)
    {
      hide *;
      ghost var h1, h2, rs := SpreadPlan(cfg, hub, conn, topic, m);
      RingMessage(m);
      var sids := SubscribersOf(topic);
      DueIsSubscribers(hub, topic, sids, sender);
      var delivered := DeliverTopic(sids, m, sender);
      FanoutToWatchers(m, delivered, false, sender);
      r := Ok(PublishReply(m.id, delivered));
    }

    method AddSubscription(conn: Connection, topic: string, sid: string)
      requires Sound() && conn in clients && hub.At(conn).sid == Some(sid)
      modifies this`topicSubs, this`hub, conn`subscriptions
      ensures Sound() && clients == old(clients)
      ensures hub == Subscribed(old(hub), conn, topic)
      ensures Footprint() == old(Footprint())
    {
      EnterTopic(conn, topic, sid);
    }

    method EnterTopic(conn: Connection, topic: string, sid: string)
      requires Tables() && Clients() && conn in clients && hub.At(conn).sid == Some(sid)
      modifies this`topicSubs, this`hub, conn`subscriptions
      ensures Tables() && Clients()
      ensures hub == Subscribed(old(hub), conn, topic)
    {
      ghost var k := conn.Snapshot();
      var subs := if topic in topicSubs then topicSubs[topic] else {};
      topicSubs := topicSubs[topic := subs + {sid}];
      conn.subscriptions := conn.subscriptions + {topic};
      assert conn.Snapshot() == k.(subs := k.subs + {topic});
      hub := Subscribed(hub, conn, topic);
    }

    /** `list(persistence.topics.get(full_addr))`. */
    method ReadTopic(address: string) returns (msgs: seq<Message>)
      requires Stores() && topics.config.Alone(topics.state.mem, address)
      modifies topics
      ensures Stores() && fresh(topics.Repr - old(topics.Repr))
      ensures topics.contents == old(topics.contents)[address := msgs]
      ensures msgs == QueueAt(old(topics.contents), address)
      ensures unchanged(this) && dms.contents == old(dms.contents)
      ensures forall o :: o in Footprint() - old(Footprint()) ==> fresh(o)
    {
      var buf := topics.Get(address);
      assert topics.Holds(address);
      msgs := buf.deque;
    }

    method ReadRing(address: string) returns (msgs: seq<Message>)
      requires Sound() && topics.config.Alone(topics.state.mem, address)
      modifies this`hub, topics
      ensures Sound() && clients == old(clients) && fresh(topics.Repr - old(topics.Repr))
      ensures msgs == QueueAt(old(hub).topics, address)
      ensures hub == old(hub).(topics := old(hub).topics[address := msgs])
      ensures forall o :: o in Footprint() - old(Footprint()) ==> fresh(o)
    {
      msgs := ReadTopic(address);
      RecordQueues();
    }

    method ReplayLoop(conn: Connection, msgs: seq<Message>)
      requires Clients() && conn in clients
      modifies conn`outbox, this`hub
      ensures Clients()
      ensures hub == HandedOver(old(hub), conn, msgs)
    {
      ghost var trail := ReplayTrail(hub, conn, msgs);
      for i := 0 to |msgs|
        invariant Clients() && hub == trail[i]
      {
        assert Handed(conn, msgs[i], true, trail[i], trail[i + 1]);
        Notify(conn, PeerMessage(msgs[i]));
      }
    }

    method Replay(conn: Connection, msgs: seq<Message>)
      requires Sound() && conn in clients
      modifies conn`outbox, this`hub
      ensures Sound() && clients == old(clients)
      ensures hub == HandedOver(old(hub), conn, msgs)
      ensures Footprint() == old(Footprint())
    {
      ReplayLoop(conn, msgs);
    }

    method Subscribe(conn: Connection, topic: string, replay: int) returns (r: Outcome)
      requires Valid() && conn in clients && Consistent(hub, conn)
      requires topics.config.Alone(topics.state.mem, TopicKey(topic))
      modifies this`topicSubs, this`hub, conn`subscriptions, conn`outbox, topics
      ensures Valid() && clients == old(clients)
      ensures (hub, r) == Routing.Subscribe(old(hub), conn, topic, replay)
      ensures forall o :: o in Footprint() - old(Footprint()) ==> fresh(o)
    {
      assert conn.Snapshot() == hub.At(conn);
      SubscribeKeeps(hub, conn, topic, replay);
      if conn.sid.None? {
        return Err(HELLO_REQUIRED);
      }
      if ValidateTopic(topic).Err? || replay < 0 {
        return Err(INVALID_PARAMS);
      }
      Follow(conn, topic, conn.sid.value, replay);
      r := Ok(SubscribeReply(topic));
    }

    method Follow(conn: Connection, topic: string, sid: string, replay: nat)
      requires Sound() && conn in clients && hub.At(conn).sid == Some(sid)
      requires topics.config.Alone(topics.state.mem, TopicKey(topic))
      modifies this`topicSubs, this`hub, conn`subscriptions, conn`outbox, topics
      ensures Sound() && clients == old(clients)
      ensures hub == Followed(old(hub), conn, topic, replay)
      ensures forall o :: o in Footprint() - old(Footprint()) ==> fresh(o)
    {
      hide *;
      FollowPlan(hub, conn, topic, replay);
      AddSubscription(conn, topic, sid);
      if replay > 0 {
        var ring := ReadRing(TopicKey(topic));
        Replay(conn, LastN(ring, replay));
      }
    }

    method Unsubscribe(conn: Connection, topic: string) returns (r: Outcome)
      requires Valid() && conn in clients && Consistent(hub, conn)
      modifies this`topicSubs, this`hub, conn`subscriptions
      ensures Valid() && clients == old(clients)
      ensures (hub, r) == Routing.Unsubscribe(old(hub), conn, topic)
      ensures Footprint() == old(Footprint())
    {
      assert conn.Snapshot() == hub.At(conn);
      UnsubscribeKeeps(hub, conn, topic);
      if conn.sid.None? {
        return Err(HELLO_REQUIRED);
      }
      if ValidateTopic(topic).Err? {
        return Err(INVALID_PARAMS);
      }
      RemoveSubscription(conn, topic, conn.sid.value);
      r := Ok(UnsubscribeReply);
    }

    method RemoveSubscription(conn: Connection, topic: string, sid: string)
      requires Sound() && conn in clients && hub.At(conn).sid == Some(sid)
      modifies this`topicSubs, this`hub, conn`subscriptions
      ensures Sound() && clients == old(clients)
      ensures hub == Unsubscribed(old(hub), conn, topic)
    {
      ExitTopic(conn, topic, sid);
    }

    method ExitTopic(conn: Connection, topic: string, sid: string)
      requires Tables() && Clients() && conn in clients && hub.At(conn).sid == Some(sid)
      modifies this`topicSubs, this`hub, conn`subscriptions
      ensures Tables() && Clients()
      ensures hub == Unsubscribed(old(hub), conn, topic)
    {
      ghost var k := conn.Snapshot();
      LeaveTopic(topic, sid);
      conn.subscriptions := conn.subscriptions - {topic};
      assert conn.Snapshot() == k.(subs := k.subs - {topic});
      hub := Unsubscribed(hub, conn, topic);
    }

    // -------------------------------------------------------------- history

    method History(conn: Connection, address: string, since: Option<string>, limit: int) returns (r: Outcome)
      requires Valid() && conn in clients
      ensures (hub, r) == Routing.History(hub, conn, address, since, limit)
    {
      assert conn.Snapshot() == hub.At(conn);
      if conn.sid.None? {
        return Err(HELLO_REQUIRED);
      }
      if limit <= 0 || limit > 1000 {
        return Err(INVALID_PARAMS);
      }
      var parsed := ParseAddress(address);
      if parsed.Err? {
        return Err(INVALID_PARAMS);
      }
      var store := if parsed.value.Topic? then topics else dms;
      var page := PageOf(store, address, since, limit);
      r := Ok(HistoryReply(page));
    }

    /** A page of the buffer in memory, if there is one. */
    method PageOf(store: AddressableStore, address: string, since: Option<string>, limit: int)
      returns (page: seq<Message>)
      requires store.Valid() && limit > 0
      ensures page == Page(QueueAt(store.contents, address), since, limit)
    {
      if address !in store.buffers {
        return [];
      }
      assert store.Holds(address);
      page := store.buffers[address].History(since, limit);
    }

    // -------------------------------------------------------------- the server's side

    /** A connection accepted by the server. */
    method Accept(conn: Connection)
      requires Valid() && conn !in clients && conn as object !in dms.Repr && conn as object !in topics.Repr
      requires conn.Snapshot() == NEW_CONN
      modifies this`clients, this`hub
      ensures Valid() && clients == old(clients) + {conn}
      ensures hub == old(hub).Put(conn, NEW_CONN)
      ensures Footprint() == old(Footprint())
    {
      SameRegistryKeeps(hub, hub.Put(conn, NEW_CONN));
      Admit(conn);
    }

    method Admit(conn: Connection)
      requires Sound() && conn !in clients && conn as object !in dms.Repr && conn as object !in topics.Repr
      requires conn.Snapshot() == NEW_CONN
      modifies this`clients, this`hub
      ensures Sound() && clients == old(clients) + {conn}
      ensures hub == old(hub).Put(conn, NEW_CONN)
      ensures Footprint() == old(Footprint())
    {
      Enlist(conn);
    }

    method Enlist(conn: Connection)
      requires Clients() && conn !in clients && conn.Snapshot() == NEW_CONN
      modifies this`clients, this`hub
      ensures Clients() && clients == old(clients) + {conn}
      ensures hub == old(hub).Put(conn, NEW_CONN)
    {
      clients := clients + {conn};
      hub := hub.Put(conn, NEW_CONN);
    }

    method HasSaidHello(conn: Connection) returns (r: bool)
      requires Sound() && conn in clients
      ensures r == hub.At(conn).sid.Some?
    {
      assert conn.Snapshot() == hub.At(conn);
      r := conn.sid.Some?;
    }

    /** Puts a response into the outbox of a connection. */
    method Respond(conn: Connection, f: Frame)
      requires Valid() && conn in clients
      modifies conn`outbox, this`hub
      ensures Valid() && clients == old(clients) && Footprint() == old(Footprint())
      ensures hub == old(hub).Put(conn, old(hub).At(conn).Enqueue(f))
    {
      SameRegistryKeeps(hub, hub.Put(conn, hub.At(conn).Enqueue(f)));
      NotifyOne(conn, f);
    }

    method NotifyOne(conn: Connection, f: Frame)
      requires Sound() && conn in clients
      modifies conn`outbox, this`hub
      ensures Sound() && clients == old(clients) && Footprint() == old(Footprint())
      ensures hub == old(hub).Put(conn, old(hub).At(conn).Enqueue(f))
    {
      Notify(conn, f);
    }

    /** The connection is closed, by its handler or because writing to it failed. */
    method Shut(conn: Connection)
      requires Valid() && conn in clients
      modifies conn`closed, this`hub
      ensures Valid() && clients == old(clients) && Footprint() == old(Footprint())
      ensures hub == old(hub).Put(conn, old(hub).At(conn).(closed := true))
    {
      SameRegistryKeeps(hub, hub.Put(conn, hub.At(conn).(closed := true)));
      MarkClosed(conn);
    }

    method MarkClosed(conn: Connection)
      requires Sound() && conn in clients
      modifies conn`closed, this`hub
      ensures Sound() && clients == old(clients) && Footprint() == old(Footprint())
      ensures hub == old(hub).Put(conn, old(hub).At(conn).(closed := true))
    {
      CloseOne(conn);
    }

    method CloseOne(conn: Connection)
      requires Clients() && conn in clients
      modifies conn`closed, this`hub
      ensures Clients() && clients == old(clients)
      ensures hub == old(hub).Put(conn, old(hub).At(conn).(closed := true))
    {
      ghost var k := conn.Snapshot();
      conn.Close();
      assert conn.Snapshot() == k.(closed := true);
      hub := hub.Put(conn, k.(closed := true));
    }
  }

  /** A change of filters alone leaves the indexes right. */
  lemma FilterKeeps(h: Hub, g: Hub, c: Connection)
    requires Indexed(h) && c in h.conns
    requires var k := g.At(c);
      g == h || g == h.Put(c, h.At(c).(dmFilter := k.dmFilter, wireFrom := k.wireFrom, wireTo := k.wireTo))
    ensures Indexed(g)
  {
    SameRegistryKeeps(h, g);
  }

  /** Without sessions, empty tables are right. */
  lemma NobodyIndexed(h: Hub)
    requires h == EMPTY_HUB.(dms := h.dms, topics := h.topics)
    ensures Indexed(h)
  {
    assert Scan(h) == map[];
  }
}
