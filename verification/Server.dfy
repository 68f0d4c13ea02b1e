/** The server: one handler per connection, requests dispatched to the router, and a shutdown that
    waits for every handler. Each method is one step of the daemon. */
module ServerImpl {
  import opened Base
  import opened Addressing
  import opened Connections
  import opened Persistence
  import opened Store
  import StoreRuns
  import opened Routing
  import opened Registry
  import opened RouterImpl
  import opened Daemon
  import opened Invariant
  import opened Lifecycle
  import opened Queues
  import opened Topics

  class Server {
    const router: Router
    var handlers: set<Connection> // connections whose handler has not finished
    var closing: bool

    ghost function Snapshot(): System
      reads this, router
    {
      System(router.hub, handlers, closing)
    }

    ghost predicate Valid()
      reads this, router, router.clients, router.dms, router.dms.Repr, router.topics, router.topics.Repr
    {
      && router.Valid() && Well(Snapshot()) && handlers <= router.clients
      && this as object !in router.Footprint()
    }

    constructor (router: Router)
      requires router.Valid() && Booted(System(router.hub, {}, false))
      ensures Valid() && this.router == router
      ensures Snapshot() == System(router.hub, {}, false)
    {
      this.router, handlers, closing := router, {}, false;
    }

    /** The address hash does not make the request hit the file of another address. */
    ghost predicate NoCollision(req: Request)
      reads router, router.dms, router.topics
    {
      match req
      case ReqSend(dest, _, _, _, _) => router.dms.config.Alone(router.dms.state.mem, dest)
      case ReqPublish(topic, _, _, _) => router.topics.config.Alone(router.topics.state.mem, TopicKey(topic))
      case ReqSubscribe(topic, _) => router.topics.config.Alone(router.topics.state.mem, TopicKey(topic))
      case _ => true
    }

    // -------------------------------------------------------------- requests

    /** `_h_hello`. */
    method Greet(conn: Connection, sid: string, home: string, ts: real) returns (r: Outcome)
      requires router.Valid() && conn in router.clients && Consistent(router.hub, conn)
      modifies router, router.clients, router.dms.Repr
      ensures router.Valid() && router.clients == old(router.clients)
      ensures router.Footprint() == old(router.Footprint())
      ensures (router.hub, r) == Handle(router.cfg, old(router.hub), conn, ReqHello(sid, home, ts))
    {
      hide Router.Sound, Indexed;
      var said := router.HasSaidHello(conn);
      if said {
        return Err(INVALID_REQUEST);
      }
      if !IsValidSid(sid) || !IsNormalizedPath(home) {
        return Err(INVALID_PARAMS);
      }
      hide *;
      r := router.Hello(conn, sid, home, ts);
    }

    /** The handler of each method. */
    method Serve(conn: Connection, req: Request) returns (r: Outcome)
      requires router.Valid() && conn in router.clients && Consistent(router.hub, conn) && NoCollision(req)
      modifies router, router.clients, router.dms.Repr, router.topics, router.topics.Repr
      ensures router.Valid() && router.clients == old(router.clients)
      ensures forall o :: o in router.Footprint() - old(router.Footprint()) ==> fresh(o)
      ensures (router.hub, r) == Handle(router.cfg, old(router.hub), conn, req)
    {
      hide Router.Valid, Router.Sound, Consistent, Router.Footprint, StoreConfig.Alone;
      hide Hello, SetAlias, Send, Publish, Subscribe, Unsubscribe, History;
      hide Routing.SetDmFilter, Routing.Watch, Routing.Unwatch;
      hide IsValidSid, IsNormalizedPath;
      match req {
        case ReqHello(sid, home, ts) => r := Greet(conn, sid, home, ts);
        case ReqSetAlias(alias, ts) => r := router.SetAlias(conn, alias, ts);
        case ReqSetDmFilter(patterns) => r := router.SetDmFilter(conn, patterns);
        case ReqWatch(kinds, from, to) => r := router.Watch(conn, kinds, from, to);
        case ReqUnwatch => r := router.Unwatch(conn);
        case ReqSend(dest, body, replyTo, id, ts) => r := router.Send(conn, dest, body, replyTo, id, ts);
        case ReqPublish(topic, body, id, ts) => r := router.Publish(conn, topic, body, id, ts);
        case ReqSubscribe(topic, replay) => r := router.Subscribe(conn, topic, replay);
        case ReqUnsubscribe(topic) => r := router.Unsubscribe(conn, topic);
        case ReqHistory(address, since, limit) => r := router.History(conn, address, since, limit);
        case Refused(code) => r := Err(code);
      }
    }

    /** A response or an error, if the request carries an id. */
    method AnswerRequest(conn: Connection, requestId: Option<RequestId>, out: Outcome)
      requires router.Valid() && conn in router.clients
      modifies conn`outbox, router`hub
      ensures router.Valid() && router.clients == old(router.clients)
      ensures router.Footprint() == old(router.Footprint())
      ensures router.hub == old(router.hub).Put(conn, Answer(old(router.hub).At(conn), requestId, out))
    {
      if requestId.None? {
        assert router.hub.conns[conn := router.hub.At(conn)] == router.hub.conns;
        return;
      }
      match out {
        case Ok(reply) => router.Respond(conn, Response(requestId.value, reply));
        case Err(code) => router.Respond(conn, Failure(requestId.value, code));
      }
    }

    /** Serves a request and answers it. */
    method ServeAndAnswer(conn: Connection, requestId: Option<RequestId>, req: Request)
      requires router.Valid() && conn in router.clients && Consistent(router.hub, conn) && NoCollision(req)
      modifies router, router.clients, router.dms.Repr, router.topics, router.topics.Repr
      ensures router.Valid() && router.clients == old(router.clients)
      ensures forall o :: o in router.Footprint() - old(router.Footprint()) ==> fresh(o)
      ensures router.hub == Daemon.Dispatch(router.cfg, old(router.hub), conn, requestId, req)
    {
      hide Router.Valid, Router.Footprint, Consistent, Handle, Answer, Server.NoCollision;
      var out := Serve(conn, req);
      AnswerRequest(conn, requestId, out);
    }

    method Dispatch(conn: Connection, requestId: Option<RequestId>, req: Request)
      requires Valid() && conn in handlers && NoCollision(req)
      modifies router, router.clients, router.dms.Repr, router.topics, router.topics.Repr
      ensures Valid() && handlers == old(handlers) && closing == old(closing)
      ensures Snapshot() == Step(router.cfg, old(Snapshot()), Called(conn, requestId, req))
    {
      hide Router.Valid, Daemon.Dispatch, Server.NoCollision, ProperIdentity, Indexed;
      StepWell(router.cfg, Snapshot(), Called(conn, requestId, req));
      assert Consistent(router.hub, conn);
      hide Well, Consistent;
      ServeAndAnswer(conn, requestId, req);
      assert this as object !in router.Footprint() - old(router.Footprint());
    }

    // -------------------------------------------------------------- connections

    /** The start of a handler. During shutdown the connection is turned away. */
    method Accept(conn: Connection) returns (accepted: bool)
      requires Valid() && conn !in router.clients && conn as object !in router.Footprint()
      requires conn.Snapshot() == NEW_CONN
      requires conn !in router.hub.conns
      modifies this`handlers, router
      ensures Valid() && accepted == !old(closing)
      ensures router.clients == old(router.clients) + (if accepted then {conn} else {})
      ensures handlers == old(handlers) + (if accepted then {conn} else {}) && closing == old(closing)
      ensures Snapshot() == Step(router.cfg, old(Snapshot()), Accepted(conn))
    {
      hide Router.Valid, ProperIdentity, Indexed;
      StepWell(router.cfg, Snapshot(), Accepted(conn));
      hide Well;
      if closing {
        return false;
      }
      handlers := handlers + {conn};
      router.Accept(conn);
      accepted := true;
    }

    /** The end of a handler, however it comes about. */
    method Finish(conn: Connection, ts: real)
      requires Valid() && conn in handlers
      modifies this`handlers, router, router.clients
      ensures Valid() && handlers == old(handlers) - {conn} && closing == old(closing)
      ensures router.clients == old(router.clients)
      ensures Snapshot() == Step(router.cfg, old(Snapshot()), HungUp(conn, ts))
    {
      hide Router.Sound, ProperIdentity, TablesAgree, Goodbye, Scan;
      StepWell(router.cfg, Snapshot(), HungUp(conn, ts));
      assert Consistent(router.hub, conn) && conn in router.clients;
      assert router.hub.At(conn).sid.Some? ==> router.hub.At(conn).home.Some?;
      hide Well, Consistent, Indexed, Router.Valid;
      router.Goodbye(conn, ts);
      router.Shut(conn);
      handlers := handlers - {conn};
    }

    /** A write to the connection fails. */
    method WriteFails(conn: Connection)
      requires Valid() && conn in handlers
      modifies conn`closed, router`hub
      ensures Valid()
      ensures Snapshot() == Step(router.cfg, old(Snapshot()), WriteFailed(conn))
    {
      hide Router.Valid, ProperIdentity, Indexed;
      StepWell(router.cfg, Snapshot(), WriteFailed(conn));
      hide Well;
      router.Shut(conn);
    }

    // -------------------------------------------------------------- shutdown

    method BeginShutdown()
      requires Valid()
      modifies this`closing
      ensures Valid() && closing && handlers == old(handlers)
      ensures Snapshot() == Step(router.cfg, old(Snapshot()), ShutdownBegun)
    {
      StepWell(router.cfg, Snapshot(), ShutdownBegun);
      hide Router.Valid, Well;
      closing := true;
    }

    /** What can happen while the shutdown waits: writes fail, and late connections are turned away. */
    method Meanwhile(ghost start: System, ghost done: seq<Event>, ghost ended: set<Connection>,
                     ghost now: Connection -> real) returns (ghost es: seq<Event>)
      requires Valid() && closing
      requires Snapshot() == Run(router.cfg, start, done) && WindsDown(done, ended, now)
      modifies this`handlers, router, router.clients
      ensures Valid() && closing && handlers == old(handlers) && router.clients == old(router.clients)
      ensures Snapshot() == Run(router.cfg, start, es) && WindsDown(es, ended, now)
    {
      hide Router.Valid, Well, Step, Run, Router.Footprint, WindsDown;
      es := done;
      var times: nat :| true;
      for i := 0 to times
        invariant Valid() && closing && handlers == old(handlers) && router.clients == old(router.clients)
        invariant Snapshot() == Run(router.cfg, start, es) && WindsDown(es, ended, now)
      {
        ghost var e := Disturbance();
        RunOneMore(router.cfg, start, es, e);
        OneMoreDisturbance(es, ended, now, e);
        es := es + [e];
      }
    }

    method Disturbance() returns (ghost e: Event)
      requires Valid() && closing
      modifies this`handlers, router, router.clients
      ensures Valid() && closing && handlers == old(handlers) && router.clients == old(router.clients)
      ensures Snapshot() == Step(router.cfg, old(Snapshot()), e) && (e.WriteFailed? || e.Accepted?)
    {
      hide Router.Valid, Well;
      if
      case handlers != {} =>
        var conn :| conn in handlers;
        WriteFails(conn);
        e := WriteFailed(conn);
      case true =>
        var late := new Connection();
        var accepted := Accept(late);
        e := Accepted(late);
    }

    /** A round of cancelling ends some of the unfinished handlers, with anything happening in between. */
    method CancelSome(now: Connection -> real, ghost start: System, ghost all: set<Connection>, ghost done: seq<Event>)
      returns (ghost es: seq<Event>)
      requires Valid() && closing && handlers <= all && handlers != {}
      requires Snapshot() == Run(router.cfg, start, done) && WindsDown(done, all - handlers, now)
      modifies this`handlers, router, router.clients
      ensures Valid() && closing && handlers < old(handlers) && router.clients == old(router.clients)
      ensures Snapshot() == Run(router.cfg, start, es) && WindsDown(es, all - handlers, now)
    {
      hide Router.Valid, Well, Step, Run, Router.Footprint, WindsDown;
      var part :| part <= handlers && part != {};
      var pending := ListOf(part);
      es := done;
      for i := 0 to |pending|
        invariant Valid() && closing && router.clients == old(router.clients)
        invariant handlers <= all && handlers == old(handlers) - set c | c in pending[..i]
        invariant Snapshot() == Run(router.cfg, start, es) && WindsDown(es, all - handlers, now)
      {
        var conn := pending[i];
        es := Meanwhile(start, es, all - handlers, now);
        RunOneMore(router.cfg, start, es, HungUp(conn, now(conn)));
        OneMoreEnded(es, all - handlers, conn, now);
        assert pending[..i + 1] == pending[..i] + [conn];
        assert all - (handlers - {conn}) == (all - handlers) + {conn};
        Finish(conn, now(conn));
        es := es + [HungUp(conn, now(conn))];
      }
      assert pending[..|pending|] == pending;
    }

    /** Cancels unfinished handlers until there are none. Each of them runs its goodbye exactly once,
        and nothing live is left. */
    method Shutdown(now: Connection -> real) returns (ghost es: seq<Event>)
      requires Valid()
      modifies this`handlers, this`closing, router, router.clients
      ensures Valid() && closing && handlers == {}
      ensures Snapshot() == Run(router.cfg, old(Snapshot()), [ShutdownBegun] + es)
      ensures WindsDown(es, old(handlers), now)
      ensures router.connections == map[] && router.byHome == map[] && router.topicSubs == map[]
      ensures forall home, a :: Holder(router.aliasesByHome, home, a) == None
    {
      hide Router.Valid, Well, Step, Run, Router.Footprint;
      RunOneMore(router.cfg, Snapshot(), [], ShutdownBegun);
      assert [] + [ShutdownBegun] == [ShutdownBegun];
      BeginShutdown();
      ghost var start := Snapshot();
      es := [];
      RunOneMore(router.cfg, start, [], ShutdownBegun);
      assert old(handlers) - handlers == {};
      while handlers != {}
        invariant Valid() && closing && handlers <= old(handlers) && router.clients == old(router.clients)
        invariant Snapshot() == Run(router.cfg, start, es) && WindsDown(es, old(handlers) - handlers, now)
        decreases handlers
      {
        es := CancelSome(now, start, old(handlers), es);
      }
      RunConcat(router.cfg, old(Snapshot()), [ShutdownBegun], es);
      NothingLeft();
    }

    lemma NothingLeft()
      requires Valid() && handlers == {}
      ensures router.connections == map[] && router.byHome == map[] && router.topicSubs == map[]
      ensures forall home, a :: Holder(router.aliasesByHome, home, a) == None
    {
      WellIndexesAreScans(Snapshot());
      NothingLive(Snapshot());
      forall home, a
        ensures Holder(router.hub.aliases, home, a) == None
      {
        assert forall sid :: Holder(router.hub.aliases, home, a) != Some(sid);
      }
    }
  }

  /** What the theorems about runs ask of the state they start from holds of every intact router: its
      stores are in step with their disks, so its queues and rings are bounded and well labelled. */
  lemma ValidHub(router: Router)
    requires router.Valid()
    ensures Bounded(router.cfg, router.hub) && RingBounded(router.cfg, router.hub) && AllLabelled(router.hub)
  {
    StoreBounded(router.dms);
    StoreBounded(router.topics);
    hide AddressableStore.Valid, AddressableStore.Rehydrated, Router.Tables, Router.Clients, Indexed;
  }

  lemma StoreBounded(store: AddressableStore)
    requires store.Valid() && store.Rehydrated()
    ensures forall a :: a in store.contents ==> |store.contents[a]| <= store.config.maxlen
    ensures Labelled(store.contents)
  {
    forall a | a in store.contents
      ensures |store.contents[a]| <= store.config.maxlen
    {
      LoadIsWindow(FileAt(store.state.files, store.config.FileName(a)), store.config.maxlen);
    }
  }

  /** Loads one store from its directory, whatever is in there: each address gets the first file that
      heads to it. Memory and disk are in step iff the directory was well filed, and then each address
      has what its own file loads to. */
  method LoadStore(dir: Directory, config: StoreConfig, names: seq<string>) returns (store: AddressableStore)
    requires config.Listing(names, dir.files)
    modifies dir
    ensures fresh(store) && store.Valid() && store.config == config && store.dir == dir
    ensures fresh(store.Repr - {dir}) && dir in store.Repr
    ensures store.contents == StoreRuns.Contents(config.LoadAll(StoreState(map[], old(dir.files)), names))
    ensures config.ScannedFirst(store.state, old(dir.files), names)
    ensures store.Rehydrated() <==> config.WellFiled(old(dir.files))
    ensures config.WellFiled(old(dir.files)) ==>
      forall a :: QueueAt(store.contents, a)
               == if config.Owns(old(dir.files), a) then config.Stored(old(dir.files), a) else []
  {
    ghost var files := dir.files;
    config.ColdStartIff(files, names);
    config.ColdStartAnywhere(files, names);
    if config.WellFiled(files) {
      config.ColdStart(files, names);
    }
    store := new AddressableStore(dir, config);
    store.LoadAll(names);
    assert config.WellFiled(files) ==> config.Mirrors(store.state.mem, files);
    hide StoreConfig.LoadAll, StoreConfig.WellFiled, StoreConfig.Listing, StoreConfig.Rehydrated;
    hide StoreConfig.ScannedFirst;
  }

  /** The start of the daemon: both stores are read from disk, and nobody is connected. */
  method Boot(cfg: Config, hash: string -> string, dmDir: Directory, topicDir: Directory,
              dmNames: seq<string>, topicNames: seq<string>) returns (server: Server)
    requires dmDir != topicDir
    requires var d := StoreConfig(hash, cfg.dmMax); d.WellFiled(dmDir.files) && d.Listing(dmNames, dmDir.files)
    requires var t := StoreConfig(hash, cfg.topicMax);
      t.WellFiled(topicDir.files) && t.Listing(topicNames, topicDir.files)
    modifies dmDir, topicDir
    ensures fresh(server) && server.Valid() && Booted(server.Snapshot()) && server.router.cfg == cfg
    ensures var h := server.router.hub; Bounded(cfg, h) && RingBounded(cfg, h) && AllLabelled(h)
    ensures var d := StoreConfig(hash, cfg.dmMax);
      server.router.hub.dms == StoreRuns.Contents(d.LoadAll(StoreState(map[], old(dmDir.files)), dmNames))
    ensures var t := StoreConfig(hash, cfg.topicMax);
      server.router.hub.topics == StoreRuns.Contents(t.LoadAll(StoreState(map[], old(topicDir.files)), topicNames))
    ensures var d := StoreConfig(hash, cfg.dmMax);
      forall a :: QueueAt(server.router.hub.dms, a)
               == if d.Owns(old(dmDir.files), a) then d.Stored(old(dmDir.files), a) else []
    ensures var t := StoreConfig(hash, cfg.topicMax);
      forall a :: QueueAt(server.router.hub.topics, a)
               == if t.Owns(old(topicDir.files), a) then t.Stored(old(topicDir.files), a) else []
  {
    hide Router.Valid, Server.Valid, AddressableStore.Valid, AddressableStore.Rehydrated, QueueAt;
    hide StoreConfig.WellFiled, StoreConfig.Listing, StoreConfig.Owns, StoreConfig.Stored;
    var dms := LoadStore(dmDir, StoreConfig(hash, cfg.dmMax), dmNames);
    assert topicDir !in dms.Repr - {dmDir};
    assert topicDir !in dms.Repr;
    var topics := LoadStore(topicDir, StoreConfig(hash, cfg.topicMax), topicNames);
    assert dms.Valid() && dms.Rehydrated();
    forall o | o in dms.Repr
      ensures o !in topics.Repr
    {
      assert o !in topics.Repr - {topicDir};
    }
    var router := new Router(cfg, dms, topics);
    ValidHub(router);
    server := new Server(router);
  }

  /** What a cold start reads from a directory that scans like the one an intact store leaves behind. */
  lemma StoreReborn(store: AddressableStore, disk: Files, names: seq<string>)
    requires store.Valid() && store.Rehydrated()
    requires SameQueues(disk, store.dir.files) && store.config.Listing(names, disk)
    ensures store.config.WellFiled(disk)
    ensures StoreRuns.Contents(store.config.LoadAll(StoreState(map[], disk), names)) == NonEmpty(store.contents)
  {
    var sc := store.config;
    sc.Restart(store.state, disk, names);
    sc.ColdStartIff(disk, names);
    StoreRuns.RestoredHeld(sc, sc.LoadAll(StoreState(map[], disk), names), store.state);
    assert StoreRuns.Contents(store.state) == store.contents;
    hide StoreConfig.LoadAll, StoreConfig.WellFiled, StoreConfig.Rehydrated, StoreConfig.Listing, SameQueues;
  }

  /** A listing of a directory that scans like the one the store writes to. */
  ghost predicate LeftBehind(store: AddressableStore, disk: Files, names: seq<string>)
    reads store, store.dir
  {
    SameQueues(disk, store.dir.files) && store.config.Listing(names, disk)
  }

  /** A cold start over what an intact daemon leaves behind reads the queues and rings that the restart
      of the model keeps. */
  lemma RestartedIsReborn(router: Router, dmDisk: Files, dmNames: seq<string>,
                          topicDisk: Files, topicNames: seq<string>)
    requires router.Valid()
    requires LeftBehind(router.dms, dmDisk, dmNames) && LeftBehind(router.topics, topicDisk, topicNames)
    ensures var d := router.dms.config;
      && d.maxlen == router.cfg.dmMax && d.WellFiled(dmDisk)
      && StoreRuns.Contents(d.LoadAll(StoreState(map[], dmDisk), dmNames)) == Reborn(router.hub).dms
    ensures var t := router.topics.config;
      && t.maxlen == router.cfg.topicMax && t.WellFiled(topicDisk)
      && StoreRuns.Contents(t.LoadAll(StoreState(map[], topicDisk), topicNames)) == Reborn(router.hub).topics
  {
    hide StoreConfig.LoadAll, StoreConfig.WellFiled, StoreConfig.Listing, SameQueues, NonEmpty, AddressableStore.Valid;
    hide AddressableStore.Rehydrated, Router.Tables, Router.Clients, Indexed;
    StoreReborn(router.dms, dmDisk, dmNames);
    StoreReborn(router.topics, topicDisk, topicNames);
  }

  /** A restart: the new daemon has no sessions, and exactly the nonempty queues and rings of the old one. */
  method Restart(before: Server, dmDir: Directory, topicDir: Directory,
                 dmNames: seq<string>, topicNames: seq<string>) returns (after: Server)
    requires before.Valid() && dmDir != topicDir
    requires before.router.dms.config.hash == before.router.topics.config.hash
    requires LeftBehind(before.router.dms, dmDir.files, dmNames)
    requires LeftBehind(before.router.topics, topicDir.files, topicNames)
    modifies dmDir, topicDir
    ensures fresh(after) && after.Valid() && after.router.cfg == before.router.cfg
    ensures after.router.hub == Reborn(before.router.hub).(conns := map[])
    ensures after.Snapshot() == Step(before.router.cfg, before.Snapshot(), Restarted).(hub := after.router.hub)
  {
    hide Router.Valid, Well, StoreConfig.Listing, SameQueues, StoreRuns.Contents, NonEmpty, QueueAt;
    hide Bounded, RingBounded, AllLabelled;
    hide StoreConfig.LoadAll, StoreConfig.WellFiled, StoreConfig.Owns, StoreConfig.Stored;
    RestartedIsReborn(before.router, dmDir.files, dmNames, topicDir.files, topicNames);
    after := Boot(before.router.cfg, before.router.dms.config.hash, dmDir, topicDir, dmNames, topicNames);
  }

  /** The events of a shutdown: the handlers of these connections end, each exactly once, and besides
      that only writes fail and connections are turned away. */
  ghost predicate WindsDown(es: seq<Event>, conns: set<Connection>, now: Connection -> real) {
    && (forall c :: c in conns ==> HungUp(c, now(c)) in es)
    && (forall e :: e in es ==> e.WriteFailed? || e.Accepted? || (e.HungUp? && e.c in conns && e.ts == now(e.c)))
    && (forall i, j :: 0 <= i < j < |es| && es[i].HungUp? ==> es[i] != es[j])
  }

  lemma OneMoreEnded(es: seq<Event>, conns: set<Connection>, c: Connection, now: Connection -> real)
    requires WindsDown(es, conns, now) && c !in conns
    ensures WindsDown(es + [HungUp(c, now(c))], conns + {c}, now)
  {
  }

  lemma OneMoreDisturbance(es: seq<Event>, conns: set<Connection>, now: Connection -> real, e: Event)
    requires WindsDown(es, conns, now) && (e.WriteFailed? || e.Accepted?)
    ensures WindsDown(es + [e], conns, now)
  {
  }

  lemma RunOneMore(cfg: Config, s: System, es: seq<Event>, e: Event)
    ensures Run(cfg, s, []) == s
    ensures Run(cfg, s, es + [e]) == Step(cfg, Run(cfg, s, es), e)
  {
    assert (es + [e])[..|es|] == es;
  }
}
