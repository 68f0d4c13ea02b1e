/** The daemon as a whole: handlers dispatching requests to the router, connections that come
    and go, shutdown, and restarts that keep only what is on disk. */
module Daemon {
  import opened Base
  import opened Messages
  import opened Addressing
  import opened Connections
  import opened Store
  import opened Routing
  import opened Registry

  /** A decoded request. Message ids and timestamps are drawn by the daemon; here they come with
      the request. Refused stands for whatever the dispatcher rejects by itself. */
  datatype Request =
    | ReqHello(sid: string, home: string, ts: real)
    | ReqSetAlias(alias: string, ts: real)
    | ReqSetDmFilter(patterns: seq<string>)
    | ReqWatch(kinds: Option<seq<string>>, from: Option<seq<string>>, to: Option<seq<string>>)
    | ReqUnwatch
    | ReqSend(dest: string, body: Json, replyTo: Option<string>, id: string, ts: real)
    | ReqPublish(topic: string, body: Json, id: string, ts: real)
    | ReqSubscribe(topic: string, replay: int)
    | ReqUnsubscribe(topic: string)
    | ReqHistory(address: string, since: Option<string>, limit: int)
    | Refused(code: int)

  /** The handler of each method, with the guards of `peer.hello`. */
  function Handle(cfg: Config, h: Hub, c: Connection, req: Request): (Hub, Outcome) {
    match req
    case ReqHello(sid, home, ts) =>
      if h.At(c).sid.Some? then (h, Err(INVALID_REQUEST))
      else if !IsValidSid(sid) || !IsNormalizedPath(home) then (h, Err(INVALID_PARAMS))
      else Hello(cfg, h, c, sid, home, ts)
    case ReqSetAlias(alias, ts) => SetAlias(cfg, h, c, alias, ts)
    case ReqSetDmFilter(patterns) => SetDmFilter(h, c, patterns)
    case ReqWatch(kinds, from, to) => Watch(h, c, kinds, from, to)
    case ReqUnwatch => Unwatch(h, c)
    case ReqSend(dest, body, replyTo, id, ts) => Send(cfg, h, c, dest, body, replyTo, id, ts)
    case ReqPublish(topic, body, id, ts) => Publish(cfg, h, c, topic, body, id, ts)
    case ReqSubscribe(topic, replay) => Subscribe(h, c, topic, replay)
    case ReqUnsubscribe(topic) => Unsubscribe(h, c, topic)
    case ReqHistory(address, since, limit) => History(h, c, address, since, limit)
    case Refused(code) => (h, Err(code))
  }

  /** The response or error frame, which goes only to requests that carry an id. */
  function Answer(k: Conn, requestId: Option<RequestId>, out: Outcome): Conn {
    match requestId
    case None => k
    case Some(rid) =>
      match out
      case Ok(reply) => k.Enqueue(Response(rid, reply))
      case Err(code) => k.Enqueue(Failure(rid, code))
  }

  function Dispatch(cfg: Config, h: Hub, c: Connection, requestId: Option<RequestId>, req: Request): Hub {
    var (h1, out) := Handle(cfg, h, c, req);
    h1.Put(c, Answer(h1.At(c), requestId, out))
  }

  /** The routing state, the connections whose handler has not finished, and the shutdown flag. */
  datatype System = System(hub: Hub, open: set<Connection>, closing: bool)

  const BOOT := System(EMPTY_HUB, {}, false)

  /** A daemon that has just started, with the queues and rings that it found on disk. */
  predicate Booted(s: System) {
    s == System(EMPTY_HUB.(dms := s.hub.dms, topics := s.hub.topics), {}, false)
  }

  datatype Event =
    | Accepted(c: Connection)
    | Called(c: Connection, requestId: Option<RequestId>, req: Request)
    | WriteFailed(c: Connection)
    | HungUp(c: Connection, ts: real)
    | ShutdownBegun
    | Restarted

  function Close(h: Hub, c: Connection): Hub {
    h.Put(c, h.At(c).(closed := true))
  }

  /** A new process: no sessions, and the queues and rings that a cold start finds on disk. */
  function Reborn(h: Hub): Hub {
    Hub(map c | c in h.conns :: h.conns[c].(closed := true), map[], map[], map[], map[],
        NonEmpty(h.dms), NonEmpty(h.topics))
  }

  /** One event. Those that cannot happen (a known connection accepted again, or one accepted
      during shutdown, or activity of a finished handler) change nothing. */
  function Step(cfg: Config, s: System, e: Event): System {
    match e
    case Accepted(c) =>
      if s.closing || c in s.hub.conns then s
      else s.(hub := s.hub.Put(c, NEW_CONN), open := s.open + {c})
    case Called(c, requestId, req) =>
      if c !in s.open then s else s.(hub := Dispatch(cfg, s.hub, c, requestId, req))
    case WriteFailed(c) =>
      if c !in s.open then s else s.(hub := Close(s.hub, c))
    case HungUp(c, ts) =>
      if c !in s.open then s
      else s.(hub := Close(Goodbye(s.hub, c, ts), c), open := s.open - {c})
    case ShutdownBegun => s.(closing := true)
    case Restarted => System(Reborn(s.hub), {}, false)
  }

  function Run(cfg: Config, s: System, es: seq<Event>): System {
    if es == [] then s else Step(cfg, Run(cfg, s, es[..|es| - 1]), es[|es| - 1])
  }

  lemma {:induction false} RunConcat(cfg: Config, s: System, es: seq<Event>, fs: seq<Event>)
    ensures Run(cfg, s, es + fs) == Run(cfg, Run(cfg, s, es), fs)
  {
    if fs == [] {
      assert es + fs == es;
    } else {
      RunConcat(cfg, s, es, fs[..|fs| - 1]);
      assert (es + fs)[..|es + fs| - 1] == es + fs[..|fs| - 1];
    }
  }

  // ---------------------------------------------------------------- the system invariant

  /** Identities are well formed, and before hello a connection is as new. */
  ghost predicate ProperIdentity(k: Conn) {
    && (k.sid.Some? ==> IsValidSid(k.sid.value) && k.home.Some? && IsNormalizedPath(k.home.value))
    && (k.alias.Some? ==> IsValidAlias(k.alias.value))
    && (k.sid.None? ==> k.dmFilter == ["*"])
  }

  /** The indexes agree with the connections, and the registered connections are exactly the open
      ones that have said hello. */
  ghost predicate Well(s: System) {
    && Indexed(s.hub)
    && (forall c :: c in s.open ==> Consistent(s.hub, c) && ProperIdentity(s.hub.At(c)))
    && (forall sid :: sid in s.hub.connections ==> s.hub.connections[sid] in s.open)
  }
}
