/** The routing state as a value, and what each request does to it. */
module Routing {
  import opened Base
  import opened Messages
  import opened Addressing
  import opened Connections
  import opened Store

  const INVALID_REQUEST := -32600
  const INVALID_PARAMS := -32602
  const HELLO_REQUIRED := -32000
  const ALIAS_TAKEN := -32010
  const SID_IN_USE := -32011

  type Outcome = Result<Reply, int>

  type Conns = map<Connection, Conn>

  /** Glob matching of addresses, and the bounds of DM queues and topic rings. */
  datatype Config = Config(matches: (string, string) -> bool, dmMax: nat, topicMax: nat)
  {
    /** The one fact about glob matching that the daemon relies on. */
    ghost predicate StarMatchesAll() {
      forall a :: matches(a, "*")
    }

    predicate Accepts(k: Conn, m: Message) {
      AnyMatch(matches, m.fromAddr, k.dmFilter)
    }

    predicate Observes(k: Conn, m: Message) {
      && k.wireFrom.Some?
      && AnyMatch(matches, m.fromAddr, k.wireFrom.value)
      && AnyMatch(matches, m.to, k.wireTo)
    }

    function Accepted(k: Conn, msgs: seq<Message>): seq<Message> {
      Filter(m => Accepts(k, m), msgs)
    }
  }

  // ---------------------------------------------------------------- index tables

  /** The members listed under a key. */
  function Members(table: map<string, set<string>>, key: string): set<string> {
    if key in table then table[key] else {}
  }

  function Enroll(table: map<string, set<string>>, key: string, member: string): map<string, set<string>> {
    table[key := Members(table, key) + {member}]
  }

  /** Removes one member, and the key with its last member. */
  function Expel(table: map<string, set<string>>, key: string, member: string): map<string, set<string>> {
    if key !in table then table
    else if table[key] - {member} == {} then table - {key}
    else table[key := table[key] - {member}]
  }

  function ExpelAll(table: map<string, set<string>>, keys: set<string>, member: string): map<string, set<string>> {
    map k | k in table && !(k in keys && table[k] - {member} == {}) ::
      if k in keys then table[k] - {member} else table[k]
  }

  type AliasTable = map<string, map<string, string>>

  /** The session that holds an alias in a home. */
  function Holder(table: AliasTable, home: string, alias: string): Option<string> {
    if home in table && alias in table[home] then Some(table[home][alias]) else None
  }

  /** Inserts an empty inner table where there is none. */
  function WithHome(table: AliasTable, home: string): AliasTable {
    if home in table then table else table[home := map[]]
  }

  function SetInner(table: AliasTable, home: string, inner: map<string, string>): AliasTable {
    if inner == map[] then table - {home} else table[home := inner]
  }

  function WithoutOwn(inner: map<string, string>, alias: Option<string>, sid: string): map<string, string> {
    if alias.Some? && alias.value in inner && inner[alias.value] == sid then inner - {alias.value} else inner
  }

  /** Releases the alias of a session and records the chosen one. */
  function RenameIn(table: AliasTable, home: string, previous: Option<string>, sid: string,
                    chosen: Option<string>): AliasTable {
    var table0 := WithHome(table, home);
    var released := WithoutOwn(table0[home], previous, sid);
    SetInner(table0, home, if chosen.Some? then released[chosen.value := sid] else released)
  }

  /** Releases the alias of a session that leaves. */
  function LeaveIn(table: AliasTable, home: string, alias: Option<string>, sid: string): AliasTable {
    if home in table && WithoutOwn(table[home], alias, sid) != table[home]
    then SetInner(table, home, WithoutOwn(table[home], alias, sid)) else table
  }

  // ---------------------------------------------------------------- the routing state

  datatype Hub = Hub(
    conns: Conns, connections: map<string, Connection>, byHome: map<string, set<string>>,
    aliases: AliasTable, topicSubs: map<string, set<string>>,
    dms: map<string, seq<Message>>, topics: map<string, seq<Message>>)
  {
    function At(c: Connection): Conn {
      if c in conns then conns[c] else NEW_CONN
    }

    function Put(c: Connection, k: Conn): Hub {
      this.(conns := conns[c := k])
    }

    /** Enqueues one frame for each of the targets. */
    function Post(targets: set<Connection>, f: Frame): (h: Hub)
    {
      this.(conns := PostTo(conns, targets, f))
    }

    /** All registered sessions but one. */
    function Others(exclude: Option<string>): set<Connection> {
      set s | s in connections && Some(s) != exclude :: connections[s]
    }

    function Watchers(cfg: Config, m: Message, sender: Option<string>): set<Connection> {
      set s | s in connections && Some(s) != sender && cfg.Observes(At(connections[s]), m) :: connections[s]
    }
  }

  function PostTo(conns: Conns, targets: set<Connection>, f: Frame): (r: Conns) {
    map c | c in conns :: if c in targets then conns[c].Enqueue(f) else conns[c]
  }

  const EMPTY_HUB := Hub(map[], map[], map[], map[], map[], map[], map[])

  function MessageFrames(msgs: seq<Message>): seq<Frame> {
    seq(|msgs|, i requires 0 <= i < |msgs| => PeerMessage(msgs[i]))
  }

  /** Hands the queue of an address to a session: accepted messages are enqueued in order, the
      others are dropped, and the queue is empty afterwards. */
  function Drain(cfg: Config, h: Hub, c: Connection, address: string): Hub {
    if QueueAt(h.dms, address) == [] then h
    else
      var msgs := cfg.Accepted(h.At(c), h.dms[address]);
      h.(dms := h.dms[address := []]).Put(c, h.At(c).EnqueueAll(MessageFrames(msgs)))
  }

  function HomeKey(home: string): string { "home:" + home }

  function DirectKey(home: string, disc: string): string { "home:" + home + "#" + disc }

  // ---------------------------------------------------------------- connection lifecycle

  function Register(h: Hub, c: Connection, sid: string, home: string): Hub {
    h.(connections := h.connections[sid := c], byHome := Enroll(h.byHome, home, sid))
     .Put(c, h.At(c).(sid := Some(sid), home := Some(home)))
  }

  function Hello(cfg: Config, h: Hub, c: Connection, sid: string, home: string, ts: real): (Hub, Outcome) {
    if sid in h.connections then (h, Err(SID_IN_USE))
    else
      var h1 := Register(h, c, sid, home);
      var h2 := Drain(cfg, h1, c, HomeKey(home));
      var h3 := Drain(cfg, h2, c, DirectKey(home, sid));
      (h3.Post(h3.Others(Some(sid)), PeerJoined(home, sid, ts)), Ok(HelloReply(home, sid)))
  }

  /** Takes a session out of every index. */
  function Unregister(h: Hub, c: Connection): Hub
    requires h.At(c).sid.Some?
  {
    var k := h.At(c);
    var (sid, home) := (k.sid.value, k.HomeOrEmpty());
    h.(connections := h.connections - {sid},
       byHome := Expel(h.byHome, home, sid),
       aliases := LeaveIn(h.aliases, home, k.alias, sid),
       topicSubs := ExpelAll(h.topicSubs, k.subs, sid))
     .Put(c, k.(subs := {}))
  }

  function Goodbye(h: Hub, c: Connection, ts: real): Hub {
    var k := h.At(c);
    if k.sid.None? then h
    else
      var h1 := Unregister(h, c);
      h1.Post(h1.Others(k.sid), PeerLeft(k.HomeOrEmpty(), k.sid.value, k.alias, ts))
  }

  // ---------------------------------------------------------------- aliases and filters

  function SetAlias(cfg: Config, h: Hub, c: Connection, alias: string, ts: real): (Hub, Outcome) {
    var k := h.At(c);
    if k.sid.None? then (h, Err(HELLO_REQUIRED))
    else
      var (sid, home) := (k.sid.value, k.HomeOrEmpty());
      var table := WithHome(h.aliases, home);
      if alias != "" && !IsValidAlias(alias) then (h.(aliases := table), Err(INVALID_PARAMS))
      else if alias != "" && alias in table[home] && table[home][alias] != sid then
        (h.(aliases := table), Err(ALIAS_TAKEN))
      else
        var chosen := if alias == "" then None else Some(alias);
        (Adopted(cfg, h, c, chosen, ts), Ok(AliasReply(chosen)))
  }

  /** The accepted change of an alias. */
  function Adopted(cfg: Config, h: Hub, c: Connection, chosen: Option<string>, ts: real): Hub
    requires h.At(c).sid.Some?
  {
    var k := h.At(c);
    var home := k.HomeOrEmpty();
    var h1 := Rename(h, c, chosen);
    var h2 := if chosen.Some? && chosen != k.alias then Drain(cfg, h1, c, DirectKey(home, chosen.value)) else h1;
    h2.Post(h2.Others(None), AliasChanged(home, k.sid.value, chosen, k.alias, ts))
  }

  /** Releases the alias of a session and records the chosen one. */
  function Rename(h: Hub, c: Connection, chosen: Option<string>): Hub
    requires h.At(c).sid.Some?
  {
    var k := h.At(c);
    h.(aliases := RenameIn(h.aliases, k.HomeOrEmpty(), k.alias, k.sid.value, chosen))
     .Put(c, k.(alias := chosen))
  }

  function SetDmFilter(h: Hub, c: Connection, patterns: seq<string>): (Hub, Outcome) {
    if h.At(c).sid.None? then (h, Err(HELLO_REQUIRED))
    else (h.Put(c, h.At(c).(dmFilter := patterns)), Ok(FilterReply(patterns)))
  }

  function Watch(h: Hub, c: Connection, kinds: Option<seq<string>>,
                 fromFilter: Option<seq<string>>, toFilter: Option<seq<string>>): (Hub, Outcome) {
    if h.At(c).sid.None? then (h, Err(HELLO_REQUIRED))
    else if kinds.Some? && exists s :: s in kinds.value && s != "messages" then (h, Err(INVALID_PARAMS))
    else
      var from := if fromFilter.Some? then fromFilter.value else ["*"];
      var to := if toFilter.Some? then toFilter.value else ["*"];
      (h.Put(c, h.At(c).(wireFrom := Some(from), wireTo := to)), Ok(WatchReply(true)))
  }

  function Unwatch(h: Hub, c: Connection): (Hub, Outcome) {
    if h.At(c).sid.None? then (h, Err(HELLO_REQUIRED))
    else (h.Put(c, h.At(c).(wireFrom := None, wireTo := ["*"])), Ok(WatchReply(false)))
  }

  // ---------------------------------------------------------------- direct messages

  /** The session ids an address stands for. */
  function Resolve(h: Hub, addr: Address): set<string>
    requires addr.Home?
  {
    match addr.disc
    case None => Members(h.byHome, addr.home)
    case Some(d) =>
      match Holder(h.aliases, addr.home, d)
      case Some(sid) => {sid}
      case None =>
        if d in h.connections && h.At(h.connections[d]).home == Some(addr.home) then {d} else {}
  }

  /** The resolved sessions that get the message at once: not the sender, filter passed. */
  function Receivers(cfg: Config, h: Hub, c: Connection, addr: Address, m: Message): set<string>
    requires addr.Home?
  {
    set s | s in Resolve(h, addr) && Some(s) != h.At(c).sid && s in h.connections
            && cfg.Accepts(h.At(h.connections[s]), m)
  }

  function Sessions(h: Hub, sids: set<string>): set<Connection> {
    set s | s in sids && s in h.connections :: h.connections[s]
  }

  function Compose(h: Hub, c: Connection, to: string, body: Json, replyTo: Option<string>,
                   id: string, ts: real): Message {
    Message(id, h.At(c).FromAddr(), h.At(c).alias, to, body, replyTo, ts)
  }

  function Enqueue(queues: map<string, seq<Message>>, m: Message, max: nat): map<string, seq<Message>> {
    queues[m.to := Push(QueueAt(queues, m.to), m, max)]
  }

  function Send(cfg: Config, h: Hub, c: Connection, to: string, body: Json, replyTo: Option<string>,
                id: string, ts: real): (Hub, Outcome) {
    if h.At(c).sid.None? then (h, Err(HELLO_REQUIRED))
    else
      var parsed := ParseAddress(to);
      if parsed.Err? || parsed.value.Topic? then (h, Err(INVALID_PARAMS))
      else
        Routed(cfg, h, c, parsed.value, Compose(h, c, to, body, replyTo, id, ts))
  }

  /** Delivers a message to the sessions behind an address, queues it when there are none, and
      shows it to the watchers. */
  function Routed(cfg: Config, h: Hub, c: Connection, addr: Address, m: Message): (r: (Hub, Outcome))
    requires addr.Home?
    ensures r.1.Ok?
  {
    var rs := Receivers(cfg, h, c, addr, m);
    var h1 := h.Post(Sessions(h, rs), PeerMessage(m));
    var h2 := if rs == {} then h1.(dms := Enqueue(h1.dms, m, cfg.dmMax)) else h1;
    (h2.Post(h2.Watchers(cfg, m, h.At(c).sid), WireMessage(m, |rs|, rs == {})), Ok(SendReply(m.id, |rs|)))
  }

  // ---------------------------------------------------------------- topics

  /** The router's own check of a topic name, in its own order. */
  function ValidateTopic(topic: string): Result<string, int> {
    if topic == "" then Err(INVALID_PARAMS)
    else if "/" <= topic || '#' in topic then Err(INVALID_PARAMS)
    else if Utf8Length(topic) > 256 then Err(INVALID_PARAMS)
    else Ok(topic)
  }

  function TopicKey(topic: string): string { "topic:" + topic }

  function Publish(cfg: Config, h: Hub, c: Connection, topic: string, body: Json, id: string, ts: real)
    : (Hub, Outcome)
  {
    if h.At(c).sid.None? then (h, Err(HELLO_REQUIRED))
    else if ValidateTopic(topic).Err? then (h, Err(INVALID_PARAMS))
    else
      Published(cfg, h, c, topic, Compose(h, c, TopicKey(topic), body, None, id, ts))
  }

  /** The subscribers that get a publication at once: all but the sender. */
  function Subscribers(h: Hub, topic: string, sender: Option<string>): set<string> {
    set s | s in Members(h.topicSubs, topic) && Some(s) != sender && s in h.connections
  }

  function Published(cfg: Config, h: Hub, c: Connection, topic: string, m: Message): (r: (Hub, Outcome))
    ensures r.1.Ok?
  {
    var h1 := h.(topics := Enqueue(h.topics, m, cfg.topicMax));
    var rs := Subscribers(h, topic, h.At(c).sid);
    var h2 := h1.Post(Sessions(h, rs), PeerMessage(m));
    (h2.Post(h2.Watchers(cfg, m, h.At(c).sid), WireMessage(m, |rs|, false)), Ok(PublishReply(m.id, |rs|)))
  }

  function Subscribed(h: Hub, c: Connection, topic: string): Hub
    requires h.At(c).sid.Some?
  {
    var k := h.At(c);
    h.(topicSubs := Enroll(h.topicSubs, topic, k.sid.value)).Put(c, k.(subs := k.subs + {topic}))
  }

  /** Subscribes, and replays the end of the ring when asked to. */
  function Followed(h: Hub, c: Connection, topic: string, replay: nat): Hub
    requires h.At(c).sid.Some?
  {
    var h1 := Subscribed(h, c, topic);
    if replay == 0 then h1
    else
      var ring := QueueAt(h.topics, TopicKey(topic));
      h1.(topics := h.topics[TopicKey(topic) := ring])
        .Put(c, h1.At(c).EnqueueAll(MessageFrames(LastN(ring, replay))))
  }

  function Subscribe(h: Hub, c: Connection, topic: string, replay: int): (Hub, Outcome) {
    if h.At(c).sid.None? then (h, Err(HELLO_REQUIRED))
    else if ValidateTopic(topic).Err? || replay < 0 then (h, Err(INVALID_PARAMS))
    else (Followed(h, c, topic, replay), Ok(SubscribeReply(topic)))
  }

  function Unsubscribed(h: Hub, c: Connection, topic: string): Hub
    requires h.At(c).sid.Some?
  {
    var k := h.At(c);
    h.(topicSubs := Expel(h.topicSubs, topic, k.sid.value)).Put(c, k.(subs := k.subs - {topic}))
  }

  function Unsubscribe(h: Hub, c: Connection, topic: string): (Hub, Outcome) {
    if h.At(c).sid.None? then (h, Err(HELLO_REQUIRED))
    else if ValidateTopic(topic).Err? then (h, Err(INVALID_PARAMS))
    else (Unsubscribed(h, c, topic), Ok(UnsubscribeReply))
  }

  // ---------------------------------------------------------------- history

  function History(h: Hub, c: Connection, address: string, since: Option<string>, limit: int): (Hub, Outcome) {
    if h.At(c).sid.None? then (h, Err(HELLO_REQUIRED))
    else if limit <= 0 || limit > 1000 || ParseAddress(address).Err? then (h, Err(INVALID_PARAMS))
    else
      var queues := if ParseAddress(address).value.Topic? then h.topics else h.dms;
      (h, Ok(HistoryReply(Persistence.Page(QueueAt(queues, address), since, limit))))
  }
}
