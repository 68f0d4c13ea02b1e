/** The daemon's registry as a plain table: who is connected, under which session id, in which home,
    with which alias and subscriptions. The four redundant indexes and the handlers behave exactly
    like this table, request by request, refusals included. */
module Roster {
  import opened Base
  import opened Addressing
  import opened Connections
  import opened Routing
  import opened Registry
  import opened Daemon
  import opened Invariant
  import opened Forms

  /** Every connection ever accepted, those whose handler has not finished, the session ids of those
      that have said hello, and the live sessions. */
  datatype Roster = Roster(seen: set<Connection>, open: set<Connection>, who: map<Connection, string>,
                           sessions: map<string, Session>, closing: bool)

  function RosterOf(s: System): Roster {
    Roster(s.hub.conns.Keys, s.open, map c | c in s.open && s.hub.At(c).sid.Some? :: s.hub.At(c).sid.value,
           Scan(s.hub), s.closing)
  }

  // ---------------------------------------------------------------- the specification

  /** The address of a home, or of a session id or alias in it. */
  ghost predicate DirectForm(address: string) {
    exists home :: PathForm(home) && '#' !in home
      && (address == "home:" + home
          || exists d :: (SidForm(d) || AliasForm(d)) && address == "home:" + home + "#" + d)
  }

  ghost predicate TopicAddressForm(address: string) {
    exists topic :: TopicForm(topic) && address == "topic:" + topic
  }

  /** Another session of the home has the alias. */
  ghost predicate TakenByOther(r: Roster, sid: string, alias: string)
    requires sid in r.sessions
  {
    exists x :: x in r.sessions && x != sid
      && r.sessions[x].home == r.sessions[sid].home && r.sessions[x].alias == Some(alias)
  }

  /** Different connections that have said hello are different live sessions. */
  ghost predicate Intact(r: Roster) {
    && (forall c :: c in r.who ==> r.who[c] in r.sessions)
    && (forall c, d :: c in r.who && d in r.who && r.who[c] == r.who[d] ==> c == d)
  }

  function Unless(ok: bool, code: int): Option<int> {
    if ok then None else Some(code)
  }

  /** The error code of a request, or none if it is accepted: -32600 for a second hello, -32602 for bad
      parameters, -32000 before hello, -32010 for a taken alias, -32011 for a session id in use. */
  ghost function Verdict(r: Roster, c: Connection, req: Request): Option<int>
    requires Intact(r)
  {
    match req
    case ReqHello(sid, home, _) =>
      if c in r.who then Some(-32600)
      else if !SidForm(sid) || !PathForm(home) then Some(-32602)
      else Unless(sid !in r.sessions, -32011)
    case Refused(code) => Some(code)
    case _ => if c !in r.who then Some(-32000) else SessionVerdict(r, r.who[c], req)
  }

  /** The error code of a request of a session. */
  ghost function SessionVerdict(r: Roster, sid: string, req: Request): Option<int>
    requires sid in r.sessions
  {
    match req
    case ReqSetAlias(alias, _) =>
      if alias == "" then None
      else if !AliasForm(alias) then Some(-32602)
      else Unless(!TakenByOther(r, sid, alias), -32010)
    case ReqWatch(kinds, _, _) =>
      Unless(kinds.Some? ==> forall k :: k in kinds.value ==> k == "messages", -32602)
    case ReqSend(dest, _, _, _, _) => Unless(DirectForm(dest), -32602)
    case ReqPublish(topic, _, _, _) => Unless(TopicForm(topic), -32602)
    case ReqSubscribe(topic, replay) => Unless(TopicForm(topic) && replay >= 0, -32602)
    case ReqUnsubscribe(topic) => Unless(TopicForm(topic), -32602)
    case ReqHistory(address, _, limit) =>
      Unless(1 <= limit <= 1000 && (DirectForm(address) || TopicAddressForm(address)), -32602)
    case _ => None
  }

  /** What an accepted request makes of the table. */
  ghost function Served(r: Roster, c: Connection, req: Request): (t: Roster)
    requires Intact(r)
    ensures Intact(t)
  {
    if Verdict(r, c, req).Some? then r
    else match req
      case ReqHello(sid, home, _) =>
        r.(who := r.who[c := sid], sessions := r.sessions[sid := Session(home, None, {})])
      case ReqSetAlias(alias, _) =>
        var (sid, chosen) := (r.who[c], if alias == "" then None else Some(alias));
        r.(sessions := r.sessions[sid := r.sessions[sid].(alias := chosen)])
      case ReqSubscribe(topic, _) =>
        var (sid, own) := (r.who[c], r.sessions[r.who[c]]);
        r.(sessions := r.sessions[sid := own.(subs := own.subs + {topic})])
      case ReqUnsubscribe(topic) =>
        var (sid, own) := (r.who[c], r.sessions[r.who[c]]);
        r.(sessions := r.sessions[sid := own.(subs := own.subs - {topic})])
      case _ => r
  }

  /** What an event makes of the table. */
  ghost function Next(r: Roster, e: Event): (t: Roster)
    requires Intact(r)
    ensures Intact(t)
  {
    match e
    case Accepted(c) =>
      if r.closing || c in r.seen then r else r.(seen := r.seen + {c}, open := r.open + {c})
    case Called(c, _, req) => if c in r.open then Served(r, c, req) else r
    case WriteFailed(_) => r
    case HungUp(c, _) =>
      if c !in r.open then r
      else r.(open := r.open - {c}, who := r.who - {c},
              sessions := if c in r.who then r.sessions - {r.who[c]} else r.sessions)
    case ShutdownBegun => r.(closing := true)
    case Restarted => Roster(r.seen, {}, map[], map[], false)
  }

  // ---------------------------------------------------------------- verdicts

  /** What the invariant says about an open connection. */
  lemma Listed(s: System, c: Connection)
    requires Well(s) && c in s.open
    ensures var (r, k) := (RosterOf(s), s.hub.At(c));
      && c in s.hub.conns && (c in r.who <==> k.sid.Some?)
      && (k.sid.Some? ==> k.home.Some?) && (k.sid.None? ==> k.alias == None && k.subs == {})
      && (c in r.who ==>
            && r.who[c] == k.sid.value && IsRegistered(s.hub, c)
            && r.who[c] in r.sessions && r.sessions[r.who[c]] == SessionOf(k))
  {
    assert Consistent(s.hub, c);
  }

  lemma RosterIntact(s: System)
    requires Well(s)
    ensures Intact(RosterOf(s))
  {
    forall c | c in RosterOf(s).who
      ensures RosterOf(s).who[c] in RosterOf(s).sessions && s.hub.connections[RosterOf(s).who[c]] == c
    {
      Listed(s, c);
    }
  }

  lemma DirectFormIff(address: string)
    ensures (ParseAddress(address).Ok? && ParseAddress(address).value.Home?) <==> DirectForm(address)
  {
    hide ParseAddress, IsNormalizedPath, IsValidSid, IsValidAlias, PathForm, SidForm, AliasForm;
    if ParseAddress(address).Ok? && ParseAddress(address).value.Home? {
      var x := ParseAddress(address).value;
      ParseRender(address, x);
      PathFormIff(x.home);
      if x.disc.Some? {
        SidFormIff(x.disc.value);
        AliasFormIff(x.disc.value);
      }
    }
    if DirectForm(address) {
      var home :| PathForm(home) && '#' !in home
        && (address == "home:" + home
            || exists d :: (SidForm(d) || AliasForm(d)) && address == "home:" + home + "#" + d);
      PathFormIff(home);
      if address == "home:" + home {
        ParseRender(address, Home(home, None));
      } else {
        var d :| (SidForm(d) || AliasForm(d)) && address == "home:" + home + "#" + d;
        SidFormIff(d);
        AliasFormIff(d);
        ParseRender(address, Home(home, Some(d)));
      }
    }
  }

  lemma TopicAddressFormIff(address: string)
    ensures (ParseAddress(address).Ok? && ParseAddress(address).value.Topic?) <==> TopicAddressForm(address)
  {
    hide ParseAddress, IsValidTopicName, TopicForm;
    if ParseAddress(address).Ok? && ParseAddress(address).value.Topic? {
      var x := ParseAddress(address).value;
      ParseRender(address, x);
      TopicFormIff(x.name);
    }
    if TopicAddressForm(address) {
      var topic :| TopicForm(topic) && address == "topic:" + topic;
      TopicFormIff(topic);
      ParseRender(address, Topic(topic));
    }
  }

  lemma ValidateTopicIff(topic: string)
    ensures ValidateTopic(topic).Ok? <==> TopicForm(topic)
  {
    TopicFormIff(topic);
    assert topic != "" ==> ("/" <= topic <==> topic[0] == '/');
    hide Utf8Length;
  }

  lemma AliasTakenIff(s: System, c: Connection, alias: string)
    requires Well(s) && c in s.open && s.hub.At(c).sid.Some?
    ensures var (home, r) := (s.hub.At(c).HomeOrEmpty(), RosterOf(s));
      && s.hub.At(c).sid.value in r.sessions
      && (TakenByOther(r, s.hub.At(c).sid.value, alias)
          <==> Holder(s.hub.aliases, home, alias) !in {None, s.hub.At(c).sid})
  {
    Listed(s, c);
    var home, r := s.hub.At(c).HomeOrEmpty(), RosterOf(s);
    if Holder(s.hub.aliases, home, alias) !in {None, s.hub.At(c).sid} {
      var x := Holder(s.hub.aliases, home, alias).value;
      assert x in r.sessions && x != s.hub.At(c).sid.value;
    }
  }

  lemma AliasVerdict(cfg: Config, s: System, c: Connection, alias: string, ts: real)
    requires Well(s) && c in s.open && s.hub.At(c).sid.Some?
    ensures var (out, sid) := (SetAlias(cfg, s.hub, c, alias, ts).1, s.hub.At(c).sid.value);
      && sid in RosterOf(s).sessions
      && SessionVerdict(RosterOf(s), sid, ReqSetAlias(alias, ts)) == if out.Ok? then None else Some(out.error)
  {
    AliasTakenIff(s, c, alias);
    AliasFormIff(alias);
    hide Well, AliasForm, IsValidAlias, Adopted, TakenByOther, RosterOf;
  }

  /** For every request of an open connection, the daemon decides as the table says. */
  lemma VerdictIs(cfg: Config, s: System, c: Connection, req: Request)
    requires Well(s) && c in s.open
    ensures Intact(RosterOf(s))
    ensures var out := Handle(cfg, s.hub, c, req).1;
      Verdict(RosterOf(s), c, req) == if out.Ok? then None else Some(out.error)
  {
    hide Well, RosterOf, Intact, SidForm, PathForm, SessionVerdict, IsValidSid, IsNormalizedPath, Register, Drain;
    hide SetAlias, Send, Publish, Subscribe, Unsubscribe, History, Routing.SetDmFilter, Routing.Watch, Routing.Unwatch;
    RosterIntact(s);
    Listed(s, c);
    if req.ReqHello? {
      SidFormIff(req.sid);
      PathFormIff(req.home);
      LiveIds(s);
    } else if req.Refused? {
    } else if s.hub.At(c).sid.Some? {
      SessionVerdictIs(cfg, s, c, req);
    } else {
      StrangerVerdict(cfg, s.hub, c, req);
    }
  }

  lemma StrangerVerdict(cfg: Config, h: Hub, c: Connection, req: Request)
    requires h.At(c).sid.None? && !req.ReqHello? && !req.Refused?
    ensures Handle(cfg, h, c, req).1 == Err(HELLO_REQUIRED)
  {
  }

  lemma SessionVerdictIs(cfg: Config, s: System, c: Connection, req: Request)
    requires Well(s) && c in s.open && s.hub.At(c).sid.Some? && !req.ReqHello? && !req.Refused?
    ensures var (out, sid) := (Handle(cfg, s.hub, c, req).1, s.hub.At(c).sid.value);
      && sid in RosterOf(s).sessions
      && SessionVerdict(RosterOf(s), sid, req) == if out.Ok? then None else Some(out.error)
  {
    hide Well, RosterOf, AliasForm, TopicForm, DirectForm, TopicAddressForm, TakenByOther;
    hide ParseAddress, ValidateTopic, SetAlias, Routed, Published, Followed, Unsubscribed;
    Listed(s, c);
    match req {
      case ReqSetAlias(alias, ts) => AliasVerdict(cfg, s, c, alias, ts);
      case ReqSend(dest, _, _, _, _) => DirectFormIff(dest);
      case ReqPublish(topic, _, _, _) => ValidateTopicIff(topic);
      case ReqSubscribe(topic, _) => ValidateTopicIff(topic);
      case ReqUnsubscribe(topic) => ValidateTopicIff(topic);
      case ReqHistory(address, _, _) =>
        DirectFormIff(address);
        TopicAddressFormIff(address);
      case _ =>
    }
  }

  lemma LiveIds(s: System)
    ensures RosterOf(s).sessions.Keys == s.hub.connections.Keys
  {
  }

  // ---------------------------------------------------------------- the table changes as specified

  /** Same session table, and every connection keeps its identity. */
  ghost predicate SameSessions(h: Hub, g: Hub) {
    && g.connections == h.connections && g.conns.Keys == h.conns.Keys
    && forall c :: c in h.conns ==> SameIdentity(h.conns[c], g.conns[c])
  }

  /** Frames, filters and queues do not show in the table. */
  lemma RestUnseen(s: System, t: System)
    requires SameSessions(s.hub, t.hub) && t.open == s.open && t.closing == s.closing
    ensures RosterOf(t) == RosterOf(s)
  {
    forall c
      ensures SameIdentity(t.hub.At(c), s.hub.At(c))
    {
    }
    hide SameSessions;
    assert Scan(t.hub) == Scan(s.hub) by {
      assert t.hub.connections == s.hub.connections by { SameTable(s.hub, t.hub); }
    }
    assert t.hub.conns.Keys == s.hub.conns.Keys by { SameTable(s.hub, t.hub); }
  }

  lemma SameTable(h: Hub, g: Hub)
    requires SameSessions(h, g)
    ensures g.connections == h.connections && g.conns.Keys == h.conns.Keys
  {
  }

  lemma PostsSameSessions(h: Hub, g: Hub)
    requires OnlyPosts(h, g)
    ensures SameSessions(h, g)
  {
    forall c | c in h.conns
      ensures SameIdentity(h.conns[c], g.conns[c])
    {
      assert g.conns[c] == h.conns[c].(outbox := g.conns[c].outbox);
    }
  }

  /** The entry of the session that makes the request. */
  lemma OwnEntry(s: System, t: System, c: Connection, k: Conn, sid: string)
    requires Well(s) && c in s.open && k.sid == Some(sid) && k.home.Some?
    requires t.hub.conns == s.hub.conns[c := k] && t.hub.connections == s.hub.connections[sid := c]
    requires t.open == s.open && t.closing == s.closing
    requires if s.hub.At(c).sid.Some? then s.hub.At(c).sid == k.sid else sid !in s.hub.connections
    ensures var r := RosterOf(s);
      RosterOf(t) == r.(who := r.who[c := sid], sessions := r.sessions[sid := SessionOf(k)])
  {
    OneHolder(s, c, sid);
    ScanUpdated(s.hub, t.hub, c, sid, SessionOf(k));
    WhoUpdated(s, t, c, k);
    hide Well, Scan, SidsIndexed;
  }

  lemma OneHolder(s: System, c: Connection, sid: string)
    requires Well(s) && c in s.open
    requires s.hub.At(c).sid.Some? ==> s.hub.At(c).sid == Some(sid)
    ensures SidsIndexed(s.hub) && c in s.hub.conns
    ensures forall x :: x in s.hub.connections && x != sid ==> s.hub.connections[x] != c
  {
    Listed(s, c);
    forall x | x in s.hub.connections && x != sid
      ensures s.hub.connections[x] != c
    {
      assert s.hub.At(s.hub.connections[x]).sid == Some(x);
    }
  }

  lemma WhoUpdated(s: System, t: System, c: Connection, k: Conn)
    requires c in s.open && c in s.hub.conns && k.sid.Some?
    requires t.hub.conns == s.hub.conns[c := k] && t.open == s.open
    ensures RosterOf(t).who == RosterOf(s).who[c := k.sid.value] && RosterOf(t).seen == RosterOf(s).seen
  {
    hide Scan;
  }

  /** What a request of an open connection makes of the table. */
  lemma ServedIs(cfg: Config, s: System, c: Connection, requestId: Option<RequestId>, req: Request)
    requires Well(s) && c in s.open
    ensures Intact(RosterOf(s)) && RosterOf(Step(cfg, s, Called(c, requestId, req))) == Served(RosterOf(s), c, req)
  {
    hide Well, RosterOf, Verdict, Handle, Reshaped, OnlyPosts, SameSessions;
    VerdictIs(cfg, s, c, req);
    var r := s.(hub := Reshaped(cfg, s.hub, c, req));
    DispatchPosts(cfg, s, c, requestId, req);
    PostsSameSessions(r.hub, Step(cfg, s, Called(c, requestId, req)).hub);
    RestUnseen(r, Step(cfg, s, Called(c, requestId, req)));
    ReshapedIs(cfg, s, c, req);
  }

  lemma DispatchPosts(cfg: Config, s: System, c: Connection, requestId: Option<RequestId>, req: Request)
    requires Well(s) && c in s.open
    ensures var (r, t) := (s.(hub := Reshaped(cfg, s.hub, c, req)), Step(cfg, s, Called(c, requestId, req)));
      OnlyPosts(r.hub, t.hub) && t.open == s.open && t.closing == s.closing
  {
    hide Handle, Reshaped, Well, Answer, OnlyPosts;
    var (g, out) := Handle(cfg, s.hub, c, req);
    Listed(s, c);
    HandleShape(cfg, s.hub, c, req);
    ReshapedHasOwn(cfg, s.hub, c, req);
    PostsKeepKeys(Reshaped(cfg, s.hub, c, req), g);
    AnswerPosts(g, c, requestId, out);
    OnlyPostsTrans(Reshaped(cfg, s.hub, c, req), g, g.Put(c, Answer(g.At(c), requestId, out)));
  }

  lemma PostsKeepKeys(h: Hub, g: Hub)
    requires OnlyPosts(h, g)
    ensures g.conns.Keys == h.conns.Keys
  {
  }

  lemma AnswerPosts(h: Hub, c: Connection, requestId: Option<RequestId>, out: Outcome)
    requires c in h.conns
    ensures OnlyPosts(h, h.Put(c, Answer(h.At(c), requestId, out)))
  {
  }

  lemma ReshapedHasOwn(cfg: Config, h: Hub, c: Connection, req: Request)
    requires c in h.conns
    ensures c in Reshaped(cfg, h, c, req).conns
  {
    hide Handle, RenameIn, Enroll, Expel, ValidateTopic;
  }

  lemma ReshapedIs(cfg: Config, s: System, c: Connection, req: Request)
    requires Well(s) && c in s.open && Intact(RosterOf(s))
    requires Verdict(RosterOf(s), c, req).None? <==> Handle(cfg, s.hub, c, req).1.Ok?
    ensures RosterOf(s.(hub := Reshaped(cfg, s.hub, c, req))) == Served(RosterOf(s), c, req)
  {
    hide Well, RosterOf, Verdict, Handle;
    Listed(s, c);
    var h, t := s.hub, s.(hub := Reshaped(cfg, s.hub, c, req));
    if Handle(cfg, h, c, req).1.Ok? {
      AcceptedKnown(cfg, h, c, req);
      if req.ReqHello? {
        OwnEntry(s, t, c, t.hub.At(c), req.sid);
      } else if req.ReqSetAlias? || req.ReqSubscribe? || req.ReqUnsubscribe? {
        OwnEntry(s, t, c, t.hub.At(c), h.At(c).sid.value);
        assert RosterOf(s).who[c := h.At(c).sid.value] == RosterOf(s).who;
      } else {
        PlainSameSessions(cfg, h, c, req);
        RestUnseen(s, t);
      }
    } else {
      assert t == s;
    }
  }

  lemma AcceptedKnown(cfg: Config, h: Hub, c: Connection, req: Request)
    requires Handle(cfg, h, c, req).1.Ok?
    ensures if req.ReqHello? then h.At(c).sid.None? && req.sid !in h.connections else h.At(c).sid.Some?
  {
  }

  lemma PlainSameSessions(cfg: Config, h: Hub, c: Connection, req: Request)
    requires c in h.conns && !req.ReqHello? && !req.ReqSetAlias? && !req.ReqSubscribe? && !req.ReqUnsubscribe?
    ensures SameSessions(h, Reshaped(cfg, h, c, req))
  {
    hide SameSessions, Handle, Routing.SetDmFilter, Routing.Watch, Routing.Unwatch;
    PutSameSessions(h, c, h.At(c));
    assert h.conns[c := h.conns[c]] == h.conns;
    if req.ReqSetDmFilter? || req.ReqWatch? || req.ReqUnwatch? {
      FiltersSameSessions(cfg, h, c, req);
    }
  }

  lemma PutSameSessions(h: Hub, c: Connection, k: Conn)
    requires c in h.conns && SameIdentity(h.At(c), k)
    ensures SameSessions(h, h.Put(c, k))
  {
  }

  lemma FiltersSameSessions(cfg: Config, h: Hub, c: Connection, req: Request)
    requires c in h.conns && (req.ReqSetDmFilter? || req.ReqWatch? || req.ReqUnwatch?)
    ensures SameSessions(h, Reshaped(cfg, h, c, req))
  {
    hide SameSessions, Handle;
    PutSameSessions(h, c, h.At(c));
    assert h.conns[c := h.conns[c]] == h.conns;
    var g := Reshaped(cfg, h, c, req);
    assert g == h || g == h.Put(c, g.At(c));
    PutSameSessions(h, c, g.At(c));
  }

  // ---------------------------------------------------------------- events and runs

  /** The scan of the sessions that are left, when nobody else has changed. */
  lemma ScanLeft(h: Hub, g: Hub, gone: set<string>)
    requires g.connections == h.connections - gone
    requires forall x :: x in g.connections ==> SameIdentity(h.At(h.connections[x]), g.At(h.connections[x]))
    ensures Scan(g) == Scan(h) - gone
  {
  }

  lemma WhoLeft(s: System, t: System, gone: set<Connection>)
    requires t.open - gone == s.open - gone
    requires forall d :: d in s.open && d !in gone ==> t.hub.At(d).sid == s.hub.At(d).sid
    requires forall d :: d in gone && d in t.open ==> t.hub.At(d).sid.None?
    ensures RosterOf(t).who == RosterOf(s).who - gone
  {
    hide Scan;
    forall d
      ensures d in t.open && d !in gone <==> d in s.open && d !in gone
    {
      assert d in t.open - gone <==> d in s.open - gone;
    }
  }

  lemma AcceptedIs(s: System, c: Connection)
    requires Well(s) && c !in s.hub.conns
    ensures var (r, t) := (RosterOf(s), s.(hub := s.hub.Put(c, NEW_CONN), open := s.open + {c}));
      RosterOf(t) == r.(seen := r.seen + {c}, open := r.open + {c})
  {
    hide Well, RosterOf, SameIdentity;
    Unmet(s, c);
    PutElsewhere(s.hub, c);
    NewestTable(s, s.(hub := s.hub.Put(c, NEW_CONN), open := s.open + {c}), c);
  }

  lemma PutElsewhere(h: Hub, c: Connection)
    ensures forall d :: d != c ==> SameIdentity(h.At(d), h.Put(c, NEW_CONN).At(d))
  {
  }

  /** A connection that has said nothing has no entry yet. */
  lemma NewestTable(s: System, t: System, c: Connection)
    requires c !in s.open && forall x :: x in s.hub.connections ==> s.hub.connections[x] != c
    requires t.open == s.open + {c} && t.closing == s.closing && t.hub.connections == s.hub.connections
    requires t.hub.conns.Keys == s.hub.conns.Keys + {c} && t.hub.At(c).sid.None?
    requires forall d :: d != c ==> SameIdentity(s.hub.At(d), t.hub.At(d))
    ensures var r := RosterOf(s); RosterOf(t) == r.(seen := r.seen + {c}, open := r.open + {c})
  {
    hide Scan;
    ScanLeft(s.hub, t.hub, {});
    WhoLeft(s, t, {c});
    assert c !in RosterOf(s).who;
  }

  lemma Unmet(s: System, c: Connection)
    requires Well(s) && c !in s.hub.conns
    ensures c !in s.open && forall x :: x in s.hub.connections ==> s.hub.connections[x] != c
  {
    assert SidsIndexed(s.hub);
    if c in s.open {
      Listed(s, c);
    }
  }

  lemma HungUpIs(s: System, c: Connection, ts: real)
    requires Well(s) && c in s.open
    ensures var (r, t) := (RosterOf(s), System(Close(Goodbye(s.hub, c, ts), c), s.open - {c}, s.closing));
      && RosterOf(t) == r.(open := r.open - {c}, who := r.who - {c},
                           sessions := if c in r.who then r.sessions - {r.who[c]} else r.sessions)
  {
    hide Goodbye, Well, RosterOf, SameIdentity, Close;
    var g := Goodbye(s.hub, c, ts);
    Listed(s, c);
    GoodbyeShape(s.hub, c, ts);
    OthersKeep(s, g, c);
    LeftTable(s, System(Close(g, c), s.open - {c}, s.closing), c);
  }

  /** A connection that leaves takes its entry with it. */
  lemma LeftTable(s: System, t: System, c: Connection)
    requires Well(s) && c in s.open && t.open == s.open - {c} && t.closing == s.closing
    requires t.hub.conns.Keys == s.hub.conns.Keys && forall d :: d != c ==> SameIdentity(s.hub.At(d), t.hub.At(d))
    requires t.hub.connections
          == if s.hub.At(c).sid.Some? then s.hub.connections - {s.hub.At(c).sid.value} else s.hub.connections
    ensures var r := RosterOf(s);
      && RosterOf(t) == r.(open := r.open - {c}, who := r.who - {c},
                           sessions := if c in r.who then r.sessions - {r.who[c]} else r.sessions)
  {
    Listed(s, c);
    OwnSidOnly(s, c);
    hide Well, Scan;
    ScanLeft(s.hub, t.hub, if s.hub.At(c).sid.Some? then {s.hub.At(c).sid.value} else {});
    WhoLeft(s, t, {c});
  }

  lemma OwnSidOnly(s: System, c: Connection)
    requires Well(s) && c in s.open
    ensures forall x :: x in s.hub.connections && s.hub.connections[x] == c ==> s.hub.At(c).sid == Some(x)
  {
    assert SidsIndexed(s.hub);
  }

  lemma OthersKeep(s: System, g: Hub, c: Connection)
    requires c in s.hub.conns && g.conns.Keys == s.hub.conns.Keys
    requires forall d :: d in s.hub.conns && d != c ==> g.conns[d] == s.hub.conns[d].(outbox := g.conns[d].outbox)
    ensures Close(g, c).conns.Keys == s.hub.conns.Keys && Close(g, c).connections == g.connections
    ensures forall d :: d != c ==> SameIdentity(s.hub.At(d), Close(g, c).At(d))
  {
    forall d | d in s.hub.conns && d != c
      ensures SameIdentity(s.hub.At(d), Close(g, c).At(d))
    {
      assert g.conns[d] == s.hub.conns[d].(outbox := g.conns[d].outbox);
    }
  }

  lemma WriteFailedIs(s: System, c: Connection)
    requires Well(s) && c in s.open
    ensures RosterOf(s.(hub := Close(s.hub, c))) == RosterOf(s)
  {
    hide Well, RosterOf, SameSessions;
    Listed(s, c);
    PutSameSessions(s.hub, c, s.hub.At(c).(closed := true));
    RestUnseen(s, s.(hub := Close(s.hub, c)));
  }

  lemma RestartedIs(s: System)
    ensures RosterOf(System(Reborn(s.hub), {}, false)) == Roster(RosterOf(s).seen, {}, map[], map[], false)
  {
    hide Scan;
    NobodyReborn(s.hub);
  }

  /** Every event changes the table as specified. */
  lemma StepIs(cfg: Config, s: System, e: Event)
    requires Well(s)
    ensures Intact(RosterOf(s)) && RosterOf(Step(cfg, s, e)) == Next(RosterOf(s), e)
  {
    hide Well, Dispatch, Goodbye, Reborn, Served, Scan, Close, Intact;
    RosterIntact(s);
    match e {
      case Accepted(c) =>
        if !s.closing && c !in s.hub.conns {
          AcceptedIs(s, c);
        }
      case Called(c, requestId, req) =>
        if c in s.open {
          ServedIs(cfg, s, c, requestId, req);
        }
      case WriteFailed(c) =>
        if c in s.open {
          WriteFailedIs(s, c);
        }
      case HungUp(c, ts) =>
        if c in s.open {
          HungUpIs(s, c, ts);
        }
      case ShutdownBegun =>
      case Restarted => RestartedIs(s);
    }
  }

  lemma NobodyReborn(h: Hub)
    ensures Scan(Reborn(h)) == map[]
  {
  }

  /** The table after any events. */
  ghost function TableAfter(r: Roster, es: seq<Event>): (t: Roster)
    requires Intact(r)
    ensures Intact(t)
  {
    if es == [] then r else Next(TableAfter(r, es[..|es| - 1]), es[|es| - 1])
  }

  /** The tables of the router are views of this table. */
  ghost predicate Shows(h: Hub, r: Roster) {
    && h.connections.Keys == r.sessions.Keys && TablesAgree(h, r.sessions)
    && forall c :: c in r.who ==> r.who[c] in h.connections && h.connections[r.who[c]] == c
  }

  /** Over every run the daemon's registry is this table, and each of its indexes is a view of it. */
  lemma {:induction false} RunIs(cfg: Config, s: System, es: seq<Event>)
    requires Well(s)
    ensures Intact(RosterOf(s)) && RosterOf(Run(cfg, s, es)) == TableAfter(RosterOf(s), es)
    ensures Shows(Run(cfg, s, es).hub, TableAfter(RosterOf(s), es))
  {
    hide Well, RosterOf, Intact, Step, Next, Shows;
    if es == [] {
      StepIs(cfg, s, ShutdownBegun);
    } else {
      var init := es[..|es| - 1];
      RunIs(cfg, s, init);
      RunWell(cfg, s, init);
      StepIs(cfg, Run(cfg, s, init), es[|es| - 1]);
    }
    RunWell(cfg, s, es);
    WellShows(Run(cfg, s, es));
  }

  lemma WellShows(s: System)
    requires Well(s)
    ensures Shows(s.hub, RosterOf(s))
  {
    forall c | c in RosterOf(s).who
      ensures RosterOf(s).who[c] in s.hub.connections && s.hub.connections[RosterOf(s).who[c]] == c
    {
      Listed(s, c);
    }
    hide TablesAgree;
  }
}
