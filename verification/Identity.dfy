/** What the requests about identity and interest achieve: who can join, what a change of alias makes of
    the lookup, and when a subscription is over. */
module Identity {
  import opened Base
  import opened Addressing
  import opened Connections
  import opened Routing
  import opened Registry
  import opened Daemon
  import opened Invariant
  import opened Reach
  import opened Forms
  import opened Roster

  // ---------------------------------------------------------------- joining

  /** A new connection and its hello are accepted iff the daemon is not shutting down, the names have
      the right form, and no live session has the session id; the session then has just that id and home. */
  lemma JoinsIff(cfg: Config, s: System, c: Connection, rid: Option<RequestId>, sid: string, home: string, ts: real)
    requires Well(s) && c !in s.hub.conns
    ensures var r := RosterOf(Run(cfg, s, [Accepted(c), Called(c, rid, ReqHello(sid, home, ts))]));
      (c in r.who <==> !s.closing && SidForm(sid) && PathForm(home) && sid !in s.hub.connections)
      && (c in r.who ==> r.who[c] == sid && sid in r.sessions && r.sessions[sid] == Session(home, None, {}))
  {
    hide Well, SidForm, PathForm, Shows, RosterOf, Next;
    var es := [Accepted(c), Called(c, rid, ReqHello(sid, home, ts))];
    RunIs(cfg, s, es);
    LiveIds(s);
    Newcomer(s, c);
    TwoEvents(RosterOf(s), es);
    TableJoins(RosterOf(s), c, rid, sid, home, ts);
  }

  lemma Newcomer(s: System, c: Connection)
    requires Well(s) && c !in s.hub.conns
    ensures var r := RosterOf(s); c !in r.seen && c !in r.open && c !in r.who && r.closing == s.closing
  {
    Unmet(s, c);
  }

  lemma TwoEvents(r: Roster, es: seq<Event>)
    requires Intact(r) && |es| == 2
    ensures TableAfter(r, es) == Next(Next(r, es[0]), es[1])
  {
    hide Next;
    assert es[..1] == [es[0]] && es[..1][..0] == [];
    assert TableAfter(r, es[..1]) == Next(r, es[0]);
  }

  lemma TableJoins(r: Roster, c: Connection, rid: Option<RequestId>, sid: string, home: string, ts: real)
    requires Intact(r) && c !in r.seen && c !in r.open && c !in r.who
    ensures var t := Next(Next(r, Accepted(c)), Called(c, rid, ReqHello(sid, home, ts)));
      && (c in t.who <==> !r.closing && SidForm(sid) && PathForm(home) && sid !in r.sessions)
      && (c in t.who ==> t.who[c] == sid && sid in t.sessions && t.sessions[sid] == Session(home, None, {}))
  {
    hide SidForm, PathForm;
  }

  /** So every process can join under a minted session id that nobody live has, from wherever it runs. */
  lemma AnybodyJoins(cfg: Config, s: System, c: Connection, rid: Option<RequestId>, bytes: seq<Byte>,
                     resolved: string, userHome: string, ts: real)
    requires Well(s) && c !in s.hub.conns && !s.closing
    requires |bytes| == 12 && MintSid(bytes) !in s.hub.connections && IsRealPath(resolved) && IsRealPath(userHome)
    ensures var hello := ReqHello(MintSid(bytes), NormalizePath(resolved, userHome), ts);
      var r := RosterOf(Run(cfg, s, [Accepted(c), Called(c, rid, hello)]));
      c in r.who && r.who[c] == MintSid(bytes) && MintSid(bytes) in r.sessions
      && r.sessions[MintSid(bytes)] == Session(NormalizePath(resolved, userHome), None, {})
  {
    hide *;
    var sid, home := MintSid(bytes), NormalizePath(resolved, userHome);
    MintedSids(bytes, bytes);
    SidFormIff(sid);
    NormalizeRoundTrip(resolved, userHome);
    PathFormIff(home);
    JoinsIff(cfg, s, c, rid, sid, home, ts);
  }

  // ---------------------------------------------------------------- aliases

  /** What is looked up under an alias once a session of a home has the chosen one instead of its own. */
  function Relooked(table: AliasTable, own: Session, sid: string, alias: string, home: string, a: string)
    : Option<string>
  {
    if home == own.home && a == alias && alias != "" then Some(sid)
    else if home == own.home && Some(a) == own.alias then None
    else Holder(table, home, a)
  }

  function Chosen(alias: string): Option<string> {
    if alias == "" then None else Some(alias)
  }

  /** After an accepted change of an alias the new one leads to the session, the old one to nobody, and
      everything else to where it led before. */
  lemma AliasLookup(cfg: Config, s: System, c: Connection, rid: Option<RequestId>, alias: string, ts: real)
    requires Well(s) && c in s.open && Handle(cfg, s.hub, c, ReqSetAlias(alias, ts)).1.Ok?
    ensures var (k, t) := (s.hub.At(c), Step(cfg, s, Called(c, rid, ReqSetAlias(alias, ts))));
      && k.sid.Some? && SessionOf(t.hub.At(c)) == SessionOf(k).(alias := Chosen(alias))
      && forall home, a ::
           Holder(t.hub.aliases, home, a) == Relooked(s.hub.aliases, SessionOf(k), k.sid.value, alias, home, a)
  {
    hide Well, Handle, RosterOf, Intact, TablesAgree, AliasesAgree, Relooked, Dispatch, Next;
    var k, r := s.hub.At(c), RosterOf(s);
    var t := Step(cfg, s, Called(c, rid, ReqSetAlias(alias, ts)));
    AliasStep(cfg, s, c, rid, alias, ts);
    AliasTables(s);
    AliasTables(t);
    forall home, a {
      LookedUp(s.hub.aliases, t.hub.aliases, r.sessions, k.sid.value, alias, home, a);
    }
  }

  /** The entry of the session changes, and no other entry. */
  lemma AliasStep(cfg: Config, s: System, c: Connection, rid: Option<RequestId>, alias: string, ts: real)
    requires Well(s) && c in s.open && Handle(cfg, s.hub, c, ReqSetAlias(alias, ts)).1.Ok?
    ensures var (k, t) := (s.hub.At(c), Step(cfg, s, Called(c, rid, ReqSetAlias(alias, ts))));
      && k.sid.Some? && Well(t) && k.sid.value in RosterOf(s).sessions
      && RosterOf(s).sessions[k.sid.value] == SessionOf(k)
      && SessionOf(t.hub.At(c)) == SessionOf(k).(alias := Chosen(alias))
      && RosterOf(t).sessions == RosterOf(s).sessions[k.sid.value := SessionOf(k).(alias := Chosen(alias))]
  {
    hide Well, Handle, RosterOf, Dispatch, TakenByOther, AliasForm;
    var e := Called(c, rid, ReqSetAlias(alias, ts));
    Listed(s, c);
    StepWell(cfg, s, e);
    ServedIs(cfg, s, c, rid, e.req);
    VerdictIs(cfg, s, c, e.req);
    assert c in Step(cfg, s, e).open;
    Listed(Step(cfg, s, e), c);
  }

  lemma AliasTables(s: System)
    requires Well(s)
    ensures AliasesAgree(s.hub.aliases, RosterOf(s).sessions)
  {
    hide AliasesAgree;
  }

  lemma LookedUp(before: AliasTable, after: AliasTable, sessions: map<string, Session>, sid: string, alias: string,
                 home: string, a: string)
    requires sid in sessions && AliasesAgree(before, sessions)
    requires AliasesAgree(after, sessions[sid := sessions[sid].(alias := Chosen(alias))])
    ensures Holder(after, home, a) == Relooked(before, sessions[sid], sid, alias, home, a)
  {
    hide Holder;
    forall x
      ensures Holder(after, home, a) == Some(x) <==> Relooked(before, sessions[sid], sid, alias, home, a) == Some(x)
    {
      assert Holder(before, home, a) == Some(x)
        <==> x in sessions && sessions[x].home == home && sessions[x].alias == Some(a);
      assert Holder(before, home, a) == Some(sid)
        <==> sessions[sid].home == home && sessions[sid].alias == Some(a);
    }
    var l, r := Holder(after, home, a), Relooked(before, sessions[sid], sid, alias, home, a);
    assert l.Some? ==> r == Some(l.value);
    assert r.Some? ==> l == Some(r.value);
  }

  /** An alias that a session gives up is free at once: any other session of the home can take it, and
      messages to it no longer find the session. */
  lemma ReleasedIsFree(cfg: Config, s: System, c: Connection, rid: Option<RequestId>, alias: string, ts: real,
                       old_: string, d: Connection, ts2: real)
    requires Well(s) && c in s.open && Handle(cfg, s.hub, c, ReqSetAlias(alias, ts)).1.Ok?
    requires s.hub.At(c).alias == Some(old_) && old_ != alias
    requires d in s.open && s.hub.At(d).sid.Some? && s.hub.At(d).home == s.hub.At(c).home
    ensures var t := Step(cfg, s, Called(c, rid, ReqSetAlias(alias, ts)));
      && Handle(cfg, t.hub, d, ReqSetAlias(old_, ts2)).1.Ok?
      && s.hub.At(c).sid.Some? && s.hub.At(c).home.Some?
      && !Resolves(t.hub, DirectKey(s.hub.At(c).home.value, old_), s.hub.At(c).sid.value)
  {
    var t := Step(cfg, s, Called(c, rid, ReqSetAlias(alias, ts)));
    AliasLookup(cfg, s, c, rid, alias, ts);
    StepWell(cfg, s, Called(c, rid, ReqSetAlias(alias, ts)));
    SameHome(cfg, s, Called(c, rid, ReqSetAlias(alias, ts)), d);
    SameHome(cfg, s, Called(c, rid, ReqSetAlias(alias, ts)), c);
    ProperAlias(s, c);
    FreeToClaim(cfg, t.hub, d, old_, ts2);
    NotItsKey(t, c, old_);
    hide *;
  }

  /** A request changes neither the session id nor the home of a session. */
  lemma SameHome(cfg: Config, s: System, e: Event, c: Connection)
    requires Well(s) && e.Called? && c in s.open && s.hub.At(c).sid.Some?
    ensures var k := Step(cfg, s, e).hub.At(c);
      c in Step(cfg, s, e).open && k.sid == s.hub.At(c).sid && k.home == s.hub.At(c).home && k.home.Some?
  {
    hide Well, RosterOf, Dispatch, Intact;
    Listed(s, c);
    StepWell(cfg, s, e);
    StepIs(cfg, s, e);
    OpenStays(cfg, s, e, c);
    EntryStays(RosterOf(s), e, c);
    Listed(Step(cfg, s, e), c);
  }

  lemma OpenStays(cfg: Config, s: System, e: Event, c: Connection)
    requires e.Called? && c in s.open
    ensures c in Step(cfg, s, e).open && RosterOf(s).open == s.open
  {
    hide Dispatch;
  }

  lemma EntryStays(r: Roster, e: Event, c: Connection)
    requires Intact(r) && c in r.who && c in Next(r, e).open
    ensures var t := Next(r, e);
      && c in t.who && t.who[c] == r.who[c] && r.who[c] in r.sessions && t.who[c] in t.sessions
      && t.sessions[t.who[c]].home == r.sessions[r.who[c]].home
  {
    hide SessionVerdict, SidForm, PathForm;
  }

  lemma ProperAlias(s: System, c: Connection)
    requires Well(s) && c in s.open && s.hub.At(c).alias.Some?
    ensures IsValidAlias(s.hub.At(c).alias.value) && s.hub.At(c).sid.Some? && IsValidSid(s.hub.At(c).sid.value)
  {
    Listed(s, c);
    assert ProperIdentity(s.hub.At(c));
  }

  lemma FreeToClaim(cfg: Config, h: Hub, d: Connection, alias: string, ts: real)
    requires h.At(d).sid.Some? && IsValidAlias(alias) && Holder(h.aliases, h.At(d).HomeOrEmpty(), alias) == None
    ensures Handle(cfg, h, d, ReqSetAlias(alias, ts)).1.Ok?
  {
    hide Adopted;
  }

  lemma NotItsKey(s: System, c: Connection, alias: string)
    requires Well(s) && IsSession(s, c) && IsValidAlias(alias) && s.hub.At(c).alias != Some(alias)
    ensures !Resolves(s.hub, DirectKey(s.hub.At(c).home.value, alias), s.hub.At(c).sid.value)
  {
    hide Well, IsValidAlias, IsValidSid, Resolves, DirectKey, HomeKey;
    var k := s.hub.At(c);
    ProperSession(s, c);
    KeyTail(k.home.value, alias);
    KeyTail(k.home.value, k.sid.value);
    SidAliasDisjoint(alias);
    if k.alias.Some? {
      KeyTail(k.home.value, k.alias.value);
    }
    if Resolves(s.hub, DirectKey(k.home.value, alias), k.sid.value) {
      ResolvedIsOwnKey(s, c, DirectKey(k.home.value, alias));
    }
  }

  lemma ProperSession(s: System, c: Connection)
    requires Well(s) && IsSession(s, c)
    ensures IsValidSid(s.hub.At(c).sid.value)
  {
    assert ProperIdentity(s.hub.At(c));
  }

  lemma KeyTail(home: string, d: string)
    ensures DirectKey(home, d) != HomeKey(home)
    ensures |DirectKey(home, d)| >= 6 + |home| && DirectKey(home, d)[6 + |home|..] == d
  {
    assert |DirectKey(home, d)| > |HomeKey(home)|;
  }

  // ---------------------------------------------------------------- subscriptions

  /** After an accepted unsubscription the session is no subscriber of the topic; its other topics and
      all other subscribers stay. */
  lemma UnsubscribeEnds(cfg: Config, s: System, c: Connection, rid: Option<RequestId>, topic: string)
    requires Well(s) && c in s.open && Handle(cfg, s.hub, c, ReqUnsubscribe(topic)).1.Ok?
    ensures var (k, t) := (s.hub.At(c), Step(cfg, s, Called(c, rid, ReqUnsubscribe(topic))));
      && k.sid.Some? && SessionOf(t.hub.At(c)) == SessionOf(k).(subs := k.subs - {topic})
      && forall u :: Members(t.hub.topicSubs, u)
                  == Members(s.hub.topicSubs, u) - (if u == topic then {k.sid.value} else {})
  {
    hide Well, Handle, RosterOf, Step, TopicsAgree;
    var k, t := s.hub.At(c), Step(cfg, s, Called(c, rid, ReqUnsubscribe(topic)));
    InterestStep(cfg, s, c, rid, ReqUnsubscribe(topic));
    TopicTables(s);
    TopicTables(t);
    Resubscribed(s.hub.topicSubs, t.hub.topicSubs, RosterOf(s).sessions, k.sid.value, k.subs - {topic});
  }

  /** After an accepted subscription the session is a subscriber of the topic as well; its other topics
      and all other subscribers stay. */
  lemma SubscribeBegins(cfg: Config, s: System, c: Connection, rid: Option<RequestId>, topic: string, replay: int)
    requires Well(s) && c in s.open && Handle(cfg, s.hub, c, ReqSubscribe(topic, replay)).1.Ok?
    ensures var (k, t) := (s.hub.At(c), Step(cfg, s, Called(c, rid, ReqSubscribe(topic, replay))));
      && k.sid.Some? && SessionOf(t.hub.At(c)) == SessionOf(k).(subs := k.subs + {topic})
      && forall u :: Members(t.hub.topicSubs, u)
                  == Members(s.hub.topicSubs, u) + (if u == topic then {k.sid.value} else {})
  {
    hide Well, Handle, RosterOf, Step, TopicsAgree;
    var k, t := s.hub.At(c), Step(cfg, s, Called(c, rid, ReqSubscribe(topic, replay)));
    InterestStep(cfg, s, c, rid, ReqSubscribe(topic, replay));
    TopicTables(s);
    TopicTables(t);
    Resubscribed(s.hub.topicSubs, t.hub.topicSubs, RosterOf(s).sessions, k.sid.value, k.subs + {topic});
  }

  /** The entry of the session changes, and no other entry. */
  lemma InterestStep(cfg: Config, s: System, c: Connection, rid: Option<RequestId>, req: Request)
    requires Well(s) && c in s.open && Handle(cfg, s.hub, c, req).1.Ok? && (req.ReqSubscribe? || req.ReqUnsubscribe?)
    ensures var (k, t) := (s.hub.At(c), Step(cfg, s, Called(c, rid, req)));
      var subs := if req.ReqSubscribe? then k.subs + {req.topic} else k.subs - {req.topic};
      && k.sid.Some? && Well(t) && k.sid.value in RosterOf(s).sessions
      && RosterOf(s).sessions[k.sid.value] == SessionOf(k)
      && SessionOf(t.hub.At(c)) == SessionOf(k).(subs := subs)
      && RosterOf(t).sessions == RosterOf(s).sessions[k.sid.value := SessionOf(k).(subs := subs)]
  {
    hide Well, Handle, RosterOf, Dispatch, TopicForm;
    var e := Called(c, rid, req);
    Listed(s, c);
    StepWell(cfg, s, e);
    ServedIs(cfg, s, c, rid, req);
    VerdictIs(cfg, s, c, req);
    assert c in Step(cfg, s, e).open;
    Listed(Step(cfg, s, e), c);
  }

  lemma TopicTables(s: System)
    requires Well(s)
    ensures TopicsAgree(s.hub.topicSubs, RosterOf(s).sessions)
  {
    hide TopicsAgree;
  }

  lemma Resubscribed(before: map<string, set<string>>, after: map<string, set<string>>, sessions: map<string, Session>,
                     sid: string, subs: set<string>)
    requires sid in sessions && TopicsAgree(before, sessions)
    requires TopicsAgree(after, sessions[sid := sessions[sid].(subs := subs)])
    ensures forall u :: Members(after, u) == Members(before, u) - {sid} + (if u in subs then {sid} else {})
    ensures forall u :: sid in Members(before, u) <==> u in sessions[sid].subs
  {
    hide Members;
    forall u
      ensures Members(after, u) == Members(before, u) - {sid} + (if u in subs then {sid} else {})
    {
      forall x
        ensures x in Members(after, u) <==> if x == sid then u in subs else x in Members(before, u)
      {
        var changed := sessions[sid := sessions[sid].(subs := subs)];
        assert x in Members(before, u) <==> x in sessions && u in sessions[x].subs;
        assert x in Members(after, u) <==> x in changed && u in changed[x].subs;
      }
    }
  }
}
