/** What the invariant means for whole runs: indexes as scans, goodbye once per connection, and a
    shutdown that leaves nothing behind. */
module Lifecycle {
  import opened Base
  import opened Connections
  import opened Routing
  import opened Registry
  import opened Daemon
  import opened Invariant

  /** An open connection that has said hello under this session id. */
  predicate IsLive(s: System, c: Connection, sid: string) {
    c in s.open && s.hub.At(c).sid == Some(sid)
  }

  predicate LiveIn(s: System, home: string, sid: string) {
    exists c :: c in s.open && IsLive(s, c, sid) && s.hub.At(c).home == Some(home)
  }

  predicate LiveAs(s: System, home: string, alias: string, sid: string) {
    exists c :: c in s.open && IsLive(s, c, sid) && s.hub.At(c).home == Some(home) && s.hub.At(c).alias == Some(alias)
  }

  predicate LiveOn(s: System, topic: string, sid: string) {
    exists c :: c in s.open && IsLive(s, c, sid) && topic in s.hub.At(c).subs
  }

  /** Each index, read as a relation, is what a scan over the open connections computes. */
  ghost predicate IndexesAreScans(s: System) {
    var h := s.hub;
    && (forall sid :: sid in h.connections ==> IsLive(s, h.connections[sid], sid))
    && (forall c, sid :: c in s.open && IsLive(s, c, sid) ==> sid in h.connections && h.connections[sid] == c)
    && NoEmptyEntry(h.byHome) && NoEmptyEntry(h.topicSubs)
    && (forall home, sid :: sid in Members(h.byHome, home) <==> LiveIn(s, home, sid))
    && (forall home, a, sid :: Holder(h.aliases, home, a) == Some(sid) <==> LiveAs(s, home, a, sid))
    && (forall topic, sid :: sid in Members(h.topicSubs, topic) <==> LiveOn(s, topic, sid))
  }

  lemma WellIndexesAreScans(s: System)
    requires Well(s)
    ensures IndexesAreScans(s)
  {
    LiveIsIndexed(s);
    forall home, sid
      ensures sid in Members(s.hub.byHome, home) <==> LiveIn(s, home, sid)
    {
      EntriesAreScans(s, sid, home, "", "");
    }
    forall home, a, sid
      ensures Holder(s.hub.aliases, home, a) == Some(sid) <==> LiveAs(s, home, a, sid)
    {
      EntriesAreScans(s, sid, home, a, "");
    }
    forall topic, sid
      ensures sid in Members(s.hub.topicSubs, topic) <==> LiveOn(s, topic, sid)
    {
      EntriesAreScans(s, sid, "", "", topic);
    }
    hide Well, IsLive, Holder, Members, NoEmptyEntry, Hub.At, LiveIn, LiveAs, LiveOn;
  }

  /** Whoever an index lists is a live connection with the property in question, and back. */
  lemma EntriesAreScans(s: System, sid: string, home: string, a: string, topic: string)
    requires Well(s)
    ensures sid in Members(s.hub.byHome, home) <==> LiveIn(s, home, sid)
    ensures Holder(s.hub.aliases, home, a) == Some(sid) <==> LiveAs(s, home, a, sid)
    ensures sid in Members(s.hub.topicSubs, topic) <==> LiveOn(s, topic, sid)
  {
    var h, scan := s.hub, Scan(s.hub);
    LiveIsIndexed(s);
    assert sid in Members(h.byHome, home) <==> sid in scan && scan[sid].home == home;
    assert Holder(h.aliases, home, a) == Some(sid)
      <==> sid in scan && scan[sid].home == home && scan[sid].alias == Some(a);
    assert sid in Members(h.topicSubs, topic) <==> sid in scan && topic in scan[sid].subs;
    hide Well, Indexed, Holder, Members;
    assert sid in scan ==> scan[sid] == SessionOf(h.At(h.connections[sid]));
  }

  /** A session id is in the table iff some open connection has it, and that connection is the one
      stored there. */
  lemma LiveIsIndexed(s: System)
    requires Well(s)
    ensures NoEmptyEntry(s.hub.byHome) && NoEmptyEntry(s.hub.topicSubs)
    ensures forall c, sid :: c in s.open && IsLive(s, c, sid) ==>
      sid in s.hub.connections && s.hub.connections[sid] == c
    ensures forall sid :: sid in s.hub.connections ==>
      var c := s.hub.connections[sid];
      c in s.open && IsLive(s, c, sid) && s.hub.At(c).home == Some(Scan(s.hub)[sid].home)
  {
    forall c, sid | c in s.open && IsLive(s, c, sid)
      ensures sid in s.hub.connections && s.hub.connections[sid] == c
    {
      assert Consistent(s.hub, c);
    }
  }

  /** After any run, requests rejected or not, restarts included: the session table, the home
      index, the alias lookup and the subscription index are scans of the live connections. */
  lemma IndexRefinement(cfg: Config, start: System, es: seq<Event>)
    requires Booted(start)
    ensures IndexesAreScans(Run(cfg, start, es))
  {
    BootedWell(start);
    RunWell(cfg, start, es);
    WellIndexesAreScans(Run(cfg, start, es));
  }

  lemma BootedWell(s: System)
    requires Booted(s)
    ensures Well(s)
  {
    assert Scan(s.hub) == map[];
  }

  /** An alias has at most one holder in a home. */
  lemma AliasUnique(cfg: Config, start: System, es: seq<Event>, c: Connection, d: Connection)
    requires Booted(start)
    requires var s := Run(cfg, start, es);
      c in s.open && d in s.open && s.hub.At(c).home == s.hub.At(d).home
      && s.hub.At(c).alias == s.hub.At(d).alias && s.hub.At(c).alias.Some?
    ensures c == d
  {
    BootedWell(start);
    RunWell(cfg, start, es);
    HolderIsUnique(Run(cfg, start, es), c, d);
  }

  lemma HolderIsUnique(s: System, c: Connection, d: Connection)
    requires Well(s) && c in s.open && d in s.open && s.hub.At(c).home == s.hub.At(d).home
    requires s.hub.At(c).alias == s.hub.At(d).alias && s.hub.At(c).alias.Some?
    ensures c == d
  {
    assert Consistent(s.hub, c) && Consistent(s.hub, d);
    var scan, home, a := Scan(s.hub), s.hub.At(c).HomeOrEmpty(), s.hub.At(c).alias.value;
    assert scan[s.hub.At(c).sid.value] == SessionOf(s.hub.At(c));
    assert scan[s.hub.At(d).sid.value] == SessionOf(s.hub.At(d));
    assert Holder(s.hub.aliases, home, a) == s.hub.At(c).sid == s.hub.At(d).sid;
  }

  // ---------------------------------------------------------------- goodbye runs once

  /** A connection whose handler has finished. */
  predicate Gone(s: System, c: Connection) {
    c in s.hub.conns && c !in s.open
  }

  lemma StepKeepsKnown(cfg: Config, s: System, e: Event)
    requires Well(s)
    ensures s.hub.conns.Keys <= Step(cfg, s, e).hub.conns.Keys
  {
    match e {
      case Called(c, requestId, req) =>
        if c in s.open {
          SelfSettled(s.hub, c, s.open);
          HandleShape(cfg, s.hub, c, req);
          ReshapedKnown(cfg, s.hub, c, req);
        }
      case HungUp(c, ts) =>
        if c in s.open {
          SelfSettled(s.hub, c, s.open);
          GoodbyeShape(s.hub, c, ts);
        }
      case _ =>
    }
  }

  lemma ReshapedKnown(cfg: Config, h: Hub, c: Connection, req: Request)
    ensures h.conns.Keys <= Reshaped(cfg, h, c, req).conns.Keys
  {
    hide Handle, Enroll, Expel, RenameIn;
  }

  /** A finished handler stays finished, whatever happens later, so that goodbye runs exactly once
      per connection, even when another connection has taken over the session id. */
  lemma {:induction false} GoneForever(cfg: Config, s: System, c: Connection, es: seq<Event>, ts: real)
    requires Well(s) && Gone(s, c)
    ensures Gone(Run(cfg, s, es), c)
    ensures Step(cfg, Run(cfg, s, es), HungUp(c, ts)) == Run(cfg, s, es)
  {
    if es == [] {
    } else {
      var init := es[..|es| - 1];
      GoneForever(cfg, s, c, init, ts);
      RunWell(cfg, s, init);
      StepKeepsKnown(cfg, Run(cfg, s, init), es[|es| - 1]);
    }
  }

  /** Why once is needed: a goodbye leaves every other registration in place iff the session id of the
      connection is still its own. A second goodbye would take the session of whoever has come back
      under the same id. */
  lemma GoodbyeSparesIff(h: Hub, c: Connection, ts: real)
    requires Indexed(h) && c in h.conns
    ensures (forall d :: d in h.conns && d != c && IsRegistered(h, d) ==> IsRegistered(Goodbye(h, c, ts), d))
       <==> h.At(c).sid.None? || h.At(c).sid.value !in h.connections || h.connections[h.At(c).sid.value] == c
  {
    GoodbyeShape(h, c, ts);
    var g, sid := Goodbye(h, c, ts), h.At(c).sid;
    forall d | d in h.conns && d != c && IsRegistered(h, d)
      ensures IsRegistered(g, d) <==> h.At(d).sid != sid
    {
      assert g.At(d).sid == h.At(d).sid;
    }
    if sid.Some? && sid.value in h.connections {
      var d := h.connections[sid.value];
      assert d in h.conns && IsRegistered(h, d) && h.At(d).sid == sid;
    }
    hide Goodbye, TablesAgree;
  }

  /** Hanging up takes away nobody else's registration. */
  lemma HangUpSparesOthers(cfg: Config, s: System, c: Connection, d: Connection, ts: real)
    requires Well(s) && d != c && IsRegistered(s.hub, d) && d in s.open
    ensures IsRegistered(Step(cfg, s, HungUp(c, ts)).hub, d)
  {
    hide Indexed, Goodbye, Unregister, ProperIdentity;
    if c in s.open {
      GoodbyeShape(s.hub, c, ts);
      StaysRegistered(s.hub, Goodbye(s.hub, c, ts), c, d);
    }
  }

  lemma StaysRegistered(h: Hub, g: Hub, c: Connection, d: Connection)
    requires c in h.conns && d in h.conns && d != c && IsRegistered(h, d) && Consistent(h, c)
    requires g.conns.Keys == h.conns.Keys
    requires g.connections == if h.At(c).sid.Some? then h.connections - {h.At(c).sid.value} else h.connections
    requires forall d :: d in h.conns && d != c ==> g.conns[d] == h.conns[d].(outbox := g.conns[d].outbox)
    ensures IsRegistered(Close(g, c), d)
  {
    assert g.At(d).sid == h.At(d).sid;
  }

  // ---------------------------------------------------------------- shutdown

  predicate NoRestart(es: seq<Event>) {
    Restarted !in es
  }

  /** Once shutdown has begun, the set of unfinished handlers never grows. */
  lemma {:induction false} ClosingOnlyShrinks(cfg: Config, s: System, es: seq<Event>)
    requires s.closing && NoRestart(es)
    ensures Run(cfg, s, es).closing && Run(cfg, s, es).open <= s.open
    ensures forall c, ts :: HungUp(c, ts) in es ==> c !in Run(cfg, s, es).open
  {
    if es == [] {
    } else {
      var init, last := es[..|es| - 1], es[|es| - 1];
      assert last in es && es == init + [last];
      ClosingOnlyShrinks(cfg, s, init);
      var t := Run(cfg, s, init);
      assert Step(cfg, t, last).closing && Step(cfg, t, last).open <= t.open;
    }
  }

  /** When every handler that was unfinished at the start of the shutdown has hung up, in any
      order and interleaved with anything, all four indexes are empty. */
  lemma ShutdownEmpties(cfg: Config, start: System, before: seq<Event>, es: seq<Event>)
    requires Booted(start) && NoRestart(es) && Run(cfg, start, before).closing
    requires forall c :: c in Run(cfg, start, before).open ==> exists ts :: HungUp(c, ts) in es
    ensures var s := Run(cfg, start, before + es);
      && s.open == {} && s.hub.connections == map[] && s.hub.byHome == map[] && s.hub.topicSubs == map[]
      && forall home, a, sid :: Holder(s.hub.aliases, home, a) != Some(sid)
  {
    var s0 := Run(cfg, start, before);
    RunConcat(cfg, start, before, es);
    ClosingOnlyShrinks(cfg, s0, es);
    IndexRefinement(cfg, start, before + es);
    var s := Run(cfg, start, before + es);
    assert s.open == {};
    NothingLive(s);
  }

  lemma NothingLive(s: System)
    requires IndexesAreScans(s) && s.open == {}
    ensures s.hub.connections == map[] && s.hub.byHome == map[] && s.hub.topicSubs == map[]
    ensures forall home, a, sid :: Holder(s.hub.aliases, home, a) != Some(sid)
  {
    forall sid ensures sid !in s.hub.connections {}
    forall home ensures home !in s.hub.byHome {
      assert Members(s.hub.byHome, home) == {};
    }
    forall topic ensures topic !in s.hub.topicSubs {
      assert Members(s.hub.topicSubs, topic) == {};
    }
  }
}
