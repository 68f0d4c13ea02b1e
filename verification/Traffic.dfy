/** What an accepted message says, whom it reaches, and that a reply to its sender's address finds the
    sender, all in the terms of the protocol. */
module Traffic {
  import opened Base
  import opened Messages
  import opened Addressing
  import opened Connections
  import opened Store
  import opened Routing
  import opened Registry
  import opened Effects
  import opened Daemon
  import opened Invariant
  import opened Reach
  import opened Roster
  import opened Identity

  /** The addresses of a session: its home, and itself by session id or alias; none if its home has a `#`. */
  predicate AddressedTo(k: Conn, to: string)
    requires k.sid.Some? && k.home.Some?
  {
    && '#' !in k.home.value
    && (to == "home:" + k.home.value
        || to == "home:" + k.home.value + "#" + k.sid.value
        || (k.alias.Some? && to == "home:" + k.home.value + "#" + k.alias.value))
  }

  predicate SomePattern(cfg: Config, address: string, patterns: seq<string>) {
    exists p :: p in patterns && cfg.matches(address, p)
  }

  predicate IsOtherSession(s: System, c: Connection, d: Connection) {
    d in s.open && d != c && s.hub.At(d).sid.Some? && s.hub.At(d).home.Some?
  }

  /** The sessions that a direct message reaches. */
  function Reached(cfg: Config, s: System, c: Connection, to: string, from: string): set<Connection> {
    set d | d in s.open && IsOtherSession(s, c, d)
            && AddressedTo(s.hub.At(d), to) && SomePattern(cfg, from, s.hub.At(d).dmFilter)
  }

  /** A session that watches traffic from and to these addresses. */
  predicate Watches(cfg: Config, s: System, c: Connection, from: string, to: string, d: Connection) {
    && IsOtherSession(s, c, d) && s.hub.At(d).wireFrom.Some?
    && SomePattern(cfg, from, s.hub.At(d).wireFrom.value) && SomePattern(cfg, to, s.hub.At(d).wireTo)
  }

  // ---------------------------------------------------------------- sends

  lemma OtherRegistered(s: System, c: Connection, d: Connection)
    requires Well(s) && c in s.open
    ensures IsRegistered(s.hub, d) && d != c <==> IsOtherSession(s, c, d)
  {
    if d in s.open {
      Listed(s, d);
    }
  }

  lemma ReachedIff(cfg: Config, s: System, c: Connection, to: string, m: Message, d: Connection)
    requires Well(s) && c in s.open && ParseAddress(to).Ok? && ParseAddress(to).value.Home?
    ensures GetsDirect(cfg, s.hub, c, ParseAddress(to).value, m, d) <==> d in Reached(cfg, s, c, to, m.fromAddr)
  {
    OtherRegistered(s, c, d);
    if IsOtherSession(s, c, d) {
      AddressedIff(s, d, to);
    }
    hide Well, IsRegistered, Resolve, ParseAddress, AddressedTo;
  }

  /** Sending resolves to a session iff the destination is one of its addresses. */
  lemma AddressedIff(s: System, d: Connection, to: string)
    requires Well(s) && IsSession(s, d)
    ensures Resolves(s.hub, to, s.hub.At(d).sid.value) <==> AddressedTo(s.hub.At(d), to)
  {
    if Resolves(s.hub, to, s.hub.At(d).sid.value) {
      ResolvedIsOwnKey(s, d, to);
    }
    if AddressedTo(s.hub.At(d), to) {
      OwnKeyResolves(s, d, to);
    }
    hide Well, Resolves;
  }

  lemma WatchesIff(cfg: Config, s: System, c: Connection, m: Message, d: Connection)
    requires Well(s) && c in s.open
    ensures GetsWire(cfg, s.hub, c, m, d) <==> Watches(cfg, s, c, m.fromAddr, m.to, d)
  {
    OtherRegistered(s, c, d);
    hide Well, IsRegistered;
  }

  /** An accepted direct message carries its sender's address and alias of that time and exactly what was
      sent. Each session that it is addressed to and whose filter lets the sender through gets it once,
      each watcher with matching filters sees it once with the number reached, the sender neither; it is
      queued under its destination iff it reaches nobody; and nothing else changes. */
  lemma SendMeaning(cfg: Config, s: System, c: Connection, to: string, body: Json, replyTo: Option<string>,
                    id: string, ts: real)
    requires Well(s) && c in s.open && Send(cfg, s.hub, c, to, body, replyTo, id, ts).1.Ok?
    ensures var (k, (g, out)) := (s.hub.At(c), Send(cfg, s.hub, c, to, body, replyTo, id, ts));
      && k.sid.Some? && k.home.Some?
      && var from := "home:" + k.home.value + "#" + k.sid.value;
         var m := Message(id, from, k.alias, to, body, replyTo, ts);
         var got := Reached(cfg, s, c, to, from);
         && out == Ok(SendReply(id, |got|))
         && g == s.hub.(conns := g.conns, dms := g.dms) && g.conns.Keys == s.hub.conns.Keys
         && (forall d :: d in g.conns ==> g.conns[d] == s.hub.conns[d].EnqueueAll(
               If(d in got, PeerMessage(m))
               + If(Watches(cfg, s, c, from, to, d), WireMessage(m, |got|, got == {}))))
         && (forall a :: QueueAt(g.dms, a)
                      == if a == to && got == {} then LastN(QueueAt(s.hub.dms, a) + [m], cfg.dmMax)
                         else QueueAt(s.hub.dms, a))
  {
    hide Well, Send, Indexed, GetsDirect, GetsWire, Watches, Reached, If, Conn.EnqueueAll, ParseAddress, Enqueue;
    hide QueueAt, Compose, RosterOf, IsRegistered, LastN;
    var h := s.hub;
    var m := Compose(h, c, to, body, replyTo, id, ts);
    Listed(s, c);
    WellIndexed(s);
    SendParsed(cfg, h, c, to, body, replyTo, id, ts);
    ComposeSays(h, c, to, body, replyTo, id, ts);
    SendEffect(cfg, h, c, to, body, replyTo, id, ts);
    ReachedSet(cfg, s, c, to, m);
    WatchersSet(cfg, s, c, m);
    EnqueuedAt(h.dms, m, cfg.dmMax);
  }

  lemma WellIndexed(s: System)
    requires Well(s)
    ensures Indexed(s.hub)
  {
  }

  /** The sender's own address and alias, and exactly what was sent. */
  lemma ComposeSays(h: Hub, c: Connection, to: string, body: Json, replyTo: Option<string>, id: string, ts: real)
    requires h.At(c).sid.Some? && h.At(c).home.Some?
    ensures var k := h.At(c);
      Compose(h, c, to, body, replyTo, id, ts)
        == Message(id, "home:" + k.home.value + "#" + k.sid.value, k.alias, to, body, replyTo, ts)
  {
  }

  lemma ReachedSet(cfg: Config, s: System, c: Connection, to: string, m: Message)
    requires Well(s) && c in s.open && ParseAddress(to).Ok? && ParseAddress(to).value.Home?
    ensures var got := Reached(cfg, s, c, to, m.fromAddr);
      && got == (set d | d in s.hub.conns && GetsDirect(cfg, s.hub, c, ParseAddress(to).value, m, d))
      && forall d :: d in got <==> GetsDirect(cfg, s.hub, c, ParseAddress(to).value, m, d)
  {
    forall d
      ensures d in Reached(cfg, s, c, to, m.fromAddr) <==> GetsDirect(cfg, s.hub, c, ParseAddress(to).value, m, d)
      ensures d in Reached(cfg, s, c, to, m.fromAddr) ==> d in s.hub.conns
    {
      ReachedIff(cfg, s, c, to, m, d);
      if d in s.open {
        Listed(s, d);
      }
    }
    hide Well, ParseAddress, GetsDirect, IsOtherSession, AddressedTo, SomePattern;
  }

  lemma WatchersSet(cfg: Config, s: System, c: Connection, m: Message)
    requires Well(s) && c in s.open
    ensures forall d :: GetsWire(cfg, s.hub, c, m, d) <==> Watches(cfg, s, c, m.fromAddr, m.to, d)
  {
    forall d
      ensures GetsWire(cfg, s.hub, c, m, d) <==> Watches(cfg, s, c, m.fromAddr, m.to, d)
    {
      WatchesIff(cfg, s, c, m, d);
    }
    hide Well, GetsWire, Watches;
  }

  lemma SendParsed(cfg: Config, h: Hub, c: Connection, to: string, body: Json, replyTo: Option<string>, id: string,
                   ts: real)
    requires Send(cfg, h, c, to, body, replyTo, id, ts).1.Ok?
    ensures h.At(c).sid.Some? && ParseAddress(to).Ok? && ParseAddress(to).value.Home?
  {
  }

  lemma EnqueuedAt(queues: map<string, seq<Message>>, m: Message, max: nat)
    ensures forall a :: QueueAt(Enqueue(queues, m, max), a)
                     == if a == m.to then LastN(QueueAt(queues, a) + [m], max) else QueueAt(queues, a)
  {
  }

  // ---------------------------------------------------------------- publications

  /** The sessions that a publication reaches. */
  function Audience(s: System, c: Connection, topic: string): set<Connection> {
    set d | d in s.open && IsOtherSession(s, c, d) && topic in s.hub.At(d).subs
  }

  /** An accepted publication: likewise, to every other subscriber whatever its filter, always into the
      ring of the topic, and never queued. */
  lemma PublishMeaning(cfg: Config, s: System, c: Connection, topic: string, body: Json, id: string, ts: real)
    requires Well(s) && c in s.open && Publish(cfg, s.hub, c, topic, body, id, ts).1.Ok?
    ensures var (k, (g, out)) := (s.hub.At(c), Publish(cfg, s.hub, c, topic, body, id, ts));
      && k.sid.Some? && k.home.Some?
      && var (from, to) := ("home:" + k.home.value + "#" + k.sid.value, "topic:" + topic);
         var m := Message(id, from, k.alias, to, body, None, ts);
         var got := Audience(s, c, topic);
         && out == Ok(PublishReply(id, |got|))
         && g == s.hub.(conns := g.conns, topics := g.topics) && g.conns.Keys == s.hub.conns.Keys
         && (forall d :: d in g.conns ==> g.conns[d] == s.hub.conns[d].EnqueueAll(
               If(d in got, PeerMessage(m))
               + If(Watches(cfg, s, c, from, to, d), WireMessage(m, |got|, false))))
         && (forall a :: QueueAt(g.topics, a)
                      == if a == to then LastN(QueueAt(s.hub.topics, a) + [m], cfg.topicMax)
                         else QueueAt(s.hub.topics, a))
  {
    hide Well, Publish, Indexed, GetsTopic, GetsWire, Watches, Audience, If, Conn.EnqueueAll, Enqueue, QueueAt;
    hide Compose, RosterOf, IsRegistered, LastN, ValidateTopic;
    var h := s.hub;
    var m := Compose(h, c, TopicKey(topic), body, None, id, ts);
    Listed(s, c);
    WellIndexed(s);
    PublisherKnown(cfg, h, c, topic, body, id, ts);
    ComposeSays(h, c, TopicKey(topic), body, None, id, ts);
    PublishEffect(cfg, h, c, topic, body, id, ts);
    AudienceSet(s, c, topic);
    WatchersSet(cfg, s, c, m);
    EnqueuedAt(h.topics, m, cfg.topicMax);
  }

  lemma PublisherKnown(cfg: Config, h: Hub, c: Connection, topic: string, body: Json, id: string, ts: real)
    requires Publish(cfg, h, c, topic, body, id, ts).1.Ok?
    ensures h.At(c).sid.Some?
  {
  }

  lemma AudienceSet(s: System, c: Connection, topic: string)
    requires Well(s) && c in s.open
    ensures Audience(s, c, topic) == (set d | d in s.hub.conns && GetsTopic(s.hub, c, topic, d))
    ensures forall d :: d in Audience(s, c, topic) <==> GetsTopic(s.hub, c, topic, d)
  {
    forall d
      ensures d in Audience(s, c, topic) <==> GetsTopic(s.hub, c, topic, d)
      ensures d in Audience(s, c, topic) ==> d in s.hub.conns
    {
      OtherRegistered(s, c, d);
      if d in s.open {
        Listed(s, d);
      }
    }
    hide Well, IsOtherSession, IsRegistered;
  }

  // ---------------------------------------------------------------- replies

  /** The sender address of a session's messages resolves to that session alone iff its home has no `#`. */
  lemma SenderAddressIff(s: System, c: Connection)
    requires Well(s) && IsSession(s, c)
    ensures var k := s.hub.At(c);
      var from := "home:" + k.home.value + "#" + k.sid.value;
      (ParseAddress(from).Ok? && ParseAddress(from).value.Home?
       && Resolve(s.hub, ParseAddress(from).value) == {k.sid.value})
        <==> '#' !in k.home.value
  {
    var k := s.hub.At(c);
    var from := "home:" + k.home.value + "#" + k.sid.value;
    AddressedIff(s, c, from);
    if '#' !in k.home.value {
      ProperHome(s, c);
      ParseRender(from, Home(k.home.value, Some(k.sid.value)));
    }
    hide Well, ParseAddress, IsValidSid, IsNormalizedPath;
  }

  lemma ProperHome(s: System, c: Connection)
    requires Well(s) && IsSession(s, c)
    ensures IsValidSid(s.hub.At(c).sid.value) && IsNormalizedPath(s.hub.At(c).home.value)
  {
    assert ProperIdentity(s.hub.At(c));
  }

  /** A connection that is still open is the same session as before, whatever has happened. */
  lemma {:induction false} SessionLasts(cfg: Config, s: System, es: seq<Event>, c: Connection)
    requires Well(s) && c in s.open && s.hub.At(c).sid.Some? && c in Run(cfg, s, es).open
    ensures var k := Run(cfg, s, es).hub.At(c); k.sid == s.hub.At(c).sid && k.home == s.hub.At(c).home && k.home.Some?
  {
    hide Well, Step;
    Listed(s, c);
    if es != [] {
      var init, e := es[..|es| - 1], es[|es| - 1];
      StillOpen(cfg, s, init, e, c);
      SessionLasts(cfg, s, init, c);
      RunWell(cfg, s, init);
      SameSession(cfg, Run(cfg, s, init), e, c);
    }
  }

  lemma {:induction false} StillOpen(cfg: Config, s: System, es: seq<Event>, e: Event, c: Connection)
    requires c in s.hub.conns && Well(s) && c in Step(cfg, Run(cfg, s, es), e).open
    ensures c in Run(cfg, s, es).open
  {
    hide Well, Dispatch, Goodbye;
    KnownStays(cfg, s, es, c);
  }

  lemma {:induction false} KnownStays(cfg: Config, s: System, es: seq<Event>, c: Connection)
    requires Well(s) && c in s.hub.conns
    ensures c in Run(cfg, s, es).hub.conns
  {
    hide Well, Step;
    if es != [] {
      KnownStays(cfg, s, es[..|es| - 1], c);
      RunWell(cfg, s, es[..|es| - 1]);
      SeenStays(cfg, Run(cfg, s, es[..|es| - 1]), es[|es| - 1], c);
    }
  }

  lemma SeenStays(cfg: Config, s: System, e: Event, c: Connection)
    requires Well(s) && c in s.hub.conns
    ensures c in Step(cfg, s, e).hub.conns
  {
    hide Well, Step, Scan, Served, SessionVerdict;
    StepIs(cfg, s, e);
    assert c in RosterOf(s).seen && (c in RosterOf(Step(cfg, s, e)).seen ==> c in Step(cfg, s, e).hub.conns);
    hide RosterOf;
    NextSeen(RosterOf(s), e, c);
  }

  lemma NextSeen(r: Roster, e: Event, c: Connection)
    requires Intact(r) && c in r.seen
    ensures c in Next(r, e).seen
  {
    hide Verdict;
  }

  lemma SameSession(cfg: Config, s: System, e: Event, c: Connection)
    requires Well(s) && c in s.open && s.hub.At(c).sid.Some? && c in Step(cfg, s, e).open
    ensures var k := Step(cfg, s, e).hub.At(c); k.sid == s.hub.At(c).sid && k.home == s.hub.At(c).home && k.home.Some?
  {
    hide Well, RosterOf, Step;
    Listed(s, c);
    StepWell(cfg, s, e);
    StepIs(cfg, s, e);
    OpenInRoster(Step(cfg, s, e));
    EntryStays(RosterOf(s), e, c);
    Listed(Step(cfg, s, e), c);
  }

  lemma OpenInRoster(s: System)
    ensures RosterOf(s).open == s.open
  {
  }

  /** A reply finds the sender: however long after a message, while its sender is connected from a home
      without `#`, a message of anybody else to the address it came from is accepted, and reaches
      exactly the sender if its filter lets it through, and else waits under that address. */
  lemma ReplyFindsSender(cfg: Config, s: System, es: seq<Event>, c: Connection, d: Connection, body: Json,
                         replyTo: Option<string>, id: string, ts: real)
    requires Well(s) && c in s.open && s.hub.At(c).sid.Some?
    requires s.hub.At(c).home.Some? && '#' !in s.hub.At(c).home.value
    requires var t := Run(cfg, s, es); c in t.open && IsOtherSession(t, c, d)
    ensures var (t, k) := (Run(cfg, s, es), s.hub.At(c));
      var address := "home:" + k.home.value + "#" + k.sid.value;
      var from := "home:" + t.hub.At(d).home.value + "#" + t.hub.At(d).sid.value;
      && Send(cfg, t.hub, d, address, body, replyTo, id, ts).1.Ok?
      && Reached(cfg, t, d, address, from) == if SomePattern(cfg, from, t.hub.At(c).dmFilter) then {c} else {}
  {
    hide Well, Run, ParseAddress, Resolve, RosterOf, SomePattern, AddressedTo, Routed;
    var t := Run(cfg, s, es);
    RunWell(cfg, s, es);
    SessionLasts(cfg, s, es, c);
    SenderAddressIff(t, c);
    var address := "home:" + t.hub.At(c).home.value + "#" + t.hub.At(c).sid.value;
    forall e | IsOtherSession(t, d, e)
      ensures AddressedTo(t.hub.At(e), address) <==> e == c
    {
      OnlyAddressee(t, c, e);
    }
    SendAccepted(cfg, t.hub, d, address, body, replyTo, id, ts);
    var from := "home:" + t.hub.At(d).home.value + "#" + t.hub.At(d).sid.value;
    assert forall e :: e in Reached(cfg, t, d, address, from)
                  <==> e == c && SomePattern(cfg, from, t.hub.At(c).dmFilter);
  }

  lemma SendAccepted(cfg: Config, h: Hub, c: Connection, to: string, body: Json, replyTo: Option<string>, id: string,
                     ts: real)
    requires h.At(c).sid.Some? && ParseAddress(to).Ok? && ParseAddress(to).value.Home?
    ensures Send(cfg, h, c, to, body, replyTo, id, ts).1.Ok?
  {
    hide ParseAddress, Routed;
  }

  lemma OnlyAddressee(s: System, c: Connection, d: Connection)
    requires Well(s) && IsSession(s, c) && IsSession(s, d) && '#' !in s.hub.At(c).home.value
    ensures AddressedTo(s.hub.At(d), "home:" + s.hub.At(c).home.value + "#" + s.hub.At(c).sid.value) <==> d == c
  {
    var k := s.hub.At(c);
    SenderAddressIff(s, c);
    AddressedIff(s, d, "home:" + k.home.value + "#" + k.sid.value);
    Listed(s, c);
    Listed(s, d);
    hide Well, ParseAddress, AddressedTo, Resolve, RosterOf;
  }
}
