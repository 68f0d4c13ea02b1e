/** Each composite request as the sequence of intermediate states that the router goes through. */
module Plans {
  import opened Base
  import opened Messages
  import opened Addressing
  import opened Connections
  import opened Store
  import opened Routing
  import opened Registry
  import opened Delivery

  lemma GoodbyePlan(h: Hub, c: Connection, ts: real) returns (h1: Hub)
    requires SidsIndexed(h) && c in h.conns && h.At(c).sid.Some? && h.At(c).home.Some?
    ensures var k := h.At(c);
      && h1 == Unregister(h, c) && SidsIndexed(h1)
      && Routing.Goodbye(h, c, ts)
         == h1.Post(h1.Others(k.sid), PeerLeft(k.home.value, k.sid.value, k.alias, ts))
    ensures SidsIndexed(Routing.Goodbye(h, c, ts))
  {
    h1 := Unregister(h, c);
  }

  lemma RejectPlan(cfg: Config, h: Hub, c: Connection, alias: string, ts: real) returns (h0: Hub)
    requires Indexed(h) && Consistent(h, c) && h.At(c).sid.Some?
    ensures h.At(c).home.Some?
    ensures var (k, r) := (h.At(c), Routing.SetAlias(cfg, h, c, alias, ts));
      var (sid, home) := (k.sid.value, k.home.value);
      && h0 == h.(aliases := WithHome(h.aliases, home)) && home in h0.aliases
      && Indexed(h0) && IsRegistered(h0, c) && h0.At(c) == k
      && var (owner, chosen) := (Holder(h0.aliases, home, alias), if alias == "" then None else Some(alias));
        if alias != "" && !IsValidAlias(alias) then r == (h0, Err(INVALID_PARAMS))
        else if alias != "" && owner.Some? && owner.value != sid then r == (h0, Err(ALIAS_TAKEN))
        else r == (Adopted(cfg, h0, c, chosen, ts), Ok(AliasReply(chosen)))
             && (chosen.Some? ==> Holder(h0.aliases, home, chosen.value) in {None, Some(sid)})
  {
    var home := h.At(c).home.value;
    h0 := h.(aliases := WithHome(h.aliases, home));
    WithHomeKeeps(h, home);
    if SetAlias(cfg, h, c, alias, ts).1.Ok? {
      AdoptedWithHome(cfg, h, c, if alias == "" then None else Some(alias), ts);
    }
  }

  /** Inserting the empty inner table first makes no difference. */
  lemma AdoptedWithHome(cfg: Config, h: Hub, c: Connection, chosen: Option<string>, ts: real)
    requires h.At(c).sid.Some?
    ensures var h0 := h.(aliases := WithHome(h.aliases, h.At(c).HomeOrEmpty()));
      Adopted(cfg, h0, c, chosen, ts) == Adopted(cfg, h, c, chosen, ts)
  {
    var h0 := h.(aliases := WithHome(h.aliases, h.At(c).HomeOrEmpty()));
    assert Rename(h0, c, chosen) == Rename(h, c, chosen);
  }

  lemma AdoptPlan(cfg: Config, h: Hub, c: Connection, chosen: Option<string>, ts: real) returns (h1: Hub, h2: Hub)
    requires Indexed(h) && IsRegistered(h, c) && h.At(c).home.Some?
    requires chosen.Some? ==> Holder(h.aliases, h.At(c).home.value, chosen.value) in {None, h.At(c).sid}
    ensures var k := h.At(c);
      && h1 == Rename(h, c, chosen) && SidsIndexed(h2)
      && h2 == (if chosen.Some? && chosen != k.alias then Drain(cfg, h1, c, DirectKey(k.home.value, chosen.value))
                else h1)
      && Adopted(cfg, h, c, chosen, ts)
         == h2.Post(h2.Others(None), AliasChanged(k.home.value, k.sid.value, chosen, k.alias, ts))
    ensures Indexed(Adopted(cfg, h, c, chosen, ts))
  {
    var k := h.At(c);
    AdoptedKeeps(cfg, h, c, chosen, ts);
    RenameKeeps(h, c, chosen);
    h1 := Rename(h, c, chosen);
    h2 := h1;
    if chosen.Some? && chosen != k.alias {
      h2 := Drain(cfg, h1, c, DirectKey(k.home.value, chosen.value));
      AfterDrain(cfg, h1, c, DirectKey(k.home.value, chosen.value));
    }
  }

  lemma HelloPlan(cfg: Config, h: Hub, c: Connection, sid: string, home: string, ts: real)
    returns (h1: Hub, h2: Hub, h3: Hub)
    requires Indexed(h) && Consistent(h, c) && h.At(c).sid.None? && sid !in h.connections
    ensures h1 == Register(h, c, sid, home) && h2 == Drain(cfg, h1, c, HomeKey(home))
    ensures h3 == Drain(cfg, h2, c, DirectKey(home, sid)) && SidsIndexed(h3)
    ensures Routing.Hello(cfg, h, c, sid, home, ts).0 == h3.Post(h3.Others(Some(sid)), PeerJoined(home, sid, ts))
    ensures Indexed(Routing.Hello(cfg, h, c, sid, home, ts).0)
  {
    h1 := Register(h, c, sid, home);
    h2 := Drain(cfg, h1, c, HomeKey(home));
    h3 := Drain(cfg, h2, c, DirectKey(home, sid));
    HelloKeeps(cfg, h, c, sid, home, ts);
    RegisterKeeps(h, c, sid, home);
    AfterDrain(cfg, h1, c, HomeKey(home));
    AfterDrain(cfg, h2, c, DirectKey(home, sid));
  }

  lemma DrainPlan(cfg: Config, h: Hub, c: Connection, address: string)
    ensures address in h.dms && h.dms[address] != [] ==>
      h.(dms := h.dms[address := []]).At(c) == h.At(c) && Drain(cfg, h, c, address)
        == HandedOver(h.(dms := h.dms[address := []]), c, cfg.Accepted(h.At(c), h.dms[address]))
    ensures !(address in h.dms && h.dms[address] != []) ==> Drain(cfg, h, c, address) == h
  {
  }

  lemma RoutePlan(cfg: Config, h: Hub, c: Connection, addr: Address, m: Message)
    returns (h1: Hub, h2: Hub, rs: set<string>)
    requires Indexed(h) && addr.Home?
    ensures rs == Receivers(cfg, h, c, addr, m) && SidsIndexed(h)
    ensures h1 == h.Post(Sessions(h, rs), PeerMessage(m))
    ensures h2 == (if |rs| == 0 then h1.(dms := Enqueue(h1.dms, m, cfg.dmMax)) else h1) && SidsIndexed(h2)
    ensures Routed(cfg, h, c, addr, m)
      == (h2.Post(h2.Watchers(cfg, m, h.At(c).sid), WireMessage(m, |rs|, |rs| == 0)), Ok(SendReply(m.id, |rs|)))
  {
    rs := Receivers(cfg, h, c, addr, m);
    h1 := h.Post(Sessions(h, rs), PeerMessage(m));
    h2 := if rs == {} then h1.(dms := Enqueue(h1.dms, m, cfg.dmMax)) else h1;
    AfterPost(h, Sessions(h, rs), PeerMessage(m));
    AfterQueues(h1, h2);
  }

  lemma DueIsReceivers(cfg: Config, h: Hub, c: Connection, addr: Address, m: Message, sids: seq<string>)
    requires addr.Home? && (set s | s in sids) == Resolve(h, addr)
    ensures DueDirect(cfg, h, sids, m, h.At(c).sid) == Receivers(cfg, h, c, addr, m)
  {
    assert forall s :: s in sids <==> s in Resolve(h, addr);
  }

  lemma SpreadPlan(cfg: Config, h: Hub, c: Connection, topic: string, m: Message)
    returns (h1: Hub, h2: Hub, rs: set<string>)
    requires Indexed(h)
    ensures rs == Subscribers(h, topic, h.At(c).sid)
    ensures h1 == h.(topics := Enqueue(h.topics, m, cfg.topicMax)) && SidsIndexed(h1)
    ensures Subscribers(h1, topic, h.At(c).sid) == rs && Sessions(h1, rs) == Sessions(h, rs)
    ensures h2 == h1.Post(Sessions(h1, rs), PeerMessage(m)) && SidsIndexed(h2)
    ensures Published(cfg, h, c, topic, m)
      == (h2.Post(h2.Watchers(cfg, m, h.At(c).sid), WireMessage(m, |rs|, false)), Ok(PublishReply(m.id, |rs|)))
  {
    rs := Subscribers(h, topic, h.At(c).sid);
    h1 := h.(topics := Enqueue(h.topics, m, cfg.topicMax));
    AfterQueues(h, h1);
    h2 := h1.Post(Sessions(h1, rs), PeerMessage(m));
    AfterPost(h1, Sessions(h1, rs), PeerMessage(m));
  }

  lemma DueIsSubscribers(h: Hub, topic: string, sids: seq<string>, sender: Option<string>)
    requires (set s | s in sids) == Members(h.topicSubs, topic)
    ensures DueTopic(h, sids, sender) == Subscribers(h, topic, sender)
  {
    assert forall s :: s in sids <==> s in Members(h.topicSubs, topic);
  }

  lemma FollowPlan(h: Hub, c: Connection, topic: string, replay: nat)
    requires h.At(c).sid.Some?
    ensures var h1 := Subscribed(h, c, topic);
      var ring := QueueAt(h1.topics, TopicKey(topic));
      Followed(h, c, topic, replay)
        == if replay == 0 then h1
           else HandedOver(h1.(topics := h1.topics[TopicKey(topic) := ring]), c, LastN(ring, replay))
  {
  }
}
