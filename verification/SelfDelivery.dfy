/** A session never gets its own direct message at once, but it can get it from a queue. */
module SelfDelivery {
  import opened Base
  import opened Messages
  import opened Addressing
  import opened Connections
  import opened Store
  import opened Routing
  import opened Registry
  import opened Delivery
  import opened Daemon
  import opened Queues
  import opened Reach
  import opened Effects

  /** The alias is free in the home of the session, and nothing waits for it. */
  ghost predicate FreeAlias(h: Hub, c: Connection, alias: string) {
    && h.At(c).home.Some? && IsValidAlias(alias) && Some(alias) != h.At(c).alias
    && Holder(h.aliases, h.At(c).home.value, alias) == None
    && QueueAt(h.dms, DirectKey(h.At(c).home.value, alias)) == []
  }

  /** No accepted send ever puts anything into the outbox of its sender. */
  lemma NeverAtOnce(cfg: Config, h: Hub, c: Connection, to: string, body: Json, replyTo: Option<string>,
                    id: string, ts: real)
    requires Indexed(h) && IsRegistered(h, c) && c in h.conns && Send(cfg, h, c, to, body, replyTo, id, ts).1.Ok?
    ensures Send(cfg, h, c, to, body, replyTo, id, ts).0.At(c) == h.At(c)
  {
    SendEffect(cfg, h, c, to, body, replyTo, id, ts);
    assert h.At(c).outbox + [] == h.At(c).outbox;
    hide Send, Indexed;
  }

  /** Nobody answers to a free alias. */
  lemma ResolvesToNobody(s: System, home: string, alias: string)
    requires Well(s) && IsValidAlias(alias) && Holder(s.hub.aliases, home, alias) == None
    ensures Resolve(s.hub, Home(home, Some(alias))) == {}
  {
    SidAliasDisjoint(alias);
    forall sid | sid in s.hub.connections
      ensures IsValidSid(sid)
    {
      assert ProperIdentity(s.hub.At(s.hub.connections[sid]));
    }
    hide ProperIdentity, IsValidSid, IsValidAlias, Indexed;
  }

  lemma QueuedForFree(cfg: Config, s: System, c: Connection, alias: string, body: Json, id: string, ts: real)
    requires Well(s) && IsSession(s, c) && FreeAlias(s.hub, c, alias) && '#' !in s.hub.At(c).home.value
    ensures var (h, key) := (s.hub, DirectKey(s.hub.At(c).home.value, alias));
      Send(cfg, h, c, key, body, None, id, ts)
        == (h.(conns := Send(cfg, h, c, key, body, None, id, ts).0.conns,
               dms := Enqueue(h.dms, Compose(h, c, key, body, None, id, ts), cfg.dmMax)), Ok(SendReply(id, 0)))
  {
    var h, home := s.hub, s.hub.At(c).home.value;
    var key := DirectKey(home, alias);
    var m := Compose(h, c, key, body, None, id, ts);
    assert Consistent(h, c) && ProperIdentity(h.At(c));
    ParseRender(key, Home(home, Some(alias)));
    ResolvesToNobody(s, home, alias);
    assert Receivers(cfg, h, c, Home(home, Some(alias)), m) == {};
    assert Sessions(h, {}) == {};
    hide Well, ParseAddress, Resolve, Hub.Watchers, PostTo, IsValidAlias, IsNormalizedPath;
  }

  /** What an accepted changed claim enqueues for its own connection. */
  function ClaimFrames(cfg: Config, h: Hub, c: Connection, alias: string, ts: real, rid: RequestId): seq<Frame> {
    var (before, after) := (h.At(c).outbox, Dispatch(cfg, h, c, Some(rid), ReqSetAlias(alias, ts)).At(c).outbox);
    if |before| <= |after| then after[|before|..] else []
  }

  /** Exactly which messages a claim delivers: those that wait for the alias and pass the filter. So a
      session gets a message of its own from a claim iff it is among them. */
  lemma ClaimHandsOverIff(cfg: Config, h: Hub, c: Connection, alias: string, ts: real, rid: RequestId, m: Message)
    requires Indexed(h) && Consistent(h, c) && h.At(c).sid.Some? && !h.At(c).closed
    requires SetAlias(cfg, h, c, alias, ts).1.Ok? && alias != "" && Some(alias) != h.At(c).alias
    ensures PeerMessage(m) in ClaimFrames(cfg, h, c, alias, ts, rid)
       <==> m in QueueAt(h.dms, DirectKey(h.At(c).HomeOrEmpty(), alias)) && cfg.Accepts(h.At(c), m)
  {
    hide Dispatch, SetAlias, Indexed, Consistent, Filter, DirectKey, QueueAt;
    var k := h.At(c);
    var waiting := QueueAt(h.dms, DirectKey(k.HomeOrEmpty(), alias));
    var got := cfg.Accepted(k, waiting);
    var changed := AliasChanged(k.HomeOrEmpty(), k.sid.value, Some(alias), k.alias, ts);
    var response := Response(rid, AliasReply(Some(alias)));
    ClaimDelivers(cfg, h, c, alias, ts, rid);
    NewFrames(k.outbox, MessageFrames(got), changed, response);
    assert ClaimFrames(cfg, h, c, alias, ts, rid) == MessageFrames(got) + [changed, response];
    FramesOfMessages(got, m);
    FilterIn(x => cfg.Accepts(k, x), waiting);
    hide MessageFrames;
  }

  lemma NewFrames(before: seq<Frame>, fs: seq<Frame>, f: Frame, g: Frame)
    ensures before + fs + [f] + [g] == before + (fs + [f, g])
    ensures (before + (fs + [f, g]))[|before|..] == fs + [f, g]
  {
  }

  lemma FramesOfMessages(msgs: seq<Message>, m: Message)
    ensures PeerMessage(m) in MessageFrames(msgs) <==> m in msgs
  {
    if m in msgs {
      var i :| 0 <= i < |msgs| && msgs[i] == m;
      assert MessageFrames(msgs)[i] == PeerMessage(m);
    }
  }

  /** A session that sends to an alias that is free in its own home, and then claims it, gets its own
      message, just before the notification of the change and the response. */
  lemma OwnMessageThroughClaim(cfg: Config, s: System, c: Connection, alias: string, body: Json, id: string,
                               ts: real, later: real, rid: RequestId)
    requires cfg.StarMatchesAll() && cfg.dmMax > 0 && Well(s) && IsSession(s, c) && FreeAlias(s.hub, c, alias)
    requires '#' !in s.hub.At(c).home.value && s.hub.At(c).dmFilter == ["*"] && !s.hub.At(c).closed
    ensures var (k, key) := (s.hub.At(c), DirectKey(s.hub.At(c).home.value, alias));
      var m := Compose(s.hub, c, key, body, None, id, ts);
      var h1 := Send(cfg, s.hub, c, key, body, None, id, ts).0;
      && h1.At(c) == k
      && Dispatch(cfg, h1, c, Some(rid), ReqSetAlias(alias, later)).At(c).outbox
         == k.outbox + [PeerMessage(m)] + [AliasChanged(k.home.value, k.sid.value, Some(alias), k.alias, later)]
            + [Response(rid, AliasReply(Some(alias)))]
  {
    var (h, k) := (s.hub, s.hub.At(c));
    var key := DirectKey(k.home.value, alias);
    var m := Compose(h, c, key, body, None, id, ts);
    var h1 := Send(cfg, h, c, key, body, None, id, ts).0;
    assert Consistent(h, c);
    QueuedForFree(cfg, s, c, alias, body, id, ts);
    NeverAtOnce(cfg, h, c, key, body, None, id, ts);
    SendKeeps(cfg, h, c, key, body, None, id, ts);
    OnlyQueued(cfg, h, m);
    AcceptsItself(cfg, k, m);
    assert Consistent(h1, c);
    hide Well, Send, Indexed, Config.Accepted, Compose, Enqueue;
    ClaimDelivers(cfg, h1, c, alias, later, rid);
  }

  lemma OnlyQueued(cfg: Config, h: Hub, m: Message)
    requires QueueAt(h.dms, m.to) == [] && cfg.dmMax > 0
    ensures QueueAt(Enqueue(h.dms, m, cfg.dmMax), m.to) == [m]
  {
  }

  lemma AcceptsItself(cfg: Config, k: Conn, m: Message)
    requires cfg.StarMatchesAll() && k.dmFilter == ["*"]
    ensures cfg.Accepted(k, [m]) == [m] && MessageFrames([m]) == [PeerMessage(m)]
  {
    assert "*" in k.dmFilter;
    FilterAll(x => cfg.Accepts(k, x), [m]);
  }
}
