/** The send side finds recipients by parsing an address; the drain side finds queues by gluing
    strings together. The two agree exactly on sessions whose home has no `#`. */
module Reach {
  import opened Base
  import opened Addressing
  import opened Connections
  import opened Routing
  import opened Registry
  import opened Daemon
  import opened Invariant

  /** Sending to the string would resolve to the session. */
  predicate Resolves(h: Hub, to: string, sid: string) {
    var parsed := ParseAddress(to);
    parsed.Ok? && parsed.value.Home? && sid in Resolve(h, parsed.value)
  }

  /** The queue addresses of a session: its home, itself by session id, itself by alias. */
  function OwnKeys(k: Conn): set<string>
    requires k.sid.Some? && k.home.Some?
  {
    {HomeKey(k.home.value), DirectKey(k.home.value, k.sid.value)}
    + (if k.alias.Some? then {DirectKey(k.home.value, k.alias.value)} else {})
  }

  /** An open connection that has said hello, with the facts that the invariant gives about it. */
  ghost predicate IsSession(s: System, c: Connection) {
    c in s.open && s.hub.At(c).sid.Some? && s.hub.At(c).home.Some?
  }

  lemma ResolvedIsOwnKey(s: System, c: Connection, to: string)
    requires Well(s) && IsSession(s, c) && Resolves(s.hub, to, s.hub.At(c).sid.value)
    ensures to in OwnKeys(s.hub.At(c)) && '#' !in s.hub.At(c).home.value
  {
    var h, k := s.hub, s.hub.At(c);
    var x := ParseAddress(to).value;
    ParseRender(to, x);
    assert Consistent(h, c);
    assert Scan(h)[k.sid.value] == SessionOf(k);
    assert x.home == k.home.value;
    assert x.disc.Some? ==> "home:" + x.home + "#" + x.disc.value == DirectKey(x.home, x.disc.value);
  }

  lemma OwnKeyResolves(s: System, c: Connection, to: string)
    requires Well(s) && IsSession(s, c) && to in OwnKeys(s.hub.At(c)) && '#' !in s.hub.At(c).home.value
    ensures Resolves(s.hub, to, s.hub.At(c).sid.value)
  {
    var h, k := s.hub, s.hub.At(c);
    var home, sid := k.home.value, k.sid.value;
    assert Consistent(h, c) && ProperIdentity(k);
    assert Scan(h)[sid] == SessionOf(k);
    if to == HomeKey(home) {
      ParseRender(to, Home(home, None));
    } else if to == DirectKey(home, sid) {
      ParseRender(to, Home(home, Some(sid)));
      SidIsNoAlias(s, home, sid);
    } else {
      ParseRender(to, Home(home, k.alias));
      assert Holder(h.aliases, home, k.alias.value) == Some(sid);
    }
  }

  /** A session id is nobody's alias. */
  lemma SidIsNoAlias(s: System, home: string, sid: string)
    requires Well(s) && IsValidSid(sid)
    ensures forall x :: Holder(s.hub.aliases, home, sid) != Some(x)
  {
    SidAliasDisjoint(sid);
    forall x | x in s.hub.connections
      ensures Scan(s.hub)[x].alias != Some(sid)
    {
      assert ProperIdentity(s.hub.At(s.hub.connections[x]));
    }
  }

  /** A session is found under exactly its own queue addresses, for every destination string,
      iff its home contains no `#`. */
  lemma FoundUnderOwnKeysIff(s: System, c: Connection)
    requires Well(s) && IsSession(s, c)
    ensures (forall to :: Resolves(s.hub, to, s.hub.At(c).sid.value) <==> to in OwnKeys(s.hub.At(c)))
       <==> '#' !in s.hub.At(c).home.value
  {
    var k := s.hub.At(c);
    forall to | Resolves(s.hub, to, k.sid.value)
      ensures to in OwnKeys(k) && '#' !in k.home.value
    {
      ResolvedIsOwnKey(s, c, to);
    }
    if '#' !in k.home.value {
      forall to | to in OwnKeys(k)
        ensures Resolves(s.hub, to, k.sid.value)
      {
        OwnKeyResolves(s, c, to);
      }
    }
    assert HomeKey(k.home.value) in OwnKeys(k);
  }

  // ---------------------------------------------------------------- what gets drained

  /** The queues that a request hands to its connection. */
  function DrainedKeys(cfg: Config, h: Hub, c: Connection, req: Request): set<string> {
    if Handle(cfg, h, c, req).1.Err? then {}
    else match req
      case ReqHello(sid, home, ts) => {HomeKey(home), DirectKey(home, sid)}
      case ReqSetAlias(alias, ts) =>
        if alias != "" && Some(alias) != h.At(c).alias then {DirectKey(h.At(c).HomeOrEmpty(), alias)} else {}
      case _ => {}
  }

  /** No queue is ever drained to a session that it does not address: after the request, every
      drained address is one that resolves to the session (in a home without `#`). */
  lemma DrainsOnlyOwn(cfg: Config, s: System, c: Connection, requestId: Option<RequestId>, req: Request, key: string)
    requires Well(s) && c in s.open && key in DrainedKeys(cfg, s.hub, c, req)
    ensures var t := Step(cfg, s, Called(c, requestId, req));
      IsSession(t, c) && key in OwnKeys(t.hub.At(c))
      && ('#' !in t.hub.At(c).home.value ==> Resolves(t.hub, key, t.hub.At(c).sid.value))
  {
    hide Adopted, Drain, IsValidSid, IsNormalizedPath, IsValidAlias, Indexed, Resolves;
    var t := Step(cfg, s, Called(c, requestId, req));
    DispatchWell(cfg, s, c, requestId, req);
    SelfSettled(s.hub, c, s.open);
    HandleShape(cfg, s.hub, c, req);
    assert t.hub.At(c).sid == Reshaped(cfg, s.hub, c, req).At(c).sid;
    assert t.hub.At(c).home == Reshaped(cfg, s.hub, c, req).At(c).home;
    assert t.hub.At(c).alias == Reshaped(cfg, s.hub, c, req).At(c).alias;
    if '#' !in t.hub.At(c).home.value {
      OwnKeyResolves(t, c, key);
    }
  }
}
