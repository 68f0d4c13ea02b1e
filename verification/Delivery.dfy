/** The delivery loops of the router, turn by turn, on abstract states. */
module Delivery {
  import opened Base
  import opened Messages
  import opened Connections
  import opened Routing
  import opened Registry

  function Picked(sids: seq<string>, p: string -> bool): set<string> {
    set s | s in sids && p(s)
  }

  /** The state after the first i sessions of a delivery loop, which serves those that satisfy p. */
  function Progress(h: Hub, sids: seq<string>, i: nat, p: string -> bool, f: Frame): Hub
    requires i <= |sids|
  {
    h.Post(Sessions(h, Picked(sids[..i], p)), f)
  }

  lemma ProgressEnds(h: Hub, sids: seq<string>, p: string -> bool, f: Frame)
    ensures Progress(h, sids, 0, p, f) == h
    ensures Progress(h, sids, |sids|, p, f) == h.Post(Sessions(h, Picked(sids, p)), f)
  {
    assert Picked(sids[..0], p) == {};
    assert PostTo(h.conns, Sessions(h, {}), f) == h.conns;
    assert sids[..|sids|] == sids;
  }

  /** One turn of a delivery loop takes the state from g to next. */
  ghost predicate Served(h: Hub, sid: string, due: bool, f: Frame, g: Hub, next: Hub) {
    if sid in h.connections then
      var c := h.connections[sid];
      && c in g.conns && g.At(c) == h.At(c) && g.At(c).sid == Some(sid)
      && next == if due then g.Put(c, g.At(c).Enqueue(f)) else g
    else next == g
  }

  /** The states that a delivery loop over a list of distinct sessions goes through. */
  lemma Trail(h: Hub, sids: seq<string>, p: string -> bool, f: Frame) returns (trail: seq<Hub>)
    requires SidsIndexed(h) && Distinct(sids)
    ensures |trail| == |sids| + 1 && trail[0] == h
    ensures trail[|sids|] == h.Post(Sessions(h, Picked(sids, p)), f)
    ensures forall i :: 0 <= i < |sids| ==> Served(h, sids[i], p(sids[i]), f, trail[i], trail[i + 1])
  {
    trail := seq(|sids| + 1, i requires 0 <= i <= |sids| => Progress(h, sids, i, p, f));
    ProgressEnds(h, sids, p, f);
    forall i | 0 <= i < |sids|
      ensures Served(h, sids[i], p(sids[i]), f, trail[i], trail[i + 1])
    {
      ProgressStep(h, sids, i, p, f);
    }
  }

  /** Serving one more session of the list, in the abstract state. */
  lemma ProgressStep(h: Hub, sids: seq<string>, i: nat, p: string -> bool, f: Frame)
    requires SidsIndexed(h) && i < |sids| && Distinct(sids)
    ensures Served(h, sids[i], p(sids[i]), f, Progress(h, sids, i, p, f), Progress(h, sids, i + 1, p, f))
  {
    var done, sid := Picked(sids[..i], p), sids[i];
    assert sids[..i + 1] == sids[..i] + [sid];
    assert Picked(sids[..i + 1], p) == if p(sid) then done + {sid} else done;
    if sid in h.connections {
      PostSession(h, done, sid, f);
    } else {
      assert Sessions(h, done + {sid}) == Sessions(h, done);
    }
  }

  lemma PostSession(h: Hub, done: set<string>, sid: string, f: Frame)
    requires SidsIndexed(h) && sid in h.connections && sid !in done
    ensures var (g, c) := (h.Post(Sessions(h, done), f), h.connections[sid]);
      && c in g.conns && g.At(c) == h.At(c) && g.At(c).sid == Some(sid)
      && h.Post(Sessions(h, done + {sid}), f) == g.Put(c, g.At(c).Enqueue(f))
  {
    var (g, c) := (h.Post(Sessions(h, done), f), h.connections[sid]);
    forall s | s in done && s in h.connections
      ensures h.connections[s] != c
    {
    }
    assert Sessions(h, done + {sid}) == Sessions(h, done) + {c};
    assert g.conns[c := h.At(c).Enqueue(f)] == PostTo(h.conns, Sessions(h, done) + {c}, f);
  }

  lemma BroadcastTrail(h: Hub, sids: seq<string>, exclude: Option<string>, f: Frame) returns (trail: seq<Hub>)
    requires SidsIndexed(h) && Distinct(sids) && forall s :: s in sids <==> s in h.connections
    ensures |trail| == |sids| + 1 && trail[0] == h && trail[|sids|] == h.Post(h.Others(exclude), f)
    ensures forall i :: 0 <= i < |sids| ==>
      Served(h, sids[i], Some(sids[i]) != exclude, f, trail[i], trail[i + 1])
  {
    var p := (s: string) => Some(s) != exclude;
    trail := Trail(h, sids, p, f);
    assert Sessions(h, Picked(sids, p)) == h.Others(exclude);
  }

  predicate Watches(cfg: Config, h: Hub, sid: string, m: Message, sender: Option<string>) {
    Some(sid) != sender && sid in h.connections && cfg.Observes(h.At(h.connections[sid]), m)
  }

  lemma WatchTrail(cfg: Config, h: Hub, sids: seq<string>, m: Message, sender: Option<string>, f: Frame)
    returns (trail: seq<Hub>)
    requires SidsIndexed(h) && Distinct(sids) && forall s :: s in sids <==> s in h.connections
    ensures |trail| == |sids| + 1 && trail[0] == h && trail[|sids|] == h.Post(h.Watchers(cfg, m, sender), f)
    ensures forall i :: 0 <= i < |sids| ==>
      Served(h, sids[i], Watches(cfg, h, sids[i], m, sender), f, trail[i], trail[i + 1])
  {
    var p := (s: string) => Watches(cfg, h, s, m, sender);
    trail := Trail(h, sids, p, f);
    assert Sessions(h, Picked(sids, p)) == h.Watchers(cfg, m, sender);
  }

  predicate IsDueDirect(cfg: Config, h: Hub, sid: string, m: Message, sender: Option<string>) {
    Some(sid) != sender && sid in h.connections && cfg.Accepts(h.At(h.connections[sid]), m)
  }

  function DueDirect(cfg: Config, h: Hub, sids: seq<string>, m: Message, sender: Option<string>): set<string> {
    set s | s in sids && IsDueDirect(cfg, h, s, m, sender)
  }

  /** The running counts of a loop over distinct list elements. */
  lemma {:induction false} Counts(sids: seq<string>, p: string -> bool) returns (counts: seq<nat>)
    requires Distinct(sids)
    ensures |counts| == |sids| + 1 && counts[0] == 0 && counts[|sids|] == |Picked(sids, p)|
    ensures forall i :: 0 <= i < |sids| ==> counts[i + 1] == counts[i] + if p(sids[i]) then 1 else 0
  {
    if sids == [] {
      assert Picked(sids, p) == {};
      return [0];
    }
    hide *;
    var init, last := sids[..|sids| - 1], sids[|sids| - 1];
    DistinctInit(sids);
    var before := Counts(init, p);
    assert sids == init + [last];
    PickedOneMore(sids, p);
    counts := before + [before[|init|] + if p(last) then 1 else 0];
  }

  lemma PickedOneMore(sids: seq<string>, p: string -> bool)
    requires sids != [] && Distinct(sids)
    ensures |Picked(sids, p)| == |Picked(sids[..|sids| - 1], p)| + if p(sids[|sids| - 1]) then 1 else 0
  {
    var init, last := sids[..|sids| - 1], sids[|sids| - 1];
    assert sids == init + [last];
    assert Picked(sids, p) == Picked(init, p) + if p(last) then {last} else {};
    assert last !in Picked(init, p);
  }

  lemma DirectTrail(cfg: Config, h: Hub, sids: seq<string>, m: Message, sender: Option<string>, f: Frame)
    returns (trail: seq<Hub>, counts: seq<nat>)
    requires SidsIndexed(h) && Distinct(sids)
    ensures |trail| == |counts| == |sids| + 1 && trail[0] == h && counts[0] == 0
    ensures var rs := DueDirect(cfg, h, sids, m, sender);
      trail[|sids|] == h.Post(Sessions(h, rs), f) && counts[|sids|] == |rs|
    ensures forall i :: 0 <= i < |sids| ==>
      && Served(h, sids[i], IsDueDirect(cfg, h, sids[i], m, sender), f, trail[i], trail[i + 1])
      && counts[i + 1] == counts[i] + if IsDueDirect(cfg, h, sids[i], m, sender) then 1 else 0
  {
    var p := (s: string) => IsDueDirect(cfg, h, s, m, sender);
    trail := Trail(h, sids, p, f);
    counts := Counts(sids, p);
    assert Picked(sids, p) == DueDirect(cfg, h, sids, m, sender);
  }

  predicate IsDueTopic(h: Hub, sid: string, sender: Option<string>) {
    Some(sid) != sender && sid in h.connections
  }

  function DueTopic(h: Hub, sids: seq<string>, sender: Option<string>): set<string> {
    set s | s in sids && IsDueTopic(h, s, sender)
  }

  lemma TopicTrail(h: Hub, sids: seq<string>, sender: Option<string>, f: Frame)
    returns (trail: seq<Hub>, counts: seq<nat>)
    requires SidsIndexed(h) && Distinct(sids)
    ensures |trail| == |counts| == |sids| + 1 && trail[0] == h && counts[0] == 0
    ensures var rs := DueTopic(h, sids, sender);
      trail[|sids|] == h.Post(Sessions(h, rs), f) && counts[|sids|] == |rs|
    ensures forall i :: 0 <= i < |sids| ==>
      && Served(h, sids[i], IsDueTopic(h, sids[i], sender), f, trail[i], trail[i + 1])
      && counts[i + 1] == counts[i] + if IsDueTopic(h, sids[i], sender) then 1 else 0
  {
    var p := (s: string) => IsDueTopic(h, s, sender);
    trail := Trail(h, sids, p, f);
    counts := Counts(sids, p);
    assert Picked(sids, p) == DueTopic(h, sids, sender);
  }

  // ---------------------------------------------------------------- handing over a list of messages

  /** One turn of a loop that hands messages to a connection, skipping those it does not accept. */
  ghost predicate Handed(c: Connection, m: Message, accepted: bool, g: Hub, next: Hub) {
    c in g.conns && next == if accepted then g.Put(c, g.At(c).Enqueue(PeerMessage(m))) else g
  }

  function HandedOver(h: Hub, c: Connection, msgs: seq<Message>): Hub {
    h.Put(c, h.At(c).EnqueueAll(MessageFrames(msgs)))
  }

  lemma {:induction false} HandTrail(h: Hub, c: Connection, msgs: seq<Message>, p: Message -> bool)
    returns (trail: seq<Hub>)
    requires c in h.conns
    ensures |trail| == |msgs| + 1 && trail[0] == h
    ensures trail[|msgs|] == HandedOver(h, c, Filter(p, msgs))
    ensures forall i :: 0 <= i < |msgs| ==>
      Handed(c, msgs[i], p(msgs[i]), trail[i], trail[i + 1])
      && trail[i].At(c) == h.At(c).(outbox := trail[i].At(c).outbox)
  {
    if msgs == [] {
      assert h.At(c).outbox + MessageFrames([]) == h.At(c).outbox;
      return [h];
    }
    hide *;
    var init, m := msgs[..|msgs| - 1], msgs[|msgs| - 1];
    var before := HandTrail(h, c, init, p);
    assert msgs == init + [m];
    var next := HandStep(h, c, init, m, p);
    trail := before + [next];
  }

  lemma HandStep(h: Hub, c: Connection, init: seq<Message>, m: Message, p: Message -> bool) returns (next: Hub)
    requires c in h.conns
    ensures next == HandedOver(h, c, Filter(p, init + [m]))
    ensures var g := HandedOver(h, c, Filter(p, init));
      Handed(c, m, p(m), g, next) && g.At(c) == h.At(c).(outbox := g.At(c).outbox)
  {
    FilterConcat(p, init, [m]);
    HandOneMore(h, c, Filter(p, init), m);
    assert Filter(p, init) + [] == Filter(p, init);
    assert Filter(p, [m]) == if p(m) then [m] else [];
    hide Filter, MessageFrames;
    var g := HandedOver(h, c, Filter(p, init));
    next := if p(m) then g.Put(c, g.At(c).Enqueue(PeerMessage(m))) else g;
  }

  lemma HandOneMore(h: Hub, c: Connection, msgs: seq<Message>, m: Message)
    requires c in h.conns
    ensures var g := HandedOver(h, c, msgs);
      g.Put(c, g.At(c).Enqueue(PeerMessage(m))) == HandedOver(h, c, msgs + [m])
  {
    assert MessageFrames(msgs + [m]) == MessageFrames(msgs) + [PeerMessage(m)];
    assert h.At(c).outbox + (MessageFrames(msgs) + [PeerMessage(m)])
        == h.At(c).outbox + MessageFrames(msgs) + [PeerMessage(m)];
  }

  lemma DrainTrail(cfg: Config, h: Hub, c: Connection, msgs: seq<Message>) returns (trail: seq<Hub>)
    requires c in h.conns
    ensures |trail| == |msgs| + 1 && trail[0] == h
    ensures trail[|msgs|] == HandedOver(h, c, cfg.Accepted(h.At(c), msgs))
    ensures forall i :: 0 <= i < |msgs| ==>
      Handed(c, msgs[i], cfg.Accepts(trail[i].At(c), msgs[i]), trail[i], trail[i + 1])
  {
    var p := m => cfg.Accepts(h.At(c), m);
    trail := HandTrail(h, c, msgs, p);
    forall i | 0 <= i < |msgs|
      ensures cfg.Accepts(trail[i].At(c), msgs[i]) == p(msgs[i])
    {
      assert Handed(c, msgs[i], p(msgs[i]), trail[i], trail[i + 1]);
    }
  }

  lemma {:induction false} FilterAll<T>(p: T -> bool, s: seq<T>)
    requires forall x :: x in s ==> p(x)
    ensures Filter(p, s) == s
  {
    if s == [] {
    } else {
      FilterAll(p, s[1..]);
      assert [s[0]] + s[1..] == s;
    }
  }

  lemma ReplayTrail(h: Hub, c: Connection, msgs: seq<Message>) returns (trail: seq<Hub>)
    requires c in h.conns
    ensures |trail| == |msgs| + 1 && trail[0] == h && trail[|msgs|] == HandedOver(h, c, msgs)
    ensures forall i :: 0 <= i < |msgs| ==> Handed(c, msgs[i], true, trail[i], trail[i + 1])
  {
    var p := (m: Message) => true;
    trail := HandTrail(h, c, msgs, p);
    FilterAll(p, msgs);
  }

  // ---------------------------------------------------------------- leaving every topic

  lemma {:induction false} ExpelTrail(table: map<string, set<string>>, keys: seq<string>, member: string)
    returns (trail: seq<map<string, set<string>>>)
    ensures |trail| == |keys| + 1 && trail[0] == table
    ensures trail[|keys|] == ExpelAll(table, (set k | k in keys), member)
    ensures forall i :: 0 <= i < |keys| ==> trail[i + 1] == Expel(trail[i], keys[i], member)
  {
    if keys == [] {
      assert ExpelAll(table, {}, member) == table;
      return [table];
    }
    var init, last := keys[..|keys| - 1], keys[|keys| - 1];
    var before := ExpelTrail(table, init, member);
    ghost var done := set k | k in init;
    assert keys == init + [last];
    assert (set k | k in keys) == done + {last};
    ExpelOneMore(table, done, last, member);
    trail := before + [Expel(before[|init|], last, member)];
  }

  lemma ExpelOneMore(table: map<string, set<string>>, done: set<string>, key: string, member: string)
    ensures ExpelAll(table, done + {key}, member) == Expel(ExpelAll(table, done, member), key, member)
  {
    var t := ExpelAll(table, done, member);
    assert key in t && key in done ==> t[key] - {member} == t[key];
  }
}
