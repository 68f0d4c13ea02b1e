/** The life of a direct message: every accepted one has exactly one fate at any moment, and what
    queues and outboxes hold is exactly what the fates say. */
module Fates {
  import opened Base
  import opened Messages
  import opened Addressing
  import opened Connections
  import opened Persistence
  import opened Store
  import opened Routing
  import opened Registry
  import opened Daemon
  import opened Invariant
  import opened Lifecycle

  // ---------------------------------------------------------------- counting deliveries

  /** How often a message id was enqueued as a `peer.message`. */
  function Got(frames: seq<Frame>, id: string): nat {
    if frames == [] then 0
    else
      var last := frames[|frames| - 1];
      Got(frames[..|frames| - 1], id) + if last.PeerMessage? && last.msg.id == id then 1 else 0
  }

  lemma {:induction false} GotConcat(fs: seq<Frame>, gs: seq<Frame>, id: string)
    ensures Got(fs + gs, id) == Got(fs, id) + Got(gs, id)
  {
    if gs == [] {
      assert fs + gs == fs;
    } else {
      var init := gs[..|gs| - 1];
      GotConcat(fs, init, id);
      assert (fs + gs)[..|fs + gs| - 1] == fs + init;
    }
  }

  function CountId(msgs: seq<Message>, id: string): nat {
    if msgs == [] then 0
    else CountId(msgs[..|msgs| - 1], id) + if msgs[|msgs| - 1].id == id then 1 else 0
  }

  lemma {:induction false} GotMessageFrames(msgs: seq<Message>, id: string)
    ensures Got(MessageFrames(msgs), id) == CountId(msgs, id)
  {
    if msgs == [] {
    } else {
      var init := msgs[..|msgs| - 1];
      GotMessageFrames(init, id);
      assert MessageFrames(msgs)[..|msgs| - 1] == MessageFrames(init);
    }
  }

  lemma {:induction false} CountConcat(s: seq<Message>, t: seq<Message>, id: string)
    ensures CountId(s + t, id) == CountId(s, id) + CountId(t, id)
  {
    if t == [] {
      assert s + t == s;
    } else {
      CountConcat(s, t[..|t| - 1], id);
      assert (s + t)[..|s + t| - 1] == s + t[..|t| - 1];
    }
  }

  predicate HasId(msgs: seq<Message>, id: string) {
    exists i :: 0 <= i < |msgs| && msgs[i].id == id
  }

  /** Among distinct ids, a filter lets a message through once or not at all. */
  lemma {:induction false} CountAccepted(p: Message -> bool, msgs: seq<Message>, id: string)
    requires DistinctIds(msgs)
    ensures !HasId(msgs, id) ==> CountId(Filter(p, msgs), id) == 0
    ensures forall i :: 0 <= i < |msgs| && msgs[i].id == id ==>
      CountId(Filter(p, msgs), id) == if p(msgs[i]) then 1 else 0
  {
    if msgs == [] {
    } else {
      var head, rest := msgs[0], msgs[1..];
      CountAccepted(p, rest, id);
      CountConcat(if p(head) then [head] else [], Filter(p, rest), id);
      assert [head][..0] == [];
      assert HasId(rest, id) ==> HasId(msgs, id);
      assert head.id == id ==> !HasId(rest, id);
    }
  }

  // ---------------------------------------------------------------- fates

  /** What became of a direct message. Reached and kept record which outboxes were still open. */
  datatype Fate =
    | Live(receivers: set<Connection>, reached: set<Connection>)
    | Queued(at: string)
    | Evicted
    | Drained(session: Connection, kept: bool)
    | Filtered(session: Connection)

  /** The fate of every accepted message id, and the ids of publications. */
  datatype Ledger = Ledger(fates: map<string, Fate>, published: set<string>)

  const BLANK := Ledger(map[], {})

  /** The drain of a queue to a connection. */
  function HandedTo(cfg: Config, h: Hub, l: Ledger, c: Connection, key: string): Ledger {
    var msgs, k := QueueAt(h.dms, key), h.At(c);
    l.(fates := map id | id in l.fates ::
      var i := IndexOf(msgs, id);
      if i == |msgs| then l.fates[id]
      else if cfg.Accepts(k, msgs[i]) then Drained(c, !k.closed) else Filtered(c))
  }

  /** The messages that fall off when one more is queued. */
  function FallenOff(q: seq<Message>, m: Message, max: nat): seq<Message> {
    (q + [m])[..|q| + 1 - |Push(q, m, max)|]
  }

  function AfterQueuing(cfg: Config, h: Hub, l: Ledger, m: Message): Ledger {
    var gone := FallenOff(QueueAt(h.dms, m.to), m, cfg.dmMax);
    l.(fates := map id | id in l.fates.Keys + {m.id} ::
      if IndexOf(gone, id) < |gone| then Evicted
      else if id == m.id then Queued(m.to) else l.fates[id])
  }

  function AfterRouting(cfg: Config, h: Hub, l: Ledger, c: Connection, addr: Address, m: Message): Ledger
    requires addr.Home?
  {
    var rs := Receivers(cfg, h, c, addr, m);
    if rs == {} then AfterQueuing(cfg, h, l, m)
    else
      var cs := Sessions(h, rs);
      l.(fates := l.fates[m.id := Live(cs, set d | d in cs && d in h.conns && !h.At(d).closed)])
  }

  function AfterRequest(cfg: Config, h: Hub, l: Ledger, c: Connection, req: Request): Ledger {
    if Handle(cfg, h, c, req).1.Err? then l
    else match req
      case ReqHello(sid, home, ts) =>
        var h1 := Register(h, c, sid, home);
        var h2 := Drain(cfg, h1, c, HomeKey(home));
        HandedTo(cfg, h2, HandedTo(cfg, h1, l, c, HomeKey(home)), c, DirectKey(home, sid))
      case ReqSetAlias(alias, ts) =>
        if alias != "" && Some(alias) != h.At(c).alias
        then HandedTo(cfg, Rename(h, c, Some(alias)), l, c, DirectKey(h.At(c).HomeOrEmpty(), alias)) else l
      case ReqSend(dest, body, replyTo, id, ts) =>
        AfterRouting(cfg, h, l, c, ParseAddress(dest).value, Compose(h, c, dest, body, replyTo, id, ts))
      case ReqPublish(topic, body, id, ts) => l.(published := l.published + {id})
      case _ => l
  }

  // ---------------------------------------------------------------- the accounts

  /** The connections that hold copies of a message. */
  function Keepers(f: Fate): set<Connection> {
    match f
    case Live(_, reached) => reached
    case Drained(session, kept) => if kept then {session} else {}
    case _ => {}
  }

  /** The copies of a message that its fate puts into the outbox of a connection. */
  function Copies(f: Fate, c: Connection): nat {
    if c in Keepers(f) then 1 else 0
  }

  /** Each queued message has the fate of being queued there, and no queue holds an id twice. */
  ghost predicate QueuesTold(h: Hub, l: Ledger) {
    && (forall a, i :: a in h.dms && 0 <= i < |h.dms[a]| ==>
          h.dms[a][i].id in l.fates && l.fates[h.dms[a][i].id] == Queued(a))
    && (forall a :: a in h.dms ==> DistinctIds(h.dms[a]))
  }

  /** Each message whose fate is to be queued is in that queue. */
  ghost predicate QueuedFound(h: Hub, l: Ledger) {
    forall id :: id in l.fates && l.fates[id].Queued? ==> HasId(QueueAt(h.dms, l.fates[id].at), id)
  }

  /** Outboxes hold exactly the copies that the fates account for; unknown ids nowhere. */
  ghost predicate OutboxesTold(h: Hub, l: Ledger) {
    forall c, id :: c in h.conns && id !in l.published ==>
      Got(h.conns[c].outbox, id) == (if id in l.fates then Copies(l.fates[id], c) else 0)
  }

  /** Rings hold publications only, and no id is both a publication and a direct message. */
  ghost predicate RingsTold(h: Hub, l: Ledger) {
    && (forall a, i :: a in h.topics && 0 <= i < |h.topics[a]| ==> h.topics[a][i].id in l.published)
    && l.published !! l.fates.Keys
  }

  /** A live delivery reached some of a nonempty set of receivers. */
  ghost predicate LiveProperly(f: Fate) {
    f.Live? ==> f.receivers != {} && f.reached <= f.receivers
  }

  /** Fates speak of known connections only, and of live deliveries properly. */
  ghost predicate KeepersKnown(h: Hub, l: Ledger) {
    forall id :: id in l.fates ==>
      && Keepers(l.fates[id]) <= h.conns.Keys && LiveProperly(l.fates[id])
      && (l.fates[id].Live? ==> l.fates[id].receivers <= h.conns.Keys)
  }

  ghost predicate Accounted(h: Hub, l: Ledger) {
    QueuesTold(h, l) && QueuedFound(h, l) && OutboxesTold(h, l) && RingsTold(h, l) && KeepersKnown(h, l)
  }

  // ---------------------------------------------------------------- the primitives

  /** Frames that carry no direct message leave the accounts alone. */
  lemma PostGot(h: Hub, targets: set<Connection>, f: Frame, id: string)
    ensures forall c :: c in h.conns ==>
      c in h.Post(targets, f).conns && Got(h.Post(targets, f).conns[c].outbox, id)
        == Got(h.conns[c].outbox, id)
           + (if c in targets && !h.conns[c].closed && f.PeerMessage? && f.msg.id == id then 1 else 0)
  {
    forall c | c in h.conns
      ensures Got(h.conns[c].outbox + [f], id)
        == Got(h.conns[c].outbox, id) + if f.PeerMessage? && f.msg.id == id then 1 else 0
    {
      assert (h.conns[c].outbox + [f])[..|h.conns[c].outbox|] == h.conns[c].outbox;
    }
  }

  /** Two states whose outboxes hold the same direct messages. */
  ghost predicate SameGot(h: Hub, g: Hub, l: Ledger) {
    h.conns.Keys == g.conns.Keys
    && forall c, id :: c in h.conns && id !in l.published ==> Got(g.conns[c].outbox, id) == Got(h.conns[c].outbox, id)
  }

  lemma SameGotAccounted(h: Hub, g: Hub, l: Ledger)
    requires Accounted(h, l) && SameGot(h, g, l) && g.dms == h.dms && g.topics == h.topics
    ensures Accounted(g, l)
  {
  }

  lemma PostAccounted(h: Hub, targets: set<Connection>, f: Frame, l: Ledger)
    requires Accounted(h, l) && (f.PeerMessage? ==> f.msg.id in l.published)
    ensures Accounted(h.Post(targets, f), l)
  {
    forall id | id !in l.published
      ensures forall c :: c in h.conns ==> Got(h.Post(targets, f).conns[c].outbox, id) == Got(h.conns[c].outbox, id)
    {
      PostGot(h, targets, f, id);
    }
    SameGotAccounted(h, h.Post(targets, f), l);
  }

  lemma PutAccounted(h: Hub, g: Hub, c: Connection, fs: seq<Frame>, l: Ledger)
    requires Accounted(h, l) && c in h.conns && g.dms == h.dms && g.topics == h.topics
    requires g.conns == h.conns[c := g.At(c)] && g.At(c).outbox == h.At(c).outbox + fs
    requires forall id :: id !in l.published ==> Got(fs, id) == 0
    ensures Accounted(g, l)
  {
    forall id | id !in l.published
      ensures Got(g.conns[c].outbox, id) == Got(h.conns[c].outbox, id)
    {
      GotConcat(h.conns[c].outbox, fs, id);
    }
    SameGotAccounted(h, g, l);
  }

  // ---------------------------------------------------------------- draining

  /** The fates that a drain settles are exactly those of the messages queued there. */
  ghost predicate Settles(h: Hub, l: Ledger, l1: Ledger, c: Connection, key: string) {
    && l1.published == l.published && l1.fates.Keys == l.fates.Keys
    && forall id :: id in l.fates ==>
         && (HasId(QueueAt(h.dms, key), id) <==> l.fates[id] == Queued(key))
         && (if l.fates[id] == Queued(key)
             then !l1.fates[id].Queued? && !l1.fates[id].Live? && Keepers(l1.fates[id]) <= {c}
             else l1.fates[id] == l.fates[id])
  }

  lemma HandedSettles(cfg: Config, h: Hub, l: Ledger, c: Connection, key: string)
    requires QueuesTold(h, l) && QueuedFound(h, l)
    ensures Settles(h, l, HandedTo(cfg, h, l, c, key), c, key)
  {
    forall id | id in l.fates {
      HandedFate(cfg, h, l, c, key, id);
    }
    hide HasId, Keepers, QueuesTold, QueuedFound, QueueAt;
  }

  lemma HandedFate(cfg: Config, h: Hub, l: Ledger, c: Connection, key: string, id: string)
    requires QueuesTold(h, l) && QueuedFound(h, l) && id in l.fates
    ensures var l1 := HandedTo(cfg, h, l, c, key);
      && id in l1.fates && (HasId(QueueAt(h.dms, key), id) <==> l.fates[id] == Queued(key))
      && if l.fates[id] == Queued(key) then !l1.fates[id].Queued? && !l1.fates[id].Live? && Keepers(l1.fates[id]) <= {c}
         else l1.fates[id] == l.fates[id]
  {
    HandedIds(h, l, key, id);
    hide HasId, QueuesTold, QueuedFound, IndexOf, QueueAt;
  }

  lemma HandedIds(h: Hub, l: Ledger, key: string, id: string)
    requires QueuesTold(h, l) && QueuedFound(h, l) && id in l.fates
    ensures var msgs := QueueAt(h.dms, key);
      (IndexOf(msgs, id) < |msgs|) == HasId(msgs, id) == (l.fates[id] == Queued(key))
  {
    var msgs := QueueAt(h.dms, key);
    if HasId(msgs, id) {
      var i :| 0 <= i < |msgs| && msgs[i].id == id;
      assert h.dms[key][i].id == id;
    }
  }

  lemma DrainAccounted(cfg: Config, h: Hub, l: Ledger, c: Connection, key: string)
    requires Accounted(h, l) && c in h.conns
    ensures Accounted(Drain(cfg, h, c, key), HandedTo(cfg, h, l, c, key))
  {
    hide Got, HandedTo, DistinctIds, HasId;
    var l1 := HandedTo(cfg, h, l, c, key);
    HandedSettles(cfg, h, l, c, key);
    if QueueAt(h.dms, key) != [] {
      EmptiedTold(h, l, l1, c, key);
      DrainOutboxes(cfg, h, l, c, key);
      DrainKeepers(cfg, h, l, l1, c, key);
      hide OutboxesTold, KeepersKnown, Settles, Config.Accepted, MessageFrames;
    } else {
      NothingSettled(h, l, l1, c, key);
    }
  }

  lemma DrainKeepers(cfg: Config, h: Hub, l: Ledger, l1: Ledger, c: Connection, key: string)
    requires KeepersKnown(h, l) && Settles(h, l, l1, c, key) && c in h.conns
    ensures KeepersKnown(Drain(cfg, h, c, key), l1)
  {
    hide Config.Accepted, MessageFrames, HasId, QueueAt;
    assert h.conns.Keys <= Drain(cfg, h, c, key).conns.Keys;
  }

  lemma NothingSettled(h: Hub, l: Ledger, l1: Ledger, c: Connection, key: string)
    requires Settles(h, l, l1, c, key) && QueueAt(h.dms, key) == []
    ensures l1 == l
  {
    forall id | id in l.fates
      ensures l1.fates[id] == l.fates[id]
    {
      assert !HasId(QueueAt(h.dms, key), id);
    }
  }

  lemma EmptiedTold(h: Hub, l: Ledger, l1: Ledger, c: Connection, key: string)
    requires QueuesTold(h, l) && QueuedFound(h, l) && RingsTold(h, l) && Settles(h, l, l1, c, key)
    ensures var g := h.(dms := h.dms[key := []]);
      QueuesTold(g, l1) && QueuedFound(g, l1) && RingsTold(g, l1)
  {
    var g := h.(dms := h.dms[key := []]);
    forall a, i | a in g.dms && 0 <= i < |g.dms[a]|
      ensures g.dms[a][i].id in l1.fates && l1.fates[g.dms[a][i].id] == Queued(a)
    {
      assert h.dms[a][i] == g.dms[a][i];
    }
    forall id | id in l1.fates && l1.fates[id].Queued?
      ensures HasId(QueueAt(g.dms, l1.fates[id].at), id)
    {
      assert QueueAt(g.dms, l1.fates[id].at) == QueueAt(h.dms, l.fates[id].at);
    }
  }

  /** The copies of one message among those that a drain hands over. */
  lemma AcceptedCopies(cfg: Config, k: Conn, msgs: seq<Message>, id: string)
    requires DistinctIds(msgs)
    ensures Got(MessageFrames(cfg.Accepted(k, msgs)), id)
      == if IndexOf(msgs, id) < |msgs| && cfg.Accepts(k, msgs[IndexOf(msgs, id)]) then 1 else 0
  {
    var p := m => cfg.Accepts(k, m);
    CountAccepted(p, msgs, id);
    GotMessageFrames(Filter(p, msgs), id);
  }

  /** Those copies are what the new fates account for. */
  lemma DrainedCopies(cfg: Config, h: Hub, l: Ledger, c: Connection, key: string, id: string, d: Connection)
    requires QueuesTold(h, l) && QueuedFound(h, l)
    ensures var (msgs, k, l1) := (QueueAt(h.dms, key), h.At(c), HandedTo(cfg, h, l, c, key));
      var n := Got(MessageFrames(cfg.Accepted(k, msgs)), id);
      if id in l.fates && l.fates[id] == Queued(key) then
        Copies(l1.fates[id], d) == if d == c && !k.closed then n else 0
      else n == 0
  {
    hide Got, MessageFrames, Config.Accepted, Config.Accepts, HasId, QueueAt, IndexOf, HandedTo, QueuesTold;
    hide QueuedFound;
    QueueCopies(cfg, h, l, c, key, id);
    if id in l.fates {
      HandedIds(h, l, key, id);
      HandedEntry(cfg, h, l, c, key, id);
    } else {
      Unqueued(h, l, key, id);
    }
  }

  lemma QueueCopies(cfg: Config, h: Hub, l: Ledger, c: Connection, key: string, id: string)
    requires QueuesTold(h, l)
    ensures var (msgs, k) := (QueueAt(h.dms, key), h.At(c));
      Got(MessageFrames(cfg.Accepted(k, msgs)), id)
        == if IndexOf(msgs, id) < |msgs| && cfg.Accepts(k, msgs[IndexOf(msgs, id)]) then 1 else 0
  {
    assert DistinctIds(QueueAt(h.dms, key));
    hide *;
    AcceptedCopies(cfg, h.At(c), QueueAt(h.dms, key), id);
  }

  lemma HandedEntry(cfg: Config, h: Hub, l: Ledger, c: Connection, key: string, id: string)
    requires id in l.fates
    ensures var (msgs, k) := (QueueAt(h.dms, key), h.At(c));
      id in HandedTo(cfg, h, l, c, key).fates && HandedTo(cfg, h, l, c, key).fates[id]
        == (if IndexOf(msgs, id) == |msgs| then l.fates[id]
            else if cfg.Accepts(k, msgs[IndexOf(msgs, id)]) then Drained(c, !k.closed) else Filtered(c))
  {
  }

  lemma Unqueued(h: Hub, l: Ledger, key: string, id: string)
    requires QueuesTold(h, l) && id !in l.fates
    ensures IndexOf(QueueAt(h.dms, key), id) == |QueueAt(h.dms, key)|
  {
    assert !HasId(QueueAt(h.dms, key), id);
  }

  lemma DrainOutboxes(cfg: Config, h: Hub, l: Ledger, c: Connection, key: string)
    requires Accounted(h, l) && c in h.conns && QueueAt(h.dms, key) != []
    ensures OutboxesTold(Drain(cfg, h, c, key), HandedTo(cfg, h, l, c, key))
  {
    var g, l1 := Drain(cfg, h, c, key), HandedTo(cfg, h, l, c, key);
    forall d, id | d in g.conns && id !in l1.published
      ensures Got(g.conns[d].outbox, id) == if id in l1.fates then Copies(l1.fates[id], d) else 0
    {
      DrainOutbox(cfg, h, l, c, key, d, id);
    }
  }

  lemma DrainOutbox(cfg: Config, h: Hub, l: Ledger, c: Connection, key: string, d: Connection, id: string)
    requires Accounted(h, l) && c in h.conns && d in h.conns && QueueAt(h.dms, key) != [] && id !in l.published
    ensures var l1 := HandedTo(cfg, h, l, c, key);
      Got(Drain(cfg, h, c, key).conns[d].outbox, id) == if id in l1.fates then Copies(l1.fates[id], d) else 0
  {
    var k, fs := h.At(c), MessageFrames(cfg.Accepted(h.At(c), QueueAt(h.dms, key)));
    assert Drain(cfg, h, c, key).conns[d] == if d == c then k.EnqueueAll(fs) else h.conns[d];
    assert Got(h.conns[d].outbox, id) == if id in l.fates then Copies(l.fates[id], d) else 0;
    DrainedCopies(cfg, h, l, c, key, id, d);
    HandedSettles(cfg, h, l, c, key);
    hide Drain, HandedTo, MessageFrames, HasId, Got, QueueAt, QueuesTold, RingsTold, QueuedFound, OutboxesTold;
    GotConcat(k.outbox, fs, id);
  }

  // ---------------------------------------------------------------- sending and publishing

  predicate FreshId(l: Ledger, id: string) {
    id !in l.fates && id !in l.published
  }

  lemma LiveAccounted(h: Hub, l: Ledger, targets: set<Connection>, m: Message)
    requires Accounted(h, l) && FreshId(l, m.id) && targets != {} && targets <= h.conns.Keys
    ensures var reached := set d | d in targets && d in h.conns && !h.At(d).closed;
      Accounted(h.Post(targets, PeerMessage(m)), l.(fates := l.fates[m.id := Live(targets, reached)]))
  {
    hide Got, HasId, DistinctIds;
    var g := h.Post(targets, PeerMessage(m));
    var reached := set d | d in targets && d in h.conns && !h.At(d).closed;
    var l1 := l.(fates := l.fates[m.id := Live(targets, reached)]);
    forall d, id | d in g.conns && id !in l1.published
      ensures Got(g.conns[d].outbox, id) == if id in l1.fates then Copies(l1.fates[id], d) else 0
    {
      LiveOutbox(h, l, targets, m, d, id);
    }
    assert QueuesTold(g, l1) && QueuedFound(g, l1);
  }

  lemma LiveOutbox(h: Hub, l: Ledger, targets: set<Connection>, m: Message, d: Connection, id: string)
    requires OutboxesTold(h, l) && FreshId(l, m.id) && d in h.conns && id !in l.published
    ensures var reached := set d | d in targets && d in h.conns && !h.At(d).closed;
      var l1 := l.(fates := l.fates[m.id := Live(targets, reached)]);
      d in h.Post(targets, PeerMessage(m)).conns
      && Got(h.Post(targets, PeerMessage(m)).conns[d].outbox, id)
        == if id in l1.fates then Copies(l1.fates[id], d) else 0
  {
    PostGot(h, targets, PeerMessage(m), id);
    assert Got(h.conns[d].outbox, id) == if id in l.fates then Copies(l.fates[id], d) else 0;
    hide Got, PostTo;
  }

  lemma HasIdConcat(s: seq<Message>, t: seq<Message>, id: string)
    ensures HasId(s + t, id) <==> HasId(s, id) || HasId(t, id)
    ensures DistinctIds(s + t) ==> DistinctIds(s) && DistinctIds(t) && !(HasId(s, id) && HasId(t, id))
  {
    var all := s + t;
    assert forall i :: 0 <= i < |s| ==> all[i] == s[i];
    assert forall i :: 0 <= i < |t| ==> all[|s| + i] == t[i];
    if HasId(all, id) {
      var i :| 0 <= i < |all| && all[i].id == id;
      assert if i < |s| then s[i].id == id else t[i - |s|].id == id;
    }
  }

  /** The messages that stay when one more is queued, and those that fall off, are told apart by
      their ids. */
  lemma PushSplits(q: seq<Message>, m: Message, max: nat, id: string)
    requires DistinctIds(q) && !HasId(q, m.id)
    ensures DistinctIds(Push(q, m, max))
    ensures var (kept, gone) := (Push(q, m, max), FallenOff(q, m, max));
      && (HasId(kept, id) || HasId(gone, id) <==> HasId(q, id) || id == m.id)
      && !(HasId(kept, id) && HasId(gone, id))
      && (IndexOf(gone, id) < |gone| <==> HasId(gone, id))
  {
    var kept, gone := Push(q, m, max), FallenOff(q, m, max);
    assert q + [m] == gone + kept;
    assert DistinctIds(q + [m]);
    HasIdConcat(q, [m], id);
    HasIdConcat(gone, kept, id);
    assert [m][0].id == m.id;
  }

  lemma QueuingAccounted(cfg: Config, h: Hub, l: Ledger, m: Message)
    requires Accounted(h, l) && FreshId(l, m.id)
    ensures Accounted(h.(dms := Enqueue(h.dms, m, cfg.dmMax)), AfterQueuing(cfg, h, l, m))
  {
    forall id {
      QueuingOne(cfg, h, l, m, id);
    }
    QueuingQueues(cfg, h, l, m);
    QueuingOutboxes(cfg, h, l, m);
    QueuingKeepers(cfg, h, l, m);
    hide QueuesTold, QueuedFound, RingsTold, AfterQueuing, QueuingEffect, KeepersKnown, Enqueue, HasId, DistinctIds;
  }

  lemma QueuingOne(cfg: Config, h: Hub, l: Ledger, m: Message, id: string)
    requires QueuesTold(h, l) && FreshId(l, m.id)
    ensures QueuingEffect(cfg, h, l, m, id)
  {
    NotQueued(h, l, m.to, m.id);
    PushSplits(QueueAt(h.dms, m.to), m, cfg.dmMax, id);
  }

  lemma QueuingKeepers(cfg: Config, h: Hub, l: Ledger, m: Message)
    requires KeepersKnown(h, l)
    ensures KeepersKnown(h.(dms := Enqueue(h.dms, m, cfg.dmMax)), AfterQueuing(cfg, h, l, m))
  {
    hide Enqueue, FallenOff, IndexOf, QueueAt;
  }

  lemma QueuingOutboxes(cfg: Config, h: Hub, l: Ledger, m: Message)
    requires Accounted(h, l) && FreshId(l, m.id)
    requires forall id :: QueuingEffect(cfg, h, l, m, id)
    ensures OutboxesTold(h.(dms := Enqueue(h.dms, m, cfg.dmMax)), AfterQueuing(cfg, h, l, m))
  {
    var l1 := AfterQueuing(cfg, h, l, m);
    forall d, id | d in h.conns && id !in l1.published
      ensures Got(h.conns[d].outbox, id) == if id in l1.fates then Copies(l1.fates[id], d) else 0
    {
      assert QueuingEffect(cfg, h, l, m, id);
      QueuingOutbox(cfg, h, l, m, d, id);
    }
    hide QueuesTold, QueuedFound, RingsTold, KeepersKnown, AfterQueuing, QueuingEffect, Enqueue, Accounted;
  }

  lemma QueuingOutbox(cfg: Config, h: Hub, l: Ledger, m: Message, d: Connection, id: string)
    requires Accounted(h, l) && FreshId(l, m.id) && d in h.conns && id !in l.published
    requires QueuingEffect(cfg, h, l, m, id)
    ensures var l1 := AfterQueuing(cfg, h, l, m);
      Got(h.conns[d].outbox, id) == if id in l1.fates then Copies(l1.fates[id], d) else 0
  {
    QueuedHasNoCopies(h, l, m.to, id, d);
    hide AfterQueuing, QueuesTold, QueuedFound, RingsTold, Got, Push, FallenOff, OutboxesTold, KeepersKnown;
  }

  lemma NotQueued(h: Hub, l: Ledger, key: string, id: string)
    requires QueuesTold(h, l) && id !in l.fates
    ensures !HasId(QueueAt(h.dms, key), id) && DistinctIds(QueueAt(h.dms, key))
  {
  }

  lemma QueuedHasNoCopies(h: Hub, l: Ledger, key: string, id: string, d: Connection)
    requires QueuesTold(h, l) && OutboxesTold(h, l) && d in h.conns && id !in l.published
    ensures HasId(QueueAt(h.dms, key), id) ==> Got(h.conns[d].outbox, id) == 0
    ensures Got(h.conns[d].outbox, id) == if id in l.fates then Copies(l.fates[id], d) else 0
  {
  }

  /** The new fate of one id, told by where the id is after the message has been queued. */
  ghost predicate QueuingEffect(cfg: Config, h: Hub, l: Ledger, m: Message, id: string) {
    var (q, l1) := (QueueAt(h.dms, m.to), AfterQueuing(cfg, h, l, m));
    && (id in l1.fates <==> id in l.fates || id == m.id)
    && (HasId(q, id) || id == m.id <==>
          HasId(Push(q, m, cfg.dmMax), id) || HasId(FallenOff(q, m, cfg.dmMax), id))
    && (id in l1.fates ==>
          l1.fates[id] == (if HasId(FallenOff(q, m, cfg.dmMax), id) then Evicted
                           else if id == m.id then Queued(m.to) else l.fates[id]))
    && !(HasId(Push(q, m, cfg.dmMax), id) && HasId(FallenOff(q, m, cfg.dmMax), id))
    && DistinctIds(Push(q, m, cfg.dmMax))
  }

  lemma QueuingQueues(cfg: Config, h: Hub, l: Ledger, m: Message)
    requires Accounted(h, l) && FreshId(l, m.id)
    requires forall id :: QueuingEffect(cfg, h, l, m, id)
    ensures var (g, l1) := (h.(dms := Enqueue(h.dms, m, cfg.dmMax)), AfterQueuing(cfg, h, l, m));
      QueuesTold(g, l1) && QueuedFound(g, l1) && RingsTold(g, l1)
  {
    var g, l1 := h.(dms := Enqueue(h.dms, m, cfg.dmMax)), AfterQueuing(cfg, h, l, m);
    forall a, i | a in g.dms && 0 <= i < |g.dms[a]|
      ensures g.dms[a][i].id in l1.fates && l1.fates[g.dms[a][i].id] == Queued(a)
    {
      assert QueuingEffect(cfg, h, l, m, g.dms[a][i].id);
      QueuingQueue(cfg, h, l, m, a, i);
    }
    forall a | a in g.dms
      ensures DistinctIds(g.dms[a])
    {
      assert QueuingEffect(cfg, h, l, m, m.id);
    }
    QueuingFound(cfg, h, l, m);
    assert l1.fates.Keys == l.fates.Keys + {m.id} && l1.published == l.published;
    hide QueuedFound, QueuingEffect, AfterQueuing, Enqueue, OutboxesTold, KeepersKnown, FallenOff, Push;
    hide DistinctIds, HasId;
  }

  /** The message at one place of one queue has the fate of being queued there. */
  lemma QueuingQueue(cfg: Config, h: Hub, l: Ledger, m: Message, a: string, i: nat)
    requires Accounted(h, l) && FreshId(l, m.id)
    requires a in Enqueue(h.dms, m, cfg.dmMax) && i < |Enqueue(h.dms, m, cfg.dmMax)[a]|
    requires QueuingEffect(cfg, h, l, m, Enqueue(h.dms, m, cfg.dmMax)[a][i].id)
    ensures var (id, l1) := (Enqueue(h.dms, m, cfg.dmMax)[a][i].id, AfterQueuing(cfg, h, l, m));
      id in l1.fates && l1.fates[id] == Queued(a)
  {
    var queues: map<string, seq<Message>> := Enqueue(h.dms, m, cfg.dmMax);
    var id: string := queues[a][i].id;
    QueuedHere(h, l, m.to, id);
    if a == m.to {
      assert HasId(Push(QueueAt(h.dms, m.to), m, cfg.dmMax), id);
    } else {
      assert queues[a] == h.dms[a] && l.fates[id] == Queued(a);
    }
    hide QueuedFound, AfterQueuing, OutboxesTold, KeepersKnown, RingsTold, DistinctIds;
  }

  lemma QueuingFound(cfg: Config, h: Hub, l: Ledger, m: Message)
    requires Accounted(h, l) && forall id :: QueuingEffect(cfg, h, l, m, id)
    ensures QueuedFound(h.(dms := Enqueue(h.dms, m, cfg.dmMax)), AfterQueuing(cfg, h, l, m))
  {
    var g, l1 := h.(dms := Enqueue(h.dms, m, cfg.dmMax)), AfterQueuing(cfg, h, l, m);
    forall id | id in l1.fates && l1.fates[id].Queued?
      ensures HasId(QueueAt(g.dms, l1.fates[id].at), id)
    {
      assert QueuingEffect(cfg, h, l, m, id);
    }
  }

  lemma QueuedHere(h: Hub, l: Ledger, key: string, id: string)
    requires QueuesTold(h, l)
    ensures HasId(QueueAt(h.dms, key), id) ==> id in l.fates && l.fates[id] == Queued(key)
  {
  }

  lemma RoutedAccounted(cfg: Config, h: Hub, l: Ledger, c: Connection, addr: Address, m: Message)
    requires SidsIndexed(h) && Accounted(h, l) && addr.Home? && FreshId(l, m.id)
    ensures Accounted(Routed(cfg, h, c, addr, m).0, AfterRouting(cfg, h, l, c, addr, m))
  {
    hide AfterQueuing, Accounted, Receivers;
    var rs, l1 := Receivers(cfg, h, c, addr, m), AfterRouting(cfg, h, l, c, addr, m);
    var h1 := h.Post(Sessions(h, rs), PeerMessage(m));
    if rs == {} {
      PostToNobody(h, rs, PeerMessage(m));
      QueuingAccounted(cfg, h, l, m);
    } else {
      ReceiversKnown(cfg, h, c, addr, m);
      LiveAccounted(h, l, Sessions(h, rs), m);
    }
    var h2 := if rs == {} then h1.(dms := Enqueue(h1.dms, m, cfg.dmMax)) else h1;
    PostAccounted(h2, h2.Watchers(cfg, m, h.At(c).sid), WireMessage(m, |rs|, rs == {}), l1);
  }

  /** The receivers of a message are known connections, one at least if it was not queued. */
  lemma ReceiversKnown(cfg: Config, h: Hub, c: Connection, addr: Address, m: Message)
    requires SidsIndexed(h) && addr.Home?
    ensures var rs := Receivers(cfg, h, c, addr, m);
      Sessions(h, rs) <= h.conns.Keys && (rs != {} ==> Sessions(h, rs) != {})
  {
    var rs := Receivers(cfg, h, c, addr, m);
    if rs != {} {
      var s :| s in rs;
      assert h.connections[s] in Sessions(h, rs);
    }
  }

  lemma PostToNobody(h: Hub, rs: set<string>, f: Frame)
    requires rs == {}
    ensures h.Post(Sessions(h, rs), f) == h
  {
    assert PostTo(h.conns, Sessions(h, rs), f) == h.conns;
  }

  lemma PublishedAccounted(cfg: Config, h: Hub, l: Ledger, c: Connection, topic: string, m: Message)
    requires Accounted(h, l) && FreshId(l, m.id)
    ensures Accounted(Published(cfg, h, c, topic, m).0, l.(published := l.published + {m.id}))
  {
    var l1, rs := l.(published := l.published + {m.id}), Subscribers(h, topic, h.At(c).sid);
    var h1 := h.(topics := Enqueue(h.topics, m, cfg.topicMax));
    RingAccounted(cfg, h, l, m);
    PostAccounted(h1, Sessions(h, rs), PeerMessage(m), l1);
    var h2 := h1.Post(Sessions(h, rs), PeerMessage(m));
    PostAccounted(h2, h2.Watchers(cfg, m, h.At(c).sid), WireMessage(m, |rs|, false), l1);
  }

  lemma RingAccounted(cfg: Config, h: Hub, l: Ledger, m: Message)
    requires Accounted(h, l) && FreshId(l, m.id)
    ensures Accounted(h.(topics := Enqueue(h.topics, m, cfg.topicMax)), l.(published := l.published + {m.id}))
  {
    RingIds(h.topics, m, cfg.topicMax);
    var g, l1 := h.(topics := Enqueue(h.topics, m, cfg.topicMax)), l.(published := l.published + {m.id});
    assert forall a, i :: a in g.topics && 0 <= i < |g.topics[a]| ==> g.topics[a][i].id in l1.published;
    hide Enqueue;
    hide Got, Copies, Keepers, LiveProperly, HasId, DistinctIds, LastN;
  }

  lemma RingIds(rings: map<string, seq<Message>>, m: Message, max: nat)
    ensures forall a, i :: a in Enqueue(rings, m, max) && 0 <= i < |Enqueue(rings, m, max)[a]| ==>
      || Enqueue(rings, m, max)[a][i].id == m.id
      || exists j :: a in rings && 0 <= j < |rings[a]| && rings[a][j].id == Enqueue(rings, m, max)[a][i].id
  {
    forall a, i | a in Enqueue(rings, m, max) && 0 <= i < |Enqueue(rings, m, max)[a]| && a == m.to
      ensures Enqueue(rings, m, max)[a][i] in QueueAt(rings, a) + [m]
    {
    }
  }

  /** Replays carry publications only. */
  lemma ReplayAccounted(h: Hub, l: Ledger, c: Connection, topic: string, replay: nat)
    requires Accounted(h, l) && c in h.conns && h.At(c).sid.Some?
    ensures Accounted(Followed(h, c, topic, replay), l)
  {
    var ring := QueueAt(h.topics, TopicKey(topic));
    var h1 := Subscribed(h, c, topic);
    QuietAccounted(h, h1, l);
    if replay > 0 {
      hide Accounted, Subscribed, MessageFrames;
      RingInstalled(h1, l, TopicKey(topic));
      HandPublished(h1.(topics := h1.topics[TopicKey(topic) := ring]), l, c, LastN(ring, replay));
    }
  }

  lemma RingInstalled(h: Hub, l: Ledger, key: string)
    requires Accounted(h, l)
    ensures Accounted(h.(topics := h.topics[key := QueueAt(h.topics, key)]), l)
    ensures forall n: nat, i :: 0 <= i < |LastN(QueueAt(h.topics, key), n)| ==>
      LastN(QueueAt(h.topics, key), n)[i].id in l.published
  {
    var ring, g := QueueAt(h.topics, key), h.(topics := h.topics[key := QueueAt(h.topics, key)]);
    assert forall i :: 0 <= i < |ring| ==> ring[i].id in l.published;
    assert RingsTold(g, l) && OutboxesTold(g, l) && QueuesTold(g, l);
  }

  lemma HandPublished(h: Hub, l: Ledger, c: Connection, msgs: seq<Message>)
    requires Accounted(h, l) && c in h.conns
    requires forall i :: 0 <= i < |msgs| ==> msgs[i].id in l.published
    ensures Accounted(h.Put(c, h.At(c).EnqueueAll(MessageFrames(msgs))), l)
  {
    var fs := if h.At(c).closed then [] else MessageFrames(msgs);
    forall id | id !in l.published
      ensures Got(fs, id) == 0
    {
      CountNone(msgs, id);
      GotMessageFrames(msgs, id);
    }
    assert h.At(c).closed ==> h.At(c).outbox + [] == h.At(c).outbox;
    PutAccounted(h, h.Put(c, h.At(c).EnqueueAll(MessageFrames(msgs))), c, fs, l);
  }

  lemma {:induction false} CountNone(msgs: seq<Message>, id: string)
    requires forall i :: 0 <= i < |msgs| ==> msgs[i].id != id
    ensures CountId(msgs, id) == 0
  {
    if msgs == [] {
    } else {
      CountNone(msgs[..|msgs| - 1], id);
    }
  }

  /** Nothing but identities, filters, closed flags or tables changed. */
  lemma QuietAccounted(h: Hub, g: Hub, l: Ledger)
    requires Accounted(h, l) && g.dms == h.dms && g.topics == h.topics && g.conns.Keys == h.conns.Keys
    requires forall c :: c in h.conns ==> g.conns[c].outbox == h.conns[c].outbox
    ensures Accounted(g, l)
  {
    SameGotAccounted(h, g, l);
  }

  lemma HelloAccounted(cfg: Config, h: Hub, l: Ledger, c: Connection, sid: string, home: string, ts: real)
    requires Accounted(h, l) && c in h.conns && Handle(cfg, h, c, ReqHello(sid, home, ts)).1.Ok?
    ensures Accounted(Hello(cfg, h, c, sid, home, ts).0, AfterRequest(cfg, h, l, c, ReqHello(sid, home, ts)))
  {
    hide Drain, Accounted, HandedTo;
    var h1 := Register(h, c, sid, home);
    var h2, l1 := Drain(cfg, h1, c, HomeKey(home)), HandedTo(cfg, h1, l, c, HomeKey(home));
    var h3 := Drain(cfg, h2, c, DirectKey(home, sid));
    QuietAccounted(h, h1, l);
    DrainAccounted(cfg, h1, l, c, HomeKey(home));
    DrainOnlyPosts(cfg, h1, c, HomeKey(home));
    DrainAccounted(cfg, h2, l1, c, DirectKey(home, sid));
    PostAccounted(h3, h3.Others(Some(sid)), PeerJoined(home, sid, ts), HandedTo(cfg, h2, l1, c, DirectKey(home, sid)));
  }

  lemma AdoptedAccounted(cfg: Config, h: Hub, l: Ledger, c: Connection, chosen: Option<string>, ts: real)
    requires Accounted(h, l) && c in h.conns && h.At(c).sid.Some?
    ensures Accounted(Adopted(cfg, h, c, chosen, ts),
      if chosen.Some? && chosen != h.At(c).alias
      then HandedTo(cfg, Rename(h, c, chosen), l, c, DirectKey(h.At(c).HomeOrEmpty(), chosen.value)) else l)
  {
    hide Drain, Accounted, HandedTo, RenameIn;
    var k, home := h.At(c), h.At(c).HomeOrEmpty();
    var h1 := Rename(h, c, chosen);
    QuietAccounted(h, h1, l);
    var f := AliasChanged(home, k.sid.value, chosen, k.alias, ts);
    if chosen.Some? && chosen != k.alias {
      var key := DirectKey(home, chosen.value);
      DrainAccounted(cfg, h1, l, c, key);
      var h2 := Drain(cfg, h1, c, key);
      PostAccounted(h2, h2.Others(None), f, HandedTo(cfg, h1, l, c, key));
    } else {
      PostAccounted(h1, h1.Others(None), f, l);
    }
  }

  /** The id that a request mints, if it gets that far, is new. */
  predicate MintsFresh(l: Ledger, req: Request) {
    && (req.ReqSend? ==> FreshId(l, req.id))
    && (req.ReqPublish? ==> FreshId(l, req.id))
  }

  lemma HandleAccounted(cfg: Config, h: Hub, l: Ledger, c: Connection, req: Request)
    requires SidsIndexed(h) && Accounted(h, l) && c in h.conns && MintsFresh(l, req)
    ensures Accounted(Handle(cfg, h, c, req).0, AfterRequest(cfg, h, l, c, req))
  {
    hide Hello, Adopted, Routed, Published, Followed, Drain, Register, Rename, HandedTo, AfterRouting, Accounted;
    hide ParseAddress, IsValidAlias, IsValidSid, IsNormalizedPath, ValidateTopic;
    if Handle(cfg, h, c, req).1.Err? {
      RejectedIsNoOp(cfg, h, c, req);
      QuietAccounted(h, Handle(cfg, h, c, req).0, l);
    } else if IsPlain(req) {
      QuietHandle(cfg, h, c, req);
      QuietAccounted(h, Handle(cfg, h, c, req).0, l);
    } else if req.ReqUnsubscribe? {
      QuietAccounted(h, Unsubscribed(h, c, req.topic), l);
    } else {
      TrafficAccounted(cfg, h, l, c, req);
    }
  }

  lemma QuietHandle(cfg: Config, h: Hub, c: Connection, req: Request)
    requires c in h.conns && IsPlain(req)
    ensures var g := Handle(cfg, h, c, req).0;
      && g.dms == h.dms && g.topics == h.topics && g.conns.Keys == h.conns.Keys
      && forall d :: d in h.conns ==> g.conns[d].outbox == h.conns[d].outbox
  {
    hide ParseAddress, AnyMatch, Page;
    var g := Handle(cfg, h, c, req).0;
    assert g == h || g == h.Put(c, g.At(c));
    assert g.At(c).outbox == h.At(c).outbox;
  }

  lemma TrafficAccounted(cfg: Config, h: Hub, l: Ledger, c: Connection, req: Request)
    requires SidsIndexed(h) && Accounted(h, l) && c in h.conns && MintsFresh(l, req)
    requires Handle(cfg, h, c, req).1.Ok? && !IsPlain(req) && !req.ReqUnsubscribe?
    ensures Accounted(Handle(cfg, h, c, req).0, AfterRequest(cfg, h, l, c, req))
  {
    hide Hello, Adopted, Routed, Published, Drain, Register, Rename, Followed, Accounted, HandedTo, AfterRouting;
    hide ParseAddress, IsValidAlias, IsValidSid, IsNormalizedPath, ValidateTopic;
    match req {
      case ReqHello(sid, home, ts) => HelloAccounted(cfg, h, l, c, sid, home, ts);
      case ReqSetAlias(alias, ts) => AdoptedAccounted(cfg, h, l, c, if alias == "" then None else Some(alias), ts);
      case ReqSend(dest, body, replyTo, id, ts) =>
        RoutedAccounted(cfg, h, l, c, ParseAddress(dest).value, Compose(h, c, dest, body, replyTo, id, ts));
      case ReqPublish(topic, body, id, ts) =>
        PublishedAccounted(cfg, h, l, c, topic, Compose(h, c, TopicKey(topic), body, None, id, ts));
      case ReqSubscribe(topic, replay) => ReplayAccounted(h, l, c, topic, replay);
    }
  }

  // ---------------------------------------------------------------- events and runs

  function AfterEvent(cfg: Config, s: System, l: Ledger, e: Event): Ledger {
    if e.Called? && e.c in s.open then AfterRequest(cfg, s.hub, l, e.c, e.req) else l
  }

  function AfterRun(cfg: Config, s: System, l: Ledger, es: seq<Event>): Ledger {
    if es == [] then l
    else
      var init := es[..|es| - 1];
      AfterEvent(cfg, Run(cfg, s, init), AfterRun(cfg, s, l, init), es[|es| - 1])
  }

  /** Every id that the daemon mints during the run is new when it is minted. */
  predicate FreshRun(cfg: Config, s: System, l: Ledger, es: seq<Event>) {
    forall i :: 0 <= i < |es| && es[i].Called? ==> MintsFresh(AfterRun(cfg, s, l, es[..i]), es[i].req)
  }

  lemma StepAccounted(cfg: Config, s: System, l: Ledger, e: Event)
    requires Well(s) && Accounted(s.hub, l) && (e.Called? ==> MintsFresh(l, e.req))
    ensures Accounted(Step(cfg, s, e).hub, AfterEvent(cfg, s, l, e))
  {
    match e {
      case Accepted(c) =>
        if !s.closing && c !in s.hub.conns {
          AcceptedAccounted(s.hub, l, c);
        }
      case Called(c, requestId, req) =>
        if c in s.open {
          SelfSettled(s.hub, c, s.open);
          CalledAccounted(cfg, s.hub, l, c, requestId, req);
        }
      case WriteFailed(c) =>
        if c in s.open {
          SelfSettled(s.hub, c, s.open);
          QuietAccounted(s.hub, Close(s.hub, c), l);
        }
      case HungUp(c, ts) =>
        if c in s.open {
          SelfSettled(s.hub, c, s.open);
          HungUpAccounted(s.hub, l, c, ts);
        }
      case ShutdownBegun =>
      case Restarted => RestartAccounted(s.hub, l);
    }
  }

  lemma AcceptedAccounted(h: Hub, l: Ledger, c: Connection)
    requires Accounted(h, l) && c !in h.conns
    ensures Accounted(h.Put(c, NEW_CONN), l)
  {
    var g := h.Put(c, NEW_CONN);
    forall d, id | d in g.conns && id !in l.published
      ensures Got(g.conns[d].outbox, id) == if id in l.fates then Copies(l.fates[id], d) else 0
    {
      if d != c {
        assert d in h.conns;
      }
    }
  }

  lemma CalledAccounted(cfg: Config, h: Hub, l: Ledger, c: Connection, requestId: Option<RequestId>, req: Request)
    requires SidsIndexed(h) && Accounted(h, l) && c in h.conns && MintsFresh(l, req)
    ensures Accounted(Dispatch(cfg, h, c, requestId, req), AfterRequest(cfg, h, l, c, req))
  {
    hide Handle, AfterRequest;
    var (g, out) := Handle(cfg, h, c, req);
    HandleAccounted(cfg, h, l, c, req);
    HandleShape(cfg, h, c, req);
    ReshapedHas(cfg, h, c, req);
    AnswerAccounted(g, AfterRequest(cfg, h, l, c, req), c, requestId, out);
  }

  lemma ReshapedHas(cfg: Config, h: Hub, c: Connection, req: Request)
    requires c in h.conns
    ensures c in Reshaped(cfg, h, c, req).conns
  {
    hide Handle, Enroll, Expel, RenameIn;
  }

  lemma AnswerAccounted(h: Hub, l: Ledger, c: Connection, requestId: Option<RequestId>, out: Outcome)
    requires Accounted(h, l) && c in h.conns
    ensures Accounted(h.Put(c, Answer(h.At(c), requestId, out)), l)
  {
    var k := Answer(h.At(c), requestId, out);
    if requestId.None? || h.At(c).closed {
      assert h.At(c).outbox + [] == h.At(c).outbox;
      PutAccounted(h, h.Put(c, k), c, [], l);
    } else {
      var f := if out.Ok? then Response(requestId.value, out.value) else Failure(requestId.value, out.error);
      assert [f][..0] == [];
      PutAccounted(h, h.Put(c, k), c, [f], l);
    }
  }

  lemma HungUpAccounted(h: Hub, l: Ledger, c: Connection, ts: real)
    requires Accounted(h, l) && c in h.conns
    ensures Accounted(Close(Goodbye(h, c, ts), c), l)
  {
    var g := Goodbye(h, c, ts);
    assert Accounted(g, l) && c in g.conns by {
      if h.At(c).sid.Some? {
        hide Accounted;
        var h1, k := Unregister(h, c), h.At(c);
        QuietAccounted(h, h1, l);
        PostAccounted(h1, h1.Others(k.sid), PeerLeft(k.HomeOrEmpty(), k.sid.value, k.alias, ts), l);
      }
    }
    hide Goodbye;
    QuietAccounted(g, Close(g, c), l);
  }

  lemma RestartAccounted(h: Hub, l: Ledger)
    requires Accounted(h, l)
    ensures Accounted(Reborn(h), l)
  {
    var g := Reborn(h);
    forall id | id in l.fates && l.fates[id].Queued?
      ensures HasId(QueueAt(g.dms, l.fates[id].at), id)
    {
      assert HasId(QueueAt(h.dms, l.fates[id].at), id);
      assert QueueAt(g.dms, l.fates[id].at) == QueueAt(h.dms, l.fates[id].at);
    }
    assert QueuesTold(g, l) && RingsTold(g, l);
    assert OutboxesTold(g, l);
  }

  /** In every reachable state queues and outboxes hold exactly what the fates say. */
  lemma {:induction false} RunAccounted(cfg: Config, s: System, l: Ledger, es: seq<Event>)
    requires Well(s) && Accounted(s.hub, l) && FreshRun(cfg, s, l, es)
    ensures Accounted(Run(cfg, s, es).hub, AfterRun(cfg, s, l, es))
  {
    if es == [] {
    } else {
      var init := es[..|es| - 1];
      assert forall i :: 0 <= i < |init| ==> init[..i] == es[..i];
      RunAccounted(cfg, s, l, init);
      RunWell(cfg, s, init);
      StepAccounted(cfg, Run(cfg, s, init), AfterRun(cfg, s, l, init), es[|es| - 1]);
    }
  }

  // ---------------------------------------------------------------- the main statements

  /** The ids of the direct messages that the daemon accepted during the run. */
  function SentIds(cfg: Config, s: System, es: seq<Event>): set<string> {
    if es == [] then {}
    else
      var (init, e) := (es[..|es| - 1], es[|es| - 1]);
      var t := Run(cfg, s, init);
      SentIds(cfg, s, init)
        + if e.Called? && e.c in t.open && e.req.ReqSend? && Handle(cfg, t.hub, e.c, e.req).1.Ok?
          then {e.req.id} else {}
  }

  /** A daemon that starts with empty stores has an empty account. */
  lemma BlankAccounted()
    ensures Accounted(BOOT.hub, BLANK) && Well(BOOT)
  {
    assert Scan(EMPTY_HUB) == map[];
  }

  /** The ids of the messages in some queues or rings. */
  function IdsIn(queues: map<string, seq<Message>>): set<string> {
    set a, i | a in queues && 0 <= i < |queues[a]| :: queues[a][i].id
  }

  /** Ids are unique: no message of a queue has the id of another one, or of a publication. */
  ghost predicate IdsApart(h: Hub) {
    && (forall a :: a in h.dms ==> DistinctIds(h.dms[a]))
    && (forall a, b, id :: HasId(QueueAt(h.dms, a), id) && HasId(QueueAt(h.dms, b), id) ==> a == b)
    && IdsIn(h.dms) !! IdsIn(h.topics)
  }

  /** The account of what a daemon finds on disk: each message of a queue is queued there. */
  ghost function FoundLedger(h: Hub): Ledger {
    Ledger(map id | id in IdsIn(h.dms) :: Queued(var a :| HasId(QueueAt(h.dms, a), id); a), IdsIn(h.topics))
  }

  /** A daemon that has just started with whatever it found on disk is accounted for iff ids are
      unique: no other account fits when they are not. */
  lemma FoundAccountedIff(s: System)
    requires Booted(s)
    ensures Well(s)
    ensures IdsApart(s.hub) ==> Accounted(s.hub, FoundLedger(s.hub))
    ensures forall l :: Accounted(s.hub, l) ==> IdsApart(s.hub)
  {
    if IdsApart(s.hub) {
      FoundTold(s.hub);
    }
    forall l | Accounted(s.hub, l)
      ensures IdsApart(s.hub)
    {
      AccountedApart(s.hub, l);
    }
    Lifecycle.BootedWell(s);
    hide Well, FoundLedger, IdsApart, IdsIn;
  }

  lemma AccountedApart(h: Hub, l: Ledger)
    requires Accounted(h, l)
    ensures IdsApart(h)
  {
    hide OutboxesTold, KeepersKnown, DistinctIds;
  }

  lemma FoundTold(h: Hub)
    requires IdsApart(h)
    ensures var l := FoundLedger(h); QueuesTold(h, l) && QueuedFound(h, l) && RingsTold(h, l)
    ensures forall id :: id in FoundLedger(h).fates ==> FoundLedger(h).fates[id].Queued?
  {
    hide DistinctIds;
    var l := FoundLedger(h);
    forall a, i | a in h.dms && 0 <= i < |h.dms[a]|
      ensures h.dms[a][i].id in l.fates && l.fates[h.dms[a][i].id] == Queued(a)
    {
      assert HasId(QueueAt(h.dms, a), h.dms[a][i].id);
    }
  }

  /** After any run from a state that is accounted for, each accepted direct message has one fate,
      and nothing about it is left open: it sits in the queue of that fate and in no other, and each
      outbox that the fate names has it exactly once and every other outbox not at all. */
  lemma ExactlyOneFate(cfg: Config, start: System, first: Ledger, es: seq<Event>)
    requires Well(start) && Accounted(start.hub, first) && FreshRun(cfg, start, first, es)
    ensures var (h, l) := (Run(cfg, start, es).hub, AfterRun(cfg, start, first, es));
      && l.fates.Keys == first.fates.Keys + SentIds(cfg, start, es)
      && (forall id, a :: id in l.fates ==> (HasId(QueueAt(h.dms, a), id) <==> l.fates[id] == Queued(a)))
      && (forall id, c :: id in l.fates && c in h.conns ==>
            Got(h.conns[c].outbox, id) == if c in Keepers(l.fates[id]) then 1 else 0)
      && (forall id :: id in l.fates && l.fates[id].Live? ==>
            var f := l.fates[id]; f.receivers != {} && f.reached <= f.receivers <= h.conns.Keys)
  {
    var h, l := Run(cfg, start, es).hub, AfterRun(cfg, start, first, es);
    RunAccounted(cfg, start, first, es);
    FatesAreSent(cfg, start, first, es);
    forall id, a | id in l.fates
      ensures HasId(QueueAt(h.dms, a), id) <==> l.fates[id] == Queued(a)
    {
      HandedIds(h, l, a, id);
    }
  }

  lemma {:induction false} FatesAreSent(cfg: Config, s: System, l: Ledger, es: seq<Event>)
    ensures AfterRun(cfg, s, l, es).fates.Keys == l.fates.Keys + SentIds(cfg, s, es)
  {
    if es == [] {
    } else {
      var init, e := es[..|es| - 1], es[|es| - 1];
      FatesAreSent(cfg, s, l, init);
      var t, l0 := Run(cfg, s, init), AfterRun(cfg, s, l, init);
      if e.Called? && e.c in t.open {
        RequestFates(cfg, t.hub, l0, e.c, e.req);
      }
    }
  }

  lemma RequestFates(cfg: Config, h: Hub, l: Ledger, c: Connection, req: Request)
    ensures AfterRequest(cfg, h, l, c, req).fates.Keys
      == l.fates.Keys + if req.ReqSend? && Handle(cfg, h, c, req).1.Ok? then {req.id} else {}
  {
    hide Hello, Adopted, Routed, Published, Drain, Register, Rename, Followed, Unsubscribed;
    hide ParseAddress, IsValidAlias, IsValidSid, IsNormalizedPath, ValidateTopic, FallenOff;
  }

  /** A fate other than being queued is final: no run from a state that is accounted for changes it. */
  lemma {:induction false} FateIsFinal(cfg: Config, s: System, l: Ledger, es: seq<Event>, id: string)
    requires Well(s) && Accounted(s.hub, l) && FreshRun(cfg, s, l, es) && id in l.fates && !l.fates[id].Queued?
    ensures id in AfterRun(cfg, s, l, es).fates && AfterRun(cfg, s, l, es).fates[id] == l.fates[id]
  {
    hide Well, Accounted, AfterRequest, MintsFresh, Run;
    if es == [] {
    } else {
      var init, e := es[..|es| - 1], es[|es| - 1];
      assert forall i :: 0 <= i < |init| ==> init[..i] == es[..i];
      assert e.Called? ==> MintsFresh(AfterRun(cfg, s, l, init), e.req);
      FateIsFinal(cfg, s, l, init, id);
      RunAccounted(cfg, s, l, init);
      RunWell(cfg, s, init);
      var t, l1 := Run(cfg, s, init), AfterRun(cfg, s, l, init);
      if e.Called? && e.c in t.open {
        KnownOpen(t, e.c);
        FateStays(cfg, t.hub, l1, e.c, e.req, id);
      }
    }
  }

  lemma KnownOpen(s: System, c: Connection)
    requires Well(s) && c in s.open
    ensures c in s.hub.conns
  {
    SelfSettled(s.hub, c, s.open);
  }

  /** One request leaves it alone. */
  lemma FateStays(cfg: Config, h: Hub, l: Ledger, c: Connection, req: Request, id: string)
    requires Accounted(h, l) && c in h.conns && MintsFresh(l, req) && id in l.fates && !l.fates[id].Queued?
    ensures id in AfterRequest(cfg, h, l, c, req).fates && AfterRequest(cfg, h, l, c, req).fates[id] == l.fates[id]
  {
    hide Accounted, Hello, Adopted, Routed, Published, Followed, ParseAddress, HandedTo, AfterQueuing, Register, Drain;
    hide IsValidSid, IsNormalizedPath, IsValidAlias, ValidateTopic;
    if Handle(cfg, h, c, req).1.Ok? {
      match req {
        case ReqHello(sid, home, ts) => HelloFinal(cfg, h, l, c, sid, home, id);
        case ReqSetAlias(alias, ts) =>
          QuietAccounted(h, Rename(h, c, Some(alias)), l);
          HandedFinal(cfg, Rename(h, c, Some(alias)), l, c, DirectKey(h.At(c).HomeOrEmpty(), alias), id);
        case ReqSend(dest, body, replyTo, rid, ts) =>
          QueuingFinal(cfg, h, l, Compose(h, c, dest, body, replyTo, rid, ts), id);
        case _ =>
      }
    }
  }

  lemma HandedFinal(cfg: Config, h: Hub, l: Ledger, c: Connection, key: string, id: string)
    requires Accounted(h, l) && id in l.fates && !l.fates[id].Queued?
    ensures id in HandedTo(cfg, h, l, c, key).fates && HandedTo(cfg, h, l, c, key).fates[id] == l.fates[id]
  {
    HandedSettles(cfg, h, l, c, key);
  }

  lemma HelloFinal(cfg: Config, h: Hub, l: Ledger, c: Connection, sid: string, home: string, id: string)
    requires Accounted(h, l) && c in h.conns && id in l.fates && !l.fates[id].Queued?
    ensures var h1 := Register(h, c, sid, home);
      var (h2, l1) := (Drain(cfg, h1, c, HomeKey(home)), HandedTo(cfg, h1, l, c, HomeKey(home)));
      var l2 := HandedTo(cfg, h2, l1, c, DirectKey(home, sid));
      id in l2.fates && l2.fates[id] == l.fates[id]
  {
    hide Accounted, Drain, HandedTo;
    var h1 := Register(h, c, sid, home);
    QuietAccounted(h, h1, l);
    DrainAccounted(cfg, h1, l, c, HomeKey(home));
    HandedFinal(cfg, h1, l, c, HomeKey(home), id);
    HandedFinal(cfg, Drain(cfg, h1, c, HomeKey(home)), HandedTo(cfg, h1, l, c, HomeKey(home)), c,
                DirectKey(home, sid), id);
  }

  lemma QueuingFinal(cfg: Config, h: Hub, l: Ledger, m: Message, id: string)
    requires Accounted(h, l) && FreshId(l, m.id) && id in l.fates && !l.fates[id].Queued?
    ensures id != m.id && id in AfterQueuing(cfg, h, l, m).fates && AfterQueuing(cfg, h, l, m).fates[id] == l.fates[id]
  {
    NotQueued(h, l, m.to, m.id);
    PushSplits(QueueAt(h.dms, m.to), m, cfg.dmMax, id);
    QueuedHere(h, l, m.to, id);
  }

  /** Only a claim of an alias can drop a message by a filter: what a session is handed on hello
      always passes, because the filter of a connection is still the one that accepts all. */
  lemma OnlyClaimsFilter(cfg: Config, s: System, l: Ledger, c: Connection, req: Request, id: string)
    requires cfg.StarMatchesAll() && Well(s) && c in s.open && Accounted(s.hub, l) && MintsFresh(l, req)
    requires var l1 := AfterRequest(cfg, s.hub, l, c, req);
      id in l1.fates && l1.fates[id].Filtered? && !(id in l.fates && l.fates[id].Filtered?)
    ensures req.ReqSetAlias?
  {
    hide Hello, Adopted, Routed, Published, Followed, ParseAddress, Accounted, Drain, Indexed;
    if req.ReqHello? && Handle(cfg, s.hub, c, req).1.Ok? {
      SelfSettled(s.hub, c, s.open);
      var h1 := Register(s.hub, c, req.sid, req.home);
      DrainOnlyPosts(cfg, h1, c, HomeKey(req.home));
      assert "*" in h1.At(c).dmFilter;
      NewcomerFiltersNothing(cfg, h1, l, c, HomeKey(req.home), id);
      NewcomerFiltersNothing(cfg, Drain(cfg, h1, c, HomeKey(req.home)), HandedTo(cfg, h1, l, c, HomeKey(req.home)), c,
                             DirectKey(req.home, req.sid), id);
    }
  }

  lemma NewcomerFiltersNothing(cfg: Config, h: Hub, l: Ledger, c: Connection, key: string, id: string)
    requires cfg.StarMatchesAll() && "*" in h.At(c).dmFilter
    ensures id in HandedTo(cfg, h, l, c, key).fates && HandedTo(cfg, h, l, c, key).fates[id].Filtered?
      ==> id in l.fates && l.fates[id].Filtered?
  {
  }
}
