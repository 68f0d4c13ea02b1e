/** Responses among the frames of an outbox: only the dispatcher puts them there. */
module Responses {
  import opened Base
  import opened Messages
  import opened Addressing
  import opened Connections
  import opened Store
  import opened Routing
  import opened Daemon
  import opened Invariant
  import opened Client

  // ---------------------------------------------------------------- responses among frames

  /** The responses among some frames, in order. */
  function Answers(frames: seq<Frame>): seq<Frame> {
    Filter(IsAnswer, frames)
  }

  lemma AnswersConcat(fs: seq<Frame>, gs: seq<Frame>)
    ensures Answers(fs + gs) == Answers(fs) + Answers(gs)
  {
    FilterConcat(IsAnswer, fs, gs);
  }

  lemma {:induction false} NoAnswers(fs: seq<Frame>)
    requires forall i :: 0 <= i < |fs| ==> !IsAnswer(fs[i])
    ensures Answers(fs) == []
  {
    if fs == [] {
    } else {
      NoAnswers(fs[1..]);
    }
  }

  lemma OneAnswer(f: Frame)
    ensures Answers([f]) == if IsAnswer(f) then [f] else []
  {
    assert Filter(IsAnswer, [f][1..]) == [];
    assert [f] + [] == [f];
  }

  /** The second outbox continues the first one without any response. */
  predicate Continues(before: seq<Frame>, after: seq<Frame>) {
    before <= after && Answers(after) == Answers(before)
  }

  /** Every outbox has at most grown, and has the same responses as before. */
  ghost predicate SameAnswers(h: Hub, g: Hub) {
    forall c :: c in h.conns ==>
      && c in g.conns && g.conns[c].closed == h.conns[c].closed
      && Continues(h.conns[c].outbox, g.conns[c].outbox)
  }

  lemma SameAnswersTrans(h: Hub, g: Hub, k: Hub)
    requires SameAnswers(h, g) && SameAnswers(g, k)
    ensures SameAnswers(h, k)
  {
  }

  lemma PostAnswers(h: Hub, targets: set<Connection>, f: Frame)
    requires !IsAnswer(f)
    ensures SameAnswers(h, h.Post(targets, f))
  {
    forall c | c in h.conns
      ensures Answers(h.conns[c].outbox + [f]) == Answers(h.conns[c].outbox)
    {
      AnswersConcat(h.conns[c].outbox, [f]);
      NoAnswers([f]);
    }
  }

  lemma PutAnswers(h: Hub, c: Connection, k: Conn)
    requires k.outbox == h.At(c).outbox && k.closed == h.At(c).closed
    ensures SameAnswers(h, h.Put(c, k))
  {
  }

  lemma HandAnswers(h: Hub, c: Connection, msgs: seq<Message>)
    ensures SameAnswers(h, h.Put(c, h.At(c).EnqueueAll(MessageFrames(msgs))))
  {
    AnswersConcat(h.At(c).outbox, MessageFrames(msgs));
    NoAnswers(MessageFrames(msgs));
  }

  lemma DrainAnswers(cfg: Config, h: Hub, c: Connection, address: string)
    ensures SameAnswers(h, Drain(cfg, h, c, address))
  {
    if QueueAt(h.dms, address) != [] {
      var msgs := cfg.Accepted(h.At(c), h.dms[address]);
      hide Filter, Answers, MessageFrames;
      HandAnswers(h, c, msgs);
    }
  }

  lemma HelloAnswers(cfg: Config, h: Hub, c: Connection, sid: string, home: string, ts: real)
    requires Hello(cfg, h, c, sid, home, ts).1.Ok?
    ensures SameAnswers(h, Hello(cfg, h, c, sid, home, ts).0)
  {
    hide SameAnswers, Drain;
    var h1 := Register(h, c, sid, home);
    var h2 := Drain(cfg, h1, c, HomeKey(home));
    var h3 := Drain(cfg, h2, c, DirectKey(home, sid));
    var f := PeerJoined(home, sid, ts);
    RegisterAnswers(h, c, sid, home);
    DrainAnswers(cfg, h1, c, HomeKey(home));
    DrainAnswers(cfg, h2, c, DirectKey(home, sid));
    PostAnswers(h3, h3.Others(Some(sid)), f);
    SameAnswersTrans(h, h1, h2);
    SameAnswersTrans(h, h2, h3);
    SameAnswersTrans(h, h3, h3.Post(h3.Others(Some(sid)), f));
  }

  lemma RegisterAnswers(h: Hub, c: Connection, sid: string, home: string)
    ensures SameAnswers(h, Register(h, c, sid, home))
  {
  }

  lemma RenameAnswers(h: Hub, c: Connection, chosen: Option<string>)
    requires h.At(c).sid.Some?
    ensures SameAnswers(h, Rename(h, c, chosen))
  {
  }

  lemma AdoptedAnswers(cfg: Config, h: Hub, c: Connection, chosen: Option<string>, ts: real)
    requires h.At(c).sid.Some?
    ensures SameAnswers(h, Adopted(cfg, h, c, chosen, ts))
  {
    hide SameAnswers, Drain, Rename;
    var k, home := h.At(c), h.At(c).HomeOrEmpty();
    var h1 := Rename(h, c, chosen);
    var h2 := h1;
    RenameAnswers(h, c, chosen);
    if chosen.Some? && chosen != k.alias {
      h2 := Drain(cfg, h1, c, DirectKey(home, chosen.value));
      DrainAnswers(cfg, h1, c, DirectKey(home, chosen.value));
      SameAnswersTrans(h, h1, h2);
    }
    var f := AliasChanged(home, k.sid.value, chosen, k.alias, ts);
    PostAnswers(h2, h2.Others(None), f);
    SameAnswersTrans(h, h2, h2.Post(h2.Others(None), f));
  }

  lemma QueueAnswers(h: Hub, g: Hub)
    requires g.conns == h.conns
    ensures SameAnswers(h, g)
  {
  }

  lemma RoutedAnswers(cfg: Config, h: Hub, c: Connection, addr: Address, m: Message)
    requires addr.Home?
    ensures SameAnswers(h, Routed(cfg, h, c, addr, m).0)
  {
    hide SameAnswers, Receivers, Hub.Watchers, PostTo;
    var rs := Receivers(cfg, h, c, addr, m);
    var h1 := h.Post(Sessions(h, rs), PeerMessage(m));
    var h2 := if rs == {} then h1.(dms := Enqueue(h1.dms, m, cfg.dmMax)) else h1;
    var f := WireMessage(m, |rs|, rs == {});
    PostAnswers(h, Sessions(h, rs), PeerMessage(m));
    QueueAnswers(h1, h2);
    PostAnswers(h2, h2.Watchers(cfg, m, h.At(c).sid), f);
    SameAnswersTrans(h, h1, h2);
    SameAnswersTrans(h, h2, h2.Post(h2.Watchers(cfg, m, h.At(c).sid), f));
  }

  lemma PublishedAnswers(cfg: Config, h: Hub, c: Connection, topic: string, m: Message)
    ensures SameAnswers(h, Published(cfg, h, c, topic, m).0)
  {
    hide SameAnswers, Routing.Subscribers, Hub.Watchers, PostTo;
    var h1 := h.(topics := Enqueue(h.topics, m, cfg.topicMax));
    var rs := Routing.Subscribers(h, topic, h.At(c).sid);
    var h2 := h1.Post(Sessions(h, rs), PeerMessage(m));
    var f := WireMessage(m, |rs|, false);
    QueueAnswers(h, h1);
    PostAnswers(h1, Sessions(h, rs), PeerMessage(m));
    PostAnswers(h2, h2.Watchers(cfg, m, h.At(c).sid), f);
    SameAnswersTrans(h, h1, h2);
    SameAnswersTrans(h, h2, h2.Post(h2.Watchers(cfg, m, h.At(c).sid), f));
  }

  lemma SubscribedAnswers(h: Hub, c: Connection, topic: string)
    requires h.At(c).sid.Some?
    ensures SameAnswers(h, Subscribed(h, c, topic)) && SameAnswers(h, Unsubscribed(h, c, topic))
  {
  }

  lemma FollowedAnswers(h: Hub, c: Connection, topic: string, replay: nat)
    requires h.At(c).sid.Some?
    ensures SameAnswers(h, Followed(h, c, topic, replay))
  {
    hide SameAnswers, Subscribed;
    var h1, ring := Subscribed(h, c, topic), QueueAt(h.topics, TopicKey(topic));
    SubscribedAnswers(h, c, topic);
    if replay > 0 {
      var h2 := h1.(topics := h.topics[TopicKey(topic) := ring]);
      QueueAnswers(h1, h2);
      HandAnswers(h2, c, LastN(ring, replay));
      SameAnswersTrans(h, h1, h2);
      SameAnswersTrans(h, h2, Followed(h, c, topic, replay));
    }
  }

  /** No request puts a response into any outbox before the dispatcher answers it. */
  lemma HandleAnswers(cfg: Config, h: Hub, c: Connection, req: Request)
    ensures SameAnswers(h, Handle(cfg, h, c, req).0)
  {
    hide Hello, Adopted, Routed, Published, Followed, Subscribed, Unsubscribed, SameAnswers, ParseAddress;
    hide IsValidAlias, IsValidSid, IsNormalizedPath, ValidateTopic, WithHome, AnyMatch;
    if Handle(cfg, h, c, req).1.Err? {
      RejectedIsNoOp(cfg, h, c, req);
      QueueAnswers(h, Handle(cfg, h, c, req).0);
    } else {
      match req {
        case ReqHello(sid, home, ts) => HelloAnswers(cfg, h, c, sid, home, ts);
        case ReqSetAlias(alias, ts) => AdoptedAnswers(cfg, h, c, if alias == "" then None else Some(alias), ts);
        case ReqSend(dest, body, replyTo, id, ts) =>
          RoutedAnswers(cfg, h, c, ParseAddress(dest).value, Compose(h, c, dest, body, replyTo, id, ts));
        case ReqPublish(topic, body, id, ts) =>
          PublishedAnswers(cfg, h, c, topic, Compose(h, c, TopicKey(topic), body, None, id, ts));
        case ReqSubscribe(topic, replay) => FollowedAnswers(h, c, topic, replay);
        case ReqUnsubscribe(topic) => SubscribedAnswers(h, c, topic);
        case ReqHistory(address, since, limit) => QueueAnswers(h, h);
        case _ => PutAnswers(h, c, Handle(cfg, h, c, req).0.At(c));
      }
    }
  }

  // ---------------------------------------------------------------- whole events

  lemma GoodbyeAnswers(h: Hub, c: Connection, ts: real)
    ensures SameAnswers(h, Goodbye(h, c, ts))
  {
    var k := h.At(c);
    if k.sid.None? {
      QueueAnswers(h, h);
    } else {
      hide SameAnswers, Unregister;
      var h1 := Unregister(h, c);
      var f := PeerLeft(k.HomeOrEmpty(), k.sid.value, k.alias, ts);
      UnregisterAnswers(h, c);
      PostAnswers(h1, h1.Others(k.sid), f);
      SameAnswersTrans(h, h1, h1.Post(h1.Others(k.sid), f));
    }
  }

  lemma UnregisterAnswers(h: Hub, c: Connection)
    requires h.At(c).sid.Some?
    ensures SameAnswers(h, Unregister(h, c))
  {
    hide LeaveIn, Expel, ExpelAll;
  }

  /** The response to a request that carries an id. */
  function ResponseTo(id: RequestId, out: Outcome): Frame {
    match out
    case Ok(reply) => Response(id, reply)
    case Err(code) => Failure(id, code)
  }

  /** A dispatched request continues every other outbox without a response. */
  lemma DispatchElsewhere(cfg: Config, h: Hub, d: Connection, requestId: Option<RequestId>, req: Request, c: Connection)
    requires c in h.conns && c != d
    ensures var g := Dispatch(cfg, h, d, requestId, req);
      c in g.conns && g.At(c).closed == h.At(c).closed && Continues(h.At(c).outbox, g.At(c).outbox)
  {
    HandleAnswers(cfg, h, d, req);
    hide Handle, Answers, Answer;
  }

  /** The own outbox is continued by exactly one response, with the outcome of the request; it
      comes after whatever the request itself has put there. */
  lemma DispatchOwn(cfg: Config, h: Hub, c: Connection, id: RequestId, req: Request)
    requires c in h.conns && !h.At(c).closed
    ensures var (g, f) := (Dispatch(cfg, h, c, Some(id), req), ResponseTo(id, Handle(cfg, h, c, req).1));
      && c in g.conns && !g.At(c).closed && h.At(c).outbox <= g.At(c).outbox
      && g.At(c).outbox[|g.At(c).outbox| - 1..] == [f]
      && Answers(g.At(c).outbox) == Answers(h.At(c).outbox) + [f]
  {
    var (g, out) := Handle(cfg, h, c, req);
    HandleAnswers(cfg, h, c, req);
    assert Continues(h.At(c).outbox, g.At(c).outbox);
    hide Handle, Answers;
    AnswerLast(g.At(c).outbox, id, out);
  }

  lemma AnswerLast(outbox: seq<Frame>, id: RequestId, out: Outcome)
    ensures Answers(outbox + [ResponseTo(id, out)]) == Answers(outbox) + [ResponseTo(id, out)]
  {
    var f := ResponseTo(id, out);
    AnswersConcat(outbox, [f]);
    OneAnswer(f);
  }
}
