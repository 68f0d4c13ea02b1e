/** Calls and their responses across the connection: a client and the daemon joined by two FIFO
    channels, with everything else that happens in the daemon interleaved. */
module Correlation {
  import opened Base
  import opened Connections
  import opened Routing
  import opened Registry
  import opened Daemon
  import opened Invariant
  import opened Client
  import opened Responses

  // ---------------------------------------------------------------- the connection as two channels

  /** Channels are histories with positions: `sent` requests of which the server has read
      `fetched` and answered |outcomes|, and the outbox of the connection, of which `wired` frames
      have been written and `read` have reached the client. */
  datatype Link = Link(sys: System, conn: Connection, client: ClientState,
                       sent: seq<(nat, Request)>, fetched: nat, outcomes: seq<Outcome>, wired: nat, read: nat)
  {
    function Outbox(): seq<Frame> {
      sys.hub.At(conn).outbox
    }
  }

  datatype Move = Ask(req: Request) | GiveUp(id: nat) | Fetch | Serve | Elsewhere(e: Event) | Write | Read

  /** An event of the daemon that neither restarts it nor concerns this connection. */
  predicate Outside(e: Event, conn: Connection) {
    match e
    case Accepted(c) => c != conn
    case Called(c, _, _) => c != conn
    case WriteFailed(c) => c != conn
    case HungUp(c, _) => c != conn
    case ShutdownBegun => true
    case Restarted => false
  }

  function ServeNext(cfg: Config, l: Link): Link
    requires |l.outcomes| < |l.sent|
  {
    var (id, req) := l.sent[|l.outcomes|];
    l.(sys := Step(cfg, l.sys, Called(l.conn, Some(Number(id)), req)),
       outcomes := l.outcomes + [Handle(cfg, l.sys.hub, l.conn, req).1])
  }

  /** One move of the client, of the handler of the connection, of its writer, or of the rest of
      the daemon. Moves that cannot happen change nothing. */
  function Advance(cfg: Config, l: Link, m: Move): Link {
    match m
    case Ask(req) =>
      var client := l.client.StartCall();
      l.(client := client, sent := l.sent + [(client.nextId, req)])
    case GiveUp(id) => l.(client := l.client.GiveUp(id))
    case Fetch => if |l.outcomes| == l.fetched < |l.sent| then l.(fetched := l.fetched + 1) else l
    case Serve => if |l.outcomes| < l.fetched <= |l.sent| then ServeNext(cfg, l) else l
    case Elsewhere(e) => if Outside(e, l.conn) then l.(sys := Step(cfg, l.sys, e)) else l
    case Write => if l.wired < |l.Outbox()| then l.(wired := l.wired + 1) else l
    case Read =>
      if l.read < l.wired <= |l.Outbox()| then l.(client := l.client.Receive(l.Outbox()[l.read]), read := l.read + 1)
      else l
  }

  function Converse(cfg: Config, l: Link, moves: seq<Move>): Link {
    if moves == [] then l else Advance(cfg, Converse(cfg, l, moves[..|moves| - 1]), moves[|moves| - 1])
  }

  /** A client has just connected. */
  ghost predicate Connected(l: Link) {
    && Well(l.sys) && l.conn in l.sys.open && l.sys.hub.At(l.conn) == NEW_CONN
    && l == Link(l.sys, l.conn, FRESH_CLIENT, [], 0, [], 0, 0)
  }

  // ---------------------------------------------------------------- the invariant

  ghost predicate OpenAt(s: System, c: Connection) {
    Well(s) && c in s.open && c in s.hub.conns && !s.hub.At(c).closed
  }

  /** Requests are numbered from one, in the order of the calls. */
  predicate Numbered(sent: seq<(nat, Request)>, nextId: nat) {
    |sent| == nextId && forall i :: 0 <= i < |sent| ==> sent[i].0 == i + 1
  }

  /** The responses answer the first requests in order, each with the outcome of its own. */
  ghost predicate Answered(outbox: seq<Frame>, outcomes: seq<Outcome>) {
    && |Answers(outbox)| == |outcomes|
    && forall i :: 0 <= i < |outcomes| ==> Answers(outbox)[i] == ResponseTo(Number(i + 1), outcomes[i])
  }

  /** The client waits for exactly the calls without a response so far, and has handed out, to
      those that still waited, the outcome of their own request. */
  ghost predicate Told(client: ClientState, answered: nat, outcomes: seq<Outcome>) {
    && answered <= |outcomes|
    && (forall n :: n in client.pending <==> answered < n <= client.nextId)
    && (forall n :: n in client.results ==> 1 <= n <= answered && client.results[n] == outcomes[n - 1])
  }

  /** The frames among some that are no responses, in order. */
  function Notices(frames: seq<Frame>): seq<Frame> {
    Filter(f => !IsAnswer(f), frames)
  }

  ghost predicate Linked(l: Link) {
    && OpenAt(l.sys, l.conn)
    && |l.outcomes| <= l.fetched <= |l.sent| && l.fetched <= |l.outcomes| + 1
    && l.read <= l.wired <= |l.Outbox()|
    && Numbered(l.sent, l.client.nextId) && Answered(l.Outbox(), l.outcomes)
    && Told(l.client, |Answers(l.Outbox()[..l.read])|, l.outcomes)
    && l.client.notes == Notices(l.Outbox()[..l.read])
  }

  lemma WriteFailedOpen(s: System, c: Connection, d: Connection)
    requires OpenAt(s, c) && d != c
    ensures c in Close(s.hub, d).conns && Close(s.hub, d).At(c) == s.hub.At(c)
  {
  }

  /** The rest of the daemon keeps the connection open and only continues its outbox. */
  lemma StepElsewhere(cfg: Config, s: System, e: Event, c: Connection)
    requires OpenAt(s, c) && Outside(e, c)
    ensures OpenAt(Step(cfg, s, e), c)
    ensures Continues(s.hub.At(c).outbox, Step(cfg, s, e).hub.At(c).outbox)
  {
    hide Well, Dispatch, Goodbye, Answers;
    StepWell(cfg, s, e);
    match e {
      case Called(d, requestId, req) => DispatchElsewhere(cfg, s.hub, d, requestId, req, c);
      case HungUp(d, ts) => GoodbyeAnswers(s.hub, d, ts);
      case WriteFailed(d) => WriteFailedOpen(s, c, d);
      case _ =>
    }
  }

  /** The handler of the connection answers one more request. */
  lemma StepServe(cfg: Config, s: System, c: Connection, id: nat, req: Request)
    requires OpenAt(s, c)
    ensures var t := Step(cfg, s, Called(c, Some(Number(id)), req));
      && OpenAt(t, c) && s.hub.At(c).outbox <= t.hub.At(c).outbox
      && Answers(t.hub.At(c).outbox)
         == Answers(s.hub.At(c).outbox) + [ResponseTo(Number(id), Handle(cfg, s.hub, c, req).1)]
  {
    hide Well, Dispatch, Answers, Handle;
    StepWell(cfg, s, Called(c, Some(Number(id)), req));
    DispatchOwn(cfg, s.hub, c, Number(id), req);
  }

  // ---------------------------------------------------------------- every move keeps it

  /** A longer outbox has the same frames at the positions already read. */
  lemma PrefixStays(before: seq<Frame>, after: seq<Frame>, read: nat)
    requires before <= after && read <= |before|
    ensures after[..read] == before[..read]
  {
  }

  lemma ElsewhereKeeps(cfg: Config, l: Link, e: Event)
    requires Linked(l) && Outside(e, l.conn)
    ensures Linked(Advance(cfg, l, Elsewhere(e)))
  {
    hide OpenAt, Answers, Notices, Numbered, Told, Step;
    StepElsewhere(cfg, l.sys, e, l.conn);
    PrefixStays(l.Outbox(), Advance(cfg, l, Elsewhere(e)).Outbox(), l.read);
  }

  lemma ServeKeeps(cfg: Config, l: Link)
    requires Linked(l) && |l.outcomes| < l.fetched
    ensures Linked(ServeNext(cfg, l))
  {
    hide OpenAt, Answers, Notices, Step, Handle;
    var (id, req) := l.sent[|l.outcomes|];
    StepServe(cfg, l.sys, l.conn, id, req);
    PrefixStays(l.Outbox(), ServeNext(cfg, l).Outbox(), l.read);
  }

  /** The next frame to be read. */
  lemma NextRead(outbox: seq<Frame>, read: nat)
    requires read < |outbox|
    ensures var (k, f) := (|Answers(outbox[..read])|, outbox[read]);
      if IsAnswer(f) then
        k < |Answers(outbox)| && Answers(outbox)[k] == f && |Answers(outbox[..read + 1])| == k + 1
      else |Answers(outbox[..read + 1])| == k
  {
    var f := outbox[read];
    assert outbox[..read + 1] == outbox[..read] + [f];
    assert outbox == outbox[..read + 1] + outbox[read + 1..];
    AnswersConcat(outbox[..read], [f]);
    AnswersConcat(outbox[..read + 1], outbox[read + 1..]);
    OneAnswer(f);
  }

  lemma NextNotice(outbox: seq<Frame>, read: nat)
    requires read < |outbox|
    ensures Notices(outbox[..read + 1])
         == Notices(outbox[..read]) + if IsAnswer(outbox[read]) then [] else [outbox[read]]
  {
    var p, f := (f: Frame) => !IsAnswer(f), outbox[read];
    assert outbox[..read + 1] == outbox[..read] + [f];
    FilterConcat(p, outbox[..read], [f]);
    assert Filter(p, [f][1..]) == [];
    assert [f] + [] == [f];
  }

  lemma ReadKeeps(cfg: Config, l: Link)
    requires Linked(l) && l.read < l.wired
    ensures Linked(Advance(cfg, l, Read))
  {
    hide OpenAt, Answers, Notices, Numbered;
    NextRead(l.Outbox(), l.read);
    NextNotice(l.Outbox(), l.read);
    assert l.client.notes + [] == l.client.notes;
  }

  lemma AskKeeps(cfg: Config, l: Link, m: Move)
    requires Linked(l) && (m.Ask? || m.GiveUp?)
    ensures Linked(Advance(cfg, l, m))
  {
    hide OpenAt, Answers, Notices, Answered;
  }

  lemma AdvanceKeeps(cfg: Config, l: Link, m: Move)
    requires Linked(l)
    ensures Linked(Advance(cfg, l, m))
  {
    match m {
      case Ask(_) => AskKeeps(cfg, l, m);
      case GiveUp(_) => AskKeeps(cfg, l, m);
      case Elsewhere(e) =>
        if Outside(e, l.conn) {
          ElsewhereKeeps(cfg, l, e);
        }
      case Serve =>
        if |l.outcomes| < l.fetched {
          ServeKeeps(cfg, l);
        }
      case Read =>
        if l.read < l.wired {
          ReadKeeps(cfg, l);
        }
      case _ =>
    }
    hide OpenAt, Answers, Notices, Numbered, Told, Answered, Step, Handle;
  }

  lemma {:induction false} ConverseKeeps(cfg: Config, l: Link, moves: seq<Move>)
    requires Linked(l)
    ensures Linked(Converse(cfg, l, moves))
  {
    hide Linked, Advance;
    if moves == [] {
    } else {
      ConverseKeeps(cfg, l, moves[..|moves| - 1]);
      AdvanceKeeps(cfg, Converse(cfg, l, moves[..|moves| - 1]), moves[|moves| - 1]);
    }
  }

  // ---------------------------------------------------------------- what it means

  /** The ids of the calls whose responses are on the wire or in the outbox, then of the one being
      dispatched, then of those in flight. */
  function Pipeline(l: Link): seq<RequestId>
    requires |l.outcomes| <= |l.sent| && l.read <= |l.Outbox()|
  {
    AnswerIds(Answers(l.Outbox()[l.read..])) + SentIds(l.sent[|l.outcomes|..])
  }

  function AnswerIds(frames: seq<Frame>): seq<RequestId> {
    seq(|frames|, i requires 0 <= i < |frames| => if IsAnswer(frames[i]) then frames[i].requestId else Number(0))
  }

  function SentIds(sent: seq<(nat, Request)>): seq<RequestId> {
    seq(|sent|, i requires 0 <= i < |sent| => Number(sent[i].0))
  }

  /** The ids after k, up to n. */
  function IdsFrom(k: nat, n: nat): seq<RequestId>
    requires k <= n
  {
    seq(n - k, i requires 0 <= i < n - k => Number(k + 1 + i))
  }

  /** For every interleaving: the calls without a response so far are exactly those in flight,
      being dispatched, in the outbox or on the wire, each in exactly one place, and they sit there
      in the order in which they were made. */
  lemma PendingIsPipeline(cfg: Config, l: Link, moves: seq<Move>)
    requires Connected(l)
    ensures var t := Converse(cfg, l, moves);
      && |t.outcomes| <= |t.sent| && t.read <= |t.Outbox()|
      && exists k: nat :: k <= t.client.nextId && Pipeline(t) == IdsFrom(k, t.client.nextId)
           && forall n :: n in t.client.pending <==> k < n <= t.client.nextId
  {
    hide Converse;
    ConnectedLinked(l);
    ConverseKeeps(cfg, l, moves);
    PipelineOrdered(Converse(cfg, l, moves));
  }

  lemma ConnectedLinked(l: Link)
    requires Connected(l)
    ensures Linked(l)
  {
    assert l.Outbox() == [];
    assert Consistent(l.sys.hub, l.conn);
    hide Well;
  }

  lemma PipelineOrdered(t: Link)
    requires Linked(t)
    ensures var k := |Answers(t.Outbox()[..t.read])|;
      k <= t.client.nextId && Pipeline(t) == IdsFrom(k, t.client.nextId)
  {
    hide OpenAt, Told, Answers, AnswerIds, SentIds, IdsFrom;
    var k, m := |Answers(t.Outbox()[..t.read])|, |t.outcomes|;
    UnreadAnswers(t.Outbox(), t.outcomes, t.read);
    UnservedIds(t.sent, t.client.nextId, m);
    IdsMeet(k, m, t.client.nextId);
  }

  lemma UnreadAnswers(outbox: seq<Frame>, outcomes: seq<Outcome>, read: nat)
    requires Answered(outbox, outcomes) && read <= |outbox|
    ensures |Answers(outbox[..read])| <= |outcomes|
    ensures AnswerIds(Answers(outbox[read..])) == IdsFrom(|Answers(outbox[..read])|, |outcomes|)
  {
    hide Answers;
    var k, rest := |Answers(outbox[..read])|, Answers(outbox[read..]);
    assert outbox == outbox[..read] + outbox[read..];
    AnswersConcat(outbox[..read], outbox[read..]);
    forall i | 0 <= i < |rest|
      ensures rest[i] == ResponseTo(Number(k + 1 + i), outcomes[k + i])
    {
      assert rest[i] == Answers(outbox)[k + i];
    }
    hide *;
    IdsOfAnswers(rest, outcomes, k);
  }

  lemma IdsOfAnswers(rest: seq<Frame>, outcomes: seq<Outcome>, k: nat)
    requires k + |rest| == |outcomes|
    requires forall i :: 0 <= i < |rest| ==> rest[i] == ResponseTo(Number(k + 1 + i), outcomes[k + i])
    ensures AnswerIds(rest) == IdsFrom(k, |outcomes|)
  {
  }

  lemma UnservedIds(sent: seq<(nat, Request)>, nextId: nat, m: nat)
    requires Numbered(sent, nextId) && m <= |sent|
    ensures SentIds(sent[m..]) == IdsFrom(m, nextId)
  {
  }

  lemma IdsMeet(a: nat, b: nat, c: nat)
    requires a <= b <= c
    ensures IdsFrom(a, b) + IdsFrom(b, c) == IdsFrom(a, c)
  {
  }

  /** Every outcome that the client has handed to a caller is what the daemon computed for that
      very request; the responses in the outbox are in the order of the requests; and the client
      has seen every notification up to its position, in order. */
  lemma OwnOutcome(cfg: Config, l: Link, moves: seq<Move>)
    requires Connected(l)
    ensures var t := Converse(cfg, l, moves);
      && (forall n :: n in t.client.results ==>
            1 <= n <= |t.outcomes| && t.client.results[n] == t.outcomes[n - 1])
      && t.read <= |t.Outbox()| && t.client.notes == Notices(t.Outbox()[..t.read])
      && |Answers(t.Outbox())| == |t.outcomes|
      && forall i :: 0 <= i < |t.outcomes| ==> Answers(t.Outbox())[i] == ResponseTo(Number(i + 1), t.outcomes[i])
  {
    hide Converse;
    ConnectedLinked(l);
    ConverseKeeps(cfg, l, moves);
    hide OpenAt, Answers, Numbered;
  }

  /** The caller has given up while its call was waiting. */
  function GivenUp(cfg: Config, l: Link, moves: seq<Move>, n: nat): bool {
    if moves == [] then false
    else
      var init := moves[..|moves| - 1];
      GivenUp(cfg, l, init, n) || (moves[|moves| - 1] == GiveUp(n) && n in Converse(cfg, l, init).client.pending)
  }

  /** The client knows of a call whether its caller has given up, and hands its outcome out iff not. */
  predicate Remembers(client: ClientState, n: nat, given: bool) {
    && (n in client.pending ==> client.pending[n] == given)
    && (1 <= n <= client.nextId && n !in client.pending ==> (n in client.results <==> !given))
    && (n == 0 || n > client.nextId ==> !given)
  }

  lemma RemembersOn(cfg: Config, l: Link, m: Move, n: nat, given: bool)
    requires Linked(l) && Remembers(l.client, n, given)
    ensures Remembers(Advance(cfg, l, m).client, n, given || (m == GiveUp(n) && n in l.client.pending))
  {
    hide OpenAt, Answers, Answered, Notices, Numbered, Step;
  }

  lemma {:induction false} ConverseRemembers(cfg: Config, l: Link, moves: seq<Move>, n: nat)
    requires Connected(l)
    ensures Remembers(Converse(cfg, l, moves).client, n, GivenUp(cfg, l, moves, n))
  {
    hide Linked, Advance, Remembers;
    if moves == [] {
      assert Remembers(FRESH_CLIENT, n, false) by { FreshRemembers(n); }
      assert l.client == FRESH_CLIENT;
    } else {
      var init, last := moves[..|moves| - 1], moves[|moves| - 1];
      ConverseRemembers(cfg, l, init, n);
      ConnectedLinked(l);
      ConverseKeeps(cfg, l, init);
      RemembersOn(cfg, Converse(cfg, l, init), last, n, GivenUp(cfg, l, init, n));
    }
  }

  lemma FreshRemembers(n: nat)
    ensures Remembers(FRESH_CLIENT, n, false)
  {
  }

  /** The table of outcomes is exact: a caller has its outcome iff the response to its call has been read
      and it had not given up before, and then it is the outcome of its own request. */
  lemma HandedOutIff(cfg: Config, l: Link, moves: seq<Move>, n: nat)
    requires Connected(l)
    ensures var t := Converse(cfg, l, moves);
      t.read <= |t.Outbox()|
      && (n in t.client.results <==> 1 <= n <= |Answers(t.Outbox()[..t.read])| && !GivenUp(cfg, l, moves, n))
      && (n in t.client.results ==> n <= |t.outcomes| && t.client.results[n] == t.outcomes[n - 1])
  {
    hide Converse, OpenAt, Answers, Notices, GivenUp;
    ConnectedLinked(l);
    ConverseKeeps(cfg, l, moves);
    ConverseRemembers(cfg, l, moves, n);
  }

  /** A call completes at most once: neither an outcome handed out nor one computed ever changes. */
  lemma {:induction false} CompletesOnce(cfg: Config, l: Link, moves: seq<Move>, more: seq<Move>, n: nat)
    requires Connected(l) && n in Converse(cfg, l, moves).client.results
    ensures var (t, u) := (Converse(cfg, l, moves), Converse(cfg, l, moves + more));
      n in u.client.results && u.client.results[n] == t.client.results[n] && n !in u.client.pending
  {
    hide Advance, Linked;
    if more == [] {
      assert moves + more == moves;
      StaysCompleted(cfg, l, moves, n);
    } else {
      var init, last := more[..|more| - 1], more[|more| - 1];
      CompletesOnce(cfg, l, moves, init, n);
      assert (moves + more)[..|moves + more| - 1] == moves + init;
      var u := Converse(cfg, l, moves + init);
      ConnectedLinked(l);
      ConverseKeeps(cfg, l, moves + init);
      OneMove(cfg, u, last, n);
    }
  }

  lemma StaysCompleted(cfg: Config, l: Link, moves: seq<Move>, n: nat)
    requires Connected(l) && n in Converse(cfg, l, moves).client.results
    ensures n !in Converse(cfg, l, moves).client.pending
  {
    hide Converse, OpenAt, Answers, Numbered, Answered;
    ConnectedLinked(l);
    ConverseKeeps(cfg, l, moves);
  }

  lemma OneMove(cfg: Config, u: Link, m: Move, n: nat)
    requires Linked(u) && n in u.client.results && n !in u.client.pending
    ensures var v := Advance(cfg, u, m);
      n in v.client.results && v.client.results[n] == u.client.results[n] && n !in v.client.pending
  {
    hide OpenAt, Answers, Answered, Step;
  }
}
