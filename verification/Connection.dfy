/** One peer connection: its identity, its filters, and the outbox that carries responses and
    notifications to the client in the order they were enqueued. */
module Connections {
  import opened Base
  import opened Messages

  /** The result part of a response. */
  datatype Reply =
    | HelloReply(home: string, sid: string)
    | AliasReply(alias: Option<string>)
    | FilterReply(patterns: seq<string>)
    | WatchReply(watching: bool)
    | SendReply(id: string, delivered: nat)
    | PublishReply(id: string, subscribers: nat)
    | SubscribeReply(topic: string)
    | UnsubscribeReply
    | HistoryReply(msgs: seq<Message>)

  /** The id of a request, which its response repeats. */
  datatype RequestId = Number(n: int) | OtherId(text: Json)

  /** What the daemon enqueues for a client. */
  datatype Frame =
    | PeerMessage(msg: Message)
    | WireMessage(msg: Message, delivered: nat, queued: bool)
    | PeerJoined(home: string, sid: string, ts: real)
    | PeerLeft(home: string, sid: string, alias: Option<string>, ts: real)
    | AliasChanged(home: string, sid: string, alias: Option<string>, previous: Option<string>, ts: real)
    | Response(requestId: RequestId, reply: Reply)
    | Failure(requestId: RequestId, code: int)

  /** The fields of a connection. The outbox lists everything ever enqueued. */
  datatype Conn = Conn(
    sid: Option<string>, home: Option<string>, alias: Option<string>, subs: set<string>,
    dmFilter: seq<string>, wireFrom: Option<seq<string>>, wireTo: seq<string>,
    closed: bool, outbox: seq<Frame>)
  {
    /** A closed connection drops what is enqueued. */
    function Enqueue(f: Frame): Conn {
      if closed then this else this.(outbox := outbox + [f])
    }

    function EnqueueAll(fs: seq<Frame>): Conn {
      if closed then this else this.(outbox := outbox + fs)
    }

    function FromAddr(): string {
      "home:" + HomeOrEmpty() + "#" + (if sid.Some? then sid.value else "")
    }

    function HomeOrEmpty(): string {
      if home.Some? then home.value else ""
    }
  }

  /** A connection that has said nothing yet. */
  const NEW_CONN := Conn(None, None, None, {}, ["*"], None, ["*"], false, [])

  class Connection {
    var sid: Option<string>
    var home: Option<string>
    var alias: Option<string>
    var subscriptions: set<string>
    var dmFilter: seq<string>
    var wireFromFilter: Option<seq<string>>
    var wireToFilter: seq<string>
    var closed: bool
    var outbox: seq<Frame>

    ghost function Snapshot(): Conn
      reads this
    {
      Conn(sid, home, alias, subscriptions, dmFilter, wireFromFilter, wireToFilter, closed, outbox)
    }

    constructor ()
      ensures Snapshot() == NEW_CONN
    {
      sid, home, alias, subscriptions := None, None, None, {};
      dmFilter, wireFromFilter, wireToFilter := ["*"], None, ["*"];
      closed, outbox := false, [];
    }

    method Enqueue(f: Frame)
      modifies this`outbox
      ensures outbox == if closed then old(outbox) else old(outbox) + [f]
    {
      if closed {
        return;
      }
      outbox := outbox + [f];
    }

    predicate MatchesDmFilter(matches: (string, string) -> bool, fromAddr: string)
      reads this
    {
      AnyMatch(matches, fromAddr, dmFilter)
    }

    predicate MatchesWireFilter(matches: (string, string) -> bool, fromAddr: string, toAddr: string)
      reads this
    {
      && wireFromFilter.Some?
      && AnyMatch(matches, fromAddr, wireFromFilter.value)
      && AnyMatch(matches, toAddr, wireToFilter)
    }

    method Close()
      modifies this`closed
      ensures closed
    {
      closed := true;
    }
  }

  /** Some pattern of the list matches the address. */
  predicate AnyMatch(matches: (string, string) -> bool, addr: string, patterns: seq<string>) {
    exists p :: p in patterns && matches(addr, p)
  }
}
