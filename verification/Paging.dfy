/** Reading a queue page by page while it keeps growing. */
module Paging {
  import opened Base
  import opened Messages
  import opened Addressing
  import opened Connections
  import opened Persistence
  import opened Store
  import opened Routing
  import opened Daemon
  import opened Topics

  /** The buffer after the first e messages of the log. */
  function Window(log: seq<Message>, e: nat, max: nat): seq<Message>
    requires e <= |log|
  {
    LastN(log[..e], max)
  }

  /** The cursor p is still in the window. */
  predicate Retained(e: nat, p: nat, max: nat) {
    p < e && e <= p + max
  }

  /** A page continues exactly after a retained cursor. */
  lemma PageFollowsCursor(log: seq<Message>, e: nat, p: nat, max: nat, limit: nat)
    requires DistinctIds(log) && e <= |log| && Retained(e, p, max) && limit > 0
    ensures Page(Window(log, e, max), Some(log[p].id), limit) == log[p + 1..Min(p + 1 + limit, e)]
  {
    hide Window, After, IndexOf, DistinctIds, LastN;
    var base := WindowStart(log, e, max);
    CursorIndex(log, base, e, p);
    AfterInSlice(log, base, e, p, limit);
  }

  lemma WindowStart(log: seq<Message>, e: nat, max: nat) returns (base: nat)
    requires e <= |log|
    ensures base <= e && Window(log, e, max) == log[base..e]
    ensures base == if e <= max then 0 else e - max
  {
    base := if e <= max then 0 else e - max;
  }

  lemma CursorIndex(log: seq<Message>, base: nat, e: nat, p: nat)
    requires DistinctIds(log) && base <= p < e <= |log|
    ensures IndexOf(log[base..e], log[p].id) == p - base
  {
    var w := log[base..e];
    assert w[p - base] == log[p];
    assert forall i :: 0 <= i < p - base ==> w[i].id != log[p].id;
  }

  lemma AfterInSlice(log: seq<Message>, base: nat, e: nat, p: nat, limit: nat)
    requires base <= p < e <= |log|
    ensures After(log[base..e], p - base, limit) == log[p + 1..Min(p + 1 + limit, e)]
  {
    SliceOfSlice(log, base, e, p + 1, Min(p + 1 + limit, e));
  }

  lemma SliceOfSlice(log: seq<Message>, base: nat, e: nat, a: nat, b: nat)
    requires base <= a <= b <= e <= |log|
    ensures log[base..e][a - base..b - base] == log[a..b]
  {
    var s := log[base..e][a - base..b - base];
    assert forall i :: 0 <= i < |s| ==> s[i] == log[a + i];
  }

  /** Once the cursor has been evicted, the page is the end of the buffer. */
  lemma PageAfterEviction(log: seq<Message>, e: nat, p: nat, max: nat, limit: nat)
    requires DistinctIds(log) && p < e <= |log| && !Retained(e, p, max) && limit > 0
    ensures var n := if limit < max then limit else max;
      Page(Window(log, e, max), Some(log[p].id), limit) == log[e - n..e]
  {
    hide Window, IndexOf, DistinctIds;
    var base := WindowStart(log, e, max);
    EvictedIndex(log, base, e, p);
    var n := if limit < max then limit else max;
    SliceOfSlice(log, base, e, e - n, e);
  }

  lemma EvictedIndex(log: seq<Message>, base: nat, e: nat, p: nat)
    requires DistinctIds(log) && p < base <= e <= |log|
    ensures IndexOf(log[base..e], log[p].id) == e - base
  {
    var w := log[base..e];
    assert forall i :: 0 <= i < |w| ==> w[i].id == log[base + i].id != log[p].id;
  }

  /** A page is free of gaps and repeats iff the cursor is retained, or exactly the messages after
      it are the whole buffer and fit on one page. */
  lemma GapFreeIff(log: seq<Message>, e: nat, p: nat, max: nat, limit: nat)
    requires DistinctIds(log) && p < e <= |log| && limit > 0 && max > 0
    ensures var page := Page(Window(log, e, max), Some(log[p].id), limit);
      (p + 1 + |page| <= e && page == log[p + 1..p + 1 + |page|])
        <==> Retained(e, p, max) || (p + 1 + max == e && max <= limit)
  {
    hide Page, Window, IndexOf;
    var page := Page(Window(log, e, max), Some(log[p].id), limit);
    if Retained(e, p, max) {
      PageFollowsCursor(log, e, p, max, limit);
    } else {
      PageAfterEviction(log, e, p, max, limit);
      var n := if limit < max then limit else max;
      if p + 1 + |page| <= e && page == log[p + 1..p + 1 + |page|] {
        assert page[0] == log[e - n] && page[0] == log[p + 1];
        assert e - n == p + 1;
      }
    }
  }

  // ---------------------------------------------------------------- a reader

  /** What a reader collects that asks, turn by turn, for up to limit messages after the last one it
      has got, when the log has length ends[i] at its i-th turn. */
  function Collected(log: seq<Message>, ends: seq<nat>, since: string, max: nat, limit: nat): seq<Message>
    requires forall i :: 0 <= i < |ends| ==> ends[i] <= |log|
  {
    if ends == [] then []
    else
      var page := Page(Window(log, ends[0], max), Some(since), limit);
      page + Collected(log, ends[1..], LastId(page, since), max, limit)
  }

  function LastId(page: seq<Message>, since: string): string {
    if page == [] then since else page[|page| - 1].id
  }

  /** The cursor after a page of a log of length e. */
  function Next(e: nat, p: nat, limit: nat): (q: nat)
    requires p < e
    ensures p <= q < e
  {
    if p + limit < e then p + limit else e - 1
  }

  /** At every turn the cursor is retained. */
  predicate KeepsUp(ends: seq<nat>, p: nat, max: nat, limit: nat) {
    ends != [] ==> Retained(ends[0], p, max) && KeepsUp(ends[1..], Next(ends[0], p, limit), max, limit)
  }

  /** The cursor after all turns. */
  function Last(ends: seq<nat>, p: nat, max: nat, limit: nat): (q: nat)
    requires KeepsUp(ends, p, max, limit)
    ensures p <= q
  {
    if ends == [] then p else Last(ends[1..], Next(ends[0], p, limit), max, limit)
  }

  /** A reader that keeps up collects exactly the messages after its cursor: no gap and no repeat,
      however the log grows between its turns. */
  lemma {:induction false} CollectsWithoutGap(log: seq<Message>, ends: seq<nat>, p: nat, max: nat, limit: nat)
    requires DistinctIds(log) && p < |log| && limit > 0
    requires forall i :: 0 <= i < |ends| ==> ends[i] <= |log|
    requires KeepsUp(ends, p, max, limit)
    ensures Last(ends, p, max, limit) < |log|
    ensures Collected(log, ends, log[p].id, max, limit) == log[p + 1..Last(ends, p, max, limit) + 1]
  {
    hide Page, Window, DistinctIds, Next, Retained, LastId;
    if ends == [] {
    } else {
      var q := Next(ends[0], p, limit);
      OneTurn(log, ends[0], p, max, limit);
      CollectsWithoutGap(log, ends[1..], q, max, limit);
      var r := Last(ends, p, max, limit);
      SlicesMeet(log, p + 1, q + 1, r + 1);
    }
  }

  lemma SlicesMeet(log: seq<Message>, a: nat, b: nat, c: nat)
    requires a <= b <= c <= |log|
    ensures log[a..b] + log[b..c] == log[a..c]
  {
  }

  lemma OneTurn(log: seq<Message>, e: nat, p: nat, max: nat, limit: nat)
    requires DistinctIds(log) && e <= |log| && Retained(e, p, max) && limit > 0
    ensures var (page, q) := (Page(Window(log, e, max), Some(log[p].id), limit), Next(e, p, limit));
      page == log[p + 1..q + 1] && LastId(page, log[p].id) == log[q].id
  {
    hide Page, Window, DistinctIds;
    PageFollowsCursor(log, e, p, max, limit);
  }

  /** On a log that has stopped growing a retained cursor stays retained, and each full page brings
      it closer to the end: after n turns the reader has n * limit messages, or all that are left. */
  lemma {:induction false} CollectsEverything(ends: seq<nat>, e: nat, p: nat, max: nat, limit: nat)
    requires Retained(e, p, max) && forall i :: 0 <= i < |ends| ==> ends[i] == e
    ensures KeepsUp(ends, p, max, limit)
    ensures Last(ends, p, max, limit) == if p + |ends| * limit < e then p + |ends| * limit else e - 1
  {
    if ends == [] {
    } else {
      var q := Next(e, p, limit);
      CollectsEverything(ends[1..], e, q, max, limit);
      var rest := |ends[1..]| * limit;
      assert |ends| * limit == limit + rest;
      assert rest >= 0;
    }
  }

  // ---------------------------------------------------------------- the daemon's rings

  /** The ring that `peer.history` reads after k events of a run is a window of one log. */
  lemma {:induction false} LogGrows(cfg: Config, s: System, es: seq<Event>, topic: string, k: nat)
    requires k <= |es|
    ensures PublicationLog(cfg, s, es[..k], topic) <= PublicationLog(cfg, s, es, topic)
  {
    if k < |es| {
      var init := es[..|es| - 1];
      LogGrows(cfg, s, init, topic, k);
      assert init[..k] == es[..k];
    } else {
      assert es[..k] == es;
    }
  }

  /** What `peer.history` replies to a session: the messages after the first one with the id, up to the
      limit, or the trailing ones when there is none; of the ring for a topic, of the queue of direct
      messages for a home address. And it changes nothing. */
  lemma HistoryReplies(h: Hub, d: Connection, address: string, since: Option<string>, limit: int)
    requires h.At(d).sid.Some? && 1 <= limit <= 1000 && ParseAddress(address).Ok?
    ensures var (g, out) := History(h, d, address, since, limit);
      var q := QueueAt(if "topic:" <= address then h.topics else h.dms, address);
      && g == h && out.Ok? && out.value.HistoryReply?
      && (forall i :: 0 <= i < |q| && since == Some(q[i].id) && (forall j :: 0 <= j < i ==> q[j].id != q[i].id)
            ==> out.value.msgs == q[i + 1..if i + 1 + limit < |q| then i + 1 + limit else |q|])
      && ((forall i :: 0 <= i < |q| ==> since != Some(q[i].id))
            ==> out.value.msgs == q[if limit < |q| then |q| - limit else 0..])
  {
    hide ParseAddress, Page, IndexOf;
    SchemeIff(address);
    PageReplies(QueueAt(if "topic:" <= address then h.topics else h.dms, address), since, limit);
  }

  lemma PageReplies(q: seq<Message>, since: Option<string>, limit: int)
    requires limit >= 1
    ensures (forall i :: 0 <= i < |q| && since == Some(q[i].id) && (forall j :: 0 <= j < i ==> q[j].id != q[i].id)
              ==> Page(q, since, limit) == q[i + 1..if i + 1 + limit < |q| then i + 1 + limit else |q|])
    ensures (forall i :: 0 <= i < |q| ==> since != Some(q[i].id))
      ==> Page(q, since, limit) == q[if limit < |q| then |q| - limit else 0..]
  {
    if since.Some? {
      var k := IndexOf(q, since.value);
      forall i | 0 <= i < |q| && since == Some(q[i].id) && (forall j :: 0 <= j < i ==> q[j].id != q[i].id)
        ensures k == i
      {
      }
    }
    hide IndexOf;
  }

  lemma SchemeIff(address: string)
    requires ParseAddress(address).Ok?
    ensures ParseAddress(address).value.Topic? <==> "topic:" <= address
  {
    hide IsNormalizedPath, IsValidDiscriminator, IsValidTopicName;
  }

  /** A page of a topic that a session reads after the first k events of any run continues exactly after
      its cursor, as long as the ring has not moved past it. */
  lemma HistoryContinues(cfg: Config, s: System, es: seq<Event>, d: Connection, topic: string, k: nat, p: nat,
                         limit: nat)
    requires RingBounded(cfg, s.hub) && k <= |es| && 1 <= limit <= 1000
    requires DistinctIds(QueueAt(s.hub.topics, TopicKey(topic)) + PublicationLog(cfg, s, es, topic))
    requires p < |QueueAt(s.hub.topics, TopicKey(topic)) + PublicationLog(cfg, s, es, topic)|
    requires Run(cfg, s, es[..k]).hub.At(d).sid.Some? && IsValidTopicName(topic)
    requires Retained(EndAt(cfg, s, es, topic, k), p, cfg.topicMax)
    ensures var log := QueueAt(s.hub.topics, TopicKey(topic)) + PublicationLog(cfg, s, es, topic);
      var e := EndAt(cfg, s, es, topic, k);
      e <= |log| && Asked(cfg, s, es, d, topic, k, log[p].id, limit) == log[p + 1..Min(p + 1 + limit, e)]
  {
    hide PublicationLog, Run, Page, Window, DistinctIds;
    var log := QueueAt(s.hub.topics, TopicKey(topic)) + PublicationLog(cfg, s, es, topic);
    AskedIsPage(cfg, s, es, d, topic, k, log[p].id, limit);
    PageFollowsCursor(log, EndAt(cfg, s, es, topic, k), p, cfg.topicMax, limit);
  }

  /** The length of the log after the first k events. */
  function EndAt(cfg: Config, s: System, es: seq<Event>, topic: string, k: nat): nat
    requires k <= |es|
  {
    |QueueAt(s.hub.topics, TopicKey(topic)) + PublicationLog(cfg, s, es[..k], topic)|
  }

  /** The messages in the reply to a request for the history of the topic after the first k events. */
  function Asked(cfg: Config, s: System, es: seq<Event>, d: Connection, topic: string, k: nat, since: string,
                 limit: int): seq<Message>
    requires k <= |es|
  {
    var out := History(Run(cfg, s, es[..k]).hub, d, "topic:" + topic, Some(since), limit).1;
    if out.Ok? && out.value.HistoryReply? then out.value.msgs else []
  }

  lemma AskedIsPage(cfg: Config, s: System, es: seq<Event>, d: Connection, topic: string, k: nat, since: string,
                    limit: int)
    requires RingBounded(cfg, s.hub) && k <= |es| && 1 <= limit <= 1000
    requires Run(cfg, s, es[..k]).hub.At(d).sid.Some? && IsValidTopicName(topic)
    ensures var log := QueueAt(s.hub.topics, TopicKey(topic)) + PublicationLog(cfg, s, es, topic);
      var e := EndAt(cfg, s, es, topic, k);
      && e <= |log|
      && Asked(cfg, s, es, d, topic, k, since, limit) == Page(Window(log, e, cfg.topicMax), Some(since), limit)
  {
    hide PublicationLog, Run, Page, LastN;
    var ring := QueueAt(s.hub.topics, TopicKey(topic));
    var log := ring + PublicationLog(cfg, s, es, topic);
    LogGrows(cfg, s, es, topic, k);
    RingWindow(cfg, s, es[..k], topic);
    assert log[..EndAt(cfg, s, es, topic, k)] == ring + PublicationLog(cfg, s, es[..k], topic);
    assert TopicKey(topic)[6..] == topic;
  }

  /** What a session collects that asks at these turns of a run, each time after the last message it has
      got so far. */
  function Fetched(cfg: Config, s: System, es: seq<Event>, d: Connection, topic: string, turns: seq<nat>, since: string,
                   limit: int): seq<Message>
    requires forall i :: 0 <= i < |turns| ==> turns[i] <= |es|
  {
    if turns == [] then []
    else
      var page := Asked(cfg, s, es, d, topic, turns[0], since, limit);
      page + Fetched(cfg, s, es, d, topic, turns[1..], LastId(page, since), limit)
  }

  function Ends(cfg: Config, s: System, es: seq<Event>, topic: string, turns: seq<nat>): (ends: seq<nat>)
    requires forall i :: 0 <= i < |turns| ==> turns[i] <= |es|
    ensures |ends| == |turns|
  {
    seq(|turns|, i requires 0 <= i < |turns| => EndAt(cfg, s, es, topic, turns[i]))
  }

  lemma {:induction false} FetchedIsCollected(cfg: Config, s: System, es: seq<Event>, d: Connection, topic: string,
                                              turns: seq<nat>, since: string, limit: int)
    requires RingBounded(cfg, s.hub) && 1 <= limit <= 1000 && IsValidTopicName(topic)
    requires forall i :: 0 <= i < |turns| ==> turns[i] <= |es| && Run(cfg, s, es[..turns[i]]).hub.At(d).sid.Some?
    ensures var log := QueueAt(s.hub.topics, TopicKey(topic)) + PublicationLog(cfg, s, es, topic);
      var ends := Ends(cfg, s, es, topic, turns);
      && (forall i :: 0 <= i < |ends| ==> ends[i] <= |log|)
      && Fetched(cfg, s, es, d, topic, turns, since, limit) == Collected(log, ends, since, cfg.topicMax, limit)
  {
    hide Asked, EndAt, Page, Window, PublicationLog, Run, RingBounded, IsValidTopicName, LastId;
    if turns == [] {
    } else {
      var page := Asked(cfg, s, es, d, topic, turns[0], since, limit);
      AskedIsPage(cfg, s, es, d, topic, turns[0], since, limit);
      FetchedIsCollected(cfg, s, es, d, topic, turns[1..], LastId(page, since), limit);
      assert Ends(cfg, s, es, topic, turns)[1..] == Ends(cfg, s, es, topic, turns[1..]);
      assert forall i :: 1 <= i < |turns| ==> turns[i] == turns[1..][i - 1];
    }
  }

  /** A session that keeps up and pages through `peer.history` gets every publication after its cursor
      once and in order, whatever happens in the daemon between its requests. */
  lemma FetchedWithoutGap(cfg: Config, s: System, es: seq<Event>, d: Connection, topic: string, turns: seq<nat>, p: nat,
                          limit: nat)
    requires RingBounded(cfg, s.hub) && 1 <= limit <= 1000 && IsValidTopicName(topic)
    requires forall i :: 0 <= i < |turns| ==> turns[i] <= |es| && Run(cfg, s, es[..turns[i]]).hub.At(d).sid.Some?
    requires var log := QueueAt(s.hub.topics, TopicKey(topic)) + PublicationLog(cfg, s, es, topic);
      DistinctIds(log) && p < |log| && KeepsUp(Ends(cfg, s, es, topic, turns), p, cfg.topicMax, limit)
    ensures var log := QueueAt(s.hub.topics, TopicKey(topic)) + PublicationLog(cfg, s, es, topic);
      var last := Last(Ends(cfg, s, es, topic, turns), p, cfg.topicMax, limit);
      last < |log| && Fetched(cfg, s, es, d, topic, turns, log[p].id, limit) == log[p + 1..last + 1]
  {
    hide PublicationLog, Run, Ends, Fetched, Collected, DistinctIds, KeepsUp, Last;
    var log := QueueAt(s.hub.topics, TopicKey(topic)) + PublicationLog(cfg, s, es, topic);
    FetchedIsCollected(cfg, s, es, d, topic, turns, log[p].id, limit);
    CollectsWithoutGap(log, Ends(cfg, s, es, topic, turns), p, cfg.topicMax, limit);
  }
}
