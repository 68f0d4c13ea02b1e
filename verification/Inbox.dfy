/** The inbox of the sidecar: a forwarder fills it, and any number of tool calls empty it, some of
    them waiting on an event until it is filled. */
module Inbox {
  import opened Base
  import opened Messages

  const INBOX_MAXLEN := 1000

  datatype Note = Note(name: string, params: Json)

  /** The bounded inbox and the flag of its event. */
  datatype Box = Box(notes: seq<Note>, isSet: bool)
  {
    function Arrive(n: Note): Box {
      Box(Push(notes, n, INBOX_MAXLEN), true)
    }

    /** Removes the k oldest notes, and clears the event when nothing is left. */
    function Take(k: nat): Box
      requires k <= |notes|
    {
      Box(notes[k..], isSet && notes[k..] != [])
    }

    /** How many notes a call with this limit gets: all of them, unless the limit stops it first. */
    function Quota(limit: int): (k: nat)
      ensures k <= |notes| && (k == 0 || k <= limit)
      ensures k < |notes| ==> k >= limit
    {
      if limit <= 0 then 0 else if limit < |notes| then limit else |notes|
    }
  }

  class Sidecar {
    var inbox: seq<Note>
    var eventSet: bool

    ghost function Snapshot(): Box
      reads this
    {
      Box(inbox, eventSet)
    }

    constructor ()
      ensures Snapshot() == Box([], false)
    {
      inbox, eventSet := [], false;
    }

    method Forward(n: Note)
      modifies this
      ensures Snapshot() == old(Snapshot()).Arrive(n)
    {
      inbox := Push(inbox, n, INBOX_MAXLEN);
      eventSet := true;
    }

    method PopOldest() returns (n: Note)
      requires inbox != []
      modifies this`inbox
      ensures [n] + inbox == old(inbox)
    {
      n := inbox[0];
      inbox := inbox[1..];
    }

    method ToolInbox(limit: int) returns (out: seq<Note>)
      modifies this
      ensures var k := old(Snapshot()).Quota(limit);
        out == old(inbox)[..k] && Snapshot() == old(Snapshot()).Take(k)
      ensures out + inbox == old(inbox) && (out == [] || |out| <= limit) && (inbox == [] || |out| >= limit)
      ensures eventSet <==> old(eventSet) && inbox != []
    {
      out := [];
      while inbox != [] && |out| < limit
        invariant out + inbox == old(inbox) && eventSet == old(eventSet)
        invariant 0 < |out| ==> |out| <= limit
        decreases |inbox|
      {
        var n := PopOldest();
        out := out + [n];
      }
      assert out == old(inbox)[..|out|] && inbox == old(inbox)[|out|..];
      if inbox == [] {
        eventSet := false;
      }
    }

    /** The part of `peer_await` before it waits; a note if there is one at once. */
    method AwaitStart() returns (n: Option<Note>)
      modifies this
      ensures n == if old(inbox) == [] then None else Some(old(inbox)[0])
      ensures Snapshot() == old(Snapshot()).Take(if n.Some? then 1 else 0)
    {
      if inbox != [] {
        var oldest := PopOldest();
        if inbox == [] {
          eventSet := false;
        }
        return Some(oldest);
      }
      eventSet := false;
      n := None;
    }

    /** The part of `peer_await` after it has been woken; without a note it reports a timeout. */
    method AwaitEnd() returns (n: Option<Note>)
      modifies this
      ensures n == if old(inbox) == [] then None else Some(old(inbox)[0])
      ensures Snapshot() == if n.Some? then old(Snapshot()).Take(1) else old(Snapshot())
    {
      if inbox != [] {
        var oldest := PopOldest();
        if inbox == [] {
          eventSet := false;
        }
        return Some(oldest);
      }
      n := None;
    }
  }

  // ---------------------------------------------------------------- the concurrent calls

  /** A pending or finished `peer_await`: about to wait, waiting, woken but not yet resumed, or
      finished with a note or with a timeout. */
  datatype Awaiter = Starting | Parked | Woken | Finished(result: Option<Note>)

  /** A note that left the inbox: taken by a call, or evicted. */
  datatype Removal = Removal(note: Note, taker: Option<nat>)

  /** `arrived` and `removed` are histories; `got` maps each call to the notes it has returned. */
  datatype World = World(box: Box, awaiters: map<nat, Awaiter>, got: map<nat, seq<Note>>,
                         arrived: seq<Note>, removed: seq<Removal>)

  const QUIET := World(Box([], false), map[], map[], [], [])

  datatype Action =
    | Arrive(note: Note)
    | CallInbox(call: nat, limit: int)
    | CallAwait(call: nat)
    | Register(call: nat)
    | Resume(call: nat)
    | Expire(call: nat)

  function Removals(notes: seq<Note>, taker: Option<nat>): (rs: seq<Removal>)
    ensures |rs| == |notes|
  {
    seq(|notes|, i requires 0 <= i < |notes| => Removal(notes[i], taker))
  }

  /** A call takes the k oldest notes. */
  function TakeFor(w: World, call: nat, k: nat): World
    requires k <= |w.box.notes|
  {
    w.(box := w.box.Take(k), got := w.got[call := w.box.notes[..k]],
       removed := w.removed + Removals(w.box.notes[..k], Some(call)))
  }

  function Settle(w: World, call: nat, a: Awaiter): World {
    w.(awaiters := w.awaiters[call := a])
  }

  predicate Is(w: World, call: nat, a: Awaiter) {
    call in w.awaiters && w.awaiters[call] == a
  }

  /** Setting the event wakes everybody who waits on it. */
  function WakeAll(awaiters: map<nat, Awaiter>): map<nat, Awaiter> {
    map t | t in awaiters :: if awaiters[t] == Parked then Woken else awaiters[t]
  }

  /** One step of the forwarder or of a call. Steps that cannot happen change nothing. */
  function Act(w: World, a: Action): World {
    match a
    case Arrive(n) =>
      var evicted := if |w.box.notes| == INBOX_MAXLEN then w.box.notes[..1] else [];
      World(w.box.Arrive(n), WakeAll(w.awaiters), w.got, w.arrived + [n], w.removed + Removals(evicted, None))
    case CallInbox(t, limit) =>
      if t in w.got then w else TakeFor(w, t, w.box.Quota(limit))
    case CallAwait(t) =>
      if t in w.got then w
      else if w.box.notes != [] then Settle(TakeFor(w, t, 1), t, Finished(Some(w.box.notes[0])))
      else Settle(TakeFor(w, t, 0), t, Starting)
    case Register(t) =>
      if Is(w, t, Starting) then Settle(w, t, if w.box.isSet then Woken else Parked) else w
    case Resume(t) =>
      if !Is(w, t, Woken) then w
      else if w.box.notes != [] then Settle(TakeFor(w, t, 1), t, Finished(Some(w.box.notes[0])))
      else Settle(w, t, Finished(None))
    case Expire(t) =>
      if Is(w, t, Starting) || Is(w, t, Parked) || Is(w, t, Woken) then Settle(w, t, Finished(None)) else w
  }

  function Play(w: World, acts: seq<Action>): World {
    if acts == [] then w else Act(Play(w, acts[..|acts| - 1]), acts[|acts| - 1])
  }

  // ---------------------------------------------------------------- the invariant

  function NotesOf(rs: seq<Removal>): (notes: seq<Note>)
    ensures |notes| == |rs|
  {
    seq(|rs|, i requires 0 <= i < |rs| => rs[i].note)
  }

  /** The notes that one call took, in order. */
  function TakenBy(rs: seq<Removal>, call: nat): seq<Note> {
    if rs == [] then []
    else
      var last := rs[|rs| - 1];
      TakenBy(rs[..|rs| - 1], call) + if last.taker == Some(call) then [last.note] else []
  }

  /** The event is set iff there is something to take, and nobody sleeps on a nonempty inbox. */
  ghost predicate Alert(w: World) {
    && (w.box.isSet <==> w.box.notes != [])
    && forall t :: t in w.awaiters && w.awaiters[t] == Parked ==> w.box.notes == []
  }

  /** Every note that arrived has left in order or is still there, and only notes behind which the
      inbox filled up were evicted. */
  ghost predicate Conserved(arrived: seq<Note>, removed: seq<Removal>, notes: seq<Note>) {
    && arrived == NotesOf(removed) + notes && |notes| <= INBOX_MAXLEN
    && forall k :: 0 <= k < |removed| && removed[k].taker.None? ==> k + INBOX_MAXLEN < |arrived|
  }

  /** The notes of a `peer_await` in this stage. */
  function HeldBy(a: Awaiter): seq<Note> {
    if a.Finished? && a.result.Some? then [a.result.value] else []
  }

  /** What a call returned is what it took. */
  ghost predicate Credited(removed: seq<Removal>, got: map<nat, seq<Note>>) {
    forall t :: TakenBy(removed, t) == if t in got then got[t] else []
  }

  /** A call that waits has returned nothing yet, a finished one its note. */
  ghost predicate Told(got: map<nat, seq<Note>>, awaiters: map<nat, Awaiter>) {
    forall t :: t in awaiters ==> t in got && got[t] == HeldBy(awaiters[t])
  }

  ghost predicate Sane(w: World) {
    && Alert(w) && Conserved(w.arrived, w.removed, w.box.notes)
    && Credited(w.removed, w.got) && Told(w.got, w.awaiters)
    && forall t :: t in w.awaiters && w.awaiters[t] == Woken ==> w.arrived != []
  }

  lemma {:induction false} TakenByConcat(rs: seq<Removal>, qs: seq<Removal>, call: nat)
    ensures TakenBy(rs + qs, call) == TakenBy(rs, call) + TakenBy(qs, call)
  {
    if qs == [] {
      assert rs + qs == rs;
    } else {
      TakenByConcat(rs, qs[..|qs| - 1], call);
      assert (rs + qs)[..|rs + qs| - 1] == rs + qs[..|qs| - 1];
    }
  }

  lemma {:induction false} TakenByOne(notes: seq<Note>, taker: Option<nat>, call: nat)
    ensures TakenBy(Removals(notes, taker), call) == if taker == Some(call) then notes else []
  {
    if notes == [] {
    } else {
      var init := notes[..|notes| - 1];
      TakenByOne(init, taker, call);
      assert Removals(notes, taker)[..|notes| - 1] == Removals(init, taker);
      assert init + [notes[|notes| - 1]] == notes;
    }
  }

  lemma RemovalsTaken(rs: seq<Removal>, notes: seq<Note>, taker: Option<nat>, call: nat)
    ensures TakenBy(rs + Removals(notes, taker), call) == TakenBy(rs, call) + if taker == Some(call) then notes else []
  {
    TakenByConcat(rs, Removals(notes, taker), call);
    TakenByOne(notes, taker, call);
  }

  lemma NotesOfRemovals(rs: seq<Removal>, notes: seq<Note>, taker: Option<nat>)
    ensures NotesOf(rs + Removals(notes, taker)) == NotesOf(rs) + notes
  {
  }

  /** The k oldest notes leave the inbox together. */
  lemma MoveConserves(arrived: seq<Note>, removed: seq<Removal>, notes: seq<Note>, k: nat, taker: Option<nat>)
    requires k <= |notes| && |notes| - k <= INBOX_MAXLEN && arrived == NotesOf(removed) + notes
    requires forall i :: 0 <= i < |removed| && removed[i].taker.None? ==> i + INBOX_MAXLEN < |arrived|
    requires taker.None? && k > 0 ==> |removed| + k + INBOX_MAXLEN <= |arrived|
    ensures Conserved(arrived, removed + Removals(notes[..k], taker), notes[k..])
  {
    NotesOfRemovals(removed, notes[..k], taker);
    assert notes[..k] + notes[k..] == notes;
    assert NotesOf(removed) + notes[..k] + notes[k..] == NotesOf(removed) + (notes[..k] + notes[k..]);
    hide NotesOf;
  }

  /** A call that has returned nothing so far is credited with what it takes. */
  lemma TakeCredits(removed: seq<Removal>, got: map<nat, seq<Note>>, notes: seq<Note>, call: nat)
    requires Credited(removed, got) && (call in got ==> got[call] == [])
    ensures Credited(removed + Removals(notes, Some(call)), got[call := notes])
  {
    forall t
      ensures TakenBy(removed + Removals(notes, Some(call)), t)
           == if t in got[call := notes] then got[call := notes][t] else []
    {
      RemovalsTaken(removed, notes, Some(call), t);
      assert TakenBy(removed, t) == if t in got then got[t] else [];
      assert [] + notes == notes && TakenBy(removed, t) + [] == TakenBy(removed, t);
    }
    hide *;
  }

  lemma EvictionCredits(removed: seq<Removal>, got: map<nat, seq<Note>>, notes: seq<Note>)
    requires Credited(removed, got)
    ensures Credited(removed + Removals(notes, None), got)
  {
    forall t
      ensures TakenBy(removed + Removals(notes, None), t) == TakenBy(removed, t)
    {
      RemovalsTaken(removed, notes, None, t);
      assert TakenBy(removed, t) + [] == TakenBy(removed, t);
    }
    hide TakenBy;
  }

  lemma CallSane(w: World, call: nat, k: nat, a: Option<Awaiter>)
    requires Sane(w) && k <= |w.box.notes| && (call in w.got ==> w.got[call] == [])
    requires if a.Some? then HeldBy(a.value) == w.box.notes[..k] && a.value != Parked && a.value != Woken
             else call !in w.awaiters
    ensures var w1 := TakeFor(w, call, k);
      Sane(if a.Some? then Settle(w1, call, a.value) else w1)
  {
    hide Credited, HeldBy;
    MoveConserves(w.arrived, w.removed, w.box.notes, k, Some(call));
    TakeCredits(w.removed, w.got, w.box.notes[..k], call);
  }

  lemma SettleSane(w: World, call: nat, a: Awaiter)
    requires Sane(w) && call in w.awaiters && HeldBy(w.awaiters[call]) == HeldBy(a) == []
    requires (a == Parked ==> w.box.notes == []) && (a == Woken ==> w.box.notes != [])
    ensures Sane(Settle(w, call, a))
  {
    assert a == Woken ==> w.arrived != [];
    hide Conserved, Credited;
  }

  lemma ArriveConserves(w: World, n: Note)
    requires Conserved(w.arrived, w.removed, w.box.notes)
    ensures var w1 := Act(w, Arrive(n));
      Conserved(w1.arrived, w1.removed, w1.box.notes)
  {
    var all := w.box.notes + [n];
    var k := if |w.box.notes| == INBOX_MAXLEN then 1 else 0;
    assert NotesOf(w.removed) + w.box.notes + [n] == NotesOf(w.removed) + all;
    assert w.box.notes[..k] == all[..k] && Push(w.box.notes, n, INBOX_MAXLEN) == all[k..];
    MoveConserves(w.arrived + [n], w.removed, all, k, None);
  }

  lemma ArriveSane(w: World, n: Note)
    requires Sane(w)
    ensures Sane(Act(w, Arrive(n)))
  {
    hide Conserved, Credited;
    ArriveConserves(w, n);
    EvictionCredits(w.removed, w.got, if |w.box.notes| == INBOX_MAXLEN then w.box.notes[..1] else []);
  }

  lemma ActSane(w: World, a: Action)
    requires Sane(w)
    ensures Sane(Act(w, a))
  {
    hide Conserved, Credited, TakeFor;
    match a {
      case Arrive(n) => ArriveSane(w, n);
      case CallInbox(t, limit) =>
        if t !in w.got {
          CallSane(w, t, w.box.Quota(limit), None);
        }
      case CallAwait(t) =>
        if t !in w.got {
          CallSane(w, t, if w.box.notes != [] then 1 else 0,
                   Some(if w.box.notes != [] then Finished(Some(w.box.notes[0])) else Starting));
        }
      case Resume(t) =>
        if Is(w, t, Woken) {
          if w.box.notes != [] {
            CallSane(w, t, 1, Some(Finished(Some(w.box.notes[0]))));
          } else {
            SettleSane(w, t, Finished(None));
          }
        }
      case Register(t) =>
        if Is(w, t, Starting) {
          SettleSane(w, t, if w.box.isSet then Woken else Parked);
        }
      case Expire(t) =>
        if t in w.awaiters && !w.awaiters[t].Finished? {
          SettleSane(w, t, Finished(None));
        }
    }
  }

  /** Under any interleaving of arrivals, calls and timeouts: the event is set exactly when the
      inbox is nonempty, no call sleeps while there is something to take, no note is lost or
      delivered twice, and a note is evicted only after a full inbox of newer ones has arrived. */
  lemma {:induction false} AlwaysSane(acts: seq<Action>)
    ensures Sane(Play(QUIET, acts))
  {
    if acts == [] {
    } else {
      AlwaysSane(acts[..|acts| - 1]);
      ActSane(Play(QUIET, acts[..|acts| - 1]), acts[|acts| - 1]);
    }
  }

  // ---------------------------------------------------------------- what it means for the callers

  /** After any run, the note that arrived as number i is in exactly one place: still in the inbox,
      in the result of the one call that took it, or evicted behind a thousand newer ones. */
  lemma OnePlaceEach(acts: seq<Action>, i: nat)
    requires i < |Play(QUIET, acts).arrived|
    ensures var w := Play(QUIET, acts);
      if i >= |w.removed| then (i - |w.removed| < |w.box.notes| && w.box.notes[i - |w.removed|] == w.arrived[i])
      else
        var (note, taker) := (w.removed[i].note, w.removed[i].taker);
        && note == w.arrived[i]
        && (taker.None? ==> i + 1000 < |w.arrived|)
        && (taker.Some? ==> taker.value in w.got && note in w.got[taker.value])
  {
    var w := Play(QUIET, acts);
    AlwaysSane(acts);
    if i < |w.removed| && w.removed[i].taker.Some? {
      TakerHasIt(w.removed, i);
    }
  }

  lemma {:induction false} TakerHasIt(rs: seq<Removal>, i: nat)
    requires i < |rs| && rs[i].taker.Some?
    ensures rs[i].note in TakenBy(rs, rs[i].taker.value)
  {
    if i < |rs| - 1 {
      TakerHasIt(rs[..|rs| - 1], i);
    }
  }

  /** No lost wakeup: whenever there is something to take, an unfinished call that gets to run, and
      is not overtaken, comes back with the oldest note. */
  lemma NoLostWakeup(acts: seq<Action>, call: nat)
    requires var w := Play(QUIET, acts);
      call in w.awaiters && !w.awaiters[call].Finished? && w.box.notes != []
    ensures var w := Play(QUIET, acts);
      Is(Play(QUIET, acts + [Register(call)] + [Resume(call)]), call, Finished(Some(w.box.notes[0])))
  {
    hide Play, Conserved, Credited;
    AlwaysSane(acts);
    PlayOneMore(acts, Register(call));
    PlayOneMore(acts + [Register(call)], Resume(call));
  }

  lemma PlayOneMore(acts: seq<Action>, a: Action)
    ensures Play(QUIET, acts + [a]) == Act(Play(QUIET, acts), a)
  {
    assert (acts + [a])[..|acts|] == acts;
  }

  /** An unfinished call reports a timeout at exactly two kinds of step: its timer fires, even when it
      has been woken and notes are left, or it has been woken and resumes on an inbox that was emptied
      under it; the newest note was then taken by another call. */
  lemma LosesOnlyARace(acts: seq<Action>, call: nat, a: Action)
    requires var w := Play(QUIET, acts); call in w.awaiters && !w.awaiters[call].Finished?
    ensures var w := Play(QUIET, acts);
      && (Is(Act(w, a), call, Finished(None))
          <==> a == Expire(call) || (Is(w, call, Woken) && a == Resume(call) && w.box.notes == []))
      && (Is(w, call, Woken) && w.box.notes == [] ==>
            w.removed != []
            && exists other :: other != call && w.removed[|w.removed| - 1].taker == Some(other))
  {
    hide Play, Conserved, Credited;
    AlwaysSane(acts);
    if Is(Play(QUIET, acts), call, Woken) && Play(QUIET, acts).box.notes == [] {
      EmptiedByAnother(Play(QUIET, acts), call);
    }
  }

  lemma EmptiedByAnother(w: World, call: nat)
    requires Sane(w) && Is(w, call, Woken) && w.box.notes == []
    ensures w.removed != []
    ensures exists other :: other != call && w.removed[|w.removed| - 1].taker == Some(other)
  {
    var last := w.removed[|w.removed| - 1];
    assert last.taker.Some?;
    TakerHasIt(w.removed, |w.removed| - 1);
    hide TakenBy;
    assert last.taker.value != call;
  }

  lemma EmptyPlay(acts: seq<Action>)
    ensures acts == [] ==> Play(QUIET, acts) == QUIET
  {
  }

  lemma PlayPrefix(acts: seq<Action>, i: nat)
    requires i < |acts|
    ensures Play(QUIET, acts[..i + 1]) == Act(Play(QUIET, acts[..i]), acts[i])
  {
    assert acts[..i + 1] == acts[..i] + [acts[i]];
    PlayOneMore(acts[..i], acts[i]);
  }

  /** Two sleeping calls both wake for one note: the first to resume gets it, and the other, even
      one that waits without a time limit, reports a timeout. */
  lemma OneNoteOneWinner(acts: seq<Action>, first: nat, second: nat, n: Note)
    requires first != second
    requires Is(Play(QUIET, acts), first, Parked) && Is(Play(QUIET, acts), second, Parked)
    ensures var w := Act(Play(QUIET, acts), Arrive(n));
      Is(w, first, Woken) && Is(w, second, Woken)
      && Is(Act(Act(w, Resume(first)), Resume(second)), first, Finished(Some(n)))
      && Is(Act(Act(w, Resume(first)), Resume(second)), second, Finished(None))
  {
    hide Play, Conserved, Credited;
    AlwaysSane(acts);
    assert Act(Play(QUIET, acts), Arrive(n)).box.notes == [n];
  }

  lemma GoesToSleep(w: World, call: nat)
    requires w.box == Box([], false) && call !in w.got
    ensures var w1 := Act(Act(w, CallAwait(call)), Register(call));
      w1.box == w.box && w1.got.Keys == w.got.Keys + {call} && w1.awaiters == w.awaiters[call := Parked]
  {
  }

  /** Such a state is reachable. */
  lemma TwoCanSleep()
    ensures var w := Play(QUIET, [CallAwait(1), Register(1), CallAwait(2), Register(2)]);
      Is(w, 1, Parked) && Is(w, 2, Parked)
  {
    hide Play, Act;
    var acts := [CallAwait(1), Register(1), CallAwait(2), Register(2)];
    EmptyPlay(acts[..0]);
    PlayPrefix(acts, 0);
    PlayPrefix(acts, 1);
    GoesToSleep(QUIET, 1);
    PlayPrefix(acts, 2);
    PlayPrefix(acts, 3);
    GoesToSleep(Play(QUIET, acts[..2]), 2);
    assert acts[..4] == acts;
  }

  predicate IsOver(w: World, call: nat) {
    call in w.got && (call in w.awaiters ==> w.awaiters[call].Finished?)
  }

  /** The two states agree on everything about the call. */
  predicate SameOutcome(w: World, v: World, call: nat) {
    && call in w.got && call in v.got && v.got[call] == w.got[call]
    && (call in v.awaiters <==> call in w.awaiters) && (call in w.awaiters ==> v.awaiters[call] == w.awaiters[call])
  }

  lemma ActKeepsOutcome(w: World, a: Action, call: nat)
    requires IsOver(w, call)
    ensures SameOutcome(w, Act(w, a), call)
  {
  }

  /** A finished call keeps its result whatever happens later. */
  lemma {:induction false} ResultIsFinal(acts: seq<Action>, more: seq<Action>, call: nat)
    requires IsOver(Play(QUIET, acts), call)
    ensures SameOutcome(Play(QUIET, acts), Play(QUIET, acts + more), call)
  {
    hide Act;
    if more == [] {
      assert acts + more == acts;
    } else {
      var init, last := more[..|more| - 1], more[|more| - 1];
      ResultIsFinal(acts, init, call);
      assert acts + more == acts + init + [last];
      PlayOneMore(acts + init, last);
      ActKeepsOutcome(Play(QUIET, acts + init), last, call);
    }
  }
}
