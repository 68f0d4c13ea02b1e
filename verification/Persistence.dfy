/** Bounded queues mirrored to files: what is in memory, what is on disk, and what a cold start
    would read back. */
module Persistence {
  import opened Base
  import opened Messages

  // ---------------------------------------------------------------- files and lines

  /** A line of a queue file: blank, not decodable as a message, or a message. */
  datatype Line = Blank | Unreadable | Entry(msg: Message)

  /** A directory: file names with their lines. */
  type Files = map<string, seq<Line>>

  const JSONL := ".jsonl"
  const TMP := ".tmp"

  predicate EndsWith(s: string, suffix: string) {
    |suffix| <= |s| && s[|s| - |suffix|..] == suffix
  }

  /** The names that the cold-start scan picks up. */
  predicate IsJsonl(name: string) {
    EndsWith(name, JSONL)
  }

  function FileAt(files: Files, name: string): seq<Line> {
    if name in files then files[name] else []
  }

  /** Reading lines into a deque one by one, skipping those that are not messages. */
  function LoadOnto(deque: seq<Message>, lines: seq<Line>, maxlen: nat): seq<Message> {
    if lines == [] then deque
    else
      var before := LoadOnto(deque, lines[..|lines| - 1], maxlen);
      var last := lines[|lines| - 1];
      if last.Entry? then Push(before, last.msg, maxlen) else before
  }

  function Load(lines: seq<Line>, maxlen: nat): seq<Message> {
    LoadOnto([], lines, maxlen)
  }

  function Entries(lines: seq<Line>): seq<Message> {
    if lines == [] then []
    else
      var last := lines[|lines| - 1];
      Entries(lines[..|lines| - 1]) + (if last.Entry? then [last.msg] else [])
  }

  function Lines(msgs: seq<Message>): (lines: seq<Line>)
    ensures |lines| == |msgs|
  {
    seq(|msgs|, i requires 0 <= i < |msgs| => Entry(msgs[i]))
  }

  /** Loading keeps the last maxlen readable messages, whatever garbage lies between them. */
  lemma {:induction false} LoadIsWindow(lines: seq<Line>, maxlen: nat)
    ensures Load(lines, maxlen) == LastN(Entries(lines), maxlen)
  {
    if lines == [] {
    } else {
      var init, last := lines[..|lines| - 1], lines[|lines| - 1];
      LoadIsWindow(init, maxlen);
      if last.Entry? {
        LastNAbsorbs(Entries(init), [last.msg], maxlen);
      } else {
        assert Entries(lines) == Entries(init) + [];
      }
    }
  }

  lemma {:induction false} EntriesOfLines(msgs: seq<Message>)
    ensures Entries(Lines(msgs)) == msgs
  {
    if msgs == [] {
    } else {
      var init := msgs[..|msgs| - 1];
      EntriesOfLines(init);
      assert Lines(msgs)[..|msgs| - 1] == Lines(init);
      assert msgs == init + [msgs[|msgs| - 1]];
    }
  }

  /** What a flush writes is what a load reads. */
  lemma LoadLinesBack(msgs: seq<Message>, maxlen: nat)
    requires |msgs| <= maxlen
    ensures Load(Lines(msgs), maxlen) == msgs
  {
    LoadIsWindow(Lines(msgs), maxlen);
    EntriesOfLines(msgs);
  }

  /** Directory contents after a flush of msgs to name: rewritten through a temporary file, or
      removed when there is nothing to keep. */
  function Flushed(files: Files, name: string, msgs: seq<Message>): Files {
    if msgs == [] then files - {name}
    else files[name := Lines(msgs)] - {name + TMP}
  }

  /** Two directories that a cold-start scan cannot tell apart. */
  ghost predicate SameQueues(f: Files, g: Files) {
    forall n :: IsJsonl(n) ==> (n in f <==> n in g) && FileAt(f, n) == FileAt(g, n)
  }

  lemma TmpIsNotJsonl(name: string)
    ensures !IsJsonl(name + TMP)
  {
    var s := name + TMP;
    assert s[|s| - 1] == 'p';
    if |s| >= 6 {
      assert s[|s| - 6..][5] == s[|s| - 1];
    }
  }

  // ---------------------------------------------------------------- crash points of a flush

  /** Where a crash can interrupt a flush: before it has touched the disk, while the temporary file
      has so many whole lines and possibly a torn one, or after the last step. */
  datatype CrashPoint = Untouched | Writing(lines: nat, torn: bool) | Done

  /** The disk that a crash at this point of flushing msgs to name leaves behind. */
  function DiskAt(files: Files, name: string, msgs: seq<Message>, p: CrashPoint): Files
    requires Passes(msgs, p)
  {
    match p
    case Untouched => files
    case Writing(n, torn) => files[name + TMP := Lines(msgs[..n]) + if torn then [Unreadable] else []]
    case Done => Flushed(files, name, msgs)
  }

  /** A flush of msgs passes through this point. */
  predicate Passes(msgs: seq<Message>, p: CrashPoint) {
    p.Writing? ==> msgs != [] && p.lines <= |msgs| && (p.torn ==> p.lines < |msgs|)
  }

  /** The points passed while the first n lines are written. */
  function WritingPoints(n: nat): seq<CrashPoint> {
    if n == 0 then [Writing(0, false)] else WritingPoints(n - 1) + [Writing(n - 1, true), Writing(n, false)]
  }

  /** The points that a flush passes through, in order. */
  function Points(msgs: seq<Message>): seq<CrashPoint> {
    if msgs == [] then [Untouched, Done] else [Untouched] + WritingPoints(|msgs|) + [Done]
  }

  lemma {:induction false} WritingPointsExact(n: nat)
    ensures forall p :: p in WritingPoints(n) <==> p.Writing? && p.lines <= n && (p.torn ==> p.lines < n)
  {
    if n == 0 {
    } else {
      WritingPointsExact(n - 1);
    }
  }

  /** Nothing is left out: every whole and every torn line is a point of its own. */
  lemma PointsExact(msgs: seq<Message>)
    ensures forall p :: p in Points(msgs) <==> Passes(msgs, p)
  {
    WritingPointsExact(|msgs|);
  }

  /** The disks at some points, in order. */
  function DisksAt(files: Files, name: string, msgs: seq<Message>, ps: seq<CrashPoint>): (disks: seq<Files>)
    requires forall p :: p in ps ==> Passes(msgs, p)
    ensures |disks| == |ps|
  {
    seq(|ps|, i requires 0 <= i < |ps| => DiskAt(files, name, msgs, ps[i]))
  }

  /** Every disk content between two writes of a flush, from the first to the last. */
  function FlushTrace(files: Files, name: string, msgs: seq<Message>): seq<Files> {
    PointsExact(msgs);
    DisksAt(files, name, msgs, Points(msgs))
  }

  /** A crash before the last step leaves a disk that a cold start cannot tell from the one before
      the flush, and one after it leaves the flushed disk. */
  lemma CrashIsHarmless(files: Files, name: string, msgs: seq<Message>, p: CrashPoint)
    requires Passes(msgs, p)
    ensures if p.Done? then DiskAt(files, name, msgs, p) == Flushed(files, name, msgs)
            else SameQueues(DiskAt(files, name, msgs, p), files)
  {
    TmpIsNotJsonl(name);
  }

  /** The disks of a flush are those at its crash points. */
  lemma TraceExact(files: Files, name: string, msgs: seq<Message>, d: Files)
    ensures d in FlushTrace(files, name, msgs) <==> exists p :: Passes(msgs, p) && d == DiskAt(files, name, msgs, p)
  {
    PointsExact(msgs);
    var ps, ds := Points(msgs), FlushTrace(files, name, msgs);
    if p :| Passes(msgs, p) && d == DiskAt(files, name, msgs, p) {
      assert p in ps;
      var i :| 0 <= i < |ps| && ps[i] == p;
      assert ds[i] == d;
    }
    if d in ds {
      var i :| 0 <= i < |ds| && ds[i] == d;
      assert ps[i] in ps && d == DiskAt(files, name, msgs, ps[i]);
    }
  }

  lemma DisksConcat(files: Files, name: string, msgs: seq<Message>, ps: seq<CrashPoint>, qs: seq<CrashPoint>)
    requires forall p :: p in ps + qs ==> Passes(msgs, p)
    ensures DisksAt(files, name, msgs, ps + qs) == DisksAt(files, name, msgs, ps) + DisksAt(files, name, msgs, qs)
  {
    assert forall p :: p in ps ==> p in ps + qs;
    assert forall p :: p in qs ==> p in ps + qs;
  }

  // ---------------------------------------------------------------- history pages

  /** The position of the first message with this id, or the length when there is none. */
  function IndexOf(msgs: seq<Message>, id: string): (i: nat)
    ensures i <= |msgs|
    ensures i < |msgs| ==> msgs[i].id == id
    ensures forall j :: 0 <= j < i ==> msgs[j].id != id
  {
    if msgs == [] || msgs[0].id == id then 0 else 1 + IndexOf(msgs[1..], id)
  }

  function Min(a: int, b: int): int { if a < b then a else b }

  /** Up to limit messages after position i. */
  function After(msgs: seq<Message>, i: nat, limit: nat): seq<Message>
    requires i < |msgs|
  {
    msgs[i + 1..Min(i + 1 + limit, |msgs|)]
  }

  /** Up to limit messages after the cursor; the trailing ones when it is absent or unknown. */
  function Page(msgs: seq<Message>, since: Option<string>, limit: int): seq<Message> {
    if limit <= 0 then []
    else if since.Some? && IndexOf(msgs, since.value) < |msgs| then
      After(msgs, IndexOf(msgs, since.value), limit)
    else LastN(msgs, limit)
  }

  // ---------------------------------------------------------------- one queue

  /** A directory on disk, shared by the queues stored in it. */
  class Directory {
    var files: Files

    constructor (files: Files)
      ensures this.files == files
    {
      this.files := files;
    }
  }

  class PersistentDeque {
    const dir: Directory
    const name: string
    const maxlen: nat
    var deque: seq<Message>
    ghost var key: string // the address it serves, once a store holds it

    constructor (dir: Directory, name: string, maxlen: nat)
      ensures this.dir == dir && this.name == name && this.maxlen == maxlen && deque == []
    {
      this.dir, this.name, this.maxlen, deque := dir, name, maxlen, [];
    }

    method Load()
      modifies this`deque
      ensures deque == LoadOnto(old(deque), FileAt(dir.files, name), maxlen)
    {
      if name !in dir.files {
        return;
      }
      var lines := dir.files[name];
      for i := 0 to |lines|
        invariant deque == LoadOnto(old(deque), lines[..i], maxlen)
      {
        assert lines[..i + 1][..i] == lines[..i];
        match lines[i]
        case Entry(m) => deque := Push(deque, m, maxlen);
        case _ =>
      }
      assert lines[..|lines|] == lines;
    }

    /** Also yields the directory contents that existed between the writes to the disk. */
    method Append(m: Message) returns (ghost disks: seq<Files>)
      modifies this`deque, dir
      ensures deque == Push(old(deque), m, maxlen)
      ensures dir.files == Flushed(old(dir.files), name, deque)
      ensures disks == FlushTrace(old(dir.files), name, deque)
    {
      deque := Push(deque, m, maxlen);
      disks := Flush();
    }

    method Drain() returns (msgs: seq<Message>)
      modifies this`deque, dir
      ensures msgs == old(deque)
      ensures deque == []
      ensures dir.files == old(dir.files) - {name}
    {
      msgs := deque;
      deque := [];
      dir.files := dir.files - {name};
    }

    method History(since: Option<string>, limit: int) returns (page: seq<Message>)
      ensures page == Page(deque, since, limit)
    {
      if limit <= 0 {
        return [];
      }
      if since.None? {
        return LastN(deque, limit);
      }
      for i := 0 to |deque|
        invariant forall j :: 0 <= j < i ==> deque[j].id != since.value
      {
        if deque[i].id == since.value {
          return deque[i + 1..Min(i + 1 + limit, |deque|)];
        }
      }
      return LastN(deque, limit);
    }

    method Flush() returns (ghost disks: seq<Files>)
      modifies dir
      ensures dir.files == Flushed(old(dir.files), name, deque)
      ensures disks == FlushTrace(old(dir.files), name, deque)
    {
      ghost var before := dir.files;
      PointsExact(deque);
      disks := [dir.files];
      if deque == [] {
        dir.files := dir.files - {name};
        disks := disks + [dir.files];
        return;
      }
      var tmp := name + TMP;
      dir.files := dir.files[tmp := []];
      disks := disks + [dir.files];
      FirstPoints(before, name, deque);
      for i := 0 to |deque|
        invariant dir.files == before[tmp := Lines(deque[..i])]
        invariant forall p :: p in [Untouched] + WritingPoints(i) ==> Passes(deque, p)
        invariant disks == DisksAt(before, name, deque, [Untouched] + WritingPoints(i))
      {
        WritingPointsExact(i + 1);
        OneMoreLine(before, name, deque, i);
        Overwrite(before, tmp, Lines(deque[..i]), Lines(deque[..i]) + [Unreadable]);
        Overwrite(before, tmp, Lines(deque[..i]), Lines(deque[..i + 1]));
        // A crash inside the write leaves a torn last line.
        disks := disks + [dir.files[tmp := dir.files[tmp] + [Unreadable]]];
        dir.files := dir.files[tmp := dir.files[tmp] + [Entry(deque[i])]];
        disks := disks + [dir.files];
      }
      assert deque[..|deque|] == deque;
      dir.files := dir.files[name := dir.files[tmp]] - {tmp};
      DisksConcat(before, name, deque, [Untouched] + WritingPoints(|deque|), [Done]);
      disks := disks + [dir.files];
      assert name !in {tmp};
    }
  }

  /** Creating the temporary file passes through the first two points. */
  lemma FirstPoints(files: Files, name: string, msgs: seq<Message>)
    requires msgs != []
    ensures forall p :: p in [Untouched] + WritingPoints(0) ==> Passes(msgs, p)
    ensures DisksAt(files, name, msgs, [Untouched] + WritingPoints(0)) == [files, files[name + TMP := []]]
    ensures Lines(msgs[..0]) == []
  {
    assert Lines(msgs[..0]) + [] == [];
  }

  /** Writing one more line passes through two more points. */
  lemma OneMoreLine(files: Files, name: string, msgs: seq<Message>, i: nat)
    requires i < |msgs|
    requires forall p :: p in [Untouched] + WritingPoints(i + 1) ==> Passes(msgs, p)
    ensures forall p :: p in [Untouched] + WritingPoints(i) ==> Passes(msgs, p)
    ensures DisksAt(files, name, msgs, [Untouched] + WritingPoints(i + 1))
         == DisksAt(files, name, msgs, [Untouched] + WritingPoints(i))
            + [files[name + TMP := Lines(msgs[..i]) + [Unreadable]]] + [files[name + TMP := Lines(msgs[..i + 1])]]
    ensures Lines(msgs[..i + 1]) == Lines(msgs[..i]) + [Entry(msgs[i])]
  {
    var now, next := [Untouched] + WritingPoints(i), [Writing(i, true), Writing(i + 1, false)];
    assert [Untouched] + WritingPoints(i + 1) == now + next;
    DisksConcat(files, name, msgs, now, next);
    assert Lines(msgs[..i + 1]) + [] == Lines(msgs[..i + 1]);
  }
}
