/** A store over whole runs: appends, reads, drains, restarts, and crashes in the middle of an
    append. */
module StoreRuns {
  import opened Base
  import opened Messages
  import opened Persistence
  import opened Store

  /** Crash: the process dies at some point of an append and starts again on what that leaves. */
  datatype Op =
    | Append(m: Message)
    | Read(address: string)
    | Drain(address: string)
    | Reboot(names: seq<string>)
    | Crash(m: Message, point: CrashPoint, names: seq<string>)

  function Apply(sc: StoreConfig, st: StoreState, op: Op): StoreState {
    match op
    case Append(m) => sc.AppendTo(st, m.to, m)
    case Read(a) => sc.Get(st, a)
    case Drain(a) => sc.DrainAt(st, a)
    case Reboot(names) => sc.LoadAll(StoreState(map[], st.files), names)
    case Crash(m, point, names) =>
      if Passes(sc.Pushed(st, m.to, m), point)
      then sc.LoadAll(StoreState(map[], sc.CrashDisk(st, m.to, m, point)), names) else st
  }

  /** What the file system can present: a listing of the queue files, and a crash at a point that the
      append passes through. */
  ghost predicate Possible(sc: StoreConfig, st: StoreState, op: Op) {
    match op
    case Reboot(names) => sc.Listing(names, st.files)
    case Crash(m, point, names) =>
      Passes(sc.Pushed(st, m.to, m), point) && sc.Listing(names, sc.CrashDisk(st, m.to, m, point))
    case _ => true
  }

  function Execute(sc: StoreConfig, st: StoreState, ops: seq<Op>): StoreState {
    if ops == [] then st else Apply(sc, Execute(sc, st, ops[..|ops| - 1]), ops[|ops| - 1])
  }

  ghost predicate PossibleRun(sc: StoreConfig, st: StoreState, ops: seq<Op>) {
    forall i :: 0 <= i < |ops| ==> Possible(sc, Execute(sc, st, ops[..i]), ops[i])
  }

  /** The address that an operation is about. */
  function AddressOf(op: Op): Option<string> {
    match op
    case Append(m) => Some(m.to)
    case Read(a) => Some(a)
    case Drain(a) => Some(a)
    case Reboot(_) => None
    case Crash(m, _, _) => Some(m.to)
  }

  /** The hash tells the addresses in use apart. */
  ghost predicate NoCollisions(sc: StoreConfig, used: set<string>) {
    forall a, b :: a in used && b in used && sc.FileName(a) == sc.FileName(b) ==> a == b
  }

  predicate Uses(op: Op, used: set<string>) {
    AddressOf(op).Some? ==> AddressOf(op).value in used
  }

  /** The queue of an address in memory. */
  function Held(st: StoreState, address: string): seq<Message> {
    if address in st.mem then st.mem[address].msgs else []
  }

  ghost predicate InOrder(sc: StoreConfig, st: StoreState, used: set<string>) {
    sc.Rehydrated(st) && st.mem.Keys <= used
  }

  /** What one operation makes of the messages of an address. */
  function Extend(before: seq<Message>, op: Op, address: string): seq<Message> {
    match op
    case Append(m) => if m.to == address then before + [m] else before
    case Drain(a) => if a == address then [] else before
    case Crash(m, point, _) => if point.Done? && m.to == address then before + [m] else before
    case _ => before
  }

  /** The messages of an address since its last drain, in order. */
  function Since(start: seq<Message>, ops: seq<Op>, address: string): seq<Message> {
    if ops == [] then start
    else Extend(Since(start, ops[..|ops| - 1], address), ops[|ops| - 1], address)
  }

  // ---------------------------------------------------------------- one operation

  lemma UsedAlone(sc: StoreConfig, st: StoreState, used: set<string>, address: string)
    requires st.mem.Keys <= used && NoCollisions(sc, used) && address in used
    ensures sc.Alone(st.mem, address)
  {
  }

  lemma HeldIsStored(sc: StoreConfig, st: StoreState, used: set<string>, address: string)
    requires InOrder(sc, st, used) && NoCollisions(sc, used) && address in used
    ensures Held(st, address) == sc.Stored(st.files, address)
    ensures |Held(st, address)| <= sc.maxlen
  {
    UsedAlone(sc, st, used, address);
    sc.NothingHidden(st, address);
    LoadIsWindow(FileAt(st.files, sc.FileName(address)), sc.maxlen);
  }

  lemma HeldBounded(sc: StoreConfig, st: StoreState, used: set<string>, address: string)
    requires InOrder(sc, st, used) && NoCollisions(sc, used)
    ensures |Held(st, address)| <= sc.maxlen
  {
    if address in used {
      HeldIsStored(sc, st, used, address);
    }
  }

  function Contents(st: StoreState): map<string, seq<Message>> {
    map a | a in st.mem :: st.mem[a].msgs
  }

  lemma RebootKeeps(sc: StoreConfig, st: StoreState, used: set<string>, disk: Files, names: seq<string>)
    requires InOrder(sc, st, used) && SameQueues(disk, st.files) && sc.Listing(names, disk)
    ensures var after := sc.LoadAll(StoreState(map[], disk), names);
      && InOrder(sc, after, used) && Contents(after) == NonEmpty(Contents(st))
      && forall a :: Held(after, a) == Held(st, a)
  {
    hide StoreConfig.Rehydrated, StoreConfig.LoadAll, StoreConfig.Listing, SameQueues;
    sc.Restart(st, disk, names);
    RestoredHeld(sc, sc.LoadAll(StoreState(map[], disk), names), st);
  }

  lemma RestoredHeld(sc: StoreConfig, after: StoreState, before: StoreState)
    requires sc.RestartOf(after, before)
    ensures Contents(after) == NonEmpty(Contents(before))
    ensures forall a :: Held(after, a) == Held(before, a)
    ensures after.mem.Keys <= before.mem.Keys
  {
    hide StoreConfig.Rehydrated;
  }

  lemma AppendHeld(sc: StoreConfig, st: StoreState, used: set<string>, m: Message)
    requires InOrder(sc, st, used) && NoCollisions(sc, used) && m.to in used
    ensures InOrder(sc, sc.AppendTo(st, m.to, m), used)
    ensures forall a :: Held(sc.AppendTo(st, m.to, m), a)
                     == if a == m.to then Push(Held(st, a), m, sc.maxlen) else Held(st, a)
  {
    UsedAlone(sc, st, used, m.to);
    HeldIsStored(sc, st, used, m.to);
    sc.AppendKeeps(st, m.to, m);
    hide StoreConfig.Rehydrated, StoreConfig.Stored, StoreConfig.Alone, Flushed;
  }

  lemma GetHeld(sc: StoreConfig, st: StoreState, used: set<string>, address: string)
    requires InOrder(sc, st, used) && NoCollisions(sc, used) && address in used
    ensures InOrder(sc, sc.Get(st, address), used)
    ensures forall a :: Held(sc.Get(st, address), a) == Held(st, a)
  {
    UsedAlone(sc, st, used, address);
    HeldIsStored(sc, st, used, address);
    sc.GetKeeps(st, address);
    hide StoreConfig.Rehydrated, StoreConfig.Stored, StoreConfig.Alone;
  }

  lemma DrainHeld(sc: StoreConfig, st: StoreState, used: set<string>, address: string)
    requires InOrder(sc, st, used) && NoCollisions(sc, used) && address in used
    ensures InOrder(sc, sc.DrainAt(st, address), used)
    ensures forall a :: Held(sc.DrainAt(st, address), a) == if a == address then [] else Held(st, a)
  {
    UsedAlone(sc, st, used, address);
    sc.DrainKeeps(st, address);
    hide StoreConfig.Rehydrated, StoreConfig.Stored, StoreConfig.Alone;
  }

  /** One operation keeps memory and disk in step, and does to each queue what `Extend` says. */
  lemma ApplyKeeps(sc: StoreConfig, st: StoreState, used: set<string>, op: Op, address: string)
    requires InOrder(sc, st, used) && NoCollisions(sc, used) && Uses(op, used) && Possible(sc, st, op)
    ensures InOrder(sc, Apply(sc, st, op), used)
    ensures Held(Apply(sc, st, op), address) == LastN(Extend(Held(st, address), op, address), sc.maxlen)
  {
    hide InOrder, NoCollisions, Held, StoreConfig.AppendTo, StoreConfig.DrainAt, StoreConfig.LoadAll, StoreConfig.Get;
    hide StoreConfig.Listing, SameQueues;
    HeldBounded(sc, st, used, address);
    match op {
      case Append(m) => AppendHeld(sc, st, used, m);
      case Read(a) => GetHeld(sc, st, used, a);
      case Drain(a) => DrainHeld(sc, st, used, a);
      case Reboot(names) =>
        SameAsItself(st.files);
        RebootKeeps(sc, st, used, st.files, names);
      case Crash(m, point, names) => CrashKeeps(sc, st, used, m, point, names, address);
    }
  }

  lemma CrashKeeps(sc: StoreConfig, st: StoreState, used: set<string>, m: Message, point: CrashPoint,
                   names: seq<string>, address: string)
    requires var op := Crash(m, point, names);
      InOrder(sc, st, used) && NoCollisions(sc, used) && Uses(op, used) && Possible(sc, st, op)
    ensures var op := Crash(m, point, names);
      var after := Apply(sc, st, op);
      && InOrder(sc, after, used)
      && Held(after, address) == LastN(Extend(Held(st, address), op, address), sc.maxlen)
  {
    hide InOrder, NoCollisions, Held, StoreConfig.AppendTo, StoreConfig.LoadAll, StoreConfig.Listing, SameQueues;
    hide StoreConfig.Pushed, StoreConfig.CrashDisk;
    HeldBounded(sc, st, used, address);
    sc.CrashOutcome(st, m.to, m, point);
    var disk := sc.CrashDisk(st, m.to, m, point);
    if point.Done? {
      AppendHeld(sc, st, used, m);
      SameAsItself(disk);
      RebootKeeps(sc, sc.AppendTo(st, m.to, m), used, disk, names);
    } else {
      RebootKeeps(sc, st, used, disk, names);
    }
  }

  /** Cutting a queue to its window before or after an operation makes no difference. */
  lemma ExtendAbsorbs(log: seq<Message>, op: Op, address: string, max: nat)
    ensures LastN(Extend(LastN(log, max), op, address), max) == LastN(Extend(log, op, address), max)
  {
    LastNAbsorbs(log, [], max);
    assert log + [] == log && LastN(log, max) + [] == LastN(log, max);
    if op.Append? || op.Crash? {
      LastNAbsorbs(log, [op.m], max);
    }
    hide LastN;
  }

  // ---------------------------------------------------------------- runs

  /** After any run of appends, reads, drains, restarts and crashes: memory and disk are in step,
      and every queue holds the last maxlen of the messages since its last drain, in order. */
  lemma {:induction false} StoreWindow(sc: StoreConfig, st: StoreState, used: set<string>, ops: seq<Op>,
                                       address: string)
    requires InOrder(sc, st, used) && NoCollisions(sc, used)
    requires PossibleRun(sc, st, ops) && forall i :: 0 <= i < |ops| ==> Uses(ops[i], used)
    ensures InOrder(sc, Execute(sc, st, ops), used)
    ensures Held(Execute(sc, st, ops), address) == LastN(Since(Held(st, address), ops, address), sc.maxlen)
  {
    hide InOrder, NoCollisions, Held, Apply, Possible, Extend, LastN;
    if ops == [] {
      HeldBounded(sc, st, used, address);
      WholeIsLastN(Held(st, address), sc.maxlen);
    } else {
      var init, last := ops[..|ops| - 1], ops[|ops| - 1];
      assert forall i :: 0 <= i < |init| ==> init[..i] == ops[..i];
      assert Possible(sc, Execute(sc, st, ops[..|init|]), ops[|init|]);
      StoreWindow(sc, st, used, init, address);
      ApplyKeeps(sc, Execute(sc, st, init), used, last, address);
      ExtendAbsorbs(Since(Held(st, address), init, address), last, address, sc.maxlen);
    }
  }

  lemma WholeIsLastN(msgs: seq<Message>, max: nat)
    requires |msgs| <= max
    ensures LastN(msgs, max) == msgs
  {
  }

  /** So a test of memory alone never hides a persisted message, and what a restart would read
      back is exactly what is in memory. */
  lemma LazyMapSound(sc: StoreConfig, st: StoreState, used: set<string>, ops: seq<Op>, address: string)
    requires InOrder(sc, st, used) && NoCollisions(sc, used) && address in used
    requires PossibleRun(sc, st, ops) && forall i :: 0 <= i < |ops| ==> Uses(ops[i], used)
    ensures var now := Execute(sc, st, ops);
      && Held(now, address) == sc.Stored(now.files, address)
      && (address in now.mem && now.mem[address].msgs != [] <==> sc.Stored(now.files, address) != [])
  {
    StoreWindow(sc, st, used, ops, address);
    HeldIsStored(sc, Execute(sc, st, ops), used, address);
    hide InOrder, NoCollisions, PossibleRun, Execute;
  }

  /** A restart after any run gives back exactly the nonempty queues: this is what the events of
      the daemon take a restart to be. */
  lemma RestartIsReborn(sc: StoreConfig, st: StoreState, used: set<string>, ops: seq<Op>, names: seq<string>)
    requires InOrder(sc, st, used) && NoCollisions(sc, used)
    requires PossibleRun(sc, st, ops) && forall i :: 0 <= i < |ops| ==> Uses(ops[i], used)
    requires sc.Listing(names, Execute(sc, st, ops).files)
    ensures var now := Execute(sc, st, ops);
      Contents(sc.LoadAll(StoreState(map[], now.files), names)) == NonEmpty(Contents(now))
  {
    StoreWindow(sc, st, used, ops, "");
    var now := Execute(sc, st, ops);
    SameAsItself(now.files);
    RebootKeeps(sc, now, used, now.files, names);
  }

  /** A cold start is a state from which these runs can start iff the files are well filed and belong
      to addresses in use; each address then has what its own file loads to. */
  lemma ColdStartInOrderIff(sc: StoreConfig, files: Files, used: set<string>, names: seq<string>)
    requires sc.Listing(names, files)
    ensures var st := sc.LoadAll(StoreState(map[], files), names);
      && (InOrder(sc, st, used) <==> sc.WellFiled(files) && forall a :: sc.Owns(files, a) ==> a in used)
      && (sc.WellFiled(files) ==>
            forall a :: Held(st, a) == if sc.Owns(files, a) then sc.Stored(files, a) else [])
  {
    sc.ColdStartIff(files, names);
    if sc.WellFiled(files) {
      sc.ColdStart(files, names);
    }
    hide StoreConfig.LoadAll, StoreConfig.Rehydrated, StoreConfig.Stored, StoreConfig.WellFiled, StoreConfig.Owns;
  }

  // ---------------------------------------------------------------- starting under another bound

  /** Loading the same lines under two bounds: the second load is the end of the first one iff its
      bound is no larger or the file has no more readable lines than the first bound. */
  lemma LoadUnderBounds(lines: seq<Line>, max: nat, newMax: nat)
    ensures Load(lines, newMax) == LastN(Load(lines, max), newMax) <==> newMax <= max || |Entries(lines)| <= max
  {
    LoadIsWindow(lines, max);
    LoadIsWindow(lines, newMax);
    WindowOfWindow(Entries(lines), max, newMax);
    hide Load, Entries;
  }

  lemma WindowOfWindow<T>(s: seq<T>, max: nat, newMax: nat)
    ensures LastN(s, newMax) == LastN(LastN(s, max), newMax) <==> newMax <= max || |s| <= max
  {
    if newMax <= max < |s| {
      assert s[|s| - max..][max - newMax..] == s[|s| - newMax..];
    }
  }

  /** A restart under a smaller bound keeps memory and disk in step, and cuts every queue to the last
      messages that the new bound allows. */
  lemma RebootSmaller(sc: StoreConfig, newMax: nat, st: StoreState, used: set<string>, names: seq<string>)
    requires InOrder(sc, st, used) && newMax <= sc.maxlen && sc.Listing(names, st.files)
    ensures var sc2 := StoreConfig(sc.hash, newMax);
      var after := sc2.LoadAll(StoreState(map[], st.files), names);
      && sc2.WellFiled(st.files) && InOrder(sc2, after, used)
      && forall a :: Held(after, a) == LastN(Held(st, a), newMax)
  {
    var sc2 := StoreConfig(sc.hash, newMax);
    sc.RehydratedDisk(st);
    SmallerWellFiled(sc, newMax, st.files);
    sc2.ColdStart(st.files, names);
    forall a
      ensures sc2.Owns(st.files, a) <==> a in st.mem && LastN(Held(st, a), newMax) != []
      ensures a in st.mem ==> sc2.Stored(st.files, a) == LastN(Held(st, a), newMax)
    {
      OwnsUnderSmaller(sc, newMax, st, used, a);
    }
    hide StoreConfig.LoadAll, StoreConfig.Rehydrated, StoreConfig.Stored, StoreConfig.Owns, StoreConfig.WellFiled;
    hide LastN;
    assert LastN<Message>([], newMax) == [] by { WholeIsLastN([], newMax); }
  }

  lemma SmallerWellFiled(sc: StoreConfig, newMax: nat, files: Files)
    requires sc.WellFiled(files) && newMax <= sc.maxlen
    ensures StoreConfig(sc.hash, newMax).WellFiled(files)
  {
    var sc2 := StoreConfig(sc.hash, newMax);
    forall n, m | n in files && IsJsonl(n) && m in Load(files[n], newMax)
      ensures n == sc2.FileName(m.to) && m.to == Load(files[n], newMax)[0].to
    {
      LoadUnderBounds(files[n], sc.maxlen, newMax);
      var new_, old_ := Load(files[n], newMax), Load(files[n], sc.maxlen);
      assert m in old_ && new_[0] in old_;
    }
    hide Load;
  }

  lemma OwnsUnderSmaller(sc: StoreConfig, newMax: nat, st: StoreState, used: set<string>, a: string)
    requires InOrder(sc, st, used) && newMax <= sc.maxlen
    ensures var (sc2, msgs) := (StoreConfig(sc.hash, newMax), LastN(Held(st, a), newMax));
      && (sc2.Owns(st.files, a) <==> a in st.mem && msgs != [])
      && (a in st.mem ==> sc2.Stored(st.files, a) == msgs)
  {
    var sc2 := StoreConfig(sc.hash, newMax);
    LoadUnderBounds(FileAt(st.files, sc.FileName(a)), sc.maxlen, newMax);
    sc.StoredOf(st.files, a);
    assert sc2.Stored(st.files, a) == LastN(sc.Stored(st.files, a), newMax);
    if a in st.mem {
      assert sc.Stored(st.files, a) == st.mem[a].msgs;
    } else if sc.Stored(st.files, a) != [] {
      var b :| b in st.mem && sc.FileName(b) == sc.FileName(a);
      assert sc.Stored(st.files, a) == st.mem[b].msgs;
    }
    hide Load;
  }

  /** The file of the address has no readable lines beyond the bound. */
  predicate NoExtra(sc: StoreConfig, files: Files, address: string) {
    |Entries(FileAt(files, sc.FileName(address)))| <= sc.maxlen
  }

  /** The operation rewrites or removes the file of the address. */
  predicate Rewrites(op: Op, address: string) {
    match op
    case Append(m) => m.to == address
    case Drain(a) => a == address
    case Crash(m, point, _) => m.to == address && point.Done?
    case _ => false
  }

  lemma AppendNoExtra(sc: StoreConfig, st: StoreState, used: set<string>, m: Message, address: string)
    requires InOrder(sc, st, used) && NoCollisions(sc, used) && m.to in used && address in used
    requires m.to == address || NoExtra(sc, st.files, address)
    ensures NoExtra(sc, sc.AppendTo(st, m.to, m).files, address)
  {
    hide Entries, StoreConfig.Stored;
    var name, msgs := sc.FileName(m.to), sc.Pushed(st, m.to, m);
    sc.BufferNamed(st, m.to);
    TmpIsNotJsonl(name);
    sc.StoredOf(st.files, address);
    assert |name| != |name + TMP|;
    if m.to == address {
      EntriesOfLines(msgs);
      EntriesOfNothing();
    } else {
      assert sc.FileName(address) != name;
    }
  }

  lemma DrainNoExtra(sc: StoreConfig, st: StoreState, used: set<string>, drained: string, address: string)
    requires InOrder(sc, st, used) && NoCollisions(sc, used) && drained in used && address in used
    requires drained == address || NoExtra(sc, st.files, address)
    ensures NoExtra(sc, sc.DrainAt(st, drained).files, address)
  {
    hide Entries, StoreConfig.Stored;
    sc.BufferNamed(st, drained);
    EntriesOfNothing();
  }

  lemma EntriesOfNothing()
    ensures Entries([]) == []
  {
  }

  /** A cold start only removes files. */
  lemma RebootNoExtra(sc: StoreConfig, disk: Files, names: seq<string>, address: string)
    requires sc.Listing(names, disk) && NoExtra(sc, disk, address)
    ensures NoExtra(sc, sc.LoadAll(StoreState(map[], disk), names).files, address)
  {
    hide Entries, StoreConfig.LoadAll, Load;
    sc.ColdStartAnywhere(disk, names);
    EntriesOfNothing();
  }

  lemma SameQueuesNoExtra(sc: StoreConfig, files: Files, disk: Files, address: string)
    requires SameQueues(disk, files) && NoExtra(sc, files, address)
    ensures NoExtra(sc, disk, address)
  {
    sc.StoredOf(files, address);
  }

  lemma ApplyNoExtra(sc: StoreConfig, st: StoreState, used: set<string>, op: Op, address: string)
    requires InOrder(sc, st, used) && NoCollisions(sc, used) && Uses(op, used) && Possible(sc, st, op)
    requires address in used && (Rewrites(op, address) || NoExtra(sc, st.files, address))
    ensures NoExtra(sc, Apply(sc, st, op).files, address)
  {
    hide InOrder, NoCollisions, NoExtra, StoreConfig.AppendTo, StoreConfig.DrainAt, StoreConfig.LoadAll;
    hide StoreConfig.Listing, StoreConfig.CrashDisk, StoreConfig.Pushed, SameQueues;
    match op {
      case Append(m) => AppendNoExtra(sc, st, used, m, address);
      case Read(a) =>
      case Drain(a) => DrainNoExtra(sc, st, used, a, address);
      case Reboot(names) => RebootNoExtra(sc, st.files, names, address);
      case Crash(m, point, names) =>
        var disk := sc.CrashDisk(st, m.to, m, point);
        sc.CrashOutcome(st, m.to, m, point);
        if point.Done? {
          AppendNoExtra(sc, st, used, m, address);
        } else {
          SameQueuesNoExtra(sc, st.files, disk, address);
        }
        RebootNoExtra(sc, disk, names, address);
    }
  }

  /** Once an operation has rewritten the file of an address, it never again has lines beyond the
      bound, whatever follows. */
  lemma {:induction false} StaysWithinBound(sc: StoreConfig, st: StoreState, used: set<string>, ops: seq<Op>,
                                            address: string, k: nat)
    requires InOrder(sc, st, used) && NoCollisions(sc, used) && address in used
    requires PossibleRun(sc, st, ops) && forall i :: 0 <= i < |ops| ==> Uses(ops[i], used)
    requires k < |ops| && Rewrites(ops[k], address)
    ensures NoExtra(sc, Execute(sc, st, ops).files, address)
  {
    hide InOrder, NoCollisions, NoExtra, Apply, Possible, Rewrites, Since, LastN, Held;
    var init, last := ops[..|ops| - 1], ops[|ops| - 1];
    assert forall i :: 0 <= i < |init| ==> init[..i] == ops[..i];
    assert Possible(sc, Execute(sc, st, ops[..|init|]), ops[|init|]);
    StoreWindow(sc, st, used, init, address);
    if k < |init| {
      StaysWithinBound(sc, st, used, init, address, k);
    }
    ApplyNoExtra(sc, Execute(sc, st, init), used, last, address);
  }

  /** Under a larger bound older lines come back, but never for an address whose queue has been
      appended to or drained at any time since the start of the run. */
  lemma RewrittenHasNoMore(sc: StoreConfig, newMax: nat, st: StoreState, used: set<string>, ops: seq<Op>,
                           address: string)
    requires InOrder(sc, st, used) && NoCollisions(sc, used) && address in used
    requires PossibleRun(sc, st, ops) && forall i :: 0 <= i < |ops| ==> Uses(ops[i], used)
    requires exists i :: 0 <= i < |ops| && Rewrites(ops[i], address)
    ensures var (now, sc2) := (Execute(sc, st, ops), StoreConfig(sc.hash, newMax));
      sc2.Stored(now.files, address) == LastN(Held(now, address), newMax)
  {
    var now := Execute(sc, st, ops);
    var k :| 0 <= k < |ops| && Rewrites(ops[k], address);
    StaysWithinBound(sc, st, used, ops, address, k);
    StoreWindow(sc, st, used, ops, address);
    HeldIsStored(sc, now, used, address);
    LoadUnderBounds(FileAt(now.files, sc.FileName(address)), sc.maxlen, newMax);
    hide InOrder, NoCollisions, PossibleRun, Execute, Load, Rewrites;
  }
}
