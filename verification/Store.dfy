/** The lazy map from addresses to persistent queues, its cold start, and why memory always
    agrees with what a restart would find on disk. */
module Store {
  import opened Base
  import opened Messages
  import opened Persistence

  /** A queue in memory and the name of the file that mirrors it. */
  datatype Buffer = Buffer(name: string, msgs: seq<Message>)

  /** Buffers in memory, files on disk. */
  datatype StoreState = StoreState(mem: map<string, Buffer>, files: Files)

  /** The address hash and the bound on each queue. */
  datatype StoreConfig = StoreConfig(hash: string -> string, maxlen: nat)
  {
    function FileName(address: string): string {
      hash(address) + JSONL
    }

    /** What loading the file of an address would give. */
    function Stored(files: Files, address: string): seq<Message> {
      Load(FileAt(files, FileName(address)), maxlen)
    }

    function Get(st: StoreState, address: string): (r: StoreState)
      ensures address in r.mem
    {
      if address in st.mem then st
      else st.(mem := st.mem[address := Buffer(FileName(address), Stored(st.files, address))])
    }

    function AppendTo(st: StoreState, address: string, m: Message): StoreState {
      var st1 := Get(st, address);
      var name := st1.mem[address].name;
      var msgs := Push(st1.mem[address].msgs, m, maxlen);
      StoreState(st1.mem[address := Buffer(name, msgs)], Flushed(st1.files, name, msgs))
    }

    /** The queue of an address once a message has been appended to it. */
    function Pushed(st: StoreState, address: string, m: Message): seq<Message> {
      Push(Get(st, address).mem[address].msgs, m, maxlen)
    }

    /** The disks that an append passes through. */
    function AppendTrace(st: StoreState, address: string, m: Message): seq<Files> {
      FlushTrace(st.files, Get(st, address).mem[address].name, Pushed(st, address, m))
    }

    /** The disk that a crash at this point of an append leaves behind. */
    function CrashDisk(st: StoreState, address: string, m: Message, p: CrashPoint): Files
      requires Passes(Pushed(st, address, m), p)
    {
      DiskAt(st.files, Get(st, address).mem[address].name, Pushed(st, address, m), p)
    }

    function DrainAt(st: StoreState, address: string): StoreState {
      var st1 := Get(st, address);
      var name := st1.mem[address].name;
      StoreState(st1.mem[address := Buffer(name, [])], st1.files - {name})
    }

    /** One file of the cold-start scan. */
    function LoadOne(st: StoreState, name: string): StoreState {
      var msgs := Load(FileAt(st.files, name), maxlen);
      if msgs == [] then st.(files := st.files - {name})
      else if msgs[0].to in st.mem then st
      else st.(mem := st.mem[msgs[0].to := Buffer(name, msgs)])
    }

    function LoadAll(st: StoreState, names: seq<string>): StoreState {
      if names == [] then st
      else LoadOne(LoadAll(st, names[..|names| - 1]), names[|names| - 1])
    }

    // -------------------------------------------------------------- invariants

    /** The address shares its file with no other address in memory. */
    ghost predicate Alone(mem: map<string, Buffer>, address: string) {
      forall a :: a in mem && FileName(a) == FileName(address) ==> a == address
    }

    /** Each buffer writes to the file of its address, and no two share one. */
    ghost predicate Named(mem: map<string, Buffer>) {
      forall a :: a in mem ==> mem[a].name == FileName(a) && Alone(mem, a)
    }

    /** Each buffer holds messages for its own address only. */
    ghost predicate Addressed(mem: map<string, Buffer>) {
      forall a, i :: a in mem && 0 <= i < |mem[a].msgs| ==> mem[a].msgs[i].to == a
    }

    /** Each buffer is what its file loads to. */
    ghost predicate Synced(mem: map<string, Buffer>, files: Files) {
      forall a :: a in mem ==> mem[a].msgs == Stored(files, a)
    }

    /** Every queue file belongs to a buffer. */
    ghost predicate Covered(mem: map<string, Buffer>, files: Files) {
      forall n :: n in files && IsJsonl(n) ==> exists a :: a in mem && FileName(a) == n
    }

    ghost predicate Rehydrated(st: StoreState) {
      Named(st.mem) && Addressed(st.mem) && Synced(st.mem, st.files) && Covered(st.mem, st.files)
    }

    /** The address has a nonempty queue file of its own. */
    predicate Owns(files: Files, address: string) {
      var msgs := Stored(files, address);
      msgs != [] && msgs[0].to == address
    }

    /** Every queue file holds the messages of one address, under the name of that address. */
    ghost predicate WellFiled(files: Files) {
      forall n, m :: n in files && IsJsonl(n) && m in Load(files[n], maxlen)
        ==> n == FileName(m.to) && m.to == Load(files[n], maxlen)[0].to
    }

    /** A listing of the queue files, each once. */
    ghost predicate Listing(names: seq<string>, files: Files) {
      && (forall n :: n in names <==> n in files && IsJsonl(n))
      && Distinct(names)
    }

    /** The buffers of st are those that a restart over files has to rebuild. */
    ghost predicate Mirrors(mem: map<string, Buffer>, files: Files) {
      && (forall a :: a in mem <==> Owns(files, a))
      && (forall a :: a in mem ==> mem[a] == Buffer(FileName(a), Stored(files, a)))
    }

    // -------------------------------------------------------------- one operation

    lemma StoredOf(files: Files, address: string)
      ensures FileName(address) !in files ==> Stored(files, address) == []
      ensures IsJsonl(FileName(address))
    {
    }

    /** An address not in memory has no messages on disk either, so a test of memory alone
        never hides a persisted message. */
    lemma NothingHidden(st: StoreState, address: string)
      requires Rehydrated(st) && Alone(st.mem, address)
      ensures Stored(st.files, address) == if address in st.mem then st.mem[address].msgs else []
    {
      StoredOf(st.files, address);
      if FileName(address) in st.files {
        var a :| a in st.mem && FileName(a) == FileName(address);
      }
    }

    lemma GetKeeps(st: StoreState, address: string)
      requires Rehydrated(st) && Alone(st.mem, address)
      ensures Rehydrated(Get(st, address))
    {
      NothingHidden(st, address);
    }

    /** Replacing one buffer and flushing it. */
    function Rewrite(st: StoreState, address: string, msgs: seq<Message>): StoreState {
      StoreState(st.mem[address := Buffer(FileName(address), msgs)],
                 Flushed(st.files, FileName(address), msgs))
    }

    lemma RewrittenFiles(files: Files, name: string, msgs: seq<Message>)
      requires |msgs| <= maxlen
      ensures Load(FileAt(Flushed(files, name, msgs), name), maxlen) == msgs
      ensures forall n :: IsJsonl(n) && n != name
                ==> (n in Flushed(files, name, msgs) <==> n in files)
                    && FileAt(Flushed(files, name, msgs), n) == FileAt(files, n)
    {
      TmpIsNotJsonl(name);
      LoadLinesBack(msgs, maxlen);
      assert |name| != |name + TMP|;
    }

    /** Replacing one buffer and flushing it keeps memory and disk in step. */
    lemma RewriteKeeps(st: StoreState, address: string, msgs: seq<Message>)
      requires Rehydrated(st) && address in st.mem && |msgs| <= maxlen
      requires forall i :: 0 <= i < |msgs| ==> msgs[i].to == address
      ensures Rehydrated(Rewrite(st, address, msgs))
    {
      var name := FileName(address);
      var st1 := Rewrite(st, address, msgs);
      RewrittenFiles(st.files, name, msgs);
      forall a | a in st1.mem
        ensures st1.mem[a].msgs == Stored(st1.files, a)
      {
        StoredOf(st.files, a);
        assert a != address ==> FileName(a) != name by { assert Alone(st.mem, address); }
      }
      forall n | n in st1.files && IsJsonl(n)
        ensures exists a :: a in st1.mem && FileName(a) == n
      {
        if n != name {
          var a :| a in st.mem && FileName(a) == n;
          assert a in st1.mem;
        } else {
          assert address in st1.mem;
        }
      }
    }

    lemma AppendKeeps(st: StoreState, address: string, m: Message)
      requires Rehydrated(st) && Alone(st.mem, address) && m.to == address
      ensures Rehydrated(AppendTo(st, address, m))
    {
      var st1 := Get(st, address);
      var msgs := Push(st1.mem[address].msgs, m, maxlen);
      assert Rehydrated(st1) by { GetKeeps(st, address); }
      assert AppendTo(st, address, m) == Rewrite(st1, address, msgs);
      RewriteKeeps(st1, address, msgs);
    }

    lemma DrainKeeps(st: StoreState, address: string)
      requires Rehydrated(st) && Alone(st.mem, address)
      ensures Rehydrated(DrainAt(st, address))
    {
      var st1 := Get(st, address);
      assert Rehydrated(st1) by { GetKeeps(st, address); }
      assert DrainAt(st, address) == Rewrite(st1, address, []);
      RewriteKeeps(st1, address, []);
    }

    // -------------------------------------------------------------- colliding hashes

    /** No other address with messages shares the file of the address. */
    ghost predicate Unshared(mem: map<string, Buffer>, address: string) {
      forall a :: a in mem && a != address && FileName(a) == FileName(address) ==> mem[a].msgs == []
    }

    /** What memory shows for an address is what its file holds iff no other address with messages
        shares the file. */
    lemma NothingHiddenIff(st: StoreState, address: string)
      requires Rehydrated(st)
      ensures Stored(st.files, address) == (if address in st.mem then st.mem[address].msgs else [])
         <==> Unshared(st.mem, address)
    {
      StoredOf(st.files, address);
      if Unshared(st.mem, address) && address !in st.mem && FileName(address) in st.files {
        var a :| a in st.mem && FileName(a) == FileName(address);
        assert Stored(st.files, a) == Stored(st.files, address);
      }
      forall a | a in st.mem && a != address && FileName(a) == FileName(address)
        ensures address !in st.mem && Stored(st.files, address) == st.mem[a].msgs
      {
        assert Alone(st.mem, a);
      }
    }

    /** After the queue of an address has been replaced and flushed, every buffer in memory is what its
        file loads to iff those that share the file hold just the same messages. */
    lemma RewriteSyncedIff(st: StoreState, address: string, msgs: seq<Message>)
      requires Rehydrated(st) && |msgs| <= maxlen
      ensures Synced(Rewrite(st, address, msgs).mem, Rewrite(st, address, msgs).files)
         <==> forall a :: a in st.mem && a != address && FileName(a) == FileName(address) ==> st.mem[a].msgs == msgs
    {
      var st1, name := Rewrite(st, address, msgs), FileName(address);
      RewrittenFiles(st.files, name, msgs);
      forall a | a in st1.mem
        ensures Stored(st1.files, a) == if FileName(a) == name then msgs else st.mem[a].msgs
      {
        StoredOf(st.files, a);
      }
      hide Stored, Flushed;
    }

    /** After an append every buffer in memory is still what its file loads to iff no other address
        in memory shares the file, or nothing is ever kept. */
    lemma AppendSyncedIff(st: StoreState, address: string, m: Message)
      requires Rehydrated(st) && m.to == address
      ensures Synced(AppendTo(st, address, m).mem, AppendTo(st, address, m).files)
         <==> Alone(st.mem, address) || maxlen == 0
    {
      hide Stored, Flushed, Load;
      var msgs := Pushed(st, address, m);
      BufferNamed(st, address);
      assert AppendTo(st, address, m) == Rewrite(st, address, msgs);
      RewriteSyncedIff(st, address, msgs);
      if maxlen == 0 {
        NothingKept(st);
      } else {
        assert msgs[|msgs| - 1] == m;
        forall a | a in st.mem && a != address && FileName(a) == FileName(address)
          ensures st.mem[a].msgs != msgs
        {
          assert |st.mem[a].msgs| == |msgs| ==> st.mem[a].msgs[|msgs| - 1].to == a;
        }
      }
      hide Synced;
    }

    /** After a drain every buffer in memory is still what its file loads to iff no other address with
        messages shares the file. */
    lemma DrainSyncedIff(st: StoreState, address: string)
      requires Rehydrated(st)
      ensures Synced(DrainAt(st, address).mem, DrainAt(st, address).files) <==> Unshared(st.mem, address)
    {
      hide Stored, Load;
      BufferNamed(st, address);
      assert DrainAt(st, address) == Rewrite(st, address, []);
      RewriteSyncedIff(st, address, []);
      hide Synced, Rehydrated;
    }

    lemma BufferNamed(st: StoreState, address: string)
      requires Rehydrated(st)
      ensures Get(st, address).mem[address].name == FileName(address) && Get(st, address).files == st.files
    {
    }

    lemma NothingKept(st: StoreState)
      requires Rehydrated(st) && maxlen == 0
      ensures forall a :: a in st.mem ==> st.mem[a].msgs == []
    {
      forall a | a in st.mem
        ensures st.mem[a].msgs == []
      {
        LoadIsWindow(FileAt(st.files, FileName(a)), maxlen);
      }
    }

    // -------------------------------------------------------------- cold start

    /** The file loads to messages of which the oldest one is for the address. */
    predicate Heads(files: Files, name: string, address: string) {
      var msgs := Load(FileAt(files, name), maxlen);
      msgs != [] && msgs[0].to == address
    }

    /** The position of the first file that heads to the address, or the length. */
    function FirstHeaded(files: Files, names: seq<string>, address: string): (i: nat)
      ensures i <= |names|
      ensures i < |names| ==> Heads(files, names[i], address)
      ensures forall j :: 0 <= j < i ==> !Heads(files, names[j], address)
    {
      if names == [] then 0
      else
        var init := names[..|names| - 1];
        var i := FirstHeaded(files, init, address);
        if i < |init| || Heads(files, names[|names| - 1], address) then i else |names|
    }

    /** The address has the first file of the listing that heads to it, if there is one. */
    predicate FiledFirst(mem: map<string, Buffer>, files: Files, names: seq<string>, address: string) {
      var i := FirstHeaded(files, names, address);
      && (address in mem <==> i < |names|)
      && (address in mem ==> mem[address] == Buffer(names[i], Load(FileAt(files, names[i]), maxlen)))
    }

    /** A cold start over any directory whatsoever: each address that heads some file gets the first
        such file of the listing, and exactly the files that load to nothing are removed. */
    ghost predicate ScannedFirst(st: StoreState, files: Files, names: seq<string>) {
      Kept(st.files, files, names) && forall a :: FiledFirst(st.mem, files, names, a)
    }

    lemma {:induction false} ColdStartAnywhere(files: Files, names: seq<string>)
      requires Distinct(names)
      ensures ScannedFirst(LoadAll(StoreState(map[], files), names), files, names)
    {
      hide ScannedFirst, LoadOne, Distinct;
      if names == [] {
        NothingScannedFirst(files);
      } else {
        var init, n := names[..|names| - 1], names[|names| - 1];
        DistinctInit(names);
        ColdStartAnywhere(files, init);
        assert init + [n] == names;
        ScanNext(files, names, LoadAll(StoreState(map[], files), init));
      }
    }

    lemma NothingScannedFirst(files: Files)
      ensures ScannedFirst(StoreState(map[], files), files, [])
    {
    }

    lemma ScanNext(files: Files, names: seq<string>, st: StoreState)
      requires names != [] && names[|names| - 1] !in names[..|names| - 1]
      requires ScannedFirst(st, files, names[..|names| - 1])
      ensures ScannedFirst(LoadOne(st, names[|names| - 1]), files, names)
    {
      var init, n := names[..|names| - 1], names[|names| - 1];
      assert init + [n] == names;
      KeptNext(st, files, init, n);
      forall a
        ensures FiledFirst(LoadOne(st, n).mem, files, names, a)
      {
        FiledNext(st, files, names, a);
      }
      hide Kept, FiledFirst, LoadOne;
    }

    lemma KeptNext(st: StoreState, files: Files, init: seq<string>, n: string)
      requires Kept(st.files, files, init) && n !in init
      ensures FileAt(st.files, n) == FileAt(files, n)
      ensures Kept(LoadOne(st, n).files, files, init + [n])
    {
      hide Load;
      var msgs, now := Load(FileAt(st.files, n), maxlen), LoadOne(st, n).files;
      assert forall k :: k in now <==> k in st.files && !(k == n && msgs == []);
      assert n in files ==> FileAt(st.files, n) == files[n];
    }

    /** The next file of the listing counts for an address that has none yet. */
    lemma FiledNext(st: StoreState, files: Files, names: seq<string>, a: string)
      requires names != [] && FileAt(st.files, names[|names| - 1]) == FileAt(files, names[|names| - 1])
      requires FiledFirst(st.mem, files, names[..|names| - 1], a)
      ensures FiledFirst(LoadOne(st, names[|names| - 1]).mem, files, names, a)
    {
      hide Load;
      assert Heads(files, names[|names| - 1], a) || !Heads(files, names[|names| - 1], a);
    }

    /** A cold start leaves memory and disk in step iff the directory was well filed. */
    lemma ColdStartIff(files: Files, names: seq<string>)
      requires Listing(names, files)
      ensures Rehydrated(LoadAll(StoreState(map[], files), names)) <==> WellFiled(files)
    {
      var st := LoadAll(StoreState(map[], files), names);
      if WellFiled(files) {
        ColdStart(files, names);
      }
      if Rehydrated(st) {
        ColdStartAnywhere(files, names);
        RehydratedDisk(st);
        forall n, m | n in files && IsJsonl(n) && m in Load(files[n], maxlen)
          ensures n == FileName(m.to) && m.to == Load(files[n], maxlen)[0].to
        {
          assert n in st.files && st.files[n] == files[n];
        }
      }
    }

    /** The scan, after any part of the listing: it has removed the files that load to nothing
        and filed the others under their own addresses. */
    lemma {:induction false} ScanPrefix(files: Files, names: seq<string>)
      requires WellFiled(files) && Distinct(names)
      requires forall n :: n in names ==> n in files && IsJsonl(n)
      ensures Scanned(LoadAll(StoreState(map[], files), names), files, names)
    {
      hide WellFiled, Scanned, Distinct, LoadOne, IsJsonl;
      if names == [] {
        NothingScanned(files);
      } else {
        var init, n := names[..|names| - 1], names[|names| - 1];
        DistinctInit(names);
        ScanPrefix(files, init);
        assert init + [n] == names;
        ScanStep(files, init, n, LoadAll(StoreState(map[], files), init));
      }
    }

    lemma NothingScanned(files: Files)
      ensures Scanned(StoreState(map[], files), files, [])
    {
    }

    ghost predicate Scanned(st: StoreState, files: Files, names: seq<string>) {
      Kept(st.files, files, names) && Filed(st.mem, files, names)
    }

    /** Exactly the listed files that load to nothing are gone. */
    ghost predicate Kept(now: Files, files: Files, names: seq<string>) {
      && (forall n :: n in now <==> n in files && !(n in names && Load(files[n], maxlen) == []))
      && (forall n :: n in now ==> now[n] == files[n])
    }

    /** Exactly the addresses that own a listed file are in memory. */
    ghost predicate Filed(mem: map<string, Buffer>, files: Files, names: seq<string>) {
      && (forall a :: a in mem <==> Owns(files, a) && FileName(a) in names)
      && (forall a :: a in mem ==> mem[a] == Buffer(FileName(a), Stored(files, a)))
    }

    lemma ScanStep(files: Files, init: seq<string>, n: string, st: StoreState)
      requires WellFiled(files) && n in files && IsJsonl(n) && n !in init
      requires Scanned(st, files, init)
      ensures Scanned(LoadOne(st, n), files, init + [n])
    {
      var msgs := Load(files[n], maxlen);
      if msgs != [] {
        var a := msgs[0].to;
        assert msgs[0] in msgs;
        assert n == FileName(a) && Owns(files, a);
        forall b | Owns(files, b) && FileName(b) == n
          ensures b == a
        {
        }
      } else {
        forall b | Owns(files, b)
          ensures FileName(b) != n
        {
        }
      }
    }

    /** The outcome of a cold start over well-filed files, in whatever order they are listed:
        one buffer for each address that owns a file, holding what that file loads to. */
    lemma ColdStart(files: Files, names: seq<string>)
      requires WellFiled(files) && Listing(names, files)
      ensures var st := LoadAll(StoreState(map[], files), names);
        Mirrors(st.mem, files) && Rehydrated(st)
    {
      var st := LoadAll(StoreState(map[], files), names);
      ScanPrefix(files, names);
      forall a | Owns(files, a)
        ensures FileName(a) in names
      {
        StoredOf(files, a);
      }
      ScannedIsRehydrated(st, files, names);
    }

    lemma ScannedIsRehydrated(st: StoreState, files: Files, names: seq<string>)
      requires WellFiled(files) && Listing(names, files) && Scanned(st, files, names)
      ensures Rehydrated(st)
    {
      forall a | a in st.mem
        ensures Alone(st.mem, a) && st.mem[a].msgs == Stored(st.files, a)
      {
        StoredOf(files, a);
      }
      forall a, i | a in st.mem && 0 <= i < |st.mem[a].msgs|
        ensures st.mem[a].msgs[i].to == a
      {
        StoredOf(files, a);
        assert st.mem[a].msgs[i] in Load(files[FileName(a)], maxlen);
      }
      forall n | n in st.files && IsJsonl(n)
        ensures exists a :: a in st.mem && FileName(a) == n
      {
        var msgs := Load(files[n], maxlen);
        assert msgs[0] in msgs;
        assert Owns(files, msgs[0].to);
      }
    }

    /** In step with memory, the disk is well filed, and the addresses that own a file are those
        with messages in memory. */
    lemma RehydratedDisk(st: StoreState)
      requires Rehydrated(st)
      ensures WellFiled(st.files)
      ensures forall a :: Owns(st.files, a) <==> a in st.mem && st.mem[a].msgs != []
    {
      forall n, m | n in st.files && IsJsonl(n) && m in Load(st.files[n], maxlen)
        ensures n == FileName(m.to) && m.to == Load(st.files[n], maxlen)[0].to
      {
        var a :| a in st.mem && FileName(a) == n;
        assert st.mem[a].msgs == Load(st.files[n], maxlen);
      }
      forall a | Owns(st.files, a)
        ensures a in st.mem && st.mem[a].msgs != []
      {
        StoredOf(st.files, a);
        var b :| b in st.mem && FileName(b) == FileName(a);
        assert st.mem[b].msgs[0].to == b;
      }
      forall a | a in st.mem && st.mem[a].msgs != []
        ensures Owns(st.files, a)
      {
        assert st.mem[a].msgs[0].to == a;
      }
    }

    /** After a restart: the buffers that had messages, and no others, are back unchanged. */
    ghost predicate RestartOf(after: StoreState, before: StoreState) {
      && Rehydrated(after)
      && (forall a :: a in after.mem <==> a in before.mem && before.mem[a].msgs != [])
      && (forall a :: a in after.mem ==> after.mem[a] == before.mem[a])
    }

    /** A fresh cold start over any directory that scans like the one on disk gives back exactly
        the nonempty buffers, under the same addresses, in the same order. */
    lemma Restart(st: StoreState, disk: Files, names: seq<string>)
      requires Rehydrated(st) && SameQueues(disk, st.files) && Listing(names, disk)
      ensures RestartOf(LoadAll(StoreState(map[], disk), names), st)
    {
      RehydratedDisk(st);
      assert WellFiled(disk) by {
        forall n | n in disk && IsJsonl(n)
          ensures n in st.files && disk[n] == st.files[n]
        {
          assert FileAt(disk, n) == FileAt(st.files, n);
        }
      }
      ColdStart(disk, names);
      forall a
        ensures Stored(disk, a) == Stored(st.files, a)
      {
        StoredOf(disk, a);
      }
    }

    /** A crash before the last step of an append leaves a disk that scans like the one before it;
        after the last step it is the disk of the completed append. */
    lemma CrashOutcome(st: StoreState, address: string, m: Message, p: CrashPoint)
      requires Passes(Pushed(st, address, m), p)
      ensures if p.Done? then CrashDisk(st, address, m, p) == AppendTo(st, address, m).files
              else SameQueues(CrashDisk(st, address, m, p), st.files)
    {
      CrashIsHarmless(st.files, Get(st, address).mem[address].name, Pushed(st, address, m), p);
      hide Push, Flushed, Stored, SameQueues;
    }

    /** Wherever a crash interrupts an append, at whichever disk it passes through, the next cold
        start finds the queues either as they were before it or as they are after it. */
    lemma CrashDuringAppend(st: StoreState, address: string, m: Message, disk: Files, names: seq<string>)
      requires Rehydrated(st) && Alone(st.mem, address) && m.to == address
      requires disk in AppendTrace(st, address, m) && Listing(names, disk)
      ensures var after := LoadAll(StoreState(map[], disk), names);
        RestartOf(after, st) || RestartOf(after, AppendTo(st, address, m))
    {
      hide Rehydrated, Alone, Listing, LoadAll, RestartOf, Pushed, AppendTo, DiskAt, FlushTrace;
      TraceExact(st.files, Get(st, address).mem[address].name, Pushed(st, address, m), disk);
      var p :| Passes(Pushed(st, address, m), p) && disk == CrashDisk(st, address, m, p);
      CrashOutcome(st, address, m, p);
      if p.Done? {
        AppendKeeps(st, address, m);
        SameAsItself(disk);
        Restart(AppendTo(st, address, m), disk, names);
      } else {
        Restart(st, disk, names);
      }
    }
  }

  lemma SameAsItself(files: Files)
    ensures SameQueues(files, files)
  {
  }

  function QueueAt(queues: map<string, seq<Message>>, address: string): seq<Message> {
    if address in queues then queues[address] else []
  }

  function NonEmpty(queues: map<string, seq<Message>>): map<string, seq<Message>> {
    map a | a in queues && queues[a] != [] :: queues[a]
  }

  /** The lazy map itself. `state` is its abstract value, `contents` the messages per address. */
  class AddressableStore {
    const dir: Directory
    const config: StoreConfig
    var buffers: map<string, PersistentDeque>
    ghost var state: StoreState
    ghost var contents: map<string, seq<Message>>
    ghost var Repr: set<object>

    ghost predicate Valid()
      reads this, Repr
    {
      && this in Repr && dir in Repr && state.files == dir.files
      && state.mem.Keys == buffers.Keys == contents.Keys
      && (forall a :: a in buffers ==> Holds(a))
      && (forall a :: a in state.mem ==> contents[a] == state.mem[a].msgs)
    }

    /** The deque object behind an address agrees with the abstract value. */
    ghost predicate Holds(address: string)
      requires address in buffers && address in state.mem
      reads this, Repr
    {
      var buf := buffers[address];
      && buf in Repr && buf.key == address && buf.dir == dir && buf.maxlen == config.maxlen
      && state.mem[address] == Buffer(buf.name, buf.deque)
    }

    ghost predicate Rehydrated()
      reads this
    {
      config.Rehydrated(state)
    }

    /** The address collides with no other address in use. */
    ghost predicate Alone(address: string)
      reads this
    {
      config.Alone(state.mem, address)
    }

    constructor (dir: Directory, config: StoreConfig)
      ensures Valid() && Repr == {this, dir}
      ensures this.dir == dir && this.config == config
      ensures state == StoreState(map[], dir.files) && contents == map[]
    {
      this.dir, this.config := dir, config;
      buffers, contents := map[], map[];
      state := StoreState(map[], dir.files);
      Repr := {this, dir};
    }

    /** Registers a new deque. */
    method Insert(address: string, buf: PersistentDeque)
      requires Valid() && address !in buffers
      requires buf !in Repr && buf.dir == dir && buf.maxlen == config.maxlen
      modifies this, buf`key
      ensures Valid() && Repr == old(Repr) + {buf}
      ensures state == old(state).(mem := old(state.mem)[address := Buffer(buf.name, buf.deque)])
      ensures contents == old(contents)[address := buf.deque]
      ensures buffers == old(buffers)[address := buf]
    {
      buf.key := address;
      buffers := buffers[address := buf];
      state := state.(mem := state.mem[address := Buffer(buf.name, buf.deque)]);
      contents := contents[address := buf.deque];
      Repr := Repr + {buf};
    }

    method Get(address: string) returns (buf: PersistentDeque)
      requires Valid()
      modifies this
      ensures Valid() && fresh(Repr - old(Repr))
      ensures state == config.Get(old(state), address)
      ensures contents == old(contents)[address := state.mem[address].msgs]
      ensures address in buffers && buf == buffers[address]
      ensures address in old(contents) ==> Repr == old(Repr)
      ensures old(Rehydrated() && Alone(address)) ==>
        Rehydrated() && contents == old(contents)[address := QueueAt(old(contents), address)]
    {
      if Rehydrated() && Alone(address) {
        config.GetKeeps(state, address);
        config.NothingHidden(state, address);
      }
      if address in buffers {
        assert Holds(address);
        return buffers[address];
      }
      buf := new PersistentDeque(dir, config.FileName(address), config.maxlen);
      buf.Load();
      Insert(address, buf);
    }

    method HasMessages(address: string) returns (r: bool)
      requires Valid()
      ensures r <==> address in contents && contents[address] != []
    {
      r := address in buffers && |buffers[address].deque| > 0;
      assert address in buffers ==> Holds(address);
    }

    /** `get(address).append(m)`. */
    method AppendTo(address: string, m: Message) returns (ghost disks: seq<Files>)
      requires Valid()
      modifies Repr
      ensures Valid() && fresh(Repr - old(Repr))
      ensures state == config.AppendTo(old(state), address, m)
      ensures contents == old(contents)[address := state.mem[address].msgs]
      ensures disks == config.AppendTrace(old(state), address, m)
      ensures old(Rehydrated() && Alone(address)) && m.to == address ==>
        Rehydrated() && contents == old(contents)[address := Push(QueueAt(old(contents), address), m, config.maxlen)]
    {
      if Rehydrated() && Alone(address) && m.to == address {
        config.AppendKeeps(state, address, m);
        config.NothingHidden(state, address);
      }
      var buf := Get(address);
      ghost var msgs := state.mem[address].msgs;
      disks := AppendHere(address, m);
      Overwrite(old(contents), address, msgs, state.mem[address].msgs);
    }

    method AppendHere(address: string, m: Message) returns (ghost disks: seq<Files>)
      requires Valid() && address in buffers
      modifies Repr
      ensures Valid() && Repr == old(Repr)
      ensures var b := old(state.mem[address]);
              var msgs := Push(b.msgs, m, config.maxlen);
        && state == StoreState(old(state.mem)[address := Buffer(b.name, msgs)],
                               Flushed(old(state.files), b.name, msgs))
        && contents == old(contents)[address := msgs]
      ensures var b := old(state.mem[address]);
        disks == FlushTrace(old(state.files), b.name, Push(b.msgs, m, config.maxlen))
    {
      assert Holds(address);
      var buf := buffers[address];
      disks := buf.Append(m);
      Refresh(address);
    }

    /** `get(address).drain()`. */
    method DrainAt(address: string) returns (msgs: seq<Message>)
      requires Valid()
      modifies Repr
      ensures Valid() && fresh(Repr - old(Repr))
      ensures state == config.DrainAt(old(state), address)
      ensures contents == old(contents)[address := []]
      ensures msgs == config.Get(old(state), address).mem[address].msgs
      ensures address in old(contents) ==> Repr == old(Repr)
      ensures old(Rehydrated() && Alone(address)) ==>
        Rehydrated() && msgs == QueueAt(old(contents), address)
    {
      if Rehydrated() && Alone(address) {
        config.DrainKeeps(state, address);
        config.NothingHidden(state, address);
      }
      var buf := Get(address);
      msgs := DrainHere(address);
      Overwrite(old(contents), address, msgs, []);
    }

    method DrainHere(address: string) returns (msgs: seq<Message>)
      requires Valid() && address in buffers
      modifies Repr
      ensures Valid() && Repr == old(Repr)
      ensures var b := old(state.mem[address]);
        && state == StoreState(old(state.mem)[address := Buffer(b.name, [])],
                               old(state.files) - {b.name})
        && contents == old(contents)[address := []]
        && msgs == b.msgs
    {
      assert Holds(address);
      var buf := buffers[address];
      msgs := buf.Drain();
      Refresh(address);
    }

    /** Brings the abstract value up to date after one deque and the directory have changed. */
    ghost method Refresh(address: string)
      requires this in Repr && dir in Repr && address in buffers
      requires state.mem.Keys == buffers.Keys == contents.Keys
      requires forall a :: a in buffers && a != address ==> Holds(a)
      requires forall a :: a in state.mem ==> contents[a] == state.mem[a].msgs
      requires buffers[address] in Repr && buffers[address].key == address
      requires buffers[address].dir == dir && buffers[address].maxlen == config.maxlen
      modifies this`state, this`contents
      ensures Valid()
      ensures state == StoreState(old(state.mem)[address := Buffer(buffers[address].name, buffers[address].deque)],
                                  dir.files)
      ensures contents == old(contents)[address := buffers[address].deque]
    {
      var buf := buffers[address];
      state := StoreState(state.mem[address := Buffer(buf.name, buf.deque)], dir.files);
      contents := contents[address := buf.deque];
    }

    /** The cold-start scan over the sorted listing of the queue files. */
    method LoadAll(names: seq<string>)
      requires Valid()
      modifies this, dir
      ensures Valid() && fresh(Repr - old(Repr))
      ensures state == config.LoadAll(old(state), names)
    {
      for i := 0 to |names|
        invariant Valid() && fresh(Repr - old(Repr))
        invariant state == config.LoadAll(old(state), names[..i])
      {
        assert names[..i + 1][..i] == names[..i];
        LoadFile(names[i]);
      }
      assert names[..|names|] == names;
    }

    method LoadFile(name: string)
      requires Valid()
      modifies this, dir
      ensures Valid() && fresh(Repr - old(Repr))
      ensures state == config.LoadOne(old(state), name)
    {
      var buf := new PersistentDeque(dir, name, config.maxlen);
      buf.Load();
      if buf.deque == [] {
        dir.files := dir.files - {name};
        state := state.(files := dir.files);
        return;
      }
      var address := buf.deque[0].to;
      if address !in buffers {
        Insert(address, buf);
      }
    }
  }
}
