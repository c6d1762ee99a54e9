/** Every handler, whatever the system calls answer, keeps the invariant of its connection and stays isolated. */
module ConnectionProofs {
  import opened Text
  import opened Requests
  import opened Storage
  import opened Connection
  import opened ConnectionInvariant

  // ---------------------------------------------------------------------------
  // The shared state

  lemma IssuedIsTemp(name: string, sequence: nat)
    requires Issued(name, sequence)
    ensures IsTempName(name) && name != ""
  {
  }

  lemma NextTempIsNew(fd: nat, sequence: nat)
    ensures !Issued(TempName(fd, sequence + 1), sequence)
  {
    forall fd': nat, s: nat | s <= sequence
      ensures TempName(fd, sequence + 1) != TempName(fd', s)
    {
      if TempName(fd, sequence + 1) == TempName(fd', s) {
        TempNameInjective(fd, sequence + 1, fd', s);
      }
    }
  }

  lemma IsolatedSelf(w: World, own: string)
    requires w.disk.Valid() && (own == "" || (exists s: nat, fd: nat | s <= w.sequence :: own == TempName(fd, s)))
    requires own == "" || own in w.disk.names
    ensures Isolated(w, w, own, own)
  {
  }

  lemma IsolatedThen(w: World, w': World, w'': World, a: string, b: string, c: string)
    requires Isolated(w, w', a, b) && Isolated(w', w'', b, c)
    ensures Isolated(w, w'', a, c)
  {
    forall n | Issued(n, w.sequence) && n != a
      ensures SameTemp(w.disk, w''.disk, n)
    {
      IssuedIsTemp(n, w.sequence);
      assert SameTemp(w.disk, w'.disk, n);
      assert Issued(n, w'.sequence);
      assert n != b;
      assert SameTemp(w'.disk, w''.disk, n);
    }
    if Issued(c, w.sequence) {
      IssuedIsTemp(c, w.sequence);
      assert Issued(c, w'.sequence);
    }
  }

  /** Removing the own temporary file. */
  lemma RemoveIsolated(init: map<string, string>, w: World, temp: string)
    requires w in GoodWorlds(init) && IsTempName(temp)
    ensures var w' := w.(disk := w.disk.Remove(temp));
            Isolated(w, w', temp, "") && w' in GoodWorlds(init) && w'.log == w.log
  {
    RemoveTemp(w.disk, temp);
    forall n | Issued(n, w.sequence) && n != temp
      ensures SameTemp(w.disk, w.disk.Remove(temp), n)
    {
      IssuedIsTemp(n, w.sequence);
    }
  }

  /** The file behind a temporary name is emptied, created or extended. */
  lemma WriteIsolated(init: map<string, string>, w: World, w': World, own: string, temp: string)
    requires w in GoodWorlds(init) && IsTempName(temp)
    requires own == temp || (own == "" && !Issued(temp, w.sequence))
    requires w'.disk.Valid() && KeepsFrozen(w.disk, w'.disk) && KeepsTemps(w.disk, w'.disk, temp)
    requires w'.disk.Visible() == w.disk.Visible() && w'.log == w.log && w.sequence <= w'.sequence
    ensures Isolated(w, w', own, temp) && w' in GoodWorlds(init)
  {
    forall n | Issued(n, w.sequence) && n != own
      ensures SameTemp(w.disk, w'.disk, n)
    {
      IssuedIsTemp(n, w.sequence);
    }
  }

  lemma PublishIsolated(init: map<string, string>, w: World, temp: string, name: string)
    requires w in GoodWorlds(init) && IsTempName(temp) && temp in w.disk.names && !IsTempName(name)
    ensures var contents := w.disk.data[w.disk.names[temp]];
            var w' := w.(disk := w.disk.Rename(temp, name), log := w.log + [Commit(name, contents)]);
            Isolated(w, w', temp, "") && w' in GoodWorlds(init)
  {
    PublishTemp(w.disk, temp, name);
    var contents := w.disk.data[w.disk.names[temp]];
    var w' := w.(disk := w.disk.Rename(temp, name), log := w.log + [Commit(name, contents)]);
    forall n | Issued(n, w.sequence) && n != temp
      ensures SameTemp(w.disk, w'.disk, n)
    {
      IssuedIsTemp(n, w.sequence);
    }
    assert w'.log[..|w'.log| - 1] == w.log;
  }

  // ---------------------------------------------------------------------------
  // Closing and errors

  lemma OwnTempIssued(w: World, c: Conn)
    requires OwnsTemp(w, c)
    ensures Issued(c.temp, w.sequence) && IsTempName(c.temp) && c.temp != ""
  {
    var s: nat :| s <= w.sequence && c.temp == TempName(c.fd, s);
  }

  lemma InvTemp(init: map<string, string>, w: World, c: Conn)
    requires c in SoundConns(init, w)
    ensures c.temp != "" ==> Issued(c.temp, w.sequence) && IsTempName(c.temp) && c.temp in w.disk.names
  {
    if c.temp != "" {
      OwnTempIssued(w, c);
    }
  }

  lemma Unmoved(init: map<string, string>, w: World, c: Conn)
    requires c in SoundConns(init, w) && w in GoodWorlds(init)
    ensures Isolated(w, w, c.temp, c.temp)
  {
    InvTemp(init, w, c);
    IsolatedSelf(w, c.temp);
  }

  lemma CleanUp(init: map<string, string>, w: World, c: Conn)
    requires w in GoodWorlds(init) && (c.temp == "" || IsTempName(c.temp))
    ensures var w' := RemoveTemporary(w, c);
            Isolated(w, w', c.temp, "") && w' in GoodWorlds(init) && w'.log == w.log
  {
    if c.temp == "" {
      IsolatedSelf(w, "");
    } else {
      RemoveIsolated(init, w, c.temp);
    }
  }

  /** What another connection does to the shared state does not disturb this one. */
  lemma OthersKeep(init: map<string, string>, w: World, w': World, c: Conn, own: string, own': string)
    requires c in SoundConns(init, w) && Isolated(w, w', own, own') && w.log <= w'.log
    requires c.temp == "" || c.temp != own
    ensures c in SoundConns(init, w')
  {
    match c.state {
      case SendingGetHeader =>
        assert w'.log[..c.past.point] == w.log[..c.past.point];
      case SendingFile =>
        assert w'.log[..c.past.point] == w.log[..c.past.point];
      case SendingReady => OthersKeepTemp(w, w', c, own, own');
      case ReceivingFile => OthersKeepTemp(w, w', c, own, own');
      case _ =>
    }
  }

  lemma OthersKeepTemp(w: World, w': World, c: Conn, own: string, own': string)
    requires Uploading(w, c) && Isolated(w, w', own, own')
    requires c.temp == "" || c.temp != own
    ensures Uploading(w', c)
  {
    if c.Live() {
      OwnTempIssued(w, c);
      assert SameTemp(w.disk, w'.disk, c.temp);
      assert w.disk.data[c.output] == c.past.payload;
    }
  }

  lemma ClosedInv(init: map<string, string>, w: World, c: Conn)
    requires c in SoundConns(init, w)
    ensures CloseClient(w, c).c in GoodConns(init, w)
  {
    var c' := CloseClient(w, c).c;
    assert c' == c.(inputOpen := false, outputOpen := false, temp := "", fd := c'.fd) && !c'.Live() && c'.WellFormed();
    assert Promised(c') == Promised(c);
    hide CloseClient, Promised, OkLine, READY_LINE, ErrorLine, OwnsTemp, Disk.Frozen, ServedFrom, Conn.WellFormed;
  }

  lemma ClosedIdle(w: World, c: Conn)
    requires c.WellFormed()
    ensures var r := CloseClient(w, c); r.c.temp == "" && !r.c.Live() && HasOutput(r.c) && r.c.past == c.past
  {
  }

  /** Closing never changes what the connection has said or what it has stored. */
  lemma {:induction false} CloseKeeps(init: map<string, string>, w: World, c: Conn)
    requires c in SoundConns(init, w) && w in GoodWorlds(init)
    ensures var r := CloseClient(w, c); r in GoodSteps(init, w, c) && r.c in GoodConns(init, r.w) && !r.c.Live()
  {
    InvTemp(init, w, c);
    hide SoundConns, GoodConns, GoodWorlds, IsTempName, Issued;
    CleanUp(init, w, c);
    ClosedInv(init, w, c);
    var r := CloseClient(w, c);
    ClosedIdle(w, c);
    OthersKeep(init, w, r.w, r.c, c.temp, "");
  }

  /** The effect of a refusal on the shared state; `c` has just received its last bytes. */
  lemma RefuseKeeps(init: map<string, string>, w: World, c: Conn, reason: string)
    requires c.WellFormed() && c.window == "" && c.pending == ""
    requires w in GoodWorlds(init) && (c.temp == "" || IsTempName(c.temp))
    requires c.past.sent == "" || c.past.sent == READY_LINE
    ensures var r := QueueError(w, c, reason); r in GoodSteps(init, w, c) && r.w.log == w.log
  {
    CleanUp(init, w, c);
    var r := QueueError(w, c, reason);
    assert r.c.Unsent() == ErrorLine(reason);
    if c.past.sent == "" {
      assert Promised(r.c) == ErrorLine(reason);
    } else {
      assert Promised(r.c) == READY_LINE + ErrorLine(reason);
    }
  }

  // ---------------------------------------------------------------------------
  // Steps put together

  /** A step that leaves the shared state as it is. */
  lemma KeptInPlace(init: map<string, string>, w: World, c: Conn, s: Step)
    requires c in SoundConns(init, w) && w in GoodWorlds(init) && s.w == w
    requires s.c in SoundConns(init, w) && (s.ok ==> HasOutput(s.c)) && s.c.temp == c.temp && s.c.fd == c.fd
    requires c.past.received <= s.c.past.received && c.past.sent <= s.c.past.sent
    ensures s in GoodSteps(init, w, c)
  {
    Unmoved(init, w, c);
  }

  /** Receiving bytes first and handling them then counts as one step. */
  lemma KeptFromReceipt(init: map<string, string>, w: World, c: Conn, c': Conn, s: Step)
    requires s in GoodSteps(init, w, c')
    requires c'.temp == c.temp && c'.fd == c.fd && c.past.sent == c'.past.sent && c.past.received <= c'.past.received
    ensures s in GoodSteps(init, w, c)
  {
  }

  lemma KeptThen(init: map<string, string>, w: World, c: Conn, w': World, c': Conn, s: Step)
    requires Isolated(w, w', c.temp, c'.temp) && w'.log == w.log && s in GoodSteps(init, w', c')
    requires c'.fd == c.fd && c.past.sent <= c'.past.sent && c.past.received <= c'.past.received
    ensures s in GoodSteps(init, w, c)
  {
    IsolatedThen(w, w', s.w, c.temp, c'.temp, s.c.temp);
  }

  // ---------------------------------------------------------------------------
  // The request

  lemma StartGetKeeps(init: map<string, string>, w: World, c: Conn, name: string, files: FileOutcomes)
    requires c.WellFormed() && c.window == "" && c.pending == "" && c.past.sent == "" && c.Live() && Idle(c)
    requires w in GoodWorlds(init)
    requires c.past.asked == Some(Get(name)) && c.past.payload == "" && !IsTempName(name)
    ensures var s := StartGet(w, c, name, files); s in GoodSteps(init, w, c) && s.w.log == w.log
  {
    var s := StartGet(w, c, name, files);
    if s.c.state.SendingError? {
      var reason := if !files.found || name !in w.disk.names then "not-found" else "not-readable";
      var c1 := s.c.(state := c.state, pending := "", pendingOffset := 0);
      assert s == QueueError(w, c1, reason);
      hide GoodSteps, StartGet;
      RefuseKeeps(init, w, c1, reason);
      KeptFromReceipt(init, w, c, c1, s);
    } else {
      ServesVisible(init, w, name);
      GetHeaderKeeps(init, w, c, name);
    }
  }

  lemma GetHeaderKeeps(init: map<string, string>, w: World, c: Conn, name: string)
    requires c.WellFormed() && c.window == "" && c.past.sent == "" && c.Live() && Idle(c)
    requires w in GoodWorlds(init)
    requires c.past.asked == Some(Get(name)) && c.past.payload == ""
    requires name in w.disk.names && w.disk.Frozen(w.disk.names[name])
    requires ServedFrom(Replay(init, w.log[..|w.log|]), name, w.disk.data[w.disk.names[name]])
    ensures var size := |w.disk.Contents(w.disk.names[name])|;
            var c' := c.(input := w.disk.names[name], inputOpen := true, expected := size, transferred := 0,
                         position := 0, pending := OkLine(size), pendingOffset := 0, state := SendingGetHeader,
                         past := c.past.(point := |w.log|));
            Step(w, c', true) in GoodSteps(init, w, c)
  {
    IsolatedSelf(w, "");
    GoodWorldHas(init, w);
    var file := w.disk.names[name];
    var size := |w.disk.Contents(file)|;
    assert OkLine(size)[0..] == OkLine(size);
    assert file in w.disk.data && |w.disk.data[file]| == size;
    hide OkLine, Disk.Frozen, Isolated, ServedFrom, Replay, GoodWorlds, Disk.Contents, History;
    var c' := c.(input := file, inputOpen := true, expected := size, transferred := 0, position := 0,
                 pending := OkLine(size), pendingOffset := 0, state := SendingGetHeader,
                 past := c.past.(point := |w.log|));
    assert Serving(init, w, c');
    assert Promised(c') == OkLine(size) by {
      assert "" + OkLine(size) == OkLine(size);
    }
    HeaderKept(init, w, c, Step(w, c', true));
  }

  lemma HeaderKept(init: map<string, string>, w: World, c: Conn, s: Step)
    requires s.c.WellFormed() && s.c.state.SendingGetHeader? && s.c.Live() && Serving(init, s.w, s.c)
    requires Promised(s.c) == OkLine(s.c.expected) && s.c.pendingOffset < |s.c.pending|
    requires s.c.transferred == 0 && s.c.position == 0
    requires Isolated(w, s.w, c.temp, s.c.temp) && History(init, s.w) && s.w.log == w.log && s.c.fd == c.fd
    requires c.past.received <= s.c.past.received && c.past.sent <= s.c.past.sent
    ensures s in GoodSteps(init, w, c)
  {
    hide Isolated, History, OkLine, Serving, Promised;
  }

  lemma GoodWorldHas(init: map<string, string>, w: World)
    requires w in GoodWorlds(init)
    ensures History(init, w)
  {
  }

  /** A download takes the contents that the visible store has under the name at that moment. */
  lemma ServesVisible(init: map<string, string>, w: World, name: string)
    requires w in GoodWorlds(init) && name in w.disk.names && !IsTempName(name)
    ensures w.disk.Frozen(w.disk.names[name])
    ensures ServedFrom(Replay(init, w.log[..|w.log|]), name, w.disk.data[w.disk.names[name]])
  {
    VisibleIsFrozen(w.disk, name);
    assert w.disk.Visible()[name] == w.disk.data[w.disk.names[name]];
    assert w.log[..|w.log|] == w.log;
  }

  /** The temporary file is there, empty, and `READY` is queued. */
  lemma CreateKeeps(init: map<string, string>, w: World, c: Conn)
    requires c.WellFormed() && c.window == "" && c.pending == "" && c.past.sent == "" && c.Live()
    requires !c.inputOpen && w in GoodWorlds(init) && c.temp == TempName(c.fd, w.sequence + 1)
    requires !Issued(c.temp, w.sequence) && c.transferred == 0 && c.past.payload == ""
    requires c.past.asked == Some(Put(c.final, c.expected)) && c.expected <= MAX_UPLOAD_BYTES
    ensures var (disk, file) := w.disk.Truncate(c.temp);
            var w' := w.(sequence := w.sequence + 1, disk := disk);
            var c' := c.(output := file, outputOpen := true, pending := READY_LINE, pendingOffset := 0,
                         state := SendingReady);
            Step(w', c', true) in GoodSteps(init, w, c.(temp := ""))
  {
    var (disk, file) := w.disk.Truncate(c.temp);
    var w' := w.(sequence := w.sequence + 1, disk := disk);
    var c' := c.(output := file, outputOpen := true, pending := READY_LINE, pendingOffset := 0, state := SendingReady);
    TruncateTemp(w.disk, c.temp);
    WriteIsolated(init, w, w', "", c.temp);
    GoodWorldHas(init, w');
    assert c'.Unsent() == READY_LINE && READY_LINE != "";
    assert OwnsTemp(w', c');
    hide Disk.Truncate, Isolated, History, OwnsTemp, READY_LINE, KeepsFrozen, KeepsTemps, Disk.Visible, GoodWorlds,
         Issued, TempName;
    assert Promised(c') == READY_LINE by {
      assert "" + READY_LINE == READY_LINE;
    }
    ReadyKept(init, w, c.(temp := ""), Step(w', c', true));
  }

  lemma ReadyKept(init: map<string, string>, w: World, c: Conn, s: Step)
    requires s.c.WellFormed() && s.c.state.SendingReady? && s.c.Live() && Uploading(s.w, s.c) && s.c.transferred == 0
    requires Promised(s.c) == READY_LINE && s.c.pendingOffset < |s.c.pending|
    requires Isolated(w, s.w, c.temp, s.c.temp) && History(init, s.w) && s.w.log == w.log && s.c.fd == c.fd
    requires c.past.received <= s.c.past.received && c.past.sent <= s.c.past.sent
    ensures s in GoodSteps(init, w, c)
  {
    hide Isolated, History, READY_LINE, Uploading, Promised;
  }

  lemma StartPutKeeps(init: map<string, string>, w: World, c: Conn, name: string, size: nat, files: FileOutcomes)
    requires c.WellFormed() && c.window == "" && c.pending == "" && c.past.sent == "" && c.Live() && Idle(c)
    requires w in GoodWorlds(init)
    requires c.past.asked == Some(Put(name, size)) && c.past.payload == "" && size <= MAX_UPLOAD_BYTES
    ensures var s := StartPut(w, c, name, size, files); s in GoodSteps(init, w, c) && s.w.log == w.log
  {
    if files.canCreate {
      PutCreates(init, w, c, name, size, files);
    } else {
      PutCreatesNot(init, w, c, name, size, files);
    }
  }

  lemma PutCreates(init: map<string, string>, w: World, c: Conn, name: string, size: nat, files: FileOutcomes)
    requires c.WellFormed() && c.window == "" && c.pending == "" && c.past.sent == "" && c.Live() && Idle(c)
    requires w in GoodWorlds(init) && files.canCreate
    requires c.past.asked == Some(Put(name, size)) && c.past.payload == "" && size <= MAX_UPLOAD_BYTES
    ensures var s := StartPut(w, c, name, size, files); s in GoodSteps(init, w, c) && s.w.log == w.log
  {
    var c1 := c.(expected := size, transferred := 0, final := name, temp := TempName(c.fd, w.sequence + 1));
    NextTempIsNew(c.fd, w.sequence);
    hide GoodSteps, TempName, GoodWorlds, Issued, Disk.Truncate, READY_LINE;
    CreateKeeps(init, w, c1);
    KeptFromReceipt(init, w, c, c1.(temp := ""), StartPut(w, c, name, size, files));
  }

  lemma PutCreatesNot(init: map<string, string>, w: World, c: Conn, name: string, size: nat, files: FileOutcomes)
    requires c.WellFormed() && c.window == "" && c.pending == "" && c.past.sent == "" && c.Live() && Idle(c)
    requires w in GoodWorlds(init) && !files.canCreate
    ensures var s := StartPut(w, c, name, size, files); s in GoodSteps(init, w, c) && s.w.log == w.log
  {
    var w1 := w.(sequence := w.sequence + 1);
    var c1 := c.(expected := size, transferred := 0, final := name, temp := TempName(c.fd, w.sequence + 1));
    NextTempIsNew(c.fd, w.sequence);
    NextSequence(init, w, c1.temp, c.fd);
    PutNotCreated(w, c, name, size, files);
    hide StartPut, GoodSteps, TempName, GoodWorlds, Issued, Isolated, QueueError, IsTempName, READY_LINE, Idle;
    var s := QueueError(w1, c1, "storage-failure");
    assert s in GoodSteps(init, w1, c1) && s.w.log == w.log by {
      RefuseKeeps(init, w1, c1, "storage-failure");
    }
    KeptThen(init, w, c, w1, c1, s);
  }

  lemma PutNotCreated(w: World, c: Conn, name: string, size: nat, files: FileOutcomes)
    requires c.WellFormed() && c.window == "" && c.Live() && !files.canCreate
    ensures StartPut(w, c, name, size, files)
            == QueueError(w.(sequence := w.sequence + 1),
                          c.(expected := size, transferred := 0, final := name, temp := TempName(c.fd, w.sequence + 1)),
                          "storage-failure")
  {
    hide TempName, QueueError;
  }

  /** A temporary name is taken, but the file is not created. */
  lemma NextSequence(init: map<string, string>, w: World, temp: string, fd: nat)
    requires w in GoodWorlds(init) && temp == TempName(fd, w.sequence + 1) && !Issued(temp, w.sequence)
    ensures var w' := w.(sequence := w.sequence + 1);
            Isolated(w, w', "", temp) && w' in GoodWorlds(init) && IsTempName(temp)
  {
    assert IsTempName(temp);
    hide Issued, TempName;
    WriteIsolated(init, w, w.(sequence := w.sequence + 1), "", temp);
  }

  /** A connection that has said nothing and asked for nothing yet. */
  predicate Fresh(c: Conn) {
    c.WellFormed() && c.Live() && c.window == "" && c.pending == "" && c.past.sent == "" && c.past.asked.None?
      && c.past.payload == ""
    && c.temp == "" && !c.inputOpen && !c.outputOpen
  }

  lemma RequestLineKeeps(init: map<string, string>, w: World, c: Conn, line: string, files: FileOutcomes)
    requires Fresh(c) && w in GoodWorlds(init)
    requires NoTempRequest(RequestLine(w, c, line, files).c)
    ensures var s := RequestLine(w, c, line, files); s in GoodSteps(init, w, c) && s.w.log == w.log
  {
    match ParseRequest(line) {
      case Rejected(reason) => RefuseKeeps(init, w, c, reason);
      case Accepted(request) =>
        var c1 := c.(past := c.past.Asks(request, w, files));
        StartKeeps(init, w, c1, request, files);
        KeptFromReceipt(init, w, c, c1, StartRequest(w, c1, request, files));
    }
  }

  lemma StartKeeps(init: map<string, string>, w: World, c: Conn, request: Request, files: FileOutcomes)
    requires Fresh(c.(past := c.past.(asked := None))) && w in GoodWorlds(init)
    requires c.past.asked == Some(request) && ValidRequest(request)
    requires NoTempRequest(StartRequest(w, c, request, files).c)
    ensures var s := StartRequest(w, c, request, files); s in GoodSteps(init, w, c) && s.w.log == w.log
  {
    match request {
      case Get(name) => StartGetKeeps(init, w, c, name, files);
      case Put(name, size) => StartPutKeeps(init, w, c, name, size, files);
    }
  }

  lemma RequestDataKeeps(init: map<string, string>, w: World, c: Conn, bytes: string, files: FileOutcomes)
    requires Fresh(c) && c in GoodConns(init, w) && w in GoodWorlds(init) && c.state.AwaitingRequest?
    requires NoTempRequest(RequestData(w, c, bytes, files).c)
    ensures var s := RequestData(w, c, bytes, files); s in GoodSteps(init, w, c) && s.w.log == w.log
  {
    var s := RequestData(w, c, bytes, files);
    var c1 := c.(request := c.request + bytes, past := c.past.Hears(bytes));
    var newline := Find(c1.request, '\n');
    if newline == |c1.request| <= MAX_REQUEST_LINE {
      KeptInPlace(init, w, c, s);
    } else if newline == |c1.request| || newline + 1 != |c1.request| || newline > MAX_REQUEST_LINE {
      RefuseKeeps(init, w, c1, if newline == |c1.request| then "request-too-long" else "bad-request");
      KeptFromReceipt(init, w, c, c1, s);
    } else {
      var c2 := c1.(request := "");
      RequestLineKeeps(init, w, c2, c1.request[..newline], files);
      KeptFromReceipt(init, w, c, c2, s);
    }
  }

  // ---------------------------------------------------------------------------
  // Uploads

  /** The payload is complete: either it becomes visible in one commit, or nothing does. */
  lemma CompleteKeeps(init: map<string, string>, w: World, c: Conn, files: FileOutcomes)
    requires c.WellFormed() && c.window == "" && c.pending == "" && c.past.sent == READY_LINE
    requires w in GoodWorlds(init) && Uploading(w, c) && c.Live() && NoTempRequest(c)
    requires |c.past.payload| == c.expected
    ensures var s := CompleteUpload(w, c, files); s in GoodSteps(init, w, c)
  {
    OwnTempIssued(w, c);
    var s := CompleteUpload(w, c, files);
    if s.c.state.SendingError? {
      var c1 := c.(outputOpen := false, past := c.past.(calls := files));
      assert s == QueueError(w, c1, "storage-failure");
      hide CompleteUpload, QueueError, GoodSteps, GoodWorlds, OwnsTemp, IsTempName, Issued;
      RefuseKeeps(init, w, c1, "storage-failure");
      KeptFromReceipt(init, w, c, c1, s);
    } else {
      PublishKept(init, w, c, files);
    }
  }

  lemma PublishKept(init: map<string, string>, w: World, c: Conn, files: FileOutcomes)
    requires c.WellFormed() && c.window == "" && c.pending == "" && c.past.sent == READY_LINE
    requires w in GoodWorlds(init) && Uploading(w, c) && c.Live() && NoTempRequest(c)
    requires |c.past.payload| == c.expected && files.canClose && files.canRename
    ensures CompleteUpload(w, c, files) in GoodSteps(init, w, c)
  {
    OwnTempIssued(w, c);
    PublishIsolated(init, w, c.temp, c.final);
    var w' := w.(disk := w.disk.Rename(c.temp, c.final), log := w.log + [Commit(c.final, c.past.payload)]);
    PublishedConn(w, c, w', files);
    GoodWorldHas(init, w');
    hide CompleteUpload, GoodWorlds, History, Isolated, Uploading, OwnsTemp, IsTempName, Issued, Disk.Rename, OkLine,
         READY_LINE, Stored, NoTempRequest;
    var s := CompleteUpload(w, c, files);
    assert s.c.Unsent() == OkLine(c.expected);
    assert Promised(s.c) == READY_LINE + OkLine(c.expected);
    ResultKept(init, w, c, s);
  }

  lemma ResultKept(init: map<string, string>, w: World, c: Conn, s: Step)
    requires s.c.WellFormed() && s.c.state.SendingResult? && s.c.Live() && Stored(s.w, s.c)
    requires Promised(s.c) == READY_LINE + OkLine(s.c.expected) && s.c.pendingOffset < |s.c.pending|
    requires Isolated(w, s.w, c.temp, s.c.temp) && History(init, s.w) && s.c.past.point == |w.log|
    requires s.w.log == w.log + [Commit(s.c.final, s.c.past.payload)]
    requires s.c.fd == c.fd && c.past.received <= s.c.past.received && c.past.sent <= s.c.past.sent
    ensures s in GoodSteps(init, w, c)
  {
    hide Isolated, History, OkLine, READY_LINE, Stored, Promised;
  }

  /** The connection after its commit. */
  lemma PublishedConn(w: World, c: Conn, w': World, files: FileOutcomes)
    requires c.WellFormed() && c.window == "" && Uploading(w, c) && c.Live() && |c.past.payload| == c.expected
    requires files.canClose && files.canRename
    requires w' == w.(disk := w.disk.Rename(c.temp, c.final), log := w.log + [Commit(c.final, c.past.payload)])
    ensures var s := CompleteUpload(w, c, files);
            && s.w == w' && Stored(w', s.c) && s.c.state.SendingResult? && s.c.temp == "" && s.c.final == c.final
            && s.c.pending == OkLine(c.expected) && s.c.pendingOffset == 0 && s.c.expected == c.expected
            && s.c.past == c.past.(calls := files, point := |w.log|) && s.c.fd == c.fd
  {
    hide Disk.Rename, OkLine, TempName;
  }

  /** The accepted part of the payload goes to the end of the own temporary file. */
  lemma StoreKeeps(init: map<string, string>, w: World, c: Conn, bytes: string)
    requires c.WellFormed() && w in GoodWorlds(init) && OwnsTemp(w, c)
    requires |c.past.payload| + |bytes| <= MAX_FILE_SIZE
    ensures var w' := w.(disk := w.disk.Append(c.output, bytes));
            && Isolated(w, w', c.temp, c.temp) && w' in GoodWorlds(init)
            && w'.disk.names == w.disk.names && w'.disk.data[c.output] == c.past.payload + bytes
  {
    OwnTempIssued(w, c);
    AppendTemp(w.disk, c.temp, bytes);
    WriteIsolated(init, w, w.(disk := w.disk.Append(c.output, bytes)), c.temp, c.temp);
  }

  lemma UploadFailedKeeps(init: map<string, string>, w: World, c: Conn, bytes: string, files: FileOutcomes)
    requires c in GoodConns(init, w) && w in GoodWorlds(init) && c.Live() && c.state.ReceivingFile?
    ensures var c1 := c.(past := c.past.HearsPayload(bytes, files));
            QueueError(w, c1, "storage-failure") in GoodSteps(init, w, c)
  {
    OwnTempIssued(w, c);
    var c1 := c.(past := c.past.HearsPayload(bytes, files));
    RefuseKeeps(init, w, c1, "storage-failure");
    KeptFromReceipt(init, w, c, c1, QueueError(w, c1, "storage-failure"));
  }

  lemma UploadTooLongKeeps(init: map<string, string>, w: World, c: Conn, bytes: string, files: FileOutcomes)
    requires c in GoodConns(init, w) && w in GoodWorlds(init) && c.Live() && c.state.ReceivingFile?
    requires c.transferred + |bytes| > c.expected
    ensures var w' := Appended(w, c, bytes[..c.expected - c.transferred]);
            var c' := c.(past := c.past.HearsPayload(bytes, files), transferred := c.expected);
            QueueError(w', c', "protocol-error") in GoodSteps(init, w, c)
  {
    OwnTempIssued(w, c);
    var w' := w.(disk := w.disk.Append(c.output, bytes[..c.expected - c.transferred]));
    var c' := c.(past := c.past.HearsPayload(bytes, files), transferred := c.expected);
    StoreKeeps(init, w, c, bytes[..c.expected - c.transferred]);
    RefuseKeeps(init, w', c', "protocol-error");
    KeptThen(init, w, c, w', c', QueueError(w', c', "protocol-error"));
  }

  /** The upload after more bytes that fit. */
  lemma StillUploading(init: map<string, string>, w: World, c: Conn, bytes: string, files: FileOutcomes)
    requires c in GoodConns(init, w) && w in GoodWorlds(init) && c.Live() && c.state.ReceivingFile?
    requires c.transferred + |bytes| <= c.expected
    ensures var w', c' := Appended(w, c, bytes), Grown(c, bytes, files);
            && Isolated(w, w', c.temp, c.temp) && w' in GoodWorlds(init) && Uploading(w', c') && c'.WellFormed()
            && c'.window == "" && c'.pending == "" && c'.past.sent == READY_LINE && c'.transferred == |c'.past.payload|
  {
    StoreKeeps(init, w, c, bytes);
    hide Isolated, GoodWorlds, Disk.Append, TempName;
  }

  lemma UploadGoesOnKeeps(init: map<string, string>, w: World, c: Conn, bytes: string, files: FileOutcomes)
    requires c in GoodConns(init, w) && w in GoodWorlds(init) && c.Live() && c.state.ReceivingFile?
    requires c.transferred + |bytes| < c.expected
    ensures var w', c' := Appended(w, c, bytes), Grown(c, bytes, files);
            Step(w', c', true) in GoodSteps(init, w, c)
  {
    StillUploading(init, w, c, bytes, files);
    hide GoodConns, Isolated, GoodWorlds, Disk.Append, Uploading;
  }

  lemma UploadEndsKeeps(init: map<string, string>, w: World, c: Conn, bytes: string, files: FileOutcomes)
    requires c in GoodConns(init, w) && w in GoodWorlds(init) && c.Live() && c.state.ReceivingFile? && NoTempRequest(c)
    requires c.transferred + |bytes| == c.expected
    ensures var w', c' := Appended(w, c, bytes), Grown(c, bytes, files);
            CompleteUpload(w', c', files) in GoodSteps(init, w, c)
  {
    var w', c' := Appended(w, c, bytes), Grown(c, bytes, files);
    StillUploading(init, w, c, bytes, files);
    hide GoodSteps, GoodConns, GoodWorlds, Uploading, Isolated, Disk.Append, CompleteUpload;
    CompleteKeeps(init, w', c', files);
    KeptThen(init, w, c, w', c', CompleteUpload(w', c', files));
  }

  lemma UploadDataKeeps(init: map<string, string>, w: World, c: Conn, bytes: string, files: FileOutcomes)
    requires c in GoodConns(init, w) && w in GoodWorlds(init) && c.Live() && c.state.ReceivingFile? && NoTempRequest(c)
    ensures UploadData(w, c, bytes, files) in GoodSteps(init, w, c)
  {
    assert c.transferred < c.expected && c.WellFormed() && c.window == "";
    hide UploadData, QueueError, CompleteUpload, GoodSteps, GoodConns, GoodWorlds, NoTempRequest, Disk.Append,
         Conn.WellFormed;
    if !files.canWrite {
      WriteFails(w, c, bytes, files);
      UploadFailedKeeps(init, w, c, bytes, files);
    } else if c.transferred + |bytes| > c.expected {
      WriteOverflows(w, c, bytes, files);
      UploadTooLongKeeps(init, w, c, bytes, files);
    } else if c.transferred + |bytes| < c.expected {
      WriteGoesOn(w, c, bytes, files);
      UploadGoesOnKeeps(init, w, c, bytes, files);
    } else {
      WriteCompletes(w, c, bytes, files);
      UploadEndsKeeps(init, w, c, bytes, files);
    }
  }

  // ---------------------------------------------------------------------------
  // Output

  lemma WindowAdvances(file: string, window: string, offset: nat, start: nat, end: nat, n: nat)
    requires offset <= |window| && start <= end <= |file| && window[offset..] == file[start..end]
    requires n <= end - start
    ensures file[..start] + window[offset..offset + n] == file[..start + n]
    ensures window[offset + n..] == file[start + n..end]
  {
    var rest := window[offset..];
    assert window[offset..offset + n] == rest[..n] == file[start..start + n];
    assert window[offset + n..] == rest[n..];
  }

  lemma AcceptWindowKeeps(init: map<string, string>, w: World, c: Conn, n: nat)
    requires c in GoodConns(init, w) && c.state.SendingFile? && c.windowOffset + n <= |c.window|
    ensures AcceptWindow(c, n) in GoodConns(init, w)
  {
    var file := w.disk.data[c.input];
    WindowAdvances(file, c.window, c.windowOffset, c.transferred, c.position, n);
    var head, part := OkLine(c.expected), c.window[c.windowOffset..c.windowOffset + n];
    assert (head + file[..c.transferred]) + part == head + (file[..c.transferred] + part);
    StillWindowed(init, w, c, AcceptWindow(c, n));
  }

  lemma StillWindowed(init: map<string, string>, w: World, c: Conn, c': Conn)
    requires c in GoodConns(init, w) && c.state.SendingFile? && c'.WellFormed()
    requires c' == c.(windowOffset := c'.windowOffset, transferred := c'.transferred,
                      past := c.past.(sent := c'.past.sent))
    requires c'.transferred - c'.windowOffset == c.transferred - c.windowOffset && Windowed(w, c')
    ensures c' in GoodConns(init, w)
  {
    hide Windowed;
  }

  lemma SendWindowKeeps(init: map<string, string>, w: World, c: Conn, o: SendOutcome)
    requires c in GoodConns(init, w) && w in GoodWorlds(init) && c.state.SendingFile?
    ensures var s := SendWindow(w, c, o); s in GoodSteps(init, w, c) && s.w == w
  {
    assert c.WellFormed();
    SendWindowIs(w, c, o);
    hide GoodConns, GoodWorlds, GoodSteps, AcceptWindow, SendWindow, Conn.WellFormed;
    if WindowTaken(c, o) == 0 {
      KeptAsIs(init, w, c, SendWindow(w, c, o).ok);
    } else {
      AcceptKept(init, w, c, WindowTaken(c, o));
    }
  }

  /** How much of the window a send takes. */
  function WindowTaken(c: Conn, o: SendOutcome): nat
    requires c.WellFormed()
  {
    if o.Sent? then Min(o.count, |c.window| - c.windowOffset) else 0
  }

  lemma SendWindowIs(w: World, c: Conn, o: SendOutcome)
    requires c.WellFormed()
    ensures c.windowOffset + WindowTaken(c, o) <= |c.window|
    ensures SendWindow(w, c, o) ==
            if WindowTaken(c, o) == 0 then Step(w, c, SendWindow(w, c, o).ok)
            else Step(w, AcceptWindow(c, WindowTaken(c, o)), true)
  {
  }

  lemma AcceptKept(init: map<string, string>, w: World, c: Conn, n: nat)
    requires c in GoodConns(init, w) && w in GoodWorlds(init) && c.state.SendingFile?
    requires c.windowOffset + n <= |c.window|
    ensures Step(w, AcceptWindow(c, n), true) in GoodSteps(init, w, c)
  {
    AcceptWindowKeeps(init, w, c, n);
    GoodIsSound(init, w, c);
    GoodIsSound(init, w, AcceptWindow(c, n));
    hide GoodConns, SoundConns, GoodWorlds, HasOutput;
    KeptInPlace(init, w, c, Step(w, AcceptWindow(c, n), true));
  }

  lemma GoodIsSound(init: map<string, string>, w: World, c: Conn)
    ensures c in GoodConns(init, w) <==> c in SoundConns(init, w) && HasOutput(c)
  {
  }

  /** Giving up, or not doing anything. */
  lemma KeptAsIs(init: map<string, string>, w: World, c: Conn, ok: bool)
    requires c in GoodConns(init, w) && w in GoodWorlds(init)
    ensures Step(w, c, ok) in GoodSteps(init, w, c)
  {
    GoodIsSound(init, w, c);
    hide GoodConns, SoundConns, GoodWorlds, HasOutput;
    KeptInPlace(init, w, c, Step(w, c, ok));
  }

  lemma RefillKeeps(init: map<string, string>, w: World, c: Conn, files: FileOutcomes)
    requires c in GoodConns(init, w) && w in GoodWorlds(init) && c.state.SendingFile? && c.windowOffset == |c.window|
    ensures var s := Refill(w, c, files);
            && s.c in GoodConns(init, w) && s.w == w && s.c.temp == c.temp
            && s.c.fd == c.fd && s.c.past.sent == c.past.sent && s.c.past.received == c.past.received
  {
    var s := Refill(w, c, files);
    var file := w.disk.data[c.input];
    if s.ok {
      assert s.c.window == file[c.transferred..s.c.position];
      assert s.c.window[0..] == s.c.window;
    }
  }

  lemma FileWritableKeeps(init: map<string, string>, w: World, c: Conn, o: SendOutcome, files: FileOutcomes)
    requires c in GoodConns(init, w) && w in GoodWorlds(init) && c.state.SendingFile?
    ensures FileWritable(w, c, o, files) in GoodSteps(init, w, c)
  {
    KeptAsIs(init, w, c, false);
    GoodIsSound(init, w, c);
    Unmoved(init, w, c);
    hide GoodConns, SoundConns, GoodWorlds, GoodSteps, HasOutput, Isolated, Refill, SendWindow;
    if c.windowOffset < |c.window| {
      SendWindowKeeps(init, w, c, o);
    } else if c.transferred < c.expected {
      RefillKeeps(init, w, c, files);
      var filled := Refill(w, c, files);
      if filled.ok {
        SendWindowKeeps(init, w, filled.c, o);
        KeptThen(init, w, c, w, filled.c, FileWritable(w, c, o, files));
      } else {
        RefillGivesUp(w, c, files);
      }
    }
  }

  lemma RefillGivesUp(w: World, c: Conn, files: FileOutcomes)
    requires c.WellFormed() && c.state.SendingFile? && c.windowOffset == |c.window| && !Refill(w, c, files).ok
    ensures Refill(w, c, files) == Step(w, c, false)
  {
    hide Disk.Read;
  }

  /** Sending part of a control line. */
  lemma FlushKeeps(init: map<string, string>, w: World, c: Conn, sends: seq<SendOutcome>)
    requires c in GoodConns(init, w) && !c.WantsInput() && !c.state.SendingFile?
    ensures var f := FlushPending(c, sends);
            && f.c in SoundConns(init, w) && Promised(f.c) == Promised(c) && c.past.sent <= f.c.past.sent
            && (f.result.WouldBlock? ==> HasOutput(f.c))
            && (f.result.Drained? ==> f.c.pending == "" && f.c.past.sent == Promised(c))
  {
    FlushConserves(c, sends);
    var f := FlushPending(c, sends);
    assert OnlyFlushed(c, f.c);
    FlushedSound(init, w, c, f.c);
    hide FlushPending, GoodConns, SoundConns;
  }

  /** The invariant looks at a control line and the bytes sent together. */
  lemma FlushedSound(init: map<string, string>, w: World, c: Conn, c': Conn)
    requires c in GoodConns(init, w) && !c.WantsInput() && !c.state.SendingFile?
    requires c'.WellFormed() && OnlyFlushed(c, c') && Promised(c') == Promised(c)
    ensures c' in SoundConns(init, w)
  {
    hide Promised, OkLine, READY_LINE, TempName, Disk.Frozen, ServedFrom;
  }

  lemma AfterDrainKeeps(init: map<string, string>, w: World, c: Conn, files: FileOutcomes)
    requires c in SoundConns(init, w) && w in GoodWorlds(init) && c.Live() && NoTempRequest(c)
    requires !c.WantsInput() && !c.state.SendingFile? && c.pending == "" && c.past.sent == Promised(c)
    ensures var s := AfterDrain(w, c, files); s in GoodSteps(init, w, c)
  {
    if c.state.SendingReady? && c.expected == 0 {
      CompleteKeeps(init, w, c, files);
    } else {
      if c.state.SendingGetHeader? {
        HeaderDrained(init, w, c);
      }
      KeptInPlace(init, w, c, AfterDrain(w, c, files));
    }
  }

  lemma HeaderDrained(init: map<string, string>, w: World, c: Conn)
    requires c in SoundConns(init, w) && c.state.SendingGetHeader? && c.pending == "" && c.past.sent == Promised(c)
    ensures c.expected > 0 ==> c.(state := SendingFile) in SoundConns(init, w)
  {
    var c' := c.(state := SendingFile);
    var file := w.disk.data[c.input];
    assert c.past.sent == OkLine(c.expected) + file[..0];
    assert c.window[0..] == file[0..0];
    assert Windowed(w, c');
    assert c.expected > 0 ==> Sound(init, w, c');
  }

  lemma WritableKeeps(init: map<string, string>, w: World, c: Conn, sends: seq<SendOutcome>, files: FileOutcomes)
    requires c in GoodConns(init, w) && w in GoodWorlds(init) && c.Live() && NoTempRequest(c)
    ensures var s := Writable(w, c, sends, files); s in GoodSteps(init, w, c)
  {
    KeptAsIs(init, w, c, true);
    if c.state.SendingFile? {
      hide GoodConns, GoodWorlds, GoodSteps, NoTempRequest, FileWritable;
      FileWritableKeeps(init, w, c, if sends == [] then SendWouldBlock else sends[0], files);
    } else if !c.WantsInput() {
      LineWritableKeeps(init, w, c, sends, files);
    }
  }

  lemma LineWritableKeeps(init: map<string, string>, w: World, c: Conn, sends: seq<SendOutcome>, files: FileOutcomes)
    requires c in GoodConns(init, w) && w in GoodWorlds(init) && c.Live() && NoTempRequest(c)
    requires !c.WantsInput() && !c.state.SendingFile?
    ensures Writable(w, c, sends, files) in GoodSteps(init, w, c)
  {
    GoodIsSound(init, w, c);
    Unmoved(init, w, c);
    FlushKeeps(init, w, c, sends);
    var f := FlushPending(c, sends);
    assert OnlyFlushed(c, f.c);
    hide GoodConns, SoundConns, GoodWorlds, GoodSteps, HasOutput, Isolated, FlushPending, AfterDrain;
    if f.result.Drained? {
      AfterDrainKeeps(init, w, f.c, files);
      KeptThen(init, w, c, w, f.c, Writable(w, c, sends, files));
    } else {
      KeptInPlace(init, w, c, Step(w, f.c, f.result.WouldBlock?));
    }
  }

  // ---------------------------------------------------------------------------
  // Whole events

  lemma ReadableKeeps(init: map<string, string>, w: World, c: Conn, recvs: seq<RecvOutcome>, files: FileOutcomes)
    requires c in GoodConns(init, w) && w in GoodWorlds(init) && c.Live()
    requires NoTempRequest(Readable(w, c, recvs, files).c)
    ensures Readable(w, c, recvs, files) in GoodSteps(init, w, c)
  {
    var outcome := Settled(recvs);
    if c.WantsInput() && outcome.Data? {
      if c.state.AwaitingRequest? {
        RequestDataKeeps(init, w, c, outcome.bytes, files);
      } else {
        UploadDataKeeps(init, w, c, outcome.bytes, files);
      }
    } else {
      KeptInPlace(init, w, c, Readable(w, c, recvs, files));
    }
  }

  lemma ResultOnlyFlushes(w: World, c: Conn, sends: seq<SendOutcome>, files: FileOutcomes)
    requires c.WellFormed() && c.state.SendingResult?
    ensures var t := Writable(w, c, sends, files); t.w == w && OnlyFlushed(c, t.c)
  {
  }

  lemma ThenWritable(init: map<string, string>, w: World, c: Conn, s: Step, i: Input)
    requires s in GoodSteps(init, w, c) && s.ok && s.c.Live() && s.c.fd == c.fd && NoTempRequest(s.c)
    ensures Writable(s.w, s.c, i.sends, i.files) in GoodSteps(init, w, c)
  {
    var t := Writable(s.w, s.c, i.sends, i.files);
    WritableKeeps(init, s.w, s.c, i.sends, i.files);
    if s.c.state.SendingResult? {
      ResultOnlyFlushes(s.w, s.c, i.sends, i.files);
    }
    hide Writable;
    IsolatedThen(w, s.w, t.w, c.temp, s.c.temp, t.c.temp);
  }

  lemma EventKeeps(init: map<string, string>, w: World, c: Conn, i: Input)
    requires c in GoodConns(init, w) && w in GoodWorlds(init) && c.Live()
    requires NoTempRequest(ClientEvent(w, c, i).c)
    ensures ClientEvent(w, c, i) in GoodSteps(init, w, c)
  {
    KeptAsIs(init, w, c, true);
    KeptAsIs(init, w, c, false);
    hide Readable, Writable, GoodConns, GoodWorlds, GoodSteps;
    if !i.error {
      var s := if i.readable then Readable(w, c, i.recvs, i.files) else Step(w, c, true);
      if i.readable {
        ReadableKeeps(init, w, c, i.recvs, i.files);
      }
      if s.ok {
        var writes := i.writable || (i.hangup && !s.c.WantsInput());
        if writes {
          ThenWritable(init, w, c, s, i);
        }
        var t := if writes then Writable(s.w, s.c, i.sends, i.files) else s;
        KeptNotOk(init, w, c, t, t.ok && (!i.hangup || !t.c.WantsInput()));
      }
    }
  }

  /** The caller may decide to give up after all. */
  lemma KeptNotOk(init: map<string, string>, w: World, c: Conn, s: Step, ok: bool)
    requires s in GoodSteps(init, w, c) && (ok ==> s.ok)
    ensures s.(ok := ok) in GoodSteps(init, w, c)
  {
    hide Sound, Isolated, History, CommitsOwn, HasOutput;
  }

  /** One event, and the closing that may follow it, keep the invariant and stay isolated. */
  lemma DispatchKeeps(init: map<string, string>, w: World, c: Conn, i: Input)
    requires c in GoodConns(init, w) && w in GoodWorlds(init) && c.Live()
    requires NoTempRequest(Dispatch(w, c, i).c)
    ensures Dispatch(w, c, i) in GoodSteps(init, w, c)
    ensures Dispatch(w, c, i).c in GoodConns(init, Dispatch(w, c, i).w)
  {
    hide ClientEvent;
    var s := ClientEvent(w, c, i);
    EventKeeps(init, w, c, i);
    if !s.ok {
      var t := CloseClient(s.w, s.c);
      CloseKeeps(init, s.w, s.c);
      IsolatedThen(w, s.w, t.w, c.temp, s.c.temp, t.c.temp);
    }
  }
}
