/**
 The exact condition under which an event is harmless, from any state that is in order: every handler call that the
 event makes meets its guard. Each of the three ways to miss a guard does harm in every state, not only in an example.
 */
module SafeEvents {
  import opened Text
  import opened Requests
  import opened Storage
  import opened Connection
  import opened ConnectionInvariant
  import opened ConnectionProofs
  import opened System
  import opened Guards
  import opened Linearizability

  // ---------------------------------------------------------------------------
  // A handler call that meets its guard is harmless

  /** The connection may change, but nothing in the root, and a download in progress goes on with its file. */
  predicate Quiet(s: System, id: nat, r: Step)
    requires id < |s.conns|
  {
    var c := s.conns[id];
    && r.w == s.w && r.c.WellFormed() && r.c.temp == c.temp && r.c.output == c.output && r.c.fd == c.fd
    && r.c.final == c.final && r.c.expected == c.expected
    && (IsServing(r.c) ==> IsServing(c) && r.c.input == c.input)
    && (r.c.state.AwaitingRequest? ==> c.state.AwaitingRequest?)
    && (r.c.state.SendingReady? || r.c.state.ReceivingFile? ==> c.state.SendingReady? || c.state.ReceivingFile?)
    && (c.temp != "" ==> r.c.transferred == c.transferred && (r.c.state.SendingReady? || r.c.state.ReceivingFile?))
    && r.c.past.payload == c.past.payload && r.c.past.asked == c.past.asked
  }

  lemma QuietTidy(s: System, id: nat, r: Step)
    requires id < |s.conns| && Orderly(s) && Quiet(s, id, r)
    ensures Tidy(s.w, r.c)
    ensures Guards.Serving(r.c) ==> NotUploaded(s.conns, r.c.input)
  {
    assert Tidy(s.w, s.conns[id]);
    hide TempName, NotUploaded;
  }

  lemma QuietHarmless(s: System, id: nat, call: Call)
    requires id < |s.conns| && Orderly(s) && s.conns[id].WellFormed() && s.conns[id].Live()
    requires Quiet(s, id, Make(s.w, s.conns[id], call))
    ensures Harmless(s, id, call)
  {
    var r := Make(s.w, s.conns[id], call);
    QuietTidy(s, id, r);
    hide Make, Orderly, Tidy, NotUploaded, Fine, Conn.WellFormed;
    QuietIsFine(s, id, r.w, r.c);
  }

  lemma ReadingIsHarmless(s: System, id: nat, recvs: seq<RecvOutcome>, files: FileOutcomes)
    requires id < |s.conns| && Orderly(s) && s.conns[id].WellFormed() && s.conns[id].Live()
    requires Guard(s, id, Reading(recvs, files))
    ensures Harmless(s, id, Reading(recvs, files))
  {
    var c, call := s.conns[id], Reading(recvs, files);
    if !c.WantsInput() || !Settled(recvs).Data? {
      TidyParts(s, id);
      ReadsNothing(s, id, recvs, files);
      hide Orderly, Make, Quiet, Guard, Harmless;
      QuietHarmless(s, id, call);
    } else if c.state.AwaitingRequest? {
      ReadsRequest(s, id, recvs, files);
    } else {
      ReadsUpload(s, id, recvs, files);
    }
  }

  lemma ReadsNothing(s: System, id: nat, recvs: seq<RecvOutcome>, files: FileOutcomes)
    requires id < |s.conns| && s.conns[id].WellFormed() && s.conns[id].Live()
    requires s.conns[id].temp != "" ==> s.conns[id].state.SendingReady? || s.conns[id].state.ReceivingFile?
    requires !s.conns[id].WantsInput() || !Settled(recvs).Data?
    ensures Quiet(s, id, Make(s.w, s.conns[id], Reading(recvs, files)))
  {
    hide RequestData, UploadData;
  }

  lemma ReadsLine(w: World, c: Conn, recvs: seq<RecvOutcome>, files: FileOutcomes)
    requires c.WellFormed() && c.Live() && c.state.AwaitingRequest? && Settled(recvs).Data?
    ensures Make(w, c, Reading(recvs, files)) == RequestData(w, c, Settled(recvs).bytes, files)
  {
    hide RequestData, Settled;
  }

  lemma ReadsPayload(w: World, c: Conn, recvs: seq<RecvOutcome>, files: FileOutcomes)
    requires c.WellFormed() && c.Live() && c.state.ReceivingFile? && Settled(recvs).Data?
    ensures Make(w, c, Reading(recvs, files)) == UploadData(w, c, Settled(recvs).bytes, files)
  {
    hide UploadData, Settled;
  }

  lemma ReadsRequest(s: System, id: nat, recvs: seq<RecvOutcome>, files: FileOutcomes)
    requires id < |s.conns| && Orderly(s) && s.conns[id].WellFormed() && s.conns[id].Live()
    requires s.conns[id].state.AwaitingRequest? && Settled(recvs).Data?
    requires Guard(s, id, Reading(recvs, files))
    ensures Harmless(s, id, Reading(recvs, files))
  {
    var c := s.conns[id];
    ReadsLine(s.w, c, recvs, files);
    hide Make, Readable, RequestData, Orderly, Settled, Fine, RequestGuard, ServesStored;
    RequestIsHarmless(s, id, Settled(recvs).bytes, files);
  }

  lemma ReadsUpload(s: System, id: nat, recvs: seq<RecvOutcome>, files: FileOutcomes)
    requires id < |s.conns| && Orderly(s) && s.conns[id].WellFormed() && s.conns[id].Live()
    requires s.conns[id].state.ReceivingFile? && Settled(recvs).Data?
    requires Guard(s, id, Reading(recvs, files))
    ensures Harmless(s, id, Reading(recvs, files))
  {
    var c := s.conns[id];
    ReadsPayload(s.w, c, recvs, files);
    hide Make, Readable, UploadData, Orderly, Settled, Fine, RequestGuard, ServesStored, Publishes, OtherTemps;
    UploadIsHarmless(s, id, Settled(recvs).bytes, files);
  }

  // ---------------------------------------------------------------------------
  // Writing

  predicate Completes(c: Conn, sends: seq<SendOutcome>)
    requires c.WellFormed()
  {
    c.state.SendingReady? && c.expected == 0 && FlushPending(c, sends).result.Drained?
  }

  lemma FileWritableQuiet(s: System, id: nat, o: SendOutcome, files: FileOutcomes)
    requires id < |s.conns| && s.conns[id].WellFormed() && s.conns[id].state.SendingFile? && s.conns[id].temp == ""
    ensures Quiet(s, id, FileWritable(s.w, s.conns[id], o, files))
  {
    var c := s.conns[id];
    WindowOnly(s.w, c, o, files);
    WindowQuiet(s, id, FileWritable(s.w, c, o, files));
  }

  lemma WindowQuiet(s: System, id: nat, r: Step)
    requires id < |s.conns| && s.conns[id].state.SendingFile? && s.conns[id].temp == ""
    requires OnlyWindow(s.w, s.conns[id], r) && r.c.WellFormed()
    ensures Quiet(s, id, r)
  {
  }

  lemma LineWritableQuiet(s: System, id: nat, sends: seq<SendOutcome>, files: FileOutcomes)
    requires id < |s.conns| && s.conns[id].WellFormed() && s.conns[id].Live()
    requires s.conns[id].temp != "" ==> s.conns[id].state.SendingReady? || s.conns[id].state.ReceivingFile?
    requires !s.conns[id].state.SendingFile? && !Completes(s.conns[id], sends)
    ensures Quiet(s, id, Writable(s.w, s.conns[id], sends, files))
  {
    hide FlushPending, CompleteUpload, FileWritable;
    var f := FlushPending(s.conns[id], sends);
    assert OnlyFlushed(s.conns[id], f.c);
  }

  lemma WritesLast(s: System, id: nat, sends: seq<SendOutcome>, files: FileOutcomes)
    requires id < |s.conns| && s.conns[id].WellFormed() && Completes(s.conns[id], sends)
    ensures Writable(s.w, s.conns[id], sends, files) == CompleteUpload(s.w, FlushPending(s.conns[id], sends).c, files)
    ensures OnlyFlushed(s.conns[id], FlushPending(s.conns[id], sends).c)
  {
    hide FlushPending, CompleteUpload, FileWritable;
  }

  lemma CompletingIsHarmless(s: System, id: nat, sends: seq<SendOutcome>, files: FileOutcomes)
    requires id < |s.conns| && Orderly(s) && s.conns[id].WellFormed() && s.conns[id].Live()
    requires Completes(s.conns[id], sends)
    requires Guard(s, id, Writing(sends, files))
    ensures Harmless(s, id, Writing(sends, files))
  {
    var c, call := s.conns[id], Writing(sends, files);
    var f := FlushPending(c, sends);
    TidyParts(s, id);
    WritesLast(s, id, sends, files);
    assert Make(s.w, c, call) == CompleteUpload(s.w, f.c, files) by {
      hide Writable, CompleteUpload, FlushPending, Orderly, Harmless, Guard;
    }
    hide Make, CompleteUpload, FlushPending, Writable, Orderly, Fine, Publishes, OtherTemps, ServesStored;
    CompletionIsFine(s, id, f.c, files);
  }

  lemma WritingIsHarmless(s: System, id: nat, sends: seq<SendOutcome>, files: FileOutcomes)
    requires id < |s.conns| && Orderly(s) && s.conns[id].WellFormed() && s.conns[id].Live()
    requires Guard(s, id, Writing(sends, files))
    ensures Harmless(s, id, Writing(sends, files))
  {
    var c, call := s.conns[id], Writing(sends, files);
    TidyParts(s, id);
    assert Make(s.w, c, call) == Writable(s.w, c, sends, files);
    hide Orderly, Tidy, Make, Quiet, Guard, Harmless, FileWritable, FlushPending;
    if c.state.SendingFile? {
      FileWritableQuiet(s, id, if sends == [] then SendWouldBlock else sends[0], files);
      QuietHarmless(s, id, call);
    } else if Completes(c, sends) {
      CompletingIsHarmless(s, id, sends, files);
    } else {
      LineWritableQuiet(s, id, sends, files);
      QuietHarmless(s, id, call);
    }
  }

  // ---------------------------------------------------------------------------
  // Closing

  lemma ClosedTidy(w: World, c: Conn)
    requires c.WellFormed() && c.temp == "" && !c.Live()
    ensures Tidy(w, c)
  {
  }

  lemma CloseIsFine(s: System, id: nat)
    requires id < |s.conns| && Orderly(s) && s.conns[id].WellFormed() && s.conns[id].Live()
    ensures var r := CloseClient(s.w, s.conns[id]);
            Fine(s, id, r.w, r.c, None) && r.w.log == s.w.log && !Guards.Serving(r.c)
  {
    var r := CloseClient(s.w, s.conns[id]);
    assert r.c.temp == "" && !r.c.Live() && r.w.sequence == s.w.sequence && r.w.log == s.w.log;
    assert r.w == RemoveTemporary(s.w, s.conns[id]);
    hide CloseClient, Orderly, Tidy, Fine, Disk.Remove, Conn.WellFormed;
    ClosedTidy(r.w, r.c);
    if s.conns[id].temp == "" {
      QuietIsFine(s, id, r.w, r.c);
    } else {
      RemovalIsFine(s, id, r.c);
    }
  }

  lemma ClosingIsHarmless(s: System, id: nat)
    requires id < |s.conns| && Orderly(s) && s.conns[id].WellFormed() && s.conns[id].Live()
    ensures Harmless(s, id, Closing)
  {
    hide CloseClient, Orderly, Fine;
    CloseIsFine(s, id);
  }

  lemma GuardedIsHarmless(s: System, id: nat, call: Call)
    requires id < |s.conns| && Orderly(s) && s.conns[id].WellFormed() && s.conns[id].Live() && Guard(s, id, call)
    ensures Harmless(s, id, call)
  {
    hide Orderly, Guard, Harmless;
    match call {
      case Reading(recvs, files) => ReadingIsHarmless(s, id, recvs, files);
      case Writing(sends, files) => WritingIsHarmless(s, id, sends, files);
      case Closing => ClosingIsHarmless(s, id);
    }
  }

  // ---------------------------------------------------------------------------
  // A handler call that misses its guard does harm

  /** The next temporary name is not one that an unfinished upload has. */
  lemma NextTempIsFree(s: System, fd: nat)
    requires Orderly(s)
    ensures TempName(fd, s.w.sequence + 1) !in Temps(s.conns)
  {
    var temp := TempName(fd, s.w.sequence + 1);
    forall j | 0 <= j < |s.conns| && s.conns[j].temp != ""
      ensures s.conns[j].temp != temp
    {
      assert Tidy(s.w, s.conns[j]);
      hide TempName;
      var n: nat :| n <= s.w.sequence && s.conns[j].temp == TempName(s.conns[j].fd, n);
      if s.conns[j].temp == temp {
        TempNameInjective(s.conns[j].fd, n, fd, s.w.sequence + 1);
      }
    }
  }

  /** A stored name that is no longer stored, without a commit. */
  lemma LostIsHarmful(s: System, id: nat, w': World, c': Conn, name: string)
    requires id < |s.conns| && Orderly(s) && w'.log == s.w.log
    requires name in s.w.disk.names && name !in Temps(s.conns)
    requires name !in w'.disk.names || name == c'.temp != ""
    ensures !Fine(s, id, w', c', None)
  {
    var s' := Moved(s, id, w', c');
    assert name in Store(s);
    if c'.temp != "" && name == c'.temp {
      TempsMoved(s, id, w', c');
      assert name in Temps(s'.conns);
    }
    hide Orderly, Temps;
  }

  /** The temporary name of another upload leads to a file that is not its own any more. */
  lemma StolenIsHarmful(s: System, id: nat, w': World, c': Conn, commit: Option<Commit>)
    requires id < |s.conns| && Orderly(s) && s.conns[id].temp != "" && s.conns[id].final in OtherTemps(s.conns, id)
    requires s.conns[id].final in w'.disk.names && w'.disk.names[s.conns[id].final] == s.conns[id].output
    ensures !Fine(s, id, w', c', commit)
  {
    var c := s.conns[id];
    var j :| 0 <= j < |s.conns| && j != id && s.conns[j].temp != "" && s.conns[j].temp == c.final;
    var o := s.conns[j];
    assert o.output != c.output && o.temp == c.final by {
      TidyParts(s, id);
      TidyParts(s, j);
      assert o.temp != c.temp;
    }
    var s' := Moved(s, id, w', c');
    assert s'.conns[j] == o;
    assert !Tidy(w', o);
    hide Tidy;
  }

  lemma DirtyReadIsHarmful(s: System, id: nat, bytes: string, name: string, files: FileOutcomes)
    requires id < |s.conns| && Orderly(s) && s.conns[id].WellFormed() && s.conns[id].Live()
    requires s.conns[id].state.AwaitingRequest?
    requires Requested(s.conns[id], bytes) == Some(Get(name)) && Opens(files) && name in Temps(s.conns)
    ensures s.w.disk.Valid()
    ensures var r := RequestData(s.w, s.conns[id], bytes, files); Guards.Serving(r.c) && !ServesStored(s, r.c)
  {
    var c := s.conns[id];
    TidyParts(s, id);
    TempInUse(s, name);
    RequestEffect(s.w, c, bytes, files);
    hide RequestData, StartGet, Orderly, Requested, Temps, Opens, Store, Tidy, ValidRequest, Conn.WellFormed;
    GetOpens(s.w, Asking(s.w, c, bytes, Get(name), files), name, files);
    NotStored(s, RequestData(s.w, c, bytes, files).c, name);
  }

  lemma GetOpens(w: World, c: Conn, name: string, files: FileOutcomes)
    requires c.WellFormed() && c.window == "" && c.temp == "" && c.Live() && Opens(files) && name in w.disk.names
    ensures var r := StartGet(w, c, name, files); Guards.Serving(r.c) && r.c.past.asked == c.past.asked
  {
    GetEffect(w, c, name, files);
    hide StartGet, Opens;
  }

  lemma NotStored(s: System, c: Conn, name: string)
    requires s.w.disk.Valid() && name in Temps(s.conns) && c.past.asked == Some(Get(name))
    ensures !ServesStored(s, c)
  {
    hide Temps;
  }

  lemma TempInUse(s: System, name: string)
    requires Orderly(s) && name in Temps(s.conns)
    ensures name in s.w.disk.names
  {
    var j :| 0 <= j < |s.conns| && s.conns[j].temp != "" && s.conns[j].temp == name;
    TidyParts(s, j);
  }

  lemma OverwritingIsHarmful(s: System, id: nat, bytes: string, name: string, size: nat, files: FileOutcomes)
    requires id < |s.conns| && Orderly(s) && s.conns[id].WellFormed() && s.conns[id].Live()
    requires s.conns[id].state.AwaitingRequest?
    requires Requested(s.conns[id], bytes) == Some(Put(name, size))
    requires TempName(s.conns[id].fd, s.w.sequence + 1) in s.w.disk.names
    ensures s.w.disk.Valid()
    ensures var r := RequestData(s.w, s.conns[id], bytes, files); r.w.log == s.w.log && !Fine(s, id, r.w, r.c, None)
  {
    var c := s.conns[id];
    assert s.w.disk.Valid();
    RequestEffect(s.w, c, bytes, files);
    NextTempIsFree(s, c.fd);
    hide RequestData, StartPut, Orderly, Requested, Temps, Fine, TempName, ValidRequest, Conn.WellFormed;
    PutIsHarmful(s, id, Asking(s.w, c, bytes, Put(name, size), files), name, size, files);
  }

  lemma PutIsHarmful(s: System, id: nat, c: Conn, name: string, size: nat, files: FileOutcomes)
    requires id < |s.conns| && Orderly(s) && c.WellFormed() && c.window == "" && c.Live()
    requires var temp := TempName(c.fd, s.w.sequence + 1); temp in s.w.disk.names && temp !in Temps(s.conns)
    ensures s.w.disk.Valid()
    ensures var r := StartPut(s.w, c, name, size, files); r.w.log == s.w.log && !Fine(s, id, r.w, r.c, None)
  {
    PutTakesName(s.w, c, name, size, files);
    var r := StartPut(s.w, c, name, size, files);
    assert s.w.disk.Valid();
    hide StartPut, Orderly, Temps, Fine, TempName;
    LostIsHarmful(s, id, r.w, r.c, TempName(c.fd, s.w.sequence + 1));
  }

  /** After the attempt to open a temporary file, its name belongs to the connection or is gone. */
  lemma PutTakesName(w: World, c: Conn, name: string, size: nat, files: FileOutcomes)
    requires c.WellFormed() && c.window == "" && c.Live()
    ensures var r, temp := StartPut(w, c, name, size, files), TempName(c.fd, w.sequence + 1);
            r.w.log == w.log && (temp !in r.w.disk.names || temp == r.c.temp != "")
  {
    var temp := TempName(c.fd, w.sequence + 1);
    assert temp != "";
    PutEffect(w, c, name, size, files);
    hide StartPut, TempName;
  }

  /** `w` may already hold the last bytes. */
  lemma TakeoverIsHarmful(s: System, id: nat, w: World, c: Conn, files: FileOutcomes)
    requires id < |s.conns| && Orderly(s) && s.conns[id].temp != "" && s.conns[id].final in OtherTemps(s.conns, id)
    requires w.disk.names == s.w.disk.names && Publishes(files)
    requires c.WellFormed() && c.window == "" && c.temp == s.conns[id].temp && c.final == s.conns[id].final
    ensures var r := CompleteUpload(w, c, files); forall commit :: !Fine(s, id, r.w, r.c, commit)
  {
    TidyParts(s, id);
    CompleteEffect(w, c, files);
    var r := CompleteUpload(w, c, files);
    assert c.final in r.w.disk.names && r.w.disk.names[c.final] == s.conns[id].output by {
      hide CompleteUpload, Orderly, OtherTemps, Publishes, Tidy;
    }
    hide CompleteUpload, Orderly, OtherTemps, Publishes, Fine, Tidy;
    forall commit
      ensures !Fine(s, id, r.w, r.c, commit)
    {
      StolenIsHarmful(s, id, r.w, r.c, commit);
    }
  }

  lemma LastBytesTakeOver(s: System, id: nat, bytes: string, files: FileOutcomes)
    requires id < |s.conns| && Orderly(s) && s.conns[id].WellFormed() && s.conns[id].Live()
    requires s.conns[id].state.ReceivingFile?
    requires s.conns[id].transferred + |bytes| == s.conns[id].expected && files.canWrite && Publishes(files)
    requires s.conns[id].final in OtherTemps(s.conns, id)
    ensures var r := UploadData(s.w, s.conns[id], bytes, files); forall commit :: !Fine(s, id, r.w, r.c, commit)
  {
    var c := s.conns[id];
    TidyParts(s, id);
    WriteCompletes(s.w, c, bytes, files);
    assert Appended(s.w, c, bytes).disk.names == s.w.disk.names;
    hide UploadData, CompleteUpload, Orderly, OtherTemps, Publishes, Fine, Tidy, Appended;
    TakeoverIsHarmful(s, id, Appended(s.w, c, bytes), Grown(c, bytes, files), files);
  }

  lemma ReadingIsHarmful(s: System, id: nat, recvs: seq<RecvOutcome>, files: FileOutcomes)
    requires id < |s.conns| && Orderly(s) && s.conns[id].WellFormed() && s.conns[id].Live()
    requires !Guard(s, id, Reading(recvs, files))
    ensures !Harmless(s, id, Reading(recvs, files))
  {
    var c := s.conns[id];
    hide Orderly, Harmless, OtherTemps, Temps, Publishes, Opens, TempName, Requested, Make;
    if c.state.AwaitingRequest? {
      RequestIsHarmful(s, id, recvs, Requested(c, Settled(recvs).bytes).value, files);
    } else {
      PayloadIsHarmful(s, id, recvs, files);
    }
  }

  lemma RequestIsHarmful(s: System, id: nat, recvs: seq<RecvOutcome>, request: Request, files: FileOutcomes)
    requires id < |s.conns| && Orderly(s) && s.conns[id].WellFormed() && s.conns[id].Live()
    requires s.conns[id].state.AwaitingRequest?
    requires Settled(recvs).Data? && Requested(s.conns[id], Settled(recvs).bytes) == Some(request)
    requires !RequestGuard(s, id, request, files)
    ensures !Harmless(s, id, Reading(recvs, files))
  {
    var bytes := Settled(recvs).bytes;
    ReadsLine(s.w, s.conns[id], recvs, files);
    if request.Get? {
      DirtyReadIsHarmful(s, id, bytes, request.filename, files);
      hide Make, Harmless, Settled, Orderly, RequestData, Requested, Conn.WellFormed, ServesStored;
      DirtyCall(s, id, Reading(recvs, files));
    } else {
      PutGuard(s, id, request, files);
      hide Make, Harmless, Settled, Orderly, RequestData, RequestGuard, Requested, Conn.WellFormed, Fine, TempName;
      OverwritingIsHarmful(s, id, bytes, request.filename, request.size, files);
      LosingCall(s, id, Reading(recvs, files));
    }
  }

  lemma PutGuard(s: System, id: nat, request: Request, files: FileOutcomes)
    requires id < |s.conns| && s.conns[id].Live() && request.Put?
    ensures RequestGuard(s, id, request, files) <==> TempName(s.conns[id].fd, s.w.sequence + 1) !in s.w.disk.names
    ensures request == Put(request.filename, request.size)
  {
    hide TempName;
  }

  lemma LineGuard(s: System, id: nat, recvs: seq<RecvOutcome>, files: FileOutcomes)
    requires id < |s.conns| && s.conns[id].WellFormed() && s.conns[id].Live() && s.conns[id].state.AwaitingRequest?
    requires Settled(recvs).Data?
    ensures var request := Requested(s.conns[id], Settled(recvs).bytes);
            Guard(s, id, Reading(recvs, files)) <==> (request.Some? ==> RequestGuard(s, id, request.value, files))
  {
    hide Settled, Requested, RequestGuard;
  }

  lemma DirtyCall(s: System, id: nat, call: Call)
    requires id < |s.conns| && s.conns[id].WellFormed() && s.conns[id].Live() && s.w.disk.Valid()
    requires !IsServing(s.conns[id])
    requires var r := Make(s.w, s.conns[id], call); Guards.Serving(r.c) && !ServesStored(s, r.c)
    ensures !Harmless(s, id, call)
  {
    hide Make, Fine, ServesStored;
  }

  lemma LosingCall(s: System, id: nat, call: Call)
    requires id < |s.conns| && s.conns[id].WellFormed() && s.conns[id].Live() && s.w.disk.Valid()
    requires var r := Make(s.w, s.conns[id], call); r.w.log == s.w.log && !Fine(s, id, r.w, r.c, None)
    ensures !Harmless(s, id, call)
  {
    hide Make, Fine, ServesStored;
  }

  lemma PayloadIsHarmful(s: System, id: nat, recvs: seq<RecvOutcome>, files: FileOutcomes)
    requires id < |s.conns| && Orderly(s) && s.conns[id].WellFormed() && s.conns[id].Live()
    requires s.conns[id].state.ReceivingFile?
    requires !Guard(s, id, Reading(recvs, files))
    ensures !Harmless(s, id, Reading(recvs, files))
  {
    var c, bytes := s.conns[id], Settled(recvs).bytes;
    ReadsPayload(s.w, c, recvs, files);
    hide Make, Settled, Orderly, Fine, OtherTemps, Publishes, ServesStored, UploadData, RequestGuard;
    LastBytesTakeOver(s, id, bytes, files);
  }

  lemma WritingIsHarmful(s: System, id: nat, sends: seq<SendOutcome>, files: FileOutcomes)
    requires id < |s.conns| && Orderly(s) && s.conns[id].WellFormed() && s.conns[id].Live()
    requires !Guard(s, id, Writing(sends, files))
    ensures !Harmless(s, id, Writing(sends, files))
  {
    var c, call := s.conns[id], Writing(sends, files);
    var f := FlushPending(c, sends);
    TidyParts(s, id);
    WritesLast(s, id, sends, files);
    assert Make(s.w, c, call) == CompleteUpload(s.w, f.c, files) by {
      hide Writable, CompleteUpload, FlushPending, Orderly, Harmless, Guard;
    }
    hide Make, CompleteUpload, FlushPending, Writable, Orderly, Fine, Publishes, OtherTemps, ServesStored;
    TakeoverIsHarmful(s, id, s.w, f.c, files);
  }

  /**
   From any state that is in order, a handler call of any live connection does no harm if and only if it meets its
   guard. No harm: order is kept, so every unfinished upload still owns its file; every open download and everything
   stored stays, but for one commit of the whole payload of this connection; and a download that begins serves what is
   stored.
   */
  lemma {:induction false} HarmlessIffGuarded(s: System, id: nat, call: Call)
    requires id < |s.conns| && Orderly(s) && s.conns[id].WellFormed() && s.conns[id].Live()
    ensures Harmless(s, id, call) <==> Guard(s, id, call)
  {
    hide Orderly, Guard, Harmless;
    if Guard(s, id, call) {
      GuardedIsHarmless(s, id, call);
    } else {
      match call {
        case Reading(recvs, files) => ReadingIsHarmful(s, id, recvs, files);
        case Writing(sends, files) => WritingIsHarmful(s, id, sends, files);
        case Closing => ClosingIsGuarded(s, id);
      }
    }
  }

  lemma ClosingIsGuarded(s: System, id: nat)
    requires id < |s.conns| && s.conns[id].WellFormed() && s.conns[id].Live()
    ensures Guard(s, id, Closing)
  {
  }

  // ---------------------------------------------------------------------------
  // Events and runs

  /** The handler calls that one poll event leads to. */
  function Calls(w: World, c: Conn, i: Input): seq<Call>
    requires c.WellFormed() && c.Live()
  {
    if i.error then [Closing]
    else
      var s := if i.readable then Readable(w, c, i.recvs, i.files) else Step(w, c, true);
      var read := if i.readable then [Reading(i.recvs, i.files)] else [];
      if !s.ok then read + [Closing]
      else
        var writes := i.writable || (i.hangup && !s.c.WantsInput());
        var t := if writes then Writable(s.w, s.c, i.sends, i.files) else s;
        var write := if writes then [Writing(i.sends, i.files)] else [];
        read + write + if !t.ok || (i.hangup && t.c.WantsInput()) then [Closing] else []
  }

  function Made(s: System, id: nat, call: Call): (s': System)
    requires s.WellFormed() && id < |s.conns| && s.conns[id].Live()
    ensures s'.WellFormed() && |s'.conns| == |s.conns|
  {
    var r := Make(s.w, s.conns[id], call);
    Moved(s, id, r.w, r.c)
  }

  function AllMade(s: System, id: nat, calls: seq<Call>): (s': System)
    requires s.WellFormed() && id < |s.conns|
    ensures s'.WellFormed() && |s'.conns| == |s.conns|
    decreases |calls|
  {
    if calls == [] || !s.conns[id].Live() then s else AllMade(Made(s, id, calls[0]), id, calls[1..])
  }

  lemma {:induction false} AllMadeThen(s: System, id: nat, calls: seq<Call>, more: seq<Call>)
    requires s.WellFormed() && id < |s.conns|
    ensures AllMade(s, id, calls + more) == AllMade(AllMade(s, id, calls), id, more)
    decreases |calls|
  {
    hide Made;
    if calls == [] {
      assert calls + more == more;
    } else if s.conns[id].Live() {
      assert (calls + more)[1..] == calls[1..] + more;
      AllMadeThen(Made(s, id, calls[0]), id, calls[1..], more);
    }
  }

  lemma OneMade(s: System, id: nat, call: Call)
    requires s.WellFormed() && id < |s.conns| && s.conns[id].Live()
    ensures AllMade(s, id, [call]) == Made(s, id, call) && AllMade(s, id, []) == s
  {
    hide Made;
  }

  /** The event is the sequence of its calls. */
  lemma CallsMakeTheEvent(s: System, id: nat, i: Input)
    requires s.WellFormed() && id < |s.conns| && s.conns[id].Live()
    ensures AllMade(s, id, Calls(s.w, s.conns[id], i)) == Next(s, Handle(id, i))
  {
    var c := s.conns[id];
    var r := ReadPart(s.w, c, i);
    var read := if i.readable then [Reading(i.recvs, i.files)] else [];
    ReadingPart(s, id, i);
    CallsParts(s.w, c, i);
    hide Readable, Writable, CloseClient, AllMade, Conn.WellFormed, Calls, ReadPart, WriteCalls, ClientEvent;
    if i.error {
      OneMade(s, id, Closing);
    } else if !r.ok {
      AllMadeThen(s, id, read, [Closing]);
      OneMade(Moved(s, id, r.w, r.c), id, Closing);
    } else {
      AllMadeThen(s, id, read, WriteCalls(r, i));
      WritingPart(s, id, i, r, Moved(s, id, r.w, r.c));
    }
  }

  function WriteStep(r: Step, i: Input): (d: Step)
    requires r.c.WellFormed() && r.c.Live()
    ensures d.c.WellFormed()
  {
    var t := WritePart(r, i);
    if !t.ok || (i.hangup && t.c.WantsInput()) then CloseClient(t.w, t.c) else t
  }

  lemma CallsParts(w: World, c: Conn, i: Input)
    requires c.WellFormed() && c.Live()
    ensures var r, d := ReadPart(w, c, i), Dispatch(w, c, i);
            var read := if i.readable then [Reading(i.recvs, i.files)] else [];
            if i.error then Calls(w, c, i) == [Closing] && d == CloseClient(w, c)
            else if !r.ok then Calls(w, c, i) == read + [Closing] && d == CloseClient(r.w, r.c)
            else Calls(w, c, i) == read + WriteCalls(r, i) && d == WriteStep(r, i)
  {
    hide Readable, Writable, CloseClient, Conn.WellFormed;
  }

  lemma ReadingPart(s: System, id: nat, i: Input)
    requires s.WellFormed() && id < |s.conns| && s.conns[id].Live()
    ensures var r := ReadPart(s.w, s.conns[id], i); var s1 := Moved(s, id, r.w, r.c);
            && s1.WellFormed() && s1.conns[id] == r.c
            && AllMade(s, id, if i.readable then [Reading(i.recvs, i.files)] else []) == s1
  {
    OneMade(s, id, Reading(i.recvs, i.files));
    hide Readable, AllMade, Conn.WellFormed;
    assert s.conns[id := s.conns[id]] == s.conns;
  }

  function WriteCalls(r: Step, i: Input): seq<Call>
    requires r.c.WellFormed() && r.c.Live()
  {
    var writes := i.writable || (i.hangup && !r.c.WantsInput());
    var t := if writes then Writable(r.w, r.c, i.sends, i.files) else r;
    (if writes then [Writing(i.sends, i.files)] else [])
      + if !t.ok || (i.hangup && t.c.WantsInput()) then [Closing] else []
  }

  lemma WritingPart(s: System, id: nat, i: Input, r: Step, s1: System)
    requires s.WellFormed() && id < |s.conns| && r.c.WellFormed() && r.c.Live() && r.ok
    requires s1 == Moved(s, id, r.w, r.c) && s1.WellFormed()
    ensures var d := WriteStep(r, i); AllMade(s1, id, WriteCalls(r, i)) == Moved(s, id, d.w, d.c)
  {
    var writes := i.writable || (i.hangup && !r.c.WantsInput());
    var t := if writes then Writable(r.w, r.c, i.sends, i.files) else r;
    var write := if writes then [Writing(i.sends, i.files)] else [];
    var s2 := Moved(s, id, t.w, t.c);
    hide Writable, CloseClient, AllMade, Conn.WellFormed;
    assert s1.conns[id] == r.c && s2.conns[id] == t.c;
    OneMade(s1, id, Writing(i.sends, i.files));
    assert s1.conns[id := t.c] == s2.conns;
    assert AllMade(s1, id, write) == s2;
    AllMadeThen(s1, id, write, [Closing]);
    AllMadeThen(s1, id, write, []);
    OneMade(s2, id, Closing);
  }

  // Every call of a sequence is harmless, or meets its guard, in the state in which it is made.

  ghost predicate AllHarmless(s: System, id: nat, calls: seq<Call>)
    requires s.WellFormed() && id < |s.conns|
    decreases |calls|
  {
    calls == [] || !s.conns[id].Live()
    || (s.w.disk.Valid() && Harmless(s, id, calls[0]) && AllHarmless(Made(s, id, calls[0]), id, calls[1..]))
  }

  predicate AllGuarded(s: System, id: nat, calls: seq<Call>)
    requires s.WellFormed() && id < |s.conns|
    decreases |calls|
  {
    calls == [] || !s.conns[id].Live()
    || (Guard(s, id, calls[0]) && AllGuarded(Made(s, id, calls[0]), id, calls[1..]))
  }

  function CallsOf(s: System, e: Event): seq<Call>
    requires s.WellFormed()
  {
    if !Possible(s, e) then []
    else
      match e
      case Accept(_) => []
      case Handle(id, input) => Calls(s.w, s.conns[id], input)
      case Drop(_) => [Closing]
  }

  ghost predicate EventHarmless(s: System, e: Event)
    requires s.WellFormed()
  {
    e.Accept? || e.id >= |s.conns| || AllHarmless(s, e.id, CallsOf(s, e))
  }

  predicate EventGuarded(s: System, e: Event)
    requires s.WellFormed()
  {
    e.Accept? || e.id >= |s.conns| || AllGuarded(s, e.id, CallsOf(s, e))
  }

  /** The state is in order and the store is what the history of commits says. */
  ghost predicate InOrder(init: map<string, string>, s: System) {
    Orderly(s) && s.WellFormed() && Store(s) == Replay(init, s.w.log)
  }

  lemma HarmlessKeepsOrder(init: map<string, string>, s: System, id: nat, call: Call)
    requires s.WellFormed() && id < |s.conns| && s.conns[id].Live() && InOrder(init, s) && Harmless(s, id, call)
    ensures InOrder(init, Made(s, id, call))
  {
    var r := Make(s.w, s.conns[id], call);
    FineReplays(init, s, id, r.w, r.c, CommitMade(s.w, r));
    hide Make, Orderly, Store, Replay, Fine;
  }

  lemma FineReplays(init: map<string, string>, s: System, id: nat, w': World, c': Conn, commit: Option<Commit>)
    requires id < |s.conns| && s.w.disk.Valid() && Fine(s, id, w', c', commit) && Store(s) == Replay(init, s.w.log)
    ensures var s' := Moved(s, id, w', c'); Orderly(s') && Store(s') == Replay(init, w'.log)
  {
    hide Orderly, Store;
    if commit.Some? {
      assert w'.log[..|w'.log| - 1] == s.w.log;
    }
  }

  lemma {:induction false} CallsHarmlessIffGuarded(init: map<string, string>, s: System, id: nat, calls: seq<Call>)
    requires s.WellFormed() && id < |s.conns| && InOrder(init, s)
    ensures AllHarmless(s, id, calls) <==> AllGuarded(s, id, calls)
    ensures AllGuarded(s, id, calls) ==> InOrder(init, AllMade(s, id, calls))
    decreases |calls|
  {
    if calls != [] && s.conns[id].Live() {
      assert Orderly(s);
      hide Orderly, Guard, Harmless, Store, Replay, Made, InOrder;
      HarmlessIffGuarded(s, id, calls[0]);
      if Guard(s, id, calls[0]) {
        HarmlessKeepsOrder(init, s, id, calls[0]);
        CallsHarmlessIffGuarded(init, Made(s, id, calls[0]), id, calls[1..]);
      }
    }
  }

  lemma AcceptingKeepsOrder(init: map<string, string>, s: System, fd: nat)
    requires InOrder(init, s)
    ensures InOrder(init, System(s.w, s.conns + [NewConn(fd)]))
  {
    var s' := System(s.w, s.conns + [NewConn(fd)]);
    hide OwnsTemp;
    assert Tidy(s.w, NewConn(fd));
    assert Temps(s'.conns) == Temps(s.conns) by {
      hide Orderly, Tidy;
      AcceptedTemps(s.conns, fd);
    }
    hide Tidy, Temps, NewConn;
  }

  lemma AcceptedTemps(conns: seq<Conn>, fd: nat)
    ensures Temps(conns + [NewConn(fd)]) == Temps(conns)
  {
    var conns' := conns + [NewConn(fd)];
    forall x | x in Temps(conns)
      ensures x in Temps(conns')
    {
      var j :| 0 <= j < |conns| && conns[j].temp != "" && conns[j].temp == x;
      assert conns'[j] == conns[j];
    }
  }

  /**
   One event, with no hypothesis on names: from a state in order, it does no harm if and only if every handler call that
   it makes meets its guard, and then the state is in order again and the store is what the history says.
   */
  lemma {:induction false} EventHarmlessIffGuarded(init: map<string, string>, s: System, e: Event)
    requires s.WellFormed() && InOrder(init, s)
    ensures EventHarmless(s, e) <==> EventGuarded(s, e)
    ensures EventGuarded(s, e) ==> InOrder(init, Next(s, e))
  {
    hide InOrder, AllHarmless, AllGuarded, Calls, NewConn, Dispatch;
    match e {
      case Accept(fd) =>
        AcceptingKeepsOrder(init, s, fd);
      case Handle(id, input) =>
        if id < |s.conns| {
          CallsHarmlessIffGuarded(init, s, id, CallsOf(s, e));
          if s.conns[id].Live() {
            CallsMakeTheEvent(s, id, input);
          }
        }
      case Drop(id) =>
        if id < |s.conns| {
          CallsHarmlessIffGuarded(init, s, id, CallsOf(s, e));
          if s.conns[id].Live() {
            OneMade(s, id, Closing);
          }
        }
    }
  }

  ghost predicate HarmlessRun(d0: Disk, events: seq<Event>) {
    events == []
    || (var before := events[..|events| - 1];
        HarmlessRun(d0, before) && EventHarmless(Run(Start(d0), before), events[|events| - 1]))
  }

  predicate GuardedRun(d0: Disk, events: seq<Event>) {
    events == []
    || (var before := events[..|events| - 1];
        GuardedRun(d0, before) && EventGuarded(Run(Start(d0), before), events[|events| - 1]))
  }

  ghost function AllStored(d: Disk): map<string, string>
    requires d.Valid()
  {
    map n | n in d.names :: d.data[d.names[n]]
  }

  /**
   Runs, with no hypothesis on names: a run does no harm if and only if it meets all guards, and then what is stored,
   under every name that is not of an unfinished upload, is what the server started with and the commits in order.
   */
  lemma {:induction false} RunHarmlessIffGuarded(d0: Disk, events: seq<Event>)
    requires d0.Valid()
    ensures HarmlessRun(d0, events) <==> GuardedRun(d0, events)
    ensures GuardedRun(d0, events) ==> InOrder(AllStored(d0), Run(Start(d0), events))
  {
    if events == [] {
      assert Temps(Start(d0).conns) == {};
    } else {
      var before, e := events[..|events| - 1], events[|events| - 1];
      hide InOrder, EventHarmless, EventGuarded, Next, AllStored;
      RunHarmlessIffGuarded(d0, before);
      if GuardedRun(d0, before) {
        EventHarmlessIffGuarded(AllStored(d0), Run(Start(d0), before), e);
      }
    }
  }

  // ---------------------------------------------------------------------------
  // Clean runs meet the guards

  /** The root has no file with a temporary name. */
  ghost predicate NoTempsIn(d: Disk) {
    forall n | n in d.names :: !IsTempName(n)
  }

  /** Requests of a kind that can do no harm: no name of the form of a temporary file. */
  ghost predicate Clean(r: Step) {
    r.c.past.asked.Some? ==> !IsTempName(r.c.past.asked.value.filename)
  }

  lemma ClosingGuarded(s: System, id: nat)
    requires s.WellFormed() && id < |s.conns|
    ensures AllGuarded(s, id, [Closing])
  {
    if s.conns[id].Live() {
      assert [Closing][1..] == [];
    }
  }

  lemma TempsAreTemps(s: System, name: string)
    requires Orderly(s) && name in Temps(s.conns)
    ensures IsTempName(name)
  {
    var j :| 0 <= j < |s.conns| && s.conns[j].temp != "" && s.conns[j].temp == name;
    assert Tidy(s.w, s.conns[j]);
    OwnTempIssued(s.w, s.conns[j]);
  }

  lemma CleanFinal(s: System, id: nat)
    requires Orderly(s) && id < |s.conns| && s.conns[id].temp != "" && NoTempRequest(s.conns[id])
    ensures s.conns[id].final !in OtherTemps(s.conns, id)
  {
    TidyParts(s, id);
    TempsSplit(s.conns, id);
    hide Orderly, Tidy, OtherTemps, Temps;
    if s.conns[id].final in OtherTemps(s.conns, id) {
      TempsAreTemps(s, s.conns[id].final);
    }
  }

  lemma AccountedTemp(d0: Disk, s: System, temp: string)
    requires TempsAccounted(d0, s) && IsTempName(temp) && temp in s.w.disk.names && temp !in d0.names && temp != ""
    ensures temp in Temps(s.conns)
  {
    var k :| 0 <= k < |s.conns| && s.conns[k].temp == temp;
    assert temp == s.conns[k].temp;
  }

  /** No file has the next temporary name. */
  lemma CleanTempIsNew(d0: Disk, s: System, fd: nat)
    requires Orderly(s) && TempsAccounted(d0, s) && NoTempsIn(d0)
    ensures TempName(fd, s.w.sequence + 1) !in s.w.disk.names
  {
    var temp := TempName(fd, s.w.sequence + 1);
    assert IsTempName(temp) && temp != "";
    NextTempIsFree(s, fd);
    hide Orderly, TempName, Temps;
    if temp in s.w.disk.names {
      AccountedTemp(d0, s, temp);
    }
  }

  lemma CleanRead(d0: Disk, s: System, id: nat, recvs: seq<RecvOutcome>, files: FileOutcomes)
    requires s.WellFormed() && Orderly(s) && id < |s.conns| && s.conns[id].Live() && NoTempRequest(s.conns[id])
    requires TempsAccounted(d0, s) && NoTempsIn(d0)
    requires Clean(Readable(s.w, s.conns[id], recvs, files))
    ensures Guard(s, id, Reading(recvs, files))
  {
    var c := s.conns[id];
    hide Orderly, Readable, Settled, TempsAccounted, Conn.WellFormed, Guard;
    if Settled(recvs).Data? && c.state.AwaitingRequest? {
      CleanLine(d0, s, id, recvs, files);
    } else {
      CleanPayload(s, id, recvs, files);
    }
  }

  lemma CleanLine(d0: Disk, s: System, id: nat, recvs: seq<RecvOutcome>, files: FileOutcomes)
    requires s.WellFormed() && Orderly(s) && id < |s.conns| && s.conns[id].Live() && s.conns[id].state.AwaitingRequest?
    requires TempsAccounted(d0, s) && NoTempsIn(d0) && Settled(recvs).Data?
    requires Clean(Readable(s.w, s.conns[id], recvs, files))
    ensures Guard(s, id, Reading(recvs, files))
  {
    ReadsLine(s.w, s.conns[id], recvs, files);
    LineGuard(s, id, recvs, files);
    hide Orderly, Readable, Requested, RequestGuard, RequestData, Settled, TempsAccounted, Conn.WellFormed, IsTempName,
         Guard;
    if Requested(s.conns[id], Settled(recvs).bytes).Some? {
      CleanAsked(d0, s, id, Settled(recvs).bytes, files);
    }
  }

  lemma CleanAsked(d0: Disk, s: System, id: nat, bytes: string, files: FileOutcomes)
    requires s.WellFormed() && Orderly(s) && id < |s.conns| && s.conns[id].Live() && s.conns[id].state.AwaitingRequest?
    requires TempsAccounted(d0, s) && NoTempsIn(d0)
    requires Requested(s.conns[id], bytes).Some? && Clean(RequestData(s.w, s.conns[id], bytes, files))
    ensures RequestGuard(s, id, Requested(s.conns[id], bytes).value, files)
  {
    var request := Requested(s.conns[id], bytes).value;
    CleanTempIsNew(d0, s, s.conns[id].fd);
    hide Orderly, Requested, RequestGuard, RequestData, TempsAccounted, TempName, Temps, Conn.WellFormed, NoTempsIn,
         Clean;
    CleanRequest(s, id, bytes, files);
    EitherGuard(s, id, request, files);
  }

  lemma EitherGuard(s: System, id: nat, request: Request, files: FileOutcomes)
    requires id < |s.conns| && s.conns[id].Live() && request.filename !in Temps(s.conns)
    requires TempName(s.conns[id].fd, s.w.sequence + 1) !in s.w.disk.names
    ensures RequestGuard(s, id, request, files)
  {
    hide Temps, TempName;
  }

  lemma CleanPayload(s: System, id: nat, recvs: seq<RecvOutcome>, files: FileOutcomes)
    requires s.WellFormed() && Orderly(s) && id < |s.conns| && s.conns[id].Live() && NoTempRequest(s.conns[id])
    requires !Settled(recvs).Data? || !s.conns[id].state.AwaitingRequest?
    ensures Guard(s, id, Reading(recvs, files))
  {
    var c := s.conns[id];
    TidyParts(s, id);
    hide Orderly, Settled, Tidy, OtherTemps;
    if c.state.ReceivingFile? {
      CleanFinal(s, id);
    }
  }

  lemma CleanRequest(s: System, id: nat, bytes: string, files: FileOutcomes)
    requires s.WellFormed() && Orderly(s) && id < |s.conns| && s.conns[id].Live() && s.conns[id].state.AwaitingRequest?
    requires Requested(s.conns[id], bytes).Some? && Clean(RequestData(s.w, s.conns[id], bytes, files))
    ensures Requested(s.conns[id], bytes).value.filename !in Temps(s.conns)
  {
    var c := s.conns[id];
    var request := Requested(c, bytes).value;
    RequestEffect(s.w, c, bytes, files);
    hide Orderly, RequestData, StartRequest, Requested, Temps;
    assert StartRequest(s.w, Asking(s.w, c, bytes, request, files), request, files).c.past.asked == Some(request);
    if request.filename in Temps(s.conns) {
      TempsAreTemps(s, request.filename);
    }
  }

  lemma CleanWrite(s: System, id: nat, r: Step, i: Input)
    requires s.WellFormed() && Orderly(s) && id < |s.conns| && s.conns[id] == r.c && s.w == r.w && r.c.Live()
    requires Clean(r)
    ensures AllGuarded(s, id, WriteCalls(r, i))
  {
    TidyParts(s, id);
    var call := Writing(i.sends, i.files);
    assert Guard(s, id, call) by {
      if r.c.state.SendingReady? {
        CleanFinal(s, id);
      }
    }
    OneMade(s, id, call);
    hide Orderly, Guard, Writable, AllGuarded, Conn.WellFormed;
    WritesGuarded(s, id, r, i);
  }

  lemma WritesGuarded(s: System, id: nat, r: Step, i: Input)
    requires s.WellFormed() && id < |s.conns| && s.conns[id] == r.c && s.w == r.w && r.c.Live()
    requires Guard(s, id, Writing(i.sends, i.files))
    ensures AllGuarded(s, id, WriteCalls(r, i))
  {
    var call := Writing(i.sends, i.files);
    ClosingGuarded(s, id);
    ClosingGuarded(Made(s, id, call), id);
    assert AllGuarded(Made(s, id, call), id, []);
    assert [call, Closing][1..] == [Closing] && [call][1..] == [];
    assert [call] + [Closing] == [call, Closing];
    hide Guard, Writable, Conn.WellFormed, Make;
  }

  lemma AskedLasts(w: World, c: Conn, i: Input)
    requires c.WellFormed() && c.Live()
    ensures !i.error ==> Dispatch(w, c, i).c.past.asked == ReadPart(w, c, i).c.past.asked
  {
    hide Readable, Writable, Conn.WellFormed;
  }

  lemma CleanHandle(d0: Disk, s: System, id: nat, i: Input)
    requires d0.Valid() && s.WellFormed() && InOrder(AllStored(d0), s) && id < |s.conns| && s.conns[id].Live()
    requires NoTempRequest(s.conns[id]) && NoTempRequest(Dispatch(s.w, s.conns[id], i).c)
    requires TempsAccounted(d0, s) && NoTempsIn(d0)
    ensures AllGuarded(s, id, Calls(s.w, s.conns[id], i))
  {
    var c := s.conns[id];
    var r := ReadPart(s.w, c, i);
    var s1 := Moved(s, id, r.w, r.c);
    CallsParts(s.w, c, i);
    AskedLasts(s.w, c, i);
    ClosingGuarded(s, id);
    assert Orderly(s);
    if !i.error {
      var after := if r.ok then WriteCalls(r, i) else [Closing];
      if i.readable {
        var call := Reading(i.recvs, i.files);
        assert Clean(Readable(s.w, c, i.recvs, i.files));
        hide Orderly, InOrder, Calls, WriteCalls, Readable, Writable, CloseClient, Dispatch, Conn.WellFormed, Harmless,
             Guard, TempsAccounted, AllStored;
        CleanRead(d0, s, id, i.recvs, i.files);
        HarmlessIffGuarded(s, id, call);
        HarmlessKeepsOrder(AllStored(d0), s, id, call);
        OrderlyIfInOrder(AllStored(d0), s1);
        AfterReading(s, id, call, s1, r, i);
      } else {
        hide Orderly, InOrder, Calls, WriteCalls, Readable, Writable, CloseClient, Dispatch, Conn.WellFormed,
             AllGuarded;
        assert [] + after == after;
        CleanWrite(s, id, r, i);
      }
    }
  }

  lemma OrderlyIfInOrder(init: map<string, string>, s: System)
    requires InOrder(init, s)
    ensures Orderly(s)
  {
    hide Orderly, Store;
  }

  lemma AfterReading(s: System, id: nat, call: Call, s1: System, r: Step, i: Input)
    requires s.WellFormed() && id < |s.conns| && s.conns[id].Live() && Guard(s, id, call)
    requires r == Make(s.w, s.conns[id], call) && s1 == Moved(s, id, r.w, r.c) && s1.WellFormed() && Orderly(s1)
    requires r.c.Live() && Clean(r)
    ensures AllGuarded(s, id, [call] + if r.ok then WriteCalls(r, i) else [Closing])
  {
    var after := if r.ok then WriteCalls(r, i) else [Closing];
    hide Guard, Make, Orderly, WriteCalls, Conn.WellFormed;
    assert s1.conns[id] == r.c;
    ClosingGuarded(s1, id);
    CleanWrite(s1, id, r, i);
    assert ([call] + after)[1..] == after;
  }

  lemma CleanEventGuarded(d0: Disk, s: System, e: Event)
    requires d0.Valid() && s.WellFormed() && InOrder(AllStored(d0), s) && NoTempRequests(s)
    requires NoTempRequests(Next(s, e))
    requires TempsAccounted(d0, s) && NoTempsIn(d0)
    ensures EventGuarded(s, e)
  {
    hide InOrder, AllStored, TempsAccounted, AllGuarded, Calls, Dispatch, CloseClient, NoTempRequest;
    if e.Handle? && Possible(s, e) {
      assert Next(s, e).conns[e.id] == Dispatch(s.w, s.conns[e.id], e.input).c;
      CleanHandle(d0, s, e.id, e.input);
    } else if e.Drop? && e.id < |s.conns| {
      ClosingGuarded(s, e.id);
      assert AllGuarded(s, e.id, []) by {
        NoCallsGuarded(s, e.id);
      }
    } else if e.Handle? && e.id < |s.conns| {
      NoCallsGuarded(s, e.id);
    }
  }

  lemma NoCallsGuarded(s: System, id: nat)
    requires s.WellFormed() && id < |s.conns|
    ensures AllGuarded(s, id, [])
  {
  }

  /** When nobody asks for a temporary name and the root has none at the start, all guards are met. */
  lemma {:induction false} CleanRunsAreGuarded(d0: Disk, events: seq<Event>)
    requires d0.Valid() && CleanRun(d0, events) && NoTempsIn(d0)
    ensures GuardedRun(d0, events)
  {
    if events != [] {
      var before := events[..|events| - 1];
      CleanBefore(d0, events);
      CleanRunsAreGuarded(d0, before);
      RunHarmlessIffGuarded(d0, before);
      RunGood(d0, before);
      hide CleanRun, InOrder, AllStored, Next, NoTempRequests, EventGuarded, TempsAccounted, AllGood, GoodWorlds;
      CleanEventGuarded(d0, Run(Start(d0), before), events[|events| - 1]);
    }
  }

  lemma CleanBefore(d0: Disk, events: seq<Event>)
    requires CleanRun(d0, events) && events != []
    ensures var before := events[..|events| - 1];
            && CleanRun(d0, before) && NoTempRequests(Run(Start(d0), before)) && NoTempRequests(Run(Start(d0), events))
  {
    var before := events[..|events| - 1];
    hide Run, NoTempRequests;
    assert forall k | 0 <= k <= |before| :: before[..k] == events[..k];
    assert events[..|events|] == events;
  }
}
