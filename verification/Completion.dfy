/**
 Transfers in which nothing fails come to an end: a measure over both programs that every step decreases,
 and, from every state, a way to the end that succeeds unless the server has refused a download.
 */
module Completion {
  import opened Text
  import opened Requests
  import opened Storage
  import opened Connection
  import opened ConnectionInvariant
  import opened Transcript
  import opened Grounds
  import opened Linearizability
  import opened Peer
  import opened Net
  import opened EndToEnd
  import opened Progress

  // ---------------------------------------------------------------------------
  // The measure of the client

  function PeerRank(p: Peer): nat {
    match p.phase
    case SendingRequest(_) => 5
    case AwaitingHeader => 4
    case AwaitingReady => 4
    case Copying(_) => 3
    case Reading => 3
    case SendingChunk(_, _, _) => 3
    case AwaitingResult => 2
    case Done(_) => 0
  }

  function PayloadLeft(p: Peer, sent: nat): nat {
    if p.job.Upload? && sent <= |p.job.local| then 2 * (|p.job.local| - sent) else 0
  }

  function PeerLeft(p: Peer): nat {
    match p.phase
    case SendingRequest(_) => |Outgoing(p)|
    case Copying(remaining) => 2 * remaining + if NeedsInput(p) then 1 else 0
    case Reading => PayloadLeft(p, p.sentBytes) + 1
    case SendingChunk(_, offset, _) => PayloadLeft(p, p.sentBytes + offset)
    case _ => if NeedsInput(p) then MAX_RESPONSE_LINE + 1 - |p.buffered| else 0
  }

  ghost predicate PeerBelow(q: Peer, p: Peer) {
    PeerRank(q) < PeerRank(p) || (PeerRank(q) == PeerRank(p) && PeerLeft(q) < PeerLeft(p))
  }

  lemma SendDescends(p: Peer, n: nat)
    requires p in GoodPeers() && IsSending(p) && RightPhase(p) && 0 < n <= |Outgoing(p)|
    ensures PeerBelow(Advance(p, n), p)
  {
    hide TextOf, AskedBy, Split, Confirmed;
  }

  lemma ReceiveDescends(p: Peer, bytes: Chunk)
    requires NeedsInput(p)
    ensures PeerBelow(AfterRecv(p, Data(bytes)), p)
  {
  }

  lemma WorkDescends(p: Peer, l: LocalOutcomes)
    requires CanWork(p) && RightPhase(p) && p in GoodPeers()
    ensures PeerBelow(Work(p, l), p)
  {
    hide TextOf, AskedBy, Split, Confirmed, IsErrorLine, OkSizeOf, Find;
    if p.phase.Copying? {
    } else if p.phase.Reading? {
    } else {
      LineDescends(p, l);
    }
  }

  lemma LineDescends(p: Peer, l: LocalOutcomes)
    requires CanWork(p) && AwaitsLine(p) && RightPhase(p)
    ensures PeerRank(WorkOnLine(p, l)) < PeerRank(p)
  {
    hide IsErrorLine, OkSizeOf, Find;
  }

  /** Every step of the client, whatever the calls answer, leaves it exactly as it is or moves it down. */
  lemma {:induction false} PeerDescends(p: Peer, pe: PeerEvent)
    requires p in GoodPeers() && RightPhase(p)
    ensures PeerStep(p, pe) == p || PeerBelow(PeerStep(p, pe), p)
  {
    hide GoodPeers, Advance, Work, CanWork, NeedsInput, Outgoing, AfterRecv;
    match pe {
      case Sends(s) =>
        if IsSending(p) && s.Sent? && s.count > 0 {
          SomethingOut(p);
          SendDescends(p, Min(s.count, |Outgoing(p)|));
        } else if IsSending(p) {
          FailDescends(p);
        }
      case Receives(r) =>
        if NeedsInput(p) {
          ReceiveOrFail(p, r);
        }
      case Works(l) =>
        if CanWork(p) {
          WorkDescends(p, l);
        }
    }
  }

  lemma ReceiveOrFail(p: Peer, r: RecvOutcome)
    requires NeedsInput(p)
    ensures AfterRecv(p, r) == p || PeerBelow(AfterRecv(p, r), p)
  {
    if r.Data? {
      ReceiveDescends(p, r.bytes);
    }
  }

  lemma FailDescends(p: Peer)
    requires !p.phase.Done?
    ensures PeerBelow(Fail(p), p)
  {
  }

  // ---------------------------------------------------------------------------
  // What the server does when nothing fails

  lemma {:induction false} SettledWell(recvs: seq<RecvOutcome>)
    requires forall r | r in recvs :: r.Data? || r.RecvWouldBlock? || r.RecvInterrupted?
    ensures Settled(recvs).Data? || Settled(recvs).RecvWouldBlock?
  {
    if recvs != [] && recvs[0].RecvInterrupted? {
      SettledWell(recvs[1..]);
    }
  }

  lemma {:induction false} FlushesWell(c: Conn, sends: seq<SendOutcome>)
    requires c.WellFormed() && forall s | s in sends :: Taken(s) || s.SendWouldBlock? || s.SendInterrupted?
    ensures !FlushPending(c, sends).result.Failed?
    decreases |sends|
  {
    if c.pendingOffset < |c.pending| && sends != [] {
      assert sends[0] in sends;
      if Taken(sends[0]) {
        FlushesWell(AcceptPart(c, Min(sends[0].count, |c.pending| - c.pendingOffset)), sends[1..]);
      } else if sends[0].SendInterrupted? {
        FlushesWell(c, sends[1..]);
      }
    }
  }

  /** The next bytes of a transfer that is still asking are more of its request line, or the end of it. */
  lemma RequestHeard(init: map<string, string>, w: World, c: Conn, l: Link, bytes: string)
    requires Healthy(init, w, c, l) && c.state.AwaitingRequest? && c.past.received + bytes <= l.peer.sent
    ensures var all := c.request + bytes; var newline := Find(all, '\n');
            if newline == |all| then |all| <= MAX_REQUEST_LINE
            else newline + 1 == |all| && newline <= MAX_REQUEST_LINE
                 && ParseRequest(all[..newline]) == Accepted(AskedBy(l.peer.job, l.peer.remote))
  {
    var p, all := l.peer, c.request + bytes;
    assert c.request == c.past.received && c.past.sent == "";
    PairPrefixes(c.past, l);
    SendsInOrder(p);
    hide GoodConns, HeardConns, GoodPeers, FullText, ValidRequest, SafeFilename, ParseRequest;
    assert all <= FullText(p) by {
      assert all <= p.sent;
    }
    FindAbsent(all, '\n');
    if '\n' in all {
      HearsRequest(p, all);
      ParsedBack(AskedBy(p.job, p.remote));
    } else {
      ShortWithoutNewline(p, all);
    }
  }

  /** Nothing fails, so an accepted request is carried out unless the name of a download is missing. */
  lemma StartsWell(w: World, c: Conn, request: Request, files: FileOutcomes)
    requires c.WellFormed() && c.window == "" && c.Live() && c.state.AwaitingRequest? && Working(files)
    requires c.past.asked == Some(request) && c.past.missing == (request.filename !in w.disk.names)
    ensures var c' := StartRequest(w, c, request, files).c;
            && SameRequest(c, c') && c'.state.SendingError? == (request.Get? && c.past.missing)
  {
    hide OkLine, ErrorLine, TempName, Disk.Truncate, Disk.Remove, Disk.Contents;
  }

  lemma RequestTaken(init: map<string, string>, w: World, c: Conn, l: Link, bytes: Chunk, files: FileOutcomes)
    requires Healthy(init, w, c, l) && c.state.AwaitingRequest? && c.Live()
    requires c.past.received + bytes <= l.peer.sent && Working(files)
    ensures var c' := RequestData(w, c, bytes, files).c;
            && (c'.past.asked.None? || c'.past.asked == Some(AskedBy(l.peer.job, l.peer.remote)))
            && (c'.state.SendingError? ==> l.peer.job.Download? && c'.past.missing)
  {
    RequestHeard(init, w, c, l, bytes);
    assert c.past.asked.None? && c.WellFormed() && c.window == "";
    hide GoodConns, HeardConns, GroundedConns, GoodLinks, GoodPeers, ValidRequest, SafeFilename, ParseRequest, Find,
         StartRequest, RequestData;
    var all := c.request + bytes;
    if Find(all, '\n') < |all| {
      WholeLineTaken(w, c, bytes, AskedBy(l.peer.job, l.peer.remote), files);
    } else {
      PartOfLineTaken(w, c, bytes, files);
    }
  }

  lemma PartOfLineTaken(w: World, c: Conn, bytes: Chunk, files: FileOutcomes)
    requires c.WellFormed() && c.window == "" && c.Live() && c.state.AwaitingRequest?
    requires var all := c.request + bytes; Find(all, '\n') == |all| <= MAX_REQUEST_LINE
    ensures var c' := RequestData(w, c, bytes, files).c; c'.past.asked == c.past.asked && c'.state.AwaitingRequest?
  {
    hide Find;
  }

  lemma WholeLineTaken(w: World, c: Conn, bytes: Chunk, request: Request, files: FileOutcomes)
    requires c.WellFormed() && c.window == "" && c.Live() && c.state.AwaitingRequest? && Working(files)
    requires var all := c.request + bytes; var newline := Find(all, '\n');
             newline + 1 == |all| && newline <= MAX_REQUEST_LINE && ParseRequest(all[..newline]) == Accepted(request)
    ensures var c' := RequestData(w, c, bytes, files).c;
            c'.past.asked == Some(request) && (c'.state.SendingError? ==> request.Get? && c'.past.missing)
  {
    StartsWell(w, c.(request := "", past := c.past.Hears(bytes).Asks(request, w, files)), request, files);
    hide StartRequest, ParseRequest, Find;
  }

  /** The next bytes of an upload never exceed its size, so they are written, and the last ones complete it. */
  lemma PayloadTaken(init: map<string, string>, w: World, c: Conn, l: Link, bytes: Chunk, files: FileOutcomes)
    requires Healthy(init, w, c, l) && c.state.ReceivingFile? && c.Live() && c.past.received + bytes <= l.peer.sent
    requires files.canWrite && files.canClose && files.canRename
    ensures var c' := UploadData(w, c, bytes, files).c;
            c'.past.asked == c.past.asked && (c'.state.ReceivingFile? || c'.state.SendingResult?)
  {
    FitsUpload(init, w, c, l, bytes);
    assert c.temp in w.disk.names;
    hide GoodConns, HeardConns, GoodLinks, GoodPeers, ValidRequest, SafeFilename, OkLine, ErrorLine;
  }

  lemma FitsUpload(init: map<string, string>, w: World, c: Conn, l: Link, bytes: string)
    requires Healthy(init, w, c, l) && c.state.ReceivingFile? && c.past.received + bytes <= l.peer.sent
    ensures c.transferred + |bytes| <= c.expected
  {
    JobStates(init, w, c, l);
    AskedIsMeant(init, w, c, l);
    PairPrefixes(c.past, l);
    assert c.transferred == |c.past.payload|;
    assert l.peer.job.Upload?;
    hide GoodConns, HeardConns, GoodPeers, GoodLinks, AskedBy, TextOf;
  }

  /** What a handler leaves behind when nothing fails: it gives up only when everything has been said. */
  predicate WellDone(c: Conn, s: Step)
    requires s.c.WellFormed()
  {
    && (s.ok ==> s.c.Live())
    && (!s.ok ==> Finished(s.c))
    && (s.c.state.SendingError? ==> c.state.SendingError?)
    && SameRequest(c, s.c)
  }

  lemma FileFacts(init: map<string, string>, w: World, c: Conn)
    requires c in GoodConns(init, w) && c.state.SendingFile?
    ensures c.WellFormed() && c.pending == "" && c.expected == |w.disk.Contents(c.input)|
    ensures c.position == c.transferred + |c.window| - c.windowOffset
  {
    hide ServedFrom, OkLine;
  }

  lemma WindowWell(w: World, c: Conn, s: SendOutcome)
    requires c.WellFormed() && c.state.SendingFile? && c.Live() && c.windowOffset < |c.window|
    requires Taken(s) || s.SendWouldBlock? || s.SendInterrupted?
    ensures var r := SendWindow(w, c, s); r.ok && r.c.Live() && r.c.state.SendingFile? && SameRequest(c, r.c)
  {
  }

  lemma RefillWell(w: World, c: Conn, files: FileOutcomes)
    requires c.WellFormed() && c.state.SendingFile? && c.windowOffset == |c.window| && c.transferred < c.expected
    requires c.position == c.transferred && c.expected == |w.disk.Contents(c.input)| && files.readCount > 0
    ensures var r := Refill(w, c, files);
            r.ok && r.c.fd == c.fd && r.c.windowOffset < |r.c.window| && SameRequest(c, r.c)
  {
    hide Disk.Contents;
  }

  /** What is left in the window is sent. */
  lemma SendsWindow(w: World, c: Conn, s: SendOutcome, files: FileOutcomes)
    requires c.WellFormed() && c.state.SendingFile? && c.Live() && c.windowOffset < |c.window|
    requires Taken(s) || s.SendWouldBlock? || s.SendInterrupted?
    ensures WellDone(c, FileWritable(w, c, s, files))
  {
    hide SendWindow, Refill, Taken, Finished, Disk.Contents;
    WindowWell(w, c, s);
  }

  lemma EndsDownload(w: World, c: Conn, s: SendOutcome, files: FileOutcomes)
    requires c.WellFormed() && c.state.SendingFile? && c.windowOffset == |c.window| && c.transferred == c.expected
    requires c.pending == ""
    ensures WellDone(c, FileWritable(w, c, s, files))
  {
    hide SendWindow, Refill, Disk.Contents;
  }

  lemma SendsNextWindow(w: World, c: Conn, s: SendOutcome, files: FileOutcomes)
    requires c.WellFormed() && c.state.SendingFile? && c.Live() && c.windowOffset == |c.window|
    requires c.transferred < c.expected
    requires c.position == c.transferred && c.expected == |w.disk.Contents(c.input)| && files.readCount > 0
    requires Taken(s) || s.SendWouldBlock? || s.SendInterrupted?
    ensures WellDone(c, FileWritable(w, c, s, files))
  {
    hide SendWindow, Refill, Taken, Finished, Disk.Contents;
    RefillWell(w, c, files);
    WindowWell(w, Refill(w, c, files).c, s);
  }

  lemma FileWell(init: map<string, string>, w: World, c: Conn, s: SendOutcome, files: FileOutcomes)
    requires c in GoodConns(init, w) && c.state.SendingFile? && c.Live() && c.WellFormed()
    requires (Taken(s) || s.SendWouldBlock? || s.SendInterrupted?) && files.readCount > 0
    ensures WellDone(c, FileWritable(w, c, s, files))
  {
    hide FileWritable, WellDone, Taken, Disk.Contents, GoodConns;
    FileFacts(init, w, c);
    if c.windowOffset < |c.window| {
      SendsWindow(w, c, s, files);
    } else if c.transferred < c.expected {
      SendsNextWindow(w, c, s, files);
    } else {
      EndsDownload(w, c, s, files);
    }
  }

  lemma DrainedWell(init: map<string, string>, w: World, c: Conn, sends: seq<SendOutcome>, files: FileOutcomes)
    requires c in GoodConns(init, w) && c.Live() && c.WellFormed() && !c.WantsInput() && !c.state.SendingFile?
    requires files.canClose && files.canRename
    requires FlushPending(c, sends).result.Drained?
    ensures WellDone(c, AfterDrain(w, FlushPending(c, sends).c, files))
  {
    FlushConserves(c, sends);
    assert c.state.SendingReady? ==> c.temp in w.disk.names;
    hide GoodConns, OkLine, FlushPending;
  }

  lemma WritingWell(init: map<string, string>, w: World, c: Conn, i: Input)
    requires c in GoodConns(init, w) && c.Live() && c.WellFormed() && FaultFree(i)
    ensures WellDone(c, Writable(w, c, i.sends, i.files))
  {
    hide GoodConns, AfterDrain, FileWritable, Conn.WellFormed;
    if c.state.SendingFile? {
      FileWell(init, w, c, if i.sends == [] then SendWouldBlock else i.sends[0], i.files);
    } else if !c.WantsInput() {
      FlushesWell(c, i.sends);
      if FlushPending(c, i.sends).result.Drained? {
        DrainedWell(init, w, c, i.sends, i.files);
      }
    }
  }

  /** Where reading may lead when nothing fails. */
  predicate WellRead(p: Peer, c: Conn, s: Step) {
    && s.ok && s.c.Live()
    && (s.c.state.SendingError? ==> p.job.Download? && s.c.past.missing)
    && (s.c.past.asked == c.past.asked || s.c.past.asked == Some(AskedBy(p.job, p.remote)))
  }

  lemma ReadingWell(init: map<string, string>, w: World, c: Conn, l: Link, i: Input)
    requires Healthy(init, w, c, l) && c.Live() && FaultFree(i)
    requires Readable(w, c, i.recvs, i.files).c.past.received <= l.peer.sent
    ensures WellRead(l.peer, c, Readable(w, c, i.recvs, i.files))
  {
    hide RequestData, UploadData, GoodConns, GoodLinks, AskedBy, SafeFilename;
    SettledWell(i.recvs);
    var outcome := Settled(i.recvs);
    if outcome.Data? {
      if c.state.AwaitingRequest? {
        RequestTaken(init, w, c, l, outcome.bytes, i.files);
        assert c.past.asked.None?;
      } else if c.state.ReceivingFile? {
        PayloadTaken(init, w, c, l, outcome.bytes, i.files);
      }
    }
  }

  lemma AskedKeepsClear(c: Conn, c': Conn, p: Peer)
    requires NoTempRequest(c) && !IsTempName(p.remote)
    requires c'.past.asked == c.past.asked || c'.past.asked == Some(AskedBy(p.job, p.remote))
    ensures NoTempRequest(c')
  {
  }

  lemma ClosedFinished(s: Step)
    requires s.c.WellFormed() && Finished(s.c)
    ensures Finished(CloseClient(s.w, s.c).c)
  {
  }

  /** Both halves of an event in which nothing fails. */
  lemma EventWell(init: map<string, string>, w: World, c: Conn, l: Link, i: Input)
    requires Healthy(init, w, c, l) && w in GoodWorlds(init) && c.Live() && FaultFree(i)
    requires !IsTempName(l.peer.remote) && NoTempRequest(c)
    requires Dispatch(w, c, i).c.past.received <= l.peer.sent
    ensures var s := ClientEvent(w, c, i);
            && (s.ok ==> s.c.Live()) && (!s.ok ==> Finished(s.c))
            && (s.c.state.SendingError? ==> l.peer.job.Download? && s.c.past.missing) && NoTempRequest(s.c)
  {
    hide Readable, Writable, GoodConns, GoodWorlds, GoodLinks, HeardConns, AskedBy, IsTempName, FaultFree,
         Finished, NoTempRequest, ValidRequest, SafeFilename;
    var s := if i.readable then Readable(w, c, i.recvs, i.files) else Step(w, c, true);
    assert !i.hangup && !i.error by {
      FaultFreeFlags(i);
    }
    if i.readable {
      ReadingWell(init, w, c, l, i);
      AskedKeepsClear(c, s.c, l.peer);
      ReadGood(init, w, c, i);
    }
    if i.writable {
      WritingWell(init, s.w, s.c, i);
      AskedKeepsClear(s.c, Writable(s.w, s.c, i.sends, i.files).c, l.peer);
    }
  }

  lemma FaultFreeFlags(i: Input)
    requires FaultFree(i)
    ensures !i.hangup && !i.error
  {
  }

  lemma ErrorStays(w: World, c: Conn, i: Input)
    requires c.WellFormed() && c.Live() && c.state.SendingError?
    ensures var c' := Dispatch(w, c, i).c; c'.state.SendingError? && SameRequest(c, c')
  {
    DispatchParts(w, c, i);
    var r := ReadPart(w, c, i);
    assert r == Step(w, c, true);
    ErrorStaysWriting(r, i);
    hide Dispatch, ReadPart, WritePart, RemoveTemporary;
  }

  lemma ErrorStaysWriting(r: Step, i: Input)
    requires r.c.WellFormed() && r.c.Live() && r.c.state.SendingError?
    ensures var c' := WritePart(r, i).c; c'.state.SendingError? && SameRequest(r.c, c')
  {
    var f := FlushPending(r.c, i.sends);
    assert OnlyFlushed(r.c, f.c);
    hide FlushPending;
  }

  /** One event of the server in which nothing fails breaks nothing. */
  lemma DispatchWell(init: map<string, string>, w: World, c: Conn, l: Link, i: Input)
    requires Healthy(init, w, c, l) && w in GoodWorlds(init) && c.Live() && FaultFree(i)
    requires !IsTempName(l.peer.remote) && NoTempRequest(c)
    requires Dispatch(w, c, i).c.past.received <= l.peer.sent
    ensures var r := Dispatch(w, c, i); Unbroken(r.c, l.peer) && NoTempRequest(r.c)
  {
    EventWell(init, w, c, l, i);
    if c.state.SendingError? {
      ErrorStays(w, c, i);
    }
    hide ClientEvent, GoodConns, GoodWorlds, GoodLinks, HeardConns, AskedBy, IsTempName, FaultFree,
         ValidRequest, SafeFilename;
    var s := ClientEvent(w, c, i);
    if !s.ok {
      ClosedFinished(s);
    }
    hide Finished;
  }

  // ---------------------------------------------------------------------------
  // What the client does when nothing fails

  lemma OkLineLength(n: nat)
    requires n <= UINT64_MAX
    ensures |OkLine(n)| <= 24
  {
    assert Pow10(10) == 10_000_000_000 && Pow10(20) == 100_000_000_000_000_000_000;
    DecimalLength(n, 20);
  }

  lemma LongEnough(t: string, line: string, rest: string)
    requires t <= line + "\n" + rest && |line| < |t|
    ensures '\n' in t
  {
    assert t[|line|] == '\n';
  }

  /** The client understands the header of a download. */
  lemma HeaderUnderstood(p: Peer, contents: string, l: LocalOutcomes)
    requires p.phase.AwaitingHeader? && CanWork(p) && RightPhase(p) && l.canCreate
    requires p.buffered <= OkLine(|contents|) + contents && |contents| <= UINT64_MAX
    ensures WorkOnLine(p, l).phase.Copying?
  {
    var n := |contents|;
    OkLineLength(n);
    OkLineReads(n);
    if |p.buffered| > MAX_RESPONSE_LINE {
      LongEnough(p.buffered, "OK " + ToDecimal(n), contents);
    }
    OkHeader(p.buffered, n, contents);
    LineTaken(p);
    hide OkSizeOf, IsErrorLine, Find;
  }

  lemma ReadyUnderstood(p: Peer, n: nat, l: LocalOutcomes)
    requires p.phase.AwaitingReady? && CanWork(p) && RightPhase(p)
    requires p.buffered <= READY_LINE + OkLine(n) && n <= UINT64_MAX
    ensures WorkOnLine(p, l).phase.Reading?
  {
    OkLineLength(n);
    ReadyIsLine();
    if '\n' in p.buffered {
      assert READY_LINE + OkLine(n) == "READY" + "\n" + OkLine(n);
      assert '\n' !in "READY" && "READY"[0] == 'R';
      FirstLine("READY", OkLine(n), p.buffered);
      LineTaken(p);
    }
    hide OkSizeOf, Find;
  }

  lemma ResultUnderstood(p: Peer, l: LocalOutcomes)
    requires p.phase.AwaitingResult? && p.job.Upload? && CanWork(p) && RightPhase(p)
    requires p.buffered <= OkLine(|p.job.local|) && |p.job.local| <= UINT64_MAX
    ensures WorkOnLine(p, l).phase == Done(true)
  {
    var n := |p.job.local|;
    OkLineLength(n);
    OkLineReads(n);
    if '\n' in p.buffered {
      assert OkLine(n) + "" == OkLine(n);
      OkHeader(p.buffered, n, "");
      LineTaken(p);
    }
    hide OkSizeOf, IsErrorLine, Find;
  }

  lemma ServedSize(init: map<string, string>, w: World, c: Conn)
    requires c in GoodConns(init, w) && w in GoodWorlds(init) && IsServing(c)
    ensures c.past.sent <= OkLine(|w.disk.Contents(c.input)|) + w.disk.Contents(c.input)
    ensures |w.disk.Contents(c.input)| <= UINT64_MAX
  {
    PrefixOfPromise(c);
    if c.state.SendingFile? {
      var contents := w.disk.data[c.input];
      assert contents[..c.transferred] <= contents;
    }
    hide ServedFrom, OkLine, Disk.Visible, Replay;
  }

  lemma UploadSays(init: map<string, string>, w: World, c: Conn)
    requires c in GoodConns(init, w) && (c.state.SendingReady? || c.state.ReceivingFile? || c.state.SendingResult?)
    ensures c.past.sent <= READY_LINE + OkLine(c.expected)
  {
    PrefixOfPromise(c);
    hide OkLine, READY_LINE, OwnsTemp;
  }

  lemma LineHears(past: Past, l: Link)
    requires l in GoodLinks(past) && AwaitsLine(l.peer) && CanWork(l.peer)
    ensures var p := l.peer; p.received <= past.sent && past.sent != "" && RightPhase(p)
    ensures var p := l.peer; p.received == if p.phase.AwaitingResult? then READY_LINE + p.buffered else p.buffered
  {
    assert l.peer in GoodPeers();
    hide AskedBy, TextOf, Split, Confirmed;
  }

  lemma AfterReady(buffered: string, line: string)
    requires READY_LINE + buffered <= READY_LINE + line
    ensures buffered <= line
  {
    hide READY_LINE;
    assert (READY_LINE + buffered)[|READY_LINE|..] == buffered && (READY_LINE + line)[|READY_LINE|..] == line;
  }

  /** As long as the server has not refused, every line that the client acts on is the one it expects. */
  lemma LineWell(init: map<string, string>, w: World, c: Conn, l: Link, o: LocalOutcomes)
    requires Healthy(init, w, c, l) && w in GoodWorlds(init) && !c.state.SendingError?
    requires AwaitsLine(l.peer) && CanWork(l.peer) && RightPhase(l.peer) && o.canCreate
    ensures WorkOnLine(l.peer, o).phase != Done(false) && !WorkOnLine(l.peer, o).phase.SendingChunk?
  {
    JobStates(init, w, c, l);
    hide GoodConns, GoodLinks, HeardConns, GoodWorlds, AskedBy, WorkOnLine, CanWork, SafeFilename;
    if l.peer.phase.AwaitingHeader? {
      HeaderWell(init, w, c, l, o);
    } else {
      AnswerWell(init, w, c, l, o);
    }
  }

  lemma HeaderWell(init: map<string, string>, w: World, c: Conn, l: Link, o: LocalOutcomes)
    requires Healthy(init, w, c, l) && w in GoodWorlds(init) && !c.state.SendingError?
    requires l.peer.phase.AwaitingHeader? && CanWork(l.peer) && RightPhase(l.peer) && o.canCreate
    ensures WorkOnLine(l.peer, o).phase.Copying?
  {
    LineHears(c.past, l);
    StateBehind(init, w, c);
    JobStates(init, w, c, l);
    hide GoodConns, GoodLinks, HeardConns, GoodWorlds, AskedBy, WorkOnLine, CanWork, SafeFilename, OkLine, READY_LINE,
         Disk.Contents;
    ServedSize(init, w, c);
    HeaderUnderstood(l.peer, w.disk.Contents(c.input), o);
  }

  lemma AnswerWell(init: map<string, string>, w: World, c: Conn, l: Link, o: LocalOutcomes)
    requires Healthy(init, w, c, l) && w in GoodWorlds(init) && !c.state.SendingError?
    requires (l.peer.phase.AwaitingReady? || l.peer.phase.AwaitingResult?) && CanWork(l.peer) && RightPhase(l.peer)
    ensures WorkOnLine(l.peer, o).phase.Reading? || WorkOnLine(l.peer, o).phase == Done(true)
  {
    var p := l.peer;
    LineHears(c.past, l);
    StateBehind(init, w, c);
    JobStates(init, w, c, l);
    hide GoodConns, GoodLinks, HeardConns, GoodWorlds, AskedBy, WorkOnLine, CanWork, SafeFilename, OkLine, READY_LINE,
         Disk.Contents;
    UploadSays(init, w, c);
    if p.phase.AwaitingReady? {
      ReadyUnderstood(p, c.expected, o);
    } else {
      AfterReady(p.buffered, OkLine(c.expected));
      ResultUnderstood(p, o);
    }
  }

  lemma ReadWell(p: Peer, l: LocalOutcomes)
    requires p in GoodPeers() && p.phase.Reading? && p.job.Upload? && l.intact && l.count >= BUFFER_SIZE
    ensures var q := ReadSome(p, l); q.phase != Done(false) && WholeChunk(q)
  {
    hide TextOf, AskedBy, Split, Confirmed;
  }

  lemma ChunkWell(p: Peer, n: nat)
    requires p in GoodPeers() && IsSending(p) && RightPhase(p) && WholeChunk(p) && n <= |Outgoing(p)|
    ensures var q := Advance(p, n); q.phase != Done(false) && WholeChunk(q)
  {
    hide TextOf, AskedBy, Split, Confirmed;
  }

  /** One step of the client in which nothing fails breaks nothing. */
  lemma ClientWell(init: map<string, string>, w: World, c: Conn, l: Link, pe: PeerEvent)
    requires Healthy(init, w, c, l) && w in GoodWorlds(init) && RightPhase(l.peer) && FaultFreeClient(pe)
    ensures Unbroken(c, PeerStep(l.peer, pe))
  {
    var p := l.peer;
    assert p in GoodPeers();
    hide GoodConns, GoodLinks, HeardConns, GoodWorlds, GoodPeers, AskedBy, Advance, ReadSome, WorkOnLine,
         SafeFilename, WholeChunk, Finished, ValidRequest, RightPhase, NeedsInput;
    match pe {
      case Sends(s) =>
        if IsSending(p) && Taken(s) {
          ChunkWell(p, Min(s.count, |Outgoing(p)|));
        }
      case Receives(r) =>
        ReceivedWell(p, r);
      case Works(o) =>
        if CanWork(p) {
          WorkWell(init, w, c, l, o);
        }
    }
  }

  lemma ReceivedWell(p: Peer, r: RecvOutcome)
    requires RightPhase(p) && WholeChunk(p) && (r.Data? || r.RecvInterrupted?)
    ensures var q := PeerStep(p, Receives(r)); (q.phase == Done(false) ==> p.phase == Done(false)) && WholeChunk(q)
  {
  }

  lemma WorkWell(init: map<string, string>, w: World, c: Conn, l: Link, o: LocalOutcomes)
    requires Healthy(init, w, c, l) && w in GoodWorlds(init) && CanWork(l.peer) && RightPhase(l.peer)
             && FaultFreeClient(Works(o))
    ensures var q := Work(l.peer, o); (q.phase == Done(false) ==> c.state.SendingError?) && WholeChunk(q)
  {
    var p := l.peer;
    assert p in GoodPeers();
    hide GoodConns, GoodLinks, HeardConns, GoodWorlds, GoodPeers, AskedBy, ReadSome, WorkOnLine, SafeFilename,
         Finished, ValidRequest;
    if p.phase.Reading? {
      ReadWell(p, o);
    } else if !p.phase.Copying? {
      NoChunkFromLine(p, o);
      if !c.state.SendingError? {
        LineWell(init, w, c, l, o);
      }
    }
  }

  lemma NoChunkFromLine(p: Peer, l: LocalOutcomes)
    requires CanWork(p) && AwaitsLine(p) && RightPhase(p)
    ensures WholeChunk(WorkOnLine(p, l))
  {
    hide IsErrorLine, OkSizeOf, Find;
  }
}
