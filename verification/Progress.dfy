/**
 Progress of a transfer in which nothing fails: the two programs never wait for each other, every step that does
 anything brings them closer to the end, and at the end the transfer has succeeded or has been refused.
 */
module Progress {
  import opened Text
  import opened Requests
  import opened Storage
  import opened Connection
  import opened ConnectionInvariant
  import opened Transcript
  import opened Peer
  import opened Net
  import opened EndToEnd

  // ---------------------------------------------------------------------------
  // Runs without faults

  /** No hang-up, no error, no end of stream, and every file operation succeeds. */
  predicate FaultFree(i: Input) {
    && !i.hangup && !i.error
    && (forall r | r in i.recvs :: r.Data? || r.RecvWouldBlock? || r.RecvInterrupted?)
    && (forall s | s in i.sends :: Taken(s) || s.SendWouldBlock? || s.SendInterrupted?)
    && Working(i.files)
  }

  predicate Working(files: FileOutcomes) {
    && files.found && files.canOpen && files.canSize && files.canSeek
    && files.canCreate && files.canWrite && files.canClose && files.canRename && files.readCount > 0
  }

  predicate Taken(s: SendOutcome) {
    s.Sent? && s.count > 0
  }

  /** Reads of the local file are short only at its end. */
  predicate FaultFreeClient(pe: PeerEvent) {
    match pe
    case Sends(s) => Taken(s) || s.SendInterrupted?
    case Receives(r) => r.Data? || r.RecvInterrupted?
    case Works(l) => l.canCreate && l.canWrite && l.canFinish && l.intact && l.count >= BUFFER_SIZE
  }

  /** A connection that was closed because it had said all that it had promised. */
  predicate Finished(c: Conn)
    requires c.WellFormed()
  {
    && !c.WantsInput() && !c.state.SendingReady? && c.Unsent() == ""
    && (c.state.SendingFile? ==> c.transferred == c.expected)
    && (c.state.SendingGetHeader? ==> c.expected == 0)
  }

  predicate WholeChunk(p: Peer) {
    p.phase.SendingChunk? && p.phase.next.Last? && p.job.Upload? ==>
      p.phase.next.intact && p.sentBytes + |p.phase.chunk| == |p.job.local|
  }

  /**
   Nothing has failed so far, except that a download may have been refused because the server did not have its name.
   */
  predicate Unbroken(c: Conn, p: Peer)
    requires c.WellFormed()
  {
    && (c.state.SendingError? ==> p.job.Download? && c.past.missing)
    && (!c.Live() ==> Finished(c))
    && (p.phase == Done(false) ==> c.state.SendingError?)
    && WholeChunk(p)
  }

  // ---------------------------------------------------------------------------
  // Nobody waits for ever

  predicate ClientCanAct(l: Link, capacity: nat) {
    CanWork(l.peer) || (IsSending(l.peer) && |l.toServer| < capacity) || (NeedsInput(l.peer) && l.toClient != "")
  }

  predicate ServerCanAct(c: Conn, l: Link, capacity: nat) {
    c.Live() && if c.WantsInput() then l.toServer != "" else |l.toClient| < capacity
  }

  /** The invariants of both ends of a transfer in which nothing has failed. */
  ghost predicate Healthy(init: map<string, string>, w: World, c: Conn, l: Link) {
    && Paired(init, w, c, l) && ValidRequest(AskedBy(l.peer.job, l.peer.remote))
    && c.WellFormed() && Unbroken(c, l.peer)
  }

  lemma RefusedAfterLine(init: map<string, string>, w: World, c: Conn, l: Link)
    requires Healthy(init, w, c, l) && c.state.SendingError?
    ensures '\n' in c.past.received
  {
    hide GoodConns, GoodLinks, ValidRequest, SafeFilename, Blames, FairRefusal;
    ErrorBlamed(c);
    var reason :| Blames(c, reason);
    PairFraming(init, w, c, l, reason);
    LineBehindRefusal(l.peer, c, reason);
  }

  lemma LineBehindRefusal(p: Peer, c: Conn, reason: string)
    requires c.WellFormed() && Blames(c, reason) && FairRefusal(p, c.past, reason)
    ensures '\n' in c.past.received
  {
    RequestHasNewline(c.past.received);
  }

  lemma LineBehind(init: map<string, string>, w: World, c: Conn, l: Link)
    requires Healthy(init, w, c, l)
    ensures c.state.AwaitingRequest? <==> '\n' !in c.past.received
  {
    if c.state.SendingError? {
      RefusedAfterLine(init, w, c, l);
    } else if !c.state.AwaitingRequest? {
      RequestHasNewline(c.past.received);
    }
  }

  /** While the client is sending, the server reads. */
  lemma ServerListens(init: map<string, string>, w: World, c: Conn, l: Link)
    requires Healthy(init, w, c, l) && IsSending(l.peer)
    ensures c.Live() && c.WantsInput()
  {
    LineBehind(init, w, c, l);
    if l.peer.phase.SendingRequest? {
      NoLineYet(c.past, l);
    } else {
      ChunkMeansReceiving(init, w, c, l);
    }
  }

  lemma NoLineYet(past: Past, l: Link)
    requires l in GoodLinks(past) && l.peer.phase.SendingRequest? && SafeFilename(l.peer.remote)
    ensures '\n' !in past.received
  {
    NameHasNoNewline(AskedBy(l.peer.job, l.peer.remote));
    var line := PrintRequest(AskedBy(l.peer.job, l.peer.remote));
    hide AskedBy, PrintRequest, SafeFilename;
    assert past.received <= l.peer.sent == RequestText(l.peer)[..l.peer.phase.offset];
    assert past.received <= line;
  }

  /** Past the request, the job of the client decides which states the connection can be in. */
  lemma JobStates(init: map<string, string>, w: World, c: Conn, l: Link)
    requires Paired(init, w, c, l) && !c.state.AwaitingRequest? && !c.state.SendingError?
    ensures l.peer.job.Upload? ==>
              && (c.state.SendingReady? || c.state.ReceivingFile? || c.state.SendingResult?)
              && c.expected == |l.peer.job.local|
    ensures l.peer.job.Download? ==> c.state.SendingGetHeader? || c.state.SendingFile?
  {
    AskedIsMeant(init, w, c, l);
    hide Promised, Windowed, OwnsTemp, ServedFrom, Disk.Frozen, HeardConns, GoodLinks, ValidRequest;
  }

  lemma ReadyUnsent(init: map<string, string>, w: World, c: Conn)
    requires c in GoodConns(init, w) && c.state.SendingReady? && c.Live()
    ensures |c.past.sent| < |READY_LINE|
  {
    assert Promised(c) == READY_LINE;
    hide Uploading, READY_LINE;
  }

  lemma ResultHasAll(init: map<string, string>, w: World, c: Conn)
    requires c in GoodConns(init, w) && c.state.SendingResult?
    ensures |c.past.payload| == c.expected
  {
    hide Promised;
  }

  lemma ReceivingLacks(init: map<string, string>, w: World, c: Conn)
    requires c in GoodConns(init, w) && c.state.ReceivingFile?
    ensures |c.past.payload| < c.expected && c.past.sent == READY_LINE
  {
    hide OwnsTemp;
  }

  lemma ChunkProgress(past: Past, l: Link)
    requires l in GoodLinks(past) && l.peer.phase.SendingChunk?
    ensures l.peer.job.Upload? && |READY_LINE| <= |past.sent|
    ensures |past.received| < |RequestText(l.peer)| + |l.peer.job.local|
  {
    var p := l.peer;
    assert p in GoodPeers() && Chunked(p, p.phase.chunk, p.phase.offset);
    hide TextOf, AskedBy, GoodPeers;
  }

  lemma ChunkMeansReceiving(init: map<string, string>, w: World, c: Conn, l: Link)
    requires Healthy(init, w, c, l) && l.peer.phase.SendingChunk? && !c.state.AwaitingRequest?
    ensures c.state.ReceivingFile? && c.Live()
  {
    ChunkProgress(c.past, l);
    JobStates(init, w, c, l);
    AskedIsMeant(init, w, c, l);
    hide GoodConns, GoodLinks, HeardConns, AskedBy, TextOf, ValidRequest, SafeFilename;
    if c.state.SendingReady? && c.Live() {
      ReadyUnsent(init, w, c);
    }
    if c.state.SendingResult? {
      ResultHasAll(init, w, c);
    }
  }

  // ---------------------------------------------------------------------------
  // A client that waits is owed an answer

  lemma RequestEnds(p: Peer, rest: string)
    ensures '\n' in RequestText(p) && '\n' in RequestText(p) + rest
  {
    var text := RequestText(p);
    assert text[|text| - 1] == '\n' && (text + rest)[|text| - 1] == '\n';
  }

  /** Nothing is on its way in either direction, and the server wants to read: then the client is not waiting. */
  lemma NotBothWait(init: map<string, string>, w: World, c: Conn, l: Link)
    requires Healthy(init, w, c, l) && c.WantsInput() && l.toServer == "" && l.toClient == ""
    ensures !NeedsInput(l.peer)
  {
    if NeedsInput(l.peer) {
      var p := l.peer;
      WaitingHasAsked(c.past, l);
      LineBehind(init, w, c, l);
      JobStates(init, w, c, l);
      AskedIsMeant(init, w, c, l);
      ReceivingLacks(init, w, c);
      hide GoodConns, HeardConns, AskedBy, TextOf, ValidRequest, SafeFilename, Split, Confirmed;
      ReadyIsLine();
    }
  }

  lemma ReadyIsLine()
    ensures '\n' in READY_LINE
  {
    assert READY_LINE[5] == '\n';
  }

  lemma NewlineIn(line: string, rest: string)
    ensures '\n' in line + "\n" + rest
  {
    assert (line + "\n" + rest)[|line|] == '\n';
  }

  /** A client that waits has sent its whole request. */
  lemma WaitingHasAsked(past: Past, l: Link)
    requires l in GoodLinks(past) && NeedsInput(l.peer) && l.toServer == ""
    ensures '\n' in past.received
    ensures l.peer.phase.AwaitingResult? ==>
              l.peer.job.Upload? && past.received == RequestText(l.peer) + l.peer.job.local
    ensures !l.peer.phase.AwaitingResult? ==> past.received == RequestText(l.peer)
    ensures l.peer.phase.AwaitingHeader? || l.peer.phase.AwaitingReady? ==> l.peer.buffered == l.peer.received
    ensures l.peer.phase.Copying? ==> l.peer.job.Download?
  {
    var p := l.peer;
    RequestEnds(p, if p.job.Upload? then p.job.local else "");
    assert p in GoodPeers();
    hide AskedBy, TextOf, Split, Confirmed;
    if p.phase.AwaitingResult? {
      assert p.job.local[..|p.job.local|] == p.job.local;
    }
  }

  /** What a finished connection has said. */
  lemma FinishedSaid(init: map<string, string>, w: World, c: Conn)
    requires c in GoodConns(init, w) && c.WellFormed() && Finished(c)
    ensures c.state.SendingGetHeader? || c.state.SendingFile? ==>
              exists contents :: |contents| == c.expected && c.past.sent == OkLine(c.expected) + contents
    ensures c.state.SendingResult? ==> c.past.sent == READY_LINE + OkLine(c.expected)
    ensures '\n' in c.past.sent
  {
    hide ServedFrom;
    assert Promised(c) == c.past.sent;
    match c.state {
      case SendingGetHeader =>
        NewlineIn("OK " + ToDecimal(c.expected), "");
        assert c.past.sent == OkLine(c.expected) + "";
      case SendingFile =>
        var contents := w.disk.data[c.input];
        assert contents[..c.transferred] == contents;
        NewlineIn("OK " + ToDecimal(c.expected), contents);
      case SendingResult =>
        NewlineIn("READY", OkLine(c.expected));
      case SendingError =>
        var reason :| Promised(c) == ErrorLine(reason) || Promised(c) == READY_LINE + ErrorLine(reason);
        NewlineIn("ERR " + reason, "");
        NewlineIn("READY", ErrorLine(reason));
      case _ =>
    }
  }

  lemma AnsweredDownload(p: Peer, contents: string)
    requires p.phase.Copying? && Split(p, |p.file| + p.phase.remaining) && p.buffered == ""
    requires p.received == OkLine(|contents|) + contents
    ensures p.phase.remaining == 0
  {
    FindAbsent(p.received, '\n');
    OkHeader(p.received, |contents|, contents);
    hide OkSizeOf;
    assert OkLine(|contents|) == HeaderOf(p.received) + "\n";
  }

  /** A connection that has finished has answered: with everything received, the client is not waiting. */
  lemma FinishedAnswers(init: map<string, string>, w: World, c: Conn, l: Link)
    requires Healthy(init, w, c, l) && Finished(c) && l.toClient == ""
    ensures !NeedsInput(l.peer)
  {
    var p := l.peer;
    FinishedSaid(init, w, c);
    if p.phase.Copying? {
      CopyingAnswered(init, w, c, l);
    } else if p.phase.AwaitingResult? {
      ResultAnswered(init, w, c, l);
    } else {
      ListeningHears(c.past, l);
    }
  }

  lemma ListeningHears(past: Past, l: Link)
    requires l in GoodLinks(past) && l.toClient == "" && '\n' in past.sent
    requires !l.peer.phase.Copying? && !l.peer.phase.AwaitingResult?
    ensures !NeedsInput(l.peer)
  {
    assert l.peer in GoodPeers();
    hide AskedBy, TextOf, Split, Confirmed;
  }

  lemma CopyingHears(past: Past, l: Link)
    requires l in GoodLinks(past) && l.toClient == "" && l.peer.phase.Copying?
    ensures var p := l.peer; p.job.Download? && p.received == past.sent && Split(p, |p.file| + p.phase.remaining)
  {
    assert l.peer in GoodPeers();
    hide AskedBy, TextOf, Split;
  }

  lemma FinishedDownload(init: map<string, string>, w: World, c: Conn) returns (contents: string)
    requires c in GoodConns(init, w) && c.WellFormed() && Finished(c) && c.past.sent != "" && c.past.sent[0] == 'O'
    ensures c.past.sent == OkLine(|contents|) + contents
  {
    StateBehind(init, w, c);
    FinishedSaid(init, w, c);
    hide GoodConns, OkLine, Finished;
    contents :| |contents| == c.expected && c.past.sent == OkLine(c.expected) + contents;
  }

  lemma CopyingAnswered(init: map<string, string>, w: World, c: Conn, l: Link)
    requires Healthy(init, w, c, l) && Finished(c) && l.toClient == "" && l.peer.phase.Copying?
    ensures !NeedsInput(l.peer)
  {
    hide GoodConns, HeardConns, GoodLinks, GoodPeers, Split, AskedBy, ValidRequest, SafeFilename, OkLine, Finished;
    CopyingHears(c.past, l);
    SplitStarts(l.peer, |l.peer.file| + l.peer.phase.remaining);
    var contents := FinishedDownload(init, w, c);
    if l.peer.buffered == "" {
      AnsweredDownload(l.peer, contents);
    }
  }

  lemma SplitStarts(p: Peer, size: nat)
    requires Split(p, size)
    ensures p.received != "" && p.received[0] == 'O'
  {
    HeaderStarts(p.received, size);
  }

  lemma ResultHears(past: Past, l: Link, line: string)
    requires l in GoodLinks(past) && l.toClient == "" && l.peer.phase.AwaitingResult? && past.sent == READY_LINE + line
    ensures l.peer.buffered == line
  {
    assert l.peer in GoodPeers();
    hide AskedBy, TextOf, Split, Confirmed, READY_LINE;
    assert l.peer.received == READY_LINE + l.peer.buffered;
    assert l.peer.received[|READY_LINE|..] == l.peer.buffered && past.sent[|READY_LINE|..] == line;
  }

  lemma ResultAnswered(init: map<string, string>, w: World, c: Conn, l: Link)
    requires Healthy(init, w, c, l) && Finished(c) && l.toClient == "" && l.peer.phase.AwaitingResult?
    ensures !NeedsInput(l.peer)
  {
    assert l.peer.job.Upload?;
    JobStates(init, w, c, l);
    FinishedSaid(init, w, c);
    hide GoodConns, HeardConns, GoodLinks, GoodPeers, AskedBy, ValidRequest, SafeFilename, READY_LINE;
    ResultHears(c.past, l, OkLine(c.expected));
    NewlineIn("OK " + ToDecimal(c.expected), "");
    assert OkLine(c.expected) == "OK " + ToDecimal(c.expected) + "\n" + "";
  }

  /**
   No deadlock: as long as the client program has not ended, one side can act, even if the channels
   hold no more than one byte each.
   */
  lemma {:induction false} NoDeadlock(init: map<string, string>, w: World, c: Conn, l: Link, capacity: nat)
    requires Healthy(init, w, c, l) && !l.peer.phase.Done? && capacity > 0
    ensures ClientCanAct(l, capacity) || ServerCanAct(c, l, capacity)
  {
    if IsSending(l.peer) {
      ServerListens(init, w, c, l);
    } else if NeedsInput(l.peer) && l.toClient == "" {
      if !c.Live() {
        FinishedAnswers(init, w, c, l);
      } else if c.WantsInput() && l.toServer == "" {
        NotBothWait(init, w, c, l);
      }
    }
    hide Healthy;
  }
}
