/**
 How a connection reads its byte stream: the request and the payload that it acts on are what splitting the
 received bytes at the first newline gives, and every error line names its cause in those bytes or on the disk.
 */
module Transcript {
  import opened Text
  import opened Requests
  import opened Storage
  import opened Connection
  import opened ConnectionInvariant
  import opened ConnectionProofs

  /** The request that opens a byte stream, if its first line is one. */
  function RequestOf(received: string): Option<Request> {
    var newline := Find(received, '\n');
    if newline == |received| || newline > MAX_REQUEST_LINE then None
    else
      match ParseRequest(received[..newline])
      case Accepted(request) => Some(request)
      case Rejected(_) => None
  }

  /** The bytes after the first line. */
  function Tail(received: string): string {
    var newline := Find(received, '\n');
    if newline == |received| then "" else received[newline + 1..]
  }

  lemma MoreReceived(s: string, t: string)
    requires '\n' in s
    ensures RequestOf(s + t) == RequestOf(s) && Tail(s + t) == Tail(s) + t
  {
    FindInPrefix(s, s + t, '\n');
    var n := Find(s, '\n');
    assert (s + t)[..n] == s[..n];
    assert (s + t)[n + 1..] == s[n + 1..] + t;
  }

  lemma RequestHasNewline(s: string)
    requires RequestOf(s).Some?
    ensures '\n' in s
  {
    FindAbsent(s, '\n');
  }

  /** Why the line that has come in is not accepted as a request. */
  ghost predicate RejectedLine(received: string, reason: string) {
    var newline := Find(received, '\n');
    || (reason == "request-too-long" && newline == |received| > MAX_REQUEST_LINE)
    || (reason == "bad-request" && newline < |received| && (newline + 1 != |received| || newline > MAX_REQUEST_LINE))
    || (newline + 1 == |received| && newline <= MAX_REQUEST_LINE
        && ParseRequest(received[..newline]) == Rejected(reason))
  }

  /**
   Why an accepted request is not carried out: its name was missing or could not be looked up, or one of the file
   operations made for it failed.
   */
  ghost predicate Denied(past: Past, reason: string)
    requires past.asked.Some?
  {
    match past.asked.value
    case Get(_) =>
      if past.missing || !past.calls.found then reason == "not-found"
      else reason == "not-readable" && !(past.calls.canOpen && past.calls.canSize && past.calls.canSeek)
    case Put(_, _) => reason == "storage-failure" && !past.calls.canCreate
  }

  /** Why a request is refused before anything has been sent. */
  ghost predicate RefusedRequest(past: Past, reason: string) {
    || (past.asked.None? && RejectedLine(past.received, reason))
    || (past.asked.Some? && past.asked == RequestOf(past.received) && Tail(past.received) == "" && Denied(past, reason))
  }

  /** Why an upload is refused after `READY`. */
  ghost predicate RefusedUpload(past: Past, reason: string) {
    && past.asked.Some? && past.asked == RequestOf(past.received) && past.asked.value.Put?
    && ((reason == "storage-failure" && !(past.calls.canWrite && past.calls.canClose && past.calls.canRename))
        || (reason == "protocol-error" && |Tail(past.received)| > past.asked.value.size))
  }

  ghost predicate Blames(c: Conn, reason: string)
    requires c.WellFormed()
  {
    || (Promised(c) == ErrorLine(reason) && RefusedRequest(c.past, reason))
    || (Promised(c) == READY_LINE + ErrorLine(reason) && RefusedUpload(c.past, reason))
  }

  ghost predicate Collecting(c: Conn) {
    && c.request == c.past.received && '\n' !in c.past.received && |c.past.received| <= MAX_REQUEST_LINE
    && c.past.asked.None? && c.past.payload == ""
  }

  ghost predicate Parsed(c: Conn) {
    && c.past.asked.Some? && RequestOf(c.past.received) == c.past.asked
    && Tail(c.past.received) == c.past.payload
  }

  ghost predicate Heard(c: Conn)
    requires c.WellFormed()
  {
    match c.state
    case AwaitingRequest => Collecting(c)
    case SendingError => exists reason :: Blames(c, reason)
    case _ => Parsed(c)
  }

  ghost function HeardConns(): iset<Conn> {
    iset c: Conn | c.WellFormed() && Heard(c)
  }

  // ---------------------------------------------------------------------------
  // Every event keeps it

  lemma RefusalHeard(w: World, c: Conn, reason: string)
    requires c.WellFormed() && c.window == "" && c.pending == ""
    requires (c.past.sent == "" && RefusedRequest(c.past, reason))
          || (c.past.sent == READY_LINE && RefusedUpload(c.past, reason))
    ensures Heard(QueueError(w, c, reason).c)
  {
    var c' := QueueError(w, c, reason).c;
    assert c'.Unsent() == ErrorLine(reason);
    assert Promised(c') == c.past.sent + ErrorLine(reason);
    assert c.past.sent == "" ==> Promised(c') == ErrorLine(reason);
    assert Blames(c', reason);
  }

  lemma GetHeard(w: World, c: Conn, name: string, files: FileOutcomes)
    requires c.WellFormed() && c.window == "" && c.pending == "" && c.past.sent == "" && c.Live()
    requires Parsed(c) && c.past.payload == "" && c.past.asked == Some(Get(name))
    requires c.past.missing == (name !in w.disk.names) && c.past.calls == files
    ensures Heard(StartGet(w, c, name, files).c)
  {
    var s := StartGet(w, c, name, files);
    if s.c.state.SendingError? {
      var reason := if !files.found || name !in w.disk.names then "not-found" else "not-readable";
      var c1 := s.c.(state := c.state, pending := "", pendingOffset := 0);
      assert s.c == QueueError(w, c1, reason).c && c1.past == c.past && c1.WellFormed();
      assert Denied(c.past, reason);
      hide RequestOf, Tail, StartGet, Heard, QueueError;
      RefusalHeard(w, c1, reason);
    } else {
      GetKeepsParsed(w, c, name, files);
      hide StartGet, Parsed;
      ParsedHeard(s.c);
    }
  }

  lemma GetKeepsParsed(w: World, c: Conn, name: string, files: FileOutcomes)
    requires c.WellFormed() && c.window == "" && Parsed(c) && !StartGet(w, c, name, files).c.state.SendingError?
    ensures Parsed(StartGet(w, c, name, files).c) && StartGet(w, c, name, files).c.state.SendingGetHeader?
  {
    hide RequestOf, Tail, OkLine, ErrorLine, Disk.Contents;
  }

  lemma PutHeard(w: World, c: Conn, name: string, size: nat, files: FileOutcomes)
    requires c.WellFormed() && c.window == "" && c.pending == "" && c.past.sent == "" && c.Live()
    requires Parsed(c) && c.past.payload == "" && c.past.asked == Some(Put(name, size)) && c.past.calls == files
    ensures Heard(StartPut(w, c, name, size, files).c)
  {
    var s := StartPut(w, c, name, size, files);
    if files.canCreate {
      PutKeepsParsed(w, c, name, size, files);
      hide StartPut, Parsed;
      ParsedHeard(s.c);
    } else {
      PutNotCreated(w, c, name, size, files);
      assert Denied(c.past, "storage-failure");
      hide RequestOf, Tail, StartPut, Heard, TempName, QueueError;
      RefusalHeard(w.(sequence := w.sequence + 1),
                   c.(expected := size, transferred := 0, final := name, temp := TempName(c.fd, w.sequence + 1)),
                   "storage-failure");
    }
  }

  lemma PutKeepsParsed(w: World, c: Conn, name: string, size: nat, files: FileOutcomes)
    requires c.WellFormed() && c.window == "" && c.Live() && Parsed(c) && files.canCreate
    ensures Parsed(StartPut(w, c, name, size, files).c) && StartPut(w, c, name, size, files).c.state.SendingReady?
  {
    hide RequestOf, Tail, TempName, Disk.Truncate, READY_LINE;
  }

  lemma StartHeard(w: World, c: Conn, request: Request, files: FileOutcomes)
    requires c.WellFormed() && c.window == "" && c.pending == "" && c.past.sent == "" && c.Live()
    requires Parsed(c) && c.past.payload == "" && c.past.asked == Some(request)
    requires c.past.missing == (request.filename !in w.disk.names) && c.past.calls == files
    ensures Heard(StartRequest(w, c, request, files).c)
  {
    hide Heard, Parsed, StartGet, StartPut;
    match request {
      case Get(name) => GetHeard(w, c, name, files);
      case Put(name, size) => PutHeard(w, c, name, size, files);
    }
  }

  lemma RequestDataHeard(w: World, c: Conn, bytes: string, files: FileOutcomes)
    requires Fresh(c) && Collecting(c) && c.state.AwaitingRequest?
    ensures Heard(RequestData(w, c, bytes, files).c)
  {
    var c1 := c.(request := c.request + bytes, past := c.past.Hears(bytes));
    var all := c1.request;
    var newline := Find(all, '\n');
    if newline == |all| <= MAX_REQUEST_LINE {
      FindAbsent(all, '\n');
    } else if newline == |all| || newline + 1 != |all| || newline > MAX_REQUEST_LINE {
      RefusalHeard(w, c1, if newline == |all| then "request-too-long" else "bad-request");
    } else {
      var c2 := c1.(request := "");
      match ParseRequest(all[..newline]) {
        case Rejected(reason) => RefusalHeard(w, c2, reason);
        case Accepted(request) => StartHeard(w, c2.(past := c2.past.Asks(request, w, files)), request, files);
      }
    }
  }

  lemma CompleteHeard(w: World, c: Conn, files: FileOutcomes)
    requires c.WellFormed() && c.window == "" && c.pending == "" && c.past.sent == READY_LINE
    requires Parsed(c) && c.past.asked.value.Put? && c.temp in w.disk.names
    ensures Heard(CompleteUpload(w, c, files).c)
  {
    var s := CompleteUpload(w, c, files);
    if s.c.state.SendingError? {
      RefusedUploadHeard(w, c.(outputOpen := false, past := c.past.(calls := files)), "storage-failure");
    } else {
      ParsedHeard(s.c);
    }
  }

  lemma UploadDataHeard(w: World, c: Conn, bytes: string, files: FileOutcomes)
    requires c.WellFormed() && c.window == "" && c.pending == "" && c.past.sent == READY_LINE && c.state.ReceivingFile?
    requires Parsed(c) && c.past.asked == Some(Put(c.final, c.expected)) && c.transferred == |c.past.payload|
    requires c.temp in w.disk.names
    ensures Heard(UploadData(w, c, bytes, files).c)
  {
    hide RequestOf, Tail, QueueError, CompleteUpload, Heard, Parsed;
    var c1 := c.(past := c.past.HearsPayload(bytes, files));
    var accepted := Min(c.expected - c.transferred, |bytes|);
    var w2 := w.(disk := w.disk.Append(c.output, bytes[..accepted]));
    var c2 := c1.(transferred := c.transferred + accepted);
    StillParsed(c, bytes, files, c1);
    StillParsed(c, bytes, files, c2);
    if !files.canWrite {
      RefusedUploadHeard(w, c1, "storage-failure");
    } else if accepted != |bytes| {
      RefusedUploadHeard(w2, c2, "protocol-error");
    } else if c2.transferred == c2.expected {
      CompleteHeard(w2, c2, files);
    } else {
      ParsedHeard(c2);
    }
  }

  lemma StillParsed(c: Conn, bytes: string, files: FileOutcomes, c': Conn)
    requires Parsed(c) && c'.past == c.past.HearsPayload(bytes, files)
    ensures Parsed(c')
  {
    RequestHasNewline(c.past.received);
    MoreReceived(c.past.received, bytes);
  }

  lemma ParsedHeard(c: Conn)
    requires c.WellFormed() && Parsed(c) && !c.state.AwaitingRequest? && !c.state.SendingError?
    ensures Heard(c)
  {
  }

  lemma RefusedUploadHeard(w: World, c: Conn, reason: string)
    requires c.WellFormed() && c.window == "" && c.pending == "" && c.past.sent == READY_LINE
    requires Parsed(c) && c.past.asked.value.Put?
    requires (reason == "storage-failure"
              && !(c.past.calls.canWrite && c.past.calls.canClose && c.past.calls.canRename))
          || (reason == "protocol-error" && |c.past.payload| > c.past.asked.value.size)
    ensures Heard(QueueError(w, c, reason).c)
  {
    RefusalHeard(w, c, reason);
  }

  lemma ReadableHeard(init: map<string, string>, w: World, c: Conn, recvs: seq<RecvOutcome>, files: FileOutcomes)
    requires c in GoodConns(init, w) && c.Live() && Heard(c)
    ensures Heard(Readable(w, c, recvs, files).c)
  {
    var outcome := Settled(recvs);
    if c.WantsInput() && outcome.Data? {
      if c.state.AwaitingRequest? {
        RequestDataHeard(w, c, outcome.bytes, files);
      } else {
        UploadDataHeard(w, c, outcome.bytes, files);
      }
    }
  }

  lemma SameWordsHeard(c: Conn, c': Conn)
    requires c.WellFormed() && c'.WellFormed() && Heard(c) && Promised(c') == Promised(c)
    requires c'.past == c.past.(sent := c'.past.sent) && !c.state.AwaitingRequest?
    requires c.state == c'.state || (!c.state.SendingError? && !c'.state.SendingError? && !c'.state.AwaitingRequest?)
    ensures Heard(c')
  {
    if c.state.SendingError? {
      var reason :| Blames(c, reason);
      assert Blames(c', reason);
    }
  }

  lemma OwnTempThere(init: map<string, string>, w: World, c: Conn)
    requires c in GoodConns(init, w) && c.Live() && (c.state.SendingReady? || c.state.ReceivingFile?)
    ensures c.temp in w.disk.names && c.WellFormed() && c.window == ""
  {
    hide Promised;
  }

  lemma ReadyPromised(init: map<string, string>, w: World, c: Conn)
    requires c in GoodConns(init, w) && c.state.SendingReady?
    ensures c.WellFormed() && Promised(c) == READY_LINE && c.past.asked.Some? && c.past.asked.value.Put?
  {
    hide OwnsTemp, READY_LINE;
  }

  /** `READY` has gone out to an upload without payload. */
  lemma EmptyUploadHeard(init: map<string, string>, w: World, c: Conn, sends: seq<SendOutcome>, files: FileOutcomes)
    requires c in GoodConns(init, w) && c.Live() && c.WellFormed() && Heard(c) && c.state.SendingReady?
    requires FlushPending(c, sends).result.Drained?
    ensures Heard(CompleteUpload(w, FlushPending(c, sends).c, files).c)
  {
    assert Parsed(c);
    OwnTempThere(init, w, c);
    ReadyPromised(init, w, c);
    FlushConserves(c, sends);
    hide GoodConns, Heard, FlushPending, RequestOf, Tail, READY_LINE;
    CompleteHeard(w, FlushPending(c, sends).c, files);
  }

  lemma FlushedHeard(c: Conn, sends: seq<SendOutcome>)
    requires c.WellFormed() && Heard(c) && !c.WantsInput() && !c.state.SendingFile?
    ensures Heard(FlushPending(c, sends).c)
  {
    FlushConserves(c, sends);
    hide Heard, FlushPending;
    SameWordsHeard(c, FlushPending(c, sends).c);
  }

  lemma AfterDrainHeard(w: World, c: Conn, files: FileOutcomes)
    requires c.WellFormed() && c.window == "" && Heard(c) && !c.WantsInput()
    requires (c.state.SendingReady? ==> c.expected > 0)
    ensures Heard(AfterDrain(w, c, files).c)
  {
    hide RequestOf, Tail, RefusedRequest, RefusedUpload;
  }

  lemma FileHeard(w: World, c: Conn, s: SendOutcome, files: FileOutcomes)
    requires c.WellFormed() && Heard(c) && c.state.SendingFile?
    ensures Heard(FileWritable(w, c, s, files).c)
  {
    WindowOnly(w, c, s, files);
    ParsedAlike(c, FileWritable(w, c, s, files).c);
    hide FileWritable;
  }

  lemma ParsedAlike(c: Conn, c': Conn)
    requires c.WellFormed() && c'.WellFormed() && Heard(c) && c.state.SendingFile? && c'.state == c.state
    requires c'.past == c.past.(sent := c'.past.sent)
    ensures Heard(c')
  {
    hide RequestOf, Tail;
  }

  lemma WritableHeard(init: map<string, string>, w: World, c: Conn, sends: seq<SendOutcome>, files: FileOutcomes)
    requires c in GoodConns(init, w) && c.WellFormed() && Heard(c) && c.Live()
    ensures Heard(Writable(w, c, sends, files).c)
  {
    hide GoodConns, Heard, FlushPending, AfterDrain, FileWritable, CompleteUpload;
    if c.state.SendingFile? {
      FileHeard(w, c, if sends == [] then SendWouldBlock else sends[0], files);
    } else if !c.WantsInput() {
      FlushedHeard(c, sends);
      var f := FlushPending(c, sends);
      if c.state.SendingReady? && f.result.Drained? && c.expected == 0 {
        EmptyUploadHeard(init, w, c, sends, files);
        DrainedEmpty(w, f.c, files);
      } else if f.result.Drained? {
        AfterDrainHeard(w, f.c, files);
      }
    }
  }

  lemma DrainedEmpty(w: World, c: Conn, files: FileOutcomes)
    requires c.WellFormed() && c.window == "" && c.state.SendingReady? && c.expected == 0
    ensures AfterDrain(w, c, files) == CompleteUpload(w, c, files)
  {
  }

  lemma EventHeard(init: map<string, string>, w: World, c: Conn, i: Input)
    requires c in GoodConns(init, w) && w in GoodWorlds(init) && c.WellFormed() && c.Live() && Heard(c)
    requires NoTempRequest(ClientEvent(w, c, i).c)
    ensures Heard(ClientEvent(w, c, i).c)
  {
    hide GoodConns, GoodWorlds, Heard, Readable, Writable;
    if !i.error {
      var s := if i.readable then Readable(w, c, i.recvs, i.files) else Step(w, c, true);
      if i.readable {
        ReadableHeard(init, w, c, i.recvs, i.files);
      }
      if s.ok && (i.writable || (i.hangup && !s.c.WantsInput())) {
        if i.readable {
          ReadGood(init, w, c, i);
        }
        WritableHeard(init, s.w, s.c, i.sends, i.files);
      }
    }
  }

  lemma ReadGood(init: map<string, string>, w: World, c: Conn, i: Input)
    requires c in GoodConns(init, w) && w in GoodWorlds(init) && c.WellFormed() && c.Live()
    requires NoTempRequest(Readable(w, c, i.recvs, i.files).c) && Readable(w, c, i.recvs, i.files).ok
    ensures var s := Readable(w, c, i.recvs, i.files); s.c in GoodConns(init, s.w)
  {
    hide Readable;
    ReadableKeeps(init, w, c, i.recvs, i.files);
  }

  lemma DispatchHeard(init: map<string, string>, w: World, c: Conn, i: Input)
    requires c in GoodConns(init, w) && w in GoodWorlds(init) && c.WellFormed() && c.Live() && Heard(c)
    requires NoTempRequest(Dispatch(w, c, i).c)
    ensures Heard(Dispatch(w, c, i).c)
  {
    hide GoodConns, GoodWorlds, Heard, ClientEvent;
    EventHeard(init, w, c, i);
    ClosedHeard(ClientEvent(w, c, i));
  }

  lemma ClosedHeard(s: Step)
    requires s.c.WellFormed() && Heard(s.c)
    ensures Heard(CloseClient(s.w, s.c).c)
  {
    if s.c.state.SendingError? {
      var reason :| Blames(s.c, reason);
      assert Blames(CloseClient(s.w, s.c).c, reason);
    }
  }
}
