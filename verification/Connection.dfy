/**
 One connection of the server as a value: its fields, and what each handler makes of
 the results that the operating system returns. `Client` in ServerClient.dfy is the object
 that the handlers update in place; every one of its methods is proved equal to a function here.
 */
module Connection {
  import opened Text
  import opened Requests
  import opened Storage

  const BUFFER_SIZE: nat := 64 * 1024

  // ---------------------------------------------------------------------------
  // What the operating system may answer

  /** What one successful `recv` can deliver. */
  type Chunk = s: string | 0 < |s| <= BUFFER_SIZE witness "x"

  datatype RecvOutcome = Data(bytes: Chunk) | EndOfStream | RecvWouldBlock | RecvInterrupted | RecvFailed

  /** `Sent(n)` accepts `n` bytes, or all of them when fewer are offered; `Sent(0)` counts as a failure. */
  datatype SendOutcome = Sent(count: nat) | SendWouldBlock | SendInterrupted | SendFailed

  /** Which file operations succeed while one event is handled, and how much a read delivers. */
  datatype FileOutcomes = FileOutcomes(
    found: bool, canOpen: bool, canSize: bool, canSeek: bool,
    canCreate: bool, canWrite: bool, canClose: bool, canRename: bool, readCount: nat)

  /** One poll event for one connection, with the results of the calls made while it is handled. */
  datatype Input = Input(
    readable: bool, writable: bool, hangup: bool, error: bool,
    recvs: seq<RecvOutcome>, sends: seq<SendOutcome>, files: FileOutcomes)

  // ---------------------------------------------------------------------------
  // State

  datatype ClientState =
    | AwaitingRequest
    | SendingGetHeader
    | SendingFile
    | SendingReady
    | ReceivingFile
    | SendingResult
    | SendingError

  /** What poll is asked to report about a connection. */
  datatype Interest = PollIn | PollOut

  function RequestedEvents(state: ClientState): Interest {
    match state
    case AwaitingRequest => PollIn
    case ReceivingFile => PollIn
    case _ => PollOut
  }

  /** Besides errors and hang-ups poll reports only what it was asked for. */
  predicate AsRequested(state: ClientState, i: Input) {
    (i.readable ==> RequestedEvents(state) == PollIn) && (i.writable ==> RequestedEvents(state) == PollOut)
  }

  datatype FlushResult = Drained | WouldBlock | Failed

  /** A visible change of the store: `name` was bound to `contents`. */
  datatype Commit = Commit(name: string, contents: string)

  /** What all connections share. `log` is the history of the commits made so far. */
  datatype World = World(disk: Disk, sequence: nat, log: seq<Commit>)

  /**
   The history of a connection: every byte read from and written to the socket, the request that was accepted, the bytes
   that came after it, the length of the commit log when the request took effect, whether its name was missing from the
   root at that moment, and the outcomes of the file operations made for it last.
   */
  datatype Past = Past(
    received: string, sent: string, asked: Option<Request>, payload: string, point: nat, missing: bool,
    calls: FileOutcomes)
  {
    function Hears(bytes: string): Past {
      this.(received := received + bytes)
    }

    function HearsPayload(bytes: string, files: FileOutcomes): Past {
      this.(received := received + bytes, payload := payload + bytes, calls := files)
    }

    function Says(bytes: string): Past {
      this.(sent := sent + bytes)
    }

    /** The request is accepted in the presence of `w`. */
    function Asks(request: Request, w: World, files: FileOutcomes): Past {
      this.(asked := Some(request), point := |w.log|, missing := request.filename !in w.disk.names, calls := files)
    }
  }

  const ALL_WELL := FileOutcomes(true, true, true, true, true, true, true, true, BUFFER_SIZE)

  const NOTHING := Past("", "", None, "", 0, false, ALL_WELL)

  /**
   The fields of a connection. The file window is `file_buffer[..file_buffer_size]`.
   */
  datatype Conn = Conn(
    fd: int, state: ClientState,
    request: string, pending: string, pendingOffset: nat,
    window: string, windowOffset: nat,
    input: FileId, position: nat, inputOpen: bool,
    output: FileId, outputOpen: bool,
    temp: string, final: string,
    expected: nat, transferred: nat,
    past: Past)
  {
    /** The bounds that keep every subtraction and every index of the handlers in range. */
    predicate WellFormed() {
      && pendingOffset <= |pending|
      && windowOffset <= |window| <= BUFFER_SIZE
      && (!state.SendingFile? ==> window == "")
      && transferred + |window| - windowOffset <= expected
    }

    predicate Live() {
      0 <= fd
    }

    predicate WantsInput() {
      state.AwaitingRequest? || state.ReceivingFile?
    }

    /** What is left of the control line. */
    function Unsent(): string
      requires WellFormed()
    {
      pending[pendingOffset..]
    }
  }

  function NewConn(fd: int): (c: Conn)
    ensures c.WellFormed()
  {
    Conn(fd, AwaitingRequest, "", "", 0, "", 0, 0, 0, false, 0, false, "", "", 0, 0, NOTHING)
  }

  /** The shared state and the connection after a handler, and whether the handler wants to go on. */
  datatype Step = Step(w: World, c: Conn, ok: bool)

  function OkLine(size: nat): string {
    "OK " + ToDecimal(size) + "\n"
  }

  const READY_LINE: string := "READY\n"

  function ErrorLine(reason: string): string {
    "ERR " + reason + "\n"
  }

  /** Nothing was received or sent between the two. */
  predicate SameTranscript(c: Conn, c': Conn) {
    c'.past.received == c.past.received && c'.past.sent == c.past.sent && c'.past.payload == c.past.payload
      && c'.fd == c.fd
  }

  // ---------------------------------------------------------------------------
  // Closing and errors

  function RemoveTemporary(w: World, c: Conn): World {
    if c.temp == "" then w else w.(disk := w.disk.Remove(c.temp))
  }

  function CloseClient(w: World, c: Conn): (r: Step)
    requires c.WellFormed()
    ensures r.c.WellFormed()
    ensures r.c.past.asked == c.past.asked && r.c.past.received == c.past.received
  {
    Step(RemoveTemporary(w, c),
         c.(inputOpen := false, outputOpen := false, temp := "", fd := if c.fd >= 0 then -1 else c.fd),
         false)
  }

  function QueueError(w: World, c: Conn, reason: string): (r: Step)
    requires c.WellFormed() && c.window == ""
    ensures r.c.WellFormed() && r.ok
    ensures SameTranscript(c, r.c) && r.c.past.asked == c.past.asked
  {
    Step(RemoveTemporary(w, c),
         c.(inputOpen := false, outputOpen := false, temp := "",
            pending := ErrorLine(reason), pendingOffset := 0, state := SendingError),
         true)
  }

  // ---------------------------------------------------------------------------
  // Requests

  function StartGet(w: World, c: Conn, name: string, files: FileOutcomes): (r: Step)
    requires c.WellFormed() && c.window == ""
    ensures r.c.WellFormed() && r.ok
    ensures SameTranscript(c, r.c) && r.c.past.asked == c.past.asked
  {
    if !files.found || name !in w.disk.names then QueueError(w, c, "not-found")
    else if !files.canOpen then QueueError(w, c, "not-readable")
    else
      var c1 := c.(input := w.disk.names[name], inputOpen := true);
      if !files.canSize then QueueError(w, c1, "not-readable")
      else
        var size := |w.disk.Contents(c1.input)|;
        var c2 := c1.(expected := size, transferred := 0, position := size);
        if !files.canSeek then QueueError(w, c2, "not-readable")
        else
          Step(w, c2.(position := 0, pending := OkLine(size), pendingOffset := 0,
                         state := SendingGetHeader, past := c.past.(point := |w.log|)), true)
  }

  function StartPut(w: World, c: Conn, name: string, size: nat, files: FileOutcomes): (r: Step)
    requires c.WellFormed() && c.window == "" && c.Live()
    ensures r.c.WellFormed() && r.ok
    ensures SameTranscript(c, r.c) && r.c.past.asked == c.past.asked
  {
    var w1 := w.(sequence := w.sequence + 1);
    var c1 := c.(expected := size, transferred := 0, final := name, temp := TempName(c.fd, w1.sequence));
    if !files.canCreate then QueueError(w1, c1, "storage-failure")
    else
      var (disk, file) := w.disk.Truncate(c1.temp);
      Step(w1.(disk := disk),
           c1.(output := file, outputOpen := true, pending := READY_LINE, pendingOffset := 0, state := SendingReady),
           true)
  }

  function StartRequest(w: World, c: Conn, request: Request, files: FileOutcomes): (r: Step)
    requires c.WellFormed() && c.window == "" && c.Live()
    ensures r.c.WellFormed() && r.ok
    ensures SameTranscript(c, r.c) && r.c.past.asked == c.past.asked
  {
    match request
    case Get(name) => StartGet(w, c, name, files)
    case Put(name, size) => StartPut(w, c, name, size, files)
  }

  function RequestLine(w: World, c: Conn, line: string, files: FileOutcomes): (r: Step)
    requires c.WellFormed() && c.window == "" && c.Live()
    ensures r.c.WellFormed() && r.ok
    ensures SameTranscript(c, r.c)
  {
    match ParseRequest(line)
    case Rejected(reason) => QueueError(w, c, reason)
    case Accepted(request) => StartRequest(w, c.(past := c.past.Asks(request, w, files)), request, files)
  }

  /** Bytes arrive while the request line is being collected. */
  function RequestData(w: World, c: Conn, bytes: string, files: FileOutcomes): (r: Step)
    requires c.WellFormed() && c.window == "" && c.Live()
    ensures r.c.WellFormed() && r.ok
    ensures r.c.past.received == c.past.received + bytes && r.c.past.sent == c.past.sent && r.c.fd == c.fd
  {
    var c1 := c.(request := c.request + bytes, past := c.past.Hears(bytes));
    var newline := Find(c1.request, '\n');
    if newline == |c1.request| then
      if |c1.request| > MAX_REQUEST_LINE then QueueError(w, c1, "request-too-long") else Step(w, c1, true)
    else if newline + 1 != |c1.request| || newline > MAX_REQUEST_LINE then QueueError(w, c1, "bad-request")
    else RequestLine(w, c1.(request := ""), c1.request[..newline], files)
  }

  function RequestReadable(w: World, c: Conn, r: RecvOutcome, files: FileOutcomes): (s: Step)
    requires c.WellFormed() && c.window == "" && c.Live()
    ensures s.c.WellFormed()
    ensures s.c.fd == c.fd
  {
    match r
    case Data(bytes) => RequestData(w, c, bytes, files)
    case EndOfStream => Step(w, c, false)
    case RecvFailed => Step(w, c, false)
    case RecvWouldBlock => Step(w, c, true)
    case RecvInterrupted => Step(w, c, true)
  }

  // ---------------------------------------------------------------------------
  // Uploads

  function CompleteUpload(w: World, c: Conn, files: FileOutcomes): (r: Step)
    requires c.WellFormed() && c.window == ""
    ensures r.c.WellFormed() && r.ok
    ensures SameTranscript(c, r.c) && r.c.past.asked == c.past.asked
  {
    var c1 := c.(outputOpen := false, past := c.past.(calls := files));
    if !files.canClose || !files.canRename || c.temp !in w.disk.names then QueueError(w, c1, "storage-failure")
    else
      var contents := w.disk.Contents(w.disk.names[c.temp]);
      Step(w.(disk := w.disk.Rename(c.temp, c.final), log := w.log + [Commit(c.final, contents)]),
           c1.(temp := "", pending := OkLine(c.expected), pendingOffset := 0, state := SendingResult,
               past := c1.past.(point := |w.log|)),
           true)
  }

  /** Bytes arrive while the upload is being received. */
  function UploadData(w: World, c: Conn, bytes: string, files: FileOutcomes): (r: Step)
    requires c.WellFormed() && c.window == ""
    ensures r.c.WellFormed() && r.ok
    ensures r.c.past.received == c.past.received + bytes && r.c.past.sent == c.past.sent && r.c.fd == c.fd
    ensures r.c.past.asked == c.past.asked
  {
    var c1 := c.(past := c.past.HearsPayload(bytes, files));
    var accepted := Min(c.expected - c.transferred, |bytes|);
    if !files.canWrite then QueueError(w, c1, "storage-failure")
    else
      var w2 := w.(disk := w.disk.Append(c.output, bytes[..accepted]));
      var c2 := c1.(transferred := c.transferred + accepted);
      if accepted != |bytes| then QueueError(w2, c2, "protocol-error")
      else if c2.transferred == c2.expected then CompleteUpload(w2, c2, files)
      else Step(w2, c2, true)
  }

  // The four outcomes of a write.

  /** The upload with the bytes that fit. */
  function Grown(c: Conn, bytes: string, files: FileOutcomes): Conn {
    c.(transferred := c.transferred + |bytes|, past := c.past.HearsPayload(bytes, files))
  }

  function Appended(w: World, c: Conn, bytes: string): World {
    w.(disk := w.disk.Append(c.output, bytes))
  }

  lemma WriteFails(w: World, c: Conn, bytes: string, files: FileOutcomes)
    requires c.WellFormed() && c.window == "" && !files.canWrite
    ensures UploadData(w, c, bytes, files)
            == QueueError(w, c.(past := c.past.HearsPayload(bytes, files)), "storage-failure")
  {
    hide QueueError, CompleteUpload, Disk.Append;
  }

  lemma WriteOverflows(w: World, c: Conn, bytes: string, files: FileOutcomes)
    requires c.WellFormed() && c.window == "" && files.canWrite && |bytes| > c.expected - c.transferred
    ensures UploadData(w, c, bytes, files)
            == QueueError(Appended(w, c, bytes[..c.expected - c.transferred]),
                          c.(transferred := c.expected, past := c.past.HearsPayload(bytes, files)), "protocol-error")
  {
    hide QueueError, CompleteUpload, Disk.Append;
  }

  lemma WriteCompletes(w: World, c: Conn, bytes: string, files: FileOutcomes)
    requires c.WellFormed() && c.window == "" && files.canWrite && c.transferred + |bytes| == c.expected
    ensures UploadData(w, c, bytes, files) == CompleteUpload(Appended(w, c, bytes), Grown(c, bytes, files), files)
  {
    assert bytes[..|bytes|] == bytes;
    hide QueueError, CompleteUpload, Disk.Append;
  }

  lemma WriteGoesOn(w: World, c: Conn, bytes: string, files: FileOutcomes)
    requires c.WellFormed() && c.window == "" && files.canWrite && c.transferred + |bytes| < c.expected
    ensures UploadData(w, c, bytes, files) == Step(Appended(w, c, bytes), Grown(c, bytes, files), true)
  {
    assert bytes[..|bytes|] == bytes;
    hide QueueError, CompleteUpload, Disk.Append;
  }

  /** What an upload keeps, and the two states in which it ends. */
  predicate Ends(c: Conn, c': Conn) {
    && c'.fd == c.fd && c'.request == c.request && c'.past.asked == c.past.asked
    && (c'.state.SendingError? || c'.state.SendingResult?)
  }

  lemma RefusalEnds(w: World, c: Conn, reason: string)
    requires c.WellFormed() && c.window == ""
    ensures var r := QueueError(w, c, reason);
            && Ends(c, r.c) && r.c.transferred == c.transferred && r.w.log == w.log && r.c.past == c.past
            && r.c.state.SendingError?
  {
    hide ErrorLine;
  }

  lemma CompletionEnds(w: World, c: Conn, files: FileOutcomes)
    requires c.WellFormed() && c.window == ""
    ensures var r := CompleteUpload(w, c, files); Ends(c, r.c) && r.c.transferred == c.transferred
  {
    hide ErrorLine, OkLine, Disk.Rename, Disk.Contents;
  }

  /** A piece of an upload is added, or it is the last one. */
  lemma UploadDataEnds(w: World, c: Conn, bytes: string, files: FileOutcomes)
    requires c.WellFormed() && c.window == ""
    ensures var r := UploadData(w, c, bytes, files);
            if files.canWrite && c.transferred + |bytes| < c.expected then
              r == Step(Appended(w, c, bytes), Grown(c, bytes, files), true)
            else Ends(c, r.c) && c.transferred <= r.c.transferred <= c.transferred + |bytes|
  {
    hide UploadData, QueueError, CompleteUpload, Disk.Append;
    if !files.canWrite {
      WriteFails(w, c, bytes, files);
      RefusalEnds(w, c.(past := c.past.HearsPayload(bytes, files)), "storage-failure");
    } else if c.transferred + |bytes| > c.expected {
      WriteOverflows(w, c, bytes, files);
      RefusalEnds(Appended(w, c, bytes[..c.expected - c.transferred]),
                  c.(transferred := c.expected, past := c.past.HearsPayload(bytes, files)), "protocol-error");
    } else if c.transferred + |bytes| == c.expected {
      WriteCompletes(w, c, bytes, files);
      CompletionEnds(Appended(w, c, bytes), Grown(c, bytes, files), files);
    } else {
      WriteGoesOn(w, c, bytes, files);
    }
  }

  function UploadReadable(w: World, c: Conn, r: RecvOutcome, files: FileOutcomes): (s: Step)
    requires c.WellFormed() && c.window == ""
    ensures s.c.WellFormed()
    ensures s.c.fd == c.fd
  {
    match r
    case Data(bytes) => UploadData(w, c, bytes, files)
    case EndOfStream => Step(w, c, false)
    case RecvFailed => Step(w, c, false)
    case RecvWouldBlock => Step(w, c, true)
    case RecvInterrupted => Step(w, c, true)
  }

  /** The outcome that ends a receive loop: interrupted calls are repeated. */
  function Settled(recvs: seq<RecvOutcome>): (r: RecvOutcome)
    ensures !r.RecvInterrupted?
  {
    if recvs == [] then RecvWouldBlock
    else if recvs[0].RecvInterrupted? then Settled(recvs[1..])
    else recvs[0]
  }

  // ---------------------------------------------------------------------------
  // Output

  datatype Flush = Flush(c: Conn, result: FlushResult)

  /** Everything but the control line, its offset and the bytes sent stays as it was. */
  predicate OnlyFlushed(c: Conn, c': Conn) {
    c' == c.(pending := c'.pending, pendingOffset := c'.pendingOffset, past := c'.past)
    && c'.past == c.past.(sent := c'.past.sent)
  }

  /** The socket takes `n` more bytes of the control line. */
  function AcceptPart(c: Conn, n: nat): (r: Conn)
    requires c.WellFormed() && n <= |c.Unsent()|
    ensures r.WellFormed() && OnlyFlushed(c, r)
    ensures r.pending == c.pending && r.pendingOffset == c.pendingOffset + n
    ensures c.past.sent <= r.past.sent && |r.past.sent| == |c.past.sent| + n
             && r.past.sent + r.Unsent() == c.past.sent + c.Unsent()
  {
    c.(pendingOffset := c.pendingOffset + n, past := c.past.Says(c.pending[c.pendingOffset..c.pendingOffset + n]))
  }

  /** Sends the control line until it is drained or a call does not accept any of it. */
  function FlushPending(c: Conn, sends: seq<SendOutcome>): (f: Flush)
    requires c.WellFormed()
    ensures f.c.WellFormed() && OnlyFlushed(c, f.c)
    decreases |sends|
  {
    if c.pendingOffset == |c.pending| then
      Flush(c.(pending := "", pendingOffset := 0), Drained)
    else if sends == [] then Flush(c, WouldBlock)
    else
      match sends[0]
      case Sent(count) =>
        if count == 0 then Flush(c, Failed)
        else
          FlushPending(AcceptPart(c, Min(count, |c.pending| - c.pendingOffset)), sends[1..])
      case SendInterrupted => FlushPending(c, sends[1..])
      case SendWouldBlock => Flush(c, WouldBlock)
      case SendFailed => Flush(c, Failed)
  }

  /**
   Whatever the calls answer, the bytes sent and the bytes left of the line make up the same text;
   nothing is left exactly when the line is drained.
   */
  lemma {:induction false} FlushConserves(c: Conn, sends: seq<SendOutcome>)
    requires c.WellFormed()
    ensures Conserved(c, FlushPending(c, sends))
    decreases |sends|
  {
    if c.pendingOffset < |c.pending| && sends != [] {
      match sends[0] {
        case Sent(count) =>
          if count > 0 {
            var next := AcceptPart(c, Min(count, |c.pending| - c.pendingOffset));
            FlushConserves(next, sends[1..]);
            ConservedThen(c, next, FlushPending(next, sends[1..]));
            hide Conserved;
          }
        case SendInterrupted =>
          FlushConserves(c, sends[1..]);
          hide Conserved;
        case SendWouldBlock =>
        case SendFailed =>
      }
    }
  }

  predicate Conserved(c: Conn, f: Flush) {
    && c.WellFormed() && f.c.WellFormed()
    && f.c.past.sent + f.c.Unsent() == c.past.sent + c.Unsent()
    && c.past.sent <= f.c.past.sent
    && (f.result.Drained? ==> f.c.pending == "" && f.c.pendingOffset == 0)
    && (!f.result.Drained? ==> f.c.pending == c.pending && c.pendingOffset <= f.c.pendingOffset < |c.pending|)
  }

  lemma ConservedThen(c: Conn, c1: Conn, f: Flush)
    requires c.WellFormed() && c1.WellFormed() && c1.past.sent + c1.Unsent() == c.past.sent + c.Unsent()
    requires c.past.sent <= c1.past.sent && c1.pending == c.pending && c.pendingOffset <= c1.pendingOffset
    requires Conserved(c1, f)
    ensures Conserved(c, f)
  {
  }

  /** What follows once a control line has been sent completely. */
  function AfterDrain(w: World, c: Conn, files: FileOutcomes): (r: Step)
    requires c.WellFormed() && c.window == ""
    ensures r.c.WellFormed()
    ensures r.c.past.asked == c.past.asked && r.c.past.received == c.past.received && r.c.fd == c.fd
  {
    match c.state
    case SendingGetHeader =>
      if c.expected == 0 then Step(w, c, false) else Step(w, c.(state := SendingFile), true)
    case SendingReady =>
      if c.expected == 0 then CompleteUpload(w, c, files) else Step(w, c.(state := ReceivingFile), true)
    case _ => Step(w, c, false)
  }

  /** The socket takes `n` more bytes of the file window. */
  function AcceptWindow(c: Conn, n: nat): (r: Conn)
    requires c.WellFormed() && c.windowOffset + n <= |c.window|
    ensures r.WellFormed() && r.past.received == c.past.received
             && r.past.sent == c.past.sent + c.window[c.windowOffset..c.windowOffset + n]
  {
    c.(windowOffset := c.windowOffset + n, transferred := c.transferred + n,
       past := c.past.Says(c.window[c.windowOffset..c.windowOffset + n]))
  }

  function SendWindow(w: World, c: Conn, s: SendOutcome): (r: Step)
    requires c.WellFormed()
    ensures r.c.WellFormed()
    ensures r.c.past.asked == c.past.asked && r.c.past.received == c.past.received && r.c.fd == c.fd
  {
    match s
    case Sent(count) =>
      var n := Min(count, |c.window| - c.windowOffset);
      if n == 0 then Step(w, c, false) else Step(w, AcceptWindow(c, n), true)
    case SendInterrupted => Step(w, c, true)
    case SendWouldBlock => Step(w, c, true)
    case SendFailed => Step(w, c, false)
  }

  /** The next part of the file replaces a window that is used up; an empty read leaves the old one. */
  function Refill(w: World, c: Conn, files: FileOutcomes): (r: Step)
    requires c.WellFormed() && c.state.SendingFile? && c.windowOffset == |c.window|
    ensures r.c.WellFormed() && r.c.state.SendingFile?
    ensures r.c.past.asked == c.past.asked && r.c.past.received == c.past.received && r.c.fd == c.fd
  {
    var wanted := Min(c.expected - c.transferred, BUFFER_SIZE);
    var bytes := w.disk.Read(c.input, c.position, Min(wanted, files.readCount));
    if bytes == "" then Step(w, c, false)
    else Step(w, c.(position := c.position + |bytes|, window := bytes, windowOffset := 0), true)
  }

  /** One write of a download, with a refill of the file window when it is used up. */
  function FileWritable(w: World, c: Conn, s: SendOutcome, files: FileOutcomes): (r: Step)
    requires c.WellFormed() && c.state.SendingFile?
    ensures r.c.WellFormed()
    ensures r.c.past.asked == c.past.asked && r.c.past.received == c.past.received && r.c.fd == c.fd
  {
    if c.windowOffset < |c.window| then SendWindow(w, c, s)
    else if c.transferred == c.expected then Step(w, c, false)
    else
      var filled := Refill(w, c, files);
      if !filled.ok then filled else SendWindow(w, filled.c, s)
  }

  /** The two halves of a write from the file change the window and what is remembered. */
  predicate OnlyWindow(w: World, c: Conn, r: Step) {
    r.w == w && r.c == c.(position := r.c.position, window := r.c.window, windowOffset := r.c.windowOffset,
                          transferred := r.c.transferred, past := c.past.(sent := r.c.past.sent))
  }

  lemma RefillQuiet(w: World, c: Conn, files: FileOutcomes)
    requires c.WellFormed() && c.state.SendingFile? && c.windowOffset == |c.window|
    ensures OnlyWindow(w, c, Refill(w, c, files))
  {
    hide Disk.Read;
  }

  lemma SendQuiet(w: World, c: Conn, o: SendOutcome)
    requires c.WellFormed()
    ensures OnlyWindow(w, c, SendWindow(w, c, o))
  {
  }

  lemma WindowSame(w: World, c: Conn)
    ensures OnlyWindow(w, c, Step(w, c, false))
  {
  }

  lemma WindowThen(w: World, c: Conn, r: Step, r': Step)
    requires OnlyWindow(w, c, r) && OnlyWindow(w, r.c, r')
    ensures OnlyWindow(w, c, r')
  {
  }

  lemma WindowOnly(w: World, c: Conn, o: SendOutcome, files: FileOutcomes)
    requires c.WellFormed() && c.state.SendingFile?
    ensures OnlyWindow(w, c, FileWritable(w, c, o, files)) && FileWritable(w, c, o, files).c.WellFormed()
  {
    SendQuiet(w, c, o);
    if c.windowOffset == |c.window| {
      var filled := Refill(w, c, files);
      RefillQuiet(w, c, files);
      SendQuiet(w, filled.c, o);
      WindowThen(w, c, filled, SendWindow(w, filled.c, o));
    }
    assert OnlyWindow(w, c, Step(w, c, false)) by {
      WindowSame(w, c);
    }
    hide Refill, SendWindow, OnlyWindow;
  }

  function Writable(w: World, c: Conn, sends: seq<SendOutcome>, files: FileOutcomes): (r: Step)
    requires c.WellFormed()
    ensures r.c.WellFormed()
    ensures r.c.past.asked == c.past.asked && r.c.past.received == c.past.received && r.c.fd == c.fd
  {
    if c.WantsInput() then Step(w, c, true)
    else if c.state.SendingFile? then FileWritable(w, c, if sends == [] then SendWouldBlock else sends[0], files)
    else
      var f := FlushPending(c, sends);
      match f.result
      case Failed => Step(w, f.c, false)
      case WouldBlock => Step(w, f.c, true)
      case Drained => AfterDrain(w, f.c, files)
  }

  // ---------------------------------------------------------------------------
  // Events

  function Readable(w: World, c: Conn, recvs: seq<RecvOutcome>, files: FileOutcomes): (r: Step)
    requires c.WellFormed() && c.Live()
    ensures r.c.WellFormed() && r.c.fd == c.fd
  {
    match c.state
    case AwaitingRequest => RequestReadable(w, c, Settled(recvs), files)
    case ReceivingFile => UploadReadable(w, c, Settled(recvs), files)
    case _ => Step(w, c, true)
  }

  /** `handle_client_event`: the caller closes the connection when the result is not `ok`. */
  function ClientEvent(w: World, c: Conn, i: Input): (r: Step)
    requires c.WellFormed() && c.Live()
    ensures r.c.WellFormed() && r.c.fd == c.fd
  {
    if i.error then Step(w, c, false)
    else
      var s := if i.readable then Readable(w, c, i.recvs, i.files) else Step(w, c, true);
      if !s.ok then s
      else
        var t := if i.writable || (i.hangup && !s.c.WantsInput()) then Writable(s.w, s.c, i.sends, i.files) else s;
        if !t.ok then t else t.(ok := !i.hangup || !t.c.WantsInput())
  }

  /** An event and the closing that follows a handler that gives up. */
  function Dispatch(w: World, c: Conn, i: Input): (r: Step)
    requires c.WellFormed() && c.Live()
    ensures r.c.WellFormed()
  {
    var s := ClientEvent(w, c, i);
    if s.ok then s else CloseClient(s.w, s.c)
  }

  // The two halves of an event.

  function ReadPart(w: World, c: Conn, i: Input): (r: Step)
    requires c.WellFormed() && c.Live()
    ensures r.c.WellFormed() && r.c.fd == c.fd
  {
    if i.readable then Readable(w, c, i.recvs, i.files) else Step(w, c, true)
  }

  function WritePart(r: Step, i: Input): (s: Step)
    requires r.c.WellFormed() && r.c.Live()
    ensures s.c.WellFormed() && s.c.fd == r.c.fd
    ensures s.c.past.asked == r.c.past.asked && s.c.past.received == r.c.past.received
  {
    if i.writable || (i.hangup && !r.c.WantsInput()) then Writable(r.w, r.c, i.sends, i.files) else r
  }

  /** An event reads, then writes, and closes the connection when one of them gives up or the peer is gone. */
  lemma DispatchParts(w: World, c: Conn, i: Input)
    requires c.WellFormed() && c.Live()
    ensures var r := ReadPart(w, c, i); var s := WritePart(r, i);
            Dispatch(w, c, i) ==
            if i.error then CloseClient(w, c)
            else if !r.ok then CloseClient(r.w, r.c)
            else if !s.ok || (i.hangup && s.c.WantsInput()) then CloseClient(s.w, s.c)
            else s
  {
    hide Readable, Writable, CloseClient, Conn.WellFormed;
  }
}
