/**
 What one poll event makes of a connection, for all that the calls may answer: a table in terms of the bits reported,
 the state, and the first answer that counts. The texts and limits of the protocol are written out.
 */
module Outcomes {
  import opened Text
  import opened Requests
  import opened Storage
  import opened Connection

  // ---------------------------------------------------------------------------
  // The two ends of a connection

  /** The root is as before but for one name, which is gone; `""` names no file. */
  ghost predicate Gone(w: World, w': World, name: string) {
    && w'.log == w.log && w'.sequence == w.sequence && w'.disk.data == w.disk.data && w'.disk.next == w.disk.next
    && (forall n | n in w.disk.names && (name == "" || n != name) ::
          n in w'.disk.names && w'.disk.names[n] == w.disk.names[n])
    && (forall n | n in w'.disk.names :: n in w.disk.names && (name == "" || n != name))
  }

  /** Both streams and the socket are closed, and the temporary file is removed. */
  ghost predicate Closed(w: World, c: Conn, r: Step) {
    && r.c == c.(fd := -1, temp := "", inputOpen := false, outputOpen := false)
    && Gone(w, r.w, c.temp)
  }

  /** Both streams are closed, the temporary file is removed, and one error line is all that is left to say. */
  ghost predicate Refusal(w: World, c: Conn, line: string, r: Step) {
    && r.c == c.(temp := "", inputOpen := false, outputOpen := false,
                 pending := line, pendingOffset := 0, state := SendingError)
    && Gone(w, r.w, c.temp)
  }

  lemma CloseCloses(w: World, c: Conn)
    requires c.WellFormed() && c.Live()
    ensures Closed(w, c, CloseClient(w, c))
  {
  }

  lemma RefusalRefuses(w: World, c: Conn, reason: string)
    requires c.WellFormed() && c.window == ""
    ensures Refusal(w, c, ErrorLine(reason), QueueError(w, c, reason))
  {
    hide ErrorLine;
  }

  // The error lines, written out.

  lemma RequestTexts()
    ensures ErrorLine("request-too-long") == "ERR request-too-long\n" && ErrorLine("bad-request") == "ERR bad-request\n"
  {
  }

  lemma DownloadTexts()
    ensures ErrorLine("not-found") == "ERR not-found\n" && ErrorLine("not-readable") == "ERR not-readable\n"
  {
  }

  lemma UploadTexts()
    ensures ErrorLine("storage-failure") == "ERR storage-failure\n"
    ensures ErrorLine("protocol-error") == "ERR protocol-error\n"
  {
  }

  // ---------------------------------------------------------------------------
  // Receiving

  /** The answer at `k` is the first that is not an interruption. */
  predicate First(recvs: seq<RecvOutcome>, k: nat) {
    k < |recvs| && !recvs[k].RecvInterrupted? && forall j | 0 <= j < k :: recvs[j].RecvInterrupted?
  }

  lemma {:induction false} SettledAt(recvs: seq<RecvOutcome>, k: nat)
    requires First(recvs, k)
    ensures Settled(recvs) == recvs[k]
  {
    if k > 0 {
      SettledAt(recvs[1..], k - 1);
    }
  }

  lemma {:induction false} NeverSettled(recvs: seq<RecvOutcome>)
    requires forall j | 0 <= j < |recvs| :: recvs[j].RecvInterrupted?
    ensures Settled(recvs).RecvWouldBlock?
  {
    if recvs != [] {
      NeverSettled(recvs[1..]);
    }
  }

  lemma {:induction false} FirstOrNone(recvs: seq<RecvOutcome>) returns (k: nat)
    ensures k <= |recvs| && forall j | 0 <= j < k :: recvs[j].RecvInterrupted?
    ensures k < |recvs| ==> First(recvs, k)
  {
    k := 0;
    if recvs != [] && recvs[0].RecvInterrupted? {
      k := FirstOrNone(recvs[1..]);
      k := k + 1;
    }
  }

  /**
   A connection that is waiting for input is closed, and its unfinished upload removed, when its peer has gone or its
   socket has failed. Nothing is committed, and nothing more is heard or said.
   */
  lemma {:induction false} BrokenOff(w: World, c: Conn, i: Input, k: nat)
    requires c.WellFormed() && c.Live() && (c.state == AwaitingRequest || c.state == ReceivingFile)
    requires i.readable && !i.error && First(i.recvs, k) && (i.recvs[k].EndOfStream? || i.recvs[k].RecvFailed?)
    ensures var r := Dispatch(w, c, i);
            && r.c.fd == -1 && r.c.temp == "" && (c.temp != "" ==> c.temp !in r.w.disk.names)
            && r.w.log == w.log && r.c.past == c.past && Closed(w, c, r)
  {
    SettledAt(i.recvs, k);
    CloseCloses(w, c);
    hide Settled, CloseClient, Writable, RequestData, UploadData;
  }

  /** Only reading is asked of the handler. */
  predicate OnlyReadable(i: Input) {
    i.readable && !i.writable && !i.hangup && !i.error
  }

  /** When there is nothing to receive, nothing changes. */
  lemma {:induction false} NothingReceived(w: World, c: Conn, i: Input, k: nat)
    requires c.WellFormed() && c.Live() && (c.state == AwaitingRequest || c.state == ReceivingFile) && OnlyReadable(i)
    requires k == |i.recvs| || (k < |i.recvs| && i.recvs[k].RecvWouldBlock?)
    requires forall j | 0 <= j < k :: i.recvs[j].RecvInterrupted?
    ensures Dispatch(w, c, i) == Step(w, c, true)
  {
    if k < |i.recvs| {
      SettledAt(i.recvs, k);
    } else {
      NeverSettled(i.recvs);
    }
    hide Settled, CloseClient, Writable, RequestData, UploadData;
  }

  /** So reading closes a connection for exactly one reason. */
  lemma {:induction false} ReadingClosesIff(w: World, c: Conn, i: Input)
    requires c.WellFormed() && c.Live() && OnlyReadable(i)
    ensures !Dispatch(w, c, i).c.Live() <==>
              && (c.state == AwaitingRequest || c.state == ReceivingFile)
              && exists k: nat :: First(i.recvs, k) && (i.recvs[k].EndOfStream? || i.recvs[k].RecvFailed?)
  {
    var k := FirstOrNone(i.recvs);
    if k < |i.recvs| {
      SettledAt(i.recvs, k);
      forall j: nat | First(i.recvs, j)
        ensures j == k
      {
        OneFirst(i.recvs, j, k);
      }
    } else {
      NeverSettled(i.recvs);
    }
    ReadingCloses(w, c, i);
    hide First, Settled, Dispatch;
  }

  lemma OneFirst(recvs: seq<RecvOutcome>, j: nat, k: nat)
    requires First(recvs, j) && First(recvs, k)
    ensures j == k
  {
  }

  lemma ReadingCloses(w: World, c: Conn, i: Input)
    requires c.WellFormed() && c.Live() && OnlyReadable(i)
    ensures !Dispatch(w, c, i).c.Live() <==>
              c.WantsInput() && (Settled(i.recvs).EndOfStream? || Settled(i.recvs).RecvFailed?)
  {
    hide Settled, RemoveTemporary, Writable, RequestData, UploadData;
  }

  /** What was received is handed to the handler of the state, and is all that the event is about. */
  lemma {:induction false} DataEvent(w: World, c: Conn, i: Input, k: nat)
    requires c.WellFormed() && c.Live() && c.WantsInput() && OnlyReadable(i) && First(i.recvs, k) && i.recvs[k].Data?
    ensures Dispatch(w, c, i) == if c.state == AwaitingRequest then RequestData(w, c, i.recvs[k].bytes, i.files)
                                 else UploadData(w, c, i.recvs[k].bytes, i.files)
  {
    SettledAt(i.recvs, k);
    hide Settled, CloseClient, Writable, RequestData, UploadData;
  }

  // ---------------------------------------------------------------------------
  // The request line

  /** The connection with more bytes of its request line. */
  function Heard(c: Conn, bytes: string): Conn {
    c.(request := c.request + bytes, past := c.past.(received := c.past.received + bytes))
  }

  /** A line that has not ended is kept, up to 4096 bytes. */
  lemma {:induction false} LineGoesOn(w: World, c: Conn, i: Input, k: nat)
    requires c.WellFormed() && c.Live() && c.state == AwaitingRequest
    requires OnlyReadable(i) && First(i.recvs, k) && i.recvs[k].Data? && '\n' !in c.request + i.recvs[k].bytes
    ensures var r, c1 := Dispatch(w, c, i), Heard(c, i.recvs[k].bytes);
            if |c1.request| <= 4096 then r == Step(w, c1, true) else Refusal(w, c1, "ERR request-too-long\n", r)
  {
    hide Dispatch, QueueError, RequestData, Refusal, ErrorLine;
    var bytes := i.recvs[k].bytes;
    DataEvent(w, c, i, k);
    UnfinishedLine(w, c, bytes, i.files);
    RefusalRefuses(w, Heard(c, bytes), "request-too-long");
    RequestTexts();
  }

  lemma UnfinishedLine(w: World, c: Conn, bytes: string, files: FileOutcomes)
    requires c.WellFormed() && c.window == "" && c.Live() && '\n' !in c.request + bytes
    ensures var c1 := Heard(c, bytes);
            RequestData(w, c, bytes, files) == if |c1.request| <= 4096 then Step(w, c1, true)
                                               else QueueError(w, c1, "request-too-long")
  {
    FindAbsent(c.request + bytes, '\n');
    hide Find, QueueError, RequestLine;
  }

  /** A line of more than 4096 bytes is refused, and so is one that something follows. */
  lemma {:induction false} BadLine(w: World, c: Conn, i: Input, k: nat, line: string, rest: string)
    requires c.WellFormed() && c.Live() && c.state == AwaitingRequest
    requires OnlyReadable(i) && First(i.recvs, k) && i.recvs[k].Data?
    requires c.request + i.recvs[k].bytes == line + "\n" + rest && '\n' !in line && (|line| > 4096 || rest != "")
    ensures Refusal(w, Heard(c, i.recvs[k].bytes), "ERR bad-request\n", Dispatch(w, c, i))
  {
    hide Dispatch, QueueError, RequestData, Refusal, ErrorLine;
    var bytes := i.recvs[k].bytes;
    DataEvent(w, c, i, k);
    OverlongLine(w, c, bytes, i.files, line, rest);
    RefusalRefuses(w, Heard(c, bytes), "bad-request");
    RequestTexts();
  }

  lemma OverlongLine(w: World, c: Conn, bytes: string, files: FileOutcomes, line: string, rest: string)
    requires c.WellFormed() && c.window == "" && c.Live()
    requires c.request + bytes == line + "\n" + rest && '\n' !in line && (|line| > 4096 || rest != "")
    ensures RequestData(w, c, bytes, files) == QueueError(w, Heard(c, bytes), "bad-request")
  {
    LineEnd(line, rest);
    hide Find, QueueError, RequestLine;
  }

  lemma LineEnd(line: string, rest: string)
    requires '\n' !in line
    ensures var all := line + "\n" + rest; Find(all, '\n') == |line| && all[..|line|] == line
  {
    var all := line + "\n" + rest;
    assert all[..|line|] == line;
    FindIs(all, '\n', |line|);
  }

  /** The connection whose complete line has been taken out of the buffer. */
  function Taken(c: Conn, bytes: string): Conn {
    Heard(c, bytes).(request := "")
  }

  /** The connection that remembers what was asked, and what was there at that moment. */
  function Asking(w: World, c: Conn, bytes: string, request: Request, files: FileOutcomes): Conn {
    var c1 := Taken(c, bytes);
    c1.(past := c1.past.(asked := Some(request), point := |w.log|,
                         missing := request.filename !in w.disk.names, calls := files))
  }

  predicate CompleteLine(c: Conn, bytes: string, line: string) {
    c.request + bytes == line + "\n" && '\n' !in line && |line| <= 4096
  }

  lemma {:induction false} LineEvent(w: World, c: Conn, i: Input, k: nat, line: string)
    requires c.WellFormed() && c.Live() && c.state == AwaitingRequest
    requires OnlyReadable(i) && First(i.recvs, k) && i.recvs[k].Data? && CompleteLine(c, i.recvs[k].bytes, line)
    ensures Dispatch(w, c, i) == RequestLine(w, Taken(c, i.recvs[k].bytes), line, i.files)
  {
    DataEvent(w, c, i, k);
    LineEnd(line, "");
    assert line + "\n" + "" == line + "\n";
    hide Dispatch, Find, QueueError, RequestLine, First;
  }

  /** A line that is no request is refused with the reason that the parser gives. */
  lemma {:induction false} RejectedLine(w: World, c: Conn, i: Input, k: nat, line: string)
    requires c.WellFormed() && c.Live() && c.state == AwaitingRequest
    requires OnlyReadable(i) && First(i.recvs, k) && i.recvs[k].Data? && CompleteLine(c, i.recvs[k].bytes, line)
    requires ParseRequest(line).Rejected?
    ensures Refusal(w, Taken(c, i.recvs[k].bytes), "ERR " + ParseRequest(line).reason + "\n", Dispatch(w, c, i))
  {
    LineEvent(w, c, i, k, line);
    RefusalRefuses(w, Taken(c, i.recvs[k].bytes), ParseRequest(line).reason);
    hide Dispatch, QueueError, StartRequest, Refusal, First, ParseRequest, CompleteLine;
  }

  /** What a download is answered, and the state that each answer leaves. */
  ghost predicate DownloadAnswer(w: World, c: Conn, name: string, files: FileOutcomes, r: Step) {
    if !files.found || name !in w.disk.names then Refusal(w, c, "ERR not-found\n", r)
    else if !files.canOpen then Refusal(w, c, "ERR not-readable\n", r)
    else
      var file := w.disk.names[name];
      var size := if file in w.disk.data then |w.disk.data[file]| else 0;
      if !files.canSize then Refusal(w, c.(input := file), "ERR not-readable\n", r)
      else if !files.canSeek then
        Refusal(w, c.(input := file, expected := size, transferred := 0, position := size), "ERR not-readable\n", r)
      else r == Step(w, c.(input := file, inputOpen := true, expected := size, transferred := 0, position := 0,
                           pending := "OK " + ToDecimal(size) + "\n", pendingOffset := 0, state := SendingGetHeader,
                           past := c.past.(point := |w.log|)), true)
  }

  lemma DownloadAnswered(w: World, c: Conn, name: string, files: FileOutcomes)
    requires c.WellFormed() && c.window == ""
    ensures DownloadAnswer(w, c, name, files, StartGet(w, c, name, files))
  {
    hide ErrorLine, RemoveTemporary, Gone, Refusal, QueueError;
    RefusalRefuses(w, c, "not-found");
    RefusalRefuses(w, c, "not-readable");
    DownloadTexts();
    if name in w.disk.names {
      var file := w.disk.names[name];
      var size := |w.disk.Contents(file)|;
      LeftOpen(w, c, file);
      LeftOpen(w, c.(expected := size, transferred := 0, position := size), file);
    }
  }

  /** It does not matter for a refusal that the file was open. */
  lemma LeftOpen(w: World, c: Conn, file: FileId)
    requires c.WellFormed() && c.window == ""
    ensures Refusal(w, c.(input := file), "ERR not-readable\n",
                    QueueError(w, c.(input := file, inputOpen := true), "not-readable"))
  {
    hide ErrorLine;
    DownloadTexts();
  }

  /** The root in which a name leads to an empty file: its own, emptied, or a new one. */
  ghost predicate Emptied(d: Disk, d': Disk, name: string, file: FileId) {
    && d'.data == d.data[file := ""]
    && if name in d.names then file == d.names[name] && d'.names == d.names && d'.next == d.next
       else file == d.next && d'.names == d.names[name := file] && d'.next == d.next + 1
  }

  /** What an upload is answered: it gets the next number, and a temporary file of that number. */
  ghost predicate UploadAnswer(w: World, c: Conn, name: string, size: nat, files: FileOutcomes, r: Step)
    requires c.Live()
  {
    var temp := ".upload-" + ToDecimal(c.fd) + "-" + ToDecimal(w.sequence + 1) + ".part";
    var c1 := c.(expected := size, transferred := 0, final := name, temp := temp);
    if !files.canCreate then Refusal(w.(sequence := w.sequence + 1), c1, "ERR storage-failure\n", r)
    else
      && r.w.log == w.log && r.w.sequence == w.sequence + 1 && Emptied(w.disk, r.w.disk, temp, r.c.output)
      && r.c == c1.(output := r.c.output, outputOpen := true, pending := "READY\n", pendingOffset := 0,
                    state := SendingReady)
  }

  lemma UploadAnswered(w: World, c: Conn, name: string, size: nat, files: FileOutcomes)
    requires c.WellFormed() && c.window == "" && c.Live()
    ensures UploadAnswer(w, c, name, size, files, StartPut(w, c, name, size, files))
  {
    hide ErrorLine, RemoveTemporary, Gone, Refusal, QueueError;
    var temp := ".upload-" + ToDecimal(c.fd) + "-" + ToDecimal(w.sequence + 1) + ".part";
    RefusalRefuses(w.(sequence := w.sequence + 1),
                   c.(expected := size, transferred := 0, final := name, temp := temp), "storage-failure");
    UploadTexts();
  }

  /** A request is answered as its operation demands. */
  lemma {:induction false} AcceptedLine(w: World, c: Conn, i: Input, k: nat, line: string)
    requires c.WellFormed() && c.Live() && c.state == AwaitingRequest
    requires OnlyReadable(i) && First(i.recvs, k) && i.recvs[k].Data? && CompleteLine(c, i.recvs[k].bytes, line)
    requires ParseRequest(line).Accepted?
    ensures var request := ParseRequest(line).request;
            var c1 := Asking(w, c, i.recvs[k].bytes, request, i.files);
            match request
            case Get(name) => DownloadAnswer(w, c1, name, i.files, Dispatch(w, c, i))
            case Put(name, size) => UploadAnswer(w, c1, name, size, i.files, Dispatch(w, c, i))
  {
    var request := ParseRequest(line).request;
    var c1 := Asking(w, c, i.recvs[k].bytes, request, i.files);
    LineEvent(w, c, i, k, line);
    match request {
      case Get(name) => DownloadAnswered(w, c1, name, i.files);
      case Put(name, size) => UploadAnswered(w, c1, name, size, i.files);
    }
    hide Dispatch, StartGet, StartPut, First, ParseRequest, CompleteLine, DownloadAnswer, UploadAnswer;
  }

  // ---------------------------------------------------------------------------
  // Uploads

  /** The file with some bytes more. */
  function Extended(w: World, file: FileId, bytes: string): World {
    var before := if file in w.disk.data then w.disk.data[file] else "";
    w.(disk := w.disk.(data := w.disk.data[file := before + bytes]))
  }

  /** The last byte has been stored: the upload takes over its name and is confirmed, or it is refused. */
  ghost predicate CompletionAnswer(w: World, c: Conn, files: FileOutcomes, r: Step) {
    var c1 := c.(outputOpen := false, past := c.past.(calls := files));
    if !files.canClose || !files.canRename || c.temp !in w.disk.names then Refusal(w, c1, "ERR storage-failure\n", r)
    else
      var file := w.disk.names[c.temp];
      && r.w.sequence == w.sequence && r.w.disk.data == w.disk.data && r.w.disk.next == w.disk.next
      && r.w.disk.names == (w.disk.names - {c.temp})[c.final := file]
      && r.w.log == w.log + [Commit(c.final, if file in w.disk.data then w.disk.data[file] else "")]
      && r.c == c1.(temp := "", pending := "OK " + ToDecimal(c.expected) + "\n", pendingOffset := 0,
                    state := SendingResult, past := c1.past.(point := |w.log|))
      && r.ok
  }

  lemma CompletionAnswered(w: World, c: Conn, files: FileOutcomes)
    requires c.WellFormed() && c.window == ""
    ensures CompletionAnswer(w, c, files, CompleteUpload(w, c, files))
  {
    RefusalRefuses(w, c.(outputOpen := false, past := c.past.(calls := files)), "storage-failure");
    UploadTexts();
    hide QueueError, Refusal, Conn.WellFormed;
  }

  /** The upload that has received some bytes, and stored the first `n` of them. */
  function Received(c: Conn, bytes: string, n: nat, files: FileOutcomes): Conn {
    c.(transferred := c.transferred + n,
       past := c.past.(received := c.past.received + bytes, payload := c.past.payload + bytes, calls := files))
  }

  /** What an upload makes of more bytes: it fails, has too many, is complete, or goes on. */
  ghost predicate PayloadAnswer(w: World, c: Conn, bytes: string, files: FileOutcomes, r: Step)
    requires c.WellFormed()
  {
    var wanted := c.expected - c.transferred;
    if !files.canWrite then Refusal(w, Received(c, bytes, 0, files), "ERR storage-failure\n", r)
    else if |bytes| > wanted then
      Refusal(Extended(w, c.output, bytes[..wanted]), Received(c, bytes, wanted, files), "ERR protocol-error\n", r)
    else if |bytes| == wanted then
      CompletionAnswer(Extended(w, c.output, bytes), Received(c, bytes, wanted, files), files, r)
    else r == Step(Extended(w, c.output, bytes), Received(c, bytes, |bytes|, files), true)
  }

  lemma Fits(c: Conn, bytes: string, n: nat, files: FileOutcomes)
    requires c.WellFormed() && c.window == "" && n <= c.expected - c.transferred
    ensures Received(c, bytes, n, files).WellFormed() && Received(c, bytes, n, files).window == ""
  {
  }

  lemma PayloadRefused(w: World, c: Conn, bytes: string, files: FileOutcomes)
    requires c.WellFormed() && c.window == "" && (!files.canWrite || |bytes| > c.expected - c.transferred)
    ensures PayloadAnswer(w, c, bytes, files, UploadData(w, c, bytes, files))
  {
    hide UploadData, QueueError, CompleteUpload, Refusal, CompletionAnswer;
    var wanted := c.expected - c.transferred;
    Fits(c, bytes, 0, files);
    Fits(c, bytes, wanted, files);
    hide Conn.WellFormed;
    if !files.canWrite {
      WriteFails(w, c, bytes, files);
      RefusalRefuses(w, Received(c, bytes, 0, files), "storage-failure");
      UploadTexts();
    } else {
      WriteOverflows(w, c, bytes, files);
      RefusalRefuses(Extended(w, c.output, bytes[..wanted]), Received(c, bytes, wanted, files), "protocol-error");
      UploadTexts();
    }
  }

  lemma PayloadTaken(w: World, c: Conn, bytes: string, files: FileOutcomes)
    requires c.WellFormed() && c.window == "" && files.canWrite && |bytes| <= c.expected - c.transferred
    ensures PayloadAnswer(w, c, bytes, files, UploadData(w, c, bytes, files))
  {
    hide UploadData, QueueError, CompleteUpload, Refusal, CompletionAnswer;
    Fits(c, bytes, |bytes|, files);
    hide Conn.WellFormed;
    if |bytes| == c.expected - c.transferred {
      WriteCompletes(w, c, bytes, files);
      CompletionAnswered(Extended(w, c.output, bytes), Received(c, bytes, |bytes|, files), files);
    } else {
      WriteGoesOn(w, c, bytes, files);
    }
  }

  /** Payload is answered by what it comes to. */
  lemma {:induction false} PayloadEvent(w: World, c: Conn, i: Input, k: nat)
    requires c.WellFormed() && c.Live() && c.state == ReceivingFile
    requires OnlyReadable(i) && First(i.recvs, k) && i.recvs[k].Data?
    ensures PayloadAnswer(w, c, i.recvs[k].bytes, i.files, Dispatch(w, c, i))
  {
    var bytes := i.recvs[k].bytes;
    DataEvent(w, c, i, k);
    if !i.files.canWrite || |bytes| > c.expected - c.transferred {
      PayloadRefused(w, c, bytes, i.files);
    } else {
      PayloadTaken(w, c, bytes, i.files);
    }
    hide Dispatch, First, UploadData, PayloadAnswer;
  }

  // ---------------------------------------------------------------------------
  // Control lines

  /** How many bytes a series of calls accepts in all. */
  function Total(sends: seq<SendOutcome>): nat {
    if sends == [] then 0 else (if sends[0].Sent? then sends[0].count else 0) + Total(sends[1..])
  }

  /** None of the calls ends a flush. */
  predicate GoOn(sends: seq<SendOutcome>) {
    forall k | 0 <= k < |sends| :: (sends[k].Sent? && sends[k].count > 0) || sends[k].SendInterrupted?
  }

  /** The next `n` bytes of the line have been sent. */
  function LineSent(c: Conn, n: nat): Conn
    requires c.WellFormed() && n <= |c.Unsent()|
  {
    c.(pendingOffset := c.pendingOffset + n, past := c.past.(sent := c.past.sent + c.Unsent()[..n]))
  }

  /** All of it has been sent. */
  function WholeLineSent(c: Conn): Conn
    requires c.WellFormed()
  {
    c.(pending := "", pendingOffset := 0, past := c.past.(sent := c.past.sent + c.Unsent()))
  }

  /** The call that follows the first `k`; when there is none, it would block. */
  function CallAt(sends: seq<SendOutcome>, k: nat): SendOutcome {
    if k < |sends| then sends[k] else SendWouldBlock
  }

  predicate Stops(s: SendOutcome) {
    s.SendWouldBlock? || s.SendFailed? || s == Sent(0)
  }

  /** What comes of a line when some calls accept `n` bytes, and `stop` is what the next one answers. */
  ghost predicate FlushAnswer(c: Conn, n: nat, stop: SendOutcome, f: Flush)
    requires c.WellFormed()
  {
    if n >= |c.Unsent()| then f == Flush(WholeLineSent(c), Drained)
    else f == Flush(LineSent(c, n), if stop.SendWouldBlock? then WouldBlock else Failed)
  }

  lemma SentThen(c: Conn, m: nat, n: nat, stop: SendOutcome, f: Flush)
    requires c.WellFormed() && m <= |c.Unsent()|
    requires FlushAnswer(AcceptPart(c, m), n, stop, f)
    ensures FlushAnswer(c, m + n, stop, f)
  {
    var c1, rest := AcceptPart(c, m), c.Unsent();
    assert c1.Unsent() == rest[m..];
    if m + n >= |rest| {
      assert c1.past.sent + c1.Unsent() == c.past.sent + rest;
    } else {
      assert rest[..m] + rest[m..][..n] == rest[..m + n];
      assert c1.past.sent == c.past.sent + rest[..m];
    }
  }

  /** Of the first call only what is left of the line counts. */
  lemma SentMore(c: Conn, m: nat, count: nat, n: nat, stop: SendOutcome, f: Flush)
    requires c.WellFormed() && m == Min(count, |c.Unsent()|) && FlushAnswer(c, m + n, stop, f)
    ensures FlushAnswer(c, count + n, stop, f)
  {
  }

  lemma FlushEnds(c: Conn, sends: seq<SendOutcome>, n: nat)
    requires c.WellFormed() && (c.Unsent() == "" || (n == 0 && Stops(CallAt(sends, 0))))
    ensures FlushAnswer(c, n, CallAt(sends, 0), FlushPending(c, sends))
  {
    assert c.Unsent() == "" ==> c.pendingOffset == |c.pending|;
  }

  /** What the first call accepts. */
  function Share(sends: seq<SendOutcome>): nat {
    if sends != [] && sends[0].Sent? then sends[0].count else 0
  }

  lemma GoesOn(sends: seq<SendOutcome>, k: nat)
    requires 0 < k <= |sends| && GoOn(sends[..k])
    ensures sends[0].SendInterrupted? || (sends[0].Sent? && sends[0].count > 0)
    ensures Total(sends[..k]) == Share(sends) + Total(sends[1..][..k - 1]) && GoOn(sends[1..][..k - 1])
  {
    assert sends[..k][0] == sends[0] && sends[..k][1..] == sends[1..][..k - 1];
    forall j | 0 <= j < k - 1
      ensures sends[1..][j] == sends[..k][j + 1]
    {
    }
  }

  lemma NothingAccepted(c: Conn)
    requires c.WellFormed()
    ensures AcceptPart(c, 0) == c
  {
    assert c.past.sent + c.pending[c.pendingOffset..c.pendingOffset] == c.past.sent;
  }

  lemma FlushGoesOn(c: Conn, sends: seq<SendOutcome>)
    requires c.WellFormed() && c.Unsent() != "" && sends != []
    requires sends[0].SendInterrupted? || (sends[0].Sent? && sends[0].count > 0)
    ensures FlushPending(c, sends) == FlushPending(AcceptPart(c, Min(Share(sends), |c.Unsent()|)), sends[1..])
  {
    NothingAccepted(c);
    hide AcceptPart;
  }

  /** A flush sends what the calls accept, until all is sent or one of them accepts nothing. */
  lemma {:induction false} FlushExactly(c: Conn, sends: seq<SendOutcome>, k: nat)
    requires c.WellFormed() && k <= |sends| && GoOn(sends[..k])
    requires Total(sends[..k]) < |c.Unsent()| ==> Stops(CallAt(sends, k))
    ensures FlushAnswer(c, Total(sends[..k]), CallAt(sends, k), FlushPending(c, sends))
    decreases k
  {
    hide FlushAnswer, FlushPending, AcceptPart, GoOn, Stops;
    if c.Unsent() == "" {
      FlushEnds(c, sends, Total(sends[..k]));
      AllTheSame(c, Total(sends[..k]), CallAt(sends, 0), CallAt(sends, k), FlushPending(c, sends));
    } else if k == 0 {
      FlushEnds(c, sends, 0);
    } else {
      GoesOn(sends, k);
      FlushGoesOn(c, sends);
      var n := Share(sends);
      var m, later := Min(n, |c.Unsent()|), Total(sends[1..][..k - 1]);
      var c1 := AcceptPart(c, m);
      hide Total;
      FlushExactly(c1, sends[1..], k - 1);
      SentThen(c, m, later, CallAt(sends, k), FlushPending(c, sends));
      SentMore(c, m, n, later, CallAt(sends, k), FlushPending(c, sends));
    }
  }

  lemma AllTheSame(c: Conn, n: nat, stop: SendOutcome, stop': SendOutcome, f: Flush)
    requires c.WellFormed() && c.Unsent() == "" && FlushAnswer(c, n, stop, f)
    ensures FlushAnswer(c, n, stop', f)
  {
  }

  /** Only writing is asked of the handler. */
  predicate OnlyWritable(i: Input) {
    !i.readable && i.writable && !i.hangup && !i.error
  }

  predicate SendsLine(c: Conn) {
    !c.WantsInput() && !c.state.SendingFile?
  }

  /** What follows when a control line has been sent completely. */
  ghost predicate DrainAnswer(w: World, c: Conn, files: FileOutcomes, r: Step) {
    match c.state
    case SendingGetHeader => if c.expected == 0 then Closed(w, c, r) else r == Step(w, c.(state := SendingFile), true)
    case SendingReady =>
      if c.expected == 0 then CompletionAnswer(w, c, files, r) else r == Step(w, c.(state := ReceivingFile), true)
    case _ => Closed(w, c, r)
  }

  lemma DrainAnswered(w: World, c: Conn, files: FileOutcomes)
    requires c.WellFormed() && c.Live() && SendsLine(c)
    ensures var s := AfterDrain(w, c, files);
            DrainAnswer(w, c, files, if s.ok then s else CloseClient(s.w, s.c))
  {
    CloseCloses(w, c);
    CompletionAnswered(w, c, files);
    hide CompleteUpload, CloseClient, Closed, CompletionAnswer;
  }

  /** What a writable event makes of a control line. */
  ghost predicate LineAnswer(w: World, c: Conn, n: nat, stop: SendOutcome, files: FileOutcomes, r: Step)
    requires c.WellFormed()
  {
    if n >= |c.Unsent()| then DrainAnswer(w, WholeLineSent(c), files, r)
    else if stop.SendWouldBlock? then r == Step(w, LineSent(c, n), true)
    else Closed(w, LineSent(c, n), r)
  }

  lemma {:induction false} WriteLineEvent(w: World, c: Conn, i: Input, k: nat)
    requires c.WellFormed() && c.Live() && SendsLine(c) && OnlyWritable(i)
    requires k <= |i.sends| && GoOn(i.sends[..k]) && (Total(i.sends[..k]) < |c.Unsent()| ==> Stops(CallAt(i.sends, k)))
    ensures LineAnswer(w, c, Total(i.sends[..k]), CallAt(i.sends, k), i.files, Dispatch(w, c, i))
  {
    FlushExactly(c, i.sends, k);
    var f := FlushPending(c, i.sends);
    if f.result.Drained? {
      DrainAnswered(w, f.c, i.files);
    } else {
      CloseCloses(w, f.c);
    }
    hide FlushPending, AfterDrain, CloseClient, Closed, DrainAnswer, GoOn, Total;
  }

  // ---------------------------------------------------------------------------
  // File bytes

  /** The next `n` bytes of the window have been sent. */
  function WindowSent(c: Conn, n: nat): Conn
    requires c.windowOffset + n <= |c.window|
  {
    c.(windowOffset := c.windowOffset + n, transferred := c.transferred + n,
       past := c.past.(sent := c.past.sent + c.window[c.windowOffset..c.windowOffset + n]))
  }

  /** What one `send` makes of the window. */
  ghost predicate WindowAnswer(w: World, c: Conn, s: SendOutcome, r: Step)
    requires c.windowOffset <= |c.window|
  {
    match s
    case Sent(count) =>
      var rest := |c.window| - c.windowOffset;
      if count == 0 || rest == 0 then Closed(w, c, r)
      else r == Step(w, WindowSent(c, if count < rest then count else rest), true)
    case SendInterrupted => r == Step(w, c, true)
    case SendWouldBlock => r == Step(w, c, true)
    case SendFailed => Closed(w, c, r)
  }

  lemma WindowAnswered(w: World, c: Conn, s: SendOutcome)
    requires c.WellFormed() && c.Live()
    ensures var t := SendWindow(w, c, s); WindowAnswer(w, c, s, if t.ok then t else CloseClient(t.w, t.c))
  {
    CloseCloses(w, c);
    hide CloseClient, Closed;
  }

  /** The next part of the file: at most what is still expected, 65536 bytes, and what the read delivers. */
  function NextPart(w: World, c: Conn, files: FileOutcomes): string
    requires c.WellFormed()
  {
    var file := if c.input in w.disk.data then w.disk.data[c.input] else "";
    var n := Min(Min(c.expected - c.transferred, 65536), files.readCount);
    if c.position < |file| then file[c.position..][..Min(n, |file| - c.position)] else ""
  }

  /** What a writable event makes of a download: the window is refilled when it is used up, and then sent from. */
  ghost predicate FileAnswer(w: World, c: Conn, s: SendOutcome, files: FileOutcomes, r: Step)
    requires c.WellFormed()
  {
    if c.windowOffset < |c.window| then WindowAnswer(w, c, s, r)
    else if c.transferred == c.expected then Closed(w, c, r)
    else
      var part := NextPart(w, c, files);
      if part == "" then Closed(w, c, r)
      else WindowAnswer(w, c.(window := part, windowOffset := 0, position := c.position + |part|), s, r)
  }

  lemma PartRead(w: World, c: Conn, files: FileOutcomes)
    requires c.WellFormed() && c.state.SendingFile? && c.windowOffset == |c.window|
    ensures var part, f := NextPart(w, c, files), Refill(w, c, files);
            f == if part == "" then Step(w, c, false)
                 else Step(w, c.(window := part, windowOffset := 0, position := c.position + |part|), true)
  {
    var wanted := Min(Min(c.expected - c.transferred, BUFFER_SIZE), files.readCount);
    var file := w.disk.Contents(c.input);
    if c.position < |file| {
      var n := Min(wanted, |file| - c.position);
      assert file[c.position..][..n] == file[c.position..c.position + n];
    }
  }

  lemma {:induction false} WriteFileEvent(w: World, c: Conn, i: Input)
    requires c.WellFormed() && c.Live() && c.state == SendingFile && OnlyWritable(i)
    ensures FileAnswer(w, c, CallAt(i.sends, 0), i.files, Dispatch(w, c, i))
  {
    hide CloseClient, Closed, SendWindow, Refill, NextPart, WindowAnswer;
    var s := CallAt(i.sends, 0);
    FileDispatched(w, c, i);
    CloseCloses(w, c);
    if c.windowOffset < |c.window| {
      WindowAnswered(w, c, s);
    } else if c.transferred < c.expected {
      PartRead(w, c, i.files);
      WindowAnswered(w, Refill(w, c, i.files).c, s);
    }
  }

  lemma FileDispatched(w: World, c: Conn, i: Input)
    requires c.WellFormed() && c.Live() && c.state == SendingFile && OnlyWritable(i)
    ensures var t := FileWritable(w, c, CallAt(i.sends, 0), i.files);
            Dispatch(w, c, i) == if t.ok then t else CloseClient(t.w, t.c)
  {
    hide CloseClient, FileWritable;
  }

  // ---------------------------------------------------------------------------
  // The other bits

  /** An event that reports nothing does nothing. */
  lemma QuietEvent(w: World, c: Conn, i: Input)
    requires c.WellFormed() && c.Live() && !i.readable && !i.writable && !i.hangup && !i.error
    ensures Dispatch(w, c, i) == Step(w, c, true)
  {
  }

  /** A failed socket closes the connection, whatever else is reported. */
  lemma {:induction false} FailedSocket(w: World, c: Conn, i: Input)
    requires c.WellFormed() && c.Live() && i.error
    ensures Closed(w, c, Dispatch(w, c, i))
  {
    CloseCloses(w, c);
    hide CloseClient, Closed, Readable, Writable;
  }

  /** A peer that has hung up is not waited for any more. */
  lemma {:induction false} HungUpAskedFor(w: World, c: Conn, i: Input)
    requires c.WellFormed() && c.Live() && c.WantsInput() && i.hangup && !i.readable && !i.error
    ensures Closed(w, c, Dispatch(w, c, i))
  {
    CloseCloses(w, c);
    hide CloseClient, Closed, Readable;
  }

  /** While there is something to say, a hang-up is treated like a writable socket, until input is wanted next. */
  lemma {:induction false} HungUpWhileSending(w: World, c: Conn, i: Input)
    requires c.WellFormed() && c.Live() && !c.WantsInput() && i.hangup && !i.error
    ensures var r := Dispatch(w, c, i.(readable := false, writable := true, hangup := false));
            if r.c.Live() && r.c.WantsInput() then Closed(r.w, r.c, Dispatch(w, c, i)) else Dispatch(w, c, i) == r
  {
    var t := Writable(w, c, i.sends, i.files);
    CloseCloses(t.w, t.c);
    hide CloseClient, Closed, Writable;
  }
}
