/**
 The server's connection object and its handlers. Each handler is given the results of the
 system calls it will make, and is proved to update the object and the shared state exactly
 as the function of the same meaning in Connection.dfy says.
 */
module ServerClient {
  import opened Text
  import opened Requests
  import opened Storage
  import opened Connection

  /** What the handlers share: the storage root and the global upload sequence. */
  class Host {
    var disk: Disk
    var sequence: nat
    ghost var log: seq<Commit>

    constructor (disk: Disk)
      ensures Shared() == World(disk, 0, [])
    {
      this.disk := disk;
      sequence := 0;
      log := [];
    }

    ghost function Shared(): World
      reads this
    {
      World(disk, sequence, log)
    }
  }

  class Client {
    var fd: int
    var state: ClientState
    var requestBuffer: string
    var pendingOutput: string
    var pendingOffset: nat
    const fileBuffer: array<char>
    var fileBufferSize: nat
    var fileBufferOffset: nat
    var inputFile: FileId
    var inputPosition: nat
    var inputOpen: bool
    var outputFile: FileId
    var outputOpen: bool
    var temporaryPath: string
    var finalPath: string
    var expectedBytes: nat
    var transferredBytes: nat
    ghost var window: string
    ghost var past: Past

    constructor (fd: int)
      ensures Valid() && Model() == NewConn(fd) && fresh(fileBuffer)
    {
      this.fd := fd;
      state := AwaitingRequest;
      requestBuffer, pendingOutput, pendingOffset := "", "", 0;
      fileBuffer := new char[BUFFER_SIZE](_ => '\0');
      fileBufferSize, fileBufferOffset := 0, 0;
      inputFile, inputPosition, inputOpen := 0, 0, false;
      outputFile, outputOpen := 0, false;
      temporaryPath, finalPath := "", "";
      expectedBytes, transferredBytes := 0, 0;
      window, past := "", NOTHING;
    }

    /** `window` is the part of the buffer in use; bytes beyond `fileBufferSize` are left over and do not count. */
    ghost predicate Valid()
      reads this, fileBuffer
    {
      && fileBuffer.Length == BUFFER_SIZE
      && fileBufferSize == |window| <= BUFFER_SIZE
      && fileBuffer[..fileBufferSize] == window
      && Model().WellFormed()
    }

    /** The value of the object. */
    ghost function Model(): Conn
      reads this
    {
      Conn(fd, state, requestBuffer, pendingOutput, pendingOffset, window, fileBufferOffset,
           inputFile, inputPosition, inputOpen, outputFile, outputOpen,
           temporaryPath, finalPath, expectedBytes, transferredBytes, past)
    }

    method RemoveTemporaryFile(host: Host)
      requires Valid()
      modifies this`temporaryPath, host`disk
      ensures Valid() && Model() == old(Model()).(temp := "")
      ensures host.Shared() == RemoveTemporary(old(host.Shared()), old(Model()))
    {
      if temporaryPath != "" {
        host.disk := host.disk.Remove(temporaryPath);
        temporaryPath := "";
      }
    }

    /** Closes both streams and removes the temporary file. */
    method CloseFiles(host: Host)
      requires Valid()
      modifies this`inputOpen, this`outputOpen, this`temporaryPath, host`disk
      ensures Model() == old(Model()).(inputOpen := false, outputOpen := false, temp := "")
      ensures host.Shared() == RemoveTemporary(old(host.Shared()), old(Model()))
      ensures Valid()
    {
      inputOpen := false;
      outputOpen := false;
      RemoveTemporaryFile(host);
    }

    method QueueLine(line: string, next: ClientState)
      requires Valid() && fileBufferSize == 0
      modifies this`pendingOutput, this`pendingOffset, this`state
      ensures Model() == old(Model()).(pending := line, pendingOffset := 0, state := next)
      ensures Valid()
    {
      pendingOutput := line;
      pendingOffset := 0;
      state := next;
    }

    method Close(host: Host)
      requires Valid() && fd >= -1
      modifies this, host
      ensures Step(host.Shared(), Model(), false) == CloseClient(old(host.Shared()), old(Model()))
      ensures Valid() && fd == -1
    {
      CloseFiles(host);
      if fd >= 0 {
        fd := -1;
      }
    }

    method Refuse(host: Host, reason: string)
      requires Valid() && fileBufferSize == 0
      modifies this, host
      ensures Step(host.Shared(), Model(), true) == QueueError(old(host.Shared()), old(Model()), reason)
      ensures Valid()
    {
      CloseFiles(host);
      QueueLine(ErrorLine(reason), SendingError);
    }

    /** The socket takes `count` bytes of the control line. */
    method Accept(count: nat)
      requires Valid() && pendingOffset + count <= |pendingOutput|
      modifies this`pendingOffset, this`past
      ensures Model() == AcceptPart(old(Model()), count)
      ensures Valid()
    {
      past := past.Says(pendingOutput[pendingOffset..pendingOffset + count]);
      pendingOffset := pendingOffset + count;
    }

    method FlushPendingOutput(sends: seq<SendOutcome>) returns (result: FlushResult)
      requires Valid()
      modifies this
      ensures Flush(Model(), result) == FlushPending(old(Model()), sends)
      ensures Valid()
      ensures result == Drained <==> pendingOutput == ""
    {
      var call := 0;
      while pendingOffset < |pendingOutput|
        invariant call <= |sends|
        invariant Valid()
        invariant FlushPending(old(Model()), sends) == FlushPending(Model(), sends[call..])
        decreases |sends| - call
      {
        if call == |sends| {
          return WouldBlock;
        }
        var outcome := sends[call];
        call := call + 1;
        match outcome {
          case Sent(count) =>
            if count == 0 {
              return Failed;
            }
            Accept(Min(count, |pendingOutput| - pendingOffset));
          case SendInterrupted =>
          case SendWouldBlock =>
            return WouldBlock;
          case SendFailed =>
            return Failed;
        }
      }
      pendingOutput := "";
      pendingOffset := 0;
      return Drained;
    }

    method Complete(host: Host, files: FileOutcomes) returns (ok: bool)
      requires Valid() && fileBufferSize == 0
      modifies this, host
      ensures Step(host.Shared(), Model(), ok) == CompleteUpload(old(host.Shared()), old(Model()), files)
      ensures Valid()
    {
      hide QueueError, OkLine, Disk.Rename, Disk.Contents;
      outputOpen, past := false, past.(calls := files);
      if !files.canClose {
        Refuse(host, "storage-failure");
        return true;
      }
      if !files.canRename || temporaryPath !in host.disk.names {
        Refuse(host, "storage-failure");
        return true;
      }
      Publish(host);
      QueueLine(OkLine(expectedBytes), SendingResult);
      return true;
    }

    /** The rename that makes an upload visible. */
    method Publish(host: Host)
      requires Valid() && temporaryPath in host.disk.names
      modifies this`temporaryPath, this`past, host`disk, host`log
      ensures host.disk == old(host.disk).Rename(old(temporaryPath), finalPath)
      ensures host.log == old(host.log) +
                          [Commit(finalPath, old(host.disk.Contents(host.disk.names[temporaryPath])))]
      ensures Model() == old(Model()).(temp := "", past := old(past).(point := |old(host.log)|))
      ensures Valid()
    {
      host.log := host.log + [Commit(finalPath, host.disk.Contents(host.disk.names[temporaryPath]))];
      host.disk := host.disk.Rename(temporaryPath, finalPath);
      temporaryPath, past := "", past.(point := |host.log| - 1);
    }

    method StartDownload(host: Host, name: string, files: FileOutcomes)
      requires Valid() && fileBufferSize == 0
      modifies this, host
      ensures Step(host.Shared(), Model(), true) == StartGet(old(host.Shared()), old(Model()), name, files)
      ensures Valid()
    {
      hide QueueError, OkLine, Disk.Contents;
      if !files.found || name !in host.disk.names {
        Refuse(host, "not-found");
        return;
      }
      if !files.canOpen {
        Refuse(host, "not-readable");
        return;
      }
      OpenInput(host, name);
      if !files.canSize {
        Refuse(host, "not-readable");
        return;
      }
      MeasureInput(host);
      if !files.canSeek {
        Refuse(host, "not-readable");
        return;
      }
      RewindInput(host);
      QueueLine(OkLine(expectedBytes), SendingGetHeader);
    }

    method OpenInput(host: Host, name: string)
      requires Valid() && name in host.disk.names
      modifies this`inputFile, this`inputOpen
      ensures Model() == old(Model()).(input := host.disk.names[name], inputOpen := true)
      ensures Valid()
    {
      inputFile, inputOpen := host.disk.names[name], true;
    }

    /** The size of the file is the position of its end. */
    method MeasureInput(host: Host)
      requires Valid() && fileBufferSize == 0
      modifies this`expectedBytes, this`transferredBytes, this`inputPosition
      ensures var size := |host.disk.Contents(inputFile)|;
              Model() == old(Model()).(expected := size, transferred := 0, position := size)
      ensures Valid()
    {
      hide Disk.Contents;
      expectedBytes, transferredBytes := |host.disk.Contents(inputFile)|, 0;
      inputPosition := expectedBytes;
    }

    method RewindInput(host: Host)
      requires Valid()
      modifies this`inputPosition, this`past
      ensures Model() == old(Model()).(position := 0, past := old(past).(point := |host.log|))
      ensures Valid()
    {
      inputPosition, past := 0, past.(point := |host.log|);
    }

    method NameTemporary(host: Host, name: string, size: nat)
      requires Valid() && fileBufferSize == 0 && fd >= 0
      modifies this`expectedBytes, this`transferredBytes, this`finalPath, this`temporaryPath, host`sequence
      ensures host.sequence == old(host.sequence) + 1
      ensures Model() == old(Model()).(expected := size, transferred := 0, final := name,
                                       temp := TempName(fd, host.sequence))
      ensures Valid()
    {
      hide TempName;
      expectedBytes, transferredBytes, finalPath := size, 0, name;
      host.sequence := host.sequence + 1;
      temporaryPath := TempName(fd, host.sequence);
    }

    method CreateTemporary(host: Host)
      requires Valid()
      modifies this`outputFile, this`outputOpen, host`disk
      ensures var (disk, file) := old(host.disk).Truncate(temporaryPath);
              host.disk == disk && Model() == old(Model()).(output := file, outputOpen := true)
      ensures Valid()
    {
      var (disk, file) := host.disk.Truncate(temporaryPath);
      host.disk := disk;
      outputFile, outputOpen := file, true;
    }

    method StartUpload(host: Host, name: string, size: nat, files: FileOutcomes)
      requires Valid() && fileBufferSize == 0 && fd >= 0
      modifies this, host
      ensures Step(host.Shared(), Model(), true) == StartPut(old(host.Shared()), old(Model()), name, size, files)
      ensures Valid()
    {
      hide QueueError, TempName, Disk.Truncate, READY_LINE;
      NameTemporary(host, name, size);
      if !files.canCreate {
        Refuse(host, "storage-failure");
        return;
      }
      CreateTemporary(host);
      QueueLine(READY_LINE, SendingReady);
    }

    method Start(host: Host, request: Request, files: FileOutcomes) returns (ok: bool)
      requires Valid() && fileBufferSize == 0 && fd >= 0
      modifies this, host
      ensures Step(host.Shared(), Model(), ok) == StartRequest(old(host.Shared()), old(Model()), request, files)
      ensures Valid()
    {
      match request {
        case Get(name) => StartDownload(host, name, files);
        case Put(name, size) => StartUpload(host, name, size, files);
      }
      return true;
    }

    method TakeRequestBytes(host: Host, bytes: string, files: FileOutcomes)
      requires Valid() && fileBufferSize == 0 && fd >= 0
      modifies this, host
      ensures Step(host.Shared(), Model(), true) == RequestData(old(host.Shared()), old(Model()), bytes, files)
      ensures Valid()
    {
      hide QueueError, StartRequest, ParseRequest, Find;
      past := past.Hears(bytes);
      requestBuffer := requestBuffer + bytes;
      var newline := Find(requestBuffer, '\n');
      if newline == |requestBuffer| {
        if |requestBuffer| > MAX_REQUEST_LINE {
          Refuse(host, "request-too-long");
        }
        return;
      }
      if newline + 1 != |requestBuffer| || newline > MAX_REQUEST_LINE {
        Refuse(host, "bad-request");
        return;
      }
      var parsed := ParseRequest(requestBuffer[..newline]);
      requestBuffer := "";
      match parsed {
        case Rejected(reason) => Refuse(host, reason);
        case Accepted(request) =>
          past := past.Asks(request, host.Shared(), files);
          var _ := Start(host, request, files);
      }
    }

    method HandleRequestReadable(host: Host, recvs: seq<RecvOutcome>, files: FileOutcomes) returns (ok: bool)
      requires Valid() && fileBufferSize == 0 && fd >= 0
      modifies this, host
      ensures Step(host.Shared(), Model(), ok)
               == RequestReadable(old(host.Shared()), old(Model()), Settled(recvs), files)
      ensures Valid()
    {
      var call := 0;
      while true
        invariant call <= |recvs|
        invariant Settled(recvs) == Settled(recvs[call..])
        invariant Valid() && fileBufferSize == 0 && fd >= 0
        invariant Model() == old(Model()) && host.Shared() == old(host.Shared())
        decreases |recvs| - call
      {
        var outcome := if call < |recvs| then recvs[call] else RecvWouldBlock;
        match outcome {
          case Data(bytes) =>
            TakeRequestBytes(host, bytes, files);
            return true;
          case EndOfStream =>
            return false;
          case RecvInterrupted =>
            call := call + 1;
          case RecvWouldBlock =>
            return true;
          case RecvFailed =>
            return false;
        }
      }
    }

    method TakeUploadBytes(host: Host, bytes: string, files: FileOutcomes)
      requires Valid() && fileBufferSize == 0
      modifies this, host
      ensures Step(host.Shared(), Model(), true) == UploadData(old(host.Shared()), old(Model()), bytes, files)
      ensures Valid()
    {
      hide QueueError, CompleteUpload, Disk.Append;
      past := past.HearsPayload(bytes, files);
      var remaining := expectedBytes - transferredBytes;
      var accepted := Min(remaining, |bytes|);
      if !files.canWrite {
        Refuse(host, "storage-failure");
        return;
      }
      host.disk := host.disk.Append(outputFile, bytes[..accepted]);
      transferredBytes := transferredBytes + accepted;
      if accepted != |bytes| {
        Refuse(host, "protocol-error");
      } else if transferredBytes == expectedBytes {
        var _ := Complete(host, files);
      }
    }

    method HandleUploadReadable(host: Host, recvs: seq<RecvOutcome>, files: FileOutcomes) returns (ok: bool)
      requires Valid() && fileBufferSize == 0
      modifies this, host
      ensures Step(host.Shared(), Model(), ok)
               == UploadReadable(old(host.Shared()), old(Model()), Settled(recvs), files)
      ensures Valid()
    {
      var call := 0;
      while true
        invariant call <= |recvs|
        invariant Settled(recvs) == Settled(recvs[call..])
        invariant Valid() && fileBufferSize == 0
        invariant Model() == old(Model()) && host.Shared() == old(host.Shared())
        decreases |recvs| - call
      {
        var outcome := if call < |recvs| then recvs[call] else RecvWouldBlock;
        match outcome {
          case Data(bytes) =>
            TakeUploadBytes(host, bytes, files);
            return true;
          case EndOfStream =>
            return false;
          case RecvInterrupted =>
            call := call + 1;
          case RecvWouldBlock =>
            return true;
          case RecvFailed =>
            return false;
        }
      }
    }

    /** Reads the next part of the file into the buffer, once the previous one has been sent. */
    method FillBuffer(host: Host, files: FileOutcomes) returns (filled: bool)
      requires Valid() && state == SendingFile && fileBufferOffset == fileBufferSize
      modifies this, fileBuffer
      ensures Step(host.Shared(), Model(), filled) == Refill(host.Shared(), old(Model()), files)
      ensures Valid() && state == SendingFile
    {
      hide Disk.Read;
      var remaining := expectedBytes - transferredBytes;
      var wanted := Min(remaining, BUFFER_SIZE);
      var bytes := host.disk.Read(inputFile, inputPosition, Min(wanted, files.readCount));
      if bytes == "" {
        return false;
      }
      CopyIntoBuffer(bytes);
      return true;
    }

    method CopyIntoBuffer(bytes: Chunk)
      requires Valid() && state == SendingFile
      requires fileBufferOffset == fileBufferSize && transferredBytes + |bytes| <= expectedBytes
      modifies this`inputPosition, this`fileBufferSize, this`fileBufferOffset, this`window, fileBuffer
      ensures Model() == old(Model()).(position := old(inputPosition) + |bytes|, window := bytes, windowOffset := 0)
      ensures Valid()
    {
      WriteBuffer(bytes);
      inputPosition := inputPosition + |bytes|;
      fileBufferSize, fileBufferOffset, window := |bytes|, 0, bytes;
    }

    method WriteBuffer(bytes: Chunk)
      requires fileBuffer.Length == BUFFER_SIZE
      modifies fileBuffer
      ensures fileBuffer[..|bytes|] == bytes
    {
      forall i | 0 <= i < |bytes| {
        fileBuffer[i] := bytes[i];
      }
    }

    /** The socket takes `count` bytes of the buffer. */
    method AcceptBuffered(count: nat)
      requires Valid() && fileBufferOffset + count <= fileBufferSize
      modifies this`fileBufferOffset, this`transferredBytes, this`past
      ensures Model() == AcceptWindow(old(Model()), count)
      ensures Valid()
    {
      var bytes := fileBuffer[fileBufferOffset..fileBufferOffset + count];
      assert bytes == fileBuffer[..fileBufferSize][fileBufferOffset..fileBufferOffset + count];
      past := past.Says(bytes);
      fileBufferOffset, transferredBytes := fileBufferOffset + count, transferredBytes + count;
    }

    /** One `send` of what is left in the buffer. */
    method SendBuffered(host: Host, outcome: SendOutcome) returns (ok: bool)
      requires Valid()
      modifies this
      ensures Step(host.Shared(), Model(), ok) == SendWindow(host.Shared(), old(Model()), outcome)
      ensures Valid()
    {
      match outcome {
        case Sent(count) =>
          var accepted := Min(count, fileBufferSize - fileBufferOffset);
          if accepted == 0 {
            return false;
          }
          AcceptBuffered(accepted);
          return true;
        case SendInterrupted =>
          return true;
        case SendWouldBlock =>
          return true;
        case SendFailed =>
          return false;
      }
    }

    method HandleFileWritable(host: Host, outcome: SendOutcome, files: FileOutcomes) returns (ok: bool)
      requires Valid() && state == SendingFile
      modifies this, fileBuffer
      ensures Step(host.Shared(), Model(), ok) == FileWritable(old(host.Shared()), old(Model()), outcome, files)
      ensures Valid()
    {
      if fileBufferOffset == fileBufferSize {
        if transferredBytes == expectedBytes {
          return false;
        }
        var filled := FillBuffer(host, files);
        if !filled {
          return false;
        }
      }
      ok := SendBuffered(host, outcome);
    }

    method HandleWritable(host: Host, sends: seq<SendOutcome>, files: FileOutcomes) returns (ok: bool)
      requires Valid()
      modifies this, fileBuffer, host
      ensures Step(host.Shared(), Model(), ok) == Writable(old(host.Shared()), old(Model()), sends, files)
      ensures Valid()
    {
      hide FlushPending, CompleteUpload, FileWritable;
      match state {
        case SendingGetHeader =>
          var result := FlushPendingOutput(sends);
          if result == Failed {
            return false;
          }
          if result == Drained {
            if expectedBytes == 0 {
              return false;
            }
            state := SendingFile;
          }
          return true;
        case SendingReady =>
          var result := FlushPendingOutput(sends);
          if result == Failed {
            return false;
          }
          if result == Drained {
            if expectedBytes == 0 {
              ok := Complete(host, files);
              return ok;
            }
            state := ReceivingFile;
          }
          return true;
        case SendingResult =>
          var result := FlushPendingOutput(sends);
          return result != Failed && pendingOutput != "";
        case SendingError =>
          var result := FlushPendingOutput(sends);
          return result != Failed && pendingOutput != "";
        case SendingFile =>
          ok := HandleFileWritable(host, if sends == [] then SendWouldBlock else sends[0], files);
          return ok;
        case AwaitingRequest =>
          return true;
        case ReceivingFile =>
          return true;
      }
    }

    method HandleEvent(host: Host, i: Input) returns (ok: bool)
      requires Valid() && fd >= 0
      modifies this, fileBuffer, host
      ensures Step(host.Shared(), Model(), ok) == ClientEvent(old(host.Shared()), old(Model()), i)
      ensures Valid() && fd == old(fd)
    {
      hide RequestReadable, UploadReadable, Writable, Settled;
      if i.error {
        return false;
      }
      if i.readable {
        ok := true;
        if state == AwaitingRequest {
          ok := HandleRequestReadable(host, i.recvs, i.files);
        } else if state == ReceivingFile {
          ok := HandleUploadReadable(host, i.recvs, i.files);
        }
        if !ok {
          return false;
        }
      }
      var needsWrite := state != AwaitingRequest && state != ReceivingFile;
      if i.writable || (i.hangup && needsWrite) {
        ok := HandleWritable(host, i.sends, i.files);
        if !ok {
          return false;
        }
      }
      return !i.hangup || (state != AwaitingRequest && state != ReceivingFile);
    }
  }
}
