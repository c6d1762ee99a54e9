/**
 The client program as a machine: where it stands, and what one system call or one piece of local work makes of it.
 `ClientProgram` holds the program itself, which is proved to follow this machine call by call.
 */
module Peer {
  import opened Text
  import opened Requests
  import opened Connection

  const MAX_RESPONSE_LINE: nat := 4096

  datatype Job = Download | Upload(local: string)

  /** What follows a chunk: another read, or the end of the loop with the stream intact or broken. */
  datatype AfterChunk = More | Last(intact: bool)

  datatype Phase =
    | SendingRequest(offset: nat)
    | AwaitingHeader
    | Copying(remaining: nat)
    | AwaitingReady
    | Reading
    | SendingChunk(chunk: string, offset: nat, next: AfterChunk)
    | AwaitingResult
    | Done(ok: bool)

  /**
   `file` is what has been written to the local destination, `sentBytes` counts the payload sent in whole chunks;
   `sent` and `received` are the history of the socket.
   */
  datatype Peer = Peer(
    job: Job, remote: string, phase: Phase, buffered: string, file: string, sentBytes: nat,
    sent: string, received: string)

  /** How local work goes: the checks before a download, a write, the final rename, a read of the source file. */
  datatype LocalOutcomes = LocalOutcomes(canCreate: bool, canWrite: bool, canFinish: bool, intact: bool, count: nat)

  datatype PeerEvent = Sends(s: SendOutcome) | Receives(r: RecvOutcome) | Works(l: LocalOutcomes)

  function NewPeer(job: Job, remote: string): Peer {
    Peer(job, remote, SendingRequest(0), "", "", 0, "", "")
  }

  function AskedBy(job: Job, remote: string): Request {
    match job
    case Download => Get(remote)
    case Upload(local) => Put(remote, |local|)
  }

  function TextOf(request: Request): (text: string)
    ensures text != ""
  {
    PrintRequest(request) + "\n"
  }

  function RequestText(p: Peer): (text: string)
    ensures text != ""
  {
    TextOf(AskedBy(p.job, p.remote))
  }

  /** Everything the program will send if all goes well. */
  function FullText(p: Peer): string {
    RequestText(p) + if p.job.Upload? then p.job.local else ""
  }

  predicate IsErrorLine(line: string) {
    "ERR " <= line
  }

  /** `parse_ok_size` */
  function OkSizeOf(line: string): Option<nat> {
    if "OK " <= line then Uint64Of(line[3..]) else None
  }

  // ---------------------------------------------------------------------------
  // Steps

  predicate AwaitsLine(p: Peer) {
    p.phase.AwaitingHeader? || p.phase.AwaitingReady? || p.phase.AwaitingResult?
  }

  predicate NeedsInput(p: Peer) {
    || (AwaitsLine(p) && '\n' !in p.buffered && |p.buffered| <= MAX_RESPONSE_LINE)
    || (p.phase.Copying? && p.phase.remaining > 0 && p.buffered == "")
  }

  predicate IsSending(p: Peer) {
    p.phase.SendingRequest? || p.phase.SendingChunk?
  }

  predicate CanWork(p: Peer) {
    !p.phase.Done? && !IsSending(p) && !NeedsInput(p)
  }

  function Outgoing(p: Peer): string {
    match p.phase
    case SendingRequest(offset) => if offset <= |RequestText(p)| then RequestText(p)[offset..] else ""
    case SendingChunk(chunk, offset, _) => if offset <= |chunk| then chunk[offset..] else ""
    case _ => ""
  }

  function Fail(p: Peer): Peer {
    p.(phase := Done(false))
  }

  /** Phases of an upload occur in uploads only. */
  predicate RightPhase(p: Peer) {
    && (p.phase.AwaitingHeader? || p.phase.Copying? ==> p.job.Download?)
    && (p.phase.AwaitingReady? || p.phase.Reading? || p.phase.SendingChunk? || p.phase.AwaitingResult? ==>
          p.job.Upload?)
  }

  predicate SameJob(p: Peer, q: Peer) {
    q.job == p.job && q.remote == p.remote
  }

  /** The end of the reading loop. */
  function LoopEnd(p: Peer, intact: bool): Peer
    requires p.job.Upload?
  {
    if intact && p.sentBytes == |p.job.local| then p.(phase := AwaitingResult) else Fail(p)
  }

  /** The socket takes the first `n` bytes of what is going out. */
  function Advance(p: Peer, n: nat): (q: Peer)
    requires IsSending(p) && n <= |Outgoing(p)| && (p.phase.SendingChunk? ==> p.job.Upload?)
    ensures SameJob(p, q) && (RightPhase(p) ==> RightPhase(q))
  {
    var p1 := p.(sent := p.sent + Outgoing(p)[..n]);
    if p.phase.SendingRequest? then
      if n < |Outgoing(p)| then p1.(phase := SendingRequest(p.phase.offset + n))
      else p1.(phase := if p.job.Download? then AwaitingHeader else AwaitingReady)
    else if n < |Outgoing(p)| then p1.(phase := p.phase.(offset := p.phase.offset + n))
    else
      var p2 := p1.(sentBytes := p.sentBytes + |p.phase.chunk|);
      if p.phase.next.More? then p2.(phase := Reading) else LoopEnd(p2, p.phase.next.intact)
  }

  function TakeLine(p: Peer): (string, Peer)
    requires '\n' in p.buffered
  {
    FindAbsent(p.buffered, '\n');
    var newline := Find(p.buffered, '\n');
    (p.buffered[..newline], p.(buffered := p.buffered[newline + 1..]))
  }

  /** The program acts on a complete line, or gives up on one that is too long. */
  function WorkOnLine(p: Peer, l: LocalOutcomes): (q: Peer)
    requires CanWork(p) && AwaitsLine(p) && (p.phase.AwaitingResult? ==> p.job.Upload?)
    ensures SameJob(p, q) && (RightPhase(p) ==> RightPhase(q))
  {
    if '\n' !in p.buffered then Fail(p)
    else
      var (line, q) := TakeLine(p);
      var size := OkSizeOf(line);
      if IsErrorLine(line) then Fail(q)
      else if p.phase.AwaitingReady? then if line == "READY" then q.(phase := Reading) else Fail(q)
      else if size.None? then Fail(q)
      else if p.phase.AwaitingHeader? then if l.canCreate then q.(phase := Copying(size.value)) else Fail(q)
      else q.(phase := Done(size.value == |p.job.local|))
  }

  function CopySome(p: Peer, l: LocalOutcomes): (q: Peer)
    requires p.phase.Copying?
    ensures SameJob(p, q) && (RightPhase(p) ==> RightPhase(q))
  {
    var remaining := p.phase.remaining;
    if remaining == 0 then p.(phase := Done(l.canFinish))
    else if !l.canWrite then Fail(p)
    else
      var count := Min(remaining, |p.buffered|);
      p.(phase := Copying(remaining - count), file := p.file + p.buffered[..count], buffered := p.buffered[count..])
  }

  function ReadSome(p: Peer, l: LocalOutcomes): (q: Peer)
    requires p.job.Upload?
    ensures SameJob(p, q) && (RightPhase(p) ==> RightPhase(q))
  {
    var rest := if p.sentBytes <= |p.job.local| then p.job.local[p.sentBytes..] else "";
    var chunk := rest[..Min(Min(l.count, BUFFER_SIZE), |rest|)];
    if chunk == "" then LoopEnd(p, l.intact)
    else p.(phase := SendingChunk(chunk, 0, if |chunk| == BUFFER_SIZE then More else Last(l.intact)))
  }

  function Work(p: Peer, l: LocalOutcomes): (q: Peer)
    requires CanWork(p) && RightPhase(p)
    ensures SameJob(p, q) && (RightPhase(p) ==> RightPhase(q))
  {
    if p.phase.Copying? then CopySome(p, l)
    else if p.phase.Reading? then ReadSome(p, l)
    else WorkOnLine(p, l)
  }

  function AfterSend(p: Peer, s: SendOutcome): (q: Peer)
    requires IsSending(p) && (p.phase.SendingChunk? ==> p.job.Upload?)
    ensures SameJob(p, q) && (RightPhase(p) ==> RightPhase(q))
  {
    match s
    case Sent(count) => if count == 0 then Fail(p) else Advance(p, Min(count, |Outgoing(p)|))
    case SendInterrupted => p
    case _ => Fail(p)
  }

  function AfterRecv(p: Peer, r: RecvOutcome): Peer {
    match r
    case Data(bytes) => p.(buffered := p.buffered + bytes, received := p.received + bytes)
    case RecvInterrupted => p
    case _ => Fail(p)
  }

  /** One event; calls that the program does not make at this point leave it as it is. */
  function PeerStep(p: Peer, e: PeerEvent): (q: Peer)
    requires RightPhase(p)
    ensures RightPhase(q) && q.job == p.job && q.remote == p.remote
  {
    match e
    case Sends(s) => if IsSending(p) then AfterSend(p, s) else p
    case Receives(r) => if NeedsInput(p) then AfterRecv(p, r) else p
    case Works(l) => if CanWork(p) then Work(p, l) else p
  }

  function RunPeer(p: Peer, events: seq<PeerEvent>): (q: Peer)
    requires RightPhase(p)
    ensures RightPhase(q) && q.job == p.job && q.remote == p.remote
  {
    if events == [] then p else PeerStep(RunPeer(p, events[..|events| - 1]), events[|events| - 1])
  }

  // ---------------------------------------------------------------------------
  // What the program makes of the stream it receives

  function HeaderOf(received: string): string {
    received[..Find(received, '\n')]
  }

  /** The stream so far is a header line that announces the size, the file written so far and what is still buffered. */
  ghost predicate Split(p: Peer, size: nat) {
    && Find(p.received, '\n') < |p.received|
    && !IsErrorLine(HeaderOf(p.received)) && OkSizeOf(HeaderOf(p.received)) == Some(size)
    && p.received == HeaderOf(p.received) + "\n" + p.file + p.buffered
  }

  /** After `READY` the stream so far is a second line that confirms the size. */
  ghost predicate Confirmed(received: string, size: nat) {
    && READY_LINE <= received
    && var rest := received[|READY_LINE|..];
    && Find(rest, '\n') < |rest| && OkSizeOf(HeaderOf(rest)) == Some(size)
  }

  ghost predicate Requesting(p: Peer, offset: nat) {
    && offset < |RequestText(p)| && p.sent == RequestText(p)[..offset]
    && p.received == p.buffered == p.file == "" && p.sentBytes == 0
  }

  ghost predicate Listening(p: Peer) {
    p.sent == RequestText(p) && p.received == p.buffered && p.file == "" && p.sentBytes == 0
  }

  /** After `READY` has come in, the request and the first `n` bytes of the payload have gone out. */
  ghost predicate Uploaded(p: Peer, n: nat)
    requires p.job.Upload?
  {
    && n <= |p.job.local| && p.sent == RequestText(p) + p.job.local[..n]
    && p.received == READY_LINE + p.buffered
  }

  ghost predicate Chunked(p: Peer, chunk: string, offset: nat)
    requires p.job.Upload?
  {
    && offset < |chunk| && p.sentBytes + |chunk| <= |p.job.local|
    && chunk == p.job.local[p.sentBytes..p.sentBytes + |chunk|]
    && Uploaded(p, p.sentBytes + offset)
  }

  ghost predicate Ended(p: Peer, ok: bool) {
    && p.sent <= FullText(p)
    && (|p.sent| > |RequestText(p)| ==> READY_LINE <= p.received)
    && (ok ==> p.sent == FullText(p))
    && (ok && p.job.Download? ==> Split(p, |p.file|))
    && (ok && p.job.Upload? ==> Confirmed(p.received, |p.job.local|))
  }

  ghost predicate PeerInv(p: Peer) {
    && RightPhase(p)
    && match p.phase
       case SendingRequest(offset) => Requesting(p, offset)
       case AwaitingHeader => Listening(p)
       case Copying(remaining) => p.sent == RequestText(p) && Split(p, |p.file| + remaining)
       case AwaitingReady => Listening(p)
       case Reading => Uploaded(p, p.sentBytes)
       case SendingChunk(chunk, offset, _) => Chunked(p, chunk, offset)
       case AwaitingResult => p.sentBytes == |p.job.local| && Uploaded(p, p.sentBytes)
       case Done(ok) => Ended(p, ok)
  }

  ghost function GoodPeers(): iset<Peer> {
    iset p: Peer | PeerInv(p)
  }

  /**
   Whatever the phase: only bytes of the request and the payload go out, and no payload before `READY` has come in.
   */
  lemma SendsInOrder(p: Peer)
    requires p in GoodPeers()
    ensures p.sent <= FullText(p)
    ensures |p.sent| > |RequestText(p)| ==> READY_LINE <= p.received
    ensures p.job.Download? ==> p.sent <= RequestText(p)
  {
    hide TextOf, AskedBy, OkSizeOf, Split, Confirmed;
  }

  lemma NewPeerGood(job: Job, remote: string)
    ensures NewPeer(job, remote) in GoodPeers()
  {
  }

  // ---------------------------------------------------------------------------
  // Every step keeps the invariant

  lemma FailKeeps(p: Peer, q: Peer)
    requires p in GoodPeers()
    requires q.phase == Done(false) && q.sent == p.sent && p.received <= q.received && q.job == p.job
             && q.remote == p.remote
    ensures q in GoodPeers()
  {
    SendsInOrder(p);
    hide TextOf, AskedBy, OkSizeOf, Split, Confirmed;
  }

  lemma RequestPartSent(p: Peer, n: nat)
    requires p in GoodPeers() && p.phase.SendingRequest? && 0 < n < |Outgoing(p)|
    requires var text, offset := RequestText(p), p.phase.offset;
             text[..offset] + text[offset..][..n] == text[..offset + n]
    ensures Advance(p, n) in GoodPeers()
  {
    hide TextOf, AskedBy;
  }

  lemma RequestSent(p: Peer, n: nat)
    requires p in GoodPeers() && p.phase.SendingRequest? && 0 < n == |Outgoing(p)|
    requires var text, offset := RequestText(p), p.phase.offset; text[..offset] + text[offset..][..n] == text
    ensures Advance(p, n) in GoodPeers()
  {
    hide TextOf, AskedBy;
  }

  lemma AdvanceRequestKeeps(p: Peer, n: nat)
    requires p in GoodPeers() && p.phase.SendingRequest? && 0 < n <= |Outgoing(p)|
    ensures Advance(p, n) in GoodPeers()
  {
    assert p.phase.offset < |RequestText(p)| && Outgoing(p) == RequestText(p)[p.phase.offset..];
    hide TextOf, AskedBy, RequestText, Advance, GoodPeers, Outgoing;
    PrefixExtends(RequestText(p), p.phase.offset, n);
    if n == |Outgoing(p)| {
      RequestSent(p, n);
    } else {
      RequestPartSent(p, n);
    }
  }

  lemma PrefixExtends(text: string, offset: nat, n: nat)
    requires offset + n <= |text|
    ensures text[..offset] + text[offset..][..n] == text[..offset + n]
    ensures offset + n == |text| ==> text[..offset + n] == text
  {
  }

  lemma SliceExtends(s: string, start: nat, end: nat, offset: nat, n: nat)
    requires start + offset + n <= end <= |s|
    ensures s[..start + offset] + s[start..end][offset..][..n] == s[..start + offset + n]
  {
  }

  lemma ChunkSent(p: Peer, n: nat)
    requires p.job.Upload? && p.phase.SendingChunk? && Chunked(p, p.phase.chunk, p.phase.offset) && n <= |Outgoing(p)|
    ensures Uploaded(p.(sent := p.sent + Outgoing(p)[..n]), p.sentBytes + p.phase.offset + n)
  {
    hide TextOf, AskedBy, READY_LINE;
    SliceExtends(p.job.local, p.sentBytes, p.sentBytes + |p.phase.chunk|, p.phase.offset, n);
  }

  lemma LoopEndKeeps(p: Peer, intact: bool)
    requires p.job.Upload? && Uploaded(p, p.sentBytes)
    ensures LoopEnd(p, intact) in GoodPeers()
  {
    var local, q := p.job.local, LoopEnd(p, intact);
    hide TextOf, AskedBy, OkSizeOf, Split, Confirmed;
    assert local[..p.sentBytes] <= local;
  }

  lemma AdvanceChunkKeeps(p: Peer, n: nat)
    requires p in GoodPeers() && p.phase.SendingChunk? && 0 < n <= |Outgoing(p)|
    ensures Advance(p, n) in GoodPeers()
  {
    if n < |Outgoing(p)| {
      ChunkPartKeeps(p, n);
    } else {
      ChunkEndKeeps(p);
    }
    hide GoodPeers, Advance, Outgoing;
  }

  lemma ChunkPartKeeps(p: Peer, n: nat)
    requires p in GoodPeers() && p.phase.SendingChunk? && 0 < n < |Outgoing(p)|
    ensures Advance(p, n) in GoodPeers()
  {
    ChunkSent(p, n);
    var q := p.(sent := p.sent + Outgoing(p)[..n], phase := p.phase.(offset := p.phase.offset + n));
    hide TextOf, AskedBy, READY_LINE, FullText;
    assert Uploaded(q, p.sentBytes + p.phase.offset + n);
  }

  lemma ChunkEndKeeps(p: Peer)
    requires p in GoodPeers() && p.phase.SendingChunk?
    ensures Advance(p, |Outgoing(p)|) in GoodPeers()
  {
    ChunkSent(p, |Outgoing(p)|);
    var q := p.(sent := p.sent + Outgoing(p)[..|Outgoing(p)|], sentBytes := p.sentBytes + |p.phase.chunk|);
    hide TextOf, AskedBy, READY_LINE, FullText, LoopEnd;
    assert Uploaded(q, q.sentBytes);
    if p.phase.next.More? {
      assert Uploaded(q.(phase := Reading), q.sentBytes);
    } else {
      LoopEndKeeps(q, p.phase.next.intact);
    }
  }

  lemma SplitGrows(p: Peer, q: Peer, size: nat)
    requires Split(p, size) && p.received <= q.received
    requires q.received == HeaderOf(p.received) + "\n" + q.file + q.buffered
    ensures Split(q, size)
  {
    assert '\n' in p.received;
    FindInPrefix(p.received, q.received, '\n');
    assert HeaderOf(q.received) == HeaderOf(p.received);
  }

  /** The same request and the same bytes sent, with more of the stream. */
  lemma CopyingKeeps(p: Peer, q: Peer)
    requires p in GoodPeers() && p.phase.Copying? && q.phase.Copying?
    requires q.job == p.job && q.remote == p.remote && q.sent == p.sent
    requires |q.file| + q.phase.remaining == |p.file| + p.phase.remaining
    requires Split(q, |q.file| + q.phase.remaining)
    ensures q in GoodPeers()
  {
    hide TextOf, AskedBy, OkSizeOf, IsErrorLine, Split;
  }

  lemma ReceiveKeeps(p: Peer, bytes: Chunk)
    requires p in GoodPeers() && NeedsInput(p)
    ensures AfterRecv(p, Data(bytes)) in GoodPeers()
  {
    hide TextOf, AskedBy, OkSizeOf, IsErrorLine, Find;
    var q := AfterRecv(p, Data(bytes));
    if p.phase.Copying? {
      assert Split(p, |p.file| + p.phase.remaining);
      SplitGrows(p, q, |p.file| + p.phase.remaining);
      CopyingKeeps(p, q);
    } else {
      hide Split, Confirmed;
    }
  }

  lemma WriteKeeps(p: Peer, count: nat)
    requires p in GoodPeers() && p.phase.Copying? && count <= p.phase.remaining && count <= |p.buffered|
    ensures p.(phase := Copying(p.phase.remaining - count), file := p.file + p.buffered[..count],
               buffered := p.buffered[count..]) in GoodPeers()
  {
    hide TextOf, AskedBy, OkSizeOf, IsErrorLine, Find;
    var q := p.(phase := Copying(p.phase.remaining - count), file := p.file + p.buffered[..count],
                buffered := p.buffered[count..]);
    assert Split(p, |p.file| + p.phase.remaining);
    assert p.buffered == p.buffered[..count] + p.buffered[count..];
    SplitGrows(p, q, |p.file| + p.phase.remaining);
    CopyingKeeps(p, q);
  }

  lemma CopyEndKeeps(p: Peer)
    requires p in GoodPeers() && p.phase == Copying(0)
    ensures p.(phase := Done(true)) in GoodPeers()
  {
    hide TextOf, AskedBy, OkSizeOf, IsErrorLine, Find, HeaderOf;
    assert Split(p, |p.file|);
    assert Split(p.(phase := Done(true)), |p.file|);
    hide Split, Confirmed;
  }

  lemma CopyKeeps(p: Peer, l: LocalOutcomes)
    requires p in GoodPeers() && p.phase.Copying?
    ensures CopySome(p, l) in GoodPeers()
  {
    hide GoodPeers;
    if CopySome(p, l).phase == Done(false) {
      FailKeeps(p, CopySome(p, l));
    } else if p.phase.remaining == 0 {
      CopyEndKeeps(p);
    } else {
      WriteKeeps(p, Min(p.phase.remaining, |p.buffered|));
    }
  }

  lemma ReadKeeps(p: Peer, l: LocalOutcomes)
    requires p in GoodPeers() && p.phase.Reading?
    ensures ReadSome(p, l) in GoodPeers()
  {
    var q := ReadSome(p, l);
    if q.phase.SendingChunk? {
      hide TextOf, AskedBy;
      assert Uploaded(q, q.sentBytes + 0);
    } else {
      LoopEndKeeps(p, l.intact);
    }
  }

  lemma LineTaken(p: Peer)
    requires '\n' in p.buffered
    ensures var (line, q) := TakeLine(p);
            && p.buffered == line + "\n" + q.buffered && line == HeaderOf(p.buffered)
            && Find(p.buffered, '\n') == |line| < |p.buffered|
  {
    FindAbsent(p.buffered, '\n');
  }

  /** Acting on a line either ends in failure or goes on as the line says. */
  lemma LineOutcome(p: Peer, l: LocalOutcomes)
    requires CanWork(p) && AwaitsLine(p) && RightPhase(p) && WorkOnLine(p, l).phase != Done(false)
    ensures '\n' in p.buffered
    ensures var (line, q) := TakeLine(p); var r := WorkOnLine(p, l);
            if p.phase.AwaitingReady? then line == "READY" && r == q.(phase := Reading)
            else
              && !IsErrorLine(line) && OkSizeOf(line).Some?
              && if p.phase.AwaitingHeader? then r == q.(phase := Copying(OkSizeOf(line).value))
                 else OkSizeOf(line) == Some(|p.job.local|) && r == q.(phase := Done(true))
  {
    hide OkSizeOf, Find;
  }

  lemma WorkedFrom(p: Peer, l: LocalOutcomes)
    requires CanWork(p) && AwaitsLine(p) && RightPhase(p)
    ensures var q := WorkOnLine(p, l);
            q.sent == p.sent && q.received == p.received && q.job == p.job && q.remote == p.remote
  {
    hide OkSizeOf, Find, IsErrorLine;
  }

  lemma HeaderSplits(p: Peer, q: Peer, size: nat)
    requires '\n' in p.buffered && p.received == p.buffered && q == TakeLine(p).1 && p.file == ""
    requires !IsErrorLine(TakeLine(p).0) && OkSizeOf(TakeLine(p).0) == Some(size)
    ensures Split(q, size)
  {
    LineTaken(p);
    hide OkSizeOf, IsErrorLine, Find;
  }

  lemma HeaderKeeps(p: Peer)
    requires p in GoodPeers() && p.phase.AwaitingHeader? && '\n' in p.buffered
    requires !IsErrorLine(TakeLine(p).0) && OkSizeOf(TakeLine(p).0).Some?
    ensures TakeLine(p).1.(phase := Copying(OkSizeOf(TakeLine(p).0).value)) in GoodPeers()
  {
    hide TextOf, AskedBy, OkSizeOf, IsErrorLine, Find, Split, Confirmed;
    var (line, q) := TakeLine(p);
    HeaderSplits(p, q, OkSizeOf(line).value);
    SplitInPhase(q, OkSizeOf(line).value);
  }

  /** The phase does not matter for how the stream splits. */
  lemma SplitInPhase(p: Peer, size: nat)
    requires Split(p, size)
    ensures Split(p.(phase := Copying(size)), size)
  {
  }

  lemma ReadyKeeps(p: Peer)
    requires p in GoodPeers() && p.phase.AwaitingReady? && '\n' in p.buffered
    requires TakeLine(p).0 == "READY"
    ensures TakeLine(p).1.(phase := Reading) in GoodPeers()
  {
    LineTaken(p);
    hide TextOf, AskedBy, OkSizeOf, IsErrorLine, Find, TakeLine, Split, Confirmed;
    var (line, q) := TakeLine(p);
    assert p.job.local[..0] == "";
    assert Uploaded(q, 0);
  }

  lemma Confirms(p: Peer)
    requires '\n' in p.buffered && p.received == READY_LINE + p.buffered
    requires OkSizeOf(TakeLine(p).0).Some?
    ensures Confirmed(p.received, OkSizeOf(TakeLine(p).0).value)
  {
    LineTaken(p);
    hide OkSizeOf, Find, TakeLine;
    assert p.received[|READY_LINE|..] == p.buffered;
  }

  lemma ResultKeeps(p: Peer)
    requires p in GoodPeers() && p.phase.AwaitingResult? && '\n' in p.buffered
    requires OkSizeOf(TakeLine(p).0) == Some(|p.job.local|)
    ensures TakeLine(p).1.(phase := Done(true)) in GoodPeers()
  {
    hide TextOf, AskedBy, OkSizeOf, IsErrorLine, Find, Confirmed, Split;
    Confirms(p);
    assert p.job.local[..|p.job.local|] == p.job.local;
  }

  lemma LineKeeps(p: Peer, l: LocalOutcomes)
    requires p in GoodPeers() && CanWork(p) && AwaitsLine(p) && RightPhase(p)
    ensures WorkOnLine(p, l) in GoodPeers()
  {
    hide GoodPeers, TakeLine, OkSizeOf, IsErrorLine, CanWork, WorkOnLine;
    WorkedFrom(p, l);
    if WorkOnLine(p, l).phase == Done(false) {
      FailKeeps(p, WorkOnLine(p, l));
    } else {
      LineOutcome(p, l);
      if p.phase.AwaitingHeader? {
        HeaderKeeps(p);
      } else if p.phase.AwaitingReady? {
        ReadyKeeps(p);
      } else {
        ResultKeeps(p);
      }
    }
  }

  lemma SendKeeps(p: Peer, s: SendOutcome)
    requires p in GoodPeers() && IsSending(p) && RightPhase(p)
    ensures AfterSend(p, s) in GoodPeers()
  {
    hide GoodPeers, Advance, TextOf;
    if s.Sent? && s.count > 0 {
      if |Outgoing(p)| > 0 {
        if p.phase.SendingRequest? {
          AdvanceRequestKeeps(p, Min(s.count, |Outgoing(p)|));
        } else {
          AdvanceChunkKeeps(p, Min(s.count, |Outgoing(p)|));
        }
      } else {
        SomethingOut(p);
      }
    } else if !s.SendInterrupted? {
      FailKeeps(p, Fail(p));
    }
  }

  lemma SomethingOut(p: Peer)
    requires p in GoodPeers() && IsSending(p)
    ensures Outgoing(p) != "" && RightPhase(p)
  {
    hide TextOf, AskedBy, Split, Confirmed;
  }

  lemma WorkKeeps(p: Peer, l: LocalOutcomes)
    requires p in GoodPeers() && CanWork(p) && RightPhase(p)
    ensures Work(p, l) in GoodPeers()
  {
    hide GoodPeers, CopySome, ReadSome, WorkOnLine;
    if p.phase.Copying? {
      CopyKeeps(p, l);
    } else if p.phase.Reading? {
      ReadKeeps(p, l);
    } else {
      LineKeeps(p, l);
    }
  }

  lemma PeerStepKeeps(p: Peer, e: PeerEvent)
    requires p in GoodPeers() && RightPhase(p)
    ensures PeerStep(p, e) in GoodPeers()
  {
    hide GoodPeers, AfterSend, Work, CanWork, NeedsInput;
    match e {
      case Sends(s) =>
        if IsSending(p) {
          SendKeeps(p, s);
        }
      case Receives(r) =>
        if NeedsInput(p) {
          if r.Data? {
            ReceiveKeeps(p, r.bytes);
          } else if !r.RecvInterrupted? {
            FailKeeps(p, Fail(p));
          }
        }
      case Works(l) =>
        if CanWork(p) {
          WorkKeeps(p, l);
        }
    }
  }

  /** In every run of the client program the invariant holds. */
  lemma {:induction false} EveryPeerRunIsGood(job: Job, remote: string, events: seq<PeerEvent>)
    ensures RunPeer(NewPeer(job, remote), events) in GoodPeers()
  {
    if events == [] {
      NewPeerGood(job, remote);
    } else {
      EveryPeerRunIsGood(job, remote, events[..|events| - 1]);
      PeerStepKeeps(RunPeer(NewPeer(job, remote), events[..|events| - 1]), events[|events| - 1]);
    }
  }
}
