/**
 The client program: its socket loops, its buffered reader, and the download and upload commands. The loops are
 proved against the byte stream, and the commands to follow the machine of Peer.dfy, call by call.
 */
module ClientProgram {
  import opened Text
  import opened Requests
  import opened Connection
  import opened Peer

  /** The bytes that a series of `recv` calls delivers before the stream ends or breaks. */
  function Flow(recvs: seq<RecvOutcome>): string {
    if recvs == [] then ""
    else
      match recvs[0]
      case Data(bytes) => bytes + Flow(recvs[1..])
      case RecvInterrupted => Flow(recvs[1..])
      case EndOfStream => ""
      case RecvWouldBlock => ""
      case RecvFailed => ""
  }

  /** What one `recv` leaves of the outcomes to come. */
  function LaterOutcomes(recvs: seq<RecvOutcome>): seq<RecvOutcome> {
    if recvs == [] then [] else recvs[1..]
  }

  function NextOutcome(recvs: seq<RecvOutcome>): RecvOutcome {
    if recvs == [] then RecvFailed else recvs[0]
  }

  /** The calls that remain once `n` bytes have been sent; none if one of them fails before that. */
  function SendsLeft(sends: seq<SendOutcome>, n: nat): Option<seq<SendOutcome>>
    decreases |sends|
  {
    if n == 0 then Some(sends)
    else if sends == [] then None
    else
      match sends[0]
      case Sent(count) => if count == 0 then None else SendsLeft(sends[1..], n - Min(count, n))
      case SendInterrupted => SendsLeft(sends[1..], n)
      case _ => None
  }

  // ---------------------------------------------------------------------------
  // When a line is found

  /** How much the reader can hold: it receives once more only as long as it holds no more than the limit of a line. */
  const READER_LIMIT: nat := MAX_RESPONSE_LINE + BUFFER_SIZE

  /** Whether a line comes to light before too much has been buffered, or the stream ends. */
  function LineFound(buffered: string, recvs: seq<RecvOutcome>): bool
    decreases |recvs|
  {
    if '\n' in buffered then true
    else if |buffered| > MAX_RESPONSE_LINE || recvs == [] then false
    else
      match recvs[0]
      case Data(bytes) => LineFound(buffered + bytes, recvs[1..])
      case RecvInterrupted => LineFound(buffered, recvs[1..])
      case _ => false
  }

  lemma {:induction false} ShortLineFound(buffered: string, recvs: seq<RecvOutcome>)
    requires var all := buffered + Flow(recvs); Find(all, '\n') < |all| && Find(all, '\n') <= MAX_RESPONSE_LINE
    ensures LineFound(buffered, recvs)
    decreases |recvs|
  {
    var all := buffered + Flow(recvs);
    FindAbsent(all, '\n');
    if '\n' !in buffered {
      NotYet(buffered, all);
      hide Find;
      assert Flow(recvs) != "";
      match recvs[0] {
        case Data(bytes) =>
          assert (buffered + bytes) + Flow(recvs[1..]) == all;
          ShortLineFound(buffered + bytes, recvs[1..]);
        case RecvInterrupted => ShortLineFound(buffered, recvs[1..]);
        case _ =>
      }
    }
  }

  lemma {:induction false} VeryLongLineNotFound(buffered: string, recvs: seq<RecvOutcome>)
    requires |buffered| <= READER_LIMIT <= Find(buffered + Flow(recvs), '\n')
    ensures !LineFound(buffered, recvs)
    decreases |recvs|
  {
    var all := buffered + Flow(recvs);
    BeforeNewline(buffered, all);
    hide Find;
    if |buffered| <= MAX_RESPONSE_LINE && recvs != [] {
      match recvs[0] {
        case Data(bytes) =>
          assert (buffered + bytes) + Flow(recvs[1..]) == all;
          VeryLongLineNotFound(buffered + bytes, recvs[1..]);
        case RecvInterrupted => VeryLongLineNotFound(buffered, recvs[1..]);
        case _ =>
      }
    }
  }

  lemma BeforeNewline(part: string, all: string)
    requires part <= all && |part| <= Find(all, '\n')
    ensures '\n' !in part
  {
    if '\n' in part {
      FindInPrefix(part, all, '\n');
    }
  }

  lemma FoundByPosition(buffered: string, recvs: seq<RecvOutcome>)
    ensures var all := buffered + Flow(recvs); Find(all, '\n') < |all| && Find(all, '\n') <= MAX_RESPONSE_LINE ==>
              LineFound(buffered, recvs)
    ensures |buffered| <= READER_LIMIT <= Find(buffered + Flow(recvs), '\n') ==> !LineFound(buffered, recvs)
  {
    var all := buffered + Flow(recvs);
    if Find(all, '\n') < |all| && Find(all, '\n') <= MAX_RESPONSE_LINE {
      ShortLineFound(buffered, recvs);
    } else if |buffered| <= READER_LIMIT <= Find(all, '\n') {
      VeryLongLineNotFound(buffered, recvs);
    }
    hide Find, Flow, LineFound;
  }

  lemma FoundNow(buffered: string, recvs: seq<RecvOutcome>)
    ensures '\n' in buffered ==> LineFound(buffered, recvs)
    ensures '\n' !in buffered && |buffered| > MAX_RESPONSE_LINE ==> !LineFound(buffered, recvs)
  {
  }

  /** Whether the line is found does not depend on what one `recv` delivers, whatever follows the line. */
  ghost predicate FoundAlike(line: string) {
    forall rest: string, a: seq<RecvOutcome>, b: seq<RecvOutcome>
      | Flow(a) == line + "\n" + rest && Flow(b) == line + "\n" + rest :: LineFound("", a) == LineFound("", b)
  }

  lemma AlwaysFound(line: string, rest: string, recvs: seq<RecvOutcome>)
    requires '\n' !in line && Flow(recvs) == line + "\n" + rest
    ensures |line| <= MAX_RESPONSE_LINE ==> LineFound("", recvs)
    ensures |line| >= READER_LIMIT ==> !LineFound("", recvs)
  {
    var all := line + "\n" + rest;
    assert all[..|line|] == line && "" + Flow(recvs) == all;
    FindIs(all, '\n', |line|);
    hide Find, LineFound, Flow;
    if |line| <= MAX_RESPONSE_LINE {
      ShortLineFound("", recvs);
    } else if |line| >= READER_LIMIT {
      VeryLongLineNotFound("", recvs);
    }
  }

  lemma FoundInTwo(line: string, cut: nat)
    requires '\n' !in line && 0 < cut <= |line| < cut + BUFFER_SIZE && cut <= BUFFER_SIZE
    ensures var recvs := [Data(line[..cut]), Data(line[cut..] + "\n")];
            Flow(recvs) == line + "\n" + "" && (LineFound("", recvs) <==> cut <= MAX_RESPONSE_LINE)
  {
    var head, tail := line[..cut], line[cut..] + "\n";
    var recvs := [Data(head), Data(tail)];
    assert recvs[1..] == [Data(tail)] && recvs[1..][1..] == [];
    assert Flow(recvs[1..]) == tail + "" == tail;
    assert Flow(recvs) == head + tail == line + "\n" + "";
    assert tail[|tail| - 1] == '\n' && '\n' in head + tail;
    assert "" + head == head && '\n' !in head;
    assert LineFound(head, recvs[1..]) == (|head| <= MAX_RESPONSE_LINE && LineFound(head + tail, []));
  }

  /**
   A line is found alike in all pieces if it fits the limit, or is longer than what the reader can hold, and only then.
   */
  lemma {:induction false} FoundAlikeIff(line: string)
    requires '\n' !in line
    ensures FoundAlike(line) <==> |line| <= MAX_RESPONSE_LINE || |line| >= READER_LIMIT
  {
    hide LineFound, Flow;
    if MAX_RESPONSE_LINE < |line| < READER_LIMIT {
      FoundInTwo(line, MAX_RESPONSE_LINE);
      FoundInTwo(line, MAX_RESPONSE_LINE + 1);
    } else {
      forall rest: string, a: seq<RecvOutcome>, b: seq<RecvOutcome>
        | Flow(a) == line + "\n" + rest && Flow(b) == line + "\n" + rest
        ensures LineFound("", a) == LineFound("", b)
      {
        AlwaysFound(line, rest, a);
        AlwaysFound(line, rest, b);
      }
    }
  }

  lemma NotYet(buffered: string, all: string)
    requires buffered <= all && '\n' !in buffered
    ensures |buffered| <= Find(all, '\n')
  {
    assert forall k | 0 <= k < |buffered| :: all[k] == buffered[k] != '\n';
  }

  /** The connected socket, with the outcomes of the calls to come; when they run out, calls fail. */
  class Socket {
    var sends: seq<SendOutcome>
    var recvs: seq<RecvOutcome>
    ghost const job: Job
    ghost const remote: string
    ghost var peer: Peer
    ghost var trace: seq<PeerEvent>

    constructor (sends: seq<SendOutcome>, recvs: seq<RecvOutcome>, ghost job: Job, ghost remote: string)
      ensures Valid() && peer == NewPeer(job, remote)
      ensures this.sends == sends && this.recvs == recvs && this.job == job && this.remote == remote
    {
      this.sends, this.recvs, this.job, this.remote := sends, recvs, job, remote;
      peer, trace := NewPeer(job, remote), [];
    }

    /** The machine has come here by the calls made so far. */
    ghost predicate Valid()
      reads this
    {
      RightPhase(peer) && peer == RunPeer(NewPeer(job, remote), trace)
    }

    ghost method Note(e: PeerEvent)
      requires Valid()
      modifies this`peer, this`trace
      ensures Valid() && peer == PeerStep(old(peer), e)
    {
      assert (trace + [e])[..|trace + [e]| - 1] == trace;
      hide PeerStep;
      peer, trace := PeerStep(peer, e), trace + [e];
    }

    /** `::send` of `data`; the result is the number of bytes taken, or why there are none. */
    method Send(data: string) returns (r: SendOutcome)
      requires Valid() && IsSending(peer) && data == Outgoing(peer)
      modifies this
      ensures Valid() && peer == PeerStep(old(peer), Sends(r)) && recvs == old(recvs)
      ensures if old(sends) == [] then r.SendFailed? && sends == [] else r == old(sends)[0] && sends == old(sends)[1..]
    {
      r := SendFailed;
      if sends != [] {
        r, sends := sends[0], sends[1..];
      }
      Note(Sends(r));
    }

    /** `::recv` */
    method Receive() returns (r: RecvOutcome)
      requires Valid() && NeedsInput(peer)
      modifies this
      ensures Valid() && peer == PeerStep(old(peer), Receives(r)) && sends == old(sends)
      ensures r == NextOutcome(old(recvs)) && recvs == LaterOutcomes(old(recvs))
      ensures r.RecvFailed? || |recvs| < |old(recvs)|
      ensures Flow(old(recvs)) == match r
                                  case Data(bytes) => bytes + Flow(recvs)
                                  case RecvInterrupted => Flow(recvs)
                                  case EndOfStream => ""
                                  case RecvWouldBlock => ""
                                  case RecvFailed => ""
    {
      r := RecvFailed;
      if recvs != [] {
        r, recvs := recvs[0], recvs[1..];
      }
      Note(Receives(r));
    }
  }

  // ---------------------------------------------------------------------------
  // Sending

  /** Sending in pieces comes to the same as sending at once. */
  lemma {:induction false} AdvanceTwice(p: Peer, a: nat, b: nat)
    requires IsSending(p) && RightPhase(p) && 0 < a < |Outgoing(p)| && a + b <= |Outgoing(p)|
    ensures var q := Advance(p, a);
            && IsSending(q) && RightPhase(q) && Outgoing(q) == Outgoing(p)[a..]
            && Advance(q, b) == Advance(p, a + b)
  {
    OutgoingAfter(p, a);
    var out := Outgoing(p);
    TakenTwice(p.sent, out, a, b);
    hide TextOf, AskedBy, Outgoing, Advance;
    if a + b < |out| {
      AdvancesPart(p, a);
      AdvancesPart(p, a + b);
      AdvancesPart(Advance(p, a), b);
    } else {
      AdvancesPart(p, a);
      AdvancesAll(p, Advance(p, a), a, b);
    }
  }

  lemma TakenTwice(before: string, out: string, a: nat, b: nat)
    requires a + b <= |out|
    ensures (before + out[..a]) + out[a..][..b] == before + out[..a + b]
  {
    assert out[..a] + out[a..][..b] == out[..a + b];
  }

  /** The same phase, further on. */
  function Further(phase: Phase, n: nat): Phase {
    match phase
    case SendingRequest(offset) => SendingRequest(offset + n)
    case SendingChunk(chunk, offset, next) => SendingChunk(chunk, offset + n, next)
    case _ => phase
  }

  lemma AdvancesPart(p: Peer, n: nat)
    requires IsSending(p) && RightPhase(p) && n < |Outgoing(p)|
    ensures Advance(p, n) == p.(sent := p.sent + Outgoing(p)[..n], phase := Further(p.phase, n))
  {
    hide TextOf, AskedBy, LoopEnd;
  }

  lemma AdvancesAll(p: Peer, q: Peer, a: nat, b: nat)
    requires IsSending(p) && RightPhase(p) && a + b == |Outgoing(p)| && a > 0
    requires q == p.(sent := q.sent, phase := Further(p.phase, a)) && b == |Outgoing(q)|
    requires q.sent + Outgoing(q)[..b] == p.sent + Outgoing(p)[..a + b]
    ensures IsSending(q) && RightPhase(q) && Advance(q, b) == Advance(p, a + b)
  {
    hide TextOf, AskedBy;
  }

  lemma OutgoingAfter(p: Peer, n: nat)
    requires IsSending(p) && RightPhase(p) && n < |Outgoing(p)|
    ensures var q := Advance(p, n); IsSending(q) && RightPhase(q) && Outgoing(q) == Outgoing(p)[n..]
  {
    hide TextOf, AskedBy, LoopEnd;
  }

  /** One more piece after the first `offset` bytes. */
  lemma PieceSent(p: Peer, offset: nat, n: nat)
    requires IsSending(p) && RightPhase(p) && 0 < n && offset + n <= |Outgoing(p)|
    ensures var q := if offset == 0 then p else Advance(p, offset);
            IsSending(q) && RightPhase(q) && n <= |Outgoing(q)| && Advance(q, n) == Advance(p, offset + n)
    ensures offset + n < |Outgoing(p)| ==>
              IsSending(Advance(p, offset + n)) && Outgoing(Advance(p, offset + n)) == Outgoing(p)[offset + n..]
  {
    hide TextOf, AskedBy, Advance;
    if 0 < offset {
      AdvanceTwice(p, offset, n);
    }
    if offset + n < |Outgoing(p)| {
      AdvanceTwice(p, offset + n, 0);
    }
  }

  lemma AllSent(p: Peer)
    requires IsSending(p) && RightPhase(p)
    ensures Advance(p, |Outgoing(p)|).sent == p.sent + Outgoing(p)
  {
    hide TextOf, AskedBy, Outgoing;
    assert Outgoing(p)[..|Outgoing(p)|] == Outgoing(p);
  }

  /** `send_all`: everything is sent, or the program gives up; it does so exactly when a call fails before that. */
  method SendAll(socket: Socket, data: string) returns (ok: bool)
    requires socket.Valid() && IsSending(socket.peer) && data == Outgoing(socket.peer) && data != ""
    modifies socket
    ensures socket.Valid() && socket.recvs == old(socket.recvs)
    ensures if ok then socket.peer == Advance(old(socket.peer), |data|)
             && socket.peer.sent == old(socket.peer.sent) + data
            else socket.peer.phase == Done(false)
    ensures SendsLeft(old(socket.sends), |data|) == if ok then Some(socket.sends) else None
  {
    hide TextOf, AskedBy, RunPeer, Advance;
    var offset: nat := 0;
    while offset < |data|
      invariant offset <= |data| && socket.Valid() && socket.recvs == old(socket.recvs)
      invariant socket.peer == if offset == 0 then old(socket.peer) else Advance(old(socket.peer), offset)
      invariant offset < |data| ==> IsSending(socket.peer) && Outgoing(socket.peer) == data[offset..]
      invariant SendsLeft(socket.sends, |data| - offset) == SendsLeft(old(socket.sends), |data|)
      decreases |socket.sends|
    {
      var sent := socket.Send(data[offset..]);
      match sent {
        case Sent(count) =>
          if count == 0 {
            return false;
          }
          var taken := Min(count, |data| - offset);
          PieceSent(old(socket.peer), offset, taken);
          offset := offset + taken;
        case SendInterrupted =>
        case SendWouldBlock =>
          return false;
        case SendFailed =>
          return false;
      }
    }
    assert data[..|data|] == data;
    AllSent(old(socket.peer));
    return true;
  }

  // ---------------------------------------------------------------------------
  // Receiving

  /** The local file of a download while it is written, and the place where it ends up. */
  class Destination {
    const canInspect: bool
    const parentExists: bool
    const canOpen: bool
    const canClose: bool
    const canRename: bool
    var final: Option<string>
    var temporary: Option<string>
    var room: nat

    constructor (canInspect: bool, parentExists: bool, canOpen: bool, canClose: bool, canRename: bool,
                 final: Option<string>, temporary: Option<string>, room: nat)
      ensures this.final == final && this.temporary == temporary && this.room == room
      ensures this.canInspect == canInspect && this.parentExists == parentExists && this.canOpen == canOpen
      ensures this.canClose == canClose && this.canRename == canRename
    {
      this.canInspect, this.parentExists, this.canOpen := canInspect, parentExists, canOpen;
      this.canClose, this.canRename := canClose, canRename;
      this.final, this.temporary, this.room := final, temporary, room;
    }

    /**
     The checks before a download, and the opening of the temporary file, which is never one that was there before.
     */
    method Create() returns (created: bool)
      modifies this`temporary
      ensures created == (canInspect && final.None? && parentExists && old(temporary).None? && canOpen)
      ensures temporary == if created then Some("") else old(temporary)
    {
      created := canInspect && final.None? && parentExists && temporary.None? && canOpen;
      if created {
        temporary := Some("");
      }
    }

    /** A write succeeds as long as there is room. */
    method Write(bytes: string) returns (ok: bool)
      requires temporary.Some?
      modifies this`temporary, this`room
      ensures ok == (|bytes| <= old(room)) && temporary.Some?
      ensures ok ==> temporary.value == old(temporary.value) + bytes && room == old(room) - |bytes|
      ensures !ok ==> temporary == old(temporary) && room == old(room)
    {
      ok := |bytes| <= room;
      if ok {
        temporary, room := Some(temporary.value + bytes), room - |bytes|;
      }
    }

    method Discard()
      modifies this`temporary
      ensures temporary == None
    {
      temporary := None;
    }

    /** The rename to the final name. */
    method Finish() returns (ok: bool)
      requires temporary.Some? && final.None?
      modifies this`temporary, this`final
      ensures ok == canRename && temporary == None
      ensures final == if ok then old(temporary) else None
    {
      ok := canRename;
      if ok {
        final := temporary;
      }
      temporary := None;
    }
  }

  class BufferedSocketReader {
    const socket: Socket
    var buffered: string

    constructor (socket: Socket)
      ensures this.socket == socket && buffered == ""
    {
      this.socket := socket;
      buffered := "";
    }

    /** All that is still to come: what is buffered and what the socket will deliver. */
    ghost function Coming(): string
      reads this, socket
    {
      buffered + Flow(socket.recvs)
    }

    /** One `recv` into the buffer; `more` is false when the stream has ended or is broken. */
    method Fill() returns (more: bool)
      requires socket.Valid() && NeedsInput(socket.peer) && buffered == socket.peer.buffered
      modifies this, socket
      ensures socket.Valid() && (more ==> |socket.recvs| < |old(socket.recvs)|)
      ensures if more
              then Coming() == old(Coming()) && old(buffered) <= buffered
                   && socket.peer == old(socket.peer).(buffered := buffered, received := socket.peer.received)
              else old(Coming()) == buffered == old(buffered) && socket.peer.phase == Done(false)
      ensures |buffered| <= |old(buffered)| + BUFFER_SIZE && socket.sends == old(socket.sends)
      ensures '\n' !in old(buffered) && |old(buffered)| <= MAX_RESPONSE_LINE ==>
                LineFound(old(buffered), old(socket.recvs)) == (more && LineFound(buffered, socket.recvs))
    {
      hide RunPeer;
      var r := socket.Receive();
      match r {
        case Data(bytes) =>
          buffered := buffered + bytes;
          more := true;
        case RecvInterrupted =>
          more := true;
        case EndOfStream =>
          more := false;
        case RecvWouldBlock =>
          more := false;
        case RecvFailed =>
          more := false;
      }
    }

    /**
     `read_line`: the first line of what is to come. It is found whenever its newline is among the first 4097 bytes,
     however the stream is split, and never when there is none among the first 69632.
     */
    method ReadLine() returns (ok: bool, line: string)
      requires socket.Valid() && AwaitsLine(socket.peer) && buffered == socket.peer.buffered
      modifies this, socket
      ensures socket.Valid() && socket.sends == old(socket.sends)
      ensures ok ==> old(Coming()) == line + "\n" + Coming() && '\n' !in line
      ensures ok ==> CanWork(socket.peer) && '\n' in socket.peer.buffered
                     && TakeLine(socket.peer) == (line, socket.peer.(buffered := buffered))
                     && socket.peer == old(socket.peer).(
                          buffered := socket.peer.buffered, received := socket.peer.received)
      ensures !ok ==> socket.peer.phase == Done(false)
      ensures Find(old(Coming()), '\n') < |old(Coming())| && Find(old(Coming()), '\n') <= MAX_RESPONSE_LINE ==> ok
      ensures |old(buffered)| <= READER_LIMIT <= Find(old(Coming()), '\n') ==> !ok
      ensures ok == LineFound(old(buffered), old(socket.recvs))
      ensures |old(buffered)| <= READER_LIMIT ==> |buffered| <= READER_LIMIT
    {
      hide RunPeer;
      hide Flow, Find, LineFound;
      FoundByPosition(buffered, socket.recvs);
      line := "";
      while true
        invariant socket.Valid() && AwaitsLine(socket.peer) && buffered == socket.peer.buffered
        invariant Coming() == old(Coming()) && socket.sends == old(socket.sends)
        invariant LineFound(buffered, socket.recvs) == LineFound(old(buffered), old(socket.recvs))
        invariant |old(buffered)| <= READER_LIMIT ==> |buffered| <= READER_LIMIT
        invariant socket.peer == old(socket.peer).(buffered := buffered, received := socket.peer.received)
        decreases |socket.recvs|
      {
        var newline := Find(buffered, '\n');
        FindAbsent(buffered, '\n');
        FoundNow(buffered, socket.recvs);
        if newline != |buffered| {
          line := buffered[..newline];
          buffered := buffered[newline + 1..];
          return true, line;
        }
        if |buffered| > MAX_RESPONSE_LINE {
          socket.Note(Works(LocalOutcomes(true, true, true, true, 0)));
          return false, line;
        }
        var more := Fill();
        if !more {
          return false, line;
        }
      }
    }

    /** Moves what is buffered, up to `remaining` bytes, to the file. */
    method WriteSome(destination: Destination, remaining: nat) returns (ok: bool, count: nat)
      requires socket.Valid() && socket.peer.phase == Copying(remaining) && buffered == socket.peer.buffered
      requires remaining > 0 && buffered != "" && destination.temporary == Some(socket.peer.file)
      modifies this`buffered, socket`peer, socket`trace, destination`temporary, destination`room
      ensures socket.Valid() && destination.temporary.Some? && ok == (count <= old(destination.room))
      ensures 0 < count <= remaining && count <= |old(Coming())|
      ensures ok ==> && socket.peer.phase == Copying(remaining - count) && buffered == socket.peer.buffered
                     && destination.temporary == Some(socket.peer.file)
                       && destination.room == old(destination.room) - count
                     && socket.peer.file == old(socket.peer.file) + old(Coming())[..count]
                     && Coming() == old(Coming())[count..]
      ensures !ok ==> socket.peer.phase == Done(false)
    {
      hide RunPeer, Flow;
      count := Min(remaining, |buffered|);
      assert Coming()[..count] == buffered[..count];
      ok := destination.Write(buffered[..count]);
      socket.Note(Works(LocalOutcomes(true, ok, true, true, 0)));
      if ok {
        buffered := buffered[count..];
      }
    }

    /**
     `copy_exactly`: the next `bytes` bytes of what is to come go to the file, no more and no fewer; it succeeds
     exactly when there are so many and the file has room for them.
     */
    method CopyExactly(destination: Destination, bytes: nat) returns (ok: bool)
      requires socket.Valid() && socket.peer.phase == Copying(bytes) && buffered == socket.peer.buffered
      requires destination.temporary == Some(socket.peer.file)
      modifies this, socket, destination`temporary, destination`room
      ensures socket.Valid() && destination.temporary.Some?
      ensures ok <==> |old(Coming())| >= bytes && old(destination.room) >= bytes
      ensures ok ==> && destination.temporary.value == old(destination.temporary.value) + old(Coming())[..bytes]
                     && Coming() == old(Coming())[bytes..]
                     && socket.peer.phase == Copying(0) && destination.temporary.value == socket.peer.file
      ensures !ok ==> socket.peer.phase == Done(false)
    {
      hide RunPeer, Flow, PeerStep, LineFound, Copied;
      ghost var all, file := Coming(), socket.peer.file;
      ghost var room := destination.room;
      var remaining: nat := bytes;
      CopiedNone(file, all);
      while remaining > 0
        invariant remaining <= bytes && socket.Valid() && socket.peer.phase == Copying(remaining)
                  && buffered == socket.peer.buffered
        invariant destination.temporary == Some(socket.peer.file)
        invariant Copied(file, all, bytes - remaining, socket.peer.file, Coming())
        invariant destination.room == room - (bytes - remaining)
        decreases remaining, |socket.recvs|
      {
        CopiedParts(file, all, bytes - remaining, socket.peer.file, Coming());
        if buffered == "" {
          var more := Fill();
          if !more {
            return false;
          }
          if buffered == "" {
            continue;
          }
        }
        ghost var before, coming := socket.peer.file, Coming();
        var written, count := WriteSome(destination, remaining);
        if !written {
          return false;
        }
        CopiedMore(file, all, bytes - remaining, before, coming, count);
        remaining := remaining - count;
      }
      CopiedParts(file, all, bytes, socket.peer.file, Coming());
      return true;
    }
  }

  /** Of `all` the first `done` bytes have been appended to the file, and the others are to come. */
  predicate Copied(before: string, all: string, done: nat, file: string, coming: string) {
    done <= |all| && coming == all[done..] && file == before + all[..done]
  }

  lemma CopiedNone(before: string, all: string)
    ensures Copied(before, all, 0, before, all)
  {
  }

  lemma CopiedParts(before: string, all: string, done: nat, file: string, coming: string)
    requires Copied(before, all, done, file, coming)
    ensures done + |coming| == |all| && coming == all[done..] && file == before + all[..done]
  {
  }

  lemma CopiedMore(before: string, all: string, done: nat, file: string, coming: string, count: nat)
    requires Copied(before, all, done, file, coming) && count <= |coming|
    ensures Copied(before, all, done + count, file + coming[..count], coming[count..])
  {
    assert all[..done] + coming[..count] == all[..done + count];
    assert before + all[..done] + coming[..count] == before + (all[..done] + coming[..count]);
  }

  // ---------------------------------------------------------------------------
  // The commands

  /** `response_is_error` */
  method ResponseIsError(response: string) returns (isError: bool)
    ensures isError == IsErrorLine(response)
  {
    isError := |response| >= 4 && response[..4] == "ERR ";
  }

  method ParseOkSize(response: string) returns (ok: bool, size: nat)
    ensures ok == OkSizeOf(response).Some? && (ok ==> OkSizeOf(response) == Some(size))
  {
    if |response| < 3 || response[..3] != "OK " {
      return false, 0;
    }
    ok, size := ParseUint64(response[3..]);
  }

  /** What a download makes of the whole stream: the bytes after the first line, as many as that line announces. */
  ghost predicate IsPayload(whole: string, contents: string) {
    var newline := Find(whole, '\n');
    && newline < |whole| && !IsErrorLine(whole[..newline])
    && OkSizeOf(whole[..newline]) == Some(|contents|)
    && contents <= whole[newline + 1..]
  }

  lemma PayloadAfterLine(whole: string, line: string, rest: string, size: nat)
    requires whole == line + "\n" + rest && '\n' !in line && !IsErrorLine(line) && OkSizeOf(line) == Some(size)
             && size <= |rest|
    ensures IsPayload(whole, rest[..size])
  {
    assert whole[..|line|] == line && whole[|line|] == '\n';
    FindIs(whole, '\n', |line|);
  }

  /** The size that the first line of a stream announces, unless it is an error line or none. */
  function Announced(whole: string): Option<nat> {
    var newline := Find(whole, '\n');
    if newline < |whole| && !IsErrorLine(whole[..newline]) then OkSizeOf(whole[..newline]) else None
  }

  lemma AnnouncedIn(whole: string, line: string, rest: string)
    requires whole == line + "\n" + rest && '\n' !in line
    ensures Announced(whole) == if IsErrorLine(line) then None else OkSizeOf(line)
    ensures Find(whole, '\n') == |line| && |whole| - |line| - 1 == |rest|
  {
    assert whole[..|line|] == line && whole[|line|] == '\n';
    FindIs(whole, '\n', |line|);
  }

  /** The header of a download: the announced size, once the server has one and the local file can be created. */
  method GetHeader(reader: BufferedSocketReader, destination: Destination) returns (ok: bool, size: nat)
    requires reader.socket.Valid() && reader.socket.peer.phase.AwaitingHeader? && reader.socket.peer.file == ""
    requires reader.buffered == reader.socket.peer.buffered
    modifies reader, reader.socket, destination`temporary
    ensures reader.socket.Valid()
    ensures destination.temporary == if ok then Some("") else old(destination.temporary)
    ensures ok ==> && reader.socket.peer.phase == Copying(size) && reader.socket.peer.file == ""
                   && reader.buffered == reader.socket.peer.buffered
                   && destination.final.None? && old(destination.temporary).None?
    ensures ok ==> exists line :: old(reader.Coming()) == line + "\n" + reader.Coming() && '\n' !in line
                                  && !IsErrorLine(line) && OkSizeOf(line) == Some(size)
    ensures !ok ==> reader.socket.peer.phase == Done(false)
    ensures ok <==> && LineFound(old(reader.buffered), old(reader.socket.recvs))
                    && Announced(old(reader.Coming())).Some?
                    && destination.canInspect && destination.parentExists && destination.canOpen
                    && destination.final.None? && old(destination.temporary).None?
    ensures ok ==> Announced(old(reader.Coming())) == Some(size)
  {
    hide RunPeer, TakeLine, OkSizeOf, IsErrorLine, Find, Flow, CanWork, NeedsInput, LineFound, Announced;
    var line;
    ok, line := reader.ReadLine();
    size := 0;
    if !ok {
      return;
    }
    AnnouncedIn(old(reader.Coming()), line, reader.Coming());
    var created := false;
    var refused := ResponseIsError(line);
    if !refused {
      ok, size := ParseOkSize(line);
      if ok {
        created := destination.Create();
      }
    }
    reader.socket.Note(Works(LocalOutcomes(created, true, true, true, 0)));
    ok := created;
  }

  /** The file of a download, after its header: copied, closed and renamed, or removed again. */
  method Fetch(reader: BufferedSocketReader, destination: Destination, size: nat) returns (ok: bool)
    requires reader.socket.Valid() && reader.socket.peer.phase == Copying(size) && reader.socket.peer.file == ""
    requires reader.buffered == reader.socket.peer.buffered
    requires destination.temporary == Some("") && destination.final.None?
    modifies reader, reader.socket, destination
    ensures reader.socket.Valid() && reader.socket.peer.phase == Done(ok) && destination.temporary == None
    ensures ok ==> size <= |old(reader.Coming())| && destination.final == Some(reader.socket.peer.file)
                   && reader.socket.peer.file == old(reader.Coming())[..size]
    ensures !ok ==> destination.final == None
    ensures ok <==> && |old(reader.Coming())| >= size && old(destination.room) >= size
                    && destination.canClose && destination.canRename
  {
    hide RunPeer, Flow;
    var copied := reader.CopyExactly(destination, size);
    if !copied {
      destination.Discard();
      return false;
    }
    if !destination.canClose {
      destination.Discard();
      reader.socket.Note(Works(LocalOutcomes(true, true, false, true, 0)));
      return false;
    }
    ok := destination.Finish();
    reader.socket.Note(Works(LocalOutcomes(true, true, ok, true, 0)));
  }

  lemma RequestSent(p: Peer)
    requires p.phase == SendingRequest(0)
    ensures Outgoing(p) == RequestText(p)
    ensures Advance(p, |RequestText(p)|) ==
            p.(sent := p.sent + RequestText(p), phase := if p.job.Download? then AwaitingHeader else AwaitingReady)
  {
    hide TextOf, AskedBy;
    assert RequestText(p)[0..] == RequestText(p) && RequestText(p)[..|RequestText(p)|] == RequestText(p);
  }

  /** The stream announces a size, and so many bytes follow, for which there is room. */
  ghost predicate Deliverable(whole: string, room: nat) {
    && Announced(whole).Some?
    && Announced(whole).value <= |whole| - Find(whole, '\n') - 1 && Announced(whole).value <= room
  }

  /** The local file can be created, written, closed and renamed, and nothing is in its way. */
  ghost predicate CanStore(destination: Destination)
    reads destination
  {
    && destination.canInspect && destination.parentExists && destination.canOpen
    && destination.final.None? && destination.temporary.None?
    && destination.canClose && destination.canRename
  }

  /** All that follows the request of a download. */
  method ReceiveFile(reader: BufferedSocketReader, destination: Destination) returns (ok: bool)
    requires reader.socket.Valid() && reader.socket.peer.phase.AwaitingHeader? && reader.socket.peer.file == ""
    requires reader.buffered == reader.socket.peer.buffered
    modifies reader, reader.socket, destination
    ensures reader.socket.Valid() && reader.socket.peer.phase == Done(ok)
    ensures destination.temporary == old(destination.temporary)
    ensures ok ==> && destination.final == Some(reader.socket.peer.file)
                   && IsPayload(old(reader.Coming()), reader.socket.peer.file)
    ensures !ok ==> destination.final == old(destination.final)
    ensures ok <==> && LineFound(old(reader.buffered), old(reader.socket.recvs))
                    && Deliverable(old(reader.Coming()), old(destination.room)) && old(CanStore(destination))
  {
    hide RunPeer, IsPayload, Flow, Find, OkSizeOf, IsErrorLine, LineFound, Announced;
    ghost var whole := reader.Coming();
    var size;
    ok, size := GetHeader(reader, destination);
    if !ok {
      return;
    }
    ghost var rest := reader.Coming();
    ghost var line :| whole == line + "\n" + rest && '\n' !in line && !IsErrorLine(line)
      && OkSizeOf(line) == Some(size);
    AnnouncedIn(whole, line, rest);
    ok := Fetch(reader, destination, size);
    if ok {
      PayloadAfterLine(whole, line, rest, size);
    }
  }

  /**
   `run_get`: follows the machine to its end. On success the local file is the payload of the stream; otherwise the
   destination is as it was, and in no case does a temporary file stay behind or one that was there before change.
   It succeeds exactly when the request can be sent, the header is found, everything announced follows, and the local
   file can be written.
   */
  method RunGet(socket: Socket, remote: string, destination: Destination) returns (ok: bool)
    requires socket.Valid() && socket.peer == NewPeer(Download, remote)
    modifies socket, destination
    ensures socket.Valid() && socket.peer.phase == Done(ok)
    ensures destination.temporary == old(destination.temporary)
    ensures ok ==> destination.final == Some(socket.peer.file) && IsPayload(old(Flow(socket.recvs)), socket.peer.file)
    ensures !ok ==> destination.final == old(destination.final)
    ensures ok <==> && SendsLeft(old(socket.sends), |"GET " + remote + "\n"|).Some?
                    && LineFound("", old(socket.recvs)) && Deliverable(old(Flow(socket.recvs)), old(destination.room))
                    && old(CanStore(destination))
  {
    hide RunPeer, IsPayload, Flow, Advance, SendsLeft, LineFound, Deliverable, CanStore;
    var request := "GET " + remote + "\n";
    assert request == TextOf(AskedBy(Download, remote));
    RequestSent(socket.peer);
    ok := SendAll(socket, request);
    if !ok {
      return;
    }
    var reader := new BufferedSocketReader(socket);
    assert reader.Coming() == old(Flow(socket.recvs));
    ok := ReceiveFile(reader, destination);
  }

  // ---------------------------------------------------------------------------

  /** How a read of the source file goes: how much it delivers at most, and whether it breaks the stream. */
  datatype ReadOutcome = ReadOutcome(count: nat, bad: bool)

  /** The local file of an upload. It does not change while it is read. */
  class Source {
    const isRegular: bool
    const canSize: bool
    const canOpen: bool
    const contents: string
    var position: nat
    var outcomes: seq<ReadOutcome>

    constructor (isRegular: bool, canSize: bool, canOpen: bool, contents: string, outcomes: seq<ReadOutcome>)
      ensures position == 0 && this.contents == contents && this.outcomes == outcomes
      ensures this.isRegular == isRegular && this.canSize == canSize && this.canOpen == canOpen
    {
      this.isRegular, this.canSize, this.canOpen, this.contents := isRegular, canSize, canOpen, contents;
      position, this.outcomes := 0, outcomes;
    }

    /** One read into the buffer; the stream stays good only if the buffer was filled. */
    method Read() returns (chunk: string, good: bool, outcome: ReadOutcome)
      requires position <= |contents|
      modifies this`position, this`outcomes
      ensures chunk == contents[old(position)..][..Min(Min(outcome.count, BUFFER_SIZE), |contents| - old(position))]
      ensures position == old(position) + |chunk| <= |contents| && good == (|chunk| == BUFFER_SIZE)
      ensures outcome == NextRead(old(outcomes)) && outcomes == LaterReads(old(outcomes))
    {
      outcome := ReadOutcome(BUFFER_SIZE, false);
      if outcomes != [] {
        outcome, outcomes := outcomes[0], outcomes[1..];
      }
      chunk := contents[position..][..Min(Min(outcome.count, BUFFER_SIZE), |contents| - position)];
      position := position + |chunk|;
      good := |chunk| == BUFFER_SIZE;
    }
  }

  /** How the next read of the source file goes; without an outcome it delivers all it can. */
  function NextRead(outcomes: seq<ReadOutcome>): ReadOutcome {
    if outcomes == [] then ReadOutcome(BUFFER_SIZE, false) else outcomes[0]
  }

  function LaterReads(outcomes: seq<ReadOutcome>): seq<ReadOutcome> {
    if outcomes == [] then [] else outcomes[1..]
  }

  /**
   The calls that remain once the last `n` bytes of a file have been sent, read by read; none if a send fails, or if a
   read comes short of the end or breaks the stream.
   */
  function FileSent(sends: seq<SendOutcome>, outcomes: seq<ReadOutcome>, n: nat): Option<seq<SendOutcome>>
    decreases n
  {
    var count := Min(Min(NextRead(outcomes).count, BUFFER_SIZE), n);
    match SendsLeft(sends, count)
    case None => None
    case Some(left) =>
      if count == BUFFER_SIZE then FileSent(left, LaterReads(outcomes), n - count)
      else if count == n && !NextRead(outcomes).bad then Some(left) else None
  }

  /** The machine after a read of the source file, and after the chunk that was read has been sent. */
  lemma ReadThenSent(p: Peer, l: LocalOutcomes, chunk: string)
    requires p.phase.Reading? && p.job.Upload? && p.sentBytes <= |p.job.local|
    requires chunk == p.job.local[p.sentBytes..][..Min(Min(l.count, BUFFER_SIZE), |p.job.local| - p.sentBytes)]
    ensures RightPhase(p) && CanWork(p)
    ensures var q := PeerStep(p, Works(l)); var sent := p.sentBytes + |chunk|;
            if chunk == "" then q == LoopEnd(p, l.intact)
            else
              && IsSending(q) && Outgoing(q) == chunk && RightPhase(q)
              && Advance(q, |chunk|) ==
                 var q' := p.(sent := p.sent + chunk, sentBytes := sent);
                 if |chunk| == BUFFER_SIZE then q' else LoopEnd(q', l.intact)
  {
    hide TextOf, AskedBy;
    assert chunk[0..] == chunk && chunk[..|chunk|] == chunk;
  }

  /** The first `n` bytes of the file have gone out since `p`, and nothing has come in. */
  predicate FarAs(p: Peer, q: Peer, contents: string, n: nat) {
    n <= |contents| && q == p.(phase := q.phase, sentBytes := n, sent := p.sent + contents[..n])
  }

  lemma FartherBy(p: Peer, q: Peer, contents: string, n: nat, chunk: string)
    requires FarAs(p, q, contents, n) && chunk <= contents[n..]
    ensures FarAs(p, q.(sent := q.sent + chunk, sentBytes := n + |chunk|), contents, n + |chunk|)
  {
    assert contents[..n + |chunk|] == contents[..n] + chunk;
  }

  /** The reading loop of an upload: all of the file is sent, or the program gives up, exactly as `FileSent` says. */
  method SendFile(socket: Socket, source: Source) returns (ok: bool)
    requires socket.Valid() && socket.peer.phase.Reading? && socket.peer.job == Upload(source.contents)
    requires source.position == socket.peer.sentBytes == 0
    modifies socket, source
    ensures socket.Valid() && socket.recvs == old(socket.recvs) && socket.peer.job == old(socket.peer.job)
    ensures socket.peer.phase == if ok then AwaitingResult else Done(false)
    ensures ok ==> socket.peer.buffered == old(socket.peer.buffered)
                   && socket.peer.sent == old(socket.peer.sent) + source.contents
    ensures FileSent(old(socket.sends), old(source.outcomes), |source.contents|)
            == if ok then Some(socket.sends) else None
  {
    hide RunPeer, TextOf, AskedBy, PeerStep, Advance, Outgoing, RightPhase;
    var sentBytes: nat := 0;
    var good, bad := true, false;
    while good
      invariant socket.Valid() && socket.recvs == old(socket.recvs) && socket.peer.job == Upload(source.contents)
      invariant sentBytes == source.position <= |source.contents| && (good ==> !bad)
      invariant socket.peer.phase == if good then Reading else if !bad
                && sentBytes == |source.contents| then AwaitingResult else Done(false)
      invariant FarAs(old(socket.peer), socket.peer, source.contents, sentBytes)
      invariant FileSent(old(socket.sends), old(source.outcomes), |source.contents|)
             == if good then FileSent(socket.sends, source.outcomes, |source.contents| - sentBytes)
                else if !bad && sentBytes == |source.contents| then Some(socket.sends) else None
      decreases |source.contents| - source.position, good
    {
      ghost var before := socket.peer;
      var chunk, full, outcome := source.Read();
      ghost var l := LocalOutcomes(true, true, true, !outcome.bad, outcome.count);
      ReadThenSent(before, l, chunk);
      FartherBy(old(socket.peer), before, source.contents, sentBytes, chunk);
      socket.Note(Works(l));
      good, bad := full, outcome.bad && !full;
      if chunk == "" {
        break;
      }
      var sent := SendAll(socket, chunk);
      if !sent {
        return false;
      }
      sentBytes := sentBytes + |chunk|;
    }
    assert source.contents[..|source.contents|] == source.contents;
    ok := !bad && sentBytes == |source.contents|;
  }

  lemma ReadyFirst(whole: string)
    ensures READY_LINE <= whole ==> Find(whole, '\n') == 5 < |whole|
  {
    if READY_LINE <= whole {
      assert whole[..6] == READY_LINE && whole[5] == READY_LINE[5] == '\n';
      assert whole[..5] == "READY" && '\n' !in "READY";
      FindIs(whole, '\n', 5);
    }
  }

  lemma ReadyAlone(whole: string, line: string, rest: string)
    requires whole == line + "\n" + rest && '\n' !in line
    ensures line == "READY" <==> READY_LINE <= whole
  {
    ReadyFirst(whole);
    AnnouncedIn(whole, line, rest);
    assert whole[..|line|] == line;
    if READY_LINE <= whole {
      assert whole[..5] == READY_LINE[..5] == "READY";
    }
  }

  /** The answer to the request of an upload. */
  method GetReady(reader: BufferedSocketReader) returns (ok: bool)
    requires reader.socket.Valid() && reader.socket.peer.phase.AwaitingReady?
    requires reader.buffered == reader.socket.peer.buffered
    modifies reader, reader.socket
    ensures reader.socket.Valid() && (!ok ==> reader.socket.peer.phase == Done(false))
    ensures ok ==> && old(reader.Coming()) == READY_LINE + reader.Coming()
                   && reader.buffered == reader.socket.peer.buffered
                   && reader.socket.peer == old(reader.socket.peer).(
                        phase := Reading, buffered := reader.buffered, received := reader.socket.peer.received)
    ensures ok <==> READY_LINE <= old(reader.Coming())
    ensures reader.socket.sends == old(reader.socket.sends)
  {
    hide RunPeer, TakeLine, OkSizeOf, Find, Flow, CanWork, NeedsInput, LineFound;
    ReadyFirst(reader.Coming());
    var line;
    ok, line := reader.ReadLine();
    if !ok {
      return;
    }
    ReadyAlone(old(reader.Coming()), line, reader.Coming());
    var refused := ResponseIsError(line);
    reader.socket.Note(Works(LocalOutcomes(true, true, true, true, 0)));
    ok := !refused && line == "READY";
    assert "READY"[0] == 'R';
  }

  /** The answer to a complete upload. */
  method GetResult(reader: BufferedSocketReader, size: nat) returns (ok: bool)
    requires reader.socket.Valid() && reader.socket.peer.phase.AwaitingResult?
    requires reader.socket.peer.job.Upload? && size == |reader.socket.peer.job.local|
    requires reader.buffered == reader.socket.peer.buffered
    modifies reader, reader.socket
    ensures reader.socket.Valid() && reader.socket.peer.phase == Done(ok)
    ensures ok ==> reader.socket.peer.sent == old(reader.socket.peer.sent)
    ensures ok <==> && LineFound(old(reader.buffered), old(reader.socket.recvs))
                    && Announced(old(reader.Coming())) == Some(size)
    ensures Announced(old(reader.Coming())) == Some(size) && Find(old(reader.Coming()), '\n') <= MAX_RESPONSE_LINE
            ==> ok
  {
    hide RunPeer, TakeLine, OkSizeOf, IsErrorLine, Find, Flow, CanWork, NeedsInput, LineFound;
    var line;
    ok, line := reader.ReadLine();
    if !ok {
      return;
    }
    AnnouncedIn(old(reader.Coming()), line, reader.Coming());
    var refused := ResponseIsError(line);
    var parsed, confirmed := false, 0;
    if !refused {
      parsed, confirmed := ParseOkSize(line);
    }
    reader.socket.Note(Works(LocalOutcomes(true, true, true, true, 0)));
    ok := parsed && confirmed == size;
  }

  /** The calls send the request of an upload, and then the whole file. */
  predicate UploadSent(sends: seq<SendOutcome>, outcomes: seq<ReadOutcome>, remote: string, size: nat) {
    var asked := SendsLeft(sends, |"PUT " + remote + " " + ToDecimal(size) + "\n"|);
    asked.Some? && FileSent(asked.value, outcomes, size).Some?
  }

  /** The server answers `READY`, and then a line with the size. */
  predicate Confirms(whole: string, size: nat) {
    "READY\n" <= whole && Announced(whole[6..]) == Some(size)
  }

  lemma ConfirmedParts(whole: string, size: nat)
    ensures Confirms(whole, size) ==> READY_LINE <= whole
  {
  }

  lemma ConfirmedAfter(whole: string, rest: string, size: nat)
    requires whole == READY_LINE + rest
    ensures whole[6..] == rest && (Confirms(whole, size) <==> Announced(rest) == Some(size))
  {
    assert whole[..6] == READY_LINE && whole[6..] == rest;
    hide Announced;
  }

  /**
   `run_put`: follows the machine to its end, unless the source file cannot be used at all, and then nothing is sent.
   On success the whole file has been sent, after its request line, and the server has confirmed its size. It succeeds
   whenever request and file can be sent and the server answers `READY` and confirms the size in a line that fits.
   */
  method RunPut(socket: Socket, remote: string, source: Source) returns (ok: bool)
    requires socket.Valid() && socket.peer == NewPeer(Upload(source.contents), remote) && source.position == 0
    modifies socket, source
    ensures socket.Valid()
    ensures if source.isRegular && source.canSize && source.canOpen then socket.peer.phase == Done(ok)
            else !ok && socket.peer == old(socket.peer)
    ensures ok ==> socket.peer.sent == PrintRequest(Put(remote, |source.contents|)) + "\n" + source.contents
    ensures ok ==> && UploadSent(old(socket.sends), old(source.outcomes), remote, |source.contents|)
                   && Confirms(old(Flow(socket.recvs)), |source.contents|)
    ensures source.isRegular && source.canSize && source.canOpen
              && UploadSent(old(socket.sends), old(source.outcomes), remote, |source.contents|)
              && Confirms(old(Flow(socket.recvs)), |source.contents|)
              && Find(old(Flow(socket.recvs))[6..], '\n') <= MAX_RESPONSE_LINE
            ==> ok
  {
    hide RunPeer, Flow, Advance, Find, OkSizeOf, IsErrorLine, ToDecimal, READY_LINE, SendsLeft, FileSent, Announced,
         Confirms;
    ghost var whole := Flow(socket.recvs);
    ConfirmedParts(whole, |source.contents|);
    if !source.isRegular || !source.canSize || !source.canOpen {
      return false;
    }
    var size := |source.contents|;
    var request := PrintRequest(Put(remote, size)) + "\n";
    assert request == TextOf(AskedBy(Upload(source.contents), remote));
    RequestSent(socket.peer);
    ok := SendAll(socket, request);
    if !ok {
      return;
    }
    var reader := new BufferedSocketReader(socket);
    assert reader.Coming() == whole;
    ok := GetReady(reader);
    if !ok {
      return;
    }
    ConfirmedAfter(whole, reader.Coming(), size);
    ok := SendFile(socket, source);
    if !ok {
      return;
    }
    ok := GetResult(reader, size);
  }

  /**
   Whatever the calls answer, the machine that the program follows keeps its invariant, so all results about it hold.
   */
  lemma ProgramIsGood(socket: Socket)
    requires socket.Valid()
    ensures socket.peer in GoodPeers()
  {
    EveryPeerRunIsGood(socket.job, socket.remote, socket.trace);
  }
}
