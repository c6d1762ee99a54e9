/**
 The life of one connection: a measure that every effective event decreases, how much one event can move,
 and how little it matters in which pieces the request line arrives.
 */
module Lifecycle {
  import opened Text
  import opened Requests
  import opened Storage
  import opened Connection
  import opened ConnectionInvariant
  import opened ConnectionProofs
  import opened Transcript
  import opened System
  import opened Linearizability

  // ---------------------------------------------------------------------------
  // The measure

  /** The states in the only order in which they can follow each other; 0 is closed. */
  function Rank(c: Conn): nat {
    if !c.Live() then 0
    else
      match c.state
      case AwaitingRequest => 6
      case SendingReady => 5
      case ReceivingFile => 4
      case SendingGetHeader => 3
      case SendingResult => 3
      case SendingFile => 2
      case SendingError => 1
  }

  /** What is left to do in the present state. */
  function Left(c: Conn): nat
    requires c.WellFormed()
  {
    match c.state
    case AwaitingRequest => if |c.request| <= MAX_REQUEST_LINE then MAX_REQUEST_LINE + 1 - |c.request| else 0
    case ReceivingFile => c.expected - c.transferred
    case SendingFile => 2 * (c.expected - c.transferred) + if c.windowOffset == |c.window| then 1 else 0
    case _ => |c.pending| - c.pendingOffset
  }

  ghost predicate Below(c': Conn, c: Conn)
    requires c.WellFormed() && c'.WellFormed()
  {
    Rank(c') < Rank(c) || (Rank(c') == Rank(c) && c'.state == c.state && Left(c') < Left(c))
  }

  lemma BelowThen(c: Conn, c': Conn, c'': Conn)
    requires c.WellFormed() && c'.WellFormed() && c''.WellFormed()
    requires (c' == c || Below(c', c)) && (c'' == c' || Below(c'', c'))
    ensures c'' == c || Below(c'', c)
  {
  }

  lemma RequestDataBelow(w: World, c: Conn, bytes: string, files: FileOutcomes)
    requires Fresh(c) && c.state.AwaitingRequest? && |c.request| <= MAX_REQUEST_LINE && bytes != ""
    ensures Below(RequestData(w, c, bytes, files).c, c)
  {
    hide ParseRequest, OkLine, ErrorLine, TempName;
  }

  lemma UploadDataBelow(w: World, c: Conn, bytes: string, files: FileOutcomes)
    requires c.WellFormed() && c.window == "" && c.Live() && c.state.ReceivingFile? && c.transferred < c.expected
             && bytes != ""
    ensures Below(UploadData(w, c, bytes, files).c, c)
  {
    UploadDataEnds(w, c, bytes, files);
    hide UploadData;
  }

  lemma FlushBelow(c: Conn, sends: seq<SendOutcome>)
    requires c.WellFormed() && !c.WantsInput() && !c.state.SendingFile?
    ensures var f := FlushPending(c, sends); f.result.Drained? || f.c == c || Below(f.c, c)
    decreases |sends|
  {
    if c.pendingOffset < |c.pending| && sends != [] {
      match sends[0] {
        case Sent(count) =>
          if count > 0 {
            FlushBelow(AcceptPart(c, Min(count, |c.pending| - c.pendingOffset)), sends[1..]);
          }
        case SendInterrupted => FlushBelow(c, sends[1..]);
        case SendWouldBlock =>
        case SendFailed =>
      }
    }
  }

  lemma AfterDrainBelow(w: World, c: Conn, files: FileOutcomes)
    requires c.WellFormed() && c.Live() && c.window == "" && !c.WantsInput() && !c.state.SendingFile?
    ensures var s := AfterDrain(w, c, files); !s.ok || Rank(s.c) < Rank(c)
  {
    hide OkLine, ErrorLine;
  }

  lemma SendWindowBelow(w: World, c: Conn, s: SendOutcome)
    requires c.WellFormed() && c.state.SendingFile?
    ensures var r := SendWindow(w, c, s); !r.ok || r.c == c || Below(r.c, c)
  {
  }

  lemma RefillBelow(w: World, c: Conn, files: FileOutcomes)
    requires c.WellFormed() && c.state.SendingFile? && c.windowOffset == |c.window|
    ensures var r := Refill(w, c, files); !r.ok || Below(r.c, c)
  {
    hide Disk.Read;
  }

  lemma FileWritableBelow(w: World, c: Conn, s: SendOutcome, files: FileOutcomes)
    requires c.WellFormed() && c.state.SendingFile?
    ensures var r := FileWritable(w, c, s, files); !r.ok || r.c == c || Below(r.c, c)
  {
    SendWindowBelow(w, c, s);
    if c.windowOffset == |c.window| {
      var filled := Refill(w, c, files);
      RefillBelow(w, c, files);
      SendWindowBelow(w, filled.c, s);
      if filled.ok && SendWindow(w, filled.c, s).ok {
        BelowThen(c, filled.c, SendWindow(w, filled.c, s).c);
      }
    }
    hide SendWindow, Refill, Below;
  }

  lemma ReadableBelow(init: map<string, string>, w: World, c: Conn, recvs: seq<RecvOutcome>, files: FileOutcomes)
    requires c in GoodConns(init, w) && c in HeardConns() && c.Live()
    ensures var s := Readable(w, c, recvs, files); s.c == c || Below(s.c, c)
  {
    hide RequestData, UploadData;
    var outcome := Settled(recvs);
    if outcome.Data? {
      if c.state.AwaitingRequest? {
        RequestDataBelow(w, c, outcome.bytes, files);
      } else if c.state.ReceivingFile? {
        UploadDataBelow(w, c, outcome.bytes, files);
      }
    }
  }

  lemma WritableBelow(w: World, c: Conn, sends: seq<SendOutcome>, files: FileOutcomes)
    requires c.WellFormed() && c.Live()
    ensures var s := Writable(w, c, sends, files); !s.ok || s.c == c || Below(s.c, c)
  {
    hide FlushPending, AfterDrain, FileWritable;
    if c.state.SendingFile? {
      FileWritableBelow(w, c, if sends == [] then SendWouldBlock else sends[0], files);
    } else if !c.WantsInput() {
      FlushBelow(c, sends);
      AfterDrainBelow(w, FlushPending(c, sends).c, files);
    }
  }

  /**
   Every event, whatever the calls answer, leaves the connection exactly as it is or moves it down: to a later
   state, or closer to the end of the present one. No state is ever entered twice.
   */
  lemma EventsDescend(init: map<string, string>, w: World, c: Conn, i: Input)
    requires c in GoodConns(init, w) && c in HeardConns() && c.Live()
    ensures c.WellFormed() && var r := Dispatch(w, c, i); r.c == c || Below(r.c, c)
  {
    GoodIsWellFormed(init, w, c);
    DispatchParts(w, c, i);
    ReadPartBelow(init, w, c, i);
    var r := ReadPart(w, c, i);
    WritePartBelow(r, i);
    var s := WritePart(r, i);
    if r.ok && s.ok {
      BelowThen(c, r.c, s.c);
    }
    ClosedBelow(w, c, c);
    ClosedBelow(r.w, r.c, c);
    ClosedBelow(s.w, s.c, c);
    hide Dispatch, ReadPart, WritePart, CloseClient, Below, GoodConns, HeardConns, Conn.WellFormed;
  }

  lemma ReadPartBelow(init: map<string, string>, w: World, c: Conn, i: Input)
    requires c in GoodConns(init, w) && c in HeardConns() && c.Live() && c.WellFormed()
    ensures var r := ReadPart(w, c, i); r.c == c || Below(r.c, c)
  {
    hide Readable, GoodConns, HeardConns, Below;
    if i.readable {
      ReadableBelow(init, w, c, i.recvs, i.files);
    }
  }

  lemma WritePartBelow(r: Step, i: Input)
    requires r.c.WellFormed() && r.c.Live()
    ensures var s := WritePart(r, i); !s.ok || s.c == r.c || Below(s.c, r.c)
  {
    hide Writable, Below;
    WritableBelow(r.w, r.c, i.sends, i.files);
  }

  lemma ClosedBelow(w: World, c1: Conn, c: Conn)
    requires c1.WellFormed() && c.WellFormed() && c.Live() && c1.fd == c.fd
    ensures Below(CloseClient(w, c1).c, c)
  {
    hide RemoveTemporary;
  }

  lemma GoodIsWellFormed(init: map<string, string>, w: World, c: Conn)
    requires c in GoodConns(init, w)
    ensures c.WellFormed()
  {
  }

  // ---------------------------------------------------------------------------
  // Whole lives

  /** A connection that is past its request never goes back, keeps the request that it has, and only moves down. */
  ghost predicate Aged(c: Conn, c': Conn) {
    && Rank(c') <= Rank(c)
    && (!c.state.AwaitingRequest? ==> !c'.state.AwaitingRequest? && c'.past.asked == c.past.asked)
    && (c.past.asked.Some? ==> c'.past.asked == c.past.asked)
  }

  lemma UploadDataAsks(w: World, c: Conn, bytes: string, files: FileOutcomes)
    requires c.WellFormed() && c.window == "" && c.state.ReceivingFile?
    ensures var s := UploadData(w, c, bytes, files);
            s.c.past.asked == c.past.asked && !s.c.state.AwaitingRequest? && !s.c.state.SendingFile?
  {
    UploadDataEnds(w, c, bytes, files);
    hide UploadData;
  }

  lemma ReadableAsks(w: World, c: Conn, recvs: seq<RecvOutcome>, files: FileOutcomes)
    requires c.WellFormed() && c.Live() && !c.state.AwaitingRequest?
    ensures var s := Readable(w, c, recvs, files); s.c.past.asked == c.past.asked && !s.c.state.AwaitingRequest?
  {
    hide UploadData;
    var outcome := Settled(recvs);
    if outcome.Data? && c.state.ReceivingFile? {
      UploadDataAsks(w, c, outcome.bytes, files);
    }
  }

  lemma WritableAsks(w: World, c: Conn, sends: seq<SendOutcome>, files: FileOutcomes)
    requires c.WellFormed() && !c.state.AwaitingRequest?
    ensures var s := Writable(w, c, sends, files); !s.c.state.AwaitingRequest?
  {
    if !c.WantsInput() && !c.state.SendingFile? {
      var f := FlushPending(c, sends);
      AfterDrainAsks(w, f.c, files);
      hide FlushPending, AfterDrain;
    }
  }

  lemma AfterDrainAsks(w: World, c: Conn, files: FileOutcomes)
    requires c.WellFormed() && c.window == "" && !c.state.AwaitingRequest?
    ensures !AfterDrain(w, c, files).c.state.AwaitingRequest?
  {
    CompletionEnds(w, c, files);
    hide CompleteUpload;
  }

  lemma DispatchAges(init: map<string, string>, w: World, c: Conn, i: Input)
    requires c in GoodConns(init, w) && c in HeardConns() && c.Live()
    ensures c.WellFormed() && Aged(c, Dispatch(w, c, i).c)
  {
    EventsDescend(init, w, c, i);
    GoodIsWellFormed(init, w, c);
    assert c.state.AwaitingRequest? ==> c.past.asked.None?;
    DispatchParts(w, c, i);
    if !c.state.AwaitingRequest? {
      var r := ReadPart(w, c, i);
      ReadableAsks(w, c, i.recvs, i.files);
      WritableAsks(r.w, r.c, i.sends, i.files);
      hide Dispatch, Readable, Writable, GoodConns, HeardConns, Conn.WellFormed, RemoveTemporary;
    }
    hide Dispatch, GoodConns, HeardConns, Left;
  }

  lemma NextAges(d0: Disk, s: System, e: Event, id: nat)
    requires s.WellFormed() && d0.Valid() && SystemInv(d0, s) && id < |s.conns|
    ensures id < |Next(s, e).conns| && Aged(s.conns[id], Next(s, e).conns[id])
  {
    hide Dispatch, GoodConns, HeardConns, GoodWorlds;
    if e.Handle? && e.id == id && Possible(s, e) {
      DispatchAges(d0.Visible(), s.w, s.conns[id], e.input);
    }
  }

  /** In every run each connection asks at most once: an accepted request stays, and no state comes back. */
  lemma {:induction false} NeverAgain(d0: Disk, events: seq<Event>, more: seq<Event>, id: nat)
    requires d0.Valid() && CleanRun(d0, events + more) && id < |Run(Start(d0), events).conns|
    ensures id < |Run(Start(d0), events + more).conns|
    ensures Aged(Run(Start(d0), events).conns[id], Run(Start(d0), events + more).conns[id])
    decreases |more|
  {
    hide CleanRun;
    if more == [] {
      assert events + more == events;
    } else {
      var before, e := more[..|more| - 1], more[|more| - 1];
      assert events + more == (events + before) + [e];
      CleanPrefix(d0, events + before, [e]);
      NeverAgain(d0, events, before, id);
      RunGood(d0, events + before);
      var s := Run(Start(d0), events + before);
      RunThen(Start(d0), events + before, [e]);
      assert Run(s, [e]) == Next(s, e) by {
        assert [e][..0] == [];
      }
      hide Aged, Run;
      NextAges(d0, s, e, id);
      AgedThen(Run(Start(d0), events).conns[id], s.conns[id], Next(s, e).conns[id]);
    }
  }

  lemma AgedThen(c: Conn, c': Conn, c'': Conn)
    requires Aged(c, c') && Aged(c', c'')
    ensures Aged(c, c'')
  {
  }

  lemma CleanPrefix(d0: Disk, events: seq<Event>, more: seq<Event>)
    requires CleanRun(d0, events + more)
    ensures CleanRun(d0, events)
  {
    assert forall k | 0 <= k <= |events| :: events[..k] == (events + more)[..k];
  }

  // ---------------------------------------------------------------------------
  // How much one event moves

  /** The bounds of the request buffer; no payload is moved while the request is awaited. */
  ghost predicate Buffered(c: Conn) {
    && |c.request| <= (if c.state.AwaitingRequest? then MAX_REQUEST_LINE else MAX_REQUEST_LINE + BUFFER_SIZE)
    && (c.state.AwaitingRequest? ==> c.transferred == 0)
  }

  /**
   At most one buffer of input, and at most one buffer of payload in either direction; what was moved stays counted.
   */
  ghost predicate Modest(c: Conn, c': Conn) {
    && |c'.past.received| <= |c.past.received| + BUFFER_SIZE
    && c.transferred <= c'.transferred <= c.transferred + BUFFER_SIZE
    && Buffered(c')
  }

  lemma StartModest(w: World, c: Conn, request: Request, files: FileOutcomes)
    requires c.WellFormed() && c.window == "" && c.Live() && c.state.AwaitingRequest? && c.transferred == 0
    ensures var c' := StartRequest(w, c, request, files).c;
            c'.transferred == 0 && c'.request == c.request && !c'.state.AwaitingRequest?
  {
    hide OkLine, ErrorLine, TempName;
  }

  lemma RequestDataModest(w: World, c: Conn, bytes: Chunk, files: FileOutcomes)
    requires c.WellFormed() && c.window == "" && c.Live() && c.state.AwaitingRequest? && Buffered(c)
    ensures Modest(c, RequestData(w, c, bytes, files).c)
  {
    hide ParseRequest, StartRequest, ErrorLine;
    var all := c.request + bytes;
    match ParseRequest(all[..Find(all, '\n')]) {
      case Rejected(_) =>
      case Accepted(request) =>
        StartModest(w, c.(request := "", past := c.past.Hears(bytes).Asks(request, w, files)), request, files);
    }
  }

  lemma UploadDataModest(w: World, c: Conn, bytes: Chunk, files: FileOutcomes)
    requires c.WellFormed() && c.window == "" && c.state.ReceivingFile? && Buffered(c)
    ensures Modest(c, UploadData(w, c, bytes, files).c)
  {
    UploadDataEnds(w, c, bytes, files);
    hide UploadData;
  }

  /** Reading moves payload only in an upload, where nothing but control lines are written. */
  lemma ReadableModest(w: World, c: Conn, recvs: seq<RecvOutcome>, files: FileOutcomes)
    requires c.WellFormed() && c.Live() && Buffered(c)
    ensures var s := Readable(w, c, recvs, files);
            Modest(c, s.c) && (s.c == c || !s.c.state.SendingFile?)
  {
    hide RequestData, UploadData;
    var outcome := Settled(recvs);
    if outcome.Data? {
      if c.state.AwaitingRequest? {
        RequestDataModest(w, c, outcome.bytes, files);
        NoFileYet(w, c, outcome.bytes, files);
      } else if c.state.ReceivingFile? {
        UploadDataModest(w, c, outcome.bytes, files);
        UploadDataAsks(w, c, outcome.bytes, files);
      }
    }
  }

  lemma NoFileYet(w: World, c: Conn, bytes: string, files: FileOutcomes)
    requires c.WellFormed() && c.window == "" && c.Live() && c.state.AwaitingRequest?
    ensures !RequestData(w, c, bytes, files).c.state.SendingFile?
  {
    hide ParseRequest, OkLine, ErrorLine, TempName, Find;
  }

  lemma WritableModest(w: World, c: Conn, sends: seq<SendOutcome>, files: FileOutcomes)
    requires c.WellFormed() && Buffered(c)
    ensures var s := Writable(w, c, sends, files);
            Modest(c, s.c) && (!c.state.SendingFile? ==> s.c.transferred == c.transferred)
  {
    if c.state.SendingFile? {
      FileWritableModest(w, c, if sends == [] then SendWouldBlock else sends[0], files);
      hide FileWritable;
    } else if !c.WantsInput() {
      LineWritableModest(w, c, sends, files);
    }
  }

  /** One write takes from one window. */
  predicate MovesLittle(c: Conn, c': Conn) {
    && c'.past.received == c.past.received && c'.request == c.request
    && (c'.state == c.state || !c'.state.AwaitingRequest?)
    && c.transferred <= c'.transferred <= c.transferred + BUFFER_SIZE
  }

  lemma SendWindowModest(w: World, c: Conn, s: SendOutcome)
    requires c.WellFormed()
    ensures MovesLittle(c, SendWindow(w, c, s).c)
  {
  }

  lemma RefillModest(w: World, c: Conn, files: FileOutcomes)
    requires c.WellFormed() && c.state.SendingFile? && c.windowOffset == |c.window|
    ensures var r := Refill(w, c, files).c; MovesLittle(c, r) && r.transferred == c.transferred
  {
    hide Disk.Read;
  }

  lemma FileWritableModest(w: World, c: Conn, s: SendOutcome, files: FileOutcomes)
    requires c.WellFormed() && c.state.SendingFile? && Buffered(c)
    ensures Modest(c, FileWritable(w, c, s, files).c)
  {
    SendWindowModest(w, c, s);
    if c.windowOffset == |c.window| {
      RefillModest(w, c, files);
      SendWindowModest(w, Refill(w, c, files).c, s);
    }
    hide SendWindow, Refill, Conn.WellFormed;
  }

  lemma AfterDrainModest(w: World, c: Conn, files: FileOutcomes)
    requires c.WellFormed() && c.window == ""
    ensures var r := AfterDrain(w, c, files).c; MovesLittle(c, r) && r.transferred == c.transferred
  {
    CompletionEnds(w, c, files);
    hide CompleteUpload;
  }

  lemma LineWritableModest(w: World, c: Conn, sends: seq<SendOutcome>, files: FileOutcomes)
    requires c.WellFormed() && Buffered(c) && !c.WantsInput() && !c.state.SendingFile?
    ensures var s := Writable(w, c, sends, files); Modest(c, s.c) && s.c.transferred == c.transferred
  {
    var f := FlushPending(c, sends);
    assert f.c.window == "" && OnlyFlushed(c, f.c);
    AfterDrainModest(w, f.c, files);
    hide FlushPending, AfterDrain, Conn.WellFormed;
  }

  /** One event moves at most 64 KiB of payload for its connection, and the request buffer stays within its bounds. */
  lemma {:induction false} EventIsModest(w: World, c: Conn, i: Input)
    requires c.WellFormed() && c.Live() && Buffered(c)
    ensures Modest(c, Dispatch(w, c, i).c)
  {
    DispatchParts(w, c, i);
    var r := ReadPart(w, c, i);
    ReadPartModest(w, c, i);
    WritePartModest(r, i);
    hide Dispatch, ReadPart, WritePart, RemoveTemporary, Conn.WellFormed;
  }

  lemma ReadPartModest(w: World, c: Conn, i: Input)
    requires c.WellFormed() && c.Live() && Buffered(c)
    ensures var r := ReadPart(w, c, i); Modest(c, r.c) && (r.c == c || !r.c.state.SendingFile?)
  {
    ReadableModest(w, c, i.recvs, i.files);
    hide Readable, Conn.WellFormed;
  }

  lemma WritePartModest(r: Step, i: Input)
    requires r.c.WellFormed() && r.c.Live() && Buffered(r.c)
    ensures var s := WritePart(r, i);
            Modest(r.c, s.c) && (!r.c.state.SendingFile? ==> s.c.transferred == r.c.transferred)
  {
    WritableModest(r.w, r.c, i.sends, i.files);
    hide Writable, Conn.WellFormed;
  }

  // ---------------------------------------------------------------------------
  // Pieces of the request line

  function Flat(chunks: seq<Chunk>): string {
    if chunks == [] then "" else chunks[0] + Flat(chunks[1..])
  }

  /** The request arrives in pieces, one for each readable event, until the connection has made up its mind. */
  function Feed(w: World, c: Conn, chunks: seq<Chunk>, files: FileOutcomes): (s: Step)
    requires c.WellFormed() && c.Live()
    ensures s.c.WellFormed()
    decreases |chunks|
  {
    if chunks == [] || !c.state.AwaitingRequest? then Step(w, c, true)
    else
      var s := Readable(w, c, [Data(chunks[0])], files);
      Feed(s.w, s.c, chunks[1..], files)
  }

  /** A piece without the newline is only remembered. */
  lemma PieceRemembered(w: World, c: Conn, piece: string, rest: string, files: FileOutcomes)
    requires c.WellFormed() && c.window == "" && c.Live() && c.state.AwaitingRequest?
    requires '\n' !in c.request + piece && |c.request + piece| <= MAX_REQUEST_LINE
    ensures var s := RequestData(w, c, piece, files);
            && s.w == w && s.c == c.(request := c.request + piece, past := c.past.Hears(piece))
            && RequestData(w, s.c, rest, files) == RequestData(w, c, piece + rest, files)
  {
    FindAbsent(c.request + piece, '\n');
    hide Find;
    assert (c.request + piece) + rest == c.request + (piece + rest);
    assert (c.past.received + piece) + rest == c.past.received + (piece + rest);
  }

  /** However a line that fits is split, the outcome is that of the whole line in one piece. */
  lemma {:induction false} SplitsDoNotMatter(w: World, c: Conn, chunks: seq<Chunk>, line: string, files: FileOutcomes)
    requires c.WellFormed() && c.Live() && c.state.AwaitingRequest? && chunks != []
    requires '\n' !in line && |line| <= MAX_REQUEST_LINE && c.request + Flat(chunks) == line + "\n"
    ensures Feed(w, c, chunks, files) == RequestData(w, c, Flat(chunks), files)
    decreases |chunks|
  {
    hide RequestData;
    var piece, rest := chunks[0], Flat(chunks[1..]);
    var s := RequestData(w, c, piece, files);
    assert Readable(w, c, [Data(piece)], files) == s;
    if |chunks| == 1 {
      assert piece + rest == piece;
      assert Feed(w, c, chunks, files) == Feed(s.w, s.c, chunks[1..], files);
      assert Feed(s.w, s.c, chunks[1..], files) == Step(s.w, s.c, true);
    } else {
      assert rest != "";
      ShorterPiece(c.request, piece, rest, line);
      PieceRemembered(w, c, piece, rest, files);
      SplitsDoNotMatter(w, s.c, chunks[1..], line, files);
    }
  }

  lemma ShorterPiece(before: string, piece: string, rest: string, line: string)
    requires before + (piece + rest) == line + "\n" && '\n' !in line && rest != ""
    ensures before + piece <= line && '\n' !in before + piece && (before + piece) + rest == line + "\n"
  {
    assert before + (piece + rest) == (before + piece) + rest;
    assert forall k | 0 <= k < |before + piece| :: (before + piece)[k] == (line + "\n")[k];
  }

  /** The temporary file is in place and holds the payload received so far. */
  ghost predicate Holding(w: World, c: Conn) {
    && c.WellFormed() && c.Live() && c.state.ReceivingFile?
    && c.transferred == |c.past.payload| < c.expected
    && c.temp in w.disk.names && w.disk.names[c.temp] == c.output && w.disk.Contents(c.output) == c.past.payload
  }

  /** The payload arrives in pieces, one for each readable event, until the connection stops receiving. */
  function FeedPayload(w: World, c: Conn, chunks: seq<Chunk>, files: FileOutcomes): (s: Step)
    requires c.WellFormed() && c.Live()
    ensures s.c.WellFormed()
    decreases |chunks|
  {
    if chunks == [] || !c.state.ReceivingFile? then Step(w, c, true)
    else
      var s := Readable(w, c, [Data(chunks[0])], files);
      FeedPayload(s.w, s.c, chunks[1..], files)
  }

  lemma PieceStored(w: World, c: Conn, piece: Chunk, files: FileOutcomes)
    requires Holding(w, c) && files.canWrite && c.transferred + |piece| < c.expected
    ensures var s := Readable(w, c, [Data(piece)], files);
            && Holding(s.w, s.c) && s.w.log == w.log
            && s.c == c.(transferred := c.transferred + |piece|, past := c.past.HearsPayload(piece, files))
  {
    assert piece[..|piece|] == piece;
  }

  lemma LastPieceCommits(w: World, c: Conn, piece: Chunk, files: FileOutcomes)
    requires Holding(w, c) && files.canWrite && files.canClose && files.canRename
             && c.transferred + |piece| == c.expected
    ensures var s := Readable(w, c, [Data(piece)], files);
            && s.w.log == w.log + [Commit(c.final, c.past.payload + piece)]
            && s.c.state.SendingResult? && s.c.past.payload == c.past.payload + piece && s.c.temp == ""
  {
    assert piece[..|piece|] == piece;
    hide OkLine;
  }

  lemma FlatEmpty(chunks: seq<Chunk>)
    requires Flat(chunks) == ""
    ensures chunks == []
  {
  }

  /**
   However exactly the declared number of bytes is split, the upload is committed once, whole, with the last piece.
   */
  lemma {:induction false} PayloadSplitsDoNotMatter(w: World, c: Conn, chunks: seq<Chunk>, files: FileOutcomes)
    requires Holding(w, c) && files.canWrite && files.canClose && files.canRename
    requires c.transferred + |Flat(chunks)| == c.expected
    ensures var s := FeedPayload(w, c, chunks, files);
            && s.w.log == w.log + [Commit(c.final, c.past.payload + Flat(chunks))]
            && s.c.state.SendingResult? && s.c.past.payload == c.past.payload + Flat(chunks) && s.c.temp == ""
    decreases |chunks|
  {
    hide Readable, Holding, Conn.WellFormed;
    HoldingFacts(w, c);
    var piece, rest := chunks[0], chunks[1..];
    var s := Readable(w, c, [Data(piece)], files);
    assert c.past.payload + (piece + Flat(rest)) == (c.past.payload + piece) + Flat(rest);
    if |piece| == |Flat(chunks)| {
      FlatEmpty(rest);
      LastPieceCommits(w, c, piece, files);
      assert piece + "" == piece;
    } else {
      PieceStored(w, c, piece, files);
      PayloadSplitsDoNotMatter(s.w, s.c, rest, files);
    }
  }

  lemma HoldingFacts(w: World, c: Conn)
    requires Holding(w, c)
    ensures c.WellFormed() && c.Live() && c.state.ReceivingFile? && c.transferred < c.expected
  {
  }

  /** A line that is too long is refused however it is split; only the reason depends on the pieces. */
  ghost predicate TooLong(c: Conn) {
    && c.state.SendingError? && c.pendingOffset == 0
    && (c.pending == ErrorLine("request-too-long") || c.pending == ErrorLine("bad-request"))
  }

  lemma PieceOfLong(w: World, c: Conn, piece: string, line: string, files: FileOutcomes)
    requires c.WellFormed() && c.window == "" && c.Live() && c.state.AwaitingRequest?
    requires '\n' !in line && |line| > MAX_REQUEST_LINE && c.request + piece <= line + "\n"
    ensures var s := RequestData(w, c, piece, files);
            TooLong(s.c) || (s.c.state.AwaitingRequest? && s.c.request == c.request + piece
              && |s.c.request| <= MAX_REQUEST_LINE)
  {
    var all := c.request + piece;
    if |all| <= |line| {
      assert all <= line;
      FindAbsent(all, '\n');
    } else {
      assert all == line + "\n";
      assert all[..|line|] == line;
      FindIs(all, '\n', |line|);
    }
    hide Find, ParseRequest, ErrorLine;
  }

  lemma {:induction false} LongLinesRefused(w: World, c: Conn, chunks: seq<Chunk>, line: string, files: FileOutcomes)
    requires c.WellFormed() && c.Live() && c.state.AwaitingRequest? && |c.request| <= MAX_REQUEST_LINE
    requires '\n' !in line && |line| > MAX_REQUEST_LINE && c.request + Flat(chunks) == line + "\n"
    ensures TooLong(Feed(w, c, chunks, files).c)
    decreases |chunks|
  {
    hide RequestData, ErrorLine;
    if chunks != [] {
      var piece, rest := chunks[0], Flat(chunks[1..]);
      var s := RequestData(w, c, piece, files);
      assert Readable(w, c, [Data(piece)], files) == s;
      assert c.request + (piece + rest) == (c.request + piece) + rest;
      PieceOfLong(w, c, piece, line, files);
      if s.c.state.AwaitingRequest? {
        LongLinesRefused(s.w, s.c, chunks[1..], line, files);
      } else {
        assert Feed(s.w, s.c, chunks[1..], files).c == s.c;
      }
    }
  }

  // ---------------------------------------------------------------------------
  // The reason for which a long line is refused

  /** A connection that has received part of a line and nothing else. */
  function Collected(fd: nat, part: string): Conn {
    NewConn(fd).(request := part, past := NOTHING.Hears(part))
  }

  /** It is refused after this much of the line. */
  function RefusedLine(fd: nat, part: string, reason: string): Conn {
    Collected(fd, part).(state := SendingError, pending := ErrorLine(reason))
  }

  /** The two are alike in everything but how much of the line was read. */
  predicate SameReply(s: Step, s': Step) {
    && s'.w == s.w && s'.ok == s.ok
    && s'.c == s.c.(request := s'.c.request, past := s.c.past.(received := s'.c.past.received))
  }

  lemma CollectedMore(fd: nat, part: string, piece: string)
    ensures var c := Collected(fd, part);
            c.(request := c.request + piece, past := c.past.Hears(piece)) == Collected(fd, part + piece)
  {
    assert ("" + part) + piece == "" + (part + piece);
  }

  lemma CollectedRefused(w: World, fd: nat, part: string, reason: string)
    ensures QueueError(w, Collected(fd, part), reason) == Step(w, RefusedLine(fd, part, reason), true)
  {
    hide ErrorLine;
  }

  lemma PieceRefused(w: World, fd: nat, part: string, piece: string, files: FileOutcomes)
    requires |part + piece| > MAX_REQUEST_LINE
    requires var newline := Find(part + piece, '\n'); newline == |part + piece| || newline > MAX_REQUEST_LINE
    ensures var all := part + piece;
            var reason := if Find(all, '\n') == |all| then "request-too-long" else "bad-request";
            RequestData(w, Collected(fd, part), piece, files) == Step(w, RefusedLine(fd, all, reason), true)
  {
    CollectedMore(fd, part, piece);
    CollectedRefused(w, fd, part + piece, "request-too-long");
    CollectedRefused(w, fd, part + piece, "bad-request");
    CollectedRequest(fd, part);
    hide Find, Collected, RefusedLine, QueueError, RequestLine;
  }

  lemma CollectedRequest(fd: nat, part: string)
    ensures var c := Collected(fd, part);
            c.request == part && c.WellFormed() && c.window == "" && c.Live() && c.state.AwaitingRequest?
  {
  }

  lemma LoneRead(r: RecvOutcome)
    requires r.Data?
    ensures Settled([r]) == r
  {
  }

  lemma FedOnce(w: World, c: Conn, chunks: seq<Chunk>, files: FileOutcomes)
    requires c.WellFormed() && c.Live() && c.state.AwaitingRequest? && chunks != []
    ensures var s := RequestData(w, c, chunks[0], files);
            Feed(w, c, chunks, files) == Feed(s.w, s.c, chunks[1..], files)
  {
    hide RequestData;
    LoneRead(Data(chunks[0]));
  }

  lemma FedNoMore(w: World, c: Conn, chunks: seq<Chunk>, files: FileOutcomes)
    requires c.WellFormed() && c.Live() && !c.state.AwaitingRequest?
    ensures Feed(w, c, chunks, files) == Step(w, c, true)
  {
  }

  /** A piece of a long line that is not the last one, while the line so far still fits. */
  lemma PieceCollected(w: World, fd: nat, part: string, piece: string, files: FileOutcomes)
    requires '\n' !in part + piece && |part + piece| <= MAX_REQUEST_LINE
    ensures RequestData(w, Collected(fd, part), piece, files) == Step(w, Collected(fd, part + piece), true)
  {
    FindAbsent(part + piece, '\n');
    CollectedMore(fd, part, piece);
    CollectedRequest(fd, part);
    hide Find, Collected, QueueError, RequestLine;
  }

  /**
   The exact reply to a line that is too long, for every split: `bad-request` if all but the last piece fit the limit,
   and `request-too-long` otherwise.
   */
  lemma {:induction false} LongLineReply(w: World, fd: nat, part: string, chunks: seq<Chunk>, line: string,
        files: FileOutcomes)
    returns (read: string)
    requires '\n' !in line && |line| > MAX_REQUEST_LINE >= |part| && part + Flat(chunks) == line + "\n"
    ensures chunks != []
    ensures var fits := |line| + 1 - |chunks[|chunks| - 1]| <= MAX_REQUEST_LINE;
            Feed(w, Collected(fd, part), chunks, files)
            == Step(w, RefusedLine(fd, read, if fits then "bad-request" else "request-too-long"), true)
    decreases |chunks|
  {
    var piece, rest := chunks[0], chunks[1..];
    read := part + piece;
    assert part + (piece + Flat(rest)) == read + Flat(rest);
    CollectedRequest(fd, part);
    FedOnce(w, Collected(fd, part), chunks, files);
    hide Feed, RequestData, ErrorLine, Find, Collected, RefusedLine;
    if rest == [] {
      assert read == line + "\n";
      LastPieceRefused(w, fd, part, piece, line, files);
      RefusedForGood(w, fd, read, "bad-request", rest, files);
    } else {
      LastPiece(rest);
      ShorterPiece(part, piece, Flat(rest), line);
      FindAbsent(read, '\n');
      if |read| > MAX_REQUEST_LINE {
        PieceRefused(w, fd, part, piece, files);
        RefusedForGood(w, fd, read, "request-too-long", rest, files);
      } else {
        PieceCollected(w, fd, part, piece, files);
        read := LongLineReply(w, fd, read, rest, line, files);
      }
    }
  }

  lemma LastPieceRefused(w: World, fd: nat, part: string, piece: string, line: string, files: FileOutcomes)
    requires '\n' !in line && |line| > MAX_REQUEST_LINE && part + piece == line + "\n"
    ensures RequestData(w, Collected(fd, part), piece, files)
            == Step(w, RefusedLine(fd, part + piece, "bad-request"), true)
  {
    assert (part + piece)[..|line|] == line;
    FindIs(part + piece, '\n', |line|);
    PieceRefused(w, fd, part, piece, files);
    hide RequestData, RefusedLine, Collected, Find;
  }

  lemma RefusedForGood(w: World, fd: nat, part: string, reason: string, chunks: seq<Chunk>, files: FileOutcomes)
    ensures var c := RefusedLine(fd, part, reason);
            c.WellFormed() && c.Live() && Feed(w, c, chunks, files) == Step(w, c, true)
  {
    hide ErrorLine;
    FedNoMore(w, RefusedLine(fd, part, reason), chunks, files);
  }

  lemma LastPiece(chunks: seq<Chunk>)
    requires chunks != []
    ensures Flat(chunks) != "" && |chunks[|chunks| - 1]| <= |Flat(chunks)|
  {
    if |chunks| > 1 {
      LastPiece(chunks[1..]);
    } else {
      assert Flat(chunks[1..]) == "";
    }
  }

  /** All splits of the line leave a new connection with the same reply. */
  ghost predicate SplitsAgree(line: string) {
    forall w: World, fd: nat, files: FileOutcomes, a: seq<Chunk>, b: seq<Chunk>
      | Flat(a) == line + "\n" && Flat(b) == line + "\n" ::
      SameReply(Feed(w, NewConn(fd), a, files), Feed(w, NewConn(fd), b, files))
  }

  /** A line that could be received after a full request buffer is refused for a reason that depends on the pieces. */
  lemma ReasonDependsOnPieces(w: World, fd: nat, line: string, files: FileOutcomes)
    requires '\n' !in line && MAX_REQUEST_LINE < |line| < MAX_REQUEST_LINE + BUFFER_SIZE
    ensures var cut := MAX_REQUEST_LINE; var a: seq<Chunk> := [line[..cut], line[cut..] + "\n"];
            Flat(a) == line + "\n" && Feed(w, NewConn(fd), a, files).c.pending == ErrorLine("bad-request")
    ensures var cut := MAX_REQUEST_LINE + 1; var b: seq<Chunk> := [line[..cut], line[cut..] + "\n"];
            Flat(b) == line + "\n" && Feed(w, NewConn(fd), b, files).c.pending == ErrorLine("request-too-long")
  {
    TwoPieces(w, fd, line, MAX_REQUEST_LINE, files);
    TwoPieces(w, fd, line, MAX_REQUEST_LINE + 1, files);
  }

  lemma TwoPieces(w: World, fd: nat, line: string, cut: nat, files: FileOutcomes)
    requires '\n' !in line && |line| > MAX_REQUEST_LINE && 0 < cut <= |line| < cut + BUFFER_SIZE && cut <= BUFFER_SIZE
    ensures var chunks: seq<Chunk> := [line[..cut], line[cut..] + "\n"];
            && Flat(chunks) == line + "\n"
            && Feed(w, NewConn(fd), chunks, files).c.pending
               == ErrorLine(if cut <= MAX_REQUEST_LINE then "bad-request" else "request-too-long")
  {
    var chunks: seq<Chunk> := [line[..cut], line[cut..] + "\n"];
    assert chunks[1..][1..] == [] && Flat(chunks[1..][1..]) == "";
    assert Flat(chunks[1..]) == line[cut..] + "\n";
    assert Flat(chunks) == line[..cut] + (line[cut..] + "\n") == line + "\n";
    NewCollected(fd);
    assert "" + Flat(chunks) == line + "\n";
    hide Feed, ErrorLine, Flat;
    var read := LongLineReply(w, fd, "", chunks, line, files);
  }

  lemma NewCollected(fd: nat)
    ensures Collected(fd, "") == NewConn(fd)
  {
  }

  lemma AgreeWhenShort(line: string)
    requires '\n' !in line && |line| <= MAX_REQUEST_LINE
    ensures SplitsAgree(line)
  {
    forall w: World, fd: nat, files: FileOutcomes, a: seq<Chunk>, b: seq<Chunk>
      | Flat(a) == line + "\n" && Flat(b) == line + "\n"
      ensures SameReply(Feed(w, NewConn(fd), a, files), Feed(w, NewConn(fd), b, files))
    {
      assert a != [] && b != [] && "" + Flat(a) == "" + Flat(b) == line + "\n";
      hide Feed, RequestData, Flat;
      SplitsDoNotMatter(w, NewConn(fd), a, line, files);
      SplitsDoNotMatter(w, NewConn(fd), b, line, files);
    }
  }

  lemma AgreeWhenVeryLong(line: string)
    requires '\n' !in line && |line| >= MAX_REQUEST_LINE + BUFFER_SIZE
    ensures SplitsAgree(line)
  {
    forall w: World, fd: nat, files: FileOutcomes, a: seq<Chunk>, b: seq<Chunk>
      | Flat(a) == line + "\n" && Flat(b) == line + "\n"
      ensures SameReply(Feed(w, NewConn(fd), a, files), Feed(w, NewConn(fd), b, files))
    {
      assert "" + Flat(a) == "" + Flat(b) == line + "\n";
      NewCollected(fd);
      hide Feed, Flat, ErrorLine;
      var r := LongLineReply(w, fd, "", a, line, files);
      var r' := LongLineReply(w, fd, "", b, line, files);
      assert "" + r == r;
    }
  }

  lemma DifferentReasons()
    ensures ErrorLine("bad-request") != ErrorLine("request-too-long")
  {
    assert ErrorLine("bad-request")[4] == 'b' && ErrorLine("request-too-long")[4] == 'r';
  }

  /**
   Exactly when the pieces do not matter: for a line that fits the limit, which is parsed, and for a line that is
   longer than the request buffer can get, which is always too long.
   */
  lemma {:induction false} SplitsAgreeIff(line: string)
    requires '\n' !in line
    ensures SplitsAgree(line) <==> |line| <= MAX_REQUEST_LINE || |line| >= MAX_REQUEST_LINE + BUFFER_SIZE
  {
    hide SplitsAgree;
    if |line| <= MAX_REQUEST_LINE {
      AgreeWhenShort(line);
    } else if |line| >= MAX_REQUEST_LINE + BUFFER_SIZE {
      AgreeWhenVeryLong(line);
    } else {
      DisagreeBetween(line);
    }
  }

  lemma DisagreeBetween(line: string)
    requires '\n' !in line && MAX_REQUEST_LINE < |line| < MAX_REQUEST_LINE + BUFFER_SIZE
    ensures !SplitsAgree(line)
  {
    var w, cut := World(Disk(map[], map[], 0), 0, []), MAX_REQUEST_LINE;
    var a: seq<Chunk> := [line[..cut], line[cut..] + "\n"];
    var b: seq<Chunk> := [line[..cut + 1], line[cut + 1..] + "\n"];
    ReasonDependsOnPieces(w, 0, line, ALL_WELL);
    DifferentReasons();
    hide Feed, ErrorLine, Flat;
    assert !SameReply(Feed(w, NewConn(0), a, ALL_WELL), Feed(w, NewConn(0), b, ALL_WELL));
  }
}
