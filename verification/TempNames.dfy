/**
 Why the results about the store need a hypothesis on names. A name of the form of a temporary file is a safe file name,
 so a client can ask for it. Two runs show what can come of it: an upload under such a name takes the place of somebody
 else's unfinished upload, and a download of such a name reads bytes that are never committed.
 SafeEvents.dfy has the exact condition.
 */
module TempNames {
  import opened Text
  import opened Requests
  import opened Storage
  import opened Connection
  import opened ConnectionInvariant
  import opened ConnectionProofs
  import opened System
  import opened Linearizability

  /**
   A commit under the temporary name of another upload is lost when that connection closes, which removes what it takes
   for its own temporary file.
   */
  lemma ClosingRemovesCommit(w: World, c: Conn, o: Conn, files: FileOutcomes)
    requires w.disk.Valid() && OwnsTemp(w, c) && OwnsTemp(w, o) && c.temp != o.temp && c.final == o.temp
    requires c.WellFormed() && c.window == "" && o.WellFormed() && files.canClose && files.canRename
    ensures var w' := CompleteUpload(w, c, files).w;
            && w'.log == w.log + [Commit(c.final, c.past.payload)] && w'.disk.names[c.final] == c.output
            && c.final !in CloseClient(w', o).w.disk.names && CloseClient(w', o).w.log == w'.log
  {
    assert o.temp != "" by {
      OwnTempIssued(w, o);
    }
    hide TempName, OkLine;
  }

  /** Every temporary name that the server can build is a safe file name. */
  lemma TempNameIsSafe(fd: nat, sequence: nat)
    requires fd <= UINT64_MAX && sequence <= UINT64_MAX
    ensures SafeFilename(TempName(fd, sequence))
  {
    assert Pow10(10) == 10_000_000_000 && Pow10(20) == 100_000_000_000_000_000_000;
    DecimalLength(fd, 20);
    DecimalLength(sequence, 20);
    var name := TempName(fd, sequence);
    forall i | 0 <= i < |name|
      ensures AllowedInName(name[i])
    {
      if 8 <= i < 8 + |ToDecimal(fd)| {
        assert name[i] == ToDecimal(fd)[i - 8];
        assert IsDigit(name[i]);
      } else if 9 + |ToDecimal(fd)| <= i < 9 + |ToDecimal(fd)| + |ToDecimal(sequence)| {
        assert name[i] == ToDecimal(sequence)[i - 9 - |ToDecimal(fd)|];
        assert IsDigit(name[i]);
      }
    }
  }

  // ---------------------------------------------------------------------------
  // A run that goes wrong

  function Reads(bytes: Chunk): Input {
    Input(true, false, false, false, [Data(bytes)], [], ALL_WELL)
  }

  function Writes(): Input {
    Input(false, true, false, false, [], [Sent(BUFFER_SIZE)], ALL_WELL)
  }

  predicate AsksFor(line: Chunk, request: Request) {
    Find(line, '\n') + 1 == |line| <= MAX_REQUEST_LINE + 1 && ParseRequest(line[..|line| - 1]) == Accepted(request)
  }

  lemma LineOf(request: Request) returns (line: Chunk)
    requires ValidRequest(request)
    ensures AsksFor(line, request)
  {
    RequestRoundTrip(request);
    line := PrintRequest(request) + "\n";
    assert line[..|line| - 1] == PrintRequest(request);
    FindIs(line, '\n', |line| - 1);
  }

  /** The connection of an upload whose request has just come in, in the presence of `w`. */
  function Started(w: World, fd: nat, line: string, name: string, size: nat, temp: string, file: FileId): Conn {
    NewConn(fd).(state := SendingReady, pending := READY_LINE, output := file, outputOpen := true, temp := temp,
                 final := name, expected := size, past := NOTHING.Hears(line).Asks(Put(name, size), w, ALL_WELL))
  }

  lemma UploadStarts(w: World, fd: nat, name: string, size: nat, line: Chunk)
    requires AsksFor(line, Put(name, size))
    ensures var temp := TempName(fd, w.sequence + 1);
            var (disk, file) := w.disk.Truncate(temp);
            Dispatch(w, NewConn(fd), Reads(line))
              == Step(World(disk, w.sequence + 1, w.log), Started(w, fd, line, name, size, temp, file), true)
  {
    var c := NewConn(fd).(past := NOTHING.Hears(line).Asks(Put(name, size), w, ALL_WELL));
    LineStarts(w, fd, Put(name, size), line);
    PutStarts(w, c, name, size);
    hide Dispatch, Reads, AsksFor, StartPut, TempName, Disk.Truncate, READY_LINE;
  }

  lemma PutStarts(w: World, c: Conn, name: string, size: nat)
    requires c.WellFormed() && c.window == "" && c.Live()
    ensures var temp := TempName(c.fd, w.sequence + 1);
            var (disk, file) := w.disk.Truncate(temp);
            StartPut(w, c, name, size, ALL_WELL)
              == Step(World(disk, w.sequence + 1, w.log),
                      c.(expected := size, transferred := 0, final := name, temp := temp, output := file,
                         outputOpen := true, pending := READY_LINE, pendingOffset := 0, state := SendingReady), true)
  {
    hide TempName, Disk.Truncate, READY_LINE;
  }

  /** A request that comes in at once is carried out at once. */
  lemma LineStarts(w: World, fd: nat, request: Request, line: Chunk)
    requires AsksFor(line, request)
    ensures var c := NewConn(fd).(past := NOTHING.Hears(line).Asks(request, w, ALL_WELL));
            Dispatch(w, NewConn(fd), Reads(line)) == StartRequest(w, c, request, ALL_WELL)
  {
    hide Find, ParseRequest, StartRequest;
    var c := NewConn(fd);
    assert c.request + line == line && c.past.received + line == line;
    assert Settled([Data(line)]) == Data(line);
    assert c.Live() && c.state.AwaitingRequest?;
  }

  /** A short control line goes out at once. */
  lemma LineGoesOut(c: Conn)
    requires c.WellFormed() && c.pendingOffset == 0 && 0 < |c.pending| <= BUFFER_SIZE
    ensures FlushPending(c, [Sent(BUFFER_SIZE)])
            == Flush(c.(pending := "", pendingOffset := 0, past := c.past.Says(c.pending)), Drained)
  {
    assert c.pending[0..|c.pending|] == c.pending;
    var next := AcceptPart(c, |c.pending|);
    assert [Sent(BUFFER_SIZE)][1..] == [];
    assert FlushPending(next, []) == Flush(next.(pending := "", pendingOffset := 0), Drained);
  }

  /** The upload has been told to go ahead. */
  function Ready(c: Conn): Conn {
    c.(state := ReceivingFile, pending := "", pendingOffset := 0, past := c.past.Says(READY_LINE))
  }

  lemma ReadyGoesOut(w: World, c: Conn)
    requires c.WellFormed() && c.Live() && c.state.SendingReady? && c.pending == READY_LINE && c.pendingOffset == 0
             && c.expected > 0
    ensures Dispatch(w, c, Writes()) ==
            Step(w, Ready(c), true)
  {
    LineGoesOut(c);
    hide FlushPending;
  }

  /** The only byte of an upload of one byte. */
  lemma ByteCommits(w: World, c: Conn, x: char)
    requires c.WellFormed() && c.Live() && c.state.ReceivingFile? && c.expected == 1 && c.transferred == 0
    requires c.temp in w.disk.names && c.past.payload == ""
    ensures var disk := w.disk.Append(c.output, [x]); var r := Dispatch(w, c, Reads([x]));
            && r.w == World(disk.Rename(c.temp, c.final), w.sequence,
                            w.log + [Commit(c.final, disk.Contents(disk.names[c.temp]))])
            && r.c.state.SendingResult? && r.c.past.payload == [x] && r.c.past.asked == c.past.asked
            && r.c.past.point == |w.log| && r.c.fd == c.fd
  {
    hide Disk.Append, Disk.Rename, Disk.Contents, OkLine;
    assert w.disk.Append(c.output, [x]).names == w.disk.names by {
      AppendNames(w.disk, c.output, [x]);
    }
    assert Settled([Data([x])]) == Data([x]);
    assert [x][..1] == [x] && "" + [x] == [x];
  }

  lemma AppendNames(d: Disk, file: FileId, bytes: string)
    ensures d.Append(file, bytes).names == d.names
  {
  }

  /** Two uploads have been told to go ahead; the second is to be published under the temporary name of the first. */
  ghost predicate OnCollisionCourse(s: System, name: string) {
    && |s.conns| == 2 && s.w.disk.Valid() && s.w.log == []
    && (forall id | 0 <= id < 2 ::
          var c := s.conns[id];
          && c.WellFormed() && c.Live() && c.state.ReceivingFile? && c.expected == 1 && c.transferred == 0
            && c.past.payload == ""
          && c.temp in s.w.disk.names && s.w.disk.names[c.temp] == c.output && s.w.disk.Contents(c.output) == "")
    && s.conns[0].temp != s.conns[1].temp && s.conns[1].final == s.conns[0].temp
    && s.conns[0].final == name && s.conns[0].past.asked == Some(Put(name, 1))
  }

  /** An upload of `y` is confirmed, but it is `x` that was committed under its name, at its point. */
  ghost predicate Stolen(s: System, name: string, x: char, y: char) {
    && |s.conns| == 2 && s.conns[0].state.SendingResult? && s.conns[0].past.payload == [y]
    && s.conns[0].past.asked == Some(Put(name, 1)) && s.conns[0].past.point == 1
    && |s.w.log| == 2 && s.w.log[1] == Commit(name, [x])
    && (x != y ==> !WroteAtPoint(s.w, s.conns[0]))
  }

  /** Then the first upload is confirmed, but what is stored under its name is the payload of the second. */
  lemma Collide(s: System, name: string, x: char, y: char)
    requires s.WellFormed() && OnCollisionCourse(s, name)
    ensures Stolen(Next(Next(s, Handle(1, Reads([x]))), Handle(0, Reads([y]))), name, x, y)
  {
    var a, b, w := s.conns[0], s.conns[1], s.w;
    ByteCommits(w, b, x);
    var s1 := Next(s, Handle(1, Reads([x])));
    assert s1.conns[0] == a;
    FirstSteals(w.disk, a, b, x);
    hide Disk.Append, Disk.Rename, Disk.Contents, Dispatch, Reads, Stolen;
    ByteCommits(s1.w, a, y);
    SecondKeeps(w.disk, a, b, x, y);
    IsStolen(Next(s1, Handle(0, Reads([y]))), name, x, y);
  }

  lemma IsStolen(s: System, name: string, x: char, y: char)
    requires |s.conns| == 2 && s.conns[0].state.SendingResult? && s.conns[0].past.payload == [y]
    requires s.conns[0].past.asked == Some(Put(name, 1)) && s.conns[0].past.point == 1
    requires |s.w.log| == 2 && s.w.log[1] == Commit(name, [x])
    ensures Stolen(s, name, x, y)
  {
    assert [x][0] == x && [y][0] == y;
  }

  lemma FirstSteals(d: Disk, a: Conn, b: Conn, x: char)
    requires a.temp in d.names && b.temp in d.names && a.temp != b.temp && b.final == a.temp
    ensures a.temp in d.Append(b.output, [x]).Rename(b.temp, b.final).names
  {
  }

  lemma SecondKeeps(d: Disk, a: Conn, b: Conn, x: char, y: char)
    requires d.Valid() && a.temp in d.names && b.temp in d.names && a.temp != b.temp && b.final == a.temp
    requires d.names[a.temp] == a.output && d.names[b.temp] == b.output && d.Contents(b.output) == ""
    ensures var d' := d.Append(b.output, [x]).Rename(b.temp, b.final).Append(a.output, [y]);
            a.temp in d'.names && d'.Contents(d'.names[a.temp]) == [x]
  {
    assert a.output != b.output;
  }

  /** Both requests have come in. */
  ghost predicate BothAsked(s: System, f: nat, g: nat, name: string, line: string, line': string) {
    && |s.conns| == 2 && s.w.disk.Valid() && s.w.log == []
    && var (t, u) := (TempName(f, 1), TempName(g, 2));
    && t in s.w.disk.names && u in s.w.disk.names
    && (exists w: World, w': World :: s.conns == [Started(w, f, line, name, 1, t, s.w.disk.names[t]),
                                                  Started(w', g, line', t, 1, u, s.w.disk.names[u])])
    && s.w.disk.Contents(s.w.disk.names[t]) == "" && s.w.disk.Contents(s.w.disk.names[u]) == ""
  }

  lemma TwoTruncates(d: Disk, t: string, u: string)
    requires d.Valid() && IsTempName(t) && IsTempName(u) && t != u
    ensures var (d1, a) := d.Truncate(t); var (d2, b) := d1.Truncate(u);
            && d2.Valid() && t in d2.names && u in d2.names && d2.names[t] == a && d2.names[u] == b
            && d2.Contents(a) == "" && d2.Contents(b) == ""
  {
    TruncateTemp(d, t);
    TruncateTemp(d.Truncate(t).0, u);
    var (d1, a) := d.Truncate(t);
    assert d1.names[t] == a;
    hide IsTempName;
  }

  lemma TwoAccepts(d0: Disk, f: nat, g: nat)
    requires f != g
    ensures Next(Next(Start(d0), Accept(f)), Accept(g)) == System(World(d0, 0, []), [NewConn(f), NewConn(g)])
  {
  }

  /** A connection that is still silent asks for an upload; the others are not touched. */
  function AfterAsking(s: System, id: nat, fd: nat, name: string, size: nat, line: string): System
    requires id < |s.conns|
  {
    var temp := TempName(fd, s.w.sequence + 1);
    var (disk, file) := s.w.disk.Truncate(temp);
    System(World(disk, s.w.sequence + 1, s.w.log), s.conns[id := Started(s.w, fd, line, name, size, temp, file)])
  }

  lemma OneAsks(s: System, id: nat, fd: nat, name: string, size: nat, line: Chunk)
    requires s.WellFormed() && id < |s.conns| && s.conns[id] == NewConn(fd) && AsksFor(line, Put(name, size))
    ensures Next(s, Handle(id, Reads(line))) == AfterAsking(s, id, fd, name, size, line)
  {
    hide Dispatch, Reads, AsksFor, TempName, Disk.Truncate, Started, Conn.WellFormed;
    UploadStarts(s.w, fd, name, size, line);
  }

  lemma BothAsk(d0: Disk, f: nat, g: nat, name: string, line: Chunk, line': Chunk)
    requires f != g && AsksFor(line, Put(name, 1)) && AsksFor(line', Put(TempName(f, 1), 1))
    ensures var s := System(World(d0, 0, []), [NewConn(f), NewConn(g)]);
            Next(Next(Next(Next(Start(d0), Accept(f)), Accept(g)), Handle(0, Reads(line))), Handle(1, Reads(line')))
            == AfterAsking(AfterAsking(s, 0, f, name, 1, line), 1, g, TempName(f, 1), 1, line')
  {
    hide Next, Dispatch, Reads, AsksFor, TempName, Disk.Truncate, Started, NewConn, Conn.WellFormed;
    TwoAccepts(d0, f, g);
    var s := System(World(d0, 0, []), [NewConn(f), NewConn(g)]);
    OneAsks(s, 0, f, name, 1, line);
    OneAsks(AfterAsking(s, 0, f, name, 1, line), 1, g, TempName(f, 1), 1, line');
  }

  lemma BothHaveAsked(d0: Disk, f: nat, g: nat, name: string, line: string, line': string)
    requires d0.Valid() && f != g
    ensures var s := System(World(d0, 0, []), [NewConn(f), NewConn(g)]);
            var s2 := AfterAsking(AfterAsking(s, 0, f, name, 1, line), 1, g, TempName(f, 1), 1, line');
            BothAsked(s2, f, g, name, line, line')
  {
    var t, u := TempName(f, 1), TempName(g, 2);
    assert IsTempName(t) && IsTempName(u);
    DifferentTemps(f, g);
    TwoTruncates(d0, t, u);
    TwoStarted(d0, f, g, name, line, line');
    var (d1, a) := d0.Truncate(t);
    var (d2, b) := d1.Truncate(u);
    hide TempName, IsTempName, Disk.Truncate, Disk.Contents, Disk.Valid, Started, NewConn, AfterAsking;
    var w, w' := World(d0, 0, []), World(d1, 1, []);
    assert [Started(w, f, line, name, 1, t, a), Started(w', g, line', t, 1, u, b)]
        == [Started(w, f, line, name, 1, t, d2.names[t]), Started(w', g, line', t, 1, u, d2.names[u])];
  }

  lemma TwoStarted(d0: Disk, f: nat, g: nat, name: string, line: string, line': string)
    ensures var s := System(World(d0, 0, []), [NewConn(f), NewConn(g)]); var (t, u) := (TempName(f, 1), TempName(g, 2));
            var (d1, a) := d0.Truncate(t); var (d2, b) := d1.Truncate(u);
            AfterAsking(AfterAsking(s, 0, f, name, 1, line), 1, g, t, 1, line')
              == System(World(d2, 2, []),
                        [Started(s.w, f, line, name, 1, t, a), Started(World(d1, 1, []), g, line', t, 1, u, b)])
  {
    hide TempName, Disk.Truncate, Started, NewConn;
  }

  lemma DifferentTemps(f: nat, g: nat)
    requires f != g
    ensures TempName(f, 1) != TempName(g, 2)
  {
    if TempName(f, 1) == TempName(g, 2) {
      TempNameInjective(f, 1, g, 2);
    }
  }

  lemma OneReady(s: System, id: nat)
    requires s.WellFormed() && id < |s.conns|
    requires var c := s.conns[id];
             && c.Live() && c.state.SendingReady? && c.pending == READY_LINE && c.pendingOffset == 0 && c.expected > 0
    ensures var c := s.conns[id];
            Next(s, Handle(id, Writes())) ==
            System(s.w, s.conns[id := Ready(c)])
  {
    ReadyGoesOut(s.w, s.conns[id]);
    hide Dispatch, Writes;
  }

  lemma BothReady(s: System, f: nat, g: nat, name: string, line: string, line': string)
    requires s.WellFormed() && BothAsked(s, f, g, name, line, line') && f != g
    ensures OnCollisionCourse(Next(Next(s, Handle(0, Writes())), Handle(1, Writes())), name)
  {
    DifferentTemps(f, g);
    TwoAnswers(s, f, g, name, line, line');
    hide Next, Writes, TempName, Disk.Contents, Disk.Valid, Conn.WellFormed;
    TwoReady(System(s.w, [Ready(s.conns[0]), Ready(s.conns[1])]), TempName(f, 1), TempName(g, 2), name);
  }

  lemma TwoAnswers(s: System, f: nat, g: nat, name: string, line: string, line': string)
    requires s.WellFormed() && BothAsked(s, f, g, name, line, line')
    ensures Next(Next(s, Handle(0, Writes())), Handle(1, Writes()))
            == System(s.w, [Ready(s.conns[0]), Ready(s.conns[1])])
  {
    hide Next, Writes, TempName, Disk.Contents, Disk.Valid;
    OneReady(s, 0);
    var c0, c1 := Ready(s.conns[0]), Ready(s.conns[1]);
    var s1 := System(s.w, s.conns[0 := c0]);
    assert s1.conns[1] == s.conns[1];
    OneReady(s1, 1);
    assert s1.conns[1 := c1] == [c0, c1];
  }

  lemma TwoReady(s: System, t: string, u: string, name: string)
    requires |s.conns| == 2 && s.w.disk.Valid() && s.w.log == [] && t != u
    requires s.conns[0].temp == t && s.conns[1].temp == u && s.conns[1].final == t && s.conns[0].final == name
    requires s.conns[0].past.asked == Some(Put(name, 1))
    requires forall id | 0 <= id < 2 ::
               var c := s.conns[id];
               && c.WellFormed() && c.Live() && c.state.ReceivingFile? && c.expected == 1 && c.transferred == 0
               && c.past.payload == ""
               && c.temp in s.w.disk.names && s.w.disk.names[c.temp] == c.output && s.w.disk.Contents(c.output) == ""
    ensures OnCollisionCourse(s, name)
  {
    hide Disk.Valid, Disk.Contents;
  }

  lemma BothProceed(d0: Disk, f: nat, g: nat, name: string, line: Chunk, line': Chunk)
    requires d0.Valid() && f != g && AsksFor(line, Put(name, 1)) && AsksFor(line', Put(TempName(f, 1), 1))
    ensures var s2 := Next(Next(Start(d0), Accept(f)), Accept(g));
            var s4 := Next(Next(s2, Handle(0, Reads(line))), Handle(1, Reads(line')));
            OnCollisionCourse(Next(Next(s4, Handle(0, Writes())), Handle(1, Writes())), name)
  {
    BothAsk(d0, f, g, name, line, line');
    BothHaveAsked(d0, f, g, name, line, line');
    hide AfterAsking, AsksFor, Next, TempName, Reads, Writes, OnCollisionCourse, BothAsked;
    var s2 := Next(Next(Start(d0), Accept(f)), Accept(g));
    BothReady(Next(Next(s2, Handle(0, Reads(line))), Handle(1, Reads(line'))), f, g, name, line, line');
  }

  /**
   The input: on any disk and for any two descriptors there is a run of two uploads, with every call succeeding, in
   which an upload of the byte `y` is confirmed while the byte `x` of the other one is committed under its name.
   */
  lemma {:induction false} StolenUpload(d0: Disk, f: nat, g: nat, name: string, x: char,
        y: char) returns (events: seq<Event>)
    requires d0.Valid() && f != g && f <= UINT64_MAX && SafeFilename(name)
    ensures Stolen(Run(Start(d0), events), name, x, y)
  {
    TempNameIsSafe(f, 1);
    var line := LineOf(Put(name, 1));
    var line' := LineOf(Put(TempName(f, 1), 1));
    hide AsksFor, Next, Run, TempName, SafeFilename, Reads, Writes, OnCollisionCourse, WroteAtPoint, Stolen;
    BothProceed(d0, f, g, name, line, line');
    var s2 := Next(Next(Start(d0), Accept(f)), Accept(g));
    var s4 := Next(Next(s2, Handle(0, Reads(line))), Handle(1, Reads(line')));
    Collide(Next(Next(s4, Handle(0, Writes())), Handle(1, Writes())), name, x, y);
    events := [Accept(f), Accept(g), Handle(0, Reads(line)), Handle(1, Reads(line')),
               Handle(0, Writes()), Handle(1, Writes()), Handle(1, Reads([x])), Handle(0, Reads([y]))];
    RunEight(Start(d0), events);
  }


  // ---------------------------------------------------------------------------
  // A download of what is never committed

  function Downloading(w: World, fd: nat, line: string, name: string): Conn
    requires name in w.disk.names
  {
    var size := |w.disk.Contents(w.disk.names[name])|;
    NewConn(fd).(state := SendingGetHeader, pending := OkLine(size), input := w.disk.names[name], inputOpen := true,
                 expected := size, past := NOTHING.Hears(line).Asks(Get(name), w, ALL_WELL))
  }

  lemma DownloadStarts(w: World, fd: nat, name: string, line: Chunk)
    requires AsksFor(line, Get(name)) && name in w.disk.names
    ensures Dispatch(w, NewConn(fd), Reads(line)) == Step(w, Downloading(w, fd, line, name), true)
  {
    LineStarts(w, fd, Get(name), line);
    hide Dispatch, Reads, AsksFor, OkLine, Disk.Contents;
  }

  lemma HeaderGoesOut(w: World, c: Conn)
    requires c.WellFormed() && c.Live() && c.state.SendingGetHeader? && c.pendingOffset == 0 && c.expected > 0
    requires 0 < |c.pending| <= BUFFER_SIZE
    ensures Dispatch(w, c, Writes()) ==
            Step(w, c.(state := SendingFile, pending := "", pendingOffset := 0, past := c.past.Says(c.pending)), true)
  {
    LineGoesOut(c);
    hide FlushPending;
  }

  lemma ByteGoesOut(w: World, c: Conn, x: char)
    requires c.WellFormed() && c.Live() && c.state.SendingFile? && c.window == "" && c.transferred == 0
    requires c.position == 0
    requires c.expected == 1 && w.disk.Contents(c.input) == [x]
    ensures var r := Dispatch(w, c, Writes()); r.w == w && r.c.past == c.past.Says([x])
  {
    assert w.disk.Read(c.input, 0, 1) == [x];
    hide Disk.Contents;
    assert [x][0..1] == [x];
  }

  /** The first byte of an upload of two bytes. */
  lemma ByteArrives(w: World, c: Conn, x: char)
    requires c.WellFormed() && c.Live() && c.state.ReceivingFile? && c.expected == 2 && c.transferred == 0
    ensures Dispatch(w, c, Reads([x])).w == w.(disk := w.disk.Append(c.output, [x]))
  {
    hide Disk.Append;
    assert Settled([Data([x])]) == Data([x]);
    assert [x][..1] == [x];
  }

  /** Half of an upload has arrived, and nothing has been committed. */
  ghost predicate HalfUploaded(s: System, temp: string, g: nat, x: char) {
    && |s.conns| == 2 && s.conns[1] == NewConn(g) && s.w.log == []
    && temp in s.w.disk.names && s.w.disk.Contents(s.w.disk.names[temp]) == [x]
  }

  /** An upload of two bytes has been told to go ahead. */
  ghost predicate HalfReady(s: System, temp: string, g: nat) {
    && |s.conns| == 2 && s.conns[1] == NewConn(g) && s.w.log == []
    && var c := s.conns[0];
    && c.WellFormed() && c.Live() && c.state.ReceivingFile? && c.expected == 2 && c.transferred == 0
    && temp in s.w.disk.names && s.w.disk.names[temp] == c.output && s.w.disk.Contents(c.output) == ""
  }

  lemma UploadReady(d0: Disk, f: nat, g: nat, name: string, line: Chunk)
    requires AsksFor(line, Put(name, 2))
    ensures var s := System(World(d0, 0, []), [NewConn(f), NewConn(g)]);
            HalfReady(Next(Next(s, Handle(0, Reads(line))), Handle(0, Writes())), TempName(f, 1), g)
  {
    var s := System(World(d0, 0, []), [NewConn(f), NewConn(g)]);
    OneAsks(s, 0, f, name, 2, line);
    var s1 := AfterAsking(s, 0, f, name, 2, line);
    Truncated(d0, TempName(f, 1));
    assert s1.conns[1] == NewConn(g);
    hide Next, Reads, Writes, TempName, Disk.Truncate, AsksFor, Disk.Contents;
    OneReady(s1, 0);
  }

  lemma Truncated(d: Disk, temp: string)
    ensures var (disk, file) := d.Truncate(temp);
            temp in disk.names && disk.names[temp] == file && disk.Contents(file) == ""
  {
  }

  lemma UploadHalf(s: System, temp: string, g: nat, x: char)
    requires s.WellFormed() && HalfReady(s, temp, g)
    ensures HalfUploaded(Next(s, Handle(0, Reads([x]))), temp, g, x)
  {
    ByteArrives(s.w, s.conns[0], x);
    TruncateAppend(s.w.disk, temp, s.conns[0].output, x);
    hide Dispatch, Reads, Disk.Append, Disk.Contents, NewConn;
  }

  lemma TruncateAppend(disk: Disk, temp: string, file: FileId, x: char)
    requires temp in disk.names && disk.names[temp] == file && disk.Contents(file) == ""
    ensures var d := disk.Append(file, [x]); temp in d.names && d.names[temp] == file && d.Contents(file) == [x]
  {
    assert "" + [x] == [x];
  }

  lemma DownloadHalf(s: System, temp: string, g: nat, x: char, line: Chunk)
    requires s.WellFormed() && HalfUploaded(s, temp, g, x) && AsksFor(line, Get(temp))
    ensures ReadDirty(Next(Next(Next(s, Handle(1, Reads(line))), Handle(1, Writes())), Handle(1, Writes())), temp, x)
  {
    var c := Downloading(s.w, g, line, temp);
    var s1 := System(s.w, s.conns[1 := c]);
    DownloadStarts(s.w, g, temp, line);
    assert Next(s, Handle(1, Reads(line))) == s1 by {
      hide Dispatch, Reads, AsksFor;
    }
    assert c.pending == OkLine(1) && c.expected == 1;
    hide AsksFor, Next, Reads, Writes, OkLine;
    DownloadGoesOut(s1, x);
  }

  /** One byte that was never committed has been served. */
  ghost predicate ReadDirty(s: System, temp: string, x: char) {
    && |s.conns| == 2 && s.w.log == []
    && s.conns[1].past.asked == Some(Get(temp)) && s.conns[1].past.sent == OkLine(1) + [x] && s.conns[1].past.point == 0
  }

  lemma DownloadGoesOut(s: System, x: char)
    requires s.WellFormed() && |s.conns| == 2
    requires var c := s.conns[1];
             && c.Live() && c.state.SendingGetHeader? && c.pendingOffset == 0 && c.pending == OkLine(1)
             && c.expected == 1
             && c.window == "" && c.transferred == 0 && c.position == 0 && s.w.disk.Contents(c.input) == [x]
             && c.past.sent == ""
    ensures var s' := Next(Next(s, Handle(1, Writes())), Handle(1, Writes()));
            && |s'.conns| == 2 && s'.w == s.w && s'.conns[1].past == s.conns[1].past.Says(OkLine(1) + [x])
  {
    var c := s.conns[1];
    assert ToDecimal(1) == "1" && |OkLine(1)| == 5;
    HeaderGoesOut(s.w, c);
    var c2 := c.(state := SendingFile, pending := "", pendingOffset := 0, past := c.past.Says(c.pending));
    ByteGoesOut(s.w, c2, x);
    hide Dispatch, Writes, OkLine, Disk.Contents;
    assert Next(s, Handle(1, Writes())) == System(s.w, s.conns[1 := c2]);
  }

  /**
   The other input: on any disk and for any two descriptors there is a run, with every call succeeding, in which a
   download is answered in full with a byte of an unfinished upload. Nothing has been committed, and the store never had
   the name.
   */
  lemma {:induction false} DirtyRead(d0: Disk, f: nat, g: nat, name: string, x: char) returns (events: seq<Event>)
    requires d0.Valid() && f != g && f <= UINT64_MAX && SafeFilename(name)
    ensures var s := Run(Start(d0), events); var temp := TempName(f, 1);
            && |s.conns| == 2 && s.w.log == [] && temp !in Replay(d0.Visible(), s.w.log)
            && s.conns[1].past.asked == Some(Get(temp)) && s.conns[1].past.sent == OkLine(1) + [x]
            && !ReadsAtPoint(d0.Visible(), s.w, s.conns[1])
  {
    var temp := TempName(f, 1);
    TempNameIsSafe(f, 1);
    var line := LineOf(Put(name, 2));
    var line' := LineOf(Get(temp));
    TwoAccepts(d0, f, g);
    UploadReady(d0, f, g, name, line);
    hide AsksFor, Next, Run, TempName, SafeFilename, Reads, Writes, HalfUploaded, ReadDirty, HalfReady, ReadsAtPoint;
    var s2 := Next(Next(Start(d0), Accept(f)), Accept(g));
    var s4 := Next(Next(s2, Handle(0, Reads(line))), Handle(0, Writes()));
    UploadHalf(s4, temp, g, x);
    DownloadHalf(Next(s4, Handle(0, Reads([x]))), temp, g, x, line');
    events := [Accept(f), Accept(g), Handle(0, Reads(line)), Handle(0, Writes()),
               Handle(0, Reads([x])), Handle(1, Reads(line')), Handle(1, Writes()), Handle(1, Writes())];
    RunEight(Start(d0), events);
    NeverStored(d0, Run(Start(d0), events), f, x);
  }

  lemma NeverStored(d0: Disk, s: System, f: nat, x: char)
    requires d0.Valid() && ReadDirty(s, TempName(f, 1), x)
    ensures var temp := TempName(f, 1);
            && |s.conns| == 2 && s.w.log == [] && temp !in Replay(d0.Visible(), s.w.log)
            && s.conns[1].past.asked == Some(Get(temp)) && s.conns[1].past.sent == OkLine(1) + [x]
            && !ReadsAtPoint(d0.Visible(), s.w, s.conns[1])
  {
    assert IsTempName(TempName(f, 1));
    hide TempName, OkLine;
  }

  lemma RunEight(s: System, e: seq<Event>)
    requires s.WellFormed() && |e| == 8
    ensures var four := Next(Next(Next(Next(s, e[0]), e[1]), e[2]), e[3]);
            Run(s, e) == Next(Next(Next(Next(four, e[4]), e[5]), e[6]), e[7])
  {
    hide Next;
    RunFour(s, e[..4]);
    RunFour(Run(s, e[..4]), e[4..]);
    RunThen(s, e[..4], e[4..]);
    assert e[..4] + e[4..] == e;
  }

  lemma RunFour(s: System, e: seq<Event>)
    requires s.WellFormed() && |e| == 4
    ensures Run(s, e) == Next(Next(Next(Next(s, e[0]), e[1]), e[2]), e[3])
  {
    hide Next;
    assert e[..3][..2] == e[..2] && e[..2][..1] == e[..1] && e[..1][..0] == [];
    assert Run(s, e[..1]) == Next(s, e[0]);
    assert Run(s, e[..2]) == Next(Run(s, e[..1]), e[1]);
    assert Run(s, e[..3]) == Next(Run(s, e[..2]), e[2]);
  }
}
