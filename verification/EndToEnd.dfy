/**
 What a client may conclude: a transfer that the client program reports as successful has moved exactly the bytes
 of one committed version of the file, and a client that follows the protocol is never told that it does not.
 */
module EndToEnd {
  import opened Text
  import opened Requests
  import opened Storage
  import opened Connection
  import opened ConnectionInvariant
  import opened Transcript
  import opened Grounds
  import opened System
  import opened Linearizability
  import opened Peer
  import opened Net

  // ---------------------------------------------------------------------------
  // The first line of what each side says

  lemma OkLineReads(n: nat)
    ensures '\n' !in "OK " + ToDecimal(n) && OkLine(n) == "OK " + ToDecimal(n) + "\n"
    ensures OkSizeOf("OK " + ToDecimal(n)) == if n <= UINT64_MAX then Some(n) else None
    ensures !IsErrorLine("OK " + ToDecimal(n))
  {
    DecimalIsWord(n);
    assert ("OK " + ToDecimal(n))[3..] == ToDecimal(n);
    PrintedNumberParses(n);
    assert ("OK " + ToDecimal(n))[0] == 'O';
  }

  lemma FirstLine(line: string, rest: string, t: string)
    requires '\n' !in line && '\n' in t && t <= line + "\n" + rest
    ensures HeaderOf(t) == line && Find(t, '\n') == |line| && line + "\n" <= t && t[|line| + 1..] <= rest
  {
    var s := line + "\n" + rest;
    assert s[..|line|] == line && s[|line|] == '\n';
    FindIs(s, '\n', |line|);
    FindInPrefix(t, s, '\n');
  }

  lemma OkHeader(received: string, n: nat, contents: string)
    requires received <= OkLine(n) + contents && '\n' in received
    ensures HeaderOf(received) == "OK " + ToDecimal(n)
    ensures OkSizeOf(HeaderOf(received)).Some? ==> OkSizeOf(HeaderOf(received)) == Some(n)
    ensures OkLine(n) <= received && received[|OkLine(n)|..] <= contents
  {
    OkLineReads(n);
    FirstLine("OK " + ToDecimal(n), contents, received);
  }

  /** The first bytes of what a connection has said tell its state. */
  lemma StateBehind(init: map<string, string>, w: World, c: Conn)
    requires c in GoodConns(init, w)
    ensures c.past.sent != "" && c.past.sent[0] == 'O' ==> c.state.SendingGetHeader? || c.state.SendingFile?
    ensures |c.past.sent| > 6 && c.past.sent[0] == 'R' && c.past.sent[6] == 'O' ==> c.state.SendingResult?
    ensures c.past.sent != "" ==> !c.state.AwaitingRequest?
  {
    PrefixOfPromise(c);
    if c.state.SendingError? {
      var reason :| Promised(c) == ErrorLine(reason) || Promised(c) == READY_LINE + ErrorLine(reason);
    }
  }

  // ---------------------------------------------------------------------------
  // One connection and the client at its other end

  /** The invariants of both ends; the client program refuses to start with an unsafe remote name. */
  ghost predicate Paired(init: map<string, string>, w: World, c: Conn, l: Link) {
    && c in GoodConns(init, w) && c in HeardConns() && c in GroundedConns(init, w)
    && l in GoodLinks(c.past) && SafeFilename(l.peer.remote)
  }

  lemma PairPrefixes(past: Past, l: Link)
    requires l in GoodLinks(past)
    ensures l.peer in GoodPeers() && past.received <= l.peer.sent <= FullText(l.peer) && l.peer.received <= past.sent
  {
    SendsInOrder(l.peer);
    hide GoodPeers, FullText;
  }

  lemma NameHasNoNewline(request: Request)
    requires SafeFilename(request.filename)
    ensures '\n' !in PrintRequest(request)
  {
    SafeFilenameIsWord(request.filename);
    if request.Put? {
      DecimalIsWord(request.size);
    }
  }

  /** Once the server has a first line, it is the request that the client meant, and the rest is the payload. */
  lemma HearsRequest(p: Peer, received: string)
    requires received <= FullText(p) && SafeFilename(p.remote) && '\n' in received
    ensures RequestText(p) <= received && received == RequestText(p) + Tail(received)
    ensures Find(received, '\n') + 1 == |RequestText(p)|
    ensures received[..Find(received, '\n')] == PrintRequest(AskedBy(p.job, p.remote))
    ensures Tail(received) <= if p.job.Upload? then p.job.local else ""
    ensures var request := AskedBy(p.job, p.remote);
            RequestOf(received) == if ValidRequest(request) then Some(request) else None
  {
    var request := AskedBy(p.job, p.remote);
    var rest := if p.job.Upload? then p.job.local else "";
    NameHasNoNewline(request);
    hide SafeFilename, PrintRequest, Find, RequestOf, Tail, AskedBy, ValidRequest;
    FirstLineHeard(PrintRequest(request), rest, received);
    RequestHeardFully(request, received);
  }

  lemma FirstLineHeard(line: string, rest: string, received: string)
    requires '\n' !in line && '\n' in received && received <= line + "\n" + rest
    ensures line + "\n" <= received && received == (line + "\n") + Tail(received) && Tail(received) <= rest
    ensures Find(received, '\n') == |line| && received[..|line|] == line
  {
    FirstLine(line, rest, received);
    hide Find;
    assert received[..|line| + 1] == line + "\n";
  }

  lemma RequestHeardFully(request: Request, received: string)
    requires SafeFilename(request.filename) && '\n' in received && Find(received, '\n') == |PrintRequest(request)|
    requires received[..|PrintRequest(request)|] == PrintRequest(request)
    ensures RequestOf(received) == if ValidRequest(request) then Some(request) else None
  {
    ParsedBack(request);
    hide ParseRequest, PrintRequest, SafeFilename, Find, ValidRequest;
  }

  lemma ParsedBack(request: Request)
    requires SafeFilename(request.filename)
    ensures ValidRequest(request) ==>
              ParseRequest(PrintRequest(request)) == Accepted(request) && |PrintRequest(request)| <= MAX_REQUEST_LINE
    ensures !ValidRequest(request) ==> ParseRequest(PrintRequest(request)) == Rejected("invalid-size")
  {
    if ValidRequest(request) {
      RequestRoundTrip(request);
    } else {
      PrintedWords(request);
      ParseRequestExact(PrintRequest(request));
      PrintedNumberParses(request.size);
    }
  }

  /** The request of a connection is what its client meant to ask. */
  lemma AskedIsMeant(init: map<string, string>, w: World, c: Conn, l: Link)
    requires Paired(init, w, c, l) && !c.state.AwaitingRequest? && !c.state.SendingError?
    ensures var request := AskedBy(l.peer.job, l.peer.remote);
            && ValidRequest(request) && c.past.asked == Some(request)
            && c.past.received == RequestText(l.peer) + c.past.payload
            && c.past.payload <= if l.peer.job.Upload? then l.peer.job.local else ""
  {
    PairPrefixes(c.past, l);
    assert Transcript.Parsed(c);
    RequestHasNewline(c.past.received);
    HearsRequest(l.peer, c.past.received);
  }

  /** The header that a download gets, and what follows it, is one version of the file. */
  lemma DownloadIsVersion(init: map<string, string>, w: World, c: Conn, l: Link)
    requires Paired(init, w, c, l) && l.peer.job.Download? && l.peer.phase == Done(true)
    ensures c.past.point <= |w.log| && ServedFrom(Replay(init, w.log[..c.past.point]), l.peer.remote, l.peer.file)
    ensures c.state.SendingGetHeader? || c.state.SendingFile?
  {
    var p := l.peer;
    PairPrefixes(c.past, l);
    assert Split(p, |p.file|);
    HeaderStarts(p.received, |p.file|);
    StateBehind(init, w, c);
    AskedIsMeant(init, w, c, l);
    ServingSpeaks(init, w, c);
    var contents := Replay(init, w.log[..c.past.point])[p.remote];
    FileIsContents(p, contents);
  }

  lemma HeaderStarts(received: string, size: nat)
    requires Find(received, '\n') < |received| && OkSizeOf(HeaderOf(received)) == Some(size)
    ensures received[0] == 'O' && '\n' in received
  {
    assert HeaderOf(received)[0] == 'O';
  }

  lemma FileIsContents(p: Peer, contents: string)
    requires Split(p, |p.file|) && p.received <= OkLine(|contents|) + contents
    ensures p.file == contents
  {
    FindAbsent(p.received, '\n');
    OkHeader(p.received, |contents|, contents);
    hide OkSizeOf;
    assert OkLine(|contents|) == HeaderOf(p.received) + "\n";
    assert p.received[|OkLine(|contents|)|..] == p.file + p.buffered;
  }

  /** An upload that is confirmed has been committed, whole. */
  lemma UploadIsCommitted(init: map<string, string>, w: World, c: Conn, l: Link)
    requires Paired(init, w, c, l) && l.peer.job.Upload? && l.peer.phase == Done(true)
    ensures c.past.point < |w.log| && w.log[c.past.point] == Commit(l.peer.remote, l.peer.job.local)
    ensures c.state.SendingResult?
  {
    var p := l.peer;
    PairPrefixes(c.past, l);
    assert Confirmed(p.received, |p.job.local|) by {
      hide GoodConns, HeardConns, GroundedConns, TextOf, AskedBy;
    }
    ConfirmationStarts(p.received, |p.job.local|);
    StateBehind(init, w, c);
    hide Paired, Confirmed, GoodPeers, GoodLinks;
    assert c.state.SendingResult?;
    AskedIsMeant(init, w, c, l);
    StoredMeans(init, w, c, l);
  }

  lemma StoredMeans(init: map<string, string>, w: World, c: Conn, l: Link)
    requires Paired(init, w, c, l) && l.peer.job.Upload? && c.state.SendingResult?
    requires c.past.asked == Some(AskedBy(l.peer.job, l.peer.remote)) && c.past.payload <= l.peer.job.local
    ensures c.past.point < |w.log| && w.log[c.past.point] == Commit(l.peer.remote, l.peer.job.local)
  {
    assert Stored(w, c);
    hide HeardConns, GroundedConns, GoodLinks, GoodPeers, SafeFilename;
  }

  lemma ConfirmationStarts(received: string, size: nat)
    requires Confirmed(received, size)
    ensures |received| > 6 && received[0] == 'R' && received[6] == 'O'
  {
    var rest := received[|READY_LINE|..];
    HeaderStarts(rest, size);
    assert received[6] == rest[0];
  }

  // ---------------------------------------------------------------------------
  // Why a client that follows the protocol is refused

  /** Its request was understood, and then denied, or an upload failed on the disk. */
  ghost predicate FairRefusal(p: Peer, past: Past, reason: string) {
    && past.asked == Some(AskedBy(p.job, p.remote))
    && (Denied(past, reason)
        || (p.job.Upload? && reason == "storage-failure"
            && !(past.calls.canWrite && past.calls.canClose && past.calls.canRename)))
  }

  lemma ShortWithoutNewline(p: Peer, received: string)
    requires received <= FullText(p) && ValidRequest(AskedBy(p.job, p.remote)) && '\n' !in received
    ensures |received| <= MAX_REQUEST_LINE && Find(received, '\n') == |received|
  {
    var line := PrintRequest(AskedBy(p.job, p.remote));
    PrintedLineFits(AskedBy(p.job, p.remote));
    assert FullText(p)[|line|] == '\n';
    FindAbsent(received, '\n');
  }

  /** No payload is sent before `READY` has come back, so a plain error line answers the request alone. */
  lemma OnlyRequestBeforeReady(c: Conn, l: Link, reason: string)
    requires c.WellFormed() && l in GoodLinks(c.past) && c.past.sent <= ErrorLine(reason)
    requires RequestText(l.peer) <= c.past.received
    ensures c.past.received == RequestText(l.peer)
  {
    SendsInOrder(l.peer);
    assert ErrorLine(reason)[0] == 'E';
    hide FullText, GoodPeers, TextOf, AskedBy;
  }

  /** The line of such a client is never rejected. */
  lemma LineAccepted(p: Peer, received: string, reason: string)
    requires ValidRequest(AskedBy(p.job, p.remote)) && received <= FullText(p)
    requires '\n' in received ==> received == RequestText(p)
    ensures !RejectedLine(received, reason)
  {
    FindAbsent(received, '\n');
    if '\n' in received {
      HearsRequest(p, received);
      ParsedBack(AskedBy(p.job, p.remote));
    } else {
      ShortWithoutNewline(p, received);
    }
    hide PrintRequest, ParseRequest, Find, ValidRequest, FullText, TextOf;
  }

  lemma AskedFromStream(p: Peer, past: Past)
    requires ValidRequest(AskedBy(p.job, p.remote)) && past.received <= FullText(p)
    requires past.asked.Some? && past.asked == RequestOf(past.received)
    ensures past.asked == Some(AskedBy(p.job, p.remote)) && '\n' in past.received
    ensures Tail(past.received) <= if p.job.Upload? then p.job.local else ""
  {
    RequestHasNewline(past.received);
    HearsRequest(p, past.received);
  }

  lemma PairFraming(init: map<string, string>, w: World, c: Conn, l: Link, reason: string)
    requires Paired(init, w, c, l) && ValidRequest(AskedBy(l.peer.job, l.peer.remote))
    requires c.WellFormed() && Blames(c, reason)
    ensures FairRefusal(l.peer, c.past, reason)
  {
    PairPrefixes(c.past, l);
    PrefixOfPromise(c);
    hide GoodConns, HeardConns, GroundedConns, GoodPeers, FullText, Denied, RejectedLine, ValidRequest, AskedBy,
         RequestOf, Tail;
    if c.past.asked.None? {
      LineRefusal(l, c, reason);
    } else {
      AskedFromStream(l.peer, c.past);
      hide PrintRequest;
      PayloadFits(l.peer, c.past);
    }
  }

  lemma PayloadFits(p: Peer, past: Past)
    requires past.asked == Some(AskedBy(p.job, p.remote))
    requires Tail(past.received) <= if p.job.Upload? then p.job.local else ""
    ensures p.job.Upload? <==> past.asked.value.Put?
    ensures p.job.Upload? ==> |Tail(past.received)| <= past.asked.value.size
  {
  }

  lemma LineRefusal(l: Link, c: Conn, reason: string)
    requires ValidRequest(AskedBy(l.peer.job, l.peer.remote)) && l in GoodLinks(c.past)
    requires c.WellFormed() && c.past.received <= FullText(l.peer) && SafeFilename(l.peer.remote)
    requires c.past.sent <= ErrorLine(reason)
    ensures !RejectedLine(c.past.received, reason)
  {
    if '\n' in c.past.received {
      HearsRequest(l.peer, c.past.received);
      OnlyRequestBeforeReady(c, l, reason);
    }
    hide GoodLinks, ValidRequest, SafeFilename, RejectedLine, FullText, RequestText;
    LineAccepted(l.peer, c.past.received, reason);
  }

  // ---------------------------------------------------------------------------
  // Every run

  /** A run of the whole network after which connection `id` has a client program at its other end. */
  ghost predicate Serves(d0: Disk, events: seq<NetEvent>, id: nat) {
    && d0.Valid() && CleanNetRun(d0, events)
    && id in After(d0, events).links && SafeFilename(After(d0, events).links[id].peer.remote)
  }

  lemma PairOf(d0: Disk, events: seq<NetEvent>, id: nat)
    requires Serves(d0, events, id)
    ensures var n := After(d0, events);
            && d0.Valid() && NetInv(d0, n) && id < |n.sys.conns|
            && Paired(d0.Visible(), n.sys.w, n.sys.conns[id], n.links[id]) && n.sys.w in GoodWorlds(d0.Visible())
  {
    EveryNetRunIsGood(d0, events);
    hide GoodConns, HeardConns, GroundedConns, GoodWorlds, GoodLinks, After, Joined, CleanNetRun;
  }

  /** An upload that reports success has been committed: exactly the local bytes, under the remote name. */
  lemma {:induction false} EndToEndUpload(d0: Disk, events: seq<NetEvent>, id: nat)
    requires Serves(d0, events, id)
    requires var p := After(d0, events).links[id].peer; p.job.Upload? && p.phase == Done(true)
    ensures id < |After(d0, events).sys.conns|
    ensures var n := After(d0, events); var point := n.sys.conns[id].past.point; var p := n.links[id].peer;
            point < |n.sys.w.log| && n.sys.w.log[point] == Commit(p.remote, p.job.local)
  {
    hide Paired, After, NetInv, CleanNetRun, SafeFilename;
    PairOf(d0, events, id);
    var n := After(d0, events);
    UploadIsCommitted(d0.Visible(), n.sys.w, n.sys.conns[id], n.links[id]);
  }

  /** The commit comes before the first byte of the line that confirms it. */
  lemma {:induction false} CommitPrecedesOk(d0: Disk, events: seq<NetEvent>, id: nat)
    requires Serves(d0, events, id)
    requires var n := After(d0, events);
             n.links[id].peer.job.Upload? && id < |n.sys.conns| && READY_LINE + "O" <= n.sys.conns[id].past.sent
    ensures var n := After(d0, events); var point := n.sys.conns[id].past.point; var p := n.links[id].peer;
            point < |n.sys.w.log| && n.sys.w.log[point] == Commit(p.remote, p.job.local)
  {
    hide Paired, After, NetInv, CleanNetRun, SafeFilename, READY_LINE;
    PairOf(d0, events, id);
    var n := After(d0, events);
    PairCommitted(d0.Visible(), n.sys.w, n.sys.conns[id], n.links[id]);
  }

  lemma PairCommitted(init: map<string, string>, w: World, c: Conn, l: Link)
    requires Paired(init, w, c, l) && l.peer.job.Upload? && READY_LINE + "O" <= c.past.sent
    ensures c.past.point < |w.log| && w.log[c.past.point] == Commit(l.peer.remote, l.peer.job.local)
  {
    assert (READY_LINE + "O")[0] == 'R' && (READY_LINE + "O")[6] == 'O';
    StateBehind(init, w, c);
    CommittedLocal(init, w, c, l);
  }

  lemma CommittedLocal(init: map<string, string>, w: World, c: Conn, l: Link)
    requires Paired(init, w, c, l) && l.peer.job.Upload? && c.state.SendingResult?
    ensures c.past.point < |w.log| && w.log[c.past.point] == Commit(l.peer.remote, l.peer.job.local)
  {
    AskedIsMeant(init, w, c, l);
    hide GoodLinks, HeardConns, GroundedConns, SafeFilename, ValidRequest, TextOf, Promised;
  }

  /**
   A client that follows the protocol is never told otherwise. If it is refused, its request was understood, and an
   upload of at most 16 GiB failed on the disk, or a download was of a name that the store did not have when the
   request was handled, or that could not be looked up, opened or measured.
   */
  lemma {:induction false} FramingNeverFails(d0: Disk, events: seq<NetEvent>, id: nat)
    requires Serves(d0, events, id)
    requires var p := After(d0, events).links[id].peer; ValidRequest(AskedBy(p.job, p.remote))
    ensures var n := After(d0, events); id < |n.sys.conns| && n.sys.conns[id].WellFormed()
    ensures var n := After(d0, events); var c := n.sys.conns[id]; var p := n.links[id].peer;
            c.state.SendingError? ==>
              && c.past.point <= |n.sys.w.log|
              && (exists reason :: FairRefusal(p, c.past, reason) && Blames(c, reason))
              && (p.job.Download? ==>
                    (c.past.missing <==> p.remote !in Replay(d0.Visible(), n.sys.w.log[..c.past.point])))
  {
    hide Paired, After, NetInv, CleanNetRun, SafeFilename, ValidRequest;
    PairOf(d0, events, id);
    var n := After(d0, events);
    PairRefused(d0.Visible(), n.sys.w, n.sys.conns[id], n.links[id]);
  }

  lemma PairRefused(init: map<string, string>, w: World, c: Conn, l: Link)
    requires Paired(init, w, c, l) && ValidRequest(AskedBy(l.peer.job, l.peer.remote))
    ensures c.WellFormed()
    ensures c.state.SendingError? ==>
              && c.past.point <= |w.log|
              && (exists reason :: FairRefusal(l.peer, c.past, reason) && Blames(c, reason))
              && (l.peer.job.Download? ==>
                    (c.past.missing <==> l.peer.remote !in Replay(init, w.log[..c.past.point])))
  {
    hide GoodConns, GoodLinks, ValidRequest, SafeFilename, Blames, FairRefusal;
    ErrorBlamed(c);
    if c.state.SendingError? {
      var reason :| Blames(c, reason);
      PairFraming(init, w, c, l, reason);
      assert c.past.asked == Some(AskedBy(l.peer.job, l.peer.remote)) by {
        FairlyAsked(l.peer, c.past, reason);
      }
    }
  }

  lemma FairlyAsked(p: Peer, past: Past, reason: string)
    requires FairRefusal(p, past, reason)
    ensures past.asked == Some(AskedBy(p.job, p.remote))
  {
  }

  lemma ErrorBlamed(c: Conn)
    requires c in HeardConns()
    ensures c.WellFormed() && (c.state.SendingError? ==> exists reason :: Blames(c, reason))
  {
  }

  // ---------------------------------------------------------------------------
  // Reading back what was written

  /** Connections from `base` on handled their requests when the history was at least `length` commits long. */
  ghost predicate Later(s: System, base: nat, length: nat) {
    && length <= |s.w.log|
    && forall id | base <= id < |s.conns| && s.conns[id].past.asked.Some? :: length <= s.conns[id].past.point
  }

  lemma NextLater(s: System, e: Event, base: nat, length: nat)
    requires s.WellFormed() && Later(s, base, length)
    ensures Later(Next(s, e), base, length) && s.w.log <= Next(s, e).w.log
  {
    hide Dispatch, Conn.WellFormed;
    if Possible(s, e) && e.Handle? {
      DispatchRemembers(s.w, s.conns[e.id], e.input);
    }
  }

  function ServerPart(e: NetEvent): Option<Event> {
    match e
    case Connect(fd, _, _, _) => Some(Accept(fd))
    case Server(ev) => Some(ev)
    case Client(_, _) => None
  }

  lemma ServerPartMoves(n: Net, e: NetEvent)
    requires Joined(n)
    ensures var s' := NetNext(n, e).sys; s' == n.sys || (ServerPart(e).Some? && s' == Next(n.sys, ServerPart(e).value))
  {
    hide Next, Joined;
  }

  lemma {:induction false} RunLater(n: Net, events: seq<NetEvent>, base: nat, length: nat)
    requires Joined(n) && Later(n.sys, base, length)
    ensures Later(RunNet(n, events).sys, base, length) && n.sys.w.log <= RunNet(n, events).sys.w.log
  {
    hide Later, NetNext, Next, RightPhase, Conn.WellFormed;
    if events != [] {
      var before := RunNet(n, events[..|events| - 1]);
      var e := events[|events| - 1];
      RunLater(n, events[..|events| - 1], base, length);
      ServerPartMoves(before, e);
      if ServerPart(e).Some? {
        NextLater(before.sys, ServerPart(e).value, base, length);
      }
    }
  }

  lemma {:induction false} RunNetThen(n: Net, events: seq<NetEvent>, more: seq<NetEvent>)
    requires Joined(n)
    ensures RunNet(n, events + more) == RunNet(RunNet(n, events), more)
  {
    if more == [] {
      assert events + more == events;
    } else {
      var all := events + more;
      assert all[..|all| - 1] == events + more[..|more| - 1];
      RunNetThen(n, events, more[..|more| - 1]);
    }
  }

  /** The last commit under a name decides what the store holds there. */
  lemma {:induction false} LastCommitWins(init: map<string, string>, log: seq<Commit>, k: nat)
    requires k < |log| && forall j | k < j < |log| :: log[j].name != log[k].name
    ensures ServedFrom(Replay(init, log), log[k].name, log[k].contents)
  {
    if k < |log| - 1 {
      LastCommitWins(init, log[..|log| - 1], k);
    }
  }

  lemma ReadsBack(init: map<string, string>, log: seq<Commit>, log': seq<Commit>, first: nat, point: nat, file: string)
    requires log <= log' && first < |log| <= point <= |log'|
    requires forall k | first < k < point :: log'[k].name != log[first].name
    requires ServedFrom(Replay(init, log'[..point]), log[first].name, file)
    ensures file == log[first].contents
  {
    LastCommitWins(init, log'[..point], first);
  }

  lemma AfterThen(d0: Disk, events: seq<NetEvent>, more: seq<NetEvent>)
    ensures After(d0, events + more) == RunNet(After(d0, events), more)
  {
    RunNetThen(StartNet(d0), events, more);
  }

  /**
   A connection accepted after `events` handles its request at a point of the history that is not before their end.
   */
  lemma LaterPoint(d0: Disk, events: seq<NetEvent>, more: seq<NetEvent>, id: nat)
    requires |After(d0, events).sys.conns| <= id < |After(d0, events + more).sys.conns|
    ensures var s, s' := After(d0, events).sys, After(d0, events + more).sys;
            s.w.log <= s'.w.log && (s'.conns[id].past.asked.Some? ==> |s.w.log| <= s'.conns[id].past.point)
  {
    var n := After(d0, events);
    AfterThen(d0, events, more);
    hide After, Joined;
    RunLater(n, more, |n.sys.conns|, |n.sys.w.log|);
  }

  // ---------------------------------------------------------------------------
  // Downloads

  lemma CleanBefore(d0: Disk, events: seq<NetEvent>, k: nat)
    requires CleanNetRun(d0, events) && k <= |events|
    ensures CleanNetRun(d0, events[..k])
  {
    hide After, NoTempRequests;
    assert forall j | 0 <= j <= k :: events[..k][..j] == events[..j];
  }

  lemma OneCommitAtMost(d0: Disk, events: seq<NetEvent>, e: NetEvent)
    requires d0.Valid() && CleanNetRun(d0, events + [e])
    ensures |After(d0, events + [e]).sys.w.log| <= |After(d0, events).sys.w.log| + 1
  {
    var all, n := events + [e], After(d0, events);
    assert all[..|events|] == events && all[..|all|] == all;
    CleanBefore(d0, all, |events|);
    EveryNetRunIsGood(d0, events);
    assert NetInv(d0, n);
    assert After(d0, all) == NetNext(n, e);
    ServerPartMoves(n, e);
    hide After, NetNext, Next, SystemInv;
    if ServerPart(e).Some? && After(d0, all).sys.w.log != n.sys.w.log {
      CommitComesFrom(d0, n.sys, ServerPart(e).value);
    }
  }

  /** The history passes through every length in between. */
  lemma {:induction false} LengthReached(d0: Disk, before: seq<NetEvent>, more: seq<NetEvent>, point: nat)
    requires d0.Valid() && CleanNetRun(d0, before + more)
    requires |After(d0, before).sys.w.log| <= point <= |After(d0, before + more).sys.w.log|
    ensures exists k | |before| <= k <= |before + more| :: |After(d0, (before + more)[..k]).sys.w.log| == point
    decreases |more|
  {
    hide After, CleanNetRun;
    var all := before + more;
    assert all[..|all|] == all;
    if more == [] {
      assert all == before;
    } else {
      if point < |After(d0, all).sys.w.log| {
        var rest, e := more[..|more| - 1], more[|more| - 1];
        assert all == (before + rest) + [e] && all[..|all| - 1] == before + rest;
        CleanBefore(d0, all, |all| - 1);
        OneCommitAtMost(d0, before + rest, e);
        LengthReached(d0, before, rest, point);
        var k :| |before| <= k <= |before + rest| && |After(d0, (before + rest)[..k]).sys.w.log| == point;
        assert (before + rest)[..k] == all[..k];
      }
    }
  }

  /** What the store held under a name at the end of a run. */
  ghost predicate Held(d0: Disk, events: seq<NetEvent>, name: string, contents: string) {
    var disk := After(d0, events).sys.w.disk;
    disk.Valid() && ServedFrom(disk.Visible(), name, contents)
  }

  lemma GoodWorldAfter(d0: Disk, events: seq<NetEvent>)
    requires d0.Valid() && CleanNetRun(d0, events)
    ensures After(d0, events).sys.w in GoodWorlds(d0.Visible())
  {
    hide After, GoodWorlds, CleanNetRun;
    EveryNetRunIsGood(d0, events);
  }

  lemma HeldThen(d0: Disk, events: seq<NetEvent>, k: nat, name: string, contents: string)
    requires d0.Valid() && CleanNetRun(d0, events) && k <= |events|
    requires var log := After(d0, events).sys.w.log; var point := |After(d0, events[..k]).sys.w.log|;
             point <= |log| && ServedFrom(Replay(d0.Visible(), log[..point]), name, contents)
    ensures Held(d0, events[..k], name, contents)
  {
    CleanBefore(d0, events, k);
    GoodWorldAfter(d0, events[..k]);
    assert events[..k] + events[k..] == events;
    LogGrows(d0, events[..k], events[k..]);
    var early, late := After(d0, events[..k]).sys.w, After(d0, events).sys.w;
    hide After, Replay, Disk.Visible, Disk.Valid, ServedFrom, SystemInv;
    assert early.log == late.log[..|early.log|];
  }

  lemma LogGrows(d0: Disk, events: seq<NetEvent>, more: seq<NetEvent>)
    ensures After(d0, events).sys.w.log <= After(d0, events + more).sys.w.log
  {
    AfterThen(d0, events, more);
    var n := After(d0, events);
    hide After, Joined;
    RunLater(n, more, |n.sys.conns|, |n.sys.w.log|);
  }

  /** The point of a successful download lies between its acceptance and its end. */
  lemma {:induction false} DownloadPoint(d0: Disk, before: seq<NetEvent>, more: seq<NetEvent>, id: nat)
    requires Serves(d0, before + more, id) && |After(d0, before).sys.conns| <= id
    requires var p := After(d0, before + more).links[id].peer; p.job.Download? && p.phase == Done(true)
    ensures id < |After(d0, before + more).sys.conns|
    ensures var n := After(d0, before + more); var p := n.links[id].peer; var point := n.sys.conns[id].past.point;
            && |After(d0, before).sys.w.log| <= point <= |n.sys.w.log|
            && ServedFrom(Replay(d0.Visible(), n.sys.w.log[..point]), p.remote, p.file)
  {
    hide Paired, After, NetInv, CleanNetRun, SafeFilename;
    var n := After(d0, before + more);
    PairOf(d0, before + more, id);
    LaterPoint(d0, before, more, id);
    DownloadIsVersion(d0.Visible(), n.sys.w, n.sys.conns[id], n.links[id]);
    DownloadAsked(d0.Visible(), n.sys.w, n.sys.conns[id], n.links[id]);
  }

  lemma DownloadAsked(init: map<string, string>, w: World, c: Conn, l: Link)
    requires Paired(init, w, c, l) && (c.state.SendingGetHeader? || c.state.SendingFile?)
    ensures c.past.asked.Some?
  {
    AskedIsMeant(init, w, c, l);
  }

  /**
   A download that reports success has written exactly the contents that the store held under the name at some moment
   between its acceptance and its end, however the bytes were split on the way and whatever others did meanwhile.
   */
  lemma {:induction false} EndToEndDownload(d0: Disk, before: seq<NetEvent>, more: seq<NetEvent>, id: nat)
    requires Serves(d0, before + more, id) && |After(d0, before).sys.conns| <= id
    requires var p := After(d0, before + more).links[id].peer; p.job.Download? && p.phase == Done(true)
    ensures var p := After(d0, before + more).links[id].peer;
            exists k | |before| <= k <= |before + more| :: Held(d0, (before + more)[..k], p.remote, p.file)
  {
    hide After, CleanNetRun, SafeFilename, Held;
    var all := before + more;
    var n := After(d0, all);
    DownloadPoint(d0, before, more, id);
    LengthReached(d0, before, more, n.sys.conns[id].past.point);
    var k :| |before| <= k <= |all| && |After(d0, all[..k]).sys.w.log| == n.sys.conns[id].past.point;
    HeldThen(d0, all, k, n.links[id].peer.remote, n.links[id].peer.file);
  }

  /** Between commit number `first` and `point` nobody commits under `name`. */
  predicate Undisturbed(log: seq<Commit>, name: string, first: nat, point: nat) {
    forall k | first < k < point && k < |log| :: log[k].name != name
  }

  /**
   Uploading and then downloading under the same name is the identity on bytes: `put` reports success, `get` is
   accepted after that and reports success too, and between the two points nobody else commits under the name.
   */
  lemma {:induction false} PutThenGet(d0: Disk, events: seq<NetEvent>, more: seq<NetEvent>, put: nat, get: nat)
    requires Serves(d0, events, put) && Serves(d0, events + more, get)
    requires var n := After(d0, events); var n' := After(d0, events + more);
             && put < |n.sys.conns| <= get < |n'.sys.conns|
             && var (p, q) := (n.links[put].peer, n'.links[get].peer);
             && p.job.Upload? && p.phase == Done(true)
             && q.job.Download? && q.phase == Done(true) && q.remote == p.remote
             && Undisturbed(n'.sys.w.log, p.remote, n.sys.conns[put].past.point, n'.sys.conns[get].past.point)
    ensures After(d0, events + more).links[get].peer.file == After(d0, events).links[put].peer.job.local
  {
    hide After, CleanNetRun, SafeFilename, Joined;
    EndToEndUpload(d0, events, put);
    DownloadPoint(d0, events, more, get);
    LogGrows(d0, events, more);
    var n, n' := After(d0, events), After(d0, events + more);
    ReadsBack(d0.Visible(), n.sys.w.log, n'.sys.w.log, n.sys.conns[put].past.point, n'.sys.conns[get].past.point,
              n'.links[get].peer.file);
  }
}
