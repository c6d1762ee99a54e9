/**
 The store as its clients see it: every completed transfer takes effect at one moment of the history of commits, as if
 it had been carried out alone, and these moments respect the real-time order of transfers that do not overlap.
 */
module RealTime {
  import opened Text
  import opened Requests
  import opened Storage
  import opened Connection
  import opened ConnectionInvariant
  import opened Grounds
  import opened System
  import opened Peer
  import opened Net
  import opened EndToEnd

  // ---------------------------------------------------------------------------
  // A commit is one upload's own

  /** Whoever sends the result of an upload has committed before, or commits now, as number `|w.log|` of the history. */
  predicate CommitsNow(w: World, w': World, c': Conn) {
    c'.past.point == |w.log| < |w'.log|
  }

  lemma CompletionCommits(w: World, c: Conn, files: FileOutcomes)
    requires c.WellFormed() && c.window == ""
    ensures var r := CompleteUpload(w, c, files);
            && (r.c.state.SendingResult? ==> CommitsNow(w, r.w, r.c))
            && (!r.c.state.SendingResult? ==> r.w.log == w.log)
  {
    hide OkLine, ErrorLine, Disk.Rename, Disk.Contents, Disk.Remove;
  }

  lemma UploadDataCommits(w: World, c: Conn, bytes: string, files: FileOutcomes)
    requires c.WellFormed() && c.window == "" && c.state.ReceivingFile?
    ensures var r := UploadData(w, c, bytes, files);
            && (r.c.state.SendingResult? ==> CommitsNow(w, r.w, r.c))
            && (!r.c.state.SendingResult? ==> r.w.log == w.log)
  {
    hide UploadData, QueueError, CompleteUpload, Disk.Append;
    if !files.canWrite {
      WriteFails(w, c, bytes, files);
      RefusalEnds(w, c.(past := c.past.HearsPayload(bytes, files)), "storage-failure");
    } else if c.transferred + |bytes| > c.expected {
      WriteOverflows(w, c, bytes, files);
      RefusalEnds(Appended(w, c, bytes[..c.expected - c.transferred]),
                  c.(transferred := c.expected, past := c.past.HearsPayload(bytes, files)), "protocol-error");
    } else if c.transferred + |bytes| == c.expected {
      WriteCompletes(w, c, bytes, files);
      CompletionCommits(Appended(w, c, bytes), Grown(c, bytes, files), files);
    } else {
      WriteGoesOn(w, c, bytes, files);
    }
  }

  lemma RequestDataCommitsNot(w: World, c: Conn, bytes: string, files: FileOutcomes)
    requires c.WellFormed() && c.window == "" && c.Live() && c.state.AwaitingRequest?
    ensures var r := RequestData(w, c, bytes, files); r.w.log == w.log && !r.c.state.SendingResult?
  {
    RequestDataRemembers(w, c, bytes, files);
    hide ParseRequest, OkLine, ErrorLine, TempName, Find;
  }

  lemma ReadPartCommits(w: World, c: Conn, i: Input)
    requires c.WellFormed() && c.Live()
    ensures var r := ReadPart(w, c, i);
            && (c.state.SendingResult? ==> r == Step(w, c, true))
            && (!c.state.SendingResult? && r.c.state.SendingResult? ==> CommitsNow(w, r.w, r.c))
            && (!r.c.state.SendingResult? ==> r.w.log == w.log)
  {
    hide RequestData, UploadData;
    var outcome := Settled(i.recvs);
    if outcome.Data? {
      if c.state.AwaitingRequest? {
        RequestDataCommitsNot(w, c, outcome.bytes, i.files);
      } else if c.state.ReceivingFile? {
        UploadDataCommits(w, c, outcome.bytes, i.files);
      }
    }
  }

  lemma WritableCommits(w: World, c: Conn, sends: seq<SendOutcome>, files: FileOutcomes)
    requires c.WellFormed()
    ensures var r := Writable(w, c, sends, files);
            && (c.state.SendingResult? ==> r.w == w && r.c.state.SendingResult? && r.c.past.point == c.past.point)
            && (!c.state.SendingResult? && r.c.state.SendingResult? ==> CommitsNow(w, r.w, r.c))
  {
    if c.state.SendingFile? {
      WindowOnly(w, c, if sends == [] then SendWouldBlock else sends[0], files);
      hide FileWritable;
    } else if !c.WantsInput() {
      var f := FlushPending(c, sends);
      assert f.c.window == "" && OnlyFlushed(c, f.c);
      CompletionCommits(w, f.c, files);
      hide FlushPending, CompleteUpload;
    }
  }

  /** An event leaves the point of a result as it is; a new result is that of a commit made by this event. */
  lemma DispatchCommits(w: World, c: Conn, i: Input)
    requires c.WellFormed() && c.Live()
    ensures var r := Dispatch(w, c, i);
            r.c.state.SendingResult? ==>
              (c.state.SendingResult? && r.c.past.point == c.past.point) || CommitsNow(w, r.w, r.c)
  {
    DispatchParts(w, c, i);
    ReadPartCommits(w, c, i);
    var r := ReadPart(w, c, i);
    WritableCommits(r.w, r.c, i.sends, i.files);
    hide Dispatch, ReadPart, Writable, Disk.Remove, Conn.WellFormed;
  }

  /** Different connections have made different commits. */
  ghost predicate OwnPoints(s: System) {
    && (forall i | 0 <= i < |s.conns| && s.conns[i].state.SendingResult? :: s.conns[i].past.point < |s.w.log|)
    && (forall i, j | 0 <= i < j < |s.conns| && s.conns[i].state.SendingResult? && s.conns[j].state.SendingResult? ::
          s.conns[i].past.point != s.conns[j].past.point)
  }

  lemma OnePointMoves(s: System, id: nat, r: Step)
    requires OwnPoints(s) && id < |s.conns| && s.w.log <= r.w.log
    requires r.c.state.SendingResult? ==>
               || (s.conns[id].state.SendingResult? && r.c.past.point == s.conns[id].past.point)
               || CommitsNow(s.w, r.w, r.c)
    ensures OwnPoints(System(r.w, s.conns[id := r.c]))
  {
  }

  lemma NextOwnPoints(s: System, e: Event)
    requires s.WellFormed() && OwnPoints(s)
    ensures OwnPoints(Next(s, e))
  {
    if Possible(s, e) {
      match e {
        case Accept(fd) =>
        case Handle(id, input) =>
          DispatchCommits(s.w, s.conns[id], input);
          DispatchRemembers(s.w, s.conns[id], input);
          hide Dispatch, OwnPoints;
          OnePointMoves(s, id, Dispatch(s.w, s.conns[id], input));
        case Drop(id) =>
          var r := CloseClient(s.w, s.conns[id]);
          assert r.w.log == s.w.log && r.c.state == s.conns[id].state && r.c.past == s.conns[id].past;
          hide CloseClient, OwnPoints;
          OnePointMoves(s, id, r);
      }
    }
  }

  lemma {:induction false} RunOwnPoints(n: Net, events: seq<NetEvent>)
    requires Joined(n) && OwnPoints(n.sys)
    ensures OwnPoints(RunNet(n, events).sys)
  {
    hide OwnPoints, NetNext, Next, Joined, System.WellFormed;
    if events != [] {
      var before, e := RunNet(n, events[..|events| - 1]), events[|events| - 1];
      RunOwnPoints(n, events[..|events| - 1]);
      ServerPartMoves(before, e);
      if ServerPart(e).Some? {
        JoinedSystem(before);
        NextOwnPoints(before.sys, ServerPart(e).value);
      }
    }
  }

  lemma JoinedSystem(n: Net)
    requires Joined(n)
    ensures n.sys.WellFormed()
  {
  }

  // ---------------------------------------------------------------------------
  // What has been answered stays

  predicate Answering(c: Conn) {
    IsServing(c) || c.state.SendingResult? || c.state.SendingError?
  }

  predicate SameAnswer(c: Conn, c': Conn) {
    Answering(c) ==> Answering(c') && c'.past.point == c.past.point
  }

  lemma WritableAnswers(w: World, c: Conn, sends: seq<SendOutcome>, files: FileOutcomes)
    requires c.WellFormed()
    ensures SameAnswer(c, Writable(w, c, sends, files).c)
  {
    if c.state.SendingFile? {
      WindowOnly(w, c, if sends == [] then SendWouldBlock else sends[0], files);
      hide FileWritable;
    } else if !c.WantsInput() {
      var f := FlushPending(c, sends);
      assert f.c.window == "" && OnlyFlushed(c, f.c);
      hide FlushPending, CompleteUpload;
    }
  }

  lemma DispatchAnswers(w: World, c: Conn, i: Input)
    requires c.WellFormed() && c.Live()
    ensures SameAnswer(c, Dispatch(w, c, i).c)
  {
    DispatchParts(w, c, i);
    var r := ReadPart(w, c, i);
    assert Answering(c) ==> r.c == c by {
      hide RequestData, UploadData;
    }
    WritableAnswers(r.w, r.c, i.sends, i.files);
    hide Dispatch, ReadPart, Writable, Disk.Remove, Conn.WellFormed;
  }

  lemma NextAnswers(s: System, e: Event, id: nat)
    requires s.WellFormed() && id < |s.conns|
    ensures id < |Next(s, e).conns| && SameAnswer(s.conns[id], Next(s, e).conns[id])
  {
    hide Dispatch, Conn.WellFormed;
    if e.Handle? && Possible(s, e) && e.id == id {
      DispatchAnswers(s.w, s.conns[id], e.input);
    }
  }

  /** A client that is done does nothing more. */
  lemma DoneStays(n: Net, e: NetEvent, id: nat)
    requires Joined(n) && id in n.links && n.links[id].peer.phase.Done?
    ensures var n' := NetNext(n, e); id in n'.links && n'.links[id].peer == n.links[id].peer
  {
    hide Next, RunPeer, TextOf, AskedBy;
  }

  lemma {:induction false} AnswersStay(n: Net, events: seq<NetEvent>, id: nat)
    requires Joined(n) && id < |n.sys.conns| && id in n.links && n.links[id].peer.phase.Done?
    ensures var n' := RunNet(n, events);
            && id < |n'.sys.conns| && SameAnswer(n.sys.conns[id], n'.sys.conns[id])
            && id in n'.links && n'.links[id].peer == n.links[id].peer
  {
    hide NetNext, Next, Joined, System.WellFormed;
    if events != [] {
      var before, e := RunNet(n, events[..|events| - 1]), events[|events| - 1];
      AnswersStay(n, events[..|events| - 1], id);
      DoneStays(before, e, id);
      ServerPartMoves(before, e);
      if ServerPart(e).Some? {
        JoinedSystem(before);
        NextAnswers(before.sys, ServerPart(e).value, id);
      }
    }
  }

  // ---------------------------------------------------------------------------
  // Linearizability

  /** The client of connection `id` has reported success. */
  ghost predicate Completed(d0: Disk, events: seq<NetEvent>, id: nat) {
    Serves(d0, events, id) && After(d0, events).links[id].peer.phase == Done(true)
  }

  /** How much of the history a transfer has seen. */
  function Point(n: Net, id: nat): nat {
    if id < |n.sys.conns| then n.sys.conns[id].past.point else 0
  }

  /** How much of the history there is once it has taken effect: an upload adds its own commit. */
  function Moment(n: Net, id: nat): nat {
    Point(n, id) + if id in n.links && n.links[id].peer.job.Upload? then 1 else 0
  }

  /** A transfer does what it would do alone: an upload is one commit, and a download reads the store at its point. */
  ghost predicate Legal(d0: Disk, n: Net, id: nat)
    requires d0.Valid()
  {
    && id in n.links && Moment(n, id) <= |n.sys.w.log|
    && var p := n.links[id].peer;
    if p.job.Upload? then n.sys.w.log[Point(n, id)] == Commit(p.remote, p.job.local)
    else ServedFrom(Replay(d0.Visible(), n.sys.w.log[..Point(n, id)]), p.remote, p.file)
  }

  lemma CompletedIsLegal(d0: Disk, events: seq<NetEvent>, id: nat)
    requires Completed(d0, events, id)
    ensures d0.Valid() && Legal(d0, After(d0, events), id)
    ensures Moment(After(d0, events), id) <= |After(d0, events).sys.w.log|
    ensures var n := After(d0, events);
            && id < |n.sys.conns| && Answering(n.sys.conns[id])
            && (n.links[id].peer.job.Upload? ==> n.sys.conns[id].state.SendingResult?)
  {
    hide Paired, After, NetInv, CleanNetRun, SafeFilename, Replay, Disk.Visible;
    var n := After(d0, events);
    PairOf(d0, events, id);
    if n.links[id].peer.job.Upload? {
      UploadIsCommitted(d0.Visible(), n.sys.w, n.sys.conns[id], n.links[id]);
    } else {
      DownloadIsVersion(d0.Visible(), n.sys.w, n.sys.conns[id], n.links[id]);
    }
  }

  /** A completed transfer stays completed, at the same moment. */
  lemma CompletedStays(d0: Disk, events: seq<NetEvent>, more: seq<NetEvent>, id: nat)
    requires Completed(d0, events, id) && CleanNetRun(d0, events + more)
    ensures Completed(d0, events + more, id)
    ensures var n, n' := After(d0, events), After(d0, events + more);
            Point(n', id) == Point(n, id) && Moment(n', id) == Moment(n, id)
  {
    CompletedIsLegal(d0, events, id);
    AfterThen(d0, events, more);
    hide After, CleanNetRun, SafeFilename, Legal, Answering;
    AnswersStay(After(d0, events), more, id);
  }

  /** Of two transfers of which one has been completed before the other was accepted, the first takes effect first. */
  lemma {:induction false} RealTimeOrder(d0: Disk, events: seq<NetEvent>, more: seq<NetEvent>, first: nat, second: nat)
    requires Completed(d0, events, first) && |After(d0, events).sys.conns| <= second
    requires Completed(d0, events + more, second)
    ensures Completed(d0, events + more, first)
    ensures var n := After(d0, events + more); Moment(n, first) <= Point(n, second)
  {
    PairOf(d0, events + more, second);
    hide After, CleanNetRun, SafeFilename, Legal, Answering, Point, Moment, Paired, NetInv;
    CompletedIsLegal(d0, events, first);
    CompletedStays(d0, events, more, first);
    SeesAllBefore(d0, events, more, second);
  }

  /** A transfer accepted later has seen all of the history so far. */
  lemma SeesAllBefore(d0: Disk, events: seq<NetEvent>, more: seq<NetEvent>, id: nat)
    requires Completed(d0, events + more, id) && |After(d0, events).sys.conns| <= id
    ensures |After(d0, events).sys.w.log| <= Point(After(d0, events + more), id)
  {
    hide After, CleanNetRun, SafeFilename, Legal, Paired, NetInv;
    CompletedIsLegal(d0, events + more, id);
    PairOf(d0, events + more, id);
    LaterPoint(d0, events, more, id);
    var n := After(d0, events + more);
    if n.links[id].peer.job.Download? {
      DownloadIsVersion(d0.Visible(), n.sys.w, n.sys.conns[id], n.links[id]);
    }
    SecondAsked(d0.Visible(), n.sys.w, n.sys.conns[id], n.links[id]);
  }

  lemma SecondAsked(init: map<string, string>, w: World, c: Conn, l: Link)
    requires Paired(init, w, c, l) && (IsServing(c) || c.state.SendingResult?)
    ensures c.past.asked.Some?
  {
    AskedIsMeant(init, w, c, l);
  }

  /** Two completed uploads are two different commits. */
  lemma CommitsDiffer(d0: Disk, events: seq<NetEvent>, first: nat, second: nat)
    requires Completed(d0, events, first) && Completed(d0, events, second) && first != second
    requires var n := After(d0, events); n.links[first].peer.job.Upload? && n.links[second].peer.job.Upload?
    ensures var n := After(d0, events); Point(n, first) != Point(n, second)
  {
    CompletedIsLegal(d0, events, first);
    CompletedIsLegal(d0, events, second);
    RunOwnPoints(StartNet(d0), events);
    hide RunNet, CleanNetRun, SafeFilename, Legal, Answering;
  }

  /** All of that together, for one run. */
  ghost predicate Linearized(d0: Disk, events: seq<NetEvent>)
    requires d0.Valid()
  {
    var n := After(d0, events);
    && (forall id | Completed(d0, events, id) :: Legal(d0, n, id))
    && (forall i, j | Completed(d0, events, i) && Completed(d0, events, j) && i != j
            && n.links[i].peer.job.Upload? && n.links[j].peer.job.Upload? :: Point(n, i) != Point(n, j))
    && (forall k, i, j | 0 <= k <= |events| && Completed(d0, events[..k], i) && Completed(d0, events, j)
            && |After(d0, events[..k]).sys.conns| <= j :: Moment(n, i) <= Point(n, j))
  }

  /**
   Linearizability, as the clients see it: in every run with any number of clients each completed upload is a commit of
   its own, each completed download reads what the commits before its point have left, and whatever has been completed
   before another transfer is accepted takes effect before it.
   */
  lemma {:induction false} RunsAreLinearized(d0: Disk, events: seq<NetEvent>)
    requires d0.Valid() && CleanNetRun(d0, events)
    ensures Linearized(d0, events)
  {
    hide After, CleanNetRun, SafeFilename, Legal, Moment, Point;
    forall id | Completed(d0, events, id)
      ensures Legal(d0, After(d0, events), id)
    {
      CompletedIsLegal(d0, events, id);
    }
    forall i, j | Completed(d0, events, i) && Completed(d0, events, j) && i != j
        && After(d0, events).links[i].peer.job.Upload? && After(d0, events).links[j].peer.job.Upload?
      ensures Point(After(d0, events), i) != Point(After(d0, events), j)
    {
      CommitsDiffer(d0, events, i, j);
    }
    forall k, i, j | 0 <= k <= |events| && Completed(d0, events[..k], i) && Completed(d0, events, j)
        && |After(d0, events[..k]).sys.conns| <= j
      ensures Moment(After(d0, events), i) <= Point(After(d0, events), j)
    {
      assert events[..k] + events[k..] == events;
      RealTimeOrder(d0, events[..k], events[k..], i, j);
    }
  }
}
