/**
 What the poll array asks for, and what the bits that poll reports can change: those that were asked for, and those that
 were not.
 */
module Requested {
  import opened Text
  import opened Requests
  import opened Storage
  import opened Connection
  import opened Outcomes

  /** Input is asked for exactly in the states in which the handlers read; in all others they write. */
  lemma RequestsMatchHandlers(c: Conn)
    ensures RequestedEvents(c.state) == PollIn <==> c.WantsInput()
    ensures RequestedEvents(c.state) == PollIn <==> c.state == AwaitingRequest || c.state == ReceivingFile
  {
  }

  /** While output is asked for, a readable socket changes nothing. */
  lemma ReadableIgnored(w: World, c: Conn, i: Input)
    requires c.WellFormed() && c.Live() && RequestedEvents(c.state) == PollOut
    ensures Dispatch(w, c, i) == Dispatch(w, c, i.(readable := false))
  {
    hide Writable, CloseClient;
  }

  /** While input is asked for and nothing is read, a writable socket changes nothing. */
  lemma WritableIgnored(w: World, c: Conn, i: Input)
    requires c.WellFormed() && c.Live() && RequestedEvents(c.state) == PollIn && !i.readable
    ensures Dispatch(w, c, i) == Dispatch(w, c, i.(writable := false))
  {
    hide CloseClient, FlushPending, FileWritable, AfterDrain;
  }

  /** An event is its reading, and then the rest of it, if the connection is still open. */
  lemma ReadsThenRest(w: World, c: Conn, i: Input)
    requires c.WellFormed() && c.Live() && i.readable && !i.error
    ensures var r := Dispatch(w, c, i.(writable := false, hangup := false));
            Dispatch(w, c, i) == if r.c.Live() then Dispatch(r.w, r.c, i.(readable := false)) else r
  {
    hide Readable, Writable;
  }

  // ---------------------------------------------------------------------------
  // When a writable socket counts although it was not asked for

  /** None of the calls up to the first one that would block takes anything or fails. */
  predicate Blocked(sends: seq<SendOutcome>, k: nat) {
    && k <= |sends| && (forall j | 0 <= j < k :: sends[j].SendInterrupted?)
    && (k < |sends| ==> sends[k].SendWouldBlock?)
  }

  lemma {:induction false} NothingTaken(sends: seq<SendOutcome>)
    requires forall j | 0 <= j < |sends| :: sends[j].SendInterrupted?
    ensures GoOn(sends) && Total(sends) == 0
  {
    if sends != [] {
      NothingTaken(sends[1..]);
    }
  }

  lemma {:induction false} SomethingTaken(sends: seq<SendOutcome>, j: nat)
    requires GoOn(sends) && j < |sends| && sends[j].Sent?
    ensures Total(sends) > 0
  {
    if j > 0 {
      assert GoOn(sends[1..]) by {
        assert forall l | 0 <= l < |sends| - 1 :: sends[1..][l] == sends[l + 1];
      }
      SomethingTaken(sends[1..], j - 1);
    }
  }

  /** Where a flush stops. */
  lemma StopOf(sends: seq<SendOutcome>) returns (k: nat)
    ensures k <= |sends| && GoOn(sends[..k]) && Stops(CallAt(sends, k))
  {
    k := 0;
    while k < |sends| && !Stops(sends[k])
      invariant k <= |sends| && GoOn(sends[..k])
    {
      k := k + 1;
    }
  }

  lemma BlockedIff(sends: seq<SendOutcome>, k: nat)
    requires k <= |sends| && GoOn(sends[..k]) && Stops(CallAt(sends, k))
    ensures (exists j: nat :: Blocked(sends, j)) <==> Total(sends[..k]) == 0 && CallAt(sends, k).SendWouldBlock?
  {
    assert forall j | 0 <= j < k :: sends[..k][j] == sends[j];
    if j: nat :| j < k && !sends[j].SendInterrupted? {
      SomethingTaken(sends[..k], j);
    } else {
      NothingTaken(sends[..k]);
      assert Blocked(sends, k) <==> CallAt(sends, k).SendWouldBlock?;
    }
  }

  /** There is a control line to be sent. */
  predicate Speaks(c: Conn) {
    SendsLine(c) && c.pendingOffset < |c.pending|
  }

  lemma AnswerChanges(w: World, c: Conn, n: nat, stop: SendOutcome, files: FileOutcomes, r: Step)
    requires c.WellFormed() && c.Live() && Speaks(c) && LineAnswer(w, c, n, stop, files, r)
    ensures r == Step(w, c, true) <==> n == 0 && stop.SendWouldBlock?
  {
    hide Gone;
    assert |LineSent(c, 0).past.sent| == |c.past.sent|;
    assert n < |c.Unsent()| ==> LineSent(c, n).pendingOffset == c.pendingOffset + n;
    assert LineSent(c, 0) == c;
  }

  /** A writable event leaves a connection that has something to say as it is when no call takes or ends anything. */
  lemma {:induction false} WritingChanges(w: World, c: Conn, i: Input)
    requires c.WellFormed() && c.Live() && Speaks(c) && OnlyWritable(i)
    ensures Dispatch(w, c, i) == Step(w, c, true) <==> exists k: nat :: Blocked(i.sends, k)
  {
    hide Dispatch, LineAnswer, GoOn, Stops, Total, Blocked;
    var k := StopOf(i.sends);
    WriteLineEvent(w, c, i, k);
    BlockedIff(i.sends, k);
    AnswerChanges(w, c, Total(i.sends[..k]), CallAt(i.sends, k), i.files, Dispatch(w, c, i));
  }

  lemma RefusalSpeaks(w: World, c: Conn, reason: string)
    requires c.WellFormed() && c.window == ""
    ensures Speaks(QueueError(w, c, reason).c)
  {
  }

  lemma DownloadSpeaks(w: World, c: Conn, name: string, files: FileOutcomes)
    requires c.WellFormed() && c.window == ""
    ensures Speaks(StartGet(w, c, name, files).c)
  {
    hide ToDecimal, RemoveTemporary, Disk.Contents;
  }

  lemma UploadSpeaks(w: World, c: Conn, name: string, size: nat, files: FileOutcomes)
    requires c.WellFormed() && c.window == "" && c.Live()
    ensures Speaks(StartPut(w, c, name, size, files).c)
  {
    hide TempName, RemoveTemporary, Disk.Truncate;
  }

  lemma CompletionSpeaks(w: World, c: Conn, files: FileOutcomes)
    requires c.WellFormed() && c.window == ""
    ensures Speaks(CompleteUpload(w, c, files).c)
  {
    hide ToDecimal, RemoveTemporary, Disk.Rename, Disk.Contents;
  }

  lemma LineSpeaks(w: World, c: Conn, line: string, files: FileOutcomes)
    requires c.WellFormed() && c.window == "" && c.Live()
    ensures Speaks(RequestLine(w, c, line, files).c)
  {
    hide ParseRequest, QueueError, StartGet, StartPut, Speaks;
    match ParseRequest(line) {
      case Rejected(reason) => RefusalSpeaks(w, c, reason);
      case Accepted(request) =>
        var c1 := c.(past := c.past.Asks(request, w, files));
        match request {
          case Get(name) => DownloadSpeaks(w, c1, name, files);
          case Put(name, size) => UploadSpeaks(w, c1, name, size, files);
        }
    }
  }

  lemma RequestLeadsToLine(w: World, c: Conn, bytes: string, files: FileOutcomes)
    requires c.WellFormed() && c.window == "" && c.Live() && c.state.AwaitingRequest?
    ensures var r := RequestData(w, c, bytes, files); r.c.WantsInput() || Speaks(r.c)
  {
    hide Find, QueueError, RequestLine, Speaks;
    var c1 := c.(request := c.request + bytes, past := c.past.Hears(bytes));
    RefusalSpeaks(w, c1, "request-too-long");
    RefusalSpeaks(w, c1, "bad-request");
    LineSpeaks(w, c1.(request := ""), c1.request[..Find(c1.request, '\n')], files);
  }

  lemma UploadLeadsToLine(w: World, c: Conn, bytes: string, files: FileOutcomes)
    requires c.WellFormed() && c.window == "" && c.state.ReceivingFile?
    ensures var r := UploadData(w, c, bytes, files); r.c.WantsInput() || Speaks(r.c)
  {
    hide UploadData, QueueError, CompleteUpload, Disk.Append, Speaks;
    var heard, room := c.past.HearsPayload(bytes, files), c.expected - c.transferred;
    if !files.canWrite {
      WriteFails(w, c, bytes, files);
      RefusalSpeaks(w, c.(past := heard), "storage-failure");
    } else if |bytes| > room {
      WriteOverflows(w, c, bytes, files);
      RefusalSpeaks(Appended(w, c, bytes[..room]), c.(transferred := c.expected, past := heard), "protocol-error");
    } else if |bytes| == room {
      WriteCompletes(w, c, bytes, files);
      CompletionSpeaks(Appended(w, c, bytes), Grown(c, bytes, files), files);
    } else {
      WriteGoesOn(w, c, bytes, files);
    }
  }

  lemma ReadingLeadsToLine(w: World, c: Conn, i: Input)
    requires c.WellFormed() && c.Live() && c.WantsInput() && OnlyReadable(i)
    ensures var r := Dispatch(w, c, i);
            r.c.Live() ==> r == Step(r.w, r.c, true) && (r.c.WantsInput() || Speaks(r.c))
  {
    hide RequestData, UploadData, RemoveTemporary, Speaks;
    var o := Settled(i.recvs);
    if o.Data? {
      if c.state.AwaitingRequest? {
        RequestLeadsToLine(w, c, o.bytes, i.files);
      } else {
        UploadLeadsToLine(w, c, o.bytes, i.files);
      }
    }
    hide Settled;
  }

  /**
   Exactly when it makes no difference, to an event that is readable, that the socket was reported writable as well:
   when the reading closes the connection or still waits for input, when the peer has hung up, which counts as
   writable, or when no call takes or ends anything.
   */
  lemma {:induction false} UnrequestedIff(w: World, c: Conn, i: Input)
    requires c.WellFormed() && c.Live() && RequestedEvents(c.state) == PollIn && i.readable && i.writable && !i.error
    ensures var r := Dispatch(w, c, i.(writable := false, hangup := false));
            Dispatch(w, c, i) == Dispatch(w, c, i.(writable := false)) <==>
              !r.c.Live() || r.c.WantsInput() || i.hangup || exists k: nat :: Blocked(i.sends, k)
  {
    hide Dispatch, Speaks, Blocked;
    var r := Dispatch(w, c, i.(writable := false, hangup := false));
    ReadsThenRest(w, c, i);
    ReadsThenRest(w, c, i.(writable := false));
    if r.c.Live() {
      ReadingLeadsToLine(w, c, i.(writable := false, hangup := false));
      var rest := i.(readable := false);
      if r.c.WantsInput() {
        WritableIgnored(r.w, r.c, rest);
      } else if i.hangup {
        HangupWrites(r.w, r.c, rest);
      } else {
        QuietEvent(r.w, r.c, rest.(writable := false));
        WritingChanges(r.w, r.c, rest);
      }
    }
  }

  lemma HangupWrites(w: World, c: Conn, i: Input)
    requires c.WellFormed() && c.Live() && !c.WantsInput() && i.hangup && !i.readable
    ensures Dispatch(w, c, i) == Dispatch(w, c, i.(writable := false))
  {
    hide Writable, CloseClient;
  }

  /** So a bit that was not asked for can make a difference: a request that is refused is answered at once. */
  lemma UnrequestedCounts(w: World, fd: nat)
    ensures var i := Input(true, true, false, false, [Data("\n\n")], [Sent(1)], ALL_WELL);
            Dispatch(w, NewConn(fd), i) != Dispatch(w, NewConn(fd), i.(writable := false))
  {
    var c, i := NewConn(fd), Input(true, true, false, false, [Data("\n\n")], [Sent(1)], ALL_WELL);
    assert c.request + "\n\n" == "" + "\n" + "\n";
    BadLine(w, c, i.(writable := false, hangup := false), 0, "", "\n");
    UnrequestedIff(w, c, i);
    hide Dispatch;
  }
}
