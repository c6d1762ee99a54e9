/**
 What a connection remembers of the moment at which its request was handled, and what that says about the store:
 a download is served or refused according to the contents of the store at that moment.
 */
module Grounds {
  import opened Text
  import opened Requests
  import opened Storage
  import opened Connection
  import opened ConnectionInvariant

  // ---------------------------------------------------------------------------
  // Names never leave the store

  lemma {:induction false} NamesStay(init: map<string, string>, log: seq<Commit>, k: nat, name: string)
    requires k <= |log| && name in Replay(init, log[..k])
    ensures name in Replay(init, log)
  {
    if k < |log| {
      var before := log[..|log| - 1];
      assert before[..k] == log[..k];
      NamesStay(init, before, k, name);
    } else {
      assert log[..k] == log;
    }
  }

  // ---------------------------------------------------------------------------
  // What handlers do to the memory of the request

  predicate SameRequest(c: Conn, c': Conn) {
    c'.past.asked == c.past.asked && c'.past.missing == c.past.missing
  }

  /** The request is accepted now. */
  predicate AsksNow(w: World, c': Conn) {
    && c'.past.asked.Some? && c'.past.point == |w.log|
    && c'.past.missing == (c'.past.asked.value.filename !in w.disk.names)
  }

  /** The history only grows; a request is accepted once, and remembers the present; so does a commit. */
  ghost predicate Remembers(w: World, c: Conn, w': World, c': Conn) {
    && w.log <= w'.log
    && ((c.state.AwaitingRequest? && AsksNow(w, c'))
        || (SameRequest(c, c')
            && (c'.past.point == c.past.point
                || (c'.past.point == |w.log| && (c.state.ReceivingFile? || c.state.SendingReady?)))))
  }

  lemma StartRemembers(w: World, c: Conn, request: Request, files: FileOutcomes)
    requires c.WellFormed() && c.window == "" && c.Live()
    ensures var s := StartRequest(w, c, request, files);
            s.w.log == w.log && SameRequest(c, s.c) && (s.c.past.point == c.past.point || s.c.past.point == |w.log|)
  {
    hide OkLine, ErrorLine, TempName, Disk.Truncate, Disk.Remove, Disk.Contents;
  }

  predicate StillSilent(c: Conn) {
    c.state.AwaitingRequest? || c.state.SendingError?
  }

  lemma RequestDataRemembers(w: World, c: Conn, bytes: string, files: FileOutcomes)
    requires c.WellFormed() && c.window == "" && c.Live() && c.state.AwaitingRequest?
    ensures var s := RequestData(w, c, bytes, files);
            && s.w.log == w.log
            && (AsksNow(w, s.c) || (SameRequest(c, s.c) && s.c.past.point == c.past.point && StillSilent(s.c)))
  {
    hide ParseRequest, ErrorLine, StartRequest, Find;
    var all := c.request + bytes;
    match ParseRequest(all[..Find(all, '\n')]) {
      case Rejected(_) =>
      case Accepted(request) =>
        StartRemembers(w, c.(request := "", past := c.past.Hears(bytes).Asks(request, w, files)), request, files);
    }
  }

  lemma CompleteRemembers(w: World, c: Conn, files: FileOutcomes)
    requires c.WellFormed() && c.window == ""
    ensures var s := CompleteUpload(w, c, files);
            && w.log <= s.w.log && SameRequest(c, s.c) && (s.c.past.point == c.past.point || s.c.past.point == |w.log|)
            && (s.c.state.SendingResult? || s.c.state.SendingError?)
  {
    hide OkLine, ErrorLine, Disk.Rename, Disk.Contents, Disk.Remove;
  }

  lemma UploadDataRemembers(w: World, c: Conn, bytes: string, files: FileOutcomes)
    requires c.WellFormed() && c.window == "" && c.state.ReceivingFile?
    ensures var s := UploadData(w, c, bytes, files);
            && w.log <= s.w.log && SameRequest(c, s.c) && (s.c.past.point == c.past.point || s.c.past.point == |w.log|)
            && !s.c.state.SendingReady? && !s.c.state.AwaitingRequest?
  {
    hide CompleteUpload, ErrorLine, Disk.Append, Disk.Remove;
    var accepted := Min(c.expected - c.transferred, |bytes|);
    CompleteRemembers(w.(disk := w.disk.Append(c.output, bytes[..accepted])),
                      c.(past := c.past.HearsPayload(bytes, files), transferred := c.transferred + accepted), files);
  }

  /** After reading there is nothing left to remember, or the reply has not begun. */
  lemma ReadableRemembers(w: World, c: Conn, recvs: seq<RecvOutcome>, files: FileOutcomes)
    requires c.WellFormed() && c.Live()
    ensures var s := Readable(w, c, recvs, files); Remembers(w, c, s.w, s.c)
    ensures var s := Readable(w, c, recvs, files);
            c.state.AwaitingRequest? ==> s.w.log == w.log && (AsksNow(w, s.c) || !s.c.state.SendingReady?)
    ensures var s := Readable(w, c, recvs, files); c.state.ReceivingFile? ==> !s.c.state.SendingReady?
    ensures var s := Readable(w, c, recvs, files); !c.WantsInput() ==> s == Step(w, c, true)
  {
    hide RequestData, UploadData;
    var outcome := Settled(recvs);
    if outcome.Data? {
      if c.state.AwaitingRequest? {
        RequestDataRemembers(w, c, outcome.bytes, files);
      } else if c.state.ReceivingFile? {
        UploadDataRemembers(w, c, outcome.bytes, files);
      }
    }
  }

  lemma WritableRemembers(w: World, c: Conn, sends: seq<SendOutcome>, files: FileOutcomes)
    requires c.WellFormed()
    ensures var s := Writable(w, c, sends, files);
            && w.log <= s.w.log && SameRequest(c, s.c)
            && (s.c.past.point == c.past.point || (s.c.past.point == |w.log| && c.state.SendingReady?))
  {
    hide CompleteUpload, FlushPending, FileWritable, OkLine;
    if c.state.SendingFile? {
      FileRemembers(w, c, if sends == [] then SendWouldBlock else sends[0], files);
    } else if c.state.SendingReady? {
      CompleteRemembers(w, FlushPending(c, sends).c, files);
    }
  }

  lemma FileRemembers(w: World, c: Conn, s: SendOutcome, files: FileOutcomes)
    requires c.WellFormed() && c.state.SendingFile?
    ensures var r := FileWritable(w, c, s, files); r.w == w && SameRequest(c, r.c) && r.c.past.point == c.past.point
  {
    WindowOnly(w, c, s, files);
    hide FileWritable;
  }

  lemma DispatchRemembers(w: World, c: Conn, i: Input)
    requires c.WellFormed() && c.Live()
    ensures var r := Dispatch(w, c, i); Remembers(w, c, r.w, r.c)
  {
    DispatchParts(w, c, i);
    var r := ReadPart(w, c, i);
    var s := WritePart(r, i);
    BothHalvesRemember(w, c, i);
    ClosingRemembers(w, c, w, c);
    ClosingRemembers(w, c, r.w, r.c);
    ClosingRemembers(w, c, s.w, s.c);
    hide Dispatch, ReadPart, WritePart, CloseClient, Remembers, Conn.WellFormed;
  }

  lemma BothHalvesRemember(w: World, c: Conn, i: Input)
    requires c.WellFormed() && c.Live()
    ensures var r := ReadPart(w, c, i); var s := WritePart(r, i);
            Remembers(w, c, w, c) && Remembers(w, c, r.w, r.c) && Remembers(w, c, s.w, s.c)
  {
    ReadableRemembers(w, c, i.recvs, i.files);
    var r := ReadPart(w, c, i);
    WritableRemembers(r.w, r.c, i.sends, i.files);
    hide Readable, Writable, Conn.WellFormed;
    RemembersThen(w, c, r, WritePart(r, i));
  }

  lemma ClosingRemembers(w: World, c: Conn, w': World, c': Conn)
    requires c'.WellFormed() && Remembers(w, c, w', c')
    ensures var r := CloseClient(w', c'); Remembers(w, c, r.w, r.c)
  {
    hide Disk.Remove;
  }

  /** What is remembered after reading is still so after writing; closing does not touch it. */
  lemma RemembersThen(w: World, c: Conn, r: Step, s: Step)
    requires Remembers(w, c, r.w, r.c) && r.w.log <= s.w.log && SameRequest(r.c, s.c)
    requires s.c.past.point == r.c.past.point || (s.c.past.point == |r.w.log| && r.c.state.SendingReady?)
    requires r.c.state.SendingReady? ==>
               r.w.log == w.log && (c.state.SendingReady? || (c.state.AwaitingRequest? && AsksNow(w, r.c)))
    ensures Remembers(w, c, s.w, s.c)
  {
  }

  // ---------------------------------------------------------------------------
  // The tie to the store

  /**
   The request was handled when the history had `point` commits, and the name of a download was missing exactly
   if the store did not have it then.
   */
  ghost predicate Grounded(init: map<string, string>, w: World, c: Conn) {
    c.past.asked.Some? ==>
      && c.past.point <= |w.log|
      && (c.past.asked.value.Get? ==>
            (c.past.missing <==> c.past.asked.value.filename !in Replay(init, w.log[..c.past.point])))
  }

  ghost function GroundedConns(init: map<string, string>, w: World): iset<Conn> {
    iset c: Conn | Grounded(init, w, c)
  }

  lemma GroundStays(init: map<string, string>, w: World, w': World, c: Conn)
    requires c in GroundedConns(init, w) && w.log <= w'.log
    ensures c in GroundedConns(init, w')
  {
    if c.past.asked.Some? {
      assert w'.log[..c.past.point] == w.log[..c.past.point];
    }
  }

  /** What is missing from the root is missing from the store. */
  lemma MissingFromStore(init: map<string, string>, w: World, name: string)
    requires w in GoodWorlds(init) && !IsTempName(name)
    ensures name in w.disk.names <==> name in Replay(init, w.log[..|w.log|])
  {
    assert w.log[..|w.log|] == w.log;
    assert name in w.disk.Visible() <==> name in w.disk.names;
  }

  lemma AskingIsGrounded(init: map<string, string>, w: World, w': World, c': Conn)
    requires w in GoodWorlds(init) && AsksNow(w, c') && w.log <= w'.log && NoTempRequest(c')
    ensures c' in GroundedConns(init, w')
  {
    MissingFromStore(init, w, c'.past.asked.value.filename);
    hide GoodWorlds, IsTempName;
    assert w'.log[..|w.log|] == w.log[..|w.log|];
  }

  lemma StaysGrounded(init: map<string, string>, w: World, c: Conn, w': World, c': Conn)
    requires c in GoodConns(init, w) && w in GoodWorlds(init) && c in GroundedConns(init, w)
    requires Remembers(w, c, w', c') && NoTempRequest(c')
    ensures c' in GroundedConns(init, w')
  {
    if c.state.AwaitingRequest? && AsksNow(w, c') {
      AskingIsGrounded(init, w, w', c');
    } else {
      if c.state.ReceivingFile? || c.state.SendingReady? {
        UploadsAsked(init, w, c);
      }
      hide GoodConns, GoodWorlds, IsTempName;
      if c.past.asked.Some? {
        assert w'.log[..c.past.point] == w.log[..c.past.point];
      }
    }
  }

  lemma UploadsAsked(init: map<string, string>, w: World, c: Conn)
    requires c in GoodConns(init, w) && (c.state.ReceivingFile? || c.state.SendingReady?)
    ensures c.past.asked.Some? && c.past.asked.value.Put?
  {
  }
}
