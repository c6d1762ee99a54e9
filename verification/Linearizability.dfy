/**
 Results about every run of the server, whatever the connections do: the visible store is an atomic map,
 uploads are all or nothing, temporary files are accounted for, and each connection speaks the protocol.
 */
module Linearizability {
  import opened Text
  import opened Requests
  import opened Storage
  import opened Connection
  import opened ConnectionInvariant
  import opened ConnectionProofs
  import opened Transcript
  import opened Grounds
  import opened System

  /** In no state of the run has a request for a temporary name been accepted. */
  ghost predicate CleanRun(d0: Disk, events: seq<Event>) {
    forall k | 0 <= k <= |events| :: NoTempRequests(Run(Start(d0), events[..k]))
  }

  lemma {:induction false} RunGood(d0: Disk, events: seq<Event>)
    requires d0.Valid() && CleanRun(d0, events)
    ensures SystemInv(d0, Run(Start(d0), events))
  {
    if events == [] {
      StartGood(d0);
    } else {
      var before := events[..|events| - 1];
      assert forall k | 0 <= k <= |before| :: before[..k] == events[..k];
      RunGood(d0, before);
      assert events[..|events|] == events;
      NextGood(d0, Run(Start(d0), before), events[|events| - 1]);
    }
  }

  /** The contents that a download promises: those of its name in the store after the first `point` commits. */
  ghost predicate ReadsAtPoint(init: map<string, string>, w: World, c: Conn)
    requires c.past.asked.Some?
  {
    && c.past.point <= |w.log|
    && var store := Replay(init, w.log[..c.past.point]);
    && c.past.asked.value.filename in store
    && var contents := store[c.past.asked.value.filename];
    && c.past.sent <= OkLine(|contents|) + contents
  }

  /** The upload of the connection is commit number `point`, with its whole payload. */
  ghost predicate WroteAtPoint(w: World, c: Conn)
    requires c.past.asked.Some? && c.past.asked.value.Put?
  {
    && c.past.point < |w.log|
    && w.log[c.past.point] == Commit(c.past.asked.value.filename, c.past.payload)
    && |c.past.payload| == c.past.asked.value.size
  }

  /**
   The output language of a connection, over its whole life: nothing yet; `OK n` and a prefix of the n bytes read
   atomically at one point of the history; `READY`, with `OK n` after it only once the upload has been committed;
   or one error line, alone or after `READY`. An error line names its cause: in the bytes received, in a file operation
   that failed, or in the store, which did not have the name when the request was handled.
   */
  ghost predicate SpeaksProtocol(init: map<string, string>, w: World, c: Conn) {
    || c.past.sent == ""
    || (c.past.asked.Some? && c.past.asked.value.Get? && ReadsAtPoint(init, w, c))
    || (c.past.asked.Some? && c.past.asked.value.Put?
        && (c.past.sent <= READY_LINE
            || (c.past.sent <= READY_LINE + OkLine(c.past.asked.value.size) && WroteAtPoint(w, c))))
    || (Grounded(init, w, c) && exists reason :: c.past.sent <= ErrorLine(reason) && RefusedRequest(c.past, reason))
    || (exists reason :: c.past.sent <= READY_LINE + ErrorLine(reason) && RefusedUpload(c.past, reason))
  }

  lemma PrefixOfPromise(c: Conn)
    requires c.WellFormed()
    ensures c.past.sent <= Promised(c)
  {
  }

  lemma ServingSpeaks(init: map<string, string>, w: World, c: Conn)
    requires c in GoodConns(init, w) && (c.state.SendingGetHeader? || c.state.SendingFile?)
    ensures ReadsAtPoint(init, w, c)
  {
    PrefixOfPromise(c);
    var contents := w.disk.data[c.input];
    if c.state.SendingFile? {
      assert contents[..c.transferred] <= contents;
    }
  }

  lemma GoodConnSpeaks(init: map<string, string>, w: World, c: Conn)
    requires c in GoodConns(init, w) && c in HeardConns() && c in GroundedConns(init, w)
    ensures SpeaksProtocol(init, w, c)
  {
    PrefixOfPromise(c);
    match c.state {
      case SendingGetHeader => ServingSpeaks(init, w, c);
      case SendingFile => ServingSpeaks(init, w, c);
      case SendingError =>
        var reason :| Blames(c, reason);
      case _ =>
    }
  }

  /** In every run, every connection speaks the protocol. */
  lemma {:induction false} EveryConnectionSpeaks(d0: Disk, events: seq<Event>, id: nat)
    requires d0.Valid() && CleanRun(d0, events) && id < |Run(Start(d0), events).conns|
    ensures var s := Run(Start(d0), events); SpeaksProtocol(d0.Visible(), s.w, s.conns[id])
  {
    RunGood(d0, events);
    var s := Run(Start(d0), events);
    GoodConnSpeaks(d0.Visible(), s.w, s.conns[id]);
  }

  /**
   The store is an atomic map: what is visible is always the initial store with the commits replayed in order,
   and one event changes it at most by one commit, which is the whole declared payload of the upload it belongs to.
   */
  lemma {:induction false} StoreIsAtomic(d0: Disk, events: seq<Event>, e: Event)
    requires d0.Valid() && CleanRun(d0, events + [e])
    ensures var s, s' := Run(Start(d0), events), Run(Start(d0), events + [e]);
            && s.w.disk.Valid() && s'.w.disk.Valid()
            && s.w.disk.Visible() == Replay(d0.Visible(), s.w.log)
            && (if s'.w.log == s.w.log then s'.w.disk.Visible() == s.w.disk.Visible()
                else
                  && e.Handle? && e.id < |s'.conns|
                  && var c := s'.conns[e.id];
                  && c.past.asked.Some? && c.past.asked.value.Put? && WroteAtPoint(s'.w, c)
                  && c.past.point == |s.w.log| && |s'.w.log| == |s.w.log| + 1 && s.w.log <= s'.w.log
                  && s'.w.disk.Visible() == s.w.disk.Visible()[c.past.asked.value.filename := c.past.payload])
  {
    var all := events + [e];
    assert all[..|all|] == all && all[..|all| - 1] == events;
    assert forall k | 0 <= k <= |events| :: events[..k] == all[..k];
    RunGood(d0, events);
    RunGood(d0, all);
    var s, s' := Run(Start(d0), events), Run(Start(d0), all);
    if s'.w.log != s.w.log {
      CommitComesFrom(d0, s, e);
      assert s'.w.log[..|s'.w.log| - 1] == s.w.log;
    }
  }

  lemma CommitComesFrom(d0: Disk, s: System, e: Event)
    requires s.WellFormed() && d0.Valid() && SystemInv(d0, s) && NoTempRequests(Next(s, e))
             && Next(s, e).w.log != s.w.log
    ensures e.Handle? && e.id < |Next(s, e).conns|
    ensures var s' := Next(s, e); var c := s'.conns[e.id];
            && c.past.asked.Some? && c.past.asked.value.Put? && WroteAtPoint(s'.w, c)
            && c.past.point == |s.w.log|
            && s'.w.log == s.w.log + [Commit(c.past.asked.value.filename, c.past.payload)]
  {
    assert Possible(s, e) && e.Handle?;
    var r := Dispatch(s.w, s.conns[e.id], e.input);
    assert Next(s, e).conns[e.id] == r.c && Next(s, e).w == r.w;
    hide Dispatch, Next, GoodConns, GoodWorlds, GoodSteps, HeardConns, GroundedConns, Conn.WellFormed, NoTempRequest;
    DispatchKeeps(d0.Visible(), s.w, s.conns[e.id], e.input);
    CommittedOwn(d0.Visible(), s.w, s.conns[e.id], r);
  }

  lemma CommittedOwn(init: map<string, string>, w: World, c: Conn, r: Step)
    requires r in GoodSteps(init, w, c) && r.w.log != w.log
    ensures && r.c.past.asked.Some? && r.c.past.asked.value.Put? && WroteAtPoint(r.w, r.c)
            && r.c.past.point == |w.log|
            && r.w.log == w.log + [Commit(r.c.past.asked.value.filename, r.c.past.payload)]
  {
    hide Isolated, History, HasOutput, OkLine, READY_LINE;
  }

  /** A download that has been promised keeps reading the contents of its own point, whatever is committed later. */
  lemma {:induction false} DownloadsAreStable(d0: Disk, events: seq<Event>, id: nat)
    requires d0.Valid() && CleanRun(d0, events) && id < |Run(Start(d0), events).conns|
    requires var c := Run(Start(d0), events).conns[id]; c.state.SendingGetHeader? || c.state.SendingFile?
    ensures var s := Run(Start(d0), events); var c := s.conns[id];
            && c.past.asked.Some? && ReadsAtPoint(d0.Visible(), s.w, c)
            && c.transferred <= c.expected
            && var contents := Replay(d0.Visible(), s.w.log[..c.past.point])[c.past.asked.value.filename];
            && c.expected == |contents| && c.input in s.w.disk.data && s.w.disk.data[c.input] == contents
  {
    RunGood(d0, events);
    var s := Run(Start(d0), events);
    ServingSpeaks(d0.Visible(), s.w, s.conns[id]);
  }

  /**
   While a download runs, what has been sent is the header and the first `transferred` bytes of the file, the rest of
   the window is what comes next, and the reader stands right behind it, never past the end.
   */
  lemma {:induction false} WindowTracksFile(d0: Disk, events: seq<Event>, id: nat)
    requires d0.Valid() && CleanRun(d0, events) && id < |Run(Start(d0), events).conns|
    requires Run(Start(d0), events).conns[id].state.SendingFile?
    ensures var s := Run(Start(d0), events); var c := s.conns[id]; var file := s.w.disk.Contents(c.input);
            && c.windowOffset <= |c.window|
              && c.position == c.transferred + |c.window| - c.windowOffset <= c.expected == |file|
            && c.past.sent == OkLine(|file|) + file[..c.transferred]
            && c.window[c.windowOffset..] == file[c.transferred..c.position]
  {
    RunGood(d0, events);
    var s := Run(Start(d0), events);
    assert s.conns[id] in GoodConns(d0.Visible(), s.w);
    hide HeardConns, GoodWorlds, Run, ServedFrom, OkLine;
  }

  /** The temporary file of an unfinished upload holds exactly the payload received so far, within the declared size. */
  lemma {:induction false} UploadsAccumulate(d0: Disk, events: seq<Event>, id: nat)
    requires d0.Valid() && CleanRun(d0, events) && id < |Run(Start(d0), events).conns|
    requires Run(Start(d0), events).conns[id].temp != ""
    ensures var s := Run(Start(d0), events); var c := s.conns[id];
            && c.Live() && (c.state.SendingReady? || c.state.ReceivingFile?)
            && IsTempName(c.temp) && c.temp in s.w.disk.names
            && s.w.disk.Contents(s.w.disk.names[c.temp]) == c.past.payload == Tail(c.past.received)
            && c.transferred == |c.past.payload| <= c.expected <= MAX_UPLOAD_BYTES
            && RequestOf(c.past.received) == Some(Put(c.final, c.expected))
            && forall j | 0 <= j < |s.conns| && j != id :: s.conns[j].temp != c.temp
  {
    RunGood(d0, events);
    var s := Run(Start(d0), events);
    OwnUpload(d0.Visible(), s.w, s.conns[id]);
    hide Run, GoodConns, HeardConns, GroundedConns, GoodWorlds, TempsAccounted, IsTempName, Conn.WellFormed, RequestOf,
         Tail;
  }

  lemma OwnUpload(init: map<string, string>, w: World, c: Conn)
    requires c in GoodConns(init, w) && c in HeardConns() && c.temp != ""
    ensures && c.Live() && (c.state.SendingReady? || c.state.ReceivingFile?)
            && IsTempName(c.temp) && c.temp in w.disk.names
            && w.disk.Contents(w.disk.names[c.temp]) == c.past.payload == Tail(c.past.received)
            && c.transferred == |c.past.payload| <= c.expected <= MAX_UPLOAD_BYTES
            && RequestOf(c.past.received) == Some(Put(c.final, c.expected))
  {
    InvTemp(init, w, c);
    hide IsTempName, TempName, RequestOf, Tail, READY_LINE, OkLine;
  }

  /** Temporary files are never lost and never left behind. */
  lemma {:induction false} TempsConserved(d0: Disk, events: seq<Event>, name: string)
    requires d0.Valid() && CleanRun(d0, events)
    requires IsTempName(name) && name !in d0.names
    ensures var s := Run(Start(d0), events);
            name in s.w.disk.names <==> exists id | 0 <= id < |s.conns| :: s.conns[id].temp == name
  {
    RunGood(d0, events);
    var s := Run(Start(d0), events);
    if id :| 0 <= id < |s.conns| && s.conns[id].temp == name {
      InvTemp(d0.Visible(), s.w, s.conns[id]);
    }
  }

  /** When the last connection is closed, the root holds no temporary file that was not there at the start. */
  lemma {:induction false} NothingLeftBehind(d0: Disk, events: seq<Event>, name: string)
    requires d0.Valid() && CleanRun(d0, events)
    requires forall id | 0 <= id < |Run(Start(d0), events).conns| :: !Run(Start(d0), events).conns[id].Live()
    requires IsTempName(name) && name in Run(Start(d0), events).w.disk.names
    ensures name in d0.names
  {
    RunGood(d0, events);
    var s := Run(Start(d0), events);
    assert forall id | 0 <= id < |s.conns| :: s.conns[id] in GoodConns(d0.Visible(), s.w) && s.conns[id].temp == "";
  }
}
