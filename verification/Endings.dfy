/**
 How connections end, in whole runs: a connection whose peer is gone is closed at once and for good, and the temporary
 file that it leaves is removed and never comes back.
 */
module Endings {
  import opened Storage
  import opened Connection
  import opened ConnectionInvariant
  import opened ConnectionProofs
  import opened Transcript
  import opened Grounds
  import opened System
  import opened Linearizability
  import opened Lifecycle
  import opened Outcomes

  // ---------------------------------------------------------------------------
  // Closed for good

  lemma NextKeepsClosed(s: System, e: Event, id: nat)
    requires s.WellFormed() && id < |s.conns| && !s.conns[id].Live()
    ensures id < |Next(s, e).conns| && Next(s, e).conns[id] == s.conns[id]
  {
    hide Dispatch, CloseClient, NewConn, Conn.WellFormed;
  }

  /** A closed connection is never heard of again. */
  lemma {:induction false} StaysClosed(s: System, events: seq<Event>, id: nat)
    requires s.WellFormed() && id < |s.conns| && !s.conns[id].Live()
    ensures id < |Run(s, events).conns| && Run(s, events).conns[id] == s.conns[id]
  {
    hide Next, Conn.Live, System.WellFormed;
    if events != [] {
      var before := events[..|events| - 1];
      StaysClosed(s, before, id);
      NextKeepsClosed(Run(s, before), events[|events| - 1], id);
    }
  }

  /** The peer of the connection has gone, or its socket has failed, and the event shows it. */
  ghost predicate BreaksOff(s: System, e: Event, id: nat, k: nat) {
    && e.Handle? && e.id == id < |s.conns| && s.conns[id].Live() && s.conns[id].WantsInput()
    && e.input.readable && !e.input.error
    && First(e.input.recvs, k) && (e.input.recvs[k].EndOfStream? || e.input.recvs[k].RecvFailed?)
  }

  /** That event closes it, removes its temporary file, and changes nothing else in the whole server. */
  lemma {:induction false} NextBrokenOff(s: System, e: Event, id: nat, k: nat)
    requires s.WellFormed() && BreaksOff(s, e, id, k)
    ensures var c, s' := s.conns[id], Next(s, e);
            && s'.conns == s.conns[id := c.(fd := -1, temp := "", inputOpen := false, outputOpen := false)]
            && Gone(s.w, s'.w, c.temp)
  {
    var c := s.conns[id];
    BrokenOff(s.w, c, e.input, k);
    hide Dispatch, Gone, First, Conn.WellFormed;
  }

  /** A connection that is dropped from outside is closed in the same way. */
  lemma {:induction false} NextDropped(s: System, id: nat)
    requires s.WellFormed() && id < |s.conns| && s.conns[id].Live()
    ensures var c, s' := s.conns[id], Next(s, Drop(id));
            && s'.conns == s.conns[id := c.(fd := -1, temp := "", inputOpen := false, outputOpen := false)]
            && Gone(s.w, s'.w, c.temp)
  {
    CloseCloses(s.w, s.conns[id]);
    hide CloseClient, Gone, Conn.WellFormed;
  }

  // ---------------------------------------------------------------------------
  // Temporary files that are gone for good

  /** A name that has been given to an upload that is over. */
  ghost predicate Spent(s: System, name: string) {
    && name != "" && Issued(name, s.w.sequence) && name !in s.w.disk.names
    && forall id | 0 <= id < |s.conns| :: s.conns[id].temp != name
  }

  lemma OneMovesSpent(s: System, id: nat, w': World, c': Conn, name: string)
    requires id < |s.conns| && Spent(s, name) && Isolated(s.w, w', s.conns[id].temp, c'.temp)
    ensures Spent(System(w', s.conns[id := c']), name)
  {
  }

  lemma OwnTempIssued(init: map<string, string>, w: World, c: Conn)
    requires c in GoodConns(init, w) && c.temp != ""
    ensures Issued(c.temp, w.sequence)
  {
  }

  lemma OneMovesSpends(d0: Disk, s: System, id: nat, w': World, c': Conn)
    requires d0.Valid() && SystemInv(d0, s) && id < |s.conns| && s.conns[id].temp != ""
    requires Isolated(s.w, w', s.conns[id].temp, c'.temp) && c'.temp == ""
    ensures Spent(System(w', s.conns[id := c']), s.conns[id].temp)
  {
    OwnTempIssued(d0.Visible(), s.w, s.conns[id]);
    hide GoodConns, HeardConns, GroundedConns, GoodWorlds, TempsAccounted, DistinctDescriptors, Conn.WellFormed;
  }

  /** One connection at most moves, and what it does is isolated from the others. */
  lemma {:induction false} NextIsolated(d0: Disk, s: System, e: Event, id: nat)
    requires s.WellFormed() && d0.Valid() && SystemInv(d0, s) && NoTempRequests(Next(s, e))
    requires Possible(s, e) && !e.Accept? && id == e.id
    ensures var s' := Next(s, e);
            s'.conns == s.conns[id := s'.conns[id]] && Isolated(s.w, s'.w, s.conns[id].temp, s'.conns[id].temp)
  {
    hide Dispatch, CloseClient, GoodConns, HeardConns, GroundedConns, GoodWorlds, GoodSteps, Isolated, Conn.WellFormed,
         NoTempRequest, TempsAccounted, DistinctDescriptors, DistinctTemps;
    var init, c := d0.Visible(), s.conns[id];
    if e.Handle? {
      assert Next(s, e).conns[id] == Dispatch(s.w, c, e.input).c;
      DispatchKeeps(init, s.w, c, e.input);
      GoodStepParts(init, s.w, c, Dispatch(s.w, c, e.input));
    } else {
      GoodIsSound(init, s.w, c);
      hide SoundConns;
      CloseKeeps(init, s.w, c);
      GoodStepParts(init, s.w, c, CloseClient(s.w, c));
    }
  }

  lemma AcceptSpent(s: System, fd: nat, name: string)
    requires Spent(s, name)
    ensures Spent(System(s.w, s.conns + [NewConn(fd)]), name)
  {
  }

  lemma NextSpent(d0: Disk, s: System, e: Event, name: string)
    requires s.WellFormed() && d0.Valid() && SystemInv(d0, s) && NoTempRequests(Next(s, e)) && Spent(s, name)
    ensures Spent(Next(s, e), name)
  {
    hide Dispatch, CloseClient, NewConn, Spent, SystemInv, NoTempRequests, Isolated, System.InUse, Conn.WellFormed;
    if Possible(s, e) {
      if e.Accept? {
        AcceptSpent(s, e.fd, name);
      } else {
        NextIsolated(d0, s, e, e.id);
        OneMovesSpent(s, e.id, Next(s, e).w, Next(s, e).conns[e.id], name);
      }
    }
  }

  /** A temporary name never comes back once its upload is over: committed, refused, broken off or dropped. */
  lemma {:induction false} TempNeverReturns(d0: Disk, events: seq<Event>, e: Event, more: seq<Event>, id: nat)
    requires d0.Valid() && CleanRun(d0, events + [e] + more)
    requires var s := Run(Start(d0), events);
             id < |s.conns| && s.conns[id].temp != "" && id < |Next(s, e).conns| && Next(s, e).conns[id].temp == ""
    ensures Spent(Run(Start(d0), events + [e] + more), Run(Start(d0), events).conns[id].temp)
    decreases |more|
  {
    hide CleanRun, Spent, SystemInv, NoTempRequests, Run, Next;
    var all := events + [e] + more;
    if more == [] {
      assert all == events + [e];
      GoodAlong(d0, events, e);
      MovesSpends(d0, Run(Start(d0), events), e, id);
    } else {
      var before, last := events + [e] + more[..|more| - 1], more[|more| - 1];
      assert all == before + [last];
      GoodAlong(d0, before, last);
      TempNeverReturns(d0, events, e, more[..|more| - 1], id);
      NextSpent(d0, Run(Start(d0), before), last, Run(Start(d0), events).conns[id].temp);
    }
  }

  lemma GoodAlong(d0: Disk, events: seq<Event>, e: Event)
    requires d0.Valid() && CleanRun(d0, events + [e])
    ensures var s := Run(Start(d0), events);
            && CleanRun(d0, events) && SystemInv(d0, s) && NoTempRequests(Next(s, e))
            && Run(Start(d0), events + [e]) == Next(s, e)
  {
    hide SystemInv, NoTempRequests, Run, Next;
    CleanPrefix(d0, events, [e]);
    CleanEnd(d0, events + [e]);
    RunGood(d0, events);
    RunOneMore(Start(d0), events, e);
  }

  lemma CleanEnd(d0: Disk, events: seq<Event>)
    requires CleanRun(d0, events)
    ensures NoTempRequests(Run(Start(d0), events))
  {
    assert events[..|events|] == events;
  }

  lemma MovesSpends(d0: Disk, s: System, e: Event, id: nat)
    requires s.WellFormed() && d0.Valid() && SystemInv(d0, s) && NoTempRequests(Next(s, e))
    requires id < |s.conns| && s.conns[id].temp != "" && id < |Next(s, e).conns| && Next(s, e).conns[id].temp == ""
    ensures Spent(Next(s, e), s.conns[id].temp)
  {
    hide Dispatch, CloseClient, NewConn, Spent, SystemInv, NoTempRequests, Isolated, System.InUse, Conn.WellFormed;
    if Possible(s, e) && !e.Accept? {
      NextIsolated(d0, s, e, e.id);
      OneMovesSpends(d0, s, id, Next(s, e).w, Next(s, e).conns[id]);
    }
  }

  /**
   In every run: an upload that is broken off commits nothing, its connection stays closed, and its temporary file is
   gone from then on, whatever happens later.
   */
  lemma {:induction false} BrokenOffForGood(d0: Disk, events: seq<Event>, e: Event, more: seq<Event>, id: nat, k: nat)
    requires d0.Valid() && CleanRun(d0, events + [e] + more) && BreaksOff(Run(Start(d0), events), e, id, k)
    ensures var s, s' := Run(Start(d0), events), Run(Start(d0), events + [e] + more);
            && Run(Start(d0), events + [e]).w.log == s.w.log
            && id < |s'.conns| && s'.conns[id].fd == -1 && s'.conns[id].past == s.conns[id].past
            && (s.conns[id].temp != "" ==> s.conns[id].temp !in s'.w.disk.names)
  {
    var s := Run(Start(d0), events);
    NextBrokenOff(s, e, id, k);
    RunOneMore(Start(d0), events, e);
    RunThen(Start(d0), events + [e], more);
    StaysClosed(Next(s, e), more, id);
    hide Run, Next, CleanRun, BreaksOff, Conn.WellFormed;
    if s.conns[id].temp != "" {
      TempNeverReturns(d0, events, e, more, id);
    }
  }
}
