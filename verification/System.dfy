/**
 All connections of a server over one storage root, in every interleaving. A connection keeps its place in
 `conns` for ever, so a descriptor that is used again belongs to a new entry. The results of this module are
 about every run: the store behaves as one atomic map, whose history is the commit log.
 */
module System {
  import opened Requests
  import opened Storage
  import opened Connection
  import opened ConnectionInvariant
  import opened ConnectionProofs
  import opened Transcript
  import opened Grounds

  datatype System = System(w: World, conns: seq<Conn>) {
    predicate WellFormed() {
      forall id | 0 <= id < |conns| :: conns[id].WellFormed()
    }

    predicate InUse(fd: int) {
      exists id | 0 <= id < |conns| :: conns[id].Live() && conns[id].fd == fd
    }
  }

  predicate AllClosed(s: System) {
    forall id | 0 <= id < |s.conns| :: !s.conns[id].Live()
  }

  /** A connection is accepted, has one poll event handled, or is closed from outside (idle timeout, shutdown). */
  datatype Event = Accept(fd: nat) | Handle(id: nat, input: Input) | Drop(id: nat)

  function Start(disk: Disk): (s: System)
    ensures s.WellFormed()
  {
    System(World(disk, 0, []), [])
  }

  /** Only descriptors that are not in use are handed out, and closed connections have no events. */
  predicate Possible(s: System, e: Event) {
    match e
    case Accept(fd) => !s.InUse(fd)
    case Handle(id, _) => id < |s.conns| && s.conns[id].Live()
    case Drop(id) => id < |s.conns| && s.conns[id].Live()
  }

  function Next(s: System, e: Event): (s': System)
    requires s.WellFormed()
    ensures s'.WellFormed()
  {
    if !Possible(s, e) then s
    else
      match e
      case Accept(fd) => System(s.w, s.conns + [NewConn(fd)])
      case Handle(id, input) =>
        var r := Dispatch(s.w, s.conns[id], input);
        System(r.w, s.conns[id := r.c])
      case Drop(id) =>
        var r := CloseClient(s.w, s.conns[id]);
        System(r.w, s.conns[id := r.c])
  }

  function Run(s: System, events: seq<Event>): (s': System)
    requires s.WellFormed()
    ensures s'.WellFormed()
  {
    if events == [] then s else Next(Run(s, events[..|events| - 1]), events[|events| - 1])
  }

  lemma RunOneMore(s: System, events: seq<Event>, e: Event)
    requires s.WellFormed()
    ensures Run(s, events + [e]) == Next(Run(s, events), e)
  {
    assert (events + [e])[..|events + [e]| - 1] == events;
  }

  lemma {:induction false} RunThen(s: System, events: seq<Event>, more: seq<Event>)
    requires s.WellFormed()
    ensures Run(s, events + more) == Run(Run(s, events), more)
  {
    if more == [] {
      assert events + more == events;
    } else {
      var all := events + more;
      assert all[..|all| - 1] == events + more[..|more| - 1];
      RunThen(s, events, more[..|more| - 1]);
    }
  }

  // ---------------------------------------------------------------------------
  // The invariant of the whole system

  ghost predicate NoTempRequests(s: System) {
    forall id | 0 <= id < |s.conns| :: NoTempRequest(s.conns[id])
  }

  ghost predicate DistinctDescriptors(conns: seq<Conn>) {
    forall i, j | 0 <= i < j < |conns| && conns[i].Live() && conns[j].Live() :: conns[i].fd != conns[j].fd
  }

  ghost predicate DistinctTemps(conns: seq<Conn>) {
    forall i, j | 0 <= i < j < |conns| && conns[i].temp != "" :: conns[i].temp != conns[j].temp
  }

  /** A temporary file in the root was there before the server started, or belongs to a connection. */
  ghost predicate TempsAccounted(d0: Disk, s: System) {
    forall n | IsTempName(n) && n in s.w.disk.names ::
      n in d0.names || exists id | 0 <= id < |s.conns| :: s.conns[id].temp == n
  }

  ghost predicate AllGood(init: map<string, string>, s: System) {
    && (forall id | 0 <= id < |s.conns| :: s.conns[id] in GoodConns(init, s.w))
    && (forall id | 0 <= id < |s.conns| :: s.conns[id] in HeardConns())
    && (forall id | 0 <= id < |s.conns| :: s.conns[id] in GroundedConns(init, s.w))
  }

  ghost predicate SystemInv(d0: Disk, s: System)
    requires d0.Valid()
  {
    && s.WellFormed()
    && s.w in GoodWorlds(d0.Visible())
    && AllGood(d0.Visible(), s)
    && DistinctDescriptors(s.conns) && DistinctTemps(s.conns)
    && TempsAccounted(d0, s)
  }

  lemma StartGood(d0: Disk)
    requires d0.Valid()
    ensures SystemInv(d0, Start(d0))
  {
  }

  lemma OthersGood(init: map<string, string>, s: System, id: nat, r: Step)
    requires AllGood(init, s) && DistinctTemps(s.conns) && id < |s.conns|
    requires r in GoodSteps(init, s.w, s.conns[id])
    ensures forall j | 0 <= j < |s.conns| && j != id ::
              s.conns[j] in GoodConns(init, r.w) && (s.conns[j].temp == "" || s.conns[j].temp != r.c.temp)
  {
    forall j | 0 <= j < |s.conns| && j != id
      ensures s.conns[j] in GoodConns(init, r.w) && (s.conns[j].temp == "" || s.conns[j].temp != r.c.temp)
    {
      InvTemp(init, s.w, s.conns[j]);
      OthersKeep(init, s.w, r.w, s.conns[j], s.conns[id].temp, r.c.temp);
    }
  }

  lemma TempsStillAccounted(d0: Disk, s: System, id: nat, r: Step)
    requires TempsAccounted(d0, s) && id < |s.conns|
    requires Isolated(s.w, r.w, s.conns[id].temp, r.c.temp)
    ensures TempsAccounted(d0, System(r.w, s.conns[id := r.c]))
  {
    var s' := System(r.w, s.conns[id := r.c]);
    forall n | IsTempName(n) && n in r.w.disk.names
      ensures n in d0.names || exists k | 0 <= k < |s'.conns| :: s'.conns[k].temp == n
    {
      if n == r.c.temp {
        assert s'.conns[id].temp == n;
      } else if n !in d0.names {
        var k :| 0 <= k < |s.conns| && s.conns[k].temp == n;
        assert s'.conns[k].temp == n;
      }
    }
  }

  /** One connection makes a good step; everybody else is undisturbed. */
  lemma OneMoves(d0: Disk, s: System, id: nat, r: Step)
    requires d0.Valid() && SystemInv(d0, s) && id < |s.conns| && s.conns[id].Live()
    requires r in GoodSteps(d0.Visible(), s.w, s.conns[id])
    requires r.c in GoodConns(d0.Visible(), r.w) && r.c in HeardConns() && r.c in GroundedConns(d0.Visible(), r.w)
    ensures SystemInv(d0, System(r.w, s.conns[id := r.c]))
  {
    hide GoodSteps, GoodConns, GoodWorlds, HeardConns, GroundedConns, Isolated, Conn.WellFormed, TempsAccounted,
         AllGood;
    GoodStepParts(d0.Visible(), s.w, s.conns[id], r);
    OthersGood(d0.Visible(), s, id, r);
    AllStillGood(d0.Visible(), s, id, r);
    StillDistinct(s.conns, id, r.c);
    TempsStillAccounted(d0, s, id, r);
  }

  lemma AllStillGood(init: map<string, string>, s: System, id: nat, r: Step)
    requires AllGood(init, s) && id < |s.conns| && s.w.log <= r.w.log
    requires r.c in GoodConns(init, r.w) && r.c in HeardConns() && r.c in GroundedConns(init, r.w)
    requires forall j | 0 <= j < |s.conns| && j != id :: s.conns[j] in GoodConns(init, r.w)
    ensures AllGood(init, System(r.w, s.conns[id := r.c]))
  {
    hide GoodConns, HeardConns, GroundedConns;
    forall j | 0 <= j < |s.conns| && j != id
      ensures s.conns[j] in GroundedConns(init, r.w)
    {
      GroundStays(init, s.w, r.w, s.conns[j]);
    }
  }

  lemma StillDistinct(conns: seq<Conn>, id: nat, c: Conn)
    requires DistinctDescriptors(conns) && DistinctTemps(conns) && id < |conns|
    requires c.fd == conns[id].fd || c.fd == -1
    requires forall j | 0 <= j < |conns| && j != id :: conns[j].temp == "" || conns[j].temp != c.temp
    ensures DistinctDescriptors(conns[id := c]) && DistinctTemps(conns[id := c])
  {
  }

  lemma GoodStepParts(init: map<string, string>, w: World, c: Conn, r: Step)
    requires r in GoodSteps(init, w, c)
    ensures r.c.WellFormed() && r.w in GoodWorlds(init) && Isolated(w, r.w, c.temp, r.c.temp)
    ensures (r.c.fd == c.fd || r.c.fd == -1) && w.log <= r.w.log
  {
  }

  lemma HandleGood(d0: Disk, s: System, id: nat, input: Input)
    requires d0.Valid() && SystemInv(d0, s) && id < |s.conns| && s.conns[id].Live()
    requires NoTempRequest(Dispatch(s.w, s.conns[id], input).c)
    ensures var r := Dispatch(s.w, s.conns[id], input); SystemInv(d0, System(r.w, s.conns[id := r.c]))
  {
    hide ClientEvent, GoodSteps, GoodConns, GoodWorlds, Conn.WellFormed;
    var init := d0.Visible();
    DispatchKeeps(init, s.w, s.conns[id], input);
    DispatchHeard(init, s.w, s.conns[id], input);
    DispatchGrounded(init, s.w, s.conns[id], input);
    OneMoves(d0, s, id, Dispatch(s.w, s.conns[id], input));
  }

  lemma DispatchGrounded(init: map<string, string>, w: World, c: Conn, i: Input)
    requires c in GoodConns(init, w) && w in GoodWorlds(init) && c in GroundedConns(init, w) && c.WellFormed()
    requires c.Live()
    requires NoTempRequest(Dispatch(w, c, i).c)
    ensures var r := Dispatch(w, c, i); r.c in GroundedConns(init, r.w)
  {
    hide Dispatch, GoodConns, GoodWorlds, GroundedConns, NoTempRequest, Conn.WellFormed;
    DispatchRemembers(w, c, i);
    StaysGrounded(init, w, c, Dispatch(w, c, i).w, Dispatch(w, c, i).c);
  }

  lemma CloseGrounded(init: map<string, string>, w: World, c: Conn)
    requires c in GroundedConns(init, w) && c.WellFormed()
    ensures var r := CloseClient(w, c); r.c in GroundedConns(init, r.w)
  {
  }

  lemma DropGood(d0: Disk, s: System, id: nat)
    requires d0.Valid() && SystemInv(d0, s) && id < |s.conns| && s.conns[id].Live()
    ensures var r := CloseClient(s.w, s.conns[id]); SystemInv(d0, System(r.w, s.conns[id := r.c]))
  {
    CloseKeeps(d0.Visible(), s.w, s.conns[id]);
    ClosedHeard(Step(s.w, s.conns[id], false));
    CloseGrounded(d0.Visible(), s.w, s.conns[id]);
    OneMoves(d0, s, id, CloseClient(s.w, s.conns[id]));
  }

  lemma AcceptGood(d0: Disk, s: System, fd: nat)
    requires d0.Valid() && SystemInv(d0, s) && !s.InUse(fd)
    ensures SystemInv(d0, System(s.w, s.conns + [NewConn(fd)]))
  {
    var s' := System(s.w, s.conns + [NewConn(fd)]);
    NewConnGood(d0.Visible(), s.w, fd);
    AcceptedTemps(d0, s, fd);
    AcceptedDistinct(s, fd);
    hide GoodWorlds, GoodConns, HeardConns, GroundedConns, TempsAccounted, Disk.Valid, Conn.WellFormed, NewConn,
         DistinctDescriptors, DistinctTemps;
    assert forall id | 0 <= id < |s.conns| :: s'.conns[id] == s.conns[id];
  }

  lemma AcceptedDistinct(s: System, fd: nat)
    requires DistinctDescriptors(s.conns) && DistinctTemps(s.conns) && !s.InUse(fd)
    ensures var conns := s.conns + [NewConn(fd)]; DistinctDescriptors(conns) && DistinctTemps(conns)
  {
  }

  lemma NewConnGood(init: map<string, string>, w: World, fd: nat)
    ensures NewConn(fd) in GoodConns(init, w) && NewConn(fd) in HeardConns() && NewConn(fd) in GroundedConns(init, w)
  {
  }

  lemma AcceptedTemps(d0: Disk, s: System, fd: nat)
    requires TempsAccounted(d0, s)
    ensures TempsAccounted(d0, System(s.w, s.conns + [NewConn(fd)]))
  {
    var s' := System(s.w, s.conns + [NewConn(fd)]);
    forall n | IsTempName(n) && n in s.w.disk.names
      ensures n in d0.names || exists k | 0 <= k < |s'.conns| :: s'.conns[k].temp == n
    {
      if n !in d0.names {
        var k :| 0 <= k < |s.conns| && s.conns[k].temp == n;
        assert s'.conns[k].temp == n;
      }
    }
  }

  lemma {:induction false} NextGood(d0: Disk, s: System, e: Event)
    requires s.WellFormed() && d0.Valid() && SystemInv(d0, s) && NoTempRequests(Next(s, e))
    ensures SystemInv(d0, Next(s, e))
  {
    hide SystemInv, Dispatch, CloseClient, NewConn, NoTempRequest, Conn.WellFormed;
    if Possible(s, e) {
      match e {
        case Accept(fd) => AcceptGood(d0, s, fd);
        case Handle(id, input) =>
          assert Next(s, e).conns[id] == Dispatch(s.w, s.conns[id], input).c;
          HandleGood(d0, s, id, input);
        case Drop(id) => DropGood(d0, s, id);
      }
    }
  }

  lemma DispatchDescriptor(w: World, c: Conn, i: Input)
    requires c.WellFormed() && c.Live()
    ensures Dispatch(w, c, i).c.fd == c.fd || Dispatch(w, c, i).c.fd == -1
  {
    hide ClientEvent;
  }

  lemma NextDistinct(s: System, e: Event)
    requires s.WellFormed() && DistinctDescriptors(s.conns)
    ensures DistinctDescriptors(Next(s, e).conns)
  {
    hide Dispatch, Conn.WellFormed;
    if e.Handle? && Possible(s, e) {
      DispatchDescriptor(s.w, s.conns[e.id], e.input);
    }
  }

  /** In every run no two live connections share a descriptor, although descriptors are used again. */
  lemma {:induction false} DescriptorsStayDistinct(d: Disk, events: seq<Event>)
    ensures DistinctDescriptors(Run(Start(d), events).conns)
  {
    hide Next;
    if events != [] {
      DescriptorsStayDistinct(d, events[..|events| - 1]);
      NextDistinct(Run(Start(d), events[..|events| - 1]), events[|events| - 1]);
    }
  }
}
