/**
 The end of every transfer in which nothing fails: whatever the others do, each step of either program brings it
 closer to the end, and it can always be led there through channels of any capacity.
 */
module Termination {
  import opened Text
  import opened Requests
  import opened Storage
  import opened Connection
  import opened ConnectionInvariant
  import opened Transcript
  import opened Grounds
  import opened System
  import opened Peer
  import opened Net
  import opened EndToEnd
  import opened Lifecycle
  import opened Progress
  import opened Completion

  /** Connection `id` has a client at its other end, and nothing has failed between the two. */
  ghost predicate HealthyAt(d0: Disk, n: Net, id: nat)
    requires d0.Valid()
  {
    && NetInv(d0, n) && NoTempRequests(n.sys)
    && id in n.links && id < |n.sys.conns| && !IsTempName(n.links[id].peer.remote)
    && Healthy(d0.Visible(), n.sys.w, n.sys.conns[id], n.links[id])
  }

  ghost predicate UnbrokenAt(n: Net, id: nat) {
    && id in n.links && id < |n.sys.conns| && n.sys.conns[id].WellFormed()
    && Unbroken(n.sys.conns[id], n.links[id].peer)
  }

  /** Nothing fails on connection `id`; anything may happen elsewhere. */
  predicate FaultFreeFor(e: NetEvent, id: nat) {
    match e
    case Connect(_, _, _, _) => true
    case Server(ev) => Moved(ev) == Some(id) ==> ev.Handle? && FaultFree(ev.input)
    case Client(other, pe) => other == id ==> FaultFreeClient(pe)
  }

  lemma StillPaired(d0: Disk, n: Net, id: nat)
    requires d0.Valid() && NetInv(d0, n) && id in n.links && id < |n.sys.conns| && SafeFilename(n.links[id].peer.remote)
    ensures Paired(d0.Visible(), n.sys.w, n.sys.conns[id], n.links[id]) && n.sys.w in GoodWorlds(d0.Visible())
    ensures n.sys.conns[id].WellFormed()
  {
    hide GoodConns, HeardConns, GoodWorlds, GoodLinks;
  }

  lemma DeliveredWithin(l: Link, before: Past, after: Past)
    requires l in GoodLinks(before) && Delivers(l, before, after)
    ensures after.received <= l.peer.sent
  {
    hide GoodPeers;
    TakenOff(l.toServer, before.received, after.received);
  }

  lemma ServerStaysUnbroken(d0: Disk, n: Net, id: nat, i: Input)
    requires d0.Valid() && HealthyAt(d0, n, id) && FaultFree(i) && NetPossible(n, Server(Handle(id, i)))
    ensures UnbrokenAt(NetNext(n, Server(Handle(id, i))), id)
  {
    ServerLink(n, Handle(id, i), id);
    HandledAt(n, id, i);
    HealthyParts(d0, n, id);
    hide HealthyAt, Dispatch, NetNext, NetPossible, Joined, FaultFree, Unbroken, IsTempName, Healthy, ServerMoves,
         NoTempRequest;
    DeliveredWithin(n.links[id], n.sys.conns[id].past, NetNext(n, Server(Handle(id, i))).sys.conns[id].past);
    DispatchWell(d0.Visible(), n.sys.w, n.sys.conns[id], n.links[id], i);
  }

  lemma HandledAt(n: Net, id: nat, i: Input)
    requires Joined(n) && NetPossible(n, Server(Handle(id, i))) && id in n.links
    ensures var n' := NetNext(n, Server(Handle(id, i)));
            && id < |n'.sys.conns| && id < |n.sys.conns| && n.sys.conns[id].WellFormed() && n.sys.conns[id].Live()
            && n'.sys.conns[id] == Dispatch(n.sys.w, n.sys.conns[id], i).c && n'.sys.conns[id].WellFormed()
            && id in n'.links && n'.links[id].peer == n.links[id].peer
  {
    hide Dispatch, Conn.WellFormed, Delivers, RightPhase;
  }

  lemma HealthyParts(d0: Disk, n: Net, id: nat)
    requires d0.Valid() && HealthyAt(d0, n, id)
    ensures var c, l := n.sys.conns[id], n.links[id];
            && Healthy(d0.Visible(), n.sys.w, c, l) && n.sys.w in GoodWorlds(d0.Visible()) && l in GoodLinks(c.past)
            && RightPhase(l.peer) && !IsTempName(l.peer.remote) && NoTempRequest(c) && c.WellFormed()
  {
    hide GoodConns, HeardConns, GroundedConns, GoodWorlds, GoodLinks, Healthy, IsTempName;
  }

  lemma ClientStaysUnbroken(d0: Disk, n: Net, id: nat, pe: PeerEvent)
    requires d0.Valid() && HealthyAt(d0, n, id) && FaultFreeClient(pe) && NetPossible(n, Client(id, pe))
    ensures UnbrokenAt(NetNext(n, Client(id, pe)), id)
  {
    ClientAt(n, id, pe);
    HealthyParts(d0, n, id);
    hide HealthyAt, NetNext, NetPossible, Joined, FaultFreeClient, Unbroken, IsTempName, Healthy, PeerStep, RightPhase;
    ClientWell(d0.Visible(), n.sys.w, n.sys.conns[id], n.links[id], pe);
  }

  lemma ClientAt(n: Net, id: nat, pe: PeerEvent)
    requires Joined(n) && id in n.links && NetPossible(n, Client(id, pe)) && RightPhase(n.links[id].peer)
    ensures var n' := NetNext(n, Client(id, pe));
            n'.sys == n.sys && id in n'.links && n'.links[id].peer == PeerStep(n.links[id].peer, pe)
  {
    hide PeerStep, System.WellFormed, RightPhase;
  }

  /** An event for another connection leaves both ends as they are. */
  lemma OthersLeaveAlone(n: Net, e: NetEvent, id: nat)
    requires Joined(n) && id in n.links
    requires !(e.Server? && Moved(e.e) == Some(id)) && !(e.Client? && e.id == id)
    ensures var n' := NetNext(n, e);
            id in n'.links && n'.links[id] == n.links[id] && id < |n'.sys.conns| && n'.sys.conns[id] == n.sys.conns[id]
  {
    hide Next, Possible;
    match e {
      case Connect(fd, _, _, _) =>
        if NetPossible(n, e) {
          OthersStay(n.sys, Accept(fd), id);
        }
      case Server(ev) =>
        if NetPossible(n, e) {
          OthersStay(n.sys, ev, id);
        }
      case Client(_, _) =>
    }
  }

  /** A step in which nothing fails for this transfer breaks nothing. */
  lemma StaysHealthy(d0: Disk, n: Net, e: NetEvent, id: nat)
    requires d0.Valid() && HealthyAt(d0, n, id) && FaultFreeFor(e, id) && NoTempRequests(NetNext(n, e).sys)
    ensures HealthyAt(d0, NetNext(n, e), id)
  {
    NetNextGood(d0, n, e);
    JobStays(n, e, id);
    EndsStayUnbroken(d0, n, e, id);
    var n' := NetNext(n, e);
    StillHealthy(d0, n, n', id);
    hide NetInv, Healthy, NoTempRequests, IsTempName, NetNext;
  }

  lemma StillHealthy(d0: Disk, n: Net, n': Net, id: nat)
    requires d0.Valid() && HealthyAt(d0, n, id) && NetInv(d0, n') && id in n'.links && id < |n'.sys.conns|
    requires n'.links[id].peer.job == n.links[id].peer.job && n'.links[id].peer.remote == n.links[id].peer.remote
    requires UnbrokenAt(n', id)
    ensures Healthy(d0.Visible(), n'.sys.w, n'.sys.conns[id], n'.links[id])
  {
    hide NetInv, GoodConns, HeardConns, GroundedConns, GoodLinks, NoTempRequests, IsTempName, ValidRequest, Unbroken,
         SafeFilename;
    StillPaired(d0, n', id);
  }

  lemma EndsStayUnbroken(d0: Disk, n: Net, e: NetEvent, id: nat)
    requires d0.Valid() && HealthyAt(d0, n, id) && FaultFreeFor(e, id)
    ensures UnbrokenAt(NetNext(n, e), id)
  {
    UnbrokenNow(d0, n, id);
    hide HealthyAt, Joined, NetNext, NetPossible, UnbrokenAt, FaultFree, FaultFreeClient;
    if NetPossible(n, e) && e.Server? && Moved(e.e) == Some(id) {
      ServerStaysUnbroken(d0, n, id, e.e.input);
    } else if NetPossible(n, e) && e.Client? && e.id == id {
      ClientStaysUnbroken(d0, n, id, e.pe);
    } else {
      OthersStayUnbroken(n, e, id);
    }
  }

  lemma OthersStayUnbroken(n: Net, e: NetEvent, id: nat)
    requires Joined(n) && UnbrokenAt(n, id)
    requires NetPossible(n, e) ==> !(e.Server? && Moved(e.e) == Some(id)) && !(e.Client? && e.id == id)
    ensures UnbrokenAt(NetNext(n, e), id)
  {
    if NetPossible(n, e) {
      OthersLeaveAlone(n, e, id);
    } else {
      Impossible(n, e);
    }
    hide NetNext, NetPossible, Joined, Unbroken, Conn.WellFormed;
  }

  lemma UnbrokenNow(d0: Disk, n: Net, id: nat)
    requires d0.Valid() && HealthyAt(d0, n, id)
    ensures Joined(n) && UnbrokenAt(n, id)
  {
    hide SystemInv, GoodLinks, Paired, Unbroken, NoTempRequests, IsTempName, ValidRequest;
  }

  lemma Impossible(n: Net, e: NetEvent)
    requires Joined(n) && !NetPossible(n, e)
    ensures NetNext(n, e) == n
  {
  }

  /** A link keeps its job and its connection. */
  lemma JobStays(n: Net, e: NetEvent, id: nat)
    requires Joined(n) && id in n.links
    ensures var n' := NetNext(n, e);
            id in n'.links && id < |n'.sys.conns| && n'.links[id].peer.job == n.links[id].peer.job
              && n'.links[id].peer.remote == n.links[id].peer.remote
  {
    hide Next, RunPeer, PeerStep;
  }

  // ---------------------------------------------------------------------------
  // Every step brings the transfer closer to its end

  function Ranks(c: Conn, p: Peer): nat {
    Rank(c) + PeerRank(p)
  }

  function Lefts(c: Conn, p: Peer): nat
    requires c.WellFormed()
  {
    Left(c) + PeerLeft(p)
  }

  /** The lexicographic order on phases and bytes left, over both programs. */
  ghost predicate Closer(c': Conn, p': Peer, c: Conn, p: Peer)
    requires c.WellFormed() && c'.WellFormed()
  {
    Ranks(c', p') < Ranks(c, p) || (Ranks(c', p') == Ranks(c, p) && Lefts(c', p') < Lefts(c, p))
  }

  ghost predicate SameAt(n: Net, n': Net, id: nat)
    requires id in n.links && id in n'.links && id < |n.sys.conns| && id < |n'.sys.conns|
  {
    n'.sys.conns[id] == n.sys.conns[id] && n'.links[id].peer == n.links[id].peer
  }

  lemma ServerStepCloser(d0: Disk, n: Net, id: nat, e: Event)
    requires d0.Valid() && NetInv(d0, n) && id in n.links && id < |n.sys.conns| && Moved(e) == Some(id)
             && Possible(n.sys, e)
    ensures id < |Next(n.sys, e).conns|
    ensures var c, c' := n.sys.conns[id], Next(n.sys, e).conns[id];
            c.WellFormed() && c'.WellFormed() && (c' == c || Below(c', c))
  {
    GoodAt(d0, n, id);
    hide NetInv, GoodConns, HeardConns, Dispatch, CloseClient, Conn.WellFormed, Below;
    if e.Handle? {
      EventsDescend(d0.Visible(), n.sys.w, n.sys.conns[id], e.input);
    } else {
      ClosedBelow(n.sys.w, n.sys.conns[id], n.sys.conns[id]);
    }
  }

  lemma GoodAt(d0: Disk, n: Net, id: nat)
    requires d0.Valid() && NetInv(d0, n) && id in n.links
    ensures Joined(n) && id < |n.sys.conns| && n.sys.conns[id].WellFormed()
    ensures n.sys.conns[id] in GoodConns(d0.Visible(), n.sys.w) && n.sys.conns[id] in HeardConns()
    ensures n.links[id].peer in GoodPeers() && RightPhase(n.links[id].peer)
  {
    hide GoodConns, HeardConns, GroundedConns, GoodWorlds, GoodPeers, RightPhase, Conn.WellFormed;
  }

  ghost predicate SameOrCloser(n: Net, n': Net, id: nat) {
    && id in n.links && id in n'.links && id < |n.sys.conns| && id < |n'.sys.conns|
    && n.sys.conns[id].WellFormed() && n'.sys.conns[id].WellFormed()
    && (SameAt(n, n', id) || Closer(n'.sys.conns[id], n'.links[id].peer, n.sys.conns[id], n.links[id].peer))
  }

  /** With or without faults: a step leaves both ends exactly as they are, or brings them closer to the end. */
  lemma EveryStepCloser(d0: Disk, n: Net, e: NetEvent, id: nat)
    requires d0.Valid() && NetInv(d0, n) && id in n.links
    ensures SameOrCloser(n, NetNext(n, e), id)
  {
    GoodAt(d0, n, id);
    if NetPossible(n, e) && e.Server? && Moved(e.e) == Some(id) {
      ServerEndCloser(d0, n, id, e.e);
    } else if NetPossible(n, e) && e.Client? && e.id == id {
      ClientEndCloser(d0, n, id, e.pe);
    } else {
      BystandersSame(n, e, id);
    }
    hide NetInv, NetNext, NetPossible, Joined, SameOrCloser;
  }

  /** An event that does not happen, or happens to others. */
  lemma BystandersSame(n: Net, e: NetEvent, id: nat)
    requires Joined(n) && id in n.links && id < |n.sys.conns| && n.sys.conns[id].WellFormed()
    requires NetPossible(n, e) ==> !(e.Server? && Moved(e.e) == Some(id)) && !(e.Client? && e.id == id)
    ensures SameOrCloser(n, NetNext(n, e), id)
  {
    if NetPossible(n, e) {
      OthersLeaveAlone(n, e, id);
    } else {
      Impossible(n, e);
    }
    hide NetNext, NetPossible, Joined, Closer, Conn.WellFormed;
  }

  lemma ServerEndCloser(d0: Disk, n: Net, id: nat, e: Event)
    requires d0.Valid() && NetInv(d0, n) && id in n.links && Joined(n) && Moved(e) == Some(id)
    requires NetPossible(n, Server(e))
    ensures SameOrCloser(n, NetNext(n, Server(e)), id)
  {
    GoodAt(d0, n, id);
    ServerStep(n, e);
    ServerLink(n, e, id);
    hide NetInv, NetNext, NetPossible, Joined, Next, Possible, Rank, Left, PeerRank, PeerLeft, Delivers, GoodConns,
         HeardConns, GoodPeers;
    ServerStepCloser(d0, n, id, e);
  }

  lemma ClientEndCloser(d0: Disk, n: Net, id: nat, pe: PeerEvent)
    requires d0.Valid() && NetInv(d0, n) && id in n.links && Joined(n) && NetPossible(n, Client(id, pe))
    ensures SameOrCloser(n, NetNext(n, Client(id, pe)), id)
  {
    GoodAt(d0, n, id);
    ClientAt(n, id, pe);
    hide NetInv, NetNext, NetPossible, Joined, Rank, Left, PeerRank, PeerLeft, GoodConns, HeardConns, GoodPeers,
         PeerStep, RightPhase;
    PeerDescends(n.links[id].peer, pe);
  }

  // ---------------------------------------------------------------------------
  // There is always a step to take

  predicate Within(l: Link, capacity: nat) {
    |l.toServer| <= capacity && |l.toClient| <= capacity
  }

  /** A poll event for the connection reports only what the poll array asks for in its state. */
  predicate PolledFor(n: Net, e: NetEvent, id: nat) {
    e.Server? && e.e.Handle? && e.e.id == id && id < |n.sys.conns| ==> AsRequested(n.sys.conns[id].state, e.e.input)
  }

  /**
   A possible event of this transfer in which nothing fails and poll reports only what it was asked for, which changes
   one of the ends and respects the channels.
   */
  ghost predicate Productive(n: Net, e: NetEvent, id: nat, capacity: nat)
    requires Joined(n) && id in n.links
  {
    && NetPossible(n, e) && FaultFreeFor(e, id) && PolledFor(n, e, id)
    && var n' := NetNext(n, e);
    && id in n'.links && id < |n'.sys.conns| && !SameAt(n, n', id)
    && (Within(n.links[id], capacity) ==> Within(n'.links[id], capacity))
    && NoTempRequests(n'.sys)
  }

  const GOOD_WORK := LocalOutcomes(true, true, true, true, BUFFER_SIZE)

  /** What the client does next when it can act. */
  function ClientMove(l: Link): PeerEvent {
    if CanWork(l.peer) then Works(GOOD_WORK)
    else if IsSending(l.peer) then Sends(Sent(1))
    else if l.toClient != "" then Receives(Data(l.toClient[..1]))
    else Works(GOOD_WORK)
  }

  lemma WorkIsQuiet(p: Peer, l: LocalOutcomes)
    requires CanWork(p) && RightPhase(p)
    ensures Work(p, l).sent == p.sent && Work(p, l).received == p.received
  {
    if AwaitsLine(p) {
      WorkedFrom(p, l);
    }
    hide WorkOnLine, AwaitsLine, IsErrorLine, OkSizeOf;
  }

  lemma ClientMoveWorks(l: Link, capacity: nat)
    requires ClientCanAct(l, capacity) && l.peer in GoodPeers() && RightPhase(l.peer)
    ensures var pe := ClientMove(l);
            && FaultFreeClient(pe) && CanHappen(l, pe) && PeerStep(l.peer, pe) != l.peer
            && (Within(l, capacity) ==> Within(ClientMoves(l, pe), capacity))
  {
    var p := l.peer;
    hide GoodPeers, TextOf, AskedBy, Split, Confirmed, Work, CanWork, RightPhase;
    if CanWork(p) {
      WorkIsQuiet(p, GOOD_WORK);
      WorkDescends(p, GOOD_WORK);
      hide PeerBelow, PeerRank, PeerLeft;
      BelowDiffers(p, Work(p, GOOD_WORK));
    } else if IsSending(p) {
      SomethingOut(p);
      OneByteSent(p);
    }
  }

  lemma BelowDiffers(p: Peer, q: Peer)
    requires PeerBelow(q, p)
    ensures q != p
  {
  }

  lemma OneByteSent(p: Peer)
    requires IsSending(p) && RightPhase(p) && Outgoing(p) != "" 
    ensures var q := Advance(p, 1); q.sent == p.sent + Outgoing(p)[..1] && q.received == p.received
  {
    hide TextOf, AskedBy;
  }

  lemma ClientProductive(n: Net, id: nat, pe: PeerEvent, capacity: nat)
    requires Joined(n) && id in n.links && NoTempRequests(n.sys)
    requires FaultFreeClient(pe) && CanHappen(n.links[id], pe) && PeerStep(n.links[id].peer, pe) != n.links[id].peer
    requires Within(n.links[id], capacity) ==> Within(ClientMoves(n.links[id], pe), capacity)
    ensures Productive(n, Client(id, pe), id, capacity)
  {
    hide NoTempRequests, FaultFreeClient, CanHappen, PeerStep, Within, RightPhase, System.WellFormed;
  }

  lemma LinkFacts(d0: Disk, n: Net, id: nat)
    requires d0.Valid() && HealthyAt(d0, n, id)
    ensures Joined(n) && NoTempRequests(n.sys) && n.links[id].peer in GoodPeers() && RightPhase(n.links[id].peer)
  {
    hide SystemInv, GoodPeers, Healthy, NoTempRequests, RightPhase, IsTempName, System.WellFormed;
  }

  lemma ClientCanStep(d0: Disk, n: Net, id: nat, capacity: nat)
    requires d0.Valid() && HealthyAt(d0, n, id) && ClientCanAct(n.links[id], capacity)
    ensures Productive(n, Client(id, ClientMove(n.links[id])), id, capacity)
  {
    LinkFacts(d0, n, id);
    hide HealthyAt, Joined, GoodPeers, RightPhase, NoTempRequests, ClientMove, ClientCanAct, FaultFreeClient,
         CanHappen, PeerStep, Within;
    ClientMoveWorks(n.links[id], capacity);
    ClientProductive(n, id, ClientMove(n.links[id]), capacity);
  }

  const NO_FAULTS := FileOutcomes(true, true, true, true, true, true, true, true, BUFFER_SIZE)

  /** What the server does next when it can act: read one byte, or write one. */
  function ServerMove(c: Conn, l: Link): Input {
    if c.WantsInput() then
      Input(true, false, false, false, if l.toServer == "" then [] else [Data(l.toServer[..1])], [], NO_FAULTS)
    else Input(false, true, false, false, [], [Sent(1)], NO_FAULTS)
  }

  lemma ReadsOne(w: World, c: Conn, chunk: Chunk)
    requires c.WellFormed() && c.Live() && c.WantsInput()
    ensures var c' := Dispatch(w, c, Input(true, false, false, false, [Data(chunk)], [], NO_FAULTS)).c;
            c'.past.received == c.past.received + chunk && c'.past.sent == c.past.sent
  {
    hide RequestData, UploadData;
  }

  lemma WritesFile(w: World, c: Conn, s: SendOutcome)
    requires c.WellFormed() && c.Live() && c.state.SendingFile? && s == Sent(1)
    ensures var r := FileWritable(w, c, s, NO_FAULTS);
            && (r.ok ==> r.c != c) && c.past.sent <= r.c.past.sent && |r.c.past.sent| <= |c.past.sent| + 1
  {
    if c.windowOffset == |c.window| {
      RefillMoves(w, c);
      var filled := Refill(w, c, NO_FAULTS);
      WindowMoves(w, filled.c, s);
    } else {
      WindowMoves(w, c, s);
    }
    hide Refill, SendWindow;
  }

  lemma RefillMoves(w: World, c: Conn)
    requires c.WellFormed() && c.state.SendingFile? && c.windowOffset == |c.window|
    ensures var r := Refill(w, c, NO_FAULTS);
            && r.c.past == c.past && r.c.transferred == c.transferred && (r.ok ==> r.c.windowOffset == 0 < |r.c.window|)
  {
    hide Disk.Read;
  }

  lemma WindowMoves(w: World, c: Conn, s: SendOutcome)
    requires c.WellFormed() && c.state.SendingFile? && s == Sent(1)
    ensures var r := SendWindow(w, c, s);
            && (c.windowOffset < |c.window| ==> r.c.transferred == c.transferred + 1)
            && c.past.sent <= r.c.past.sent && |r.c.past.sent| <= |c.past.sent| + 1
  {
  }

  lemma WritesLine(c: Conn)
    requires c.WellFormed() && c.pendingOffset < |c.pending|
    ensures var f := FlushPending(c, [Sent(1)]);
            f.c.past.sent == c.past.sent + c.pending[c.pendingOffset..c.pendingOffset + 1]
              && f.c.past.received == c.past.received
  {
    assert [Sent(1)][1..] == [];
    assert FlushPending(AcceptPart(c, 1), []).c.past == AcceptPart(c, 1).past;
  }

  lemma DrainsQuietly(w: World, c: Conn, files: FileOutcomes)
    requires c.WellFormed() && c.window == ""
    ensures AfterDrain(w, c, files).c.past.sent == c.past.sent
  {
    hide OkLine, ErrorLine;
  }

  lemma WritesOne(init: map<string, string>, w: World, c: Conn)
    requires c in GoodConns(init, w) && c.WellFormed() && c.Live() && !c.WantsInput()
    ensures var c' := Dispatch(w, c, Input(false, true, false, false, [], [Sent(1)], NO_FAULTS)).c;
            && c' != c && c'.past.received == c.past.received
            && c.past.sent <= c'.past.sent && |c'.past.sent| <= |c.past.sent| + 1
  {
    assert !c.state.SendingFile? ==> c.pendingOffset < |c.pending|;
    hide GoodConns, FlushPending, FileWritable, AfterDrain, Conn.WellFormed;
    if c.state.SendingFile? {
      WritesFile(w, c, Sent(1));
    } else {
      WritesLine(c);
      DrainsQuietly(w, FlushPending(c, [Sent(1)]).c, NO_FAULTS);
    }
  }

  lemma ServerMoveWorks(init: map<string, string>, w: World, c: Conn, l: Link, capacity: nat)
    requires c in GoodConns(init, w) && c.WellFormed() && ServerCanAct(c, l, capacity)
    ensures var i := ServerMove(c, l); var c' := Dispatch(w, c, i).c;
            && FaultFree(i) && AsRequested(c.state, i) && c' != c && Delivers(l, c.past, c'.past)
            && (Within(l, capacity) ==> Within(ServerMoves(l, c.past, c'.past), capacity))
  {
    hide GoodConns, Dispatch, Conn.WellFormed;
    if c.WantsInput() {
      ReadsOne(w, c, l.toServer[..1]);
    } else {
      WritesOne(init, w, c);
    }
  }

  lemma ServerProductive(n: Net, id: nat, i: Input, capacity: nat)
    requires Joined(n) && id in n.links && NoTempRequests(n.sys) && n.sys.conns[id].WellFormed()
             && n.sys.conns[id].Live() && FaultFree(i) && AsRequested(n.sys.conns[id].state, i)
    requires var c, c' := n.sys.conns[id], Dispatch(n.sys.w, n.sys.conns[id], i).c;
             && c' != c && NoTempRequest(c') && Delivers(n.links[id], c.past, c'.past)
             && (Within(n.links[id], capacity) ==> Within(ServerMoves(n.links[id], c.past, c'.past), capacity))
    ensures Productive(n, Server(Handle(id, i)), id, capacity)
  {
    hide NoTempRequest, FaultFree, AsRequested, Dispatch, Within, RightPhase, Delivers, Conn.WellFormed;
  }

  lemma ServerCanStep(d0: Disk, n: Net, id: nat, capacity: nat)
    requires d0.Valid() && HealthyAt(d0, n, id) && n.sys.conns[id].WellFormed()
             && ServerCanAct(n.sys.conns[id], n.links[id], capacity)
    ensures Productive(n, Server(Handle(id, ServerMove(n.sys.conns[id], n.links[id]))), id, capacity)
  {
    LinkFacts(d0, n, id);
    ConnFacts(d0, n, id);
    hide HealthyAt, Healthy, Joined, GoodPeers, GoodConns, GoodLinks, GoodWorlds, RightPhase, ServerMove,
         FaultFree, AsRequested, Dispatch, Within, Delivers, Conn.WellFormed, IsTempName, Unbroken;
    var w, c, l := n.sys.w, n.sys.conns[id], n.links[id];
    ServerMoveWorks(d0.Visible(), w, c, l, capacity);
    DeliveredWithin(l, c.past, Dispatch(w, c, ServerMove(c, l)).c.past);
    DispatchWell(d0.Visible(), w, c, l, ServerMove(c, l));
    ServerProductive(n, id, ServerMove(c, l), capacity);
  }

  lemma ConnFacts(d0: Disk, n: Net, id: nat)
    requires d0.Valid() && HealthyAt(d0, n, id)
    ensures Healthy(d0.Visible(), n.sys.w, n.sys.conns[id], n.links[id]) && n.sys.w in GoodWorlds(d0.Visible())
    ensures n.sys.conns[id] in GoodConns(d0.Visible(), n.sys.w) && n.links[id] in GoodLinks(n.sys.conns[id].past)
    ensures NoTempRequest(n.sys.conns[id]) && !IsTempName(n.links[id].peer.remote)
  {
    hide GoodConns, GoodLinks, GoodWorlds, HeardConns, NoTempRequest, Unbroken;
  }

  /** From every state before the end there is a productive step, even if each channel holds one byte only. */
  lemma NeverStuck(d0: Disk, n: Net, id: nat, capacity: nat)
    requires d0.Valid() && HealthyAt(d0, n, id) && !n.links[id].peer.phase.Done? && capacity > 0
    ensures Joined(n) && exists e :: Productive(n, e, id, capacity)
  {
    LinkFacts(d0, n, id);
    ConnFacts(d0, n, id);
    hide HealthyAt, Joined, GoodPeers, GoodConns, GoodLinks, GoodWorlds, RightPhase, Productive, ClientCanAct,
         ServerCanAct, ClientMove, ServerMove, Conn.WellFormed, IsTempName, Unbroken, Paired;
    NoDeadlock(d0.Visible(), n.sys.w, n.sys.conns[id], n.links[id], capacity);
    if ClientCanAct(n.links[id], capacity) {
      ClientCanStep(d0, n, id, capacity);
    } else {
      ServerCanStep(d0, n, id, capacity);
    }
  }

  // ---------------------------------------------------------------------------
  // Whole runs

  lemma AfterOne(d0: Disk, events: seq<NetEvent>, e: NetEvent)
    ensures After(d0, events + [e]) == NetNext(After(d0, events), e)
  {
    var all := events + [e];
    assert all[..|all| - 1] == events;
    hide NetNext;
  }

  lemma CleanOne(d0: Disk, events: seq<NetEvent>, e: NetEvent)
    requires CleanNetRun(d0, events) && NoTempRequests(NetNext(After(d0, events), e).sys)
    ensures CleanNetRun(d0, events + [e])
  {
    AfterOne(d0, events, e);
    var all := events + [e];
    hide After, NetNext, NoTempRequests;
    forall k | 0 <= k <= |all|
      ensures NoTempRequests(After(d0, all[..k]).sys)
    {
      if k == |all| {
        assert all[..k] == all;
      } else {
        assert all[..k] == events[..k];
      }
    }
  }

  /** The client has ended; unless the server did not have the name of a download, it reports success. */
  predicate Concluded(c: Conn, p: Peer) {
    p.phase == Done(true) || (p.phase == Done(false) && p.job.Download? && c.state.SendingError? && c.past.missing)
  }

  ghost predicate InProgress(d0: Disk, events: seq<NetEvent>, id: nat) {
    d0.Valid() && CleanNetRun(d0, events) && HealthyAt(d0, After(d0, events), id)
  }

  lemma StepOn(d0: Disk, events: seq<NetEvent>, e: NetEvent, id: nat, capacity: nat)
    requires InProgress(d0, events, id) && Productive(After(d0, events), e, id, capacity)
    ensures InProgress(d0, events + [e], id)
    ensures var n, n' := After(d0, events), After(d0, events + [e]);
            && n.sys.conns[id].WellFormed() && n'.sys.conns[id].WellFormed()
            && Closer(n'.sys.conns[id], n'.links[id].peer, n.sys.conns[id], n.links[id].peer)
            && (Within(n.links[id], capacity) ==> Within(n'.links[id], capacity))
  {
    var n := After(d0, events);
    AfterOne(d0, events, e);
    CleanOne(d0, events, e);
    hide After, NetNext, CleanNetRun, NoTempRequests, Within, FaultFreeFor, Closer, Conn.WellFormed, Healthy,
         NetPossible;
    StaysHealthy(d0, n, e, id);
    EveryStepCloser(d0, n, e, id);
  }

  predicate ConcludedAfter(d0: Disk, events: seq<NetEvent>, id: nat) {
    var n := After(d0, events);
    id in n.links && id < |n.sys.conns| && Concluded(n.sys.conns[id], n.links[id].peer)
  }

  function RanksAfter(d0: Disk, events: seq<NetEvent>, id: nat): nat {
    var n := After(d0, events);
    if id in n.links && id < |n.sys.conns| then Ranks(n.sys.conns[id], n.links[id].peer) else 0
  }

  function LeftsAfter(d0: Disk, events: seq<NetEvent>, id: nat): nat {
    var n := After(d0, events);
    if id in n.links && id < |n.sys.conns|
      && n.sys.conns[id].WellFormed() then Lefts(n.sys.conns[id], n.links[id].peer) else 0
  }

  /** Every state on the way keeps both channels within the capacity. */
  ghost predicate AllWithin(d0: Disk, events: seq<NetEvent>, more: seq<NetEvent>, id: nat, capacity: nat) {
    forall k | 0 <= k <= |more| :: WithinAfter(d0, events + more[..k], id, capacity)
  }

  predicate WithinAfter(d0: Disk, events: seq<NetEvent>, id: nat, capacity: nat) {
    var n := After(d0, events);
    id in n.links && Within(n.links[id], capacity)
  }

  lemma AllWithinMore(d0: Disk, events: seq<NetEvent>, e: NetEvent, more: seq<NetEvent>, id: nat, capacity: nat)
    requires WithinAfter(d0, events, id, capacity) && AllWithin(d0, events + [e], more, id, capacity)
    ensures AllWithin(d0, events, [e] + more, id, capacity)
  {
    hide WithinAfter;
    forall k | 0 <= k <= |more| + 1
      ensures WithinAfter(d0, events + ([e] + more)[..k], id, capacity)
    {
      if k == 0 {
        assert events + ([e] + more)[..k] == events;
      } else {
        assert events + ([e] + more)[..k] == (events + [e]) + more[..k - 1];
      }
    }
  }

  lemma InProgressFacts(d0: Disk, events: seq<NetEvent>, id: nat)
    requires InProgress(d0, events, id)
    ensures d0.Valid() && HealthyAt(d0, After(d0, events), id)
    ensures id in After(d0, events).links && id < |After(d0, events).sys.conns|
  {
    hide After, CleanNetRun;
  }

  lemma DoneConcludes(d0: Disk, n: Net, id: nat)
    requires d0.Valid() && HealthyAt(d0, n, id) && n.links[id].peer.phase.Done?
    ensures Concluded(n.sys.conns[id], n.links[id].peer)
  {
    hide NetInv, Paired, NoTempRequests, IsTempName;
  }

  ghost predicate StepsCloser(d0: Disk, events: seq<NetEvent>, id: nat, capacity: nat, e: NetEvent) {
    && InProgress(d0, events + [e], id) && WithinAfter(d0, events + [e], id, capacity)
    && (RanksAfter(d0, events + [e], id) < RanksAfter(d0, events, id)
        || (RanksAfter(d0, events + [e], id) == RanksAfter(d0, events, id)
            && LeftsAfter(d0, events + [e], id) < LeftsAfter(d0, events, id)))
  }

  lemma GoesOn(d0: Disk, events: seq<NetEvent>, id: nat, capacity: nat, e: NetEvent)
    requires InProgress(d0, events, id) && WithinAfter(d0, events, id, capacity) && id in After(d0, events).links
    requires Productive(After(d0, events), e, id, capacity)
    ensures StepsCloser(d0, events, id, capacity, e)
  {
    hide After, Joined, HealthyAt, Productive, CleanNetRun, Conn.WellFormed, InProgress, Within, Ranks, Lefts;
    StepOn(d0, events, e, id, capacity);
    InProgressFacts(d0, events, id);
    InProgressFacts(d0, events + [e], id);
  }

  /** Either the transfer has come to its end, or a productive step brings it closer. */
  lemma NextStep(d0: Disk, events: seq<NetEvent>, id: nat, capacity: nat)
    requires InProgress(d0, events, id) && WithinAfter(d0, events, id, capacity) && capacity > 0
    ensures ConcludedAfter(d0, events, id) || exists e :: StepsCloser(d0, events, id, capacity, e)
  {
    InProgressFacts(d0, events, id);
    var n := After(d0, events);
    if n.links[id].peer.phase.Done? {
      DoneConcludes(d0, n, id);
    } else {
      hide After, Joined, HealthyAt, Productive, CleanNetRun, InProgress, StepsCloser, WithinAfter;
      NeverStuck(d0, n, id, capacity);
      var e :| Productive(n, e, id, capacity);
      GoesOn(d0, events, id, capacity, e);
    }
  }

  ghost predicate EndsWell(d0: Disk, events: seq<NetEvent>, id: nat, capacity: nat, more: seq<NetEvent>) {
    && InProgress(d0, events + more, id) && ConcludedAfter(d0, events + more, id)
    && AllWithin(d0, events, more, id, capacity)
  }

  /**
   Completion: from every state of a transfer in which nothing has failed, with channels that hold at least one byte,
   productive steps lead to the end, and the end is success unless the server has refused a download.
   */
  lemma {:induction false} Finishes(d0: Disk, events: seq<NetEvent>, id: nat, capacity: nat)
    requires InProgress(d0, events, id) && WithinAfter(d0, events, id, capacity) && capacity > 0
    ensures exists more :: EndsWell(d0, events, id, capacity, more)
    decreases RanksAfter(d0, events, id), LeftsAfter(d0, events, id)
  {
    hide WithinAfter, InProgress, ConcludedAfter, RanksAfter, LeftsAfter;
    if ConcludedAfter(d0, events, id) {
      assert events + [] == events && events + [][..0] == events;
      assert EndsWell(d0, events, id, capacity, []);
    } else {
      NextStep(d0, events, id, capacity);
      var e :| StepsCloser(d0, events, id, capacity, e);
      Finishes(d0, events + [e], id, capacity);
      var rest :| EndsWell(d0, events + [e], id, capacity, rest);
      assert events + ([e] + rest) == (events + [e]) + rest;
      AllWithinMore(d0, events, e, rest, id, capacity);
      assert EndsWell(d0, events, id, capacity, [e] + rest);
    }
  }

  // ---------------------------------------------------------------------------
  // Which states these are

  /** A client connects with a request that the server has no reason to refuse out of hand. */
  ghost predicate FreshTransfer(d0: Disk, before: seq<NetEvent>, fd: nat, job: Job, remote: string) {
    && d0.Valid() && CleanNetRun(d0, before)
    && Possible(After(d0, before).sys, Accept(fd))
    && ValidRequest(AskedBy(job, remote)) && !IsTempName(remote)
  }

  /** It is in progress from the moment it is accepted. */
  lemma StartsHealthy(d0: Disk, before: seq<NetEvent>, fd: nat, job: Job, remote: string)
    requires FreshTransfer(d0, before, fd, job, remote)
    ensures InProgress(d0, before + [Connect(fd, job, remote, [])], |After(d0, before).sys.conns|)
  {
    var n, e := After(d0, before), Connect(fd, job, remote, []);
    CleanLast(d0, before);
    FreshConnects(n, fd, job, remote);
    CleanOne(d0, before, e);
    AfterOne(d0, before, e);
    EveryNetRunIsGood(d0, before);
    hide After, NetNext, CleanNetRun, NoTempRequests, NetInv, HealthyAt, ValidRequest, IsTempName, Joined,
         Unbroken, Conn.WellFormed, Possible;
    NetNextGood(d0, n, e);
    HealthyFrom(d0, NetNext(n, e), |n.sys.conns|);
  }

  lemma HealthyFrom(d0: Disk, n: Net, id: nat)
    requires d0.Valid() && NetInv(d0, n) && NoTempRequests(n.sys)
    requires id in n.links && id < |n.sys.conns| && n.sys.conns[id].WellFormed()
             && Unbroken(n.sys.conns[id], n.links[id].peer)
    requires ValidRequest(AskedBy(n.links[id].peer.job, n.links[id].peer.remote))
             && !IsTempName(n.links[id].peer.remote)
    ensures HealthyAt(d0, n, id)
  {
    assert SafeFilename(n.links[id].peer.remote);
    hide NetInv, NoTempRequests, ValidRequest, IsTempName, Paired, SafeFilename, Conn.WellFormed, Unbroken;
    StillPaired(d0, n, id);
  }

  lemma FreshConnects(n: Net, fd: nat, job: Job, remote: string)
    requires Joined(n) && NoTempRequests(n.sys) && Possible(n.sys, Accept(fd))
    ensures var id, n' := |n.sys.conns|, NetNext(n, Connect(fd, job, remote, []));
            && id in n'.links && id < |n'.sys.conns| && n'.links[id].peer == NewPeer(job, remote)
            && |n'.sys.conns| == id + 1 && n'.sys.conns[id] == NewConn(fd) && NoTempRequests(n'.sys)
            && n'.sys.conns[id].WellFormed() && Unbroken(n'.sys.conns[id], n'.links[id].peer)
  {
    hide IsTempName;
    assert RunPeer(NewPeer(job, remote), []) == NewPeer(job, remote);
  }

  lemma FaultFreeStep(d0: Disk, events: seq<NetEvent>, e: NetEvent, id: nat)
    requires InProgress(d0, events, id) && CleanNetRun(d0, events + [e]) && FaultFreeFor(e, id)
    ensures InProgress(d0, events + [e], id)
  {
    AfterOne(d0, events, e);
    CleanLast(d0, events + [e]);
    hide After, CleanNetRun, NetNext, NoTempRequests, HealthyAt, FaultFreeFor;
    StaysHealthy(d0, After(d0, events), e, id);
  }

  /**
   In every run, a transfer for which nothing has failed is in progress, whatever happens on the other connections.
   */
  lemma {:induction false} FaultFreeRunsProgress(d0: Disk, events: seq<NetEvent>, more: seq<NetEvent>, id: nat)
    requires InProgress(d0, events, id) && CleanNetRun(d0, events + more)
    requires forall e | e in more :: FaultFreeFor(e, id)
    ensures InProgress(d0, events + more, id)
  {
    hide InProgress, CleanNetRun, FaultFreeFor;
    if more == [] {
      assert events + more == events;
    } else {
      var before, e := more[..|more| - 1], more[|more| - 1];
      assert events + more == (events + before) + [e];
      CleanPrefixNet(d0, events + before, [e]);
      FaultFreeRunsProgress(d0, events, before, id);
      FaultFreeStep(d0, events + before, e, id);
    }
  }

  lemma CleanPrefixNet(d0: Disk, events: seq<NetEvent>, more: seq<NetEvent>)
    requires CleanNetRun(d0, events + more)
    ensures CleanNetRun(d0, events)
  {
    hide After;
    assert forall k | 0 <= k <= |events| :: events[..k] == (events + more)[..k];
  }

  lemma CleanLast(d0: Disk, events: seq<NetEvent>)
    requires CleanNetRun(d0, events)
    ensures NoTempRequests(After(d0, events).sys)
  {
    hide After;
    assert events[..|events|] == events;
  }

  // ---------------------------------------------------------------------------
  // The two transfers

  /** The client at the other end of `id` has this job. */
  predicate HasJob(d0: Disk, events: seq<NetEvent>, id: nat, job: Job, remote: string) {
    var n := After(d0, events);
    id in n.links && n.links[id].peer.job == job && n.links[id].peer.remote == remote
  }

  /** The upload has been confirmed, and its bytes have been committed under its name. */
  predicate UploadDone(d0: Disk, events: seq<NetEvent>, id: nat, local: string, remote: string) {
    var n := After(d0, events);
    id in n.links && n.links[id].peer.phase == Done(true) && Commit(remote, local) in n.sys.w.log
  }

  lemma ConnectedAs(d0: Disk, before: seq<NetEvent>, fd: nat, job: Job, remote: string)
    requires FreshTransfer(d0, before, fd, job, remote)
    ensures HasJob(d0, before + [Connect(fd, job, remote, [])], |After(d0, before).sys.conns|, job, remote)
  {
    CleanLast(d0, before);
    FreshConnects(After(d0, before), fd, job, remote);
    AfterOne(d0, before, Connect(fd, job, remote, []));
    hide After, NetNext;
  }

  lemma {:induction false} JobNeverChanges(d0: Disk, events: seq<NetEvent>, more: seq<NetEvent>, id: nat, job: Job,
        remote: string)
    requires HasJob(d0, events, id, job, remote)
    ensures HasJob(d0, events + more, id, job, remote)
  {
    hide After, NetNext, Joined;
    if more == [] {
      assert events + more == events;
    } else {
      var before, e := more[..|more| - 1], more[|more| - 1];
      assert events + more == (events + before) + [e];
      JobNeverChanges(d0, events, before, id, job, remote);
      AfterOne(d0, events + before, e);
      JobStays(After(d0, events + before), e, id);
    }
  }

  lemma UploadEnds(d0: Disk, events: seq<NetEvent>, id: nat, local: string, remote: string)
    requires InProgress(d0, events, id) && ConcludedAfter(d0, events, id)
             && HasJob(d0, events, id, Upload(local), remote)
    ensures UploadDone(d0, events, id, local, remote)
  {
    InProgressFacts(d0, events, id);
    ConnFacts(d0, After(d0, events), id);
    hide After, HealthyAt, CleanNetRun, Paired, GoodConns, GoodLinks, GoodWorlds, Unbroken;
    assert SafeFilename(After(d0, events).links[id].peer.remote);
    EndToEndUpload(d0, events, id);
  }

  lemma UploadCanEnd(d0: Disk, events: seq<NetEvent>, id: nat, local: string, remote: string)
    requires InProgress(d0, events, id) && HasJob(d0, events, id, Upload(local), remote)
    ensures exists rest :: UploadDone(d0, events + rest, id, local, remote)
  {
    var capacity := Room(d0, events, id);
    hide InProgress, ConcludedAfter, WithinAfter, AllWithin, After, HasJob, UploadDone;
    Finishes(d0, events, id, capacity);
    var rest :| EndsWell(d0, events, id, capacity, rest);
    JobNeverChanges(d0, events, rest, id, Upload(local), remote);
    UploadEnds(d0, events + rest, id, local, remote);
  }

  /**
   An upload for which nothing has failed so far, whatever has happened on the other connections, can always be
   completed, and then it has been confirmed and its bytes have been committed under its name.
   */
  lemma UploadSucceeds(d0: Disk, before: seq<NetEvent>, fd: nat, local: string, remote: string, more: seq<NetEvent>)
    requires FreshTransfer(d0, before, fd, Upload(local), remote)
    requires CleanNetRun(d0, before + [Connect(fd, Upload(local), remote, [])] + more)
    requires forall e | e in more :: FaultFreeFor(e, |After(d0, before).sys.conns|)
    ensures exists rest ::
              UploadDone(d0, before + [Connect(fd, Upload(local), remote, [])] + more + rest,
                         |After(d0, before).sys.conns|, local, remote)
  {
    var first, id := before + [Connect(fd, Upload(local), remote, [])], |After(d0, before).sys.conns|;
    hide After, InProgress, CleanNetRun, FaultFreeFor, FreshTransfer, HasJob, UploadDone;
    StartsHealthy(d0, before, fd, Upload(local), remote);
    ConnectedAs(d0, before, fd, Upload(local), remote);
    FaultFreeRunsProgress(d0, first, more, id);
    JobNeverChanges(d0, first, more, id, Upload(local), remote);
    UploadCanEnd(d0, first + more, id, local, remote);
  }

  // ---------------------------------------------------------------------------
  // Downloads

  /** Once its request has been handled, a download is refused exactly if the store did not have its name then. */
  ghost predicate RefusedRightly(init: map<string, string>, w: World, c: Conn, remote: string) {
    c.past.asked.Some? ==>
      c.past.point <= |w.log| && (c.state.SendingError? <==> remote !in Replay(init, w.log[..c.past.point]))
  }

  /** That holds for every download in progress. */
  lemma {:induction false} RefusedIffMissing(d0: Disk, events: seq<NetEvent>, id: nat, remote: string)
    requires InProgress(d0, events, id) && HasJob(d0, events, id, Download, remote)
    ensures var n := After(d0, events);
            d0.Valid() && id < |n.sys.conns| && RefusedRightly(d0.Visible(), n.sys.w, n.sys.conns[id], remote)
  {
    hide After, HealthyAt, Healthy, GoodConns, GoodLinks, GoodWorlds, IsTempName, RefusedRightly, CleanNetRun;
    InProgressFacts(d0, events, id);
    ConnFacts(d0, After(d0, events), id);
    var n := After(d0, events);
    PairRefusedIffMissing(d0.Visible(), n.sys.w, n.sys.conns[id], n.links[id]);
  }

  lemma PairRefusedIffMissing(init: map<string, string>, w: World, c: Conn, l: Link)
    requires Healthy(init, w, c, l) && l.peer.job.Download?
    ensures RefusedRightly(init, w, c, l.peer.remote)
  {
    PairRefused(init, w, c, l);
    if c.past.asked.Some? {
      AskedPastRequest(init, w, c);
      if !c.state.SendingError? {
        AskedIsMeant(init, w, c, l);
        JobStates(init, w, c, l);
        ServedHasName(init, w, c);
      }
    }
    hide GoodConns, HeardConns, GoodLinks, GroundedConns, Blames;
  }

  lemma AskedPastRequest(init: map<string, string>, w: World, c: Conn)
    requires c in GoodConns(init, w) && c.past.asked.Some?
    ensures !c.state.AwaitingRequest?
  {
  }

  lemma ServedHasName(init: map<string, string>, w: World, c: Conn)
    requires c in GoodConns(init, w) && IsServing(c)
    ensures c.past.asked.Some? && c.past.point <= |w.log|
    ensures c.past.asked.value.filename in Replay(init, w.log[..c.past.point])
  {
    hide Promised, Windowed;
  }

  /** The store has the name at the end of the run. */
  ghost predicate InStore(d0: Disk, events: seq<NetEvent>, name: string) {
    var disk := After(d0, events).sys.w.disk;
    disk.Valid() && name in disk.Visible()
  }

  /**
   The client has what the store held under the name at some moment of the run, not before the first `start` events.
   */
  ghost predicate DownloadDone(d0: Disk, start: nat, events: seq<NetEvent>, id: nat, remote: string) {
    var n := After(d0, events);
    && id in n.links && n.links[id].peer.phase == Done(true)
    && exists k | start <= k <= |events| :: Held(d0, events[..k], remote, n.links[id].peer.file)
  }

  /** A name that was in the store before the connection was accepted is in the store when its request is handled. */
  lemma NotMissing(d0: Disk, before: seq<NetEvent>, more: seq<NetEvent>, id: nat, remote: string)
    requires d0.Valid() && CleanNetRun(d0, before) && InStore(d0, before, remote)
    requires |After(d0, before).sys.conns| <= id < |After(d0, before + more).sys.conns|
    requires var s := After(d0, before + more).sys; s.conns[id].past.asked.Some? && s.conns[id].past.point <= |s.w.log|
    ensures var s := After(d0, before + more).sys; remote in Replay(d0.Visible(), s.w.log[..s.conns[id].past.point])
  {
    GoodWorldAfter(d0, before);
    LaterPoint(d0, before, more, id);
    var s, s' := After(d0, before).sys, After(d0, before + more).sys;
    var log := s'.w.log[..s'.conns[id].past.point];
    hide After, Disk.Visible, Disk.Valid;
    assert log[..|s.w.log|] == s.w.log;
    NamesStay(d0.Visible(), log, |s.w.log|, remote);
  }

  lemma RefusedAsked(d0: Disk, events: seq<NetEvent>, id: nat)
    requires InProgress(d0, events, id) && id < |After(d0, events).sys.conns|
    requires After(d0, events).sys.conns[id].state.SendingError?
    ensures After(d0, events).sys.conns[id].past.asked.Some?
  {
    InProgressFacts(d0, events, id);
    ConnFacts(d0, After(d0, events), id);
    var n := After(d0, events);
    hide After, HealthyAt, InProgress, GoodConns, GoodLinks, GoodWorlds, HeardConns, IsTempName, Blames;
    PairRefused(d0.Visible(), n.sys.w, n.sys.conns[id], n.links[id]);
    var reason :| FairRefusal(n.links[id].peer, n.sys.conns[id].past, reason) && Blames(n.sys.conns[id], reason);
  }

  /** The connection was accepted after `before`, when the store had the name. */
  ghost predicate KnownBefore(d0: Disk, before: seq<NetEvent>, id: nat, remote: string) {
    CleanNetRun(d0, before) && |After(d0, before).sys.conns| <= id && InStore(d0, before, remote)
  }

  lemma DownloadEnds(d0: Disk, before: seq<NetEvent>, more: seq<NetEvent>, id: nat, remote: string)
    requires var all := before + more;
             InProgress(d0, all, id) && ConcludedAfter(d0, all, id) && HasJob(d0, all, id, Download, remote)
    requires KnownBefore(d0, before, id, remote)
    ensures DownloadDone(d0, |before|, before + more, id, remote)
  {
    var all := before + more;
    InProgressFacts(d0, all, id);
    RefusedIffMissing(d0, all, id, remote);
    hide After, HealthyAt, CleanNetRun, InStore, Held;
    if After(d0, all).links[id].peer.phase == Done(false) {
      RefusedAsked(d0, all, id);
      NotMissing(d0, before, more, id, remote);
    } else {
      ServesProgress(d0, all, id);
      EndToEndDownload(d0, before, more, id);
    }
  }

  lemma ServesProgress(d0: Disk, events: seq<NetEvent>, id: nat)
    requires InProgress(d0, events, id)
    ensures Serves(d0, events, id)
  {
    InProgressFacts(d0, events, id);
    ConnFacts(d0, After(d0, events), id);
    hide After, HealthyAt, CleanNetRun, GoodConns, GoodLinks, GoodWorlds, Unbroken, IsTempName;
    assert SafeFilename(After(d0, events).links[id].peer.remote);
  }

  lemma DownloadCanEnd(d0: Disk, before: seq<NetEvent>, more: seq<NetEvent>, id: nat, remote: string)
    requires InProgress(d0, before + more, id) && HasJob(d0, before + more, id, Download, remote)
    requires KnownBefore(d0, before, id, remote)
    ensures exists rest :: DownloadDone(d0, |before|, before + more + rest, id, remote)
  {
    hide InProgress, ConcludedAfter, WithinAfter, AllWithin, After, HasJob, DownloadDone, KnownBefore;
    var capacity := Room(d0, before + more, id);
    Finishes(d0, before + more, id, capacity);
    var rest :| EndsWell(d0, before + more, id, capacity, rest);
    JobNeverChanges(d0, before + more, rest, id, Download, remote);
    assert before + more + rest == before + (more + rest);
    DownloadEnds(d0, before, more + rest, id, remote);
  }

  /** A capacity that the channels respect at present. */
  lemma Room(d0: Disk, events: seq<NetEvent>, id: nat) returns (capacity: nat)
    requires InProgress(d0, events, id)
    ensures capacity > 0 && WithinAfter(d0, events, id, capacity)
  {
    InProgressFacts(d0, events, id);
    var l := After(d0, events).links[id];
    capacity := |l.toServer| + |l.toClient| + 1;
    hide After;
  }

  /**
   A download of a name that was in the store when its connection was accepted, for which nothing has failed so far,
   can always be completed, and then the client has a version that was current at some moment of the transfer.
   */
  lemma DownloadSucceeds(d0: Disk, before: seq<NetEvent>, fd: nat, remote: string, more: seq<NetEvent>)
    requires FreshTransfer(d0, before, fd, Download, remote) && InStore(d0, before, remote)
    requires CleanNetRun(d0, before + [Connect(fd, Download, remote, [])] + more)
    requires forall e | e in more :: FaultFreeFor(e, |After(d0, before).sys.conns|)
    ensures exists rest ::
              DownloadDone(d0, |before|, before + [Connect(fd, Download, remote, [])] + more + rest,
                           |After(d0, before).sys.conns|, remote)
  {
    var first, id := before + [Connect(fd, Download, remote, [])], |After(d0, before).sys.conns|;
    assert KnownBefore(d0, before, id, remote);
    hide After, InProgress, CleanNetRun, FaultFreeFor, FreshTransfer, HasJob, DownloadDone, InStore, KnownBefore;
    StartsHealthy(d0, before, fd, Download, remote);
    ConnectedAs(d0, before, fd, Download, remote);
    FaultFreeRunsProgress(d0, first, more, id);
    JobNeverChanges(d0, first, more, id, Download, remote);
    DownloadAfter(d0, before, [Connect(fd, Download, remote, [])], more, id, remote);
  }

  lemma DownloadAfter(d0: Disk, before: seq<NetEvent>, first: seq<NetEvent>, more: seq<NetEvent>, id: nat,
        remote: string)
    requires InProgress(d0, before + first + more, id) && HasJob(d0, before + first + more, id, Download, remote)
    requires KnownBefore(d0, before, id, remote)
    ensures exists rest :: DownloadDone(d0, |before|, before + first + more + rest, id, remote)
  {
    hide InProgress, HasJob, KnownBefore, DownloadDone;
    assert before + first + more == before + (first + more);
    DownloadCanEnd(d0, before, first + more, id, remote);
  }
}
