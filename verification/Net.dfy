/**
 The server with any number of clients. Some connections have a client program at the other end, which is
 joined to the server by two byte channels that split and merge what is sent as they like; on the others anything
 may come in.
 */
module Net {
  import opened Text
  import opened Storage
  import opened Connection
  import opened System
  import opened Peer

  /** A client program and the bytes on their way in both directions. */
  datatype Link = Link(peer: Peer, toServer: string, toClient: string)

  datatype Net = Net(sys: System, links: map<nat, Link>)

  /** A client may have sent some of its request before it is accepted. */
  datatype NetEvent =
    | Connect(fd: nat, job: Job, remote: string, before: seq<PeerEvent>)
    | Server(e: Event)
    | Client(id: nat, pe: PeerEvent)

  function StartNet(disk: Disk): (n: Net)
    ensures n.sys.WellFormed()
  {
    Net(Start(disk), map[])
  }

  /** The server takes bytes off one channel and puts what it says on the other. */
  function ServerMoves(l: Link, before: Past, after: Past): Link
    requires Delivers(l, before, after)
  {
    Link(l.peer, l.toServer[|after.received| - |before.received|..], l.toClient + after.sent[|before.sent|..])
  }

  /** What the server has received between the two is what comes next on the channel. */
  predicate Delivers(l: Link, before: Past, after: Past) {
    && before.received <= after.received && before.sent <= after.sent
    && after.received[|before.received|..] <= l.toServer
  }

  function ClientMoves(l: Link, pe: PeerEvent): Link
    requires RightPhase(l.peer) && CanHappen(l, pe)
  {
    var p := PeerStep(l.peer, pe);
    Link(p, l.toServer + p.sent[|l.peer.sent|..], l.toClient[|p.received| - |l.peer.received|..])
  }

  /** The client receives what comes next on its channel. */
  predicate CanHappen(l: Link, pe: PeerEvent)
    requires RightPhase(l.peer)
  {
    var p := PeerStep(l.peer, pe);
    && l.peer.received <= p.received && l.peer.sent <= p.sent
    && p.received[|l.peer.received|..] <= l.toClient
  }

  predicate Joined(n: Net) {
    && n.sys.WellFormed()
    && forall id | id in n.links :: id < |n.sys.conns| && RightPhase(n.links[id].peer)
  }

  /** The connection that an event of the server moves. */
  function Moved(e: Event): Option<nat> {
    match e
    case Accept(_) => None
    case Handle(id, _) => Some(id)
    case Drop(id) => Some(id)
  }

  predicate Arrives(n: Net, e: Event, id: nat)
    requires Joined(n) && id in n.links
  {
    id < |Next(n.sys, e).conns| && Delivers(n.links[id], n.sys.conns[id].past, Next(n.sys, e).conns[id].past)
  }

  predicate NetPossible(n: Net, e: NetEvent)
    requires Joined(n)
  {
    match e
    case Connect(fd, job, remote, before) =>
      Possible(n.sys, Accept(fd)) && RunPeer(NewPeer(job, remote), before).received == ""
    case Server(ev) =>
      && Possible(n.sys, ev)
      && (Moved(ev).Some? && Moved(ev).value in n.links ==> Arrives(n, ev, Moved(ev).value))
    case Client(id, pe) => id in n.links && CanHappen(n.links[id], pe)
  }

  /** An event that is not possible changes nothing. */
  function NetNext(n: Net, e: NetEvent): (n': Net)
    requires Joined(n)
    ensures Joined(n')
  {
    if !NetPossible(n, e) then n
    else
      match e
      case Connect(fd, job, remote, before) =>
        var p := RunPeer(NewPeer(job, remote), before);
        Net(Next(n.sys, Accept(fd)), n.links[|n.sys.conns| := Link(p, p.sent, "")])
      case Server(ev) =>
        var s' := Next(n.sys, ev);
        if Moved(ev).Some? && Moved(ev).value in n.links then
          var id := Moved(ev).value;
          Net(s', n.links[id := ServerMoves(n.links[id], n.sys.conns[id].past, s'.conns[id].past)])
        else Net(s', n.links)
      case Client(id, pe) => Net(n.sys, n.links[id := ClientMoves(n.links[id], pe)])
  }

  function RunNet(n: Net, events: seq<NetEvent>): (n': Net)
    requires Joined(n)
    ensures Joined(n')
  {
    if events == [] then n else NetNext(RunNet(n, events[..|events| - 1]), events[|events| - 1])
  }

  /** The network after a run. */
  function After(disk: Disk, events: seq<NetEvent>): (n: Net)
    ensures Joined(n)
  {
    RunNet(StartNet(disk), events)
  }

  /** In no state of the run has a request for a temporary name been accepted. */
  ghost predicate CleanNetRun(d0: Disk, events: seq<NetEvent>) {
    forall k | 0 <= k <= |events| :: NoTempRequests(After(d0, events[..k]).sys)
  }

  // ---------------------------------------------------------------------------
  // Nothing is lost, invented or reordered on the way

  ghost function GoodLinks(past: Past): iset<Link> {
    iset l: Link | l.peer in GoodPeers() && past.received + l.toServer == l.peer.sent
      && l.peer.received + l.toClient == past.sent
  }

  ghost predicate NetInv(d0: Disk, n: Net)
    requires d0.Valid()
  {
    && Joined(n) && SystemInv(d0, n.sys)
    && forall id | id in n.links :: n.links[id] in GoodLinks(n.sys.conns[id].past)
  }

  lemma TakenOff(channel: string, before: string, after: string)
    requires before <= after && after[|before|..] <= channel
    ensures after + channel[|after| - |before|..] == before + channel
  {
    var took := |after| - |before|;
    assert after == before + channel[..took];
    assert channel == channel[..took] + channel[took..];
  }

  lemma PutOn(read: string, channel: string, before: string, after: string)
    requires before <= after && read + channel == before
    ensures read + (channel + after[|before|..]) == after
  {
  }

  lemma ServerMovesKeep(l: Link, before: Past, after: Past)
    requires l in GoodLinks(before) && Delivers(l, before, after)
    ensures ServerMoves(l, before, after) in GoodLinks(after)
  {
    hide GoodPeers;
    TakenOff(l.toServer, before.received, after.received);
    PutOn(l.peer.received, l.toClient, before.sent, after.sent);
  }

  lemma ClientMovesKeep(past: Past, l: Link, pe: PeerEvent)
    requires l in GoodLinks(past) && RightPhase(l.peer) && CanHappen(l, pe)
    ensures ClientMoves(l, pe) in GoodLinks(past)
  {
    PeerStepKeeps(l.peer, pe);
    hide GoodPeers, PeerStep, RightPhase;
    var p := PeerStep(l.peer, pe);
    TakenOff(l.toClient, l.peer.received, p.received);
    PutOn(past.received, l.toServer, l.peer.sent, p.sent);
  }

  lemma FreshLink(p: Peer)
    requires p in GoodPeers() && p.received == ""
    ensures Link(p, p.sent, "") in GoodLinks(NOTHING)
  {
    hide GoodPeers;
  }

  /** One event moves one connection at most. */
  lemma OthersStay(s: System, e: Event, id: nat)
    requires s.WellFormed() && id < |s.conns| && Possible(s, e) && Moved(e) != Some(id)
    ensures id < |Next(s, e).conns| && Next(s, e).conns[id] == s.conns[id]
  {
    hide Dispatch, CloseClient, NewConn, Conn.WellFormed;
  }

  lemma ServerNextGood(d0: Disk, n: Net, e: Event)
    requires Joined(n) && d0.Valid() && NetInv(d0, n) && NetPossible(n, Server(e))
    requires NoTempRequests(NetNext(n, Server(e)).sys)
    ensures NetInv(d0, NetNext(n, Server(e)))
  {
    ServerStep(n, e);
    NextGood(d0, n.sys, e);
    hide SystemInv, Next, NetNext, Joined, GoodLinks, NoTempRequests, ServerMoves, Arrives, Possible;
    forall id | id in n.links
      ensures NetNext(n, Server(e)).links[id] in GoodLinks(NetNext(n, Server(e)).sys.conns[id].past)
    {
      ServerLinkGood(n, e, id);
    }
  }

  lemma ServerStep(n: Net, e: Event)
    requires Joined(n) && NetPossible(n, Server(e))
    ensures Possible(n.sys, e) && NetNext(n, Server(e)).sys == Next(n.sys, e)
    ensures NetNext(n, Server(e)).links.Keys == n.links.Keys
  {
    hide Next, Delivers, Possible, System.WellFormed, RightPhase;
  }

  lemma ServerLinkGood(n: Net, e: Event, id: nat)
    requires Joined(n) && NetPossible(n, Server(e)) && id in n.links && n.links[id] in GoodLinks(n.sys.conns[id].past)
    ensures var n' := NetNext(n, Server(e)); id in n'.links && n'.links[id] in GoodLinks(n'.sys.conns[id].past)
  {
    ServerLink(n, e, id);
    if Moved(e) == Some(id) {
      hide Next, GoodLinks, ServerMoves, NetNext, NetPossible, Possible, Delivers, System.WellFormed, RightPhase;
      ServerMovesKeep(n.links[id], n.sys.conns[id].past, Next(n.sys, e).conns[id].past);
    } else {
      hide Next, GoodLinks, ServerMoves, NetNext, Possible, Delivers, Arrives, System.WellFormed, RightPhase;
      OthersStay(n.sys, e, id);
    }
  }

  lemma ServerLink(n: Net, e: Event, id: nat)
    requires Joined(n) && NetPossible(n, Server(e)) && id in n.links
    ensures var n' := NetNext(n, Server(e));
            && n'.sys == Next(n.sys, e) && id in n'.links
            && if Moved(e) == Some(id) then
                 id < |n'.sys.conns| && Delivers(n.links[id], n.sys.conns[id].past, n'.sys.conns[id].past)
                 && n'.links[id] == ServerMoves(n.links[id], n.sys.conns[id].past, n'.sys.conns[id].past)
               else n'.links[id] == n.links[id]
  {
    hide Next, ServerMoves, Possible, Delivers, System.WellFormed, RightPhase;
  }

  lemma ConnectGood(d0: Disk, n: Net, fd: nat, job: Job, remote: string, before: seq<PeerEvent>)
    requires Joined(n) && d0.Valid() && NetInv(d0, n) && NetPossible(n, Connect(fd, job, remote, before))
    requires NoTempRequests(NetNext(n, Connect(fd, job, remote, before)).sys)
    ensures NetInv(d0, NetNext(n, Connect(fd, job, remote, before)))
  {
    var p := RunPeer(NewPeer(job, remote), before);
    ConnectStep(n, fd, job, remote, before);
    NextGood(d0, n.sys, Accept(fd));
    EveryPeerRunIsGood(job, remote, before);
    FreshLink(p);
    var n' := NetNext(n, Connect(fd, job, remote, before));
    hide SystemInv, GoodLinks, NoTempRequests, GoodPeers, RunPeer, Next, NetNext, NetPossible, Possible, Joined;
    forall id | id in n'.links
      ensures n'.links[id] in GoodLinks(n'.sys.conns[id].past)
    {
      if id != |n.sys.conns| {
        OthersStay(n.sys, Accept(fd), id);
      }
    }
  }

  lemma ConnectStep(n: Net, fd: nat, job: Job, remote: string, before: seq<PeerEvent>)
    requires Joined(n) && NetPossible(n, Connect(fd, job, remote, before))
    ensures var n', p := NetNext(n, Connect(fd, job, remote, before)), RunPeer(NewPeer(job, remote), before);
            && Possible(n.sys, Accept(fd)) && p.received == "" && n'.sys == Next(n.sys, Accept(fd))
            && n'.links == n.links[|n.sys.conns| := Link(p, p.sent, "")]
            && |n'.sys.conns| == |n.sys.conns| + 1 && n'.sys.conns[|n.sys.conns|].past == NOTHING
    ensures forall id | id in n.links :: id < |n.sys.conns|
  {
    hide RunPeer, System.WellFormed, RightPhase;
  }

  lemma ClientNextGood(d0: Disk, n: Net, id: nat, pe: PeerEvent)
    requires Joined(n) && d0.Valid() && NetInv(d0, n) && NetPossible(n, Client(id, pe))
    ensures NetInv(d0, NetNext(n, Client(id, pe)))
  {
    hide SystemInv, GoodLinks, ClientMoves;
    ClientMovesKeep(n.sys.conns[id].past, n.links[id], pe);
  }

  lemma NetNextGood(d0: Disk, n: Net, e: NetEvent)
    requires Joined(n) && d0.Valid() && NetInv(d0, n) && NoTempRequests(NetNext(n, e).sys)
    ensures NetInv(d0, NetNext(n, e))
  {
    hide NetInv, Joined, NoTempRequests;
    if NetPossible(n, e) {
      match e {
        case Connect(fd, job, remote, before) => ConnectGood(d0, n, fd, job, remote, before);
        case Server(ev) => ServerNextGood(d0, n, ev);
        case Client(id, pe) => ClientNextGood(d0, n, id, pe);
      }
    }
  }

  /** In every run: what one side has received and what is on its way is exactly what the other side has sent. */
  lemma {:induction false} EveryNetRunIsGood(d0: Disk, events: seq<NetEvent>)
    requires d0.Valid() && CleanNetRun(d0, events)
    ensures NetInv(d0, After(d0, events))
  {
    hide NetInv, NetNext;
    if events == [] {
      StartNetGood(d0);
    } else {
      var before := events[..|events| - 1];
      assert forall k | 0 <= k <= |before| :: before[..k] == events[..k];
      EveryNetRunIsGood(d0, before);
      assert events[..|events|] == events;
      NetNextGood(d0, After(d0, before), events[|events| - 1]);
    }
  }

  lemma StartNetGood(d0: Disk)
    requires d0.Valid()
    ensures NetInv(d0, StartNet(d0))
  {
    StartGood(d0);
  }
}
