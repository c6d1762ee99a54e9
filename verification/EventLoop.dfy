/**
 The event loop: a vector of connection objects, a poll array built beside it, closing by marking and compacting
 later. The loop is proved to run the machine of System.dfy: `trace` is the history of the events it has caused,
 and `Valid` says that the objects are exactly the live connections that this history leads to.
 */
module EventLoop {
  import opened Requests
  import opened Storage
  import opened Connection
  import opened ServerClient
  import opened System
  import opened Linearizability
  import opened Rounds

  datatype PollFd = PollFd(fd: int, events: Interest)

  /** The poll entry of the connection at `i`; entry 0 belongs to the listener. */
  function EntryFor(polled: seq<PollFd>, i: nat): PollFd
    requires i + 1 < |polled|
  {
    polled[i + 1]
  }

  // ---------------------------------------------------------------------------
  // Compaction

  lemma NoneSelected<T>(xs: seq<T>, flags: seq<bool>)
    ensures Select(xs, Indices(flags[..0])) == []
  {
  }

  lemma OneMoreSelected<T>(xs: seq<T>, flags: seq<bool>, i: nat)
    requires i < |flags| == |xs|
    ensures Select(xs, Indices(flags[..i + 1])) == Select(xs, Indices(flags[..i])) + if flags[i] then [xs[i]] else []
  {
    assert flags[..i + 1][..i] == flags[..i];
  }

  lemma StillListed(s: System, ids: seq<nat>, models: seq<Conn>, live: seq<nat>, id: nat)
    requires Tracks(s, ids, models) && live == Indices(LiveFlags(models)) && id < |s.conns| && s.conns[id].Live()
    ensures id in Select(ids, live)
  {
    var i :| 0 <= i < |ids| && ids[i] == id;
    assert LiveFlags(models)[i];
    var k :| 0 <= k < |live| && live[k] == i;
    assert Select(ids, live)[k] == id;
  }

  lemma CompactTracked(s: System, ids: seq<nat>, models: seq<Conn>)
    requires Tracks(s, ids, models)
    ensures var live := Indices(LiveFlags(models)); Tracks(s, Select(ids, live), Select(models, live))
  {
    var live := Indices(LiveFlags(models));
    hide Indices, LiveFlags, Select, Conn.Live;
    forall id | 0 <= id < |s.conns| && s.conns[id].Live()
      ensures id in Select(ids, live)
    {
      StillListed(s, ids, models, live, id);
    }
  }

  /** When no connection in the vector is closed, it lists the live ones. */
  lemma TracksLive(s: System, ids: seq<nat>, models: seq<Conn>)
    requires Tracks(s, ids, models) && forall i | 0 <= i < |models| :: models[i].Live()
    ensures ids == LiveIds(s)
  {
    forall x
      ensures x in ids <==> x in LiveIds(s)
    {
      if x in ids {
        var i :| 0 <= i < |ids| && ids[i] == x;
        assert models[i].Live() && s.conns[x].Live();
      }
    }
    SameSorted(ids, LiveIds(s));
  }

  lemma UsedByModels(s: System, ids: seq<nat>, models: seq<Conn>)
    requires Tracks(s, ids, models) && forall i | 0 <= i < |models| :: models[i].Live()
    ensures (set m | m in models :: m.fd) == UsedIn(s)
  {
    forall c | c in s.conns && c.Live()
      ensures c in models
    {
      var id :| 0 <= id < |s.conns| && s.conns[id] == c;
      assert id in ids;
      var i :| 0 <= i < |ids| && ids[i] == id;
      assert models[i] == c;
    }
    assert forall m | m in models :: m in s.conns && m.Live();
  }

  lemma AcceptTracked(d0: Disk, s: System, trace: seq<Event>, ids: seq<nat>, models: seq<Conn>, fd: nat)
    requires Reached(d0, s, trace) && Tracks(s, ids, models)
    requires forall i | 0 <= i < |models| && models[i].Live() :: models[i].fd != fd
    ensures var s' := System(s.w, s.conns + [NewConn(fd)]);
            && Reached(d0, s', trace + [Accept(fd)])
            && Tracks(s', ids + [|s.conns|], models + [NewConn(fd)])
  {
    hide Run;
    RunOneMore(Start(d0), trace, Accept(fd));
  }

  /**
   The values of the objects, in the order of the vector, are live or just closed connections of the machine,
   in the order in which they were accepted, and no live connection is missing.
   */
  ghost predicate Tracks(s: System, ids: seq<nat>, models: seq<Conn>) {
    && |ids| == |models|
    && (forall i | 0 <= i < |ids| :: ids[i] < |s.conns| && s.conns[ids[i]] == models[i])
    && (forall i, j | 0 <= i < j < |ids| :: ids[i] < ids[j])
    && (forall id | 0 <= id < |s.conns| && s.conns[id].Live() :: id in ids)
  }

  ghost predicate Reached(d0: Disk, s: System, trace: seq<Event>) {
    s.WellFormed() && s == Run(Start(d0), trace)
  }

  lemma OneTracked(d0: Disk, s: System, trace: seq<Event>, ids: seq<nat>, models: seq<Conn>, i: nat, e: Event, r: Step)
    requires Reached(d0, s, trace) && Tracks(s, ids, models) && i < |ids| && models[i].Live()
    requires s.conns[ids[i]].WellFormed()
    requires (e.Handle? && e.id == ids[i] && r == Dispatch(s.w, models[i], e.input))
          || (e == Drop(ids[i]) && r == CloseClient(s.w, models[i]))
    ensures var s' := System(r.w, s.conns[ids[i] := r.c]);
            Reached(d0, s', trace + [e]) && Tracks(s', ids, models[i := r.c])
  {
    hide Run, Dispatch, CloseClient;
    RunOneMore(Start(d0), trace, e);
  }

  /** What `Server.Valid` says about the objects: they are separate, lie within `repr`, and have the given values. */
  ghost predicate Owned(clients: seq<Client>, models: seq<Conn>, repr: set<object>)
    reads clients, set i | 0 <= i < |clients| :: clients[i].fileBuffer
  {
    && |models| == |clients|
    && (forall i | 0 <= i < |clients| :: clients[i] in repr && clients[i].fileBuffer in repr)
    && (forall i, j | 0 <= i < j < |clients| ::
          clients[i] != clients[j] && clients[i].fileBuffer != clients[j].fileBuffer)
    && (forall i | 0 <= i < |clients| :: clients[i].Valid() && clients[i].Model() == models[i])
  }

  /** What the loop has still to do. */
  function Remaining(s: System, rounds: seq<Round>, goOn: bool): seq<Event>
    requires s.WellFormed()
  {
    if goOn then ServeEvents(s, rounds) else FinalEvents(s)
  }

  lemma NothingRemains(s: System)
    requires s.WellFormed()
    ensures ServeEvents(s, []) == FinalEvents(s)
  {
  }

  lemma OwnedPlus(clients: seq<Client>, models: seq<Conn>, repr: set<object>, client: Client, model: Conn)
    requires Owned(clients, models, repr) && client !in repr && client.fileBuffer !in repr
    requires client.Valid() && client.Model() == model
    ensures Owned(clients + [client], models + [model], repr + {client, client.fileBuffer})
  {
    hide Client.Model, Client.Valid;
  }

  class Server {
    const host: Host
    var clients: seq<Client>
    ghost const d0: Disk
    ghost var models: seq<Conn>
    ghost var ids: seq<nat>
    ghost var system: System
    ghost var trace: seq<Event>
    ghost var Repr: set<object>

    constructor (disk: Disk)
      ensures Valid() && fresh(Repr) && trace == [] && d0 == disk && clients == []
    {
      host := new Host(disk);
      clients := [];
      d0 := disk;
      models, ids, system, trace := [], [], Start(disk), [];
      Repr := {this, host};
    }

    /** The objects are separate. */
    ghost predicate Separate()
      reads this
    {
      forall i, j | 0 <= i < j < |clients| ::
        clients[i] != clients[j] && clients[i].fileBuffer != clients[j].fileBuffer
    }

    /** They have the values that the history says. */
    ghost predicate Modeled()
      reads this, clients, set i | 0 <= i < |clients| :: clients[i].fileBuffer
    {
      && |models| == |clients|
      && forall i | 0 <= i < |clients| :: clients[i].Valid() && clients[i].Model() == models[i]
    }

    ghost predicate Valid()
      reads this, Repr
    {
      && this in Repr && host in Repr
      && (forall i | 0 <= i < |clients| :: clients[i] in Repr && clients[i].fileBuffer in Repr)
      && Separate() && |models| == |ids| == |clients| <= MAX_CLIENTS
      && Modeled()
      && system.w == host.Shared()
      && Reached(d0, system, trace) && Tracks(system, ids, models)
    }

    lemma LiveModel(i: nat)
      requires Valid() && i < |clients|
      ensures models[i].WellFormed() && models[i].fd == clients[i].fd
    {
      hide Reached, Tracks;
    }

    /** One event for the connection at `i`, and its closing if the handler gives up. */
    method HandleAt(i: nat, input: Input)
      requires Valid() && i < |clients| && clients[i].fd >= 0
      modifies Repr
      ensures Valid() && clients == old(clients) && ids == old(ids) && Repr == old(Repr)
      ensures trace == old(trace) + [Handle(ids[i], input)]
      ensures forall j | 0 <= j < |clients| && j != i :: clients[j].fd == old(clients[j].fd)
      ensures clients[i].fd == old(clients[i].fd) || clients[i].fd == -1
    {
      hide Dispatch, Reached, Tracks, Client.Model, Client.Valid, Conn.WellFormed;
      LiveModel(i);
      HandleClient(clients[i], input);
      Track(i, Handle(ids[i], input), Dispatch(system.w, models[i], input));
    }

    /** Brings the history up to date after the object at `i` has moved. */
    ghost method Track(i: nat, e: Event, r: Step)
      requires i < |ids| && Reached(d0, system, trace) && Tracks(system, ids, models) && models[i].Live()
      requires models[i].WellFormed()
      requires (e.Handle? && e.id == ids[i] && r == Dispatch(system.w, models[i], e.input))
            || (e == Drop(ids[i]) && r == CloseClient(system.w, models[i]))
      modifies this`models, this`system, this`trace
      ensures models == old(models)[i := r.c] && system.w == r.w && trace == old(trace) + [e]
      ensures Reached(d0, system, trace) && Tracks(system, ids, models)
    {
      hide Dispatch, CloseClient, Reached, Conn.WellFormed;
      OneTracked(d0, system, trace, ids, models, i, e, r);
      system := System(r.w, system.conns[ids[i] := r.c]);
      models := models[i := r.c];
      trace := trace + [e];
    }

    method HandleClient(client: Client, input: Input)
      requires client.Valid() && client.fd >= 0
      modifies client, client.fileBuffer, host
      ensures var r := Dispatch(old(host.Shared()), old(client.Model()), input);
              host.Shared() == r.w && client.Model() == r.c
      ensures client.Valid() && (client.fd == old(client.fd) || client.fd == -1)
    {
      hide ClientEvent;
      var ok := client.HandleEvent(host, input);
      if !ok {
        client.Close(host);
      }
    }

    method DropAt(i: nat)
      requires Valid() && i < |clients| && clients[i].fd >= 0
      modifies Repr
      ensures Valid() && clients == old(clients) && ids == old(ids) && Repr == old(Repr)
      ensures trace == old(trace) + [Drop(ids[i])]
      ensures forall j | 0 <= j < |clients| && j != i :: clients[j].fd == old(clients[j].fd)
      ensures clients[i].fd == -1
    {
      hide CloseClient, Reached, Tracks, Client.Model, Client.Valid, Conn.WellFormed;
      LiveModel(i);
      clients[i].Close(host);
      Track(i, Drop(ids[i]), CloseClient(system.w, models[i]));
    }

    ghost predicate AllLive()
      reads this, clients
    {
      forall i | 0 <= i < |clients| :: clients[i].fd >= 0
    }

    /** Closes the connections that have been idle for too long. */
    method DropMarked(marks: seq<bool>)
      requires Valid() && AllLive()
      modifies Repr
      ensures Valid() && clients == old(clients) && ids == old(ids) && Repr == old(Repr)
      ensures trace == old(trace) + Drops(ids, marks)
      ensures forall i | 0 <= i < |clients| :: clients[i].fd == if Marked(marks, i) then -1 else old(clients[i].fd)
    {
      hide Valid;
      ModelsAgree();
      for i := 0 to |clients|
        invariant Valid() && clients == old(clients) && |ids| == |clients| && ids == old(ids) && Repr == old(Repr)
        invariant trace == old(trace) + Drops(ids[..i], marks)
        invariant forall j | 0 <= j < |clients| ::
            clients[j].fd == if j < i && Marked(marks, j) then -1 else old(clients[j].fd)
      {
        assert ids[..i + 1][..i] == ids[..i];
        if Marked(marks, i) {
          DropAt(i);
        }
      }
      assert ids[..|ids|] == ids;
    }

    /** Removes closed connections; the others keep their order. */
    method Compact()
      requires Valid()
      modifies this`clients, this`models, this`ids
      ensures Valid() && AllLive() && system == old(system) && trace == old(trace)
      ensures var live := Indices(LiveFlags(old(models)));
              clients == Select(old(clients), live) && ids == Select(old(ids), live)
    {
      var kept := Survivors();
      ghost var live := Indices(LiveFlags(models));
      hide Valid, LiveFlags, Indices;
      Keep(kept, live);
    }

    /** The connections that have not been closed, in order. */
    method Survivors() returns (kept: seq<Client>)
      requires Valid()
      ensures kept == Select(clients, Indices(LiveFlags(models)))
      ensures forall k | 0 <= k < |kept| :: kept[k].fd >= 0
    {
      hide Valid, Indices, LiveFlags, Select;
      ModelsAgree();
      kept := [];
      ghost var flags := LiveFlags(models);
      NoneSelected(clients, flags);
      for i := 0 to |clients|
        invariant kept == Select(clients, Indices(flags[..i]))
        invariant forall k | 0 <= k < |kept| :: kept[k].fd >= 0
      {
        OneMoreSelected(clients, flags, i);
        if clients[i].fd >= 0 {
          kept := kept + [clients[i]];
        }
      }
      assert flags[..|clients|] == flags;
    }

    /** A selection of the connections is as good as all of them. */
    lemma SelectedMatch(live: seq<nat>)
      requires Valid() && forall k | 0 <= k < |live| :: live[k] < |clients|
      requires forall k, l | 0 <= k < l < |live| :: live[k] < live[l]
      ensures |models| == |clients| && Owned(Select(clients, live), Select(models, live), Repr)
    {
      hide Reached, Tracks, Client.Model, Client.Valid;
    }

    /** The parts of `Valid`. */
    lemma ValidParts()
      requires Valid()
      ensures this in Repr && host in Repr && |models| == |ids| == |clients| <= MAX_CLIENTS
      ensures system.w == host.Shared() && Reached(d0, system, trace) && Tracks(system, ids, models)
    {
      hide Reached, Tracks, Client.Model, Client.Valid;
    }

    lemma ValidFromParts()
      requires this in Repr && host in Repr && |models| == |ids| == |clients| <= MAX_CLIENTS
      requires system.w == host.Shared() && Reached(d0, system, trace) && Tracks(system, ids, models)
      requires Owned(clients, models, Repr)
      ensures Valid()
    {
      hide Reached, Tracks, Client.Model, Client.Valid;
    }

    lemma OwnedNow()
      requires Valid()
      ensures Owned(clients, models, Repr)
    {
      hide Reached, Tracks, Client.Model, Client.Valid;
    }

    method Keep(kept: seq<Client>, ghost live: seq<nat>)
      requires Valid() && live == Indices(LiveFlags(models)) && kept == Select(clients, live)
      modifies this`clients, this`models, this`ids
      ensures Valid() && clients == kept && ids == Select(old(ids), live)
    {
      hide Valid, Owned, Reached, Tracks, Indices, LiveFlags, Select;
      ValidParts();
      CompactTracked(system, ids, models);
      SelectedMatch(live);
      clients, models, ids := kept, Select(models, live), Select(ids, live);
      ValidFromParts();
    }

    /** The poll array: the listener first, then one entry for each connection. */
    method BuildPoll(listener: int) returns (polled: seq<PollFd>)
      ensures |polled| == |clients| + 1 && polled[0] == PollFd(listener, PollIn)
      ensures forall i | 0 <= i < |clients| :: EntryFor(polled, i)
               == PollFd(clients[i].fd, RequestedEvents(clients[i].state))
      ensures forall i | 0 <= i < |clients| :: EntryFor(polled, i).events == PollIn <==>
                clients[i].state == AwaitingRequest || clients[i].state == ReceivingFile
    {
      polled := [PollFd(listener, PollIn)];
      for i := 0 to |clients|
        invariant |polled| == i + 1 && polled[0] == PollFd(listener, PollIn)
        invariant forall k | 0 <= k < i ::
                    EntryFor(polled, k) == PollFd(clients[k].fd, RequestedEvents(clients[k].state))
      {
        polled := polled + [PollFd(clients[i].fd, RequestedEvents(clients[i].state))];
      }
    }

    /**
     One pass over the poll array. Entry `i + 1` describes `clients[i]` during the whole pass: a descriptor changes
     only by being closed, so no event polled for one connection reaches another that took over its descriptor.
     */
    method DispatchAll(polled: seq<PollFd>, answers: seq<Input>)
      requires Valid() && AllLive() && |polled| == |clients| + 1
      requires forall i | 0 <= i < |clients| :: EntryFor(polled, i).fd == clients[i].fd
      modifies Repr
      ensures Valid() && clients == old(clients) && ids == old(ids) && Repr == old(Repr)
      ensures trace == old(trace) + Handles(ids, answers)
      ensures forall i | 0 <= i < |clients| :: clients[i].fd == EntryFor(polled, i).fd || clients[i].fd == -1
      ensures forall i | 0 <= i < |clients|
               && NoEvents(AnswerFor(answers, i)) :: clients[i].fd == EntryFor(polled, i).fd
    {
      hide Reached, Tracks, Client.Model, Client.Valid, NoEvents;
      for i := 0 to |clients|
        invariant Valid() && clients == old(clients) && ids == old(ids) && Repr == old(Repr)
        invariant trace == old(trace) + Handles(ids[..i], answers)
        invariant forall j | i <= j < |clients| :: clients[j].fd == EntryFor(polled, j).fd >= 0
        invariant forall j | 0 <= j < i :: clients[j].fd == EntryFor(polled, j).fd || clients[j].fd == -1
        invariant forall j | 0 <= j < i && NoEvents(AnswerFor(answers, j)) :: clients[j].fd == EntryFor(polled, j).fd
      {
        assert ids[..i + 1][..i] == ids[..i];
        var answer := AnswerFor(answers, i);
        if !NoEvents(answer) {
          HandleAt(i, answer);
        }
      }
      assert ids[..|ids|] == ids;
    }

    method Admit(fd: nat) returns (client: Client)
      requires Valid() && |clients| < MAX_CLIENTS
      requires forall i | 0 <= i < |clients| :: clients[i].fd != fd
      modifies this
      ensures Valid() && clients == old(clients) + [client] && client.fd == fd && trace == old(trace) + [Accept(fd)]
      ensures fresh(client) && fresh(client.fileBuffer) && Repr == old(Repr) + {client, client.fileBuffer}
    {
      hide Valid, Owned, Reached, Tracks;
      ValidParts();
      ModelsAgree();
      OwnedNow();
      client := new Client(fd);
      OwnedPlus(clients, models, Repr, client, NewConn(fd));
      AcceptTracked(d0, system, trace, ids, models, fd);
      clients := clients + [client];
      Repr := Repr + {client, client.fileBuffer};
      ids := ids + [|system.conns|];
      models := models + [NewConn(fd)];
      system := System(system.w, system.conns + [NewConn(fd)]);
      trace := trace + [Accept(fd)];
      ValidFromParts();
    }

    /** The descriptors of the connections in the vector. */
    function Used(): (used: set<int>)
      reads this, clients
      ensures forall i | 0 <= i < |clients| :: clients[i].fd in used
    {
      set c | c in clients :: c.fd
    }

    /** The accept loop: refuses connections beyond the limit, and ends when a call would block or fails. */
    method AcceptConnections(accepts: seq<AcceptOutcome>)
      requires Valid() && AllLive()
      modifies this
      ensures Valid() && AllLive() && fresh(Repr - old(Repr)) && Repr >= old(Repr)
      ensures old(clients) <= clients
      ensures trace == old(trace) + Accepts(Admitted(old(Used()), 256 - |old(clients)|, accepts))
    {
      hide Reached, Tracks, Owned, Separate, Modeled;
      var used := Used();
      ghost var fds: seq<nat> := [];
      for call := 0 to |accepts|
        invariant Valid() && AllLive() && fresh(Repr - old(Repr)) && Repr >= old(Repr)
        invariant old(clients) <= clients
        invariant forall i | 0 <= i < |clients| :: clients[i].fd in used
        invariant trace == old(trace) + Accepts(fds)
        invariant fds + Admitted(used, MAX_CLIENTS - |clients|, accepts[call..])
               == Admitted(old(Used()), MAX_CLIENTS - |old(clients)|, accepts)
      {
        assert accepts[call..][1..] == accepts[call + 1..];
        match accepts[call] {
          case Accepted(hint, nonblocking) =>
            if |clients| < MAX_CLIENTS && nonblocking {
              var fd := FreeDescriptor(hint, used);
              var _ := Admit(fd);
              used := used + {fd};
              AcceptsOneMore(fds, fd);
              fds := fds + [fd];
            }
          case AcceptInterrupted =>
          case AcceptWouldBlock => return;
          case AcceptFailed => return;
        }
      }
    }

    lemma ModelsAgree()
      requires Valid()
      ensures |models| == |ids| == |clients| && this in Repr
      ensures forall i | 0 <= i < |models| :: models[i].fd == clients[i].fd
    {
      hide Reached, Tracks, Conn.WellFormed;
    }

    lemma UsedByClients()
      requires Valid()
      ensures Used() == set m | m in models :: m.fd
    {
      hide Valid;
      ModelsAgree();
      forall c | c in clients
        ensures c.fd in set m | m in models :: m.fd
      {
        var i :| 0 <= i < |clients| && clients[i] == c;
        assert models[i] in models;
      }
      forall m | m in models
        ensures m.fd in Used()
      {
        var i :| 0 <= i < |models| && models[i] == m;
        assert clients[i] in clients;
      }
    }

    lemma AllModelsLive()
      requires Valid() && AllLive()
      ensures forall i | 0 <= i < |models| :: models[i].Live()
    {
      hide Valid;
      ModelsAgree();
    }

    /** Between passes the vector lists exactly the live connections of the machine. */
    lemma VectorIsLive()
      requires Valid() && AllLive()
      ensures ids == LiveIds(system) && |clients| == |LiveIds(system)| <= MAX_CLIENTS && Used() == UsedIn(system)
    {
      hide Valid, AllLive, Tracks, LiveIds, UsedIn, Used, Reached, Conn.Live;
      ValidParts();
      AllModelsLive();
      UsedByClients();
      TracksLive(system, ids, models);
      UsedByModels(system, ids, models);
    }

    /** What the machine has become since the history was `before`. */
    lemma Since(before: seq<Event>, more: seq<Event>)
      requires Valid() && trace == before + more
      ensures Run(Start(d0), before).WellFormed() && system == Run(Run(Start(d0), before), more)
    {
      ValidParts();
      hide Valid, Owned, Modeled, Separate, Tracks;
      RunThen(Start(d0), before, more);
    }

    lemma ReachedNow()
      requires Valid()
      ensures system.WellFormed() && system == Run(Start(d0), trace)
    {
      ValidParts();
    }

    /** Closes and removes the connections that have been idle for too long. */
    method Reap(marks: seq<bool>)
      requires Valid() && AllLive()
      modifies Repr
      ensures Valid() && AllLive() && Repr == old(Repr)
      ensures trace == old(trace) + Drops(old(ids), marks)
    {
      hide Valid, Drops;
      DropMarked(marks);
      ModelsAgree();
      Compact();
    }

    /** Handles what the poll reported, and removes the connections that were closed. */
    method HandlePolled(polled: seq<PollFd>, answers: seq<Input>)
      requires Valid() && AllLive() && |polled| == |clients| + 1 && system.WellFormed()
      requires forall i | 0 <= i < |clients| :: EntryFor(polled, i).fd == clients[i].fd
      modifies Repr
      ensures Valid() && AllLive() && Repr == old(Repr) && system.WellFormed()
      ensures var handled := Handles(LiveIds(old(system)), answers);
              trace == old(trace) + handled && system == Run(old(system), handled)
    {
      ReachedNow();
      VectorIsLive();
      hide Valid, LiveIds, UsedIn, Handles;
      DispatchAll(polled, answers);
      ModelsAgree();
      Since(old(trace), Handles(old(ids), answers));
      Compact();
      ModelsAgree();
      ReachedNow();
    }

    /** Handles what the poll reported, and then accepts new connections. */
    method Service(polled: seq<PollFd>, answers: seq<Input>, listenerReady: bool, accepts: seq<AcceptOutcome>)
      requires Valid() && AllLive() && |polled| == |clients| + 1 && system.WellFormed()
      requires forall i | 0 <= i < |clients| :: EntryFor(polled, i).fd == clients[i].fd
      modifies Repr
      ensures Valid() && AllLive() && fresh(Repr - old(Repr)) && Repr >= old(Repr)
      ensures trace == old(trace) + ServiceEvents(old(system), answers, listenerReady, accepts)
    {
      hide Valid, LiveIds, UsedIn, Handles, Accepts, Admitted, Run;
      HandlePolled(polled, answers);
      VectorIsLive();
      ModelsAgree();
      if listenerReady {
        AcceptConnections(accepts);
      }
    }

    /** Everything that one pass does when poll returns. */
    method PassOnce(listener: int, r: Round)
      requires Valid() && AllLive() && system.WellFormed()
      modifies Repr
      ensures Valid() && AllLive() && fresh(Repr - old(Repr)) && Repr >= old(Repr)
      ensures trace == old(trace) + PassEvents(old(system), r)
    {
      hide Valid, Drops, LiveIds, ServiceEvents;
      ReachedNow();
      VectorIsLive();
      Reap(r.idle);
      Since(old(trace), IdleEvents(old(system), r));
      var polled := BuildPoll(listener);
      if r.poll.Ready? {
        Service(polled, r.answers, r.listenerReady, r.accepts);
      }
    }

    /** One pass of the loop; it goes on unless polling has failed. */
    method Pass(listener: int, r: Round) returns (goOn: bool)
      requires Valid() && AllLive() && system.WellFormed()
      modifies Repr
      ensures Valid() && AllLive() && fresh(Repr - old(Repr)) && Repr >= old(Repr)
      ensures goOn == !r.poll.PollFailed?
      ensures trace == old(trace) + PassEvents(old(system), r)
      ensures system.WellFormed() && system == Run(old(system), PassEvents(old(system), r))
    {
      hide Valid, PassEvents, Run;
      ReachedNow();
      PassOnce(listener, r);
      Since(old(trace), PassEvents(old(system), r));
      ReachedNow();
      goOn := !r.poll.PollFailed?;
    }

    lemma NoneLeft()
      requires Valid() && forall i | 0 <= i < |clients| :: clients[i].fd == -1
      ensures AllClosed(system)
    {
      hide Reached, Conn.WellFormed;
      assert forall i | 0 <= i < |models| :: models[i].fd == clients[i].fd;
    }

    /** The descriptors of the connections in the vector are distinct, except for those that have just been closed. */
    lemma DescriptorsDistinct()
      requires Valid()
      ensures forall i, j | 0 <= i < j < |clients| && clients[i].fd >= 0 :: clients[i].fd != clients[j].fd
    {
      hide Owned, Modeled, Separate;
      DescriptorsStayDistinct(d0, trace);
      ModelsAgree();
    }

    /** Once every connection is closed, no temporary file is left that was not there when the server started. */
    lemma ShutdownIsClean(name: string)
      requires Valid() && d0.Valid() && CleanRun(d0, trace)
      requires AllClosed(system)
      requires IsTempName(name) && name in host.disk.names
      ensures name in d0.names
    {
      hide Owned, Modeled, Separate, Tracks, IsTempName, CleanRun;
      NothingLeftBehind(d0, trace, name);
    }

    /** The closing of every connection that is left. */
    method CloseAll()
      requires Valid() && AllLive()
      modifies Repr
      ensures Valid() && trace == old(trace) + FinalEvents(old(system)) && AllClosed(system)
    {
      VectorIsLive();
      hide Valid, LiveIds, Drops;
      DropMarked(seq(|clients|, _ => true));
      NoneLeft();
    }

    /**
     The loop until the stop signal, and the closing of every connection that is left: the history is exactly that of
     the passes, in order, and of the final drops.
     */
    method Serve(listener: int, rounds: seq<Round>)
      requires Valid() && AllLive() && system.WellFormed()
      modifies Repr
      ensures Valid() && trace == old(trace) + ServeEvents(old(system), rounds) && AllClosed(system)
    {
      hide Valid, AllLive, AllClosed, PassEvents, FinalEvents, ServeEvents, Run, System.WellFormed;
      var goOn, pass := true, 0;
      ghost var done: seq<Event> := [];
      assert rounds[0..] == rounds;
      while goOn && pass < |rounds|
        invariant Valid() && AllLive() && fresh(Repr - old(Repr)) && pass <= |rounds| && system.WellFormed()
        invariant trace == old(trace) + done
        invariant done + Remaining(system, rounds[pass..], goOn) == ServeEvents(old(system), rounds)
        decreases goOn, |rounds| - pass
      {
        ghost var s := system;
        ServeOneMore(s, rounds, pass);
        goOn := Pass(listener, rounds[pass]);
        assert old(trace) + done + PassEvents(s, rounds[pass]) == old(trace) + (done + PassEvents(s, rounds[pass]));
        done, pass := done + PassEvents(s, rounds[pass]), pass + 1;
      }
      assert rounds[|rounds|..] == [];
      NothingRemains(system);
      CloseAll();
    }
  }
}
