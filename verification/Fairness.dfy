/**
 Fair shares of the event loop: between two consecutive services of one connection, each other connection is
 served at most once, and moves at most one buffer of payload.
 */
module Fairness {
  import opened Storage
  import opened Connection
  import opened System
  import opened Lifecycle
  import opened Rounds
  import opened EventLoop

  // ---------------------------------------------------------------------------
  // The payload moved by a run

  /** The payload that all connections together have sent and received. */
  function Total(conns: seq<Conn>): nat {
    if conns == [] then 0 else Total(conns[..|conns| - 1]) + conns[|conns| - 1].transferred
  }

  ghost predicate AllBuffered(s: System) {
    forall id | 0 <= id < |s.conns| :: Buffered(s.conns[id])
  }

  function ServiceCount(events: seq<Event>): nat {
    if events == [] then 0
    else ServiceCount(events[..|events| - 1]) + if events[|events| - 1].Handle? then 1 else 0
  }

  lemma {:induction false} TotalUpdate(conns: seq<Conn>, id: nat, c: Conn)
    requires id < |conns|
    ensures Total(conns[id := c]) == Total(conns) - conns[id].transferred + c.transferred
  {
    var last := |conns| - 1;
    if id == last {
      assert conns[id := c][..last] == conns[..last];
    } else {
      TotalUpdate(conns[..last], id, c);
      assert conns[id := c][..last] == conns[..last][id := c];
    }
  }

  lemma OneMoveTotal(s: System, w: World, id: nat, c: Conn, bound: nat)
    requires id < |s.conns| && s.conns[id].transferred <= c.transferred <= s.conns[id].transferred + bound
    ensures Total(s.conns) <= Total(System(w, s.conns[id := c]).conns) <= Total(s.conns) + bound
  {
    TotalUpdate(s.conns, id, c);
  }

  lemma NextTotal(s: System, e: Event)
    requires s.WellFormed() && AllBuffered(s)
    ensures AllBuffered(Next(s, e)) && Total(s.conns) <= Total(Next(s, e).conns)
    ensures Total(Next(s, e).conns) <= Total(s.conns) + if e.Handle? then BUFFER_SIZE else 0
  {
    hide Dispatch, Total, Conn.WellFormed;
    if Possible(s, e) {
      match e {
        case Accept(fd) =>
          AcceptTotal(s.conns, fd);
        case Handle(id, input) =>
          var r := Dispatch(s.w, s.conns[id], input);
          EventIsModest(s.w, s.conns[id], input);
          OneMoveTotal(s, r.w, id, r.c, BUFFER_SIZE);
        case Drop(id) =>
          var r := CloseClient(s.w, s.conns[id]);
          OneMoveTotal(s, r.w, id, r.c, 0);
      }
    }
  }

  lemma AcceptTotal(conns: seq<Conn>, fd: nat)
    ensures Total(conns + [NewConn(fd)]) == Total(conns)
  {
    var all := conns + [NewConn(fd)];
    assert all[..|all| - 1] == conns;
  }

  /** A run moves at most 64 KiB for each event that it handles, and the count never goes back. */
  lemma {:induction false} RunTotal(s: System, events: seq<Event>)
    requires s.WellFormed() && AllBuffered(s)
    ensures AllBuffered(Run(s, events))
    ensures Total(s.conns) <= Total(Run(s, events).conns) <= Total(s.conns) + ServiceCount(events) * BUFFER_SIZE
  {
    hide Next, Total, AllBuffered, Conn.WellFormed;
    if events != [] {
      var before := events[..|events| - 1];
      RunTotal(s, before);
      NextTotal(Run(s, before), events[|events| - 1]);
    }
  }

  /** In every run the request buffers stay within 4096 bytes, and a last chunk. */
  lemma {:induction false} EveryBufferBounded(d0: Disk, events: seq<Event>, id: nat)
    requires id < |Run(Start(d0), events).conns|
    ensures Buffered(Run(Start(d0), events).conns[id])
  {
    RunTotal(Start(d0), events);
  }

  // ---------------------------------------------------------------------------
  // Counting services

  lemma {:induction false} CountBoth(a: seq<Event>, b: seq<Event>)
    ensures ServiceCount(a + b) == ServiceCount(a) + ServiceCount(b)
  {
    if b == [] {
      assert a + b == a;
    } else {
      assert (a + b)[..|a + b| - 1] == a + b[..|b| - 1];
      CountBoth(a, b[..|b| - 1]);
    }
  }

  lemma {:induction false} NoServices(events: seq<Event>)
    requires forall e | e in events :: !e.Handle?
    ensures ServiceCount(events) == 0
  {
    if events != [] {
      NoServices(events[..|events| - 1]);
    }
  }

  lemma {:induction false} DropsServe(ids: seq<nat>, marks: seq<bool>)
    ensures ServiceCount(Drops(ids, marks)) == 0
  {
    if ids != [] {
      var last := |ids| - 1;
      DropsServe(ids[..last], marks);
      CountBoth(Drops(ids[..last], marks), if Marked(marks, last) then [Drop(ids[last])] else []);
    }
  }

  /** The services of one pass: those before position `from`, and at most one for each later position. */
  lemma {:induction false} PassSplits(ids: seq<nat>, from: nat, answers: seq<Input>)
    requires from <= |ids|
    ensures Handles(ids[..from], answers) <= Handles(ids, answers)
    ensures ServiceCount(Handles(ids, answers)[|Handles(ids[..from], answers)|..]) <= |ids| - from
    decreases |ids|
  {
    if from == |ids| {
      assert ids[..from] == ids;
    } else {
      var last := |ids| - 1;
      PassSplits(ids[..last], from, answers);
      assert ids[..last][..from] == ids[..from];
      LastStep(ids, answers);
      hide Handles, ServiceCount;
      OneMoreAfter(Handles(ids[..from], answers), Handles(ids[..last], answers), Handles(ids, answers));
    }
  }

  lemma OneMoreAfter(first: seq<Event>, before: seq<Event>, all: seq<Event>)
    requires first <= before <= all
    ensures first <= all
    ensures ServiceCount(all[|first|..]) == ServiceCount(before[|first|..]) + ServiceCount(all[|before|..])
  {
    CountBoth(before[|first|..], all[|before|..]);
    assert before[|first|..] + all[|before|..] == all[|first|..];
  }

  /** The last position adds one service at most. */
  lemma LastStep(ids: seq<nat>, answers: seq<Input>)
    requires ids != []
    ensures var before, all := Handles(ids[..|ids| - 1], answers), Handles(ids, answers);
            before <= all && all == before + all[|before|..] && ServiceCount(all[|before|..]) <= 1
  {
    var last := |ids| - 1;
    var before, answer := Handles(ids[..last], answers), AnswerFor(answers, last);
    var step := if NoEvents(answer) then [] else [Handle(ids[last], answer)];
    assert Handles(ids, answers) == before + step;
    assert (before + step)[|before|..] == step;
    assert ServiceCount([]) == 0 && (step != [] ==> step[..|step| - 1] == []);
  }

  // ---------------------------------------------------------------------------
  // From one service to the next

  /** A connection does not move back: what is before it in the next pass was before it in this one. */
  lemma {:induction false} NeverMovesBack(ids: seq<nat>, k: nat, ids': seq<nat>, k': nat)
    requires Sorted(ids) && Sorted(ids') && k <= |ids| && k' <= |ids'|
    requires forall j | 0 <= j < k' :: ids'[j] in ids[..k]
    ensures k' <= k
    decreases k'
  {
    if k' > 0 {
      var j :| 0 <= j < k && ids[j] == ids'[k' - 1];
      forall i | 0 <= i < k' - 1
        ensures ids'[i] in ids[..j]
      {
        var h :| 0 <= h < k && ids[h] == ids'[i];
        assert ids'[i] < ids'[k' - 1];
        assert ids[..j][h] == ids'[i];
      }
      NeverMovesBack(ids, j, ids', k' - 1);
    }
  }

  lemma FrontOnlyShrinks(ids: seq<nat>, k: nat, ids': seq<nat>, k': nat)
    requires Sorted(ids) && Sorted(ids') && k < |ids| && k' < |ids'| && ids'[k'] == ids[k]
    requires forall y | y in ids' && y < ids[k] :: y in ids
    ensures k' <= k
  {
    forall j | 0 <= j < k'
      ensures ids'[j] in ids[..k]
    {
      assert ids'[j] in ids' && ids'[j] < ids'[k'];
      var h :| 0 <= h < |ids| && ids[h] == ids'[j];
      assert ids[..k][h] == ids'[j];
    }
    NeverMovesBack(ids, k, ids', k');
  }

  lemma {:induction false} ClosedForGood(s: System, events: seq<Event>, id: nat)
    requires s.WellFormed() && id < |s.conns|
    ensures |s.conns| <= |Run(s, events).conns| && (!s.conns[id].Live() ==> !Run(s, events).conns[id].Live())
  {
    hide Dispatch, Conn.WellFormed;
    if events != [] {
      ClosedForGood(s, events[..|events| - 1], id);
    }
  }

  /** Whoever is live later and is older than a connection that was live before, was live before. */
  lemma OldOnesWereThere(s: System, events: seq<Event>, y: nat, x: nat)
    requires s.WellFormed() && y in LiveIds(Run(s, events)) && x in LiveIds(s) && y < x
    ensures y in LiveIds(s)
  {
    ClosedForGood(s, events, y);
  }

  lemma FewerLeft(s: System, events: seq<Event>)
    requires s.WellFormed() && |Run(s, events).conns| == |s.conns|
    ensures |LiveIds(Run(s, events))| <= |LiveIds(s)|
  {
    var ids, ids' := LiveIds(s), LiveIds(Run(s, events));
    forall j | 0 <= j < |ids'|
      ensures ids'[j] in ids[..|ids|]
    {
      ClosedForGood(s, events, ids'[j]);
      assert ids[..|ids|] == ids;
    }
    NeverMovesBack(ids, |ids|, ids', |ids'|);
  }

  /** The events of a pass up to the connection at position `k`, without it. */
  function ServedBefore(s: System, r: Round, k: nat): seq<Event>
    requires s.WellFormed() && k <= |Polled(s, r)|
  {
    IdleEvents(s, r) + Handles(Polled(s, r)[..k], r.answers)
  }

  /** A pass goes on after the connection at position `k` with one service at most for each of the rest, and accepts. */
  lemma PassGoesOn(s: System, r: Round, k: nat)
    requires s.WellFormed() && r.poll.Ready? && k < |Polled(s, r)|
    ensures var upTo, pass := ServedBefore(s, r, k + 1), PassEvents(s, r);
            upTo <= pass && ServiceCount(pass[|upTo|..]) <= |Polled(s, r)| - k - 1
  {
    var ids := Polled(s, r);
    PassSplits(ids, k + 1, r.answers);
    var first, all := Handles(ids[..k + 1], r.answers), Handles(ids, r.answers);
    var accepts := if r.listenerReady then AcceptEvents(Run(PolledState(s, r), all), r.accepts) else [];
    NoServices(accepts);
    CountBoth(all[|first|..], accepts);
    hide Handles, IdleEvents, PolledState, Polled, Accepts, Admitted, Run;
    SplitAfter(IdleEvents(s, r), first, all, accepts);
  }

  lemma SplitAfter<T>(idle: seq<T>, first: seq<T>, all: seq<T>, rest: seq<T>)
    requires first <= all
    ensures idle + first <= idle + (all + rest)
    ensures (idle + (all + rest))[|idle + first|..] == all[|first|..] + rest
  {
  }

  /** Before the connection at position `k` a pass serves no more than `k` others. */
  lemma PassBegins(s: System, r: Round, k: nat)
    requires s.WellFormed() && k <= |Polled(s, r)|
    ensures ServiceCount(ServedBefore(s, r, k)) <= k
  {
    var ids := Polled(s, r)[..k];
    DropsServe(LiveIds(s), r.idle);
    PassSplits(ids, 0, r.answers);
    assert ids[..0] == [];
    assert Handles(ids, r.answers)[0..] == Handles(ids, r.answers);
    CountBoth(IdleEvents(s, r), Handles(ids, r.answers));
  }

  lemma {:induction false} DropsAcceptNobody(s: System, ids: seq<nat>, marks: seq<bool>)
    requires s.WellFormed()
    ensures |Run(s, Drops(ids, marks)).conns| == |s.conns|
  {
    hide Conn.WellFormed, CloseClient;
    if ids != [] {
      var last := |ids| - 1;
      var before := Drops(ids[..last], marks);
      DropsAcceptNobody(s, ids[..last], marks);
      if Marked(marks, last) {
        RunOneMore(s, before, Drop(ids[last]));
      } else {
        assert before + [] == before;
      }
    }
  }

  lemma PolledBounded(s: System, r: Round)
    requires s.WellFormed()
    ensures |Polled(s, r)| <= |LiveIds(s)|
  {
    DropsAcceptNobody(s, LiveIds(s), r.idle);
    FewerLeft(s, IdleEvents(s, r));
  }

  /** What stands in front of a connection in the next pass stood there in this one. */
  lemma NextFront(s: System, r: Round, k: nat, r': Round, k': nat)
    requires s.WellFormed() && k < |Polled(s, r)|
    requires var s' := Run(s, PassEvents(s, r)); k' < |Polled(s', r')| && Polled(s', r')[k'] == Polled(s, r)[k]
    ensures k' <= k
  {
    var p, s' := PolledState(s, r), Run(s, PassEvents(s, r));
    var rest := PassEvents(s, r)[|IdleEvents(s, r)|..] + IdleEvents(s', r');
    NextPolledState(s, r, r');
    hide PassEvents, IdleEvents, Run, LiveIds, Conn.WellFormed;
    var x := Polled(s, r)[k];
    assert x in Polled(s, r);
    forall y | y in Polled(s', r') && y < x
      ensures y in Polled(s, r)
    {
      OldOnesWereThere(p, rest, y, x);
    }
    FrontOnlyShrinks(Polled(s, r), k, Polled(s', r'), k');
  }

  lemma NextPolledState(s: System, r: Round, r': Round)
    requires s.WellFormed()
    ensures var s' := Run(s, PassEvents(s, r));
            IdleEvents(s, r) <= PassEvents(s, r)
            && PolledState(s', r')
               == Run(PolledState(s, r), PassEvents(s, r)[|IdleEvents(s, r)|..] + IdleEvents(s', r'))
  {
    var idle, pass := IdleEvents(s, r), PassEvents(s, r);
    var s' := Run(s, pass);
    assert pass == idle + pass[|idle|..];
    hide IdleEvents, PassEvents, Run;
    RunThen(s, idle, pass[|idle|..]);
    RunThen(PolledState(s, r), pass[|idle|..], IdleEvents(s', r'));
  }

  /**
   The bound, for two consecutive passes of a server: from the service of a connection in one pass to its service in the
   next, all others together move at most 64 KiB for each of them, so at most 255 buffers.
   */
  lemma FairShare(server: Server, r: Round, k: nat, r': Round, k': nat)
    requires server.Valid() && server.AllLive() && server.system.WellFormed() && r.poll.Ready? && r'.poll.Ready?
    requires var s := server.system; var s' := Run(s, PassEvents(s, r));
             k < |Polled(s, r)| && k' < |Polled(s', r')| && Polled(s', r')[k'] == Polled(s, r)[k]
    ensures var s := server.system; var s' := Run(s, PassEvents(s, r));
            var upTo, until := ServedBefore(s, r, k + 1), PassEvents(s, r) + ServedBefore(s', r', k');
            && upTo <= until
            && Total(Run(s, upTo).conns) <= Total(Run(s, until).conns)
            && Total(Run(s, until).conns) - Total(Run(s, upTo).conns) <= (|Polled(s, r)| - 1) * BUFFER_SIZE
            && |Polled(s, r)| - 1 <= 255
  {
    hide Server.Valid, PassEvents, ServedBefore, Polled, Run, Total, LiveIds, UsedIn;
    var s := server.system;
    server.VectorIsLive();
    server.ReachedNow();
    server.ValidParts();
    PolledBounded(s, r);
    NextFront(s, r, k, r', k');
    PassGoesOn(s, r, k);
    var s' := Run(s, PassEvents(s, r));
    PassBegins(s', r', k');
    var upTo, more := ServedBefore(s, r, k + 1), ServedBefore(s', r', k');
    StartBuffered(server.d0, server.trace);
    MovedAfter(s, PassEvents(s, r), upTo, more, |Polled(s, r)| - 1);
  }

  lemma StartBuffered(d: Disk, events: seq<Event>)
    ensures AllBuffered(Run(Start(d), events))
  {
    RunTotal(Start(d), events);
  }

  lemma MovedAfter(s: System, pass: seq<Event>, upTo: seq<Event>, more: seq<Event>, count: nat)
    requires s.WellFormed() && AllBuffered(s) && upTo <= pass
    requires ServiceCount(pass[|upTo|..]) + ServiceCount(more) <= count
    ensures upTo <= pass + more
    ensures Total(Run(s, upTo).conns) <= Total(Run(s, pass + more).conns)
    ensures Total(Run(s, pass + more).conns) <= Total(Run(s, upTo).conns) + count * BUFFER_SIZE
  {
    hide Run, Total, ServiceCount, AllBuffered, System.WellFormed;
    var rest := pass[|upTo|..] + more;
    Regroup(pass, upTo, more);
    CountBoth(pass[|upTo|..], more);
    RunTotal(s, upTo);
    RunThen(s, upTo, rest);
    RunTotal(Run(s, upTo), rest);
    Scaled(ServiceCount(rest), count);
  }

  lemma Regroup<T>(pass: seq<T>, upTo: seq<T>, more: seq<T>)
    requires upTo <= pass
    ensures upTo + (pass[|upTo|..] + more) == pass + more && upTo <= pass + more
  {
  }

  lemma Scaled(a: nat, b: nat)
    requires a <= b
    ensures a * BUFFER_SIZE <= b * BUFFER_SIZE
  {
  }
}
