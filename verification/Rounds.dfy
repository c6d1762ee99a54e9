/**
 What the event loop makes of the answers that it gets, as functions of the machine of System.dfy: the events of one
 pass, and of all passes until the end.
 */
module Rounds {
  import opened Connection
  import opened System

  const MAX_CLIENTS: nat := 256

  /** `Accepted` carries the least descriptor the kernel would pick and whether the socket can be made non-blocking. */
  datatype AcceptOutcome = Accepted(hint: nat, nonblocking: bool) | AcceptInterrupted | AcceptWouldBlock | AcceptFailed

  datatype PollResult = Ready | NothingReady | PollInterrupted | PollFailed

  /** What the environment does in one pass of the loop. */
  datatype Round = Round(
    idle: seq<bool>, poll: PollResult, answers: seq<Input>, listenerReady: bool, accepts: seq<AcceptOutcome>)

  // ---------------------------------------------------------------------------
  // The events of one part of a pass

  predicate NoEvents(i: Input) {
    !i.readable && !i.writable && !i.hangup && !i.error
  }

  /** The kernel hands out a descriptor that is not in use. */
  function FreeDescriptor(hint: nat, used: set<int>): (fd: nat)
    ensures fd >= hint && fd !in used
    decreases used
  {
    if hint in used then FreeDescriptor(hint + 1, used - {hint}) else hint
  }

  // ---------------------------------------------------------------------------
  // The events of one pass

  const QUIET := Input(false, false, false, false, [], [],
                       FileOutcomes(true, true, true, true, true, true, true, true, 0))

  function AnswerFor(answers: seq<Input>, i: nat): Input {
    if i < |answers| then answers[i] else QUIET
  }

  predicate Marked(marks: seq<bool>, i: nat) {
    i < |marks| && marks[i]
  }

  /** One event for each polled connection that has something to handle, in the order of the vector. */
  function Handles(ids: seq<nat>, answers: seq<Input>): seq<Event> {
    if ids == [] then []
    else
      var last := |ids| - 1;
      var answer := AnswerFor(answers, last);
      Handles(ids[..last], answers) + (if NoEvents(answer) then [] else [Handle(ids[last], answer)])
  }

  /** One drop for each connection that is marked. */
  function Drops(ids: seq<nat>, marks: seq<bool>): seq<Event> {
    if ids == [] then []
    else
      var last := |ids| - 1;
      Drops(ids[..last], marks) + (if Marked(marks, last) then [Drop(ids[last])] else [])
  }

  function Accepts(fds: seq<nat>): (events: seq<Event>)
    ensures |events| == |fds| && forall k | 0 <= k < |fds| :: events[k] == Accept(fds[k])
  {
    seq(|fds|, k requires 0 <= k < |fds| => Accept(fds[k]))
  }

  lemma AcceptsOneMore(fds: seq<nat>, fd: nat)
    ensures Accepts(fds + [fd]) == Accepts(fds) + [Accept(fd)]
  {
  }

  /**
   The descriptors admitted by a series of `accept` calls: while there is room, and until a call would block or fails.
   */
  function Admitted(used: set<int>, room: nat, accepts: seq<AcceptOutcome>): seq<nat>
    decreases |accepts|
  {
    if accepts == [] then []
    else
      match accepts[0]
      case Accepted(hint, nonblocking) =>
        if room == 0 || !nonblocking then Admitted(used, room, accepts[1..])
        else
          var fd := FreeDescriptor(hint, used);
          [fd] + Admitted(used + {fd}, room - 1, accepts[1..])
      case AcceptInterrupted => Admitted(used, room, accepts[1..])
      case AcceptWouldBlock => []
      case AcceptFailed => []
  }

  // ---------------------------------------------------------------------------
  // The connections in the vector

  /** The positions of the set flags, in order. */
  function Indices(flags: seq<bool>): (r: seq<nat>)
    ensures forall k | 0 <= k < |r| :: r[k] < |flags| && flags[r[k]]
    ensures forall k, l | 0 <= k < l < |r| :: r[k] < r[l]
    ensures forall i | 0 <= i < |flags| && flags[i] :: i in r
    ensures |r| <= |flags|
  {
    if flags == [] then []
    else
      var last := |flags| - 1;
      Indices(flags[..last]) + (if flags[last] then [last] else [])
  }

  function Select<T>(xs: seq<T>, positions: seq<nat>): (r: seq<T>)
    requires forall k | 0 <= k < |positions| :: positions[k] < |xs|
    ensures |r| == |positions| && forall k | 0 <= k < |r| :: r[k] == xs[positions[k]]
  {
    seq(|positions|, k requires 0 <= k < |positions| => xs[positions[k]])
  }

  function LiveFlags(models: seq<Conn>): (r: seq<bool>)
    ensures |r| == |models| && forall i | 0 <= i < |r| :: r[i] == models[i].Live()
  {
    seq(|models|, i requires 0 <= i < |models| => models[i].Live())
  }

  /** The live connections, in the order in which they were accepted. */
  function LiveIds(s: System): (ids: seq<nat>)
    ensures forall k | 0 <= k < |ids| :: ids[k] < |s.conns| && s.conns[ids[k]].Live()
    ensures forall id | 0 <= id < |s.conns| && s.conns[id].Live() :: id in ids
    ensures Sorted(ids)
  {
    Indices(LiveFlags(s.conns))
  }

  predicate Sorted(ids: seq<nat>) {
    forall i, j | 0 <= i < j < |ids| :: ids[i] < ids[j]
  }

  predicate SameNumbers(a: seq<nat>, b: seq<nat>) {
    (forall x | x in a :: x in b) && (forall x | x in b :: x in a)
  }

  lemma LastIsGreatest(a: seq<nat>, x: nat)
    requires Sorted(a) && x in a
    ensures x <= a[|a| - 1]
  {
  }

  lemma LastLeftOut(a: seq<nat>, x: nat)
    requires Sorted(a) && a != []
    ensures Sorted(a[..|a| - 1]) && (x in a[..|a| - 1] <==> x in a && x != a[|a| - 1])
  {
  }

  lemma SameButLast(a: seq<nat>, b: seq<nat>)
    requires Sorted(a) && Sorted(b) && SameNumbers(a, b) && a != [] && b != []
    ensures a[|a| - 1] == b[|b| - 1] && SameNumbers(a[..|a| - 1], b[..|b| - 1])
    ensures Sorted(a[..|a| - 1]) && Sorted(b[..|b| - 1])
  {
    var m, n := |a| - 1, |b| - 1;
    assert a[m] in a && b[n] in b;
    LastIsGreatest(a, b[n]);
    LastIsGreatest(b, a[m]);
    LastLeftOut(a, a[m]);
    LastLeftOut(b, b[n]);
    hide Sorted;
    forall x
      ensures x in a[..m] <==> x in b[..n]
    {
      LastLeftOut(a, x);
      LastLeftOut(b, x);
    }
  }

  lemma SameEmpty(a: seq<nat>, b: seq<nat>)
    requires forall x | x in a :: x in b
    ensures b == [] ==> a == []
  {
    if a != [] {
      assert a[0] in a;
    }
  }

  /** Sorted sequences that list the same numbers are the same. */
  lemma {:induction false} SameSorted(a: seq<nat>, b: seq<nat>)
    requires Sorted(a) && Sorted(b) && SameNumbers(a, b)
    ensures a == b
  {
    if a != [] && b != [] {
      SameButLast(a, b);
      hide Sorted, SameNumbers;
      SameSorted(a[..|a| - 1], b[..|b| - 1]);
      assert a == a[..|a| - 1] + [a[|a| - 1]] && b == b[..|b| - 1] + [b[|b| - 1]];
    } else {
      SameEmpty(a, b);
      SameEmpty(b, a);
    }
  }

  /** The descriptors that are in use. */
  function UsedIn(s: System): set<int> {
    set c | c in s.conns && c.Live() :: c.fd
  }

  /** How many connections may still be admitted. */
  function Room(s: System): nat {
    if |LiveIds(s)| <= MAX_CLIENTS then MAX_CLIENTS - |LiveIds(s)| else 0
  }

  // ---------------------------------------------------------------------------
  // Whole passes

  /** The idle connections are dropped first. */
  function IdleEvents(s: System, r: Round): seq<Event> {
    Drops(LiveIds(s), r.idle)
  }

  /** The state that the poll array is built from. */
  function PolledState(s: System, r: Round): (s': System)
    requires s.WellFormed()
    ensures s'.WellFormed()
  {
    Run(s, IdleEvents(s, r))
  }

  function Polled(s: System, r: Round): seq<nat>
    requires s.WellFormed()
  {
    LiveIds(PolledState(s, r))
  }

  /** New connections are accepted as long as there is room. */
  function AcceptEvents(s: System, accepts: seq<AcceptOutcome>): seq<Event> {
    Accepts(Admitted(UsedIn(s), Room(s), accepts))
  }

  /** The live connections are handled in order, and then new ones are accepted. */
  function ServiceEvents(s: System, answers: seq<Input>, listenerReady: bool, accepts: seq<AcceptOutcome>): seq<Event>
    requires s.WellFormed()
  {
    var handled := Handles(LiveIds(s), answers);
    handled + if listenerReady then AcceptEvents(Run(s, handled), accepts) else []
  }

  /** The events of one pass of the loop. */
  function PassEvents(s: System, r: Round): seq<Event>
    requires s.WellFormed()
  {
    IdleEvents(s, r)
    + if r.poll.Ready? then ServiceEvents(PolledState(s, r), r.answers, r.listenerReady, r.accepts) else []
  }

  /** At the end every connection that is left is dropped. */
  function FinalEvents(s: System): seq<Event> {
    Drops(LiveIds(s), seq(|LiveIds(s)|, _ => true))
  }

  /** The events of the whole loop: one pass after the other, until polling fails or the server is told to stop. */
  function ServeEvents(s: System, rounds: seq<Round>): seq<Event>
    requires s.WellFormed()
    decreases |rounds|
  {
    if rounds == [] then FinalEvents(s)
    else
      var pass := PassEvents(s, rounds[0]);
      var s' := Run(s, pass);
      pass + if rounds[0].poll.PollFailed? then FinalEvents(s') else ServeEvents(s', rounds[1..])
  }

  lemma ServeOneMore(s: System, rounds: seq<Round>, pass: nat)
    requires s.WellFormed() && pass < |rounds|
    ensures var events := PassEvents(s, rounds[pass]); var s' := Run(s, events);
            ServeEvents(s, rounds[pass..])
            == events + if rounds[pass].poll.PollFailed? then FinalEvents(s') else ServeEvents(s', rounds[pass + 1..])
  {
    assert rounds[pass..][1..] == rounds[pass + 1..];
    hide PassEvents, FinalEvents, Run;
  }
}
