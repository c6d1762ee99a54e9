/**
 What one pass of the loop does with the answers that it gets, place by place: which connections are dropped and
 handled, and how many new ones are admitted.
 */
module Polling {
  import opened Connection
  import opened System
  import opened Rounds

  // ---------------------------------------------------------------------------
  // Who is handled and who is dropped

  /** `ks` lists those of the places from `m` to `n` that are in `places`, in order and each one once. */
  ghost predicate Lists(ks: seq<nat>, m: nat, n: nat, places: set<nat>) {
    && (forall i, j | 0 <= i < j < |ks| :: ks[i] < ks[j])
    && (forall k | k in ks :: m <= k < n && k in places)
    && (forall k | k in places && m <= k < n :: k in ks)
  }

  lemma NothingListed(m: nat, places: set<nat>)
    ensures Lists([], m, m, places)
  {
  }

  lemma ListsMore(ks: seq<nat>, last: nat, places: set<nat>)
    requires Lists(ks, 0, last, places)
    ensures Lists(if last in places then ks + [last] else ks, 0, last + 1, places)
  {
    var more := ks + [last];
    forall i, j | 0 <= i < j < |more|
      ensures more[i] < more[j]
    {
      assert more[i] in ks;
    }
    assert more[|ks|] == last;
    forall k | k in ks
      ensures k in more
    {
      var i :| 0 <= i < |ks| && ks[i] == k;
      assert more[i] == k;
    }
  }

  /** The connections for which poll has reported something. */
  function Reported(answers: seq<Input>): set<nat> {
    set k | 0 <= k < |answers| && (answers[k].readable || answers[k].writable || answers[k].hangup || answers[k].error)
  }

  /** The connections that have been idle for too long. */
  function Idling(marks: seq<bool>): set<nat> {
    set k | 0 <= k < |marks| && marks[k]
  }

  /** The events are those of the connections at the places `ks`, each with its own answer. */
  ghost predicate HandlesThese(events: seq<Event>, ids: seq<nat>, answers: seq<Input>, ks: seq<nat>) {
    |events| == |ks| && forall n | 0 <= n < |ks| ::
      ks[n] < |ids| && ks[n] < |answers| && events[n] == Handle(ids[ks[n]], answers[ks[n]])
  }

  ghost predicate DropsThese(events: seq<Event>, ids: seq<nat>, ks: seq<nat>) {
    |events| == |ks| && forall n | 0 <= n < |ks| :: ks[n] < |ids| && events[n] == Drop(ids[ks[n]])
  }

  lemma HandlesLast(ids: seq<nat>, answers: seq<Input>)
    requires ids != []
    ensures var last := |ids| - 1;
            Handles(ids, answers) == Handles(ids[..last], answers)
                                     + if last in Reported(answers) then [Handle(ids[last], answers[last])] else []
  {
  }

  lemma DropsLast(ids: seq<nat>, marks: seq<bool>)
    requires ids != []
    ensures var last := |ids| - 1;
            Drops(ids, marks) == Drops(ids[..last], marks) + if last in Idling(marks) then [Drop(ids[last])] else []
  {
  }

  lemma HandlesOneMore(events: seq<Event>, ids: seq<nat>, answers: seq<Input>, ks: seq<nat>, last: nat)
    requires last < |ids| && HandlesThese(events, ids[..last], answers, ks)
    ensures HandlesThese(events, ids, answers, ks)
    ensures last < |answers| ==> HandlesThese(events + [Handle(ids[last], answers[last])], ids, answers, ks + [last])
  {
  }

  lemma DropsOneMore(events: seq<Event>, ids: seq<nat>, ks: seq<nat>, last: nat)
    requires last < |ids| && DropsThese(events, ids[..last], ks)
    ensures DropsThese(events, ids, ks) && DropsThese(events + [Drop(ids[last])], ids, ks + [last])
  {
  }

  /**
   The connections for which anything was reported are handled, each one once and in the order of the vector, each with
   its own answer, and no others are.
   */
  lemma {:induction false} HandlesExactly(ids: seq<nat>, answers: seq<Input>) returns (ks: seq<nat>)
    ensures Lists(ks, 0, |ids|, Reported(answers))
    ensures HandlesThese(Handles(ids, answers), ids, answers, ks)
  {
    ks := [];
    if ids == [] {
      NothingListed(0, Reported(answers));
    } else {
      hide Lists, HandlesThese, Handles;
      var last := |ids| - 1;
      ks := HandlesExactly(ids[..last], answers);
      HandlesLast(ids, answers);
      HandlesOneMore(Handles(ids[..last], answers), ids, answers, ks, last);
      ListsMore(ks, last, Reported(answers));
      if last in Reported(answers) {
        ks := ks + [last];
      }
    }
  }

  /** The connections that are marked are dropped, each one once and in the order of the vector, and no others are. */
  lemma {:induction false} DropsExactly(ids: seq<nat>, marks: seq<bool>) returns (ks: seq<nat>)
    ensures Lists(ks, 0, |ids|, Idling(marks))
    ensures DropsThese(Drops(ids, marks), ids, ks)
  {
    ks := [];
    if ids == [] {
      NothingListed(0, Idling(marks));
    } else {
      hide Lists, DropsThese, Drops;
      var last := |ids| - 1;
      ks := DropsExactly(ids[..last], marks);
      DropsLast(ids, marks);
      DropsOneMore(Drops(ids[..last], marks), ids, ks, last);
      ListsMore(ks, last, Idling(marks));
      if last in Idling(marks) {
        ks := ks + [last];
      }
    }
  }

  // ---------------------------------------------------------------------------
  // Who is admitted

  /** The accept loop ends with the call at `n`, or with the last one. */
  ghost predicate EndsAt(accepts: seq<AcceptOutcome>, n: nat) {
    && n <= |accepts|
    && (forall k | 0 <= k < n :: !accepts[k].AcceptWouldBlock? && !accepts[k].AcceptFailed?)
    && (n < |accepts| ==> accepts[n].AcceptWouldBlock? || accepts[n].AcceptFailed?)
  }

  /** The calls that give a connection which can be used. */
  function Usable(accepts: seq<AcceptOutcome>): set<nat> {
    set k | 0 <= k < |accepts| && accepts[k].Accepted? && accepts[k].nonblocking
  }

  /** The least descriptor from `hint` on that is not in use. */
  ghost predicate LeastFree(fd: nat, hint: nat, used: set<int>) {
    hint <= fd && fd !in used && forall x | hint <= x < fd :: x in used
  }

  /** Every descriptor is one that was free, and comes from the call at the same place in `ks`. */
  ghost predicate AdmitsThese(fds: seq<nat>, used: set<int>, accepts: seq<AcceptOutcome>, ks: seq<nat>) {
    |fds| <= |ks| && forall n | 0 <= n < |fds| ::
      && ks[n] < |accepts| && accepts[ks[n]].Accepted?
      && LeastFree(fds[n], accepts[ks[n]].hint, used + Members(fds[..n]))
  }

  function Members(fds: seq<nat>): set<int> {
    set x | x in fds
  }

  lemma {:induction false} FreeIsLeast(hint: nat, used: set<int>, all: set<int>)
    requires used <= all && forall x | x in all && x >= hint :: x in used
    ensures FreeDescriptor(hint, used) !in all
    ensures forall x | hint <= x < FreeDescriptor(hint, used) :: x in used
    decreases used
  {
    if hint in used {
      FreeIsLeast(hint + 1, used - {hint}, all);
    }
  }

  lemma FreeLeast(hint: nat, used: set<int>)
    ensures LeastFree(FreeDescriptor(hint, used), hint, used)
  {
    FreeIsLeast(hint, used, used);
  }

  lemma ListsFirst(ks: seq<nat>, m: nat, n: nat, places: set<nat>)
    requires Lists(ks, m + 1, n, places) && m < n
    ensures Lists(if m in places then [m] + ks else ks, m, n, places)
  {
    var more := [m] + ks;
    forall i, j | 0 <= i < j < |more|
      ensures more[i] < more[j]
    {
      assert more[j] in ks;
    }
    forall k | k in ks
      ensures k in more
    {
      var i :| 0 <= i < |ks| && ks[i] == k;
      assert more[i + 1] == k;
    }
    assert more[0] == m;
  }

  lemma AdmitsFirst(fds: seq<nat>, used: set<int>, accepts: seq<AcceptOutcome>, ks: seq<nat>, m: nat, fd: nat)
    requires m < |accepts| && accepts[m].Accepted? && LeastFree(fd, accepts[m].hint, used)
    requires AdmitsThese(fds, used + {fd}, accepts, ks)
    ensures AdmitsThese([fd] + fds, used, accepts, [m] + ks)
  {
    hide LeastFree;
    var all := [fd] + fds;
    assert used + Members(all[..0]) == used;
    forall n | 0 < n < |all|
      ensures used + Members(all[..n]) == used + {fd} + Members(fds[..n - 1])
    {
      assert all[..n] == [fd] + fds[..n - 1];
    }
  }

  lemma {:induction false} AdmittedFrom(used: set<int>, room: nat, accepts: seq<AcceptOutcome>, m: nat, n: nat)
    returns (ks: seq<nat>)
    requires EndsAt(accepts, n) && m <= n
    ensures Lists(ks, m, n, Usable(accepts))
    ensures var fds := Admitted(used, room, accepts[m..]);
            |fds| == (if |ks| < room then |ks| else room) && AdmitsThese(fds, used, accepts, ks)
    decreases n - m
  {
    ks := [];
    if m == n {
      NothingListed(m, Usable(accepts));
    } else {
      assert accepts[m..][1..] == accepts[m + 1..] && accepts[m..][0] == accepts[m];
      hide Lists, AdmitsThese, LeastFree;
      if m in Usable(accepts) && room > 0 {
        var fd := FreeDescriptor(accepts[m].hint, used);
        FreeLeast(accepts[m].hint, used);
        ks := AdmittedFrom(used + {fd}, room - 1, accepts, m + 1, n);
        AdmitsFirst(Admitted(used + {fd}, room - 1, accepts[m + 1..]), used, accepts, ks, m, fd);
      } else {
        ks := AdmittedFrom(used, room, accepts, m + 1, n);
      }
      ListsFirst(ks, m, n, Usable(accepts));
      if m in Usable(accepts) {
        ks := [m] + ks;
      }
    }
  }

  /** Fewer than 256 connections, and how many more there may be. */
  function Places(live: nat): nat {
    if live < 256 then 256 - live else 0
  }

  /**
   The accept loop takes connections in order until a call would block or fails, refuses those that cannot be used and
   those for which there is no place, and gives each of the others a descriptor of its own that was free.
   */
  lemma AcceptsExactly(s: System, accepts: seq<AcceptOutcome>, n: nat) returns (ks: seq<nat>, fds: seq<nat>)
    requires EndsAt(accepts, n)
    ensures Lists(ks, 0, n, Usable(accepts)) && AdmitsThese(fds, UsedIn(s), accepts, ks)
    ensures |fds| == if |ks| < Places(|LiveIds(s)|) then |ks| else Places(|LiveIds(s)|)
    ensures AcceptEvents(s, accepts) == Accepts(fds)
    ensures forall i | 0 <= i < |fds| :: !s.InUse(fds[i]) && forall j | 0 <= j < i :: fds[j] != fds[i]
  {
    assert accepts[0..] == accepts;
    hide Lists, LeastFree, EndsAt, Usable, Admitted, LiveIds;
    ks := AdmittedFrom(UsedIn(s), Room(s), accepts, 0, n);
    fds := Admitted(UsedIn(s), Room(s), accepts);
    forall i | 0 <= i < |fds|
      ensures !s.InUse(fds[i]) && forall j | 0 <= j < i :: fds[j] != fds[i]
    {
      FreeFacts(fds[i], accepts[ks[i]].hint, UsedIn(s) + Members(fds[..i]));
      assert forall j | 0 <= j < i :: fds[j] in fds[..i];
    }
  }

  lemma FreeFacts(fd: nat, hint: nat, used: set<int>)
    requires LeastFree(fd, hint, used)
    ensures fd >= hint && fd !in used
  {
  }

  // ---------------------------------------------------------------------------
  // Passes

  /** What one pass does, in order; when poll gives no answers it only drops connections. */
  lemma PassExactly(s: System, r: Round, n: nat)
    returns (dropped: seq<nat>, handled: seq<nat>, ks: seq<nat>, fds: seq<nat>, drops: seq<Event>, handles: seq<Event>)
    requires s.WellFormed() && EndsAt(r.accepts, n)
    ensures Lists(dropped, 0, |LiveIds(s)|, Idling(r.idle)) && DropsThese(drops, LiveIds(s), dropped)
    ensures var live := LiveIds(Run(s, drops));
            Lists(handled, 0, |live|, Reported(r.answers)) && HandlesThese(handles, live, r.answers, handled)
    ensures var t := Run(Run(s, drops), handles);
            && Lists(ks, 0, n, Usable(r.accepts)) && AdmitsThese(fds, UsedIn(t), r.accepts, ks)
            && |fds| == if |ks| < Places(|LiveIds(t)|) then |ks| else Places(|LiveIds(t)|)
    ensures PassEvents(s, r) == if !r.poll.Ready? then drops
                                else drops + handles + if r.listenerReady then Accepts(fds) else []
  {
    hide Lists, DropsThese, HandlesThese, AdmitsThese, EndsAt, LiveIds, Handles, Drops, Run, UsedIn, Accepts, Reported,
         Idling, Usable, AcceptEvents, Places;
    dropped := DropsExactly(LiveIds(s), r.idle);
    drops := Drops(LiveIds(s), r.idle);
    var s' := Run(s, drops);
    handled := HandlesExactly(LiveIds(s'), r.answers);
    handles := Handles(LiveIds(s'), r.answers);
    ks, fds := AcceptsExactly(Run(s', handles), r.accepts, n);
  }

  /** The passes of some rounds, one after the other. */
  function Passes(s: System, rounds: seq<Round>): seq<Event>
    requires s.WellFormed()
    decreases |rounds|
  {
    if rounds == [] then []
    else
      var pass := PassEvents(s, rounds[0]);
      pass + Passes(Run(s, pass), rounds[1..])
  }

  /** `n` passes are made: polling may fail only in the last one, and they are all if it does not. */
  ghost predicate LoopEndsAt(rounds: seq<Round>, n: nat) {
    && n <= |rounds|
    && (forall k | 0 <= k < n - 1 :: !rounds[k].poll.PollFailed?)
    && (n < |rounds| ==> n > 0 && rounds[n - 1].poll.PollFailed?)
  }

  /** The loop goes on until a poll fails or it is told to stop; then every connection that is left is dropped. */
  lemma {:induction false} ServeExactly(s: System, rounds: seq<Round>, n: nat)
    requires s.WellFormed() && LoopEndsAt(rounds, n)
    ensures var all := Passes(s, rounds[..n]); ServeEvents(s, rounds) == all + FinalEvents(Run(s, all))
    decreases n
  {
    hide PassEvents, Run, FinalEvents, System.WellFormed;
    if n == 0 {
      NoPasses(s);
    } else {
      var pass := PassEvents(s, rounds[0]);
      assert rounds[..n][1..] == rounds[1..][..n - 1];
      var later := Passes(Run(s, pass), rounds[1..][..n - 1]);
      RunThen(s, pass, later);
      if rounds[0].poll.PollFailed? {
        assert n == 1;
        NoPasses(Run(s, pass));
        assert pass + [] == pass;
      } else {
        ServeExactly(Run(s, pass), rounds[1..], n - 1);
      }
    }
  }

  lemma NoPasses(s: System)
    requires s.WellFormed()
    ensures Passes(s, []) == [] && Run(s, []) == s
  {
  }

  /** At the end every connection that is left is dropped once, in order. */
  lemma FinalExactly(s: System)
    ensures |FinalEvents(s)| == |LiveIds(s)|
    ensures forall k | 0 <= k < |LiveIds(s)| :: FinalEvents(s)[k] == Drop(LiveIds(s)[k])
  {
    hide LiveIds, Drops;
    DropsAll(LiveIds(s), seq(|LiveIds(s)|, _ => true));
  }

  lemma {:induction false} DropsAll(ids: seq<nat>, marks: seq<bool>)
    requires forall k | 0 <= k < |ids| :: k < |marks| && marks[k]
    ensures |Drops(ids, marks)| == |ids| && forall k | 0 <= k < |ids| :: Drops(ids, marks)[k] == Drop(ids[k])
  {
    if ids != [] {
      DropsLast(ids, marks);
      DropsAll(ids[..|ids| - 1], marks);
    }
  }
}
