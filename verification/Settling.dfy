/**
 Runs without end. Whatever happens, with or without faults, a transfer is changed only finitely often; so one in which
 nothing fails, and which is not neglected for ever, comes to its end.
 */
module Settling {
  import opened Storage
  import opened Connection
  import opened System
  import opened Net
  import opened Termination

  /** The first `k` events of an infinite sequence. */
  function Prefix(f: nat -> NetEvent, k: nat): (p: seq<NetEvent>)
    ensures |p| == k
  {
    seq(k, i requires 0 <= i < k => f(i))
  }

  lemma PrefixGrows(f: nat -> NetEvent, events: seq<NetEvent>, k: nat)
    ensures events + Prefix(f, k + 1) == (events + Prefix(f, k)) + [f(k)]
  {
  }

  /** The run after `events` and the first `k` events of the sequence. */
  function RunTo(events: seq<NetEvent>, f: nat -> NetEvent, k: nat): seq<NetEvent> {
    events + Prefix(f, k)
  }

  ghost predicate AlwaysClean(d0: Disk, events: seq<NetEvent>, f: nat -> NetEvent) {
    d0.Valid() && forall k: nat :: CleanNetRun(d0, RunTo(events, f, k))
  }

  /** Event number `k` changes an end of the transfer. */
  ghost predicate ChangesAt(d0: Disk, events: seq<NetEvent>, f: nat -> NetEvent, id: nat, k: nat) {
    var n, n' := After(d0, RunTo(events, f, k)), After(d0, RunTo(events, f, k + 1));
    && id in n.links && id in n'.links && id < |n.sys.conns| && id < |n'.sys.conns|
    && !SameAt(n, n', id)
  }

  ghost predicate Lower(d0: Disk, before: seq<NetEvent>, after: seq<NetEvent>, id: nat) {
    RanksAfter(d0, after, id) < RanksAfter(d0, before, id)
    || (RanksAfter(d0, after, id) == RanksAfter(d0, before, id)
        && LeftsAfter(d0, after, id) < LeftsAfter(d0, before, id))
  }

  ghost predicate Level(d0: Disk, before: seq<NetEvent>, after: seq<NetEvent>, id: nat) {
    RanksAfter(d0, after, id) == RanksAfter(d0, before, id) && LeftsAfter(d0, after, id) == LeftsAfter(d0, before, id)
  }

  lemma StepLowers(d0: Disk, run: seq<NetEvent>, e: NetEvent, id: nat)
    requires d0.Valid() && CleanNetRun(d0, run) && id in After(d0, run).links
    ensures id in After(d0, run + [e]).links
    ensures var n, n' := After(d0, run), After(d0, run + [e]);
            id < |n.sys.conns| && id < |n'.sys.conns|
            && if SameAt(n, n', id) then Level(d0, run, run + [e], id) else Lower(d0, run, run + [e], id)
  {
    hide After, CleanNetRun, NetInv, Ranks, Lefts, Conn.WellFormed;
    EveryNetRunIsGood(d0, run);
    AfterOne(d0, run, e);
    EveryStepCloser(d0, After(d0, run), e, id);
  }

  lemma {:induction false} LinkStays(d0: Disk, events: seq<NetEvent>, f: nat -> NetEvent, id: nat, k: nat)
    requires AlwaysClean(d0, events, f) && id in After(d0, events).links
    ensures id in After(d0, RunTo(events, f, k)).links
  {
    hide After, CleanNetRun, Lower, Level;
    if k == 0 {
      assert RunTo(events, f, 0) == events;
    } else {
      LinkStays(d0, events, f, id, k - 1);
      PrefixGrows(f, events, k - 1);
      StepLowers(d0, RunTo(events, f, k - 1), f(k - 1), id);
    }
  }

  lemma OneStep(d0: Disk, events: seq<NetEvent>, f: nat -> NetEvent, id: nat, k: nat)
    requires AlwaysClean(d0, events, f) && id in After(d0, events).links
    ensures var run, run' := RunTo(events, f, k), RunTo(events, f, k + 1);
            if ChangesAt(d0, events, f, id, k) then Lower(d0, run, run', id) else Level(d0, run, run', id)
  {
    hide After, CleanNetRun, Lower, Level, SameAt;
    LinkStays(d0, events, f, id, k);
    PrefixGrows(f, events, k);
    StepLowers(d0, RunTo(events, f, k), f(k), id);
  }

  /** As long as nothing changes, nothing is lost or gained. */
  lemma {:induction false} QuietKeeps(d0: Disk, events: seq<NetEvent>, f: nat -> NetEvent, id: nat, k: nat, m: nat)
    requires AlwaysClean(d0, events, f) && id in After(d0, events).links && k <= m
    requires forall j | k <= j < m :: !ChangesAt(d0, events, f, id, j)
    ensures Level(d0, RunTo(events, f, k), RunTo(events, f, m), id)
    decreases m
  {
    hide ChangesAt, AlwaysClean, After, RunTo, RanksAfter, LeftsAfter;
    if k < m {
      QuietKeeps(d0, events, f, id, k, m - 1);
      OneStep(d0, events, f, id, m - 1);
    }
  }

  /** The first change from `k` on, if there is any up to `m`. */
  lemma {:induction false} FirstChange(d0: Disk, events: seq<NetEvent>, f: nat -> NetEvent, id: nat, k: nat, m: nat)
    requires k <= m && ChangesAt(d0, events, f, id, m)
    ensures exists j | k <= j <= m ::
              ChangesAt(d0, events, f, id, j) && forall i | k <= i < j :: !ChangesAt(d0, events, f, id, i)
    decreases m
  {
    hide ChangesAt;
    if i :| k <= i < m && ChangesAt(d0, events, f, id, i) {
      FirstChange(d0, events, f, id, k, i);
    }
  }

  /** From event number `k` on the transfer is left alone. */
  ghost predicate QuietFrom(d0: Disk, events: seq<NetEvent>, f: nat -> NetEvent, id: nat, k: nat) {
    forall m: nat | k <= m :: !ChangesAt(d0, events, f, id, m)
  }

  /** No infinite sequence of events, with faults or without, changes a transfer infinitely often. */
  lemma {:induction false} Settles(d0: Disk, events: seq<NetEvent>, f: nat -> NetEvent, id: nat, k: nat)
    requires AlwaysClean(d0, events, f) && id in After(d0, events).links
    ensures exists m | k <= m :: QuietFrom(d0, events, f, id, m)
    decreases RanksAfter(d0, RunTo(events, f, k), id), LeftsAfter(d0, RunTo(events, f, k), id)
  {
    hide ChangesAt, AlwaysClean, After, RunTo, RanksAfter, LeftsAfter;
    if QuietFrom(d0, events, f, id, k) {
    } else {
      var m: nat :| k <= m && ChangesAt(d0, events, f, id, m);
      FirstChange(d0, events, f, id, k, m);
      var j :| k <= j <= m && ChangesAt(d0, events, f, id, j)
               && forall i | k <= i < j :: !ChangesAt(d0, events, f, id, i);
      QuietKeeps(d0, events, f, id, k, j);
      OneStep(d0, events, f, id, j);
      Settles(d0, events, f, id, j + 1);
    }
  }

  /** As long as the transfer has not come to its end, a productive step of it is taken some time later. */
  ghost predicate Attended(d0: Disk, events: seq<NetEvent>, f: nat -> NetEvent, id: nat, capacity: nat) {
    forall k: nat | !ConcludedAfter(d0, RunTo(events, f, k), id) ::
      exists m | k <= m :: ProductiveAt(d0, events, f, id, capacity, m)
  }

  ghost predicate ProductiveAt(d0: Disk, events: seq<NetEvent>, f: nat -> NetEvent, id: nat, capacity: nat, k: nat) {
    var n := After(d0, RunTo(events, f, k));
    id in n.links && Productive(n, f(k), id, capacity)
  }

  /**
   When nothing fails for it, a transfer never has to be neglected: before its end there is always such a step to take.
   */
  lemma {:induction false} AlwaysEnabled(d0: Disk, events: seq<NetEvent>, f: nat -> NetEvent, id: nat, capacity: nat,
        k: nat)
    requires InProgress(d0, events, id) && AlwaysClean(d0, events, f) && capacity > 0
    requires forall i: nat :: FaultFreeFor(f(i), id)
    ensures var n := After(d0, RunTo(events, f, k));
            id in n.links && (ConcludedAfter(d0, RunTo(events, f, k), id) || exists e :: Productive(n, e, id, capacity))
  {
    hide After, CleanNetRun, HealthyAt, Productive, FaultFreeFor, Concluded;
    var run := RunTo(events, f, k);
    FaultFreeRunsProgress(d0, events, Prefix(f, k), id);
    InProgressFacts(d0, run, id);
    var n := After(d0, run);
    if n.links[id].peer.phase.Done? {
      DoneConcludes(d0, n, id);
    } else {
      NeverStuck(d0, n, id, capacity);
    }
  }

  lemma ProductiveChanges(d0: Disk, events: seq<NetEvent>, f: nat -> NetEvent, id: nat, capacity: nat, k: nat)
    requires AlwaysClean(d0, events, f) && id in After(d0, events).links && ProductiveAt(d0, events, f, id, capacity, k)
    ensures ChangesAt(d0, events, f, id, k)
  {
    LinkStays(d0, events, f, id, k);
    LinkStays(d0, events, f, id, k + 1);
    PrefixGrows(f, events, k);
    AfterOne(d0, RunTo(events, f, k), f(k));
    hide After, CleanNetRun, NetNext, NetPossible, FaultFreeFor, NoTempRequests, Within;
    assert Joined(After(d0, RunTo(events, f, k)));
  }

  /** A transfer that is not neglected for ever comes to its end, which is success unless its name was missing. */
  lemma {:induction false} AttendedConcludes(
      d0: Disk, events: seq<NetEvent>, f: nat -> NetEvent, id: nat, capacity: nat)
    requires AlwaysClean(d0, events, f) && id in After(d0, events).links && Attended(d0, events, f, id, capacity)
    ensures exists k: nat :: ConcludedAfter(d0, RunTo(events, f, k), id)
  {
    hide ChangesAt, AlwaysClean, After, RunTo, ConcludedAfter, ProductiveAt;
    Settles(d0, events, f, id, 0);
    var k: nat :| QuietFrom(d0, events, f, id, k);
    if !ConcludedAfter(d0, RunTo(events, f, k), id) {
      var m :| k <= m && ProductiveAt(d0, events, f, id, capacity, m);
      ProductiveChanges(d0, events, f, id, capacity, m);
    }
  }

  /** Whenever there is a productive step to take, one is taken some time later. */
  ghost predicate Fair(d0: Disk, events: seq<NetEvent>, f: nat -> NetEvent, id: nat, capacity: nat) {
    forall k: nat | EnabledAt(d0, events, f, id, capacity, k) ::
      exists m | k <= m :: ProductiveAt(d0, events, f, id, capacity, m)
  }

  ghost predicate EnabledAt(d0: Disk, events: seq<NetEvent>, f: nat -> NetEvent, id: nat, capacity: nat, k: nat) {
    var n := After(d0, RunTo(events, f, k));
    id in n.links && exists e :: Productive(n, e, id, capacity)
  }

  /**
   A transfer in which nothing fails concludes under every fair scheduler, whatever happens on the other connections.
   */
  lemma {:induction false} FairRunsConclude(d0: Disk, events: seq<NetEvent>, f: nat -> NetEvent, id: nat, capacity: nat)
    requires InProgress(d0, events, id) && AlwaysClean(d0, events, f) && capacity > 0
    requires (forall i: nat :: FaultFreeFor(f(i), id)) && Fair(d0, events, f, id, capacity)
    ensures exists k: nat :: ConcludedAfter(d0, RunTo(events, f, k), id)
  {
    InProgressFacts(d0, events, id);
    forall k: nat | !ConcludedAfter(d0, RunTo(events, f, k), id)
      ensures EnabledAt(d0, events, f, id, capacity, k)
    {
      AlwaysEnabled(d0, events, f, id, capacity, k);
    }
    hide ConcludedAfter, EnabledAt, ProductiveAt, RunTo, After, InProgress, AlwaysClean, FaultFreeFor;
    AttendedConcludes(d0, events, f, id, capacity);
  }
}
