/** Who is attached and who holds an ingest lock, told from the history of a run:
    the machine's fields are shown to be what its actions say. */
module RelayRegistry {
  import opened Basics
  import opened Events
  import opened Relay
  import opened RelayInvariants
  import opened RelayConnections
  import opened RelaySafety
  import opened RelayOrder
  import opened RelayClient

  /** Action i attached connection k, and nobody has attached since, nor k left. */
  ghost predicate LastAttached(actions: seq<Action>, n: nat, k: ConnId, i: nat) {
    && i < n <= |actions| && actions[i].Attach? && actions[i].k == k
    && forall j :: i < j < n ==> !actions[j].Attach? && actions[j] != Remove(k)
  }

  /** A connection is the registered one exactly if it attached last and has not been
      removed: a teardown never evicts a replacement. */
  lemma {:induction false} RegisteredIff(trace: seq<State>, actions: seq<Action>, n: nat, k: ConnId)
    requires IsRun(trace, actions) && n < |trace|
    ensures trace[n].registered == Some(k) <==> exists i :: LastAttached(actions, n, k, i)
  {
    if n > 0 {
      RegisteredIff(trace, actions, n - 1, k);
      var a := actions[n - 1];
      if trace[n].registered == Some(k) {
        if a.Attach? {
          assert LastAttached(actions, n, k, n - 1);
        } else {
          var i :| LastAttached(actions, n - 1, k, i);
          assert LastAttached(actions, n, k, i);
        }
      }
      if i: nat :| LastAttached(actions, n, k, i) {
        if i < n - 1 {
          assert LastAttached(actions, n - 1, k, i);
        }
      }
    }
  }

  /** Coverage for whoever attached last and has not been removed: until it is
      cancelled or its handler ends, none of its replayable events can be lost. */
  lemma CoverageOfLastAttached(trace: seq<State>, actions: seq<Action>, n: nat, k: ConnId, i: nat, e: Event)
    requires IsRun(trace, actions) && n < |trace| && LastAttached(actions, n, k, i)
    ensures k in trace[n].conns && |trace[n].pushes| == |trace[n].log|
    ensures var s, c := trace[n], trace[n].conns[k];
            !c.cancelled && (Replaying(c) || CaughtUp(c)) && e in s.log && e.kind != Command
            && e.seqNo > c.since && e.seqNo > c.startSeq ==>
              0 < e.seqNo <= |s.log| && Accounted(c, e, s.pushes[e.seqNo - 1], k)
  {
    RegisteredIff(trace, actions, n, k);
    CoverageOnRuns(trace, actions, n, k, e);
  }

  /** Once the last attached connection is streaming, its queues are empty and no push
      is under way, its wire is the whole log above its floor. */
  lemma LastAttachedIsComplete(trace: seq<State>, actions: seq<Action>, n: nat, via: Endpoint, k: ConnId, i: nat)
    requires IsRun(trace, actions) && n < |trace| && OneLock(trace[n], via) && LastAttached(actions, n, k, i)
    ensures k in trace[n].conns
    ensures var s, c := trace[n], trace[n].conns[k];
            !c.cancelled && c.phase == Live && c.outbox == [] && (forall j :: 0 <= j < |s.pushes| ==> !Unfinished(s.pushes[j])) ==>
              NonCommands(c.written, Floor(c)) == NonCommands(s.log, Floor(c))
  {
    RegisteredIff(trace, actions, n, k);
    InvOnRuns(trace, actions, n);
    if Settled(trace[n], k) {
      SettledIsComplete(trace, actions, n, via, k);
    }
  }

  // ------------------------------------------------------------ displacement

  /** Connection k is about to be cancelled by the one that displaced it. */
  ghost predicate BeingDisplaced(s: State, k: ConnId) {
    exists j :: j in s.conns && s.conns[j].phase == Attaching(Some(k))
  }

  /** A registered connection is there, and one that is gone was cancelled. */
  ghost predicate GoneOk(s: State) {
    && (s.registered.Some? ==> s.registered.value in s.conns && s.conns[s.registered.value].phase != Gone)
    && (forall k :: k in s.conns && s.conns[k].phase == Gone ==> s.conns[k].cancelled)
  }

  ghost predicate Standing(s: State, k: ConnId)
    requires k in s.conns
  {
    s.registered == Some(k) || s.conns[k].cancelled || BeingDisplaced(s, k)
  }

  /** Moves of a handler change neither who is attaching nor who is cancelled. */
  lemma MoveKeepsStanding(c: Conn, log: seq<Event>, m: Move)
    requires MoveEnabled(c, m)
    ensures MoveConn(c, log, m).cancelled == c.cancelled && !c.phase.Attaching? && !MoveConn(c, log, m).phase.Attaching?
    ensures c.phase != Gone && MoveConn(c, log, m).phase != Gone
  {
  }

  lemma StillDisplaced(s: State, s': State, k: ConnId)
    requires BeingDisplaced(s, k)
    requires forall j :: j in s.conns && s.conns[j].phase == Attaching(Some(k)) ==> j in s'.conns && s'.conns[j].phase == s.conns[j].phase
    ensures BeingDisplaced(s', k)
  {
    var j :| j in s.conns && s.conns[j].phase == Attaching(Some(k));
    assert s'.conns[j].phase == Attaching(Some(k));
  }

  lemma StandingKeptByStep(s: State, k: ConnId, j: ConnId, m: Move)
    requires Enabled(s, Step(j, m)) && k in s.conns && Standing(s, k)
    ensures k in Apply(s, Step(j, m)).conns && Standing(Apply(s, Step(j, m)), k)
  {
    MoveKeepsStanding(s.conns[j], s.log, m);
    if BeingDisplaced(s, k) {
      StillDisplaced(s, Apply(s, Step(j, m)), k);
    }
  }

  lemma StandingKept(s: State, a: Action, k: ConnId)
    requires GoneOk(s) && Enabled(s, a) && k in s.conns && Standing(s, k)
    ensures k in Apply(s, a).conns && Standing(Apply(s, a), k)
  {
    var s' := Apply(s, a);
    if a.Step? {
      StandingKeptByStep(s, k, a.k, a.move);
    } else if !s'.conns[k].cancelled && s'.registered != Some(k) {
      if a.Attach? && s.registered == Some(k) {
        assert s'.conns[a.k].phase == Attaching(Some(k));
      } else {
        StillDisplaced(s, s', k);
      }
    }
  }

  lemma GoneKept(s: State, a: Action)
    requires GoneOk(s) && Enabled(s, a)
    ensures GoneOk(Apply(s, a))
  {
    if a.Step? {
      MoveKeepsStanding(s.conns[a.k], s.log, a.move);
    }
  }

  /** In every state of every run, a connection that is not the registered one has
      been cancelled, or is just about to be by the one that displaced it; and one
      that is gone is not registered and was cancelled. */
  lemma {:induction false} DisplacedOnRuns(trace: seq<State>, actions: seq<Action>, n: nat)
    requires IsRun(trace, actions) && n < |trace|
    ensures GoneOk(trace[n]) && forall k :: k in trace[n].conns ==> Standing(trace[n], k)
  {
    if n > 0 {
      var s, a := trace[n - 1], actions[n - 1];
      DisplacedOnRuns(trace, actions, n - 1);
      GoneKept(s, a);
      forall k | k in trace[n].conns ensures Standing(trace[n], k) {
        if k in s.conns {
          StandingKept(s, a, k);
        }
      }
    }
  }

  // ------------------------------------------------------------------- locks

  ghost predicate LocksOk(s: State) {
    forall endpoint, r :: LockOf(s, endpoint) == Some(r) ==>
      r in s.requests && s.requests[r].endpoint == endpoint && PastLock(s.requests[r].progress)
  }

  lemma LocksKept(s: State, a: Action)
    requires Shape(s) && RequestsOk(s) && LocksOk(s) && Enabled(s, a)
    ensures LocksOk(Apply(s, a))
  {
    var s' := Apply(s, a);
    if MovesPush(a) {
      PushMoved(s, a, a.r, s.requests[a.r].progress.seqNo - 1);
    }
    forall endpoint, r | LockOf(s', endpoint) == Some(r)
      ensures r in s'.requests && s'.requests[r].endpoint == endpoint && PastLock(s'.requests[r].progress)
    {
      assert LockOf(s, endpoint) == Some(r) || a == Enter(r);
    }
  }

  /** In every state of every run, an ingest lock is held exactly by the one request
      of its endpoint that is past it and has not returned: whoever appends or pushes
      holds it, and it is free again once that request has returned. */
  lemma {:induction false} LockHeldOnRuns(trace: seq<State>, actions: seq<Action>, n: nat, endpoint: Endpoint, r: RequestId)
    requires IsRun(trace, actions) && n < |trace|
    ensures LockOf(trace[n], endpoint) == Some(r) <==>
              endpoint != Dispatch && r in trace[n].requests && trace[n].requests[r].endpoint == endpoint
              && (trace[n].requests[r].progress.Entered? || trace[n].requests[r].progress.Pushing? || trace[n].requests[r].progress.Finished?)
  {
    LocksOnRuns(trace, actions, n);
    InvOnRuns(trace, actions, n);
    assert r in trace[n].requests ==> RequestOk(trace[n], r);
  }

  lemma {:induction false} LocksOnRuns(trace: seq<State>, actions: seq<Action>, n: nat)
    requires IsRun(trace, actions) && n < |trace|
    ensures LocksOk(trace[n])
  {
    if n > 0 {
      LocksOnRuns(trace, actions, n - 1);
      InvOnRuns(trace, actions, n - 1);
      LocksKept(trace[n - 1], actions[n - 1]);
    }
  }
}
