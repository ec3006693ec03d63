/** No connection ends without a cause: over every run, what cancelled it, what
    made its handler return, and what refused a frame. */
module RelayCauses {
  import opened Basics
  import opened Events
  import opened Relay

  /** A step finds the outbox of k full. */
  ghost predicate FindsFull(s: State, a: Action, k: ConnId) {
    && a.Offer? && Enabled(s, a) && PushOf(s, a.r) == LookedUp(k)
    && |s.conns[k].outbox| >= 64
  }

  /** A step is a reason to cancel k: its context ends, its handler is done, its
      successor attached, or it could not take a frame. */
  ghost predicate Cancels(s: State, a: Action, k: ConnId) {
    || a == Cancel(k)
    || a == Remove(k)
    || (a.CloseDisplaced? && a.k in s.conns && s.conns[a.k].phase == Attaching(Some(k)))
    || FindsFull(s, a, k)
  }

  /** A step is a reason for the handler of k to return: a read, a write or a ping
      failed, 5000 frames were waiting already, or the budget of 5000 is spent
      after a full page. */
  ghost predicate Ends(s: State, a: Action, k: ConnId)
    requires k in s.conns
  {
    var c := s.conns[k];
    || a == Step(k, Abort)
    || (a == Step(k, DrainOne) && |c.pending| >= 5000)
    || (a == Step(k, PageDone) && c.replayed >= 5000 && c.phase.Paging? && |c.phase.page| >= 500)
  }

  ghost predicate Refused(s: State, i: nat, k: ConnId) {
    i < |s.pushes| && (s.pushes[i] == Overflowing(k) || s.pushes[i] == Dropped(k))
  }

  ghost predicate Over(s: State, k: ConnId) {
    k in s.conns && (s.conns[k].phase == Closing || s.conns[k].phase == Gone)
  }

  ghost predicate CancelledIn(s: State, k: ConnId) {
    k in s.conns && s.conns[k].cancelled
  }

  lemma RefusedStep(s: State, a: Action, i: nat, k: ConnId)
    requires Enabled(s, a) && Refused(Apply(s, a), i, k)
    ensures Refused(s, i, k) || FindsFull(s, a, k)
  {
  }

  lemma CancelledStep(s: State, a: Action, k: ConnId)
    requires Enabled(s, a) && CancelledIn(Apply(s, a), k)
    ensures || CancelledIn(s, k) || Cancels(s, a, k)
            || (a.CloseSlow? && IsPushing(s, a.r) && Refused(s, s.requests[a.r].progress.seqNo - 1, k))
  {
  }

  lemma OverStep(s: State, a: Action, k: ConnId)
    requires Enabled(s, a) && Over(Apply(s, a), k)
    ensures k in s.conns && (Over(s, k) || Ends(s, a, k))
  {
  }

  /** Whatever holds now and did not hold at first began to hold at some step. */
  lemma {:induction false} Begins(holds: seq<bool>, n: nat) returns (i: nat)
    requires n < |holds| && holds[n] && !holds[0]
    ensures i < n && !holds[i] && holds[i + 1]
  {
    if holds[n - 1] {
      i := Begins(holds, n - 1);
    } else {
      i := n - 1;
    }
  }

  lemma RefusedForCause(trace: seq<State>, actions: seq<Action>, n: nat, p: nat, k: ConnId) returns (i: nat)
    requires IsRun(trace, actions) && n < |trace| && Refused(trace[n], p, k)
    ensures i < n && FindsFull(trace[i], actions[i], k)
  {
    i := Begins(seq(|trace|, m requires 0 <= m < |trace| => Refused(trace[m], p, k)), n);
    RefusedStep(trace[i], actions[i], p, k);
  }

  /** A cancelled connection was asked to go, had its handler return, was displaced,
      or was offered a frame with 64 waiting. */
  lemma CancelledForCause(trace: seq<State>, actions: seq<Action>, n: nat, k: ConnId) returns (i: nat)
    requires IsRun(trace, actions) && n < |trace| && CancelledIn(trace[n], k)
    ensures i < n && Cancels(trace[i], actions[i], k)
  {
    i := Begins(seq(|trace|, m requires 0 <= m < |trace| => CancelledIn(trace[m], k)), n);
    var s, a := trace[i], actions[i];
    CancelledStep(s, a, k);
    if !Cancels(s, a, k) {
      i := RefusedForCause(trace, actions, i, s.requests[a.r].progress.seqNo - 1, k);
    }
  }

  /** A handler returned because something failed, or at one of its two limits. */
  lemma EndedForCause(trace: seq<State>, actions: seq<Action>, n: nat, k: ConnId) returns (i: nat)
    requires IsRun(trace, actions) && n < |trace| && Over(trace[n], k)
    ensures i < n && k in trace[i].conns && Ends(trace[i], actions[i], k)
  {
    i := Begins(seq(|trace|, m requires 0 <= m < |trace| => Over(trace[m], k)), n);
    OverStep(trace[i], actions[i], k);
  }
}
