/** The relay's invariant over every run, and what it promises whichever
    endpoints race: coverage, at-most-once delivery, and single pushes. */
module RelaySafety {
  import opened Basics
  import opened Events
  import opened Relay
  import opened RelayInvariants
  import opened RelayConnections
  import Race = IngestRace

  ghost predicate ConnsOk(s: State) {
    forall k :: k in s.conns ==> ConnOk(s.conns[k], s.log)
  }

  ghost predicate Inv(s: State) {
    Shape(s) && RequestsOk(s) && ReceivedOk(s) && CoverOk(s) && ConnsOk(s)
  }

  lemma ConnsKeptByAppend(s: State, r: RequestId)
    requires Shape(s) && ConnsOk(s) && Enabled(s, Append(r))
    ensures ConnsOk(Apply(s, Append(r)))
  {
    var s' := Apply(s, Append(r));
    if s'.log != s.log {
      forall k | k in s'.conns ensures ConnOk(s'.conns[k], s'.log) {
        LogGrown(s.conns[k], s.log, s'.log[|s.log|]);
      }
    }
  }

  lemma OneConnMoved(s: State, s': State, k: ConnId)
    requires ConnsOk(s) && s'.log == s.log && k in s'.conns && s'.conns == s.conns[k := s'.conns[k]]
    requires ConnOk(s'.conns[k], s.log)
    ensures ConnsOk(s')
  {
  }

  lemma ConnsKeptByOffer(s: State, r: RequestId)
    requires ConnsOk(s) && Enabled(s, Offer(r))
    ensures ConnsOk(Apply(s, Offer(r)))
  {
    var s' := Apply(s, Offer(r));
    var k := PushOf(s, r).conn;
    var c := s.conns[k];
    assert ConnOk(c, s.log);
    if |c.outbox| < OUTBOX_DEPTH {
      FrameQueued(c, s.log, s.log[s.requests[r].progress.seqNo - 1]);
    }
    OneConnMoved(s, s', k);
  }

  lemma ConnsKeptByAttach(s: State, a: Action)
    requires Shape(s) && ConnsOk(s) && Enabled(s, a) && a.Attach?
    ensures ConnsOk(Apply(s, a))
  {
    NewConnOk(a.since, a.startSeq, s.registered, s.log);
  }

  lemma ConnsKeptByStep(s: State, k: ConnId, m: Move)
    requires Shape(s) && ConnsOk(s) && Enabled(s, Step(k, m))
    ensures ConnsOk(Apply(s, Step(k, m)))
  {
    MoveKept(s.conns[k], s.log, m);
  }

  /** Cancelling a connection, or ending its registration, writes nothing. */
  lemma ClosedOk(c: Conn, log: seq<Event>)
    requires ConnOk(c, log)
    ensures ConnOk(c.(cancelled := true), log)
    ensures ConnOk(c.(phase := Gone), log)
    ensures c.phase.Attaching? ==> ConnOk(c.(phase := Fetching), log)
  {
  }

  lemma CancelOk(s: State, k: ConnId)
    requires ConnsOk(s)
    ensures ConnsOk(CancelConn(s, k))
  {
    if k in s.conns {
      ClosedOk(s.conns[k], s.log);
    }
  }

  lemma ConnsKeptByClosing(s: State, a: Action)
    requires Shape(s) && ConnsOk(s) && Enabled(s, a) && (a.CloseDisplaced? || a.Remove?)
    ensures ConnsOk(Apply(s, a))
  {
    var k := a.k;
    ClosedOk(s.conns[k], s.log);
    if a.Remove? {
      CancelOk(s.(registered := if s.registered == Some(k) then None else s.registered,
                  conns := s.conns[k := s.conns[k].(phase := Gone)]), k);
    } else {
      var s' := s.(conns := s.conns[k := s.conns[k].(phase := Fetching)]);
      if s.conns[k].phase.previous.Some? {
        CancelOk(s', s.conns[k].phase.previous.value);
      }
    }
  }

  lemma ConnsKeptByRequest(s: State, a: Action)
    requires Shape(s) && ConnsOk(s) && Enabled(s, a)
    requires a.Arrive? || a.Enter? || a.AppendFails? || a.LookUp? || a.Return?
    ensures ConnsOk(Apply(s, a))
  {
  }

  lemma ConnsKept(s: State, a: Action)
    requires Shape(s) && ConnsOk(s) && Enabled(s, a)
    ensures ConnsOk(Apply(s, a))
  {
    match a {
      case Append(r) => ConnsKeptByAppend(s, r);
      case Offer(r) => ConnsKeptByOffer(s, r);
      case CloseSlow(r) =>
        var dropped := SetPush(s, r, Dropped(PushOf(s, r).conn));
        assert ConnsOk(dropped);
        CancelOk(dropped, PushOf(s, r).conn);
      case Attach(_, _, _) => ConnsKeptByAttach(s, a);
      case Step(k, m) => ConnsKeptByStep(s, k, m);
      case Cancel(k) => CancelOk(s, k);
      case CloseDisplaced(_) => ConnsKeptByClosing(s, a);
      case Remove(_) => ConnsKeptByClosing(s, a);
      case _ => ConnsKeptByRequest(s, a);
    }
  }

  lemma InvKept(s: State, a: Action)
    requires Inv(s) && Enabled(s, a)
    ensures Inv(Apply(s, a))
  {
    RequestsKept(s, a);
    ReceivedKept(s, a);
    CoverKept(s, a);
    ConnsKept(s, a);
  }

  /** Every state of every run satisfies the invariant. */
  lemma {:induction false} InvOnRuns(trace: seq<State>, actions: seq<Action>, n: nat)
    requires IsRun(trace, actions) && n < |trace|
    ensures Inv(trace[n])
  {
    if n > 0 {
      InvOnRuns(trace, actions, n - 1);
      InvKept(trace[n - 1], actions[n - 1]);
    }
  }

  // ------------------------------------------------------------- coverage

  /** Frames the outbox or the live buffer holds that have not been handled. */
  function WaitingFrames(c: Conn): seq<Event> {
    if c.phase == Live || |c.pending| < c.handled then c.outbox else c.pending[c.handled..] + c.outbox
  }

  predicate StillComing(p: Push, k: ConnId) {
    p.NotPushed? || p == LookedUp(k) || p == Overflowing(k)
  }

  lemma WaitingIsReceived(c: Conn)
    requires QueueOk(c) && (Replaying(c) || CaughtUp(c))
    ensures c.handled <= |c.received| && WaitingFrames(c) == c.received[c.handled..]
  {
  }

  /** A replayable event not above the cursor has been replayed. */
  lemma BehindCursorIsWritten(c: Conn, log: seq<Event>, e: Event)
    requires LogOk(log) && WrittenOk(c, log) && e in log && Replayable(e, Floor(c)) && e.seqNo <= c.cursor
    ensures e in c.written
  {
    assert e == log[..c.lastReplayed][e.seqNo - 1];
    NonCommandsMember(log[..c.lastReplayed], Floor(c), e);
  }

  /** Past the replay loop, every event between the cursor and the last page
      read is a command. */
  lemma NothingLeftToReplay(c: Conn, log: seq<Event>, e: Event)
    requires LogOk(log) && ReplayOk(c, log) && CaughtUp(c)
    requires e in log && e.kind != Command && c.cursor < e.seqNo
    ensures e.seqNo > c.fetchedAt
  {
    if e.seqNo <= c.fetchedAt {
      assert e == log[..c.fetchedAt][e.seqNo - 1];
      NonCommandsMember(log[..c.fetchedAt], c.cursor, e);
    }
  }

  lemma ReceivedIsWrittenOrWaiting(c: Conn, log: seq<Event>, e: Event)
    requires WrittenOk(c, log) && QueueOk(c) && CaughtUp(c) && e in c.received && e.seqNo > c.lastReplayed
    ensures e in c.written || e in WaitingFrames(c)
  {
    WaitingIsReceived(c);
    assert c.received == c.received[..c.handled] + c.received[c.handled..];
    AboveMember(c.received[..c.handled], c.lastReplayed, e);
  }

  /** The event is written, ahead of the replay, waiting with a position the dedup
      lets through, or in the hands of a request about to push it. */
  predicate Accounted(c: Conn, e: Event, p: Push, k: ConnId) {
    || e in c.written
    || (Replaying(c) && e.seqNo > c.cursor)
    || (e in WaitingFrames(c) && e.seqNo > c.lastReplayed)
    || StillComing(p, k)
  }

  /** Where a replayable event is, seen from one connection whose registration
      guarantees that later events are pushed to it. */
  lemma WhereItIs(c: Conn, log: seq<Event>, e: Event, p: Push, k: ConnId)
    requires LogOk(log) && WrittenOk(c, log) && ReplayOk(c, log) && QueueOk(c) && (Replaying(c) || CaughtUp(c))
    requires e in log && Replayable(e, Floor(c))
    requires e.seqNo > c.attachedAt ==> OnItsWay(p, k, false)
    requires p == Queued(k) ==> e in c.received
    ensures Accounted(c, e, p, k)
  {
    if e.seqNo <= c.cursor {
      BehindCursorIsWritten(c, log, e);
    } else if CaughtUp(c) {
      NothingLeftToReplay(c, log, e);
      if p == Queued(k) {
        ReceivedIsWrittenOrWaiting(c, log, e);
      }
    }
  }

  /** The state's part of coverage: an event committed since the registered
      connection attached is on its way to it, and queued means received. */
  lemma PushedOrComing(s: State, k: ConnId, e: Event)
    requires Shape(s) && ReceivedOk(s) && CoverOk(s)
    requires s.registered == Some(k) && k in s.conns && !s.conns[k].cancelled && e in s.log
    ensures 0 < e.seqNo <= |s.log|
    ensures e.seqNo > s.conns[k].attachedAt ==> OnItsWay(s.pushes[e.seqNo - 1], k, false)
    ensures s.pushes[e.seqNo - 1] == Queued(k) ==> e in s.conns[k].received
  {
    var i :| 0 <= i < |s.log| && s.log[i] == e;
  }

  lemma Coverage(s: State, k: ConnId, e: Event)
    requires Inv(s) && s.registered == Some(k) && k in s.conns && !s.conns[k].cancelled
    requires Replaying(s.conns[k]) || CaughtUp(s.conns[k])
    requires e in s.log && Replayable(e, Floor(s.conns[k]))
    ensures Accounted(s.conns[k], e, s.pushes[e.seqNo - 1], k)
  {
    PushedOrComing(s, k, e);
    WhereItIs(s.conns[k], s.log, e, s.pushes[e.seqNo - 1], k);
  }

  /** No event above its floor can be lost on the registered, uncancelled
      connection: in every state of every run each one is accounted for. */
  lemma CoverageOnRuns(trace: seq<State>, actions: seq<Action>, n: nat, k: ConnId, e: Event)
    requires IsRun(trace, actions) && n < |trace|
    ensures var s := trace[n];
            && |s.pushes| == |s.log|
            && (s.registered == Some(k) ==> k in s.conns)
            && (s.registered == Some(k) && !s.conns[k].cancelled && (Replaying(s.conns[k]) || CaughtUp(s.conns[k]))
                && e in s.log && Replayable(e, Floor(s.conns[k]))
                ==> 0 < e.seqNo <= |s.log| && Accounted(s.conns[k], e, s.pushes[e.seqNo - 1], k))
  {
    InvOnRuns(trace, actions, n);
    var s := trace[n];
    if s.registered == Some(k) && !s.conns[k].cancelled && (Replaying(s.conns[k]) || CaughtUp(s.conns[k]))
       && e in s.log && Replayable(e, Floor(s.conns[k])) {
      PushedOrComing(s, k, e);
      Coverage(s, k, e);
    }
  }

  // --------------------------------------------------------- at most once

  /** No event is ever written twice on one connection. */
  lemma WrittenOnce(s: State, k: ConnId)
    requires Shape(s) && ReceivedOk(s) && k in s.conns && WrittenOk(s.conns[k], s.log)
    ensures NoDuplicates(s.conns[k].written)
  {
    var c := s.conns[k];
    var replayed, live := NonCommands(s.log[..c.lastReplayed], Floor(c)), Above(c.received[..c.handled], c.lastReplayed);
    NonCommandsIncreasing(s.log[..c.lastReplayed], Floor(c));
    AboveNoDuplicates(c.received[..c.handled], c.lastReplayed);
    forall i, j | 0 <= i < |replayed| && 0 <= j < |live| ensures replayed[i] != live[j] {
      NonCommandsMember(s.log[..c.lastReplayed], Floor(c), replayed[i]);
      AboveMember(c.received[..c.handled], c.lastReplayed, live[j]);
    }
  }

  /** A written command came through this connection's outbox, never by replay. */
  lemma CommandsOnlyLive(s: State, k: ConnId, e: Event)
    requires Shape(s) && ReceivedOk(s) && k in s.conns && WrittenOk(s.conns[k], s.log)
    ensures e in s.conns[k].written && e.kind == Command ==> ReceivedFrom(s, k, e)
  {
    var c := s.conns[k];
    NonCommandsMember(s.log[..c.lastReplayed], Floor(c), e);
    AboveMember(c.received[..c.handled], c.lastReplayed, e);
    assert e in c.received[..c.handled] ==> e in c.received;
  }

  /** In every state of every run: nothing is written twice on one connection, a
      command only ever comes through the one outbox that received it, and so it is
      written at most once over all connections. */
  lemma AtMostOnceOnRuns(trace: seq<State>, actions: seq<Action>, n: nat, j: ConnId, k: ConnId, e: Event)
    requires IsRun(trace, actions) && n < |trace|
    ensures var s := trace[n];
            && |s.pushes| == |s.log|
            && (k in s.conns ==> NoDuplicates(s.conns[k].written))
            && (k in s.conns && e in s.conns[k].written && e.kind == Command ==> ReceivedFrom(s, k, e))
            && (j in s.conns && k in s.conns && e in s.conns[j].written && e in s.conns[k].written && e.kind == Command ==> j == k)
  {
    InvOnRuns(trace, actions, n);
    var s := trace[n];
    assert ConnsOk(s);
    if k in s.conns {
      assert ConnOk(s.conns[k], s.log);
      WrittenOnce(s, k);
      CommandsOnlyLive(s, k, e);
    }
    if j in s.conns {
      assert ConnOk(s.conns[j], s.log);
      CommandsOnlyLive(s, j, e);
    }
  }

  /** The fate of a handled live frame, in every state of every run: it is on the
      wire exactly when it lies above the last replayed position or the replay wrote
      it. So the dedup drops, apart from replayed events, only commands and events at
      or below the floor. */
  lemma HandledFrameFate(trace: seq<State>, actions: seq<Action>, n: nat, k: ConnId, e: Event)
    requires IsRun(trace, actions) && n < |trace|
    ensures k in trace[n].conns ==>
              var c := trace[n].conns[k];
              && c.handled <= |c.received|
              && (e in c.received[..c.handled] ==>
                    (e in c.written <==> e.seqNo > c.lastReplayed || Replayable(e, Floor(c))))
  {
    InvOnRuns(trace, actions, n);
    if k in trace[n].conns {
      HandledFrame(trace[n], k, e);
    }
  }

  lemma HandledFrame(s: State, k: ConnId, e: Event)
    requires Shape(s) && ReceivedOk(s) && ConnsOk(s) && k in s.conns
    ensures var c := s.conns[k];
            && c.handled <= |c.received|
            && (e in c.received[..c.handled] ==>
                  (e in c.written <==> e.seqNo > c.lastReplayed || Replayable(e, Floor(c))))
  {
    var c := s.conns[k];
    assert ConnOk(c, s.log);
    if e in c.received[..c.handled] {
      assert ReceivedFrom(s, k, e);
      NonCommandsMember(s.log[..c.lastReplayed], Floor(c), e);
      AboveMember(c.received[..c.handled], c.lastReplayed, e);
      assert e.seqNo <= c.lastReplayed ==> s.log[..c.lastReplayed][e.seqNo - 1] == e;
    }
  }

  /** A connection that had nothing to replay passes every live frame through,
      even below a position the client over-reported. */
  lemma NothingReplayedNothingDropped(trace: seq<State>, actions: seq<Action>, n: nat, k: ConnId)
    requires IsRun(trace, actions) && n < |trace|
    ensures k in trace[n].conns && trace[n].conns[k].lastReplayed == 0 ==>
              var c := trace[n].conns[k];
              c.handled <= |c.received| && c.written == c.received[..c.handled]
  {
    InvOnRuns(trace, actions, n);
    if k in trace[n].conns && trace[n].conns[k].lastReplayed == 0 {
      PassesAll(trace[n], k);
    }
  }

  lemma PassesAll(s: State, k: ConnId)
    requires Shape(s) && ReceivedOk(s) && ConnsOk(s) && k in s.conns && s.conns[k].lastReplayed == 0
    ensures s.conns[k].handled <= |s.conns[k].received|
    ensures s.conns[k].written == s.conns[k].received[..s.conns[k].handled]
  {
    var c := s.conns[k];
    assert ConnOk(c, s.log);
    forall e | e in c.received[..c.handled] ensures e.seqNo > 0 {
      assert ReceivedFrom(s, k, e);
    }
    AboveAll(c.received[..c.handled], 0);
    assert NonCommands(s.log[..0], Floor(c)) == [];
    assert [] + c.received[..c.handled] == c.received[..c.handled];
  }

  /** In every state of every run, what is left of a page to replay holds no command
      and nothing at or below the client's position or the device's start. */
  lemma ReplayPages(trace: seq<State>, actions: seq<Action>, n: nat, k: ConnId, e: Event)
    requires IsRun(trace, actions) && n < |trace|
    ensures k in trace[n].conns && trace[n].conns[k].phase.Paging? ==>
              var c := trace[n].conns[k];
              && c.phase.next <= |c.phase.page|
              && (e in c.phase.page[c.phase.next..] ==>
                    e in trace[n].log && e.kind != Command && e.seqNo > c.cursor && e.seqNo > c.startSeq && e.seqNo > c.since)
  {
    InvOnRuns(trace, actions, n);
    if k in trace[n].conns && trace[n].conns[k].phase.Paging? {
      assert ConnOk(trace[n].conns[k], trace[n].log);
      NonCommandsMember(trace[n].log[..trace[n].conns[k].fetchedAt], trace[n].conns[k].cursor, e);
    }
  }

  /** The budgets, in every state of every run: no connection replays more than 5000
      events, `ready` comes only after fewer, and what it has replayed is what is on
      its wire of the log up to the last replayed position. The live buffer and the
      outbox are bounded too. */
  lemma ReplayBudget(trace: seq<State>, actions: seq<Action>, n: nat, k: ConnId)
    requires IsRun(trace, actions) && n < |trace|
    ensures k in trace[n].conns ==>
              var c, log := trace[n].conns[k], trace[n].log;
              && c.lastReplayed <= |log|
              && |NonCommands(log[..c.lastReplayed], Floor(c))| == c.replayed <= 5000
              && (CaughtUp(c) ==> c.replayed < 5000)
              && (CaughtUp(c) || Replaying(c) ==> |c.pending| <= 5000)
              && |c.outbox| <= 64
  {
    InvOnRuns(trace, actions, n);
    if k in trace[n].conns {
      assert ConnOk(trace[n].conns[k], trace[n].log);
    }
  }

  // ---------------------------------------------------------- idempotence

  /** The relay's atomic append is what a racing insert does: it commits the same
      row, finds the same duplicate, or changes nothing (a lost attempt). */
  lemma AppendRefinesRace(t: Race.Table, w: Race.WriterId, s: State, r: RequestId)
    requires Race.TableOk(t) && Race.Enabled(t, Race.Insert(w))
    requires s.log == t.rows && r in s.requests
    requires var q := s.requests[r]; t.writers[w].incoming == Race.Incoming(q.id, q.kind, q.payload)
    ensures var t' := Race.Apply(t, Race.Insert(w));
            match t'.writers[w].progress {
              case Inserted(e) => AppendEvent(s, r).log == t'.rows && At(AppendEvent(s, r), r, Pushing(e.seqNo))
              case Duplicate => AppendEvent(s, r) == SetProgress(s, r, Finished) && t'.rows == s.log
              case _ => t'.rows == s.log
            }
  {
    Race.InsertAppends(t, w);
  }

  /** The step inserts a row for this message, so its request is told "new". */
  predicate Inserts(s: State, a: Action, id: MessageId) {
    a.Append? && a.r in s.requests && s.requests[a.r].id == id && !HasMessage(s.log, id)
  }

  /** The step calls Push for this message. */
  predicate CallsPush(s: State, a: Action, id: MessageId) {
    a.LookUp? && IsPushing(s, a.r) && s.log[s.requests[a.r].progress.seqNo - 1].id == id
  }

  ghost predicate PushCalled(s: State, id: MessageId) {
    exists q :: 0 <= q < |s.log| && q < |s.pushes| && s.log[q].id == id && !s.pushes[q].NotPushed?
  }

  lemma InsertKept(s: State, a: Action, id: MessageId)
    requires Shape(s) && Enabled(s, a) && (HasMessage(s.log, id) || Inserts(s, a, id))
    ensures HasMessage(Apply(s, a).log, id)
  {
    PushesAdvanceBy(s, a);
    var s' := Apply(s, a);
    if Inserts(s, a, id) {
      assert s'.log[|s.log|].id == id;
    } else {
      var q :| 0 <= q < |s.log| && s.log[q].id == id;
      assert s'.log[q].id == id;
    }
  }

  lemma PushCallKept(s: State, a: Action, id: MessageId)
    requires Shape(s) && Enabled(s, a) && (PushCalled(s, id) || CallsPush(s, a, id))
    ensures PushCalled(Apply(s, a), id)
  {
    PushesAdvanceBy(s, a);
    var s' := Apply(s, a);
    if CallsPush(s, a, id) {
      assert s'.log[s.requests[a.r].progress.seqNo - 1].id == id;
    } else {
      var q :| 0 <= q < |s.log| && s.log[q].id == id && !s.pushes[q].NotPushed?;
      assert s'.log[q].id == id;
    }
  }

  lemma PushCallIsFirst(s: State, a: Action, id: MessageId)
    requires Shape(s) && Enabled(s, a) && CallsPush(s, a, id)
    ensures !PushCalled(s, id)
  {
    var p := s.requests[a.r].progress.seqNo - 1;
    forall q | 0 <= q < |s.log| && s.log[q].id == id ensures q == p {
    }
  }

  lemma {:induction false} OnceOnRuns(trace: seq<State>, actions: seq<Action>, i: nat, j: nat, id: MessageId)
    requires IsRun(trace, actions) && i < j < |trace|
    ensures Inserts(trace[i], actions[i], id) ==> HasMessage(trace[j].log, id)
    ensures CallsPush(trace[i], actions[i], id) ==> PushCalled(trace[j], id)
  {
    var s, a := trace[j - 1], actions[j - 1];
    InvOnRuns(trace, actions, j - 1);
    if i < j - 1 {
      OnceOnRuns(trace, actions, i, j - 1, id);
    }
    if Inserts(trace[i], actions[i], id) {
      InsertKept(s, a, id);
    }
    if CallsPush(trace[i], actions[i], id) {
      PushCallKept(s, a, id);
    }
  }

  /** Over a whole run, with any number of deliveries of one message through any
      endpoints: at most one insert, and at most one Push call. */
  lemma IngestedOnce(trace: seq<State>, actions: seq<Action>, i: nat, j: nat, id: MessageId)
    requires IsRun(trace, actions) && i < |actions| && j < |actions|
    ensures Inserts(trace[i], actions[i], id) && Inserts(trace[j], actions[j], id) ==> i == j
    ensures CallsPush(trace[i], actions[i], id) && CallsPush(trace[j], actions[j], id) ==> i == j
  {
    var first, last := if i < j then i else j, if i < j then j else i;
    InvOnRuns(trace, actions, last);
    if first < last {
      OnceOnRuns(trace, actions, first, last, id);
      if CallsPush(trace[last], actions[last], id) {
        PushCallIsFirst(trace[last], actions[last], id);
      }
    }
  }
}
