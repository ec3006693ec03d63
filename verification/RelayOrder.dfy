/** Order: when every non-command request of the broadcaster goes through one
    ingest lock, each connection writes a gap-free prefix of the log. */
module RelayOrder {
  import opened Basics
  import opened Events
  import opened Relay
  import opened RelayInvariants
  import opened RelayConnections
  import opened RelaySafety

  /** Only this endpoint and the command dispatcher have been used. */
  ghost predicate OneLock(s: State, via: Endpoint) {
    && via != Dispatch
    && forall r :: r in s.requests ==> s.requests[r].endpoint == via || s.requests[r].endpoint == Dispatch
  }

  predicate NonCommandAt(s: State, i: nat)
    requires i < |s.log|
  {
    s.log[i].kind != Command
  }

  /** An unfinished non-command push is of the newest non-command event. */
  ghost predicate NewestPending(s: State)
    requires |s.pushes| == |s.log|
  {
    forall i, j :: 0 <= i < j < |s.log| && Unfinished(s.pushes[i]) && NonCommandAt(s, i) ==> !NonCommandAt(s, j)
  }

  ghost predicate InOrder(es: seq<Event>) {
    forall a, b :: 0 <= a < b < |es| && es[a].kind != Command && es[b].kind != Command ==> es[a].seqNo < es[b].seqNo
  }

  /** Non-command frames reach every outbox in log order. */
  ghost predicate ReceivedInOrder(s: State) {
    forall k :: k in s.conns ==> InOrder(s.conns[k].received)
  }

  /** When an uncancelled connection is offered event j, it has already been given
      every earlier non-command event committed since it attached. */
  ghost predicate NoGapBefore(s: State, k: ConnId, j: nat)
    requires |s.pushes| == |s.log| && k in s.conns && j < |s.log|
  {
    var c := s.conns[k];
    (!c.cancelled && AimedAt(s.pushes[j], k) && NonCommandAt(s, j)) ==>
      forall i :: c.attachedAt <= i < j && NonCommandAt(s, i) ==> s.pushes[i] == Queued(k)
  }

  ghost predicate NoGaps(s: State)
    requires |s.pushes| == |s.log|
  {
    forall k, j :: k in s.conns && 0 <= j < |s.log| ==> NoGapBefore(s, k, j)
  }

  /** What connection k has written above its floor is a prefix of what the log
      holds above it: in order, gap free, nothing twice. */
  ghost predicate WroteInOrder(s: State, k: ConnId)
    requires k in s.conns
  {
    var c := s.conns[k];
    NonCommands(c.written, Floor(c)) <= NonCommands(s.log, Floor(c))
  }

  ghost predicate Ordered(s: State)
    requires |s.pushes| == |s.log|
  {
    && NewestPending(s) && ReceivedInOrder(s) && NoGaps(s)
    && forall k :: k in s.conns ==> WroteInOrder(s, k)
  }

  /** Connections stay, keep their attachment point, and never un-cancel. */
  ghost predicate ConnsAdvance(s: State, s': State) {
    forall k :: k in s.conns ==>
      && k in s'.conns && s'.conns[k].attachedAt == s.conns[k].attachedAt
      && (s.conns[k].cancelled ==> s'.conns[k].cancelled)
  }

  lemma ConnsAdvanceBy(s: State, a: Action)
    requires Enabled(s, a)
    ensures ConnsAdvance(s, Apply(s, a))
  {
    if !ConnOnly(a) {
      match a {
        case Offer(_) =>
        case CloseSlow(_) =>
        case _ => assert Apply(s, a).conns == s.conns;
      }
    }
  }

  lemma NewestKeptByAppend(s: State, r: RequestId, via: Endpoint, i: nat)
    requires Shape(s) && RequestsOk(s) && OneLock(s, via) && Enabled(s, Append(r))
    requires i < |s.log| && Unfinished(s.pushes[i]) && NonCommandAt(s, i)
    ensures s.requests[r].kind == Command
  {
    // Otherwise the request pushing event i and the appending one would both hold the lock.
    assert PushOwned(s, i, s.owners[i]);
    assert RequestOk(s, s.owners[i]) && RequestOk(s, r);
    assert LockOf(s, via) == Some(s.owners[i]);
  }

  lemma NewestKept(s: State, a: Action, via: Endpoint)
    requires Shape(s) && RequestsOk(s) && NewestPending(s) && OneLock(s, via) && Enabled(s, a)
    ensures Shape(Apply(s, a)) && NewestPending(Apply(s, a))
  {
    PushesAdvanceBy(s, a);
    var s' := Apply(s, a);
    forall i, j | 0 <= i < j < |s'.log| && Unfinished(s'.pushes[i]) && NonCommandAt(s', i)
      ensures !NonCommandAt(s', j)
    {
      if j >= |s.log| {
        assert a.Append? && s'.log == s.log + [s'.log[|s.log|]];
        NewestKeptByAppend(s, a.r, via, i);
      } else {
        assert NonCommandAt(s, i) && (NonCommandAt(s, j) <==> NonCommandAt(s', j));
      }
    }
  }

  lemma ReceivedInOrderKeptByOffer(s: State, r: RequestId)
    requires Shape(s) && ReceivedOk(s) && NewestPending(s) && ReceivedInOrder(s) && Enabled(s, Offer(r))
    ensures ReceivedInOrder(Apply(s, Offer(r)))
  {
    var k := PushOf(s, r).conn;
    var es := s.conns[k].received;
    var e := s.log[s.requests[r].progress.seqNo - 1];
    forall x | x in es && x.kind != Command && e.kind != Command ensures x.seqNo < e.seqNo {
      assert ReceivedFrom(s, k, x);
      assert NonCommandAt(s, x.seqNo - 1) && NonCommandAt(s, e.seqNo - 1);
    }
    assert InOrder(es + [e]);
    assert Apply(s, Offer(r)).conns[k].received in {es, es + [e]};
  }

  lemma ReceivedInOrderKept(s: State, a: Action)
    requires Shape(s) && ReceivedOk(s) && NewestPending(s) && ReceivedInOrder(s) && Enabled(s, a)
    ensures ReceivedInOrder(Apply(s, a))
  {
    if a.Offer? {
      ReceivedInOrderKeptByOffer(s, a.r);
    } else if ConnOnly(a) {
      HistoriesKeptByConn(s, a);
    } else if a.CloseSlow? {
      assert SameHistories(s, Apply(s, a));
    } else {
      assert Apply(s, a).conns == s.conns;
    }
  }

  /** A look-up happens when every earlier non-command push is over, so each of
      those since the connection attached has been queued on it. */
  lemma NoGapAtLookUp(s: State, r: RequestId)
    requires Shape(s) && CoverOk(s) && NewestPending(s) && Enabled(s, LookUp(r)) && s.registered.Some?
    ensures Shape(Apply(s, LookUp(r)))
    ensures NoGapBefore(Apply(s, LookUp(r)), s.registered.value, s.requests[r].progress.seqNo - 1)
  {
    var k := s.registered.value;
    var q := s.requests[r].progress.seqNo - 1;
    ShapeKept(s, LookUp(r));
    PushMoved(s, LookUp(r), r, q);
    if !s.conns[k].cancelled && NonCommandAt(s, q) {
      forall i | s.conns[k].attachedAt <= i < q && NonCommandAt(s, i) ensures s.pushes[i] == Queued(k) {
        assert OnItsWay(s.pushes[i], k, false);
      }
    }
  }

  lemma NoGapKept(s: State, s': State, a: Action, k: ConnId, j: nat)
    requires Shape(s) && NoGaps(s) && Shape(s') && AimedBy(s, a) < |s.log| && PushesAdvance(s, s', AimedBy(s, a)) && ConnsAdvance(s, s')
    requires k in s'.conns && j < |s'.log| && j != AimedBy(s, a) && AimedAt(s'.pushes[j], k)
    ensures NoGapBefore(s', k, j)
  {
    assert AimedAt(s.pushes[j], k);
    assert NoGapBefore(s, k, j);
    assert forall i :: 0 <= i < |s.log| && s.pushes[i] == Queued(k) ==> s'.pushes[i] == Queued(k);
  }

  lemma NoGapsKept(s: State, a: Action)
    requires Shape(s) && CoverOk(s) && NewestPending(s) && NoGaps(s) && Enabled(s, a)
    ensures Shape(Apply(s, a)) && NoGaps(Apply(s, a))
  {
    PushesAdvanceBy(s, a);
    ConnsAdvanceBy(s, a);
    var s' := Apply(s, a);
    if a.LookUp? && s.registered.Some? {
      NoGapAtLookUp(s, a.r);
    }
    forall k, j | k in s'.conns && 0 <= j < |s'.log| ensures NoGapBefore(s', k, j) {
      if j != AimedBy(s, a) && AimedAt(s'.pushes[j], k) {
        NoGapKept(s, s', a, k, j);
      }
    }
  }

  // ------------------------------------------------- what reaches the wire

  lemma {:induction false} NonCommandsTwice(es: seq<Event>, since: nat)
    ensures NonCommands(NonCommands(es, since), since) == NonCommands(es, since)
  {
    if es != [] {
      NonCommandsTwice(es[..|es| - 1], since);
      var init := NonCommands(es[..|es| - 1], since);
      NonCommandsSnoc(init, es[|es| - 1], since);
      assert init + [] == init;
    }
  }

  /** While replaying, the wire holds exactly the replayed stretch of the log. */
  lemma ReplayedInOrder(c: Conn, log: seq<Event>)
    requires WrittenOk(c, log) && c.handled == 0
    ensures NonCommands(c.written, Floor(c)) <= NonCommands(log, Floor(c))
  {
    assert c.written == NonCommands(log[..c.lastReplayed], Floor(c));
    NonCommandsTwice(log[..c.lastReplayed], Floor(c));
    NonCommandsPrefix(log[..c.lastReplayed], log, Floor(c));
  }

  /** A replayable event is on the wire as soon as it was replayed or handled. */
  lemma WrittenMember(c: Conn, log: seq<Event>, x: Event)
    requires LogOk(log) && WrittenOk(c, log) && x in log && Replayable(x, Floor(c))
    requires x.seqNo <= c.lastReplayed || x in c.received[..c.handled]
    ensures x in c.written
  {
    if x.seqNo <= c.lastReplayed {
      assert x == log[x.seqNo - 1] && x in log[..c.lastReplayed];
      NonCommandsMember(log[..c.lastReplayed], Floor(c), x);
    } else {
      AboveMember(c.received[..c.handled], c.lastReplayed, x);
    }
  }

  /** Everything on the wire came from the replay or from the handled frames. */
  lemma WrittenSource(c: Conn, log: seq<Event>, x: Event)
    requires LogOk(log) && WrittenOk(c, log) && x in c.written
    ensures (x in log && x.kind != Command && Floor(c) < x.seqNo <= c.lastReplayed)
         || (x in c.received[..c.handled] && x.seqNo > c.lastReplayed)
  {
    NonCommandsMember(log[..c.lastReplayed], Floor(c), x);
    AboveMember(c.received[..c.handled], c.lastReplayed, x);
  }

  /** Nothing replayable is skipped when the next live frame is written. */
  lemma NothingSkipped(s: State, k: ConnId, x: Event)
    requires Shape(s) && ReceivedOk(s) && NoGaps(s) && ReceivedInOrder(s)
    requires k in s.conns && ConnOk(s.conns[k], s.log) && HasFrame(s.conns[k]) && !s.conns[k].cancelled
    requires var c := s.conns[k]; var f := NextFrame(c);
             f.kind != Command && x in s.log && Replayable(x, Floor(c)) && x.seqNo < f.seqNo
    ensures x in s.conns[k].written
  {
    var c := s.conns[k];
    var f := NextFrame(c);
    NextFrameReceived(c);
    assert ReceivedFrom(s, k, f);
    if x.seqNo > c.lastReplayed {
      if x.seqNo <= c.fetchedAt {
        assert x in s.log[..c.fetchedAt];
        NonCommandsMember(s.log[..c.fetchedAt], c.cursor, x);
        assert false;
      }
      assert NoGapBefore(s, k, f.seqNo - 1) && NonCommandAt(s, f.seqNo - 1) && NonCommandAt(s, x.seqNo - 1);
      assert x in c.received;
      var p :| 0 <= p < |c.received| && c.received[p] == x;
      assert p < c.handled;
      assert c.received[..c.handled][p] == x;
    }
    WrittenMember(c, s.log, x);
  }

  /** A prefix of the log's replayable events, extended by one that comes after all
      of it and before which nothing is missing, is still one. */
  lemma PrefixOfLog(part: seq<Event>, log: seq<Event>, floor: nat, f: Event)
    requires LogOk(log) && part <= NonCommands(log, floor)
    requires f in log && Replayable(f, floor)
    requires forall x :: x in part ==> x.seqNo < f.seqNo
    requires forall x :: x in log && Replayable(x, floor) && x.seqNo < f.seqNo ==> x in part
    ensures part + [f] <= NonCommands(log, floor)
  {
    var whole := NonCommands(log, floor);
    NonCommandsIncreasing(log, floor);
    NonCommandsMember(log, floor, f);
    forall x | x in whole && x.seqNo < f.seqNo ensures x in part {
      NonCommandsMember(log, floor, x);
    }
    PrefixExtend(part, whole, f);
  }

  /** What was written so far lies before the next live frame. */
  lemma WrittenBefore(s: State, k: ConnId, x: Event)
    requires Shape(s) && ReceivedInOrder(s)
    requires k in s.conns && ConnOk(s.conns[k], s.log) && HasFrame(s.conns[k])
    requires NextFrame(s.conns[k]).seqNo > s.conns[k].lastReplayed && NextFrame(s.conns[k]).kind != Command
    requires x in s.conns[k].written && x.kind != Command
    ensures x.seqNo < NextFrame(s.conns[k]).seqNo
  {
    var c := s.conns[k];
    NextFrameReceived(c);
    WrittenSource(c, s.log, x);
  }

  /** Writing the next live frame extends the prefix by exactly the next event. */
  lemma FrameInOrder(s: State, k: ConnId)
    requires Shape(s) && ReceivedOk(s) && NoGaps(s) && ReceivedInOrder(s)
    requires k in s.conns && ConnOk(s.conns[k], s.log) && HasFrame(s.conns[k]) && WroteInOrder(s, k)
    requires NextFrame(s.conns[k]).seqNo > s.conns[k].lastReplayed ==> !s.conns[k].cancelled
    ensures var c' := Handle(s.conns[k]); NonCommands(c'.written, Floor(c')) <= NonCommands(s.log, Floor(c'))
  {
    var c := s.conns[k];
    var f := NextFrame(c);
    var part := NonCommands(c.written, Floor(c));
    if f.seqNo > c.lastReplayed {
      NonCommandsSnoc(c.written, f, Floor(c));
      if Replayable(f, Floor(c)) {
        NextFrameReceived(c);
        assert ReceivedFrom(s, k, f);
        forall x | x in part ensures x.seqNo < f.seqNo {
          NonCommandsMember(c.written, Floor(c), x);
          WrittenBefore(s, k, x);
        }
        forall x | x in s.log && Replayable(x, Floor(c)) && x.seqNo < f.seqNo ensures x in part {
          NothingSkipped(s, k, x);
          NonCommandsMember(c.written, Floor(c), x);
        }
        PrefixOfLog(part, s.log, Floor(c), f);
      }
    }
  }

  lemma WroteInOrderByStep(s: State, k: ConnId, m: Move)
    requires Inv(s) && NoGaps(s) && ReceivedInOrder(s) && Enabled(s, Step(k, m)) && WroteInOrder(s, k)
    ensures WroteInOrder(Apply(s, Step(k, m)), k)
  {
    var c := s.conns[k];
    if m == FlushFrame || m == LiveFrame {
      FrameInOrder(s, k);
    } else if m == WriteReplayed {
      MoveKept(c, s.log, m);
      ReplayedInOrder(MoveConn(c, s.log, m), s.log);
    }
  }

  /** Other steps write nothing. */
  ghost predicate SameWire(c: Conn, c': Conn) {
    c'.written == c.written && Floor(c') == Floor(c)
  }

  lemma SameWireBy(s: State, a: Action, k: ConnId)
    requires Enabled(s, a) && k in s.conns && (a.Step? ==> a.k != k)
    ensures k in Apply(s, a).conns && SameWire(s.conns[k], Apply(s, a).conns[k])
  {
  }

  lemma WroteInOrderKept(s: State, a: Action, k: ConnId)
    requires Inv(s) && NoGaps(s) && ReceivedInOrder(s) && Enabled(s, a)
    requires k in s.conns && WroteInOrder(s, k)
    ensures k in Apply(s, a).conns && WroteInOrder(Apply(s, a), k)
  {
    if a.Step? && a.k == k {
      WroteInOrderByStep(s, k, a.move);
    } else {
      SameWireBy(s, a, k);
      PushesAdvanceBy(s, a);
      NonCommandsPrefix(s.log, Apply(s, a).log, Floor(s.conns[k]));
    }
  }

  lemma NewConnWroteNothing(s: State, a: Action, k: ConnId)
    requires Enabled(s, a) && k !in s.conns && k in Apply(s, a).conns
    ensures WroteInOrder(Apply(s, a), k)
  {
  }

  lemma AllWroteInOrder(s: State, s': State, a: Action)
    requires Inv(s) && Ordered(s) && Enabled(s, a) && s' == Apply(s, a)
    ensures forall k :: k in s'.conns ==> WroteInOrder(s', k)
  {
    forall k | k in s'.conns ensures WroteInOrder(s', k) {
      if k in s.conns {
        WroteInOrderKept(s, a, k);
      } else {
        NewConnWroteNothing(s, a, k);
      }
    }
  }

  lemma OrderedKept(s: State, a: Action, via: Endpoint)
    requires Inv(s) && Ordered(s) && OneLock(s, via) && Enabled(s, a)
    ensures Inv(Apply(s, a)) && Ordered(Apply(s, a))
  {
    InvKept(s, a);
    var s' := Apply(s, a);
    AllWroteInOrder(s, s', a);
    NewestKept(s, a, via);
    ReceivedInOrderKept(s, a);
    NoGapsKept(s, a);
  }

  lemma {:induction false} AboveInOrder(es: seq<Event>, position: nat)
    requires InOrder(es)
    ensures InOrder(Above(es, position))
  {
    if es != [] {
      var init, last := es[..|es| - 1], es[|es| - 1];
      AboveInOrder(init, position);
      forall x | x in Above(init, position) && x.kind != Command && last.kind != Command ensures x.seqNo < last.seqNo {
        AboveMember(init, position, x);
      }
    }
  }

  /** The non-command frames of a connection go out in strictly increasing order,
      those at or below its floor included. */
  lemma WireInOrder(s: State, k: ConnId)
    requires LogOk(s.log) && ReceivedInOrder(s) && k in s.conns && WrittenOk(s.conns[k], s.log)
    ensures InOrder(s.conns[k].written)
  {
    var c := s.conns[k];
    var replayed, live := NonCommands(s.log[..c.lastReplayed], Floor(c)), Above(c.received[..c.handled], c.lastReplayed);
    NonCommandsIncreasing(s.log[..c.lastReplayed], Floor(c));
    AboveInOrder(c.received[..c.handled], c.lastReplayed);
    forall x, y | x in replayed && y in live ensures x.seqNo < y.seqNo {
      NonCommandsMember(s.log[..c.lastReplayed], Floor(c), x);
      AboveMember(c.received[..c.handled], c.lastReplayed, y);
    }
  }

  /** Requests are never forgotten, so one lock at the end means one lock throughout. */
  lemma OneLockBefore(s: State, a: Action, via: Endpoint)
    requires Enabled(s, a) && OneLock(Apply(s, a), via)
    ensures OneLock(s, via)
  {
    forall r | r in s.requests ensures s.requests[r].endpoint == via || s.requests[r].endpoint == Dispatch {
      assert r in Apply(s, a).requests && Apply(s, a).requests[r].endpoint == s.requests[r].endpoint;
    }
  }

  /** In every state of every run whose non-command requests used one endpoint,
      every connection ever opened, displaced and overflowed ones included, has
      written a gap-free, duplicate-free prefix of the log above its floor. */
  lemma {:induction false} OrderedOnRuns(trace: seq<State>, actions: seq<Action>, n: nat, via: Endpoint)
    requires IsRun(trace, actions) && n < |trace| && OneLock(trace[n], via)
    ensures Inv(trace[n]) && Ordered(trace[n])
  {
    if n > 0 {
      OneLockBefore(trace[n - 1], actions[n - 1], via);
      OrderedOnRuns(trace, actions, n - 1, via);
      OrderedKept(trace[n - 1], actions[n - 1], via);
    }
  }

  /** In the same states, all non-command frames of a connection, those at or below
      its floor included, went out in strictly increasing order. */
  lemma WireInOrderOnRuns(trace: seq<State>, actions: seq<Action>, n: nat, via: Endpoint, k: ConnId)
    requires IsRun(trace, actions) && n < |trace| && OneLock(trace[n], via)
    ensures k in trace[n].conns ==> InOrder(trace[n].conns[k].written) && WroteInOrder(trace[n], k)
  {
    OrderedOnRuns(trace, actions, n, via);
    if k in trace[n].conns {
      assert ConnOk(trace[n].conns[k], trace[n].log);
      WireInOrder(trace[n], k);
    }
  }
}
