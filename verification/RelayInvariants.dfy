/** What every step of the relay keeps, whichever endpoints are in use. */
module RelayInvariants {
  import opened Basics
  import opened Events
  import opened Relay

  /** The connection a push is aimed at, once looked up. */
  predicate Aimed(p: Push) {
    !p.NotPushed? && !p.Unattached?
  }

  ghost predicate Shape(s: State) {
    && LogOk(s.log)
    && |s.pushes| == |s.log| && |s.owners| == |s.log|
    && (s.registered.Some? ==> s.registered.value in s.conns)
    && (forall i :: 0 <= i < |s.pushes| && Aimed(s.pushes[i]) ==> s.pushes[i].conn in s.conns)
    && (forall k :: k in s.conns ==> s.conns[k].attachedAt <= |s.log| && s.conns[k].fetchedAt <= |s.log|)
  }

  predicate PastLock(p: Progress) {
    p.Entered? || p.Pushing? || p.Finished?
  }

  predicate RequestOk(s: State, r: RequestId)
    requires |s.pushes| == |s.log| && |s.owners| == |s.log|
    requires r in s.requests
  {
    var q := s.requests[r];
    && KindAllowed(q.endpoint, q.kind)
    && (q.progress.Pushing? ==> 0 < q.progress.seqNo <= |s.log| && PushOwned(s, q.progress.seqNo - 1, r))
    && (PastLock(q.progress) && q.endpoint != Dispatch ==> LockOf(s, q.endpoint) == Some(r))
  }

  /** Event i's push is under way, in the hands of request r. */
  predicate PushOwned(s: State, i: nat, r: RequestId)
    requires |s.pushes| == |s.log| && |s.owners| == |s.log| && i < |s.log|
  {
    && Unfinished(s.pushes[i]) && s.owners[i] == r
    && r in s.requests && s.requests[r].progress == Pushing(i + 1) && s.requests[r].kind == s.log[i].kind
  }

  /** Requests and unfinished pushes correspond one to one, and a request past
      its endpoint's lock is the holder of that lock. */
  ghost predicate RequestsOk(s: State)
    requires |s.pushes| == |s.log| && |s.owners| == |s.log|
  {
    && (forall r :: r in s.requests ==> RequestOk(s, r))
    && (forall i :: 0 <= i < |s.log| && Unfinished(s.pushes[i]) ==> PushOwned(s, i, s.owners[i]))
  }

  predicate ReceivedFrom(s: State, k: ConnId, e: Event)
    requires |s.pushes| == |s.log|
  {
    0 < e.seqNo <= |s.log| && s.log[e.seqNo - 1] == e && s.pushes[e.seqNo - 1] == Queued(k)
  }

  /** An event is in a connection's outbox history exactly when its push ended
      there, and then only once. */
  ghost predicate ReceivedOk(s: State)
    requires |s.pushes| == |s.log|
  {
    && (forall k, e :: k in s.conns && e in s.conns[k].received ==> ReceivedFrom(s, k, e))
    && (forall i :: 0 <= i < |s.log| && s.pushes[i].Queued? ==>
          s.pushes[i].conn in s.conns && s.log[i] in s.conns[s.pushes[i].conn].received)
    && (forall k :: k in s.conns ==> NoDuplicates(s.conns[k].received))
  }

  predicate OnItsWay(p: Push, k: ConnId, cancelled: bool) {
    || p.NotPushed? || p == LookedUp(k) || p == Overflowing(k) || p == Queued(k)
    || (p == Dropped(k) && cancelled)
  }

  /** Everything committed after the registered connection attached is queued on
      it or still on its way there, unless it overflowed and was cancelled. */
  ghost predicate CoverOk(s: State)
    requires |s.pushes| == |s.log|
  {
    s.registered.Some? ==>
      var k := s.registered.value;
      k in s.conns &&
      forall i :: s.conns[k].attachedAt <= i < |s.log| ==> OnItsWay(s.pushes[i], k, s.conns[k].cancelled)
  }

  // --------------------------------------------------------- preservation

  /** Steps that leave the log, the pushes and the requests alone. */
  predicate ConnOnly(a: Action) {
    a.Attach? || a.CloseDisplaced? || a.Step? || a.Cancel? || a.Remove?
  }

  predicate MovesPush(a: Action) {
    a.LookUp? || a.Offer? || a.CloseSlow?
  }

  lemma ShapeKeptByConn(s: State, a: Action)
    requires Shape(s) && Enabled(s, a) && ConnOnly(a)
    ensures Shape(Apply(s, a))
  {
  }

  lemma ShapeKeptByPush(s: State, a: Action)
    requires Shape(s) && Enabled(s, a) && MovesPush(a)
    ensures Shape(Apply(s, a))
  {
    match a {
      case LookUp(r) =>
      case Offer(r) =>
      case CloseSlow(r) =>
    }
  }

  lemma ShapeKept(s: State, a: Action)
    requires Shape(s) && Enabled(s, a)
    ensures Shape(Apply(s, a))
  {
    if ConnOnly(a) {
      ShapeKeptByConn(s, a);
    } else if MovesPush(a) {
      ShapeKeptByPush(s, a);
    }
  }

  /** What a push step does to the request that makes it. */
  lemma PushMoved(s: State, a: Action, r: RequestId, i: nat)
    requires Shape(s) && Enabled(s, a)
    requires a == LookUp(r) || a == Offer(r) || a == CloseSlow(r)
    requires i == s.requests[r].progress.seqNo - 1
    ensures var s' := Apply(s, a);
            && s'.log == s.log && s'.owners == s.owners
            && s'.eventSubLock == s.eventSubLock && s'.panelLock == s.panelLock
            && |s'.pushes| == |s.pushes|
            && (forall j :: 0 <= j < |s.pushes| && j != i ==> s'.pushes[j] == s.pushes[j])
            && s'.requests == s.requests[r := s.requests[r].(progress :=
                 if Unfinished(s'.pushes[i]) then s.requests[r].progress else Finished)]
  {
  }

  /** Moving the push of event i, and finishing its owner when the push ends,
      keeps requests and unfinished pushes in correspondence. */
  lemma OwnerMoved(s: State, s': State, r: RequestId, i: nat)
    requires |s.pushes| == |s.log| == |s.owners| && RequestsOk(s)
    requires i < |s.log| && At(s, r, Pushing(i + 1))
    requires s'.log == s.log && s'.owners == s.owners
    requires s'.eventSubLock == s.eventSubLock && s'.panelLock == s.panelLock
    requires |s'.pushes| == |s.pushes| && forall j :: 0 <= j < |s.pushes| && j != i ==> s'.pushes[j] == s.pushes[j]
    requires s'.requests == s.requests[r := s.requests[r].(progress := if Unfinished(s'.pushes[i]) then Pushing(i + 1) else Finished)]
    ensures RequestsOk(s')
  {
    assert RequestOk(s, r) && PushOwned(s, i, r);
    forall t | t in s'.requests ensures RequestOk(s', t) {
      assert RequestOk(s, t);
    }
    forall j | 0 <= j < |s'.log| && Unfinished(s'.pushes[j]) ensures PushOwned(s', j, s'.owners[j]) {
      assert PushOwned(s, j, s.owners[j]);
    }
  }

  lemma RequestsKeptByPush(s: State, a: Action, r: RequestId)
    requires Shape(s) && RequestsOk(s) && Enabled(s, a)
    requires a == LookUp(r) || a == Offer(r) || a == CloseSlow(r)
    ensures Shape(Apply(s, a)) && RequestsOk(Apply(s, a))
  {
    ShapeKept(s, a);
    var i := s.requests[r].progress.seqNo - 1;
    PushMoved(s, a, r, i);
    OwnerMoved(s, Apply(s, a), r, i);
  }

  /** A request that is not pushing may move, and take or release a free or own
      lock, without disturbing anything else. */
  lemma OtherRequestsKept(s: State, s': State, r: RequestId)
    requires |s.pushes| == |s.log| && |s.owners| == |s.log| && RequestsOk(s)
    requires s'.log == s.log && s'.pushes == s.pushes && s'.owners == s.owners
    requires (r in s.requests ==> !s.requests[r].progress.Pushing?) && r in s'.requests
    requires s'.requests == s.requests[r := s'.requests[r]]
    requires forall e :: LockOf(s', e) == LockOf(s, e) || LockOf(s, e) == None || LockOf(s, e) == Some(r)
    requires RequestOk(s', r)
    ensures RequestsOk(s')
  {
    forall t | t in s'.requests ensures RequestOk(s', t) {
      assert t != r ==> RequestOk(s, t);
    }
    forall j | 0 <= j < |s'.log| && Unfinished(s'.pushes[j]) ensures PushOwned(s', j, s'.owners[j]) {
      assert PushOwned(s, j, s.owners[j]);
    }
  }

  /** A request arriving, or entering, failing or leaving with its lock taken or released. */
  lemma RequestsKeptByLock(s: State, a: Action, r: RequestId)
    requires Shape(s) && RequestsOk(s) && Enabled(s, a)
    requires (a.Arrive? && a.r == r) || a == Enter(r) || a == AppendFails(r) || a == Return(r)
    ensures Shape(Apply(s, a)) && RequestsOk(Apply(s, a))
  {
    ShapeKept(s, a);
    assert r in s.requests ==> RequestOk(s, r);
    OtherRequestsKept(s, Apply(s, a), r);
  }

  /** A committed event starts out unpushed, in the hands of the request that
      appended it; nothing else moves. */
  lemma OwnerAdded(s: State, s': State, r: RequestId, e: Event)
    requires |s.pushes| == |s.log| == |s.owners| && RequestsOk(s) && At(s, r, Entered)
    requires s'.log == s.log + [e] && s'.pushes == s.pushes + [NotPushed] && s'.owners == s.owners + [r]
    requires e.kind == s.requests[r].kind
    requires s'.eventSubLock == s.eventSubLock && s'.panelLock == s.panelLock
    requires s'.requests == s.requests[r := s.requests[r].(progress := Pushing(|s.log| + 1))]
    ensures RequestsOk(s')
  {
    assert RequestOk(s, r);
    assert PushOwned(s', |s.log|, r);
    forall t | t in s'.requests ensures RequestOk(s', t) {
      assert RequestOk(s, t);
    }
    forall j | 0 <= j < |s'.log| && Unfinished(s'.pushes[j]) ensures PushOwned(s', j, s'.owners[j]) {
      assert j < |s.log| ==> PushOwned(s, j, s.owners[j]);
    }
  }

  lemma RequestsKeptByAppend(s: State, r: RequestId)
    requires Shape(s) && RequestsOk(s) && Enabled(s, Append(r))
    ensures Shape(Apply(s, Append(r))) && RequestsOk(Apply(s, Append(r)))
  {
    ShapeKept(s, Append(r));
    var s' := Apply(s, Append(r));
    assert RequestOk(s, r);
    if HasMessage(s.log, s.requests[r].id) {
      OtherRequestsKept(s, s', r);
    } else {
      OwnerAdded(s, s', r, s'.log[|s.log|]);
    }
  }

  lemma RequestsKeptByConn(s: State, a: Action)
    requires Shape(s) && RequestsOk(s) && Enabled(s, a) && ConnOnly(a)
    ensures Shape(Apply(s, a)) && RequestsOk(Apply(s, a))
  {
    ShapeKept(s, a);
    var s' := Apply(s, a);
    assert s'.log == s.log && s'.pushes == s.pushes && s'.owners == s.owners && s'.requests == s.requests;
    assert s'.eventSubLock == s.eventSubLock && s'.panelLock == s.panelLock;
    forall t | t in s'.requests ensures RequestOk(s', t) {
      assert RequestOk(s, t);
    }
    forall j | 0 <= j < |s'.log| && Unfinished(s'.pushes[j]) ensures PushOwned(s', j, s'.owners[j]) {
      assert PushOwned(s, j, s.owners[j]);
    }
  }

  lemma RequestsKept(s: State, a: Action)
    requires Shape(s) && RequestsOk(s) && Enabled(s, a)
    ensures Shape(Apply(s, a)) && RequestsOk(Apply(s, a))
  {
    if MovesPush(a) {
      RequestsKeptByPush(s, a, a.r);
    } else if a.Append? {
      RequestsKeptByAppend(s, a.r);
    } else if ConnOnly(a) {
      RequestsKeptByConn(s, a);
    } else {
      RequestsKeptByLock(s, a, a.r);
    }
  }

  lemma ReceivedKeptByOffer(s: State, r: RequestId)
    requires Shape(s) && ReceivedOk(s) && Enabled(s, Offer(r))
    ensures Shape(Apply(s, Offer(r))) && ReceivedOk(Apply(s, Offer(r)))
  {
    ShapeKept(s, Offer(r));
    var s' := Apply(s, Offer(r));
    PushMoved(s, Offer(r), r, s.requests[r].progress.seqNo - 1);
    forall k, e | k in s'.conns && e in s'.conns[k].received ensures ReceivedFrom(s', k, e) {
      assert e in s.conns[k].received ==> ReceivedFrom(s, k, e);
    }
    var k := PushOf(s, r).conn;
    var e := s.log[s.requests[r].progress.seqNo - 1];
    assert e in s.conns[k].received ==> ReceivedFrom(s, k, e);
    assert s'.conns[k].received == s.conns[k].received || s'.conns[k].received == s.conns[k].received + [e];
  }

  /** Connections keep their outbox history and attachment point. */
  ghost predicate SameHistories(s: State, s': State) {
    && s.conns.Keys <= s'.conns.Keys
    && (forall k :: k in s.conns ==> s'.conns[k].received == s.conns[k].received)
    && (forall k :: k in s'.conns && k !in s.conns ==> s'.conns[k].received == [])
  }

  lemma HistoryKeptByMove(c: Conn, log: seq<Event>, m: Move)
    requires MoveEnabled(c, m)
    ensures MoveConn(c, log, m).received == c.received
  {
  }

  lemma HistoriesKeptByConn(s: State, a: Action)
    requires Enabled(s, a) && ConnOnly(a)
    ensures SameHistories(s, Apply(s, a))
  {
    if a.Step? {
      HistoryKeptByMove(s.conns[a.k], s.log, a.move);
      assert Apply(s, a).conns == s.conns[a.k := MoveConn(s.conns[a.k], s.log, a.move)];
    }
  }

  lemma ReceivedKeptByConn(s: State, a: Action)
    requires Shape(s) && ReceivedOk(s) && Enabled(s, a) && ConnOnly(a)
    ensures Shape(Apply(s, a)) && ReceivedOk(Apply(s, a))
  {
    ShapeKept(s, a);
    HistoriesKeptByConn(s, a);
    forall k, e | k in Apply(s, a).conns && e in Apply(s, a).conns[k].received ensures ReceivedFrom(Apply(s, a), k, e) {
      assert ReceivedFrom(s, k, e);
    }
  }

  lemma ReceivedKeptByPush(s: State, a: Action, r: RequestId)
    requires Shape(s) && ReceivedOk(s) && Enabled(s, a)
    requires a == LookUp(r) || a == CloseSlow(r)
    ensures Shape(Apply(s, a)) && ReceivedOk(Apply(s, a))
  {
    ShapeKept(s, a);
    var s' := Apply(s, a);
    PushMoved(s, a, r, s.requests[r].progress.seqNo - 1);
    assert SameHistories(s, s');
    forall k, e | k in s'.conns && e in s'.conns[k].received ensures ReceivedFrom(s', k, e) {
      assert ReceivedFrom(s, k, e);
    }
  }

  lemma ReceivedKeptByRequest(s: State, a: Action)
    requires Shape(s) && ReceivedOk(s) && Enabled(s, a) && !ConnOnly(a) && !MovesPush(a)
    ensures Shape(Apply(s, a)) && ReceivedOk(Apply(s, a))
  {
    ShapeKept(s, a);
    var s' := Apply(s, a);
    assert s'.conns == s.conns && s.log <= s'.log && s.pushes <= s'.pushes;
    assert forall i :: |s.log| <= i < |s'.log| ==> s'.pushes[i] == NotPushed;
    forall k, e | k in s'.conns && e in s'.conns[k].received ensures ReceivedFrom(s', k, e) {
      assert ReceivedFrom(s, k, e);
    }
  }

  lemma ReceivedKept(s: State, a: Action)
    requires Shape(s) && ReceivedOk(s) && Enabled(s, a)
    ensures Shape(Apply(s, a)) && ReceivedOk(Apply(s, a))
  {
    if a.Offer? {
      ReceivedKeptByOffer(s, a.r);
    } else if MovesPush(a) {
      ReceivedKeptByPush(s, a, a.r);
    } else if ConnOnly(a) {
      ReceivedKeptByConn(s, a);
    } else {
      ReceivedKeptByRequest(s, a);
    }
  }

  lemma CoverKeptByPush(s: State, a: Action, r: RequestId)
    requires Shape(s) && CoverOk(s) && Enabled(s, a)
    requires a == LookUp(r) || a == Offer(r) || a == CloseSlow(r)
    ensures Shape(Apply(s, a)) && CoverOk(Apply(s, a))
  {
    ShapeKept(s, a);
    var s' := Apply(s, a);
    var q := s.requests[r].progress.seqNo - 1;
    PushMoved(s, a, r, q);
    if s.registered.Some? {
      var k := s.registered.value;
      assert q >= s.conns[k].attachedAt ==> OnItsWay(s.pushes[q], k, s.conns[k].cancelled);
    }
  }

  lemma CoverKept(s: State, a: Action)
    requires Shape(s) && CoverOk(s) && Enabled(s, a)
    ensures Shape(Apply(s, a)) && CoverOk(Apply(s, a))
  {
    if MovesPush(a) {
      CoverKeptByPush(s, a, a.r);
    } else {
      ShapeKept(s, a);
    }
  }

  predicate AimedAt(p: Push, k: ConnId) {
    p == LookedUp(k) || p == Queued(k)
  }

  /** A step only moves unfinished pushes on, and only a look-up aims one. */
  ghost predicate PushesAdvance(s: State, s': State, aimed: int)
    requires |s.pushes| == |s.log| && |s'.pushes| == |s'.log|
  {
    && s.log <= s'.log
    && (forall i :: 0 <= i < |s.log| && !Unfinished(s.pushes[i]) ==> s'.pushes[i] == s.pushes[i])
    && (forall i :: 0 <= i < |s.log| && s'.pushes[i].NotPushed? ==> s.pushes[i].NotPushed?)
    && (forall i, k :: 0 <= i < |s'.log| && i != aimed && AimedAt(s'.pushes[i], k) ==>
          i < |s.log| && AimedAt(s.pushes[i], k))
  }

  function AimedBy(s: State, a: Action): int {
    if a.LookUp? && IsPushing(s, a.r) then s.requests[a.r].progress.seqNo - 1 else -1
  }

  lemma PushesAdvanceByPush(s: State, a: Action, r: RequestId)
    requires Shape(s) && Enabled(s, a)
    requires a == LookUp(r) || a == Offer(r) || a == CloseSlow(r)
    ensures Shape(Apply(s, a)) && PushesAdvance(s, Apply(s, a), AimedBy(s, a))
  {
    ShapeKept(s, a);
    var q := s.requests[r].progress.seqNo - 1;
    PushMoved(s, a, r, q);
    var p, p' := s.pushes[q], Apply(s, a).pushes[q];
    assert Unfinished(p) && !p'.NotPushed?;
    assert forall k :: a != LookUp(r) && AimedAt(p', k) ==> AimedAt(p, k);
  }

  lemma PushesAdvanceBy(s: State, a: Action)
    requires Shape(s) && Enabled(s, a)
    ensures Shape(Apply(s, a)) && PushesAdvance(s, Apply(s, a), AimedBy(s, a))
  {
    if MovesPush(a) {
      PushesAdvanceByPush(s, a, a.r);
    } else {
      ShapeKept(s, a);
      var s' := Apply(s, a);
      assert s.log <= s'.log && s.pushes <= s'.pushes;
      assert forall i :: |s.log| <= i < |s'.log| ==> s'.pushes[i] == NotPushed;
    }
  }
}
