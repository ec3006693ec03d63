/** The webhook and the extension endpoint each build their own ingest mutex. This
    is exactly the configuration in which the no-loss promise breaks. */
module RelayTwoLocks {
  import opened Basics
  import opened Events
  import opened Relay
  import opened RelayInvariants
  import opened RelayConnections
  import opened RelaySafety
  import opened RelayOrder
  import opened RelayClient

  /** The run used no endpoint outside this set. */
  ghost predicate UsesOnly(s: State, used: set<Endpoint>) {
    forall r :: r in s.requests ==> s.requests[r].endpoint in used
  }

  ghost predicate Lossless(w: World, startSeq: nat) {
    forall e :: e in w.server.log && e.kind != Command && startSeq < e.seqNo <= w.client.position
      ==> e in w.client.processed
  }

  ghost predicate LosslessRuns(used: set<Endpoint>) {
    forall trace: seq<World>, actions: seq<WorldAction>, startSeq: nat, n: nat ::
      IsWorldRun(trace, actions, startSeq) && n < |trace| && UsesOnly(trace[n].server, used)
      ==> Lossless(trace[n], startSeq)
  }

  /** Nothing is under way any more: the client has read its settled connection to the end. */
  predicate ReadToEnd(w: World, k: ConnId) {
    Settled(w.server, k) && w.client.conn == Some(k) && w.client.read == |w.server.conns[k].written|
  }

  ghost predicate HasAll(w: World, startSeq: nat) {
    forall e :: e in w.server.log && e.kind != Command && startSeq < e.seqNo ==> e in w.client.processed
  }

  /** A client that has read everything there is to read has everything. */
  ghost predicate CompleteRuns(used: set<Endpoint>) {
    forall trace: seq<World>, actions: seq<WorldAction>, startSeq: nat, n: nat, k: ConnId ::
      IsWorldRun(trace, actions, startSeq) && n < |trace| && UsesOnly(trace[n].server, used) && ReadToEnd(trace[n], k)
      ==> HasAll(trace[n], startSeq)
  }

  /** Some run of the client and the relay, for a device starting at 0, ends here. */
  ghost predicate Reached(w: World) {
    exists trace, actions :: IsWorldRun(trace, actions, 0) && trace[|trace| - 1] == w
  }

  lemma Reach(w: World, a: WorldAction, w': World)
    requires Reached(w) && WorldEnabled(w, a, 0) && WorldApply(w, a, 0) == w'
    ensures Reached(w')
  {
    var trace, actions :| IsWorldRun(trace, actions, 0) && trace[|trace| - 1] == w;
    assert IsWorldRun(trace + [w'], actions + [a], 0);
    assert (trace + [w'])[|trace + [w']| - 1] == w';
  }

  lemma ReachStart()
    ensures Reached(START)
  {
    assert IsWorldRun([START], [], 0);
    assert [START][|[START]| - 1] == START;
  }

  const CHEER: Event := Event(1, "cheer", Cheer, "")
  const PURCHASE: Event := Event(2, "purchase", Extension, "")

  const CONNECTED: Client := Client(0, [], Some(0), 0)

  /** The worlds of the race, in the order reached. */
  function WithConn(p: Phase): World {
    World(INITIAL.(registered := Some(0), conns := map[0 := NewConn(0, 0, None, 0).(phase := p)]), CONNECTED)
  }

  function Racing(webhook: Progress, panel: Progress, log: seq<Event>, pushes: seq<Push>, owners: seq<RequestId>): World {
    World(State(log, pushes, owners,
                map[1 := Request(EventSub, "cheer", Cheer, "", webhook),
                    2 := Request(Panel, "purchase", Extension, "", panel)],
                if webhook == Waiting then None else Some(1), if panel == Waiting then None else Some(2),
                Some(0), map[0 := NewConn(0, 0, None, 0).(phase := Live)]), CONNECTED)
  }

  const BOTH_LOGGED: World :=
    Racing(Pushing(1), Pushing(2), [CHEER, PURCHASE], [NotPushed, NotPushed], [1, 2])

  const LATER_QUEUED: World :=
    var w := Racing(Pushing(1), Finished, [CHEER, PURCHASE], [NotPushed, Queued(0)], [1, 2]);
    w.(server := w.server.(conns := map[0 := NewConn(0, 0, None, 0).(phase := Live, outbox := [PURCHASE], received := [PURCHASE])]))

  const OVERTAKEN: World :=
    LATER_QUEUED.(
      server := LATER_QUEUED.server.(conns := map[0 := NewConn(0, 0, None, 0).(phase := Live, received := [PURCHASE],
                                                                               handled := 1, written := [PURCHASE])]),
      client := Client(2, [PURCHASE], Some(0), 1))

  /** The first connection is gone, the cheer's push found nobody attached, and the
      client reconnects with the position it has reached. */
  function Reconnected(p: Phase): World {
    World(OVERTAKEN.server.(
            requests := OVERTAKEN.server.requests[1 := Request(EventSub, "cheer", Cheer, "", Finished)],
            pushes := [Unattached, Queued(0)],
            registered := Some(1),
            conns := map[0 := OVERTAKEN.server.conns[0].(phase := Gone, cancelled := true),
                         1 := NewConn(2, 0, None, 2).(phase := p, fetchedAt := if p.Attaching? || p.Fetching? then 0 else 2)]),
          Client(2, [PURCHASE], Some(1), 0))
  }

  lemma ReachByMove(p: Phase, m: Move, q: Phase)
    requires var c := NewConn(0, 0, None, 0);
             MoveEnabled(c.(phase := p), m) && MoveConn(c.(phase := p), [], m) == c.(phase := q)
    requires Reached(WithConn(p))
    ensures Reached(WithConn(q))
  {
    Reach(WithConn(p), Server(Step(0, m)), WithConn(q));
  }

  lemma RaceConnects()
    ensures Reached(WithConn(Live))
  {
    ReachStart();
    Reach(START, Connect(0), WithConn(Attaching(None)));
    Reach(WithConn(Attaching(None)), Server(CloseDisplaced(0)), WithConn(Fetching));
    ReachByMove(Fetching, FetchPage, Paging([], 0));
    ReachByMove(Paging([], 0), PageDone, Greeting);
    ReachByMove(Greeting, WriteReady, DrainingReady);
    ReachByMove(DrainingReady, DrainDone, Flushing);
    ReachByMove(Flushing, FlushDone, Live);
  }

  lemma RaceEnters()
    requires Reached(WithConn(Live))
    ensures Reached(Racing(Entered, Entered, [], [], []))
  {
    var w := WorldApply(WithConn(Live), Server(Arrive(1, EventSub, "cheer", Cheer, "")), 0);
    Reach(WithConn(Live), Server(Arrive(1, EventSub, "cheer", Cheer, "")), w);
    Reach(w, Server(Arrive(2, Panel, "purchase", Extension, "")), Racing(Waiting, Waiting, [], [], []));
    Reach(Racing(Waiting, Waiting, [], [], []), Server(Enter(1)), Racing(Entered, Waiting, [], [], []));
    Reach(Racing(Entered, Waiting, [], [], []), Server(Enter(2)), Racing(Entered, Entered, [], [], []));
  }

  lemma RaceAppends()
    requires Reached(Racing(Entered, Entered, [], [], []))
    ensures Reached(BOTH_LOGGED)
  {
    var w := Racing(Pushing(1), Entered, [CHEER], [NotPushed], [1]);
    Reach(Racing(Entered, Entered, [], [], []), Server(Append(1)), w);
    Reach(w, Server(Append(2)), BOTH_LOGGED);
  }

  lemma RacePushes()
    requires Reached(BOTH_LOGGED)
    ensures Reached(LATER_QUEUED)
  {
    var w := Racing(Pushing(1), Pushing(2), [CHEER, PURCHASE], [NotPushed, LookedUp(0)], [1, 2]);
    Reach(BOTH_LOGGED, Server(LookUp(2)), w);
    var w' := WorldApply(w, Server(Offer(2)), 0);
    assert w'.server.requests == LATER_QUEUED.server.requests;
    assert w'.server.conns[0].outbox == [PURCHASE] && w'.server.conns[0].received == [PURCHASE];
    assert w'.server.conns == LATER_QUEUED.server.conns;
    Reach(w, Server(Offer(2)), LATER_QUEUED);
  }

  lemma RaceDelivers()
    requires Reached(LATER_QUEUED)
    ensures Reached(OVERTAKEN)
  {
    var w := WorldApply(LATER_QUEUED, Server(Step(0, LiveFrame)), 0);
    Reach(LATER_QUEUED, Server(Step(0, LiveFrame)), w);
    assert w.server.conns[0].written == [PURCHASE];
    Reach(w, Process, OVERTAKEN);
  }

  const CLOSED: World :=
    OVERTAKEN.(server := OVERTAKEN.server.(registered := None, conns :=
      map[0 := OVERTAKEN.server.conns[0].(phase := Gone, cancelled := true)]))

  lemma RaceDisconnects()
    requires Reached(OVERTAKEN)
    ensures Reached(CLOSED)
  {
    var w := WorldApply(OVERTAKEN, Server(Step(0, Abort)), 0);
    Reach(OVERTAKEN, Server(Step(0, Abort)), w);
    assert WorldApply(w, Server(Remove(0)), 0).server.conns == CLOSED.server.conns;
    Reach(w, Server(Remove(0)), CLOSED);
  }

  lemma RaceReconnects()
    requires Reached(CLOSED)
    ensures Reached(Reconnected(Attaching(None)))
  {
    var w := WorldApply(CLOSED, Server(LookUp(1)), 0);
    Reach(CLOSED, Server(LookUp(1)), w);
    assert w.server.pushes == [Unattached, Queued(0)];
    var w' := WorldApply(w, Connect(1), 0);
    Reach(w, Connect(1), w');
    assert w'.server.conns == Reconnected(Attaching(None)).server.conns;
    assert w'.server.requests == Reconnected(Attaching(None)).server.requests;
  }

  lemma ReconnectMove(p: Phase, m: Move, q: Phase)
    requires Reached(Reconnected(p))
    requires var c := Reconnected(p).server.conns[1];
             MoveEnabled(c, m) && MoveConn(c, [CHEER, PURCHASE], m) == Reconnected(q).server.conns[1]
    ensures Reached(Reconnected(q))
  {
    var w := WorldApply(Reconnected(p), Server(Step(1, m)), 0);
    assert w.server.conns == Reconnected(q).server.conns;
    Reach(Reconnected(p), Server(Step(1, m)), w);
  }

  lemma NothingAfterPurchase()
    ensures EventsAfter([CHEER, PURCHASE], 2, MAX_REPLAY) == []
  {
    NonCommandsNone([CHEER, PURCHASE], 2);
  }

  const SETTLED: World := Reconnected(Live)

  lemma RaceAttaches()
    requires Reached(Reconnected(Attaching(None)))
    ensures Reached(Reconnected(Fetching))
  {
    var w := WorldApply(Reconnected(Attaching(None)), Server(CloseDisplaced(1)), 0);
    assert w.server.conns == Reconnected(Fetching).server.conns;
    Reach(Reconnected(Attaching(None)), Server(CloseDisplaced(1)), w);
  }

  lemma RaceSettles()
    requires Reached(Reconnected(Fetching))
    ensures Reached(SETTLED)
  {
    NothingAfterPurchase();
    ReconnectMove(Fetching, FetchPage, Paging([], 0));
    ReconnectMove(Paging([], 0), PageDone, Greeting);
    ReconnectMove(Greeting, WriteReady, DrainingReady);
    ReconnectMove(DrainingReady, DrainDone, Flushing);
    ReconnectMove(Flushing, FlushDone, Live);
  }

  lemma RaceReaches()
    ensures Reached(OVERTAKEN) && Reached(SETTLED)
  {
    RaceConnects();
    RaceEnters();
    RaceAppends();
    RacePushes();
    RaceDelivers();
    RaceDisconnects();
    RaceReconnects();
    RaceAttaches();
    RaceSettles();
  }

  /** A client streams live while a cheer and an extension purchase race: both are
      appended, the later one is pushed first, and the client moves past the cheer.
      Then it loses the connection, the cheer's push finds nobody attached, and the
      client reconnects, is sent `ready`, and reads to the end without the cheer. */
  lemma TwoLocksLose()
    ensures Reached(SETTLED) && UsesOnly(SETTLED.server, {EventSub, Panel}) && ReadToEnd(SETTLED, 1)
    ensures CHEER in SETTLED.server.log && CHEER.kind != Command && CHEER !in SETTLED.client.processed
    ensures !LosslessRuns({EventSub, Panel}) && !CompleteRuns({EventSub, Panel})
  {
    RaceReaches();
    assert CHEER in OVERTAKEN.server.log && CHEER !in OVERTAKEN.client.processed;
    assert UsesOnly(OVERTAKEN.server, {EventSub, Panel}) && !Lossless(OVERTAKEN, 0);
    assert CHEER in SETTLED.server.log && CHEER !in SETTLED.client.processed;
    assert UsesOnly(SETTLED.server, {EventSub, Panel}) && ReadToEnd(SETTLED, 1) && !HasAll(SETTLED, 0);
  }

  // ------------------------------------------------- the loss is for good

  lemma {:induction false} InvOnWorldRuns(trace: seq<World>, actions: seq<WorldAction>, startSeq: nat, n: nat)
    requires IsWorldRun(trace, actions, startSeq) && n < |trace|
    ensures Inv(trace[n].server)
  {
    if n > 0 {
      InvOnWorldRuns(trace, actions, startSeq, n - 1);
      var w := trace[n - 1];
      match actions[n - 1] {
        case Server(b) => InvKept(w.server, b);
        case Connect(k) => InvKept(w.server, Attach(k, w.client.position, startSeq));
        case _ =>
      }
    }
  }

  /** The cheer's push is over without a connection, and the client is past it. */
  ghost predicate Missed(w: World) {
    && |w.server.log| > 0 && |w.server.pushes| > 0 && w.server.log[0] == CHEER && w.server.pushes[0] == Unattached
    && CHEER !in w.client.processed && w.client.position >= 1
    && (w.client.conn.Some? ==> w.client.conn.value in w.server.conns && w.server.conns[w.client.conn.value].since >= 1)
  }

  lemma MissedOnTheWire(s: State, k: ConnId)
    requires Shape(s) && ReceivedOk(s) && k in s.conns && WrittenOk(s.conns[k], s.log) && s.conns[k].since >= 1
    requires |s.log| > 0 && s.log[0] == CHEER && s.pushes[0] == Unattached
    ensures CHEER !in s.conns[k].written
  {
    var c := s.conns[k];
    assert CHEER in c.received ==> ReceivedFrom(s, k, CHEER);
    assert CHEER in c.received[..c.handled] ==> CHEER in c.received;
    NonCommandsMember(s.log[..c.lastReplayed], Floor(c), CHEER);
    AboveMember(c.received[..c.handled], c.lastReplayed, CHEER);
  }

  lemma MissedKept(w: World, a: WorldAction)
    requires Inv(w.server) && Missed(w) && WorldEnabled(w, a, 0)
    ensures Missed(WorldApply(w, a, 0))
  {
    match a {
      case Server(b) =>
        PushesAdvanceBy(w.server, b);
        if w.client.conn.Some? {
          WireGrowsBy(w.server, b, w.client.conn.value);
        }
      case Connect(k) => PushesAdvanceBy(w.server, Attach(k, w.client.position, 0));
      case Process =>
        var k := w.client.conn.value;
        assert ConnOk(w.server.conns[k], w.server.log);
        MissedOnTheWire(w.server, k);
        FrameIsLogged(w.server, k, w.server.conns[k].written[w.client.read]);
      case Lose =>
    }
  }

  lemma {:induction false} MissedForGood(trace: seq<World>, actions: seq<WorldAction>, m: nat, n: nat)
    requires IsWorldRun(trace, actions, 0) && m <= n < |trace| && Missed(trace[m])
    ensures Missed(trace[n])
  {
    if n > m {
      MissedForGood(trace, actions, m, n - 1);
      InvOnWorldRuns(trace, actions, 0, n - 1);
      MissedKept(trace[n - 1], actions[n - 1]);
    }
  }

  lemma SettledMissed()
    ensures Missed(SETTLED)
  {
  }

  /** However a run goes on from there, the client never gets the cheer. */
  lemma LostForGood(trace: seq<World>, actions: seq<WorldAction>, m: nat, n: nat)
    requires IsWorldRun(trace, actions, 0) && m <= n < |trace| && trace[m] == SETTLED
    ensures CHEER !in trace[n].client.processed
  {
    SettledMissed();
    MissedForGood(trace, actions, m, n);
  }

  lemma OneLockSuffices(used: set<Endpoint>)
    requires !(EventSub in used && Panel in used)
    ensures LosslessRuns(used) && CompleteRuns(used)
  {
    var via := if EventSub in used then EventSub else Panel;
    forall trace: seq<World>, actions: seq<WorldAction>, startSeq: nat, n: nat |
      IsWorldRun(trace, actions, startSeq) && n < |trace| && UsesOnly(trace[n].server, used)
      ensures Lossless(trace[n], startSeq)
    {
      assert OneLock(trace[n].server, via);
      ClientOnRuns(trace, actions, startSeq, n, via);
    }
    forall trace: seq<World>, actions: seq<WorldAction>, startSeq: nat, n: nat, k: ConnId |
      IsWorldRun(trace, actions, startSeq) && n < |trace| && UsesOnly(trace[n].server, used) && ReadToEnd(trace[n], k)
      ensures HasAll(trace[n], startSeq)
    {
      assert OneLock(trace[n].server, via);
      forall e | e in trace[n].server.log && e.kind != Command && startSeq < e.seqNo ensures e in trace[n].client.processed {
        SettledClientHasAll(trace, actions, startSeq, n, via, k, e);
      }
    }
  }

  /** Losses on the narrower set of endpoints are losses on the wider one. */
  lemma LossesCarryOver(narrow: set<Endpoint>, wide: set<Endpoint>)
    requires narrow <= wide
    ensures LosslessRuns(wide) ==> LosslessRuns(narrow)
    ensures CompleteRuns(wide) ==> CompleteRuns(narrow)
  {
    assert forall s :: UsesOnly(s, narrow) ==> UsesOnly(s, wide);
  }

  /** Exactly when a client that has read everything there is to read has
      everything, and never moves past an event it lacks: when at most one of the two
      ingest endpoints is in use, that is, the extension or the webhook is disabled. */
  lemma LosslessIffOneLock(used: set<Endpoint>)
    ensures CompleteRuns(used) <==> !(EventSub in used && Panel in used)
    ensures LosslessRuns(used) <==> !(EventSub in used && Panel in used)
  {
    if EventSub in used && Panel in used {
      TwoLocksLose();
      LossesCarryOver({EventSub, Panel}, used);
    } else {
      OneLockSuffices(used);
    }
  }
}
