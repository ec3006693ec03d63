/** What one connection handler keeps while it replays, drains, flushes and
    streams: the frames it has written are always the replayed stretch of the log
    followed by the handled outbox frames above it. */
module RelayConnections {
  import opened Basics
  import opened Events
  import opened Relay

  predicate Replaying(c: Conn) {
    c.phase.Attaching? || c.phase.Fetching? || c.phase.Paging? || c.phase.DrainingPage?
  }

  /** Past the replay loop: `ready` is about to be sent or has been. */
  predicate CaughtUp(c: Conn) {
    c.phase.Greeting? || c.phase.DrainingReady? || c.phase.Flushing? || c.phase.Live?
  }

  /** The frames written so far, as a function of the log and of the outbox history. */
  ghost predicate WrittenOk(c: Conn, log: seq<Event>) {
    && c.cursor == (if c.lastReplayed == 0 then Floor(c) else c.lastReplayed)
    && Floor(c) <= c.cursor && c.lastReplayed <= |log|
    && c.handled <= |c.received|
    && c.written == NonCommands(log[..c.lastReplayed], Floor(c)) + Above(c.received[..c.handled], c.lastReplayed)
    && c.replayed == |NonCommands(log[..c.lastReplayed], Floor(c))|
  }

  /** Where the outbox history sits: drained into the buffer, queued, or handled. */
  ghost predicate QueueOk(c: Conn) {
    && |c.outbox| <= OUTBOX_DEPTH
    && (Replaying(c) || c.phase.Greeting? || c.phase.DrainingReady? ==> c.handled == 0)
    && (Replaying(c) || (CaughtUp(c) && c.phase != Live) ==> c.received == c.pending + c.outbox)
    && (c.phase == Flushing ==> c.handled <= |c.pending|)
    && (c.phase == Live ==> c.handled <= |c.received| && c.received[c.handled..] == c.outbox)
  }

  /** What is still to be replayed of the log as it was when last read. */
  ghost predicate PageOk(c: Conn, log: seq<Event>, page: seq<Event>, next: nat) {
    && next <= |page| <= MAX_REPLAY
    && c.attachedAt <= c.fetchedAt <= |log|
    && page[next..] <= NonCommands(log[..c.fetchedAt], c.cursor)
    && (|page| < MAX_REPLAY ==> page[next..] == NonCommands(log[..c.fetchedAt], c.cursor))
  }

  ghost predicate ReplayOk(c: Conn, log: seq<Event>) {
    && (c.phase.Paging? ==> PageOk(c, log, c.phase.page, c.phase.next))
    && (c.phase.DrainingPage? ==> PageOk(c, log, c.phase.page, c.phase.next))
    && (CaughtUp(c) ==> c.attachedAt <= c.fetchedAt <= |log| && NonCommands(log[..c.fetchedAt], c.cursor) == [])
  }

  /** The per-connection replay budget and the bound on the live buffer. */
  predicate BudgetOk(c: Conn) {
    && |c.pending| <= MAX_REPLAY_PER_CONN + 1
    && (c.phase != Closing && c.phase != Gone ==> |c.pending| <= MAX_REPLAY_PER_CONN)
    && c.replayed <= MAX_REPLAY_PER_CONN
    && (c.phase.Attaching? ==> c.replayed == 0)
    && (c.phase.Fetching? ==> c.replayed < MAX_REPLAY_PER_CONN && c.replayed % MAX_REPLAY == 0)
    && (c.phase.Paging? || c.phase.DrainingPage? ==>
          && c.phase.next <= c.replayed && c.phase.next <= |c.phase.page| <= MAX_REPLAY
          && c.replayed - c.phase.next < MAX_REPLAY_PER_CONN && (c.replayed - c.phase.next) % MAX_REPLAY == 0)
    && (CaughtUp(c) ==> c.replayed < MAX_REPLAY_PER_CONN)
  }

  ghost predicate ConnOk(c: Conn, log: seq<Event>) {
    WrittenOk(c, log) && QueueOk(c) && ReplayOk(c, log) && BudgetOk(c)
  }

  lemma NewConnOk(since: nat, startSeq: nat, previous: Option<ConnId>, log: seq<Event>)
    ensures ConnOk(NewConn(since, startSeq, previous, |log|), log)
  {
  }

  lemma BudgetKept(c: Conn, log: seq<Event>, m: Move)
    requires BudgetOk(c) && MoveEnabled(c, m)
    ensures BudgetOk(MoveConn(c, log, m))
  {
  }

  lemma QueueKeptByDrain(c: Conn, log: seq<Event>)
    requires QueueOk(c) && MoveEnabled(c, DrainOne)
    ensures QueueOk(MoveConn(c, log, DrainOne))
  {
    assert c.pending + c.outbox == (c.pending + [c.outbox[0]]) + c.outbox[1..];
  }

  lemma QueueKeptByLive(c: Conn, log: seq<Event>)
    requires QueueOk(c) && MoveEnabled(c, LiveFrame)
    ensures QueueOk(MoveConn(c, log, LiveFrame))
  {
    assert c.received[c.handled..][1..] == c.received[c.handled + 1..];
  }

  lemma QueueKept(c: Conn, log: seq<Event>, m: Move)
    requires QueueOk(c) && MoveEnabled(c, m)
    ensures QueueOk(MoveConn(c, log, m))
  {
    if m == DrainOne {
      QueueKeptByDrain(c, log);
    } else if m == LiveFrame {
      QueueKeptByLive(c, log);
    }
  }

  /** The frame about to be replayed is the first of what is left of the log. */
  lemma ReplayedFrame(c: Conn, log: seq<Event>)
    requires LogOk(log) && WrittenOk(c, log) && ReplayOk(c, log) && MoveEnabled(c, WriteReplayed)
    ensures var e := c.phase.page[c.phase.next];
            && NonCommands(log, c.cursor) != [] && NonCommands(log, c.cursor)[0] == e
            && NonCommands(log[..c.fetchedAt], c.cursor) != [] && NonCommands(log[..c.fetchedAt], c.cursor)[0] == e
  {
    NonCommandsPrefix(log[..c.fetchedAt], log, c.cursor);
    assert c.phase.page[c.phase.next] == c.phase.page[c.phase.next..][0];
  }

  lemma WrittenKeptByReplay(c: Conn, log: seq<Event>)
    requires LogOk(log) && ConnOk(c, log) && MoveEnabled(c, WriteReplayed)
    ensures WrittenOk(MoveConn(c, log, WriteReplayed), log)
  {
    ReplayedFrame(c, log);
    FirstNonCommand(log, c.cursor);
    ReplayNext(log, Floor(c), c.lastReplayed, c.cursor);
  }

  lemma NextFrameReceived(c: Conn)
    requires QueueOk(c) && HasFrame(c)
    ensures c.handled < |c.received| && c.received[c.handled] == NextFrame(c)
  {
    if c.phase == Live {
      assert c.received[c.handled..][0] == c.outbox[0];
    }
  }

  lemma WrittenKeptByFrame(c: Conn, log: seq<Event>)
    requires WrittenOk(c, log) && QueueOk(c) && HasFrame(c)
    ensures WrittenOk(Handle(c), log)
  {
    NextFrameReceived(c);
    AboveNext(c.received, c.handled, c.lastReplayed);
    var replayed, live := NonCommands(log[..c.lastReplayed], Floor(c)), Above(c.received[..c.handled], c.lastReplayed);
    assert (replayed + live) + [NextFrame(c)] == replayed + (live + [NextFrame(c)]);
    assert live + [] == live;
  }

  lemma WrittenKept(c: Conn, log: seq<Event>, m: Move)
    requires LogOk(log) && ConnOk(c, log) && MoveEnabled(c, m)
    ensures WrittenOk(MoveConn(c, log, m), log)
  {
    if m == WriteReplayed {
      WrittenKeptByReplay(c, log);
    } else if m == FlushFrame || m == LiveFrame {
      WrittenKeptByFrame(c, log);
    }
  }

  lemma ReplayKeptByReplay(c: Conn, log: seq<Event>)
    requires LogOk(log) && ConnOk(c, log) && MoveEnabled(c, WriteReplayed)
    ensures ReplayOk(MoveConn(c, log, WriteReplayed), log)
  {
    ReplayedFrame(c, log);
    FirstNonCommand(log[..c.fetchedAt], c.cursor);
    assert c.phase.page[c.phase.next..][1..] == c.phase.page[c.phase.next + 1..];
  }

  lemma ReplayKept(c: Conn, log: seq<Event>, m: Move)
    requires LogOk(log) && ConnOk(c, log) && MoveEnabled(c, m) && c.attachedAt <= |log|
    ensures ReplayOk(MoveConn(c, log, m), log)
  {
    match m {
      case WriteReplayed => ReplayKeptByReplay(c, log);
      case FetchPage => assert log[..|log|] == log;
      case _ =>
    }
  }

  /** Every move keeps the connection invariant. */
  lemma MoveKept(c: Conn, log: seq<Event>, m: Move)
    requires LogOk(log) && ConnOk(c, log) && MoveEnabled(c, m) && c.attachedAt <= |log|
    ensures ConnOk(MoveConn(c, log, m), log)
  {
    BudgetKept(c, log, m);
    QueueKept(c, log, m);
    WrittenKept(c, log, m);
    ReplayKept(c, log, m);
  }

  lemma LogGrown(c: Conn, log: seq<Event>, e: Event)
    requires ConnOk(c, log) && c.fetchedAt <= |log|
    ensures ConnOk(c, log + [e])
  {
    assert (log + [e])[..c.lastReplayed] == log[..c.lastReplayed];
    assert (log + [e])[..c.fetchedAt] == log[..c.fetchedAt];
  }

  lemma FrameQueued(c: Conn, log: seq<Event>, e: Event)
    requires ConnOk(c, log) && |c.outbox| < OUTBOX_DEPTH
    ensures ConnOk(c.(outbox := c.outbox + [e], received := c.received + [e]), log)
  {
    assert (c.received + [e])[..c.handled] == c.received[..c.handled];
    if c.phase == Live {
      assert (c.received + [e])[c.handled..] == c.received[c.handled..] + [e];
    }
  }
}
