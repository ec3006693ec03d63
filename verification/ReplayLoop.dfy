/** The connection handler's replay, drain and flush loops, run against a log that
    other requests may extend between page reads and an outbox they may fill. Each
    step of the loops is mirrored by a step of the relay machine's connection. */
module ReplayLoop {
  import opened Basics
  import opened Events
  import opened Relay

  datatype Outcome = Ready | BudgetReached | Overloaded | WriteFailed

  /** Frames that reached the outbox up to the n-th drain. */
  function Arrived(arrivals: nat -> seq<Event>, n: nat): seq<Event> {
    if n == 0 then [] else Arrived(arrivals, n - 1) + arrivals(n - 1)
  }

  /** What happens to one connection of the relay machine: a move of its handler,
      with the log as it then is, or a frame offered to its outbox. */
  datatype Act = Do(move: Move, log: seq<Event>) | Offered(frame: Event)

  predicate ActEnabled(c: Conn, a: Act) {
    match a
    case Do(m, _) => MoveEnabled(c, m)
    case Offered(_) => |c.outbox| < OUTBOX_DEPTH
  }

  function ActApply(c: Conn, a: Act): Conn
    requires ActEnabled(c, a)
  {
    match a
    case Do(m, log) => MoveConn(c, log, m)
    case Offered(f) => c.(outbox := c.outbox + [f], received := c.received + [f])
  }

  /** An act is what a step of the whole machine does to the connection. */
  lemma ActIsStep(s: State, k: ConnId, m: Move, r: RequestId)
    requires k in s.conns
    ensures Enabled(s, Step(k, m)) ==>
              ActEnabled(s.conns[k], Do(m, s.log)) && Apply(s, Step(k, m)).conns[k] == ActApply(s.conns[k], Do(m, s.log))
    ensures Enabled(s, Offer(r)) && PushOf(s, r) == LookedUp(k) && |s.conns[k].outbox| < OUTBOX_DEPTH ==>
              var f := s.log[s.requests[r].progress.seqNo - 1];
              ActEnabled(s.conns[k], Offered(f)) && Apply(s, Offer(r)).conns[k] == ActApply(s.conns[k], Offered(f))
  {
  }

  predicate ActStep(c: Conn, a: Act, c': Conn) {
    ActEnabled(c, a) && c' == ActApply(c, a)
  }

  /** A path of the machine's connection: each act is enabled in its turn. */
  ghost predicate IsPath(path: seq<Conn>, acts: seq<Act>) {
    && |path| == |acts| + 1
    && forall i :: 0 <= i < |acts| ==> ActStep(path[i], acts[i], path[i + 1])
  }

  ghost predicate Leads(from: Conn, path: seq<Conn>, acts: seq<Act>, to: Conn) {
    IsPath(path, acts) && path[0] == from && path[|acts|] == to
  }

  lemma LeadsOneMore(from: Conn, path: seq<Conn>, acts: seq<Act>, to: Conn, a: Act)
    requires Leads(from, path, acts, to) && ActEnabled(to, a)
    ensures Leads(from, path + [ActApply(to, a)], acts + [a], ActApply(to, a))
  {
    var longer, more := path + [ActApply(to, a)], acts + [a];
    forall i | 0 <= i < |more| ensures ActStep(longer[i], more[i], longer[i + 1]) {
      assert i < |acts| ==> ActStep(path[i], acts[i], path[i + 1]);
    }
  }

  /** No more frames arrive between two drains than an outbox holds. */
  ghost predicate Bounded(arrivals: nat -> seq<Event>) {
    forall n: nat :: |arrivals(n)| <= OUTBOX_DEPTH
  }

  /** Where a page leaves the machine's connection. */
  function PhaseAfterPage(o: Outcome, last: bool, replayed: nat): Phase {
    if o != Ready then Closing
    else if last then Greeting
    else if replayed >= MAX_REPLAY_PER_CONN then Closing
    else Fetching
  }

  function PhaseAfterTurn(o: Outcome, more: bool): Phase {
    if more then Fetching else if o == Ready then DrainingReady else Closing
  }

  /** The machine's connection is about to write this frame of its page. */
  predicate AtFrame(c: Conn, e: Event) {
    c.phase.Paging? && c.phase.next < |c.phase.page| && c.phase.page[c.phase.next] == e
  }

  class Session {
    var cursor: nat
    var lastReplayed: nat
    var replayed: nat
    var pending: seq<Event>
    var outbox: seq<Event>
    var sent: seq<Event>
    ghost const start: Conn
    ghost var path: seq<Conn>
    ghost var acts: seq<Act>
    ghost var conn: Conn
    ghost const mirrored: bool

    /** `conn` is the machine's connection in this session's state, reached from
        `start` along `path`. Only a session whose arrivals fit an outbox has one. */
    ghost predicate Mirrors()
      reads this
    {
      mirrored ==>
        && Leads(start, path, acts, conn) && !conn.cancelled
        && conn.cursor == cursor && conn.lastReplayed == lastReplayed && conn.replayed == replayed
        && conn.pending == pending && conn.outbox == outbox && conn.written == sent
    }

    /** The machine's connection, attached and about to read its first page. */
    constructor (since: nat, startSeq: nat, ghost logLength: nat, ghost mirrored: bool)
      ensures cursor == Max(since, startSeq) && lastReplayed == 0 && replayed == 0
      ensures pending == [] && outbox == [] && sent == []
      ensures start == NewConn(since, startSeq, None, logLength).(phase := Fetching)
      ensures Mirrors() && this.mirrored == mirrored && conn == start
    {
      cursor := if startSeq > since then startSeq else since;
      lastReplayed, replayed, pending, outbox, sent := 0, 0, [], [], [];
      start := NewConn(since, startSeq, None, logLength).(phase := Fetching);
      acts, conn := [], NewConn(since, startSeq, None, logLength).(phase := Fetching);
      path := [NewConn(since, startSeq, None, logLength).(phase := Fetching)];
      this.mirrored := mirrored;
    }

    ghost method Mirror(a: Act)
      requires mirrored ==> Leads(start, path, acts, conn) && ActEnabled(conn, a)
      modifies this`path, this`acts, this`conn
      ensures mirrored ==> conn == ActApply(old(conn), a) && Leads(start, path, acts, conn)
    {
      if mirrored {
        LeadsOneMore(start, path, acts, conn, a);
        path, acts, conn := path + [ActApply(conn, a)], acts + [a], ActApply(conn, a);
      }
    }

    /** Frames reach the outbox, one offer each. */
    ghost method MirrorArrival(frames: seq<Event>)
      requires mirrored ==> Leads(start, path, acts, conn) && conn.outbox == [] && |frames| <= OUTBOX_DEPTH
      modifies this`path, this`acts, this`conn
      ensures mirrored ==> Leads(start, path, acts, conn)
                           && conn == old(conn).(outbox := frames, received := old(conn).received + frames)
    {
      var i := 0;
      while i < |frames|
        invariant 0 <= i <= |frames|
        invariant mirrored ==> Leads(start, path, acts, conn)
                               && conn == old(conn).(outbox := frames[..i], received := old(conn).received + frames[..i])
      {
        Mirror(Offered(frames[i]));
        assert frames[..i + 1] == frames[..i] + [frames[i]];
        assert old(conn).received + frames[..i + 1] == (old(conn).received + frames[..i]) + [frames[i]];
        i := i + 1;
      }
      assert frames[..i] == frames;
    }

    /** Moves what the outbox holds into the buffer, unless the buffer overflows. */
    method DrainOutbox() returns (ok: bool)
      requires |pending| <= MAX_REPLAY_PER_CONN && Mirrors() && (mirrored ==> Draining(conn))
      modifies this`pending, this`outbox, this`path, this`acts, this`conn
      ensures Mirrors() && (mirrored ==> conn.handled == old(conn).handled && conn.received == old(conn).received
                                         && conn.phase == if ok then old(conn).phase else Closing)
      ensures pending + outbox == old(pending + outbox)
      ensures ok ==> outbox == [] && |pending| <= 5000
      ensures !ok ==> |pending| == 5001
      ensures ok <==> |old(pending)| + |old(outbox)| <= 5000
    {
      while outbox != []
        invariant pending + outbox == old(pending + outbox)
        invariant |pending| <= MAX_REPLAY_PER_CONN
        invariant Mirrors() && (mirrored ==> conn.handled == old(conn).handled && conn.received == old(conn).received
                                             && conn.phase == old(conn).phase)
        decreases |outbox|
      {
        Mirror(Do(DrainOne, []));
        var frame := outbox[0];
        pending := pending + [frame];
        outbox := outbox[1..];
        if |pending| > MAX_REPLAY_PER_CONN {
          return false;
        }
      }
      ok := true;
    }

    ghost predicate Replayed(log: seq<Event>, floor: nat)
      reads this
    {
      && lastReplayed <= |log| && floor <= cursor
      && cursor == (if lastReplayed == 0 then floor else lastReplayed)
      && sent == NonCommands(log[..lastReplayed], floor) && replayed == |sent|
    }

    /** A longer log does not change what has been replayed of it. */
    lemma ReplayedOfLonger(log: seq<Event>, longer: seq<Event>, floor: nat)
      requires Replayed(log, floor) && log <= longer
      ensures Replayed(longer, floor)
    {
      assert longer[..lastReplayed] == log[..lastReplayed];
    }

    /** One replayed frame goes out and both positions advance to it. */
    method WriteReplayed(ghost log: seq<Event>, ghost floor: nat, e: Event)
      requires LogOk(log) && Replayed(log, floor) && NonCommands(log, cursor) != [] && NonCommands(log, cursor)[0] == e
      requires Mirrors() && (mirrored ==> AtFrame(conn, e))
      modifies this`sent, this`cursor, this`lastReplayed, this`replayed, this`path, this`acts, this`conn
      ensures Mirrors() && (mirrored ==> conn.handled == old(conn).handled
                                         && conn.phase == DrainingPage(old(conn).phase.page, old(conn).phase.next + 1))
      ensures Replayed(log, floor) && replayed == old(replayed) + 1
      ensures NonCommands(log, cursor) == NonCommands(log, old(cursor))[1..]
    {
      FirstNonCommand(log, cursor);
      ReplayNext(log, floor, lastReplayed, cursor);
      Mirror(Do(Move.WriteReplayed, log));
      sent := sent + [e];
      cursor := e.seqNo;
      lastReplayed := e.seqNo;
      replayed := replayed + 1;
    }

    /** With nothing left above the cursor, the whole log above the floor was sent. */
    lemma AllReplayed(log: seq<Event>, floor: nat)
      requires LogOk(log) && Replayed(log, floor) && NonCommands(log, cursor) == []
      ensures sent == NonCommands(log, floor)
    {
      var front, after := log[..lastReplayed], log[lastReplayed..];
      assert log == front + after;
      forall e | e in after ensures !Replayable(e, floor) {
        NonCommandsMember(log, cursor, e);
      }
      NothingAfter(front, after, floor);
    }

    /** Frames reach the outbox. */
    method Arrive(frames: seq<Event>)
      requires Mirrors() && (mirrored ==> outbox == [] && |frames| <= OUTBOX_DEPTH)
      modifies this`outbox, this`path, this`acts, this`conn
      ensures Mirrors() && outbox == old(outbox) + frames
      ensures mirrored ==> conn.handled == old(conn).handled && conn.phase == old(conn).phase
    {
      MirrorArrival(frames);
      outbox := outbox + frames;
    }

    /** One replayed frame, then a drain of whatever arrived meanwhile. */
    method WriteAndDrain(ghost log: seq<Event>, ghost floor: nat, e: Event, arrivals: nat -> seq<Event>) returns (ok: bool)
      requires LogOk(log) && Replayed(log, floor) && NonCommands(log, cursor) != [] && NonCommands(log, cursor)[0] == e
      requires |pending| <= MAX_REPLAY_PER_CONN && pending + outbox == Arrived(arrivals, replayed) && outbox == []
      requires Mirrors() && (mirrored ==> AtFrame(conn, e) && Bounded(arrivals))
      modifies this
      ensures Mirrors()
      ensures mirrored ==>
                && conn.handled == old(conn).handled
                && conn.phase == if ok then Paging(old(conn).phase.page, old(conn).phase.next + 1) else Closing
      ensures ok ==> outbox == []
      ensures Replayed(log, floor) && replayed == old(replayed) + 1
      ensures NonCommands(log, cursor) == NonCommands(log, old(cursor))[1..]
      ensures pending + outbox == Arrived(arrivals, replayed)
      ensures if ok then |pending| <= MAX_REPLAY_PER_CONN else |Arrived(arrivals, replayed)| > MAX_REPLAY_PER_CONN
    {
      WriteReplayed(log, floor, e);
      Arrive(arrivals(replayed - 1));
      ok := DrainOutbox();
      if ok {
        Mirror(Do(DrainDone, []));
      }
    }

    /** Writes one page. */
    method WritePage(ghost log: seq<Event>, ghost floor: nat, page: seq<Event>, arrivals: nat -> seq<Event>, alive: nat)
        returns (o: Outcome)
      requires LogOk(log) && Replayed(log, floor) && page == EventsAfter(log, cursor, MAX_REPLAY)
      requires |pending| <= MAX_REPLAY_PER_CONN && replayed <= alive && outbox == []
      requires pending + outbox == Arrived(arrivals, replayed)
      requires Mirrors() && (mirrored ==> conn.phase == Paging(page, 0) && conn.handled == 0 && Bounded(arrivals))
      modifies this
      ensures Mirrors()
      ensures mirrored ==> conn.handled == 0 && conn.phase == if o == Ready then Paging(page, |page|) else Closing
      ensures o == Ready ==> outbox == []
      ensures Replayed(log, floor) && pending + outbox == Arrived(arrivals, replayed)
      ensures o == Ready ==> replayed == old(replayed) + |page| && |pending| <= MAX_REPLAY_PER_CONN && replayed <= alive
      ensures o == Ready && |page| < MAX_REPLAY ==> NonCommands(log, cursor) == []
      ensures o == WriteFailed ==> replayed == alive
      ensures o == Overloaded ==> |Arrived(arrivals, replayed)| > MAX_REPLAY_PER_CONN
      ensures o != BudgetReached && replayed <= old(replayed) + |page|
    {
      var i := 0;
      ghost var rest := NonCommands(log, cursor);
      while i < |page|
        invariant 0 <= i <= |page| && replayed == old(replayed) + i
        invariant Replayed(log, floor) && NonCommands(log, cursor) == rest[i..]
        invariant |pending| <= MAX_REPLAY_PER_CONN && replayed <= alive && outbox == []
        invariant pending + outbox == Arrived(arrivals, replayed)
        invariant Mirrors()
        invariant mirrored ==> conn.phase == Paging(page, i) && conn.handled == 0
      {
        if replayed >= alive {
          Mirror(Do(Abort, log));
          return WriteFailed;
        }
        var ok := WriteAndDrain(log, floor, page[i], arrivals);
        if !ok {
          return Overloaded;
        }
        i := i + 1;
      }
      o := Ready;
    }

    /** Reads the next page of this view of the log and writes it; `last` says the
        page was short, so that nothing is left to read. */
    method ReplayPage(view: seq<Event>, ghost floor: nat, arrivals: nat -> seq<Event>, alive: nat)
        returns (o: Outcome, last: bool)
      requires LogOk(view) && Replayed(view, floor)
      requires |pending| <= MAX_REPLAY_PER_CONN && replayed <= alive && outbox == []
      requires pending + outbox == Arrived(arrivals, replayed)
      requires Mirrors() && (mirrored ==> conn.phase == Fetching && conn.handled == 0 && Bounded(arrivals))
      modifies this
      ensures Mirrors()
      ensures mirrored ==> conn.handled == 0 && conn.phase == PhaseAfterPage(o, last, replayed)
      ensures o == Ready ==> outbox == []
      ensures Replayed(view, floor) && pending + outbox == Arrived(arrivals, replayed)
      ensures sent <= NonCommands(view, floor) && replayed <= old(replayed) + MAX_REPLAY
      ensures o == Ready ==> |pending| <= MAX_REPLAY_PER_CONN && replayed <= alive
      ensures o == Ready && last ==> sent == NonCommands(view, floor) && replayed < old(replayed) + MAX_REPLAY
      ensures o == Ready && !last ==> replayed == old(replayed) + MAX_REPLAY
      ensures o == WriteFailed ==> replayed == alive
      ensures o == Overloaded ==> |Arrived(arrivals, replayed)| > MAX_REPLAY_PER_CONN
      ensures o != BudgetReached
    {
      var page := EventsAfter(view, cursor, MAX_REPLAY);
      Mirror(Do(FetchPage, view));
      o := WritePage(view, floor, page, arrivals, alive);
      last := |page| < MAX_REPLAY;
      if o == Ready {
        Mirror(Do(PageDone, view));
      }
      NonCommandsPrefix(view[..lastReplayed], view, floor);
      if o == Ready && last {
        AllReplayed(view, floor);
      }
    }

    /** One turn of the replay loop: a page, then `ready` after a short one, or an end
        to the connection once the budget is spent. */
    method Turn(view: seq<Event>, ghost floor: nat, arrivals: nat -> seq<Event>, alive: nat)
        returns (o: Outcome, more: bool)
      requires LogOk(view) && Replayed(view, floor) && replayed < MAX_REPLAY_PER_CONN && replayed % MAX_REPLAY == 0
      requires |pending| <= MAX_REPLAY_PER_CONN && replayed <= alive && outbox == []
      requires pending + outbox == Arrived(arrivals, replayed)
      requires Mirrors() && (mirrored ==> conn.phase == Fetching && conn.handled == 0 && Bounded(arrivals))
      modifies this
      ensures Replayed(view, floor) && pending + outbox == Arrived(arrivals, replayed)
      ensures sent <= NonCommands(view, floor) && replayed <= MAX_REPLAY_PER_CONN
      ensures Mirrors() && (mirrored ==> conn.handled == 0 && conn.phase == PhaseAfterTurn(o, more))
      ensures more ==> replayed == old(replayed) + MAX_REPLAY < MAX_REPLAY_PER_CONN && replayed <= alive
      ensures more || o == Ready ==> outbox == [] && |pending| <= MAX_REPLAY_PER_CONN
      ensures !more && o == Ready ==> sent == NonCommands(view, floor) && replayed < MAX_REPLAY_PER_CONN
      ensures !more && o == BudgetReached ==> replayed == MAX_REPLAY_PER_CONN
      ensures !more && o == WriteFailed ==> replayed == alive
      ensures !more && o == Overloaded ==> |Arrived(arrivals, replayed)| > MAX_REPLAY_PER_CONN
    {
      var short;
      o, short := ReplayPage(view, floor, arrivals, alive);
      more := false;
      if o == Ready && short {
        if replayed >= alive {
          Mirror(Do(Abort, view));
          o := WriteFailed;
        } else {
          Mirror(Do(WriteReady, view));
        }
      } else if o == Ready && replayed >= MAX_REPLAY_PER_CONN {
        o := BudgetReached;
      } else if o == Ready {
        more := true;
      }
    }

    /** The replay loop. `views(n)` is the log as the n-th page read sees it, and
        `alive` is how many frames can be written before the peer goes away. */
    method Replay(views: nat -> seq<Event>, arrivals: nat -> seq<Event>, alive: nat)
        returns (o: Outcome, ghost last: nat)
      requires forall n: nat :: LogOk(views(n)) && views(n) <= views(n + 1)
      requires lastReplayed == 0 && replayed == 0 && pending == [] && outbox == [] && sent == []
      requires Mirrors() && (mirrored ==> conn.phase == Fetching && conn.handled == 0 && Bounded(arrivals))
      modifies this
      ensures Mirrors() && (mirrored ==> conn.handled == 0 && conn.phase == if o == Ready then DrainingReady else Closing)
      ensures o == Ready ==> outbox == [] && |pending| <= 5000
      ensures Replayed(views(last), old(cursor)) && replayed <= 5000
      ensures pending + outbox == Arrived(arrivals, replayed)
      ensures o == Ready ==> sent == NonCommands(views(last), old(cursor)) && replayed < 5000
      ensures o == BudgetReached ==> replayed == 5000
      ensures o == WriteFailed ==> replayed == alive
      ensures o == Overloaded ==> |Arrived(arrivals, replayed)| > 5000
      ensures sent <= NonCommands(views(last), old(cursor))
    {
      last := 0;
      ghost var floor := cursor;
      var n := 0;
      var more := true;
      while true
        invariant last <= n && replayed < MAX_REPLAY_PER_CONN && replayed % MAX_REPLAY == 0
        invariant Replayed(views(n), floor) && replayed <= alive
        invariant |pending| <= MAX_REPLAY_PER_CONN && pending + outbox == Arrived(arrivals, replayed) && outbox == []
        invariant Mirrors() && (mirrored ==> conn.phase == Fetching && conn.handled == 0)
        decreases MAX_REPLAY_PER_CONN - replayed
      {
        last := n;
        o, more := Turn(views(n), floor, arrivals, alive);
        if !more {
          return;
        }
        ReplayedOfLonger(views(n), views(n + 1), floor);
        n := n + 1;
      }
    }

    /** One buffered frame: written unless the replay covered it. */
    method FlushOne(ghost i: nat, frame: Event)
      requires i < |pending| && pending[i] == frame && Mirrors() && (mirrored ==> conn.phase == Flushing && conn.handled == i)
      modifies this`sent, this`path, this`acts, this`conn
      ensures Mirrors() && (mirrored ==> conn.phase == Flushing && conn.handled == i + 1)
      ensures sent == old(sent) + if frame.seqNo > lastReplayed then [frame] else []
    {
      Mirror(Do(FlushFrame, []));
      if frame.seqNo > lastReplayed {
        sent := sent + [frame];
      }
    }

    /** The buffered frames the replay did not cover, in order. */
    method FlushPending(alive: nat) returns (o: Outcome)
      requires Mirrors() && (mirrored ==> conn.phase == Flushing && conn.handled == 0)
      modifies this`sent, this`path, this`acts, this`conn
      ensures Mirrors() && (mirrored ==> conn.phase == if o == Ready then Live else Closing)
      ensures o == Ready ==> sent == old(sent) + Above(pending, lastReplayed)
      ensures o == WriteFailed ==> |sent| == |old(sent)| + alive && sent <= old(sent) + Above(pending, lastReplayed)
      ensures o == Ready || o == WriteFailed
    {
      ghost var before := sent;
      var i, room := 0, alive;
      while i < |pending|
        invariant 0 <= i <= |pending| && sent == before + Above(pending[..i], lastReplayed)
        invariant 0 <= room && |sent| + room == |before| + alive
        invariant Mirrors() && (mirrored ==> conn.phase == Flushing && conn.handled == i)
      {
        FlushedSoFar(before, pending, i, lastReplayed);
        if pending[i].seqNo > lastReplayed {
          if room == 0 {
            Mirror(Do(Abort, []));
            return WriteFailed;
          }
          room := room - 1;
        }
        FlushOne(i, pending[i]);
        i := i + 1;
      }
      FlushedSoFar(before, pending, i, lastReplayed);
      Mirror(Do(FlushDone, []));
      o := Ready;
    }

    /** After `ready`: one more drain, then the buffered frames the replay did not cover. */
    method Flush(late: seq<Event>, alive: nat) returns (o: Outcome)
      requires |pending| <= MAX_REPLAY_PER_CONN && outbox == []
      requires Mirrors() && (mirrored ==> conn.phase == DrainingReady && conn.handled == 0 && |late| <= OUTBOX_DEPTH)
      modifies this`pending, this`outbox, this`sent, this`path, this`acts, this`conn
      ensures Mirrors() && (mirrored ==> conn.phase == if o == Ready then Live else Closing)
      ensures pending + outbox == old(pending) + late
      ensures o == Ready ==> pending == old(pending) + late && sent == old(sent) + Above(pending, lastReplayed)
      ensures o == WriteFailed ==> |sent| == |old(sent)| + alive && sent <= old(sent) + Above(old(pending) + late, lastReplayed)
      ensures o == Overloaded ==> sent == old(sent) && |old(pending) + late| > 5000
      ensures o != BudgetReached
    {
      Arrive(late);
      assert outbox == late;
      var ok := DrainOutbox();
      if !ok {
        return Overloaded;
      }
      assert pending == old(pending) + late;
      Mirror(Do(DrainDone, []));
      o := FlushPending(alive);
    }
  }

  lemma NothingAfter(front: seq<Event>, after: seq<Event>, floor: nat)
    requires forall e :: e in after ==> !Replayable(e, floor)
    ensures NonCommands(front + after, floor) == NonCommands(front, floor)
  {
    NonCommandsConcat(front, after, floor);
    NonCommandsNone(after, floor);
    var sent := NonCommands(front, floor);
    assert sent + [] == sent;
  }

  /** Handling part of a buffer writes part of what handling all of it writes. */
  lemma FlushedSoFar(before: seq<Event>, pending: seq<Event>, i: nat, position: nat)
    requires i <= |pending|
    ensures before + Above(pending[..i], position) <= before + Above(pending, position)
    ensures i < |pending| ==>
              before + Above(pending[..i + 1], position)
              == before + Above(pending[..i], position) + if pending[i].seqNo > position then [pending[i]] else []
    ensures i == |pending| ==> pending[..i] == pending
  {
    AbovePrefix(pending[..i], pending, position);
    if i < |pending| {
      AboveNext(pending, i, position);
    }
  }

  lemma {:induction false} NothingArrives(arrivals: nat -> seq<Event>, n: nat)
    requires forall i: nat :: arrivals(i) == []
    ensures Arrived(arrivals, n) == []
  {
    if n > 0 {
      NothingArrives(arrivals, n - 1);
    }
  }

  lemma ContinuedAt(front: seq<Event>, after: seq<Event>, floor: nat, position: nat)
    requires floor <= position
    requires forall e :: e in front ==> e.seqNo <= position
    requires forall e :: e in after ==> e.seqNo > position
    ensures NonCommands(front + after, floor) == NonCommands(front, floor) + NonCommands(front + after, position)
  {
    NonCommandsConcat(front, after, floor);
    NonCommandsConcat(front, after, position);
    NonCommandsNone(front, position);
    NonCommandsSame(after, floor, position);
    var rest := NonCommands(after, position);
    assert [] + rest == rest;
  }

  /** Replay continued on the next connection picks up exactly where the last stopped. */
  lemma Continued(log: seq<Event>, floor: nat, position: nat)
    requires LogOk(log) && position <= |log| && floor <= position
    ensures NonCommands(log, floor) == NonCommands(log[..position], floor) + NonCommands(log, position)
  {
    assert log == log[..position] + log[position..];
    ContinuedAt(log[..position], log[position..], floor, position);
  }

  /** One connection over a log that stands still: it delivers everything above the
      floor, or a full budget of it and leaves the rest for the next position. */
  method Connect(log: seq<Event>, since: nat, startSeq: nat) returns (sent: seq<Event>, position: nat, complete: bool)
    requires LogOk(log)
    ensures complete ==> sent == NonCommands(log, Max(since, startSeq)) && |sent| < 5000
    ensures !complete ==> |sent| == 5000 && position >= startSeq
                          && NonCommands(log, Max(since, startSeq)) == sent + NonCommands(log, position)
  {
    var session := new Session(since, startSeq, |log|, true);
    var still: nat -> seq<Event>, quiet: nat -> seq<Event> := (n: nat) => log, (n: nat) => [];
    var o, last := session.Replay(still, quiet, MAX_REPLAY_PER_CONN + 1);
    NothingArrives(quiet, session.replayed);
    sent, position, complete := session.sent, session.cursor, o == Ready;
    if !complete {
      Continued(log, Max(since, startSeq), position);
    }
  }

  /** A client reconnecting with its advanced position works through any static
      backlog of N events, in order and without repetition, in N / 5000 + 1
      connections. */
  method CatchUp(log: seq<Event>, since: nat, startSeq: nat) returns (delivered: seq<Event>, connections: nat)
    requires LogOk(log)
    ensures delivered == NonCommands(log, Max(since, startSeq))
    ensures connections == |delivered| / 5000 + 1
  {
    var position, complete := since, false;
    delivered, connections := [], 0;
    ghost var rest := NonCommands(log, Max(since, startSeq));
    while !complete
      invariant complete ==> rest == [] && connections > 0
                             && (connections - 1) * MAX_REPLAY_PER_CONN <= |delivered| < connections * MAX_REPLAY_PER_CONN
      invariant !complete ==> rest == NonCommands(log, Max(position, startSeq)) && |delivered| == connections * MAX_REPLAY_PER_CONN
      invariant delivered + rest == NonCommands(log, Max(since, startSeq))
      decreases !complete, |rest|
    {
      var sent;
      sent, position, complete := Connect(log, position, startSeq);
      connections := connections + 1;
      MoveOver(delivered, sent, rest);
      delivered := delivered + sent;
      rest := rest[|sent|..];
    }
    Quotient(|delivered|, connections - 1);
  }

  lemma MoveOver(front: seq<Event>, sent: seq<Event>, rest: seq<Event>)
    requires sent <= rest
    ensures front + rest == (front + sent) + rest[|sent|..]
  {
  }

  lemma Quotient(n: nat, q: nat)
    requires q * MAX_REPLAY_PER_CONN <= n < (q + 1) * MAX_REPLAY_PER_CONN
    ensures n / MAX_REPLAY_PER_CONN == q
  {
  }
}
