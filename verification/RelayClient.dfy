/** The overlay client on top of the relay: it connects with the position of the
    last non-command event it processed, reads its connection's frames in order,
    and may lose the connection at any moment. */
module RelayClient {
  import opened Basics
  import opened Events
  import opened Relay
  import opened RelayInvariants
  import opened RelayConnections
  import opened RelaySafety
  import opened RelayOrder

  /** `position` is what it sends as `since`; `processed` is every frame acted on. */
  datatype Client = Client(position: nat, processed: seq<Event>, conn: Option<ConnId>, read: nat)

  datatype World = World(server: State, client: Client)

  /** Server steps include other connections attaching with any position. */
  datatype WorldAction = Server(a: Action) | Connect(k: ConnId) | Process | Lose

  const START: World := World(INITIAL, Client(0, [], None, 0))

  predicate CanRead(w: World) {
    && w.client.conn.Some? && w.client.conn.value in w.server.conns
    && w.client.read < |w.server.conns[w.client.conn.value].written|
  }

  predicate WorldEnabled(w: World, a: WorldAction, startSeq: nat) {
    match a
    case Server(b) => Enabled(w.server, b)
    case Connect(k) => Enabled(w.server, Attach(k, w.client.position, startSeq))
    case Process => CanRead(w)
    case Lose => true
  }

  function ProcessFrame(w: World): World
    requires CanRead(w)
  {
    var c := w.client;
    var e := w.server.conns[c.conn.value].written[c.read];
    w.(client := c.(read := c.read + 1, processed := c.processed + [e],
                    position := if e.kind == Command then c.position else e.seqNo))
  }

  function WorldApply(w: World, a: WorldAction, startSeq: nat): World
    requires WorldEnabled(w, a, startSeq)
  {
    match a
    case Server(b) => w.(server := Apply(w.server, b))
    case Connect(k) =>
      World(Apply(w.server, Attach(k, w.client.position, startSeq)), w.client.(conn := Some(k), read := 0))
    case Process => ProcessFrame(w)
    case Lose => w.(client := w.client.(conn := None))
  }

  ghost predicate IsWorldRun(trace: seq<World>, actions: seq<WorldAction>, startSeq: nat) {
    && |trace| == |actions| + 1
    && trace[0] == START
    && forall i :: 0 <= i < |actions| ==>
         WorldEnabled(trace[i], actions[i], startSeq) && trace[i + 1] == WorldApply(trace[i], actions[i], startSeq)
  }

  /** Every non-command event in the device's range up to a position was processed. */
  ghost predicate ProcessedUpTo(log: seq<Event>, processed: seq<Event>, startSeq: nat, position: nat) {
    forall e :: e in log && Replayable(e, startSeq) && e.seqNo <= position ==> e in processed
  }

  ghost predicate ConnectionRead(w: World, startSeq: nat, k: ConnId) {
    && k in w.server.conns
    && var c := w.server.conns[k];
    && c.startSeq == startSeq && c.since <= |w.server.log|
    && ProcessedUpTo(w.server.log, w.client.processed, startSeq, c.since)
    && w.client.read <= |c.written|
    && forall e :: e in c.written[..w.client.read] ==> e in w.client.processed
  }

  ghost predicate ClientOk(w: World, startSeq: nat) {
    && w.client.position <= |w.server.log|
    && ProcessedUpTo(w.server.log, w.client.processed, startSeq, w.client.position)
    && (w.client.conn.Some? ==> ConnectionRead(w, startSeq, w.client.conn.value))
  }

  /** A connection's wire and its starting point never change behind the client. */
  ghost predicate WireGrows(s: State, s': State, k: ConnId) {
    && k in s.conns && k in s'.conns
    && s.conns[k].written <= s'.conns[k].written
    && s'.conns[k].since == s.conns[k].since && s'.conns[k].startSeq == s.conns[k].startSeq
  }

  lemma WireGrowsBy(s: State, a: Action, k: ConnId)
    requires Enabled(s, a) && k in s.conns
    ensures WireGrows(s, Apply(s, a), k)
  {
    if a.Step? && a.k == k {
      assert s.conns[k].written <= MoveConn(s.conns[k], s.log, a.move).written;
    }
  }

  lemma ProcessedKept(log: seq<Event>, log': seq<Event>, processed: seq<Event>, startSeq: nat, position: nat)
    requires LogOk(log) && LogOk(log') && log <= log' && position <= |log|
    requires ProcessedUpTo(log, processed, startSeq, position)
    ensures ProcessedUpTo(log', processed, startSeq, position)
  {
    forall e | e in log' && Replayable(e, startSeq) && e.seqNo <= position ensures e in processed {
      assert e == log[e.seqNo - 1];
    }
  }

  lemma ClientKeptByServer(w: World, a: Action, startSeq: nat)
    requires Shape(w.server) && ClientOk(w, startSeq) && Enabled(w.server, a)
    ensures ClientOk(w.(server := Apply(w.server, a)), startSeq)
  {
    var s, s' := w.server, Apply(w.server, a);
    PushesAdvanceBy(s, a);
    ProcessedKept(s.log, s'.log, w.client.processed, startSeq, w.client.position);
    if w.client.conn.Some? {
      var k := w.client.conn.value;
      WireGrowsBy(s, a, k);
      ProcessedKept(s.log, s'.log, w.client.processed, startSeq, s.conns[k].since);
      assert s'.conns[k].written[..w.client.read] == s.conns[k].written[..w.client.read];
    }
  }

  /** In an increasing sequence, what comes before the end of a prefix is in it. */
  lemma BeforeIsInPrefix(before: seq<Event>, f: Event, whole: seq<Event>, e: Event)
    requires Increasing(whole) && before + [f] <= whole && e in whole && e.seqNo < f.seqNo
    ensures e in before
  {
    var j :| 0 <= j < |whole| && whole[j] == e;
    assert whole[|before|] == (before + [f])[|before|] == f;
    assert j < |before|;
    assert before[j] == (before + [f])[j] == whole[j];
  }

  /** In an ordered wire, everything replayable before the frame being read was
      written, hence read, before it. */
  lemma EarlierIsRead(s: State, k: ConnId, read: nat, e: Event)
    requires LogOk(s.log) && k in s.conns && WroteInOrder(s, k) && read < |s.conns[k].written|
    requires e in s.log && Replayable(e, Floor(s.conns[k]))
    requires var f := s.conns[k].written[read]; f.kind != Command && e.seqNo < f.seqNo
    ensures e in s.conns[k].written[..read]
  {
    var c := s.conns[k];
    var f, floor := c.written[read], Floor(c);
    assert c.written[..read + 1] == c.written[..read] + [f];
    NonCommandsSnoc(c.written[..read], f, floor);
    NonCommandsPrefix(c.written[..read + 1], c.written, floor);
    NonCommandsIncreasing(s.log, floor);
    NonCommandsMember(s.log, floor, e);
    BeforeIsInPrefix(NonCommands(c.written[..read], floor), f, NonCommands(s.log, floor), e);
    NonCommandsMember(c.written[..read], floor, e);
  }

  /** The frame being read is an event of the log. */
  lemma FrameIsLogged(s: State, k: ConnId, f: Event)
    requires Shape(s) && ReceivedOk(s) && k in s.conns && WrittenOk(s.conns[k], s.log) && f in s.conns[k].written
    ensures 0 < f.seqNo <= |s.log| && f == s.log[f.seqNo - 1]
  {
    WrittenSource(s.conns[k], s.log, f);
    if f in s.conns[k].received {
      assert ReceivedFrom(s, k, f);
    }
  }

  /** What the client relies on when it reads its next frame. */
  ghost predicate NextIsInOrder(s: State, k: ConnId, read: nat)
    requires k in s.conns && read < |s.conns[k].written|
  {
    var c := s.conns[k];
    var f := c.written[read];
    && 0 < f.seqNo <= |s.log| && f == s.log[f.seqNo - 1]
    && forall e :: e in s.log && Replayable(e, Floor(c)) && f.kind != Command && e.seqNo < f.seqNo ==> e in c.written[..read]
  }

  lemma NextIsInOrderBy(s: State, k: ConnId, read: nat)
    requires Inv(s) && k in s.conns && WroteInOrder(s, k) && read < |s.conns[k].written|
    ensures NextIsInOrder(s, k, read)
  {
    var c := s.conns[k];
    var f := c.written[read];
    FrameIsLogged(s, k, f);
    forall e | e in s.log && Replayable(e, Floor(c)) && f.kind != Command && e.seqNo < f.seqNo
      ensures e in c.written[..read]
    {
      EarlierIsRead(s, k, read, e);
    }
  }

  lemma ProcessedAfterFrame(w: World, startSeq: nat)
    requires LogOk(w.server.log) && ClientOk(w, startSeq) && CanRead(w)
    requires NextIsInOrder(w.server, w.client.conn.value, w.client.read)
    ensures ClientOk(ProcessFrame(w), startSeq)
  {
    var w' := ProcessFrame(w);
    var k, read := w.client.conn.value, w.client.read;
    var c := w.server.conns[k];
    assert c.written[..read + 1] == c.written[..read] + [c.written[read]];
    forall e | e in w.server.log && Replayable(e, startSeq) && e.seqNo <= w'.client.position
      ensures e in w'.client.processed
    {
      assert e.seqNo > c.since ==> Replayable(e, Floor(c));
      assert e == w.server.log[e.seqNo - 1];
    }
  }

  lemma WorldKept(w: World, a: WorldAction, startSeq: nat, via: Endpoint)
    requires WorldEnabled(w, a, startSeq) && OneLock(w.server, via)
    requires Inv(w.server) && Ordered(w.server) && ClientOk(w, startSeq)
    ensures var w' := WorldApply(w, a, startSeq); Inv(w'.server) && Ordered(w'.server) && ClientOk(w', startSeq)
  {
    match a {
      case Server(b) =>
        OrderedKept(w.server, b, via);
        ClientKeptByServer(w, b, startSeq);
      case Connect(k) =>
        OrderedKept(w.server, Attach(k, w.client.position, startSeq), via);
      case Process =>
        NextIsInOrderBy(w.server, w.client.conn.value, w.client.read);
        ProcessedAfterFrame(w, startSeq);
      case Lose =>
    }
  }

  lemma OneLockBeforeWorld(w: World, a: WorldAction, startSeq: nat, via: Endpoint)
    requires WorldEnabled(w, a, startSeq) && OneLock(WorldApply(w, a, startSeq).server, via)
    ensures OneLock(w.server, via)
  {
    match a {
      case Server(b) => OneLockBefore(w.server, b, via);
      case Connect(k) => OneLockBefore(w.server, Attach(k, w.client.position, startSeq), via);
      case _ =>
    }
  }

  lemma {:induction false} ClientOnRuns(trace: seq<World>, actions: seq<WorldAction>, startSeq: nat, n: nat, via: Endpoint)
    requires IsWorldRun(trace, actions, startSeq) && n < |trace| && OneLock(trace[n].server, via)
    ensures Inv(trace[n].server) && Ordered(trace[n].server) && ClientOk(trace[n], startSeq)
  {
    if n > 0 {
      OneLockBeforeWorld(trace[n - 1], actions[n - 1], startSeq, via);
      ClientOnRuns(trace, actions, startSeq, n - 1, via);
      WorldKept(trace[n - 1], actions[n - 1], startSeq, via);
    }
  }

  /** No loss across reconnects: at every moment of every run, whatever
      disconnects, displacements, overflows and budget closes happened, the
      client has processed every non-command event between its device's start and
      the position it would reconnect with. */
  lemma NoLoss(trace: seq<World>, actions: seq<WorldAction>, startSeq: nat, n: nat, via: Endpoint, e: Event)
    requires IsWorldRun(trace, actions, startSeq) && n < |trace| && OneLock(trace[n].server, via)
    requires e in trace[n].server.log && e.kind != Command && startSeq < e.seqNo <= trace[n].client.position
    ensures e in trace[n].client.processed
  {
    ClientOnRuns(trace, actions, startSeq, n, via);
  }

  /** Nothing is in the way of delivery: attached, streaming, queues empty, and
      no push under way. */
  predicate Settled(s: State, k: ConnId) {
    && s.registered == Some(k) && k in s.conns
    && var c := s.conns[k];
    && !c.cancelled && c.phase == Live && c.outbox == []
    && forall i :: 0 <= i < |s.pushes| ==> !Unfinished(s.pushes[i])
  }

  lemma PrefixComplete(part: seq<Event>, whole: seq<Event>)
    requires part <= whole && Increasing(whole) && forall x :: x in whole ==> x in part
    ensures part == whole
  {
    if whole != [] {
      var last := whole[|whole| - 1];
      assert last in part;
      var p :| 0 <= p < |part| && part[p] == last;
      assert whole[p] == last;
    }
  }

  lemma SettledWire(s: State, k: ConnId)
    requires Inv(s) && Settled(s, k) && WroteInOrder(s, k)
    ensures NonCommands(s.conns[k].written, Floor(s.conns[k])) == NonCommands(s.log, Floor(s.conns[k]))
  {
    var c := s.conns[k];
    var part, whole := NonCommands(c.written, Floor(c)), NonCommands(s.log, Floor(c));
    NonCommandsIncreasing(s.log, Floor(c));
    forall x | x in whole ensures x in part {
      NonCommandsMember(s.log, Floor(c), x);
      Coverage(s, k, x);
      NonCommandsMember(c.written, Floor(c), x);
    }
    PrefixComplete(part, whole);
  }

  /** Once settled, the wire holds the whole log above the floor, in order. */
  lemma SettledIsComplete(trace: seq<State>, actions: seq<Action>, n: nat, via: Endpoint, k: ConnId)
    requires IsRun(trace, actions) && n < |trace| && OneLock(trace[n], via) && Settled(trace[n], k)
    ensures var s := trace[n];
            NonCommands(s.conns[k].written, Floor(s.conns[k])) == NonCommands(s.log, Floor(s.conns[k]))
  {
    OrderedOnRuns(trace, actions, n, via);
    SettledWire(trace[n], k);
  }

  /** A client that has read a settled connection to its end has processed every
      non-command event of its device's range. */
  lemma SettledClientHasAll(trace: seq<World>, actions: seq<WorldAction>, startSeq: nat, n: nat, via: Endpoint, k: ConnId, e: Event)
    requires IsWorldRun(trace, actions, startSeq) && n < |trace| && OneLock(trace[n].server, via)
    requires var w := trace[n];
             Settled(w.server, k) && w.client.conn == Some(k) && w.client.read == |w.server.conns[k].written|
    requires e in trace[n].server.log && e.kind != Command && startSeq < e.seqNo
    ensures e in trace[n].client.processed
  {
    ClientOnRuns(trace, actions, startSeq, n, via);
    var s := trace[n].server;
    var c := s.conns[k];
    if e.seqNo > c.since {
      Coverage(s, k, e);
      assert c.written[..|c.written|] == c.written;
    }
  }
}
