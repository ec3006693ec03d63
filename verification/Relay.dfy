/** The overlay relay of one broadcaster as a step machine: webhook, extension
    and dispatch requests append to the durable log and push to the attached
    connection; each connection replays the log and then streams its outbox.
    Every step is one atomic action of one goroutine, so a run is any
    interleaving of requests, connections and peers going away. */
module Relay {
  import opened Basics
  import opened Events

  const MAX_REPLAY_PER_CONN: nat := 5000

  type RequestId = nat
  type ConnId = nat

  // ---------------------------------------------------------------- requests

  datatype Endpoint = EventSub | Panel | Dispatch

  /** Where a request stands: waiting for its endpoint's ingest lock, past it,
      pushing the event it appended, done pushing, or returned. */
  datatype Progress = Waiting | Entered | Pushing(seqNo: nat) | Finished | Returned

  datatype Request = Request(endpoint: Endpoint, id: MessageId, kind: Kind, payload: string, progress: Progress)

  /** What each endpoint may append. */
  predicate KindAllowed(endpoint: Endpoint, kind: Kind) {
    match endpoint
    case EventSub => kind in {Cheer, Redemption, PowerUp}
    case Panel => kind == Extension
    case Dispatch => kind == Command
  }

  /** How far the push of one committed event has got: not started, connection
      looked up, found its outbox full, queued, dropped, or nobody attached. */
  datatype Push = NotPushed | LookedUp(conn: ConnId) | Overflowing(conn: ConnId)
                | Queued(conn: ConnId) | Dropped(conn: ConnId) | Unattached

  predicate Unfinished(p: Push) {
    p.NotPushed? || p.LookedUp? || p.Overflowing?
  }

  // ------------------------------------------------------------- connections

  datatype Phase =
    | Attaching(previous: Option<ConnId>)
    | Fetching
    | Paging(page: seq<Event>, next: nat)
    | DrainingPage(page: seq<Event>, next: nat)
    | Greeting
    | DrainingReady
    | Flushing
    | Live
    | Closing
    | Gone

  /** One connection handler. The last five fields are history: the log length
      when it attached and when it last read a page, every frame its outbox ever
      received, how many of those it has handled, and the frames on the wire. */
  datatype Conn = Conn(
    since: nat, startSeq: nat, cancelled: bool, phase: Phase,
    outbox: seq<Event>, pending: seq<Event>,
    cursor: nat, lastReplayed: nat, replayed: nat,
    attachedAt: nat, fetchedAt: nat, received: seq<Event>, handled: nat, written: seq<Event>)

  function Max(a: nat, b: nat): nat {
    if a < b then b else a
  }

  /** Where replay starts: the client's position, floored at the device's. */
  function Floor(c: Conn): nat {
    Max(c.since, c.startSeq)
  }

  function NewConn(since: nat, startSeq: nat, previous: Option<ConnId>, logLength: nat): Conn {
    Conn(since, startSeq, false, Attaching(previous), [], [], Max(since, startSeq), 0, 0, logLength, 0, [], 0, [])
  }

  function Take<T>(s: seq<T>, n: nat): seq<T> {
    if |s| <= n then s else s[..n]
  }

  function EventsAfter(log: seq<Event>, since: nat, limit: nat): seq<Event> {
    Take(NonCommands(log, since), limit)
  }

  /** Steps of the connection handler that touch only its own connection. */
  datatype Move = FetchPage | WriteReplayed | DrainOne | DrainDone | PageDone | WriteReady
                | FlushFrame | FlushDone | LiveFrame | Abort

  predicate Draining(c: Conn) {
    c.phase.DrainingPage? || c.phase.DrainingReady?
  }

  /** The frame the flush loop or the live loop handles next. */
  predicate HasFrame(c: Conn) {
    || (c.phase == Flushing && c.handled < |c.pending|)
    || (c.phase == Live && c.outbox != [])
  }

  function NextFrame(c: Conn): Event
    requires HasFrame(c)
  {
    if c.phase == Flushing then c.pending[c.handled] else c.outbox[0]
  }

  predicate MoveEnabled(c: Conn, m: Move) {
    match m
    case FetchPage => c.phase == Fetching
    case WriteReplayed => c.phase.Paging? && c.phase.next < |c.phase.page| && !c.cancelled
    case DrainOne => Draining(c) && c.outbox != []
    case DrainDone => Draining(c) && c.outbox == []
    case PageDone => c.phase.Paging? && c.phase.next >= |c.phase.page|
    case WriteReady => c.phase == Greeting && !c.cancelled
    case FlushFrame => c.phase == Flushing && HasFrame(c) && (NextFrame(c).seqNo > c.lastReplayed ==> !c.cancelled)
    case FlushDone => c.phase == Flushing && !HasFrame(c)
    case LiveFrame => c.phase == Live && HasFrame(c) && (NextFrame(c).seqNo > c.lastReplayed ==> !c.cancelled)
    // A failed read, write or ping, or the context ending: the handler returns.
    case Abort => c.phase.Fetching? || c.phase.Paging? || c.phase.Greeting? || c.phase.Flushing? || c.phase.Live?
  }

  function Handle(c: Conn): Conn
    requires HasFrame(c)
  {
    var f := NextFrame(c);
    c.(handled := c.handled + 1,
       outbox := if c.phase == Live then c.outbox[1..] else c.outbox,
       written := if f.seqNo <= c.lastReplayed then c.written else c.written + [f])
  }

  function MoveConn(c: Conn, log: seq<Event>, m: Move): Conn
    requires MoveEnabled(c, m)
  {
    match m
    case FetchPage =>
      c.(phase := Paging(EventsAfter(log, c.cursor, MAX_REPLAY), 0), fetchedAt := |log|)
    case WriteReplayed =>
      var e := c.phase.page[c.phase.next];
      c.(written := c.written + [e], cursor := e.seqNo, lastReplayed := e.seqNo, replayed := c.replayed + 1,
         phase := DrainingPage(c.phase.page, c.phase.next + 1))
    case DrainOne =>
      c.(pending := c.pending + [c.outbox[0]], outbox := c.outbox[1..],
         phase := if |c.pending| + 1 > MAX_REPLAY_PER_CONN then Closing else c.phase)
    case DrainDone =>
      c.(phase := if c.phase.DrainingPage? then Paging(c.phase.page, c.phase.next) else Flushing)
    case PageDone =>
      c.(phase := if |c.phase.page| < MAX_REPLAY then Greeting
                  else if c.replayed >= MAX_REPLAY_PER_CONN then Closing
                  else Fetching)
    case WriteReady => c.(phase := DrainingReady)
    case FlushFrame => Handle(c)
    case FlushDone => c.(phase := Live)
    case LiveFrame => Handle(c)
    case Abort => c.(phase := Closing)
  }

  // ------------------------------------------------------------ whole system

  /** `pushes` and `owners` run parallel to `log`: the push progress of each event
      and the request that appended it. The two locks are the per-endpoint ingest
      mutexes for this broadcaster; dispatch has none. */
  datatype State = State(
    log: seq<Event>, pushes: seq<Push>, owners: seq<RequestId>,
    requests: map<RequestId, Request>,
    eventSubLock: Option<RequestId>, panelLock: Option<RequestId>,
    registered: Option<ConnId>, conns: map<ConnId, Conn>)

  const INITIAL: State := State([], [], [], map[], None, None, None, map[])

  datatype Action =
    | Arrive(r: RequestId, endpoint: Endpoint, id: MessageId, kind: Kind, payload: string)
    | Enter(r: RequestId)
    | Append(r: RequestId)
    | AppendFails(r: RequestId)
    | LookUp(r: RequestId)
    | Offer(r: RequestId)
    | CloseSlow(r: RequestId)
    | Return(r: RequestId)
    | Attach(k: ConnId, since: nat, startSeq: nat)
    | CloseDisplaced(k: ConnId)
    | Step(k: ConnId, move: Move)
    | Cancel(k: ConnId)
    | Remove(k: ConnId)

  function LockOf(s: State, endpoint: Endpoint): Option<RequestId> {
    match endpoint
    case EventSub => s.eventSubLock
    case Panel => s.panelLock
    case Dispatch => None
  }

  function SetLock(s: State, endpoint: Endpoint, holder: Option<RequestId>): State {
    match endpoint
    case EventSub => s.(eventSubLock := holder)
    case Panel => s.(panelLock := holder)
    case Dispatch => s
  }

  predicate At(s: State, r: RequestId, p: Progress) {
    r in s.requests && s.requests[r].progress == p
  }

  /** Request r is pushing the event it appended. */
  predicate IsPushing(s: State, r: RequestId) {
    r in s.requests && s.requests[r].progress.Pushing? && 0 < s.requests[r].progress.seqNo <= |s.log| == |s.pushes|
  }

  function PushOf(s: State, r: RequestId): Push
    requires IsPushing(s, r)
  {
    s.pushes[s.requests[r].progress.seqNo - 1]
  }

  predicate Enabled(s: State, a: Action) {
    match a
    case Arrive(r, endpoint, _, kind, _) => r !in s.requests && KindAllowed(endpoint, kind)
    case Enter(r) => At(s, r, Waiting) && LockOf(s, s.requests[r].endpoint) == None
    case Append(r) => At(s, r, Entered)
    case AppendFails(r) => At(s, r, Entered)
    case LookUp(r) => IsPushing(s, r) && PushOf(s, r).NotPushed?
    case Offer(r) => IsPushing(s, r) && PushOf(s, r).LookedUp? && PushOf(s, r).conn in s.conns
    case CloseSlow(r) => IsPushing(s, r) && PushOf(s, r).Overflowing? && PushOf(s, r).conn in s.conns
    case Return(r) => At(s, r, Finished)
    case Attach(k, _, _) => k !in s.conns
    case CloseDisplaced(k) => k in s.conns && s.conns[k].phase.Attaching?
    case Step(k, m) => k in s.conns && MoveEnabled(s.conns[k], m)
    case Cancel(k) => k in s.conns
    case Remove(k) => k in s.conns && s.conns[k].phase == Closing
  }

  function SetProgress(s: State, r: RequestId, p: Progress): State
    requires r in s.requests
  {
    s.(requests := s.requests[r := s.requests[r].(progress := p)])
  }

  /** Move the push of request r's event on; a push that has ended finishes the request. */
  function SetPush(s: State, r: RequestId, p: Push): State
    requires IsPushing(s, r)
  {
    var s' := s.(pushes := s.pushes[s.requests[r].progress.seqNo - 1 := p]);
    if Unfinished(p) then s' else SetProgress(s', r, Finished)
  }

  function CancelConn(s: State, k: ConnId): State {
    if k in s.conns then s.(conns := s.conns[k := s.conns[k].(cancelled := true)]) else s
  }

  function AppendEvent(s: State, r: RequestId): State
    requires r in s.requests
  {
    var q := s.requests[r];
    if HasMessage(s.log, q.id) then SetProgress(s, r, Finished)
    else
      var e := Event(|s.log| + 1, q.id, q.kind, q.payload);
      SetProgress(s, r, Pushing(e.seqNo)).(log := s.log + [e], pushes := s.pushes + [NotPushed], owners := s.owners + [r])
  }

  function OfferFrame(s: State, r: RequestId): State
    requires IsPushing(s, r) && PushOf(s, r).LookedUp? && PushOf(s, r).conn in s.conns
  {
    var k := PushOf(s, r).conn;
    var c := s.conns[k];
    var e := s.log[s.requests[r].progress.seqNo - 1];
    if |c.outbox| < OUTBOX_DEPTH then
      SetPush(s, r, Queued(k)).(conns := s.conns[k := c.(outbox := c.outbox + [e], received := c.received + [e])])
    else
      SetPush(s, r, Overflowing(k))
  }

  function Apply(s: State, a: Action): State
    requires Enabled(s, a)
  {
    match a
    case Arrive(r, endpoint, id, kind, payload) =>
      s.(requests := s.requests[r := Request(endpoint, id, kind, payload, Waiting)])
    case Enter(r) => SetLock(SetProgress(s, r, Entered), s.requests[r].endpoint, Some(r))
    case Append(r) => AppendEvent(s, r)
    case AppendFails(r) => SetProgress(s, r, Finished)
    case LookUp(r) => SetPush(s, r, if s.registered.Some? then LookedUp(s.registered.value) else Unattached)
    case Offer(r) => OfferFrame(s, r)
    case CloseSlow(r) => CancelConn(SetPush(s, r, Dropped(PushOf(s, r).conn)), PushOf(s, r).conn)
    case Return(r) => SetLock(SetProgress(s, r, Returned), s.requests[r].endpoint, None)
    case Attach(k, since, startSeq) =>
      s.(conns := s.conns[k := NewConn(since, startSeq, s.registered, |s.log|)], registered := Some(k))
    case CloseDisplaced(k) =>
      var previous := s.conns[k].phase.previous;
      var s' := s.(conns := s.conns[k := s.conns[k].(phase := Fetching)]);
      if previous.Some? then CancelConn(s', previous.value) else s'
    case Step(k, m) => s.(conns := s.conns[k := MoveConn(s.conns[k], s.log, m)])
    case Cancel(k) => CancelConn(s, k)
    case Remove(k) =>
      CancelConn(s.(registered := if s.registered == Some(k) then None else s.registered,
                    conns := s.conns[k := s.conns[k].(phase := Gone)]), k)
  }

  /** A run: any sequence of enabled steps from the empty system. */
  ghost predicate IsRun(trace: seq<State>, actions: seq<Action>) {
    && |trace| == |actions| + 1
    && trace[0] == INITIAL
    && forall i :: 0 <= i < |actions| ==>
         Enabled(trace[i], actions[i]) && trace[i + 1] == Apply(trace[i], actions[i])
  }
}
