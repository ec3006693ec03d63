/** The link from the chat bot to the game executor, as a step machine: a client
    that sends one command at a time and retries once on a fresh connection, and a
    server loop per connection that may run late, die, or lose its answer. */
module ExecutorLink {
  import opened Basics

  type SendId = nat
  type LinkId = nat

  /** One write of one command: attempt 1 or 2 of a Send. */
  datatype Attempt = Attempt(id: SendId, number: nat)

  datatype Request = Request(seqNo: nat, attempt: Attempt)

  datatype Ack = Ack(seqNo: nat, id: SendId)

  /** One connection: what is in flight each way, and the server loop's counters. */
  datatype Link = Link(toServer: seq<Request>, toClient: seq<Ack>, lastReqSeq: nat, ackSeq: nat, alive: bool)

  datatype Phase = Idle | Connecting(attempt: Attempt) | Writing(attempt: Attempt) | Awaiting(attempt: Attempt)

  datatype Result = Executed(ack: SendId) | Error

  /** `submits` is every call of the server's submit function, `results` what each
      Send returned, and `sentOn` the connection each attempt was written to. */
  datatype State = State(
    phase: Phase, conn: Option<LinkId>, sentSeq: nat, lastAckSeq: nat,
    links: map<LinkId, Link>,
    submits: seq<Attempt>, results: map<SendId, Result>, sentOn: map<Attempt, LinkId>)

  const INITIAL: State := State(Idle, None, 0, 0, map[], [], map[], map[])

  datatype Action =
    | Send(id: SendId)
    | Reuse | Dial(k: LinkId) | DialFails
    | MarshalFails | Write | WriteFails(reached: bool)
    | ReadAck | ReadBadAck | ReadFails
    | Serve(k: LinkId) | ServeUnanswered(k: LinkId) | ServerDies(k: LinkId)

  predicate Live(s: State) {
    s.conn.Some? && s.conn.value in s.links
  }

  predicate Enabled(s: State, a: Action) {
    match a
    case Send(id) => s.phase.Idle? && id !in s.results
    case Reuse => s.phase.Connecting? && Live(s)
    case Dial(k) => s.phase.Connecting? && s.conn == None && k !in s.links
    case DialFails => s.phase.Connecting? && s.conn == None
    case MarshalFails => s.phase.Writing? && Live(s)
    case Write => s.phase.Writing? && Live(s)
    case WriteFails(_) => s.phase.Writing? && Live(s)
    case ReadAck => s.phase.Awaiting? && Live(s) && s.links[s.conn.value].toClient != []
    case ReadBadAck => s.phase.Awaiting? && Live(s)
    case ReadFails => s.phase.Awaiting? && Live(s)
    case Serve(k) => k in s.links && s.links[k].alive && s.links[k].toServer != []
    case ServeUnanswered(k) => k in s.links && s.links[k].alive && s.links[k].toServer != []
    case ServerDies(k) => k in s.links
  }

  function Finish(s: State, id: SendId, r: Result): State {
    s.(phase := Idle, results := s.results[id := r])
  }

  /** A transport failure: the connection is dropped, and the first attempt is retried. */
  function Retry(s: State, a: Attempt): State {
    var dropped := s.(conn := None);
    if a.number == 1 then dropped.(phase := Connecting(Attempt(a.id, 2))) else Finish(dropped, a.id, Error)
  }

  function PutOnWire(s: State): State
    requires s.phase.Writing? && Live(s)
  {
    var k := s.conn.value;
    var l := s.links[k];
    s.(sentOn := s.sentOn[s.phase.attempt := k],
       links := s.links[k := l.(toServer := l.toServer + [Request(s.sentSeq, s.phase.attempt)])])
  }

  /** The server loop's turn: replay check, submit, answer. */
  function ServeOne(s: State, k: LinkId, answered: bool): State
    requires k in s.links && s.links[k].toServer != []
  {
    var l := s.links[k];
    var q := l.toServer[0];
    var rest := l.(toServer := l.toServer[1..]);
    if q.seqNo <= l.lastReqSeq then s.(links := s.links[k := rest.(alive := false)])
    else
      var acked := rest.(lastReqSeq := q.seqNo, ackSeq := l.ackSeq + 1,
                         toClient := if answered then l.toClient + [Ack(l.ackSeq + 1, q.attempt.id)] else l.toClient);
      s.(submits := s.submits + [q.attempt], links := s.links[k := acked])
  }

  function ReadOne(s: State): State
    requires s.phase.Awaiting? && Live(s) && s.links[s.conn.value].toClient != []
  {
    var k := s.conn.value;
    var l := s.links[k];
    var ack := l.toClient[0];
    var s' := s.(links := s.links[k := l.(toClient := l.toClient[1..])]);
    if ack.seqNo <= s.lastAckSeq then Finish(s', s.phase.attempt.id, Error)
    else Finish(s'.(lastAckSeq := ack.seqNo), s.phase.attempt.id, Executed(ack.id))
  }

  function Apply(s: State, a: Action): State
    requires Enabled(s, a)
  {
    match a
    case Send(id) => s.(phase := Connecting(Attempt(id, 1)))
    case Reuse => s.(phase := Writing(s.phase.attempt))
    case Dial(k) =>
      s.(phase := Writing(s.phase.attempt), conn := Some(k), sentSeq := 0, lastAckSeq := 0,
         links := s.links[k := Link([], [], 0, 0, true)])
    case DialFails => Finish(s, s.phase.attempt.id, Error)
    case MarshalFails => Finish(s.(sentSeq := s.sentSeq + 1), s.phase.attempt.id, Error)
    case Write => PutOnWire(s.(sentSeq := s.sentSeq + 1)).(phase := Awaiting(s.phase.attempt))
    case WriteFails(reached) =>
      var counted := s.(sentSeq := s.sentSeq + 1);
      Retry(if reached then PutOnWire(counted) else counted, s.phase.attempt)
    case ReadAck => ReadOne(s)
    case ReadBadAck => Finish(s.(conn := None), s.phase.attempt.id, Error)
    case ReadFails => Retry(s, s.phase.attempt)
    case Serve(k) => ServeOne(s, k, true)
    case ServeUnanswered(k) => ServeOne(s, k, false)
    case ServerDies(k) => s.(links := s.links[k := s.links[k].(alive := false)])
  }

  ghost predicate IsRun(trace: seq<State>, actions: seq<Action>) {
    && |trace| == |actions| + 1
    && trace[0] == INITIAL
    && forall i :: 0 <= i < |actions| ==> Enabled(trace[i], actions[i]) && trace[i + 1] == Apply(trace[i], actions[i])
  }

  // ------------------------------------------------------------ invariant

  predicate Active(p: Phase, id: SendId) {
    !p.Idle? && p.attempt.id == id
  }

  /** Attempts are 1 or 2, belong to a Send that was started, and the one in hand
      has not been written yet. */
  ghost predicate AttemptsOk(s: State) {
    && (forall a :: a in s.sentOn ==>
          1 <= a.number <= 2 && s.sentOn[a] in s.links && (a.id in s.results || Active(s.phase, a.id)))
    && (!s.phase.Idle? ==> 1 <= s.phase.attempt.number <= 2 && s.phase.attempt.id !in s.results)
    && (s.phase.Connecting? || s.phase.Writing? ==>
          forall n :: n >= s.phase.attempt.number ==> Attempt(s.phase.attempt.id, n) !in s.sentOn)
    && (s.phase.Awaiting? ==>
          s.phase.attempt in s.sentOn && forall n :: n > s.phase.attempt.number ==> Attempt(s.phase.attempt.id, n) !in s.sentOn)
    && (s.phase.Writing? || s.phase.Awaiting? ==> Live(s))
    && (s.conn.Some? ==> s.conn.value in s.links)
  }

  ghost predicate QueueOk(s: State, k: LinkId)
    requires k in s.links
  {
    var q := s.links[k].toServer;
    && (forall i :: 0 <= i < |q| ==>
          q[i].seqNo > s.links[k].lastReqSeq && q[i].attempt in s.sentOn && s.sentOn[q[i].attempt] == k
          && q[i].attempt !in s.submits)
    && (forall i, j :: 0 <= i < j < |q| ==> q[i].seqNo < q[j].seqNo && q[i].attempt != q[j].attempt)
  }

  /** Every attempt is submitted at most once, and only after it was written. */
  ghost predicate SubmitsOk(s: State) {
    && (forall k :: k in s.links ==> QueueOk(s, k))
    && (forall i :: 0 <= i < |s.submits| ==> s.submits[i] in s.sentOn)
    && (forall i, j :: 0 <= i < j < |s.submits| ==> s.submits[i] != s.submits[j])
  }

  /** On the client's own connection both counters run in step: nothing is in
      flight between commands, and an answer in flight is to the command waiting. */
  ghost predicate InStep(s: State) {
    Live(s) ==>
      var l := s.links[s.conn.value];
      && l.lastReqSeq <= s.sentSeq
      && (!s.phase.Awaiting? ==> l.toServer == [] && l.toClient == [] && l.ackSeq == s.lastAckSeq)
      && (s.phase.Awaiting? ==>
            || (l.toServer == [Request(s.sentSeq, s.phase.attempt)] && l.toClient == [] && l.ackSeq == s.lastAckSeq)
            || (l.toServer == [] && l.toClient == [Ack(s.lastAckSeq + 1, s.phase.attempt.id)]
                && l.ackSeq == s.lastAckSeq + 1 && s.phase.attempt in s.submits)
            || (l.toServer == [] && l.toClient == []))
  }

  ghost predicate ResultsOk(s: State) {
    forall id :: id in s.results && s.results[id].Executed? ==>
      s.results[id] == Executed(id) && (Attempt(id, 1) in s.submits || Attempt(id, 2) in s.submits)
  }

  ghost predicate Inv(s: State) {
    AttemptsOk(s) && SubmitsOk(s) && InStep(s) && ResultsOk(s)
  }

  lemma AttemptsKeptByServer(s: State, a: Action)
    requires AttemptsOk(s) && Enabled(s, a) && (a.Serve? || a.ServeUnanswered? || a.ServerDies?)
    ensures AttemptsOk(Apply(s, a))
  {
    assert Apply(s, a).links.Keys == s.links.Keys;
  }

  lemma AttemptsKept(s: State, a: Action)
    requires AttemptsOk(s) && Enabled(s, a)
    ensures AttemptsOk(Apply(s, a))
  {
    if a.Serve? || a.ServeUnanswered? || a.ServerDies? {
      AttemptsKeptByServer(s, a);
    }
  }

  lemma SubmitsKeptByServe(s: State, k: LinkId, answered: bool)
    requires SubmitsOk(s) && k in s.links && s.links[k].toServer != []
    ensures SubmitsOk(ServeOne(s, k, answered))
  {
    var s' := ServeOne(s, k, answered);
    assert QueueOk(s, k);
    var q, q' := s.links[k].toServer, s'.links[k].toServer;
    assert forall i :: 0 <= i < |q'| ==> q'[i] == q[i + 1];
    forall j | j in s'.links ensures QueueOk(s', j) {
      assert QueueOk(s, j);
    }
  }

  lemma SubmitsKeptByWrite(s: State)
    requires AttemptsOk(s) && SubmitsOk(s) && InStep(s) && s.phase.Writing?
    ensures var counted := s.(sentSeq := s.sentSeq + 1); SubmitsOk(PutOnWire(counted))
  {
    var s' := PutOnWire(s.(sentSeq := s.sentSeq + 1));
    forall j | j in s'.links ensures QueueOk(s', j) {
      assert QueueOk(s, j);
    }
  }

  lemma SubmitsKeptByOthers(s: State, a: Action)
    requires AttemptsOk(s) && SubmitsOk(s) && InStep(s) && Enabled(s, a)
    requires !a.Write? && !a.WriteFails? && !a.Serve? && !a.ServeUnanswered?
    ensures SubmitsOk(Apply(s, a))
  {
    var s' := Apply(s, a);
    forall j | j in s'.links ensures QueueOk(s', j) {
      assert j in s.links ==> QueueOk(s, j);
    }
  }

  lemma SamePart(s: State, s': State)
    requires SubmitsOk(s) && s'.links == s.links && s'.submits == s.submits && s'.sentOn == s.sentOn
    ensures SubmitsOk(s')
  {
    forall j | j in s'.links ensures QueueOk(s', j) {
      assert QueueOk(s, j);
    }
  }

  lemma SubmitsKeptByWriting(s: State, a: Action)
    requires AttemptsOk(s) && SubmitsOk(s) && InStep(s) && Enabled(s, a) && (a == Write || a == WriteFails(true))
    ensures SubmitsOk(Apply(s, a))
  {
    var put, s' := PutOnWire(s.(sentSeq := s.sentSeq + 1)), Apply(s, a);
    SubmitsKeptByWrite(s);
    assert s'.links == put.links && s'.submits == put.submits && s'.sentOn == put.sentOn;
    SamePart(put, s');
  }

  lemma SubmitsKept(s: State, a: Action)
    requires AttemptsOk(s) && SubmitsOk(s) && InStep(s) && Enabled(s, a)
    ensures SubmitsOk(Apply(s, a))
  {
    if a.Serve? || a.ServeUnanswered? {
      SubmitsKeptByServe(s, a.k, a.Serve?);
    } else if a == Write || a == WriteFails(true) {
      SubmitsKeptByWriting(s, a);
    } else if a.WriteFails? {
      SamePart(s, Apply(s, a));
    } else {
      SubmitsKeptByOthers(s, a);
    }
  }

  /** The server's turn on a link: the client's own, or one it has given up. */
  lemma InStepKeptByServe(s: State, k: LinkId, answered: bool)
    requires InStep(s) && k in s.links && s.links[k].toServer != [] && s.links[k].toServer[0].seqNo > s.links[k].lastReqSeq
    requires s.phase.Awaiting? ==> Live(s)
    ensures InStep(ServeOne(s, k, answered))
  {
    if s.conn == Some(k) {
      assert s.links[k].toServer == [Request(s.sentSeq, s.phase.attempt)];
    }
  }

  lemma InStepKept(s: State, a: Action)
    requires AttemptsOk(s) && SubmitsOk(s) && InStep(s) && Enabled(s, a)
    ensures InStep(Apply(s, a))
  {
    if a.Serve? || a.ServeUnanswered? {
      assert QueueOk(s, a.k);
      InStepKeptByServe(s, a.k, a.Serve?);
    }
  }

  lemma ResultsKept(s: State, a: Action)
    requires Inv(s) && Enabled(s, a)
    ensures ResultsOk(Apply(s, a))
  {
  }

  lemma {:induction false} InvOnRuns(trace: seq<State>, actions: seq<Action>, n: nat)
    requires IsRun(trace, actions) && n < |trace|
    ensures Inv(trace[n])
  {
    if n > 0 {
      var s, a := trace[n - 1], actions[n - 1];
      InvOnRuns(trace, actions, n - 1);
      AttemptsKept(s, a);
      SubmitsKept(s, a);
      InStepKept(s, a);
      ResultsKept(s, a);
    }
  }

  // ------------------------------------------------------------- promises

  function SubmitCount(submits: seq<Attempt>, id: SendId): nat {
    if submits == [] then 0
    else SubmitCount(submits[..|submits| - 1], id) + if submits[|submits| - 1].id == id then 1 else 0
  }

  /** Distinct attempts numbered 1 or 2 can carry one id at most twice. */
  lemma {:induction false} CountByAttempt(submits: seq<Attempt>, id: SendId)
    requires forall i, j :: 0 <= i < j < |submits| ==> submits[i] != submits[j]
    requires forall i :: 0 <= i < |submits| ==> 1 <= submits[i].number <= 2
    ensures SubmitCount(submits, id) ==
            (if Attempt(id, 1) in submits then 1 else 0) + (if Attempt(id, 2) in submits then 1 else 0)
  {
    if submits != [] {
      var init, last := submits[..|submits| - 1], submits[|submits| - 1];
      CountByAttempt(init, id);
      assert submits == init + [last];
      assert last !in init;
    }
  }

  /** Whatever writes, answers and connections are lost, one Send causes at most
      two submits over the whole run, however late the server gets to them. */
  lemma AtMostTwice(trace: seq<State>, actions: seq<Action>, n: nat, id: SendId)
    requires IsRun(trace, actions) && n < |trace|
    ensures SubmitCount(trace[n].submits, id) <= 2
  {
    InvOnRuns(trace, actions, n);
    CountByAttempt(trace[n].submits, id);
  }

  /** A successful Send was really submitted, and its answer is to that command. */
  lemma SuccessIsReal(trace: seq<State>, actions: seq<Action>, n: nat, id: SendId)
    requires IsRun(trace, actions) && n < |trace|
    requires id in trace[n].results && trace[n].results[id].Executed?
    ensures trace[n].results[id].ack == id && 1 <= SubmitCount(trace[n].submits, id) <= 2
  {
    InvOnRuns(trace, actions, n);
    CountByAttempt(trace[n].submits, id);
  }

  /** Between honest ends neither replay check ever fires: the server always finds
      a fresh request number, and the client a fresh answer number. */
  lemma ReplayChecksPass(trace: seq<State>, actions: seq<Action>, n: nat, k: LinkId)
    requires IsRun(trace, actions) && n < |trace| && k in trace[n].links
    ensures trace[n].links[k].toServer != [] ==> trace[n].links[k].toServer[0].seqNo > trace[n].links[k].lastReqSeq
    ensures Enabled(trace[n], ReadAck) ==>
              trace[n].links[trace[n].conn.value].toClient[0] == Ack(trace[n].lastAckSeq + 1, trace[n].phase.attempt.id)
  {
    InvOnRuns(trace, actions, n);
    assert QueueOk(trace[n], k);
  }
}
