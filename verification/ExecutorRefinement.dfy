/** The client and server objects refine the link protocol: whatever the fates of its
    attempts, a Send is a run of the protocol with the same submits, the same result
    and the same connection state. So what the protocol promises of its runs holds of
    the objects. */
module ExecutorRefinement {
  import opened Basics
  import opened ExecutorLink
  import C = ExecutorClient

  /** Nothing in flight on the client's connection, and its counters agree. */
  predicate Ready(s: State) {
    Live(s) &&
    var l := s.links[s.conn.value];
    l.alive && l.toServer == [] && l.toClient == [] && l.lastReqSeq <= s.sentSeq && l.ackSeq == s.lastAckSeq
  }

  predicate Resting(s: State) {
    s.phase.Idle? && (s.conn.Some? ==> Ready(s))
  }

  ghost predicate Leads(s: State, actions: seq<Action>, s': State)
    decreases |actions|
  {
    if actions == [] then s == s'
    else Enabled(s, actions[0]) && Leads(Apply(s, actions[0]), actions[1..], s')
  }

  lemma {:induction false} LeadsOn(s: State, a: seq<Action>, m: State, b: seq<Action>, s': State)
    requires Leads(s, a, m) && Leads(m, b, s')
    ensures Leads(s, a + b, s')
    decreases |a|
  {
    if a == [] {
      assert a + b == b;
    } else {
      assert (a + b)[1..] == a[1..] + b;
      LeadsOn(Apply(s, a[0]), a[1..], m, b, s');
    }
  }

  lemma LeadsOne(s: State, a: Action)
    requires Enabled(s, a)
    ensures Leads(s, [a], Apply(s, a))
  {
    assert [a][1..] == [];
  }

  lemma LeadsThree(s: State, a: Action, b: Action, c: Action)
    requires Enabled(s, a) && Enabled(Apply(s, a), b) && Enabled(Apply(Apply(s, a), b), c)
    ensures Leads(s, [a, b, c], Apply(Apply(Apply(s, a), b), c))
  {
    LeadsOne(s, a);
    LeadsOne(Apply(s, a), b);
    LeadsOne(Apply(Apply(s, a), b), c);
    LeadsOn(s, [a], Apply(s, a), [b], Apply(Apply(s, a), b));
    assert [a] + [b] == [a, b] && [a, b] + [c] == [a, b, c];
    LeadsOn(s, [a, b], Apply(Apply(s, a), b), [c], Apply(Apply(Apply(s, a), b), c));
  }

  /** What an attempt with this fate leaves of the protocol state. */
  ghost predicate AttemptEffect(s: State, s': State, a: Attempt, fate: C.Fate) {
    && s'.submits == s.submits + (if C.Reaches(fate) then [a] else [])
    && if C.Retried(fate) && a.number == 1 then
         s'.phase == Connecting(Attempt(a.id, 2)) && s'.conn == None && s'.results == s.results
       else
         && s'.phase == Idle && (s'.conn.Some? <==> C.KeepsOpen(fate)) && (s'.conn.Some? ==> Ready(s'))
         && s'.results == s.results[a.id := if fate == C.Answered then Executed(a.id) else Error]
  }

  /** The steps an open connection takes for each fate. */
  function Script(k: LinkId, fate: C.Fate): seq<Action>
    requires !fate.DialFails?
  {
    match fate
    case MarshalFails => [MarshalFails]
    case WriteLost => [WriteFails(false)]
    case WriteErrorAfterArrival => [WriteFails(true), Serve(k)]
    case AnswerLost => [Write, ServeUnanswered(k), ReadFails]
    case BadAnswer => [Write, ServeUnanswered(k), ReadBadAck]
    case Answered => [Write, Serve(k), ReadAck]
  }

  /** After the write and the server's turn, the answer, if sent, is all that is in flight. */
  lemma Exchange(s: State, answered: bool)
    requires s.phase.Writing? && Ready(s)
    ensures var k, turn := s.conn.value, if answered then Serve(s.conn.value) else ServeUnanswered(s.conn.value);
            && Enabled(s, Write) && Enabled(Apply(s, Write), turn)
            && var m := Apply(Apply(s, Write), turn);
               var l := m.links[k];
               && m == s.(phase := Awaiting(s.phase.attempt), sentSeq := s.sentSeq + 1, submits := s.submits + [s.phase.attempt],
                          sentOn := s.sentOn[s.phase.attempt := k], links := m.links)
               && k in m.links && m.links.Keys == s.links.Keys && l.alive && l.toServer == []
               && l.lastReqSeq == m.sentSeq && l.ackSeq == s.lastAckSeq + 1
               && l.toClient == if answered then [Ack(s.lastAckSeq + 1, s.phase.attempt.id)] else []
  {
  }

  lemma OpenRuns(s: State, fate: C.Fate) returns (s': State)
    requires s.phase.Writing? && Ready(s) && !fate.DialFails?
    ensures Leads(s, Script(s.conn.value, fate), s') && AttemptEffect(s, s', s.phase.attempt, fate)
    ensures s'.links.Keys == s.links.Keys
  {
    var k := s.conn.value;
    match fate {
      case MarshalFails => s' := Apply(s, MarshalFails); LeadsOne(s, MarshalFails);
      case WriteLost => s' := Apply(s, WriteFails(false)); LeadsOne(s, WriteFails(false));
      case WriteErrorAfterArrival => s' := LateArrival(s);
      case AnswerLost =>
        Exchange(s, false);
        LeadsThree(s, Write, ServeUnanswered(k), ReadFails);
        s' := Apply(Apply(Apply(s, Write), ServeUnanswered(k)), ReadFails);
      case BadAnswer =>
        Exchange(s, false);
        LeadsThree(s, Write, ServeUnanswered(k), ReadBadAck);
        s' := Apply(Apply(Apply(s, Write), ServeUnanswered(k)), ReadBadAck);
      case Answered =>
        Exchange(s, true);
        LeadsThree(s, Write, Serve(k), ReadAck);
        s' := Apply(Apply(Apply(s, Write), Serve(k)), ReadAck);
    }
  }

  /** The write failed although the bytes arrived: the client has moved on when the
      server serves them. */
  lemma LateArrival(s: State) returns (s': State)
    requires s.phase.Writing? && Ready(s)
    ensures Leads(s, [WriteFails(true), Serve(s.conn.value)], s')
    ensures AttemptEffect(s, s', s.phase.attempt, C.WriteErrorAfterArrival) && s'.links.Keys == s.links.Keys
  {
    var k := s.conn.value;
    var m := Apply(s, WriteFails(true));
    LeadsOne(s, WriteFails(true));
    LeadsOne(m, Serve(k));
    LeadsOn(s, [WriteFails(true)], m, [Serve(k)], Apply(m, Serve(k)));
    assert [WriteFails(true)] + [Serve(k)] == [WriteFails(true), Serve(k)];
    s' := Apply(m, Serve(k));
  }

  /** One attempt, dialling k first when there is no connection. */
  lemma AttemptRuns(s: State, fate: C.Fate, k: LinkId) returns (actions: seq<Action>, s': State)
    requires s.phase.Connecting? && (s.conn.Some? ==> Ready(s) && !fate.DialFails?) && k !in s.links
    ensures Leads(s, actions, s') && AttemptEffect(s, s', s.phase.attempt, fate)
    ensures s'.links.Keys <= s.links.Keys + {k}
  {
    if fate.DialFails? {
      LeadsOne(s, DialFails);
      return [DialFails], Apply(s, DialFails);
    }
    var first := if s.conn.Some? then Reuse else Dial(k);
    var m := Apply(s, first);
    LeadsOne(s, first);
    s' := OpenRuns(m, fate);
    actions := [first] + Script(m.conn.value, fate);
    LeadsOn(s, [first], m, Script(m.conn.value, fate), s');
  }

  /** Both attempts of a Send, the second only after a transport failure. */
  lemma SendRuns(s: State, id: SendId, first: C.Fate, second: C.Fate, j: LinkId, k: LinkId)
    returns (actions: seq<Action>, s': State)
    requires Resting(s) && id !in s.results && j !in s.links && k !in s.links && j != k
    requires s.conn.Some? ==> !first.DialFails?
    ensures Leads(s, actions, s') && Resting(s')
    ensures var last := if C.Retried(first) then second else first;
            && (s'.conn.Some? <==> C.KeepsOpen(last))
            && s'.results == s.results[id := if last == C.Answered then Executed(id) else Error]
    ensures s'.submits == s.submits + (if C.Reaches(first) then [Attempt(id, 1)] else [])
                        + (if C.Retried(first) && C.Reaches(second) then [Attempt(id, 2)] else [])
  {
    var start := Apply(s, Send(id));
    LeadsOne(s, Send(id));
    var tail, m := AttemptRuns(start, first, j);
    LeadsOn(s, [Send(id)], start, tail, m);
    actions, s' := [Send(id)] + tail, m;
    if C.Retried(first) {
      var more;
      more, s' := AttemptRuns(m, second, k);
      LeadsOn(s, actions, m, more, s');
      actions := actions + more;
    }
  }

  function IdsOf(attempts: seq<Attempt>): seq<SendId> {
    seq(|attempts|, i requires 0 <= i < |attempts| => attempts[i].id)
  }

  /** A Send of the client object, for any fates of its attempts, is a run of the
      protocol from rest to rest: the executor is asked for the same commands, the
      Send returns the same, and the connection stays open in the same cases. */
  lemma SendIsARun(s: State, id: SendId, first: C.Fate, second: C.Fate, j: LinkId, k: LinkId)
    returns (actions: seq<Action>, s': State)
    requires Resting(s) && id !in s.results && j !in s.links && k !in s.links && j != k
    ensures Leads(s, actions, s') && Resting(s')
    ensures IdsOf(s'.submits) == IdsOf(s.submits) + C.SubmittedBy(s.conn.Some?, id, first, second)
    ensures id in s'.results
    ensures C.ResultOf(s.conn.Some?, id, first, second) == if s'.results[id].Executed? then C.Executed(s'.results[id].ack) else C.Failed
    ensures s'.conn.Some? <==> C.KeepsOpen(C.LastFate(s.conn.Some?, first, second))
  {
    actions, s' := SendRuns(s, id, C.Effective(s.conn.Some?, first), second, j, k);
  }
}
