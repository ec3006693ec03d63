/** Writers racing to append to one broadcaster's log. Each attempt reads the
    highest position in its own snapshot and inserts later; the two unique
    constraints decide the outcome. */
module IngestRace {
  import opened Events

  const SEQ_RETRIES: nat := 5

  type WriterId = nat

  datatype Incoming = Incoming(id: MessageId, kind: Kind, payload: string)

  datatype Progress =
    | Ready                     // about to start an attempt
    | Snapshot(max: nat)        // has read MAX(seq), not inserted yet
    | Inserted(event: Event)    // reported new
    | Duplicate                 // the message was already there
    | Exhausted                 // lost the race SEQ_RETRIES times
    | Failed                    // any other database error

  /** `startedAt` is history: how many rows were committed when the writer began. */
  datatype Writer = Writer(incoming: Incoming, attempts: nat, progress: Progress, startedAt: nat)

  /** `owners[i]` is history: the writer that committed `rows[i]`. */
  datatype Table = Table(rows: seq<Event>, owners: seq<WriterId>, writers: map<WriterId, Writer>)

  const EMPTY: Table := Table([], [], map[])

  function MaxSeq(rows: seq<Event>): nat {
    if rows == [] then 0
    else
      var rest := MaxSeq(rows[..|rows| - 1]);
      if rows[|rows| - 1].seqNo > rest then rows[|rows| - 1].seqNo else rest
  }

  predicate HasPosition(rows: seq<Event>, n: nat) {
    exists i :: 0 <= i < |rows| && rows[i].seqNo == n
  }

  datatype Action = Start(w: WriterId, incoming: Incoming) | Read(w: WriterId) | Insert(w: WriterId) | Fail(w: WriterId)

  predicate Enabled(t: Table, a: Action) {
    match a
    case Start(w, _) => w !in t.writers
    case Read(w) => w in t.writers && t.writers[w].progress.Ready?
    case Insert(w) => w in t.writers && t.writers[w].progress.Snapshot?
    case Fail(w) => w in t.writers && t.writers[w].progress.Snapshot?
  }

  function SetWriter(t: Table, w: WriterId, writer: Writer): Table {
    t.(writers := t.writers[w := writer])
  }

  /** The conflict target is the message constraint; losing the position is an
      error the retry loop counts. */
  function TryInsert(t: Table, w: WriterId): Table
    requires w in t.writers && t.writers[w].progress.Snapshot?
  {
    var q := t.writers[w];
    var n := q.progress.max + 1;
    if HasMessage(t.rows, q.incoming.id) then SetWriter(t, w, q.(progress := Duplicate))
    else if HasPosition(t.rows, n) then
      SetWriter(t, w, q.(attempts := q.attempts + 1,
                         progress := if q.attempts + 1 < SEQ_RETRIES then Ready else Exhausted))
    else
      var e := Event(n, q.incoming.id, q.incoming.kind, q.incoming.payload);
      SetWriter(t, w, q.(progress := Inserted(e))).(rows := t.rows + [e], owners := t.owners + [w])
  }

  function Apply(t: Table, a: Action): Table
    requires Enabled(t, a)
  {
    match a
    case Start(w, incoming) => SetWriter(t, w, Writer(incoming, 0, Ready, |t.rows|))
    case Read(w) => SetWriter(t, w, t.writers[w].(progress := Snapshot(MaxSeq(t.rows))))
    case Insert(w) => TryInsert(t, w)
    case Fail(w) => SetWriter(t, w, t.writers[w].(progress := Failed))
  }

  ghost predicate IsRun(trace: seq<Table>, actions: seq<Action>) {
    && |trace| == |actions| + 1
    && trace[0] == EMPTY
    && forall i :: 0 <= i < |actions| ==> Enabled(trace[i], actions[i]) && trace[i + 1] == Apply(trace[i], actions[i])
  }

  ghost predicate WriterOk(t: Table, w: WriterId)
    requires w in t.writers && |t.owners| == |t.rows|
  {
    var q := t.writers[w];
    && q.startedAt + q.attempts <= |t.rows|
    && (q.progress.Ready? || q.progress.Snapshot? ==> q.attempts < SEQ_RETRIES)
    && (q.progress.Snapshot? ==> q.startedAt + q.attempts <= q.progress.max <= |t.rows|)
    && (q.progress.Exhausted? ==> q.attempts == SEQ_RETRIES)
    && (q.progress.Inserted? ==>
          var e := q.progress.event;
          0 < e.seqNo <= |t.rows| && t.rows[e.seqNo - 1] == e && t.owners[e.seqNo - 1] == w && e.id == q.incoming.id)
  }

  ghost predicate OwnerOk(t: Table, i: nat)
    requires i < |t.rows| == |t.owners|
  {
    t.owners[i] in t.writers && t.writers[t.owners[i]].progress == Inserted(t.rows[i])
  }

  ghost predicate TableOk(t: Table) {
    && LogOk(t.rows) && |t.owners| == |t.rows|
    && (forall i :: 0 <= i < |t.rows| ==> OwnerOk(t, i))
    && (forall w :: w in t.writers ==> WriterOk(t, w))
  }

  lemma {:induction false} MaxSeqIsLength(rows: seq<Event>)
    requires Numbered(rows)
    ensures MaxSeq(rows) == |rows|
  {
    if rows != [] {
      MaxSeqIsLength(rows[..|rows| - 1]);
    }
  }

  /** Refinement: a racing insert either leaves the log alone or appends, as the
      atomic step of the relay does, a new message at the very next position. */
  lemma InsertAppends(t: Table, w: WriterId)
    requires TableOk(t) && Enabled(t, Insert(w))
    ensures var rows' := Apply(t, Insert(w)).rows;
            var q := t.writers[w];
            var after := Apply(t, Insert(w)).writers[w].progress;
            && (after.Duplicate? <==> HasMessage(t.rows, q.incoming.id))
            && (after.Inserted? ==>
                  after.event == Event(|t.rows| + 1, q.incoming.id, q.incoming.kind, q.incoming.payload)
                  && rows' == t.rows + [after.event])
            && (!after.Inserted? ==> rows' == t.rows)
            && (after.Inserted? <==> !HasMessage(t.rows, q.incoming.id) && q.progress.max == |t.rows|)
  {
    var q := t.writers[w];
    assert WriterOk(t, w);
    if q.progress.max < |t.rows| {
      assert t.rows[q.progress.max].seqNo == q.progress.max + 1;
    }
  }

  /** Writers other than the one that moved are unaffected by a longer log. */
  lemma OthersKept(t: Table, t': Table, w: WriterId)
    requires TableOk(t) && |t'.owners| == |t'.rows| && t.rows <= t'.rows && t.owners <= t'.owners
    requires w in t'.writers && t'.writers == t.writers[w := t'.writers[w]]
    requires w in t.writers ==> !t.writers[w].progress.Inserted?
    ensures forall v :: v in t.writers && v != w ==> WriterOk(t', v)
    ensures forall i :: 0 <= i < |t.rows| ==> OwnerOk(t', i)
  {
    forall v | v in t.writers && v != w ensures WriterOk(t', v) {
      assert WriterOk(t, v);
    }
    forall i | 0 <= i < |t.rows| ensures OwnerOk(t', i) {
      assert OwnerOk(t, i);
    }
  }

  lemma NewMessageFits(rows: seq<Event>, e: Event)
    requires LogOk(rows) && e.seqNo == |rows| + 1 && !HasMessage(rows, e.id)
    ensures LogOk(rows + [e])
  {
  }

  lemma TableKeptByInsert(t: Table, w: WriterId)
    requires TableOk(t) && Enabled(t, Insert(w))
    ensures TableOk(Apply(t, Insert(w)))
  {
    var t' := Apply(t, Insert(w));
    assert WriterOk(t, w);
    InsertAppends(t, w);
    if t'.writers[w].progress.Inserted? {
      NewMessageFits(t.rows, t'.writers[w].progress.event);
      assert t'.owners == t.owners + [w];
    }
    OthersKept(t, t', w);
    assert WriterOk(t', w);
    assert |t'.rows| > |t.rows| ==> OwnerOk(t', |t.rows|);
  }

  lemma TableKept(t: Table, a: Action)
    requires TableOk(t) && Enabled(t, a)
    ensures TableOk(Apply(t, a))
  {
    if a.Insert? {
      TableKeptByInsert(t, a.w);
    } else {
      MaxSeqIsLength(t.rows);
      assert a.Start? || WriterOk(t, a.w);
      OthersKept(t, Apply(t, a), a.w);
      assert WriterOk(Apply(t, a), a.w);
    }
  }

  /** However writers interleave, the committed positions are always 1..n and the
      message ids distinct, so whoever sees a position can see all before it. */
  lemma {:induction false} LogSafety(trace: seq<Table>, actions: seq<Action>, n: nat)
    requires IsRun(trace, actions) && n < |trace|
    ensures TableOk(trace[n])
  {
    if n > 0 {
      LogSafety(trace, actions, n - 1);
      TableKept(trace[n - 1], actions[n - 1]);
    }
  }

  /** At most one of any number of deliveries of a message is told it is new. */
  lemma NewOnce(t: Table, v: WriterId, w: WriterId)
    requires TableOk(t) && v in t.writers && w in t.writers
    requires t.writers[v].progress.Inserted? && t.writers[w].progress.Inserted?
    requires t.writers[v].incoming.id == t.writers[w].incoming.id
    ensures v == w
  {
    assert WriterOk(t, v) && WriterOk(t, w);
    var i, j := t.writers[v].progress.event.seqNo - 1, t.writers[w].progress.event.seqNo - 1;
    assert t.rows[i].id == t.rows[j].id;
  }

  /** A writer that gave up committed nothing, and only because at least
      five other events were committed since it started. */
  lemma ExhaustedLeavesNothing(t: Table, w: WriterId)
    requires TableOk(t) && w in t.writers && t.writers[w].progress.Exhausted?
    ensures w !in t.owners
    ensures t.writers[w].attempts == 5 && |t.rows| >= t.writers[w].startedAt + 5
  {
    assert WriterOk(t, w);
    forall i | 0 <= i < |t.owners| ensures t.owners[i] != w {
      assert OwnerOk(t, i);
    }
  }
}
