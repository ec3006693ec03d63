/** The log service of one broadcaster: ingest with its retry loop, the replay
    query, and device minting. Writers that win the race during an attempt are
    part of the attempt. */
module EventStore {
  import opened Events
  import opened IngestRace
  import Relay

  /** What happens around one attempt: who commits meanwhile, and whether the
      statement fails for a reason other than the constraints. */
  datatype Attempt = Attempt(racers: seq<Incoming>, fails: bool)

  datatype Outcome = New(event: Event) | Known | LostRace | Broken

  datatype IngestResult = Stored(event: Event) | AlreadyStored | GaveUp | Errored

  /** A competing delivery committing in full. */
  function Commit(rows: seq<Event>, incoming: Incoming): seq<Event> {
    if HasMessage(rows, incoming.id) then rows
    else rows + [Event(|rows| + 1, incoming.id, incoming.kind, incoming.payload)]
  }

  function CommitAll(rows: seq<Event>, racers: seq<Incoming>): seq<Event> {
    if racers == [] then rows else Commit(CommitAll(rows, racers[..|racers| - 1]), racers[|racers| - 1])
  }

  lemma {:induction false} CommitAllGrows(rows: seq<Event>, racers: seq<Incoming>)
    requires LogOk(rows)
    ensures LogOk(CommitAll(rows, racers)) && rows <= CommitAll(rows, racers)
  {
    if racers != [] {
      CommitAllGrows(rows, racers[..|racers| - 1]);
      var before, last := CommitAll(rows, racers[..|racers| - 1]), racers[|racers| - 1];
      if !HasMessage(before, last.id) {
        NewMessageFits(before, Event(|before| + 1, last.id, last.kind, last.payload));
      }
    }
  }

  /** What the retry loop yields, attempt by attempt: only a lost position is retried. */
  function IngestFrom(rows: seq<Event>, incoming: Incoming, attempts: seq<Attempt>): (seq<Event>, IngestResult)
    decreases |attempts|
  {
    if attempts == [] then (rows, GaveUp)
    else
      var raced := CommitAll(rows, attempts[0].racers);
      if attempts[0].fails then (raced, Errored)
      else if HasMessage(raced, incoming.id) then (raced, AlreadyStored)
      else if |raced| != |rows| then IngestFrom(raced, incoming, attempts[1..])
      else
        var e := Event(|rows| + 1, incoming.id, incoming.kind, incoming.payload);
        (raced + [e], Stored(e))
  }

  function CommitAround(rows: seq<Event>, attempts: seq<Attempt>): seq<Event>
    decreases |attempts|
  {
    if attempts == [] then rows else CommitAround(CommitAll(rows, attempts[0].racers), attempts[1..])
  }

  ghost predicate Overtaken(rows: seq<Event>, attempts: seq<Attempt>)
    decreases |attempts|
  {
    attempts != [] ==>
      !attempts[0].fails && |CommitAll(rows, attempts[0].racers)| > |rows|
      && Overtaken(CommitAll(rows, attempts[0].racers), attempts[1..])
  }

  /** Ingest stores a message at most once and reports it new exactly when this call
      stored it, and gives up only after every attempt was overtaken. */
  lemma {:induction false} IngestIsIdempotent(rows: seq<Event>, incoming: Incoming, attempts: seq<Attempt>)
    requires LogOk(rows)
    ensures var (rows', r) := IngestFrom(rows, incoming, attempts);
            && LogOk(rows') && rows <= rows'
            && (HasMessage(rows, incoming.id) && attempts != [] ==> r == if attempts[0].fails then Errored else AlreadyStored)
            && (r.Stored? ==> !HasMessage(rows, incoming.id) && rows' != [] && rows'[|rows'| - 1] == r.event
                              && r.event == Event(|rows'|, incoming.id, incoming.kind, incoming.payload))
            && (r.AlreadyStored? ==> HasMessage(rows', incoming.id))
            && (r.GaveUp? ==> Overtaken(rows, attempts) && |rows'| >= |rows| + |attempts|
                              && (attempts != [] ==> !HasMessage(rows', incoming.id)))
    decreases |attempts|
  {
    if attempts != [] {
      var raced := CommitAll(rows, attempts[0].racers);
      CommitAllGrows(rows, attempts[0].racers);
      if !attempts[0].fails && !HasMessage(raced, incoming.id) && |raced| != |rows| {
        IngestIsIdempotent(raced, incoming, attempts[1..]);
      } else if !attempts[0].fails && !HasMessage(raced, incoming.id) {
        NewMessageFits(raced, Event(|rows| + 1, incoming.id, incoming.kind, incoming.payload));
      }
      if HasMessage(rows, incoming.id) {
        var i :| 0 <= i < |rows| && rows[i].id == incoming.id;
        assert raced[i].id == incoming.id;
      }
    }
  }

  lemma {:induction false} CommitAroundGrows(rows: seq<Event>, attempts: seq<Attempt>, id: MessageId)
    requires LogOk(rows)
    ensures LogOk(CommitAround(rows, attempts)) && rows <= CommitAround(rows, attempts)
    ensures HasMessage(rows, id) ==> HasMessage(CommitAround(rows, attempts), id)
    decreases |attempts|
  {
    if attempts != [] {
      var raced := CommitAll(rows, attempts[0].racers);
      CommitAllGrows(rows, attempts[0].racers);
      CommitAroundGrows(raced, attempts[1..], id);
    }
    if HasMessage(rows, id) {
      var i :| 0 <= i < |rows| && rows[i].id == id;
      assert CommitAround(rows, attempts)[i].id == id;
    }
  }

  /** Exactly when a call gives up: every attempt was overtaken, and none of those who
      overtook it brought the same message. */
  lemma {:induction false} GivesUpIff(rows: seq<Event>, incoming: Incoming, attempts: seq<Attempt>)
    requires LogOk(rows) && attempts != []
    ensures IngestFrom(rows, incoming, attempts).1 == GaveUp <==>
              Overtaken(rows, attempts) && !HasMessage(CommitAround(rows, attempts), incoming.id)
    decreases |attempts|
  {
    var raced := CommitAll(rows, attempts[0].racers);
    CommitAllGrows(rows, attempts[0].racers);
    CommitAroundGrows(raced, attempts[1..], incoming.id);
    if |attempts| > 1 {
      GivesUpIff(raced, incoming, attempts[1..]);
    }
  }

  /** Undisturbed, a new message is stored at the next position on the first attempt. */
  lemma UndisturbedIsStored(rows: seq<Event>, incoming: Incoming, attempts: seq<Attempt>)
    requires attempts != [] && attempts[0] == Attempt([], false) && !HasMessage(rows, incoming.id)
    ensures var e := Event(|rows| + 1, incoming.id, incoming.kind, incoming.payload);
            IngestFrom(rows, incoming, attempts) == (rows + [e], Stored(e))
  {
  }

  /** A call that errored or gave up committed nothing: the log is what the others made
      of it up to the attempt it stopped at. */
  lemma {:induction false} FailureStoresNothing(rows: seq<Event>, incoming: Incoming, attempts: seq<Attempt>) returns (n: nat)
    ensures n <= |attempts|
    ensures var (rows', r) := IngestFrom(rows, incoming, attempts);
            && (r.GaveUp? ==> n == |attempts|)
            && (r.Errored? ==> n > 0 && attempts[n - 1].fails)
            && (r.GaveUp? || r.Errored? ==> rows' == CommitAround(rows, attempts[..n]))
    decreases |attempts|
  {
    if attempts == [] {
      n := 0;
    } else if attempts[0].fails {
      n := 1;
      assert attempts[..1][1..] == [];
    } else {
      var m := FailureStoresNothing(CommitAll(rows, attempts[0].racers), incoming, attempts[1..]);
      n := m + 1;
      assert attempts[..n][1..] == attempts[1..][..m];
    }
  }

  /** A registered overlay client: where its replay begins, and whether its token
      still authenticates. */
  datatype Device = Device(startSeq: nat, revoked: bool)

  lemma PageIsOrdered(rows: seq<Event>, since: nat, page: seq<Event>)
    requires LogOk(rows) && page <= NonCommands(rows, since)
    ensures forall e :: e in page ==> e in rows && e.kind != Command && e.seqNo > since
    ensures Increasing(page)
  {
    NonCommandsIncreasing(rows, since);
    forall e | e in page ensures e in rows && e.kind != Command && e.seqNo > since {
      NonCommandsMember(rows, since, e);
    }
  }

  class Store {
    var rows: seq<Event>
    var devices: seq<Device>

    ghost predicate Valid() reads this {
      LogOk(rows)
    }

    constructor ()
      ensures Valid() && rows == [] && devices == []
    {
      rows, devices := [], [];
    }

    /** One statement: snapshot, then insert under both constraints, or fail. */
    method AppendEvent(incoming: Incoming, around: Attempt) returns (r: Outcome)
      requires Valid()
      modifies this`rows
      ensures Valid()
      ensures var raced := CommitAll(old(rows), around.racers);
              && (r.Broken? <==> around.fails)
              && (r.Known? <==> !around.fails && HasMessage(raced, incoming.id))
              && (r.LostRace? <==> !around.fails && !HasMessage(raced, incoming.id) && |raced| != |old(rows)|)
              && (r.New? ==> r.event == Event(|old(rows)| + 1, incoming.id, incoming.kind, incoming.payload))
              && rows == if r.New? then raced + [r.event] else raced
    {
      var next := MaxSeq(rows) + 1;
      MaxSeqIsLength(rows);
      CommitAllGrows(rows, around.racers);
      ghost var before := rows;
      rows := CommitAll(rows, around.racers);
      assert |rows| > |before| ==> rows[|before|].seqNo == next;
      if around.fails {
        r := Broken;
      } else if HasMessage(rows, incoming.id) {
        r := Known;
      } else if HasPosition(rows, next) {
        r := LostRace;
      } else {
        var e := Event(next, incoming.id, incoming.kind, incoming.payload);
        NewMessageFits(rows, e);
        rows := rows + [e];
        r := New(e);
      }
    }

    method Ingest(incoming: Incoming, attempts: seq<Attempt>) returns (r: IngestResult)
      requires Valid() && |attempts| == 5
      modifies this`rows
      ensures Valid()
      ensures (rows, r) == IngestFrom(old(rows), incoming, attempts)
    {
      for n := 0 to SEQ_RETRIES
        invariant Valid()
        invariant IngestFrom(rows, incoming, attempts[n..]) == IngestFrom(old(rows), incoming, attempts)
      {
        var o := AppendEvent(incoming, attempts[n]);
        assert attempts[n..][1..] == attempts[n + 1..];
        match o {
          case New(e) => return Stored(e);
          case Known => return AlreadyStored;
          case Broken => return Errored;
          case LostRace =>
        }
      }
      r := GaveUp;
    }

    /** The replay query, one page: oldest first, commands excluded. A limit from 1 to
        500 is kept, any other means 500, and a page shorter than that is all there is. */
    method EventsAfter(since: nat, limit: int) returns (page: seq<Event>)
      requires Valid()
      ensures page <= NonCommands(rows, since)
      ensures 0 < limit <= 500 ==> |page| <= limit && (|page| < limit ==> page == NonCommands(rows, since))
      ensures limit <= 0 || limit > 500 ==> |page| <= 500 && (|page| < 500 ==> page == NonCommands(rows, since))
      ensures limit == 500 ==> page == Relay.EventsAfter(rows, since, MAX_REPLAY)
      ensures forall e :: e in page ==> e in rows && e.kind != Command && e.seqNo > since
      ensures Increasing(page)
    {
      var bound := if limit <= 0 || limit > MAX_REPLAY then MAX_REPLAY else limit;
      page := [];
      var i := 0;
      while i < |rows| && |page| < bound
        invariant 0 <= i <= |rows| && |page| <= bound
        invariant page == NonCommands(rows[..i], since)
      {
        NonCommandsSnoc(rows[..i], rows[i], since);
        assert rows[..i + 1] == rows[..i] + [rows[i]];
        if Replayable(rows[i], since) {
          page := page + [rows[i]];
        }
        i := i + 1;
      }
      NonCommandsPrefix(rows[..i], rows, since);
      assert i == |rows| ==> rows[..i] == rows;
      PageIsOrdered(rows, since, page);
    }

    /** Minting revokes every earlier token and floors the new device's replay at
        the log's current tail. */
    method CreateDevice()
      requires Valid()
      modifies this`devices
      ensures Valid() && |devices| == |old(devices)| + 1
      ensures forall i :: 0 <= i < |old(devices)| ==> devices[i] == old(devices)[i].(revoked := true)
      ensures devices[|old(devices)|] == Device(|rows|, false)
      ensures NonCommands(rows, devices[|old(devices)|].startSeq) == []
    {
      var startSeq := MaxSeq(rows);
      MaxSeqIsLength(rows);
      NonCommandsNone(rows, startSeq);
      devices := seq(|devices|, i requires 0 <= i < |devices| reads this => devices[i].(revoked := true)) + [Device(startSeq, false)];
    }
  }
}
