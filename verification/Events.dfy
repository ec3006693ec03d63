/** The events of one broadcaster's durable log, and the two filters the relay
    applies to them: the replay query (no commands, above a cursor) and the live
    dedup (above a position). */
module Events {

  /** How many frames an outbox holds, and how many events a replay page. */
  const OUTBOX_DEPTH: nat := 64
  const MAX_REPLAY: nat := 500

  type MessageId = string

  datatype Kind = Cheer | Redemption | PowerUp | Extension | Command

  /** One stored notification; `seqNo` is its cursor position, counted from 1. */
  datatype Event = Event(seqNo: nat, id: MessageId, kind: Kind, payload: string)

  /** The log's two unique constraints, plus gap-freedom: positions are 1..n. */
  ghost predicate LogOk(log: seq<Event>) {
    && Numbered(log)
    && forall i, j :: 0 <= i < j < |log| ==> log[i].id != log[j].id
  }

  ghost predicate Numbered(log: seq<Event>) {
    forall i :: 0 <= i < |log| ==> log[i].seqNo == i + 1
  }

  ghost predicate Increasing(es: seq<Event>) {
    forall i, j :: 0 <= i < j < |es| ==> es[i].seqNo < es[j].seqNo
  }

  ghost predicate NoDuplicates<T>(es: seq<T>) {
    forall i, j :: 0 <= i < j < |es| ==> es[i] != es[j]
  }

  predicate HasMessage(log: seq<Event>, id: MessageId) {
    exists i :: 0 <= i < |log| && log[i].id == id
  }

  predicate Replayable(e: Event, since: nat) {
    e.kind != Command && e.seqNo > since
  }

  /** The replay query without its limit: non-command events above `since`, in order. */
  function NonCommands(es: seq<Event>, since: nat): seq<Event> {
    if es == [] then []
    else
      var e := es[|es| - 1];
      NonCommands(es[..|es| - 1], since) + if Replayable(e, since) then [e] else []
  }

  /** The live dedup rule: what is left after dropping frames at or below `position`. */
  function Above(es: seq<Event>, position: nat): seq<Event> {
    if es == [] then []
    else
      var e := es[|es| - 1];
      Above(es[..|es| - 1], position) + if e.seqNo > position then [e] else []
  }

  lemma NonCommandsSnoc(es: seq<Event>, e: Event, since: nat)
    ensures NonCommands(es + [e], since)
         == NonCommands(es, since) + if Replayable(e, since) then [e] else []
  {
    assert (es + [e])[..|es|] == es;
  }

  lemma AboveSnoc(es: seq<Event>, e: Event, position: nat)
    ensures Above(es + [e], position) == Above(es, position) + if e.seqNo > position then [e] else []
  {
    assert (es + [e])[..|es|] == es;
  }

  /** Handling one more frame of a queue. */
  lemma AboveNext(es: seq<Event>, n: nat, position: nat)
    requires n < |es|
    ensures Above(es[..n + 1], position) == Above(es[..n], position) + if es[n].seqNo > position then [es[n]] else []
  {
    assert es[..n + 1] == es[..n] + [es[n]];
    AboveSnoc(es[..n], es[n], position);
  }

  lemma {:induction false} NonCommandsConcat(a: seq<Event>, b: seq<Event>, since: nat)
    ensures NonCommands(a + b, since) == NonCommands(a, since) + NonCommands(b, since)
  {
    if b == [] {
      assert a + b == a;
    } else {
      var e, b' := b[|b| - 1], b[..|b| - 1];
      assert a + b == (a + b') + [e];
      NonCommandsSnoc(a + b', e, since);
      NonCommandsConcat(a, b', since);
    }
  }

  lemma {:induction false} NonCommandsMember(es: seq<Event>, since: nat, e: Event)
    ensures e in NonCommands(es, since) <==> e in es && Replayable(e, since)
  {
    if es != [] {
      NonCommandsMember(es[..|es| - 1], since, e);
      assert es == es[..|es| - 1] + [es[|es| - 1]];
    }
  }

  lemma {:induction false} AboveMember(es: seq<Event>, position: nat, e: Event)
    ensures e in Above(es, position) <==> e in es && e.seqNo > position
  {
    if es != [] {
      AboveMember(es[..|es| - 1], position, e);
      assert es == es[..|es| - 1] + [es[|es| - 1]];
    }
  }

  lemma {:induction false} NonCommandsIncreasing(es: seq<Event>, since: nat)
    requires Increasing(es)
    ensures Increasing(NonCommands(es, since))
  {
    if es != [] {
      var init := es[..|es| - 1];
      NonCommandsIncreasing(init, since);
      forall i | 0 <= i < |NonCommands(init, since)|
        ensures NonCommands(init, since)[i].seqNo < es[|es| - 1].seqNo
      {
        NonCommandsMember(init, since, NonCommands(init, since)[i]);
      }
    }
  }

  lemma {:induction false} AboveNoDuplicates(es: seq<Event>, position: nat)
    requires NoDuplicates(es)
    ensures NoDuplicates(Above(es, position))
  {
    if es != [] {
      var init := es[..|es| - 1];
      AboveNoDuplicates(init, position);
      AboveMember(init, position, es[|es| - 1]);
    }
  }

  /** A longer log only extends what the query returns. */
  lemma NonCommandsPrefix(short: seq<Event>, long: seq<Event>, since: nat)
    requires short <= long
    ensures NonCommands(short, since) <= NonCommands(long, since)
  {
    assert long == short + long[|short|..];
    NonCommandsConcat(short, long[|short|..], since);
  }

  lemma {:induction false} AboveConcat(a: seq<Event>, b: seq<Event>, position: nat)
    ensures Above(a + b, position) == Above(a, position) + Above(b, position)
  {
    if b == [] {
      assert a + b == a;
    } else {
      var e, b' := b[|b| - 1], b[..|b| - 1];
      assert a + b == (a + b') + [e];
      AboveSnoc(a + b', e, position);
      AboveConcat(a, b', position);
    }
  }

  lemma AbovePrefix(short: seq<Event>, long: seq<Event>, position: nat)
    requires short <= long
    ensures Above(short, position) <= Above(long, position)
  {
    assert long == short + long[|short|..];
    AboveConcat(short, long[|short|..], position);
  }

  lemma {:induction false} AboveAll(es: seq<Event>, position: nat)
    requires forall e :: e in es ==> e.seqNo > position
    ensures Above(es, position) == es
  {
    if es != [] {
      var init, last := es[..|es| - 1], es[|es| - 1];
      assert es == init + [last];
      assert last in es;
      AboveAll(init, position);
    }
  }

  lemma {:induction false} NonCommandsNone(es: seq<Event>, since: nat)
    requires forall e :: e in es ==> !Replayable(e, since)
    ensures NonCommands(es, since) == []
  {
    if es != [] {
      NonCommandsNone(es[..|es| - 1], since);
    }
  }

  lemma {:induction false} NonCommandsSame(es: seq<Event>, a: nat, b: nat)
    requires forall e :: e in es ==> (Replayable(e, a) <==> Replayable(e, b))
    ensures NonCommands(es, a) == NonCommands(es, b)
  {
    if es != [] {
      NonCommandsSame(es[..|es| - 1], a, b);
    }
  }

  /** A stretch whose last event is its only replayable one. */
  lemma OnlyLastReplayable(front: seq<Event>, f: Event, since: nat)
    requires Replayable(f, since)
    requires forall e :: e in front ==> !Replayable(e, since) && e.seqNo < f.seqNo
    ensures NonCommands(front + [f], since) == [f] && NonCommands(front + [f], f.seqNo) == []
  {
    NonCommandsSnoc(front, f, since);
    NonCommandsNone(front, since);
    NonCommandsSnoc(front, f, f.seqNo);
    NonCommandsNone(front, f.seqNo);
  }

  /** Splitting a log at its first replayable event. */
  lemma SplitAtReplayable(front: seq<Event>, f: Event, after: seq<Event>, since: nat)
    requires Replayable(f, since)
    requires forall e :: e in front ==> !Replayable(e, since) && e.seqNo < f.seqNo
    requires forall e :: e in after ==> e.seqNo > f.seqNo
    ensures NonCommands(front + [f] + after, since) == [f] + NonCommands(front + [f] + after, f.seqNo)
  {
    OnlyLastReplayable(front, f, since);
    NonCommandsConcat(front + [f], after, since);
    NonCommandsConcat(front + [f], after, f.seqNo);
    NonCommandsSame(after, since, f.seqNo);
    var rest := NonCommands(after, since);
    assert [] + rest == rest;
  }

  /** The first event the query returns is the log's first replayable one. */
  lemma FirstIsEarliest(log: seq<Event>, since: nat)
    requires Numbered(log) && NonCommands(log, since) != []
    ensures var f := NonCommands(log, since)[0];
            && Replayable(f, since)
            && 0 < f.seqNo <= |log| && log[f.seqNo - 1] == f
            && (forall e :: e in log && Replayable(e, since) ==> f.seqNo <= e.seqNo)
  {
    var all := NonCommands(log, since);
    NonCommandsMember(log, since, all[0]);
    NonCommandsIncreasing(log, since);
    forall e | e in log && Replayable(e, since) ensures all[0].seqNo <= e.seqNo {
      NonCommandsMember(log, since, e);
    }
  }

  /** The rest of the query's answer is the query restarted from its first event. */
  lemma FirstNonCommand(log: seq<Event>, since: nat)
    requires Numbered(log) && NonCommands(log, since) != []
    ensures var f := NonCommands(log, since)[0];
            && Replayable(f, since)
            && 0 < f.seqNo <= |log| && log[f.seqNo - 1] == f
            && (forall e :: e in log && Replayable(e, since) ==> f.seqNo <= e.seqNo)
            && NonCommands(log, f.seqNo) == NonCommands(log, since)[1..]
  {
    FirstIsEarliest(log, since);
    var f := NonCommands(log, since)[0];
    var front, after := log[..f.seqNo - 1], log[f.seqNo..];
    assert log == front + [f] + after;
    SplitAtReplayable(front, f, after, since);
    var rest := NonCommands(log, f.seqNo);
    assert ([f] + rest)[1..] == rest;
  }

  lemma NothingBetween(done: seq<Event>, between: seq<Event>, f: Event, floor: nat)
    requires Replayable(f, floor) && forall e :: e in between ==> !Replayable(e, floor)
    ensures NonCommands(done + between + [f], floor) == NonCommands(done, floor) + [f]
  {
    NonCommandsSnoc(done + between, f, floor);
    NonCommandsConcat(done, between, floor);
    NonCommandsNone(between, floor);
    assert NonCommands(done, floor) + [] == NonCommands(done, floor);
  }

  /** Replaying the first remaining event extends the replayed stretch by exactly it. */
  lemma ReplayNext(log: seq<Event>, floor: nat, done: nat, cursor: nat)
    requires Numbered(log) && done <= |log|
    requires cursor == if done == 0 then floor else done
    requires floor <= cursor && NonCommands(log, cursor) != []
    ensures var f := NonCommands(log, cursor)[0];
            f.seqNo <= |log| && NonCommands(log[..f.seqNo], floor) == NonCommands(log[..done], floor) + [f]
  {
    FirstNonCommand(log, cursor);
    var f := NonCommands(log, cursor)[0];
    var between := log[done..f.seqNo - 1];
    forall e | e in between ensures !Replayable(e, floor) {
      assert e in log && done < e.seqNo < f.seqNo;
      assert !Replayable(e, cursor);
    }
    assert log[..f.seqNo] == log[..done] + between + [f];
    NothingBetween(log[..done], between, f, floor);
  }

  /** Appending to a prefix of an increasing sequence keeps it a prefix when
      nothing in between is missing. */
  lemma PrefixExtend(part: seq<Event>, whole: seq<Event>, e: Event)
    requires part <= whole && Increasing(whole) && e in whole
    requires forall x :: x in part ==> x.seqNo < e.seqNo
    requires forall x :: x in whole && x.seqNo < e.seqNo ==> x in part
    ensures part + [e] <= whole
  {
    var j :| 0 <= j < |whole| && whole[j] == e;
    assert |part| < |whole| ==> whole[|part|] in whole;
  }
}
