/** The client object and the per-connection server loop, in their own imperative
    form, with the network's behaviour on each attempt given as a fate. */
module ExecutorClient {

  type CommandId = nat

  datatype Fate =
    | DialFails               // no connection could be opened (only when one was needed)
    | MarshalFails            // the command could not be encoded; the connection stays
    | WriteLost               // the write failed and nothing arrived
    | WriteErrorAfterArrival  // the write failed although the bytes arrived
    | AnswerLost              // executed, but the answer never came
    | BadAnswer               // the answer did not verify
    | Answered

  datatype Result = Executed(ack: CommandId) | Failed

  /** Did the command reach the server on an attempt with this fate? */
  predicate Reaches(fate: Fate) {
    fate.WriteErrorAfterArrival? || fate.AnswerLost? || fate.BadAnswer? || fate.Answered?
  }

  /** A transport failure on an open connection, the only kind that is retried. */
  predicate Retried(fate: Fate) {
    fate.WriteLost? || fate.WriteErrorAfterArrival? || fate.AnswerLost?
  }

  /** With an open connection there is nothing to dial, and the exchange is clean. */
  function Effective(open: bool, fate: Fate): Fate {
    if open && fate.DialFails? then Answered else fate
  }

  /** What one Send makes the executor run, what it returns, and whether it leaves
      the connection open, by the fates of its attempts. */
  function SubmittedBy(open: bool, id: CommandId, first: Fate, second: Fate): seq<CommandId> {
    var f := Effective(open, first);
    (if Reaches(f) then [id] else []) + (if Retried(f) && Reaches(second) then [id] else [])
  }

  function LastFate(open: bool, first: Fate, second: Fate): Fate {
    var f := Effective(open, first);
    if Retried(f) then second else f
  }

  function ResultOf(open: bool, id: CommandId, first: Fate, second: Fate): Result {
    if LastFate(open, first, second) == Answered then Executed(id) else Failed
  }

  predicate KeepsOpen(fate: Fate) {
    fate.Answered? || fate.MarshalFails?
  }

  /** The executor behind the server: the commands it was asked to run. */
  class Executor {
    var submits: seq<CommandId>

    constructor ()
      ensures submits == []
    {
      submits := [];
    }
  }

  /** The server loop's state for one connection. */
  class Link {
    var lastReqSeq: nat
    var ackSeq: nat

    constructor ()
      ensures lastReqSeq == 0 && ackSeq == 0
    {
      lastReqSeq, ackSeq := 0, 0;
    }

    /** One turn: reject a replayed number, otherwise submit and number the answer. */
    method Serve(executor: Executor, seqNo: nat, id: CommandId) returns (answer: nat, ok: bool)
      modifies this, executor
      ensures ok <==> seqNo > old(lastReqSeq)
      ensures ok ==> lastReqSeq == seqNo && ackSeq == old(ackSeq) + 1 == answer
                     && executor.submits == old(executor.submits) + [id]
      ensures !ok ==> lastReqSeq == old(lastReqSeq) && ackSeq == old(ackSeq) && executor.submits == old(executor.submits)
    {
      answer := 0;
      ok := seqNo > lastReqSeq;
      if ok {
        lastReqSeq := seqNo;
        executor.submits := executor.submits + [id];
        ackSeq := ackSeq + 1;
        answer := ackSeq;
      }
    }
  }

  class Client {
    var conn: Link?
    var sentSeq: nat
    var lastAckSeq: nat

    /** The two ends' counters agree on the open connection. */
    ghost predicate Valid()
      reads this, conn
    {
      conn != null ==> conn.lastReqSeq <= sentSeq && conn.ackSeq == lastAckSeq
    }

    constructor ()
      ensures Valid() && conn == null
    {
      conn, sentSeq, lastAckSeq := null, 0, 0;
    }

    method EnsureConnected(fate: Fate) returns (ok: bool)
      requires Valid()
      modifies this
      ensures Valid()
      ensures old(conn) != null ==> ok && conn == old(conn) && sentSeq == old(sentSeq) && lastAckSeq == old(lastAckSeq)
      ensures old(conn) == null ==> (ok <==> fate != DialFails)
      ensures old(conn) == null && ok ==> conn != null && fresh(conn) && sentSeq == 0 && lastAckSeq == 0
      ensures !ok ==> conn == null
    {
      if conn != null {
        return true;
      }
      if fate == DialFails {
        return false;
      }
      conn := new Link();
      sentSeq, lastAckSeq := 0, 0;
      ok := true;
    }

    /** One attempt. With an open connection the dial fate reads as a clean exchange. */
    method SendOnce(executor: Executor, id: CommandId, fate: Fate) returns (r: Result, retryable: bool)
      requires Valid()
      modifies this, conn, executor
      ensures Valid() && (conn == null || conn == old(conn) || fresh(conn))
      ensures var f := Effective(old(conn) != null, fate);
              && executor.submits == old(executor.submits) + (if Reaches(f) then [id] else [])
              && r == (if f == Answered then Executed(id) else Failed)
              && (retryable <==> Retried(f))
              && (conn != null <==> KeepsOpen(f))
    {
      retryable, r := false, Failed;
      var connected := EnsureConnected(fate);
      if !connected {
        return;
      }
      sentSeq := sentSeq + 1;
      var seqNo := sentSeq;
      if fate == MarshalFails {
        return;
      }
      if fate == WriteLost {
        conn := null;
        return Failed, true;
      }
      var answer, ok := conn.Serve(executor, seqNo, id);
      if fate == WriteErrorAfterArrival || fate == AnswerLost {
        conn := null;
        return Failed, true;
      }
      if fate == BadAnswer {
        conn := null;
        return Failed, false;
      }
      if answer <= lastAckSeq {
        return Failed, false;
      }
      lastAckSeq := answer;
      r := Executed(id);
    }

    /** Send, with its single retry on a fresh connection: at most two submits, at
        least one when it succeeds, and the second only after a transport failure. */
    method Send(executor: Executor, id: CommandId, first: Fate, second: Fate) returns (r: Result)
      requires Valid()
      modifies this, conn, executor
      ensures Valid()
      ensures var open := old(conn) != null;
              && executor.submits == old(executor.submits) + SubmittedBy(open, id, first, second)
              && r == ResultOf(open, id, first, second)
              && (conn != null <==> KeepsOpen(LastFate(open, first, second)))
      ensures r.Executed? ==> r.ack == id && id in executor.submits
      ensures first.WriteLost? || first.WriteErrorAfterArrival? || first.AnswerLost? ==>
                && (r == Executed(id) <==> second.Answered?)
                && executor.submits == old(executor.submits) + (if first.WriteLost? then [] else [id])
                     + (if second.DialFails? || second.MarshalFails? || second.WriteLost? then [] else [id])
      ensures first.Answered? || (first.DialFails? && old(conn) != null) ==>
                r == Executed(id) && executor.submits == old(executor.submits) + [id] && conn != null
      ensures first.BadAnswer? ==> r == Failed && executor.submits == old(executor.submits) + [id] && conn == null
      ensures first.MarshalFails? ==> r == Failed && executor.submits == old(executor.submits) && conn != null
      ensures first.DialFails? && old(conn) == null ==> r == Failed && executor.submits == old(executor.submits) && conn == null
      ensures |executor.submits| <= |old(executor.submits)| + 2
    {
      var retryable;
      r, retryable := SendOnce(executor, id, first);
      if r.Failed? && retryable {
        r, retryable := SendOnce(executor, id, second);
      }
    }
  }
}
