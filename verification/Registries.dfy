/** Which overlay is attached to which broadcaster. The history of attachments and
    removals is kept as a ghost, and the map is shown to be a function of it. */
module Registries {
  import opened Events

  /** One live connection: a bounded frame queue and a cancel that runs once. */
  class Conn {
    const userId: int
    const deviceId: int
    const hasCancel: bool
    var out: seq<Event>
    var closed: bool
    var cancels: nat
    ghost var pushed: seq<Event>

    ghost predicate Valid()
      reads this
    {
      && |out| <= OUTBOX_DEPTH
      && |out| <= |pushed| && out == pushed[|pushed| - |out|..]
      && cancels == if closed && hasCancel then 1 else 0
    }

    constructor (userId: int, deviceId: int, hasCancel: bool)
      ensures Valid() && out == [] && pushed == [] && !closed
      ensures this.userId == userId && this.deviceId == deviceId && this.hasCancel == hasCancel
    {
      this.userId, this.deviceId, this.hasCancel := userId, deviceId, hasCancel;
      out, closed, cancels, pushed := [], false, 0, [];
    }

    /** Safe to call more than once: the cancel function runs at most one time. */
    method Close()
      requires Valid()
      modifies this`closed, this`cancels
      ensures Valid() && closed
      ensures old(closed) ==> cancels == old(cancels)
    {
      if !closed {
        closed := true;
        if hasCancel {
          cancels := cancels + 1;
        }
      }
    }

    /** The non-blocking send: queue the frame, or drop the connection. */
    method Offer(frame: Event)
      requires Valid()
      modifies this
      ensures Valid()
      ensures if |old(out)| < 64
              then out == old(out) + [frame] && pushed == old(pushed) + [frame] && closed == old(closed)
              else out == old(out) && pushed == old(pushed) && closed
    {
      if |out| < OUTBOX_DEPTH {
        out := out + [frame];
        pushed := pushed + [frame];
      } else {
        Close();
      }
    }

    /** The websocket writer takes the oldest frame. */
    method Receive() returns (frame: Event)
      requires Valid() && out != []
      modifies this`out
      ensures Valid() && frame == old(out)[0] && out == old(out)[1..]
    {
      frame := out[0];
      out := out[1..];
    }
  }

  datatype Change = Added(user: int, conn: Conn) | Removed(conn: Conn)

  /** The connection was added for the user, and since then neither removed nor displaced. */
  ghost predicate Attached(history: seq<Change>, user: int, conn: Conn) {
    exists i :: 0 <= i < |history| && history[i] == Added(user, conn) && Undisturbed(history, i, user, conn)
  }

  ghost predicate Undisturbed(history: seq<Change>, i: nat, user: int, conn: Conn) {
    forall j :: i < j < |history| ==> history[j] != Removed(conn) && !(history[j].Added? && history[j].user == user)
  }

  ghost predicate HasAttached(history: seq<Change>, user: int) {
    exists i :: 0 <= i < |history| && history[i].Added? && history[i].user == user && Attached(history, user, history[i].conn)
  }

  /** At most one connection is attached to a user. */
  lemma AttachedUnique(history: seq<Change>, user: int, c: Conn, d: Conn)
    requires Attached(history, user, c) && Attached(history, user, d)
    ensures c == d
  {
    var i :| 0 <= i < |history| && history[i] == Added(user, c) && Undisturbed(history, i, user, c);
    var j :| 0 <= j < |history| && history[j] == Added(user, d) && Undisturbed(history, j, user, d);
  }

  lemma AttachedAfter(history: seq<Change>, change: Change, user: int, conn: Conn)
    ensures Attached(history + [change], user, conn) <==>
            change == Added(user, conn)
            || (Attached(history, user, conn) && change != Removed(conn) && !(change.Added? && change.user == user))
  {
    var longer := history + [change];
    if Attached(history, user, conn) && change != Removed(conn) && !(change.Added? && change.user == user) {
      var i :| 0 <= i < |history| && history[i] == Added(user, conn) && Undisturbed(history, i, user, conn);
      assert longer[i] == Added(user, conn) && Undisturbed(longer, i, user, conn);
    } else if change == Added(user, conn) {
      assert longer[|history|] == change && Undisturbed(longer, |history|, user, conn);
    } else if Attached(longer, user, conn) {
      var i :| 0 <= i < |longer| && longer[i] == Added(user, conn) && Undisturbed(longer, i, user, conn);
      assert longer[|history|] == change;
      assert forall j :: i < j < |history| ==> longer[j] == history[j];
      assert history[i] == Added(user, conn) && Undisturbed(history, i, user, conn);
    }
  }

  /** The map is what the history says: it holds, for every user, exactly the
      attached connection. */
  ghost predicate Tracks(m: map<int, Conn>, history: seq<Change>) {
    && (forall u :: u in m ==> m[u].userId == u && Attached(history, u, m[u]))
    && (forall i :: 0 <= i < |history| && history[i].Added? ==>
          && history[i].conn.userId == history[i].user
          && (Attached(history, history[i].user, history[i].conn) ==>
                history[i].user in m && m[history[i].user] == history[i].conn))
  }

  lemma TracksAdd(m: map<int, Conn>, history: seq<Change>, user: int, conn: Conn)
    requires Tracks(m, history) && conn.userId == user
    ensures Tracks(m[user := conn], history + [Added(user, conn)])
  {
    var m', longer := m[user := conn], history + [Added(user, conn)];
    forall u | u in m' ensures Attached(longer, u, m'[u]) {
      AttachedAfter(history, Added(user, conn), u, m'[u]);
    }
    forall i | 0 <= i < |longer| && longer[i].Added? && Attached(longer, longer[i].user, longer[i].conn)
      ensures longer[i].user in m' && m'[longer[i].user] == longer[i].conn
    {
      AttachedAfter(history, Added(user, conn), longer[i].user, longer[i].conn);
    }
  }

  /** Removal takes out the connection only if it is still the attached one. */
  lemma TracksRemove(m: map<int, Conn>, history: seq<Change>, conn: Conn)
    requires Tracks(m, history)
    ensures var m' := if conn.userId in m && m[conn.userId] == conn then m - {conn.userId} else m;
            Tracks(m', history + [Removed(conn)])
  {
    var m' := if conn.userId in m && m[conn.userId] == conn then m - {conn.userId} else m;
    var longer := history + [Removed(conn)];
    forall u | u in m' ensures Attached(longer, u, m'[u]) {
      AttachedAfter(history, Removed(conn), u, m'[u]);
    }
    forall i | 0 <= i < |longer| && longer[i].Added? && Attached(longer, longer[i].user, longer[i].conn)
      ensures longer[i].user in m' && m'[longer[i].user] == longer[i].conn
    {
      AttachedAfter(history, Removed(conn), longer[i].user, longer[i].conn);
    }
  }

  class Registry {
    var m: map<int, Conn>
    ghost var history: seq<Change>
    ghost var conns: set<Conn>

    /** `conns` is every connection ever added, displaced and removed ones included.
        Each keeps its own promises, and one that is no longer attached is closed. */
    ghost predicate Valid()
      reads this, conns
    {
      && Tracks(m, history)
      && (forall u :: u in m ==> m[u] in conns)
      && (forall i :: 0 <= i < |history| && history[i].Added? ==> history[i].conn in conns)
      && (forall c :: c in conns ==> c.Valid() && (c.closed || (c.userId in m && m[c.userId] == c)))
    }

    constructor ()
      ensures Valid() && m == map[] && history == [] && conns == {}
    {
      m, history, conns := map[], [], {};
    }

    /** For every connection ever added: its cancel ran at most once, its outbox
        holds at most 64 frames, the newest of those pushed to it in push order, and
        unless it is still attached it has been closed. */
    lemma EveryConnection(i: nat)
      requires Valid() && i < |history| && history[i].Added?
      ensures var c := history[i].conn;
              && c.cancels <= 1 && (c.cancels == 1 <==> c.closed && c.hasCancel)
              && |c.out| <= 64 && |c.out| <= |c.pushed| && c.out == c.pushed[|c.pushed| - |c.out|..]
              && (!c.closed ==> Attached(history, history[i].user, c))
    {
      assert history[i].conn in conns;
    }

    method Add(userId: int, deviceId: int, hasCancel: bool) returns (conn: Conn)
      requires Valid()
      modifies this, if userId in m then {m[userId]} else {}
      ensures Valid() && fresh(conn) && conns == old(conns) + {conn}
      ensures conn.out == [] && conn.pushed == [] && !conn.closed
      ensures conn.userId == userId && conn.deviceId == deviceId && conn.hasCancel == hasCancel
      ensures m == old(m)[userId := conn] && history == old(history) + [Added(userId, conn)]
      ensures userId in old(m) ==>
                var previous := old(m)[userId];
                previous.closed && previous.out == old(m[userId].out) && previous.pushed == old(m[userId].pushed)
    {
      conn := new Conn(userId, deviceId, hasCancel);
      var previous: Conn? := if userId in m then m[userId] else null;
      TracksAdd(m, history, userId, conn);
      m := m[userId := conn];
      history := history + [Added(userId, conn)];
      conns := conns + {conn};
      assert previous != null ==> previous.userId == userId && previous != conn;
      if previous != null {
        previous.Close();
      }
      assert forall c :: c in conns ==> c == conn || c == previous || (c in old(conns) && (c.closed || m[c.userId] == c));
    }

    /** A connection tearing down, attached or long displaced. */
    method Remove(conn: Conn?)
      requires Valid() && (conn != null ==> conn in conns)
      modifies this, if conn != null then {conn} else {}
      ensures Valid() && conns == old(conns)
      ensures conn == null ==> m == old(m) && history == old(history)
      ensures conn != null ==>
                && conn.closed && conn.out == old(conn.out) && conn.pushed == old(conn.pushed)
                && history == old(history) + [Removed(conn)]
                && m == if conn.userId in old(m) && old(m)[conn.userId] == conn then old(m) - {conn.userId} else old(m)
    {
      if conn == null {
        return;
      }
      TracksRemove(m, history, conn);
      if conn.userId in m && m[conn.userId] == conn {
        m := m - {conn.userId};
      }
      history := history + [Removed(conn)];
      conn.Close();
    }

    /** Delivery never blocks: nobody attached drops the frame, a full outbox
        drops the connection. */
    method Push(userId: int, frame: Event)
      requires Valid()
      modifies if userId in m then {m[userId]} else {}
      ensures Valid()
      ensures userId in m ==>
                var c := m[userId];
                if |old(c.out)| < 64
                then c.out == old(c.out) + [frame] && c.pushed == old(c.pushed) + [frame] && c.closed == old(c.closed)
                else c.out == old(c.out) && c.pushed == old(c.pushed) && c.closed
    {
      if userId in m {
        m[userId].Offer(frame);
      }
    }

    /** The writer of any connection, attached or not, takes its oldest frame. */
    method Next(conn: Conn) returns (frame: Event)
      requires Valid() && conn in conns && conn.out != []
      modifies conn`out
      ensures Valid() && [frame] + conn.out == old(conn.out)
    {
      frame := conn.Receive();
    }

    /** A revocation closes the socket only if it is that device's. */
    method DisconnectDevice(userId: int, deviceId: int)
      requires Valid()
      modifies if userId in m then {m[userId]} else {}
      ensures Valid()
      ensures userId in m ==>
                m[userId].out == old(m[userId].out)
                && (m[userId].closed <==> old(m[userId].closed) || m[userId].deviceId == deviceId)
    {
      if userId in m && m[userId].deviceId == deviceId {
        m[userId].Close();
      }
    }

    method ConnectedDeviceId(userId: int) returns (deviceId: int, ok: bool)
      requires Valid()
      ensures ok <==> HasAttached(history, userId)
      ensures ok ==> userId in m && deviceId == m[userId].deviceId
      ensures ok ==> forall i :: 0 <= i < |history| && history[i].Added? && Attached(history, userId, history[i].conn) ==>
                       history[i].conn == m[userId]
    {
      ok := userId in m;
      assert ok ==> Attached(history, userId, m[userId]);
      forall i | ok && 0 <= i < |history| && history[i].Added? && Attached(history, userId, history[i].conn)
        ensures history[i].conn == m[userId]
      {
        AttachedUnique(history, userId, history[i].conn, m[userId]);
      }
      deviceId := if ok then m[userId].deviceId else 0;
    }
  }

  /** A second sign-in displaces the first connection. */
  method SignInTwice(r: Registry, userId: int, first: int, second: int) returns (a: Conn, b: Conn)
    requires r.Valid()
    modifies r, if userId in r.m then {r.m[userId]} else {}
    ensures r.Valid() && fresh(a) && fresh(b) && a != b && a in r.conns && b in r.conns
    ensures a.userId == userId && userId in r.m && r.m[userId] == b && !b.closed && a.closed && a.hasCancel
  {
    a := r.Add(userId, first, true);
    b := r.Add(userId, second, true);
  }

  /** The displaced connection's own teardown comes later: the replacement stays
      attached and open, and the displaced one is cancelled once although it is
      closed twice. */
  method Takeover(r: Registry, userId: int, first: int, second: int) returns (a: Conn, b: Conn)
    requires r.Valid()
    modifies r, if userId in r.m then {r.m[userId]} else {}
    ensures r.Valid() && fresh(a) && fresh(b)
    ensures userId in r.m && r.m[userId] == b && !b.closed && b.cancels == 0
    ensures a.closed && a.cancels == 1
  {
    a, b := SignInTwice(r, userId, first, second);
    r.Remove(a);
    assert a.Valid() && b.Valid();
  }
}
