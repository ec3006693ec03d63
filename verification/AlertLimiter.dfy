/** The alert hook's dedupe and burst limits. The posts it accepted are kept as a
    ghost history, against which its evicting map is judged. */
module AlertLimiter {
  import opened Basics

  const DEDUPE_WINDOW: int := 300 * SECOND
  const MIN_INTERVAL: int := 2 * SECOND
  const MAP_BOUND: nat := 256

  datatype Post = Post(message: string, at: int)

  /** The decision of a limiter that remembers every post it ever accepted. */
  ghost predicate Allowed(history: seq<Post>, message: string, now: int) {
    && (forall i :: 0 <= i < |history| && history[i].message == message ==> now - history[i].at >= DEDUPE_WINDOW)
    && (history != [] ==> now - history[|history| - 1].at >= MIN_INTERVAL)
  }

  /** Every post was allowed by the ones before it. */
  ghost predicate Disciplined(history: seq<Post>) {
    history != [] ==>
      var init, last := history[..|history| - 1], history[|history| - 1];
      Disciplined(init) && Allowed(init, last.message, last.at)
  }

  /** Accepted posts are 2 s apart each, equal messages 5 minutes. */
  lemma {:induction false} PostsApart(history: seq<Post>, i: nat, j: nat)
    requires Disciplined(history) && i < j < |history|
    ensures history[j].at - history[i].at >= 2 * SECOND * (j - i)
    ensures history[i].message == history[j].message ==> history[j].at - history[i].at >= 300 * SECOND
  {
    var init := history[..|history| - 1];
    if j < |history| - 1 {
      PostsApart(init, i, j);
    } else if i < j - 1 {
      PostsApart(init, i, j - 1);
    }
  }

  /** What is allowed, in plain times: no earlier post within 2 s, and none of the same
      message within 5 minutes. */
  lemma AllowedIff(history: seq<Post>, message: string, now: int)
    requires Disciplined(history)
    ensures Allowed(history, message, now) <==>
              forall i :: 0 <= i < |history| ==>
                now - history[i].at >= 2 * SECOND && (history[i].message == message ==> now - history[i].at >= 300 * SECOND)
  {
    var n := |history|;
    forall i | 0 <= i < n - 1 ensures history[n - 1].at > history[i].at {
      PostsApart(history, i, n - 1);
    }
  }

  /** At most 151 posts fit into one dedupe window. */
  lemma WindowHolds(history: seq<Post>, from: nat, now: int)
    requires Disciplined(history) && from < |history|
    requires now >= history[|history| - 1].at && now - history[from].at <= DEDUPE_WINDOW
    ensures |history| - from <= 151
  {
    if from < |history| - 1 {
      PostsApart(history, from, |history| - 1);
    }
  }

  function Messages(history: seq<Post>): (r: set<string>)
    ensures |r| <= |history|
  {
    if history == [] then {} else Messages(history[..|history| - 1]) + {history[|history| - 1].message}
  }

  lemma {:induction false} MessagesMember(history: seq<Post>, i: nat)
    requires i < |history|
    ensures history[i].message in Messages(history)
  {
    if i < |history| - 1 {
      MessagesMember(history[..|history| - 1], i);
    }
  }

  lemma SubsetSize<T>(a: set<T>, b: set<T>)
    requires a <= b
    ensures |a| <= |b|
  {
    assert b == a + (b - a);
  }

  /** An entry is the time of a post of that message. */
  ghost predicate EntryOk(lastSent: map<string, int>, history: seq<Post>, k: string)
    requires k in lastSent
  {
    exists i :: 0 <= i < |history| && history[i] == Post(k, lastSent[k])
  }

  /** The map holds the latest time of every message posted within the window
      ending at `clock`; what it forgot is older than that. */
  ghost predicate Remembers(lastSent: map<string, int>, history: seq<Post>, clock: int) {
    && (forall k :: k in lastSent ==> EntryOk(lastSent, history, k))
    && (forall i :: 0 <= i < |history| ==>
          if history[i].message in lastSent then history[i].at <= lastSent[history[i].message]
          else clock - history[i].at > DEDUPE_WINDOW)
  }

  /** The evicting map answers like the full history. */
  lemma DedupeAgrees(lastSent: map<string, int>, history: seq<Post>, clock: int, message: string, now: int)
    requires Remembers(lastSent, history, clock) && clock <= now
    ensures (message in lastSent && now - lastSent[message] < DEDUPE_WINDOW) <==>
            (exists i :: 0 <= i < |history| && history[i].message == message && now - history[i].at < DEDUPE_WINDOW)
  {
    assert message in lastSent ==> EntryOk(lastSent, history, message);
  }

  lemma PostRemembered(lastSent: map<string, int>, history: seq<Post>, clock: int, message: string, now: int)
    requires Remembers(lastSent, history, clock) && clock <= now
    requires forall i :: 0 <= i < |history| ==> history[i].at <= now
    ensures Remembers(lastSent[message := now], history + [Post(message, now)], now)
  {
    var m, longer := lastSent[message := now], history + [Post(message, now)];
    assert longer[|history|] == Post(message, now);
    forall k | k in m ensures EntryOk(m, longer, k) {
      if k != message {
        assert EntryOk(lastSent, history, k);
        var i :| 0 <= i < |history| && history[i] == Post(k, lastSent[k]);
        assert longer[i] == history[i];
      }
    }
  }

  lemma EvictionForgetsOld(lastSent: map<string, int>, kept: map<string, int>, history: seq<Post>, now: int)
    requires Remembers(lastSent, history, now)
    requires kept == map k | k in lastSent && now - lastSent[k] <= DEDUPE_WINDOW :: lastSent[k]
    ensures Remembers(kept, history, now)
  {
    forall k | k in kept ensures EntryOk(kept, history, k) {
      assert EntryOk(lastSent, history, k);
    }
  }

  /** Entries within the window are all among the last 151 posts. */
  lemma RecentFit(lastSent: map<string, int>, history: seq<Post>, now: int)
    requires Disciplined(history) && history != [] && history[|history| - 1].at <= now
    requires forall k :: k in lastSent ==> EntryOk(lastSent, history, k) && now - lastSent[k] <= DEDUPE_WINDOW
    ensures |lastSent| <= 151
  {
    var from := if |history| > 151 then |history| - 151 else 0;
    var recent := history[from..];
    forall k | k in lastSent ensures k in Messages(recent) {
      var i :| 0 <= i < |history| && history[i] == Post(k, lastSent[k]);
      WindowHolds(history, i, now);
      assert recent[i - from] == history[i];
      MessagesMember(recent, i - from);
    }
    SubsetSize(lastSent.Keys, Messages(recent));
    assert |lastSent| == |lastSent.Keys|;
  }

  class Hook {
    var lastSent: map<string, int>
    var lastPost: Option<int>
    ghost var history: seq<Post>

    ghost predicate Valid(clock: int)
      reads this
    {
      && Disciplined(history) && Remembers(lastSent, history, clock)
      && lastPost == (if history == [] then None else Some(history[|history| - 1].at))
      && (forall i :: 0 <= i < |history| ==> history[i].at <= clock)
      && |lastSent| <= MAP_BOUND
    }

    constructor ()
      ensures forall clock :: Valid(clock)
      ensures history == []
    {
      lastSent, lastPost, history := map[], None, [];
    }

    /** Drops what is older than the window, entry by entry. */
    method Evict(now: int)
      modifies this`lastSent
      ensures lastSent == map k | k in old(lastSent) && now - old(lastSent)[k] <= DEDUPE_WINDOW :: old(lastSent)[k]
    {
      var rest := lastSent.Keys;
      while rest != {}
        invariant rest <= lastSent.Keys <= old(lastSent).Keys
        invariant forall k :: k in lastSent ==> lastSent[k] == old(lastSent)[k]
        invariant forall k :: k in old(lastSent) && k !in rest ==>
                    (k in lastSent <==> now - old(lastSent)[k] <= DEDUPE_WINDOW)
        decreases rest
      {
        var k :| k in rest;
        rest := rest - {k};
        if now - lastSent[k] > DEDUPE_WINDOW {
          lastSent := lastSent - {k};
        }
      }
    }

    /** Drops old entries whenever the map grows past its bound. */
    method Bound(now: int)
      requires Disciplined(history) && Remembers(lastSent, history, now)
      requires history != [] && history[|history| - 1].at <= now
      modifies this`lastSent
      ensures Remembers(lastSent, history, now) && |lastSent| <= MAP_BOUND
    {
      if |lastSent| > MAP_BOUND {
        ghost var full := lastSent;
        Evict(now);
        EvictionForgetsOld(full, lastSent, history, now);
        RecentFit(lastSent, history, now);
      }
    }

    /** Records an accepted post and bounds the map. */
    method Record(message: string, now: int, ghost clock: int)
      requires Valid(clock) && clock <= now && Allowed(history, message, now)
      modifies this
      ensures Valid(now) && history == old(history) + [Post(message, now)]
    {
      PostRemembered(lastSent, history, clock, message, now);
      lastSent := lastSent[message := now];
      lastPost := Some(now);
      history := history + [Post(message, now)];
      assert history[..|history| - 1] == old(history);
      Bound(now);
    }

    /** Decides as the never-forgetting limiter would, with a bounded map. */
    method Allow(message: string, now: int, ghost clock: int) returns (ok: bool)
      requires Valid(clock) && clock <= now
      modifies this
      ensures Valid(now)
      ensures ok <==> Allowed(old(history), message, now)
      ensures ok <==> forall i :: 0 <= i < |old(history)| ==>
                        var p := old(history)[i];
                        now - p.at >= 2 * SECOND && (p.message == message ==> now - p.at >= 300 * SECOND)
      ensures |lastSent| <= 256
      ensures history == if ok then old(history) + [Post(message, now)] else old(history)
    {
      DedupeAgrees(lastSent, history, clock, message, now);
      AllowedIff(history, message, now);
      if message in lastSent && now - lastSent[message] < DEDUPE_WINDOW {
        return false;
      }
      if lastPost.Some? && now - lastPost.value < MIN_INTERVAL {
        return false;
      }
      Record(message, now, clock);
      ok := true;
    }
  }
}
