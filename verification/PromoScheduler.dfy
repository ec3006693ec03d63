/** The promo scheduler. Each tick treats every promo on its own, so its timing is
    studied promo by promo, and the loop over the fetched list is proved to apply
    that per-promo rule to all of them at once. */
module PromoScheduler {
  import opened Basics

  const MIN_INTERVAL_SECONDS: int := 60

  /** What one tick sees of one promo. */
  datatype Sight = FetchFailed | Absent | Offline | Live(intervalSeconds: int)

  datatype Tick = Tick(now: int, sight: Sight)

  function Interval(seconds: int): int {
    (if seconds < MIN_INTERVAL_SECONDS then MIN_INTERVAL_SECONDS else seconds) * SECOND
  }

  /** The remembered time after a tick. */
  function NextTime(last: Option<int>, t: Tick): Option<int> {
    match t.sight
    case FetchFailed => last
    case Absent => None
    case Offline => Some(t.now)
    case Live(_) => if last == None || Due(last, t) then Some(t.now) else last
  }

  /** Whether the tick posts the promo. */
  predicate Due(last: Option<int>, t: Tick) {
    t.sight.Live? && last.Some? && t.now - last.value >= Interval(t.sight.intervalSeconds)
  }

  /** The remembered time after a history of ticks. */
  function Remembered(ticks: seq<Tick>): Option<int> {
    if ticks == [] then None else NextTime(Remembered(ticks[..|ticks| - 1]), ticks[|ticks| - 1])
  }

  predicate PostsAt(ticks: seq<Tick>, i: nat)
    requires i < |ticks|
  {
    Due(Remembered(ticks[..i]), ticks[i])
  }

  ghost predicate Forward(ticks: seq<Tick>) {
    forall i, j :: 0 <= i < j < |ticks| ==> ticks[i].now <= ticks[j].now
  }

  /** Tick i sees the promo without remembering it: a new one, or one re-enabled. */
  predicate FirstSeen(ticks: seq<Tick>, i: nat)
    requires i < |ticks|
  {
    (ticks[i].sight.Live? || ticks[i].sight.Offline?) && Remembered(ticks[..i]) == None
  }

  /** Tick i restarts the promo's clock: a post, an offline sighting, its absence, or
      its first sighting. */
  predicate Restarts(ticks: seq<Tick>, i: nat)
    requires i < |ticks|
  {
    ticks[i].sight.Offline? || ticks[i].sight.Absent? || PostsAt(ticks, i) || FirstSeen(ticks, i)
  }

  /** No remembered time is older than the last restart, or in the future. */
  lemma {:induction false} RememberedBounds(ticks: seq<Tick>, n: nat)
    requires Forward(ticks) && n <= |ticks|
    ensures Remembered(ticks[..n]).Some? ==>
              && (forall i :: 0 <= i < n && Restarts(ticks, i) ==> ticks[i].now <= Remembered(ticks[..n]).value)
              && (forall j :: n <= j < |ticks| ==> Remembered(ticks[..n]).value <= ticks[j].now)
  {
    if n > 0 {
      RememberedBounds(ticks, n - 1);
      assert ticks[..n][..n - 1] == ticks[..n - 1];
    }
  }

  /** Whatever fetch failures, edits, deletions and live flips came in between, a
      post comes at least max(60 s, its interval at that tick) after every earlier
      post of the promo, every tick that saw it offline, every tick without it, and
      every tick that first saw it, and no tick both first sees a promo and posts it. */
  lemma PostSpacing(ticks: seq<Tick>, i: nat, j: nat)
    requires Forward(ticks) && i < j < |ticks| && Restarts(ticks, i) && PostsAt(ticks, j)
    ensures ticks[j].now - ticks[i].now >= 60 * SECOND
    ensures ticks[j].now - ticks[i].now >= ticks[j].sight.intervalSeconds * SECOND
    ensures !FirstSeen(ticks, j)
  {
    RememberedBounds(ticks, j);
  }

  /** Tick i sets the promo's clock: a post, an offline sighting, or the first one. */
  predicate SetsClock(ticks: seq<Tick>, i: nat)
    requires i < |ticks|
  {
    PostsAt(ticks, i) || ticks[i].sight.Offline? || FirstSeen(ticks, i)
  }

  /** From then on, while the promo stays live and unposted or the fetch fails, the
      clock stands. */
  lemma {:induction false} ClockStands(ticks: seq<Tick>, i: nat, n: nat)
    requires i < n <= |ticks| && SetsClock(ticks, i)
    requires forall k :: i < k < n ==> ticks[k].sight.FetchFailed? || (ticks[k].sight.Live? && !PostsAt(ticks, k))
    ensures Remembered(ticks[..n]) == Some(ticks[i].now)
  {
    assert ticks[..n][..n - 1] == ticks[..n - 1];
    if n > i + 1 {
      ClockStands(ticks, i, n - 1);
    }
  }

  /** After its clock was set, a promo that stays enabled and live posts at the first
      successful fetch at least 60 s and at least its interval then later, failed
      fetches in between or not, and not before. */
  lemma PostsWhenDue(ticks: seq<Tick>, i: nat, j: nat)
    requires i < j < |ticks| && SetsClock(ticks, i) && ticks[j].sight.Live?
    requires forall k :: i < k < j ==> ticks[k].sight.FetchFailed? || (ticks[k].sight.Live? && !PostsAt(ticks, k))
    ensures var d := ticks[j].now - ticks[i].now;
            PostsAt(ticks, j) <==> d >= 60 * SECOND && d >= ticks[j].sight.intervalSeconds * SECOND
  {
    ClockStands(ticks, i, j);
  }

  /** While it stays enabled, live and fetched with one interval I, with ticks at most P
      apart, that first post comes less than max(60 s, I) + P after its clock was set. */
  lemma PostsPunctually(ticks: seq<Tick>, i: nat, j: nat, seconds: int, period: int)
    requires Forward(ticks) && i < j < |ticks| && SetsClock(ticks, i)
    requires forall k :: i < k <= j ==> ticks[k].sight == Live(seconds)
    requires forall k :: i < k < j ==> !PostsAt(ticks, k)
    requires forall k :: i < k <= j ==> ticks[k].now - ticks[k - 1].now <= period
    ensures var d := ticks[j].now - ticks[i].now;
            && (PostsAt(ticks, j) <==> d >= 60 * SECOND && d >= seconds * SECOND)
            && (d < 60 * SECOND + period || d < seconds * SECOND + period)
  {
    PostsWhenDue(ticks, i, j);
    if j > i + 1 {
      PostsWhenDue(ticks, i, j - 1);
      assert !PostsAt(ticks, j - 1);
    }
  }

  // ------------------------------------------------------------- the loop

  datatype Promo = Promo(id: int, channel: string, intervalSeconds: int)

  ghost predicate DistinctIds(promos: seq<Promo>) {
    forall i, j :: 0 <= i < j < |promos| ==> promos[i].id != promos[j].id
  }

  function Get(m: map<int, int>, id: int): Option<int> {
    if id in m then Some(m[id]) else None
  }

  predicate LiveIn(permanent: set<string>, live: map<string, bool>, login: string) {
    ToLower(login) in permanent || (ToLower(login) in live && live[ToLower(login)])
  }

  /** What a fetched list shows of one promo id. */
  function SightIn(permanent: set<string>, live: map<string, bool>, promos: seq<Promo>, id: int): Sight {
    if promos == [] then Absent
    else
      var p := promos[|promos| - 1];
      if p.id != id then SightIn(permanent, live, promos[..|promos| - 1], id)
      else if LiveIn(permanent, live, p.channel) then Live(p.intervalSeconds) else Offline
  }

  /** A fetched promo is seen with its own interval, live or offline as its channel is. */
  lemma {:induction false} SightOf(permanent: set<string>, live: map<string, bool>, promos: seq<Promo>, i: nat)
    requires DistinctIds(promos) && i < |promos|
    ensures SightIn(permanent, live, promos, promos[i].id) ==
              if LiveIn(permanent, live, promos[i].channel) then Live(promos[i].intervalSeconds) else Offline
  {
    if i < |promos| - 1 {
      SightOf(permanent, live, promos[..|promos| - 1], i);
    }
  }

  lemma {:induction false} SightAbsent(permanent: set<string>, live: map<string, bool>, promos: seq<Promo>, id: int)
    ensures SightIn(permanent, live, promos, id) == Absent <==> forall i :: 0 <= i < |promos| ==> promos[i].id != id
  {
    if promos != [] {
      SightAbsent(permanent, live, promos[..|promos| - 1], id);
    }
  }

  function TickOf(permanent: set<string>, live: map<string, bool>, now: int, fetched: Option<seq<Promo>>, id: int): Tick {
    Tick(now, if fetched.None? then FetchFailed else SightIn(permanent, live, fetched.value, id))
  }

  /** One more tick on a promo's history. */
  lemma TickRecorded(ticks: seq<Tick>, t: Tick, clock: int)
    requires Forward(ticks) && clock <= t.now && forall i :: 0 <= i < |ticks| ==> ticks[i].now <= clock
    ensures Forward(ticks + [t]) && forall i :: 0 <= i < |ticks + [t]| ==> (ticks + [t])[i].now <= t.now
    ensures Remembered(ticks + [t]) == NextTime(Remembered(ticks), t)
    ensures PostsAt(ticks + [t], |ticks|) <==> Due(Remembered(ticks), t)
  {
    assert (ticks + [t])[..|ticks|] == ticks;
  }

  class Scheduler {
    const permanent: set<string>
    var live: map<string, bool>
    var lastPosted: map<int, int>
    ghost var history: int -> seq<Tick>

    /** The one map of remembered times is what each promo's own history yields. */
    ghost predicate Valid(clock: int)
      reads this
    {
      forall id ::
        && Get(lastPosted, id) == Remembered(history(id)) && Forward(history(id))
        && forall i :: 0 <= i < |history(id)| ==> history(id)[i].now <= clock
    }

    constructor (permanent: set<string>)
      ensures forall clock :: Valid(clock)
      ensures this.permanent == permanent && live == map[] && forall id :: history(id) == []
      ensures forall login :: LiveIn(permanent, live, login) <==> ToLower(login) in permanent
    {
      this.permanent, live, lastPosted := permanent, map[], map[];
      history := id => [];
    }

    method IsChannelLive(login: string) returns (r: bool)
      ensures r <==> LiveIn(permanent, live, login)
    {
      var lower := ToLower(login);
      r := lower in permanent || (lower in live && live[lower]);
    }

    method SetLive(login: string, isLive: bool)
      modifies this`live
      ensures LiveIn(permanent, live, login) <==> isLive || ToLower(login) in permanent
      ensures forall other :: ToLower(other) != ToLower(login) ==>
                (LiveIn(permanent, live, other) <==> LiveIn(permanent, old(live), other))
    {
      live := live[ToLower(login) := isLive];
    }

    /** One fetched promo: restart its clock, let it run, or post it. */
    method Consider(p: Promo, now: int) returns (post: bool)
      modifies this`lastPosted
      ensures var t := Tick(now, if LiveIn(permanent, live, p.channel) then Live(p.intervalSeconds) else Offline);
              && Get(lastPosted, p.id) == NextTime(Get(old(lastPosted), p.id), t)
              && (post <==> Due(Get(old(lastPosted), p.id), t))
      ensures forall id :: id != p.id ==> Get(lastPosted, id) == Get(old(lastPosted), id)
    {
      post := false;
      var isLive := IsChannelLive(p.channel);
      if !isLive || p.id !in lastPosted {
        lastPosted := lastPosted[p.id := now];
      } else if now - lastPosted[p.id] >= Interval(p.intervalSeconds) {
        post := true;
        lastPosted := lastPosted[p.id := now];
      }
    }

    /** The loop over the fetched list, for every promo id at once: its remembered
        time moves and it is posted exactly as the per-promo rule says. */
    method Evaluate(now: int, fetched: Option<seq<Promo>>) returns (posted: seq<int>)
      requires fetched.Some? ==> DistinctIds(fetched.value)
      modifies this`lastPosted
      ensures forall id ::
                var t := TickOf(permanent, live, now, fetched, id);
                && Get(lastPosted, id) == NextTime(Get(old(lastPosted), id), t)
                && (id in posted <==> Due(Get(old(lastPosted), id), t))
      ensures forall i, j :: 0 <= i < j < |posted| ==> posted[i] != posted[j]
    {
      posted := [];
      if fetched == None {
        return;
      }
      var promos := fetched.value;
      var seen: set<int> := {};
      var i := 0;
      while i < |promos|
        invariant 0 <= i <= |promos|
        invariant forall j, k :: 0 <= j < k < |posted| ==> posted[j] != posted[k]
        invariant forall id :: id in seen <==> SightIn(permanent, live, promos[..i], id) != Absent
        invariant forall id :: SightIn(permanent, live, promos[..i], id) == Absent ==>
                    Get(lastPosted, id) == Get(old(lastPosted), id) && id !in posted
        invariant forall id :: SightIn(permanent, live, promos[..i], id) != Absent ==>
                    var t := Tick(now, SightIn(permanent, live, promos[..i], id));
                    Get(lastPosted, id) == NextTime(Get(old(lastPosted), id), t)
                    && (id in posted <==> Due(Get(old(lastPosted), id), t))
      {
        var p := promos[i];
        SightAbsent(permanent, live, promos[..i], p.id);
        assert promos[..i + 1][..i] == promos[..i];
        seen := seen + {p.id};
        var post := Consider(p, now);
        if post {
          posted := posted + [p.id];
        }
        i := i + 1;
      }
      assert promos[..i] == promos;
      lastPosted := map id | id in lastPosted && id in seen :: lastPosted[id];
    }

    /** One tick: what it posts is decided by each promo's own tick history. */
    method RunTick(now: int, fetched: Option<seq<Promo>>, ghost clock: int) returns (posted: seq<int>)
      requires Valid(clock) && clock <= now
      requires fetched.Some? ==> DistinctIds(fetched.value)
      modifies this`lastPosted, this`history
      ensures Valid(now)
      ensures forall id :: history(id) == old(history)(id) + [TickOf(permanent, live, now, fetched, id)]
      ensures forall id :: id in posted <==> PostsAt(history(id), |history(id)| - 1)
      ensures forall i, j :: 0 <= i < j < |posted| ==> posted[i] != posted[j]
    {
      posted := Evaluate(now, fetched);
      ghost var before, p, l := history, permanent, live;
      history := id => before(id) + [TickOf(p, l, now, fetched, id)];
      forall id {
        TickRecorded(before(id), TickOf(p, l, now, fetched, id), clock);
      }
    }
  }
}
