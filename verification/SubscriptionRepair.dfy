/** The one-shot audit of the bot's webhook subscriptions: classify what each
    opted-in broadcaster has of each required type, and repair it to exactly one
    healthy subscription (cmd/eventsub-healthcheck/main.go). */
module SubscriptionRepair {
  import opened Basics
  import opened Helix

  const CHAT_MESSAGE: string := "channel.chat.message"
  const REQUIRED_TYPES: seq<string> := ["stream.online", "stream.offline", CHAT_MESSAGE]

  datatype Flags = Flags(dryRun: bool, fixCallback: bool, force: bool)

  datatype User = User(twitchId: Option<string>, twitchLogin: Option<string>)

  datatype Outcome = Repaired | ChatAuthMissing | Failed

  datatype Tally = Tally(healthy: nat, repaired: nat, failed: nat, wouldRepair: nat, unauthorized: nat) {
    function Total(): nat {
      healthy + repaired + failed + wouldRepair + unauthorized
    }
  }

  predicate Wanted(s: Sub, callback: string, f: Flags) {
    s.status == ENABLED && (f.fixCallback ==> s.callback == callback)
  }

  /** One subscription, and a healthy one. */
  ghost predicate Converged(pair: Subs, callback: string, f: Flags) {
    exists id :: id in pair && pair.Keys == {id} && Wanted(pair[id], callback, f)
  }

  ghost predicate HasWanted(pair: Subs, callback: string, f: Flags) {
    exists id :: id in pair && Wanted(pair[id], callback, f)
  }

  predicate Audited(u: User) {
    u.twitchId.Some? && u.twitchLogin.Some?
  }

  /** The broadcasters an audit looks at. */
  function Targets(users: seq<User>): seq<string> {
    if users == [] then []
    else
      var u := users[|users| - 1];
      Targets(users[..|users| - 1]) + if Audited(u) then [u.twitchId.value] else []
  }

  ghost predicate DistinctTargets(users: seq<User>) {
    var ids := Targets(users);
    forall i, j :: 0 <= i < j < |ids| ==> ids[i] != ids[j]
  }

  ghost predicate AuditedPair(users: seq<User>, b: string, t: string) {
    t in REQUIRED_TYPES && b in Targets(users)
  }

  ghost predicate AllConverged(subs: Subs, users: seq<User>, callback: string, f: Flags) {
    forall b, t :: AuditedPair(users, b, t) ==> Converged(Pair(subs, b, t), callback, f)
  }

  /** What an audit may and may not do to one broadcaster's subscriptions of one
      type, whatever calls fail. */
  ghost predicate AuditKept(was: Subs, now: Subs, callback: string, f: Flags) {
    && (f.dryRun ==> now == was)
    && (!f.force && Converged(was, callback, f) ==> now == was)
    && (!f.force && HasWanted(was, callback, f) ==> HasWanted(now, callback, f))
  }

  // ---- what is reported -----------------------------------------------------

  datatype Report = Healthy | WouldRepair | Reported(outcome: Outcome)

  function Counted(tally: Tally, r: Report): Tally {
    match r
    case Healthy => tally.(healthy := tally.healthy + 1)
    case WouldRepair => tally.(wouldRepair := tally.wouldRepair + 1)
    case Reported(Repaired) => tally.(repaired := tally.repaired + 1)
    case Reported(ChatAuthMissing) => tally.(unauthorized := tally.unauthorized + 1)
    case Reported(Failed) => tally.(failed := tally.failed + 1)
  }

  /** What a refused or accepted create amounts to. */
  function Verdict(kind: string, a: Answer): Outcome {
    if kind == CHAT_MESSAGE && Forbidden(a) then ChatAuthMissing
    else if OK(a) || AlreadyExists(a) then Repaired
    else Failed
  }

  /** The report on one pair, decided by what was there, by which deletes fail and by
      how a create is answered, together with what is left of the pair. */
  ghost predicate ReportOk(was: Subs, now: Subs, r: Report, t: string, broken: set<SubId>, a: Answer, callback: string, f: Flags) {
    if !f.force && Converged(was, callback, f) then r == Healthy && now == was
    else if f.dryRun then r == WouldRepair && now == was
    else if !f.force && HasWanted(was, callback, f) then
      exists kept :: KeptOnly(was, now, r, kept, broken, callback, f)
    else if !(was.Keys !! broken) then r == Reported(Failed) && Submap(now, was)
    else if OK(a) then r == Reported(Repaired) && now.Keys !! was.Keys && Converged(now, callback, f)
    else r == Reported(Verdict(t, a)) && now == map[]
  }

  /** One healthy subscription stays, and every other one goes unless a delete fails. */
  ghost predicate KeptOnly(was: Subs, now: Subs, r: Report, kept: SubId, broken: set<SubId>, callback: string, f: Flags) {
    && kept in was && Wanted(was[kept], callback, f) && kept in now && Submap(now, was)
    && if was.Keys - {kept} !! broken then r == Reported(Repaired) && now.Keys == {kept} else r == Reported(Failed)
  }

  /** Consequences: nothing healthy is lost; a reported repair has converged exactly
      if something healthy was kept or the create was not answered "already exists";
      and when every call succeeds the pair converges and is reported so. */
  lemma ReportMeans(was: Subs, now: Subs, r: Report, t: string, broken: set<SubId>, a: Answer, callback: string, f: Flags)
    requires ReportOk(was, now, r, t, broken, a, callback, f)
    ensures AuditKept(was, now, callback, f)
    ensures r == Reported(Repaired) ==>
              (Converged(now, callback, f) <==> (!f.force && HasWanted(was, callback, f)) || !AlreadyExists(a))
    ensures broken == {} && OK(a) && !f.dryRun ==>
              Converged(now, callback, f) && (r == Healthy || r == Reported(Repaired))
  {
    if r == Reported(Repaired) && !f.force && HasWanted(was, callback, f) {
      var kept :| KeptOnly(was, now, r, kept, broken, callback, f);
    }
  }

  /** The one subscription `subs` has of this broadcaster and type. */
  ghost predicate Only(subs: Subs, b: string, t: string, id: SubId) {
    && id in subs && subs[id].broadcaster == b && subs[id].kind == t
    && forall id' :: id' in subs && subs[id'].broadcaster == b && subs[id'].kind == t ==> id' == id
  }

  lemma ConvergedIsOnly(subs: Subs, b: string, t: string, callback: string, f: Flags)
    ensures Converged(Pair(subs, b, t), callback, f) <==>
              exists id :: Only(subs, b, t, id) && subs[id].status == "enabled" && (f.fixCallback ==> subs[id].callback == callback)
  {
    var pair := Pair(subs, b, t);
    if id: SubId :| Only(subs, b, t, id) && subs[id].status == "enabled" && (f.fixCallback ==> subs[id].callback == callback) {
      assert id in pair && pair.Keys == {id};
      assert Wanted(pair[id], callback, f);
    }
    if id :| id in pair && pair.Keys == {id} && Wanted(pair[id], callback, f) {
      forall id' | id' in subs && subs[id'].broadcaster == b && subs[id'].kind == t ensures id' == id {
        assert id' in pair.Keys;
      }
      assert Only(subs, b, t, id);
    }
  }

  /** A pair is counted as healthy exactly if it is one subscription, enabled and not
      forced out, whose callback is the expected one or is not looked at. */
  lemma CountedHealthyIff(was: Subs, now: Subs, r: Report, t: string, broken: set<SubId>, a: Answer, callback: string, f: Flags,
                          tally: Tally)
    requires ReportOk(was, now, r, t, broken, a, callback, f)
    ensures Counted(tally, r) == tally.(healthy := tally.healthy + 1) <==>
              !f.force
              && exists id :: id in was && was.Keys == {id}
                   && was[id].status == "enabled" && (f.fixCallback ==> was[id].callback == callback)
    ensures Counted(tally, r) == tally.(wouldRepair := tally.wouldRepair + 1) <==> f.dryRun && r != Healthy
    ensures f.dryRun || r == Healthy ==> now == was
  {
    assert Counted(tally, r) == tally.(healthy := tally.healthy + 1) <==> r == Healthy;
    if id :| id in was && was.Keys == {id} && was[id].status == "enabled" && (f.fixCallback ==> was[id].callback == callback) {
      assert Wanted(was[id], callback, f);
    }
  }

  /** How a pair that is to be replaced is counted, by the answer to its create. */
  lemma CountedReplacement(was: Subs, now: Subs, r: Report, t: string, broken: set<SubId>, a: Answer, callback: string, f: Flags,
                           tally: Tally)
    requires ReportOk(was, now, r, t, broken, a, callback, f) && !f.dryRun
    requires f.force || forall id :: id in was ==> was[id].status != "enabled" || (f.fixCallback && was[id].callback != callback)
    ensures Counted(tally, r) ==
              if !(was.Keys !! broken) then tally.(failed := tally.failed + 1)
              else if a == Status(200) || a == Status(202) || a == Status(409) then tally.(repaired := tally.repaired + 1)
              else if t == "channel.chat.message" && a == Status(403) then tally.(unauthorized := tally.unauthorized + 1)
              else tally.(failed := tally.failed + 1)
    ensures was.Keys !! broken ==> now.Keys !! was.Keys && (now != map[] <==> a == Status(200) || a == Status(202))
  {
    assert f.force || !HasWanted(was, callback, f);
    assert now == map[] ==> !Converged(now, callback, f);
  }

  /** How a pair with something healthy beside what must go is counted. */
  lemma CountedTrim(was: Subs, now: Subs, r: Report, t: string, broken: set<SubId>, a: Answer, callback: string, f: Flags,
                    tally: Tally, id: SubId)
    requires ReportOk(was, now, r, t, broken, a, callback, f) && !f.dryRun && !f.force
    requires id in was && was[id].status == "enabled" && (f.fixCallback ==> was[id].callback == callback)
    requires was.Keys != {id}
    ensures was.Keys !! broken ==> Counted(tally, r) == tally.(repaired := tally.repaired + 1) && |now| == 1
    ensures was.Keys <= broken ==> Counted(tally, r) == tally.(failed := tally.failed + 1)
    ensures exists kept :: kept in now && now[kept].status == "enabled" && (f.fixCallback ==> now[kept].callback == callback)
  {
    assert Wanted(was[id], callback, f);
    var kept :| KeptOnly(was, now, r, kept, broken, callback, f);
    assert now[kept] == was[kept];
    if was.Keys !! broken {
      assert |now.Keys| == 1;
    }
  }

  // ---- classify -------------------------------------------------------------

  function Good(subs: seq<Sub>, kind: string, callback: string, f: Flags): seq<Sub> {
    Select(subs, (s: Sub) => s.kind == kind && !f.force && Wanted(s, callback, f))
  }

  function Bad(subs: seq<Sub>, kind: string, callback: string, f: Flags): seq<Sub> {
    Select(subs, (s: Sub) => s.kind == kind && (f.force || !Wanted(s, callback, f)))
  }

  method Classify(subs: seq<Sub>, kind: string, callback: string, f: Flags) returns (good: seq<Sub>, bad: seq<Sub>)
    ensures good == Good(subs, kind, callback, f)
    ensures bad == Bad(subs, kind, callback, f)
  {
    good, bad := [], [];
    for i := 0 to |subs|
      invariant good == Good(subs[..i], kind, callback, f)
      invariant bad == Bad(subs[..i], kind, callback, f)
    {
      var s := subs[i];
      assert subs[..i + 1][..i] == subs[..i];
      if s.kind != kind {
        continue;
      }
      var ok := !f.force && s.status == ENABLED;
      if ok && f.fixCallback && s.callback != callback {
        ok := false;
      }
      if ok {
        good := good + [s];
      } else {
        bad := bad + [s];
      }
    }
    assert subs[..|subs|] == subs;
  }

  /** `listed` names every subscription of `pair`, and no other of that type. */
  ghost predicate ListsPair(listed: seq<Sub>, kind: string, pair: Subs) {
    && DistinctIds(listed)
    && (forall s :: s in listed && s.kind == kind ==> s.id in pair && pair[s.id] == s)
    && (forall id :: id in pair ==> pair[id] in listed && pair[id].kind == kind && pair[id].id == id)
  }

  /** `good` and `bad` divide the pair: nothing is lost, nothing is in both, and
      each subscription is judged by its own status and callback. */
  ghost predicate Divided(good: seq<Sub>, bad: seq<Sub>, pair: Subs, callback: string, f: Flags) {
    && DistinctIds(good)
    && Ids(good) !! Ids(bad) && Ids(good) + Ids(bad) == pair.Keys
    && (forall s :: s in good ==> s.id in pair && pair[s.id] == s && !f.force && Wanted(s, callback, f))
    && (forall s :: s in bad ==> s.id in pair && pair[s.id] == s && (f.force || !Wanted(s, callback, f)))
  }

  lemma ClassifyDivides(listed: seq<Sub>, kind: string, callback: string, f: Flags, pair: Subs)
    requires ListsPair(listed, kind, pair)
    ensures Divided(Good(listed, kind, callback, f), Bad(listed, kind, callback, f), pair, callback, f)
  {
    var good, bad := Good(listed, kind, callback, f), Bad(listed, kind, callback, f);
    SelectDistinct(listed, (s: Sub) => s.kind == kind && !f.force && Wanted(s, callback, f));
    forall s: Sub
      ensures s in good <==> s in listed && s.kind == kind && !f.force && Wanted(s, callback, f)
      ensures s in bad <==> s in listed && s.kind == kind && (f.force || !Wanted(s, callback, f))
    {
      SelectMember(listed, (x: Sub) => x.kind == kind && !f.force && Wanted(x, callback, f), s);
      SelectMember(listed, (x: Sub) => x.kind == kind && (f.force || !Wanted(x, callback, f)), s);
    }
  }

  /** One good and none bad is exactly convergence. */
  lemma HealthyMeansConverged(good: seq<Sub>, bad: seq<Sub>, pair: Subs, callback: string, f: Flags)
    requires Divided(good, bad, pair, callback, f)
    ensures good != [] <==> !f.force && HasWanted(pair, callback, f)
    ensures |good| == 1 && bad == [] <==> !f.force && Converged(pair, callback, f)
  {
    if good != [] {
      assert good[0] in good;
    }
    if bad != [] {
      assert bad[0] in bad;
    }
    if |good| >= 2 {
      assert good[1] in good;
    }
  }

  // ---- repair ---------------------------------------------------------------

  /** Deleting down a list stops at i: everything before it can be deleted, it cannot. */
  ghost predicate StopsAt(l: seq<Sub>, broken: set<SubId>, i: nat) {
    && i <= |l|
    && (forall j :: 0 <= j < i ==> l[j].id !in broken)
    && (i < |l| ==> l[i].id in broken)
  }

  method DeleteAll(client: Client, l: seq<Sub>) returns (ok: bool, ghost i: nat)
    requires client.Valid()
    modifies client`subs, client`writes
    ensures client.Valid() && StopsAt(l, client.brokenDeletes, i) && (ok <==> i == |l|)
    ensures client.subs == old(client.subs) - Ids(l[..i])
    ensures client.writes == old(client.writes) + i + if ok then 0 else 1
  {
    for n := 0 to |l|
      invariant client.Valid() && client.writes == old(client.writes) + n
      invariant forall j :: 0 <= j < n ==> l[j].id !in client.brokenDeletes
      invariant client.subs == old(client.subs) - Ids(l[..n])
    {
      var gone := client.Delete(l[n].id);
      if !gone {
        return false, n;
      }
      assert l[..n + 1] == l[..n] + [l[n]];
      assert Ids(l[..n + 1]) == Ids(l[..n]) + {l[n].id};
    }
    return true, |l|;
  }

  function Surplus(good: seq<Sub>): seq<Sub> {
    if good == [] then [] else good[1..]
  }

  /** The result of a repair whose deletes stop at i, and the calls it made. */
  ghost predicate RepairEffectAt(was: Subs, now: Subs, kind: string, b: string, good: seq<Sub>, bad: seq<Sub>, r: Outcome,
                                 a: Answer, created: Sub, calls: nat, i: nat)
    requires i <= |bad + Surplus(good)|
  {
    var doomed := bad + Surplus(good);
    var left := was - Ids(doomed[..i]);
    if i < |doomed| then r == Failed && now == left && calls == i + 1
    else if good != [] then r == Repaired && now == left && calls == i
    else if kind !in REQUIRED_TYPES then r == Failed && now == left && calls == i
    else
      calls == i + 1
      && if OK(a) then r == Repaired && created.id !in was && now == left[created.id := created]
         else r == Verdict(kind, a) && now == left
  }

  ghost predicate RepairEffect(was: Subs, now: Subs, kind: string, b: string, good: seq<Sub>, bad: seq<Sub>, r: Outcome,
                               broken: set<SubId>, a: Answer, created: Sub, calls: nat) {
    exists i :: StopsAt(bad + Surplus(good), broken, i) && RepairEffectAt(was, now, kind, b, good, bad, r, a, created, calls, i)
  }

  lemma IdsConcat(a: seq<Sub>, b: seq<Sub>)
    ensures Ids(a + b) == Ids(a) + Ids(b)
  {
    assert forall s :: s in a + b <==> s in a || s in b;
  }

  /** Stopping in the second of two lists is stopping further down their concatenation. */
  lemma StopsInSecond(a: seq<Sub>, b: seq<Sub>, broken: set<SubId>, j: nat)
    requires StopsAt(a, broken, |a|) && StopsAt(b, broken, j)
    ensures StopsAt(a + b, broken, |a| + j) && Ids((a + b)[..|a| + j]) == Ids(a[..|a|]) + Ids(b[..j])
  {
    assert (a + b)[..|a| + j] == a + b[..j] && a[..|a|] == a;
    IdsConcat(a, b[..j]);
  }

  lemma StopsInFirst(a: seq<Sub>, b: seq<Sub>, broken: set<SubId>, i: nat)
    requires StopsAt(a, broken, i) && i < |a|
    ensures StopsAt(a + b, broken, i) && (a + b)[..i] == a[..i]
  {
  }

  /** The deletes of a repair: what is bad, then all good ones but the first. */
  method DeleteDoomed(client: Client, good: seq<Sub>, bad: seq<Sub>) returns (ok: bool, ghost i: nat)
    requires client.Valid()
    modifies client`subs, client`writes
    ensures client.Valid() && StopsAt(bad + Surplus(good), client.brokenDeletes, i) && (ok <==> i == |bad + Surplus(good)|)
    ensures client.subs == old(client.subs) - Ids((bad + Surplus(good))[..i])
    ensures client.writes == old(client.writes) + i + if ok then 0 else 1
  {
    ok, i := DeleteAll(client, bad);
    if !ok {
      StopsInFirst(bad, Surplus(good), client.brokenDeletes, i);
      return;
    }
    ghost var j;
    ok, j := DeleteAll(client, good[if |good| < 1 then |good| else 1..]);
    StopsInSecond(bad, Surplus(good), client.brokenDeletes, j);
    i := |bad| + j;
  }

  /** Deletes what it was told is bad, then surplus, in order; stops at the first
      delete that fails; creates only when nothing good was there. */
  method Repair(client: Client, kind: string, b: string, good: seq<Sub>, bad: seq<Sub>) returns (r: Outcome)
    requires client.Valid()
    modifies client
    ensures client.Valid() && client.writes >= old(client.writes)
    ensures RepairEffect(old(client.subs), client.subs, kind, b, good, bad, r, client.brokenDeletes, client.answer(kind, b),
                         Sub(old(client.nextId), kind, b, ENABLED, WEBHOOK, client.callback), client.writes - old(client.writes))
  {
    var ok, i := DeleteDoomed(client, good, bad);
    if !ok {
      return Failed;
    }
    if |good| >= 1 {
      return Repaired;
    }
    if kind !in REQUIRED_TYPES {
      return Failed;
    }
    var a := client.Create(kind, b);
    if kind == CHAT_MESSAGE && Forbidden(a) {
      return ChatAuthMissing;
    }
    if !OK(a) && !AlreadyExists(a) {
      return Failed;
    }
    return Repaired;
  }

  // ---- the audit of one broadcaster and one type ----------------------------

  /** Removing subscriptions of one pair, and perhaps adding one to it, leaves every
      other pair as it was. */
  lemma OthersUntouched(was: Subs, now: Subs, b: string, t: string)
    requires Submap(was - Pair(was, b, t).Keys, now)
    requires forall id :: id in now && id in was ==> now[id] == was[id]
    requires forall id :: id in now && id !in was ==> now[id].broadcaster == b && now[id].kind == t
    ensures forall b', t' :: (b', t') != (b, t) ==> Pair(now, b', t') == Pair(was, b', t')
  {
  }

  lemma OthersUnaddressed(was: Subs, created: Sub)
    requires created.id !in was
    ensures forall b', t' :: (b', t') != (created.broadcaster, created.kind) ==>
              Pair(was[created.id := created], b', t') == Pair(was, b', t')
  {
  }

  /** The good subscription that is kept is never among those deleted, and every
      other one of the pair is. */
  lemma KeptGood(pair: Subs, good: seq<Sub>, bad: seq<Sub>, callback: string, f: Flags)
    requires good != [] && Divided(good, bad, pair, callback, f)
    ensures Ids(bad) + Ids(Surplus(good)) == pair.Keys - {good[0].id}
    ensures good[0].id in pair && Wanted(pair[good[0].id], callback, f)
  {
    assert good == [good[0]] + good[1..];
    assert good[0] in good;
    assert Ids(good) == {good[0].id} + Ids(good[1..]);
  }

  /** Whatever was deleted was of the pair, and whatever was created is. */
  lemma RepairTouchesOnlyItsPair(was: Subs, now: Subs, kind: string, b: string, good: seq<Sub>, bad: seq<Sub>, r: Outcome,
                                 broken: set<SubId>, a: Answer, created: Sub, calls: nat, callback: string, f: Flags)
    requires RepairEffect(was, now, kind, b, good, bad, r, broken, a, created, calls)
    requires created.broadcaster == b && created.kind == kind
    requires Divided(good, bad, Pair(was, b, kind), callback, f)
    ensures forall b', t' :: (b', t') != (b, kind) ==> Pair(now, b', t') == Pair(was, b', t')
  {
    var doomed := bad + Surplus(good);
    var i: nat :| StopsAt(doomed, broken, i) && RepairEffectAt(was, now, kind, b, good, bad, r, a, created, calls, i);
    assert forall s :: s in doomed[..i] ==> s in bad || s in good;
    var left := was - Ids(doomed[..i]);
    OthersUntouched(was, left, b, kind);
    if now != left {
      OthersUnaddressed(left, created);
    }
  }

  /** The doomed of a classified pair: all of it, but for the one kept. */
  lemma Doomed(pair: Subs, good: seq<Sub>, bad: seq<Sub>, callback: string, f: Flags)
    requires Divided(good, bad, pair, callback, f)
    ensures Ids(bad + Surplus(good)) == if good == [] then pair.Keys else pair.Keys - {good[0].id}
    ensures good != [] ==> good[0].id in pair && Wanted(pair[good[0].id], callback, f)
  {
    IdsConcat(bad, Surplus(good));
    if good != [] {
      KeptGood(pair, good, bad, callback, f);
    }
  }

  lemma StopsShort(l: seq<Sub>, broken: set<SubId>, i: nat)
    requires StopsAt(l, broken, i)
    ensures i == |l| <==> Ids(l) !! broken
    ensures Ids(l[..i]) <= Ids(l) && l[..|l|] == l
  {
    if i < |l| {
      assert l[i] in l;
    } else {
      assert forall s :: s in l ==> s.id !in broken;
    }
  }

  lemma PairMinus(was: Subs, b: string, t: string, gone: set<SubId>)
    ensures Pair(was - gone, b, t) == Pair(was, b, t) - gone
  {
  }

  /** With something good, the pair keeps it whatever fails. */
  lemma RepairKeeps(was: Subs, now: Subs, kind: string, b: string, good: seq<Sub>, bad: seq<Sub>, r: Outcome,
                    broken: set<SubId>, i: nat, callback: string, f: Flags)
    requires good != [] && Divided(good, bad, Pair(was, b, kind), callback, f)
    requires StopsAt(bad + Surplus(good), broken, i) && now == was - Ids((bad + Surplus(good))[..i])
    requires r == if i < |bad + Surplus(good)| then Failed else Repaired
    ensures KeptOnly(Pair(was, b, kind), Pair(now, b, kind), Reported(r), good[0].id, broken, callback, f)
  {
    var pair, kept, doomed := Pair(was, b, kind), good[0].id, bad + Surplus(good);
    StopsShort(doomed, broken, i);
    Doomed(pair, good, bad, callback, f);
    PairMinus(was, b, kind, Ids(doomed[..i]));
    assert i == |doomed| ==> doomed[..i] == doomed;
    assert i == |doomed| ==> Pair(now, b, kind).Keys == {kept};
  }

  /** With nothing good, the pair ends with what the create made, or with nothing. */
  lemma RepairReplaces(was: Subs, now: Subs, kind: string, b: string, bad: seq<Sub>, r: Outcome,
                       broken: set<SubId>, a: Answer, created: Sub, calls: nat, i: nat, callback: string, f: Flags)
    requires Divided([], bad, Pair(was, b, kind), callback, f) && kind in REQUIRED_TYPES
    requires StopsAt(bad + Surplus([]), broken, i) && RepairEffectAt(was, now, kind, b, [], bad, r, a, created, calls, i)
    requires created.broadcaster == b && created.kind == kind && created.status == ENABLED && created.callback == callback
    ensures var pair, next := Pair(was, b, kind), Pair(now, b, kind);
            if !(pair.Keys !! broken) then r == Failed && Submap(next, pair)
            else if OK(a) then r == Repaired && next.Keys !! pair.Keys && Converged(next, callback, f)
            else r == Verdict(kind, a) && next == map[]
  {
    var pair, next := Pair(was, b, kind), Pair(now, b, kind);
    StopsShort(bad + Surplus([]), broken, i);
    Doomed(pair, [], bad, callback, f);
    if pair.Keys !! broken {
      if OK(a) {
        assert created.id in next && next.Keys == {created.id};
      } else {
        assert next.Keys == {};
      }
    }
  }

  /** The pair after a repair, and the report on it. */
  lemma RepairReported(was: Subs, now: Subs, kind: string, b: string, good: seq<Sub>, bad: seq<Sub>, r: Outcome,
                       broken: set<SubId>, a: Answer, created: Sub, calls: nat, callback: string, f: Flags)
    requires RepairEffect(was, now, kind, b, good, bad, r, broken, a, created, calls) && kind in REQUIRED_TYPES
    requires created.broadcaster == b && created.kind == kind && created.status == ENABLED && created.callback == callback
    requires Divided(good, bad, Pair(was, b, kind), callback, f)
    requires f.force || !Converged(Pair(was, b, kind), callback, f)
    requires !f.dryRun
    ensures ReportOk(Pair(was, b, kind), Pair(now, b, kind), Reported(r), kind, broken, a, callback, f)
  {
    var i: nat :| StopsAt(bad + Surplus(good), broken, i) && RepairEffectAt(was, now, kind, b, good, bad, r, a, created, calls, i);
    HealthyMeansConverged(good, bad, Pair(was, b, kind), callback, f);
    if good != [] {
      RepairKeeps(was, now, kind, b, good, bad, r, broken, i, callback, f);
    } else {
      RepairReplaces(was, now, kind, b, bad, r, broken, a, created, calls, i, callback, f);
    }
  }

  lemma RepairOutcome(was: Subs, now: Subs, kind: string, b: string, good: seq<Sub>, bad: seq<Sub>, r: Outcome,
                      broken: set<SubId>, a: Answer, created: Sub, calls: nat, callback: string, f: Flags)
    requires RepairEffect(was, now, kind, b, good, bad, r, broken, a, created, calls) && kind in REQUIRED_TYPES
    requires created.broadcaster == b && created.kind == kind && created.status == ENABLED && created.callback == callback
    requires Divided(good, bad, Pair(was, b, kind), callback, f)
    requires f.force || !Converged(Pair(was, b, kind), callback, f)
    requires !f.dryRun
    ensures ReportOk(Pair(was, b, kind), Pair(now, b, kind), Reported(r), kind, broken, a, callback, f)
    ensures forall b', t' :: (b', t') != (b, kind) ==> Pair(now, b', t') == Pair(was, b', t')
  {
    RepairTouchesOnlyItsPair(was, now, kind, b, good, bad, r, broken, a, created, calls, callback, f);
    RepairReported(was, now, kind, b, good, bad, r, broken, a, created, calls, callback, f);
  }

  method AuditType(client: Client, f: Flags, b: string, t: string, listed: seq<Sub>, tally: Tally)
      returns (after: Tally, ghost r: Report)
    requires client.Valid() && t in REQUIRED_TYPES && ListsPair(listed, t, Pair(client.subs, b, t))
    modifies client
    ensures client.Valid() && after == Counted(tally, r)
    ensures ReportOk(old(Pair(client.subs, b, t)), Pair(client.subs, b, t), r, t, client.brokenDeletes, client.answer(t, b),
                     client.callback, f)
    ensures forall b', t' :: (b', t') != (b, t) ==> Pair(client.subs, b', t') == old(Pair(client.subs, b', t'))
    ensures r.Healthy? || r.WouldRepair? ==> client.subs == old(client.subs) && client.writes == old(client.writes)
  {
    ghost var was := client.subs;
    ghost var created, writes := Sub(client.nextId, t, b, ENABLED, WEBHOOK, client.callback), client.writes;
    var good, bad := Classify(listed, t, client.callback, f);
    ClassifyDivides(listed, t, client.callback, f, Pair(was, b, t));
    HealthyMeansConverged(good, bad, Pair(was, b, t), client.callback, f);
    if !f.force && |good| == 1 && |bad| == 0 {
      return tally.(healthy := tally.healthy + 1), Healthy;
    }
    if f.dryRun {
      return tally.(wouldRepair := tally.wouldRepair + 1), WouldRepair;
    }
    var o := Repair(client, t, b, good, bad);
    RepairOutcome(was, client.subs, t, b, good, bad, o, client.brokenDeletes, client.answer(t, b), created,
                  client.writes - writes, client.callback, f);
    after, r := Counted(tally, Reported(o)), Reported(o);
  }

  // ---- the audit of everyone ------------------------------------------------

  function Of(all: seq<Sub>, b: string): seq<Sub> {
    Select(all, (s: Sub) => s.broadcaster == b)
  }

  method IndexByBroadcaster(all: seq<Sub>) returns (index: map<string, seq<Sub>>)
    ensures forall b :: (if b in index then index[b] else []) == Of(all, b)
  {
    index := map[];
    for i := 0 to |all|
      invariant forall b :: (if b in index then index[b] else []) == Of(all[..i], b)
    {
      var b := all[i].broadcaster;
      assert all[..i + 1][..i] == all[..i];
      index := index[b := (if b in index then index[b] else []) + [all[i]]];
    }
    assert all[..|all|] == all;
  }

  lemma IndexListsPairs(subs: Subs, all: seq<Sub>, b: string, t: string)
    requires Listing(subs, all) && forall id :: id in subs ==> subs[id].id == id
    ensures ListsPair(Of(all, b), t, Pair(subs, b, t))
  {
    SelectDistinct(all, (s: Sub) => s.broadcaster == b);
    forall s: Sub ensures s in Of(all, b) <==> s in all && s.broadcaster == b {
      SelectMember(all, (x: Sub) => x.broadcaster == b, s);
    }
  }

  lemma {:induction false} TargetsPrefix(users: seq<User>, i: nat)
    requires i <= |users|
    ensures Targets(users[..i]) <= Targets(users)
  {
    if i == |users| {
      assert users[..i] == users;
    } else {
      TargetsPrefix(users[..|users| - 1], i);
      assert users[..|users| - 1][..i] == users[..i];
    }
  }

  lemma NextTargetIsNew(users: seq<User>, i: nat)
    requires i < |users| && DistinctTargets(users) && Audited(users[i])
    ensures Targets(users[..i + 1]) == Targets(users[..i]) + [users[i].twitchId.value]
    ensures users[i].twitchId.value !in Targets(users[..i])
  {
    assert users[..i + 1][..i] == users[..i];
    TargetsPrefix(users, i + 1);
    var before, id := Targets(users[..i]), users[i].twitchId.value;
    assert Targets(users[..i + 1]) == before + [id];
    forall j | 0 <= j < |before| ensures before[j] != id {
      assert before[j] == Targets(users)[j] && id == Targets(users)[|before|];
    }
  }

  lemma TypesDistinct(k: nat)
    requires k < |REQUIRED_TYPES|
    ensures REQUIRED_TYPES[k] !in REQUIRED_TYPES[..k]
  {
    assert |REQUIRED_TYPES[0]| == 13 && |REQUIRED_TYPES[1]| == 14 && |REQUIRED_TYPES[2]| == 20;
  }

  type PairKey = (string, string)

  type Reports = map<PairKey, Report>

  /** The pairs in the order an audit takes them. */
  ghost function AuditOrder(users: seq<User>): seq<PairKey> {
    PairsOf(Targets(users))
  }

  ghost function PairsOf(ids: seq<string>): seq<PairKey> {
    if ids == [] then []
    else
      var b := ids[|ids| - 1];
      PairsOf(ids[..|ids| - 1]) + ThreeOf(b)
  }

  ghost function ThreeOf(b: string): seq<PairKey> {
    [(b, REQUIRED_TYPES[0]), (b, REQUIRED_TYPES[1]), (b, REQUIRED_TYPES[2])]
  }

  /** The tally is a count of the reports. */
  ghost function TallyOf(order: seq<PairKey>, reports: Reports): Tally
    requires forall p :: p in order ==> p in reports
  {
    if order == [] then Tally(0, 0, 0, 0, 0)
    else Counted(TallyOf(order[..|order| - 1], reports), reports[order[|order| - 1]])
  }

  lemma {:induction false} TallyUnaffected(order: seq<PairKey>, reports: Reports, p: PairKey, r: Report)
    requires p !in order && forall q :: q in order ==> q in reports
    ensures TallyOf(order, reports[p := r]) == TallyOf(order, reports)
  {
    if order != [] {
      TallyUnaffected(order[..|order| - 1], reports, p, r);
    }
  }

  lemma TallyOneMore(order: seq<PairKey>, reports: Reports, p: PairKey, r: Report)
    requires p !in order && forall q :: q in order ==> q in reports
    ensures TallyOf(order + [p], reports[p := r]) == Counted(TallyOf(order, reports), r)
  {
    assert (order + [p])[..|order|] == order;
    TallyUnaffected(order, reports, p, r);
  }

  lemma {:induction false} TallyTotals(order: seq<PairKey>, reports: Reports)
    requires forall p :: p in order ==> p in reports
    ensures TallyOf(order, reports).Total() == |order|
    ensures (forall p :: p in order ==> reports[p] == Healthy) ==> TallyOf(order, reports) == Tally(|order|, 0, 0, 0, 0)
  {
    if order != [] {
      TallyTotals(order[..|order| - 1], reports);
      assert order[|order| - 1] in order;
    }
  }

  /** A kind of report that was never made is counted zero times. */
  lemma {:induction false} TallyKinds(order: seq<PairKey>, reports: Reports)
    requires forall p :: p in order ==> p in reports
    ensures (forall p :: p in order ==> reports[p] == Healthy || reports[p] == Reported(Repaired)) ==>
              TallyOf(order, reports).failed == 0 && TallyOf(order, reports).unauthorized == 0
  {
    if order != [] {
      TallyKinds(order[..|order| - 1], reports);
      assert order[|order| - 1] in order;
    }
  }

  /** A pair that was reported on is as its report says, any other is untouched. */
  ghost predicate PairOk(was: Subs, now: Subs, reports: Reports, p: PairKey, client: Client, f: Flags) {
    if p in reports then
      ReportOk(Pair(was, p.0, p.1), Pair(now, p.0, p.1), reports[p], p.1,
               client.brokenDeletes, client.answer(p.1, p.0), client.callback, f)
    else Pair(now, p.0, p.1) == Pair(was, p.0, p.1)
  }

  /** How far an audit has come. */
  ghost predicate Progress(was: Subs, now: Subs, reports: Reports, client: Client, f: Flags) {
    forall p :: PairOk(was, now, reports, p, client, f)
  }

  ghost predicate Quiet(reports: Reports) {
    forall p :: p in reports ==> reports[p].Healthy? || reports[p].WouldRepair?
  }

  /** The reports so far, in the order they were made, and the tally they give. */
  ghost predicate Booked(order: seq<PairKey>, reports: Reports, tally: Tally) {
    (forall p :: p in order <==> p in reports) && tally == TallyOf(order, reports)
  }

  /** One pair further. */
  lemma ProgressStep(was: Subs, mid: Subs, now: Subs, reports: Reports, k: PairKey, r: Report, client: Client, f: Flags)
    requires Progress(was, mid, reports, client, f) && k !in reports
    requires forall b', t' :: (b', t') != k ==> Pair(now, b', t') == Pair(mid, b', t')
    requires ReportOk(Pair(mid, k.0, k.1), Pair(now, k.0, k.1), r, k.1, client.brokenDeletes, client.answer(k.1, k.0), client.callback, f)
    ensures Progress(was, now, reports[k := r], client, f)
  {
    var more := reports[k := r];
    forall p ensures PairOk(was, now, more, p, client, f) {
      assert PairOk(was, mid, reports, p, client, f);
      if p != k {
        assert (p.0, p.1) != k && Pair(now, p.0, p.1) == Pair(mid, p.0, p.1);
      }
    }
  }

  lemma Book(order: seq<PairKey>, reports: Reports, tally: Tally, k: PairKey, r: Report)
    requires Booked(order, reports, tally) && k !in reports
    ensures Booked(order + [k], reports[k := r], Counted(tally, r))
    ensures Quiet(reports[k := r]) ==> Quiet(reports) && (r.Healthy? || r.WouldRepair?)
  {
    TallyOneMore(order, reports, k, r);
    var more := reports[k := r];
    assert more[k] == r && forall p :: p in reports ==> more[p] == reports[p];
  }

  /** One pair, audited and booked. */
  method AuditNext(client: Client, f: Flags, b: string, t: string, listed: seq<Sub>, tally: Tally,
                   ghost was: Subs, ghost writes: nat, ghost order: seq<PairKey>, ghost reports: Reports)
    returns (after: Tally, ghost more: Reports)
    requires client.Valid() && Progress(was, client.subs, reports, client, f) && Booked(order, reports, tally)
    requires t in REQUIRED_TYPES && (b, t) !in reports && ListsPair(listed, t, Pair(was, b, t))
    requires Quiet(reports) ==> client.subs == was && client.writes == writes
    modifies client
    ensures client.Valid() && Progress(was, client.subs, more, client, f) && Booked(order + [(b, t)], more, after)
    ensures forall s :: (b, s) in more <==> (b, s) in reports || s == t
    ensures Quiet(more) ==> client.subs == was && client.writes == writes
  {
    ghost var mid := client.subs;
    assert PairOk(was, mid, reports, (b, t), client, f);
    ghost var r;
    after, r := AuditType(client, f, b, t, listed, tally);
    ProgressStep(was, mid, client.subs, reports, (b, t), r, client, f);
    Book(order, reports, tally, (b, t), r);
    more := reports[(b, t) := r];
  }

  function PairsWith(b: string, types: seq<string>): seq<PairKey> {
    if types == [] then [] else PairsWith(b, types[..|types| - 1]) + [(b, types[|types| - 1])]
  }

  ghost predicate DistinctTypes(types: seq<string>) {
    forall i, j :: 0 <= i < j < |types| ==> types[i] != types[j]
  }

  lemma NextType(b: string, types: seq<string>, k: nat)
    requires k < |types| && DistinctTypes(types)
    ensures PairsWith(b, types[..k + 1]) == PairsWith(b, types[..k]) + [(b, types[k])]
    ensures types[k] !in types[..k] && forall s :: s in types[..k + 1] <==> s in types[..k] || s == types[k]
  {
    assert types[..k + 1][..k] == types[..k];
    assert types[..k + 1] == types[..k] + [types[k]];
  }

  /** The types of one broadcaster, one after the other. */
  method AuditTypes(client: Client, f: Flags, b: string, types: seq<string>, listed: seq<Sub>, tally: Tally,
                    ghost was: Subs, ghost writes: nat, ghost order: seq<PairKey>, ghost reports: Reports)
    returns (after: Tally, ghost longer: seq<PairKey>, ghost more: Reports)
    requires client.Valid() && Progress(was, client.subs, reports, client, f) && Booked(order, reports, tally)
    requires DistinctTypes(types) && forall t :: (b, t) !in reports
    requires forall t :: t in types ==> t in REQUIRED_TYPES && ListsPair(listed, t, Pair(was, b, t))
    requires Quiet(reports) ==> client.subs == was && client.writes == writes
    modifies client
    ensures client.Valid() && Progress(was, client.subs, more, client, f) && Booked(longer, more, after)
    ensures longer == order + PairsWith(b, types)
    ensures Quiet(more) ==> client.subs == was && client.writes == writes
  {
    after, longer, more := tally, order, reports;
    for k := 0 to |types|
      invariant client.Valid() && Progress(was, client.subs, more, client, f) && Booked(longer, more, after)
      invariant longer == order + PairsWith(b, types[..k])
      invariant forall t :: (b, t) in more ==> t in types[..k]
      invariant Quiet(more) ==> client.subs == was && client.writes == writes
    {
      NextType(b, types, k);
      after, more := AuditNext(client, f, b, types[k], listed, after, was, writes, longer, more);
      longer := longer + [(b, types[k])];
    }
    assert types[..|types|] == types;
  }

  lemma RequiredPairs(b: string)
    ensures PairsWith(b, REQUIRED_TYPES) == ThreeOf(b) && DistinctTypes(REQUIRED_TYPES)
  {
    TypesDistinct(1);
    TypesDistinct(2);
    var two, one := REQUIRED_TYPES[..2], REQUIRED_TYPES[..2][..1];
    assert one == [REQUIRED_TYPES[0]] && one[..0] == [];
    assert PairsWith(b, one) == [(b, REQUIRED_TYPES[0])];
    assert PairsWith(b, two) == PairsWith(b, one) + [(b, REQUIRED_TYPES[1])];
  }

  lemma PairMeans(was: Subs, now: Subs, reports: Reports, b: string, t: string, client: Client, f: Flags)
    requires Progress(was, now, reports, client, f)
    ensures (b, t) !in reports ==> Pair(now, b, t) == Pair(was, b, t)
    ensures (b, t) in reports ==>
              var r := reports[(b, t)];
              && AuditKept(Pair(was, b, t), Pair(now, b, t), client.callback, f)
              && (f.dryRun ==> r.Healthy? || r.WouldRepair?)
              && (!f.force && Converged(Pair(was, b, t), client.callback, f) ==> r == Healthy)
              && (client.Healthy() && !f.dryRun ==>
                    Converged(Pair(now, b, t), client.callback, f) && (r == Healthy || r == Reported(Repaired)))
  {
    assert PairOk(was, now, reports, (b, t), client, f);
    if (b, t) in reports {
      ReportMeans(Pair(was, b, t), Pair(now, b, t), reports[(b, t)], t,
                  client.brokenDeletes, client.answer(t, b), client.callback, f);
    }
  }

  /** With force, nothing of an audited pair is what it was. */
  lemma Forced(was: Subs, now: Subs, reports: Reports, client: Client, f: Flags)
    requires Progress(was, now, reports, client, f) && client.Healthy() && f.force && !f.dryRun
    ensures forall id :: id in now && id in was && now[id] == was[id] ==> (now[id].broadcaster, now[id].kind) !in reports
  {
    forall id | id in now && id in was && now[id] == was[id]
      ensures (now[id].broadcaster, now[id].kind) !in reports
    {
      var b, t := now[id].broadcaster, now[id].kind;
      assert PairOk(was, now, reports, (b, t), client, f);
      assert Pair(was, b, t).Keys !! Pair(now, b, t).Keys <== (b, t) in reports;
      assert id in Pair(was, b, t).Keys * Pair(now, b, t).Keys;
    }
  }

  /** What the reports of a finished audit mean for all its pairs at once. */
  lemma AuditMeans(was: Subs, now: Subs, order: seq<PairKey>, reports: Reports, tally: Tally, client: Client, f: Flags)
    requires Progress(was, now, reports, client, f) && Booked(order, reports, tally)
    ensures forall b, t :: if (b, t) in reports then AuditKept(Pair(was, b, t), Pair(now, b, t), client.callback, f)
                           else Pair(now, b, t) == Pair(was, b, t)
    ensures f.dryRun ==> Quiet(reports)
    ensures !f.force && (forall b, t :: (b, t) in reports ==> Converged(Pair(was, b, t), client.callback, f)) ==>
              Quiet(reports) && tally == Tally(|order|, 0, 0, 0, 0)
    ensures client.Healthy() && !f.dryRun ==>
              && (forall b, t :: (b, t) in reports ==> Converged(Pair(now, b, t), client.callback, f))
              && tally.failed == 0 && tally.unauthorized == 0
    ensures tally.Total() == |order|
  {
    forall b, t {
      PairMeans(was, now, reports, b, t, client, f);
    }
    assert forall p :: p in reports ==> p == (p.0, p.1);
    TallyTotals(order, reports);
    TallyKinds(order, reports);
  }

  lemma {:induction false} OrderMember(ids: seq<string>, b: string, t: string)
    ensures (b, t) in PairsOf(ids) <==> b in ids && t in REQUIRED_TYPES
    ensures |PairsOf(ids)| == 3 * |ids|
  {
    if ids != [] {
      OrderMember(ids[..|ids| - 1], b, t);
      assert ids == ids[..|ids| - 1] + [ids[|ids| - 1]];
    }
  }

  lemma {:induction false} TargetsMember(users: seq<User>, b: string)
    ensures b in Targets(users) <==> exists u :: u in users && u.twitchId == Some(b) && u.twitchLogin.Some?
  {
    if users != [] {
      var init, u := users[..|users| - 1], users[|users| - 1];
      TargetsMember(init, b);
      assert users == init + [u];
    }
  }

  /** Convergence of everything audited, user by user and type by type. */
  lemma AllConvergedMeans(subs: Subs, users: seq<User>, callback: string, f: Flags)
    requires AllConverged(subs, users, callback, f)
    ensures forall u, t ::
              u in users && u.twitchId.Some? && u.twitchLogin.Some?
              && t in ["stream.online", "stream.offline", "channel.chat.message"] ==>
                exists id :: Only(subs, u.twitchId.value, t, id) && subs[id].status == "enabled"
                  && (f.fixCallback ==> subs[id].callback == callback)
  {
    forall u, t |
      u in users && u.twitchId.Some? && u.twitchLogin.Some?
      && t in ["stream.online", "stream.offline", "channel.chat.message"]
      ensures exists id :: Only(subs, u.twitchId.value, t, id) && subs[id].status == "enabled"
                && (f.fixCallback ==> subs[id].callback == callback)
    {
      var b := u.twitchId.value;
      TargetsMember(users, b);
      assert AuditedPair(users, b, t);
      ConvergedIsOnly(subs, b, t, callback, f);
    }
  }

  /** The loop over the users: what was reported, in which order, and with which effect. */
  method AuditUsers(client: Client, f: Flags, users: seq<User>) returns (tally: Tally, ghost reports: Reports)
    requires client.Valid() && DistinctTargets(users)
    modifies client
    ensures client.Valid() && Booked(AuditOrder(users), reports, tally)
    ensures Progress(old(client.subs), client.subs, reports, client, f)
    ensures Quiet(reports) ==> client.subs == old(client.subs) && client.writes == old(client.writes)
  {
    ghost var was, writes := client.subs, client.writes;
    ghost var order: seq<PairKey> := [];
    var all := client.List();
    var index := IndexByBroadcaster(all);
    tally, reports := Tally(0, 0, 0, 0, 0), map[];
    for i := 0 to |users|
      invariant client.Valid() && Progress(was, client.subs, reports, client, f) && Booked(order, reports, tally)
      invariant order == AuditOrder(users[..i])
      invariant Quiet(reports) ==> client.subs == was && client.writes == writes
    {
      assert users[..i + 1][..i] == users[..i];
      var u := users[i];
      if !Audited(u) {
        assert Targets(users[..i]) + [] == Targets(users[..i]);
        continue;
      }
      var b := u.twitchId.value;
      NextTargetIsNew(users, i);
      forall t {
        OrderMember(Targets(users[..i]), b, t);
      }
      forall t | t in REQUIRED_TYPES ensures ListsPair(Of(all, b), t, Pair(was, b, t)) {
        IndexListsPairs(was, all, b, t);
      }
      assert (Targets(users[..i]) + [b])[..|Targets(users[..i])|] == Targets(users[..i]);
      assert AuditOrder(users[..i + 1]) == AuditOrder(users[..i]) + ThreeOf(b);
      RequiredPairs(b);
      tally, order, reports := AuditTypes(client, f, b, REQUIRED_TYPES, if b in index then index[b] else [], tally,
                                          was, writes, order, reports);
    }
    assert users[..|users|] == users;
  }

  /** The same, pair by pair of the users. */
  lemma AuditDone(was: Subs, now: Subs, users: seq<User>, reports: Reports, tally: Tally, client: Client, f: Flags)
    requires Progress(was, now, reports, client, f) && Booked(AuditOrder(users), reports, tally)
    ensures tally.Total() == 3 * |Targets(users)|
    ensures forall b, t :: (b, t) in reports <==> AuditedPair(users, b, t)
    ensures forall b, t ::
              if AuditedPair(users, b, t) then AuditKept(Pair(was, b, t), Pair(now, b, t), client.callback, f)
              else Pair(now, b, t) == Pair(was, b, t)
    ensures client.Healthy() && !f.dryRun ==>
              AllConverged(now, users, client.callback, f) && tally.failed == 0 && tally.unauthorized == 0
    ensures client.Healthy() && !f.dryRun && f.force ==>
              forall id :: id in now && id in was && now[id] == was[id] ==> !AuditedPair(users, now[id].broadcaster, now[id].kind)
    ensures f.dryRun ==> Quiet(reports)
    ensures !f.force && AllConverged(was, users, client.callback, f) ==> Quiet(reports) && tally.healthy == tally.Total()
  {
    forall b, t ensures (b, t) in reports <==> AuditedPair(users, b, t) {
      OrderMember(Targets(users), b, t);
    }
    OrderMember(Targets(users), "", "");
    AuditMeans(was, now, AuditOrder(users), reports, tally, client, f);
    if client.Healthy() && !f.dryRun && f.force {
      Forced(was, now, reports, client, f);
    }
  }

  /** Each audited pair is reported on once, and the tally counts the reports. */
  method Audit(client: Client, f: Flags, users: seq<User>) returns (tally: Tally, ghost reports: Reports)
    requires client.Valid() && DistinctTargets(users)
    modifies client
    ensures client.Valid() && tally.Total() == 3 * |Targets(users)|
    ensures Booked(AuditOrder(users), reports, tally)
    ensures forall b, t :: (b, t) in reports <==> AuditedPair(users, b, t)
    ensures Progress(old(client.subs), client.subs, reports, client, f)
    ensures forall b, t ::
              if AuditedPair(users, b, t)
              then AuditKept(old(Pair(client.subs, b, t)), Pair(client.subs, b, t), client.callback, f)
              else Pair(client.subs, b, t) == old(Pair(client.subs, b, t))
    ensures client.Healthy() && !f.dryRun ==>
              AllConverged(client.subs, users, client.callback, f) && tally.failed == 0 && tally.unauthorized == 0
    ensures client.Healthy() && !f.dryRun ==>
              forall u, t ::
                u in users && u.twitchId.Some? && u.twitchLogin.Some?
                && t in ["stream.online", "stream.offline", "channel.chat.message"] ==>
                  exists id :: Only(client.subs, u.twitchId.value, t, id) && client.subs[id].status == "enabled"
                    && (f.fixCallback ==> client.subs[id].callback == client.callback)
    ensures client.Healthy() && !f.dryRun && f.force ==>
              forall id :: id in client.subs && id in old(client.subs) && client.subs[id] == old(client.subs)[id] ==>
                !AuditedPair(users, client.subs[id].broadcaster, client.subs[id].kind)
    ensures f.dryRun ==> client.subs == old(client.subs) && client.writes == old(client.writes)
    ensures !f.force && old(AllConverged(client.subs, users, client.callback, f)) ==>
              client.subs == old(client.subs) && client.writes == old(client.writes) && tally.healthy == tally.Total()
  {
    ghost var was, writes := client.subs, client.writes;
    tally, reports := AuditUsers(client, f, users);
    AuditDone(was, client.subs, users, reports, tally, client, f);
    if client.Healthy() && !f.dryRun {
      AllConvergedMeans(client.subs, users, client.callback, f);
    }
    assert Quiet(reports) ==> client.subs == was && client.writes == writes;
  }

  /** After an audit whose calls all succeeded, a second one finds everything
      healthy and issues no create and no delete. */
  method AuditTwice(client: Client, f: Flags, users: seq<User>) returns (second: Tally, ghost settled: Subs, ghost writes: nat)
    requires client.Valid() && DistinctTargets(users) && client.Healthy() && !f.dryRun
    modifies client
    ensures AllConverged(settled, users, client.callback, f)
    ensures client.subs == settled && client.writes == writes && second.healthy == 3 * |Targets(users)|
  {
    var first, reports := Audit(client, f, users);
    settled, writes := client.subs, client.writes;
    second, reports := Audit(client, f.(force := false), users);
  }

  /** The one report that is too good: a revoked subscription is deleted, the create
      is answered "already exists", the audit reports one repair and no failure, and
      the broadcaster is left without any subscription of the type. */
  method RepairedToNothing() returns (tally: Tally, client: Client)
    ensures tally == Tally(2, 1, 0, 0, 0)
    ensures Pair(client.subs, "1", "stream.online") == map[]
  {
    var revoked := Sub(0, "stream.online", "1", "authorization_revoked", WEBHOOK, "cb");
    var offline := Sub(1, "stream.offline", "1", ENABLED, WEBHOOK, "cb");
    var chat := Sub(2, CHAT_MESSAGE, "1", ENABLED, WEBHOOK, "cb");
    client := new Client("cb", {}, (kind, b) => Status(409), map[0 := revoked, 1 := offline, 2 := chat], 3);
    ghost var was := client.subs;
    var f := Flags(false, false, false);
    var users := [User(Some("1"), Some("streamer"))];
    assert users[..0] == [] && Targets(users) == ["1"];
    ghost var reports;
    tally, reports := Audit(client, f, users);
    RevokedPairs(was, revoked, offline, chat);
    RevokedReports(was, client, reports, tally, f);
  }

  lemma RevokedPairs(was: Subs, revoked: Sub, offline: Sub, chat: Sub)
    requires was == map[0 := revoked, 1 := offline, 2 := chat]
    requires revoked == Sub(0, "stream.online", "1", "authorization_revoked", WEBHOOK, "cb")
    requires offline == Sub(1, "stream.offline", "1", ENABLED, WEBHOOK, "cb")
    requires chat == Sub(2, CHAT_MESSAGE, "1", ENABLED, WEBHOOK, "cb")
    ensures Pair(was, "1", REQUIRED_TYPES[0]).Keys == {0}
    ensures !HasWanted(Pair(was, "1", REQUIRED_TYPES[0]), "cb", Flags(false, false, false))
    ensures Converged(Pair(was, "1", REQUIRED_TYPES[1]), "cb", Flags(false, false, false))
    ensures Converged(Pair(was, "1", REQUIRED_TYPES[2]), "cb", Flags(false, false, false))
  {
    assert |"stream.online"| == 13 && |"stream.offline"| == 14 && |CHAT_MESSAGE| == 20;
    assert |revoked.status| == 21 && |ENABLED| == 7;
    var p, q := Pair(was, "1", REQUIRED_TYPES[1]), Pair(was, "1", REQUIRED_TYPES[2]);
    assert 1 in p && p.Keys == {1} && Wanted(p[1], "cb", Flags(false, false, false));
    assert 2 in q && q.Keys == {2} && Wanted(q[2], "cb", Flags(false, false, false));
  }

  lemma RevokedReports(was: Subs, client: Client, reports: Reports, tally: Tally, f: Flags)
    requires f == Flags(false, false, false) && client.callback == "cb" && client.brokenDeletes == {}
    requires client.answer(REQUIRED_TYPES[0], "1") == Status(409)
    requires Pair(was, "1", REQUIRED_TYPES[0]).Keys == {0} && !HasWanted(Pair(was, "1", REQUIRED_TYPES[0]), "cb", f)
    requires Converged(Pair(was, "1", REQUIRED_TYPES[1]), "cb", f) && Converged(Pair(was, "1", REQUIRED_TYPES[2]), "cb", f)
    requires Progress(was, client.subs, reports, client, f) && Booked(PairsOf(["1"]), reports, tally)
    ensures tally == Tally(2, 1, 0, 0, 0) && Pair(client.subs, "1", REQUIRED_TYPES[0]) == map[]
  {
    var order := ThreeOf("1");
    assert ["1"][..0] == [] && PairsOf(["1"]) == order;
    var one, two := order[..1], order[..2];
    assert one[..0] == [] && two[..1] == one && order[..2] == two;
    assert order[0] in reports && order[1] in reports && order[2] in reports;
    assert TallyOf(one, reports) == Counted(Tally(0, 0, 0, 0, 0), reports[order[0]]);
    assert TallyOf(two, reports) == Counted(TallyOf(one, reports), reports[order[1]]);
    assert forall i :: 0 <= i < 3 ==> PairOk(was, client.subs, reports, order[i], client, f);
    assert !Converged(Pair(was, "1", REQUIRED_TYPES[0]), "cb", f);
  }
}
