/** The boot-time pass that converges the overlay's EventSub subscriptions with the
    broadcasters who hold an active device (eventsub_subs.go): create what is
    missing, prune what nobody uses, touch nothing else. */
module OverlayReconcile {
  import opened Helix

  const OVERLAY_TYPES: seq<string> := [
    "channel.cheer",
    "channel.channel_points_custom_reward_redemption.add",
    "channel.custom_power_up_redemption.add"
  ]

  predicate IsOverlaySub(s: Sub, overlayCallback: string) {
    s.transport == WEBHOOK && s.callback == overlayCallback && s.kind in OVERLAY_TYPES
  }

  /** A broadcaster's overlay subscriptions of one type. */
  ghost function Ours(subs: Subs, b: string, t: string, cb: string): Subs {
    map id | id in subs && IsOverlaySub(subs[id], cb) && subs[id].broadcaster == b && subs[id].kind == t :: subs[id]
  }

  /** Everything that belongs to somebody else: the bot's own subscriptions. */
  ghost function Foreign(subs: Subs, cb: string): Subs {
    map id | id in subs && !IsOverlaySub(subs[id], cb) :: subs[id]
  }

  ghost predicate Served(subs: Subs, b: string, t: string, cb: string) {
    exists id :: id in subs && IsOverlaySub(subs[id], cb)
      && subs[id].broadcaster == b && subs[id].kind == t && subs[id].status == ENABLED
  }

  ghost predicate Reconciled(subs: Subs, active: seq<string>, cb: string) {
    && (forall b, t :: b in active && t in OVERLAY_TYPES ==> Served(subs, b, t, cb))
    && (forall id :: id in subs && IsOverlaySub(subs[id], cb) ==> subs[id].broadcaster in active)
  }

  // ---- the key of the index -------------------------------------------------

  function Key(b: string, t: string): string {
    b + "|" + t
  }

  /** The separator may occur in the broadcaster, never in the type, so the last one
      in a key splits it back. */
  lemma KeyInjective(b: string, t: string, b': string, t': string)
    requires '|' !in t && '|' !in t' && Key(b, t) == Key(b', t')
    ensures b == b' && t == t'
  {
    var k := Key(b, t);
    assert k[|b|] == '|' && k[|b'|] == '|';
    forall j | |b| < j < |k| ensures k[j] != '|' {
      assert k[j] == t[j - |b| - 1];
    }
    forall j | |b'| < j < |k| ensures k[j] != '|' {
      assert k[j] == t'[j - |b'| - 1];
    }
    assert b == k[..|b|] && b' == k[..|b'|];
    assert t == k[|b| + 1..] && t' == k[|b'| + 1..];
  }

  lemma TypesHaveNoSeparator(t: string)
    requires t in OVERLAY_TYPES
    ensures '|' !in t
  {
  }

  // ---- the pass -------------------------------------------------------------

  method IndexEnabled(existing: seq<Sub>, cb: string) returns (enabled: set<string>)
    ensures forall b, t :: t in OVERLAY_TYPES ==>
              (Key(b, t) in enabled <==>
               exists s :: s in existing && IsOverlaySub(s, cb) && s.broadcaster == b && s.kind == t && s.status == ENABLED)
  {
    enabled := {};
    for i := 0 to |existing|
      invariant forall k :: k in enabled ==>
                  exists s :: s in existing[..i] && IsOverlaySub(s, cb) && s.status == ENABLED && k == Key(s.broadcaster, s.kind)
      invariant forall s :: s in existing[..i] && IsOverlaySub(s, cb) && s.status == ENABLED ==> Key(s.broadcaster, s.kind) in enabled
    {
      var s := existing[i];
      assert existing[..i + 1] == existing[..i] + [s];
      if IsOverlaySub(s, cb) && s.status == ENABLED {
        enabled := enabled + {Key(s.broadcaster, s.kind)};
      }
    }
    assert existing[..|existing|] == existing;
    forall b, t | t in OVERLAY_TYPES && Key(b, t) in enabled
      ensures exists s :: s in existing && IsOverlaySub(s, cb) && s.broadcaster == b && s.kind == t && s.status == ENABLED
    {
      var s :| s in existing && IsOverlaySub(s, cb) && s.status == ENABLED && Key(b, t) == Key(s.broadcaster, s.kind);
      TypesHaveNoSeparator(t);
      TypesHaveNoSeparator(s.kind);
      KeyInjective(b, t, s.broadcaster, s.kind);
    }
  }

  ghost predicate Distinct(active: seq<string>) {
    forall i, j :: 0 <= i < j < |active| ==> active[i] != active[j]
  }

  /** `id` was created for this broadcaster and type since `was`. */
  ghost predicate Made(was: Subs, now: Subs, b: string, t: string, id: SubId) {
    id in now && id !in was && now[id].broadcaster == b && now[id].kind == t
  }

  /** `now` is `was` with enabled overlay subscriptions added for pairs in `todo`,
      at least one for each pair whose create is answered OK. */
  ghost predicate CreatedFor(was: Subs, now: Subs, todo: set<(string, string)>, client: Client) {
    && Submap(was, now)
    && (forall id :: id in now && id !in was ==>
          && (now[id].broadcaster, now[id].kind) in todo
          && now[id] == Sub(id, now[id].kind, now[id].broadcaster, ENABLED, WEBHOOK, client.callback))
    && (forall b, t :: (b, t) in todo && OK(client.answer(t, b)) ==> exists id :: Made(was, now, b, t, id))
  }

  ghost predicate MadeOnce(was: Subs, now: Subs) {
    forall b, t, id, id' :: Made(was, now, b, t, id) && Made(was, now, b, t, id') ==> id == id'
  }

  /** One create, or none because the create was refused. */
  lemma CreatedOneMore(was: Subs, mid: Subs, now: Subs, todo: set<(string, string)>, b: string, t: string, id: SubId, client: Client)
    requires CreatedFor(was, mid, todo, client)
    requires if OK(client.answer(t, b)) then id !in mid && id !in was && now == mid[id := Sub(id, t, b, ENABLED, WEBHOOK, client.callback)]
             else now == mid
    ensures CreatedFor(was, now, todo + {(b, t)}, client)
    ensures MadeOnce(was, mid) && (b, t) !in todo ==> MadeOnce(was, now)
  {
    forall b', t' | (b', t') in todo + {(b, t)} && OK(client.answer(t', b')) ensures exists id' :: Made(was, now, b', t', id') {
      if (b', t') in todo {
        var id' :| Made(was, mid, b', t', id');
        assert Made(was, now, b', t', id');
      } else {
        assert Made(was, now, b, t, id);
      }
    }
    if MadeOnce(was, mid) && (b, t) !in todo {
      forall b', t', i, j | Made(was, now, b', t', i) && Made(was, now, b', t', j) ensures i == j {
        assert i != id ==> Made(was, mid, b', t', i);
        assert j != id ==> Made(was, mid, b', t', j);
      }
    }
  }

  method CreateMissing(client: Client, active: seq<string>, enabled: set<string>) returns (ghost todo: set<(string, string)>)
    requires client.Valid()
    modifies client
    ensures client.Valid() && CreatedFor(old(client.subs), client.subs, todo, client)
    ensures forall b, t :: (b, t) in todo <==> b in active && t in OVERLAY_TYPES && Key(b, t) !in enabled
    ensures Distinct(active) ==> MadeOnce(old(client.subs), client.subs)
    ensures todo == {} ==> client.subs == old(client.subs) && client.writes == old(client.writes)
    ensures todo != {} ==> client.writes > old(client.writes)
  {
    ghost var was := client.subs;
    todo := {};
    for i := 0 to |active|
      invariant client.Valid() && CreatedFor(was, client.subs, todo, client)
      invariant forall b, t :: (b, t) in todo <==> b in active[..i] && t in OVERLAY_TYPES && Key(b, t) !in enabled
      invariant Distinct(active) ==> MadeOnce(was, client.subs)
      invariant todo == {} ==> client.subs == was && client.writes == old(client.writes)
      invariant client.writes >= old(client.writes) && (todo != {} ==> client.writes > old(client.writes))
    {
      var b := active[i];
      assert active[..i + 1] == active[..i] + [b];
      for k := 0 to |OVERLAY_TYPES|
        invariant client.Valid() && CreatedFor(was, client.subs, todo, client)
        invariant forall b', t :: (b', t) in todo <==>
                    (b' in active[..i] && t in OVERLAY_TYPES && Key(b', t) !in enabled)
                    || (b' == b && t in OVERLAY_TYPES[..k] && Key(b', t) !in enabled)
        invariant Distinct(active) ==> MadeOnce(was, client.subs)
        invariant todo == {} ==> client.subs == was && client.writes == old(client.writes)
        invariant client.writes >= old(client.writes) && (todo != {} ==> client.writes > old(client.writes))
      invariant client.writes >= old(client.writes) && (todo != {} ==> client.writes > old(client.writes))
      {
        var t := OVERLAY_TYPES[k];
        TypesDistinct(k);
        assert OVERLAY_TYPES[..k + 1] == OVERLAY_TYPES[..k] + [t];
        if Key(b, t) !in enabled {
          ghost var mid, id := client.subs, client.nextId;
          var a := client.Create(t, b);
          CreatedOneMore(was, mid, client.subs, todo, b, t, id, client);
          todo := todo + {(b, t)};
        }
      }
      assert OVERLAY_TYPES[..|OVERLAY_TYPES|] == OVERLAY_TYPES;
    }
    assert active[..|active|] == active;
  }

  lemma TypesDistinct(k: nat)
    requires k < |OVERLAY_TYPES|
    ensures OVERLAY_TYPES[k] !in OVERLAY_TYPES[..k]
  {
    assert |OVERLAY_TYPES[0]| == 13 && |OVERLAY_TYPES[1]| == 51 && |OVERLAY_TYPES[2]| == 38;
  }

  predicate Orphan(s: Sub, active: seq<string>, cb: string) {
    IsOverlaySub(s, cb) && s.broadcaster !in active
  }

  function OrphanIds(l: seq<Sub>, active: seq<string>, cb: string): set<SubId> {
    set s | s in l && Orphan(s, active, cb) :: s.id
  }

  lemma OrphanIdsNext(l: seq<Sub>, i: nat, active: seq<string>, cb: string)
    requires i < |l|
    ensures OrphanIds(l[..i + 1], active, cb) == OrphanIds(l[..i], active, cb) + if Orphan(l[i], active, cb) then {l[i].id} else {}
    ensures forall s :: s in l[..i + 1] <==> s in l[..i] || s == l[i]
  {
    assert l[..i + 1] == l[..i] + [l[i]];
  }

  method Prune(client: Client, cb: string, existing: seq<Sub>, active: seq<string>) returns (ghost gone: set<SubId>)
    requires client.Valid()
    modifies client`subs, client`writes
    ensures client.Valid() && gone == OrphanIds(existing, active, cb) - client.brokenDeletes
    ensures client.subs == old(client.subs) - gone
    ensures client.writes >= old(client.writes)
    ensures (forall s :: s in existing ==> !Orphan(s, active, cb)) ==> client.writes == old(client.writes)
  {
    gone := {};
    for i := 0 to |existing|
      invariant client.Valid()
      invariant gone == OrphanIds(existing[..i], active, cb) - client.brokenDeletes
      invariant client.subs == old(client.subs) - gone
      invariant client.writes >= old(client.writes)
      invariant (forall s :: s in existing[..i] ==> !Orphan(s, active, cb)) ==> client.writes == old(client.writes)
    {
      var s := existing[i];
      OrphanIdsNext(existing, i, active, cb);
      if !IsOverlaySub(s, cb) || s.broadcaster in active {
        continue;
      }
      var ok := client.Delete(s.id);
      if ok {
        gone := gone + {s.id};
      }
    }
    assert existing[..|existing|] == existing;
  }

  // ---- what the pass does to each pair --------------------------------------

  /** The subscriptions after a pass over `was`: some created for `todo`, then the
      deletable orphans gone. */
  ghost predicate PassEffect(was: Subs, mid: Subs, now: Subs, todo: set<(string, string)>, gone: set<SubId>,
                             active: seq<string>, cb: string, client: Client) {
    && CreatedFor(was, mid, todo, client)
    && (forall b, t :: (b, t) in todo <==> b in active && t in OVERLAY_TYPES && !Served(was, b, t, cb))
    && now == mid - gone
    && (forall id :: id in gone <==> id in was && Orphan(was[id], active, cb) && id !in client.brokenDeletes)
  }

  lemma PassSparesOthers(was: Subs, mid: Subs, now: Subs, todo: set<(string, string)>, gone: set<SubId>,
                         active: seq<string>, cb: string, client: Client)
    requires PassEffect(was, mid, now, todo, gone, active, cb, client)
    ensures client.callback == cb ==> Foreign(now, cb) == Foreign(was, cb)
    ensures forall b, t :: b in active && Served(was, b, t, cb) ==> Ours(now, b, t, cb) == Ours(was, b, t, cb)
    ensures forall b, t :: b !in active ==> Submap(Ours(now, b, t, cb), Ours(was, b, t, cb))
  {
    forall b, t | b in active && Served(was, b, t, cb) ensures Ours(now, b, t, cb) == Ours(was, b, t, cb) {
      assert (b, t) !in todo;
    }
  }

  /** A pair that had no enabled subscription gains exactly one when the create is
      answered OK, and nothing of it is deleted. */
  lemma PassAddsOne(was: Subs, mid: Subs, now: Subs, todo: set<(string, string)>, gone: set<SubId>,
                    active: seq<string>, cb: string, client: Client, b: string, t: string)
    returns (id: SubId)
    requires PassEffect(was, mid, now, todo, gone, active, cb, client) && MadeOnce(was, mid) && client.callback == cb
    requires b in active && t in OVERLAY_TYPES && !Served(was, b, t, cb) && OK(client.answer(t, b))
    ensures id !in was && Ours(now, b, t, cb) == Ours(was, b, t, cb)[id := Sub(id, t, b, ENABLED, WEBHOOK, cb)]
  {
    assert (b, t) in todo;
    id :| Made(was, mid, b, t, id);
    var ours := Ours(now, b, t, cb);
    forall i | i in ours && i !in was ensures i == id {
      assert Made(was, mid, b, t, i);
    }
    assert ours.Keys == Ours(was, b, t, cb).Keys + {id};
  }

  lemma PassAdds(was: Subs, mid: Subs, now: Subs, todo: set<(string, string)>, gone: set<SubId>,
                 active: seq<string>, cb: string, client: Client)
    requires PassEffect(was, mid, now, todo, gone, active, cb, client) && MadeOnce(was, mid) && client.callback == cb
    ensures forall b, t :: b in active && t in OVERLAY_TYPES && !Served(was, b, t, cb) && OK(client.answer(t, b)) ==>
              exists id :: id !in was && Ours(now, b, t, cb) == Ours(was, b, t, cb)[id := Sub(id, t, b, ENABLED, WEBHOOK, cb)]
  {
    forall b, t | b in active && t in OVERLAY_TYPES && !Served(was, b, t, cb) && OK(client.answer(t, b))
      ensures exists id :: id !in was && Ours(now, b, t, cb) == Ours(was, b, t, cb)[id := Sub(id, t, b, ENABLED, WEBHOOK, cb)]
    {
      var id := PassAddsOne(was, mid, now, todo, gone, active, cb, client, b, t);
    }
  }

  lemma PassReconciles(was: Subs, mid: Subs, now: Subs, todo: set<(string, string)>, gone: set<SubId>,
                       active: seq<string>, cb: string, client: Client)
    requires PassEffect(was, mid, now, todo, gone, active, cb, client)
    requires client.Healthy() && client.callback == cb
    ensures Reconciled(now, active, cb)
  {
    forall b, t | b in active && t in OVERLAY_TYPES ensures Served(now, b, t, cb) {
      var id: SubId;
      if Served(was, b, t, cb) {
        id :| id in was && IsOverlaySub(was[id], cb) && was[id].broadcaster == b && was[id].kind == t && was[id].status == ENABLED;
      } else {
        assert (b, t) in todo;
        id :| Made(was, mid, b, t, id);
      }
      assert id in now && now[id] == mid[id];
    }
  }

  ghost predicate Has(subs: Subs, b: string, kind: string, status: string, transport: string, cb: string) {
    exists id :: id in subs && subs[id] == Sub(subs[id].id, kind, b, status, transport, cb)
  }

  lemma ServedHas(subs: Subs, b: string, t: string, cb: string)
    requires Served(subs, b, t, cb)
    ensures Has(subs, b, t, "enabled", "webhook", cb)
  {
    var id :| id in subs && IsOverlaySub(subs[id], cb) && subs[id].broadcaster == b && subs[id].kind == t && subs[id].status == ENABLED;
    assert subs[id] == Sub(subs[id].id, t, b, "enabled", "webhook", cb);
  }

  /** The three types by name. */
  lemma OverlayKinds(kind: string)
    ensures kind in OVERLAY_TYPES <==>
              kind == "channel.cheer" || kind == "channel.channel_points_custom_reward_redemption.add"
              || kind == "channel.custom_power_up_redemption.add"
  {
  }

  lemma ServedByName(subs: Subs, active: seq<string>, cb: string)
    requires forall b, t :: b in active && t in OVERLAY_TYPES ==> Served(subs, b, t, cb)
    ensures forall b :: b in active ==>
              && Has(subs, b, "channel.cheer", "enabled", "webhook", cb)
              && Has(subs, b, "channel.channel_points_custom_reward_redemption.add", "enabled", "webhook", cb)
              && Has(subs, b, "channel.custom_power_up_redemption.add", "enabled", "webhook", cb)
  {
    forall b | b in active
      ensures Has(subs, b, OVERLAY_TYPES[0], "enabled", "webhook", cb)
      ensures Has(subs, b, OVERLAY_TYPES[1], "enabled", "webhook", cb)
      ensures Has(subs, b, OVERLAY_TYPES[2], "enabled", "webhook", cb)
    {
      ServedHas(subs, b, OVERLAY_TYPES[0], cb);
      ServedHas(subs, b, OVERLAY_TYPES[1], cb);
      ServedHas(subs, b, OVERLAY_TYPES[2], cb);
    }
  }

  /** What a pass may delete, and what it leaves when every delete succeeds. */
  lemma PassDeletesOnlyOrphans(was: Subs, mid: Subs, now: Subs, todo: set<(string, string)>, gone: set<SubId>,
                               active: seq<string>, cb: string, client: Client)
    requires PassEffect(was, mid, now, todo, gone, active, cb, client)
    ensures forall id :: id in was ==>
              var s := was[id];
              s.callback != cb || s.transport != "webhook" || s.broadcaster in active
              || (s.kind != "channel.cheer" && s.kind != "channel.channel_points_custom_reward_redemption.add"
                  && s.kind != "channel.custom_power_up_redemption.add") ==>
                id in now && now[id] == s
    ensures client.brokenDeletes == {} && client.callback == cb ==> forall id :: id in now ==>
              var s := now[id];
              s.callback == cb && s.transport == "webhook"
              && (s.kind == "channel.cheer" || s.kind == "channel.channel_points_custom_reward_redemption.add"
                  || s.kind == "channel.custom_power_up_redemption.add") ==>
                s.broadcaster in active
  {
    forall kind: string {
      OverlayKinds(kind);
    }
    forall id | id in now && id !in was ensures now[id].broadcaster in active {
      assert (now[id].broadcaster, now[id].kind) in todo;
    }
  }

  /** List, index, create, prune. */
  method Pass(client: Client, cb: string, active: seq<string>)
    returns (ghost mid: Subs, ghost todo: set<(string, string)>, ghost gone: set<SubId>)
    requires client.Valid()
    modifies client
    ensures client.Valid() && PassEffect(old(client.subs), mid, client.subs, todo, gone, active, cb, client)
    ensures Distinct(active) ==> MadeOnce(old(client.subs), mid)
    ensures client.writes == old(client.writes) ==>
              forall b, t :: b in active && t in OVERLAY_TYPES ==> Served(old(client.subs), b, t, cb)
    ensures old(Reconciled(client.subs, active, cb)) ==> client.subs == old(client.subs) && client.writes == old(client.writes)
  {
    ghost var was := client.subs;
    var existing := client.List();
    var enabled := IndexEnabled(existing, cb);
    todo := CreateMissing(client, active, enabled);
    mid := client.subs;
    gone := Prune(client, cb, existing, active);
    IndexIsServed(was, existing, enabled, cb);
    assert PassEffect(was, mid, client.subs, todo, gone, active, cb, client);
    assert forall p :: p in todo ==> p == (p.0, p.1);
    if Reconciled(was, active, cb) {
      assert todo == {};
      assert forall s :: s in existing ==> !Orphan(s, active, cb);
    }
    if client.writes == old(client.writes) {
      assert forall b, t :: b in active && t in OVERLAY_TYPES && !Served(was, b, t, cb) ==> (b, t) in todo;
    }
  }

  method Reconcile(client: Client, cb: string, active: seq<string>)
    requires client.Valid()
    modifies client
    ensures client.Valid()
    ensures client.callback == cb ==> Foreign(client.subs, cb) == old(Foreign(client.subs, cb))
    ensures forall b, t :: b in active && old(Served(client.subs, b, t, cb)) ==>
              Ours(client.subs, b, t, cb) == old(Ours(client.subs, b, t, cb))
    ensures forall b, t :: b !in active ==> Submap(Ours(client.subs, b, t, cb), old(Ours(client.subs, b, t, cb)))
    ensures Distinct(active) && client.callback == cb ==>
              forall b, t :: b in active && t in OVERLAY_TYPES && !old(Served(client.subs, b, t, cb)) && OK(client.answer(t, b)) ==>
                exists id :: id !in old(client.subs)
                  && Ours(client.subs, b, t, cb) == old(Ours(client.subs, b, t, cb))[id := Sub(id, t, b, ENABLED, WEBHOOK, cb)]
    ensures client.Healthy() && client.callback == cb ==> Reconciled(client.subs, active, cb)
    ensures old(Reconciled(client.subs, active, cb)) ==> client.subs == old(client.subs) && client.writes == old(client.writes)
    // The same in plain terms: what may go, what must be there, and when a call is due.
    ensures forall id :: id in old(client.subs) ==>
              var s := old(client.subs)[id];
              s.callback != cb || s.transport != "webhook" || s.broadcaster in active
              || (s.kind != "channel.cheer" && s.kind != "channel.channel_points_custom_reward_redemption.add"
                  && s.kind != "channel.custom_power_up_redemption.add") ==>
                id in client.subs && client.subs[id] == s
    ensures client.Healthy() && client.callback == cb ==> forall b :: b in active ==>
              && Has(client.subs, b, "channel.cheer", "enabled", "webhook", cb)
              && Has(client.subs, b, "channel.channel_points_custom_reward_redemption.add", "enabled", "webhook", cb)
              && Has(client.subs, b, "channel.custom_power_up_redemption.add", "enabled", "webhook", cb)
    ensures client.brokenDeletes == {} && client.callback == cb ==> forall id :: id in client.subs ==>
              var s := client.subs[id];
              s.callback == cb && s.transport == "webhook"
              && (s.kind == "channel.cheer" || s.kind == "channel.channel_points_custom_reward_redemption.add"
                  || s.kind == "channel.custom_power_up_redemption.add") ==>
                s.broadcaster in active
    ensures client.writes == old(client.writes) ==> forall b :: b in active ==>
              && Has(old(client.subs), b, "channel.cheer", "enabled", "webhook", cb)
              && Has(old(client.subs), b, "channel.channel_points_custom_reward_redemption.add", "enabled", "webhook", cb)
              && Has(old(client.subs), b, "channel.custom_power_up_redemption.add", "enabled", "webhook", cb)
  {
    ghost var was := client.subs;
    ghost var mid, todo, gone := Pass(client, cb, active);
    PassSparesOthers(was, mid, client.subs, todo, gone, active, cb, client);
    PassDeletesOnlyOrphans(was, mid, client.subs, todo, gone, active, cb, client);
    if client.callback == cb && Distinct(active) {
      PassAdds(was, mid, client.subs, todo, gone, active, cb, client);
    }
    if client.Healthy() && client.callback == cb {
      PassReconciles(was, mid, client.subs, todo, gone, active, cb, client);
      ServedByName(client.subs, active, cb);
    }
    if client.writes == old(client.writes) {
      ServedByName(was, active, cb);
    }
  }

  lemma IndexIsServed(was: Subs, existing: seq<Sub>, enabled: set<string>, cb: string)
    requires Listing(was, existing)
    requires forall b, t :: t in OVERLAY_TYPES ==>
               (Key(b, t) in enabled <==>
                exists s :: s in existing && IsOverlaySub(s, cb) && s.broadcaster == b && s.kind == t && s.status == ENABLED)
    ensures forall b, t :: t in OVERLAY_TYPES ==> (Key(b, t) in enabled <==> Served(was, b, t, cb))
  {
  }

  /** A second pass right after a wholly successful one issues no create and no delete. */
  method ReconcileTwice(client: Client, cb: string, active: seq<string>) returns (ghost settled: Subs, ghost writes: nat)
    requires client.Valid() && client.Healthy() && client.callback == cb
    modifies client
    ensures Reconciled(settled, active, cb) && Foreign(settled, cb) == old(Foreign(client.subs, cb))
    ensures client.subs == settled && client.writes == writes
  {
    Reconcile(client, cb, active);
    settled, writes := client.subs, client.writes;
    Reconcile(client, cb, active);
  }
}
