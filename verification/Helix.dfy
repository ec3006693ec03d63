/** The application's EventSub subscriptions as the Helix API shows them: a table
    that can be listed, deleted from and added to. Which deletes fail, and how a
    create for each broadcaster and type is answered, are parameters of the client. */
module Helix {

  type SubId = nat

  const ENABLED: string := "enabled"
  const WEBHOOK: string := "webhook"

  datatype Sub = Sub(id: SubId, kind: string, broadcaster: string, status: string, transport: string, callback: string)

  type Subs = map<SubId, Sub>

  datatype Answer = Lost | Status(code: int)

  predicate OK(a: Answer) {
    a.Status? && (a.code == 202 || a.code == 200)
  }

  predicate AlreadyExists(a: Answer) {
    a.Status? && a.code == 409
  }

  predicate Forbidden(a: Answer) {
    a.Status? && a.code == 403
  }

  /** The subscriptions one broadcaster has of one type. */
  ghost function Pair(subs: Subs, broadcaster: string, kind: string): Subs {
    map id | id in subs && subs[id].broadcaster == broadcaster && subs[id].kind == kind :: subs[id]
  }

  function Ids(l: seq<Sub>): set<SubId> {
    set s | s in l :: s.id
  }

  ghost predicate Submap(a: Subs, b: Subs) {
    forall id :: id in a ==> id in b && b[id] == a[id]
  }

  predicate DistinctIds(l: seq<Sub>) {
    forall i, j :: 0 <= i < j < |l| ==> l[i].id != l[j].id
  }

  /** `l` holds exactly the subscriptions of `subs`, each once, in any order. */
  ghost predicate Listing(subs: Subs, l: seq<Sub>) {
    && DistinctIds(l)
    && (forall s :: s in l ==> s.id in subs && subs[s.id] == s)
    && (forall id :: id in subs ==> subs[id] in l)
  }

  /** The subscriptions of `l` that satisfy `p`, in order. */
  function Select(l: seq<Sub>, p: Sub -> bool): seq<Sub> {
    if l == [] then []
    else Select(l[..|l| - 1], p) + if p(l[|l| - 1]) then [l[|l| - 1]] else []
  }

  lemma {:induction false} SelectMember(l: seq<Sub>, p: Sub -> bool, s: Sub)
    ensures s in Select(l, p) <==> s in l && p(s)
  {
    if l != [] {
      SelectMember(l[..|l| - 1], p, s);
      assert l == l[..|l| - 1] + [l[|l| - 1]];
    }
  }

  lemma {:induction false} SelectDistinct(l: seq<Sub>, p: Sub -> bool)
    requires DistinctIds(l)
    ensures DistinctIds(Select(l, p))
  {
    if l != [] {
      var init, last := l[..|l| - 1], l[|l| - 1];
      SelectDistinct(init, p);
      forall s | s in Select(init, p) ensures s.id != last.id {
        SelectMember(init, p, s);
      }
    }
  }

  class Client {
    const callback: string
    const brokenDeletes: set<SubId>
    const answer: (string, string) -> Answer
    var subs: Subs
    var nextId: SubId
    var writes: nat

    ghost predicate Valid()
      reads this
    {
      forall id :: id in subs ==> subs[id].id == id && id < nextId
    }

    /** Every call succeeds. */
    ghost predicate Healthy() {
      brokenDeletes == {} && forall kind, broadcaster :: OK(answer(kind, broadcaster))
    }

    constructor (callback: string, brokenDeletes: set<SubId>, answer: (string, string) -> Answer, subs: Subs, nextId: SubId)
      requires forall id :: id in subs ==> subs[id].id == id && id < nextId
      ensures Valid() && this.subs == subs && this.callback == callback && writes == 0
      ensures this.brokenDeletes == brokenDeletes && this.answer == answer
    {
      this.callback, this.brokenDeletes, this.answer := callback, brokenDeletes, answer;
      this.subs, this.nextId, this.writes := subs, nextId, 0;
    }

    method List() returns (l: seq<Sub>)
      requires Valid()
      ensures Listing(subs, l)
    {
      l := [];
      var rest := subs.Keys;
      while rest != {}
        invariant rest <= subs.Keys
        invariant DistinctIds(l)
        invariant forall s :: s in l ==> s.id in subs && s.id !in rest && subs[s.id] == s
        invariant forall id :: id in subs && id !in rest ==> subs[id] in l
        decreases rest
      {
        var id :| id in rest;
        rest := rest - {id};
        l := l + [subs[id]];
      }
    }

    /** Deleting an unknown id succeeds: the call is idempotent. */
    method Delete(id: SubId) returns (ok: bool)
      requires Valid()
      modifies this`subs, this`writes
      ensures Valid() && (ok <==> id !in brokenDeletes) && writes == old(writes) + 1
      ensures subs == if ok then old(subs) - {id} else old(subs)
    {
      ok := id !in brokenDeletes;
      if ok {
        subs := subs - {id};
      }
      writes := writes + 1;
    }

    method Create(kind: string, broadcaster: string) returns (a: Answer)
      requires Valid()
      modifies this
      ensures Valid() && a == answer(kind, broadcaster) && writes == old(writes) + 1
      ensures if OK(a)
              then old(nextId) !in old(subs)
                   && subs == old(subs)[old(nextId) := Sub(old(nextId), kind, broadcaster, ENABLED, WEBHOOK, callback)]
              else subs == old(subs)
    {
      a := answer(kind, broadcaster);
      if OK(a) {
        subs := subs[nextId := Sub(nextId, kind, broadcaster, ENABLED, WEBHOOK, callback)];
        nextId := nextId + 1;
      }
      writes := writes + 1;
    }
  }
}
