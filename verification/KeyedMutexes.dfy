/** Mutexes addressed by key. Each method below is one atomic section of locking a key
    or of the release function that locking returns, so keeping `Valid` method by
    method is keeping it over every interleaving of callers. */
module KeyedMutexes {
  import opened Basics

  type CallerId = nat

  datatype Phase = Waiting | Holding | Releasing

  /** A caller between entering Lock and finishing its release. */
  datatype Caller = Caller(key: string, lock: RefLock, phase: Phase)

  class RefLock {
    var held: bool
    var refs: nat
    ghost var holder: Option<CallerId>

    constructor ()
      ensures !held && refs == 0 && holder == None
    {
      held, refs, holder := false, 0, None;
    }
  }

  ghost function CallersOn(callers: map<CallerId, Caller>, key: string): set<CallerId> {
    set c | c in callers && callers[c].key == key
  }

  /** Only callers of this key differ. */
  ghost predicate MovedOn(before: map<CallerId, Caller>, after: map<CallerId, Caller>, key: string) {
    && (forall c :: c in before && before[c].key != key ==> c in after && after[c] == before[c])
    && (forall c :: c in after && after[c].key != key ==> c in before && after[c] == before[c])
  }

  lemma CallerSet(before: map<CallerId, Caller>, c: CallerId, caller: Caller)
    requires c in before ==> before[c].key == caller.key
    ensures MovedOn(before, before[c := caller], caller.key)
    ensures CallersOn(before[c := caller], caller.key) == CallersOn(before, caller.key) + {c}
    ensures c !in before ==> |CallersOn(before[c := caller], caller.key)| == |CallersOn(before, caller.key)| + 1
    ensures c in before ==> CallersOn(before[c := caller], caller.key) == CallersOn(before, caller.key)
  {
    assert CallersOn(before[c := caller], caller.key) == CallersOn(before, caller.key) + {c};
  }

  lemma CallerGone(before: map<CallerId, Caller>, c: CallerId, key: string)
    requires c in before && before[c].key == key
    ensures MovedOn(before, before - {c}, key)
    ensures CallersOn(before - {c}, key) == CallersOn(before, key) - {c}
    ensures |CallersOn(before - {c}, key)| == |CallersOn(before, key)| - 1
    ensures CallersOn(before - {c}, key) == {} ==> forall d :: d in before - {c} ==> (before - {c})[d].key != key
  {
    var after := before - {c};
    assert CallersOn(after, key) == CallersOn(before, key) - {c};
    forall d | d in after && CallersOn(after, key) == {} ensures after[d].key != key {
      assert d !in CallersOn(after, key);
    }
  }

  /** The entry counts its callers, is held exactly by the one holding it, and is
      the lock all of them got. */
  ghost predicate EntryOk(callers: map<CallerId, Caller>, key: string, rl: RefLock)
    reads rl
  {
    var on := CallersOn(callers, key);
    && rl.refs == |on| && on != {}
    && (rl.held <==> rl.holder.Some?)
    && (rl.holder.Some? ==> rl.holder.value in on)
    && forall c :: c in on ==> callers[c].lock == rl && (callers[c].phase == Holding <==> rl.holder == Some(c))
  }

  /** An entry about to be given one more caller: counted already, not yet known. */
  ghost predicate CountsOneMore(callers: map<CallerId, Caller>, key: string, rl: RefLock)
    reads rl
  {
    var on := CallersOn(callers, key);
    && rl.refs == |on| + 1 && (rl.held <==> rl.holder.Some?) && (rl.holder.Some? ==> rl.holder.value in on)
    && forall c :: c in on ==> callers[c].lock == rl && (callers[c].phase == Holding <==> rl.holder == Some(c))
  }

  lemma Joined(before: map<CallerId, Caller>, c: CallerId, key: string, rl: RefLock)
    requires c !in before && CountsOneMore(before, key, rl)
    ensures EntryOk(before[c := Caller(key, rl, Waiting)], key, rl)
    ensures MovedOn(before, before[c := Caller(key, rl, Waiting)], key)
  {
    CallerSet(before, c, Caller(key, rl, Waiting));
  }

  /** A caller of an entry nobody else holds takes or gives up its mutex. */
  lemma HolderSet(before: map<CallerId, Caller>, c: CallerId, phase: Phase, rl: RefLock)
    requires c in before && rl.held == (phase == Holding) && rl.holder == if phase == Holding then Some(c) else None
    requires var on := CallersOn(before, before[c].key);
             rl.refs == |on| && forall d :: d in on ==> before[d].lock == rl && (d != c ==> before[d].phase != Holding)
    ensures var after := before[c := before[c].(phase := phase)];
            EntryOk(after, before[c].key, rl) && MovedOn(before, after, before[c].key)
  {
    CallerSet(before, c, before[c].(phase := phase));
    assert c in CallersOn(before, before[c].key);
  }

  class KeyedMutex {
    var locks: map<string, RefLock>
    ghost var callers: map<CallerId, Caller>

    ghost predicate Distinct()
      reads this
    {
      forall j, k :: j in locks && k in locks && j != k ==> locks[j] != locks[k]
    }

    ghost predicate Valid()
      reads this, locks.Values
    {
      && Distinct()
      && (forall key :: key in locks ==> EntryOk(callers, key, locks[key]))
      && (forall c :: c in callers ==> callers[c].key in locks)
    }

    /** Moving callers of one key leaves the entries of the others in order. */
    lemma OtherKeys(before: map<CallerId, Caller>, key: string)
      requires forall k :: k in locks && k != key ==> EntryOk(before, k, locks[k])
      requires MovedOn(before, callers, key)
      ensures forall k :: k in locks && k != key ==> EntryOk(callers, k, locks[k])
    {
      forall k | k in locks && k != key ensures EntryOk(callers, k, locks[k]) {
        assert CallersOn(callers, k) == CallersOn(before, k);
      }
    }

    constructor ()
      ensures Valid() && locks == map[] && callers == map[]
    {
      locks, callers := map[], map[];
    }

    method FindAndCount(key: string) returns (rl: RefLock)
      requires Valid()
      modifies this`locks, if key in locks then {locks[key]} else {}
      ensures locks == old(locks)[key := rl] && Distinct() && CountsOneMore(callers, key, rl)
      ensures forall k :: k in locks && k != key ==> EntryOk(callers, k, locks[k])
      ensures key in old(locks) ==> rl == old(locks[key])
      ensures key !in old(locks) ==> fresh(rl)
    {
      if key in locks {
        rl := locks[key];
        assert EntryOk(callers, key, rl);
      } else {
        rl := new RefLock();
        locks := locks[key := rl];
      }
      rl.refs := rl.refs + 1;
    }

    /** The section of Lock that finds or creates the entry and counts the caller. */
    method Enter(ghost c: CallerId, key: string) returns (rl: RefLock)
      requires Valid() && c !in callers
      modifies this, if key in locks then {locks[key]} else {}
      ensures Valid()
      ensures callers == old(callers)[c := Caller(key, rl, Waiting)]
      ensures locks == old(locks)[key := rl]
      ensures key in old(locks) ==> rl == old(locks[key])
      ensures key !in old(locks) ==> fresh(rl)
    {
      ghost var before := callers;
      rl := FindAndCount(key);
      callers := callers[c := Caller(key, rl, Waiting)];
      Joined(before, c, key, rl);
      OtherKeys(before, key);
    }

    /** Acquiring the entry's own mutex, which blocks while it is held. */
    method Acquire(ghost c: CallerId, rl: RefLock)
      requires Valid() && c in callers && callers[c].phase == Waiting && callers[c].lock == rl && !rl.held
      modifies this`callers, rl
      ensures Valid() && locks == old(locks) && rl.held
      ensures callers == old(callers)[c := old(callers)[c].(phase := Holding)]
    {
      ghost var before, key := callers, callers[c].key;
      assert EntryOk(before, key, rl);
      rl.held := true;
      rl.holder := Some(c);
      callers := callers[c := callers[c].(phase := Holding)];
      HolderSet(before, c, Holding, rl);
      OtherKeys(before, key);
    }

    /** The release function first frees the entry's mutex ... */
    method Release(ghost c: CallerId, rl: RefLock)
      requires Valid() && c in callers && callers[c].phase == Holding && callers[c].lock == rl
      modifies this`callers, rl
      ensures Valid() && locks == old(locks) && !rl.held
      ensures callers == old(callers)[c := old(callers)[c].(phase := Releasing)]
    {
      ghost var before, key := callers, callers[c].key;
      assert EntryOk(before, key, rl);
      rl.held := false;
      rl.holder := None;
      callers := callers[c := callers[c].(phase := Releasing)];
      HolderSet(before, c, Releasing, rl);
      OtherKeys(before, key);
    }

    /** ... and then uncounts the caller, dropping the entry when nobody is left. */
    method Leave(ghost c: CallerId, rl: RefLock, key: string)
      requires Valid() && c in callers && callers[c] == Caller(key, rl, Releasing)
      modifies this, rl
      ensures Valid()
      ensures callers == old(callers) - {c}
      ensures locks == if CallersOn(callers, key) != {} then old(locks) else old(locks) - {key}
    {
      ghost var before := callers;
      assert EntryOk(before, key, rl);
      rl.refs := rl.refs - 1;
      callers := callers - {c};
      CallerGone(before, c, key);
      if rl.refs == 0 {
        locks := locks - {key};
      } else {
        assert EntryOk(callers, key, rl);
      }
      OtherKeys(before, key);
    }

    /** What every reachable state guarantees: one holder per key, one shared entry
        per key counting exactly its waiting, holding and releasing callers, and an
        entry in the map precisely while there is one. */
    lemma Guarantees(key: string, c: CallerId, d: CallerId)
      requires Valid()
      ensures key in locks <==> CallersOn(callers, key) != {}
      ensures key in locks ==> locks[key].refs == |CallersOn(callers, key)|
      ensures c in CallersOn(callers, key) && d in CallersOn(callers, key) ==>
                callers[c].lock == callers[d].lock == locks[key]
                && (callers[c].phase == Holding && callers[d].phase == Holding ==> c == d)
    {
      assert key in locks ==> EntryOk(callers, key, locks[key]);
    }
  }
}
