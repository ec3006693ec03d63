/** The fixed-size ring of recently seen message ids. Every id it ever claimed is
    kept as a ghost history; the ring is shown to be that history's last n claims. */
module MessageIdRing {

  const DEFAULT_SIZE: nat := 8192

  datatype MessageId = MessageId(text: string)

  const EMPTY: MessageId := MessageId("")

  /** The last n claims, or all of them while there are fewer. */
  function Window(claims: seq<MessageId>, n: nat): seq<MessageId> {
    if |claims| <= n then claims else claims[|claims| - n..]
  }

  /** Two claims of one id have at least n claims of other ids between them. */
  ghost predicate FarApart(claims: seq<MessageId>, n: nat) {
    forall i, j :: 0 <= i < j < |claims| && claims[i] == claims[j] ==> j - i - 1 >= n
  }

  lemma InWindow(claims: seq<MessageId>, n: nat, i: nat)
    requires |claims| - n <= i < |claims|
    ensures claims[i] in Window(claims, n)
  {
    assert |claims| > n ==> Window(claims, n)[i - (|claims| - n)] == claims[i];
  }

  ghost predicate Distinct(ids: seq<MessageId>) {
    forall i, j :: 0 <= i < j < |ids| ==> ids[i] != ids[j]
  }

  lemma WindowDistinct(claims: seq<MessageId>, n: nat)
    requires FarApart(claims, n)
    ensures Distinct(Window(claims, n))
  {
  }

  function Ids(s: seq<MessageId>): set<MessageId> {
    set id | id in s
  }

  /** A new claim pushes the oldest one out of a full window. */
  lemma WindowSnoc(claims: seq<MessageId>, n: nat, id: MessageId)
    requires n > 0
    ensures |claims| < n ==> Window(claims + [id], n) == Window(claims, n) + [id]
    ensures |claims| >= n ==> Window(claims + [id], n) == Window(claims, n)[1..] + [id]
  {
  }

  lemma RotateIds(w: seq<MessageId>, id: MessageId)
    requires Distinct(w) && w != []
    ensures Ids(w[1..] + [id]) == Ids(w) - {w[0]} + {id}
  {
    assert w == [w[0]] + w[1..];
  }

  /** Claiming only what the window does not hold keeps repeats far apart. */
  lemma ClaimKeepsApart(claims: seq<MessageId>, n: nat, id: MessageId)
    requires FarApart(claims, n) && id !in Window(claims, n)
    ensures FarApart(claims + [id], n)
  {
    forall i | 0 <= i < |claims| && claims[i] == id ensures |claims| - i - 1 >= n {
      if |claims| - n <= i {
        InWindow(claims, n, i);
      }
    }
  }

  /** The slots, read from the next one to be overwritten, are the window. */
  ghost predicate RingOk(slots: seq<MessageId>, next: nat, full: bool, claims: seq<MessageId>) {
    && next < |slots|
    && if full then |claims| >= |slots| && Window(claims, |slots|) == slots[next..] + slots[..next]
       else |claims| == next && claims == slots[..next]
  }

  lemma RingAdvance(slots: seq<MessageId>, next: nat, full: bool, claims: seq<MessageId>, id: MessageId)
    requires RingOk(slots, next, full, claims)
    ensures RingOk(slots[next := id], if next + 1 == |slots| then 0 else next + 1, full || next + 1 == |slots|, claims + [id])
    ensures full ==> Window(claims, |slots|) != [] && Window(claims, |slots|)[0] == slots[next]
  {
    var slots' := slots[next := id];
    WindowSnoc(claims, |slots|, id);
    assert slots'[..next + 1] == slots[..next] + [id];
    if full {
      assert slots[next..] == [slots[next]] + slots[next + 1..];
      assert slots'[next + 1..] == slots[next + 1..];
    } else if next + 1 == |slots| {
      assert slots'[..next + 1] == slots';
    }
  }

  lemma Rotated(a: seq<MessageId>, b: seq<MessageId>)
    requires Distinct(a + b)
    ensures Distinct(b + a) && Ids(b + a) == Ids(a + b)
  {
    var ab, ba := a + b, b + a;
    forall i, j | 0 <= i < j < |ba| ensures ba[i] != ba[j] {
      var i', j' := if i < |b| then i + |a| else i - |b|, if j < |b| then j + |a| else j - |b|;
      assert ba[i] == ab[i'] && ba[j] == ab[j'] && i' != j';
    }
  }

  /** The slots in use hold the window's ids, each once. */
  lemma UsedSlots(slots: seq<MessageId>, next: nat, full: bool, claims: seq<MessageId>)
    requires RingOk(slots, next, full, claims) && Distinct(Window(claims, |slots|))
    ensures var used := if full then slots else slots[..next];
            Ids(used) == Ids(Window(claims, |slots|)) && Distinct(used)
  {
    if full {
      Rotated(slots[next..], slots[..next]);
      assert slots == slots[..next] + slots[next..];
    }
  }

  /** Dropping the overwritten slot's id, once full, keeps the set equal to the window. */
  lemma SetAdvance(slots: seq<MessageId>, next: nat, full: bool, claims: seq<MessageId>, id: MessageId)
    requires RingOk(slots, next, full, claims) && FarApart(claims, |slots|)
    ensures Ids(Window(claims + [id], |slots|))
         == (if full then Ids(Window(claims, |slots|)) - {slots[next]} else Ids(Window(claims, |slots|))) + {id}
  {
    var w := Window(claims, |slots|);
    WindowSnoc(claims, |slots|, id);
    if full {
      WindowDistinct(claims, |slots|);
      assert w[0] == slots[next];
      RotateIds(w, id);
    }
  }

  class Cache {
    const ids: array<MessageId>
    var claimed: set<MessageId>
    var next: nat
    var full: bool
    ghost var claims: seq<MessageId>

    ghost predicate Valid()
      reads this, ids
    {
      && RingOk(ids[..], next, full, claims)
      && claimed == Ids(Window(claims, ids.Length))
      && FarApart(claims, ids.Length)
      && EMPTY !in claims
    }

    constructor (n: int)
      ensures Valid() && claims == [] && fresh(ids)
      ensures ids.Length == if n <= 0 then 8192 else n
    {
      var size := if n <= 0 then DEFAULT_SIZE else n;
      ids := new MessageId[size](_ => EMPTY);
      claimed, next, full, claims := {}, 0, false, [];
    }

    /** The set is exactly the occupied slots, each holding a different id. */
    lemma SlotsAreClaims()
      requires Valid()
      ensures var used := if full then ids[..] else ids[..next]; claimed == Ids(used) && Distinct(used)
    {
      WindowDistinct(claims, ids.Length);
      UsedSlots(ids[..], next, full, claims);
      assert ids[..][..next] == ids[..next];
    }

    /** Puts the id into the next slot, forgetting the oldest claim once full. */
    method Claim(id: MessageId)
      requires Valid() && id != EMPTY && id !in claimed
      modifies this, ids
      ensures Valid() && claims == old(claims) + [id]
    {
      RingAdvance(ids[..], next, full, claims, id);
      SetAdvance(ids[..], next, full, claims, id);
      ClaimKeepsApart(claims, ids.Length, id);
      if full {
        claimed := claimed - {ids[next]};
      }
      ids[next] := id;
      claimed := claimed + {id};
      claims := claims + [id];
      next := next + 1;
      if next == ids.Length {
        next := 0;
        full := true;
      }
    }

    /** True exactly when the id is among the last n claims; a new one is claimed.
        An empty id is always new and never claimed. */
    method Seen(id: MessageId) returns (seen: bool)
      requires Valid()
      modifies this, ids
      ensures Valid()
      ensures seen <==> id in Window(old(claims), ids.Length)
      ensures claims == if seen || id == EMPTY then old(claims) else old(claims) + [id]
    {
      if id == EMPTY {
        assert id !in Window(claims, ids.Length);
        return false;
      }
      if id in claimed {
        return true;
      }
      Claim(id);
      seen := false;
    }
  }
}
