/** Hierarchical fuel meters (src/fuel.rs). */
module Fuel {
  import opened Values

  type MeterId = nat

  const ROOT: MeterId := 0

  /** `remaining == None` means unlimited. */
  datatype Meter = Meter(remaining: Option<u64>, parent: Option<MeterId>)

  /** The shape carving keeps: slot 0 is the root, and every other meter is
      finite and has an earlier slot as its parent. */
  ghost predicate WellFormed(ms: seq<Meter>) {
    && |ms| > 0
    && ms[0].parent.None?
    && forall i :: 0 < i < |ms| ==> ms[i].remaining.Some? && ms[i].parent.Some? && ms[i].parent.value < i
  }

  // ---------- The operations as functions on the slots ----------

  function Charged(ms: seq<Meter>, id: MeterId, spent: nat): seq<Meter>
    requires id < |ms|
  {
    match ms[id].remaining
    case None => ms
    case Some(r) => ms[id := ms[id].(remaining := Some(if spent <= r then r - spent else 0))]
  }

  function Added(ms: seq<Meter>, id: MeterId, amount: nat): seq<Meter>
    requires id < |ms|
  {
    match ms[id].remaining
    case None => ms
    case Some(r) => ms[id := ms[id].(remaining := Some(if r + amount <= U64_MAX then r + amount else U64_MAX))]
  }

  function Carved(ms: seq<Meter>, from: MeterId, amount: u64): Option<seq<Meter>>
    requires from < |ms|
  {
    var child := Meter(Some(amount), Some(from));
    match ms[from].remaining
    case None => Some(ms + [child])
    case Some(r) =>
      if r < amount then None
      else Some(ms[from := ms[from].(remaining := Some(r - amount))] + [child])
  }

  function Refunded(ms: seq<Meter>, id: MeterId): seq<Meter>
    requires id < |ms|
    requires ms[id].parent.Some? ==> ms[id].parent.value < |ms|
  {
    match ms[id].parent
    case None => ms
    case Some(p) =>
      var leftover := if ms[id].remaining.Some? then ms[id].remaining.value else 0;
      Added(ms[id := ms[id].(remaining := Some(0))], p, leftover)
  }

  lemma CarveKeepsShape(ms: seq<Meter>, from: MeterId, amount: u64)
    requires WellFormed(ms) && from < |ms| && Carved(ms, from, amount).Some?
    ensures WellFormed(Carved(ms, from, amount).value)
  {
  }

  // ---------- The sum of all remaining fuel ----------

  ghost function Left(m: Meter): nat {
    if m.remaining.Some? then m.remaining.value else 0
  }

  ghost function Total(ms: seq<Meter>): nat {
    if ms == [] then 0 else Total(ms[..|ms| - 1]) + Left(ms[|ms| - 1])
  }

  lemma {:induction false} TotalUpdate(ms: seq<Meter>, i: nat, m: Meter)
    requires i < |ms|
    ensures Total(ms[i := m]) == Total(ms) - Left(ms[i]) + Left(m)
  {
    var last := |ms| - 1;
    if i == last {
      assert ms[i := m][..last] == ms[..last];
    } else {
      assert ms[i := m][..last] == ms[..last][i := m];
      TotalUpdate(ms[..last], i, m);
    }
  }

  lemma TotalAppend(ms: seq<Meter>, m: Meter)
    ensures Total(ms + [m]) == Total(ms) + Left(m)
  {
    assert (ms + [m])[..|ms|] == ms;
  }

  lemma TotalBoundsEach(ms: seq<Meter>, i: nat)
    requires i < |ms|
    ensures Left(ms[i]) <= Total(ms)
  {
    TotalUpdate(ms, i, Meter(None, None));
  }

  ghost predicate Finite(ms: seq<Meter>) {
    forall i :: 0 <= i < |ms| ==> ms[i].remaining.Some?
  }

  /** A charge within the meter's allowance removes exactly what was spent. */
  lemma ChargeTotal(ms: seq<Meter>, id: MeterId, spent: nat)
    requires id < |ms| && ms[id].remaining.Some? && spent <= ms[id].remaining.value
    ensures Total(Charged(ms, id, spent)) == Total(ms) - spent
    ensures Finite(ms) ==> Finite(Charged(ms, id, spent))
    ensures WellFormed(ms) ==> WellFormed(Charged(ms, id, spent))
  {
    TotalUpdate(ms, id, Charged(ms, id, spent)[id]);
  }

  lemma AddTotal(ms: seq<Meter>, id: MeterId, amount: nat)
    requires id < |ms| && ms[id].remaining.Some?
    ensures Total(Added(ms, id, amount)) <= Total(ms) + amount
    ensures Total(ms) + amount <= U64_MAX ==> Total(Added(ms, id, amount)) == Total(ms) + amount
  {
    TotalUpdate(ms, id, Added(ms, id, amount)[id]);
    TotalBoundsEach(ms, id);
  }

  /** Carving moves fuel; it never creates any. */
  lemma CarveTotal(ms: seq<Meter>, from: MeterId, amount: u64)
    requires from < |ms| && Finite(ms) && Carved(ms, from, amount).Some?
    ensures Total(Carved(ms, from, amount).value) == Total(ms) && Finite(Carved(ms, from, amount).value)
  {
    var ms' := ms[from := ms[from].(remaining := Some(ms[from].remaining.value - amount))];
    TotalUpdate(ms, from, ms'[from]);
    TotalAppend(ms', Meter(Some(amount), Some(from)));
  }

  /** A refund conserves the total, unless the parent is unlimited or would
      overflow; it never raises it. */
  lemma RefundTotal(ms: seq<Meter>, id: MeterId)
    requires WellFormed(ms) && id < |ms|
    ensures Total(Refunded(ms, id)) <= Total(ms) && (Finite(ms) ==> Finite(Refunded(ms, id)))
    ensures Finite(ms) && Total(ms) <= U64_MAX ==> Total(Refunded(ms, id)) == Total(ms)
  {
    hide Total;
    if ms[id].parent.Some? {
      var p := ms[id].parent.value;
      var ms' := ms[id := ms[id].(remaining := Some(0))];
      TotalUpdate(ms, id, ms'[id]);
      if ms'[p].remaining.Some? {
        AddTotal(ms', p, Left(ms[id]));
      }
    }
  }

  // ---------- The fuel held by a meter and everything carved below it ----------

  /** `x` is `top` or was carved from it at some depth. */
  ghost predicate Below(ms: seq<Meter>, top: MeterId, x: MeterId)
    requires WellFormed(ms) && x < |ms|
    decreases x
  {
    x == top || (x > 0 && Below(ms, top, ms[x].parent.value))
  }

  /** Fuel left in the subtree of `top`, over the first `n` meters. */
  ghost function SubtreeUpTo(ms: seq<Meter>, top: MeterId, n: nat): nat
    requires WellFormed(ms) && n <= |ms|
  {
    if n == 0 then 0
    else SubtreeUpTo(ms, top, n - 1) + (if Below(ms, top, n - 1) then Left(ms[n - 1]) else 0)
  }

  ghost function Subtree(ms: seq<Meter>, top: MeterId): nat
    requires WellFormed(ms)
  {
    SubtreeUpTo(ms, top, |ms|)
  }

  ghost predicate SameParents(ms: seq<Meter>, ms': seq<Meter>) {
    |ms| <= |ms'| && forall i :: 0 <= i < |ms| ==> ms'[i].parent == ms[i].parent
  }

  lemma {:induction false} BelowFrame(ms: seq<Meter>, ms': seq<Meter>, top: MeterId, x: MeterId)
    requires WellFormed(ms) && WellFormed(ms') && SameParents(ms, ms') && x < |ms|
    ensures Below(ms', top, x) == Below(ms, top, x)
    decreases x
  {
    if x != top && x > 0 {
      BelowFrame(ms, ms', top, ms[x].parent.value);
    }
  }

  lemma {:induction false} SubtreeFrame(ms: seq<Meter>, ms': seq<Meter>, top: MeterId, n: nat)
    requires WellFormed(ms) && WellFormed(ms') && SameParents(ms, ms') && n <= |ms|
    requires forall i :: 0 <= i < n ==> Left(ms'[i]) == Left(ms[i])
    ensures SubtreeUpTo(ms', top, n) == SubtreeUpTo(ms, top, n)
  {
    if n > 0 {
      SubtreeFrame(ms, ms', top, n - 1);
      BelowFrame(ms, ms', top, n - 1);
    }
  }

  /** Changing one meter's fuel changes the subtree by that much, if the meter
      lies in it. */
  lemma {:induction false} SubtreeUpdate(ms: seq<Meter>, top: MeterId, i: nat, r: Option<u64>, n: nat)
    requires WellFormed(ms) && i < n <= |ms| && (i > 0 ==> r.Some?)
    ensures var ms' := ms[i := ms[i].(remaining := r)];
            WellFormed(ms') &&
            SubtreeUpTo(ms', top, n) ==
              SubtreeUpTo(ms, top, n) + (if Below(ms, top, i) then Left(ms'[i]) - Left(ms[i]) else 0)
  {
    var ms' := ms[i := ms[i].(remaining := r)];
    BelowFrame(ms, ms', top, n - 1);
    if i == n - 1 {
      SubtreeFrame(ms, ms', top, n - 1);
    } else {
      SubtreeUpdate(ms, top, i, r, n - 1);
    }
  }

  lemma ChargeSubtree(ms: seq<Meter>, top: MeterId, id: MeterId, spent: nat)
    requires WellFormed(ms) && 0 < top < |ms| && id < |ms|
    requires ms[id].remaining.Some? ==> spent <= ms[id].remaining.value
    ensures WellFormed(Charged(ms, id, spent))
    ensures Subtree(Charged(ms, id, spent), top) + (if Below(ms, top, id) then spent else 0) == Subtree(ms, top)
  {
    RootNotBelow(ms, top);
    SubtreeUpdate(ms, top, id, Charged(ms, id, spent)[id].remaining, |ms|);
  }

  lemma RootNotBelow(ms: seq<Meter>, top: MeterId)
    requires WellFormed(ms) && 0 < top
    ensures !Below(ms, top, 0)
  {
  }

  /** Topping up one meter gives its subtree at most the amount added. */
  lemma AddSubtree(ms: seq<Meter>, top: MeterId, id: MeterId, amount: nat)
    requires WellFormed(ms) && 0 < top < |ms| && id < |ms|
    ensures WellFormed(Added(ms, id, amount)) && SameParents(ms, Added(ms, id, amount))
    ensures Subtree(Added(ms, id, amount), top) <= Subtree(ms, top) + (if Below(ms, top, id) then amount else 0)
  {
    SubtreeUpdate(ms, top, id, Added(ms, id, amount)[id].remaining, |ms|);
  }

  lemma CarveSubtree(ms: seq<Meter>, top: MeterId, from: MeterId, amount: u64)
    requires WellFormed(ms) && 0 < top < |ms| && from < |ms| && Carved(ms, from, amount).Some?
    ensures WellFormed(Carved(ms, from, amount).value)
    ensures Subtree(Carved(ms, from, amount).value, top) == Subtree(ms, top)
  {
    RootNotBelow(ms, top);
    var out := Carved(ms, from, amount).value;
    var ms' := out[..|ms|];
    assert ms' == ms[from := out[from]] && out == ms' + [Meter(Some(amount), Some(from))];
    SubtreeUpdate(ms, top, from, out[from].remaining, |ms|);
    SubtreeFrame(ms', out, top, |ms|);
    BelowFrame(ms, out, top, from);
  }

  /** A refund moves fuel within the subtree or out of it, never into it. */
  lemma RefundSubtree(ms: seq<Meter>, top: MeterId, id: MeterId)
    requires WellFormed(ms) && 0 < top < |ms| && id < |ms|
    ensures WellFormed(Refunded(ms, id))
    ensures Subtree(Refunded(ms, id), top) <= Subtree(ms, top)
  {
    if ms[id].parent.Some? {
      var p := ms[id].parent.value;
      var ms' := ms[id := ms[id].(remaining := Some(0))];
      SubtreeUpdate(ms, top, id, Some(0), |ms|);
      AddSubtree(ms', top, p, Left(ms[id]));
      BelowFrame(ms, ms', top, p);
    }
  }

  /** The meter arena of a runtime. */
  class Meters {
    var slots: seq<Meter>

    constructor (budget: Option<u64>)
      ensures slots == [Meter(budget, None)]
    {
      slots := [Meter(budget, None)];
    }

    method Charge(id: MeterId, spent: nat)
      requires id < |slots|
      modifies this
      ensures slots == Charged(old(slots), id, spent)
    {
      if slots[id].remaining.Some? {
        var rem := slots[id].remaining.value;
        slots := slots[id := slots[id].(remaining := Some(if spent <= rem then rem - spent else 0))];
      }
    }

    method Add(id: MeterId, amount: nat)
      requires id < |slots|
      modifies this
      ensures slots == Added(old(slots), id, amount)
    {
      if slots[id].remaining.Some? {
        var rem := slots[id].remaining.value;
        slots := slots[id := slots[id].(remaining := Some(if rem + amount <= U64_MAX then rem + amount else U64_MAX))];
      }
    }

    method Carve(from: MeterId, amount: u64) returns (child: Option<MeterId>)
      requires from < |slots|
      modifies this
      ensures child.Some? <==> Carved(old(slots), from, amount).Some?
      ensures child.Some? ==> child.value == |old(slots)| && slots == Carved(old(slots), from, amount).value
      ensures child.None? ==> slots == old(slots)
    {
      if slots[from].remaining.Some? {
        var rem := slots[from].remaining.value;
        if rem < amount {
          return None;
        }
        slots := slots[from := slots[from].(remaining := Some(rem - amount))];
      }
      child := Some(|slots|);
      slots := slots + [Meter(Some(amount), Some(from))];
    }

    method RefundIntoParent(id: MeterId)
      requires id < |slots|
      requires slots[id].parent.Some? ==> slots[id].parent.value < |slots|
      modifies this
      ensures slots == Refunded(old(slots), id)
    {
      if slots[id].parent.None? {
        return;
      }
      var parent := slots[id].parent.value;
      var leftover := if slots[id].remaining.Some? then slots[id].remaining.value else 0;
      slots := slots[id := slots[id].(remaining := Some(0))];
      Add(parent, leftover);
    }
  }
}
