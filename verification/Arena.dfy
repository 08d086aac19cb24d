/** The growable arena (src/arena.rs): slots, a free list popped from the end,
    and transient marks. */
module ArenaObject {
  import opened Values
  import opened Boundary

  /** The unmarked indices below `n`, in increasing order. */
  function Unmarked(marks: seq<bool>, n: nat): seq<nat>
    requires n <= |marks|
  {
    if n == 0 then [] else Unmarked(marks, n - 1) + (if marks[n - 1] then [] else [n - 1])
  }

  lemma {:induction false} UnmarkedIsComplement(marks: seq<bool>, n: nat)
    requires n <= |marks|
    ensures forall i: nat :: i in Unmarked(marks, n) <==> (i < n && !marks[i])
    ensures forall i, j :: 0 <= i < j < |Unmarked(marks, n)| ==> Unmarked(marks, n)[i] < Unmarked(marks, n)[j]
  {
    if n > 0 {
      UnmarkedIsComplement(marks, n - 1);
      var front := Unmarked(marks, n - 1);
      forall i | 0 <= i < |front| ensures front[i] < n - 1 { assert front[i] in front; }
    }
  }

  class Arena<T> {
    var data: seq<T>
    var freeList: seq<nat>
    var marks: seq<bool>
    var allocations: nat

    ghost predicate Valid()
      reads this
    {
      |marks| == |data| && Clean(Abs())
    }

    ghost function Abs(): Slab<T>
      reads this
    {
      Slab(data, freeList, allocations)
    }

    /** from_parts: marks are transient and start cleared. */
    constructor (a: Slab<T>)
      requires Clean(a)
      ensures Valid() && Abs() == a && AllClear()
    {
      data, freeList, allocations := a.data, a.free, a.allocations;
      marks := seq(|a.data|, i => false);
    }

    ghost predicate AllClear()
      reads this
    {
      forall i :: 0 <= i < |marks| ==> !marks[i]
    }

    method Allocate(value: T) returns (id: nat)
      requires Valid()
      modifies this
      ensures Valid() && (Abs(), id) == Alloc(old(Abs()), value)
      ensures id < |marks| && !marks[id]
      ensures forall i :: 0 <= i < |old(marks)| && i != id ==> marks[i] == old(marks[i])
    {
      AllocGrows(Abs(), value);
      allocations := allocations + 1;
      if |freeList| > 0 {
        id := freeList[|freeList| - 1];
        freeList := freeList[..|freeList| - 1];
        data := data[id := value];
        marks := marks[id := false];
      } else {
        id := |data|;
        data := data + [value];
        marks := marks + [false];
      }
    }

    /** Take a slot's value, leaving the default behind. */
    method Take(id: nat, default: T) returns (r: Option<T>)
      requires Valid()
      modifies this`data
      ensures Valid()
      ensures id < |old(data)| ==> r == Some(old(data)[id]) && data == old(data)[id := default]
      ensures id >= |old(data)| ==> r == None && data == old(data)
    {
      if id >= |data| {
        return None;
      }
      r := Some(data[id]);
      data := data[id := default];
    }

    method Mark(id: nat)
      requires Valid()
      modifies this`marks
      ensures Valid()
      ensures marks == if id < |old(marks)| then old(marks)[id := true] else old(marks)
    {
      if id < |marks| {
        marks := marks[id := true];
      }
    }

    /** The free list becomes the unmarked slots; all marks are clear again. */
    method Sweep()
      requires Valid()
      modifies this
      ensures Valid() && AllClear() && data == old(data) && allocations == old(allocations)
      ensures freeList == Unmarked(old(marks), |old(marks)|)
    {
      freeList := [];
      for i := 0 to |marks|
        invariant |marks| == |old(marks)| && data == old(data) && allocations == old(allocations)
        invariant freeList == Unmarked(old(marks), i)
        invariant forall j :: 0 <= j < |marks| ==> marks[j] == if j < i then false else old(marks)[j]
      {
        if !marks[i] {
          freeList := freeList + [i];
        }
        marks := marks[i := false];
      }
      UnmarkedIsComplement(old(marks), |old(marks)|);
      forall k | 0 <= k < |freeList| ensures freeList[k] < |data| { assert freeList[k] in freeList; }
    }
  }
}
