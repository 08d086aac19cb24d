/** The host boundary (src/host.rs): deep conversion out of the object arena
    with a visiting set, and materialisation back into it. */
module Boundary {
  import opened Values
  import opened KeyOrder

  /** The values directly inside a container. */
  function Width(hv: HostValue): nat {
    match hv
    case HArray(items) => |items|
    case HObject(pairs) => |pairs|
    case _ => 0
  }

  function Child(hv: HostValue, i: nat): (c: HostValue)
    requires i < Width(hv)
    ensures c < hv
  {
    if hv.HArray? then hv.items[i] else hv.pairs[i].1
  }

  function Deepest(hv: HostValue, n: nat): nat
    requires n <= Width(hv)
    decreases hv, n
  {
    if n == 0 then 0
    else
      var m := Deepest(hv, n - 1);
      var h := Height(Child(hv, n - 1));
      if m < h then h else m
  }

  /** The nesting height: 0 for a scalar or an empty container. */
  function Height(hv: HostValue): nat
    decreases hv, Width(hv) + 1
  {
    if Width(hv) == 0 then 0 else 1 + Deepest(hv, Width(hv))
  }

  lemma {:induction false} DeepestBounds(hv: HostValue, n: nat, i: nat)
    requires i < n <= Width(hv)
    ensures Height(Child(hv, i)) <= Deepest(hv, n)
  {
    if i < n - 1 { DeepestBounds(hv, n - 1, i); }
  }

  lemma ChildIsLower(hv: HostValue, i: nat)
    requires i < Width(hv)
    ensures Height(Child(hv, i)) < Height(hv)
  {
    DeepestBounds(hv, Width(hv), i);
  }

  ghost predicate IsRef(v: JSValue) {
    v.Object? || v.Array?
  }

  /** How a value without an object behind it crosses; code does not. */
  function ScalarOut(v: JSValue): Option<HostValue> {
    match v
    case Undefined => Some(HUndefined)
    case Null => Some(HNull)
    case Bool(b) => Some(HBool(b))
    case Int(n) => Some(HInt(n))
    case Float(bits) => Some(HFloat(bits))
    case String(s) => Some(HStr(s))
    case _ => None
  }

  /** `hv` has the outline of the object behind `v`: arrays keep their length,
      ordinary objects become key-sorted pairs, code has no outline. */
  ghost predicate Outline(objs: seq<Obj>, v: JSValue, hv: HostValue) {
    && IsRef(v) && v.obj < |objs|
    && match objs[v.obj].kind
       case ArrayData(els) => hv.HArray? && |hv.items| == |els|
       case Ordinary => hv.HObject? && Sorted(hv.pairs) && Keys(hv.pairs) == objs[v.obj].properties.Keys
       case _ => false
  }

  /** The machine value behind the `i`-th child. */
  ghost function ChildValue(objs: seq<Obj>, v: JSValue, hv: HostValue, i: nat): JSValue
    requires Outline(objs, v, hv) && i < Width(hv)
  {
    if hv.HArray? then objs[v.obj].kind.elements[i]
    else
      assert hv.pairs[i].0 in Keys(hv.pairs);
      objs[v.obj].properties[hv.pairs[i].0]
  }

  /** `hv` is the tree unfolding of `v`, and visits no id in `avoid`. */
  ghost predicate Unfolds(objs: seq<Obj>, v: JSValue, hv: HostValue, avoid: set<ObjId>)
    decreases hv
  {
    if IsRef(v) then
      && v.obj !in avoid && Outline(objs, v, hv)
      && forall i :: 0 <= i < Width(hv) ==> Unfolds(objs, ChildValue(objs, v, hv, i), Child(hv, i), avoid)
    else
      ScalarOut(v) == Some(hv)
  }

  // ---------- Unfoldings are unique and never revisit an id ----------

  lemma {:induction false} UnfoldingUnique(objs: seq<Obj>, v: JSValue, h1: HostValue, a1: set<ObjId>,
                                           h2: HostValue, a2: set<ObjId>)
    requires Unfolds(objs, v, h1, a1) && Unfolds(objs, v, h2, a2)
    ensures h1 == h2
    decreases h1, 1
  {
    if IsRef(v) {
      if h1.HArray? {
        forall i | 0 <= i < |h1.items| ensures h1.items[i] == h2.items[i] {
          assert Unfolds(objs, ChildValue(objs, v, h2, i), Child(h2, i), a2);
          UnfoldingUnique(objs, ChildValue(objs, v, h1, i), Child(h1, i), a1, Child(h2, i), a2);
        }
      } else {
        SamePairs(objs, v, h1, a1, h2, a2);
        SortedUnique(h1.pairs, h2.pairs);
      }
    }
  }

  lemma {:induction false} SamePairs(objs: seq<Obj>, v: JSValue, h1: HostValue, a1: set<ObjId>,
                                     h2: HostValue, a2: set<ObjId>)
    requires IsRef(v) && Unfolds(objs, v, h1, a1) && Unfolds(objs, v, h2, a2) && h1.HObject?
    ensures forall p :: p in h1.pairs <==> p in h2.pairs
    decreases h1, 0
  {
    forall i, j | 0 <= i < |h1.pairs| && 0 <= j < |h2.pairs| && h1.pairs[i].0 == h2.pairs[j].0
      ensures h1.pairs[i] == h2.pairs[j]
    {
      assert Unfolds(objs, ChildValue(objs, v, h2, j), Child(h2, j), a2);
      assert Unfolds(objs, ChildValue(objs, v, h1, i), Child(h1, i), a1);
      UnfoldingUnique(objs, ChildValue(objs, v, h1, i), Child(h1, i), a1, Child(h2, j), a2);
    }
    forall i | 0 <= i < |h1.pairs| ensures h1.pairs[i] in h2.pairs {
      assert h1.pairs[i].0 in Keys(h1.pairs);
      var j :| 0 <= j < |h2.pairs| && h2.pairs[j].0 == h1.pairs[i].0;
    }
    forall j | 0 <= j < |h2.pairs| ensures h2.pairs[j] in h1.pairs {
      assert h2.pairs[j].0 in Keys(h2.pairs);
      var i :| 0 <= i < |h1.pairs| && h1.pairs[i].0 == h2.pairs[j].0;
    }
  }

  /** An unfolding lower than `id`'s own never passes through `id`. */
  lemma {:induction false} AvoidsTaller(objs: seq<Obj>, v: JSValue, hv: HostValue, avoid: set<ObjId>,
                                        id: ObjId, big: HostValue)
    requires Unfolds(objs, v, hv, avoid)
    requires Unfolds(objs, JSValue.Object(id), big, {}) && Height(hv) < Height(big)
    ensures Unfolds(objs, v, hv, avoid + {id})
    decreases hv
  {
    if IsRef(v) {
      if v.obj == id {
        SameIdSameUnfolding(objs, v, hv, avoid);
        UnfoldingUnique(objs, JSValue.Object(id), hv, avoid, big, {});
      }
      forall i | 0 <= i < Width(hv)
        ensures Unfolds(objs, ChildValue(objs, v, hv, i), Child(hv, i), avoid + {id})
      {
        ChildIsLower(hv, i);
        AvoidsTaller(objs, ChildValue(objs, v, hv, i), Child(hv, i), avoid, id, big);
      }
    }
  }

  /** The conversion follows the id: array and object references to one id
      unfold alike. */
  lemma SameIdSameUnfolding(objs: seq<Obj>, v: JSValue, hv: HostValue, avoid: set<ObjId>)
    requires IsRef(v) && Unfolds(objs, v, hv, avoid)
    ensures Unfolds(objs, JSValue.Object(v.obj), hv, avoid)
  {
    var o := JSValue.Object(v.obj);
    forall i | 0 <= i < Width(hv) ensures Unfolds(objs, ChildValue(objs, o, hv, i), Child(hv, i), avoid) {
      assert ChildValue(objs, o, hv, i) == ChildValue(objs, v, hv, i);
    }
  }

  /** A smaller set is easier to avoid. */
  lemma {:induction false} AvoidsFewer(objs: seq<Obj>, v: JSValue, hv: HostValue, a: set<ObjId>, b: set<ObjId>)
    requires Unfolds(objs, v, hv, a) && b <= a
    ensures Unfolds(objs, v, hv, b)
    decreases hv
  {
    if IsRef(v) {
      forall i | 0 <= i < Width(hv) ensures Unfolds(objs, ChildValue(objs, v, hv, i), Child(hv, i), b) {
        AvoidsFewer(objs, ChildValue(objs, v, hv, i), Child(hv, i), a, b);
      }
    }
  }

  /** Children of an unfolding avoid the node they hang from. */
  lemma ChildAvoidsParent(objs: seq<Obj>, v: JSValue, hv: HostValue, avoid: set<ObjId>, i: nat)
    requires IsRef(v) && Unfolds(objs, v, hv, avoid) && i < Width(hv)
    ensures Unfolds(objs, ChildValue(objs, v, hv, i), Child(hv, i), avoid + {v.obj})
  {
    ChildIsLower(hv, i);
    SameIdSameUnfolding(objs, v, hv, avoid);
    AvoidsFewer(objs, JSValue.Object(v.obj), hv, avoid, {});
    AvoidsTaller(objs, ChildValue(objs, v, hv, i), Child(hv, i), avoid, v.obj, hv);
  }

  ghost predicate Crosses(objs: seq<Obj>, v: JSValue, avoid: set<ObjId>) {
    exists hv :: Unfolds(objs, v, hv, avoid)
  }

  /** Every child of the object behind `id`. */
  ghost function Children(o: Obj): set<JSValue> {
    match o.kind
    case ArrayData(els) => set x | x in els
    case Ordinary => o.properties.Values
    case _ => {}
  }

  lemma ChildIndex(objs: seq<Obj>, v: JSValue, hv: HostValue, c: JSValue) returns (i: nat)
    requires Outline(objs, v, hv) && c in Children(objs[v.obj])
    ensures i < Width(hv) && ChildValue(objs, v, hv, i) == c
  {
    if hv.HArray? {
      i :| 0 <= i < Width(hv) && objs[v.obj].kind.elements[i] == c;
    } else {
      var k :| k in objs[v.obj].properties && objs[v.obj].properties[k] == c;
      assert k in Keys(hv.pairs);
      i :| 0 <= i < |hv.pairs| && hv.pairs[i].0 == k;
    }
  }

  /** If a child cannot cross, neither can its parent. */
  lemma StuckChildSticks(objs: seq<Obj>, v: JSValue, c: JSValue, outer: set<ObjId>)
    requires IsRef(v) && v.obj < |objs| && c in Children(objs[v.obj])
    requires !Crosses(objs, c, outer + {v.obj})
    ensures !Crosses(objs, v, outer)
  {
    forall hv | Outline(objs, v, hv) ensures !Unfolds(objs, v, hv, outer) {
      var i := ChildIndex(objs, v, hv, c);
      if Unfolds(objs, v, hv, outer) {
        ChildAvoidsParent(objs, v, hv, outer, i);
      }
    }
  }

  /** What crosses to the host: the tree unfolding, when there is one. */
  ghost function ToHost(objs: seq<Obj>, v: JSValue): (r: Option<HostValue>)
    ensures r.Some? <==> Crosses(objs, v, {})
    ensures r.Some? ==> Unfolds(objs, v, r.value, {})
  {
    if Crosses(objs, v, {}) then
      var hv :| Unfolds(objs, v, hv, {});
      Some(hv)
    else None
  }

  ghost predicate EachUnfolds(
      objects: seq<Obj>, props: map<Str, JSValue>, pairs: seq<(Str, HostValue)>, avoid: set<ObjId>) {
    forall i :: 0 <= i < |pairs| ==>
      pairs[i].0 in props && Unfolds(objects, props[pairs[i].0], pairs[i].1, avoid)
  }

  lemma SortedUnfolds(objects: seq<Obj>, v: JSValue, props: map<Str, JSValue>, pairs: seq<(Str, HostValue)>,
                      avoid: set<ObjId>, outer: set<ObjId>)
    requires IsRef(v) && v.obj < |objects| && v.obj !in outer && outer <= avoid
    requires objects[v.obj].kind == Ordinary && objects[v.obj].properties == props
    requires Keys(pairs) == props.Keys && DistinctKeys(pairs) && EachUnfolds(objects, props, pairs, avoid)
    ensures Unfolds(objects, v, HObject(Sort(pairs)), outer)
  {
    var hv := HObject(Sort(pairs));
    SortSorts(pairs);
    KeysSurviveSort(pairs);
    forall j | 0 <= j < |hv.pairs|
      ensures Unfolds(objects, ChildValue(objects, v, hv, j), Child(hv, j), outer)
    {
      SortKeepsPairs(pairs, hv.pairs[j]);
      AvoidsFewer(objects, props[hv.pairs[j].0], hv.pairs[j].1, avoid, outer);
    }
  }

  /** The recursive conversion, with the set of ids on the current path. */
  class Converter {
    const objects: seq<Obj>
    var visiting: set<ObjId>

    constructor (objects: seq<Obj>)
      ensures this.objects == objects && visiting == {}
    {
      this.objects := objects;
      visiting := {};
    }

    ghost predicate OnPath(v: JSValue, outer: set<ObjId>)
      reads this
    {
      IsRef(v) && v.obj < |objects| && v.obj !in outer && visiting == outer + {v.obj}
    }

    ghost function Unvisited(): set<ObjId>
      reads this
    {
      AllIds(|objects|) - visiting
    }

    method ConvertOut(v: JSValue) returns (r: Option<HostValue>)
      modifies this
      ensures r.Some? <==> Crosses(objects, v, old(visiting))
      ensures r.Some? ==> Unfolds(objects, v, r.value, old(visiting)) && visiting == old(visiting)
      decreases Unvisited(), 0
    {
      match v {
        case Undefined => r := Some(HUndefined);
        case Null => r := Some(HNull);
        case Bool(b) => r := Some(HBool(b));
        case Int(n) => r := Some(HInt(n));
        case Float(bits) => r := Some(HFloat(bits));
        case String(s) => r := Some(HStr(s));
        case Function(_) => r := None;
        case Handler(_) => r := None;
        case Continuation(_, _) => r := None;
        case _ =>
          if v.obj in visiting || v.obj >= |objects| {
            return None;
          }
          visiting := visiting + {v.obj};
          assert v.obj in AllIds(|objects|);
          match objects[v.obj].kind {
            case ArrayData(els) => r := ConvertElements(v, els, old(visiting));
            case Ordinary => r := ConvertProperties(v, objects[v.obj].properties, old(visiting));
            case _ => r := None;
          }
          visiting := visiting - {v.obj};
          return;
      }
      assert r.Some? ==> Unfolds(objects, v, r.value, visiting);
    }

    method ConvertElements(v: JSValue, els: seq<JSValue>, ghost outer: set<ObjId>) returns (r: Option<HostValue>)
      requires OnPath(v, outer) && objects[v.obj].kind == ArrayData(els)
      modifies this
      ensures r.Some? <==> Crosses(objects, v, outer)
      ensures r.Some? ==> Unfolds(objects, v, r.value, outer) && visiting == old(visiting)
      decreases Unvisited(), 1
    {
      var items := [];
      for i := 0 to |els|
        invariant |items| == i && visiting == old(visiting)
        invariant forall j :: 0 <= j < i ==> Unfolds(objects, els[j], items[j], visiting)
      {
        var item := ConvertOut(els[i]);
        if item.None? {
          StuckChildSticks(objects, v, els[i], outer);
          return None;
        }
        items := items + [item.value];
      }
      r := Some(HArray(items));
      forall j | 0 <= j < |els|
        ensures Unfolds(objects, ChildValue(objects, v, r.value, j), Child(r.value, j), outer)
      {
        AvoidsFewer(objects, els[j], items[j], visiting, outer);
      }
      assert Unfolds(objects, v, r.value, outer);
    }

    /** Properties come in no particular order; sorting the pairs by key makes
        the result independent of it. */
    method ConvertProperties(v: JSValue, props: map<Str, JSValue>, ghost outer: set<ObjId>)
      returns (r: Option<HostValue>)
      requires OnPath(v, outer) && objects[v.obj].kind == Ordinary && objects[v.obj].properties == props
      modifies this
      ensures r.Some? <==> Crosses(objects, v, outer)
      ensures r.Some? ==> Unfolds(objects, v, r.value, outer) && visiting == old(visiting)
      decreases Unvisited(), 1
    {
      var pairs: seq<(Str, HostValue)> := [];
      var todo := props.Keys;
      while todo != {}
        invariant visiting == old(visiting) && todo <= props.Keys
        invariant Keys(pairs) == props.Keys - todo && DistinctKeys(pairs)
        invariant EachUnfolds(objects, props, pairs, visiting)
        decreases todo
      {
        var key :| key in todo;
        var value := ConvertOut(props[key]);
        if value.None? {
          StuckChildSticks(objects, v, props[key], outer);
          return None;
        }
        KeysAppend(pairs, key, value.value);
        pairs := pairs + [(key, value.value)];
        todo := todo - {key};
      }
      r := Some(HObject(Sort(pairs)));
      SortedUnfolds(objects, v, props, pairs, visiting, outer);
    }
  }

  ghost function AllIds(n: nat): set<ObjId> {
    set i: nat {:trigger Upto(i, n)} | i < n && Upto(i, n)
  }

  ghost predicate Upto(i: nat, n: nat) {
    i < n
  }

  method ToHostValue(objects: seq<Obj>, v: JSValue) returns (r: Option<HostValue>)
    ensures r == ToHost(objects, v)
  {
    var c := new Converter(objects);
    r := c.ConvertOut(v);
    if r.Some? {
      UnfoldingUnique(objects, v, r.value, {}, ToHost(objects, v).value, {});
    }
  }

  // ---------- Exactly the acyclic, code-free graphs cross ----------

  /** A value that needs nothing, or refers to a ranked object. */
  ghost predicate Grounded(v: JSValue, ranks: map<ObjId, nat>) {
    if IsRef(v) then v.obj in ranks else ScalarOut(v).Some?
  }

  /** `ranks` shows the graph below its ids to be free of code and cycles:
      every reference leads to a lower rank. */
  ghost predicate Acyclic(objs: seq<Obj>, ranks: map<ObjId, nat>) {
    forall id :: id in ranks ==>
      && id < |objs| && (objs[id].kind.ArrayData? || objs[id].kind.Ordinary?)
      && forall c :: c in Children(objs[id]) ==> Grounded(c, ranks) && (IsRef(c) ==> ranks[c.obj] < ranks[id])
  }

  lemma {:induction false} AcyclicCrosses(objs: seq<Obj>, v: JSValue, ranks: map<ObjId, nat>)
    requires Acyclic(objs, ranks) && Grounded(v, ranks)
    ensures Crosses(objs, v, {})
    decreases if IsRef(v) then ranks[v.obj] + 1 else 0
  {
    if !IsRef(v) {
      assert Unfolds(objs, v, ScalarOut(v).value, {});
    } else {
      var o := objs[v.obj];
      forall c | c in Children(o) ensures ToHost(objs, c).Some? {
        AcyclicCrosses(objs, c, ranks);
      }
      if o.kind.ArrayData? {
        var els := o.kind.elements;
        var hv := HArray(seq(|els|, i requires 0 <= i < |els| => ToHost(objs, els[i]).value));
        forall i | 0 <= i < |els| ensures Unfolds(objs, ChildValue(objs, v, hv, i), Child(hv, i), {}) {
          assert els[i] in Children(o);
        }
        assert Unfolds(objs, v, hv, {});
      } else {
        ObjectCrosses(objs, v);
      }
    }
  }

  ghost function PairsOf(objs: seq<Obj>, props: map<Str, JSValue>, keys: seq<Str>): seq<(Str, HostValue)>
    requires forall i :: 0 <= i < |keys| ==> keys[i] in props && Crosses(objs, props[keys[i]], {})
  {
    seq(|keys|, i requires 0 <= i < |keys| => (keys[i], ToHost(objs, props[keys[i]]).value))
  }

  /** Some listing of a finite set. */
  lemma {:induction false} Listing(s: set<Str>) returns (keys: seq<Str>)
    ensures forall k :: k in keys <==> k in s
    ensures forall i, j :: 0 <= i < j < |keys| ==> keys[i] != keys[j]
  {
    if s == {} {
      keys := [];
    } else {
      var k :| k in s;
      var rest := Listing(s - {k});
      keys := rest + [k];
    }
  }

  lemma ObjectCrosses(objs: seq<Obj>, v: JSValue)
    requires IsRef(v) && v.obj < |objs| && objs[v.obj].kind.Ordinary?
    requires forall c :: c in Children(objs[v.obj]) ==> Crosses(objs, c, {})
    ensures Crosses(objs, v, {})
  {
    var props := objs[v.obj].properties;
    var keys := Listing(props.Keys);
    forall i | 0 <= i < |keys| ensures keys[i] in props && Crosses(objs, props[keys[i]], {}) {
      assert props[keys[i]] in Children(objs[v.obj]);
    }
    var pairs := PairsOf(objs, props, keys);
    assert Keys(pairs) == props.Keys by {
      forall k | k in props.Keys ensures k in Keys(pairs) {
        var i :| 0 <= i < |keys| && keys[i] == k;
        assert pairs[i].0 == k;
      }
    }
    SortedUnfolds(objs, v, props, pairs, {}, {});
  }

  /** Conversion succeeds exactly when some ranking shows the graph reachable
      from `v` to be acyclic and free of code; sharing is allowed. */
  lemma CrossesIffAcyclic(objs: seq<Obj>, v: JSValue)
    ensures Crosses(objs, v, {}) <==> exists ranks :: Acyclic(objs, ranks) && Grounded(v, ranks)
  {
    if ranks :| Acyclic(objs, ranks) && Grounded(v, ranks) {
      AcyclicCrosses(objs, v, ranks);
    }
    if Crosses(objs, v, {}) {
      var ranks := HeightRanks(objs);
      HeightRanksAcyclic(objs);
      RefIsRanked(objs, v);
    }
  }

  /** Every object that crosses, ranked by the height of its unfolding. */
  ghost function HeightRanks(objs: seq<Obj>): map<ObjId, nat> {
    map id: nat | id < |objs| && ToHost(objs, JSValue.Object(id)).Some? ::
      Height(ToHost(objs, JSValue.Object(id)).value)
  }

  lemma RefIsRanked(objs: seq<Obj>, v: JSValue)
    requires Crosses(objs, v, {})
    ensures Grounded(v, HeightRanks(objs))
    ensures IsRef(v) ==> HeightRanks(objs)[v.obj] == Height(ToHost(objs, v).value)
  {
    if IsRef(v) {
      var hv := ToHost(objs, v).value;
      SameIdSameUnfolding(objs, v, hv, {});
      UnfoldingUnique(objs, JSValue.Object(v.obj), hv, {}, ToHost(objs, JSValue.Object(v.obj)).value, {});
    }
  }

  lemma HeightRanksAcyclic(objs: seq<Obj>)
    ensures Acyclic(objs, HeightRanks(objs))
  {
    var ranks := HeightRanks(objs);
    forall id, c | id in ranks && c in Children(objs[id])
      ensures Grounded(c, ranks) && (IsRef(c) ==> ranks[c.obj] < ranks[id])
    {
      var v := JSValue.Object(id);
      var hv := ToHost(objs, v).value;
      var i := ChildIndex(objs, v, hv, c);
      assert Unfolds(objs, ChildValue(objs, v, hv, i), Child(hv, i), {});
      RefIsRanked(objs, c);
      UnfoldingUnique(objs, c, Child(hv, i), {}, ToHost(objs, c).value, {});
      ChildIsLower(hv, i);
    }
  }

  // ---------- Materialising a host value ----------

  function SetAll(pairs: seq<(Str, HostValue)>, vs: seq<JSValue>, n: nat): map<Str, JSValue>
    requires n <= |pairs| && n <= |vs|
  {
    if n == 0 then map[] else SetAll(pairs, vs, n - 1)[pairs[n - 1].0 := vs[n - 1]]
  }

  /** Children are materialised first, in order; then the container. */
  function FromHost(a: Slab<Obj>, hv: HostValue): (Slab<Obj>, JSValue)
    decreases hv, Width(hv) + 1
  {
    match hv
    case HUndefined => (a, Undefined)
    case HNull => (a, Null)
    case HBool(b) => (a, Bool(b))
    case HInt(n) => (a, Int(n))
    case HFloat(bits) => (a, Float(bits))
    case HStr(s) => (a, String(s))
    case HArray(items) =>
      var (a1, vs) := FromChildren(a, hv, Width(hv));
      var (a2, id) := Alloc(a1, Obj(map[], None, ArrayData(vs)));
      (a2, Array(id))
    case HObject(pairs) =>
      var (a1, vs) := FromChildren(a, hv, Width(hv));
      var (a2, id) := Alloc(a1, Obj(SetAll(pairs, vs, |vs|), None, Ordinary));
      (a2, JSValue.Object(id))
  }

  function FromChildren(a: Slab<Obj>, hv: HostValue, n: nat): (r: (Slab<Obj>, seq<JSValue>))
    requires n <= Width(hv)
    ensures |r.1| == n
    decreases hv, n
  {
    if n == 0 then (a, [])
    else
      var (a1, vs) := FromChildren(a, hv, n - 1);
      var (a2, v) := FromHost(a1, Child(hv, n - 1));
      (a2, vs + [v])
  }

  /** The interpreter's object arena while host values are materialised. */
  class Materializer {
    var objects: Slab<Obj>

    constructor (objects: Slab<Obj>)
      ensures this.objects == objects
    {
      this.objects := objects;
    }

    method FromHostValue(hv: HostValue) returns (v: JSValue)
      modifies this
      ensures (objects, v) == FromHost(old(objects), hv)
      decreases hv, 1
    {
      match hv {
        case HUndefined => v := Undefined;
        case HNull => v := Null;
        case HBool(b) => v := Bool(b);
        case HInt(n) => v := Int(n);
        case HFloat(bits) => v := Float(bits);
        case HStr(s) => v := String(s);
        case HArray(_) =>
          var values := FromChildValues(hv);
          var out := Alloc(objects, Obj(map[], None, ArrayData(values)));
          objects := out.0;
          v := Array(out.1);
        case HObject(pairs) =>
          var values := FromChildValues(hv);
          var out := Alloc(objects, Obj(SetAll(pairs, values, |values|), None, Ordinary));
          objects := out.0;
          v := JSValue.Object(out.1);
      }
    }

    method FromChildValues(hv: HostValue) returns (values: seq<JSValue>)
      modifies this
      ensures (objects, values) == FromChildren(old(objects), hv, Width(hv))
      decreases hv, 0
    {
      values := [];
      for i := 0 to Width(hv)
        invariant (objects, values) == FromChildren(old(objects), hv, i)
      {
        var x := FromHostValue(Child(hv, i));
        values := values + [x];
      }
    }
  }

  /** The free list lists each free slot once. */
  ghost predicate Clean<T>(a: Slab<T>) {
    && (forall i :: 0 <= i < |a.free| ==> a.free[i] < |a.data|)
    && (forall i, j :: 0 <= i < j < |a.free| ==> a.free[i] != a.free[j])
  }

  ghost function FreeSet<T>(a: Slab<T>): set<nat> {
    set i | 0 <= i < |a.free| :: a.free[i]
  }

  /** `b` keeps every slot `a` had in use, and its free slots were free. */
  ghost predicate Grows<T>(a: Slab<T>, b: Slab<T>) {
    && Clean(b) && |a.data| <= |b.data| && FreeSet(b) <= FreeSet(a)
    && forall i :: 0 <= i < |a.data| && i !in FreeSet(a) ==> b.data[i] == a.data[i]
  }

  /** An allocation grows the arena and hands out a slot not in use. */
  lemma AllocGrows<T>(a: Slab<T>, x: T)
    requires Clean(a)
    ensures var (b, id) := Alloc(a, x);
      Grows(a, b) && id < |b.data| && b.data[id] == x && id !in FreeSet(b) && (id in FreeSet(a) || id == |a.data|)
  {
    var b := Alloc(a, x).0;
    forall i | 0 <= i < |b.free| ensures b.free[i] in FreeSet(a) {
      assert b.free[i] == a.free[i];
    }
  }

  lemma {:induction false} UnfoldsInGrown(a: Slab<Obj>, b: Slab<Obj>, v: JSValue, hv: HostValue)
    requires Unfolds(a.data, v, hv, FreeSet(a)) && Grows(a, b)
    ensures Unfolds(b.data, v, hv, FreeSet(b))
    decreases hv
  {
    if IsRef(v) {
      forall i | 0 <= i < Width(hv)
        ensures Unfolds(b.data, ChildValue(b.data, v, hv, i), Child(hv, i), FreeSet(b))
      {
        UnfoldsInGrown(a, b, ChildValue(a.data, v, hv, i), Child(hv, i));
      }
    }
  }

  /** Every object inside has strictly sorted keys. */
  ghost predicate Canonical(hv: HostValue)
    decreases hv
  {
    && (hv.HObject? ==> Sorted(hv.pairs))
    && forall i :: 0 <= i < Width(hv) ==> Canonical(Child(hv, i))
  }

  lemma {:induction false} SetAllLooksUp(pairs: seq<(Str, HostValue)>, vs: seq<JSValue>, n: nat)
    requires Sorted(pairs) && n <= |pairs| && n <= |vs|
    ensures forall k :: k in SetAll(pairs, vs, n) <==> k in Keys(pairs[..n])
    ensures forall i :: 0 <= i < n ==> pairs[i].0 in SetAll(pairs, vs, n) && SetAll(pairs, vs, n)[pairs[i].0] == vs[i]
  {
    if n > 0 {
      SetAllLooksUp(pairs, vs, n - 1);
      var front := pairs[..n - 1];
      assert pairs[..n] == front + [(pairs[n - 1].0, pairs[n - 1].1)];
      forall i | 0 <= i < n - 1 ensures front[i].0 != pairs[n - 1].0 {
        LessTotal(pairs[i].0, pairs[n - 1].0);
      }
      forall i, j | 0 <= i < j < n - 1 ensures front[i].0 != front[j].0 {
        LessTotal(pairs[i].0, pairs[j].0);
      }
      KeysAppend(front, pairs[n - 1].0, pairs[n - 1].1);
    }
  }

  lemma {:induction false} FromHostUnfolds(a: Slab<Obj>, hv: HostValue)
    requires Clean(a) && Canonical(hv)
    ensures var (b, v) := FromHost(a, hv);
      Grows(a, b) && Unfolds(b.data, v, hv, FreeSet(b))
    decreases hv, Width(hv) + 1
  {
    if hv.HArray? || hv.HObject? {
      FromChildrenUnfold(a, hv, Width(hv));
      var (a1, vs) := FromChildren(a, hv, Width(hv));
      var o := if hv.HArray? then Obj(map[], None, ArrayData(vs))
               else Obj(SetAll(hv.pairs, vs, |vs|), None, Ordinary);
      AllocGrows(a1, o);
      var (b, v) := FromHost(a, hv);
      if hv.HObject? {
        SetAllLooksUp(hv.pairs, vs, |vs|);
        assert hv.pairs[..|vs|] == hv.pairs;
      }
      forall i | 0 <= i < Width(hv) ensures Unfolds(b.data, ChildValue(b.data, v, hv, i), Child(hv, i), FreeSet(b)) {
        UnfoldsInGrown(a1, b, vs[i], Child(hv, i));
      }
    }
  }

  lemma {:induction false} FromChildrenUnfold(a: Slab<Obj>, hv: HostValue, n: nat)
    requires Clean(a) && Canonical(hv) && n <= Width(hv)
    ensures var (b, vs) := FromChildren(a, hv, n);
      Grows(a, b) && forall i :: 0 <= i < n ==> Unfolds(b.data, vs[i], Child(hv, i), FreeSet(b))
    decreases hv, n
  {
    if n > 0 {
      FromChildrenUnfold(a, hv, n - 1);
      var (a1, vs) := FromChildren(a, hv, n - 1);
      FromHostUnfolds(a1, Child(hv, n - 1));
      var b := FromHost(a1, Child(hv, n - 1)).0;
      forall i | 0 <= i < n - 1 ensures Unfolds(b.data, vs[i], Child(hv, i), FreeSet(b)) {
        UnfoldsInGrown(a1, b, vs[i], Child(hv, i));
      }
    }
  }

  lemma {:induction false} UnfoldingsAreCanonical(objs: seq<Obj>, v: JSValue, hv: HostValue, avoid: set<ObjId>)
    requires Unfolds(objs, v, hv, avoid)
    ensures Canonical(hv)
    decreases hv
  {
    forall i | 0 <= i < Width(hv) ensures Canonical(Child(hv, i)) {
      UnfoldingsAreCanonical(objs, ChildValue(objs, v, hv, i), Child(hv, i), avoid);
    }
  }

  /** In then out is the identity exactly on the values whose objects all have
      sorted, distinct keys. */
  lemma HostRoundTrip(a: Slab<Obj>, hv: HostValue)
    requires Clean(a)
    ensures var (b, v) := FromHost(a, hv);
      ToHost(b.data, v) == Some(hv) <==> Canonical(hv)
  {
    var (b, v) := FromHost(a, hv);
    if Canonical(hv) {
      FromHostUnfolds(a, hv);
      AvoidsFewer(b.data, v, hv, FreeSet(b), {});
      UnfoldingUnique(b.data, v, hv, {}, ToHost(b.data, v).value, {});
    }
    if ToHost(b.data, v) == Some(hv) {
      UnfoldingsAreCanonical(b.data, v, hv, {});
    }
  }

  /** A scalar crosses both ways as the same scalar, whatever is in the arena; code
      does not cross at all. */
  lemma ScalarsCross(objs: seq<Obj>, a: Slab<Obj>, b: bool, n: i32, bits: u64, s: Str, v: JSValue)
    ensures ToHost(objs, Undefined) == Some(HUndefined) && FromHost(a, HUndefined) == (a, Undefined)
    ensures ToHost(objs, Null) == Some(HNull) && FromHost(a, HNull) == (a, Null)
    ensures ToHost(objs, Bool(b)) == Some(HBool(b)) && FromHost(a, HBool(b)) == (a, Bool(b))
    ensures ToHost(objs, Int(n)) == Some(HInt(n)) && FromHost(a, HInt(n)) == (a, Int(n))
    ensures ToHost(objs, Float(bits)) == Some(HFloat(bits)) && FromHost(a, HFloat(bits)) == (a, Float(bits))
    ensures ToHost(objs, String(s)) == Some(HStr(s)) && FromHost(a, HStr(s)) == (a, String(s))
    ensures v.Function? || v.Handler? || v.Continuation? ==> ToHost(objs, v) == None
  {
    assert Unfolds(objs, Undefined, HUndefined, {}) && Unfolds(objs, Null, HNull, {});
    assert Unfolds(objs, Bool(b), HBool(b), {}) && Unfolds(objs, Int(n), HInt(n), {});
    assert Unfolds(objs, Float(bits), HFloat(bits), {}) && Unfolds(objs, String(s), HStr(s), {});
  }
}
