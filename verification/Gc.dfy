/** The mark-sweep collector (src/gc.rs): a worklist over four arenas. */
module Gc {
  import opened Values
  import opened Boundary
  import opened Fibers
  import opened ArenaObject
  import opened Reachability

  /** The work left, weighted so that every pop lowers it: a continuation value
      is replaced by its two ids. */
  ghost function Weight(work: seq<WorkItem>): nat {
    if work == [] then 0
    else Weight(work[..|work| - 1]) + (if work[|work| - 1].OfValue? then 3 else 1)
  }

  lemma {:induction false} WeightAppend(a: seq<WorkItem>, b: seq<WorkItem>)
    ensures Weight(a + b) == Weight(a) + Weight(b)
  {
    if b == [] {
      assert a + b == a;
    } else {
      assert (a + b)[..|a + b| - 1] == a + b[..|b| - 1];
      WeightAppend(a, b[..|b| - 1]);
    }
  }

  // ---------- The worklist invariant ----------

  ghost predicate Queued(work: seq<WorkItem>, n: Node) {
    exists i :: 0 <= i < |work| && n in Targets(work[i])
  }

  /** Marked already, or still to be traced. */
  ghost predicate Accounted(marked: set<Node>, work: seq<WorkItem>, item: WorkItem) {
    forall n :: n in Targets(item) ==> n in marked || Queued(work, n)
  }

  ghost predicate Marking(h: Heap, roots: seq<WorkItem>, marked: set<Node>, work: seq<WorkItem>) {
    && (forall c :: Covers(roots, c) && Closed(h, c) ==> marked <= c && Covers(work, c))
    && (forall i :: 0 <= i < |roots| ==> Accounted(marked, work, roots[i]))
    && (forall n, item :: n in marked && Holds(h, n, item) ==> Accounted(marked, work, item))
    && (forall i :: 0 <= i < |work| ==> Resolves(h, work[i]))
  }

  /** `pushes` lists exactly what the slot holds. */
  ghost predicate Lists(h: Heap, n: Node, pushes: seq<WorkItem>) {
    forall item :: item in pushes <==> Holds(h, n, item)
  }

  lemma QueuedAfterPop(work: seq<WorkItem>, pushes: seq<WorkItem>, n: Node)
    requires work != [] && Queued(work, n)
    ensures Queued(work[..|work| - 1] + pushes, n) || n in Targets(work[|work| - 1])
  {
    var front := work[..|work| - 1];
    var i :| 0 <= i < |work| && n in Targets(work[i]);
    if i < |front| { assert (front + pushes)[i] == work[i]; }
  }

  /** Popping an item whose slots are marked, or replacing an item by items for
      the same slots. */
  lemma PopSettled(h: Heap, roots: seq<WorkItem>, marked: set<Node>, work: seq<WorkItem>, pushes: seq<WorkItem>)
    requires Marking(h, roots, marked, work) && work != []
    requires forall n :: n in Targets(work[|work| - 1]) ==> n in marked || Queued(pushes, n)
    requires forall i :: 0 <= i < |pushes| ==> Targets(pushes[i]) <= Targets(work[|work| - 1])
    ensures Marking(h, roots, marked, work[..|work| - 1] + pushes)
  {
    hide Holds, Targets, Closed, InArena;
    var next := work[..|work| - 1] + pushes;
    forall item | Accounted(marked, work, item) ensures Accounted(marked, next, item) {
      forall n | n in Targets(item) ensures n in marked || Queued(next, n) {
        if n !in marked {
          QueuedAfterPop(work, pushes, n);
          if Queued(pushes, n) { QueuedRight(work[..|work| - 1], pushes, n); }
        }
      }
    }
    assert forall i :: 0 <= i < |next| ==>
      Targets(next[i]) <= Targets(work[|work| - 1]) || (i < |work| - 1 && next[i] == work[i]);
  }

  lemma QueuedRight(a: seq<WorkItem>, b: seq<WorkItem>, n: Node)
    requires Queued(b, n)
    ensures Queued(a + b, n)
  {
    var i :| 0 <= i < |b| && n in Targets(b[i]);
    assert (a + b)[|a| + i] == b[i];
  }

  /** Tracing an unmarked slot marks it and queues what it holds. */
  lemma PopTraced(h: Heap, roots: seq<WorkItem>, marked: set<Node>, work: seq<WorkItem>, n: Node, pushes: seq<WorkItem>)
    requires Marking(h, roots, marked, work) && work != [] && NoDangling(h)
    requires Targets(work[|work| - 1]) == {n} && Lists(h, n, pushes)
    ensures Marking(h, roots, marked + {n}, work[..|work| - 1] + pushes)
  {
    hide Holds, Targets, InArena, Closed;
    var next := work[..|work| - 1] + pushes;
    forall item | Accounted(marked, work, item) ensures Accounted(marked + {n}, next, item) {
      forall x | x in Targets(item) ensures x in marked + {n} || Queued(next, x) {
        if x !in marked + {n} { QueuedAfterPop(work, pushes, x); }
      }
    }
    forall item | Holds(h, n, item) ensures Accounted(marked + {n}, next, item) {
      var i :| 0 <= i < |pushes| && pushes[i] == item;
      forall x | x in Targets(item) ensures Queued(next, x) {
        assert Queued(pushes, x);
        QueuedRight(work[..|work| - 1], pushes, x);
      }
    }
    forall c | Covers(roots, c) && Closed(h, c) ensures marked + {n} <= c && Covers(next, c) {
      CoversTraced(h, c, work, n, pushes);
    }
    forall i | 0 <= i < |next| ensures Resolves(h, next[i]) {
      if i >= |work| - 1 { assert next[i] in pushes; }
    }
  }

  lemma CoversTraced(h: Heap, c: set<Node>, work: seq<WorkItem>, n: Node, pushes: seq<WorkItem>)
    requires Closed(h, c) && Covers(work, c) && work != []
    requires Targets(work[|work| - 1]) == {n} && Lists(h, n, pushes)
    ensures n in c && Covers(work[..|work| - 1] + pushes, c)
  {
    hide Holds, Targets;
    var next := work[..|work| - 1] + pushes;
    assert n in Targets(work[|work| - 1]);
    forall i | 0 <= i < |next| ensures Targets(next[i]) <= c {
      if i >= |work| - 1 { assert next[i] in pushes; }
    }
  }

  lemma MarkingEnds(h: Heap, roots: seq<WorkItem>, marked: set<Node>)
    requires Marking(h, roots, marked, [])
    ensures Reachable(h, roots, marked)
  {
    hide Holds, Targets;
    forall item | Accounted(marked, [], item) ensures Targets(item) <= marked {
    }
  }

  lemma MarkingStarts(h: Heap, roots: seq<WorkItem>)
    requires forall i :: 0 <= i < |roots| ==> Resolves(h, roots[i])
    ensures Marking(h, roots, {}, roots)
  {
    hide Holds, Targets;
    forall i | 0 <= i < |roots| ensures Accounted({}, roots, roots[i]) {
    }
  }

  ghost function MarkedIn(marks: seq<bool>): set<nat> {
    set i | 0 <= i < |marks| && marks[i]
  }

  class Collector {
    const objects: Arena<Obj>
    const envs: Arena<Env>
    const conts: Arena<Kont>
    const handlers: Arena<HandlerData>
    var globals: map<Str, JSValue>
    var workList: seq<WorkItem>

    constructor (h: Heap)
      requires Clean(h.objects) && Clean(h.envs) && Clean(h.conts) && Clean(h.handlers)
      ensures Valid() && AllClear() && Abs() == h
      ensures fresh(objects) && fresh(envs) && fresh(conts) && fresh(handlers)
    {
      objects := new Arena(h.objects);
      envs := new Arena(h.envs);
      conts := new Arena(h.conts);
      handlers := new Arena(h.handlers);
      globals := h.globals;
      workList := [];
    }

    ghost predicate Valid()
      reads this, objects, envs, conts, handlers
    {
      && objects.Valid() && envs.Valid() && conts.Valid() && handlers.Valid()
      && objects as object != envs && objects as object != conts && objects as object != handlers
      && envs as object != conts && envs as object != handlers && conts as object != handlers
    }

    ghost predicate AllClear()
      reads this, objects, envs, conts, handlers
    {
      objects.AllClear() && envs.AllClear() && conts.AllClear() && handlers.AllClear()
    }

    ghost function Abs(): Heap
      reads this, objects, envs, conts, handlers
    {
      Heap(objects.Abs(), envs.Abs(), conts.Abs(), handlers.Abs(), globals)
    }

    ghost predicate IsMarked(n: Node)
      reads this, objects, envs, conts, handlers
    {
      match n
      case ObjectNode(i) => i < |objects.marks| && objects.marks[i]
      case EnvNode(i) => i < |envs.marks| && envs.marks[i]
      case ContNode(i) => i < |conts.marks| && conts.marks[i]
      case HandlerNode(i) => i < |handlers.marks| && handlers.marks[i]
    }

    ghost function Marked(): (m: set<Node>)
      reads this, objects, envs, conts, handlers
      ensures forall n :: n in m <==> IsMarked(n)
    {
      (set i | i in MarkedIn(objects.marks) :: ObjectNode(i)) + (set i | i in MarkedIn(envs.marks) :: EnvNode(i))
        + (set i | i in MarkedIn(conts.marks) :: ContNode(i))
        + (set i | i in MarkedIn(handlers.marks) :: HandlerNode(i))
    }

    /** What tracing leaves alone: every slot, and every other mark. */
    twostate predicate OnlyMarks(n: Node)
      reads this, objects, envs, conts, handlers
    {
      && Valid() && Abs() == old(Abs())
      && Marked() == old(Marked()) + {n}
    }

    method TraceObject(id: ObjId) returns (ghost pushes: seq<WorkItem>)
      requires Valid() && id < |objects.data|
      modifies this`workList, objects`marks
      ensures OnlyMarks(ObjectNode(id)) && workList == old(workList) + pushes
      ensures if old(IsMarked(ObjectNode(id))) then pushes == [] else Lists(Abs(), ObjectNode(id), pushes)
    {
      pushes := [];
      if objects.marks[id] {
        return;
      }
      objects.Mark(id);
      var items := ObjectItems(objects.data[id]);
      workList := workList + items;
      pushes := items;
    }

    method TraceEnv(id: EnvId) returns (ghost pushes: seq<WorkItem>)
      requires Valid() && id < |envs.data|
      modifies this`workList, envs`marks
      ensures OnlyMarks(EnvNode(id)) && workList == old(workList) + pushes
      ensures if old(IsMarked(EnvNode(id))) then pushes == [] else Lists(Abs(), EnvNode(id), pushes)
    {
      pushes := [];
      if envs.marks[id] {
        return;
      }
      envs.Mark(id);
      var env := envs.data[id];
      var items := SomeValueItems(env.bindings.Values);
      items := (if env.parent.Some? then [OfEnv(env.parent.value)] else []) + items;
      workList := workList + items;
      pushes := items;
    }

    method TraceCont(id: ContId) returns (ghost pushes: seq<WorkItem>)
      requires Valid() && id < |conts.data|
      modifies this`workList, conts`marks
      ensures OnlyMarks(ContNode(id)) && workList == old(workList) + pushes
      ensures if old(IsMarked(ContNode(id))) then pushes == [] else Lists(Abs(), ContNode(id), pushes)
    {
      pushes := [];
      if conts.marks[id] {
        return;
      }
      conts.Mark(id);
      var items := KontItems(conts.data[id]);
      workList := workList + items;
      pushes := items;
    }

    method TraceHandler(id: HandlerId) returns (ghost pushes: seq<WorkItem>)
      requires Valid() && id < |handlers.data|
      modifies this`workList, handlers`marks
      ensures OnlyMarks(HandlerNode(id)) && workList == old(workList) + pushes
      ensures if old(IsMarked(HandlerNode(id))) then pushes == [] else Lists(Abs(), HandlerNode(id), pushes)
    {
      pushes := [];
      if handlers.marks[id] {
        return;
      }
      handlers.Mark(id);
      workList := workList + [OfEnv(handlers.data[id].env)];
      pushes := [OfEnv(handlers.data[id].env)];
    }

    /** Trace one slot off the worklist. */
    method TraceNode(n: Node, ghost roots: seq<WorkItem>, ghost work: seq<WorkItem>)
      requires Valid() && NoDangling(Abs()) && work != [] && workList == work[..|work| - 1]
      requires Targets(work[|work| - 1]) == {n} && Marking(Abs(), roots, Marked(), work)
      modifies this`workList, objects`marks, envs`marks, conts`marks, handlers`marks
      ensures Valid() && Abs() == old(Abs()) && Marking(Abs(), roots, Marked(), workList)
      ensures Marked() == old(Marked()) + {n}
      ensures old(IsMarked(n)) ==> workList == old(workList)
    {
      hide Marking, Holds, NoDangling;
      ghost var h, before := Abs(), Marked();
      WorkResolves(h, roots, before, work);
      ghost var pushes;
      match n {
        case ObjectNode(i) => pushes := TraceObject(i);
        case EnvNode(i) => pushes := TraceEnv(i);
        case ContNode(i) => pushes := TraceCont(i);
        case HandlerNode(i) => pushes := TraceHandler(i);
      }
      if old(IsMarked(n)) {
        PopSettled(h, roots, before, work, []);
        assert Marked() == before;
      } else {
        PopTraced(h, roots, before, work, n, pushes);
      }
    }

    /** Pop one item and trace what it stands for. */
    method TraceItem(ghost roots: seq<WorkItem>)
      requires Valid() && NoDangling(Abs()) && workList != []
      requires Marking(Abs(), roots, Marked(), workList)
      modifies this`workList, objects`marks, envs`marks, conts`marks, handlers`marks
      ensures Valid() && Abs() == old(Abs()) && Marking(Abs(), roots, Marked(), workList)
      ensures old(Marked()) <= Marked()
      ensures Marked() == old(Marked()) ==> Weight(workList) < Weight(old(workList))
    {
      hide Marking, Holds, NoDangling, Weight;
      ghost var work := workList;
      var item := workList[|workList| - 1];
      workList := workList[..|workList| - 1];
      PopLighter(work);
      WorkResolves(Abs(), roots, Marked(), work);
      match item {
        case OfEnv(e) => TraceNode(EnvNode(e), roots, work);
        case OfCont(k) => TraceNode(ContNode(k), roots, work);
        case OfValue(v) => TraceValue(v, roots, work);
      }
    }

    method TraceValue(v: JSValue, ghost roots: seq<WorkItem>, ghost work: seq<WorkItem>)
      requires Valid() && NoDangling(Abs()) && work != [] && workList == work[..|work| - 1]
      requires work[|work| - 1] == OfValue(v) && Marking(Abs(), roots, Marked(), work)
      modifies this`workList, objects`marks, envs`marks, conts`marks, handlers`marks
      ensures Valid() && Abs() == old(Abs()) && Marking(Abs(), roots, Marked(), workList)
      ensures old(Marked()) <= Marked()
      ensures Marked() == old(Marked()) ==> Weight(workList) < Weight(work)
    {
      hide Marking, Holds, NoDangling, Weight;
      PopLighter(work);
      match v {
        case Object(o) => TraceNode(ObjectNode(o), roots, work);
        case Array(o) => TraceNode(ObjectNode(o), roots, work);
        case Function(o) => TraceNode(ObjectNode(o), roots, work);
        case Handler(i) => TraceNode(HandlerNode(i), roots, work);
        case Continuation(k, e) =>
          PushBoth(Abs(), roots, Marked(), work, k, e);
          workList := workList + [OfEnv(e), OfCont(k)];
        case _ =>
          PopSettled(Abs(), roots, Marked(), work, []);
          assert work[..|work| - 1] + [] == work[..|work| - 1];
      }
    }

    /** Mark exactly the slots reachable from the roots. */
    method Mark(roots: seq<WorkItem>)
      requires Valid() && AllClear() && NoDangling(Abs())
      requires forall i :: 0 <= i < |roots| ==> Resolves(Abs(), roots[i])
      modifies this`workList, objects`marks, envs`marks, conts`marks, handlers`marks
      ensures Valid() && Abs() == old(Abs()) && Reachable(Abs(), roots, Marked())
    {
      hide Marking, Holds, NoDangling, Weight, Targets, InArena;
      ghost var h := Abs();
      workList := roots;
      MarkingStarts(h, roots);
      assert Marked() == {};
      while workList != []
        invariant Valid() && Abs() == h && Marking(h, roots, Marked(), workList)
        decreases AllNodes(h) - Marked(), Weight(workList)
      {
        ghost var marked := Marked();
        TraceItem(roots);
        MarkedExist();
        assert marked != Marked() ==> exists n :: n in Marked() && n !in marked;
      }
      MarkingEnds(h, roots, Marked());
    }

    /** sweep: every arena's free list becomes its unmarked slots. */
    method SweepAll(ghost marked: set<Node>)
      requires Valid() && marked == Marked()
      modifies objects, envs, conts, handlers
      ensures Valid() && AllClear()
      ensures globals == old(globals) && Swept(old(Abs()), marked, Abs())
    {
      hide ObjectSlots, EnvSlots, ContSlots, HandlerSlots, Marked, MarkedIn, IsMarked, FreedExactly;
      MarksAreMembership();
      SweptExactly(objects.marks, ObjectSlots(marked));
      SweptExactly(envs.marks, EnvSlots(marked));
      SweptExactly(conts.marks, ContSlots(marked));
      SweptExactly(handlers.marks, HandlerSlots(marked));
      objects.Sweep();
      envs.Sweep();
      conts.Sweep();
      handlers.Sweep();
    }

    lemma MarksAreMembership()
      requires Valid()
      ensures forall i: nat :: i < |objects.marks| ==> (objects.marks[i] <==> ObjectNode(i) in Marked())
      ensures forall i: nat :: i < |envs.marks| ==> (envs.marks[i] <==> EnvNode(i) in Marked())
      ensures forall i: nat :: i < |conts.marks| ==> (conts.marks[i] <==> ContNode(i) in Marked())
      ensures forall i: nat :: i < |handlers.marks| ==> (handlers.marks[i] <==> HandlerNode(i) in Marked())
    {
    }

    /** mark then sweep: the slots reachable from the roots are kept, every
        other slot is free. The globals are visited in some order. */
    method Collect(regs: Regs, fibers: seq<Fiber>) returns (ghost order: seq<JSValue>, ghost marked: set<Node>)
      requires Valid() && AllClear() && NoDangling(Abs()) && RootsResolve(Abs(), regs, fibers)
      modifies this`workList, objects, envs, conts, handlers
      ensures Valid() && AllClear()
      ensures forall v :: v in order <==> v in globals.Values
      ensures Reachable(old(Abs()), RootItems(regs, order, fibers), marked)
      ensures Swept(old(Abs()), marked, Abs())
    {
      hide Holds, NoDangling, Targets, InArena, Reachable, RootsResolve, Swept;
      ghost var h := Abs();
      var values := ListValues(globals.Values);
      order := values;
      RootItemsResolve(h, regs, values, fibers);
      Mark(RootItems(regs, values, fibers));
      marked := Marked();
      SweepAll(marked);
    }

    lemma MarkedExist()
      requires Valid()
      ensures Marked() <= AllNodes(Abs())
    {
    }
  }

  /** A free list that is exactly the complement of the kept slots, each slot
      once. */
  ghost predicate FreedExactly(free: seq<nat>, size: nat, kept: set<nat>) {
    && (forall i: nat :: i in free <==> (i < size && i !in kept))
    && (forall i, j :: 0 <= i < j < |free| ==> free[i] < free[j])
  }

  lemma SweptExactly(marks: seq<bool>, kept: set<nat>)
    requires forall i: nat :: i < |marks| ==> (marks[i] <==> i in kept)
    ensures FreedExactly(Unmarked(marks, |marks|), |marks|, kept)
  {
    UnmarkedIsComplement(marks, |marks|);
  }

  ghost function ObjectSlots(marked: set<Node>): (r: set<nat>)
    ensures forall i: nat :: i in r <==> ObjectNode(i) in marked
  {
    set n | n in marked && n.ObjectNode? :: n.i
  }

  ghost function EnvSlots(marked: set<Node>): (r: set<nat>)
    ensures forall i: nat :: i in r <==> EnvNode(i) in marked
  {
    set n | n in marked && n.EnvNode? :: n.i
  }

  ghost function ContSlots(marked: set<Node>): (r: set<nat>)
    ensures forall i: nat :: i in r <==> ContNode(i) in marked
  {
    set n | n in marked && n.ContNode? :: n.i
  }

  ghost function HandlerSlots(marked: set<Node>): (r: set<nat>)
    ensures forall i: nat :: i in r <==> HandlerNode(i) in marked
  {
    set n | n in marked && n.HandlerNode? :: n.i
  }

  /** Sweeping frees exactly the unmarked slots and changes nothing else. */
  ghost predicate Swept(h: Heap, marked: set<Node>, h': Heap) {
    && h' == h.(objects := h.objects.(free := h'.objects.free), envs := h.envs.(free := h'.envs.free),
                conts := h.conts.(free := h'.conts.free), handlers := h.handlers.(free := h'.handlers.free))
    && FreedExactly(h'.objects.free, |h.objects.data|, ObjectSlots(marked))
    && FreedExactly(h'.envs.free, |h.envs.data|, EnvSlots(marked))
    && FreedExactly(h'.conts.free, |h.conts.data|, ContSlots(marked))
    && FreedExactly(h'.handlers.free, |h.handlers.data|, HandlerSlots(marked))
  }

  /** Every id in a root exists: registers, globals and fibers. */
  ghost predicate RootsResolve(h: Heap, regs: Regs, fibers: seq<Fiber>) {
    && (forall item :: item in RegsItems(regs) ==> Resolves(h, item))
    && (forall v :: v in h.globals.Values ==> Resolves(h, OfValue(v)))
    && (forall f, item :: f in fibers && item in FiberItems(f) ==> Resolves(h, item))
  }

  lemma RootItemsResolve(h: Heap, regs: Regs, values: seq<JSValue>, fibers: seq<Fiber>)
    requires RootsResolve(h, regs, fibers) && forall v :: v in values ==> v in h.globals.Values
    ensures forall i :: 0 <= i < |RootItems(regs, values, fibers)| ==> Resolves(h, RootItems(regs, values, fibers)[i])
  {
    hide RegsItems, FiberItems, Resolves;
    FibersItemsResolve(h, fibers);
    ValueItemsList(values);
    var items := RootItems(regs, values, fibers);
    forall i | 0 <= i < |items| ensures Resolves(h, items[i]) {
      var a, b := RegsItems(regs), ValueItems(values);
      if i < |a| { assert items[i] in a; }
      else if i < |a| + |b| { assert items[i] == b[i - |a|] && items[i] in b; }
      else { assert items[i] == FibersItems(fibers)[i - |a| - |b|] && items[i] in FibersItems(fibers); }
    }
  }

  lemma {:induction false} FibersItemsResolve(h: Heap, fibers: seq<Fiber>)
    requires forall f, item :: f in fibers && item in FiberItems(f) ==> Resolves(h, item)
    ensures forall item :: item in FibersItems(fibers) ==> Resolves(h, item)
  {
    hide FiberItems, Resolves;
    if fibers != [] {
      FibersItemsResolve(h, fibers[..|fibers| - 1]);
    }
  }

  method ListValues(values: set<JSValue>) returns (vs: seq<JSValue>)
    ensures forall v :: v in vs <==> v in values
  {
    vs := [];
    var todo := values;
    while todo != {}
      invariant todo <= values && forall v :: v in vs <==> v in values && v !in todo
      decreases todo
    {
      var v :| v in todo;
      vs, todo := vs + [v], todo - {v};
    }
  }

  ghost function AllNodes(h: Heap): (s: set<Node>)
    ensures forall n :: n in s <==> InArena(h, n)
  {
    (set i: nat | i < |h.objects.data| :: ObjectNode(i)) + (set i: nat | i < |h.envs.data| :: EnvNode(i))
      + (set i: nat | i < |h.conts.data| :: ContNode(i)) + (set i: nat | i < |h.handlers.data| :: HandlerNode(i))
  }

  lemma WorkResolves(h: Heap, roots: seq<WorkItem>, marked: set<Node>, work: seq<WorkItem>)
    requires Marking(h, roots, marked, work) && work != []
    ensures Resolves(h, work[|work| - 1])
  {
  }

  /** A continuation value is replaced by its environment and its frames. */
  lemma PushBoth(h: Heap, roots: seq<WorkItem>, marked: set<Node>, work: seq<WorkItem>, k: ContId, e: EnvId)
    requires Marking(h, roots, marked, work) && work != [] && work[|work| - 1] == OfValue(Continuation(k, e))
    ensures Marking(h, roots, marked, work[..|work| - 1] + [OfEnv(e), OfCont(k)])
    ensures Weight(work[..|work| - 1] + [OfEnv(e), OfCont(k)]) < Weight(work)
  {
    hide Marking, Holds;
    var pushes := [OfEnv(e), OfCont(k)];
    assert EnvNode(e) in Targets(pushes[0]) && ContNode(k) in Targets(pushes[1]);
    PopSettled(h, roots, marked, work, pushes);
    WeightAppend(work[..|work| - 1], pushes);
    assert pushes == [OfEnv(e)] + [OfCont(k)];
    WeightAppend([OfEnv(e)], [OfCont(k)]);
    WeightOfOne(OfEnv(e));
    WeightOfOne(OfCont(k));
    WeightAppend(work[..|work| - 1], [work[|work| - 1]]);
    WeightOfOne(work[|work| - 1]);
    assert work == work[..|work| - 1] + [work[|work| - 1]];
  }

  lemma WeightOfOne(item: WorkItem)
    ensures Weight([item]) == if item.OfValue? then 3 else 1
  {
    assert [item][..0] == [];
  }

  lemma PopLighter(work: seq<WorkItem>)
    requires work != []
    ensures Weight(work[..|work| - 1]) < Weight(work)
  {
  }

  // ---------- Listing what a slot holds ----------

  lemma ValueItemsList(vs: seq<JSValue>)
    ensures forall item :: item in ValueItems(vs) <==> item.OfValue? && item.v in vs
  {
    forall item: WorkItem | item.OfValue? && item.v in vs ensures item in ValueItems(vs) {
      var i :| 0 <= i < |vs| && vs[i] == item.v;
      assert ValueItems(vs)[i] == item;
    }
  }

  /** Values in some order, as work items. */
  method SomeValueItems(values: set<JSValue>) returns (items: seq<WorkItem>)
    ensures forall item :: item in items <==> item.OfValue? && item.v in values
  {
    items := [];
    var todo := values;
    while todo != {}
      invariant todo <= values
      invariant forall item :: item in items <==> item.OfValue? && item.v in values && item.v !in todo
      decreases todo
    {
      var v :| v in todo;
      items := items + [OfValue(v)];
      todo := todo - {v};
    }
  }

  method ObjectItems(o: Obj) returns (items: seq<WorkItem>)
    ensures forall item :: item in items <==> ObjectHolds(o, item)
  {
    items := SomeValueItems(o.properties.Values);
    if o.prototype.Some? {
      items := items + [OfValue(JSValue.Object(o.prototype.value))];
    }
    match o.kind {
      case ArrayData(els) =>
        ValueItemsList(els);
        items := items + ValueItems(els);
      case Closure(data) => items := items + [OfEnv(data.env)];
      case BoundFunction(target, thisArg, args) =>
        ValueItemsList(args);
        items := items + [OfValue(JSValue.Function(target)), OfValue(thisArg)] + ValueItems(args);
      case _ =>
    }
  }
}
