/** What a collection keeps, in terms of fibers, registers and globals, and what
    the program then still sees however many slots are reused
    (src/gc.rs:75-141, 183-439, src/runtime.rs:640-668, 834-862). */
module Retention {
  import opened Values
  import opened KeyOrder
  import opened Fuel
  import opened Boundary
  import opened Fibers
  import opened Reachability
  import opened Gc
  import opened Reuse
  import opened Environments

  // ---------- What a frame and an object refer to ----------

  /** The frames that carry no environment. */
  predicate NoEnv(f: Frame) {
    || f.UnaryK? || f.BinaryRightK? || f.MemberK? || f.IndexKeyK? || f.AssignMemberValK? || f.AssignIndexValK?
    || f.ReturnExprK? || f.ExprStmtK?
  }

  /** The value occurs in the frame. */
  predicate OccursIn(f: Frame, v: JSValue) {
    || (f.BinaryRightK? && v == f.left)
    || ((f.IndexKeyK? || f.AssignMemberValK? || f.AssignIndexKeyK? || f.AssignIndexValK?) && v == f.obj)
    || (f.AssignIndexValK? && v == f.key)
    || (f.ArgsK? && v == f.callee)
    || ((f.ArgsK? || f.ArrayK? || f.PerformArgsK?) && v in f.done)
    || (f.ObjectK? && exists i :: 0 <= i < |f.pairs| && f.pairs[i].1 == v)
  }

  lemma ListedValues(f: Frame, item: WorkItem)
    requires item.OfValue? && (f.ArgsK? || f.ArrayK? || f.PerformArgsK? || f.ObjectK?)
    ensures item in FrameItems(f) <==> OccursIn(f, item.v)
  {
    if f.ObjectK? {
      ValueItemsList(Seconds(f.pairs));
      if OccursIn(f, item.v) {
        var i :| 0 <= i < |f.pairs| && f.pairs[i].1 == item.v;
        assert Seconds(f.pairs)[i] == item.v;
      }
    } else {
      ValueItemsList(f.done);
    }
  }

  lemma FrameValues(f: Frame, item: WorkItem)
    requires item.OfValue?
    ensures item in FrameItems(f) <==> OccursIn(f, item.v)
  {
    if f.ArgsK? || f.ArrayK? || f.PerformArgsK? || f.ObjectK? {
      ListedValues(f, item);
    } else {
      hide ValueItems, Seconds;
    }
  }

  lemma FrameEnv(f: Frame, item: WorkItem)
    requires !item.OfValue?
    ensures item in FrameItems(f) <==> item.OfEnv? && !NoEnv(f) && item.env == f.env
  {
    if f.ArgsK? || f.ArrayK? || f.PerformArgsK? { ValueItemsList(f.done); }
    if f.ObjectK? { ValueItemsList(Seconds(f.pairs)); }
  }

  /** Tracing a frame pushes every value and the environment in it, and its outer
      link, and nothing else. */
  lemma FrameItemsAre(f: Frame, k: ContId, item: WorkItem)
    ensures item in KontItems(Link(f, k)) <==>
      || (item.OfValue? && OccursIn(f, item.v))
      || (item.OfEnv? && !NoEnv(f) && item.env == f.env)
      || item == OfCont(k)
  {
    hide FrameItems, OccursIn;
    if item.OfValue? { FrameValues(f, item); } else { FrameEnv(f, item); }
  }

  /** Tracing an object pushes its property values, its prototype and what its
      kind refers to, and nothing else. */
  lemma ObjectHoldsAre(o: Obj, item: WorkItem)
    ensures ObjectHolds(o, item) <==>
      || (exists name :: name in o.properties && item == OfValue(o.properties[name]))
      || (o.prototype.Some? && item == OfValue(JSValue.Object(o.prototype.value)))
      || (o.kind.ArrayData? && exists i :: 0 <= i < |o.kind.elements| && item == OfValue(o.kind.elements[i]))
      || (o.kind.Closure? && item == OfEnv(o.kind.data.env))
      || (o.kind.BoundFunction? &&
            (item == OfValue(JSValue.Function(o.kind.target)) || item == OfValue(o.kind.thisArg)
             || exists i :: 0 <= i < |o.kind.args| && item == OfValue(o.kind.args[i])))
  {
    if item.OfValue? && item.v in o.properties.Values {
      var name :| name in o.properties && o.properties[name] == item.v;
    }
  }

  // ---------- The roots ----------

  /** The slot is not free afterwards, and holds what it held. */
  ghost predicate Keeps(h: Heap, h': Heap, n: Node) {
    InArena(h, n) ==> InArena(h', n) && !IsFree(h', n) && Content(h', n) == Content(h, n)
  }

  ghost predicate KeepsValue(h: Heap, h': Heap, v: JSValue) {
    match v
    case Object(o) => Keeps(h, h', ObjectNode(o))
    case Function(o) => Keeps(h, h', ObjectNode(o))
    case Array(o) => Keeps(h, h', ObjectNode(o))
    case Handler(x) => Keeps(h, h', HandlerNode(x))
    case Continuation(k, e) => Keeps(h, h', ContNode(k)) && Keeps(h, h', EnvNode(e))
    case _ => true
  }

  ghost predicate KeepsRegs(h: Heap, h': Heap, r: Regs) {
    && Keeps(h, h', EnvNode(r.env)) && Keeps(h, h', ContNode(r.cont))
    && match r.control
       case Value(v) => KeepsValue(h, h', v)
       case Returning(v) => KeepsValue(h, h', v)
       case Halted(v) => KeepsValue(h, h', v)
       case Suspend(_, args) => forall i :: 0 <= i < |args| ==> KeepsValue(h, h', args[i])
       case _ => true
  }

  /** The machine's registers and globals, every fiber's registers, and the result
      of every fiber that completed. */
  ghost predicate KeepsRoots(h: Heap, h': Heap, regs: Regs, fibers: seq<Fiber>) {
    && KeepsRegs(h, h', regs)
    && (forall name :: name in h.globals ==> KeepsValue(h, h', h.globals[name]))
    && forall i :: 0 <= i < |fibers| ==>
         && KeepsRegs(h, h', fibers[i].regs)
         && (fibers[i].status.Completed? ==> KeepsValue(h, h', fibers[i].status.v))
  }

  /** A slot that a root item stands for is kept. */
  lemma ItemKept(h: Heap, roots: seq<WorkItem>, kept: set<Node>, h': Heap, item: WorkItem)
    requires Reachable(h, roots, kept) && Swept(h, kept, h') && item in roots
    ensures forall n :: n in Targets(item) ==> n in kept && Keeps(h, h', n)
  {
    hide Holds, FreedExactly, Targets;
    var i :| 0 <= i < |roots| && roots[i] == item;
    SweptHolds(h, kept, h');
    forall n | n in Targets(item) ensures n in kept && Keeps(h, h', n) { assert n in kept; }
  }

  lemma ValueKept(h: Heap, roots: seq<WorkItem>, kept: set<Node>, h': Heap, v: JSValue)
    requires Reachable(h, roots, kept) && Swept(h, kept, h') && OfValue(v) in roots
    ensures KeepsValue(h, h', v)
  {
    hide Reachable, Swept, Keeps;
    ItemKept(h, roots, kept, h', OfValue(v));
    var targets := Targets(OfValue(v));
    match v {
      case Object(o) => assert ObjectNode(o) in targets;
      case Function(o) => assert ObjectNode(o) in targets;
      case Array(o) => assert ObjectNode(o) in targets;
      case Handler(x) => assert HandlerNode(x) in targets;
      case Continuation(k, e) => assert ContNode(k) in targets && EnvNode(e) in targets;
      case _ =>
    }
  }

  lemma RegsKept(h: Heap, roots: seq<WorkItem>, kept: set<Node>, h': Heap, r: Regs)
    requires Reachable(h, roots, kept) && Swept(h, kept, h') && forall item :: item in RegsItems(r) ==> item in roots
    ensures KeepsRegs(h, h', r)
  {
    hide Reachable, Swept, Keeps, KeepsValue;
    var items := RegsItems(r);
    assert items[|items| - 2] == OfEnv(r.env) && items[|items| - 1] == OfCont(r.cont);
    ItemKept(h, roots, kept, h', OfEnv(r.env));
    ItemKept(h, roots, kept, h', OfCont(r.cont));
    assert EnvNode(r.env) in Targets(OfEnv(r.env)) && ContNode(r.cont) in Targets(OfCont(r.cont));
    match r.control {
      case Value(v) => assert items[0] == OfValue(v); ValueKept(h, roots, kept, h', v);
      case Returning(v) => assert items[0] == OfValue(v); ValueKept(h, roots, kept, h', v);
      case Halted(v) => assert items[0] == OfValue(v); ValueKept(h, roots, kept, h', v);
      case Suspend(_, args) =>
        forall i | 0 <= i < |args| ensures KeepsValue(h, h', args[i]) {
          assert items[i] == OfValue(args[i]);
          ValueKept(h, roots, kept, h', args[i]);
        }
      case _ =>
    }
  }

  lemma {:induction false} FiberItemsIn(fs: seq<Fiber>, i: nat, item: WorkItem)
    requires i < |fs| && item in FiberItems(fs[i])
    ensures item in FibersItems(fs)
  {
    hide FiberItems;
    if i < |fs| - 1 {
      FiberItemsIn(fs[..|fs| - 1], i, item);
    }
  }

  /** A collection frees nothing that a register, a global, a fiber's registers or a
      completed fiber's result names, and changes none of it. */
  lemma CollectKeepsRoots(
      h: Heap, regs: Regs, order: seq<JSValue>, fibers: seq<Fiber>, kept: set<Node>, h': Heap)
    requires forall v :: v in order <==> v in h.globals.Values
    requires Reachable(h, RootItems(regs, order, fibers), kept) && Swept(h, kept, h')
    ensures KeepsRoots(h, h', regs, fibers)
  {
    hide Reachable, Swept, KeepsRegs, KeepsValue, RegsItems;
    var roots := RootItems(regs, order, fibers);
    RegsKept(h, roots, kept, h', regs);
    ValueItemsList(order);
    forall name | name in h.globals ensures KeepsValue(h, h', h.globals[name]) {
      assert h.globals[name] in order;
      assert OfValue(h.globals[name]) in ValueItems(order);
      ValueKept(h, roots, kept, h', h.globals[name]);
    }
    forall i | 0 <= i < |fibers|
      ensures KeepsRegs(h, h', fibers[i].regs)
      ensures fibers[i].status.Completed? ==> KeepsValue(h, h', fibers[i].status.v)
    {
      forall item | item in FiberItems(fibers[i]) ensures item in roots { FiberItemsIn(fibers, i, item); }
      RegsKept(h, roots, kept, h', fibers[i].regs);
      if fibers[i].status.Completed? {
        assert OfValue(fibers[i].status.v) in FiberItems(fibers[i]);
        ValueKept(h, roots, kept, h', fibers[i].status.v);
      }
    }
  }

  // ---------- What the program still sees, however many slots are reused ----------

  /** Closed slots that exist in both heaps, with the same contents. */
  ghost predicate Preserved(h: Heap, h': Heap, kept: set<Node>) {
    && Closed(h, kept)
    && forall n :: n in kept ==> InArena(h, n) && InArena(h', n) && Content(h', n) == Content(h, n)
  }

  /** Nothing reachable dangles. */
  lemma ReachableExist(h: Heap, roots: seq<WorkItem>, kept: set<Node>)
    requires Reachable(h, roots, kept) && NoDangling(h)
    requires forall i :: 0 <= i < |roots| ==> Resolves(h, roots[i])
    ensures forall n :: n in kept ==> InArena(h, n)
  {
    hide Holds, Targets, InArena;
    var existing := set n | n in kept && InArena(h, n);
    assert Covers(roots, existing);
    assert Closed(h, existing);
  }

  /** A collection from the registers, the globals and the fibers, and then any
      allocations. */
  lemma CollectedThenReused(
      h: Heap, regs: Regs, order: seq<JSValue>, fibers: seq<Fiber>, kept: set<Node>, h': Heap, made: seq<Allocation>)
    requires forall v :: v in order <==> v in h.globals.Values
    requires NoDangling(h) && RootsResolve(h, regs, fibers)
    requires Reachable(h, RootItems(regs, order, fibers), kept) && Swept(h, kept, h')
    ensures Preserved(h, AllocateAll(h', made), kept)
  {
    hide NoDangling, RootsResolve, Swept, RootItems, Covers, Closed, Resolves, Content, InArena, AllocateAll;
    var roots := RootItems(regs, order, fibers);
    RootItemsResolve(h, regs, order, fibers);
    ReachableExist(h, roots, kept);
    forall n | n in kept
      ensures InArena(AllocateAll(h', made), n) && Content(AllocateAll(h', made), n) == Content(h, n)
    {
      CollectThenReuse(h, roots, kept, h', made, n);
    }
  }

  lemma KeptObject(h: Heap, h': Heap, kept: set<Node>, o: ObjId)
    requires Preserved(h, h', kept) && ObjectNode(o) in kept
    ensures o < |h.objects.data| && o < |h'.objects.data| && h'.objects.data[o] == h.objects.data[o]
    ensures forall item :: ObjectHolds(h.objects.data[o], item) ==> Targets(item) <= kept
  {
    hide Targets, ObjectHolds;
    assert InArena(h, ObjectNode(o)) && Content(h', ObjectNode(o)) == Content(h, ObjectNode(o));
    forall item | ObjectHolds(h.objects.data[o], item) ensures Targets(item) <= kept {
      assert Holds(h, ObjectNode(o), item);
    }
  }

  /** The value behind a child of an unfolding is kept when its parent is. */
  lemma ChildKept(h: Heap, h': Heap, kept: set<Node>, v: JSValue, hv: HostValue, i: nat)
    requires Preserved(h, h', kept) && Targets(OfValue(v)) <= kept
    requires Outline(h.objects.data, v, hv) && i < Width(hv)
    ensures Outline(h'.objects.data, v, hv)
    ensures ChildValue(h'.objects.data, v, hv, i) == ChildValue(h.objects.data, v, hv, i)
    ensures Targets(OfValue(ChildValue(h.objects.data, v, hv, i))) <= kept
  {
    hide Preserved;
    assert ObjectNode(v.obj) in Targets(OfValue(v));
    KeptObject(h, h', kept, v.obj);
    var o := h.objects.data[v.obj];
    if hv.HArray? {
      assert o.kind.elements[i] in o.kind.elements;
      assert ObjectHolds(o, OfValue(ChildValue(h.objects.data, v, hv, i)));
    } else {
      assert hv.pairs[i].0 in Keys(hv.pairs);
      assert o.properties[hv.pairs[i].0] in o.properties.Values;
      assert ObjectHolds(o, OfValue(ChildValue(h.objects.data, v, hv, i)));
    }
  }

  lemma OutlineKept(h: Heap, h': Heap, kept: set<Node>, v: JSValue, hv: HostValue)
    requires Preserved(h, h', kept) && Targets(OfValue(v)) <= kept
    ensures Outline(h'.objects.data, v, hv) <==> Outline(h.objects.data, v, hv)
  {
    hide Preserved;
    if IsRef(v) {
      assert ObjectNode(v.obj) in Targets(OfValue(v));
      KeptObject(h, h', kept, v.obj);
    }
  }

  /** A kept value unfolds to the same tree, or to none, as before. */
  lemma {:induction false} UnfoldingKept(
      h: Heap, h': Heap, kept: set<Node>, v: JSValue, hv: HostValue, avoid: set<ObjId>)
    requires Preserved(h, h', kept) && Targets(OfValue(v)) <= kept
    ensures Unfolds(h'.objects.data, v, hv, avoid) <==> Unfolds(h.objects.data, v, hv, avoid)
    decreases hv
  {
    hide Preserved, Targets, Outline, ChildValue;
    OutlineKept(h, h', kept, v, hv);
    if IsRef(v) && Outline(h.objects.data, v, hv) {
      forall i | 0 <= i < Width(hv)
        ensures Unfolds(h'.objects.data, ChildValue(h'.objects.data, v, hv, i), Child(hv, i), avoid)
           <==> Unfolds(h.objects.data, ChildValue(h.objects.data, v, hv, i), Child(hv, i), avoid)
      {
        ChildKept(h, h', kept, v, hv, i);
        UnfoldingKept(h, h', kept, ChildValue(h.objects.data, v, hv, i), Child(hv, i), avoid);
      }
    }
  }

  lemma CrossingKept(h: Heap, h': Heap, kept: set<Node>, v: JSValue)
    requires Preserved(h, h', kept) && Targets(OfValue(v)) <= kept
    ensures ToHost(h'.objects.data, v) == ToHost(h.objects.data, v)
  {
    hide Preserved, Targets, Unfolds;
    var a, b := ToHost(h.objects.data, v), ToHost(h'.objects.data, v);
    if a.Some? {
      UnfoldingKept(h, h', kept, v, a.value, {});
      UnfoldingUnique(h'.objects.data, v, a.value, {}, b.value, {});
    } else if b.Some? {
      UnfoldingKept(h, h', kept, v, b.value, {});
    }
  }

  /** From a kept environment every lookup walks the same chain over the same
      bindings. */
  lemma {:induction false} EnvChainKept(h: Heap, h': Heap, kept: set<Node>, e: EnvId, n: nat)
    requires Preserved(h, h', kept) && EnvNode(e) in kept
    ensures Ancestor(h'.envs.data, e, n) == Ancestor(h.envs.data, e, n)
    ensures match Ancestor(h.envs.data, e, n)
            case Some(a) => EnvNode(a) in kept && a < |h.envs.data| && a < |h'.envs.data|
                            && h'.envs.data[a] == h.envs.data[a]
                            && forall name :: name in h.envs.data[a].bindings ==>
                                 Targets(OfValue(h.envs.data[a].bindings[name])) <= kept
            case None => true
    decreases n
  {
    hide Targets, Closed;
    assert InArena(h, EnvNode(e)) && Content(h', EnvNode(e)) == Content(h, EnvNode(e));
    EnvNodeHolds(h, kept, e);
    if n > 0 && h.envs.data[e].parent.Some? {
      EnvChainKept(h, h', kept, h.envs.data[e].parent.value, n - 1);
    }
  }

  lemma EnvNodeHolds(h: Heap, kept: set<Node>, e: EnvId)
    requires Closed(h, kept) && EnvNode(e) in kept && e < |h.envs.data|
    ensures h.envs.data[e].parent.Some? ==> EnvNode(h.envs.data[e].parent.value) in kept
    ensures forall name :: name in h.envs.data[e].bindings ==>
              Targets(OfValue(h.envs.data[e].bindings[name])) <= kept
  {
    var x := h.envs.data[e];
    if x.parent.Some? { ParentLive(h, kept, e); }
    forall name | name in x.bindings ensures Targets(OfValue(x.bindings[name])) <= kept {
      assert x.bindings[name] in x.bindings.Values;
      assert Holds(h, EnvNode(e), OfValue(x.bindings[name]));
    }
  }

  /** The continuation `n` frames out from `k`. */
  function Outward(data: seq<Kont>, k: ContId, n: nat): Option<ContId>
    decreases n
  {
    if n == 0 then Some(k)
    else if k < |data| && data[k].Link? then Outward(data, data[k].k, n - 1)
    else None
  }

  /** From a kept continuation every frame is the one it was, and what occurs in
      a frame is kept too. */
  lemma {:induction false} FramesKept(h: Heap, h': Heap, kept: set<Node>, k: ContId, n: nat)
    requires Preserved(h, h', kept) && ContNode(k) in kept
    ensures Outward(h'.conts.data, k, n) == Outward(h.conts.data, k, n)
    ensures match Outward(h.conts.data, k, n)
            case Some(x) => x < |h.conts.data| && x < |h'.conts.data| && h'.conts.data[x] == h.conts.data[x]
                            && (h.conts.data[x].Link? ==> FrameKept(h.conts.data[x].frame, kept))
            case None => true
    decreases n
  {
    hide Closed, FrameKept;
    assert InArena(h, ContNode(k)) && Content(h', ContNode(k)) == Content(h, ContNode(k));
    if h.conts.data[k].Link? {
      ContNodeHolds(h, kept, k);
      if n > 0 { FramesKept(h, h', kept, h.conts.data[k].k, n - 1); }
    }
  }

  ghost predicate FrameKept(f: Frame, kept: set<Node>) {
    && (forall v :: OccursIn(f, v) ==> Targets(OfValue(v)) <= kept)
    && (!NoEnv(f) ==> EnvNode(f.env) in kept)
  }

  lemma ContNodeHolds(h: Heap, kept: set<Node>, k: ContId)
    requires Closed(h, kept) && ContNode(k) in kept && k < |h.conts.data| && h.conts.data[k].Link?
    ensures ContNode(h.conts.data[k].k) in kept && FrameKept(h.conts.data[k].frame, kept)
  {
    hide KontItems, OccursIn;
    var f, out := h.conts.data[k].frame, h.conts.data[k].k;
    FrameItemsAre(f, out, OfCont(out));
    assert Holds(h, ContNode(k), OfCont(out)) && ContNode(out) in Targets(OfCont(out));
    forall v | OccursIn(f, v) ensures Targets(OfValue(v)) <= kept {
      FrameItemsAre(f, out, OfValue(v));
      assert Holds(h, ContNode(k), OfValue(v));
    }
    if !NoEnv(f) {
      FrameItemsAre(f, out, OfEnv(f.env));
      assert Holds(h, ContNode(k), OfEnv(f.env)) && EnvNode(f.env) in Targets(OfEnv(f.env));
    }
  }

  /** A kept handler's clauses are what they were, and so is its environment. */
  lemma HandlerKept(h: Heap, h': Heap, kept: set<Node>, x: HandlerId)
    requires Preserved(h, h', kept) && HandlerNode(x) in kept
    ensures x < |h.handlers.data| && x < |h'.handlers.data| && h'.handlers.data[x] == h.handlers.data[x]
    ensures EnvNode(h.handlers.data[x].env) in kept
  {
    assert InArena(h, HandlerNode(x)) && Content(h', HandlerNode(x)) == Content(h, HandlerNode(x));
    var item := OfEnv(h.handlers.data[x].env);
    assert Holds(h, HandlerNode(x), item) && EnvNode(h.handlers.data[x].env) in Targets(item);
  }

  // ---------- Joining after a collection ----------

  lemma {:induction false} AllocateAllSnoc(h: Heap, made: seq<Allocation>, a: Allocation)
    ensures AllocateAll(h, made + [a]) == Allocate(AllocateAll(h, made), a).0
    decreases |made|
  {
    if made == [] {
      assert made + [a] == [a];
    } else {
      assert (made + [a])[1..] == made[1..] + [a];
      AllocateAllSnoc(Allocate(h, made[0]).0, made[1..], a);
    }
  }

  /** A fiber that had completed when the heap was collected is joined later,
      after any number of allocations: the joiner gets a new object holding the
      result, and the result reads as it did before the collection. */
  lemma JoinAfterCollection(
      h: Heap, regs: Regs, order: seq<JSValue>, fibers: seq<Fiber>, kept: set<Node>, h': Heap,
      made: seq<Allocation>, i: nat, s: State, args: seq<JSValue>)
    requires forall v :: v in order <==> v in h.globals.Values
    requires NoDangling(h) && RootsResolve(h, regs, fibers)
    requires Reachable(h, RootItems(regs, order, fibers), kept) && Swept(h, kept, h')
    requires i < |fibers| && fibers[i].status.Completed?
    requires HandleJoin.requires(s, args) && s.heap == AllocateAll(h', made)
    requires Arg(args, 0).Int? && Live(s.fibers, AsU32(Arg(args, 0).n))
    requires FiberOf(s.fibers, AsU32(Arg(args, 0).n)).status == fibers[i].status
    ensures HandleJoin(s, args).Resume?
    ensures var t, v := HandleJoin(s, args).s, fibers[i].status.v;
      && t.regs.control.Value? && t.regs.control.v.Object?
      && t.regs.control.v.obj < |t.heap.objects.data|
      && t.heap.objects.data[t.regs.control.v.obj] == Obj(map[Ascii("ok") := v], None, Ordinary)
      && ObjectNode(t.regs.control.v.obj) !in kept
      && ToHost(t.heap.objects.data, v) == ToHost(h.objects.data, v)
  {
    hide NoDangling, RootsResolve, Reachable, Swept, RootItems, FiberItems, Preserved, ToHost, RemoveFiber, Ascii,
         AllocateAll, Live, FiberOf, WellFormed;
    var v := fibers[i].status.v;
    var wrapper := NewObject(Obj(map[Ascii("ok") := v], None, Ordinary));
    AllocateAllSnoc(h', made, wrapper);
    CollectedThenReused(h, regs, order, fibers, kept, h', made + [wrapper]);
    CollectedThenReused(h, regs, order, fibers, kept, h', made);
    ResultIsRoot(h, regs, order, fibers, kept, i);
    CrossingKept(h, AllocateAll(h', made + [wrapper]), kept, v);
    Delivers(s, args, v);
    WrapperIsNew(h, regs, order, fibers, kept, h', made, wrapper);
  }

  lemma ResultIsRoot(h: Heap, regs: Regs, order: seq<JSValue>, fibers: seq<Fiber>, kept: set<Node>, i: nat)
    requires Reachable(h, RootItems(regs, order, fibers), kept)
    requires i < |fibers| && fibers[i].status.Completed?
    ensures Targets(OfValue(fibers[i].status.v)) <= kept
  {
    hide Targets, Closed, RegsItems;
    var item := OfValue(fibers[i].status.v);
    assert item in FiberItems(fibers[i]);
    FiberItemsIn(fibers, i, item);
    var roots := RootItems(regs, order, fibers);
    assert item in roots;
    var j :| 0 <= j < |roots| && roots[j] == item;
  }

  lemma Delivers(s: State, args: seq<JSValue>, v: JSValue)
    requires HandleJoin.requires(s, args) && Arg(args, 0).Int?
    requires Live(s.fibers, AsU32(Arg(args, 0).n))
    requires FiberOf(s.fibers, AsU32(Arg(args, 0).n)).status == Completed(v)
    ensures var r := HandleJoin(s, args);
            var (h, n) := Allocate(s.heap, NewObject(Obj(map[Ascii("ok") := v], None, Ordinary)));
      && r.Resume? && r.s.heap == h && r.s.regs.control == Value(JSValue.Object(n.i)) && n.ObjectNode?
      && n.i < |h.objects.data| && h.objects.data[n.i] == Obj(map[Ascii("ok") := v], None, Ordinary)
  {
    hide Live, FiberOf, WellFormed, SwapRemove, Refunded, Ascii;
  }

  lemma WrapperIsNew(
      h: Heap, regs: Regs, order: seq<JSValue>, fibers: seq<Fiber>, kept: set<Node>, h': Heap,
      made: seq<Allocation>, wrapper: Allocation)
    requires Reachable(h, RootItems(regs, order, fibers), kept) && Swept(h, kept, h')
    requires forall v :: v in order <==> v in h.globals.Values
    requires NoDangling(h) && RootsResolve(h, regs, fibers)
    ensures Allocate(AllocateAll(h', made), wrapper).1 !in kept
  {
    hide NoDangling, RootsResolve, Swept, RootItems, Covers, Closed, Resolves, Content, InArena, AllocateAll, Allocate;
    var n := Allocate(AllocateAll(h', made), wrapper).1;
    if n in kept {
      RootItemsResolve(h, regs, order, fibers);
      ReachableExist(h, RootItems(regs, order, fibers), kept);
      CollectThenReuse(h, RootItems(regs, order, fibers), kept, h', made + [wrapper], n);
      LastHandedOut(h', made, wrapper);
    }
  }

  lemma {:induction false} LastHandedOut(h: Heap, made: seq<Allocation>, a: Allocation)
    ensures HandsOut(h, made + [a], Allocate(AllocateAll(h, made), a).1)
    decreases |made|
  {
    if made == [] {
      assert made + [a] == [a];
    } else {
      assert (made + [a])[1..] == made[1..] + [a];
      LastHandedOut(Allocate(h, made[0]).0, made[1..], a);
    }
  }
}
