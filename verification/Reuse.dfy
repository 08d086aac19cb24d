/** After a collection: freed slots are reused without disturbing any slot that
    was reachable, and environment chains stay acyclic. */
module Reuse {
  import opened Values
  import opened Boundary
  import opened Fibers
  import opened Reachability
  import opened Gc

  datatype Allocation =
    | NewObject(o: Obj)
    | NewEnv(e: Env)
    | NewCont(k: Kont)
    | NewHandler(d: HandlerData)

  function Allocate(h: Heap, a: Allocation): (Heap, Node) {
    match a
    case NewObject(o) => var (s, i) := Alloc(h.objects, o); (h.(objects := s), ObjectNode(i))
    case NewEnv(e) => var (s, i) := Alloc(h.envs, e); (h.(envs := s), EnvNode(i))
    case NewCont(k) => var (s, i) := Alloc(h.conts, k); (h.(conts := s), ContNode(i))
    case NewHandler(d) => var (s, i) := Alloc(h.handlers, d); (h.(handlers := s), HandlerNode(i))
  }

  /** What a slot of `h` contains. */
  ghost function Content(h: Heap, n: Node): Allocation
    requires InArena(h, n)
  {
    match n
    case ObjectNode(i) => NewObject(h.objects.data[i])
    case EnvNode(i) => NewEnv(h.envs.data[i])
    case ContNode(i) => NewCont(h.conts.data[i])
    case HandlerNode(i) => NewHandler(h.handlers.data[i])
  }

  ghost predicate IsFree(h: Heap, n: Node) {
    match n
    case ObjectNode(i) => i in h.objects.free
    case EnvNode(i) => i in h.envs.free
    case ContNode(i) => i in h.conts.free
    case HandlerNode(i) => i in h.handlers.free
  }

  ghost predicate AllClean(h: Heap) {
    Clean(h.objects) && Clean(h.envs) && Clean(h.conts) && Clean(h.handlers)
  }

  /** The live slots: existing, not free, closed under what they hold, with
      well-founded environment chains. */
  ghost predicate LiveSet(h: Heap, live: set<Node>, ranks: map<EnvId, nat>) {
    && AllClean(h) && NoDangling(h) && Closed(h, live)
    && (forall n :: n in live ==> InArena(h, n) && !IsFree(h, n))
    && ChainsDescend(h, live, ranks)
  }

  ghost predicate ChainsDescend(h: Heap, live: set<Node>, ranks: map<EnvId, nat>) {
    forall e: nat :: EnvNode(e) in live && InArena(h, EnvNode(e)) ==>
      && e in ranks
      && (h.envs.data[e].parent.Some? ==>
            h.envs.data[e].parent.value in ranks && ranks[h.envs.data[e].parent.value] < ranks[e])
  }

  /** What the new contents hold. */
  ghost predicate Mentions(a: Allocation, item: WorkItem) {
    match a
    case NewObject(o) => ObjectHolds(o, item)
    case NewEnv(e) => (item.OfValue? && item.v in e.bindings.Values) || (item.OfEnv? && e.parent == Some(item.env))
    case NewCont(k) => item in KontItems(k)
    case NewHandler(d) => item == OfEnv(d.env)
  }

  /** An allocation the running machine can make: it refers to live slots. */
  ghost predicate Refers(a: Allocation, live: set<Node>) {
    forall item :: Mentions(a, item) ==> Targets(item) <= live
  }

  lemma HoldsIsMentions(h: Heap, n: Node, item: WorkItem)
    requires InArena(h, n)
    ensures Holds(h, n, item) <==> Mentions(Content(h, n), item)
  {
  }

  /** Only the slot handed out changes; it was free or new, and is no longer. */
  lemma AllocateFrame(h: Heap, a: Allocation)
    requires AllClean(h)
    ensures var (h', n) := Allocate(h, a);
      && AllClean(h') && InArena(h', n) && Content(h', n) == a && !IsFree(h', n)
      && (IsFree(h, n) || !InArena(h, n))
      && (forall x :: InArena(h, x) ==> InArena(h', x))
      && (forall x :: InArena(h, x) && x != n ==> Content(h', x) == Content(h, x))
      && (forall x :: IsFree(h', x) ==> IsFree(h, x))
  {
    match a {
      case NewObject(o) => AllocGrows(h.objects, o);
      case NewEnv(e) => AllocGrows(h.envs, e);
      case NewCont(k) => AllocGrows(h.conts, k);
      case NewHandler(d) => AllocGrows(h.handlers, d);
    }
  }

  /** Overwriting a live slot in place: bindings, properties and frames
      change, an environment's parent does not. */
  function Store(h: Heap, n: Node, a: Allocation): Heap {
    match (n, a)
    case (ObjectNode(i), NewObject(o)) =>
      if i < |h.objects.data| then h.(objects := h.objects.(data := h.objects.data[i := o])) else h
    case (EnvNode(i), NewEnv(e)) =>
      if i < |h.envs.data| then h.(envs := h.envs.(data := h.envs.data[i := Env(e.bindings, h.envs.data[i].parent)]))
      else h
    case (ContNode(i), NewCont(k)) =>
      if i < |h.conts.data| then h.(conts := h.conts.(data := h.conts.data[i := k])) else h
    case _ => h
  }

  datatype Change =
    | Make(a: Allocation)
    | Rewrite(n: Node, a: Allocation)
    | Sweep(roots: seq<WorkItem>)

  datatype Snap = Snap(heap: Heap, live: set<Node>)

  /** One thing the running program or the collector does to the heap; `live`
      is what the program can still name. */
  ghost predicate Follows(s: Snap, c: Change, t: Snap) {
    match c
    case Make(a) =>
      Refers(a, s.live) && t == Snap(Allocate(s.heap, a).0, s.live + {Allocate(s.heap, a).1})
    case Rewrite(n, a) =>
      n in s.live && Refers(a, s.live) && t == Snap(Store(s.heap, n, a), s.live)
    case Sweep(roots) =>
      Covers(roots, s.live) && Reachable(s.heap, roots, t.live) && Swept(s.heap, t.live, t.heap)
  }

  ghost predicate History(trace: seq<Snap>, changes: seq<Change>) {
    |trace| == |changes| + 1 && forall i :: 0 <= i < |changes| ==> Follows(trace[i], changes[i], trace[i + 1])
  }

  // ---------- Every change keeps the live slots sound ----------

  lemma MakeKeeps(h: Heap, live: set<Node>, ranks: map<EnvId, nat>, a: Allocation) returns (ranks': map<EnvId, nat>)
    requires LiveSet(h, live, ranks) && Refers(a, live)
    ensures LiveSet(Allocate(h, a).0, live + {Allocate(h, a).1}, ranks')
  {
    hide Holds, Targets, Allocate, Mentions, Content, IsFree, InArena, ChainsDescend, Clean;
    AllocateFrame(h, a);
    var (h', n) := Allocate(h, a);
    forall x, item | Holds(h', x, item)
      ensures Resolves(h', item) && (x in live + {n} ==> Targets(item) <= live + {n})
    {
      HoldsOnlyInArena(h', x, item);
      OnlyHandedOut(h, a, x);
      HoldsIsMentions(h', x, item);
      if x != n { HoldsIsMentions(h, x, item); }
    }
    ranks' := RankNew(h, live, ranks, a);
  }

  lemma HoldsOnlyInArena(h: Heap, n: Node, item: WorkItem)
    requires Holds(h, n, item)
    ensures InArena(h, n)
  {
  }

  lemma OnlyHandedOut(h: Heap, a: Allocation, x: Node)
    ensures InArena(Allocate(h, a).0, x) ==> InArena(h, x) || x == Allocate(h, a).1
  {
  }

  /** A new environment ranks above its parent; a reused index loses its old
      rank, which nothing live depends on. */
  lemma RankNew(h: Heap, live: set<Node>, ranks: map<EnvId, nat>, a: Allocation) returns (ranks': map<EnvId, nat>)
    requires LiveSet(h, live, ranks) && Refers(a, live)
    ensures ChainsDescend(Allocate(h, a).0, live + {Allocate(h, a).1}, ranks')
  {
    hide Holds, NoDangling;
    AllocateFrame(h, a);
    var (h', n) := Allocate(h, a);
    if !a.NewEnv? {
      return ranks;
    }
    if a.e.parent.Some? {
      assert Mentions(a, OfEnv(a.e.parent.value));
      assert EnvNode(a.e.parent.value) in Targets(OfEnv(a.e.parent.value));
    }
    ranks' := ranks[n.i := if a.e.parent.Some? then ranks[a.e.parent.value] + 1 else 0];
    forall e: nat | EnvNode(e) in live && h.envs.data[e].parent.Some? ensures h.envs.data[e].parent.value != n.i {
      ParentLive(h, live, e);
    }
  }

  lemma ParentLive(h: Heap, live: set<Node>, e: EnvId)
    requires Closed(h, live) && EnvNode(e) in live && e < |h.envs.data| && h.envs.data[e].parent.Some?
    ensures EnvNode(h.envs.data[e].parent.value) in live
  {
    assert Holds(h, EnvNode(e), OfEnv(h.envs.data[e].parent.value));
    assert EnvNode(h.envs.data[e].parent.value) in Targets(OfEnv(h.envs.data[e].parent.value));
  }

  lemma RewriteKeeps(h: Heap, live: set<Node>, ranks: map<EnvId, nat>, n: Node, a: Allocation)
    requires LiveSet(h, live, ranks) && n in live && Refers(a, live)
    ensures LiveSet(Store(h, n, a), live, ranks)
  {
    hide Targets, Mentions, Holds, IsFree, Store;
    StoreFrame(h, n, a);
    var h' := Store(h, n, a);
    forall x, item | Holds(h', x, item) ensures Resolves(h', item) && (x in live ==> Targets(item) <= live) {
      HoldsOnlyInArena(h', x, item);
      StoreHolds(h, n, a, x, item);
    }
  }

  lemma StoreFrame(h: Heap, n: Node, a: Allocation)
    requires AllClean(h)
    ensures var h' := Store(h, n, a);
      && AllClean(h') && |h'.envs.data| == |h.envs.data|
      && (forall x :: InArena(h', x) <==> InArena(h, x))
      && (forall x :: IsFree(h', x) <==> IsFree(h, x))
      && (forall x :: InArena(h, x) && x != n ==> Content(h', x) == Content(h, x))
      && (forall e: nat :: e < |h.envs.data| ==> h'.envs.data[e].parent == h.envs.data[e].parent)
  {
  }

  lemma StoreHolds(h: Heap, n: Node, a: Allocation, x: Node, item: WorkItem)
    requires Holds(Store(h, n, a), x, item)
    ensures Holds(h, x, item) || (x == n && Mentions(a, item))
  {
    hide ObjectHolds, KontItems;
  }

  lemma SweepKeeps(s: Snap, ranks: map<EnvId, nat>, roots: seq<WorkItem>, t: Snap)
    requires LiveSet(s.heap, s.live, ranks)
    requires Covers(roots, s.live) && Reachable(s.heap, roots, t.live) && Swept(s.heap, t.live, t.heap)
    ensures LiveSet(t.heap, t.live, ranks) && t.live <= s.live
    ensures forall n :: InArena(s.heap, n) && n !in t.live ==> IsFree(t.heap, n)
  {
    hide Targets, Covers, ObjectHolds, KontItems;
    SweptClean(s.heap, t.live, t.heap);
    SweptHolds(s.heap, t.live, t.heap);
  }

  lemma SweptHolds(h: Heap, kept: set<Node>, h': Heap)
    requires Swept(h, kept, h')
    ensures forall n, item :: Holds(h', n, item) <==> Holds(h, n, item)
    ensures forall n :: InArena(h', n) <==> InArena(h, n)
    ensures forall n :: IsFree(h', n) <==> InArena(h, n) && n !in kept
  {
    hide ObjectHolds, KontItems;
  }

  lemma SweptClean(h: Heap, kept: set<Node>, h': Heap)
    requires Swept(h, kept, h')
    ensures AllClean(h')
  {
    hide ObjectSlots, EnvSlots, ContSlots, HandlerSlots;
    ExactIsClean(h'.objects, ObjectSlots(kept));
    ExactIsClean(h'.envs, EnvSlots(kept));
    ExactIsClean(h'.conts, ContSlots(kept));
    ExactIsClean(h'.handlers, HandlerSlots(kept));
  }

  lemma ExactIsClean<T>(a: Slab<T>, kept: set<nat>)
    requires FreedExactly(a.free, |a.data|, kept)
    ensures Clean(a)
  {
    forall i | 0 <= i < |a.free| ensures a.free[i] < |a.data| { assert a.free[i] in a.free; }
  }

  lemma FollowsKeeps(s: Snap, c: Change, t: Snap, ranks: map<EnvId, nat>) returns (ranks': map<EnvId, nat>)
    requires LiveSet(s.heap, s.live, ranks) && Follows(s, c, t)
    ensures LiveSet(t.heap, t.live, ranks')
  {
    hide LiveSet, Refers, Reachable, Swept, Covers;
    match c {
      case Make(a) => ranks' := MakeKeeps(s.heap, s.live, ranks, a);
      case Rewrite(n, a) => RewriteKeeps(s.heap, s.live, ranks, n, a); ranks' := ranks;
      case Sweep(roots) => SweepKeeps(s, ranks, roots, t); ranks' := ranks;
    }
  }

  /** The heap a fresh interpreter starts from, before its first allocation. */
  const EMPTY_HEAP := Heap(Slab([], [], 0), Slab([], [], 0), Slab([], [], 0), Slab([], [], 0), map[])

  /** Over every history of allocations, in-place writes and collections from
      the empty heap: nothing live is free or dangling, and environment chains
      are well-founded although indices are reused. */
  lemma {:induction false} HistoriesKeepLive(trace: seq<Snap>, changes: seq<Change>) returns (ranks: map<EnvId, nat>)
    requires History(trace, changes) && trace[0] == Snap(EMPTY_HEAP, {})
    ensures LiveSet(trace[|trace| - 1].heap, trace[|trace| - 1].live, ranks)
  {
    hide LiveSet, Follows;
    if changes == [] {
      EmptyIsLive();
      return map[];
    }
    var n := |changes| - 1;
    ranks := HistoriesKeepLive(trace[..n + 1], changes[..n]);
    ranks := FollowsKeeps(trace[n], changes[n], trace[n + 1], ranks);
  }

  lemma EmptyIsLive()
    ensures LiveSet(EMPTY_HEAP, {}, map[])
  {
  }

  // ---------- What that buys ----------

  /** The environment `n` parent links up from `e`. */
  function Ancestor(envs: seq<Env>, e: EnvId, n: nat): Option<EnvId>
    decreases n
  {
    if n == 0 then Some(e)
    else if e < |envs| && envs[e].parent.Some? then Ancestor(envs, envs[e].parent.value, n - 1)
    else None
  }

  /** No live environment is its own ancestor. */
  lemma {:induction false} AncestorsDescend(h: Heap, live: set<Node>, ranks: map<EnvId, nat>, e: EnvId, n: nat)
    requires LiveSet(h, live, ranks) && EnvNode(e) in live
    ensures e in ranks
    ensures match Ancestor(h.envs.data, e, n)
            case None => true
            case Some(a) => EnvNode(a) in live && a in ranks && (n > 0 ==> a != e && ranks[a] < ranks[e])
    decreases n
  {
    if n > 0 && h.envs.data[e].parent.Some? {
      ParentLive(h, live, e);
      AncestorsDescend(h, live, ranks, h.envs.data[e].parent.value, n - 1);
    }
  }

  lemma ChainsAcyclic(trace: seq<Snap>, changes: seq<Change>, e: EnvId, n: nat)
    requires History(trace, changes) && trace[0] == Snap(EMPTY_HEAP, {})
    requires EnvNode(e) in trace[|trace| - 1].live && n > 0
    ensures Ancestor(trace[|trace| - 1].heap.envs.data, e, n) != Some(e)
  {
    var ranks := HistoriesKeepLive(trace, changes);
    AncestorsDescend(trace[|trace| - 1].heap, trace[|trace| - 1].live, ranks, e, n);
  }

  /** The slots a run of allocations hands out. */
  ghost predicate HandsOut(h: Heap, made: seq<Allocation>, n: Node)
    decreases |made|
  {
    made != [] && (Allocate(h, made[0]).1 == n || HandsOut(Allocate(h, made[0]).0, made[1..], n))
  }

  function AllocateAll(h: Heap, made: seq<Allocation>): Heap
    decreases |made|
  {
    if made == [] then h else AllocateAll(Allocate(h, made[0]).0, made[1..])
  }

  /** Any slots in use, however many allocations follow: none is handed out
      and none changes. */
  lemma {:induction false} AllocationsSpare(h: Heap, made: seq<Allocation>, n: Node)
    requires AllClean(h) && InArena(h, n) && !IsFree(h, n)
    ensures !HandsOut(h, made, n)
    ensures InArena(AllocateAll(h, made), n) && Content(AllocateAll(h, made), n) == Content(h, n)
    decreases |made|
  {
    if made != [] {
      AllocateFrame(h, made[0]);
      AllocationsSpare(Allocate(h, made[0]).0, made[1..], n);
    }
  }

  /** After a collection, any number of allocations leaves every slot that was
      reachable unchanged and never hands one out. */
  lemma CollectThenReuse(h: Heap, roots: seq<WorkItem>, kept: set<Node>, h': Heap, made: seq<Allocation>, n: Node)
    requires Reachable(h, roots, kept) && Swept(h, kept, h') && n in kept && InArena(h, n)
    ensures !HandsOut(h', made, n)
    ensures InArena(AllocateAll(h', made), n) && Content(AllocateAll(h', made), n) == Content(h, n)
  {
    hide Reachable, FreedExactly;
    SweptClean(h, kept, h');
    SweptHolds(h, kept, h');
    AllocationsSpare(h', made, n);
  }
}
