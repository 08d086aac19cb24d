/** The heap as a graph over four arenas, and what the collector must mark:
    the least set of slots closed from the roots (src/gc.rs:160-439). */
module Reachability {
  import opened Values
  import opened Fibers

  datatype Node = ObjectNode(i: nat) | EnvNode(i: nat) | ContNode(i: nat) | HandlerNode(i: nat)

  datatype WorkItem = OfValue(v: JSValue) | OfEnv(env: EnvId) | OfCont(cont: ContId)

  /** The slots a work item stands for; strings and scalars stand for none. */
  ghost function Targets(item: WorkItem): set<Node> {
    match item
    case OfEnv(e) => {EnvNode(e)}
    case OfCont(k) => {ContNode(k)}
    case OfValue(Object(o)) => {ObjectNode(o)}
    case OfValue(Array(o)) => {ObjectNode(o)}
    case OfValue(Function(o)) => {ObjectNode(o)}
    case OfValue(Handler(h)) => {HandlerNode(h)}
    case OfValue(Continuation(k, e)) => {ContNode(k), EnvNode(e)}
    case _ => {}
  }

  function ValueItems(vs: seq<JSValue>): seq<WorkItem> {
    seq(|vs|, i requires 0 <= i < |vs| => OfValue(vs[i]))
  }

  /** The values and environment a frame holds. */
  function FrameItems(f: Frame): seq<WorkItem> {
    match f
    case UnaryK(_) => []
    case BinaryLeftK(_, _, env) => [OfEnv(env)]
    case BinaryRightK(_, left) => [OfValue(left)]
    case AndK(_, env) => [OfEnv(env)]
    case OrK(_, env) => [OfEnv(env)]
    case NullishK(_, env) => [OfEnv(env)]
    case MemberK(_) => []
    case IndexObjK(_, env) => [OfEnv(env)]
    case IndexKeyK(obj) => [OfValue(obj)]
    case AssignVarK(_, env) => [OfEnv(env)]
    case UpdateVarK(_, _, _, env) => [OfEnv(env)]
    case AssignMemberObjK(_, _, env) => [OfEnv(env)]
    case AssignMemberValK(obj, _) => [OfValue(obj)]
    case AssignIndexObjK(_, _, env) => [OfEnv(env)]
    case AssignIndexKeyK(obj, _, env) => [OfValue(obj), OfEnv(env)]
    case AssignIndexValK(obj, key) => [OfValue(obj), OfValue(key)]
    case IfK(_, _, env) => [OfEnv(env)]
    case CondK(_, _, env) => [OfEnv(env)]
    case WhileK(_, _, env) => [OfEnv(env)]
    case WhileBodyK(_, _, env) => [OfEnv(env)]
    case ForTestK(_, _, _, env) => [OfEnv(env)]
    case ForTestResultK(_, _, _, env) => [OfEnv(env)]
    case ForBodyK(_, _, _, env) => [OfEnv(env)]
    case ForUpdateK(_, _, _, env) => [OfEnv(env)]
    case CalleeK(_, _, env) => [OfEnv(env)]
    case ArgsK(callee, done, _, _, _, env) => [OfValue(callee)] + ValueItems(done) + [OfEnv(env)]
    case ReturnK(env) => [OfEnv(env)]
    case ReturnExprK => []
    case ArrayK(done, _, _, _, env) => ValueItems(done) + [OfEnv(env)]
    case ObjectK(pairs, _, _, _, env) => ValueItems(Seconds(pairs)) + [OfEnv(env)]
    case LetK(_, env) => [OfEnv(env)]
    case ConstK(_, env) => [OfEnv(env)]
    case VarK(_, env) => [OfEnv(env)]
    case SeqK(_, _, _, env) => [OfEnv(env)]
    case ExprStmtK => []
    case BlockK(_, _, _, _, env) => [OfEnv(env)]
    case MatchK(_, _, _, env) => [OfEnv(env)]
    case HandlerK(_, _, env, _, _) => [OfEnv(env)]
    case PerformArgsK(_, done, _, _, _, env) => ValueItems(done) + [OfEnv(env)]
    case HandleWithK(_, env) => [OfEnv(env)]
  }

  function Seconds<A, B>(ps: seq<(A, B)>): seq<B> {
    seq(|ps|, i requires 0 <= i < |ps| => ps[i].1)
  }

  function KontItems(k: Kont): seq<WorkItem> {
    match k
    case Halt => []
    case Link(f, outer) => FrameItems(f) + [OfCont(outer)]
  }

  /** What tracing a slot pushes; bindings and properties come in no order. */
  ghost function Holds(h: Heap, n: Node, item: WorkItem): bool {
    match n
    case ObjectNode(i) =>
      i < |h.objects.data| && ObjectHolds(h.objects.data[i], item)
    case EnvNode(i) =>
      i < |h.envs.data|
      && ((item.OfValue? && item.v in h.envs.data[i].bindings.Values)
          || (item.OfEnv? && h.envs.data[i].parent == Some(item.env)))
    case ContNode(i) => i < |h.conts.data| && item in KontItems(h.conts.data[i])
    case HandlerNode(i) => i < |h.handlers.data| && item == OfEnv(h.handlers.data[i].env)
  }

  ghost predicate ObjectHolds(o: Obj, item: WorkItem) {
    || (item.OfValue? && item.v in o.properties.Values)
    || (item.OfValue? && item.v.Object? && o.prototype == Some(item.v.obj))
    || (match o.kind
        case ArrayData(els) => item.OfValue? && item.v in els
        case Closure(data) => item == OfEnv(data.env)
        case BoundFunction(target, thisArg, args) =>
          item.OfValue? && (item.v == JSValue.Function(target) || item.v == thisArg || item.v in args)
        case _ => false)
  }

  ghost predicate InArena(h: Heap, n: Node) {
    match n
    case ObjectNode(i) => i < |h.objects.data|
    case EnvNode(i) => i < |h.envs.data|
    case ContNode(i) => i < |h.conts.data|
    case HandlerNode(i) => i < |h.handlers.data|
  }

  /** Every slot an item stands for exists. */
  ghost predicate Resolves(h: Heap, item: WorkItem) {
    forall n :: n in Targets(item) ==> InArena(h, n)
  }

  /** No slot holds a dangling id. */
  ghost predicate NoDangling(h: Heap) {
    forall n, item :: Holds(h, n, item) ==> Resolves(h, item)
  }

  ghost predicate Covers(items: seq<WorkItem>, marked: set<Node>) {
    forall i :: 0 <= i < |items| ==> Targets(items[i]) <= marked
  }

  ghost predicate Closed(h: Heap, marked: set<Node>) {
    forall n, item :: n in marked && Holds(h, n, item) ==> Targets(item) <= marked
  }

  /** `marked` is the least closed set that covers the roots. */
  ghost predicate Reachable(h: Heap, roots: seq<WorkItem>, marked: set<Node>) {
    && Covers(roots, marked) && Closed(h, marked)
    && forall c :: Covers(roots, c) && Closed(h, c) ==> marked <= c
  }

  // ---------- The root set (src/gc.rs:75-141) ----------

  function ControlItems(c: Control): seq<WorkItem> {
    match c
    case Value(v) => [OfValue(v)]
    case Returning(v) => [OfValue(v)]
    case Halted(v) => [OfValue(v)]
    case Suspend(_, args) => ValueItems(args)
    case _ => []
  }

  function RegsItems(r: Regs): seq<WorkItem> {
    ControlItems(r.control) + [OfEnv(r.env), OfCont(r.cont)]
  }

  /** A completed fiber's result lives only in its status. */
  function FiberItems(f: Fiber): seq<WorkItem> {
    RegsItems(f.regs) + (if f.status.Completed? then [OfValue(f.status.v)] else [])
  }

  function FibersItems(fs: seq<Fiber>): seq<WorkItem> {
    if fs == [] then [] else FibersItems(fs[..|fs| - 1]) + FiberItems(fs[|fs| - 1])
  }

  /** The interpreter's registers, its globals in some order, and the fibers. */
  function RootItems(r: Regs, globals: seq<JSValue>, fs: seq<Fiber>): seq<WorkItem> {
    RegsItems(r) + ValueItems(globals) + FibersItems(fs)
  }
}
