/** The fiber scheduler (src/runtime.rs) as functions on its state: one loop
    iteration is `Scheduler.Turn`. Preconditions stand for the source's asserts and
    expects, so that `Turn` is defined on every state satisfying its invariant
    says that none of them can fire. */
module Fibers {
  import opened Values
  import opened Fuel
  import opened Boundary

  type FiberId = nat

  datatype FiberStatus =
    | Ready
    | Running
    | BlockedOnHost(effect: Str, args: seq<HostValue>)
    | Completed(v: JSValue)
    | Failed(error: JSError)

  datatype Fiber = Fiber(id: FiberId, regs: Regs, status: FiberStatus, meter: MeterId)

  datatype BuiltinEffect = Print | Fork | Join | Gc | Snapshot

  datatype EffectKind = Builtin(b: BuiltinEffect) | Host

  // ---------- The interpreter, one slice at a time ----------

  /** A machine step either moves on or faults; a fault leaves the control
      register at Undefined (src/cekh.rs:154-155). */
  datatype Step = Stepped(heap: Heap, regs: Regs) | Faulted(heap: Heap, error: JSError)

  /** What the scheduler is run over: any deterministic interpreter step (for
      a given syntax tree), the collector, and whether a snapshot file can be
      written at a given path and step index. */
  datatype Machine = Machine(
    step: (Heap, Regs) -> Step,
    collect: (Heap, Regs, seq<Fiber>) -> Heap,
    disk: (Str, nat) -> bool)

  /** GC aside: collecting changes nothing the program can see. */
  ghost predicate NoCollector(m: Machine) {
    forall h, r, fs :: m.collect(h, r, fs) == h
  }

  datatype SliceEnd =
    | Finished(v: JSValue)
    | Suspended(effect: Str, args: seq<JSValue>)
    | Preempted
    | Crashed(error: JSError)

  datatype Slice = Slice(heap: Heap, regs: Regs, spent: nat, end: SliceEnd)

  /** CEKH::run: step until halted, suspended, faulted or out of allowance. */
  function RunSlice(m: Machine, h: Heap, r: Regs, allowance: nat): Slice
    decreases allowance
  {
    match r.control
    case Halted(v) => Slice(h, r, 0, Finished(v))
    case Suspend(effect, args) => Slice(h, r.(control := Suspend(effect, [])), 0, Suspended(effect, args))
    case _ =>
      if allowance == 0 then Slice(h, r, 0, Preempted)
      else
        match m.step(h, r)
        case Faulted(h', e) => Slice(h', r.(control := Value(Undefined)), 0, Crashed(e))
        case Stepped(h', r') =>
          var rest := RunSlice(m, h', r', allowance - 1);
          rest.(spent := rest.spent + 1)
  }

  predicate Runnable(c: Control) {
    !c.Halted? && !c.Suspend?
  }

  lemma {:induction false} SliceBounds(m: Machine, h: Heap, r: Regs, allowance: nat)
    ensures var sl := RunSlice(m, h, r, allowance);
      && sl.spent <= allowance
      && (sl.end.Preempted? ==> sl.spent == allowance && Runnable(sl.regs.control))
      && (sl.end.Suspended? ==> sl.regs.control == Suspend(sl.end.effect, []))
      && (sl.end.Crashed? ==> sl.regs.control == Value(Undefined))
      && (Runnable(r.control) && allowance > 0 && !sl.end.Crashed? ==> sl.spent > 0)
    decreases allowance
  {
    if Runnable(r.control) && allowance > 0 && m.step(h, r).Stepped? {
      SliceBounds(m, m.step(h, r).heap, m.step(h, r).regs, allowance - 1);
    }
  }

  // ---------- State ----------

  datatype State = State(
    heap: Heap,
    regs: Regs,
    fibers: seq<Fiber>,
    ready: seq<FiberId>,
    current: Option<FiberId>,
    nextId: nat,
    waiters: map<FiberId, seq<FiberId>>,
    effects: map<Str, EffectKind>,
    meters: seq<Meter>,
    quantum: u64,
    steps: nat,
    allocMark: int)

  datatype PendingCall = PendingCall(id: FiberId, effect: Str, args: seq<HostValue>)

  datatype RunOutcome = Done(v: JSValue) | Pending(calls: seq<PendingCall>) | OutOfFuel(spent: nat)

  /** The first fiber with this id, or the length when there is none. */
  function IndexOf(fs: seq<Fiber>, id: FiberId): (i: nat)
    ensures i <= |fs|
    ensures i < |fs| ==> fs[i].id == id
    ensures forall j :: 0 <= j < i ==> fs[j].id != id
  {
    if fs == [] then 0
    else if fs[0].id == id then 0
    else 1 + IndexOf(fs[1..], id)
  }

  predicate Live(fs: seq<Fiber>, id: FiberId) {
    IndexOf(fs, id) < |fs|
  }

  function FiberOf(fs: seq<Fiber>, id: FiberId): (f: Fiber)
    requires Live(fs, id)
    ensures f.id == id
  {
    fs[IndexOf(fs, id)]
  }

  function SetFiber(fs: seq<Fiber>, f: Fiber): seq<Fiber>
    requires Live(fs, f.id)
  {
    fs[IndexOf(fs, f.id) := f]
  }

  /** Vec::swap_remove. */
  function SwapRemove(fs: seq<Fiber>, i: nat): seq<Fiber>
    requires i < |fs|
  {
    var last := |fs| - 1;
    if i == last then fs[..last] else fs[..last][i := fs[last]]
  }

  predicate HasCurrent(s: State) {
    s.current.Some? && Live(s.fibers, s.current.value)
  }

  function Current(s: State): Fiber
    requires HasCurrent(s)
  {
    FiberOf(s.fibers, s.current.value)
  }

  // ---------- The scheduler's operations ----------

  function PendingCalls(fs: seq<Fiber>): seq<PendingCall> {
    if fs == [] then []
    else
      var rest := PendingCalls(fs[1..]);
      match fs[0].status
      case BlockedOnHost(effect, args) => [PendingCall(fs[0].id, effect, args)] + rest
      case _ => rest
  }

  /** A completed root's recorded result, else the one this entry saw. */
  function RootResult(s: State, main: JSValue): JSValue {
    if Live(s.fibers, 0) && FiberOf(s.fibers, 0).status.Completed? then FiberOf(s.fibers, 0).status.v else main
  }

  function SelectNext(s: State): State
    requires s.ready != [] && Live(s.fibers, s.ready[0])
    requires FiberOf(s.fibers, s.ready[0]).status.Ready?
  {
    var f := FiberOf(s.fibers, s.ready[0]);
    s.(current := Some(f.id), ready := s.ready[1..], regs := f.regs,
       fibers := SetFiber(s.fibers, f.(status := Running)))
  }

  function SaveCurrent(s: State): State
    requires HasCurrent(s)
  {
    s.(fibers := SetFiber(s.fibers, Current(s).(regs := s.regs, status := Ready)))
  }

  function Unblock(s: State, id: FiberId, v: JSValue): State
    requires Live(s.fibers, id)
  {
    var f := FiberOf(s.fibers, id);
    s.(fibers := SetFiber(s.fibers, f.(regs := f.regs.(control := Value(v)), status := Ready)),
       ready := s.ready + [id])
  }

  /** {ok: v} or {err: v}, freshly allocated for each joiner. */
  function JoinResult(h: Heap, ok: bool, v: JSValue): (Heap, JSValue) {
    var key := if ok then Ascii("ok") else Ascii("err");
    var (objects, id) := Alloc(h.objects, Obj(map[key := v], None, Ordinary));
    (h.(objects := objects), JSValue.Object(id))
  }

  function DeliverOne(s: State, joiner: FiberId, ok: bool, v: JSValue): State
    requires Live(s.fibers, joiner)
  {
    var (h, x) := JoinResult(s.heap, ok, v);
    Unblock(s.(heap := h), joiner, x)
  }

  /** Hand a finished fiber's fate to each of its joiners, in order. */
  function Deliver(s: State, joiners: seq<FiberId>, ok: bool, v: JSValue): State
    requires forall w :: w in joiners ==> Live(s.fibers, w)
    decreases |joiners|
  {
    if joiners == [] then s
    else
      DeliverOneWakes(s, joiners[0], ok, v);
      Deliver(DeliverOne(s, joiners[0], ok, v), joiners[1..], ok, v)
  }

  /** Drop a fiber; the last holder of a meter returns its leftover. */
  function RemoveFiber(s: State, id: FiberId): State
    requires Live(s.fibers, id) ==> FiberOf(s.fibers, id).meter < |s.meters|
    requires WellFormed(s.meters)
  {
    var pos := IndexOf(s.fibers, id);
    if pos == |s.fibers| then s
    else
      var meter := s.fibers[pos].meter;
      var shared := exists i :: 0 <= i < |s.fibers| && s.fibers[i].id != id && s.fibers[i].meter == meter;
      s.(meters := if shared then s.meters else Refunded(s.meters, meter),
         fibers := SwapRemove(s.fibers, pos))
  }

  /** The current fiber ends, completed or failed. With joiners it is consumed
      at once; otherwise it stays for a later join. */
  function Finish(s: State, status: FiberStatus, ok: bool, v: JSValue): State
    requires HasCurrent(s) && WellFormed(s.meters) && Current(s).meter < |s.meters|
    requires s.current.value in s.waiters ==>
               forall w :: w in s.waiters[s.current.value] ==> Live(s.fibers, w)
  {
    var id := s.current.value;
    var ended := Current(s).(status := status);
    var s1 := s.(fibers := SetFiber(s.fibers, ended));
    SetFiberLive(s.fibers, ended);
    if id in s.waiters then
      var s2 := Deliver(s1.(waiters := s.waiters - {id}), s.waiters[id], ok, v);
      DeliverKeeps(s1.(waiters := s.waiters - {id}), s.waiters[id], ok, v);
      RemoveFiber(s2, id)
    else s1
  }

  function Complete(s: State, v: JSValue): State
    requires HasCurrent(s) && WellFormed(s.meters) && Current(s).meter < |s.meters|
    requires s.current.value in s.waiters ==>
               forall w :: w in s.waiters[s.current.value] ==> Live(s.fibers, w)
  {
    Finish(s, Completed(v), true, v)
  }

  function Fail(s: State, e: JSError): State
    requires HasCurrent(s) && WellFormed(s.meters) && Current(s).meter < |s.meters|
    requires s.current.value in s.waiters ==>
               forall w :: w in s.waiters[s.current.value] ==> Live(s.fibers, w)
  {
    Finish(s, Failed(e), false, String(Display(e)))
  }

  // ---------- Effects ----------

  datatype EffectResult =
    | Resume(s: State)
    | Block(s: State)
    | Spawned(s: State, id: FiberId)
    | Error(s: State, error: JSError)

  const GC_THRESHOLD := 1000

  function Collect(m: Machine, s: State): State {
    var h := m.collect(s.heap, s.regs, s.fibers);
    s.(heap := h, allocMark := TotalAllocations(h))
  }

  function CollectIfDue(m: Machine, s: State): State {
    if TotalAllocations(s.heap) - s.allocMark > GC_THRESHOLD then Collect(m, s) else s
  }

  function Arg(args: seq<JSValue>, i: nat): JSValue {
    if i < |args| then args[i] else Undefined
  }

  /** Fork's options: None is the parent's meter, Some(n) a carve of n. */
  function ForkFuel(h: Heap, options: JSValue): Result<Option<u64>, JSError> {
    match options
    case Undefined => Ok(None)
    case Object(id) =>
      if id >= |h.objects.data| then Err(InternalError(Ascii("Invalid options object")))
      else
        var props := h.objects.data[id].properties;
        if Ascii("fuel") !in props then Ok(None)
        else (match props[Ascii("fuel")]
              case Undefined => Ok(None)
              case Int(n) =>
                if n >= 0 then Ok(Some(n))
                else Err(TypeError(Ascii("Fork: fuel must be a non-negative integer")))
              case _ => Err(TypeError(Ascii("Fork: fuel must be a non-negative integer"))))
    case _ => Err(TypeError(Ascii("Fork: options must be an object")))
  }

  function Spawn(s: State, regs: Regs, meter: MeterId): State {
    s.(fibers := s.fibers + [Fiber(s.nextId, regs, Ready, meter)],
       ready := s.ready + [s.nextId],
       nextId := s.nextId + 1)
  }

  function HandleFork(s: State, args: seq<JSValue>): EffectResult
    requires HasCurrent(s) && Current(s).meter < |s.meters|
  {
    match Arg(args, 0)
    case Function(f) =>
      if f >= |s.heap.objects.data| then Error(s, InternalError(Ascii("Invalid function object")))
      else (
        match s.heap.objects.data[f].kind
        case Closure(data) =>
          var control := if data.exprBody.Some? then Expr(data.exprBody.value) else Stmt(data.body);
          var (conts, cont) := Alloc(s.heap.conts, Halt);
          var s1 := s.(heap := s.heap.(conts := conts));
          var regs := Regs(control, cont, data.env);
          var parent := Current(s).meter;
          (match ForkFuel(s1.heap, Arg(args, 1))
           case Err(e) => Error(s1, e)
           case Ok(None) => Spawned(Spawn(s1, regs, parent), s.nextId)
           case Ok(Some(n)) =>
             var carved := Carved(s1.meters, parent, n);
             if carved.None? then Error(s1, Message(Ascii("Fork: insufficient fuel")))
             else Spawned(Spawn(s1.(meters := carved.value), regs, |s.meters|), s.nextId))
        case _ => Error(s, TypeError(Ascii("Fork: not a function"))))
    case _ => Error(s, TypeError(Ascii("Fork: expected function")))
  }

  /** `id as u32` on an i32. */
  function AsU32(n: i32): nat {
    if n >= 0 then n else n + 0x1_0000_0000
  }

  /** `id as i32` on a u32. */
  function AsI32(n: nat): i32 {
    var m := n % 0x1_0000_0000;
    if m < 0x8000_0000 then m else m - 0x1_0000_0000
  }

  function AddWaiter(w: map<FiberId, seq<FiberId>>, target: FiberId, id: FiberId): map<FiberId, seq<FiberId>> {
    w[target := (if target in w then w[target] else []) + [id]]
  }

  function HandleJoin(s: State, args: seq<JSValue>): EffectResult
    requires HasCurrent(s) && WellFormed(s.meters)
    requires forall id :: Live(s.fibers, id) ==> FiberOf(s.fibers, id).meter < |s.meters|
  {
    match Arg(args, 0)
    case Int(n) =>
      var target := AsU32(n);
      if !Live(s.fibers, target) then Error(s, InternalError(Ascii("Join: fiber not found")))
      else (
        match FiberOf(s.fibers, target).status
        case Completed(v) =>
          var (h, x) := JoinResult(s.heap, true, v);
          Resume(RemoveFiber(s.(heap := h, regs := s.regs.(control := Value(x))), target))
        case Failed(e) =>
          var (h, x) := JoinResult(s.heap, false, String(Display(e)));
          Resume(RemoveFiber(s.(heap := h, regs := s.regs.(control := Value(x))), target))
        case _ =>
          Block(SaveCurrent(s.(waiters := AddWaiter(s.waiters, target, s.current.value)))))
    case _ => Error(s, TypeError(Ascii("Join: expected fiber id")))
  }

  ghost function HostArgs(objs: seq<Obj>, args: seq<JSValue>): Option<seq<HostValue>> {
    if args == [] then Some([])
    else
      var front := HostArgs(objs, args[..|args| - 1]);
      var last := ToHost(objs, args[|args| - 1]);
      if front.Some? && last.Some? then Some(front.value + [last.value]) else None
  }

  const CANNOT_CROSS: JSError := Message(Ascii("host boundary: value cannot cross"))

  /** Arguments are converted when the fiber blocks, so that what the host sees
      cannot change afterwards. */
  ghost function HandleHost(s: State, effect: Str, args: seq<JSValue>): EffectResult
    requires HasCurrent(s)
  {
    var hostArgs := HostArgs(s.heap.objects.data, args);
    if hostArgs.None? then Error(s, CANNOT_CROSS)
    else
      Block(s.(fibers := SetFiber(s.fibers,
        Current(s).(regs := s.regs, status := BlockedOnHost(effect, hostArgs.value)))))
  }

  /** The fiber is saved as it would wake from the snapshot, so its stored
      status becomes Ready although it stays current. */
  function HandleSnapshot(m: Machine, s: State, args: seq<JSValue>): EffectResult
    requires HasCurrent(s)
  {
    match Arg(args, 0)
    case String(path) =>
      var saved := SaveCurrent(s.(regs := s.regs.(control := Value(String(Ascii("restored"))))));
      if m.disk(path, s.steps)
      then Resume(saved.(regs := s.regs.(control := Value(String(Ascii("saved"))))))
      else Error(saved, Message(Ascii("Snapshot: cannot write")))
    case _ => Error(s, TypeError(Ascii("Snapshot: expected file path string")))
  }

  function Continued(s: State, v: JSValue): State {
    s.(regs := s.regs.(control := Value(v)))
  }

  ghost function HandleEffect(m: Machine, s0: State, effect: Str, args: seq<JSValue>): EffectResult
    requires HasCurrent(s0) && WellFormed(s0.meters)
    requires forall id :: Live(s0.fibers, id) ==> FiberOf(s0.fibers, id).meter < |s0.meters|
  {
    var s := CollectIfDue(m, s0);
    if effect !in s.effects then Error(s, Message(Ascii("effect is not handled and not granted")))
    else
      match s.effects[effect]
      case Host => HandleHost(s, effect, args)
      case Builtin(Print) => Resume(Continued(s, Undefined))
      case Builtin(Fork) => HandleFork(s, args)
      case Builtin(Join) => HandleJoin(s, args)
      case Builtin(Gc) => Resume(Continued(Collect(m, s), Undefined))
      case Builtin(Snapshot) => HandleSnapshot(m, s, args)
  }

  // ---------- Small facts the definitions above rest on ----------

  lemma {:induction false} IndexOfSame(fs: seq<Fiber>, gs: seq<Fiber>, id: FiberId)
    requires |fs| == |gs| && forall i :: 0 <= i < |fs| ==> fs[i].id == gs[i].id
    ensures IndexOf(fs, id) == IndexOf(gs, id)
  {
    if fs != [] && fs[0].id != id {
      IndexOfSame(fs[1..], gs[1..], id);
    }
  }

  lemma SetFiberLive(fs: seq<Fiber>, f: Fiber)
    requires Live(fs, f.id)
    ensures forall id :: Live(SetFiber(fs, f), id) <==> Live(fs, id)
    ensures forall id :: Live(fs, id) ==>
              FiberOf(SetFiber(fs, f), id) == if id == f.id then f else FiberOf(fs, id)
  {
    forall id ensures IndexOf(SetFiber(fs, f), id) == IndexOf(fs, id) {
      IndexOfSame(fs, SetFiber(fs, f), id);
    }
  }

  /** `gs` is `fs` with the fibers in `woken` made ready with a value. */
  ghost predicate Woken(fs: seq<Fiber>, gs: seq<Fiber>, woken: seq<FiberId>) {
    && (forall id :: Live(gs, id) <==> Live(fs, id))
    && (forall id :: Live(fs, id) ==>
          if id in woken
          then FiberOf(gs, id).status.Ready? && FiberOf(gs, id).regs.control.Value?
               && FiberOf(gs, id).meter == FiberOf(fs, id).meter
          else FiberOf(gs, id) == FiberOf(fs, id))
  }

  ghost predicate SameIds(fs: seq<Fiber>, gs: seq<Fiber>) {
    |fs| == |gs| && forall i :: 0 <= i < |fs| ==> fs[i].id == gs[i].id && fs[i].meter == gs[i].meter
  }

  lemma DeliverOneWakes(s: State, joiner: FiberId, ok: bool, v: JSValue)
    requires Live(s.fibers, joiner)
    ensures Delivered(s, DeliverOne(s, joiner, ok, v), [joiner])
  {
    var t := DeliverOne(s, joiner, ok, v);
    SetFiberLive(s.fibers, t.fibers[IndexOf(s.fibers, joiner)]);
  }

  /** Nothing but the heap, the queue and the woken fibers' control differs. */
  ghost predicate Delivered(s: State, t: State, joiners: seq<FiberId>) {
    && t == s.(heap := t.heap, fibers := t.fibers, ready := s.ready + joiners)
    && SameIds(s.fibers, t.fibers) && Woken(s.fibers, t.fibers, joiners)
  }

  lemma DeliveredTwice(s: State, mid: State, t: State, w: FiberId, rest: seq<FiberId>)
    requires Delivered(s, mid, [w]) && Delivered(mid, t, rest)
    ensures Delivered(s, t, [w] + rest)
  {
    assert mid.ready + rest == s.ready + ([w] + rest);
  }

  lemma {:induction false} DeliverKeeps(s: State, joiners: seq<FiberId>, ok: bool, v: JSValue)
    requires forall w :: w in joiners ==> Live(s.fibers, w)
    ensures Delivered(s, Deliver(s, joiners, ok, v), joiners)
    decreases |joiners|
  {
    if joiners != [] {
      var mid := DeliverOne(s, joiners[0], ok, v);
      DeliverOneWakes(s, joiners[0], ok, v);
      DeliverKeeps(mid, joiners[1..], ok, v);
      DeliveredTwice(s, mid, Deliver(mid, joiners[1..], ok, v), joiners[0], joiners[1..]);
      assert joiners == [joiners[0]] + joiners[1..];
    } else {
      assert s.ready + joiners == s.ready;
    }
  }
}
