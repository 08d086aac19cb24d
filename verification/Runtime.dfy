/** The runtime object (src/runtime.rs): its methods overwrite fields step by
    step, and each is proved to compute the scheduler function of its name. */
module RuntimeObject {
  import opened Values
  import opened Fuel
  import opened Boundary
  import opened Fibers
  import opened Placement
  import opened Scheduler
  import opened Runs
  import opened Entries

  /** How one loop iteration ended. */
  datatype TurnEnd = GoOn(main: JSValue) | Returned(outcome: RunOutcome) | Raised(error: JSError)

  datatype EffectOutcome = DidResume | DidBlock | DidSpawn(id: FiberId) | DidFail(error: JSError)

  ghost function Kind(r: EffectResult): EffectOutcome {
    match r
    case Resume(_) => DidResume
    case Block(_) => DidBlock
    case Spawned(_, id) => DidSpawn(id)
    case Error(_, e) => DidFail(e)
  }

  class Runtime {
    const machine: Machine
    const meters: Meters
    const quantum: u64
    var heap: Heap
    var regs: Regs
    var fibers: seq<Fiber>
    var ready: seq<FiberId>
    var current: Option<FiberId>
    var nextId: nat
    var waiters: map<FiberId, seq<FiberId>>
    var effects: map<Str, EffectKind>
    var steps: nat
    var allocMark: int

    ghost function Abs(): State
      reads this, meters
    {
      State(heap, regs, fibers, ready, current, nextId, waiters, effects, meters.slots, quantum, steps, allocMark)
    }

    /** run_hosted_fresh's reset, on a fresh runtime. */
    constructor (p: Program, grants: seq<Str>, budget: Option<u64>, quantum: u64)
      ensures Abs() == Start(p, grants, budget, quantum) && machine == p.machine
      ensures fresh(meters)
    {
      machine := p.machine;
      this.quantum := quantum;
      meters := new Meters(budget);
      heap, regs := p.heap, p.regs;
      fibers, ready, current, nextId := [Fiber(0, p.regs, Ready, ROOT)], [0], None, 1;
      waiters, effects := map[], Effects(grants);
      steps, allocMark := 0, 0;
    }

    // ---------- Fibers ----------

    method Find(id: FiberId) returns (i: nat)
      ensures i == IndexOf(fibers, id)
    {
      i := 0;
      while i < |fibers| && fibers[i].id != id
        invariant i <= |fibers| && forall j :: 0 <= j < i ==> fibers[j].id != id
      {
        i := i + 1;
      }
    }

    method SelectNextFiber()
      requires ready != [] && Live(fibers, ready[0]) && FiberOf(fibers, ready[0]).status.Ready?
      modifies this
      ensures Abs() == SelectNext(old(Abs()))
    {
      var id := ready[0];
      ready := ready[1..];
      current := Some(id);
      var i := Find(id);
      regs := fibers[i].regs;
      fibers := fibers[i := fibers[i].(status := Running)];
    }

    method SaveCurrentFiberState()
      requires HasCurrent(Abs())
      modifies this
      ensures Abs() == SaveCurrent(old(Abs()))
    {
      var i := Find(current.value);
      fibers := fibers[i := fibers[i].(regs := regs, status := Ready)];
    }

    method UnblockFiber(id: FiberId, v: JSValue)
      requires Live(fibers, id)
      modifies this
      ensures Abs() == Unblock(old(Abs()), id, v)
    {
      var i := Find(id);
      fibers := fibers[i := fibers[i].(regs := fibers[i].regs.(control := Value(v)), status := Ready)];
      ready := ready + [id];
    }

    method AllocJoinResult(ok: bool, v: JSValue) returns (x: JSValue)
      modifies this`heap
      ensures (heap, x) == JoinResult(old(heap), ok, v)
    {
      var out := JoinResult(heap, ok, v);
      heap, x := out.0, out.1;
    }

    method RemoveFiber(id: FiberId)
      requires WellFormed(meters.slots)
      requires Live(fibers, id) ==> FiberOf(fibers, id).meter < |meters.slots|
      modifies this, meters
      ensures Abs() == Fibers.RemoveFiber(old(Abs()), id)
    {
      var pos := Find(id);
      if pos == |fibers| {
        return;
      }
      var meter := fibers[pos].meter;
      var shared := false;
      for i := 0 to |fibers|
        invariant shared <==> exists j :: 0 <= j < i && fibers[j].id != id && fibers[j].meter == meter
      {
        if fibers[i].id != id && fibers[i].meter == meter {
          shared := true;
        }
      }
      if !shared {
        meters.RefundIntoParent(meter);
      }
      fibers := SwapRemove(fibers, pos);
    }

    /** Hand the fate to every joiner in turn, then consume the fiber. */
    method WakeJoiners(id: FiberId, ok: bool, v: JSValue)
      requires id in waiters && forall w :: w in waiters[id] ==> Live(fibers, w)
      modifies this
      ensures Abs() == Deliver(old(Abs()).(waiters := old(waiters) - {id}), old(waiters)[id], ok, v)
    {
      hide IndexOf, JoinResult;
      var joiners := waiters[id];
      waiters := waiters - {id};
      ghost var s0 := Abs();
      assert joiners[0..] == joiners;
      for i := 0 to |joiners|
        invariant forall w :: w in joiners ==> Live(fibers, w)
        invariant Deliver(Abs(), joiners[i..], ok, v) == Deliver(s0, joiners, ok, v)
      {
        ghost var before := Abs();
        assert joiners[i..][0] == joiners[i] && joiners[i..][1..] == joiners[i + 1..];
        DeliverOneWakes(before, joiners[i], ok, v);
        var x := AllocJoinResult(ok, v);
        UnblockFiber(joiners[i], x);
        assert Abs() == DeliverOne(before, joiners[i], ok, v);
      }
    }

    method EndCurrentFiber(status: FiberStatus, ok: bool, v: JSValue)
      requires HasCurrent(Abs()) && WellFormed(meters.slots) && Current(Abs()).meter < |meters.slots|
      requires current.value in waiters ==> forall w :: w in waiters[current.value] ==> Live(fibers, w)
      modifies this, meters
      ensures Abs() == Finish(old(Abs()), status, ok, v)
    {
      hide IndexOf, WellFormed, Deliver, Fibers.RemoveFiber;
      var id := current.value;
      var i := Find(id);
      ghost var ended := fibers[i].(status := status);
      SetFiberLive(fibers, ended);
      fibers := fibers[i := fibers[i].(status := status)];
      if id in waiters {
        DeliverKeeps(Abs().(waiters := waiters - {id}), waiters[id], ok, v);
        WakeJoiners(id, ok, v);
        RemoveFiber(id);
      }
    }

    method CompleteCurrentFiber(v: JSValue)
      requires HasCurrent(Abs()) && WellFormed(meters.slots) && Current(Abs()).meter < |meters.slots|
      requires current.value in waiters ==> forall w :: w in waiters[current.value] ==> Live(fibers, w)
      modifies this, meters
      ensures Abs() == Complete(old(Abs()), v)
    {
      EndCurrentFiber(Completed(v), true, v);
    }

    method FailCurrentFiber(e: JSError)
      requires HasCurrent(Abs()) && WellFormed(meters.slots) && Current(Abs()).meter < |meters.slots|
      requires current.value in waiters ==> forall w :: w in waiters[current.value] ==> Live(fibers, w)
      modifies this, meters
      ensures Abs() == Fail(old(Abs()), e)
    {
      EndCurrentFiber(Failed(e), false, String(Display(e)));
    }

    // ---------- Effects ----------

    /** An effect handler's way of ending, and the state it leaves. */
    ghost predicate Did(res: EffectOutcome, spec: EffectResult)
      reads this, meters
    {
      res == Kind(spec) && Abs() == spec.s
    }

    method CurrentFiberMeter() returns (m: MeterId)
      requires HasCurrent(Abs())
      ensures m == Current(Abs()).meter
    {
      var i := Find(current.value);
      m := fibers[i].meter;
    }

    method SpawnFiber(r: Regs, meter: MeterId) returns (id: FiberId)
      modifies this
      ensures Abs() == Spawn(old(Abs()), r, meter) && id == old(nextId)
    {
      id := nextId;
      nextId := nextId + 1;
      fibers := fibers + [Fiber(id, r, Ready, meter)];
      ready := ready + [id];
    }

    method HandleFork(args: seq<JSValue>) returns (res: EffectOutcome)
      requires HasCurrent(Abs()) && Current(Abs()).meter < |meters.slots|
      modifies this, meters
      ensures Did(res, Fibers.HandleFork(old(Abs()), args))
    {
      hide IndexOf, Alloc, ForkFuel, Carved, Ascii;
      if !Arg(args, 0).Function? {
        return DidFail(TypeError(Ascii("Fork: expected function")));
      }
      var f := Arg(args, 0).obj;
      if f >= |heap.objects.data| {
        return DidFail(InternalError(Ascii("Invalid function object")));
      }
      if !heap.objects.data[f].kind.Closure? {
        return DidFail(TypeError(Ascii("Fork: not a function")));
      }
      var data := heap.objects.data[f].kind.data;
      var control := if data.exprBody.Some? then Expr(data.exprBody.value) else Stmt(data.body);
      var parent := CurrentFiberMeter();
      var halt := Alloc(heap.conts, Halt);
      heap := heap.(conts := halt.0);
      var meter := parent;
      var fuel := ForkFuel(heap, Arg(args, 1));
      if fuel.Err? {
        return DidFail(fuel.error);
      }
      if fuel.value.Some? {
        var child := meters.Carve(parent, fuel.value.value);
        if child.None? {
          return DidFail(Message(Ascii("Fork: insufficient fuel")));
        }
        meter := child.value;
      }
      var id := SpawnFiber(Regs(control, halt.1, data.env), meter);
      res := DidSpawn(id);
    }

    method HandleJoin(args: seq<JSValue>) returns (res: EffectOutcome)
      requires HasCurrent(Abs()) && WellFormed(meters.slots)
      requires forall id :: Live(fibers, id) ==> FiberOf(fibers, id).meter < |meters.slots|
      modifies this, meters
      ensures Did(res, Fibers.HandleJoin(old(Abs()), args))
    {
      hide IndexOf, JoinResult, WellFormed, Fibers.RemoveFiber, Ascii;
      if !Arg(args, 0).Int? {
        return DidFail(TypeError(Ascii("Join: expected fiber id")));
      }
      var target := AsU32(Arg(args, 0).n);
      var i := Find(target);
      if i == |fibers| {
        return DidFail(InternalError(Ascii("Join: fiber not found")));
      }
      match fibers[i].status {
        case Completed(v) =>
          var x := AllocJoinResult(true, v);
          regs := regs.(control := Value(x));
          RemoveFiber(target);
          res := DidResume;
        case Failed(e) =>
          var x := AllocJoinResult(false, String(Display(e)));
          regs := regs.(control := Value(x));
          RemoveFiber(target);
          res := DidResume;
        case _ =>
          waiters := AddWaiter(waiters, target, current.value);
          SaveCurrentFiberState();
          res := DidBlock;
      }
    }

    /** Convert every argument before anything else happens. */
    method ConvertArgs(args: seq<JSValue>) returns (r: Option<seq<HostValue>>)
      ensures r == HostArgs(heap.objects.data, args)
    {
      var out := [];
      for i := 0 to |args|
        invariant HostArgs(heap.objects.data, args[..i]) == Some(out)
      {
        assert args[..i + 1][..i] == args[..i];
        var v := ToHostValue(heap.objects.data, args[i]);
        if v.None? {
          StuckArgs(heap.objects.data, args, i);
          return None;
        }
        out := out + [v.value];
      }
      assert args[..|args|] == args;
      r := Some(out);
    }

    method HandleHostEffect(effect: Str, args: seq<JSValue>) returns (res: EffectOutcome)
      requires HasCurrent(Abs())
      modifies this
      ensures Did(res, HandleHost(old(Abs()), effect, args))
    {
      var hostArgs := ConvertArgs(args);
      if hostArgs.None? {
        return DidFail(CANNOT_CROSS);
      }
      var i := Find(current.value);
      fibers := fibers[i := fibers[i].(regs := regs, status := BlockedOnHost(effect, hostArgs.value))];
      res := DidBlock;
    }

    method HandleSnapshot(args: seq<JSValue>) returns (res: EffectOutcome)
      requires HasCurrent(Abs())
      modifies this
      ensures Did(res, Fibers.HandleSnapshot(machine, old(Abs()), args))
    {
      hide IndexOf, Ascii;
      if !Arg(args, 0).String? {
        return DidFail(TypeError(Ascii("Snapshot: expected file path string")));
      }
      ghost var s0 := Abs();
      var live := regs;
      regs := regs.(control := Value(String(Ascii("restored"))));
      SaveCurrentFiberState();
      if !machine.disk(Arg(args, 0).s, steps) {
        return DidFail(Message(Ascii("Snapshot: cannot write")));
      }
      regs := live.(control := Value(String(Ascii("saved"))));
      res := DidResume;
    }

    method CollectGarbage()
      modifies this
      ensures Abs() == Collect(machine, old(Abs()))
    {
      heap := machine.collect(heap, regs, fibers);
      allocMark := TotalAllocations(heap);
    }

    method HandleEffect(effect: Str, args: seq<JSValue>) returns (res: EffectOutcome)
      requires HasCurrent(Abs()) && WellFormed(meters.slots)
      requires forall id :: Live(fibers, id) ==> FiberOf(fibers, id).meter < |meters.slots|
      modifies this, meters
      ensures Did(res, Fibers.HandleEffect(machine, old(Abs()), effect, args))
    {
      hide IndexOf, WellFormed, Fibers.HandleFork, Fibers.HandleJoin, HandleHost, Fibers.HandleSnapshot, Ascii;
      if TotalAllocations(heap) - allocMark > GC_THRESHOLD {
        CollectGarbage();
      }
      if effect !in effects {
        return DidFail(Message(Ascii("effect is not handled and not granted")));
      }
      match effects[effect] {
        case Host => res := HandleHostEffect(effect, args);
        case Builtin(Print) => regs := regs.(control := Value(Undefined)); res := DidResume;
        case Builtin(Fork) => res := HandleFork(args);
        case Builtin(Join) => res := HandleJoin(args);
        case Builtin(Gc) => CollectGarbage(); regs := regs.(control := Value(Undefined)); res := DidResume;
        case Builtin(Snapshot) => res := HandleSnapshot(args);
      }
    }

    // ---------- The loop ----------

    /** CEKH::run on the live registers. */
    method RunCurrentFiber(allowance: nat) returns (spent: nat, end: SliceEnd)
      modifies this`heap, this`regs
      ensures Slice(heap, regs, spent, end) == RunSlice(machine, old(heap), old(regs), allowance)
    {
      spent := 0;
      while true
        invariant spent <= allowance
        invariant var rest := RunSlice(machine, heap, regs, allowance - spent);
          rest.(spent := rest.spent + spent) == RunSlice(machine, old(heap), old(regs), allowance)
        decreases allowance - spent
      {
        match regs.control {
          case Halted(v) => return spent, Finished(v);
          case Suspend(effect, args) =>
            regs := regs.(control := Suspend(effect, []));
            return spent, Suspended(effect, args);
          case _ =>
        }
        if spent >= allowance {
          return spent, Preempted;
        }
        var step := machine.step(heap, regs);
        heap := step.heap;
        if step.Faulted? {
          regs := regs.(control := Value(Undefined));
          return spent, Crashed(step.error);
        }
        regs := step.regs;
        spent := spent + 1;
      }
    }

    ghost predicate Ended(end: TurnEnd, spec: TurnResult)
      reads this, meters
    {
      && Abs() == spec.s
      && match spec
         case Again(_, main) => end == GoOn(main)
         case Return(_, o) => end == Returned(o)
         case Raise(_, e) => end == Raised(e)
    }

    /** The root's failure ends the program; another fiber's is contained. */
    method FaultCurrentFiber(e: JSError, main: JSValue) returns (end: TurnEnd)
      requires Structure(Abs()) && current.Some?
      modifies this, meters
      ensures Ended(end, Fault(old(Abs()), e, main))
    {
      hide Structure, Finish;
      JoinersLive(Abs());
      if current == Some(0) {
        return Raised(e);
      }
      FailCurrentFiber(e);
      current := None;
      end := GoOn(main);
    }

    method CollectIfDue()
      modifies this
      ensures Abs() == Fibers.CollectIfDue(machine, old(Abs()))
    {
      if TotalAllocations(heap) - allocMark > GC_THRESHOLD {
        CollectGarbage();
      }
    }

    method RunTurn(main: JSValue) returns (end: TurnEnd)
      requires Inv(Abs()) && current.Some?
      modifies this, meters
      ensures Ended(end, CurrentTurn(machine, old(Abs()), main))
    {
      hide Structure, RunSlice, Finish, AfterSlice, WellFormed, IndexOf;
      ghost var s0 := Abs();
      JoinersLive(s0);
      var meter := CurrentFiberMeter();
      var remaining := meters.slots[meter].remaining;
      if remaining == Some(0) {
        if meter == ROOT {
          SaveCurrentFiberState();
          ready := [current.value] + ready;
          current := None;
          return Returned(OutOfFuel(steps));
        }
        FailCurrentFiber(Message(Ascii("out_of_fuel")));
        current := None;
        return GoOn(main);
      }
      var allowance := if remaining.Some? && remaining.value < quantum then remaining.value else quantum;
      var spent, sliceEnd := RunCurrentFiber(allowance);
      meters.Charge(meter, spent);
      steps := steps + spent;
      assert Abs() == Charge(s0, RunSlice(machine, s0.heap, s0.regs, Allowance(s0)));
      ChargeKeepsStructure(machine, s0);
      end := SettleSlice(sliceEnd, main);
    }

    /** What the loop does with the way a slice ended. */
    method SettleSlice(sliceEnd: SliceEnd, main: JSValue) returns (end: TurnEnd)
      requires Structure(Abs()) && current.Some?
      modifies this, meters
      ensures Ended(end, AfterSlice(machine, old(Abs()), sliceEnd, main))
    {
      hide Structure, Finish, Fibers.HandleEffect, Fault, WellFormed, IndexOf;
      JoinersLive(Abs());
      match sliceEnd {
        case Finished(v) =>
          var result := if current == Some(0) then v else main;
          CompleteCurrentFiber(v);
          current := None;
          end := GoOn(result);
        case Suspended(effect, args) =>
          EffectErrorKeepsStructure(machine, Abs(), effect, args);
          var res := HandleEffect(effect, args);
          match res {
            case DidResume => end := GoOn(main);
            case DidBlock => current := None; end := GoOn(main);
            case DidSpawn(id) => regs := regs.(control := Value(Int(AsI32(id)))); end := GoOn(main);
            case DidFail(e) => end := FaultCurrentFiber(e, main);
          }
        case Preempted =>
          SaveCurrentFiberState();
          ready := ready + [current.value];
          current := None;
          CollectIfDue();
          end := GoOn(main);
        case Crashed(e) => end := FaultCurrentFiber(e, main);
      }
    }

    method CollectPending() returns (calls: seq<PendingCall>)
      ensures calls == PendingCalls(fibers)
    {
      calls := [];
      assert fibers[0..] == fibers;
      for i := 0 to |fibers|
        invariant calls + PendingCalls(fibers[i..]) == PendingCalls(fibers)
      {
        assert fibers[i..][0] == fibers[i] && fibers[i..][1..] == fibers[i + 1..];
        if fibers[i].status.BlockedOnHost? {
          calls := calls + [PendingCall(fibers[i].id, fibers[i].status.effect, fibers[i].status.args)];
        }
      }
      assert calls + [] == calls;
    }

    method OneTurn(main: JSValue) returns (end: TurnEnd)
      requires Inv(Abs())
      modifies this, meters
      ensures Ended(end, Turn(machine, old(Abs()), main))
    {
      hide Structure, CurrentTurn, IndexOf, PendingCalls;
      if current.None? {
        if ready == [] {
          var pending := CollectPending();
          if pending != [] {
            return Returned(Pending(pending));
          }
          var root := Find(0);
          var v := if root < |fibers| && fibers[root].status.Completed? then fibers[root].status.v else main;
          return Returned(Done(v));
        }
        SelectKeepsInv(Abs());
        SelectNextFiber();
      }
      end := RunTurn(main);
    }

    /** run_scheduler. */
    method RunScheduler() returns (r: Result<RunOutcome, JSError>)
      requires Inv(Abs()) && Halts(machine, Abs())
      modifies this, meters
      ensures Inv(Abs()) && Abs() == Entry(machine, old(Abs())).s
      ensures match Entry(machine, old(Abs()))
              case Return(_, o) => r == Ok(o)
              case Raise(_, e) => r == Err(e)
              case Again(_, _) => false
    {
      hide Inv, Turn;
      var main := Undefined;
      ghost var s0 := Abs();
      ghost var n: nat :| !Loop(machine, s0, Undefined, n).Again?;
      EntryIsLoop(machine, s0, n);
      while true
        invariant Inv(Abs())
        invariant !Loop(machine, Abs(), main, n).Again? && Loop(machine, Abs(), main, n) == Entry(machine, s0)
        decreases n
      {
        TurnKeepsInv(machine, Abs(), main);
        var end := OneTurn(main);
        match end {
          case GoOn(v) => main := v;
          case Returned(o) => return Ok(o);
          case Raised(e) => return Err(e);
        }
        n := n - 1;
      }
    }
  }

  lemma {:induction false} StuckArgs(objs: seq<Obj>, args: seq<JSValue>, i: nat)
    requires i < |args| && ToHost(objs, args[i]).None?
    ensures HostArgs(objs, args).None?
  {
    if i < |args| - 1 { StuckArgs(objs, args[..|args| - 1], i); }
  }
}
