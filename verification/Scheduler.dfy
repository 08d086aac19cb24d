/** The scheduler loop (src/runtime.rs:504-611) and the invariant of every run
    and host call. */
module Scheduler {
  import opened Values
  import opened Fuel
  import opened Boundary
  import opened Fibers
  import opened Placement

  // ---------- The fiber table ----------

  ghost function TableOf(fs: seq<Fiber>): (t: Table)
    ensures forall id :: id in t <==> Live(fs, id)
    ensures forall id :: id in t ==> t[id] == FiberOf(fs, id)
  {
    var ids := set f | f in fs :: f.id;
    assert forall id :: Live(fs, id) ==> FiberOf(fs, id) in fs;
    assert forall f :: f in fs ==> Live(fs, f.id);
    map id | id in ids :: FiberOf(fs, id)
  }

  ghost predicate Unique(fs: seq<Fiber>) {
    forall i, j :: 0 <= i < j < |fs| ==> fs[i].id != fs[j].id
  }

  lemma IndexIsUnique(fs: seq<Fiber>, i: nat)
    requires Unique(fs) && i < |fs|
    ensures IndexOf(fs, fs[i].id) == i && Live(fs, fs[i].id) && FiberOf(fs, fs[i].id) == fs[i]
  {
  }

  lemma SetFiberTable(fs: seq<Fiber>, f: Fiber)
    requires Live(fs, f.id)
    ensures TableOf(SetFiber(fs, f)) == TableOf(fs)[f.id := f]
    ensures Unique(fs) ==> Unique(SetFiber(fs, f))
  {
    SetFiberLive(fs, f);
  }

  lemma AppendTable(fs: seq<Fiber>, f: Fiber)
    requires Unique(fs) && !Live(fs, f.id)
    ensures TableOf(fs + [f]) == TableOf(fs)[f.id := f] && Unique(fs + [f])
  {
    var gs := fs + [f];
    forall i | 0 <= i < |fs| ensures fs[i].id != f.id { IndexIsUnique(fs, i); }
    forall i | 0 <= i < |gs| ensures Live(gs, gs[i].id) && FiberOf(gs, gs[i].id) == gs[i] { IndexIsUnique(gs, i); }
    forall id | id in TableOf(fs)[f.id := f] ensures Live(gs, id) {
      var i := if id == f.id then |fs| else IndexOf(fs, id);
      assert gs[i].id == id;
    }
    SameEntries(gs, TableOf(fs)[f.id := f]);
  }

  /** A table is determined by its entries. */
  lemma SameEntries(fs: seq<Fiber>, t: Table)
    requires Unique(fs)
    requires forall i :: 0 <= i < |fs| ==> fs[i].id in t && t[fs[i].id] == fs[i]
    requires forall id :: id in t ==> Live(fs, id)
    ensures TableOf(fs) == t
  {
  }

  lemma SwapRemoveTable(fs: seq<Fiber>, k: nat)
    requires Unique(fs) && k < |fs|
    ensures TableOf(SwapRemove(fs, k)) == TableOf(fs) - {fs[k].id} && Unique(SwapRemove(fs, k))
  {
    hide TableOf;
    var gs, t := SwapRemove(fs, k), TableOf(fs) - {fs[k].id};
    var last := |fs| - 1;
    forall i | 0 <= i < |gs| ensures gs[i].id in t && t[gs[i].id] == gs[i] {
      IndexIsUnique(fs, if i == k then last else i);
    }
    forall id | id in t ensures Live(gs, id) { StillLive(fs, k, id); }
    SameEntries(gs, t);
  }

  lemma StillLive(fs: seq<Fiber>, k: nat, id: FiberId)
    requires Unique(fs) && k < |fs| && Live(fs, id) && id != fs[k].id
    ensures Live(SwapRemove(fs, k), id)
  {
    var gs, i := SwapRemove(fs, k), IndexOf(fs, id);
    if i == |fs| - 1 { assert gs[k].id == id; } else { assert gs[i].id == id; }
  }

  // ---------- The invariant ----------

  /** Fiber ids are unique and below `nextId`, every meter exists. */
  ghost predicate TableValid(fs: seq<Fiber>, nextId: nat, meters: seq<Meter>) {
    && Unique(fs)
    && forall i :: 0 <= i < |fs| ==> fs[i].id < nextId && fs[i].meter < |meters|
  }

  ghost predicate Structure(s: State) {
    && s.quantum > 0 && WellFormed(s.meters)
    && TableValid(s.fibers, s.nextId, s.meters)
    && Placed(TableOf(s.fibers), s.current, s.ready, s.waiters)
  }

  ghost predicate CurrentPoised(s: State) {
    s.current.Some? ==> Poised(s.current.value, s.regs.control)
  }

  ghost predicate Inv(s: State) {
    Structure(s) && CurrentPoised(s)
  }

  // ---------- One loop iteration ----------

  datatype TurnResult =
    | Again(s: State, main: JSValue)
    | Return(s: State, outcome: RunOutcome)
    | Raise(s: State, error: JSError)

  lemma JoinersLive(s: State)
    requires Structure(s) && s.current.Some?
    ensures HasCurrent(s) && Current(s).meter < |s.meters| && WellFormed(s.meters)
    ensures s.current.value in s.waiters ==>
              forall w :: w in s.waiters[s.current.value] ==> Live(s.fibers, w)
    ensures forall id :: Live(s.fibers, id) ==> FiberOf(s.fibers, id).meter < |s.meters|
  {
    var c := s.current.value;
    assert c in TableOf(s.fibers);
    if c in s.waiters {
      forall w | w in s.waiters[c] ensures Live(s.fibers, w) {
        assert Waits(s.waiters, w, c);
      }
    }
  }

  /** The root fiber's failure is the program's; any other is contained. */
  ghost function Fault(s: State, e: JSError, main: JSValue): TurnResult
    requires Structure(s) && s.current.Some?
  {
    JoinersLive(s);
    if s.current == Some(0) then Raise(s, e) else Again(Fail(s, e).(current := None), main)
  }

  ghost function Requeue(m: Machine, s: State): State
    requires HasCurrent(s)
  {
    var saved := SaveCurrent(s);
    CollectIfDue(m, saved.(current := None, ready := s.ready + [s.current.value]))
  }

  ghost function AfterEffect(r: EffectResult, main: JSValue): TurnResult
    requires r.Error? ==> Structure(r.s) && r.s.current.Some?
  {
    match r
    case Resume(s) => Again(s, main)
    case Block(s) => Again(s.(current := None), main)
    case Spawned(s, id) => Again(Continued(s, Int(AsI32(id))), main)
    case Error(s, e) => Fault(s, e, main)
  }

  /** The state once a slice has been run and paid for. */
  ghost function Charge(s: State, sl: Slice): State
    requires HasCurrent(s) && Current(s).meter < |s.meters|
  {
    s.(heap := sl.heap, regs := sl.regs, steps := s.steps + sl.spent,
       meters := Charged(s.meters, Current(s).meter, sl.spent))
  }

  ghost function Allowance(s: State): nat
    requires HasCurrent(s) && Current(s).meter < |s.meters|
  {
    match s.meters[Current(s).meter].remaining
    case None => s.quantum
    case Some(rem) => if rem < s.quantum then rem else s.quantum
  }

  ghost function AfterSlice(m: Machine, s: State, end: SliceEnd, main: JSValue): TurnResult
    requires Structure(s) && s.current.Some?
  {
    JoinersLive(s);
    match end
    case Finished(v) => Again(Complete(s, v).(current := None), if s.current == Some(0) then v else main)
    case Suspended(effect, args) =>
      EffectErrorKeepsStructure(m, s, effect, args);
      AfterEffect(HandleEffect(m, s, effect, args), main)
    case Preempted => Again(Requeue(m, s), main)
    case Crashed(e) => Fault(s, e, main)
  }

  ghost function CurrentTurn(m: Machine, s: State, main: JSValue): TurnResult
    requires Inv(s) && s.current.Some?
  {
    JoinersLive(s);
    var meter := Current(s).meter;
    if s.meters[meter].remaining == Some(0) then
      if meter == ROOT then
        var saved := SaveCurrent(s);
        Return(saved.(current := None, ready := [s.current.value] + s.ready), OutOfFuel(s.steps))
      else
        Again(Fail(s, Message(Ascii("out_of_fuel"))).(current := None), main)
    else
      var sl := RunSlice(m, s.heap, s.regs, Allowance(s));
      var s1 := Charge(s, sl);
      ChargeKeepsStructure(m, s);
      AfterSlice(m, s1, sl.end, main)
  }

  ghost function Turn(m: Machine, s: State, main: JSValue): TurnResult
    requires Inv(s)
  {
    if s.current.Some? then CurrentTurn(m, s, main)
    else if s.ready != [] then
      SelectKeepsInv(s);
      CurrentTurn(m, SelectNext(s), main)
    else if PendingCalls(s.fibers) != [] then Return(s, Pending(PendingCalls(s.fibers)))
    else Return(s, Done(RootResult(s, main)))
  }

  // ---------- Every operation keeps the structure ----------

  lemma SelectKeepsInv(s: State)
    requires Inv(s) && s.current.None? && s.ready != []
    ensures Live(s.fibers, s.ready[0]) && SelectNext.requires(s)
    ensures SelectNext(s).current.Some?
    ensures FiberOf(s.fibers, s.ready[0]).status.Ready? && Inv(SelectNext(s))
  {
    var t := TableOf(s.fibers);
    var id := s.ready[0];
    assert id in t;
    SelectPlaced(t, s.ready, s.waiters);
    SetFiberTable(s.fibers, t[id].(status := Running));
  }

  lemma ChargeKeepsStructure(m: Machine, s: State)
    requires Inv(s) && s.current.Some?
    requires HasCurrent(s) && Current(s).meter < |s.meters|
    ensures var sl := RunSlice(m, s.heap, s.regs, Allowance(s)); Structure(Charge(s, sl))
  {
  }

  /** Replacing the current fiber's record. */
  lemma SetCurrentStructure(s: State, f: Fiber)
    requires Structure(s) && HasCurrent(s) && f.id == s.current.value && f.meter == Current(s).meter
    ensures TableOf(SetFiber(s.fibers, f)) == TableOf(s.fibers)[f.id := f]
    ensures TableValid(SetFiber(s.fibers, f), s.nextId, s.meters)
    ensures f.status.Ready? || f.status.Running? ==> Structure(s.(fibers := SetFiber(s.fibers, f)))
  {
    SetFiberTable(s.fibers, f);
    if f.status.Ready? || f.status.Running? {
      TouchPlaced(TableOf(s.fibers), f.id, s.ready, s.waiters, f);
    }
  }

  lemma RequeueKeepsInv(m: Machine, s: State)
    requires Structure(s) && HasCurrent(s) && Poised(s.current.value, s.regs.control)
    ensures Inv(Requeue(m, s))
    ensures Inv(SaveCurrent(s).(current := None, ready := [s.current.value] + s.ready))
  {
    var f := Current(s).(regs := s.regs, status := Ready);
    SetCurrentStructure(s, f);
    RequeuePlaced(TableOf(s.fibers), f.id, s.ready, s.waiters, f);
  }

  /** Removing a finished fiber, or one whose joiners were just woken. */
  lemma RemoveKeepsTable(s: State, id: FiberId)
    requires WellFormed(s.meters) && TableValid(s.fibers, s.nextId, s.meters) && Live(s.fibers, id)
    ensures FiberOf(s.fibers, id).meter < |s.meters|
    ensures var s' := RemoveFiber(s, id);
      && TableOf(s'.fibers) == TableOf(s.fibers) - {id}
      && WellFormed(s'.meters) && TableValid(s'.fibers, s'.nextId, s'.meters)
      && s' == s.(fibers := s'.fibers, meters := s'.meters)
  {
    SwapRemoveTable(s.fibers, IndexOf(s.fibers, id));
  }

  lemma FinishAlone(s: State, status: FiberStatus)
    requires Structure(s) && s.current.Some? && (status.Completed? || status.Failed?)
    requires HasCurrent(s) && s.current.value !in s.waiters
    ensures Inv(s.(fibers := SetFiber(s.fibers, Current(s).(status := status)), current := None))
  {
    var ended := Current(s).(status := status);
    SetCurrentStructure(s, ended);
    EndPlaced(TableOf(s.fibers), s.current.value, s.ready, s.waiters, ended);
  }

  /** The tables before and after waking the joiners of the ended fiber. */
  lemma WokenTable(fs: seq<Fiber>, ended: Fiber, gs: seq<Fiber>, joiners: seq<FiberId>)
    requires Live(fs, ended.id) && Woken(SetFiber(fs, ended), gs, joiners)
    ensures TableOf(gs).Keys == TableOf(fs).Keys
    ensures forall id :: id in TableOf(fs) && id != ended.id ==>
      if id in joiners then TableOf(gs)[id].id == id && Selectable(TableOf(gs)[id])
      else TableOf(gs)[id] == TableOf(fs)[id]
  {
    hide IndexOf, SetFiber;
    SetFiberLive(fs, ended);
  }

  lemma TableValidBySameIds(fs: seq<Fiber>, gs: seq<Fiber>, nextId: nat, meters: seq<Meter>)
    requires TableValid(fs, nextId, meters) && SameIds(fs, gs)
    ensures TableValid(gs, nextId, meters)
  {
  }

  lemma FinishJoined(s: State, s1: State, s2: State, status: FiberStatus)
    requires Structure(s) && s.current.Some? && (status.Completed? || status.Failed?)
    requires HasCurrent(s) && s.current.value in s.waiters
    requires s1 == s.(fibers := SetFiber(s.fibers, Current(s).(status := status)),
                      waiters := s.waiters - {s.current.value})
    requires Delivered(s1, s2, s.waiters[s.current.value])
    ensures Live(s2.fibers, s.current.value)
    ensures FiberOf(s2.fibers, s.current.value).meter < |s2.meters| && WellFormed(s2.meters)
    ensures Inv(RemoveFiber(s2, s.current.value).(current := None))
  {
    hide Placed, WellFormed, TableValid, SetFiber, IndexOf, Woken, RemoveFiber, SameIds, FiberOf;
    var c := s.current.value;
    var ended := Current(s).(status := status);
    SetCurrentStructure(s, ended);
    TableValidBySameIds(s1.fibers, s2.fibers, s.nextId, s.meters);
    assert c in TableOf(s.fibers) && TableOf(s1.fibers)[c] == ended;
    WokenTable(s.fibers, ended, s2.fibers, s.waiters[c]);
    assert Live(s2.fibers, c) by { assert c in TableOf(s2.fibers); }
    RemoveKeepsTable(s2, c);
    DeliverPlaced(TableOf(s.fibers), c, s.ready, s.waiters, TableOf(s2.fibers));
  }

  lemma FinishKeepsInv(s: State, status: FiberStatus, ok: bool, v: JSValue)
    requires Structure(s) && s.current.Some? && (status.Completed? || status.Failed?)
    requires HasCurrent(s) && Current(s).meter < |s.meters|
    requires s.current.value in s.waiters ==>
               forall w :: w in s.waiters[s.current.value] ==> Live(s.fibers, w)
    ensures Inv(Finish(s, status, ok, v).(current := None))
  {
    hide Structure, Inv, Delivered, RemoveFiber, Deliver, SetFiber, IndexOf, FiberOf;
    var c := s.current.value;
    if c in s.waiters {
      var ended := Current(s).(status := status);
      var s1 := s.(fibers := SetFiber(s.fibers, ended), waiters := s.waiters - {c});
      SetFiberLive(s.fibers, ended);
      DeliverKeeps(s1, s.waiters[c], ok, v);
      FinishJoined(s, s1, Deliver(s1, s.waiters[c], ok, v), status);
    } else {
      FinishAlone(s, status);
    }
  }

  lemma FaultKeepsInv(s: State, e: JSError, main: JSValue)
    requires Structure(s) && s.current.Some?
    requires s.current == Some(0) ==> CurrentPoised(s)
    ensures Inv(Fault(s, e, main).s)
  {
    JoinersLive(s);
    if s.current != Some(0) {
      FinishKeepsInv(s, Failed(e), false, String(Display(e)));
    }
  }

  // ---------- Effects keep the structure ----------

  /** What an effect handler leaves behind, by how it ended. */
  ghost predicate EffectSound(s: State, r: EffectResult) {
    match r
    case Resume(t) => Structure(t) && t.current == s.current && t.regs.control.Value?
    case Block(t) => Structure(t.(current := None))
    case Spawned(t, id) => Structure(t) && t.current == s.current && id < t.nextId
    case Error(t, e) => Structure(t) && t.current == s.current && t.regs == s.regs
  }

  /** The structure does not depend on the machine's own state. */
  lemma MachineStateFree(s: State, t: State)
    requires Structure(s)
    requires t == s.(heap := t.heap, regs := t.regs, steps := t.steps, allocMark := t.allocMark)
    ensures Structure(t)
  {
  }

  lemma SpawnSound(s: State, regs: Regs, meter: MeterId)
    requires Structure(s) && Runnable(regs.control) && meter < |s.meters|
    ensures Structure(Spawn(s, regs, meter))
  {
    hide Placed;
    var f := Fiber(s.nextId, regs, Ready, meter);
    AppendTable(s.fibers, f);
    SpawnPlaced(TableOf(s.fibers), s.current, s.ready, s.waiters, f);
  }

  lemma CarveSound(s: State, from: MeterId, amount: u64)
    requires Structure(s) && from < |s.meters| && Carved(s.meters, from, amount).Some?
    ensures Structure(s.(meters := Carved(s.meters, from, amount).value))
    ensures |Carved(s.meters, from, amount).value| == |s.meters| + 1
  {
    hide Placed;
    CarveKeepsShape(s.meters, from, amount);
  }

  lemma ForkSound(s: State, args: seq<JSValue>)
    requires Structure(s) && s.current.Some? && HasCurrent(s) && Current(s).meter < |s.meters|
    ensures EffectSound(s, HandleFork(s, args))
  {
    hide Structure, Spawn, Carved, Alloc, ForkFuel, HasCurrent, Current, Ascii;
    if Arg(args, 0).Function? && Arg(args, 0).obj < |s.heap.objects.data| {
      match s.heap.objects.data[Arg(args, 0).obj].kind
      case Closure(data) =>
        var (conts, cont) := Alloc(s.heap.conts, Halt);
        var s1 := s.(heap := s.heap.(conts := conts));
        MachineStateFree(s, s1);
        var control := if data.exprBody.Some? then Expr(data.exprBody.value) else Stmt(data.body);
        var regs := Regs(control, cont, data.env);
        match ForkFuel(s1.heap, Arg(args, 1)) {
          case Err(e) =>
          case Ok(None) => SpawnedFrom(s1, regs, Current(s).meter);
          case Ok(Some(n)) =>
            if Carved(s1.meters, Current(s).meter, n).Some? {
              CarveSound(s1, Current(s).meter, n);
              SpawnedFrom(s1.(meters := Carved(s1.meters, Current(s).meter, n).value), regs, |s.meters|);
            }
        }
      case _ =>
    }
  }

  lemma SpawnedFrom(s: State, regs: Regs, meter: MeterId)
    requires Structure(s) && Runnable(regs.control) && meter < |s.meters|
    ensures Structure(Spawn(s, regs, meter))
    ensures Spawn(s, regs, meter).current == s.current && Spawn(s, regs, meter).nextId == s.nextId + 1
  {
    SpawnSound(s, regs, meter);
  }

  /** A finished fiber, once joined, is removed. */
  lemma ConsumeSound(s: State, target: FiberId)
    requires Structure(s) && Live(s.fibers, target) && !Unfinished(FiberOf(s.fibers, target))
    ensures FiberOf(s.fibers, target).meter < |s.meters| && WellFormed(s.meters)
    ensures Structure(RemoveFiber(s, target)) && RemoveFiber(s, target).current == s.current
    ensures RemoveFiber(s, target).regs == s.regs
  {
    hide Placed, RemoveFiber, WellFormed, TableValid, IndexOf, FiberOf;
    assert target in TableOf(s.fibers);
    RemoveKeepsTable(s, target);
    ConsumePlaced(TableOf(s.fibers), s.current, s.ready, s.waiters, target);
  }

  lemma WaitSound(s: State, target: FiberId)
    requires Structure(s) && s.current.Some? && HasCurrent(s)
    requires Live(s.fibers, target) && Unfinished(FiberOf(s.fibers, target))
    ensures Live(SaveCurrent(s).fibers, s.current.value)
    ensures var t := s.(waiters := AddWaiter(s.waiters, target, s.current.value));
      Structure(SaveCurrent(t).(current := None))
  {
    hide Placed, TableValid, SetFiber, IndexOf, FiberOf, AddWaiter;
    var f := Current(s).(regs := s.regs, status := Ready);
    SetCurrentStructure(s, f);
    SetFiberLive(s.fibers, f);
    assert target in TableOf(s.fibers);
    JoinBlockPlaced(TableOf(s.fibers), f.id, s.ready, s.waiters, target, f);
  }

  lemma JoinSound(s: State, args: seq<JSValue>)
    requires Structure(s) && s.current.Some? && HasCurrent(s) && WellFormed(s.meters)
    requires forall id :: Live(s.fibers, id) ==> FiberOf(s.fibers, id).meter < |s.meters|
    ensures EffectSound(s, HandleJoin(s, args))
  {
    hide Structure, RemoveFiber, JoinResult, SaveCurrent, Live, FiberOf, WellFormed, AddWaiter, Ascii;
    if Arg(args, 0).Int? {
      var target := AsU32(Arg(args, 0).n);
      if Live(s.fibers, target) {
        match FiberOf(s.fibers, target).status {
          case Completed(v) =>
            var (h, x) := JoinResult(s.heap, true, v);
            var s1 := s.(heap := h, regs := s.regs.(control := Value(x)));
            MachineStateFree(s, s1);
            ConsumeSound(s1, target);
          case Failed(e) =>
            var (h, x) := JoinResult(s.heap, false, String(Display(e)));
            var s1 := s.(heap := h, regs := s.regs.(control := Value(x)));
            MachineStateFree(s, s1);
            ConsumeSound(s1, target);
          case _ => WaitSound(s, target);
        }
      }
    }
  }

  lemma HostSound(s: State, effect: Str, args: seq<JSValue>)
    requires Structure(s) && s.current.Some? && HasCurrent(s)
    ensures EffectSound(s, HandleHost(s, effect, args))
  {
    var r := HandleHost(s, effect, args);
    if r.Block? {
      var f := Current(s).(regs := s.regs, status := BlockedOnHost(effect, HostArgs(s.heap.objects.data, args).value));
      SetCurrentStructure(s, f);
      HostBlockPlaced(TableOf(s.fibers), f.id, s.ready, s.waiters, f);
    }
  }

  lemma SnapshotSound(m: Machine, s: State, args: seq<JSValue>)
    requires Structure(s) && s.current.Some? && HasCurrent(s)
    ensures var r := HandleSnapshot(m, s, args);
      (!r.Error? ==> EffectSound(s, r)) && ErrorSound(s, r)
  {
    var woken := s.regs.(control := Value(String(Ascii("restored"))));
    SetCurrentStructure(s, Current(s).(regs := woken, status := Ready));
  }

  ghost predicate ErrorSound(s: State, r: EffectResult) {
    r.Error? ==> Structure(r.s) && r.s.current == s.current && (r.s.regs == s.regs || r.s.regs.control.Value?)
  }

  lemma CollectSound(m: Machine, s: State)
    requires Structure(s)
    ensures Structure(Collect(m, s)) && Structure(CollectIfDue(m, s))
  {
    MachineStateFree(s, Collect(m, s));
  }

  lemma EffectKeeps(m: Machine, s0: State, effect: Str, args: seq<JSValue>)
    requires Structure(s0) && s0.current.Some? && HasCurrent(s0) && WellFormed(s0.meters)
    requires forall id :: Live(s0.fibers, id) ==> FiberOf(s0.fibers, id).meter < |s0.meters|
    ensures var r := HandleEffect(m, s0, effect, args);
      (!r.Error? ==> EffectSound(s0, r)) && ErrorSound(s0, r)
  {
    hide Structure, HandleFork, HandleJoin, HandleHost, HandleSnapshot, Live, FiberOf, WellFormed, Ascii;
    CollectSound(m, s0);
    var s := CollectIfDue(m, s0);
    if effect in s.effects {
      match s.effects[effect] {
        case Host => HostSound(s, effect, args);
        case Builtin(Print) => MachineStateFree(s, Continued(s, Undefined));
        case Builtin(Fork) => ForkSound(s, args);
        case Builtin(Join) => JoinSound(s, args);
        case Builtin(Gc) =>
          CollectSound(m, s);
          MachineStateFree(Collect(m, s), Continued(Collect(m, s), Undefined));
        case Builtin(Snapshot) => SnapshotSound(m, s, args);
      }
    }
  }

  lemma EffectErrorKeepsStructure(m: Machine, s: State, effect: Str, args: seq<JSValue>)
    requires Structure(s) && s.current.Some? && HasCurrent(s)
    requires forall id :: Live(s.fibers, id) ==> FiberOf(s.fibers, id).meter < |s.meters|
    ensures var r := HandleEffect(m, s, effect, args); r.Error? ==> Structure(r.s) && r.s.current.Some?
  {
    EffectKeeps(m, s, effect, args);
  }

  // ---------- The invariant over a whole turn ----------

  lemma DryKeepsInv(s: State)
    requires Inv(s) && s.current.Some? && HasCurrent(s) && Current(s).meter < |s.meters| && WellFormed(s.meters)
    requires s.current.value in s.waiters ==>
               forall w :: w in s.waiters[s.current.value] ==> Live(s.fibers, w)
    ensures Inv(Fail(s, Message(Ascii("out_of_fuel"))).(current := None))
    ensures Inv(SaveCurrent(s).(current := None, ready := [s.current.value] + s.ready))
  {
    hide Structure, Finish, SaveCurrent, Live;
    var e := Message(Ascii("out_of_fuel"));
    FinishKeepsInv(s, Failed(e), false, String(Display(e)));
    RequeueKeepsInv(Machine((h, r) => Stepped(h, r), (h, r, fs) => h, (p, n) => true), s);
  }

  lemma AfterEffectKeepsInv(m: Machine, s: State, effect: Str, args: seq<JSValue>, main: JSValue)
    requires Structure(s) && s.current.Some? && HasCurrent(s) && WellFormed(s.meters)
    requires forall id :: Live(s.fibers, id) ==> FiberOf(s.fibers, id).meter < |s.meters|
    requires s.regs.control == Suspend(effect, [])
    ensures var r := HandleEffect(m, s, effect, args);
      (r.Error? ==> Structure(r.s) && r.s.current.Some?) && Inv(AfterEffect(r, main).s)
  {
    hide Structure, HandleEffect, Live, Fault;
    EffectKeeps(m, s, effect, args);
    var r := HandleEffect(m, s, effect, args);
    match r
    case Resume(t) =>
    case Block(t) =>
    case Spawned(t, id) => MachineStateFree(t, Continued(t, Int(AsI32(id))));
    case Error(t, e) => FaultKeepsInv(t, e, main);
  }

  lemma CurrentTurnKeepsInv(m: Machine, s: State, main: JSValue)
    requires Inv(s) && s.current.Some?
    ensures Inv(CurrentTurn(m, s, main).s)
  {
    hide Structure, RunSlice, Charge, Finish, Requeue, HandleEffect, AfterEffect, Fault, SaveCurrent, Live, WellFormed;
    JoinersLive(s);
    if s.meters[Current(s).meter].remaining == Some(0) {
      DryKeepsInv(s);
    } else {
      var sl := RunSlice(m, s.heap, s.regs, Allowance(s));
      var s1 := Charge(s, sl);
      SliceBounds(m, s.heap, s.regs, Allowance(s));
      ChargeKeepsStructure(m, s);
      ChargeLeaves(s, sl);
      JoinersLive(s1);
      match sl.end {
        case Finished(v) => FinishKeepsInv(s1, Completed(v), true, v);
        case Suspended(effect, args) => AfterEffectKeepsInv(m, s1, effect, args, main);
        case Preempted => RequeueKeepsInv(m, s1);
        case Crashed(e) => FaultKeepsInv(s1, e, main);
      }
    }
  }

  lemma ChargeLeaves(s: State, sl: Slice)
    requires HasCurrent(s) && Current(s).meter < |s.meters|
    ensures Charge(s, sl).current == s.current && Charge(s, sl).regs == sl.regs
    ensures Charge(s, sl).fibers == s.fibers
  {
  }

  /** The invariant holds after every loop iteration, however it ends. */
  lemma TurnKeepsInv(m: Machine, s: State, main: JSValue)
    requires Inv(s)
    ensures Inv(Turn(m, s, main).s)
  {
    hide Structure, CurrentTurn, SelectNext;
    if s.current.Some? {
      CurrentTurnKeepsInv(m, s, main);
    } else if s.ready != [] {
      SelectKeepsInv(s);
      CurrentTurnKeepsInv(m, SelectNext(s), main);
    }
  }
}
