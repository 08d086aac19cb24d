/** Slicing is invisible to a lone fiber: quantum, out-of-fuel pauses and
    refuels do not change what it computes (src/cekh.rs:127-153,
    src/runtime.rs:526-598, 876-888). */
module Lone {
  import opened Values
  import opened Fuel
  import opened Boundary
  import opened Fibers
  import opened Placement
  import opened Scheduler
  import opened Runs
  import opened Entries
  import opened Results

  // ---------- Slices compose ----------

  /** A slice of a+b steps is a slice of a steps followed, if it was preempted,
      by a slice of b. */
  lemma {:induction false} SliceSplits(m: Machine, h: Heap, r: Regs, a: nat, b: nat)
    ensures var first := RunSlice(m, h, r, a);
      RunSlice(m, h, r, a + b) ==
        if first.end.Preempted? then
          var second := RunSlice(m, first.heap, first.regs, b); second.(spent := first.spent + second.spent)
        else first
    decreases a
  {
    if a > 0 && Runnable(r.control) && m.step(h, r).Stepped? {
      SliceSplits(m, m.step(h, r).heap, m.step(h, r).regs, a - 1, b);
    }
  }

  // ---------- The fiber by itself ----------

  datatype Fate =
    | Going
    | Over(v: JSValue)
    | Asked(effect: Str, args: seq<HostValue>)
    | Died(error: JSError)
    | Stuck
    | Left

  /** What the fiber computes on, and how far it has come. */
  datatype Core = Core(heap: Heap, regs: Regs, steps: nat, fate: Fate)

  /** One step, or one effect, with no scheduler around it. Fork leaves the lone
      fiber's world; a join on itself sticks for good. */
  ghost function Micro(m: Machine, effects: map<Str, EffectKind>, c: Core): Core {
    if !c.fate.Going? then c
    else
      match c.regs.control
      case Halted(v) => c.(fate := Over(v))
      case Suspend(effect, args) =>
        Perform(m, effects, c.(regs := c.regs.(control := Suspend(effect, []))), effect, args)
      case _ =>
        match m.step(c.heap, c.regs)
        case Faulted(h, e) => Core(h, c.regs.(control := Value(Undefined)), c.steps, Died(e))
        case Stepped(h, r) => Core(h, r, c.steps + 1, Going)
  }

  ghost function Perform(
      m: Machine, effects: map<Str, EffectKind>, c: Core, effect: Str, args: seq<JSValue>): Core {
    if effect !in effects then c.(fate := Died(Message(Ascii("effect is not handled and not granted"))))
    else
      match effects[effect]
      case Host =>
        var hostArgs := HostArgs(c.heap.objects.data, args);
        c.(fate := if hostArgs.None? then Died(CANNOT_CROSS) else Asked(effect, hostArgs.value))
      case Builtin(Print) => Carry(c, Undefined)
      case Builtin(Gc) => Carry(c, Undefined)
      case Builtin(Snapshot) =>
        (match Arg(args, 0)
         case String(path) =>
           if m.disk(path, c.steps) then Carry(c, String(Ascii("saved")))
           else Carry(c, String(Ascii("restored"))).(fate := Died(Message(Ascii("Snapshot: cannot write"))))
         case _ => c.(fate := Died(TypeError(Ascii("Snapshot: expected file path string")))))
      case Builtin(Join) =>
        (match Arg(args, 0)
         case Int(n) =>
           c.(fate := if AsU32(n) == 0 then Stuck else Died(InternalError(Ascii("Join: fiber not found"))))
         case _ => c.(fate := Died(TypeError(Ascii("Join: expected fiber id")))))
      case Builtin(Fork) => c.(fate := Left)
  }

  function Carry(c: Core, v: JSValue): Core {
    c.(regs := c.regs.(control := Value(v)))
  }

  ghost function MicroN(m: Machine, effects: map<Str, EffectKind>, c: Core, n: nat): Core
    decreases n
  {
    if n == 0 then c else MicroN(m, effects, Micro(m, effects, c), n - 1)
  }

  lemma {:induction false} MicroAdds(m: Machine, effects: map<Str, EffectKind>, c: Core, a: nat, b: nat)
    ensures MicroN(m, effects, c, a + b) == MicroN(m, effects, MicroN(m, effects, c, a), b)
    decreases a
  {
    if a > 0 { MicroAdds(m, effects, Micro(m, effects, c), a - 1, b); }
  }

  lemma {:induction false} RestStays(m: Machine, effects: map<Str, EffectKind>, c: Core, n: nat)
    requires !c.fate.Going?
    ensures MicroN(m, effects, c, n) == c
    decreases n
  {
    if n > 0 { RestStays(m, effects, c, n - 1); }
  }

  ghost predicate LeadsTo(m: Machine, effects: map<Str, EffectKind>, c: Core, d: Core) {
    exists n: nat :: MicroN(m, effects, c, n) == d
  }

  lemma LeadsVia(m: Machine, effects: map<Str, EffectKind>, c: Core, d: Core, e: Core)
    requires LeadsTo(m, effects, c, d) && LeadsTo(m, effects, d, e)
    ensures LeadsTo(m, effects, c, e)
  {
    var a: nat :| MicroN(m, effects, c, a) == d;
    var b: nat :| MicroN(m, effects, d, b) == e;
    MicroAdds(m, effects, c, a, b);
  }

  lemma LeadsOne(m: Machine, effects: map<Str, EffectKind>, c: Core)
    ensures LeadsTo(m, effects, c, c) && LeadsTo(m, effects, c, Micro(m, effects, c))
  {
    assert MicroN(m, effects, c, 0) == c;
    assert MicroN(m, effects, c, 1) == MicroN(m, effects, Micro(m, effects, c), 0);
  }

  /** Where the fiber comes to rest is determined. */
  lemma RestIsUnique(m: Machine, effects: map<Str, EffectKind>, c: Core, d: Core, e: Core)
    requires LeadsTo(m, effects, c, d) && LeadsTo(m, effects, c, e) && !d.fate.Going? && !e.fate.Going?
    ensures d == e
  {
    hide Micro;
    var a: nat :| MicroN(m, effects, c, a) == d;
    var b: nat :| MicroN(m, effects, c, b) == e;
    if a <= b {
      MicroAdds(m, effects, c, a, b - a);
      RestStays(m, effects, d, b - a);
    } else {
      MicroAdds(m, effects, c, b, a - b);
      RestStays(m, effects, e, a - b);
    }
  }

  /** What a slice has done when it ends, before the scheduler reacts. */
  function SliceCore(sl: Slice, steps: nat): Core {
    var c := Core(sl.heap, sl.regs, steps + sl.spent, Going);
    match sl.end
    case Preempted => c
    case Finished(v) => c.(fate := Over(v))
    case Suspended(effect, args) => c.(regs := c.regs.(control := Suspend(effect, args)))
    case Crashed(e) => c.(fate := Died(e))
  }

  lemma {:induction false} SliceIsMicro(
      m: Machine, effects: map<Str, EffectKind>, h: Heap, r: Regs, steps: nat, a: nat)
    ensures LeadsTo(m, effects, Core(h, r, steps, Going), SliceCore(RunSlice(m, h, r, a), steps))
    decreases a
  {
    hide LeadsTo;
    var c := Core(h, r, steps, Going);
    LeadsOne(m, effects, c);
    if Runnable(r.control) && a > 0 && m.step(h, r).Stepped? {
      SliceIsMicro(m, effects, m.step(h, r).heap, m.step(h, r).regs, steps + 1, a - 1);
      LeadsVia(m, effects, c, Micro(m, effects, c), SliceCore(RunSlice(m, h, r, a), steps));
    }
  }

  // ---------- The fiber under the scheduler ----------

  ghost predicate Alone(s: State) {
    Inv(s) && Lonely(s)
  }

  /** The root waits for itself. */
  ghost predicate JoinedItself(s: State) {
    0 in s.waiters
  }

  /** Only the root fiber, holding only the root meter. */
  ghost predicate Lonely(s: State) {
    && |s.fibers| == 1 && s.fibers[0].id == 0 && s.fibers[0].meter == ROOT
    && (s.waiters == map[] || s.waiters == map[0 := [0]])
    && (JoinedItself(s) ==> s.current.None? && s.fibers[0].status.Ready?)
    && (s.current == Some(0) || s.current.None?)
    && s.ready == (if s.current.None? && s.fibers[0].status.Ready? && !JoinedItself(s) then [0] else [])
    && (s.current == Some(0) ==> s.fibers[0].status.Running? || s.fibers[0].status.Ready?)
    && (s.current.None? ==> !s.fibers[0].status.Running? && !s.fibers[0].status.Failed?)
  }

  ghost function CoreOf(s: State): Core
    requires Lonely(s)
  {
    var f := s.fibers[0];
    if s.current.Some? then Core(s.heap, s.regs, s.steps, Going)
    else if JoinedItself(s) then Core(s.heap, f.regs, s.steps, Stuck)
    else
      match f.status
      case Completed(v) => Core(s.heap, s.regs, s.steps, Over(v))
      case BlockedOnHost(effect, args) => Core(s.heap, f.regs, s.steps, Asked(effect, args))
      case _ => Core(s.heap, f.regs, s.steps, Going)
  }

  /** A turn's outcome, as the lone fiber sees it. */
  ghost predicate Shows(r: TurnResult, effects: map<Str, EffectKind>, c: Core) {
    && r.s.effects == effects
    && match r
       case Raise(s, e) => c == Core(s.heap, s.regs, s.steps, Died(e))
       case _ => Lonely(r.s) && c == CoreOf(r.s)
  }

  lemma StartAlone(p: Program, grants: seq<Str>, budget: Option<u64>, quantum: u64)
    requires p.Valid() && quantum > 0
    ensures var s := Start(p, grants, budget, quantum);
      Alone(s) && CoreOf(s) == Core(p.heap, p.regs, 0, Going) && s.effects == Effects(grants)
  {
    StartInv(p, grants, budget, quantum);
  }

  lemma OneFiber(s: State)
    requires |s.fibers| == 1 && s.fibers[0].id == 0
    ensures Live(s.fibers, 0) && FiberOf(s.fibers, 0) == s.fibers[0]
    ensures forall f: Fiber :: f.id == 0 ==> SetFiber(s.fibers, f) == [f]
    ensures s.current == Some(0) ==> HasCurrent(s) && Current(s) == s.fibers[0]
  {
    assert IndexOf(s.fibers, 0) == 0;
  }

  lemma SelectAlone(s: State)
    requires Alone(s) && s.current.None? && s.ready != []
    ensures SelectNext.requires(s) && Alone(SelectNext(s)) && CoreOf(SelectNext(s)) == CoreOf(s)
    ensures SelectNext(s).current == Some(0) && SelectNext(s).effects == s.effects
  {
    hide Inv;
    OneFiber(s);
    SelectKeepsInv(s);
  }

  /** The root fiber's effects, when it is alone. */
  lemma EffectAlone(m: Machine, s: State, effect: Str, args: seq<JSValue>, main: JSValue)
    requires NoCollector(m) && Structure(s) && Lonely(s) && s.current == Some(0)
    requires s.regs.control == Suspend(effect, [])
    requires HasCurrent(s) && WellFormed(s.meters)
    requires forall id :: Live(s.fibers, id) ==> FiberOf(s.fibers, id).meter < |s.meters|
    requires AfterEffect.requires(HandleEffect(m, s, effect, args), main)
    requires !Perform(m, s.effects, Core(s.heap, s.regs, s.steps, Going), effect, args).fate.Left?
    ensures Shows(AfterEffect(HandleEffect(m, s, effect, args), main), s.effects,
                  Perform(m, s.effects, Core(s.heap, s.regs, s.steps, Going), effect, args))
  {
    hide Structure, WellFormed, HostArgs, SetFiber, FiberOf, Live, Ascii, HandleFork, HandleJoin, TotalAllocations,
         HandleHost, HandleSnapshot;
    if effect in s.effects && s.effects[effect] == Builtin(Join) {
      JoinEffectAlone(m, s, effect, args, main);
      return;
    }
    var s1 := CollectIfDue(m, s);
    assert s1 == s.(allocMark := s1.allocMark);
    OneFiber(s);
    OneFiber(s1);
    if effect in s.effects && s.effects[effect] == Builtin(Snapshot) { SnapshotAlone(m, s1, args); }
    if effect in s.effects && s.effects[effect] == Host { HostAlone(s1, effect, args); }
  }

  lemma JoinEffectAlone(m: Machine, s: State, effect: Str, args: seq<JSValue>, main: JSValue)
    requires NoCollector(m) && Structure(s) && Lonely(s) && s.current == Some(0)
    requires s.regs.control == Suspend(effect, []) && effect in s.effects && s.effects[effect] == Builtin(Join)
    requires HasCurrent(s) && WellFormed(s.meters)
    requires forall id :: Live(s.fibers, id) ==> FiberOf(s.fibers, id).meter < |s.meters|
    requires AfterEffect.requires(HandleEffect(m, s, effect, args), main)
    ensures Shows(AfterEffect(HandleEffect(m, s, effect, args), main), s.effects,
                  Perform(m, s.effects, Core(s.heap, s.regs, s.steps, Going), effect, args))
  {
    hide Structure, WellFormed, SetFiber, FiberOf, Live, Ascii, HandleJoin, TotalAllocations;
    var s1 := CollectIfDue(m, s);
    assert s1 == s.(allocMark := s1.allocMark);
    OneFiber(s);
    OneFiber(s1);
    JoinAlone(s1, args);
  }

  lemma JoinAlone(s: State, args: seq<JSValue>)
    requires Lonely(s) && s.current == Some(0) && HasCurrent(s) && WellFormed(s.meters)
    requires forall id :: Live(s.fibers, id) ==> FiberOf(s.fibers, id).meter < |s.meters|
    ensures var r := HandleJoin(s, args);
      match Arg(args, 0)
      case Int(n) =>
        if AsU32(n) != 0 then r == Error(s, InternalError(Ascii("Join: fiber not found")))
        else r.Block? && r.s == s.(waiters := map[0 := [0]],
                                   fibers := [s.fibers[0].(regs := s.regs, status := Ready)])
      case _ => r == Error(s, TypeError(Ascii("Join: expected fiber id")))
  {
    hide Ascii, WellFormed, RemoveFiber, JoinResult;
    OneFiber(s);
    assert s.waiters == map[];
    var none: seq<FiberId> := [];
    assert none + [0] == [0];
    assert AddWaiter(s.waiters, 0, 0) == map[0 := none + [0]];
  }

  lemma HostAlone(s: State, effect: Str, args: seq<JSValue>)
    requires Lonely(s) && s.current == Some(0) && HasCurrent(s)
    ensures var r := HandleHost(s, effect, args);
      match HostArgs(s.heap.objects.data, args)
      case None => r == Error(s, CANNOT_CROSS)
      case Some(hostArgs) =>
        r.Block? && r.s == s.(fibers := [s.fibers[0].(regs := s.regs, status := BlockedOnHost(effect, hostArgs))])
  {
    hide HostArgs;
    OneFiber(s);
  }

  lemma SnapshotAlone(m: Machine, s: State, args: seq<JSValue>)
    requires Lonely(s) && s.current == Some(0) && HasCurrent(s)
    ensures var r := HandleSnapshot(m, s, args);
      match Arg(args, 0)
      case String(path) =>
        if m.disk(path, s.steps) then
          && r.Resume? && Lonely(r.s) && r.s.current == Some(0) && r.s.effects == s.effects
          && r.s == s.(fibers := r.s.fibers, regs := s.regs.(control := Value(String(Ascii("saved")))))
        else
          && r.Error? && r.error == Message(Ascii("Snapshot: cannot write")) && r.s.current == Some(0)
          && r.s == s.(fibers := r.s.fibers, regs := s.regs.(control := Value(String(Ascii("restored")))))
      case _ => r == Error(s, TypeError(Ascii("Snapshot: expected file path string")))
  {
    hide Ascii;
    OneFiber(s);
  }

  lemma PreemptAlone(m: Machine, s: State)
    requires NoCollector(m) && Lonely(s) && s.current == Some(0) && HasCurrent(s)
    ensures var r := Requeue(m, s);
      Lonely(r) && r.effects == s.effects && CoreOf(r) == Core(s.heap, s.regs, s.steps, Going)
    ensures var r := SaveCurrent(s).(current := None, ready := [0] + s.ready);
      Lonely(r) && r.effects == s.effects && CoreOf(r) == Core(s.heap, s.regs, s.steps, Going)
  {
    OneFiber(s);
  }

  lemma CompleteAlone(s: State, v: JSValue)
    requires Lonely(s) && s.current == Some(0) && Complete.requires(s, v)
    ensures var r := Complete(s, v).(current := None);
      Lonely(r) && r.effects == s.effects && CoreOf(r) == Core(s.heap, s.regs, s.steps, Over(v))
  {
    OneFiber(s);
  }

  lemma CurrentTurnAlone(m: Machine, s: State, main: JSValue) returns (d: Core)
    requires NoCollector(m) && Alone(s) && s.current == Some(0)
    requires forall n: nat :: !MicroN(m, s.effects, CoreOf(s), n).fate.Left?
    ensures Shows(CurrentTurn(m, s, main), s.effects, d) && LeadsTo(m, s.effects, CoreOf(s), d)
  {
    hide Structure, WellFormed, RunSlice, Requeue, AfterSlice, SetFiber, FiberOf, Live, Micro, Ascii, Poised;
    JoinersLive(s);
    OneFiber(s);
    var c := CoreOf(s);
    if s.meters[ROOT].remaining == Some(0) {
      PreemptAlone(m, s);
      LeadsOne(m, s.effects, c);
      d := c;
    } else {
      var sl := RunSlice(m, s.heap, s.regs, Allowance(s));
      SliceIsMicro(m, s.effects, s.heap, s.regs, s.steps, Allowance(s));
      SliceBounds(m, s.heap, s.regs, Allowance(s));
      ChargeKeepsStructure(m, s);
      var s1 := Charge(s, sl);
      JoinersLive(s1);
      var mid := SliceCore(sl, s.steps);
      d := if sl.end.Suspended? then Micro(m, s.effects, mid) else mid;
      LeadsOne(m, s.effects, mid);
      LeadsVia(m, s.effects, c, mid, d);
      AfterSliceAlone(m, s1, sl.end, main);
    }
  }

  /** What the scheduler makes of the end of a slice. */
  lemma AfterSliceAlone(m: Machine, s: State, end: SliceEnd, main: JSValue)
    requires NoCollector(m) && Structure(s) && Lonely(s) && s.current == Some(0)
    requires end.Suspended? ==> s.regs.control == Suspend(end.effect, [])
    requires var c := SliceCore(Slice(s.heap, s.regs, 0, end), s.steps);
      end.Suspended? ==> !Micro(m, s.effects, c).fate.Left?
    ensures var c := SliceCore(Slice(s.heap, s.regs, 0, end), s.steps);
      Shows(AfterSlice(m, s, end, main), s.effects, if end.Suspended? then Micro(m, s.effects, c) else c)
  {
    hide Structure, WellFormed, Requeue, HandleEffect, AfterEffect, Complete, SetFiber, FiberOf, Live, Micro, Ascii,
         Poised;
    JoinersLive(s);
    OneFiber(s);
    match end {
      case Finished(v) => CompleteAlone(s, v);
      case Preempted => PreemptAlone(m, s);
      case Crashed(e) =>
      case Suspended(effect, args) =>
        EffectErrorKeepsStructure(m, s, effect, args);
        var c := SliceCore(Slice(s.heap, s.regs, 0, end), s.steps);
        MicroOfSuspend(m, s.effects, s, c, effect, args);
        EffectAlone(m, s, effect, args, main);
    }
  }

  lemma MicroOfSuspend(
      m: Machine, effects: map<Str, EffectKind>, s: State, c: Core, effect: Str, args: seq<JSValue>)
    requires c == Core(s.heap, s.regs.(control := Suspend(effect, args)), s.steps, Going)
    requires s.regs.control == Suspend(effect, [])
    ensures Micro(m, effects, c) == Perform(m, effects, Core(s.heap, s.regs, s.steps, Going), effect, args)
  {
    hide Perform;
  }

  lemma TurnAlone(m: Machine, s: State, main: JSValue) returns (d: Core)
    requires NoCollector(m) && Alone(s)
    requires forall n: nat :: !MicroN(m, s.effects, CoreOf(s), n).fate.Left?
    ensures Shows(Turn(m, s, main), s.effects, d) && LeadsTo(m, s.effects, CoreOf(s), d)
    ensures !Turn(m, s, main).Raise? ==> Alone(Turn(m, s, main).s)
  {
    hide Inv, CurrentTurn, SelectNext, Micro, LeadsTo, RootResult;
    TurnKeepsInv(m, s, main);
    if s.current.Some? {
      d := CurrentTurnAlone(m, s, main);
    } else if s.ready != [] {
      SelectAlone(s);
      d := CurrentTurnAlone(m, SelectNext(s), main);
    } else {
      LeadsOne(m, s.effects, CoreOf(s));
      d := CoreOf(s);
    }
  }

  // ---------- Whole runs ----------

  datatype Pace = TakeTurn(main: JSValue) | Refuel(amount: u64)

  /** Turns and refuels in any order; a raised error ends the run. */
  ghost function Play(m: Machine, s: State, moves: seq<Pace>): (r: (State, Option<JSError>))
    requires Inv(s)
    decreases |moves|
  {
    if moves == [] then (s, None)
    else
      match moves[0]
      case TakeTurn(main) =>
        TurnKeepsInv(m, s, main);
        var r := Turn(m, s, main);
        if r.Raise? then (r.s, Some(r.error)) else Play(m, r.s, moves[1..])
      case Refuel(amount) =>
        if OutOfRootFuel(s) then
          TopUpKeepsInv(s, amount);
          Play(m, TopUp(s, amount), moves[1..])
        else Play(m, s, moves[1..])
  }

  /** What a run has come to. */
  ghost function Result(r: (State, Option<JSError>)): Core
    requires r.1.None? ==> Lonely(r.0)
  {
    match r.1
    case Some(e) => Core(r.0.heap, r.0.regs, r.0.steps, Died(e))
    case None => CoreOf(r.0)
  }

  lemma LeftLater(m: Machine, effects: map<Str, EffectKind>, c: Core, d: Core)
    requires LeadsTo(m, effects, c, d) && forall n: nat :: !MicroN(m, effects, c, n).fate.Left?
    ensures forall n: nat :: !MicroN(m, effects, d, n).fate.Left?
  {
    var a: nat :| MicroN(m, effects, c, a) == d;
    forall n: nat ensures !MicroN(m, effects, d, n).fate.Left? { MicroAdds(m, effects, c, a, n); }
  }

  /** However it is paced, a run only ever shows points of the one computation. */
  lemma {:induction false} PlayAlone(m: Machine, s: State, moves: seq<Pace>)
    requires NoCollector(m) && Alone(s)
    requires forall n: nat :: !MicroN(m, s.effects, CoreOf(s), n).fate.Left?
    ensures Play(m, s, moves).1.None? ==> Alone(Play(m, s, moves).0)
    ensures Play(m, s, moves).0.effects == s.effects
    ensures LeadsTo(m, s.effects, CoreOf(s), Result(Play(m, s, moves)))
    decreases |moves|
  {
    hide Inv, Turn, Micro, MicroN, LeadsTo, Lonely;
    LeadsOne(m, s.effects, CoreOf(s));
    if moves != [] {
      match moves[0] {
        case TakeTurn(main) =>
          TurnKeepsInv(m, s, main);
          var d := TurnAlone(m, s, main);
          var r := Turn(m, s, main);
          if !r.Raise? {
            LeftLater(m, s.effects, CoreOf(s), d);
            PlayAlone(m, r.s, moves[1..]);
            LeadsVia(m, s.effects, CoreOf(s), d, Result(Play(m, s, moves)));
          }
        case Refuel(amount) =>
          MetersExist(s);
          if OutOfRootFuel(s) {
            TopUpAlone(s, amount);
            PlayAlone(m, TopUp(s, amount), moves[1..]);
          } else {
            PlayAlone(m, s, moves[1..]);
          }
      }
    }
  }

  lemma MetersExist(s: State)
    requires Inv(s)
    ensures |s.meters| > 0
  {
  }

  lemma TopUpAlone(s: State, amount: u64)
    requires Alone(s) && |s.meters| > 0
    ensures Alone(TopUp(s, amount)) && CoreOf(TopUp(s, amount)) == CoreOf(s) && TopUp(s, amount).effects == s.effects
  {
    hide Inv;
    TopUpKeepsInv(s, amount);
  }

  /** Two runs from the same point, with any quanta, budgets, pauses and
      refuels, that both come to rest, rest in the same place: same result, same
      heap and registers, same number of steps. */
  lemma SlicingIsInvisible(m: Machine, s: State, moves: seq<Pace>, t: State, moves': seq<Pace>)
    requires NoCollector(m) && Alone(s) && Alone(t) && CoreOf(s) == CoreOf(t) && s.effects == t.effects
    requires forall n: nat :: !MicroN(m, s.effects, CoreOf(s), n).fate.Left?
    requires Play(m, s, moves).1.None? ==> Lonely(Play(m, s, moves).0) && !CoreOf(Play(m, s, moves).0).fate.Going?
    requires Play(m, t, moves').1.None? ==> Lonely(Play(m, t, moves').0) && !CoreOf(Play(m, t, moves').0).fate.Going?
    ensures Result(Play(m, s, moves)) == Result(Play(m, t, moves'))
  {
    hide Inv, Play, Micro, MicroN, LeadsTo, Lonely, CoreOf;
    PlayAlone(m, s, moves);
    PlayAlone(m, t, moves');
    RestIsUnique(m, s.effects, CoreOf(s), Result(Play(m, s, moves)), Result(Play(m, t, moves')));
  }

  /** A host answer carries on from the resting point, whatever the pacing was:
      runs that agree before it agree after it. */
  lemma AnswerAlone(s: State, t: State, answer: HostValue)
    requires Alone(s) && Alone(t) && CoreOf(s) == CoreOf(t) && CoreOf(s).fate.Asked?
    ensures IsPending(s, 0) && IsPending(t, 0)
    ensures Alone(ApplyAnswer(s, 0, answer)) && Alone(ApplyAnswer(t, 0, answer))
    ensures CoreOf(ApplyAnswer(s, 0, answer)) == CoreOf(ApplyAnswer(t, 0, answer))
    ensures CoreOf(ApplyAnswer(s, 0, answer)).fate.Going?
    ensures ApplyAnswer(s, 0, answer).effects == s.effects && ApplyAnswer(t, 0, answer).effects == t.effects
  {
    hide Inv, FromHost;
    OneFiber(s);
    OneFiber(t);
    AnswerKeepsInv(s, 0, answer);
    AnswerKeepsInv(t, 0, answer);
  }

  // ---------- Conversations ----------

  /** Some pacing up to a rest, then the host's answer. */
  datatype Phase = Phase(moves: seq<Pace>, answer: HostValue)

  /** Phases until one does not end in a question. */
  ghost function Talk(m: Machine, s: State, phases: seq<Phase>): (r: (State, Option<JSError>))
    requires Inv(s)
    decreases |phases|
  {
    if phases == [] then (s, None)
    else
      var r := Play(m, s, phases[0].moves);
      if r.1.Some? || !IsPending(r.0, 0) then r
      else
        PlayKeepsInv(m, s, phases[0].moves);
        AnswerKeepsInv(r.0, 0, phases[0].answer);
        Talk(m, ApplyAnswer(r.0, 0, phases[0].answer), phases[1..])
  }

  lemma {:induction false} PlayKeepsInv(m: Machine, s: State, moves: seq<Pace>)
    requires Inv(s)
    ensures Play(m, s, moves).1.None? ==> Inv(Play(m, s, moves).0)
    decreases |moves|
  {
    hide Inv, Turn;
    if moves != [] {
      match moves[0] {
        case TakeTurn(main) =>
          TurnKeepsInv(m, s, main);
          if !Turn(m, s, main).Raise? { PlayKeepsInv(m, Turn(m, s, main).s, moves[1..]); }
        case Refuel(amount) =>
          MetersExist(s);
          TopUpKeepsInv(s, amount);
          PlayKeepsInv(m, if OutOfRootFuel(s) then TopUp(s, amount) else s, moves[1..]);
      }
    }
  }

  /** Every phase comes to rest, in the lone fiber's world. */
  ghost predicate Settles(m: Machine, s: State, phases: seq<Phase>)
    decreases |phases|
  {
    && Alone(s)
    && (phases != [] ==>
          && (forall n: nat :: !MicroN(m, s.effects, CoreOf(s), n).fate.Left?)
          && var r := Play(m, s, phases[0].moves);
             r.1.None? ==> Alone(r.0) && !CoreOf(r.0).fate.Going?
                           && (IsPending(r.0, 0) ==> Settles(m, ApplyAnswer(r.0, 0, phases[0].answer), phases[1..])))
  }

  ghost predicate SameAnswers(ps: seq<Phase>, qs: seq<Phase>) {
    |ps| == |qs| && forall i :: 0 <= i < |ps| ==> ps[i].answer == qs[i].answer
  }

  lemma AskedIsPending(s: State)
    requires Alone(s)
    ensures IsPending(s, 0) <==> CoreOf(s).fate.Asked?
  {
    hide Inv;
    OneFiber(s);
  }

  /** Whole conversations: given the same answers, runs paced in any way in every
      phase come to the same. */
  lemma {:induction false} ConversationsAgree(m: Machine, s: State, ps: seq<Phase>, t: State, qs: seq<Phase>)
    requires NoCollector(m) && Settles(m, s, ps) && Settles(m, t, qs) && SameAnswers(ps, qs)
    requires CoreOf(s) == CoreOf(t) && s.effects == t.effects
    ensures Talk(m, s, ps).1.None? ==> Lonely(Talk(m, s, ps).0)
    ensures Talk(m, t, qs).1.None? ==> Lonely(Talk(m, t, qs).0)
    ensures Result(Talk(m, s, ps)) == Result(Talk(m, t, qs))
    decreases |ps|
  {
    hide Inv, Play, Lonely, CoreOf, MicroN, ApplyAnswer;
    if ps != [] {
      var r, q := Play(m, s, ps[0].moves), Play(m, t, qs[0].moves);
      PlayAlone(m, s, ps[0].moves);
      PlayAlone(m, t, qs[0].moves);
      SlicingIsInvisible(m, s, ps[0].moves, t, qs[0].moves);
      if r.1.None? { AskedIsPending(r.0); }
      if q.1.None? { AskedIsPending(q.0); }
      if r.1.None? && q.1.None? && IsPending(r.0, 0) {
        AnswerAlone(r.0, q.0, ps[0].answer);
        ConversationsAgree(m, ApplyAnswer(r.0, 0, ps[0].answer), ps[1..], ApplyAnswer(q.0, 0, qs[0].answer), qs[1..]);
      }
    }
  }

  /** A lone fiber's entry: it shows a point of the one computation, and is Done
      with the fiber's own result, or because the fiber waits for itself. */
  lemma {:induction false} LoopAlone(m: Machine, s: State, main: JSValue, n: nat) returns (d: Core)
    requires NoCollector(m) && Alone(s)
    requires forall k: nat :: !MicroN(m, s.effects, CoreOf(s), k).fate.Left?
    ensures var r := Loop(m, s, main, n);
      && Shows(r, s.effects, d) && LeadsTo(m, s.effects, CoreOf(s), d)
      && (r.Return? && r.outcome.Done? ==> d.fate == Over(r.outcome.v) || d.fate.Stuck?)
    decreases n
  {
    hide Inv, Turn, Micro, MicroN, LeadsTo, Lonely;
    if n == 0 {
      LeadsOne(m, s.effects, CoreOf(s));
      d := CoreOf(s);
    } else {
      TurnKeepsInv(m, s, main);
      d := TurnAlone(m, s, main);
      DoneAlone(m, s, main);
      var r := Turn(m, s, main);
      if r.Again? {
        LeftLater(m, s.effects, CoreOf(s), d);
        var e := LoopAlone(m, r.s, r.main, n - 1);
        LeadsVia(m, s.effects, CoreOf(s), d, e);
        d := e;
      }
    }
  }

  lemma DoneAlone(m: Machine, s: State, main: JSValue)
    requires Alone(s)
    ensures var r := Turn(m, s, main);
      r.Return? && r.outcome.Done? ==> r.s == s && (CoreOf(s).fate == Over(r.outcome.v) || CoreOf(s).fate.Stuck?)
  {
    hide Inv, CurrentTurn, SelectNext;
    OneFiber(s);
    if s.current.Some? {
      CurrentNeverDone(m, s, main);
    } else if s.ready != [] {
      SelectKeepsInv(s);
      CurrentNeverDone(m, SelectNext(s), main);
    } else {
      assert s.fibers[1..] == [];
    }
  }

  /** A lone fiber whose own computation never dies makes no entry raise. */
  lemma {:induction false} UndyingNeverRaises(m: Machine, s: State, main: JSValue, n: nat)
    requires NoCollector(m) && Alone(s)
    requires forall k: nat :: !MicroN(m, s.effects, CoreOf(s), k).fate.Left?
    requires forall k: nat :: !MicroN(m, s.effects, CoreOf(s), k).fate.Died?
    ensures !Loop(m, s, main, n).Raise?
    decreases n
  {
    hide Inv, Turn, Micro, MicroN, LeadsTo, Lonely;
    if n > 0 {
      TurnKeepsInv(m, s, main);
      var d := TurnAlone(m, s, main);
      var r := Turn(m, s, main);
      DiedLater(m, s.effects, CoreOf(s), d);
      if r.Again? {
        LeftLater(m, s.effects, CoreOf(s), d);
        UndyingNeverRaises(m, r.s, r.main, n - 1);
      }
    }
  }

  lemma DiedLater(m: Machine, effects: map<Str, EffectKind>, c: Core, d: Core)
    requires LeadsTo(m, effects, c, d) && forall n: nat :: !MicroN(m, effects, c, n).fate.Died?
    ensures !d.fate.Died?
    ensures forall n: nat :: !MicroN(m, effects, d, n).fate.Died?
  {
    var a: nat :| MicroN(m, effects, c, a) == d;
    forall n: nat ensures !MicroN(m, effects, d, n).fate.Died? { MicroAdds(m, effects, c, a, n); }
  }
}
