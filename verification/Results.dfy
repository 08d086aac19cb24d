/** What becomes of a finished root's result: it stays in the table until a join
    consumes it, and the entry in which the root finished still reports it. */
module Results {
  import opened Values
  import opened Fuel
  import opened Boundary
  import opened Fibers
  import opened Placement
  import opened Scheduler
  import opened Runs
  import opened Entries

  /** `id` is nowhere revived, and its record does not change once it is
      finished. */
  ghost predicate Undisturbed(fs: seq<Fiber>, gs: seq<Fiber>, id: FiberId) {
    Live(gs, id) ==>
      Live(fs, id) && (!Unfinished(FiberOf(fs, id)) ==> FiberOf(gs, id) == FiberOf(fs, id))
  }

  lemma SetUndisturbed(fs: seq<Fiber>, f: Fiber, id: FiberId)
    requires Live(fs, f.id) && Unfinished(FiberOf(fs, f.id))
    ensures Undisturbed(fs, SetFiber(fs, f), id)
  {
    hide IndexOf, SetFiber;
    SetFiberLive(fs, f);
  }

  lemma RemoveUndisturbed(s: State, gone: FiberId, id: FiberId)
    requires WellFormed(s.meters) && TableValid(s.fibers, s.nextId, s.meters) && Live(s.fibers, gone)
    ensures FiberOf(s.fibers, gone).meter < |s.meters|
    ensures Undisturbed(s.fibers, RemoveFiber(s, gone).fibers, id) && !Live(RemoveFiber(s, gone).fibers, gone)
  {
    hide IndexOf, RemoveFiber, WellFormed, TableValid;
    RemoveKeepsTable(s, gone);
    var t := RemoveFiber(s, gone);
    assert gone !in TableOf(t.fibers);
    if Live(t.fibers, id) { assert id in TableOf(t.fibers) && id in TableOf(s.fibers); }
  }

  lemma SpawnUndisturbed(s: State, regs: Regs, meter: MeterId, id: FiberId)
    requires Structure(s) && id < s.nextId
    ensures Undisturbed(s.fibers, Spawn(s, regs, meter).fibers, id)
  {
    hide Placed, WellFormed, IndexOf;
    var f := Fiber(s.nextId, regs, Ready, meter);
    AppendTable(s.fibers, f);
    if Live(s.fibers + [f], id) { assert id in TableOf(s.fibers + [f]) && id in TableOf(s.fibers); }
  }

  /** Ending the current fiber wakes its joiners and touches no finished fiber;
      the ended one is finished or gone. */
  lemma FinishUndisturbed(s: State, status: FiberStatus, ok: bool, v: JSValue, id: FiberId)
    requires Structure(s) && s.current.Some? && (status.Completed? || status.Failed?)
    requires HasCurrent(s) && Current(s).meter < |s.meters|
    requires s.current.value in s.waiters ==>
               forall w :: w in s.waiters[s.current.value] ==> Live(s.fibers, w)
    ensures var t := Finish(s, status, ok, v);
      && Undisturbed(s.fibers, t.fibers, id)
      && (Live(t.fibers, s.current.value) ==> FiberOf(t.fibers, s.current.value).status == status)
  {
    hide Structure, Delivered, RemoveFiber, Deliver, SetFiber, IndexOf, FiberOf, Undisturbed;
    var c := s.current.value;
    var ended := Current(s).(status := status);
    CurrentUnfinished(s);
    SetUndisturbed(s.fibers, ended, id);
    SetFiberLive(s.fibers, ended);
    if c in s.waiters {
      var s1 := s.(fibers := SetFiber(s.fibers, ended), waiters := s.waiters - {c});
      DeliverKeeps(s1, s.waiters[c], ok, v);
      var s2 := Deliver(s1, s.waiters[c], ok, v);
      FinishJoinedUndisturbed(s, s1, s2, status, id);
    }
  }

  lemma CurrentUnfinished(s: State)
    requires Structure(s) && s.current.Some?
    ensures HasCurrent(s) && Unfinished(Current(s))
  {
    assert s.current.value in TableOf(s.fibers);
  }

  lemma FinishJoinedUndisturbed(s: State, s1: State, s2: State, status: FiberStatus, id: FiberId)
    requires Structure(s) && s.current.Some? && (status.Completed? || status.Failed?)
    requires HasCurrent(s) && s.current.value in s.waiters
    requires s1 == s.(fibers := SetFiber(s.fibers, Current(s).(status := status)),
                      waiters := s.waiters - {s.current.value})
    requires Delivered(s1, s2, s.waiters[s.current.value])
    requires Undisturbed(s.fibers, s1.fibers, id)
    ensures Live(s2.fibers, s.current.value)
    ensures FiberOf(s2.fibers, s.current.value).meter < |s2.meters| && WellFormed(s2.meters)
    ensures var t := RemoveFiber(s2, s.current.value);
      Undisturbed(s.fibers, t.fibers, id) && !Live(t.fibers, s.current.value)
  {
    hide WellFormed, TableValid, SetFiber, IndexOf, RemoveFiber, SameIds, FiberOf;
    var c := s.current.value;
    var ended := Current(s).(status := status);
    SetCurrentStructure(s, ended);
    TableValidBySameIds(s1.fibers, s2.fibers, s.nextId, s.meters);
    SetFiberLive(s.fibers, ended);
    RemoveUndisturbed(s2, c, id);
    if Live(s2.fibers, id) && id in s.waiters[c] {
      assert Waits(s.waiters, id, c) && id in TableOf(s.fibers);
    }
  }

  lemma UndisturbedTwice(fs: seq<Fiber>, mid: seq<Fiber>, gs: seq<Fiber>, id: FiberId)
    requires Undisturbed(fs, mid, id) && Undisturbed(mid, gs, id)
    ensures Undisturbed(fs, gs, id)
  {
  }

  lemma SaveUndisturbed(s: State, id: FiberId)
    requires Structure(s) && s.current.Some?
    ensures HasCurrent(s) && Undisturbed(s.fibers, SaveCurrent(s).fibers, id)
  {
    hide Structure, SetFiber, Undisturbed;
    CurrentUnfinished(s);
    SetUndisturbed(s.fibers, Current(s).(regs := s.regs, status := Ready), id);
  }

  lemma ForkUndisturbed(s: State, args: seq<JSValue>, id: FiberId)
    requires Structure(s) && HasCurrent(s) && Current(s).meter < |s.meters| && id < s.nextId
    ensures Undisturbed(s.fibers, HandleFork(s, args).s.fibers, id)
  {
    hide Structure, Spawn, Carved, Alloc, ForkFuel, HasCurrent, Current, Ascii, Undisturbed;
    Unchanged(s.fibers, id);
    if Arg(args, 0).Function? && Arg(args, 0).obj < |s.heap.objects.data| {
      match s.heap.objects.data[Arg(args, 0).obj].kind
      case Closure(data) =>
        var (conts, cont) := Alloc(s.heap.conts, Halt);
        var s1 := s.(heap := s.heap.(conts := conts));
        MachineStateFree(s, s1);
        var control := if data.exprBody.Some? then Expr(data.exprBody.value) else Stmt(data.body);
        var regs := Regs(control, cont, data.env);
        match ForkFuel(s1.heap, Arg(args, 1)) {
          case Err(e) =>
          case Ok(None) => SpawnUndisturbed(s1, regs, Current(s).meter, id);
          case Ok(Some(n)) =>
            if Carved(s1.meters, Current(s).meter, n).Some? {
              CarveSound(s1, Current(s).meter, n);
              SpawnUndisturbed(s1.(meters := Carved(s1.meters, Current(s).meter, n).value), regs, |s.meters|, id);
            }
        }
      case _ =>
    }
  }

  lemma Unchanged(fs: seq<Fiber>, id: FiberId)
    ensures Undisturbed(fs, fs, id)
  {
  }

  lemma JoinUndisturbed(s: State, args: seq<JSValue>, id: FiberId)
    requires Structure(s) && s.current.Some? && HasCurrent(s) && WellFormed(s.meters)
    requires forall id :: Live(s.fibers, id) ==> FiberOf(s.fibers, id).meter < |s.meters|
    ensures Undisturbed(s.fibers, HandleJoin(s, args).s.fibers, id)
  {
    hide RemoveFiber, JoinResult, SaveCurrent, Live, FiberOf, WellFormed, TableValid, Placed, AddWaiter, Ascii,
         Undisturbed;
    Unchanged(s.fibers, id);
    if Arg(args, 0).Int? {
      var target := AsU32(Arg(args, 0).n);
      if Live(s.fibers, target) {
        match FiberOf(s.fibers, target).status {
          case Completed(v) =>
            var (h, x) := JoinResult(s.heap, true, v);
            RemoveUndisturbed(s.(heap := h, regs := s.regs.(control := Value(x))), target, id);
          case Failed(e) =>
            var (h, x) := JoinResult(s.heap, false, String(Display(e)));
            RemoveUndisturbed(s.(heap := h, regs := s.regs.(control := Value(x))), target, id);
          case _ => WaitUndisturbed(s, target, id);
        }
      }
    }
  }

  lemma WaitUndisturbed(s: State, target: FiberId, id: FiberId)
    requires Structure(s) && s.current.Some? && HasCurrent(s)
    ensures Undisturbed(s.fibers, SaveCurrent(s.(waiters := AddWaiter(s.waiters, target, s.current.value))).fibers, id)
  {
    hide Structure, AddWaiter, Undisturbed, IndexOf, SetFiber;
    SaveUndisturbed(s, id);
  }

  lemma EffectUndisturbed(m: Machine, s0: State, effect: Str, args: seq<JSValue>, id: FiberId)
    requires Structure(s0) && s0.current.Some? && HasCurrent(s0) && WellFormed(s0.meters) && id < s0.nextId
    requires forall id :: Live(s0.fibers, id) ==> FiberOf(s0.fibers, id).meter < |s0.meters|
    ensures Undisturbed(s0.fibers, HandleEffect(m, s0, effect, args).s.fibers, id)
  {
    hide Structure, HandleFork, HandleJoin, Live, FiberOf, WellFormed, Ascii, Undisturbed, SetFiber, HostArgs;
    Unchanged(s0.fibers, id);
    CollectSound(m, s0);
    var s := CollectIfDue(m, s0);
    CurrentUnfinished(s);
    if effect in s.effects {
      match s.effects[effect] {
        case Host =>
          var hostArgs := HostArgs(s.heap.objects.data, args);
          if hostArgs.Some? {
            SetUndisturbed(
              s.fibers, Current(s).(regs := s.regs, status := BlockedOnHost(effect, hostArgs.value)), id);
          }
        case Builtin(Print) =>
        case Builtin(Fork) => ForkUndisturbed(s, args, id);
        case Builtin(Join) => JoinUndisturbed(s, args, id);
        case Builtin(Gc) =>
        case Builtin(Snapshot) =>
          var woken := s.regs.(control := Value(String(Ascii("restored"))));
          SetUndisturbed(s.fibers, Current(s).(regs := woken, status := Ready), id);
      }
    }
  }

  /** What one iteration does to a record, and to the result the entry reports. */
  ghost predicate Reports(s: State, main: JSValue, r: TurnResult, id: FiberId) {
    && Undisturbed(s.fibers, r.s.fibers, id)
    && (r.Again? ==> r.main == main || (s.current == Some(0) && RootSettled(r.s, r.main)))
  }

  /** The result an entry would report is that of a root that finished, and is
      finished still or gone. */
  ghost predicate RootSettled(s: State, main: JSValue) {
    main == Undefined || !Live(s.fibers, 0) || FiberOf(s.fibers, 0).status == Completed(main)
  }

  lemma FaultReports(s: State, e: JSError, main: JSValue, id: FiberId)
    requires Structure(s) && s.current.Some?
    ensures Reports(s, main, Fault(s, e, main), id)
  {
    hide Structure, Finish, Undisturbed, Live;
    JoinersLive(s);
    Unchanged(s.fibers, id);
    FinishUndisturbed(s, Failed(e), false, String(Display(e)), id);
  }

  lemma AfterEffectReports(m: Machine, s: State, effect: Str, args: seq<JSValue>, main: JSValue, id: FiberId)
    requires Structure(s) && s.current.Some? && HasCurrent(s) && WellFormed(s.meters) && id < s.nextId
    requires forall id :: Live(s.fibers, id) ==> FiberOf(s.fibers, id).meter < |s.meters|
    ensures var r := HandleEffect(m, s, effect, args);
      (r.Error? ==> Structure(r.s) && r.s.current.Some?) && Reports(s, main, AfterEffect(r, main), id)
  {
    hide Structure, HandleEffect, Live, Fault, Undisturbed, RootSettled;
    EffectKeeps(m, s, effect, args);
    EffectUndisturbed(m, s, effect, args, id);
    var r := HandleEffect(m, s, effect, args);
    if r.Error? {
      FaultReports(r.s, r.error, main, id);
      UndisturbedTwice(s.fibers, r.s.fibers, Fault(r.s, r.error, main).s.fibers, id);
    }
  }

  lemma CurrentTurnReports(m: Machine, s: State, main: JSValue, id: FiberId)
    requires Inv(s) && s.current.Some? && id < s.nextId
    ensures Reports(s, main, CurrentTurn(m, s, main), id)
  {
    hide Structure, RunSlice, Finish, HandleEffect, AfterEffect, Fault, SaveCurrent, Live, FiberOf, WellFormed,
         Undisturbed, SetFiber, Ascii;
    JoinersLive(s);
    SaveUndisturbed(s, id);
    if s.meters[Current(s).meter].remaining == Some(0) {
      var e := Message(Ascii("out_of_fuel"));
      FinishUndisturbed(s, Failed(e), false, String(Display(e)), id);
    } else {
      var sl := RunSlice(m, s.heap, s.regs, Allowance(s));
      var s1 := Charge(s, sl);
      ChargeKeepsStructure(m, s);
      ChargeLeaves(s, sl);
      JoinersLive(s1);
      match sl.end {
        case Finished(v) => CompleteReports(s1, v, id);
        case Suspended(effect, args) => AfterEffectReports(m, s1, effect, args, main, id);
        case Preempted => SaveUndisturbed(s1, id);
        case Crashed(e) => FaultReports(s1, e, main, id);
      }
    }
  }

  lemma CompleteReports(s: State, v: JSValue, id: FiberId)
    requires Structure(s) && s.current.Some? && HasCurrent(s) && WellFormed(s.meters) && Current(s).meter < |s.meters|
    requires s.current.value in s.waiters ==>
               forall w :: w in s.waiters[s.current.value] ==> Live(s.fibers, w)
    ensures Undisturbed(s.fibers, Complete(s, v).fibers, id)
    ensures s.current == Some(0) ==> RootSettled(Complete(s, v), v)
  {
    hide Structure, Finish, Undisturbed;
    FinishUndisturbed(s, Completed(v), true, v, id);
  }

  /** A finished fiber keeps its record until a join consumes it, and nothing
      takes its id; a turn changes the reported result only when the root ends. */
  lemma TurnReports(m: Machine, s: State, main: JSValue, id: FiberId)
    requires Inv(s) && id < s.nextId
    ensures Undisturbed(s.fibers, Turn(m, s, main).s.fibers, id)
    ensures RootSettled(s, main) && Turn(m, s, main).Again? ==> RootSettled(Turn(m, s, main).s, Turn(m, s, main).main)
  {
    hide Structure, CurrentTurn, SetFiber, IndexOf;
    if s.current.Some? || s.ready != [] {
      var s1 := s;
      if s.current.None? {
        SelectKeepsInv(s);
        s1 := SelectNext(s);
        ReadyUnfinished(s);
        SetUndisturbed(s.fibers, FiberOf(s.fibers, s.ready[0]).(status := Running), id);
        SetUndisturbed(s.fibers, FiberOf(s.fibers, s.ready[0]).(status := Running), 0);
      }
      CurrentTurnReports(m, s1, main, id);
      NextIdPositive(s1);
      CurrentTurnReports(m, s1, main, 0);
      UndisturbedTwice(s.fibers, s1.fibers, CurrentTurn(m, s1, main).s.fibers, id);
      UndisturbedTwice(s.fibers, s1.fibers, CurrentTurn(m, s1, main).s.fibers, 0);
    }
  }

  lemma ReadyUnfinished(s: State)
    requires Inv(s) && s.ready != []
    ensures Live(s.fibers, s.ready[0]) && FiberOf(s.fibers, s.ready[0]).status.Ready?
  {
    assert s.ready[0] in s.ready && s.ready[0] in TableOf(s.fibers);
  }

  lemma NextIdPositive(s: State)
    requires Inv(s) && s.current.Some?
    ensures s.nextId > 0
  {
    assert s.current.value in TableOf(s.fibers);
  }

  lemma {:induction false} LoopReports(m: Machine, s: State, main: JSValue, n: nat)
    requires Inv(s) && RootSettled(s, main)
    ensures var r := Loop(m, s, main, n);
      && (r.Again? ==> RootSettled(r.s, r.main))
      && (r.Return? && r.outcome.Done? ==>
            exists main' :: RootSettled(r.s, main') && r.outcome.v == RootResult(r.s, main'))
    decreases n
  {
    hide Inv, RootSettled, RootResult, CurrentTurn;
    if n > 0 {
      TurnKeepsInv(m, s, main);
      if s.nextId > 0 { TurnReports(m, s, main, 0); } else { NothingToRun(m, s, main); }
      TurnDone(m, s, main);
      match Turn(m, s, main)
      case Again(s', main') => LoopReports(m, s', main', n - 1);
      case _ =>
    }
  }

  lemma NothingToRun(m: Machine, s: State, main: JSValue)
    requires Inv(s) && s.nextId == 0
    ensures !Turn(m, s, main).Again?
  {
    if s.current.Some? { NextIdPositive(s); }
    else if s.ready != [] { ReadyUnfinished(s); }
  }

  lemma CurrentNeverDone(m: Machine, s: State, main: JSValue)
    requires Inv(s) && s.current.Some?
    ensures var r := CurrentTurn(m, s, main); r.Return? ==> r.outcome.OutOfFuel?
  {
    hide Structure, RunSlice, Complete, Fail, HandleEffect, Requeue, Charge, SaveCurrent, Live, FiberOf;
    JoinersLive(s);
    if s.meters[Current(s).meter].remaining != Some(0) { ChargeKeepsStructure(m, s); }
  }

  lemma TurnDone(m: Machine, s: State, main: JSValue)
    requires Inv(s)
    ensures var r := Turn(m, s, main);
      r.Return? && r.outcome.Done? ==> r.s == s && r.outcome.v == RootResult(s, main)
  {
    hide Structure, CurrentTurn, SelectNext, RootResult;
    if s.current.Some? {
      CurrentNeverDone(m, s, main);
    } else if s.ready != [] {
      SelectKeepsInv(s);
      CurrentNeverDone(m, SelectNext(s), main);
    }
  }

  /** Continuing a run that is done gives the same result again exactly when the
      root's record is still in the table, or the result was undefined anyway:
      a join on the root consumes the record, and the result with it. */
  lemma DoneAgain(m: Machine, s0: State, n: nat)
    requires Inv(s0) && Loop(m, s0, Undefined, n).Return? && Loop(m, s0, Undefined, n).outcome.Done?
    ensures var s := Loop(m, s0, Undefined, n).s;
      var v := Loop(m, s0, Undefined, n).outcome.v;
      RootResult(s, Undefined) == v <==> Live(s.fibers, 0) || v == Undefined
  {
    hide Inv, Loop, Live, FiberOf;
    LoopReports(m, s0, Undefined, n);
  }
}
