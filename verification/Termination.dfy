/** A scheduler entry with a finite root budget always returns: every turn that
    does not return lowers twice the remaining fuel plus the number of
    unfinished fibers (plus one while a faulted root waits to be re-entered). */
module Termination {
  import opened Values
  import opened Fuel
  import opened Boundary
  import opened Fibers
  import opened Placement
  import opened Scheduler
  import opened Runs
  import opened FuelLaws

  ghost function Alive(fs: seq<Fiber>): set<FiberId> {
    set id | id in TableOf(fs) && Unfinished(TableOf(fs)[id])
  }

  /** A root whose effect faulted is queued, to be re-entered suspended. */
  ghost predicate Dormant(s: State) {
    0 in s.ready && Live(s.fibers, 0) && FiberOf(s.fibers, 0).regs.control.Suspend?
  }

  /** The unfinished fibers of `t`, and no root newly dormant. */
  ghost predicate Tracks(s: State, t: State, alive: set<FiberId>) {
    Alive(t.fibers) == alive && (Dormant(t) ==> Dormant(s))
  }

  lemma SetAlive(fs: seq<Fiber>, f: Fiber)
    requires Live(fs, f.id)
    ensures Alive(SetFiber(fs, f)) == if Unfinished(f) then Alive(fs) + {f.id} else Alive(fs) - {f.id}
  {
    hide IndexOf, SetFiber;
    SetFiberTable(fs, f);
    var t := TableOf(fs);
    assert TableOf(SetFiber(fs, f)) == t[f.id := f];
  }

  lemma CurrentAlive(s: State)
    requires Structure(s) && s.current.Some?
    ensures s.current.value in Alive(s.fibers) && s.current.value !in s.ready
  {
    assert s.current.value in TableOf(s.fibers);
  }

  lemma RemoveTracks(s: State, id: FiberId)
    requires WellFormed(s.meters) && TableValid(s.fibers, s.nextId, s.meters) && Live(s.fibers, id)
    requires !Unfinished(FiberOf(s.fibers, id))
    ensures FiberOf(s.fibers, id).meter < |s.meters|
    ensures Tracks(s, RemoveFiber(s, id), Alive(s.fibers))
  {
    hide IndexOf, WellFormed, TableValid, RemoveFiber, FiberOf;
    RemoveKeepsTable(s, id);
    var t, t' := TableOf(s.fibers), TableOf(RemoveFiber(s, id).fibers);
    assert id in t && t' == t - {id};
    forall i ensures i in Alive(RemoveFiber(s, id).fibers) <==> i in Alive(s.fibers) {
      assert i in t' <==> i in t && i != id;
    }
  }

  lemma WokenAlive(fs: seq<Fiber>, gs: seq<Fiber>, woken: seq<FiberId>)
    requires Woken(fs, gs, woken)
    requires forall w :: w in woken ==> w in Alive(fs)
    ensures Alive(gs) == Alive(fs)
  {
    hide IndexOf, FiberOf;
    forall id ensures id in Alive(gs) <==> id in Alive(fs) {
      assert id in TableOf(gs) <==> id in TableOf(fs);
    }
  }

  /** An ending fiber leaves, and wakes its joiners. */
  lemma FinishTracks(s: State, status: FiberStatus, ok: bool, v: JSValue)
    requires Structure(s) && (status.Completed? || status.Failed?)
    requires HasCurrent(s) && Current(s).meter < |s.meters| && WellFormed(s.meters)
    requires s.current.value in s.waiters ==>
               forall w :: w in s.waiters[s.current.value] ==> Live(s.fibers, w)
    ensures Tracks(s, Finish(s, status, ok, v), Alive(s.fibers) - {s.current.value})
  {
    hide SetFiber, FiberOf, IndexOf, Deliver, RemoveFiber, WellFormed, SameIds, Live;
    var c := s.current.value;
    CurrentAlive(s);
    var ended := Current(s).(status := status);
    var fs1 := SetFiber(s.fibers, ended);
    SetCurrentStructure(s, ended);
    SetAlive(s.fibers, ended);
    SetFiberLive(s.fibers, ended);
    if c in s.waiters {
      var s1 := s.(fibers := fs1, waiters := s.waiters - {c});
      DeliverKeeps(s1, s.waiters[c], ok, v);
      var s2 := Deliver(s1, s.waiters[c], ok, v);
      JoinersUnfinished(s, c);
      WokenAlive(fs1, s2.fibers, s.waiters[c]);
      TableValidBySameIds(fs1, s2.fibers, s.nextId, s.meters);
      RemoveTracks(s2, c);
    }
  }

  lemma JoinersUnfinished(s: State, c: FiberId)
    requires Structure(s) && c in s.waiters && s.current == Some(c)
    ensures forall w :: w in s.waiters[c] ==> w in Alive(s.fibers) && w != c
  {
    forall w | w in s.waiters[c] ensures w in Alive(s.fibers) && w != c {
      assert Waits(s.waiters, w, c);
    }
  }

  // ---------- Effects ----------

  /** The unfinished fibers an effect leaves behind. */
  ghost predicate EffectTracks(s: State, r: EffectResult) {
    match r
    case Spawned(t, id) => Tracks(s, t, Alive(s.fibers) + {id}) && id !in Alive(s.fibers)
    case _ => Tracks(s, r.s, Alive(s.fibers))
  }

  lemma SpawnTracks(s: State, regs: Regs, meter: MeterId)
    requires Structure(s) && Runnable(regs.control)
    ensures Tracks(s, Spawn(s, regs, meter), Alive(s.fibers) + {s.nextId}) && s.nextId !in Alive(s.fibers)
  {
    hide Structure, IndexOf, FiberOf;
    var f := Fiber(s.nextId, regs, Ready, meter);
    FreshId(s);
    AppendTable(s.fibers, f);
    var t, t' := TableOf(s.fibers), TableOf(s.fibers + [f]);
    assert s.nextId !in t && t' == t[f.id := f];
    assert Alive(s.fibers + [f]) == Alive(s.fibers) + {f.id};
    if 0 in t && 0 != s.nextId { assert 0 in t' && t'[0] == t[0]; }
  }

  lemma FreshId(s: State)
    requires Structure(s)
    ensures Unique(s.fibers) && !Live(s.fibers, s.nextId) && s.nextId !in s.ready
  {
    hide WellFormed;
    assert s.nextId !in TableOf(s.fibers);
  }

  lemma ForkTracks(s: State, args: seq<JSValue>)
    requires Structure(s) && HasCurrent(s) && Current(s).meter < |s.meters|
    ensures EffectTracks(s, HandleFork(s, args))
  {
    hide Structure, Spawn, Carved, Alloc, ForkFuel, HasCurrent, Current, Ascii, Alive, Live, FiberOf;
    if Arg(args, 0).Function? && Arg(args, 0).obj < |s.heap.objects.data| {
      match s.heap.objects.data[Arg(args, 0).obj].kind
      case Closure(data) =>
        var (conts, cont) := Alloc(s.heap.conts, Halt);
        var s1 := s.(heap := s.heap.(conts := conts));
        MachineStateFree(s, s1);
        var control := if data.exprBody.Some? then Expr(data.exprBody.value) else Stmt(data.body);
        var regs := Regs(control, cont, data.env);
        match ForkFuel(s1.heap, Arg(args, 1)) {
          case Err(e) =>
          case Ok(None) => SpawnTracks(s1, regs, Current(s).meter);
          case Ok(Some(n)) =>
            if Carved(s1.meters, Current(s).meter, n).Some? {
              CarveSound(s1, Current(s).meter, n);
              SpawnTracks(s1.(meters := Carved(s1.meters, Current(s).meter, n).value), regs, |s.meters|);
            }
        }
      case _ =>
    }
  }

  /** Saving the current fiber changes neither the unfinished set nor the queue. */
  lemma SaveTracks(s: State, f: Fiber)
    requires Structure(s) && HasCurrent(s) && f.id == s.current.value && Unfinished(f)
    ensures Alive(SetFiber(s.fibers, f)) == Alive(s.fibers)
    ensures forall id :: id in s.ready ==> (Live(SetFiber(s.fibers, f), id) <==> Live(s.fibers, id))
    ensures forall id :: id in s.ready && Live(s.fibers, id) ==>
      FiberOf(SetFiber(s.fibers, f), id) == FiberOf(s.fibers, id)
  {
    hide IndexOf, SetFiber, FiberOf, WellFormed, TableValid;
    SetAlive(s.fibers, f);
    SetFiberLive(s.fibers, f);
    CurrentAlive(s);
  }

  lemma JoinTracks(s: State, args: seq<JSValue>)
    requires Structure(s) && HasCurrent(s) && WellFormed(s.meters) && TableValid(s.fibers, s.nextId, s.meters)
    requires forall id :: Live(s.fibers, id) ==> FiberOf(s.fibers, id).meter < |s.meters|
    ensures EffectTracks(s, HandleJoin(s, args))
  {
    hide Structure, RemoveFiber, JoinResult, SetFiber, Live, FiberOf, WellFormed, TableValid, AddWaiter, Ascii, Alive;
    if Arg(args, 0).Int? && Live(s.fibers, AsU32(Arg(args, 0).n)) {
      var target := AsU32(Arg(args, 0).n);
      match FiberOf(s.fibers, target).status {
        case Completed(v) =>
          var (h, x) := JoinResult(s.heap, true, v);
          RemoveTracks(s.(heap := h, regs := s.regs.(control := Value(x))), target);
        case Failed(e) =>
          var (h, x) := JoinResult(s.heap, false, String(Display(e)));
          RemoveTracks(s.(heap := h, regs := s.regs.(control := Value(x))), target);
        case _ =>
          SaveTracks(s, Current(s).(regs := s.regs, status := Ready));
      }
    }
  }

  lemma HostTracks(s: State, effect: Str, args: seq<JSValue>)
    requires Structure(s) && HasCurrent(s)
    ensures EffectTracks(s, HandleHost(s, effect, args))
  {
    hide Structure, SetFiber, Live, FiberOf, Alive;
    var hostArgs := HostArgs(s.heap.objects.data, args);
    if hostArgs.Some? {
      SaveTracks(s, Current(s).(regs := s.regs, status := BlockedOnHost(effect, hostArgs.value)));
    }
  }

  lemma SnapshotTracks(m: Machine, s: State, args: seq<JSValue>)
    requires Structure(s) && HasCurrent(s)
    ensures EffectTracks(s, HandleSnapshot(m, s, args))
  {
    hide Structure, SetFiber, Live, FiberOf, Alive, Ascii;
    var woken := s.regs.(control := Value(String(Ascii("restored"))));
    SaveTracks(s, Current(s).(regs := woken, status := Ready));
  }

  lemma EffectKeepsTrack(m: Machine, s0: State, effect: Str, args: seq<JSValue>)
    requires Structure(s0) && HasCurrent(s0) && WellFormed(s0.meters) && TableValid(s0.fibers, s0.nextId, s0.meters)
    requires forall id :: Live(s0.fibers, id) ==> FiberOf(s0.fibers, id).meter < |s0.meters|
    ensures EffectTracks(s0, HandleEffect(m, s0, effect, args))
  {
    hide Structure, HandleFork, HandleJoin, HandleHost, HandleSnapshot, Live, FiberOf, WellFormed, TableValid,
         Ascii, Alive;
    CollectSound(m, s0);
    var s := CollectIfDue(m, s0);
    if effect in s.effects {
      match s.effects[effect] {
        case Host => HostTracks(s, effect, args);
        case Builtin(Print) =>
        case Builtin(Fork) => ForkTracks(s, args);
        case Builtin(Join) => JoinTracks(s, args);
        case Builtin(Gc) =>
        case Builtin(Snapshot) => SnapshotTracks(m, s, args);
      }
    }
  }

  // ---------- The measure ----------

  ghost predicate RootSuspended(s: State) {
    Dormant(s) || (s.current == Some(0) && s.regs.control.Suspend?)
  }

  ghost function Measure(s: State): nat {
    2 * Total(s.meters) + |Alive(s.fibers)| + (if RootSuspended(s) then 1 else 0)
  }

  /** The fiber about to run is the root, suspended with its arguments taken,
      and there is fuel to run it. */
  ghost predicate Stale(s: State)
    requires HasCurrent(s) && Current(s).meter < |s.meters|
  {
    s.current == Some(0) && s.regs.control.Suspend? && s.meters[Current(s).meter].remaining != Some(0)
  }

  ghost predicate StaleTurn(s: State)
    requires Inv(s)
  {
    Selected(s).current.Some? && (JoinersLive(Selected(s)); Stale(Selected(s)))
  }

  /** How a turn that goes on changed the unfinished fibers: one finished, or
      one was spawned for fuel, or fuel was spent; except that a stale turn only
      moves the root on. */
  ghost predicate Progress(s: State, t: State, spent: nat, stale: bool) {
    && (RootSuspended(t) ==> RootSuspended(s))
    && if stale then spent == 0 && Alive(t.fibers) == Alive(s.fibers) && RootSuspended(s) && !RootSuspended(t)
       else
         || (exists c :: c in Alive(s.fibers) && Alive(t.fibers) == Alive(s.fibers) - {c})
         || (Alive(t.fibers) == Alive(s.fibers) && spent > 0)
         || (spent > 0 && exists n :: n !in Alive(s.fibers) && Alive(t.fibers) == Alive(s.fibers) + {n})
  }

  lemma EndProgress(s: State, t: State, spent: nat)
    requires Structure(s) && s.current.Some? && t.current.None?
    requires Tracks(s, t, Alive(s.fibers) - {s.current.value})
    ensures Progress(s, t, spent, false)
  {
    CurrentAlive(s);
  }

  lemma ChargeSame(s: State, sl: Slice)
    requires HasCurrent(s) && Current(s).meter < |s.meters|
    ensures Charge(s, sl).regs == sl.regs
    ensures Charge(s, sl).fibers == s.fibers && Charge(s, sl).ready == s.ready && Charge(s, sl).current == s.current
    ensures Dormant(Charge(s, sl)) <==> Dormant(s)
  {
  }

  lemma AfterEffectProgress(
      m: Machine, s: State, s1: State, effect: Str, args: seq<JSValue>, main: JSValue, spent: nat, stale: bool)
    requires Structure(s) && Structure(s1) && HasCurrent(s1) && WellFormed(s1.meters)
    requires TableValid(s1.fibers, s1.nextId, s1.meters)
    requires forall id :: Live(s1.fibers, id) ==> FiberOf(s1.fibers, id).meter < |s1.meters|
    requires s1.fibers == s.fibers && s1.ready == s.ready && s1.current == s.current
    requires if stale then spent == 0 && s.current == Some(0) && s.regs.control.Suspend? && args == [] else spent > 0
    ensures AfterEffect.requires(HandleEffect(m, s1, effect, args), main)
    ensures var r := AfterEffect(HandleEffect(m, s1, effect, args), main);
      r.Again? ==> Progress(s, r.s, spent, stale)
  {
    hide Structure, HandleEffect, Finish, Live, FiberOf, WellFormed, TableValid, Alive;
    EffectKeeps(m, s1, effect, args);
    EffectKeepsTrack(m, s1, effect, args);
    CurrentAlive(s);
    var r := HandleEffect(m, s1, effect, args);
    match r
    case Resume(t) =>
    case Block(t) =>
    case Spawned(t, id) => if spent == 0 { NoForkWithoutArgs(m, s1, effect); }
    case Error(t, e) =>
      JoinersLive(t);
      if t.current != Some(0) {
        FinishTracks(t, Failed(e), false, String(Display(e)));
      }
  }

  lemma NoForkWithoutArgs(m: Machine, s: State, effect: Str)
    requires HasCurrent(s) && WellFormed(s.meters)
    requires forall id :: Live(s.fibers, id) ==> FiberOf(s.fibers, id).meter < |s.meters|
    ensures !HandleEffect(m, s, effect, []).Spawned?
  {
    hide Live, FiberOf, WellFormed, Ascii;
  }

  lemma NoFuelMovesWithoutArgs(m: Machine, s: State, effect: Str)
    requires HasCurrent(s) && WellFormed(s.meters)
    requires forall id :: Live(s.fibers, id) ==> FiberOf(s.fibers, id).meter < |s.meters|
    ensures HandleEffect(m, s, effect, []).s.meters == s.meters
    ensures HandleEffect(m, s, effect, []).s.current == s.current
  {
    hide Live, FiberOf, WellFormed, Ascii, SetFiber;
  }

  /** A stale turn that goes on leaves the meters alone. */
  lemma StaleMovesNothing(m: Machine, s: State, main: JSValue)
    requires Inv(s) && StaleTurn(s) && Turn(m, s, main).Again?
    ensures Turn(m, s, main).s.meters == s.meters
  {
    hide Structure, RunSlice, HandleEffect, Finish, Live, FiberOf, WellFormed, SetFiber;
    var c := Selected(s);
    JoinersLive(c);
    var sl := RunSlice(m, c.heap, c.regs, Allowance(c));
    SliceOfSuspended(m, c.heap, c.regs, Allowance(c));
    ChargeNothing(c.meters, Current(c).meter);
    ChargeKeepsStructure(m, c);
    var c1 := Charge(c, sl);
    JoinersLive(c1);
    EffectErrorKeepsStructure(m, c1, sl.end.effect, []);
    NoFuelMovesWithoutArgs(m, c1, sl.end.effect);
  }

  lemma CurrentTurnProgress(m: Machine, s: State, main: JSValue)
    requires Inv(s) && s.current.Some?
    ensures HasCurrent(s) && Current(s).meter < |s.meters|
    ensures var r := CurrentTurn(m, s, main); r.Again? ==> Progress(s, r.s, Spends(m, s).1, Stale(s))
  {
    hide Structure, RunSlice, Finish, Requeue, HandleEffect, AfterEffect, Live, FiberOf, WellFormed, TableValid,
         SetFiber, Ascii, Alive, Charge;
    JoinersLive(s);
    HasTable(s);
    var meter := Current(s).meter;
    if s.meters[meter].remaining == Some(0) {
      if meter != ROOT {
        var e := Message(Ascii("out_of_fuel"));
        FinishTracks(s, Failed(e), false, String(Display(e)));
        EndProgress(s, Fail(s, e).(current := None), 0);
      }
    } else {
      var sl := RunSlice(m, s.heap, s.regs, Allowance(s));
      var s1 := Charge(s, sl);
      SliceBounds(m, s.heap, s.regs, Allowance(s));
      SliceOfSuspended(m, s.heap, s.regs, Allowance(s));
      ChargeKeepsStructure(m, s);
      ChargeSame(s, sl);
      JoinersLive(s1);
      HasTable(s1);
      match sl.end {
        case Finished(v) =>
          FinishTracks(s1, Completed(v), true, v);
          EndProgress(s, Complete(s1, v).(current := None), sl.spent);
        case Suspended(effect, args) => AfterEffectProgress(m, s, s1, effect, args, main, sl.spent, Stale(s));
        case Preempted => RequeueProgress(m, s, s1, sl.spent);
        case Crashed(e) =>
          if s.current != Some(0) {
            FinishTracks(s1, Failed(e), false, String(Display(e)));
            EndProgress(s, Fail(s1, e).(current := None), sl.spent);
          }
      }
    }
  }

  lemma HasTable(s: State)
    requires Structure(s)
    ensures WellFormed(s.meters) && TableValid(s.fibers, s.nextId, s.meters) && s.quantum > 0
  {
  }

  lemma SliceOfSuspended(m: Machine, h: Heap, r: Regs, allowance: nat)
    ensures r.control.Suspend? ==>
      var sl := RunSlice(m, h, r, allowance);
      sl.end == Suspended(r.control.effect, r.control.args) && sl.spent == 0
  {
  }

  lemma RequeueProgress(m: Machine, s: State, s1: State, spent: nat)
    requires Structure(s1) && HasCurrent(s1) && Runnable(s1.regs.control) && spent > 0
    requires s1.fibers == s.fibers && s1.ready == s.ready && s1.current == s.current
    ensures Progress(s, Requeue(m, s1), spent, false)
  {
    hide Structure, SetFiber, Live, FiberOf, Alive;
    var f := Current(s1).(regs := s1.regs, status := Ready);
    SaveTracks(s1, f);
    SetFiberLive(s1.fibers, f);
    CurrentAlive(s1);
  }

  lemma SelectTracks(s: State)
    requires Inv(s) && s.current.None? && s.ready != []
    ensures SelectNext.requires(s) && SelectNext(s).meters == s.meters
    ensures Alive(SelectNext(s).fibers) == Alive(s.fibers)
    ensures RootSuspended(SelectNext(s)) <==> RootSuspended(s)
  {
    hide Structure, SetFiber, IndexOf, Alive, FiberOf, Live;
    SelectKeepsInv(s);
    SelectedOnce(s);
    var f := FiberOf(s.fibers, s.ready[0]).(status := Running);
    SetAlive(s.fibers, f);
    SetFiberLive(s.fibers, f);
    assert s.ready == [s.ready[0]] + s.ready[1..];
  }

  lemma SelectedOnce(s: State)
    requires Inv(s) && s.ready != []
    ensures s.ready[0] !in s.ready[1..] && s.ready[0] in Alive(s.fibers)
  {
    hide WellFormed, TableValid;
    assert s.ready[0] in TableOf(s.fibers);
  }

  /** Every turn that goes on makes progress of one of three kinds. */
  lemma TurnProgress(m: Machine, s: State, main: JSValue)
    requires Inv(s)
    ensures var r := Turn(m, s, main); r.Again? ==> Progress(s, r.s, Spends(m, s).1, StaleTurn(s))
  {
    hide Structure, CurrentTurn, SelectNext, Alive, Dormant, Spends;
    if s.current.Some? {
      CurrentTurnProgress(m, s, main);
    } else if s.ready != [] {
      SelectKeepsInv(s);
      SelectTracks(s);
      CurrentTurnProgress(m, SelectNext(s), main);
      SpendsSelected(m, s);
    }
  }

  lemma SpendsSelected(m: Machine, s: State)
    requires Inv(s) && s.current.None? && s.ready != []
    ensures SelectNext.requires(s) && Inv(SelectNext(s)) && Spends(m, SelectNext(s)) == Spends(m, s)
  {
    hide Structure, RunSlice;
    SelectKeepsInv(s);
  }

  /** Twice the fuel left, and the unfinished fibers. */
  ghost function PlainMeasure(s: State): nat {
    2 * Total(s.meters) + |Alive(s.fibers)|
  }

  lemma ProgressLowers(s: State, t: State, spent: nat, stale: bool)
    requires Progress(s, t, spent, stale) && Total(t.meters) + spent <= Total(s.meters)
    ensures Measure(t) < Measure(s)
    ensures !stale ==> PlainMeasure(t) < PlainMeasure(s)
    ensures stale && Total(t.meters) == Total(s.meters) ==> PlainMeasure(t) == PlainMeasure(s)
  {
    hide Total, Alive, Dormant;
    var a, b := Alive(s.fibers), Alive(t.fibers);
    if c :| c in a && b == a - {c} {
      assert a == b + {c};
    }
    if n :| n !in a && b == a + {n} {
    }
  }

  /** The measure strictly drops on every turn that does not return; the plain
      one exactly on those that are not stale. */
  lemma TurnLowers(m: Machine, s: State, main: JSValue)
    requires Inv(s) && Finite(s.meters)
    ensures var r := Turn(m, s, main);
      r.Again? ==> Measure(r.s) < Measure(s) && Inv(r.s) && Finite(r.s.meters)
    ensures var r := Turn(m, s, main);
      r.Again? ==> PlainMeasure(r.s) <= PlainMeasure(s) && (PlainMeasure(r.s) < PlainMeasure(s) <==> !StaleTurn(s))
  {
    hide Inv, Turn, Progress, Moved, Measure, PlainMeasure, Total, Spends, StaleTurn;
    TurnKeepsInv(m, s, main);
    TurnSpendsAtMost(m, s, main);
    var r := Turn(m, s, main);
    if r.Again? {
      TurnProgress(m, s, main);
      ProgressLowers(s, r.s, Spends(m, s).1, StaleTurn(s));
      if StaleTurn(s) { StaleMovesNothing(m, s, main); }
    }
  }

  /** A stale turn: after the root's host call was refused at the boundary, the
      next entry performs it again without its arguments, and the plain measure
      stays where it was. */
  lemma StaleHostCall(m: Machine, s: State, main: JSValue, effect: Str)
    requires Inv(s) && s.current == Some(0) && s.regs.control == Suspend(effect, [])
    requires HasCurrent(s) && Current(s).meter < |s.meters| && s.meters[Current(s).meter].remaining != Some(0)
    requires effect in s.effects && s.effects[effect] == Host
    ensures StaleTurn(s)
    ensures var r := Turn(m, s, main);
      r.Again? && Live(r.s.fibers, 0) && FiberOf(r.s.fibers, 0).status == BlockedOnHost(effect, [])
  {
    hide Structure, WellFormed, SetFiber, TotalAllocations;
    JoinersLive(s);
    var sl := RunSlice(m, s.heap, s.regs, Allowance(s));
    var s1 := Charge(s, sl);
    ChargeKeepsStructure(m, s);
    ChargeSame(s, sl);
    JoinersLive(s1);
    EffectErrorKeepsStructure(m, s1, effect, []);
    var s2 := CollectIfDue(m, s1);
    var f := Current(s2).(regs := s2.regs, status := BlockedOnHost(effect, []));
    SetFiberLive(s2.fibers, f);
  }

  lemma RefusedRaises(m: Machine, s: State, main: JSValue, effect: Str, args: seq<JSValue>)
    requires Inv(s) && s.current == Some(0) && HasCurrent(s) && Current(s).meter < |s.meters|
    requires s.meters[Current(s).meter].remaining != Some(0)
    requires RunSlice(m, s.heap, s.regs, Allowance(s)).end == Suspended(effect, args)
    requires effect in s.effects && s.effects[effect] == Host
    requires var paid := Charge(s, RunSlice(m, s.heap, s.regs, Allowance(s)));
      HostArgs(CollectIfDue(m, paid).heap.objects.data, args).None?
    ensures var paid := Charge(s, RunSlice(m, s.heap, s.regs, Allowance(s)));
      Turn(m, s, main) == Raise(CollectIfDue(m, paid), CANNOT_CROSS)
  {
    hide Structure, WellFormed, RunSlice, SetFiber, IndexOf, TotalAllocations, HostArgs;
    var sl := RunSlice(m, s.heap, s.regs, Allowance(s));
    ChargeKeepsStructure(m, s);
    ChargeSame(s, sl);
    JoinersLive(Charge(s, sl));
    EffectErrorKeepsStructure(m, Charge(s, sl), effect, args);
  }

  /** Where a stale turn comes from: a host call of the root whose arguments
      cannot cross raises, and leaves the root current, suspended on the same
      effect with its arguments gone. Unless that spent its fuel, the next entry
      blocks the root on the same call, without the arguments. */
  lemma RefusedHostCall(m: Machine, s: State, main: JSValue, effect: Str, args: seq<JSValue>)
    requires Inv(s) && s.current == Some(0) && HasCurrent(s) && Current(s).meter < |s.meters|
    requires s.meters[Current(s).meter].remaining != Some(0)
    requires RunSlice(m, s.heap, s.regs, Allowance(s)).end == Suspended(effect, args)
    requires effect in s.effects && s.effects[effect] == Host
    requires var paid := Charge(s, RunSlice(m, s.heap, s.regs, Allowance(s)));
      HostArgs(CollectIfDue(m, paid).heap.objects.data, args).None?
    ensures var r := Turn(m, s, main);
      && r.Raise? && r.error == CANNOT_CROSS && Inv(r.s)
      && r.s.current == Some(0) && r.s.regs.control == Suspend(effect, [])
      && HasCurrent(r.s) && Current(r.s).meter < |r.s.meters|
      && (r.s.meters[Current(r.s).meter].remaining != Some(0) ==>
            var next := Turn(m, r.s, Undefined);
            && StaleTurn(r.s) && next.Again? && Live(next.s.fibers, 0)
            && FiberOf(next.s.fibers, 0).status == BlockedOnHost(effect, []))
  {
    hide Structure, WellFormed, RunSlice, SetFiber, IndexOf, TotalAllocations, HostArgs, StaleTurn;
    var sl := RunSlice(m, s.heap, s.regs, Allowance(s));
    SliceBounds(m, s.heap, s.regs, Allowance(s));
    ChargeKeepsStructure(m, s);
    ChargeSame(s, sl);
    JoinersLive(Charge(s, sl));
    EffectErrorKeepsStructure(m, Charge(s, sl), effect, args);
    RefusedRaises(m, s, main, effect, args);
    var t := Turn(m, s, main).s;
    TurnKeepsInv(m, s, main);
    JoinersLive(t);
    if t.meters[Current(t).meter].remaining != Some(0) { StaleHostCall(m, t, Undefined, effect); }
  }
}
