/** Snapshot transparency: a restored runtime and the original, GC aside, give
    the same outcomes, pending calls and step index to every later sequence of
    answers, refuels and continues. */
module Restore {
  import opened Values
  import opened Fuel
  import opened Boundary
  import opened Fibers
  import opened Placement
  import opened Scheduler
  import opened Runs
  import opened Entries
  import opened HostCodec
  import opened Bytes
  import opened SnapshotCodec
  import opened Image

  // ---------- Equal but for the wording of failures ----------

  /** Two fibers whose failures, if any, read the same. */
  ghost predicate TwinFiber(f: Fiber, g: Fiber) {
    f == g || (f.status.Failed? && g.status.Failed? && Display(f.status.error) == Display(g.status.error)
               && g == f.(status := g.status))
  }

  ghost predicate TwinFibers(fs: seq<Fiber>, gs: seq<Fiber>) {
    |fs| == |gs| && forall i :: 0 <= i < |fs| ==> TwinFiber(fs[i], gs[i])
  }

  /** The collector's baseline is not part of what a program can see. */
  ghost predicate Twin(s: State, t: State) {
    t == s.(fibers := t.fibers, allocMark := t.allocMark) && TwinFibers(s.fibers, t.fibers)
  }

  lemma RestoredIsTwin(s: State)
    requires s.current.None?
    ensures Twin(s, Restored(s, s.ready))
  {
  }

  lemma LookTwin(fs: seq<Fiber>, gs: seq<Fiber>, id: FiberId)
    requires TwinFibers(fs, gs)
    ensures IndexOf(gs, id) == IndexOf(fs, id) && Live(gs, id) == Live(fs, id)
    ensures Live(fs, id) ==> TwinFiber(FiberOf(fs, id), FiberOf(gs, id))
  {
    IndexOfSame(fs, gs, id);
  }

  lemma SetTwin(fs: seq<Fiber>, gs: seq<Fiber>, f: Fiber, g: Fiber)
    requires TwinFibers(fs, gs) && TwinFiber(f, g) && Live(fs, f.id)
    ensures Live(gs, g.id) && TwinFibers(SetFiber(fs, f), SetFiber(gs, g))
  {
    LookTwin(fs, gs, f.id);
  }

  lemma {:induction false} PendingTwin(fs: seq<Fiber>, gs: seq<Fiber>)
    requires TwinFibers(fs, gs)
    ensures PendingCalls(gs) == PendingCalls(fs)
  {
    if fs != [] {
      assert TwinFiber(fs[0], gs[0]);
      PendingTwin(fs[1..], gs[1..]);
    }
  }

  lemma InvTwin(s: State, t: State)
    requires Inv(s) && Twin(s, t)
    ensures Inv(t)
  {
    hide WellFormed, Poised;
    var a, b := TableOf(s.fibers), TableOf(t.fibers);
    forall id ensures id in b <==> id in a { LookTwin(s.fibers, t.fibers, id); }
    forall id | id in a ensures TwinFiber(a[id], b[id]) { LookTwin(s.fibers, t.fibers, id); }
    assert TableValid(t.fibers, t.nextId, t.meters);
    PlacedTwin(a, b, s.current, s.ready, s.waiters);
  }

  lemma PlacedTwin(a: Table, b: Table, current: Option<FiberId>, ready: seq<FiberId>, w: Waiters)
    requires Placed(a, current, ready, w) && a.Keys == b.Keys && forall id :: id in a ==> TwinFiber(a[id], b[id])
    ensures Placed(b, current, ready, w)
  {
  }

  // ---------- Every operation treats twins alike ----------

  lemma SelectTwin(s: State, t: State)
    requires Inv(s) && Twin(s, t) && s.current.None? && s.ready != []
    ensures SelectNext.requires(s) && SelectNext.requires(t) && Twin(SelectNext(s), SelectNext(t))
  {
    hide Inv, SetFiber, FiberOf, Live, IndexOf;
    InvTwin(s, t);
    SelectKeepsInv(s);
    SelectKeepsInv(t);
    LookTwin(s.fibers, t.fibers, s.ready[0]);
    var f := FiberOf(s.fibers, s.ready[0]);
    SetTwin(s.fibers, t.fibers, f.(status := Running), f.(status := Running));
  }

  lemma CurrentTwin(s: State, t: State)
    requires Twin(s, t) && HasCurrent(s)
    ensures HasCurrent(t) && TwinFiber(Current(s), Current(t)) && Current(t).meter == Current(s).meter
  {
    LookTwin(s.fibers, t.fibers, s.current.value);
  }

  lemma SaveTwin(s: State, t: State)
    requires Twin(s, t) && HasCurrent(s)
    ensures HasCurrent(t) && Twin(SaveCurrent(s), SaveCurrent(t))
  {
    hide SetFiber, Live, FiberOf;
    CurrentTwin(s, t);
    var f := Current(s).(regs := s.regs, status := Ready);
    assert Current(t).(regs := t.regs, status := Ready) == f;
    SetTwin(s.fibers, t.fibers, f, f);
  }

  lemma UnblockTwin(s: State, t: State, id: FiberId, v: JSValue)
    requires Twin(s, t) && Live(s.fibers, id)
    ensures Live(t.fibers, id) && Twin(Unblock(s, id, v), Unblock(t, id, v))
  {
    hide SetFiber;
    LookTwin(s.fibers, t.fibers, id);
    var f := FiberOf(s.fibers, id);
    var f' := f.(regs := f.regs.(control := Value(v)), status := Ready);
    SetTwin(s.fibers, t.fibers, f', f');
  }

  lemma {:induction false} DeliverTwin(s: State, t: State, joiners: seq<FiberId>, ok: bool, v: JSValue)
    requires Twin(s, t) && forall w :: w in joiners ==> Live(s.fibers, w)
    ensures forall w :: w in joiners ==> Live(t.fibers, w)
    ensures Twin(Deliver(s, joiners, ok, v), Deliver(t, joiners, ok, v))
    decreases |joiners|
  {
    hide Unblock, Live, JoinResult;
    forall w | w in joiners ensures Live(t.fibers, w) { LookTwin(s.fibers, t.fibers, w); }
    if joiners != [] {
      var (h, x) := JoinResult(s.heap, ok, v);
      UnblockTwin(s.(heap := h), t.(heap := h), joiners[0], x);
      DeliverOneWakes(s, joiners[0], ok, v);
      DeliverTwin(DeliverOne(s, joiners[0], ok, v), DeliverOne(t, joiners[0], ok, v), joiners[1..], ok, v);
    }
  }

  lemma RemoveTwin(s: State, t: State, id: FiberId)
    requires Twin(s, t) && WellFormed(s.meters)
    requires Live(s.fibers, id) ==> FiberOf(s.fibers, id).meter < |s.meters|
    ensures Live(t.fibers, id) ==> FiberOf(t.fibers, id).meter < |t.meters|
    ensures Twin(RemoveFiber(s, id), RemoveFiber(t, id))
  {
    hide WellFormed, Refunded;
    LookTwin(s.fibers, t.fibers, id);
  }

  lemma FinishTwin(s: State, t: State, status: FiberStatus, ok: bool, v: JSValue)
    requires Twin(s, t) && Finish.requires(s, status, ok, v)
    ensures Finish.requires(t, status, ok, v) && Twin(Finish(s, status, ok, v), Finish(t, status, ok, v))
  {
    hide WellFormed, SetFiber, RemoveFiber, Deliver, Live, FiberOf;
    CurrentTwin(s, t);
    var id := s.current.value;
    var f, g := Current(s).(status := status), Current(t).(status := status);
    assert f == g;
    SetTwin(s.fibers, t.fibers, f, g);
    SetFiberLive(s.fibers, f);
    SetFiberLive(t.fibers, g);
    if id in s.waiters {
      forall w | w in s.waiters[id] ensures Live(t.fibers, w) { LookTwin(s.fibers, t.fibers, w); }
      var s1 := s.(fibers := SetFiber(s.fibers, f), waiters := s.waiters - {id});
      var t1 := t.(fibers := SetFiber(t.fibers, g), waiters := t.waiters - {id});
      DeliverKeeps(s1, s.waiters[id], ok, v);
      DeliverTwin(s1, t1, s.waiters[id], ok, v);
      RemoveTwin(Deliver(s1, s.waiters[id], ok, v), Deliver(t1, s.waiters[id], ok, v), id);
    }
  }

  // ---------- Effects ----------

  ghost predicate TwinEffect(a: EffectResult, b: EffectResult) {
    && Twin(a.s, b.s)
    && match a
       case Resume(_) => b.Resume?
       case Block(_) => b.Block?
       case Spawned(_, id) => b.Spawned? && b.id == id
       case Error(_, e) => b.Error? && b.error == e
  }

  lemma ForkTwin(s: State, t: State, args: seq<JSValue>)
    requires Twin(s, t) && HasCurrent(s) && Current(s).meter < |s.meters|
    ensures HandleFork.requires(t, args) && TwinEffect(HandleFork(s, args), HandleFork(t, args))
  {
    hide Carved, ForkFuel, Ascii, Live, FiberOf;
    CurrentTwin(s, t);
  }

  lemma JoinTwin(s: State, t: State, args: seq<JSValue>)
    requires Twin(s, t) && HasCurrent(s) && WellFormed(s.meters)
    requires forall id :: Live(s.fibers, id) ==> FiberOf(s.fibers, id).meter < |s.meters|
    ensures HandleJoin.requires(t, args) && TwinEffect(HandleJoin(s, args), HandleJoin(t, args))
  {
    hide WellFormed, RemoveFiber, SaveCurrent, Ascii, JoinResult, Live, FiberOf, Display;
    CurrentTwin(s, t);
    forall id | Live(t.fibers, id) ensures FiberOf(t.fibers, id).meter < |t.meters| {
      LookTwin(s.fibers, t.fibers, id);
    }
    if Arg(args, 0).Int? {
      var target := AsU32(Arg(args, 0).n);
      LookTwin(s.fibers, t.fibers, target);
      if Live(s.fibers, target) {
        match FiberOf(s.fibers, target).status {
          case Completed(v) =>
            var (h, x) := JoinResult(s.heap, true, v);
            RemoveTwin(s.(heap := h, regs := s.regs.(control := Value(x))),
                       t.(heap := h, regs := t.regs.(control := Value(x))), target);
          case Failed(e) =>
            var (h, x) := JoinResult(s.heap, false, String(Display(e)));
            RemoveTwin(s.(heap := h, regs := s.regs.(control := Value(x))),
                       t.(heap := h, regs := t.regs.(control := Value(x))), target);
          case _ =>
            var w := AddWaiter(s.waiters, target, s.current.value);
            SaveTwin(s.(waiters := w), t.(waiters := w));
        }
      }
    }
  }

  lemma HostTwin(s: State, t: State, effect: Str, args: seq<JSValue>)
    requires Twin(s, t) && HasCurrent(s)
    ensures HasCurrent(t) && TwinEffect(HandleHost(s, effect, args), HandleHost(t, effect, args))
  {
    hide SetFiber, HostArgs, Live, FiberOf;
    CurrentTwin(s, t);
    var hostArgs := HostArgs(s.heap.objects.data, args);
    if hostArgs.Some? {
      var f := Current(s).(regs := s.regs, status := BlockedOnHost(effect, hostArgs.value));
      SetTwin(s.fibers, t.fibers, f, Current(t).(regs := t.regs, status := BlockedOnHost(effect, hostArgs.value)));
    }
  }

  lemma SnapshotTwin(m: Machine, s: State, t: State, args: seq<JSValue>)
    requires Twin(s, t) && HasCurrent(s)
    ensures HasCurrent(t) && TwinEffect(HandleSnapshot(m, s, args), HandleSnapshot(m, t, args))
  {
    hide SaveCurrent, Ascii, Live, FiberOf;
    CurrentTwin(s, t);
    var c := Value(String(Ascii("restored")));
    SaveTwin(s.(regs := s.regs.(control := c)), t.(regs := t.regs.(control := c)));
  }

  lemma EffectTwin(m: Machine, s0: State, t0: State, effect: Str, args: seq<JSValue>)
    requires NoCollector(m) && Twin(s0, t0) && HandleEffect.requires(m, s0, effect, args)
    ensures HandleEffect.requires(m, t0, effect, args)
    ensures TwinEffect(HandleEffect(m, s0, effect, args), HandleEffect(m, t0, effect, args))
  {
    hide WellFormed, HandleFork, HandleJoin, HandleHost, HandleSnapshot, Live, FiberOf, Ascii, TotalAllocations;
    CurrentTwin(s0, t0);
    forall id | Live(t0.fibers, id) ensures FiberOf(t0.fibers, id).meter < |t0.meters| {
      LookTwin(s0.fibers, t0.fibers, id);
    }
    var s, t := CollectIfDue(m, s0), CollectIfDue(m, t0);
    if effect in s.effects {
      match s.effects[effect] {
        case Host => HostTwin(s, t, effect, args);
        case Builtin(Print) =>
        case Builtin(Fork) => ForkTwin(s, t, args);
        case Builtin(Join) => JoinTwin(s, t, args);
        case Builtin(Gc) =>
        case Builtin(Snapshot) => SnapshotTwin(m, s, t, args);
      }
    }
  }

  // ---------- Turns and entries ----------

  ghost predicate TwinTurn(a: TurnResult, b: TurnResult) {
    && Twin(a.s, b.s)
    && match a
       case Again(_, main) => b.Again? && b.main == main
       case Return(_, outcome) => b.Return? && b.outcome == outcome
       case Raise(_, e) => b.Raise? && b.error == e
  }

  lemma FaultTwin(s: State, t: State, e: JSError, main: JSValue)
    requires Structure(s) && Structure(t) && s.current.Some? && Twin(s, t)
    ensures TwinTurn(Fault(s, e, main), Fault(t, e, main))
  {
    hide Structure, Finish, WellFormed, Live, FiberOf, Display;
    JoinersLive(s);
    JoinersLive(t);
    if s.current != Some(0) { FinishTwin(s, t, Failed(e), false, String(Display(e))); }
  }

  lemma RequeueTwin(m: Machine, s: State, t: State)
    requires NoCollector(m) && Twin(s, t) && HasCurrent(s)
    ensures HasCurrent(t) && Twin(Requeue(m, s), Requeue(m, t))
    ensures Twin(SaveCurrent(s).(current := None, ready := [s.current.value] + s.ready),
                 SaveCurrent(t).(current := None, ready := [t.current.value] + t.ready))
  {
    hide SaveCurrent, TotalAllocations, Live;
    SaveTwin(s, t);
  }

  lemma AfterEffectTwin(a: EffectResult, b: EffectResult, main: JSValue)
    requires TwinEffect(a, b) && AfterEffect.requires(a, main) && AfterEffect.requires(b, main)
    ensures TwinTurn(AfterEffect(a, main), AfterEffect(b, main))
  {
    hide Structure, Fault;
    if a.Error? { FaultTwin(a.s, b.s, a.error, main); }
  }

  lemma AfterSliceTwin(m: Machine, s: State, t: State, end: SliceEnd, main: JSValue)
    requires NoCollector(m) && Structure(s) && Structure(t) && s.current.Some? && Twin(s, t)
    ensures TwinTurn(AfterSlice(m, s, end, main), AfterSlice(m, t, end, main))
  {
    hide Structure, WellFormed, Requeue, HandleEffect, AfterEffect, Finish, Fault, Live, FiberOf;
    JoinersLive(s);
    JoinersLive(t);
    match end {
      case Finished(v) => FinishTwin(s, t, Completed(v), true, v);
      case Preempted => RequeueTwin(m, s, t);
      case Crashed(e) => FaultTwin(s, t, e, main);
      case Suspended(effect, args) =>
        EffectErrorKeepsStructure(m, s, effect, args);
        EffectErrorKeepsStructure(m, t, effect, args);
        EffectTwin(m, s, t, effect, args);
        AfterEffectTwin(HandleEffect(m, s, effect, args), HandleEffect(m, t, effect, args), main);
    }
  }

  lemma CurrentTurnTwin(m: Machine, s: State, t: State, main: JSValue)
    requires NoCollector(m) && Inv(s) && Inv(t) && s.current.Some? && Twin(s, t)
    ensures TwinTurn(CurrentTurn(m, s, main), CurrentTurn(m, t, main))
  {
    hide Structure, WellFormed, RunSlice, AfterSlice, SaveCurrent, Finish, Live, FiberOf, Ascii;
    JoinersLive(s);
    JoinersLive(t);
    CurrentTwin(s, t);
    if s.meters[Current(s).meter].remaining == Some(0) {
      if Current(s).meter == ROOT {
        RequeueTwin(m, s, t);
      } else {
        var e := Message(Ascii("out_of_fuel"));
        FinishTwin(s, t, Failed(e), false, String(Display(e)));
      }
    } else {
      var sl := RunSlice(m, s.heap, s.regs, Allowance(s));
      ChargeKeepsStructure(m, s);
      ChargeKeepsStructure(m, t);
      AfterSliceTwin(m, Charge(s, sl), Charge(t, sl), sl.end, main);
    }
  }

  lemma RootResultTwin(s: State, t: State, main: JSValue)
    requires Twin(s, t)
    ensures RootResult(t, main) == RootResult(s, main)
  {
    LookTwin(s.fibers, t.fibers, 0);
  }

  lemma TurnTwin(m: Machine, s: State, t: State, main: JSValue)
    requires NoCollector(m) && Inv(s) && Inv(t) && Twin(s, t)
    ensures TwinTurn(Turn(m, s, main), Turn(m, t, main))
  {
    hide Structure, CurrentTurn, SelectNext, RootResult, PendingCalls;
    if s.current.Some? {
      CurrentTurnTwin(m, s, t, main);
    } else if s.ready != [] {
      SelectKeepsInv(s);
      SelectKeepsInv(t);
      SelectTwin(s, t);
      CurrentTurnTwin(m, SelectNext(s), SelectNext(t), main);
    } else {
      PendingTwin(s.fibers, t.fibers);
      RootResultTwin(s, t, main);
    }
  }

  lemma {:induction false} LoopTwin(m: Machine, s: State, t: State, main: JSValue, n: nat)
    requires NoCollector(m) && Inv(s) && Inv(t) && Twin(s, t)
    ensures TwinTurn(Loop(m, s, main, n), Loop(m, t, main, n))
    decreases n
  {
    hide Inv, Turn, Twin;
    if n > 0 {
      TurnKeepsInv(m, s, main);
      TurnKeepsInv(m, t, main);
      TurnTwin(m, s, t, main);
      var r := Turn(m, s, main);
      if r.Again? { LoopTwin(m, r.s, Turn(m, t, main).s, r.main, n - 1); }
    }
  }

  lemma EntryTwin(m: Machine, s: State, t: State)
    requires NoCollector(m) && Inv(s) && Inv(t) && Twin(s, t)
    ensures Halts(m, s) <==> Halts(m, t)
    ensures Halts(m, s) ==> TwinTurn(Entry(m, s), Entry(m, t))
  {
    hide Inv, Loop, Twin;
    forall n: nat ensures TwinTurn(Loop(m, s, Undefined, n), Loop(m, t, Undefined, n)) {
      LoopTwin(m, s, t, Undefined, n);
    }
    if Halts(m, s) {
      var n: nat :| !Loop(m, s, Undefined, n).Again?;
      EntryIsLoop(m, s, n);
      EntryIsLoop(m, t, n);
    }
    if Halts(m, t) {
      var n: nat :| !Loop(m, t, Undefined, n).Again?;
    }
  }

  // ---------- Every later sequence of host calls ----------

  datatype Call = Continue | AnswerCall(id: FiberId, answer: HostValue) | Refuel(amount: u64)

  /** What the host sees a call do; `Hung` if the entry never returns. */
  datatype Seen =
    | Ran(outcome: RunOutcome, steps: nat)
    | Threw(error: JSError, steps: nat)
    | Accepted
    | Rejected
    | Hung

  ghost function Serve(m: Machine, s: State, call: Call): (r: (State, Seen))
    requires Inv(s)
    ensures Inv(r.0)
  {
    match call
    case Continue =>
      if !Halts(m, s) then (s, Hung)
      else
        (match Entry(m, s)
         case Return(s', outcome) => (s', Ran(outcome, s'.steps))
         case Raise(s', e) => (s', Threw(e, s'.steps))
         case Again(s', _) => (s', Hung))
    case AnswerCall(id, answer) =>
      if IsPending(s, id) then AnswerKeepsInv(s, id, answer); (ApplyAnswer(s, id, answer), Accepted) else (s, Rejected)
    case Refuel(amount) =>
      if OutOfRootFuel(s) then TopUpKeepsInv(s, amount); (TopUp(s, amount), Accepted) else (s, Rejected)
  }

  ghost function ServeAll(m: Machine, s: State, calls: seq<Call>): (State, seq<Seen>)
    requires Inv(s)
    decreases |calls|
  {
    if calls == [] then (s, [])
    else
      var first := Serve(m, s, calls[0]);
      var rest := ServeAll(m, first.0, calls[1..]);
      (rest.0, [first.1] + rest.1)
  }

  lemma AnswerTwin(s: State, t: State, id: FiberId, answer: HostValue)
    requires Twin(s, t)
    ensures IsPending(s, id) <==> IsPending(t, id)
    ensures IsPending(s, id) ==> Twin(ApplyAnswer(s, id, answer), ApplyAnswer(t, id, answer))
  {
    hide FromHost, Unblock;
    LookTwin(s.fibers, t.fibers, id);
    if IsPending(s, id) {
      var (objects, v) := FromHost(s.heap.objects, answer);
      UnblockTwin(s.(heap := s.heap.(objects := objects)), t.(heap := t.heap.(objects := objects)), id, v);
    }
  }

  lemma ServeTwin(m: Machine, s: State, t: State, call: Call)
    requires NoCollector(m) && Inv(s) && Inv(t) && Twin(s, t)
    ensures Serve(m, s, call).1 == Serve(m, t, call).1 && Twin(Serve(m, s, call).0, Serve(m, t, call).0)
  {
    hide Inv, ApplyAnswer, Halts, TwinFibers;
    match call {
      case Continue => EntryTwin(m, s, t);
      case AnswerCall(id, answer) => AnswerTwin(s, t, id, answer);
      case Refuel(amount) =>
    }
  }

  /** Twins answer every sequence of host calls alike. */
  lemma {:induction false} ServeAllTwin(m: Machine, s: State, t: State, calls: seq<Call>)
    requires NoCollector(m) && Inv(s) && Inv(t) && Twin(s, t)
    ensures ServeAll(m, s, calls).1 == ServeAll(m, t, calls).1
    ensures Twin(ServeAll(m, s, calls).0, ServeAll(m, t, calls).0)
    decreases |calls|
  {
    hide Inv, Twin, Serve;
    if calls != [] {
      ServeTwin(m, s, t, calls[0]);
      ServeAllTwin(m, Serve(m, s, calls[0]).0, Serve(m, t, calls[0]).0, calls[1..]);
    }
  }

  lemma RestoredInv(s: State)
    requires Inv(s) && s.current.None?
    ensures Inv(Restored(s, s.ready))
  {
    RestoredIsTwin(s);
    InvTwin(s, Restored(s, s.ready));
  }

  /** Save at a pause, restore from the bytes, and no later sequence of host
      calls can tell the two runtimes apart. */
  lemma SnapshotIsTransparent(m: Machine, cx: Context, s: State, calls: seq<Call>)
    requires NoCollector(m) && Inv(s) && s.current.None?
    requires StateFits(cx, s) && Sane(s) && IdsFit(s.ready) && AllShallow(s.fibers)
    ensures GetRuntime(PutRuntime(cx, s, s.ready, [])) == Got((cx.pool, Restored(s, s.ready)), [])
    ensures Inv(Restored(s, s.ready))
    ensures ServeAll(m, Restored(s, s.ready), calls).1 == ServeAll(m, s, calls).1
  {
    hide Inv, GetRuntime, PutRuntime, StateFits, Sane, AllShallow;
    RuntimeBack(cx, s, s.ready, []);
    RestoredIsTwin(s);
    RestoredInv(s);
    ServeAllTwin(m, s, Restored(s, s.ready), calls);
  }

  // ---------- Snapshots taken by the program ----------

  /** The registers with which the performing fiber wakes from its snapshot. */
  function WakingRegs(s: State): Regs {
    s.regs.(control := Value(String(Ascii("restored"))))
  }

  /** What Snapshot! writes: the fiber saved as it will wake. */
  function Written(s: State): State
    requires HasCurrent(s)
  {
    SaveCurrent(s.(regs := WakingRegs(s)))
  }

  /** What the file restores: nothing selected, the performing fiber first. */
  function Queued(s: State): State
    requires HasCurrent(s)
  {
    Written(s).(current := None, ready := [s.current.value] + s.ready)
  }

  /** The live runtime, had the effect returned "restored" to its fiber. */
  function Woken(s: State): State
    requires HasCurrent(s)
  {
    s.(regs := WakingRegs(s), fibers := SetFiber(s.fibers, Current(s).(regs := WakingRegs(s), status := Running)))
  }

  /** The written runtime with the performing fiber at the front of the queue is
      sound, and its first turn is the fiber's own, waking to "restored". */
  lemma WrittenWakes(m: Machine, s: State, main: JSValue)
    requires Structure(s) && s.current.Some? && HasCurrent(s)
    ensures Inv(Queued(s)) && Inv(Woken(s)) && Woken(s).current.Some?
    ensures Turn(m, Queued(s), main) == CurrentTurn(m, Woken(s), main)
  {
    hide Structure, CurrentTurn, IndexOf, SetFiber, Ascii;
    var s1 := s.(regs := WakingRegs(s));
    MachineStateFree(s, s1);
    RequeueKeepsInv(m, s1);
    var queued := Queued(s);
    var saved := Current(s).(regs := WakingRegs(s), status := Ready);
    SetFiberLive(s.fibers, saved);
    SelectKeepsInv(queued);
    SetTwice(s.fibers, saved, saved.(status := Running));
    assert queued.ready[1..] == s.ready;
    assert SelectNext(queued) == Woken(s);
  }

  lemma SetTwice(fs: seq<Fiber>, f: Fiber, g: Fiber)
    requires Live(fs, f.id) && f.id == g.id
    ensures Live(SetFiber(fs, f), g.id) && SetFiber(SetFiber(fs, f), g) == SetFiber(fs, g)
  {
    IndexOfSame(fs, SetFiber(fs, f), f.id);
  }

  /** A snapshot the program takes of itself: the bytes written restore a runtime
      that no sequence of host calls can tell from the live one with its fiber
      queued first, which by `WrittenWakes` is the live one in which the effect
      returned "restored". */
  lemma ProgramSnapshotIsTransparent(m: Machine, cx: Context, s: State, calls: seq<Call>)
    requires NoCollector(m) && Structure(s) && s.current.Some? && HasCurrent(s)
    requires StateFits(cx, Queued(s)) && Sane(Queued(s)) && IdsFit(Queued(s).ready) && AllShallow(Queued(s).fibers)
    ensures GetRuntime(PutRuntime(cx, Written(s), Queued(s).ready, []))
         == Got((cx.pool, Restored(Queued(s), Queued(s).ready)), [])
    ensures Inv(Queued(s)) && Inv(Restored(Queued(s), Queued(s).ready))
    ensures ServeAll(m, Restored(Queued(s), Queued(s).ready), calls).1 == ServeAll(m, Queued(s), calls).1
  {
    hide Structure, GetRuntime, PutRuntime, StateFits, Sane, AllShallow, Written, Turn, CurrentTurn, ServeAll, Restored;
    WrittenWakes(m, s, Undefined);
    SameBytes(cx, Written(s), Queued(s), Queued(s).ready);
    SnapshotIsTransparent(m, cx, Queued(s), calls);
  }

  /** Neither the selection nor the queue of the live runtime is written. */
  lemma SameBytes(cx: Context, s: State, t: State, ready: seq<FiberId>)
    requires t == s.(current := t.current, ready := t.ready)
    ensures PutRuntime(cx, s, ready, []) == PutRuntime(cx, t, ready, [])
  {
    hide PutPool, PutArenas, PutFibers, PutIds, PutWaiters, PutGrants, PutMeters, PutBindings, PutControl, PutU8,
         PutU32, PutU64;
  }
}
