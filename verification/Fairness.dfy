/** Round robin (src/runtime.rs:504-611): the current fiber and the queue form
    one line, whose front runs and whose newcomers, the preempted fiber among
    them, join at the end. */
module Fairness {
  import opened Values
  import opened Fuel
  import opened Boundary
  import opened Fibers
  import opened Placement
  import opened Scheduler
  import opened Runs
  import opened FuelLaws

  /** Whose turn it is, and whose turn comes next. */
  function Line(s: State): seq<FiberId> {
    (if s.current.Some? then [s.current.value] else []) + s.ready
  }

  /** The current fiber is the same and the queue has only grown at its end. */
  ghost predicate Queued(s: State, t: State) {
    t.current == s.current && s.ready <= t.ready
  }

  lemma QueuedBy(s: State, t: State, added: seq<FiberId>)
    requires t.current == s.current && t.ready == s.ready + added
    ensures Queued(s, t)
  {
  }

  lemma Unqueued(s: State, t: State)
    requires t.current == s.current && t.ready == s.ready
    ensures Queued(s, t)
  {
    QueuedBy(s, t, []);
  }

  lemma QueuedTwice(s: State, mid: State, t: State)
    requires Queued(s, mid) && Queued(mid, t)
    ensures Queued(s, t)
  {
  }

  // ---------- Every operation queues at the end ----------

  lemma RemoveQueues(s: State, id: FiberId)
    requires RemoveFiber.requires(s, id)
    ensures RemoveFiber(s, id).ready == s.ready && RemoveFiber(s, id).current == s.current
  {
    hide SwapRemove, Refunded, WellFormed;
  }

  lemma FinishQueues(s: State, status: FiberStatus, ok: bool, v: JSValue)
    requires Finish.requires(s, status, ok, v) && Structure(s) && (status.Completed? || status.Failed?)
    ensures Queued(s, Finish(s, status, ok, v))
  {
    hide Structure, Live, SetFiber, FiberOf, IndexOf, Deliver, RemoveFiber, Queued, WellFormed, Woken, SameIds;
    assert HasCurrent(s);
    var c := s.current.value;
    if c in s.waiters {
      var ended := Current(s).(status := status);
      var s1 := s.(fibers := SetFiber(s.fibers, ended), waiters := s.waiters - {c});
      SetFiberLive(s.fibers, ended);
      DeliverKeeps(s1, s.waiters[c], ok, v);
      var s2 := Deliver(s1, s.waiters[c], ok, v);
      FinishJoined(s, s1, s2, status);
      RemoveQueues(s2, c);
      QueuedBy(s, RemoveFiber(s2, c), s.waiters[c]);
    } else {
      Unqueued(s, Finish(s, status, ok, v));
    }
  }

  lemma ForkQueues(s: State, args: seq<JSValue>)
    requires HasCurrent(s) && Current(s).meter < |s.meters|
    ensures Queued(s, HandleFork(s, args).s)
  {
    hide Alloc, ForkFuel, Ascii, Carved, Live, FiberOf, Queued;
    var t := HandleFork(s, args).s;
    if HandleFork(s, args).Spawned? { QueuedBy(s, t, [s.nextId]); } else { Unqueued(s, t); }
  }

  lemma JoinQueues(s: State, args: seq<JSValue>)
    requires HasCurrent(s) && WellFormed(s.meters)
    requires forall id :: Live(s.fibers, id) ==> FiberOf(s.fibers, id).meter < |s.meters|
    ensures Queued(s, HandleJoin(s, args).s)
  {
    hide RemoveFiber, JoinResult, SetFiber, Live, FiberOf, WellFormed, Ascii, AddWaiter, Queued;
    var r := HandleJoin(s, args);
    if r.Resume? {
      var target := AsU32(Arg(args, 0).n);
      match FiberOf(s.fibers, target).status {
        case Completed(v) =>
          var (h, x) := JoinResult(s.heap, true, v);
          RemoveQueues(s.(heap := h, regs := s.regs.(control := Value(x))), target);
        case Failed(e) =>
          var (h, x) := JoinResult(s.heap, false, String(Display(e)));
          RemoveQueues(s.(heap := h, regs := s.regs.(control := Value(x))), target);
        case _ =>
      }
    }
    Unqueued(s, r.s);
  }

  lemma EffectQueues(m: Machine, s0: State, effect: Str, args: seq<JSValue>)
    requires HasCurrent(s0) && WellFormed(s0.meters)
    requires forall id :: Live(s0.fibers, id) ==> FiberOf(s0.fibers, id).meter < |s0.meters|
    ensures Queued(s0, HandleEffect(m, s0, effect, args).s)
  {
    hide Queued, HandleFork, HandleJoin, SetFiber, Live, FiberOf, WellFormed, Ascii, HostArgs;
    var s := CollectIfDue(m, s0);
    assert HasCurrent(s) && Current(s) == Current(s0);
    Unqueued(s0, s);
    ForkQueues(s, args);
    JoinQueues(s, args);
    var t := HandleEffect(m, s0, effect, args).s;
    if effect in s.effects && (s.effects[effect] == Builtin(Fork) || s.effects[effect] == Builtin(Join)) {
      QueuedTwice(s0, s, t);
    } else {
      Unqueued(s0, t);
    }
  }

  // ---------- One turn ----------

  /** The line without the front, if that gave way in a turn. */
  function Remaining(s: State, r: TurnResult): seq<FiberId>
    requires Line(s) != []
  {
    if r.Again? && r.s.current.None? then Line(s)[1..] else Line(s)
  }

  /** The front of the line either keeps its place or gives way; everybody else
      moves up in order and newcomers come last. */
  ghost predicate MovesUp(s: State, r: TurnResult) {
    Line(s) != [] && Remaining(s, r) <= Line(r.s)
  }

  lemma FaultMovesUp(s: State, e: JSError, main: JSValue)
    requires Structure(s) && s.current.Some?
    ensures MovesUp(s, Fault(s, e, main))
  {
    hide Structure, Finish, Live, FiberOf, WellFormed;
    JoinersLive(s);
    if s.current != Some(0) {
      FinishQueues(s, Failed(e), false, String(Display(e)));
      EndedMovesUp(s, Fail(s, e), main);
    }
  }

  lemma EndedMovesUp(s: State, t: State, main: JSValue)
    requires s.current.Some? && Queued(s, t)
    ensures MovesUp(s, Again(t.(current := None), main))
  {
    assert Line(s)[1..] == s.ready;
  }

  lemma StaysMovesUp(s: State, t: State, main: JSValue)
    requires s.current.Some? && Queued(s, t)
    ensures MovesUp(s, Again(t, main))
  {
  }

  lemma MovesUpAfter(s: State, mid: State, r: TurnResult)
    requires s.current.Some? && Queued(s, mid) && MovesUp(mid, r)
    ensures MovesUp(s, r)
  {
    assert Line(s) <= Line(mid);
  }

  lemma AfterEffectMovesUp(m: Machine, s: State, effect: Str, args: seq<JSValue>, main: JSValue)
    requires Structure(s) && s.current.Some? && HasCurrent(s) && WellFormed(s.meters)
    requires forall id :: Live(s.fibers, id) ==> FiberOf(s.fibers, id).meter < |s.meters|
    ensures var r := HandleEffect(m, s, effect, args);
      (r.Error? ==> Structure(r.s) && r.s.current.Some?) && MovesUp(s, AfterEffect(r, main))
  {
    hide Structure, HandleEffect, Fault, Live, FiberOf, WellFormed, Queued, MovesUp;
    EffectErrorKeepsStructure(m, s, effect, args);
    EffectQueues(m, s, effect, args);
    var r := HandleEffect(m, s, effect, args);
    match r {
      case Resume(t) => StaysMovesUp(s, t, main);
      case Block(t) => EndedMovesUp(s, t, main);
      case Spawned(t, id) =>
        Unqueued(t, Continued(t, Int(AsI32(id))));
        QueuedTwice(s, t, Continued(t, Int(AsI32(id))));
        StaysMovesUp(s, Continued(t, Int(AsI32(id))), main);
      case Error(t, e) =>
        FaultMovesUp(t, e, main);
        MovesUpAfter(s, t, Fault(t, e, main));
    }
  }

  lemma CurrentTurnMovesUp(m: Machine, s: State, main: JSValue)
    requires Inv(s) && s.current.Some?
    ensures MovesUp(s, CurrentTurn(m, s, main))
  {
    hide Structure, RunSlice, Finish, HandleEffect, AfterEffect, Fault, Live, FiberOf,
         WellFormed, MovesUp, Queued, SetFiber, Ascii;
    JoinersLive(s);
    if s.meters[Current(s).meter].remaining == Some(0) {
      var e := Message(Ascii("out_of_fuel"));
      FinishQueues(s, Failed(e), false, String(Display(e)));
      EndedMovesUp(s, Fail(s, e), main);
      PausedMovesUp(s);
    } else {
      var sl := RunSlice(m, s.heap, s.regs, Allowance(s));
      var s1 := Charge(s, sl);
      ChargeKeepsStructure(m, s);
      JoinersLive(s1);
      Unqueued(s, s1);
      match sl.end {
        case Finished(v) =>
          FinishQueues(s1, Completed(v), true, v);
          EndedMovesUp(s1, Complete(s1, v), if s.current == Some(0) then v else main);
        case Suspended(effect, args) => AfterEffectMovesUp(m, s1, effect, args, main);
        case Preempted => RequeuedMovesUp(m, s1, main);
        case Crashed(e) => FaultMovesUp(s1, e, main);
      }
      MovesUpAfter(s, s1, AfterSlice(m, s1, sl.end, main));
    }
  }

  lemma PausedMovesUp(s: State)
    requires HasCurrent(s)
    ensures var t := SaveCurrent(s).(current := None, ready := [s.current.value] + s.ready);
      MovesUp(s, Return(t, OutOfFuel(s.steps)))
  {
    var t := SaveCurrent(s).(current := None, ready := [s.current.value] + s.ready);
    assert Line(t) == Line(s);
  }

  lemma RequeuedMovesUp(m: Machine, s: State, main: JSValue)
    requires HasCurrent(s)
    ensures MovesUp(s, Again(Requeue(m, s), main))
  {
    assert Line(Requeue(m, s)) == Line(s)[1..] + [s.current.value];
  }

  /** The fiber a turn runs is the front of the line; afterwards the line is what
      it was, less the front if that gave way, with newcomers at the end. */
  lemma TurnMovesUp(m: Machine, s: State, main: JSValue)
    requires Inv(s) && Line(s) != []
    ensures Selected(s).current == Some(Line(s)[0]) && Line(Selected(s)) == Line(s)
    ensures MovesUp(s, Turn(m, s, main))
  {
    hide Structure, CurrentTurn, MovesUp, SetFiber;
    if s.current.None? { SelectKeepsInv(s); }
    CurrentTurnMovesUp(m, Selected(s), main);
    SameLine(Selected(s), s, Turn(m, s, main));
  }

  lemma SameLine(s: State, t: State, r: TurnResult)
    requires Line(s) == Line(t) && MovesUp(s, r)
    ensures MovesUp(t, r)
  {
  }

  /** The fiber about to run has fuel and uses up its slice without ending,
      performing an effect or faulting. */
  ghost predicate RunsOut(m: Machine, s: State)
    requires Inv(s)
  {
    s.current.Some? &&
    (JoinersLive(s);
     s.meters[Current(s).meter].remaining != Some(0) && RunSlice(m, s.heap, s.regs, Allowance(s)).end.Preempted?)
  }

  /** `gs` is `fs` but for the record of `f`. */
  ghost predicate OnlyChanges(fs: seq<Fiber>, gs: seq<Fiber>, f: Fiber) {
    && (forall id :: Live(gs, id) <==> Live(fs, id))
    && (forall id :: Live(fs, id) ==> FiberOf(gs, id) == if id == f.id then f else FiberOf(fs, id))
  }

  lemma RunsOutLast(m: Machine, s: State, main: JSValue)
    requires Inv(s) && RunsOut(m, s)
    ensures HasCurrent(s) && Current(s).meter < |s.meters|
    ensures var r := CurrentTurn(m, s, main);
      && r.Again? && r.main == main && r.s.current.None? && r.s.ready == s.ready + [s.current.value]
      && r.s.waiters == s.waiters && r.s.nextId == s.nextId
      && OnlyChanges(s.fibers, r.s.fibers,
                     Current(s).(regs := RunSlice(m, s.heap, s.regs, Allowance(s)).regs, status := Ready))
  {
    hide Structure, RunSlice, SetFiber, Live, FiberOf, WellFormed;
    JoinersLive(s);
    ChargeKeepsStructure(m, s);
    var sl := RunSlice(m, s.heap, s.regs, Allowance(s));
    SetFiberLive(s.fibers, Current(s).(regs := sl.regs, status := Ready));
  }

  /** A fiber whose slice runs out goes behind everybody who was waiting, as it
      stood when its slice ended; nobody else's record changes. */
  lemma PreemptedGoesLast(m: Machine, s: State, main: JSValue)
    requires Inv(s) && RunsOut(m, Selected(s))
    ensures Line(s) != [] && Live(s.fibers, Line(s)[0])
    ensures var s1, r := Selected(s), Turn(m, s, main);
      && r.Again? && r.main == main && r.s.current.None? && r.s.ready == Line(s)[1..] + [Line(s)[0]]
      && r.s.waiters == s.waiters && r.s.nextId == s.nextId
      && HasCurrent(s1) && Current(s1).meter < |s1.meters|
      && OnlyChanges(s.fibers, r.s.fibers,
                     FiberOf(s.fibers, Line(s)[0]).(
                       regs := RunSlice(m, s1.heap, s1.regs, Allowance(s1)).regs, status := Ready))
  {
    hide Structure, CurrentTurn, RunSlice, SetFiber, Live, FiberOf, WellFormed;
    JoinersLive(Selected(s));
    RunsOutLast(m, Selected(s), main);
    if s.current.None? {
      SelectKeepsInv(s);
      SetFiberLive(s.fibers, FiberOf(s.fibers, s.ready[0]).(status := Running));
    }
  }

  /** No slice is longer than the quantum or than the fuel there is; one that runs
      out has used up the quantum, or else emptied its meter. */
  lemma SliceLength(m: Machine, s: State)
    requires Inv(s)
    ensures var (meter, spent) := Spends(m, s);
      && spent <= s.quantum
      && (RunsOut(m, Selected(s)) && spent < s.quantum ==> Charged(s.meters, meter, spent)[meter].remaining == Some(0))
  {
    hide Structure, RunSlice, SetFiber, Live, FiberOf, WellFormed;
    var s1 := Selected(s);
    if s1.current.Some? {
      JoinersLive(s1);
      SliceBounds(m, s1.heap, s1.regs, Allowance(s1));
    }
  }

  // ---------- Whole runs ----------

  /** The fiber that gives way in one move, if one does. */
  ghost function GaveWay(m: Machine, s: State, a: Move): seq<FiberId>
    requires Inv(s)
  {
    if a.TakeTurn? && Line(s) != [] && Turn(m, s, a.main).Again? && Turn(m, s, a.main).s.current.None?
    then [Line(s)[0]] else []
  }

  /** The fibers that give way over a run, in order, once for each time. */
  ghost function TurnsTaken(m: Machine, s: State, moves: seq<Move>): seq<FiberId>
    requires Inv(s)
    decreases |moves|
  {
    if moves == [] then []
    else
      MoveKeepsInv(m, s, moves[0]);
      GaveWay(m, s, moves[0]) + TurnsTaken(m, MoveBy(m, s, moves[0]), moves[1..])
  }

  lemma TurnJoins(m: Machine, s: State, main: JSValue) returns (joined: seq<FiberId>)
    requires Inv(s)
    ensures Line(s) + joined == GaveWay(m, s, TakeTurn(main)) + Line(Turn(m, s, main).s)
  {
    hide Inv, Turn, Line;
    joined := [];
    if Line(s) == [] {
      NobodyRuns(m, s, main);
    } else {
      TurnMovesUp(m, s, main);
      var r := Turn(m, s, main);
      joined := Line(r.s)[|Remaining(s, r)|..];
      assert Line(s) == [Line(s)[0]] + Line(s)[1..];
    }
  }

  lemma MoveMovesUp(m: Machine, s: State, a: Move) returns (joined: seq<FiberId>)
    requires Inv(s)
    ensures Line(s) + joined == GaveWay(m, s, a) + Line(MoveBy(m, s, a))
  {
    hide Inv, Turn, FromHost, SetFiber, Live, FiberOf, Added;
    joined := [];
    if a.TakeTurn? {
      joined := TurnJoins(m, s, a.main);
    } else if a.Answer? && IsPending(s, a.id) {
      joined := [a.id];
      assert Line(ApplyAnswer(s, a.id, a.answer)) == Line(s) + [a.id];
    }
  }

  lemma NobodyRuns(m: Machine, s: State, main: JSValue)
    requires Inv(s) && Line(s) == []
    ensures Turn(m, s, main).Return? && Turn(m, s, main).s == s
  {
  }

  /** First come, first served: over any run, those who have given way, followed
      by the line at the end, are the line at the start followed by newcomers. */
  lemma {:induction false} FirstComeFirstServed(m: Machine, s: State, moves: seq<Move>)
    returns (joined: seq<FiberId>)
    requires Inv(s)
    ensures Line(s) + joined == TurnsTaken(m, s, moves) + Line(Run(m, s, moves))
    decreases |moves|
  {
    hide Inv, MoveBy, GaveWay, Line;
    if moves == [] {
      return [];
    }
    var t := MoveBy(m, s, moves[0]);
    MoveKeepsInv(m, s, moves[0]);
    var now := MoveMovesUp(m, s, moves[0]);
    var later := FirstComeFirstServed(m, t, moves[1..]);
    joined := now + later;
    calc {
      Line(s) + (now + later);
      (Line(s) + now) + later;
      (GaveWay(m, s, moves[0]) + Line(t)) + later;
      GaveWay(m, s, moves[0]) + (Line(t) + later);
      GaveWay(m, s, moves[0]) + (TurnsTaken(m, t, moves[1..]) + Line(Run(m, s, moves)));
      TurnsTaken(m, s, moves) + Line(Run(m, s, moves));
    }
  }

  /** Nobody in line is overtaken: turns are taken in the order of the line, and
      until all of it has been served nobody takes one twice. */
  lemma NobodyOvertakes(m: Machine, s: State, moves: seq<Move>, i: nat)
    requires Inv(s) && i < |Line(s)| && i < |TurnsTaken(m, s, moves)|
    ensures TurnsTaken(m, s, moves)[i] == Line(s)[i]
    ensures forall j :: 0 <= j < i ==> TurnsTaken(m, s, moves)[j] != TurnsTaken(m, s, moves)[i]
  {
    hide TurnsTaken, Run;
    var joined := FirstComeFirstServed(m, s, moves);
    LineDistinct(s);
    var all := Line(s) + joined;
    forall j | 0 <= j <= i ensures TurnsTaken(m, s, moves)[j] == Line(s)[j] {
      assert all[j] == Line(s)[j];
    }
  }

  lemma LineDistinct(s: State)
    requires Inv(s)
    ensures Distinct(Line(s))
  {
  }

  /** A preempted fiber takes no further turn before everybody who was waiting
      when it was preempted has taken one. */
  lemma PreemptedWaits(m: Machine, s: State, main: JSValue, moves: seq<Move>, j: nat)
    requires Inv(s) && RunsOut(m, Selected(s))
    ensures Line(s) != [] && Inv(Turn(m, s, main).s)
    ensures var served := TurnsTaken(m, Turn(m, s, main).s, moves);
      j < |served| && served[j] == Line(s)[0] ==>
        |Line(s)| - 1 <= j && forall i :: 0 <= i < |Line(s)| - 1 ==> served[i] == Line(s)[i + 1]
  {
    hide Inv, Turn, TurnsTaken, RunsOut, OnlyChanges;
    PreemptedGoesLast(m, s, main);
    TurnKeepsInv(m, s, main);
    var t := Turn(m, s, main).s;
    var served := TurnsTaken(m, t, moves);
    assert Line(s) == [Line(s)[0]] + Line(s)[1..] && Line(t) == Line(s)[1..] + [Line(s)[0]];
    LineDistinct(s);
    forall i | 0 <= i < |Line(s)| - 1 && i < |served| ensures served[i] == Line(s)[i + 1] {
      NobodyOvertakes(m, t, moves, i);
    }
  }
}
