/** Where fuel goes over a run: conservation, the budget of every carved
    subtree, and termination of a scheduler entry. */
module FuelLaws {
  import opened Values
  import opened Fuel
  import opened Boundary
  import opened Fibers
  import opened Placement
  import opened Scheduler
  import opened Runs

  /** Besides charging, a turn moves fuel by at most one carve or refund. */
  ghost predicate Moved(ms: seq<Meter>, ms': seq<Meter>) {
    || ms' == ms
    || (exists from: nat, amount: u64 :: from < |ms| && Carved(ms, from, amount) == Some(ms'))
    || (exists id: nat :: id < |ms| && (ms[id].parent.Some? ==> ms[id].parent.value < |ms|) && ms' == Refunded(ms, id))
  }

  /** The fiber a turn runs, if it runs one. */
  ghost function Selected(s: State): State
    requires Inv(s)
    ensures Inv(Selected(s))
  {
    if s.current.None? && s.ready != [] then
      SelectKeepsInv(s);
      SelectNext(s)
    else s
  }

  /** The meter a turn charges, and the steps it charges for. */
  ghost function Spends(m: Machine, s: State): (r: (MeterId, nat))
    requires Inv(s)
    ensures r.0 < |s.meters|
    ensures s.meters[r.0].remaining.Some? ==> r.1 <= s.meters[r.0].remaining.value
  {
    var s1 := Selected(s);
    if s1.current.None? then (ROOT, 0)
    else
      JoinersLive(s1);
      var meter := Current(s1).meter;
      if s1.meters[meter].remaining == Some(0) then (meter, 0)
      else
        SliceBounds(m, s1.heap, s1.regs, Allowance(s1));
        (meter, RunSlice(m, s1.heap, s1.regs, Allowance(s1)).spent)
  }

  /** The meters a turn leaves: the slice is charged, then fuel may move. */
  ghost predicate Accounted(s: State, t: State, meter: MeterId, spent: nat)
    requires meter < |s.meters|
  {
    && t.steps == s.steps + spent
    && Moved(Charged(s.meters, meter, spent), t.meters)
  }

  lemma ChargeNothing(ms: seq<Meter>, id: MeterId)
    requires id < |ms|
    ensures Charged(ms, id, 0) == ms
  {
  }

  lemma HasRoot(s: State)
    requires Inv(s)
    ensures |s.meters| > 0 && WellFormed(s.meters)
  {
  }

  lemma RemoveMoves(s: State, id: FiberId)
    requires RemoveFiber.requires(s, id)
    ensures Moved(s.meters, RemoveFiber(s, id).meters) && RemoveFiber(s, id).steps == s.steps
  {
    hide WellFormed, Live, SwapRemove;
    var pos := IndexOf(s.fibers, id);
    if pos < |s.fibers| {
      var meter := s.fibers[pos].meter;
      assert Live(s.fibers, id) && FiberOf(s.fibers, id).meter == meter by { LiveIsBelow(s.fibers, id); }
      ParentExists(s.meters, meter);
      RefundIsAMove(s.meters, meter);
    }
    Unmoved(s.meters);
  }

  lemma LiveIsBelow(fs: seq<Fiber>, id: FiberId)
    ensures Live(fs, id) <==> IndexOf(fs, id) < |fs|
  {
  }

  lemma ParentExists(ms: seq<Meter>, id: MeterId)
    requires WellFormed(ms) && id < |ms|
    ensures ms[id].parent.Some? ==> ms[id].parent.value < |ms|
  {
  }

  lemma RefundIsAMove(ms: seq<Meter>, id: MeterId)
    requires id < |ms| && (ms[id].parent.Some? ==> ms[id].parent.value < |ms|)
    ensures Moved(ms, Refunded(ms, id))
  {
  }

  lemma Unmoved(ms: seq<Meter>)
    ensures Moved(ms, ms)
  {
  }

  lemma FinishMoves(s: State, status: FiberStatus, ok: bool, v: JSValue)
    requires Finish.requires(s, status, ok, v) && Structure(s) && (status.Completed? || status.Failed?)
    ensures Moved(s.meters, Finish(s, status, ok, v).meters) && Finish(s, status, ok, v).steps == s.steps
  {
    hide Structure, Live, SetFiber, FiberOf, IndexOf, Deliver, RemoveFiber, Moved, WellFormed, Woken, SameIds;
    assert HasCurrent(s);
    var c := s.current.value;
    Unmoved(s.meters);
    if c in s.waiters {
      var ended := Current(s).(status := status);
      var s1 := s.(fibers := SetFiber(s.fibers, ended), waiters := s.waiters - {c});
      SetFiberLive(s.fibers, ended);
      DeliverKeeps(s1, s.waiters[c], ok, v);
      var s2 := Deliver(s1, s.waiters[c], ok, v);
      FinishJoined(s, s1, s2, status);
      RemoveMoves(s2, c);
    }
  }

  lemma ForkMoves(s: State, args: seq<JSValue>)
    requires HasCurrent(s) && Current(s).meter < |s.meters|
    ensures var r := HandleFork(s, args);
      r.s.steps == s.steps && Moved(s.meters, r.s.meters) && (r.Error? ==> r.s.meters == s.meters)
  {
    hide Alloc, ForkFuel, Ascii, Carved, Live, FiberOf;
  }

  lemma JoinMoves(s: State, args: seq<JSValue>)
    requires HasCurrent(s) && WellFormed(s.meters)
    requires forall id :: Live(s.fibers, id) ==> FiberOf(s.fibers, id).meter < |s.meters|
    ensures var r := HandleJoin(s, args);
      r.s.steps == s.steps && Moved(s.meters, r.s.meters) && (r.Error? ==> r.s.meters == s.meters)
  {
    hide RemoveFiber, JoinResult, SetFiber, Live, FiberOf, WellFormed, Ascii, Moved, AddWaiter;
    Unmoved(s.meters);
    var r := HandleJoin(s, args);
    if r.Resume? {
      var target := AsU32(Arg(args, 0).n);
      match FiberOf(s.fibers, target).status {
        case Completed(v) =>
          var (h, x) := JoinResult(s.heap, true, v);
          RemoveMoves(s.(heap := h, regs := s.regs.(control := Value(x))), target);
        case Failed(e) =>
          var (h, x) := JoinResult(s.heap, false, String(Display(e)));
          RemoveMoves(s.(heap := h, regs := s.regs.(control := Value(x))), target);
        case _ =>
      }
    }
  }

  lemma EffectMoves(m: Machine, s0: State, effect: Str, args: seq<JSValue>)
    requires HasCurrent(s0) && WellFormed(s0.meters)
    requires forall id :: Live(s0.fibers, id) ==> FiberOf(s0.fibers, id).meter < |s0.meters|
    ensures var r := HandleEffect(m, s0, effect, args);
      r.s.steps == s0.steps && Moved(s0.meters, r.s.meters) && (r.Error? ==> r.s.meters == s0.meters)
  {
    hide Moved, HandleFork, HandleJoin, SetFiber, Live, FiberOf, WellFormed, Ascii, HostArgs;
    Unmoved(s0.meters);
    var s := CollectIfDue(m, s0);
    assert HasCurrent(s) && Current(s) == Current(s0);
    if effect in s.effects && s.effects[effect] == Builtin(Fork) {
      ForkMoves(s, args);
    } else if effect in s.effects && s.effects[effect] == Builtin(Join) {
      JoinMoves(s, args);
    }
  }

  lemma FaultMoves(s: State, e: JSError, main: JSValue)
    requires Structure(s) && s.current.Some?
    ensures Moved(s.meters, Fault(s, e, main).s.meters) && Fault(s, e, main).s.steps == s.steps
  {
    hide Structure, Finish, Moved, Live, FiberOf, WellFormed;
    JoinersLive(s);
    Unmoved(s.meters);
    if s.current != Some(0) {
      FinishMoves(s, Failed(e), false, String(Display(e)));
    }
  }

  lemma AfterEffectMoves(m: Machine, s: State, effect: Str, args: seq<JSValue>, main: JSValue)
    requires HasCurrent(s) && WellFormed(s.meters) && Structure(s)
    requires forall id :: Live(s.fibers, id) ==> FiberOf(s.fibers, id).meter < |s.meters|
    ensures AfterEffect.requires(HandleEffect(m, s, effect, args), main)
    ensures var t := AfterEffect(HandleEffect(m, s, effect, args), main).s;
      t.steps == s.steps && Moved(s.meters, t.meters)
  {
    hide Structure, HandleEffect, Fault, Moved, Live, FiberOf, WellFormed;
    EffectErrorKeepsStructure(m, s, effect, args);
    EffectMoves(m, s, effect, args);
    var r := HandleEffect(m, s, effect, args);
    if r.Error? { FaultMoves(r.s, r.error, main); }
  }

  lemma CurrentTurnAccounted(m: Machine, s: State, main: JSValue)
    requires Inv(s) && s.current.Some?
    ensures Accounted(s, CurrentTurn(m, s, main).s, Spends(m, s).0, Spends(m, s).1)
  {
    hide Structure, RunSlice, Finish, CollectIfDue, HandleEffect, AfterEffect, Fault, Live, FiberOf,
         WellFormed, Moved, SetFiber, Ascii;
    JoinersLive(s);
    Unmoved(s.meters);
    ChargeNothing(s.meters, Current(s).meter);
    var meter := Current(s).meter;
    if s.meters[meter].remaining == Some(0) {
      if meter != ROOT {
        var e := Message(Ascii("out_of_fuel"));
        FinishMoves(s, Failed(e), false, String(Display(e)));
      }
    } else {
      var sl := RunSlice(m, s.heap, s.regs, Allowance(s));
      var s1 := Charge(s, sl);
      ChargeKeepsStructure(m, s);
      JoinersLive(s1);
      Unmoved(s1.meters);
      match sl.end {
        case Finished(v) => FinishMoves(s1, Completed(v), true, v);
        case Suspended(effect, args) => AfterEffectMoves(m, s1, effect, args, main);
        case Preempted => RequeueLeavesMeters(m, s1);
        case Crashed(e) => FaultMoves(s1, e, main);
      }
    }
  }

  lemma RequeueLeavesMeters(m: Machine, s: State)
    requires HasCurrent(s)
    ensures Requeue(m, s).meters == s.meters && Requeue(m, s).steps == s.steps
  {
  }

  /** Every turn charges its slice to the selected fiber's meter, never more
      than the meter holds, and otherwise only moves fuel. */
  lemma TurnAccounted(m: Machine, s: State, main: JSValue)
    requires Inv(s)
    ensures Accounted(s, Turn(m, s, main).s, Spends(m, s).0, Spends(m, s).1)
  {
    hide Structure, CurrentTurn, RunSlice, Moved, WellFormed, PendingCalls;
    Unmoved(s.meters);
    HasRoot(s);
    ChargeNothing(s.meters, ROOT);
    if s.current.Some? {
      CurrentTurnAccounted(m, s, main);
    } else if s.ready != [] {
      SelectKeepsInv(s);
      CurrentTurnAccounted(m, SelectNext(s), main);
    }
  }

  // ---------- Conservation ----------

  /** Moving fuel never makes any; it loses none unless a refund saturates. */
  lemma MovedTotal(ms: seq<Meter>, ms': seq<Meter>)
    requires WellFormed(ms) && Finite(ms) && Moved(ms, ms')
    ensures Finite(ms') && Total(ms') <= Total(ms)
    ensures Total(ms) <= U64_MAX ==> Total(ms') == Total(ms)
  {
    hide Carved, Refunded, Total, Finite;
    if from: nat, amount: u64 :| from < |ms| && Carved(ms, from, amount) == Some(ms') {
      CarveTotal(ms, from, amount);
    }
    if id: nat :| id < |ms| && ms' == Refunded(ms, id) {
      RefundTotal(ms, id);
    }
  }

  /** With finite meters a turn removes at least the fuel it spends. */
  lemma TurnSpendsAtMost(m: Machine, s: State, main: JSValue)
    requires Inv(s) && Finite(s.meters)
    ensures var t := Turn(m, s, main).s;
      && Finite(t.meters) && t.steps == s.steps + Spends(m, s).1
      && Total(t.meters) + Spends(m, s).1 <= Total(s.meters)
      && (Total(s.meters) <= U64_MAX ==> Total(t.meters) + Spends(m, s).1 == Total(s.meters))
  {
    hide Turn, Spends, Moved, Charged, Total, WellFormed, Inv;
    HasRoot(s);
    var (meter, spent) := Spends(m, s);
    TurnAccounted(m, s, main);
    ChargeTotal(s.meters, meter, spent);
    MovedTotal(Charged(s.meters, meter, spent), Turn(m, s, main).s.meters);
  }

  /** One turn neither creates nor loses fuel: what leaves the meters has been
      spent as steps. */
  lemma TurnConserves(m: Machine, s: State, main: JSValue)
    requires Inv(s) && Finite(s.meters) && Total(s.meters) <= U64_MAX
    ensures var t := Turn(m, s, main).s;
      Finite(t.meters) && Total(t.meters) + t.steps == Total(s.meters) + s.steps
  {
    hide Inv, Turn, Spends, Total;
    TurnSpendsAtMost(m, s, main);
  }

  /** The fuel a move adds: only an accepted refuel adds any. */
  ghost function Granted(m: Machine, s: State, a: Move): nat
    requires Inv(s)
  {
    if a.Refuel? && OutOfRootFuel(s) then a.amount else 0
  }

  ghost function Refuels(m: Machine, s: State, moves: seq<Move>): nat
    requires Inv(s)
    decreases |moves|
  {
    if moves == [] then 0
    else
      MoveKeepsInv(m, s, moves[0]);
      Granted(m, s, moves[0]) + Refuels(m, MoveBy(m, s, moves[0]), moves[1..])
  }

  lemma MoveConserves(m: Machine, s: State, a: Move)
    requires Inv(s) && Finite(s.meters) && Total(s.meters) + Granted(m, s, a) <= U64_MAX
    ensures var t := MoveBy(m, s, a);
      Finite(t.meters) && Total(t.meters) + t.steps == Total(s.meters) + s.steps + Granted(m, s, a)
  {
    hide Inv, Turn, FromHost;
    match a
    case TakeTurn(main) => TurnConserves(m, s, main);
    case Answer(id, answer) =>
    case Refuel(amount) => HasRoot(s); AddTotal(s.meters, ROOT, amount);
  }

  lemma {:induction false} RunConserves(m: Machine, s: State, moves: seq<Move>)
    requires Inv(s) && Finite(s.meters)
    requires Total(s.meters) + s.steps + Refuels(m, s, moves) <= U64_MAX
    ensures var t := Run(m, s, moves);
      Finite(t.meters) && Total(t.meters) + t.steps == Total(s.meters) + s.steps + Refuels(m, s, moves)
    decreases |moves|
  {
    hide Inv, MoveBy, Granted;
    if moves != [] {
      MoveKeepsInv(m, s, moves[0]);
      MoveConserves(m, s, moves[0]);
      RunConserves(m, MoveBy(m, s, moves[0]), moves[1..]);
    }
  }

  /** With a finite root budget, in every state of every run the fuel left in
      all meters plus the steps taken is the budget plus all refuels; so the
      steps never exceed what was granted. */
  lemma FuelIsConserved(p: Program, grants: seq<Str>, budget: u64, quantum: u64, moves: seq<Move>)
    requires p.Valid() && quantum > 0
    requires Inv(Start(p, grants, Some(budget), quantum))
    requires budget + Refuels(p.machine, Start(p, grants, Some(budget), quantum), moves) <= U64_MAX
    ensures var s0 := Start(p, grants, Some(budget), quantum);
      var s := Run(p.machine, s0, moves);
      && Total(s.meters) + s.steps == budget + Refuels(p.machine, s0, moves)
      && s.steps <= budget + Refuels(p.machine, s0, moves)
  {
    var s0 := Start(p, grants, Some(budget), quantum);
    assert Total(s0.meters) == budget by {
      assert s0.meters[..0] == [];
    }
    RunConserves(p.machine, s0, moves);
  }

  /** With no proviso on overflow: a saturating refund or top-up only loses
      fuel, so the steps never exceed the budget and the refuels. */
  lemma {:induction false} StepsWithinGrants(m: Machine, s: State, moves: seq<Move>)
    requires Inv(s) && Finite(s.meters)
    ensures var t := Run(m, s, moves);
      Finite(t.meters) && Total(t.meters) + t.steps <= Total(s.meters) + s.steps + Refuels(m, s, moves)
    decreases |moves|
  {
    hide Inv, Turn, FromHost, Total, Spends;
    if moves != [] {
      MoveKeepsInv(m, s, moves[0]);
      match moves[0] {
        case TakeTurn(main) => TurnSpendsAtMost(m, s, main);
        case Answer(id, answer) =>
        case Refuel(amount) => HasRoot(s); AddTotal(s.meters, ROOT, amount);
      }
      StepsWithinGrants(m, MoveBy(m, s, moves[0]), moves[1..]);
    }
  }

  // ---------- Subtree budgets ----------

  lemma MovedSubtree(ms: seq<Meter>, ms': seq<Meter>, top: MeterId)
    requires WellFormed(ms) && 0 < top < |ms| && Moved(ms, ms')
    ensures WellFormed(ms') && |ms| <= |ms'| && SameParents(ms, ms')
    ensures Subtree(ms', top) <= Subtree(ms, top)
  {
    if from: nat, amount: u64 :| from < |ms| && Carved(ms, from, amount) == Some(ms') {
      CarveSubtree(ms, top, from, amount);
    }
    if id: nat :| id < |ms| && ms' == Refunded(ms, id) {
      RefundSubtree(ms, top, id);
    }
  }

  /** Steps a move charges to `top` or to a meter carved from it at any depth. */
  ghost function ChargedBelow(m: Machine, s: State, a: Move, top: MeterId): nat
    requires Inv(s)
  {
    if a.TakeTurn? && Below(s.meters, top, Spends(m, s).0) then Spends(m, s).1 else 0
  }

  ghost function SpentBelow(m: Machine, s: State, moves: seq<Move>, top: MeterId): nat
    requires Inv(s)
    decreases |moves|
  {
    if moves == [] then 0
    else
      MoveKeepsInv(m, s, moves[0]);
      ChargedBelow(m, s, moves[0], top) + SpentBelow(m, MoveBy(m, s, moves[0]), moves[1..], top)
  }

  lemma MoveWithinBudget(m: Machine, s: State, a: Move, top: MeterId)
    requires Inv(s) && 0 < top < |s.meters|
    ensures WellFormed(MoveBy(m, s, a).meters) && |s.meters| <= |MoveBy(m, s, a).meters|
    ensures ChargedBelow(m, s, a, top) + Subtree(MoveBy(m, s, a).meters, top) <= Subtree(s.meters, top)
  {
    hide Turn, Spends, Moved, Placed, TableValid, FromHost;
    match a
    case TakeTurn(main) =>
      var (meter, spent) := Spends(m, s);
      TurnAccounted(m, s, main);
      ChargeSubtree(s.meters, top, meter, spent);
      MovedSubtree(Charged(s.meters, meter, spent), Turn(m, s, main).s.meters, top);
    case Answer(id, answer) =>
    case Refuel(amount) =>
      AddSubtree(s.meters, top, ROOT, amount);
      RootNotBelow(s.meters, top);
  }

  /** Whatever happens after a meter was carved (more forks at any depth,
      refunds, shared meters, an unlimited root, refuels), the steps charged to
      it and to everything carved below it stay within what its subtree held. */
  lemma {:induction false} SubtreeBudget(m: Machine, s: State, moves: seq<Move>, top: MeterId)
    requires Inv(s) && 0 < top < |s.meters|
    ensures SpentBelow(m, s, moves, top) <= Subtree(s.meters, top)
    decreases |moves|
  {
    hide Inv, MoveBy, Subtree, ChargedBelow;
    if moves != [] {
      MoveKeepsInv(m, s, moves[0]);
      MoveWithinBudget(m, s, moves[0], top);
      SubtreeBudget(m, MoveBy(m, s, moves[0]), moves[1..], top);
    }
  }

  /** At the moment of a carve the subtree holds exactly the amount carved. */
  lemma FreshSubtree(ms: seq<Meter>, from: MeterId, amount: u64)
    requires WellFormed(ms) && from < |ms| && Carved(ms, from, amount).Some?
    ensures WellFormed(Carved(ms, from, amount).value)
    ensures Subtree(Carved(ms, from, amount).value, |ms|) == amount
  {
    var ms' := Carved(ms, from, amount).value;
    NothingBelow(ms', |ms|, |ms|);
  }

  /** From the turn that carves a meter on, the steps charged to it and to
      everything carved below it never exceed the amount carved. */
  lemma CarveBudget(m: Machine, s: State, main: JSValue, moves: seq<Move>)
    returns (from: MeterId, amount: u64)
    requires Inv(s) && |Turn(m, s, main).s.meters| > |s.meters|
    ensures var charged := Charged(s.meters, Spends(m, s).0, Spends(m, s).1);
      from < |charged| && Carved(charged, from, amount) == Some(Turn(m, s, main).s.meters)
    ensures Inv(Turn(m, s, main).s)
    ensures SpentBelow(m, Turn(m, s, main).s, moves, |s.meters|) <= amount
  {
    hide Inv, Turn, Spends, Subtree, SpentBelow;
    HasRoot(s);
    TurnAccounted(m, s, main);
    TurnKeepsInv(m, s, main);
    var t := Turn(m, s, main).s;
    var (meter, spent) := Spends(m, s);
    var charged := Charged(s.meters, meter, spent);
    from, amount :| from < |charged| && Carved(charged, from, amount) == Some(t.meters);
    FreshSubtree(charged, from, amount);
    SubtreeBudget(m, t, moves, |s.meters|);
  }

  lemma {:induction false} NothingBelow(ms: seq<Meter>, top: MeterId, n: nat)
    requires WellFormed(ms) && n <= top < |ms|
    ensures SubtreeUpTo(ms, top, n) == 0
  {
    if n > 0 {
      NothingBelow(ms, top, n - 1);
      EarlierNotBelow(ms, top, n - 1);
    }
  }

  lemma {:induction false} EarlierNotBelow(ms: seq<Meter>, top: MeterId, x: MeterId)
    requires WellFormed(ms) && x < top < |ms|
    ensures !Below(ms, top, x)
    decreases x
  {
    if x > 0 { EarlierNotBelow(ms, top, ms[x].parent.value); }
  }
}
