/** One scheduler entry: turns until one returns. */
module Entries {
  import opened Values
  import opened Fuel
  import opened Boundary
  import opened Fibers
  import opened Placement
  import opened Scheduler
  import opened Runs
  import opened FuelLaws
  import opened Termination

  /** The result after at most `n` turns; `Again` while still going. */
  ghost function Loop(m: Machine, s: State, main: JSValue, n: nat): (r: TurnResult)
    requires Inv(s)
    ensures Inv(r.s)
    decreases n
  {
    if n == 0 then Again(s, main)
    else
      TurnKeepsInv(m, s, main);
      match Turn(m, s, main)
      case Again(s', main') => Loop(m, s', main', n - 1)
      case r => r
  }

  lemma {:induction false} LoopStable(m: Machine, s: State, main: JSValue, n: nat, k: nat)
    requires Inv(s) && !Loop(m, s, main, n).Again? && n <= k
    ensures Loop(m, s, main, k) == Loop(m, s, main, n)
    decreases n
  {
    hide Inv, Turn;
    TurnKeepsInv(m, s, main);
    match Turn(m, s, main)
    case Again(s', main') => LoopStable(m, s', main', n - 1, k - 1);
    case _ =>
  }

  ghost predicate Halts(m: Machine, s: State)
    requires Inv(s)
  {
    exists n: nat :: !Loop(m, s, Undefined, n).Again?
  }

  /** run_scheduler, for the entries that return. */
  ghost function Entry(m: Machine, s: State): (r: TurnResult)
    requires Inv(s) && Halts(m, s)
    ensures Inv(r.s) && !r.Again?
  {
    var n: nat :| !Loop(m, s, Undefined, n).Again?;
    Loop(m, s, Undefined, n)
  }

  lemma EntryIsLoop(m: Machine, s: State, n: nat)
    requires Inv(s) && !Loop(m, s, Undefined, n).Again?
    ensures Halts(m, s) && Entry(m, s) == Loop(m, s, Undefined, n)
  {
    hide Inv, Loop;
    var k: nat :| !Loop(m, s, Undefined, k).Again? && Entry(m, s) == Loop(m, s, Undefined, k);
    if k <= n { LoopStable(m, s, Undefined, k, n); } else { LoopStable(m, s, Undefined, n, k); }
  }

  /** With a finite root budget every scheduler entry returns, within as many
      turns as the measure says. */
  lemma {:induction false} FiniteBudgetReturns(m: Machine, s: State, main: JSValue)
    requires Inv(s) && Finite(s.meters)
    ensures !Loop(m, s, main, Measure(s) + 1).Again?
    decreases Measure(s)
  {
    hide Inv, Turn, Measure, Total;
    TurnKeepsInv(m, s, main);
    TurnLowers(m, s, main);
    match Turn(m, s, main)
    case Again(s', main') =>
      FiniteBudgetReturns(m, s', main');
      LoopStable(m, s', main', Measure(s') + 1, Measure(s));
    case _ =>
  }

  /** What the state says about the way an entry returned. */
  ghost predicate EndsWell(r: TurnResult) {
    && (r.Return? && r.outcome.Done? ==>
          r.s.current.None? && r.s.ready == [] && PendingCalls(r.s.fibers) == [])
    && (r.Return? && r.outcome.Pending? ==>
          r.s.current.None? && r.s.ready == [] && r.outcome.calls == PendingCalls(r.s.fibers) != [])
    && (r.Return? && r.outcome.OutOfFuel? ==>
          r.s.current.None? && |r.s.meters| > 0 && OutOfRootFuel(r.s) && r.outcome.spent == r.s.steps)
    && (r.Raise? ==> r.s.current == Some(0))
  }

  lemma AgainEndsWell(s: State, main: JSValue)
    ensures EndsWell(Again(s, main))
  {
  }

  lemma {:induction false} LoopEnds(m: Machine, s: State, main: JSValue, n: nat)
    requires Inv(s)
    ensures EndsWell(Loop(m, s, main, n))
    decreases n
  {
    hide Inv, Turn, EndsWell;
    AgainEndsWell(s, main);
    if n > 0 {
      TurnKeepsInv(m, s, main);
      TurnEnds(m, s, main);
      match Turn(m, s, main)
      case Again(s', main') => LoopEnds(m, s', main', n - 1);
      case _ =>
    }
  }

  lemma AfterEffectEnds(m: Machine, s: State, effect: Str, args: seq<JSValue>, main: JSValue)
    requires HasCurrent(s) && WellFormed(s.meters) && Structure(s)
    requires forall id :: Live(s.fibers, id) ==> FiberOf(s.fibers, id).meter < |s.meters|
    ensures AfterEffect.requires(HandleEffect(m, s, effect, args), main)
    ensures EndsWell(AfterEffect(HandleEffect(m, s, effect, args), main))
  {
    hide Structure, HandleEffect, Finish, Live, FiberOf, WellFormed, PendingCalls;
    EffectKeeps(m, s, effect, args);
  }

  lemma CurrentTurnEnds(m: Machine, s: State, main: JSValue)
    requires Inv(s) && s.current.Some?
    ensures EndsWell(CurrentTurn(m, s, main))
  {
    hide Structure, RunSlice, Finish, Requeue, HandleEffect, AfterEffect, Charge, Live, FiberOf, WellFormed, SetFiber,
         Ascii, PendingCalls;
    JoinersLive(s);
    if s.meters[Current(s).meter].remaining != Some(0) {
      var sl := RunSlice(m, s.heap, s.regs, Allowance(s));
      var s1 := Charge(s, sl);
      ChargeKeepsStructure(m, s);
      ChargeLeaves(s, sl);
      JoinersLive(s1);
      if sl.end.Suspended? {
        AfterEffectEnds(m, s1, sl.end.effect, sl.end.args, main);
      }
    }
  }

  lemma TurnEnds(m: Machine, s: State, main: JSValue)
    requires Inv(s)
    ensures EndsWell(Turn(m, s, main))
  {
    hide Structure, CurrentTurn, SelectNext, PendingCalls;
    if s.current.Some? {
      CurrentTurnEnds(m, s, main);
    } else if s.ready != [] {
      SelectKeepsInv(s);
      CurrentTurnEnds(m, SelectNext(s), main);
    }
  }

  // ---------- Done means finished, or a cycle of joins ----------

  lemma {:induction false} BlockedIsPending(fs: seq<Fiber>, i: nat)
    requires i < |fs| && fs[i].status.BlockedOnHost?
    ensures PendingCalls(fs) != []
  {
    if i > 0 { BlockedIsPending(fs[1..], i - 1); }
  }

  /** The fiber that an idle, unfinished fiber waits for. */
  ghost function Target(s: State, id: FiberId): FiberId
    requires Waiting(s.waiters, id)
  {
    var a :| Waits(s.waiters, id, a);
    a
  }

  ghost predicate Idle(s: State) {
    Inv(s) && s.current.None? && s.ready == [] && PendingCalls(s.fibers) == []
  }

  lemma IdleWaits(s: State, id: FiberId)
    requires Idle(s) && id in Alive(s.fibers)
    ensures Waiting(s.waiters, id) && Target(s, id) in Alive(s.fibers)
  {
    hide WellFormed, TableValid;
    assert id in TableOf(s.fibers);
    if FiberOf(s.fibers, id).status.BlockedOnHost? {
      BlockedIsPending(s.fibers, IndexOf(s.fibers, id));
    }
    var a := Target(s, id);
    assert Waits(s.waiters, id, a);
    assert a in TableOf(s.fibers);
  }

  /** Follow the join targets `k` steps. */
  ghost function Follow(s: State, id: FiberId, k: nat): (r: FiberId)
    requires Idle(s) && id in Alive(s.fibers)
    ensures r in Alive(s.fibers)
  {
    if k == 0 then id
    else
      var prev := Follow(s, id, k - 1);
      IdleWaits(s, prev);
      Target(s, prev)
  }

  lemma {:induction false} FollowAdds(s: State, id: FiberId, i: nat, j: nat)
    requires Idle(s) && id in Alive(s.fibers)
    ensures Follow(s, Follow(s, id, i), j) == Follow(s, id, i + j)
  {
    hide Idle, Alive, Target;
    if j > 0 { FollowAdds(s, id, i, j - 1); }
  }

  lemma {:induction false} Pigeonhole(xs: seq<FiberId>, ids: set<FiberId>)
    requires |xs| > |ids| && forall x :: x in xs ==> x in ids
    ensures exists i, j :: 0 <= i < j < |xs| && xs[i] == xs[j]
    decreases |xs|
  {
    var last := |xs| - 1;
    if i :| 0 <= i < last && xs[i] == xs[last] {
    } else {
      var front := xs[..last];
      assert xs[last] in ids;
      forall x | x in front ensures x in ids - {xs[last]} { assert x in xs; }
      Pigeonhole(front, ids - {xs[last]});
      var i, j :| 0 <= i < j < |front| && front[i] == front[j];
      assert xs[i] == xs[j];
    }
  }

  /** When an entry returns Done, every fiber that is not finished leads,
      through join targets, into a cycle of fibers waiting on each other. */
  lemma DoneMeansFinishedOrCycle(m: Machine, s0: State, n: nat, id: FiberId)
    requires Inv(s0) && Loop(m, s0, Undefined, n).Return? && Loop(m, s0, Undefined, n).outcome.Done?
    requires id in Alive(Loop(m, s0, Undefined, n).s.fibers)
    ensures var s := Loop(m, s0, Undefined, n).s;
      Idle(s) && exists k, len: nat :: len > 0 && Follow(s, Follow(s, id, k), len) == Follow(s, id, k)
  {
    hide Inv, Loop, PendingCalls, Target, Alive;
    var s := Loop(m, s0, Undefined, n).s;
    LoopEnds(m, s0, Undefined, n);
    var size := |Alive(s.fibers)| + 1;
    var xs := seq(size, k requires 0 <= k < size => Follow(s, id, k));
    Pigeonhole(xs, Alive(s.fibers));
    var i, j :| 0 <= i < j < |xs| && xs[i] == xs[j];
    FollowAdds(s, id, i, j - i);
    assert Follow(s, Follow(s, id, i), j - i) == Follow(s, id, i);
  }
}
