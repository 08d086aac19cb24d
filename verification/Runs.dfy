/** Whole runs: any interleaving of scheduler iterations and host calls, from a
    fresh start. */
module Runs {
  import opened Values
  import opened Fuel
  import opened Boundary
  import opened Fibers
  import opened Placement
  import opened Scheduler

  /** What a fresh run starts from: the interpreter over the parsed program,
      its heap, and the registers of a non-empty program. */
  datatype Program = Program(machine: Machine, heap: Heap, regs: Regs) {
    ghost predicate Valid() {
      Runnable(regs.control)
    }
  }

  const BUILTINS: map<Str, EffectKind> := map[
    Ascii("Print") := Builtin(Print),
    Ascii("Fork") := Builtin(Fork),
    Ascii("Join") := Builtin(Join),
    Ascii("Gc") := Builtin(Gc),
    Ascii("Snapshot") := Builtin(Snapshot)]

  /** Granting a name overrides whatever the name meant. */
  function Effects(grants: seq<Str>): map<Str, EffectKind> {
    BUILTINS + map g | g in grants :: Host
  }

  function Start(p: Program, grants: seq<Str>, budget: Option<u64>, quantum: u64): State {
    State(p.heap, p.regs, [Fiber(0, p.regs, Ready, ROOT)], [0], None, 1, map[], Effects(grants),
          [Meter(budget, None)], quantum, 0, 0)
  }

  lemma StartInv(p: Program, grants: seq<Str>, budget: Option<u64>, quantum: u64)
    requires p.Valid() && quantum > 0
    ensures Inv(Start(p, grants, budget, quantum))
  {
    var s := Start(p, grants, budget, quantum);
    assert Live(s.fibers, 0);
    assert forall id :: Live(s.fibers, id) ==> id == 0;
  }

  // ---------- Host calls ----------

  predicate IsPending(s: State, id: FiberId) {
    Live(s.fibers, id) && FiberOf(s.fibers, id).status.BlockedOnHost?
  }

  function ApplyAnswer(s: State, id: FiberId, answer: HostValue): State
    requires Live(s.fibers, id)
  {
    var (objects, v) := FromHost(s.heap.objects, answer);
    Unblock(s.(heap := s.heap.(objects := objects)), id, v)
  }

  predicate OutOfRootFuel(s: State)
    requires |s.meters| > 0
  {
    s.meters[ROOT].remaining == Some(0)
  }

  function TopUp(s: State, amount: u64): State
    requires |s.meters| > 0
  {
    s.(meters := Added(s.meters, ROOT, amount))
  }

  lemma AnswerKeepsInv(s: State, id: FiberId, answer: HostValue)
    requires Inv(s) && IsPending(s, id)
    ensures Inv(ApplyAnswer(s, id, answer))
  {
    hide Placed, FromHost, IndexOf, SetFiber, FiberOf;
    var s' := ApplyAnswer(s, id, answer);
    var f0 := FiberOf(s.fibers, id);
    var v := FromHost(s.heap.objects, answer).1;
    var f := f0.(regs := f0.regs.(control := Value(v)), status := Ready);
    assert id in TableOf(s.fibers);
    assert s'.fibers == SetFiber(s.fibers, f);
    SetFiberTable(s.fibers, f);
    SetFiberKeepsTable(s.fibers, f, s.nextId, s.meters);
    AnswerPlaced(TableOf(s.fibers), s.current, s.ready, s.waiters, f);
    if s.current.Some? { assert s.current != Some(id) by { NotPendingIfCurrent(s); } }
  }

  lemma NotPendingIfCurrent(s: State)
    requires Inv(s) && s.current.Some?
    ensures !IsPending(s, s.current.value)
  {
    assert s.current.value in TableOf(s.fibers);
  }

  lemma SetFiberKeepsTable(fs: seq<Fiber>, f: Fiber, nextId: nat, meters: seq<Meter>)
    requires TableValid(fs, nextId, meters) && Live(fs, f.id) && f.meter == FiberOf(fs, f.id).meter
    ensures TableValid(SetFiber(fs, f), nextId, meters)
  {
  }

  lemma TopUpKeepsInv(s: State, amount: u64)
    requires Inv(s)
    ensures Inv(TopUp(s, amount))
  {
    hide Placed;
  }

  // ---------- Runs ----------

  /** One observable move; a host call the source rejects changes nothing. */
  datatype Move =
    | TakeTurn(main: JSValue)
    | Answer(id: FiberId, answer: HostValue)
    | Refuel(amount: u64)

  ghost function MoveBy(m: Machine, s: State, a: Move): State
    requires Inv(s)
  {
    match a
    case TakeTurn(main) => Turn(m, s, main).s
    case Answer(id, answer) => if IsPending(s, id) then ApplyAnswer(s, id, answer) else s
    case Refuel(amount) => if OutOfRootFuel(s) then TopUp(s, amount) else s
  }

  lemma MoveKeepsInv(m: Machine, s: State, a: Move)
    requires Inv(s)
    ensures Inv(MoveBy(m, s, a))
  {
    hide Inv, Turn, ApplyAnswer, TopUp, IsPending;
    match a
    case TakeTurn(main) => TurnKeepsInv(m, s, main);
    case Answer(id, answer) => if IsPending(s, id) { AnswerKeepsInv(s, id, answer); }
    case Refuel(amount) => TopUpKeepsInv(s, amount);
  }

  ghost function Run(m: Machine, s: State, moves: seq<Move>): (r: State)
    requires Inv(s)
    ensures Inv(r)
    decreases |moves|
  {
    if moves == [] then s
    else
      MoveKeepsInv(m, s, moves[0]);
      Run(m, MoveBy(m, s, moves[0]), moves[1..])
  }

  /** In every state of every run an unfinished fiber has exactly one place:
      current, queued once, on one waiter list once, or blocked on the host. */
  lemma ExactlyOnePlace(m: Machine, s0: State, moves: seq<Move>, id: FiberId)
    requires Inv(s0)
    requires Live(Run(m, s0, moves).fibers, id) && Unfinished(FiberOf(Run(m, s0, moves).fibers, id))
    ensures var s := Run(m, s0, moves);
      && Count(s.ready, id) + (if s.current == Some(id) then 1 else 0)
         + (if Waiting(s.waiters, id) then 1 else 0) + (if IsPending(s, id) then 1 else 0) == 1
      && (forall a, b :: Waits(s.waiters, id, a) && Waits(s.waiters, id, b) ==> a == b)
      && (forall a :: Waits(s.waiters, id, a) ==>
            Count(s.waiters[a], id) == 1 && Live(s.fibers, a) && Unfinished(FiberOf(s.fibers, a)))
      && id < s.nextId
  {
    var s := Run(m, s0, moves);
    var t := TableOf(s.fibers);
    assert id in t;
    DistinctCount(s.ready, id);
    forall a | Waits(s.waiters, id, a)
      ensures Count(s.waiters[a], id) == 1 && Live(s.fibers, a) && Unfinished(FiberOf(s.fibers, a))
    {
      DistinctCount(s.waiters[a], id);
      assert a in t;
    }
    if s.current == Some(id) { assert !Waiting(s.waiters, id); }
    if Waiting(s.waiters, id) { var a :| Waits(s.waiters, id, a); }
  }

  ghost function Count(ids: seq<FiberId>, id: FiberId): nat {
    if ids == [] then 0 else (if ids[0] == id then 1 else 0) + Count(ids[1..], id)
  }

  lemma {:induction false} DistinctCount(ids: seq<FiberId>, id: FiberId)
    requires Distinct(ids)
    ensures Count(ids, id) == if id in ids then 1 else 0
  {
    if ids != [] {
      DistinctCount(ids[1..], id);
      assert ids == [ids[0]] + ids[1..];
    }
  }
}
