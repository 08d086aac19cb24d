/** The language under the scheduler: whatever implements the language's step,
    however its fiber is sliced, starved and refuelled, a program gives exactly
    what it evaluates to. */
module Programs {
  import opened Values
  import opened Fuel
  import opened Boundary
  import opened Fibers
  import opened Scheduler
  import opened Runs
  import opened FuelLaws
  import opened Termination
  import opened Entries
  import opened Lone
  import F = FrameLists
  import L = Language
  import E = Evaluator
  import C = Completeness

  /** How a machine state reads as a configuration, and the states for which it
      does. */
  datatype Reading = Reading(sound: (Heap, Regs) -> bool, config: (Heap, Regs) -> L.Config)

  /** Every step of the interpreter is a step of the language. */
  ghost predicate Interprets(m: Machine, ast: L.Ast, ar: L.Arith, rd: Reading) {
    forall h, r :: rd.sound(h, r) ==>
      && rd.config(h, r).Running? && rd.config(h, r).control == r.control
      && (Runnable(r.control) ==> StepsAs(m.step(h, r), L.Step(ast, ar, rd.config(h, r)), rd))
  }

  ghost predicate StepsAs(s: Step, c: L.Config, rd: Reading) {
    match s
    case Stepped(h, r) => rd.sound(h, r) && rd.config(h, r) == c
    case Faulted(_, e) => c == L.Crashed(e)
  }

  /** The fragment performs no effects. */
  lemma NeverSuspends(ast: L.Ast, ar: L.Arith, c: L.Config)
    requires c.Running? && !c.control.Suspend? && L.Step(ast, ar, c).Running?
    ensures !L.Step(ast, ar, c).control.Suspend?
  {
    hide F.First, L.FindBinding, L.Bind;
  }

  // ---------- The fiber's computation is the program's ----------

  /** A point of the fiber's computation, against the program's. */
  ghost predicate Shadows(ast: L.Ast, ar: L.Arith, rd: Reading, c0: L.Config, d: Core) {
    exists k: nat :: At(rd, L.Steps(ast, ar, c0, k), d)
  }

  ghost predicate At(rd: Reading, c: L.Config, d: Core) {
    match d.fate
    case Going => c.Running? && rd.sound(d.heap, d.regs) && rd.config(d.heap, d.regs) == c && !c.control.Suspend?
    case Over(v) => c.Running? && rd.sound(d.heap, d.regs) && rd.config(d.heap, d.regs) == c && c.control == Halted(v)
    case Died(e) => c == L.Crashed(e)
    case _ => false
  }

  lemma MicroShadows(
      m: Machine, ast: L.Ast, ar: L.Arith, rd: Reading, effects: map<Str, EffectKind>, c0: L.Config, d: Core)
    requires Interprets(m, ast, ar, rd) && Shadows(ast, ar, rd, c0, d)
    ensures Shadows(ast, ar, rd, c0, Micro(m, effects, d))
  {
    hide L.Step, Perform;
    var k: nat :| At(rd, L.Steps(ast, ar, c0, k), d);
    if d.fate.Going? {
      var c := L.Steps(ast, ar, c0, k);
      if d.regs.control.Halted? {
        assert At(rd, c, Micro(m, effects, d));
      } else {
        assert StepsAs(m.step(d.heap, d.regs), L.Step(ast, ar, c), rd);
        E.StepsAdd(ast, ar, c0, k, 1);
        assert L.Steps(ast, ar, c, 1) == L.Step(ast, ar, c);
        if L.Step(ast, ar, c).Running? { NeverSuspends(ast, ar, c); }
        assert At(rd, L.Steps(ast, ar, c0, k + 1), Micro(m, effects, d));
      }
    }
  }

  lemma {:induction false} MicroNShadows(
      m: Machine, ast: L.Ast, ar: L.Arith, rd: Reading, effects: map<Str, EffectKind>, c0: L.Config, d: Core, n: nat)
    requires Interprets(m, ast, ar, rd) && Shadows(ast, ar, rd, c0, d)
    ensures Shadows(ast, ar, rd, c0, MicroN(m, effects, d, n))
    decreases n
  {
    hide Interprets, Shadows, Micro;
    if n > 0 {
      MicroShadows(m, ast, ar, rd, effects, c0, d);
      MicroNShadows(m, ast, ar, rd, effects, c0, Micro(m, effects, d), n - 1);
    }
  }

  /** A program about to run, alone in its runtime. */
  ghost predicate Launched(m: Machine, ast: L.Ast, ar: L.Arith, rd: Reading, s: State, c0: L.Config) {
    && NoCollector(m) && Interprets(m, ast, ar, rd) && Alone(s)
    && c0.Running? && !c0.control.Suspend?
    && CoreOf(s).fate.Going? && rd.sound(CoreOf(s).heap, CoreOf(s).regs)
    && rd.config(CoreOf(s).heap, CoreOf(s).regs) == c0
  }

  lemma RunShadows(m: Machine, ast: L.Ast, ar: L.Arith, rd: Reading, s: State, c0: L.Config)
    requires Launched(m, ast, ar, rd, s, c0)
    ensures forall d :: LeadsTo(m, s.effects, CoreOf(s), d) ==> Shadows(ast, ar, rd, c0, d)
    ensures forall n: nat :: !MicroN(m, s.effects, CoreOf(s), n).fate.Left?
  {
    hide Interprets, Inv, Lonely, CoreOf, L.Step;
    assert At(rd, L.Steps(ast, ar, c0, 0), CoreOf(s));
    forall n: nat
      ensures Shadows(ast, ar, rd, c0, MicroN(m, s.effects, CoreOf(s), n))
      ensures !MicroN(m, s.effects, CoreOf(s), n).fate.Left?
    {
      MicroNShadows(m, ast, ar, rd, s.effects, c0, CoreOf(s), n);
    }
  }

  // ---------- What the host is told ----------

  /** The program's value, if it has one. */
  ghost predicate HasValue(ast: L.Ast, ar: L.Arith, start: nat, count: nat, st: L.Store, v: JSValue)
    requires ast.StmtList(start, count) != []
  {
    exists n: nat, st': L.Store :: C.Evaluates(ast, ar, n, start, count, st) == Some((v, st'))
  }

  /** An entry that ends the program ends it as the evaluator says: Done gives the
      value it evaluates to, and a raised error means that it has none. */
  lemma EntryEvaluates(
      m: Machine, ast: L.Ast, ar: L.Arith, rd: Reading, s: State, start: nat, count: nat, st: L.Store, main: JSValue,
      n: nat)
    requires ast.StmtList(start, count) != [] && Launched(m, ast, ar, rd, s, C.Start(ast, start, count, st))
    ensures var r := Loop(m, s, main, n);
      && (r.Return? && r.outcome.Done? ==> HasValue(ast, ar, start, count, st, r.outcome.v))
      && (r.Raise? ==> forall v :: !HasValue(ast, ar, start, count, st, v))
      && !(r.Return? && r.outcome.Pending?)
  {
    hide Interprets, Inv, Loop, MicroN, C.Evaluates, C.Start, L.Steps;
    var c0 := C.Start(ast, start, count, st);
    RunShadows(m, ast, ar, rd, s, c0);
    var d := LoopAlone(m, s, main, n);
    var k: nat :| At(rd, L.Steps(ast, ar, c0, k), d);
    var r := Loop(m, s, main, n);
    if r.Return? && r.outcome.Done? {
      ValueOfHalted(ast, ar, start, count, st, k);
    } else if r.Raise? {
      NoValueOfCrashed(ast, ar, start, count, st, k);
    } else if r.Return? && r.outcome.Pending? {
      PendingIsAsked(m, s, main, n);
    }
  }

  /** However a run is sliced, starved and refuelled: if it comes to rest, it
      rests on the program's value; if it raises, there is none. */
  lemma PacedRunEvaluates(
      m: Machine, ast: L.Ast, ar: L.Arith, rd: Reading, s: State, start: nat, count: nat, st: L.Store,
      moves: seq<Pace>)
    requires ast.StmtList(start, count) != [] && Launched(m, ast, ar, rd, s, C.Start(ast, start, count, st))
    ensures var r := Play(m, s, moves);
      && (r.1.Some? ==> forall v :: !HasValue(ast, ar, start, count, st, v))
      && (r.1.None? ==>
            Lonely(r.0)
            && (!CoreOf(r.0).fate.Going? ==>
                  CoreOf(r.0).fate.Over? && HasValue(ast, ar, start, count, st, CoreOf(r.0).fate.v)))
  {
    hide Interprets, Inv, Play, MicroN, C.Evaluates, C.Start, L.Steps, HasValue;
    var c0 := C.Start(ast, start, count, st);
    RunShadows(m, ast, ar, rd, s, c0);
    PlayAlone(m, s, moves);
    var d := Lone.Result(Play(m, s, moves));
    var k: nat :| At(rd, L.Steps(ast, ar, c0, k), d);
    if d.fate.Over? {
      ValueOfHalted(ast, ar, start, count, st, k);
    } else if d.fate.Died? {
      NoValueOfCrashed(ast, ar, start, count, st, k);
    }
  }

  /** A program has at most one value. */
  lemma ValueIsUnique(ast: L.Ast, ar: L.Arith, start: nat, count: nat, st: L.Store, v: JSValue, w: JSValue)
    requires ast.StmtList(start, count) != []
    requires HasValue(ast, ar, start, count, st, v) && HasValue(ast, ar, start, count, st, w)
    ensures v == w
  {
    hide C.Evaluates, C.Start;
    var n: nat, st1 :| C.Evaluates(ast, ar, n, start, count, st) == Some((v, st1));
    var k: nat, st2 :| C.Evaluates(ast, ar, k, start, count, st) == Some((w, st2));
    C.ProgramAgrees(ast, ar, start, count, st, v, st1);
    C.ProgramAgrees(ast, ar, start, count, st, w, st2);
    C.HaltsOnce(ast, ar, C.Start(ast, start, count, st), v, st1, w, st2);
  }

  /** A run that needs the host rests on a question. */
  lemma PendingIsAsked(m: Machine, s: State, main: JSValue, n: nat)
    requires Alone(s)
    ensures var r := Loop(m, s, main, n);
      r.Return? && r.outcome.Pending? && Lonely(r.s) ==> CoreOf(r.s).fate.Asked?
  {
    hide Inv, Loop;
    LoopEnds(m, s, main, n);
    var t := Loop(m, s, main, n).s;
    if Lonely(t) && !t.fibers[0].status.BlockedOnHost? { assert t.fibers[1..] == [] && PendingCalls(t.fibers) == []; }
  }

  lemma ValueOfHalted(ast: L.Ast, ar: L.Arith, start: nat, count: nat, st: L.Store, k: nat)
    requires ast.StmtList(start, count) != []
    requires var c := L.Steps(ast, ar, C.Start(ast, start, count, st), k); c.Running? && c.control.Halted?
    ensures HasValue(ast, ar, start, count, st, L.Steps(ast, ar, C.Start(ast, start, count, st), k).control.v)
  {
    hide C.Evaluates, C.Start, L.Steps;
    var c0 := C.Start(ast, start, count, st);
    var c := L.Steps(ast, ar, c0, k);
    assert E.Reaches(ast, ar, c0, L.Running(Halted(c.control.v), c.env, c.frames, c.store));
    assert C.HaltsWith(ast, ar, c0, c.control.v, c.store);
    C.ProgramAgrees(ast, ar, start, count, st, c.control.v, c.store);
  }

  lemma NoValueOfCrashed(ast: L.Ast, ar: L.Arith, start: nat, count: nat, st: L.Store, k: nat)
    requires ast.StmtList(start, count) != []
    requires L.Steps(ast, ar, C.Start(ast, start, count, st), k).Crashed?
    ensures forall v :: !HasValue(ast, ar, start, count, st, v)
  {
    hide C.Evaluates, C.Start, L.Step;
    var c0 := C.Start(ast, start, count, st);
    forall v ensures !HasValue(ast, ar, start, count, st, v) {
      if HasValue(ast, ar, start, count, st, v) {
        var n: nat, st' :| C.Evaluates(ast, ar, n, start, count, st) == Some((v, st'));
        C.ProgramAgrees(ast, ar, start, count, st, v, st');
        var env, left :| E.Reaches(ast, ar, c0, L.Running(Halted(v), env, left, st'));
        var j: nat :| L.Steps(ast, ar, c0, j) == L.Running(Halted(v), env, left, st');
        if j <= k {
          E.StepsAdd(ast, ar, c0, j, k - j);
          C.HaltedStays(ast, ar, L.Steps(ast, ar, c0, j), k - j);
        } else {
          E.StepsAdd(ast, ar, c0, k, j - k);
          C.HaltedStays(ast, ar, L.Steps(ast, ar, c0, k), j - k);
        }
      }
    }
  }

  lemma {:induction false} StepsWithinBudget(m: Machine, s: State, main: JSValue, n: nat)
    requires Inv(s) && Finite(s.meters)
    ensures Loop(m, s, main, n).s.steps <= s.steps + Total(s.meters)
    decreases n
  {
    hide Inv, Turn, Total, Spends;
    if n > 0 {
      TurnKeepsInv(m, s, main);
      TurnSpendsAtMost(m, s, main);
      match Turn(m, s, main)
      case Again(s', main') => StepsWithinBudget(m, s', main', n - 1);
      case _ =>
    }
  }

  // ---------- One such interpreter ----------

  /** A frame list as a chain of slots ending in Halt. */
  function Chain(fs: seq<Frame>): seq<Kont> {
    seq(|fs|, i requires 0 <= i < |fs| => Link(fs[i], i + 1)) + [Halt]
  }

  function Frames(data: seq<Kont>): seq<Frame> {
    if data == [] || data[0].Halt? then [] else [data[0].frame] + Frames(data[1..])
  }

  function Read(h: Heap, r: Regs): L.Config {
    L.Running(r.control, r.env, Frames(h.conts.data), L.Store(h.envs, h.globals))
  }

  const READS: Reading := Reading((h, r) => true, Read)

  function ListStep(ast: L.Ast, ar: L.Arith, h: Heap, r: Regs): Step {
    match L.Step(ast, ar, Read(h, r))
    case Running(control, env, frames, st) =>
      Stepped(h.(conts := Slab(Chain(frames), [], 0), envs := st.envs, globals := st.globals), Regs(control, 0, env))
    case Crashed(e) => Faulted(h, e)
  }

  function ListMachine(ast: L.Ast, ar: L.Arith): Machine {
    Machine((h, r) => ListStep(ast, ar, h, r), (h, r, fs) => h, (path, step) => true)
  }

  lemma {:induction false} FramesOfLinks(fs: seq<Frame>, data: seq<Kont>)
    requires |data| == |fs| + 1 && data[|fs|].Halt?
    requires forall i :: 0 <= i < |fs| ==> data[i].Link? && data[i].frame == fs[i]
    ensures Frames(data) == fs
    decreases |fs|
  {
    if fs != [] {
      FramesOfLinks(fs[1..], data[1..]);
      assert fs == [fs[0]] + fs[1..];
    }
  }

  /** The interpreter that keeps its frames as a list is one. */
  lemma ListMachineInterprets(ast: L.Ast, ar: L.Arith)
    ensures NoCollector(ListMachine(ast, ar)) && Interprets(ListMachine(ast, ar), ast, ar, READS)
  {
    hide L.Step;
    forall h: Heap, r: Regs | Runnable(r.control)
      ensures StepsAs(ListMachine(ast, ar).step(h, r), L.Step(ast, ar, Read(h, r)), READS)
    {
      var c := L.Step(ast, ar, Read(h, r));
      if c.Running? { FramesOfLinks(c.frames, Chain(c.frames)); }
    }
  }

  /** A program loaded into a fresh runtime. */
  function Loaded(ast: L.Ast, ar: L.Arith, start: nat, count: nat, st: L.Store): Program
    requires ast.StmtList(start, count) != []
  {
    var c := C.Start(ast, start, count, st);
    Program(
      ListMachine(ast, ar),
      Heap(Slab([], [], 0), c.store.envs, Slab(Chain(c.frames), [], 0), Slab([], [], 0), c.store.globals),
      Regs(c.control, 0, c.env))
  }

  /** Loaded with a budget, a program's first entry returns; Done gives its value,
      an error means it has none, and otherwise the budget is spent. */
  lemma LoadedProgramRuns(
      ast: L.Ast, ar: L.Arith, start: nat, count: nat, st: L.Store, grants: seq<Str>, budget: u64, quantum: u64)
    requires ast.StmtList(start, count) != [] && quantum > 0
    ensures Loaded(ast, ar, start, count, st).Valid()
    ensures var p := Loaded(ast, ar, start, count, st);
      var s := Start(p, grants, Some(budget), quantum);
      && Inv(s) && Halts(p.machine, s)
      && match Entry(p.machine, s)
         case Return(_, Done(v)) => HasValue(ast, ar, start, count, st, v)
         case Return(t, OutOfFuel(spent)) => spent == t.steps <= budget
         case Raise(_, _) => forall v :: !HasValue(ast, ar, start, count, st, v)
         case _ => false
  {
    hide Inv, Loop, HasValue, Interprets, ListMachine, Measure;
    var p := Loaded(ast, ar, start, count, st);
    var s := Start(p, grants, Some(budget), quantum);
    var c := C.Start(ast, start, count, st);
    FramesOfLinks(c.frames, Chain(c.frames));
    StartAlone(p, grants, Some(budget), quantum);
    ListMachineInterprets(ast, ar);
    FiniteBudgetReturns(p.machine, s, Undefined);
    var n := Measure(s) + 1;
    EntryIsLoop(p.machine, s, n);
    EntryEvaluates(p.machine, ast, ar, READS, s, start, count, st, Undefined, n);
    LoopEnds(p.machine, s, Undefined, n);
    StepsWithinBudget(p.machine, s, Undefined, n);
  }
}
