/** Which programs can be recorded at all: a lone one that neither dies nor
    leaves its world, on a finite budget. */
module Sessions {
  import opened Values
  import opened Fuel
  import opened Fibers
  import opened Scheduler
  import opened Runs
  import opened FuelLaws
  import opened Termination
  import opened Entries
  import opened Lone
  import opened Log
  import opened Replay

  /** Its first entry returns an outcome, so recording it gives a session. */
  lemma LoneProgramsRecord(load: Loader, h: LogHeader)
    requires GoodLoader(load) && load(h.source).Some? && NoCollector(load(h.source).value.machine)
    requires h.quantum > 0 && h.fuel.Some?
    requires var p := load(h.source).value; var c := Core(p.heap, p.regs, 0, Going);
      forall n: nat :: !MicroN(p.machine, Effects(h.grants), c, n).fate.Left?
                       && !MicroN(p.machine, Effects(h.grants), c, n).fate.Died?
    ensures Session(load, h, []).Some?
  {
    hide Inv, Loop, MicroN, Start, Measure;
    var p := load(h.source).value;
    var s := Start(p, h.grants, h.fuel, h.quantum);
    StartInv(p, h.grants, h.fuel, h.quantum);
    StartAlone(p, h.grants, h.fuel, h.quantum);
    StartBudget(p, h);
    FiniteBudgetReturns(p.machine, s, Undefined);
    UndyingNeverRaises(p.machine, s, Undefined, Measure(s) + 1);
    EntryIsLoop(p.machine, s, Measure(s) + 1);
  }

  lemma StartBudget(p: Program, h: LogHeader)
    requires h.fuel.Some?
    ensures var ms := Start(p, h.grants, h.fuel, h.quantum).meters; Finite(ms)
  {
  }

  // ---------- One such program ----------

  const HALTS_AT_ONCE :=
    Fibers.Machine((h: Heap, r: Regs) => Stepped(h, r.(control := Halted(Undefined))), (h, r, fs) => h, ALWAYS)

  const PROGRAM := Program(
    HALTS_AT_ONCE,
    Heap(Slab([], [], 0), Slab([], [], 0), Slab([], [], 0), Slab([], [], 0), map[]),
    Regs(Value(Undefined), 0, 0))
}
