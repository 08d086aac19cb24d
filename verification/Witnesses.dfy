/** Inputs on which the code falls short of what it promises; the conditions
    elsewhere say exactly when it does not. */
module Witnesses {
  import opened Values
  import opened Fuel
  import opened Boundary
  import opened Bytes
  import opened HostCodec
  import opened Log
  import F = FrameLists
  import L = Language
  import opened Fibers
  import opened Scheduler
  import opened Runs
  import opened Entries
  import opened Replay
  import opened Sessions
  import opened SnapshotCodec
  import opened Image

  // ---------- Nested beyond the cap ----------

  /** An array in an array, `n` deep. */
  function Nest(n: nat): HostValue {
    if n == 0 then HNull else HArray([Nest(n - 1)])
  }

  lemma {:induction false} NestIsDeep(n: nat)
    ensures Height(Nest(n)) == n && Good(Nest(n))
  {
    if n > 0 {
      NestIsDeep(n - 1);
      assert Child(Nest(n), 0) == Nest(n - 1);
      assert Deepest(Nest(n), 1) == n - 1;
    }
  }

  lemma {:induction false} NestIsShort(n: nat)
    ensures |EncHost(Nest(n))| == 5 * n + 1
  {
    hide EncLe;
    if n > 0 {
      NestIsShort(n - 1);
      var v := Nest(n);
      assert Child(v, 0) == Nest(n - 1);
      assert EncChildren(v, 1) == [];
      assert |EncChildren(v, 0)| == |EncChild(v, 0)| == |EncHost(Nest(n - 1))|;
    }
  }

  const DEEP: HostValue := Nest(MAX_HOST_VALUE_DEPTH + 1)

  /** A run whose result is such a value leaves a log that cannot be read. */
  lemma DeepResultBreaksLog()
    ensures var h := LogHeader([], [], None, 1);
      ParseLog(EncLog(h, [Stamped(0, DoneEvent(Some(DEEP)))])) == Err(Corrupt(TooDeep))
  {
    hide EncHost, Good, Height, EncLe;
    NestIsDeep(MAX_HOST_VALUE_DEPTH + 1);
    NestIsShort(MAX_HOST_VALUE_DEPTH + 1);
    var h := LogHeader([], [], None, 1);
    var e := Stamped(0, DoneEvent(Some(DEEP)));
    assert GoodEvent(e);
    ParseRecorded(h, [e], []);
    assert !Log.Shallow([e][0].event);
    assert EncLog(h, [e]) + [] == EncLog(h, [e]);
  }

  const EMPTY_HEAP: Heap :=
    Heap(Slab([], [], 0), Slab([Env(map[], None)], [], 1), Slab([Halt], [], 1), Slab([], [], 0), map[])

  /** A runtime whose root waits for the host with such an argument. */
  const DEEP_CALL: State :=
    State(EMPTY_HEAP, Regs(Value(Undefined), 0, 0),
          [Fiber(0, Regs(Value(Undefined), 0, 0), BlockedOnHost([], [DEEP]), ROOT)],
          [], None, 1, map[], map[], [Meter(None, None)], 1, 0, 0)

  const EMPTY_CONTEXT: Context := Context([[]], m => [], w => [], g => [])

  /** It is saved, and cannot be restored. */
  lemma DeepCallBreaksSnapshot()
    ensures StateFits(EMPTY_CONTEXT, DEEP_CALL) && Sane(DEEP_CALL)
    ensures GetRuntime(PutRuntime(EMPTY_CONTEXT, DEEP_CALL, [], [])) == Bad(TooDeep)
  {
    hide EncHost, Good, Height, PutRuntime, GetRuntime;
    NestIsDeep(MAX_HOST_VALUE_DEPTH + 1);
    assert DEEP_CALL.fibers[0].status.args[0] == DEEP && Height(DEEP) > MAX_HOST_VALUE_DEPTH;
    assert !Image.Shallow(DEEP_CALL.fibers[0].status);
    RuntimeBack(EMPTY_CONTEXT, DEEP_CALL, [], []);
  }

  // ---------- A handler in between ----------

  /** An inner handler that does not name the effect: resuming at once drops the
      handler that does. */
  lemma InnerHandlerLosesFrames()
    ensures var inner, outer := HandlerK(0, 0, 0, NONE, []), HandlerK(0, 1, 0, NONE, []);
      var l := F.Lists([[inner, outer]], 0, []);
      var clauses := [Ascii("E")];
      var after := F.Apply(clauses, l, F.Op.Perform(Ascii("E")));
      F.Legal(after, F.Op.Resume(0)) && F.Apply(clauses, after, F.Op.Resume(0)).Top() == [inner]
  {
    var inner, outer := HandlerK(0, 0, 0, NONE, []), HandlerK(0, 1, 0, NONE, []);
    var l := F.Lists([[inner, outer]], 0, []);
    var clauses := [Ascii("E")];
    var stop := F.AtClause(Ascii("E"));
    assert clauses[0] == Ascii("E") && F.Handles(clauses, outer, Ascii("E"));
    assert F.First(clauses, stop, [outer]) == 0 && [inner, outer][1..] == [outer];
    assert F.First(clauses, stop, l.Top()) == 1;
    assert F.First(clauses, F.AtHandler, l.Top()) == 0;
    assert [inner, outer][2..] == [] && [inner, outer][..1] == [inner];
  }

  // ---------- A run that ends with no fuel left ----------

  const LAST_DROP: LogHeader := LogHeader([], [], Some(1), 1)

  const SPENT: State :=
    Start(PROGRAM, [], Some(1), 1).(
      regs := Regs(Halted(Undefined), 0, 0),
      fibers := [Fiber(0, PROGRAM.regs, Completed(Undefined), ROOT)],
      ready := [], meters := [Meter(Some(0), None)], steps := 1)

  lemma HaltsAtOnceSpendsAll()
    ensures Inv(Start(PROGRAM, [], Some(1), 1))
    ensures Outcome(HALTS_AT_ONCE, Start(PROGRAM, [], Some(1), 1)) == Some((SPENT, Done(Undefined)))
  {
    hide BUILTINS, Ascii, Structure;
    var s0 := Start(PROGRAM, [], Some(1), 1);
    StartInv(PROGRAM, [], Some(1), 1);
    TurnKeepsInv(HALTS_AT_ONCE, s0, Undefined);
    SelectKeepsInv(s0);
    assert Turn(HALTS_AT_ONCE, s0, Undefined) == Again(SPENT, Undefined);
    assert SPENT.fibers[1..] == [];
    assert PendingCalls(SPENT.fibers) == [];
    assert Turn(HALTS_AT_ONCE, SPENT, Undefined) == Return(SPENT, Done(Undefined));
    assert Loop(HALTS_AT_ONCE, SPENT, Undefined, 1) == Return(SPENT, Done(Undefined));
    assert Loop(HALTS_AT_ONCE, s0, Undefined, 2) == Return(SPENT, Done(Undefined));
    EntryIsLoop(HALTS_AT_ONCE, s0, 2);
  }

  const LOADS_IT: Loader := src => Some(PROGRAM)

  lemma LastDropSession()
    ensures GoodLoader(LOADS_IT) && Session(LOADS_IT, LAST_DROP, []).Some?
    ensures var r := Session(LOADS_IT, LAST_DROP, []).value;
      r.s == SPENT && r.sealed && r.log == [Stamped(1, DoneEvent(Some(HUndefined)))]
  {
    hide Inv, Outcome, Start, ToHost, Unfolds;
    HaltsAtOnceSpendsAll();
    UndefinedCrosses(SPENT.heap.objects.data);
    assert Boot(LOADS_IT, LAST_DROP) == Some(Rec(SPENT, Done(Undefined), Done(Undefined), [], false));
  }

  lemma UndefinedCrosses(objs: seq<Obj>)
    ensures ToHost(objs, Undefined) == Some(HUndefined)
  {
    assert Unfolds(objs, Undefined, HUndefined, {});
  }

  /** A completed run that spent its last fuel still takes a refuel, which leaves
      a log that cannot be read. */
  lemma LateRefuelHappens()
    ensures GoodLoader(LOADS_IT) && Session(LOADS_IT, LAST_DROP, []).Some?
    ensures var r := Session(LOADS_IT, LAST_DROP, []).value;
      var q := Act(HALTS_AT_ONCE, r, AddFuelCall(1));
      r.sealed && q.Some? && ParseLog(EncLog(LAST_DROP, q.value.log)).Err?
  {
    hide Session, Act, ParseLog, EncLog, Inv;
    LastDropSession();
    var r := Session(LOADS_IT, LAST_DROP, []).value;
    assert Log.Shallow(r.log[0].event) && GoodEvent(r.log[0]) && GoodHeader(LAST_DROP);
    assert Recordable(r.log);
    assert OutOfRootFuel(r.s);
    LateRefuelBreaksLog(LOADS_IT, LAST_DROP, [], 1);
  }

  // ---------- A root consumed by a join ----------

  /** The root forks a child and ends with 7; the child joins the root and ends. */
  function JoinScript(h: Heap, r: Regs): Step {
    Stepped(h, r.(control := match r.control
      case Stmt(0) => Suspend(Ascii("Fork"), [JSValue.Function(0)])
      case Stmt(_) => Suspend(Ascii("Join"), [Int(0)])
      case Value(Int(_)) => Halted(Int(7))
      case _ => Halted(Undefined)))
  }

  const JOINS_ROOT := Fibers.Machine(JoinScript, (h, r, fs) => h, ALWAYS)

  const CHILD_CODE: Obj := Obj(map[], None, Closure(FunctionData(0, 0, 1, None, 0, None)))

  const JOINING: Program := Program(
    JOINS_ROOT,
    Heap(Slab([CHILD_CODE], [], 0), Slab([], [], 0), Slab([], [], 0), Slab([], [], 0), map[]),
    Regs(Stmt(0), 0, 0))

  const FRESH: State := Start(JOINING, [], None, 1)

  const FORKED: State := FRESH.(
    heap := JOINING.heap.(conts := Slab([Halt], [], 1)),
    regs := Regs(Value(Int(1)), 0, 0),
    fibers := [Fiber(0, JOINING.regs, Running, ROOT), Fiber(1, Regs(Stmt(1), 0, 0), Ready, ROOT)],
    ready := [1], current := Some(0), nextId := 2, steps := 1)

  const ENDED: State := FORKED.(
    regs := Regs(Halted(Int(7)), 0, 0),
    fibers := [FORKED.fibers[0].(status := Completed(Int(7))), FORKED.fibers[1]],
    current := None, steps := 2)

  const JOINED: State := ENDED.(
    heap := FORKED.heap.(objects := Slab([CHILD_CODE, Obj(map[Ascii("ok") := Int(7)], None, Ordinary)], [], 1)),
    regs := Regs(Value(JSValue.Object(1)), 0, 0),
    fibers := [FORKED.fibers[1].(status := Running)],
    ready := [], current := Some(1), steps := 3)

  const OVER: State := JOINED.(
    regs := Regs(Halted(Undefined), 0, 0),
    fibers := [FORKED.fibers[1].(status := Completed(Undefined))],
    current := None, steps := 4)

  lemma BuiltinsAre()
    ensures Ascii("Fork") in Effects([]) && Effects([])[Ascii("Fork")] == Builtin(Fork)
    ensures Ascii("Join") in Effects([]) && Effects([])[Ascii("Join")] == Builtin(Join)
  {
    assert Ascii("Fork")[0] == 70 && Ascii("Join")[0] == 74;
    assert |Ascii("Gc")| == 2 && |Ascii("Snapshot")| == 8 && |Ascii("Print")| == 5;
  }

  /** The root about to fork, its slice paid for. */
  const FORKING: State := FRESH.(
    regs := Regs(Suspend(Ascii("Fork"), []), 0, 0),
    fibers := [FORKED.fibers[0]], ready := [], current := Some(0), steps := 1)

  lemma ForkEffect()
    ensures HasCurrent(FORKING) && WellFormed(FORKING.meters)
    ensures forall id :: Live(FORKING.fibers, id) ==> FiberOf(FORKING.fibers, id).meter < |FORKING.meters|
    ensures HandleEffect(JOINS_ROOT, FORKING, Ascii("Fork"), [JSValue.Function(0)]) ==
              Spawned(FORKED.(regs := FORKING.regs), 1)
  {
    hide Ascii, BUILTINS;
    BuiltinsAre();
    assert IndexOf(FORKING.fibers, 0) == 0 && Current(FORKING) == FORKED.fibers[0];
    forall id | Live(FORKING.fibers, id) ensures FiberOf(FORKING.fibers, id).meter < |FORKING.meters| {}
    assert FORKING.fibers + [FORKED.fibers[1]] == FORKED.fibers;
    assert JOINING.heap.conts.data + [Halt] == [Halt];
  }

  lemma ForkTurn()
    ensures Inv(FRESH) && Turn(JOINS_ROOT, FRESH, Undefined) == Again(FORKED, Undefined)
  {
    hide Structure, Ascii, BUILTINS, HandleEffect, Effects;
    StartInv(JOINING, [], None, 1);
    SelectKeepsInv(FRESH);
    assert SelectNext(FRESH).fibers == [FORKED.fibers[0]] && SelectNext(FRESH).ready == [];
    ForkEffect();
  }

  lemma EndTurn()
    requires Inv(FORKED)
    ensures Turn(JOINS_ROOT, FORKED, Undefined) == Again(ENDED, Int(7))
  {
    hide Structure, Ascii, BUILTINS;
  }

  /** The child about to join, its slice paid for. */
  const ASKING: State := ENDED.(
    regs := Regs(Suspend(Ascii("Join"), []), 0, 0),
    fibers := [ENDED.fibers[0], FORKED.fibers[1].(status := Running)],
    ready := [], current := Some(1), steps := 3)

  lemma JoinEffect()
    ensures HasCurrent(ASKING) && WellFormed(ASKING.meters)
    ensures forall id :: Live(ASKING.fibers, id) ==> FiberOf(ASKING.fibers, id).meter < |ASKING.meters|
    ensures HandleEffect(JOINS_ROOT, ASKING, Ascii("Join"), [Int(0)]) == EffectResult.Resume(JOINED)
  {
    hide Ascii, BUILTINS;
    BuiltinsAre();
    var fs := ASKING.fibers;
    assert IndexOf(fs, 0) == 0 && IndexOf(fs, 1) == 1;
    forall id | Live(fs, id) ensures FiberOf(fs, id).meter < |ASKING.meters| {}
    assert fs[1].id != 0 && fs[1].meter == fs[0].meter;
    assert SwapRemove(fs, 0) == [fs[1]];
  }

  lemma JoinTurn()
    requires Inv(ENDED)
    ensures Turn(JOINS_ROOT, ENDED, Int(7)) == Again(JOINED, Int(7))
  {
    hide Structure, Ascii, BUILTINS, HandleEffect, Effects;
    SelectKeepsInv(ENDED);
    JoinEffect();
    assert SelectNext(ENDED).fibers == ASKING.fibers && SelectNext(ENDED).ready == [];
  }

  lemma LastTurns()
    requires Inv(JOINED)
    ensures Turn(JOINS_ROOT, JOINED, Int(7)) == Again(OVER, Int(7))
    ensures Inv(OVER) && Turn(JOINS_ROOT, OVER, Int(7)) == Return(OVER, Done(Int(7)))
  {
    hide Structure, Ascii, BUILTINS;
    TurnKeepsInv(JOINS_ROOT, JOINED, Int(7));
    assert OVER.fibers[1..] == [] && PendingCalls(OVER.fibers) == [];
  }

  const JOIN_HEADER: LogHeader := LogHeader([], [], None, 1)

  const LOADS_JOINING: Loader := src => Some(JOINING)

  /** The first entry reports 7 although the root's record is gone. */
  lemma JoiningEntry()
    ensures Inv(FRESH) && Outcome(JOINS_ROOT, FRESH) == Some((OVER, Done(Int(7)))) && !Live(OVER.fibers, 0)
  {
    hide Inv, Turn;
    ForkTurn();
    TurnKeepsInv(JOINS_ROOT, FRESH, Undefined);
    EndTurn();
    TurnKeepsInv(JOINS_ROOT, FORKED, Undefined);
    JoinTurn();
    TurnKeepsInv(JOINS_ROOT, ENDED, Int(7));
    LastTurns();
    assert Loop(JOINS_ROOT, OVER, Int(7), 1) == Return(OVER, Done(Int(7)));
    assert Loop(JOINS_ROOT, JOINED, Int(7), 2) == Return(OVER, Done(Int(7)));
    assert Loop(JOINS_ROOT, ENDED, Int(7), 3) == Return(OVER, Done(Int(7)));
    assert Loop(JOINS_ROOT, FORKED, Undefined, 4) == Return(OVER, Done(Int(7)));
    EntryIsLoop(JOINS_ROOT, FRESH, 5);
  }

  lemma JoiningSession()
    ensures GoodLoader(LOADS_JOINING) && Session(LOADS_JOINING, JOIN_HEADER, []).Some?
    ensures var r := Session(LOADS_JOINING, JOIN_HEADER, []).value;
      r.sealed && r.s == OVER && r.outcome == Done(Int(7))
  {
    hide Inv, Outcome, Start, ToHost, OVER;
    JoiningEntry();
    assert Boot(LOADS_JOINING, JOIN_HEADER) == Some(Rec(OVER, Done(Int(7)), Done(Int(7)), [], false));
  }

  lemma ContinuedSession()
    ensures GoodLoader(LOADS_JOINING) && Session(LOADS_JOINING, JOIN_HEADER, [ContinueCall]).Some?
    ensures var r := Session(LOADS_JOINING, JOIN_HEADER, [ContinueCall]).value;
      r.received == Done(Undefined) && r.outcome == Done(Int(7))
  {
    hide Inv, Outcome, Turn, Start, Boot, ToHost, OVER;
    JoiningEntry();
    JoiningSession();
    DoneThenContinue(JOINS_ROOT, FRESH);
    var calls := [ContinueCall];
    assert calls[..0] == [];
    var r0 := Session(LOADS_JOINING, JOIN_HEADER, []).value;
    assert Session(LOADS_JOINING, JOIN_HEADER, calls) == Act(JOINS_ROOT, r0, ContinueCall);
  }

  /** A host that continues such a run once more is told undefined; recovering
      from its log tells it 7. */
  lemma ResultForgotten()
    ensures GoodLoader(LOADS_JOINING) && Session(LOADS_JOINING, JOIN_HEADER, [ContinueCall]).Some?
    ensures var r := Session(LOADS_JOINING, JOIN_HEADER, [ContinueCall]).value;
      && r.received == Done(Undefined)
      && Recover(LOADS_JOINING, JOIN_HEADER, r.log).Some?
      && Recover(LOADS_JOINING, JOIN_HEADER, r.log).value.received == Done(Int(7))
  {
    hide Inv, Session, Replays, Recover, Act, ToHost, OVER;
    ContinuedSession();
    SessionFaithful(LOADS_JOINING, JOIN_HEADER, [ContinueCall]);
    ReplayFidelity(LOADS_JOINING, JOIN_HEADER, [ContinueCall]);
  }

  // ---------- A for loop with an empty head ----------

  /** `for (;;)`: the absent test is evaluated in place of the absent initialiser,
      which is an error. */
  lemma EmptyForFails(ast: L.Ast, ar: L.Arith, c: L.Config, update: ExprId, body: StmtId)
    requires c.Running? && c.control.Stmt? && c.control.s != NONE
    requires ast.GetStmt(c.control.s) == Some(L.For(NONE, NONE, update, body))
    ensures L.Steps(ast, ar, c, 2) == L.Crashed(InternalError(Ascii("Invalid expression ID")))
  {
    var d := L.Step(ast, ar, c);
    assert L.Steps(ast, ar, d, 1) == L.Steps(ast, ar, L.Step(ast, ar, d), 0) == L.Step(ast, ar, d);
  }
}
