/** What each party of the scheduler receives: a joiner, a new fiber and its
    parent, the host, an answered fiber, and a fiber without fuel
    (src/runtime.rs:281-309, 412-438, 519-611, 640-668, 700-1000). */
module Delivery {
  import opened Values
  import opened Fuel
  import opened Boundary
  import opened Fibers
  import opened Placement
  import opened Scheduler
  import opened Runs
  import opened FuelLaws
  import opened Fairness
  import opened Holders

  // ---------- Joiners ----------

  /** The object that tells how a fiber ended: its only property is `ok`, with the
      result, or `err`, with the displayed error. */
  predicate Tells(o: Obj, status: FiberStatus) {
    && o.prototype.None? && o.kind.Ordinary?
    && match status
       case Completed(v) => o.properties == map[Ascii("ok") := v]
       case Failed(e) => o.properties == map[Ascii("err") := String(Display(e))]
       case _ => false
  }

  /** `x` is an object made just now: its slot was free or new. */
  ghost predicate MadeIn(a: Slab<Obj>, b: Slab<Obj>, x: JSValue) {
    && x.Object? && x.obj < |b.data| && (x.obj in a.free || x.obj >= |a.data|)
    && forall i :: 0 <= i < |a.data| && i != x.obj ==> i < |b.data| && b.data[i] == a.data[i]
  }

  /** Joining a fiber that has ended: the joiner goes on with a new object that
      tells how, and the fiber is gone. */
  lemma JoinTells(s: State, args: seq<JSValue>)
    requires Structure(s) && HandleJoin.requires(s, args) && Arg(args, 0).Int?
    requires Live(s.fibers, AsU32(Arg(args, 0).n)) && !Unfinished(FiberOf(s.fibers, AsU32(Arg(args, 0).n)))
    ensures var target, r := AsU32(Arg(args, 0).n), HandleJoin(s, args);
      && r.Resume? && r.s.current == s.current && !Live(r.s.fibers, target)
      && r.s.regs.control.Value? && MadeIn(s.heap.objects, r.s.heap.objects, r.s.regs.control.v)
      && Tells(r.s.heap.objects.data[r.s.regs.control.v.obj], FiberOf(s.fibers, target).status)
      && r.s.regs == s.regs.(control := r.s.regs.control)
  {
    hide RemoveFiber, WellFormed, TableValid, Placed, Live, FiberOf, Ascii;
    var target := AsU32(Arg(args, 0).n);
    match FiberOf(s.fibers, target).status {
      case Completed(v) => JoinConsumes(s, JoinResult(s.heap, true, v), target);
      case Failed(e) => JoinConsumes(s, JoinResult(s.heap, false, String(Display(e))), target);
      case _ =>
    }
  }

  lemma JoinConsumes(s: State, made: (Heap, JSValue), target: FiberId)
    requires Structure(s) && Live(s.fibers, target)
    ensures FiberOf(s.fibers, target).meter < |s.meters| && WellFormed(s.meters)
    ensures var s1 := s.(heap := made.0, regs := s.regs.(control := Value(made.1)));
            var t := RemoveFiber(s1, target);
      !Live(t.fibers, target) && t == s1.(fibers := t.fibers, meters := t.meters)
  {
    hide RemoveFiber, WellFormed, TableValid, Placed, Live, FiberOf;
    var s1 := s.(heap := made.0, regs := s.regs.(control := Value(made.1)));
    RemoveKeepsTable(s1, target);
    assert target !in TableOf(RemoveFiber(s1, target).fibers);
  }

  /** The fiber goes on with an object of its own that tells `status`. */
  ghost predicate Told(t: State, a: Slab<Obj>, w: FiberId, status: FiberStatus) {
    Live(t.fibers, w) &&
    var f := FiberOf(t.fibers, w);
    && f.status.Ready? && f.regs.control.Value? && f.regs.control.v.Object?
    && f.regs.control.v.obj < |t.heap.objects.data| && f.regs.control.v.obj !in FreeSet(t.heap.objects)
    && (f.regs.control.v.obj in FreeSet(a) || f.regs.control.v.obj >= |a.data|)
    && Tells(t.heap.objects.data[f.regs.control.v.obj], status)
  }

  ghost function ToldObject(t: State, a: Slab<Obj>, w: FiberId, status: FiberStatus): ObjId
    requires Told(t, a, w, status)
  {
    FiberOf(t.fibers, w).regs.control.v.obj
  }

  ghost predicate AllTold(t: State, a: Slab<Obj>, joiners: seq<FiberId>, status: FiberStatus) {
    && (forall w :: w in joiners ==> Told(t, a, w, status))
    && (forall v, w :: v in joiners && w in joiners && v != w ==>
          ToldObject(t, a, v, status) != ToldObject(t, a, w, status))
  }

  /** The fiber goes on from where it stood, with another value. */
  ghost predicate WokenWhere(fs: seq<Fiber>, gs: seq<Fiber>, w: FiberId) {
    && Live(fs, w) && Live(gs, w)
    && var f, g := FiberOf(fs, w), FiberOf(gs, w);
       g == f.(status := Ready, regs := f.regs.(control := g.regs.control))
  }

  predicate Fate(status: FiberStatus, ok: bool, v: JSValue) {
    || (ok && status == Completed(v))
    || (!ok && status.Failed? && v == String(Display(status.error)))
  }

  lemma DeliverOneTells(s: State, w: FiberId, status: FiberStatus, ok: bool, v: JSValue)
    requires Clean(s.heap.objects) && Live(s.fibers, w) && Fate(status, ok, v)
    ensures var t := DeliverOne(s, w, ok, v);
      && Told(t, s.heap.objects, w, status) && Grows(s.heap.objects, t.heap.objects)
      && WokenWhere(s.fibers, t.fibers, w)
      && (forall id :: Live(t.fibers, id) <==> Live(s.fibers, id))
      && (forall id :: Live(s.fibers, id) && id != w ==> FiberOf(t.fibers, id) == FiberOf(s.fibers, id))
  {
    hide Live, FiberOf, SetFiber, Ascii;
    var key := if ok then Ascii("ok") else Ascii("err");
    AllocGrows(s.heap.objects, Obj(map[key := v], None, Ordinary));
    var x := JoinResult(s.heap, ok, v).1;
    var f := FiberOf(s.fibers, w);
    SetFiberLive(s.fibers, f.(regs := f.regs.(control := Value(x)), status := Ready));
  }

  lemma ToldLater(s: State, t: State, a: Slab<Obj>, b: Slab<Obj>, w: FiberId, status: FiberStatus)
    requires Told(s, a, w, status) && Grows(s.heap.objects, t.heap.objects) && Grows(b, a)
    requires Live(t.fibers, w) && FiberOf(t.fibers, w) == FiberOf(s.fibers, w)
    ensures Told(t, b, w, status)
    ensures ToldObject(t, b, w, status) == ToldObject(s, a, w, status)
  {
    hide Live, FiberOf, Tells;
  }

  /** Every joiner is handed an object of its own; none of them is handed another's
      or one that was in use. */
  lemma {:induction false} DeliverTells(
      s: State, joiners: seq<FiberId>, status: FiberStatus, ok: bool, v: JSValue)
    requires Clean(s.heap.objects) && Fate(status, ok, v) && Distinct(joiners)
    requires forall w :: w in joiners ==> Live(s.fibers, w)
    ensures var t := Deliver(s, joiners, ok, v);
      && AllTold(t, s.heap.objects, joiners, status) && Grows(s.heap.objects, t.heap.objects)
      && (forall w :: w in joiners ==> WokenWhere(s.fibers, t.fibers, w))
      && (forall id :: Live(t.fibers, id) <==> Live(s.fibers, id))
      && (forall id :: Live(s.fibers, id) && id !in joiners ==> FiberOf(t.fibers, id) == FiberOf(s.fibers, id))
    decreases |joiners|
  {
    hide Live, FiberOf, DeliverOne, Tells;
    if joiners != [] {
      var w, rest := joiners[0], joiners[1..];
      assert joiners == [w] + rest;
      var mid := DeliverOne(s, w, ok, v);
      DeliverOneTells(s, w, status, ok, v);
      DeliverTells(mid, rest, status, ok, v);
      OneMoreTold(s, mid, Deliver(mid, rest, ok, v), w, rest, status);
    }
  }

  lemma OneMoreTold(s: State, mid: State, t: State, w: FiberId, rest: seq<FiberId>, status: FiberStatus)
    requires Clean(s.heap.objects) && Told(mid, s.heap.objects, w, status) && w !in rest
    requires Grows(s.heap.objects, mid.heap.objects) && Grows(mid.heap.objects, t.heap.objects)
    requires AllTold(t, mid.heap.objects, rest, status)
    requires Live(t.fibers, w) && FiberOf(t.fibers, w) == FiberOf(mid.fibers, w)
    ensures AllTold(t, s.heap.objects, [w] + rest, status) && Grows(s.heap.objects, t.heap.objects)
  {
    hide Live, FiberOf, Tells, Grows, Clean;
    GrowsTwice(s.heap.objects, mid.heap.objects, t.heap.objects);
    GrowsItself(s.heap.objects);
    GrowsItself(t.heap.objects);
    ToldLater(mid, t, s.heap.objects, s.heap.objects, w, status);
    forall u | u in rest
      ensures Told(t, s.heap.objects, u, status)
      ensures ToldObject(t, s.heap.objects, u, status) != ToldObject(t, s.heap.objects, w, status)
    {
      ToldLater(t, t, mid.heap.objects, s.heap.objects, u, status);
      Apart(mid, t, s.heap.objects, w, u, status);
    }
  }

  lemma GrowsTwice(a: Slab<Obj>, b: Slab<Obj>, c: Slab<Obj>)
    requires Grows(a, b) && Grows(b, c)
    ensures Grows(a, c) && Clean(c)
  {
  }

  lemma GrowsItself(a: Slab<Obj>)
    requires Clean(a)
    ensures Grows(a, a)
  {
  }

  lemma Apart(mid: State, t: State, a: Slab<Obj>, w: FiberId, u: FiberId, status: FiberStatus)
    requires Told(mid, a, w, status) && Told(t, mid.heap.objects, u, status)
    ensures ToldObject(t, mid.heap.objects, u, status) != ToldObject(mid, a, w, status)
  {
  }

  // ---------- A fiber that ends ----------

  /** The current fiber of `s` has ended so: its joiners are told and it is gone, or
      its record says so until somebody joins it. */
  ghost predicate Ended(s: State, t: State, status: FiberStatus)
    requires HasCurrent(s)
  {
    var c := s.current.value;
    && t.current.None?
    && (if c in s.waiters
        then
          && AllTold(t, s.heap.objects, s.waiters[c], status) && !Live(t.fibers, c) && c !in t.waiters
          && (forall w :: w in s.waiters[c] ==> WokenWhere(s.fibers, t.fibers, w))
        else Live(t.fibers, c) && FiberOf(t.fibers, c) == Current(s).(status := status) && t.meters == s.meters)
    && forall id :: Live(s.fibers, id) && id != c && (c in s.waiters ==> id !in s.waiters[c]) ==>
         Live(t.fibers, id) && FiberOf(t.fibers, id) == FiberOf(s.fibers, id)
  }

  lemma FinishTells(s: State, status: FiberStatus, ok: bool, v: JSValue)
    requires Structure(s) && s.current.Some? && Fate(status, ok, v) && Clean(s.heap.objects)
    requires Finish.requires(s, status, ok, v)
    ensures Ended(s, Finish(s, status, ok, v).(current := None), status)
  {
    hide Structure, RemoveFiber, Deliver, SetFiber, FiberOf, Live, Told, WellFormed, Ascii;
    var c := s.current.value;
    var ended := Current(s).(status := status);
    SetFiberLive(s.fibers, ended);
    if c in s.waiters {
      var s1 := s.(fibers := SetFiber(s.fibers, ended), waiters := s.waiters - {c});
      WaitersOf(s);
      DeliverTells(s1, s.waiters[c], status, ok, v);
      DeliverKeeps(s1, s.waiters[c], ok, v);
      FinishJoinedTells(s, s1, Deliver(s1, s.waiters[c], ok, v), status);
    }
  }

  lemma WaitersOf(s: State)
    requires Structure(s) && s.current.Some? && s.current.value in s.waiters
    ensures Distinct(s.waiters[s.current.value]) && s.current.value !in s.waiters[s.current.value]
  {
    var c := s.current.value;
    assert Waits(s.waiters, c, c) <==> c in s.waiters[c];
  }

  lemma FinishJoinedTells(s: State, s1: State, s2: State, status: FiberStatus)
    requires Structure(s) && s.current.Some? && (status.Completed? || status.Failed?)
    requires HasCurrent(s) && s.current.value in s.waiters
    requires s1 == s.(fibers := SetFiber(s.fibers, Current(s).(status := status)),
                      waiters := s.waiters - {s.current.value})
    requires Delivered(s1, s2, s.waiters[s.current.value])
    requires AllTold(s2, s.heap.objects, s.waiters[s.current.value], status)
    requires forall w :: w in s.waiters[s.current.value] ==> WokenWhere(s1.fibers, s2.fibers, w)
    requires forall id :: Live(s1.fibers, id) <==> Live(s.fibers, id)
    requires forall id :: Live(s.fibers, id) && id != s.current.value ==>
               FiberOf(s1.fibers, id) == FiberOf(s.fibers, id)
    ensures Live(s2.fibers, s.current.value)
    ensures FiberOf(s2.fibers, s.current.value).meter < |s2.meters| && WellFormed(s2.meters)
    ensures Ended(s, RemoveFiber(s2, s.current.value).(current := None), status)
  {
    hide WellFormed, TableValid, Placed, SetFiber, IndexOf, RemoveFiber, SameIds, FiberOf, Live, Woken, AllTold;
    var c := s.current.value;
    SetCurrentStructure(s, Current(s).(status := status));
    TableValidBySameIds(s1.fibers, s2.fibers, s.nextId, s.meters);
    WaitersOf(s);
    WokenLive(s1.fibers, s2.fibers, s.waiters[c]);
    RemoveKeepsTable(s2, c);
    RemoveKeepsRest(s2, c);
    var t := RemoveFiber(s2, c).(current := None);
    AllToldSame(s2, t, s.heap.objects, s.waiters[c], status);
  }

  lemma WokenLive(fs: seq<Fiber>, gs: seq<Fiber>, woken: seq<FiberId>)
    requires Woken(fs, gs, woken)
    ensures forall id :: Live(gs, id) <==> Live(fs, id)
    ensures forall id :: Live(fs, id) && id !in woken ==> FiberOf(gs, id) == FiberOf(fs, id)
  {
    hide Live, FiberOf;
  }

  lemma AllToldSame(s: State, t: State, a: Slab<Obj>, joiners: seq<FiberId>, status: FiberStatus)
    requires AllTold(s, a, joiners, status) && t.heap == s.heap
    requires forall w :: w in joiners && Live(s.fibers, w) ==>
               Live(t.fibers, w) && FiberOf(t.fibers, w) == FiberOf(s.fibers, w)
    ensures AllTold(t, a, joiners, status)
  {
    hide Live, FiberOf, Tells;
    forall w | w in joiners
      ensures Told(t, a, w, status) && ToldObject(t, a, w, status) == ToldObject(s, a, w, status)
    {
      assert Told(s, a, w, status);
    }
  }

  /** How the fiber a turn runs ends, if its slice ends it: with its value, or with
      its fault unless it is the root, or for want of fuel unless it runs on the
      root's meter. */
  ghost function Ending(m: Machine, s: State): Option<FiberStatus>
    requires Inv(s)
  {
    if s.current.None? then None
    else
      JoinersLive(s);
      if s.meters[Current(s).meter].remaining == Some(0) then
        if Current(s).meter == ROOT then None else Some(Failed(Message(Ascii("out_of_fuel"))))
      else
        match RunSlice(m, s.heap, s.regs, Allowance(s)).end
        case Finished(v) => Some(Completed(v))
        case Crashed(e) => if s.current == Some(0) then None else Some(Failed(e))
        case _ => None
  }

  /** The state in which a slice leaves the running fiber, before it is ended. */
  ghost function SliceLeaves(m: Machine, s: State): State
    requires Inv(s) && s.current.Some?
  {
    JoinersLive(s);
    if s.meters[Current(s).meter].remaining == Some(0) then s
    else Charge(s, RunSlice(m, s.heap, s.regs, Allowance(s)))
  }

  lemma CurrentTurnTells(m: Machine, s: State, main: JSValue)
    requires Inv(s) && s.current.Some? && Ending(m, s).Some? && Clean(SliceLeaves(m, s).heap.objects)
    ensures HasCurrent(SliceLeaves(m, s)) && CurrentTurn(m, s, main).Again?
    ensures Ended(SliceLeaves(m, s), CurrentTurn(m, s, main).s, Ending(m, s).value)
  {
    hide Structure, RunSlice, Finish, Ended, Live, FiberOf, WellFormed, Clean, Ascii;
    JoinersLive(s);
    if s.meters[Current(s).meter].remaining == Some(0) {
      var e := Message(Ascii("out_of_fuel"));
      FinishTells(s, Failed(e), false, String(Display(e)));
    } else {
      var sl := RunSlice(m, s.heap, s.regs, Allowance(s));
      var s1 := Charge(s, sl);
      ChargeKeepsStructure(m, s);
      JoinersLive(s1);
      match sl.end {
        case Finished(v) => FinishTells(s1, Completed(v), true, v);
        case Crashed(e) => FinishTells(s1, Failed(e), false, String(Display(e)));
        case _ =>
      }
    }
  }

  /** A turn whose slice ends its fiber tells exactly the joiners of that fiber, or
      records how it ended. */
  lemma TurnTells(m: Machine, s: State, main: JSValue)
    requires Inv(s) && Ending(m, Selected(s)).Some?
    requires Clean(SliceLeaves(m, Selected(s)).heap.objects)
    ensures HasCurrent(SliceLeaves(m, Selected(s)))
    ensures Turn(m, s, main).Again?
    ensures Ended(SliceLeaves(m, Selected(s)), Turn(m, s, main).s, Ending(m, Selected(s)).value)
  {
    hide Structure, CurrentTurn, SliceLeaves, Ended, RunSlice, WellFormed, Live, FiberOf;
    CurrentTurnTells(m, Selected(s), main);
  }

  // ---------- A new fiber and its parent ----------

  /** The function a fork runs, if its argument is one. */
  function ForkedCode(s: State, args: seq<JSValue>): Option<FunctionData> {
    if |args| > 0 && args[0].Function? && args[0].obj < |s.heap.objects.data|
       && s.heap.objects.data[args[0].obj].kind.Closure?
    then Some(s.heap.objects.data[args[0].obj].kind.data) else None
  }

  /** The fuel that the second argument asks for, if it asks for some; Err if it is
      no options object or asks for no amount. */
  function AskedFuel(s: State, args: seq<JSValue>): Result<Option<u64>, ()> {
    if |args| < 2 || args[1].Undefined? then Ok(None)
    else if !args[1].Object? || args[1].obj >= |s.heap.objects.data| then Err(())
    else
      var props := s.heap.objects.data[args[1].obj].properties;
      if Ascii("fuel") !in props || props[Ascii("fuel")].Undefined? then Ok(None)
      else if props[Ascii("fuel")].Int? && props[Ascii("fuel")].n >= 0 then Ok(Some(props[Ascii("fuel")].n))
      else Err(())
  }

  /** The parent's meter has the amount to spare. */
  predicate Affords(m: Meter, asked: Option<u64>) {
    asked.Some? && m.remaining.Some? ==> asked.value <= m.remaining.value
  }

  lemma ForkSucceeds(s: State, args: seq<JSValue>)
    requires HandleFork.requires(s, args)
    ensures HandleFork(s, args).Spawned? <==>
      && ForkedCode(s, args).Some? && AskedFuel(s, args).Ok?
      && Affords(s.meters[Current(s).meter], AskedFuel(s, args).value)
  {
    hide Alloc, HasCurrent, Current, Ascii;
  }

  /** A fork succeeds exactly when it is given code, well-formed options and an
      amount its meter can spare. The new fiber then has the code's captured
      environment, a continuation of its own, the expression body if there is one
      and else the statement body, and waits last in the queue; nobody else's
      record changes. */
  lemma ForkStarts(s: State, args: seq<JSValue>)
    requires HandleFork.requires(s, args) && HandleFork(s, args).Spawned? && !Live(s.fibers, s.nextId)
    ensures ForkedCode(s, args).Some? && AskedFuel(s, args).Ok?
    ensures var t, data := HandleFork(s, args).s, ForkedCode(s, args).value;
      && HandleFork(s, args).id == s.nextId && t.nextId == s.nextId + 1 && t.ready == s.ready + [s.nextId]
      && |t.fibers| == |s.fibers| + 1 && t.fibers[..|s.fibers|] == s.fibers
      && var f := t.fibers[|s.fibers|];
         && f.id == s.nextId && f.status.Ready? && f.regs.env == data.env
         && f.regs.control == (match data.exprBody case Some(e) => Expr(e) case None => Stmt(data.body))
         && f.regs.cont < |t.heap.conts.data| && t.heap.conts.data[f.regs.cont].Halt?
         && (f.regs.cont in s.heap.conts.free || f.regs.cont >= |s.heap.conts.data|)
         && (f.meter == if AskedFuel(s, args).value.None? then Current(s).meter else |s.meters|)
         && t.heap.objects == s.heap.objects && t.heap.envs == s.heap.envs && t.regs == s.regs
  {
    hide Carved, HasCurrent, Current, Ascii;
    ForkSucceeds(s, args);
  }

  /** The number a fork returns is the one by which a join finds the fiber, as long
      as the ids fit in 32 bits. */
  lemma ForkedIsJoinable(id: FiberId)
    ensures AsU32(AsI32(id)) == id % 0x1_0000_0000
    ensures id < 0x8000_0000 ==> AsI32(id) == id
  {
  }

  /** Waiting for a fiber that has not ended: the joiner is saved as it stands and
      comes last among those who wait for the same fiber. */
  lemma JoinWaits(s: State, args: seq<JSValue>)
    requires HandleJoin.requires(s, args) && Arg(args, 0).Int?
    requires Live(s.fibers, AsU32(Arg(args, 0).n)) && Unfinished(FiberOf(s.fibers, AsU32(Arg(args, 0).n)))
    ensures var target, r, c := AsU32(Arg(args, 0).n), HandleJoin(s, args), s.current.value;
      && r.Block? && r.s == s.(waiters := r.s.waiters, fibers := r.s.fibers)
      && target in r.s.waiters
      && r.s.waiters[target] == (if target in s.waiters then s.waiters[target] else []) + [c]
      && (forall other :: other != target ==>
            && (other in r.s.waiters <==> other in s.waiters)
            && (other in s.waiters ==> r.s.waiters[other] == s.waiters[other]))
      && OnlyChanges(s.fibers, r.s.fibers, FiberOf(s.fibers, c).(regs := s.regs, status := Ready))
  {
    hide Live, FiberOf, SetFiber, WellFormed;
    SetFiberLive(s.fibers, Current(s).(regs := s.regs, status := Ready));
  }

  // ---------- The host ----------

  /** What the host receives: every argument's unfolding, in order, if all of them
      can cross; otherwise nothing. */
  lemma {:induction false} HostArgsAre(objs: seq<Obj>, args: seq<JSValue>)
    ensures HostArgs(objs, args).Some? <==> forall i :: 0 <= i < |args| ==> Crosses(objs, args[i], {})
    ensures HostArgs(objs, args).Some? ==>
      && |HostArgs(objs, args).value| == |args|
      && forall i :: 0 <= i < |args| ==> Unfolds(objs, args[i], HostArgs(objs, args).value[i], {})
  {
    if args != [] {
      HostArgsAre(objs, args[..|args| - 1]);
      assert forall i :: 0 <= i < |args| - 1 ==> args[i] == args[..|args| - 1][i];
    }
  }

  /** A call to the host blocks the caller, saved as it stands, on exactly that call;
      it fails, and blocks nobody, exactly when an argument cannot cross. */
  lemma HostBlocks(s: State, effect: Str, args: seq<JSValue>)
    requires HandleHost.requires(s, effect, args)
    ensures var r := HandleHost(s, effect, args);
      && (r.Block? <==> forall i :: 0 <= i < |args| ==> Crosses(s.heap.objects.data, args[i], {}))
      && (r.Block? ==>
            && r.s == s.(fibers := r.s.fibers)
            && Live(r.s.fibers, s.current.value)
            && var status := FiberOf(r.s.fibers, s.current.value).status;
               && status.BlockedOnHost? && status.effect == effect && |status.args| == |args|
               && (forall i :: 0 <= i < |args| ==> Unfolds(s.heap.objects.data, args[i], status.args[i], {}))
               && OnlyChanges(s.fibers, r.s.fibers,
                              FiberOf(s.fibers, s.current.value).(regs := s.regs, status := status)))
      && (!r.Block? ==> r.Error? && r.s == s)
  {
    hide Live, FiberOf, SetFiber, Crosses, Unfolds, HostArgs;
    HostArgsAre(s.heap.objects.data, args);
    var hostArgs := HostArgs(s.heap.objects.data, args);
    if hostArgs.Some? {
      SetFiberLive(s.fibers, Current(s).(regs := s.regs, status := BlockedOnHost(effect, hostArgs.value)));
    }
  }

  /** The calls are those of the fibers at `from`, which are the blocked ones in
      table order. */
  ghost predicate Shows(fs: seq<Fiber>, calls: seq<PendingCall>, from: seq<nat>) {
    && |from| == |calls| && (forall k :: 0 <= k < |from| ==> from[k] < |fs|)
    && (forall j, k :: 0 <= j < k < |from| ==> from[j] < from[k])
    && (forall i: nat :: i < |fs| ==> (fs[i].status.BlockedOnHost? <==> i in from))
    && forall k :: 0 <= k < |from| ==>
         calls[k].id == fs[from[k]].id && fs[from[k]].status == BlockedOnHost(calls[k].effect, calls[k].args)
  }

  lemma ShowsNext(fs: seq<Fiber>, calls: seq<PendingCall>, from: seq<nat>, f: Fiber)
    requires Shows(fs, calls, from)
    ensures !f.status.BlockedOnHost? ==> Shows(fs + [f], calls, from)
    ensures f.status.BlockedOnHost? ==>
              Shows(fs + [f], calls + [PendingCall(f.id, f.status.effect, f.status.args)], from + [|fs|])
  {
  }

  lemma {:induction false} PendingCallsNext(fs: seq<Fiber>, f: Fiber)
    ensures PendingCalls(fs + [f]) == PendingCalls(fs) + PendingCalls([f])
  {
    if fs == [] {
      assert fs + [f] == [f];
    } else {
      assert (fs + [f])[1..] == fs[1..] + [f];
      PendingCallsNext(fs[1..], f);
    }
  }

  /** The host is shown every blocked fiber once, in table order, with the call it is
      blocked on, and no other. */
  lemma {:induction false} PendingCallsAre(fs: seq<Fiber>) returns (from: seq<nat>)
    ensures Shows(fs, PendingCalls(fs), from)
  {
    hide Shows;
    if fs == [] {
      from := [];
      NothingShows();
    } else {
      var front, f := fs[..|fs| - 1], fs[|fs| - 1];
      assert front + [f] == fs;
      from := PendingCallsAre(front);
      PendingCallsNext(front, f);
      ShowsNext(front, PendingCalls(front), from, f);
      assert [f][1..] == [];
      if f.status.BlockedOnHost? {
        from := from + [|front|];
        assert PendingCalls([f]) == [PendingCall(f.id, f.status.effect, f.status.args)];
      } else {
        assert PendingCalls(front) + PendingCalls([f]) == PendingCalls(front);
      }
    }
  }

  lemma NothingShows()
    ensures Shows([], [], [])
  {
  }

  /** An answer wakes the fiber where it stood with the value that materialises it,
      last in the queue; read back, that value is the answer exactly when the answer
      is one a program could have sent. */
  lemma AnswerDelivers(s: State, id: FiberId, answer: HostValue)
    requires Live(s.fibers, id) && Clean(s.heap.objects)
    ensures var t := ApplyAnswer(s, id, answer);
      && WokenWhere(s.fibers, t.fibers, id) && t.ready == s.ready + [id]
      && t == s.(heap := t.heap, fibers := t.fibers, ready := t.ready)
      && t.heap == s.heap.(objects := t.heap.objects)
      && OnlyChanges(s.fibers, t.fibers, FiberOf(t.fibers, id))
      && var c := FiberOf(t.fibers, id).regs.control;
         c.Value? && (ToHost(t.heap.objects.data, c.v) == Some(answer) <==> Canonical(answer))
  {
    hide Live, FiberOf, SetFiber, FromHost, ToHost, Canonical, Clean;
    HostRoundTrip(s.heap.objects, answer);
    var v := FromHost(s.heap.objects, answer).1;
    var f := FiberOf(s.fibers, id);
    SetFiberLive(s.fibers, f.(regs := f.regs.(control := Value(v)), status := Ready));
  }

  // ---------- Which effect is which ----------

  /** An effect first lets a collection happen, exactly when more than a thousand
      slots were allocated since the last one. */
  function HeapAtEffect(m: Machine, s: State): Heap {
    if TotalAllocations(s.heap) > s.allocMark + 1000 then m.collect(s.heap, s.regs, s.fibers) else s.heap
  }

  /** Printing and collecting go on with undefined; a collection leaves what the
      collector makes of the heap, and counts from there; an effect that is neither
      built in nor granted fails. None of them touches fibers, queue or fuel. */
  lemma EffectMeans(m: Machine, s: State, effect: Str, args: seq<JSValue>)
    requires HandleEffect.requires(m, s, effect, args)
    ensures var r, h := HandleEffect(m, s, effect, args), HeapAtEffect(m, s);
      && (effect !in s.effects ==>
            r.Error? && r.error == Message(Ascii("effect is not handled and not granted"))
            && r.s == s.(heap := h, allocMark := r.s.allocMark))
      && (effect in s.effects && s.effects[effect] == Builtin(Print) ==>
            r.Resume? && r.s == s.(heap := h, allocMark := r.s.allocMark, regs := s.regs.(control := Value(Undefined))))
      && (effect in s.effects && s.effects[effect] == Builtin(Gc) ==>
            r.Resume? && r.s.heap == m.collect(h, s.regs, s.fibers)
            && r.s == s.(heap := r.s.heap, allocMark := TotalAllocations(r.s.heap),
                         regs := s.regs.(control := Value(Undefined))))
  {
    hide Ascii, HandleFork, HandleJoin, HandleHost, HandleSnapshot, WellFormed, Live, FiberOf;
  }

  /** A snapshot that can be written goes on with "saved"; what it wrote would go on
      with "restored". */
  lemma SnapshotMeans(m: Machine, s: State, args: seq<JSValue>)
    requires HandleSnapshot.requires(m, s, args)
    ensures var r := HandleSnapshot(m, s, args);
      if |args| == 0 || !args[0].String? then r.Error? && r.s == s
      else
        && (r.Resume? <==> m.disk(args[0].s, s.steps)) && (r.Resume? || r.Error?)
        && (r.Resume? ==> r.s.regs == s.regs.(control := Value(String(Ascii("saved")))))
        && r.s == s.(fibers := r.s.fibers, regs := r.s.regs)
        && OnlyChanges(s.fibers, r.s.fibers,
             Current(s).(regs := s.regs.(control := Value(String(Ascii("restored")))), status := Ready))
  {
    hide Ascii, SetFiber, Live, FiberOf;
    SetFiberLive(s.fibers,
      Current(s).(regs := s.regs.(control := Value(String(Ascii("restored")))), status := Ready));
  }

  /** Granting a name makes it the host's, built in or not; the five others stay
      what they are, and no further name means anything. */
  lemma GrantOverrides(grants: seq<Str>, name: Str)
    ensures name in grants ==> name in Effects(grants) && Effects(grants)[name] == Host
    ensures name !in grants ==>
      (name in Effects(grants) <==>
         name in [Ascii("Print"), Ascii("Fork"), Ascii("Join"), Ascii("Gc"), Ascii("Snapshot")])
    ensures name !in grants && name in Effects(grants) ==>
      match Effects(grants)[name]
      case Builtin(Print) => name == Ascii("Print")
      case Builtin(Fork) => name == Ascii("Fork")
      case Builtin(Join) => name == Ascii("Join")
      case Builtin(Gc) => name == Ascii("Gc")
      case Builtin(Snapshot) => name == Ascii("Snapshot")
      case Host => false
  {
  }
}
