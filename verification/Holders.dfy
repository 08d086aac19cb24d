/** Who pays: what consuming a fiber does to its meter (src/runtime.rs:670-686,
    src/fuel.rs:60-110), and over runs, that a meter in use falls only by what
    its holders run and by what is carved from it. */
module Holders {
  import opened Values
  import opened Fuel
  import opened Boundary
  import opened Fibers
  import opened Placement
  import opened Scheduler
  import opened Runs
  import opened FuelLaws

  /** A fiber other than `gone` is charged to this meter. */
  ghost predicate HeldElsewhere(fs: seq<Fiber>, gone: FiberId, x: MeterId) {
    exists id :: id != gone && Live(fs, id) && FiberOf(fs, id).meter == x
  }

  ghost predicate Held(fs: seq<Fiber>, x: MeterId) {
    exists id :: Live(fs, id) && FiberOf(fs, id).meter == x
  }

  /** What is left of a finite meter once an amount is returned to it. */
  function Topped(remaining: Option<u64>, amount: nat): Option<u64> {
    if remaining.None? then None
    else if remaining.value + amount > U64_MAX then Some(U64_MAX)
    else Some(remaining.value + amount)
  }

  /** The meters once `gone` is consumed. A meter somebody else holds is left
      alone, and so is the root's; otherwise it ends empty, the meter it was carved
      from gets what was left, and no other changes. */
  ghost predicate Settled(fs: seq<Fiber>, ms: seq<Meter>, ms': seq<Meter>, gone: FiberId) {
    Live(fs, gone) && FiberOf(fs, gone).meter < |ms| &&
    var x := FiberOf(fs, gone).meter;
    if HeldElsewhere(fs, gone, x) || ms[x].parent.None? then ms' == ms
    else
      var p := ms[x].parent.value;
      && p < x && |ms'| == |ms|
      && ms'[x] == Meter(Some(0), Some(p))
      && ms'[p] == Meter(Topped(ms[p].remaining, Left(ms[x])), ms[p].parent)
      && forall y :: 0 <= y < |ms| && y != x && y != p ==> ms'[y] == ms[y]
  }

  /** One new meter, carved for the current fiber out of its own. */
  ghost predicate CarvedFor(ms: seq<Meter>, ms': seq<Meter>, from: MeterId) {
    from < |ms| && |ms'| == |ms| + 1 &&
    var child := ms'[|ms|];
    && child.parent == Some(from) && child.remaining.Some?
    && (forall y :: 0 <= y < |ms| && y != from ==> ms'[y] == ms[y])
    && ms'[from].parent == ms[from].parent
    && match ms[from].remaining
       case None => ms'[from].remaining.None?
       case Some(r) => child.remaining.value <= r && ms'[from].remaining == Some(r - child.remaining.value)
  }

  /** Nobody changes meter; a newcomer holds the current fiber's or a new one. The
      meters stay, or one is carved, or a fiber is consumed and settled. */
  ghost predicate Settles(s: State, t: State)
    requires HasCurrent(s)
  {
    && (forall id :: Live(t.fibers, id) ==>
          if Live(s.fibers, id) then FiberOf(t.fibers, id).meter == FiberOf(s.fibers, id).meter
          else
            && Live(t.fibers, s.current.value)
            && (FiberOf(t.fibers, id).meter == Current(s).meter || FiberOf(t.fibers, id).meter == |s.meters|))
    && (|| t.meters == s.meters
        || CarvedFor(s.meters, t.meters, Current(s).meter)
        || exists gone :: !Live(t.fibers, gone) && Settled(s.fibers, s.meters, t.meters, gone))
  }

  /** A carve succeeds exactly when the meter is unlimited or has that much. */
  lemma CarveExact(ms: seq<Meter>, from: MeterId, amount: u64)
    requires from < |ms|
    ensures Carved(ms, from, amount).Some? <==> (ms[from].remaining.Some? ==> amount <= ms[from].remaining.value)
    ensures Carved(ms, from, amount).Some? ==>
              CarvedFor(ms, Carved(ms, from, amount).value, from)
              && Carved(ms, from, amount).value[|ms|] == Meter(Some(amount), Some(from))
  {
  }

  // ---------- Same fibers, same meters ----------

  ghost predicate SameHolders(fs: seq<Fiber>, gs: seq<Fiber>) {
    && (forall id :: Live(gs, id) <==> Live(fs, id))
    && (forall id :: Live(fs, id) ==> FiberOf(gs, id).meter == FiberOf(fs, id).meter)
  }

  lemma SetSameHolders(fs: seq<Fiber>, f: Fiber)
    requires Live(fs, f.id) && f.meter == FiberOf(fs, f.id).meter
    ensures SameHolders(fs, SetFiber(fs, f))
  {
    hide IndexOf, SetFiber;
    SetFiberLive(fs, f);
  }

  lemma SettlesAfter(s: State, mid: State, t: State)
    requires HasCurrent(s) && mid.current == s.current && mid.meters == s.meters
    requires SameHolders(s.fibers, mid.fibers)
    ensures HasCurrent(mid) && (Settles(mid, t) ==> Settles(s, t))
  {
    hide Live, FiberOf, CarvedFor, HeldElsewhere;
    assert Live(mid.fibers, s.current.value);
    if Settles(mid, t) && t.meters != s.meters && !CarvedFor(mid.meters, t.meters, Current(mid).meter) {
      var gone :| !Live(t.fibers, gone) && Settled(mid.fibers, mid.meters, t.meters, gone);
      SettledForSame(s.fibers, mid.fibers, s.meters, t.meters, gone);
    }
  }

  lemma SettledForSame(fs: seq<Fiber>, gs: seq<Fiber>, ms: seq<Meter>, ms': seq<Meter>, gone: FiberId)
    requires SameHolders(fs, gs) && Settled(gs, ms, ms', gone)
    ensures Settled(fs, ms, ms', gone)
  {
    hide Live, FiberOf;
    var x := FiberOf(gs, gone).meter;
    if HeldElsewhere(gs, gone, x) {
      var id :| id != gone && Live(gs, id) && FiberOf(gs, id).meter == x;
      assert Live(fs, id);
    }
    if HeldElsewhere(fs, gone, x) {
      var id :| id != gone && Live(fs, id) && FiberOf(fs, id).meter == x;
      assert Live(gs, id);
    }
  }

  lemma NothingSettles(s: State, t: State)
    requires HasCurrent(s) && t.meters == s.meters && SameHolders(s.fibers, t.fibers)
    ensures Settles(s, t)
  {
    hide Live, FiberOf;
  }

  // ---------- Consuming a fiber ----------

  lemma Sharing(fs: seq<Fiber>, gone: FiberId, x: MeterId)
    requires Unique(fs)
    ensures HeldElsewhere(fs, gone, x) <==> exists i :: 0 <= i < |fs| && fs[i].id != gone && fs[i].meter == x
  {
    hide FiberOf, Live;
    forall i | 0 <= i < |fs| ensures Live(fs, fs[i].id) && FiberOf(fs, fs[i].id) == fs[i] { IndexIsUnique(fs, i); }
    forall id | Live(fs, id) ensures exists i :: 0 <= i < |fs| && fs[i] == FiberOf(fs, id) { LiveIsThere(fs, id); }
  }

  lemma LiveIsThere(fs: seq<Fiber>, id: FiberId)
    requires Live(fs, id)
    ensures exists i :: 0 <= i < |fs| && fs[i] == FiberOf(fs, id)
  {
    var i := IndexOf(fs, id);
    assert fs[i] == FiberOf(fs, id);
  }

  /** Dropping a fiber from the table settles its meter. */
  lemma RemoveSettles(s: State, gone: FiberId)
    requires WellFormed(s.meters) && TableValid(s.fibers, s.nextId, s.meters) && Live(s.fibers, gone)
    ensures FiberOf(s.fibers, gone).meter < |s.meters|
    ensures Settled(s.fibers, s.meters, RemoveFiber(s, gone).meters, gone)
    ensures forall id :: Live(RemoveFiber(s, gone).fibers, id) <==> Live(s.fibers, id) && id != gone
    ensures forall id :: Live(s.fibers, id) && id != gone ==>
              FiberOf(RemoveFiber(s, gone).fibers, id) == FiberOf(s.fibers, id)
  {
    RemoveKeepsRest(s, gone);
    hide HeldElsewhere, SwapRemove;
    var x := FiberOf(s.fibers, gone).meter;
    Sharing(s.fibers, gone, x);
  }

  lemma RemoveKeepsRest(s: State, gone: FiberId)
    requires WellFormed(s.meters) && TableValid(s.fibers, s.nextId, s.meters) && Live(s.fibers, gone)
    ensures FiberOf(s.fibers, gone).meter < |s.meters|
    ensures forall id :: Live(RemoveFiber(s, gone).fibers, id) <==> Live(s.fibers, id) && id != gone
    ensures forall id :: Live(s.fibers, id) && id != gone ==>
              FiberOf(RemoveFiber(s, gone).fibers, id) == FiberOf(s.fibers, id)
  {
    hide RemoveFiber, WellFormed, TableValid, Live, FiberOf;
    RemoveKeepsTable(s, gone);
    var t := RemoveFiber(s, gone);
    forall id ensures Live(t.fibers, id) <==> Live(s.fibers, id) && id != gone {
      assert id in TableOf(t.fibers) <==> id in TableOf(s.fibers) - {gone};
    }
    forall id | Live(s.fibers, id) && id != gone ensures FiberOf(t.fibers, id) == FiberOf(s.fibers, id) {
      assert id in TableOf(t.fibers) && TableOf(t.fibers)[id] == TableOf(s.fibers)[id];
    }
  }

  lemma ConsumedSettles(s: State, gone: FiberId)
    requires HasCurrent(s) && WellFormed(s.meters) && TableValid(s.fibers, s.nextId, s.meters) && Live(s.fibers, gone)
    ensures FiberOf(s.fibers, gone).meter < |s.meters| && Settles(s, RemoveFiber(s, gone))
  {
    hide RemoveFiber, WellFormed, TableValid, Live, FiberOf, Settled;
    RemoveSettles(s, gone);
    assert !Live(RemoveFiber(s, gone).fibers, gone);
  }

  // ---------- Every operation ----------

  lemma FinishSettles(s: State, status: FiberStatus, ok: bool, v: JSValue)
    requires Structure(s) && s.current.Some? && (status.Completed? || status.Failed?)
    requires HasCurrent(s) && Current(s).meter < |s.meters|
    requires s.current.value in s.waiters ==>
               forall w :: w in s.waiters[s.current.value] ==> Live(s.fibers, w)
    ensures Settles(s, Finish(s, status, ok, v))
  {
    hide Structure, Delivered, RemoveFiber, Deliver, SetFiber, IndexOf, FiberOf, Settles, SameHolders, WellFormed;
    JoinersLive(s);
    var c := s.current.value;
    var ended := Current(s).(status := status);
    SetSameHolders(s.fibers, ended);
    SetFiberLive(s.fibers, ended);
    if c in s.waiters {
      var s1 := s.(fibers := SetFiber(s.fibers, ended), waiters := s.waiters - {c});
      DeliverKeeps(s1, s.waiters[c], ok, v);
      FinishJoinedSettles(s, s1, Deliver(s1, s.waiters[c], ok, v), status);
    } else {
      NothingSettles(s, Finish(s, status, ok, v));
    }
  }

  lemma FinishJoinedSettles(s: State, s1: State, s2: State, status: FiberStatus)
    requires Structure(s) && s.current.Some? && (status.Completed? || status.Failed?)
    requires HasCurrent(s) && s.current.value in s.waiters
    requires s1 == s.(fibers := SetFiber(s.fibers, Current(s).(status := status)),
                      waiters := s.waiters - {s.current.value})
    requires Delivered(s1, s2, s.waiters[s.current.value])
    requires SameHolders(s.fibers, s1.fibers)
    ensures Live(s2.fibers, s.current.value)
    ensures FiberOf(s2.fibers, s.current.value).meter < |s2.meters| && WellFormed(s2.meters)
    ensures Settles(s, RemoveFiber(s2, s.current.value))
  {
    hide WellFormed, TableValid, Placed, SetFiber, IndexOf, RemoveFiber, Woken, FiberOf, Live, Settles, SameHolders;
    var c := s.current.value;
    SetCurrentStructure(s, Current(s).(status := status));
    TableValidBySameIds(s1.fibers, s2.fibers, s.nextId, s.meters);
    WokenSameHolders(s.fibers, s1.fibers, s2.fibers, s.waiters[c]);
    SettlesAfter(s, s2, s2);
    ConsumedSettles(s2, c);
    SettlesAfter(s, s2, RemoveFiber(s2, c));
  }

  lemma WokenSameHolders(fs: seq<Fiber>, mid: seq<Fiber>, gs: seq<Fiber>, woken: seq<FiberId>)
    requires SameHolders(fs, mid) && Woken(mid, gs, woken)
    ensures SameHolders(fs, gs)
  {
    hide Live, FiberOf;
  }

  lemma SpawnSettles(s: State, t: State, regs: Regs, meter: MeterId)
    requires Structure(s) && HasCurrent(s)
    requires t == Spawn(s.(heap := t.heap, meters := t.meters), regs, meter)
    requires meter == Current(s).meter || meter == |s.meters|
    requires t.meters == s.meters || CarvedFor(s.meters, t.meters, Current(s).meter)
    ensures Settles(s, t)
  {
    hide Placed, WellFormed, CarvedFor, FiberOf, Live;
    var f := Fiber(s.nextId, regs, Ready, meter);
    FreshId(s);
    AppendTable(s.fibers, f);
    forall id | Live(t.fibers, id)
      ensures if Live(s.fibers, id) then FiberOf(t.fibers, id).meter == FiberOf(s.fibers, id).meter
              else Live(t.fibers, s.current.value) && FiberOf(t.fibers, id).meter == meter
    {
      assert id in TableOf(t.fibers) && TableOf(t.fibers)[id] == TableOf(s.fibers)[f.id := f][id];
      assert id in TableOf(s.fibers) <==> Live(s.fibers, id);
      assert s.current.value in TableOf(t.fibers);
    }
  }

  lemma FreshId(s: State)
    requires Structure(s)
    ensures !Live(s.fibers, s.nextId)
  {
  }

  lemma ForkSettles(s: State, args: seq<JSValue>)
    requires Structure(s) && HasCurrent(s) && Current(s).meter < |s.meters|
    ensures Settles(s, HandleFork(s, args).s)
  {
    hide Structure, Carved, Alloc, ForkFuel, HasCurrent, Current, Ascii, Settles, SameHolders, CarvedFor;
    var r := HandleFork(s, args);
    if r.Error? {
      NothingSettles(s, r.s) by { assert SameHolders(s.fibers, r.s.fibers) by { SameIsSame(s.fibers); } }
    } else {
      var data := s.heap.objects.data[Arg(args, 0).obj].kind.data;
      var control := if data.exprBody.Some? then Expr(data.exprBody.value) else Stmt(data.body);
      var regs := Regs(control, Alloc(s.heap.conts, Halt).1, data.env);
      match ForkFuel(r.s.heap, Arg(args, 1)) {
        case Ok(None) => SpawnSettles(s, r.s, regs, Current(s).meter);
        case Ok(Some(n)) =>
          CarveExact(s.meters, Current(s).meter, n);
          SpawnSettles(s, r.s, regs, |s.meters|);
      }
    }
  }

  lemma SameIsSame(fs: seq<Fiber>)
    ensures SameHolders(fs, fs)
  {
  }

  lemma JoinSettles(s: State, args: seq<JSValue>)
    requires Structure(s) && s.current.Some? && HasCurrent(s) && WellFormed(s.meters)
    requires forall id :: Live(s.fibers, id) ==> FiberOf(s.fibers, id).meter < |s.meters|
    ensures Settles(s, HandleJoin(s, args).s)
  {
    hide RemoveFiber, JoinResult, SaveCurrent, Live, FiberOf, WellFormed, TableValid, Placed, AddWaiter, Ascii,
         Settles, SameHolders;
    SameIsSame(s.fibers);
    var r := HandleJoin(s, args);
    if r.Error? {
      NothingSettles(s, r.s);
    } else {
      var target := AsU32(Arg(args, 0).n);
      match FiberOf(s.fibers, target).status {
        case Completed(v) => JoinedSettles(s, JoinResult(s.heap, true, v), target);
        case Failed(e) => JoinedSettles(s, JoinResult(s.heap, false, String(Display(e))), target);
        case _ => WaitSettles(s, target);
      }
    }
  }

  lemma JoinedSettles(s: State, made: (Heap, JSValue), target: FiberId)
    requires Structure(s) && HasCurrent(s) && Live(s.fibers, target)
    ensures FiberOf(s.fibers, target).meter < |s.meters| && WellFormed(s.meters)
    ensures Settles(s, RemoveFiber(s.(heap := made.0, regs := s.regs.(control := Value(made.1))), target))
  {
    hide RemoveFiber, Live, FiberOf, WellFormed, TableValid, Placed, Settles, SameHolders;
    var s1 := s.(heap := made.0, regs := s.regs.(control := Value(made.1)));
    ConsumedSettles(s1, target);
    SameIsSame(s.fibers);
    SettlesAfter(s, s1, RemoveFiber(s1, target));
  }

  lemma WaitSettles(s: State, target: FiberId)
    requires Structure(s) && HasCurrent(s)
    ensures Settles(s, SaveCurrent(s.(waiters := AddWaiter(s.waiters, target, s.current.value))))
  {
    hide Structure, AddWaiter, Settles, SameHolders, SetFiber;
    SetSameHolders(s.fibers, Current(s).(regs := s.regs, status := Ready));
    NothingSettles(s, SaveCurrent(s.(waiters := AddWaiter(s.waiters, target, s.current.value))));
  }

  lemma EffectSettles(m: Machine, s0: State, effect: Str, args: seq<JSValue>)
    requires Structure(s0) && s0.current.Some? && HasCurrent(s0) && WellFormed(s0.meters)
    requires forall id :: Live(s0.fibers, id) ==> FiberOf(s0.fibers, id).meter < |s0.meters|
    ensures var r := HandleEffect(m, s0, effect, args);
      && Settles(s0, r.s)
      && (r.Error? ==> SameHolders(s0.fibers, r.s.fibers) && r.s.meters == s0.meters && r.s.current == s0.current)
  {
    hide Structure, HandleFork, HandleJoin, Live, FiberOf, WellFormed, Ascii, Settles, SameHolders, SetFiber, HostArgs;
    CollectSound(m, s0);
    var s := CollectIfDue(m, s0);
    SameIsSame(s0.fibers);
    var t := HandleEffect(m, s0, effect, args).s;
    if effect in s.effects && s.effects[effect] == Builtin(Fork) {
      ForkSettles(s, args);
      ForkErrs(s, args);
      SettlesAfter(s0, s, t);
    } else if effect in s.effects && s.effects[effect] == Builtin(Join) {
      JoinSettles(s, args);
      JoinErrs(s, args);
      SettlesAfter(s0, s, t);
    } else {
      var f := Current(s);
      if effect in s.effects && s.effects[effect] == Host && HostArgs(s.heap.objects.data, args).Some? {
        SetSameHolders(s.fibers,
          f.(regs := s.regs, status := BlockedOnHost(effect, HostArgs(s.heap.objects.data, args).value)));
      }
      SetSameHolders(s.fibers, f.(regs := s.regs.(control := Value(String(Ascii("restored")))), status := Ready));
      NothingSettles(s0, t);
    }
  }

  lemma ForkErrs(s: State, args: seq<JSValue>)
    requires HasCurrent(s) && Current(s).meter < |s.meters|
    ensures var r := HandleFork(s, args);
      r.Error? ==> r.s.fibers == s.fibers && r.s.meters == s.meters && r.s.current == s.current
  {
    hide Carved, Alloc, ForkFuel, Live, FiberOf, Ascii;
  }

  lemma JoinErrs(s: State, args: seq<JSValue>)
    requires HasCurrent(s) && WellFormed(s.meters)
    requires forall id :: Live(s.fibers, id) ==> FiberOf(s.fibers, id).meter < |s.meters|
    ensures HandleJoin(s, args).Error? ==> HandleJoin(s, args).s == s
  {
    hide RemoveFiber, JoinResult, SaveCurrent, Live, FiberOf, WellFormed, AddWaiter, Ascii;
  }

  // ---------- One turn ----------

  lemma FaultSettles(s: State, e: JSError, main: JSValue)
    requires Structure(s) && s.current.Some?
    ensures HasCurrent(s) && Settles(s, Fault(s, e, main).s)
  {
    hide Structure, Finish, Settles, Live, FiberOf;
    JoinersLive(s);
    if s.current != Some(0) {
      FinishSettles(s, Failed(e), false, String(Display(e)));
      NoLongerCurrent(s, Fail(s, e));
    } else {
      SameIsSame(s.fibers);
      NothingSettles(s, s);
    }
  }

  lemma NoLongerCurrent(s: State, t: State)
    requires HasCurrent(s) && Settles(s, t)
    ensures Settles(s, t.(current := None))
  {
    hide Live, FiberOf, CarvedFor, Settled;
  }

  lemma AfterEffectSettles(m: Machine, s: State, effect: Str, args: seq<JSValue>, main: JSValue)
    requires Structure(s) && s.current.Some? && HasCurrent(s) && WellFormed(s.meters)
    requires forall id :: Live(s.fibers, id) ==> FiberOf(s.fibers, id).meter < |s.meters|
    ensures var r := HandleEffect(m, s, effect, args);
      (r.Error? ==> Structure(r.s) && r.s.current.Some?) && Settles(s, AfterEffect(r, main).s)
  {
    hide Structure, HandleEffect, Fault, Live, FiberOf, WellFormed, Settles, SameHolders;
    EffectErrorKeepsStructure(m, s, effect, args);
    EffectSettles(m, s, effect, args);
    var r := HandleEffect(m, s, effect, args);
    match r {
      case Resume(t) =>
      case Block(t) => NoLongerCurrent(s, t);
      case Spawned(t, id) => OtherRegs(s, t, Continued(t, Int(AsI32(id))));
      case Error(t, e) =>
        FaultSettles(t, e, main);
        SettlesAfter(s, t, Fault(t, e, main).s);
    }
  }

  lemma OtherRegs(s: State, t: State, u: State)
    requires HasCurrent(s) && Settles(s, t) && u.fibers == t.fibers && u.meters == t.meters
    ensures Settles(s, u)
  {
    hide Live, FiberOf, CarvedFor, Settled;
  }

  lemma CurrentTurnSettles(m: Machine, s: State, main: JSValue)
    requires Inv(s) && s.current.Some?
    ensures HasCurrent(s)
    ensures var (meter, spent) := Spends(m, s);
      Settles(s.(meters := Charged(s.meters, meter, spent)), CurrentTurn(m, s, main).s)
  {
    hide Structure, RunSlice, Finish, AfterSlice, Live, FiberOf, WellFormed, Settles, SameHolders, SetFiber, Ascii;
    JoinersLive(s);
    SameIsSame(s.fibers);
    ChargeNothing(s.meters, Current(s).meter);
    if s.meters[Current(s).meter].remaining == Some(0) {
      var e := Message(Ascii("out_of_fuel"));
      FinishSettles(s, Failed(e), false, String(Display(e)));
      NoLongerCurrent(s, Fail(s, e));
      SetSameHolders(s.fibers, Current(s).(regs := s.regs, status := Ready));
      NothingSettles(s, SaveCurrent(s).(current := None, ready := [s.current.value] + s.ready));
    } else {
      var sl := RunSlice(m, s.heap, s.regs, Allowance(s));
      var s1 := Charge(s, sl);
      ChargeKeepsStructure(m, s);
      AfterSliceSettles(m, s1, sl.end, main);
      SettlesAfter(s.(meters := s1.meters), s1, CurrentTurn(m, s, main).s);
    }
  }

  lemma AfterSliceSettles(m: Machine, s: State, end: SliceEnd, main: JSValue)
    requires Structure(s) && s.current.Some?
    ensures HasCurrent(s) && Settles(s, AfterSlice(m, s, end, main).s)
  {
    hide Structure, Finish, HandleEffect, AfterEffect, Fault, Live, FiberOf, WellFormed, Settles, SameHolders, SetFiber;
    JoinersLive(s);
    match end {
      case Finished(v) =>
        FinishSettles(s, Completed(v), true, v);
        NoLongerCurrent(s, Complete(s, v));
      case Suspended(effect, args) => AfterEffectSettles(m, s, effect, args, main);
      case Preempted =>
        SetSameHolders(s.fibers, Current(s).(regs := s.regs, status := Ready));
        NothingSettles(s, Requeue(m, s));
      case Crashed(e) => FaultSettles(s, e, main);
    }
  }

  /** What one iteration does to the meters besides charging the running fiber's
      slice to its own: nothing, or a carve out of that same meter, or settling
      the meter of the fiber it consumes. */
  lemma TurnSettles(m: Machine, s: State, main: JSValue)
    requires Inv(s)
    ensures var (meter, spent) := Spends(m, s);
      var s1 := Selected(s).(meters := Charged(s.meters, meter, spent));
      && SameHolders(s.fibers, s1.fibers)
      && if s1.current.Some? then HasCurrent(s1) && Current(s1).meter == meter && Settles(s1, Turn(m, s, main).s)
         else Turn(m, s, main).s == s && spent == 0
  {
    hide Structure, CurrentTurn, SetFiber, Settles, SameHolders, RunSlice, Live, FiberOf;
    SameIsSame(s.fibers);
    if s.current.None? && s.ready != [] {
      SelectKeepsInv(s);
      SetSameHolders(s.fibers, FiberOf(s.fibers, s.ready[0]).(status := Running));
    }
    if Selected(s).current.Some? {
      JoinersLive(Selected(s));
      CurrentTurnSettles(m, Selected(s), main);
    }
  }

  // ---------- Whole runs ----------

  /** What a move takes out of meter `x`: the slice run by a fiber charged to it,
      and what that fiber carves. */
  ghost function Use(m: Machine, s: State, a: Move, x: MeterId): nat
    requires Inv(s)
  {
    if !a.TakeTurn? || Spends(m, s).0 != x then 0
    else
      var t := Turn(m, s, a.main).s;
      Spends(m, s).1 + (if |t.meters| > |s.meters| then Left(t.meters[|s.meters|]) else 0)
  }

  ghost function RunUse(m: Machine, s: State, moves: seq<Move>, x: MeterId): nat
    requires Inv(s)
    decreases |moves|
  {
    if moves == [] then 0
    else
      MoveKeepsInv(m, s, moves[0]);
      Use(m, s, moves[0], x) + RunUse(m, MoveBy(m, s, moves[0]), moves[1..], x)
  }

  /** A meter that is held was held before, and what it lost was used. */
  ghost predicate Lasts(s: State, t: State, x: MeterId, used: nat) {
    x < |s.meters| <= |t.meters| &&
    (Held(t.fibers, x) ==>
       && Held(s.fibers, x) && Left(s.meters[x]) <= Left(t.meters[x]) + used
       && (s.meters[x].remaining.None? <==> t.meters[x].remaining.None?))
  }

  lemma StillHeld(s: State, t: State, x: MeterId, id: FiberId)
    requires HasCurrent(s) && Settles(s, t) && x < |s.meters|
    requires Live(t.fibers, id) && FiberOf(t.fibers, id).meter == x
    ensures Held(s.fibers, x)
    ensures forall gone :: !Live(t.fibers, gone) ==> HeldElsewhere(s.fibers, gone, x)
  {
    hide Live, FiberOf, Settled, CarvedFor;
    var holder := if Live(s.fibers, id) then id else s.current.value;
    assert Live(t.fibers, holder) && Live(s.fibers, holder) && FiberOf(s.fibers, holder).meter == x;
  }

  lemma SettlesLasts(s: State, t: State, x: MeterId)
    requires HasCurrent(s) && Settles(s, t) && x < |s.meters|
    ensures |t.meters| >= |s.meters|
    ensures var carved := if |t.meters| > |s.meters| then Left(t.meters[|s.meters|]) else 0;
      Lasts(s, t, x, if x == Current(s).meter then carved else 0)
  {
    hide Live, FiberOf, HeldElsewhere;
    if id :| Live(t.fibers, id) && FiberOf(t.fibers, id).meter == x {
      StillHeld(s, t, x, id);
    }
  }

  lemma LastsTwice(s: State, mid: State, t: State, x: MeterId, a: nat, b: nat)
    requires Lasts(s, mid, x, a) && Lasts(mid, t, x, b)
    ensures Lasts(s, t, x, a + b)
  {
    hide Held;
  }

  lemma ChargeLasts(s: State, s1: State, x: MeterId, meter: MeterId, spent: nat)
    requires SameHolders(s.fibers, s1.fibers) && meter < |s.meters| && s1.meters == Charged(s.meters, meter, spent)
    requires x < |s.meters|
    ensures Lasts(s, s1, x, if x == meter then spent else 0)
  {
    hide Live, FiberOf;
    if Held(s1.fibers, x) {
      var id :| Live(s1.fibers, id) && FiberOf(s1.fibers, id).meter == x;
      assert Live(s.fibers, id);
    }
  }

  lemma TurnLasts(m: Machine, s: State, main: JSValue, x: MeterId)
    requires Inv(s) && x < |s.meters|
    ensures Lasts(s, Turn(m, s, main).s, x, Use(m, s, TakeTurn(main), x))
  {
    hide Inv, Turn, Settles, Lasts, SameHolders, Spends, Live, FiberOf;
    TurnSettles(m, s, main);
    var (meter, spent) := Spends(m, s);
    var s1 := Selected(s).(meters := Charged(s.meters, meter, spent));
    ChargeLasts(s, s1, x, meter, spent);
    if s1.current.Some? {
      var t := Turn(m, s, main).s;
      SettlesLasts(s1, t, x);
      var carved := if |t.meters| > |s.meters| then Left(t.meters[|s.meters|]) else 0;
      LastsTwice(s, s1, t, x, if x == meter then spent else 0, if x == meter then carved else 0);
    } else {
      NothingLasts(s, x, Use(m, s, TakeTurn(main), x));
    }
  }

  lemma NothingLasts(s: State, x: MeterId, used: nat)
    requires x < |s.meters|
    ensures Lasts(s, s, x, used)
  {
  }

  lemma MoveLasts(m: Machine, s: State, a: Move, x: MeterId)
    requires Inv(s) && x < |s.meters|
    ensures Lasts(s, MoveBy(m, s, a), x, Use(m, s, a, x))
  {
    hide Inv, Turn, Lasts, Spends, SetFiber, Live, FiberOf, Added, FromHost, SameHolders;
    match a
    case TakeTurn(main) => TurnLasts(m, s, main, x);
    case Answer(id, answer) => AnswerLasts(s, id, answer, x); NothingLasts(s, x, 0);
    case Refuel(amount) => RefuelLasts(s, amount, x); NothingLasts(s, x, 0);
  }

  lemma AnswerLasts(s: State, id: FiberId, answer: HostValue, x: MeterId)
    requires x < |s.meters|
    ensures IsPending(s, id) ==> Lasts(s, ApplyAnswer(s, id, answer), x, 0)
  {
    hide SetFiber, Live, FiberOf, FromHost, SameHolders;
    if IsPending(s, id) {
      var t := ApplyAnswer(s, id, answer);
      var f := FiberOf(s.fibers, id);
      SetSameHolders(
        s.fibers, f.(regs := f.regs.(control := Value(FromHost(s.heap.objects, answer).1)), status := Ready));
      ChargeNothing(s.meters, x);
      ChargeLasts(s, t, x, x, 0);
    }
  }

  lemma RefuelLasts(s: State, amount: u64, x: MeterId)
    requires x < |s.meters|
    ensures Lasts(s, TopUp(s, amount), x, 0)
  {
  }

  /** Over any run, a meter that some fiber still holds at the end has lost no more
      than its holders' own slices and carves; nobody else's ending, joining or
      refunding takes anything from it. */
  lemma {:induction false} FallsOnlyByUse(m: Machine, s: State, moves: seq<Move>, x: MeterId)
    requires Inv(s) && x < |s.meters|
    ensures Lasts(s, Run(m, s, moves), x, RunUse(m, s, moves, x))
    decreases |moves|
  {
    hide Inv, MoveBy, Use, Lasts;
    if moves == [] {
      NothingLasts(s, x, 0);
    } else {
      var t := MoveBy(m, s, moves[0]);
      MoveKeepsInv(m, s, moves[0]);
      MoveLasts(m, s, moves[0], x);
      LastsGrows(s, t, x, Use(m, s, moves[0], x));
      FallsOnlyByUse(m, t, moves[1..], x);
      LastsTwice(s, t, Run(m, s, moves), x, Use(m, s, moves[0], x), RunUse(m, t, moves[1..], x));
    }
  }

  lemma LastsGrows(s: State, t: State, x: MeterId, used: nat)
    requires Lasts(s, t, x, used)
    ensures x < |t.meters|
  {
  }
}
