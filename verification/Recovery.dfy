/** The recording runtime and recovery as running code (src/runtime.rs:332-472,
    src/replay.rs:349-455), proved to compute the session of `Replay`. */
module Recovery {
  import opened Values
  import opened Fuel
  import opened Boundary
  import opened Bytes
  import opened HostCodec
  import opened Log
  import opened Fibers
  import opened Scheduler
  import opened Runs
  import opened Entries
  import opened FuelLaws
  import opened Termination
  import opened Replay
  import opened Divergence
  import opened RuntimeObject

  /** The file grew by exactly the records that were added. */
  ghost predicate Wrote(file: seq<u8>, disk: seq<Stamped>, file': seq<u8>, disk': seq<Stamped>) {
    disk <= disk' && file' == file + EncEvents(disk'[|disk|..])
  }

  lemma WroteNothing(file: seq<u8>, disk: seq<Stamped>)
    ensures Wrote(file, disk, file, disk)
  {
    assert disk[|disk|..] == [] && file + [] == file;
  }

  lemma WroteOne(file: seq<u8>, disk: seq<Stamped>, e: Stamped)
    ensures Wrote(file, disk, file + EncEvent(e), disk + [e])
  {
    assert (disk + [e])[|disk|..] == [e] && EncEvents([e][1..]) == [];
  }

  lemma WroteTwice(
      f0: seq<u8>, d0: seq<Stamped>, f1: seq<u8>, d1: seq<Stamped>, f2: seq<u8>, d2: seq<Stamped>)
    requires Wrote(f0, d0, f1, d1) && Wrote(f1, d1, f2, d2)
    ensures Wrote(f0, d0, f2, d2)
  {
    hide EncEvents;
    EncEventsAppend(d1[|d0|..], d2[|d1|..]);
    var a, b := EncEvents(d1[|d0|..]), EncEvents(d2[|d1|..]);
    assert (f0 + a) + b == f0 + (a + b);
    assert d2[|d0|..] == d1[|d0|..] + d2[|d1|..];
  }

  /** A recording runtime: the runtime and its log writer. */
  class Recorder {
    const rt: Runtime
    /** The log file, and the records in it after the header. */
    var file: seq<u8>
    var disk: seq<Stamped>
    var doneWritten: bool
    /** The outcome of the last recorded scheduler entry, and of the last one. */
    ghost var outcome: RunOutcome
    ghost var received: RunOutcome

    constructor (
        rt: Runtime, file: seq<u8>, disk: seq<Stamped>, doneWritten: bool, ghost outcome: RunOutcome)
      ensures this.rt == rt && this.file == file && this.disk == disk && this.doneWritten == doneWritten
      ensures this.outcome == this.received == outcome
    {
      this.rt, this.file, this.disk, this.doneWritten := rt, file, disk, doneWritten;
      this.outcome, this.received := outcome, outcome;
    }

    ghost function Abs(): Rec
      reads this, rt, rt.meters
    {
      Rec(rt.Abs(), outcome, received, disk, doneWritten)
    }

    method Write(e: LogEvent)
      modifies this`disk, this`file
      ensures disk == old(disk) + [Stamped(Stamp(rt.Abs()), e)] && Wrote(old(file), old(disk), file, disk)
    {
      var record := Stamped(rt.steps % 0x1_0000_0000_0000_0000, e);
      WroteOne(file, disk, record);
      disk, file := disk + [record], file + EncEvent(record);
    }

    /** resume_with: write ahead, then apply. */
    method ResumeWith(id: u32, answer: HostValue) returns (ok: bool)
      requires Inv(rt.Abs())
      modifies this, rt
      ensures Act(rt.machine, old(Abs()), AnswerCall(id, answer)) == Some(Abs())
      ensures Wrote(old(file), old(disk), file, disk)
      ensures ok == IsPending(old(rt.Abs()), id)
    {
      hide Inv, IndexOf, FromHost, Wrote;
      WroteNothing(file, disk);
      var i := rt.Find(id);
      if i == |rt.fibers| || !rt.fibers[i].status.BlockedOnHost? {
        return false;
      }
      AnswerKeepsInv(rt.Abs(), id, answer);
      Write(HostAnswer(id, rt.fibers[i].status.effect, rt.fibers[i].status.args, answer));
      ApplyHostAnswer(id, answer);
      ok := true;
    }

    method ApplyHostAnswer(id: u32, answer: HostValue)
      requires Live(rt.fibers, id)
      modifies rt
      ensures rt.Abs() == ApplyAnswer(old(rt.Abs()), id, answer)
    {
      var arena := new Materializer(rt.heap.objects);
      var v := arena.FromHostValue(answer);
      rt.heap := rt.heap.(objects := arena.objects);
      rt.UnblockFiber(id, v);
    }

    /** add_fuel: only when the root meter is dry. */
    method AddFuel(amount: u64) returns (ok: bool)
      requires Inv(rt.Abs())
      modifies this, rt.meters
      ensures Act(rt.machine, old(Abs()), AddFuelCall(amount)) == Some(Abs())
      ensures Wrote(old(file), old(disk), file, disk)
      ensures ok == (rt.meters.slots != [] && old(rt.meters.slots[ROOT].remaining) == Some(0))
    {
      hide Inv, Wrote;
      WroteNothing(file, disk);
      HasRoot(rt.Abs());
      if rt.meters.slots[ROOT].remaining != Some(0) {
        return false;
      }
      TopUpKeepsInv(rt.Abs(), amount);
      Write(RefuelEvent(amount));
      rt.meters.Add(ROOT, amount);
      ok := true;
    }

    /** finish_run: seal a completed run once. */
    method FinishRun(o: RunOutcome)
      requires Inv(rt.Abs()) && (!doneWritten ==> o == outcome)
      modifies this
      ensures Abs() == Seal(old(Abs())) && Wrote(old(file), old(disk), file, disk)
    {
      hide Inv, Crosses, Wrote;
      WroteNothing(file, disk);
      if o.Done? && !doneWritten {
        var result := ToHostValue(rt.heap.objects.data, o.v);
        Write(DoneEvent(result));
        doneWritten := true;
      }
    }

    /** run_hosted_continue; an error is a fault of the program's root. */
    method RunHostedContinue() returns (r: Result<RunOutcome, JSError>)
      requires Inv(rt.Abs()) && Halts(rt.machine, rt.Abs())
      modifies this, rt, rt.meters
      ensures match Act(rt.machine, old(Abs()), ContinueCall)
              case Some(q) => r.Ok? && Abs() == q && r.value == q.received
              case None => r.Err?
      ensures r.Ok? ==> Outcome(rt.machine, old(rt.Abs())) == Some((rt.Abs(), r.value))
      ensures Wrote(old(file), old(disk), file, disk)
    {
      hide Inv, Entry, Halts, Wrote;
      WroteNothing(file, disk);
      var recorded := !doneWritten;
      if recorded {
        Write(Continue);
      }
      r := rt.RunScheduler();
      if r.Ok? {
        received := r.value;
        if recorded {
          outcome := r.value;
        }
        ghost var f, d := file, disk;
        FinishRun(r.value);
        WroteTwice(old(file), old(disk), f, d, file, disk);
      }
    }
  }

  // ---------- resume_from_log ----------

  /** Every scheduler entry that recovery makes returns. */
  ghost predicate Terminates(load: Loader, h: LogHeader, es: seq<Stamped>)
    requires GoodLoader(load)
  {
    load(h.source).Some? && h.quantum > 0 ==>
      var p := load(h.source).value;
      var s0 := Start(p, h.grants, h.fuel, h.quantum);
      && Inv(s0) && Halts(p.machine, s0)
      && forall k :: 0 <= k <= |es| ==> PrefixHalts(load, h, es, k)
  }

  /** After `k` records, a continue (the next record, or recovery's own) returns. */
  ghost predicate PrefixHalts(load: Loader, h: LogHeader, es: seq<Stamped>, k: nat)
    requires GoodLoader(load) && k <= |es|
  {
    Boot(load, h).Some? ==>
      var b := Boot(load, h).value;
      var m := load(h.source).value.machine;
      var st := ReplayAll(m, Replayed(b.s, b.outcome, false, false), es[..k]);
      st.Some? && (k == |es| || es[k].event.Continue?) ==> Halts(m, st.value.s)
  }

  lemma FiniteHalts(m: Machine, s: State)
    requires Inv(s) && Finite(s.meters)
    ensures Halts(m, s)
  {
    hide Inv, Loop;
    FiniteBudgetReturns(m, s, Undefined);
    EntryIsLoop(m, s, Measure(s) + 1);
  }

  lemma {:induction false} LoopKeepsFinite(m: Machine, s: State, main: JSValue, n: nat)
    requires Inv(s) && Finite(s.meters)
    ensures Finite(Loop(m, s, main, n).s.meters)
    decreases n
  {
    hide Inv, Turn;
    if n > 0 {
      TurnKeepsInv(m, s, main);
      TurnSpendsAtMost(m, s, main);
      match Turn(m, s, main)
      case Again(s', main') => LoopKeepsFinite(m, s', main', n - 1);
      case _ =>
    }
  }

  lemma OutcomeKeepsFinite(m: Machine, s: State)
    requires Inv(s) && Finite(s.meters) && Outcome(m, s).Some?
    ensures Finite(Outcome(m, s).value.0.meters)
  {
    hide Inv, Loop;
    var n: nat :| !Loop(m, s, Undefined, n).Again?;
    EntryIsLoop(m, s, n);
    LoopKeepsFinite(m, s, Undefined, n);
  }

  lemma {:induction false} ReplayKeepsFinite(m: Machine, st: Replayed, es: seq<Stamped>)
    requires Inv(st.s) && Finite(st.s.meters) && ReplayAll(m, st, es).Some?
    ensures Finite(ReplayAll(m, st, es).value.s.meters)
    decreases |es|
  {
    hide Inv, ReplayEvent, Finite;
    if es != [] {
      ReplayKeepsFinite(m, st, es[..|es| - 1]);
      EventKeepsFinite(m, ReplayAll(m, st, es[..|es| - 1]).value, es[|es| - 1]);
    }
  }

  lemma EventKeepsFinite(m: Machine, st: Replayed, e: Stamped)
    requires Inv(st.s) && Finite(st.s.meters) && ReplayEvent(m, st, e).Some?
    ensures Finite(ReplayEvent(m, st, e).value.s.meters)
  {
    hide Inv, Outcome, ResultMatches, FromHost, BitEq;
    match e.event {
      case HostAnswer(id, _, _, answer) =>
        assert ApplyAnswer(st.s, id, answer).meters == st.s.meters;
      case Continue => OutcomeKeepsFinite(m, st.s);
      case DoneEvent(_) =>
      case RefuelEvent(amount) =>
        HasRoot(st.s);
        assert Added(st.s.meters, ROOT, amount)[1..] == st.s.meters[1..];
    }
  }

  /** On a finite budget recovery always ends, whatever the program and the log. */
  lemma FiniteTerminates(load: Loader, h: LogHeader, es: seq<Stamped>)
    requires GoodLoader(load) && h.fuel.Some?
    ensures Terminates(load, h, es)
  {
    hide Inv, Outcome, Halts, ReplayAll;
    if load(h.source).Some? && h.quantum > 0 {
      var p := load(h.source).value;
      var s0 := Start(p, h.grants, h.fuel, h.quantum);
      StartInv(p, h.grants, h.fuel, h.quantum);
      FiniteHalts(p.machine, s0);
      forall k | 0 <= k <= |es| ensures PrefixHalts(load, h, es, k) {
        if Boot(load, h).Some? {
          var b := Boot(load, h).value;
          var start := Replayed(b.s, b.outcome, false, false);
          OutcomeKeepsFinite(p.machine, s0);
          if ReplayAll(p.machine, start, es[..k]).Some? {
            ReplayKeepsFinite(p.machine, start, es[..k]);
            FiniteHalts(p.machine, ReplayAll(p.machine, start, es[..k]).value.s);
          }
        }
      }
    }
  }

  /** verify_pending_matches against the live table. */
  method VerifyPendingMatches(rt: Runtime, id: u32, effect: Str, args: seq<HostValue>) returns (ok: bool)
    ensures ok <==> Matches(rt.Abs(), id, effect, args)
    ensures ok <==> Calls(rt.Abs(), id, effect, args)
  {
    hide BitEq;
    MatchesCalls(rt.Abs(), id, effect, args);
    var i := rt.Find(id);
    if i == |rt.fibers| || !rt.fibers[i].status.BlockedOnHost? {
      return false;
    }
    var actual := rt.fibers[i].status.args;
    if rt.fibers[i].status.effect != effect || |actual| != |args| {
      return false;
    }
    for j := 0 to |args|
      invariant forall k :: 0 <= k < j ==> BitEq(actual[k], args[k])
    {
      if !BitEq(actual[j], args[j]) {
        return false;
      }
    }
    ok := true;
  }

  method ResultAgrees(rt: Runtime, v: JSValue, result: Option<HostValue>) returns (ok: bool)
    ensures ok <==> ResultMatches(rt.Abs(), v, result)
  {
    if result.None? {
      return true;
    }
    var actual := ToHostValue(rt.heap.objects.data, v);
    ok := actual.Some? && BitEq(actual.value, result.value);
  }

  /** One logged event re-applied and verified. */
  method ReplayOne(rt: Runtime, outcome: RunOutcome, unflushed: bool, sawDone: bool, e: Stamped)
    returns (ok: bool, o: RunOutcome, u: bool, d: bool)
    requires Inv(rt.Abs())
    requires e.event.Continue? ==> Halts(rt.machine, rt.Abs())
    modifies rt, rt.meters
    ensures ok <==> ReplayEvent(rt.machine, Replayed(old(rt.Abs()), outcome, unflushed, sawDone), e).Some?
    ensures ok ==> Inv(rt.Abs())
    ensures ok ==> ReplayEvent(rt.machine, Replayed(old(rt.Abs()), outcome, unflushed, sawDone), e)
                   == Some(Replayed(rt.Abs(), o, u, d))
  {
    hide Inv, Halts, Entry, IndexOf, FromHost, BitEq;
    ok, o, u, d := true, outcome, unflushed, sawDone;
    if rt.steps % 0x1_0000_0000_0000_0000 != e.steps {
      ok := false;
      return;
    }
    match e.event {
      case HostAnswer(id, effect, args, answer) =>
        ok := VerifyPendingMatches(rt, id, effect, args);
        if ok {
          AnswerKeepsInv(rt.Abs(), id, answer);
          var arena := new Materializer(rt.heap.objects);
          var v := arena.FromHostValue(answer);
          rt.heap := rt.heap.(objects := arena.objects);
          rt.UnblockFiber(id, v);
          u := true;
        }
      case Continue =>
        var r := rt.RunScheduler();
        if r.Err? {
          ok := false;
        } else {
          o, u := r.value, false;
        }
      case DoneEvent(result) =>
        if !outcome.Done? {
          ok := false;
        } else {
          ok := ResultAgrees(rt, outcome.v, result);
          d := true;
        }
      case RefuelEvent(amount) =>
        HasRoot(rt.Abs());
        TopUpKeepsInv(rt.Abs(), amount);
        rt.meters.Add(ROOT, amount);
        u := true;
    }
  }

  /** The file is the good bytes of the old one and what was recorded since. */
  ghost predicate Healed(file: seq<u8>, p: ParsedLog, file': seq<u8>, log: seq<Stamped>) {
    0 <= p.goodLen <= |file| && Wrote(file[..p.goodLen], p.events, file', log)
  }

  /** Rebuild a run from its log, then go on recording on the same file, cut to
      its good length: whatever recovery records follows the good bytes. */
  method ResumeFromLog(load: Loader, file: seq<u8>) returns (res: Option<Recorder>)
    requires GoodLoader(load)
    requires ParseLog(file).Ok? ==> Terminates(load, ParseLog(file).value.header, ParseLog(file).value.events)
    ensures match ParseLog(file)
            case Err(_) => res.None?
            case Ok(p) =>
              match Recover(load, p.header, p.events)
              case None => res.None?
              case Some(q) =>
                && res.Some? && res.value.Abs() == q && Healed(file, p, res.value.file, q.log)
                && Verified(load, p.header, p.events)
  {
    hide Inv, Halts, Entry, ParseLog, ReplayEvent, Outcome, Wrote, Verified;
    var parsed := ParseFile(file);
    GoodLenWithin(file);
    if parsed.Err? {
      return None;
    }
    var h, es := parsed.value.header, parsed.value.events;
    var program := load(h.source);
    if program.None? || h.quantum == 0 {
      return None;
    }
    StartInv(program.value, h.grants, h.fuel, h.quantum);
    var rt := new Runtime(program.value, h.grants, h.fuel, h.quantum);
    var booted := BootRuntime(load, h, rt);
    if booted.None? {
      return None;
    }
    ghost var b := Boot(load, h).value;
    var outcome, unflushed, sawDone := booted.value, false, false;
    assert es[..0] == [];
    for i := 0 to |es|
      invariant Inv(rt.Abs()) && fresh(rt) && fresh(rt.meters)
      invariant ReplayAll(rt.machine, Replayed(b.s, b.outcome, false, false), es[..i])
                == Some(Replayed(rt.Abs(), outcome, unflushed, sawDone))
    {
      assert PrefixHalts(load, h, es, i);
      assert es[..i + 1][..i] == es[..i];
      var ok;
      ok, outcome, unflushed, sawDone := ReplayOne(rt, outcome, unflushed, sawDone, es[i]);
      if !ok {
        StuckReplay(rt.machine, Replayed(b.s, b.outcome, false, false), es, i);
        return None;
      }
    }
    assert es[..|es|] == es && PrefixHalts(load, h, es, |es|);
    var recorder := new Recorder(rt, file[..parsed.value.goodLen], es, sawDone, outcome);
    if unflushed {
      var r := recorder.RunHostedContinue();
      if r.Err? {
        return None;
      }
    } else {
      recorder.FinishRun(outcome);
    }
    RecoveryVerifies(load, h, es);
    res := Some(recorder);
  }

  /** A recorded run on a finite budget, its log cut at any byte: recovery ends,
      gives a moment of the session continued at most once, and leaves the file
      exactly the log of what it gives. */
  method CrashThenResume(
      load: Loader, ghost h: LogHeader, ghost calls: seq<HostCall>, ghost cut: nat, file: seq<u8>)
    returns (res: Option<Recorder>, ghost k: nat)
    requires GoodLoader(load) && Session(load, h, calls).Some? && GoodHeader(h) && h.fuel.Some?
    requires Recordable(Session(load, h, calls).value.log)
    requires |EncHeader(h)| <= cut <= |EncLog(h, Session(load, h, calls).value.log)|
    requires file == EncLog(h, Session(load, h, calls).value.log)[..cut]
    ensures k <= |calls| && Session(load, h, calls[..k]).Some?
    ensures match Settled(load, h, Session(load, h, calls[..k]).value)
            case None => res.None?
            case Some(q) => res.Some? && res.value.Abs() == q && res.value.file == EncLog(h, q.log)
  {
    hide Inv, ParseLog, EncHeader, EncEvents, Recover, Session, Settled, Recordable, Terminates;
    ghost var n;
    k, n := CrashAtAnyByte(load, h, calls, cut);
    FiniteTerminates(load, h, ParseLog(file).value.events);
    res := ResumeFromLog(load, file);
  }

  method BootRuntime(load: Loader, h: LogHeader, rt: Runtime) returns (o: Option<RunOutcome>)
    requires GoodLoader(load) && load(h.source).Some? && h.quantum > 0
    requires rt.machine == load(h.source).value.machine
    requires rt.Abs() == Start(load(h.source).value, h.grants, h.fuel, h.quantum)
    requires Inv(rt.Abs()) && Halts(rt.machine, rt.Abs())
    modifies rt, rt.meters
    ensures o.Some? <==> Boot(load, h).Some?
    ensures o.Some? ==> Inv(rt.Abs()) && Boot(load, h) == Some(Rec(rt.Abs(), o.value, o.value, [], false))
  {
    hide Inv, Halts, Entry, Start;
    var r := rt.RunScheduler();
    o := if r.Ok? then Some(r.value) else None;
  }

  lemma {:induction false} StuckReplay(m: Machine, st: Replayed, es: seq<Stamped>, i: nat)
    requires Inv(st.s) && i < |es| && ReplayAll(m, st, es[..i + 1]).None?
    ensures ReplayAll(m, st, es).None?
    decreases |es|
  {
    hide Inv, ReplayEvent;
    if i + 1 < |es| {
      assert es[..|es| - 1][..i + 1] == es[..i + 1];
      StuckReplay(m, st, es[..|es| - 1], i);
    } else {
      assert es[..i + 1] == es;
    }
  }
}
