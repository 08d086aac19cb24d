/** Record, crash, replay (src/replay.rs:258-455 over the host API of
    src/runtime.rs:332-472): a recorded session, its re-execution from the log,
    and recovery after a crash at any byte. */
module Replay {
  import opened Values
  import opened Fuel
  import opened Boundary
  import opened Bytes
  import opened HostCodec
  import opened Log
  import opened Fibers
  import opened Scheduler
  import opened Runs
  import opened FuelLaws
  import opened Entries
  import opened Results

  /** Parsing the source text yields the program to run, or fails. */
  type Loader = Str -> Option<Program>

  ghost predicate GoodLoader(load: Loader) {
    forall src :: load(src).Some? ==> load(src).value.Valid() && load(src).value.machine.disk == ALWAYS
  }

  /** Snapshot writes succeed; replay suppresses them, with the same outcome. */
  const ALWAYS: (Str, nat) -> bool := (path, step) => true

  /** A recording runtime: its state, the outcome of the last scheduler entry
      that was recorded, the outcome the host last received, what is on disk
      after the header, and whether Done is there. Once it is, further entries
      are not recorded. */
  datatype Rec = Rec(s: State, outcome: RunOutcome, received: RunOutcome, log: seq<Stamped>, sealed: bool)

  function Stamp(s: State): u64 {
    s.steps % 0x1_0000_0000_0000_0000
  }

  function Append(r: Rec, e: LogEvent): Rec {
    r.(log := r.log + [Stamped(Stamp(r.s), e)])
  }

  /** finish_run: record completion once, with the result if it can cross. */
  ghost function Seal(r: Rec): Rec {
    if r.outcome.Done? && !r.sealed
    then Append(r, DoneEvent(ToHost(r.s.heap.objects.data, r.outcome.v))).(sealed := true)
    else r
  }

  // ---------- The live session ----------

  datatype HostCall = AnswerCall(id: u32, answer: HostValue) | AddFuelCall(amount: u64) | ContinueCall

  /** run_scheduler, when it returns an outcome; None when it runs on forever
      or the program faults. */
  ghost function Outcome(m: Machine, s: State): (r: Option<(State, RunOutcome)>)
    requires Inv(s)
    ensures r.Some? ==> Inv(r.value.0)
  {
    if !Halts(m, s) then None
    else match Entry(m, s)
      case Return(s', o) => Some((s', o))
      case _ => None
  }

  /** A host call on a recording runtime: the event is on disk before it takes
      effect; a call the runtime rejects leaves everything as it was. */
  ghost function Act(m: Machine, r: Rec, c: HostCall): (r': Option<Rec>)
    requires Inv(r.s)
    ensures r'.Some? ==> Inv(r'.value.s)
  {
    match c
    case AnswerCall(id, answer) =>
      if !IsPending(r.s, id) then Some(r)
      else
        AnswerKeepsInv(r.s, id, answer);
        var st := FiberOf(r.s.fibers, id).status;
        Some(Append(r, HostAnswer(id, st.effect, st.args, answer)).(s := ApplyAnswer(r.s, id, answer)))
    case AddFuelCall(amount) =>
      if !OutOfRootFuel(r.s) then Some(r)
      else
        TopUpKeepsInv(r.s, amount);
        Some(Append(r, RefuelEvent(amount)).(s := TopUp(r.s, amount)))
    case ContinueCall =>
      match Outcome(m, r.s)
      case None => None
      case Some((s, o)) =>
        Some(if r.sealed then r.(s := s, received := o)
             else Seal(Append(r, Continue).(s := s, outcome := o, received := o)))
  }

  /** The first entry of a run, before finish_run. */
  ghost function Boot(load: Loader, h: LogHeader): (r: Option<Rec>)
    requires GoodLoader(load)
    ensures r.Some? ==> Inv(r.value.s) && load(h.source).Some?
  {
    match load(h.source)
    case None => None
    case Some(p) =>
      if h.quantum == 0 then None
      else
        StartInv(p, h.grants, h.fuel, h.quantum);
        match Outcome(p.machine, Start(p, h.grants, h.fuel, h.quantum))
        case None => None
        case Some((s, o)) => Some(Rec(s, o, o, [], false))
  }

  /** A refuel the runtime accepts although the run is over. */
  ghost predicate LateRefuel(r: Rec, c: HostCall)
    requires Inv(r.s)
  {
    r.sealed && c.AddFuelCall? && OutOfRootFuel(r.s)
  }

  /** A host that makes these calls, none of them a late refuel; None when a
      scheduler entry does not return an outcome. */
  ghost function Session(load: Loader, h: LogHeader, calls: seq<HostCall>): (r: Option<Rec>)
    requires GoodLoader(load)
    ensures r.Some? ==> Inv(r.value.s) && load(h.source).Some?
    decreases |calls|
  {
    if calls == [] then
      match Boot(load, h)
      case None => None
      case Some(r) => Some(Seal(r))
    else
      match Session(load, h, calls[..|calls| - 1])
      case None => None
      case Some(r) =>
        if LateRefuel(r, calls[|calls| - 1]) then None
        else Act(load(h.source).value.machine, r, calls[|calls| - 1])
  }

  // ---------- Re-execution from a log ----------

  datatype Replayed = Replayed(s: State, outcome: RunOutcome, unflushed: bool, sawDone: bool)

  datatype ReplayError = Mismatch(at: nat) | Stopped

  /** verify_pending_matches. */
  ghost predicate Matches(s: State, id: FiberId, effect: Str, args: seq<HostValue>) {
    && IsPending(s, id)
    && var st := FiberOf(s.fibers, id).status;
       && st.effect == effect && |st.args| == |args|
       && forall i :: 0 <= i < |args| ==> BitEq(st.args[i], args[i])
  }

  /** The recorded result, if there is one, must be the replayed one. */
  ghost predicate ResultMatches(s: State, v: JSValue, result: Option<HostValue>) {
    result.Some? ==>
      var actual := ToHost(s.heap.objects.data, v);
      actual.Some? && BitEq(actual.value, result.value)
  }

  ghost function ReplayEvent(m: Machine, st: Replayed, e: Stamped): (r: Option<Replayed>)
    requires Inv(st.s)
    ensures r.Some? ==> Inv(r.value.s)
  {
    if Stamp(st.s) != e.steps then None
    else match e.event
      case HostAnswer(id, effect, args, answer) =>
        if !Matches(st.s, id, effect, args) then None
        else
          AnswerKeepsInv(st.s, id, answer);
          Some(st.(s := ApplyAnswer(st.s, id, answer), unflushed := true))
      case Continue =>
        (match Outcome(m, st.s)
         case None => None
         case Some((s, o)) => Some(st.(s := s, outcome := o, unflushed := false)))
      case DoneEvent(result) =>
        if st.outcome.Done? && ResultMatches(st.s, st.outcome.v, result) then Some(st.(sawDone := true)) else None
      case RefuelEvent(amount) =>
        TopUpKeepsInv(st.s, amount);
        Some(st.(s := TopUp(st.s, amount), unflushed := true))
  }

  ghost function ReplayAll(m: Machine, st: Replayed, es: seq<Stamped>): (r: Option<Replayed>)
    requires Inv(st.s)
    ensures r.Some? ==> Inv(r.value.s)
    decreases |es|
  {
    if es == [] then Some(st)
    else
      match ReplayAll(m, st, es[..|es| - 1])
      case None => None
      case Some(st') => ReplayEvent(m, st', es[|es| - 1])
  }

  /** resume_from_log on a parsed log: re-execute, verify, then go live on the
      same log: continue once if the last recorded intent was not consumed,
      otherwise re-seal. */
  ghost function Recover(load: Loader, h: LogHeader, es: seq<Stamped>): (r: Option<Rec>)
    requires GoodLoader(load)
    ensures r.Some? ==> Inv(r.value.s)
  {
    match Boot(load, h)
    case None => None
    case Some(b) =>
      var m := load(h.source).value.machine;
      match ReplayAll(m, Replayed(b.s, b.outcome, false, false), es)
      case None => None
      case Some(st) =>
        var live := Rec(st.s, st.outcome, st.outcome, es, st.sawDone);
        if st.unflushed then Act(m, live, ContinueCall) else Some(Seal(live))
  }

  // ---------- Replay rebuilds the session ----------

  ghost predicate Unflushed(es: seq<Stamped>) {
    es != [] && (es[|es| - 1].event.HostAnswer? || es[|es| - 1].event.RefuelEvent?)
  }

  ghost predicate SealedLog(es: seq<Stamped>) {
    es != [] && es[|es| - 1].event.DoneEvent?
  }

  /** Re-executing its own log yields the state and outcome of `r`. */
  ghost predicate Replays(load: Loader, h: LogHeader, r: Rec)
    requires GoodLoader(load)
  {
    && Boot(load, h).Some?
    && var b := Boot(load, h).value;
       ReplayAll(load(h.source).value.machine, Replayed(b.s, b.outcome, false, false), r.log)
         == Some(Replayed(r.s, r.outcome, Unflushed(r.log), r.sealed))
  }

  /** The log is sealed exactly when its last record is Done, and no earlier
      record is. */
  ghost predicate LogShape(r: Rec) {
    r.sealed == SealedLog(r.log) && DoneLast(r.log)
  }

  /** The recording a moment before its Done was written. */
  function Unsealed(r: Rec): Rec {
    if r.sealed && r.log != [] then r.(log := r.log[..|r.log| - 1], sealed := false) else r
  }

  ghost predicate Faithful(load: Loader, h: LogHeader, r: Rec)
    requires GoodLoader(load)
  {
    && Replays(load, h, r) && Replays(load, h, Unsealed(r)) && LogShape(r)
    && (r.outcome.Done? <==> r.sealed)
    && r == Seal(Unsealed(r)) && (r.sealed ==> !Unflushed(Unsealed(r).log) && Over(r.s))
  }

  /** Nothing left to run or to answer. */
  ghost predicate Over(s: State) {
    s.current.None? && s.ready == [] && PendingCalls(s.fibers) == []
  }

  /** A run that is over stays as it is when it is continued, and takes no
      answers. What the entry then returns is the root's recorded result. */
  lemma OverIsStable(m: Machine, s: State)
    requires Inv(s) && Over(s)
    ensures Outcome(m, s) == Some((s, Done(RootResult(s, Undefined))))
    ensures forall id :: !IsPending(s, id)
  {
    hide Inv, PendingCalls, IndexOf;
    assert Turn(m, s, Undefined) == Return(s, Done(RootResult(s, Undefined)));
    assert Loop(m, s, Undefined, 1) == Turn(m, s, Undefined);
    EntryIsLoop(m, s, 1);
    forall id ensures !IsPending(s, id) {
      if IsPending(s, id) { BlockedIsPending(s.fibers, IndexOf(s.fibers, id)); }
    }
  }

  lemma DoneIsOver(m: Machine, s: State)
    requires Inv(s)
    ensures Outcome(m, s).Some? && Outcome(m, s).value.1.Done? ==> Over(Outcome(m, s).value.0)
  {
    hide Inv, Loop, PendingCalls;
    if Halts(m, s) {
      var n: nat :| !Loop(m, s, Undefined, n).Again?;
      EntryIsLoop(m, s, n);
      LoopEnds(m, s, Undefined, n);
    }
  }

  /** Continuing a completed run: the state stays, and the host gets the same
      result exactly when the root's record was not consumed by a join, or the
      result was undefined anyway. */
  lemma DoneThenContinue(m: Machine, s0: State)
    requires Inv(s0) && Outcome(m, s0).Some? && Outcome(m, s0).value.1.Done?
    ensures var (s, o) := Outcome(m, s0).value;
      && Outcome(m, s) == Some((s, Done(RootResult(s, Undefined))))
      && (Outcome(m, s) == Some((s, o)) <==> Live(s.fibers, 0) || o == Done(Undefined))
  {
    hide Inv, Loop, Over, RootResult, Live;
    DoneIsOver(m, s0);
    var n: nat :| !Loop(m, s0, Undefined, n).Again?;
    EntryIsLoop(m, s0, n);
    DoneAgain(m, s0, n);
    OverIsStable(m, Outcome(m, s0).value.0);
  }

  lemma AllMatch(args: seq<HostValue>)
    ensures forall i :: 0 <= i < |args| ==> BitEq(args[i], args[i])
  {
    forall i | 0 <= i < |args| ensures BitEq(args[i], args[i]) { BitEqIsEquality(args[i], args[i]); }
  }

  lemma ReplayOneMore(load: Loader, h: LogHeader, r: Rec, e: Stamped)
    requires GoodLoader(load) && Replays(load, h, r)
    ensures Inv(r.s)
    ensures var b := Boot(load, h).value; var m := load(h.source).value.machine;
      ReplayAll(m, Replayed(b.s, b.outcome, false, false), r.log + [e])
        == ReplayEvent(m, Replayed(r.s, r.outcome, Unflushed(r.log), r.sealed), e)
  {
    hide Inv, Boot, ReplayEvent;
    assert (r.log + [e])[..|r.log|] == r.log;
  }

  /** Sealing keeps faithfulness, when no answer waits to be consumed. */
  lemma SealFaithful(load: Loader, h: LogHeader, r: Rec)
    requires GoodLoader(load) && Replays(load, h, r) && LogShape(r) && !r.sealed && !Unflushed(r.log)
    requires r.outcome.Done? ==> Over(r.s)
    ensures Faithful(load, h, Seal(r))
  {
    hide Inv, Boot, ReplayAll, Over;
    if r.outcome.Done? {
      var result := ToHost(r.s.heap.objects.data, r.outcome.v);
      ReplayOneMore(load, h, r, Stamped(Stamp(r.s), DoneEvent(result)));
      if result.Some? { BitEqIsEquality(result.value, result.value); }
    }
  }

  /** Every call of a session keeps the log faithful. */
  lemma ActFaithful(load: Loader, h: LogHeader, r: Rec, c: HostCall)
    requires GoodLoader(load) && Inv(r.s) && Faithful(load, h, r) && !LateRefuel(r, c)
    requires Act(load(h.source).value.machine, r, c).Some?
    ensures Faithful(load, h, Act(load(h.source).value.machine, r, c).value)
  {
    hide Inv, Boot, ReplayAll, ApplyAnswer, TopUp, Outcome, Over;
    var m := load(h.source).value.machine;
    if r.sealed {
      OverIsStable(m, r.s);
      return;
    }
    match c {
      case AnswerCall(id, answer) =>
        if IsPending(r.s, id) {
          var st := FiberOf(r.s.fibers, id).status;
          AllMatch(st.args);
          ReplayOneMore(load, h, r, Stamped(Stamp(r.s), HostAnswer(id, st.effect, st.args, answer)));
        }
      case AddFuelCall(amount) =>
        ReplayOneMore(load, h, r, Stamped(Stamp(r.s), RefuelEvent(amount)));
      case ContinueCall =>
        ReplayOneMore(load, h, r, Stamped(Stamp(r.s), Continue));
        var (s, o) := Outcome(m, r.s).value;
        DoneIsOver(m, r.s);
        SealFaithful(load, h, Append(r, Continue).(s := s, outcome := o, received := o));
    }
  }

  lemma BootOver(load: Loader, h: LogHeader)
    requires GoodLoader(load) && Boot(load, h).Some?
    ensures Boot(load, h).value.outcome.Done? ==> Over(Boot(load, h).value.s)
  {
    hide Inv, Outcome, Over;
    var p := load(h.source).value;
    StartInv(p, h.grants, h.fuel, h.quantum);
    DoneIsOver(p.machine, Start(p, h.grants, h.fuel, h.quantum));
  }

  lemma {:induction false} SessionFaithful(load: Loader, h: LogHeader, calls: seq<HostCall>)
    requires GoodLoader(load) && Session(load, h, calls).Some?
    ensures Faithful(load, h, Session(load, h, calls).value)
    decreases |calls|
  {
    hide Inv, Act, Faithful;
    if calls == [] {
      BootOver(load, h);
      SealFaithful(load, h, Boot(load, h).value);
    } else {
      var front := calls[..|calls| - 1];
      SessionFaithful(load, h, front);
      ActFaithful(load, h, Session(load, h, front).value, calls[|calls| - 1]);
    }
  }

  // ---------- What the host was told ----------

  /** The host continued the run after it was sealed. */
  ghost predicate ContinuedOver(load: Loader, h: LogHeader, calls: seq<HostCall>)
    requires GoodLoader(load)
    decreases |calls|
  {
    calls != [] &&
      var front := calls[..|calls| - 1];
      || ContinuedOver(load, h, front)
      || (calls[|calls| - 1].ContinueCall? && Session(load, h, front).Some? && Session(load, h, front).value.sealed)
  }

  /** The outcome last received is the recorded one, or that of a continue after
      the end. */
  ghost predicate Told(r: Rec, continued: bool) {
    && r.received == (if continued then Done(RootResult(r.s, Undefined)) else r.outcome)
    && (continued ==> r.sealed)
    && (r.outcome.Done? ==>
          (RootResult(r.s, Undefined) == r.outcome.v <==> Live(r.s.fibers, 0) || r.outcome.v == Undefined))
  }

  lemma EntryTold(m: Machine, s0: State, log: seq<Stamped>, sealed: bool)
    requires Inv(s0) && Outcome(m, s0).Some?
    ensures var (s, o) := Outcome(m, s0).value; Told(Rec(s, o, o, log, sealed), false)
  {
    hide Inv, Outcome, RootResult, Live;
    if Outcome(m, s0).value.1.Done? { DoneThenContinue(m, s0); }
  }

  lemma ActTold(m: Machine, r: Rec, c: HostCall, continued: bool)
    requires Inv(r.s) && !LateRefuel(r, c) && Told(r, continued) && Act(m, r, c).Some?
    requires (r.outcome.Done? <==> r.sealed) && (r.sealed ==> Over(r.s))
    ensures Told(Act(m, r, c).value, continued || (c.ContinueCall? && r.sealed))
  {
    hide Inv, Outcome, ApplyAnswer, TopUp, Over, RootResult, Live;
    if r.sealed {
      OverIsStable(m, r.s);
    } else if c.ContinueCall? {
      var (s, o) := Outcome(m, r.s).value;
      var q := Append(r, Continue).(s := s, outcome := o, received := o);
      EntryTold(m, r.s, q.log, q.sealed);
      SealTold(q);
    }
  }

  lemma {:induction false} SessionTold(load: Loader, h: LogHeader, calls: seq<HostCall>)
    requires GoodLoader(load) && Session(load, h, calls).Some?
    ensures Told(Session(load, h, calls).value, ContinuedOver(load, h, calls))
    decreases |calls|
  {
    hide Inv, Act, Told, Replays, Start;
    var p := load(h.source).value;
    if calls == [] {
      StartInv(p, h.grants, h.fuel, h.quantum);
      EntryTold(p.machine, Start(p, h.grants, h.fuel, h.quantum), [], false);
      SealTold(Boot(load, h).value);
    } else {
      var front := calls[..|calls| - 1];
      SessionTold(load, h, front);
      SessionFaithful(load, h, front);
      ActTold(p.machine, Session(load, h, front).value, calls[|calls| - 1], ContinuedOver(load, h, front));
    }
  }

  lemma SealTold(r: Rec)
    requires Told(r, false)
    ensures Told(Seal(r), false)
  {
  }

  /** What recovery makes of a session: itself, with the outcome the log records,
      or, if the host died between a recorded answer or refuel and the continue
      that would consume it, the session continued once. */
  ghost function Settled(load: Loader, h: LogHeader, r: Rec): (q: Option<Rec>)
    requires GoodLoader(load) && Inv(r.s) && load(h.source).Some?
  {
    if Unflushed(r.log) then Act(load(h.source).value.machine, r, ContinueCall) else Some(r.(received := r.outcome))
  }

  lemma ContinueForgets(m: Machine, r: Rec, o: RunOutcome)
    requires Inv(r.s) && !r.sealed
    ensures Act(m, r.(received := o), ContinueCall) == Act(m, r, ContinueCall)
  {
    hide Inv, Outcome;
  }

  lemma RecoversSettled(load: Loader, h: LogHeader, calls: seq<HostCall>)
    requires GoodLoader(load) && Session(load, h, calls).Some?
    ensures Recover(load, h, Session(load, h, calls).value.log) == Settled(load, h, Session(load, h, calls).value)
  {
    hide Inv, Act, Session, ReplayAll;
    SessionFaithful(load, h, calls);
    var r := Session(load, h, calls).value;
    if !r.sealed { ContinueForgets(load(h.source).value.machine, r, r.outcome); }
  }

  /** Replay fidelity: recovering from a session's log raises no divergence and
      rebuilds its state, outcome and log. The outcome it hands the host is the
      one the host had last received, unless the host had continued a completed
      run whose root a join had consumed. */
  lemma ReplayFidelity(load: Loader, h: LogHeader, calls: seq<HostCall>)
    requires GoodLoader(load) && Session(load, h, calls).Some?
    ensures Recover(load, h, Session(load, h, calls).value.log) == Settled(load, h, Session(load, h, calls).value)
    ensures var r := Session(load, h, calls).value;
      !Unflushed(r.log) ==>
        (Recover(load, h, r.log) == Some(r)
         <==> !ContinuedOver(load, h, calls) || Live(r.s.fibers, 0) || r.outcome == Done(Undefined))
  {
    hide Inv, Act, Session, Recover, ContinuedOver, Replays, RootResult, Live;
    RecoversSettled(load, h, calls);
    SessionFaithful(load, h, calls);
    SessionTold(load, h, calls);
  }

  // ---------- Crash at any record ----------

  /** A session's log, cut after any number of records, is the log of an
      earlier moment of the session, or that log without its Done. */
  lemma {:induction false} PrefixIsSession(load: Loader, h: LogHeader, calls: seq<HostCall>, n: nat)
      returns (k: nat)
    requires GoodLoader(load) && Session(load, h, calls).Some? && n <= |Session(load, h, calls).value.log|
    ensures k <= |calls| && Session(load, h, calls[..k]).Some?
    ensures var r := Session(load, h, calls[..k]).value;
      var p := Session(load, h, calls).value.log[..n];
      r.log == p || (r.sealed && |r.log| == n + 1 && r.log[..n] == p)
    decreases |calls|
  {
    hide Inv, Act, Boot;
    var r := Session(load, h, calls).value;
    if calls == [] {
      k := 0;
      assert calls[..k] == calls;
      SessionFaithful(load, h, calls);
      BootLog(load, h);
    } else {
      var front := calls[..|calls| - 1];
      var before := Session(load, h, front).value;
      SessionFaithful(load, h, front);
      ActAppends(load(h.source).value.machine, before, calls[|calls| - 1]);
      if n <= |before.log| {
        k := PrefixIsSession(load, h, front, n);
        assert front[..k] == calls[..k];
        assert r.log[..n] == before.log[..n];
      } else {
        k := |calls|;
        assert calls[..k] == calls;
      }
    }
  }

  lemma BootLog(load: Loader, h: LogHeader)
    requires GoodLoader(load) && Boot(load, h).Some?
    ensures var r := Seal(Boot(load, h).value); |r.log| <= 1 && (|r.log| == 1 ==> r.sealed)
  {
  }

  /** A call appends one record, or two of which the second is Done. */
  lemma ActAppends(m: Machine, r: Rec, c: HostCall)
    requires Inv(r.s) && !LateRefuel(r, c) && Act(m, r, c).Some? && (r.sealed ==> Over(r.s))
    ensures var q := Act(m, r, c).value;
      && |r.log| <= |q.log| <= |r.log| + 2 && q.log[..|r.log|] == r.log
      && (|q.log| == |r.log| + 2 ==> q.sealed)
  {
    hide Inv, ApplyAnswer, TopUp, Outcome, Over;
    if r.sealed { OverIsStable(m, r.s); }
  }

  /** A crash that eats records off the log's end recovers to a moment of the
      session, continued at most once; the healed log extends what survived,
      and recovering again reaches the same state. */
  lemma CrashRecovers(load: Loader, h: LogHeader, calls: seq<HostCall>, n: nat) returns (k: nat)
    requires GoodLoader(load) && Session(load, h, calls).Some? && n <= |Session(load, h, calls).value.log|
    ensures k <= |calls| && Session(load, h, calls[..k]).Some?
    ensures var p := Session(load, h, calls).value.log[..n];
      && Recover(load, h, p) == Settled(load, h, Session(load, h, calls[..k]).value)
      && (Recover(load, h, p).Some? ==>
            p <= Recover(load, h, p).value.log
            && Recover(load, h, Recover(load, h, p).value.log) == Recover(load, h, p))
  {
    hide Inv, Act, Boot;
    var p := Session(load, h, calls).value.log[..n];
    k := PrefixIsSession(load, h, calls, n);
    var r := Session(load, h, calls[..k]).value;
    SessionFaithful(load, h, calls[..k]);
    if r.log == p {
      RecoversSettled(load, h, calls[..k]);
    } else {
      EatenDone(load, h, r, n);
    }
    if Settled(load, h, r).Some? {
      RecoverAgain(load, h, calls[..k]);
    }
  }

  /** When only the Done record was lost, recovery writes it again. */
  lemma EatenDone(load: Loader, h: LogHeader, r: Rec, n: nat)
    requires GoodLoader(load) && Inv(r.s) && load(h.source).Some?
    requires Faithful(load, h, r) && r.sealed && |r.log| == n + 1
    ensures Recover(load, h, r.log[..n]) == Settled(load, h, r)
  {
    hide Inv, Boot, ReplayAll, Act, DoneLast;
    assert Unsealed(r).log == r.log[..n];
  }

  lemma RecoverAgain(load: Loader, h: LogHeader, calls: seq<HostCall>)
    requires GoodLoader(load) && Session(load, h, calls).Some?
    requires Settled(load, h, Session(load, h, calls).value).Some?
    ensures var q := Settled(load, h, Session(load, h, calls).value).value;
      Session(load, h, calls).value.log <= q.log && Recover(load, h, q.log) == Some(q)
  {
    hide Inv, Boot, Recover, DoneLast;
    var r := Session(load, h, calls).value;
    SessionFaithful(load, h, calls);
    if Unflushed(r.log) {
      var more := calls + [ContinueCall];
      assert more[..|calls|] == calls;
      assert Session(load, h, more) == Settled(load, h, r);
      ActAppends(load(h.source).value.machine, r, ContinueCall);
      ContinueFlushes(load(h.source).value.machine, r);
      RecoversSettled(load, h, more);
    } else {
      RecoversSettled(load, h, calls);
    }
  }

  lemma ContinueFlushes(m: Machine, r: Rec)
    requires Inv(r.s) && !r.sealed && Act(m, r, ContinueCall).Some?
    ensures !Unflushed(Act(m, r, ContinueCall).value.log)
  {
    hide Inv, Outcome;
  }

  // ---------- Crash at any byte ----------

  /** Every record can be written and read back. */
  ghost predicate Recordable(es: seq<Stamped>) {
    EveryShallow(es) && forall i :: 0 <= i < |es| ==> GoodEvent(es[i])
  }

  lemma ParseSession(h: LogHeader, es: seq<Stamped>)
    requires GoodHeader(h) && Recordable(es) && DoneLast(es)
    ensures ParseLog(EncLog(h, es)) == Ok(ParsedLog(h, es, |EncLog(h, es)|))
  {
    hide ParseLog, EncLog, GoodEvent, Shallow;
    ParseRecorded(h, es, []);
    assert EncLog(h, es) + [] == EncLog(h, es);
  }

  /** Cutting a session's log file anywhere after its header: the file still
      parses, to the complete records before the cut. */
  lemma CutParses(h: LogHeader, es: seq<Stamped>, cut: nat) returns (n: nat)
    requires GoodHeader(h) && Recordable(es) && DoneLast(es)
    requires |EncHeader(h)| <= cut <= |EncLog(h, es)|
    ensures n <= |es| && |EncLog(h, es[..n])| <= cut
    ensures ParseLog(EncLog(h, es)[..cut]) == Ok(ParsedLog(h, es[..n], |EncLog(h, es[..n])|))
    ensures EncLog(h, es)[..cut][..|EncLog(h, es[..n])|] == EncLog(h, es[..n])
  {
    hide ParseLog, EncHeader, EncEvents, GoodEvent, Shallow, EncEvent;
    var t;
    n, t := CutRecords(es, cut - |EncHeader(h)|);
    assert EncLog(h, es)[..cut] == EncLog(h, es[..n]) + t;
    assert Recordable(es[..n]) && DoneLast(es[..n]);
    ParseRecorded(h, es[..n], t);
  }

  /** Recovery after a crash at any byte: the file parses; the runtime rebuilt
      is a moment of the session, continued at most once; truncating to the
      good length and appending what recovery wrote gives exactly the healed
      log; and recovering from that file reaches the same runtime. */
  lemma CrashAtAnyByte(load: Loader, h: LogHeader, calls: seq<HostCall>, cut: nat) returns (k: nat, n: nat)
    requires GoodLoader(load) && Session(load, h, calls).Some? && GoodHeader(h)
    requires Recordable(Session(load, h, calls).value.log)
    requires |EncHeader(h)| <= cut <= |EncLog(h, Session(load, h, calls).value.log)|
    ensures k <= |calls| && Session(load, h, calls[..k]).Some? && n <= |Session(load, h, calls).value.log|
    ensures var file := EncLog(h, Session(load, h, calls).value.log)[..cut];
      var survived := Session(load, h, calls).value.log[..n];
      && ParseLog(file).Ok? && ParseLog(file).value.header == h && ParseLog(file).value.events == survived
      && Recover(load, h, survived) == Settled(load, h, Session(load, h, calls[..k]).value)
      && (Recover(load, h, survived).Some? ==>
            var q := Recover(load, h, survived).value;
            var goodLen := ParseLog(file).value.goodLen;
            && survived <= q.log && 0 <= goodLen <= cut
            && file[..goodLen] + EncEvents(q.log[n..]) == EncLog(h, q.log)
            && (Recordable(q.log) ==>
                  ParseLog(EncLog(h, q.log)).Ok? && ParseLog(EncLog(h, q.log)).value.events == q.log
                  && Recover(load, h, q.log) == Some(q)))
  {
    hide ParseLog, EncHeader, EncEvents, Recover, Session, Settled, Recordable;
    var es := Session(load, h, calls).value.log;
    SessionShape(load, h, calls);
    n := CutParses(h, es, cut);
    k := CrashRecovers(load, h, calls, n);
    if Recover(load, h, es[..n]).Some? {
      var q := Recover(load, h, es[..n]).value;
      assert q.log == es[..n] + q.log[n..];
      EncEventsAppend(es[..n], q.log[n..]);
      if Recordable(q.log) {
        SettledShape(load, h, calls[..k]);
        ParseSession(h, q.log);
      }
    }
  }

  lemma SessionShape(load: Loader, h: LogHeader, calls: seq<HostCall>)
    requires GoodLoader(load) && Session(load, h, calls).Some?
    ensures DoneLast(Session(load, h, calls).value.log)
  {
    hide Inv, Session, Replays, DoneLast;
    SessionFaithful(load, h, calls);
  }

  lemma SettledShape(load: Loader, h: LogHeader, calls: seq<HostCall>)
    requires GoodLoader(load) && Session(load, h, calls).Some?
    requires Settled(load, h, Session(load, h, calls).value).Some?
    ensures DoneLast(Settled(load, h, Session(load, h, calls).value).value.log)
  {
    hide Inv, Replays, DoneLast, Act;
    var r := Session(load, h, calls).value;
    SessionFaithful(load, h, calls);
    if Unflushed(r.log) {
      ActFaithful(load, h, r, ContinueCall);
    }
  }

  lemma RefuelIsGood(e: Stamped)
    requires e.event.RefuelEvent?
    ensures GoodEvent(e) && Shallow(e.event)
  {
  }

  /** Why a late refuel is no part of a session: the runtime accepts and records
      it exactly when the root meter is dry, and the log it leaves is one that
      recovery can no longer parse. */
  lemma LateRefuelBreaksLog(load: Loader, h: LogHeader, calls: seq<HostCall>, amount: u64)
    requires GoodLoader(load) && Session(load, h, calls).Some? && GoodHeader(h)
    requires Session(load, h, calls).value.sealed && Recordable(Session(load, h, calls).value.log)
    ensures var r := Session(load, h, calls).value;
      var q := Act(load(h.source).value.machine, r, AddFuelCall(amount));
      q.Some? && (ParseLog(EncLog(h, q.value.log)).Ok? <==> !OutOfRootFuel(r.s))
  {
    hide Inv, ParseLog, EncLog, Session, Replays, TopUp, DoneLast, Shallow, EncPayload;
    var r := Session(load, h, calls).value;
    SessionFaithful(load, h, calls);
    HasRoot(r.s);
    RefuelIsGood(Stamped(Stamp(r.s), RefuelEvent(amount)));
    if OutOfRootFuel(r.s) {
      ParsePastDone(h, r.log, Stamped(Stamp(r.s), RefuelEvent(amount)));
    } else {
      ParseSession(h, r.log);
    }
  }
}
