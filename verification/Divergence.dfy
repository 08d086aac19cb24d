/** What recovery has checked when it succeeds (src/replay.rs:385-436, 458-490):
    every record of the log is borne out by the run that was rebuilt up to it. */
module Divergence {
  import opened Values
  import opened Fuel
  import opened Boundary
  import opened HostCodec
  import opened Log
  import opened Fibers
  import opened Scheduler
  import opened Runs
  import opened Entries
  import opened Replay

  /** The fiber is blocked on exactly this call. */
  ghost predicate Calls(s: State, id: FiberId, effect: Str, args: seq<HostValue>) {
    Live(s.fibers, id) && FiberOf(s.fibers, id).status == BlockedOnHost(effect, args)
  }

  /** The record is what a run in this state, its last entry having returned
      `outcome`, would have written. */
  ghost predicate BorneOut(s: State, outcome: RunOutcome, e: Stamped) {
    && e.steps == s.steps % 0x1_0000_0000_0000_0000
    && match e.event
       case HostAnswer(id, effect, args, _) => Calls(s, id, effect, args)
       case DoneEvent(None) => outcome.Done?
       case DoneEvent(Some(result)) => outcome.Done? && ToHost(s.heap.objects.data, outcome.v) == Some(result)
       case _ => true
  }

  lemma MatchesCalls(s: State, id: FiberId, effect: Str, args: seq<HostValue>)
    ensures Matches(s, id, effect, args) <==> Calls(s, id, effect, args)
  {
    hide BitEq, IndexOf, FiberOf;
    if IsPending(s, id) {
      var actual := FiberOf(s.fibers, id).status.args;
      forall i | 0 <= i < |args| && i < |actual| ensures BitEq(actual[i], args[i]) <==> actual[i] == args[i] {
        BitEqIsEquality(actual[i], args[i]);
      }
    }
  }

  /** A record is accepted exactly when the run bears it out, and, for a continue,
      the entry it stands for returns an outcome. */
  lemma AcceptedIffBorneOut(m: Machine, st: Replayed, e: Stamped)
    requires Inv(st.s)
    ensures ReplayEvent(m, st, e).Some?
       <==> BorneOut(st.s, st.outcome, e) && (e.event.Continue? ==> Outcome(m, st.s).Some?)
  {
    hide Inv, Outcome, Matches, Calls, BitEq, ToHost, ApplyAnswer, TopUp;
    match e.event {
      case HostAnswer(id, effect, args, _) => MatchesCalls(st.s, id, effect, args);
      case DoneEvent(Some(result)) =>
        if st.outcome.Done? && ToHost(st.s.heap.objects.data, st.outcome.v).Some? {
          BitEqIsEquality(ToHost(st.s.heap.objects.data, st.outcome.v).value, result);
        }
      case _ =>
    }
  }

  /** The run rebuilt from some records. */
  ghost function Rebuilt(load: Loader, h: LogHeader, es: seq<Stamped>): (r: Option<Replayed>)
    requires GoodLoader(load)
    ensures r.Some? ==> Inv(r.value.s) && load(h.source).Some?
  {
    match Boot(load, h)
    case None => None
    case Some(b) => ReplayAll(load(h.source).value.machine, Replayed(b.s, b.outcome, false, false), es)
  }

  ghost predicate Verified(load: Loader, h: LogHeader, es: seq<Stamped>)
    requires GoodLoader(load)
  {
    forall i :: 0 <= i < |es| ==> BorneOutAt(load, h, es, i)
  }

  ghost predicate BorneOutAt(load: Loader, h: LogHeader, es: seq<Stamped>, i: nat)
    requires GoodLoader(load) && i < |es|
  {
    var st := Rebuilt(load, h, es[..i]);
    st.Some? && BorneOut(st.value.s, st.value.outcome, es[i])
  }

  lemma {:induction false} RebuiltIsVerified(load: Loader, h: LogHeader, es: seq<Stamped>)
    requires GoodLoader(load) && Rebuilt(load, h, es).Some?
    ensures Verified(load, h, es)
    decreases |es|
  {
    hide Inv, Boot, ReplayEvent, BorneOut;
    if es != [] {
      var n := |es| - 1;
      RebuiltIsVerified(load, h, es[..n]);
      AcceptedIffBorneOut(load(h.source).value.machine, Rebuilt(load, h, es[..n]).value, es[n]);
      forall i | 0 <= i < |es| ensures BorneOutAt(load, h, es, i) {
        if i < n {
          assert BorneOutAt(load, h, es[..n], i);
          assert es[..n][..i] == es[..i];
        }
      }
    }
  }

  /** The converse of fidelity: recovery gives a runtime only from a log whose
      every record the rebuilt run bears out. */
  lemma RecoveryVerifies(load: Loader, h: LogHeader, es: seq<Stamped>)
    requires GoodLoader(load) && Recover(load, h, es).Some?
    ensures Verified(load, h, es)
  {
    hide Inv, Boot, ReplayAll, Act, Seal, Verified;
    RebuiltIsVerified(load, h, es);
  }

  /** All that a changed record can differ in when it is accepted: an answer, the
      call id if another fiber was then blocked on the very same call, the kind of
      event, or the amount of a refuel. */
  ghost predicate Undetected(s: State, was: Stamped, e: Stamped) {
    && e.steps == was.steps
    && (e.event.HostAnswer? ==> Calls(s, e.event.callId, e.event.effect, e.event.args))
    && (e.event.HostAnswer? && was.event.HostAnswer? && e.event.callId == was.event.callId ==>
          e.event.effect == was.event.effect && e.event.args == was.event.args)
    && (e.event.DoneEvent? && was.event.DoneEvent? && e.event.result.Some? && was.event.result.Some? ==>
          e.event.result == was.event.result)
  }

  lemma BothBorneOut(s: State, outcome: RunOutcome, was: Stamped, e: Stamped)
    requires BorneOut(s, outcome, was) && BorneOut(s, outcome, e)
    ensures Undetected(s, was, e)
  {
    hide ToHost;
  }

  lemma SessionBorneOut(load: Loader, h: LogHeader, calls: seq<HostCall>, i: nat)
    requires GoodLoader(load) && Session(load, h, calls).Some? && i < |Session(load, h, calls).value.log|
    ensures BorneOutAt(load, h, Session(load, h, calls).value.log, i)
  {
    hide Inv, ReplayAll, Session, BorneOutAt;
    SessionFaithful(load, h, calls);
    RebuiltIsVerified(load, h, Session(load, h, calls).value.log);
  }

  /** A session's log with one record changed is rejected when the change is in the
      stamp, in the effect or the arguments of an answered call, or in the
      recorded result; a changed call id is rejected unless another fiber was
      then blocked on the very same effect and arguments. */
  lemma TamperedIsRejected(load: Loader, h: LogHeader, calls: seq<HostCall>, i: nat, e: Stamped)
    requires GoodLoader(load) && Session(load, h, calls).Some? && i < |Session(load, h, calls).value.log|
    ensures var es := Session(load, h, calls).value.log;
      Recover(load, h, es[i := e]).Some? ==>
        Rebuilt(load, h, es[..i]).Some? && Undetected(Rebuilt(load, h, es[..i]).value.s, es[i], e)
  {
    hide Inv, Recover, Session, Rebuilt, BorneOut, Undetected;
    var es := Session(load, h, calls).value.log;
    SessionBorneOut(load, h, calls, i);
    if Recover(load, h, es[i := e]).Some? {
      RecoveryVerifies(load, h, es[i := e]);
      assert BorneOutAt(load, h, es[i := e], i);
      assert es[i := e][..i] == es[..i] && es[i := e][i] == e;
      var st := Rebuilt(load, h, es[..i]).value;
      BothBorneOut(st.s, st.outcome, es[i], e);
    }
  }

  // ---------- What a finished session has recorded ----------

  /** The last record is Done, with the result if that can cross. */
  ghost predicate RecordsResult(r: Rec) {
    && r.log != [] && r.outcome.Done?
    && r.log[|r.log| - 1].event == DoneEvent(ToHost(r.s.heap.objects.data, r.outcome.v))
  }

  /** A session that is sealed ends its log with the result its run came to, or
      with none exactly when that cannot cross to the host; a session is sealed as
      soon as its run is done. */
  lemma DoneRecorded(load: Loader, h: LogHeader, calls: seq<HostCall>)
    requires GoodLoader(load) && Session(load, h, calls).Some?
    ensures Session(load, h, calls).value.sealed <==> Session(load, h, calls).value.outcome.Done?
    ensures Session(load, h, calls).value.sealed ==> RecordsResult(Session(load, h, calls).value)
  {
    hide Inv, Session, Over, Replays, ToHost;
    SessionFaithful(load, h, calls);
  }
}
