/** The simple machine the continuation arena must refine: every fiber is an
    immutable list of frames, and a captured continuation is a list too
    (src/cekh.rs:753-760, 1376-1529, 1554-1565, 2119-2225). */
module FrameLists {
  import opened Values

  /** Where a walk outwards stops. */
  datatype Stop = AtReturn | AtLoop | AtHandler | AtClause(effect: Str)

  /** The handler's clause list names the effect. */
  predicate Handles(clauses: seq<Str>, f: Frame, effect: Str) {
    f.HandlerK? && exists i :: f.start <= i < f.start + f.count && i < |clauses| && clauses[i] == effect
  }

  predicate Stops(clauses: seq<Str>, stop: Stop, f: Frame) {
    match stop
    case AtReturn => f.ReturnK?
    case AtLoop => f.IsLoop()
    case AtHandler => f.HandlerK?
    case AtClause(effect) => Handles(clauses, f, effect)
  }

  /** The first frame, from the innermost, where the walk stops; the length if
      there is none. */
  function First(clauses: seq<Str>, stop: Stop, fs: seq<Frame>): (n: nat)
    ensures n <= |fs| && (n < |fs| ==> Stops(clauses, stop, fs[n]))
    ensures forall i :: 0 <= i < n ==> !Stops(clauses, stop, fs[i])
  {
    if fs == [] || Stops(clauses, stop, fs[0]) then 0 else 1 + First(clauses, stop, fs[1..])
  }

  /** One list per fiber, innermost frame first, and one per continuation value
      handed out so far (None once the collector has dropped it). */
  datatype Lists = Lists(chains: seq<seq<Frame>>, current: nat, captured: seq<Option<seq<Frame>>>) {
    predicate Valid() { current < |chains| }

    function Top(): seq<Frame>
      requires Valid()
    {
      chains[current]
    }

    function WithTop(fs: seq<Frame>): Lists
      requires Valid()
    {
      this.(chains := chains[current := fs])
    }
  }

  lemma WithTopTwice(l: Lists, a: seq<Frame>, b: seq<Frame>)
    requires l.Valid()
    ensures l.WithTop(a).WithTop(b) == l.WithTop(b) && l.WithTop(a).Top() == a
    ensures l.WithTop(l.Top()) == l
  {
  }

  datatype Op =
    | Push(f: Frame)
    | Pop
    | Return
    | Break
    | Continue
    | Perform(effect: Str)
    | Resume(n: nat)
    | Fork
    | Switch(fiber: nat)
    | Collect(keep: set<nat>)

  /** The fiber exists; the continuation value is one the program still has. */
  predicate Legal(l: Lists, op: Op) {
    match op
    case Resume(n) => n < |l.captured| && l.captured[n].Some?
    case Switch(i) => i < |l.chains|
    case _ => true
  }

  function Kept(captured: seq<Option<seq<Frame>>>, keep: set<nat>): seq<Option<seq<Frame>>> {
    seq(|captured|, n requires 0 <= n < |captured| => if n in keep then captured[n] else None)
  }

  function Unwound(clauses: seq<Str>, stop: Stop, fs: seq<Frame>): seq<Frame> {
    var n := First(clauses, stop, fs);
    if n == |fs| then fs else fs[n + 1..]
  }

  /** The frame `continue` leaves on a loop. */
  function LoopHead(f: Frame): Frame
    requires f.IsLoop()
  {
    if f.WhileK? || f.WhileBodyK? then WhileK(f.test, f.body, f.env)
    else if f.update != NONE then ForUpdateK(f.test, f.update, f.body, f.env)
    else ForTestK(f.test, f.update, f.body, f.env)
  }

  function Looped(clauses: seq<Str>, fs: seq<Frame>): seq<Frame> {
    var n := First(clauses, AtLoop, fs);
    if n == |fs| then fs else [LoopHead(fs[n])] + fs[n + 1..]
  }

  function Apply(clauses: seq<Str>, l: Lists, op: Op): (r: Lists)
    requires l.Valid() && Legal(l, op)
    ensures r.Valid()
  {
    match op
    case Push(f) => l.WithTop([f] + l.Top())
    case Pop => if l.Top() == [] then l else l.WithTop(l.Top()[1..])
    case Return => l.WithTop(Unwound(clauses, AtReturn, l.Top()))
    case Break => l.WithTop(Unwound(clauses, AtLoop, l.Top()))
    case Continue => l.WithTop(Looped(clauses, l.Top()))
    case Perform(effect) =>
      if First(clauses, AtClause(effect), l.Top()) == |l.Top()| then l
      else
        var cut := First(clauses, AtHandler, l.Top());
        ClauseIsHandler(clauses, effect, l.Top());
        l.WithTop(Unwound(clauses, AtClause(effect), l.Top())).(captured := l.captured + [Some(l.Top()[..cut + 1])])
    case Resume(n) => l.WithTop(l.captured[n].value + l.Top())
    case Fork => l.(chains := l.chains + [[]])
    case Switch(i) => l.(current := i)
    case Collect(keep) => l.(captured := Kept(l.captured, keep))
  }

  /** The innermost handler is no further out than the matching one. */
  lemma ClauseIsHandler(clauses: seq<Str>, effect: Str, fs: seq<Frame>)
    ensures First(clauses, AtHandler, fs) <= First(clauses, AtClause(effect), fs)
  {
    var n := First(clauses, AtClause(effect), fs);
    if n < |fs| { assert Stops(clauses, AtHandler, fs[n]); }
  }

  predicate LegalRun(clauses: seq<Str>, l: Lists, ops: seq<Op>)
    requires l.Valid()
    decreases |ops|
  {
    ops == [] || (Legal(l, ops[0]) && LegalRun(clauses, Apply(clauses, l, ops[0]), ops[1..]))
  }

  function ApplyAll(clauses: seq<Str>, l: Lists, ops: seq<Op>): (r: Lists)
    requires l.Valid() && LegalRun(clauses, l, ops)
    ensures r.Valid()
    decreases |ops|
  {
    if ops == [] then l else ApplyAll(clauses, Apply(clauses, l, ops[0]), ops[1..])
  }

  lemma {:induction false} ApplyAllSnoc(clauses: seq<Str>, l: Lists, ops: seq<Op>, op: Op)
    requires l.Valid() && LegalRun(clauses, l, ops) && Legal(ApplyAll(clauses, l, ops), op)
    ensures LegalRun(clauses, l, ops + [op])
    ensures ApplyAll(clauses, l, ops + [op]) == Apply(clauses, ApplyAll(clauses, l, ops), op)
    decreases |ops|
  {
    if ops == [] {
      assert ops + [op] == [op] && [op][1..] == [];
    } else {
      ApplyAllSnoc(clauses, Apply(clauses, l, ops[0]), ops[1..], op);
      assert (ops + [op])[1..] == ops[1..] + [op];
    }
  }

  /** No collection in the run drops the continuation. */
  predicate KeptBy(ops: seq<Op>, n: nat) {
    forall i :: 0 <= i < |ops| && ops[i].Collect? ==> n in ops[i].keep
  }

  /** Whatever runs in between, a captured continuation keeps its frames. */
  lemma {:induction false} CapturesPersist(clauses: seq<Str>, l: Lists, ops: seq<Op>, n: nat)
    requires l.Valid() && LegalRun(clauses, l, ops) && KeptBy(ops, n) && n < |l.captured|
    ensures n < |ApplyAll(clauses, l, ops).captured| && ApplyAll(clauses, l, ops).captured[n] == l.captured[n]
    decreases |ops|
  {
    if ops != [] {
      assert ops[0].Collect? ==> n in ops[0].keep;
      CapturesPersist(clauses, Apply(clauses, l, ops[0]), ops[1..], n);
    }
  }

  /** So it can be resumed any number of times: each resumption runs the same
      frames, then those of the call site. */
  lemma ResumeAnyNumberOfTimes(clauses: seq<Str>, l: Lists, ops: seq<Op>, n: nat)
    requires l.Valid() && LegalRun(clauses, l, ops) && KeptBy(ops, n)
    requires n < |l.captured| && l.captured[n].Some?
    ensures var after := ApplyAll(clauses, l, ops);
      Legal(after, Resume(n)) && Apply(clauses, after, Resume(n)).Top() == l.captured[n].value + after.Top()
  {
    CapturesPersist(clauses, l, ops, n);
  }

  /** Resuming at once, from where the clause body starts, restores the frames
      exactly when the innermost handler is the one that matched: the cut drops
      every frame between a non-matching inner handler and the matching one. */
  lemma PerformThenResume(clauses: seq<Str>, l: Lists, effect: Str)
    requires l.Valid() && First(clauses, AtClause(effect), l.Top()) < |l.Top()|
    ensures var after := Apply(clauses, l, Perform(effect));
      && Legal(after, Resume(|l.captured|))
      && (Apply(clauses, after, Resume(|l.captured|)).Top() == l.Top()
          <==> Handles(clauses, l.Top()[First(clauses, AtHandler, l.Top())], effect))
  {
    ClauseIsHandler(clauses, effect, l.Top());
    var cut, hit := First(clauses, AtHandler, l.Top()), First(clauses, AtClause(effect), l.Top());
    assert Stops(clauses, AtClause(effect), l.Top()[cut]) <==> cut == hit;
    assert cut == hit ==> l.Top()[..cut + 1] + l.Top()[hit + 1..] == l.Top();
  }

  // ---------- What unwinding leaves ----------

  /** The first stop is where a list splits into frames that are no stop, one that
      is, and the rest. */
  lemma {:induction false} FirstSplits(clauses: seq<Str>, stop: Stop, inner: seq<Frame>, f: Frame, outer: seq<Frame>)
    requires Stops(clauses, stop, f) && forall i :: 0 <= i < |inner| ==> !Stops(clauses, stop, inner[i])
    ensures First(clauses, stop, inner + [f] + outer) == |inner|
  {
    var fs := inner + [f] + outer;
    if inner != [] {
      assert fs[1..] == inner[1..] + [f] + outer;
      FirstSplits(clauses, stop, inner[1..], f, outer);
    }
  }

  /** `return` leaves exactly what is outside the innermost call. */
  lemma ReturnLeaves(clauses: seq<Str>, l: Lists, inner: seq<Frame>, f: Frame, outer: seq<Frame>)
    requires l.Valid() && l.Top() == inner + [f] + outer
    requires f.ReturnK? && forall i :: 0 <= i < |inner| ==> !inner[i].ReturnK?
    ensures Apply(clauses, l, Return).Top() == outer
  {
    FirstSplits(clauses, AtReturn, inner, f, outer);
    assert l.Top()[|inner| + 1..] == outer;
  }

  /** `break` leaves exactly what is outside the innermost loop, and `continue` puts
      that loop back at its head: its test, or a for loop's update if it has one. */
  lemma LoopExits(clauses: seq<Str>, l: Lists, inner: seq<Frame>, f: Frame, outer: seq<Frame>)
    requires l.Valid() && l.Top() == inner + [f] + outer
    requires f.IsLoop() && forall i :: 0 <= i < |inner| ==> !inner[i].IsLoop()
    ensures Apply(clauses, l, Break).Top() == outer
    ensures f.WhileK? || f.WhileBodyK? ==>
              Apply(clauses, l, Continue).Top() == [WhileK(f.test, f.body, f.env)] + outer
    ensures !f.WhileK? && !f.WhileBodyK? && f.update != NONE ==>
              Apply(clauses, l, Continue).Top() == [ForUpdateK(f.test, f.update, f.body, f.env)] + outer
    ensures !f.WhileK? && !f.WhileBodyK? && f.update == NONE ==>
              Apply(clauses, l, Continue).Top() == [ForTestK(f.test, NONE, f.body, f.env)] + outer
  {
    FirstSplits(clauses, AtLoop, inner, f, outer);
    assert l.Top()[|inner| + 1..] == outer;
  }

  /** A frame handles an effect when one of its own clauses is for that effect. */
  ghost predicate HasClause(clauses: seq<Str>, f: Frame, effect: Str) {
    f.HandlerK? && f.start + f.count <= |clauses| && effect in clauses[f.start..f.start + f.count]
  }

  /** Performing an effect captures the frames from the innermost out to and with
      the innermost handler of any effect, and goes on outside the innermost
      handler of this one. */
  lemma PerformSplits(
      clauses: seq<Str>, l: Lists, effect: Str, near: seq<Frame>, h: Frame, between: seq<Frame>, f: Frame,
      outer: seq<Frame>)
    requires l.Valid() && l.Top() == near + [h] + between + [f] + outer
    requires h.HandlerK? && forall i :: 0 <= i < |near| ==> !near[i].HandlerK?
    requires !Handles(clauses, h, effect) && HasClause(clauses, f, effect)
    requires forall i :: 0 <= i < |between| ==> !Handles(clauses, between[i], effect)
    ensures Apply(clauses, l, Perform(effect)) ==
      l.WithTop(outer).(captured := l.captured + [Some(near + [h])])
  {
    hide HasClause;
    ClauseHandles(clauses, f, effect);
    var inner := near + [h] + between;
    forall i | 0 <= i < |inner| ensures !Stops(clauses, AtClause(effect), inner[i]) {
      NotHandler(clauses, inner[i], effect);
    }
    FirstSplits(clauses, AtClause(effect), inner, f, outer);
    assert l.Top() == near + [h] + (between + [f] + outer);
    FirstSplits(clauses, AtHandler, near, h, between + [f] + outer);
    assert l.Top()[|inner| + 1..] == outer && l.Top()[..|near| + 1] == near + [h];
  }

  lemma NotHandler(clauses: seq<Str>, f: Frame, effect: Str)
    ensures !f.HandlerK? ==> !Handles(clauses, f, effect)
  {
  }

  /** The same when the innermost handler is the one. */
  lemma PerformNear(
      clauses: seq<Str>, l: Lists, effect: Str, near: seq<Frame>, f: Frame, outer: seq<Frame>)
    requires l.Valid() && l.Top() == near + [f] + outer
    requires HasClause(clauses, f, effect) && forall i :: 0 <= i < |near| ==> !near[i].HandlerK?
    ensures Apply(clauses, l, Perform(effect)) ==
      l.WithTop(outer).(captured := l.captured + [Some(near + [f])])
  {
    hide HasClause;
    ClauseHandles(clauses, f, effect);
    FirstSplits(clauses, AtClause(effect), near, f, outer);
    FirstSplits(clauses, AtHandler, near, f, outer);
    assert l.Top()[|near| + 1..] == outer && l.Top()[..|near| + 1] == near + [f];
  }

  /** Without a handler of the effect nothing changes: it is the scheduler's. */
  lemma PerformUnhandled(clauses: seq<Str>, l: Lists, effect: Str)
    requires l.Valid() && forall i :: 0 <= i < |l.Top()| ==> !Handles(clauses, l.Top()[i], effect)
    ensures Apply(clauses, l, Perform(effect)) == l
  {
  }

  lemma ClauseHandles(clauses: seq<Str>, f: Frame, effect: Str)
    requires HasClause(clauses, f, effect)
    ensures Handles(clauses, f, effect) && f.HandlerK?
  {
    var i :| 0 <= i < f.count && clauses[f.start..f.start + f.count][i] == effect;
    assert clauses[f.start + i] == effect;
  }
}
