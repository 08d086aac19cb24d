/** A whole runtime as bytes (src/snapshot.rs:343-657, 1987-2292): reading back
    what was written restores it, with no fiber selected and failures reduced to
    their messages. */
module Image {
  import opened Values
  import opened Boundary
  import opened Fuel
  import opened Fibers
  import opened Bytes
  import opened HostCodec
  import opened SnapshotCodec

  // ---------- Maps, written in some order ----------

  function FromPairs<K(==), V>(ps: seq<(K, V)>): map<K, V> {
    if ps == [] then map[]
    else var last := ps[|ps| - 1]; FromPairs(ps[..|ps| - 1])[last.0 := last.1]
  }

  ghost predicate Listing<K, V>(ps: seq<(K, V)>, m: map<K, V>) {
    && W32(|ps|) && FromPairs(ps) == m
    && forall i :: 0 <= i < |ps| ==> ps[i].0 in m && m[ps[i].0] == ps[i].1
  }

  /** The string pool, and the orders in which hash maps happen to be visited. */
  datatype Context = Context(
    pool: Pool,
    values: map<Str, JSValue> -> seq<(Str, JSValue)>,
    waiters: map<FiberId, seq<FiberId>> -> seq<(FiberId, seq<FiberId>)>,
    effects: map<Str, EffectKind> -> seq<(Str, EffectKind)>)

  ghost predicate Ordered(cx: Context, m: map<Str, JSValue>) {
    Listing(cx.values(m), m)
  }

  ghost predicate BindingsFit(cx: Context, m: map<Str, JSValue>) {
    Ordered(cx, m) && forall k :: k in m ==> k in cx.pool && ValueFits(cx.pool, m[k])
  }

  function PutBindings(cx: Context, m: map<Str, JSValue>, rest: seq<u8>): (b: seq<u8>)
    ensures PoolOk(cx.pool) && BindingsFit(cx, m) ==> GetBindings(cx.pool, b) == Got(m, rest)
  {
    PutPairs(cx.pool, cx.values(m), rest)
  }

  function GetBindings(pool: Pool, b: seq<u8>): Read<map<Str, JSValue>> {
    var ps :- GetPairs(pool, b);
    Got(FromPairs(ps.0), ps.1)
  }

  // ---------- Heap slots ----------

  ghost predicate OptFits(v: Option<nat>) {
    v.Some? ==> W32(v.value)
  }

  ghost predicate KindFits(pool: Pool, k: ObjectKind) {
    match k
    case ArrayData(els) => ValuesFit(pool, els)
    case Closure(data) =>
      && W32(data.paramsStart) && W16(data.paramsCount) && W32(data.body) && OptFits(data.exprBody) && W32(data.env)
      && (data.name.Some? ==> data.name.value in pool)
    case BoundFunction(target, thisArg, args) => W32(target) && ValueFits(pool, thisArg) && ValuesFit(pool, args)
    case _ => true
  }

  ghost predicate ObjFits(cx: Context, o: Obj) {
    BindingsFit(cx, o.properties) && OptFits(o.prototype) && KindFits(cx.pool, o.kind)
  }

  const NATIVES: seq<NativeFn> :=
    [MathFloor, MathCeil, MathRound, MathAbs, MathSqrt, MathPow, MathMin, MathMax, MathSin, MathCos, MathLog, MathExp,
     MathTrunc, MathSign]

  function NativeTag(f: NativeFn): (t: u8)
    ensures t < |NATIVES| && NATIVES[t] == f
  {
    match f
    case MathFloor => 0
    case MathCeil => 1
    case MathRound => 2
    case MathAbs => 3
    case MathSqrt => 4
    case MathPow => 5
    case MathMin => 6
    case MathMax => 7
    case MathSin => 8
    case MathCos => 9
    case MathLog => 10
    case MathExp => 11
    case MathTrunc => 12
    case MathSign => 13
  }

  function PutOptName(pool: Pool, name: Option<Str>, rest: seq<u8>): (b: seq<u8>)
    ensures PoolOk(pool) && (name.Some? ==> name.value in pool) ==> GetOptName(pool, b) == Got(name, rest)
  {
    match name
    case Some(s) => PutBool(true, PutName(pool, s, rest))
    case None => PutBool(false, rest)
  }

  function GetOptName(pool: Pool, b: seq<u8>): Read<Option<Str>> {
    var some :- GetBool(b);
    if some.0 then var s :- GetName(pool, some.1); Got(Some(s.0), s.1) else Got(None, some.1)
  }

  function PutFunction(pool: Pool, f: FunctionData, rest: seq<u8>): (b: seq<u8>)
    ensures PoolOk(pool) && KindFits(pool, Closure(f)) ==> GetFunction(pool, b) == Got(f, rest)
  {
    PutU32(f.paramsStart, PutU16(f.paramsCount, PutU32(f.body,
      PutOpt(f.exprBody, PutU32(f.env, PutOptName(pool, f.name, rest))))))
  }

  function GetFunction(pool: Pool, b: seq<u8>): Read<FunctionData> {
    var start :- GetU32(b);
    var count :- GetU16(start.1);
    var body :- GetU32(count.1);
    var expr :- GetOpt(body.1);
    var env :- GetU32(expr.1);
    var name :- GetOptName(pool, env.1);
    Got(FunctionData(start.0, count.0, body.0, expr.0, env.0, name.0), name.1)
  }

  function PutKind(pool: Pool, k: ObjectKind, rest: seq<u8>): (b: seq<u8>)
    ensures PoolOk(pool) && KindFits(pool, k) ==> GetKind(pool, b) == Got(k, rest)
  {
    match k
    case Ordinary => PutU8(0, rest)
    case ArrayData(els) => PutU8(1, PutValues(pool, els, rest))
    case Closure(data) => PutU8(2, PutFunction(pool, data, rest))
    case BoundFunction(target, thisArg, args) =>
      PutU8(3, PutU32(target, PutValue(pool, thisArg, PutValues(pool, args, rest))))
    case Native(native) => PutU8(4, PutU8(NativeTag(native), rest))
  }

  function GetKind(pool: Pool, b: seq<u8>): Read<ObjectKind> {
    var tag :- GetU8(b);
    match tag.0
    case 0 => Got(Ordinary, tag.1)
    case 1 => var els :- GetValues(pool, tag.1); Got(ArrayData(els.0), els.1)
    case 2 => var data :- GetFunction(pool, tag.1); Got(Closure(data.0), data.1)
    case 3 =>
      var target :- GetU32(tag.1);
      var thisArg :- GetValue(pool, target.1);
      var args :- GetValues(pool, thisArg.1);
      Got(BoundFunction(target.0, thisArg.0, args.0), args.1)
    case 4 =>
      var native :- GetU8(tag.1);
      if native.0 < |NATIVES| then Got(Native(NATIVES[native.0]), native.1) else Bad(BadTag)
    case _ => Bad(BadTag)
  }

  function PutObj(cx: Context, o: Obj, rest: seq<u8>): (b: seq<u8>)
    ensures PoolOk(cx.pool) && ObjFits(cx, o) ==> GetObj(cx.pool, b) == Got(o, rest)
  {
    PutBindings(cx, o.properties, PutOpt(o.prototype, PutKind(cx.pool, o.kind, rest)))
  }

  function GetObj(pool: Pool, b: seq<u8>): Read<Obj> {
    var properties :- GetBindings(pool, b);
    var prototype :- GetOpt(properties.1);
    var kind :- GetKind(pool, prototype.1);
    Got(Obj(properties.0, prototype.0, kind.0), kind.1)
  }

  ghost predicate EnvFits(cx: Context, e: Env) {
    BindingsFit(cx, e.bindings) && OptFits(e.parent)
  }

  function PutEnv(cx: Context, e: Env, rest: seq<u8>): (b: seq<u8>)
    ensures PoolOk(cx.pool) && EnvFits(cx, e) ==> GetEnv(cx.pool, b) == Got(e, rest)
  {
    PutBindings(cx, e.bindings, PutOpt(e.parent, rest))
  }

  function GetEnv(pool: Pool, b: seq<u8>): Read<Env> {
    var bindings :- GetBindings(pool, b);
    var parent :- GetOpt(bindings.1);
    Got(Env(bindings.0, parent.0), parent.1)
  }

  ghost predicate HandlerFits(pool: Pool, h: HandlerData) {
    W32(h.start) && W16(h.count) && h.returnParam in pool && W32(h.returnBody) && W32(h.env)
  }

  function PutHandler(pool: Pool, h: HandlerData, rest: seq<u8>): (b: seq<u8>)
    ensures PoolOk(pool) && HandlerFits(pool, h) ==> GetHandler(pool, b) == Got(h, rest)
  {
    PutU32(h.start, PutU16(h.count, PutName(pool, h.returnParam, PutU32(h.returnBody, PutU32(h.env, rest)))))
  }

  function GetHandler(pool: Pool, b: seq<u8>): Read<HandlerData> {
    var start :- GetU32(b);
    var count :- GetU16(start.1);
    var param :- GetName(pool, count.1);
    var x :- GetTwo(param.1);
    Got(HandlerData(start.0, count.0, param.0, x.0.0, x.0.1), x.1)
  }

  ghost predicate IdsFit(ids: seq<nat>) {
    W32(|ids|) && forall i :: 0 <= i < |ids| ==> W32(ids[i])
  }

  function PutIds(ids: seq<nat>, rest: seq<u8>): (b: seq<u8>)
    ensures IdsFit(ids) ==> GetIds(b) == Got(ids, rest)
  {
    IdsBack(ids, rest);
    PutSeq(PutU32, ids, rest)
  }

  function GetIds(b: seq<u8>): Read<seq<nat>> {
    GetSeq(GetU32, b)
  }

  lemma IdsBack(ids: seq<nat>, rest: seq<u8>)
    ensures IdsFit(ids) ==> GetIds(PutSeq(PutU32, ids, rest)) == Got(ids, rest)
  {
    hide GetU32;
    if IdsFit(ids) { SeqBack(PutU32, GetU32, ids, ids, rest); }
  }

  /** Slots, free list, allocation count. */
  function PutSlab<T>(put: (T, seq<u8>) -> seq<u8>, a: Slab<T>, rest: seq<u8>): seq<u8> {
    PutSeq(put, a.data, PutIds(a.free, PutU64(a.allocations, rest)))
  }

  function GetSlab<T>(get: seq<u8> -> Read<T>, b: seq<u8>): Read<Slab<T>> {
    var data :- GetSeq(get, b);
    var free :- GetIds(data.1);
    var allocations :- GetU64(free.1);
    Got(Slab(data.0, free.0, allocations.0), allocations.1)
  }

  ghost predicate SlabFits<T>(a: Slab<T>) {
    W32(|a.data|) && IdsFit(a.free) && W64(a.allocations)
  }

  lemma SlabBack<T(!new)>(put: (T, seq<u8>) -> seq<u8>, get: seq<u8> -> Read<T>, a: Slab<T>, rest: seq<u8>)
    requires SlabFits(a)
    requires forall i, r :: 0 <= i < |a.data| ==> get(put(a.data[i], r)) == Got(a.data[i], r)
    ensures GetSlab(get, PutSlab(put, a, rest)) == Got(a, rest)
  {
    hide PutIds, PutU64, IdsFit, GetIds, GetU64;
    SeqBack(put, get, a.data, a.data, PutIds(a.free, PutU64(a.allocations, rest)));
  }

  ghost predicate HeapFits(cx: Context, h: Heap) {
    && SlabFits(h.objects) && (forall i :: 0 <= i < |h.objects.data| ==> ObjFits(cx, h.objects.data[i]))
    && SlabFits(h.envs) && (forall i :: 0 <= i < |h.envs.data| ==> EnvFits(cx, h.envs.data[i]))
    && SlabFits(h.conts) && (forall i :: 0 <= i < |h.conts.data| ==> KontFits(cx.pool, h.conts.data[i]))
    && SlabFits(h.handlers) && (forall i :: 0 <= i < |h.handlers.data| ==> HandlerFits(cx.pool, h.handlers.data[i]))
    && BindingsFit(cx, h.globals)
  }

  function PutArenas(cx: Context, h: Heap, rest: seq<u8>): seq<u8> {
    PutSlab((o, r) => PutObj(cx, o, r), h.objects,
      PutSlab((e, r) => PutEnv(cx, e, r), h.envs,
        PutSlab((k, r) => PutKont(cx.pool, k, r), h.conts,
          PutSlab((d, r) => PutHandler(cx.pool, d, r), h.handlers, rest))))
  }

  /** Both arenas with a fixed slot 0 must have it. */
  function GetArenas(pool: Pool, b: seq<u8>): Read<Heap> {
    var objects :- GetSlab(r => GetObj(pool, r), b);
    var envs :- GetSlab(r => GetEnv(pool, r), objects.1);
    var conts :- GetSlab(r => GetKont(pool, r), envs.1);
    if envs.0.data == [] || conts.0.data == [] then Bad(Malformed)
    else
      var handlers :- GetSlab(r => GetHandler(pool, r), conts.1);
      Got(Heap(objects.0, envs.0, conts.0, handlers.0, map[]), handlers.1)
  }

  lemma ArenasBack(cx: Context, h: Heap, rest: seq<u8>)
    requires PoolOk(cx.pool) && HeapFits(cx, h) && h.envs.data != [] && h.conts.data != []
    ensures GetArenas(cx.pool, PutArenas(cx, h, rest)) == Got(h.(globals := map[]), rest)
  {
    hide PoolOk, ObjFits, EnvFits, KontFits, HandlerFits, BindingsFit, SlabFits, GetObj, GetEnv, GetKont, GetHandler,
         PutSlab, GetSlab;
    var b3 := PutSlab((d, r) => PutHandler(cx.pool, d, r), h.handlers, rest);
    var b2 := PutSlab((k, r) => PutKont(cx.pool, k, r), h.conts, b3);
    var b1 := PutSlab((e, r) => PutEnv(cx, e, r), h.envs, b2);
    SlabBack((d, r) => PutHandler(cx.pool, d, r), r => GetHandler(cx.pool, r), h.handlers, rest);
    SlabBack((k, r) => PutKont(cx.pool, k, r), r => GetKont(cx.pool, r), h.conts, b3);
    SlabBack((e, r) => PutEnv(cx, e, r), r => GetEnv(cx.pool, r), h.envs, b2);
    SlabBack((o, r) => PutObj(cx, o, r), r => GetObj(cx.pool, r), h.objects, b1);
  }

  // ---------- Fibers ----------

  /** A failure is saved as its message. */
  function Saved(s: FiberStatus): FiberStatus {
    match s
    case Failed(e) => Failed(Message(Display(e)))
    case _ => s
  }

  ghost predicate Shallow(s: FiberStatus) {
    s.BlockedOnHost? ==> forall i :: 0 <= i < |s.args| ==> Height(s.args[i]) <= MAX_HOST_VALUE_DEPTH
  }

  ghost predicate StatusFits(pool: Pool, s: FiberStatus) {
    match s
    case BlockedOnHost(effect, args) =>
      effect in pool && W32(|args|) && forall i :: 0 <= i < |args| ==> Good(args[i])
    case Completed(v) => ValueFits(pool, v)
    case Failed(e) => GoodStr(Display(e))
    case _ => true
  }

  function PutHosts(args: seq<HostValue>, rest: seq<u8>): seq<u8> {
    PutSeq(PutHost, args, rest)
  }

  function GetHosts(b: seq<u8>): Read<seq<HostValue>> {
    GetSeq(GetHost, b)
  }

  /** Host arguments come back exactly when none is nested beyond the cap. */
  lemma HostsBack(args: seq<HostValue>, rest: seq<u8>)
    requires W32(|args|) && forall i :: 0 <= i < |args| ==> Good(args[i])
    ensures GetHosts(PutHosts(args, rest)) ==
      if forall i :: 0 <= i < |args| ==> Height(args[i]) <= MAX_HOST_VALUE_DEPTH then Got(args, rest) else Bad(TooDeep)
  {
    hide GetHost, Good, Height;
    if forall i :: 0 <= i < |args| ==> Height(args[i]) <= MAX_HOST_VALUE_DEPTH {
      SeqBack(PutHost, GetHost, args, args, rest);
    } else {
      var i := FirstDeep(args);
      SeqFails(PutHost, GetHost, args, i, TooDeep, rest);
    }
  }

  lemma {:induction false} FirstDeep(args: seq<HostValue>) returns (i: nat)
    requires exists i :: 0 <= i < |args| && Height(args[i]) > MAX_HOST_VALUE_DEPTH
    ensures i < |args| && Height(args[i]) > MAX_HOST_VALUE_DEPTH
    ensures forall j :: 0 <= j < i ==> Height(args[j]) <= MAX_HOST_VALUE_DEPTH
  {
    if Height(args[0]) > MAX_HOST_VALUE_DEPTH {
      i := 0;
    } else {
      var k :| 0 <= k < |args| && Height(args[k]) > MAX_HOST_VALUE_DEPTH;
      assert args[1..][k - 1] == args[k];
      i := FirstDeep(args[1..]);
      i := i + 1;
    }
  }

  function PutStatus(pool: Pool, s: FiberStatus, rest: seq<u8>): seq<u8> {
    match s
    case Ready => PutU8(0, rest)
    case Running => PutU8(1, rest)
    case Completed(v) => PutU8(3, PutValue(pool, v, rest))
    case Failed(e) => PutU8(4, PutStr(Display(e), rest))
    case BlockedOnHost(effect, args) => PutU8(5, PutName(pool, effect, PutHosts(args, rest)))
  }

  function GetStatus(pool: Pool, b: seq<u8>): Read<FiberStatus> {
    var tag :- GetU8(b);
    match tag.0
    case 0 => Got(Ready, tag.1)
    case 1 => Got(Running, tag.1)
    case 3 => var v :- GetValue(pool, tag.1); Got(Completed(v.0), v.1)
    case 4 => var m :- ReadStr(tag.1); Got(Failed(Message(m.0)), m.1)
    case 5 =>
      var effect :- GetName(pool, tag.1);
      var args :- GetHosts(effect.1);
      Got(BlockedOnHost(effect.0, args.0), args.1)
    case _ => Bad(BadTag)
  }

  lemma BlockedBack(pool: Pool, s: FiberStatus, rest: seq<u8>)
    requires PoolOk(pool) && StatusFits(pool, s) && s.BlockedOnHost?
    ensures GetStatus(pool, PutStatus(pool, s, rest)) == if Shallow(s) then Got(Saved(s), rest) else Bad(TooDeep)
  {
    hide PoolOk, GetHosts, PutHosts, GetValue, GetName, ReadStr, Good, Height;
    HostsBack(s.args, rest);
  }

  lemma StatusBack(pool: Pool, s: FiberStatus, rest: seq<u8>)
    requires PoolOk(pool) && StatusFits(pool, s)
    ensures GetStatus(pool, PutStatus(pool, s, rest)) == if Shallow(s) then Got(Saved(s), rest) else Bad(TooDeep)
  {
    hide PoolOk, GetHosts, PutHosts, GetValue, GetName, ReadStr, GoodStr, Display, Good;
    if s.BlockedOnHost? {
      BlockedBack(pool, s, rest);
    }
  }

  ghost predicate FiberFits(pool: Pool, f: Fiber) {
    && W32(f.id) && ControlFits(pool, f.regs.control) && W32(f.regs.cont) && W32(f.regs.env)
    && StatusFits(pool, f.status) && W32(f.meter)
  }

  function SavedFiber(f: Fiber): Fiber {
    f.(status := Saved(f.status))
  }

  function PutFiber(pool: Pool, f: Fiber, rest: seq<u8>): seq<u8> {
    PutU32(f.id, PutControl(pool, f.regs.control, PutU32(f.regs.cont, PutU32(f.regs.env,
      PutStatus(pool, f.status, PutU32(f.meter, rest))))))
  }

  function GetFiber(pool: Pool, b: seq<u8>): Read<Fiber> {
    var id :- GetU32(b);
    var control :- GetControl(pool, id.1);
    var links :- GetTwo(control.1);
    var status :- GetStatus(pool, links.1);
    var meter :- GetU32(status.1);
    Got(Fiber(id.0, Regs(control.0, links.0.0, links.0.1), status.0, meter.0), meter.1)
  }

  lemma FiberBack(pool: Pool, f: Fiber, rest: seq<u8>)
    requires PoolOk(pool) && FiberFits(pool, f)
    ensures GetFiber(pool, PutFiber(pool, f, rest)) ==
      if Shallow(f.status) then Got(SavedFiber(f), rest) else Bad(TooDeep)
  {
    hide PoolOk, GetControl, ControlFits, GetStatus, PutStatus, StatusFits, Shallow;
    StatusBack(pool, f.status, PutU32(f.meter, rest));
  }

  ghost predicate AllShallow(fs: seq<Fiber>) {
    forall i :: 0 <= i < |fs| ==> Shallow(fs[i].status)
  }

  function SavedFibers(fs: seq<Fiber>): seq<Fiber> {
    seq(|fs|, i requires 0 <= i < |fs| => SavedFiber(fs[i]))
  }

  ghost predicate FibersFit(pool: Pool, fs: seq<Fiber>) {
    W32(|fs|) && forall i :: 0 <= i < |fs| ==> FiberFits(pool, fs[i])
  }

  function PutFibers(pool: Pool, fs: seq<Fiber>, rest: seq<u8>): seq<u8> {
    PutSeq((f, r) => PutFiber(pool, f, r), fs, rest)
  }

  function GetFibers(pool: Pool, b: seq<u8>): Read<seq<Fiber>> {
    GetSeq(r => GetFiber(pool, r), b)
  }

  lemma FibersBack(pool: Pool, fs: seq<Fiber>, rest: seq<u8>)
    requires PoolOk(pool) && FibersFit(pool, fs)
    ensures GetFibers(pool, PutFibers(pool, fs, rest)) ==
      if AllShallow(fs) then Got(SavedFibers(fs), rest) else Bad(TooDeep)
  {
    hide PoolOk, GetFiber, PutFiber, FiberFits, Shallow;
    forall i, r | 0 <= i < |fs|
      ensures GetFiber(pool, PutFiber(pool, fs[i], r)) ==
        if Shallow(fs[i].status) then Got(SavedFiber(fs[i]), r) else Bad(TooDeep)
    {
      FiberBack(pool, fs[i], r);
    }
    if AllShallow(fs) {
      SeqBack((f, r) => PutFiber(pool, f, r), r => GetFiber(pool, r), fs, SavedFibers(fs), rest);
    } else {
      var i := FirstDeepFiber(fs);
      SeqFails((f, r) => PutFiber(pool, f, r), r => GetFiber(pool, r), fs, i, TooDeep, rest);
    }
  }

  lemma {:induction false} FirstDeepFiber(fs: seq<Fiber>) returns (i: nat)
    requires !AllShallow(fs)
    ensures i < |fs| && !Shallow(fs[i].status) && forall j :: 0 <= j < i ==> Shallow(fs[j].status)
  {
    hide Shallow;
    if !Shallow(fs[0].status) {
      i := 0;
    } else {
      var k :| 0 <= k < |fs| && !Shallow(fs[k].status);
      assert fs[1..][k - 1] == fs[k];
      i := FirstDeepFiber(fs[1..]);
      i := i + 1;
    }
  }

  // ---------- Scheduler bookkeeping ----------

  ghost predicate WaitersFit(cx: Context, w: map<FiberId, seq<FiberId>>) {
    Listing(cx.waiters(w), w) && forall id :: id in w ==> W32(id) && IdsFit(w[id])
  }

  function PutWaitList(x: (FiberId, seq<FiberId>), rest: seq<u8>): (b: seq<u8>)
    ensures W32(x.0) && IdsFit(x.1) ==> GetWaitList(b) == Got(x, rest)
  {
    PutU32(x.0, PutIds(x.1, rest))
  }

  function GetWaitList(b: seq<u8>): Read<(FiberId, seq<FiberId>)> {
    var id :- GetU32(b);
    var ids :- GetIds(id.1);
    Got((id.0, ids.0), ids.1)
  }

  function PutWaiters(cx: Context, w: map<FiberId, seq<FiberId>>, rest: seq<u8>): (b: seq<u8>)
    ensures WaitersFit(cx, w) ==> GetWaiters(b) == Got(w, rest)
  {
    WaitersBack(cx, w, rest);
    PutSeq(PutWaitList, cx.waiters(w), rest)
  }

  function GetWaiters(b: seq<u8>): Read<map<FiberId, seq<FiberId>>> {
    var ps :- GetSeq(GetWaitList, b);
    Got(FromPairs(ps.0), ps.1)
  }

  lemma WaitersBack(cx: Context, w: map<FiberId, seq<FiberId>>, rest: seq<u8>)
    ensures WaitersFit(cx, w) ==> GetWaiters(PutSeq(PutWaitList, cx.waiters(w), rest)) == Got(w, rest)
  {
    hide GetWaitList, IdsFit;
    if WaitersFit(cx, w) { SeqBack(PutWaitList, GetWaitList, cx.waiters(w), cx.waiters(w), rest); }
  }

  function EffectTag(k: EffectKind): u8 {
    match k
    case Builtin(Print) => 0
    case Builtin(Fork) => 1
    case Builtin(Join) => 2
    case Builtin(Gc) => 3
    case Builtin(Snapshot) => 4
    case Host => 5
  }

  function PutGrant(pool: Pool, x: (Str, EffectKind), rest: seq<u8>): (b: seq<u8>)
    ensures PoolOk(pool) && x.0 in pool ==> GetGrant(pool, b) == Got(x, rest)
  {
    PutName(pool, x.0, PutU8(EffectTag(x.1), rest))
  }

  function GetGrant(pool: Pool, b: seq<u8>): Read<(Str, EffectKind)> {
    var name :- GetName(pool, b);
    var tag :- GetU8(name.1);
    match tag.0
    case 0 => Got((name.0, Builtin(Print)), tag.1)
    case 1 => Got((name.0, Builtin(Fork)), tag.1)
    case 2 => Got((name.0, Builtin(Join)), tag.1)
    case 3 => Got((name.0, Builtin(Gc)), tag.1)
    case 4 => Got((name.0, Builtin(Snapshot)), tag.1)
    case 5 => Got((name.0, Host), tag.1)
    case _ => Bad(BadTag)
  }

  ghost predicate GrantsFit(cx: Context, g: map<Str, EffectKind>) {
    Listing(cx.effects(g), g) && forall k :: k in g ==> k in cx.pool
  }

  function PutGrants(cx: Context, g: map<Str, EffectKind>, rest: seq<u8>): (b: seq<u8>)
    ensures PoolOk(cx.pool) && GrantsFit(cx, g) ==> GetGrants(cx.pool, b) == Got(g, rest)
  {
    GrantsBack(cx, g, rest);
    PutSeq((x, r) => PutGrant(cx.pool, x, r), cx.effects(g), rest)
  }

  function GetGrants(pool: Pool, b: seq<u8>): Read<map<Str, EffectKind>> {
    var ps :- GetSeq(r => GetGrant(pool, r), b);
    Got(FromPairs(ps.0), ps.1)
  }

  lemma GrantsBack(cx: Context, g: map<Str, EffectKind>, rest: seq<u8>)
    ensures PoolOk(cx.pool) && GrantsFit(cx, g) ==>
      GetGrants(cx.pool, PutSeq((x, r) => PutGrant(cx.pool, x, r), cx.effects(g), rest)) == Got(g, rest)
  {
    hide GetGrant, PoolOk;
    if PoolOk(cx.pool) && GrantsFit(cx, g) {
      SeqBack((x, r) => PutGrant(cx.pool, x, r), r => GetGrant(cx.pool, r), cx.effects(g), cx.effects(g), rest);
    }
  }

  function PutMeter(m: Meter, rest: seq<u8>): (b: seq<u8>)
    ensures OptFits(m.parent) ==> GetMeter(b) == Got(m, rest)
  {
    match m.remaining
    case Some(n) => PutBool(true, PutU64(n, PutOpt(m.parent, rest)))
    case None => PutBool(false, PutOpt(m.parent, rest))
  }

  function GetMeter(b: seq<u8>): Read<Meter> {
    var some :- GetBool(b);
    if some.0 then
      var n :- GetU64(some.1);
      var parent :- GetOpt(n.1);
      Got(Meter(Some(n.0), parent.0), parent.1)
    else
      var parent :- GetOpt(some.1);
      Got(Meter(None, parent.0), parent.1)
  }

  ghost predicate MetersFit(ms: seq<Meter>) {
    W32(|ms|) && forall i :: 0 <= i < |ms| ==> OptFits(ms[i].parent)
  }

  function PutMeters(ms: seq<Meter>, rest: seq<u8>): (b: seq<u8>)
    ensures MetersFit(ms) ==> GetSeq(GetMeter, b) == Got(ms, rest)
  {
    MetersBack(ms, rest);
    PutSeq(PutMeter, ms, rest)
  }

  lemma MetersBack(ms: seq<Meter>, rest: seq<u8>)
    ensures MetersFit(ms) ==> GetSeq(GetMeter, PutSeq(PutMeter, ms, rest)) == Got(ms, rest)
  {
    hide GetMeter;
    if MetersFit(ms) { SeqBack(PutMeter, GetMeter, ms, ms, rest); }
  }

  /** Carving appends children after their parent; anything else is refused. */
  predicate ParentsPrecede(ms: seq<Meter>) {
    forall i :: 0 <= i < |ms| && ms[i].parent.Some? ==> ms[i].parent.value < i
  }

  // ---------- The whole runtime ----------

  const MAGIC: seq<u8> := [0x4B, 0x52, 0x48, 0x54]
  const VERSION: u8 := 3

  ghost predicate StateFits(cx: Context, s: State) {
    && PoolOk(cx.pool) && HeapFits(cx, s.heap) && RegistersFit(cx, s) && FibersFit(cx.pool, s.fibers)
    && QueuesFit(cx, s) && W64(s.steps)
  }

  /** What read_runtime demands of a state. */
  predicate Sane(s: State) {
    && s.heap.envs.data != [] && s.heap.conts.data != []
    && s.meters != [] && ParentsPrecede(s.meters)
    && (forall i :: 0 <= i < |s.fibers| ==> s.fibers[i].meter < |s.meters|)
    && s.quantum > 0
  }

  /** write_runtime; the syntax tree's section is not modelled. */
  function PutRuntime(cx: Context, s: State, ready: seq<FiberId>, rest: seq<u8>): seq<u8> {
    MAGIC + PutU8(VERSION, PutPool(cx.pool, PutArenas(cx, s.heap, PutRegisters(cx, s, PutTable(cx, s, ready, rest)))))
  }

  ghost predicate RegistersFit(cx: Context, s: State) {
    ControlFits(cx.pool, s.regs.control) && W32(s.regs.env) && W32(s.regs.cont) && BindingsFit(cx, s.heap.globals)
  }

  function PutRegisters(cx: Context, s: State, rest: seq<u8>): (b: seq<u8>)
    ensures PoolOk(cx.pool) && RegistersFit(cx, s) ==>
      GetRegisters(cx.pool, b) == Got((s.regs, s.heap.globals), rest)
  {
    PutControl(cx.pool, s.regs.control, PutU32(s.regs.env, PutU32(s.regs.cont, PutBindings(cx, s.heap.globals, rest))))
  }

  function GetRegisters(pool: Pool, b: seq<u8>): Read<(Regs, map<Str, JSValue>)> {
    var control :- GetControl(pool, b);
    var links :- GetTwo(control.1);
    var globals :- GetBindings(pool, links.1);
    Got((Regs(control.0, links.0.1, links.0.0), globals.0), globals.1)
  }

  function PutTable(cx: Context, s: State, ready: seq<FiberId>, rest: seq<u8>): seq<u8> {
    PutFibers(cx.pool, s.fibers, PutQueues(cx, s, ready, rest))
  }

  datatype Queues = Queues(
    ready: seq<FiberId>,
    nextId: nat,
    waiters: map<FiberId, seq<FiberId>>,
    effects: map<Str, EffectKind>,
    meters: seq<Meter>)

  ghost predicate QueuesFit(cx: Context, s: State) {
    W32(s.nextId) && WaitersFit(cx, s.waiters) && GrantsFit(cx, s.effects) && MetersFit(s.meters)
  }

  function PutQueues(cx: Context, s: State, ready: seq<FiberId>, rest: seq<u8>): (b: seq<u8>)
    ensures PoolOk(cx.pool) && IdsFit(ready) && QueuesFit(cx, s) ==>
      GetQueues(cx.pool, b)
      == Got(Queues(ready, s.nextId, s.waiters, s.effects, s.meters), PutU64(s.steps, PutU64(s.quantum, rest)))
  {
    PutIds(ready, PutU32(s.nextId, PutWaiters(cx, s.waiters, PutGrants(cx, s.effects,
      PutMeters(s.meters, PutU64(s.steps, PutU64(s.quantum, rest)))))))
  }

  function GetQueues(pool: Pool, b: seq<u8>): Read<Queues> {
    var ready :- GetIds(b);
    var nextId :- GetU32(ready.1);
    var waiters :- GetWaiters(nextId.1);
    var effects :- GetGrants(pool, waiters.1);
    var meters :- GetSeq(GetMeter, effects.1);
    Got(Queues(ready.0, nextId.0, waiters.0, effects.0, meters.0), meters.1)
  }

  /** read_runtime: no fiber is selected and the collector's baseline is now. */
  function GetRuntime(b: seq<u8>): Read<(Pool, State)> {
    if |b| < 4 then Bad(Truncated)
    else if b[..4] != MAGIC then Bad(BadTag)
    else
      var version :- GetU8(b[4..]);
      if version.0 != VERSION then Bad(BadTag) else GetSections(version.1)
  }

  function GetSections(b: seq<u8>): Read<(Pool, State)> {
    var pool :- GetPool(b);
    var heap :- GetArenas(pool.0, pool.1);
    var regs :- GetRegisters(pool.0, heap.1);
    var fibers :- GetFibers(pool.0, regs.1);
    var q :- GetQueues(pool.0, fibers.1);
    var steps :- GetU64(q.1);
    var quantum :- GetU64(steps.1);
    var h := heap.0.(globals := regs.0.1);
    var s := State(h, regs.0.0, fibers.0, q.0.ready, None, q.0.nextId, q.0.waiters, q.0.effects, q.0.meters,
                   quantum.0, steps.0, TotalAllocations(h));
    if Sane(s) then Got((pool.0, s), quantum.1) else Bad(Malformed)
  }

  /** The runtime a snapshot of `s` restores, with `ready` as its queue. */
  function Restored(s: State, ready: seq<FiberId>): State {
    s.(fibers := SavedFibers(s.fibers), ready := ready, current := None, allocMark := TotalAllocations(s.heap))
  }

  /** Restoring what was written succeeds exactly when no pending host argument
      is nested beyond the decoder's cap, and then gives back the pool, so every
      string id, and the state. */
  lemma RuntimeBack(cx: Context, s: State, ready: seq<FiberId>, rest: seq<u8>)
    requires StateFits(cx, s) && Sane(s) && IdsFit(ready)
    ensures GetRuntime(PutRuntime(cx, s, ready, rest)) ==
      if AllShallow(s.fibers) then Got((cx.pool, Restored(s, ready)), rest) else Bad(TooDeep)
  {
    hide PoolOk, HeapFits, RegistersFit, FibersFit, IdsFit, QueuesFit, GetPool, PutPool, GetArenas,
         PutArenas, GetRegisters, PutRegisters, GetFibers, PutFibers, GetQueues, PutQueues, AllShallow,
         TotalAllocations;
    var b4 := PutQueues(cx, s, ready, rest);
    var b3 := PutFibers(cx.pool, s.fibers, b4);
    var b2 := PutRegisters(cx, s, b3);
    var b1 := PutArenas(cx, s.heap, b2);
    var b0 := PutPool(cx.pool, b1);
    var b := PutRuntime(cx, s, ready, rest);
    assert b == MAGIC + PutU8(VERSION, b0);
    assert b[..4] == MAGIC && b[4..] == PutU8(VERSION, b0);
    PoolBack(cx.pool, b1);
    ArenasBack(cx, s.heap, b2);
    FibersBack(cx.pool, s.fibers, b4);
    assert Sane(s.(fibers := SavedFibers(s.fibers)));
  }
}
