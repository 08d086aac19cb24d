/** The snapshot codec (src/snapshot.rs): every `PutX` writes a value in front of
    the bytes that follow it, every `GetX` reads one and returns what follows.
    Strings are written as indices into the string pool. */
module SnapshotCodec {
  import opened Values
  import opened Boundary
  import opened Bytes
  import opened HostCodec

  // ---------- Primitives ----------

  predicate W16(n: nat) { n < 0x1_0000 }

  predicate W32(n: nat) { n < 0x1_0000_0000 }

  predicate W64(n: nat) { n < 0x1_0000_0000_0000_0000 }

  function PutU8(v: u8, rest: seq<u8>): (b: seq<u8>)
    ensures GetU8(b) == Got(v, rest)
  {
    [v] + rest
  }

  function GetU8(b: seq<u8>): Read<u8> {
    if b == [] then Bad(Truncated) else Got(b[0], b[1..])
  }

  function PutBool(v: bool, rest: seq<u8>): (b: seq<u8>)
    ensures GetBool(b) == Got(v, rest)
  {
    PutU8(if v then 1 else 0, rest)
  }

  function GetBool(b: seq<u8>): Read<bool> {
    var x :- GetU8(b);
    Got(x.0 != 0, x.1)
  }

  function PutU16(n: nat, rest: seq<u8>): (b: seq<u8>)
    ensures W16(n) ==> GetU16(b) == Got(n, rest)
  {
    assert Pow256(2) == 0x100 * (0x100 * Pow256(0));
    ReadLeBack(n % 0x1_0000, 2, rest);
    EncLe(n % 0x1_0000, 2) + rest
  }

  function GetU16(b: seq<u8>): Read<nat> {
    ReadLe(b, 2)
  }

  /** `as u32`. */
  function PutU32(n: nat, rest: seq<u8>): (b: seq<u8>)
    ensures W32(n) ==> GetU32(b) == Got(n, rest)
  {
    Pow256Values();
    ReadLeBack(n % 0x1_0000_0000, 4, rest);
    EncLe(n % 0x1_0000_0000, 4) + rest
  }

  function GetU32(b: seq<u8>): Read<nat> {
    ReadLe(b, 4)
  }

  function PutU64(n: nat, rest: seq<u8>): (b: seq<u8>)
    ensures W64(n) ==> GetU64(b) == Got(n, rest)
  {
    Pow256Values();
    ReadLeBack(n % 0x1_0000_0000_0000_0000, 8, rest);
    EncLe(n % 0x1_0000_0000_0000_0000, 8) + rest
  }

  function GetU64(b: seq<u8>): Read<u64> {
    var x :- ReadLe(b, 8);
    Got(x.0 % 0x1_0000_0000_0000_0000, x.1)
  }

  function PutI32(n: i32, rest: seq<u8>): (b: seq<u8>)
    ensures GetI32(b) == Got(n, rest)
  {
    hide GetU32, PutU32;
    assert BitsI32(I32Bits(n)) == n && I32Bits(n) % 0x1_0000_0000 == I32Bits(n);
    PutU32(I32Bits(n), rest)
  }

  function GetI32(b: seq<u8>): Read<i32> {
    var x :- GetU32(b);
    Got(BitsI32(x.0 % 0x1_0000_0000), x.1)
  }

  function PutStr(s: Str, rest: seq<u8>): (b: seq<u8>)
    ensures GoodStr(s) ==> ReadStr(b) == Got(s, rest)
  {
    if GoodStr(s) then ReadStrBack(s, rest); EncStr(s) + rest else EncStr(s) + rest
  }

  function PutHost(v: HostValue, rest: seq<u8>): (b: seq<u8>)
    ensures Good(v) ==> GetHost(b) == if Height(v) <= MAX_HOST_VALUE_DEPTH then Got(v, rest) else Bad(TooDeep)
  {
    PutHostBack(v, rest);
    EncHost(v) + rest
  }

  function GetHost(b: seq<u8>): Read<HostValue> {
    DecHost(b, 0, MAX_HOST_VALUE_DEPTH)
  }

  lemma PutHostBack(v: HostValue, rest: seq<u8>)
    ensures Good(v) ==>
      GetHost(EncHost(v) + rest) == (if Height(v) <= MAX_HOST_VALUE_DEPTH then Got(v, rest) else Bad(TooDeep))
  {
    if Good(v) { HostValueRoundTrip(v, rest, 0, MAX_HOST_VALUE_DEPTH); }
  }

  function PutOpt(v: Option<nat>, rest: seq<u8>): (b: seq<u8>)
    ensures (v.Some? ==> W32(v.value)) ==> GetOpt(b) == Got(v, rest)
  {
    match v
    case Some(n) => PutBool(true, PutU32(n, rest))
    case None => PutBool(false, rest)
  }

  function GetOpt(b: seq<u8>): Read<Option<nat>> {
    var some :- GetBool(b);
    if some.0 then
      var n :- GetU32(some.1);
      Got(Some(n.0), n.1)
    else Got(None, some.1)
  }

  // ---------- Counted sequences ----------

  function PutEach<T>(put: (T, seq<u8>) -> seq<u8>, xs: seq<T>, rest: seq<u8>): seq<u8> {
    if xs == [] then rest else put(xs[0], PutEach(put, xs[1..], rest))
  }

  function GetEach<T>(get: seq<u8> -> Read<T>, n: nat, b: seq<u8>): Read<seq<T>> {
    if n == 0 then Got([], b)
    else
      var x :- get(b);
      var xs :- GetEach(get, n - 1, x.1);
      Got([x.0] + xs.0, xs.1)
  }

  function PutSeq<T>(put: (T, seq<u8>) -> seq<u8>, xs: seq<T>, rest: seq<u8>): seq<u8> {
    PutU32(|xs|, PutEach(put, xs, rest))
  }

  function GetSeq<T>(get: seq<u8> -> Read<T>, b: seq<u8>): Read<seq<T>> {
    var n :- GetU32(b);
    GetEach(get, n.0, n.1)
  }

  /** Reading back a counted sequence, element by element. */
  lemma {:induction false} SeqBack<T(!new), U>(
      put: (T, seq<u8>) -> seq<u8>, get: seq<u8> -> Read<U>, xs: seq<T>, ys: seq<U>, rest: seq<u8>)
    requires |xs| == |ys|
    requires forall i, r :: 0 <= i < |xs| ==> get(put(xs[i], r)) == Got(ys[i], r)
    ensures GetEach(get, |xs|, PutEach(put, xs, rest)) == Got(ys, rest)
    ensures W32(|xs|) ==> GetSeq(get, PutSeq(put, xs, rest)) == Got(ys, rest)
    decreases |xs|
  {
    if xs != [] {
      forall i, r | 0 <= i < |xs[1..]| ensures get(put(xs[1..][i], r)) == Got(ys[1..][i], r) {
        assert xs[1..][i] == xs[i + 1] && ys[1..][i] == ys[i + 1];
      }
      SeqBack(put, get, xs[1..], ys[1..], rest);
      assert ys == [ys[0]] + ys[1..];
    }
  }

  predicate Leaves<T>(r: Read<T>, rest: seq<u8>) {
    r.Got? && r.rest == rest
  }

  /** One element that cannot be read makes the whole sequence unreadable. */
  lemma {:induction false} SeqFails<T(!new), U>(
      put: (T, seq<u8>) -> seq<u8>, get: seq<u8> -> Read<U>, xs: seq<T>, i: nat, e: DecodeError, rest: seq<u8>)
    requires i < |xs| && forall r :: get(put(xs[i], r)) == Bad(e)
    requires forall j, r :: 0 <= j < i ==> Leaves(get(put(xs[j], r)), r)
    ensures GetEach(get, |xs|, PutEach(put, xs, rest)) == Bad(e)
    ensures W32(|xs|) ==> GetSeq(get, PutSeq(put, xs, rest)) == Bad(e)
    decreases i
  {
    if i > 0 {
      assert xs[1..][i - 1] == xs[i];
      forall j, r | 0 <= j < i - 1 ensures Leaves(get(put(xs[1..][j], r)), r) {
        assert xs[1..][j] == xs[j + 1];
      }
      SeqFails(put, get, xs[1..], i - 1, e, rest);
    }
  }

  // ---------- Strings ----------

  type Pool = seq<Str>

  ghost predicate PoolOk(pool: Pool) {
    && W32(|pool|) && pool != [] && pool[0] == []
    && (forall i :: 0 <= i < |pool| ==> GoodStr(pool[i]))
    && (forall i, j :: 0 <= i < j < |pool| ==> pool[i] != pool[j])
  }

  function Intern(pool: Pool, s: Str): Pool {
    if s in pool then pool else pool + [s]
  }

  /** A new pool holds the empty string. */
  function InternAll(pool: Pool, ss: seq<Str>): Pool
    decreases |ss|
  {
    if ss == [] then pool else InternAll(Intern(pool, ss[0]), ss[1..])
  }

  /** Re-interning a pool in index order keeps every string's id. */
  lemma {:induction false} ReinternKeepsIds(pool: Pool, n: nat)
    requires PoolOk(pool) && 0 < n <= |pool|
    ensures InternAll(pool[..n], pool[n..]) == pool
    decreases |pool| - n
  {
    if n == |pool| {
      assert pool[..n] == pool;
    } else {
      forall j | 0 <= j < n ensures pool[..n][j] != pool[n] {}
      assert pool[..n] + [pool[n]] == pool[..n + 1] && pool[n..][1..] == pool[n + 1..];
      ReinternKeepsIds(pool, n + 1);
    }
  }

  function PutPool(pool: Pool, rest: seq<u8>): seq<u8> {
    PutSeq(PutStr, pool, rest)
  }

  function GetPool(b: seq<u8>): Read<Pool> {
    var ss :- GetSeq(ReadStr, b);
    Got(InternAll([[]], ss.0), ss.1)
  }

  lemma PoolBack(pool: Pool, rest: seq<u8>)
    requires PoolOk(pool)
    ensures GetPool(PutPool(pool, rest)) == Got(pool, rest)
  {
    hide ReadStr, GoodStr, PutEach;
    SeqBack(PutStr, ReadStr, pool, pool, rest);
    assert pool[..1] == [[]];
    ReinternKeepsIds(pool, 1);
    assert pool == [pool[0]] + pool[1..];
    assert Intern([[]], pool[0]) == [[]];
  }

  function IndexIn(pool: Pool, s: Str): (i: nat)
    ensures i <= |pool| && (s in pool ==> i < |pool| && pool[i] == s)
  {
    if pool == [] || pool[0] == s then 0 else 1 + IndexIn(pool[1..], s)
  }

  function PutName(pool: Pool, s: Str, rest: seq<u8>): (b: seq<u8>)
    ensures PoolOk(pool) && s in pool ==> GetName(pool, b) == Got(s, rest)
  {
    PutU32(IndexIn(pool, s), rest)
  }

  function GetName(pool: Pool, b: seq<u8>): Read<Str> {
    var n :- GetU32(b);
    if n.0 < |pool| then Got(pool[n.0], n.1) else Bad(BadTag)
  }

  // ---------- Values and controls ----------

  ghost predicate ValueFits(pool: Pool, v: JSValue) {
    match v
    case String(s) => s in pool
    case Object(o) => W32(o)
    case Function(o) => W32(o)
    case Array(o) => W32(o)
    case Handler(h) => W32(h)
    case Continuation(k, e) => W32(k) && W32(e)
    case _ => true
  }

  ghost predicate ValuesFit(pool: Pool, vs: seq<JSValue>) {
    W32(|vs|) && forall i :: 0 <= i < |vs| ==> ValueFits(pool, vs[i])
  }

  function PutValue(pool: Pool, v: JSValue, rest: seq<u8>): (b: seq<u8>)
    ensures PoolOk(pool) && ValueFits(pool, v) ==> GetValue(pool, b) == Got(v, rest)
  {
    match v
    case Undefined => PutU8(0, rest)
    case Null => PutU8(1, rest)
    case Bool(x) => PutU8(2, PutBool(x, rest))
    case Int(n) => PutU8(3, PutI32(n, rest))
    case Float(bits) => PutU8(4, PutU64(bits, rest))
    case String(s) => PutU8(5, PutName(pool, s, rest))
    case Object(o) => PutU8(6, PutU32(o, rest))
    case Function(o) => PutU8(7, PutU32(o, rest))
    case Array(o) => PutU8(8, PutU32(o, rest))
    case Handler(h) => PutU8(9, PutU32(h, rest))
    case Continuation(k, e) => PutU8(10, PutU32(k, PutU32(e, rest)))
  }

  function GetValue(pool: Pool, b: seq<u8>): Read<JSValue> {
    var tag :- GetU8(b);
    match tag.0
    case 0 => Got(Undefined, tag.1)
    case 1 => Got(Null, tag.1)
    case 2 => var x :- GetBool(tag.1); Got(Bool(x.0), x.1)
    case 3 => var n :- GetI32(tag.1); Got(Int(n.0), n.1)
    case 4 => var f :- GetU64(tag.1); Got(Float(f.0), f.1)
    case 5 => var s :- GetName(pool, tag.1); Got(String(s.0), s.1)
    case 6 => var o :- GetU32(tag.1); Got(JSValue.Object(o.0), o.1)
    case 7 => var o :- GetU32(tag.1); Got(JSValue.Function(o.0), o.1)
    case 8 => var o :- GetU32(tag.1); Got(JSValue.Array(o.0), o.1)
    case 9 => var h :- GetU32(tag.1); Got(JSValue.Handler(h.0), h.1)
    case 10 => var k :- GetU32(tag.1); var e :- GetU32(k.1); Got(Continuation(k.0, e.0), e.1)
    case _ => Bad(BadTag)
  }

  function PutValues(pool: Pool, vs: seq<JSValue>, rest: seq<u8>): (b: seq<u8>)
    ensures PoolOk(pool) && ValuesFit(pool, vs) ==> GetValues(pool, b) == Got(vs, rest)
  {
    ValuesBack(pool, vs, rest);
    PutSeq((v, r) => PutValue(pool, v, r), vs, rest)
  }

  function GetValues(pool: Pool, b: seq<u8>): Read<seq<JSValue>> {
    GetSeq(r => GetValue(pool, r), b)
  }

  lemma ValuesBack(pool: Pool, vs: seq<JSValue>, rest: seq<u8>)
    ensures PoolOk(pool) && ValuesFit(pool, vs) ==>
      GetValues(pool, PutSeq((v, r) => PutValue(pool, v, r), vs, rest)) == Got(vs, rest)
  {
    hide GetValue, PoolOk, ValueFits;
    if PoolOk(pool) && ValuesFit(pool, vs) {
      SeqBack((v, r) => PutValue(pool, v, r), r => GetValue(pool, r), vs, vs, rest);
    }
  }

  function PutPair(pool: Pool, kv: (Str, JSValue), rest: seq<u8>): (b: seq<u8>)
    ensures PoolOk(pool) && kv.0 in pool && ValueFits(pool, kv.1) ==> GetPair(pool, b) == Got(kv, rest)
  {
    PutName(pool, kv.0, PutValue(pool, kv.1, rest))
  }

  function GetPair(pool: Pool, b: seq<u8>): Read<(Str, JSValue)> {
    var k :- GetName(pool, b);
    var v :- GetValue(pool, k.1);
    Got((k.0, v.0), v.1)
  }

  ghost predicate PairsFit(pool: Pool, kvs: seq<(Str, JSValue)>) {
    W32(|kvs|) && forall i :: 0 <= i < |kvs| ==> kvs[i].0 in pool && ValueFits(pool, kvs[i].1)
  }

  function PutPairs(pool: Pool, kvs: seq<(Str, JSValue)>, rest: seq<u8>): (b: seq<u8>)
    ensures PoolOk(pool) && PairsFit(pool, kvs) ==> GetPairs(pool, b) == Got(kvs, rest)
  {
    PairsBack(pool, kvs, rest);
    PutSeq((kv, r) => PutPair(pool, kv, r), kvs, rest)
  }

  function GetPairs(pool: Pool, b: seq<u8>): Read<seq<(Str, JSValue)>> {
    GetSeq(r => GetPair(pool, r), b)
  }

  lemma PairsBack(pool: Pool, kvs: seq<(Str, JSValue)>, rest: seq<u8>)
    ensures PoolOk(pool) && PairsFit(pool, kvs) ==>
      GetPairs(pool, PutSeq((kv, r) => PutPair(pool, kv, r), kvs, rest)) == Got(kvs, rest)
  {
    hide GetPair, PoolOk, ValueFits;
    if PoolOk(pool) && PairsFit(pool, kvs) {
      SeqBack((kv, r) => PutPair(pool, kv, r), r => GetPair(pool, r), kvs, kvs, rest);
    }
  }

  ghost predicate ControlFits(pool: Pool, c: Control) {
    match c
    case Expr(e) => W32(e)
    case Stmt(s) => W32(s)
    case Value(v) => ValueFits(pool, v)
    case Returning(v) => ValueFits(pool, v)
    case Halted(v) => ValueFits(pool, v)
    case Suspend(effect, args) => effect in pool && ValuesFit(pool, args)
  }

  function PutControl(pool: Pool, c: Control, rest: seq<u8>): (b: seq<u8>)
    ensures PoolOk(pool) && ControlFits(pool, c) ==> GetControl(pool, b) == Got(c, rest)
  {
    match c
    case Expr(e) => PutU8(0, PutU32(e, rest))
    case Stmt(s) => PutU8(1, PutU32(s, rest))
    case Value(v) => PutU8(2, PutValue(pool, v, rest))
    case Returning(v) => PutU8(3, PutValue(pool, v, rest))
    case Halted(v) => PutU8(4, PutValue(pool, v, rest))
    case Suspend(effect, args) => PutU8(5, PutName(pool, effect, PutValues(pool, args, rest)))
  }

  function GetControl(pool: Pool, b: seq<u8>): Read<Control> {
    var tag :- GetU8(b);
    match tag.0
    case 0 => var e :- GetU32(tag.1); Got(Expr(e.0), e.1)
    case 1 => var s :- GetU32(tag.1); Got(Stmt(s.0), s.1)
    case 2 => var v :- GetValue(pool, tag.1); Got(Value(v.0), v.1)
    case 3 => var v :- GetValue(pool, tag.1); Got(Returning(v.0), v.1)
    case 4 => var v :- GetValue(pool, tag.1); Got(Halted(v.0), v.1)
    case 5 =>
      var effect :- GetName(pool, tag.1);
      var args :- GetValues(pool, effect.1);
      Got(Suspend(effect.0, args.0), args.1)
    case _ => Bad(BadTag)
  }

  // ---------- Frames ----------

  const UNARY_OPS: seq<UnaryOp> := [Neg, Not, BitNot, TypeOf, Plus, PreInc, PreDec, PostInc, PostDec]

  function UnaryTag(op: UnaryOp): (t: u8)
    ensures t < |UNARY_OPS| && UNARY_OPS[t] == op
  {
    match op
    case Neg => 0
    case Not => 1
    case BitNot => 2
    case TypeOf => 3
    case Plus => 4
    case PreInc => 5
    case PreDec => 6
    case PostInc => 7
    case PostDec => 8
  }

  function PutUnary(op: UnaryOp, rest: seq<u8>): (b: seq<u8>)
    ensures GetUnary(b) == Got(op, rest)
  {
    PutU8(UnaryTag(op), rest)
  }

  function GetUnary(b: seq<u8>): Read<UnaryOp> {
    var tag :- GetU8(b);
    if tag.0 < |UNARY_OPS| then Got(UNARY_OPS[tag.0], tag.1) else Bad(BadTag)
  }

  const BINARY_OPS: seq<BinaryOp> :=
    [Add, Sub, Mul, Div, Mod, Pow, Eq, Ne, Lt, Le, Gt, Ge, And, Or, BitAnd, BitOr, BitXor, Shl, Shr, UShr,
     NullishCoalesce]

  function BinaryTag(op: BinaryOp): (t: u8)
    ensures t < |BINARY_OPS| && BINARY_OPS[t] == op
  {
    match op
    case Add => 0
    case Sub => 1
    case Mul => 2
    case Div => 3
    case Mod => 4
    case Pow => 5
    case Eq => 6
    case Ne => 7
    case Lt => 8
    case Le => 9
    case Gt => 10
    case Ge => 11
    case And => 12
    case Or => 13
    case BitAnd => 14
    case BitOr => 15
    case BitXor => 16
    case Shl => 17
    case Shr => 18
    case UShr => 19
    case NullishCoalesce => 20
  }

  function PutBinary(op: BinaryOp, rest: seq<u8>): (b: seq<u8>)
    ensures GetBinary(b) == Got(op, rest)
  {
    PutU8(BinaryTag(op), rest)
  }

  function GetBinary(b: seq<u8>): Read<BinaryOp> {
    var tag :- GetU8(b);
    if tag.0 < |BINARY_OPS| then Got(BINARY_OPS[tag.0], tag.1) else Bad(BadTag)
  }

  ghost predicate FrameFits(pool: Pool, f: Frame) {
    match f
    case UnaryK(_) => true
    case BinaryLeftK(_, right, env) => W32(right) && W32(env)
    case BinaryRightK(_, left) => ValueFits(pool, left)
    case AndK(right, env) => W32(right) && W32(env)
    case OrK(right, env) => W32(right) && W32(env)
    case NullishK(right, env) => W32(right) && W32(env)
    case MemberK(property) => property in pool
    case IndexObjK(index, env) => W32(index) && W32(env)
    case IndexKeyK(obj) => ValueFits(pool, obj)
    case AssignVarK(name, env) => name in pool && W32(env)
    case UpdateVarK(name, _, _, env) => name in pool && W32(env)
    case AssignMemberObjK(property, value, env) => property in pool && W32(value) && W32(env)
    case AssignMemberValK(obj, property) => ValueFits(pool, obj) && property in pool
    case AssignIndexObjK(index, value, env) => W32(index) && W32(value) && W32(env)
    case AssignIndexKeyK(obj, value, env) => ValueFits(pool, obj) && W32(value) && W32(env)
    case AssignIndexValK(obj, key) => ValueFits(pool, obj) && ValueFits(pool, key)
    case CalleeK(start, count, env) => W32(start) && W16(count) && W32(env)
    case ArgsK(callee, done, start, idx, count, env) =>
      ValueFits(pool, callee) && ValuesFit(pool, done) && ListFits(start, idx, count, env)
    case ReturnK(env) => W32(env)
    case ReturnExprK => true
    case ArrayK(done, start, idx, count, env) => ValuesFit(pool, done) && ListFits(start, idx, count, env)
    case ObjectK(pairs, start, idx, count, env) => PairsFit(pool, pairs) && ListFits(start, idx, count, env)
    case LetK(name, env) => name in pool && W32(env)
    case ConstK(name, env) => name in pool && W32(env)
    case VarK(name, env) => name in pool && W32(env)
    case SeqK(start, idx, count, env) => W32(start) && W32(idx) && W32(count) && W32(env)
    case ExprStmtK => true
    case BlockK(start, idx, count, final, env) => W32(start) && W32(idx) && W32(count) && W32(final) && W32(env)
    case MatchK(start, idx, count, env) => ListFits(start, idx, count, env)
    case HandlerK(start, count, env, body, param) =>
      W32(start) && W16(count) && W32(env) && W32(body) && param in pool
    case PerformArgsK(effect, done, start, idx, count, env) =>
      effect in pool && ValuesFit(pool, done) && ListFits(start, idx, count, env)
    case HandleWithK(handled, env) => W32(handled) && W32(env)
    case _ => BranchFits(f)
  }

  ghost predicate BranchFits(f: Frame) {
    match f
    case IfK(t, e, env) => W32(t) && W32(e) && W32(env)
    case CondK(t, e, env) => W32(t) && W32(e) && W32(env)
    case WhileK(test, body, env) => W32(test) && W32(body) && W32(env)
    case WhileBodyK(test, body, env) => W32(test) && W32(body) && W32(env)
    case ForTestK(test, update, body, env) => W32(test) && W32(update) && W32(body) && W32(env)
    case ForTestResultK(test, update, body, env) => W32(test) && W32(update) && W32(body) && W32(env)
    case ForBodyK(test, update, body, env) => W32(test) && W32(update) && W32(body) && W32(env)
    case ForUpdateK(test, update, body, env) => W32(test) && W32(update) && W32(body) && W32(env)
    case _ => true
  }

  ghost predicate ListFits(start: nat, idx: nat, count: nat, env: EnvId) {
    W32(start) && W16(idx) && W16(count) && W32(env)
  }

  ghost predicate KontFits(pool: Pool, k: Kont) {
    k.Link? ==> FrameFits(pool, k.frame) && W32(k.k)
  }

  /** A tag, the frame's fields, the outer link last. */
  function PutKont(pool: Pool, kont: Kont, rest: seq<u8>): (b: seq<u8>)
    ensures PoolOk(pool) && KontFits(pool, kont) ==> GetKont(pool, b) == Got(kont, rest)
  {
    match kont
    case Halt => PutU8(0, rest)
    case Link(f, k) => PutFrame(pool, f, PutU32(k, rest))
  }

  function FrameTag(f: Frame): u8 {
    match f
    case UnaryK(_) => 1
    case BinaryLeftK(_, _, _) => 2
    case BinaryRightK(_, _) => 3
    case AndK(_, _) => 4
    case OrK(_, _) => 5
    case NullishK(_, _) => 6
    case MemberK(_) => 7
    case IndexObjK(_, _) => 8
    case IndexKeyK(_) => 9
    case AssignVarK(_, _) => 10
    case UpdateVarK(_, _, _, _) => 11
    case AssignMemberObjK(_, _, _) => 12
    case AssignMemberValK(_, _) => 13
    case AssignIndexObjK(_, _, _) => 14
    case AssignIndexKeyK(_, _, _) => 15
    case AssignIndexValK(_, _) => 16
    case IfK(_, _, _) => 17
    case CondK(_, _, _) => 18
    case WhileK(_, _, _) => 19
    case WhileBodyK(_, _, _) => 20
    case ForTestK(_, _, _, _) => 21
    case ForTestResultK(_, _, _, _) => 22
    case ForBodyK(_, _, _, _) => 23
    case ForUpdateK(_, _, _, _) => 24
    case CalleeK(_, _, _) => 25
    case ArgsK(_, _, _, _, _, _) => 26
    case ReturnK(_) => 27
    case ReturnExprK => 28
    case ArrayK(_, _, _, _, _) => 29
    case ObjectK(_, _, _, _, _) => 30
    case LetK(_, _) => 31
    case ConstK(_, _) => 32
    case VarK(_, _) => 33
    case SeqK(_, _, _, _) => 34
    case ExprStmtK => 35
    case BlockK(_, _, _, _, _) => 36
    case MatchK(_, _, _, _) => 37
    case HandlerK(_, _, _, _, _) => 38
    case PerformArgsK(_, _, _, _, _, _) => 39
    case HandleWithK(_, _) => 40
  }

  function PutFrame(pool: Pool, f: Frame, rest: seq<u8>): seq<u8> {
    PutU8(FrameTag(f), PutFields(pool, f, rest))
  }

  function PutFields(pool: Pool, f: Frame, rest: seq<u8>): (b: seq<u8>)
    ensures PoolOk(pool) && FrameFits(pool, f) ==> GetFields(pool, FrameTag(f), b) == Got(f, rest)
  {
    var t := FrameTag(f);
    if t < 10 then PutOperator(pool, f, rest)
    else if t < 17 then PutAssignment(pool, f, rest)
    else if t < 21 then PutBranch(f, rest)
    else if t < 25 then PutFor(f, rest)
    else if t < 29 then PutCall(pool, f, rest)
    else if t < 31 then PutLiteral(pool, f, rest)
    else if t < 36 then PutStatement(pool, f, rest)
    else if t < 38 then PutScope(pool, f, rest)
    else PutEffect(pool, f, rest)
  }

  function PutOperator(pool: Pool, f: Frame, rest: seq<u8>): (b: seq<u8>)
    requires FrameTag(f) < 10
    ensures PoolOk(pool) && FrameFits(pool, f) ==> GetOperator(pool, FrameTag(f), b) == Got(f, rest)
  {
    hide GetU16, GetU32, GetBool, GetName, GetValue, GetValues, GetPairs, PoolOk, ValueFits, ValuesFit, PairsFit;
    match f
    case UnaryK(op) => PutUnary(op, rest)
    case BinaryLeftK(op, right, env) => PutBinary(op, PutU32(right, PutU32(env, rest)))
    case BinaryRightK(op, left) => PutBinary(op, PutValue(pool, left, rest))
    case AndK(right, env) => PutU32(right, PutU32(env, rest))
    case OrK(right, env) => PutU32(right, PutU32(env, rest))
    case NullishK(right, env) => PutU32(right, PutU32(env, rest))
    case MemberK(property) => PutName(pool, property, rest)
    case IndexObjK(index, env) => PutU32(index, PutU32(env, rest))
    case IndexKeyK(obj) => PutValue(pool, obj, rest)
  }

  function PutUpdate(pool: Pool, f: Frame, rest: seq<u8>): (b: seq<u8>)
    requires f.UpdateVarK?
    ensures PoolOk(pool) && FrameFits(pool, f) ==> GetAssignment(pool, FrameTag(f), b) == Got(f, rest)
  {
    hide GetU32, GetBool, GetName, GetValue, PoolOk;
    PutName(pool, f.name, PutBool(f.isPre, PutBool(f.isInc, PutU32(f.env, rest))))
  }

  function PutAssignment(pool: Pool, f: Frame, rest: seq<u8>): (b: seq<u8>)
    requires 10 <= FrameTag(f) < 17
    ensures PoolOk(pool) && FrameFits(pool, f) ==> GetAssignment(pool, FrameTag(f), b) == Got(f, rest)
  {
    hide GetU16, GetU32, GetBool, GetName, GetValue, GetValues, GetPairs, PoolOk, ValueFits, ValuesFit, PairsFit;
    match f
    case AssignVarK(name, env) => PutName(pool, name, PutU32(env, rest))
    case UpdateVarK(name, isPre, isInc, env) => PutUpdate(pool, f, rest)
    case AssignMemberObjK(property, value, env) => PutName(pool, property, PutU32(value, PutU32(env, rest)))
    case AssignMemberValK(obj, property) => PutValue(pool, obj, PutName(pool, property, rest))
    case AssignIndexObjK(index, value, env) => PutU32(index, PutU32(value, PutU32(env, rest)))
    case AssignIndexKeyK(obj, value, env) => PutValue(pool, obj, PutU32(value, PutU32(env, rest)))
    case AssignIndexValK(obj, key) => PutValue(pool, obj, PutValue(pool, key, rest))
  }

  function PutBranch(f: Frame, rest: seq<u8>): (b: seq<u8>)
    requires 17 <= FrameTag(f) < 21
    ensures BranchFits(f) ==> GetBranch(FrameTag(f), b) == Got(f, rest)
  {
    hide GetU16, GetU32, GetBool, GetName, GetValue, GetValues, GetPairs, PoolOk, ValueFits, ValuesFit, PairsFit;
    match f
    case IfK(t, e, env) => PutU32(t, PutU32(e, PutU32(env, rest)))
    case CondK(t, e, env) => PutU32(t, PutU32(e, PutU32(env, rest)))
    case WhileK(test, body, env) => PutU32(test, PutU32(body, PutU32(env, rest)))
    case WhileBodyK(test, body, env) => PutU32(test, PutU32(body, PutU32(env, rest)))
  }

  function PutFor(f: Frame, rest: seq<u8>): (b: seq<u8>)
    requires 21 <= FrameTag(f) < 25
    ensures BranchFits(f) ==> GetFor(FrameTag(f), b) == Got(f, rest)
  {
    hide GetU16, GetU32, GetBool, GetName, GetValue, GetValues, GetPairs, PoolOk, ValueFits, ValuesFit, PairsFit;
    match f
    case ForTestK(test, update, body, env) => PutU32(test, PutU32(update, PutU32(body, PutU32(env, rest))))
    case ForTestResultK(test, update, body, env) => PutU32(test, PutU32(update, PutU32(body, PutU32(env, rest))))
    case ForBodyK(test, update, body, env) => PutU32(test, PutU32(update, PutU32(body, PutU32(env, rest))))
    case ForUpdateK(test, update, body, env) => PutU32(test, PutU32(update, PutU32(body, PutU32(env, rest))))
  }

  function PutCall(pool: Pool, f: Frame, rest: seq<u8>): (b: seq<u8>)
    requires 25 <= FrameTag(f) < 29
    ensures PoolOk(pool) && FrameFits(pool, f) ==> GetCall(pool, FrameTag(f), b) == Got(f, rest)
  {
    hide GetU16, GetU32, GetBool, GetName, GetValue, GetValues, GetPairs, PoolOk, ValueFits, ValuesFit, PairsFit;
    match f
    case CalleeK(start, count, env) => PutU32(start, PutU16(count, PutU32(env, rest)))
    case ArgsK(callee, done, start, idx, count, env) =>
      PutValue(pool, callee, PutValues(pool, done, PutList(start, idx, count, env, rest)))
    case ReturnK(env) => PutU32(env, rest)
    case ReturnExprK => rest
  }

  function PutLiteral(pool: Pool, f: Frame, rest: seq<u8>): (b: seq<u8>)
    requires 29 <= FrameTag(f) < 31
    ensures PoolOk(pool) && FrameFits(pool, f) ==> GetLiteral(pool, FrameTag(f), b) == Got(f, rest)
  {
    hide GetU16, GetU32, GetBool, GetName, GetValue, GetValues, GetPairs, PoolOk, ValueFits, ValuesFit, PairsFit;
    match f
    case ArrayK(done, start, idx, count, env) => PutValues(pool, done, PutList(start, idx, count, env, rest))
    case ObjectK(pairs, start, idx, count, env) => PutPairs(pool, pairs, PutList(start, idx, count, env, rest))
  }

  function PutFour(a: nat, b: nat, c: nat, d: nat, rest: seq<u8>): (r: seq<u8>)
    ensures W32(a) && W32(b) && W32(c) && W32(d) ==> GetFour(r) == Got((a, b, c, d), rest)
  {
    hide GetU32;
    PutU32(a, PutU32(b, PutU32(c, PutU32(d, rest))))
  }

  function PutStatement(pool: Pool, f: Frame, rest: seq<u8>): (b: seq<u8>)
    requires 31 <= FrameTag(f) < 36
    ensures PoolOk(pool) && FrameFits(pool, f) ==> GetStatement(pool, FrameTag(f), b) == Got(f, rest)
  {
    hide GetU16, GetU32, GetFour, GetBool, GetName, GetValue, GetValues, GetPairs, PoolOk, ValueFits, ValuesFit,
         PairsFit;
    match f
    case LetK(name, env) => PutName(pool, name, PutU32(env, rest))
    case ConstK(name, env) => PutName(pool, name, PutU32(env, rest))
    case VarK(name, env) => PutName(pool, name, PutU32(env, rest))
    case SeqK(start, idx, count, env) => PutFour(start, idx, count, env, rest)
    case ExprStmtK => rest
  }

  function PutScope(pool: Pool, f: Frame, rest: seq<u8>): (b: seq<u8>)
    requires 36 <= FrameTag(f) < 38
    ensures PoolOk(pool) && FrameFits(pool, f) ==> GetScope(pool, FrameTag(f), b) == Got(f, rest)
  {
    hide GetU16, GetU32, GetBool, GetName, GetValue, GetValues, GetPairs, PoolOk, ValueFits, ValuesFit, PairsFit;
    match f
    case BlockK(start, idx, count, final, env) =>
      PutU32(start, PutU32(idx, PutU32(count, PutU32(final, PutU32(env, rest)))))
    case MatchK(start, idx, count, env) => PutList(start, idx, count, env, rest)
  }

  function PutEffect(pool: Pool, f: Frame, rest: seq<u8>): (b: seq<u8>)
    requires 38 <= FrameTag(f)
    ensures PoolOk(pool) && FrameFits(pool, f) ==> GetEffect(pool, FrameTag(f), b) == Got(f, rest)
  {
    hide GetU16, GetU32, GetBool, GetName, GetValue, GetValues, GetPairs, PoolOk, ValueFits, ValuesFit, PairsFit;
    match f
    case HandlerK(start, count, env, body, param) =>
      PutU32(start, PutU16(count, PutU32(env, PutU32(body, PutName(pool, param, rest)))))
    case PerformArgsK(effect, done, start, idx, count, env) =>
      PutName(pool, effect, PutValues(pool, done, PutList(start, idx, count, env, rest)))
    case HandleWithK(handled, env) => PutU32(handled, PutU32(env, rest))
  }

  /** An argument list's bounds and its environment. */
  function PutList(start: nat, idx: nat, count: nat, env: EnvId, rest: seq<u8>): (b: seq<u8>)
    ensures ListFits(start, idx, count, env) ==> GetList(b) == Got((start, idx, count, env), rest)
  {
    PutU32(start, PutU16(idx, PutU16(count, PutU32(env, rest))))
  }

  function GetList(b: seq<u8>): Read<(nat, nat, nat, EnvId)> {
    var start :- GetU32(b);
    var idx :- GetU16(start.1);
    var count :- GetU16(idx.1);
    var env :- GetU32(count.1);
    Got((start.0, idx.0, count.0, env.0), env.1)
  }

  function GetKont(pool: Pool, b: seq<u8>): Read<Kont> {
    var tag :- GetU8(b);
    if tag.0 == 0 then Got(Halt, tag.1)
    else
      var f :- GetFields(pool, tag.0, tag.1);
      var k :- GetU32(f.1);
      Got(Link(f.0, k.0), k.1)
  }

  function GetTwo(b: seq<u8>): Read<(nat, nat)> {
    var x :- GetU32(b);
    var y :- GetU32(x.1);
    Got((x.0, y.0), y.1)
  }

  function GetThree(b: seq<u8>): Read<(nat, nat, nat)> {
    var x :- GetU32(b);
    var y :- GetTwo(x.1);
    Got((x.0, y.0.0, y.0.1), y.1)
  }

  function GetFour(b: seq<u8>): Read<(nat, nat, nat, nat)> {
    var x :- GetTwo(b);
    var y :- GetTwo(x.1);
    Got((x.0.0, x.0.1, y.0.0, y.0.1), y.1)
  }

  function GetNamed(pool: Pool, b: seq<u8>): Read<(Str, nat)> {
    var name :- GetName(pool, b);
    var n :- GetU32(name.1);
    Got((name.0, n.0), n.1)
  }

  function GetFields(pool: Pool, tag: u8, b: seq<u8>): Read<Frame> {
    if tag < 10 then GetOperator(pool, tag, b)
    else if tag < 17 then GetAssignment(pool, tag, b)
    else if tag < 21 then GetBranch(tag, b)
    else if tag < 25 then GetFor(tag, b)
    else if tag < 29 then GetCall(pool, tag, b)
    else if tag < 31 then GetLiteral(pool, tag, b)
    else if tag < 36 then GetStatement(pool, tag, b)
    else if tag < 38 then GetScope(pool, tag, b)
    else GetEffect(pool, tag, b)
  }

  function GetOperator(pool: Pool, tag: u8, b: seq<u8>): Read<Frame> {
    match tag
    case 1 => var op :- GetUnary(b); Got(UnaryK(op.0), op.1)
    case 2 => var op :- GetBinary(b); var x :- GetTwo(op.1); Got(BinaryLeftK(op.0, x.0.0, x.0.1), x.1)
    case 3 => var op :- GetBinary(b); var v :- GetValue(pool, op.1); Got(BinaryRightK(op.0, v.0), v.1)
    case 4 => var x :- GetTwo(b); Got(AndK(x.0.0, x.0.1), x.1)
    case 5 => var x :- GetTwo(b); Got(OrK(x.0.0, x.0.1), x.1)
    case 6 => var x :- GetTwo(b); Got(NullishK(x.0.0, x.0.1), x.1)
    case 7 => var property :- GetName(pool, b); Got(MemberK(property.0), property.1)
    case 8 => var x :- GetTwo(b); Got(IndexObjK(x.0.0, x.0.1), x.1)
    case 9 => var v :- GetValue(pool, b); Got(IndexKeyK(v.0), v.1)
    case _ => Bad(BadTag)
  }

  function GetAssignment(pool: Pool, tag: u8, b: seq<u8>): Read<Frame> {
    match tag
    case 10 => var x :- GetNamed(pool, b); Got(AssignVarK(x.0.0, x.0.1), x.1)
    case 11 =>
      var name :- GetName(pool, b);
      var isPre :- GetBool(name.1);
      var isInc :- GetBool(isPre.1);
      var env :- GetU32(isInc.1);
      Got(UpdateVarK(name.0, isPre.0, isInc.0, env.0), env.1)
    case 12 =>
      var property :- GetName(pool, b);
      var x :- GetTwo(property.1);
      Got(AssignMemberObjK(property.0, x.0.0, x.0.1), x.1)
    case 13 => var v :- GetValue(pool, b); var property :- GetName(pool, v.1);
      Got(AssignMemberValK(v.0, property.0), property.1)
    case 14 => var x :- GetThree(b); Got(AssignIndexObjK(x.0.0, x.0.1, x.0.2), x.1)
    case 15 => var v :- GetValue(pool, b); var x :- GetTwo(v.1); Got(AssignIndexKeyK(v.0, x.0.0, x.0.1), x.1)
    case 16 => var v :- GetValue(pool, b); var key :- GetValue(pool, v.1); Got(AssignIndexValK(v.0, key.0), key.1)
    case _ => Bad(BadTag)
  }

  function GetBranch(tag: u8, b: seq<u8>): Read<Frame> {
    match tag
    case 17 => var x :- GetThree(b); Got(IfK(x.0.0, x.0.1, x.0.2), x.1)
    case 18 => var x :- GetThree(b); Got(CondK(x.0.0, x.0.1, x.0.2), x.1)
    case 19 => var x :- GetThree(b); Got(WhileK(x.0.0, x.0.1, x.0.2), x.1)
    case 20 => var x :- GetThree(b); Got(WhileBodyK(x.0.0, x.0.1, x.0.2), x.1)
    case _ => Bad(BadTag)
  }

  function GetFor(tag: u8, b: seq<u8>): Read<Frame> {
    match tag
    case 21 => var x :- GetFour(b); Got(ForTestK(x.0.0, x.0.1, x.0.2, x.0.3), x.1)
    case 22 => var x :- GetFour(b); Got(ForTestResultK(x.0.0, x.0.1, x.0.2, x.0.3), x.1)
    case 23 => var x :- GetFour(b); Got(ForBodyK(x.0.0, x.0.1, x.0.2, x.0.3), x.1)
    case 24 => var x :- GetFour(b); Got(ForUpdateK(x.0.0, x.0.1, x.0.2, x.0.3), x.1)
    case _ => Bad(BadTag)
  }

  function GetCall(pool: Pool, tag: u8, b: seq<u8>): Read<Frame> {
    match tag
    case 25 =>
      var start :- GetU32(b);
      var count :- GetU16(start.1);
      var env :- GetU32(count.1);
      Got(CalleeK(start.0, count.0, env.0), env.1)
    case 26 =>
      var callee :- GetValue(pool, b);
      var done :- GetValues(pool, callee.1);
      var x :- GetList(done.1);
      Got(ArgsK(callee.0, done.0, x.0.0, x.0.1, x.0.2, x.0.3), x.1)
    case 27 => var env :- GetU32(b); Got(ReturnK(env.0), env.1)
    case 28 => Got(ReturnExprK, b)
    case _ => Bad(BadTag)
  }

  function GetLiteral(pool: Pool, tag: u8, b: seq<u8>): Read<Frame> {
    match tag
    case 29 =>
      var done :- GetValues(pool, b);
      var x :- GetList(done.1);
      Got(ArrayK(done.0, x.0.0, x.0.1, x.0.2, x.0.3), x.1)
    case 30 =>
      var pairs :- GetPairs(pool, b);
      var x :- GetList(pairs.1);
      Got(ObjectK(pairs.0, x.0.0, x.0.1, x.0.2, x.0.3), x.1)
    case _ => Bad(BadTag)
  }

  function GetStatement(pool: Pool, tag: u8, b: seq<u8>): Read<Frame> {
    match tag
    case 31 => var x :- GetNamed(pool, b); Got(LetK(x.0.0, x.0.1), x.1)
    case 32 => var x :- GetNamed(pool, b); Got(ConstK(x.0.0, x.0.1), x.1)
    case 33 => var x :- GetNamed(pool, b); Got(VarK(x.0.0, x.0.1), x.1)
    case 34 => var x :- GetFour(b); Got(SeqK(x.0.0, x.0.1, x.0.2, x.0.3), x.1)
    case 35 => Got(ExprStmtK, b)
    case _ => Bad(BadTag)
  }

  function GetScope(pool: Pool, tag: u8, b: seq<u8>): Read<Frame> {
    match tag
    case 36 =>
      var x :- GetFour(b);
      var env :- GetU32(x.1);
      Got(BlockK(x.0.0, x.0.1, x.0.2, x.0.3, env.0), env.1)
    case 37 => var x :- GetList(b); Got(MatchK(x.0.0, x.0.1, x.0.2, x.0.3), x.1)
    case _ => Bad(BadTag)
  }

  function GetEffect(pool: Pool, tag: u8, b: seq<u8>): Read<Frame> {
    match tag
    case 38 =>
      var start :- GetU32(b);
      var count :- GetU16(start.1);
      var x :- GetTwo(count.1);
      var param :- GetName(pool, x.1);
      Got(HandlerK(start.0, count.0, x.0.0, x.0.1, param.0), param.1)
    case 39 =>
      var effect :- GetName(pool, b);
      var done :- GetValues(pool, effect.1);
      var x :- GetList(done.1);
      Got(PerformArgsK(effect.0, done.0, x.0.0, x.0.1, x.0.2, x.0.3), x.1)
    case 40 => var x :- GetTwo(b); Got(HandleWithK(x.0.0, x.0.1), x.1)
    case _ => Bad(BadTag)
  }
}
