/** What variables, scopes and tests mean in the fragment, in terms of the
    nearest binding on a chain of environments (src/env.rs:285-353,
    src/cekh.rs:199-207, 215-244, 679-698, 1864-1883). */
module Variables {
  import opened Values
  import opened Boundary
  import opened Reuse
  import opened Environments
  import opened InterpreterObject
  import L = Language
  import E = Evaluator
  import F = FrameLists

  /** A name reads as its nearest binding, else as a global, else as undefined. */
  lemma ReadIsNearest(st: L.Store, e: EnvId, x: Str, ranks: map<EnvId, nat>)
    requires Ranked(st.envs.data, ranks) && e in ranks
    ensures forall n: nat :: Nearest(st.envs.data, e, x, n) ==>
      L.ReadVar(st, e, x) == st.envs.data[Ancestor(st.envs.data, e, n).value].bindings[x]
    ensures (forall n: nat :: !BoundAt(st.envs.data, e, x, n)) ==>
      L.ReadVar(st, e, x) == if x in st.globals then st.globals[x] else Undefined
  {
    FoundIsBinder(st, e, x, ranks);
    BinderIsNearest(st.envs.data, e, x, ranks);
    var b := Binder(st.envs.data, e, x, ranks);
    if b.Some? {
      var k: nat :| Nearest(st.envs.data, e, x, k) && Ancestor(st.envs.data, e, k) == b;
      forall n: nat | Nearest(st.envs.data, e, x, n) ensures n == k {
      }
      assert BoundAt(st.envs.data, e, x, k);
    }
  }

  // ---------- Writing and reading back ----------

  lemma {:induction false} WalkAfterBind(
      envs: seq<Env>, b: EnvId, x: Str, v: JSValue, e: EnvId, y: Str, todo: set<EnvId>)
    requires b < |envs| && x in envs[b].bindings
    ensures L.Walk(Bound(envs, b, x, v), e, y, todo) == L.Walk(envs, e, y, todo)
    decreases todo
  {
    if e in todo && e < |envs| && y !in envs[e].bindings && envs[e].parent.Some? {
      WalkAfterBind(envs, b, x, v, envs[e].parent.value, y, todo - {e});
    }
  }

  /** An assignment, to a variable or to a global, is read back; no other name
      changes. */
  lemma WriteThenRead(st: L.Store, e: EnvId, x: Str, v: JSValue)
    ensures L.ReadVar(L.WriteVar(st, e, x, v), e, x) == v
    ensures forall f, y :: y != x ==> L.ReadVar(L.WriteVar(st, e, x, v), f, y) == L.ReadVar(st, f, y)
  {
    hide L.Walk;
    var b := L.FindBinding(st, e, x);
    var todo := L.Indices(|st.envs.data|);
    if b.Some? {
      assert L.WriteVar(st, e, x, v).envs.data == Bound(st.envs.data, b.value, x, v);
      WalkAfterBind(st.envs.data, b.value, x, v, e, x, todo);
      forall f, y | y != x ensures L.ReadVar(L.WriteVar(st, e, x, v), f, y) == L.ReadVar(st, f, y) {
        WalkAfterBind(st.envs.data, b.value, x, v, f, y, todo);
      }
    }
  }

  /** An assignment overwrites the nearest binding and nothing else, or else makes or
      overwrites a global. */
  lemma WriteIsNearest(st: L.Store, e: EnvId, x: Str, v: JSValue, ranks: map<EnvId, nat>)
    requires Ranked(st.envs.data, ranks) && e in ranks
    ensures forall n: nat :: Nearest(st.envs.data, e, x, n) ==>
      L.WriteVar(st, e, x, v) ==
        st.(envs := st.envs.(data := Bound(st.envs.data, Ancestor(st.envs.data, e, n).value, x, v)))
    ensures (forall n: nat :: !BoundAt(st.envs.data, e, x, n)) ==>
      L.WriteVar(st, e, x, v) == st.(globals := st.globals[x := v])
  {
    hide L.Walk;
    FoundIsBinder(st, e, x, ranks);
    BinderIsNearest(st.envs.data, e, x, ranks);
    var b := Binder(st.envs.data, e, x, ranks);
    if b.Some? {
      var k: nat :| Nearest(st.envs.data, e, x, k) && Ancestor(st.envs.data, e, k) == b;
      forall n: nat | Nearest(st.envs.data, e, x, n) ensures n == k {
      }
      assert BoundAt(st.envs.data, e, x, k);
    }
  }

  /** `x++` and `x--` give the old value, `++x` and `--x` the new one, and all
      leave the variable one step on. */
  lemma IncrementMeans(ast: L.Ast, ar: L.Arith, n: nat, env: EnvId, e: ExprId, st: L.Store, x: Str)
    requires n > 1 && ast.GetExpr(e).Some? && ast.GetExpr(e).value.Unary?
    requires ast.GetExpr(ast.GetExpr(e).value.operand) == Some(L.Identifier(x))
    ensures var was := L.ReadVar(st, env, x);
      var r := E.EvalExpr(ast, ar, n, env, e, st);
      match ast.GetExpr(e).value.op
      case PostInc => r.Some? && r.value.0 == was && L.ReadVar(r.value.1, env, x) == ar.update(true, was)
      case PostDec => r.Some? && r.value.0 == was && L.ReadVar(r.value.1, env, x) == ar.update(false, was)
      case PreInc => r.Some? && r.value.0 == L.ReadVar(r.value.1, env, x) == ar.update(true, was)
      case PreDec => r.Some? && r.value.0 == L.ReadVar(r.value.1, env, x) == ar.update(false, was)
      case _ => r.Some? && r.value.1 == st
  {
    hide L.ReadVar, L.WriteVar;
    var was := L.ReadVar(st, env, x);
    WriteThenRead(st, env, x, ar.update(true, was));
    WriteThenRead(st, env, x, ar.update(false, was));
    assert E.EvalExpr(ast, ar, n - 1, env, ast.GetExpr(e).value.operand, st) == Some((was, st));
  }

  // ---------- Scopes ----------

  /** A store whose nameable environments have chains that end, in slots in use. */
  ghost predicate Sound(st: L.Store, ranks: map<EnvId, nat>) {
    Clean(st.envs) && Ranked(st.envs.data, ranks) && forall e :: e in ranks ==> e !in st.envs.free
  }

  /** Slots that a chain does not reach play no part in what it finds. */
  lemma {:induction false} BinderAgrees(
      a: seq<Env>, b: seq<Env>, e: EnvId, x: Str, ranks: map<EnvId, nat>, ranks': map<EnvId, nat>)
    requires Ranked(a, ranks) && e in ranks && Ranked(b, ranks') && forall f :: f in ranks ==> f in ranks'
    requires forall f: nat :: f in ranks ==> f < |b| && b[f] == a[f]
    ensures Binder(b, e, x, ranks') == Binder(a, e, x, ranks)
    decreases ranks[e]
  {
    if x !in a[e].bindings && a[e].parent.Some? {
      BinderAgrees(a, b, a[e].parent.value, x, ranks, ranks');
    }
  }

  /** A block starts in a fresh environment in which every name means what it did
      outside; what it declares there hides the outer name inside, and is not
      seen outside. */
  lemma BlockScope(st: L.Store, parent: EnvId, ranks: map<EnvId, nat>, x: Str, v: JSValue)
    returns (ranks': map<EnvId, nat>)
    requires Sound(st, ranks) && parent in ranks
    ensures var (st', inner) := L.ChildEnv(st, parent);
      && Sound(st', ranks') && inner in ranks' && inner !in ranks
      && (forall y :: L.ReadVar(st', inner, y) == L.ReadVar(st, parent, y))
      && L.ReadVar(L.Bind(st', inner, x, v), inner, x) == v
      && (forall y :: y != x ==> L.ReadVar(L.Bind(st', inner, x, v), inner, y) == L.ReadVar(st, parent, y))
      && (forall e, y :: e in ranks ==> L.ReadVar(L.Bind(st', inner, x, v), e, y) == L.ReadVar(st, e, y))
  {
    hide L.Walk, L.Indices, Clean;
    AllocGrows(st.envs, Env(map[], Some(parent)));
    var (st', inner) := L.ChildEnv(st, parent);
    ranks' := ranks[inner := ranks[parent] + 1];
    var st'' := L.Bind(st', inner, x, v);
    assert inner in st.envs.free || inner == |st.envs.data|;
    assert inner !in ranks;
    assert Ranked(st'.envs.data, ranks') && Ranked(st''.envs.data, ranks');
    forall e, y | e in ranks
      ensures L.ReadVar(st', e, y) == L.ReadVar(st, e, y) && L.ReadVar(st'', e, y) == L.ReadVar(st, e, y)
    {
      FoundIsBinder(st, e, y, ranks);
      FoundIsBinder(st', e, y, ranks');
      FoundIsBinder(st'', e, y, ranks');
      BinderAgrees(st.envs.data, st'.envs.data, e, y, ranks, ranks');
      BinderAgrees(st.envs.data, st''.envs.data, e, y, ranks, ranks');
    }
    forall y ensures L.ReadVar(st', inner, y) == L.ReadVar(st', parent, y)
      ensures y != x ==> L.ReadVar(st'', inner, y) == L.ReadVar(st'', parent, y)
    {
      FoundIsBinder(st', inner, y, ranks');
      FoundIsBinder(st', parent, y, ranks');
      FoundIsBinder(st'', inner, y, ranks');
      FoundIsBinder(st'', parent, y, ranks');
    }
    FoundIsBinder(st'', inner, x, ranks');
  }

  // ---------- Tests ----------

  /** Exactly these count as false: undefined, null, false, zero of either kind and
      sign, NaN and the empty string. */
  lemma FalsyValues(v: JSValue)
    ensures !L.Truthy(v) <==>
      || v == Undefined || v == Null || v == Bool(false) || v == Int(0) || v == String([])
      || (v.Float? && IsZeroOrNaN(v.bits))
  {
  }

  /** The fields of an IEEE 754 double. */
  function Exponent(bits: u64): nat {
    bits / 0x10_0000_0000_0000 % 0x800
  }

  function Fraction(bits: u64): nat {
    bits % 0x10_0000_0000_0000
  }

  predicate IsZeroOrNaN(bits: u64) {
    if Exponent(bits) == 0 then Fraction(bits) == 0 else Exponent(bits) == 0x7FF && Fraction(bits) != 0
  }

  // ---------- Returning ----------

  /** A return goes on outside the innermost call, in the environment that call was
      made in; outside any call it ends the program. */
  lemma ReturnRestores(
      ast: L.Ast, ar: L.Arith, c: L.Config, v: JSValue, inner: seq<Frame>, env: EnvId, outer: seq<Frame>)
    requires c.Running? && c.control == Returning(v) && (forall i :: 0 <= i < |inner| ==> !inner[i].ReturnK?)
    ensures c.frames == inner + [ReturnK(env)] + outer ==>
              L.Step(ast, ar, c) == c.(control := Value(v), env := env, frames := outer)
    ensures c.frames == inner ==> L.Step(ast, ar, c) == c.(control := Halted(v))
  {
    if c.frames == inner + [ReturnK(env)] + outer {
      F.FirstSplits([], F.AtReturn, inner, ReturnK(env), outer);
      assert c.frames[|inner| + 1..] == outer;
    }
  }

  // ---------- The syntax tree ----------

  /** A node or a statement is found under its own index, and the absent index finds
      none; a statement list is the entries it names, or nothing if it runs over. */
  lemma NodesByIndex(ast: L.Ast, i: nat, n: nat)
    ensures ast.GetExpr(i) == if i < |ast.exprs| && i != NONE then Some(ast.exprs[i]) else Option.None
    ensures ast.GetStmt(i) == if i < |ast.stmts| && i != NONE then Some(ast.stmts[i]) else Option.None
    ensures i + n <= |ast.lists| ==>
              |ast.StmtList(i, n)| == n && forall k :: 0 <= k < n ==> ast.StmtList(i, n)[k] == ast.lists[i + k]
    ensures i + n > |ast.lists| ==> ast.StmtList(i, n) == []
  {
  }
}
