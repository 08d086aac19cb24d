/** The other half of the agreement: whenever the machine halts, the evaluator
    has a value, so programs halt in the machine exactly when they evaluate. */
module Completeness {
  import opened Values
  import opened FrameLists
  import opened Language
  import opened Evaluator

  // ---------- More depth changes nothing ----------

  lemma {:induction false} ExprDeeper(ast: Ast, ar: Arith, n: nat, m: nat, env: EnvId, e: ExprId, st: Store)
    requires EvalExpr(ast, ar, n, env, e, st).Some? && n <= m
    ensures EvalExpr(ast, ar, m, env, e, st) == EvalExpr(ast, ar, n, env, e, st)
    decreases n
  {
    hide ReadVar, WriteVar;
    match ast.GetExpr(e).value {
      case Literal(_) =>
      case Identifier(_) =>
      case Unary(_, operand) => ExprDeeper(ast, ar, n - 1, m - 1, env, operand, st);
      case Binary(op, left, right) =>
        ExprDeeper(ast, ar, n - 1, m - 1, env, left, st);
        var (l, st') := EvalExpr(ast, ar, n - 1, env, left, st).value;
        if !Settles(op, l) { ExprDeeper(ast, ar, n - 1, m - 1, env, right, st'); }
      case Assign(_, value) => ExprDeeper(ast, ar, n - 1, m - 1, env, value, st);
      case Conditional(test, t, f) =>
        ExprDeeper(ast, ar, n - 1, m - 1, env, test, st);
        var (v, st') := EvalExpr(ast, ar, n - 1, env, test, st).value;
        ExprDeeper(ast, ar, n - 1, m - 1, env, if Truthy(v) then t else f, st');
    }
  }

  lemma {:induction false} StmtDeeper(ast: Ast, ar: Arith, n: nat, m: nat, env: EnvId, s: StmtId, st: Store)
    requires EvalStmt(ast, ar, n, env, s, st).Some? && n <= m
    ensures EvalStmt(ast, ar, m, env, s, st) == EvalStmt(ast, ar, n, env, s, st)
    decreases n
  {
    hide EvalExpr, Bind, BindGlobal, ChildEnv;
    if s == NONE { return; }
    match ast.GetStmt(s).value {
      case Empty =>
      case ExprStmt(e) => ExprDeeper(ast, ar, n - 1, m - 1, env, e, st);
      case Let(_, init) => if init != NONE { ExprDeeper(ast, ar, n - 1, m - 1, env, init, st); }
      case Const(_, init) => ExprDeeper(ast, ar, n - 1, m - 1, env, init, st);
      case Var(_, init) => if init != NONE { ExprDeeper(ast, ar, n - 1, m - 1, env, init, st); }
      case If(test, t, f) =>
        ExprDeeper(ast, ar, n - 1, m - 1, env, test, st);
        var (v, st') := EvalExpr(ast, ar, n - 1, env, test, st).value;
        var branch := if Truthy(v) then t else f;
        if branch != NONE { StmtDeeper(ast, ar, n - 1, m - 1, env, branch, st'); }
      case While(test, body) => LoopDeeper(ast, ar, n - 1, m - 1, env, test, body, st);
      case For(first, test, update, body) =>
        var (st', inner) := ChildEnv(st, env);
        if first == NONE { ExprDeeper(ast, ar, n - 1, m - 1, inner, test, st'); }
        else { StmtDeeper(ast, ar, n - 1, m - 1, inner, first, st'); }
        var (o, st'') := (if first == NONE then EvalFirst(ast, ar, n - 1, inner, test, st')
                          else EvalStmt(ast, ar, n - 1, inner, first, st')).value;
        if o.Normal? { ForDeeper(ast, ar, n - 1, m - 1, inner, test, update, body, st''); }
        else { AfterDeeper(ast, ar, n - 1, m - 1, inner, test, update, body, o, st''); }
      case Block(start, count) =>
        if ast.StmtList(start, count) != [] {
          var (st', inner) := ChildEnv(st, env);
          ListDeeper(ast, ar, n - 1, m - 1, inner, start, count, 0, st');
        }
      case Declarations(start, count) =>
        if ast.StmtList(start, count) != [] { ListDeeper(ast, ar, n - 1, m - 1, env, start, count, 0, st); }
      case Return(e) => if e != NONE { ExprDeeper(ast, ar, n - 1, m - 1, env, e, st); }
      case Break =>
      case Continue =>
    }
  }

  lemma {:induction false} ListDeeper(
      ast: Ast, ar: Arith, n: nat, m: nat, env: EnvId, start: nat, count: nat, i: nat, st: Store)
    requires i < |ast.StmtList(start, count)| && n <= m && EvalList(ast, ar, n, env, start, count, i, st).Some?
    ensures EvalList(ast, ar, m, env, start, count, i, st) == EvalList(ast, ar, n, env, start, count, i, st)
    decreases n
  {
    hide EvalStmt;
    StmtDeeper(ast, ar, n - 1, m - 1, env, ast.StmtList(start, count)[i], st);
    var (o, st') := EvalStmt(ast, ar, n - 1, env, ast.StmtList(start, count)[i], st).value;
    if o.Normal? && i + 1 < count { ListDeeper(ast, ar, n - 1, m - 1, env, start, count, i + 1, st'); }
  }

  lemma {:induction false} LoopDeeper(
      ast: Ast, ar: Arith, n: nat, m: nat, env: EnvId, test: ExprId, body: StmtId, st: Store)
    requires EvalLoop(ast, ar, n, env, test, body, st).Some? && n <= m
    ensures EvalLoop(ast, ar, m, env, test, body, st) == EvalLoop(ast, ar, n, env, test, body, st)
    decreases n
  {
    hide EvalExpr, EvalStmt;
    ExprDeeper(ast, ar, n - 1, m - 1, env, test, st);
    var (v, st') := EvalExpr(ast, ar, n - 1, env, test, st).value;
    if Truthy(v) {
      StmtDeeper(ast, ar, n - 1, m - 1, env, body, st');
      var (b, st'') := EvalStmt(ast, ar, n - 1, env, body, st').value;
      if b.Normal? || b.Continued? { LoopDeeper(ast, ar, n - 1, m - 1, env, test, body, st''); }
    }
  }

  lemma {:induction false} ForDeeper(
      ast: Ast, ar: Arith, n: nat, m: nat, env: EnvId, test: ExprId, update: ExprId, body: StmtId, st: Store)
    requires EvalFor(ast, ar, n, env, test, update, body, st).Some? && n <= m
    ensures EvalFor(ast, ar, m, env, test, update, body, st) == EvalFor(ast, ar, n, env, test, update, body, st)
    decreases n, 0
  {
    hide EvalExpr, EvalStmt, EvalAfter;
    if test != NONE { ExprDeeper(ast, ar, n - 1, m - 1, env, test, st); }
    var (v, st') := if test == NONE then (Bool(true), st) else EvalExpr(ast, ar, n - 1, env, test, st).value;
    if Truthy(v) {
      StmtDeeper(ast, ar, n - 1, m - 1, env, body, st');
      var (o, st'') := EvalStmt(ast, ar, n - 1, env, body, st').value;
      AfterDeeper(ast, ar, n - 1, m - 1, env, test, update, body, o, st'');
    }
  }

  lemma {:induction false} AfterDeeper(
      ast: Ast, ar: Arith, n: nat, m: nat, env: EnvId, test: ExprId, update: ExprId, body: StmtId, o: Outcome,
      st: Store)
    requires EvalAfter(ast, ar, n, env, test, update, body, o, st).Some? && n <= m
    ensures EvalAfter(ast, ar, m, env, test, update, body, o, st)
         == EvalAfter(ast, ar, n, env, test, update, body, o, st)
    decreases n, 1
  {
    hide EvalExpr, EvalFor;
    if o.Normal? || o.Continued? {
      DroppedDeeper(ast, ar, n - 1, m - 1, env, update, st);
      var st' := EvalDropped(ast, ar, n - 1, env, update, st).value;
      DroppedDeeper(ast, ar, n - 1, m - 1, env, test, st');
      ForDeeper(ast, ar, n - 1, m - 1, env, test, update, body, EvalDropped(ast, ar, n - 1, env, test, st').value);
    }
  }

  lemma DroppedDeeper(ast: Ast, ar: Arith, n: nat, m: nat, env: EnvId, e: ExprId, st: Store)
    requires EvalDropped(ast, ar, n, env, e, st).Some? && n <= m
    ensures EvalDropped(ast, ar, m, env, e, st) == EvalDropped(ast, ar, n, env, e, st)
  {
    hide EvalExpr;
    if e != NONE { ExprDeeper(ast, ar, n, m, env, e, st); }
  }

  // ---------- Runs that halt ----------

  ghost predicate HaltsIn(ast: Ast, ar: Arith, c: Config, n: nat) {
    Steps(ast, ar, c, n).Running? && Steps(ast, ar, c, n).control.Halted?
  }

  lemma {:induction false} FixedStays(ast: Ast, ar: Arith, c: Config, n: nat)
    requires Step(ast, ar, c) == c
    ensures Steps(ast, ar, c, n) == c
    decreases n
  {
    if n > 0 { FixedStays(ast, ar, c, n - 1); }
  }

  /** A halting run is still halting from anything it passes through. */
  lemma Residual(ast: Ast, ar: Arith, c: Config, d: Config, n: nat) returns (m: nat)
    requires HaltsIn(ast, ar, c, n) && Reaches(ast, ar, c, d)
    ensures m <= n && HaltsIn(ast, ar, d, m)
  {
    hide Step;
    var k: nat :| Steps(ast, ar, c, k) == d;
    if k <= n {
      StepsAdd(ast, ar, c, k, n - k);
      m := n - k;
    } else {
      StepsAdd(ast, ar, c, n, k - n);
      HaltedStays(ast, ar, Steps(ast, ar, c, n), k - n);
      m := 0;
    }
  }

  lemma HaltedStays(ast: Ast, ar: Arith, c: Config, n: nat)
    requires c.Crashed? || c.control.Halted?
    ensures Steps(ast, ar, c, n) == c
  {
    FixedStays(ast, ar, c, n);
  }

  /** A running configuration that halts takes a step, and does not crash. */
  lemma HaltsNext(ast: Ast, ar: Arith, c: Config, n: nat)
    requires HaltsIn(ast, ar, c, n) && c.Running? && !c.control.Halted?
    ensures n > 0 && HaltsIn(ast, ar, Step(ast, ar, c), n - 1) && Step(ast, ar, c).Running?
  {
    hide Step;
    if Step(ast, ar, c).Crashed? && n > 0 { HaltedStays(ast, ar, Step(ast, ar, c), n - 1); }
  }

  // ---------- The evaluator has a value ----------

  function Max(a: nat, b: nat): nat { if a < b then b else a }

  lemma {:induction false} ExprCompletes(
      ast: Ast, ar: Arith, steps: nat, env: EnvId, e: ExprId, st: Store, fs: seq<Frame>) returns (n: nat)
    requires HaltsIn(ast, ar, Running(Expr(e), env, fs, st), steps)
    ensures EvalExpr(ast, ar, n, env, e, st).Some?
    decreases steps, 0
  {
    hide HaltsIn, ReadVar, WriteVar;
    var c := Running(Expr(e), env, fs, st);
    HaltsNext(ast, ar, c, steps);
    match ast.GetExpr(e).value {
      case Literal(_) => n := 1;
      case Identifier(_) => n := 1;
      case Unary(op, operand) =>
        n := ExprCompletes(ast, ar, steps - 1, env, operand, st, [UnaryFrame(ast, op, operand, env)] + fs);
        n := n + 1;
      case Binary(op, left, right) =>
        var f := Step(ast, ar, c).frames[0];
        var n1, env1, m := AwaitHalts(ast, ar, steps - 1, env, left, st, f, fs);
        var (l, st') := EvalExpr(ast, ar, n1, env, left, st).value;
        n := n1 + 1;
        if !Settles(op, l) {
          var fs' := if ShortCircuits(op) then fs else [BinaryRightK(op, l)] + fs;
          var n2 := ExprCompletes(ast, ar, m, env, right, st', fs');
          n := Max(n1, n2) + 1;
          ExprDeeper(ast, ar, n1, n - 1, env, left, st);
          ExprDeeper(ast, ar, n2, n - 1, env, right, st');
        }
      case Assign(target, value) =>
        var name := ast.GetExpr(target).value.name;
        n := ExprCompletes(ast, ar, steps - 1, env, value, st, [AssignVarK(name, env)] + fs);
        n := n + 1;
      case Conditional(test, t, f) =>
        var n1, env1, m := AwaitHalts(ast, ar, steps - 1, env, test, st, CondK(t, f, env), fs);
        var (v, st') := EvalExpr(ast, ar, n1, env, test, st).value;
        var branch := if Truthy(v) then t else f;
        var n2 := ExprCompletes(ast, ar, m, env, branch, st', fs);
        n := Max(n1, n2) + 1;
        ExprDeeper(ast, ar, n1, n - 1, env, test, st);
        ExprDeeper(ast, ar, n2, n - 1, env, branch, st');
    }
  }

  /** While `f` awaits `e`: the value comes, and the run goes on from there. */
  lemma {:induction false} AwaitHalts(
      ast: Ast, ar: Arith, steps: nat, env: EnvId, e: ExprId, st: Store, f: Frame, fs: seq<Frame>)
    returns (n: nat, env': EnvId, m: nat)
    requires HaltsIn(ast, ar, Running(Expr(e), env, [f] + fs, st), steps)
    ensures EvalExpr(ast, ar, n, env, e, st).Some? && m < steps
    ensures var (v, st') := EvalExpr(ast, ar, n, env, e, st).value;
      HaltsIn(ast, ar, Met(ast, ar, f, v, env', fs, st'), m) && Met(ast, ar, f, v, env', fs, st').Running?
    decreases steps, 1
  {
    hide HaltsIn, Reaches, EvalExpr, ApplyFrame;
    n := ExprCompletes(ast, ar, steps, env, e, st, [f] + fs);
    env' := ExprAgrees(ast, ar, n, env, e, st, [f] + fs);
    var (v, st') := EvalExpr(ast, ar, n, env, e, st).value;
    var d := Running(Value(v), env', [f] + fs, st');
    m := Residual(ast, ar, Running(Expr(e), env, [f] + fs, st), d, steps);
    HaltsNext(ast, ar, d, m);
    assert d.frames[1..] == fs;
    m := m - 1;
  }

  lemma {:induction false} StmtCompletes(
      ast: Ast, ar: Arith, steps: nat, env: EnvId, s: StmtId, st: Store, fs: seq<Frame>) returns (n: nat)
    requires HaltsIn(ast, ar, Running(Stmt(s), env, fs, st), steps)
    ensures EvalStmt(ast, ar, n, env, s, st).Some?
    decreases steps, 1
  {
    hide HaltsIn, EvalExpr, Bind, BindGlobal, ChildEnv;
    var c := Running(Stmt(s), env, fs, st);
    HaltsNext(ast, ar, c, steps);
    n := 1;
    if s == NONE { return; }
    match ast.GetStmt(s).value {
      case Empty =>
      case ExprStmt(e) =>
        n := ExprCompletes(ast, ar, steps - 1, env, e, st, [ExprStmtK] + fs);
        n := n + 1;
      case Let(name, init) =>
        if init != NONE {
          n := ExprCompletes(ast, ar, steps - 1, env, init, st, [LetK(name, env)] + fs);
          n := n + 1;
        }
      case Const(name, init) =>
        n := ExprCompletes(ast, ar, steps - 1, env, init, st, [ConstK(name, env)] + fs);
        n := n + 1;
      case Var(name, init) =>
        if init != NONE {
          n := ExprCompletes(ast, ar, steps - 1, env, init, st, [VarK(name, env)] + fs);
          n := n + 1;
        }
      case If(_, _, _) => n := IfCompletes(ast, ar, steps, env, s, st, fs);
      case While(test, body) =>
        n := LoopCompletes(ast, ar, steps - 1, env, test, body, st, fs);
        n := n + 1;
      case For(_, _, _, _) => n := ForCompletes(ast, ar, steps, env, s, st, fs);
      case Block(start, count) =>
        if ast.StmtList(start, count) != [] {
          var (st', inner) := ChildEnv(st, env);
          n := ListCompletes(ast, ar, steps - 1, inner, start, count, 0, st', fs);
          n := n + 1;
        }
      case Declarations(start, count) =>
        if ast.StmtList(start, count) != [] {
          n := ListCompletes(ast, ar, steps - 1, env, start, count, 0, st, fs);
          n := n + 1;
        }
      case Return(e) =>
        if e != NONE {
          n := ExprCompletes(ast, ar, steps - 1, env, e, st, [ReturnExprK] + fs);
          n := n + 1;
        }
      case Break =>
      case Continue =>
    }
  }

  lemma {:induction false} IfCompletes(
      ast: Ast, ar: Arith, steps: nat, env: EnvId, s: StmtId, st: Store, fs: seq<Frame>) returns (n: nat)
    requires steps > 0 && s != NONE && ast.GetStmt(s).Some? && ast.GetStmt(s).value.If?
    requires HaltsIn(ast, ar, Step(ast, ar, Running(Stmt(s), env, fs, st)), steps - 1)
    ensures EvalStmt(ast, ar, n, env, s, st).Some?
    decreases steps, 0
  {
    hide HaltsIn, EvalExpr;
    var If(test, t, f) := ast.GetStmt(s).value;
    var n1, env1, m := AwaitHalts(ast, ar, steps - 1, env, test, st, IfK(t, f, env), fs);
    var (v, st') := EvalExpr(ast, ar, n1, env, test, st).value;
    var branch := if Truthy(v) then t else f;
    n := n1 + 1;
    if branch != NONE {
      var n2 := StmtCompletes(ast, ar, m, env, branch, st', fs);
      n := Max(n1, n2) + 1;
      ExprDeeper(ast, ar, n1, n - 1, env, test, st);
      StmtDeeper(ast, ar, n2, n - 1, env, branch, st');
    }
  }

  lemma {:induction false} ListCompletes(
      ast: Ast, ar: Arith, steps: nat, env: EnvId, start: nat, count: nat, i: nat, st: Store, fs: seq<Frame>)
    returns (n: nat)
    requires i < |ast.StmtList(start, count)|
    requires HaltsIn(
      ast, ar, Running(Stmt(ast.StmtList(start, count)[i]), env, RestOf(start, count, i, env, fs), st), steps)
    ensures EvalList(ast, ar, n, env, start, count, i, st).Some?
    decreases steps, 2
  {
    hide HaltsIn, EvalStmt, Reaches;
    var stmt := ast.StmtList(start, count)[i];
    var rest := RestOf(start, count, i, env, fs);
    var c := Running(Stmt(stmt), env, rest, st);
    var n1 := StmtCompletes(ast, ar, steps, env, stmt, st, rest);
    var (o, st') := EvalStmt(ast, ar, n1, env, stmt, st).value;
    n := n1 + 1;
    if o.Normal? && i + 1 < count {
      var env', left := StmtAgrees(ast, ar, n1, env, stmt, st, rest);
      var d := Running(Value(o.v), env', rest, st');
      var m := Residual(ast, ar, c, d, steps);
      HaltsNext(ast, ar, d, m);
      assert d.frames[1..] == fs;
      var n2 := ListCompletes(ast, ar, m - 1, env, start, count, i + 1, st', fs);
      n := Max(n1, n2) + 1;
      StmtDeeper(ast, ar, n1, n - 1, env, stmt, st);
      ListDeeper(ast, ar, n2, n - 1, env, start, count, i + 1, st');
    }
  }

  lemma {:induction false} LoopCompletes(
      ast: Ast, ar: Arith, steps: nat, env: EnvId, test: ExprId, body: StmtId, st: Store, fs: seq<Frame>)
    returns (n: nat)
    requires HaltsIn(ast, ar, Running(Expr(test), env, [WhileK(test, body, env)] + fs, st), steps)
    ensures EvalLoop(ast, ar, n, env, test, body, st).Some?
    decreases steps, 2
  {
    hide HaltsIn, EvalExpr, EvalStmt, Reaches, EndOf;
    var n1, env1, m := AwaitHalts(ast, ar, steps, env, test, st, WhileK(test, body, env), fs);
    var (v, st') := EvalExpr(ast, ar, n1, env, test, st).value;
    n := n1 + 1;
    if Truthy(v) {
      var bodyK := WhileBodyK(test, body, env);
      var c := Running(Stmt(body), env, [bodyK] + fs, st');
      var n2 := StmtCompletes(ast, ar, m, env, body, st', [bodyK] + fs);
      var (b, st'') := EvalStmt(ast, ar, n2, env, body, st').value;
      n := Max(n1, n2) + 1;
      if b.Normal? || b.Continued? {
        var env', left := StmtAgrees(ast, ar, n2, env, body, st', [bodyK] + fs);
        BodyEnds(ast, ar, c, b, env', bodyK, fs, left, st'');
        var d := Running(Expr(test), env, [WhileK(test, body, env)] + fs, st'');
        var m' := Residual(ast, ar, c, d, m);
        var n3 := LoopCompletes(ast, ar, m', env, test, body, st'', fs);
        n := Max(n, n3 + 1);
        LoopDeeper(ast, ar, n3, n - 1, env, test, body, st'');
      }
      ExprDeeper(ast, ar, n1, n - 1, env, test, st);
      StmtDeeper(ast, ar, n2, n - 1, env, body, st');
    }
  }

  lemma {:induction false} ForCompletes(
      ast: Ast, ar: Arith, steps: nat, env: EnvId, s: StmtId, st: Store, fs: seq<Frame>) returns (n: nat)
    requires steps > 0 && s != NONE && ast.GetStmt(s).Some? && ast.GetStmt(s).value.For?
    requires HaltsIn(ast, ar, Step(ast, ar, Running(Stmt(s), env, fs, st)), steps - 1)
    ensures EvalStmt(ast, ar, n, env, s, st).Some?
    decreases steps, 0
  {
    hide HaltsIn, Reaches, EvalExpr, EvalFor, EvalAfter, ChildEnv, First;
    var For(first, test, update, body) := ast.GetStmt(s).value;
    var (st', inner) := ChildEnv(st, env);
    var testK := ForTestK(test, update, body, inner);
    var c := Step(ast, ar, Running(Stmt(s), env, fs, st));
    var n1: nat, o: Outcome, st'': Store, env1: EnvId, left: seq<Frame>;
    if first == NONE {
      n1 := ExprCompletes(ast, ar, steps - 1, inner, test, st', [testK] + fs);
      env1 := ExprAgrees(ast, ar, n1, inner, test, st', [testK] + fs);
      left := fs;
      var (v, st1) := EvalExpr(ast, ar, n1, inner, test, st').value;
      o, st'' := Normal(v), st1;
    } else {
      n1 := StmtCompletes(ast, ar, steps - 1, inner, first, st', [testK] + fs);
      env1, left := StmtAgrees(ast, ar, n1, inner, first, st', [testK] + fs);
      var (o1, st1) := EvalStmt(ast, ar, n1, inner, first, st').value;
      o, st'' := o1, st1;
    }
    var n2: nat;
    if o.Normal? {
      var m := Residual(ast, ar, c, Running(Value(o.v), env1, [testK] + fs, st''), steps - 1);
      n2 := TestCompletes(ast, ar, m, env1, o.v, inner, test, update, body, st'', fs);
    } else {
      n2 := AfterCompletes(ast, ar, steps - 1, c, env1, testK, o, st'', fs, left);
    }
    n := Max(n1, n2) + 1;
    if first == NONE { ExprDeeper(ast, ar, n1, n - 1, inner, test, st'); }
    else { StmtDeeper(ast, ar, n1, n - 1, inner, first, st'); }
    if o.Normal? { ForDeeper(ast, ar, n2, n - 1, inner, test, update, body, st''); }
    else { AfterDeeper(ast, ar, n2, n - 1, inner, test, update, body, o, st''); }
  }

  lemma {:induction false} TestCompletes(
      ast: Ast, ar: Arith, steps: nat, env1: EnvId, v: JSValue, env: EnvId, test: ExprId, update: ExprId,
      body: StmtId, st: Store, fs: seq<Frame>)
    returns (n: nat)
    requires HaltsIn(ast, ar, Running(Value(v), env1, [ForTestK(test, update, body, env)] + fs, st), steps)
    ensures EvalFor(ast, ar, n, env, test, update, body, st).Some?
    decreases steps, 2
  {
    hide HaltsIn, Reaches, EvalExpr, EvalStmt, EvalAfter, EndOf;
    var c := Running(Value(v), env1, [ForTestK(test, update, body, env)] + fs, st);
    assert c.frames[1..] == fs;
    HaltsNext(ast, ar, c, steps);
    var n1, m, w, st' := 0, steps - 1, Bool(true), st;
    if test != NONE {
      var resultK := ForTestResultK(test, update, body, env);
      var env2;
      n1, env2, m := AwaitHalts(ast, ar, steps - 1, env, test, st, resultK, fs);
      var (w1, st1) := EvalExpr(ast, ar, n1, env, test, st).value;
      w, st' := w1, st1;
    }
    n := n1 + 1;
    if Truthy(w) {
      var bodyK := ForBodyK(test, update, body, env);
      var d := Running(Stmt(body), env, [bodyK] + fs, st');
      var n2 := StmtCompletes(ast, ar, m, env, body, st', [bodyK] + fs);
      var env3, left := StmtAgrees(ast, ar, n2, env, body, st', [bodyK] + fs);
      var (o, st'') := EvalStmt(ast, ar, n2, env, body, st').value;
      var n3 := AfterCompletes(ast, ar, m, d, env3, bodyK, o, st'', fs, left);
      n := Max(n1, Max(n2, n3)) + 1;
      if test != NONE { ExprDeeper(ast, ar, n1, n - 1, env, test, st); }
      StmtDeeper(ast, ar, n2, n - 1, env, body, st');
      AfterDeeper(ast, ar, n3, n - 1, env, test, update, body, o, st'');
    }
  }

  lemma {:induction false} AfterCompletes(
      ast: Ast, ar: Arith, steps: nat, c: Config, env1: EnvId, f: Frame, b: Outcome, st: Store, fs: seq<Frame>,
      left: seq<Frame>)
    returns (n: nat)
    requires f.ForBodyK? || (f.ForTestK? && !b.Normal?)
    requires HaltsIn(ast, ar, c, steps) && Reaches(ast, ar, c, EndOf(b, env1, [f] + fs, left, st))
    ensures EvalAfter(ast, ar, n, f.env, f.test, f.update, f.body, b, st).Some?
    decreases steps, 3
  {
    hide HaltsIn, Reaches, EvalExpr, EvalFor, EndOf;
    n := 0;
    if b.Normal? || b.Continued? {
      BodyEnds(ast, ar, c, b, env1, f, fs, left, st);
      var d := Again(Running(Value(Undefined), env1, fs, st), f);
      var testK := ForTestK(f.test, f.update, f.body, f.env);
      var m := Residual(ast, ar, c, d, steps);
      var n1, n2 := 0, 0;
      if f.update != NONE {
        var env2;
        n1, env2, m := AwaitHalts(ast, ar, m, f.env, f.update, st, LoopHead(f), fs);
      }
      var st' := EvalDropped(ast, ar, n1, f.env, f.update, st).value;
      var e := Running(ForTest(f.test), f.env, [testK] + fs, st');
      var v, env3 := Bool(true), f.env;
      if f.test != NONE {
        n2 := ExprCompletes(ast, ar, m, f.env, f.test, st', [testK] + fs);
        env3 := ExprAgrees(ast, ar, n2, f.env, f.test, st', [testK] + fs);
        var (w, st1) := EvalExpr(ast, ar, n2, f.env, f.test, st').value;
        v := w;
        m := Residual(ast, ar, e, Running(Value(v), env3, [testK] + fs, st1), m);
      }
      var st'' := EvalDropped(ast, ar, n2, f.env, f.test, st').value;
      var n3 := TestCompletes(ast, ar, m, env3, v, f.env, f.test, f.update, f.body, st'', fs);
      n := Max(n1, Max(n2, n3)) + 1;
      DroppedDeeper(ast, ar, n1, n - 1, f.env, f.update, st);
      DroppedDeeper(ast, ar, n2, n - 1, f.env, f.test, st');
      ForDeeper(ast, ar, n3, n - 1, f.env, f.test, f.update, f.body, st'');
    }
  }

  // ---------- Whole programs ----------

  /** fresh_exec_setup: the first root statement, in the global environment. */
  function Start(ast: Ast, start: nat, count: nat, st: Store): Config
    requires ast.StmtList(start, count) != []
  {
    EnterList(ast, Running(Value(Undefined), 0, [], st), start, count, 0)
  }

  /** The program's value, if `n` levels of evaluation give one: a final
      statement's value or a top-level return's. */
  function Evaluates(ast: Ast, ar: Arith, n: nat, start: nat, count: nat, st: Store): Option<(JSValue, Store)>
    requires ast.StmtList(start, count) != []
  {
    match EvalList(ast, ar, n, 0, start, count, 0, st)
    case Some((Normal(v), st')) => Some((v, st'))
    case Some((Returned(v), st')) => Some((v, st'))
    case _ => None
  }

  ghost predicate HaltsWith(ast: Ast, ar: Arith, c: Config, v: JSValue, st: Store) {
    exists env, left :: Reaches(ast, ar, c, Running(Halted(v), env, left, st))
  }

  /** A program halts with a value and store exactly when it evaluates to them. */
  lemma ProgramAgrees(ast: Ast, ar: Arith, start: nat, count: nat, st: Store, v: JSValue, st': Store)
    requires ast.StmtList(start, count) != []
    ensures HaltsWith(ast, ar, Start(ast, start, count, st), v, st')
       <==> exists n: nat :: Evaluates(ast, ar, n, start, count, st) == Some((v, st'))
  {
    hide EvalList, Step, Reaches;
    var c := Start(ast, start, count, st);
    if n: nat :| Evaluates(ast, ar, n, start, count, st) == Some((v, st')) {
      var _, _ := EvaluatesThenHalts(ast, ar, n, start, count, st);
    }
    if HaltsWith(ast, ar, c, v, st') {
      var env, left :| Reaches(ast, ar, c, Running(Halted(v), env, left, st'));
      var k := HaltsInSome(ast, ar, c, v, env, left, st');
      var n := ListCompletes(ast, ar, k, 0, start, count, 0, st, []);
      OutcomeHalts(ast, ar, n, start, count, st, k);
      var w, stw := EvaluatesThenHalts(ast, ar, n, start, count, st);
      HaltsOnce(ast, ar, c, v, st', w, stw);
    }
  }

  lemma HaltsInSome(ast: Ast, ar: Arith, c: Config, v: JSValue, env: EnvId, left: seq<Frame>, st: Store)
    returns (k: nat)
    requires Reaches(ast, ar, c, Running(Halted(v), env, left, st))
    ensures HaltsIn(ast, ar, c, k)
  {
    k :| Steps(ast, ar, c, k) == Running(Halted(v), env, left, st);
  }

  lemma EvaluatesThenHalts(ast: Ast, ar: Arith, n: nat, start: nat, count: nat, st: Store)
    returns (v: JSValue, st': Store)
    requires ast.StmtList(start, count) != [] && Evaluates(ast, ar, n, start, count, st).Some?
    ensures Evaluates(ast, ar, n, start, count, st) == Some((v, st'))
    ensures HaltsWith(ast, ar, Start(ast, start, count, st), v, st')
  {
    hide EvalList, Reaches;
    var c := Start(ast, start, count, st);
    var env, left := ListAgrees(ast, ar, n, 0, start, count, 0, st, []);
    var (o, last) := EvalList(ast, ar, n, 0, start, count, 0, st).value;
    v, st' := o.v, last;
    if o.Normal? {
      var d := Running(Value(v), env, [], st');
      OneStep(ast, ar, d);
      ReachesVia(ast, ar, c, d, Running(Halted(v), env, [], st'));
    }
  }

  /** A program that halts did not end in a break or continue outside a loop. */
  lemma OutcomeHalts(ast: Ast, ar: Arith, n: nat, start: nat, count: nat, st: Store, k: nat)
    requires ast.StmtList(start, count) != [] && EvalList(ast, ar, n, 0, start, count, 0, st).Some?
    requires HaltsIn(ast, ar, Start(ast, start, count, st), k)
    ensures Evaluates(ast, ar, n, start, count, st).Some?
  {
    hide EvalList, Reaches;
    var c := Start(ast, start, count, st);
    var env, left := ListAgrees(ast, ar, n, 0, start, count, 0, st, []);
    var (o, last) := EvalList(ast, ar, n, 0, start, count, 0, st).value;
    var m := Residual(ast, ar, c, EndOf(o, env, [], left, last), k);
    if o.Broke? || o.Continued? {
      HaltedStays(ast, ar, EndOf(o, env, [], left, last), m);
    }
  }

  lemma HaltsOnce(ast: Ast, ar: Arith, c: Config, v: JSValue, st: Store, w: JSValue, stw: Store)
    requires HaltsWith(ast, ar, c, v, st) && HaltsWith(ast, ar, c, w, stw)
    ensures v == w && st == stw
  {
    hide Step;
    var e1, l1 :| Reaches(ast, ar, c, Running(Halted(v), e1, l1, st));
    var e2, l2 :| Reaches(ast, ar, c, Running(Halted(w), e2, l2, stw));
    var a: nat :| Steps(ast, ar, c, a) == Running(Halted(v), e1, l1, st);
    var b: nat :| Steps(ast, ar, c, b) == Running(Halted(w), e2, l2, stw);
    if a <= b {
      StepsAdd(ast, ar, c, a, b - a);
      HaltedStays(ast, ar, Steps(ast, ar, c, a), b - a);
    } else {
      StepsAdd(ast, ar, c, b, a - b);
      HaltedStays(ast, ar, Steps(ast, ar, c, b), a - b);
    }
  }
}
