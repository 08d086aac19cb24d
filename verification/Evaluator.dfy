/** A big-step evaluator for the fragment, and its agreement with the machine:
    what the evaluator computes, the machine reaches with the continuation it
    started on. */
module Evaluator {
  import opened Values
  import opened FrameLists
  import opened Language

  /** How a statement ends. */
  datatype Outcome = Normal(v: JSValue) | Broke | Continued | Returned(v: JSValue)

  /** None: no value within depth `n` (the code is missing or does not end). */
  function EvalExpr(ast: Ast, ar: Arith, n: nat, env: EnvId, e: ExprId, st: Store): Option<(JSValue, Store)>
    decreases n
  {
    if n == 0 then None else
    match ast.GetExpr(e)
    case None => None
    case Some(Literal(v)) => Some((v, st))
    case Some(Identifier(name)) => Some((ReadVar(st, env, name), st))
    case Some(Unary(op, operand)) =>
      (match EvalExpr(ast, ar, n - 1, env, operand, st)
       case None => None
       case Some((v, st')) => Some(UnaryResult(ast, ar, op, operand, env, v, st')))
    case Some(Binary(op, left, right)) =>
      (match EvalExpr(ast, ar, n - 1, env, left, st)
       case None => None
       case Some((l, st')) =>
         if Settles(op, l) then Some((l, st'))
         else
           match EvalExpr(ast, ar, n - 1, env, right, st')
           case None => None
           case Some((r, st'')) => Some((if ShortCircuits(op) then r else ar.binary(op, l, r), st'')))
    case Some(Assign(target, value)) =>
      (match ast.GetExpr(target)
       case Some(Identifier(name)) =>
         (match EvalExpr(ast, ar, n - 1, env, value, st)
          case None => None
          case Some((v, st')) => Some((v, WriteVar(st', env, name, v))))
       case _ => None)
    case Some(Conditional(test, t, f)) =>
      (match EvalExpr(ast, ar, n - 1, env, test, st)
       case None => None
       case Some((v, st')) => EvalExpr(ast, ar, n - 1, env, if Truthy(v) then t else f, st'))
  }

  /** A unary operator's value and store, given its operand's: over a variable ++
      and -- write it back, and give its new value in front, its old one behind. */
  function UnaryResult(
      ast: Ast, ar: Arith, op: UnaryOp, operand: ExprId, env: EnvId, v: JSValue, st: Store): (JSValue, Store)
  {
    match (op, ast.GetExpr(operand))
    case (PreInc, Some(Identifier(x))) => (ar.update(true, v), WriteVar(st, env, x, ar.update(true, v)))
    case (PreDec, Some(Identifier(x))) => (ar.update(false, v), WriteVar(st, env, x, ar.update(false, v)))
    case (PostInc, Some(Identifier(x))) => (v, WriteVar(st, env, x, ar.update(true, v)))
    case (PostDec, Some(Identifier(x))) => (v, WriteVar(st, env, x, ar.update(false, v)))
    case (Not, _) => (Bool(!Truthy(v)), st)
    case _ => (ar.unary(op, v), st)
  }

  predicate ShortCircuits(op: BinaryOp) {
    op.And? || op.Or? || op.NullishCoalesce?
  }

  /** The left operand alone decides. */
  predicate Settles(op: BinaryOp, left: JSValue) {
    || (op.And? && !Truthy(left)) || (op.Or? && Truthy(left))
    || (op.NullishCoalesce? && left != Undefined && left != Null)
  }

  function EvalStmt(ast: Ast, ar: Arith, n: nat, env: EnvId, s: StmtId, st: Store): Option<(Outcome, Store)>
    decreases n
  {
    if n == 0 then None
    else if s == NONE then Some((Normal(Undefined), st))
    else
    match ast.GetStmt(s)
    case None => None
    case Some(Empty) => Some((Normal(Undefined), st))
    case Some(ExprStmt(e)) =>
      (match EvalExpr(ast, ar, n - 1, env, e, st)
       case None => None
       case Some((v, st')) => Some((Normal(v), st')))
    case Some(Let(name, init)) =>
      if init == NONE then Some((Normal(Undefined), Bind(st, env, name, Undefined)))
      else
        (match EvalExpr(ast, ar, n - 1, env, init, st)
         case None => None
         case Some((v, st')) => Some((Normal(Undefined), Bind(st', env, name, v))))
    case Some(Const(name, init)) =>
      if init == NONE then None
      else
        (match EvalExpr(ast, ar, n - 1, env, init, st)
         case None => None
         case Some((v, st')) => Some((Normal(Undefined), Bind(st', env, name, v))))
    case Some(Var(name, init)) =>
      if init == NONE then Some((Normal(Undefined), BindGlobal(st, name, Undefined)))
      else
        (match EvalExpr(ast, ar, n - 1, env, init, st)
         case None => None
         case Some((v, st')) => Some((Normal(Undefined), BindGlobal(st', name, v))))
    case Some(If(test, t, f)) =>
      (match EvalExpr(ast, ar, n - 1, env, test, st)
       case None => None
       case Some((v, st')) =>
         var branch := if Truthy(v) then t else f;
         if branch == NONE then Some((Normal(Undefined), st')) else EvalStmt(ast, ar, n - 1, env, branch, st'))
    case Some(While(test, body)) => EvalLoop(ast, ar, n - 1, env, test, body, st)
    case Some(For(first, test, update, body)) =>
      var (st', inner) := ChildEnv(st, env);
      (match if first == NONE then EvalFirst(ast, ar, n - 1, inner, test, st')
             else EvalStmt(ast, ar, n - 1, inner, first, st')
       case None => None
       case Some((Normal(_), st'')) => EvalFor(ast, ar, n - 1, inner, test, update, body, st'')
       case Some((o, st'')) => EvalAfter(ast, ar, n - 1, inner, test, update, body, o, st''))
    case Some(Block(start, count)) =>
      if ast.StmtList(start, count) == [] then Some((Normal(Undefined), st))
      else var (st', inner) := ChildEnv(st, env); EvalList(ast, ar, n - 1, inner, start, count, 0, st')
    case Some(Declarations(start, count)) =>
      if ast.StmtList(start, count) == [] then Some((Normal(Undefined), st))
      else EvalList(ast, ar, n - 1, env, start, count, 0, st)
    case Some(Return(e)) =>
      if e == NONE then Some((Returned(Undefined), st))
      else
        (match EvalExpr(ast, ar, n - 1, env, e, st)
         case None => None
         case Some((v, st')) => Some((Returned(v), st')))
    case Some(Break) => Some((Broke, st))
    case Some(Continue) => Some((Continued, st))
  }

  /** Statements `i` onwards of a list; its value is the last one's. */
  function EvalList(
      ast: Ast, ar: Arith, n: nat, env: EnvId, start: nat, count: nat, i: nat, st: Store): Option<(Outcome, Store)>
    requires i < |ast.StmtList(start, count)|
    decreases n
  {
    if n == 0 then None else
    match EvalStmt(ast, ar, n - 1, env, ast.StmtList(start, count)[i], st)
    case None => None
    case Some((o, st')) =>
      if o.Normal? && i + 1 < count then EvalList(ast, ar, n - 1, env, start, count, i + 1, st') else Some((o, st'))
  }

  function EvalLoop(
      ast: Ast, ar: Arith, n: nat, env: EnvId, test: ExprId, body: StmtId, st: Store): Option<(Outcome, Store)>
    decreases n
  {
    if n == 0 then None else
    match EvalExpr(ast, ar, n - 1, env, test, st)
    case None => None
    case Some((v, st')) =>
      if !Truthy(v) then Some((Normal(Undefined), st'))
      else
        match EvalStmt(ast, ar, n - 1, env, body, st')
        case None => None
        case Some((Broke, st'')) => Some((Normal(Undefined), st''))
        case Some((Returned(r), st'')) => Some((Returned(r), st''))
        case Some((_, st'')) => EvalLoop(ast, ar, n - 1, env, test, body, st'')
  }

  /** A for loop without an initialiser evaluates its test in its place. */
  function EvalFirst(ast: Ast, ar: Arith, n: nat, env: EnvId, test: ExprId, st: Store): Option<(Outcome, Store)> {
    match EvalExpr(ast, ar, n, env, test, st)
    case None => None
    case Some((v, st')) => Some((Normal(v), st'))
  }

  /** A for loop from its test on; the loop with no test always goes on. */
  function EvalFor(
      ast: Ast, ar: Arith, n: nat, env: EnvId, test: ExprId, update: ExprId, body: StmtId, st: Store)
    : Option<(Outcome, Store)>
    decreases n, 0
  {
    if n == 0 then None else
    var w: Option<(JSValue, Store)> :=
      if test == NONE then Some((Bool(true), st)) else EvalExpr(ast, ar, n - 1, env, test, st);
    match w
    case None => None
    case Some((v, st')) =>
      if !Truthy(v) then Some((Normal(Undefined), st'))
      else
        match EvalStmt(ast, ar, n - 1, env, body, st')
        case None => None
        case Some((o, st'')) => EvalAfter(ast, ar, n - 1, env, test, update, body, o, st'')
  }

  /** What the end of its body means for a for loop. Going round again runs the
      update and then the test, whose value is dropped: the loop tests anew. */
  function EvalAfter(
      ast: Ast, ar: Arith, n: nat, env: EnvId, test: ExprId, update: ExprId, body: StmtId, o: Outcome, st: Store)
    : Option<(Outcome, Store)>
    decreases n, 1
  {
    match o
    case Broke => Some((Normal(Undefined), st))
    case Returned(v) => Some((Returned(v), st))
    case _ =>
      if n == 0 then None else
      match EvalDropped(ast, ar, n - 1, env, update, st)
      case None => None
      case Some(st') =>
        match EvalDropped(ast, ar, n - 1, env, test, st')
        case None => None
        case Some(st'') => EvalFor(ast, ar, n - 1, env, test, update, body, st'')
  }

  /** The store after an expression, if there is one. */
  function EvalDropped(ast: Ast, ar: Arith, n: nat, env: EnvId, e: ExprId, st: Store): Option<Store> {
    if e == NONE then Some(st)
    else
      match EvalExpr(ast, ar, n, env, e, st)
      case None => None
      case Some((_, st')) => Some(st')
  }

  // ---------- Agreement ----------

  /** Some number of steps lead from `c` to `d`. */
  ghost predicate Reaches(ast: Ast, ar: Arith, c: Config, d: Config) {
    exists n: nat :: Steps(ast, ar, c, n) == d
  }

  lemma {:induction false} StepsAdd(ast: Ast, ar: Arith, c: Config, a: nat, b: nat)
    ensures Steps(ast, ar, c, a + b) == Steps(ast, ar, Steps(ast, ar, c, a), b)
    decreases a
  {
    if a > 0 {
      StepsAdd(ast, ar, Step(ast, ar, c), a - 1, b);
    }
  }

  lemma ReachesVia(ast: Ast, ar: Arith, c: Config, d: Config, e: Config)
    requires Reaches(ast, ar, c, d) && Reaches(ast, ar, d, e)
    ensures Reaches(ast, ar, c, e)
  {
    var a: nat :| Steps(ast, ar, c, a) == d;
    var b: nat :| Steps(ast, ar, d, b) == e;
    StepsAdd(ast, ar, c, a, b);
  }

  lemma OneStep(ast: Ast, ar: Arith, c: Config)
    ensures Reaches(ast, ar, c, Step(ast, ar, c))
  {
    assert Steps(ast, ar, c, 1) == Steps(ast, ar, Step(ast, ar, c), 0) == Step(ast, ar, c);
  }

  /** One step, then what is already known to follow. */
  lemma StepThen(ast: Ast, ar: Arith, c: Config, d: Config)
    requires Reaches(ast, ar, Step(ast, ar, c), d)
    ensures Reaches(ast, ar, c, d)
  {
    OneStep(ast, ar, c);
    ReachesVia(ast, ar, c, Step(ast, ar, c), d);
  }

  /** An expression's value reaches the continuation it was started on, with
      the evaluator's store; the environment register is not promised. */
  lemma {:induction false} ExprAgrees(
      ast: Ast, ar: Arith, n: nat, env: EnvId, e: ExprId, st: Store, fs: seq<Frame>) returns (env': EnvId)
    requires EvalExpr(ast, ar, n, env, e, st).Some?
    ensures var (v, st') := EvalExpr(ast, ar, n, env, e, st).value;
      Reaches(ast, ar, Running(Expr(e), env, fs, st), Running(Value(v), env', fs, st'))
    decreases n, 1
  {
    hide Reaches, ReadVar, WriteVar, StepStmt, ReturnOut, ApplyLoop, NextStatement;
    var c := Running(Expr(e), env, fs, st);
    env' := env;
    OneStep(ast, ar, c);
    match ast.GetExpr(e).value {
      case Literal(v) =>
      case Identifier(name) =>
      case Unary(op, operand) =>
        env' := ExprThen(ast, ar, n - 1, env, operand, st, UnaryFrame(ast, op, operand, env), fs, c);
      case Binary(_, _, _) => env' := BinaryAgrees(ast, ar, n, env, e, st, fs);
      case Assign(target, value) =>
        var name := ast.GetExpr(target).value.name;
        env' := ExprThen(ast, ar, n - 1, env, value, st, AssignVarK(name, env), fs, c);
      case Conditional(test, t, f) =>
        var envT := ExprThen(ast, ar, n - 1, env, test, st, CondK(t, f, env), fs, c);
        var (v, st') := EvalExpr(ast, ar, n - 1, env, test, st).value;
        var branch := if Truthy(v) then t else f;
        env' := ExprAgrees(ast, ar, n - 1, env, branch, st', fs);
        var (w, st'') := EvalExpr(ast, ar, n - 1, env, branch, st').value;
        ReachesVia(ast, ar, c, Running(Expr(branch), env, fs, st'), Running(Value(w), env', fs, st''));
    }
  }

  lemma {:induction false} BinaryAgrees(
      ast: Ast, ar: Arith, n: nat, env: EnvId, e: ExprId, st: Store, fs: seq<Frame>) returns (env': EnvId)
    requires EvalExpr(ast, ar, n, env, e, st).Some? && ast.GetExpr(e).value.Binary?
    ensures var (v, st') := EvalExpr(ast, ar, n, env, e, st).value;
      Reaches(ast, ar, Running(Expr(e), env, fs, st), Running(Value(v), env', fs, st'))
    decreases n, 0
  {
    hide Reaches, ReadVar, WriteVar, StepStmt, ReturnOut, ApplyLoop, NextStatement;
    var c := Running(Expr(e), env, fs, st);
    var Binary(op, left, right) := ast.GetExpr(e).value;
    var f := Step(ast, ar, c).frames[0];
    var envL := ExprThen(ast, ar, n - 1, env, left, st, f, fs, c);
    var (l, st') := EvalExpr(ast, ar, n - 1, env, left, st).value;
    env' := envL;
    if !Settles(op, l) {
      var mid := Met(ast, ar, f, l, envL, fs, st');
      if ShortCircuits(op) {
        env' := ExprAgrees(ast, ar, n - 1, env, right, st', fs);
      } else {
        env' := ExprAgrees(ast, ar, n - 1, env, right, st', [BinaryRightK(op, l)] + fs);
        var (r, st'') := EvalExpr(ast, ar, n - 1, env, right, st').value;
        MeetFrame(ast, ar, mid, BinaryRightK(op, l), r, env', fs, st'');
      }
      var (v, last) := EvalExpr(ast, ar, n, env, e, st).value;
      ReachesVia(ast, ar, c, mid, Running(Value(v), env', fs, last));
    }
  }

  /** What a frame does to the value it was waiting for. */
  function Met(ast: Ast, ar: Arith, f: Frame, v: JSValue, env: EnvId, fs: seq<Frame>, st: Store): Config {
    ApplyFrame(ast, ar, Running(Value(v), env, fs, st), f, v)
  }

  lemma MeetFrame(
      ast: Ast, ar: Arith, c: Config, f: Frame, v: JSValue, env: EnvId, fs: seq<Frame>, st: Store)
    requires Reaches(ast, ar, c, Running(Value(v), env, [f] + fs, st))
    ensures Reaches(ast, ar, c, Met(ast, ar, f, v, env, fs, st))
  {
    var d := Running(Value(v), env, [f] + fs, st);
    OneStep(ast, ar, d);
    assert d.frames[1..] == fs;
    ReachesVia(ast, ar, c, d, Step(ast, ar, d));
  }

  /** A step that awaits `e` behind `f`: the value is reached, then met by `f`. */
  lemma {:induction false} ExprThen(
      ast: Ast, ar: Arith, n: nat, env: EnvId, e: ExprId, st: Store, f: Frame, fs: seq<Frame>, c: Config)
    returns (env': EnvId)
    requires EvalExpr(ast, ar, n, env, e, st).Some?
    requires Step(ast, ar, c) == Running(Expr(e), env, [f] + fs, st)
    ensures var (v, st') := EvalExpr(ast, ar, n, env, e, st).value;
      Reaches(ast, ar, c, Met(ast, ar, f, v, env', fs, st'))
    decreases n, 2
  {
    env' := ExprAgrees(ast, ar, n, env, e, st, [f] + fs);
    var (v, st') := EvalExpr(ast, ar, n, env, e, st).value;
    StepThen(ast, ar, c, Running(Value(v), env', [f] + fs, st'));
    MeetFrame(ast, ar, c, f, v, env', fs, st');
  }

  /** Where the machine is once a statement has ended: at its value on the same
      continuation, or wherever break, continue or return leads from there. A
      return with no call around it halts, leaving some frames behind. */
  function EndOf(o: Outcome, env: EnvId, fs: seq<Frame>, left: seq<Frame>, st: Store): Config {
    var c := Running(Value(Undefined), env, fs, st);
    match o
    case Normal(v) => ValueOf(v, c)
    case Broke => BreakOut(c)
    case Continued => ContinueLoop(c)
    case Returned(v) =>
      if First([], AtReturn, fs) == |fs| then Running(Halted(v), env, left, st) else ReturnOut(c, v)
  }

  /** Unwinding passes frames it does not stop at. */
  lemma Passes(o: Outcome, env: EnvId, f: Frame, fs: seq<Frame>, left: seq<Frame>, st: Store)
    requires !o.Normal? && !f.ReturnK? && (o.Returned? || !f.IsLoop())
    ensures EndOf(o, env, [f] + fs, left, st) == EndOf(o, env, fs, left, st)
  {
    hide LoopControl, LoopHead;
    var stop := if o.Returned? then AtReturn else AtLoop;
    assert ([f] + fs)[1..] == fs;
    var n := First([], stop, fs);
    assert First([], stop, [f] + fs) == n + 1;
    if n < |fs| { assert ([f] + fs)[n + 2..] == fs[n + 1..] && ([f] + fs)[n + 1] == fs[n]; }
  }

  /** A statement ends, in the machine, as the evaluator says and with its
      store. */
  lemma {:induction false} StmtAgrees(
      ast: Ast, ar: Arith, n: nat, env: EnvId, s: StmtId, st: Store, fs: seq<Frame>)
    returns (env': EnvId, left: seq<Frame>)
    requires EvalStmt(ast, ar, n, env, s, st).Some?
    ensures var (o, st') := EvalStmt(ast, ar, n, env, s, st).value;
      Reaches(ast, ar, Running(Stmt(s), env, fs, st), EndOf(o, env', fs, left, st'))
    decreases n, 1
  {
    hide Reaches, Bind, BindGlobal, EvalExpr, ChildEnv, First, StepExpr, ReturnOut, ApplyLoop, NextStatement;
    var c := Running(Stmt(s), env, fs, st);
    env', left := env, fs;
    OneStep(ast, ar, c);
    var (o, last) := EvalStmt(ast, ar, n, env, s, st).value;
    if s == NONE { return; }
    match ast.GetStmt(s).value {
      case Empty =>
      case ExprStmt(e) => env' := ExprThen(ast, ar, n - 1, env, e, st, ExprStmtK, fs, c);
      case Let(_, _) => env' := BindingAgrees(ast, ar, n, env, s, st, fs);
      case Const(_, _) => env' := BindingAgrees(ast, ar, n, env, s, st, fs);
      case Var(_, _) => env' := BindingAgrees(ast, ar, n, env, s, st, fs);
      case If(_, _, _) => env', left := IfAgrees(ast, ar, n, env, s, st, fs);
      case While(test, body) =>
        env', left := LoopAgrees(ast, ar, n - 1, env, test, body, st, fs);
        StepThen(ast, ar, c, EndOf(o, env', fs, left, last));
      case For(_, _, _, _) => env', left := ForAgrees(ast, ar, n, env, s, st, fs);
      case Block(start, count) =>
        if ast.StmtList(start, count) != [] {
          var (st', inner) := ChildEnv(st, env);
          env', left := ListAgrees(ast, ar, n - 1, inner, start, count, 0, st', fs);
          StepThen(ast, ar, c, EndOf(o, env', fs, left, last));
        }
      case Declarations(start, count) =>
        if ast.StmtList(start, count) != [] {
          env', left := ListAgrees(ast, ar, n - 1, env, start, count, 0, st, fs);
          StepThen(ast, ar, c, EndOf(o, env', fs, left, last));
        }
      case Return(_) => env' := ReturnAgrees(ast, ar, n, env, s, st, fs);
      case Break =>
      case Continue =>
    }
  }

  lemma BindingAgrees(
      ast: Ast, ar: Arith, n: nat, env: EnvId, s: StmtId, st: Store, fs: seq<Frame>)
    returns (env': EnvId)
    requires EvalStmt(ast, ar, n, env, s, st).Some? && ast.GetStmt(s).Some?
    requires var node := ast.GetStmt(s).value; node.Let? || node.Const? || node.Var?
    ensures var (o, st') := EvalStmt(ast, ar, n, env, s, st).value;
      Reaches(ast, ar, Running(Stmt(s), env, fs, st), EndOf(o, env', fs, [], st'))
  {
    hide Reaches, Bind, BindGlobal, EvalExpr, First, StepExpr, ReturnOut, ApplyLoop, NextStatement;
    var c := Running(Stmt(s), env, fs, st);
    env' := env;
    OneStep(ast, ar, c);
    match ast.GetStmt(s).value {
      case Let(name, init) =>
        if init != NONE { env' := ExprThen(ast, ar, n - 1, env, init, st, LetK(name, env), fs, c); }
      case Const(name, init) => env' := ExprThen(ast, ar, n - 1, env, init, st, ConstK(name, env), fs, c);
      case Var(name, init) =>
        if init != NONE { env' := ExprThen(ast, ar, n - 1, env, init, st, VarK(name, env), fs, c); }
    }
  }

  lemma {:induction false} IfAgrees(
      ast: Ast, ar: Arith, n: nat, env: EnvId, s: StmtId, st: Store, fs: seq<Frame>)
    returns (env': EnvId, left: seq<Frame>)
    requires EvalStmt(ast, ar, n, env, s, st).Some? && ast.GetStmt(s).Some? && ast.GetStmt(s).value.If?
    ensures var (o, st') := EvalStmt(ast, ar, n, env, s, st).value;
      Reaches(ast, ar, Running(Stmt(s), env, fs, st), EndOf(o, env', fs, left, st'))
    decreases n, 0
  {
    hide Reaches, EvalExpr, First;
    var c := Running(Stmt(s), env, fs, st);
    var If(test, t, f) := ast.GetStmt(s).value;
    var (o, last) := EvalStmt(ast, ar, n, env, s, st).value;
    env' := ExprThen(ast, ar, n - 1, env, test, st, IfK(t, f, env), fs, c);
    var (v, st') := EvalExpr(ast, ar, n - 1, env, test, st).value;
    var branch := if Truthy(v) then t else f;
    if branch == NONE {
      env', left := env, fs;
    } else {
      env', left := StmtAgrees(ast, ar, n - 1, env, branch, st', fs);
      ReachesVia(ast, ar, c, Running(Stmt(branch), env, fs, st'), EndOf(o, env', fs, left, last));
    }
  }

  lemma ReturnAgrees(ast: Ast, ar: Arith, n: nat, env: EnvId, s: StmtId, st: Store, fs: seq<Frame>)
    returns (env': EnvId)
    requires EvalStmt(ast, ar, n, env, s, st).Some? && ast.GetStmt(s).Some? && ast.GetStmt(s).value.Return?
    ensures var (o, st') := EvalStmt(ast, ar, n, env, s, st).value;
      Reaches(ast, ar, Running(Stmt(s), env, fs, st), EndOf(o, env', fs, fs, st'))
  {
    hide Reaches, EvalExpr, First;
    var c := Running(Stmt(s), env, fs, st);
    var e := ast.GetStmt(s).value.e;
    var (o, last) := EvalStmt(ast, ar, n, env, s, st).value;
    var d := Running(Returning(o.v), env, fs, last);
    env' := env;
    if e == NONE {
      OneStep(ast, ar, c);
    } else {
      env' := ExprThen(ast, ar, n - 1, env, e, st, ReturnExprK, fs, c);
      d := d.(env := env');
    }
    OneStep(ast, ar, d);
    ReachesVia(ast, ar, c, d, EndOf(o, env', fs, fs, last));
  }

  /** The frames a statement list runs on at statement `i`. */
  function RestOf(start: nat, count: nat, i: nat, env: EnvId, fs: seq<Frame>): seq<Frame> {
    if i + 1 < count then [SeqK(start, i + 1, count, env)] + fs else fs
  }

  lemma SeqMet(
      ast: Ast, ar: Arith, start: nat, count: nat, i: nat, v: JSValue, env1: EnvId, env: EnvId, fs: seq<Frame>,
      st: Store)
    requires i + 1 < count == |ast.StmtList(start, count)|
    ensures Met(ast, ar, SeqK(start, i + 1, count, env), v, env1, fs, st)
         == Running(Stmt(ast.StmtList(start, count)[i + 1]), env, RestOf(start, count, i + 1, env, fs), st)
  {
  }

  lemma {:induction false} ListAgrees(
      ast: Ast, ar: Arith, n: nat, env: EnvId, start: nat, count: nat, i: nat, st: Store, fs: seq<Frame>)
    returns (env': EnvId, left: seq<Frame>)
    requires i < |ast.StmtList(start, count)| && EvalList(ast, ar, n, env, start, count, i, st).Some?
    ensures var (o, st') := EvalList(ast, ar, n, env, start, count, i, st).value;
      Reaches(ast, ar, Running(Stmt(ast.StmtList(start, count)[i]), env, RestOf(start, count, i, env, fs), st),
              EndOf(o, env', fs, left, st'))
    decreases n, 1
  {
    hide Reaches, EvalStmt, First, Step, Met, ReturnOut, BreakOut, ContinueLoop;
    var stmt := ast.StmtList(start, count)[i];
    var rest := RestOf(start, count, i, env, fs);
    var c := Running(Stmt(stmt), env, rest, st);
    env', left := StmtAgrees(ast, ar, n - 1, env, stmt, st, rest);
    var (o, st') := EvalStmt(ast, ar, n - 1, env, stmt, st).value;
    if i + 1 < count {
      var seqK := SeqK(start, i + 1, count, env);
      if o.Normal? {
        var env1 := env';
        SeqMet(ast, ar, start, count, i, o.v, env1, env, fs, st');
        MeetFrame(ast, ar, c, seqK, o.v, env1, fs, st');
        env', left := ListAgrees(ast, ar, n - 1, env, start, count, i + 1, st', fs);
        var (o', last) := EvalList(ast, ar, n - 1, env, start, count, i + 1, st').value;
        ReachesVia(ast, ar, c, Met(ast, ar, seqK, o.v, env1, fs, st'), EndOf(o', env', fs, left, last));
      } else {
        Passes(o, env', seqK, fs, left, st');
      }
    }
  }

  lemma {:induction false} LoopAgrees(
      ast: Ast, ar: Arith, n: nat, env: EnvId, test: ExprId, body: StmtId, st: Store, fs: seq<Frame>)
    returns (env': EnvId, left: seq<Frame>)
    requires EvalLoop(ast, ar, n, env, test, body, st).Some?
    ensures var (o, st') := EvalLoop(ast, ar, n, env, test, body, st).value;
      Reaches(ast, ar, Running(Expr(test), env, [WhileK(test, body, env)] + fs, st), EndOf(o, env', fs, left, st'))
    decreases n, 1
  {
    hide Reaches, EvalStmt, EvalExpr, First;
    var c := Running(Expr(test), env, [WhileK(test, body, env)] + fs, st);
    var (o, last) := EvalLoop(ast, ar, n, env, test, body, st).value;
    env' := ExprAgrees(ast, ar, n - 1, env, test, st, [WhileK(test, body, env)] + fs);
    left := fs;
    var (v, st') := EvalExpr(ast, ar, n - 1, env, test, st).value;
    MeetFrame(ast, ar, c, WhileK(test, body, env), v, env', fs, st');
    if Truthy(v) {
      var bodyK := WhileBodyK(test, body, env);
      var d := Running(Stmt(body), env, [bodyK] + fs, st');
      env', left := StmtAgrees(ast, ar, n - 1, env, body, st', [bodyK] + fs);
      var (b, st'') := EvalStmt(ast, ar, n - 1, env, body, st').value;
      ReachesVia(ast, ar, c, d, EndOf(b, env', [bodyK] + fs, left, st''));
      BodyEnds(ast, ar, c, b, env', bodyK, fs, left, st'');
      if b.Normal? || b.Continued? {
        env', left := LoopAgrees(ast, ar, n - 1, env, test, body, st'', fs);
        ReachesVia(ast, ar, c, Running(Expr(test), env, [WhileK(test, body, env)] + fs, st''),
                   EndOf(o, env', fs, left, last));
      }
    }
  }

  /** What a statement's end means for the loop frame it ran on. */
  lemma BodyEnds(
      ast: Ast, ar: Arith, c: Config, b: Outcome, env1: EnvId, f: Frame, fs: seq<Frame>, left: seq<Frame>, st: Store)
    requires f.IsLoop() && Reaches(ast, ar, c, EndOf(b, env1, [f] + fs, left, st))
    ensures b.Continued? || (b.Normal? && (f.WhileBodyK? || f.ForBodyK?)) ==>
      Reaches(ast, ar, c, Again(Running(Value(Undefined), env1, fs, st), f))
    ensures b.Broke? ==> Reaches(ast, ar, c, EndOf(Normal(Undefined), env1, fs, left, st))
    ensures b.Returned? ==> Reaches(ast, ar, c, EndOf(b, env1, fs, left, st))
  {
    hide Reaches;
    assert ([f] + fs)[1..] == fs;
    if b.Normal? { MeetFrame(ast, ar, c, f, b.v, env1, fs, st); }
    if b.Returned? { Passes(b, env1, f, fs, left, st); }
  }

  lemma {:induction false} ForAgrees(
      ast: Ast, ar: Arith, n: nat, env: EnvId, s: StmtId, st: Store, fs: seq<Frame>)
    returns (env': EnvId, left: seq<Frame>)
    requires EvalStmt(ast, ar, n, env, s, st).Some? && ast.GetStmt(s).Some? && ast.GetStmt(s).value.For?
    ensures var (o, st') := EvalStmt(ast, ar, n, env, s, st).value;
      Reaches(ast, ar, Running(Stmt(s), env, fs, st), EndOf(o, env', fs, left, st'))
    decreases n, 0
  {
    hide Reaches, EvalExpr, EvalFor, EvalAfter, First, ChildEnv;
    var For(first, test, update, body) := ast.GetStmt(s).value;
    var c := Running(Stmt(s), env, fs, st);
    var (o, last) := EvalStmt(ast, ar, n, env, s, st).value;
    var (st', inner) := ChildEnv(st, env);
    var testK := ForTestK(test, update, body, inner);
    var d := Step(ast, ar, c);
    var b, st'', env1;
    if first == NONE {
      var (v, st1) := EvalExpr(ast, ar, n - 1, inner, test, st').value;
      b, st'' := Normal(v), st1;
      env1 := ExprAgrees(ast, ar, n - 1, inner, test, st', [testK] + fs);
      left := fs;
    } else {
      env1, left := StmtAgrees(ast, ar, n - 1, inner, first, st', [testK] + fs);
      var (b1, st1) := EvalStmt(ast, ar, n - 1, inner, first, st').value;
      b, st'' := b1, st1;
    }
    StepThen(ast, ar, c, EndOf(b, env1, [testK] + fs, left, st''));
    if b.Normal? {
      env', left := TestAgrees(ast, ar, n - 1, env1, b.v, inner, test, update, body, st'', fs);
      ReachesVia(ast, ar, c, Running(Value(b.v), env1, [testK] + fs, st''), EndOf(o, env', fs, left, last));
    } else {
      env', left := AfterAgrees(ast, ar, n - 1, c, env1, testK, b, st'', fs, left);
    }
  }

  /** A for loop from the moment a value meets its first frame. */
  lemma {:induction false} TestAgrees(
      ast: Ast, ar: Arith, n: nat, env1: EnvId, v: JSValue, env: EnvId, test: ExprId, update: ExprId, body: StmtId,
      st: Store, fs: seq<Frame>)
    returns (env': EnvId, left: seq<Frame>)
    requires EvalFor(ast, ar, n, env, test, update, body, st).Some?
    ensures var (o, st') := EvalFor(ast, ar, n, env, test, update, body, st).value;
      Reaches(ast, ar, Running(Value(v), env1, [ForTestK(test, update, body, env)] + fs, st),
              EndOf(o, env', fs, left, st'))
    decreases n, 1
  {
    hide Reaches, EvalStmt, EvalExpr, EvalAfter, First;
    var c := Running(Value(v), env1, [ForTestK(test, update, body, env)] + fs, st);
    assert c.frames[1..] == fs;
    OneStep(ast, ar, c);
    var resultK, bodyK := ForTestResultK(test, update, body, env), ForBodyK(test, update, body, env);
    var (w, st') := if test == NONE then (Bool(true), st) else EvalExpr(ast, ar, n - 1, env, test, st).value;
    env', left := env1, fs;
    if test != NONE {
      env' := ExprThen(ast, ar, n - 1, env, test, st, resultK, fs, c);
    }
    if Truthy(w) {
      var d := Running(Stmt(body), env, [bodyK] + fs, st');
      env', left := StmtAgrees(ast, ar, n - 1, env, body, st', [bodyK] + fs);
      var (b, st'') := EvalStmt(ast, ar, n - 1, env, body, st').value;
      ReachesVia(ast, ar, c, d, EndOf(b, env', [bodyK] + fs, left, st''));
      env', left := AfterAgrees(ast, ar, n - 1, c, env', bodyK, b, st'', fs, left);
    }
  }

  /** A for loop from the end of its body, or of an initialiser that did not
      end normally. */
  lemma {:induction false} AfterAgrees(
      ast: Ast, ar: Arith, n: nat, c: Config, env1: EnvId, f: Frame, b: Outcome, st: Store, fs: seq<Frame>,
      left1: seq<Frame>)
    returns (env': EnvId, left: seq<Frame>)
    requires f.ForBodyK? || (f.ForTestK? && !b.Normal?)
    requires EvalAfter(ast, ar, n, f.env, f.test, f.update, f.body, b, st).Some?
    requires Reaches(ast, ar, c, EndOf(b, env1, [f] + fs, left1, st))
    ensures var (o, st') := EvalAfter(ast, ar, n, f.env, f.test, f.update, f.body, b, st).value;
      Reaches(ast, ar, c, EndOf(o, env', fs, left, st'))
    decreases n, 2
  {
    hide Reaches, EvalStmt, EvalExpr, EvalFor, First;
    BodyEnds(ast, ar, c, b, env1, f, fs, left1, st);
    env', left := env1, left1;
    if b.Normal? || b.Continued? {
      var (o, last) := EvalAfter(ast, ar, n, f.env, f.test, f.update, f.body, b, st).value;
      var d := Again(Running(Value(Undefined), env1, fs, st), f);
      var testK := ForTestK(f.test, f.update, f.body, f.env);
      var st' := EvalDropped(ast, ar, n - 1, f.env, f.update, st).value;
      var e := Running(ForTest(f.test), f.env, [testK] + fs, st');
      if f.update != NONE {
        env' := ExprAgrees(ast, ar, n - 1, f.env, f.update, st, [LoopHead(f)] + fs);
        MeetFrame(ast, ar, d, LoopHead(f), EvalExpr(ast, ar, n - 1, f.env, f.update, st).value.0, env', fs, st');
        ReachesVia(ast, ar, c, d, e);
      }
      var st'' := EvalDropped(ast, ar, n - 1, f.env, f.test, st').value;
      var v := Bool(true);
      env' := f.env;
      if f.test != NONE {
        env' := ExprAgrees(ast, ar, n - 1, f.env, f.test, st', [testK] + fs);
        v := EvalExpr(ast, ar, n - 1, f.env, f.test, st').value.0;
        ReachesVia(ast, ar, c, e, Running(Value(v), env', [testK] + fs, st''));
      }
      var g := Running(Value(v), env', [testK] + fs, st'');
      env', left := TestAgrees(ast, ar, n - 1, env', v, f.env, f.test, f.update, f.body, st'', fs);
      ReachesVia(ast, ar, c, g, EndOf(o, env', fs, left, last));
    }
  }
}
