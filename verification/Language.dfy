/** A fragment of the language and the machine that runs it one step at a time
    (src/cekh.rs:127-153, 172-280, 556-726, 784-1076, 1231-1529), on immutable
    frame lists. */
module Language {
  import opened Values
  import opened FrameLists

  datatype ExprNode =
    | Literal(v: JSValue)
    | Identifier(name: Str)
    | Unary(op: UnaryOp, operand: ExprId)
    | Binary(bop: BinaryOp, left: ExprId, right: ExprId)
    | Assign(target: ExprId, value: ExprId)
    | Conditional(test: ExprId, ifTrue: ExprId, ifFalse: ExprId)

  datatype StmtNode =
    | Empty
    | ExprStmt(e: ExprId)
    | Let(name: Str, init: ExprId)
    | Const(name: Str, init: ExprId)
    | Var(name: Str, init: ExprId)
    | If(test: ExprId, consequent: StmtId, alternate: StmtId)
    | While(test: ExprId, body: StmtId)
    | For(first: StmtId, test: ExprId, update: ExprId, body: StmtId)
    | Block(start: nat, count: nat)
    | Declarations(start: nat, count: nat)
    | Return(e: ExprId)
    | Break
    | Continue

  /** The syntax-tree arena: nodes and statement lists refer to each other by index. */
  datatype Ast = Ast(exprs: seq<ExprNode>, stmts: seq<StmtNode>, lists: seq<StmtId>) {
    function GetExpr(e: ExprId): Option<ExprNode> {
      if e == NONE || e >= |exprs| then Option.None else Some(exprs[e])
    }

    function GetStmt(s: StmtId): Option<StmtNode> {
      if s == NONE || s >= |stmts| then Option.None else Some(stmts[s])
    }

    /** A list out of bounds reads as empty. */
    function StmtList(start: nat, count: nat): (r: seq<StmtId>)
      ensures r == [] || |r| == count
    {
      if start + count <= |lists| then lists[start..start + count] else []
    }
  }

  /** The strict operators, whose arithmetic is not modelled: any functions.
      `update` is the number one above (true) or below the value's. */
  datatype Arith = Arith(
    unary: (UnaryOp, JSValue) -> JSValue,
    update: (bool, JSValue) -> JSValue,
    binary: (BinaryOp, JSValue, JSValue) -> JSValue)

  /** `f != 0.0 && !f.is_nan()` on the bit pattern. */
  predicate FloatTruthy(bits: u64) {
    0 < bits % 0x8000_0000_0000_0000 <= 0x7FF0_0000_0000_0000
  }

  predicate Truthy(v: JSValue) {
    match v
    case Undefined => false
    case Null => false
    case Bool(b) => b
    case Int(n) => n != 0
    case Float(bits) => FloatTruthy(bits)
    case String(s) => s != []
    case _ => true
  }

  predicate Nullish(v: JSValue) {
    v.Undefined? || v.Null?
  }

  // ---------- Variables ----------

  datatype Store = Store(envs: Slab<Env>, globals: map<Str, JSValue>)

  /** The nearest environment from `e` outwards that binds `name`, visiting
      none twice. */
  function Walk(envs: seq<Env>, e: EnvId, name: Str, todo: set<EnvId>): (r: Option<EnvId>)
    ensures r.Some? ==> r.value < |envs| && name in envs[r.value].bindings
    decreases todo
  {
    if e !in todo || e >= |envs| then Option.None
    else if name in envs[e].bindings then Some(e)
    else if envs[e].parent.Some? then Walk(envs, envs[e].parent.value, name, todo - {e})
    else Option.None
  }

  function Indices(n: nat): (r: set<nat>)
    ensures forall i: nat :: i in r <==> i < n
  {
    if n == 0 then {} else Indices(n - 1) + {n - 1}
  }

  function FindBinding(st: Store, env: EnvId, name: Str): (r: Option<EnvId>)
    ensures r.Some? ==> r.value < |st.envs.data| && name in st.envs.data[r.value].bindings
  {
    Walk(st.envs.data, env, name, Indices(|st.envs.data|))
  }

  /** An unbound name reads as a global, and a missing global as undefined. */
  function ReadVar(st: Store, env: EnvId, name: Str): JSValue {
    var b := FindBinding(st, env, name);
    if b.Some? then st.envs.data[b.value].bindings[name]
    else if name in st.globals then st.globals[name]
    else Undefined
  }

  function Bind(st: Store, e: EnvId, name: Str, v: JSValue): Store {
    if e < |st.envs.data| then
      var env := st.envs.data[e];
      st.(envs := st.envs.(data := st.envs.data[e := env.(bindings := env.bindings[name := v])]))
    else st
  }

  function BindGlobal(st: Store, name: Str, v: JSValue): Store {
    st.(globals := st.globals[name := v])
  }

  function WriteVar(st: Store, env: EnvId, name: Str, v: JSValue): Store {
    var b := FindBinding(st, env, name);
    if b.Some? then Bind(st, b.value, name, v) else BindGlobal(st, name, v)
  }

  // ---------- The machine ----------

  datatype Config =
    | Running(control: Control, env: EnvId, frames: seq<Frame>, store: Store)
    | Crashed(error: JSError)

  const NOT_MODELLED := Crashed(InternalError(Ascii("not part of this model")))

  function ValueOf(v: JSValue, c: Config): Config
    requires c.Running?
  {
    c.(control := Value(v))
  }

  /** Evaluate `e` with `f` waiting for its value. */
  function Await(e: ExprId, f: Frame, c: Config): Config
    requires c.Running?
  {
    c.(control := Expr(e), frames := [f] + c.frames)
  }

  predicate Updates(op: UnaryOp) {
    op.PreInc? || op.PostInc? || op.PreDec? || op.PostDec?
  }

  /** Incrementing anything but a variable changes nothing. */
  function UnaryFrame(ast: Ast, op: UnaryOp, operand: ExprId, env: EnvId): Frame {
    match ast.GetExpr(operand)
    case Some(Identifier(name)) =>
      if Updates(op) then UpdateVarK(name, op.PreInc? || op.PreDec?, op.PreInc? || op.PostInc?, env) else UnaryK(op)
    case _ => UnaryK(op)
  }

  function StepExpr(ast: Ast, c: Config, e: ExprId): Config
    requires c.Running?
  {
    match ast.GetExpr(e)
    case None => Crashed(InternalError(Ascii("Invalid expression ID")))
    case Some(Literal(v)) => ValueOf(v, c)
    case Some(Identifier(name)) => ValueOf(ReadVar(c.store, c.env, name), c)
    case Some(Unary(op, operand)) => Await(operand, UnaryFrame(ast, op, operand, c.env), c)
    case Some(Binary(And, left, right)) => Await(left, AndK(right, c.env), c)
    case Some(Binary(Or, left, right)) => Await(left, OrK(right, c.env), c)
    case Some(Binary(NullishCoalesce, left, right)) => Await(left, NullishK(right, c.env), c)
    case Some(Binary(op, left, right)) => Await(left, BinaryLeftK(op, right, c.env), c)
    case Some(Assign(target, value)) =>
      (match ast.GetExpr(target)
       case None => Crashed(InternalError(Ascii("Invalid assignment target")))
       case Some(Identifier(name)) => Await(value, AssignVarK(name, c.env), c)
       case Some(_) => Crashed(TypeError(Ascii("Invalid assignment target"))))
    case Some(Conditional(test, t, f)) => Await(test, CondK(t, f, c.env), c)
  }

  /** Enter a statement list in `env`. */
  function EnterList(ast: Ast, c: Config, start: nat, count: nat, env: EnvId): Config
    requires c.Running? && ast.StmtList(start, count) != []
  {
    var stmts := ast.StmtList(start, count);
    c.(control := Stmt(stmts[0]), env := env,
       frames := if |stmts| > 1 then [SeqK(start, 1, count, env)] + c.frames else c.frames)
  }

  /** A block's environment. */
  function ChildEnv(st: Store, parent: EnvId): (r: (Store, EnvId)) {
    var (envs, id) := Alloc(st.envs, Env(map[], Some(parent)));
    (st.(envs := envs), id)
  }

  function Declare(c: Config, node: StmtNode): Config
    requires c.Running? && (node.Let? || node.Const? || node.Var?)
  {
    match node
    case Let(name, init) =>
      if init != NONE then Await(init, LetK(name, c.env), c)
      else ValueOf(Undefined, c).(store := Bind(c.store, c.env, name, Undefined))
    case Const(name, init) =>
      if init != NONE then Await(init, ConstK(name, c.env), c)
      else Crashed(SyntaxError(Ascii("const requires initializer")))
    case Var(name, init) =>
      if init != NONE then Await(init, VarK(name, c.env), c)
      else ValueOf(Undefined, c).(store := BindGlobal(c.store, name, Undefined))
  }

  /** A loop or a block has an environment of its own; declarations do not. */
  function EnterScope(ast: Ast, c: Config, node: StmtNode): Config
    requires c.Running? && (node.For? || node.Block? || node.Declarations?)
  {
    match node
    case For(first, test, update, body) =>
      var (st, env) := ChildEnv(c.store, c.env);
      c.(control := if first != NONE then Stmt(first) else Expr(test), env := env, store := st,
         frames := [ForTestK(test, update, body, env)] + c.frames)
    case Block(start, count) =>
      if ast.StmtList(start, count) == [] then ValueOf(Undefined, c)
      else
        var (st, env) := ChildEnv(c.store, c.env);
        EnterList(ast, c.(store := st), start, count, env)
    case Declarations(start, count) =>
      if ast.StmtList(start, count) == [] then ValueOf(Undefined, c)
      else EnterList(ast, c, start, count, c.env)
  }

  function StepStmt(ast: Ast, c: Config, s: StmtId): Config
    requires c.Running?
  {
    if s == NONE then ValueOf(Undefined, c) else
    match ast.GetStmt(s)
    case None => Crashed(InternalError(Ascii("Invalid statement ID")))
    case Some(Empty) => ValueOf(Undefined, c)
    case Some(ExprStmt(e)) => Await(e, ExprStmtK, c)
    case Some(Let(_, _)) => Declare(c, ast.GetStmt(s).value)
    case Some(Const(_, _)) => Declare(c, ast.GetStmt(s).value)
    case Some(Var(_, _)) => Declare(c, ast.GetStmt(s).value)
    case Some(If(test, t, f)) => Await(test, IfK(t, f, c.env), c)
    case Some(While(test, body)) => Await(test, WhileK(test, body, c.env), c)
    case Some(For(_, _, _, _)) => EnterScope(ast, c, ast.GetStmt(s).value)
    case Some(Block(_, _)) => EnterScope(ast, c, ast.GetStmt(s).value)
    case Some(Declarations(_, _)) => EnterScope(ast, c, ast.GetStmt(s).value)
    case Some(Return(e)) => if e != NONE then Await(e, ReturnExprK, c) else c.(control := Returning(Undefined))
    case Some(Break) => BreakOut(c)
    case Some(Continue) => ContinueLoop(c)
  }

  /** handle_break: drop frames through the innermost loop. */
  function BreakOut(c: Config): Config
    requires c.Running?
  {
    var n := First([], AtLoop, c.frames);
    if n == |c.frames| then Crashed(SyntaxError(Ascii("break outside loop")))
    else ValueOf(Undefined, c).(frames := c.frames[n + 1..])
  }

  /** What a loop evaluates next once its body is done. */
  function LoopControl(f: Frame): Control
    requires f.IsLoop()
  {
    if f.WhileK? || f.WhileBodyK? then Expr(f.test)
    else if f.update != NONE then Expr(f.update)
    else ForTest(f.test)
  }

  /** A for loop with no test goes on. */
  function ForTest(test: ExprId): Control {
    if test != NONE then Expr(test) else Value(Bool(true))
  }

  /** Back to the head of the loop of `f`. */
  function Again(c: Config, f: Frame): Config
    requires c.Running? && f.IsLoop()
  {
    c.(control := LoopControl(f), env := f.env, frames := [LoopHead(f)] + c.frames)
  }

  /** handle_continue: back to the head of the innermost loop. */
  function ContinueLoop(c: Config): Config
    requires c.Running?
  {
    var n := First([], AtLoop, c.frames);
    if n == |c.frames| then Crashed(SyntaxError(Ascii("continue outside loop")))
    else Again(c.(frames := c.frames[n + 1..]), c.frames[n])
  }

  /** handle_return: drop frames through the innermost call. */
  function ReturnOut(c: Config, v: JSValue): Config
    requires c.Running?
  {
    var n := First([], AtReturn, c.frames);
    if n == |c.frames| then c.(control := Halted(v))
    else c.(control := Value(v), env := c.frames[n].env, frames := c.frames[n + 1..])
  }

  /** A statement of a list is done: the next one, or the list's value. */
  function NextStatement(ast: Ast, c: Config, start: nat, idx: nat, count: nat, env: EnvId, v: JSValue): Config
    requires c.Running?
  {
    var stmts := ast.StmtList(start, count);
    if idx >= count then ValueOf(v, c)
    else if idx >= |stmts| then NOT_MODELLED
    else
      c.(control := Stmt(stmts[idx]), env := env,
         frames := if idx + 1 < count then [SeqK(start, idx + 1, count, env)] + c.frames else c.frames)
  }

  /** ++ and -- write the variable and give its new value, or its old. */
  function UpdateVar(ar: Arith, c: Config, name: Str, isPre: bool, isInc: bool, env: EnvId, v: JSValue): Config
    requires c.Running?
  {
    var w := ar.update(isInc, v);
    ValueOf(if isPre then w else v, c).(store := WriteVar(c.store, env, name, w))
  }

  /** The frames of the forms this model leaves out. */
  predicate Outside(f: Frame) {
    || f.MemberK? || f.IndexObjK? || f.IndexKeyK?
    || f.AssignMemberObjK? || f.AssignMemberValK? || f.AssignIndexObjK? || f.AssignIndexKeyK? || f.AssignIndexValK?
    || f.CalleeK? || f.ArgsK? || f.ArrayK? || f.ObjectK? || f.BlockK? || f.MatchK?
    || f.HandlerK? || f.PerformArgsK? || f.HandleWithK?
  }

  /** A value meets a loop's frame. */
  function ApplyLoop(c: Config, f: Frame, v: JSValue): Config
    requires c.Running? && f.IsLoop()
  {
    match f
    case WhileK(test, body, env) =>
      if Truthy(v) then EnterBody(c, body, WhileBodyK(test, body, env)) else ValueOf(Undefined, c)
    case ForTestK(test, update, body, env) =>
      if test != NONE then Await(test, ForTestResultK(test, update, body, env), c.(env := env))
      else EnterBody(c, body, ForBodyK(test, update, body, env))
    case ForTestResultK(test, update, body, env) =>
      if Truthy(v) then EnterBody(c, body, ForBodyK(test, update, body, env)) else ValueOf(Undefined, c)
    case ForUpdateK(test, update, body, env) =>
      c.(control := ForTest(test), env := env, frames := [ForTestK(test, update, body, env)] + c.frames)
    case WhileBodyK(_, _, _) => Again(c, f)
    case ForBodyK(_, _, _, _) => Again(c, f)
  }

  /** Run a loop's body with `f` waiting for it. */
  function EnterBody(c: Config, body: StmtId, f: Frame): Config
    requires c.Running? && f.IsLoop()
  {
    c.(control := Stmt(body), env := f.env, frames := [f] + c.frames)
  }

  predicate IsOperator(f: Frame) {
    f.UnaryK? || f.BinaryLeftK? || f.BinaryRightK? || f.AndK? || f.OrK? || f.NullishK? || f.CondK?
  }

  predicate IsVariable(f: Frame) {
    f.AssignVarK? || f.UpdateVarK? || f.LetK? || f.ConstK? || f.VarK?
  }

  function ApplyOperator(ar: Arith, c: Config, f: Frame, v: JSValue): Config
    requires c.Running? && IsOperator(f)
  {
    match f
    case UnaryK(op) => ValueOf(if op.Not? then Bool(!Truthy(v)) else ar.unary(op, v), c)
    case BinaryLeftK(op, right, env) => Await(right, BinaryRightK(op, v), c.(env := env))
    case BinaryRightK(op, left) => ValueOf(ar.binary(op, left, v), c)
    case AndK(right, env) => if !Truthy(v) then ValueOf(v, c) else c.(control := Expr(right), env := env)
    case OrK(right, env) => if Truthy(v) then ValueOf(v, c) else c.(control := Expr(right), env := env)
    case NullishK(right, env) => if !Nullish(v) then ValueOf(v, c) else c.(control := Expr(right), env := env)
    case CondK(t, e, env) => c.(control := Expr(if Truthy(v) then t else e), env := env)
  }

  function ApplyVariable(ar: Arith, c: Config, f: Frame, v: JSValue): Config
    requires c.Running? && IsVariable(f)
  {
    match f
    case AssignVarK(name, env) => ValueOf(v, c).(store := WriteVar(c.store, env, name, v))
    case UpdateVarK(name, isPre, isInc, env) => UpdateVar(ar, c, name, isPre, isInc, env, v)
    case LetK(name, env) => ValueOf(Undefined, c).(store := Bind(c.store, env, name, v))
    case ConstK(name, env) => ValueOf(Undefined, c).(store := Bind(c.store, env, name, v))
    case VarK(name, _) => ValueOf(Undefined, c).(store := BindGlobal(c.store, name, v))
  }

  function ApplyStatement(ast: Ast, c: Config, f: Frame, v: JSValue): Config
    requires c.Running? && !Outside(f) && !f.IsLoop() && !IsOperator(f) && !IsVariable(f)
  {
    match f
    case IfK(t, e, env) =>
      var branch := if Truthy(v) then t else e;
      (if branch != NONE then c.(control := Stmt(branch)) else ValueOf(Undefined, c)).(env := env)
    case SeqK(start, idx, count, env) => NextStatement(ast, c, start, idx, count, env, v)
    case ExprStmtK => ValueOf(v, c)
    case ReturnK(env) => ValueOf(v, c).(env := env)
    case ReturnExprK => c.(control := Returning(v))
  }

  /** A value meets the innermost frame, which is gone from `c`. */
  function ApplyFrame(ast: Ast, ar: Arith, c: Config, f: Frame, v: JSValue): Config
    requires c.Running?
  {
    if Outside(f) then NOT_MODELLED
    else if f.IsLoop() then ApplyLoop(c, f, v)
    else if IsOperator(f) then ApplyOperator(ar, c, f, v)
    else if IsVariable(f) then ApplyVariable(ar, c, f, v)
    else ApplyStatement(ast, c, f, v)
  }

  function Step(ast: Ast, ar: Arith, c: Config): Config {
    if c.Crashed? then c
    else
      match c.control
      case Expr(e) => StepExpr(ast, c, e)
      case Stmt(s) => StepStmt(ast, c, s)
      case Value(v) =>
        if c.frames == [] then c.(control := Halted(v))
        else ApplyFrame(ast, ar, c.(frames := c.frames[1..]), c.frames[0], v)
      case Returning(v) => ReturnOut(c, v)
      case Halted(_) => c
      case Suspend(_, _) => c
  }

  function Steps(ast: Ast, ar: Arith, c: Config, n: nat): Config
    decreases n
  {
    if n == 0 then c else Steps(ast, ar, Step(ast, ar, c), n - 1)
  }
}
