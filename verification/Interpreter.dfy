/** The machine as the source has it: registers, an arena of destructively taken
    frames and an arena of environments, stepped in place. Each method is proved
    to take the step of the frame-list machine. */
module InterpreterObject {
  import opened Values
  import opened Boundary
  import opened ArenaObject
  import opened FrameLists
  import opened Continuations
  import opened ContMachine
  import opened Environments
  import L = Language

  // ---------- Chain walks end ----------

  /** Walking a well-founded chain finds the nearest binder. */
  lemma {:induction false} WalkIsBinder(
      envs: seq<Env>, e: EnvId, name: Str, todo: set<EnvId>, ranks: map<EnvId, nat>)
    requires Ranked(envs, ranks) && e in ranks
    requires forall x :: x in ranks && ranks[x] <= ranks[e] ==> x in todo
    ensures L.Walk(envs, e, name, todo) == Binder(envs, e, name, ranks)
    decreases ranks[e]
  {
    if name !in envs[e].bindings && envs[e].parent.Some? {
      WalkIsBinder(envs, envs[e].parent.value, name, todo - {e}, ranks);
    }
  }

  lemma FoundIsBinder(st: L.Store, e: EnvId, name: Str, ranks: map<EnvId, nat>)
    requires Ranked(st.envs.data, ranks) && e in ranks
    ensures L.FindBinding(st, e, name) == Binder(st.envs.data, e, name, ranks)
  {
    WalkIsBinder(st.envs.data, e, name, L.Indices(|st.envs.data|), ranks);
  }

  /** Every environment the registers and frames name has a well-founded chain
      of slots in use. */
  ghost predicate Anchored(c: L.Config, ranks: map<EnvId, nat>) {
    && c.Running? && Clean(c.store.envs) && Ranked(c.store.envs.data, ranks) && c.env in ranks
    && (forall e :: e in ranks ==> e !in c.store.envs.free)
    && (forall i :: 0 <= i < |c.frames| ==> EnvOf(c.frames[i]).Some? ==> EnvOf(c.frames[i]).value in ranks)
  }

  /** The environment a frame of the fragment restores. */
  ghost function EnvOf(f: Frame): Option<EnvId> {
    match f
    case BinaryLeftK(_, _, env) => Some(env)
    case AndK(_, env) => Some(env)
    case OrK(_, env) => Some(env)
    case NullishK(_, env) => Some(env)
    case AssignVarK(_, env) => Some(env)
    case UpdateVarK(_, _, _, env) => Some(env)
    case CondK(_, _, env) => Some(env)
    case IfK(_, _, env) => Some(env)
    case WhileK(_, _, env) => Some(env)
    case WhileBodyK(_, _, env) => Some(env)
    case ForTestK(_, _, _, env) => Some(env)
    case ForTestResultK(_, _, _, env) => Some(env)
    case ForBodyK(_, _, _, env) => Some(env)
    case ForUpdateK(_, _, _, env) => Some(env)
    case ReturnK(env) => Some(env)
    case LetK(_, env) => Some(env)
    case ConstK(_, env) => Some(env)
    case VarK(_, env) => Some(env)
    case SeqK(_, _, _, env) => Some(env)
    case _ => None
  }

  /** A step keeps every chain well-founded; a block's environment ranks above
      its parent. */
  lemma StepKeepsAnchored(ast: L.Ast, ar: L.Arith, c: L.Config, ranks: map<EnvId, nat>)
    returns (ranks': map<EnvId, nat>)
    requires Anchored(c, ranks) && L.Step(ast, ar, c).Running?
    ensures Anchored(L.Step(ast, ar, c), ranks')
  {
    hide Anchored, L.StepExpr, L.StepStmt, L.ApplyFrame, L.ReturnOut;
    ranks' := ranks;
    match c.control {
      case Expr(e) => ExprKeepsAnchored(ast, c, e, ranks);
      case Stmt(s) => ranks' := StmtKeepsAnchored(ast, ar, c, s, ranks);
      case Value(v) => ValueKeepsAnchored(ast, ar, c, v, ranks);
      case Returning(v) => ReturnKeepsAnchored(c, v, ranks);
      case Halted(_) =>
      case Suspend(_, _) =>
    }
  }

  lemma ExprKeepsAnchored(ast: L.Ast, c: L.Config, e: ExprId, ranks: map<EnvId, nat>)
    requires Anchored(c, ranks) && L.StepExpr(ast, c, e).Running?
    ensures Anchored(L.StepExpr(ast, c, e), ranks)
  {
    hide L.ReadVar, Ranked, Clean;
  }

  lemma ValueKeepsAnchored(ast: L.Ast, ar: L.Arith, c: L.Config, v: JSValue, ranks: map<EnvId, nat>)
    requires Anchored(c, ranks) && c.control == Value(v) && L.Step(ast, ar, c).Running?
    ensures Anchored(L.Step(ast, ar, c), ranks)
  {
    hide L.ApplyFrame, Ranked, Clean;
    if c.frames != [] { FrameKeepsAnchored(ast, ar, c, v, ranks); }
  }

  lemma ReturnKeepsAnchored(c: L.Config, v: JSValue, ranks: map<EnvId, nat>)
    requires Anchored(c, ranks)
    ensures Anchored(L.ReturnOut(c, v), ranks)
  {
    hide Ranked, Clean;
    SuffixKeepsAnchored(c, ranks);
  }

  lemma SuffixKeepsAnchored(c: L.Config, ranks: map<EnvId, nat>)
    requires Anchored(c, ranks)
    ensures forall n: nat :: n <= |c.frames| ==> Anchored(c.(frames := c.frames[n..]), ranks)
  {
  }

  lemma BindKeepsAnchored(c: L.Config, ranks: map<EnvId, nat>, e: EnvId, name: Str, v: JSValue)
    requires Anchored(c, ranks)
    ensures Anchored(c.(store := L.Bind(c.store, e, name, v)), ranks)
  {
  }

  lemma StmtKeepsAnchored(ast: L.Ast, ar: L.Arith, c: L.Config, s: StmtId, ranks: map<EnvId, nat>)
    returns (ranks': map<EnvId, nat>)
    requires Anchored(c, ranks) && c.control == Stmt(s) && L.StepStmt(ast, c, s).Running?
    ensures Anchored(L.StepStmt(ast, c, s), ranks')
  {
    hide First, Ranked, Clean, L.ChildEnv, L.Bind;
    ranks' := ranks;
    if s == NONE { return; }
    match ast.GetStmt(s).value {
      case Let(name, init) => BindKeepsAnchored(c, ranks, c.env, name, Undefined);
      case For(_, _, _, _) => ranks' := ChildKeepsAnchored(c, ranks);
      case Block(start, count) =>
        if ast.StmtList(start, count) != [] { ranks' := ChildKeepsAnchored(c, ranks); }
      case Break => SuffixKeepsAnchored(c, ranks);
      case Continue => SuffixKeepsAnchored(c, ranks);
      case _ =>
    }
  }

  lemma ChildKeepsAnchored(c: L.Config, ranks: map<EnvId, nat>) returns (ranks': map<EnvId, nat>)
    requires Anchored(c, ranks)
    ensures var (st, env) := L.ChildEnv(c.store, c.env);
      Anchored(c.(store := st, env := env), ranks') && forall e :: e in ranks ==> e in ranks'
  {
    AllocGrows(c.store.envs, Env(map[], Some(c.env)));
    var (st, env) := L.ChildEnv(c.store, c.env);
    ranks' := ranks[env := ranks[c.env] + 1];
  }

  /** Moving on within the store, with at most one more frame. */
  lemma MoveKeepsAnchored(c: L.Config, d: L.Config, ranks: map<EnvId, nat>)
    requires Anchored(c, ranks) && d.Running? && d.store == c.store && d.env in ranks
    requires d.frames == c.frames
          || (d.frames != [] && d.frames[1..] == c.frames
              && (EnvOf(d.frames[0]).Some? ==> EnvOf(d.frames[0]).value in ranks))
    ensures Anchored(d, ranks)
  {
    hide Ranked, Clean, EnvOf;
    forall i | 0 <= i < |d.frames| && EnvOf(d.frames[i]).Some? ensures EnvOf(d.frames[i]).value in ranks {
      if d.frames != c.frames && i > 0 { assert d.frames[i] == c.frames[i - 1]; }
    }
  }

  lemma FrameKeepsAnchored(ast: L.Ast, ar: L.Arith, c: L.Config, v: JSValue, ranks: map<EnvId, nat>)
    requires Anchored(c, ranks) && c.frames != []
    requires L.ApplyFrame(ast, ar, c.(frames := c.frames[1..]), c.frames[0], v).Running?
    ensures Anchored(L.ApplyFrame(ast, ar, c.(frames := c.frames[1..]), c.frames[0], v), ranks)
  {
    hide Ranked, Clean, L.ApplyVariable, L.ApplyLoop, L.ApplyOperator, L.ApplyStatement;
    var f, d := c.frames[0], c.(frames := c.frames[1..]);
    assert Anchored(d, ranks);
    if f.IsLoop() { LoopKeepsAnchored(d, f, v, ranks); }
    else if L.IsOperator(f) { OperatorKeepsAnchored(ar, d, f, v, ranks); }
    else if L.IsVariable(f) { VariableKeepsAnchored(ar, d, f, v, ranks); }
    else { StatementKeepsAnchored(ast, d, f, v, ranks); }
  }

  lemma LoopKeepsAnchored(c: L.Config, f: Frame, v: JSValue, ranks: map<EnvId, nat>)
    requires Anchored(c, ranks) && f.IsLoop() && f.env in ranks
    ensures Anchored(L.ApplyLoop(c, f, v), ranks)
  {
    assert c.env in ranks;
    hide Anchored;
    MoveKeepsAnchored(c, L.ApplyLoop(c, f, v), ranks);
  }

  lemma OperatorKeepsAnchored(ar: L.Arith, c: L.Config, f: Frame, v: JSValue, ranks: map<EnvId, nat>)
    requires Anchored(c, ranks) && L.IsOperator(f) && (EnvOf(f).Some? ==> EnvOf(f).value in ranks)
    ensures Anchored(L.ApplyOperator(ar, c, f, v), ranks)
  {
    assert c.env in ranks;
    hide Anchored;
    MoveKeepsAnchored(c, L.ApplyOperator(ar, c, f, v), ranks);
  }

  lemma StatementKeepsAnchored(ast: L.Ast, c: L.Config, f: Frame, v: JSValue, ranks: map<EnvId, nat>)
    requires Anchored(c, ranks) && (EnvOf(f).Some? ==> EnvOf(f).value in ranks)
    requires !L.Outside(f) && !f.IsLoop() && !L.IsOperator(f) && !L.IsVariable(f)
    requires L.ApplyStatement(ast, c, f, v).Running?
    ensures Anchored(L.ApplyStatement(ast, c, f, v), ranks)
  {
    assert c.env in ranks;
    hide Anchored;
    MoveKeepsAnchored(c, L.ApplyStatement(ast, c, f, v), ranks);
  }

  lemma WriteKeepsAnchored(c: L.Config, ranks: map<EnvId, nat>, env: EnvId, name: Str, v: JSValue)
    requires Anchored(c, ranks)
    ensures Anchored(c.(store := L.WriteVar(c.store, env, name, v)), ranks)
  {
    hide Ranked, Clean, L.Bind, L.FindBinding;
    var b := L.FindBinding(c.store, env, name);
    if b.Some? { BindKeepsAnchored(c, ranks, b.value, name, v); }
  }

  lemma VariableKeepsAnchored(ar: L.Arith, c: L.Config, f: Frame, v: JSValue, ranks: map<EnvId, nat>)
    requires Anchored(c, ranks) && L.IsVariable(f)
    ensures Anchored(L.ApplyVariable(ar, c, f, v), ranks)
  {
    hide Ranked, Clean, L.Bind, L.WriteVar;
    match f {
      case AssignVarK(name, env) => WriteKeepsAnchored(c, ranks, env, name, v);
      case UpdateVarK(name, _, isInc, env) => WriteKeepsAnchored(c, ranks, env, name, ar.update(isInc, v));
      case LetK(name, env) => BindKeepsAnchored(c, ranks, env, name, v);
      case ConstK(name, env) => BindKeepsAnchored(c, ranks, env, name, v);
      case VarK(_, _) =>
    }
  }

  lemma TopAfterPush(l: Lists, f: Frame)
    requires l.Valid()
    ensures Apply([], l, Op.Push(f)).Top() == [f] + l.Top()
  {
  }

  lemma TopAfterPop(l: Lists)
    requires l.Valid()
    ensures Apply([], l, Op.Pop).Top() == if l.Top() == [] then [] else l.Top()[1..]
  {
  }

  lemma TopAfterUnwind(l: Lists)
    requires l.Valid()
    ensures Apply([], l, Op.Return).Top() == Unwound([], AtReturn, l.Top())
    ensures Apply([], l, Op.Break).Top() == Unwound([], AtLoop, l.Top())
    ensures Apply([], l, Op.Continue).Top() == Looped([], l.Top())
  {
  }

  /** The unwinding steps, in terms of where the walk stops. */
  lemma UnwindingSteps(c: L.Config, v: JSValue)
    requires c.Running?
    ensures var n := First([], AtLoop, c.frames);
      if n == |c.frames| then L.BreakOut(c) == L.Crashed(SyntaxError(Ascii("break outside loop")))
                           && L.ContinueLoop(c) == L.Crashed(SyntaxError(Ascii("continue outside loop")))
      else
        var f := c.frames[n];
        && L.BreakOut(c) == L.Running(Value(Undefined), c.env, Unwound([], AtLoop, c.frames), c.store)
        && L.ContinueLoop(c) == L.Running(L.LoopControl(f), f.env, Looped([], c.frames), c.store)
    ensures var n := First([], AtReturn, c.frames);
      L.ReturnOut(c, v) ==
        if n == |c.frames| then L.Running(Halted(v), c.env, Unwound([], AtReturn, c.frames), c.store)
        else L.Running(Value(v), c.frames[n].env, Unwound([], AtReturn, c.frames), c.store)
  {
  }

  class Interpreter {
    const ast: L.Ast
    const ar: L.Arith
    const conts: Machine
    const envs: EnvArena
    var control: Control
    var env: EnvId
    var globals: map<Str, JSValue>
    ghost var ranks: map<EnvId, nat>

    /** A fresh machine, with the global environment in slot 0. */
    constructor (ast: L.Ast, ar: L.Arith)
      ensures Valid() && this.ast == ast && this.ar == ar
      ensures View() == L.Running(Value(Undefined), 0, [], L.Store(Slab([Env(map[], None)], [], 1), map[]))
      ensures fresh(conts) && fresh(conts.arena) && fresh(envs) && fresh(envs.arena)
    {
      this.ast, this.ar := ast, ar;
      conts := new Machine([]);
      envs := new EnvArena(Slab([Env(map[], None)], [], 1));
      control, env, globals, ranks := Value(Undefined), 0, map[], map[0 := 0];
      new;
      hide Machine.Valid, Machine.View, Sound, Continuations.View;
      assert conts.View().Top() == [];
      assert Ranked(envs.arena.data, ranks);
      assert Anchored(View(), ranks);
    }

    ghost predicate Parts()
      reads this, conts, conts.arena, envs, envs.arena
    {
      conts.Valid() && conts.clauses == [] && envs.arena.Valid() && conts.arena as object != envs.arena
    }

    ghost predicate Valid()
      reads this, conts, conts.arena, envs, envs.arena
    {
      Parts() && Anchored(View(), ranks)
    }

    ghost function View(): (c: L.Config)
      requires Parts()
      reads this, conts, conts.arena, envs, envs.arena
      ensures c.Running? && c.control == control && c.env == env && c.frames == conts.View().Top()
      ensures c.store == L.Store(envs.arena.Abs(), globals)
    {
      L.Running(control, env, conts.View().Top(), L.Store(envs.arena.Abs(), globals))
    }

    /** What a step must do: fail as the function does, or reach its state. */
    ghost predicate Took(d: L.Config, err: Option<JSError>)
      reads this, conts, conts.arena, envs, envs.arena
    {
      match d
      case Crashed(e) => err == Some(e)
      case Running(_, _, _, _) => err == None && Parts() && View() == d
    }

    /** Go on from `next`, with `f` waiting. */
    method Leave(next: Control, f: Frame)
      requires Parts()
      modifies this`control, conts, conts.arena
      ensures var c := old(View());
        Parts() && c.Running? && View() == c.(control := next, frames := [f] + c.frames)
    {
      hide Machine.Valid, Machine.View, Sound, Continuations.View, Apply;
      TopAfterPush(conts.View(), f);
      control := next;
      conts.Push(f);
    }

    method Await(e: ExprId, f: Frame)
      requires Parts()
      modifies this`control, conts, conts.arena
      ensures Parts() && View() == L.Await(e, f, old(View()))
    {
      Leave(Expr(e), f);
    }

    method StepExpr(e: ExprId) returns (err: Option<JSError>)
      requires Valid()
      modifies this`control, conts, conts.arena
      ensures Took(L.StepExpr(ast, old(View()), e), err)
    {
      hide Machine.Valid, Machine.View, Sound, Continuations.View, Apply, Ranked, Clean, L.Walk;
      err := None;
      match ast.GetExpr(e) {
        case None => err := Some(InternalError(Ascii("Invalid expression ID")));
        case Some(node) =>
          match node {
            case Literal(v) => control := Value(v);
            case Identifier(name) =>
              FoundIsBinder(View().store, env, name, ranks);
              var found := envs.Lookup(env, name, ranks);
              control := Value(if found.Some? then found.value
                               else if name in globals then globals[name] else Undefined);
            case Unary(op, operand) => Await(operand, L.UnaryFrame(ast, op, operand, env));
            case Binary(op, left, right) =>
              if op.And? { Await(left, AndK(right, env)); }
              else if op.Or? { Await(left, OrK(right, env)); }
              else if op.NullishCoalesce? { Await(left, NullishK(right, env)); }
              else { Await(left, BinaryLeftK(op, right, env)); }
            case Assign(target, value) =>
              match ast.GetExpr(target) {
                case None => err := Some(InternalError(Ascii("Invalid assignment target")));
                case Some(Identifier(name)) => Await(value, AssignVarK(name, env));
                case Some(_) => err := Some(TypeError(Ascii("Invalid assignment target")));
              }
            case Conditional(test, t, f) => Await(test, CondK(t, f, env));
          }
      }
    }

    /** Start a statement list whose statements run in `inner`. */
    method EnterList(start: nat, count: nat, inner: EnvId)
      requires Parts() && ast.StmtList(start, count) != []
      modifies this`control, this`env, conts, conts.arena
      ensures Parts() && View() == L.EnterList(ast, old(View()), start, count, inner)
    {
      hide Machine.Valid, Machine.View, Sound, Continuations.View, Apply;
      var stmts := ast.StmtList(start, count);
      control, env := Stmt(stmts[0]), inner;
      if |stmts| > 1 {
        TopAfterPush(conts.View(), SeqK(start, 1, count, inner));
        conts.Push(SeqK(start, 1, count, inner));
      }
    }

    method Declare(node: L.StmtNode) returns (err: Option<JSError>)
      requires Parts() && (node.Let? || node.Const? || node.Var?)
      modifies this`control, this`globals, conts, conts.arena, envs.arena
      ensures Took(L.Declare(old(View()), node), err)
    {
      hide Machine.Valid, Machine.View, Sound, Continuations.View, L.Bind;
      err := None;
      if node.init != NONE {
        Await(node.init, if node.Let? then LetK(node.name, env)
                         else if node.Const? then ConstK(node.name, env) else VarK(node.name, env));
      } else if node.Let? {
        Define(node.name, env, Undefined);
      } else if node.Var? {
        globals, control := globals[node.name := Undefined], Value(Undefined);
      } else {
        err := Some(SyntaxError(Ascii("const requires initializer")));
      }
    }

    method EnterScope(node: L.StmtNode)
      requires Parts() && Clean(envs.arena.Abs()) && (node.For? || node.Block? || node.Declarations?)
      modifies this`control, this`env, conts, conts.arena, envs.arena
      ensures Parts() && View() == L.EnterScope(ast, old(View()), node)
    {
      hide Machine.Valid, Machine.View, Sound, Continuations.View, Clean, Alloc, L.EnterList;
      if node.For? {
        env := envs.Extend(env);
        Leave(if node.first != NONE then Stmt(node.first) else Expr(node.test),
              ForTestK(node.test, node.update, node.body, env));
      } else if ast.StmtList(node.start, node.count) == [] {
        control := Value(Undefined);
      } else if node.Block? {
        var inner := envs.Extend(env);
        EnterList(node.start, node.count, inner);
      } else {
        EnterList(node.start, node.count, env);
      }
    }

    method StepStmt(s: StmtId) returns (err: Option<JSError>)
      requires Valid()
      modifies this, conts, conts.arena, envs.arena
      ensures ranks == old(ranks) && Took(L.StepStmt(ast, old(View()), s), err)
    {
      hide Machine.Valid, Machine.View, Sound, Continuations.View, Apply, Ranked, Clean, Alloc, First, L.Bind,
           L.BreakOut, L.ContinueLoop, L.EnterScope, L.Declare;
      err := None;
      if s == NONE {
        control := Value(Undefined);
        return;
      }
      match ast.GetStmt(s) {
        case None => err := Some(InternalError(Ascii("Invalid statement ID")));
        case Some(node) =>
          match node {
            case Empty => control := Value(Undefined);
            case ExprStmt(e) => Await(e, ExprStmtK);
            case Let(_, _) => err := Declare(node);
            case Const(_, _) => err := Declare(node);
            case Var(_, _) => err := Declare(node);
            case If(test, t, f) => Await(test, IfK(t, f, env));
            case While(test, body) => Await(test, WhileK(test, body, env));
            case For(_, _, _, _) => EnterScope(node);
            case Block(_, _) => EnterScope(node);
            case Declarations(_, _) => EnterScope(node);
            case Return(e) => if e != NONE { Await(e, ReturnExprK); } else { control := Returning(Undefined); }
            case Break => err := HandleBreak();
            case Continue => err := HandleContinue();
          }
      }
    }

    method HandleBreak() returns (err: Option<JSError>)
      requires Parts()
      modifies this`control, conts
      ensures Took(L.BreakOut(old(View())), err)
    {
      hide Machine.Valid, Machine.View, Sound, Continuations.View, Apply, First, Looped, Unwound;
      hide L.BreakOut, L.ContinueLoop, L.ReturnOut;
      UnwindingSteps(View(), Undefined);
      TopAfterUnwind(conts.View());
      var loop := conts.Break();
      if loop.None? {
        return Some(SyntaxError(Ascii("break outside loop")));
      }
      control, err := Value(Undefined), None;
    }

    method HandleContinue() returns (err: Option<JSError>)
      requires Parts()
      modifies this`control, this`env, conts, conts.arena
      ensures Took(L.ContinueLoop(old(View())), err)
    {
      hide Machine.Valid, Machine.View, Sound, Continuations.View, Apply, First, Looped, Unwound;
      hide L.BreakOut, L.ContinueLoop, L.ReturnOut;
      UnwindingSteps(View(), Undefined);
      TopAfterUnwind(conts.View());
      var loop := conts.Continue();
      if loop.None? {
        return Some(SyntaxError(Ascii("continue outside loop")));
      }
      control, env, err := L.LoopControl(loop.value), loop.value.env, None;
    }

    method HandleReturn(v: JSValue)
      requires Parts()
      modifies this`control, this`env, conts
      ensures Parts() && View() == L.ReturnOut(old(View()), v)
    {
      hide Machine.Valid, Machine.View, Sound, Continuations.View, Apply, First, Looped, Unwound;
      hide L.BreakOut, L.ContinueLoop, L.ReturnOut;
      UnwindingSteps(View(), v);
      TopAfterUnwind(conts.View());
      var call := conts.Return();
      if call.None? {
        control := Halted(v);
      } else {
        control, env := Value(v), call.value.env;
      }
    }

    /** Take the innermost frame and give it the value. */
    method ApplyCont(v: JSValue) returns (err: Option<JSError>)
      requires Valid()
      modifies this, conts, conts.arena, envs.arena
      ensures ranks == old(ranks) && Took(L.Step(ast, ar, old(View()).(control := Value(v))), err)
    {
      hide Machine.Valid, Machine.View, Sound, Continuations.View, Apply, Ranked, Clean, Alloc, L.Walk;
      TopAfterPop(conts.View());
      ghost var before := View();
      var frame := conts.Pop();
      if frame.None? {
        control, err := Halted(v), None;
        return;
      }
      SuffixKeepsAnchored(before, ranks);
      if frame.value.AssignVarK? || frame.value.UpdateVarK? {
        FoundIsBinder(before.store, frame.value.env, frame.value.name, ranks);
      }
      err := ApplyFrame(frame.value, v);
    }

    method ApplyFrame(f: Frame, v: JSValue) returns (err: Option<JSError>)
      requires Parts()
      requires f.AssignVarK? || f.UpdateVarK? ==> Ranked(envs.arena.data, ranks) && f.env in ranks
      requires f.AssignVarK? || f.UpdateVarK? ==>
        L.FindBinding(View().store, f.env, f.name) == Binder(envs.arena.data, f.env, f.name, ranks)
      modifies this, conts, conts.arena, envs.arena
      ensures ranks == old(ranks) && Took(L.ApplyFrame(ast, ar, old(View()), f, v), err)
    {
      hide Machine.Valid, Machine.View, Sound, Continuations.View, Ranked, Clean, L.FindBinding, Binder;
      hide L.ApplyLoop, L.ApplyOperator, L.ApplyVariable, L.ApplyStatement;
      err := None;
      if L.Outside(f) {
        err := Some(L.NOT_MODELLED.error);
      } else if f.IsLoop() {
        ApplyLoop(f, v);
      } else if L.IsOperator(f) {
        ApplyOperator(f, v);
      } else if L.IsVariable(f) {
        ApplyVariable(f, v);
      } else {
        err := ApplyStatement(f, v);
      }
    }

    method ApplyLoop(f: Frame, v: JSValue)
      requires Parts() && f.IsLoop()
      modifies this`control, this`env, conts, conts.arena
      ensures Parts() && View() == L.ApplyLoop(old(View()), f, v)
    {
      hide Machine.Valid, Machine.View, Sound, Continuations.View, Apply, L.Truthy;
      if f.WhileBodyK? || f.ForBodyK? {
        env := f.env;
        Leave(L.LoopControl(f), LoopHead(f));
      } else if f.ForUpdateK? {
        env := f.env;
        Leave(L.ForTest(f.test), ForTestK(f.test, f.update, f.body, f.env));
      } else if f.ForTestK? && f.test != NONE {
        env := f.env;
        Leave(Expr(f.test), ForTestResultK(f.test, f.update, f.body, f.env));
      } else if f.ForTestK? || L.Truthy(v) {
        env := f.env;
        Leave(Stmt(f.body), if f.WhileK? then WhileBodyK(f.test, f.body, f.env)
                            else ForBodyK(f.test, f.update, f.body, f.env));
      } else {
        control := Value(Undefined);
      }
    }

    method ApplyOperator(f: Frame, v: JSValue)
      requires Parts() && L.IsOperator(f)
      modifies this`control, this`env, conts, conts.arena
      ensures Parts() && View() == L.ApplyOperator(ar, old(View()), f, v)
    {
      hide Machine.Valid, Machine.View, Sound, Continuations.View, L.Truthy, L.Nullish;
      if f.UnaryK? {
        control := Value(if f.op.Not? then Bool(!L.Truthy(v)) else ar.unary(f.op, v));
      } else if f.BinaryLeftK? {
        env := f.env;
        Await(f.right, BinaryRightK(f.bop, v));
      } else if f.BinaryRightK? {
        control := Value(ar.binary(f.bop, f.left, v));
      } else if f.CondK? {
        env, control := f.env, Expr(if L.Truthy(v) then f.ifTrue else f.ifFalse);
      } else if if f.AndK? then !L.Truthy(v) else if f.OrK? then L.Truthy(v) else !L.Nullish(v) {
        control := Value(v);
      } else {
        control, env := Expr(f.right), f.env;
      }
    }

    method ApplyVariable(f: Frame, v: JSValue)
      requires Parts() && L.IsVariable(f)
      requires f.AssignVarK? || f.UpdateVarK? ==> Ranked(envs.arena.data, ranks) && f.env in ranks
      requires f.AssignVarK? || f.UpdateVarK? ==>
        L.FindBinding(View().store, f.env, f.name) == Binder(envs.arena.data, f.env, f.name, ranks)
      modifies this`control, this`globals, envs.arena
      ensures Parts() && View() == L.ApplyVariable(ar, old(View()), f, v)
    {
      hide Machine.Valid, Machine.View, Sound, Continuations.View, Ranked, Clean, L.FindBinding, Binder;
      hide L.Bind, L.WriteVar;
      if f.AssignVarK? {
        AssignVar(f.name, f.env, v);
      } else if f.UpdateVarK? {
        var w := ar.update(f.isInc, v);
        AssignVar(f.name, f.env, w);
        control := Value(if f.isPre then w else v);
      } else if f.VarK? {
        globals, control := globals[f.name := v], Value(Undefined);
      } else {
        Define(f.name, f.env, v);
      }
    }

    method ApplyStatement(f: Frame, v: JSValue) returns (err: Option<JSError>)
      requires Parts() && !L.Outside(f) && !f.IsLoop() && !L.IsOperator(f) && !L.IsVariable(f)
      modifies this`control, this`env, conts, conts.arena
      ensures Took(L.ApplyStatement(ast, old(View()), f, v), err)
    {
      hide Machine.Valid, Machine.View, Sound, Continuations.View, L.Truthy, L.NextStatement;
      err := None;
      if f.IfK? {
        var branch := if L.Truthy(v) then f.consequent else f.alternate;
        env, control := f.env, if branch != NONE then Stmt(branch) else Value(Undefined);
      } else if f.SeqK? {
        err := NextStatement(f.start, f.idx, f.count, f.env, v);
      } else if f.ExprStmtK? {
        control := Value(v);
      } else if f.ReturnK? {
        control, env := Value(v), f.env;
      } else {
        control := Returning(v);
      }
    }

    method AssignVar(name: Str, e: EnvId, v: JSValue)
      requires Parts() && Ranked(envs.arena.data, ranks) && e in ranks
      requires L.FindBinding(View().store, e, name) == Binder(envs.arena.data, e, name, ranks)
      modifies this`control, this`globals, envs.arena
      ensures var c := old(View());
        Parts() && View() == L.ValueOf(v, c).(store := L.WriteVar(c.store, e, name, v))
    {
      hide Machine.Valid, Machine.View, Sound, Continuations.View, Ranked, Clean, L.FindBinding, Binder;
      var found := envs.Assign(e, name, v, ranks);
      if !found { globals := globals[name := v]; }
      control := Value(v);
    }

    method Define(name: Str, e: EnvId, v: JSValue)
      requires Parts()
      modifies this`control, envs.arena
      ensures var c := old(View());
        Parts() && View() == L.ValueOf(Undefined, c).(store := L.Bind(c.store, e, name, v))
    {
      hide Machine.Valid, Machine.View, Sound, Continuations.View;
      envs.Define(e, name, v);
      control := Value(Undefined);
    }

    method NextStatement(start: nat, idx: nat, count: nat, e: EnvId, v: JSValue) returns (err: Option<JSError>)
      requires Parts()
      modifies this`control, this`env, conts, conts.arena
      ensures Took(L.NextStatement(ast, old(View()), start, idx, count, e, v), err)
    {
      hide Machine.Valid, Machine.View, Sound, Continuations.View, Apply;
      err := None;
      var stmts := ast.StmtList(start, count);
      if idx >= count {
        control := Value(v);
      } else if idx >= |stmts| {
        err := Some(L.NOT_MODELLED.error);
      } else {
        control, env := Stmt(stmts[idx]), e;
        if idx + 1 < count {
          TopAfterPush(conts.View(), SeqK(start, idx + 1, count, e));
          conts.Push(SeqK(start, idx + 1, count, e));
        }
      }
    }

    /** One step of the machine is one step on immutable frame lists. */
    method Step() returns (err: Option<JSError>)
      requires Valid()
      modifies this, conts, conts.arena, envs.arena
      ensures Took(L.Step(ast, ar, old(View())), err)
      ensures err.None? ==> Valid()
    {
      hide Machine.Valid, Machine.View, Sound, Continuations.View, Anchored, L.StepExpr, L.StepStmt,
           L.ReturnOut, L.ApplyFrame;
      ghost var before := View();
      err := None;
      match control {
        case Expr(e) => err := StepExpr(e);
        case Stmt(s) => err := StepStmt(s);
        case Value(v) => err := ApplyCont(v);
        case Returning(v) => HandleReturn(v);
        case Halted(_) =>
        case Suspend(_, _) =>
      }
      if err.None? {
        ranks := StepKeepsAnchored(ast, ar, before, ranks);
      }
    }

    /** run: step until halted or out of allowance; how many steps were spent. */
    method Run(allowance: nat) returns (spent: nat, err: Option<JSError>)
      requires Valid()
      modifies this, conts, conts.arena, envs.arena
      ensures err.None? ==> Valid() && spent <= allowance && View() == L.Steps(ast, ar, old(View()), allowance)
      ensures err.None? && spent < allowance ==> control.Halted? || control.Suspend?
      ensures err.Some? ==> spent < allowance && L.Steps(ast, ar, old(View()), allowance) == L.Crashed(err.value)
    {
      hide Machine.Valid, Machine.View, Sound, Continuations.View, Anchored, L.Step;
      spent, err := 0, None;
      while !control.Halted? && !control.Suspend? && spent < allowance
        invariant Valid() && spent <= allowance && err.None?
        invariant L.Steps(ast, ar, View(), allowance - spent) == L.Steps(ast, ar, old(View()), allowance)
        decreases allowance - spent
      {
        ghost var c := View();
        err := Step();
        if err.Some? {
          Stays(ast, ar, L.Step(ast, ar, c), allowance - spent - 1);
          return;
        }
        spent := spent + 1;
      }
      if spent < allowance { Stays(ast, ar, View(), allowance - spent); }
    }
  }

  lemma {:induction false} Stays(ast: L.Ast, ar: L.Arith, c: L.Config, n: nat)
    requires c.Crashed? || c.control.Halted? || c.control.Suspend?
    ensures L.Steps(ast, ar, c, n) == c
    decreases n
  {
    if n > 0 { Stays(ast, ar, c, n - 1); }
  }
}
