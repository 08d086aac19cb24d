/** The vocabulary every part of the model shares: machine values, the values
    that cross the host boundary, continuation frames, and the heap.

    Interned strings are compared by content, so a string id is modelled by
    the bytes it stands for. */
module Values {

  type u8 = x: int | 0 <= x < 0x100
  type u32 = x: int | 0 <= x < 0x1_0000_0000
  type u64 = x: int | 0 <= x < 0x1_0000_0000_0000_0000
  type i32 = x: int | -0x8000_0000 <= x < 0x8000_0000

  const U64_MAX: u64 := 0xFFFF_FFFF_FFFF_FFFF

  type Str = seq<u8>

  datatype Option<+T> = None | Some(value: T)

  datatype Result<+T, +E> = Ok(value: T) | Err(error: E) {
    predicate IsFailure() {
      Err?
    }

    function PropagateFailure<U>(): Result<U, E>
      requires IsFailure()
    {
      Err(error)
    }

    function Extract(): T
      requires !IsFailure()
    {
      value
    }
  }

  /** A string literal of the source, as its ASCII bytes. */
  function Ascii(s: string): Str {
    seq(|s|, i requires 0 <= i < |s| => s[i] as int % 0x100)
  }

  // Arena and syntax-tree indices.
  type ObjId = nat
  type EnvId = nat
  type ContId = nat
  type HandlerId = nat
  type ExprId = nat
  type StmtId = nat

  /** The id that stands for an absent expression or statement. */
  const NONE: nat := 0xFFFF_FFFF

  datatype JSValue =
    | Undefined
    | Null
    | Bool(b: bool)
    | Int(n: i32)
    | Float(bits: u64)
    | String(s: Str)
    | Object(obj: ObjId)
    | Function(obj: ObjId)
    | Array(obj: ObjId)
    | Handler(handler: HandlerId)
    | Continuation(cont: ContId, env: EnvId)

  /** A self-contained value on the host's side of the boundary. */
  datatype HostValue =
    | HUndefined
    | HNull
    | HBool(b: bool)
    | HInt(n: i32)
    | HFloat(bits: u64)
    | HStr(s: Str)
    | HArray(items: seq<HostValue>)
    | HObject(pairs: seq<(Str, HostValue)>)

  datatype JSError =
    | SyntaxError(message: Str)
    | TypeError(message: Str)
    | InternalError(message: Str)
    | Message(message: Str)

  /** The text another fiber or a snapshot sees. */
  function Display(e: JSError): Str {
    match e
    case SyntaxError(m) => Ascii("SyntaxError: ") + m
    case TypeError(m) => Ascii("TypeError: ") + m
    case InternalError(m) => Ascii("InternalError: ") + m
    case Message(m) => m
  }

  datatype UnaryOp = Neg | Not | BitNot | TypeOf | Plus | PreInc | PreDec | PostInc | PostDec

  datatype BinaryOp =
    | Add | Sub | Mul | Div | Mod | Pow | Eq | Ne | Lt | Le | Gt | Ge | And | Or
    | BitAnd | BitOr | BitXor | Shl | Shr | UShr | NullishCoalesce

  /** A continuation frame without its outer link. */
  datatype Frame =
    | UnaryK(op: UnaryOp)
    | BinaryLeftK(bop: BinaryOp, right: ExprId, env: EnvId)
    | BinaryRightK(bop: BinaryOp, left: JSValue)
    | AndK(right: ExprId, env: EnvId)
    | OrK(right: ExprId, env: EnvId)
    | NullishK(right: ExprId, env: EnvId)
    | MemberK(property: Str)
    | IndexObjK(index: ExprId, env: EnvId)
    | IndexKeyK(obj: JSValue)
    | AssignVarK(name: Str, env: EnvId)
    | UpdateVarK(name: Str, isPre: bool, isInc: bool, env: EnvId)
    | AssignMemberObjK(property: Str, value: ExprId, env: EnvId)
    | AssignMemberValK(obj: JSValue, property: Str)
    | AssignIndexObjK(index: ExprId, value: ExprId, env: EnvId)
    | AssignIndexKeyK(obj: JSValue, value: ExprId, env: EnvId)
    | AssignIndexValK(obj: JSValue, key: JSValue)
    | IfK(consequent: StmtId, alternate: StmtId, env: EnvId)
    | CondK(ifTrue: ExprId, ifFalse: ExprId, env: EnvId)
    | WhileK(test: ExprId, body: StmtId, env: EnvId)
    | WhileBodyK(test: ExprId, body: StmtId, env: EnvId)
    | ForTestK(test: ExprId, update: ExprId, body: StmtId, env: EnvId)
    | ForTestResultK(test: ExprId, update: ExprId, body: StmtId, env: EnvId)
    | ForBodyK(test: ExprId, update: ExprId, body: StmtId, env: EnvId)
    | ForUpdateK(test: ExprId, update: ExprId, body: StmtId, env: EnvId)
    | CalleeK(start: nat, count: nat, env: EnvId)
    | ArgsK(callee: JSValue, done: seq<JSValue>, start: nat, idx: nat, count: nat, env: EnvId)
    | ReturnK(env: EnvId)
    | ReturnExprK
    | ArrayK(done: seq<JSValue>, start: nat, idx: nat, count: nat, env: EnvId)
    | ObjectK(pairs: seq<(Str, JSValue)>, start: nat, idx: nat, count: nat, env: EnvId)
    | LetK(name: Str, env: EnvId)
    | ConstK(name: Str, env: EnvId)
    | VarK(name: Str, env: EnvId)
    | SeqK(start: nat, idx: nat, count: nat, env: EnvId)
    | ExprStmtK
    | BlockK(start: nat, idx: nat, count: nat, final: ExprId, env: EnvId)
    | MatchK(start: nat, idx: nat, count: nat, env: EnvId)
    | HandlerK(start: nat, count: nat, env: EnvId, returnBody: ExprId, returnParam: Str)
    | PerformArgsK(effect: Str, done: seq<JSValue>, start: nat, idx: nat, count: nat, env: EnvId)
    | HandleWithK(handled: ExprId, env: EnvId)
  {
    predicate IsLoop() {
      WhileK? || WhileBodyK? || ForTestK? || ForTestResultK? || ForBodyK? || ForUpdateK?
    }
  }

  /** A slot of the continuation arena: the default is Halt. */
  datatype Kont = Halt | Link(frame: Frame, k: ContId)

  datatype FunctionData = FunctionData(
    paramsStart: nat, paramsCount: nat, body: StmtId, exprBody: Option<ExprId>, env: EnvId, name: Option<Str>)

  datatype NativeFn =
    | MathFloor | MathCeil | MathRound | MathAbs | MathSqrt | MathPow | MathMin | MathMax | MathSin | MathCos
    | MathLog | MathExp | MathTrunc | MathSign

  datatype ObjectKind =
    | Ordinary
    | ArrayData(elements: seq<JSValue>)
    | Closure(data: FunctionData)
    | BoundFunction(target: ObjId, thisArg: JSValue, args: seq<JSValue>)
    | Native(native: NativeFn)

  datatype Obj = Obj(properties: map<Str, JSValue>, prototype: Option<ObjId>, kind: ObjectKind)

  datatype Env = Env(bindings: map<Str, JSValue>, parent: Option<EnvId>)

  datatype HandlerData =
    HandlerData(start: nat, count: nat, returnParam: Str, returnBody: ExprId, env: EnvId)

  /** An arena read as a value: its slots, its free list (popped from the
      end), and the cumulative allocation count. */
  datatype Slab<T> = Slab(data: seq<T>, free: seq<nat>, allocations: nat) {
    ghost predicate Valid() {
      forall i :: 0 <= i < |free| ==> free[i] < |data|
    }
  }

  function Alloc<T>(a: Slab<T>, x: T): (r: (Slab<T>, nat)) {
    if |a.free| > 0 && a.free[|a.free| - 1] < |a.data| then
      var i := a.free[|a.free| - 1];
      (Slab(a.data[i := x], a.free[..|a.free| - 1], a.allocations + 1), i)
    else
      (Slab(a.data + [x], a.free, a.allocations + 1), |a.data|)
  }

  datatype Heap = Heap(
    objects: Slab<Obj>,
    envs: Slab<Env>,
    conts: Slab<Kont>,
    handlers: Slab<HandlerData>,
    globals: map<Str, JSValue>)

  function TotalAllocations(h: Heap): nat {
    h.objects.allocations + h.envs.allocations + h.conts.allocations + h.handlers.allocations
  }

  /** What the machine is evaluating. */
  datatype Control =
    | Expr(e: ExprId)
    | Stmt(s: StmtId)
    | Value(v: JSValue)
    | Returning(v: JSValue)
    | Halted(v: JSValue)
    | Suspend(effect: Str, args: seq<JSValue>)

  /** The per-fiber registers of the machine. */
  datatype Regs = Regs(control: Control, cont: ContId, env: EnvId)
}
