/** Writing a snapshot on a buffer (src/snapshot.rs:143-214, 518-546, 1987-2125):
    each method appends what its `Put` function puts in front of any bytes that
    follow. */
module SnapshotWriter {
  import opened Values
  import opened Fibers
  import opened Bytes
  import opened HostCodec
  import opened SnapshotCodec
  import opened Image
  import opened SnapshotLaws

  /** Append one element, whatever its encoding. */
  method WriteWith<T(!new)>(w: ByteWriter, put: (T, seq<u8>) -> seq<u8>, x: T)
    requires Appends(put)
    modifies w
    ensures forall rest :: old(w.buf) + put(x, rest) == w.buf + rest
  {
    w.buf := w.buf + put(x, []);
    forall rest ensures old(w.buf) + put(x, rest) == w.buf + rest {
      assert put(x, []) + rest == put(x, [] + rest) && [] + rest == rest;
    }
  }

  /** The counted loop every list and table is written with. */
  method WriteCounted<T(!new)>(w: ByteWriter, put: (T, seq<u8>) -> seq<u8>, xs: seq<T>)
    requires Appends(put)
    modifies w
    ensures forall rest :: old(w.buf) + PutSeq(put, xs, rest) == w.buf + rest
  {
    hide PutU32;
    WriteU32(w, |xs|);
    assert xs[0..] == xs;
    for i := 0 to |xs|
      invariant forall rest :: old(w.buf) + PutSeq(put, xs, rest) == w.buf + PutEach(put, xs[i..], rest)
    {
      WriteWith(w, put, xs[i]);
      assert xs[i..][1..] == xs[i + 1..];
    }
  }

  method WriteU8(w: ByteWriter, v: u8)
    modifies w
    ensures forall rest :: old(w.buf) + PutU8(v, rest) == w.buf + rest
  {
    ScalarsAppend();
    WriteWith(w, PutU8, v);
  }

  method WriteU32(w: ByteWriter, n: nat)
    modifies w
    ensures forall rest :: old(w.buf) + PutU32(n, rest) == w.buf + rest
  {
    ScalarsAppend();
    WriteWith(w, PutU32, n);
  }

  method WriteU64(w: ByteWriter, n: nat)
    modifies w
    ensures forall rest :: old(w.buf) + PutU64(n, rest) == w.buf + rest
  {
    ScalarsAppend();
    WriteWith(w, PutU64, n);
  }

  method WriteName(w: ByteWriter, pool: Pool, s: Str)
    modifies w
    ensures forall rest :: old(w.buf) + PutName(pool, s, rest) == w.buf + rest
  {
    hide PutU32;
    WriteU32(w, IndexIn(pool, s));
  }

  method WriteValue(w: ByteWriter, pool: Pool, v: JSValue)
    modifies w
    ensures forall rest :: old(w.buf) + PutValue(pool, v, rest) == w.buf + rest
  {
    hide PutU8, PutU32, PutU64, PutName;
    match v {
      case Undefined => WriteU8(w, 0);
      case Null => WriteU8(w, 1);
      case Bool(x) => WriteU8(w, 2); WriteU8(w, if x then 1 else 0);
      case Int(n) => WriteU8(w, 3); WriteU32(w, I32Bits(n));
      case Float(bits) => WriteU8(w, 4); WriteU64(w, bits);
      case String(s) => WriteU8(w, 5); WriteName(w, pool, s);
      case Object(o) => WriteU8(w, 6); WriteU32(w, o);
      case Function(o) => WriteU8(w, 7); WriteU32(w, o);
      case Array(o) => WriteU8(w, 8); WriteU32(w, o);
      case Handler(h) => WriteU8(w, 9); WriteU32(w, h);
      case Continuation(k, e) => WriteU8(w, 10); WriteU32(w, k); WriteU32(w, e);
    }
  }

  method WriteControl(w: ByteWriter, pool: Pool, c: Control)
    modifies w
    ensures forall rest :: old(w.buf) + PutControl(pool, c, rest) == w.buf + rest
  {
    hide PutU8, PutU32, PutName, PutValue;
    ValuesAppend(pool);
    match c {
      case Expr(e) => WriteU8(w, 0); WriteU32(w, e);
      case Stmt(s) => WriteU8(w, 1); WriteU32(w, s);
      case Value(v) => WriteU8(w, 2); WriteValue(w, pool, v);
      case Returning(v) => WriteU8(w, 3); WriteValue(w, pool, v);
      case Halted(v) => WriteU8(w, 4); WriteValue(w, pool, v);
      case Suspend(effect, args) =>
        WriteU8(w, 5);
        WriteName(w, pool, effect);
        WriteCounted(w, (v, r) => PutValue(pool, v, r), args);
    }
  }

  /** write_arena: slots, free list, allocation count. */
  method WriteArena<T(!new)>(w: ByteWriter, put: (T, seq<u8>) -> seq<u8>, a: Slab<T>)
    requires Appends(put)
    modifies w
    ensures forall rest :: old(w.buf) + PutSlab(put, a, rest) == w.buf + rest
  {
    hide PutSeq, PutU64;
    ScalarsAppend();
    WriteCounted(w, put, a.data);
    WriteCounted(w, PutU32, a.free);
    WriteU64(w, a.allocations);
  }

  method WriteArenas(w: ByteWriter, cx: Context, h: Heap)
    modifies w
    ensures forall rest :: old(w.buf) + PutArenas(cx, h, rest) == w.buf + rest
  {
    hide PutSlab;
    HeapAppends(cx);
    KontsAppend(cx.pool);
    WriteArena(w, (o, r) => PutObj(cx, o, r), h.objects);
    WriteArena(w, (e, r) => PutEnv(cx, e, r), h.envs);
    WriteArena(w, (k, r) => PutKont(cx.pool, k, r), h.conts);
    WriteArena(w, (d, r) => PutHandler(cx.pool, d, r), h.handlers);
  }

  method WriteRegisters(w: ByteWriter, cx: Context, s: State)
    modifies w
    ensures forall rest :: old(w.buf) + PutRegisters(cx, s, rest) == w.buf + rest
  {
    hide PutControl, PutU32, PutSeq, PutPair;
    ValuesAppend(cx.pool);
    WriteControl(w, cx.pool, s.regs.control);
    WriteU32(w, s.regs.env);
    WriteU32(w, s.regs.cont);
    WriteCounted(w, (kv, r) => PutPair(cx.pool, kv, r), cx.values(s.heap.globals));
  }

  /** The fiber table and the scheduler's bookkeeping. */
  method WriteTable(w: ByteWriter, cx: Context, s: State, ready: seq<FiberId>)
    modifies w
    ensures forall rest :: old(w.buf) + PutTable(cx, s, ready, rest) == w.buf + rest
  {
    hide PutU32, PutU64, PutSeq, PutFiber, PutWaitList, PutGrant, PutMeter;
    FibersAppend(cx.pool);
    TablesAppend(cx.pool);
    WriteCounted(w, (f, r) => PutFiber(cx.pool, f, r), s.fibers);
    WriteCounted(w, PutU32, ready);
    WriteU32(w, s.nextId);
    WriteCounted(w, PutWaitList, cx.waiters(s.waiters));
    WriteCounted(w, (g, r) => PutGrant(cx.pool, g, r), cx.effects(s.effects));
    WriteCounted(w, PutMeter, s.meters);
    WriteU64(w, s.steps);
    WriteU64(w, s.quantum);
  }

  method WriteMagic(w: ByteWriter)
    modifies w
    ensures w.buf == old(w.buf) + MAGIC
  {
    for i := 0 to |MAGIC|
      invariant w.buf == old(w.buf) + MAGIC[..i]
    {
      w.U8(MAGIC[i]);
    }
  }

  /** write_runtime: the bytes that `GetRuntime` restores from. */
  method WriteRuntime(cx: Context, s: State, ready: seq<FiberId>) returns (bytes: seq<u8>)
    ensures bytes == PutRuntime(cx, s, ready, [])
  {
    hide PutU8, PutSeq, PutArenas, PutRegisters, PutTable;
    var w := new ByteWriter();
    WriteMagic(w);
    WriteU8(w, VERSION);
    TablesAppend(cx.pool);
    WriteCounted(w, PutStr, cx.pool);
    WriteArenas(w, cx, s.heap);
    WriteRegisters(w, cx, s);
    WriteTable(w, cx, s, ready);
    bytes := w.buf;
    assert bytes == bytes + [] && [] + MAGIC == MAGIC;
  }
}
