/** Reading a snapshot in place (src/snapshot.rs:187-222, 548-562, 2001-2292):
    each method moves the reader's position past what its `Get` function reads,
    or fails as it does. */
module SnapshotReader {
  import opened Values
  import opened Fuel
  import opened Fibers
  import opened Bytes
  import opened HostCodec
  import opened SnapshotCodec
  import opened Image
  import opened SnapshotLaws
  import opened SnapshotWriter

  /** Read one element, whatever its decoder. */
  method ReadWith<T(!new)>(r: ByteReader, get: seq<u8> -> Read<T>) returns (res: Result<T, DecodeError>)
    requires r.Valid() && Forward(get)
    modifies r`pos
    ensures r.Reads(res, get(old(r.Remaining())))
  {
    var x := get(r.Remaining());
    if x.Bad? {
      return Err(x.error);
    }
    assert Within(x, r.Remaining());
    r.pos := |r.buf| - |x.rest|;
    res := Ok(x.value);
  }

  /** The counted loop every list and table is read with. */
  method ReadCounted<T(!new)>(r: ByteReader, get: seq<u8> -> Read<T>) returns (res: Result<seq<T>, DecodeError>)
    requires r.Valid() && Forward(get)
    modifies r`pos
    ensures r.Reads(res, GetSeq(get, old(r.Remaining())))
  {
    hide GetU32, Suffix;
    var n :- ReadU32(r);
    ghost var start := r.Remaining();
    var xs := [];
    SoFarNothing(GetEach(get, n, start));
    for i := 0 to n
      invariant r.Valid()
      invariant SoFar(xs, GetEach(get, n - i, r.Remaining())) == GetEach(get, n, start)
    {
      var x :- ReadWith(r, get);
      SoFarPush(xs, x, GetEach(get, n - i - 1, r.Remaining()));
      xs := xs + [x];
    }
    assert xs + [] == xs;
    res := Ok(xs);
  }

  method ReadU8(r: ByteReader) returns (res: Result<u8, DecodeError>)
    requires r.Valid()
    modifies r`pos
    ensures r.Reads(res, GetU8(old(r.Remaining())))
  {
    var b :- r.Take(1);
    res := Ok(b[0]);
  }

  method ReadU32(r: ByteReader) returns (res: Result<nat, DecodeError>)
    requires r.Valid()
    modifies r`pos
    ensures r.Reads(res, GetU32(old(r.Remaining())))
  {
    res := r.ReadInt(4);
  }

  method ReadU64(r: ByteReader) returns (res: Result<u64, DecodeError>)
    requires r.Valid()
    modifies r`pos
    ensures r.Reads(res, GetU64(old(r.Remaining())))
  {
    var x :- r.ReadInt(8);
    res := Ok(x % 0x1_0000_0000_0000_0000);
  }

  method ReadName(r: ByteReader, pool: Pool) returns (res: Result<Str, DecodeError>)
    requires r.Valid()
    modifies r`pos
    ensures r.Reads(res, GetName(pool, old(r.Remaining())))
  {
    hide GetU32;
    var n :- ReadU32(r);
    res := if n < |pool| then Ok(pool[n]) else Err(BadTag);
  }

  method ReadValue(r: ByteReader, pool: Pool) returns (res: Result<JSValue, DecodeError>)
    requires r.Valid()
    modifies r`pos
    ensures r.Reads(res, GetValue(pool, old(r.Remaining())))
  {
    hide GetU8, GetU32, GetU64, GetName;
    var tag :- ReadU8(r);
    if tag == 0 {
      res := Ok(Undefined);
    } else if tag == 1 {
      res := Ok(Null);
    } else if tag == 2 {
      var x :- ReadU8(r);
      res := Ok(Bool(x != 0));
    } else if tag == 3 {
      var n :- ReadU32(r);
      res := Ok(Int(BitsI32(n % 0x1_0000_0000)));
    } else if tag == 4 {
      var f :- ReadU64(r);
      res := Ok(Float(f));
    } else if tag == 5 {
      var s :- ReadName(r, pool);
      res := Ok(String(s));
    } else if tag == 6 {
      var o :- ReadU32(r);
      res := Ok(JSValue.Object(o));
    } else if tag == 7 {
      var o :- ReadU32(r);
      res := Ok(JSValue.Function(o));
    } else if tag == 8 {
      var o :- ReadU32(r);
      res := Ok(JSValue.Array(o));
    } else if tag == 9 {
      var h :- ReadU32(r);
      res := Ok(JSValue.Handler(h));
    } else if tag == 10 {
      var k :- ReadU32(r);
      var e :- ReadU32(r);
      res := Ok(Continuation(k, e));
    } else {
      res := Err(BadTag);
    }
  }

  method ReadControl(r: ByteReader, pool: Pool) returns (res: Result<Control, DecodeError>)
    requires r.Valid()
    modifies r`pos
    ensures r.Reads(res, GetControl(pool, old(r.Remaining())))
  {
    hide GetU8, GetU32, GetName, GetValue, GetSeq, Suffix;
    ValuesForward(pool);
    var tag :- ReadU8(r);
    if tag == 0 {
      var e :- ReadU32(r);
      res := Ok(Expr(e));
    } else if tag == 1 {
      var s :- ReadU32(r);
      res := Ok(Stmt(s));
    } else if tag == 2 {
      var v :- ReadValue(r, pool);
      res := Ok(Value(v));
    } else if tag == 3 {
      var v :- ReadValue(r, pool);
      res := Ok(Returning(v));
    } else if tag == 4 {
      var v :- ReadValue(r, pool);
      res := Ok(Halted(v));
    } else if tag == 5 {
      var effect :- ReadName(r, pool);
      var args :- ReadCounted(r, b => GetValue(pool, b));
      res := Ok(Suspend(effect, args));
    } else {
      res := Err(BadTag);
    }
  }

  /** read_arena: slots, free list, allocation count. */
  method ReadArena<T(!new)>(r: ByteReader, get: seq<u8> -> Read<T>) returns (res: Result<Slab<T>, DecodeError>)
    requires r.Valid() && Forward(get)
    modifies r`pos
    ensures r.Reads(res, GetSlab(get, old(r.Remaining())))
  {
    hide GetSeq, GetU64, Suffix;
    ScalarsForward();
    var data :- ReadCounted(r, get);
    var free :- ReadCounted(r, GetU32);
    var allocations :- ReadU64(r);
    res := Ok(Slab(data, free, allocations));
  }

  method ReadArenas(r: ByteReader, pool: Pool) returns (res: Result<Heap, DecodeError>)
    requires r.Valid()
    modifies r`pos
    ensures r.Reads(res, GetArenas(pool, old(r.Remaining())))
  {
    hide GetSlab, Forward;
    HeapForward(pool);
    KontsForward(pool);
    var objects :- ReadArena(r, b => GetObj(pool, b));
    var envs :- ReadArena(r, b => GetEnv(pool, b));
    var conts :- ReadArena(r, b => GetKont(pool, b));
    if envs.data == [] || conts.data == [] {
      return Err(Malformed);
    }
    var handlers :- ReadArena(r, b => GetHandler(pool, b));
    res := Ok(Heap(objects, envs, conts, handlers, map[]));
  }

  /** A map is filled pair by pair, a later key replacing an earlier one. */
  method Gather<K(==), V>(ps: seq<(K, V)>) returns (m: map<K, V>)
    ensures m == FromPairs(ps)
  {
    m := map[];
    for i := 0 to |ps|
      invariant m == FromPairs(ps[..i])
    {
      assert ps[..i + 1][..i] == ps[..i];
      m := m[ps[i].0 := ps[i].1];
    }
    assert ps[..|ps|] == ps;
  }

  method ReadRegisters(r: ByteReader, pool: Pool) returns (res: Result<(Regs, map<Str, JSValue>), DecodeError>)
    requires r.Valid()
    modifies r`pos
    ensures r.Reads(res, GetRegisters(pool, old(r.Remaining())))
  {
    hide GetControl, GetU32, GetSeq, GetPair, Suffix;
    ValuesForward(pool);
    var control :- ReadControl(r, pool);
    var env :- ReadU32(r);
    var cont :- ReadU32(r);
    var ps :- ReadCounted(r, b => GetPair(pool, b));
    var globals := Gather(ps);
    res := Ok((Regs(control, cont, env), globals));
  }

  method ReadQueues(r: ByteReader, pool: Pool) returns (res: Result<Queues, DecodeError>)
    requires r.Valid()
    modifies r`pos
    ensures r.Reads(res, GetQueues(pool, old(r.Remaining())))
  {
    hide GetU32, GetSeq, GetWaitList, GetGrant, GetMeter, Forward;
    TablesForward(pool);
    var ready :- ReadCounted(r, GetU32);
    var nextId :- ReadU32(r);
    var lists :- ReadCounted(r, GetWaitList);
    var waiters := Gather(lists);
    var grants :- ReadCounted(r, b => GetGrant(pool, b));
    var effects := Gather(grants);
    var meters :- ReadCounted(r, GetMeter);
    res := Ok(Queues(ready, nextId, waiters, effects, meters));
  }

  /** Strings are interned again in index order, into a pool that has the empty
      string. */
  method ReadPool(r: ByteReader) returns (res: Result<Pool, DecodeError>)
    requires r.Valid()
    modifies r`pos
    ensures r.Reads(res, GetPool(old(r.Remaining())))
  {
    hide GetU32, ReadStr, Intern;
    var n :- ReadU32(r);
    ghost var start := r.Remaining();
    var pool := [[]];
    for i := 0 to n
      invariant r.Valid()
      invariant Interned(pool, GetEach(ReadStr, n - i, r.Remaining())) == Interned([[]], GetEach(ReadStr, n, start))
    {
      ghost var before := pool;
      var s :- r.ReadString();
      pool := Intern(pool, s);
      assert forall ss :: InternAll(before, [s] + ss) == InternAll(pool, ss) by {
        forall ss ensures InternAll(before, [s] + ss) == InternAll(pool, ss) { assert ([s] + ss)[1..] == ss; }
      }
    }
    res := Ok(pool);
  }

  /** What a loop that interns as it reads has, against the whole decoder. */
  ghost function Interned(pool: Pool, more: Read<seq<Str>>): Read<Pool> {
    match more
    case Bad(e) => Bad(e)
    case Got(ss, rest) => Got(InternAll(pool, ss), rest)
  }

  method CheckSane(s: State) returns (ok: bool)
    ensures ok == Sane(s)
  {
    if s.heap.envs.data == [] || s.heap.conts.data == [] || s.meters == [] || s.quantum == 0 {
      return false;
    }
    for i := 0 to |s.meters|
      invariant ParentsPrecede(s.meters[..i])
    {
      if s.meters[i].parent.Some? && s.meters[i].parent.value >= i {
        return false;
      }
    }
    assert s.meters[..|s.meters|] == s.meters;
    for i := 0 to |s.fibers|
      invariant forall j :: 0 <= j < i ==> s.fibers[j].meter < |s.meters|
    {
      if s.fibers[i].meter >= |s.meters| {
        return false;
      }
    }
    return true;
  }

  method ReadSections(r: ByteReader) returns (res: Result<(Pool, State), DecodeError>)
    requires r.Valid()
    modifies r`pos
    ensures r.Reads(res, GetSections(old(r.Remaining())))
  {
    hide GetPool, GetArenas, GetRegisters, GetSeq, GetFiber, GetQueues, GetU64, Sane, TotalAllocations, Forward;
    var pool :- ReadPool(r);
    var heap :- ReadArenas(r, pool);
    var regs :- ReadRegisters(r, pool);
    FibersForward(pool);
    var fibers :- ReadCounted(r, b => GetFiber(pool, b));
    var q :- ReadQueues(r, pool);
    var steps :- ReadU64(r);
    var quantum :- ReadU64(r);
    var h := heap.(globals := regs.1);
    var s := State(h, regs.0, fibers, q.ready, None, q.nextId, q.waiters, q.effects, q.meters, quantum, steps,
                   TotalAllocations(h));
    var ok := CheckSane(s);
    res := if ok then Ok((pool, s)) else Err(Malformed);
  }

  /** read_runtime. */
  method ReadRuntime(bytes: seq<u8>) returns (res: Result<(Pool, State), DecodeError>)
    ensures match GetRuntime(bytes)
            case Got(v, _) => res == Ok(v)
            case Bad(e) => res == Err(e)
  {
    hide GetU8, GetSections;
    var r := new ByteReader(bytes);
    var magic :- r.Take(4);
    if magic != MAGIC {
      return Err(BadTag);
    }
    var version :- ReadU8(r);
    if version != VERSION {
      return Err(BadTag);
    }
    res := ReadSections(r);
  }

  /** What is written is read back: the pool, so every string id, and the
      runtime without its selection, unless some pending host argument is nested
      beyond the decoder's cap. */
  method SaveAndRestore(cx: Context, s: State, ready: seq<FiberId>) returns (res: Result<(Pool, State), DecodeError>)
    requires StateFits(cx, s) && Sane(s) && IdsFit(ready)
    ensures res == if AllShallow(s.fibers) then Ok((cx.pool, Restored(s, ready))) else Err(TooDeep)
  {
    hide StateFits, PutRuntime, GetRuntime, AllShallow;
    var bytes := WriteRuntime(cx, s, ready);
    RuntimeBack(cx, s, ready, []);
    res := ReadRuntime(bytes);
  }
}
