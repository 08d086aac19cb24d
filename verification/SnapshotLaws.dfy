/** Two laws of the snapshot codec that let it be run on a buffer: a decoder
    moves forward through its input, and an encoder only ever appends. */
module SnapshotLaws {
  import opened Values
  import opened Fuel
  import opened Fibers
  import opened Bytes
  import opened HostCodec
  import opened SnapshotCodec
  import opened Image

  // ---------- Decoders leave a suffix ----------

  ghost predicate Suffix(a: seq<u8>, b: seq<u8>) {
    |a| <= |b| && a == b[|b| - |a|..]
  }

  ghost predicate Within<T>(r: Read<T>, b: seq<u8>) {
    r.Got? ==> Suffix(r.rest, b)
  }

  /** The decoder moves forward through whatever it is given. */
  ghost predicate Forward<T(!new)>(get: seq<u8> -> Read<T>) {
    forall b :: Within(get(b), b)
  }

  lemma Chain(b: seq<u8>)
    ensures Suffix(b, b)
    ensures forall x, y :: Suffix(x, b) && Suffix(y, x) ==> Suffix(y, b)
  {
  }

  lemma {:induction false} EachForward<T(!new)>(get: seq<u8> -> Read<T>, n: nat, b: seq<u8>)
    requires Forward(get)
    ensures Within(GetEach(get, n, b), b)
    decreases n
  {
    hide Suffix;
    Chain(b);
    if n > 0 && get(b).Got? {
      assert Within(get(b), b);
      EachForward(get, n - 1, get(b).rest);
    }
  }

  lemma SeqForward<T(!new)>(get: seq<u8> -> Read<T>)
    requires Forward(get)
    ensures forall b :: Within(GetSeq(get, b), b)
  {
    hide Suffix, GetU32;
    ScalarsForward();
    forall b ensures Within(GetSeq(get, b), b) {
      Chain(b);
      var n := GetU32(b);
      if n.Got? { EachForward(get, n.value, n.rest); }
    }
  }

  lemma ScalarsForward()
    ensures forall b :: Within(GetU8(b), b)
    ensures forall b :: Within(GetBool(b), b)
    ensures forall b :: Within(GetU16(b), b)
    ensures forall b :: Within(GetU32(b), b)
    ensures forall b :: Within(GetU64(b), b)
    ensures forall b :: Within(GetI32(b), b)
    ensures forall b :: Within(ReadStr(b), b)
  {
    forall b ensures Within(ReadStr(b), b) {
      Chain(b);
      if |b| >= 4 && |b[4..]| >= DecLe(b[..4]) { assert b[4..][DecLe(b[..4])..] == b[4 + DecLe(b[..4])..]; }
    }
  }

  lemma FieldsForward(pool: Pool)
    ensures forall b :: Within(GetOpt(b), b)
    ensures forall b :: Within(GetUnary(b), b)
    ensures forall b :: Within(GetBinary(b), b)
    ensures forall b :: Within(GetTwo(b), b)
    ensures forall b :: Within(GetThree(b), b)
    ensures forall b :: Within(GetFour(b), b)
    ensures forall b :: Within(GetList(b), b)
    ensures forall b :: Within(GetName(pool, b), b)
    ensures forall b :: Within(GetNamed(pool, b), b)
    ensures forall b :: Within(GetOptName(pool, b), b)
  {
    hide Suffix, GetU8, GetBool, GetU16, GetU32;
    ScalarsForward();
    forall b ensures Within(GetOpt(b), b) { Chain(b); }
    forall b ensures Within(GetTwo(b), b) { Chain(b); }
    forall b ensures Within(GetThree(b), b) { Chain(b); }
    forall b ensures Within(GetFour(b), b) { Chain(b); }
    forall b ensures Within(GetList(b), b) { Chain(b); }
    forall b ensures Within(GetNamed(pool, b), b) { Chain(b); }
    forall b ensures Within(GetOptName(pool, b), b) { Chain(b); }
  }

  lemma ValuesForward(pool: Pool)
    ensures forall b :: Within(GetValue(pool, b), b)
    ensures forall b :: Within(GetValues(pool, b), b)
    ensures forall b :: Within(GetPair(pool, b), b)
    ensures forall b :: Within(GetPairs(pool, b), b)
  {
    hide Suffix, GetU8, GetBool, GetU32, GetU64, GetI32, GetName;
    ScalarsForward();
    FieldsForward(pool);
    forall b ensures Within(GetValue(pool, b), b) { Chain(b); }
    forall b ensures Within(GetPair(pool, b), b) { Chain(b); }
    SeqForward(b => GetValue(pool, b));
    SeqForward(b => GetPair(pool, b));
  }

  lemma FrameForward(pool: Pool, tag: u8, b: seq<u8>)
    ensures Within(GetFields(pool, tag, b), b)
  {
    hide Suffix, GetUnary, GetBinary, GetTwo, GetThree, GetFour, GetNamed, GetName, GetBool, GetU16, GetU32, GetList,
         GetValue, GetValues, GetPairs;
    Chain(b);
    ScalarsForward();
    FieldsForward(pool);
    ValuesForward(pool);
  }

  lemma KontsForward(pool: Pool)
    ensures Forward(b => GetKont(pool, b))
  {
    hide Suffix, GetU8, GetU32, GetFields;
    ScalarsForward();
    forall b ensures Within(GetKont(pool, b), b) {
      Chain(b);
      var tag := GetU8(b);
      if tag.Got? { FrameForward(pool, tag.value, tag.rest); }
    }
  }

  lemma HeapForward(pool: Pool)
    ensures Forward(b => GetObj(pool, b))
    ensures Forward(b => GetEnv(pool, b))
    ensures Forward(b => GetHandler(pool, b))
  {
    hide Suffix, GetU8, GetU16, GetU32, GetTwo, GetOpt, GetName, GetOptName, GetValue, GetValues, GetPairs, GetKind;
    ScalarsForward();
    FieldsForward(pool);
    ValuesForward(pool);
    forall b ensures Within(GetHandler(pool, b), b) { Chain(b); }
    forall b ensures Within(GetKind(pool, b), b) { KindForward(pool, b); }
    forall b ensures Within(GetEnv(pool, b), b) { Chain(b); }
    forall b ensures Within(GetObj(pool, b), b) { Chain(b); }
  }

  lemma KindForward(pool: Pool, b: seq<u8>)
    ensures Within(GetKind(pool, b), b)
  {
    hide Suffix, GetU8, GetU16, GetU32, GetOpt, GetOptName, GetValue, GetValues;
    Chain(b);
    ScalarsForward();
    FieldsForward(pool);
    ValuesForward(pool);
  }

  lemma DropsAreSuffixes(b: seq<u8>)
    ensures forall k: nat :: k <= |b| ==> Suffix(b[k..], b)
  {
  }

  lemma {:induction false} HostForward(b: seq<u8>, depth: nat, cap: nat)
    ensures Within(DecHost(b, depth, cap), b)
    decreases cap + 1 - depth, 1
  {
    hide Suffix, ReadStr, DecItems, DecPairs;
    Chain(b);
    ScalarsForward();
    if depth <= cap && b != [] {
      var body := b[1..];
      Chain(body);
      DropsAreSuffixes(b);
      DropsAreSuffixes(body);
      if b[0] == 6 || b[0] == 7 {
        var n := ReadLe(body, 4);
        if n.Got? {
          Chain(n.rest);
          HostItemsForward(n.rest, n.value, depth + 1, cap);
          HostPairsForward(n.rest, n.value, depth + 1, cap);
        }
      }
    }
  }

  lemma {:induction false} HostItemsForward(b: seq<u8>, n: nat, depth: nat, cap: nat)
    ensures Within(DecItems(b, n, depth, cap), b)
    decreases cap + 1 - depth, n + 3
  {
    hide Suffix, DecHost;
    Chain(b);
    if n > 0 {
      HostForward(b, depth, cap);
      var v := DecHost(b, depth, cap);
      if v.Got? { HostItemsForward(v.rest, n - 1, depth, cap); }
    }
  }

  lemma {:induction false} HostPairsForward(b: seq<u8>, n: nat, depth: nat, cap: nat)
    ensures Within(DecPairs(b, n, depth, cap), b)
    decreases cap + 1 - depth, n + 3
  {
    hide Suffix, DecHost, ReadStr;
    Chain(b);
    ScalarsForward();
    if n > 0 && ReadStr(b).Got? {
      HostForward(ReadStr(b).rest, depth, cap);
      var p := DecPair(b, depth, cap);
      if p.Got? { HostPairsForward(p.rest, n - 1, depth, cap); }
    }
  }

  lemma ControlForward(pool: Pool)
    ensures forall b :: Within(GetControl(pool, b), b)
  {
    hide Suffix, GetU8, GetU32, GetName, GetValue, GetValues;
    ScalarsForward();
    FieldsForward(pool);
    ValuesForward(pool);
    forall b ensures Within(GetControl(pool, b), b) { Chain(b); }
  }

  lemma FibersForward(pool: Pool)
    ensures Forward(b => GetFiber(pool, b))
  {
    hide Suffix, GetU8, GetU32, GetTwo, GetName, GetValue, GetControl, ReadStr, DecHost;
    ScalarsForward();
    FieldsForward(pool);
    ValuesForward(pool);
    ControlForward(pool);
    forall b ensures Within(GetHost(b), b) { HostForward(b, 0, MAX_HOST_VALUE_DEPTH); }
    SeqForward(GetHost);
    assert forall b :: Within(GetHosts(b), b);
    forall b ensures Within(GetStatus(pool, b), b) { Chain(b); }
    hide GetStatus;
    forall b ensures Within(GetFiber(pool, b), b) { Chain(b); }
  }

  lemma TablesForward(pool: Pool)
    ensures Forward(GetU32) && Forward(GetWaitList) && Forward(b => GetGrant(pool, b)) && Forward(GetMeter)
    ensures Forward(ReadStr)
  {
    hide Suffix, GetU8, GetBool, GetU32, GetU64, GetOpt, GetName, ReadStr;
    ScalarsForward();
    FieldsForward(pool);
    SeqForward(GetU32);
    assert forall b :: Within(GetIds(b), b);
    forall b ensures Within(GetWaitList(b), b) { Chain(b); }
    forall b ensures Within(GetGrant(pool, b), b) { Chain(b); }
    forall b ensures Within(GetMeter(b), b) { Chain(b); }
  }

  // ---------- Encoders append ----------

  /** What follows an encoding plays no part in it. */
  ghost predicate Appends<T(!new)>(put: (T, seq<u8>) -> seq<u8>) {
    forall x: T, a, b :: put(x, a) + b == put(x, a + b)
  }

  lemma {:induction false} EachAppends<T(!new)>(put: (T, seq<u8>) -> seq<u8>, xs: seq<T>, a: seq<u8>, b: seq<u8>)
    requires Appends(put)
    ensures PutEach(put, xs, a) + b == PutEach(put, xs, a + b)
    decreases |xs|
  {
    if xs != [] { EachAppends(put, xs[1..], a, b); }
  }

  lemma SeqAppends<T(!new)>(put: (T, seq<u8>) -> seq<u8>)
    requires Appends(put)
    ensures forall xs, a, b :: PutSeq(put, xs, a) + b == PutSeq(put, xs, a + b)
  {
    hide PutU32;
    ScalarsAppend();
    forall xs, a, b ensures PutSeq(put, xs, a) + b == PutSeq(put, xs, a + b) {
      EachAppends(put, xs, a, b);
    }
  }

  lemma Associates(x: seq<u8>, a: seq<u8>, b: seq<u8>)
    ensures (x + a) + b == x + (a + b)
  {
  }

  lemma ScalarsAppend()
    ensures forall v: u8, a, b :: PutU8(v, a) + b == PutU8(v, a + b)
    ensures forall v: bool, a, b :: PutBool(v, a) + b == PutBool(v, a + b)
    ensures forall n: nat, a, b :: PutU16(n, a) + b == PutU16(n, a + b)
    ensures forall n: nat, a, b :: PutU32(n, a) + b == PutU32(n, a + b)
    ensures forall n: nat, a, b :: PutU64(n, a) + b == PutU64(n, a + b)
    ensures forall n: i32, a, b :: PutI32(n, a) + b == PutI32(n, a + b)
    ensures forall s: Str, a, b :: PutStr(s, a) + b == PutStr(s, a + b)
    ensures forall v: HostValue, a, b :: PutHost(v, a) + b == PutHost(v, a + b)
  {
    hide EncLe, EncStr, EncHost;
    forall v: u8, a, b ensures PutU8(v, a) + b == PutU8(v, a + b) { Associates([v], a, b); }
    forall n: nat, a, b ensures PutU16(n, a) + b == PutU16(n, a + b) { Associates(EncLe(n % 0x1_0000, 2), a, b); }
    forall n: nat, a, b ensures PutU32(n, a) + b == PutU32(n, a + b) {
      Associates(EncLe(n % 0x1_0000_0000, 4), a, b);
    }
    forall n: nat, a, b ensures PutU64(n, a) + b == PutU64(n, a + b) {
      Associates(EncLe(n % 0x1_0000_0000_0000_0000, 8), a, b);
    }
    forall s: Str, a, b ensures PutStr(s, a) + b == PutStr(s, a + b) { Associates(EncStr(s), a, b); }
    forall v: HostValue, a, b ensures PutHost(v, a) + b == PutHost(v, a + b) { Associates(EncHost(v), a, b); }
  }

  lemma FieldsAppend(pool: Pool)
    ensures forall v: Option<nat>, a, b :: PutOpt(v, a) + b == PutOpt(v, a + b)
    ensures forall op: UnaryOp, a, b :: PutUnary(op, a) + b == PutUnary(op, a + b)
    ensures forall op: BinaryOp, a, b :: PutBinary(op, a) + b == PutBinary(op, a + b)
    ensures forall s: Str, a, b :: PutName(pool, s, a) + b == PutName(pool, s, a + b)
    ensures forall s: Option<Str>, a, b :: PutOptName(pool, s, a) + b == PutOptName(pool, s, a + b)
    ensures forall x: nat, y: nat, z: nat, e: EnvId, a, b ::
      PutList(x, y, z, e, a) + b == PutList(x, y, z, e, a + b)
  {
    hide PutU8, PutBool, PutU16, PutU32;
    ScalarsAppend();
  }

  lemma ValueAppends(pool: Pool, v: JSValue, a: seq<u8>, b: seq<u8>)
    ensures PutValue(pool, v, a) + b == PutValue(pool, v, a + b)
  {
    hide PutU8, PutBool, PutU32, PutU64, PutI32, PutName;
    ScalarsAppend();
    FieldsAppend(pool);
  }

  lemma ValuesAppend(pool: Pool)
    ensures forall v: JSValue, a, b :: PutValue(pool, v, a) + b == PutValue(pool, v, a + b)
    ensures forall vs: seq<JSValue>, a, b :: PutValues(pool, vs, a) + b == PutValues(pool, vs, a + b)
    ensures Appends((kv, r) => PutPair(pool, kv, r))
    ensures forall kvs: seq<(Str, JSValue)>, a, b :: PutPairs(pool, kvs, a) + b == PutPairs(pool, kvs, a + b)
  {
    hide PutValue, PutName;
    forall v: JSValue, a, b ensures PutValue(pool, v, a) + b == PutValue(pool, v, a + b) {
      ValueAppends(pool, v, a, b);
    }
    FieldsAppend(pool);
    SeqAppends((v, r) => PutValue(pool, v, r));
    SeqAppends((kv, r) => PutPair(pool, kv, r));
  }

  lemma FrameAppends(pool: Pool, f: Frame, a: seq<u8>, b: seq<u8>)
    ensures PutFields(pool, f, a) + b == PutFields(pool, f, a + b)
  {
    hide PutFields;
    if FrameTag(f) < 21 { EarlyFrameAppends(pool, f, a, b); } else { LateFrameAppends(pool, f, a, b); }
  }

  lemma EarlyFrameAppends(pool: Pool, f: Frame, a: seq<u8>, b: seq<u8>)
    requires FrameTag(f) < 21
    ensures PutFields(pool, f, a) + b == PutFields(pool, f, a + b)
  {
    hide PutUnary, PutBinary, PutName, PutBool, PutU16, PutU32, PutList, PutValue, PutValues, PutPairs;
    hide PutFor, PutCall, PutLiteral, PutStatement, PutScope, PutEffect;
    ScalarsAppend();
    FieldsAppend(pool);
    ValuesAppend(pool);
  }

  lemma LateFrameAppends(pool: Pool, f: Frame, a: seq<u8>, b: seq<u8>)
    requires FrameTag(f) >= 21
    ensures PutFields(pool, f, a) + b == PutFields(pool, f, a + b)
  {
    hide PutUnary, PutBinary, PutName, PutBool, PutU16, PutU32, PutList, PutValue, PutValues, PutPairs;
    hide PutOperator, PutAssignment, PutBranch;
    ScalarsAppend();
    FieldsAppend(pool);
    ValuesAppend(pool);
  }

  lemma KontsAppend(pool: Pool)
    ensures Appends((k, r) => PutKont(pool, k, r))
  {
    hide PutU8, PutU32, PutFields;
    ScalarsAppend();
    forall k, a, b ensures PutKont(pool, k, a) + b == PutKont(pool, k, a + b) {
      if k.Link? { FrameAppends(pool, k.frame, PutU32(k.k, a), b); }
    }
  }

  lemma KindAppends(pool: Pool, k: ObjectKind, a: seq<u8>, b: seq<u8>)
    ensures PutKind(pool, k, a) + b == PutKind(pool, k, a + b)
  {
    hide PutU8, PutU16, PutU32, PutOpt, PutOptName, PutValue, PutValues;
    ScalarsAppend();
    FieldsAppend(pool);
    ValuesAppend(pool);
  }

  lemma HeapAppends(cx: Context)
    ensures Appends((o, r) => PutObj(cx, o, r))
    ensures Appends((e, r) => PutEnv(cx, e, r))
    ensures Appends((h, r) => PutHandler(cx.pool, h, r))
  {
    hide PutU16, PutU32, PutOpt, PutName, PutPairs, PutKind;
    ScalarsAppend();
    FieldsAppend(cx.pool);
    ValuesAppend(cx.pool);
    forall o, a, b ensures PutObj(cx, o, a) + b == PutObj(cx, o, a + b) { KindAppends(cx.pool, o.kind, a, b); }
  }

  lemma ControlAppends(pool: Pool)
    ensures forall c: Control, a, b :: PutControl(pool, c, a) + b == PutControl(pool, c, a + b)
  {
    hide PutU8, PutU32, PutName, PutValue, PutValues;
    ScalarsAppend();
    FieldsAppend(pool);
    ValuesAppend(pool);
  }

  lemma StatusAppends(pool: Pool, s: FiberStatus, a: seq<u8>, b: seq<u8>)
    ensures PutStatus(pool, s, a) + b == PutStatus(pool, s, a + b)
  {
    hide PutU8, PutStr, PutName, PutValue, PutHost, PutSeq;
    ScalarsAppend();
    FieldsAppend(pool);
    ValuesAppend(pool);
    SeqAppends(PutHost);
  }

  lemma FibersAppend(pool: Pool)
    ensures Appends((f, r) => PutFiber(pool, f, r))
  {
    hide PutU32, PutControl, PutStatus;
    ScalarsAppend();
    ControlAppends(pool);
    forall f: Fiber, a, b ensures PutFiber(pool, f, a) + b == PutFiber(pool, f, a + b) {
      StatusAppends(pool, f.status, PutU32(f.meter, a), b);
    }
  }

  lemma TablesAppend(pool: Pool)
    ensures Appends(PutU32) && Appends(PutWaitList) && Appends((g, r) => PutGrant(pool, g, r)) && Appends(PutMeter)
    ensures Appends(PutStr)
  {
    hide PutU8, PutBool, PutU32, PutU64, PutOpt, PutName, PutStr;
    ScalarsAppend();
    FieldsAppend(pool);
    SeqAppends(PutU32);
  }
}
