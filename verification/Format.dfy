/** The formats on disk, spelled out in bytes: a round trip alone would also hold of
    an encoder and a decoder that agree on something else (src/snapshot.rs:27-311,
    314-1060, src/replay.rs:59-232). */
module Format {
  import opened Values
  import opened Fuel
  import opened Boundary
  import opened Fibers
  import opened Bytes
  import opened HostCodec
  import opened Log
  import opened SnapshotCodec
  import opened Image

  // ---------- Integers and strings ----------

  /** Little-endian, two's complement, four bytes or eight. */
  lemma IntegerBytes()
    ensures EncLe(258, 4) == [2, 1, 0, 0]
    ensures EncLe(I32Bits(-2), 4) == [254, 255, 255, 255]
  {
    assert EncLe(1, 3) == [1] + EncLe(0, 2) == [1, 0, 0];
    assert I32Bits(-2) == 0xFFFF_FFFE;
    assert EncLe(0xFFFF, 2) == [255, 255];
    assert EncLe(0xFF_FFFF, 3) == [255] + EncLe(0xFFFF, 2);
  }

  /** Numbers below 256 in four bytes and in eight. */
  lemma SmallBytes(n: u8)
    ensures EncLe(n, 4) == [n, 0, 0, 0] && EncLe(n, 8) == [n, 0, 0, 0, 0, 0, 0, 0]
  {
    assert EncLe(0, 2) == [0, 0] && EncLe(0, 3) == [0, 0, 0];
    assert EncLe(0, 4) == [0, 0, 0, 0] && EncLe(0, 5) == [0] + EncLe(0, 4);
    assert EncLe(0, 6) == [0] + EncLe(0, 5) && EncLe(0, 7) == [0] + EncLe(0, 6);
  }

  /** A length in four bytes, then the text. */
  lemma StringBytes(s: Str)
    requires |s| < 256
    ensures EncStr(s) == [|s|, 0, 0, 0] + s
  {
    SmallBytes(|s|);
  }

  // ---------- Host values ----------

  /** One kind byte, then the payload. */
  lemma HostValueBytes()
    ensures EncHost(HUndefined) == [0] && EncHost(HNull) == [1]
    ensures EncHost(HBool(false)) == [2, 0] && EncHost(HBool(true)) == [2, 1]
    ensures EncHost(HInt(-2)) == [3, 254, 255, 255, 255]
    ensures EncHost(HFloat(9)) == [4, 9, 0, 0, 0, 0, 0, 0, 0]
    ensures EncHost(HStr([104, 105])) == [5, 2, 0, 0, 0, 104, 105]
  {
    hide EncLe;
    IntegerBytes();
    SmallBytes(2);
    SmallBytes(9);
  }

  /** Containers count their children; an object's are behind their keys. */
  lemma ContainerBytes()
    ensures EncHost(HArray([HNull, HBool(true)])) == [6, 2, 0, 0, 0, 1, 2, 1]
    ensures EncHost(HObject([([107], HNull)])) == [7, 1, 0, 0, 0, 1, 0, 0, 0, 107, 1]
  {
    hide EncLe;
    SmallBytes(1);
    SmallBytes(2);
    assert EncHost(HNull) == [1] && EncHost(HBool(true)) == [2, 1];
    var a, o := HArray([HNull, HBool(true)]), HObject([([107], HNull)]);
    assert Child(a, 0) == HNull && Child(a, 1) == HBool(true) && Child(o, 0) == HNull;
    assert EncChildren(a, 2) == [] && EncChildren(a, 1) == [2, 1] && EncChildren(a, 0) == [1, 2, 1];
    assert EncChildren(o, 1) == [] && EncChildren(o, 0) == EncChild(o, 0);
  }

  // ---------- The log ----------

  /** Magic and version; then source, grants, fuel and quantum. */
  lemma HeaderBytes()
    ensures LOG_MAGIC + [LOG_VERSION] == [75, 82, 76, 71, 2]
    ensures EncConfig(LogHeader([115], [[65]], Some(5), 9)) ==
              ([1, 0, 0, 0] + [115]) + [1, 0, 0, 0] + ([1, 0, 0, 0] + [65])
              + ([1] + [5, 0, 0, 0, 0, 0, 0, 0]) + [9, 0, 0, 0, 0, 0, 0, 0]
    ensures EncOptU64(None) == [0]
  {
    hide EncLe;
    SmallBytes(1);
    SmallBytes(5);
    SmallBytes(9);
    var names: seq<Str> := [[65]];
    assert names[1..] == [];
    assert EncStrs(names) == EncStr([65]) + [] == EncStr([65]);
  }

  /** Each record: its length, its stamp, its kind, and its fields. */
  lemma RecordBytes()
    ensures EncEvent(Stamped(3, Continue)) == [9, 0, 0, 0] + [3, 0, 0, 0, 0, 0, 0, 0] + [2]
    ensures EncEvent(Stamped(3, DoneEvent(None))) == [10, 0, 0, 0] + [3, 0, 0, 0, 0, 0, 0, 0] + [3, 0]
    ensures EncEvent(Stamped(3, RefuelEvent(7))) ==
      [17, 0, 0, 0] + [3, 0, 0, 0, 0, 0, 0, 0] + [4] + [7, 0, 0, 0, 0, 0, 0, 0]
  {
    hide EncLe, EncHost;
    SmallBytes(3);
    SmallBytes(7);
    SmallBytes(9);
    SmallBytes(10);
    SmallBytes(17);
  }

  lemma DoneBytes()
    ensures EncEvent(Stamped(3, DoneEvent(Some(HNull)))) == [11, 0, 0, 0] + [3, 0, 0, 0, 0, 0, 0, 0] + [3, 1, 1]
  {
    hide EncLe, EncHost;
    HostValueBytes();
    SmallBytes(3);
    SmallBytes(11);
  }

  /** A host call's record: the fiber, the effect, its arguments and the answer. */
  lemma AnswerBytes()
    ensures var e := HostAnswer(1, [65], [HNull], HBool(true));
      && EventTag(e) == 1
      && EncEventBody(e) == [1, 0, 0, 0] + ([1, 0, 0, 0] + [65]) + [1, 0, 0, 0] + [1] + [2, 1]
  {
    hide EncLe, EncHost;
    assert EncHost(HNull) == [1] && EncHost(HBool(true)) == [2, 1] by { HostValueBytes(); }
    SmallBytes(1);
    assert [HNull][1..] == [];
    assert EncHosts([HNull]) == [1];
  }

  // ---------- The snapshot ----------

  lemma WordBytes(n: u8, rest: seq<u8>)
    ensures PutU32(n, rest) == [n, 0, 0, 0] + rest && PutU64(n, rest) == [n, 0, 0, 0, 0, 0, 0, 0] + rest
    ensures PutU16(n, rest) == [n, 0] + rest
  {
    hide EncLe;
    SmallBytes(n);
    assert EncLe(n, 2) == [n, 0] by { ShortBytes(n); }
  }

  lemma ShortBytes(n: u8)
    ensures EncLe(n, 2) == [n, 0]
  {
  }

  const NAMES: Pool := [[], [65]]

  /** A string is written as its index in the pool. */
  lemma NameBytes(rest: seq<u8>)
    ensures PutName(NAMES, [65], rest) == [1, 0, 0, 0] + rest
  {
    hide PutU32;
    WordBytes(1, rest);
    assert NAMES[0] != [65] && NAMES[1] == [65];
    assert IndexIn(NAMES, [65]) == 1;
  }

  /** A value is its kind and its payload. */
  lemma ScalarBytes(rest: seq<u8>)
    ensures PutValue(NAMES, Undefined, rest) == [0] + rest && PutValue(NAMES, Null, rest) == [1] + rest
    ensures PutValue(NAMES, Bool(true), rest) == [2] + ([1] + rest)
    ensures PutValue(NAMES, Int(7), rest) == [3] + ([7, 0, 0, 0] + rest)
    ensures PutValue(NAMES, Float(7), rest) == [4] + ([7, 0, 0, 0, 0, 0, 0, 0] + rest)
    ensures PutValue(NAMES, String([65]), rest) == [5] + ([1, 0, 0, 0] + rest)
  {
    hide PutU32, PutU64, GetValue, PutName, ValueFits, PoolOk;
    WordBytes(7, rest);
    NameBytes(rest);
  }

  lemma ReferenceBytes(rest: seq<u8>)
    ensures PutValue(NAMES, JSValue.Object(7), rest) == [6] + ([7, 0, 0, 0] + rest)
    ensures PutValue(NAMES, JSValue.Function(7), rest) == [7] + ([7, 0, 0, 0] + rest)
    ensures PutValue(NAMES, JSValue.Array(7), rest) == [8] + ([7, 0, 0, 0] + rest)
    ensures PutValue(NAMES, Handler(7), rest) == [9] + ([7, 0, 0, 0] + rest)
  {
    hide PutU32, PutU64, PutName, GetValue, ValueFits, PoolOk;
    assert PutU32(7, rest) == [7, 0, 0, 0] + rest by { WordBytes(7, rest); }
  }

  lemma ContinuationBytes(rest: seq<u8>)
    ensures PutValue(NAMES, Continuation(7, 9), rest) == [10] + ([7, 0, 0, 0] + ([9, 0, 0, 0] + rest))
  {
    hide PutU32, PutU64, PutName, GetValue, ValueFits, PoolOk;
    WordBytes(9, rest);
    WordBytes(7, PutU32(9, rest));
  }

  lemma ControlBytes(rest: seq<u8>)
    ensures PutControl(NAMES, Expr(7), rest) == [0] + ([7, 0, 0, 0] + rest)
    ensures PutControl(NAMES, Control.Stmt(7), rest) == [1] + ([7, 0, 0, 0] + rest)
    ensures PutControl(NAMES, Value(Null), rest) == [2] + ([1] + rest)
    ensures PutControl(NAMES, Returning(Null), rest) == [3] + ([1] + rest)
    ensures PutControl(NAMES, Halted(Null), rest) == [4] + ([1] + rest)
    ensures PutControl(NAMES, Suspend([65], []), rest) == [5] + ([1, 0, 0, 0] + ([0, 0, 0, 0] + rest))
  {
    hide PutU32, PutValue, PutName, GetControl, ControlFits, PoolOk;
    WordBytes(7, rest);
    WordBytes(0, rest);
    ScalarBytes(rest);
    assert PutValues(NAMES, [], rest) == PutU32(0, rest);
    NameBytes(PutU32(0, rest));
  }

  /** A status; a failure is its displayed text. */
  lemma StatusBytes(rest: seq<u8>)
    ensures PutStatus(NAMES, Ready, rest) == [0] + rest && PutStatus(NAMES, Running, rest) == [1] + rest
    ensures PutStatus(NAMES, Completed(Null), rest) == [3] + ([1] + rest)
    ensures PutStatus(NAMES, BlockedOnHost([65], [HNull]), rest) ==
              [5] + ([1, 0, 0, 0] + ([1, 0, 0, 0] + ([1] + rest)))
  {
    hide PutValue, PutName, PutHosts, Display, EncLe;
    ScalarBytes(rest);
    OneHost(rest);
    NameBytes(PutHosts([HNull], rest));
  }

  lemma OneHost(rest: seq<u8>)
    ensures PutHosts([HNull], rest) == [1, 0, 0, 0] + ([1] + rest)
  {
    hide PutU32, EncHost, GetHost;
    assert EncHost(HNull) == [1] by { HostValueBytes(); }
    assert [HNull][1..] == [];
    assert PutEach(PutHost, [HNull], rest) == PutHost(HNull, PutEach(PutHost, [], rest)) == [1] + rest;
    WordBytes(1, [1] + rest);
  }

  lemma FailureBytes(m: Str)
    requires |m| < 200
    ensures PutStatus(NAMES, Failed(Message(m)), []) == [4, |m|, 0, 0, 0] + m
    ensures Display(TypeError(m)) == [84, 121, 112, 101, 69, 114, 114, 111, 114, 58, 32] + m
  {
    hide EncLe, PutValue, PutName, PutHosts;
    StringBytes(m);
    assert Ascii("TypeError: ") == [84, 121, 112, 101, 69, 114, 114, 111, 114, 58, 32];
  }

  /** A meter's fuel and then its parent, each behind whether there is one. */
  lemma MeterBytes(rest: seq<u8>)
    ensures PutMeter(Meter(Some(7), Some(1)), rest) ==
              [1] + ([7, 0, 0, 0, 0, 0, 0, 0] + ([1] + ([1, 0, 0, 0] + rest)))
    ensures PutMeter(Meter(None, None), rest) == [0] + ([0] + rest)
  {
    hide PutU32, PutU64, GetMeter, GetOpt;
    WordBytes(1, rest);
    WordBytes(7, PutOpt(Some(1), rest));
  }

  /** The head of the file. */
  lemma HeadBytes(rest: seq<u8>)
    ensures MAGIC + PutU8(VERSION, rest) == [75, 82, 72, 84, 3] + rest
  {
  }
}
