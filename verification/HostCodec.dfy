/** The host-value codec (src/snapshot.rs:226-311): recursive, self-delimiting,
    with a depth cap on decoding. */
module HostCodec {
  import opened Values
  import opened Boundary
  import opened Bytes

  const MAX_HOST_VALUE_DEPTH: nat := 256

  // ---------- The encoding ----------

  function Tag(v: HostValue): u8 {
    match v
    case HUndefined => 0
    case HNull => 1
    case HBool(_) => 2
    case HInt(_) => 3
    case HFloat(_) => 4
    case HStr(_) => 5
    case HArray(_) => 6
    case HObject(_) => 7
  }

  function EncHost(v: HostValue): seq<u8>
    decreases v, Width(v) + 2
  {
    [Tag(v)] + EncBody(v)
  }

  function EncBody(v: HostValue): seq<u8>
    decreases v, Width(v) + 1
  {
    match v
    case HBool(b) => [if b then 1 else 0]
    case HInt(n) => EncLe(I32Bits(n), 4)
    case HFloat(bits) => EncLe(bits, 8)
    case HStr(s) => EncStr(s)
    case HArray(items) => EncLe(|items| % 0x1_0000_0000, 4) + EncChildren(v, 0)
    case HObject(pairs) => EncLe(|pairs| % 0x1_0000_0000, 4) + EncChildren(v, 0)
    case _ => []
  }

  /** A child, with its key if it has one. */
  function EncChild(v: HostValue, i: nat): seq<u8>
    requires i < Width(v)
    decreases v, 0
  {
    (if v.HObject? then EncStr(v.pairs[i].0) else []) + EncHost(Child(v, i))
  }

  /** The children from the `i`-th on. */
  function EncChildren(v: HostValue, i: nat): seq<u8>
    requires i <= Width(v)
    decreases v, Width(v) - i
  {
    if i == Width(v) then [] else EncChild(v, i) + EncChildren(v, i + 1)
  }

  // ---------- The decoding ----------

  function DecHost(b: seq<u8>, depth: nat, cap: nat): Read<HostValue>
    decreases cap + 1 - depth, 1
  {
    if depth > cap then Bad(TooDeep)
    else if b == [] then Bad(Truncated)
    else DecBody(b[0], b[1..], depth, cap)
  }

  function DecBody(tag: u8, b: seq<u8>, depth: nat, cap: nat): Read<HostValue>
    requires depth <= cap
    decreases cap + 1 - depth, 0
  {
    match tag
    case 0 => Got(HUndefined, b)
    case 1 => Got(HNull, b)
    case 2 => (match ReadLe(b, 1) case Bad(e) => Bad(e) case Got(x, rest) => Got(HBool(x != 0), rest))
    case 3 =>
      (match ReadLe(b, 4)
       case Bad(e) => Bad(e)
       case Got(x, rest) => Got(HInt(BitsI32(x % 0x1_0000_0000)), rest))
    case 4 =>
      (match ReadLe(b, 8)
       case Bad(e) => Bad(e)
       case Got(x, rest) => Got(HFloat(x % 0x1_0000_0000_0000_0000), rest))
    case 5 => (match ReadStr(b) case Bad(e) => Bad(e) case Got(s, rest) => Got(HStr(s), rest))
    case 6 =>
      (match ReadLe(b, 4)
       case Bad(e) => Bad(e)
       case Got(n, rest) =>
         match DecItems(rest, n, depth + 1, cap)
         case Bad(e) => Bad(e)
         case Got(items, rest') => Got(HArray(items), rest'))
    case 7 =>
      (match ReadLe(b, 4)
       case Bad(e) => Bad(e)
       case Got(n, rest) =>
         match DecPairs(rest, n, depth + 1, cap)
         case Bad(e) => Bad(e)
         case Got(pairs, rest') => Got(HObject(pairs), rest'))
    case _ => Bad(BadTag)
  }

  function DecItems(b: seq<u8>, n: nat, depth: nat, cap: nat): Read<seq<HostValue>>
    decreases cap + 1 - depth, n + 3
  {
    if n == 0 then Got([], b)
    else
      match DecHost(b, depth, cap)
      case Bad(e) => Bad(e)
      case Got(v, rest) =>
        match DecItems(rest, n - 1, depth, cap)
        case Bad(e) => Bad(e)
        case Got(vs, rest') => Got([v] + vs, rest')
  }

  function DecPair(b: seq<u8>, depth: nat, cap: nat): Read<(Str, HostValue)>
    decreases cap + 1 - depth, 2
  {
    match ReadStr(b)
    case Bad(e) => Bad(e)
    case Got(k, rest) =>
      match DecHost(rest, depth, cap)
      case Bad(e) => Bad(e)
      case Got(v, rest') => Got((k, v), rest')
  }

  function DecPairs(b: seq<u8>, n: nat, depth: nat, cap: nat): Read<seq<(Str, HostValue)>>
    decreases cap + 1 - depth, n + 3
  {
    if n == 0 then Got([], b)
    else
      match DecPair(b, depth, cap)
      case Bad(e) => Bad(e)
      case Got(p, rest) =>
        match DecPairs(rest, n - 1, depth, cap)
        case Bad(e) => Bad(e)
        case Got(ps, rest') => Got([p] + ps, rest')
  }

  // ---------- Round trip ----------

  /** What a Rust HostValue always is: good strings, fewer than 2^32 children. */
  ghost predicate Good(v: HostValue)
    decreases v
  {
    && (v.HStr? ==> GoodStr(v.s))
    && Width(v) < 0x1_0000_0000
    && (v.HObject? ==> forall i :: 0 <= i < |v.pairs| ==> GoodStr(v.pairs[i].0))
    && forall i :: 0 <= i < Width(v) ==> Good(Child(v, i))
  }

  ghost predicate ChildrenFit(v: HostValue, i: nat, room: int)
    requires i <= Width(v)
  {
    forall j :: i <= j < Width(v) ==> Height(Child(v, j)) <= room
  }

  lemma {:induction false} DeepestAttained(v: HostValue, n: nat) returns (i: nat)
    requires 0 < n <= Width(v)
    ensures i < n && Height(Child(v, i)) == Deepest(v, n)
  {
    if n == 1 {
      i := 0;
    } else if Deepest(v, n) == Height(Child(v, n - 1)) {
      i := n - 1;
    } else {
      i := DeepestAttained(v, n - 1);
    }
  }

  lemma FitsByHeight(v: HostValue, room: nat)
    ensures ChildrenFit(v, 0, room - 1) <==> Height(v) <= room
  {
    if Width(v) > 0 {
      forall j | 0 <= j < Width(v) ensures Height(Child(v, j)) < Height(v) { ChildIsLower(v, j); }
      var i := DeepestAttained(v, Width(v));
    }
  }

  lemma ScalarRoundTrip(v: HostValue, rest: seq<u8>, depth: nat, cap: nat)
    requires Good(v) && depth <= cap && !v.HArray? && !v.HObject?
    ensures DecBody(Tag(v), EncBody(v) + rest, depth, cap) == Got(v, rest)
  {
    hide EncLe, ReadLe, DecItems, DecPairs, EncChildren, ReadStr, EncStr, ValidUtf8;
    Pow256Values();
    assert [] + rest == rest;
    match v {
      case HBool(x) =>
        OneByte(if x then 1 else 0);
        ReadLeBack(if x then 1 else 0, 1, rest);
      case HInt(n) => ReadLeBack(I32Bits(n), 4, rest);
      case HFloat(bits) => ReadLeBack(bits, 8, rest);
      case HStr(s) => ReadStrBack(s, rest);
      case _ =>
    }
  }

  lemma OneByte(x: u8)
    ensures EncLe(x, 1) == [x]
  {
    assert EncLe(x / 0x100, 0) == [];
  }

  /** Decoding an encoding returns the value and the rest if the value is not
      nested beyond the cap, and fails as too deep otherwise. */
  lemma {:induction false} HostValueRoundTrip(v: HostValue, rest: seq<u8>, depth: nat, cap: nat)
    requires Good(v) && depth <= cap
    ensures DecHost(EncHost(v) + rest, depth, cap) ==
      if depth + Height(v) <= cap then Got(v, rest) else Bad(TooDeep)
    decreases v, Width(v) + 1
  {
    hide EncLe, ReadLe, DecItems, DecPairs, EncChildren, ReadStr, EncStr, ValidUtf8, Deepest;
    Pow256Values();
    assert (EncHost(v) + rest)[1..] == EncBody(v) + rest;
    match v {
      case HArray(items) =>
        assert EncBody(v) + rest == EncLe(|items|, 4) + (EncChildren(v, 0) + rest);
        ReadLeBack(|items|, 4, EncChildren(v, 0) + rest);
        ItemsRoundTrip(v, 0, rest, depth, cap);
        FitsByHeight(v, cap - depth);
        assert items[0..] == items;
      case HObject(pairs) =>
        assert EncBody(v) + rest == EncLe(|pairs|, 4) + (EncChildren(v, 0) + rest);
        ReadLeBack(|pairs|, 4, EncChildren(v, 0) + rest);
        PairsRoundTrip(v, 0, rest, depth, cap);
        FitsByHeight(v, cap - depth);
        assert pairs[0..] == pairs;
      case _ => ScalarRoundTrip(v, rest, depth, cap);
    }
  }

  lemma {:induction false} ItemsRoundTrip(v: HostValue, i: nat, rest: seq<u8>, depth: nat, cap: nat)
    requires Good(v) && v.HArray? && i <= Width(v) && depth <= cap
    ensures DecItems(EncChildren(v, i) + rest, Width(v) - i, depth + 1, cap) ==
      if ChildrenFit(v, i, cap - depth - 1) then Got(v.items[i..], rest) else Bad(TooDeep)
    decreases v, Width(v) - i
  {
    hide DecBody, EncHost, EncBody, Height;
    if i == Width(v) {
      assert EncChildren(v, i) + rest == rest;
    } else {
      var after := EncChildren(v, i + 1) + rest;
      assert EncChildren(v, i) + rest == EncHost(Child(v, i)) + after;
      if depth + 1 <= cap {
        HostValueRoundTrip(Child(v, i), after, depth + 1, cap);
      }
      ItemsRoundTrip(v, i + 1, rest, depth, cap);
      assert v.items[i..] == [v.items[i]] + v.items[i + 1..];
    }
  }

  lemma {:induction false} PairsRoundTrip(v: HostValue, i: nat, rest: seq<u8>, depth: nat, cap: nat)
    requires Good(v) && v.HObject? && i <= Width(v) && depth <= cap
    ensures DecPairs(EncChildren(v, i) + rest, Width(v) - i, depth + 1, cap) ==
      if ChildrenFit(v, i, cap - depth - 1) then Got(v.pairs[i..], rest) else Bad(TooDeep)
    decreases v, Width(v) - i
  {
    hide DecBody, EncHost, EncBody, Height, EncStr, ReadStr, ValidUtf8;
    if i == Width(v) {
      assert EncChildren(v, i) + rest == rest;
    } else {
      var after := EncChildren(v, i + 1) + rest;
      assert EncChildren(v, i) + rest == EncStr(v.pairs[i].0) + (EncHost(Child(v, i)) + after);
      ReadStrBack(v.pairs[i].0, EncHost(Child(v, i)) + after);
      if depth + 1 <= cap {
        HostValueRoundTrip(Child(v, i), after, depth + 1, cap);
      }
      assert DecPair(EncChildren(v, i) + rest, depth + 1, cap) ==
        if depth + 1 + Height(Child(v, i)) <= cap then Got((v.pairs[i].0, Child(v, i)), after) else Bad(TooDeep);
      PairsRoundTrip(v, i + 1, rest, depth, cap);
      assert v.pairs[i] == (v.pairs[i].0, Child(v, i));
      assert v.pairs[i..] == [v.pairs[i]] + v.pairs[i + 1..];
    }
  }

  // ---------- Bit equality ----------

  /** host_value_bit_eq: floats by bit pattern. */
  function BitEq(a: HostValue, b: HostValue): bool
    decreases a
  {
    match (a, b)
    case (HUndefined, HUndefined) => true
    case (HNull, HNull) => true
    case (HBool(x), HBool(y)) => x == y
    case (HInt(x), HInt(y)) => x == y
    case (HFloat(x), HFloat(y)) => x == y
    case (HStr(x), HStr(y)) => x == y
    case (HArray(xs), HArray(ys)) =>
      |xs| == |ys| && forall i :: 0 <= i < Width(a) ==> BitEq(Child(a, i), Child(b, i))
    case (HObject(xs), HObject(ys)) =>
      |xs| == |ys| && forall i :: 0 <= i < Width(a) ==> xs[i].0 == ys[i].0 && BitEq(Child(a, i), Child(b, i))
    case _ => false
  }

  lemma {:induction false} BitEqIsEquality(a: HostValue, b: HostValue)
    ensures BitEq(a, b) <==> a == b
    decreases a
  {
    if ((a.HArray? && b.HArray?) || (a.HObject? && b.HObject?)) && Width(a) == Width(b) {
      forall i | 0 <= i < Width(a) ensures BitEq(Child(a, i), Child(b, i)) <==> Child(a, i) == Child(b, i) {
        BitEqIsEquality(Child(a, i), Child(b, i));
      }
      if BitEq(a, b) && a.HArray? {
        forall i | 0 <= i < Width(a) ensures a.items[i] == b.items[i] { assert BitEq(Child(a, i), Child(b, i)); }
      }
      if BitEq(a, b) && a.HObject? {
        forall i | 0 <= i < Width(a) ensures a.pairs[i] == b.pairs[i] { assert BitEq(Child(a, i), Child(b, i)); }
      }
    }
  }

  /** Two values have the same bytes exactly when they are bit-equal. */
  lemma EqualBytesIffBitEq(a: HostValue, b: HostValue)
    requires Good(a) && Good(b)
    ensures EncHost(a) == EncHost(b) <==> BitEq(a, b)
  {
    BitEqIsEquality(a, b);
    if EncHost(a) == EncHost(b) {
      var cap := Height(a) + Height(b);
      HostValueRoundTrip(a, [], 0, cap);
      HostValueRoundTrip(b, [], 0, cap);
    }
  }

  // ---------- The codec over writer and reader state ----------

  method WriteHostValue(w: ByteWriter, v: HostValue)
    modifies w
    ensures w.buf == old(w.buf) + EncHost(v)
    decreases v, 1
  {
    hide EncLe, EncStr, EncChildren;
    w.U8(Tag(v));
    ghost var head := w.buf;
    match v {
      case HUndefined =>
      case HNull =>
      case HBool(b) => w.Bool(b);
      case HInt(n) => w.I32(n);
      case HFloat(bits) => w.U64(bits);
      case HStr(s) => w.String(s);
      case HArray(items) => w.U32(|items|); WriteChildren(w, v);
      case HObject(pairs) => w.U32(|pairs|); WriteChildren(w, v);
    }
    assert w.buf == head + EncBody(v);
  }

  method WriteChildren(w: ByteWriter, v: HostValue)
    modifies w
    ensures w.buf == old(w.buf) + EncChildren(v, 0)
    decreases v, 0
  {
    hide EncStr, EncHost;
    for i := 0 to Width(v)
      invariant w.buf + EncChildren(v, i) == old(w.buf) + EncChildren(v, 0)
    {
      ghost var before := w.buf;
      if v.HObject? {
        w.String(v.pairs[i].0);
      }
      WriteHostValue(w, Child(v, i));
      assert w.buf == before + EncChild(v, i);
    }
    assert w.buf + [] == w.buf;
  }

  /** read_host_value_at. */
  method ReadHostValueAt(r: ByteReader, depth: nat, cap: nat) returns (res: Result<HostValue, DecodeError>)
    requires r.Valid()
    modifies r`pos
    ensures r.Reads(res, DecHost(old(r.Remaining()), depth, cap))
    decreases cap + 1 - depth, 1
  {
    hide EncLe, ReadStr, DecItems, DecPairs, DecLe;
    if depth > cap {
      return Err(TooDeep);
    }
    var tag := r.Take(1);
    if tag.Err? {
      return Err(tag.error);
    }
    assert old(r.Remaining())[..1][0] == old(r.Remaining())[0];
    match tag.value[0] {
      case 0 => res := Ok(HUndefined);
      case 1 => res := Ok(HNull);
      case 2 =>
        var x := r.ReadInt(1);
        if x.Err? { return Err(x.error); }
        res := Ok(HBool(x.value != 0));
      case 3 =>
        var x := r.ReadInt(4);
        if x.Err? { return Err(x.error); }
        res := Ok(HInt(BitsI32(x.value % 0x1_0000_0000)));
      case 4 =>
        var x := r.ReadInt(8);
        if x.Err? { return Err(x.error); }
        res := Ok(HFloat(x.value % 0x1_0000_0000_0000_0000));
      case 5 =>
        var x := r.ReadString();
        if x.Err? { return Err(x.error); }
        res := Ok(HStr(x.value));
      case 6 =>
        var n := r.ReadInt(4);
        if n.Err? { return Err(n.error); }
        var items := ReadItems(r, n.value, depth + 1, cap);
        if items.Err? { return Err(items.error); }
        res := Ok(HArray(items.value));
      case 7 =>
        var n := r.ReadInt(4);
        if n.Err? { return Err(n.error); }
        var pairs := ReadPairs(r, n.value, depth + 1, cap);
        if pairs.Err? { return Err(pairs.error); }
        res := Ok(HObject(pairs.value));
      case _ => res := Err(BadTag);
    }
  }

  /** What a counted loop has decoded so far, against the whole decoder. */
  ghost function SoFar<T>(done: seq<T>, more: Read<seq<T>>): Read<seq<T>> {
    match more
    case Bad(e) => Bad(e)
    case Got(vs, rest) => Got(done + vs, rest)
  }

  lemma SoFarNothing<T>(more: Read<seq<T>>)
    ensures SoFar([], more) == more
  {
    if more.Got? { assert [] + more.value == more.value; }
  }

  lemma SoFarPush<T>(done: seq<T>, x: T, more: Read<seq<T>>)
    ensures more.Got? ==> SoFar(done, Got([x] + more.value, more.rest)) == SoFar(done + [x], more)
  {
    if more.Got? { assert done + ([x] + more.value) == done + [x] + more.value; }
  }

  method ReadItems(r: ByteReader, n: nat, depth: nat, cap: nat) returns (res: Result<seq<HostValue>, DecodeError>)
    requires r.Valid()
    modifies r`pos
    ensures r.Reads(res, DecItems(old(r.Remaining()), n, depth, cap))
    decreases cap + 1 - depth, 2
  {
    hide DecHost;
    var items := [];
    SoFarNothing(DecItems(r.Remaining(), n, depth, cap));
    for i := 0 to n
      invariant r.Valid()
      invariant SoFar(items, DecItems(r.Remaining(), n - i, depth, cap)) == DecItems(old(r.Remaining()), n, depth, cap)
    {
      ghost var before := items;
      var item := ReadHostValueAt(r, depth, cap);
      if item.Err? { return Err(item.error); }
      items := items + [item.value];
      assert forall vs :: before + ([item.value] + vs) == items + vs;
    }
    assert items + [] == items;
    res := Ok(items);
  }

  method ReadPairs(r: ByteReader, n: nat, depth: nat, cap: nat)
    returns (res: Result<seq<(Str, HostValue)>, DecodeError>)
    requires r.Valid()
    modifies r`pos
    ensures r.Reads(res, DecPairs(old(r.Remaining()), n, depth, cap))
    decreases cap + 1 - depth, 2
  {
    hide DecHost, ReadStr;
    var pairs := [];
    SoFarNothing(DecPairs(r.Remaining(), n, depth, cap));
    for i := 0 to n
      invariant r.Valid()
      invariant SoFar(pairs, DecPairs(r.Remaining(), n - i, depth, cap)) == DecPairs(old(r.Remaining()), n, depth, cap)
    {
      ghost var before := pairs;
      var key := r.ReadString();
      if key.Err? { return Err(key.error); }
      var value := ReadHostValueAt(r, depth, cap);
      if value.Err? { return Err(value.error); }
      pairs := pairs + [(key.value, value.value)];
      assert forall ps :: before + ([(key.value, value.value)] + ps) == pairs + ps;
    }
    assert pairs + [] == pairs;
    res := Ok(pairs);
  }
}
