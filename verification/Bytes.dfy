/** Little-endian, length-prefixed bytes: ByteWriter and ByteReader
    (src/snapshot.rs:27-142), and the functions they compute. */
module Bytes {
  import opened Values

  datatype DecodeError = Truncated | InvalidUtf8 | BadTag | TooDeep | Trailing | Malformed

  /** A decoder's result: the value and the bytes after it. */
  datatype Read<+T> = Got(value: T, rest: seq<u8>) | Bad(error: DecodeError) {
    predicate IsFailure() {
      Bad?
    }

    function PropagateFailure<U>(): Read<U>
      requires IsFailure()
    {
      Bad(error)
    }

    function Extract(): (T, seq<u8>)
      requires !IsFailure()
    {
      (value, rest)
    }
  }

  // ---------- Integers ----------

  function EncLe(n: nat, k: nat): (b: seq<u8>)
    ensures |b| == k
  {
    if k == 0 then [] else [n % 0x100] + EncLe(n / 0x100, k - 1)
  }

  function DecLe(b: seq<u8>): nat {
    if b == [] then 0 else b[0] + 0x100 * DecLe(b[1..])
  }

  function Pow256(k: nat): nat {
    if k == 0 then 1 else 0x100 * Pow256(k - 1)
  }

  lemma Pow256Values()
    ensures Pow256(1) == 0x100 && Pow256(4) == 0x1_0000_0000 && Pow256(8) == 0x1_0000_0000_0000_0000
  {
    assert Pow256(4) == 0x100 * (0x100 * (0x100 * (0x100 * Pow256(0))));
    assert Pow256(8) == 0x100 * (0x100 * (0x100 * (0x100 * Pow256(4))));
  }

  lemma {:induction false} EncLeFits(n: nat, k: nat)
    requires n < Pow256(k)
    ensures DecLe(EncLe(n, k)) == n
  {
    if k > 0 {
      EncLeFits(n / 0x100, k - 1);
      assert EncLe(n, k)[1..] == EncLe(n / 0x100, k - 1);
    }
  }

  lemma {:induction false} DecLeFits(b: seq<u8>)
    ensures DecLe(b) < Pow256(|b|) && EncLe(DecLe(b), |b|) == b
  {
    if b != [] {
      DecLeFits(b[1..]);
      assert DecLe(b) % 0x100 == b[0] && DecLe(b) / 0x100 == DecLe(b[1..]);
    }
  }

  /** Two's complement. */
  function I32Bits(n: i32): u32 {
    if n >= 0 then n else n + 0x1_0000_0000
  }

  function BitsI32(u: u32): i32 {
    if u < 0x8000_0000 then u else u - 0x1_0000_0000
  }

  function ReadLe(b: seq<u8>, k: nat): Read<nat> {
    if |b| < k then Bad(Truncated) else Got(DecLe(b[..k]), b[k..])
  }

  lemma ReadLeBack(n: nat, k: nat, rest: seq<u8>)
    requires n < Pow256(k)
    ensures ReadLe(EncLe(n, k) + rest, k) == Got(n, rest)
  {
    EncLeFits(n, k);
    assert (EncLe(n, k) + rest)[..k] == EncLe(n, k) && (EncLe(n, k) + rest)[k..] == rest;
  }

  // ---------- Strings ----------

  predicate Cont(b: u8) {
    0x80 <= b < 0xC0
  }

  /** Well-formed UTF-8 (Table 3-7 of the Unicode Standard). */
  predicate ValidUtf8(s: seq<u8>) {
    if |s| == 0 then true
    else if s[0] < 0x80 then ValidUtf8(s[1..])
    else if 0xC2 <= s[0] < 0xE0 then |s| >= 2 && Cont(s[1]) && ValidUtf8(s[2..])
    else if 0xE0 <= s[0] < 0xF0 then
      && |s| >= 3 && Cont(s[1]) && Cont(s[2])
      && (s[0] == 0xE0 ==> s[1] >= 0xA0) && (s[0] == 0xED ==> s[1] < 0xA0)
      && ValidUtf8(s[3..])
    else if 0xF0 <= s[0] < 0xF5 then
      && |s| >= 4 && Cont(s[1]) && Cont(s[2]) && Cont(s[3])
      && (s[0] == 0xF0 ==> s[1] >= 0x90) && (s[0] == 0xF4 ==> s[1] < 0x90)
      && ValidUtf8(s[4..])
    else false
  }

  /** What a Rust String always is, below 4 GiB. */
  predicate GoodStr(s: Str) {
    ValidUtf8(s) && |s| < 0x1_0000_0000
  }

  /** `s.len() as u32`, then the bytes. */
  function EncStr(s: Str): seq<u8> {
    EncLe(|s| % 0x1_0000_0000, 4) + s
  }

  function ReadStr(b: seq<u8>): Read<Str> {
    match ReadLe(b, 4)
    case Bad(e) => Bad(e)
    case Got(n, rest) =>
      if |rest| < n then Bad(Truncated)
      else if !ValidUtf8(rest[..n]) then Bad(InvalidUtf8)
      else Got(rest[..n], rest[n..])
  }

  lemma ReadStrBack(s: Str, rest: seq<u8>)
    requires GoodStr(s)
    ensures ReadStr(EncStr(s) + rest) == Got(s, rest)
  {
    Pow256Values();
    assert EncStr(s) + rest == EncLe(|s|, 4) + (s + rest);
    ReadLeBack(|s|, 4, s + rest);
    assert (s + rest)[..|s|] == s && (s + rest)[|s|..] == rest;
  }

  class ByteWriter {
    var buf: seq<u8>

    constructor ()
      ensures buf == []
    {
      buf := [];
    }

    method U8(v: u8)
      modifies this
      ensures buf == old(buf) + [v]
    {
      buf := buf + [v];
    }

    method U32(v: nat)
      modifies this
      ensures buf == old(buf) + EncLe(v % 0x1_0000_0000, 4)
    {
      buf := buf + EncLe(v % 0x1_0000_0000, 4);
    }

    method U64(v: u64)
      modifies this
      ensures buf == old(buf) + EncLe(v, 8)
    {
      buf := buf + EncLe(v, 8);
    }

    method I32(v: i32)
      modifies this
      ensures buf == old(buf) + EncLe(I32Bits(v), 4)
    {
      buf := buf + EncLe(I32Bits(v), 4);
    }

    method Bool(v: bool)
      modifies this
      ensures buf == old(buf) + [if v then 1 else 0]
    {
      buf := buf + [if v then 1 else 0];
    }

    method String(s: Str)
      modifies this
      ensures buf == old(buf) + EncStr(s)
    {
      U32(|s|);
      buf := buf + s;
    }
  }

  class ByteReader {
    const buf: seq<u8>
    var pos: nat

    constructor (buf: seq<u8>)
      ensures this.buf == buf && pos == 0
    {
      this.buf := buf;
      pos := 0;
    }

    ghost predicate Valid()
      reads this
    {
      pos <= |buf|
    }

    function Remaining(): seq<u8>
      requires Valid()
      reads this
    {
      buf[pos..]
    }

    /** A reader's result against the decoder it computes: on success the
        position moves to the decoder's rest. */
    ghost predicate Reads<T(!new)>(r: Result<T, DecodeError>, spec: Read<T>)
      reads this
    {
      && Valid()
      && match spec
         case Got(v, rest) => r == Ok(v) && Remaining() == rest
         case Bad(e) => r == Err(e)
    }

    method Take(n: nat) returns (r: Result<seq<u8>, DecodeError>)
      requires Valid()
      modifies this`pos
      ensures Reads(r, if |old(Remaining())| < n then Bad(Truncated)
                       else Got(old(Remaining())[..n], old(Remaining())[n..]))
    {
      if pos + n > |buf| {
        return Err(Truncated);
      }
      r := Ok(buf[pos..pos + n]);
      assert buf[pos..][..n] == buf[pos..pos + n] && buf[pos..][n..] == buf[pos + n..];
      pos := pos + n;
    }

    method ReadInt(k: nat) returns (r: Result<nat, DecodeError>)
      requires Valid()
      modifies this`pos
      ensures Reads(r, ReadLe(old(Remaining()), k))
    {
      var bytes := Take(k);
      match bytes
      case Err(e) => r := Err(e);
      case Ok(b) => r := Ok(DecLe(b));
    }

    method ReadString() returns (r: Result<Str, DecodeError>)
      requires Valid()
      modifies this`pos
      ensures Reads(r, ReadStr(old(Remaining())))
    {
      var n := ReadInt(4);
      if n.Err? {
        return Err(n.error);
      }
      var bytes := Take(n.value);
      if bytes.Err? {
        return Err(bytes.error);
      }
      if !ValidUtf8(bytes.value) {
        return Err(InvalidUtf8);
      }
      r := Ok(bytes.value);
    }
  }
}
