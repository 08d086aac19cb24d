/** The replay log's bytes (src/replay.rs:11-231): a header, then length-framed
    records, so that a torn tail is told apart from corruption. */
module Log {
  import opened Values
  import opened Boundary
  import opened Bytes
  import opened HostCodec

  const LOG_MAGIC: seq<u8> := Ascii("KRLG")
  const LOG_VERSION: u8 := 2

  datatype LogHeader = LogHeader(source: Str, grants: seq<Str>, fuel: Option<u64>, quantum: u64)

  datatype LogEvent =
    | HostAnswer(callId: u32, effect: Str, args: seq<HostValue>, answer: HostValue)
    | Continue
    | DoneEvent(result: Option<HostValue>)
    | RefuelEvent(amount: u64)

  /** An event with the execution index it was recorded at. */
  datatype Stamped = Stamped(steps: u64, event: LogEvent)

  datatype LogError = BadMagic | BadVersion | ZeroQuantum | Corrupt(error: DecodeError) | AfterDone

  datatype ParsedLog = ParsedLog(header: LogHeader, events: seq<Stamped>, goodLen: int)

  // ---------- Encoding ----------

  function EncStrs(ss: seq<Str>): seq<u8> {
    if ss == [] then [] else EncStr(ss[0]) + EncStrs(ss[1..])
  }

  function EncOptU64(v: Option<u64>): seq<u8> {
    match v case Some(x) => [1] + EncLe(x, 8) case None => [0]
  }

  function EncHeader(h: LogHeader): seq<u8> {
    LOG_MAGIC + [LOG_VERSION] + EncConfig(h)
  }

  function EncConfig(h: LogHeader): seq<u8> {
    EncStr(h.source) + EncLe(|h.grants| % 0x1_0000_0000, 4) + EncStrs(h.grants) + EncOptU64(h.fuel)
      + EncLe(h.quantum, 8)
  }

  function EncHosts(vs: seq<HostValue>): seq<u8> {
    if vs == [] then [] else EncHost(vs[0]) + EncHosts(vs[1..])
  }

  function EventTag(e: LogEvent): u8 {
    match e case HostAnswer(_, _, _, _) => 1 case Continue => 2 case DoneEvent(_) => 3 case RefuelEvent(_) => 4
  }

  function EncEventBody(e: LogEvent): seq<u8> {
    match e
    case HostAnswer(callId, effect, args, answer) =>
      EncLe(callId, 4) + EncStr(effect) + EncLe(|args| % 0x1_0000_0000, 4) + EncHosts(args) + EncHost(answer)
    case Continue => []
    case DoneEvent(Some(v)) => [1] + EncHost(v)
    case DoneEvent(None) => [0]
    case RefuelEvent(amount) => EncLe(amount, 8)
  }

  function EncPayload(e: Stamped): seq<u8> {
    EncLe(e.steps, 8) + [EventTag(e.event)] + EncEventBody(e.event)
  }

  /** One record: the payload behind its length. */
  function EncEvent(e: Stamped): seq<u8> {
    EncLe(|EncPayload(e)| % 0x1_0000_0000, 4) + EncPayload(e)
  }

  function EncEvents(es: seq<Stamped>): seq<u8> {
    if es == [] then [] else EncEvent(es[0]) + EncEvents(es[1..])
  }

  function EncLog(h: LogHeader, es: seq<Stamped>): seq<u8> {
    EncHeader(h) + EncEvents(es)
  }

  // ---------- Decoding ----------

  function DecStrs(b: seq<u8>, n: nat): Read<seq<Str>> {
    if n == 0 then Got([], b)
    else
      match ReadStr(b)
      case Bad(e) => Bad(e)
      case Got(s, rest) =>
        match DecStrs(rest, n - 1)
        case Bad(e) => Bad(e)
        case Got(ss, rest') => Got([s] + ss, rest')
  }

  function DecOptU64(b: seq<u8>): Read<Option<u64>> {
    match ReadLe(b, 1)
    case Bad(e) => Bad(e)
    case Got(flag, rest) =>
      if flag == 0 then Got(None, rest)
      else
        match ReadLe(rest, 8)
        case Bad(e) => Bad(e)
        case Got(x, rest') => Got(Some(x % 0x1_0000_0000_0000_0000), rest')
  }

  function DecConfig(b: seq<u8>): Read<LogHeader> {
    match ReadStr(b)
    case Bad(e) => Bad(e)
    case Got(source, b1) =>
      match ReadLe(b1, 4)
      case Bad(e) => Bad(e)
      case Got(n, b2) =>
        match DecStrs(b2, n)
        case Bad(e) => Bad(e)
        case Got(grants, b3) =>
          match DecOptU64(b3)
          case Bad(e) => Bad(e)
          case Got(fuel, b4) =>
            match ReadLe(b4, 8)
            case Bad(e) => Bad(e)
            case Got(q, b5) => Got(LogHeader(source, grants, fuel, q % 0x1_0000_0000_0000_0000), b5)
  }

  function DecAnswer(b: seq<u8>): Read<LogEvent> {
    match ReadLe(b, 4)
    case Bad(e) => Bad(e)
    case Got(callId, b1) =>
      match ReadStr(b1)
      case Bad(e) => Bad(e)
      case Got(effect, b2) =>
        match ReadLe(b2, 4)
        case Bad(e) => Bad(e)
        case Got(n, b3) =>
          match DecItems(b3, n, 0, MAX_HOST_VALUE_DEPTH)
          case Bad(e) => Bad(e)
          case Got(args, b4) =>
            match DecHost(b4, 0, MAX_HOST_VALUE_DEPTH)
            case Bad(e) => Bad(e)
            case Got(answer, b5) => Got(HostAnswer(callId % 0x1_0000_0000, effect, args, answer), b5)
  }

  function DecDone(b: seq<u8>): Read<LogEvent> {
    match ReadLe(b, 1)
    case Bad(e) => Bad(e)
    case Got(flag, rest) =>
      if flag == 0 then Got(DoneEvent(None), rest)
      else
        match DecHost(rest, 0, MAX_HOST_VALUE_DEPTH)
        case Bad(e) => Bad(e)
        case Got(v, rest') => Got(DoneEvent(Some(v)), rest')
  }

  function DecEventBody(tag: nat, b: seq<u8>): Read<LogEvent> {
    if tag == 1 then DecAnswer(b)
    else if tag == 2 then Got(Continue, b)
    else if tag == 3 then DecDone(b)
    else if tag == 4 then
      match ReadLe(b, 8)
      case Bad(e) => Bad(e)
      case Got(x, rest) => Got(RefuelEvent(x % 0x1_0000_0000_0000_0000), rest)
    else Bad(BadTag)
  }

  /** decode_event: the whole payload must be consumed. */
  function DecPayload(b: seq<u8>): Result<Stamped, DecodeError> {
    match ReadLe(b, 8)
    case Bad(e) => Err(e)
    case Got(steps, b1) =>
      match ReadLe(b1, 1)
      case Bad(e) => Err(e)
      case Got(tag, b2) =>
        match DecEventBody(tag, b2)
        case Bad(e) => Err(e)
        case Got(event, rest) =>
          if rest != [] then Err(Trailing) else Ok(Stamped(steps % 0x1_0000_0000_0000_0000, event))
  }

  /** The payload of the first complete record, if there is one. */
  function FirstRecord(b: seq<u8>): Option<seq<u8>> {
    if |b| < 4 then None
    else
      var len := DecLe(b[..4]);
      if |b| - 4 < len then None else Some(b[4..4 + len])
  }

  /** The complete records of `b`, and how many bytes they take. `sealed` says
      that the record before was Done. */
  function ParseEvents(b: seq<u8>, sealed: bool): Result<(seq<Stamped>, nat), LogError>
    decreases |b|
  {
    match FirstRecord(b)
    case None => Ok(([], 0))
    case Some(payload) =>
      match DecPayload(payload)
      case Err(e) => Err(Corrupt(e))
      case Ok(event) =>
        if sealed then Err(AfterDone)
        else
          match ParseEvents(b[4 + |payload|..], event.event.DoneEvent?)
          case Err(e) => Err(e)
          case Ok((es, len)) => Ok(([event] + es, 4 + |payload| + len))
  }

  function ParseLog(b: seq<u8>): Result<ParsedLog, LogError> {
    if |b| < 4 || b[..4] != LOG_MAGIC then Err(BadMagic)
    else if |b| < 5 then Err(Corrupt(Truncated))
    else if b[4] != LOG_VERSION then Err(BadVersion)
    else
      match DecConfig(b[5..])
      case Bad(e) => Err(Corrupt(e))
      case Got(h, rest) =>
        if h.quantum == 0 then Err(ZeroQuantum)
        else
          match ParseEvents(rest, false)
          case Err(e) => Err(e)
          case Ok((es, len)) => Ok(ParsedLog(h, es, |b| - |rest| + len))
  }

  // ---------- What a recorded run writes ----------

  ghost predicate GoodHeader(h: LogHeader) {
    && GoodStr(h.source) && |h.grants| < 0x1_0000_0000 && h.quantum > 0
    && forall i :: 0 <= i < |h.grants| ==> GoodStr(h.grants[i])
  }

  ghost predicate GoodEvent(e: Stamped) {
    && |EncPayload(e)| < 0x1_0000_0000
    && match e.event
       case HostAnswer(_, effect, args, answer) =>
         && GoodStr(effect) && |args| < 0x1_0000_0000 && Good(answer)
         && forall i :: 0 <= i < |args| ==> Good(args[i])
       case DoneEvent(Some(v)) => Good(v)
       case _ => true
  }

  /** Every host value in the event is within the decoder's depth cap. */
  ghost predicate Shallow(e: LogEvent) {
    match e
    case HostAnswer(_, _, args, answer) =>
      && Height(answer) <= MAX_HOST_VALUE_DEPTH
      && forall i :: 0 <= i < |args| ==> Height(args[i]) <= MAX_HOST_VALUE_DEPTH
    case DoneEvent(Some(v)) => Height(v) <= MAX_HOST_VALUE_DEPTH
    case _ => true
  }

  /** Done, if recorded at all, is the last record. */
  ghost predicate DoneLast(es: seq<Stamped>) {
    forall i :: 0 <= i < |es| - 1 ==> !es[i].event.DoneEvent?
  }

  // ---------- Round trips ----------

  lemma {:induction false} StrsRoundTrip(ss: seq<Str>, rest: seq<u8>)
    requires forall i :: 0 <= i < |ss| ==> GoodStr(ss[i])
    ensures DecStrs(EncStrs(ss) + rest, |ss|) == Got(ss, rest)
  {
    hide EncStr, ReadStr, ValidUtf8;
    if ss == [] {
      assert EncStrs(ss) + rest == rest;
    } else {
      assert EncStrs(ss) + rest == EncStr(ss[0]) + (EncStrs(ss[1..]) + rest);
      ReadStrBack(ss[0], EncStrs(ss[1..]) + rest);
      StrsRoundTrip(ss[1..], rest);
      assert ss == [ss[0]] + ss[1..];
    }
  }

  lemma ReadByteBack(x: u8, rest: seq<u8>)
    ensures ReadLe([x] + rest, 1) == Got(x, rest)
  {
    Pow256Values();
    OneByte(x);
    ReadLeBack(x, 1, rest);
  }

  lemma OptU64RoundTrip(v: Option<u64>, rest: seq<u8>)
    ensures DecOptU64(EncOptU64(v) + rest) == Got(v, rest)
  {
    hide EncLe, ReadLe;
    Pow256Values();
    match v {
      case Some(x) =>
        assert EncOptU64(v) + rest == [1] + (EncLe(x, 8) + rest);
        ReadByteBack(1, EncLe(x, 8) + rest);
        ReadLeBack(x, 8, rest);
      case None => ReadByteBack(0, rest);
    }
  }

  lemma ConfigRoundTrip(h: LogHeader, rest: seq<u8>)
    requires GoodHeader(h)
    ensures DecConfig(EncConfig(h) + rest) == Got(h, rest)
  {
    hide EncLe, ReadLe, EncStr, ReadStr, EncStrs, DecStrs, EncOptU64, DecOptU64, ValidUtf8;
    Pow256Values();
    var b4 := EncLe(h.quantum, 8) + rest;
    var b3 := EncOptU64(h.fuel) + b4;
    var b2 := EncStrs(h.grants) + b3;
    var b1 := EncLe(|h.grants|, 4) + b2;
    assert EncConfig(h) + rest == EncStr(h.source) + b1;
    ReadStrBack(h.source, b1);
    ReadLeBack(|h.grants|, 4, b2);
    StrsRoundTrip(h.grants, b3);
    OptU64RoundTrip(h.fuel, b4);
    ReadLeBack(h.quantum, 8, rest);
  }

  ghost predicate AllShallow(vs: seq<HostValue>) {
    forall i :: 0 <= i < |vs| ==> Height(vs[i]) <= MAX_HOST_VALUE_DEPTH
  }

  lemma {:induction false} HostsRoundTrip(vs: seq<HostValue>, rest: seq<u8>)
    requires forall i :: 0 <= i < |vs| ==> Good(vs[i])
    ensures DecItems(EncHosts(vs) + rest, |vs|, 0, MAX_HOST_VALUE_DEPTH) ==
      if AllShallow(vs) then Got(vs, rest) else Bad(TooDeep)
  {
    hide EncHost, DecHost, Height;
    if vs == [] {
      assert EncHosts(vs) + rest == rest;
    } else {
      assert EncHosts(vs) + rest == EncHost(vs[0]) + (EncHosts(vs[1..]) + rest);
      HostValueRoundTrip(vs[0], EncHosts(vs[1..]) + rest, 0, MAX_HOST_VALUE_DEPTH);
      HostsRoundTrip(vs[1..], rest);
      assert vs == [vs[0]] + vs[1..];
      assert AllShallow(vs) <==> Height(vs[0]) <= MAX_HOST_VALUE_DEPTH && AllShallow(vs[1..]);
    }
  }

  lemma AnswerRoundTrip(e: LogEvent)
    requires e.HostAnswer? && GoodStr(e.effect) && |e.args| < 0x1_0000_0000 && Good(e.answer)
    requires forall i :: 0 <= i < |e.args| ==> Good(e.args[i])
    ensures DecAnswer(EncEventBody(e)) == if Shallow(e) then Got(e, []) else Bad(TooDeep)
  {
    hide EncLe, ReadLe, EncStr, ReadStr, EncHosts, DecItems, EncHost, DecHost, ValidUtf8, Height;
    Pow256Values();
    var b4 := EncHost(e.answer) + [];
    var b3 := EncHosts(e.args) + b4;
    var b2 := EncLe(|e.args|, 4) + b3;
    var b1 := EncStr(e.effect) + b2;
    assert EncEventBody(e) == EncLe(e.callId, 4) + b1;
    ReadLeBack(e.callId, 4, b1);
    ReadStrBack(e.effect, b2);
    ReadLeBack(|e.args|, 4, b3);
    HostsRoundTrip(e.args, b4);
    HostValueRoundTrip(e.answer, [], 0, MAX_HOST_VALUE_DEPTH);
  }

  lemma BodyRoundTrip(e: Stamped)
    requires GoodEvent(e)
    ensures DecEventBody(EventTag(e.event), EncEventBody(e.event)) ==
      if Shallow(e.event) then Got(e.event, []) else Bad(TooDeep)
  {
    hide EncLe, ReadLe, DecAnswer, EncHost, DecHost, Height, EncPayload;
    Pow256Values();
    match e.event {
      case HostAnswer(_, _, _, _) => AnswerRoundTrip(e.event);
      case Continue =>
      case DoneEvent(Some(v)) =>
        ReadByteBack(1, EncHost(v));
        assert EncHost(v) + [] == EncHost(v);
        HostValueRoundTrip(v, [], 0, MAX_HOST_VALUE_DEPTH);
      case DoneEvent(None) =>
        ReadByteBack(0, []);
        assert EncEventBody(e.event) == [0] + [];
      case RefuelEvent(amount) =>
        ReadLeBack(amount, 8, []);
        assert EncLe(amount, 8) + [] == EncLe(amount, 8);
    }
  }

  lemma PayloadRoundTrip(e: Stamped)
    requires GoodEvent(e)
    ensures DecPayload(EncPayload(e)) == if Shallow(e.event) then Ok(e) else Err(TooDeep)
  {
    hide EncLe, ReadLe, DecEventBody, EncEventBody, Shallow, GoodEvent;
    Pow256Values();
    var b2 := EncEventBody(e.event);
    assert EncPayload(e) == EncLe(e.steps, 8) + ([EventTag(e.event)] + b2);
    ReadLeBack(e.steps, 8, [EventTag(e.event)] + b2);
    ReadByteBack(EventTag(e.event), b2);
    BodyRoundTrip(e);
  }

  lemma FirstRecordOf(e: Stamped, rest: seq<u8>)
    requires GoodEvent(e)
    ensures FirstRecord(EncEvent(e) + rest) == Some(EncPayload(e))
    ensures (EncEvent(e) + rest)[4 + |EncPayload(e)|..] == rest
  {
    hide EncLe, DecLe, EncPayload;
    Pow256Values();
    var p := EncPayload(e);
    var b := EncEvent(e) + rest;
    EncLeFits(|p|, 4);
    assert b[..4] == EncLe(|p|, 4);
    assert b[4..4 + |p|] == p;
  }

  ghost predicate ProperPrefix(t: seq<u8>, whole: seq<u8>) {
    |t| < |whole| && t == whole[..|t|]
  }

  /** An incomplete record is not a record. */
  lemma TornIsNoRecord(t: seq<u8>, e: Stamped)
    requires GoodEvent(e) && ProperPrefix(t, EncEvent(e))
    ensures FirstRecord(t) == None
  {
    hide EncLe, DecLe, EncPayload;
    Pow256Values();
    EncLeFits(|EncPayload(e)|, 4);
    if |t| >= 4 {
      assert t[..4] == EncLe(|EncPayload(e)|, 4);
    }
  }

  /** The index of the first event nested too deep to be read back. */
  ghost predicate EveryShallow(es: seq<Stamped>) {
    forall i :: 0 <= i < |es| ==> Shallow(es[i].event)
  }

  lemma {:induction false} EventsRoundTrip(es: seq<Stamped>, t: seq<u8>, sealed: bool)
    requires forall i :: 0 <= i < |es| ==> GoodEvent(es[i])
    requires FirstRecord(t) == None && DoneLast(es) && (sealed ==> es == [])
    ensures ParseEvents(EncEvents(es) + t, sealed) ==
      if EveryShallow(es) then Ok((es, |EncEvents(es)|)) else Err(Corrupt(TooDeep))
    decreases |es|
  {
    hide FirstRecord, DecPayload, EncPayload, EncLe, GoodEvent, Shallow;
    if es == [] {
      assert EncEvents(es) + t == t;
    } else {
      var rest := EncEvents(es[1..]) + t;
      var p := EncPayload(es[0]);
      assert EncEvents(es) + t == EncEvent(es[0]) + rest;
      FirstRecordOf(es[0], rest);
      PayloadRoundTrip(es[0]);
      EventsRoundTrip(es[1..], t, es[0].event.DoneEvent?);
      assert es == [es[0]] + es[1..];
      assert EveryShallow(es) <==> Shallow(es[0].event) && EveryShallow(es[1..]);
    }
  }

  lemma HeaderParses(h: LogHeader, rest: seq<u8>)
    requires GoodHeader(h)
    ensures ParseLog(EncHeader(h) + rest) ==
      match ParseEvents(rest, false)
      case Err(e) => Err(e)
      case Ok((es, len)) => Ok(ParsedLog(h, es, |EncHeader(h)| + len))
  {
    hide GoodHeader, EncConfig, DecConfig, ParseEvents, Ascii;
    var b := EncHeader(h) + rest;
    MagicLength();
    assert b == LOG_MAGIC + ([LOG_VERSION] + (EncConfig(h) + rest));
    assert b[..4] == LOG_MAGIC && b[4] == LOG_VERSION && b[5..] == EncConfig(h) + rest;
    ConfigRoundTrip(h, rest);
    HeaderRuns(h);
  }

  lemma MagicLength()
    ensures |LOG_MAGIC| == 4
  {
  }

  /** Parsing a header, any good events with Done only last, and a torn tail
      returns exactly what was recorded and where the last complete record
      ends; a value nested beyond the cap makes the log unreadable. */
  lemma ParseRecorded(h: LogHeader, es: seq<Stamped>, t: seq<u8>)
    requires GoodHeader(h) && (forall i :: 0 <= i < |es| ==> GoodEvent(es[i])) && DoneLast(es)
    requires t == [] || exists e :: GoodEvent(e) && ProperPrefix(t, EncEvent(e))
    ensures ParseLog(EncLog(h, es) + t) ==
      if EveryShallow(es) then Ok(ParsedLog(h, es, |EncLog(h, es)|)) else Err(Corrupt(TooDeep))
  {
    hide GoodEvent, GoodHeader, EncHeader, ParseLog, EncEvents, ParseEvents, EncEvent, EveryShallow, DoneLast;
    if t == [] {
      NothingIsNoRecord();
    } else {
      var e :| GoodEvent(e) && ProperPrefix(t, EncEvent(e));
      TornIsNoRecord(t, e);
    }
    assert EncLog(h, es) + t == EncHeader(h) + (EncEvents(es) + t);
    HeaderParses(h, EncEvents(es) + t);
    EventsRoundTrip(es, t, false);
  }

  lemma NothingIsNoRecord()
    ensures FirstRecord([]) == None
  {
  }

  lemma HeaderRuns(h: LogHeader)
    requires GoodHeader(h)
    ensures h.quantum > 0
  {
  }

  /** A record after Done is rejected. */
  lemma {:induction false} EventsPastDone(es: seq<Stamped>, e: Stamped)
    requires EveryShallow(es) && (forall i :: 0 <= i < |es| ==> GoodEvent(es[i])) && GoodEvent(e) && Shallow(e.event)
    requires DoneLast(es) && es != [] && es[|es| - 1].event.DoneEvent?
    ensures ParseEvents(EncEvents(es + [e]), false) == Err(AfterDone)
    decreases |es|
  {
    hide FirstRecord, DecPayload, EncPayload, EncEvent, GoodEvent, Shallow;
    var rest := EncEvents(es[1..] + [e]);
    assert (es + [e])[1..] == es[1..] + [e];
    assert EncEvents(es + [e]) == EncEvent(es[0]) + rest;
    FirstRecordOf(es[0], rest);
    PayloadRoundTrip(es[0]);
    if |es| > 1 {
      EventsPastDone(es[1..], e);
    } else {
      assert es[1..] + [e] == [e] && EncEvents([e]) == EncEvent(e) + [];
      FirstRecordOf(e, []);
      PayloadRoundTrip(e);
    }
  }

  lemma ParsePastDone(h: LogHeader, es: seq<Stamped>, e: Stamped)
    requires GoodHeader(h) && EveryShallow(es) && (forall i :: 0 <= i < |es| ==> GoodEvent(es[i]))
    requires GoodEvent(e) && Shallow(e.event)
    requires DoneLast(es) && es != [] && es[|es| - 1].event.DoneEvent?
    ensures ParseLog(EncLog(h, es + [e])) == Err(AfterDone)
  {
    hide GoodEvent, GoodHeader, EncHeader, ParseLog, EncEvents, ParseEvents, EveryShallow, DoneLast;
    HeaderParses(h, EncEvents(es + [e]));
    EventsPastDone(es, e);
  }

  // ---------- Cutting a log ----------

  lemma {:induction false} EncEventsAppend(es: seq<Stamped>, fs: seq<Stamped>)
    ensures EncEvents(es + fs) == EncEvents(es) + EncEvents(fs)
  {
    hide EncEvent;
    if es == [] {
      assert es + fs == fs;
    } else {
      assert (es + fs)[1..] == es[1..] + fs;
      EncEventsAppend(es[1..], fs);
    }
  }

  /** Cutting the records anywhere leaves a prefix of the events and a torn
      piece of the next one. */
  lemma {:induction false} CutRecords(es: seq<Stamped>, k: nat) returns (n: nat, t: seq<u8>)
    requires k <= |EncEvents(es)|
    ensures n <= |es| && EncEvents(es)[..k] == EncEvents(es[..n]) + t
    ensures t == [] || (n < |es| && ProperPrefix(t, EncEvent(es[n])))
  {
    hide EncEvent;
    if es == [] {
      n, t := 0, [];
    } else {
      var first := EncEvent(es[0]);
      if k < |first| {
        n, t := 0, first[..k];
        assert EncEvents(es)[..k] == first[..k] && es[..0] == [];
      } else {
        var m, u := CutRecords(es[1..], k - |first|);
        n, t := m + 1, u;
        assert es[..n] == [es[0]] + es[1..][..m];
        assert EncEvents(es[..n]) == first + EncEvents(es[1..][..m]) by {
          assert es[..n][1..] == es[1..][..m];
        }
        assert EncEvents(es)[..k] == first + EncEvents(es[1..])[..k - |first|];
      }
    }
  }

  // ---------- The parsing loop ----------

  /** What the loop has parsed so far, in front of what is left. */
  ghost function Resumed(es: seq<Stamped>, off: nat, more: Result<(seq<Stamped>, nat), LogError>)
    : Result<(seq<Stamped>, nat), LogError>
  {
    match more
    case Err(e) => Err(e)
    case Ok((fs, len)) => Ok((es + fs, off + len))
  }

  /** parse_log's record loop over a moving offset. */
  method ParseRecords(b: seq<u8>) returns (r: Result<(seq<Stamped>, nat), LogError>)
    ensures r == ParseEvents(b, false)
  {
    hide FirstRecord, DecPayload;
    var events: seq<Stamped> := [];
    var off := 0;
    assert forall fs :: events + fs == fs;
    assert b[0..] == b;
    while true
      invariant off <= |b|
      invariant Resumed(events, off, ParseEvents(b[off..], events != [] && events[|events| - 1].event.DoneEvent?))
                == ParseEvents(b, false)
      decreases |b| - off
    {
      var record := FirstRecord(b[off..]);
      if record.None? {
        assert events + [] == events;
        return Ok((events, off));
      }
      RecordBounds(b[off..]);
      var event := DecPayload(record.value);
      if event.Err? {
        return Err(Corrupt(event.error));
      }
      if events != [] && events[|events| - 1].event.DoneEvent? {
        return Err(AfterDone);
      }
      ghost var before := events;
      assert forall fs :: before + ([event.value] + fs) == (before + [event.value]) + fs;
      assert b[off..][4 + |record.value|..] == b[off + 4 + |record.value|..];
      events := events + [event.value];
      off := off + 4 + |record.value|;
    }
  }

  lemma RecordBounds(b: seq<u8>)
    ensures FirstRecord(b).Some? ==> 4 + |FirstRecord(b).value| <= |b|
  {
  }

  lemma {:induction false} StrsShrink(b: seq<u8>, n: nat)
    ensures DecStrs(b, n).Got? ==> |DecStrs(b, n).rest| <= |b|
    decreases n
  {
    if n > 0 && ReadStr(b).Got? { StrsShrink(ReadStr(b).rest, n - 1); }
  }

  lemma {:induction false} EventsWithin(b: seq<u8>, sealed: bool)
    ensures ParseEvents(b, sealed).Ok? ==> ParseEvents(b, sealed).value.1 <= |b|
    decreases |b|
  {
    hide FirstRecord, DecPayload;
    RecordBounds(b);
    var payload := FirstRecord(b);
    if payload.Some? && DecPayload(payload.value).Ok? {
      EventsWithin(b[4 + |payload.value|..], DecPayload(payload.value).value.event.DoneEvent?);
    }
  }

  /** The good part of a file is a part of it. */
  lemma GoodLenWithin(b: seq<u8>)
    ensures ParseLog(b).Ok? ==> 5 <= ParseLog(b).value.goodLen <= |b|
  {
    hide ParseEvents, DecStrs, ValidUtf8;
    if |b| >= 5 && DecConfig(b[5..]).Got? {
      var b2 := ReadStr(b[5..]);
      if b2.Got? && ReadLe(b2.rest, 4).Got? { StrsShrink(ReadLe(b2.rest, 4).rest, ReadLe(b2.rest, 4).value); }
      EventsWithin(DecConfig(b[5..]).rest, false);
    }
  }

  /** parse_log: the header, then the records. */
  method ParseFile(b: seq<u8>) returns (r: Result<ParsedLog, LogError>)
    ensures r == ParseLog(b)
  {
    hide DecConfig, ParseEvents, Ascii;
    if |b| < 4 || b[..4] != LOG_MAGIC {
      return Err(BadMagic);
    }
    if |b| < 5 {
      return Err(Corrupt(Truncated));
    }
    if b[4] != LOG_VERSION {
      return Err(BadVersion);
    }
    var config := DecConfig(b[5..]);
    if config.Bad? {
      return Err(Corrupt(config.error));
    }
    if config.value.quantum == 0 {
      return Err(ZeroQuantum);
    }
    var records := ParseRecords(config.rest);
    match records
    case Err(e) => r := Err(e);
    case Ok(found) => r := Ok(ParsedLog(config.value, found.0, |b| - |config.rest| + found.1));
  }
}
