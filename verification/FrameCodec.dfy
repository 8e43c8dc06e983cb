/**
 * The frame codec of wire protocol v1 (sections 2.1 and 2.2 of PROTOCOL.md), as the Go agent and the
 * TypeScript edge each write it. UTF-8 validity and JSON parsing are parameters both sides share.
 */
module FrameCodec {
  import opened Limits

  type Octet = n: nat | n < 256

  type Word = n: nat | n < 0x1_0000_0000

  datatype Json = JsonObject | JsonNull | JsonOther | NotJson

  const HEADER_SIZE: int := 5
  const MAX_JSON_PAYLOAD: int := 128 * 1024

  const HELLO: Octet := 0x01
  const READY: Octet := 0x02
  const GOAWAY: Octet := 0x03
  const DRAIN: Octet := 0x04
  const REQ_HEAD: Octet := 0x10
  const REQ_BODY: Octet := 0x11
  const REQ_END: Octet := 0x12
  const RES_HEAD: Octet := 0x20
  const RES_BODY: Octet := 0x21
  const RES_END: Octet := 0x22
  const WS_TEXT: Octet := 0x30
  const WS_BINARY: Octet := 0x31
  const WS_CLOSE: Octet := 0x32
  const WINDOW: Octet := 0x40
  const RESET: Octet := 0x41
  const ACK: Octet := 0x42

  /** `value` is the credit of WINDOW and ACK, 0 elsewhere. */
  datatype Frame = Frame(kind: Octet, id: Word, payload: seq<Octet>, value: Word)

  // ---------------------------------------------------------------- big-endian words

  function WordAt(b: seq<Octet>, i: nat): Word
    requires i + 4 <= |b|
  {
    var b0: int, b1: int, b2: int, b3: int := b[i], b[i + 1], b[i + 2], b[i + 3];
    b0 * 0x100_0000 + b1 * 0x1_0000 + b2 * 0x100 + b3
  }

  function WordBytes(w: Word): (b: seq<Octet>)
    ensures |b| == 4
  {
    [w / 0x100_0000, w / 0x1_0000 % 0x100, w / 0x100 % 0x100, w % 0x100]
  }

  lemma WordRoundTrip(w: Word)
    ensures WordAt(WordBytes(w), 0) == w
  {
    var a, b, c := w / 0x100_0000, w / 0x1_0000, w / 0x100;
    assert c == b * 0x100 + c % 0x100;
    assert b == a * 0x100 + b % 0x100;
  }

  lemma BytesRoundTrip(b: seq<Octet>)
    requires |b| == 4
    ensures WordBytes(WordAt(b, 0)) == b
  {
    var w := WordAt(b, 0);
    var b0: int, b1: int, b2: int := b[0], b[1], b[2];
    assert w / 0x100 == b0 * 0x1_0000 + b1 * 0x100 + b2;
    assert w / 0x1_0000 == b0 * 0x100 + b1;
    assert w / 0x100_0000 == b0;
  }

  // ---------------------------------------------------------------- the Go codec

  datatype GoError = GoMalformed | GoStreamError(id: Word, closeCode: int)

  datatype GoResult = GoFrame(frame: Frame) | GoFailed(error: GoError)

  predicate GoKnown(t: Octet) {
    || t == HELLO || t == READY || t == GOAWAY || t == DRAIN || t == REQ_HEAD || t == REQ_BODY || t == REQ_END || t == RES_HEAD
    || t == RES_BODY || t == RES_END || t == WS_TEXT || t == WS_BINARY || t == WS_CLOSE || t == WINDOW || t == RESET || t == ACK
  }

  predicate GoStream0Only(t: Octet) { t == HELLO || t == READY || t == GOAWAY || t == DRAIN }

  predicate GoIsJson(t: Octet) {
    t == HELLO || t == READY || t == GOAWAY || t == REQ_HEAD || t == RES_HEAD || t == WS_CLOSE || t == RESET
  }

  predicate GoMustBeEmpty(t: Octet) { t == DRAIN || t == REQ_END || t == RES_END }

  predicate GoIsWord(t: Octet) { t == WINDOW || t == ACK }

  /** `null` unmarshals into a nil map, anything else that is no object fails. */
  predicate GoJsonObject(p: seq<Octet>, utf8: seq<Octet> -> bool, json: seq<Octet> -> Json) {
    utf8(p) && !json(p).NotJson? && !json(p).JsonOther? && !json(p).JsonNull?
  }

  function GoDecode(msg: seq<Octet>, utf8: seq<Octet> -> bool, json: seq<Octet> -> Json): GoResult {
    if |msg| < HEADER_SIZE then GoFailed(GoMalformed)
    else
      var t, id, payload := msg[0], WordAt(msg, 1), msg[HEADER_SIZE..];
      if !GoKnown(t) then GoFailed(GoMalformed)
      else if GoStream0Only(t) && id != 0 then GoFailed(GoMalformed)
      else if !GoStream0Only(t) && t != WINDOW && id == 0 then GoFailed(GoMalformed)
      else if GoMustBeEmpty(t) && |payload| != 0 then GoFailed(GoMalformed)
      else if GoIsWord(t) && |payload| != 4 then GoFailed(GoMalformed)
      else if GoIsWord(t) && WordAt(payload, 0) == 0 then GoFailed(GoMalformed)
      else if GoIsJson(t) && |payload| > MAX_JSON_PAYLOAD then GoFailed(GoMalformed)
      else if GoIsJson(t) && !GoJsonObject(payload, utf8, json) then GoFailed(GoMalformed)
      else if (t == REQ_BODY || t == RES_BODY) && |payload| > MAX_BODY_CHUNK then GoFailed(GoMalformed)
      else if (t == WS_TEXT || t == WS_BINARY) && |payload| > MAX_WS_MESSAGE then GoFailed(GoStreamError(id, 1009))
      else if t == WS_TEXT && !utf8(payload) then GoFailed(GoStreamError(id, 1007))
      else GoFrame(Frame(t, id, payload, if GoIsWord(t) then WordAt(payload, 0) else 0))
  }

  function Encoded(t: Octet, id: Word, payload: seq<Octet>): (msg: seq<Octet>)
    ensures |msg| == HEADER_SIZE + |payload|
  {
    [t] + WordBytes(id) + payload
  }

  /** Fills a fresh buffer: the type, the id in big-endian order, then a copy of the payload. */
  method Encode(t: Octet, id: Word, payload: seq<Octet>) returns (out: array<Octet>)
    ensures fresh(out) && out[..] == Encoded(t, id, payload)
  {
    out := new Octet[HEADER_SIZE + |payload|](_ => 0);
    out[0] := t;
    PutWord(out, 1, id);
    ghost var head := out[..HEADER_SIZE];
    assert head == [t] + WordBytes(id);
    for i := 0 to |payload|
      invariant out[..HEADER_SIZE] == head
      invariant forall k :: 0 <= k < i ==> out[HEADER_SIZE + k] == payload[k]
    {
      out[HEADER_SIZE + i] := payload[i];
    }
    assert out[..] == out[..HEADER_SIZE] + out[HEADER_SIZE..];
    assert out[HEADER_SIZE..] == payload;
  }

  method PutWord(out: array<Octet>, at: nat, w: Word)
    requires at + 4 <= out.Length
    modifies out
    ensures out[at..at + 4] == WordBytes(w)
    ensures out[at] as int * 16777216 + out[at + 1] as int * 65536 + out[at + 2] as int * 256 + out[at + 3] as int == w as int
    ensures forall k :: 0 <= k < out.Length && !(at <= k < at + 4) ==> out[k] == old(out[k])
  {
    out[at] := w / 0x100_0000;
    out[at + 1] := w / 0x1_0000 % 0x100;
    out[at + 2] := w / 0x100 % 0x100;
    out[at + 3] := w % 0x100;
    WordRoundTrip(w);
  }

  // ---------------------------------------------------------------- the TypeScript codec

  const STREAM0_TYPES: set<Octet> := {HELLO, READY, GOAWAY, DRAIN}
  const JSON_TYPES: set<Octet> := {HELLO, READY, GOAWAY, REQ_HEAD, RES_HEAD, WS_CLOSE, RESET}
  const EMPTY_TYPES: set<Octet> := {DRAIN, REQ_END, RES_END}
  const WORD_TYPES: set<Octet> := {WINDOW, ACK}
  const KNOWN_TYPES: set<Octet> := {HELLO, READY, GOAWAY, DRAIN, REQ_HEAD, REQ_BODY, REQ_END, RES_HEAD, RES_BODY, RES_END,
                                    WS_TEXT, WS_BINARY, WS_CLOSE, WINDOW, RESET, ACK}

  /** A ProtocolError: a malformed frame carries stream 0 and close code 1002. */
  datatype TsError = TsError(streamError: bool, id: Word, closeCode: int)

  datatype TsResult = TsFrame(frame: Frame) | TsThrown(error: TsError)

  const TS_MALFORMED := TsThrown(TsError(false, 0, 1002))

  /** JSON.parse of the strictly decoded payload, then the object test. */
  predicate TsJsonObject(p: seq<Octet>, utf8: seq<Octet> -> bool, json: seq<Octet> -> Json) {
    if !utf8(p) || json(p).NotJson? then false
    else if json(p).JsonNull? then false
    else json(p).JsonObject?
  }

  /** The checks after the stream id, on a known type. */
  function TsPayload(t: Octet, id: Word, payload: seq<Octet>, utf8: seq<Octet> -> bool, json: seq<Octet> -> Json): TsResult {
    if t in EMPTY_TYPES && payload != [] then TS_MALFORMED
    else if t in WORD_TYPES && (|payload| != 4 || WordAt(payload, 0) == 0) then TS_MALFORMED
    else if t in JSON_TYPES && (|payload| > MAX_JSON_PAYLOAD || !TsJsonObject(payload, utf8, json)) then TS_MALFORMED
    else if t in {REQ_BODY, RES_BODY} && |payload| > MAX_BODY_CHUNK then TS_MALFORMED
    else if t in {WS_TEXT, WS_BINARY} && |payload| > MAX_WS_MESSAGE then TsThrown(TsError(true, id, 1009))
    else if t == WS_TEXT && !utf8(payload) then TsThrown(TsError(true, id, 1007))
    else TsFrame(Frame(t, id, payload, if t in WORD_TYPES then WordAt(payload, 0) else 0))
  }

  function TsDecode(msg: seq<Octet>, utf8: seq<Octet> -> bool, json: seq<Octet> -> Json): TsResult {
    if |msg| < HEADER_SIZE then TS_MALFORMED
    else
      var t, id := msg[0], WordAt(msg, 1);
      if t !in KNOWN_TYPES then TS_MALFORMED
      else if (if t in STREAM0_TYPES then id != 0 else t != WINDOW && id == 0) then TS_MALFORMED
      else TsPayload(t, id, msg[HEADER_SIZE..], utf8, json)
  }

  // ---------------------------------------------------------------- the rules of section 2.2

  /** What a frame must be, rule by rule, by the numbers of the protocol's table. */
  ghost predicate WellFormed(t: Octet, id: Word, p: seq<Octet>, utf8: seq<Octet> -> bool, json: seq<Octet> -> Json) {
    && t in {0x01, 0x02, 0x03, 0x04, 0x10, 0x11, 0x12, 0x20, 0x21, 0x22, 0x30, 0x31, 0x32, 0x40, 0x41, 0x42}
    && (t <= 0x04 ==> id == 0)
    && (t > 0x04 && t != 0x40 ==> id > 0)
    && (t in {0x04, 0x12, 0x22} ==> p == [])
    && (t in {0x40, 0x42} ==> |p| == 4 && p != [0, 0, 0, 0])
    && (t in {0x01, 0x02, 0x03, 0x10, 0x20, 0x32, 0x41} ==> |p| <= 131072 && utf8(p) && json(p) == JsonObject)
    && (t in {0x11, 0x21} ==> |p| <= 65536)
    && (t in {0x30, 0x31} ==> |p| <= 1048576)
    && (t == 0x30 ==> utf8(p))
  }

  lemma ZeroWord(p: seq<Octet>)
    requires |p| == 4
    ensures WordAt(p, 0) == 0 <==> p == [0, 0, 0, 0]
  {
  }

  lemma EncodedParts(t: Octet, id: Word, payload: seq<Octet>)
    ensures var msg := Encoded(t, id, payload); msg[0] == t && WordAt(msg, 1) == id && msg[HEADER_SIZE..] == payload
  {
    var msg := Encoded(t, id, payload);
    assert msg[1..5] == WordBytes(id);
    assert WordAt(msg, 1) == WordAt(msg[1..5], 0);
    WordRoundTrip(id);
  }

  /** Decoding an encoded frame gives it back exactly when it is well formed. */
  lemma DecodeEncoded(t: Octet, id: Word, payload: seq<Octet>, utf8: seq<Octet> -> bool, json: seq<Octet> -> Json)
    ensures GoDecode(Encoded(t, id, payload), utf8, json).GoFrame? <==> WellFormed(t, id, payload, utf8, json)
    ensures WellFormed(t, id, payload, utf8, json) ==>
              var f := GoDecode(Encoded(t, id, payload), utf8, json).frame;
              f.kind == t && f.id == id && f.payload == payload && f.value == (if t in WORD_TYPES then WordAt(payload, 0) else 0)
  {
    hide Encoded, WordAt;
    EncodedParts(t, id, payload);
    if |payload| == 4 {
      ZeroWord(payload);
    }
  }

  /** Re-encoding an accepted message gives the same bytes. */
  lemma EncodeDecoded(msg: seq<Octet>, utf8: seq<Octet> -> bool, json: seq<Octet> -> Json)
    requires GoDecode(msg, utf8, json).GoFrame?
    ensures var f := GoDecode(msg, utf8, json).frame; Encoded(f.kind, f.id, f.payload) == msg
  {
    var f := GoDecode(msg, utf8, json).frame;
    BytesRoundTrip(msg[1..5]);
    assert WordAt(msg, 1) == WordAt(msg[1..5], 0);
    assert msg == [msg[0]] + msg[1..5] + msg[5..];
  }

  /** A credit frame carries its value through. */
  lemma CreditRoundTrip(t: Octet, id: Word, value: Word, utf8: seq<Octet> -> bool, json: seq<Octet> -> Json)
    requires t in WORD_TYPES && (t == ACK ==> id > 0)
    ensures GoDecode(Encoded(t, id, WordBytes(value)), utf8, json)
         == if value > 0 then GoFrame(Frame(t, id, WordBytes(value), value)) else GoFailed(GoMalformed)
  {
    hide Encoded, WordAt, WordBytes;
    EncodedParts(t, id, WordBytes(value));
    WordRoundTrip(value);
  }

  /** The two sides' results as one: same frame, or same error kind, stream and close code. */
  predicate Same(g: GoResult, t: TsResult) {
    match g
    case GoFrame(f) => t == TsFrame(f)
    case GoFailed(GoMalformed) => t == TS_MALFORMED
    case GoFailed(GoStreamError(id, code)) => t == TsThrown(TsError(true, id, code))
  }

  lemma SameTypes(t: Octet)
    ensures GoKnown(t) == (t in KNOWN_TYPES) && GoStream0Only(t) == (t in STREAM0_TYPES) && GoIsJson(t) == (t in JSON_TYPES)
    ensures GoMustBeEmpty(t) == (t in EMPTY_TYPES) && GoIsWord(t) == (t in WORD_TYPES)
  {
  }

  /** The Go and the TypeScript decoder agree on every byte string. */
  lemma DecodersAgree(msg: seq<Octet>, utf8: seq<Octet> -> bool, json: seq<Octet> -> Json)
    ensures Same(GoDecode(msg, utf8, json), TsDecode(msg, utf8, json))
  {
    hide WordAt, GoKnown, GoStream0Only, GoIsJson, GoMustBeEmpty, GoIsWord;
    if |msg| >= HEADER_SIZE {
      SameTypes(msg[0]);
    }
  }

  /** How a message is refused: for its stream alone if it is a WebSocket message too big or not UTF-8, else as malformed. */
  lemma RefusalVerdict(t: Octet, id: Word, payload: seq<Octet>, utf8: seq<Octet> -> bool, json: seq<Octet> -> Json)
    requires !WellFormed(t, id, payload, utf8, json)
    ensures GoDecode(Encoded(t, id, payload), utf8, json) == GoFailed(
      if t in {0x30, 0x31} && id > 0 && |payload| > 1048576 then GoStreamError(id, 1009)
      else if t == 0x30 && id > 0 && !utf8(payload) then GoStreamError(id, 1007)
      else GoMalformed)
  {
    hide Encoded, WordAt;
    EncodedParts(t, id, payload);
    if |payload| == 4 {
      ZeroWord(payload);
    }
  }
}
