/**
 The message types of src/message.rs, the two conversions to and from the wire type of the
 WebSocket library, and what a sequence of messages becomes when it is written by one side
 and read by the other.
 */
module Messages {

  datatype Option<+T> = None | Some(value: T)

  datatype Result<+T, +E> = Ok(value: T) | Err(error: E)

  newtype byte = b: int | 0 <= b < 256

  // ---------------------------------------------------------------- UTF-8

  predicate Tail(b: byte) {
    0x80 <= b <= 0xBF
  }

  /** Length of the well-formed character at the head of `s`, or 0 (RFC 3629, section 4). */
  function CharLength(s: seq<byte>): (n: nat)
    ensures n <= |s| && n <= 4
  {
    if s == [] then 0
    else if s[0] <= 0x7F then 1
    else if |s| >= 2 && 0xC2 <= s[0] <= 0xDF && Tail(s[1]) then 2
    else if |s| >= 3 && Tail(s[2])
            && (|| (s[0] == 0xE0 && 0xA0 <= s[1] <= 0xBF)
                || (0xE1 <= s[0] <= 0xEC && Tail(s[1]))
                || (s[0] == 0xED && 0x80 <= s[1] <= 0x9F)
                || (0xEE <= s[0] <= 0xEF && Tail(s[1]))) then 3
    else if |s| >= 4 && Tail(s[2]) && Tail(s[3])
            && (|| (s[0] == 0xF0 && 0x90 <= s[1] <= 0xBF)
                || (0xF1 <= s[0] <= 0xF3 && Tail(s[1]))
                || (s[0] == 0xF4 && 0x80 <= s[1] <= 0x8F)) then 4
    else 0
  }

  predicate ValidUtf8(s: seq<byte>) {
    s == [] || (CharLength(s) > 0 && ValidUtf8(s[CharLength(s)..]))
  }

  /** Where decoding first fails: the number of leading bytes that decode. */
  function ValidUpTo(s: seq<byte>): (n: nat)
    ensures n <= |s|
  {
    if CharLength(s) == 0 then 0 else CharLength(s) + ValidUpTo(s[CharLength(s)..])
  }

  /** A well-formed head is recognised in any prefix that holds it, and in no shorter one. */
  lemma CharLengthOfPrefix(s: seq<byte>, n: nat)
    requires 0 < n <= |s|
    ensures CharLength(s[..n]) == if CharLength(s) <= n then CharLength(s) else 0
  {
  }

  lemma {:induction false} ValidUpToIsValid(s: seq<byte>)
    ensures ValidUtf8(s[..ValidUpTo(s)])
  {
    var k := CharLength(s);
    if k > 0 {
      var u := ValidUpTo(s);
      ValidUpToIsValid(s[k..]);
      CharLengthOfPrefix(s, u);
      assert s[..u][k..] == s[k..][..u - k];
    }
  }

  lemma {:induction false} ValidPrefixIsShort(s: seq<byte>, n: nat)
    requires n <= |s| && ValidUtf8(s[..n])
    ensures n <= ValidUpTo(s)
  {
    if n > 0 {
      var k := CharLength(s);
      CharLengthOfPrefix(s, n);
      assert s[..n][k..] == s[k..][..n - k];
      ValidPrefixIsShort(s[k..], n - k);
    }
  }

  /** `ValidUpTo` is the longest decodable prefix, and it is everything exactly for valid input. */
  lemma ValidUpToIsLongest(s: seq<byte>)
    ensures ValidUtf8(s[..ValidUpTo(s)])
    ensures forall n: nat :: n <= |s| && ValidUtf8(s[..n]) ==> n <= ValidUpTo(s)
    ensures ValidUtf8(s) <==> ValidUpTo(s) == |s|
  {
    ValidUpToIsValid(s);
    forall n: nat | n <= |s| && ValidUtf8(s[..n])
      ensures n <= ValidUpTo(s)
    {
      ValidPrefixIsShort(s, n);
    }
    assert s[..|s|] == s;
  }

  /** The code points that have an encoding: all up to 0x10FFFF but the surrogates (RFC 3629, section 3). */
  predicate IsScalar(point: nat) {
    point < 0xD800 || 0xE000 <= point < 0x110000
  }

  function TailByte(bits: nat): byte {
    (0x80 + bits % 0x40) as byte
  }

  /** The encoding of one code point: its bits, six to each tail byte and the rest in the head. */
  function Encode(point: nat): seq<byte>
    requires IsScalar(point)
  {
    var one := point / 0x40;
    var two := one / 0x40;
    if point < 0x80 then [point as byte]
    else if point < 0x800 then [(0xC0 + one) as byte, TailByte(point)]
    else if point < 0x10000 then [(0xE0 + two) as byte, TailByte(one), TailByte(point)]
    else [(0xF0 + two / 0x40) as byte, TailByte(two), TailByte(one), TailByte(point)]
  }

  predicate AllScalars(points: seq<nat>) {
    forall point :: point in points ==> IsScalar(point)
  }

  function EncodeAll(points: seq<nat>): seq<byte>
    requires AllScalars(points)
  {
    if points == [] then [] else Encode(points[0]) + EncodeAll(points[1..])
  }

  lemma EncodingIsRecognised(point: nat, rest: seq<byte>)
    requires IsScalar(point)
    ensures CharLength(Encode(point) + rest) == |Encode(point)|
  {
    var one := point / 0x40;
    var two := one / 0x40;
    var s := Encode(point) + rest;
    if point < 0x80 {
      assert s[0] <= 0x7F;
    } else if point < 0x800 {
      assert 2 <= one < 0x20;
      assert 0xC2 <= s[0] <= 0xDF && Tail(s[1]);
    } else if point < 0x10000 {
      assert 0x20 <= one < 0x400 && (one < 0x360 || 0x380 <= one);
      EncodingOfThree(one, s);
    } else {
      assert 0x10 <= two < 0x110;
      EncodingOfFour(two, s);
    }
  }

  lemma EncodingOfThree(one: nat, s: seq<byte>)
    requires 0x20 <= one < 0x400 && (one < 0x360 || 0x380 <= one)
    requires |s| >= 3 && s[0] == (0xE0 + one / 0x40) as byte && s[1] == TailByte(one) && Tail(s[2])
    ensures CharLength(s) == 3
  {
    assert one == one / 0x40 * 0x40 + one % 0x40;
  }

  lemma EncodingOfFour(two: nat, s: seq<byte>)
    requires 0x10 <= two < 0x110
    requires |s| >= 4 && s[0] == (0xF0 + two / 0x40) as byte && s[1] == TailByte(two) && Tail(s[2]) && Tail(s[3])
    ensures CharLength(s) == 4
  {
    assert two == two / 0x40 * 0x40 + two % 0x40;
  }

  /** Six more bits. */
  function Shifted(bits: nat, tail: byte): (n: nat)
    requires Tail(tail)
    ensures n / 0x40 == bits && TailByte(n) == tail && bits * 0x40 <= n < (bits + 1) * 0x40
  {
    bits * 0x40 + (tail - 0x80) as nat
  }

  lemma RecognisedShort(s: seq<byte>) returns (point: nat)
    requires CharLength(s) == 1 || CharLength(s) == 2
    ensures IsScalar(point) && Encode(point) == s[..CharLength(s)]
  {
    if CharLength(s) == 1 {
      point := s[0] as nat;
    } else {
      point := Shifted((s[0] - 0xC0) as nat, s[1]);
    }
  }

  lemma RecognisedThree(s: seq<byte>) returns (point: nat)
    requires CharLength(s) == 3
    ensures IsScalar(point) && Encode(point) == s[..3]
  {
    var one := Shifted((s[0] - 0xE0) as nat, s[1]);
    point := Shifted(one, s[2]);
    assert 0x20 <= one < 0x400 && (one < 0x360 || 0x380 <= one);
  }

  lemma RecognisedFour(s: seq<byte>) returns (point: nat)
    requires CharLength(s) == 4
    ensures IsScalar(point) && Encode(point) == s[..4]
  {
    var two := Shifted((s[0] - 0xF0) as nat, s[1]);
    var one := Shifted(two, s[2]);
    point := Shifted(one, s[3]);
    assert 0x10 <= two < 0x110;
  }

  lemma {:induction false} ValidDecodes(s: seq<byte>) returns (points: seq<nat>)
    requires ValidUtf8(s)
    ensures AllScalars(points) && EncodeAll(points) == s
  {
    if s == [] {
      points := [];
    } else {
      var n := CharLength(s);
      var point;
      if n <= 2 {
        point := RecognisedShort(s);
      } else if n == 3 {
        point := RecognisedThree(s);
      } else {
        point := RecognisedFour(s);
      }
      var rest := ValidDecodes(s[n..]);
      points := [point] + rest;
      assert points[1..] == rest && s == s[..n] + s[n..];
    }
  }

  lemma {:induction false} EncodingsAreValid(points: seq<nat>)
    requires AllScalars(points)
    ensures ValidUtf8(EncodeAll(points))
  {
    if points != [] {
      EncodingIsRecognised(points[0], EncodeAll(points[1..]));
      EncodingsAreValid(points[1..]);
      assert EncodeAll(points)[|Encode(points[0])|..] == EncodeAll(points[1..]);
    }
  }

  /** UTF-8 is what code points encode to: the table of well-formed bytes accepts exactly the encodings. */
  lemma ValidIffEncoded(s: seq<byte>)
    ensures ValidUtf8(s) <==> exists points :: AllScalars(points) && EncodeAll(points) == s
  {
    if ValidUtf8(s) {
      var points := ValidDecodes(s);
    }
    if points :| AllScalars(points) && EncodeAll(points) == s {
      EncodingsAreValid(points);
    }
  }

  // ------------------------------------------------------------- messages

  datatype MessageType = Text | Binary | Ping | Pong | Close

  /** An application message. Nothing ties the payload of a `Text` to UTF-8. */
  datatype Message = Message(messageType: MessageType, payload: seq<byte>) {
    predicate IsPing() { messageType == Ping }
    predicate IsPong() { messageType == Pong }
    predicate IsClose() { messageType == Close }
  }

  /** The close message this crate builds has no payload. */
  const CLOSE := Message(Close, [])

  type Utf8 = s: seq<byte> | ValidUtf8(s)

  datatype CloseFrame = CloseFrame(code: nat, reason: Utf8)

  /** The WebSocket library's message: its text is UTF-8 by construction. */
  datatype RawMessage =
    | RawText(text: Utf8)
    | RawBinary(data: seq<byte>)
    | RawPing(data: seq<byte>)
    | RawPong(data: seq<byte>)
    | RawClose(frame: Option<CloseFrame>)
    | RawFrame(data: seq<byte>)

  datatype InvalidTextPayload = InvalidTextPayload(validUpTo: nat)

  /** `From<tungstenite::Message>`: the conversion on the reading side. */
  function FromRaw(raw: RawMessage): Message {
    match raw
    case RawText(text) => Message(Text, text)
    case RawBinary(data) => Message(Binary, data)
    case RawPing(data) => Message(Ping, data)
    case RawPong(data) => Message(Pong, data)
    case RawClose(_) => CLOSE
    case RawFrame(_) => Message(Binary, [])
  }

  /** `TryFrom<Message>`: the conversion on the writing side. */
  function ToRaw(m: Message): Result<RawMessage, InvalidTextPayload> {
    match m.messageType
    case Text => if ValidUtf8(m.payload) then Ok(RawText(m.payload)) else Err(InvalidTextPayload(ValidUpTo(m.payload)))
    case Binary => Ok(RawBinary(m.payload))
    case Ping => Ok(RawPing(m.payload))
    case Pong => Ok(RawPong(m.payload))
    case Close => Ok(RawClose(None))
  }

  predicate Sendable(m: Message) {
    ToRaw(m).Ok?
  }

  /** A message as its receiver sees it: the payload of a Close does not travel. */
  function Seen(m: Message): Message {
    if m.IsClose() then CLOSE else m
  }

  /**
   The two conversions are partial inverses. Writing fails exactly on text that is not UTF-8, and
   then reports the longest decodable prefix; what is written reads back as `Seen`. In the other
   direction only a raw frame and the payload of a Close are lost.
   */
  lemma ConversionsInvert(m: Message, raw: RawMessage)
    ensures Sendable(m) <==> !(m.messageType == Text && !ValidUtf8(m.payload))
    ensures Sendable(m) ==> FromRaw(ToRaw(m).value) == Seen(m)
    ensures !Sendable(m) ==> var n := ToRaw(m).error.validUpTo;
                             n < |m.payload| && ValidUtf8(m.payload[..n])
                             && forall k: nat :: n < k <= |m.payload| ==> !ValidUtf8(m.payload[..k])
    ensures ToRaw(FromRaw(raw)) == Ok(raw) <==> !raw.RawFrame? && (raw.RawClose? ==> raw.frame == None)
    ensures Sendable(FromRaw(raw))
  {
    ValidUpToIsLongest(m.payload);
  }

  /** The opcode of section 5.2 of RFC 6455 for each kind of application message. */
  function Opcode(messageType: MessageType): nat {
    match messageType
    case Text => 0x1
    case Binary => 0x2
    case Close => 0x8
    case Ping => 0x9
    case Pong => 0xA
  }

  /** The opcode a wire message goes out with; a raw frame brings its own. */
  function WireOpcode(raw: RawMessage): Option<nat> {
    match raw
    case RawText(_) => Some(0x1)
    case RawBinary(_) => Some(0x2)
    case RawClose(_) => Some(0x8)
    case RawPing(_) => Some(0x9)
    case RawPong(_) => Some(0xA)
    case RawFrame(_) => None
  }

  /** The bytes a data or control message carries. */
  function WireBytes(raw: RawMessage): Option<seq<byte>> {
    match raw
    case RawText(text) => Some(text)
    case RawBinary(data) => Some(data)
    case RawPing(data) => Some(data)
    case RawPong(data) => Some(data)
    case _ => None
  }

  /**
   Conversions keep the kind of a message and its bytes: what goes out has the opcode of the message and,
   but for a Close, its payload; what comes in has the type of its opcode and its bytes. A raw frame, which
   the reading side never sees, would come in as an empty Binary.
   */
  lemma ConversionsKeepTheKind(m: Message, raw: RawMessage)
    ensures Sendable(m) ==> WireOpcode(ToRaw(m).value) == Some(Opcode(m.messageType))
    ensures Sendable(m) && !m.IsClose() ==> WireBytes(ToRaw(m).value) == Some(m.payload)
    ensures WireOpcode(raw).Some? ==> Opcode(FromRaw(raw).messageType) == WireOpcode(raw).value
    ensures WireBytes(raw).Some? ==> FromRaw(raw).payload == WireBytes(raw).value
    ensures WireBytes(raw).None? ==> FromRaw(raw).payload == []
    ensures raw.RawFrame? ==> FromRaw(raw).messageType == Binary
    ensures m.IsPing() <==> Opcode(m.messageType) == 0x9
    ensures m.IsPong() <==> Opcode(m.messageType) == 0xA
    ensures m.IsClose() <==> Opcode(m.messageType) == 0x8
  {
  }
}
