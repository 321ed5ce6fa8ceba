/** The buffered frame reader of scripts/_ws_resume_check.py, against the wire
    format of sections 5.2 and 5.3 of RFC 6455. */
module WebSocketFrames {
  import opened Wrappers

  type byte = b: nat | b < 256

  // ------------------------------------------------------------- wire format

  /** Exclusive or, bit by bit. */
  function Xor(a: nat, b: nat): (x: nat)
    decreases a + b
  {
    if a == 0 && b == 0 then 0 else (if a % 2 == b % 2 then 0 else 1) + 2 * Xor(a / 2, b / 2)
  }

  lemma {:induction false} XorBelow(a: nat, b: nat, limit: nat)
    requires limit in {1, 2, 4, 8, 16, 32, 64, 128, 256} && a < limit && b < limit
    ensures Xor(a, b) < limit
  {
    if limit > 1 {
      XorBelow(a / 2, b / 2, limit / 2);
    }
  }

  lemma {:induction false} XorTwice(a: nat, b: nat)
    ensures Xor(Xor(a, b), b) == a
    decreases a + b
  {
    if a > 0 || b > 0 {
      var x := Xor(a, b);
      assert x % 2 == (if a % 2 == b % 2 then 0 else 1) && x / 2 == Xor(a / 2, b / 2);
      XorTwice(a / 2, b / 2);
    }
  }

  function XorByte(a: byte, b: byte): byte {
    XorBelow(a, b, 256);
    Xor(a, b)
  }

  /** Section 5.3: byte `i` is combined with byte `i mod 4` of the key. */
  function Masked(payload: seq<byte>, key: seq<byte>): (masked: seq<byte>)
    requires |key| == 4
    ensures |masked| == |payload|
    ensures forall i :: 0 <= i < |payload| ==> masked[i] == XorByte(payload[i], key[i % 4])
  {
    seq(|payload|, i requires 0 <= i < |payload| => XorByte(payload[i], key[i % 4]))
  }

  lemma MaskedTwice(payload: seq<byte>, key: seq<byte>)
    requires |key| == 4
    ensures Masked(Masked(payload, key), key) == payload
  {
    forall i | 0 <= i < |payload|
      ensures Masked(Masked(payload, key), key)[i] == payload[i]
    {
      XorTwice(payload[i], key[i % 4]);
    }
  }

  function Power256(width: nat): (p: nat)
    ensures p > 0
  {
    if width == 0 then 1 else 256 * Power256(width - 1)
  }

  /** Network byte order. */
  function ToBytes(n: nat, width: nat): (bytes: seq<byte>)
    ensures |bytes| == width
  {
    if width == 0 then [] else ToBytes(n / 256, width - 1) + [n % 256]
  }

  function FromBytes(bytes: seq<byte>): (n: nat)
    ensures n < Power256(|bytes|)
  {
    if bytes == [] then 0 else 256 * FromBytes(bytes[..|bytes| - 1]) + bytes[|bytes| - 1]
  }

  lemma {:induction false} FromToBytes(n: nat, width: nat)
    requires n < Power256(width)
    ensures FromBytes(ToBytes(n, width)) == n
  {
    if width > 0 {
      FromToBytes(n / 256, width - 1);
      var bytes := ToBytes(n, width);
      assert bytes[..width - 1] == ToBytes(n / 256, width - 1);
    }
  }

  lemma SplitLast(n: nat, last: byte)
    ensures (256 * n + last) / 256 == n && (256 * n + last) % 256 == last
  {
  }

  lemma {:induction false} ToFromBytes(bytes: seq<byte>)
    ensures ToBytes(FromBytes(bytes), |bytes|) == bytes
  {
    if bytes != [] {
      var front, last := bytes[..|bytes| - 1], bytes[|bytes| - 1];
      ToFromBytes(front);
      SplitLast(FromBytes(front), last);
      assert bytes == front + [last];
    }
  }

  /** Which of the three length fields of section 5.2 a frame uses. */
  datatype LengthForm = Short | Medium | Long {
    function Width(): nat { match this case Short => 0 case Medium => 2 case Long => 8 }
  }

  /** `flags` holds FIN and the reserved bits; the reader ignores them. */
  datatype Frame = Frame(flags: nat, opcode: nat, form: LengthForm, key: Option<seq<byte>>, payload: seq<byte>) {
    predicate Valid() {
      && flags < 16 && opcode < 16
      && (key.Some? ==> |key.value| == 4)
      && (if form.Short? then |payload| < 126 else |payload| < Power256(form.Width()))
    }
  }

  function LengthCode(f: Frame): (code: nat)
    requires f.Valid()
    ensures code < 128
  {
    match f.form case Short => |f.payload| case Medium => 126 case Long => 127
  }

  function SecondByte(f: Frame): byte
    requires f.Valid()
  {
    (if f.key.Some? then 128 else 0) + LengthCode(f)
  }

  function Prefix(f: Frame): (bytes: seq<byte>)
    requires f.Valid()
    ensures |bytes| == 2 + f.form.Width()
  {
    [f.flags * 16 + f.opcode, SecondByte(f)] + ToBytes(|f.payload|, f.form.Width())
  }

  function Body(f: Frame): seq<byte>
    requires f.Valid()
  {
    if f.key.Some? then f.key.value + Masked(f.payload, f.key.value) else f.payload
  }

  function Encode(f: Frame): seq<byte>
    requires f.Valid()
  {
    Prefix(f) + Body(f)
  }

  // ---------------------------------------------------------------- decoding

  /** What one call of `next` takes from the front of the stream. */
  datatype Parsed = Parsed(opcode: nat, payload: seq<byte>, rest: seq<byte>)

  function ExtendedWidth(second: byte): nat {
    if second % 128 == 126 then 2 else if second % 128 == 127 then 8 else 0
  }

  function PayloadLength(second: byte, extended: seq<byte>): nat {
    if second % 128 < 126 then second % 128 else FromBytes(extended)
  }

  function KeyWidth(second: byte): nat {
    if second >= 128 then 4 else 0
  }

  function ParseBody(opcode: nat, second: byte, length: nat, stream: seq<byte>): Option<Parsed> {
    var k := KeyWidth(second);
    if |stream| < k + length then None
    else
      var raw := stream[k..k + length];
      Some(Parsed(opcode, if k == 0 then raw else Masked(raw, stream[..k]), stream[k + length..]))
  }

  function Parse(stream: seq<byte>): Option<Parsed> {
    if |stream| < 2 then None
    else
      var w := ExtendedWidth(stream[1]);
      if |stream| < 2 + w then None
      else ParseBody(stream[0] % 16, stream[1], PayloadLength(stream[1], stream[2..2 + w]), stream[2 + w..])
  }

  function BodyConsumed(second: byte, stream: seq<byte>): nat {
    if KeyWidth(second) == 4 && |stream| >= 4 then 4 else 0
  }

  /** How many bytes a call that ends in an error has already discarded: the
      fields it could read in full. */
  function Consumed(stream: seq<byte>): (n: nat)
    ensures n <= |stream|
  {
    if |stream| < 2 then 0
    else
      var w := ExtendedWidth(stream[1]);
      if |stream| < 2 + w then 2 else 2 + w + BodyConsumed(stream[1], stream[2 + w..])
  }

  // ------------------------------------------------------- repeating a call

  /** The length of the frame whose length field is complete. */
  function Total(stream: seq<byte>): nat
    requires |stream| >= 2 && |stream| >= 2 + ExtendedWidth(stream[1])
  {
    var w := ExtendedWidth(stream[1]);
    2 + w + KeyWidth(stream[1]) + PayloadLength(stream[1], stream[2..2 + w])
  }

  lemma WholeFrame(stream: seq<byte>)
    requires |stream| >= 2 && |stream| >= 2 + ExtendedWidth(stream[1])
    ensures Parse(stream).Some? <==> |stream| >= Total(stream)
    ensures Parse(stream).Some? ==>
              && |Parse(stream).value.rest| == |stream| - Total(stream)
              && |Parse(stream).value.payload| == PayloadLength(stream[1], stream[2..2 + ExtendedWidth(stream[1])])
  {
  }

  /** The same frame from both: then the two streams differ by their header sizes. */
  lemma SameFrame(stream: seq<byte>, other: seq<byte>)
    requires |stream| >= 2 && |stream| >= 2 + ExtendedWidth(stream[1]) && |stream| == Total(stream)
    requires Parse(stream) == Parse(other)
    ensures |other| >= 2 && |other| >= 2 + ExtendedWidth(other[1])
    ensures PayloadLength(other[1], other[2..2 + ExtendedWidth(other[1])])
         == PayloadLength(stream[1], stream[2..2 + ExtendedWidth(stream[1])])
    ensures |stream| - |other| == ExtendedWidth(stream[1]) + KeyWidth(stream[1])
                                - ExtendedWidth(other[1]) - KeyWidth(other[1])
  {
    WholeFrame(stream);
    WholeFrame(other);
  }

  lemma LastByte(bytes: seq<byte>)
    requires bytes != []
    ensures FromBytes(bytes) % 256 == bytes[|bytes| - 1]
  {
    var front := FromBytes(bytes[..|bytes| - 1]);
    assert FromBytes(bytes) == 256 * front + bytes[|bytes| - 1];
  }

  /** Filler that ends in a given byte. */
  function Filler(n: nat, last: byte): (bytes: seq<byte>)
    requires n >= 1
    ensures |bytes| == n && bytes[n - 1] == last && forall i :: 0 <= i < n - 1 ==> bytes[i] == 0
  {
    seq(n - 1, i => 0) + [last]
  }

  function Zeros(n: nat): (bytes: seq<byte>)
    ensures |bytes| == n
  {
    seq(n, i => 0)
  }

  ghost predicate Separates(stream: seq<byte>, more: seq<byte>) {
    Parse(stream[Consumed(stream)..] + more) != Parse(stream + more)
  }

  /** A complete frame and nothing after it. */
  predicate Whole(stream: seq<byte>) {
    |stream| >= 2 && |stream| >= 2 + ExtendedWidth(stream[1]) && |stream| == Total(stream)
  }

  /** Within the payload: what is left is shorter than any frame that carries it. */
  lemma PayloadDiffers(whole: seq<byte>, other: seq<byte>)
    requires Whole(whole) && |whole| - |other| == 2 + ExtendedWidth(whole[1]) + KeyWidth(whole[1])
    ensures Parse(other) != Parse(whole)
  {
    if Parse(other) == Parse(whole) {
      SameFrame(whole, other);
    }
  }

  /** Within the masking key: where its last byte stands, a frame read from the
      remainder would have the low byte of its length. */
  lemma KeyDiffers(whole: seq<byte>, other: seq<byte>)
    requires Whole(whole) && KeyWidth(whole[1]) == 4 && |whole| - |other| == 2 + ExtendedWidth(whole[1]) && |other| >= 4
    requires var length := PayloadLength(whole[1], whole[2..2 + ExtendedWidth(whole[1])]);
             other[3] == (length + 1) % 256
    ensures Parse(other) != Parse(whole)
  {
    LastByte(other[2..2 + 2]);
    if Parse(other) == Parse(whole) {
      SameFrame(whole, other);
    }
  }

  /** Within a two-byte length: where its low byte stands, a frame read from the
      remainder would have its second header byte. */
  lemma MediumDiffers(whole: seq<byte>, other: seq<byte>)
    requires Whole(whole) && ExtendedWidth(whole[1]) == 2 && |other| >= 2
    requires other[1] == 130 == whole[3]
    ensures Parse(other) != Parse(whole)
  {
    LastByte(whole[2..2 + 2]);
    if Parse(other) == Parse(whole) {
      SameFrame(whole, other);
    }
  }

  /** Within an eight-byte length: its low byte is not part of any length a frame
      read from the remainder could have. */
  lemma LongDiffers(whole: seq<byte>, other: seq<byte>)
    requires Whole(whole) && ExtendedWidth(whole[1]) == 8 && |whole| - |other| == 2
    requires other[3] != whole[9]
    ensures Parse(other) != Parse(whole)
  {
    LastByte(whole[2..2 + 8]);
    LastByte(other[2..2 + 2]);
    if Parse(other) == Parse(whole) {
      SameFrame(whole, other);
    }
  }

  /** The rest of a frame whose length field is complete. */
  lemma GrownWhole(stream: seq<byte>, more: seq<byte>)
    requires |stream| >= 2 && |stream| >= 2 + ExtendedWidth(stream[1]) && |stream| + |more| == Total(stream)
    ensures var whole, w := stream + more, ExtendedWidth(stream[1]);
            Whole(whole) && whole[1] == stream[1] && whole[2..2 + w] == stream[2..2 + w]
  {
    var w := ExtendedWidth(stream[1]);
    assert (stream + more)[2..2 + w] == stream[2..2 + w];
  }

  lemma LastOfKey(left: seq<byte>, last: byte, tail: seq<byte>)
    requires |left| < 4
    ensures var other := left + (Filler(4 - |left|, last) + tail); |other| >= 4 && other[3] == last
  {
  }

  lemma PayloadSeparates(stream: seq<byte>)
    requires Parse(stream).None? && |stream| >= 2 && |stream| >= 2 + ExtendedWidth(stream[1])
    requires Consumed(stream) == 2 + ExtendedWidth(stream[1]) + KeyWidth(stream[1])
    ensures Total(stream) >= |stream| && Separates(stream, Zeros(Total(stream) - |stream|))
  {
    WholeFrame(stream);
    var more := Zeros(Total(stream) - |stream|);
    GrownWhole(stream, more);
    PayloadDiffers(stream + more, stream[Consumed(stream)..] + more);
  }

  lemma KeySeparates(stream: seq<byte>) returns (more: seq<byte>)
    requires |stream| >= 2 && KeyWidth(stream[1]) == 4
    requires 2 + ExtendedWidth(stream[1]) <= |stream| < 6 + ExtendedWidth(stream[1])
    ensures Separates(stream, more)
  {
    var w := ExtendedWidth(stream[1]);
    var length, left := PayloadLength(stream[1], stream[2..2 + w]), stream[2 + w..];
    more := Filler(4 - |left|, (length + 1) % 256) + Zeros(length);
    GrownWhole(stream, more);
    LastOfKey(left, (length + 1) % 256, Zeros(length));
    KeyDiffers(stream + more, left + more);
  }

  lemma MediumSeparates(stream: seq<byte>) returns (more: seq<byte>)
    requires 2 <= |stream| < 4 && ExtendedWidth(stream[1]) == 2
    ensures Separates(stream, more)
  {
    var left := stream[2..];
    var field := left + Filler(2 - |left|, 130);
    more := Filler(2 - |left|, 130) + Zeros(KeyWidth(stream[1]) + FromBytes(field));
    assert (stream + more)[2..2 + 2] == field;
    MediumDiffers(stream + more, left + more);
  }

  lemma LongSeparates(stream: seq<byte>) returns (more: seq<byte>)
    requires 2 <= |stream| < 10 && ExtendedWidth(stream[1]) == 8
    ensures Separates(stream, more)
  {
    var left := stream[2..];
    var fourth: byte := if |left| > 3 then left[3] else 0;
    var filler := Filler(8 - |left|, (fourth + 1) % 256);
    more := filler + Zeros(KeyWidth(stream[1]) + FromBytes(left + filler));
    assert (stream + more)[2..2 + 8] == left + filler;
    LongDiffers(stream + more, left + more);
  }

  /** A call that failed can be repeated once more bytes are there, with the result
      an unbroken call would have had, exactly when it failed before the two header
      bytes were complete. */
  lemma FailureIsLosslessBeforeHeader(stream: seq<byte>)
    requires Parse(stream).None?
    ensures (forall more: seq<byte> :: !Separates(stream, more)) <==> |stream| < 2
  {
    if |stream| < 2 {
      assert stream[0..] == stream;
    } else {
      var w := ExtendedWidth(stream[1]);
      var more: seq<byte>;
      if |stream| < 2 + w {
        if w == 2 { more := MediumSeparates(stream); } else { more := LongSeparates(stream); }
      } else if Consumed(stream) == 2 + w + KeyWidth(stream[1]) {
        PayloadSeparates(stream);
        more := Zeros(Total(stream) - |stream|);
      } else {
        more := KeySeparates(stream);
      }
      assert Separates(stream, more);
    }
  }

  // Otherwise the next call reads payload bytes as a header: here a text frame's
  // one payload byte, read as a close frame.
  lemma FailureCanDesynchronise()
    ensures var stream: seq<byte>, more: seq<byte> := [0x81, 0x01], [0x88, 0x00];
            && Parse(stream).None?
            && Parse(stream + more) == Some(Parsed(0x1, [0x88], [0x00]))
            && Parse(stream[Consumed(stream)..] + more) == Some(Parsed(0x8, [], []))
  {
    var stream: seq<byte>, more: seq<byte> := [0x81, 0x01], [0x88, 0x00];
    ParseShort(stream, 0x81, 0x01, []);
    ParseShort(stream + more, 0x81, 0x01, more);
    assert more[0..0 + 1] == [0x88] && more[0 + 1..] == [0x00];
    assert stream[Consumed(stream)..] + more == more;
    ParseShort(more, 0x88, 0x00, []);
  }

  /** An unmasked frame of less than 126 bytes. */
  lemma ParseShort(stream: seq<byte>, first: byte, second: byte, tail: seq<byte>)
    requires stream == [first, second] + tail && second < 126
    ensures Parse(stream) == ParseBody(first % 16, second, second, tail)
  {
    assert second % 128 == second && ExtendedWidth(second) == 0;
    assert stream[0] == first && stream[1] == second && stream[2 + 0..] == tail;
  }

  lemma PrefixParts(f: Frame, tail: seq<byte>)
    requires f.Valid()
    ensures var stream, w := Prefix(f) + tail, f.form.Width();
            && |stream| >= 2 + w && stream[0] % 16 == f.opcode && stream[1] == SecondByte(f)
            && stream[2..2 + w] == ToBytes(|f.payload|, w) && stream[2 + w..] == tail
  {
  }

  lemma LengthRead(f: Frame)
    requires f.Valid()
    ensures ExtendedWidth(SecondByte(f)) == f.form.Width()
    ensures PayloadLength(SecondByte(f), ToBytes(|f.payload|, f.form.Width())) == |f.payload|
  {
    if !f.form.Short? {
      FromToBytes(|f.payload|, f.form.Width());
    }
  }

  lemma ParsePrefix(f: Frame, tail: seq<byte>)
    requires f.Valid()
    ensures Parse(Prefix(f) + tail) == ParseBody(f.opcode, SecondByte(f), |f.payload|, tail)
  {
    PrefixParts(f, tail);
    LengthRead(f);
  }

  lemma ParseMasked(opcode: nat, second: byte, payload: seq<byte>, key: seq<byte>, rest: seq<byte>)
    requires second >= 128 && |key| == 4
    ensures ParseBody(opcode, second, |payload|, key + Masked(payload, key) + rest)
            == Some(Parsed(opcode, payload, rest))
  {
    var tail, n := key + Masked(payload, key) + rest, |payload|;
    assert tail[..4] == key && tail[4..4 + n] == Masked(payload, key) && tail[4 + n..] == rest;
    MaskedTwice(payload, key);
  }

  lemma ParsePlain(opcode: nat, second: byte, payload: seq<byte>, rest: seq<byte>)
    requires second < 128
    ensures ParseBody(opcode, second, |payload|, payload + rest) == Some(Parsed(opcode, payload, rest))
  {
    var tail, n := payload + rest, |payload|;
    assert tail[0..0 + n] == payload && tail[0 + n..] == rest;
  }

  /** Decoding gives back what was encoded, for all three length forms, masked
      or not, and leaves exactly the bytes that follow. */
  lemma ParseEncode(f: Frame, rest: seq<byte>)
    requires f.Valid()
    ensures Parse(Encode(f) + rest) == Some(Parsed(f.opcode, f.payload, rest))
  {
    var second := SecondByte(f);
    assert Encode(f) + rest == Prefix(f) + (Body(f) + rest);
    ParsePrefix(f, Body(f) + rest);
    if f.key.Some? {
      ParseMasked(f.opcode, second, f.payload, f.key.value, rest);
    } else {
      ParsePlain(f.opcode, second, f.payload, rest);
    }
  }

  /** The frame the reader saw at the front of a stream it accepts. */
  function Seen(stream: seq<byte>): (f: Frame)
    requires Parse(stream).Some?
    ensures f.Valid()
  {
    var second := stream[1];
    var w := ExtendedWidth(second);
    var form := if w == 0 then Short else if w == 2 then Medium else Long;
    var key := if second < 128 then None else Some(stream[2 + w..][..4]);
    Frame(stream[0] / 16, stream[0] % 16, form, key, Parse(stream).value.payload)
  }

  lemma SeenPrefix(stream: seq<byte>)
    requires Parse(stream).Some?
    ensures stream[..2 + ExtendedWidth(stream[1])] == Prefix(Seen(stream))
  {
    var w := ExtendedWidth(stream[1]);
    var f := Seen(stream);
    assert |f.payload| == PayloadLength(stream[1], stream[2..2 + w]);
    if w > 0 {
      ToFromBytes(stream[2..2 + w]);
    }
    assert stream[..2 + w] == [stream[0], stream[1]] + stream[2..2 + w];
  }

  lemma BodyIsMasked(opcode: nat, second: byte, length: nat, tail: seq<byte>)
    requires ParseBody(opcode, second, length, tail).Some?
    ensures var p := ParseBody(opcode, second, length, tail).value;
            tail == (if second >= 128 then tail[..4] + Masked(p.payload, tail[..4]) else p.payload) + p.rest
  {
    var k := KeyWidth(second);
    SplitThrice(tail, k, k + length);
    if second >= 128 {
      MaskedTwice(tail[4..4 + length], tail[..4]);
    }
  }

  lemma SplitThrice(s: seq<byte>, i: nat, j: nat)
    requires i <= j <= |s|
    ensures s == s[..i] + s[i..j] + s[j..]
  {
  }

  lemma SeenBody(stream: seq<byte>)
    requires Parse(stream).Some?
    ensures stream[2 + ExtendedWidth(stream[1])..] == Body(Seen(stream)) + Parse(stream).value.rest
  {
    var w := ExtendedWidth(stream[1]);
    BodyIsMasked(stream[0] % 16, stream[1], PayloadLength(stream[1], stream[2..2 + w]), stream[2 + w..]);
  }

  /** Conversely, everything the reader accepts is a frame of the format. */
  lemma ParseIsEncode(stream: seq<byte>)
    requires Parse(stream).Some?
    ensures var f := Seen(stream);
            && stream == Encode(f) + Parse(stream).value.rest
            && f.opcode == Parse(stream).value.opcode && f.payload == Parse(stream).value.payload
  {
    var w, f, rest := ExtendedWidth(stream[1]), Seen(stream), Parse(stream).value.rest;
    SeenPrefix(stream);
    SeenBody(stream);
    assert stream == stream[..2 + w] + stream[2 + w..];
    assert Prefix(f) + (Body(f) + rest) == (Prefix(f) + Body(f)) + rest;
  }

  // ------------------------------------------------------------- many frames

  predicate AllValid(frames: seq<Frame>) {
    forall i :: 0 <= i < |frames| ==> frames[i].Valid()
  }

  /** The bytes of the frames from number `k` on. */
  function EncodeFrom(frames: seq<Frame>, k: nat): seq<byte>
    requires AllValid(frames) && k <= |frames|
    decreases |frames| - k
  {
    if k == |frames| then [] else Encode(frames[k]) + EncodeFrom(frames, k + 1)
  }

  /** What the reader should report of the first `k` frames. */
  function Messages(frames: seq<Frame>, k: nat): (messages: seq<(nat, seq<byte>)>)
    requires k <= |frames|
    ensures |messages| == k && forall i :: 0 <= i < k ==> messages[i] == (frames[i].opcode, frames[i].payload)
  {
    if k == 0 then [] else Messages(frames, k - 1) + [(frames[k - 1].opcode, frames[k - 1].payload)]
  }

  lemma ParseNext(frames: seq<Frame>, k: nat, tail: seq<byte>)
    requires AllValid(frames) && k < |frames|
    ensures Parse(EncodeFrom(frames, k) + tail)
         == Some(Parsed(frames[k].opcode, frames[k].payload, EncodeFrom(frames, k + 1) + tail))
  {
    var rest := EncodeFrom(frames, k + 1);
    assert EncodeFrom(frames, k) + tail == Encode(frames[k]) + (rest + tail);
    ParseEncode(frames[k], rest + tail);
  }

  // ------------------------------------------------------------- the reader

  datatype ReadError = TimedOut | EndOfStream

  /** What successive `recv` calls meet: bytes (none at the end of the stream), or
      the deadline. */
  datatype SocketEvent = Chunk(data: seq<byte>) | Expired

  /** The bytes that arrive before the first obstacle. */
  function Arriving(incoming: seq<SocketEvent>): seq<byte> {
    if incoming == [] || incoming[0].Expired? || incoming[0].data == [] then []
    else incoming[0].data + Arriving(incoming[1..])
  }

  /** The obstacle itself; a silent socket runs into the deadline. */
  function Obstacle(incoming: seq<SocketEvent>): ReadError {
    if incoming == [] || incoming[0].Expired? then TimedOut
    else if incoming[0].data == [] then EndOfStream
    else Obstacle(incoming[1..])
  }

  class Frames {
    var buf: seq<byte>
    var incoming: seq<SocketEvent>

    constructor (incoming: seq<SocketEvent>, initial: seq<byte>)
      ensures Stream() == initial + Arriving(incoming) && buf == initial && this.incoming == incoming
    {
      this.incoming := incoming;
      buf := initial;
    }

    /** Buffered bytes followed by everything the socket still delivers. */
    ghost function Stream(): seq<byte>
      reads this
    {
      buf + Arriving(incoming)
    }

    method RecvN(n: nat) returns (r: Result<seq<byte>, ReadError>)
      modifies this
      ensures r.Ok? <==> |old(Stream())| >= n
      ensures r.Ok? ==> r.value == old(Stream())[..n] && Stream() == old(Stream())[n..]
      ensures r.Ok? ==> Obstacle(incoming) == old(Obstacle(incoming))
      ensures r.Err? ==> r.error == old(Obstacle(incoming)) && buf == old(Stream())
    {
      while |buf| < n
        invariant Stream() == old(Stream()) && Obstacle(incoming) == old(Obstacle(incoming))
        decreases |incoming|
      {
        if incoming == [] {
          return Err(TimedOut);
        }
        var event := incoming[0];
        ghost var before := buf;
        incoming := incoming[1..];
        if event.Expired? {
          return Err(TimedOut);
        }
        if event.data == [] {
          return Err(EndOfStream);
        }
        buf := buf + event.data;
        assert buf + Arriving(incoming) == before + (event.data + Arriving(incoming));
      }
      r := Ok(buf[..n]);
      assert old(Stream())[..n] == buf[..n] && old(Stream())[n..] == buf[n..] + Arriving(incoming);
      buf := buf[n..];
    }

    /** The masking key, if any, and the payload. */
    method ReadBody(opcode: nat, second: byte, length: nat) returns (r: Result<(nat, seq<byte>), ReadError>)
      modifies this
      ensures var parsed := ParseBody(opcode, second, length, old(Stream()));
              && (r.Ok? <==> parsed.Some?)
              && (r.Ok? ==> r.value == (parsed.value.opcode, parsed.value.payload) && Stream() == parsed.value.rest)
      ensures r.Ok? ==> Obstacle(incoming) == old(Obstacle(incoming))
      ensures r.Err? ==>
                r.error == old(Obstacle(incoming)) && buf == old(Stream())[BodyConsumed(second, old(Stream()))..]
    {
      ghost var stream, k := Stream(), KeyWidth(second);
      var mask := [];
      if second >= 128 {
        var key := RecvN(4);
        if key.Err? { return Err(key.error); }
        mask := key.value;
      }
      assert mask == stream[..k] && Stream() == stream[k..];
      var payload := [];
      if length != 0 {
        var body := RecvN(length);
        if body.Err? { return Err(body.error); }
        payload := body.value;
      }
      assert payload == stream[k..][..length] == stream[k..k + length];
      assert Stream() == stream[k..][length..] == stream[k + length..];
      if second >= 128 {
        payload := Masked(payload, mask);
      }
      return Ok((opcode, payload));
    }

    /** The outcome depends on the bytes alone, not on how they were chunked. */
    method Next() returns (r: Result<(nat, seq<byte>), ReadError>)
      modifies this
      ensures var parsed := Parse(old(Stream()));
              && (r.Ok? <==> parsed.Some?)
              && (r.Ok? ==> r.value == (parsed.value.opcode, parsed.value.payload) && Stream() == parsed.value.rest)
      ensures r.Ok? ==> Obstacle(incoming) == old(Obstacle(incoming))
      ensures r.Err? ==> r.error == old(Obstacle(incoming)) && buf == old(Stream())[Consumed(old(Stream()))..]
    {
      ghost var stream := Stream();
      var header := RecvN(2);
      if header.Err? { return Err(header.error); }
      var second := header.value[1];
      var length := second % 128;
      ghost var w := ExtendedWidth(second);
      ghost var extended := [];
      if length == 126 || length == 127 {
        var more := RecvN(if length == 126 then 2 else 8);
        if more.Err? { return Err(more.error); }
        extended := more.value;
        length := FromBytes(more.value);
      }
      assert extended == stream[2..][..w] == stream[2..2 + w];
      assert Stream() == stream[2..][w..] == stream[2 + w..];
      r := ReadBody(header.value[0] % 16, second, length);
    }

    /** The read loop: for every list of frames and every way their bytes are
        split into a handshake leftover and socket chunks, successive calls
        give exactly the opcodes and payloads, and the rest stays in place. */
    method ReadAll(ghost frames: seq<Frame>, ghost tail: seq<byte>, count: nat)
      returns (messages: seq<(nat, seq<byte>)>)
      requires count == |frames| && AllValid(frames) && Stream() == EncodeFrom(frames, 0) + tail
      modifies this
      ensures messages == Messages(frames, |frames|)
      ensures Stream() == tail
    {
      messages := [];
      var k := 0;
      while k < count
        invariant k <= count && messages == Messages(frames, k)
        invariant Stream() == EncodeFrom(frames, k) + tail
      {
        ParseNext(frames, k, tail);
        var message := Next();
        messages := messages + [message.value];
        k := k + 1;
      }
      assert [] + tail == tail;
    }
  }
}
