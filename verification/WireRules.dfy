/** What the reader of scripts/_ws_resume_check.py makes of the bytes it is given, stated
    on the fields of section 5.2 of RFC 6455 and on the examples of its section 5.7. */
module WireRules {
  import opened Wrappers
  import opened WebSocketFrames

  // -------------------------------------------------------------- bytes, bits

  /** The first byte counts most. */
  lemma {:induction false} MostSignificantFirst(first: byte, rest: seq<byte>)
    ensures FromBytes([first] + rest) == first * Power256(|rest|) + FromBytes(rest)
    decreases |rest|
  {
    var all := [first] + rest;
    if rest == [] {
      assert all[..0] == [];
    } else {
      var front, last := rest[..|rest| - 1], rest[|rest| - 1];
      assert all[..|all| - 1] == [first] + front;
      MostSignificantFirst(first, front);
      Regroup(first, Power256(|front|), FromBytes(front), last);
    }
  }

  lemma Regroup(first: nat, power: nat, value: nat, last: nat)
    ensures 256 * (first * power + value) + last == first * (256 * power) + (256 * value + last)
  {
  }

  function Pair(high: nat, low: nat): nat { 256 * high + low }

  lemma TwoBytes(a: byte, b: byte)
    ensures FromBytes([a, b]) == Pair(a, b)
  {
    assert [a, b][..1] == [a];
    assert [a][..0] == [];
  }

  function Bit(n: nat, k: nat): nat {
    if k == 0 then n % 2 else Bit(n / 2, k - 1)
  }

  /** Unmasking flips exactly the bits that are set in the key. */
  lemma {:induction false} XorFlipsBits(a: nat, b: nat, k: nat)
    ensures Bit(Xor(a, b), k) == if Bit(b, k) == 1 then 1 - Bit(a, k) else Bit(a, k)
    decreases k
  {
    var x := Xor(a, b);
    assert x % 2 == (if a % 2 == b % 2 then 0 else 1) && x / 2 == Xor(a / 2, b / 2);
    if k > 0 {
      XorFlipsBits(a / 2, b / 2, k - 1);
    }
  }

  // ------------------------------------------------------------------- fields

  /** The fields of a frame at the front of a stream: the low seven bits of the second
      byte give the length, or say how many bytes that follow do; its top bit tells of
      a key. */
  predicate FieldsAre(stream: seq<byte>, length: nat, keyAt: nat, payloadAt: nat) {
    && |stream| >= 2
    && var code := stream[1] % 128;
       && (if code < 126 then length == code && keyAt == 2
           else if code == 126 then |stream| >= 4 && length == Pair(stream[2], stream[3]) && keyAt == 4
           else
             && |stream| >= 10 && keyAt == 10
             && length == stream[2] * Power256(7) + FromBytes(stream[3..10]))
       && payloadAt == keyAt + if stream[1] < 128 then 0 else 4
  }

  /** What a complete frame gives: the low half of the first byte, the payload byte by
      byte, combined with the key where there is one, and everything behind it. */
  ghost predicate Gives(frame: Parsed, stream: seq<byte>, length: nat, keyAt: nat, payloadAt: nat)
    requires 1 <= keyAt <= payloadAt <= keyAt + 4 && payloadAt + length <= |stream|
    requires payloadAt != keyAt ==> payloadAt == keyAt + 4
  {
    && frame.opcode == stream[0] % 16
    && |frame.payload| == length
    && frame.rest == stream[payloadAt + length..]
    && forall i :: 0 <= i < length ==>
         frame.payload[i] == if payloadAt == keyAt then stream[payloadAt + i]
                             else XorByte(stream[payloadAt + i], stream[keyAt + i % 4])
  }

  lemma LengthField(stream: seq<byte>, length: nat, keyAt: nat, payloadAt: nat)
    requires FieldsAre(stream, length, keyAt, payloadAt)
    ensures keyAt == 2 + ExtendedWidth(stream[1]) <= |stream|
    ensures PayloadLength(stream[1], stream[2..keyAt]) == length
  {
    var code := stream[1] % 128;
    if code == 126 {
      TwoBytes(stream[2], stream[3]);
      assert stream[2..4] == [stream[2], stream[3]];
    } else if code == 127 {
      MostSignificantFirst(stream[2], stream[3..10]);
      assert stream[2..10] == [stream[2]] + stream[3..10];
    }
  }

  lemma ParseIsBody(stream: seq<byte>, length: nat, keyAt: nat, payloadAt: nat)
    requires FieldsAre(stream, length, keyAt, payloadAt)
    ensures keyAt <= |stream| && payloadAt == keyAt + KeyWidth(stream[1])
    ensures Parse(stream) == ParseBody(stream[0] % 16, stream[1], length, stream[keyAt..])
  {
    LengthField(stream, length, keyAt, payloadAt);
  }

  lemma BodyGives(stream: seq<byte>, length: nat, keyAt: nat, payloadAt: nat)
    requires |stream| >= 2 && 1 <= keyAt <= |stream| && payloadAt == keyAt + KeyWidth(stream[1])
    ensures var body := ParseBody(stream[0] % 16, stream[1], length, stream[keyAt..]);
            if |stream| < payloadAt + length then body.None?
            else body.Some? && Gives(body.value, stream, length, keyAt, payloadAt)
  {
    if |stream| >= payloadAt + length {
      var tail, k := stream[keyAt..], KeyWidth(stream[1]);
      assert tail[k + length..] == stream[payloadAt + length..];
      assert tail[k..k + length] == stream[payloadAt..payloadAt + length];
    }
  }

  /** A stream is accepted exactly when all of the frame is there. */
  lemma AcceptsExactly(stream: seq<byte>, length: nat, keyAt: nat, payloadAt: nat)
    requires FieldsAre(stream, length, keyAt, payloadAt)
    ensures if |stream| < payloadAt + length then Parse(stream).None?
            else Parse(stream).Some? && Gives(Parse(stream).value, stream, length, keyAt, payloadAt)
  {
    ParseIsBody(stream, length, keyAt, payloadAt);
    BodyGives(stream, length, keyAt, payloadAt);
  }

  /** And without its length field a stream is not accepted. */
  lemma HeaderIsNeeded(stream: seq<byte>)
    requires || |stream| < 2
             || (stream[1] % 128 == 126 && |stream| < 4)
             || (stream[1] % 128 == 127 && |stream| < 10)
    ensures Parse(stream).None?
  {
  }

  // ----------------------------------------------------------------- examples

  /** The two binary frames of section 5.7, of 256 bytes and of 64 KiB. */
  lemma LongFrames(payload: seq<byte>)
    ensures |payload| == 256 ==> Parse([0x82, 0x7E, 0x01, 0x00] + payload) == Some(Parsed(2, payload, []))
    ensures |payload| == 65536 ==>
              Parse([0x82, 0x7F, 0, 0, 0, 0, 0, 1, 0, 0] + payload) == Some(Parsed(2, payload, []))
  {
    var medium: seq<byte> := [0x82, 0x7E, 0x01, 0x00] + payload;
    var long: seq<byte> := [0x82, 0x7F, 0, 0, 0, 0, 0, 1, 0, 0] + payload;
    if |payload| == 256 {
      AcceptsExactly(medium, 256, 4, 4);
      assert Parse(medium).value.payload == payload;
    }
    if |payload| == 65536 {
      assert long[3..10] == [0, 0, 0, 0, 1, 0, 0];
      SixtyFourKib();
      AcceptsExactly(long, 65536, 10, 10);
      assert Parse(long).value.payload == payload;
    }
  }

  lemma SixtyFourKib()
    ensures FromBytes([0, 0, 0, 0, 1, 0, 0]) == 65536
  {
    MostSignificantFirst(0, [0, 0, 0, 1, 0, 0]);
    assert [0, 0, 0, 0, 1, 0, 0] == [0] + [0, 0, 0, 1, 0, 0];
    MostSignificantFirst(0, [0, 0, 1, 0, 0]);
    assert [0, 0, 0, 1, 0, 0] == [0] + [0, 0, 1, 0, 0];
    MostSignificantFirst(0, [0, 1, 0, 0]);
    assert [0, 0, 1, 0, 0] == [0] + [0, 1, 0, 0];
    MostSignificantFirst(0, [1, 0, 0]);
    assert [0, 1, 0, 0] == [0] + [1, 0, 0];
    MostSignificantFirst(1, [0, 0]);
    assert [1, 0, 0] == [1] + [0, 0];
    TwoBytes(0, 0);
  }

  // ---------------------------------------------------------------- the socket

  /** The `n` chunks before the first obstacle arrive in full, and the obstacle is the
      deadline unless it is the empty chunk that ends a stream. */
  lemma {:induction false} ObstacleIsFirst(incoming: seq<SocketEvent>, n: nat)
    requires n <= |incoming| && forall i :: 0 <= i < n ==> incoming[i].Chunk? && incoming[i].data != []
    requires n < |incoming| ==> incoming[n].Expired? || incoming[n].data == []
    ensures Arriving(incoming) == Arriving(incoming[..n])
    ensures Obstacle(incoming) == if n < |incoming| && incoming[n].Chunk? then EndOfStream else TimedOut
    decreases n
  {
    if n > 0 {
      assert incoming[1..][..n - 1] == incoming[..n][1..];
      ObstacleIsFirst(incoming[1..], n - 1);
    }
  }
}
