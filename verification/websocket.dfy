/** WebSocket framing, sections 5.2 to 5.5 of RFC 6455, for one end of a connection. */
module WebSocket {
  import opened Llm

  type Byte = bv8

  datatype Frame = Frame(fin: bool, opcode: Byte, payload: seq<Byte>)

  const CONTINUATION: Byte := 0x0
  const TEXT: Byte := 0x1
  const BINARY: Byte := 0x2
  const CLOSE: Byte := 0x8
  const PING: Byte := 0x9
  const PONG: Byte := 0xA

  /** A payload is a Go slice, whose length is a signed 64-bit number. */
  const TWO_TO_THE_63: nat := 0x8000_0000_0000_0000

  datatype Mask = Mask(a: Byte, b: Byte, c: Byte, d: Byte) {
    function At(i: nat): Byte {
      if i % 4 == 0 then a else if i % 4 == 1 then b else if i % 4 == 2 then c else d
    }

    function Bytes(): seq<Byte> {
      [a, b, c, d]
    }
  }

  /** One end: whether it is the client, and the most bytes it takes in a message. */
  datatype End = End(client: bool, maxBytes: nat)

  datatype Fault = Eof | ReservedBits | MaskedByServer | UnmaskedByClient | BadLength | BadControl | TooLong

  datatype Reading =
    | Got(frame: Frame, rest: seq<Byte>)
    | Fails(fault: Fault, rest: seq<Byte>)

  // ---------------------------------------------------------------- numbers in network order

  function BigEndian(n: nat, width: nat): (bytes: seq<Byte>)
    ensures |bytes| == width
  {
    if width == 0 then [] else BigEndian(n / 256, width - 1) + [(n % 256) as Byte]
  }

  function Value(bytes: seq<Byte>): nat {
    if bytes == [] then 0 else Value(bytes[..|bytes| - 1]) * 256 + bytes[|bytes| - 1] as nat
  }

  function Power(width: nat): nat {
    if width == 0 then 1 else 256 * Power(width - 1)
  }

  lemma {:induction false} ValueOfBigEndian(n: nat, width: nat)
    requires n < Power(width)
    ensures Value(BigEndian(n, width)) == n
  {
    hide Value;
    if width > 0 {
      ShiftedBound(n, Power(width - 1));
      ValueOfBigEndian(n / 256, width - 1);
      ByteBack(n % 256);
      ValueSnoc(BigEndian(n / 256, width - 1), (n % 256) as Byte);
    } else {
      ValueOfNothing();
    }
  }

  lemma ValueOfNothing()
    ensures Value([]) == 0
  {
  }

  lemma ShiftedBound(n: nat, power: nat)
    requires n < 256 * power
    ensures n / 256 < power && n == n / 256 * 256 + n % 256
  {
  }

  lemma ByteBack(n: int)
    requires 0 <= n < 256
    ensures (n as Byte) as int == n
  {
    if n < 16 {
    } else if n < 32 {
    } else if n < 64 {
    } else if n < 128 {
    } else {
    }
  }

  lemma ValueSnoc(bytes: seq<Byte>, last: Byte)
    ensures Value(bytes + [last]) == Value(bytes) * 256 + last as nat
  {}

  // ---------------------------------------------------------------- masking

  function Masked(payload: seq<Byte>, mask: Mask): (r: seq<Byte>)
    ensures |r| == |payload|
  {
    seq(|payload|, i requires 0 <= i < |payload| => payload[i] ^ mask.At(i))
  }

  lemma MaskTwice(payload: seq<Byte>, mask: Mask)
    ensures Masked(Masked(payload, mask), mask) == payload
  {}

  method ApplyMask(payload: array<Byte>, mask: Mask)
    modifies payload
    ensures payload[..] == Masked(old(payload[..]), mask)
  {
    for i := 0 to payload.Length
      invariant forall k :: 0 <= k < i ==> payload[k] == old(payload[k]) ^ mask.At(k)
      invariant forall k :: i <= k < payload.Length ==> payload[k] == old(payload[k])
    {
      payload[i] := payload[i] ^ mask.At(i);
    }
  }

  // ---------------------------------------------------------------- one frame

  function LengthField(maskBit: Byte, length: nat): (field: seq<Byte>)
    ensures |field| >= 1
  {
    if length < 126 then [maskBit | (length as Byte)]
    else if length <= 0xffff then [maskBit | 126] + BigEndian(length, 2)
    else [maskBit | 127] + BigEndian(length, 8)
  }

  function WriteFrame(client: bool, f: Frame, mask: Mask): seq<Byte> {
    [if f.fin then f.opcode | 0x80 else f.opcode]
    + LengthField(if client then 0x80 else 0, |f.payload|)
    + if client then mask.Bytes() + Masked(f.payload, mask) else f.payload
  }

  /** The extended length that the seven bits announce, and what follows it. */
  function ReadLength(short: nat, input: seq<Byte>): (r: (bool, nat, seq<Byte>))
    ensures r.0 ==> |r.2| <= |input|
  {
    if short == 126 then
      if |input| < 2 then (false, 0, []) else (true, Value(input[..2]), input[2..])
    else if short == 127 then
      if |input| < 8 then (false, 0, []) else (true, Value(input[..8]), input[8..])
    else (true, short, input)
  }

  function ReadPayload(masked: bool, fin: bool, opcode: Byte, length: nat, input: seq<Byte>): (r: Reading)
    ensures r.Got? ==> |r.rest| <= |input|
  {
    if masked && |input| < 4 then Fails(Eof, [])
    else
      var body := if masked then input[4..] else input;
      if |body| < length then Fails(Eof, [])
      else
        var payload := body[..length];
        Got(Frame(fin, opcode,
                  if masked then Masked(payload, Mask(input[0], input[1], input[2], input[3])) else payload),
            body[length..])
  }

  /** What follows the two fixed bytes. */
  function ReadBody(maxBytes: nat, masked: bool, fin: bool, opcode: Byte, short: nat, input: seq<Byte>): (r: Reading)
    ensures r.Got? ==> |r.rest| <= |input|
  {
    var (ok, length, after) := ReadLength(short, input);
    if !ok then Fails(Eof, after)
    else if short == 127 && length >= TWO_TO_THE_63 then Fails(BadLength, after)
    else if opcode >= 0x8 && (!fin || length > 125) then Fails(BadControl, after)
    else if length > maxBytes then Fails(TooLong, after)
    else ReadPayload(masked, fin, opcode, length, after)
  }

  function ReadFrame(end: End, input: seq<Byte>): (r: Reading)
    ensures r.Got? ==> |r.rest| < |input|
  {
    if |input| < 2 then Fails(Eof, [])
    else
      var first, second, rest := input[0], input[1], input[2..];
      var fin, opcode, masked := first & 0x80 != 0, first & 0x0f, second & 0x80 != 0;
      if first & 0x70 != 0 then Fails(ReservedBits, rest)
      else if end.client && masked then Fails(MaskedByServer, rest)
      else if !end.client && !masked then Fails(UnmaskedByClient, rest)
      else ReadBody(end.maxBytes, masked, fin, opcode, (second & 0x7f) as nat, rest)
  }

  // ---------------------------------------------------------------- frames survive the wire

  lemma FirstByte(fin: bool, opcode: Byte)
    ensures var first := if fin then opcode | 0x80 else opcode;
            && (first & 0x70 == 0 <==> opcode & 0x70 == 0)
            && (opcode < 16 ==> first & 0x70 == 0 && first & 0x0f == opcode && (first & 0x80 != 0 <==> fin))
    ensures opcode < 16 <==> opcode & 0x70 == 0 && opcode < 128
  {
  }

  lemma SecondByte(maskBit: Byte, short: Byte)
    requires short < 128 && (maskBit == 0x80 || maskBit == 0)
    ensures (maskBit | short) & 0x7f == short
    ensures (maskBit | short) & 0x80 == maskBit
  {
  }

  lemma ShortLength(n: nat)
    requires n < 128
    ensures (n as Byte) < 128 && (n as Byte) as nat == n
  {
    ByteBack(n);
    SmallByte(n as Byte);
  }

  lemma SmallByte(b: Byte)
    requires b as int < 128
    ensures b < 128
  {
  }

  lemma ExtendedReadBack(n: nat, width: nat, after: seq<Byte>)
    requires width == 2 || width == 8
    requires n < if width == 2 then 0x1_0000 else TWO_TO_THE_63
    ensures ReadLength(if width == 2 then 126 else 127, BigEndian(n, width) + after) == (true, n, after)
  {
    hide BigEndian, Value;
    assert Power(2) == 0x1_0000 && Power(8) == 0x1_0000_0000_0000_0000;
    ValueOfBigEndian(n, width);
    var input := BigEndian(n, width) + after;
    assert input[..width] == BigEndian(n, width) && input[width..] == after;
  }

  lemma LengthReadBack(maskBit: Byte, n: nat, after: seq<Byte>)
    requires n < TWO_TO_THE_63 && (maskBit == 0x80 || maskBit == 0)
    ensures var field := LengthField(maskBit, n);
            && field[0] & 0x80 == maskBit
            && ReadLength((field[0] & 0x7f) as nat, field[1..] + after) == (true, n, after)
  {
    hide BigEndian, Value, ReadLength;
    var short: nat := if n < 126 then n else if n <= 0xffff then 126 else 127;
    ShortLength(short);
    SecondByte(maskBit, short as Byte);
    if n < 126 {
      assert LengthField(maskBit, n)[1..] + after == after;
      ShortReadBack(n, after);
    } else {
      var width := if n <= 0xffff then 2 else 8;
      assert LengthField(maskBit, n)[1..] == BigEndian(n, width);
      ExtendedReadBack(n, width, after);
    }
  }

  lemma ShortReadBack(n: nat, after: seq<Byte>)
    requires n < 126
    ensures ReadLength(n, after) == (true, n, after)
  {
  }

  lemma PayloadReadBack(masked: bool, fin: bool, opcode: Byte, payload: seq<Byte>, mask: Mask, suffix: seq<Byte>)
    ensures var body := if masked then mask.Bytes() + Masked(payload, mask) else payload;
            ReadPayload(masked, fin, opcode, |payload|, body + suffix) == Got(Frame(fin, opcode, payload), suffix)
  {
    hide Masked;
    if masked {
      var body := mask.Bytes() + Masked(payload, mask);
      MaskTwice(payload, mask);
      assert (body + suffix)[4..] == Masked(payload, mask) + suffix;
      assert (Masked(payload, mask) + suffix)[..|payload|] == Masked(payload, mask);
      assert (Masked(payload, mask) + suffix)[|payload|..] == suffix;
    } else {
      assert (payload + suffix)[..|payload|] == payload;
      assert (payload + suffix)[|payload|..] == suffix;
    }
  }

  predicate Control(opcode: Byte) {
    opcode >= 0x8
  }

  /** What one end may send the other: a four-bit opcode, control frames whole and short, and no more
      bytes than the reader takes. */
  predicate Sendable(f: Frame, maxBytes: nat) {
    f.opcode < 16 && (Control(f.opcode) ==> f.fin && |f.payload| <= 125) && |f.payload| <= maxBytes
  }

  /** Why a reader refuses a written frame. */
  function Refusal(f: Frame, maxBytes: nat): Fault
    requires f.opcode < 16 && !Sendable(f, maxBytes)
  {
    if Control(f.opcode) && (!f.fin || |f.payload| > 125) then BadControl else TooLong
  }

  lemma HeaderReadBack(end: End, f: Frame, mask: Mask, suffix: seq<Byte>)
    requires |f.payload| < TWO_TO_THE_63
    ensures var body := (if end.client then f.payload else mask.Bytes() + Masked(f.payload, mask)) + suffix;
            var input := WriteFrame(!end.client, f, mask) + suffix;
            && |input| >= 2
            && input[0] == (if f.fin then f.opcode | 0x80 else f.opcode)
            && (input[1] & 0x80 != 0 <==> !end.client)
            && ReadLength((input[1] & 0x7f) as nat, input[2..]) == (true, |f.payload|, body)
  {
    hide LengthField, ReadLength, Masked;
    var maskBit: Byte := if end.client then 0 else 0x80;
    var body := (if end.client then f.payload else mask.Bytes() + Masked(f.payload, mask)) + suffix;
    var input := WriteFrame(!end.client, f, mask) + suffix;
    LengthReadBack(maskBit, |f.payload|, body);
    var field := LengthField(maskBit, |f.payload|);
    assert input == [input[0]] + field + body;
    assert input[1] == field[0] && input[2..] == field[1..] + body;
  }

  /** The peer reads back exactly the frame that was written, and stops exactly where it ended, if and
      only if the frame may be sent; otherwise it says why not. All three length forms, both roles. */
  lemma FrameRoundTrip(end: End, f: Frame, mask: Mask, suffix: seq<Byte>)
    requires |f.payload| < TWO_TO_THE_63
    ensures var r := ReadFrame(end, WriteFrame(!end.client, f, mask) + suffix);
            && (r == Got(f, suffix) <==> Sendable(f, end.maxBytes))
            && (f.opcode < 16 && !Sendable(f, end.maxBytes) ==> r.Fails? && r.fault == Refusal(f, end.maxBytes))
            && (f.opcode & 0x70 != 0 ==> r.Fails? && r.fault == ReservedBits)
  {
    hide WriteFrame, ReadLength, ReadPayload, Masked;
    HeaderReadBack(end, f, mask, suffix);
    FirstByte(f.fin, f.opcode);
    PayloadReadBack(!end.client, f.fin, f.opcode, f.payload, mask, suffix);
    ReadFrameSound(end, WriteFrame(!end.client, f, mask) + suffix);
  }

  /** Whatever bytes arrive: a frame that is accepted keeps the limits and is followed by the rest. */
  lemma ReadFrameSound(end: End, input: seq<Byte>)
    ensures var r := ReadFrame(end, input);
            r.Got? ==>
              && Sendable(r.frame, end.maxBytes)
              && |r.rest| < |input| && input[|input| - |r.rest|..] == r.rest
  {
    hide ReadLength, ReadPayload;
    if ReadFrame(end, input).Got? {
      var short := (input[1] & 0x7f) as nat;
      var masked, after := input[1] & 0x80 != 0, ReadLength(short, input[2..]).2;
      assert input[0] & 0x0f < 16;
      LengthSuffix(short, input[2..]);
      PayloadSuffix(masked, input[0] & 0x80 != 0, input[0] & 0x0f, ReadLength(short, input[2..]).1, after);
    }
  }

  lemma LengthSuffix(short: nat, input: seq<Byte>)
    ensures var r := ReadLength(short, input); r.0 ==> |r.2| <= |input| && input[|input| - |r.2|..] == r.2
  {
  }

  lemma PayloadSuffix(masked: bool, fin: bool, opcode: Byte, length: nat, input: seq<Byte>)
    ensures var r := ReadPayload(masked, fin, opcode, length, input);
            r.Got? ==>
              && r.frame.fin == fin && r.frame.opcode == opcode && |r.frame.payload| == length
              && |r.rest| <= |input| && input[|input| - |r.rest|..] == r.rest
  {
  }

  /** Two ends of one role never understand each other. */
  lemma SameRoleRefused(end: End, f: Frame, mask: Mask, suffix: seq<Byte>)
    requires f.opcode & 0x70 == 0
    ensures var r := ReadFrame(end, WriteFrame(end.client, f, mask) + suffix);
            r.Fails? && r.fault == if end.client then MaskedByServer else UnmaskedByClient
  {
  }

  // ---------------------------------------------------------------- the layout of section 5.2

  /** The bytes of the extended length that the second byte announces. */
  function Width(second: Byte): nat {
    if second & 0x7f == 126 then 2 else if second & 0x7f == 127 then 8 else 0
  }

  /** How many bytes stand before the payload. */
  function HeaderSize(width: nat, masked: bool): nat {
    2 + width + if masked then 4 else 0
  }

  /** The payload stands there, behind its four-byte key if it is masked: each byte of it is then the one on
      the wire combined with the key byte of its position. */
  ghost predicate Carries(bytes: seq<Byte>, start: nat, payload: seq<Byte>, masked: bool) {
    && |bytes| >= start + (if masked then 4 else 0) + |payload|
    && forall k :: 0 <= k < |payload| ==>
         payload[k] == if masked then bytes[start + 4 + k] ^ bytes[start + k % 4] else bytes[start + k]
  }

  /** A frame as the standard lays it out, byte by byte, under a length of the given width. */
  ghost predicate LaidOut(bytes: seq<Byte>, f: Frame, masked: bool, width: nat) {
    var header := HeaderSize(width, masked);
    && |bytes| == header + |f.payload|
    && bytes[0] as int == (if f.fin then 128 else 0) + f.opcode as int && f.opcode as int < 16
    && bytes[1] as int ==
       (if masked then 128 else 0) + (if width == 0 then |f.payload| else if width == 2 then 126 else 127)
    && (width == 0 ==> |f.payload| < 126)
    && (width > 0 ==> (width == 2 || width == 8) && Value(bytes[2..2 + width]) == |f.payload|)
    && Carries(bytes, 2 + width, f.payload, masked)
  }

  /** Why the bytes are not a frame for this end, told by their positions; `None` if they start with one. */
  function Diagnosis(end: End, input: seq<Byte>): Option<Fault> {
    if |input| < 2 then Some(Eof)
    else if input[0] & 0x70 != 0 then Some(ReservedBits)
    else if end.client && input[1] >= 0x80 then Some(MaskedByServer)
    else if !end.client && input[1] < 0x80 then Some(UnmaskedByClient)
    else
      var width := Width(input[1]);
      if |input| < 2 + width then Some(Eof)
      else
        var length := if width == 0 then (input[1] & 0x7f) as nat else Value(input[2..2 + width]);
        if width == 8 && input[2] >= 0x80 then Some(BadLength)
        else if input[0] & 0x0f >= 8 && (input[0] < 0x80 || length > 125) then Some(BadControl)
        else if length > end.maxBytes then Some(TooLong)
        else if |input| < HeaderSize(width, !end.client) + length then Some(Eof)
        else None
  }

  lemma ShiftedIn(first: nat, power: nat, rest: nat, last: nat)
    requires rest < power && last < 256
    ensures (first * power + rest) * 256 + last == first * (256 * power) + (rest * 256 + last)
    ensures rest * 256 + last < 256 * power
  {
  }

  lemma {:induction false} ValueHead(bytes: seq<Byte>)
    requires bytes != []
    ensures Value(bytes) == bytes[0] as nat * Power(|bytes| - 1) + Value(bytes[1..])
    ensures Value(bytes[1..]) < Power(|bytes| - 1)
  {
    hide Value;
    var init, last := bytes[..|bytes| - 1], bytes[|bytes| - 1];
    assert bytes == init + [last];
    ValueSnoc(init, last);
    ByteSmall(last);
    if init == [] {
      assert bytes[1..] == [];
      ValueOfNothing();
    } else {
      ValueHead(init);
      assert bytes[1..] == init[1..] + [last];
      ValueSnoc(init[1..], last);
      ShiftedIn(bytes[0] as nat, Power(|init| - 1), Value(init[1..]), last as nat);
    }
  }

  lemma ByteSmall(b: Byte)
    ensures 0 <= b as int < 256
  {
  }

  lemma TopBit(bytes: seq<Byte>)
    requires |bytes| == 8
    ensures Value(bytes) >= TWO_TO_THE_63 <==> bytes[0] >= 0x80
  {
    hide Value;
    ValueHead(bytes);
    assert Power(7) == 0x100_0000_0000_0000;
  }

  lemma Bits(b: Byte)
    ensures b & 0x80 != 0 <==> b >= 0x80
    ensures b & 0x70 == 0 ==> b as int == (if b >= 0x80 then 128 else 0) + (b & 0x0f) as int
    ensures b as int == (if b >= 0x80 then 128 else 0) + (b & 0x7f) as int
    ensures (b & 0x0f) as int < 16
  {
    HighAndLow(b);
  }

  lemma HighAndLow(b: Byte)
    ensures b & 0x80 != 0 <==> b >= 0x80
    ensures b >= 0x80 ==> b == 0x80 + (b & 0x7f)
    ensures b < 0x80 ==> b == b & 0x7f
    ensures b & 0x70 == 0 ==> b & 0x7f == b & 0x0f
    ensures b & 0x7f < 0x80 && b & 0x0f < 0x10
  {
  }

  lemma Keyed(mask: Mask, k: nat)
    ensures mask.At(k) == mask.Bytes()[k % 4]
  {
  }

  lemma Announces(second: Byte)
    ensures var short := (second & 0x7f) as nat;
            && short < 128 && (short == 126 <==> Width(second) == 2) && (short == 127 <==> Width(second) == 8)
            && (Width(second) == 0 || Width(second) == 2 || Width(second) == 8)
  {
    HighAndLow(second);
    SmallBits(second & 0x7f);
  }

  lemma SmallBits(b: Byte)
    requires b < 0x80
    ensures b as int < 128 && (b as int == 126 <==> b == 126) && (b as int == 127 <==> b == 127)
  {
  }

  lemma LengthAt(input: seq<Byte>)
    requires |input| >= 2
    ensures var width := Width(input[1]);
            ReadLength((input[1] & 0x7f) as nat, input[2..]) ==
            if |input| < 2 + width then (false, 0, [])
            else (true, if width == 0 then (input[1] & 0x7f) as nat else Value(input[2..2 + width]), input[2 + width..])
  {
    hide Value, Width;
    Announces(input[1]);
    var width := Width(input[1]);
    if |input| >= 2 + width {
      assert input[2..][..width] == input[2..2 + width] && input[2..][width..] == input[2 + width..];
    }
  }

  /** Reading a payload from some position on. */
  lemma PayloadAt(masked: bool, fin: bool, opcode: Byte, length: nat, input: seq<Byte>, start: nat)
    requires start <= |input|
    ensures var r := ReadPayload(masked, fin, opcode, length, input[start..]);
            var end := start + (if masked then 4 else 0) + length;
            && (r.Got? <==> |input| >= end)
            && (r.Fails? ==> r.fault == Eof)
            && (r.Got? ==>
                  && r.frame.fin == fin && r.frame.opcode == opcode && |r.frame.payload| == length
                  && r.rest == input[end..] && Carries(input, start, r.frame.payload, masked))
  {
    var rest := input[start..];
    if masked && |rest| >= 4 + length {
      assert rest[4..][length..] == input[start + 4 + length..];
      var mask := Mask(rest[0], rest[1], rest[2], rest[3]);
      var payload := Masked(rest[4..][..length], mask);
      forall k | 0 <= k < length ensures payload[k] == input[start + 4 + k] ^ input[start + k % 4] {
        Keyed(mask, k);
        assert mask.Bytes()[k % 4] == rest[k % 4];
      }
    } else if !masked && |rest| >= length {
      assert rest[length..] == input[start + length..];
    }
  }

  lemma CarriesAlike(input: seq<Byte>, bytes: seq<Byte>, start: nat, payload: seq<Byte>, masked: bool)
    requires bytes <= input && |bytes| >= start + (if masked then 4 else 0) + |payload|
    requires Carries(input, start, payload, masked)
    ensures Carries(bytes, start, payload, masked)
  {
    assert forall k :: 0 <= k < |bytes| ==> bytes[k] == input[k];
  }

  /** Whatever bytes arrive: they are taken for a frame exactly if nothing is wrong with them, then they are laid
      out as one and the rest follows; otherwise the fault is the first in the order of the header. */
  lemma ReadsExactly(end: End, input: seq<Byte>)
    ensures var r := ReadFrame(end, input);
            && (r.Got? <==> Diagnosis(end, input).None?)
            && (r.Fails? ==> Diagnosis(end, input) == Some(r.fault))
            && (r.Got? ==>
                  var masked := !end.client;
                  var size := HeaderSize(Width(input[1]), masked) + |r.frame.payload|;
                  && |input| >= size && LaidOut(input[..size], r.frame, masked, Width(input[1]))
                  && r.rest == input[size..])
  {
    hide LaidOut, ReadBody;
    if |input| >= 2 {
      Bits(input[0]);
      Bits(input[1]);
      if input[1] >= 0x80 <==> !end.client {
        BodyExactly(end, input);
      }
      if ReadFrame(end, input).Got? {
        GotLaidOut(end, input);
      }
    }
  }

  /** The checks behind the two fixed bytes, by position. */
  lemma BodyExactly(end: End, input: seq<Byte>)
    requires |input| >= 2 && (input[1] >= 0x80 <==> !end.client)
    ensures var r := ReadBody(end.maxBytes, !end.client, input[0] & 0x80 != 0, input[0] & 0x0f, (input[1] & 0x7f) as nat,
                              input[2..]);
            var width := Width(input[1]);
            if |input| < 2 + width then r.Fails? && r.fault == Eof
            else
              var length := if width == 0 then (input[1] & 0x7f) as nat else Value(input[2..2 + width]);
              if width == 8 && input[2] >= 0x80 then r.Fails? && r.fault == BadLength
              else if input[0] & 0x0f >= 8 && (input[0] < 0x80 || length > 125) then r.Fails? && r.fault == BadControl
              else if length > end.maxBytes then r.Fails? && r.fault == TooLong
              else if |input| < HeaderSize(width, !end.client) + length then r.Fails? && r.fault == Eof
              else
                && r.Got?
                && r == ReadPayload(!end.client, input[0] & 0x80 != 0, input[0] & 0x0f, length, input[2 + width..])
                && (width == 0 ==> length < 126)
  {
    hide Value, ReadLength, ReadPayload, Width, Carries;
    Announces(input[1]);
    LengthAt(input);
    Bits(input[0]);
    var width := Width(input[1]);
    if |input| >= 2 + width {
      var length := if width == 0 then (input[1] & 0x7f) as nat else Value(input[2..2 + width]);
      PayloadAt(!end.client, input[0] & 0x80 != 0, input[0] & 0x0f, length, input, 2 + width);
      if width == 8 {
        TopBit(input[2..10]);
      } else if width == 2 {
        SmallValue(input[2..4]);
      }
    }
  }

  lemma SmallValue(bytes: seq<Byte>)
    requires |bytes| == 2
    ensures Value(bytes) < TWO_TO_THE_63
  {
    hide Value;
    ValueHead(bytes);
    ByteSmall(bytes[0]);
    assert Power(1) == 256;
  }

  lemma FrameIsBody(end: End, input: seq<Byte>)
    requires ReadFrame(end, input).Got?
    ensures |input| >= 2 && input[0] & 0x70 == 0 && (input[1] >= 0x80 <==> !end.client)
    ensures ReadFrame(end, input) ==
            ReadBody(end.maxBytes, !end.client, input[0] & 0x80 != 0, input[0] & 0x0f, (input[1] & 0x7f) as nat, input[2..])
  {
    hide ReadBody;
    Bits(input[1]);
  }

  /** The two fixed bytes as numbers. */
  lemma FixedBytes(input: seq<Byte>, masked: bool, length: nat)
    requires |input| >= 2 && input[0] & 0x70 == 0 && (input[1] >= 0x80 <==> masked)
    requires Width(input[1]) == 0 ==> length == (input[1] & 0x7f) as nat
    ensures input[0] as int == (if input[0] & 0x80 != 0 then 128 else 0) + (input[0] & 0x0f) as int
    ensures (input[0] & 0x0f) as int < 16
    ensures input[1] as int == (if masked then 128 else 0)
            + (if Width(input[1]) == 0 then length else if Width(input[1]) == 2 then 126 else 127)
  {
    hide Width;
    Bits(input[0]);
    Bits(input[1]);
    Announces(input[1]);
  }

  lemma Assembled(input: seq<Byte>, f: Frame, masked: bool, width: nat)
    requires width == 0 || width == 2 || width == 8
    requires |input| >= HeaderSize(width, masked) + |f.payload|
    requires input[0] as int == (if f.fin then 128 else 0) + f.opcode as int && f.opcode as int < 16
    requires input[1] as int ==
             (if masked then 128 else 0) + (if width == 0 then |f.payload| else if width == 2 then 126 else 127)
    requires width == 0 ==> |f.payload| < 126
    requires width > 0 ==> Value(input[2..2 + width]) == |f.payload|
    requires Carries(input, 2 + width, f.payload, masked)
    ensures LaidOut(input[..HeaderSize(width, masked) + |f.payload|], f, masked, width)
  {
    hide Value, Carries;
    var bytes := input[..HeaderSize(width, masked) + |f.payload|];
    CarriesAlike(input, bytes, 2 + width, f.payload, masked);
    assert width > 0 ==> bytes[2..2 + width] == input[2..2 + width];
  }

  /** A body that is accepted is its payload, read from behind the extended length. */
  lemma BodyGot(maxBytes: nat, masked: bool, fin: bool, opcode: Byte, input: seq<Byte>)
    requires |input| >= 2 && ReadBody(maxBytes, masked, fin, opcode, (input[1] & 0x7f) as nat, input[2..]).Got?
    ensures var r := ReadBody(maxBytes, masked, fin, opcode, (input[1] & 0x7f) as nat, input[2..]);
            var width, length := Width(input[1]), |r.frame.payload|;
            && |input| >= HeaderSize(width, masked) + length
            && (if width == 0 then length < 126 && length == (input[1] & 0x7f) as nat else Value(input[2..2 + width]) == length)
            && r.frame.fin == fin && r.frame.opcode == opcode
            && Carries(input, 2 + width, r.frame.payload, masked) && r.rest == input[HeaderSize(width, masked) + length..]
  {
    hide Value, ReadLength, ReadPayload, Width, Carries;
    Announces(input[1]);
    LengthAt(input);
    var width := Width(input[1]);
    var length := if width == 0 then (input[1] & 0x7f) as nat else Value(input[2..2 + width]);
    PayloadAt(masked, fin, opcode, length, input, 2 + width);
  }

  lemma GotLaidOut(end: End, input: seq<Byte>)
    requires ReadFrame(end, input).Got?
    ensures var f, masked, width := ReadFrame(end, input).frame, !end.client, Width(input[1]);
            var size := HeaderSize(width, masked) + |f.payload|;
            && |input| >= size && LaidOut(input[..size], f, masked, width) && ReadFrame(end, input).rest == input[size..]
  {
    hide Value, ReadLength, ReadPayload, ReadBody, ReadFrame, Width, Carries, LaidOut;
    FrameIsBody(end, input);
    Announces(input[1]);
    BodyGot(end.maxBytes, !end.client, input[0] & 0x80 != 0, input[0] & 0x0f, input);
    var f := ReadFrame(end, input).frame;
    FixedBytes(input, !end.client, |f.payload|);
    Assembled(input, f, !end.client, Width(input[1]));
  }

  lemma XorBack(x: Byte, y: Byte)
    ensures (x ^ y) ^ y == x
  {
  }

  lemma FirstWritten(fin: bool, opcode: Byte)
    requires opcode < 16
    ensures (if fin then opcode | 0x80 else opcode) as int == (if fin then 128 else 0) + opcode as int
    ensures opcode as int < 16
  {
    OrIsPlus(0x80, opcode);
  }

  lemma FieldLaidOut(maskBit: Byte, n: nat)
    requires n < TWO_TO_THE_63 && (maskBit == 0x80 || maskBit == 0)
    ensures var width := if n < 126 then 0 else if n < 0x1_0000 then 2 else 8;
            var field := LengthField(maskBit, n);
            && |field| == 1 + width
            && field[0] as int ==
               (if maskBit == 0x80 then 128 else 0) + (if width == 0 then n else if width == 2 then 126 else 127)
            && (width > 0 ==> Value(field[1..]) == n)
  {
    hide BigEndian, Value;
    var width := if n < 126 then 0 else if n < 0x1_0000 then 2 else 8;
    var short: nat := if width == 0 then n else if width == 2 then 126 else 127;
    ShortLength(short);
    OrIsPlus(maskBit, short as Byte);
    if width > 0 {
      assert Power(2) == 0x1_0000 && Power(8) == 0x1_0000_0000_0000_0000;
      ValueOfBigEndian(n, width);
      assert LengthField(maskBit, n)[1..] == BigEndian(n, width);
    }
  }

  lemma Placed(first: Byte, field: seq<Byte>, key: seq<Byte>, body: seq<Byte>)
    requires field != []
    ensures var bytes, start := [first] + field + key + body, 1 + |field|;
            && |bytes| == start + |key| + |body|
            && bytes[0] == first && bytes[1] == field[0] && bytes[2..start] == field[1..]
            && bytes[start..start + |key|] == key
            && forall k :: 0 <= k < |body| ==> bytes[start + |key| + k] == body[k]
  {
  }

  /** What is written, in its four parts. */
  lemma WrittenParts(client: bool, f: Frame, mask: Mask)
    ensures WriteFrame(client, f, mask) ==
            [if f.fin then f.opcode | 0x80 else f.opcode] + LengthField(if client then 0x80 else 0, |f.payload|)
            + (if client then mask.Bytes() else []) + if client then Masked(f.payload, mask) else f.payload
  {
    hide LengthField, Masked;
  }

  lemma MaskedAt(payload: seq<Byte>, mask: Mask)
    ensures forall k :: 0 <= k < |payload| ==> Masked(payload, mask)[k] == payload[k] ^ mask.At(k)
  {
  }

  lemma PartsLaidOut(first: Byte, field: seq<Byte>, key: seq<Byte>, body: seq<Byte>, f: Frame, masked: bool, mask: Mask,
                     width: nat)
    requires width == 0 || width == 2 || width == 8
    requires |field| == 1 + width && key == (if masked then mask.Bytes() else []) && |body| == |f.payload|
    requires first as int == (if f.fin then 128 else 0) + f.opcode as int && f.opcode as int < 16
    requires field[0] as int ==
             (if masked then 128 else 0) + (if width == 0 then |f.payload| else if width == 2 then 126 else 127)
    requires if width == 0 then |f.payload| < 126 else Value(field[1..]) == |f.payload|
    requires forall k :: 0 <= k < |body| ==> body[k] == if masked then f.payload[k] ^ mask.At(k) else f.payload[k]
    ensures LaidOut([first] + field + key + body, f, masked, width)
    ensures masked ==> ([first] + field + key + body)[2 + width..6 + width] == mask.Bytes()
  {
    hide Value, Carries;
    Placed(first, field, key, body);
    WrittenCarries([first] + field + key + body, 2 + width, f.payload, masked, mask);
  }

  /** What is written is laid out so, under the shortest length, masked exactly by a client, under its key. */
  lemma WritesLaidOut(client: bool, f: Frame, mask: Mask)
    requires f.opcode < 16 && |f.payload| < TWO_TO_THE_63
    ensures var width := if |f.payload| < 126 then 0 else if |f.payload| < 0x1_0000 then 2 else 8;
            var bytes := WriteFrame(client, f, mask);
            && LaidOut(bytes, f, client, width)
            && (client ==> bytes[2 + width..6 + width] == mask.Bytes())
  {
    hide LengthField, Value, WriteFrame, LaidOut, Masked;
    var n := |f.payload|;
    var width := if n < 126 then 0 else if n < 0x1_0000 then 2 else 8;
    var maskBit: Byte := if client then 0x80 else 0;
    FieldLaidOut(maskBit, n);
    FirstWritten(f.fin, f.opcode);
    WrittenParts(client, f, mask);
    var first := if f.fin then f.opcode | 0x80 else f.opcode;
    var key, body := if client then mask.Bytes() else [], if client then Masked(f.payload, mask) else f.payload;
    MaskedAt(f.payload, mask);
    PartsLaidOut(first, LengthField(maskBit, n), key, body, f, client, mask, width);
  }

  lemma WrittenCarries(bytes: seq<Byte>, start: nat, payload: seq<Byte>, masked: bool, mask: Mask)
    requires |bytes| == start + (if masked then 4 else 0) + |payload|
    requires masked ==> bytes[start..start + 4] == mask.Bytes()
    requires forall k :: 0 <= k < |payload| ==>
               bytes[start + (if masked then 4 else 0) + k] == if masked then payload[k] ^ mask.At(k) else payload[k]
    ensures Carries(bytes, start, payload, masked)
  {
    if masked {
      forall k | 0 <= k < |payload| ensures payload[k] == bytes[start + 4 + k] ^ bytes[start + k % 4] {
        Keyed(mask, k);
        assert bytes[start..start + 4][k % 4] == bytes[start + k % 4];
        assert bytes[start + 4 + k] == payload[k] ^ mask.At(k);
        XorBack(payload[k], mask.At(k));
      }
    }
  }

  lemma OrIsPlus(high: Byte, low: Byte)
    requires (high == 0x80 || high == 0) && low < 0x80
    ensures (high | low) as int == (if high == 0x80 then 128 else 0) + low as int
    ensures low | high == high | low
  {
    OrIsSum(high, low);
    SmallBits(low);
  }

  lemma OrIsSum(high: Byte, low: Byte)
    requires (high == 0x80 || high == 0) && low < 0x80
    ensures high | low == high + low && low | high == high | low
  {
  }

  // ---------------------------------------------------------------- one message

  /** `input` is all that will ever arrive, `output` all that was written. `masks` stands for the random
      source: the k-th mask it will be asked for. */
  datatype State = State(input: seq<Byte>, output: seq<Byte>, drawn: nat)

  datatype Failure =
    | FrameFailed(fault: Fault)
    | PeerClosed
    | BinaryUnsupported
    | TextWithinMessage
    | StrayContinuation
    | MessageTooLong
    | UnsupportedOpcode

  datatype Result = Message(text: seq<Byte>) | Failed(failure: Failure)

  datatype Outcome = Outcome(result: Result, state: State)

  function Send(end: End, masks: nat -> Mask, s: State, f: Frame): State {
    s.(output := s.output + WriteFrame(end.client, f, masks(s.drawn)),
       drawn := if end.client then s.drawn + 1 else s.drawn)
  }

  /** What the frames still to come make of the message read so far. */
  function ReadMessage(end: End, masks: nat -> Mask, s: State, message: seq<Byte>, fragmented: bool): Outcome
    decreases |s.input|
  {
    match ReadFrame(end, s.input)
    case Fails(fault, rest) => Outcome(Failed(FrameFailed(fault)), s.(input := rest))
    case Got(f, rest) =>
      var t := s.(input := rest);
      if f.opcode == PING then ReadMessage(end, masks, Send(end, masks, t, Frame(true, PONG, f.payload)), message, fragmented)
      else if f.opcode == PONG then ReadMessage(end, masks, t, message, fragmented)
      else if f.opcode == CLOSE then Outcome(Failed(PeerClosed), Send(end, masks, t, Frame(true, CLOSE, f.payload)))
      else if f.opcode == BINARY then Outcome(Failed(BinaryUnsupported), t)
      else if f.opcode != TEXT && f.opcode != CONTINUATION then Outcome(Failed(UnsupportedOpcode), t)
      else if fragmented && f.opcode == TEXT then Outcome(Failed(TextWithinMessage), t)
      else if !fragmented && f.opcode == CONTINUATION then Outcome(Failed(StrayContinuation), t)
      else if |message| + |f.payload| > end.maxBytes then Outcome(Failed(MessageTooLong), t)
      else if f.fin then Outcome(Message(message + f.payload), t)
      else ReadMessage(end, masks, t, message + f.payload, true)
  }

  function ReadText(end: End, masks: nat -> Mask, s: State): Outcome {
    ReadMessage(end, masks, s, [], false)
  }

  class Conn {
    const client: bool
    const masks: nat -> Mask
    var maxBytes: nat
    var input: seq<Byte>
    var output: seq<Byte>
    var drawn: nat

    constructor (client: bool, masks: nat -> Mask, input: seq<Byte>)
      ensures this.client == client && this.masks == masks
      ensures Abs() == State(input, [], 0) && maxBytes == 0x10_0000
    {
      this.client, this.masks, this.input, output, drawn := client, masks, input, [], 0;
      maxBytes := 0x10_0000;
    }

    function Abs(): State
      reads this
    {
      State(input, output, drawn)
    }

    function Side(): End
      reads this
    {
      End(client, maxBytes)
    }

    method SetMaxMessageBytes(limit: int)
      modifies this`maxBytes
      ensures maxBytes == if limit > 0 then limit else old(maxBytes)
    {
      if limit > 0 {
        maxBytes := limit;
      }
    }

    /** As many bytes as asked for, or what was left of them. */
    method ReadFull(n: nat) returns (ok: bool, bytes: seq<Byte>)
      modifies this`input
      ensures ok == (|old(input)| >= n)
      ensures ok ==> bytes == old(input)[..n] && input == old(input)[n..]
      ensures !ok ==> input == []
    {
      if |input| < n {
        input := [];
        return false, [];
      }
      bytes, input := input[..n], input[n..];
      return true, bytes;
    }

    method ReceiveLength(short: nat) returns (ok: bool, length: nat)
      modifies this`input
      ensures (ok, length, input) == ReadLength(short, old(input))
    {
      ok, length := true, short;
      if short == 126 || short == 127 {
        var raw;
        ok, raw := ReadFull(if short == 126 then 2 else 8);
        length := if ok then Value(raw) else 0;
      }
    }

    method ReceivePayload(masked: bool, fin: bool, opcode: Byte, length: nat) returns (r: Reading)
      modifies this`input
      ensures r == ReadPayload(masked, fin, opcode, length, old(input)) && input == r.rest
    {
      var mask := Mask(0, 0, 0, 0);
      if masked {
        var ok, raw := ReadFull(4);
        if !ok { return Fails(Eof, input); }
        mask := Mask(raw[0], raw[1], raw[2], raw[3]);
      }
      var ok, payload := ReadFull(length);
      if !ok { return Fails(Eof, input); }
      if masked {
        var buffer := new Byte[length](i requires 0 <= i < length => payload[i]);
        assert buffer[..] == payload;
        ApplyMask(buffer, mask);
        payload := buffer[..];
      }
      return Got(Frame(fin, opcode, payload), input);
    }

    method Receive() returns (r: Reading)
      modifies this`input
      ensures r == ReadFrame(Side(), old(input)) && input == r.rest
    {
      hide ReadBody;
      var ok, header := ReadFull(2);
      if !ok { return Fails(Eof, input); }
      if header[0] & 0x70 != 0 { return Fails(ReservedBits, input); }
      var fin := header[0] & 0x80 != 0;
      var opcode := header[0] & 0x0f;
      var masked := header[1] & 0x80 != 0;
      if client && masked { return Fails(MaskedByServer, input); }
      if !client && !masked { return Fails(UnmaskedByClient, input); }
      r := ReceiveBody(masked, fin, opcode, (header[1] & 0x7f) as nat);
    }

    method ReceiveBody(masked: bool, fin: bool, opcode: Byte, short: nat) returns (r: Reading)
      modifies this`input
      ensures r == ReadBody(maxBytes, masked, fin, opcode, short, old(input)) && input == r.rest
    {
      hide ReadPayload, ReadLength;
      var ok, length := ReceiveLength(short);
      if !ok { return Fails(Eof, input); }
      if short == 127 && length >= TWO_TO_THE_63 { return Fails(BadLength, input); }
      if opcode >= 0x8 && (!fin || length > 125) { return Fails(BadControl, input); }
      if length > maxBytes { return Fails(TooLong, input); }
      r := ReceivePayload(masked, fin, opcode, length);
    }

    method Transmit(f: Frame)
      modifies this`output, this`drawn
      ensures Abs() == Send(Side(), masks, old(Abs()), f)
    {
      var bytes := [if f.fin then f.opcode | 0x80 else f.opcode] + LengthField(if client then 0x80 else 0, |f.payload|);
      if client {
        var mask := masks(drawn);
        drawn := drawn + 1;
        var copy := new Byte[|f.payload|](i requires 0 <= i < |f.payload| => f.payload[i]);
        assert copy[..] == f.payload;
        ApplyMask(copy, mask);
        bytes := bytes + (mask.Bytes() + copy[..]);
      } else {
        bytes := bytes + f.payload;
      }
      output := output + bytes;
    }

    /** The loop over incoming frames. */
    method Read() returns (result: Result)
      modifies this
      ensures Outcome(result, Abs()) == ReadText(old(Side()), masks, old(Abs())) && Side() == old(Side())
    {
      var message: seq<Byte>, fragmented := [], false;
      while true
        invariant Side() == old(Side())
        invariant ReadMessage(Side(), masks, Abs(), message, fragmented) == ReadText(old(Side()), masks, old(Abs()))
        decreases |input|
      {
        var r := Receive();
        if r.Fails? { return Failed(FrameFailed(r.fault)); }
        var f := r.frame;
        if f.opcode == PING {
          Transmit(Frame(true, PONG, f.payload));
        } else if f.opcode == PONG {
        } else if f.opcode == CLOSE {
          Transmit(Frame(true, CLOSE, f.payload));
          return Failed(PeerClosed);
        } else if f.opcode == BINARY {
          return Failed(BinaryUnsupported);
        } else if f.opcode == TEXT || f.opcode == CONTINUATION {
          if f.opcode == TEXT && fragmented { return Failed(TextWithinMessage); }
          if f.opcode == CONTINUATION && !fragmented { return Failed(StrayContinuation); }
          if |message| + |f.payload| > maxBytes { return Failed(MessageTooLong); }
          message := message + f.payload;
          if f.fin { return Message(message); }
          fragmented := true;
        } else {
          return Failed(UnsupportedOpcode);
        }
      }
    }

    method WriteText(payload: seq<Byte>) returns (ok: bool)
      modifies this`output, this`drawn
      ensures ok == (|payload| <= maxBytes)
      ensures Abs() == if ok then Send(Side(), masks, old(Abs()), Frame(true, TEXT, payload)) else old(Abs())
    {
      if |payload| > maxBytes { return false; }
      Transmit(Frame(true, TEXT, payload));
      return true;
    }
  }

  // ---------------------------------------------------------------- fragments and control frames

  predicate Data(f: Frame) {
    f.opcode == TEXT || f.opcode == CONTINUATION
  }

  /** The frames the bytes hold one after the other, with `rest` behind them. */
  predicate Parses(end: End, input: seq<Byte>, frames: seq<Frame>, rest: seq<Byte>)
    decreases |frames|
  {
    if frames == [] then input == rest
    else
      var r := ReadFrame(end, input);
      r.Got? && r.frame == frames[0] && Parses(end, r.rest, frames[1..], rest)
  }

  /** One text message: a text frame, continuations up to the final one, pings and pongs in between. */
  predicate Whole(frames: seq<Frame>, fragmented: bool)
    decreases |frames|
  {
    && frames != []
    && var f := frames[0];
       if f.opcode == PING || f.opcode == PONG then Whole(frames[1..], fragmented)
       else
         && f.opcode == (if fragmented then CONTINUATION else TEXT)
         && if f.fin then |frames| == 1 else Whole(frames[1..], true)
  }

  function Joined(frames: seq<Frame>): seq<Byte> {
    if frames == [] then [] else (if Data(frames[0]) then frames[0].payload else []) + Joined(frames[1..])
  }

  /** The answers due: a pong for every ping, in order, with its payload. */
  function Pongs(frames: seq<Frame>): seq<Frame> {
    if frames == [] then []
    else (if frames[0].opcode == PING then [Frame(true, PONG, frames[0].payload)] else []) + Pongs(frames[1..])
  }

  function Wire(client: bool, frames: seq<Frame>, masks: nat -> Mask, drawn: nat): seq<Byte> {
    if frames == [] then []
    else WriteFrame(client, frames[0], masks(drawn)) + Wire(client, frames[1..], masks, if client then drawn + 1 else drawn)
  }

  /** The state after the frames were read and their pings answered. */
  function Answered(end: End, masks: nat -> Mask, s: State, frames: seq<Frame>, rest: seq<Byte>): State {
    var pongs := Pongs(frames);
    State(rest, s.output + Wire(end.client, pongs, masks, s.drawn), if end.client then s.drawn + |pongs| else s.drawn)
  }

  lemma WireCons(client: bool, f: Frame, rest: seq<Frame>, masks: nat -> Mask, drawn: nat)
    ensures Wire(client, [f] + rest, masks, drawn) ==
            WriteFrame(client, f, masks(drawn)) + Wire(client, rest, masks, if client then drawn + 1 else drawn)
  {}

  lemma Appended(a: seq<Byte>, b: seq<Byte>, c: seq<Byte>)
    ensures a + b + c == a + (b + c)
  {
  }

  lemma AnswerOne(end: End, masks: nat -> Mask, s: State, frames: seq<Frame>, rest: seq<Byte>, after: seq<Byte>)
    requires frames != []
    ensures var f, t := frames[0], s.(input := after);
            var u := if f.opcode == PING then Send(end, masks, t, Frame(true, PONG, f.payload)) else t;
            Answered(end, masks, u, frames[1..], rest) == Answered(end, masks, s, frames, rest)
  {
    hide WriteFrame, Wire;
    var f := frames[0];
    if f.opcode == PING {
      var pong := Frame(true, PONG, f.payload);
      assert Pongs(frames) == [pong] + Pongs(frames[1..]);
      WireCons(end.client, pong, Pongs(frames[1..]), masks, s.drawn);
      Appended(s.output, WriteFrame(end.client, pong, masks(s.drawn)),
               Wire(end.client, Pongs(frames[1..]), masks, if end.client then s.drawn + 1 else s.drawn));
    } else {
      assert Pongs(frames) == Pongs(frames[1..]);
    }
  }

  /** Whatever frames a message is spread over: they are joined, every ping is answered in order, and
      nothing behind the message is touched, provided the whole fits. */
  lemma {:induction false} FramesAreJoined(end: End, masks: nat -> Mask, s: State, message: seq<Byte>, fragmented: bool,
      frames: seq<Frame>, rest: seq<Byte>)
    requires Parses(end, s.input, frames, rest) && Whole(frames, fragmented)
    requires |message| + |Joined(frames)| <= end.maxBytes
    ensures ReadMessage(end, masks, s, message, fragmented) ==
            Outcome(Message(message + Joined(frames)), Answered(end, masks, s, frames, rest))
    decreases |frames|
  {
    hide ReadFrame, Answered, WriteFrame;
    var f, after := frames[0], ReadFrame(end, s.input).rest;
    var t := s.(input := after);
    AnswerOne(end, masks, s, frames, rest, after);
    assert message + (f.payload + Joined(frames[1..])) == (message + f.payload) + Joined(frames[1..]);
    assert [] + Joined(frames[1..]) == Joined(frames[1..]);
    if f.opcode == PING {
      FramesAreJoined(end, masks, Send(end, masks, t, Frame(true, PONG, f.payload)), message, fragmented, frames[1..], rest);
    } else if f.opcode == PONG {
      FramesAreJoined(end, masks, t, message, fragmented, frames[1..], rest);
    } else if f.fin {
      LastFrame(end, masks, s, frames, rest);
    } else {
      FramesAreJoined(end, masks, t, message + f.payload, true, frames[1..], rest);
    }
  }

  lemma LastFrame(end: End, masks: nat -> Mask, s: State, frames: seq<Frame>, rest: seq<Byte>)
    requires |frames| == 1 && Data(frames[0]) && Parses(end, s.input, frames, rest)
    ensures Joined(frames) == frames[0].payload
    ensures Answered(end, masks, s, frames, rest) == s.(input := rest) && ReadFrame(end, s.input).rest == rest
  {
    hide ReadFrame;
    assert frames[1..] == [] && Pongs(frames) == [] && Joined(frames) == frames[0].payload + [];
    assert s.output + [] == s.output;
  }

  /** Conversely a message is only ever returned when such frames were there, and it keeps the limit. */
  lemma {:induction false} JoinedFromFrames(end: End, masks: nat -> Mask, s: State, message: seq<Byte>, fragmented: bool)
    returns (frames: seq<Frame>, rest: seq<Byte>)
    requires ReadMessage(end, masks, s, message, fragmented).result.Message?
    ensures Parses(end, s.input, frames, rest) && Whole(frames, fragmented)
    ensures |message| + |Joined(frames)| <= end.maxBytes
    decreases |s.input|
  {
    hide ReadFrame, WriteFrame;
    var r := ReadFrame(end, s.input);
    var f, t := r.frame, s.(input := r.rest);
    if f.opcode == PING {
      frames, rest := JoinedFromFrames(end, masks, Send(end, masks, t, Frame(true, PONG, f.payload)), message, fragmented);
    } else if f.opcode == PONG {
      frames, rest := JoinedFromFrames(end, masks, t, message, fragmented);
    } else if f.fin {
      frames, rest := [], r.rest;
    } else {
      frames, rest := JoinedFromFrames(end, masks, t, message + f.payload, true);
    }
    var behind := frames;
    frames := [f] + behind;
    assert frames[1..] == behind;
  }

  /** What was read from the wire is what was put on it. */
  lemma {:induction false} WireParses(end: End, frames: seq<Frame>, masks: nat -> Mask, drawn: nat, suffix: seq<Byte>)
    requires forall k :: 0 <= k < |frames| ==> Sendable(frames[k], end.maxBytes) && |frames[k].payload| < TWO_TO_THE_63
    ensures Parses(end, Wire(!end.client, frames, masks, drawn) + suffix, frames, suffix)
  {
    hide WriteFrame, ReadFrame, Sendable;
    if frames == [] {
      assert [] + suffix == suffix;
    } else {
      var next := if end.client then drawn else drawn + 1;
      var tail := Wire(!end.client, frames[1..], masks, next) + suffix;
      WireParses(end, frames[1..], masks, next, suffix);
      FrameRoundTrip(end, frames[0], masks(drawn), tail);
      assert Wire(!end.client, frames, masks, drawn) + suffix == WriteFrame(!end.client, frames[0], masks(drawn)) + tail;
    }
  }

  /** The pongs written are frames the peer can read, one for every ping and with its payload. */
  lemma PongsReadBack(end: End, peerMax: nat, frames: seq<Frame>, masks: nat -> Mask, drawn: nat, suffix: seq<Byte>)
    requires 125 <= peerMax
    requires forall k :: 0 <= k < |frames| && frames[k].opcode == PING ==> |frames[k].payload| <= 125
    ensures Parses(End(!end.client, peerMax), Wire(end.client, Pongs(frames), masks, drawn) + suffix, Pongs(frames), suffix)
  {
    hide Parses, Wire;
    PongsShort(frames);
    WireParses(End(!end.client, peerMax), Pongs(frames), masks, drawn, suffix);
  }

  lemma {:induction false} PongsShort(frames: seq<Frame>)
    requires forall k :: 0 <= k < |frames| && frames[k].opcode == PING ==> |frames[k].payload| <= 125
    ensures forall k :: 0 <= k < |Pongs(frames)| ==>
              Pongs(frames)[k].fin && Pongs(frames)[k].opcode == PONG && |Pongs(frames)[k].payload| <= 125
  {
    if frames != [] {
      PongsShort(frames[1..]);
    }
  }

  // ---------------------------------------------------------------- any split of a text

  /** A sender's plan: the parts of a text, with pings and pongs wherever it likes before the last. */
  datatype Piece = Part(bytes: seq<Byte>) | Ping(bytes: seq<Byte>) | Pong(bytes: seq<Byte>)

  predicate PartBefore(plan: seq<Piece>, i: nat)
    requires i <= |plan|
  {
    exists j :: 0 <= j < i && plan[j].Part?
  }

  function FrameAt(plan: seq<Piece>, i: nat): Frame
    requires i < |plan|
  {
    match plan[i]
    case Part(bytes) => Frame(i == |plan| - 1, if PartBefore(plan, i) then CONTINUATION else TEXT, bytes)
    case Ping(bytes) => Frame(true, PING, bytes)
    case Pong(bytes) => Frame(true, PONG, bytes)
  }

  function FramesOf(plan: seq<Piece>): (frames: seq<Frame>)
    ensures |frames| == |plan|
  {
    seq(|plan|, i requires 0 <= i < |plan| => FrameAt(plan, i))
  }

  /** The text a plan spells: its parts from the i-th on. */
  function TextFrom(plan: seq<Piece>, i: nat): seq<Byte>
    requires i <= |plan|
    decreases |plan| - i
  {
    if i == |plan| then [] else (if plan[i].Part? then plan[i].bytes else []) + TextFrom(plan, i + 1)
  }

  lemma {:induction false} PlanSpells(plan: seq<Piece>, i: nat)
    requires i <= |plan|
    ensures Joined(FramesOf(plan)[i..]) == TextFrom(plan, i)
    decreases |plan| - i
  {
    if i < |plan| {
      PlanSpells(plan, i + 1);
      assert FramesOf(plan)[i..][1..] == FramesOf(plan)[i + 1..];
      assert FramesOf(plan)[i..][0] == FrameAt(plan, i);
    }
  }

  lemma {:induction false} PlanIsWhole(plan: seq<Piece>, i: nat)
    requires i < |plan| && plan[|plan| - 1].Part?
    ensures Whole(FramesOf(plan)[i..], PartBefore(plan, i))
    decreases |plan| - i
  {
    var frames := FramesOf(plan)[i..];
    assert frames[0] == FrameAt(plan, i);
    if i + 1 < |plan| {
      PlanIsWhole(plan, i + 1);
      assert frames[1..] == FramesOf(plan)[i + 1..];
      assert PartBefore(plan, i + 1) <==> PartBefore(plan, i) || plan[i].Part?;
    }
  }

  /** For every way to spread a text over frames and to mix in pings and pongs: the reader gets the text
      back, has answered every ping in order, and stands where the message ended, exactly when the text
      is within its limit. */
  lemma AnySplitIsReassembled(end: End, sent: nat -> Mask, masks: nat -> Mask, plan: seq<Piece>, k: nat, s: State,
      suffix: seq<Byte>)
    requires |plan| > 0 && plan[|plan| - 1].Part?
    requires forall i :: 0 <= i < |plan| ==> |plan[i].bytes| <= if plan[i].Part? then end.maxBytes else 125
    requires 125 <= end.maxBytes < TWO_TO_THE_63
    requires s.input == Wire(!end.client, FramesOf(plan), sent, k) + suffix
    ensures ReadText(end, masks, s) == Outcome(Message(TextFrom(plan, 0)), Answered(end, masks, s, FramesOf(plan), suffix))
            <==> |TextFrom(plan, 0)| <= end.maxBytes
  {
    hide ReadFrame, WriteFrame, Wire, Parses, Whole, Answered, ReadMessage;
    var frames := FramesOf(plan);
    WireParses(end, frames, sent, k, suffix);
    PlanSpells(plan, 0);
    PlanIsWhole(plan, 0);
    assert frames[0..] == frames;
    if |TextFrom(plan, 0)| <= end.maxBytes {
      FramesAreJoined(end, masks, s, [], false, frames, suffix);
      assert [] + TextFrom(plan, 0) == TextFrom(plan, 0);
    } else if ReadText(end, masks, s).result.Message? {
      var found, rest := JoinedFromFrames(end, masks, s, [], false);
      FramesAreJoined(end, masks, s, [], false, found, rest);
    }
  }
}
