/** Packet framing of the GDB remote protocol: hex codec, checksum, printer and parser. */
module GdbFraming {
  import opened Outcomes
  import opened Bits

  const PLUS: u8 := 0x2B
  const DOLLAR: u8 := 0x24
  const HASH: u8 := 0x23

  // ----- hex -----

  function HexDigit(n: nat): u8
    requires n < 16
  {
    if n < 10 then 0x30 + n else 0x61 + (n - 10)
  }

  function HexByte(b: u8): seq<u8> {
    [HexDigit(b / 16), HexDigit(b % 16)]
  }

  predicate IsSpace(c: u8) {
    c == 0x20 || 0x09 <= c <= 0x0D
  }

  function DigitValue(c: u8): Option<nat> {
    if 0x30 <= c <= 0x39 then Some(c - 0x30)
    else if 0x61 <= c <= 0x66 then Some(c - 0x61 + 10)
    else if 0x41 <= c <= 0x46 then Some(c - 0x41 + 10)
    else None
  }

  /** std::stol in base 16 on two characters, truncated to a byte: it stops at the first character that
      is not a digit, admits a leading space or sign, and throws when there is no digit. */
  function ParsePair(first: u8, second: u8): Option<u8> {
    match (DigitValue(first), DigitValue(second))
    case (Some(high), Some(low)) => Some(Wrap8(16 * high + low))
    case (Some(high), None) => Some(Wrap8(high))
    case (None, Some(low)) =>
      if IsSpace(first) || first == PLUS then Some(Wrap8(low)) else if first == 0x2D then Some(Wrap8(0 - low as int)) else None
    case (None, None) => None
  }

  function Encode(bytes: seq<u8>): seq<u8> {
    if bytes == [] then [] else HexByte(bytes[0]) + Encode(bytes[1..])
  }

  function Prepended(front: seq<u8>, rest: Option<seq<u8>>): Option<seq<u8>> {
    if rest.None? then None else Some(front + rest.value)
  }

  /** Pairs of characters; an odd one at the end is ignored. */
  function Decode(text: seq<u8>): Option<seq<u8>>
    decreases |text|
  {
    if |text| < 2 then Some([])
    else
      match ParsePair(text[0], text[1])
      case Some(b) => Prepended([b], Decode(text[2..]))
      case None => None
  }

  /** The digits are the lower-case ones; both cases are understood. */
  lemma HexDigitText(n: nat)
    requires n < 16
    ensures HexDigit(n) == "0123456789abcdef"[n] as int
    ensures DigitValue("0123456789abcdef"[n] as int) == DigitValue("0123456789ABCDEF"[n] as int) == Some(n)
  {
  }

  lemma HexDigitValue(n: nat)
    requires n < 16
    ensures DigitValue(HexDigit(n)) == Some(n)
  {
  }

  lemma HexByteParses(b: u8)
    ensures ParsePair(HexByte(b)[0], HexByte(b)[1]) == Some(b)
  {
    hide HexDigit, DigitValue;
    HexDigitValue(b / 16);
    HexDigitValue(b % 16);
  }

  /** Decoding undoes encoding, for every byte string. */
  lemma {:induction false} DecodeEncode(bytes: seq<u8>)
    ensures Decode(Encode(bytes)) == Some(bytes)
  {
    hide HexByte, ParsePair;
    if bytes != [] {
      DecodeEncode(bytes[1..]);
      HexByteParses(bytes[0]);
      HexByteLength(bytes[0]);
      var text := Encode(bytes);
      assert text[2..] == Encode(bytes[1..]);
      assert bytes == [bytes[0]] + bytes[1..];
    }
  }

  lemma HexByteLength(b: u8)
    ensures |HexByte(b)| == 2
  {
  }

  // ----- checksum -----

  function Total(payload: seq<u8>): nat {
    if payload == [] then 0 else payload[0] + Total(payload[1..])
  }

  function Checksum(payload: seq<u8>): seq<u8> {
    HexByte(Wrap8(Total(payload)))
  }

  lemma {:induction false} TotalConcat(a: seq<u8>, b: seq<u8>)
    ensures Total(a + b) == Total(a) + Total(b)
  {
    if a == [] {
      assert a + b == b;
    } else {
      TotalConcat(a[1..], b);
      assert (a + b)[1..] == a[1..] + b;
    }
  }

  lemma TotalUpdate(payload: seq<u8>, i: nat, x: u8)
    requires i < |payload|
    ensures Total(payload[i := x]) == Total(payload) - payload[i] + x
  {
    var a, b := payload[..i], payload[i + 1..];
    assert payload == a + ([payload[i]] + b) && payload[i := x] == a + ([x] + b);
    TotalConcat(a, [payload[i]] + b);
    TotalConcat(a, [x] + b);
    TotalConcat([payload[i]], b);
    TotalConcat([x], b);
  }

  lemma HexByteInjective(a: u8, b: u8)
    requires HexByte(a) == HexByte(b)
    ensures a == b
  {
    HexByteParses(a);
    HexByteParses(b);
  }

  // ----- packets -----

  function Frame(payload: seq<u8>): seq<u8> {
    [DOLLAR] + payload + [HASH] + Checksum(payload)
  }

  /** What a received packet means: its payload, or None where the server throws. */
  function Unframe(packet: seq<u8>): Option<seq<u8>>
    requires packet != []
  {
    if packet[0] != DOLLAR || |packet| < 3 || packet[|packet| - 3] != HASH then None
    else
      var payload := packet[1..|packet| - 3];
      if packet[|packet| - 2..] == Checksum(payload) then Some(payload) else None
  }

  function Parse(packet: seq<u8>): Option<seq<u8>> {
    if packet == [] || packet == [PLUS] then Some(packet)
    else Unframe(if packet[0] == PLUS then packet[1..] else packet)
  }

  function SumOf(payload: seq<u8>): nat {
    if payload == [] then 0 else payload[|payload| - 1] + SumOf(payload[..|payload| - 1])
  }

  lemma {:induction false} TotalIsSum(payload: seq<u8>)
    ensures Total(payload) == SumOf(payload)
    decreases |payload|
  {
    if payload != [] {
      var n := |payload| - 1;
      assert payload == payload[..n] + [payload[n]];
      TotalConcat(payload[..n], [payload[n]]);
      TotalIsSum(payload[..n]);
      assert Total([payload[n]]) == payload[n];
    }
  }

  /** A frame is '$', the payload, '#' and the byte sum modulo 256 as two hexadecimal digits. */
  lemma FrameText(payload: seq<u8>)
    ensures var sum := SumOf(payload) % 0x100;
      Frame(payload) == ['$' as int] + payload + ['#' as int] + ["0123456789abcdef"[sum / 0x10] as int, "0123456789abcdef"[sum % 0x10] as int]
  {
    TotalIsSum(payload);
    var sum := SumOf(payload) % 0x100;
    HexDigitText(sum / 0x10);
    HexDigitText(sum % 0x10);
  }

  lemma FramedParts(payload: seq<u8>, check: seq<u8>)
    requires |check| == 2
    ensures var p := [DOLLAR] + payload + [HASH] + check;
      |p| == |payload| + 4 && p[0] == DOLLAR && p[|p| - 3] == HASH && p[1..|p| - 3] == payload && p[|p| - 2..] == check
  {
  }

  /** Every payload survives framing and parsing, with or without a leading acknowledgement. */
  lemma ParseFrame(payload: seq<u8>)
    ensures Parse(Frame(payload)) == Some(payload)
    ensures Parse([PLUS] + Frame(payload)) == Some(payload)
  {
    hide Total;
    FramedParts(payload, Checksum(payload));
    assert ([PLUS] + Frame(payload))[1..] == Frame(payload);
  }

  /** A packet whose payload had one byte changed on the way is rejected. */
  lemma CorruptionDetected(payload: seq<u8>, i: nat, x: u8)
    requires i < |payload| && x != payload[i]
    ensures Parse([DOLLAR] + payload[i := x] + [HASH] + Checksum(payload)) == None
  {
    hide HexByte;
    var corrupt := payload[i := x];
    HexByteLength(Wrap8(Total(payload)));
    FramedParts(corrupt, Checksum(payload));
    TotalUpdate(payload, i, x);
    if Checksum(payload) == Checksum(corrupt) {
      HexByteInjective(Wrap8(Total(payload)), Wrap8(Total(corrupt)));
      DifferModulo(Total(payload), Total(corrupt));
    }
  }

  lemma DifferModulo(a: nat, b: nat)
    requires a != b && -0x100 < a - b < 0x100
    ensures Wrap8(a) != Wrap8(b)
  {
  }

  // ----- the accumulating loops -----

  method CalculateChecksum(payload: seq<u8>) returns (text: seq<u8>)
    ensures text == Checksum(payload)
  {
    var checksum: u8 := 0;
    for i := 0 to |payload|
      invariant checksum == Wrap8(Total(payload[..i]))
    {
      assert payload[..i + 1] == payload[..i] + [payload[i]];
      TotalConcat(payload[..i], [payload[i]]);
      checksum := Wrap8(checksum + payload[i]);
    }
    assert payload[..|payload|] == payload;
    text := HexByte(checksum);
  }

  method EncodeAsHex(bytes: seq<u8>) returns (text: seq<u8>)
    ensures text == Encode(bytes)
  {
    text := [];
    for i := 0 to |bytes|
      invariant text + Encode(bytes[i..]) == Encode(bytes)
    {
      assert bytes[i..][1..] == bytes[i + 1..];
      text := text + HexByte(bytes[i]);
    }
  }

  method DecodeHexString(text: seq<u8>) returns (bytes: Option<seq<u8>>)
    ensures bytes == Decode(text)
  {
    var result: seq<u8> := [];
    assert text[2 * 0..] == text;
    PrependedTwice([], [], Decode(text));
    for i := 0 to |text| / 2
      invariant Decode(text) == Prepended(result, Decode(text[2 * i..]))
    {
      var b := ParsePair(text[2 * i], text[2 * i + 1]);
      assert text[2 * i..][2..] == text[2 * (i + 1)..];
      if b.None? {
        return None;
      }
      PrependedTwice(result, [b.value], Decode(text[2 * (i + 1)..]));
      result := result + [b.value];
    }
    assert result + [] == result;
    bytes := Some(result);
  }

  lemma PrependedTwice(a: seq<u8>, b: seq<u8>, rest: Option<seq<u8>>)
    ensures Prepended(a, Prepended(b, rest)) == Prepended(a + b, rest)
    ensures Prepended([], rest) == rest
  {
    if rest.Some? {
      assert a + (b + rest.value) == (a + b) + rest.value;
      assert [] + rest.value == rest.value;
    }
  }

  method SendResponse(data: seq<u8>) returns (response: seq<u8>)
    ensures response == Frame(data) && Parse(response) == Some(data)
  {
    var checksum := CalculateChecksum(data);
    response := [DOLLAR] + data + [HASH] + checksum;
    ParseFrame(data);
  }
}
