/**
 * The K-LD2 ASCII-protocol reader's pure helpers: the carriage-return
 * command terminator, the detection-register decoder, and the conversion of
 * a space-separated hex dump into bytes.
 */
module Kld2AsciiReader {
  import opened Wrappers
  import opened Text

  /** Appends a carriage return unless the command already ends with one. */
  function WithTerminator(command: string): (r: string)
    ensures |r| > 0 && r[|r| - 1] == '\r'
    ensures |r| == |command| || |r| == |command| + 1
    ensures r[..|command|] == command
    ensures (|command| > 0 && command[|command| - 1] == '\r') <==> r == command
  {
    if |command| > 0 && command[|command| - 1] == '\r' then command else command + "\r"
  }

  /** Terminating a command twice is the same as terminating it once. */
  lemma TerminatorIdempotent(command: string)
    ensures WithTerminator(WithTerminator(command)) == WithTerminator(command)
  {
  }

  datatype RegisterInfo = RegisterInfo(detection: bool, direction: string, speedRange: string, microDetection: bool)

  /**
   * decode_detection_register: bit 0 detection, bit 1 approaching/receding,
   * bit 2 high/low speed range, bit 3 micro detection; direction and range
   * read "N/A" without a detection, and a value that is not hexadecimal
   * gives None.
   */
  function DecodeDetectionRegister(value: string): (r: Option<RegisterInfo>)
    ensures r.None? <==> PyHexInt(value).None?
    ensures r.Some? ==> var v := PyHexInt(value).value;
      r.value.detection == Bit(v, 0) && r.value.microDetection == Bit(v, 3)
      && r.value.direction == (if !Bit(v, 0) then "N/A" else if Bit(v, 1) then "Approaching" else "Receding")
      && r.value.speedRange == (if !Bit(v, 0) then "N/A" else if Bit(v, 2) then "High" else "Low")
  {
    match PyHexInt(value)
    case None => None
    case Some(v) =>
      LowBits(v);
      var det := v % 2 == 1;
      var direction := if (v / 2) % 2 == 1 then "Approaching" else "Receding";
      var range := if (v / 4) % 2 == 1 then "High" else "Low";
      var micro := (v / 8) % 2 == 1;
      Some(RegisterInfo(det, if det then direction else "N/A", if det then range else "N/A", micro))
  }

  /** The register value a sensor reports for the given flags. */
  function EncodeRegister(det: bool, approaching: bool, high: bool, micro: bool): nat {
    (if det then 1 else 0) + (if approaching then 2 else 0) + (if high then 4 else 0) + (if micro then 8 else 0)
  }

  /** Decoding the hex rendering of a register recovers its flags. */
  lemma {:induction false} DecodeEncodedRegister(det: bool, approaching: bool, high: bool, micro: bool)
    ensures DecodeDetectionRegister(ShowHex(EncodeRegister(det, approaching, high, micro)))
      == Some(RegisterInfo(det, if !det then "N/A" else if approaching then "Approaching" else "Receding",
                           if !det then "N/A" else if high then "High" else "Low", micro))
  {
    HexRoundTrip(EncodeRegister(det, approaching, high, micro));
    EncodedBits(det, approaching, high, micro);
  }

  lemma EncodedBits(det: bool, approaching: bool, high: bool, micro: bool)
    ensures var v := EncodeRegister(det, approaching, high, micro);
      Bit(v, 0) == det && Bit(v, 1) == approaching && Bit(v, 2) == high && Bit(v, 3) == micro
  {
    LowBits(EncodeRegister(det, approaching, high, micro));
  }

  /** A byte as the hex dump prints it: two upper-case hex digits. */
  function Hex2(b: byte): (s: string)
    ensures IsPyWord(s)
  {
    [HexChar(b / 16), HexChar(b % 16)]
  }

  /** One token of the dump: `int(x, 16)`, which `bytes` then requires to lie in 0..255. */
  function HexByte(token: string): (r: Option<byte>)
    ensures r.Some? <==> PyHexInt(token).Some? && 0 <= PyHexInt(token).value < 256
    ensures r.Some? ==> r.value == PyHexInt(token).value
  {
    match PyHexInt(token)
    case Some(v) => if 0 <= v < 256 then Some(v as byte) else None
    case None => None
  }

  /** Every token converted, or None as soon as one of them makes `int` or `bytes` raise. */
  function TokensToBytes(tokens: seq<string>): (r: Option<seq<byte>>)
    ensures r.Some? ==> |r.value| == |tokens| && forall i :: 0 <= i < |tokens| ==> HexByte(tokens[i]) == Some(r.value[i])
    ensures r.None? ==> exists i :: 0 <= i < |tokens| && HexByte(tokens[i]).None?
  {
    if tokens == [] then Some([])
    else
      match HexByte(tokens[0])
      case None => None
      case Some(b) =>
        match TokensToBytes(tokens[1..])
        case Some(rest) => Some([b] + rest)
        case None => None
  }

  /** `bytes([int(x, 16) for x in s.split()])`. */
  function HexStringToBytes(s: string): Option<seq<byte>> {
    TokensToBytes(PyWords(s))
  }

  function HexTokens(bs: seq<byte>): (ts: seq<string>)
    ensures |ts| == |bs| && forall i :: 0 <= i < |bs| ==> ts[i] == Hex2(bs[i])
  {
    if bs == [] then [] else [Hex2(bs[0])] + HexTokens(bs[1..])
  }

  lemma Hex2Value(b: byte)
    ensures PyHexInt(Hex2(b)) == Some(b)
  {
    var s := Hex2(b);
    PyHexIntOfDigits(s);
    assert s[..1] == [HexChar(b / 16)];
    assert HexDigitsValue(s[..1]) == b / 16;
    assert HexDigitsValue(s) == (b / 16) * 16 + b % 16;
  }

  lemma {:induction false} TokensOfHex(bs: seq<byte>)
    ensures TokensToBytes(HexTokens(bs)) == Some(bs)
  {
    if bs != [] {
      Hex2Value(bs[0]);
      var ts := HexTokens(bs);
      assert ts[1..] == HexTokens(bs[1..]);
      TokensOfHex(bs[1..]);
      ConsSplit(bs);
    }
  }

  /** Parsing the hex dump the analyzer prints gives back the bytes. */
  lemma {:induction false} HexDumpRoundTrip(bs: seq<byte>)
    requires |bs| >= 1
    ensures HexStringToBytes(Join(HexTokens(bs), ' ')) == Some(bs)
  {
    var ts := HexTokens(bs);
    PyWordsOfJoin(ts);
    TokensOfHex(bs);
  }
}
