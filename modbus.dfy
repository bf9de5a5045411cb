/**
 * Modbus RTU helpers used by the K-LD2 register scanners: the CRC-16/MODBUS
 * checksum (initial value 0xFFFF, reflected polynomial 0xA001, eight shifts
 * per byte, section 6.2.2 of the Modbus over Serial Line Specification
 * V1.02), read-request framing with the CRC appended low byte first, the
 * acceptance tests applied to responses, and big-endian 16-bit decoding.
 * Bytes on the wire are integers 0..255; the CRC register is a `bv16`.
 */
module Modbus {
  import opened Wrappers

  const SLAVE_ID: byte := 0x01
  const READ_HOLDING_REGISTERS: byte := 0x03

  // ---------------------------------------------------------------- CRC

  /** One shift of the CRC register: shift right, folding in 0xA001 when the dropped bit was set. */
  function CrcShift(c: bv16): bv16 {
    if c & 1 == 1 then (c >> 1) ^ 0xA001 else c >> 1
  }

  /** The register after n shifts. */
  function ShiftN(c: bv16, n: nat): bv16 {
    if n == 0 then c else CrcShift(ShiftN(c, n - 1))
  }

  /** Eight shifts, as the inner loop performs them for every byte. */
  function Shift8(c: bv16): bv16 {
    CrcShift(CrcShift(CrcShift(CrcShift(CrcShift(CrcShift(CrcShift(CrcShift(c))))))))
  }

  /** The register after folding in one byte: XOR into the low byte, then eight shifts. */
  function Feed(c: bv16, b: byte): bv16 {
    ShiftN(c ^ (b as bv16), 8)
  }

  /** CRC-16/MODBUS of a byte sequence, folding the bytes in from the front. */
  function Crc(data: seq<byte>): bv16 {
    if data == [] then 0xFFFF else Feed(Crc(data[..|data| - 1]), data[|data| - 1])
  }

  lemma ShiftNIsShift8(c: bv16)
    ensures ShiftN(c, 8) == Shift8(c)
  {
    assert ShiftN(c, 1) == CrcShift(c);
    assert ShiftN(c, 2) == CrcShift(CrcShift(c));
    assert ShiftN(c, 3) == CrcShift(CrcShift(CrcShift(c)));
    assert ShiftN(c, 4) == CrcShift(CrcShift(CrcShift(CrcShift(c))));
    assert ShiftN(c, 5) == CrcShift(CrcShift(CrcShift(CrcShift(CrcShift(c)))));
    assert ShiftN(c, 6) == CrcShift(CrcShift(CrcShift(CrcShift(CrcShift(CrcShift(c))))));
    assert ShiftN(c, 7) == CrcShift(CrcShift(CrcShift(CrcShift(CrcShift(CrcShift(CrcShift(c)))))));
  }

  /** calculate_modbus_crc: the CRC as the bit-by-bit loop computes it. */
  method CalculateModbusCrc(data: seq<byte>) returns (crc: bv16)
    ensures crc == Crc(data)
  {
    crc := 0xFFFF;
    var i := 0;
    while i < |data|
      invariant 0 <= i <= |data|
      invariant crc == Crc(data[..i])
    {
      crc := FeedByte(crc, data[i]);
      CrcPrefix(data, i);
      i := i + 1;
    }
    assert data[..|data|] == data;
  }

  /** The body of the byte loop: XOR the byte in, then the eight-step shift loop. */
  method FeedByte(c: bv16, b: byte) returns (crc: bv16)
    ensures crc == Feed(c, b)
  {
    crc := c ^ (b as bv16);
    ghost var mixed := crc;
    var k := 0;
    while k < 8
      invariant 0 <= k <= 8
      invariant crc == ShiftN(mixed, k)
    {
      if crc & 0x0001 == 1 {
        crc := (crc >> 1) ^ 0xA001;
      } else {
        crc := crc >> 1;
      }
      k := k + 1;
    }
  }

  function LowByte(c: bv16): byte { (c & 0xFF) as int }
  function HighByte(c: bv16): byte { (c >> 8) as int }

  /** Taking a byte of the register to an integer and back loses nothing. */
  lemma BytesOfRegister(c: bv16)
    ensures (LowByte(c) as bv16) == c & 0xFF
    ensures (HighByte(c) as bv16) == c >> 8
  {
    RegisterAsInt(c & 0xFF);
    RegisterAsInt(c >> 8);
  }

  lemma RegisterAsInt(c: bv16)
    ensures (c as int) as bv16 == c
  {
  }

  /** The CRC as transmitted: low byte first, then high byte; the two bytes reassemble the CRC. */
  function CrcBytes(c: bv16): (r: seq<byte>)
    ensures |r| == 2 && ((r[1] as bv16) << 8) | (r[0] as bv16) == c
  {
    BytesOfRegister(c);
    [LowByte(c), HighByte(c)]
  }

  /** A register whose low byte is clear shifts out as a plain right shift by eight. */
  lemma ShiftsOfCleanLowByte(c: bv16)
    requires c & 0xFF == 0
    ensures ShiftN(c, 8) == c >> 8
  {
    ShiftNIsShift8(c);
  }

  /** The CRC of one more byte of the data. */
  lemma CrcPrefix(data: seq<byte>, i: nat)
    requires i < |data|
    ensures Crc(data[..i + 1]) == Feed(Crc(data[..i]), data[i])
  {
    assert data[..i + 1] == data[..i] + [data[i]];
    CrcSnoc(data[..i], data[i]);
  }

  /** Appending one byte folds it into the CRC of the prefix. */
  lemma CrcSnoc(s: seq<byte>, b: byte)
    ensures Crc(s + [b]) == Feed(Crc(s), b)
  {
    assert (s + [b])[..|s + [b]| - 1] == s;
  }

  /**
   * The Modbus residue property: a frame followed by its own CRC, low byte
   * first, has CRC zero. This is what a receiver checks.
   */
  lemma {:induction false} CrcResidue(frame: seq<byte>)
    ensures Crc(frame + CrcBytes(Crc(frame))) == 0
  {
    var c := Crc(frame);
    var lo, hi := LowByte(c), HighByte(c);
    assert frame + CrcBytes(c) == (frame + [lo]) + [hi];
    CrcSnoc(frame + [lo], hi);
    CrcSnoc(frame, lo);
    FeedLowByte(c);
    FeedHighByte(c);
  }

  /** Folding in the register's own low byte leaves its high byte. */
  lemma FeedLowByte(c: bv16)
    ensures Feed(c, LowByte(c)) == HighByte(c) as bv16
  {
    BytesOfRegister(c);
    MixedOwnLowByte(c);
  }

  /** XOR-ing the register with its own low byte clears that byte and keeps the high one. */
  lemma CleanLowByte(c: bv16)
    ensures (c ^ (c & 0xFF)) & 0xFF == 0 && (c ^ (c & 0xFF)) >> 8 == c >> 8
  {
  }

  lemma MixedOwnLowByte(c: bv16)
    ensures ShiftN(c ^ (c & 0xFF), 8) == c >> 8
  {
    CleanLowByte(c);
    ShiftsOfCleanLowByte(c ^ (c & 0xFF));
  }

  /** Folding a byte into a register that holds just that byte gives zero. */
  lemma FeedHighByte(c: bv16)
    ensures Feed(HighByte(c) as bv16, HighByte(c)) == 0
  {
    var h := HighByte(c) as bv16;
    assert h ^ h == 0;
    ShiftsOfCleanLowByte(0);
  }

  // ---------------------------------------------------------------- framing

  /** `(v >> 8) & 0xFF` on a Python integer (an arithmetic shift, so floor division). */
  function HiOf(v: int): byte { (v / 256) % 256 }
  /** `v & 0xFF` on a Python integer. */
  function LoOf(v: int): byte { v % 256 }

  /** The six header bytes of a read request: slave, function, address and count, high byte first. */
  function RequestHeader(fc: byte, address: int, count: int): seq<byte> {
    [SLAVE_ID, fc, HiOf(address), LoOf(address), HiOf(count), LoOf(count)]
  }

  /** The complete eight-byte request frame. */
  function RequestFrame(fc: byte, address: int, count: int): (f: seq<byte>)
    ensures |f| == 8 && f[0] == SLAVE_ID && f[1] == fc
  {
    RequestHeader(fc, address, count) + CrcBytes(Crc(RequestHeader(fc, address, count)))
  }

  /**
   * create_modbus_command: builds the frame by appending to a byte array; a
   * function code outside 0..255 makes the byte array constructor raise.
   */
  method CreateModbusCommand(fc: int, address: int, count: int) returns (r: Option<seq<byte>>)
    ensures r.None? <==> fc < 0 || fc > 255
    ensures r.Some? ==> 0 <= fc < 256 && r.value == RequestFrame(fc, address, count)
  {
    if fc < 0 || fc > 255 {
      return None;
    }
    var frame: seq<byte> := [0x01, fc, (address / 256) % 256, address % 256, (count / 256) % 256, count % 256];
    var crc := CalculateModbusCrc(frame);
    frame := frame + [LowByte(crc)];
    frame := frame + [HighByte(crc)];
    r := Some(frame);
  }

  /** create_modbus_read_command: the same frame with function code 0x03. */
  method CreateModbusReadCommand(address: int, count: int) returns (cmd: seq<byte>)
    ensures cmd == RequestFrame(READ_HOLDING_REGISTERS, address, count)
  {
    var frame: seq<byte> := [0x01, 0x03, (address / 256) % 256, address % 256, (count / 256) % 256, count % 256];
    var crc := CalculateModbusCrc(frame);
    frame := frame + [LowByte(crc)];
    frame := frame + [HighByte(crc)];
    cmd := frame;
  }

  lemma ByteSplit(v: int)
    ensures HiOf(v) as int * 256 + LoOf(v) as int == v % 65536
  {
    DivModSplit(v);
  }

  lemma DivModSplit(v: int)
    ensures ((v / 256) % 256) * 256 + v % 256 == v % 65536
  {
    var q := v / 256;
    var q2 := q / 256;
    assert v == q * 256 + v % 256;
    assert q == q2 * 256 + q % 256;
    assert v == q2 * 65536 + ((q % 256) * 256 + v % 256);
  }

  /**
   * Every request frame is eight bytes, carries the slave id, function code,
   * address and count (modulo 2^16, high byte first), and passes the CRC check.
   */
  lemma {:induction false} RequestFrameWellFormed(fc: byte, address: int, count: int)
    ensures var f := RequestFrame(fc, address, count);
      |f| == 8 && f[0] == 1 && f[1] == fc
      && f[2] as int * 256 + f[3] as int == address % 65536
      && f[4] as int * 256 + f[5] as int == count % 65536
      && Crc(f) == 0
  {
    CrcResidue(RequestHeader(fc, address, count));
    ByteSplit(address);
    ByteSplit(count);
  }

  /** The general builder with function code 0x03 is the read-command builder. */
  lemma SameFrameForReadHolding(address: int, count: int)
    ensures RequestFrame(3, address, count) == RequestFrame(READ_HOLDING_REGISTERS, address, count)
  {
  }

  /** The CRC register after each byte of 01 03 00 00 00 01. */
  lemma TestVectorRegisters()
    ensures Feed(0xFFFF, 1) == 0x807E && Feed(0x807E, 3) == 0x2140 && Feed(0x2140, 0) == 0xF020
    ensures Feed(0xF020, 0) == 0xD8F1 && Feed(0xD8F1, 0) == 0x8419 && Feed(0x8419, 1) == 0x0A84
  {
    ShiftNIsShift8(0xFFFF ^ 1);
    ShiftNIsShift8(0x807E ^ 3);
    ShiftNIsShift8(0x2140);
    ShiftNIsShift8(0xF020);
    ShiftNIsShift8(0xD8F1);
    ShiftNIsShift8(0x8419 ^ 1);
  }

  /** Address 0, one register: the hard-coded command 01 03 00 00 00 01 84 0A. */
  lemma ReadCommandTestVector()
    ensures RequestFrame(READ_HOLDING_REGISTERS, 0, 1) == [0x01, 0x03, 0x00, 0x00, 0x00, 0x01, 0x84, 0x0A]
  {
    var h := RequestHeader(READ_HOLDING_REGISTERS, 0, 1);
    assert h == [1, 3, 0, 0, 0, 1];
    TestVectorRegisters();
    CrcSnoc([], 1);
    assert [] + [1 as byte] == [1];
    assert Crc([1]) == 0x807E;
    CrcSnoc([1], 3);
    assert Crc([1, 3]) == 0x2140;
    CrcSnoc([1, 3], 0);
    assert Crc([1, 3, 0]) == 0xF020;
    CrcSnoc([1, 3, 0], 0);
    assert [1, 3, 0] + [0 as byte] == [1, 3, 0, 0];
    assert Crc([1, 3, 0, 0]) == 0xD8F1;
    CrcSnoc([1, 3, 0, 0], 0);
    assert [1, 3, 0, 0] + [0 as byte] == [1, 3, 0, 0, 0];
    assert Crc([1, 3, 0, 0, 0]) == 0x8419;
    CrcSnoc([1, 3, 0, 0, 0], 1);
    assert [1, 3, 0, 0, 0] + [1 as byte] == h;
    assert Crc(h) == 0x0A84;
    assert CrcBytes(0x0A84) == [0x84, 0x0A];
  }

  // ---------------------------------------------------------------- responses

  /**
   * The register scanner's acceptance test: at least seven bytes starting
   * 0x01 0x03; the payload is the slice [3, 3 + byte count), clamped to the
   * response the way a slice is.
   */
  function RegisterScanPayload(resp: seq<byte>): (r: Option<seq<byte>>)
    ensures r.Some? <==> |resp| >= 7 && resp[0] == 1 && resp[1] == 3
    ensures r.Some? ==> |r.value| <= resp[2] as int && 3 + |r.value| <= |resp| && r.value == resp[3..3 + |r.value|]
    ensures r.Some? && 3 + resp[2] as int <= |resp| ==> |r.value| == resp[2] as int
  {
    if |resp| >= 7 && resp[0] == 0x01 && resp[1] == 0x03 then
      var stop := if 3 + resp[2] as int <= |resp| then 3 + resp[2] as int else |resp|;
      Some(resp[3..stop])
    else None
  }

  /**
   * The advanced scanner's acceptance test: at least five bytes, slave id 1,
   * the expected function code, and room for byte-count payload bytes plus
   * the two CRC bytes; the payload is exactly byte-count bytes.
   */
  function AdvancedScanPayload(resp: seq<byte>, fc: byte): (r: Option<seq<byte>>)
    ensures r.Some? <==> |resp| >= 5 && resp[0] == 1 && resp[1] == fc && |resp| >= 3 + resp[2] as int + 2
    ensures r.Some? ==> |r.value| == resp[2] as int && r.value == resp[3..3 + resp[2] as int]
  {
    if |resp| >= 5 && resp[0] == 0x01 && resp[1] == fc && |resp| >= 3 + resp[2] as int + 2 then
      Some(resp[3..3 + resp[2] as int])
    else None
  }

  /** A read response as a slave sends it: slave id, function code, byte count, payload, CRC. */
  function ResponseFrame(fc: byte, payload: seq<byte>): seq<byte>
    requires |payload| < 256
  {
    var body := [SLAVE_ID, fc, |payload|] + payload;
    body + CrcBytes(Crc(body))
  }

  /** Both scanners recover the payload of a well-formed response, which passes the CRC check. */
  lemma {:induction false} ResponsePayloadRoundTrip(fc: byte, payload: seq<byte>)
    requires |payload| < 256
    ensures AdvancedScanPayload(ResponseFrame(fc, payload), fc) == Some(payload)
    ensures fc == 3 && |payload| >= 2 ==> RegisterScanPayload(ResponseFrame(fc, payload)) == Some(payload)
    ensures Crc(ResponseFrame(fc, payload)) == 0
  {
    var body := [SLAVE_ID, fc, |payload|] + payload;
    var f := ResponseFrame(fc, payload);
    assert f[2] == |payload|;
    assert f[3..3 + |payload|] == payload;
    CrcResidue(body);
  }

  // ---------------------------------------------------------------- decoding

  /** Big-endian unsigned 16-bit value of a two-byte payload (struct format '>H'). */
  function U16(hi: byte, lo: byte): (v: int)
    ensures 0 <= v < 65536
  {
    hi as int * 256 + lo as int
  }

  /** Big-endian two's-complement 16-bit value of a two-byte payload (struct format '>h'). */
  function I16(hi: byte, lo: byte): (v: int)
    ensures -32768 <= v < 32768
    ensures v < 0 <==> hi >= 128
    ensures (v - U16(hi, lo)) % 65536 == 0
  {
    var u := hi as int * 256 + lo as int;
    if u >= 32768 then u - 65536 else u
  }

  /** Decoding inverts the big-endian encoding of every 16-bit value. */
  lemma {:induction false} U16RoundTrip(v: int)
    requires 0 <= v < 65536
    ensures U16(HiOf(v), LoOf(v)) == v
    ensures I16(HiOf(v), LoOf(v)) == (if v < 32768 then v else v - 65536)
  {
    var hi, lo := HiOf(v), LoOf(v);
    ByteSplit(v);
    assert U16(hi, lo) == v;
  }
}
