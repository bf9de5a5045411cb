/**
 * The protocol diagnostic's classification of a raw response from the
 * K-LD2 radar: silence, line noise, an echo-like repetition, text from
 * the radar's ASCII mode, or a Modbus reply.
 */
module Kld2Protocol {
  import opened Wrappers
  import Modbus

  datatype Pattern = NoData | AllZeros | AllOnes | RepeatingPattern | AsciiText(text: string) | ValidModbus | UnknownData

  /** The Modbus function codes the diagnostic accepts: read holding/input registers, write single/multiple. */
  const MODBUS_FUNCTIONS: set<byte> := {0x03, 0x04, 0x06, 0x10}

  predicate AllAre(response: seq<byte>, b: byte) {
    forall i :: 0 <= i < |response| ==> response[i] == b
  }

  predicate Printable(response: seq<byte>) {
    forall i :: 0 <= i < |response| ==> 32 <= response[i] < 127
  }

  /** The first byte pair repeats as the second. */
  predicate Repeats(response: seq<byte>) {
    |response| >= 4 && response[..2] == response[2..4]
  }

  /** A Modbus header: at least five bytes, slave address 1 and an accepted function code. */
  predicate ModbusHeader(response: seq<byte>) {
    |response| >= 5 && response[0] == 0x01 && response[1] in MODBUS_FUNCTIONS
  }

  /** The bytes decoded as ASCII characters. */
  function Decode(response: seq<byte>): (text: string)
    ensures |text| == |response| && forall i :: 0 <= i < |response| ==> text[i] as int == response[i]
  {
    if response == [] then "" else Decode(response[..|response| - 1]) + [response[|response| - 1] as char]
  }

  /**
   * analyze_response_pattern: the tests in order (empty, all zero, all
   * 0xFF, a repeated first byte pair, all printable, a Modbus header), the
   * first that holds deciding. Printable text and a Modbus header (address
   * 1 is not printable) can never be all zero or all 0xFF, so those two
   * classes are decided by the repetition test alone.
   */
  function AnalyzeResponsePattern(response: seq<byte>): (p: Pattern)
    ensures p == NoData <==> response == []
    ensures p == AllZeros <==> response != [] && AllAre(response, 0x00)
    ensures p == AllOnes <==> response != [] && AllAre(response, 0xFF)
    ensures p == RepeatingPattern <==>
      Repeats(response) && !AllAre(response, 0x00) && !AllAre(response, 0xFF)
    ensures p.AsciiText? <==> response != [] && Printable(response) && !Repeats(response)
    ensures p.AsciiText? ==> p.text == Decode(response)
    ensures p == ValidModbus <==> ModbusHeader(response) && !Repeats(response)
    ensures p == UnknownData <==>
      response != [] && !AllAre(response, 0x00) && !AllAre(response, 0xFF) && !Repeats(response)
      && !Printable(response) && !ModbusHeader(response)
  {
    if response == [] then NoData
    else
      // The first byte tells the uniform, printable and header classes apart.
      assert response[0] in response;
      if AllAre(response, 0x00) then AllZeros
      else if AllAre(response, 0xFF) then AllOnes
      else if Repeats(response) then RepeatingPattern
      else if Printable(response) then AsciiText(Decode(response))
      else if ModbusHeader(response) then ValidModbus
      else UnknownData
  }

  /**
   * Every reply a slave at address 1 sends with one of the accepted
   * function codes is recognised as Modbus, unless its byte count is 1
   * (then the first two byte pairs can coincide).
   */
  lemma ModbusResponseRecognised(fc: byte, payload: seq<byte>)
    requires fc in MODBUS_FUNCTIONS && |payload| < 256 && |payload| != 1
    ensures AnalyzeResponsePattern(Modbus.ResponseFrame(fc, payload)) == ValidModbus
  {
    var r := Modbus.ResponseFrame(fc, payload);
    assert r[0] == 0x01 && r[1] == fc && r[2] == |payload|;
    assert !AllAre(r, 0x00) && !AllAre(r, 0xFF) && !Printable(r);
    assert |r| >= 5;
    assert r[..2] != r[2..4] by {
      assert r[..2][0] == r[0] && r[2..4][0] == r[2];
    }
  }

  /**
   * A read request of the diagnostic's own kind, echoed back, is taken for
   * Modbus too, unless its register address repeats the header bytes.
   */
  lemma EchoedRequestLooksValid(fc: byte, address: int, count: int)
    requires fc in {0x03, 0x04}
    requires [Modbus.HiOf(address), Modbus.LoOf(address)] != [0x01, fc]
    ensures AnalyzeResponsePattern(Modbus.RequestFrame(fc, address, count)) == ValidModbus
  {
    var r := Modbus.RequestFrame(fc, address, count);
    assert r[0] == 0x01 && r[1] == fc && r[2] == Modbus.HiOf(address) && r[3] == Modbus.LoOf(address);
    assert !AllAre(r, 0x00) && !AllAre(r, 0xFF) && !Printable(r);
    assert r[..2] != r[2..4] by {
      assert r[..2] == [0x01, fc] && r[2..4] == [Modbus.HiOf(address), Modbus.LoOf(address)];
    }
  }

  /** The order of the tests: four zero bytes are noise, not a repetition; "ABAB" is a repetition, not text. */
  lemma TestOrder()
    ensures AnalyzeResponsePattern([0, 0, 0, 0]) == AllZeros
    ensures AnalyzeResponsePattern([0x41, 0x42, 0x41, 0x42]) == RepeatingPattern
    ensures AnalyzeResponsePattern([0x4F, 0x4B]).AsciiText?
  {
    var abab: seq<byte> := [0x41, 0x42, 0x41, 0x42];
    assert abab[0] == 0x41;
    assert abab[..2] == abab[2..4];
    var ok: seq<byte> := [0x4F, 0x4B];
    assert ok[0] == 0x4F;
  }
}
