/**
 * The frame-capture tool's parser for K-LD2 detection strings
 * ("@C00001;076;067;" or "001;076;067;"): the register field in hex, then
 * the speed bin and the magnitude in decimal.
 */
module CaptureRadarFrames {
  import opened Wrappers
  import opened Text
  import Numbers

  const DEFAULT_SAMPLING_RATE: real := 2560.0

  datatype Detection = Detection(
    rawResponse: string,
    detectionReg: string,
    detected: bool,
    direction: string,
    speedRange: string,
    micro: bool,
    speedBin: int,
    magnitudeDb: int,
    dopplerHz: real,
    speedKmh: real,
    speedMph: real)

  predicate StartsWith(s: string, prefix: string) {
    |prefix| <= |s| && s[..|prefix|] == prefix
  }

  /** The part that is split into fields: after an "@C00" echo, stripped; otherwise the response as is. */
  function Payload(response: string): string {
    if StartsWith(response, "@C00") then Strip(response[4..], PySpaces) else response
  }

  /** `int(reg, 16) if reg else 0`. */
  function RegisterValue(reg: string): (r: Option<int>)
    ensures reg == [] ==> r == Some(0)
  {
    if reg == [] then Some(0) else PyHexInt(reg)
  }

  /**
   * parse_detection_string: None for an empty response, fewer than three
   * fields, or a field `int` refuses; otherwise the register bits and the
   * speed conversion, with the reported mph made non-negative.
   */
  function ParseDetectionString(response: string, samplingRate: real): (r: Option<Detection>)
    ensures response == [] ==> r.None?
    ensures |Split(Payload(response), ';')| < 3 ==> r.None?
    ensures r.Some? ==> var values := Split(Payload(response), ';');
      |values| >= 3
      && PyInt(values[1]) == Some(r.value.speedBin)
      && PyInt(values[2]) == Some(r.value.magnitudeDb)
      && RegisterValue(values[0]).Some?
      && r.value.detectionReg == values[0]
      && r.value.detected == Bit(RegisterValue(values[0]).value, 0)
      && r.value.direction == (if Bit(RegisterValue(values[0]).value, 1) then "approaching" else "receding")
      && r.value.speedRange == (if Bit(RegisterValue(values[0]).value, 2) then "high" else "low")
      && r.value.micro == Bit(RegisterValue(values[0]).value, 3)
      && r.value.speedMph >= 0.0
  {
    if response == [] then None
    else
      var values := Split(Payload(response), ';');
      if |values| < 3 then None
      else
        match (PyInt(values[1]), PyInt(values[2]), RegisterValue(values[0]))
        case (Some(speedBin), Some(magnitude), Some(reg)) =>
          var doppler := speedBin as real * (samplingRate / 256.0);
          var kmh := doppler / 44.7;
          var mph := kmh * 0.621371;
          LowBits(reg);
          Some(Detection(response, values[0], reg % 2 == 1,
                         if (reg / 2) % 2 == 1 then "approaching" else "receding",
                         if (reg / 4) % 2 == 1 then "high" else "low",
                         (reg / 8) % 2 == 1, speedBin, magnitude, doppler, kmh, Numbers.Abs(mph)))
        case _ => None
  }

  /** A detection string as the sensor sends it, with or without the "@C00" echo. */
  function FormatDetection(echo: bool, reg: nat, speedBin: int, magnitude: int): string {
    EchoPrefix(echo) + Fields(reg, speedBin, magnitude)
  }

  function EchoPrefix(echo: bool): string {
    if echo then "@C00" else ""
  }

  lemma NoSeparatorInNumbers(reg: nat, n: int)
    ensures ';' !in ShowHex(reg) && ';' !in ShowInt(n)
  {
    var h := ShowHex(reg);
    forall i | 0 <= i < |h| ensures h[i] != ';' {
      assert IsHexDigit(h[i]);
    }
    var d := ShowInt(n);
    forall i | 0 <= i < |d| ensures d[i] != ';' {
      if n < 0 && i > 0 { assert d[i] == d[1..][i - 1]; assert IsDigit(d[1..][i - 1]); }
      else if n >= 0 { assert IsDigit(d[i]); }
    }
  }

  /** The field text of a formatted detection string. */
  function Fields(reg: nat, speedBin: int, magnitude: int): string {
    ShowHex(reg) + ";" + ShowInt(speedBin) + ";" + ShowInt(magnitude) + ";"
  }

  lemma FieldsSplit(reg: nat, speedBin: int, magnitude: int)
    ensures Split(Fields(reg, speedBin, magnitude), ';') == [ShowHex(reg), ShowInt(speedBin), ShowInt(magnitude), ""]
  {
    var h, b, m := ShowHex(reg), ShowInt(speedBin), ShowInt(magnitude);
    var parts := [h, b, m, ""];
    assert Join(parts, ';') == Fields(reg, speedBin, magnitude) by {
      assert Join(parts[3..], ';') == "";
      assert Join(parts[2..], ';') == m + ";" + "";
      assert Join(parts[1..], ';') == b + ";" + (m + ";" + "");
    }
    NoSeparatorInNumbers(reg, speedBin);
    NoSeparatorInNumbers(reg, magnitude);
    JoinSplit(parts, ';');
  }

  lemma FieldsEnds(reg: nat, speedBin: int, magnitude: int)
    ensures var body := Fields(reg, speedBin, magnitude);
      |body| >= 2 && IsHexDigit(body[0]) && body[|body| - 1] == ';'
  {
    var h := ShowHex(reg);
    assert Fields(reg, speedBin, magnitude)[0] == h[0];
  }

  lemma PayloadOfFormatted(echo: bool, reg: nat, speedBin: int, magnitude: int)
    ensures Payload(FormatDetection(echo, reg, speedBin, magnitude)) == Fields(reg, speedBin, magnitude)
  {
    var body := Fields(reg, speedBin, magnitude);
    FieldsEnds(reg, speedBin, magnitude);
    PayloadOf(echo, body);
  }

  lemma PayloadOf(echo: bool, body: string)
    requires |body| >= 2 && IsHexDigit(body[0]) && body[|body| - 1] == ';'
    ensures Payload(EchoPrefix(echo) + body) == body
  {
    if echo {
      PayloadEcho(body);
    } else {
      PayloadPlain(body);
    }
  }

  lemma PayloadEcho(body: string)
    requires |body| >= 2 && IsHexDigit(body[0]) && body[|body| - 1] == ';'
    ensures Payload("@C00" + body) == body
  {
    var response := "@C00" + body;
    assert response[..4] == "@C00";
    assert response[4..] == body;
    StripUntouched(body, PySpaces);
  }

  lemma PayloadPlain(body: string)
    requires |body| >= 2 && IsHexDigit(body[0])
    ensures Payload("" + body) == body
  {
    assert "" + body == body;
    assert !StartsWith(body, "@C00") by {
      if |body| >= 4 { assert body[..4][0] == body[0]; }
    }
  }

  /** Parsing a well-formed detection string recovers its fields. */
  lemma {:induction false} ParseFormatted(echo: bool, reg: nat, speedBin: int, magnitude: int, samplingRate: real)
    ensures var r := ParseDetectionString(FormatDetection(echo, reg, speedBin, magnitude), samplingRate);
      r.Some? && r.value.speedBin == speedBin && r.value.magnitudeDb == magnitude
      && r.value.detected == Bit(reg, 0) && r.value.micro == Bit(reg, 3)
  {
    var response := FormatDetection(echo, reg, speedBin, magnitude);
    FormattedValues(echo, reg, speedBin, magnitude);
    DecimalRoundTrip(speedBin);
    DecimalRoundTrip(magnitude);
    RegisterOfHex(reg);
    ParseFields(response, samplingRate, ShowHex(reg), ShowInt(speedBin), ShowInt(magnitude), reg, speedBin, magnitude);
  }

  /** A formatted detection string is not empty and its payload splits into its three fields and a trailing empty one. */
  lemma FormattedValues(echo: bool, reg: nat, speedBin: int, magnitude: int)
    ensures FormatDetection(echo, reg, speedBin, magnitude) != []
    ensures Split(Payload(FormatDetection(echo, reg, speedBin, magnitude)), ';')
         == [ShowHex(reg), ShowInt(speedBin), ShowInt(magnitude), ""]
  {
    FieldsEnds(reg, speedBin, magnitude);
    PayloadOfFormatted(echo, reg, speedBin, magnitude);
    FieldsSplit(reg, speedBin, magnitude);
  }

  lemma RegisterOfHex(reg: nat)
    ensures RegisterValue(ShowHex(reg)) == Some(reg)
  {
    HexRoundTrip(reg);
  }

  /** Three fields that convert give a detection with their values. */
  lemma ParseFields(response: string, samplingRate: real, h: string, b: string, m: string, reg: int, speedBin: int, magnitude: int)
    requires response != [] && Split(Payload(response), ';') == [h, b, m, ""]
    requires PyInt(b) == Some(speedBin) && PyInt(m) == Some(magnitude) && RegisterValue(h) == Some(reg)
    ensures var r := ParseDetectionString(response, samplingRate);
      r.Some? && r.value.speedBin == speedBin && r.value.magnitudeDb == magnitude
      && r.value.detected == Bit(reg, 0) && r.value.micro == Bit(reg, 3)
  {
  }
}
