# Golf launch monitor core, modelled and verified in Dafny

This project models the decision logic of a camera-plus-radar golf launch
monitor. A high-speed camera watches the ball on the mat and a K-LD2 Doppler
radar watches the club. The model covers:

- **Exposure control.** The C++ controller (`AutoExposure`), its Python
  original (`AutoExposurePy`) and the Python binding of the C++ controller
  (`FastAutoExposure`). Each measures the brightness of a box around the ball
  zone, smooths it over five samples, and moves gain (preferred) or shutter
  toward a target band, within limits. The rate limit, manual mode and
  invalid measurements gate every update.
- **Radar trigger machines.** The Qt radar manager (`Kld2Manager`), the
  console tester (`TestRadar`), the Python tester (`TestRadarStandalone`) and
  the test window (`RadarTestGui`). They buffer serial text into
  `;`-separated speed reports (`RadarLines`, `Text`) and run these machines:
  - a ball-speed latch;
  - a club-swing machine that tracks the peak speed and signals an impact
    when the speed drops;
  - an IDLE / ARMED / TRIGGERED / PRACTICE machine with an arm timeout.
- **Radar protocol helpers.**
  - CRC-16/MODBUS and read-request framing for the register scanners
    (`Modbus`), as defined in section 6.2.2 of the Modbus over Serial Line
    Specification V1.02 and sections 6.3–6.4 of the Modbus Application
    Protocol Specification V1.1b3.
  - The detection-string and detection-register decoders (`CaptureRadarFrames`,
    `Kld2AsciiReader`).
  - The response classifier of the protocol diagnostic (`Kld2Protocol`).
  - The offline capture analysis (`RadarCapture`): detection filter,
    magnitude bands and swing grouping.
- **Ball-zone readiness.** The seven-state machine of the camera calibration
  (`CameraCalibration`): a 15-deep position history, a stability test, the
  1000 ms dwell that arms the system, and the live tracker's confidence and
  miss counters.
- **Camera-side detection and tracking.**
  - The hybrid radar-plus-camera impact check of the capture loop
    (`CaptureManager`).
  - The fast detector's sensitivity schedule, concentric-circle removal,
    gates and score (`FastDetection`).
  - The ball detector's history and prediction (`BallDetector`).
  - The armed / triggered tracking session (`BallTracker`).
  - The trajectory record and parabola fit (`TrajectoryTracker`).
- **Stores.** The pixel-scale calibration (`CalibrationManager`), the golfer
  profiles with their bags (`ProfileManager`) and the shot history
  (`HistoryManager`).

The model follows the source's own shape. Pure code is functions and lemmas.
Components that update fields in place are classes whose methods are proved
against specification functions. Loops are methods with invariants.

Modelling choices that apply throughout:

- Floating-point values are exact reals.
- The square root, the Euclidean norm and atan2 are parameters where the
  source calls them.
- Anything OpenCV computes is an input: Hough circles, contours, image
  statistics and motion masks.
- The clock is an explicit argument.
- Qt signals and printed announcements are the event lists that methods
  return.
- Qt timers are event methods the environment calls.

Where a comment or docstring in the source and the code disagree, the model
follows the code:

- Tracking confidence in the camera calibration is described as counting
  consecutive detections. In the code it is only ever set to 10 or reset to 0,
  so it never decays.
- In the capture loop, camera-only mode reports an impact but changes no
  state. The comment there says it uses "the same replay logic".
- The Qt radar manager truncates its floating-point trigger speed to an
  integer before comparing. The console tester compares with the
  floating-point value.
- The test window's docstring speaks of speeds above the thresholds. The code
  compares with `>=`.
- The Python exposure rule truncates the new shutter time. A fractional
  decrease therefore lands one microsecond below the C++ result
  (`AutoExposurePy.PyMatchesCpp`).
- The Python default measurement region does not widen the zone the way the
  C++ one does (`AutoExposurePy.DefaultRegionWithinCpp`).

## Model

| member | source | states |
|---|---|---|
| CalibrationManager.PixelsPerMm | src/CalibrationManager.cpp:59-61 | the scale times the regulation diameter 42.67 mm is twice the radius; a positive radius gives a positive scale |
| CalibrationManager.ScaleMeasuresBall | src/CalibrationManager.cpp:29-32 | the scale measures the detected ball at exactly 42.67 mm, and a larger imaged radius never gives a smaller scale |
| CalibrationManager.Manager.constructor | src/CalibrationManager.cpp:4-10 | a new manager is not calibrating and has scale 0 and radius 0 |
| CalibrationManager.Manager.CalibrateFromFrame | src/CalibrationManager.cpp:12-51 | an empty frame fails with "Empty frame" and changes nothing; otherwise calibration ends with isCalibrating false, a positive detected radius sets radius = cvRound(r) (ties to even) and the scale from it and reports completion, and no detection fails with the scale and radius kept |
| CalibrationManager.Manager.SetManualCalibration | src/CalibrationManager.cpp:53-70 | a radius of 0 or less fails with "Invalid ball radius" and changes nothing; otherwise radius and scale are set and completion is reported with them |
| CalibrationManager.Manager.ResetCalibration | src/CalibrationManager.cpp:72-80 | scale and radius become 0 and nothing else changes |
| HistoryManager.NewShot | HistoryManager.py:45-55 | the recorded shot carries the time stamp, profile, spin, carry and total unchanged; club speed, ball speed and launch have one decimal and lie within 0.05 of the measured value, smash has two decimals and lies within 0.005 |
| HistoryManager.PreciseShotUnchanged | HistoryManager.py:48-51 | a shot already measured to the stored precision is stored exactly as measured |
| HistoryManager.OfProfile | HistoryManager.py:65-68 | the filter keeps only shots of the profile and never grows the list |
| HistoryManager.NotOfProfile | HistoryManager.py:88-91 | the filter keeps only shots of other profiles (or of none) and never grows the list |
| HistoryManager.Reversed | HistoryManager.py:70 | the reversed list has the same length and holds the i-th newest shot at position i |
| HistoryManager.HistoryForProfile | HistoryManager.py:62-70 | the profile view is as long as the profile's shots and holds only that profile's shots |
| HistoryManager.FilterExactly | HistoryManager.py:65-68 | a shot is in a profile's view iff it was recorded for that profile, and kept by clearProfileHistory iff it was not |
| HistoryManager.FiltersSplit | HistoryManager.py:65-68 | the shots of a profile and the shots of the others add up to the whole history |
| HistoryManager.ClearedProfileHistory | HistoryManager.py:85-91 | after clearing a profile its view is empty and every other profile's view is unchanged, order included |
| HistoryManager.AddedShotFirst | HistoryManager.py:57 | a shot just added heads its profile's view and the full view, and the rest of the profile view is the previous view |
| HistoryManager.History.constructor | HistoryManager.py:11-31 | the history starts from the file's shots, or empty when there is no readable file |
| HistoryManager.History.AddShot | HistoryManager.py:42-60 | exactly one shot, the rounded new shot, is appended |
| HistoryManager.History.GetHistoryForProfile | HistoryManager.py:62-70 | returns the profile view, newest first |
| HistoryManager.History.GetAllHistory | HistoryManager.py:72-75 | returns the whole history reversed |
| HistoryManager.History.ClearAllHistory | HistoryManager.py:77-83 | the history becomes empty |
| HistoryManager.History.ClearProfileHistory | HistoryManager.py:85-94 | the history becomes the shots of the other profiles, in order |
| ProfileManager.DefaultDataFacts | ProfileManager.py:28-56 | the default data has Guest active and as the only profile, is consistent, and Guest's active preset is the default bag |
| ProfileManager.Loaded | ProfileManager.py:17-26 | without a readable file the store starts from the defaults (Guest active, profiles [Guest]); otherwise from the file |
| ProfileManager.RemoveFirst | ProfileManager.py:122 | list.remove drops one occurrence of a present name, leaves a list without it unchanged, keeps every other name, and keeps names distinct |
| ProfileManager.Created | ProfileManager.py:103-116 | an empty or existing name changes nothing; a new name is appended with a copy of the default bag as "Default Set" and that preset active |
| ProfileManager.Deleted | ProfileManager.py:118-137 | Guest and unknown names are not deleted; otherwise the name, its bags and its active preset go, Guest becomes active when the deleted profile was active, Guest is never lost and every other profile stays |
| ProfileManager.WithPreset | ProfileManager.py:139-152 | a bag that did not parse changes nothing; otherwise it is stored under the profile and preset, the profile's bag map created when missing, nothing else changes |
| ProfileManager.BagPreset | ProfileManager.py:154-165 | an unknown profile or preset reads the default bag |
| ProfileManager.SavedPresetReadBack | ProfileManager.py:139-165 | a saved preset is read back as saved, and every other (profile, preset) pair reads as before |
| ProfileManager.CreatedReadsDefault | ProfileManager.py:108-113 | a newly created profile reads the default bag for its active preset |
| ProfileManager.OperationsKeepConsistent | ProfileManager.py:103-171 | create, delete, save preset, set active preset and set active profile keep the names distinct and every profile's bag map and active preset present |
| ProfileManager.Manager.constructor | ProfileManager.py:11-15 | the manager holds the loaded data and its active profile |
| ProfileManager.Manager.SetActiveProfile | ProfileManager.py:89-95 | the active profile is set both in the manager and in the stored data |
| ProfileManager.Manager.GetActiveProfile | ProfileManager.py:97-100 | returns the manager's active profile |
| ProfileManager.Manager.CreateProfile | ProfileManager.py:102-116 | the data becomes Created(data, name) |
| ProfileManager.Manager.DeleteProfile | ProfileManager.py:118-137 | the data becomes Deleted(data, active, name), the manager switches to Guest exactly when its active profile was deleted, and the two active profiles stay in step |
| ProfileManager.Manager.SaveBagPreset | ProfileManager.py:139-152 | the data becomes WithPreset(data, profile, preset, clubs) |
| ProfileManager.Manager.GetBagPreset | ProfileManager.py:154-165 | returns BagPreset(data, profile, preset) |
| ProfileManager.Manager.SetActivePreset | ProfileManager.py:167-171 | the profile's active preset is set and nothing else changes |
| Kld2Protocol.Decode | diagnose_kld2_protocol.py:28 | the decoded text has one character per byte, each with the byte's code |
| Kld2Protocol.AnalyzeResponsePattern | diagnose_kld2_protocol.py:10-34 | each verdict holds exactly under its own condition: NO_DATA for an empty response; ALL_ZEROS / ALL_ONES for a non-empty response of only 0x00 / 0xFF; REPEATING_PATTERN when the first byte pair repeats and the response is not uniform; ASCII text when every byte is printable and there is no repetition, carrying the decoded text; VALID_MODBUS for address 1, an accepted function code and at least five bytes without repetition; UNKNOWN_DATA otherwise |
| Kld2Protocol.ModbusResponseRecognised | diagnose_kld2_protocol.py:31-32 | every Modbus reply from address 1 with function 0x03, 0x04, 0x06 or 0x10 is classified VALID_MODBUS, except when its byte count is 1 |
| Kld2Protocol.EchoedRequestLooksValid | diagnose_kld2_protocol.py:22-32 | a read request echoed back is also classified VALID_MODBUS unless its address bytes repeat the header bytes, so the test cannot tell an echo from a reply |
| Kld2Protocol.TestOrder | diagnose_kld2_protocol.py:12-28 | the tests run in order: four zero bytes are ALL_ZEROS (not a repetition), "ABAB" is a REPEATING_PATTERN (not text), "OK" is ASCII text |
| Modbus.CalculateModbusCrc | scan_kld2_registers.py:7-17 | the byte loop with its eight-shift inner loop computes CRC-16/MODBUS (start 0xFFFF, reflected polynomial 0xA001) of the data; scan_kld2_advanced.py:7-17 is the same code |
| Modbus.FeedByte | scan_kld2_registers.py:11-16 | one pass of the inner loop folds one byte into the register: XOR, then eight conditional shifts |
| Modbus.CrcResidue | scan_kld2_registers.py:31-34 | a frame followed by its CRC, low byte first, has CRC zero, which is the check a receiver applies |
| Modbus.CrcBytes | scan_kld2_registers.py:33-34 | the CRC is sent as two bytes, low then high, that reassemble the 16-bit register |
| Modbus.CreateModbusCommand | scan_kld2_advanced.py:19-34 | a function code outside 0..255 raises (None); otherwise the frame is the eight-byte request frame for that code, address and count |
| Modbus.CreateModbusReadCommand | scan_kld2_registers.py:19-36 | the frame is the request frame with function code 0x03 |
| Modbus.RequestFrameWellFormed | scan_kld2_registers.py:19-36 | every request frame has eight bytes: slave 1, the function code, address and count high byte first (modulo 2^16), and passes the CRC check |
| Modbus.RequestFrame | scan_kld2_registers.py:19-36 | the frame has eight bytes and starts with slave 1 and the function code |
| Modbus.SameFrameForReadHolding | scan_kld2_advanced.py:19-34 | the general builder with function 0x03 gives the read-command builder's frame |
| Modbus.ReadCommandTestVector | kld2_reader.py:14 | address 0, one register gives 01 03 00 00 00 01 84 0A, the command hard-coded in the reader |
| Modbus.RegisterScanPayload | scan_kld2_registers.py:73-77 | a response is accepted iff it has at least 7 bytes and starts 01 03; the payload is the slice from byte 3 of byte-count bytes, cut short by the end of the response as a slice is |
| Modbus.AdvancedScanPayload | scan_kld2_advanced.py:67-71 | a response is accepted iff it has at least 5 bytes, starts with 01 and the expected function code, and holds byte-count payload bytes plus two CRC bytes; the payload is exactly the byte-count bytes after the header |
| Modbus.ResponsePayloadRoundTrip | scan_kld2_advanced.py:67-71 | both scanners recover the payload of a reply built by a slave (the register scanner for function 3 and at least two payload bytes), and such a reply passes the CRC check |
| Modbus.U16 | scan_kld2_advanced.py:78 | the big-endian unsigned value lies in 0..65535 |
| Modbus.I16 | scan_kld2_advanced.py:79 | the big-endian signed value lies in -32768..32767, is negative iff the high byte's top bit is set, and equals the unsigned value modulo 2^16 |
| Modbus.U16RoundTrip | scan_kld2_advanced.py:77-79 | decoding the two big-endian bytes of a 16-bit value gives it back as u16, and as i16 gives its two's-complement reading |
| Kld2AsciiReader.WithTerminator | kld2_ascii_reader.py:13-14 | the command sent always ends in a carriage return, keeps the command as its prefix, and is the command itself exactly when it already ended in one |
| Kld2AsciiReader.TerminatorIdempotent | capture_radar_frames.py:13-14 | the same carriage-return rule, which send_command in the frame-capture tool applies too, is idempotent: terminating twice equals terminating once |
| Kld2AsciiReader.DecodeDetectionRegister | kld2_ascii_reader.py:63-79 | None exactly when int(value, 16) raises; otherwise detection is bit 0, micro detection bit 3, and direction (bit 1) and speed range (bit 2) read "N/A" without a detection |
| Kld2AsciiReader.DecodeEncodedRegister | kld2_ascii_reader.py:63-77 | decoding the hex rendering of a register built from four flags gives back those flags |
| Kld2AsciiReader.HexByte | kld2_ascii_reader.py:120 | a token converts iff int(token, 16) succeeds and the value fits a byte, and then it is that value |
| Kld2AsciiReader.TokensToBytes | kld2_ascii_reader.py:120 | success gives one byte per token, each the token's value; failure means some token does not convert |
| Kld2AsciiReader.HexDumpRoundTrip | kld2_ascii_reader.py:119-124 | parsing the space-separated two-digit hex dump of any non-empty byte string gives the bytes back |
| CaptureRadarFrames.RegisterValue | capture_radar_frames.py:50 | an empty register field counts as 0 |
| CaptureRadarFrames.ParseDetectionString | capture_radar_frames.py:28-77 | an empty response or fewer than three ';' fields gives None; a detection carries the integer speed bin and magnitude of fields 1 and 2, the register field and its bits 0-3 as detected, approaching/receding, high/low and micro, and a non-negative mph |
| CaptureRadarFrames.ParseFormatted | capture_radar_frames.py:34-54 | a detection string as the sensor sends it, with or without the "@C00" echo, parses back to its speed bin, magnitude and register bits |
| CaptureRadarFrames.FormattedValues | capture_radar_frames.py:35-40 | after the echo is removed and stripped, a sensor string splits into its three fields and a trailing empty one |
| Text.DropLeading | src/KLD2Manager.cpp:143 | the result is a suffix of the input that does not start with whitespace |
| Text.DropTrailing | src/KLD2Manager.cpp:143 | the result is a prefix of the input that does not end with whitespace |
| Text.StripEnds | src/KLD2Manager.cpp:143 | a trimmed line neither starts nor ends with whitespace |
| Text.StripRemovesSpaces | src/KLD2Manager.cpp:143 | trimming removes only whitespace: the result is the input with whitespace cut from both ends |
| Text.StripUntouched | capture_radar_frames.py:37 | a string without whitespace at its ends is left unchanged by strip |
| Text.Split | src/KLD2Manager.cpp:155 | split yields at least one part and no part holds the separator |
| Text.SplitJoin | capture_radar_frames.py:40 | re-joining the parts of a split with the separator gives the input back |
| Text.JoinSplit | capture_radar_frames.py:40 | splitting a join of separator-free parts gives the parts back |
| Text.IndexOf | src/KLD2Manager.cpp:139 | indexOf returns the position of the first occurrence |
| Text.PyWordsAreWords | kld2_ascii_reader.py:120 | every word of split() is non-empty and holds no whitespace |
| Text.PyWordsOfJoin | kld2_ascii_reader.py:120 | split() of non-empty words joined by single spaces gives the words back |
| Text.ShowInt | capture_radar_frames.py:46-47 | the decimal rendering is digits, with a leading '-' exactly for negative values |
| Text.DecimalRoundTrip | test_radar_standalone.py:185-190 | int(str(n)) == n, and QString::toInt reads back every 32-bit value it is given |
| Text.PyInt | test_radar_standalone.py:186-189 | an accepted text ends in a digit once stripped, and a negative value carries a leading minus sign |
| Text.QtToInt | src/KLD2Manager.cpp:164-169 | toInt succeeds only with a value that fits in 32 bits |
| Text.CStoi | test_radar.cpp:334-347 | std::stoi succeeds only with a value that fits in 32 bits |
| Text.StoiRoundTrip | test_radar.cpp:334-347 | std::stoi reads a 32-bit number back from its rendering followed by anything that does not continue the number |
| Text.HexRoundTrip | kld2_ascii_reader.py:66 | int(s, 16) reads every natural number back from its upper-case hex rendering |
| Text.PyHexIntOfDigits | kld2_ascii_reader.py:66 | int(s, 16) of a plain run of hex digits is their value |
| Text.PyHexInt | kld2_ascii_reader.py:66 | an accepted text is non-empty once stripped, and a negative value carries a leading minus sign |
| Text.LowBits | kld2_ascii_reader.py:67-70 | the masks 0x01, 0x02, 0x04 and 0x08 select bits 0-3, also for negative values |
| RadarLines.FormatSplit | src/KLD2Manager.cpp:151-155 | a report line the sensor formats splits into its four numbers and an empty tail |
| RadarLines.FormatShape | src/KLD2Manager.cpp:151-152 | a report line holds no line end, starts with a sign or digit and ends with ';' |
| RadarLines.Lines | src/KLD2Manager.cpp:138-141 | no complete line contains '\n' |
| RadarLines.Remainder | src/KLD2Manager.cpp:138-141 | what stays buffered contains no '\n' |
| RadarLines.LinesAndRemainder | src/KLD2Manager.cpp:138-141 | the complete lines and the remainder, joined with '\n', give the buffer back: consuming lines loses nothing |
| RadarLines.TakeLine | src/KLD2Manager.cpp:139-141 | taking the text before the first '\n' and dropping it with the '\n' removes exactly the first complete line and keeps the remainder |
| RadarLines.NoLines | src/KLD2Manager.cpp:138 | a buffer without '\n' has no complete line and is kept whole |
| RadarLines.FormattedLine | src/KLD2Manager.cpp:138-145 | a formatted report followed by '\n' is exactly one complete line |
| Kld2Manager.ParseFields | src/KLD2Manager.cpp:155-174 | a reading exactly when the line has at least four ';' parts whose first four toInt accepts |
| Kld2Manager.ParseFormatted | src/KLD2Manager.cpp:150-176 | a report as the sensor formats it, with 32-bit values, parses back to its four values |
| Kld2Manager.SpeedStep | src/KLD2Manager.cpp:179-235 | clubApproaching and detectionTriggered are emitted exactly when no swing runs and the speed reaches int(threshold); impactDetected exactly when a running swing sees a lower speed; afterwards a swing runs iff the speed reached the threshold; the peak is the speed on a swing start, then the higher of the old peak and the speed, and 0 once the swing ends; the peak invariant is kept |
| Kld2Manager.PeakIsSwingMax | src/KLD2Manager.cpp:205-234 | from no swing and peak 0, after any run of readings a swing runs exactly when the last speed reached int(threshold), and its peak is the highest speed since the last one below it; with no swing the peak is 0 |
| Kld2Manager.LineStep | src/KLD2Manager.cpp:143-176 | an empty, echoed or acknowledged line, or one whose fields do not parse, changes nothing and emits nothing; every line keeps the peak invariant |
| Kld2Manager.SpeedBalance | src/KLD2Manager.cpp:205-234 | one report keeps starts and impacts balanced against whether a swing is running |
| Kld2Manager.SwingBalance | src/KLD2Manager.cpp:129-234 | over any run of lines, every impact closes a swing a clubApproaching opened: starts plus the running swing at the start equal impacts plus the running swing at the end |
| Kld2Manager.SwingOkPreserved | src/KLD2Manager.cpp:205-234 | the peak is 0 outside a swing and at least the threshold inside one, after any run of lines |
| Kld2Manager.KLD2Manager.constructor | src/KLD2Manager.cpp:5-17 | not running, no port, trigger speed 40, debug off, no swing, peak 0, empty buffer |
| Kld2Manager.KLD2Manager.SetMinTriggerSpeed | src/KLD2Manager.cpp:23-28 | the speed is set, and the change signal fires iff it differed |
| Kld2Manager.KLD2Manager.SetDebugMode | src/KLD2Manager.cpp:30-35 | the flag is set, and the change signal fires iff it differed |
| Kld2Manager.KLD2Manager.Start | src/KLD2Manager.cpp:37-94 | a running manager returns true unchanged; otherwise it runs, and succeeds, iff some candidate port opened |
| Kld2Manager.KLD2Manager.Stop | src/KLD2Manager.cpp:96-117 | a stopped manager is left alone; otherwise it stops, closes the port and resets the swing to none with peak 0 |
| Kld2Manager.KLD2Manager.ProcessSpeed | src/KLD2Manager.cpp:179-235 | the swing state and emitted signals are SpeedStep of the old state |
| Kld2Manager.KLD2Manager.ParseResponse | src/KLD2Manager.cpp:150-177 | a malformed line emits nothing and changes nothing; a well-formed one runs SpeedStep on its reading |
| Kld2Manager.KLD2Manager.HandleLine | src/KLD2Manager.cpp:143-146 | a trimmed line that is empty or starts with '$' or '@' is never parsed; others go to parseResponse |
| Kld2Manager.KLD2Manager.HandleSerialData | src/KLD2Manager.cpp:129-148 | without a port nothing changes; otherwise the buffer keeps exactly the text after the last '\n' of old buffer + data, and the state and signals are those of running every complete line in order |
| Kld2Manager.KLD2Manager.Receive | src/KLD2Manager.cpp:135-147 | the received text joins the buffer and its complete lines are consumed in order |
| Kld2Manager.KLD2Manager.NextLine | src/KLD2Manager.cpp:139-141 | the first complete line leaves the buffer; the remaining lines and the remainder are unchanged, and the buffer shrinks |
| Kld2Manager.KLD2Manager.ConsumeLines | src/KLD2Manager.cpp:138-147 | the loop leaves the remainder buffered and has handled every complete line, in order |
| TestRadar.ModeExitCode | test_radar.cpp:483-489 | a mode other than "ball" or "club" is refused with exit code 1; those two are accepted |
| TestRadar.NonEmpty | test_radar.cpp:334-335 | skipping empty fields never adds tokens |
| TestRadar.NonEmptyExactly | test_radar.cpp:334-335 | the tokens are exactly the non-empty ';' fields |
| TestRadar.CollectExactly | test_radar.cpp:334-345 | collecting the conversions succeeds iff every stoi call succeeded, and then keeps every value in order |
| TestRadar.Conversions | test_radar.cpp:337 | each token goes through std::stoi, in order |
| TestRadar.ParseTokensFails | test_radar.cpp:336-343 | one token stoi rejects anywhere in the line fails the whole line |
| TestRadar.ParseTokens | test_radar.cpp:336-343 | a parsed line has one value per token, each the value std::stoi gives that token |
| TestRadar.TokensOfFormatted | test_radar.cpp:329-335 | the tokens of a formatted report are its four numbers; the empty field after the last ';' is skipped |
| TestRadar.ParseFormatted | test_radar.cpp:328-352 | a report as the sensor formats it, with 32-bit values, parses back to its four values |
| TestRadar.Counted | test_radar.cpp:354-358 | a valid reading adds one to totalReadings and raises maxClubSeen and maxBallSeen to the reading when it is larger, changing nothing else |
| TestRadar.ValuesStep | test_radar.cpp:347-414 | the counters grow and never decrease, the impact counter grows by the impacts announced; ball mode announces an impact exactly on a rising edge of the receding speed through ballThreshold and re-arms below it; club mode announces a start exactly when no swing runs and the speed reaches clubThreshold, an impact exactly when a running swing sees a lower speed, and keeps the peak: the speed on a start, then the higher of the old peak and the speed; any other mode only counts |
| TestRadar.PeakIsSwingMax | test_radar.cpp:395-412 | in club mode from no swing and peak 0, after any run of readings a swing runs exactly when the last speed reached clubThreshold, and its peak is the highest speed since the last one below it; with no swing the peak is 0 |
| TestRadar.ImpactReportsSwingPeak | test_radar.cpp:406-411 | the impact that ends a swing reports the highest approaching speed of that swing and the speed that ended it |
| TestRadar.RunAccounting | test_radar.cpp:229-241 | over any run of lines the impact counter grows by exactly the impacts announced, club mode closes every announced swing with one impact, and the statistics never decrease |
| TestRadar.UnknownModeNeverTriggers | test_radar.cpp:375-414 | with a mode main would refuse, no line announces anything or changes the trigger state |
| TestRadar.KLD2Radar.constructor | test_radar.cpp:68-82 | the tester starts with no swing, no ball, zero counters and maxima, and an empty buffer |
| TestRadar.KLD2Radar.ParseLine | test_radar.cpp:330-345 | the token loop returns the values of ParseTokens of the line's tokens, or fails as it does |
| TestRadar.KLD2Radar.SetState | test_radar.cpp:68-77 | the fields take the values of the given state |
| TestRadar.KLD2Radar.ProcessLine | test_radar.cpp:328-414 | a line that fails to parse or has fewer than four values changes nothing; otherwise the state and announcements are ValuesStep's |
| TestRadar.KLD2Radar.ProcessValues | test_radar.cpp:349-413 | the state and announcements after a successful parse are ValuesStep's |
| TestRadar.KLD2Radar.TrimLine | test_radar.cpp:234-236 | the trim loop removes exactly the trailing '\r' and ' ' characters |
| TestRadar.KLD2Radar.HandleLine | test_radar.cpp:233-240 | a trimmed line that is empty or starts with '$' or '@' is skipped; others go to processLine |
| TestRadar.KLD2Radar.NextLine | test_radar.cpp:229-231 | the first complete line leaves the buffer; the remaining lines and the remainder are unchanged |
| TestRadar.KLD2Radar.Receive | test_radar.cpp:218-241 | the received bytes join the buffer as a C string, only up to the first NUL; the buffer then keeps exactly the text after the last '\n', and every complete line is handled in order |
| TestRadar.CString | test_radar.cpp:222-225 | what `buffer += buf` appends: a NUL-free prefix of the read that stops exactly at its first NUL, and the whole read when it holds none |
| TestRadarStandalone.ParseResponse | test_radar_standalone.py:179-195 | a reading exactly when the line has at least four ';' parts and int accepts each of the first four |
| TestRadarStandalone.ParseFormatted | test_radar_standalone.py:179-191 | a report as the sensor formats it parses back to its four values, whatever their size |
| TestRadarStandalone.FirstReport | test_radar_standalone.py:167-170 | the chosen line is neither empty, an echo nor an acknowledgement and is one of the lines; there is none exactly when every line is skipped |
| TestRadarStandalone.ReadOnce | test_radar_standalone.py:161-172 | only the first report line of the stripped data is parsed; the rest of the read is dropped |
| TestRadarStandalone.Step | test_radar_standalone.py:197-249 | each seen maximum becomes the higher of the old one and the reading; the impact counter grows by one exactly on an impact event; ball mode reports an impact exactly on a rising edge through min_ball_trigger and "ready" exactly on the falling edge; club mode reports a start exactly when no swing runs and the speed reaches min_club_trigger, an impact exactly when a running swing sees a lower speed, the peak is the speed on a start, then the higher of the old peak and the speed, and 0 once the swing ends; any other mode returns None |
| TestRadarStandalone.SeenIsRunMax | test_radar_standalone.py:205-208 | after a non-empty run the seen maxima are the higher of their old values and the highest club and ball speeds of the run |
| TestRadarStandalone.PeakIsSwingMax | test_radar_standalone.py:225-246 | in club mode from no swing and peak 0, after any run of readings a swing runs exactly when the last speed reached min_club_trigger, and its peak is the highest speed since the last one below it; with no swing the peak is 0 |
| TestRadarStandalone.ImpactReportsSwingPeak | test_radar_standalone.py:239-247 | the impact event that ends a swing reports the highest approaching speed of that swing and the speed that ended it |
| TestRadarStandalone.AgreesWithConsole | test_radar_standalone.py:197-249 | with the same mode and thresholds the Python tester and the console tester reach the same trigger state and statistics, and announce an impact on the same readings |
| TestRadarStandalone.KLD2RadarTester.constructor | test_radar_standalone.py:64-95 | the tester keeps the mode and thresholds and starts with no swing, no ball, no readings and zero statistics |
| TestRadarStandalone.KLD2RadarTester.ProcessReading | test_radar_standalone.py:197-249 | the reading is appended to readings, and the state and event are Step's |
| TestRadarStandalone.RunAccounting | test_radar_standalone.py:210-247 | over any run of readings the impact counter grows by exactly the impact events, and in club mode every impact closes a swing a SWING START opened |
| RadarTestGui.RadarConnection.constructor | radar_test_gui.py:184 | the poll loop starts with an empty receive buffer |
| RadarTestGui.RadarConnection.ParseAndEmit | radar_test_gui.py:206-217 | a reading is emitted exactly when the line splits into at least four ';' parts whose first four int accepts; anything else emits nothing |
| RadarTestGui.RadarConnection.HandleLine | radar_test_gui.py:196-200 | a complete line is stripped; empty lines and lines starting with '$' or '@' are skipped, the rest contribute their parsed reading |
| RadarTestGui.RadarConnection.NextLine | radar_test_gui.py:195-196 | taking the text before the first '\n' removes exactly the first complete line and leaves the later lines and the unterminated rest as they were |
| RadarTestGui.RadarConnection.Receive | radar_test_gui.py:191-200 | after a read the buffer holds only the text after the last '\n', and the readings emitted are those of every complete line, in order |
| RadarTestGui.FormattedReportEmitted | radar_test_gui.py:196-215 | a speed report as the sensor formats it, arriving as one line, is emitted as exactly its four values |
| RadarTestGui.ReportLineEmitted | radar_test_gui.py:196-215 | any line that starts with a sign or digit, ends with ';' and parses is neither stripped nor skipped, and is emitted as its reading |
| RadarTestGui.Process | radar_test_gui.py:272-317 | from idle the machine arms exactly when approaching reaches the club threshold, recording that speed as the club maximum and the arm time; armed, the club maximum becomes the higher of the old one and the reading, and the machine triggers exactly when receding reaches the ball threshold, then recording that speed as the ball maximum and emitting shot_detected with the club maximum and that speed; triggered, it stays triggered, keeps the club maximum and the ball maximum becomes the higher of the old one and the reading; a practice swing ignores readings; the consistency invariant is kept |
| RadarTestGui.ArmedPeak | radar_test_gui.py:276-296 | from idle, a run of readings leaves the machine idle exactly when no approaching speed reached the club threshold, never in a practice swing, and armed with the highest approaching speed since the first one that reached it |
| RadarTestGui.ShotReportsSwingPeak | radar_test_gui.py:293-308 | a ball reading that triggers an armed machine emits shot_detected with the highest approaching speed since arming and that ball speed |
| RadarLines.MaxOf | src/KLD2Manager.cpp:216-217 | the peak a tracker keeps by replacing it only with a higher speed is a member of the run and at least every speed of it |
| RadarLines.SwingOnset | src/KLD2Manager.cpp:205-234 | the start of the current swing: every speed from it on reaches the threshold, and the speed just before it does not |
| RadarLines.FirstAtLeast | radar_test_gui.py:276-278 | the first speed that reaches the threshold: none before it does, and it does unless it is the end |
| RadarTestGui.Timeout | radar_test_gui.py:319-331 | only an armed machine turns into a practice swing, reporting its club maximum; in any other state nothing but the timer changes; the invariant is kept |
| RadarTestGui.ProcessShots | radar_test_gui.py:293-311 | one reading reports a shot exactly when it takes an armed machine to triggered |
| RadarTestGui.ShotAtMostOnce | radar_test_gui.py:272-317 | a run of readings without a reset reports one shot exactly when it ends triggered having started elsewhere, and none otherwise; a triggered machine stays triggered |
| RadarTestGui.DetectionStateMachine.constructor | radar_test_gui.py:240-257 | thresholds 40 mph (club) and 60 mph (ball), a 200 ms arm timeout, idle with no swing data |
| RadarTestGui.DetectionStateMachine.SetClubThreshold | radar_test_gui.py:263-264 | sets only the club threshold |
| RadarTestGui.DetectionStateMachine.SetBallThreshold | radar_test_gui.py:266-267 | sets only the ball threshold |
| RadarTestGui.DetectionStateMachine.SetTimeout | radar_test_gui.py:269-270 | sets only the arm timeout |
| RadarTestGui.DetectionStateMachine.ProcessReading | radar_test_gui.py:272-317 | the new state and emitted effects are those of Process on the old state |
| RadarTestGui.DetectionStateMachine.OnTimeout | radar_test_gui.py:319-331 | the new state and emitted effects are those of Timeout on the old state |
| RadarTestGui.DetectionStateMachine.ResetToIdle | radar_test_gui.py:333-339 | idle, no arm time, both maxima zero, one IDLE state change; the timer is left alone |
| RadarTestGui.DetectionStateMachine.Reset | radar_test_gui.py:341-345 | the timer is stopped and the machine is idle and consistent |
| RadarCapture.ParsedExactly | analyze_radar_capture.py:26-39 | a frame is read exactly when some row converted to it; rows whose conversion fails are skipped |
| RadarCapture.ReadFrames | analyze_radar_capture.py:23-39 | the reading loop keeps the frames of the rows that convert, in file order |
| RadarCapture.Parsed | analyze_radar_capture.py:26-39 | the rows that convert give at most one frame each |
| RadarCapture.Detections | analyze_radar_capture.py:46 | every kept frame is detected and at 1 mph or more, and there are no more of them than frames |
| RadarCapture.DetectionsExactly | analyze_radar_capture.py:46 | a frame is a detection exactly when it is a detected frame at 1 mph or more |
| RadarCapture.MaxSpeedIndex | analyze_radar_capture.py:64-65 | the reported frame has the maximum speed of all detections and is the first with that speed, as max then index picks it |
| RadarCapture.MagnitudeBands | analyze_radar_capture.py:111-117 | the report has exactly five distance bands |
| RadarCapture.BandsPartition | analyze_radar_capture.py:111-117 | the first band counts exactly the magnitudes of 85 dB and up, and the five bands add up to the number of detections |
| RadarCapture.GroupSwings | analyze_radar_capture.py:141-155 | the swings concatenate back to the detections in order; each swing is non-empty with consecutive detections less than 2000 ms apart, and consecutive swings are at least 2000 ms apart |
| RadarCapture.SwingsSplitAtGaps | analyze_radar_capture.py:141-155 | the swing grouping splits the detections exactly at gaps of 2000 ms or more and loses or reorders none |
| RadarCapture.Swings | analyze_radar_capture.py:141-155 | there are swings exactly when there are detections, and never more swings than detections |
| AutoExposure.ModeIndex | include/AutoExposureController.h:45-51 | each preset mode's position indexes the five-entry preset table, and only AUTO has position 0 |
| AutoExposure.ModeIndexInjective | include/AutoExposureController.h:45-51 | distinct modes have distinct positions, so each mode reads its own preset |
| AutoExposure.ParseModeName | fast_auto_exposure/fast_auto_exposure.cpp:23-40 | a name accepted by the binding is the name of the mode it yields; a name that is no mode's name is an error |
| AutoExposure.ModeNameRoundTrip | fast_auto_exposure/fast_auto_exposure.cpp:23-40 | every mode's name maps back to that mode |
| AutoExposure.ErrorRatio | src/AutoExposureController.cpp:241-242 | the relative error the rule scales by is never negative |
| AutoExposure.CalculateAdjustment | src/AutoExposureController.cpp:224-276 | reason "within_target" exactly inside [target_min, target_max], where nothing changes; any change carries an adjusting reason; too dark raises gain up to max_gain with shutter fixed, then shutter up to max_shutter with gain fixed, else "at_max_exposure" with nothing changed; too bright lowers gain down to min_gain, then shutter down to min_shutter, else "at_min_exposure" with nothing changed |
| AutoExposure.FastSumRow | include/AutoExposureController.h:143-154 | the four-at-a-time loop plus the tail loop give exactly the sum of row[start..end), 0 when the range is empty |
| AutoExposure.FastMaxRow | include/AutoExposureController.h:159-165 | the largest byte of row[start..end), bounding every byte in the range, 0 for an empty range |
| AutoExposure.MaxOfBounds | include/AutoExposureController.h:159-165 | the maximum bounds every byte and is one of them unless it is 0 |
| AutoExposure.RowStartIsProduct | src/AutoExposureController.cpp:161 | row y starts y * stride bytes into the frame |
| AutoExposure.ScanRows | src/AutoExposureController.cpp:160-166 | the row loop accumulates exactly the sum and the maximum of the box's pixels |
| AutoExposure.ClippedBox | src/AutoExposureController.cpp:145-149 | the measured box is clipped inside the frame |
| AutoExposure.RectStatsValid | src/AutoExposureController.cpp:151-174 | a measurement is valid exactly when the clipped box is non-empty, and then counts the box's area, which is positive |
| AutoExposure.RectStatsMax | src/AutoExposureController.cpp:155-171 | the reported max bounds every pixel of the box and is one of them unless it is 0 |
| AutoExposure.RectStatsMean | src/AutoExposureController.cpp:155-171 | the reported mean lies between 0 and the reported max, which is at most 255 |
| AutoExposure.RingPushed | src/AutoExposureController.cpp:200-206 | writing at the index and advancing it modulo HISTORY_SIZE pushes the sample onto the held window, dropping the oldest once five are held |
| AutoExposure.MeanBounds | src/AutoExposureController.cpp:208-218 | the mean of samples in [lo, hi] lies in [lo, hi] |
| AutoExposure.PushCapped | src/AutoExposureController.cpp:200-206 | the window grows by one until it holds five samples, then drops its oldest; the new sample is last |
| AutoExposure.AutoExposureController.constructor | src/AutoExposureController.cpp:14-37 | no zone, target 160..200 around 180, shutter 500..1500 at 800, gain 1..16 at 10, AUTO, speed 0.3, 0.1 s interval, an empty zeroed history |
| AutoExposure.AutoExposureController.SetBallZone | src/AutoExposureController.cpp:39-44 | the zone is stored and marked configured |
| AutoExposure.AutoExposureController.SetPresetMode | src/AutoExposureController.cpp:46-63 | AUTO only re-enables automatic control and keeps the settings; any other mode loads its own preset's shutter, gain and target and turns automatic control off |
| AutoExposure.AutoExposureController.SetTargetBrightness | src/AutoExposureController.cpp:65-69 | stores the three targets |
| AutoExposure.AutoExposureController.SetShutterLimits | src/AutoExposureController.cpp:71-74 | stores both shutter limits |
| AutoExposure.AutoExposureController.SetGainLimits | src/AutoExposureController.cpp:76-79 | stores both gain limits |
| AutoExposure.AutoExposureController.SetAdjustmentSpeed | src/AutoExposureController.cpp:81-83 | the speed is clamped into [0, 1] and kept when already inside |
| AutoExposure.AutoExposureController.MeasureBrightnessRect | src/AutoExposureController.cpp:140-177 | the result is the mean and max of the box of half-side 1.5 times the zone radius around the zone, clipped to the frame, invalid when the box is empty |
| AutoExposure.AutoExposureController.MeasureBrightness | src/AutoExposureController.cpp:179-194 | no frame gives an invalid result and changes nothing; without a configured zone the centre zone (a quarter of the smaller side) is written into the zone fields and measured |
| AutoExposure.AutoExposureController.AddToHistory | src/AutoExposureController.cpp:200-206 | the slot at the index is overwritten, the index advances modulo 5, the count saturates at 5, and the held window is the old one with the sample pushed |
| AutoExposure.AutoExposureController.GetSmoothedBrightness | src/AutoExposureController.cpp:208-218 | 0 for an empty history, else the mean of the first count slots, which is the mean of the held samples |
| AutoExposure.AutoExposureController.Update | src/AutoExposureController.cpp:282-338 | manual mode without force and the rate limit without force return "manual_mode" / "rate_limited" and change nothing; past them an invalid measurement changes no setting and no history; otherwise the mean joins the history, the smoothed value drives calculateAdjustment, adjusted holds exactly when shutter or gain changed, and only then does the adjustment time move; the zone fields take the measured zone (the configured one, or the centre zone) |
| AutoExposure.AutoExposureController.MeasureAndAdjust | src/AutoExposureController.cpp:307-337 | the part of update past its gates, with the same outcome as stated for update, and the measured zone (the configured one, or the centre zone) written into the zone fields |
| AutoExposure.AutoExposureController.AdjustFromSample | src/AutoExposureController.cpp:315-337 | the sample is pushed, and the adjustment rule is applied to the smoothed mean of the held window |
| AutoExposure.AutoExposureController.ApplyAdjustment | src/AutoExposureController.cpp:320-336 | the rule's shutter and gain become current; changed holds exactly when either differs, and only then is the adjustment time set to now |
| AutoExposure.AutoExposureController.Reset | src/AutoExposureController.cpp:344-352 | shutter 800, gain 10, AUTO with automatic control on, and an emptied, zeroed history |
| AutoExposurePy.CalculateAdjustmentPy | auto_exposure.py:181-236 | reason "within_target" exactly inside the band, where the current shutter and gain come back untouched; outside it the gain has at most two decimals |
| AutoExposurePy.PyMatchesCpp | auto_exposure.py:181-236 | against the C++ rule: the same reason, the same result inside the band, the C++ gain rounded to two decimals outside it, and the same shutter except that a decreased shutter may land one microsecond lower |
| AutoExposurePy.PyWithinLimits | auto_exposure.py:204-236 | from settings inside the limits, the new shutter and gain stay inside [500, 1500] and [1.0, 16.0] (for limits with at most two decimals) |
| AutoExposurePy.PyChangesOnlyWhenAdjusting | auto_exposure.py:196-236 | for a two-decimal gain, shutter or gain change only with an adjusting reason, never with "within_target", "at_max_exposure" or "at_min_exposure" |
| AutoExposurePy.ZoneRegion | auto_exposure.py:136-149 | the measured region lies inside the frame |
| AutoExposurePy.ConfiguredRegionMatchesCpp | auto_exposure.py:141-149 | for a configured zone with a whole radius the region is the C++ controller's box |
| AutoExposurePy.DefaultRegionWithinCpp | auto_exposure.py:136-149 | without a zone the Python region (radius not widened) lies inside the C++ centre box |
| AutoExposurePy.AutoExposureController.constructor | auto_exposure.py:25-88 | the given zone, target 180, shutter 800, gain 10, no adjustment yet, an empty history, automatic mode with no preset |
| AutoExposurePy.AutoExposureController.SetBallZone | auto_exposure.py:92-95 | stores the zone centre and radius |
| AutoExposurePy.AutoExposureController.SetPresetMode | auto_exposure.py:98-120 | "auto" turns automatic mode on, forgets the preset and keeps the settings; a preset name loads its shutter, gain and target and turns automatic mode off; any other name changes nothing |
| AutoExposurePy.AutoExposureController.MeasureBrightness | auto_exposure.py:126-173 | valid exactly when the clipped region is non-empty, then the region's mean and max with 0 <= mean <= max <= 255; a valid mean joins the history, which drops its oldest sample beyond five; an invalid one leaves it alone |
| AutoExposurePy.AutoExposureController.SmoothedBrightness | auto_exposure.py:175-179 | None exactly for an empty history, else a mean that stays within [0, 255] |
| AutoExposurePy.AutoExposureController.GetStatus | auto_exposure.py:322-331 | the reported mode name reads back as the current preset, or as "auto" without one; history and automatic flag are reported as held |
| AutoExposurePy.AutoExposureController.Update | auto_exposure.py:250-320 | manual mode and the rate limit (both unless forced) return "manual_mode" / "rate_limited" and change nothing; an invalid measurement changes nothing; otherwise the history takes the mean, the rule runs on the smoothed value, the new settings are kept whenever they differ, and adjusted and the adjustment time follow only when the camera accepted them |
| AutoExposurePy.AutoExposureController.MeasureAndAct | auto_exposure.py:282-320 | the part of update past its gates, with the same outcome as stated for update |
| AutoExposurePy.AutoExposureController.Adjust | auto_exposure.py:298-309 | the new settings are the Python rule's; adjusted holds exactly when they differ and the camera accepted them, and only then does the adjustment time move; settings stay within the limits |
| AutoExposurePy.AutoExposureController.Reset | auto_exposure.py:333-339 | an empty history, shutter 800, gain 10, automatic mode with no preset; the target stays |
| FastAutoExposure.PyAutoExposureController.constructor | fast_auto_exposure/fast_auto_exposure.cpp:17 | wraps a fresh controller in automatic mode at 800 us and gain 10 |
| FastAutoExposure.PyAutoExposureController.SetBallZone | fast_auto_exposure/fast_auto_exposure.cpp:19-21 | the controller's zone centre and radius are set and marked configured; only those four fields change, and the controller stays consistent |
| FastAutoExposure.PyAutoExposureController.SetPresetMode | fast_auto_exposure/fast_auto_exposure.cpp:23-41 | an unknown name raises "Unknown preset mode: " and the name, and changes nothing; a known name selects its mode (whose name reads back as the given one), with automatic control exactly for AUTO; AUTO keeps shutter, gain and target, a fixed mode loads its preset's shutter, gain and target brightness; only those five fields change |
| FastAutoExposure.PyAutoExposureController.SetTargetBrightness | fast_auto_exposure/fast_auto_exposure.cpp:43-45 | the three targets are set and nothing else changes |
| FastAutoExposure.PyAutoExposureController.SetShutterLimits | fast_auto_exposure/fast_auto_exposure.cpp:47-49 | both shutter limits are set, nothing else changes, and the controller stays consistent |
| FastAutoExposure.PyAutoExposureController.SetGainLimits | fast_auto_exposure/fast_auto_exposure.cpp:51-53 | both gain limits are set, nothing else changes, and the controller stays consistent |
| FastAutoExposure.PyAutoExposureController.SetAdjustmentSpeed | fast_auto_exposure/fast_auto_exposure.cpp:55-57 | the speed is clamped into [0, 1]: kept when inside, 0 below, 1 above; nothing else changes |
| FastAutoExposure.PyAutoExposureController.MeasureBrightness | fast_auto_exposure/fast_auto_exposure.cpp:59-83 | a frame that is not two-dimensional raises and changes nothing; otherwise the dictionary carries the mean, max, pixel count and validity of the zone box, and the measured zone (the configured one, or the centre zone) is written into the zone fields, which are all that change |
| FastAutoExposure.PyAutoExposureController.Update | fast_auto_exposure/fast_auto_exposure.cpp:85-110 | a frame that is not two-dimensional raises and changes nothing; otherwise the dictionary is the controller's update result field by field with the reason as text: "manual_mode" or "rate_limited" with nothing changed when a gate stops the call, and otherwise the result and new state that the controller's measure-and-adjust rule gives; adjusted holds exactly when shutter or gain changed, and the controller stays consistent |
| FastAutoExposure.PyAutoExposureController.GetCurrentShutter | fast_auto_exposure/fast_auto_exposure.cpp:112-114 | returns the controller's current shutter: the one the next adjustment starts from and the one an update stopped by a gate reports |
| FastAutoExposure.PyAutoExposureController.GetCurrentGain | fast_auto_exposure/fast_auto_exposure.cpp:116-118 | returns the controller's current gain: the one the next adjustment starts from and the one an update stopped by a gate reports |
| FastAutoExposure.PyAutoExposureController.IsAutoMode | fast_auto_exposure/fast_auto_exposure.cpp:120-122 | returns the controller's auto flag: when it is off, every unforced update is gated; when it is on, an unforced update proceeds once the minimum interval has passed |
| FastAutoExposure.PyAutoExposureController.Reset | fast_auto_exposure/fast_auto_exposure.cpp:124-126 | the getters then read 800, 10.0 and automatic mode, the mode is AUTO and the history is empty; targets, limits and zone are kept |
| BallDetector.Pushed | src/BallDetector.cpp:407-413 | the new detection is first, the old history follows it, and the length grows by one up to 50 and never past it |
| BallDetector.PredictAfterPush | src/BallDetector.cpp:415-423 | after a new detection the prediction repeats the step from the previous newest detection to it; a ball seen twice at one place is predicted to stay there |
| BallDetector.Predict | src/BallDetector.cpp:415-423 | no history predicts (0, 0), one detection predicts its own centre, and otherwise the prediction repeats the step between the two newest centres |
| BallDetector.Confidence | src/BallDetector.cpp:303-354 | 0 for a centre outside the frame or a radius outside [min, max]; never above 1; without history the detection's own confidence capped at 1; never negative for a non-negative confidence |
| BallDetector.OnPredictionKeepsConfidence | src/BallDetector.cpp:339-353 | a detection exactly on the predicted position keeps at least its own confidence |
| BallDetector.ContourCircularity | src/BallDetector.cpp:317-329 | never above 1; 0 for a perimeter under 0.01; non-negative for a non-negative area; below the cap it is exactly 4 pi area / perimeter squared |
| BallDetector.DetectAuto | src/BallDetector.cpp:283-297 | the chosen detection is one of the three, has the highest confidence, and ties go to Hough, then blob |
| BallDetector.DetectBall | src/BallDetector.cpp:125-141 | an empty frame gives the empty detection; "blob" gives the blob detection; any name other than "hough", "blob" or "contour" runs the automatic choice |
| BallDetector.SmoothedBetween | src/BallDetector.cpp:365-375 | the smoothed coordinate is a weighted mean: it lies between the least and greatest coordinate used |
| BallDetector.FilteredInBox | src/BallDetector.cpp:356-377 | smoothing changes only the centre, keeps it inside any box holding the new centre and the three latest ones, and without history changes nothing |
| BallDetector.Filtered | src/BallDetector.cpp:356-377 | only the centre can change, and without a history nothing changes |
| BallDetector.BallDetector.constructor | include/BallDetector.h:117-120 | an empty history, radius range 4..15 px, circularity 0.7, method "auto" |
| BallDetector.BallDetector.SetMinBallRadius | src/BallDetector.cpp:25-30 | sets only the minimum radius and reports a change exactly when the value differs |
| BallDetector.BallDetector.SetMaxBallRadius | src/BallDetector.cpp:32-37 | sets only the maximum radius and reports a change exactly when the value differs |
| BallDetector.BallDetector.AddToHistory | src/BallDetector.cpp:407-413 | the history becomes Pushed of the old one; nothing else changes |
| BallDetector.BallDetector.GetRecentDetections | src/BallDetector.cpp:425-434 | the min(count, size) newest detections, newest first; none for a count of zero or less |
| BallDetector.BallDetector.FilterWithHistory | src/BallDetector.cpp:356-377 | the loop computes exactly the weighted mean of the new centre (weight 1) and the three latest ones (weights 1/2, 1/3, 1/4) |
| BallDetector.BallDetector.TrackBall | src/BallDetector.cpp:383-405 | after detectBallWithBackground's push, a detection is tracked exactly when its radius is positive and its confidence above 0.5; a tracked detection is smoothed against the history and its smoothed version heads the history; the radius and method settings do not change |
| BallDetector.BallDetector.DetectBallWithBackground | src/BallDetector.cpp:140-165 | with background subtraction on and a background captured, a foreground detection with positive radius enters the history; otherwise the history is unchanged; the settings never change |
| BallDetector.BallDetector.Reset | src/BallDetector.cpp:436-439 | an empty history, parameters unchanged |
| BallTracker.StepSumTelescopes | src/BallTracker.cpp:525-529 | the summed frame-to-frame steps telescope to the displacement over those steps |
| BallTracker.PredictedExtrapolates | src/BallTracker.cpp:514-533 | with two or more positions the prediction is the last position plus the mean velocity over the last min(3, size) positions |
| BallTracker.ConstantVelocityPredicted | src/BallTracker.cpp:514-533 | a ball moving by the same step between its last positions is predicted to move by that step again |
| BallTracker.PredictNextPosition | src/BallTracker.cpp:514-533 | the backwards velocity loop gives the prediction: the zone centre with no position, the only position with one, else the extrapolation |
| BallTracker.ValidPositionFacts | src/BallTracker.cpp:535-539 | the prediction itself always validates, and validation is symmetric in its two points |
| BallTracker.ValidPosition | src/BallTracker.cpp:535-539 | a valid position lies less than 100 px from the prediction along each axis |
| BallTracker.Pow | src/BallTracker.cpp:464 | a growth rate of at least 1 gives a factor of at least 1 |
| BallTracker.SearchRegionGrows | src/BallTracker.cpp:459-475 | with rate >= 1 the search half-width starts at the zone radius (when that is under 300), never shrinks from one frame to the next and never exceeds 300 px, and the next frame's whole-pixel window contains this frame's |
| BallTracker.SearchRegion | src/BallTracker.cpp:459-475 | the window is the cv::Rect of the square around the last position, with each corner rounded to the nearest pixel: for a non-negative half-width every edge lies within half a pixel of the exact square's, and the window is at most 600 px wide and high |
| BallTracker.WindowContains | src/BallTracker.cpp:470-474 | a wider half-width gives a rounded window that contains the narrower one's |
| BallTracker.RoundedWindowExample | src/BallTracker.cpp:470-474 | the corner rounding shows: around (0.3, 0) with half-width 10.3 the window starts at (-10, -10) and is 21 px wide and 20 px high, so it is not always square |
| BallTracker.PreTrigger | src/BallTracker.cpp:195-204 | min(5, buffered) positions of the resting ball, at the newest buffered timestamps in order, with frame numbers counting back from the current one, confidence 1 |
| BallTracker.StepKeepsInv | src/BallTracker.cpp:125-281 | processFrame keeps the invariant: the frame and timestamp buffers stay equal in length and at most 30, an armed session holds every frame since arming up to 30 and no positions, and a following session holds fewer than the maximum |
| BallTracker.ArmedKeepsInv | src/BallTracker.cpp:144-207 | an armed frame keeps the invariant, whether it settles, records the resting ball or triggers with the pre-trigger positions |
| BallTracker.FollowKeepsInv | src/BallTracker.cpp:210-274 | a following frame keeps the invariant: fewer than the maximum positions while still following |
| BallTracker.TriggerExactly | src/BallTracker.cpp:165-205 | past the settling frames an armed session triggers exactly on camera motion confirmed by a connected radar above 5 mph, or on motion with no radar connected; then it holds the five pre-trigger positions, reports the hit at the resting ball and follows from there; otherwise it stays armed |
| BallTracker.ShouldTrigger | src/BallTracker.cpp:169-181 | there is no trigger without camera motion; a connected radar reading 5 mph or less vetoes it; camera motion with no radar connected triggers |
| BallTracker.FollowOutcomes | src/BallTracker.cpp:210-274 | a following frame goes on, completes with at least the minimum positions, fails and disarms to idle with too few, or stops at the maximum; positions are only ever appended, one at a time |
| BallTracker.FollowStep | src/BallTracker.cpp:210-274 | a following frame adds at most one position and keeps the earlier ones; an added position becomes the last position and validates against the prediction from the earlier ones; a failure leaves fewer than the minimum positions |
| BallTracker.StrayDetectionEnds | src/BallTracker.cpp:244-256 | a detection 100 px or more from the prediction ends following at once, with an event |
| BallTracker.RunKeepsInv | src/BallTracker.cpp:125-281 | the invariant holds over any run of frames, and an idle, analysing or complete session stays as it is |
| BallTracker.Tracker.constructor | src/BallTracker.cpp:7-34 | idle, empty buffers and trajectory, 10 to 60 tracking frames, 1.25 growth per frame |
| BallTracker.Tracker.ArmTracking | src/BallTracker.cpp:44-79 | refused without ball-zone and zone calibration, changing nothing; otherwise armed with empty buffers and trajectory, counters zeroed, and the calibrated zone cached |
| BallTracker.Tracker.DisarmTracking | src/BallTracker.cpp:81-91 | idle, with everything collected kept |
| BallTracker.Tracker.ResetTracking | src/BallTracker.cpp:93-99 | idle, with both buffers and the trajectory cleared |
| BallTracker.Tracker.AnalyzeTrajectory | src/BallTracker.cpp:559-580 | fewer than the minimum positions fail and change nothing; otherwise the session is complete and reports its number of positions |
| BallTracker.Tracker.ArmedFrame | src/BallTracker.cpp:144-208 | the armed branch: buffer the frame, then settle, record the resting ball, or trigger, as the armed step states |
| BallTracker.Tracker.BufferIncoming | src/BallTracker.cpp:146-154 | the frame and its timestamp are appended, the oldest dropped beyond 30, and one more frame counted since arming |
| BallTracker.Tracker.DecideArmed | src/BallTracker.cpp:156-206 | the 10th frame records the resting ball; later frames trigger exactly under the trigger condition |
| BallTracker.Tracker.AddPreTriggerPositions | src/BallTracker.cpp:195-204 | the loop appends exactly the pre-trigger positions and nothing else changes |
| BallTracker.Tracker.FollowFrame | src/BallTracker.cpp:210-274 | the following branch: search in the growing window, keep a detection that validates against the prediction, analyse at the maximum, give up on a stray detection or after more than five positions without one |
| BallTracker.Tracker.DecideFollow | src/BallTracker.cpp:218-270 | after the search: a detection that validates against the prediction is appended with the frame's timestamp and number and becomes the last position, the maximum count analyses; a stray detection, or no detection past five positions, finishes or fails as the minimum allows |
| BallTracker.Tracker.GiveUp | src/BallTracker.cpp:246-270 | a lost ball is analysed with at least the minimum positions, otherwise tracking fails and disarms |
| BallTracker.Tracker.ProcessFrame | src/BallTracker.cpp:125-281 | no frame changes nothing; otherwise the frame is counted and the new session and event are those of the step function, whose invariant and outcomes the lemmas above state |
| CameraCalibration.StateString | src/CameraCalibration.cpp:1492-1511 | each of the seven zone states gets its own short name of at least five characters |
| CameraCalibration.StateStringInjective | src/CameraCalibration.cpp:1492-1511 | two states share a name exactly when they are the same state |
| CameraCalibration.SquaredDistance | src/CameraCalibration.cpp:1482-1484 | the squared movement from the first position is never negative, so comparing it with 2.0 squared is the same as comparing the distance with 2.0 |
| CameraCalibration.Recorded | src/CameraCalibration.cpp:1551-1559 | an in-zone detection appends the position and keeps the newest 15; any other frame empties the history; a history of at most 15 stays at most 15 |
| CameraCalibration.ZoneStep | src/CameraCalibration.cpp:1547-1629 | the complete transition table: NO_BALL, OUT_OF_ZONE, MOVING and STABILIZING follow detection, zone and stability; READY needs a stable ball and a 1000 ms dwell; READY becomes IMPACT exactly when the ball is lost or leaves the zone; IMPACT becomes PROCESSING, which never changes; the stable-start and impact times are set only on those transitions; arming happens exactly on entering READY |
| CameraCalibration.ZoneStepKeepsInv | src/CameraCalibration.cpp:1547-1629 | one frame keeps the machine consistent: the history holds at most 15 positions, it is empty exactly when no ball sits in the zone, a stabilizing ball has a stable history and READY is armed |
| CameraCalibration.TransitKeepsInv | src/CameraCalibration.cpp:1562-1629 | the state switch keeps that consistency once the history agrees with the observation |
| CameraCalibration.Transit | src/CameraCalibration.cpp:1562-1629 | the switch keeps the history; READY is entered only from stabilizing or READY; the system becomes armed only on the step from stabilizing into READY and otherwise keeps its flag; a lost ball in OUT_OF_ZONE, MOVING or STABILIZING goes back to NO_BALL; POST_IMPACT never changes |
| CameraCalibration.RunZoneKeepsInv | src/CameraCalibration.cpp:1547-1629 | over any run of frames the machine stays consistent, an armed system stays armed and PROCESSING is never left |
| CameraCalibration.ReadyNeedsDwell | src/CameraCalibration.cpp:1594-1605 | a run that reaches READY from any other state contains a frame that ended a stabilizing dwell of at least 1000 ms |
| CameraCalibration.ArmedAtExtends | src/CameraCalibration.cpp:1594-1605 | the frame that armed a run still armed it after more frames are appended |
| CameraCalibration.ArmedAtLast | src/CameraCalibration.cpp:1601-1604 | a run whose last frame entered READY was armed by that frame |
| CameraCalibration.NoCircles | src/CameraCalibration.cpp:983-1022 | a frame without circles adds one miss; the track survives while the Kalman prediction carries it (fewer than 10 misses, confidence above 3) and is dropped, with confidence 0, after more than 15 misses |
| CameraCalibration.Rejected | src/CameraCalibration.cpp:1194-1198 | when every candidate is rejected, the miss count goes up by one and nothing else changes |
| CameraCalibration.Detected | src/CameraCalibration.cpp:1294-1301 | a found ball initializes the track at confidence 10 with no misses and leaves the Kalman flag alone |
| CameraCalibration.SearchRadius | src/CameraCalibration.cpp:1034-1051 | with a track of confidence above 2 the radius is 30 px from confidence 8, 50 px from 5 and 100 px below; without such a track the search is unbounded |
| CameraCalibration.SearchRadiusMonotone | src/CameraCalibration.cpp:1034-1051 | higher confidence never gives a wider search |
| CameraCalibration.MissesKeepLock | src/CameraCalibration.cpp:983-1022 | after a detection, up to 15 frames without circles keep the track at confidence 10 and the search locked at 30 px |
| CameraCalibration.BallZoneDetector.constructor | include/CameraCalibration.h:202-250 | the detector starts in NO_BALL, disarmed, with an empty history, no track, no zone and no marker corners |
| CameraCalibration.BallZoneDetector.IsBallStable | src/CameraCalibration.cpp:1472-1490 | the result is true exactly when there are at least 15 positions and every one is less than 2 px from the first |
| CameraCalibration.BallZoneDetector.UpdateBallZoneState | src/CameraCalibration.cpp:1547-1629 | the new zone state is the one ZoneStep gives; the track, the zone corners and the marker corners are unchanged |
| CameraCalibration.BallZoneDetector.RecordPosition | src/CameraCalibration.cpp:1551-1559 | only the history changes, and it becomes Recorded of the old one |
| CameraCalibration.BallZoneDetector.Transition | src/CameraCalibration.cpp:1562-1629 | the state, times and armed flag become those of the switch applied to the updated history |
| CameraCalibration.BallZoneDetector.ResetTracking | src/CameraCalibration.cpp:1444-1454 | the detector goes back to NO_BALL, disarmed, with no history and no track; the zone, marker corners and timestamps are kept |
| CameraCalibration.BallZoneDetector.OnNoCircles | src/CameraCalibration.cpp:983-1022 | the track counters become NoCircles of the old ones; the zone machine is unchanged |
| CameraCalibration.BallZoneDetector.OnCandidatesRejected | src/CameraCalibration.cpp:1194-1198 | the track counters become Rejected of the old ones |
| CameraCalibration.BallZoneDetector.OnBallFound | src/CameraCalibration.cpp:1294-1301 | the track counters become Detected of the old ones |
| CameraCalibration.BallZoneDetector.SetZoneCorners | src/CameraCalibration.cpp:849-857 | exactly four corners are accepted; they define the zone; any other count changes nothing |
| CameraCalibration.BallZoneDetector.SetGroundPlanePoints | src/CameraCalibration.cpp:207-217 | the call succeeds exactly with at least four image points and as many world points, and then keeps the image points as the marker corners; otherwise nothing changes |
| CaptureManager.FloorSqrt | src/CaptureManager.cpp:380 | the result is the integer square root: its square is at most the input and the next square exceeds it, as casting the C++ square root to int gives |
| CaptureManager.SameBallDistance | src/CaptureManager.cpp:375-384 | two detections are the same ball exactly when both are present and their squared centre distance is below 2500, so truncating the distance loses nothing |
| CaptureManager.SameBallReflexive | src/CaptureManager.cpp:375-384 | a present ball is the same ball as itself |
| CaptureManager.IsSameBall | src/CaptureManager.cpp:375-384 | the same ball needs both balls present and a squared centre distance below 2500; a present ball at the same centre is the same ball |
| CaptureManager.ImpactDirection | src/CaptureManager.cpp:386-400 | with direction +1 an impact is a move of more than the threshold toward larger coordinates on the chosen axis, with -1 toward smaller ones; a ball that did not move is never an impact for a non-negative threshold |
| CaptureManager.DetectImpact | src/CaptureManager.cpp:386-400 | an impact needs both balls present and, for a non-negative threshold, a non-zero direction and a changed coordinate on the chosen axis |
| CaptureManager.Buffered | src/CaptureManager.cpp:221-225 | the frame is appended and the oldest one dropped beyond 40; the buffer never grows past 40 and ends with the new frame |
| CaptureManager.Lock | src/CaptureManager.cpp:230-239 | an unlocked loop locks on the first ball with a positive radius and keeps it; nothing else in the session changes |
| CaptureManager.FrameOutcomes | src/CaptureManager.cpp:241-318 | a shot is captured exactly when the radar flagged an impact and the locked ball, still the same ball, moved; the replay is the buffered frames, and the loop then unlocks, clears the flags and the buffer and counts the shot; the same ball not moving is a practice swing that clears the flags and keeps the lock; in camera-only mode a move is only reported and changes nothing |
| CaptureManager.ShotNeedsSmallMove | src/CaptureManager.cpp:241-252 | with the default settings a captured shot needs the ball to have moved down the frame by more than 10 px and less than 50 px, because a larger move no longer counts as the same ball |
| CaptureManager.ShotsAppend | src/CaptureManager.cpp:288-289 | counting captured shots distributes over concatenated runs |
| CaptureManager.RunAccounting | src/CaptureManager.cpp:191-318 | over any run of frames the buffer stays within 40, the shot number grows by exactly the number of captured shots, and camera-only mode never captures a shot |
| CaptureManager.ReplayFps | src/CaptureManager.cpp:402-407 | no video is written without frames; otherwise the rate is the slowed rate truncated, and at least 1 |
| CaptureManager.CaptureLoop.constructor | src/CaptureManager.cpp:14-27 | the loop starts stopped, unlocked, with all radar flags clear, an empty buffer and shot number 1; the radar trigger is always on, and the impact settings are the ones given |
| CaptureManager.CaptureLoop.OnKld2ClubDetected | src/CaptureManager.cpp:47-51 | the triggered and waiting-for-impact flags are set and nothing else changes |
| CaptureManager.CaptureLoop.OnKld2Impact | src/CaptureManager.cpp:53-56 | the impact flag is set and nothing else changes |
| CaptureManager.CaptureLoop.StartCapture | src/CaptureManager.cpp:58-88 | starting is refused while running and then changes nothing; otherwise the flags are cleared, radar mode is dropped if the radar does not start, and the loop runs unlocked from shot 1 |
| CaptureManager.CaptureLoop.ProcessFrame | src/CaptureManager.cpp:221-318 | the new session and the outcome are those of FrameStep for the frame and its ball |
| CaptureManager.CaptureLoop.Receive | src/CaptureManager.cpp:221-239 | the frame is buffered as Buffered gives and the first ball seen is locked as Lock gives |
| CaptureManager.CaptureLoop.DecideFrame | src/CaptureManager.cpp:241-318 | the session and outcome after the impact checks are those of Decide |
| FastDetection.FrameFormat | cpp_module/fast_detection.cpp:26-40 | shapes (H,W), (H,W,1) and (H,W,3) are accepted, with (H,W,3) read as colour and the others as grey; every other shape fails with the format message |
| FastDetection.FirstGood | cpp_module/fast_detection.cpp:86-92 | the index found is the first attempt with one to three circles, and None means no attempt has that many |
| FastDetection.FirstNonEmpty | cpp_module/fast_detection.cpp:93-96 | the index found is the first attempt with any circle, and None means every attempt is empty |
| FastDetection.SelectCircles | cpp_module/fast_detection.cpp:68-98 | the loop over the sensitivity schedule returns the first attempt with one to three circles, otherwise the first non-empty one, otherwise nothing; it reports a good detection exactly when such an attempt exists |
| FastDetection.FirstGoodAt | cpp_module/fast_detection.cpp:89-92 | the loop stops at the first good attempt, which is the one the schedule selects |
| FastDetection.FirstNonEmptyGrows | cpp_module/fast_detection.cpp:93-96 | adding one attempt keeps the earlier non-empty choice, or chooses the new attempt when it is the first non-empty one |
| FastDetection.Dedup | cpp_module/fast_detection.cpp:101-124 | de-duplication never keeps more circles than it is given |
| FastDetection.DedupSeparatesAndCovers | cpp_module/fast_detection.cpp:101-124 | no two kept circles have centres within 10 px along both axes, and every input circle has a kept circle whose centre is that close |
| FastDetection.SubsequenceDropLast | cpp_module/fast_detection.cpp:119-122 | dropping the last element keeps a subsequence a subsequence |
| FastDetection.SubsequenceExtend | cpp_module/fast_detection.cpp:119-122 | a subsequence stays one when the longer sequence grows |
| FastDetection.DedupOrder | cpp_module/fast_detection.cpp:105-123 | the kept circles appear in their input order |
| FastDetection.Deduplicate | cpp_module/fast_detection.cpp:101-124 | the removal loop with its list of used centres keeps exactly the circles Dedup keeps |
| FastDetection.NearUsedCenter | cpp_module/fast_detection.cpp:111-117 | the result is true exactly when some used centre is within 10 px of the rounded centre along both axes |
| FastDetection.CoveredByCenters | cpp_module/fast_detection.cpp:103-122 | the list of used centres answers the same question as the kept circles' rounded centres |
| FastDetection.DedupStep | cpp_module/fast_detection.cpp:119-122 | one more circle is kept exactly when no kept centre is close to it |
| FastDetection.Uniformity | cpp_module/fast_detection.cpp:201-203 | the uniformity score is at least 0.5, so its gate never rejects, and at most 1 for a non-negative deviation |
| FastDetection.CandidateScore | cpp_module/fast_detection.cpp:131-217 | a scored candidate lies fully inside the frame, has a radius from 15 to 150, mean brightness of at least 85, a contour with circularity of at least 0.75 and an edge score of at least 0.1 |
| FastDetection.AcceptedScoreAtLeast51 | cpp_module/fast_detection.cpp:213-228 | every candidate that passes the gates scores at least 51, so the final test for a score above 40 never rejects one |
| FastDetection.Pick | cpp_module/fast_detection.cpp:128-129 | the running best is the first of the highest positive scores; it is -1 with score 0 exactly when no positive score exists |
| FastDetection.Scores | cpp_module/fast_detection.cpp:131-217 | there is one score per circle, each from that circle's rounded centre and radius |
| FastDetection.BestReported | cpp_module/fast_detection.cpp:126-234 | a ball is reported exactly when some candidate passes every gate; it is the first of the highest-scoring candidates and lies inside the frame |
| FastDetection.Best | cpp_module/fast_detection.cpp:126-231 | a reported ball is the rounded circle of some candidate that passes every gate and scores above 40 |
| FastDetection.ChooseBest | cpp_module/fast_detection.cpp:127-231 | the scoring loop returns the best candidate scoring above 40, as Best defines it |
| FastDetection.DetectBall | cpp_module/fast_detection.cpp:22-235 | the detector fails on a bad shape; otherwise it selects, de-duplicates and scores the Hough results, as DetectBallSpec composes them |
| FastDetection.Present | cpp_module/fast_detection.cpp:248-258 | the collected positions are exactly the present entries of the history, in order |
| FastDetection.VelocityBounds | cpp_module/fast_detection.cpp:264-271 | with a non-negative step length the path length is non-negative, and it is 0 when the ball never moved |
| FastDetection.Velocity | cpp_module/fast_detection.cpp:243-275 | fewer than two present positions give 0, and with a non-negative step length the velocity is never negative |
| FastDetection.CalculateVelocity | cpp_module/fast_detection.cpp:243-275 | the two loops return 0 for fewer than two positions, otherwise the total step length over the number of steps, as Velocity defines it |
| TrajectoryTracker.TimeDeltaSeconds | src/TrajectoryTracker.cpp:420-422 | the result is the absolute difference of two microsecond timestamps, in seconds, and never negative |
| TrajectoryTracker.TimeDeltaSymmetric | src/TrajectoryTracker.cpp:420-422 | the order of the timestamps does not matter, and a timestamp is 0 s from itself |
| TrajectoryTracker.Appended | src/TrajectoryTracker.cpp:183-187 | the new point goes last, the oldest point is erased beyond 100, and the rest keep their order |
| TrajectoryTracker.AppendAllKeepsNewest | src/TrajectoryTracker.cpp:183-187 | any run of updates keeps exactly the newest 100 points, in order |
| TrajectoryTracker.AppendedSuffix | src/TrajectoryTracker.cpp:183-187 | appending to the newest points of a list gives the newest points of the extended list |
| TrajectoryTracker.InitialVelocity | src/TrajectoryTracker.cpp:264-294 | with fewer than three points the initial velocity is zero |
| TrajectoryTracker.UniformMotionVelocity | src/TrajectoryTracker.cpp:264-294 | a ball moving at a constant velocity over its first ten points, spanning more than 1 ms, has that initial velocity |
| TrajectoryTracker.Launch | src/TrajectoryTracker.cpp:296-326 | from five points on, a flat trajectory gets the 12-degree default vertical angle; the horizontal angle is the velocity's heading |
| TrajectoryTracker.AddResiduals | src/TrajectoryTracker.cpp:405-409 | adding a point never lowers either sum of squares |
| TrajectoryTracker.ResidualsOf | src/TrajectoryTracker.cpp:403-409 | both sums of squared residuals are non-negative |
| TrajectoryTracker.FitFacts | src/TrajectoryTracker.cpp:354-414 | fewer than three points, or a determinant below 1e-10 in absolute value, give the all-zero fit; R squared is never above 1 |
| TrajectoryTracker.FitParabola | src/TrajectoryTracker.cpp:354-414 | the two loops (power sums, then residuals) return the fit Fit defines |
| TrajectoryTracker.Tracker.constructor | include/TrajectoryTracker.h:110-130 | the tracker starts idle, with no points, no misses and all launch figures zero |
| TrajectoryTracker.Tracker.BallSpeedMph | include/TrajectoryTracker.h:45 | for a non-negative speed in m/s, the speed in mph is at least as large |
| TrajectoryTracker.Tracker.StartTracking | src/TrajectoryTracker.cpp:77-93 | a call while tracking changes nothing; otherwise tracking starts at the given time with no points, no misses and the metrics marked stale, and the last launch figures are kept |
| TrajectoryTracker.Tracker.UpdateTracking | src/TrajectoryTracker.cpp:134-194 | an update is refused, changing nothing, exactly when not tracking; otherwise the world position (the image position without calibration) is appended within the bound of 100 and the miss count cleared |
| TrajectoryTracker.Tracker.CalculateInitialVelocity | src/TrajectoryTracker.cpp:264-294 | the loop over the first ten points returns InitialVelocity of the trajectory |
| TrajectoryTracker.Tracker.StopTracking | src/TrajectoryTracker.cpp:95-115 | a call while idle changes nothing; otherwise tracking stops, and with at least three points the launch figures become those of Launch on the initial velocity, while with fewer they are kept |
| TrajectoryTracker.Tracker.Reset | src/TrajectoryTracker.cpp:117-128 | the tracker becomes idle with no points, no misses and all launch figures zero |
| Numbers.Trunc | auto_exposure.py:236 | converting a float to an integer drops the fraction toward zero, for both signs, as Python's int() and a C++ cast do |
| Numbers.RoundHalfEven | cpp_module/fast_detection.cpp:106-108 | the result is the nearest integer, and a tie goes to the even neighbour, as cvRound does under the default rounding mode |
| Numbers.RoundClose | HistoryManager.py:48-51 | Python's round(x, n) is within half a unit of the last kept digit |
| Numbers.RoundHasDigits | HistoryManager.py:48-51 | a rounded value has no digits beyond the kept ones |
| Numbers.RoundIdempotent | HistoryManager.py:48-51 | rounding a value that has no further digits leaves it unchanged |
| Numbers.RoundAtMost | auto_exposure.py:236 | rounding never passes an upper bound that has no further digits |
| Numbers.RoundAtLeast | auto_exposure.py:236 | rounding never drops below a lower bound that has no further digits |
| Kld2Manager.LineBalance | src/KLD2Manager.cpp:143-234 | for every received line, swing starts plus the running-swing flag before equal impacts plus the flag after |
| TestRadar.StoiShown | test_radar.cpp:334-347 | std::stoi reads back any 32-bit value written in decimal |
| Modbus.TestVectorRegisters | scan_kld2_registers.py:7-17 | the CRC register after each byte of the read request 01 03 00 00 00 01 takes the standard Modbus values, ending at 0x0A84 |

## Left out

- Serial ports, camera pipes, subprocesses, threads and atomics: the radar and camera are reduced to the text and detections they deliver, and to whether they started.
- JSON files, QSettings and the video, GIF and screenshot writers: loaded contents are parameters and saved files are not modelled.
- Qt signals and timers, printing and debug output: they are the returned events and effects, or left out when they carry no decision.
- OpenCV: Hough circles, Canny, contours, ellipse fitting, convex hulls, CLAHE, background subtraction, the Kalman filter and image statistics are inputs. Their own behaviour is not modelled.
- Floating point: doubles and floats are exact reals, so rounding error and NaN are not modelled. The square root, norm and atan2 are parameters.
- Integer overflow: C++ `int` and Python integers are unbounded integers, except that `std::stoi` and `QString::toInt` reject values outside 32 bits as those libraries do.
- Python's `int()` also accepts underscores between digits and non-ASCII digits. The model accepts only optional surrounding whitespace, a sign and ASCII digits.
- Text.QtToInt: `QString::toInt` is modelled on ASCII text with an optional sign. Locale-specific digit grouping is not modelled.
- The camera calibration's intrinsic and extrinsic calibration, pixel-to-world conversion, homography, camera pose, zone-membership polygon test and search centre are not modelled. Only the guards of setZoneCorners and setGroundPlanePoints are.
- getBallZoneStateDisplay, with its countdown text from the wall clock, is not modelled. getBallZoneStateString is.
- measureBrightnessCircle of the C++ exposure controller is not modelled. measureBrightness always uses the rectangle measurement.
- AutoExposurePy.AutoExposureController.MeasureBrightness: only grey frames are modelled. The colour-to-grey conversion for three-channel frames (auto_exposure.py:155-159) is an OpenCV call and is not modelled.
- AutoExposure.AutoExposureController.SetTargetBrightness: requires a non-zero ideal brightness, and the controller's consistency predicate carries that fact. The source setter accepts 0, and calculateAdjustment then divides by it (src/AutoExposureController.cpp:242), giving infinity or NaN, which exact reals cannot express.
- FastAutoExposure.PyAutoExposureController.SetTargetBrightness: requires a non-zero ideal brightness, for the same reason as the controller's setter.
- AutoExposurePy.AutoExposureController.SetPresetMode: sending the new settings to the camera is not modelled. Its outcome is an argument of Update only.
- The ball detector's setters for circularity, detection method and background are plain stores, and captureBackground and setCalibration store an image or a pointer. They are not modelled.
- BallDetector.BallDetector.DetectBallWithBackground: only its history push is modelled; TrackBall calls it, with `subtracting` saying whether background subtraction is on. The background subtraction and the detection on the foreground are an input, and the world-coordinate conversion is not modelled.
- The ball tracker's detectStationaryBall, detectMotion and detectBall (src/BallTracker.cpp:287, 339, 397) are OpenCV image analysis. Their results are the `stationaryBall`, `cameraMotion` and `detect` fields of the FrameInput that BallTracker's Step reads.
- The ball detector's detectWithHoughCircles, detectWithBlobDetector and detectWithContours (src/BallDetector.cpp:168-281) are OpenCV image analysis. Their results are the inputs of DetectAuto.
- The ball tracker's setMotionThreshold, setMinTrackingFrames, setMaxTrackingFrames and setSearchExpansionRate are plain stores. They are not modelled separately.
- The trajectory tracker's Kalman prediction (predictNextPosition), imageToWorld, getTrajectorySummary and fitTrajectory are not modelled. fitTrajectory is never called.
- TrajectoryTracker.Launch: only the flat case the tracker produces (no height component) is modelled.
- The fast detector's get_scene_brightness is a single OpenCV mean and is not modelled.
- CaptureManager.CaptureLoop.ProcessFrame: the 20 post-impact frames are not modelled. The replay is the buffered frames, because captureFrame returns an empty frame.
- The register-scanning loops of the Modbus tools, and the scripts that only print, are not modelled. The framing, CRC and response checks they rely on are.
