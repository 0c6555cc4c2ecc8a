# Wi-SUN B-route smart-meter agent, modelled in Dafny

The agent runs on a Raspberry Pi Pico W under CircuitPython (`code.py`). It
drives an RL7023 Wi-SUN modem over a UART to join a smart meter's B-route PAN.
It reads two ECHONET Lite properties of the meter: `0xE0`, the cumulative
energy, on one cycle in five, and `0xE7`, the instantaneous power, on every
cycle. It posts the readings to an InfluxDB v1 server over Wi-Fi, and recovers
from failed reads and failed posts with fixed thresholds.

The model covers the agent's logic:

- **Config** (`config.dfy`): the settings read at start-up, and `_need`.
- **Serial** (`serial.dfy`): the UART as a class.
  - What the modem will say is a finite list of polls, each a decoded line or `None`.
  - Every command written is recorded.
  - A wait of `t` seconds is `t * pollsPerSecond` polls.
- **Scan** (`scan.dfy`): one active scan, `_scan_once`.
  - The EPANDESC descriptor parser is a left fold, with its invariants.
  - `_parse_lqi`.
  - The choice of the first candidate with the best LQI.
- **Join** (`join.dfy`): `wisun_join`.
  - The scan series over durations 4 to 11, tuning to the chosen PAN and the address wait.
  - `SKJOIN` with its `EVENT 25` / `EVENT 24` outcome.
- **Echonet** (`echonet.dfy`): the format-1 ECHONET Lite frame, after the ECHONET Lite Specification, Part II, chapter 3.
  - `_frame`, the `SKSENDTO` header and its `OK` wait.
  - The `ERXUDP` matcher of `read_meter` and the whole read.
- **Network** (`network.dfy`): Wi-Fi and the HTTP session as a class of outcome lists.
- **Influx** (`influx.dfy`): the line-protocol body and its read-back, and the retry loop of `post_influx`.
  - Only `204 No Content` (section 15.3.5 of RFC 9110) is a success.
- **Supervisor** (`supervisor.dfy`): the counter and recovery policy of the main loop.
  - Stated as a function over a report of what each call returned.
  - A `Supervisor` class runs one cycle against the modem and the network, and a `Start` method runs start-up.

`text.dfy` and `pyint.dfy` hold the Python operations the agent relies on:

- `str.strip`, `split`, `startswith`, `in`;
- `int(s, base)`;
- `str(n)` and `f"{n:04X}"`.

`wrappers.dfy` holds `Option` and `Result`.

Four behaviours of the code are easy to misread. The model follows the code in each:

- `_parse_lqi` reads a text made only of hex digits in base 16, so `"26"` is 38, not 26.
- A descriptor still open when the scan window ends is dropped.
- A matching `ERXUDP` line whose value does not parse makes `read_meter` return `None` at once, without polling further.
- After an exception in a cycle, the counters are reset only when the reconnection in the `except` branch succeeds.

## Model

| member | source | states |
|---|---|---|
| Config.Need | code.py:11-15 | a setting is returned exactly when it is present and not the empty string; otherwise the error names the key |
| Config.LoadOk | code.py:17-31 | start-up succeeds iff all eight required settings are given and the port is a number; then each of the eight settings is its rendered value, the port is the one read (8086 when absent), and measurement and tags are the given values or `power` and `place=uni,host=RL7023` |
| Config.FirstMissingReported | code.py:17 | a missing `ssid` is the error reported, before any other |
| Config.PortText | code.py:21 | a port given as decimal text is read as that number |
| Serial.Received | code.py:52-59 | a poll yields a line exactly when the modem delivered one, and then the stripped line |
| Serial.Uart.ReadLine | code.py:52-59 | one poll consumes one pending line and returns it stripped, or `None` when there is none |
| Serial.Uart.Write | code.py:48-50 | the command is sent followed by CR LF, nothing else is sent |
| Serial.Uart.AwaitLine | code.py:132-139 | a wait of `n` polls returns the first non-empty line the test accepts, or `None`, and consumes exactly the polls up to that line or all `n` |
| Serial.Uart.Drain | code.py:61-64 | the whole window is read and dropped |
| Echonet.NameIsCodeInHex | code.py:237 | the key `E0`/`E7` is the EPC code printed as two upper-case hex digits |
| Echonet.DecodeEncode | code.py:217-218 | decoding an encoded format-1 frame gives back the message |
| Echonet.GetFrame | code.py:217-218 | `_frame(epc)` is the encoding of a Get from the controller object `05FF01` to the meter object `028801` for one EPC with no data |
| Echonet.GetFrameLayout | code.py:217-218 | the frame is 14 bytes, byte 12 is the EPC, byte 13 is 0, the two frames differ only at byte 12, and it decodes as the Get request |
| Echonet.LengthField14 | code.py:129 | the length field for 14 bytes is `000E` |
| Echonet.FrameHeader | code.py:129 | the SKSENDTO header of a Get frame ends in `0E1A 1 0 000E ` |
| Echonet.LengthFieldReads | code.py:129 | the four-digit hex length field reads back as the frame's length |
| Echonet.SendToRaw | code.py:127-139 | header then payload are sent; the send succeeds iff a line starting with `OK` arrives within three seconds, and only the polls read are consumed |
| Echonet.HexTextValue | code.py:239-240 | the hex text of bytes reads in base 16 as their big-endian value |
| Echonet.ReadingBound | code.py:237-242 | a value taken from the last eight characters lies strictly between -16^7 and 2^32, and is their unsigned value when they are hex digits |
| Echonet.NotificationFields | code.py:232-235 | an ERXUDP line of nine header fields and a hex datagram contains `ERXUDP` and splits into those ten fields |
| Echonet.ReplyRoundTrip | code.py:230-240 | the meter's Get_Res for the requested EPC, in the tenth field of an ERXUDP line, is read as exactly the four-byte value it carries |
| Echonet.OtherRegisterSkipped | code.py:237 | the same Get_Res is skipped by a read of the other register |
| Echonet.ReadMeter | code.py:220-243 | sends the header and frame; without an `OK` it returns `None` and reads nothing more; otherwise the first answering line in five seconds decides: its value, or `None` if it does not parse; value and unread output are those of `MeterReply` over the output before the call |
| Scan.RunSnoc | code.py:147-165 | the parser after one more poll is one more step of it |
| Scan.StepDone | code.py:156-159 | a running parser stops exactly at a line starting `EVENT 22` |
| Scan.StepSound | code.py:151-165 | a step keeps every candidate eligible and every descriptor limited to Channel, Pan ID, Addr and LQI |
| Scan.RunSound | code.py:151-165 | every candidate has non-empty Channel, Pan ID and Addr, and holds no other keys than the four kept ones |
| Scan.StepFound | code.py:151-159 | candidates are only appended, and only by an `EPANDESC` or `EVENT 22` line |
| Scan.ClosedEligibleKept | code.py:151-158 | an `EPANDESC` or `EVENT 22` line appends the open descriptor to the candidates iff it has Channel, Pan ID and Addr, and changes the candidates in no other way |
| Scan.NoDescriptorNothingFound | code.py:161 | key-value lines without a preceding `EPANDESC` are ignored: nothing is open and nothing is found |
| Scan.OpenDescriptorDropped | code.py:147-166 | lines after the last closing line add no candidate, so a block still open when the window ends is dropped |
| Scan.RunDone | code.py:156-159 | the parser has finished iff some poll was an `EVENT 22` line |
| Scan.RunStops | code.py:159 | after `EVENT 22` later polls change nothing |
| Scan.ParseLqiHex | code.py:119-125 | a stripped text of hex digits only is read in base 16 |
| Scan.ParseLqiHexLooking | code.py:123 | `"1A"` is 26 |
| Scan.ParseLqiDecimalLooking | code.py:123 | `"26"` is 38 |
| Scan.ParseLqiEmpty | code.py:124-125 | an absent or empty LQI is -1 |
| Scan.ParseLqiNegative | code.py:119-125 | a negative result is -1 or a signed decimal that is not all hex digits |
| Scan.BestIndexIsFirstMax | code.py:170 | the index `max` settles on holds the largest LQI and no earlier one is as large |
| Scan.FirstMaxUnique | code.py:170 | that first maximum is unique |
| Scan.ChooseBest | code.py:166-170 | no candidate gives `None`; otherwise the choice is a candidate found, at the first index with the largest LQI |
| Scan.FirstMax | code.py:170 | the loop finds the first index of the largest value |
| Scan.RankCandidates | code.py:168-169 | each candidate's LQI is `_parse_lqi` of its `LQI` field, or of `""` |
| Scan.ChooseCandidate | code.py:166-170 | the loop returns the choice `ChooseBest` describes |
| Scan.ListenAdvance | code.py:147-159 | reading one more poll keeps the listening invariant |
| Scan.ListenEnd | code.py:147-159 | when the listening loop ends, the parser has read exactly the polls up to `EVENT 22` or the whole window |
| Scan.Listen | code.py:146-165 | the loop reads up to `(30 + 2*duration)` seconds of polls, stops after `EVENT 22`, and its state is the parser's over the polls read |
| Scan.ScanningEligible | code.py:152-158 | a scan only ever chooses an eligible descriptor |
| Scan.ScannerEligible | code.py:152-158 | so does the scanner used by the join |
| Scan.ScanOnce | code.py:142-170 | sends `SKSCAN 2 FFFFFFFF <duration> 0`; the chosen PAN and the unread output are those of the scan model |
| Join.ScanFromTried | code.py:178-184 | the durations are tried in ascending order; the first scan that finds a PAN ends the series with its choice; none found means all of 4 to 11 were tried |
| Join.ScanFromEligible | code.py:179-186 | a PAN the series settles on names a channel, a PAN ID and an address |
| Join.ScanSeries | code.py:178-184 | the loop sends one `SKSCAN` per duration tried, and returns what the series model returns |
| Join.AcceptedIff | code.py:201-211 | the join is accepted iff some line mentions `EVENT 25` and no earlier line mentions `EVENT 24` |
| Join.JoinedOk | code.py:192-214 | a successful join found a PAN, its address is a non-empty stripped line with a colon, and the last command sent was `SKJOIN` with that address |
| Join.JoinedCommands | code.py:174-184 | every join starts with `SKVER`, the password and the ID, then one `SKSCAN` per duration tried; finding no PAN means eight scans and nothing more sent |
| Join.AuthenticateOn | code.py:200-214 | `SKJOIN` and its 30-second wait, then 3 seconds drained after acceptance |
| Join.AssociateOn | code.py:189-214 | the three tuning commands, the 5-second address wait, then authentication |
| Join.WisunJoin | code.py:172-214 | the result, the commands sent and the output left unread are those of the join model |
| Network.Network.EnsureWifi | code.py:67-82 | takes the next Wi-Fi outcome; none left is a failure |
| Network.Network.RenewSession | code.py:86-89 | a new HTTP session is created |
| Network.Network.Post | code.py:102-104 | the request is recorded and answered by the next reply; none left is a transport error |
| Network.Network.Sleep | code.py:100 | the pause is recorded |
| Influx.ParseFieldText | code.py:96 | a `key=value` field reads back as the key and the integer |
| Influx.BodyRoundTrip | code.py:96 | the body reads back as measurement, tags and the fields in insertion order |
| Influx.Success | code.py:98-106 | a success found is a `204` reply within the six attempts |
| Influx.SuccessIff | code.py:98-106 | publishing succeeds iff one of the first six replies is `204`, and stops at the first one |
| Influx.GivingUp | code.py:97-116 | one to six attempts are made; a failed publish made six and slept 31 seconds |
| Influx.PausesOfWaits | code.py:97-100 | the pauses before `n` attempts are the first `n - 1` backoffs 1, 2, 4, 8, 16 |
| Influx.PostInflux | code.py:94-116 | returns true iff a `204` came within six attempts; posts the body once per attempt and pauses by the backoffs; each transport error costs one Wi-Fi check and one session renewal |
| Influx.Attempt | code.py:99-115 | one attempt: the pause if it is not 0, one `POST` of the body, and after a transport error one Wi-Fi check and one new session |
| Supervisor.CountersBounded | code.py:278-303 | after a cycle `echonet_fail` < 3 and `http_fail` < 5 unless a reconnection in the `except` branch failed; `cnt` < 5 |
| Supervisor.ReadingResets | code.py:264-267 | a successful `0xE7` read means no rejoin and `echonet_fail` 0 after the cycle |
| Supervisor.MissedReads | code.py:257-269 | each failed read adds one, two on a cycle that reads both; a rejoin follows as soon as the count reaches 3; nothing is published; `http_fail` changes only through a renewal or recovery |
| Supervisor.PublishCounted | code.py:271-290 | `http_fail` is unchanged without fields, reset by success; the fifth failure triggers renewal unless a rejoin raised |
| Supervisor.RecoveryResets | code.py:292-301 | after the `except` branch both counters are 0 iff its reconnection succeeded or they already were 0 |
| Supervisor.CycleCount | code.py:303 | after `k` cycles from start-up `cnt` is `k % 5` |
| Supervisor.E0Schedule | code.py:257 | `0xE0` is read exactly on cycles 0, 5, 10, ... |
| Supervisor.Supervisor.constructor | code.py:250-252 | all three counters start at 0 |
| Supervisor.CycleConsistent | code.py:254-304 | the report of every cycle, for any modem output and network outcomes, is one the policy allows from the counters it started with |
| Supervisor.MeasurePosts | code.py:256-276 | the reads and publish post nothing when nothing was read, and otherwise only the request carrying this cycle's readings |
| Supervisor.RespondKeeps | code.py:278-301 | the escalations and the recovery neither post nor pause |
| Supervisor.CyclePosts | code.py:254-304 | a cycle posts only the request for the readings it took, `E0` first, nothing when it took none, and ends with the 30-second pause |
| Supervisor.Supervisor.Reconnect | code.py:281-283 | one link check; when Wi-Fi is down it stops there, otherwise one new session and the join on the modem's output, whose result decides; commands and unread output are the join's |
| Supervisor.Supervisor.ReadCounted | code.py:258-263 | a read resets `echonet_fail` on success and adds one on failure; the value and the unread output are what `read_meter` takes from the modem, and the two request lines are sent |
| Supervisor.Supervisor.ReadRegisters | code.py:256-269 | `0xE0` is read iff `cnt` is 0, then `0xE7` on the output left; `echonet_fail` is as the policy says; values, commands and output as the reads give them |
| Supervisor.Supervisor.Publish | code.py:271-276 | posts only when there are fields, each request carries this cycle's body; the outcome is whether a `204` came within the attempts, and links, replies, sessions, posts and pauses are those of the attempts made; `http_fail` is as the policy says |
| Supervisor.Supervisor.Escalate | code.py:278-290 | rejoin iff `echonet_fail` >= 3, renewal iff `http_fail` >= 5 and no rejoin failed; each resets its counter only on success; links, session and modem as the reconnection and refresh make them |
| Supervisor.Supervisor.Refresh | code.py:285-290 | from five failed publishes on, one link check and, when up, a new session and `http_fail` 0; nothing otherwise |
| Supervisor.Supervisor.Recover | code.py:292-301 | the counters and the address change only when reconnection succeeds; links, session and modem as the reconnection makes them |
| Supervisor.Supervisor.Measure | code.py:256-276 | the reads then the publish of their fields; both counters as the policy says |
| Supervisor.Supervisor.Respond | code.py:278-301 | the escalations, then the full reconnection iff one of them raised; counters and address as the policy settles them |
| Supervisor.Supervisor.Cycle | code.py:254-304 | the counters and the address are those the policy gives for the report, and the report and the state of modem and network afterwards are those of one pass of the loop over the modem output and network outcomes |
| Supervisor.StartIff | code.py:246-252 | start-up succeeds iff both link checks find Wi-Fi up and the join succeeds |
| Supervisor.Connect | code.py:246-249 | start-up's connections: one link check, then a new session and a second check, then the join, the first failure ending them; links, session, commands and unread output as those steps leave them |
| Supervisor.Start | code.py:246-252 | start-up succeeds iff its connections do, leaves modem and network as they do, and then yields a supervisor with all counters 0 at the joined address |

## Left out

- Timing. `time.monotonic` windows are counted in polls (`pollsPerSecond` per second). The 0.1-second pause after each command and the float `timeout_s` are not modelled. The 30-second pause between cycles is recorded as a value only.
- The hardware and libraries (`busio`, `wifi`, `socketpool`, `adafruit_requests`). Each becomes a list of outcomes: modem lines, Wi-Fi outcomes, HTTP replies. An exhausted list counts as a failure.
- Network.Network.EnsureWifi: the retries inside `ensure_wifi` are not modelled, only its outcome. These are the address check, up to three connection attempts and the pauses between them.
- Network.Network.RenewSession: always succeeds. A failure to create the socket pool or the session is not modelled.
- Errors while reading the status code or closing the response count as transport errors; an HTTP reply is either a status or a transport error.
- `print` diagnostics are dropped. Exceptions are `Result` or `Option` values. A start-up exception ends the program, and `Start` returns `None`.
- Undecodable UART bytes are `None` polls.
- Whitespace and digits are ASCII only. `int()` follows the Python language's integer syntax (sign, `0x` prefix, single underscores). CircuitPython-specific deviations are not modelled.
- Echonet.ReadMeter takes a register, `0xE0` or `0xE7`. `read_meter` maps any code other than `"E0"` to `0xE7`, and the agent only ever passes the two codes.
- Config.Load: a setting is text or an integer; other Python values, such as a float port, are not modelled. `secrets.py` itself holds only placeholders, and the model takes the dictionary as a map.
- Config.WriteUrl: the URL is built but not parsed back. The transport does not look at it.
- The endless loop is one `Cycle` method. Runs of cycles are the `Run` fold over reports.
- The class methods see the modem through a `Modem` value whose answers `Supervisor.Wired` ties to `Echonet.MeterReply` and `Join.Joined`; their contracts relate the state afterwards to the state before through functions over that value.
