/**
 * ECHONET Lite over the Wi-SUN B-route: the Get request the agent sends to the
 * smart meter, the SKSENDTO command that carries it, and the matching of the
 * meter's Get_Res answer among the modem's ERXUDP notifications.
 *
 * Frame layout (ECHONET Lite Specification, Part II, chapter 3, format 1):
 * EHD1 EHD2 | TID (2) | SEOJ (3) | DEOJ (3) | ESV | OPC | OPC x (EPC PDC EDT).
 */
module Echonet {
  import opened Wrappers
  import opened Text
  import opened PyInt
  import opened Serial

  /** The two meter properties the agent reads, named by their EPC codes. */
  datatype Epc = E0 | E7 {
    function Code(): byte {
      if E0? then 0xE0 else 0xE7
    }
    /** The key a reading is published under (`"E0"`, `"E7"`). */
    function Name(): string {
      if E0? then "E0" else "E7"
    }
  }

  /** The publish key is the EPC code printed as `f"{epc:02X}"`. */
  lemma NameIsCodeInHex(epc: Epc)
    ensures epc.Name() == FormatHex(epc.Code(), 2)
  {
    assert epc.Code() / 16 == 14 && epc.Code() / 16 < 16;
    assert NatDigits(epc.Code() / 16, 16) == [Digit(14)];
    assert NatDigits(epc.Code(), 16) == [Digit(14), Digit(epc.Code() % 16)];
  }

  // ---- frames ----

  const Header: seq<byte> := [0x10, 0x81]
  const Transaction: seq<byte> := [0x00, 0x01]
  /** SEOJ of the agent: class group 0x05, class 0xFF (controller), instance 1. */
  const ControllerObject: seq<byte> := [0x05, 0xFF, 0x01]
  /** The low-voltage smart electric energy meter: class group 0x02, class 0x88, instance 1. */
  const MeterObject: seq<byte> := [0x02, 0x88, 0x01]
  const EsvGet: byte := 0x62
  const EsvGetRes: byte := 0x72

  datatype Property = Property(epc: byte, edt: seq<byte>)

  datatype Message = Message(tid: seq<byte>, seoj: seq<byte>, deoj: seq<byte>, esv: byte, props: seq<Property>)

  predicate ValidMessage(m: Message) {
    && |m.tid| == 2 && |m.seoj| == 3 && |m.deoj| == 3
    && |m.props| < 256
    && forall k :: 0 <= k < |m.props| ==> |m.props[k].edt| < 256
  }

  function EncodeProps(ps: seq<Property>): seq<byte>
    requires forall k :: 0 <= k < |ps| ==> |ps[k].edt| < 256
  {
    if ps == [] then [] else [ps[0].epc, |ps[0].edt|] + ps[0].edt + EncodeProps(ps[1..])
  }

  function Encode(m: Message): seq<byte>
    requires ValidMessage(m)
  {
    Header + m.tid + m.seoj + m.deoj + [m.esv, |m.props|] + EncodeProps(m.props)
  }

  /** Exactly `n` properties that use up all of `b`. */
  function DecodeProps(b: seq<byte>, n: nat): Option<seq<Property>>
    decreases n
  {
    if n == 0 then (if b == [] then Some([]) else None)
    else if |b| < 2 || |b| < 2 + b[1] as int then None
    else match DecodeProps(b[2 + b[1]..], n - 1)
      case None => None
      case Some(ps) => Some([Property(b[0], b[2..2 + b[1]])] + ps)
  }

  /** A format-1 ECHONET Lite frame, read back into its fields. */
  function Decode(b: seq<byte>): Option<Message> {
    if |b| < 12 || b[..2] != Header then None
    else match DecodeProps(b[12..], b[11])
      case None => None
      case Some(ps) => Some(Message(b[2..4], b[4..7], b[7..10], b[10], ps))
  }

  lemma {:induction false} DecodeEncodeProps(ps: seq<Property>)
    requires forall k :: 0 <= k < |ps| ==> |ps[k].edt| < 256
    ensures DecodeProps(EncodeProps(ps), |ps|) == Some(ps)
  {
    if ps != [] {
      var b := EncodeProps(ps);
      var p := ps[0];
      assert b[1] == |p.edt|;
      assert b[2..2 + |p.edt|] == p.edt;
      assert b[2 + |p.edt|..] == EncodeProps(ps[1..]);
      DecodeEncodeProps(ps[1..]);
      assert [p] + ps[1..] == ps;
    }
  }

  /** Decoding an encoded frame gives back the message. */
  lemma DecodeEncode(m: Message)
    requires ValidMessage(m)
    ensures Decode(Encode(m)) == Some(m)
  {
    var b := Encode(m);
    assert b[..2] == Header;
    assert b[2..4] == m.tid && b[4..7] == m.seoj && b[7..10] == m.deoj;
    assert b[10] == m.esv && b[11] == |m.props|;
    assert b[12..] == EncodeProps(m.props);
    DecodeEncodeProps(m.props);
  }

  /** The Get request for one property: no data, so PDC is 0. */
  function GetRequest(epc: Epc): Message {
    Message(Transaction, ControllerObject, MeterObject, EsvGet, [Property(epc.Code(), [])])
  }

  /** `_frame(epc)` (code.py:217-218). */
  function GetFrame(epc: Epc): (f: seq<byte>)
    ensures ValidMessage(GetRequest(epc)) && f == Encode(GetRequest(epc))
  {
    [0x10, 0x81, 0x00, 0x01, 0x05, 0xFF, 0x01, 0x02, 0x88, 0x01, 0x62, 0x01, epc.Code(), 0x00]
  }

  /**
   * The request is 14 bytes, differs between the two registers only in byte
   * 12 (the EPC), and decodes as a Get from the controller to the meter.
   */
  lemma GetFrameLayout(epc: Epc)
    ensures |GetFrame(epc)| == 14
    ensures GetFrame(epc)[12] == epc.Code() && GetFrame(epc)[13] == 0
    ensures forall other: Epc, k :: 0 <= k < 14 && k != 12 ==> GetFrame(epc)[k] == GetFrame(other)[k]
    ensures Decode(GetFrame(epc)) == Some(GetRequest(epc))
  {
    DecodeEncode(GetRequest(epc));
  }

  // ---- sending ----

  /**
   * The SKSENDTO header: handle 1, the meter's address, UDP port 0x0E1A
   * (3610, ECHONET Lite), encryption on, side 0, and the payload length as
   * `f"{len(payload):04X}"`; the payload bytes follow it directly.
   */
  function SendHeader(ipv6: string, length: nat): string {
    "SKSENDTO 1 " + ipv6 + " 0E1A 1 0 " + FormatHex(length, 4) + " "
  }

  /** Fourteen as a four-digit length field. */
  lemma LengthField14()
    ensures FormatHex(14, 4) == "000E"
  {
    assert NatDigits(14, 16) == [Digit(14)];
    assert Digit(14) == 'E';
    assert Zeros(3) == "000";
  }

  /** The length field of a frame's header is `000E`. */
  lemma FrameHeader(ipv6: string, epc: Epc)
    ensures SendHeader(ipv6, |GetFrame(epc)|) == "SKSENDTO 1 " + ipv6 + " 0E1A 1 0 000E "
  {
    assert |GetFrame(epc)| == 14;
    LengthField14();
  }

  /** The length field reads back, in base 16, as the length of the frame. */
  lemma LengthFieldReads(epc: Epc)
    ensures ParseInt(FormatHex(|GetFrame(epc)|, 4), 16) == Some(|GetFrame(epc)|)
  {
    FormatHexRoundTrip(|GetFrame(epc)|, 4);
  }

  predicate IsAck(l: string) {
    StartsWith(l, "OK")
  }

  const AckSeconds: nat := 3
  const ReplySeconds: nat := 5

  /**
   * `sendto_raw(ipv6, payload)` (code.py:127-139): writes the header and the
   * payload, then waits three seconds for a line starting with `OK`.
   */
  method SendToRaw(uart: Uart, ipv6: string, payload: seq<byte>) returns (ok: bool)
    modifies uart`pending, uart`sent
    ensures uart.sent == old(uart.sent) + [Line(SendHeader(ipv6, |payload|)), Raw(payload)]
    ensures var n := AckSeconds * uart.pollsPerSecond;
      var first := FirstLine(Window(old(uart.pending), n), IsAck);
      ok == first.Some? && uart.pending == Drop(old(uart.pending), Used(first, n))
  {
    uart.WriteRaw(Line(SendHeader(ipv6, |payload|)));
    uart.WriteRaw(Raw(payload));
    var ack := uart.AwaitLine(AckSeconds * uart.pollsPerSecond, IsAck);
    ok := ack.Some?;
  }

  // ---- hex text of the ERXUDP payload ----

  function Hex2(b: byte): (t: string)
    ensures |t| == 2 && AllDigits(t, 16)
  {
    [Digit(b / 16), Digit(b % 16)]
  }

  /** Bytes as upper-case hex, two characters each, as the modem prints a datagram. */
  function HexText(bs: seq<byte>): (t: string)
    ensures |t| == 2 * |bs| && AllDigits(t, 16)
  {
    if bs == [] then [] else HexText(bs[..|bs| - 1]) + Hex2(bs[|bs| - 1])
  }

  lemma {:induction false} HexTextAppend(a: seq<byte>, b: seq<byte>)
    ensures HexText(a + b) == HexText(a) + HexText(b)
    decreases |b|
  {
    if b != [] {
      HexTextAppend(a, b[..|b| - 1]);
      assert (a + b)[..|a + b| - 1] == a + b[..|b| - 1];
    } else {
      assert a + b == a;
    }
  }

  /** The hex text of bytes split at `i` is the two hex texts one after the other. */
  lemma HexTextSplit(bs: seq<byte>, i: nat)
    requires i <= |bs|
    ensures HexText(bs) == HexText(bs[..i]) + HexText(bs[i..])
  {
    assert bs == bs[..i] + bs[i..];
    HexTextAppend(bs[..i], bs[i..]);
  }

  /** Characters `2i..2j` of the hex text are the hex text of bytes `i..j`. */
  lemma HexTextSlice(bs: seq<byte>, i: nat, j: nat)
    requires i <= j <= |bs|
    ensures HexText(bs)[2 * i..2 * j] == HexText(bs[i..j])
  {
    var a, b, c := HexText(bs[..i]), HexText(bs[i..j]), HexText(bs[j..]);
    assert HexText(bs) == a + b + c by {
      var p := bs[..j];
      HexTextSplit(bs, j);
      HexTextSplit(p, i);
      assert p[..i] == bs[..i];
      assert p[i..] == bs[i..j];
    }
    SliceMiddle(a, b, c);
  }

  lemma SliceMiddle<T>(a: seq<T>, b: seq<T>, c: seq<T>)
    ensures (a + b + c)[|a|..|a| + |b|] == b
  {
  }

  /** Unsigned big-endian value of a byte string. */
  function BigEndian(bs: seq<byte>): nat {
    if bs == [] then 0 else BigEndian(bs[..|bs| - 1]) * 256 + bs[|bs| - 1]
  }

  /** The hex text of some bytes reads as their big-endian value. */
  lemma {:induction false} HexTextValue(bs: seq<byte>)
    ensures Value(HexText(bs), 16) == BigEndian(bs)
  {
    if bs != [] {
      var p, b := bs[..|bs| - 1], bs[|bs| - 1];
      HexTextValue(p);
      var t := HexText(bs);
      assert t[..|t| - 1] == HexText(p) + [Digit(b / 16)];
      assert t[..|t| - 1][..|t| - 2] == HexText(p);
    }
  }

  /** `v` as `k` big-endian bytes. */
  function BytesOf(v: nat, k: nat): (bs: seq<byte>)
    ensures |bs| == k
  {
    if k == 0 then [] else BytesOf(v / 256, k - 1) + [v % 256]
  }

  lemma {:induction false} BigEndianBytesOf(v: nat, k: nat)
    requires v < Pow(256, k)
    ensures BigEndian(BytesOf(v, k)) == v
  {
    if k > 0 {
      assert Pow(256, k) == 256 * Pow(256, k - 1);
      BigEndianBytesOf(v / 256, k - 1);
      var bs := BytesOf(v, k);
      assert bs[..|bs| - 1] == BytesOf(v / 256, k - 1);
    }
  }

  // ---- matching the answer ----

  /** What one received line means to a read of `epc`. */
  datatype Reply = Skip | Reading(value: int) | Garbled

  /**
   * The field test of `read_meter` (code.py:235-242) on the hex payload: SEOJ
   * `028801` at [8:14], ESV `72` at [20:22], the requested EPC at [24:26];
   * then the last eight characters as a base-16 integer.
   */
  function ClassifyPayload(epc: Epc, udp: string): Reply {
    if Slice(udp, 8, 14) == "028801" && Slice(udp, 20, 22) == "72"
      && Slice(udp, 24, 26) == FormatHex(epc.Code(), 2)
    then
      match ParseInt(Last(udp, 8), 16)
      case Some(v) => Reading(v)
      case None => Garbled
    else Skip
  }

  /** The line test of `read_meter` (code.py:230-237): an ERXUDP line with at least ten fields. */
  function Classify(epc: Epc, line: string): Reply {
    if !Contains(line, "ERXUDP") then Skip
    else
      var parts := Split(Strip(line));
      if |parts| < 10 then Skip else ClassifyPayload(epc, parts[9])
  }

  predicate Answers(epc: Epc, line: string) {
    Classify(epc, line) != Skip
  }

  function ReplyValue(r: Reply): Option<int> {
    if r.Reading? then Some(r.value) else None
  }

  /**
   * A reading is what the last eight characters say in hex: always above
   * `-16^7` and below `2^32`, and exactly their unsigned value when they are
   * plain hex digits.
   */
  lemma ReadingBound(epc: Epc, udp: string)
    requires ClassifyPayload(epc, udp).Reading?
    ensures var v := ClassifyPayload(epc, udp).value;
      && -0x1000_0000 < v < 0x1_0000_0000
      && (AllDigits(Last(udp, 8), 16) ==> v == Value(Last(udp, 8), 16))
  {
    PayloadTail(epc, udp);
    EightHexDigits(Last(udp, 8));
  }

  /** A reading comes from the last eight characters of a payload at least 26 long. */
  lemma PayloadTail(epc: Epc, udp: string)
    requires ClassifyPayload(epc, udp).Reading?
    ensures |Last(udp, 8)| == 8
    ensures ParseInt(Last(udp, 8), 16) == Some(ClassifyPayload(epc, udp).value)
  {
    assert |Slice(udp, 24, 26)| == 2;
  }

  /** Eight characters read in base 16 lie strictly between `-16^7` and `16^8`. */
  lemma EightHexDigits(tail: string)
    requires |tail| == 8 && ParseInt(tail, 16).Some?
    ensures var v := ParseInt(tail, 16).value;
      && -0x1000_0000 < v < 0x1_0000_0000
      && (AllDigits(tail, 16) ==> v == Value(tail, 16))
  {
    ParseIntBound(tail, 16);
    assert Pow(16, 8) == 0x1_0000_0000 && Pow(16, 7) == 0x1000_0000;
    if AllDigits(tail, 16) {
      ParsePlainDigits(tail, 16);
    }
  }

  /** The meter's Get_Res carrying a four-byte value for `epc`. */
  function GetResponse(tid: seq<byte>, deoj: seq<byte>, epc: Epc, v: nat): Message {
    Message(tid, MeterObject, deoj, EsvGetRes, [Property(epc.Code(), BytesOf(v, 4))])
  }

  /** An ERXUDP line: nine header fields, then the datagram in hex. */
  function Notification(head: seq<string>, m: Message): string
    requires ValidMessage(m)
  {
    Join(head + [HexText(Encode(m))], " ")
  }

  predicate NotificationHead(head: seq<string>) {
    |head| == 9 && head[0] == "ERXUDP" && forall k :: 0 <= k < 9 ==> head[k] != [] && NoSpace(head[k])
  }

  /** Where the matcher looks in the hex text of a Get_Res with a four-byte value. */
  lemma GetResponseText(tid: seq<byte>, deoj: seq<byte>, epc: Epc, v: nat)
    requires |tid| == 2 && |deoj| == 3
    ensures ValidMessage(GetResponse(tid, deoj, epc, v))
    ensures var t := HexText(Encode(GetResponse(tid, deoj, epc, v)));
      && |t| == 36
      && t[8..14] == "028801" && t[20..22] == "72" && t[24..26] == Hex2(epc.Code())
      && t[28..36] == HexText(BytesOf(v, 4))
  {
    var e := GetResponseBytes(tid, deoj, epc, v);
    HexTextSlice(e, 4, 7);
    HexTextSlice(e, 10, 11);
    HexTextSlice(e, 12, 13);
    HexTextSlice(e, 14, 18);
    MeterObjectHex();
    assert HexText([epc.Code()]) == Hex2(epc.Code());
  }

  /** Where the fields of a Get_Res with a four-byte value sit in its 18 bytes. */
  lemma GetResponseBytes(tid: seq<byte>, deoj: seq<byte>, epc: Epc, v: nat) returns (e: seq<byte>)
    requires |tid| == 2 && |deoj| == 3
    ensures ValidMessage(GetResponse(tid, deoj, epc, v))
    ensures e == Encode(GetResponse(tid, deoj, epc, v)) && |e| == 18
    ensures e[4..7] == MeterObject && e[10..11] == [EsvGetRes] && e[12..13] == [epc.Code()]
    ensures e[14..18] == BytesOf(v, 4)
  {
    var m := GetResponse(tid, deoj, epc, v);
    e := Encode(m);
    assert EncodeProps(m.props) == [epc.Code(), 4] + BytesOf(v, 4) + EncodeProps([]);
    var e1 := Header + tid + MeterObject;
    var e3 := e1 + deoj + [EsvGetRes, 1, epc.Code(), 4];
    assert e == e3 + BytesOf(v, 4);
    assert |e1| == 7 && |e3| == 14;
    assert e[..14] == e3 && e[14..18] == BytesOf(v, 4);
    assert e3[..7] == e1 && e1[4..7] == MeterObject;
    assert e[4..7] == MeterObject;
    assert e3[10] == EsvGetRes && e3[12] == epc.Code();
    assert e[10..11] == [e3[10]] && e[12..13] == [e3[12]];
  }

  /** The meter object and the Get_Res service code in hex. */
  lemma MeterObjectHex()
    ensures HexText(MeterObject) == "028801" && HexText([EsvGetRes]) == "72"
  {
    assert MeterObject[..2] == [0x02, 0x88];
    assert [0x02, 0x88][..1] == [0x02];
    assert [EsvGetRes][..0] == [];
  }

  lemma NotificationFields(head: seq<string>, m: Message)
    requires NotificationHead(head) && ValidMessage(m)
    ensures Contains(Notification(head, m), "ERXUDP")
    ensures Split(Strip(Notification(head, m))) == head + [HexText(Encode(m))]
  {
    var t := HexText(Encode(m));
    var parts := head + [t];
    var line := Notification(head, m);
    assert |Encode(m)| >= 12;
    assert forall i :: 0 <= i < |t| ==> !IsSpace(t[i]) by {
      forall i | 0 <= i < |t| ensures !IsSpace(t[i]) {
        assert IsHexDigit(t[i]);
      }
    }
    assert forall k :: 0 <= k < |parts| ==> parts[k] != [] && NoSpace(parts[k]);
    JoinStartsWith(parts, " ");
    PrefixContained(line, "ERXUDP");
    JoinEndsWith(parts, " ");
    assert line[|line| - 1] == t[|t| - 1];
    StripUnchanged(line);
    SplitJoin(parts);
  }

  /**
   * A Get_Res for the requested EPC from the meter object, in the tenth field
   * of an ERXUDP line, is read as the value it carries.
   */
  lemma ReplyRoundTrip(head: seq<string>, tid: seq<byte>, deoj: seq<byte>, epc: Epc, v: nat)
    requires NotificationHead(head) && |tid| == 2 && |deoj| == 3 && v < 0x1_0000_0000
    ensures ValidMessage(GetResponse(tid, deoj, epc, v))
    ensures Classify(epc, Notification(head, GetResponse(tid, deoj, epc, v))) == Reading(v)
  {
    var m := GetResponse(tid, deoj, epc, v);
    GetResponseText(tid, deoj, epc, v);
    NotificationFields(head, m);
    var t := HexText(Encode(m));
    assert (head + [t])[9] == t;
    NameIsCodeInHex(epc);
    assert Hex2(epc.Code()) == epc.Name();
    assert Last(t, 8) == t[28..36];
    ValueText(v);
  }

  /** Four bytes of hex text read back in base 16 as the value they carry. */
  lemma ValueText(v: nat)
    requires v < 0x1_0000_0000
    ensures ParseInt(HexText(BytesOf(v, 4)), 16) == Some(v)
  {
    var bytes := BytesOf(v, 4);
    ParsePlainDigits(HexText(bytes), 16);
    HexTextValue(bytes);
    assert Pow(256, 4) == 0x1_0000_0000;
    BigEndianBytesOf(v, 4);
  }

  /** The same answer is not taken for the other register, whatever its value. */
  lemma OtherRegisterSkipped(head: seq<string>, tid: seq<byte>, deoj: seq<byte>, epc: Epc, other: Epc, v: nat)
    requires NotificationHead(head) && |tid| == 2 && |deoj| == 3 && other != epc
    ensures ValidMessage(GetResponse(tid, deoj, epc, v))
    ensures Classify(other, Notification(head, GetResponse(tid, deoj, epc, v))) == Skip
  {
    var m := GetResponse(tid, deoj, epc, v);
    GetResponseText(tid, deoj, epc, v);
    NotificationFields(head, m);
    var t := HexText(Encode(m));
    assert (head + [t])[9] == t;
    NameIsCodeInHex(epc);
    NameIsCodeInHex(other);
    assert Hex2(epc.Code()) == epc.Name();
    assert epc.Name() != other.Name();
  }

  // ---- reading a register ----

  /** What a read returned, and the modem output it left unread. */
  datatype MeterRead = MeterRead(value: Option<int>, rest: seq<Option<string>>)

  /**
   * A read of `epc` against the modem output `stream`: three seconds for the
   * `OK`, then, only after one, five seconds for the first answering line.
   */
  function MeterReply(stream: seq<Option<string>>, pps: nat, epc: Epc): MeterRead {
    var n := AckSeconds * pps;
    var ack := FirstLine(Window(stream, n), IsAck);
    var s1 := Drop(stream, Used(ack, n));
    if ack.None? then MeterRead(None, s1)
    else
      var m := ReplySeconds * pps;
      var w := Window(s1, m);
      var hit := FirstLine(w, l => Answers(epc, l));
      MeterRead(if hit.None? then None else ReplyValue(Classify(epc, w[hit.value].value)), Drop(s1, Used(hit, m)))
  }

  /** The two lines of one read: the `SKSENDTO` header and the Get frame. */
  function ReadRequest(ipv6: string, epc: Epc): seq<Tx> {
    [Line(SendHeader(ipv6, 14)), Raw(GetFrame(epc))]
  }

  /**
   * `read_meter(ipv6, epc)` (code.py:220-243): send the Get frame; when the
   * modem does not acknowledge it, report no reading without waiting for an
   * answer; otherwise wait up to five seconds for the first line that answers
   * the request, and report its value, or no reading when that value does
   * not parse.
   */
  method ReadMeter(uart: Uart, ipv6: string, epc: Epc) returns (v: Option<int>)
    modifies uart`pending, uart`sent
    ensures uart.sent == old(uart.sent) + [Line(SendHeader(ipv6, 14)), Raw(GetFrame(epc))]
    ensures var n := AckSeconds * uart.pollsPerSecond;
      var ack := FirstLine(Window(old(uart.pending), n), IsAck);
      var s1 := Drop(old(uart.pending), Used(ack, n));
      var m := ReplySeconds * uart.pollsPerSecond;
      var w := Window(s1, m);
      var hit := FirstLine(w, l => Answers(epc, l));
      && (ack.None? ==> v.None? && uart.pending == s1)
      && (ack.Some? ==> uart.pending == Drop(s1, Used(hit, m)))
      && (ack.Some? ==> v == if hit.None? then None else ReplyValue(Classify(epc, w[hit.value].value)))
    ensures MeterRead(v, uart.pending) == MeterReply(old(uart.pending), uart.pollsPerSecond, epc)
  {
    var frame := GetFrame(epc);
    GetFrameLayout(epc);
    var ok := SendToRaw(uart, ipv6, frame);
    if !ok {
      return None;
    }
    var answer := uart.AwaitLine(ReplySeconds * uart.pollsPerSecond, l => Answers(epc, l));
    v := if answer.None? then None else ReplyValue(Classify(epc, answer.value));
  }
}
