/**
 * The agent's main loop (code.py:245-304): start-up, then every cycle read
 * the meter, publish what was read, and escalate when failures accumulate.
 *
 * Registers: `0xE0` is read on one cycle in five (when `cnt` is 0) and
 * `0xE7` on every cycle. Each failed read adds one to `echonet_fail`, each
 * successful one resets it; three failures in a row make the agent rejoin
 * the PAN. Each failed publish adds one to `http_fail`, a successful one
 * resets it; five make the agent reconnect Wi-Fi and renew the HTTP session.
 * An exception from those recovery steps is caught by the loop, which then
 * tries a full reconnection and resets both counters only when that
 * succeeds.
 *
 * The policy is stated on values first (`Next`), over a `Report` of what the
 * cycle's calls returned; the `Supervisor` class runs it against the modem
 * and the network.
 */
module Supervisor {
  import opened Wrappers
  import opened Serial
  import opened Echonet
  import opened Join
  import opened Network
  import opened Influx
  import opened Config

  /** `echonet_fail`, `http_fail` and `cnt` (code.py:250-252). */
  datatype Counters = Counters(echonetFail: nat, httpFail: nat, cnt: nat)

  /** `cnt` counts cycles modulo 5. */
  const Period: nat := 5
  const RejoinAfter: nat := 3
  const RefreshAfter: nat := 5
  /** Seconds between cycles. */
  const CyclePause: nat := 30

  /** How `ensure_wifi(); renew_http_session(); ipv6_addr = wisun_join()` ended. */
  datatype Rejoin = WifiDown | JoinFailed | Rejoined(ipv6: string)

  /** What the calls of one cycle returned; `None` for a call the cycle did not make. */
  datatype Report = Report(
    e0: Option<Option<int>>,
    e7: Option<int>,
    published: Option<bool>,
    rejoin: Option<Rejoin>,
    refresh: Option<bool>,
    recovery: Option<Rejoin>)

  /** `echonet_fail` after the reads (code.py:257-269). */
  function AfterReads(ef: nat, e0: Option<Option<int>>, e7: Option<int>): nat {
    var e := if e0.None? then ef else if e0.value.Some? then 0 else ef + 1;
    if e7.Some? then 0 else e + 1
  }

  /** The `fields` dictionary, in insertion order: `E0` before `E7`. */
  function ReadFields(e0: Option<Option<int>>, e7: Option<int>): seq<Field> {
    (if e0.Some? && e0.value.Some? then [Field("E0", e0.value.value)] else [])
      + (if e7.Some? then [Field("E7", e7.value)] else [])
  }

  /** `http_fail` after publishing (code.py:271-276); unchanged when nothing was published. */
  function AfterPublish(hf: nat, published: Option<bool>): nat {
    if published.None? then hf else if published.value then 0 else hf + 1
  }

  /** One of the escalation steps raised, so the loop's `except` branch runs. */
  predicate Raised(rejoin: Option<Rejoin>, refresh: Option<bool>) {
    (rejoin.Some? && !rejoin.value.Rejoined?) || refresh == Some(false)
  }

  /** The report is one a cycle that starts with counters `c` can produce. */
  predicate Consistent(c: Counters, r: Report) {
    var ef := AfterReads(c.echonetFail, r.e0, r.e7);
    var hf := AfterPublish(c.httpFail, r.published);
    && (r.e0.Some? <==> c.cnt == 0)
    && (r.published.Some? <==> ReadFields(r.e0, r.e7) != [])
    && (r.rejoin.Some? <==> ef >= RejoinAfter)
    && (r.refresh.Some? <==> (r.rejoin.None? || r.rejoin.value.Rejoined?) && hf >= RefreshAfter)
    && (r.recovery.Some? <==> Raised(r.rejoin, r.refresh))
  }

  /** `echonet_fail` and `http_fail`. */
  datatype Fails = Fails(echonet: nat, http: nat)

  /**
   * The failure counts `ef` and `hf` after the escalations and the recovery
   * (code.py:278-301): a successful full reconnection resets both, otherwise
   * a rejoin resets `echonet_fail` and a refresh `http_fail`.
   */
  function Settled(ef: nat, hf: nat, rejoin: Option<Rejoin>, refresh: Option<bool>, recovery: Option<Rejoin>): Fails {
    if recovery.Some? && recovery.value.Rejoined? then Fails(0, 0)
    else Fails(
      if rejoin.Some? && rejoin.value.Rejoined? then 0 else ef,
      if refresh == Some(true) then 0 else hf)
  }

  /** The counters after a cycle that produced report `r` (code.py:254-303). */
  function Next(c: Counters, r: Report): Counters {
    var f := Settled(AfterReads(c.echonetFail, r.e0, r.e7), AfterPublish(c.httpFail, r.published), r.rejoin, r.refresh, r.recovery);
    Counters(f.echonet, f.http, (c.cnt + 1) % Period)
  }

  /** The address after a rejoin and a recovery: that of the last successful join, if any. */
  function Address(ipv6: string, rejoin: Option<Rejoin>, recovery: Option<Rejoin>): string {
    if recovery.Some? && recovery.value.Rejoined? then recovery.value.ipv6
    else if rejoin.Some? && rejoin.value.Rejoined? then rejoin.value.ipv6
    else ipv6
  }

  /** `ipv6_addr` after the cycle. */
  function NextAddress(ipv6: string, r: Report): string {
    Address(ipv6, r.rejoin, r.recovery)
  }

  // ---- properties of one cycle ----

  /**
   * After any cycle `echonet_fail` is below 3 and `http_fail` below 5, unless
   * an escalation raised and the full reconnection that followed failed too.
   */
  lemma CountersBounded(c: Counters, r: Report)
    requires Consistent(c, r)
    ensures var n := Next(c, r);
      n.echonetFail >= RejoinAfter || n.httpFail >= RefreshAfter ==> r.recovery.Some? && !r.recovery.value.Rejoined?
    ensures Next(c, r).cnt < Period
  {
    var ef := AfterReads(c.echonetFail, r.e0, r.e7);
    var hf := AfterPublish(c.httpFail, r.published);
    if r.recovery.None? {
      assert !Raised(r.rejoin, r.refresh);
      assert Next(c, r).echonetFail == if r.rejoin.Some? then 0 else ef;
      if r.refresh.Some? {
        assert r.refresh != Some(false);
        assert r.refresh.value;
      }
    }
  }

  /** A successful `0xE7` read leaves `echonet_fail` at 0 whatever else happens in the cycle. */
  lemma ReadingResets(c: Counters, r: Report)
    requires Consistent(c, r) && r.e7.Some?
    ensures r.rejoin.None? && Next(c, r).echonetFail == 0
  {
  }

  /**
   * Failed reads add one each, so a cycle that reads both registers can add
   * two; the agent rejoins as soon as the count reaches three.
   */
  lemma MissedReads(c: Counters, r: Report)
    requires Consistent(c, r) && r.e7.None? && (r.e0.None? || r.e0.value.None?)
    ensures AfterReads(c.echonetFail, r.e0, r.e7) == c.echonetFail + (if c.cnt == 0 then 2 else 1)
    ensures r.rejoin.Some? <==> c.echonetFail + (if c.cnt == 0 then 2 else 1) >= RejoinAfter
    ensures r.published.None?
    ensures Next(c, r).httpFail == c.httpFail || r.refresh == Some(true) || (r.recovery.Some? && r.recovery.value.Rejoined?)
  {
  }

  /**
   * `http_fail` moves only when something was published: it is reset by a
   * successful publish and grows by one with a failed one; the fifth failure
   * in a row makes the agent renew the session, unless a rejoin raised first.
   */
  lemma PublishCounted(c: Counters, r: Report)
    requires Consistent(c, r)
    ensures r.published.None? ==> AfterPublish(c.httpFail, r.published) == c.httpFail
    ensures r.published == Some(true) ==> Next(c, r).httpFail == 0
    ensures r.published == Some(false) && c.httpFail + 1 >= RefreshAfter && !Raised(r.rejoin, None) ==> r.refresh.Some?
  {
  }

  /** Both counters are reset after the exception path only when its reconnection succeeded. */
  lemma RecoveryResets(c: Counters, r: Report)
    requires Consistent(c, r) && r.recovery.Some?
    ensures Next(c, r).echonetFail == 0 && Next(c, r).httpFail == 0 <==>
      || r.recovery.value.Rejoined?
      || ((AfterReads(c.echonetFail, r.e0, r.e7) == 0 || (r.rejoin.Some? && r.rejoin.value.Rejoined?))
         && AfterPublish(c.httpFail, r.published) == 0)
  {
  }

  // ---- runs of cycles ----

  /** The counters after the cycles that produced `rs`, in order. */
  function Run(c: Counters, rs: seq<Report>): Counters {
    if rs == [] then c else Next(Run(c, rs[..|rs| - 1]), rs[|rs| - 1])
  }

  /** Every report of `rs` is one its cycle can produce. */
  predicate Feasible(c: Counters, rs: seq<Report>) {
    forall i :: 0 <= i < |rs| ==> Consistent(Run(c, rs[..i]), rs[i])
  }

  /** After `k` cycles from `cnt == 0`, `cnt` is `k % 5`. */
  lemma {:induction false} CycleCount(c: Counters, rs: seq<Report>)
    requires c.cnt == 0
    ensures Run(c, rs).cnt == |rs| % Period
  {
    if rs != [] {
      CycleCount(c, rs[..|rs| - 1]);
    }
  }

  /** From start-up on, `0xE0` is read exactly on cycles 0, 5, 10, ... */
  lemma E0Schedule(c: Counters, rs: seq<Report>, i: nat)
    requires c.cnt == 0 && Feasible(c, rs) && i < |rs|
    ensures rs[i].e0.Some? <==> i % Period == 0
  {
    CycleCount(c, rs[..i]);
  }

  // ---- the cycle against the modem and the network ----

  /** Everything outside the agent that a cycle reads or changes: the UART and the network. */
  datatype Env = Env(
    pending: seq<Option<string>>,
    sent: seq<Tx>,
    links: seq<bool>,
    replies: seq<HttpReply>,
    session: nat,
    posted: seq<Request>,
    slept: seq<nat>)

  function EnvOf(u: Uart, n: Network): Env
    reads u, n
  {
    Env(u.pending, u.sent, n.links, n.replies, n.session, n.posted, n.slept)
  }

  /**
   * How the modem answers the agent: a read of a register, and a join, each
   * against the output still pending. The agent's own modem is
   * `Echonet.MeterReply` and `Join.Joined` (`Supervisor.Wired`).
   */
  datatype Modem = Modem(read: (seq<Option<string>>, Epc) -> MeterRead, join: seq<Option<string>> -> JoinRun)

  /** One `read_meter` call: the two lines it writes and the answer it takes from the modem. */
  function ReadOn(e: Env, m: Modem, ipv6: string, epc: Epc): Env {
    e.(pending := m.read(e.pending, epc).rest, sent := e.sent + ReadRequest(ipv6, epc))
  }

  datatype Reads = Reads(e0: Option<Option<int>>, e7: Option<int>, env: Env)

  /** The reads of a cycle: `0xE0` first when `first`, then `0xE7` on what is left. */
  function ReadsOn(e: Env, m: Modem, ipv6: string, first: bool): Reads {
    var e1 := if first then ReadOn(e, m, ipv6, E0) else e;
    Reads(if first then Some(m.read(e.pending, E0).value) else None,
      m.read(e1.pending, E7).value, ReadOn(e1, m, ipv6, E7))
  }

  datatype Reconnection = Reconnection(result: Rejoin, env: Env)

  /**
   * `ensure_wifi(); renew_http_session(); wisun_join()`: the next link state
   * decides; when Wi-Fi is up the session is renewed and the join runs on the
   * modem's output.
   */
  function ReconnectOn(e: Env, m: Modem): Reconnection {
    var up := e.links != [] && e.links[0];
    var e1 := e.(links := Drop(e.links, 1));
    if !up then Reconnection(WifiDown, e1)
    else
      var j := m.join(e.pending);
      Reconnection(if j.result.Ok? then Rejoined(j.result.value) else JoinFailed,
        e1.(session := e.session + 1, pending := j.rest, sent := e.sent + j.sent))
  }

  datatype Publication = Publication(published: Option<bool>, env: Env)

  /**
   * Publishing `fields`: nothing when there are none; otherwise the attempts
   * `post_influx` makes against the next replies, each posting the same
   * request and each transport error costing one link check and one session.
   */
  function PublishOn(e: Env, url: string, measurement: string, tags: string, fields: seq<Field>): Publication {
    if fields == [] then Publication(None, e)
    else
      var n := Attempts(e.replies);
      var t := Renewals(e.replies, n);
      Publication(Some(Success(e.replies, 0).Some?), e.(
        links := Drop(e.links, t),
        replies := Drop(e.replies, n),
        session := e.session + t,
        posted := e.posted + Repeat(Request(url, Body(measurement, tags, fields)), n),
        slept := e.slept + Pauses(Waits[..n])))
  }

  datatype Escalation = Escalation(rejoin: Option<Rejoin>, refresh: Option<bool>, env: Env)

  /**
   * The escalations for counters `ef` and `hf`: a reconnection from three
   * failed reads, which ends the escalations unless it rejoined; then the
   * refresh.
   */
  function EscalateOn(e: Env, m: Modem, ef: nat, hf: nat): Escalation {
    if ef < RejoinAfter then
      var f := RefreshOn(e, hf);
      Escalation(None, f.refresh, f.env)
    else
      var r := ReconnectOn(e, m);
      if r.result.Rejoined? then
        var f := RefreshOn(r.env, hf);
        Escalation(Some(r.result), f.refresh, f.env)
      else Escalation(Some(r.result), None, r.env)
  }

  datatype Refreshed = Refreshed(refresh: Option<bool>, env: Env)

  /** From five failed publishes on: `ensure_wifi()` and, when the link is up, a new session. */
  function RefreshOn(e: Env, hf: nat): Refreshed {
    if hf < RefreshAfter then Refreshed(None, e)
    else
      var up := e.links != [] && e.links[0];
      Refreshed(Some(up), e.(links := Drop(e.links, 1), session := e.session + if up then 1 else 0))
  }

  datatype Measurement = Measurement(e0: Option<Option<int>>, e7: Option<int>, published: Option<bool>, env: Env)

  /** The first half of a cycle (code.py:256-276): the reads, then the publish of what they returned. */
  function MeasureOn(e: Env, m: Modem, ipv6: string, first: bool, s: Settings): Measurement {
    var rd := ReadsOn(e, m, ipv6, first);
    var pb := PublishOn(rd.env, WriteUrl(s), s.measurement, s.tags, ReadFields(rd.e0, rd.e7));
    Measurement(rd.e0, rd.e7, pb.published, pb.env)
  }

  datatype Response = Response(rejoin: Option<Rejoin>, refresh: Option<bool>, recovery: Option<Rejoin>, env: Env)

  /**
   * The second half (code.py:278-301): the escalations for counters `ef` and
   * `hf`, then the full reconnection when one of them raised.
   */
  function RespondOn(e: Env, m: Modem, ef: nat, hf: nat): Response {
    var es := EscalateOn(e, m, ef, hf);
    if Raised(es.rejoin, es.refresh) then
      var rc := ReconnectOn(es.env, m);
      Response(es.rejoin, es.refresh, Some(rc.result), rc.env)
    else Response(es.rejoin, es.refresh, None, es.env)
  }

  datatype CycleRun = CycleRun(report: Report, env: Env)

  /** One pass of the loop from counters `c` and address `ipv6`: both halves, then the pause. */
  function CycleOn(c: Counters, ipv6: string, e: Env, m: Modem, s: Settings): CycleRun {
    var ms := MeasureOn(e, m, ipv6, c.cnt == 0, s);
    var r := RespondOn(ms.env, m, AfterReads(c.echonetFail, ms.e0, ms.e7), AfterPublish(c.httpFail, ms.published));
    CycleRun(Report(ms.e0, ms.e7, ms.published, r.rejoin, r.refresh, r.recovery), r.env.(slept := r.env.slept + [CyclePause]))
  }

  /** Every cycle of the agent produces a report its policy allows. */
  lemma CycleConsistent(c: Counters, ipv6: string, e: Env, m: Modem, s: Settings)
    ensures Consistent(c, CycleOn(c, ipv6, e, m, s).report)
  {
  }

  /** The first half posts only the request for the readings it took, and nothing when it took none. */
  lemma MeasurePosts(e: Env, m: Modem, ipv6: string, first: bool, s: Settings)
    ensures var ms := MeasureOn(e, m, ipv6, first, s);
      && (ms.published.None? ==> ms.env.posted == e.posted)
      && |e.posted| <= |ms.env.posted|
      && (forall k :: |e.posted| <= k < |ms.env.posted| ==>
            ms.env.posted[k] == Request(WriteUrl(s), Body(s.measurement, s.tags, ReadFields(ms.e0, ms.e7))))
  {
    var rd := ReadsOn(e, m, ipv6, first);
    var fields := ReadFields(rd.e0, rd.e7);
    if fields != [] {
      var req := Request(WriteUrl(s), Body(s.measurement, s.tags, fields));
      var n := Attempts(rd.env.replies);
      assert PublishOn(rd.env, WriteUrl(s), s.measurement, s.tags, fields).env.posted == e.posted + Repeat(req, n);
    }
  }

  /** The second half neither posts nor pauses. */
  lemma RespondKeeps(e: Env, m: Modem, ef: nat, hf: nat)
    ensures RespondOn(e, m, ef, hf).env.posted == e.posted
    ensures RespondOn(e, m, ef, hf).env.slept == e.slept
  {
  }

  /**
   * A cycle posts only the readings it took, `E0` first, and nothing when it
   * took none; it ends with the thirty-second pause.
   */
  lemma CyclePosts(c: Counters, ipv6: string, e: Env, m: Modem, s: Settings)
    ensures var r := CycleOn(c, ipv6, e, m, s);
      && (r.report.published.None? ==> r.env.posted == e.posted)
      && |e.posted| <= |r.env.posted|
      && (forall k :: |e.posted| <= k < |r.env.posted| ==>
            r.env.posted[k] == Request(WriteUrl(s), Body(s.measurement, s.tags, ReadFields(r.report.e0, r.report.e7))))
      && r.env.slept[|r.env.slept| - 1] == CyclePause
  {
    var ms := MeasureOn(e, m, ipv6, c.cnt == 0, s);
    MeasurePosts(e, m, ipv6, c.cnt == 0, s);
    RespondKeeps(ms.env, m, AfterReads(c.echonetFail, ms.e0, ms.e7), AfterPublish(c.httpFail, ms.published));
  }

  // ---- the loop itself ----

  class Supervisor {
    const uart: Uart
    const net: Network
    const settings: Settings
    /** The modem as the reads and joins below see it. */
    const modem: Modem
    var ipv6: string
    var echonetFail: nat
    var httpFail: nat
    var cnt: nat

    function Counts(): Counters
      reads this
    {
      Counters(echonetFail, httpFail, cnt)
    }

    /** `modem` answers as `read_meter` and `wisun_join` do against this UART. */
    ghost predicate Wired() {
      && (forall st, epc {:trigger MeterReply(st, uart.pollsPerSecond, epc)} ::
            modem.read(st, epc) == MeterReply(st, uart.pollsPerSecond, epc))
      && (forall st {:trigger Joined(st, uart.pollsPerSecond, settings.rbpwd, settings.rbid)} ::
            modem.join(st) == Joined(st, uart.pollsPerSecond, settings.rbpwd, settings.rbid))
    }

    /** The state after start-up: joined at `addr`, every counter 0. */
    constructor (u: Uart, n: Network, s: Settings, addr: string)
      ensures uart == u && net == n && settings == s && ipv6 == addr
      ensures Counts() == Counters(0, 0, 0)
      ensures Wired()
    {
      uart := u;
      net := n;
      settings := s;
      var pps := u.pollsPerSecond;
      modem := Modem((st, epc) => MeterReply(st, pps, epc), st => Joined(st, pps, s.rbpwd, s.rbid));
      ipv6 := addr;
      echonetFail := 0;
      httpFail := 0;
      cnt := 0;
    }

    /** `ensure_wifi(); renew_http_session(); ipv6_addr = wisun_join()`, stopping at the first exception. */
    method Reconnect() returns (a: Rejoin)
      requires Wired()
      modifies net`links, net`session, uart`pending, uart`sent
      ensures Reconnection(a, EnvOf(uart, net)) == ReconnectOn(old(EnvOf(uart, net)), modem)
    {
      var up := net.EnsureWifi();
      if !up {
        return WifiDown;
      }
      net.RenewSession();
      var r := WisunJoin(uart, settings.rbpwd, settings.rbid);
      a := if r.Ok? then Rejoined(r.value) else JoinFailed;
    }

    /** One `read_meter` call and its effect on `echonet_fail` (code.py:258-263, 264-269). */
    method ReadCounted(epc: Epc) returns (v: Option<int>)
      requires Wired()
      modifies this`echonetFail, uart`pending, uart`sent
      ensures echonetFail == if v.Some? then 0 else old(echonetFail) + 1
      ensures v == modem.read(old(uart.pending), epc).value
      ensures EnvOf(uart, net) == ReadOn(old(EnvOf(uart, net)), modem, ipv6, epc)
    {
      v := ReadMeter(uart, ipv6, epc);
      if v.Some? {
        echonetFail := 0;
      } else {
        echonetFail := echonetFail + 1;
      }
    }

    /** The reads of code.py:256-269: `0xE0` when `cnt` is 0, then `0xE7`. */
    method ReadRegisters() returns (e0: Option<Option<int>>, e7: Option<int>)
      requires Wired()
      modifies this`echonetFail, uart`pending, uart`sent
      ensures e0.Some? <==> cnt == 0
      ensures echonetFail == AfterReads(old(echonetFail), e0, e7)
      ensures Reads(e0, e7, EnvOf(uart, net)) == ReadsOn(old(EnvOf(uart, net)), modem, ipv6, cnt == 0)
    {
      e0 := None;
      if cnt == 0 {
        var v := ReadCounted(E0);
        e0 := Some(v);
      }
      e7 := ReadCounted(E7);
    }

    /** Publishing the readings, if there are any (code.py:271-276). */
    method Publish(fields: seq<Field>) returns (published: Option<bool>)
      modifies this`httpFail, net`links, net`replies, net`session, net`posted, net`slept
      ensures published.Some? <==> fields != []
      ensures httpFail == AfterPublish(old(httpFail), published)
      ensures published.None? ==> net.posted == old(net.posted)
      ensures forall k :: |old(net.posted)| <= k < |net.posted| ==>
        net.posted[k] == Request(WriteUrl(settings), Body(settings.measurement, settings.tags, fields))
      ensures Publication(published, EnvOf(uart, net))
        == PublishOn(old(EnvOf(uart, net)), WriteUrl(settings), settings.measurement, settings.tags, fields)
    {
      published := None;
      if fields != [] {
        ghost var p0 := net.posted;
        var ok := PostInflux(net, WriteUrl(settings), settings.measurement, settings.tags, fields);
        ghost var req := Request(WriteUrl(settings), Body(settings.measurement, settings.tags, fields));
        assert net.posted == p0 + Repeat(req, |net.posted| - |p0|);
        published := Some(ok);
        if ok {
          httpFail := 0;
        } else {
          httpFail := httpFail + 1;
        }
      }
    }

    /** The escalations of code.py:278-290. */
    method Escalate() returns (rejoin: Option<Rejoin>, refresh: Option<bool>)
      requires Wired()
      modifies this`ipv6, this`echonetFail, this`httpFail, net`links, net`session, uart`pending, uart`sent
      ensures rejoin.Some? <==> old(echonetFail) >= RejoinAfter
      ensures refresh.Some? <==> (rejoin.None? || rejoin.value.Rejoined?) && old(httpFail) >= RefreshAfter
      ensures echonetFail == if rejoin.Some? && rejoin.value.Rejoined? then 0 else old(echonetFail)
      ensures httpFail == if refresh == Some(true) then 0 else old(httpFail)
      ensures ipv6 == if rejoin.Some? && rejoin.value.Rejoined? then rejoin.value.ipv6 else old(ipv6)
      ensures Escalation(rejoin, refresh, EnvOf(uart, net))
        == EscalateOn(old(EnvOf(uart, net)), modem, old(echonetFail), old(httpFail))
    {
      rejoin := None;
      if echonetFail >= RejoinAfter {
        var a := Reconnect();
        rejoin := Some(a);
        if !a.Rejoined? {
          refresh := None;
          return;
        }
        ipv6 := a.ipv6;
        echonetFail := 0;
      }
      refresh := Refresh();
    }

    /** `ensure_wifi(); renew_http_session()` after five failed publishes (code.py:285-290). */
    method Refresh() returns (refresh: Option<bool>)
      modifies this`httpFail, net`links, net`session
      ensures refresh.Some? <==> old(httpFail) >= RefreshAfter
      ensures httpFail == if refresh == Some(true) then 0 else old(httpFail)
      ensures Refreshed(refresh, EnvOf(uart, net)) == RefreshOn(old(EnvOf(uart, net)), old(httpFail))
    {
      refresh := None;
      if httpFail >= RefreshAfter {
        var up := net.EnsureWifi();
        refresh := Some(up);
        if up {
          net.RenewSession();
          httpFail := 0;
        }
      }
    }

    /** The `except` branch of code.py:292-301: counters reset only when reconnection succeeds. */
    method Recover() returns (recovery: Rejoin)
      requires Wired()
      modifies this`ipv6, this`echonetFail, this`httpFail, net`links, net`session, uart`pending, uart`sent
      ensures recovery.Rejoined? ==> ipv6 == recovery.ipv6 && echonetFail == 0 && httpFail == 0
      ensures !recovery.Rejoined? ==> ipv6 == old(ipv6) && echonetFail == old(echonetFail) && httpFail == old(httpFail)
      ensures Reconnection(recovery, EnvOf(uart, net)) == ReconnectOn(old(EnvOf(uart, net)), modem)
    {
      recovery := Reconnect();
      if recovery.Rejoined? {
        ipv6 := recovery.ipv6;
        echonetFail := 0;
        httpFail := 0;
      }
    }

    /** The reads and the publish (code.py:256-276). */
    method Measure() returns (e0: Option<Option<int>>, e7: Option<int>, published: Option<bool>)
      requires Wired()
      modifies this`echonetFail, this`httpFail, uart`pending, uart`sent
      modifies net`links, net`replies, net`session, net`posted, net`slept
      ensures echonetFail == AfterReads(old(echonetFail), e0, e7)
      ensures httpFail == AfterPublish(old(httpFail), published)
      ensures Measurement(e0, e7, published, EnvOf(uart, net))
        == MeasureOn(old(EnvOf(uart, net)), modem, ipv6, cnt == 0, settings)
    {
      e0, e7 := ReadRegisters();
      published := Publish(ReadFields(e0, e7));
    }

    /** The escalations and, when one raised, the full reconnection (code.py:278-301). */
    method Respond() returns (rejoin: Option<Rejoin>, refresh: Option<bool>, recovery: Option<Rejoin>)
      requires Wired()
      modifies this`ipv6, this`echonetFail, this`httpFail, net`links, net`session, uart`pending, uart`sent
      ensures Fails(echonetFail, httpFail) == Settled(old(echonetFail), old(httpFail), rejoin, refresh, recovery)
      ensures ipv6 == Address(old(ipv6), rejoin, recovery)
      ensures Response(rejoin, refresh, recovery, EnvOf(uart, net))
        == RespondOn(old(EnvOf(uart, net)), modem, old(echonetFail), old(httpFail))
    {
      rejoin, refresh := Escalate();
      recovery := None;
      if Raised(rejoin, refresh) {
        var a := Recover();
        recovery := Some(a);
      }
    }

    /**
     * One pass of the `while True` loop (code.py:254-304): the counters and
     * the address are those the policy gives for the report, and the report
     * and the modem and network afterwards are those `CycleOn` gives;
     * `CycleConsistent` and `CyclePosts` say what else holds of them.
     */
    method Cycle() returns (report: Report)
      requires Wired()
      modifies this`ipv6, this`echonetFail, this`httpFail, this`cnt
      modifies uart`pending, uart`sent, net`links, net`replies, net`session, net`posted, net`slept
      ensures Counts() == Next(old(Counts()), report)
      ensures ipv6 == NextAddress(old(ipv6), report)
      ensures CycleRun(report, EnvOf(uart, net)) == CycleOn(old(Counts()), old(ipv6), old(EnvOf(uart, net)), modem, settings)
    {
      ghost var c := Counts();
      var e0, e7, published := Measure();
      ghost var ef, hf := echonetFail, httpFail;
      var rejoin, refresh, recovery := Respond();
      ghost var f := Settled(ef, hf, rejoin, refresh, recovery);
      assert echonetFail == f.echonet && httpFail == f.http;
      cnt := (cnt + 1) % Period;
      net.Sleep(CyclePause);
      report := Report(e0, e7, published, rejoin, refresh, recovery);
    }
  }

  /** What start-up returns, and the surroundings it leaves. */
  datatype Startup = Startup(ipv6: Option<string>, env: Env)

  /**
   * Start-up against the modem output and the link states: a first link
   * check, a new session, a second link check, then the join; the first
   * failure ends it.
   */
  function StartOn(e: Env, pps: nat, s: Settings): Startup {
    var up1 := e.links != [] && e.links[0];
    var e1 := e.(links := Drop(e.links, 1));
    if !up1 then Startup(None, e1)
    else
      var up2 := e1.links != [] && e1.links[0];
      var e2 := e1.(links := Drop(e1.links, 1), session := e.session + 1);
      if !up2 then Startup(None, e2)
      else
        var j := Joined(e.pending, pps, s.rbpwd, s.rbid);
        Startup(if j.result.Ok? then Some(j.result.value) else None, e2.(pending := j.rest, sent := e.sent + j.sent))
  }

  /** Start-up succeeds exactly when both link checks find Wi-Fi up and the join succeeds. */
  lemma StartIff(e: Env, pps: nat, s: Settings)
    ensures StartOn(e, pps, s).ipv6.Some? <==>
      |e.links| >= 2 && e.links[0] && e.links[1] && Joined(e.pending, pps, s.rbpwd, s.rbid).result.Ok?
  {
    if e.links != [] {
      assert Drop(e.links, 1) != [] ==> Drop(e.links, 1)[0] == e.links[1];
    }
  }

  /**
   * The connections of start-up (code.py:91-92, 246-249): connect Wi-Fi,
   * create the HTTP session, make sure of Wi-Fi again and join the PAN; the
   * first of these to raise ends it with `None`.
   */
  method Connect(uart: Uart, net: Network, settings: Settings) returns (addr: Option<string>)
    modifies uart`pending, uart`sent, net`links, net`session
    ensures Startup(addr, EnvOf(uart, net)) == StartOn(old(EnvOf(uart, net)), uart.pollsPerSecond, settings)
  {
    var up := net.EnsureWifi();
    if !up {
      return None;
    }
    net.RenewSession();
    up := net.EnsureWifi();
    if !up {
      return None;
    }
    var joined := WisunJoin(uart, settings.rbpwd, settings.rbid);
    addr := if joined.Ok? then Some(joined.value) else None;
  }

  /**
   * Start-up (code.py:246-252): the connections, then the supervisor at the
   * joined address with every counter 0; a failed connection ends the
   * program, which is `None` here.
   */
  method Start(uart: Uart, net: Network, settings: Settings) returns (s: Option<Supervisor>)
    modifies uart`pending, uart`sent, net`links, net`session
    ensures var st := StartOn(old(EnvOf(uart, net)), uart.pollsPerSecond, settings);
      && s.Some? == st.ipv6.Some?
      && EnvOf(uart, net) == st.env
      && (s.Some? ==> s.value.ipv6 == st.ipv6.value)
    ensures s.Some? ==> fresh(s.value) && s.value.uart == uart && s.value.net == net && s.value.settings == settings
    ensures s.Some? ==> s.value.Counts() == Counters(0, 0, 0) && s.value.Wired()
  {
    var addr := Connect(uart, net, settings);
    if addr.None? {
      return None;
    }
    var sup := new Supervisor(uart, net, settings, addr.value);
    s := Some(sup);
  }
}
