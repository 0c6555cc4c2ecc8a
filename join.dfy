/**
 * Joining the smart meter's Wi-SUN PAN (`wisun_join`, code.py:172-214):
 * identify with the B-route credentials, scan with growing durations until a
 * PAN is found, tune the modem to it, ask for the meter's link-local IPv6
 * address, and authenticate (PANA) with `SKJOIN`.
 *
 * The modem reports the outcome of `SKJOIN` as `EVENT 25` (connection
 * established) or `EVENT 24` (connection failed).
 */
module Join {
  import opened Wrappers
  import opened Text
  import opened Serial
  import opened Scan

  /** Why a join raised `RuntimeError`. */
  datatype JoinError = NoCandidate | NoAddress | Rejected

  /** What `_write(c)` puts on the line. */
  function Cmd(c: string): Tx {
    Line(c + "\r\n")
  }

  function ScanCommands(durations: seq<nat>): (txs: seq<Tx>)
    ensures |txs| == |durations|
    ensures forall k :: 0 <= k < |durations| ==> txs[k] == Cmd(ScanCommand(durations[k]))
  {
    seq(|durations|, k requires 0 <= k < |durations| => Cmd(ScanCommand(durations[k])))
  }

  lemma ScanCommandsSnoc(durations: seq<nat>, d: nat)
    ensures ScanCommands(durations + [d]) == ScanCommands(durations) + [Cmd(ScanCommand(d))]
  {
    assert ScanCommands(durations + [d])[|durations|] == Cmd(ScanCommand(d));
  }

  // ---- the scan series ----

  /** The first and the one-past-last duration of `range(4, 12)`. */
  const FirstDuration: nat := 4
  const EndDuration: nat := 12

  /**
   * What the scans from some duration on found, the duration after the last
   * one they tried, and the modem output they left unread.
   */
  datatype Scans = Scans(chosen: Option<Candidate>, end: nat, rest: seq<Option<string>>)

  /**
   * The scans of `wisun_join` from duration `d` on, one after another until
   * one finds a PAN; `scan` says what a single scan does.
   */
  function ScanFrom(stream: seq<Option<string>>, scan: (seq<Option<string>>, nat) -> Scanned, d: nat): Scans
    decreases EndDuration - d
  {
    if d >= EndDuration then Scans(None, d, stream)
    else
      var s := scan(stream, d);
      if s.chosen.Some? then Scans(s.chosen, d + 1, s.rest)
      else ScanFrom(s.rest, scan, d + 1)
  }

  /** The durations `lo, lo + 1, ..., hi - 1`. */
  function Range(lo: nat, hi: nat): (r: seq<nat>)
    ensures |r| == if lo <= hi then hi - lo else 0
    ensures forall k :: 0 <= k < |r| ==> r[k] == lo + k
    decreases hi - lo
  {
    if lo >= hi then [] else [lo] + Range(lo + 1, hi)
  }

  lemma RangeSnoc(lo: nat, hi: nat)
    requires lo <= hi
    ensures Range(lo, hi + 1) == Range(lo, hi) + [hi]
  {
  }

  /**
   * The scans try the durations from `d` on in order: a scan that finds a PAN
   * ends the series with its choice, and when none does every duration up to
   * 11 was tried.
   */
  lemma {:induction false} ScanFromTried(stream: seq<Option<string>>, scan: (seq<Option<string>>, nat) -> Scanned, d: nat)
    requires d <= EndDuration
    ensures var s := ScanFrom(stream, scan, d);
      && d <= s.end <= EndDuration
      && (s.chosen.None? ==> s.end == EndDuration)
      && (s.chosen.Some? ==> d < s.end)
      && (d < EndDuration && scan(stream, d).chosen.Some? ==> s.end == d + 1 && s.chosen == scan(stream, d).chosen)
    decreases EndDuration - d
  {
    if d < EndDuration && scan(stream, d).chosen.None? {
      ScanFromTried(scan(stream, d).rest, scan, d + 1);
    }
  }

  /** A PAN the scans settle on is eligible: it names a channel, a PAN ID and an address. */
  lemma {:induction false} ScanFromEligible(stream: seq<Option<string>>, scan: (seq<Option<string>>, nat) -> Scanned, d: nat)
    requires PicksEligible(scan)
    ensures var c := ScanFrom(stream, scan, d).chosen; c.Some? ==> Eligible(Some(c.value.desc))
    decreases EndDuration - d
  {
    if d < EndDuration && scan(stream, d).chosen.None? {
      ScanFromEligible(scan(stream, d).rest, scan, d + 1);
    }
  }

  /**
   * The scan loop of `wisun_join` (code.py:178-184): durations 4 to 11 in
   * turn, stopping at the first scan that returns a PAN.
   */
  method ScanSeries(uart: Uart) returns (chosen: Option<Candidate>)
    modifies uart`pending, uart`sent
    ensures SeriesDone(old(uart.pending), uart.pollsPerSecond, old(uart.sent), chosen, uart.pending, uart.sent)
  {
    ghost var s0, sent0 := uart.pending, uart.sent;
    var d := FirstDuration;
    while d < EndDuration
      invariant SeriesAt(s0, uart.pollsPerSecond, sent0, d, uart.pending, uart.sent)
    {
      ghost var pending, sent := uart.pending, uart.sent;
      chosen := ScanOnce(uart, d);
      SeriesStep(s0, uart.pollsPerSecond, sent0, d, pending, sent, chosen, uart.pending, uart.sent);
      if chosen.Some? {
        return;
      }
      d := d + 1;
    }
    chosen := None;
    SeriesEnd(s0, uart.pollsPerSecond, sent0, uart.pending, uart.sent);
  }

  /** The scan series so far: durations 4 up to `d` tried without a PAN, one command each. */
  predicate SeriesAt(s0: seq<Option<string>>, pps: nat, sent0: seq<Tx>, d: nat, pending: seq<Option<string>>, sent: seq<Tx>) {
    && FirstDuration <= d <= EndDuration
    && ScanFrom(pending, Scanner(pps), d) == ScanFrom(s0, Scanner(pps), FirstDuration)
    && sent == sent0 + ScanCommands(Range(FirstDuration, d))
  }

  /** The scan series is over: what it chose, what it left unread and the commands it sent. */
  predicate SeriesDone(s0: seq<Option<string>>, pps: nat, sent0: seq<Tx>, chosen: Option<Candidate>, pending: seq<Option<string>>, sent: seq<Tx>) {
    var s := ScanFrom(s0, Scanner(pps), FirstDuration);
    && chosen == s.chosen && pending == s.rest
    && sent == sent0 + ScanCommands(Range(FirstDuration, s.end))
  }

  /** After the last duration the series ends with nothing chosen. */
  lemma SeriesEnd(s0: seq<Option<string>>, pps: nat, sent0: seq<Tx>, pending: seq<Option<string>>, sent: seq<Tx>)
    requires SeriesAt(s0, pps, sent0, EndDuration, pending, sent)
    ensures SeriesDone(s0, pps, sent0, None, pending, sent)
  {
    assert ScanFrom(pending, Scanner(pps), EndDuration) == Scans(None, EndDuration, pending);
  }

  /** One more scan either ends the series with its PAN or moves it on to the next duration. */
  lemma SeriesStep(s0: seq<Option<string>>, pps: nat, sent0: seq<Tx>, d: nat, pending: seq<Option<string>>, sent: seq<Tx>,
                   chosen: Option<Candidate>, pending': seq<Option<string>>, sent': seq<Tx>)
    requires SeriesAt(s0, pps, sent0, d, pending, sent) && d < EndDuration
    requires Scanned(chosen, pending') == Scanning(pending, d, pps)
    requires sent' == sent + [Line(ScanCommand(d) + "\r\n")]
    ensures chosen.Some? ==> SeriesDone(s0, pps, sent0, chosen, pending', sent')
    ensures chosen.None? ==> SeriesAt(s0, pps, sent0, d + 1, pending', sent')
  {
    var scan := Scanner(pps);
    assert scan(pending, d) == Scanned(chosen, pending');
    RangeSnoc(FirstDuration, d);
    ScanCommandsSnoc(Range(FirstDuration, d), d);
    AppendAssoc(sent0, ScanCommands(Range(FirstDuration, d)), [Cmd(ScanCommand(d))]);
  }

  // ---- waiting for the address and the join ----

  /** The answer to `SKLL64`: the first line with a colon is the IPv6 address. */
  predicate IsAddress(l: string) {
    ':' in l
  }

  /** `EVENT 25` or `EVENT 24` end the wait for `SKJOIN`. */
  predicate IsJoinEvent(l: string) {
    Contains(l, "EVENT 25") || Contains(l, "EVENT 24")
  }

  predicate Mentions(x: Option<string>, event: string) {
    x.Some? && Contains(x.value, event)
  }

  /** The `SKJOIN` wait over the polls `w` ends in `EVENT 25`. */
  predicate Accepted(w: seq<Option<string>>) {
    var j := FirstLine(w, IsJoinEvent);
    j.Some? && Contains(w[j.value].value, "EVENT 25")
  }

  lemma ContainsNonEmpty(s: string, sub: string)
    requires sub != []
    ensures Contains(s, sub) ==> s != []
  {
  }

  /**
   * The join is accepted exactly when some line mentions `EVENT 25` and no
   * earlier line mentions `EVENT 24`.
   */
  lemma AcceptedIff(w: seq<Option<string>>)
    ensures Accepted(w) <==>
      exists i :: 0 <= i < |w| && Mentions(w[i], "EVENT 25") && forall j :: 0 <= j < i ==> !Mentions(w[j], "EVENT 24")
  {
    var first := FirstLine(w, IsJoinEvent);
    if Accepted(w) {
      var i := first.value;
      assert Mentions(w[i], "EVENT 25");
      assert forall j :: 0 <= j < i ==> !Hit(w[j], IsJoinEvent);
      forall j | 0 <= j < i
        ensures !Mentions(w[j], "EVENT 24")
      {
        if w[j].Some? {
          ContainsNonEmpty(w[j].value, "EVENT 24");
        }
      }
    }
    if exists i :: 0 <= i < |w| && Mentions(w[i], "EVENT 25") && forall j :: 0 <= j < i ==> !Mentions(w[j], "EVENT 24") {
      var i :| 0 <= i < |w| && Mentions(w[i], "EVENT 25") && forall j :: 0 <= j < i ==> !Mentions(w[j], "EVENT 24");
      ContainsNonEmpty(w[i].value, "EVENT 25");
      assert Hit(w[i], IsJoinEvent);
      assert first.Some? && first.value <= i;
      assert !Mentions(w[first.value], "EVENT 24") || first.value == i;
    }
  }

  // ---- the whole join ----

  /** What a join sends, what it returns, and the modem output it leaves unread. */
  datatype JoinRun = JoinRun(result: Result<string, JoinError>, sent: seq<Tx>, rest: seq<Option<string>>)

  function Preamble(rbpwd: string, rbid: string): seq<Tx> {
    [Cmd("SKVER"), Cmd("SKSETPWD C " + rbpwd), Cmd("SKSETRBID " + rbid)]
  }

  /** The three commands that tune the modem to the chosen PAN. */
  function Tune(d: Desc): seq<Tx>
    requires Eligible(Some(d))
  {
    [Cmd("SKSREG S2 " + d["Channel"]), Cmd("SKSREG S3 " + d["Pan ID"]), Cmd("SKLL64 " + d["Addr"])]
  }

  const AddressSeconds: nat := 5
  const JoinSeconds: nat := 30
  const SettleSeconds: nat := 3

  /** `SKJOIN ipv6` and its wait: accepted joins then discard three seconds of output. */
  function Authenticate(ipv6: string, stream: seq<Option<string>>, pps: nat): JoinRun {
    var k := JoinSeconds * pps;
    var wj := Window(stream, k);
    var rest := Drop(stream, Used(FirstLine(wj, IsJoinEvent), k));
    if Accepted(wj) then JoinRun(Ok(ipv6), [Cmd("SKJOIN " + ipv6)], Drop(rest, SettleSeconds * pps))
    else JoinRun(Err(Rejected), [Cmd("SKJOIN " + ipv6)], rest)
  }

  /** Tuning to the chosen PAN, the address wait, and authentication. */
  function Associate(d: Desc, stream: seq<Option<string>>, pps: nat): JoinRun
    requires Eligible(Some(d))
  {
    var m := AddressSeconds * pps;
    var wa := Window(stream, m);
    var a := FirstLine(wa, IsAddress);
    var rest := Drop(stream, Used(a, m));
    if a.None? then JoinRun(Err(NoAddress), Tune(d), rest)
    else
      var auth := Authenticate(Strip(wa[a.value].value), rest, pps);
      auth.(sent := Tune(d) + auth.sent)
  }

  /** The outcome of `wisun_join` against the modem output `stream`. */
  function Joined(stream: seq<Option<string>>, pps: nat, rbpwd: string, rbid: string): JoinRun {
    var scans := ScanFrom(stream, Scanner(pps), FirstDuration);
    var sent := Preamble(rbpwd, rbid) + ScanCommands(Range(FirstDuration, scans.end));
    if scans.chosen.None? then JoinRun(Err(NoCandidate), sent, scans.rest)
    else
      ScannerEligible(pps);
      ScanFromEligible(stream, Scanner(pps), FirstDuration);
      var r := Associate(scans.chosen.value.desc, scans.rest, pps);
      r.(sent := sent + r.sent)
  }

  /**
   * A join succeeds only with a PAN found, an address received and the
   * authentication accepted; the address is a non-empty line holding a colon,
   * and the last command sent is `SKJOIN` with it.
   */
  lemma JoinedOk(stream: seq<Option<string>>, pps: nat, rbpwd: string, rbid: string)
    requires Joined(stream, pps, rbpwd, rbid).result.Ok?
    ensures var r := Joined(stream, pps, rbpwd, rbid);
      && ScanFrom(stream, Scanner(pps), FirstDuration).chosen.Some?
      && r.result.value != [] && ':' in r.result.value
      && Strip(r.result.value) == r.result.value
      && r.sent[|r.sent| - 1] == Cmd("SKJOIN " + r.result.value)
  {
    var scans := ScanFrom(stream, Scanner(pps), FirstDuration);
    var m := AddressSeconds * pps;
    var wa := Window(scans.rest, m);
    var a := FirstLine(wa, IsAddress);
    var l := wa[a.value].value;
    assert Hit(wa[a.value], IsAddress);
    assert Strip(l) == l by {
      var k := a.value;
      assert k < |scans.rest|;
      StripIdempotent(scans.rest[k].value);
    }
  }

  /** Appending to a sequence keeps it as a prefix. */
  lemma PrefixKept<T>(a: seq<T>, b: seq<T>)
    ensures |a + b| >= |a| && (a + b)[..|a|] == a
  {
  }

  /**
   * Every join starts with the version query and the two credential commands,
   * followed by one `SKSCAN` per duration tried; a join that finds no PAN has
   * tried all eight durations and sent nothing more.
   */
  lemma JoinedCommands(stream: seq<Option<string>>, pps: nat, rbpwd: string, rbid: string)
    ensures var r := Joined(stream, pps, rbpwd, rbid);
      var tried := Range(FirstDuration, ScanFrom(stream, Scanner(pps), FirstDuration).end);
      && |r.sent| >= 3 + |tried|
      && r.sent[..3 + |tried|] == Preamble(rbpwd, rbid) + ScanCommands(tried)
      && (r.result == Err(NoCandidate) ==> tried == Range(4, 12) && r.sent == Preamble(rbpwd, rbid) + ScanCommands(tried))
  {
    var scans := ScanFrom(stream, Scanner(pps), FirstDuration);
    ScanFromTried(stream, Scanner(pps), FirstDuration);
    var sent := Preamble(rbpwd, rbid) + ScanCommands(Range(FirstDuration, scans.end));
    var r := Joined(stream, pps, rbpwd, rbid);
    if scans.chosen.Some? {
      ScannerEligible(pps);
      ScanFromEligible(stream, Scanner(pps), FirstDuration);
      var a := Associate(scans.chosen.value.desc, scans.rest, pps);
      assert r.sent == sent + a.sent;
      assert r.result != Err(NoCandidate) by {
        AssociateResult(scans.chosen.value.desc, scans.rest, pps);
      }
      PrefixKept(sent, a.sent);
    }
  }

  lemma AppendAssoc<T>(a: seq<T>, b: seq<T>, c: seq<T>)
    ensures a + b + c == a + (b + c)
  {
  }

  /** Tuning and authentication never report that no PAN was found. */
  lemma AssociateResult(d: Desc, stream: seq<Option<string>>, pps: nat)
    requires Eligible(Some(d))
    ensures Associate(d, stream, pps).result != Err(NoCandidate)
  {
  }

  /** `SKJOIN` and its wait (code.py:198-212). */
  method AuthenticateOn(uart: Uart, ipv6: string) returns (result: Result<string, JoinError>)
    modifies uart`pending, uart`sent
    ensures var r := Authenticate(ipv6, old(uart.pending), uart.pollsPerSecond);
      && result == r.result && uart.pending == r.rest && uart.sent == old(uart.sent) + r.sent
  {
    uart.Write("SKJOIN " + ipv6);
    var event := uart.AwaitLine(JoinSeconds * uart.pollsPerSecond, IsJoinEvent);
    if event.None? || !Contains(event.value, "EVENT 25") {
      return Err(Rejected);
    }
    uart.Drain(SettleSeconds);
    result := Ok(ipv6);
  }

  /** Tuning the modem to the chosen PAN, the address wait and `SKJOIN` (code.py:186-212). */
  method AssociateOn(uart: Uart, d: Desc) returns (result: Result<string, JoinError>)
    requires Eligible(Some(d))
    modifies uart`pending, uart`sent
    ensures var r := Associate(d, old(uart.pending), uart.pollsPerSecond);
      && result == r.result && uart.pending == r.rest && uart.sent == old(uart.sent) + r.sent
  {
    uart.Write("SKSREG S2 " + d["Channel"]);
    uart.Write("SKSREG S3 " + d["Pan ID"]);
    uart.Write("SKLL64 " + d["Addr"]);
    assert uart.sent == old(uart.sent) + Tune(d);
    ghost var tuned := uart.sent;
    var addr := uart.AwaitLine(AddressSeconds * uart.pollsPerSecond, IsAddress);
    if addr.None? {
      return Err(NoAddress);
    }
    result := AuthenticateOn(uart, Strip(addr.value));
    AppendAssoc(old(uart.sent), Tune(d), uart.sent[|tuned|..]);
  }

  /**
   * `wisun_join()` (code.py:172-214): the credentials, the scans, tuning to
   * the chosen PAN, the address wait (five seconds), `SKJOIN` and its wait
   * (thirty seconds), and after success three seconds of discarded output.
   */
  method WisunJoin(uart: Uart, rbpwd: string, rbid: string) returns (result: Result<string, JoinError>)
    modifies uart`pending, uart`sent
    ensures var r := Joined(old(uart.pending), uart.pollsPerSecond, rbpwd, rbid);
      && result == r.result && uart.pending == r.rest && uart.sent == old(uart.sent) + r.sent
  {
    ghost var s0 := uart.pending;
    uart.Write("SKVER");
    uart.Write("SKSETPWD C " + rbpwd);
    uart.Write("SKSETRBID " + rbid);
    assert uart.sent == old(uart.sent) + Preamble(rbpwd, rbid);
    var chosen := ScanSeries(uart);
    ghost var scans := ScanFrom(s0, Scanner(uart.pollsPerSecond), FirstDuration);
    AppendAssoc(old(uart.sent), Preamble(rbpwd, rbid), ScanCommands(Range(FirstDuration, scans.end)));
    if chosen.None? {
      return Err(NoCandidate);
    }
    ghost var s2 := uart.sent;
    ScannerEligible(uart.pollsPerSecond);
    ScanFromEligible(s0, Scanner(uart.pollsPerSecond), FirstDuration);
    result := AssociateOn(uart, chosen.value.desc);
    AppendAssoc(old(uart.sent), Preamble(rbpwd, rbid) + ScanCommands(Range(FirstDuration, scans.end)), uart.sent[|s2|..]);
  }
}
