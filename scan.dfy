/**
 * One active scan of the Wi-SUN modem (`_scan_once`, code.py:142-170).
 *
 * After `SKSCAN` the modem reports each PAN it hears as an `EPANDESC` line
 * followed by indented `Name:value` lines, and ends the scan with
 * `EVENT 22`. The agent collects the descriptors that name a channel, a
 * PAN ID and an address, and keeps the one with the best link quality (LQI).
 */
module Scan {
  import opened Wrappers
  import opened Text
  import opened PyInt
  import opened Serial

  /** A PAN descriptor as the agent collects it: field name to text. */
  type Desc = map<string, string>

  /** The descriptor fields the agent keeps. */
  predicate IsKey(k: string) {
    k == "Channel" || k == "Pan ID" || k == "Addr" || k == "LQI"
  }

  /** `d.get(k)` is a non-empty string. */
  predicate Has(d: Desc, k: string) {
    k in d && d[k] != ""
  }

  /** A descriptor that can be joined: channel, PAN ID and address are all set. */
  predicate Eligible(cur: Option<Desc>) {
    cur.Some? && Has(cur.value, "Channel") && Has(cur.value, "Pan ID") && Has(cur.value, "Addr")
  }

  /** The parser's state: the open descriptor, the candidates so far, and whether `EVENT 22` was seen. */
  datatype ScanState = ScanState(cur: Option<Desc>, found: seq<Desc>, done: bool)

  const Start := ScanState(None, [], false)

  predicate IsScanEnd(l: string) {
    StartsWith(l, "EVENT 22")
  }

  /** Closing the open descriptor keeps it only when it is eligible. */
  function Close(st: ScanState): seq<Desc> {
    if Eligible(st.cur) then st.found + [st.cur.value] else st.found
  }

  /** What one poll does to the parser (the body of the loop at code.py:147-165). */
  function Step(st: ScanState, x: Option<string>): ScanState {
    if st.done || x.None? || x.value == "" then st
    else if x.value == "EPANDESC" then ScanState(Some(map[]), Close(st), false)
    else if IsScanEnd(x.value) then ScanState(st.cur, Close(st), true)
    else
      match SplitFirst(Strip(x.value), ':')
      case None => st
      case Some(kv) =>
        if st.cur.None? then st
        else
          var k, v := Strip(kv.0), Strip(kv.1);
          if IsKey(k) then st.(cur := Some(st.cur.value[k := v])) else st
  }

  /** The parser after the polls of `w`. */
  function Run(w: seq<Option<string>>): ScanState {
    if w == [] then Start else Step(Run(w[..|w| - 1]), w[|w| - 1])
  }

  /** One more poll is one more step. */
  lemma RunSnoc(w: seq<Option<string>>, x: Option<string>)
    ensures Run(w + [x]) == Step(Run(w), x)
  {
    assert (w + [x])[..|w|] == w;
  }

  /**
   * An `EPANDESC` or `EVENT 22` line closes the open descriptor: it joins the
   * candidates exactly when channel, PAN ID and address are set, and nothing
   * else is added or lost.
   */
  lemma ClosedEligibleKept(w: seq<Option<string>>, x: Option<string>)
    requires !Run(w).done && x.Some? && (x.value == "EPANDESC" || IsScanEnd(x.value))
    ensures Eligible(Run(w).cur) ==> Run(w + [x]).found == Run(w).found + [Run(w).cur.value]
    ensures !Eligible(Run(w).cur) ==> Run(w + [x]).found == Run(w).found
  {
    RunSnoc(w, x);
  }

  /** A running parser stops exactly at an `EVENT 22` line. */
  lemma StepDone(st: ScanState, x: Option<string>)
    requires !st.done
    ensures Step(st, x).done <==> Hit(x, IsScanEnd)
  {
    assert !IsScanEnd("EPANDESC") by {
      assert "EPANDESC"[..8][1] != "EVENT 22"[1];
    }
  }

  // ---- what the parser promises ----

  /** Every candidate is eligible, and descriptors hold only the four kept fields. */
  predicate Sound(st: ScanState) {
    && (st.cur.Some? ==> forall k :: k in st.cur.value ==> IsKey(k))
    && forall i :: 0 <= i < |st.found| ==>
         Eligible(Some(st.found[i])) && forall k :: k in st.found[i] ==> IsKey(k)
  }

  lemma StepSound(st: ScanState, x: Option<string>)
    requires Sound(st)
    ensures Sound(Step(st, x))
  {
  }

  /** Only eligible descriptors, holding only the kept fields, become candidates. */
  lemma {:induction false} RunSound(w: seq<Option<string>>)
    ensures Sound(Run(w))
  {
    if w != [] {
      RunSound(w[..|w| - 1]);
      StepSound(Run(w[..|w| - 1]), w[|w| - 1]);
    }
  }

  /** Candidates are only ever added, and only by an `EPANDESC` or `EVENT 22` line. */
  lemma StepFound(st: ScanState, x: Option<string>)
    ensures var f := Step(st, x).found; |st.found| <= |f| && f[..|st.found|] == st.found
    ensures x.None? || (x.value != "EPANDESC" && !IsScanEnd(x.value)) ==> Step(st, x).found == st.found
  {
  }

  /**
   * Without an `EPANDESC` line there is no descriptor to fill in, so nothing
   * is found.
   */
  lemma {:induction false} NoDescriptorNothingFound(w: seq<Option<string>>)
    requires forall i :: 0 <= i < |w| ==> w[i] != Some("EPANDESC")
    ensures Run(w).cur.None? && Run(w).found == []
  {
    if w != [] {
      NoDescriptorNothingFound(w[..|w| - 1]);
    }
  }

  /**
   * A descriptor still open when the window ends without `EVENT 22` is
   * dropped: a window that never closes what its last `EPANDESC` opened
   * finds only what the earlier lines closed.
   */
  lemma {:induction false} OpenDescriptorDropped(a: seq<Option<string>>, b: seq<Option<string>>)
    requires forall i :: 0 <= i < |b| ==> b[i] == None || (b[i].value != "EPANDESC" && !IsScanEnd(b[i].value))
    ensures Run(a + b).found == Run(a).found
    decreases |b|
  {
    if b != [] {
      var b', x := b[..|b| - 1], b[|b| - 1];
      assert a + b == (a + b') + [x];
      OpenDescriptorDropped(a, b');
      RunSnoc(a + b', x);
      StepFound(Run(a + b'), x);
    } else {
      assert a + b == a;
    }
  }

  /** The parser has finished exactly when some poll was `EVENT 22`. */
  lemma {:induction false} RunDone(w: seq<Option<string>>)
    ensures Run(w).done <==> FirstLine(w, IsScanEnd).Some?
  {
    if w != [] {
      var p, x := w[..|w| - 1], w[|w| - 1];
      assert w == p + [x];
      RunDone(p);
      FirstLineSnoc(p, x, IsScanEnd);
      if !Run(p).done {
        StepDone(Run(p), x);
      }
    }
  }

  /** Once `EVENT 22` has been seen, later polls change nothing. */
  lemma {:induction false} RunStops(a: seq<Option<string>>, b: seq<Option<string>>)
    requires Run(a).done
    ensures Run(a + b) == Run(a)
    decreases |b|
  {
    if b == [] {
      assert a + b == a;
    } else {
      var b', x := b[..|b| - 1], b[|b| - 1];
      assert a + b == (a + b') + [x];
      RunStops(a, b');
      RunSnoc(a + b', x);
    }
  }

  // ---- choosing the candidate ----

  /**
   * `_parse_lqi(s)` (code.py:119-125): a stripped text made only of hex
   * digits is read in base 16, anything else in base 10; text that does not
   * parse gives -1.
   */
  function ParseLqi(s: string): int {
    var t := Strip(s);
    var parsed := if AllDigits(t, 16) then ParseInt(t, 16) else ParseInt(t, 10);
    if parsed.Some? then parsed.value else -1
  }

  /** Text of hex digits only is read as hex, so a decimal-looking `26` is 38 and `1A` is 26. */
  lemma ParseLqiHex(s: string)
    requires Strip(s) != [] && AllDigits(Strip(s), 16)
    ensures ParseLqi(s) == Value(Strip(s), 16)
  {
    ParsePlainDigits(Strip(s), 16);
  }

  lemma ParseLqiHexLooking()
    ensures ParseLqi("1A") == 26
  {
    var t := "1A";
    StripUnchanged(t);
    assert AllDigits(t, 16) by { assert IsHexDigit(t[0]) && IsHexDigit(t[1]); }
    ParseLqiHex(t);
    TwoDigitValue(t, 16);
  }

  /** A two-digit decimal-looking LQI is still read in base 16. */
  lemma ParseLqiDecimalLooking()
    ensures ParseLqi("26") == 38
  {
    var t := "26";
    StripUnchanged(t);
    assert AllDigits(t, 16) by { assert IsHexDigit(t[0]) && IsHexDigit(t[1]); }
    ParseLqiHex(t);
    TwoDigitValue(t, 16);
  }

  /** A descriptor without an LQI ranks at -1. */
  lemma ParseLqiEmpty()
    ensures ParseLqi("") == -1
  {
    assert Strip("") == "";
    assert DigitText("", 16) == "";
  }

  /** A negative LQI is either the failure value -1 or the reading of a signed decimal. */
  lemma ParseLqiNegative(s: string)
    requires ParseLqi(s) < 0
    ensures ParseLqi(s) == -1 || (Strip(s) != [] && Strip(s)[0] == '-' && !AllDigits(Strip(s), 16))
  {
    var t := Strip(s);
    if AllDigits(t, 16) && t != [] {
      ParsePlainDigits(t, 16);
    }
  }

  /** The LQI of a descriptor: `_parse_lqi(c.get("LQI", ""))`. */
  function Lqi(d: Desc): int {
    ParseLqi(if "LQI" in d then d["LQI"] else "")
  }

  function Lqis(found: seq<Desc>): (ls: seq<int>)
    ensures |ls| == |found| && forall i :: 0 <= i < |found| ==> ls[i] == Lqi(found[i])
  {
    Ranks(found, Lqi)
  }

  /** `rank` applied to each element, in order. */
  function Ranks<T>(xs: seq<T>, rank: T -> int): (rs: seq<int>)
    ensures |rs| == |xs| && forall i :: 0 <= i < |xs| ==> rs[i] == rank(xs[i])
  {
    seq(|xs|, i requires 0 <= i < |xs| => rank(xs[i]))
  }

  lemma RanksSnoc<T>(xs: seq<T>, i: nat, rank: T -> int)
    requires i < |xs|
    ensures Ranks(xs[..i + 1], rank) == Ranks(xs[..i], rank) + [rank(xs[i])]
  {
    var a, b := Ranks(xs[..i + 1], rank), Ranks(xs[..i], rank) + [rank(xs[i])];
    forall k | 0 <= k < |a|
      ensures a[k] == b[k]
    {
      if k < i {
        assert xs[..i + 1][k] == xs[..i][k];
      }
    }
  }

  /** `b` is where the maximum of `ls` first occurs. */
  predicate IsFirstMax(ls: seq<int>, b: nat) {
    && b < |ls|
    && (forall j :: 0 <= j < |ls| ==> ls[j] <= ls[b])
    && (forall j :: 0 <= j < b ==> ls[j] < ls[b])
  }

  /** The index `max(...)` picks: a later element replaces the best only when strictly larger. */
  function BestIndex(ls: seq<int>): (b: nat)
    requires |ls| > 0
    ensures b < |ls|
  {
    if |ls| == 1 then 0
    else
      var b := BestIndex(ls[..|ls| - 1]);
      if ls[|ls| - 1] > ls[b] then |ls| - 1 else b
  }

  lemma {:induction false} BestIndexIsFirstMax(ls: seq<int>)
    requires |ls| > 0
    ensures IsFirstMax(ls, BestIndex(ls))
  {
    if |ls| > 1 {
      var p := ls[..|ls| - 1];
      BestIndexIsFirstMax(p);
      assert forall j :: 0 <= j < |p| ==> ls[j] == p[j];
    }
  }

  /** There is only one first maximum. */
  lemma FirstMaxUnique(ls: seq<int>, a: nat, b: nat)
    requires IsFirstMax(ls, a) && IsFirstMax(ls, b)
    ensures a == b
  {
    assert ls[a] <= ls[b] && ls[b] <= ls[a];
  }

  /** A chosen PAN: its descriptor and the LQI it was ranked by. */
  datatype Candidate = Candidate(desc: Desc, lqi: int)

  /** What the scan returns: nothing when no candidate was found, else the first with the best LQI. */
  function Choose(found: seq<Desc>): Option<Candidate> {
    if found == [] then None
    else var b := BestIndex(Lqis(found)); Some(Candidate(found[b], Lqi(found[b])))
  }

  /**
   * The chosen candidate is one of those found, has the highest LQI, and no
   * earlier candidate has as high an LQI.
   */
  lemma ChooseBest(found: seq<Desc>)
    ensures Choose(found).None? <==> found == []
    ensures Choose(found).Some? ==>
      exists b: nat :: IsFirstMax(Lqis(found), b) && Choose(found).value == Candidate(found[b], Lqis(found)[b])
  {
    if found != [] {
      BestIndexIsFirstMax(Lqis(found));
    }
  }

  /** `max(ls)` by position: the first index holding the largest value. */
  method FirstMax(ls: seq<int>) returns (best: nat)
    requires |ls| > 0
    ensures best == BestIndex(ls)
  {
    best := 0;
    var i := 1;
    while i < |ls|
      invariant 1 <= i <= |ls|
      invariant best == BestIndex(ls[..i])
    {
      assert ls[..i + 1][..i] == ls[..i];
      if ls[i] > ls[best] {
        best := i;
      }
      i := i + 1;
    }
    assert ls[..i] == ls;
  }

  /** Every candidate's LQI, in order (the loop at code.py:168-169). */
  method RankCandidates(found: seq<Desc>) returns (ls: seq<int>)
    ensures ls == Lqis(found)
  {
    ls := [];
    var i := 0;
    while i < |found|
      invariant 0 <= i <= |found|
      invariant ls == Ranks(found[..i], Lqi)
    {
      RanksSnoc(found, i, Lqi);
      ls := ls + [Lqi(found[i])];
      i := i + 1;
    }
    assert found[..i] == found;
  }

  /**
   * The ranking of `_scan_once` (code.py:166-170): no candidate gives no
   * result; otherwise every candidate's LQI is parsed and the first one with
   * the highest wins.
   */
  method ChooseCandidate(found: seq<Desc>) returns (chosen: Option<Candidate>)
    ensures chosen == Choose(found)
  {
    if found == [] {
      return None;
    }
    var ls := RankCandidates(found);
    var best := FirstMax(ls);
    chosen := Some(Candidate(found[best], ls[best]));
  }

  // ---- the scan ----

  function ScanCommand(duration: nat): string {
    "SKSCAN 2 FFFFFFFF " + Decimal(duration) + " 0"
  }

  /** The scan listens for `30 + 2 * duration` seconds. */
  function ScanPolls(duration: nat, pollsPerSecond: nat): nat {
    (30 + 2 * duration) * pollsPerSecond
  }

  /** The result of a scan whose listening window is `w`. */
  function ScanResult(w: seq<Option<string>>): Option<Candidate> {
    Choose(Run(w).found)
  }

  /** The parser has taken the first `i` polls of `w`, and only the last of them, if any, ended the scan. */
  predicate Listening(w: seq<Option<string>>, i: nat, st: ScanState) {
    && i <= |w| && st == Run(w[..i])
    && (st.done ==> i >= 1 && Hit(w[i - 1], IsScanEnd))
    && (forall j :: 0 <= j < i - 1 ==> !Hit(w[j], IsScanEnd))
    && (!st.done && i >= 1 ==> !Hit(w[i - 1], IsScanEnd))
  }

  lemma ListenAdvance(w: seq<Option<string>>, i: nat, st: ScanState)
    requires Listening(w, i, st) && !st.done && i < |w|
    ensures Listening(w, i + 1, Step(st, w[i]))
  {
    assert w[..i + 1] == w[..i] + [w[i]];
    RunSnoc(w[..i], w[i]);
    StepDone(st, w[i]);
  }

  /** Where a listening loop leaves the parser and the stream. */
  lemma ListenEnd(w: seq<Option<string>>, i: nat, st: ScanState)
    requires Listening(w, i, st) && (!st.done ==> i == |w|)
    ensures st == Run(w)
    ensures Used(FirstLine(w, IsScanEnd), |w|) == i
  {
    if st.done {
      ListenEndDone(w, i, st);
    } else {
      assert w[..i] == w;
      FirstLineNone(w, IsScanEnd);
    }
  }

  /** A listening loop that stopped at `EVENT 22` has read exactly through it. */
  lemma ListenEndDone(w: seq<Option<string>>, i: nat, st: ScanState)
    requires Listening(w, i, st) && st.done
    ensures st == Run(w)
    ensures FirstLine(w, IsScanEnd) == Some(i - 1)
  {
    assert w[..i] + w[i..] == w;
    FirstLineAt(w, IsScanEnd, i - 1);
    RunStops(w[..i], w[i..]);
  }

  /**
   * The listening loop of `_scan_once` (code.py:145-165): read `n` polls,
   * feeding each to the parser, and stop right after `EVENT 22`.
   */
  method Listen(uart: Uart, n: nat) returns (st: ScanState)
    modifies uart`pending
    ensures var w := Window(old(uart.pending), n);
      && uart.pending == Drop(old(uart.pending), Used(FirstLine(w, IsScanEnd), n))
      && st == Run(w)
  {
    ghost var s0 := uart.pending;
    ghost var w := Window(s0, n);
    st := Start;
    var i := 0;
    while i < n && !st.done
      invariant uart.pending == Drop(s0, i)
      invariant Listening(w, i, st)
    {
      ReadStep(s0, i, n);
      var l := uart.ReadLine();
      ListenAdvance(w, i, st);
      st := Step(st, l);
      i := i + 1;
    }
    ListenEnd(w, i, st);
  }

  /** What a scan chose, and the modem output it left unread. */
  datatype Scanned = Scanned(chosen: Option<Candidate>, rest: seq<Option<string>>)

  /**
   * A scan of `duration` against the modem output `stream`: the window of
   * `30 + 2 * duration` seconds is read up to and including `EVENT 22`.
   */
  function Scanning(stream: seq<Option<string>>, duration: nat, pps: nat): Scanned {
    var n := ScanPolls(duration, pps);
    var w := Window(stream, n);
    Scanned(ScanResult(w), Drop(stream, Used(FirstLine(w, IsScanEnd), n)))
  }

  /** Scans of every duration against any modem output, at `pps` polls per second. */
  function Scanner(pps: nat): (seq<Option<string>>, nat) -> Scanned {
    (stream: seq<Option<string>>, duration: nat) => Scanning(stream, duration, pps)
  }

  /** A scanner that only ever chooses eligible descriptors. */
  ghost predicate PicksEligible(scan: (seq<Option<string>>, nat) -> Scanned) {
    forall stream, duration :: scan(stream, duration).chosen.Some? ==>
      Eligible(Some(scan(stream, duration).chosen.value.desc))
  }

  /** A scan chooses one of the descriptors it found, so an eligible one. */
  lemma ScanningEligible(stream: seq<Option<string>>, duration: nat, pps: nat)
    ensures var c := Scanning(stream, duration, pps).chosen; c.Some? ==> Eligible(Some(c.value.desc))
  {
    var w := Window(stream, ScanPolls(duration, pps));
    RunSound(w);
    ChooseBest(Run(w).found);
  }

  lemma ScannerEligible(pps: nat)
    ensures PicksEligible(Scanner(pps))
  {
    forall stream, duration
      ensures Scanner(pps)(stream, duration).chosen.Some? ==> Eligible(Some(Scanner(pps)(stream, duration).chosen.value.desc))
    {
      ScanningEligible(stream, duration, pps);
    }
  }

  /**
   * `_scan_once(duration)` (code.py:142-170): start an active scan on all
   * channels, parse the modem's lines until `EVENT 22` or the end of the
   * window, and choose among the candidates.
   */
  method ScanOnce(uart: Uart, duration: nat) returns (chosen: Option<Candidate>)
    modifies uart`pending, uart`sent
    ensures uart.sent == old(uart.sent) + [Line(ScanCommand(duration) + "\r\n")]
    ensures Scanned(chosen, uart.pending) == Scanning(old(uart.pending), duration, uart.pollsPerSecond)
  {
    uart.Write(ScanCommand(duration));
    var st := Listen(uart, ScanPolls(duration, uart.pollsPerSecond));
    chosen := ChooseCandidate(st.found);
  }
}
