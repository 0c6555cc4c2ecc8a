/**
 * Publishing readings to InfluxDB v1 (`post_influx`, code.py:94-116): one
 * point in line protocol, posted to `/write` with up to six attempts and
 * exponential backoff. Only `204 No Content` (section 15.3.5 of RFC 9110),
 * InfluxDB's answer to an accepted write, counts as success.
 */
module Influx {
  import opened Wrappers
  import opened Text
  import opened PyInt
  import opened Serial
  import opened Network

  /** One field of the point, in the order the agent added it to `fields`. */
  datatype Field = Field(key: string, value: int)

  // ---- the line protocol body ----

  /** `f"{k}={v}"`. */
  function FieldText(f: Field): string {
    f.key + "=" + Decimal(f.value)
  }

  function FieldTexts(fields: seq<Field>): (ts: seq<string>)
    ensures |ts| == |fields|
    ensures forall k :: 0 <= k < |fields| ==> ts[k] == FieldText(fields[k])
  {
    seq(|fields|, k requires 0 <= k < |fields| => FieldText(fields[k]))
  }

  /** The request body of code.py:96: measurement, tags, a space, then the fields. */
  function Body(measurement: string, tags: string, fields: seq<Field>): string {
    measurement + "," + tags + " " + Join(FieldTexts(fields), ",")
  }

  // ---- reading a body back, as the server does ----

  function ParseField(t: string): Option<Field> {
    match SplitFirst(t, '=')
    case None => None
    case Some((k, v)) =>
      match ParseInt(v, 10)
      case None => None
      case Some(n) => Some(Field(k, n))
  }

  /** Every text read by `parse`, or `None` at the first that does not read. */
  function ParseAll<T>(ts: seq<string>, parse: string -> Option<T>): (r: Option<seq<T>>)
    ensures r.Some? ==> |r.value| == |ts|
  {
    if ts == [] then Some([])
    else
      match parse(ts[0])
      case None => None
      case Some(f) =>
        match ParseAll(ts[1..], parse)
        case None => None
        case Some(fs) => Some([f] + fs)
  }

  function ParseFields(ts: seq<string>): (r: Option<seq<Field>>) {
    ParseAll(ts, ParseField)
  }

  /** Splits a body into measurement, tags and fields. */
  function ParseBody(body: string): Option<(string, string, seq<Field>)> {
    match SplitFirst(body, ' ')
    case None => None
    case Some((head, fieldSet)) =>
      match SplitFirst(head, ',')
      case None => None
      case Some((measurement, tags)) =>
        match ParseFields(SplitOn(fieldSet, ','))
        case None => None
        case Some(fs) => Some((measurement, tags, fs))
  }

  /** Splitting at a separator that the first part lacks gives the two parts back. */
  lemma SplitFirstAt(a: string, c: char, b: string)
    requires c !in a
    ensures SplitFirst(a + [c] + b, c) == Some((a, b))
  {
    var s := a + [c] + b;
    assert s[|a|] == c;
    assert forall i :: 0 <= i < |a| ==> s[i] == a[i];
    assert IndexOf(s, c) == Some(|a|);
    assert s[..|a|] == a;
    assert s[|a| + 1..] == b;
  }

  /** A field reads back as itself when its key has no equals sign. */
  lemma ParseFieldText(f: Field)
    requires '=' !in f.key
    ensures ParseField(FieldText(f)) == Some(f)
  {
    DecimalRoundTrip(f.value);
    SplitFirstAt(f.key, '=', Decimal(f.value));
    assert FieldText(f) == f.key + ['='] + Decimal(f.value);
  }

  /** Texts that each read back make a list that reads back. */
  lemma {:induction false} ParseAllEach<T>(ts: seq<string>, parse: string -> Option<T>, vs: seq<T>)
    requires |ts| == |vs|
    requires forall k :: 0 <= k < |ts| ==> parse(ts[k]) == Some(vs[k])
    ensures ParseAll(ts, parse) == Some(vs)
  {
    if ts != [] {
      assert parse(ts[0]) == Some(vs[0]);
      ParseAllEach(ts[1..], parse, vs[1..]);
      assert [vs[0]] + vs[1..] == vs;
    }
  }

  lemma ParseFieldTexts(fields: seq<Field>)
    requires forall k :: 0 <= k < |fields| ==> '=' !in fields[k].key
    ensures ParseFields(FieldTexts(fields)) == Some(fields)
  {
    forall k | 0 <= k < |fields|
      ensures ParseField(FieldTexts(fields)[k]) == Some(fields[k])
    {
      ParseFieldText(fields[k]);
    }
    ParseAllEach(FieldTexts(fields), ParseField, fields);
  }

  /**
   * The body reads back as the point it was made from, provided the
   * measurement has no comma or space, the tags no space, and the keys no
   * comma, equals sign or space, and there is at least one field (the agent
   * posts only when it has one).
   */
  lemma BodyRoundTrip(measurement: string, tags: string, fields: seq<Field>)
    requires ',' !in measurement && ' ' !in measurement && ' ' !in tags
    requires |fields| >= 1
    requires forall k :: 0 <= k < |fields| ==> ',' !in fields[k].key && '=' !in fields[k].key && ' ' !in fields[k].key
    ensures ParseBody(Body(measurement, tags, fields)) == Some((measurement, tags, fields))
  {
    var head := measurement + "," + tags;
    var fieldSet := Join(FieldTexts(fields), ",");
    assert ' ' !in head;
    SplitFirstAt(head, ' ', fieldSet);
    SplitFirstAt(measurement, ',', tags);
    FieldsRoundTrip(fields);
  }

  /** The field set, split at its commas, reads back as the fields. */
  lemma FieldsRoundTrip(fields: seq<Field>)
    requires |fields| >= 1
    requires forall k :: 0 <= k < |fields| ==> ',' !in fields[k].key && '=' !in fields[k].key
    ensures ParseFields(SplitOn(Join(FieldTexts(fields), ","), ',')) == Some(fields)
  {
    forall k | 0 <= k < |fields|
      ensures ',' !in FieldTexts(fields)[k]
    {
      DecimalChars(fields[k].value);
    }
    SplitOnJoin(FieldTexts(fields), ',');
    ParseFieldTexts(fields);
  }

  // ---- the retry loop ----

  /** `[0] + backoffs`: no pause before the first attempt, then 1, 2, 4, 8 and 16 seconds. */
  const Waits: seq<nat> := [0, 1, 2, 4, 8, 16]
  const NoContent: int := 204

  /** The reply to the `i`-th attempt. */
  function ReplyAt(rs: seq<HttpReply>, i: nat): HttpReply {
    if i < |rs| then rs[i] else TransportError
  }

  /** The first attempt from the `i`-th on that gets `204`, if one of the six does. */
  function Success(rs: seq<HttpReply>, i: nat): (r: Option<nat>)
    ensures r.Some? ==> i <= r.value < |Waits| && ReplyAt(rs, r.value) == Status(NoContent)
    decreases |Waits| - i
  {
    if i >= |Waits| then None
    else if ReplyAt(rs, i) == Status(NoContent) then Some(i)
    else Success(rs, i + 1)
  }

  /** How many requests one call of `post_influx` makes. */
  function Attempts(rs: seq<HttpReply>): nat {
    var s := Success(rs, 0);
    if s.Some? then s.value + 1 else |Waits|
  }

  /** How many of the first `n` attempts ended in a transport error. */
  function Renewals(rs: seq<HttpReply>, n: nat): nat {
    if n == 0 then 0 else Renewals(rs, n - 1) + (if ReplyAt(rs, n - 1).TransportError? then 1 else 0)
  }

  /** The pauses actually taken for a list of waits: `if wait: time.sleep(wait)`. */
  function Pauses(waits: seq<nat>): seq<nat> {
    if waits == [] then []
    else Pauses(waits[..|waits| - 1]) + (if waits[|waits| - 1] != 0 then [waits[|waits| - 1]] else [])
  }

  function Repeat<T>(x: T, n: nat): (r: seq<T>)
    ensures |r| == n && forall k :: 0 <= k < n ==> r[k] == x
  {
    seq(n, _ => x)
  }

  function Sum(xs: seq<nat>): nat {
    if xs == [] then 0 else xs[0] + Sum(xs[1..])
  }

  /**
   * `post_influx` succeeds exactly when one of the first six replies is `204`,
   * and then stops at the first such reply.
   */
  lemma {:induction false} SuccessIff(rs: seq<HttpReply>, i: nat)
    ensures Success(rs, i).Some? <==> exists k :: i <= k < |Waits| && ReplyAt(rs, k) == Status(NoContent)
    ensures Success(rs, i).Some? ==> forall k :: i <= k < Success(rs, i).value ==> ReplyAt(rs, k) != Status(NoContent)
    decreases |Waits| - i
  {
    if i < |Waits| && ReplyAt(rs, i) != Status(NoContent) {
      SuccessIff(rs, i + 1);
    }
  }

  /**
   * A publish that fails has made all six attempts and slept 1 + 2 + 4 + 8 +
   * 16 = 31 seconds; one that succeeds has made between one and six.
   */
  lemma GivingUp(rs: seq<HttpReply>)
    ensures 1 <= Attempts(rs) <= |Waits|
    ensures Success(rs, 0).None? ==> Attempts(rs) == 6 && Sum(Pauses(Waits[..Attempts(rs)])) == 31
  {
    PausesOfWaits(6);
    assert Waits[..6] == Waits;
    assert Waits[1..6] == [1, 2, 4, 8, 16];
    assert Sum([16]) == 16;
    assert [8, 16][1..] == [16];
    assert Sum([8, 16]) == 24;
    assert [4, 8, 16][1..] == [8, 16];
    assert Sum([4, 8, 16]) == 28;
    assert [2, 4, 8, 16][1..] == [4, 8, 16];
    assert Sum([2, 4, 8, 16]) == 30;
    assert [1, 2, 4, 8, 16][1..] == [2, 4, 8, 16];
  }

  /** The pauses before the first `n` attempts are the first `n - 1` backoffs. */
  lemma {:induction false} PausesOfWaits(n: nat)
    requires 1 <= n <= |Waits|
    ensures Pauses(Waits[..n]) == Waits[1..n]
  {
    if n == 1 {
      assert Waits[..1] == [0];
      assert Pauses([]) == [];
    } else {
      PausesOfWaits(n - 1);
      assert Waits[..n][..n - 1] == Waits[..n - 1];
    }
  }

  lemma PausesSnoc(waits: seq<nat>, w: nat)
    ensures Pauses(waits + [w]) == Pauses(waits) + (if w != 0 then [w] else [])
  {
    assert (waits + [w])[..|waits|] == waits;
  }

  /** What the first `i` attempts leave behind, from the state before the first. */
  predicate Attempted(rs: seq<HttpReply>, l0: seq<bool>, p0: seq<Request>, s0: seq<nat>, n0: nat, req: Request, i: nat,
                      links: seq<bool>, replies: seq<HttpReply>, session: nat, posted: seq<Request>, slept: seq<nat>)
    requires i <= |Waits|
  {
    && posted == p0 + Repeat(req, i)
    && slept == s0 + Pauses(Waits[..i])
    && replies == Drop(rs, i)
    && session == n0 + Renewals(rs, i)
    && links == Drop(l0, Renewals(rs, i))
  }

  /** One more attempt, as `Attempt` makes it, extends what the earlier ones left behind. */
  lemma AttemptedStep(rs: seq<HttpReply>, l0: seq<bool>, p0: seq<Request>, s0: seq<nat>, n0: nat, req: Request, i: nat,
                      links: seq<bool>, replies: seq<HttpReply>, session: nat, posted: seq<Request>, slept: seq<nat>)
    requires i < |Waits|
    requires Attempted(rs, l0, p0, s0, n0, req, i, links, replies, session, posted, slept)
    ensures var reply := if replies == [] then TransportError else replies[0];
      var failed := if reply.TransportError? then 1 else 0;
      && reply == ReplyAt(rs, i)
      && Attempted(rs, l0, p0, s0, n0, req, i + 1,
           Drop(links, failed), Drop(replies, 1), session + failed, posted + [req],
           slept + (if Waits[i] != 0 then [Waits[i]] else []))
  {
    PausesSnoc(Waits[..i], Waits[i]);
    assert Waits[..i + 1] == Waits[..i] + [Waits[i]];
    assert Repeat(req, i + 1) == Repeat(req, i) + [req];
  }

  /**
   * One pass of the retry loop (code.py:99-115): the pause, if any, the
   * `POST`, and after a transport error `ensure_wifi()`, whose failure is
   * ignored, and a new HTTP session.
   */
  method Attempt(net: Network, url: string, body: string, wait: nat) returns (reply: HttpReply)
    modifies net`links, net`replies, net`session, net`posted, net`slept
    ensures reply == if old(net.replies) == [] then TransportError else old(net.replies)[0]
    ensures var failed := if reply.TransportError? then 1 else 0;
      && net.links == Drop(old(net.links), failed)
      && net.replies == Drop(old(net.replies), 1)
      && net.session == old(net.session) + failed
      && net.posted == old(net.posted) + [Request(url, body)]
      && net.slept == old(net.slept) + (if wait != 0 then [wait] else [])
  {
    if wait != 0 {
      net.Sleep(wait);
    }
    reply := net.Post(url, body);
    if reply.TransportError? {
      var _ := net.EnsureWifi();
      net.RenewSession();
    }
  }

  /**
   * `post_influx(fields)` (code.py:94-116): before each of at most six
   * attempts pause as `Waits` says, post the body, and stop with `true` at
   * the first `204`; a transport error runs `ensure_wifi()` (whose failure is
   * ignored) and always renews the HTTP session before the next attempt.
   */
  method PostInflux(net: Network, url: string, measurement: string, tags: string, fields: seq<Field>) returns (ok: bool)
    modifies net`links, net`replies, net`session, net`posted, net`slept
    ensures var rs := old(net.replies);
      var n := Attempts(rs);
      Attempted(rs, old(net.links), old(net.posted), old(net.slept), old(net.session),
        Request(url, Body(measurement, tags, fields)), n,
        net.links, net.replies, net.session, net.posted, net.slept)
    ensures ok == Success(old(net.replies), 0).Some?
  {
    ghost var rs, l0, p0, s0, n0 := net.replies, net.links, net.posted, net.slept, net.session;
    var body := Body(measurement, tags, fields);
    ghost var req := Request(url, body);
    var i := 0;
    while i < |Waits|
      invariant i <= |Waits|
      invariant Success(rs, i) == Success(rs, 0)
      invariant Attempted(rs, l0, p0, s0, n0, req, i, net.links, net.replies, net.session, net.posted, net.slept)
    {
      AttemptedStep(rs, l0, p0, s0, n0, req, i, net.links, net.replies, net.session, net.posted, net.slept);
      var reply := Attempt(net, url, body, Waits[i]);
      if reply == Status(NoContent) {
        return true;
      }
      i := i + 1;
    }
    ok := false;
  }
}
