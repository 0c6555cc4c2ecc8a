/**
 * The UART link to the Wi-SUN modem.
 *
 * The modem's output is a finite stream of polls: each poll is what one call
 * of `uart.readline()` yields once decoded, `None` for a timeout or for bytes
 * that do not decode. Once the stream is exhausted every further poll is
 * silence. A timed wait of `t` seconds is `t * pollsPerSecond` polls.
 */
module Serial {
  import opened Wrappers
  import opened Text

  type byte = b: int | 0 <= b < 256

  /** What the agent writes to the modem: a text command or a raw datagram payload. */
  datatype Tx = Line(text: string) | Raw(data: seq<byte>)

  /** `_readline()`: the decoded line without surrounding whitespace, or `None`. */
  function Received(raw: Option<string>): (r: Option<string>)
    ensures r.Some? <==> raw.Some?
    ensures r.Some? ==> r.value == Strip(raw.value)
  {
    match raw
    case None => None
    case Some(l) => Some(Strip(l))
  }

  /** The stream after `k` polls. */
  function Drop<T>(s: seq<T>, k: nat): (r: seq<T>)
    ensures |r| == if k <= |s| then |s| - k else 0
  {
    if k <= |s| then s[k..] else []
  }

  /** What `n` consecutive polls of `stream` return. */
  function Window(stream: seq<Option<string>>, n: nat): (w: seq<Option<string>>)
    ensures |w| == n
    ensures forall i :: 0 <= i < n ==> w[i] == if i < |stream| then Received(stream[i]) else None
  {
    seq(n, i requires 0 <= i < n => if i < |stream| then Received(stream[i]) else None)
  }

  /** A poll the waiting loop acts on: a non-empty line that `accept` recognises (`if not l: continue`). */
  predicate Hit(x: Option<string>, accept: string -> bool) {
    x.Some? && x.value != "" && accept(x.value)
  }

  /** The first poll of `w` that is a hit, if any. */
  function FirstLine(w: seq<Option<string>>, accept: string -> bool): (r: Option<nat>)
    ensures r.Some? ==> r.value < |w| && Hit(w[r.value], accept)
    ensures forall j :: 0 <= j < |w| && (r.None? || j < r.value) ==> !Hit(w[j], accept)
  {
    if |w| == 0 then None
    else if Hit(w[0], accept) then Some(0)
    else match FirstLine(w[1..], accept)
      case None => None
      case Some(k) => Some(k + 1)
  }

  /** A wait that has seen no hit before poll `i` and a hit at `i` stops at `i`. */
  lemma FirstLineAt(w: seq<Option<string>>, accept: string -> bool, i: nat)
    requires i < |w| && Hit(w[i], accept)
    requires forall j :: 0 <= j < i ==> !Hit(w[j], accept)
    ensures FirstLine(w, accept) == Some(i)
  {
  }

  /** A wait that sees no hit at all finds nothing. */
  lemma FirstLineNone(w: seq<Option<string>>, accept: string -> bool)
    requires forall j :: 0 <= j < |w| ==> !Hit(w[j], accept)
    ensures FirstLine(w, accept) == None
  {
  }

  /** One more poll: the first hit stays, or the new poll is it. */
  lemma FirstLineSnoc(p: seq<Option<string>>, x: Option<string>, accept: string -> bool)
    ensures FirstLine(p + [x], accept)
      == if FirstLine(p, accept).Some? then FirstLine(p, accept) else if Hit(x, accept) then Some(|p|) else None
  {
    var w := p + [x];
    if FirstLine(p, accept).Some? {
      FirstLineAt(w, accept, FirstLine(p, accept).value);
    } else if Hit(x, accept) {
      FirstLineAt(w, accept, |p|);
    } else {
      FirstLineNone(w, accept);
    }
  }

  /** Polls used by a wait of `n` polls that stops right after its first hit. */
  function Used(first: Option<nat>, n: nat): nat {
    if first.Some? then first.value + 1 else n
  }

  /** Reading the `i`-th poll of a window advances the stream by one. */
  lemma ReadStep(s0: seq<Option<string>>, i: nat, n: nat)
    requires i < n
    ensures (if Drop(s0, i) == [] then None else Received(Drop(s0, i)[0])) == Window(s0, n)[i]
    ensures Drop(Drop(s0, i), 1) == Drop(s0, i + 1)
  {
  }

  class Uart {
    /** Lines the modem will deliver, in order. */
    var pending: seq<Option<string>>
    /** Everything written to the modem so far. */
    var sent: seq<Tx>
    const pollsPerSecond: nat

    constructor (input: seq<Option<string>>, rate: nat)
      ensures pending == input && sent == [] && pollsPerSecond == rate
    {
      pending := input;
      sent := [];
      pollsPerSecond := rate;
    }

    /** `_readline()` (code.py:52-59). */
    method ReadLine() returns (l: Option<string>)
      modifies this`pending
      ensures l == if old(pending) == [] then None else Received(old(pending)[0])
      ensures pending == Drop(old(pending), 1)
    {
      if pending == [] {
        l := None;
      } else {
        l := Received(pending[0]);
        pending := pending[1..];
      }
    }

    /** `_write(cmd)` (code.py:48-50): the command and CR LF. */
    method Write(cmd: string)
      modifies this`sent
      ensures sent == old(sent) + [Line(cmd + "\r\n")]
    {
      sent := sent + [Line(cmd + "\r\n")];
    }

    /** `uart.write(...)` of a header or payload as it is. */
    method WriteRaw(tx: Tx)
      modifies this`sent
      ensures sent == old(sent) + [tx]
    {
      sent := sent + [tx];
    }

    /**
     * The waiting loop the agent writes for every answer it expects
     * (code.py:132-139, 192-196, 201-209, 225-243): read up to `n` polls,
     * skip empty ones, and stop at the first line `accept` recognises.
     */
    method AwaitLine(n: nat, accept: string -> bool) returns (hit: Option<string>)
      modifies this`pending
      ensures var w := Window(old(pending), n);
        var first := FirstLine(w, accept);
        && pending == Drop(old(pending), Used(first, n))
        && hit == if first.None? then None else w[first.value]
    {
      ghost var s0 := pending;
      ghost var w := Window(s0, n);
      var i := 0;
      while i < n
        invariant 0 <= i <= n
        invariant pending == Drop(s0, i)
        invariant forall j :: 0 <= j < i ==> !Hit(w[j], accept)
      {
        ReadStep(s0, i, n);
        var l := ReadLine();
        i := i + 1;
        if l.None? || l.value == "" {
          continue;
        }
        if accept(l.value) {
          FirstLineAt(w, accept, i - 1);
          return l;
        }
      }
      FirstLineNone(w, accept);
      hit := None;
    }

    /** `_drain(seconds)` (code.py:61-64): every line of the window is read and dropped. */
    method Drain(seconds: nat)
      modifies this`pending
      ensures pending == Drop(old(pending), seconds * pollsPerSecond)
    {
      var n := seconds * pollsPerSecond;
      var i := 0;
      while i < n
        invariant 0 <= i <= n
        invariant pending == Drop(old(pending), i)
      {
        var _ := ReadLine();
        i := i + 1;
      }
    }
  }
}
