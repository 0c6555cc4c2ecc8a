/**
 * Wi-Fi and the HTTP session, as the agent sees them.
 *
 * `ensure_wifi()` either returns or raises; what it does inside (checking the
 * radio's address, up to three connection attempts with growing pauses) is
 * not modelled, only its outcome, taken in order from `links`. The HTTP
 * session answers each `POST` with the next entry of `replies`: a status
 * code, or an exception raised by the transport. Exhausted outcome lists
 * mean failures. `renew_http_session()` always succeeds and only replaces the
 * session, which `session` counts.
 */
module Network {
  import opened Serial

  datatype HttpReply = Status(code: int) | TransportError

  /** A `POST` the agent made: the URL and the request body. */
  datatype Request = Request(url: string, body: string)

  class Network {
    /** Outcomes of the coming `ensure_wifi()` calls: `true` returns, `false` raises. */
    var links: seq<bool>
    /** Replies to the coming `POST`s. */
    var replies: seq<HttpReply>
    /** How many times the HTTP session was created. */
    var session: nat
    /** Every request sent so far. */
    var posted: seq<Request>
    /** Every pause taken so far, in seconds. */
    var slept: seq<nat>

    constructor (wifi: seq<bool>, http: seq<HttpReply>)
      ensures links == wifi && replies == http
      ensures session == 0 && posted == [] && slept == []
    {
      links := wifi;
      replies := http;
      session := 0;
      posted := [];
      slept := [];
    }

    /** `ensure_wifi()` (code.py:67-82): `false` when it raises. */
    method EnsureWifi() returns (up: bool)
      modifies this`links
      ensures up == (old(links) != [] && old(links)[0])
      ensures links == Drop(old(links), 1)
    {
      if links == [] {
        up := false;
      } else {
        up := links[0];
        links := links[1..];
      }
    }

    /** `renew_http_session()` (code.py:86-89): a new socket pool and session. */
    method RenewSession()
      modifies this`session
      ensures session == old(session) + 1
    {
      session := session + 1;
    }

    /** `_req.post(url, data=body, ...)` and its status code (code.py:102-104). */
    method Post(url: string, body: string) returns (reply: HttpReply)
      modifies this`replies, this`posted
      ensures reply == if old(replies) == [] then TransportError else old(replies)[0]
      ensures replies == Drop(old(replies), 1)
      ensures posted == old(posted) + [Request(url, body)]
    {
      posted := posted + [Request(url, body)];
      if replies == [] {
        reply := TransportError;
      } else {
        reply := replies[0];
        replies := replies[1..];
      }
    }

    /** `time.sleep(seconds)`. */
    method Sleep(seconds: nat)
      modifies this`slept
      ensures slept == old(slept) + [seconds]
    {
      slept := slept + [seconds];
    }
  }
}
