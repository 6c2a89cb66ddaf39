/**
 * The proxy in front of one native wrapper worker: session flags, the worker's
 * length-prefixed decrypt framing, the M3U8 request/reply rule and the health probe.
 *
 * Sockets are not modelled; what the worker does once a connection is attempted is
 * given as a `Connection` script (refused, failing, or accepting with a list of replies).
 */
module WrapperProxy {
  import opened Wrappers
  import opened Text
  import opened RetryUtils

  // ---------------------------------------------------------------------------
  // UTF-8 encoding (Python's `str.encode('utf-8')`)
  // ---------------------------------------------------------------------------

  function Utf8Char(c: char): (b: Bytes)
    ensures 1 <= |b| <= 4
    ensures (c as int < 0x80) <==> |b| == 1
  {
    var n := c as int;
    if n < 0x80 then [n]
    else if n < 0x800 then [0xC0 + n / 64, 0x80 + n % 64]
    else if n < 0x10000 then [0xE0 + n / 4096, 0x80 + (n / 64) % 64, 0x80 + n % 64]
    else [0xF0 + n / 262144, 0x80 + (n / 4096) % 64, 0x80 + (n / 64) % 64, 0x80 + n % 64]
  }

  function Utf8(s: string): (b: Bytes)
    ensures |s| <= |b| <= 4 * |s|
  {
    if s == [] then [] else Utf8Char(s[0]) + Utf8(s[1..])
  }

  predicate IsAscii(s: string) { forall i :: 0 <= i < |s| ==> s[i] as int < 0x80 }

  /** An ASCII identifier (every adam id is one) encodes to exactly one byte per character. */
  lemma {:induction false} Utf8Ascii(s: string)
    requires IsAscii(s)
    ensures |Utf8(s)| == |s|
    ensures forall i :: 0 <= i < |s| ==> Utf8(s)[i] == s[i] as int
  {
    if s != [] {
      assert IsAscii(s[1..]) by {
        forall i | 0 <= i < |s| - 1 ensures s[1..][i] as int < 0x80 { assert s[1..][i] == s[i + 1]; }
      }
      Utf8Ascii(s[1..]);
    }
  }

  // ---------------------------------------------------------------------------
  // Framing
  // ---------------------------------------------------------------------------

  /** The text of the ValueError `bytes([n])` raises for n > 255. */
  const ByteRangeError := "bytes must be in range(0, 256)"
  /** The text of the struct.error `struct.pack('<I', n)` raises for n >= 2^32. */
  const PackRangeError := "'I' format requires 0 <= number <= 4294967295"
  const U32Limit := 0x1_0000_0000

  /** `[u8 len][bytes]`, or None when the length does not fit in one byte. */
  function U8Prefixed(b: Bytes): (r: Option<Bytes>)
    ensures r.Some? <==> |b| < 256
    ensures r.Some? ==> r.value == [|b|] + b
  {
    if |b| < 256 then Some([|b|] + b) else None
  }

  /** `struct.pack('<I', n)`: least significant byte first. */
  function U32LE(n: nat): (r: Bytes)
    requires n < U32Limit
    ensures |r| == 4
  {
    var q1 := n / 256;
    var q2 := q1 / 256;
    [n % 256, q1 % 256, q2 % 256, q2 / 256]
  }

  function DecodeU32LE(b: Bytes): nat
    requires |b| == 4
  {
    b[0] as int + 256 * b[1] as int + 65536 * b[2] as int + 16777216 * b[3] as int
  }

  lemma U32LERoundTrip(n: nat)
    requires n < U32Limit
    ensures DecodeU32LE(U32LE(n)) == n
  {
    var q1 := n / 256;
    var q2 := q1 / 256;
    assert n == n % 256 + 256 * q1;
    assert q1 == q1 % 256 + 256 * q2;
    assert q2 == q2 % 256 + 256 * (q2 / 256);
  }

  /** The context message sent once per connection: `[u8 len(adam)][adam][u8 len(key)][key]`. */
  function Handshake(adamId: string, key: string): (r: Option<Bytes>)
    ensures r.Some? <==> |Utf8(adamId)| < 256 && |Utf8(key)| < 256
    ensures r.Some? ==> r.value == [|Utf8(adamId)|] + Utf8(adamId) + [|Utf8(key)|] + Utf8(key)
  {
    var a := U8Prefixed(Utf8(adamId));
    var k := U8Prefixed(Utf8(key));
    if a.Some? && k.Some? then Some(a.value + k.value) else None
  }

  /** One sample frame: `[u32-LE len(sample)][sample]`. */
  function SampleFrame(sample: Bytes): (r: Bytes)
    requires |sample| < U32Limit
    ensures |r| == 4 + |sample| && r[4..] == sample
  {
    U32LE(|sample|) + sample
  }

  predicate FramesFit(samples: seq<Bytes>)
  {
    forall i :: 0 <= i < |samples| ==> |samples[i]| < U32Limit
  }

  /** All sample frames, back to back, in input order. */
  function Frames(samples: seq<Bytes>): Bytes
    requires FramesFit(samples)
  {
    if samples == [] then [] else SampleFrame(samples[0]) + Frames(samples[1..])
  }

  lemma {:induction false} FramesSnoc(samples: seq<Bytes>, s: Bytes)
    requires FramesFit(samples) && |s| < U32Limit
    ensures FramesFit(samples + [s])
    ensures Frames(samples + [s]) == Frames(samples) + SampleFrame(s)
  {
    if samples != [] {
      assert (samples + [s])[1..] == samples[1..] + [s];
      FramesSnoc(samples[1..], s);
    } else {
      assert samples + [s] == [s];
    }
  }

  /** What the worker does with the bytes: read one u8-prefixed field. */
  function ReadU8Field(b: Bytes): Option<(Bytes, Bytes)>
  {
    if |b| == 0 || |b| - 1 < b[0] then None else Some((b[1..1 + b[0]], b[1 + b[0]..]))
  }

  /** The worker's parse of the handshake: adam id bytes, key bytes, and what follows. */
  function ParseHandshake(b: Bytes): Option<(Bytes, Bytes, Bytes)>
  {
    match ReadU8Field(b)
    case None => None
    case Some((adam, rest)) =>
      match ReadU8Field(rest)
      case None => None
      case Some((key, tail)) => Some((adam, key, tail))
  }

  /** The worker's parse of one sample frame: the sample and what follows. */
  function ParseSampleFrame(b: Bytes): Option<(Bytes, Bytes)>
  {
    if |b| < 4 then None
    else
      var n := DecodeU32LE(b[..4]);
      if |b| - 4 < n then None else Some((b[4..4 + n], b[4 + n..]))
  }

  /** The worker's parse of `count` frames in a row. */
  function ParseFrames(b: Bytes, count: nat): Option<seq<Bytes>>
    decreases count
  {
    if count == 0 then Some([])
    else
      match ParseSampleFrame(b)
      case None => None
      case Some((s, rest)) =>
        match ParseFrames(rest, count - 1)
        case None => None
        case Some(more) => Some([s] + more)
  }

  /** A u8-prefixed field reads back to the field, leaving what follows untouched. */
  lemma U8FieldRoundTrip(f: Bytes, rest: Bytes)
    requires |f| < 256
    ensures ReadU8Field([|f|] + f + rest) == Some((f, rest))
  {
    var b := [|f|] + f + rest;
    assert b[1..1 + |f|] == f && b[1 + |f|..] == rest;
  }

  /** The handshake parses back to the UTF-8 adam id and key, leaving what follows untouched. */
  lemma HandshakeRoundTrip(adamId: string, key: string, rest: Bytes)
    requires Handshake(adamId, key).Some?
    ensures ParseHandshake(Handshake(adamId, key).value + rest) == Some((Utf8(adamId), Utf8(key), rest))
  {
    var a, k := Utf8(adamId), Utf8(key);
    assert Handshake(adamId, key).value + rest == [|a|] + a + ([|k|] + k + rest);
    U8FieldRoundTrip(a, [|k|] + k + rest);
    U8FieldRoundTrip(k, rest);
  }

  lemma SampleFrameRoundTrip(sample: Bytes, rest: Bytes)
    requires |sample| < U32Limit
    ensures ParseSampleFrame(SampleFrame(sample) + rest) == Some((sample, rest))
  {
    var b := SampleFrame(sample) + rest;
    assert b[..4] == U32LE(|sample|);
    U32LERoundTrip(|sample|);
    assert b[4..4 + |sample|] == sample;
    assert b[4 + |sample|..] == rest;
  }

  /** The frames of a decrypt_all session parse back to exactly the samples, in order. */
  lemma {:induction false} FramesRoundTrip(samples: seq<Bytes>, rest: Bytes)
    requires FramesFit(samples)
    ensures ParseFrames(Frames(samples) + rest, |samples|) == Some(samples)
    decreases |samples|
  {
    if samples != [] {
      var tail := Frames(samples[1..]) + rest;
      assert Frames(samples) + rest == SampleFrame(samples[0]) + tail;
      SampleFrameRoundTrip(samples[0], tail);
      FramesRoundTrip(samples[1..], rest);
      assert [samples[0]] + samples[1..] == samples;
    }
  }

  /** A single-sample decrypt request: handshake then one frame. */
  lemma SingleRequestRoundTrip(adamId: string, key: string, sample: Bytes)
    requires Handshake(adamId, key).Some? && |sample| < U32Limit
    ensures ParseHandshake(Handshake(adamId, key).value + SampleFrame(sample))
         == Some((Utf8(adamId), Utf8(key), SampleFrame(sample)))
    ensures ParseSampleFrame(SampleFrame(sample)) == Some((sample, []))
  {
    HandshakeRoundTrip(adamId, key, SampleFrame(sample));
    SampleFrameRoundTrip(sample, []);
    assert SampleFrame(sample) + [] == SampleFrame(sample);
  }

  // ---------------------------------------------------------------------------
  // What the worker does once a connection is attempted
  // ---------------------------------------------------------------------------

  /** One read on the open connection. */
  datatype WorkerReply =
    | Sends(data: Bytes)      // the bytes available for this read
    | Silent                  // nothing arrives: the 30-second wait times out
    | Drops(reason: string)   // some other socket error, with its text

  datatype Connection<R> =
    | Refused                 // ConnectionRefusedError
    | ConnectFails(reason: string)
    | Accepts(replies: seq<R>)

  /** The i-th reply of an accepted connection; a reply that never comes is silence. */
  function ReplyAt(replies: seq<WorkerReply>, i: nat): WorkerReply
  {
    if i < |replies| then replies[i] else Silent
  }

  /** The text of asyncio.IncompleteReadError. */
  function IncompleteText(got: nat, expected: nat): string
  {
    NatToString(got) + " bytes read on a total of " + NatToString(expected) + " expected bytes"
  }

  const NotActive := "Proxy not active"
  const SocketTimeout := "Socket timeout"
  const ConnectionRefused := "Connection refused"
  const NoM3u8 := "Failed to get M3U8 URL"

  /** The reply of the socket helper for a connection that never opened. */
  function ConnectError(conn: Connection<WorkerReply>): string
    requires !conn.Accepts?
  {
    if conn.Refused? then ConnectionRefused else conn.reason
  }

  /**
   * Whether readexactly(n) completes on a reply. The reader raises a recorded socket error
   * before anything else; otherwise a read of zero bytes returns at once, so it completes
   * unless the worker dropped the connection.
   */
  predicate ReadsFully(r: WorkerReply, n: nat) { (n == 0 && !r.Drops?) || (r.Sends? && |r.data| >= n) }

  /** The bytes a completed readexactly(n) returns: the first n bytes the worker sent. */
  function ReadBytes(r: WorkerReply, n: nat): (b: Bytes)
    requires ReadsFully(r, n)
    ensures |b| == n
    ensures r.Sends? ==> b == r.data[..n]
  {
    if n == 0 then [] else r.data[..n]
  }

  /** The error text `decrypt` returns for a read that did not deliver n bytes. */
  function SingleReadError(r: WorkerReply, n: nat): string
    requires !ReadsFully(r, n)
  {
    match r
    case Sends(d) => IncompleteText(|d|, n)
    case Silent => SocketTimeout
    case Drops(reason) => reason
  }

  /** The error text `decrypt_all` returns for a read that did not deliver n bytes. */
  function BatchReadError(r: WorkerReply, n: nat): string
    requires !ReadsFully(r, n)
  {
    match r
    case Sends(d) => "Incomplete read: " + IncompleteText(|d|, n)
    case Silent => SocketTimeout
    case Drops(reason) => reason
  }

  // ---------------------------------------------------------------------------
  // M3U8 reply rule
  // ---------------------------------------------------------------------------

  /**
   * One reply line as the M3U8 port returns it ("url\n" on success, "\n" on failure). A drop
   * carries the socket error's text and whether that error is a `ConnectionError` or a socket
   * timeout, the exceptions the retry decorator of `get_m3u8` retries.
   */
  datatype LineReply = Line(text: string) | LineSilent | LineDrops(reason: string, connectionError: bool)

  datatype M3u8Reply = M3u8Reply(ok: bool, url: string, error: Option<string>)

  /** The classification of a decoded reply line. */
  function ClassifyM3u8Line(line: string): (r: M3u8Reply)
    ensures r.ok <==> StartsWith(Strip(line), "http")
    ensures r.ok ==> r.url == Strip(line) && r.error == None
    ensures !r.ok ==> r == M3u8Reply(false, "", Some(NoM3u8))
  {
    var url := Strip(line);
    if url != "" && StartsWith(url, "http") then M3u8Reply(true, url, None)
    else M3u8Reply(false, "", Some(NoM3u8))
  }

  /**
   * What one run of `get_m3u8`'s body does on a connection, as an attempt of its retry
   * decorator: it returns a reply, or it raises when the worker dropped the connection (the
   * `finally`'s `wait_closed()` raises the recorded socket error again). No reply is flagged
   * for retry: the decorator has no `retry_on_result`.
   */
  function M3u8Attempt(active: bool, adamId: string, conn: Connection<LineReply>): CallOutcome<M3u8Reply>
  {
    if !active then Returns(M3u8Reply(false, "", Some(NotActive)), false)
    else match conn
      case Refused => Returns(M3u8Reply(false, "", Some(ConnectionRefused)), false)
      case ConnectFails(reason) => Returns(M3u8Reply(false, "", Some(reason)), false)
      case Accepts(replies) =>
        if |Utf8(adamId)| >= 256 then Returns(M3u8Reply(false, "", Some(ByteRangeError)), false)
        else if |replies| == 0 then Returns(M3u8Reply(false, "", Some(SocketTimeout)), false)
        else match replies[0]
          case LineSilent => Returns(M3u8Reply(false, "", Some(SocketTimeout)), false)
          case LineDrops(reason, connectionError) => Throws(reason, connectionError)
          case Line(text) => Returns(ClassifyM3u8Line(text), false)
  }

  /** The decorator of `get_m3u8`: three attempts, 0.5 s first, doubling, capped at 60 s. */
  const M3u8Retry := RetryConfig(3, 0.5, 60.0, 2.0, Exponential)

  /** The attempts of the decorated call: attempt i (from 1) runs on the i-th connection. */
  function M3u8Calls(active: bool, adamId: string, conns: seq<Connection<LineReply>>): nat -> CallOutcome<M3u8Reply>
  {
    (i: nat) => M3u8Attempt(active, adamId, if 1 <= i <= |conns| then conns[i - 1] else Refused)
  }

  /** The connection reaches a reply line, which the worker drops with a retried error. */
  predicate DropsRetried(adamId: string, conn: Connection<LineReply>)
  {
    conn.Accepts? && |Utf8(adamId)| < 256 && |conn.replies| > 0
    && conn.replies[0].LineDrops? && conn.replies[0].connectionError
  }

  /** The connection's reply line, stripped, is an `http` URL. */
  predicate ServesUrl(adamId: string, conn: Connection<LineReply>)
  {
    conn.Accepts? && |Utf8(adamId)| < 256 && |conn.replies| > 0
    && conn.replies[0].Line? && StartsWith(Strip(conn.replies[0].text), "http")
  }

  /** Some attempt gets a URL, every earlier one having been dropped with a retried error. */
  predicate ServedWithin(adamId: string, conns: seq<Connection<LineReply>>)
    requires |conns| == 3
  {
    ServesUrl(adamId, conns[0])
    || (DropsRetried(adamId, conns[0]) && ServesUrl(adamId, conns[1]))
    || (DropsRetried(adamId, conns[0]) && DropsRetried(adamId, conns[1]) && ServesUrl(adamId, conns[2]))
  }

  /** The decorated call never ends without a value or an exception. */
  lemma {:induction false} M3u8RetryEnds(active: bool, adamId: string, conns: seq<Connection<LineReply>>,
                                         attempt: nat, delay: real, last: Option<string>)
    requires 1 <= attempt <= 3
    ensures !RetryFrom(M3u8Retry, M3u8Calls(active, adamId, conns), attempt, delay, last).result.NoValue?
    decreases 3 - attempt
  {
    var call := M3u8Calls(active, adamId, conns);
    if attempt < 3 && call(attempt).Throws? && call(attempt).retryable {
      M3u8RetryEnds(active, adamId, conns, attempt + 1, NextDelay(delay, M3u8Retry), Some(call(attempt).error));
    }
  }

  /** What one attempt's outcome says about its connection. */
  lemma M3u8AttemptShape(active: bool, adamId: string, conn: Connection<LineReply>)
    ensures var o := M3u8Attempt(active, adamId, conn);
      && (o.Returns? ==> !o.flagged)
      && ((o.Returns? && o.value.ok) <==> active && ServesUrl(adamId, conn))
      && (o.Returns? && o.value.ok ==> o.value.url == Strip(conn.replies[0].text))
      && ((o.Throws? && o.retryable) <==> active && DropsRetried(adamId, conn))
      && (o.Returns? ==> (o.value.ok ==> o.value.error == None) && (!o.value.ok ==> o.value.url == ""))
  {
  }

  /**
   * The decorated call succeeds iff some attempt gets a URL after only retried drops, and the
   * URL is then that attempt's stripped line.
   */
  lemma M3u8RetryOk(active: bool, adamId: string, conns: seq<Connection<LineReply>>)
    requires |conns| == 3
    ensures var r := Retry(M3u8Retry, M3u8Calls(active, adamId, conns)).result;
      (r.Value? && r.value.ok) <==> active && ServedWithin(adamId, conns)
    ensures var r := Retry(M3u8Retry, M3u8Calls(active, adamId, conns)).result;
      r.Value? && r.value.ok ==>
        exists k :: 0 <= k < 3 && ServesUrl(adamId, conns[k]) && r.value.url == Strip(conns[k].replies[0].text)
    ensures var r := Retry(M3u8Retry, M3u8Calls(active, adamId, conns)).result;
      r.Value? ==> (r.value.ok ==> r.value.error == None) && (!r.value.ok ==> r.value.url == "")
  {
    var c, call := M3u8Retry, M3u8Calls(active, adamId, conns);
    assert call(1) == M3u8Attempt(active, adamId, conns[0]);
    assert call(2) == M3u8Attempt(active, adamId, conns[1]);
    assert call(3) == M3u8Attempt(active, adamId, conns[2]);
    M3u8AttemptShape(active, adamId, conns[0]);
    M3u8AttemptShape(active, adamId, conns[1]);
    M3u8AttemptShape(active, adamId, conns[2]);
    var d2 := NextDelay(c.initialDelay, c);
    var d3 := NextDelay(d2, c);
    if call(1).Throws? && call(1).retryable {
      RetryStep(c, call, 1, c.initialDelay, None);
      if call(2).Throws? && call(2).retryable {
        RetryStep(c, call, 2, d2, Some(call(1).error));
        var r3 := RetryFrom(c, call, 3, d3, Some(call(2).error));
        assert r3.result == (if call(3).Returns? then Value(call(3).value) else Raise(call(3).error));
        assert Retry(c, call).result == r3.result;
      } else {
        var r2 := RetryFrom(c, call, 2, d2, Some(call(1).error));
        assert r2.result == (if call(2).Returns? then Value(call(2).value) else Raise(call(2).error));
        assert Retry(c, call).result == r2.result;
      }
    } else {
      assert Retry(c, call).result == (if call(1).Returns? then Value(call(1).value) else Raise(call(1).error));
    }
  }

  /** Three dropped connections with retried errors make the call raise the third error. */
  lemma M3u8ThreeDropsRaise(active: bool, adamId: string, conns: seq<Connection<LineReply>>)
    requires |conns| == 3 && active
    requires DropsRetried(adamId, conns[0]) && DropsRetried(adamId, conns[1]) && DropsRetried(adamId, conns[2])
    ensures Retry(M3u8Retry, M3u8Calls(active, adamId, conns)) ==
      RetryRun(Raise(conns[2].replies[0].reason), 3, [0.5, 1.0])
  {
    var call := M3u8Calls(active, adamId, conns);
    assert call(1) == Throws(conns[0].replies[0].reason, true);
    assert call(2) == Throws(conns[1].replies[0].reason, true);
    assert call(3) == Throws(conns[2].replies[0].reason, true);
  }

  /** A drop whose error is not retried ends the call at once with that error. */
  lemma M3u8OtherDropRaises(active: bool, adamId: string, conns: seq<Connection<LineReply>>)
    requires |conns| == 3 && active
    requires conns[0].Accepts? && |Utf8(adamId)| < 256 && |conns[0].replies| > 0
    requires conns[0].replies[0].LineDrops? && !conns[0].replies[0].connectionError
    ensures Retry(M3u8Retry, M3u8Calls(active, adamId, conns)) == RetryRun(Raise(conns[0].replies[0].reason), 1, [])
  {
    var call := M3u8Calls(active, adamId, conns);
    assert call(1) == Throws(conns[0].replies[0].reason, false);
  }

  /** An attempt that does not raise is returned as it is, with no retry. */
  lemma M3u8FirstReturns(active: bool, adamId: string, conns: seq<Connection<LineReply>>)
    requires |conns| == 3 && M3u8Attempt(active, adamId, conns[0]).Returns?
    ensures Retry(M3u8Retry, M3u8Calls(active, adamId, conns)) ==
      RetryRun(Value(M3u8Attempt(active, adamId, conns[0]).value), 1, [])
  {
    var call := M3u8Calls(active, adamId, conns);
    assert call(1) == M3u8Attempt(active, adamId, conns[0]);
  }

  // ---------------------------------------------------------------------------
  // The proxy object
  // ---------------------------------------------------------------------------

  datatype ProxyConfig = ProxyConfig(host: string, decryptPort: int, m3u8Port: int, accountPort: int, timeout: int)

  const DefaultConfig := ProxyConfig("127.0.0.1", 10020, 20020, 30020, 30)

  /** The account endpoint's answer to an HTTP GET. */
  datatype HttpProbe = Status(code: int) | HttpRaises

  class Proxy {
    const instanceId: string
    const username: string
    const region: string
    const config: ProxyConfig
    /** Whether an HTTP session object exists (`_session is not None`). */
    var hasSession: bool
    var active: bool
    var lastAdamId: string

    constructor (instanceId: string, username: string, region: string, config: ProxyConfig)
      ensures this.instanceId == instanceId && this.username == username
      ensures this.region == region && this.config == config
      ensures !hasSession && !active && lastAdamId == ""
    {
      this.instanceId := instanceId;
      this.username := username;
      this.region := region;
      this.config := config;
      hasSession := false;
      active := false;
      lastAdamId := "";
    }

    /** `is_active`: active and holding a session. */
    predicate IsActive()
      reads this
    {
      active && hasSession
    }

    /**
     * `start`: creates a session only when none exists. `sessionError` is the exception
     * the session constructor raises, if any; it propagates and nothing changes.
     */
    method Start(sessionError: Option<string>) returns (raised: Option<string>)
      modifies this
      ensures lastAdamId == old(lastAdamId)
      ensures old(hasSession) ==> raised == None && hasSession == old(hasSession) && active == old(active)
      ensures !old(hasSession) && sessionError.Some? ==>
        raised == sessionError && hasSession == old(hasSession) && active == old(active)
      ensures !old(hasSession) && sessionError.None? ==> raised == None && hasSession && active
      ensures raised == None ==> hasSession
    {
      if !hasSession {
        if sessionError.Some? {
          return sessionError;
        }
        hasSession := true;
        active := true;
      }
      return None;
    }

    /** `stop`: closes any session and always leaves the proxy inactive. */
    method Stop()
      modifies this
      ensures !hasSession && !active && !IsActive()
      ensures lastAdamId == old(lastAdamId)
    {
      if hasSession {
        hasSession := false;
      }
      active := false;
    }

    function GetLastAdamId(): string
      reads this
    {
      lastAdamId
    }

    method SetLastAdamId(adamId: string)
      modifies this
      ensures GetLastAdamId() == adamId
      ensures hasSession == old(hasSession) && active == old(active)
    {
      lastAdamId := adamId;
    }

    /**
     * `decrypt`: one connection, handshake, one frame, read back `len(sample)` bytes.
     * Returns the bytes written, and the (success, data, error) triple. `raised` says that
     * the call raises instead: a socket error that dropped the open connection is raised
     * again by `wait_closed()` in the `finally`, and `error` is then that exception's text.
     */
    method Decrypt(adamId: string, key: string, sample: Bytes, conn: Connection<WorkerReply>)
      returns (sent: Bytes, ok: bool, data: Bytes, error: Option<string>, raised: bool)
      ensures !IsActive() ==> sent == [] && !ok && data == [] && error == Some(NotActive)
      ensures raised <==> IsActive() && conn.Accepts? && Handshake(adamId, key).Some?
                          && |sample| < U32Limit && ReplyAt(conn.replies, 0).Drops?
      ensures raised ==> !ok && error == Some(ReplyAt(conn.replies, 0).reason)
      ensures ok <==> IsActive() && conn.Accepts? && Handshake(adamId, key).Some?
                      && |sample| < U32Limit && ReadsFully(ReplyAt(conn.replies, 0), |sample|)
      ensures ok ==> sent == Handshake(adamId, key).value + SampleFrame(sample)
                     && error == None
                     && data == ReadBytes(ReplyAt(conn.replies, 0), |sample|) && |data| == |sample|
      ensures !ok ==> data == [] && error.Some?
      ensures IsActive() && !conn.Accepts? ==> sent == [] && error == Some(ConnectError(conn))
      ensures IsActive() && conn.Accepts? && |Utf8(adamId)| >= 256 ==> sent == [] && error == Some(ByteRangeError)
      ensures IsActive() && conn.Accepts? && |Utf8(adamId)| < 256 && |Utf8(key)| >= 256 ==>
        sent == [|Utf8(adamId)|] + Utf8(adamId) && error == Some(ByteRangeError)
      ensures IsActive() && conn.Accepts? && Handshake(adamId, key).Some? && |sample| >= U32Limit ==>
        error == Some(PackRangeError)
    {
      if !IsActive() {
        return [], false, [], Some(NotActive), false;
      }
      if !conn.Accepts? {
        return [], false, [], Some(ConnectError(conn)), false;
      }
      var adamBytes := Utf8(adamId);
      var keyBytes := Utf8(key);
      if |adamBytes| >= 256 {
        return [], false, [], Some(ByteRangeError), false;
      }
      sent := [|adamBytes|] + adamBytes;
      if |keyBytes| >= 256 {
        return sent, false, [], Some(ByteRangeError), false;
      }
      sent := sent + [|keyBytes|] + keyBytes;
      if |sample| >= U32Limit {
        return sent, false, [], Some(PackRangeError), false;
      }
      sent := sent + U32LE(|sample|) + sample;
      var reply := ReplyAt(conn.replies, 0);
      if !ReadsFully(reply, |sample|) {
        return sent, false, [], Some(SingleReadError(reply, |sample|)), reply.Drops?;
      }
      return sent, true, ReadBytes(reply, |sample|), None, false;
    }

    /**
     * `decrypt_all`: one connection, handshake once, then per sample in input order one
     * frame and one read of the same length; chunks are kept in input order. `raised` says
     * that the call raises instead, as for `decrypt`: the batch stopped at a dropped connection.
     */
    method DecryptAll(adamId: string, key: string, samples: seq<(Bytes, int)>, conn: Connection<WorkerReply>)
      returns (sent: Bytes, ok: bool, chunks: seq<Bytes>, error: Option<string>, raised: bool)
      ensures !IsActive() ==> sent == [] && !ok && chunks == [] && error == Some(NotActive)
      ensures raised <==> IsActive() && conn.Accepts? && Handshake(adamId, key).Some?
                          && BatchDrops(Data(samples), conn.replies)
      ensures raised ==> !ok && exists k :: DropsAt(Data(samples), conn.replies, k)
                                            && error == Some(ReplyAt(conn.replies, k).reason)
      ensures ok <==> IsActive() && conn.Accepts? && Handshake(adamId, key).Some?
                      && (forall i :: 0 <= i < |samples| ==>
                            |samples[i].0| < U32Limit && ReadsFully(ReplyAt(conn.replies, i), |samples[i].0|))
      ensures ok ==> error == None && |chunks| == |samples|
      ensures ok ==> forall i :: 0 <= i < |samples| ==>
                       chunks[i] == ReadBytes(ReplyAt(conn.replies, i), |samples[i].0|) && |chunks[i]| == |samples[i].0|
      ensures ok ==> FramesFit(Data(samples)) && sent == Handshake(adamId, key).value + Frames(Data(samples))
      ensures !ok ==> chunks == [] && error.Some?
      ensures IsActive() && !conn.Accepts? ==> sent == [] && error == Some(ConnectError(conn))
      ensures IsActive() && conn.Accepts? && |Utf8(adamId)| >= 256 ==> sent == [] && error == Some(ByteRangeError)
      ensures IsActive() && conn.Accepts? && |Utf8(adamId)| < 256 && |Utf8(key)| >= 256 ==>
        sent == [|Utf8(adamId)|] + Utf8(adamId) && error == Some(ByteRangeError)
    {
      if !IsActive() {
        return [], false, [], Some(NotActive), false;
      }
      if !conn.Accepts? {
        return [], false, [], Some(ConnectError(conn)), false;
      }
      var adamBytes := Utf8(adamId);
      if |adamBytes| >= 256 {
        return [], false, [], Some(ByteRangeError), false;
      }
      var hs := Handshake(adamId, key);
      if hs.None? {
        return [|adamBytes|] + adamBytes, false, [], Some(ByteRangeError), false;
      }
      var frames, allRead, done, err, dropped := ExchangeFrames(Data(samples), conn.replies);
      sent := hs.value + frames;
      return sent, allRead, done, err, dropped;
    }

    /**
     * One attempt of `get_m3u8`: send `[u8 len][adam_id]` and classify the reply line. Every
     * error is caught and returned as a tuple except a dropped connection: the `finally`'s
     * `wait_closed()` raises the socket error again, and `raised` says so.
     */
    method GetM3u8(adamId: string, conn: Connection<LineReply>) returns (sent: Bytes, reply: M3u8Reply, raised: bool)
      ensures !IsActive() ==> sent == [] && reply == M3u8Reply(false, "", Some(NotActive))
      ensures IsActive() && conn.Refused? ==> reply == M3u8Reply(false, "", Some(ConnectionRefused))
      ensures IsActive() && conn.ConnectFails? ==> reply == M3u8Reply(false, "", Some(conn.reason))
      ensures IsActive() && conn.Accepts? && |Utf8(adamId)| >= 256 ==>
                sent == [] && reply == M3u8Reply(false, "", Some(ByteRangeError))
      ensures reply.ok <==> (IsActive() && conn.Accepts? && |Utf8(adamId)| < 256
                             && |conn.replies| > 0 && conn.replies[0].Line?
                             && StartsWith(Strip(conn.replies[0].text), "http"))
      ensures IsActive() && conn.Accepts? && |Utf8(adamId)| < 256 ==> sent == [|Utf8(adamId)|] + Utf8(adamId)
      ensures reply.ok ==> reply.url == Strip(conn.replies[0].text) && reply.error == None
      ensures !reply.ok ==> reply.url == "" && reply.error.Some?
      ensures raised <==> (IsActive() && conn.Accepts? && |Utf8(adamId)| < 256
                           && |conn.replies| > 0 && conn.replies[0].LineDrops?)
      ensures raised ==> reply == M3u8Reply(false, "", Some(conn.replies[0].reason))
      ensures M3u8Attempt(IsActive(), adamId, conn) ==
                if raised then Throws(conn.replies[0].reason, conn.replies[0].connectionError)
                else Returns(reply, false)
    {
      raised := false;
      if !IsActive() {
        return [], M3u8Reply(false, "", Some(NotActive)), false;
      }
      match conn
      case Refused => return [], M3u8Reply(false, "", Some(ConnectionRefused)), false;
      case ConnectFails(reason) => return [], M3u8Reply(false, "", Some(reason)), false;
      case Accepts(replies) =>
        var request := U8Prefixed(Utf8(adamId));
        if request.None? {
          return [], M3u8Reply(false, "", Some(ByteRangeError)), false;
        }
        sent := request.value;
        if |replies| == 0 {
          return sent, M3u8Reply(false, "", Some(SocketTimeout)), false;
        }
        match replies[0]
        case LineSilent => reply := M3u8Reply(false, "", Some(SocketTimeout));
        case LineDrops(reason, _) => reply, raised := M3u8Reply(false, "", Some(reason)), true;
        case Line(text) => reply := ClassifyM3u8Line(text);
    }

    /**
     * `get_m3u8` with its retry decorator: attempt i runs on `conns[i - 1]`, a dropped
     * connection whose error is a `ConnectionError` or a timeout is retried after the
     * decorator's sleep, and the last such error is raised once the three attempts are used.
     */
    method GetM3u8Retrying(adamId: string, conns: seq<Connection<LineReply>>) returns (run: RetryRun<M3u8Reply>)
      requires |conns| == 3
      ensures run == Retry(M3u8Retry, M3u8Calls(IsActive(), adamId, conns))
      ensures !run.result.NoValue?
      ensures (run.result.Value? && run.result.value.ok) <==> IsActive() && ServedWithin(adamId, conns)
      ensures 1 <= run.calls <= 3
    {
      run := RetryAsync(M3u8Retry, M3u8Calls(IsActive(), adamId, conns));
      M3u8RetryEnds(IsActive(), adamId, conns, 1, M3u8Retry.initialDelay, None);
      M3u8RetryOk(IsActive(), adamId, conns);
      RetryCallsBounded(M3u8Retry, M3u8Calls(IsActive(), adamId, conns), 1, M3u8Retry.initialDelay, None);
    }

    /** `health_check`: false when inactive or on any error, else whether the status is 200. */
    method HealthCheck(probe: HttpProbe) returns (healthy: bool)
      ensures healthy <==> IsActive() && probe == Status(200)
    {
      if !IsActive() {
        return false;
      }
      match probe
      case Status(code) => healthy := code == 200;
      case HttpRaises => healthy := false;
    }
  }

  /** Every sample before position k fits the u32 prefix and is read back whole. */
  predicate ReadsUpTo(samples: seq<Bytes>, replies: seq<WorkerReply>, k: nat)
    requires k <= |samples|
  {
    forall j :: 0 <= j < k ==> |samples[j]| < U32Limit && ReadsFully(ReplyAt(replies, j), |samples[j]|)
  }

  /** The batch gets as far as sample k, and the worker has dropped the connection at its read. */
  predicate DropsAt(samples: seq<Bytes>, replies: seq<WorkerReply>, k: nat)
  {
    k < |samples| && ReadsUpTo(samples, replies, k) && |samples[k]| < U32Limit && ReplyAt(replies, k).Drops?
  }

  /** The worker drops the connection at some read the batch gets to. */
  predicate BatchDrops(samples: seq<Bytes>, replies: seq<WorkerReply>)
  {
    exists k: nat | k < |samples| :: DropsAt(samples, replies, k)
  }

  /** A batch that fails at position i drops there or nowhere. */
  lemma DropsAtFirstFailure(samples: seq<Bytes>, replies: seq<WorkerReply>, i: nat, k: nat)
    requires i < |samples| && ReadsUpTo(samples, replies, i)
    requires !(|samples[i]| < U32Limit && ReadsFully(ReplyAt(replies, i), |samples[i]|))
    requires DropsAt(samples, replies, k)
    ensures k == i
  {
  }

  /**
   * The sample loop of `decrypt_all` over an open connection: each sample is framed and sent,
   * then exactly as many bytes are read back. It stops at the first sample too large for the
   * u32 prefix or the first read that comes back short; `dropped` says that it stopped at a
   * read the worker's dropped connection failed.
   */
  method ExchangeFrames(samples: seq<Bytes>, replies: seq<WorkerReply>)
    returns (frames: Bytes, ok: bool, chunks: seq<Bytes>, error: Option<string>, dropped: bool)
    ensures ok <==> ReadsUpTo(samples, replies, |samples|)
    ensures ok ==> error == None && FramesFit(samples) && frames == Frames(samples)
    ensures ok ==> |chunks| == |samples|
                   && forall i :: 0 <= i < |samples| ==> chunks[i] == ReadBytes(ReplyAt(replies, i), |samples[i]|)
    ensures !ok ==> chunks == [] && error.Some?
    ensures dropped <==> BatchDrops(samples, replies)
    ensures dropped ==> !ok && exists k :: DropsAt(samples, replies, k) && error == Some(ReplyAt(replies, k).reason)
  {
    frames := [];
    var done: seq<Bytes> := [];
    var i := 0;
    while i < |samples|
      invariant 0 <= i <= |samples| && |done| == i
      invariant ReadsUpTo(samples, replies, i)
      invariant forall j :: 0 <= j < i ==> done[j] == ReadBytes(ReplyAt(replies, j), |samples[j]|)
      invariant FramesFit(samples[..i]) && frames == Frames(samples[..i])
    {
      var sample := samples[i];
      if |sample| >= U32Limit {
        forall k | DropsAt(samples, replies, k) ensures false {
          DropsAtFirstFailure(samples, replies, i, k);
        }
        return frames, false, [], Some(PackRangeError), false;
      }
      assert samples[..i + 1] == samples[..i] + [sample];
      FramesSnoc(samples[..i], sample);
      frames := frames + SampleFrame(sample);
      var reply := ReplyAt(replies, i);
      if !ReadsFully(reply, |sample|) {
        forall k | DropsAt(samples, replies, k) ensures k == i {
          DropsAtFirstFailure(samples, replies, i, k);
        }
        assert reply.Drops? ==> DropsAt(samples, replies, i);
        return frames, false, [], Some(BatchReadError(reply, |sample|)), reply.Drops?;
      }
      done := done + [ReadBytes(reply, |sample|)];
      i := i + 1;
    }
    assert samples[..i] == samples;
    return frames, true, done, None, false;
  }

  /**
   * A zero-length sample on a started proxy whose worker never answers: the read of zero
   * bytes returns at once, so `decrypt` succeeds with empty data.
   */
  method ZeroLengthSampleDecrypts() returns (ok: bool, data: Bytes, error: Option<string>)
    ensures ok && data == [] && error == None
  {
    var p := new Proxy("instance", "user", "us", DefaultConfig);
    var _ := p.Start(None);
    Utf8Ascii("1");
    Utf8Ascii("key");
    var sent, raised;
    sent, ok, data, error, raised := p.Decrypt("1", "key", [], Accepts([Silent]));
  }

  /**
   * A zero-length sample on a connection the worker has reset: the reader raises the
   * recorded error before its zero-length shortcut, and `wait_closed()` raises it again.
   */
  method ZeroLengthSampleDropped() returns (ok: bool, error: Option<string>, raised: bool)
    ensures !ok && raised && error == Some("reset")
  {
    var p := new Proxy("instance", "user", "us", DefaultConfig);
    var _ := p.Start(None);
    Utf8Ascii("1");
    Utf8Ascii("key");
    var sent, data;
    sent, ok, data, error, raised := p.Decrypt("1", "key", [], Accepts([Drops("reset")]));
  }

  /**
   * In `decrypt_all`, a zero-length sample completes at once while the worker is quiet, and
   * its chunk is empty; the other samples are read as usual.
   */
  method ZeroLengthBatchReads() returns (ok: bool, chunks: seq<Bytes>)
    ensures ok && chunks == [[], [7]]
  {
    var frames, error, dropped;
    var samples: seq<Bytes> := [[], [7]];
    var replies := [Silent, Sends([7, 8])];
    assert ReadsFully(ReplyAt(replies, 0), 0) && ReadsFully(ReplyAt(replies, 1), 1);
    assert ReadBytes(ReplyAt(replies, 1), 1) == [7];
    frames, ok, chunks, error, dropped := ExchangeFrames(samples, replies);
    assert |chunks| == 2 && chunks[0] == [] && chunks[1] == [7];
  }

  /**
   * In `decrypt_all`, a connection dropped at an empty sample's read ends the batch there
   * with the socket error, and the batch raises; the next sample is never read.
   */
  method DroppedBatchStops() returns (ok: bool, chunks: seq<Bytes>, error: Option<string>, dropped: bool)
    ensures !ok && chunks == [] && dropped && error == Some("reset")
  {
    var frames;
    var samples: seq<Bytes> := [[], [7]];
    var replies := [Drops("reset"), Sends([7, 8])];
    assert DropsAt(samples, replies, 0);
    frames, ok, chunks, error, dropped := ExchangeFrames(samples, replies);
    forall k | DropsAt(samples, replies, k) ensures k == 0 {
      DropsAtFirstFailure(samples, replies, 0, k);
    }
  }

  /** The sample bytes of (sample, index) pairs. */
  function Data(samples: seq<(Bytes, int)>): (r: seq<Bytes>)
    ensures |r| == |samples| && forall i :: 0 <= i < |samples| ==> r[i] == samples[i].0
  {
    if samples == [] then [] else [samples[0].0] + Data(samples[1..])
  }

  /**
   * Stand-in for `uuid5(NAMESPACE, username)`: a deterministic function of the username.
   * The model relies only on determinism, never on uniqueness.
   */
  function CreateInstanceId(username: string): string
  {
    "77777777-7777-7777-7777-777777777777:" + username
  }
}
