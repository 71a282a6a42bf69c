/** The dialers of `pit/dialer.go`: the connection wrapper that counts the bytes read and
    written into a counter shared by every connection of a client, the HTTP proxy tunnel (the
    credentials of `user:pass@host`, the `CONNECT` request of section 4.3.6 of RFC 7231 with
    Basic credentials of RFC 7617, and the status rule), and the SOCKS dialer with its one error
    variable shared by every dial.

    Dialing, writing and reading the proxy's response are the network: their outcomes are
    parameters. */
module PitDialer {
  import opened Wrappers
  import opened Text
  import Base64

  // ---------------------------------------------------------------- counting connections

  /** The byte counter the connections of a client share (`*int64`). */
  class Counter {
    var n: int

    constructor ()
      ensures n == 0
    {
      n := 0;
    }
  }

  /** What one read or write on the wrapped connection reported: the bytes moved and the error. */
  datatype IoResult = IoResult(n: int, err: Option<string>)

  /** The counter after one read or write reported `r`. */
  function Counted(total: int, r: IoResult): int {
    if r.err == None then total + r.n else total
  }

  /** The counter after the reads and writes `rs`, in order. */
  function CountedAll(total: int, rs: seq<IoResult>): int
    decreases |rs|
  {
    if rs == [] then total else CountedAll(Counted(total, rs[0]), rs[1..])
  }

  /** The bytes of the transfers that reported no error; a transfer that moved bytes and also
      failed adds nothing. */
  function SuccessfulBytes(rs: seq<IoResult>): int
    decreases |rs|
  {
    if rs == [] then 0
    else SuccessfulBytes(rs[..|rs| - 1]) + (if rs[|rs| - 1].err == None then rs[|rs| - 1].n else 0)
  }

  /** Whatever the order of failures, the counter ends up raised by the bytes of exactly the
      successful transfers. */
  lemma {:induction false} CountedAllSpec(total: int, rs: seq<IoResult>)
    ensures CountedAll(total, rs) == total + SuccessfulBytes(rs)
    decreases |rs|
  {
    if rs != [] {
      CountedAllSpec(Counted(total, rs[0]), rs[1..]);
      SuccessfulBytesCons(rs);
    }
  }

  /** `SuccessfulBytes` taken from the front. */
  lemma {:induction false} SuccessfulBytesCons(rs: seq<IoResult>)
    requires rs != []
    ensures SuccessfulBytes(rs) == (if rs[0].err == None then rs[0].n else 0) + SuccessfulBytes(rs[1..])
    decreases |rs|
  {
    if |rs| > 1 {
      var init := rs[..|rs| - 1];
      SuccessfulBytesCons(init);
      assert init[1..] == rs[1..][..|rs| - 2];
      assert init[0] == rs[0];
    }
  }

  /** `counterConn`: a connection whose reads and writes are counted in `counter`. */
  class CounterConn {
    const counter: Counter

    constructor (counter: Counter)
      ensures this.counter == counter
    {
      this.counter := counter;
    }

    /** `Read`: the underlying result unchanged, counted only when it is not an error. The
        bytes read into the buffer are not modelled. */
    method Read(inner: IoResult) returns (n: int, err: Option<string>)
      modifies counter
      ensures IoResult(n, err) == inner
      ensures counter.n == Counted(old(counter.n), inner)
    {
      n, err := inner.n, inner.err;
      if err == None {
        counter.n := counter.n + n;
      }
    }

    /** `Write`: as `Read`. */
    method Write(inner: IoResult) returns (n: int, err: Option<string>)
      modifies counter
      ensures IoResult(n, err) == inner
      ensures counter.n == Counted(old(counter.n), inner)
    {
      n, err := inner.n, inner.err;
      if err == None {
        counter.n := counter.n + n;
      }
    }
  }

  /** The direct dialer: the connection wrapped for counting, or the dial error unchanged. */
  function DirectDial(dialErr: Option<string>): (r: (bool, Option<string>))
    ensures r.0 <==> dialErr == None
    ensures r.1 == dialErr
  {
    if dialErr.Some? then (false, dialErr) else (true, None)
  }

  // ---------------------------------------------------------------- the HTTP proxy

  /** The proxy address to dial and the base64 credentials, empty when there are none. */
  datatype ProxyTarget = ProxyTarget(auth: string, address: string)

  /** The credentials and the address of a proxy setting: with an `@`, the credentials are the
      base64 of the text before the first `@` and the address is the text between the first
      `@` and the next one (or the end); without one, no credentials and the whole setting. */
  function ProxyTargetOf(proxy: string): (t: ProxyTarget)
    ensures '@' !in proxy ==> t == ProxyTarget("", proxy)
    ensures '@' in proxy ==>
      var i := FirstIndexOf(proxy, '@');
      t == ProxyTarget(Base64.Encode(ToBytes(proxy[..i])), Before(proxy[i + 1..], '@'))
  {
    IndexOfChar(proxy, '@');
    assert "@" == ['@'];
    if Contains(proxy, "@") then
      var split := Split(proxy, '@');
      SplitHead(proxy, '@');
      SplitSecond(proxy, '@');
      ProxyTarget(Base64.Encode(ToBytes(split[0])), split[1])
    else
      ProxyTarget("", proxy)
  }

  /** `user:pass@host`: the credentials are `user:pass` in base64 and the address is `host`. */
  lemma ProxyOfParts(cred: string, host: string)
    requires '@' !in cred && '@' !in host
    ensures ProxyTargetOf(cred + "@" + host) == ProxyTarget(Base64.Encode(ToBytes(cred)), host)
  {
    FirstIndexOfParts(cred, '@', host);
  }

  /** A further `@` ends the address: whatever follows it is not dialed. */
  lemma ProxyOfThreeParts(cred: string, host: string, tail: string)
    requires '@' !in cred && '@' !in host
    ensures ProxyTargetOf(cred + "@" + host + "@" + tail) == ProxyTarget(Base64.Encode(ToBytes(cred)), host)
  {
    var rest := host + "@" + tail;
    assert cred + "@" + host + "@" + tail == cred + ['@'] + rest;
    FirstIndexOfParts(cred, '@', rest);
    FirstIndexOfParts(host, '@', tail);
  }

  /** The proxy can recover the credentials of a byte string from the header, as section 2 of
      RFC 7617 has it decode them. */
  lemma CredentialsRecoverable(cred: string, host: string)
    requires '@' !in cred && '@' !in host && IsByteString(cred)
    ensures Base64.Decode(ProxyTargetOf(cred + "@" + host).auth) == Some(ToBytes(cred))
    ensures FromBytes(ToBytes(cred)) == cred
  {
    ProxyOfParts(cred, host);
    Base64.DecodeEncode(ToBytes(cred));
    BytesRoundTrip(cred);
  }

  const ConnectPrefix := "CONNECT "
  const RequestLineEnd := " HTTP/1.1\r\n"
  const AuthPrefix := "Proxy-Authorization: Basic "
  const Crlf := "\r\n"

  /** The header section of the tunnel request: the credentials line when there are any, then
      the empty line. */
  function ConnectHeaders(auth: string): string {
    (if auth != "" then AuthPrefix + auth + Crlf else "") + Crlf
  }

  /** The tunnel request: the request line `CONNECT addr HTTP/1.1`, then the headers. */
  function ConnectRequest(addr: string, auth: string): string {
    ConnectPrefix + addr + RequestLineEnd + ConnectHeaders(auth)
  }

  /** `s` begins with `p`. */
  predicate HasPrefix(s: string, p: string) {
    |p| <= |s| && s[..|p|] == p
  }

  /** How a proxy reads a tunnel request of this form: its target (up to the first space) and
      its Basic credentials, empty when the header section is only the empty line. */
  function ParseConnect(req: string): Option<(string, string)> {
    if !HasPrefix(req, ConnectPrefix) then None
    else
      var line := req[|ConnectPrefix|..];
      var i := Index(line, " ");
      if i < 0 then None
      else
        var after := line[i..];
        if !HasPrefix(after, RequestLineEnd) then None
        else
          var hs := after[|RequestLineEnd|..];
          if hs == Crlf then Some((line[..i], ""))
          else if |hs| > |AuthPrefix| + 4 && HasPrefix(hs, AuthPrefix) && hs[|hs| - 4..] == Crlf + Crlf then
            Some((line[..i], hs[|AuthPrefix|..|hs| - 4]))
          else None
  }

  /** The header section reads back as the credentials. */
  lemma ParseHeaders(auth: string)
    ensures var hs := ConnectHeaders(auth);
      && (auth == "" ==> hs == Crlf)
      && (auth != "" ==> |hs| > |AuthPrefix| + 4 && HasPrefix(hs, AuthPrefix) && hs[|hs| - 4..] == Crlf + Crlf
                         && hs[|AuthPrefix|..|hs| - 4] == auth && hs != Crlf)
  {
    if auth != "" {
      var hs := ConnectHeaders(auth);
      assert hs == AuthPrefix + auth + (Crlf + Crlf);
      assert hs[..|AuthPrefix|] == AuthPrefix;
      assert hs[|AuthPrefix|..|hs| - 4] == auth;
      assert hs[|hs| - 4..] == Crlf + Crlf;
    }
  }

  /** `p + x` begins with `p`, and `x` follows it. */
  lemma PrefixOf(p: string, x: string)
    ensures HasPrefix(p + x, p) && (p + x)[|p|..] == x
  {
    assert (p + x)[..|p|] == p;
  }

  /** In the request line, the target ends at the first space. */
  lemma TargetEnds(addr: string, hs: string)
    requires ' ' !in addr
    ensures var line := addr + RequestLineEnd + hs;
      Index(line, " ") == |addr| && line[..|addr|] == addr && line[|addr|..] == RequestLineEnd + hs
  {
    var line := addr + RequestLineEnd + hs;
    assert line == addr + [' '] + (RequestLineEnd[1..] + hs);
    FirstIndexOfParts(addr, ' ', RequestLineEnd[1..] + hs);
    IndexOfChar(line, ' ');
    assert " " == [' '];
    assert line[|addr|..] == RequestLineEnd + hs;
  }

  /** A proxy reading the tunnel request gets back the target and the credentials, for any
      target without a space. */
  lemma ConnectRoundTrip(addr: string, auth: string)
    requires ' ' !in addr
    ensures ParseConnect(ConnectRequest(addr, auth)) == Some((addr, auth))
  {
    var hs := ConnectHeaders(auth);
    var line := addr + RequestLineEnd + hs;
    assert ConnectRequest(addr, auth) == ConnectPrefix + line;
    PrefixOf(ConnectPrefix, line);
    TargetEnds(addr, hs);
    PrefixOf(RequestLineEnd, hs);
    ParseHeaders(auth);
  }

  /** Base64 credentials hold no line break, so the credentials header is one line. */
  lemma AuthIsOneLine(cred: seq<Byte>)
    ensures '\r' !in Base64.Encode(cred) && '\n' !in Base64.Encode(cred)
  {
    Base64.EncodeAlphabet(cred);
  }

  /** How the proxy answered: a response that could not be read, or its status code. */
  datatype ProxyReply = Unreadable(err: string) | Status(code: int)

  /** What one dial through the HTTP proxy did: the address it dialed, the request it wrote (none
      when the dial failed), whether it closed the connection to the proxy, and the error;
      without an error the connection is returned wrapped for counting. */
  datatype TunnelOutcome = TunnelOutcome(dialed: string, sent: Option<string>, closed: bool, err: Option<string>)

  /** The prefix of every network error of the HTTP proxy dial. */
  function HttpProxyError(e: string): string {
    "http proxy: " + e
  }

  const ProxyRefused := "could not connect to proxy"

  /** The dial function of `fasthttpHttpProxyDialer` for the target `addr`, given the outcomes
      of dialing the proxy, writing the request and reading the reply. The tunnel is open
      exactly when every step succeeded and the status is exactly 200; the request goes out
      once the proxy is dialed; dial, write and read errors carry the `http proxy:` prefix, any
      other status is refused, and the connection is closed exactly when the reply was bad (a
      failed write leaves it open). */
  function HttpProxyDial(t: ProxyTarget, addr: string, dialErr: Option<string>, writeErr: Option<string>,
                         reply: ProxyReply): (o: TunnelOutcome)
    ensures o.dialed == t.address
    ensures o.err == None <==> dialErr == None && writeErr == None && reply == Status(200)
    ensures o.sent.Some? <==> dialErr == None
    ensures o.sent.Some? ==> o.sent.value == ConnectRequest(addr, t.auth)
    ensures dialErr.Some? ==> o.err == Some(HttpProxyError(dialErr.value))
    ensures dialErr == None && writeErr.Some? ==> o.err == Some(HttpProxyError(writeErr.value))
    ensures dialErr == None && writeErr == None && reply.Unreadable? ==> o.err == Some(HttpProxyError(reply.err))
    ensures dialErr == None && writeErr == None && reply.Status? && reply.code != 200 ==> o.err == Some(ProxyRefused)
    ensures o.closed <==> dialErr == None && writeErr == None && reply != Status(200)
  {
    if dialErr.Some? then TunnelOutcome(t.address, None, false, Some(HttpProxyError(dialErr.value)))
    else
      var req := ConnectRequest(addr, t.auth);
      if writeErr.Some? then TunnelOutcome(t.address, Some(req), false, Some(HttpProxyError(writeErr.value)))
      else match reply
        case Unreadable(e) => TunnelOutcome(t.address, Some(req), true, Some(HttpProxyError(e)))
        case Status(code) =>
          if code != 200 then TunnelOutcome(t.address, Some(req), true, Some(ProxyRefused))
          else TunnelOutcome(t.address, Some(req), false, None)
  }

  // ---------------------------------------------------------------- the SOCKS proxy

  const SocksPrefix := "socks proxy: "

  /** One dial of the SOCKS dial function with the shared error `err`: once there is an error,
      every dial fails with it behind the `socks proxy:` prefix and no connection; otherwise the
      proxy's dial error becomes the shared error, and the wrapper is returned whether or not
      the dial failed. The result is the new shared error, whether a wrapper is returned, and
      the error returned. */
  function SocksStep(err: Option<string>, dialErr: Option<string>): (Option<string>, bool, Option<string>) {
    if err.Some? then (err, false, Some(SocksPrefix + err.value))
    else (dialErr, true, dialErr)
  }

  /** The dials `dialErrs` in order: the final shared error and each dial's wrapper flag and error. */
  function SocksRun(err: Option<string>, dialErrs: seq<Option<string>>): (Option<string>, seq<(bool, Option<string>)>)
    decreases |dialErrs|
  {
    if dialErrs == [] then (err, [])
    else
      var (err', w, e) := SocksStep(err, dialErrs[0]);
      var (errN, outs) := SocksRun(err', dialErrs[1..]);
      (errN, [(w, e)] + outs)
  }

  /** An error building the dialer makes every dial fail with it. */
  lemma {:induction false} SetupErrorSticks(e: string, dialErrs: seq<Option<string>>)
    ensures var (errN, outs) := SocksRun(Some(e), dialErrs);
      && errN == Some(e) && |outs| == |dialErrs|
      && forall j :: 0 <= j < |outs| ==> outs[j] == (false, Some(SocksPrefix + e))
    decreases |dialErrs|
  {
    if dialErrs != [] {
      SetupErrorSticks(e, dialErrs[1..]);
    }
  }

  /** Before the first failure every dial returns its wrapper with no error; the first failing
      dial returns the wrapper with the proxy's error unchanged, and every later dial fails with
      that error behind the prefix, whatever the proxy would have done. */
  lemma {:induction false} FirstFailureSticks(dialErrs: seq<Option<string>>, k: nat)
    requires k < |dialErrs| && dialErrs[k].Some?
    requires forall j :: 0 <= j < k ==> dialErrs[j] == None
    ensures var (errN, outs) := SocksRun(None, dialErrs);
      && errN == dialErrs[k] && |outs| == |dialErrs|
      && (forall j :: 0 <= j < k ==> outs[j] == (true, None))
      && outs[k] == (true, dialErrs[k])
      && (forall j :: k < j < |outs| ==> outs[j] == (false, Some(SocksPrefix + dialErrs[k].value)))
    decreases k
  {
    if k == 0 {
      SetupErrorSticks(dialErrs[0].value, dialErrs[1..]);
    } else {
      FirstFailureSticks(dialErrs[1..], k - 1);
    }
  }

  /** The SOCKS dial function and the error variable its dials share. */
  class SocksDialer {
    var err: Option<string>

    /** `fasthttpSocksProxyDialer`: the error of parsing the proxy URL, or else of building
        the dialer from it. */
    constructor (parseErr: Option<string>, fromUrlErr: Option<string>)
      ensures err == if parseErr.Some? then parseErr else fromUrlErr
    {
      if parseErr.Some? {
        err := parseErr;
      } else {
        err := fromUrlErr;
      }
    }

    /** One call of the dial function, the proxy's dial reporting `dialErr`. */
    method Dial(addr: string, dialErr: Option<string>) returns (wrapped: bool, e: Option<string>)
      modifies this`err
      ensures (err, wrapped, e) == SocksStep(old(err), dialErr)
    {
      if err.Some? {
        return false, Some(SocksPrefix + err.value);
      }
      err := dialErr;
      return true, err;
    }
  }
}
