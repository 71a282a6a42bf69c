/** The load-test client of `pit/client.go`: the request template, the dialer and the doer it
    chooses, the address it connects to, and one request sent through the doer.

    The doer (fasthttp's host or pipeline client) is a value naming the choice and its settings;
    what it does on the network is the outcome passed to `Do`. The request pool hands out copies
    of the template. TLS configuration and the pointer to the byte counter are not modelled. */
module PitClient {
  import opened Wrappers
  import opened Text
  import Net
  import Http
  import PitHeader
  import PitDialer
  import PitConfig

  /** The settings of `clientConfig` that the client reads (`verb` is its `method`). */
  datatype ClientConfig = ClientConfig(
    verb: string, url: Http.Uri, headers: seq<string>, host: string, body: string,
    maxConns: int, timeout: int, httpProxy: string, socksProxy: string,
    stream: bool, disableKeepAlives: bool, pipeline: bool)

  // ---------------------------------------------------------------- the address

  /** `addMissingPort`: the address unchanged when it holds a colon, else with port 443 for
      TLS and 80 otherwise. */
  function AddMissingPort(addr: string, isTLS: bool): (r: string)
    ensures ':' in addr ==> r == addr
    ensures ':' !in addr ==> r == addr + ":" + Net.DefaultPort(isTLS)
  {
    IndexOfChar(addr, ':');
    var n := Index(addr, ":");
    if n >= 0 then addr
    else Net.JoinHostPort(addr, Net.DefaultPort(isTLS))
  }

  /** This copy of `addMissingPort` is the one of `pit/config.go`. */
  lemma AddMissingPortAgrees(addr: string, isTLS: bool)
    ensures AddMissingPort(addr, isTLS) == PitConfig.AddMissingPort(addr, isTLS)
  {
  }

  /** `getIsTLSAndAddr`: TLS for `https`, none for `http`, and the host with its default port
      added; any other scheme is an error. */
  function GetIsTLSAndAddr(uri: Http.Uri): (r: Result<(bool, string)>)
    ensures r.Ok? <==> uri.scheme == "https" || uri.scheme == "http"
    ensures r.Ok? ==> r.value.0 == (uri.scheme == "https")
    ensures r.Ok? ==> r.value.1 == AddMissingPort(uri.host, r.value.0)
    ensures r.Err? ==> r.error == PitConfig.UnsupportedProtocol(uri.scheme)
  {
    var isTLS := false;
    if uri.scheme == "https" then
      Ok((true, AddMissingPort(uri.host, true)))
    else if uri.scheme != "http" then
      Err(PitConfig.UnsupportedProtocol(uri.scheme))
    else
      Ok((isTLS, AddMissingPort(uri.host, isTLS)))
  }

  /** Every address the client connects to has a port, so adding the port again changes
      nothing. */
  lemma AddressHasPort(uri: Http.Uri)
    requires GetIsTLSAndAddr(uri).Ok?
    ensures var (isTLS, addr) := GetIsTLSAndAddr(uri).value;
      ':' in addr && AddMissingPort(addr, isTLS) == addr
  {
    var (isTLS, addr) := GetIsTLSAndAddr(uri).value;
    PitConfig.AddMissingPortIdempotent(uri.host, isTLS, isTLS);
  }

  // ---------------------------------------------------------------- the dialer

  /** The dial function the doer uses: through an HTTP proxy (its address and credentials),
      through a SOCKS proxy given by a URL, or direct. */
  datatype Dialer =
    | HttpProxyDialer(target: PitDialer.ProxyTarget, timeout: int)
    | SocksProxyDialer(proxyUrl: string)
    | DirectDialer(timeout: int)

  /** `getDialer` as written: the SOCKS dialer is built from `httpProxy`, which is empty on that
      branch. */
  function GetDialerAsWritten(cc: ClientConfig): (d: Dialer)
    ensures cc.httpProxy != "" ==> d == HttpProxyDialer(PitDialer.ProxyTargetOf(cc.httpProxy), cc.timeout)
    ensures cc.httpProxy == "" && cc.socksProxy != "" ==> d == SocksProxyDialer("")
    ensures cc.httpProxy == "" && cc.socksProxy == "" ==> d == DirectDialer(cc.timeout)
  {
    if cc.httpProxy != "" then HttpProxyDialer(PitDialer.ProxyTargetOf(cc.httpProxy), cc.timeout)
    else if cc.socksProxy != "" then SocksProxyDialer(cc.httpProxy)
    else DirectDialer(cc.timeout)
  }

  /** With only a SOCKS proxy configured, the dialer as written gets the empty proxy URL and
      never the configured one. */
  lemma SocksProxyIgnored(cc: ClientConfig)
    requires cc.httpProxy == "" && cc.socksProxy != ""
    ensures GetDialerAsWritten(cc) == SocksProxyDialer("")
    ensures GetDialerAsWritten(cc) != SocksProxyDialer(cc.socksProxy)
  {
  }

  /** `getDialer` as intended: an HTTP proxy first, then a SOCKS proxy built from `socksProxy`,
      then the direct dialer. */
  function GetDialer(cc: ClientConfig): (d: Dialer)
    ensures cc.httpProxy != "" ==> d == HttpProxyDialer(PitDialer.ProxyTargetOf(cc.httpProxy), cc.timeout)
    ensures cc.httpProxy == "" && cc.socksProxy != "" ==> d == SocksProxyDialer(cc.socksProxy)
    ensures cc.httpProxy == "" && cc.socksProxy == "" ==> d == DirectDialer(cc.timeout)
  {
    if cc.httpProxy != "" then HttpProxyDialer(PitDialer.ProxyTargetOf(cc.httpProxy), cc.timeout)
    else if cc.socksProxy != "" then SocksProxyDialer(cc.socksProxy)
    else DirectDialer(cc.timeout)
  }

  /** The intended dialer differs from the one as written exactly when only a SOCKS proxy is
      configured. */
  lemma GetDialerDiffers(cc: ClientConfig)
    ensures GetDialer(cc) != GetDialerAsWritten(cc) <==> cc.httpProxy == "" && cc.socksProxy != ""
  {
  }

  // ---------------------------------------------------------------- the doer

  /** fasthttp's pipelining client or host client, with the settings the client gives it. */
  datatype Doer =
    | PipelineClient(addr: string, dial: Dialer, isTLS: bool, maxConns: int, readTimeout: int)
    | HostClient(addr: string, dial: Dialer, isTLS: bool, maxConns: int, readTimeout: int)

  /** The doer of `newFasthttpClient`: the pipelining client exactly when `pipeline` is set,
      the host client otherwise, both on the same address, dialer, TLS flag, connection limit
      and read timeout. The dialer is `getDialer` as written. */
  function DoerFor(cc: ClientConfig, addr: string, isTLS: bool): (d: Doer)
    ensures d.PipelineClient? <==> cc.pipeline
    ensures d.addr == addr && d.dial == GetDialerAsWritten(cc) && d.isTLS == isTLS
    ensures d.maxConns == cc.maxConns && d.readTimeout == cc.timeout
  {
    if cc.pipeline then PipelineClient(addr, GetDialerAsWritten(cc), isTLS, cc.maxConns, cc.timeout)
    else HostClient(addr, GetDialerAsWritten(cc), isTLS, cc.maxConns, cc.timeout)
  }

  /** The doer as intended: the same choice, with the intended dialer. */
  function DoerForCorrected(cc: ClientConfig, addr: string, isTLS: bool): (d: Doer)
    ensures d.PipelineClient? <==> cc.pipeline
    ensures d.addr == addr && d.dial == GetDialer(cc) && d.isTLS == isTLS
    ensures d.maxConns == cc.maxConns && d.readTimeout == cc.timeout
  {
    if cc.pipeline then PipelineClient(addr, GetDialer(cc), isTLS, cc.maxConns, cc.timeout)
    else HostClient(addr, GetDialer(cc), isTLS, cc.maxConns, cc.timeout)
  }

  /** The client as written dials a SOCKS-only configuration through the empty proxy URL; the
      intended doer differs from it exactly then. */
  lemma DoerForDiffers(cc: ClientConfig, addr: string, isTLS: bool)
    ensures cc.httpProxy == "" && cc.socksProxy != "" ==> DoerFor(cc, addr, isTLS).dial == SocksProxyDialer("")
    ensures DoerFor(cc, addr, isTLS) != DoerForCorrected(cc, addr, isTLS) <==> cc.httpProxy == "" && cc.socksProxy != ""
  {
    GetDialerDiffers(cc);
  }

  // ---------------------------------------------------------------- the client

  /** The URI of the template: the target URL with its host replaced by `host` when one is set. */
  function TemplateUri(cc: ClientConfig): Http.Uri {
    if cc.host != "" then cc.url.(host := cc.host) else cc.url
  }

  /** The request template of `newFasthttpClient`: method, URL, one header per entry, the
      constant body unless the body is streamed, and the host override. `ConnectionClose()` is
      fasthttp's accessor, so the connection-close flag stays as `AcquireRequest` left it. */
  predicate IsTemplate(req: Http.Request, cc: ClientConfig)
    reads req
  {
    && PitHeader.AllWellFormed(cc.headers)
    && req.verb == cc.verb
    && req.uri == TemplateUri(cc)
    && req.headers == PitHeader.Headers(cc.headers)
    && req.body == (if cc.stream then "" else cc.body)
    && req.contentType == "" && !req.connectionClose && req.bodyStream == None
  }

  /** `newFasthttpClient`'s result: the template and the doer, the body and the stream flag. */
  class FasthttpClient {
    const doer: Doer
    const rawReq: Http.Request
    const body: string
    const stream: bool

    constructor (doer: Doer, rawReq: Http.Request, body: string, stream: bool)
      ensures this.doer == doer && this.rawReq == rawReq && this.body == body && this.stream == stream
    {
      this.doer, this.rawReq, this.body, this.stream := doer, rawReq, body, stream;
    }

    /** The request pool's `New`: a fresh request with the template copied into it. */
    method NewPooledRequest() returns (req: Http.Request)
      ensures fresh(req)
      ensures req.verb == rawReq.verb && req.uri == rawReq.uri && req.headers == rawReq.headers
      ensures req.contentType == rawReq.contentType && req.connectionClose == rawReq.connectionClose
      ensures req.body == rawReq.body && req.bodyStream == rawReq.bodyStream
    {
      req := new Http.Request();
      req.verb, req.uri, req.headers := rawReq.verb, rawReq.uri, rawReq.headers;
      req.contentType, req.connectionClose := rawReq.contentType, rawReq.connectionClose;
      req.body, req.bodyStream := rawReq.body, rawReq.bodyStream;
    }

    /** `do` on the pooled request `req`: a streamed body is reset to the whole body first; the
        doer's error, or else the status and the time between `start` and `end`, are returned. */
    method Do(req: Http.Request, doErr: Option<string>, status: int, start: int, end: int)
      returns (code: int, latency: int, err: Option<string>)
      modifies req`bodyStream
      ensures (code, latency, err) == DoResult(doErr, status, start, end)
      ensures req.bodyStream == if stream then Some(body) else old(req.bodyStream)
    {
      if stream {
        req.SetBodyStream(body);
      }
      if doErr.Some? {
        return 0, 0, doErr;
      }
      code := status;
      latency := end - start;
      err := None;
    }
  }

  /** What `do` returns: on a doer error, code 0 and latency 0 with the error; otherwise the
      status and the elapsed time, with no error. */
  function DoResult(doErr: Option<string>, status: int, start: int, end: int): (r: (int, int, Option<string>))
    ensures r.2 == doErr
    ensures doErr.Some? ==> r.0 == 0 && r.1 == 0
    ensures doErr.None? ==> r.0 == status && r.1 == end - start
  {
    if doErr.Some? then (0, 0, doErr) else (status, end - start, None)
  }

  /** `newFasthttpClient`: a malformed header entry is returned before the scheme is looked at;
      then an unsupported scheme is returned; otherwise the client holds a fresh template and
      the doer for the address of the template's (possibly overridden) host. */
  method NewFasthttpClient(cc: ClientConfig) returns (r: Result<FasthttpClient>)
    ensures r.Ok? <==> PitHeader.AllWellFormed(cc.headers) && GetIsTLSAndAddr(TemplateUri(cc)).Ok?
    ensures !PitHeader.AllWellFormed(cc.headers) ==>
      r == Err(PitHeader.ParseError(cc.headers[PitHeader.FirstBad(cc.headers)]))
    ensures PitHeader.AllWellFormed(cc.headers) && GetIsTLSAndAddr(TemplateUri(cc)).Err? ==>
      r == Err(PitConfig.UnsupportedProtocol(cc.url.scheme))
    ensures r.Ok? ==>
      var (isTLS, addr) := GetIsTLSAndAddr(TemplateUri(cc)).value;
      && fresh(r.value) && fresh(r.value.rawReq) && IsTemplate(r.value.rawReq, cc)
      && r.value.doer == DoerFor(cc, addr, isTLS)
      && r.value.body == cc.body && r.value.stream == cc.stream
  {
    var req := new Http.Request();
    req.SetMethod(cc.verb);
    req.SetRequestURI(cc.url);
    var err := PitHeader.WriteToFasthttp(cc.headers, req);
    if err.Some? {
      return Err(err.value);
    }
    if !cc.stream {
      req.SetBody(cc.body);
    }
    if cc.disableKeepAlives {
      var _ := req.ConnectionClose();
    }
    if cc.host != "" {
      req.SetHost(cc.host);
    }
    var t := GetIsTLSAndAddr(req.uri);
    if t.Err? {
      return Err(t.error);
    }
    var (isTLS, addr) := t.value;
    var c := new FasthttpClient(DoerFor(cc, addr, isTLS), req, cc.body, cc.stream);
    return Ok(c);
  }
}
