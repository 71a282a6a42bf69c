/** The GUI-side clients of `internal/client.go`: the fasthttp client keeps one request slot per
    connection, each with its own template and, when the body is streamed, its own reader; the
    net/http client keeps one request per connection as well.

    The doer and the net/http transport are values or are left out; what they do on the network
    is the outcome passed to `Do`. */
module InternalClient {
  import opened Wrappers
  import opened Text
  import Net
  import Http
  import PitHeader
  import InternalHeader
  import PitConfig
  import PitClient

  /** The settings of `clientConfig` that the clients read (`verb` is its `method`). */
  datatype ClientConfig = ClientConfig(
    verb: string, url: Http.Uri, headers: seq<string>, host: string, stream: bool, body: string,
    maxConns: int, timeout: int, disableKeepAlives: bool)

  // ---------------------------------------------------------------- the address

  /** `addMissingPort`: the address unchanged when it holds a colon, else with port 443 for
      TLS and 80 otherwise. */
  function AddMissingPort(addr: string, isTLS: bool): (r: string)
    ensures ':' in addr ==> r == addr
    ensures ':' !in addr ==> r == addr + ":" + Net.DefaultPort(isTLS)
  {
    IndexOfChar(addr, ':');
    var n := Index(addr, ":");
    if n >= 0 then addr
    else Net.JoinHostPort(addr, Net.DefaultPort(isTLS))
  }

  /** The three copies of `addMissingPort` compute the same address. */
  lemma AddMissingPortCopiesAgree(addr: string, isTLS: bool)
    ensures AddMissingPort(addr, isTLS) == PitClient.AddMissingPort(addr, isTLS)
    ensures AddMissingPort(addr, isTLS) == PitConfig.AddMissingPort(addr, isTLS)
  {
  }

  /** `getIsTLSAndAddr` of the target URL: TLS for `https`, none for `http`, and the host with
      its default port added; any other scheme is an error. */
  function GetIsTLSAndAddr(url: Http.Uri): (r: Result<(bool, string)>)
    ensures r.Ok? <==> url.scheme == "https" || url.scheme == "http"
    ensures r.Ok? ==> r.value == (url.scheme == "https", AddMissingPort(url.host, url.scheme == "https"))
    ensures r.Err? ==> r.error == PitConfig.UnsupportedProtocol(url.scheme)
  {
    var isTLS := false;
    if url.scheme == "https" then
      Ok((true, AddMissingPort(url.host, true)))
    else if url.scheme != "http" then
      Err(PitConfig.UnsupportedProtocol(url.scheme))
    else
      Ok((isTLS, AddMissingPort(url.host, isTLS)))
  }

  /** The load-test client and this one agree on every target URL that has no host override. */
  lemma GetIsTLSAndAddrAgrees(url: Http.Uri)
    ensures GetIsTLSAndAddr(url) == PitClient.GetIsTLSAndAddr(url)
  {
  }

  // ---------------------------------------------------------------- the fasthttp client

  /** fasthttp's host client or pipelining client with the settings this client gives it. */
  datatype Doer =
    | HostClient(addr: string, isTLS: bool, maxConns: int, readTimeout: int)
    | PipelineClient(addr: string, isTLS: bool, maxConns: int, readTimeout: int)

  /** The doer: the host client exactly when keep-alives are disabled, the pipelining client
      otherwise, both on the same address, TLS flag, connection limit and read timeout. */
  function DoerFor(cc: ClientConfig, addr: string, isTLS: bool): (d: Doer)
    ensures d.HostClient? <==> cc.disableKeepAlives
    ensures d.addr == addr && d.isTLS == isTLS && d.maxConns == cc.maxConns && d.readTimeout == cc.timeout
  {
    if cc.disableKeepAlives then HostClient(addr, isTLS, cc.maxConns, cc.timeout)
    else PipelineClient(addr, isTLS, cc.maxConns, cc.timeout)
  }

  /** A `bytes.Reader`: what is left to read. */
  class Reader {
    var content: string

    /** `bytes.NewReader(b)`. */
    constructor (b: string)
      ensures content == b
    {
      content := b;
    }

    /** `Reset(b)`: reading starts over on `b`. */
    method Reset(b: string)
      modifies this
      ensures content == b
    {
      content := b;
    }
  }

  /** The template of a slot: method, URL with the host override, one header per entry, the
      constant body unless the body is streamed. `ConnectionClose()` is fasthttp's accessor, so
      the connection-close flag stays as `AcquireRequest` left it. */
  predicate IsSlotTemplate(req: Http.Request, cc: ClientConfig)
    reads req
  {
    && PitHeader.AllWellFormed(cc.headers)
    && req.verb == cc.verb
    && req.uri == (if cc.host != "" then cc.url.(host := cc.host) else cc.url)
    && req.headers == PitHeader.Headers(cc.headers)
    && req.body == (if cc.stream then "" else cc.body)
    && req.contentType == "" && !req.connectionClose && req.bodyStream == None
  }

  /** `fasthttpClient`: the doer, the request slots, the reader slots and the body. The
      response slots are not modelled. */
  class FasthttpClient {
    const doer: Doer
    const reqs: array<Option<Http.Request>>
    const readers: array<Option<Reader>>
    const body: string

    constructor (doer: Doer, reqs: array<Option<Http.Request>>, readers: array<Option<Reader>>, body: string)
      ensures this.doer == doer && this.reqs == reqs && this.readers == readers && this.body == body
    {
      this.doer, this.reqs, this.readers, this.body := doer, reqs, readers, body;
    }

    /** Every request slot is filled and there are as many reader slots. */
    ghost predicate Valid()
      reads this, reqs
    {
      reqs.Length == readers.Length && forall i :: 0 <= i < reqs.Length ==> reqs[i].Some?
    }

    /** The request of the filled slot `i`. */
    ghost function RequestAt(i: int): Http.Request
      requires Valid() && 0 <= i < reqs.Length
      reads this, reqs
    {
      reqs[i].value
    }

    /** The reader of slot `i`, if it has one. */
    ghost function ReaderAt(i: int): set<Reader>
      requires 0 <= i < readers.Length
      reads readers
    {
      if readers[i].Some? then {readers[i].value} else {}
    }

    /** `do(i)`: when slot `i` has a reader, it is reset to the body and becomes the request's
        body stream; then the doer's error, or else the status and the elapsed time. An index
        outside the slots panics. */
    method Do(i: int, doErr: Option<string>, status: int, start: int, end: int)
      returns (code: int, latency: int, err: Option<string>)
      requires Valid() && 0 <= i < reqs.Length
      modifies RequestAt(i)`bodyStream, ReaderAt(i)
      ensures (code, latency, err) == PitClient.DoResult(doErr, status, start, end)
      ensures readers[i].Some? ==> readers[i].value.content == body && reqs[i].value.bodyStream == Some(body)
      ensures readers[i] == None ==> reqs[i].value.bodyStream == old(reqs[i].value.bodyStream)
    {
      var req := reqs[i].value;
      var reader := readers[i];
      if reader.Some? {
        reader.value.Reset(body);
        req.SetBodyStream(body);
      }
      if doErr.Some? {
        return 0, 0, doErr;
      }
      code := status;
      latency := end - start;
      err := None;
    }
  }

  /** One turn of the slot loop of `newFasthttpClient`: a fresh request set up as the template,
      and a fresh empty reader exactly when the body is streamed. */
  method NewSlot(cc: ClientConfig) returns (req: Http.Request, reader: Option<Reader>)
    requires PitHeader.AllWellFormed(cc.headers)
    ensures fresh(req) && IsSlotTemplate(req, cc)
    ensures reader.Some? <==> cc.stream
    ensures reader.Some? ==> fresh(reader.value) && reader.value.content == ""
  {
    req := new Http.Request();
    req.SetMethod(cc.verb);
    req.SetRequestURI(cc.url);
    InternalHeader.WriteToFasthttp(cc.headers, req);
    reader := None;
    if cc.stream {
      var rd := new Reader("");
      reader := Some(rd);
    } else {
      req.SetBody(cc.body);
    }
    if cc.disableKeepAlives {
      var _ := req.ConnectionClose();
    }
    if cc.host != "" {
      req.SetHost(cc.host);
    }
  }

  /** `newFasthttpClient`: an unsupported scheme is an error; otherwise every one of the
      `maxConns` slots holds its own fresh template, and a fresh empty reader exactly when the
      body is streamed. A negative `maxConns` panics, and so does a malformed header entry once
      the slot loop reads the headers. */
  method NewFasthttpClient(cc: ClientConfig) returns (r: Result<FasthttpClient>)
    requires cc.maxConns >= 0
    requires cc.maxConns >= 1 && GetIsTLSAndAddr(cc.url).Ok? ==> PitHeader.AllWellFormed(cc.headers)
    ensures r.Ok? <==> GetIsTLSAndAddr(cc.url).Ok?
    ensures r.Err? ==> r.error == PitConfig.UnsupportedProtocol(cc.url.scheme)
    ensures r.Ok? ==>
      var c := r.value;
      var (isTLS, addr) := GetIsTLSAndAddr(cc.url).value;
      && fresh(c) && fresh(c.reqs) && fresh(c.readers)
      && c.doer == DoerFor(cc, addr, isTLS) && c.body == cc.body && c.Valid()
      && c.reqs.Length == cc.maxConns
      && (forall j :: 0 <= j < cc.maxConns ==> fresh(c.reqs[j].value) && IsSlotTemplate(c.reqs[j].value, cc))
      && (forall j, k :: 0 <= j < k < cc.maxConns ==> c.reqs[j].value != c.reqs[k].value)
      && (forall j :: 0 <= j < cc.maxConns ==> (c.readers[j].Some? <==> cc.stream))
      && (forall j :: 0 <= j < cc.maxConns && c.readers[j].Some? ==>
            fresh(c.readers[j].value) && c.readers[j].value.content == "")
      && (forall j, k :: 0 <= j < k < cc.maxConns && c.readers[j].Some? && c.readers[k].Some? ==>
            c.readers[j].value != c.readers[k].value)
  {
    var reqs := new Option<Http.Request>[cc.maxConns](_ => None);
    var readers := new Option<Reader>[cc.maxConns](_ => None);
    var t := GetIsTLSAndAddr(cc.url);
    if t.Err? {
      return Err(t.error);
    }
    FillSlots(cc, reqs, readers);
    var (isTLS, addr) := t.value;
    var c := new FasthttpClient(DoerFor(cc, addr, isTLS), reqs, readers, cc.body);
    return Ok(c);
  }

  /** The slot loop of `newFasthttpClient`: each slot gets its own fresh template, and its own
      fresh empty reader exactly when the body is streamed. */
  method FillSlots(cc: ClientConfig, reqs: array<Option<Http.Request>>, readers: array<Option<Reader>>)
    requires reqs.Length >= 1 ==> PitHeader.AllWellFormed(cc.headers)
    requires reqs.Length == readers.Length
    modifies reqs, readers
    ensures forall j :: 0 <= j < reqs.Length ==> reqs[j].Some? && fresh(reqs[j].value) && IsSlotTemplate(reqs[j].value, cc)
    ensures forall j, k :: 0 <= j < k < reqs.Length ==> reqs[j].value != reqs[k].value
    ensures forall j :: 0 <= j < readers.Length ==> (readers[j].Some? <==> cc.stream)
    ensures forall j :: 0 <= j < readers.Length && readers[j].Some? ==>
      fresh(readers[j].value) && readers[j].value.content == ""
    ensures forall j, k :: 0 <= j < k < readers.Length && readers[j].Some? && readers[k].Some? ==>
      readers[j].value != readers[k].value
  {
    var i := 0;
    while i < reqs.Length
      invariant 0 <= i <= reqs.Length
      invariant forall j :: 0 <= j < i ==> reqs[j].Some? && fresh(reqs[j].value) && IsSlotTemplate(reqs[j].value, cc)
      invariant forall j, k :: 0 <= j < k < i ==> reqs[j].value != reqs[k].value
      invariant forall j :: 0 <= j < i ==> (readers[j].Some? <==> cc.stream)
      invariant forall j :: 0 <= j < i && readers[j].Some? ==> fresh(readers[j].value) && readers[j].value.content == ""
      invariant forall j, k :: 0 <= j < k < i && readers[j].Some? && readers[k].Some? ==>
        readers[j].value != readers[k].value
    {
      var req, reader := NewSlot(cc);
      readers[i] := reader;
      reqs[i] := Some(req);
      i := i + 1;
    }
  }

  // ---------------------------------------------------------------- the net/http client

  /** The request slots of `httpClient`; its transport and readers are not modelled. */
  class HttpClient {
    const reqs: array<Option<Http.StdRequest>>

    constructor (reqs: array<Option<Http.StdRequest>>)
      ensures this.reqs == reqs
    {
      this.reqs := reqs;
    }
  }

  /** What goes wrong in the slot loop: `http.NewRequest` failing, or the index check of
      `c.reqs[i] = …` on a slice that is too short. */
  datatype SlotError = NewRequestFailed(msg: string) | IndexOutOfRange(index: int, length: int)

  /** The message `newHttpClient` returns for a failed `http.NewRequest`. */
  function NewRequestError(e: string): string {
    "failed to new request: " + e
  }

  /** The request of one slot of `newHttpClient`, once `http.NewRequest` has succeeded: the
      headers added and the host override set. */
  method NewStdSlot(cc: ClientConfig) returns (req: Http.StdRequest)
    requires PitHeader.AllWellFormed(cc.headers)
    ensures fresh(req) && IsStdSlot(req, cc)
  {
    req := new Http.StdRequest(cc.url);
    InternalHeader.WriteToHttp(cc.headers, req);
    if cc.host != "" {
      req.SetHost(cc.host);
    }
  }

  /** A request slot of `newHttpClient` once set up: the configured headers were added to an
      empty header map, and the host is the override when there is one, else the URL's host. */
  predicate IsStdSlot(req: Http.StdRequest, cc: ClientConfig)
    reads req
  {
    && PitHeader.AllWellFormed(cc.headers)
    && req.header == InternalHeader.AddValues(map[], PitHeader.Headers(cc.headers))
    && req.host == (if cc.host != "" then cc.host else cc.url.host)
  }

  /** The slot loop of `newHttpClient` on the request slice `reqs`: for each of the `maxConns`
      connections, `http.NewRequest` (whose error `newReqErr` depends only on the method and
      URL), its result stored in the slot with an index check, then the error test, the
      headers and the host override. The first failure ends the loop. Because the store comes
      before the error test, a slot past the slice's end faults whether or not `NewRequest`
      failed. */
  method FillStdSlots(cc: ClientConfig, reqs: array<Option<Http.StdRequest>>, newReqErr: Option<string>)
    returns (e: Option<SlotError>)
    requires cc.maxConns >= 1 && reqs.Length >= 1 && newReqErr.None? ==> PitHeader.AllWellFormed(cc.headers)
    modifies reqs
    ensures cc.maxConns >= 1 && reqs.Length == 0 ==> e == Some(IndexOutOfRange(0, 0))
    ensures newReqErr.Some? && cc.maxConns >= 1 && reqs.Length >= 1 ==>
      e == Some(NewRequestFailed(NewRequestError(newReqErr.value))) && reqs[0] == None
    ensures newReqErr.None? && cc.maxConns > reqs.Length ==> e == Some(IndexOutOfRange(reqs.Length, reqs.Length))
    ensures (newReqErr.None? || cc.maxConns < 1) && cc.maxConns <= reqs.Length ==> e == None
    ensures e == None ==>
      && (forall j :: 0 <= j < cc.maxConns ==> reqs[j].Some? && fresh(reqs[j].value) && IsStdSlot(reqs[j].value, cc))
      && (forall j, k :: 0 <= j < k < cc.maxConns ==> reqs[j].value != reqs[k].value)
  {
    if cc.maxConns >= 1 && reqs.Length == 0 {
      // storing the first result faults before its error is looked at
      return Some(IndexOutOfRange(0, 0));
    }
    if cc.maxConns >= 1 && newReqErr.Some? {
      // the first `http.NewRequest` fails: its nil request is stored, then the error returned
      reqs[0] := None;
      return Some(NewRequestFailed(NewRequestError(newReqErr.value)));
    }
    if cc.maxConns > reqs.Length {
      // every slot of the slice is set up, then the index check of the next one fails
      SetUpStdSlots(cc, reqs, reqs.Length);
      return Some(IndexOutOfRange(reqs.Length, reqs.Length));
    }
    SetUpStdSlots(cc, reqs, if cc.maxConns < 0 then 0 else cc.maxConns);
    return None;
  }

  /** The turns of the slot loop of `newHttpClient` that succeed: each of the first `n` slots
      gets its own fresh request with the headers and the host override. */
  method SetUpStdSlots(cc: ClientConfig, reqs: array<Option<Http.StdRequest>>, n: nat)
    requires (n >= 1 ==> PitHeader.AllWellFormed(cc.headers)) && n <= reqs.Length
    modifies reqs
    ensures forall j :: 0 <= j < n ==> reqs[j].Some? && fresh(reqs[j].value) && IsStdSlot(reqs[j].value, cc)
    ensures forall j, k :: 0 <= j < k < n ==> reqs[j].value != reqs[k].value
  {
    var i := 0;
    while i < n
      invariant 0 <= i <= n
      invariant forall j :: 0 <= j < i ==> reqs[j].Some? && fresh(reqs[j].value) && IsStdSlot(reqs[j].value, cc)
      invariant forall j, k :: 0 <= j < k < i ==> reqs[j].value != reqs[k].value
    {
      SetUpStdSlot(cc, reqs, i);
      i := i + 1;
    }
  }

  /** One successful turn of the slot loop of `newHttpClient`: slot `i` gets a fresh request
      set up from the configuration; the other slots keep theirs. */
  method SetUpStdSlot(cc: ClientConfig, reqs: array<Option<Http.StdRequest>>, i: nat)
    requires PitHeader.AllWellFormed(cc.headers) && i < reqs.Length
    modifies reqs
    ensures reqs[i].Some? && fresh(reqs[i].value) && IsStdSlot(reqs[i].value, cc)
    ensures forall j :: 0 <= j < reqs.Length && j != i ==> reqs[j] == old(reqs[j])
    ensures forall j :: 0 <= j < reqs.Length && j != i && reqs[j].Some? ==> reqs[j].value != reqs[i].value
  {
    var req := NewStdSlot(cc);
    reqs[i] := Some(req);
  }

  /** The message of a slot-loop failure: the wrapped `http.NewRequest` error, or the runtime's
      index-out-of-range panic. */
  function SlotMessage(e: SlotError): string {
    match e
    case NewRequestFailed(m) => m
    case IndexOutOfRange(_, _) => "index out of range"
  }

  /** `newHttpClient` with request slices made with length `length`: the slot loop's failure,
      or a client whose first `maxConns` slots each hold their own set-up request. */
  method FillHttpSlots(cc: ClientConfig, length: nat, newReqErr: Option<string>) returns (r: Result<HttpClient>, e: Option<SlotError>)
    requires cc.maxConns >= 1 && length >= 1 && newReqErr.None? ==> PitHeader.AllWellFormed(cc.headers)
    ensures r.Err? <==> e.Some?
    ensures cc.maxConns >= 1 && length == 0 ==> e == Some(IndexOutOfRange(0, 0))
    ensures newReqErr.Some? && cc.maxConns >= 1 && length >= 1 ==> e == Some(NewRequestFailed(NewRequestError(newReqErr.value)))
    ensures newReqErr.None? && cc.maxConns > length ==> e == Some(IndexOutOfRange(length, length))
    ensures (newReqErr.None? || cc.maxConns < 1) && cc.maxConns <= length ==> e == None
    ensures e.Some? ==> r.error == SlotMessage(e.value)
    ensures r.Ok? ==>
      && fresh(r.value) && fresh(r.value.reqs) && r.value.reqs.Length == length
      && (forall j :: 0 <= j < cc.maxConns ==>
            r.value.reqs[j].Some? && fresh(r.value.reqs[j].value) && IsStdSlot(r.value.reqs[j].value, cc))
      && (forall j, k :: 0 <= j < k < cc.maxConns ==> r.value.reqs[j].value != r.value.reqs[k].value)
  {
    var reqs := new Option<Http.StdRequest>[length](_ => None);
    e := FillStdSlots(cc, reqs, newReqErr);
    if e.Some? {
      return Err(SlotMessage(e.value)), e;
    }
    var c := new HttpClient(reqs);
    r := Ok(c);
  }

  /** `newHttpClient` as written: the slices are made with length 0 (and capacity `maxConns`),
      so the first slot assignment fails its index check whenever there is a connection to
      set up, whatever `http.NewRequest` returned. */
  method NewHttpClientAsWritten(cc: ClientConfig, newReqErr: Option<string>) returns (r: Result<HttpClient>, e: Option<SlotError>)
    requires cc.maxConns >= 0
    ensures cc.maxConns >= 1 ==> r.Err? && e == Some(IndexOutOfRange(0, 0))
    ensures cc.maxConns == 0 ==> r.Ok? && e == None
  {
    r, e := FillHttpSlots(cc, 0, newReqErr);
  }

  /** `newHttpClient` as intended: slices of length `maxConns`, so every slot gets its own
      request with the headers and the host override, unless `http.NewRequest` fails. */
  method NewHttpClient(cc: ClientConfig, newReqErr: Option<string>) returns (r: Result<HttpClient>, e: Option<SlotError>)
    requires cc.maxConns >= 0
    requires cc.maxConns >= 1 && newReqErr.None? ==> PitHeader.AllWellFormed(cc.headers)
    ensures e.Some? ==> cc.maxConns >= 1 && newReqErr.Some? && e == Some(NewRequestFailed(NewRequestError(newReqErr.value)))
    ensures cc.maxConns >= 1 && newReqErr.Some? ==>
      r == Err(NewRequestError(newReqErr.value)) && e == Some(NewRequestFailed(NewRequestError(newReqErr.value)))
    ensures newReqErr.None? || cc.maxConns == 0 ==> r.Ok?
    ensures r.Ok? ==>
      && r.value.reqs.Length == cc.maxConns
      && (forall j :: 0 <= j < cc.maxConns ==> r.value.reqs[j].Some? && IsStdSlot(r.value.reqs[j].value, cc))
      && (forall j, k :: 0 <= j < k < cc.maxConns ==> r.value.reqs[j].value != r.value.reqs[k].value)
  {
    r, e := FillHttpSlots(cc, cc.maxConns, newReqErr);
  }
}
