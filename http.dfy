/** The parts of the HTTP library request objects that the core sets: fasthttp's `Request`
    (method, URI, headers in the order they were added, content type, connection-close flag,
    constant body or body stream) and net/http's `Request` (a header map and a host override).

    URI parsing is not modelled: a request URI is given already split into scheme and host. */
module Http {
  import opened Wrappers

  /** The scheme and host of a parsed request URI. */
  datatype Uri = Uri(scheme: string, host: string)

  /** A fasthttp request. */
  class Request {
    /** The request method (`method` is a Dafny keyword). */
    var verb: string
    var uri: Uri
    /** The headers in the order they were added. `Header.Add` is modelled as appending for
        every name, the names fasthttp treats specially included. */
    var headers: seq<(string, string)>
    var contentType: string
    var connectionClose: bool
    var body: string
    /** The content of the reader set by `SetBodyStream`, if any. */
    var bodyStream: Option<string>

    /** `AcquireRequest`: an empty request. */
    constructor ()
      ensures verb == "" && uri == Uri("", "") && headers == [] && contentType == ""
      ensures !connectionClose && body == "" && bodyStream == None
    {
      verb, uri, headers, contentType := "", Uri("", ""), [], "";
      connectionClose, body, bodyStream := false, "", None;
    }

    method SetMethod(m: string)
      modifies this`verb
      ensures verb == m
    {
      verb := m;
    }

    /** `SetRequestURI`, with the URI already parsed. */
    method SetRequestURI(u: Uri)
      modifies this`uri
      ensures uri == u
    {
      uri := u;
    }

    /** `URI().SetHost`. */
    method SetHost(host: string)
      modifies this`uri
      ensures uri == old(uri).(host := host)
    {
      uri := uri.(host := host);
    }

    /** `Header.Add(k, v)`. */
    method AddHeader(k: string, v: string)
      modifies this`headers
      ensures headers == old(headers) + [(k, v)]
    {
      headers := headers + [(k, v)];
    }

    method SetContentType(t: string)
      modifies this`contentType
      ensures contentType == t
    {
      contentType := t;
    }

    method SetConnectionClose()
      modifies this`connectionClose
      ensures connectionClose
    {
      connectionClose := true;
    }

    /** `Header.ConnectionClose()`: the accessor, which reads the flag. */
    method ConnectionClose() returns (c: bool)
      ensures c == connectionClose
    {
      c := connectionClose;
    }

    method SetBody(b: string)
      modifies this`body
      ensures body == b
    {
      body := b;
    }

    /** `SetBodyStream(reader, -1)` with a reader positioned at the start of `content`. */
    method SetBodyStream(content: string)
      modifies this`bodyStream
      ensures bodyStream == Some(content)
    {
      bodyStream := Some(content);
    }
  }

  /** The values stored under `k` in a net/http header map; none when the key is absent. */
  function Values(header: map<string, seq<string>>, k: string): seq<string> {
    if k in header then header[k] else []
  }

  /** The header map with `v` appended to the values of `k`. */
  function Add(header: map<string, seq<string>>, k: string, v: string): map<string, seq<string>> {
    header[k := Values(header, k) + [v]]
  }

  /** Adding `v` under `k` appends it to the values of `k` and leaves every other name alone. */
  lemma AddSpec(header: map<string, seq<string>>, k: string, v: string, k': string)
    ensures Values(Add(header, k, v), k') == Values(header, k') + (if k' == k then [v] else [])
  {
  }

  /** A net/http request: its header map and its `Host` override. */
  class StdRequest {
    var header: map<string, seq<string>>
    var host: string

    /** `http.NewRequest` on a parsed URL: an empty header map, and `Host` taken from the URL. */
    constructor (url: Uri)
      ensures header == map[] && host == url.host
    {
      header, host := map[], url.host;
    }

    /** `Header.Add(k, v)`: `v` is appended to the values of `k`; no other key changes. */
    method AddHeader(k: string, v: string)
      modifies this`header
      ensures header == Add(old(header), k, v)
    {
      header := Add(header, k, v);
    }

    method SetHost(h: string)
      modifies this`host
      ensures host == h
    {
      host := h;
    }
  }
}
