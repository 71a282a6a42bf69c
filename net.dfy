/** The one function of Go's `net` package that the address code uses. */
module Net {

  /** `net.JoinHostPort(host, port)`: `host:port`, with the host in brackets when it holds a
      colon (an IPv6 literal). */
  function JoinHostPort(host: string, port: string): (r: string)
    ensures ':' !in host ==> r == host + ":" + port
  {
    if ':' in host then "[" + host + "]:" + port else host + ":" + port
  }

  /** `strconv.Itoa` of the default port: 443 with TLS, 80 without. */
  function DefaultPort(isTLS: bool): string {
    if isTLS then "443" else "80"
  }
}
