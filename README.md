# httpit load-test core in Dafny

httpit is an HTTP benchmarking tool. It opens a number of connections to a target URL and sends
requests for a fixed count or a fixed duration. While it runs, it counts status codes, errors,
latencies and per-round request rates, and at the end it reports mean, spread and peak. This
project models the bookkeeping and encoding around the HTTP plumbing and proves properties of it:

- **The statistics aggregator** of `pit/pit.go`: `New`'s defaults, `statistic` and `handleCode`.
  `statistic` is a class method whose body is the mutex-protected critical section. The time is
  an integer number of nanoseconds passed in by the caller. The state machine behind it is a
  step function on a state value. For it we prove the stop rule for count and duration mode,
  the round bookkeeping, and that the stop signal is closed at most once, exactly when `done`
  becomes set.
- **The token limiter** of `pit/limiter.go`. We prove that the refill is floor(d·qps/1e9), that
  `0 <= token <= burst` is kept, and that from a token `t` exactly `burst - t` calls succeed
  before one is refused.
- **The request template.**
  - Header splitting in `pit/header.go`, which returns an error, and in `internal/header.go`,
    which panics; its panic is a precondition.
  - The argument encoder of `pit/config.go`: JSON or form, `needQuote`, and the body that is
    built.
  - Body-source precedence, the order of header settings and overrides, and the redirect limit.
- **Address and strategy selection**: the three copies of `addMissingPort` and scheme parsing,
  which are proved to agree, and the dialer, doer and per-slot setup of both clients.
- **The proxy dialers** of `pit/dialer.go`:
  - the `user:pass@host` split and the credential token in standard base64 (section 4 of
    RFC 4648), with a decoder and the round trip;
  - the CONNECT request text (section 4.3.6 of RFC 7231), proved to parse back to its target
    and token;
  - the "status must be exactly 200" rule;
  - byte counting only on success;
  - the sticky error of the SOCKS dialer.
- **The result accumulators** of `pit/tui.go` and `gui/result.go`: the status classes, the
  `Update` message handler, the progress and elapsed clamps, `rpsResult`/`latencyResult` as
  two loops each, proved equal to a summary function, and the throughput unit.

Values of the Go program map to Dafny as follows. Strings and byte slices are `string`, and each
character stands for one byte. Integers are unbounded. `float64` values are exact reals, with
+Inf, -Inf and NaN where a divisor can be zero (module `GoFloat`). Go's truncating `/` and `%`
have their own definitions (module `GoInt`). fasthttp's and net/http's request objects are small
classes (module `Http`) whose setters state what they change.

## Model

| member | source | states |
|---|---|---|
| Pit.OrDefault | pit/pit.go:54-64 | the result is positive; a positive setting is kept and a non-positive one becomes the default |
| Pit.Pit.constructor | pit/pit.go:47-67 | `New`: connections, duration and timeout are kept when positive and otherwise become 128, 10 s and 3 s; the count is kept; the aggregator starts in the initial state with the invariant |
| Pit.GetBody | pit/pit.go:301-307 | the literal body for an empty file name, otherwise whatever reading the file gives, error included |
| Pit.InitBody | pit/pit.go:88-91 | an empty URL is the "missing url" error before the body is looked at; otherwise the body comes from `getBody` |
| Pit.InitialInv | pit/pit.go:47-52 | a fresh aggregator satisfies the invariant: every counter agrees and the stop signal is not closed |
| Pit.DoneIsFinal | pit/pit.go:143-145 | once `done` is set, a call changes nothing at all |
| Pit.ErrorCountsOnlyMessage | pit/pit.go:147-148 | an error raises only the count of its message; requests, code classes and latencies stay |
| Pit.SuccessCounted | pit/pit.go:149-154 | a success adds one to the total and to the round count when no round ends, one to exactly the code's class, and appends the latency in microseconds; the errors stay |
| Pit.CountReachedStops | pit/pit.go:157-165 | reaching the count appends one rate sample (round requests, round nanoseconds), sets `done` and closes the signal once, and neither folds the elapsed time nor resets the round |
| Pit.RoundEnds | pit/pit.go:167-174 | a round of at least 10 ms appends one sample, adds the round to the elapsed total, restarts the round at `now` and resets the round count |
| Pit.StopRule | pit/pit.go:157-180 | after a call, `done` holds exactly when the total reached the count (count mode), or exactly when the elapsed total reached the duration (duration mode) |
| Pit.StepKeepsInv | pit/pit.go:140-181 | one call keeps the invariant (total = sum of the classes = number of latencies; the signal is closed once exactly when `done`); the signal is closed by a call exactly when that call sets `done` |
| Pit.RunKeepsInv | pit/pit.go:140-181 | over any sequence of calls the invariant holds, the signal is closed at most once and exactly when `done` is set, and a finished aggregator stays as it is |
| Pit.CountModeStops | pit/pit.go:157-165 | in count mode, successful calls raise the total one each, and the run is done exactly when the count is reached |
| Pit.Pit.Begin | pit/pit.go:74 | the round starts at the given time |
| Pit.Pit.CloseDoneChan | pit/pit.go:163 | closing the stop signal marks it closed and counts one close; it may only be done once |
| Pit.Pit.HandleCode | pit/pit.go:183-198 | exactly the class of `code / 100` (1 to 5, else "others") goes up by one |
| Pit.Pit.RecordOutcome | pit/pit.go:147-154 | the state after recording an outcome is the step function's record of it |
| Pit.Pit.RecordError | pit/pit.go:147-148 | only the count of the error message goes up |
| Pit.Pit.RecordSuccess | pit/pit.go:149-154 | round and total count go up by one, the code is counted in its class, the latency is appended in microseconds; nothing else changes |
| Pit.Pit.FinishCall | pit/pit.go:156-180 | the end of a call (count stop, round end, duration stop) is the step function's; the signal is closed exactly when `done` |
| Pit.Pit.StopOnCount | pit/pit.go:158-165 | one sample appended, `done` set, signal closed |
| Pit.Pit.EndRound | pit/pit.go:168-174 | the round is folded into the elapsed total and restarted |
| Pit.Pit.StopOnDuration | pit/pit.go:176-180 | duration stop: `done` set and the signal closed exactly then |
| Pit.Pit.Statistic | pit/pit.go:140-181 | the new state is exactly one step of the aggregator from the old one, the invariant is kept, and connections and timeout are untouched |
| Pit.ValidIsInv | pit/pit.go:20-45 | the object's validity gives the invariant of its state, and the signal is closed exactly when `done` |
| Pit.InvIsValid | pit/pit.go:20-45 | conversely, the invariant of the state and a closed signal matching `done` give validity |
| PitLimiter.NopeAllow | pit/limiter.go:17 | the no-op limiter always allows |
| PitLimiter.FloorOfQuotient | pit/limiter.go:60 | the `int()` of an exact quotient of naturals is their integer quotient |
| PitLimiter.RevokedSum | pit/limiter.go:58-60 | whole seconds times qps plus the fractional nanoseconds times qps over 1e9 is d·qps/1e9 |
| PitLimiter.RevokedIsFloor | pit/limiter.go:56-61 | `revoked(d)` is floor(d·qps/1e9) for d ≥ 0 |
| PitLimiter.AllowSpec | pit/limiter.go:37-52 | `allow` keeps `0 <= token <= burst`; it says yes exactly when the refilled, clamped token is below `burst`, then counts a token and sets `last`; on no, `last` stays and `token == burst` |
| PitLimiter.NewLimiterRefuses | pit/limiter.go:28-35 | a limiter just made is full, so a call at the same instant is refused |
| PitLimiter.BurstThenRefuse | pit/limiter.go:37-52 | with no time passing, from token `t` exactly `burst - t` calls succeed and the next is refused |
| PitLimiter.RefillAfterOneToken | pit/limiter.go:41-49 | from a full limiter, a call succeeds exactly when enough time has passed to refill one token |
| PitLimiter.TokenLimiter.constructor | pit/limiter.go:28-35 | `newTokenLimiter`: limit, burst and token are qps, and `last` is the creation time |
| PitLimiter.TokenLimiter.Allow | pit/limiter.go:37-52 | the method's answer and new state are one step of the limiter, and the invariant is kept |
| PitConfig.AddMissingPort | pit/config.go:132-142 | an address with a colon is unchanged; otherwise port 443 (TLS) or 80 is added |
| PitConfig.AddMissingPortIdempotent | pit/config.go:132-142 | the result always has a colon, so adding the port again changes nothing |
| PitConfig.IsJsonArgIff | pit/config.go:167-175 | an argument is JSON exactly when it holds `:=` and no `=` comes before its first `:=` |
| PitConfig.DecideJson | pit/config.go:167-175 | the loop decides JSON exactly when every argument is a JSON argument |
| PitConfig.JsonSplit | pit/config.go:181 | the split point of a JSON argument is where its first `:=` is |
| PitConfig.JsonArgOfParts | pit/config.go:181-182 | `a:=b` with no `=` in `a` is a JSON argument with key and value the trimmed `a` and `b` |
| PitConfig.Quoted | pit/config.go:186-193 | a value is wrapped in double quotes exactly when it needs quoting |
| PitConfig.JsonMembers | pit/config.go:180-197 | one `"key":value` member per argument, in order |
| PitConfig.JsonBodyOfOne | pit/config.go:177-198 | a single argument gives `{` its member `}` |
| PitConfig.WrittenStep | pit/config.go:194-196 | each member is followed by a comma except the last |
| PitConfig.WrittenAll | pit/config.go:179-198 | the members written in order are joined by commas |
| PitConfig.EncodeJson | pit/config.go:177-198 | the appending loop produces the JSON body of the arguments |
| PitConfig.FormArgOf | pit/config.go:204-209 | an argument without `=` is a trimmed key without value |
| PitConfig.FormArgOfParts | pit/config.go:204-208 | `a=b` with no `=` in `a` is split at that `=`, both sides trimmed; later `=` stay in the value |
| PitConfig.FormArgs | pit/config.go:203-210 | one form argument per argument, in order |
| PitConfig.FormArgsSnoc | pit/config.go:203-210 | one more argument adds its form argument at the end |
| PitConfig.Escape | pit/config.go:211 | with an empty table, or on text none of whose bytes are in the table, escaping changes nothing |
| PitConfig.EscapeAppend | pit/config.go:211 | escaping a concatenation escapes each part |
| PitConfig.FormItems | pit/config.go:211 | one written item per form argument, in order |
| PitConfig.FormBodyOfOne | pit/config.go:211 | a single argument's body is its one item |
| PitConfig.EscapeOneEquals | pit/config.go:211 | in `v1=v2`, with only `=` in the table, exactly that `=` is escaped |
| PitConfig.FormArgOfTwoEquals | pit/config.go:204-208 | `k=v1=v2` is the key `k` with the value `v1=v2` |
| PitConfig.FormOfTwoEquals | pit/config.go:199-213 | `k=v1=v2` is written `k=v1`, escaped `=`, `v2` |
| PitConfig.FormEscapesLaterEquals | pit/config.go:199-213 | `foo=bar=baz` with `=` escaped as `%3D` is written `foo=bar%3Dbaz` |
| PitConfig.EncodeForm | pit/config.go:200-212 | the loop over the arguments produces the form body: items in order joined by `&` |
| PitConfig.NeedQuote | pit/config.go:216-237 | no quoting exactly when the value lowercases to `true`/`false`, is an integer or a decimal or special float, or has at least two bytes and is wrapped in `[]` or `{}` |
| PitConfig.IntIsFloat | pit/config.go:220-225 | every integer is also a float |
| PitConfig.ShortValuesQuoted | pit/config.go:227-230 | a value of at most one byte that is not a number is quoted |
| PitConfig.EmptyQuoted | pit/config.go:227-230 | the empty value is quoted |
| PitConfig.FalseUnquoted | pit/config.go:217-219 | `False` is not quoted |
| PitConfig.StrayByteNotDecimal | pit/config.go:220-225 | a byte other than a digit, sign, dot or exponent mark makes the value neither an integer nor a decimal float |
| PitConfig.DigitFirstQuoted | pit/config.go:216-237 | a value starting with a digit that is not a number is quoted |
| PitConfig.LettersQuoted | pit/config.go:216-237 | `1aa` is quoted |
| PitConfig.TwoDotsNotMantissa | pit/config.go:223 | a mantissa has at most one dot |
| PitConfig.TwoDotsNotDecimal | pit/config.go:220-225 | two dots before any exponent make the value neither an integer nor a decimal float |
| PitConfig.TwoDotsQuoted | pit/config.go:216-237 | `1.1.1` is quoted |
| PitConfig.DecimalUnquoted | pit/config.go:223-225 | `1.1` is not quoted |
| PitConfig.ArrayUnquoted | pit/config.go:232-234 | `[1]` is not quoted |
| PitConfig.UnsignedKeeps | pit/config.go:220 | dropping the sign keeps every other byte in its place |
| PitConfig.ExponentAt | pit/config.go:223 | the position of the first `e`/`E`, with no exponent mark before it |
| PitConfig.OneDotOneIsMantissa | pit/config.go:223 | `1.1` is a mantissa |
| PitConfig.OneDotOneIsDecimal | pit/config.go:223 | `1.1` is a decimal float |
| PitConfig.RedirectLimit | pit/config.go:301-312 | 0 without `Follow`; with it, the default for a non-positive setting and the setting otherwise; positive exactly when following |
| PitConfig.Config.GetMaxRedirects | pit/config.go:301-312 | the config's redirect limit is the rule applied to its fields |
| PitConfig.RedirectsIffFollow | pit/config.go:301-312 | the limit is 0 exactly when redirects are not followed |
| PitConfig.BodySource | pit/config.go:144-151 | a non-empty file name wins over `Body`, and a read error gives an empty body and the error; otherwise `Body` when set, else the body built from the arguments |
| PitConfig.Config.SetReqBody | pit/config.go:144-159 | the body and error are the body source's; the template gets the body exactly when the body is not streamed |
| PitConfig.ContentTypeFor | pit/config.go:251-256 | form wins over JSON because it is set last; neither leaves the content type as it was |
| PitConfig.Config.SetReqHeader | pit/config.go:239-259 | a header parse error is returned before anything else is touched; otherwise the headers are appended in order, then connection close, host override and content type are applied |
| PitConfig.Config.SetReqBasic | pit/config.go:107-125 | method and URL are set; `https` sets TLS, `http` leaves it, any other scheme is the unsupported-protocol error with TLS and address untouched; the address is the host with its default port |
| PitConfig.Config.ParseArgs | pit/config.go:162-214 | no arguments change nothing; all-JSON arguments set `JSON` and append the JSON body with the method kept; otherwise `Form` is set, the method becomes POST and the form body is appended |
| PitConfig.Config.ParseJsonArgs | pit/config.go:177-198 | JSON set, JSON body appended after what was there |
| PitConfig.Config.ParseFormArgs | pit/config.go:199-213 | form set, method POST, form body appended after what was there |
| PitConfig.Config.constructor | pit/config.go:18-77 | the exported settings as given; no body, no TLS, no address yet |
| PitHeader.WellFormedIffSplitsInTwo | pit/header.go:27-28 | an entry is well formed (exactly one colon) exactly when splitting at `:` gives two parts, and then those are the text before and after the colon |
| PitHeader.Headers | pit/header.go:26-31 | one trimmed (key, value) pair per entry, in order |
| PitHeader.HeadersSnoc | pit/header.go:26-31 | one more well-formed entry appends its pair |
| PitHeader.Flatten | pit/header.go:31 | the flat key/value list is twice as long as the pairs |
| PitHeader.FlattenAt | pit/header.go:31 | elements 2i and 2i+1 of the flat list are the key and value of pair i |
| PitHeader.FirstBad | pit/header.go:26-30 | the first entry that does not split in two, with every earlier entry well formed |
| PitHeader.HeaderKvs | pit/header.go:24-34 | `kvs` succeeds exactly when every entry is well formed; otherwise its error names the first bad entry |
| PitHeader.KvsAt | pit/header.go:24-34 | on success the list has length 2·n, with entry i's trimmed key and value at 2i and 2i+1 |
| PitHeader.EmptyKvs | pit/header.go:24-34 | no entries gives an empty list and no error |
| PitHeader.KvsRejectsNoColon | pit/header.go:28-29 | `foo` (no colon) is rejected |
| PitHeader.KvsRejectsTwoColons | pit/header.go:28-29 | `foo:bar:baz` (two colons) is rejected |
| PitHeader.HeaderOfParts | pit/header.go:27-31 | `a:b` without other colons is well formed, with trimmed `a` and `b` as its pair |
| PitHeader.KvsOfOne | pit/header.go:24-34 | a single entry `a:b` gives the list of trimmed `a` and `b` |
| PitHeader.KvsTrims | pit/header.go:31 | ` foo : bar ` gives `foo`, `bar` |
| PitHeader.Kvs | pit/header.go:24-34 | the loop returns what `kvs` is specified to return |
| PitHeader.Pairs | pit/header.go:17-20 | the pairs the loop reads off an even list, in order |
| PitHeader.PairsOfFlatten | pit/header.go:17-20 | reading pairs back off the flat list gives the pairs |
| PitHeader.PairsStep | pit/header.go:17-20 | two more elements add one pair |
| PitHeader.PairsAppend | pit/header.go:17-20 | appending a key and a value adds that pair at the end |
| PitHeader.AddAll | pit/header.go:17-20 | the request's headers get the pairs of the list appended, in order, duplicates kept |
| PitHeader.WriteToFasthttp | pit/header.go:12-22 | a parse error is returned before any header is added; otherwise one header per entry is appended in order |
| InternalHeader.Kvs | internal/header.go:29-39 | for well-formed entries, the flat list of trimmed keys and values, the same as the error-returning version gives |
| InternalHeader.WriteToFasthttp | internal/header.go:13-19 | the pairs of the entries are appended to the request's headers in order |
| InternalHeader.ValuesFor | internal/header.go:21-27 | the values added for a key are never more than the pairs |
| InternalHeader.ValuesForBounds | internal/header.go:21-27 | a key that is in no pair gets no value; if every pair has this key, each pair gives a value |
| InternalHeader.ValuesForExample | internal/header.go:21-27 | `foo:bar` twice and `bar:baz` give `foo` the values `bar`, `bar` and `bar` the value `baz` |
| InternalHeader.AddValuesSpec | internal/header.go:21-27 | after adding the pairs, every key's values are its old ones followed by its values from the pairs, in order |
| InternalHeader.AddKvsFlatten | internal/header.go:22-26 | adding from the flat list is adding the pairs |
| InternalHeader.FlattenEven | internal/header.go:29-39 | the flat list has even length |
| InternalHeader.AddAllValues | internal/header.go:22-26 | the loop adds every key/value pair of the list to the header map |
| InternalHeader.WriteToHttp | internal/header.go:21-27 | each key ends up with its old values followed by its values from the entries in order, so a repeated key gets repeated values |
| Http.AddSpec | internal/header.go:25 | `Header.Add` appends the value to its key and leaves every other key's values |
| PitDialer.CountedAllSpec | pit/dialer.go:23-41 | after a sequence of reads and writes the counter has grown by exactly the bytes of the successful ones |
| PitDialer.SuccessfulBytesCons | pit/dialer.go:23-41 | the first operation counts its bytes exactly when it succeeded |
| PitDialer.CounterConn.constructor | pit/dialer.go:51-54 | the connection counts into the given shared counter |
| PitDialer.CounterConn.Read | pit/dialer.go:23-31 | the inner read's result is returned unchanged; its bytes are added exactly when it succeeded |
| PitDialer.CounterConn.Write | pit/dialer.go:33-41 | the inner write's result is returned unchanged; its bytes are added exactly when it succeeded |
| PitDialer.DirectDial | pit/dialer.go:43-58 | a connection is returned exactly when the dial succeeds, with the dial's error otherwise |
| PitDialer.ProxyTargetOf | pit/dialer.go:60-66 | with no `@`, no token and the whole proxy as address; with one, the base64 of the text before the first `@` and the text between the first and second `@` |
| PitDialer.ProxyOfParts | pit/dialer.go:62-66 | `cred@host` gives the token of `cred` and the address `host` |
| PitDialer.ProxyOfThreeParts | pit/dialer.go:62-66 | `cred@host@tail` drops the tail |
| PitDialer.CredentialsRecoverable | pit/dialer.go:64 | the token decodes back to the credential bytes |
| PitDialer.ParseHeaders | pit/dialer.go:81-84 | without a token the header block is the blank line; with one, the Proxy-Authorization line holding it, then the blank line |
| PitDialer.PrefixOf | pit/dialer.go:80 | a text starts with what was put in front of it |
| PitDialer.TargetEnds | pit/dialer.go:80 | the target of a CONNECT line without spaces ends at the first space |
| PitDialer.ConnectRoundTrip | pit/dialer.go:80-84 | the CONNECT request parses back to its target and token |
| PitDialer.AuthIsOneLine | pit/dialer.go:82 | a base64 token has no CR or LF, so the header stays one line |
| PitDialer.HttpProxyDial | pit/dialer.go:68-110 | dials the proxy address; sends the CONNECT text exactly when the dial succeeds; succeeds exactly when dial, write and read succeed and the status is 200; wraps dial, write and read errors with `http proxy:`; any other status is "could not connect to proxy"; closes exactly on a failed read or a non-200 status |
| PitDialer.SetupErrorSticks | pit/dialer.go:120-127 | a parse or setup error makes every dial fail with the `socks proxy:` prefix |
| PitDialer.FirstFailureSticks | pit/dialer.go:124-135 | dials succeed until the first failure; that one returns a wrapper and its error, and every later dial fails with that error under `socks proxy:` |
| PitDialer.SocksDialer.constructor | pit/dialer.go:113-122 | the stored error is the URL parse error, else the proxy setup error |
| PitDialer.SocksDialer.Dial | pit/dialer.go:124-135 | one dial and the error it stores are one step of the SOCKS dialer |
| Base64.Letter | pit/dialer.go:64 | the letter for a six-bit value is in the standard alphabet, and its value is that number |
| Base64.ValueOf | pit/dialer.go:64 | the value of a letter of the alphabet is below 64 |
| Base64.ValueOfLetter | pit/dialer.go:64 | every value below 64 is the value of its letter |
| Base64.Encode | pit/dialer.go:64 | four characters per started group of three bytes, padded with `=` |
| Base64.GroupRoundTrip | pit/dialer.go:64 | one group of three bytes decodes back to itself |
| Base64.DecodeEncode | pit/dialer.go:64 | decoding an encoding gives back the bytes |
| Base64.EncodeAlphabet | pit/dialer.go:64 | the encoding of any bytes uses only the alphabet and `=` |
| PitClient.AddMissingPort | pit/client.go:181-191 | an address with a colon is unchanged; otherwise `:443` (TLS) or `:80` is added |
| PitClient.AddMissingPortAgrees | pit/client.go:181-191 | this copy equals the one in `pit/config.go` |
| PitClient.GetIsTLSAndAddr | pit/client.go:164-179 | `https` gives TLS and `http` none, each with the host and its default port; any other scheme is the unsupported-protocol error |
| PitClient.AddressHasPort | pit/client.go:164-179 | every accepted address has a port, so adding one again changes nothing |
| PitClient.SocksProxyIgnored | pit/client.go:123-124 | with only a SOCKS proxy set, the SOCKS dialer as written gets the empty HTTP-proxy setting, never the configured SOCKS proxy |
| PitClient.GetDialerAsWritten | pit/client.go:119-128 | `getDialer` as written: HTTP proxy first, then a SOCKS dialer whenever a SOCKS proxy is set but built from the empty HTTP-proxy setting, then direct |
| PitClient.GetDialer | pit/client.go:119-128 | the intended choice: HTTP proxy first, then a SOCKS dialer built from the SOCKS setting, then direct |
| PitClient.GetDialerDiffers | pit/client.go:119-128 | the intended choice differs from the one as written exactly when only a SOCKS proxy is set |
| PitClient.DoerFor | pit/client.go:91-114 | the pipelining doer exactly when `pipeline` is set, both on the same address, TLS flag, connection limit and read timeout, dialing through `getDialer` as written |
| PitClient.DoerForCorrected | pit/client.go:91-114 | the same choice of doer, dialing through the intended dialer |
| PitClient.DoerForDiffers | pit/client.go:91-128 | the doer as written dials a SOCKS-only configuration through the empty proxy URL, and differs from the intended doer exactly for such a configuration |
| PitClient.FasthttpClient.constructor | pit/client.go:52-56 | the client holds the given doer, template, body and stream flag |
| PitClient.FasthttpClient.NewPooledRequest | pit/client.go:78-84 | the pool hands out a fresh request with the template copied into it |
| PitClient.DoResult | pit/client.go:148-156 | a doer error gives code 0, latency 0 and the error; otherwise the status and the elapsed time |
| PitClient.FasthttpClient.Do | pit/client.go:130-157 | a streamed body is reset to the whole body before sending; the result is `DoResult` |
| PitClient.NewFasthttpClient | pit/client.go:51-117 | a malformed header is returned before the scheme is checked; then an unsupported scheme; otherwise a fresh template (method, URL, headers, body unless streamed, host override) and the doer as written for its address, so a SOCKS-only configuration dials through the empty proxy URL |
| InternalClient.AddMissingPort | internal/client.go:159-169 | an address with a colon is unchanged; otherwise `:443` (TLS) or `:80` is added |
| InternalClient.AddMissingPortCopiesAgree | internal/client.go:159-169 | the three copies of `addMissingPort` agree |
| InternalClient.GetIsTLSAndAddr | internal/client.go:139-157 | only `http` and `https` are accepted, each with the host and its default port, and TLS exactly for `https`; other schemes are the unsupported-protocol error |
| InternalClient.GetIsTLSAndAddrAgrees | internal/client.go:139-157 | this copy agrees with the one in `pit/client.go` |
| InternalClient.DoerFor | internal/client.go:84-106 | the host-client doer exactly when keep-alives are disabled, otherwise the pipelining doer, on the same address, TLS flag, limit and timeout |
| InternalClient.Reader.constructor | internal/client.go:69 | the reader starts on the given content |
| InternalClient.Reader.Reset | internal/client.go:119 | after a reset the reader holds the body |
| InternalClient.NewSlot | internal/client.go:64-81 | one slot: a fresh request set up from the template, a fresh empty reader exactly when the body is streamed |
| InternalClient.FillSlots | internal/client.go:63-82 | every one of the `maxConns` slots gets its own fresh request; readers exist exactly in stream mode and are distinct, fresh and empty |
| InternalClient.NewFasthttpClient | internal/client.go:50-109 | an unsupported scheme is an error, returned before any header is read; otherwise all slots are filled, each with its own template request, readers exactly in stream mode, and the doer chosen by keep-alive; well-formed headers are required only when the slot loop runs |
| InternalClient.FasthttpClient.constructor | internal/client.go:51-56 | the client holds the given doer, slots and body |
| InternalClient.FasthttpClient.Do | internal/client.go:111-132 | slot i's reader, when present, is reset to the body and becomes the stream; the result is the doer's error with code 0, or the status and the latency |
| InternalClient.HttpClient.constructor | internal/client.go:179-182 | the client holds the given request slots |
| InternalClient.NewStdSlot | internal/client.go:187-196 | a fresh net/http request carrying the headers in order; its host is the override when one is set, else the URL's host that `http.NewRequest` copies |
| InternalClient.SetUpStdSlot | internal/client.go:187-196 | slot i gets a fresh request, distinct from every other slot's; the other slots stay |
| InternalClient.SetUpStdSlots | internal/client.go:186-197 | the first n slots each get their own fresh request |
| InternalClient.FillStdSlots | internal/client.go:184-197 | the request is stored before its error is tested, so on an empty slice the first turn faults at index 0 whatever `http.NewRequest` returned; otherwise a request error ends the first turn with slot 0 nil; without one, a loop past the slice's length is an index error at that length, and otherwise every slot up to `maxConns` gets its own set-up request |
| InternalClient.FillHttpSlots | internal/client.go:178-197 | on slices of a given length: an index fault for length 0, a request error from length 1 on, the index fault past the length, and otherwise every slot set up; the error is returned exactly when the loop fails |
| InternalClient.NewHttpClientAsWritten | internal/client.go:178-189 | with the zero-length slices as written, every `maxConns >= 1` fails with the index error at 0, whether or not `http.NewRequest` failed; `maxConns = 0` succeeds |
| InternalClient.NewHttpClient | internal/client.go:178-197 | with slices of length `maxConns`, a request creation error is returned exactly when there is a connection and `http.NewRequest` fails, and it is the only error; otherwise every slot gets its own request |
| PitTui.UpdateStep | pit/tui.go:82-116 | a quit key sets `quitting` and quits, other keys do nothing; a window size sets the bar width to width − 8 capped at 66; the int `done` sets `done` and quits, other ints do nothing; anything else asks for a tick; a quit always comes with one of the two flags set |
| PitTui.FlagsStay | pit/tui.go:82-116 | `quitting` and `done` are never reset by later messages, and every message returns a command |
| PitTui.SkipKeyThenDone | pit/tui.go:85-110 | an ordinary key and then `done` leave the program done with `quitting` as it was |
| PitTui.WideWindowCapped | pit/tui.go:97-102 | a window 100 wide gives the widest bar, 66 |
| PitTui.Tui.Update | pit/tui.go:82-116 | the handler's new fields and its command are `UpdateStep`'s |
| PitTui.Percent | pit/tui.go:177-191 | requests over count when a count is set, else elapsed over duration, never above one; in range [0, 1] for valid inputs, exactly the quotient below full; a zero duration gives 1 (+Inf capped) or NaN |
| PitTui.OverCountIsFull | pit/tui.go:179-187 | more requests than the count still shows a full bar |
| PitTui.ShownElapsed | pit/tui.go:204-208 | the elapsed time shown is the elapsed time capped at the duration |
| PitTui.FormatThroughputAsWritten | pit/tui.go:389-400 | the unit by range, with the GB/s value a thousand times too small |
| PitTui.GigabytesShownTooSmall | pit/tui.go:397-398 | 1111111111 B/s is shown as 0.001111111111 GB/s |
| PitTui.FormatThroughput | pit/tui.go:389-400 | B/s below 1e3, KB/s below 1e6, MB/s below 1e9, GB/s above; the value times the unit is the rate; below GB/s it is under 1000, and from 1e3 on it is at least 1 |
| PitTui.ThroughputUnits | pit/tui.go:389-400 | 100, 1001, 1111111 and 1111111111 B/s are shown as 100 B/s, 1.001 KB/s, 1.111111 MB/s and 1.111111111 GB/s |
| PitTui.ThroughputShown | pit/tui.go:217-229 | no rate before any time has passed; then the unit of the byte count per elapsed second, with the value in that unit below 1e9 B/s and a thousand times too small from there on, as `formatThroughput` is written |
| PitTui.ThroughputShownCorrected | pit/tui.go:217-229 | the same line through the corrected formatter: the value times its unit is the rate in every range |
| PitTui.ThroughputShownDiffers | pit/tui.go:217-229 | the line as written and the corrected line agree exactly when the rate is below 1e9 B/s |
| PitTui.Mean | pit/tui.go:345 | the mean times the number of samples is the sum |
| PitTui.PeakBounds | pit/tui.go:338-343 | the running maximum is at least zero and at least every sample |
| PitTui.PeakAttained | pit/tui.go:338-343 | the maximum is zero or one of the samples |
| PitTui.SquaredDeviationsNonNegative | pit/tui.go:347-351 | the squared deviations are never negative |
| PitTui.SingleSampleNaN | pit/tui.go:353 | a single sample's spread is 0/0, NaN |
| PitTui.SummaryMeaning | pit/tui.go:331-356 | for samples, the maximum bounds each and is at least zero; the variance is NaN for one sample and a non-negative number from two on |
| PitTui.SummaryExample | pit/tui.go:331-356 | 1, 6, 5, 7, 9, 8 have mean 6, maximum 9 and squared deviations over n − 1 of 8 |
| PitTui.SumAndPeak | pit/tui.go:337-343 | the first loop computes the sum and the running maximum from zero |
| PitTui.Deviations | pit/tui.go:347-351 | the second loop computes the squared deviations from the mean |
| PitTui.RpsResult | pit/tui.go:331-356 | `rpsResult` returns the summary of the samples, all zero for none |
| PitTui.Millis | pit/tui.go:366-367 | each latency in milliseconds times 1000 is its microseconds |
| PitTui.MillisSumAndPeak | pit/tui.go:364-372 | the first loop computes the sum and the maximum of the latencies in milliseconds |
| PitTui.MillisDeviations | pit/tui.go:376-382 | the second loop computes the squared deviations of the millisecond values |
| PitTui.LatencyResult | pit/tui.go:358-387 | `latencyResult` returns the summary of the latencies in milliseconds, all zero for none |
| PitTui.LatencyExample | pit/tui.go:358-387 | 1e6 … 8e6 µs give mean 6000 ms, maximum 9000 ms and spread 8e6 |
| PitTui.Tui.constructor | pit/tui.go:61-71 | every counter zero, no samples, no errors, flags clear |
| PitTui.Tui.AppendCode | pit/tui.go:122-137 | exactly the class of `code / 100` goes up by one |
| PitTui.Tui.AppendRps | pit/tui.go:139-141 | the sample goes at the end |
| PitTui.Tui.AppendLatency | pit/tui.go:143-145 | the latency goes at the end in microseconds |
| PitTui.Tui.AppendError | pit/tui.go:147-151 | only the count of the message goes up |
| GuiResult.Result.constructor | gui/result.go:29-35 | a zero shared byte counter, every count zero, no samples, no errors |
| GuiResult.Result.AppendCode | gui/result.go:49-64 | exactly one of the six classes goes up by one |
| GuiResult.Result.IncreaseReq | gui/result.go:66-68 | the request count that `TotalReqs` reports goes up by one, and nothing else changes |
| GuiResult.Result.AddElapsed | gui/result.go:70-72 | the total that `Elapsed` reports grows by the argument |
| GuiResult.Result.AppendRps | gui/result.go:74-76 | the sample goes at the end and the earlier ones stay |
| GuiResult.Result.AppendLatency | gui/result.go:78-80 | the latency goes at the end in microseconds |
| GuiResult.Result.AppendError | gui/result.go:82-84 | only the count of the message goes up |
| GuiResult.CountIntoResult | gui/result.go:37-39 | the counter `Throughput` returns is shared: a connection counting into it raises what the result reports |
| Tally.Bucket | pit/pit.go:184 | the class of a status code is 1 to 5 for codes 100 to 599, and 0 ("others") otherwise |
| Tally.Inc | pit/pit.go:183-198 | exactly the code's class goes up by one, so the total goes up by one |
| Tally.OneInEachBucket | pit/tui.go:122-137 | 101, 201, 301, 401, 501 and 601 fall in classes 1 to 5 and others |
| Tally.AddError | pit/pit.go:148 | the message's count goes up by one and every other message's stays |
| GoInt.Quo | pit/pit.go:184 | Go's integer division truncates toward zero |
| GoInt.Rem | pit/limiter.go:59 | Go's remainder has the dividend's sign and completes the truncated quotient |
| GoInt.Trunc | pit/limiter.go:60 | `int()` of a float truncates toward zero |
| GoInt.Microseconds | pit/pit.go:153 | a non-negative duration in microseconds is its nanoseconds over 1000 |
| GoFloat.Div | pit/tui.go:180-182 | a quotient for a non-zero divisor, else +Inf, -Inf or NaN by the dividend's sign |
| GoFloat.CapAtOne | pit/tui.go:185-187 | nothing above one is left, and anything else passes through |
| Net.JoinHostPort | pit/config.go:141 | a host without a colon is joined to the port by `:` |
| Text.Index | pit/config.go:133 | `strings.Index`: the first position of the pattern, or -1 |
| Text.Split | pit/header.go:27 | `strings.Split` on one byte gives one more piece than there are separators |
| Text.TrimSpace | pit/header.go:31 | the result has no ASCII white space at its ends and is what is between the leading and trailing ASCII white space |
| Text.ToLower | pit/config.go:217 | ASCII lower case, of the same length |

## Left out

- Concurrency. This covers `Run`, `worker`, the WaitGroup, the mutexes and the atomic adds. `statistic`, `allow` and the counters are sequential critical sections. Closing `doneChan` is a flag plus a count of closes.
- Networking, fasthttp and net/http internals. Dialing, TLS handshakes, SOCKS negotiation and reading the proxy's response are not modelled. Their outcomes are parameters: the dial error, the write error, the proxy's reply, and the doer's error and status.
- URI parsing (`SetRequestURI`, `url.Parse`) is not modelled. Scheme and host are given.
- The form writer's percent escaping (`Args.AppendBytes`) is a table parameter. Only `=` → `%3D` is shown in the source, so only that entry is used in examples.
- Header key canonicalisation in net/http (`CanonicalMIMEHeaderKey`) and fasthttp's header normalisation are not modelled. Keys are compared as given.
- PitHeader.AddAll: fasthttp's `RequestHeader.Add` is modelled as appending for every name. For its special names (Host, Content-Type, Content-Length, User-Agent, Connection, Transfer-Encoding, Cookie), fasthttp sets the value instead. So a header line with such a name, and its interplay with the host and content-type overrides of `setReqHeader`, is not captured.
- Text.TrimSpace trims only the six ASCII white-space bytes. `strings.TrimSpace` decodes UTF-8 and also strips Unicode white space (U+0085, U+00A0, U+1680, U+2000 to U+200A, U+2028, U+2029, U+202F, U+205F, U+3000). Their multi-byte encodings are kept by the model at the ends of header keys and values and of JSON and form arguments.
- Text.ToLower lowers ASCII letters only, where `strings.ToLower` is Unicode. This does not change the `true`/`false` comparison of `needQuote`, since the only non-ASCII letters that lower to ASCII ones are the Kelvin sign (to `k`) and the dotted capital I (to `i`), and neither letter is in those words.
- PitConfig.UnsupportedProtocol: `%q` quoting of the scheme is modelled as plain double quotes. Escapes inside the scheme are not modelled.
- PitConfig.NeedQuote does not cover all of `strconv.Atoi`/`ParseFloat`. Hexadecimal floats, underscores and range errors are left out. It covers signed integers, signed decimal floats with an optional exponent, and `inf`/`infinity`/`nan`.
- `defaultMaxRedirects` and the MIME constants are named constants, because their definitions are not part of this model. `defaultMaxRedirects` is 30, after the comment at pit/config.go:66-67.
- Reading files (`ioutil.ReadFile`) is a function parameter that can fail.
- PitConfig.BodySource gives an empty body on every read error. `ioutil.ReadFile` can fail partway and return the bytes read so far together with the error; pit/config.go:150-157 would keep those bytes as the body. That partial body is not modelled.
- TLS configuration is left out: `getTlsConfig`, `readClientCert` and the client certificates.
- `Config.doer`, `Config.hostClient` and `Config.getDialer` (pit/config.go:79-105, 261-270) are not modelled. They repeat the doer and dialer choice of pit/client.go, including the same SOCKS slip at pit/config.go:266.
- CounterConn does not model the int64 wrap-around of the shared counter.
- PitDialer.HttpProxyDial does not tell `Dial` from `DialTimeout`, because both are one dial outcome.
- The response slots of `internal/client.go` (`resps`) are left out.
- PitClient's `sync.Pool` of readers is left out. The reset reader is modelled as the streamed body.
- `httpClient.do` (internal/client.go:226-248) is left out. So are the http2/transport setup and the redirect policy. As written, `do` also dereferences a reader that `newHttpClient` never creates.
- `ConnectionClose()` at pit/client.go:70 and internal/client.go:75 is fasthttp's accessor. It is modelled as a read that changes nothing.
- `math.Sqrt` is not modelled. The summary carries the variance whose square root Go reports.
- Float rounding and the int64 → float64 conversions are not modelled. Reals are exact.
- Report rendering is not modelled: `output`, the `write*` functions, `print`, the templates, colours and `%.2f`. The progress bar's default width is a constructor parameter.
- The tick commands of the terminal program are a value `TickCmd`. Their timing is left out.
- Pit.RoundEnds records a rate sample as (round requests, round nanoseconds) instead of the float quotient.
- Pit.Pit.Statistic reads one clock for the two reads `statistic` makes (`time.Since` and `time.Now`). The round restarts at the same `now` that measured it.
- PitLimiter.TokenLimiter.Allow reads one clock `now` for the two reads `allow` makes: `time.Since(t.last)` at pit/limiter.go:40 and `time.Now()` at pit/limiter.go:46.
- PitLimiter.TokenLimiter.constructor takes `qps: nat`, where `newTokenLimiter` takes any `int`. A negative rate is not modelled.
- PitLimiter.TokenLimiter.Allow requires a clock that does not go backwards (`last <= now`).
- `pit/pit.go` has its own copies of `rpsResult`, `latencyResult` and `formatThroughput`, and `pit/config.go` has `readClientCert`. Only those in `pit/tui.go` (and `pit/config.go`) are modelled.
- gui/result.go's `rpsResult`, `latencyResult`, `formatThroughput` and `Print` are rendering or repeat the tui ones. gui's `rpsResult` also lacks the empty-input check. They are not modelled.
- Panics are preconditions. These are `internal/header.go`'s header panic, required only on the paths that reach `kvs` (a slot loop turn that gets past its request and scheme checks), and the negative length `make` in internal `newFasthttpClient` (`maxConns >= 0`). InternalClient.NewHttpClient and InternalClient.NewHttpClientAsWritten also require `maxConns >= 0`, because `make` with a negative capacity panics at internal/client.go:180-181.

## Findings

| source | as written | input that shows it | evidently intended | confidence | as-written member | corrected member |
|---|---|---|---|---|---|---|
| pit/client.go:123-124 | the SOCKS dialer is built from `cc.httpProxy`, which is always empty on that branch; `newFasthttpClient` (pit/client.go:94, 106) uses it | `httpProxy = ""`, `socksProxy = "socks5://127.0.0.1:1080"` | build it from `cc.socksProxy` | not executed | PitClient.SocksProxyIgnored | PitClient.GetDialer |
| internal/client.go:180-187 | `reqs` and `readers` are made with length 0 and then indexed at `i`, which faults even when `http.NewRequest` fails, since the store comes before the error test | `maxConns = 1` | make them with length `maxConns` | not executed | InternalClient.NewHttpClientAsWritten | InternalClient.NewHttpClient |
| pit/tui.go:397-398 | the GB/s branch divides by 1e12, and the throughput line (pit/tui.go:217-229) shows its result | 1111111111 B/s is shown as 0.001111111111 GB/s | divide by 1e9, giving 1.111111111 GB/s | not executed | PitTui.GigabytesShownTooSmall | PitTui.ThroughputUnits |
