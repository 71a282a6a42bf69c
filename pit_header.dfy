/** Request headers given as "name:value" strings, `pit/header.go`: split each entry at its
    one colon, trim both sides, and add them to a fasthttp request in order. */
module PitHeader {
  import opened Wrappers
  import opened Text
  import Http

  /** An entry with exactly one colon: none and two or more both fail. */
  predicate WellFormed(h: string) {
    multiset(h)[':'] == 1
  }

  /** The well-formed entries are exactly those that `strings.Split(h, ":")` cuts into two
      parts, the text before and after the colon. */
  lemma WellFormedIffSplitsInTwo(h: string)
    ensures WellFormed(h) <==> |Split(h, ':')| == 2
    ensures WellFormed(h) ==> Split(h, ':') == [h[..FirstIndexOf(h, ':')], h[FirstIndexOf(h, ':') + 1..]]
  {
    if WellFormed(h) {
      SplitTwo(h, ':');
    }
  }

  /** The trimmed name of a well-formed entry: the text before its colon. */
  function Key(h: string): string
    requires WellFormed(h)
  {
    TrimSpace(h[..FirstIndexOf(h, ':')])
  }

  /** The trimmed value of a well-formed entry: the text after its colon. */
  function Value(h: string): string
    requires WellFormed(h)
  {
    TrimSpace(h[FirstIndexOf(h, ':') + 1..])
  }

  predicate AllWellFormed(hs: seq<string>) {
    forall i :: 0 <= i < |hs| ==> WellFormed(hs[i])
  }

  /** The (name, value) header a well-formed entry stands for. */
  function Header(h: string): (string, string)
    requires WellFormed(h)
  {
    (Key(h), Value(h))
  }

  /** `f` applied to each element of `s`, in order. */
  function MapSeq<T, U>(f: T --> U, s: seq<T>): (r: seq<U>)
    requires forall i :: 0 <= i < |s| ==> f.requires(s[i])
    ensures |r| == |s|
    ensures forall i :: 0 <= i < |s| ==> r[i] == f(s[i])
  {
    seq(|s|, i requires 0 <= i < |s| => f(s[i]))
  }

  /** Mapping one more element appends its image. */
  lemma MapSnoc<T, U>(f: T --> U, s: seq<T>, n: nat)
    requires n < |s| && forall i :: 0 <= i <= n ==> f.requires(s[i])
    ensures var a := s[..n]; forall i :: 0 <= i < |a| ==> f.requires(a[i])
    ensures var b := s[..n + 1]; forall i :: 0 <= i < |b| ==> f.requires(b[i])
    ensures MapSeq(f, s[..n + 1]) == MapSeq(f, s[..n]) + [f(s[n])]
  {
    var a, b := s[..n], s[..n + 1];
    assert forall i :: 0 <= i < n ==> a[i] == s[i];
    assert forall i :: 0 <= i <= n ==> b[i] == s[i];
    var l := MapSeq(f, a) + [f(s[n])];
    assert forall i :: 0 <= i < |l| ==> MapSeq(f, b)[i] == l[i];
  }

  /** The headers of a list of well-formed entries, in list order. */
  function Headers(hs: seq<string>): (r: seq<(string, string)>)
    requires AllWellFormed(hs)
    ensures |r| == |hs|
    ensures forall i :: 0 <= i < |hs| ==> r[i] == Header(hs[i])
  {
    MapSeq(Header, hs)
  }

  /** The flat list name, value, name, value, ... of a list of headers. */
  function Flatten(ps: seq<(string, string)>): (r: seq<string>)
    ensures |r| == 2 * |ps|
    decreases |ps|
  {
    if ps == [] then [] else Flatten(ps[..|ps| - 1]) + [ps[|ps| - 1].0, ps[|ps| - 1].1]
  }

  /** The flat list has two elements per header: the name of header `i` at `2*i` and its
      value at `2*i + 1`. */
  lemma {:induction false} FlattenAt(ps: seq<(string, string)>)
    ensures |Flatten(ps)| == 2 * |ps|
    ensures forall i :: 0 <= i < |ps| ==> Flatten(ps)[2 * i] == ps[i].0 && Flatten(ps)[2 * i + 1] == ps[i].1
    decreases |ps|
  {
    if ps != [] {
      var init := ps[..|ps| - 1];
      FlattenAt(init);
      assert forall i :: 0 <= i < |init| ==> init[i] == ps[i];
    }
  }

  /** The position of the first entry that is not well formed. */
  function FirstBad(hs: seq<string>): (i: nat)
    requires !AllWellFormed(hs)
    ensures i < |hs| && !WellFormed(hs[i])
    ensures forall j :: 0 <= j < i ==> WellFormed(hs[j])
  {
    if !WellFormed(hs[0]) then 0
    else
      var i := 1 + FirstBad(hs[1..]);
      assert forall j :: 1 <= j < i ==> hs[j] == hs[1..][j - 1];
      i
  }

  /** The error `kvs` reports for a bad entry. */
  function ParseError(h: string): string {
    "failed to parse request header " + h
  }

  /** What `kvs` returns: the flat list of the headers when every entry is well formed, else
      the error naming the first entry that is not. */
  function HeaderKvs(hs: seq<string>): (r: Result<seq<string>>)
    ensures r.Ok? <==> AllWellFormed(hs)
    ensures r.Err? ==> r.error == ParseError(hs[FirstBad(hs)])
  {
    if AllWellFormed(hs) then Ok(Flatten(Headers(hs)))
    else Err(ParseError(hs[FirstBad(hs)]))
  }

  /** On success the list holds two strings per entry: the trimmed text before its colon, then
      the trimmed text after it. */
  lemma KvsAt(hs: seq<string>)
    requires AllWellFormed(hs)
    ensures HeaderKvs(hs).Ok? && |HeaderKvs(hs).value| == 2 * |hs|
    ensures forall i :: 0 <= i < |hs| ==>
      && HeaderKvs(hs).value[2 * i] == TrimSpace(hs[i][..FirstIndexOf(hs[i], ':')])
      && HeaderKvs(hs).value[2 * i + 1] == TrimSpace(hs[i][FirstIndexOf(hs[i], ':') + 1..])
  {
    FlattenAt(Headers(hs));
  }

  /** An empty header list gives an empty list and no error. */
  lemma EmptyKvs()
    ensures HeaderKvs([]) == Ok([])
  {
  }

  /** A failing test entry: no colon. */
  lemma KvsRejectsNoColon()
    ensures HeaderKvs(["foo"]) == Err(ParseError("foo"))
  {
    assert !WellFormed(["foo"][0]) by { assert multiset("foo")[':'] == 0; }
  }

  /** A failing test entry: two colons. */
  lemma KvsRejectsTwoColons()
    ensures HeaderKvs(["foo:bar:baz"]) == Err(ParseError("foo:bar:baz"))
  {
    TwoColons();
    assert !WellFormed(["foo:bar:baz"][0]);
  }

  lemma TwoColons()
    ensures multiset("foo:bar:baz")[':'] == 2
  {
  }

  /** Any name and value without a colon, joined by one, make a well-formed entry whose
      header is the trimmed name and the trimmed value. */
  lemma HeaderOfParts(a: string, b: string)
    requires ':' !in a && ':' !in b
    ensures WellFormed(a + ":" + b)
    ensures Header(a + ":" + b) == (TrimSpace(a), TrimSpace(b))
  {
    var h := a + ":" + b;
    assert multiset(h) == multiset(a) + multiset(":") + multiset(b);
    assert h[..|a|] == a;
    assert FirstIndexOf(h, ':') == |a|;
    assert h[|a| + 1..] == b;
  }

  /** A single entry with one colon yields its trimmed name and trimmed value. */
  lemma KvsOfOne(a: string, b: string)
    requires ':' !in a && ':' !in b
    ensures HeaderKvs([a + ":" + b]) == Ok([TrimSpace(a), TrimSpace(b)])
  {
    var h := a + ":" + b;
    HeaderOfParts(a, b);
    HeadersOfOne(h);
    FlattenOne(Header(h));
  }

  lemma HeadersOfOne(h: string)
    requires WellFormed(h)
    ensures AllWellFormed([h]) && Headers([h]) == [Header(h)]
  {
    assert [h][0] == h;
  }

  lemma FlattenOne(p: (string, string))
    ensures Flatten([p]) == [p.0, p.1]
  {
    assert [p][..0] == [];
  }

  /** One of the passing test entries: spaces on both sides of the name and of the value are
      trimmed away. */
  lemma KvsTrims()
    ensures HeaderKvs([" foo " + ":" + " bar "]) == Ok(["foo", "bar"])
  {
    KvsOfOne(" foo ", " bar ");
    TrimFoo();
    TrimBar();
  }

  lemma TrimFoo()
    ensures TrimSpace(" foo ") == "foo"
  {
    var s := " foo ";
    assert LeadingSpace(s) == 1 by { assert !IsSpace(s[1]); }
    var r := TrimSpace(s);
    assert |r| == 3 by { assert !IsSpace(s[3]); }
  }

  lemma TrimBar()
    ensures TrimSpace(" bar ") == "bar"
  {
    var s := " bar ";
    assert LeadingSpace(s) == 1 by { assert !IsSpace(s[1]); }
    var r := TrimSpace(s);
    assert |r| == 3 by { assert !IsSpace(s[3]); }
  }

  /** One more well-formed entry appends its header. */
  lemma HeadersSnoc(hs: seq<string>, i: nat)
    requires i < |hs| && forall j :: 0 <= j <= i ==> WellFormed(hs[j])
    ensures AllWellFormed(hs[..i]) && AllWellFormed(hs[..i + 1])
    ensures Headers(hs[..i + 1]) == Headers(hs[..i]) + [Header(hs[i])]
  {
    MapSnoc(Header, hs, i);
  }

  /** `kvs`, as the loop that builds the list entry by entry. */
  method Kvs(hs: seq<string>) returns (r: Result<seq<string>>)
    ensures r == HeaderKvs(hs)
  {
    var list: seq<string> := [];
    var i := 0;
    while i < |hs|
      invariant 0 <= i <= |hs|
      invariant forall j :: 0 <= j < i ==> WellFormed(hs[j])
      invariant list == Flatten(Headers(hs[..i]))
    {
      var kv := Split(hs[i], ':');
      WellFormedIffSplitsInTwo(hs[i]);
      if |kv| != 2 {
        assert !AllWellFormed(hs) by { assert !WellFormed(hs[i]); }
        assert FirstBad(hs) == i by { assert !WellFormed(hs[i]) && !WellFormed(hs[FirstBad(hs)]); }
        return Err(ParseError(hs[i]));
      }
      HeadersSnoc(hs, i);
      list := list + [TrimSpace(kv[0]), TrimSpace(kv[1])];
      i := i + 1;
    }
    assert hs[..i] == hs;
    assert AllWellFormed(hs);
    return Ok(list);
  }

  /** The flat list read two at a time as (name, value) pairs. */
  function Pairs(kvs: seq<string>): (r: seq<(string, string)>)
    requires |kvs| % 2 == 0
    ensures |r| == |kvs| / 2
    ensures forall i :: 0 <= i < |r| ==> r[i] == (kvs[2 * i], kvs[2 * i + 1])
    decreases |kvs|
  {
    if kvs == [] then [] else [(kvs[0], kvs[1])] + Pairs(kvs[2..])
  }

  /** Reading a flat list two at a time gives back the headers it was made from. */
  lemma PairsOfFlatten(ps: seq<(string, string)>)
    ensures |Flatten(ps)| % 2 == 0
    ensures Pairs(Flatten(ps)) == ps
  {
    FlattenAt(ps);
  }

  /** Adds the pairs of a flat list to the request, in order. */
  method AddAll(kvs: seq<string>, req: Http.Request)
    requires |kvs| % 2 == 0
    modifies req`headers
    ensures req.headers == old(req.headers) + Pairs(kvs)
  {
    var i := 0;
    while i < |kvs|
      invariant 0 <= i <= |kvs| && i % 2 == 0
      invariant req.headers == old(req.headers) + Pairs(kvs[..i])
    {
      PairsStep(kvs, i);
      req.AddHeader(kvs[i], kvs[i + 1]);
      i := i + 2;
    }
    assert kvs[..i] == kvs;
  }

  /** Two more elements of the flat list make one more pair. */
  lemma PairsStep(kvs: seq<string>, i: nat)
    requires i % 2 == 0 && i + 2 <= |kvs|
    ensures Pairs(kvs[..i + 2]) == Pairs(kvs[..i]) + [(kvs[i], kvs[i + 1])]
  {
    PairsAppend(kvs[..i], kvs[i], kvs[i + 1]);
    assert kvs[..i + 2] == kvs[..i] + [kvs[i], kvs[i + 1]];
  }

  lemma {:induction false} PairsAppend(kvs: seq<string>, k: string, v: string)
    requires |kvs| % 2 == 0
    ensures Pairs(kvs + [k, v]) == Pairs(kvs) + [(k, v)]
    decreases |kvs|
  {
    if kvs != [] {
      assert (kvs + [k, v])[2..] == kvs[2..] + [k, v];
      PairsAppend(kvs[2..], k, v);
    } else {
      assert Pairs([k, v]) == [(k, v)] + Pairs([]);
    }
  }

  /** `writeToFasthttp`: a header parse error is returned before any header is added; otherwise
      one header per entry is appended, in list order. */
  method WriteToFasthttp(hs: seq<string>, req: Http.Request) returns (err: Option<string>)
    modifies req`headers
    ensures err.Some? <==> !AllWellFormed(hs)
    ensures err.Some? ==> err.value == ParseError(hs[FirstBad(hs)]) && req.headers == old(req.headers)
    ensures err.None? ==> req.headers == old(req.headers) + Headers(hs)
  {
    var kvs := Kvs(hs);
    if kvs.Err? {
      return Some(kvs.error);
    }
    PairsOfFlatten(Headers(hs));
    AddAll(kvs.value, req);
    return None;
  }
}
