/** The header list of the GUI-side client, `internal/header.go`: the same "name:value" entries
    as the load-test header list, but a malformed entry is a panic rather than an error, and the
    headers can also be written to a net/http request. */
module InternalHeader {
  import opened Wrappers
  import opened PitHeader
  import Text
  import Http

  /** `kvs`: the name and value of each entry, in order. A malformed entry panics, so every
      caller must pass well-formed entries. */
  method Kvs(hs: seq<string>) returns (list: seq<string>)
    requires AllWellFormed(hs)
    ensures list == Flatten(Headers(hs))
    ensures HeaderKvs(hs) == Ok(list)
  {
    list := [];
    var i := 0;
    while i < |hs|
      invariant 0 <= i <= |hs|
      invariant list == Flatten(Headers(hs[..i]))
    {
      var kv := Text.Split(hs[i], ':');
      WellFormedIffSplitsInTwo(hs[i]);
      HeadersSnoc(hs, i);
      list := list + [Text.TrimSpace(kv[0]), Text.TrimSpace(kv[1])];
      i := i + 1;
    }
    assert hs[..i] == hs;
  }

  /** `WriteToFasthttp`: one header per entry appended to the request, in list order. */
  method WriteToFasthttp(hs: seq<string>, req: Http.Request)
    requires AllWellFormed(hs)
    modifies req`headers
    ensures req.headers == old(req.headers) + Headers(hs)
  {
    var kvs := Kvs(hs);
    PairsOfFlatten(Headers(hs));
    AddAll(kvs, req);
  }

  /** The values the headers `ps` give the name `k`, in order. */
  function ValuesFor(ps: seq<(string, string)>, k: string): (vs: seq<string>)
    ensures |vs| <= |ps|
    decreases |ps|
  {
    if ps == [] then []
    else ValuesFor(ps[..|ps| - 1], k) + (if ps[|ps| - 1].0 == k then [ps[|ps| - 1].1] else [])
  }

  /** A name that no header carries gets no values, and one that every header carries gets
      them all. */
  lemma {:induction false} ValuesForBounds(ps: seq<(string, string)>, k: string)
    ensures (forall i :: 0 <= i < |ps| ==> ps[i].0 != k) ==> ValuesFor(ps, k) == []
    ensures (forall i :: 0 <= i < |ps| ==> ps[i].0 == k) ==> |ValuesFor(ps, k)| == |ps|
    decreases |ps|
  {
    if ps != [] {
      var init := ps[..|ps| - 1];
      ValuesForBounds(init, k);
      assert forall i :: 0 <= i < |init| ==> init[i] == ps[i];
    }
  }

  /** The headers of the test, `foo: bar` twice and `bar: baz`: both values of `foo` are kept,
      in order, and `bar` has its one value. */
  lemma ValuesForExample()
    ensures ValuesFor([("foo", "bar"), ("foo", "bar"), ("bar", "baz")], "foo") == ["bar", "bar"]
    ensures ValuesFor([("foo", "bar"), ("foo", "bar"), ("bar", "baz")], "bar") == ["baz"]
  {
    var ps := [("foo", "bar"), ("foo", "bar"), ("bar", "baz")];
    assert ps[..2] == [("foo", "bar"), ("foo", "bar")];
    assert ps[..2][..1] == [("foo", "bar")];
    assert ps[..2][..1][..0] == [];
  }

  /** The header map once the headers `ps` are added to it in order. */
  function AddValues(header: map<string, seq<string>>, ps: seq<(string, string)>): map<string, seq<string>>
  {
    FoldPairs(Http.Add, header, ps)
  }

  /** `header` with `add` applied to each of the pairs `ps` in order. */
  function FoldPairs(add: (map<string, seq<string>>, string, string) -> map<string, seq<string>>,
                     header: map<string, seq<string>>, ps: seq<(string, string)>): map<string, seq<string>>
    decreases |ps|
  {
    if ps == [] then header
    else add(FoldPairs(add, header, ps[..|ps| - 1]), ps[|ps| - 1].0, ps[|ps| - 1].1)
  }

  /** Adding headers in order appends to each name exactly the values its headers carry. */
  lemma {:induction false} AddValuesSpec(header: map<string, seq<string>>, ps: seq<(string, string)>, k: string)
    ensures Http.Values(AddValues(header, ps), k) == Http.Values(header, k) + ValuesFor(ps, k)
    decreases |ps|
  {
    if ps != [] {
      AddValuesSpec(header, ps[..|ps| - 1], k);
      Http.AddSpec(AddValues(header, ps[..|ps| - 1]), ps[|ps| - 1].0, ps[|ps| - 1].1, k);
    }
  }

  /** The header map once the flat list `kvs` is added to it two elements at a time. */
  function AddKvs(header: map<string, seq<string>>, kvs: seq<string>): map<string, seq<string>>
    decreases |kvs|
  {
    if |kvs| < 2 then header
    else Http.Add(AddKvs(header, kvs[..|kvs| - 2]), kvs[|kvs| - 2], kvs[|kvs| - 1])
  }

  /** Adding the flat list of some headers two at a time is adding the headers. */
  lemma {:induction false} AddKvsFlatten(header: map<string, seq<string>>, ps: seq<(string, string)>)
    ensures AddKvs(header, Flatten(ps)) == AddValues(header, ps)
    decreases |ps|
  {
    if ps != [] {
      var init := ps[..|ps| - 1];
      AddKvsFlatten(header, init);
      var f := Flatten(ps);
      assert f == Flatten(init) + [ps[|ps| - 1].0, ps[|ps| - 1].1];
      assert f[..|f| - 2] == Flatten(init);
    }
  }

  lemma FlattenEven(ps: seq<(string, string)>)
    ensures |Flatten(ps)| % 2 == 0
  {
    var n := |ps|;
    assert |Flatten(ps)| == 2 * n;
  }

  /** Adds the pairs of a flat list to the net/http request, in order. */
  method AddAllValues(kvs: seq<string>, req: Http.StdRequest)
    requires |kvs| % 2 == 0
    modifies req`header
    ensures req.header == AddKvs(old(req.header), kvs)
  {
    ghost var h0 := req.header;
    ghost var m := |kvs| / 2;
    ghost var n := 0;
    var i := 0;
    while i < |kvs|
      invariant 0 <= n <= m && i == 2 * n && |kvs| == 2 * m
      invariant req.header == AddKvs(h0, kvs[..i])
    {
      assert kvs[..i + 2][..i] == kvs[..i];
      req.AddHeader(kvs[i], kvs[i + 1]);
      i, n := i + 2, n + 1;
    }
    assert kvs[..i] == kvs;
  }

  /** `WriteToHttp`: every name gets the values of its entries appended, in list order; names
      no entry carries keep their values. */
  method WriteToHttp(hs: seq<string>, req: Http.StdRequest)
    requires AllWellFormed(hs)
    modifies req`header
    ensures req.header == AddValues(old(req.header), Headers(hs))
    ensures forall k :: Http.Values(req.header, k) == Http.Values(old(req.header), k) + ValuesFor(Headers(hs), k)
  {
    ghost var h0 := req.header;
    ghost var ps := Headers(hs);
    var kvs := Kvs(hs);
    FlattenEven(ps);
    AddAllValues(kvs, req);
    AddKvsFlatten(h0, ps);
    forall k ensures Http.Values(req.header, k) == Http.Values(h0, k) + ValuesFor(ps, k) {
      AddValuesSpec(h0, ps, k);
    }
  }
}
