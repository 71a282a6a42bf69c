/** The load-test configuration of `pit/config.go` and the request template it builds: the
    body from the extra arguments (JSON or form), the body source (flag, file or arguments), the
    request line, the headers, and the redirect limit.

    URI parsing is not modelled (the target URL is given as its scheme and host), the form
    escaping of fasthttp's `Args` is the parameter `escape`, a table from each byte it rewrites to
    what it writes instead, and reading a file is the parameter
    `readFile`. */
module PitConfig {
  import opened Wrappers
  import opened Text
  import Http
  import Net
  import PitHeader

  /** `defaultMaxRedirects`, 30 as the `MaxRedirects` field's comment says. */
  const DefaultMaxRedirects := 30

  /** The content types set for JSON and form bodies (`MIMEApplicationJSON`,
      `MIMEApplicationForm`). */
  const MimeApplicationJson := "application/json"
  const MimeApplicationForm := "application/x-www-form-urlencoded"

  const MethodPost := "POST"

  // ---------------------------------------------------------------- addresses

  /** `addMissingPort`: the address unchanged when it holds a colon, else with port 443 for
      TLS and 80 otherwise. */
  function AddMissingPort(addr: string, isTLS: bool): (r: string)
    ensures ':' in addr ==> r == addr
    ensures ':' !in addr ==> r == addr + ":" + (if isTLS then "443" else "80")
  {
    IndexOfChar(addr, ':');
    var n := Index(addr, ":");
    if n >= 0 then addr
    else Net.JoinHostPort(addr, Net.DefaultPort(isTLS))
  }

  /** The result always has a port, so adding the missing port twice is adding it once. */
  lemma AddMissingPortIdempotent(addr: string, isTLS: bool, isTLS': bool)
    ensures ':' in AddMissingPort(addr, isTLS)
    ensures AddMissingPort(AddMissingPort(addr, isTLS), isTLS') == AddMissingPort(addr, isTLS)
  {
    var r := AddMissingPort(addr, isTLS);
    if ':' !in addr {
      assert r[|addr|] == ':';
    }
  }

  // ---------------------------------------------------------------- arguments

  /** The loop of `parseArgs` that decides the encoding: an argument keeps JSON possible when it
      has both a `=` and a `:=` and its first `=` is not before its first `:=`. */
  predicate IsJsonArg(arg: string) {
    var formEqual := Index(arg, "=");
    var jsonEqual := Index(arg, ":=");
    !(formEqual == -1 || jsonEqual == -1 || formEqual < jsonEqual)
  }

  /** An argument is a JSON argument exactly when it contains `:=` and no `=` comes before its
      first `:=`. */
  lemma IsJsonArgIff(arg: string)
    ensures IsJsonArg(arg) <==> Index(arg, ":=") >= 0 && '=' !in arg[..Index(arg, ":=")]
  {
    var f, j := Index(arg, "="), Index(arg, ":=");
    IndexOfChar(arg, '=');
    assert "=" == ['='];
    if j >= 0 {
      assert OccursAt(arg, ":=", j);
      assert arg[j..j + 2] == ":=";
      assert arg[j + 1] == '=';
      if '=' in arg[..j] {
        var k :| 0 <= k < j && arg[..j][k] == '=';
        assert arg[k] == '=';
      }
      if f >= 0 && f < j {
        assert arg[..j][f] == '=';
      }
    }
  }

  /** Every argument is a JSON argument. */
  predicate AllJson(args: seq<string>) {
    forall i :: 0 <= i < |args| ==> IsJsonArg(args[i])
  }

  /** The position of the first `:=` of a JSON argument. */
  function JsonSplit(arg: string): (i: nat)
    requires IsJsonArg(arg)
    ensures i + 2 <= |arg| && arg[i..i + 2] == ":="
  {
    Index(arg, ":=")
  }

  /** The trimmed key and value of a JSON argument: the text before and after its first `:=`. */
  function JsonKey(arg: string): string
    requires IsJsonArg(arg)
  {
    TrimSpace(arg[..JsonSplit(arg)])
  }

  function JsonValue(arg: string): string
    requires IsJsonArg(arg)
  {
    TrimSpace(arg[JsonSplit(arg) + 2..])
  }

  /** A value as it is written into the JSON body: in quotes exactly when `needQuote` says so. */
  function Quoted(v: string): (r: string)
    ensures NeedQuote(v) ==> r == "\"" + v + "\""
    ensures !NeedQuote(v) ==> r == v
  {
    if NeedQuote(v) then "\"" + v + "\"" else v
  }

  /** The JSON member an argument becomes: `"key":value`. */
  function JsonMember(arg: string): string
    requires IsJsonArg(arg)
  {
    "\"" + JsonKey(arg) + "\":" + Quoted(JsonValue(arg))
  }

  function JsonMembers(args: seq<string>): (r: seq<string>)
    requires AllJson(args)
    ensures |r| == |args| && forall i :: 0 <= i < |args| ==> r[i] == JsonMember(args[i])
  {
    seq(|args|, i requires 0 <= i < |args| => JsonMember(args[i]))
  }

  /** The JSON body the arguments give: their members in argument order, separated by commas,
      in braces. */
  function JsonBody(args: seq<string>): string
    requires AllJson(args)
  {
    "{" + Join(JsonMembers(args), ",") + "}"
  }

  /** An argument `a:=b` whose `a` has no `=` is a JSON argument split at that `:=`. */
  lemma JsonArgOfParts(a: string, b: string)
    requires '=' !in a
    ensures IsJsonArg(a + ":=" + b)
    ensures JsonKey(a + ":=" + b) == TrimSpace(a) && JsonValue(a + ":=" + b) == TrimSpace(b)
  {
    var arg := a + ":=" + b;
    assert arg[|a|..|a| + 2] == ":=";
    assert OccursAt(arg, ":=", |a|);
    forall j | 0 <= j < |a| ensures !OccursAt(arg, ":=", j) {
      assert arg[j + 1] == arg[j..j + 2][1];
      if j + 1 < |a| {
        assert arg[j + 1] == a[j + 1];
      }
    }
    assert Index(arg, ":=") == |a|;
    assert arg[..|a|] == a;
    assert arg[|a| + 2..] == b;
    IsJsonArgIff(arg);
  }

  /** One JSON argument gives the body `{"key":value}`. */
  lemma JsonBodyOfOne(arg: string)
    requires IsJsonArg(arg)
    ensures JsonBody([arg]) == "{" + JsonMember(arg) + "}"
  {
    var ms := JsonMembers([arg]);
    assert |ms| == 1;
    assert Join(ms, ",") == ms[0];
    assert ms[0] == JsonMember(arg);
  }

  /** The first `n` of the parts `ms` as `parseArgs` writes them: each followed by a comma
      unless it is the last of all. */
  function Written(ms: seq<string>, n: nat): string
    requires n <= |ms|
  {
    Join(ms[..n], ",") + (if 0 < n < |ms| then "," else "")
  }

  lemma WrittenStep(ms: seq<string>, n: nat)
    requires n < |ms|
    ensures Written(ms, n + 1) == Written(ms, n) + ms[n] + (if n < |ms| - 1 then "," else "")
  {
    assert ms[..n + 1] == ms[..n] + [ms[n]];
    JoinSnoc(ms[..n], ms[n], ",");
  }

  /** All parts written is all parts joined by commas. */
  lemma WrittenAll(ms: seq<string>)
    ensures Written(ms, |ms|) == Join(ms, ",")
  {
    assert ms[..|ms|] == ms;
  }

  /** A form argument: a key without a value, or a key and a value. */
  datatype FormArg = NoValue(key: string) | KeyValue(key: string, value: string)

  /** The form argument `parseArgs` adds for an argument: split at its first `=` with both sides
      trimmed, or the trimmed argument as a key without value when it has no `=`. */
  function FormArgOf(arg: string): (r: FormArg)
    ensures '=' !in arg ==> r == NoValue(TrimSpace(arg))
  {
    IndexOfChar(arg, '=');
    assert "=" == ['='];
    var i := Index(arg, "=");
    if i == -1 then NoValue(TrimSpace(arg))
    else KeyValue(TrimSpace(arg[..i]), TrimSpace(arg[i + 1..]))
  }

  /** An argument `a=b` whose `a` has no `=` is split at that first `=`; any later `=` stays in
      the value. */
  lemma FormArgOfParts(a: string, b: string)
    requires '=' !in a
    ensures FormArgOf(a + "=" + b) == KeyValue(TrimSpace(a), TrimSpace(b))
  {
    var arg := a + "=" + b;
    IndexOfChar(arg, '=');
    assert "=" == ['='];
    assert arg[|a|] == '=';
    assert arg[..|a|] == a;
    assert arg[|a| + 1..] == b;
  }

  function FormArgs(args: seq<string>): (r: seq<FormArg>)
    ensures |r| == |args| && forall i :: 0 <= i < |args| ==> r[i] == FormArgOf(args[i])
  {
    PitHeader.MapSeq(FormArgOf, args)
  }

  /** fasthttp's query escaping with the table `escape`: each byte in the table is replaced by
      its entry, every other byte is written as itself. */
  function Escape(s: string, escape: map<char, string>): (r: string)
    ensures escape == map[] ==> r == s
    ensures (forall c :: c in s ==> c !in escape) ==> r == s
    decreases |s|
  {
    if s == [] then []
    else (if s[0] in escape then escape[s[0]] else [s[0]]) + Escape(s[1..], escape)
  }

  /** One form argument as `Args.AppendBytes` writes it: the escaped key, then `=` and the
      escaped value unless it has no value; an empty value is written as nothing after `=`. */
  function FormItem(a: FormArg, escape: map<char, string>): string {
    match a
    case NoValue(k) => Escape(k, escape)
    case KeyValue(k, v) => Escape(k, escape) + "=" + (if v == "" then "" else Escape(v, escape))
  }

  function FormItems(fas: seq<FormArg>, escape: map<char, string>): (r: seq<string>)
    ensures |r| == |fas| && forall i :: 0 <= i < |fas| ==> r[i] == FormItem(fas[i], escape)
  {
    seq(|fas|, i requires 0 <= i < |fas| => FormItem(fas[i], escape))
  }

  lemma FormArgsSnoc(args: seq<string>, j: nat)
    requires j < |args|
    ensures FormArgs(args[..j + 1]) == FormArgs(args[..j]) + [FormArgOf(args[j])]
  {
    PitHeader.MapSnoc(FormArgOf, args, j);
  }

  /** The form body of the arguments: their items in order, separated by `&`. */
  function FormBody(args: seq<string>, escape: map<char, string>): string {
    Join(FormItems(FormArgs(args), escape), "&")
  }

  /** Escaping a concatenation escapes each part. */
  lemma {:induction false} EscapeAppend(a: string, b: string, escape: map<char, string>)
    ensures Escape(a + b, escape) == Escape(a, escape) + Escape(b, escape)
    decreases |a|
  {
    if a != [] {
      assert (a + b)[0] == a[0] && (a + b)[1..] == a[1..] + b;
      EscapeAppend(a[1..], b, escape);
    } else {
      assert a + b == b;
    }
  }

  /** A string with no white space at either end is its own trimmed form. */
  lemma TrimmedAlready(s: string)
    requires s != [] && !IsSpace(s[0]) && !IsSpace(s[|s| - 1])
    ensures TrimSpace(s) == s
  {
    assert LeadingSpace(s) == 0;
    var r := TrimSpace(s);
    assert |r| == |s| by {
      assert !IsSpace(s[|s| - 1]);
    }
  }

  /** The body of a single argument is its one item. */
  lemma FormBodyOfOne(arg: string, escape: map<char, string>)
    ensures FormBody([arg], escape) == FormItem(FormArgOf(arg), escape)
  {
    var fa := FormArgOf(arg);
    assert FormArgs([arg]) == [fa];
    assert FormItems([fa], escape) == [FormItem(fa, escape)];
  }

  /** Escaping `v1=v2`, where only `=` is in the table, escapes exactly that `=`. */
  lemma EscapeOneEquals(v1: string, v2: string, escape: map<char, string>)
    requires '=' in escape && forall c :: c in v1 + v2 ==> c !in escape
    ensures Escape(v1 + "=" + v2, escape) == v1 + escape['='] + v2
  {
    assert Escape(v1, escape) == v1 && Escape(v2, escape) == v2;
    assert Escape("=", escape) == escape['='] by {
      assert "="[1..] == [];
    }
    EscapeAppend(v1, "=", escape);
    EscapeAppend(v1 + "=", v2, escape);
  }

  /** An argument `k=v1=v2` whose key has no `=` and no white space at the ends, and whose
      value `v1=v2` has none at its ends either, is the key `k` with the value `v1=v2`. */
  lemma FormArgOfTwoEquals(k: string, v1: string, v2: string)
    requires '=' !in k && k != [] && !IsSpace(k[0]) && !IsSpace(k[|k| - 1])
    requires v1 != [] && !IsSpace(v1[0]) && v2 != [] && !IsSpace(v2[|v2| - 1])
    ensures FormArgOf(k + "=" + v1 + "=" + v2) == KeyValue(k, v1 + "=" + v2)
  {
    var v := v1 + "=" + v2;
    assert k + "=" + v1 + "=" + v2 == k + "=" + v;
    FormArgOfParts(k, v);
    TrimmedAlready(k);
    assert v[0] == v1[0] && v[|v| - 1] == v2[|v2| - 1];
    TrimmedAlready(v);
  }

  /** An argument `k=v1=v2` whose parts have no `=`, no character the table escapes and no
      white space at the ends is written as `k`, `=`, `v1`, the escaped `=`, `v2`. */
  lemma FormOfTwoEquals(k: string, v1: string, v2: string, escape: map<char, string>)
    requires '=' !in k && '=' in escape
    requires forall c :: c in k + v1 + v2 ==> c !in escape
    requires k != [] && !IsSpace(k[0]) && !IsSpace(k[|k| - 1])
    requires v1 != [] && !IsSpace(v1[0]) && v2 != [] && !IsSpace(v2[|v2| - 1])
    ensures FormBody([k + "=" + v1 + "=" + v2], escape) == k + "=" + (v1 + escape['='] + v2)
  {
    var arg := k + "=" + v1 + "=" + v2;
    FormArgOfTwoEquals(k, v1, v2);
    assert Escape(k, escape) == k;
    assert forall c :: c in v1 + v2 ==> c !in escape by {
      assert forall c :: c in v1 + v2 ==> c in k + v1 + v2;
    }
    EscapeOneEquals(v1, v2, escape);
    FormBodyOfOne(arg, escape);
  }

  /** The form test: with `=` escaped as `%3D`, `foo=bar=baz` is split at its first `=` and
      written `foo=bar%3Dbaz`. */
  lemma FormEscapesLaterEquals()
    ensures FormBody(["foo" + "=" + "bar" + "=" + "baz"], map['=' := "%3D"]) == "foo" + "=" + ("bar" + "%3D" + "baz")
  {
    var m := map['=' := "%3D"];
    assert forall c :: c in "foo" + "bar" + "baz" ==> c !in m;
    FormOfTwoEquals("foo", "bar", "baz", m);
  }

  // ---------------------------------------------------------------- needQuote

  predicate IsDigit(c: char) {
    '0' <= c <= '9'
  }

  /** One or more decimal digits. */
  predicate IsDigits(s: string) {
    |s| > 0 && forall i :: 0 <= i < |s| ==> IsDigit(s[i])
  }

  /** `s` without one leading `+` or `-`. */
  function Unsigned(s: string): string {
    if |s| > 0 && (s[0] == '+' || s[0] == '-') then s[1..] else s
  }

  /** The strings `strconv.Atoi` accepts, ignoring its range check: an optional sign and one or
      more decimal digits. */
  predicate IsGoInt(s: string) {
    IsDigits(Unsigned(s))
  }

  predicate IsExponentMark(c: char) {
    c == 'e' || c == 'E'
  }

  /** The position of the first `e` or `E`, or `|s|`. */
  function ExponentAt(s: string): (k: nat)
    ensures k <= |s| && (k < |s| ==> IsExponentMark(s[k]))
    ensures forall j :: 0 <= j < k ==> !IsExponentMark(s[j])
  {
    if s == [] then 0
    else if IsExponentMark(s[0]) then 0
    else
      var k := 1 + ExponentAt(s[1..]);
      assert forall j :: 1 <= j < k ==> s[j] == s[1..][j - 1];
      k
  }

  /** A decimal mantissa: digits with at most one `.`, and at least one digit. */
  predicate IsMantissa(m: string) {
    && (forall i :: 0 <= i < |m| ==> IsDigit(m[i]) || m[i] == '.')
    && multiset(m)['.'] <= 1
    && |m| > multiset(m)['.']
  }

  /** The decimal strings `strconv.ParseFloat` accepts: an optional sign, a mantissa, and an
      optional exponent `e` or `E` with an optional sign and one or more digits. */
  predicate IsDecimalFloat(s: string) {
    var u := Unsigned(s);
    DecimalParts(u, ExponentAt(u))
  }

  /** `u` split at `k` is a mantissa, then nothing or an exponent mark and a signed exponent. */
  predicate DecimalParts(u: string, k: nat)
    requires k <= |u|
  {
    IsMantissa(u[..k]) && (k == |u| || IsDigits(Unsigned(u[k + 1..])))
  }

  /** The special values `strconv.ParseFloat` accepts, in any case: `inf` or `infinity` with an
      optional sign, and `nan` without one. */
  predicate IsSpecialFloat(s: string) {
    ToLower(Unsigned(s)) == "inf" || ToLower(Unsigned(s)) == "infinity" || ToLower(s) == "nan"
  }

  predicate IsGoFloat(s: string) {
    IsDecimalFloat(s) || IsSpecialFloat(s)
  }

  /** Every integer `Atoi` accepts is also a float, so the range check of `Atoi` never decides
      `needQuote`. */
  lemma IntIsFloat(s: string)
    requires IsGoInt(s)
    ensures IsGoFloat(s)
  {
    var u := Unsigned(s);
    var k := ExponentAt(u);
    assert u[..k] == u;
    assert multiset(u)['.'] == 0;
  }

  /** `needQuote`: whether a JSON value must be written in quotes. Booleans in any case,
      integers, floats, and bracketed or braced values of two bytes or more are written bare. */
  function NeedQuote(v: string): (b: bool)
    ensures !b <==> (|| ToLower(v) == "false" || ToLower(v) == "true" || IsGoInt(v) || IsGoFloat(v)
                     || (|v| >= 2 && ((v[0] == '[' && v[|v| - 1] == ']') || (v[0] == '{' && v[|v| - 1] == '}'))))
  {
    var vv := ToLower(v);
    if vv == "false" || vv == "true" then false
    else if IsGoInt(v) then false
    else if IsGoFloat(v) then false
    else
      var l := |v|;
      if l <= 1 then true
      else if (v[0] == '[' && v[l - 1] == ']') || (v[0] == '{' && v[l - 1] == '}') then false
      else true
  }

  /** A value of at most one byte is quoted unless it is a number. */
  lemma ShortValuesQuoted(v: string)
    requires |v| <= 1 && !IsGoInt(v) && !IsGoFloat(v)
    ensures NeedQuote(v)
  {
    assert |ToLower(v)| == |v|;
  }

  /** The empty value is quoted. */
  lemma EmptyQuoted()
    ensures NeedQuote("")
  {
    assert ExponentAt("") == 0;
  }

  /** `False` is a boolean, whatever its case. */
  lemma FalseUnquoted()
    ensures !NeedQuote("False")
  {
    assert ToLower("False") == "false";
  }

  /** Stripping the sign keeps every byte that is not a sign. */
  lemma UnsignedKeeps(s: string, j: nat)
    requires j < |s| && s[j] != '+' && s[j] != '-'
    ensures j >= |s| - |Unsigned(s)| && Unsigned(s)[j - (|s| - |Unsigned(s)|)] == s[j]
  {
  }

  /** A byte before the exponent that is no digit and no dot spoils the mantissa. */
  lemma StrayInMantissa(u: string, k: nat, j: nat)
    requires j < k <= |u| && !IsDigit(u[j]) && u[j] != '.'
    ensures !DecimalParts(u, k)
  {
    assert u[..k][j] == u[j];
  }

  /** A byte that is no digit and no sign survives the sign being dropped, so the rest is not
      all digits. */
  lemma StrayNotDigits(e: string, m: nat)
    requires m < |e| && !IsDigit(e[m]) && e[m] != '+' && e[m] != '-'
    ensures !IsDigits(Unsigned(e))
  {
    UnsignedKeeps(e, m);
  }

  /** A byte after the exponent mark that is no digit and no sign spoils the exponent. */
  lemma StrayInExponent(u: string, k: nat, j: nat)
    requires k < j < |u| && !IsDigit(u[j]) && u[j] != '+' && u[j] != '-'
    ensures !DecimalParts(u, k)
  {
    var e := u[k + 1..];
    assert e[j - k - 1] == u[j];
    StrayNotDigits(e, j - k - 1);
  }

  /** Without its sign, a value with a stray byte at `j` has no mantissa-and-exponent split. */
  lemma StrayInUnsigned(u: string, j: nat)
    requires j < |u| && !IsDigit(u[j]) && u[j] != '.' && u[j] != '+' && u[j] != '-'
    requires !IsExponentMark(u[j])
    ensures !DecimalParts(u, ExponentAt(u))
  {
    var k := ExponentAt(u);
    if j < k {
      StrayInMantissa(u, k, j);
    } else {
      assert j != k;
      StrayInExponent(u, k, j);
    }
  }

  /** A byte that is no digit, dot, sign or exponent mark rules out every decimal number. */
  lemma StrayByteNotDecimal(v: string, i: nat)
    requires i < |v| && !IsDigit(v[i]) && v[i] != '.' && v[i] != '+' && v[i] != '-'
    requires !IsExponentMark(v[i])
    ensures !IsGoInt(v) && !IsDecimalFloat(v)
  {
    StrayNotDigits(v, i);
    UnsignedKeeps(v, i);
    var u := Unsigned(v);
    StrayInUnsigned(u, i - (|v| - |u|));
  }

  /** A value that starts with a digit is no boolean, special float or bracketed value, so it
      is quoted unless it is a decimal number. */
  lemma DigitFirstQuoted(v: string)
    requires |v| > 0 && IsDigit(v[0]) && !IsGoInt(v) && !IsDecimalFloat(v)
    ensures NeedQuote(v)
  {
    assert ToLower(v)[0] == v[0];
    assert Unsigned(v) == v;
  }

  /** `1aa` is neither an integer nor a float. */
  lemma LettersQuoted()
    ensures NeedQuote("1aa")
  {
    StrayByteNotDecimal("1aa", 1);
    DigitFirstQuoted("1aa");
  }

  /** A mantissa has at most one dot. */
  lemma TwoDotsNotMantissa(m: string, i: nat, j: nat)
    requires i < j < |m| && m[i] == '.' && m[j] == '.'
    ensures !IsMantissa(m)
  {
    assert m == m[..j] + m[j..];
    assert m[..j] == m[..i] + m[i..j];
    assert m[i..j][0] == '.';
    assert m[j..][0] == '.';
    assert multiset(m[i..j])['.'] >= 1;
    assert multiset(m[j..])['.'] >= 1;
    assert multiset(m) == multiset(m[..i]) + multiset(m[i..j]) + multiset(m[j..]);
  }

  /** A value starting with a digit with two dots before any exponent mark is no number. */
  lemma TwoDotsNotDecimal(v: string, i: nat, j: nat)
    requires i < j < |v| && IsDigit(v[0]) && v[i] == '.' && v[j] == '.'
    requires forall k :: 0 <= k <= j ==> !IsExponentMark(v[k])
    ensures !IsGoInt(v) && !IsDecimalFloat(v)
  {
    assert Unsigned(v) == v;
    var e := ExponentAt(v);
    assert e > j;
    assert v[..e][i] == '.' && v[..e][j] == '.';
    TwoDotsNotMantissa(v[..e], i, j);
  }

  /** `1.1.1` has two dots, so it is no float. */
  lemma TwoDotsQuoted()
    ensures NeedQuote("1.1.1")
  {
    TwoDotsNotDecimal("1.1.1", 1, 3);
    DigitFirstQuoted("1.1.1");
  }

  /** `1.1` is a float. */
  lemma DecimalUnquoted()
    ensures !NeedQuote("1.1")
  {
    OneDotOneIsDecimal();
    assert IsGoFloat("1.1");
  }

  lemma OneDotOneIsDecimal()
    ensures IsDecimalFloat("1.1")
  {
    var v := "1.1";
    assert Unsigned(v) == v;
    assert ExponentAt(v) == 3 by { assert !IsExponentMark(v[0]) && !IsExponentMark(v[1]) && !IsExponentMark(v[2]); }
    assert v[..3] == v;
    OneDotOneIsMantissa();
  }

  lemma OneDotOneIsMantissa()
    ensures IsMantissa("1.1")
  {
    var v := "1.1";
    assert v == ['1'] + ['.'] + ['1'];
    assert multiset(v)['.'] == 1;
  }

  /** `[1]` is an array. */
  lemma ArrayUnquoted()
    ensures !NeedQuote("[1]")
  {
  }

  /** The loop of `parseArgs` that decides between JSON and form. */
  method DecideJson(args: seq<string>) returns (isJson: bool)
    ensures isJson == AllJson(args)
  {
    isJson := true;
    var i := 0;
    while i < |args|
      invariant 0 <= i <= |args|
      invariant isJson == AllJson(args[..i])
    {
      var arg := args[i];
      var formEqualIndex := Index(arg, "=");
      var jsonEqualIndex := Index(arg, ":=");
      if formEqualIndex == -1 || jsonEqualIndex == -1 || formEqualIndex < jsonEqualIndex {
        isJson := false;
      }
      assert args[..i + 1] == args[..i] + [arg];
      i := i + 1;
    }
    assert args[..i] == args;
  }

  /** The JSON branch of `parseArgs`: `{`, then each argument's member followed by a comma
      unless it is the last, then `}`. */
  method EncodeJson(args: seq<string>) returns (out: string)
    requires AllJson(args)
    ensures out == JsonBody(args)
  {
    ghost var ms := JsonMembers(args);
    var written := "";
    var i := 0;
    while i < |args|
      invariant 0 <= i <= |args|
      invariant written == Written(ms, i)
    {
      var member := JsonMember(args[i]);
      WrittenStep(ms, i);
      written := written + member;
      if i < |args| - 1 {
        written := written + ",";
      }
      i := i + 1;
    }
    WrittenAll(ms);
    out := "{" + written + "}";
  }

  /** The form branch of `parseArgs`: the form arguments collected in order, then written
      separated by `&`. */
  method EncodeForm(args: seq<string>, escape: map<char, string>) returns (out: string)
    ensures out == FormBody(args, escape)
  {
    var formArgs: seq<FormArg> := [];
    var j := 0;
    while j < |args|
      invariant 0 <= j <= |args|
      invariant formArgs == FormArgs(args[..j])
    {
      FormArgsSnoc(args, j);
      formArgs := formArgs + [FormArgOf(args[j])];
      j := j + 1;
    }
    assert args[..j] == args;
    out := Join(FormItems(formArgs, escape), "&");
  }

  // ---------------------------------------------------------------- the configuration

  /** The redirect limit: none without `Follow`, the default when `MaxRedirects` is not
      positive, `MaxRedirects` otherwise. */
  function RedirectLimit(follow: bool, maxRedirects: int): (n: int)
    ensures n >= 0
    ensures n > 0 <==> follow
    ensures !follow ==> n == 0
    ensures follow && maxRedirects <= 0 ==> n == DefaultMaxRedirects
    ensures follow && maxRedirects > 0 ==> n == maxRedirects
  {
    if !follow then 0
    else
      var n := maxRedirects;
      if n <= 0 then DefaultMaxRedirects else n
  }

  /** What `setReqBody` leaves in the template body and returns: a non-empty `File` wins over a
      non-empty `Body`, which wins over what the arguments built; a failed read leaves the body
      empty and is returned. */
  function BodySource(Body: string, File: string, built: string, readFile: string -> Result<string>): (r: (string, Option<string>))
    ensures File != "" && readFile(File).Ok? ==> r == (readFile(File).value, None)
    ensures File != "" && readFile(File).Err? ==> r == ("", Some(readFile(File).error))
    ensures File == "" && Body != "" ==> r == (Body, None)
    ensures File == "" && Body == "" ==> r == (built, None)
  {
    var body := if Body != "" then Body else built;
    if File != "" then
      match readFile(File)
      case Ok(content) => (content, None)
      case Err(e) => ("", Some(e))
    else (body, None)
  }

  /** The content type `setReqHeader` leaves: the form type when `Form` is set, even with
      `JSON`, then the JSON type, else the old one. */
  function ContentTypeFor(json: bool, form: bool, current: string): (t: string)
    ensures form ==> t == MimeApplicationForm
    ensures json && !form ==> t == MimeApplicationJson
    ensures !json && !form ==> t == current
  {
    var t := if json then MimeApplicationJson else current;
    if form then MimeApplicationForm else t
  }

  /** The error for a scheme other than `http` and `https`; `%q` is modelled as plain double
      quotes. */
  function UnsupportedProtocol(scheme: string): string {
    "unsupported protocol \"" + scheme + "\". http and https are supported"
  }

  /** The fields of `Config` that the request template reads or writes. */
  class Config {
    var Method: string
    /** The target URL, already parsed. */
    var Url: Http.Uri
    var Args: seq<string>
    var Headers: seq<string>
    var Host: string
    var DisableKeepAlives: bool
    var Body: string
    var File: string
    var Stream: bool
    var JSON: bool
    var Form: bool
    var Follow: bool
    var MaxRedirects: int
    /** The unexported body bytes, built by `parseArgs` and `setReqBody`. */
    var body: string
    var isTLS: bool
    var addr: string

    /** A configuration with the given settings and nothing derived yet. */
    constructor (Method: string, Url: Http.Uri, Args: seq<string>, Headers: seq<string>, Host: string,
                 DisableKeepAlives: bool, Body: string, File: string, Stream: bool, JSON: bool, Form: bool,
                 Follow: bool, MaxRedirects: int)
      ensures this.Method == Method && this.Url == Url && this.Args == Args && this.Headers == Headers
      ensures this.Host == Host && this.DisableKeepAlives == DisableKeepAlives && this.Body == Body
      ensures this.File == File && this.Stream == Stream && this.JSON == JSON && this.Form == Form
      ensures this.Follow == Follow && this.MaxRedirects == MaxRedirects
      ensures body == "" && !isTLS && addr == ""
    {
      this.Method, this.Url, this.Args, this.Headers, this.Host := Method, Url, Args, Headers, Host;
      this.DisableKeepAlives, this.Body, this.File, this.Stream := DisableKeepAlives, Body, File, Stream;
      this.JSON, this.Form, this.Follow, this.MaxRedirects := JSON, Form, Follow, MaxRedirects;
      body, isTLS, addr := "", false, "";
    }

    /** `getMaxRedirects`. */
    function GetMaxRedirects(): (n: int)
      reads this
      ensures n == RedirectLimit(Follow, MaxRedirects)
    {
      RedirectLimit(Follow, MaxRedirects)
    }

    /** `parseArgs`: nothing without arguments; JSON when every argument is a JSON argument,
        which sets `JSON` and keeps the method; form otherwise, which sets `Form` and the
        method POST. The body is appended to what is already there. */
    method ParseArgs(escape: map<char, string>)
      modifies this`body, this`JSON, this`Form, this`Method
      ensures |Args| == 0 ==> body == old(body) && JSON == old(JSON) && Form == old(Form) && Method == old(Method)
      ensures |Args| > 0 && AllJson(Args) ==>
        && JSON && body == old(body) + JsonBody(Args) && Form == old(Form) && Method == old(Method)
      ensures |Args| > 0 && !AllJson(Args) ==>
        && Form && Method == MethodPost && body == old(body) + FormBody(Args, escape) && JSON == old(JSON)
    {
      if |Args| == 0 {
        return;
      }
      var isJson := DecideJson(Args);
      if isJson {
        ParseJsonArgs();
      } else {
        ParseFormArgs(escape);
      }
    }

    /** The JSON branch of `parseArgs`. */
    method ParseJsonArgs()
      requires AllJson(Args)
      modifies this`body, this`JSON
      ensures JSON && body == old(body) + JsonBody(Args)
    {
      JSON := true;
      var out := EncodeJson(Args);
      body := body + out;
    }

    /** The form branch of `parseArgs`. */
    method ParseFormArgs(escape: map<char, string>)
      modifies this`body, this`Form, this`Method
      ensures Form && Method == MethodPost && body == old(body) + FormBody(Args, escape)
    {
      Form := true;
      Method := MethodPost;
      var out := EncodeForm(Args, escape);
      body := body + out;
    }

    /** `setReqBasic`: the method and URL go into the template; `https` turns TLS on, `http`
        leaves it as it was, any other scheme is an error returned before the address is set;
        the address is the host with its default port added when it has none. */
    method SetReqBasic(req: Http.Request) returns (err: Option<string>)
      modifies req`verb, req`uri, this`isTLS, this`addr
      ensures req.verb == Method && req.uri == Url
      ensures Url.scheme == "https" ==> err == None && isTLS && addr == AddMissingPort(Url.host, true)
      ensures Url.scheme == "http" ==> err == None && isTLS == old(isTLS) && addr == AddMissingPort(Url.host, isTLS)
      ensures Url.scheme != "https" && Url.scheme != "http" ==>
        err == Some(UnsupportedProtocol(Url.scheme)) && isTLS == old(isTLS) && addr == old(addr)
    {
      req.SetMethod(Method);
      req.SetRequestURI(Url);
      var host := req.uri.host;
      var scheme := req.uri.scheme;
      if scheme == "https" {
        isTLS := true;
      } else if scheme != "http" {
        return Some(UnsupportedProtocol(scheme));
      }
      addr := AddMissingPort(host, isTLS);
      return None;
    }

    /** `setReqBody`: the body source by precedence, set as the template's constant body
        unless the body is streamed; a file error is returned after that. */
    method SetReqBody(req: Http.Request, readFile: string -> Result<string>) returns (err: Option<string>)
      modifies this`body, req`body
      ensures (body, err) == BodySource(Body, File, old(body), readFile)
      ensures !Stream ==> req.body == body
      ensures Stream ==> req.body == old(req.body)
    {
      err := None;
      if Body != "" {
        body := Body;
      }
      if File != "" {
        match readFile(File)
        case Ok(content) =>
          body := content;
        case Err(e) =>
          body, err := "", Some(e);
      }
      if !Stream {
        req.SetBody(body);
      }
    }

    /** `setReqHeader`: a header error is returned before anything else is touched; otherwise
        the headers are added, keep-alive is turned off on request, the host is overridden when
        given, and the content type is set, the form type last. */
    method SetReqHeader(req: Http.Request) returns (err: Option<string>)
      modifies req`headers, req`connectionClose, req`uri, req`contentType
      ensures err.Some? <==> !PitHeader.AllWellFormed(Headers)
      ensures err.Some? ==> err.value == PitHeader.ParseError(Headers[PitHeader.FirstBad(Headers)])
      ensures err.Some? ==> (&& req.headers == old(req.headers) && req.connectionClose == old(req.connectionClose)
                             && req.uri == old(req.uri) && req.contentType == old(req.contentType))
      ensures err.None? ==> req.headers == old(req.headers) + PitHeader.Headers(Headers)
      ensures err.None? ==> req.connectionClose == (old(req.connectionClose) || DisableKeepAlives)
      ensures err.None? ==> req.uri == if Host != "" then old(req.uri).(host := Host) else old(req.uri)
      ensures err.None? ==> req.contentType == ContentTypeFor(JSON, Form, old(req.contentType))
    {
      err := PitHeader.WriteToFasthttp(Headers, req);
      if err.Some? {
        return;
      }
      if DisableKeepAlives {
        req.SetConnectionClose();
      }
      if Host != "" {
        req.SetHost(Host);
      }
      if JSON {
        req.SetContentType(MimeApplicationJson);
      }
      if Form {
        req.SetContentType(MimeApplicationForm);
      }
    }
  }

  /** Without `Follow` there are no redirects, and with it there is at least one. */
  lemma RedirectsIffFollow(c: Config)
    ensures c.GetMaxRedirects() == 0 <==> !c.Follow
  {
  }
}
