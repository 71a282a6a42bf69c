/** The terminal report of `pit/tui.go`: the counters the benchmark feeds it, the message
    handler of the bubbletea program, the clamps of the progress line, the summary statistics
    and the throughput unit.

    Rendering (margins, colours, `%.2f`) is not modelled; float64 values are exact reals, with
    the infinities and NaN of `GoFloat` where a divisor can be zero. `math.Sqrt` is not
    modelled: the summary carries the variance whose square root Go reports. */
module PitTui {
  import opened Wrappers
  import opened Tally
  import GoInt
  import GoFloat

  /** The int message that ends the program. */
  const Done := 1
  const Padding := 2
  const MaxWidth := 66

  // ---------------------------------------------------------------- Update

  /** The messages `Update` tells apart: a key by its name, a window size, an int, anything
      else (the ticks). */
  datatype Msg = KeyMsg(key: string) | WindowSizeMsg(width: int, height: int) | IntMsg(n: int) | OtherMsg

  /** The command `Update` returns: none, `tea.Quit`, or the next tick. */
  datatype Cmd = NoCmd | QuitCmd | TickCmd

  /** The fields `Update` writes: `quitting`, `done` and the progress bar's width. */
  datatype View = View(quitting: bool, done: bool, barWidth: int)

  predicate IsQuitKey(key: string) {
    key == "q" || key == "esc" || key == "ctrl+c"
  }

  /** `Update`: a quit key sets `quitting` and quits, another key does nothing; a window size
      sets the bar width to the width less the padding, at most `MaxWidth`; the int `Done` sets
      `done` and quits, another int does nothing; anything else asks for the next tick. */
  function UpdateStep(s: View, msg: Msg): (r: (View, Cmd))
    ensures msg.KeyMsg? && IsQuitKey(msg.key) ==> r == (s.(quitting := true), QuitCmd)
    ensures msg.KeyMsg? && !IsQuitKey(msg.key) ==> r == (s, NoCmd)
    ensures msg.WindowSizeMsg? ==>
      && r.1 == NoCmd && r.0.quitting == s.quitting && r.0.done == s.done
      && r.0.barWidth <= MaxWidth
      && (r.0.barWidth == msg.width - 8 || r.0.barWidth == MaxWidth)
      && (msg.width - 8 <= MaxWidth ==> r.0.barWidth == msg.width - 8)
    ensures msg.IntMsg? && msg.n == Done ==> r == (s.(done := true), QuitCmd)
    ensures msg.IntMsg? && msg.n != Done ==> r == (s, NoCmd)
    ensures msg.OtherMsg? ==> r == (s, TickCmd)
    ensures r.1 == QuitCmd ==> r.0.quitting || r.0.done
  {
    match msg
    case KeyMsg(key) =>
      if IsQuitKey(key) then (s.(quitting := true), QuitCmd) else (s, NoCmd)
    case WindowSizeMsg(width, _) =>
      var w := width - Padding * 2 - 4;
      (s.(barWidth := if w > MaxWidth then MaxWidth else w), NoCmd)
    case IntMsg(n) =>
      if n == Done then (s.(done := true), QuitCmd) else (s, NoCmd)
    case OtherMsg =>
      (s, TickCmd)
  }

  /** The state after the messages `msgs`, in order, and the commands returned. */
  function UpdateAll(s: View, msgs: seq<Msg>): (View, seq<Cmd>)
    decreases |msgs|
  {
    if msgs == [] then (s, [])
    else
      var (t, cmd) := UpdateStep(s, msgs[0]);
      var (u, cmds) := UpdateAll(t, msgs[1..]);
      (u, [cmd] + cmds)
  }

  /** `quitting` and `done` are never reset: once set, they stay set whatever comes after. */
  lemma {:induction false} FlagsStay(s: View, msgs: seq<Msg>)
    ensures |UpdateAll(s, msgs).1| == |msgs|
    ensures s.quitting ==> UpdateAll(s, msgs).0.quitting
    ensures s.done ==> UpdateAll(s, msgs).0.done
    decreases |msgs|
  {
    if msgs != [] {
      FlagsStay(UpdateStep(s, msgs[0]).0, msgs[1..]);
    }
  }

  /** An ordinary key and then the int `Done`: the key changes nothing, and the program then
      stops with `done` set and `quitting` as it was. */
  lemma SkipKeyThenDone(s: View, key: string)
    requires !IsQuitKey(key)
    ensures UpdateAll(s, [KeyMsg(key), IntMsg(Done)]) == (s.(done := true), [NoCmd, QuitCmd])
  {
    var msgs := [KeyMsg(key), IntMsg(Done)];
    assert msgs[1..] == [IntMsg(Done)] && msgs[1..][1..] == [];
    var t := s.(done := true);
    assert UpdateStep(s, msgs[0]) == (s, NoCmd);
    assert UpdateStep(s, msgs[1..][0]) == (t, QuitCmd);
    assert UpdateAll(t, msgs[1..][1..]) == (t, []);
    assert [QuitCmd] + [] == [QuitCmd] && [NoCmd] + [QuitCmd] == [NoCmd, QuitCmd];
    assert UpdateAll(s, msgs[1..]) == (t, [QuitCmd]);
  }

  /** A window 100 wide gives the widest bar. */
  lemma WideWindowCapped(s: View)
    ensures UpdateStep(s, WindowSizeMsg(100, 10)).0.barWidth == MaxWidth
  {
  }

  // ---------------------------------------------------------------- the progress line

  /** The fraction of the progress bar: requests out of `count` when a count is set, else the
      elapsed time out of the duration, capped at one. A zero duration gives +Inf (capped to
      one) or NaN, as float64 division does. */
  function Percent(count: int, reqs: int, duration: int, elapsed: int): (p: GoFloat.Float)
    ensures !GoFloat.Greater(p, 1.0)
    ensures count > 0 && reqs >= 0 ==> p.Num? && 0.0 <= p.r <= 1.0
    ensures count > 0 && reqs >= count ==> p == GoFloat.Num(1.0)
    ensures count > 0 && 0 <= reqs < count ==> p.Num? && p.r * count as real == reqs as real
    ensures count == 0 && duration > 0 && elapsed >= 0 ==> p.Num? && 0.0 <= p.r <= 1.0
    ensures count == 0 && duration > 0 && 0 <= elapsed < duration ==> p.Num? && p.r * duration as real == elapsed as real
    ensures count == 0 && duration == 0 && elapsed > 0 ==> p == GoFloat.Num(1.0)
    ensures count == 0 && duration == 0 && elapsed == 0 ==> p == GoFloat.NaN
  {
    GoFloat.DivBounds(reqs as real, count as real);
    GoFloat.DivBounds(elapsed as real, duration as real);
    var q := if count != 0 then GoFloat.Div(reqs as real, count as real)
      else GoFloat.Div(elapsed as real, duration as real);
    GoFloat.CapAtOne(q)
  }

  /** More requests than the count still show a full bar. */
  lemma OverCountIsFull()
    ensures Percent(1, 2, 0, 0) == GoFloat.Num(1.0)
  {
  }

  /** The elapsed time shown: the elapsed time, at most the duration. */
  function ShownElapsed(elapsed: int, duration: int): (e: int)
    ensures e <= duration && e <= elapsed
    ensures e == elapsed || e == duration
  {
    if elapsed > duration then duration else elapsed
  }

  // ---------------------------------------------------------------- throughput

  /** The divisor of each unit. */
  function UnitScale(unit: string): real {
    if unit == "KB/s" then 1000.0
    else if unit == "MB/s" then 1000000.0
    else if unit == "GB/s" then 1000000000.0
    else 1.0
  }

  /** The unit for a rate in bytes per second: B/s below 1e3, KB/s below 1e6, MB/s below 1e9,
      GB/s from there on. */
  function UnitFor(t: real): string {
    if t < 1000.0 then "B/s"
    else if t < 1000000.0 then "KB/s"
    else if t < 1000000000.0 then "MB/s"
    else "GB/s"
  }

  /** `formatThroughput` as written: the GB/s branch divides by 1e12. */
  function FormatThroughputAsWritten(t: real): (r: (real, string))
    ensures r.1 == UnitFor(t)
    ensures r.1 != "GB/s" ==> r.0 * UnitScale(r.1) == t
    ensures r.1 == "GB/s" ==> r.0 * 1000.0 * UnitScale(r.1) == t
  {
    if t < 1000.0 then (t, "B/s")
    else if t < 1000000.0 then (t / 1000.0, "KB/s")
    else if t < 1000000000.0 then (t / 1000000.0, "MB/s")
    else (t / 1000000000000.0, "GB/s")
  }

  /** A GB/s rate is shown a thousand times too small: 1111111111 B/s comes out as
      0.001111111111 GB/s, not 1.111111111 GB/s. */
  lemma GigabytesShownTooSmall()
    ensures FormatThroughputAsWritten(1111111111.0) == (0.001111111111, "GB/s")
    ensures FormatThroughputAsWritten(1111111111.0).0 * UnitScale("GB/s") != 1111111111.0
  {
  }

  /** `formatThroughput` as intended: the unit for the rate, and the rate in that unit. */
  function FormatThroughput(t: real): (r: (real, string))
    ensures r.1 == UnitFor(t)
    ensures r.0 * UnitScale(r.1) == t
    ensures t >= 0.0 && r.1 != "GB/s" ==> r.0 < 1000.0
    ensures t >= 1000.0 ==> r.0 >= 1.0
  {
    var u := UnitFor(t);
    (t / UnitScale(u), u)
  }

  /** The rates of the throughput test, one per unit. */
  lemma ThroughputUnits()
    ensures FormatThroughput(100.0) == (100.0, "B/s")
    ensures FormatThroughput(1001.0) == (1.001, "KB/s")
    ensures FormatThroughput(1111111.0) == (1.111111, "MB/s")
    ensures FormatThroughput(1111111111.0) == (1.111111111, "GB/s")
  {
  }

  /** The rate of `throughput` bytes over `elapsed` nanoseconds, in bytes per second. */
  function Rate(throughput: int, elapsed: int): real
    requires elapsed != 0
  {
    throughput as real * 1000000000.0 / elapsed as real
  }

  /** The throughput line as written: none ("0 B/s") before any time has elapsed, else the
      rate of `throughput` bytes over the elapsed seconds through `formatThroughput` as
      written, so a GB/s rate is shown a thousand times too small. */
  function ThroughputShown(throughput: int, elapsed: int): (r: Option<(real, string)>)
    ensures r.None? <==> elapsed == 0
    ensures r.Some? ==> r.value.1 == UnitFor(Rate(throughput, elapsed))
    ensures r.Some? && r.value.1 != "GB/s" ==>
      r.value.0 * UnitScale(r.value.1) * elapsed as real == throughput as real * 1000000000.0
    ensures r.Some? && r.value.1 == "GB/s" ==>
      r.value.0 * 1000.0 * UnitScale(r.value.1) * elapsed as real == throughput as real * 1000000000.0
  {
    if elapsed == 0 then None
    else
      var seconds := elapsed as real / 1000000000.0;
      assert throughput as real / seconds == Rate(throughput, elapsed);
      Some(FormatThroughputAsWritten(throughput as real / seconds))
  }

  /** The throughput line as intended: the rate through the corrected formatter, so the shown
      value times its unit is the rate in every range. */
  function ThroughputShownCorrected(throughput: int, elapsed: int): (r: Option<(real, string)>)
    ensures r.None? <==> elapsed == 0
    ensures r.Some? ==> r.value.1 == UnitFor(Rate(throughput, elapsed))
    ensures r.Some? ==> r.value.0 * UnitScale(r.value.1) * elapsed as real == throughput as real * 1000000000.0
  {
    if elapsed == 0 then None
    else
      var seconds := elapsed as real / 1000000000.0;
      assert throughput as real / seconds == Rate(throughput, elapsed);
      Some(FormatThroughput(throughput as real / seconds))
  }

  /** The line as written and the corrected line agree exactly below 1e9 bytes per second. */
  lemma ThroughputShownDiffers(throughput: int, elapsed: int)
    requires elapsed != 0
    ensures ThroughputShown(throughput, elapsed) == ThroughputShownCorrected(throughput, elapsed)
      <==> Rate(throughput, elapsed) < 1000000000.0
  {
    var t := throughput as real / (elapsed as real / 1000000000.0);
    assert t == Rate(throughput, elapsed);
    if t >= 1000000000.0 {
      assert FormatThroughputAsWritten(t).0 != FormatThroughput(t).0;
    }
  }

  // ---------------------------------------------------------------- summary statistics

  /** Average, variance and maximum as `rpsResult` and `latencyResult` compute them; the
      variance is the sum of squared deviations over `n - 1`, NaN for a single sample. */
  datatype Summary = Summary(avg: real, variance: GoFloat.Float, max: real)

  function Sum(s: seq<real>): real
    decreases |s|
  {
    if s == [] then 0.0 else Sum(s[..|s| - 1]) + s[|s| - 1]
  }

  /** The largest sample, or zero when every sample is below zero or there is none: the
      running maximum starts at zero. */
  function Peak(s: seq<real>): real
    decreases |s|
  {
    if s == [] then 0.0
    else if s[|s| - 1] > Peak(s[..|s| - 1]) then s[|s| - 1]
    else Peak(s[..|s| - 1])
  }

  /** The sum of the squared deviations of the samples from `avg`. */
  function SquaredDeviations(s: seq<real>, avg: real): real
    decreases |s|
  {
    if s == [] then 0.0
    else SquaredDeviations(s[..|s| - 1], avg) + (avg - s[|s| - 1]) * (avg - s[|s| - 1])
  }

  /** The mean of a non-empty sample: the number that, times the sample size, is the sum. */
  function Mean(s: seq<real>): (m: real)
    requires |s| > 0
    ensures m * |s| as real == Sum(s)
  {
    GoFloat.DivMul(Sum(s), |s| as real);
    Sum(s) / |s| as real
  }

  /** The summary of the samples: all zero for none, else the mean, the variance and the peak. */
  function Summarize(s: seq<real>): Summary {
    if |s| == 0 then Summary(0.0, GoFloat.Num(0.0), 0.0)
    else
      var avg := Mean(s);
      Summary(avg, GoFloat.Div(SquaredDeviations(s, avg), (|s| - 1) as real), Peak(s))
  }

  /** The peak is at least zero and at least every sample. */
  lemma {:induction false} PeakBounds(s: seq<real>)
    ensures Peak(s) >= 0.0
    ensures forall i :: 0 <= i < |s| ==> s[i] <= Peak(s)
    decreases |s|
  {
    if s != [] {
      var t := s[..|s| - 1];
      PeakBounds(t);
      assert forall i :: 0 <= i < |t| ==> s[i] == t[i];
    }
  }

  /** The peak is zero or one of the samples. */
  lemma {:induction false} PeakAttained(s: seq<real>)
    ensures Peak(s) == 0.0 || exists i :: 0 <= i < |s| && s[i] == Peak(s)
    decreases |s|
  {
    if s != [] {
      var t := s[..|s| - 1];
      PeakAttained(t);
      if s[|s| - 1] > Peak(t) {
        assert s[|s| - 1] == Peak(s);
      } else if Peak(t) != 0.0 {
        var j :| 0 <= j < |t| && t[j] == Peak(t);
        assert s[j] == Peak(s);
      }
    }
  }

  /** The squared deviations are never negative. */
  lemma {:induction false} SquaredDeviationsNonNegative(s: seq<real>, avg: real)
    ensures SquaredDeviations(s, avg) >= 0.0
    decreases |s|
  {
    if s != [] {
      SquaredDeviationsNonNegative(s[..|s| - 1], avg);
      var d := avg - s[|s| - 1];
      if d < 0.0 {
        assert d * d == (-d) * (-d);
      }
    }
  }

  /** A single sample is its own mean, so its squared deviation is zero and the variance is
      0 / 0, NaN. */
  lemma SingleSampleNaN(x: real)
    ensures Summarize([x]).variance == GoFloat.NaN
  {
    assert [x][..0] == [];
    assert Sum([x]) == x;
    assert SquaredDeviations([x], x) == 0.0;
  }

  /** What the summary of a non-empty sample means: the maximum bounds every sample and is at
      least zero, the variance is a non-negative number from two samples on and NaN for exactly
      one. */
  lemma SummaryMeaning(s: seq<real>)
    requires |s| > 0
    ensures forall i :: 0 <= i < |s| ==> s[i] <= Summarize(s).max
    ensures Summarize(s).max >= 0.0
    ensures |s| == 1 ==> Summarize(s).variance == GoFloat.NaN
    ensures |s| >= 2 ==> Summarize(s).variance.Num? && Summarize(s).variance.r >= 0.0
  {
    PeakBounds(s);
    SquaredDeviationsNonNegative(s, Mean(s));
    if |s| == 1 {
      assert s == [s[0]];
      SingleSampleNaN(s[0]);
    }
  }

  /** The sample of the statistics test: 1, 6, 5, 7, 9, 8 has mean 6, maximum 9 and
      squared deviations 40 over 5, that is 8. */
  lemma SummaryExample()
    ensures Summarize([1.0, 6.0, 5.0, 7.0, 9.0, 8.0]) == Summary(6.0, GoFloat.Num(8.0), 9.0)
  {
    var s0: seq<real> := [];
    var s1 := s0 + [1.0];
    var s2 := s1 + [6.0];
    var s3 := s2 + [5.0];
    var s4 := s3 + [7.0];
    var s5 := s4 + [9.0];
    var s6 := s5 + [8.0];
    assert s1[..0] == s0 && s2[..1] == s1 && s3[..2] == s2 && s4[..3] == s3 && s5[..4] == s4 && s6[..5] == s5;
    assert Sum(s1) == 1.0 && Sum(s2) == 7.0 && Sum(s3) == 12.0;
    assert Sum(s4) == 19.0 && Sum(s5) == 28.0 && Sum(s6) == 36.0;
    assert Peak(s1) == 1.0 && Peak(s2) == 6.0 && Peak(s3) == 6.0;
    assert Peak(s4) == 7.0 && Peak(s5) == 9.0 && Peak(s6) == 9.0;
    assert SquaredDeviations(s1, 6.0) == 25.0 && SquaredDeviations(s2, 6.0) == 25.0;
    assert SquaredDeviations(s3, 6.0) == 26.0 && SquaredDeviations(s4, 6.0) == 27.0;
    assert SquaredDeviations(s5, 6.0) == 36.0 && SquaredDeviations(s6, 6.0) == 40.0;
    assert s6 == [1.0, 6.0, 5.0, 7.0, 9.0, 8.0];
  }

  /** One more sample adds itself to the sum, may raise the peak and adds its squared
      deviation. */
  lemma PassStep(s: seq<real>, i: nat, avg: real)
    requires i < |s|
    ensures Sum(s[..i + 1]) == Sum(s[..i]) + s[i]
    ensures Peak(s[..i + 1]) == if s[i] > Peak(s[..i]) then s[i] else Peak(s[..i])
    ensures SquaredDeviations(s[..i + 1], avg) == SquaredDeviations(s[..i], avg) + (avg - s[i]) * (avg - s[i])
  {
    assert s[..i + 1][..i] == s[..i];
  }

  /** The summary of a non-empty sample from its mean, squared deviations and peak. */
  lemma SummarizeParts(s: seq<real>)
    requires |s| > 0
    ensures Summarize(s) == Summary(Mean(s), GoFloat.Div(SquaredDeviations(s, Mean(s)), (|s| - 1) as real), Peak(s))
  {
  }

  /** The first pass of `rpsResult`: the sum and the running maximum from zero. */
  method SumAndPeak(rps: seq<real>) returns (sum: real, max: real)
    ensures sum == Sum(rps) && max == Peak(rps)
  {
    sum, max := 0.0, 0.0;
    var i := 0;
    while i < |rps|
      invariant 0 <= i <= |rps|
      invariant sum == Sum(rps[..i]) && max == Peak(rps[..i])
    {
      PassStep(rps, i, 0.0);
      sum := sum + rps[i];
      if rps[i] > max {
        max := rps[i];
      }
      i := i + 1;
    }
    assert rps[..i] == rps;
  }

  /** The second pass of `rpsResult`: the squared deviations from `avg`. */
  method Deviations(rps: seq<real>, avg: real) returns (sum2: real)
    ensures sum2 == SquaredDeviations(rps, avg)
  {
    sum2 := 0.0;
    var i := 0;
    while i < |rps|
      invariant 0 <= i <= |rps|
      invariant sum2 == SquaredDeviations(rps[..i], avg)
    {
      PassStep(rps, i, avg);
      var diff := avg - rps[i];
      sum2 := sum2 + diff * diff;
      i := i + 1;
    }
    assert rps[..i] == rps;
  }

  /** `rpsResult`: one pass for the sum and the running maximum, one for the squared
      deviations from the mean. */
  method RpsResult(rps: seq<real>) returns (r: Summary)
    ensures r == Summarize(rps)
  {
    var l := |rps|;
    if l == 0 {
      return Summary(0.0, GoFloat.Num(0.0), 0.0);
    }
    var sum, max := SumAndPeak(rps);
    var avg := sum / l as real;
    var sum2 := Deviations(rps, avg);
    SummarizeParts(rps);
    r := Summary(avg, GoFloat.Div(sum2, (l - 1) as real), max);
  }

  /** Latencies in microseconds as milliseconds. */
  function Millis(latencies: seq<int>): (ms: seq<real>)
    ensures |ms| == |latencies|
    ensures forall i :: 0 <= i < |latencies| ==> ms[i] * 1000.0 == latencies[i] as real
  {
    seq(|latencies|, i requires 0 <= i < |latencies| => latencies[i] as real / 1000.0)
  }

  /** The first pass of `latencyResult`, converting each latency to milliseconds as it goes. */
  method MillisSumAndPeak(latencies: seq<int>) returns (sum: real, max: real)
    ensures sum == Sum(Millis(latencies)) && max == Peak(Millis(latencies))
  {
    ghost var ms := Millis(latencies);
    sum, max := 0.0, 0.0;
    var i := 0;
    while i < |latencies|
      invariant 0 <= i <= |latencies|
      invariant sum == Sum(ms[..i]) && max == Peak(ms[..i])
    {
      PassStep(ms, i, 0.0);
      var r := latencies[i] as real / 1000.0;
      assert ms[i] == r;
      sum := sum + r;
      if r > max {
        max := r;
      }
      i := i + 1;
    }
    assert ms[..i] == ms;
  }

  /** The second pass of `latencyResult`: the squared deviations of the millisecond values. */
  method MillisDeviations(latencies: seq<int>, avg: real) returns (sum2: real)
    ensures sum2 == SquaredDeviations(Millis(latencies), avg)
  {
    ghost var ms := Millis(latencies);
    sum2 := 0.0;
    var i := 0;
    while i < |latencies|
      invariant 0 <= i <= |latencies|
      invariant sum2 == SquaredDeviations(ms[..i], avg)
    {
      PassStep(ms, i, avg);
      var diff := avg - latencies[i] as real / 1000.0;
      assert diff == avg - ms[i];
      sum2 := sum2 + diff * diff;
      i := i + 1;
    }
    assert ms[..i] == ms;
  }

  /** `latencyResult`: the same two passes over the latencies turned into milliseconds. */
  method LatencyResult(latencies: seq<int>) returns (r: Summary)
    ensures r == Summarize(Millis(latencies))
  {
    var l := |latencies|;
    if l == 0 {
      return Summary(0.0, GoFloat.Num(0.0), 0.0);
    }
    var sum, max := MillisSumAndPeak(latencies);
    var avg := sum / l as real;
    var sum2 := MillisDeviations(latencies, avg);
    SummarizeParts(Millis(latencies));
    r := Summary(avg, GoFloat.Div(sum2, (l - 1) as real), max);
  }

  /** The latency test: 1e6 .. 8e6 microseconds are 1e3 .. 8e3 milliseconds, with mean 6e3,
      maximum 9e3 and squared deviations 4e7 over 5, that is 8e6. */
  lemma LatencyExample()
    ensures Summarize(Millis([1000000, 6000000, 5000000, 7000000, 9000000, 8000000]))
      == Summary(6000.0, GoFloat.Num(8000000.0), 9000.0)
  {
    var s0: seq<real> := [];
    var s1 := s0 + [1000.0];
    var s2 := s1 + [6000.0];
    var s3 := s2 + [5000.0];
    var s4 := s3 + [7000.0];
    var s5 := s4 + [9000.0];
    var s6 := s5 + [8000.0];
    assert s1[..0] == s0 && s2[..1] == s1 && s3[..2] == s2 && s4[..3] == s3 && s5[..4] == s4 && s6[..5] == s5;
    assert Sum(s1) == 1000.0 && Sum(s2) == 7000.0 && Sum(s3) == 12000.0;
    assert Sum(s4) == 19000.0 && Sum(s5) == 28000.0 && Sum(s6) == 36000.0;
    assert Peak(s1) == 1000.0 && Peak(s2) == 6000.0 && Peak(s3) == 6000.0;
    assert Peak(s4) == 7000.0 && Peak(s5) == 9000.0 && Peak(s6) == 9000.0;
    assert SquaredDeviations(s1, 6000.0) == 25000000.0 && SquaredDeviations(s2, 6000.0) == 25000000.0;
    assert SquaredDeviations(s3, 6000.0) == 26000000.0 && SquaredDeviations(s4, 6000.0) == 27000000.0;
    assert SquaredDeviations(s5, 6000.0) == 36000000.0 && SquaredDeviations(s6, 6000.0) == 40000000.0;
    var ms := Millis([1000000, 6000000, 5000000, 7000000, 9000000, 8000000]);
    assert ms == s6;
  }

  // ---------------------------------------------------------------- the report's counters

  /** The report's state: the byte count, the request count and elapsed time of the run, the
      six status counters, latencies in microseconds, rate samples, error counts, the
      configured count, duration and connections, and the `Update` fields. */
  class Tui {
    var throughput: int
    var reqs: int
    var elapsed: int
    var c1xx: nat
    var c2xx: nat
    var c3xx: nat
    var c4xx: nat
    var c5xx: nat
    var others: nat
    var latencies: seq<int>
    var rps: seq<real>
    var errs: map<string, nat>
    var count: int
    var duration: int
    var connections: int
    var quitting: bool
    var done: bool
    var barWidth: int

    /** The six status counters. */
    function Codes(): Counts
      reads this
    {
      Counts(c1xx, c2xx, c3xx, c4xx, c5xx, others)
    }

    /** The fields `Update` writes. */
    function Fields(): View
      reads this
    {
      View(quitting, done, barWidth)
    }

    /** `newTui`: every counter zero, no samples, no errors; the progress bar starts at the
        library's default width `barWidth`. */
    constructor (barWidth: int)
      ensures throughput == 0 && reqs == 0 && elapsed == 0 && Codes() == NoCounts
      ensures latencies == [] && rps == [] && errs == map[]
      ensures count == 0 && duration == 0 && connections == 0
      ensures Fields() == View(false, false, barWidth)
    {
      throughput, reqs, elapsed := 0, 0, 0;
      c1xx, c2xx, c3xx, c4xx, c5xx, others := 0, 0, 0, 0, 0, 0;
      latencies, rps, errs := [], [], map[];
      count, duration, connections := 0, 0, 0;
      quitting, done, this.barWidth := false, false, barWidth;
    }

    /** `appendCode`: the bucket of `code` goes up by one and nothing else changes. */
    method AppendCode(code: int)
      modifies this`c1xx, this`c2xx, this`c3xx, this`c4xx, this`c5xx, this`others
      ensures Codes() == Inc(old(Codes()), code)
    {
      var k := GoInt.Quo(code, 100);
      if k == 1 {
        c1xx := c1xx + 1;
      } else if k == 2 {
        c2xx := c2xx + 1;
      } else if k == 3 {
        c3xx := c3xx + 1;
      } else if k == 4 {
        c4xx := c4xx + 1;
      } else if k == 5 {
        c5xx := c5xx + 1;
      } else {
        others := others + 1;
      }
    }

    /** `appendRps`: the sample goes at the end. */
    method AppendRps(r: real)
      modifies this`rps
      ensures rps == old(rps) + [r]
    {
      rps := rps + [r];
    }

    /** `appendLatency`: the latency, given in nanoseconds, goes at the end in microseconds. */
    method AppendLatency(latency: int)
      modifies this`latencies
      ensures latencies == old(latencies) + [GoInt.Microseconds(latency)]
    {
      latencies := latencies + [GoInt.Microseconds(latency)];
    }

    /** `appendError`: the count of the message goes up by one. */
    method AppendError(msg: string)
      modifies this`errs
      ensures errs == AddError(old(errs), msg)
    {
      errs := errs[msg := ErrCount(errs, msg) + 1];
    }

    /** `Update`: the message handler, on the fields it writes. */
    method Update(msg: Msg) returns (cmd: Cmd)
      modifies this`quitting, this`done, this`barWidth
      ensures (Fields(), cmd) == UpdateStep(old(Fields()), msg)
    {
      match msg {
        case KeyMsg(key) =>
          if key == "q" || key == "esc" || key == "ctrl+c" {
            quitting := true;
            return QuitCmd;
          }
          return NoCmd;
        case WindowSizeMsg(width, _) =>
          barWidth := width - Padding * 2 - 4;
          if barWidth > MaxWidth {
            barWidth := MaxWidth;
          }
          return NoCmd;
        case IntMsg(n) =>
          cmd := NoCmd;
          if n == Done {
            done := true;
            cmd := QuitCmd;
          }
        case OtherMsg =>
          return TickCmd;
      }
    }
  }
}
