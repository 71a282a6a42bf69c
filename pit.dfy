/** The benchmark driver of `pit/pit.go`: configuration defaults, the body source, the
    missing-url check, and the statistics aggregator that every worker reports to.

    Times are integer nanosecond counts; the clock is the parameter `now`. The aggregator is
    the sequential critical section `Pit.Statistic`; the stop channel is modelled by whether
    it is closed and by a ghost count of the `close` calls made on it. */
module Pit {
  import opened Wrappers
  import opened Tally
  import GoInt

  const DefaultConnections := 128
  /** Ten seconds. */
  const DefaultDuration := 10_000_000_000
  /** Three seconds. */
  const DefaultTimeout := 3_000_000_000
  /** The length of one statistics round: ten milliseconds. */
  const Interval := 10_000_000

  /** A positive setting is kept; zero or a negative one is replaced by the default. */
  function OrDefault(v: int, default: int): (r: int)
    requires default > 0
    ensures r > 0
    ensures v > 0 ==> r == v
    ensures v <= 0 ==> r == default
  {
    if v <= 0 then default else v
  }

  /** The request body: the literal body when no file is named, else the file's contents
      (or the error reading it). */
  function GetBody(filename: string, body: string, readFile: string -> Result<string>): (r: Result<string>)
    ensures filename == "" ==> r == Ok(body)
    ensures filename != "" ==> r == readFile(filename)
  {
    if filename == "" then Ok(body) else readFile(filename)
  }

  /** The first steps of `init`: an empty url is refused before the body is read. */
  function InitBody(url: string, filename: string, body: string, readFile: string -> Result<string>): (r: Result<string>)
    ensures url == "" ==> r == Err("missing url")
    ensures url != "" ==> r == GetBody(filename, body, readFile)
  {
    if url == "" then Err("missing url") else GetBody(filename, body, readFile)
  }

  /** One rate sample: the requests of a round and the round's length in nanoseconds
      (Go stores their quotient, requests per second). */
  datatype Sample = Sample(reqs: int, nanos: int)

  /** The fields `statistic` reads and writes, with the configured `Count` and `Duration`;
      `closes` counts the `close(doneChan)` calls made so far. */
  datatype StatState = StatState(
    count: int, duration: int,
    start: int, elapsed: int, totalReqs: int, reqs: int,
    errs: map<string, nat>, done: bool, closes: nat,
    codes: Counts, latencies: seq<int>, rps: seq<Sample>)

  /** One outcome reported by a worker: a status code and a latency, or an error message. */
  datatype Call = Call(code: int, latency: int, err: Option<string>, now: int)

  /** Every successful request is counted in exactly one bucket and has one latency, and the
      current round's requests are among them. */
  ghost predicate Counted(s: StatState) {
    s.totalReqs == Total(s.codes) == |s.latencies| && 0 <= s.reqs <= s.totalReqs
  }

  /** The stop channel has been closed once exactly when `done` is set, and in count mode an
      unfinished run has not yet reached the count. */
  ghost predicate Stopping(s: StatState) {
    s.closes == (if s.done then 1 else 0) && (s.count > 0 && !s.done ==> s.totalReqs < s.count)
  }

  /** What stays true of the aggregator between calls. */
  ghost predicate Inv(s: StatState) {
    Counted(s) && Stopping(s)
  }

  /** The state of a fresh aggregator whose round started at `start`. */
  function Initial(count: int, duration: int, start: int): StatState {
    StatState(count, duration, start, 0, 0, 0, map[], false, 0, NoCounts, [], [])
  }

  /** A fresh aggregator satisfies the invariant. */
  lemma InitialInv(count: int, duration: int, start: int)
    ensures Inv(Initial(count, duration, start))
  {
  }

  /** The effect of one `statistic(code, latency, err)` call at time `now`. */
  function StatStep(s: StatState, code: int, latency: int, err: Option<string>, now: int): StatState {
    if s.done then s else EndOfCall(Record(s, code, latency, err), now)
  }

  /** The first half of a call: an error is counted by its message, a success by the
      request counters, its code bucket and its latency in microseconds. */
  function Record(s: StatState, code: int, latency: int, err: Option<string>): StatState {
    match err
    case Some(msg) => s.(errs := AddError(s.errs, msg))
    case None => s.(reqs := s.reqs + 1, totalReqs := s.totalReqs + 1, codes := Inc(s.codes, code),
                    latencies := s.latencies + [GoInt.Microseconds(latency)])
  }

  /** The second half of a call: stop on reaching the count, else close the round once it
      has lasted `Interval`, and in duration mode stop once `elapsed` reaches the duration. */
  function EndOfCall(s: StatState, now: int): StatState {
    if s.count > 0 && s.totalReqs == s.count then CountStop(s, now)
    else DurationStop(RoundEnd(s, now))
  }

  /** The count is reached: the round's sample is taken and the run stops. */
  function CountStop(s: StatState, now: int): StatState {
    s.(rps := s.rps + [Sample(s.reqs, now - s.start)], done := true, closes := s.closes + 1)
  }

  /** A round that has lasted `Interval` ends: its sample is taken, its length added to
      `elapsed`, and a new round starts at `now` with no requests. */
  function RoundEnd(s: StatState, now: int): StatState {
    var round := now - s.start;
    if round >= Interval then
      s.(rps := s.rps + [Sample(s.reqs, round)], elapsed := s.elapsed + round, start := now, reqs := 0)
    else s
  }

  /** In duration mode the run stops once `elapsed` reaches the duration. */
  function DurationStop(s: StatState): StatState {
    if s.count <= 0 && s.elapsed >= s.duration then s.(done := true, closes := s.closes + 1)
    else s
  }

  /** The state after a sequence of calls, in order. */
  function Run(s: StatState, calls: seq<Call>): StatState
    decreases |calls|
  {
    if calls == [] then s
    else Run(StatStep(s, calls[0].code, calls[0].latency, calls[0].err, calls[0].now), calls[1..])
  }

  /** Once `done` is set, a call changes no field at all. */
  lemma DoneIsFinal(s: StatState, code: int, latency: int, err: Option<string>, now: int)
    requires s.done
    ensures StatStep(s, code, latency, err, now) == s
  {
  }

  /** An error only bumps the count of its message: the request counters, the buckets and
      the latencies stay as they were. */
  lemma ErrorCountsOnlyMessage(s: StatState, code: int, latency: int, msg: string, now: int)
    requires !s.done
    ensures var r := StatStep(s, code, latency, Some(msg), now);
      && r.errs == AddError(s.errs, msg)
      && r.totalReqs == s.totalReqs && r.codes == s.codes && r.latencies == s.latencies
  {
  }

  /** A success adds one to both request counters, one to the bucket of its code, and its
      latency in microseconds at the end of the latencies; the error counts stay. */
  lemma SuccessCounted(s: StatState, code: int, latency: int, now: int)
    requires !s.done
    ensures var r := StatStep(s, code, latency, None, now);
      && r.totalReqs == s.totalReqs + 1
      && r.codes == Inc(s.codes, code)
      && r.latencies == s.latencies + [GoInt.Microseconds(latency)]
      && r.errs == s.errs
      && (r.start == s.start ==> r.reqs == s.reqs + 1)
  {
  }

  /** Reaching the count appends one sample and stops, without folding the round into
      `elapsed` or starting a new one. */
  lemma CountReachedStops(s: StatState, code: int, latency: int, err: Option<string>, now: int)
    requires !s.done && s.count > 0
    requires StatStep(s, code, latency, err, now).totalReqs == s.count
    ensures var r := StatStep(s, code, latency, err, now);
      && r.done && r.closes == s.closes + 1
      && |r.rps| == |s.rps| + 1 && r.rps[..|s.rps|] == s.rps
      && r.rps[|s.rps|] == Sample(r.reqs, now - s.start)
      && r.elapsed == s.elapsed && r.start == s.start
  {
    var r := StatStep(s, code, latency, err, now);
    assert r.rps[..|s.rps|] == s.rps;
  }

  /** A call that ends a round (and does not reach the count) appends one sample of the round,
      adds the round to `elapsed`, restarts the round at `now` and zeroes `reqs`. */
  lemma RoundEnds(s: StatState, code: int, latency: int, err: Option<string>, now: int)
    requires !s.done && now - s.start >= Interval
    requires !(s.count > 0 && StatStep(s, code, latency, err, now).totalReqs == s.count)
    ensures var r := StatStep(s, code, latency, err, now);
      && r.rps == s.rps + [Sample(if err.None? then s.reqs + 1 else s.reqs, now - s.start)]
      && r.elapsed == s.elapsed + (now - s.start)
      && r.start == now && r.reqs == 0
  {
  }

  /** In duration mode (`Count <= 0`) a call sets `done` exactly when the summed round time
      reaches the duration; in count mode, exactly when the count is reached. */
  lemma StopRule(s: StatState, code: int, latency: int, err: Option<string>, now: int)
    requires !s.done
    ensures var r := StatStep(s, code, latency, err, now);
      && (s.count <= 0 ==> (r.done <==> r.elapsed >= s.duration))
      && (s.count > 0 ==> (r.done <==> r.totalReqs == s.count))
  {
  }

  /** One call keeps the invariant, and closes the channel exactly when it sets `done`. */
  lemma StepKeepsInv(s: StatState, code: int, latency: int, err: Option<string>, now: int)
    requires Counted(s) && Stopping(s)
    ensures var r := StatStep(s, code, latency, err, now);
      && Counted(r) && Stopping(r) && r.count == s.count && r.duration == s.duration
      && (r.closes != s.closes <==> r.done != s.done)
  {
  }

  /** Over any sequence of calls the invariant holds, so the stop channel is closed at most
      once, and exactly when `done` has been set. */
  lemma {:induction false} RunKeepsInv(s: StatState, calls: seq<Call>)
    requires Inv(s)
    ensures Inv(Run(s, calls))
    ensures Run(s, calls).closes <= 1
    ensures Run(s, calls).closes == 1 <==> Run(s, calls).done
    ensures s.done ==> Run(s, calls) == s
    decreases |calls|
  {
    if calls != [] {
      var c := calls[0];
      StepKeepsInv(s, c.code, c.latency, c.err, c.now);
      RunKeepsInv(StatStep(s, c.code, c.latency, c.err, c.now), calls[1..]);
    }
  }

  /** A call sequence made only of successes. */
  predicate AllSucceed(calls: seq<Call>) {
    forall i :: 0 <= i < |calls| ==> calls[i].err.None?
  }

  /** In count mode, successes stop the run exactly when the count is reached: after fewer
      than `Count - totalReqs` of them it goes on, after that many it is done. */
  lemma {:induction false} CountModeStops(s: StatState, calls: seq<Call>)
    requires Inv(s) && s.count > 0 && !s.done
    requires AllSucceed(calls) && |calls| <= s.count - s.totalReqs
    ensures Run(s, calls).totalReqs == s.totalReqs + |calls|
    ensures Run(s, calls).done <==> |calls| == s.count - s.totalReqs
    decreases |calls|
  {
    if calls != [] {
      var c := calls[0];
      var s' := StatStep(s, c.code, c.latency, c.err, c.now);
      StepKeepsInv(s, c.code, c.latency, c.err, c.now);
      assert s'.totalReqs == s.totalReqs + 1;
      if s'.done {
        RunKeepsInv(s', calls[1..]);
        assert |calls| == 1;
      } else {
        assert AllSucceed(calls[1..]) by {
          forall i | 0 <= i < |calls[1..]| ensures calls[1..][i].err.None? {
            assert calls[1..][i] == calls[i + 1];
          }
        }
        CountModeStops(s', calls[1..]);
      }
    }
  }

  class Pit {
    // the configuration after `New`
    var connections: int
    var duration: int
    var timeout: int
    var count: int

    var start: int
    var elapsed: int
    var totalReqs: int
    var reqs: int
    var errs: map<string, nat>
    var done: bool
    var doneChanClosed: bool
    ghost var closes: nat

    var code1xx: nat
    var code2xx: nat
    var code3xx: nat
    var code4xx: nat
    var code5xx: nat
    var codeOthers: nat

    var latencies: seq<int>
    var rps: seq<Sample>

    ghost function Codes(): Counts
      reads this
    {
      Counts(code1xx, code2xx, code3xx, code4xx, code5xx, codeOthers)
    }

    ghost function State(): StatState
      reads this
    {
      StatState(count, duration, start, elapsed, totalReqs, reqs, errs, done, closes,
                Codes(), latencies, rps)
    }

    ghost predicate Valid()
      reads this
    {
      && totalReqs == code1xx + code2xx + code3xx + code4xx + code5xx + codeOthers == |latencies|
      && 0 <= reqs <= totalReqs && closes == (if done then 1 else 0)
      && (count > 0 && !done ==> totalReqs < count) && doneChanClosed == done
    }

    /** `New`: non-positive connections, duration and timeout take their defaults; the
        aggregator starts empty. */
    constructor (connections: int, duration: int, timeout: int, count: int)
      ensures this.connections == OrDefault(connections, DefaultConnections)
      ensures this.duration == OrDefault(duration, DefaultDuration)
      ensures this.timeout == OrDefault(timeout, DefaultTimeout)
      ensures this.count == count
      ensures State() == Initial(count, this.duration, 0)
      ensures Valid()
    {
      this.connections := OrDefault(connections, DefaultConnections);
      this.duration := OrDefault(duration, DefaultDuration);
      this.timeout := OrDefault(timeout, DefaultTimeout);
      this.count := count;
      start, elapsed, totalReqs, reqs := 0, 0, 0, 0;
      errs, done, doneChanClosed, closes := map[], false, false, 0;
      code1xx, code2xx, code3xx, code4xx, code5xx, codeOthers := 0, 0, 0, 0, 0, 0;
      latencies, rps := [], [];
      new;
    }

    /** `Run` records the start of the first round before the workers start. */
    method Begin(now: int)
      modifies this`start
      ensures start == now
    {
      start := now;
    }

    /** `close(doneChan)`; closing a closed channel panics in Go. */
    method CloseDoneChan()
      requires !doneChanClosed
      modifies this`doneChanClosed, this`closes
      ensures doneChanClosed && closes == old(closes) + 1
    {
      doneChanClosed := true;
      closes := closes + 1;
    }

    /** `handleCode`: the bucket of `code` goes up by one. */
    method HandleCode(code: int)
      modifies this`code1xx, this`code2xx, this`code3xx, this`code4xx, this`code5xx, this`codeOthers
      ensures Codes() == Inc(old(Codes()), code)
    {
      var q := GoInt.Quo(code, 100);
      if q == 1 {
        code1xx := code1xx + 1;
      } else if q == 2 {
        code2xx := code2xx + 1;
      } else if q == 3 {
        code3xx := code3xx + 1;
      } else if q == 4 {
        code4xx := code4xx + 1;
      } else if q == 5 {
        code5xx := code5xx + 1;
      } else {
        codeOthers := codeOthers + 1;
      }
    }

    /** The counting half of `statistic`: an error by its message, a success by the request
        counters, `handleCode` and the latency in microseconds. */
    method RecordOutcome(code: int, latency: int, err: Option<string>)
      modifies this`errs, this`reqs, this`totalReqs, this`latencies
      modifies this`code1xx, this`code2xx, this`code3xx, this`code4xx, this`code5xx, this`codeOthers
      ensures State() == Record(old(State()), code, latency, err)
    {
      match err {
        case Some(msg) =>
          RecordError(msg);
        case None =>
          RecordSuccess(code, latency);
      }
    }

    /** `errs[err.Error()]++`. */
    method RecordError(msg: string)
      modifies this`errs
      ensures State() == old(State()).(errs := AddError(old(errs), msg))
    {
      errs := AddError(errs, msg);
    }

    /** A success: both request counters, its code bucket and its latency in microseconds. */
    method RecordSuccess(code: int, latency: int)
      modifies this`reqs, this`totalReqs, this`latencies
      modifies this`code1xx, this`code2xx, this`code3xx, this`code4xx, this`code5xx, this`codeOthers
      ensures reqs == old(reqs) + 1 && totalReqs == old(totalReqs) + 1
      ensures Codes() == Inc(old(Codes()), code) && latencies == old(latencies) + [GoInt.Microseconds(latency)]
      ensures errs == old(errs) && start == old(start) && elapsed == old(elapsed) && done == old(done)
      ensures rps == old(rps)
    {
      reqs := reqs + 1;
      totalReqs := totalReqs + 1;
      HandleCode(code);
      latencies := latencies + [GoInt.Microseconds(latency)];
    }

    /** The closing half of `statistic`: stop on reaching the count, else end the round once
        it has lasted `Interval`, and in duration mode stop once `elapsed` reaches the duration. */
    method FinishCall(now: int)
      requires !done && !doneChanClosed
      modifies this`rps, this`done, this`doneChanClosed, this`closes, this`elapsed, this`start, this`reqs
      ensures State() == EndOfCall(old(State()), now)
      ensures doneChanClosed == done
    {
      if count > 0 && totalReqs == count {
        StopOnCount(now);
        return;
      }
      EndRound(now);
      StopOnDuration();
    }

    /** The count is reached: the round's sample, `done`, and the one `close(doneChan)`. */
    method StopOnCount(now: int)
      requires !doneChanClosed
      modifies this`rps, this`done, this`doneChanClosed, this`closes
      ensures State() == CountStop(old(State()), now)
      ensures done && doneChanClosed
    {
      rps := rps + [Sample(reqs, now - start)];
      done := true;
      CloseDoneChan();
    }

    /** "One round is over": the sample, the round added to `elapsed`, and a new round. */
    method EndRound(now: int)
      modifies this`rps, this`elapsed, this`start, this`reqs
      ensures State() == RoundEnd(old(State()), now)
    {
      var round := now - start;
      if round >= Interval {
        rps := rps + [Sample(reqs, round)];
        elapsed := elapsed + round;
        start := now;
        reqs := 0;
      }
    }

    /** Duration mode: `done` and the one `close(doneChan)` once `elapsed` reaches `Duration`. */
    method StopOnDuration()
      requires !done && !doneChanClosed
      modifies this`done, this`doneChanClosed, this`closes
      ensures State() == DurationStop(old(State()))
      ensures doneChanClosed == done
    {
      if count <= 0 && elapsed >= duration {
        done := true;
        CloseDoneChan();
      }
    }

    /** `statistic(code, latency, err)` at time `now`, as one critical section. */
    method Statistic(code: int, latency: int, err: Option<string>, now: int)
      requires Valid()
      modifies this
      ensures Valid()
      ensures State() == StatStep(old(State()), code, latency, err, now)
      ensures connections == old(connections) && timeout == old(timeout)
    {
      ghost var s := State();
      if done {
        return;
      }
      ValidIsInv(this);
      RecordOutcome(code, latency, err);
      FinishCall(now);
      StepKeepsInv(s, code, latency, err, now);
      InvIsValid(this);
    }
  }

  /** The invariant of the abstract state, with the channel closed exactly when `done` is set,
      is the object's `Valid()`. */
  lemma ValidIsInv(p: Pit)
    requires p.Valid()
    ensures Counted(p.State()) && Stopping(p.State()) && p.doneChanClosed == p.done
  {
  }

  lemma InvIsValid(p: Pit)
    requires Counted(p.State()) && Stopping(p.State()) && p.doneChanClosed == p.done
    ensures p.Valid()
  {
  }
}
