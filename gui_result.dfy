/** The result counters of `gui/result.go`: the byte counter the dialers share, the request
    count, the elapsed time, the six status counters, latencies, rate samples and errors.
    Printing the report is not modelled. */
module GuiResult {
  import opened Tally
  import GoInt
  import PitDialer

  class Result {
    /** The byte counter `Throughput()` hands out; the connections add to it. */
    const throughput: PitDialer.Counter
    var reqs: int
    var elapsed: int
    var c1xx: nat
    var c2xx: nat
    var c3xx: nat
    var c4xx: nat
    var c5xx: nat
    var others: nat
    var latencies: seq<int>
    var rps: seq<real>
    var errs: map<string, nat>

    /** The six status counters. */
    function Codes(): Counts
      reads this
    {
      Counts(c1xx, c2xx, c3xx, c4xx, c5xx, others)
    }

    /** `Throughput()`: the address of the byte counter, shared with whoever counts into it. */
    function Throughput(): PitDialer.Counter {
      throughput
    }

    /** `TotalReqs()`. */
    function TotalReqs(): int
      reads this
    {
      reqs
    }

    /** `Elapsed()`, in nanoseconds. */
    function Elapsed(): int
      reads this
    {
      elapsed
    }

    /** `NewResult`: a fresh zero byte counter, every count zero, no samples, no errors. */
    constructor ()
      ensures fresh(throughput) && throughput.n == 0
      ensures TotalReqs() == 0 && Elapsed() == 0 && Codes() == NoCounts
      ensures latencies == [] && rps == [] && errs == map[]
    {
      throughput := new PitDialer.Counter();
      reqs, elapsed := 0, 0;
      c1xx, c2xx, c3xx, c4xx, c5xx, others := 0, 0, 0, 0, 0, 0;
      latencies, rps, errs := [], [], map[];
    }

    /** `AppendCode`: the bucket of `code` goes up by one; nothing else changes. */
    method AppendCode(code: int)
      modifies this`c1xx, this`c2xx, this`c3xx, this`c4xx, this`c5xx, this`others
      ensures Codes() == Inc(old(Codes()), code)
    {
      var k := GoInt.Quo(code, 100);
      if k == 1 {
        c1xx := c1xx + 1;
      } else if k == 2 {
        c2xx := c2xx + 1;
      } else if k == 3 {
        c3xx := c3xx + 1;
      } else if k == 4 {
        c4xx := c4xx + 1;
      } else if k == 5 {
        c5xx := c5xx + 1;
      } else {
        others := others + 1;
      }
    }

    /** `IncreaseReq`: the request count goes up by one; nothing else changes. */
    method IncreaseReq()
      modifies this`reqs
      ensures TotalReqs() == old(TotalReqs()) + 1
    {
      reqs := reqs + 1;
    }

    /** `AddElapsed`: the elapsed total grows by `d`; nothing else changes. */
    method AddElapsed(d: int)
      modifies this`elapsed
      ensures Elapsed() == old(Elapsed()) + d
    {
      elapsed := elapsed + d;
    }

    /** `AppendRps`: the sample goes at the end, the earlier ones stay. */
    method AppendRps(r: real)
      modifies this`rps
      ensures rps == old(rps) + [r]
    {
      rps := rps + [r];
    }

    /** `AppendLatency`: the latency, given in nanoseconds, goes at the end in microseconds. */
    method AppendLatency(latency: int)
      modifies this`latencies
      ensures latencies == old(latencies) + [GoInt.Microseconds(latency)]
    {
      latencies := latencies + [GoInt.Microseconds(latency)];
    }

    /** `AppendError`: the count of the message goes up by one, the others stay. */
    method AppendError(msg: string)
      modifies this`errs
      ensures errs == AddError(old(errs), msg)
    {
      errs := errs[msg := ErrCount(errs, msg) + 1];
    }
  }

  /** A connection counting into a result's byte counter raises what the result reports:
      the counter is shared, not copied. */
  method CountIntoResult(r: Result, inner: PitDialer.IoResult) returns (n: int)
    modifies r.Throughput()
    ensures n == inner.n
    ensures r.Throughput().n == PitDialer.Counted(old(r.Throughput().n), inner)
  {
    var conn := new PitDialer.CounterConn(r.Throughput());
    var err;
    n, err := conn.Read(inner);
  }
}
