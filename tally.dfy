/** The counting shared by the statistics aggregator, the terminal report and the GUI result:
    status codes bucketed by hundreds, and errors counted by message. */
module Tally {
  import GoInt

  /** The bucket of a status code: `k` in 1..5 when Go's truncating `code / 100` is `k`,
      0 ("others") for every other code. */
  function Bucket(code: int): (k: int)
    ensures 0 <= k <= 5
    ensures k == 0 <==> !(100 <= code < 600)
    ensures k != 0 ==> 100 * k <= code < 100 * k + 100
  {
    var q := GoInt.Quo(code, 100);
    if 1 <= q <= 5 then q else 0
  }

  /** The six counters `code1xx` .. `code5xx`, `codeOthers`. */
  datatype Counts = Counts(c1xx: nat, c2xx: nat, c3xx: nat, c4xx: nat, c5xx: nat, others: nat)

  const NoCounts := Counts(0, 0, 0, 0, 0, 0)

  /** The counter of bucket `k` (0 is "others"). */
  function Get(c: Counts, k: int): nat {
    if k == 1 then c.c1xx
    else if k == 2 then c.c2xx
    else if k == 3 then c.c3xx
    else if k == 4 then c.c4xx
    else if k == 5 then c.c5xx
    else c.others
  }

  /** The sum of the six counters. */
  function Total(c: Counts): nat {
    c.c1xx + c.c2xx + c.c3xx + c.c4xx + c.c5xx + c.others
  }

  /** Counting one response with status `code`: its bucket goes up by one, no other bucket moves. */
  function Inc(c: Counts, code: int): (r: Counts)
    ensures forall k :: 0 <= k <= 5 ==> Get(r, k) == Get(c, k) + (if k == Bucket(code) then 1 else 0)
    ensures Total(r) == Total(c) + 1
  {
    match Bucket(code)
    case 1 => c.(c1xx := c.c1xx + 1)
    case 2 => c.(c2xx := c.c2xx + 1)
    case 3 => c.(c3xx := c.c3xx + 1)
    case 4 => c.(c4xx := c.c4xx + 1)
    case 5 => c.(c5xx := c.c5xx + 1)
    case _ => c.(others := c.others + 1)
  }

  /** The six example codes 101, 201, .. 601 land one in each bucket. */
  lemma OneInEachBucket()
    ensures Bucket(101) == 1 && Bucket(201) == 2 && Bucket(301) == 3
    ensures Bucket(401) == 4 && Bucket(501) == 5 && Bucket(601) == 0
  {
  }

  /** How many times `msg` was counted; a missing map entry reads as 0, as in Go. */
  function ErrCount(errs: map<string, nat>, msg: string): nat {
    if msg in errs then errs[msg] else 0
  }

  /** `errs[msg]++`: the entry for `msg` goes up by one and every other entry stays. */
  function AddError(errs: map<string, nat>, msg: string): (r: map<string, nat>)
    ensures r.Keys == errs.Keys + {msg}
    ensures ErrCount(r, msg) == ErrCount(errs, msg) + 1
    ensures forall m :: m != msg ==> ErrCount(r, m) == ErrCount(errs, m)
  {
    errs[msg := ErrCount(errs, msg) + 1]
  }
}
