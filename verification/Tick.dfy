/**
  The clock arithmetic of src/util/tick.cpp and tick.h: the counter of the Windows branches in
  microseconds, and the conversions. Counters and frequencies are not negative, so the truncating
  division of C is the division here.
 */
module Tick {
  const TICK_FREQ := 1_000_000
  const INT64_MAX := 0x7FFF_FFFF_FFFF_FFFF

  function FromMs(ms: int): int {
    ms * 1000
  }

  /** Truncates, as C does; only used on values that are not negative. */
  function ToMs(tick: nat): nat {
    tick / 1000
  }

  /** sc_tick_now() for a given counter; frequency % SC_TICK_FREQ chooses the branch. */
  function TickNow(counter: nat, frequency: nat): int
    requires frequency > 0
  {
    if frequency % TICK_FREQ == 0
    then counter / (frequency / TICK_FREQ)
    else counter / frequency * TICK_FREQ + TICK_FREQ * (counter % frequency) / frequency
  }

  /** The time in microseconds, rounded down: counter / frequency seconds. */
  function Exact(counter: nat, frequency: nat): int
    requires frequency > 0
  {
    counter * 1_000_000 / frequency
  }

  lemma MulMonotone(x: int, y: int, m: nat)
    ensures x <= y ==> x * m <= y * m
  {
    if x <= y {
      assert (y - x) * m >= 0;
    }
  }

  lemma QuotientUnique(a: int, m: int, q: int, r: int)
    requires m > 0 && a == q * m + r && 0 <= r < m
    ensures a / m == q && a % m == r
  {
    var d := a / m - q;
    assert a == (a / m) * m + a % m;
    assert d * m == r - a % m;
    MulMonotone(1, d, m);
    MulMonotone(d, -1, m);
  }

  /** (q * m + b) / m == q + b / m */
  lemma AddMultiple(q: nat, b: nat, m: nat)
    requires m > 0
    ensures (q * m + b) / m == q + b / m
  {
    assert q * m + b == (q + b / m) * m + b % m by {
      assert b == (b / m) * m + b % m;
    }
    QuotientUnique(q * m + b, m, q + b / m, b % m);
  }

  lemma CancelFactor(a: nat, k: nat, m: nat)
    requires k > 0 && m > 0
    ensures m * k > 0 && a * k / (m * k) == a / m
  {
    var q, r := a / m, a % m;
    assert a == q * m + r;
    assert a * k == q * (m * k) + r * k;
    assert 0 <= r * k < m * k;
    QuotientUnique(a * k, m * k, q, r * k);
  }

  /** Both branches are exact, so they agree wherever both could be taken. */
  lemma TickNowIsExact(counter: nat, frequency: nat)
    requires frequency > 0
    ensures TickNow(counter, frequency) == Exact(counter, frequency)
  {
    if frequency % TICK_FREQ == 0 {
      var div := frequency / TICK_FREQ;
      assert frequency == div * TICK_FREQ;
      CancelFactor(counter, TICK_FREQ, div);
    } else {
      var secs: nat, rest: nat := counter / frequency, counter % frequency;
      assert counter == secs * frequency + rest;
      assert secs * frequency * TICK_FREQ == secs * TICK_FREQ * frequency;
      AddMultiple(secs * TICK_FREQ, TICK_FREQ * rest, frequency);
    }
  }

  lemma DivMonotone(a: nat, b: nat, m: nat)
    requires a <= b && m > 0
    ensures a / m <= b / m
  {
    assert a == (a / m) * m + a % m && b == (b / m) * m + b % m;
    MulMonotone(b / m + 1, a / m, m);
    assert (b / m + 1) * m == (b / m) * m + m;
  }

  lemma TickNowIsMonotone(c1: nat, c2: nat, frequency: nat)
    requires c1 <= c2 && frequency > 0
    ensures TickNow(c1, frequency) <= TickNow(c2, frequency)
  {
    TickNowIsExact(c1, frequency);
    TickNowIsExact(c2, frequency);
    DivMonotone(c1 * TICK_FREQ, c2 * TICK_FREQ, frequency);
  }

  lemma QuotientBounds(a: nat, m: nat)
    requires m > 0
    ensures 0 <= a / m <= a
  {
    var q := a / m;
    assert a == q * m + a % m;
    MulMonotone(q, -1, m);
    assert q >= 0;
    MulMonotone(1, m, q);
  }

  /** Every intermediate value of the chosen branch. */
  function Intermediates(counter: nat, frequency: nat): seq<int>
    requires frequency > 0
  {
    if frequency % TICK_FREQ == 0
    then [frequency / TICK_FREQ, counter / (frequency / TICK_FREQ)]
    else
      [ counter / frequency, counter / frequency * TICK_FREQ, counter % frequency,
        TICK_FREQ * (counter % frequency), TICK_FREQ * (counter % frequency) / frequency,
        counter / frequency * TICK_FREQ + TICK_FREQ * (counter % frequency) / frequency ]
  }

  /** Every intermediate value fits in a signed 64-bit integer. */
  ghost predicate Fits(counter: nat, frequency: nat)
    requires frequency > 0
  {
    forall i :: 0 <= i < |Intermediates(counter, frequency)| ==> 0 <= Intermediates(counter, frequency)[i] <= INT64_MAX
  }

  lemma EvenBranchFits(counter: nat, frequency: nat)
    requires 0 < frequency <= INT64_MAX && counter <= INT64_MAX && frequency % TICK_FREQ == 0
    ensures Fits(counter, frequency)
  {
    QuotientBounds(counter, frequency / TICK_FREQ);
  }

  lemma SplitBranchFits(counter: nat, frequency: nat)
    requires 0 < frequency && counter <= INT64_MAX && frequency % TICK_FREQ != 0
    requires TICK_FREQ * (counter % frequency) <= INT64_MAX && Exact(counter, frequency) <= INT64_MAX
    ensures Fits(counter, frequency)
  {
    TickNowIsExact(counter, frequency);
    var rest: nat := counter % frequency;
    QuotientBounds(TICK_FREQ * rest, frequency);
    QuotientBounds(counter, frequency);
  }

  lemma SplitBranchNeeds(counter: nat, frequency: nat)
    requires 0 < frequency && frequency % TICK_FREQ != 0 && Fits(counter, frequency)
    ensures TICK_FREQ * (counter % frequency) <= INT64_MAX && Exact(counter, frequency) <= INT64_MAX
  {
    TickNowIsExact(counter, frequency);
    var all := Intermediates(counter, frequency);
    assert all[3] == TICK_FREQ * (counter % frequency) && all[5] == TickNow(counter, frequency);
  }

  /**
    For counters and frequencies of 64 bits: the branch for multiples of 10^6 never overflows, the other
    one exactly if 10^6 times the remainder or the result does not fit.
   */
  lemma FitsExactly(counter: nat, frequency: nat)
    requires 0 < frequency < 0x8000_0000_0000_0000 && counter < 0x8000_0000_0000_0000
    ensures Fits(counter, frequency) <==>
            || frequency % 1_000_000 == 0
            || (1_000_000 * (counter % frequency) < 0x8000_0000_0000_0000
                && Exact(counter, frequency) < 0x8000_0000_0000_0000)
  {
    if frequency % TICK_FREQ == 0 {
      EvenBranchFits(counter, frequency);
    } else if Fits(counter, frequency) {
      SplitBranchNeeds(counter, frequency);
    } else if TICK_FREQ * (counter % frequency) <= INT64_MAX && Exact(counter, frequency) <= INT64_MAX {
      SplitBranchFits(counter, frequency);
    }
  }

  /** The bound that does not mention the counter: 10^6 * (frequency - 1), for the second branch. */
  lemma NoOverflow(counter: nat, frequency: nat)
    requires 0 < frequency <= INT64_MAX && counter <= INT64_MAX && Exact(counter, frequency) <= INT64_MAX
    requires frequency % TICK_FREQ == 0 || TICK_FREQ * (frequency - 1) <= INT64_MAX
    ensures Fits(counter, frequency)
  {
    FitsExactly(counter, frequency);
  }
}
