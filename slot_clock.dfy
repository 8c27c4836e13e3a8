/**
 * The mocked slot clock of the manual-seal BABE provider: a counter started at some
 * wall-clock time that hands out the current value as the timestamp inherent and then
 * advances by one slot duration, with the wrap-around of a 64-bit `fetch_add`.
 */
module SlotClock {
  import opened Wrappers
  import opened Inherents

  /** 64-bit addition with wrap-around, as `AtomicU64::fetch_add` performs it. */
  function WrappingAdd(a: u64, b: u64): (r: u64)
    ensures r == (a + b) % U64_MODULUS
    ensures a + b < U64_MODULUS ==> r == a + b
    ensures a + b >= U64_MODULUS ==> r < a
  {
    if a + b < U64_MODULUS then a + b else a + b - U64_MODULUS
  }

  /** The counter after `n` advances of `d` from `t0`: the value the (n+1)-th call hands out. */
  function TimestampAt(t0: u64, d: u64, n: nat): (r: u64)
  {
    if n == 0 then t0 else WrappingAdd(TimestampAt(t0, d, n - 1), d)
  }

  /** Modulo 2^64 the n-th timestamp is exactly `t0 + n*d`. */
  lemma {:induction false} TimestampAtIsModular(t0: u64, d: u64, n: nat)
    ensures TimestampAt(t0, d, n) == (t0 + n * d) % U64_MODULUS
  {
    if n > 0 {
      TimestampAtIsModular(t0, d, n - 1);
      var a := t0 + (n - 1) * d;
      var q := a / U64_MODULUS;
      var s := a % U64_MODULUS;
      assert t0 + n * d == a + d;
      assert a + d == q * U64_MODULUS + (s + d);
      ModOfMultiplePlus(q, s + d);
    }
  }

  lemma ModOfMultiplePlus(q: int, s: nat)
    requires s < 2 * U64_MODULUS
    ensures (q * U64_MODULUS + s) % U64_MODULUS == s % U64_MODULUS
  {
    if s < U64_MODULUS {
      DivModUnique(q * U64_MODULUS + s, q, s);
    } else {
      DivModUnique(q * U64_MODULUS + s, q + 1, s - U64_MODULUS);
    }
  }

  lemma DivModUnique(x: int, q: int, s: int)
    requires 0 <= s < U64_MODULUS && x == q * U64_MODULUS + s
    ensures x % U64_MODULUS == s
  {
  }

  /** Without wrap-around the n-th timestamp is `t0 + n*d`. */
  lemma {:induction false} TimestampAtNoWrap(t0: u64, d: u64, n: nat)
    requires t0 + n * d < U64_MODULUS
    ensures TimestampAt(t0, d, n) == t0 + n * d
  {
    TimestampAtIsModular(t0, d, n);
    var x := t0 + n * d;
    DivModUnique(x, 0, x);
  }

  /** Without wrap-around, consecutive timestamps are exactly one slot duration apart. */
  lemma ConsecutiveTimestamps(t0: u64, d: u64, n: nat)
    requires t0 + (n + 1) * d < U64_MODULUS
    ensures TimestampAt(t0, d, n + 1) == TimestampAt(t0, d, n) + d
  {
    assert (n + 1) * d == n * d + d;
    TimestampAtNoWrap(t0, d, n);
    TimestampAtNoWrap(t0, d, n + 1);
  }

  /** With a positive slot duration and no wrap-around, timestamps strictly increase. */
  lemma TimestampsStrictlyIncrease(t0: u64, d: u64, i: nat, j: nat)
    requires 0 < d && i < j
    requires t0 + j * d < U64_MODULUS
    ensures TimestampAt(t0, d, i) < TimestampAt(t0, d, j)
  {
    MulMonotone(i + 1, j, d);
    assert (i + 1) * d == i * d + d;
    TimestampAtNoWrap(t0, d, i);
    TimestampAtNoWrap(t0, d, j);
  }

  /**
   * The slot a timestamp falls in (timestamp divided by slot duration) advances by exactly
   * one per call, so every manually sealed block lands in a fresh slot.
   */
  lemma SlotAdvancesByOne(t0: u64, d: u64, n: nat)
    requires 0 < d
    requires t0 + n * d < U64_MODULUS
    ensures TimestampAt(t0, d, n) / d == t0 / d + n
  {
    TimestampAtNoWrap(t0, d, n);
    DivAddMultiple(t0, d, n);
  }

  lemma DivAddMultiple(x: nat, d: int, n: nat)
    requires 0 < d
    ensures (x + n * d) / d == x / d + n
  {
    var q, s := x / d, x % d;
    Distribute(q, n, d);
    DivUnique(x + n * d, d, q + n, s);
  }

  lemma Distribute(a: int, b: int, c: int)
    ensures (a + b) * c == a * c + b * c
  {
  }

  lemma DivUnique(x: int, d: int, q: int, s: int)
    requires 0 <= s < d && x == q * d + s
    ensures x / d == q
  {
    var q', s' := x / d, x % d;
    assert x == q' * d + s';
    if q' > q {
      assert (q + 1) * d == q * d + d;
      MulMonotone(q + 1, q', d);
    } else if q' < q {
      assert (q' + 1) * d == q' * d + d;
      MulMonotone(q' + 1, q, d);
    }
  }

  lemma {:induction false} MulMonotone(a: int, b: int, d: nat)
    requires a <= b
    ensures a * d <= b * d
    decreases b - a
  {
    if a < b {
      MulMonotone(a, b - 1, d);
      assert b * d == (b - 1) * d + d;
    }
  }

  /** With 6000 ms slots the first three calls hand out t0, t0 + 6000 and t0 + 12000. */
  lemma SixSecondSlots(t0: u64)
    requires t0 + 12000 < U64_MODULUS
    ensures TimestampAt(t0, 6000, 0) == t0
    ensures TimestampAt(t0, 6000, 1) == t0 + 6000
    ensures TimestampAt(t0, 6000, 2) == t0 + 12000
  {
    TimestampAtNoWrap(t0, 6000, 2);
  }

  /**
   * The timestamp provider. `time` is the atomic counter; the ghost `start` and `calls`
   * record where it began and how many timestamps it has handed out.
   */
  class SlotTimestampProvider {
    var time: u64
    const slotDuration: u64
    ghost const start: u64
    ghost var calls: nat

    ghost predicate Valid()
      reads this
    {
      time == TimestampAt(start, slotDuration, calls)
    }

    /** Starts the counter at `now`, the current time in milliseconds. */
    constructor (now: u64, slotDuration: u64)
      ensures Valid()
      ensures time == start == now && this.slotDuration == slotDuration && calls == 0
    {
      time := now;
      this.slotDuration := slotDuration;
      start := now;
      calls := 0;
    }

    /** The identifier under which this provider writes: the timestamp inherent's. */
    function InherentIdentifier(): (id: InherentIdentifier)
      ensures |id| == 8 && id != BABE_INHERENT_IDENTIFIER
    {
      TIMESTAMP_INHERENT_IDENTIFIER
    }

    /**
     * Hands out the current counter value as the timestamp inherent and advances the
     * counter by one slot duration. The counter advances even when the inherent data
     * refuses the value.
     */
    method ProvideInherentData(inherentData: InherentData) returns (r: Outcome<InherentError>)
      requires Valid()
      modifies this, inherentData
      ensures Valid() && calls == old(calls) + 1
      ensures time == WrappingAdd(old(time), slotDuration)
      ensures old(time) == TimestampAt(start, slotDuration, old(calls))
      ensures InherentIdentifier() in old(inherentData.data) ==>
                r == Fail(InherentAlreadyExists(InherentIdentifier())) &&
                inherentData.data == old(inherentData.data)
      ensures InherentIdentifier() !in old(inherentData.data) ==>
                r == Pass &&
                inherentData.data == old(inherentData.data)[InherentIdentifier() := old(time)]
    {
      var duration := time;
      time := WrappingAdd(time, slotDuration);
      calls := calls + 1;
      r := inherentData.PutData(InherentIdentifier(), duration);
    }
  }

  /** Why creating a provider failed: the wall clock reads earlier than the UNIX epoch. */
  datatype ClockError = TimeBeforeUnixEpoch

  /**
   * Creates a provider from the wall-clock reading `nowMillis`, signed milliseconds
   * relative to the UNIX epoch. A reading before the epoch is an error; otherwise the
   * millisecond count is truncated to 64 bits.
   */
  method NewSlotTimestampProvider(nowMillis: int, slotDuration: u64)
    returns (r: Result<SlotTimestampProvider, ClockError>)
    ensures r.Err? <==> nowMillis < 0
    ensures r.Err? ==> r.error == TimeBeforeUnixEpoch
    ensures r.Ok? ==> fresh(r.value) && r.value.Valid() && r.value.calls == 0
    ensures r.Ok? ==> r.value.time == nowMillis % U64_MODULUS && r.value.slotDuration == slotDuration
  {
    if nowMillis < 0 {
      r := Err(TimeBeforeUnixEpoch);
    } else {
      var p := new SlotTimestampProvider(nowMillis % U64_MODULUS, slotDuration);
      r := Ok(p);
    }
  }
}
