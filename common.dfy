/**
 * The conversion of a CMSIS tick timeout into an absolute `struct timespec` deadline
 * (`cp_timeoutToTimespec`). The wall-clock read that starts the conversion is an input.
 */
module Common {
  import opened CmsisTypes

  const NanosPerSecond: int := 1_000_000_000
  const Int64Min: int := -0x8000_0000_0000_0000
  const Int64Max: int := 0x7FFF_FFFF_FFFF_FFFF

  predicate InInt64(x: int) {
    Int64Min <= x <= Int64Max
  }

  /** The value of a `struct timespec`: whole seconds and nanoseconds. */
  datatype Time = Time(sec: int, nsec: int)

  /** The instant a time value denotes, counted in nanoseconds. */
  function Nanos(t: Time): int {
    t.sec * NanosPerSecond + t.nsec
  }

  /** The nanosecond field is within one second, as `clock_gettime` and `sem_timedwait` require. */
  predicate Normalized(t: Time) {
    0 <= t.nsec < NanosPerSecond
  }

  /** Lexicographic order on the two fields: the order in which a timed wait compares deadlines. */
  predicate NotLater(a: Time, b: Time) {
    a.sec < b.sec || (a.sec == b.sec && a.nsec <= b.nsec)
  }

  /** The wait in nanoseconds, `timeout * nanoInTick`, in a signed 64-bit intermediate. */
  function TotalNanos(timeout: Uint32, nanoInTick: nat): nat {
    timeout * nanoInTick
  }

  /**
   * The two compound additions: whole seconds of a non-negative span go to the seconds
   * field and the rest to the nanosecond field. The span is never negative, so C's
   * truncating `/` and `%` agree with Dafny's here.
   */
  function AddSpan(t: Time, span: nat): (r: Time)
    ensures Nanos(r) == Nanos(t) + span
    ensures t.nsec <= r.nsec < t.nsec + NanosPerSecond
  {
    Time(t.sec + span / NanosPerSecond, t.nsec + span % NanosPerSecond)
  }

  /**
   * The carry step: a nanosecond field of a second or more is folded into the seconds.
   * The field is then positive, so C's truncating `/` and `%` agree with Dafny's.
   */
  function Normalize(t: Time): (r: Time)
    ensures Nanos(r) == Nanos(t)
    ensures t.nsec >= 0 ==> Normalized(r)
    ensures Normalized(t) ==> r == t
  {
    if t.nsec >= NanosPerSecond then
      Time(t.sec + t.nsec / NanosPerSecond, t.nsec % NanosPerSecond)
    else
      t
  }

  /** The deadline `timeout` ticks of `nanoInTick` nanoseconds after `now`. */
  function Deadline(now: Time, timeout: Uint32, nanoInTick: nat): (r: Time)
    ensures Nanos(r) == Nanos(now) + timeout * nanoInTick
    ensures Nanos(now) <= Nanos(r)
    ensures Normalized(now) ==> Normalized(r)
    ensures Normalized(now) && timeout == 0 ==> r == now
  {
    Normalize(AddSpan(now, TotalNanos(timeout, nanoInTick)))
  }

  lemma MulMonotone(a: nat, b: nat, c: nat)
    requires b <= c
    ensures a * b <= a * c
  {
    var d := c - b;
    assert a * c == a * b + a * d;
  }

  /** With a tick of at most one second, `timeout * nanoInTick` fits an `int64_t` for every `uint32_t` timeout. */
  lemma TotalNanosFitsInt64(timeout: Uint32, nanoInTick: nat)
    requires nanoInTick <= NanosPerSecond
    ensures TotalNanos(timeout, nanoInTick) <= (Uint32Modulus - 1) * NanosPerSecond < Int64Max
  {
    MulMonotone(timeout, nanoInTick, NanosPerSecond);
    MulMonotone(NanosPerSecond, timeout, Uint32Modulus - 1);
  }

  /**
   * No step of the conversion overflows a 64-bit `time_t` or `long` when the clock reading
   * is normalised and at least 2^32 seconds short of the largest `time_t`.
   */
  lemma DeadlineFitsInt64(now: Time, timeout: Uint32, nanoInTick: nat)
    requires nanoInTick <= NanosPerSecond
    requires Normalized(now) && Int64Min <= now.sec <= Int64Max - Uint32Modulus
    ensures InInt64(TotalNanos(timeout, nanoInTick))
    ensures InInt64(AddSpan(now, TotalNanos(timeout, nanoInTick)).sec)
    ensures InInt64(AddSpan(now, TotalNanos(timeout, nanoInTick)).nsec)
    ensures InInt64(Deadline(now, timeout, nanoInTick).sec)
  {
    TotalNanosFitsInt64(timeout, nanoInTick);
  }

  /** Before the carry the nanosecond field is below two seconds, so the carry adds at most one second. */
  lemma CarryAtMostOneSecond(now: Time, timeout: Uint32, nanoInTick: nat)
    requires Normalized(now)
    ensures var t := AddSpan(now, TotalNanos(timeout, nanoInTick));
      0 <= t.nsec < 2 * NanosPerSecond &&
      Deadline(now, timeout, nanoInTick).sec == t.sec + (if t.nsec >= NanosPerSecond then 1 else 0)
  {
    var t := AddSpan(now, TotalNanos(timeout, nanoInTick));
    if t.nsec >= NanosPerSecond {
      assert t.nsec / NanosPerSecond == 1;
    }
  }

  /** On normalised values, comparing instants and comparing fields agree. */
  lemma {:induction false} NotLaterIsNanosOrder(a: Time, b: Time)
    requires Normalized(a) && Normalized(b)
    ensures NotLater(a, b) <==> Nanos(a) <= Nanos(b)
  {
    if a.sec < b.sec {
      assert a.sec * NanosPerSecond + NanosPerSecond <= b.sec * NanosPerSecond;
    } else if b.sec < a.sec {
      assert b.sec * NanosPerSecond + NanosPerSecond <= a.sec * NanosPerSecond;
    }
  }

  /** The deadline never precedes the clock reading it was computed from. */
  lemma DeadlineNotBeforeNow(now: Time, timeout: Uint32, nanoInTick: nat)
    requires Normalized(now)
    ensures NotLater(now, Deadline(now, timeout, nanoInTick))
  {
    NotLaterIsNanosOrder(now, Deadline(now, timeout, nanoInTick));
  }

  /** A longer timeout never gives an earlier deadline. */
  lemma DeadlineMonotone(now: Time, shorter: Uint32, longer: Uint32, nanoInTick: nat)
    requires Normalized(now) && shorter <= longer
    ensures NotLater(Deadline(now, shorter, nanoInTick), Deadline(now, longer, nanoInTick))
  {
    MulMonotone(nanoInTick, shorter, longer);
    NotLaterIsNanosOrder(Deadline(now, shorter, nanoInTick), Deadline(now, longer, nanoInTick));
  }

  /** A `struct timespec` written through a pointer. */
  class Timespec {
    var tvSec: int
    var tvNsec: int

    constructor ()
      ensures tvSec == 0 && tvNsec == 0
    {
      tvSec, tvNsec := 0, 0;
    }

    function Value(): Time
      reads this
    {
      Time(tvSec, tvNsec)
    }
  }

  /**
   * `cp_timeoutToTimespec`: `now` is what `clock_gettime(CLOCK_REALTIME, ts)` stores, and
   * `nanoInTick` is the configured `CP_CONFIG_NANO_IN_TICK`, at most one second by the
   * build-time assertion.
   */
  method TimeoutToTimespec(timeout: Uint32, ts: Timespec, now: Time, nanoInTick: nat)
    requires nanoInTick <= NanosPerSecond
    modifies ts
    ensures ts.Value() == Deadline(now, timeout, nanoInTick)
  {
    ts.tvSec, ts.tvNsec := now.sec, now.nsec;
    var totalNanos := timeout * nanoInTick;
    ts.tvSec := ts.tvSec + totalNanos / NanosPerSecond;
    ts.tvNsec := ts.tvNsec + totalNanos % NanosPerSecond;
    if ts.tvNsec >= NanosPerSecond {
      ts.tvSec := ts.tvSec + ts.tvNsec / NanosPerSecond;
      ts.tvNsec := ts.tvNsec % NanosPerSecond;
    }
  }
}

/** A client of the deadline conversion: 1500 ticks of 1 ms from a reading just short of a second boundary. */
module DeadlineScenario {
  import opened Common

  method CarryIntoSeconds()
  {
    var ts := new Timespec();
    TimeoutToTimespec(1500, ts, Time(10, 999_999_999), 1_000_000);
    assert ts.Value() == Time(12, 499_999_999);
  }
}
