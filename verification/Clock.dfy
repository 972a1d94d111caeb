/** Time as agent/sched.c measures it: `struct timespec` and the `ts_diff_to_ms` macro. */
module Clock {

  const NS_PER_MS := 1_000_000
  const NS_PER_S := 1_000_000_000

  datatype Timespec = Timespec(sec: int, nsec: int)

  /** What `clock_gettime` fills in. */
  predicate Normal(t: Timespec) {
    0 <= t.nsec < NS_PER_S
  }

  /** C division of `a` by a positive `b`: towards zero. */
  function TruncDiv(a: int, b: int): int
    requires b > 0
  {
    if a >= 0 then a / b else -(-a / b)
  }

  /** `ts_diff_to_ms(a, b)`. */
  function TsDiffToMs(a: Timespec, b: Timespec): int {
    (b.sec - a.sec) * 1000 + TruncDiv(b.nsec - a.nsec, NS_PER_MS)
  }

  /** The real distance from `a` to `b`, in nanoseconds. */
  function NsBetween(a: Timespec, b: Timespec): int {
    (b.sec - a.sec) * NS_PER_S + (b.nsec - a.nsec)
  }

  /** A task issued at `issued` with interval `elapse` is past the test at the top of `sched_perform_job`. */
  predicate Elapsed(issued: Timespec, now: Timespec, elapse: int) {
    TsDiffToMs(issued, now) >= elapse
  }

  /** The macro rounds the sub-second part towards zero, so it errs by less than a millisecond,
      downwards when the nanoseconds grew and upwards when they shrank. */
  lemma DiffWithinOneMs(a: Timespec, b: Timespec)
    ensures -NS_PER_MS < TsDiffToMs(a, b) * NS_PER_MS - NsBetween(a, b) < NS_PER_MS
    ensures a.nsec <= b.nsec ==> TsDiffToMs(a, b) * NS_PER_MS <= NsBetween(a, b)
    ensures b.nsec <= a.nsec ==> NsBetween(a, b) <= TsDiffToMs(a, b) * NS_PER_MS
  {
  }

  /** The fraction of a millisecond the macro rounds up when it lets a task through at its exact interval. */
  predicate RoundedUp(issued: Timespec, now: Timespec, elapse: int) {
    && TsDiffToMs(issued, now) == elapse
    && now.nsec < issued.nsec
    && (issued.nsec - now.nsec) % NS_PER_MS != 0
  }

  /** The comment on `sched_add_task` grants a task a sleep of at least its interval. Exactly when
      a task passes the test, and exactly when passing it breaks that promise: the task is never
      held past its interval, and is let go early, by less than a millisecond, just when the
      macro rounded up to the interval itself. */
  lemma ElapsedExactly(issued: Timespec, now: Timespec, elapse: int)
    ensures Elapsed(issued, now, elapse) <==>
            NsBetween(issued, now) >= elapse * NS_PER_MS || RoundedUp(issued, now, elapse)
    ensures RoundedUp(issued, now, elapse) ==>
            (elapse - 1) * NS_PER_MS < NsBetween(issued, now) < elapse * NS_PER_MS
  {
  }

  /** The promise does fail: a 2 ms task runs 1.000001 ms after it was issued. */
  lemma EarlyByRounding()
    ensures var a, b := Timespec(0, 999_999_999), Timespec(1, 1_000_000);
      Normal(a) && Normal(b) && Elapsed(a, b, 2) && NsBetween(a, b) == 1_000_001
  {
  }

  /** Distances add up along a chain of instants. */
  lemma NsAdd(a: Timespec, b: Timespec, c: Timespec)
    ensures NsBetween(a, c) == NsBetween(a, b) + NsBetween(b, c)
  {
  }
}
