/** `evaluateStepTimeout`: whether a step's body runs under a deadline, and
    how long that deadline is. */
module Timeout {
  import opened Wrappers
  import opened Text
  import opened Expressions

  const NanosPerMinute: int := 60_000_000_000
  const TwoTo64: int := 0x1_0000_0000_0000_0000

  /** The context the body runs under: the parent's own (with a no-op cancel
      function), or one made by `context.WithTimeout` for `minutes` minutes,
      where `nanos` is the `time.Duration` passed to it (a duration that is
      not positive gives a context that has already expired). */
  datatype TimeoutScope = Unbounded | Bounded(minutes: int, nanos: int)

  /** The timeout for an already interpolated `timeout-minutes` string, as
      the code computes it: the duration is Go's 64-bit product, which wraps. */
  function TimeoutFor(timeout: string): (r: TimeoutScope)
    ensures r.Bounded? <==> timeout != "" && ParseInt10(timeout).Some?
    ensures r.Bounded? ==> r.minutes == ParseInt10(timeout).value && r.nanos == DurationAsWritten(r.minutes)
  {
    if timeout != "" then
      match ParseInt10(timeout)
      case Some(minutes) => Bounded(minutes, DurationAsWritten(minutes))
      case None => Unbounded
    else Unbounded
  }

  /** `evaluateStepTimeout`: the step's `timeout-minutes`, interpolated with
      the run context's evaluator, decides the deadline. */
  function EvaluateStepTimeout(interpolate: Interpolator, timeoutMinutes: string): TimeoutScope {
    TimeoutFor(interpolate(RunContextEvaluator, timeoutMinutes))
  }

  /** A declared count of minutes, written the way `FormatInt` writes it,
      bounds the step by exactly that many minutes. */
  lemma TimeoutForInteger(n: int)
    requires MinInt64 <= n <= MaxInt64
    ensures TimeoutFor(FormatInt(n)) == Bounded(n, DurationAsWritten(n))
  {
    ParseFormatRoundTrip(n);
  }

  /** An empty string, a lone sign, or one holding anything but an optionally
      signed run of digits ("abc", " 5", "5m", "1.5"), leaves the step
      unbounded. */
  lemma TimeoutForNonInteger(timeout: string, i: nat)
    requires || timeout == "" || timeout == "+" || timeout == "-"
             || (i < |timeout| && !IsDigit(timeout[i]) && !(i == 0 && (timeout[0] == '+' || timeout[0] == '-')))
    ensures TimeoutFor(timeout) == Unbounded
  {
    if timeout != "" && timeout != "+" && timeout != "-" {
      ParseInt10RejectsNonDigit(timeout, i);
    }
  }

  /** A count of minutes outside 64 bits is a range error of `ParseInt`, and
      leaves the step unbounded too. */
  lemma TimeoutForOutOfRange(n: int)
    requires n < MinInt64 || MaxInt64 < n
    ensures TimeoutFor(FormatInt(n)) == Unbounded
  {
    ParseFormatOutOfRange(n);
  }

  /** Go's signed 64-bit wrap-around. */
  function WrapInt64(x: int): (r: int)
    ensures MinInt64 <= r <= MaxInt64
    ensures (r - x) % TwoTo64 == 0
    ensures MinInt64 <= x <= MaxInt64 ==> r == x
  {
    (x - MinInt64) % TwoTo64 + MinInt64
  }

  /** `time.Duration(timeOutMinutes)*time.Minute` as Go computes it: the
      product wraps around in 64 bits. */
  function DurationAsWritten(minutes: int): (r: int)
    requires MinInt64 <= minutes <= MaxInt64
    ensures MinInt64 <= r <= MaxInt64
    ensures MinInt64 <= minutes * NanosPerMinute <= MaxInt64 ==> r == minutes * NanosPerMinute
  {
    WrapInt64(minutes * NanosPerMinute)
  }

  /** A positive timeout one minute past the largest that fits, and every
      timeout up to the point where the product passes 2^64, is accepted but
      becomes a negative duration, so the context handed to the body has
      already expired: the step is cancelled at once instead of being bounded. */
  lemma DurationAsWrittenOverflows(n: int)
    requires 153722868 <= n <= 307445734
    ensures TimeoutFor(FormatInt(n)) == Bounded(n, n * NanosPerMinute - TwoTo64)
    ensures TimeoutFor(FormatInt(n)).nanos < 0
    ensures CorrectedTimeoutFor(FormatInt(n)) == Bounded(n, MaxInt64)
  {
    TimeoutForInteger(n);
    ParseFormatRoundTrip(n);
    var x := n * NanosPerMinute;
    assert MaxInt64 < x < TwoTo64;
    assert (x - MinInt64) % TwoTo64 == x - MinInt64 - TwoTo64 by {
      assert TwoTo64 <= x - MinInt64 < 2 * TwoTo64;
    }
  }

  /** The arithmetic behind it: 153722868 minutes are 9223372080000000000
      nanoseconds, 43145224193 more than `time.Duration` holds. */
  lemma DurationAsWrittenOf153722868()
    ensures DurationAsWritten(153722868) == -9223371993709551616
    ensures Duration(153722868) == MaxInt64
  {
    assert 153722868 * NanosPerMinute == 9223372080000000000;
    assert 9223372080000000000 - MinInt64 == TwoTo64 + 9223372080000000000 - TwoTo64 - MinInt64;
    assert (9223372080000000000 - MinInt64) % TwoTo64 == 9223372080000000000 - MinInt64 - TwoTo64;
  }

  /** The duration of `minutes` minutes, saturated at the limits of
      `time.Duration` instead of wrapping. */
  function Duration(minutes: int): (r: int)
    ensures MinInt64 <= r <= MaxInt64
    ensures minutes > 0 ==> r > 0
    ensures minutes < 0 ==> r < 0
    ensures MinInt64 <= minutes * NanosPerMinute <= MaxInt64 ==> r == minutes * NanosPerMinute
  {
    var exact := minutes * NanosPerMinute;
    if exact > MaxInt64 then MaxInt64 else if exact < MinInt64 then MinInt64 else exact
  }

  /** A longer declared timeout never gives a shorter deadline, and where
      nothing overflows the corrected duration is what Go computes. */
  lemma DurationMonotone(a: int, b: int)
    requires a <= b
    ensures Duration(a) <= Duration(b)
    ensures MinInt64 <= a <= MaxInt64 && MinInt64 <= a * NanosPerMinute <= MaxInt64 ==> Duration(a) == DurationAsWritten(a)
  {
  }

  /** The timeout as evidently intended: the same parse, with the duration
      saturated instead of wrapped, so a positive count of minutes always
      gives a deadline in the future. */
  function CorrectedTimeoutFor(timeout: string): (r: TimeoutScope)
    ensures r.Bounded? <==> TimeoutFor(timeout).Bounded?
    ensures r.Bounded? ==> r.minutes == TimeoutFor(timeout).minutes && r.nanos == Duration(r.minutes)
    ensures r.Bounded? && r.minutes > 0 ==> r.nanos > 0
  {
    match TimeoutFor(timeout)
    case Bounded(minutes, _) => Bounded(minutes, Duration(minutes))
    case Unbounded => Unbounded
  }

  /** The corrected timeout differs from the code's only where Go's product
      overflows. */
  lemma CorrectedTimeoutAgreesWithoutOverflow(timeout: string)
    requires TimeoutFor(timeout).Bounded?
    requires MinInt64 <= TimeoutFor(timeout).minutes * NanosPerMinute <= MaxInt64
    ensures CorrectedTimeoutFor(timeout) == TimeoutFor(timeout)
  {
  }
}
