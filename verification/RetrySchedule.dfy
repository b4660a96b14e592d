/** When a failed delivery is tried again, and what an HTTP answer means for it. The offsets are the
    retry schedule of the Standard Webhooks specification, section "Deliverability and reliability".
    Times are nanoseconds. */
module RetrySchedule {
  import opened Base

  const SECOND := 1_000_000_000
  const SPEC_ATTEMPTS := 10

  /** Time since the first attempt of attempts 1 to 10, in seconds. */
  const OFFSETS: seq<int> := [0, 5, 305, 2105, 9305, 27305, 63305, 113705, 185705, 272105]

  function Index(completed: int): (i: nat)
    ensures i < SPEC_ATTEMPTS
    ensures 1 <= completed < SPEC_ATTEMPTS ==> i == completed
  {
    Min(Max(completed, 1), SPEC_ATTEMPTS - 1)
  }

  function Offset(completed: int): int {
    OFFSETS[Index(completed)] * SECOND
  }

  /** Adds up to a tenth of the offset; `draw` is the random number. */
  function AddJitter(scheduled: int, offset: int, draw: nat): int {
    if offset <= 0 || offset / 10 <= 0 then scheduled else scheduled + draw % (offset / 10 + 1)
  }

  function NextAttemptTime(first: int, completed: int, draw: nat, retryAfter: Option<int>): int {
    var base := AddJitter(first + Offset(completed), Offset(completed), draw);
    if retryAfter.Some? && retryAfter.value > base then retryAfter.value else base
  }

  function WindowStart(first: int, completed: int): int {
    first + Offset(completed)
  }

  function WindowEnd(first: int, completed: int): int {
    first + Offset(completed) + Offset(completed) / 10
  }

  lemma JitterStays(scheduled: int, offset: int, draw: nat)
    requires offset >= 0
    ensures scheduled <= AddJitter(scheduled, offset, draw) <= scheduled + offset / 10
  {
  }

  lemma OffsetValues(completed: int)
    ensures Offset(completed) >= 0
    ensures completed < SPEC_ATTEMPTS - 1 ==> Offset(completed) + Offset(completed) / 10 < Offset(Max(completed, 1) + 1)
    ensures Offset(completed) <= 272105 * SECOND
  {
    var i := Index(completed);
    assert i == 1 || i == 2 || i == 3 || i == 4 || i == 5 || i == 6 || i == 7 || i == 8 || i == 9;
  }

  /** Whatever the draw, the attempt after `completed` attempts is due inside its window; a
      Retry-After (section 10.2.3 of RFC 9110) can only postpone it, and only to the instant it names. */
  lemma DueInWindow(first: int, completed: int, draw: nat, retryAfter: Option<int>)
    ensures var due := NextAttemptTime(first, completed, draw, retryAfter);
            && WindowStart(first, completed) <= due
            && (due <= WindowEnd(first, completed) || Some(due) == retryAfter)
            && (retryAfter.None? || retryAfter.value <= WindowStart(first, completed) ==> due <= WindowEnd(first, completed))
            && due == match retryAfter
                      case None => NextAttemptTime(first, completed, draw, None)
                      case Some(instant) => Max(instant, NextAttemptTime(first, completed, draw, None))
  {
    OffsetValues(completed);
    JitterStays(first + Offset(completed), Offset(completed), draw);
  }

  /** Every instant of the window is drawn. */
  lemma EachInstantDrawn(first: int, completed: int, due: int)
    requires WindowStart(first, completed) <= due <= WindowEnd(first, completed)
    ensures NextAttemptTime(first, completed, due - WindowStart(first, completed), None) == due
  {
    OffsetValues(completed);
    Unwrapped(due - WindowStart(first, completed), Offset(completed) / 10 + 1);
  }

  lemma Unwrapped(x: int, m: int)
    requires 0 <= x < m
    ensures x % m == x
  {
  }

  /** The attempts are 5 seconds, 5 and 30 minutes, and 2, 5, 10, 14, 20 and 24 hours apart. */
  lemma ScheduleGaps(first: int)
    ensures var at := (k: int) => (WindowStart(first, k) - first) / SECOND;
            var hour := 3600;
            && at(1) == 5 && at(2) - at(1) == 5 * 60 && at(3) - at(2) == 30 * 60 && at(4) - at(3) == 2 * hour
            && at(5) - at(4) == 5 * hour && at(6) - at(5) == 10 * hour && at(7) - at(6) == 14 * hour
            && at(8) - at(7) == 20 * hour && at(9) - at(8) == 24 * hour
  {
  }

  /** The windows of different attempts do not touch and follow each other. */
  lemma {:induction false} WindowsAscend(first: int, j: int, k: int)
    requires 1 <= j < k < SPEC_ATTEMPTS
    ensures first < WindowStart(first, j) <= WindowEnd(first, j) < WindowStart(first, k)
    decreases k - j
  {
    OffsetValues(j);
    OffsetValues(k);
    if k > j + 1 {
      WindowsAscend(first, j, k - 1);
      OffsetValues(k - 1);
    }
    assert Offset(j) >= 5 * SECOND;
  }

  /** Over a whole life cycle without Retry-After: the due times of attempts 2 to 10 strictly
      increase, whatever is drawn for each, and the last is within 1.1 * 272105 seconds of the first. */
  lemma LifeCycleAscends(first: int, draws: nat -> nat, j: int, k: int)
    requires 1 <= j < k < SPEC_ATTEMPTS
    ensures first < NextAttemptTime(first, j, draws(j), None) < NextAttemptTime(first, k, draws(k), None)
    ensures 10 * (NextAttemptTime(first, k, draws(k), None) - first) <= 11 * 272105 * SECOND
  {
    DueInWindow(first, j, draws(j), None);
    DueInWindow(first, k, draws(k), None);
    WindowsAscend(first, j, k);
    OffsetValues(k);
  }

  datatype Outcome = Success | Retry | Fail | Gone

  function ClassifyDelivery(statusCode: int, transportError: bool): Outcome {
    if transportError then Retry
    else if 200 <= statusCode < 300 then Success
    else if statusCode == 410 then Gone
    else if statusCode == 429 then Retry
    else if statusCode == 502 || statusCode == 504 then Retry
    else if statusCode >= 500 then Retry
    else if 300 <= statusCode < 400 then Fail
    else Fail
  }

  /** Only server errors, rate limiting and transport errors are worth another attempt. */
  lemma RetryIff(statusCode: int, transportError: bool)
    ensures ClassifyDelivery(statusCode, transportError).Retry? <==> transportError || statusCode >= 500 || statusCode == 429
    ensures ClassifyDelivery(statusCode, transportError).Success? <==> !transportError && 200 <= statusCode < 300
    ensures ClassifyDelivery(statusCode, transportError).Gone? <==> !transportError && statusCode == 410
  {
  }
}
