/**
 * Go's `time.Duration` as an integer count of nanoseconds, and the
 * conversion to whole milliseconds that the workload statistics record.
 */
module GoTime {
  const NanosPerMilli: int := 1000000

  /** Duration.Milliseconds: integer division that truncates toward zero. */
  function Milliseconds(d: int): (ms: int)
    ensures d >= 0 ==> 0 <= ms && ms * NanosPerMilli <= d < ms * NanosPerMilli + NanosPerMilli
    ensures d < 0 ==> ms <= 0 && ms * NanosPerMilli - NanosPerMilli < d <= ms * NanosPerMilli
  {
    if d >= 0 then d / NanosPerMilli else -((-d) / NanosPerMilli)
  }

  /** A whole number of milliseconds converts back exactly. */
  lemma MillisecondsOfWholeMillis(k: int)
    ensures Milliseconds(k * NanosPerMilli) == k
  {
    var ms := Milliseconds(k * NanosPerMilli);
    if k * NanosPerMilli >= 0 {
      assert ms * NanosPerMilli <= k * NanosPerMilli < (ms + 1) * NanosPerMilli;
    } else {
      assert (ms - 1) * NanosPerMilli < k * NanosPerMilli <= ms * NanosPerMilli;
    }
  }
}
