/**
 Backoff and log throttling across a run of failing accepts. Times are milliseconds; a run is
 paced when each attempt waits at least the delay the one before it was given.
 */
module AcceptBackoff {
  import opened Basics

  const BASE_DELAY := 5
  const MAX_DELAY := 1000
  const LOG_EVERY := 30_000
  const MAX_CONSECUTIVE := 0xFFFF_FFFF
  const MAX_SUPPRESSED := 0xFFFF_FFFF_FFFF_FFFF

  datatype Failure = Failure(delay: nat, logSuppressed: Option<nat>)

  datatype Backoff = Backoff(consecutive: nat, lastLogged: Option<nat>, suppressed: nat)

  function New(): Backoff { Backoff(0, None, 0) }

  function DelayAfter(consecutive: nat): nat { Min(BASE_DELAY * Pow2(Min(consecutive, 20)), MAX_DELAY) }

  /** A log line is due first of all, and then once the interval has passed. */
  predicate Due(b: Backoff, now: nat) {
    b.lastLogged.None? || now >= b.lastLogged.value + LOG_EVERY
  }

  function Failed(b: Backoff, now: nat): (Backoff, Failure) {
    var delay := DelayAfter(b.consecutive);
    var consecutive := Min(b.consecutive + 1, MAX_CONSECUTIVE);
    if Due(b, now) then (Backoff(consecutive, Some(now), 0), Failure(delay, Some(b.suppressed)))
    else (Backoff(consecutive, b.lastLogged, Min(b.suppressed + 1, MAX_SUPPRESSED)), Failure(delay, None))
  }

  class AcceptBackoff {
    var consecutive: nat
    var lastLogged: Option<nat>
    var suppressed: nat

    function View(): Backoff
      reads this
    {
      Backoff(consecutive, lastLogged, suppressed)
    }

    constructor ()
      ensures View() == New()
    {
      consecutive, lastLogged, suppressed := 0, None, 0;
    }

    method RecordSuccess()
      modifies this
      ensures View() == New()
    {
      consecutive, lastLogged, suppressed := 0, None, 0;
    }

    method RecordFailure(now: nat) returns (f: Failure)
      modifies this
      ensures (View(), f) == Failed(old(View()), now)
    {
      var delay := Min(BASE_DELAY * Pow2(Min(consecutive, 20)), MAX_DELAY);
      consecutive := Min(consecutive + 1, MAX_CONSECUTIVE);
      var due := lastLogged.None? || now >= lastLogged.value + LOG_EVERY;
      if due {
        f := Failure(delay, Some(suppressed));
        lastLogged := Some(now);
        suppressed := 0;
      } else {
        suppressed := Min(suppressed + 1, MAX_SUPPRESSED);
        f := Failure(delay, None);
      }
    }
  }

  // --- runs of failures ------------------------------------------------------------------

  /** The state after failures at these times, from the start of a run. */
  function After(times: seq<nat>): Backoff {
    if times == [] then New() else Failed(After(times[..|times| - 1]), times[|times| - 1]).0
  }

  /** What the i-th failure of the run is told. */
  function Told(times: seq<nat>, i: nat): Failure
    requires i < |times|
  {
    Failed(After(times[..i]), times[i]).1
  }

  /** Each attempt waits for the delay it was told. */
  ghost predicate Paced(times: seq<nat>) {
    forall i :: 0 <= i < |times| - 1 ==> times[i + 1] >= times[i] + Told(times, i).delay
  }

  function Logs(times: seq<nat>, i: nat, j: nat): nat
    requires i <= j <= |times|
    decreases j
  {
    if i == j then 0 else Logs(times, i, j - 1) + if Told(times, j - 1).logSuppressed.Some? then 1 else 0
  }

  function Reported(times: seq<nat>, j: nat): nat
    requires j <= |times|
  {
    if j == 0 then 0
    else Reported(times, j - 1)
         + if Told(times, j - 1).logSuppressed.Some? then Told(times, j - 1).logSuppressed.value else 0
  }

  // --- delays ----------------------------------------------------------------------------

  lemma DelaysGrow(a: nat, b: nat)
    requires a <= b
    ensures BASE_DELAY <= DelayAfter(a) <= DelayAfter(b) <= MAX_DELAY
  {
    hide Pow2;
    Pow2Grows(Min(a, 20), Min(b, 20));
    Pow2Grows(0, Min(a, 20));
    assert Pow2(0) == 1 by { Pow2Values(); }
  }

  lemma Pow2Values()
    ensures Pow2(0) == 1 && Pow2(1) == 2 && Pow2(2) == 4 && Pow2(3) == 8
    ensures Pow2(4) == 16 && Pow2(5) == 32 && Pow2(6) == 64 && Pow2(7) == 128 && Pow2(8) == 256
  {
    assert Pow2(4) == 16;
  }

  lemma DelayFromEight(k: nat)
    ensures k >= 8 ==> DelayAfter(k) == MAX_DELAY
  {
    hide Pow2;
    if k >= 8 {
      Pow2Values();
      Pow2Grows(8, Min(k, 20));
    }
  }

  lemma {:induction false} ConsecutiveCounts(times: seq<nat>)
    ensures After(times).consecutive == Min(|times|, MAX_CONSECUTIVE)
  {
    if times != [] { ConsecutiveCounts(times[..|times| - 1]); }
  }

  /** The i-th delay is `min(5 ms * 2^i, 1 s)`, however long the run: the saturating counter and the
      capped exponent change nothing. */
  lemma DelayOf(times: seq<nat>, i: nat)
    requires i < |times|
    ensures Told(times, i).delay == DelayAfter(i)
  {
    ConsecutiveCounts(times[..i]);
    if i > MAX_CONSECUTIVE {
      DelayFromEight(i);
      DelayFromEight(MAX_CONSECUTIVE);
    }
  }

  /** Delays never shrink within a run, and lie between 5 ms and 1 s. */
  lemma DelaysNeverShrink(times: seq<nat>, i: nat, j: nat)
    requires i <= j < |times|
    ensures 5 <= Told(times, i).delay <= Told(times, j).delay <= 1000
  {
    DelayOf(times, i);
    DelayOf(times, j);
    DelaysGrow(i, j);
  }

  /** The i-th delay of a run, in milliseconds. */
  lemma DelayDoubles(times: seq<nat>, i: nat)
    requires i < |times|
    ensures Told(times, i).delay == Min(5 * Pow2(Min(i, 8)), 1000)
  {
    DelayOf(times, i);
    DelayFromEight(i);
    DelayFromEight(8);
    hide Pow2;
  }

  // --- attempts --------------------------------------------------------------------------

  /** The time the first `k` delays of a run add up to. */
  function Waited(k: nat): nat { if k == 0 then 0 else Waited(k - 1) + DelayAfter(k - 1) }

  lemma FirstEight()
    ensures Waited(8) == 1275
  {
    hide DelayAfter;
    ShortDelays();
    assert Waited(4) == 75;
  }

  lemma ShortDelays()
    ensures DelayAfter(0) == 5 && DelayAfter(1) == 10 && DelayAfter(2) == 20 && DelayAfter(3) == 40
    ensures DelayAfter(4) == 80 && DelayAfter(5) == 160 && DelayAfter(6) == 320 && DelayAfter(7) == 640
  {
    hide Pow2;
    Pow2Values();
  }

  lemma {:induction false} WaitedGrows(k: nat)
    ensures Waited(k) >= 1000 * (k - 7)
  {
    if k == 8 {
      FirstEight();
    } else if k > 8 {
      WaitedGrows(k - 1);
      DelayFromEight(k - 1);
    }
  }

  /** From any attempt of a paced run, the next `n` take at least as long as the first `n` did. */
  lemma {:induction false} WindowWaits(times: seq<nat>, i: nat, n: nat)
    requires Paced(times) && i + n < |times|
    ensures times[i + n] >= times[i] + Waited(n)
  {
    if n > 0 {
      WindowWaits(times, i, n - 1);
      var k := i + n - 1;
      assert times[k + 1] >= times[k] + Told(times, k).delay;
      DelayOf(times, k);
      DelaysGrow(n - 1, k);
    }
  }

  /** In any stretch of T milliseconds there are at most T / 1 s + 8 attempts. */
  lemma AttemptsAreBounded(times: seq<nat>, i: nat, j: nat)
    requires Paced(times) && i <= j < |times|
    ensures times[i] <= times[j] && j - i + 1 <= (times[j] - times[i]) / 1000 + 8
  {
    WindowWaits(times, i, j - i);
    WaitedGrows(j - i);
  }

  // --- log lines -------------------------------------------------------------------------

  lemma {:induction false} TimesAscend(times: seq<nat>, i: nat, j: nat)
    requires Paced(times) && i <= j < |times|
    ensures times[i] <= times[j]
    decreases j
  {
    if i < j {
      TimesAscend(times, i, j - 1);
      assert times[j - 1 + 1] >= times[j - 1];
    }
  }

  lemma StepBack(times: seq<nat>, j: nat)
    requires j < |times|
    ensures After(times[..j + 1]) == Failed(After(times[..j]), times[j]).0
  {
    assert times[..j + 1][..j] == times[..j];
  }

  /** Log lines of a window are an interval apart, the first of them not before it begins. */
  lemma {:induction false} LogsAreSpaced(times: seq<nat>, i: nat, j: nat)
    requires Paced(times) && i <= j <= |times| && i < |times|
    ensures Logs(times, i, j) > 0 ==>
              && After(times[..j]).lastLogged.Some? && j > i
              && times[i] + LOG_EVERY * (Logs(times, i, j) - 1) <= After(times[..j]).lastLogged.value <= times[j - 1]
    decreases j
  {
    if i < j {
      LogsAreSpaced(times, i, j - 1);
      StepBack(times, j - 1);
      TimesAscend(times, i, j - 1);
      if j - 1 > i { TimesAscend(times, j - 2, j - 1); }
    }
  }

  /** In any stretch of T milliseconds there are at most T / 30 s + 1 log lines. */
  lemma LogsAreBounded(times: seq<nat>, i: nat, j: nat)
    requires Paced(times) && i <= j < |times|
    ensures times[i] <= times[j] && Logs(times, i, j + 1) <= (times[j] - times[i]) / 30_000 + 1
  {
    LogsAreSpaced(times, i, j + 1);
    TimesAscend(times, i, j);
  }

  // --- accounting ------------------------------------------------------------------------

  /** What is suppressed since the last line fits in the interval: the counter never saturates. */
  lemma {:induction false} SuppressedIsSmall(times: seq<nat>, j: nat)
    requires Paced(times) && j <= |times|
    ensures j == 0 ==> After(times[..j]) == New()
    ensures j > 0 ==>
              var b := After(times[..j]);
              && b.lastLogged.Some? && times[j - 1] >= b.lastLogged.value + BASE_DELAY * b.suppressed
              && times[j - 1] < b.lastLogged.value + LOG_EVERY
  {
    if j > 0 {
      SuppressedIsSmall(times, j - 1);
      StepBack(times, j - 1);
      if j > 1 {
        assert times[j - 2 + 1] >= times[j - 2] + Told(times, j - 2).delay;
        DelaysNeverShrink(times, j - 2, j - 2);
      }
      hide After, Told;
    }
  }

  /** Every failure is a log line, or reported by one, or still pending. */
  lemma {:induction false} EveryFailureIsCounted(times: seq<nat>, j: nat)
    requires Paced(times) && j <= |times|
    ensures Logs(times, 0, j) + Reported(times, j) + After(times[..j]).suppressed == j
  {
    if j > 0 {
      EveryFailureIsCounted(times, j - 1);
      SuppressedIsSmall(times, j - 1);
      StepBack(times, j - 1);
      assert After(times[..j - 1]).suppressed < LOG_EVERY;
      FailedCounts(After(times[..j - 1]), times[j - 1]);
      hide Paced, After, Failed;
    }
  }

  lemma FailedCounts(b: Backoff, now: nat)
    requires b.suppressed < MAX_SUPPRESSED
    ensures var (b', f) := Failed(b, now);
            b'.suppressed + (if f.logSuppressed.Some? then 1 + f.logSuppressed.value else 0) == b.suppressed + 1
  {
    hide DelayAfter;
  }

  // --- which failures are logged ---------------------------------------------------------

  /** When the last log line before the i-th failure was written. */
  function LastLine(times: seq<nat>, i: nat): Option<nat>
    requires i <= |times|
  {
    if i == 0 then None
    else if Told(times, i - 1).logSuppressed.Some? then Some(times[i - 1])
    else LastLine(times, i - 1)
  }

  lemma {:induction false} LastLineIsKept(times: seq<nat>, i: nat)
    requires i <= |times|
    ensures After(times[..i]).lastLogged == LastLine(times, i)
  {
    if i > 0 {
      LastLineIsKept(times, i - 1);
      StepBack(times, i - 1);
    }
  }

  /** A failure is logged exactly if none was before in the run, or the last line is 30 seconds old. */
  lemma LoggedIff(times: seq<nat>, i: nat)
    requires i < |times|
    ensures Told(times, i).logSuppressed.Some?
            <==> LastLine(times, i).None? || times[i] - LastLine(times, i).value >= 30_000
  {
    LastLineIsKept(times, i);
  }
}
