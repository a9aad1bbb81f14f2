/** How far the database's delays are from the engine's: backoffs are stored in whole milliseconds, and
    every interval is passed on in whole seconds. */
module Backoff {
  import opened EngineSteps
  import opened Machine
  import opened Statements
  import opened Tables

  lemma CutsLessThanASecond(d: Time)
    requires d >= 0
    ensures 0 <= d - WholeSeconds(d) < SECOND
    ensures WholeSeconds(d) == d <==> d % SECOND == 0
  {
    assert d == d / SECOND * SECOND + d % SECOND;
  }

  lemma ProductBelow(r: Time, m: Time, k: nat)
    requires 0 <= r < m
    ensures 0 <= r * k <= m * k && (k > 0 ==> r * k < m * k)
  {
    if k > 0 {
      assert (m - r) * k > 0;
    }
  }

  /** The retry delay of the database is never longer than the engine's, and shorter by less than one
      second and k milliseconds after attempt k. */
  lemma RetryDelayIsClose(backoff: Time, k: nat)
    requires backoff > 0
    ensures 0 <= backoff * k - RetryDelay(backoff / MILLISECOND, k) < SECOND + k * MILLISECOND
  {
    var ms, r := backoff / MILLISECOND, backoff % MILLISECOND;
    assert backoff == ms * MILLISECOND + r;
    var stored := ms * MILLISECOND;
    assert backoff * k == stored * k + r * k;
    assert stored * k >= 0;
    CutsLessThanASecond(stored * k);
    ProductBelow(r, MILLISECOND, k);
  }

  /** Both back ends wait equally long exactly when the backoff loses nothing on either way. */
  lemma RetryDelayIsExact(backoff: Time, k: nat)
    requires backoff > 0 && k > 0
    ensures RetryDelay(backoff / MILLISECOND, k) == backoff * k <==>
              backoff % MILLISECOND == 0 && (backoff * k) % SECOND == 0
  {
    var ms, r := backoff / MILLISECOND, backoff % MILLISECOND;
    assert backoff == ms * MILLISECOND + r;
    var stored := ms * MILLISECOND;
    assert backoff * k == stored * k + r * k;
    assert stored * k >= 0;
    CutsLessThanASecond(stored * k);
    if r > 0 { assert r * k > 0; } else { assert r * k == 0; }
  }

  /** A lease time below one second becomes no time at all: what is claimed has lapsed at once. */
  lemma ShortLeaseLapsesAtOnce(leaseTTL: Time, row: ActivityRow, now: Time)
    requires leaseTTL > 0 && row.status == Running
    requires row.leaseExpiresAt == Some(now + WholeSeconds(leaseTTL))
    ensures HasLapsed(row, now) <==> leaseTTL < SECOND
  {
    CutsLessThanASecond(leaseTTL);
  }
}
