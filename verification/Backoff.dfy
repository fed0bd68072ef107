/** How far apart repeated failures push the attempts of one cleanup intent
    (internal/access/recovery.go:24-45, 65-70, 148-152). */
module Backoff {
  import opened KvStore
  import opened Model

  /** One attempt that failed: when it was claimed and when the failure was saved. */
  datatype Setback = Setback(claimedAt: Time, savedAt: Time)

  /** What is stored after a history of failures, each claimed from what the
      one before it saved; `None` when some claim would have been refused. */
  function Saved(id: Id, lease: nat, failures: seq<Setback>): Option<Progress>
    requires failures != []
  {
    var last := failures[|failures| - 1];
    if |failures| == 1 then Some(FailCleanup(FirstClaim(id, lease, last.claimedAt), last.savedAt))
    else
      match Saved(id, lease, failures[..|failures| - 1])
      case None => None
      case Some(p) =>
        match ClaimCleanup(Some(p), id, last.claimedAt, lease)
        case None => None
        case Some(q) => Some(FailCleanup(q, last.savedAt))
  }

  function FirstClaim(id: Id, lease: nat, now: Time): Progress {
    ClaimCleanup(None, id, now, lease).value
  }

  /** Clocks are monotone: a failure is saved no earlier than it was claimed. */
  predicate InOrder(failures: seq<Setback>) {
    forall i :: 0 <= i < |failures| ==> failures[i].claimedAt <= failures[i].savedAt
  }

  function TotalDelay(n: nat): nat {
    if n == 0 then 0 else TotalDelay(n - 1) + RetryDelay(n)
  }

  lemma {:induction false} Pow2Grows(m: nat, n: nat)
    requires m <= n
    ensures Pow2(m) <= Pow2(n)
  {
    if m < n {
      Pow2Grows(m, n - 1);
    }
  }

  lemma Pow2Of5()
    ensures Pow2(5) == 32
  {
    assert Pow2(3) == 8;
  }

  /** Each delay lies between five and 160 seconds and never shrinks. */
  lemma DelayIsBoundedAndMonotone(m: nat, n: nat)
    requires m <= n
    ensures 5 <= RetryDelay(m) <= RetryDelay(n) <= 160
  {
    var a := if m > 6 then 6 else if m < 1 then 1 else m;
    var b := if n > 6 then 6 else if n < 1 then 1 else n;
    Pow2Grows(a - 1, b - 1);
    Pow2Grows(b - 1, 5);
    Pow2Of5();
  }

  /** The delays, in seconds. */
  function DelaySeconds(attempts: nat): nat {
    if attempts <= 1 then 5
    else if attempts == 2 then 10
    else if attempts == 3 then 20
    else if attempts == 4 then 40
    else if attempts == 5 then 80
    else 160
  }

  lemma DelaysInSeconds(attempts: nat)
    ensures RetryDelay(attempts) == DelaySeconds(attempts)
  {
    Pow2Of5();
    assert Pow2(2) == 4 && Pow2(3) == 8 && Pow2(4) == 16;
  }

  lemma {:induction false} TotalDelayClosedForm(n: nat)
    ensures n <= 6 ==> TotalDelay(n) == 5 * (Pow2(n) - 1)
    ensures n >= 6 ==> TotalDelay(n) == 315 + 160 * (n - 6)
  {
    Pow2Of5();
    if n > 0 {
      TotalDelayClosedForm(n - 1);
    }
  }

  /** Each saved failure counts one attempt and pushes the next one out by all
      the delays so far. */
  lemma {:induction false} DelaysAddUp(id: Id, lease: nat, failures: seq<Setback>)
    requires failures != [] && InOrder(failures) && Saved(id, lease, failures).Some?
    ensures var p := Saved(id, lease, failures).value;
            && p.attempts == |failures| && p.id == id
            && p.nextAttemptAt >= failures[0].claimedAt + TotalDelay(|failures|)
  {
    var n := |failures|;
    if n == 1 {
      assert TotalDelay(1) == TotalDelay(0) + RetryDelay(1);
    } else {
      DelaysAddUp(id, lease, failures[..n - 1]);
    }
  }

  /** After `n` consecutive saved failures the next claim is accepted at the
      earliest 5(2^n - 1) seconds after the first, or 315 + 160(n - 6) seconds
      once the cap is reached; and it keeps the intent's ID. */
  lemma BackoffBound(id: Id, lease: nat, failures: seq<Setback>, next: Time)
    requires failures != [] && InOrder(failures) && Saved(id, lease, failures).Some?
    requires ClaimCleanup(Saved(id, lease, failures), id, next, lease).Some?
    ensures var n := |failures|;
            && (n <= 6 ==> next >= failures[0].claimedAt + 5 * (Pow2(n) - 1))
            && (n >= 6 ==> next >= failures[0].claimedAt + 315 + 160 * (n - 6))
            && ClaimCleanup(Saved(id, lease, failures), id, next, lease).value.id == id
            && ClaimCleanup(Saved(id, lease, failures), id, next, lease).value.attempts == n + 1
  {
    DelaysAddUp(id, lease, failures);
    TotalDelayClosedForm(|failures|);
  }
}
