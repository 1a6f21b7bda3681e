// forwardWithRetry: bounded exponential backoff around one delivery attempt.
// Durations are int64 nanoseconds, with Go's wrap-around written out.
module Retry {
  import opened Powers

  datatype AttemptError = Retryable | Permanent

  // What ForwardPayload meets: a request that cannot be made (no destination, no
  // key, no secret), a transport error, or the destination's status.
  datatype Answer = NotSent | NoResponse | Status(code: nat)

  // One attempt, and how long it took (the HTTP client's timeout bounds it).
  datatype Attempt = Attempt(answer: Answer, millis: nat)
  datatype AttemptResult = Delivered | Failed(error: AttemptError)

  predicate Accepted(a: Answer) {
    a == Status(200) || a == Status(201)
  }

  // Client errors will not heal, 429 aside.
  predicate Hopeless(a: Answer) {
    a.NotSent? || (a.Status? && a.code / 100 == 4 && a.code != 429)
  }

  predicate Transient(a: Answer) {
    !Accepted(a) && !Hopeless(a)
  }

  // How ForwardPayload classifies the answer: 429, 5xx and what never came back
  // are retried, any other 4xx is not.
  function Classify(a: Answer): (r: AttemptResult)
    ensures r == Delivered <==> Accepted(a)
    ensures r == Failed(Permanent) <==> Hopeless(a)
    ensures r == Failed(Retryable) <==> Transient(a)
  {
    match a
    case NotSent => Failed(Permanent)
    case NoResponse => Failed(Retryable)
    case Status(code) =>
      if code == 200 || code == 201 then Delivered
      else if 400 <= code < 500 && code != 429 then Failed(Permanent)
      else Failed(Retryable)
  }

  datatype Outcome =
    | Success
    | GaveUp(error: AttemptError)  // a permanent error, returned at once
    | AllFailed                    // "all %d attempts failed"
    | Cancelled(retry: nat)        // context done before this retry

  const MILLISECOND: int := 1_000_000
  const TWO63: int := 0x8000_0000_0000_0000
  const TWO64: int := 0x1_0000_0000_0000_0000

  // Two's complement int64.
  function Wrap64(x: int): int {
    (x + TWO63) % TWO64 - TWO63
  }

  // time.Duration(250<<uint(i-1)) * time.Millisecond
  function Backoff(i: nat): int
    requires i >= 1
  {
    Wrap64(Wrap64(250 * Pow2(i - 1)) * MILLISECOND)
  }

  // time.After fires at once for a duration that is not positive.
  function Waited(duration: int): nat {
    if duration < 0 then 0 else duration
  }

  // ------------------------------------------------------------------ arithmetic

  lemma WrapSame(x: int, y: int, k: int)
    requires x == y + k * TWO64
    ensures Wrap64(x) == Wrap64(y)
  {
    ModPlus(y + TWO63, k);
  }

  lemma ModPlus(x: int, k: int)
    ensures (x + k * TWO64) % TWO64 == x % TWO64
  {
  }

  // Wrapping before the multiplication makes no difference.
  lemma BackoffWraps(i: nat)
    requires i >= 1
    ensures Backoff(i) == Wrap64(250 * Pow2(i - 1) * MILLISECOND)
  {
    var x := 250 * Pow2(i - 1);
    var k := (x + TWO63) / TWO64;
    assert Wrap64(x) == x - k * TWO64;
    WrapSame(x * MILLISECOND, Wrap64(x) * MILLISECOND, k * MILLISECOND);
  }

  lemma WrapBelow(x: nat)
    ensures Wrap64(x) <= x
    ensures Wrap64(x) == x <==> x < TWO63
  {
  }

  // The delay before retry i is 250 * 2^(i-1) ms exactly up to the 36th retry;
  // from the 37th on the Duration overflows.
  lemma BackoffExact(i: nat)
    requires i >= 1
    ensures Backoff(i) == 250 * Pow2(i - 1) * MILLISECOND <==> i <= 36
    ensures Waited(Backoff(i)) <= 250 * Pow2(i - 1) * MILLISECOND
  {
    BackoffWraps(i);
    WrapBelow(250 * Pow2(i - 1) * MILLISECOND);
    assert Pow2(10) == 1024 && Pow2(20) == 1_048_576 && Pow2(30) == 1_073_741_824;
    assert Pow2(35) == 34_359_738_368 && Pow2(36) == 68_719_476_736;
    if i <= 36 {
      Pow2Monotone(i - 1, 35);
    } else {
      Pow2Monotone(36, i - 1);
    }
  }

  // ------------------------------------------------------------------- the budget

  // Upper bound on the time n retries may take, with 2500 ms attempts.
  function Budget(n: nat): nat {
    (2500 * (n + 1) + 250 * (Pow2(n) - 1)) * MILLISECOND
  }

  predicate TimedOut(attempts: seq<Attempt>) {
    forall a | a in attempts :: a.millis <= 2500
  }

  function AttemptTime(attempts: seq<Attempt>): nat {
    if attempts == [] then 0
    else AttemptTime(attempts[..|attempts| - 1]) + attempts[|attempts| - 1].millis * MILLISECOND
  }

  // The delays before retries 1 to n.
  function DelayTime(n: nat): nat {
    if n == 0 then 0 else DelayTime(n - 1) + Waited(Backoff(n))
  }

  lemma {:induction false} AttemptTimeBound(attempts: seq<Attempt>)
    requires TimedOut(attempts)
    ensures AttemptTime(attempts) <= 2500 * |attempts| * MILLISECOND
  {
    if attempts != [] {
      AttemptTimeBound(attempts[..|attempts| - 1]);
      assert attempts[|attempts| - 1] in attempts;
    }
  }

  // The delays add up to the closed form, exactly until a Duration overflows and
  // never to more than it.
  lemma {:induction false} DelayTimeExact(n: nat)
    ensures n <= 36 ==> DelayTime(n) == 250 * (Pow2(n) - 1) * MILLISECOND
    ensures DelayTime(n) <= 250 * (Pow2(n) - 1) * MILLISECOND
  {
    if n > 0 {
      DelayTimeExact(n - 1);
      BackoffExact(n);
    }
  }

  lemma WithinBudget(attempts: seq<Attempt>, n: nat)
    requires TimedOut(attempts) && 1 <= |attempts| <= n + 1
    ensures AttemptTime(attempts) + DelayTime(|attempts| - 1) <= Budget(n)
  {
    AttemptTimeBound(attempts);
    DelayTimeExact(|attempts| - 1);
    Pow2Monotone(|attempts| - 1, n);
  }

  // The two retries of the synchronous path fit the server's write timeout.
  lemma DefaultBudget()
    ensures Budget(2) == 8250 * MILLISECOND < 10_000 * MILLISECOND
  {
    assert Pow2(2) == 4;
  }

  // --------------------------------------------------------------------- the code

  function Smaller(a: nat, b: nat): nat {
    if a < b then a else b
  }

  // What n attempts and the delays between them take; a cancellation cuts the
  // delay that follows short.
  function Elapsed(attempts: seq<Attempt>, r: Outcome, waited: nat): nat {
    AttemptTime(attempts) + (if attempts == [] then 0 else DelayTime(|attempts| - 1))
    + if r.Cancelled? && attempts != [] then Smaller(waited, Waited(Backoff(|attempts|))) else 0
  }

  // The time of attempts adds up, in nanoseconds.
  lemma {:induction false} AttemptTimeAdds(xs: seq<Attempt>, ys: seq<Attempt>)
    ensures AttemptTime(xs + ys) == AttemptTime(xs) + AttemptTime(ys)
    ensures forall a: Attempt :: AttemptTime([a]) == a.millis * 1_000_000
  {
    if ys == [] {
      assert xs + ys == xs;
    } else {
      var n := |ys| - 1;
      assert (xs + ys)[..|xs| + n] == xs + ys[..n];
      AttemptTimeAdds(xs, ys[..n]);
    }
  }

  // In full, as long as no Duration overflows.
  lemma ElapsedExact(attempts: seq<Attempt>, r: Outcome, waited: nat)
    ensures attempts == [] ==> Elapsed(attempts, r, waited) == 0
    ensures var n := |attempts|;
            1 <= n <= 37 && !r.Cancelled? ==>
              Elapsed(attempts, r, waited) == AttemptTime(attempts) + 250 * (Pow2(n - 1) - 1) * 1_000_000
    ensures var n := |attempts|;
            1 <= n <= 36 && r.Cancelled? ==>
              var delay := 250 * Pow2(n - 1) * 1_000_000;
              Elapsed(attempts, r, waited) ==
              AttemptTime(attempts) + 250 * (Pow2(n - 1) - 1) * 1_000_000 + if waited < delay then waited else delay
  {
    var n := |attempts|;
    if n >= 1 {
      DelayTimeExact(n - 1);
      BackoffExact(n);
    }
  }

  // `attempts[i]` is what the i-th attempt would meet; `cancelAt`, when it is a
  // retry number, is the one before which the context is found done, `waited`
  // nanoseconds into its delay or at the end of it.
  method ForwardWithRetry(maxRetries: int, attempts: seq<Attempt>, cancelAt: int, waited: nat)
    returns (r: Outcome, made: nat, elapsed: nat)
    requires |attempts| > maxRetries
    // At most maxRetries + 1 attempts, the last of which decides.
    ensures made <= (if maxRetries < 0 then 0 else maxRetries + 1) && made <= |attempts|
    ensures forall j | 0 <= j < made - 1 :: Transient(attempts[j].answer)
    ensures r == Success <==> made > 0 && Accepted(attempts[made - 1].answer)
    ensures r.GaveUp? <==> made > 0 && Hopeless(attempts[made - 1].answer)
    ensures r == AllFailed ==> made == if maxRetries < 0 then 0 else maxRetries + 1
    // Cancellation counts only between attempts.
    ensures r.Cancelled? <==>
            1 <= cancelAt <= maxRetries && forall j | 0 <= j < cancelAt :: Transient(attempts[j].answer)
    ensures r.Cancelled? ==> r.retry == cancelAt == made
    // The time of the attempts and of the delays before the retries: 250 ms, then
    // twice as much each time. A cancellation cuts the delay it falls into short.
    ensures !r.Cancelled? && 1 <= made <= 37 ==>
              elapsed == AttemptTime(attempts[..made]) + 250 * (Pow2(made - 1) - 1) * 1_000_000
    ensures r.Cancelled? && made <= 36 ==>
              var delay := 250 * Pow2(made - 1) * 1_000_000;
              elapsed == AttemptTime(attempts[..made]) + 250 * (Pow2(made - 1) - 1) * 1_000_000
                         + if waited < delay then waited else delay
    ensures elapsed == Elapsed(attempts[..made], r, waited)
  {
    made, elapsed := 0, 0;
    var i := 0;
    while i <= maxRetries
      invariant 0 <= i == made <= (if maxRetries < 0 then 0 else maxRetries + 1)
      invariant forall j | 0 <= j < made :: Transient(attempts[j].answer)
      invariant 1 <= cancelAt <= maxRetries ==> made <= cancelAt
      invariant elapsed == AttemptTime(attempts[..made]) + if made == 0 then 0 else DelayTime(made - 1)
    {
      if i > 0 {
        var delay := Waited(Backoff(i));
        if i == cancelAt {
          elapsed := elapsed + Smaller(waited, delay);
          ElapsedExact(attempts[..made], Cancelled(i), waited);
          return Cancelled(i), made, elapsed;
        }
        elapsed := elapsed + delay;
      }
      elapsed := elapsed + attempts[i].millis * MILLISECOND;
      made := made + 1;
      assert attempts[..made][..i] == attempts[..i];
      ElapsedExact(attempts[..made], Success, waited);
      match Classify(attempts[i].answer) {
        case Delivered => return Success, made, elapsed;
        case Failed(Permanent) => return GaveUp(Permanent), made, elapsed;
        case Failed(Retryable) =>
      }
      i := i + 1;
    }
    ElapsedExact(attempts[..made], AllFailed, waited);
    return AllFailed, made, elapsed;
  }

  // What the retry budget promises, over any outcome of the method above.
  lemma RetryBudget(attempts: seq<Attempt>, maxRetries: nat, r: Outcome, waited: nat)
    requires TimedOut(attempts)
    requires 1 <= |attempts| <= if r.Cancelled? then maxRetries else maxRetries + 1
    ensures Elapsed(attempts, r, waited) <= (2500 * (maxRetries + 1) + 250 * (Pow2(maxRetries) - 1)) * MILLISECOND
    ensures maxRetries == 2 ==> Elapsed(attempts, r, waited) <= 8250 * MILLISECOND
  {
    var n := |attempts|;
    AttemptTimeBound(attempts);
    if r.Cancelled? {
      DelayTimeExact(n);
      Pow2Monotone(n, maxRetries);
      assert DelayTime(n) == DelayTime(n - 1) + Waited(Backoff(n));
    } else {
      WithinBudget(attempts, maxRetries);
    }
    DefaultBudget();
  }
}
