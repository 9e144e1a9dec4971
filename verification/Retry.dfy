/** chur-init's retry loops: initProvider and backoffFetch have one shape. */
module Retry {
  import opened Wrappers

  const MAX_RETRIES: nat := 5
  const DEADLINE_MS: nat := 30000

  datatype RetryError<E> = LastError(err: E) | ContextDone

  /**
   What a loop meets: the outcome of call k and the milliseconds it takes,
   whether the context has ended when the wait before call k would end, and the
   random part of that wait in milliseconds.
   */
  datatype World<!T, !E> = World(
    call: nat -> Result<T, E>, took: nat -> nat, done: nat -> bool, jitter: nat -> nat)

  ghost predicate Valid<T, E>(w: World<T, E>) {
    forall k: nat :: w.jitter(k) < 500
  }

  function Pow2(n: nat): nat {
    if n == 0 then 1 else 2 * Pow2(n - 1)
  }

  /** The wait before call k (counted from 0): 1<<(k-1) seconds plus jitter. */
  function Delay<T, E>(w: World<T, E>, k: nat): nat
    requires k > 0
  {
    Pow2(k - 1) * 1000 + w.jitter(k)
  }

  /** All full waits before call k. */
  function Slept<T, E>(w: World<T, E>, k: nat): nat {
    if k <= 1 then (if k == 1 then Delay(w, 1) else 0) else Slept(w, k - 1) + Delay(w, k)
  }

  ghost predicate AllFail<T, E>(w: World<T, E>, n: int) {
    forall k: nat | k < n :: w.call(k).Err?
  }

  ghost predicate NeverDone<T, E>(w: World<T, E>, n: int) {
    forall k: nat | 0 < k <= n :: !w.done(k)
  }

  /** A loop stops at the first success, at the end of the context, or with the error of its last attempt. */
  ghost predicate Stops<T, E>(attempts: nat, w: World<T, E>, res: Result<T, RetryError<E>>, calls: nat) {
    && 0 < calls <= attempts && AllFail(w, calls - 1) && NeverDone(w, calls - 1)
    && match res
       case Ok(v) => w.call(calls - 1) == Ok(v)
       case Err(ContextDone) => calls < attempts && w.call(calls - 1).Err? && w.done(calls)
       case Err(LastError(e)) => calls == attempts && w.call(calls - 1) == Err(e)
  }

  /** One retry loop, with any number of attempts; `calls` and `slept` say what it cost. */
  method Loop<T, E>(attempts: nat, w: World<T, E>) returns (res: Result<T, RetryError<E>>, calls: nat, slept: nat)
    requires attempts > 0
    ensures Stops(attempts, w, res, calls)
    ensures slept == Slept(w, calls - 1)
  {
    var lastErr: Option<E> := None;
    calls, slept := 0, 0;
    for attempt := 0 to attempts
      invariant calls == attempt && AllFail(w, attempt) && NeverDone(w, attempt - 1)
      invariant attempt > 0 ==> lastErr.Some? && w.call(attempt - 1) == Err(lastErr.value)
      invariant attempt > 0 ==> slept == Slept(w, attempt - 1)
      invariant attempt == 0 ==> slept == 0
    {
      if attempt > 0 {
        if w.done(attempt) {
          return Err(ContextDone), calls, slept;
        }
        slept := slept + Delay(w, attempt);
      }
      calls := calls + 1;
      match w.call(attempt) {
        case Ok(v) => return Ok(v), calls, slept;
        case Err(e) => lastErr := Some(e);
      }
    }
    return Err(LastError(lastErr.value)), calls, slept;
  }

  /** The random parts of the waits before call k. */
  function Jitters<T, E>(w: World<T, E>, k: nat): nat {
    if k == 0 then 0 else Jitters(w, k - 1) + w.jitter(k)
  }

  /** The waits before call k are (2^k - 1) seconds and every jitter once. */
  lemma {:induction false} SleptExactly<T, E>(w: World<T, E>, k: nat)
    ensures Slept(w, k) == (Pow2(k) - 1) * 1000 + Jitters(w, k)
  {
    if k > 0 {
      SleptExactly(w, k - 1);
    }
  }

  /** The waits before call k add up to (2^k - 1) seconds and at most 499 ms for each of them. */
  lemma {:induction false} SleepBounds<T, E>(w: World<T, E>, k: nat)
    requires Valid(w)
    ensures (Pow2(k) - 1) * 1000 <= Slept(w, k) <= (Pow2(k) - 1) * 1000 + 499 * k
  {
    if k > 0 {
      SleepBounds(w, k - 1);
    }
  }

  /** If call k is the first to succeed and the context lives, the loop returns it, after k+1 calls and these waits. */
  lemma FirstSuccessWins<T, E>(attempts: nat, w: World<T, E>, k: nat, res: Result<T, RetryError<E>>, calls: nat)
    requires Valid(w) && k < attempts && AllFail(w, k) && w.call(k).Ok? && NeverDone(w, k)
    requires Stops(attempts, w, res, calls)
    ensures res == Ok(w.call(k).value) && calls == k + 1
    ensures (Pow2(k) - 1) * 1000 <= Slept(w, calls - 1) <= (Pow2(k) - 1) * 1000 + 499 * k
  {
    SleepBounds(w, k);
  }

  // ---- Two loops under one deadline ---------------------------------------------------

  /** The time the first k calls take. */
  function Took<T, E>(w: World<T, E>, k: nat): nat {
    if k == 0 then 0 else Took(w, k - 1) + w.took(k - 1)
  }

  /** From the start of a loop to the start of its call k. */
  function Elapsed<T, E>(w: World<T, E>, k: nat): nat {
    Slept(w, k) + Took(w, k)
  }

  /** From the deadline's start to the start of call k of the second loop, after n calls of the first. */
  function Since<T, U, E>(w: World<T, E>, n: nat, v: World<U, E>, k: nat): nat
    requires n > 0
  {
    Slept(w, n - 1) + Took(w, n) + Elapsed(v, k)
  }

  /** The context of both loops ends when the deadline, set before the first one, has come; a tie ends it. */
  ghost predicate SharedDeadline<T, U, E>(w: World<T, E>, n: nat, v: World<U, E>)
    requires n > 0
  {
    && (forall k: nat | k > 0 :: w.done(k) <==> Elapsed(w, k) >= DEADLINE_MS)
    && (forall k: nat | k > 0 :: v.done(k) <==> Since(w, n, v, k) >= DEADLINE_MS)
  }

  lemma {:induction false} ElapsedGrows<T, E>(w: World<T, E>, j: nat, k: nat)
    requires j <= k
    ensures Elapsed(w, j) <= Elapsed(w, k)
    decreases k - j
  {
    if j < k {
      ElapsedGrows(w, j + 1, k);
    }
  }

  /** The second loop may make its last call exactly if the time up to that call is within the deadline. */
  lemma LastCallInTimeIff<T, U, E>(w: World<T, E>, n: nat, v: World<U, E>, attempts: nat)
    requires n > 0 && SharedDeadline(w, n, v) && attempts > 1
    ensures NeverDone(v, attempts - 1) <==> Since(w, n, v, attempts - 1) < DEADLINE_MS
  {
    forall k: nat | 0 < k <= attempts - 1 ensures Since(w, n, v, k) <= Since(w, n, v, attempts - 1) {
      ElapsedGrows(v, k, attempts - 1);
    }
    assert 0 < attempts - 1 <= attempts - 1;
  }

  /**
   initProvider's n calls leave backoffFetch the time for all of its own exactly
   if n is below the maximum, provided the calls are quick: below 4507 ms in all.
   After the full number no fetch loop gets to its last call, however quick.
   */
  lemma AllFetchesInTimeIff<T, U, E>(w: World<T, E>, n: nat, v: World<U, E>)
    requires Valid(w) && Valid(v) && 0 < n <= MAX_RETRIES && SharedDeadline(w, n, v)
    ensures n == MAX_RETRIES ==> !NeverDone(v, MAX_RETRIES - 1)
    ensures Took(w, n) + Took(v, MAX_RETRIES - 1) < 4507 ==> (NeverDone(v, MAX_RETRIES - 1) <==> n < MAX_RETRIES)
  {
    LastCallInTimeIff(w, n, v, MAX_RETRIES);
    SleepBounds(w, n - 1);
    SleepBounds(v, MAX_RETRIES - 1);
    assert Pow2(4) == 16;
    if n < MAX_RETRIES {
      Pow2Grows(n - 1, 3);
      assert Pow2(3) == 8;
    }
  }

  lemma {:induction false} Pow2Grows(j: nat, k: nat)
    requires j <= k
    ensures Pow2(j) <= Pow2(k)
    decreases k - j
  {
    if j < k {
      Pow2Grows(j + 1, k);
    }
  }

  /**
   What the fetch then returns. After n calls of initProvider, the last one
   successful: with n the maximum, never the backend's own last error, but a
   success before the last call or the end of the context. And if every fetch
   fails and the calls are quick, that error comes out exactly if n is smaller.
   */
  lemma FetchAfterInit<T, U, E>(
    w: World<T, E>, n: nat, provider: T, v: World<U, E>, res: Result<U, RetryError<E>>, calls: nat)
    requires Valid(w) && Valid(v) && 0 < n <= MAX_RETRIES && SharedDeadline(w, n, v)
    requires Stops(MAX_RETRIES, w, Ok(provider), n) && Stops(MAX_RETRIES, v, res, calls)
    ensures n == MAX_RETRIES ==> calls < MAX_RETRIES && (res.Ok? || res == Err(ContextDone))
    ensures AllFail(v, MAX_RETRIES) && Took(w, n) + Took(v, MAX_RETRIES - 1) < 4507 ==>
              (res == Err(ContextDone) <==> n == MAX_RETRIES) &&
              (res == Err(LastError(v.call(MAX_RETRIES - 1).error)) <==> n < MAX_RETRIES)
  {
    AllFetchesInTimeIff(w, n, v);
  }

  lemma {:induction false} WithoutJitter<T, E>(w: World<T, E>, k: nat)
    requires forall j: nat :: w.jitter(j) == 0
    ensures Slept(w, k) == (Pow2(k) - 1) * 1000
  {
    if k > 0 {
      WithoutJitter(w, k - 1);
    }
  }

  lemma {:induction false} OnlyFirstTakes<T, E>(w: World<T, E>, ms: nat, k: nat)
    requires forall j: nat :: w.took(j) == if j == 0 then ms else 0
    ensures Took(w, k) == if k == 0 then 0 else ms
  {
    if k > 0 {
      OnlyFirstTakes(w, ms, k - 1);
    }
  }

  /**
   Without jitter, and with one millisecond for the first call of the factory
   and none for the others, the fetch after five calls is cut off after four.
   */
  lemma CutOffAfterFour<T, U, E>(w: World<T, E>, v: World<U, E>)
    requires forall j: nat :: w.jitter(j) == 0 && v.jitter(j) == 0
    requires forall j: nat :: w.took(j) == (if j == 0 then 1 else 0) && v.took(j) == 0
    requires SharedDeadline(w, MAX_RETRIES, v) && AllFail(w, 4) && w.call(4).Ok? && AllFail(v, MAX_RETRIES)
    ensures Stops(MAX_RETRIES, w, Ok(w.call(4).value), MAX_RETRIES) && Stops(MAX_RETRIES, v, Err(ContextDone), 4)
    ensures Since(w, MAX_RETRIES, v, 4) == DEADLINE_MS + 1
  {
    forall k: nat
      ensures Slept(w, k) == Slept(v, k) == (Pow2(k) - 1) * 1000
      ensures Took(w, k) == (if k == 0 then 0 else 1) && Took(v, k) == 0
    {
      WithoutJitter(w, k);
      WithoutJitter(v, k);
      OnlyFirstTakes(w, 1, k);
      OnlyFirstTakes(v, 0, k);
    }
    assert Pow2(1) == 2 && Pow2(2) == 4 && Pow2(3) == 8 && Pow2(4) == 16;
    forall k: nat | 0 < k <= 4 ensures !w.done(k) && (v.done(k) <==> k == 4) {
    }
  }

  function FirstTakes(k: nat): nat { if k == 0 then 1 else 0 }

  function NoTime(k: nat): nat { 0 }

  /**
   It does come to that: a factory that needs five calls, then a backend whose
   error is never reported. The last fetch is past the deadline, not just at it.
   */
  lemma FetchCutOff(err: string) returns (w: World<int, string>, v: World<int, string>)
    ensures Valid(w) && Valid(v) && SharedDeadline(w, MAX_RETRIES, v) && AllFail(v, MAX_RETRIES)
    ensures Stops(MAX_RETRIES, w, Ok(0), MAX_RETRIES) && Stops(MAX_RETRIES, v, Err(ContextDone), MAX_RETRIES - 1)
    ensures Since(w, MAX_RETRIES, v, MAX_RETRIES - 1) > DEADLINE_MS
  {
    w := World((k: nat) => if k < 4 then Err(err) else Ok(0), FirstTakes,
               (k: nat) => 1 + (Pow2(k) - 1) * 1000 >= DEADLINE_MS, NoTime);
    v := World((k: nat) => Err(err), NoTime, (k: nat) => 15001 + (Pow2(k) - 1) * 1000 >= DEADLINE_MS, NoTime);
    forall k: nat | k > 0 ensures w.done(k) <==> Elapsed(w, k) >= DEADLINE_MS {
      WithoutJitter(w, k);
      OnlyFirstTakes(w, 1, k);
    }
    WithoutJitter(w, 4);
    OnlyFirstTakes(w, 1, 5);
    assert Pow2(4) == 16;
    forall k: nat ensures v.done(k) <==> Since(w, MAX_RETRIES, v, k) >= DEADLINE_MS {
      WithoutJitter(v, k);
      OnlyFirstTakes(v, 0, k);
    }
    CutOffAfterFour(w, v);
  }
}
