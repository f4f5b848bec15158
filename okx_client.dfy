/** The REST side of the exchange connection (okx_client.py): the sliding
    window rate limiter, the retry decorator, the signed request that one
    attempt builds, the classification of the exchange's reply, and the
    payload builders of the order endpoints.  The network, the clock and the
    sleeps are parameters; HMAC-SHA256 with base64 (RFC 2104, section 4 of
    RFC 4648), urlencode and json.dumps are opaque functions passed in. */
module OkxClient {
  import opened Wrappers
  import opened Builtins

  // ---------------------------------------------------------------------
  // RateLimiter
  // ---------------------------------------------------------------------

  /** The timestamps that `wait` keeps at time `now`: `now - t < period`,
      in their original order. */
  function Pruned(calls: seq<real>, now: real, period: real): (r: seq<real>)
    ensures |r| <= |calls|
    ensures forall t :: t in r <==> t in calls && now - t < period
  {
    if calls == [] then []
    else if now - calls[0] < period then [calls[0]] + Pruned(calls[1..], now, period)
    else Pruned(calls[1..], now, period)
  }

  ghost predicate Sorted(s: seq<real>)
  {
    forall i, j :: 0 <= i < j < |s| ==> s[i] <= s[j]
  }

  /** How long `wait` sleeps at time `now`: only when the pruned window is
      already full, until its oldest entry leaves it; never a negative time. */
  function SleepFor(calls: seq<real>, now: real, period: real, maxCalls: int): (s: real)
    ensures s >= 0.0
    ensures s > 0.0 ==> |Pruned(calls, now, period)| >= maxCalls
  {
    var kept := Pruned(calls, now, period);
    if |kept| >= maxCalls && kept != [] then Max(0.0, period - (now - kept[0])) else 0.0
  }

  lemma {:induction false} PrunedAppend(a: seq<real>, b: seq<real>, now: real, period: real)
    ensures Pruned(a + b, now, period) == Pruned(a, now, period) + Pruned(b, now, period)
  {
    if a != [] {
      assert (a + b)[1..] == a[1..] + b;
      PrunedAppend(a[1..], b, now, period);
    } else {
      assert a + b == b;
    }
  }

  /** Later, no more timestamps are inside the window than earlier. */
  lemma {:induction false} PrunedShrinks(calls: seq<real>, t1: real, t2: real, period: real)
    requires t1 <= t2
    ensures |Pruned(calls, t2, period)| <= |Pruned(calls, t1, period)|
  {
    if calls != [] {
      PrunedShrinks(calls[1..], t1, t2, period);
    }
  }

  /** Pruning at t1 and then at a later t2 is pruning at t2. */
  lemma {:induction false} PrunedTwice(calls: seq<real>, t1: real, t2: real, period: real)
    requires t1 <= t2
    ensures Pruned(Pruned(calls, t1, period), t2, period) == Pruned(calls, t2, period)
  {
    if calls != [] {
      PrunedTwice(calls[1..], t1, t2, period);
      if t1 - calls[0] < period {
        assert Pruned(calls, t1, period) == [calls[0]] + Pruned(calls[1..], t1, period);
        assert Pruned(calls, t1, period)[1..] == Pruned(calls[1..], t1, period);
      }
    }
  }

  lemma {:induction false} PrunedNone(calls: seq<real>, now: real, period: real)
    requires forall i :: 0 <= i < |calls| ==> now - calls[i] >= period
    ensures Pruned(calls, now, period) == []
  {
    if calls != [] {
      PrunedNone(calls[1..], now, period);
    }
  }

  lemma {:induction false} PrunedAllKept(calls: seq<real>, now: real, period: real)
    requires Sorted(calls) && calls != [] && now - calls[0] < period
    ensures Pruned(calls, now, period) == calls
  {
    if |calls| > 1 {
      assert calls[0] <= calls[1];
      PrunedAllKept(calls[1..], now, period);
    }
  }

  /** On a time-ordered window, pruning drops a prefix: what is kept is a
      suffix of the list. */
  lemma {:induction false} PrunedSuffix(calls: seq<real>, now: real, period: real)
    requires Sorted(calls)
    ensures var r := Pruned(calls, now, period); r == calls[|calls| - |r|..]
  {
    if calls != [] {
      if now - calls[0] < period {
        PrunedAllKept(calls, now, period);
      } else {
        PrunedSuffix(calls[1..], now, period);
      }
    }
  }

  /** On a time-ordered list, every entry pruning drops is stale. */
  lemma {:induction false} PrunedPrefixStale(calls: seq<real>, now: real, period: real)
    requires Sorted(calls)
    ensures forall j :: 0 <= j < |calls| - |Pruned(calls, now, period)| ==>
              now - calls[j] >= period
  {
    if calls != [] {
      if now - calls[0] < period {
        PrunedAllKept(calls, now, period);
      } else {
        PrunedPrefixStale(calls[1..], now, period);
        forall j | 1 <= j < |calls| - |Pruned(calls, now, period)|
          ensures now - calls[j] >= period
        {
          assert calls[j] == calls[1..][j - 1];
        }
      }
    }
  }

  /** No admission was preceded, within `period`, by `maxCalls` or more
      admissions (counting itself). */
  ghost predicate WindowBounded(admitted: seq<real>, period: real, maxCalls: int)
  {
    forall k :: 0 <= k < |admitted| ==>
      |Pruned(admitted[..k + 1], admitted[k], period)| <= maxCalls
  }

  /** `calls` is the suffix of `admitted` still held; everything dropped is
      at least `period` older than the latest clock reading. */
  ghost predicate HeldSuffix(admitted: seq<real>, calls: seq<real>, clock: real, period: real)
  {
    && |calls| <= |admitted|
    && calls == admitted[|admitted| - |calls|..]
    && (forall i :: 0 <= i < |admitted| - |calls| ==> clock - admitted[i] >= period)
  }

  /** The limiter's bookkeeping over the whole run: `admitted` is every
      timestamp `wait` ever appended, in clock order and none later than the
      latest clock reading; `calls` is the part still held; and the window
      bound holds at every admission. */
  ghost predicate LimiterState(admitted: seq<real>, calls: seq<real>, clock: real,
                               period: real, maxCalls: int)
  {
    && Sorted(admitted)
    && (admitted != [] ==> admitted[|admitted| - 1] <= clock)
    && HeldSuffix(admitted, calls, clock, period)
    && WindowBounded(admitted, period, maxCalls)
  }

  /** At any time not earlier than the clock, the held list counts exactly
      the admissions still in the window. */
  lemma HeldCountsAll(admitted: seq<real>, calls: seq<real>, clock: real, now: real, period: real)
    requires HeldSuffix(admitted, calls, clock, period) && now >= clock
    ensures Pruned(admitted, now, period) == Pruned(calls, now, period)
  {
    var d := |admitted| - |calls|;
    assert admitted == admitted[..d] + calls;
    PrunedAppend(admitted[..d], calls, now, period);
    PrunedNone(admitted[..d], now, period);
  }

  /** The window of a valid limiter holds at most `maxCalls` entries at
      any time not earlier than its clock. */
  lemma WindowNotOverfull(admitted: seq<real>, calls: seq<real>, clock: real, now: real,
                          period: real, maxCalls: int)
    requires LimiterState(admitted, calls, clock, period, maxCalls)
    requires now >= clock
    ensures |Pruned(calls, now, period)| <= maxCalls || calls == []
  {
    if calls != [] {
      HeldCountsAll(admitted, calls, clock, now, period);
      var last := |admitted| - 1;
      assert admitted[..last + 1] == admitted;
      PrunedShrinks(admitted, admitted[last], now, period);
    }
  }

  /** After pruning at `now` and appending `after`, the held list is still
      the live suffix of the admissions. */
  lemma AdmitKeepsSuffix(admitted: seq<real>, calls: seq<real>, clock: real, now: real,
                         after: real, period: real)
    requires Sorted(admitted) && HeldSuffix(admitted, calls, clock, period)
    requires clock <= now <= after
    ensures HeldSuffix(admitted + [after], Pruned(calls, now, period) + [after], after, period)
  {
    var kept := Pruned(calls, now, period);
    var adm := admitted + [after];
    var d := |admitted| - |calls|;
    assert Sorted(calls);
    PrunedSuffix(calls, now, period);
    PrunedPrefixStale(calls, now, period);
    assert kept + [after] == adm[|adm| - |kept| - 1..];
    forall i | 0 <= i < |adm| - (|kept| + 1)
      ensures after - adm[i] >= period
    {
      if i >= d {
        assert adm[i] == calls[i - d];
      }
    }
  }

  /** The admission `wait` makes keeps the window bound. */
  lemma AdmitKeepsBound(admitted: seq<real>, calls: seq<real>, clock: real, now: real,
                        after: real, period: real, maxCalls: int)
    requires LimiterState(admitted, calls, clock, period, maxCalls)
    requires now >= clock && after >= now + SleepFor(calls, now, period, maxCalls)
    requires var kept := Pruned(calls, now, period); !(|kept| >= maxCalls && kept == [])
    ensures WindowBounded(admitted + [after], period, maxCalls)
  {
    var kept := Pruned(calls, now, period);
    var adm := admitted + [after];
    PrunedAppend(admitted, [after], after, period);
    HeldCountsAll(admitted, calls, clock, after, period);
    WindowNotOverfull(admitted, calls, clock, now, period, maxCalls);
    PrunedShrinks(calls, now, after, period);
    PrunedTwice(calls, now, after, period);
    if |kept| >= maxCalls {
      assert after - kept[0] >= period;
      assert Pruned(kept, after, period) == Pruned(kept[1..], after, period);
    }
    assert adm[..|adm|] == adm;
    assert |Pruned(adm[..|adm|], adm[|adm| - 1], period)| <= maxCalls;
    forall k | 0 <= k < |adm|
      ensures |Pruned(adm[..k + 1], adm[k], period)| <= maxCalls
    {
      if k < |admitted| {
        assert adm[..k + 1] == admitted[..k + 1];
      }
    }
  }

  /** The step `wait` takes when it appends: the whole bookkeeping survives. */
  lemma AdmitKeepsState(admitted: seq<real>, calls: seq<real>, clock: real, now: real,
                        after: real, period: real, maxCalls: int)
    requires LimiterState(admitted, calls, clock, period, maxCalls)
    requires now >= clock && after >= now + SleepFor(calls, now, period, maxCalls)
    requires var kept := Pruned(calls, now, period); !(|kept| >= maxCalls && kept == [])
    ensures LimiterState(admitted + [after], Pruned(calls, now, period) + [after],
                         after, period, maxCalls)
  {
    AdmitKeepsSuffix(admitted, calls, clock, now, after, period);
    AdmitKeepsBound(admitted, calls, clock, now, after, period, maxCalls);
    var adm := admitted + [after];
    assert Sorted(adm) by {
      if admitted != [] {
        assert admitted[|admitted| - 1] <= after;
      }
    }
  }

  /** The step `wait` takes when `calls[0]` raises IndexError. */
  lemma RejectKeepsState(admitted: seq<real>, calls: seq<real>, clock: real, now: real,
                         period: real, maxCalls: int)
    requires LimiterState(admitted, calls, clock, period, maxCalls)
    requires now >= clock
    requires Pruned(calls, now, period) == []
    ensures LimiterState(admitted, [], now, period, maxCalls)
  {
    HeldCountsAll(admitted, calls, clock, now, period);
    assert forall i :: 0 <= i < |admitted| ==> admitted[i] in admitted;
  }

  /** What one call of `wait` produced. */
  datatype WaitOutcome = Admitted(slept: real) | IndexError

  /** A sliding window of call timestamps: at most `maxCalls` calls in any
      `period`. */
  class RateLimiter {
    const maxCalls: int
    const period: real
    var calls: seq<real>
    /** Every timestamp ever appended, and the latest clock reading. */
    ghost var admitted: seq<real>
    ghost var clock: real

    ghost predicate Valid()
      reads this
    {
      LimiterState(admitted, calls, clock, period, maxCalls)
    }

    constructor (maxCalls: int, period: real)
      ensures this.maxCalls == maxCalls && this.period == period
      ensures calls == [] && admitted == [] && Valid()
    {
      this.maxCalls := maxCalls;
      this.period := period;
      calls := [];
      admitted := [];
      clock := 0.0;
    }

    /** `wait` at clock reading `now`; `after` is the clock read once any
        sleep is over.  The window bound is kept whenever the clock does not
        run backwards and the sleep lasts at least as long as asked; nothing
        in `wait` itself checks either. */
    method Wait(now: real, after: real) returns (r: WaitOutcome)
      modifies this
      ensures (old(Valid()) && now >= old(clock)
               && after >= now + SleepFor(old(calls), now, period, maxCalls)) ==> Valid()
      ensures maxCalls >= 1 ==> r.Admitted?
      ensures var kept := Pruned(old(calls), now, period);
        if |kept| >= maxCalls && kept == [] then
          r == IndexError && calls == [] && admitted == old(admitted)
        else
          && r == Admitted(SleepFor(old(calls), now, period, maxCalls))
          && calls == kept + [after]
          && admitted == old(admitted) + [after]
    {
      var kept := Pruned(calls, now, period);
      if |kept| >= maxCalls && kept == [] {
        if Valid() && now >= clock {
          RejectKeepsState(admitted, calls, clock, now, period, maxCalls);
        }
        calls := kept;
        clock := now;
        return IndexError;
      }
      var slept := 0.0;
      if |kept| >= maxCalls {
        var sleepTime := period - (now - kept[0]);
        if sleepTime > 0.0 {
          slept := sleepTime;
        }
      }
      if Valid() && now >= clock && after >= now + SleepFor(calls, now, period, maxCalls) {
        AdmitKeepsState(admitted, calls, clock, now, after, period, maxCalls);
      }
      calls := kept + [after];
      admitted := admitted + [after];
      clock := after;
      r := Admitted(slept);
    }
  }

  // ---------------------------------------------------------------------
  // retry_on_failure
  // ---------------------------------------------------------------------

  /** The decorator's arguments. */
  datatype RetryPolicy = RetryPolicy(maxRetries: int, delay: real, backoff: real)

  /** The policy `_request` is decorated with. */
  const RequestRetry := RetryPolicy(3, 1.0, 2.0)

  /** What the decorated call finally raises: the last attempt's exception,
      or `None` (a TypeError) when no attempt ran at all. */
  datatype Raised<E> = Raised(exception: E) | RaisedNone

  /** The first of the attempts from..n-1 whose outcome is a success. */
  function FirstOk<T, E>(outcomes: nat -> Result<T, E>, from: nat, n: int): (r: Option<nat>)
    decreases n - from
    ensures r.Some? ==> from <= r.value < n && outcomes(r.value).Ok?
    ensures r.None? ==> forall j :: from <= j < n ==> outcomes(j).Err?
  {
    if from >= n then None
    else if outcomes(from).Ok? then Some(from)
    else FirstOk(outcomes, from + 1, n)
  }

  /** No attempt before the one FirstOk names succeeded. */
  lemma {:induction false} FirstOkIsFirst<T, E>(outcomes: nat -> Result<T, E>, from: nat, n: int)
    requires FirstOk(outcomes, from, n).Some?
    ensures forall j :: from <= j < FirstOk(outcomes, from, n).value ==> outcomes(j).Err?
    decreases n - from
  {
    if outcomes(from).Err? {
      FirstOkIsFirst(outcomes, from + 1, n);
    }
  }

  /** What the decorated call returns or raises, given what each attempt
      would return or raise. */
  function RetryResult<T, E>(outcomes: nat -> Result<T, E>, maxRetries: int): Result<T, Raised<E>>
  {
    match FirstOk(outcomes, 0, maxRetries)
    case Some(k) => Ok(outcomes(k).value)
    case None =>
      if maxRetries <= 0 then Err(RaisedNone) else Err(Raised(outcomes(maxRetries - 1).error))
  }

  /** How many times the wrapped function is called. */
  function AttemptCount<T, E>(outcomes: nat -> Result<T, E>, maxRetries: int): nat
  {
    match FirstOk(outcomes, 0, maxRetries)
    case Some(k) => k + 1
    case None => if maxRetries <= 0 then 0 else maxRetries
  }

  /** The delay before retry k+1: `delay`, multiplied by `backoff` once
      per earlier sleep. */
  function NextDelay(delay: real, backoff: real, k: nat): real
  {
    if k == 0 then delay else NextDelay(delay, backoff, k - 1) * backoff
  }

  /** The first k sleeps of the schedule. */
  function Backoff(delay: real, backoff: real, k: nat): (s: seq<real>)
    ensures |s| == k
  {
    if k == 0 then [] else Backoff(delay, backoff, k - 1) + [NextDelay(delay, backoff, k - 1)]
  }

  /** The schedule is geometric: the i-th sleep is delay * backoff^i. */
  lemma {:induction false} BackoffIsGeometric(delay: real, backoff: real, k: nat)
    ensures forall i :: 0 <= i < k ==> Backoff(delay, backoff, k)[i] == delay * Pow(backoff, i)
  {
    if k > 0 {
      BackoffIsGeometric(delay, backoff, k - 1);
      NextDelayIsPower(delay, backoff, k - 1);
      assert forall i :: 0 <= i < k - 1 ==> Backoff(delay, backoff, k)[i] == Backoff(delay, backoff, k - 1)[i];
    }
  }

  lemma {:induction false} NextDelayIsPower(delay: real, backoff: real, k: nat)
    ensures NextDelay(delay, backoff, k) == delay * Pow(backoff, k)
  {
    if k > 0 {
      NextDelayIsPower(delay, backoff, k - 1);
      calc {
        NextDelay(delay, backoff, k);
        NextDelay(delay, backoff, k - 1) * backoff;
        delay * Pow(backoff, k - 1) * backoff;
        delay * (Pow(backoff, k - 1) * backoff);
      }
    }
  }

  /** The decorator returns the first success unchanged, after at most
      maxRetries calls, all earlier calls having failed. */
  lemma RetryReturnsFirstSuccess<T, E>(outcomes: nat -> Result<T, E>, maxRetries: int)
    ensures AttemptCount(outcomes, maxRetries) <= Builtins.Max(0.0, maxRetries as real).Floor
    ensures RetryResult(outcomes, maxRetries).Ok? <==>
              exists k :: 0 <= k < maxRetries && outcomes(k).Ok?
    ensures RetryResult(outcomes, maxRetries).Ok? ==>
              var k := AttemptCount(outcomes, maxRetries) - 1;
              && 0 <= k
              && outcomes(k).Ok?
              && RetryResult(outcomes, maxRetries).value == outcomes(k).value
              && forall j :: 0 <= j < k ==> outcomes(j).Err?
  {
    if FirstOk(outcomes, 0, maxRetries).Some? {
      FirstOkIsFirst(outcomes, 0, maxRetries);
    }
  }

  /** When every attempt fails, all maxRetries attempts are made and the
      last one's exception is raised; with no attempt at all, `None` is. */
  lemma RetryExhausted<T, E>(outcomes: nat -> Result<T, E>, maxRetries: int)
    requires forall k :: 0 <= k < maxRetries ==> outcomes(k).Err?
    ensures maxRetries >= 1 ==>
              && AttemptCount(outcomes, maxRetries) == maxRetries
              && RetryResult(outcomes, maxRetries) == Err(Raised(outcomes(maxRetries - 1).error))
    ensures maxRetries <= 0 ==> RetryResult(outcomes, maxRetries) == Err(RaisedNone)
  {
  }

  /** There is no classification of exceptions: which exception an attempt
      raises never changes how many attempts are made or whether the call
      succeeds. */
  lemma {:induction false} RetryIgnoresErrorKind<T, E>(o1: nat -> Result<T, E>, o2: nat -> Result<T, E>,
                                                      from: nat, maxRetries: int)
    requires forall k :: o1(k).Ok? <==> o2(k).Ok?
    ensures FirstOk(o1, from, maxRetries) == FirstOk(o2, from, maxRetries)
    ensures from == 0 ==>
              && AttemptCount(o1, maxRetries) == AttemptCount(o2, maxRetries)
              && (RetryResult(o1, maxRetries).Ok? <==> RetryResult(o2, maxRetries).Ok?)
    decreases maxRetries - from
  {
    if from < maxRetries {
      RetryIgnoresErrorKind(o1, o2, from + 1, maxRetries);
    }
  }

  /** What the decorator has produced once it stops: its result, how many
      calls it made, and the sleeps between them. */
  datatype RetryRun<T, E> = RetryRun(result: Result<T, Raised<E>>, attempts: nat, sleeps: seq<real>)

  /** The decorator's loop from attempt `attempt` on, given the exception
      caught last and the sleeps so far; the delay due is the schedule's
      next one. */
  function RetryFrom<T, E>(outcomes: nat -> Result<T, E>, policy: RetryPolicy, attempt: nat,
                           last: Option<E>, sleeps: seq<real>): RetryRun<T, E>
    decreases policy.maxRetries - attempt
  {
    if attempt >= policy.maxRetries then
      RetryRun(if last.Some? then Err(Raised(last.value)) else Err(RaisedNone), attempt, sleeps)
    else if outcomes(attempt).Ok? then
      RetryRun(Ok(outcomes(attempt).value), attempt + 1, sleeps)
    else if attempt < policy.maxRetries - 1 then
      RetryFrom(outcomes, policy, attempt + 1, Some(outcomes(attempt).error),
                sleeps + [NextDelay(policy.delay, policy.backoff, |sleeps|)])
    else
      RetryFrom(outcomes, policy, attempt + 1, Some(outcomes(attempt).error), sleeps)
  }

  /** A failed attempt before the last: the loop records its exception and
      sleeps the delay due. */
  lemma RetryFromSleeps<T, E>(outcomes: nat -> Result<T, E>, policy: RetryPolicy, attempt: nat,
                              last: Option<E>, sleeps: seq<real>)
    requires attempt < policy.maxRetries - 1 && outcomes(attempt).Err?
    ensures RetryFrom(outcomes, policy, attempt, last, sleeps)
            == RetryFrom(outcomes, policy, attempt + 1, Some(outcomes(attempt).error),
                         sleeps + [NextDelay(policy.delay, policy.backoff, |sleeps|)])
  {
  }

  /** A failed last attempt: the loop records its exception, no sleep. */
  lemma RetryFromLast<T, E>(outcomes: nat -> Result<T, E>, policy: RetryPolicy, attempt: nat,
                            last: Option<E>, sleeps: seq<real>)
    requires attempt == policy.maxRetries - 1 && outcomes(attempt).Err?
    ensures RetryFrom(outcomes, policy, attempt, last, sleeps)
            == RetryFrom(outcomes, policy, attempt + 1, Some(outcomes(attempt).error), sleeps)
  {
  }

  /** The whole run of the decorator. */
  function Retry<T, E>(outcomes: nat -> Result<T, E>, policy: RetryPolicy): RetryRun<T, E>
  {
    RetryFrom(outcomes, policy, 0, None, [])
  }

  /** The loop's state after `attempt` failed attempts. */
  ghost predicate RetryProgress<T, E>(outcomes: nat -> Result<T, E>, policy: RetryPolicy, attempt: nat,
                                      last: Option<E>, sleeps: seq<real>)
  {
    && (attempt > 0 ==> attempt <= policy.maxRetries)
    && FirstOk(outcomes, 0, attempt) == None
    && (attempt == 0 ==> last == None)
    && (attempt > 0 ==> last == Some(outcomes(attempt - 1).error))
    && sleeps == Backoff(policy.delay, policy.backoff,
                         if attempt > 0 && attempt == policy.maxRetries then attempt - 1 else attempt)
  }

  lemma {:induction false} RetryFromMeaning<T, E>(outcomes: nat -> Result<T, E>, policy: RetryPolicy,
                                                  attempt: nat, last: Option<E>, sleeps: seq<real>)
    requires RetryProgress(outcomes, policy, attempt, last, sleeps)
    ensures var run := RetryFrom(outcomes, policy, attempt, last, sleeps);
      && run.result == RetryResult(outcomes, policy.maxRetries)
      && run.attempts == AttemptCount(outcomes, policy.maxRetries)
      && run.sleeps == Backoff(policy.delay, policy.backoff, if run.attempts == 0 then 0 else run.attempts - 1)
    decreases policy.maxRetries - attempt
  {
    if attempt >= policy.maxRetries {
      AllFailed(outcomes, attempt, policy.maxRetries);
    } else {
      FirstOkExtend(outcomes, attempt);
      if outcomes(attempt).Ok? {
        AttemptCountAtSuccess(outcomes, attempt, policy.maxRetries);
      } else if attempt < policy.maxRetries - 1 {
        RetryFromSleeps(outcomes, policy, attempt, last, sleeps);
        RetryFromMeaning(outcomes, policy, attempt + 1, Some(outcomes(attempt).error),
                         sleeps + [NextDelay(policy.delay, policy.backoff, |sleeps|)]);
      } else {
        RetryFromLast(outcomes, policy, attempt, last, sleeps);
        RetryFromMeaning(outcomes, policy, attempt + 1, Some(outcomes(attempt).error), sleeps);
      }
    }
  }

  /** The decorator returns what RetryResult says, after AttemptCount calls,
      having slept the geometric schedule between consecutive calls. */
  lemma RetryMeaning<T, E>(outcomes: nat -> Result<T, E>, policy: RetryPolicy)
    ensures Retry(outcomes, policy).result == RetryResult(outcomes, policy.maxRetries)
    ensures Retry(outcomes, policy).attempts == AttemptCount(outcomes, policy.maxRetries)
    ensures var n := Retry(outcomes, policy).attempts;
            Retry(outcomes, policy).sleeps == Backoff(policy.delay, policy.backoff, if n == 0 then 0 else n - 1)
  {
    RetryFromMeaning(outcomes, policy, 0, None, []);
  }

  // ---------------------------------------------------------------------
  // _request: one attempt
  // ---------------------------------------------------------------------

  /** An ordered dict of string fields, as the endpoints send them. */
  type Fields = seq<(string, string)>

  /** The encoders the client relies on and this model does not define. */
  datatype Codecs = Codecs(
    hmacSha256Base64: (string, string) -> string, // base64 of HMAC-SHA256(secret, message)
    urlencode: Fields -> string,                  // application/x-www-form-urlencoded
    jsonDumps: Fields -> string)

  /** The decoded JSON reply; OKX sends every field as a string. */
  datatype Reply = Reply(code: Option<string>, msg: Option<string>, data: seq<map<string, string>>)

  /** What the HTTP library produced for one request. */
  datatype HttpOutcome =
    | Delivered(reply: Reply)
    | TransportError(reason: string) // any requests exception: network, HTTP status, unreadable JSON

  /** The exceptions `_request` raises. */
  datatype RequestError =
    | RateLimitExceeded               // code '50011'
    | ApiError(msg: string)           // any other code but '0'
    | RequestFailed(reason: string)   // a requests exception, re-raised
    | UnsupportedMethod(httpMethod: string)

  const BaseUrl := "https://www.okx.com"

  /** The signed path: the endpoint, with "?" and the encoded query only
      when there are parameters. */
  function RequestPath(codecs: Codecs, endpoint: string, params: Fields): (p: string)
    ensures endpoint <= p
    ensures params == [] ==> p == endpoint
    ensures params != [] ==> p == endpoint + "?" + codecs.urlencode(params)
  {
    if params == [] then endpoint else endpoint + "?" + codecs.urlencode(params)
  }

  /** The query marker shows exactly whether parameters were sent. */
  lemma RequestPathHasQuery(codecs: Codecs, endpoint: string, params: Fields)
    requires '?' !in endpoint
    ensures '?' in RequestPath(codecs, endpoint, params) <==> params != []
  {
    var p := RequestPath(codecs, endpoint, params);
    if params != [] {
      assert p[|endpoint|] == '?';
    }
  }

  /** The body: empty without data, the JSON text of the data otherwise. */
  function Body(codecs: Codecs, data: Fields): (b: string)
    ensures data == [] ==> b == ""
    ensures data != [] ==> b == codecs.jsonDumps(data)
  {
    if data == [] then "" else codecs.jsonDumps(data)
  }

  /** The string `_generate_signature` signs. */
  function PreHash(timestamp: string, httpMethod: string, requestPath: string, body: string): string
  {
    timestamp + httpMethod + requestPath + body
  }

  /** The signed string is the four parts laid end to end, so each can be
      read back from its place. */
  lemma PreHashParts(timestamp: string, httpMethod: string, requestPath: string, body: string)
    ensures var m := PreHash(timestamp, httpMethod, requestPath, body);
      && |m| == |timestamp| + |httpMethod| + |requestPath| + |body|
      && m[..|timestamp|] == timestamp
      && m[|timestamp|..|timestamp| + |httpMethod|] == httpMethod
      && m[|timestamp| + |httpMethod|..|m| - |body|] == requestPath
      && m[|m| - |body|..] == body
  {
    var m := PreHash(timestamp, httpMethod, requestPath, body);
    var a, b := |timestamp|, |timestamp| + |httpMethod|;
    assert m == timestamp + (httpMethod + (requestPath + body));
    assert m[..a] == timestamp;
    assert m[a..] == httpMethod + (requestPath + body);
    assert m[a..][..|httpMethod|] == httpMethod;
    assert m[b..] == requestPath + body;
    assert m[b..][..|requestPath|] == requestPath;
  }

  /** The headers the client sets once; the simulated-trading flag only on
      the simulated account. */
  function BaseHeaders(apiKey: string, passphrase: string, simulated: bool): (h: map<string, string>)
    ensures h.Keys == {"Content-Type", "OK-ACCESS-KEY", "OK-ACCESS-PASSPHRASE"}
                      + (if simulated then {"x-simulated-trading"} else {})
    ensures h["OK-ACCESS-KEY"] == apiKey && h["OK-ACCESS-PASSPHRASE"] == passphrase
    ensures simulated ==> h["x-simulated-trading"] == "1"
  {
    var h := map["Content-Type" := "application/json", "OK-ACCESS-KEY" := apiKey,
                 "OK-ACCESS-PASSPHRASE" := passphrase];
    if simulated then h["x-simulated-trading" := "1"] else h
  }

  /** The request one attempt sends. */
  datatype SignedRequest = SignedRequest(url: string, requestPath: string, body: string,
                                         headers: map<string, string>)

  function BuildRequest(codecs: Codecs, apiKey: string, secretKey: string, passphrase: string,
                        simulated: bool, httpMethod: string, endpoint: string,
                        params: Fields, data: Fields, timestamp: string): SignedRequest
  {
    var path := RequestPath(codecs, endpoint, params);
    var body := Body(codecs, data);
    var signature := codecs.hmacSha256Base64(secretKey, PreHash(timestamp, httpMethod, path, body));
    var headers := BaseHeaders(apiKey, passphrase, simulated)
                     ["OK-ACCESS-SIGN" := signature]["OK-ACCESS-TIMESTAMP" := timestamp];
    SignedRequest(BaseUrl + endpoint, path, body, headers)
  }

  /** What a signed request carries: the signature over exactly
      timestamp + method + request path + body, the timestamp it signed,
      the client's fixed headers, and the simulated-trading flag exactly on
      the simulated account. */
  lemma BuildRequestSigned(codecs: Codecs, apiKey: string, secretKey: string, passphrase: string,
                           simulated: bool, httpMethod: string, endpoint: string,
                           params: Fields, data: Fields, timestamp: string)
    ensures var s := BuildRequest(codecs, apiKey, secretKey, passphrase, simulated,
                                  httpMethod, endpoint, params, data, timestamp);
      && s.url == BaseUrl + endpoint
      && s.requestPath == RequestPath(codecs, endpoint, params)
      && s.body == Body(codecs, data)
      && s.headers.Keys == BaseHeaders(apiKey, passphrase, simulated).Keys
                           + {"OK-ACCESS-SIGN", "OK-ACCESS-TIMESTAMP"}
      && s.headers["OK-ACCESS-SIGN"]
           == codecs.hmacSha256Base64(secretKey, PreHash(timestamp, httpMethod, s.requestPath, s.body))
      && s.headers["OK-ACCESS-TIMESTAMP"] == timestamp
      && s.headers["OK-ACCESS-KEY"] == apiKey
      && (("x-simulated-trading" in s.headers) <==> simulated)
  {
  }

  /** How `_request` judges the decoded reply. */
  function ClassifyReply(reply: Reply): (r: Result<Reply, RequestError>)
    ensures r.Ok? <==> reply.code == Some("0")
    ensures r.Ok? ==> r.value == reply
    ensures r == Err(RateLimitExceeded) <==> reply.code == Some("50011")
    ensures r.Err? && reply.code != Some("50011") ==> r.error == ApiError(reply.msg.GetOr("Unknown error"))
  {
    if reply.code == Some("50011") then Err(RateLimitExceeded)
    else if reply.code != Some("0") then Err(ApiError(reply.msg.GetOr("Unknown error")))
    else Ok(reply)
  }

  /** One attempt of `_request` once the rate limiter has let it through. */
  function AttemptResult(httpMethod: string, outcome: HttpOutcome): (r: Result<Reply, RequestError>)
    ensures httpMethod != "GET" && httpMethod != "POST" ==> r == Err(UnsupportedMethod(httpMethod))
    ensures (httpMethod == "GET" || httpMethod == "POST") && outcome.TransportError? ==>
              r == Err(RequestFailed(outcome.reason))
    ensures (httpMethod == "GET" || httpMethod == "POST") && outcome.Delivered? ==>
              r == ClassifyReply(outcome.reply)
  {
    if httpMethod != "GET" && httpMethod != "POST" then Err(UnsupportedMethod(httpMethod))
    else match outcome
      case TransportError(reason) => Err(RequestFailed(reason))
      case Delivered(reply) => ClassifyReply(reply)
  }

  /** Everything one attempt reads from outside: the clock around the rate
      limiter's sleep, the ISO timestamp it signs, and what the HTTP
      library produced. */
  datatype AttemptEnv = AttemptEnv(now: real, after: real, timestamp: string, outcome: HttpOutcome)

  // ---------------------------------------------------------------------
  // OKXClient
  // ---------------------------------------------------------------------

  class OkxClient {
    const apiKey: string
    const secretKey: string
    const passphrase: string
    const isSimulated: bool
    const headers: map<string, string>
    const rateLimiter: RateLimiter

    ghost predicate Valid()
      reads this, rateLimiter
    {
      rateLimiter.maxCalls == 10 && rateLimiter.period == 1.0
    }

    constructor (apiKey: string, secretKey: string, passphrase: string, isSimulated: bool)
      ensures this.apiKey == apiKey && this.secretKey == secretKey
      ensures this.passphrase == passphrase && this.isSimulated == isSimulated
      ensures headers == BaseHeaders(apiKey, passphrase, isSimulated)
      ensures fresh(rateLimiter) && rateLimiter.calls == [] && rateLimiter.Valid()
      ensures Valid()
    {
      this.apiKey := apiKey;
      this.secretKey := secretKey;
      this.passphrase := passphrase;
      this.isSimulated := isSimulated;
      headers := BaseHeaders(apiKey, passphrase, isSimulated);
      rateLimiter := new RateLimiter(10, 1.0);
    }

    /** The request this client signs and sends for one attempt. */
    function SignedFor(codecs: Codecs, httpMethod: string, endpoint: string, params: Fields,
                       data: Fields, timestamp: string): SignedRequest
    {
      BuildRequest(codecs, apiKey, secretKey, passphrase, isSimulated,
                   httpMethod, endpoint, params, data, timestamp)
    }

    /** One call of `_request`: wait on the rate limiter, which always
        admits here and records exactly one more call, even when the
        attempt then fails, and judge the outcome of the HTTP exchange.
        The request sent is the one SignedFor describes; it is not an
        output here, because the exchange's answer to it, `e.outcome`, is
        an input. */
    method Attempt(httpMethod: string, e: AttemptEnv) returns (outcome: Result<Reply, RequestError>)
      requires Valid()
      modifies rateLimiter
      ensures outcome == AttemptResult(httpMethod, e.outcome)
      ensures rateLimiter.admitted == old(rateLimiter.admitted) + [e.after]
    {
      var _ := rateLimiter.Wait(e.now, e.after);
      outcome := AttemptResult(httpMethod, e.outcome);
    }

    /** `_request` under its retry decorator: attempt k waits on the rate
        limiter, signs and sends the request with env(k)'s timestamp, and
        judges the reply env(k) carries.  The result, the number of calls
        and the sleeps are the decorator's run over those attempts, and every
        call takes one slot of the rate limiter. */
    method Request(policy: RetryPolicy, httpMethod: string, env: nat -> AttemptEnv)
      returns (r: Result<Reply, Raised<RequestError>>, attempts: nat, sleeps: seq<real>)
      requires Valid()
      modifies rateLimiter
      ensures RetryRun(r, attempts, sleeps) == Retry(AttemptOutcomes(httpMethod, env), policy)
      ensures |rateLimiter.admitted| == |old(rateLimiter.admitted)| + attempts
    {
      ghost var outcomes := AttemptOutcomes(httpMethod, env);
      var lastError: Option<RequestError> := None;
      var currentDelay := policy.delay;
      attempts := 0;
      sleeps := [];
      while attempts < policy.maxRetries
        invariant RetryFrom(outcomes, policy, attempts, lastError, sleeps) == Retry(outcomes, policy)
        invariant currentDelay == NextDelay(policy.delay, policy.backoff, |sleeps|)
        invariant |rateLimiter.admitted| == |old(rateLimiter.admitted)| + attempts
        decreases policy.maxRetries - attempts
      {
        var outcome := Attempt(httpMethod, env(attempts));
        assert outcome == outcomes(attempts);
        if outcome.Ok? {
          r := Ok(outcome.value);
          attempts := attempts + 1;
          return;
        }
        if attempts < policy.maxRetries - 1 {
          RetryFromSleeps(outcomes, policy, attempts, lastError, sleeps);
          sleeps := sleeps + [currentDelay];
          currentDelay := currentDelay * policy.backoff;
        } else {
          RetryFromLast(outcomes, policy, attempts, lastError, sleeps);
        }
        lastError := Some(outcome.error);
        attempts := attempts + 1;
      }
      match lastError
      case Some(e) => r := Err(Raised(e));
      case None => r := Err(RaisedNone);
    }
  }

  /** What each attempt of `_request` raises or returns. */
  function AttemptOutcomes(httpMethod: string, env: nat -> AttemptEnv): (o: nat -> Result<Reply, RequestError>)
    ensures forall k :: o(k) == AttemptResult(httpMethod, env(k).outcome)
  {
    (k: nat) => AttemptResult(httpMethod, env(k).outcome)
  }

  /** Extending the attempts by one: FirstOk over 0..n+1 either agrees with
      FirstOk over 0..n or names attempt n. */
  lemma {:induction false} FirstOkExtend<T, E>(outcomes: nat -> Result<T, E>, n: nat)
    requires FirstOk(outcomes, 0, n) == None
    ensures FirstOk(outcomes, 0, n + 1) == (if outcomes(n).Ok? then Some(n) else None)
  {
    FirstOkFromExtend(outcomes, 0, n);
  }

  lemma {:induction false} FirstOkFromExtend<T, E>(outcomes: nat -> Result<T, E>, from: nat, n: nat)
    requires from <= n && FirstOk(outcomes, from, n) == None
    ensures FirstOk(outcomes, from, n + 1) == (if outcomes(n).Ok? then Some(n) else None)
    decreases n - from
  {
    if from < n {
      FirstOkFromExtend(outcomes, from + 1, n);
    }
  }

  /** All attempts before n failed and attempt n < maxRetries succeeded. */
  lemma {:induction false} AttemptCountAtSuccess<T, E>(outcomes: nat -> Result<T, E>, n: nat, maxRetries: int)
    requires n < maxRetries && FirstOk(outcomes, 0, n + 1) == Some(n)
    ensures FirstOk(outcomes, 0, maxRetries) == Some(n)
    ensures AttemptCount(outcomes, maxRetries) == n + 1
  {
    FirstOkPrefix(outcomes, 0, n + 1, maxRetries);
  }

  /** A success found within the first n attempts is the first success
      within any larger budget. */
  lemma {:induction false} FirstOkPrefix<T, E>(outcomes: nat -> Result<T, E>, from: nat, n: int, m: int)
    requires n <= m && FirstOk(outcomes, from, n).Some?
    ensures FirstOk(outcomes, from, m) == FirstOk(outcomes, from, n)
    decreases n - from
  {
    if outcomes(from).Err? {
      FirstOkPrefix(outcomes, from + 1, n, m);
    }
  }

  lemma AllFailed<T, E>(outcomes: nat -> Result<T, E>, attempt: nat, maxRetries: int)
    requires FirstOk(outcomes, 0, attempt) == None
    requires maxRetries >= 0 ==> attempt == maxRetries
    requires maxRetries < 0 ==> attempt == 0
    ensures FirstOk(outcomes, 0, maxRetries) == None
  {
    if maxRetries < 0 {
      assert FirstOk(outcomes, 0, maxRetries) == None;
    }
  }

  /* ---------------------------------------------------------------------
     Payload builders: the method, endpoint, query parameters and JSON body
     each trading call hands to `_request`.  A Python dict keeps insertion
     order, so a payload is a sequence of (key, value) pairs; a later
     assignment to the same key wins.
     --------------------------------------------------------------------- */

  /** The value a dict built by these assignments holds for k. */
  function Lookup(f: Fields, k: string): Option<string>
  {
    if f == [] then None
    else if f[|f| - 1].0 == k then Some(f[|f| - 1].1)
    else Lookup(f[..|f| - 1], k)
  }

  /** A call of `_request`: method, endpoint, query parameters and body. */
  datatype ApiCall = ApiCall(httpMethod: string, endpoint: string, params: Fields, data: Fields)

  /** `pos_side and pos_side != 'net'`: only hedge-mode sides are sent. */
  predicate SendsPosSide(posSide: Option<string>)
  {
    Present(posSide) && posSide.value != "net"
  }

  /** The optional entry `key: value` when `cond` holds. */
  function OptionalField(cond: bool, key: string, value: string): (f: Fields)
    ensures cond ==> f == [(key, value)]
    ensures !cond ==> f == []
  {
    if cond then [(key, value)] else []
  }

  function OrderBase(instId: string, tdMode: string, side: string, ordType: string, size: string): Fields
  {
    [("instId", instId), ("tdMode", tdMode), ("side", side), ("ordType", ordType), ("sz", size)]
  }

  /** A later binding of k hides every earlier one. */
  lemma {:induction false} LookupAppend(a: Fields, b: Fields, k: string)
    ensures Lookup(a + b, k) == if Lookup(b, k).Some? then Lookup(b, k) else Lookup(a, k)
    decreases |b|
  {
    if b == [] {
      assert a + b == a;
    } else {
      var b' := b[..|b| - 1];
      assert (a + b)[..|a + b| - 1] == a + b';
      LookupAppend(a, b', k);
    }
  }

  lemma LookupSingle(key: string, value: string, k: string)
    ensures Lookup([(key, value)], k) == if k == key then Some(value) else None
  {
    assert [(key, value)][..0] == [];
  }

  lemma OrderBaseLookup(instId: string, tdMode: string, side: string, ordType: string, size: string, k: string)
    ensures Lookup(OrderBase(instId, tdMode, side, ordType, size), k)
         == if k == "instId" then Some(instId) else if k == "tdMode" then Some(tdMode)
            else if k == "side" then Some(side) else if k == "ordType" then Some(ordType)
            else if k == "sz" then Some(size) else None
  {
    var f1: Fields := [("instId", instId)];
    var f2 := f1 + [("tdMode", tdMode)];
    var f3 := f2 + [("side", side)];
    var f4 := f3 + [("ordType", ordType)];
    assert OrderBase(instId, tdMode, side, ordType, size) == f4 + [("sz", size)];
    LookupSingle("instId", instId, k);
    LookupSingle("tdMode", tdMode, k);
    LookupSingle("side", side, k);
    LookupSingle("ordType", ordType, k);
    LookupSingle("sz", size, k);
    LookupAppend(f1, [("tdMode", tdMode)], k);
    LookupAppend(f2, [("side", side)], k);
    LookupAppend(f3, [("ordType", ordType)], k);
    LookupAppend(f4, [("sz", size)], k);
  }

  /** `place_order`: a POST to the order endpoint whose body starts with the
      five mandatory fields; posSide only in hedge mode, px only on a limit
      order that has a price. */
  function PlaceOrder(instId: string, side: string, ordType: string, size: string,
                      price: Option<string>, posSide: Option<string>, tdMode: string): ApiCall
  {
    var data := OrderBase(instId, tdMode, side, ordType, size)
                + OptionalField(SendsPosSide(posSide), "posSide", posSide.GetOr(""))
                + OptionalField(ordType == "limit" && Present(price), "px", price.GetOr(""));
    ApiCall("POST", "/api/v5/trade/order", [], data)
  }

  /** What place_order sends: the five mandatory fields first, posSide
      exactly in hedge mode, px exactly on a priced limit order, and no
      other key. */
  lemma PlaceOrderPayload(instId: string, side: string, ordType: string, size: string,
                          price: Option<string>, posSide: Option<string>, tdMode: string)
    ensures var c := PlaceOrder(instId, side, ordType, size, price, posSide, tdMode);
      && c.httpMethod == "POST" && c.endpoint == "/api/v5/trade/order" && c.params == []
      && |c.data| >= 5 && c.data[..5] == OrderBase(instId, tdMode, side, ordType, size)
      && Lookup(c.data, "posSide") == (if SendsPosSide(posSide) then posSide else None)
      && Lookup(c.data, "px") == (if ordType == "limit" && Present(price) then price else None)
      && forall k :: k != "posSide" && k != "px" ==>
           Lookup(c.data, k) == Lookup(OrderBase(instId, tdMode, side, ordType, size), k)
  {
    var base := OrderBase(instId, tdMode, side, ordType, size);
    var pos := OptionalField(SendsPosSide(posSide), "posSide", posSide.GetOr(""));
    var px := OptionalField(ordType == "limit" && Present(price), "px", price.GetOr(""));
    var c := PlaceOrder(instId, side, ordType, size, price, posSide, tdMode);
    assert c.data == base + pos + px;
    assert (base + pos + px)[..5] == base;
    forall k
      ensures Lookup(c.data, k) == if k == "px" && px != [] then price
                                   else if k == "posSide" && pos != [] then posSide
                                   else Lookup(base, k)
    {
      LookupAppend(base + pos, px, k);
      LookupAppend(base, pos, k);
      LookupSingle("posSide", posSide.GetOr(""), k);
      LookupSingle("px", price.GetOr(""), k);
      OrderBaseLookup(instId, tdMode, side, ordType, size, k);
    }
    OrderBaseLookup(instId, tdMode, side, ordType, size, "posSide");
    OrderBaseLookup(instId, tdMode, side, ordType, size, "px");
  }

  /** How `cancel_order` and `get_order` name the order: ordId when given,
      else clOrdId, else a ValueError raised before any request. */
  function OrderRef(ordId: Option<string>, clOrdId: Option<string>): (r: Result<(string, string), string>)
    ensures Present(ordId) ==> r == Ok(("ordId", ordId.value))
    ensures !Present(ordId) && Present(clOrdId) ==> r == Ok(("clOrdId", clOrdId.value))
    ensures r.Err? <==> !Present(ordId) && !Present(clOrdId)
    ensures r.Err? ==> r.error == "Must provide either ord_id or cl_ord_id"
  {
    if Present(ordId) then Ok(("ordId", ordId.value))
    else if Present(clOrdId) then Ok(("clOrdId", clOrdId.value))
    else Err("Must provide either ord_id or cl_ord_id")
  }

  /** `cancel_order`: a POST whose body is instId and the order's reference. */
  function CancelOrder(instId: string, ordId: Option<string>, clOrdId: Option<string>): (r: Result<ApiCall, string>)
  {
    match OrderRef(ordId, clOrdId)
    case Ok(ref) => Ok(ApiCall("POST", "/api/v5/trade/cancel-order", [], [("instId", instId), ref]))
    case Err(e) => Err(e)
  }

  /** `get_order`: a GET whose query is instId and the order's reference. */
  function GetOrder(instId: string, ordId: Option<string>, clOrdId: Option<string>): (r: Result<ApiCall, string>)
  {
    match OrderRef(ordId, clOrdId)
    case Ok(ref) => Ok(ApiCall("GET", "/api/v5/trade/order", [("instId", instId), ref], []))
    case Err(e) => Err(e)
  }

  /** Cancelling and querying an order accept and refuse the same arguments
      and name the order the same way: the fields cancel_order posts are
      the query get_order sends. */
  lemma CancelAndGetAgree(instId: string, ordId: Option<string>, clOrdId: Option<string>)
    ensures CancelOrder(instId, ordId, clOrdId).Ok? <==> GetOrder(instId, ordId, clOrdId).Ok?
    ensures CancelOrder(instId, ordId, clOrdId).Err? ==>
      CancelOrder(instId, ordId, clOrdId) == GetOrder(instId, ordId, clOrdId)
    ensures CancelOrder(instId, ordId, clOrdId).Ok? ==>
      CancelOrder(instId, ordId, clOrdId).value.data == GetOrder(instId, ordId, clOrdId).value.params
  {
  }

  /** What cancel_order sends: instId, then ordId when given (clOrdId is then
      ignored), else clOrdId; with neither, no request at all. */
  lemma CancelOrderPayload(instId: string, ordId: Option<string>, clOrdId: Option<string>)
    ensures var r := CancelOrder(instId, ordId, clOrdId);
      && (r.Err? <==> !Present(ordId) && !Present(clOrdId))
      && (r.Ok? ==> r.value.httpMethod == "POST" && r.value.endpoint == "/api/v5/trade/cancel-order")
      && (r.Ok? ==> Lookup(r.value.data, "instId") == Some(instId))
      && (Present(ordId) ==> Lookup(r.value.data, "ordId") == ordId
                             && Lookup(r.value.data, "clOrdId") == None)
      && (!Present(ordId) && Present(clOrdId) ==> Lookup(r.value.data, "clOrdId") == clOrdId
                                                  && Lookup(r.value.data, "ordId") == None)
  {
    var r := CancelOrder(instId, ordId, clOrdId);
    if r.Ok? {
      var ref := OrderRef(ordId, clOrdId).value;
      assert r.value.data == [("instId", instId)] + [ref];
      forall k | k in {"instId", "ordId", "clOrdId"}
        ensures Lookup(r.value.data, k) == if k == ref.0 then Some(ref.1) else if k == "instId" then Some(instId) else None
      {
        LookupAppend([("instId", instId)], [ref], k);
        LookupSingle("instId", instId, k);
        LookupSingle(ref.0, ref.1, k);
      }
    }
  }

  /** `place_algo_order`'s take-profit or stop-loss pair: the trigger price
      and the order price, -1 (market) when no order price is given; nothing
      when there is no trigger price. */
  function TriggerPair(triggerKey: string, orderKey: string, trigger: Option<string>,
                       orderPx: Option<string>): (f: Fields)
    ensures Present(trigger) ==>
      f == [(triggerKey, trigger.value), (orderKey, OrderPxOrMarket(orderPx))]
    ensures !Present(trigger) ==> f == []
  {
    if Present(trigger) then [(triggerKey, trigger.value), (orderKey, OrderPxOrMarket(orderPx))]
    else []
  }

  /** `place_algo_order`: a POST to the algo endpoint with the five mandatory
      fields and, for each of take-profit and stop-loss, both prices exactly
      when its trigger price is given. */
  function PlaceAlgoOrder(instId: string, side: string, ordType: string, size: string,
                          tpTriggerPx: Option<string>, tpOrderPx: Option<string>,
                          slTriggerPx: Option<string>, slOrderPx: Option<string>,
                          tdMode: string): (c: ApiCall)
  {
    var data := OrderBase(instId, tdMode, side, ordType, size)
                + TriggerPair("tpTriggerPx", "tpOrdPx", tpTriggerPx, tpOrderPx)
                + TriggerPair("slTriggerPx", "slOrdPx", slTriggerPx, slOrderPx);
    ApiCall("POST", "/api/v5/trade/order-algo", [], data)
  }

  lemma TriggerPairLookup(triggerKey: string, orderKey: string, trigger: Option<string>,
                          orderPx: Option<string>, k: string)
    requires triggerKey != orderKey
    ensures Lookup(TriggerPair(triggerKey, orderKey, trigger, orderPx), k)
         == if !Present(trigger) then None
            else if k == orderKey then Some(OrderPxOrMarket(orderPx))
            else if k == triggerKey then trigger
            else None
  {
    var f := TriggerPair(triggerKey, orderKey, trigger, orderPx);
    if Present(trigger) {
      assert f == [(triggerKey, trigger.value)] + [(orderKey, OrderPxOrMarket(orderPx))];
      LookupAppend([(triggerKey, trigger.value)], [(orderKey, OrderPxOrMarket(orderPx))], k);
      LookupSingle(triggerKey, trigger.value, k);
      LookupSingle(orderKey, OrderPxOrMarket(orderPx), k);
    }
  }

  /** The market price -1 stands in for a missing order price. */
  function OrderPxOrMarket(orderPx: Option<string>): string
  {
    if Present(orderPx) then orderPx.value else "-1"
  }

  /** What place_algo_order sends: the five mandatory fields first, each
      take-profit and stop-loss pair exactly when its trigger price is
      given (order price -1 when none is), and no other key. */
  lemma PlaceAlgoOrderPayload(instId: string, side: string, ordType: string, size: string,
                              tpTriggerPx: Option<string>, tpOrderPx: Option<string>,
                              slTriggerPx: Option<string>, slOrderPx: Option<string>, tdMode: string)
    ensures var c := PlaceAlgoOrder(instId, side, ordType, size, tpTriggerPx, tpOrderPx,
                                    slTriggerPx, slOrderPx, tdMode);
      && c.httpMethod == "POST" && c.endpoint == "/api/v5/trade/order-algo" && c.params == []
      && |c.data| >= 5 && c.data[..5] == OrderBase(instId, tdMode, side, ordType, size)
      && Lookup(c.data, "tpTriggerPx") == (if Present(tpTriggerPx) then tpTriggerPx else None)
      && Lookup(c.data, "tpOrdPx") == (if Present(tpTriggerPx) then Some(OrderPxOrMarket(tpOrderPx)) else None)
      && Lookup(c.data, "slTriggerPx") == (if Present(slTriggerPx) then slTriggerPx else None)
      && Lookup(c.data, "slOrdPx") == (if Present(slTriggerPx) then Some(OrderPxOrMarket(slOrderPx)) else None)
      && forall k :: k != "tpTriggerPx" && k != "tpOrdPx" && k != "slTriggerPx" && k != "slOrdPx" ==>
           Lookup(c.data, k) == Lookup(OrderBase(instId, tdMode, side, ordType, size), k)
  {
    var base := OrderBase(instId, tdMode, side, ordType, size);
    var tp := TriggerPair("tpTriggerPx", "tpOrdPx", tpTriggerPx, tpOrderPx);
    var sl := TriggerPair("slTriggerPx", "slOrdPx", slTriggerPx, slOrderPx);
    var c := PlaceAlgoOrder(instId, side, ordType, size, tpTriggerPx, tpOrderPx,
                            slTriggerPx, slOrderPx, tdMode);
    assert c.data == base + tp + sl;
    assert (base + tp + sl)[..5] == base;
    forall k
      ensures Lookup(c.data, k)
           == if k == "slTriggerPx" || k == "slOrdPx" then Lookup(sl, k)
              else if k == "tpTriggerPx" || k == "tpOrdPx" then Lookup(tp, k)
              else Lookup(base, k)
    {
      LookupAppend(base + tp, sl, k);
      LookupAppend(base, tp, k);
      TriggerPairLookup("tpTriggerPx", "tpOrdPx", tpTriggerPx, tpOrderPx, k);
      TriggerPairLookup("slTriggerPx", "slOrdPx", slTriggerPx, slOrderPx, k);
      OrderBaseLookup(instId, tdMode, side, ordType, size, k);
    }
    TriggerPairLookup("tpTriggerPx", "tpOrdPx", tpTriggerPx, tpOrderPx, "tpTriggerPx");
    TriggerPairLookup("tpTriggerPx", "tpOrdPx", tpTriggerPx, tpOrderPx, "tpOrdPx");
    TriggerPairLookup("slTriggerPx", "slOrdPx", slTriggerPx, slOrderPx, "slTriggerPx");
    TriggerPairLookup("slTriggerPx", "slOrdPx", slTriggerPx, slOrderPx, "slOrdPx");
  }

  /** `close_position`: a POST with instId and mgnMode, and posSide under the
      same hedge-mode rule as place_order. */
  function ClosePosition(instId: string, mgnMode: string, posSide: Option<string>): ApiCall
  {
    ApiCall("POST", "/api/v5/trade/close-position", [],
            [("instId", instId), ("mgnMode", mgnMode)]
            + OptionalField(SendsPosSide(posSide), "posSide", posSide.GetOr("")))
  }

  /** What close_position sends: instId, mgnMode, posSide exactly in hedge
      mode, and no other key. */
  lemma ClosePositionPayload(instId: string, mgnMode: string, posSide: Option<string>)
    ensures var c := ClosePosition(instId, mgnMode, posSide);
      && c.httpMethod == "POST" && c.endpoint == "/api/v5/trade/close-position" && c.params == []
      && forall k :: Lookup(c.data, k)
           == if k == "posSide" then (if SendsPosSide(posSide) then posSide else None)
              else if k == "mgnMode" then Some(mgnMode)
              else if k == "instId" then Some(instId)
              else None
  {
    var base: Fields := [("instId", instId), ("mgnMode", mgnMode)];
    var pos := OptionalField(SendsPosSide(posSide), "posSide", posSide.GetOr(""));
    assert base[..1][..0] == [];
    forall k
      ensures Lookup(base + pos, k)
           == if k == "posSide" then (if SendsPosSide(posSide) then posSide else None)
              else if k == "mgnMode" then Some(mgnMode)
              else if k == "instId" then Some(instId)
              else None
    {
      LookupAppend(base, pos, k);
    }
  }

  /** place_order and close_position decide posSide by the same rule. */
  lemma PosSideRuleShared(instId: string, side: string, ordType: string, size: string,
                          price: Option<string>, posSide: Option<string>, tdMode: string, mgnMode: string)
    ensures Lookup(PlaceOrder(instId, side, ordType, size, price, posSide, tdMode).data, "posSide")
         == Lookup(ClosePosition(instId, mgnMode, posSide).data, "posSide")
  {
    PlaceOrderPayload(instId, side, ordType, size, price, posSide, tdMode);
    ClosePositionPayload(instId, mgnMode, posSide);
  }
}
