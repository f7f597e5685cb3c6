/**
 Retries and delays: doPushWithRetry, calculateBackoff and isRetryable of
 push/client/client.go, and the delay of reconnect in ws/client/client.go.
 Delays are Go's time.Duration, an int64 count of nanoseconds that wraps around.
 */
module Retry {

  const TWO_63 := 0x8000_0000_0000_0000
  const TWO_64 := 0x1_0000_0000_0000_0000

  /** The int64 that Go keeps of an exact integer. */
  function Wrap64(x: int): (r: int)
    ensures -TWO_63 <= r < TWO_63
    ensures -TWO_63 <= x < TWO_63 ==> r == x
  {
    (x + TWO_63) % TWO_64 - TWO_63
  }

  function Pow2(k: nat): nat {
    if k == 0 then 1 else 2 * Pow2(k - 1)
  }

  lemma {:induction false} Pow2Add(j: nat, k: nat)
    ensures Pow2(j + k) == Pow2(j) * Pow2(k)
  {
    if k == 0 {
    } else {
      Pow2Add(j, k - 1);
      assert Pow2(j + k) == 2 * (Pow2(j) * Pow2(k - 1));
    }
  }

  lemma {:induction false} Pow2Monotone(j: nat, k: nat)
    requires j <= k
    ensures 1 <= Pow2(j) <= Pow2(k)
    decreases k
  {
    if j < k {
      Pow2Monotone(j, k - 1);
    } else if k > 0 {
      Pow2Monotone(k - 1, k - 1);
    }
  }

  lemma Pow2Values()
    ensures Pow2(34) == 0x4_0000_0000 && Pow2(35) == 0x8_0000_0000
    ensures Pow2(36) == 0x10_0000_0000 && Pow2(37) == 0x20_0000_0000
  {
    assert Pow2(4) == 16;
    Pow2Add(4, 4);
    Pow2Add(8, 8);
    Pow2Add(16, 16);
    assert Pow2(32) == 0x1_0000_0000;
    Pow2Add(32, 4);
    assert Pow2(34) == 2 * Pow2(33) && Pow2(33) == 2 * Pow2(32);
    assert Pow2(35) == 2 * Pow2(34);
    assert Pow2(37) == 2 * Pow2(36);
  }

  /** `base * time.Duration(1 << uint(k))` in int64 arithmetic; a shift by 64 or more gives 0. */
  function ScaledDelay(base: nat, k: nat): int {
    Wrap64(base * Wrap64(Pow2(k)))
  }

  function Capped(delay: int, cap: int): int {
    if delay > cap then cap else delay
  }

  function Min(a: int, b: int): int {
    if a < b then a else b
  }

  lemma MulMonotone(a: nat, x: nat, y: nat)
    requires x <= y
    ensures a * x <= a * y
  {}

  /** While the exact product fits in int64, the capped delay is min(base * 2^k, cap). */
  lemma ScaledDelayExact(base: nat, k: nat, cap: nat)
    requires 1 <= base && base * Pow2(k) < TWO_63
    ensures Capped(ScaledDelay(base, k), cap) == Min(base * Pow2(k), cap)
  {
    var p := Pow2(k);
    MulMonotone(p, 1, base);
    assert Wrap64(p) == p;
    assert Wrap64(base * p) == base * p;
  }

  lemma ScaledBelow(base: nat, k: nat, top: nat)
    requires k <= top && base * Pow2(top) < TWO_63
    ensures base * Pow2(k) < TWO_63
  {
    Pow2Monotone(k, top);
    MulMonotone(base, Pow2(k), Pow2(top));
  }

  // ---------------------------------------------------------------------
  // calculateBackoff
  // ---------------------------------------------------------------------

  const MILLISECOND := 1_000_000
  const INIT_DELAY := 100 * MILLISECOND
  const MAX_DELAY := 30_000 * MILLISECOND

  /** The delay before jitter. */
  function BackoffBase(attempt: nat): int
    requires attempt >= 1
  {
    Capped(ScaledDelay(INIT_DELAY, attempt - 1), MAX_DELAY)
  }

  /** rand.Int64N panics unless its bound is positive; Go truncates delay / 2 towards zero. */
  predicate BackoffPanics(attempt: nat)
    requires attempt >= 1
  {
    BackoffBase(attempt) < 2
  }

  /** Up to attempt 37, the wait lies in [d, d + d/4) for d = min(100ms * 2^(attempt-1), 30s). */
  ghost predicate BackoffInRange(attempt: nat, wait: int)
    requires attempt >= 1
  {
    attempt <= 37 ==>
      var d := Min(100_000_000 * Pow2(attempt - 1), 30_000_000_000);
      d <= wait && 4 * wait < 5 * d
  }

  /** calculateBackoff; `draw` is what rand.Int64N(delay / 2) returned. */
  method CalculateBackoff(attempt: nat, draw: int) returns (delay: int)
    requires attempt >= 1 && !BackoffPanics(attempt)
    requires 0 <= draw < BackoffBase(attempt) / 2
    ensures BackoffInRange(attempt, delay)
  {
    if attempt <= 37 {
      BackoffIsExact(attempt);
    }
    delay := INIT_DELAY * Wrap64(Pow2(attempt - 1));
    delay := Wrap64(delay);
    if delay > MAX_DELAY {
      delay := MAX_DELAY;
    }
    delay := delay + draw / 2;
  }

  /** Up to attempt 37 the arithmetic does not wrap: the delay is min(100ms * 2^(attempt-1), 30s), and never panics. */
  lemma BackoffIsExact(attempt: nat)
    requires 1 <= attempt <= 37
    ensures BackoffBase(attempt) == Min(100_000_000 * Pow2(attempt - 1), 30_000_000_000)
    ensures INIT_DELAY <= BackoffBase(attempt) && !BackoffPanics(attempt)
  {
    Pow2Values();
    ScaledBelow(INIT_DELAY, attempt - 1, 36);
    ScaledDelayExact(INIT_DELAY, attempt - 1, MAX_DELAY);
    Pow2Monotone(0, attempt - 1);
    MulMonotone(INIT_DELAY, 1, Pow2(attempt - 1));
  }

  /** At attempt 38 the product wraps to a negative number and rand.Int64N panics. */
  lemma BackoffPanicsAt38()
    ensures BackoffPanics(38)
  {
    Pow2Values();
  }

  lemma FirstPanicAt38(attempt: nat)
    requires 1 <= attempt <= 38
    ensures BackoffPanics(attempt) <==> attempt == 38
  {
    if attempt <= 37 {
      BackoffIsExact(attempt);
    } else {
      BackoffPanicsAt38();
    }
  }

  /** A random draw below `bound`. */
  function Below(raw: nat, bound: int): (r: int)
    requires bound > 0
    ensures 0 <= r < bound
  {
    raw % bound
  }

  // ---------------------------------------------------------------------
  // isRetryable
  // ---------------------------------------------------------------------

  /** What the tests of isRetryable distinguish in an error; `text` is the lower-cased message. */
  datatype SendError =
    | ContextEnded
    | HttpStatus(code: int)
    | NetTimeout
    | OtherError(text: string)

  predicate OccursAt(text: string, part: string, i: nat)
    requires i + |part| <= |text|
  {
    text[i..i + |part|] == part
  }

  predicate Contains(text: string, part: string) {
    exists i | 0 <= i <= |text| - |part| :: OccursAt(text, part, i)
  }

  predicate IsRetryable(e: SendError) {
    match e
    case ContextEnded => false
    case HttpStatus(code) => code == 429 || code >= 500
    case NetTimeout => true
    case OtherError(text) =>
      Contains(text, "connection refused") || Contains(text, "connection reset") ||
      Contains(text, "temporary failure") || Contains(text, "timeout") || Contains(text, "i/o timeout")
  }

  const TEMPORARY: seq<string> :=
    ["connection refused", "connection reset", "temporary failure", "timeout", "i/o timeout"]

  /** What is tried again: timeouts, status 429 and from 500 on, and errors whose text says one of five things. */
  lemma RetryableKinds(code: int, before: string, after: string, text: string)
    ensures !IsRetryable(ContextEnded) && IsRetryable(NetTimeout) && IsRetryable(HttpStatus(429))
    ensures code >= 500 ==> IsRetryable(HttpStatus(code))
    ensures code < 500 && code != 429 ==> !IsRetryable(HttpStatus(code))
    ensures forall part | part in TEMPORARY :: IsRetryable(OtherError(before + part + after))
    ensures IsRetryable(OtherError(text)) ==>
      exists part, i | part in TEMPORARY && 0 <= i <= |text| - |part| :: OccursAt(text, part, i)
    ensures IsRetryable(OtherError(text)) ==> |text| >= 7
  {
    forall part | part in TEMPORARY
      ensures IsRetryable(OtherError(before + part + after))
    {
      assert OccursAt(before + part + after, part, |before|);
      assert Contains(before + part + after, part);
    }
    assert TEMPORARY[0] in TEMPORARY && TEMPORARY[1] in TEMPORARY && TEMPORARY[2] in TEMPORARY;
    assert TEMPORARY[3] in TEMPORARY && TEMPORARY[4] in TEMPORARY;
  }

  // ---------------------------------------------------------------------
  // doPushWithRetry
  // ---------------------------------------------------------------------

  datatype Sent = Delivered | Rejected(error: SendError)

  datatype PushResult = Success | Exhausted(last: SendError) | ContextDone | Panicked

  /** What the outside world does during one call. */
  datatype World = World(
    reply: nat -> Sent,      // what doPush returns on each attempt
    ended: nat -> bool,      // the context ends before the wait of that attempt is over
    draw: nat -> nat)        // randomness, reduced to the range asked for

  predicate RetryableAt(w: World, attempt: nat) {
    w.reply(attempt).Rejected? && IsRetryable(w.reply(attempt).error)
  }

  /** 38 sends are allowed and all fail retryably, and the context outlives the 37 waits between them. */
  ghost predicate PanicsAt38(w: World, limit: int) {
    limit >= 38 && (forall k: nat | k < 38 :: RetryableAt(w, k)) && forall k: nat | 1 <= k < 38 :: !w.ended(k)
  }

  /**
   `sends` counts the calls of doPush. Every send but the last failed in a
   retryable way; Success is returned exactly when the last send was delivered.
   */
  method DoPushWithRetry(retry: int, w: World) returns (result: PushResult, sends: nat, waits: seq<int>)
    ensures var limit := if retry < 0 then 0 else retry;
            && 1 <= sends <= limit + 1
            && (forall k: nat | k < sends - 1 :: RetryableAt(w, k))
            && (result == Success <==> w.reply(sends - 1).Delivered?)
            && (result.Exhausted? ==> w.reply(sends - 1) == Rejected(result.last)
                                      && (IsRetryable(result.last) ==> sends == limit + 1))
            && (result.ContextDone? ==> sends <= limit && RetryableAt(w, sends - 1) && w.ended(sends))
            && (result.Panicked? <==> PanicsAt38(w, limit))
    ensures forall k: nat | 1 <= k < sends :: !w.ended(k)
    ensures result.Panicked? || result.ContextDone? || |waits| == sends - 1
    ensures forall k | 0 <= k < |waits| :: BackoffInRange(k + 1, waits[k])
  {
    var limit := if retry < 0 then 0 else retry;
    sends, waits := 0, [];
    var attempt := 0;
    var lastError := ContextEnded;
    while attempt <= limit
      invariant 0 <= attempt == sends <= limit + 1 && attempt <= 38
      invariant forall k: nat | 1 <= k < attempt :: !w.ended(k)
      invariant |waits| == if attempt == 0 then 0 else attempt - 1
      invariant forall k: nat | k < sends :: RetryableAt(w, k)
      invariant sends > 0 ==> w.reply(sends - 1) == Rejected(lastError)
      invariant forall k | 0 <= k < |waits| :: BackoffInRange(k + 1, waits[k])
    {
      if attempt > 0 {
        FirstPanicAt38(attempt);
        if BackoffPanics(attempt) {
          return Panicked, sends, waits;
        }
        var delay := CalculateBackoff(attempt, Below(w.draw(attempt), BackoffBase(attempt) / 2));
        waits := waits + [delay];
        if w.ended(attempt) {
          return ContextDone, sends, waits;
        }
      }
      var sent := w.reply(attempt);
      sends := sends + 1;
      if sent.Delivered? {
        assert attempt < 38 && !RetryableAt(w, attempt);
        return Success, sends, waits;
      }
      lastError := sent.error;
      if !IsRetryable(lastError) {
        assert attempt < 38 && !RetryableAt(w, attempt);
        break;
      }
      attempt := attempt + 1;
    }
    result := Exhausted(lastError);
  }

  // ---------------------------------------------------------------------
  // The reconnect delay
  // ---------------------------------------------------------------------

  const RECONNECT_BASE := 500 * MILLISECOND
  const RECONNECT_MAX := 60_000 * MILLISECOND

  function ReconnectBase(attempt: nat): int {
    Capped(ScaledDelay(RECONNECT_BASE, attempt), RECONNECT_MAX)
  }

  /** `draw` is what rand.Int63n(delay / 2) returned; it panics unless the bound is positive. */
  method ReconnectDelay(attempt: nat, draw: int) returns (delay: int)
    requires ReconnectBase(attempt) >= 2 && 0 <= draw < ReconnectBase(attempt) / 2
    ensures attempt <= 34 ==>
      var d := Min(500_000_000 * Pow2(attempt), 60_000_000_000); d / 2 <= delay < d
  {
    if attempt <= 34 {
      ReconnectIsExact(attempt);
    }
    delay := Wrap64(RECONNECT_BASE * Wrap64(Pow2(attempt)));
    if delay > RECONNECT_MAX {
      delay := RECONNECT_MAX;
    }
    delay := delay / 2 + draw;
  }

  lemma ReconnectIsExact(attempt: nat)
    requires attempt <= 34
    ensures ReconnectBase(attempt) == Min(500_000_000 * Pow2(attempt), 60_000_000_000)
    ensures RECONNECT_BASE <= ReconnectBase(attempt)
  {
    Pow2Values();
    ScaledBelow(RECONNECT_BASE, attempt, 34);
    ScaledDelayExact(RECONNECT_BASE, attempt, RECONNECT_MAX);
    Pow2Monotone(0, attempt);
    MulMonotone(RECONNECT_BASE, 1, Pow2(attempt));
  }

  /** The reconnect loop can panic exactly when allowed 36 attempts or more: attempt 35 is the first to wrap. */
  lemma ReconnectPanicNeeds36Attempts(maxAttempts: int)
    ensures (exists attempt: nat :: attempt < maxAttempts && ReconnectBase(attempt) < 2) <==> maxAttempts >= 36
  {
    Pow2Values();
    assert ReconnectBase(35) < 2;
    forall attempt: nat | attempt <= 34 ensures ReconnectBase(attempt) >= 2 {
      ReconnectIsExact(attempt);
    }
  }
}
