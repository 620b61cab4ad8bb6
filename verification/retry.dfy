/** Bounded retry with capped geometric backoff (backend/internal/pkg/retry/retry.go). */
module Retry {
  import opened Basics

  /** What one call of the retried function reports. */
  datatype Reply = Done | Transient | Permanent

  /** How the loop as a whole ends. */
  datatype Verdict = Success | PermanentError | Exhausted | Cancelled

  /** Delays in milliseconds; a field that is not positive asks for the default. */
  datatype Options = Options(maxAttempts: int, baseDelay: real, maxDelay: real, factor: real, jitter: real)

  /** The environment of one loop, by attempt number: replies, cancellation, and random draws. */
  datatype World = World(reply: nat -> Reply, cancelled: nat -> bool, draw: nat -> real)

  /** Random draws lie in [0, 1). */
  ghost predicate Fair(w: World) {
    forall k: nat :: 0.0 <= w.draw(k) < 1.0
  }

  predicate Ready(o: Options) {
    o.maxAttempts >= 1 && o.baseDelay > 0.0 && o.maxDelay > 0.0 && o.factor > 1.0
  }

  function Normalized(o: Options): (n: Options)
    ensures Ready(n) && n.jitter == o.jitter
    ensures o.maxAttempts >= 1 ==> n.maxAttempts == o.maxAttempts
    ensures o.baseDelay > 0.0 ==> n.baseDelay == o.baseDelay
    ensures o.maxDelay > 0.0 ==> n.maxDelay == o.maxDelay
    ensures o.factor > 1.0 ==> n.factor == o.factor
  {
    Options(
      if o.maxAttempts <= 0 then 3 else o.maxAttempts,
      if o.baseDelay <= 0.0 then 100.0 else o.baseDelay,
      if o.maxDelay <= 0.0 then 2000.0 else o.maxDelay,
      if o.factor <= 1.0 then 2.0 else o.factor,
      o.jitter)
  }

  function Scaled(delay: real, factor: real): real {
    delay * factor
  }

  function Times(a: real, b: real): real {
    a * b
  }

  /** The factor a random draw in [0, 1) gives: between 1 - jitter and 1 + jitter. */
  function Spread(jitter: real, draw: real): real {
    1.0 + Times(draw * 2.0 - 1.0, jitter)
  }

  function BackoffDelay(prev: real, o: Options, draw: real): real {
    var next := if Scaled(prev, o.factor) > o.maxDelay then o.maxDelay else Scaled(prev, o.factor);
    if o.jitter > 0.0 then Times(next, Spread(o.jitter, draw)) else next
  }

  /** The delay in force after k backoffs. */
  function Delay(o: Options, w: World, k: nat): real {
    if k == 0 then o.baseDelay else BackoffDelay(Delay(o, w, k - 1), o, w.draw(k))
  }

  /** Attempt k is the last one. */
  predicate Ends(o: Options, w: World, k: nat) {
    w.reply(k) != Transient || k == o.maxAttempts || w.cancelled(k)
  }

  function VerdictAt(o: Options, w: World, k: nat): Verdict {
    if w.reply(k) == Done then Success
    else if w.reply(k) == Permanent then PermanentError
    else if k == o.maxAttempts then Exhausted
    else Cancelled
  }

  /** The verdict of a loop about to make attempt k. */
  function Outcome(o: Options, w: World, k: nat): Verdict
    requires k <= o.maxAttempts
    decreases o.maxAttempts - k
  {
    if Ends(o, w, k) then VerdictAt(o, w, k) else Outcome(o, w, k + 1)
  }

  /** The loop succeeds exactly when some attempt succeeds and every earlier one may be retried. */
  lemma {:induction false} SucceedsWhen(o: Options, w: World, k: nat)
    requires k <= o.maxAttempts
    ensures Outcome(o, w, k) == Success <==>
      exists n: nat ::
        && k <= n <= o.maxAttempts && w.reply(n) == Done
        && forall m: nat :: k <= m < n ==> w.reply(m) == Transient && !w.cancelled(m)
    decreases o.maxAttempts - k
  {
    if !Ends(o, w, k) {
      SucceedsWhen(o, w, k + 1);
      assert w.reply(k) != Done;
    }
  }

  /**
   * The retry loop ends with the first attempt that succeeds, fails for good, is the last one, or
   * is cancelled while waiting, in this order of precedence; the k-th wait lasts Delay(k). A
   * cancelled wait counts with its full length.
   */
  method Do(opts: Options, w: World) returns (verdict: Verdict, calls: nat, waits: seq<real>)
    ensures var o := Normalized(opts);
      && 1 <= calls <= o.maxAttempts && verdict == Outcome(o, w, 1)
      && (forall k :: 1 <= k < calls ==> w.reply(k) == Transient && !w.cancelled(k))
      && (verdict == Success <==> w.reply(calls) == Done)
      && (verdict == PermanentError <==> w.reply(calls) == Permanent)
      && (verdict == Exhausted <==> w.reply(calls) == Transient && calls == o.maxAttempts)
      && (verdict == Cancelled ==> w.cancelled(calls))
      && |waits| == (if verdict == Cancelled then calls else calls - 1)
      && (forall k :: 0 <= k < |waits| ==> waits[k] == Delay(o, w, k + 1))
  {
    hide BackoffDelay;
    var o := opts;
    if o.maxAttempts <= 0 { o := o.(maxAttempts := 3); }
    if o.baseDelay <= 0.0 { o := o.(baseDelay := 100.0); }
    if o.maxDelay <= 0.0 { o := o.(maxDelay := 2000.0); }
    if o.factor <= 1.0 { o := o.(factor := 2.0); }
    var delay := o.baseDelay;
    waits := [];
    calls := 1;
    while true
      invariant o == Normalized(opts)
      invariant 1 <= calls <= o.maxAttempts
      invariant forall k :: 1 <= k < calls ==> w.reply(k) == Transient && !w.cancelled(k)
      invariant Outcome(o, w, 1) == Outcome(o, w, calls)
      invariant |waits| == calls - 1
      invariant forall k :: 0 <= k < |waits| ==> waits[k] == Delay(o, w, k + 1)
      invariant delay == Delay(o, w, calls - 1)
      decreases o.maxAttempts - calls
    {
      var err := w.reply(calls);
      if err == Done { return Success, calls, waits; }
      if err == Permanent { return PermanentError, calls, waits; }
      if calls == o.maxAttempts { return Exhausted, calls, waits; }
      delay := BackoffDelay(delay, o, w.draw(calls));
      waits := waits + [delay];
      if w.cancelled(calls) { return Cancelled, calls, waits; }
      calls := calls + 1;
    }
  }

  // ---- The lengths of the waits -------------------------------------------

  /** The base delay scaled k times. */
  function Geometric(base: real, factor: real, k: nat): real {
    if k == 0 then base else Scaled(Geometric(base, factor, k - 1), factor)
  }

  function Least(a: real, b: real): real {
    if a < b then a else b
  }

  lemma Scale(a: real, b: real, f: real)
    requires a <= b && f >= 0.0
    ensures a * f <= b * f
  {
  }

  lemma Grows(b: real, f: real)
    requires b > 0.0 && f > 1.0
    ensures Scaled(b, f) > b
  {
    assert b * (f - 1.0) > 0.0;
  }

  lemma CapStep(prev: real, p: real, o: Options, draw: real)
    requires Ready(o) && o.jitter <= 0.0 && (prev == p || prev == Least(p, o.maxDelay))
    ensures BackoffDelay(prev, o, draw) == Least(Scaled(p, o.factor), o.maxDelay)
  {
    Grows(o.maxDelay, o.factor);
    if prev != p {
      Scale(o.maxDelay, p, o.factor);
    }
  }

  /** The longest a single wait can be. */
  function Ceiling(o: Options): real {
    if o.jitter > 0.0 then Times(o.maxDelay, 1.0 + o.jitter) else o.maxDelay
  }

  /** Without jitter the k-th wait is the geometric delay, capped. */
  lemma {:induction false} WaitsAreGeometric(o: Options, w: World, k: nat)
    requires Ready(o) && o.jitter <= 0.0 && k >= 1
    ensures Delay(o, w, k) == Least(Geometric(o.baseDelay, o.factor, k), o.maxDelay)
  {
    hide BackoffDelay, Least, Scaled;
    if k > 1 {
      WaitsAreGeometric(o, w, k - 1);
    }
    var prev, p := Delay(o, w, k - 1), Geometric(o.baseDelay, o.factor, k - 1);
    assert prev == p || prev == Least(p, o.maxDelay);
    CapStep(prev, p, o, w.draw(k));
    assert Delay(o, w, k) == BackoffDelay(prev, o, w.draw(k));
    assert Geometric(o.baseDelay, o.factor, k) == Scaled(p, o.factor);
  }

  /**
   * The options call BaseDelay the first backoff, but the loop scales it before the first wait:
   * without jitter the first wait is BaseDelay exactly when the ceiling equals it.
   */
  lemma FirstWaitIsBase(o: Options, w: World)
    requires Ready(o) && o.jitter <= 0.0
    ensures Delay(o, w, 1) == o.baseDelay <==> o.maxDelay == o.baseDelay
  {
    hide Least, Scaled;
    var first := Scaled(o.baseDelay, o.factor);
    Grows(o.baseDelay, o.factor);
    assert Geometric(o.baseDelay, o.factor, 0) == o.baseDelay;
    assert Geometric(o.baseDelay, o.factor, 1) == first;
    WaitsAreGeometric(o, w, 1);
    CappedAtBase(o.baseDelay, first, o.maxDelay);
  }

  lemma CappedAtBase(base: real, first: real, cap: real)
    requires base < first
    ensures Least(first, cap) == base <==> cap == base
  {
  }

  lemma JitterFactor(j: real, d: real)
    requires 0.0 < j <= 1.0 && 0.0 <= d < 1.0
    ensures 0.0 <= Spread(j, d) <= 1.0 + j
  {
    Scale(d * 2.0 - 1.0, 1.0, j);
    Scale(-1.0, d * 2.0 - 1.0, j);
  }

  /** The jitter's factor grows evenly with the draw, from 1 - jitter up to 1 + jitter. */
  lemma SpreadIsEven(j: real, d: real)
    requires 0.0 < j <= 1.0 && 0.0 <= d < 1.0
    ensures 1.0 - j <= Spread(j, d) < 1.0 + j
    ensures Spread(j, d) - (1.0 - j) == d * (2.0 * j)
  {
    assert (d * 2.0 - 1.0) * j == d * (2.0 * j) - j;
    Scale(0.0, d, 2.0 * j);
    assert (1.0 - d) * (2.0 * j) > 0.0;
  }

  lemma Jittered(next: real, cap: real, j: real, top: real)
    requires 0.0 <= next <= cap && 0.0 <= j <= top
    ensures 0.0 <= Times(next, j) <= Times(cap, top)
  {
    Scale(0.0, next, j);
    Scale(next, cap, j);
    Scale(j, top, cap);
  }

  lemma ScaledBounded(prev: real, o: Options)
    requires Ready(o) && prev >= 0.0
    ensures 0.0 <= Least(Scaled(prev, o.factor), o.maxDelay) <= o.maxDelay
  {
    NonNegative(prev, o.factor);
  }

  /** One backoff is the capped, scaled delay times the jitter's factor. */
  lemma BackoffParts(prev: real, o: Options, draw: real)
    ensures BackoffDelay(prev, o, draw) == if o.jitter > 0.0
      then Times(Least(Scaled(prev, o.factor), o.maxDelay), Spread(o.jitter, draw))
      else Least(Scaled(prev, o.factor), o.maxDelay)
  {
    hide Scaled;
  }

  lemma StepBounded(o: Options, prev: real, draw: real)
    requires Ready(o) && o.jitter <= 1.0 && prev >= 0.0 && 0.0 <= draw < 1.0
    ensures 0.0 <= BackoffDelay(prev, o, draw) <= Ceiling(o)
  {
    hide BackoffDelay, Scaled, Least, Times, Spread;
    BackoffParts(prev, o, draw);
    ScaledBounded(prev, o);
    if o.jitter > 0.0 {
      JitterFactor(o.jitter, draw);
      Jittered(Least(Scaled(prev, o.factor), o.maxDelay), o.maxDelay, Spread(o.jitter, draw), 1.0 + o.jitter);
    }
  }

  lemma {:induction false} WaitBounded(o: Options, w: World, k: nat)
    requires Ready(o) && Fair(w) && o.jitter <= 1.0
    ensures Delay(o, w, k) >= 0.0
    ensures k >= 1 ==> Delay(o, w, k) <= Ceiling(o)
  {
    if k > 0 {
      hide BackoffDelay;
      WaitBounded(o, w, k - 1);
      StepBounded(o, Delay(o, w, k - 1), w.draw(k));
    }
  }

  function Sum(s: seq<real>): real {
    if s == [] then 0.0 else Sum(s[..|s| - 1]) + s[|s| - 1]
  }

  lemma {:induction false} SumBounded(s: seq<real>, bound: real)
    requires forall k :: 0 <= k < |s| ==> s[k] <= bound
    ensures Sum(s) <= |s| as real * bound
  {
    if s != [] {
      SumBounded(s[..|s| - 1], bound);
      assert |s| as real * bound == (|s| - 1) as real * bound + bound;
    }
  }

  /** The waits of any run of the loop fit in (MaxAttempts - 1) * MaxDelay * (1 + Jitter). */
  lemma TotalWaitBounded(o: Options, w: World, waits: seq<real>)
    requires Ready(o) && Fair(w) && 0.0 <= o.jitter <= 1.0
    requires |waits| < o.maxAttempts
    requires forall k :: 0 <= k < |waits| ==> waits[k] == Delay(o, w, k + 1)
    ensures Sum(waits) <= (o.maxAttempts - 1) as real * (o.maxDelay * (1.0 + o.jitter))
  {
    hide Delay, Ceiling;
    CeilingIs(o);
    var bound := Ceiling(o);
    forall k | 0 <= k < |waits| ensures waits[k] <= bound {
      WaitBounded(o, w, k + 1);
    }
    SumBounded(waits, bound);
    Budget(Sum(waits), |waits|, o.maxAttempts - 1, bound);
  }

  lemma CeilingIs(o: Options)
    requires Ready(o) && o.jitter >= 0.0
    ensures Ceiling(o) == o.maxDelay * (1.0 + o.jitter) && Ceiling(o) >= 0.0
  {
    NonNegative(o.maxDelay, 1.0 + o.jitter);
    if o.jitter == 0.0 { assert 1.0 + o.jitter == 1.0; }
  }

  lemma NonNegative(a: real, b: real)
    requires a >= 0.0 && b >= 0.0
    ensures a * b >= 0.0
  {
  }

  lemma Budget(total: real, n: int, m: int, bound: real)
    requires total <= n as real * bound && n <= m && bound >= 0.0
    ensures total <= m as real * bound
  {
    Scale(n as real, m as real, bound);
  }

  /** A loop that asks for every default makes three attempts, and waits 200 ms and then 400 ms. */
  lemma DefaultWaits(w: World)
    ensures var o := Normalized(Options(0, 0.0, 0.0, 0.0, 0.0));
      && o.maxAttempts == 3 && Delay(o, w, 1) == 200.0 && Delay(o, w, 2) == 400.0
  {
    var o := Normalized(Options(0, 0.0, 0.0, 0.0, 0.0));
    assert Delay(o, w, 0) == 100.0;
    assert Delay(o, w, 1) == 200.0;
  }
}
