// What happens to a job after a run: backoff, repeat and retention decisions
// (src/job/backoff.rs, src/job/repeat.rs, `process_job` in src/utils/mod.rs).
// The clock and the cron evaluator are inputs, gathered in `Env`.
module Policy {
  import opened Collections
  import opened Words

  datatype JobState =
    | Wait | Prioritized | Stalled | Active | Paused | Resumed | Completed | Failed | Delayed
    | Progress | Obliterated | Processing

  datatype BackOffOptions = BackOffOptions(kind: Option<string>, delay: Option<int>)

  datatype BackOffJobOptions = Number(ms: int) | Opts(opts: BackOffOptions)

  datatype Repeat =
    | WithCron
    | WithBackOff(backoff: BackOffJobOptions)
    | Every(delayMs: int, maxAttempts: Option<nat>)
    | Immediately(limit: nat)

  datatype Retention = Bool(remove: bool) | Int(max: int) | KeepJobs(age: Option<int>, count: Option<int>)

  datatype JobOptions = JobOptions(
    priority: nat,
    delayMs: int,
    attempts: nat,
    removeOnComplete: Option<Retention>,
    removeOnFail: Option<Retention>,
    backoff: Option<BackOffJobOptions>,
    repeat: Option<Repeat>)

  datatype Env = Env(nowMs: int, cronNext: Option<int>)

  /** A registered strategy: base delay and attempt count to delay. */
  type Strategies = map<string, (int, int) -> int>

  /** `i64` arithmetic of a build without overflow checks. */
  function Wrap64(x: int): int {
    (x + TWO63) % TWO64 - TWO63
  }

  function Pow2(n: nat): (r: nat)
    ensures r >= 1
  {
    if n == 0 then 1 else 2 * Pow2(n - 1)
  }

  function Exponential(base: int, attempts: int): int {
    var e := if 0 <= attempts <= 0xFFFF_FFFF then attempts else 0xFFFF_FFFF;
    Wrap64(Wrap64(Pow2(e)) * base)
  }

  function Fixed(base: int, attempts: int): int {
    base
  }

  const BUILTIN: Strategies := map["exponential" := Exponential, "fixed" := Fixed]

  function Normalize(backoff: BackOffJobOptions): Option<BackOffOptions> {
    match backoff
    case Number(ms) => if ms == 0 then None else Some(BackOffOptions(Some("fixed"), Some(ms)))
    case Opts(opts) => Some(opts)
  }

  /** The delay before the next run, or `None` when no registered strategy applies. */
  function NextDelayMs(strategies: Strategies, backoff: BackOffJobOptions, attempts: int): Option<int> {
    match Normalize(backoff)
    case None => None
    case Some(opts) =>
      if opts.kind.Some? && opts.kind.value in strategies && opts.delay.Some?
      then Some(strategies[opts.kind.value](opts.delay.value, attempts))
      else None
  }

  /** When a repeating job runs next (0: at once), or `None` when the policy is exhausted. */
  function NextOccurrence(repeat: Repeat, strategies: Strategies, attempts: nat, env: Env): Option<int> {
    match repeat
    case WithCron => env.cronNext
    case WithBackOff(b) =>
      var d := NextDelayMs(strategies, b, attempts);
      if d.Some? then Some(env.nowMs + d.value) else None
    case Every(delayMs, max) =>
      if max.Some? && attempts >= max.value then None else Some(env.nowMs + delayMs)
    case Immediately(limit) =>
      if attempts >= limit then None else Some(0)
  }

  datatype Next = Stay | ToWait | ToDelayed(score: int) | CleanUp(policy: Option<Retention>)

  predicate Requeues(n: Next) {
    n.ToWait? || n.ToDelayed?
  }

  /** After a successful run that brought `attempts_made` to `made`. */
  function AfterSuccess(strategies: Strategies, opts: JobOptions, made: nat, env: Env): Next
    requires made > 0
  {
    if made >= opts.attempts then CleanUp(opts.removeOnComplete)
    else if opts.repeat.None? then Stay
    else
      match NextOccurrence(opts.repeat.value, strategies, made - 1, env)
      case None => Stay
      case Some(at) => if at == 0 then ToWait else ToDelayed(at)
  }

  /** After a failed run that brought `attempts_made` to `made`. */
  function AfterFailure(strategies: Strategies, opts: JobOptions, made: nat, env: Env): Next
    requires made > 0
  {
    if made < opts.attempts && opts.backoff.Some? then
      match NextDelayMs(strategies, opts.backoff.value, made - 1)
      case None => Stay
      case Some(d) => ToDelayed(env.nowMs + d)
    else if made == opts.attempts then CleanUp(opts.removeOnFail)
    else Stay
  }

  /** Does the retention policy delete the record of job `id`? (Ages have no effect on constant entries.) */
  predicate Removes(policy: Option<Retention>, id: nat) {
    match policy
    case None => false
    case Some(Bool(remove)) => remove
    case Some(Int(max)) => 0 < max < id
    case Some(KeepJobs(_, count)) => count.Some? && 0 < count.value < id
  }

  /** The jobs among the first `n` whose records survive their clean-up. */
  ghost function Surviving(policy: Option<Retention>, n: nat): set<nat> {
    set id | id in Ids(n) && !Removes(policy, id)
  }

  predicate KeepsAtMost(policy: Option<Retention>, max: nat) {
    policy == Some(Int(max)) || (policy.Some? && policy.value.KeepJobs? && policy.value.count == Some(max))
  }

  /**
    * A count limit is respected, but the records that survive are those of the
    * oldest jobs, and a limit of zero keeps every record.
    */
  lemma OldestAreKept(policy: Option<Retention>, max: nat, n: nat)
    requires KeepsAtMost(policy, max)
    ensures Surviving(policy, n) == Ids(if max == 0 then n else Min(n, max))
    ensures max > 0 ==> |Surviving(policy, n)| <= max
  {
    forall id: nat ensures id in Surviving(policy, n) <==> id in Ids(if max == 0 then n else Min(n, max)) {
    }
  }

  function Max(a: nat, b: nat): nat {
    if a < b then b else a
  }

  function Min(a: nat, b: nat): nat {
    if a < b then a else b
  }

  /** How many times the processor of a job may run. */
  function Cap(opts: JobOptions): nat {
    Max(1, opts.attempts)
  }

  /** Re-enqueueing and cleanup exclude each other, and only an unspent job is re-enqueued. */
  lemma RequeueNeedsAttempts(strategies: Strategies, opts: JobOptions, made: nat, env: Env)
    requires made > 0
    ensures Requeues(AfterSuccess(strategies, opts, made, env)) ==> made < Cap(opts)
    ensures Requeues(AfterFailure(strategies, opts, made, env)) ==> made < Cap(opts)
    ensures AfterSuccess(strategies, opts, made, env).CleanUp? <==> made >= opts.attempts
    ensures AfterFailure(strategies, opts, made, env).CleanUp? <==> made == opts.attempts
  {
  }

  /**
    * Number of processor runs of a job that always succeeds, from `made`
    * earlier attempts on; `clock(n)` is what the n-th finish observes.
    */
  function SuccessRuns(strategies: Strategies, opts: JobOptions, clock: nat -> Env, made: nat): nat
    decreases opts.attempts - made
  {
    if Requeues(AfterSuccess(strategies, opts, made + 1, clock(made + 1)))
    then 1 + SuccessRuns(strategies, opts, clock, made + 1)
    else 1
  }

  /** The repeat policy stops a job after `m` repeats: `Every` with that limit, or `Immediately`. */
  predicate StopsAfter(repeat: Option<Repeat>, m: nat) {
    repeat.Some? &&
    match repeat.value
    case Every(_, max) => max == Some(m)
    case Immediately(limit) => limit == m
    case _ => false
  }

  lemma {:induction false} SuccessRunsFrom(
    strategies: Strategies, opts: JobOptions, clock: nat -> Env, m: nat, made: nat)
    requires StopsAfter(opts.repeat, m) && made < Min(Cap(opts), m + 1)
    ensures SuccessRuns(strategies, opts, clock, made) == Min(Cap(opts), m + 1) - made
    decreases opts.attempts - made
  {
    if made + 1 >= opts.attempts || made >= m {
    } else {
      SuccessRunsFrom(strategies, opts, clock, m, made + 1);
    }
  }

  /** A repeated job that always succeeds runs exactly min(max(1, attempts), m + 1) times. */
  lemma ExactRepeatCount(strategies: Strategies, opts: JobOptions, clock: nat -> Env, m: nat)
    requires StopsAfter(opts.repeat, m)
    ensures SuccessRuns(strategies, opts, clock, 0) == Min(Max(1, opts.attempts), m + 1)
  {
    SuccessRunsFrom(strategies, opts, clock, m, 0);
  }

  /** The delays a job that always fails is put through, from `made` earlier attempts on. */
  function FailDelays(strategies: Strategies, opts: JobOptions, clock: nat -> Env, made: nat): seq<int>
    decreases opts.attempts - made
  {
    match AfterFailure(strategies, opts, made + 1, clock(made + 1))
    case ToDelayed(score) =>
      [score - clock(made + 1).nowMs] + FailDelays(strategies, opts, clock, made + 1)
    case _ => []
  }

  function Sum(s: seq<int>): int {
    if s == [] then 0 else s[0] + Sum(s[1..])
  }

  predicate ExponentialFrom(opts: JobOptions, d: int) {
    opts.backoff == Some(Opts(BackOffOptions(Some("exponential"), Some(d))))
  }

  lemma {:induction false} Pow2Monotone(a: nat, b: nat)
    requires a <= b
    ensures Pow2(a) <= Pow2(b)
    decreases b
  {
    if a == b {
    } else {
      Pow2Monotone(a, b - 1);
    }
  }

  lemma Wrap64Bounds(x: int)
    ensures -TWO63 <= Wrap64(x) < TWO63
    ensures -TWO63 <= x < TWO63 ==> Wrap64(x) == x
  {
  }

  predicate Fits64(x: int) {
    -TWO63 <= x < TWO63
  }

  /** Wrapping commutes with multiplication, up to a multiple of 2^64. */
  lemma WrapProduct(e: int, d: int)
    ensures Wrap64(Wrap64(e) * d) == e * d <==> Fits64(e * d)
  {
    var q := (e + TWO63) / TWO64;
    assert Wrap64(e) == e - q * TWO64;
    assert (e - q * TWO64) * d == e * d - TWO64 * (q * d);
    WrapShift(e * d, q * d);
  }

  lemma WrapShift(x: int, k: int)
    ensures Wrap64(x - TWO64 * k) == x <==> Fits64(x)
  {
    ModShift(x + TWO63, k);
    assert x - TWO64 * k + TWO63 == (x + TWO63) - TWO64 * k;
  }

  lemma ModShift(x: int, k: int)
    ensures (x - TWO64 * k) % TWO64 == x % TWO64
  {
    var q, r := x / TWO64, x % TWO64;
    assert x - TWO64 * k == TWO64 * (q - k) + r;
    ModOf(q - k, r);
  }

  lemma ModOf(q: int, r: int)
    requires 0 <= r < TWO64
    ensures (TWO64 * q + r) % TWO64 == r
  {
  }

  lemma LargePower(n: nat)
    requires n >= 64
    ensures Pow2(n) >= TWO64
  {
    Pow2At62();
    Pow2Monotone(64, n);
    assert Pow2(64) == 4 * Pow2(62);
  }

  /** For every base delay, of either sign, the computed delay is the exact one precisely while that fits an `i64`. */
  lemma ExponentialExactIff(d: int, n: nat)
    ensures Exponential(d, n) == Pow2(n) * d <==> Fits64(Pow2(n) * d)
  {
    if n <= 0xFFFF_FFFF {
      WrapProduct(Pow2(n), d);
    } else {
      LargePower(n);
      BeyondRange(Pow2(n), d);
      Wrap64Bounds(Wrap64(Pow2(0xFFFF_FFFF)) * d);
      if d == 0 {
        assert Wrap64(Pow2(0xFFFF_FFFF)) * d == 0;
      }
    }
  }

  lemma BeyondRange(e: nat, d: int)
    requires e >= TWO64
    ensures d != 0 ==> !Fits64(e * d)
    ensures d == 0 ==> e * d == 0
  {
    if d > 0 {
      assert e * d >= e;
    } else if d < 0 {
      assert e * d <= 0 - e;
    }
  }

  lemma Pow2At62()
    ensures Pow2(62) == 0x4000_0000_0000_0000
  {
    assert Pow2(16) == 65536;
    Pow2Sum(16, 16);
    Pow2Sum(32, 16);
    Pow2Sum(48, 14);
    assert Pow2(14) == 16384;
  }

  lemma {:induction false} Pow2Sum(a: nat, b: nat)
    ensures Pow2(a + b) == Pow2(a) * Pow2(b)
  {
    if b == 0 {
    } else {
      Pow2Sum(a, b - 1);
      assert Pow2(a + b) == 2 * Pow2(a + (b - 1));
    }
  }

  /** `ds` lists 2^low * d, ..., 2^(high - 1) * d. */
  ghost predicate Doubles(ds: seq<int>, d: int, low: nat, high: nat)
    requires low <= high
  {
    && |ds| == high - low
    && (forall i :: 0 <= i < |ds| ==> ds[i] == Pow2(low + i) * d)
    && Sum(ds) == (Pow2(high) - Pow2(low)) * d
  }

  lemma {:induction false} FailDelaysFrom(opts: JobOptions, d: int, clock: nat -> Env, made: nat)
    requires ExponentialFrom(opts, d) && made < opts.attempts
    requires opts.attempts >= 2 ==> Fits64(Pow2(opts.attempts - 2) * d)
    ensures Doubles(FailDelays(BUILTIN, opts, clock, made), d, made, opts.attempts - 1)
    decreases opts.attempts - made
  {
    hide FailDelays, Exponential, Doubles;
    if made + 1 < opts.attempts {
      Pow2Monotone(made, opts.attempts - 2);
      FitsBelow(Pow2(made), Pow2(opts.attempts - 2), d);
      ExponentialExactIff(d, made);
      FailDelaysFrom(opts, d, clock, made + 1);
      FirstDelay(opts, d, clock, made);
      PrependDelay(FailDelays(BUILTIN, opts, clock, made + 1), d, made, opts.attempts - 1);
    } else {
      NoMoreDelays(opts, clock, made);
      NoDoubles(d, made);
    }
  }

  lemma FitsBelow(a: nat, b: nat, d: int)
    requires a <= b && Fits64(b * d)
    ensures Fits64(a * d)
  {
    if d >= 0 {
      assert 0 <= a * d <= b * d;
    } else {
      assert 0 >= a * d >= b * d;
    }
  }

  lemma NoDoubles(d: int, n: nat)
    ensures Doubles([], d, n, n)
  {
  }

  lemma FirstDelay(opts: JobOptions, d: int, clock: nat -> Env, made: nat)
    requires ExponentialFrom(opts, d) && made + 1 < opts.attempts
    ensures FailDelays(BUILTIN, opts, clock, made)
         == [Exponential(d, made)] + FailDelays(BUILTIN, opts, clock, made + 1)
  {
  }

  lemma PrependDelay(rest: seq<int>, d: int, low: nat, high: nat)
    requires low < high && Doubles(rest, d, low + 1, high)
    ensures Doubles([Pow2(low) * d] + rest, d, low, high)
  {
    var ds := [Pow2(low) * d] + rest;
    assert ds[1..] == rest;
    forall i | 0 <= i < |ds| ensures ds[i] == Pow2(low + i) * d {
      if i > 0 {
        assert ds[i] == rest[i - 1] == Pow2(low + 1 + (i - 1)) * d;
      }
    }
    Telescope(Pow2(high), Pow2(low), d);
  }

  lemma Telescope(top: nat, low: nat, d: int)
    ensures low * d + (top - 2 * low) * d == (top - low) * d
  {
  }

  lemma NoMoreDelays(opts: JobOptions, clock: nat -> Env, made: nat)
    requires made + 1 >= opts.attempts
    ensures FailDelays(BUILTIN, opts, clock, made) == []
  {
  }

  /** The last delay is the computed one, whether or not it fits. */
  lemma {:induction false} LastDelay(opts: JobOptions, d: int, clock: nat -> Env, made: nat)
    requires ExponentialFrom(opts, d) && made + 1 < opts.attempts
    ensures var ds := FailDelays(BUILTIN, opts, clock, made);
            |ds| == opts.attempts - 1 - made && ds[|ds| - 1] == Exponential(d, opts.attempts - 2)
    decreases opts.attempts - made
  {
    hide FailDelays, Exponential;
    FirstDelay(opts, d, clock, made);
    if made + 2 < opts.attempts {
      LastDelay(opts, d, clock, made + 1);
    } else {
      NoMoreDelays(opts, clock, made + 1);
    }
  }

  /**
    * A job that always fails with exponential backoff waits d, 2d, 4d, ... if and
    * only if the last of these delays fits an `i64`, and then waits
    * (2^(attempts - 1) - 1) * d in total. The base delay may be negative.
    */
  lemma TotalBackoffIff(opts: JobOptions, d: int, clock: nat -> Env)
    requires ExponentialFrom(opts, d)
    ensures var ds := FailDelays(BUILTIN, opts, clock, 0);
            var fits := opts.attempts >= 2 ==> Fits64(Pow2(opts.attempts - 2) * d);
            && |ds| == Cap(opts) - 1
            && ((forall i :: 0 <= i < |ds| ==> ds[i] == Pow2(i) * d) <==> fits)
            && (fits ==> Sum(ds) == (Pow2(Cap(opts) - 1) - 1) * d)
  {
    hide FailDelays, Exponential;
    if opts.attempts == 0 {
      NoMoreDelays(opts, clock, 0);
    } else if opts.attempts >= 2 && !Fits64(Pow2(opts.attempts - 2) * d) {
      LastDelay(opts, d, clock, 0);
      ExponentialExactIff(d, opts.attempts - 2);
    } else {
      FailDelaysFrom(opts, d, clock, 0);
    }
  }

  /** One doubling too many: the 65th run of a job would be scheduled without any delay. */
  lemma BackoffOverflows(d: int)
    ensures Exponential(d, 64) == 0
  {
    Pow2At62();
    assert Pow2(64) == 4 * Pow2(62);
  }
}
