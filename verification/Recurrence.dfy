// When a job comes back: the due times of a job that always succeeds under each
// repeat policy, and the retry delays of one that always fails with a fixed
// backoff (src/job/repeat.rs, src/job/backoff.rs).
module Recurrence {
  import opened Collections
  import opened Policy

  /** When a job that always succeeds is due again, run after run (0: at once), from `made` attempts on. */
  function SuccessDues(strategies: Strategies, opts: JobOptions, clock: nat -> Env, made: nat): seq<int>
    decreases opts.attempts - made
  {
    match AfterSuccess(strategies, opts, made + 1, clock(made + 1))
    case ToWait => [0] + SuccessDues(strategies, opts, clock, made + 1)
    case ToDelayed(at) => [at] + SuccessDues(strategies, opts, clock, made + 1)
    case _ => []
  }

  /** Every run but the last is followed by a due time. */
  lemma {:induction false} DuesPerRun(strategies: Strategies, opts: JobOptions, clock: nat -> Env, made: nat)
    ensures |SuccessDues(strategies, opts, clock, made)| + 1 == SuccessRuns(strategies, opts, clock, made)
    decreases opts.attempts - made
  {
    hide AfterSuccess;
    if !Requeues(AfterSuccess(strategies, opts, made + 1, clock(made + 1))) {
    } else {
      RequeueNeedsAttempts(strategies, opts, made + 1, clock(made + 1));
      DuesPerRun(strategies, opts, clock, made + 1);
    }
  }

  /** The due times of the runs `made + 1`, ..., `last` are the ones `due` gives them. */
  ghost predicate DueAs(dues: seq<int>, due: nat -> int, made: nat, last: nat) {
    |dues| == last - made && forall i :: 0 <= i < |dues| ==> dues[i] == due(made + 1 + i)
  }

  lemma PrependDue(rest: seq<int>, due: nat -> int, made: nat, last: nat)
    requires DueAs(rest, due, made + 1, last)
    ensures DueAs([due(made + 1)] + rest, due, made, last)
  {
    var dues := [due(made + 1)] + rest;
    forall i | 0 <= i < |dues| ensures dues[i] == due(made + 1 + i) {
      if i > 0 {
        assert dues[i] == rest[i - 1] == due(made + 2 + (i - 1));
      }
    }
  }

  /** How often a job under `Every` runs: its attempts, and no more than one run beyond its repeat limit. */
  function EveryRuns(opts: JobOptions, max: Option<nat>): nat {
    if max.Some? then Min(Cap(opts), max.value + 1) else Cap(opts)
  }

  function EveryTimes(clock: nat -> Env, d: int): nat -> int {
    (n: nat) => clock(n).nowMs + d
  }

  lemma {:induction false} EveryDuesFrom(
    strategies: Strategies, opts: JobOptions, clock: nat -> Env, d: int, max: Option<nat>, made: nat)
    requires opts.repeat == Some(Every(d, max)) && made < EveryRuns(opts, max)
    ensures DueAs(SuccessDues(strategies, opts, clock, made), EveryTimes(clock, d), made, EveryRuns(opts, max) - 1)
    decreases opts.attempts - made
  {
    if made + 1 >= EveryRuns(opts, max) {
    } else {
      EveryDuesFrom(strategies, opts, clock, d, max, made + 1);
      var rest := SuccessDues(strategies, opts, clock, made + 1);
      PrependDue(rest, EveryTimes(clock, d), made, EveryRuns(opts, max) - 1);
      assert SuccessDues(strategies, opts, clock, made) == [EveryTimes(clock, d)(made + 1)] + rest;
    }
  }

  /**
    * A job that always succeeds under `Every(d, max)` runs max(1, attempts) times,
    * or one time more than its limit if that is fewer, and after each run but the
    * last it is due exactly `d` after that run's finish.
    */
  lemma EveryIsPeriodic(strategies: Strategies, opts: JobOptions, clock: nat -> Env, d: int, max: Option<nat>)
    requires opts.repeat == Some(Every(d, max))
    ensures var runs := if max.Some? then Min(Max(1, opts.attempts), max.value + 1) else Max(1, opts.attempts);
            var dues := SuccessDues(strategies, opts, clock, 0);
            && SuccessRuns(strategies, opts, clock, 0) == runs
            && |dues| == runs - 1
            && forall i :: 0 <= i < |dues| ==> dues[i] == clock(i + 1).nowMs + d
  {
    EveryDuesFrom(strategies, opts, clock, d, max, 0);
    DuesPerRun(strategies, opts, clock, 0);
  }

  /** What the cron evaluator answers at each finish. */
  function CronTimes(clock: nat -> Env): nat -> int {
    (n: nat) => if clock(n).cronNext.Some? then clock(n).cronNext.value else 0
  }

  lemma {:induction false} CronDuesFrom(strategies: Strategies, opts: JobOptions, clock: nat -> Env, made: nat)
    requires opts.repeat == Some(WithCron) && made < Cap(opts)
    requires forall n :: clock(n).cronNext.Some?
    ensures DueAs(SuccessDues(strategies, opts, clock, made), CronTimes(clock), made, Cap(opts) - 1)
    decreases opts.attempts - made
  {
    if made + 1 >= Cap(opts) {
    } else {
      CronDuesFrom(strategies, opts, clock, made + 1);
      var rest := SuccessDues(strategies, opts, clock, made + 1);
      PrependDue(rest, CronTimes(clock), made, Cap(opts) - 1);
      assert SuccessDues(strategies, opts, clock, made) == [CronTimes(clock)(made + 1)] + rest;
    }
  }

  /** A cron job that always succeeds runs max(1, attempts) times, each time due when its expression says. */
  lemma CronFollowsSchedule(strategies: Strategies, opts: JobOptions, clock: nat -> Env)
    requires opts.repeat == Some(WithCron)
    requires forall n :: clock(n).cronNext.Some?
    ensures var dues := SuccessDues(strategies, opts, clock, 0);
            && SuccessRuns(strategies, opts, clock, 0) == Max(1, opts.attempts)
            && |dues| == Max(1, opts.attempts) - 1
            && forall i :: 0 <= i < |dues| ==> Some(dues[i]) == clock(i + 1).cronNext
  {
    CronDuesFrom(strategies, opts, clock, 0);
    DuesPerRun(strategies, opts, clock, 0);
  }

  predicate RepeatsExponentially(opts: JobOptions, d: int) {
    opts.repeat == Some(WithBackOff(Opts(BackOffOptions(Some("exponential"), Some(d)))))
  }

  /** The due times with the delays as computed, whether or not they fit. */
  function BackedOff(clock: nat -> Env, d: int): nat -> int {
    (n: nat) => clock(n).nowMs + Exponential(d, n - 1)
  }

  lemma FirstBackOffDue(opts: JobOptions, d: int, clock: nat -> Env, made: nat)
    requires RepeatsExponentially(opts, d) && made + 1 < opts.attempts
    ensures SuccessDues(BUILTIN, opts, clock, made)
         == [BackedOff(clock, d)(made + 1)] + SuccessDues(BUILTIN, opts, clock, made + 1)
  {
    hide Exponential;
  }

  lemma NoMoreDues(strategies: Strategies, opts: JobOptions, clock: nat -> Env, made: nat)
    requires made + 1 >= opts.attempts
    ensures SuccessDues(strategies, opts, clock, made) == []
  {
  }

  lemma {:induction false} BackOffDuesFrom(opts: JobOptions, d: int, clock: nat -> Env, made: nat)
    requires RepeatsExponentially(opts, d) && made < Cap(opts)
    ensures DueAs(SuccessDues(BUILTIN, opts, clock, made), BackedOff(clock, d), made, Cap(opts) - 1)
    decreases opts.attempts - made
  {
    hide SuccessDues, BackedOff;
    if made + 1 >= Cap(opts) {
      NoMoreDues(BUILTIN, opts, clock, made);
    } else {
      BackOffDuesFrom(opts, d, clock, made + 1);
      PrependDue(SuccessDues(BUILTIN, opts, clock, made + 1), BackedOff(clock, d), made, Cap(opts) - 1);
      FirstBackOffDue(opts, d, clock, made);
    }
  }

  /**
    * A job that always succeeds and repeats with exponential backoff is due d, 2d,
    * 4d, ... after its runs if and only if the last of these delays fits an `i64`.
    */
  lemma RepeatBackoffIff(opts: JobOptions, d: int, clock: nat -> Env)
    requires RepeatsExponentially(opts, d)
    ensures var dues := SuccessDues(BUILTIN, opts, clock, 0);
            var fits := opts.attempts >= 2 ==> Fits64(Pow2(opts.attempts - 2) * d);
            && |dues| == Max(1, opts.attempts) - 1
            && ((forall i :: 0 <= i < |dues| ==> dues[i] == clock(i + 1).nowMs + Pow2(i) * d) <==> fits)
  {
    hide Exponential, SuccessDues, FailDelays;
    BackOffDuesFrom(opts, d, clock, 0);
    var dues := SuccessDues(BUILTIN, opts, clock, 0);
    if opts.attempts >= 2 {
      var last := opts.attempts - 2;
      assert dues[last] == clock(last + 1).nowMs + Exponential(d, last);
      ExponentialExactIff(d, last);
      forall i | 0 <= i < |dues| && Fits64(Pow2(last) * d) ensures dues[i] == clock(i + 1).nowMs + Pow2(i) * d {
        Pow2Monotone(i, last);
        FitsBelow(Pow2(i), Pow2(last), d);
        ExponentialExactIff(d, i);
      }
    }
  }

  /** A fixed delay of `ms`, as a number or spelled out. */
  predicate FixedFrom(opts: JobOptions, ms: int) {
    || (opts.backoff == Some(Number(ms)) && ms != 0)
    || opts.backoff == Some(Opts(BackOffOptions(Some("fixed"), Some(ms))))
  }

  /** A job that always fails with a fixed backoff waits the same delay before every one of its retries. */
  lemma {:induction false} FixedDelays(opts: JobOptions, ms: int, clock: nat -> Env, made: nat)
    requires FixedFrom(opts, ms) && made < Cap(opts)
    ensures var ds := FailDelays(BUILTIN, opts, clock, made);
            |ds| == Max(1, opts.attempts) - 1 - made && forall i :: 0 <= i < |ds| ==> ds[i] == ms
    decreases opts.attempts - made
  {
    if made + 1 >= opts.attempts {
    } else {
      FixedDelays(opts, ms, clock, made + 1);
      var rest := FailDelays(BUILTIN, opts, clock, made + 1);
      assert FailDelays(BUILTIN, opts, clock, made) == [ms] + rest;
    }
  }

  /** Without a backoff, or with the number 0, a failed job is never retried. */
  lemma NoBackoffNoRetry(strategies: Strategies, opts: JobOptions, clock: nat -> Env, made: nat)
    requires opts.backoff == None || opts.backoff == Some(Number(0))
    ensures FailDelays(strategies, opts, clock, made) == []
  {
  }
}
