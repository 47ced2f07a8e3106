// What one finished run, or one insertion, leaves in the store: when the job is
// due again, whether its record survives, and what its record says
// (`process_job` in src/utils/mod.rs, `clean_up_job` in src/queue/mod.rs,
// `insert` in src/stores/inmemory_store.rs).
module Outcomes {
  import opened Collections
  import opened Policy
  import opened Stores
  import opened Queues
  import opened Words
  import S = Scores
  import T = Tags

  /** `id` has a record and is being processed. */
  predicate Running(s: Store, id: Id) {
    id in s.jobs && s.jobs[id].state == JobState.Active
  }

  /** The store after the run of `id` has been counted and ended, before anything is decided. */
  lemma EndedParts(s: Store, id: Id, failed: bool, ts: int)
    requires Running(s, id)
    ensures var r := MoveToEnd(s, id, EndState(failed), ts);
            var job := s.jobs[id].(state := EndState(failed), attemptsMade := s.jobs[id].attemptsMade + 1);
            && r.1 == Some(job) && r.0.jobs == s.jobs[id := job]
            && r.0.cols.delayed == s.cols.delayed && r.0.cols.waiting == s.cols.waiting
  {
  }

  lemma SettledParts(s: Store, id: Id, next: Next, failed: bool)
    requires failed ==> !next.ToWait?
    ensures var s' := Settle(s, id, next, failed);
            && s'.cols.delayed
               == (if next.ToDelayed? then s.cols.delayed[Unsigned(next.score) := id] else s.cols.delayed)
            && s'.cols.waiting == (if next.ToWait? then [id] + s.cols.waiting else s.cols.waiting)
            && s'.jobs == (if next.CleanUp? && Removes(next.policy, id) then s.jobs - {id} else s.jobs)
  {
  }

  /** The parts of the store a finished run decides about, by the decision taken. */
  lemma FinishedParts(s: Store, strategies: Strategies, id: Id, failed: bool, ts: int, env: Env)
    requires Running(s, id)
    ensures var job := s.jobs[id].(state := EndState(failed), attemptsMade := s.jobs[id].attemptsMade + 1);
            var next := Decide(strategies, job, failed, env);
            var s' := FinishRun(s, strategies, id, failed, ts, env).0;
            && s'.cols.delayed
               == (if next.ToDelayed? then s.cols.delayed[Unsigned(next.score) := id] else s.cols.delayed)
            && s'.cols.waiting == (if next.ToWait? then [id] + s.cols.waiting else s.cols.waiting)
            && s'.jobs == (if next.CleanUp? && Removes(next.policy, id) then s.jobs - {id} else s.jobs[id := job])
  {
    hide MoveToEnd, Settle, Removes, AfterSuccess;
    EndedParts(s, id, failed, ts);
    var job := s.jobs[id].(state := EndState(failed), attemptsMade := s.jobs[id].attemptsMade + 1);
    SettledParts(MoveToEnd(s, id, EndState(failed), ts).0, id, Decide(strategies, job, failed, env), failed);
    assert s.jobs[id := job] - {id} == s.jobs - {id};
  }

  /** A run can be finished exactly when the job has a record. */
  lemma FinishesIff(s: Store, strategies: Strategies, id: Id, failed: bool, ts: int, env: Env)
    ensures FinishRun(s, strategies, id, failed, ts, env).1 <==> id in s.jobs
    ensures id !in s.jobs ==> FinishRun(s, strategies, id, failed, ts, env).0 == s
  {
  }

  lemma AlreadyActive(s: Store, id: Id, from: JobState, ts: int)
    requires Running(s, id) && id in s.cols.active
    ensures MoveJobToState(s, id, from, JobState.Active, ts) == (s, true)
  {
    hide Relink;
    assert s.jobs[id := s.jobs[id]] == s.jobs;
  }

  lemma MarkedActive(s: Store, id: Id, from: JobState, ts: int)
    requires id in s.jobs && SuffixOf(from) != T.Active
    ensures var r := MoveJobToState(s, id, from, JobState.Active, ts);
            && r.1 && r.0.jobs == s.jobs[id := s.jobs[id].(state := JobState.Active)]
            && r.0.cols.active == (if id in s.cols.active then s.cols.active else s.cols.active + [id])
  {
    hide RemoveScored, Without;
  }

  /**
    * Marking a job active lists it once, last, unless it is listed already; it
    * takes no attempt, and doing it again changes nothing.
    */
  lemma MarkedActiveOnce(s: Store, id: Id, from: JobState, ts: int, again: JobState, later: int)
    requires id in s.jobs && SuffixOf(from) != T.Active
    ensures var r := MoveJobToState(s, id, from, JobState.Active, ts);
            && r.1 && r.0.jobs == s.jobs[id := s.jobs[id].(state := JobState.Active)]
            && r.0.cols.active == (if id in s.cols.active then s.cols.active else s.cols.active + [id])
            && MoveJobToState(r.0, id, again, JobState.Active, later) == r
  {
    hide MoveJobToState;
    MarkedActive(s, id, from, ts);
    AlreadyActive(MoveJobToState(s, id, from, JobState.Active, ts).0, id, again, later);
  }

  // ---- When the job is due again ----

  /** `id` joins the delayed set at `due`, or the wait list if that is time 0, and nothing else joins either. */
  predicate DueAgain(s: Store, s': Store, id: Id, due: int) {
    if due == 0
    then s'.cols.waiting == [id] + s.cols.waiting && s'.cols.delayed == s.cols.delayed
    else s'.cols.delayed == s.cols.delayed[Unsigned(due) := id] && s'.cols.waiting == s.cols.waiting
  }

  predicate NotDue(s: Store, s': Store) {
    s'.cols.delayed == s.cols.delayed && s'.cols.waiting == s.cols.waiting
  }

  /** A successful run with attempts to spare. */
  predicate HasMore(s: Store, id: Id)
    requires id in s.jobs
  {
    s.jobs[id].attemptsMade + 1 < s.jobs[id].opts.attempts
  }

  /** A success under `Every(d, max)` makes the job due `d` later, until its limit or its attempts are reached. */
  lemma EveryDue(s: Store, strategies: Strategies, id: Id, ts: int, env: Env, d: int, max: Option<nat>)
    requires Running(s, id) && s.jobs[id].opts.repeat == Some(Every(d, max))
    ensures var s' := FinishRun(s, strategies, id, false, ts, env).0;
            if HasMore(s, id) && (max.Some? ==> s.jobs[id].attemptsMade < max.value)
            then DueAgain(s, s', id, env.nowMs + d)
            else NotDue(s, s')
  {
    hide FinishRun, Removes, Unsigned;
    FinishedParts(s, strategies, id, false, ts, env);
  }

  /** A success of a cron job makes it due when its expression next fires, if it ever does. */
  lemma CronDue(s: Store, strategies: Strategies, id: Id, ts: int, env: Env)
    requires Running(s, id) && s.jobs[id].opts.repeat == Some(WithCron)
    ensures var s' := FinishRun(s, strategies, id, false, ts, env).0;
            if HasMore(s, id) && env.cronNext.Some?
            then DueAgain(s, s', id, env.cronNext.value)
            else NotDue(s, s')
  {
    hide FinishRun, Removes, Unsigned;
    FinishedParts(s, strategies, id, false, ts, env);
  }

  /** A success under `Immediately(limit)` puts the job back at the end of the wait list, `limit` times. */
  lemma ImmediatelyDue(s: Store, strategies: Strategies, id: Id, ts: int, env: Env, limit: nat)
    requires Running(s, id) && s.jobs[id].opts.repeat == Some(Immediately(limit))
    ensures var s' := FinishRun(s, strategies, id, false, ts, env).0;
            if HasMore(s, id) && s.jobs[id].attemptsMade < limit
            then DueAgain(s, s', id, 0)
            else NotDue(s, s')
  {
    hide FinishRun, Removes, Unsigned;
    FinishedParts(s, strategies, id, false, ts, env);
  }

  /** `strategy(d, made)` is the delay a backoff option asks for after `made` earlier attempts, if it asks for one. */
  ghost predicate Asks(strategies: Strategies, backoff: BackOffJobOptions, kind: string, d: int) {
    && kind in strategies
    && (backoff == Opts(BackOffOptions(Some(kind), Some(d))) || (backoff == Number(d) && d != 0 && kind == "fixed"))
  }

  /** A success under a backoff repeat makes the job due after the delay of its strategy, if that is registered. */
  lemma BackOffDue(
    s: Store, strategies: Strategies, id: Id, ts: int, env: Env, b: BackOffJobOptions, kind: string, d: int)
    requires Running(s, id) && s.jobs[id].opts.repeat == Some(WithBackOff(b))
    ensures var s' := FinishRun(s, strategies, id, false, ts, env).0;
            && (Asks(strategies, b, kind, d) && HasMore(s, id) ==>
                  DueAgain(s, s', id, env.nowMs + strategies[kind](d, s.jobs[id].attemptsMade)))
            && (!HasMore(s, id) || (forall k, x :: !Asks(strategies, b, k, x)) ==> NotDue(s, s'))
  {
    hide FinishRun, Removes, Unsigned;
    FinishedParts(s, strategies, id, false, ts, env);
    NoDelayIfNothingAsked(strategies, b, s.jobs[id].attemptsMade);
  }

  lemma NoDelayIfNothingAsked(strategies: Strategies, b: BackOffJobOptions, attempts: int)
    ensures NextDelayMs(strategies, b, attempts).None? <==> forall k, x :: !Asks(strategies, b, k, x)
  {
    match b
    case Number(ms) => assert NextDelayMs(strategies, b, attempts).Some? ==> Asks(strategies, b, "fixed", ms);
    case Opts(opts) =>
      if opts.kind.Some? && opts.delay.Some? {
        assert NextDelayMs(strategies, b, attempts).Some? ==>
          Asks(strategies, b, opts.kind.value, opts.delay.value);
      }
  }

  /** Without a repeat policy a success ends the job. */
  lemma NoRepeatNotDue(s: Store, strategies: Strategies, id: Id, ts: int, env: Env)
    requires Running(s, id) && s.jobs[id].opts.repeat.None?
    ensures NotDue(s, FinishRun(s, strategies, id, false, ts, env).0)
  {
    hide FinishRun, Removes, Unsigned;
    FinishedParts(s, strategies, id, false, ts, env);
  }

  /** A failure with attempts to spare is retried after the delay of its backoff strategy, if that is registered. */
  lemma RetryDue(
    s: Store, strategies: Strategies, id: Id, ts: int, env: Env, b: BackOffJobOptions, kind: string, d: int)
    requires Running(s, id) && s.jobs[id].opts.backoff == Some(b)
    ensures var s' := FinishRun(s, strategies, id, true, ts, env).0;
            && s'.cols.waiting == s.cols.waiting
            && (Asks(strategies, b, kind, d) && HasMore(s, id) ==>
                  s'.cols.delayed
                    == s.cols.delayed[Unsigned(env.nowMs + strategies[kind](d, s.jobs[id].attemptsMade)) := id])
            && (!HasMore(s, id) || (forall k, x :: !Asks(strategies, b, k, x)) ==> NotDue(s, s'))
  {
    hide FinishRun, Removes, Unsigned;
    FinishedParts(s, strategies, id, true, ts, env);
    NoDelayIfNothingAsked(strategies, b, s.jobs[id].attemptsMade);
  }

  /** Without a backoff option a failure is final. */
  lemma NoBackoffNotDue(s: Store, strategies: Strategies, id: Id, ts: int, env: Env)
    requires Running(s, id) && s.jobs[id].opts.backoff.None?
    ensures NotDue(s, FinishRun(s, strategies, id, true, ts, env).0)
  {
    hide FinishRun, Removes, Unsigned;
    FinishedParts(s, strategies, id, true, ts, env);
  }

  // ---- Whether the record survives ----

  /** This run spends the last attempt: a success at or past the limit, a failure exactly at it. */
  predicate LastAttempt(job: Job, failed: bool) {
    if failed then job.attemptsMade + 1 == job.opts.attempts else job.attemptsMade + 1 >= job.opts.attempts
  }

  /** Retention by count keeps the ids up to the limit; a limit of zero or less keeps all. */
  predicate KeepsRecord(policy: Option<Retention>, id: Id) {
    || policy == None
    || policy == Some(Bool(false))
    || (policy.value.Int? && (policy.value.max <= 0 || id <= policy.value.max))
    || (policy.value.KeepJobs? &&
        (policy.value.count.None? || policy.value.count.value <= 0 || id <= policy.value.count.value))
  }

  /**
    * A record survives its run unless the run spends the last attempt and the
    * retention option for that ending deletes it. A surviving record has the
    * attempt counted and the new state, and no other record changes.
    */
  lemma RecordSurvivesIff(s: Store, strategies: Strategies, id: Id, failed: bool, ts: int, env: Env)
    requires Running(s, id)
    ensures var job := s.jobs[id];
            var jobs := FinishRun(s, strategies, id, failed, ts, env).0.jobs;
            && (id in jobs <==>
                  LastAttempt(job, failed) ==>
                    KeepsRecord(if failed then job.opts.removeOnFail else job.opts.removeOnComplete, id))
            && (id in jobs ==>
                  jobs[id] == job.(attemptsMade := job.attemptsMade + 1,
                                   state := if failed then JobState.Failed else JobState.Completed))
            && jobs - {id} == s.jobs - {id}
  {
    hide FinishRun, NextOccurrence, NextDelayMs;
    FinishedParts(s, strategies, id, failed, ts, env);
    RemovesIff(if failed then s.jobs[id].opts.removeOnFail else s.jobs[id].opts.removeOnComplete, id);
  }

  lemma RemovesIff(policy: Option<Retention>, id: Id)
    ensures Removes(policy, id) <==> !KeepsRecord(policy, id)
  {
  }

  // ---- What an insertion records ----

  /** The state a new job is recorded with. */
  predicate FirstState(opts: JobOptions, state: JobState) {
    && (state == JobState.Delayed <==> opts.delayMs > 0)
    && (state == JobState.Prioritized <==> opts.delayMs == 0 && opts.priority > 0)
    && (state == JobState.Wait <==> opts.delayMs < 0 || (opts.delayMs == 0 && opts.priority == 0))
  }

  /**
    * A job is refused exactly for a delay of 1 to 49 ms, and then only its numbers
    * are spent. An accepted job takes the next id and, if it has a priority, the
    * next priority number, and its record starts with no attempt and no token.
    * (A delay is an `i64`.)
    */
  lemma InsertionRecords(s: Store, opts: JobOptions, flag: bool, now: int)
    requires Fits64(opts.delayMs)
    ensures var (s', out) := AddJob(s, opts, flag, now);
            var id := s.lastId + 1;
            && s' == s.(lastId := id, cols := s'.cols, jobs := s'.jobs,
                        priorityCounter := s.priorityCounter + (if opts.priority > 0 then 1 else 0))
            && (if 1 <= opts.delayMs < 50
                then out == DelayBelowLimit(opts.delayMs) && s'.cols == s.cols && s'.jobs == s.jobs
                else
                  && out == Accepted(id) && id in s'.jobs && s'.jobs - {id} == s.jobs - {id}
                  && var job := s'.jobs[id];
                     && job.opts == opts && job.attemptsMade == 0 && job.token == None
                     && job.arrival == (if opts.priority > 0 then s'.priorityCounter else 0)
                     && FirstState(opts, job.state))
  {
    hide Place;
  }

  /** `id` occurs in the collection its record's state stands for. */
  predicate StateNamesPlace(s: Store, id: Id) {
    id in s.jobs && ExistsIn(s.cols, SuffixOf(s.jobs[id].state), id)
  }

  lemma DelayedNamesPlace(s: Store, opts: JobOptions, flag: bool, now: int)
    requires opts.delayMs >= 50
    ensures StateNamesPlace(AddJob(s, opts, flag, now).0, s.lastId + 1)
  {
    hide S.Score;
    var delayed := AddJob(s, opts, flag, now).0.cols.delayed;
    assert delayed[Unsigned(now + opts.delayMs)] == s.lastId + 1;
  }

  lemma PrioritizedNamesPlace(s: Store, opts: JobOptions, flag: bool, now: int)
    requires opts.delayMs == 0 && opts.priority > 0
    ensures StateNamesPlace(AddJob(s, opts, flag, now).0, s.lastId + 1)
  {
    hide S.Score;
    var prioritized := AddJob(s, opts, flag, now).0.cols.prioritized;
    assert prioritized[Unsigned(S.Score(opts.priority, s.priorityCounter + 1))] == s.lastId + 1;
  }

  lemma WaitingNamesPlaceIff(s: Store, opts: JobOptions, flag: bool, now: int)
    requires -TWO63 <= opts.delayMs < 0 || (opts.delayMs == 0 && opts.priority == 0)
    requires s.lastId + 1 !in s.cols.waiting
    ensures StateNamesPlace(AddJob(s, opts, flag, now).0, s.lastId + 1) <==> opts.delayMs == 0 && !flag
  {
  }

  /**
    * The recorded state of a new job names the collection that holds it, unless it
    * was put in the paused list or, for a negative delay, nowhere: both are
    * recorded as waiting. (The id is new: no collection holds it yet.)
    */
  lemma NewStateNamesPlaceIff(s: Store, opts: JobOptions, flag: bool, now: int)
    requires Fits64(opts.delayMs) && !(1 <= opts.delayMs < 50)
    requires s.lastId + 1 !in s.cols.waiting
    ensures var s' := AddJob(s, opts, flag, now).0;
            StateNamesPlace(s', s.lastId + 1) <==>
            opts.delayMs > 0 || (opts.delayMs == 0 && (opts.priority > 0 || !flag))
  {
    hide AddJob, StateNamesPlace;
    if opts.delayMs > 0 {
      DelayedNamesPlace(s, opts, flag, now);
    } else if opts.delayMs == 0 && opts.priority > 0 {
      PrioritizedNamesPlace(s, opts, flag, now);
    } else {
      WaitingNamesPlaceIff(s, opts, flag, now);
    }
  }
}
