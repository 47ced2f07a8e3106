// Runs in which a job is lost at store-call granularity: recorded, and nowhere.
// `retry_failed` puts the job back into the delayed set and only then takes it
// out of the failed set, so the next run can overtake the removal; and a delayed
// job can be found overdue before its record is stored.
module Losses {
  import opened Collections
  import opened Policy
  import opened Stores
  import opened Counts
  import opened Queues
  import opened Ownership
  import opened Homes

  ghost predicate Leads(st: Sys, st': Sys) {
    exists steps :: Legal(st, steps) && Run(st, steps) == st'
  }

  lemma {:induction false} RunJoin(st: Sys, a: seq<Step>, b: seq<Step>)
    requires Legal(st, a) && Legal(Run(st, a), b)
    ensures Legal(st, a + b) && Run(st, a + b) == Run(Run(st, a), b)
    decreases |a|
  {
    hide Apply, Enabled;
    if a == [] {
      assert a + b == b;
    } else {
      assert (a + b)[1..] == a[1..] + b;
      RunJoin(Apply(st, a[0]), a[1..], b);
    }
  }

  lemma Onward(st: Sys, st': Sys, step: Step)
    requires Leads(st, st') && Enabled(st', step)
    ensures Leads(st, Apply(st', step))
  {
    hide Apply, Enabled;
    var steps :| Legal(st, steps) && Run(st, steps) == st';
    assert [step][1..] == [];
    RunJoin(st, steps, [step]);
  }

  /** Two agents and job 1, alone in the system: who does what, where the job is, and its record. */
  datatype Scene = Scene(agents: seq<Pc>, cols: Cols, job: Job, promoted: multiset<Id>)

  ghost predicate Shows(st: Sys, sc: Scene) {
    && st.agents == sc.agents && |sc.agents| == 2 && st.producer.Resting?
    && st.store.lastId == 1 && st.store.cols == sc.cols && st.store.jobs == map[1 := sc.job]
    && st.promoted == sc.promoted && st.missed == multiset{}
  }

  function Turn(sc: Scene, t: nat, pc: Pc): Scene
    requires t < |sc.agents|
  {
    sc.(agents := sc.agents[t := pc])
  }

  /** One store call of agent `t`, given what it does to the collections and the record. */
  lemma Go(st0: Sys, st: Sys, sc: Scene, t: nat, x: Input, sc': Scene) returns (st': Sys)
    requires Leads(st0, st) && Shows(st, sc) && t < 2 && CanAdvance(sc.agents[t])
    requires var m := Call(st.store, sc.agents[t], x);
             && m.store.cols == sc'.cols && m.store.jobs == map[1 := sc'.job] && m.store.lastId == 1
             && sc' == Turn(sc, t, m.pc).(cols := sc'.cols, job := sc'.job)
    ensures Leads(st0, st') && Shows(st', sc')
  {
    hide Call;
    st' := Apply(st, Advance(t, x));
    Onward(st0, st, Advance(t, x));
  }

  /** The calls of an activation that only read, or write the lock. */
  lemma Checks(st0: Sys, st: Sys, sc: Scene, t: nat, c: Claim, x: Input) returns (st': Sys)
    requires Leads(st0, st) && Shows(st, sc) && t < 2 && sc.agents[t] == Reading(1, c)
    ensures Leads(st0, st') && Shows(st', Turn(sc, t, Ensuring(1, c, sc.job.state)))
  {
    hide Leads;
    var prev := sc.job.state;
    st' := Go(st0, st, sc, t, x, Turn(sc, t, Locking(1, c, prev)));
    var sc1 := Turn(sc, t, Locking(1, c, prev));
    st' := Go(st0, st', sc1, t, x, Turn(sc1, t, Checking(1, c, prev)));
    var sc2 := Turn(sc1, t, Checking(1, c, prev));
    st' := Go(st0, st', sc2, t, x, Turn(sc2, t, Ensuring(1, c, prev)));
    assert sc.agents[t := Locking(1, c, prev)][t := Checking(1, c, prev)][t := Ensuring(1, c, prev)]
        == sc.agents[t := Ensuring(1, c, prev)];
  }

  function Stamped(job: Job, c: Claim): Job {
    job.(state := JobState.Active, token := Some(c.token))
  }

  lemma Marks(st0: Sys, st: Sys, sc: Scene, t: nat, c: Claim, x: Input, prev: JobState) returns (st': Sys)
    requires Leads(st0, st) && Shows(st, sc) && t < 2 && sc.agents[t] == Ensuring(1, c, prev) && 1 in sc.cols.active
    ensures Leads(st0, st') && Shows(st', Turn(sc, t, Stamping(1, c)).(job := sc.job.(state := JobState.Active)))
  {
    hide Leads;
    var sc1 := Turn(sc, t, Marking(1, c));
    st' := Go(st0, st, sc, t, x, sc1);
    var sc2 := Turn(sc1, t, Stamping(1, c)).(job := sc.job.(state := JobState.Active));
    st' := Go(st0, st', sc1, t, x, sc2);
    assert sc2 == Turn(sc, t, Stamping(1, c)).(job := sc.job.(state := JobState.Active));
  }

  lemma Fetches(st0: Sys, st: Sys, sc: Scene, t: nat, c: Claim, x: Input) returns (st': Sys)
    requires Leads(st0, st) && Shows(st, sc) && t < 2 && sc.agents[t] == Stamping(1, c)
    ensures Leads(st0, st') && Shows(st', Turn(sc, t, Running(1)).(job := sc.job.(token := Some(c.token))))
  {
    hide Leads;
    var sc1 := Turn(sc, t, Fetching(1, c)).(job := sc.job.(token := Some(c.token)));
    st' := Go(st0, st, sc, t, x, sc1);
    var sc2 := Turn(sc1, t, Running(1));
    st' := Go(st0, st', sc1, t, x, sc2);
    assert sc2 == Turn(sc, t, Running(1)).(job := sc.job.(token := Some(c.token)));
  }

  /** Agent `t` finds job 1 in the wait list and starts it. */
  lemma Activates(st0: Sys, st: Sys, sc: Scene, t: nat, c: Claim, x: Input) returns (st': Sys)
    requires Leads(st0, st) && Shows(st, sc) && t < 2 && sc.agents[t].Free?
    requires sc.cols.waiting == [1] && sc.cols.active == []
    ensures Leads(st0, st')
    ensures var cols := sc.cols.(waiting := [], active := [1]);
            Shows(st', Turn(sc, t, Running(1)).(cols := cols, job := Stamped(sc.job, c)))
  {
    hide Leads, Call;
    var cols := sc.cols.(waiting := [], active := [1]);
    assert [1][..0] == [] && [1] + [] == [1];
    st' := Apply(st, Begin(t, c));
    Onward(st0, st, Begin(t, c));
    var sc1 := Turn(sc, t, Reading(1, c)).(cols := cols);
    assert Shows(st', sc1);
    st' := Checks(st0, st', sc1, t, c, x);
    var sc2 := Turn(sc1, t, Ensuring(1, c, sc.job.state));
    st' := Marks(st0, st', sc2, t, c, x, sc.job.state);
    var sc3 := Turn(sc2, t, Stamping(1, c)).(job := sc.job.(state := JobState.Active));
    st' := Fetches(st0, st', sc3, t, c, x);
    assert Turn(sc3, t, Running(1)).agents == Turn(sc, t, Running(1)).agents;
  }

  /** The record once the failed attempt is counted. */
  function Charge(job: Job): Job {
    job.(attemptsMade := job.attemptsMade + 1)
  }

  lemma CountsFailure(st0: Sys, st: Sys, sc: Scene, t: nat, x: Input) returns (st': Sys)
    requires Leads(st0, st) && Shows(st, sc) && t < 2 && sc.agents[t] == Verifying(1, Raised, JobState.Active)
    ensures Leads(st0, st') && Shows(st', Turn(sc, t, Leaving(1, Raised, JobState.Active)).(job := Charge(sc.job)))
  {
    hide Leads;
    var sc1 := Turn(sc, t, Counting(1, Raised, JobState.Active));
    st' := Go(st0, st, sc, t, x, sc1);
    var sc2 := Turn(sc1, t, Leaving(1, Raised, JobState.Active)).(job := Charge(sc.job));
    st' := Go(st0, st', sc1, t, x, sc2);
    assert sc2 == Turn(sc, t, Leaving(1, Raised, JobState.Active)).(job := Charge(sc.job));
  }

  lemma MovesToFailed(st0: Sys, st: Sys, sc: Scene, t: nat, x: Input) returns (st': Sys)
    requires Leads(st0, st) && Shows(st, sc) && t < 2 && sc.agents[t] == Leaving(1, Raised, JobState.Active)
    requires sc.cols.active == [1] && x.ts >= 0
    ensures Leads(st0, st')
    ensures var cols := sc.cols.(active := [], failed := sc.cols.failed[x.ts := 1]);
            Shows(st', Turn(sc, t, Closing(1, Raised)).(cols := cols))
  {
    hide Leads;
    assert Without<Id>([1], 1) == [];
    var sc1 := Turn(sc, t, Ending(1, Raised)).(cols := sc.cols.(active := []));
    st' := Go(st0, st, sc, t, x, sc1);
    var sc2 := Turn(sc1, t, Closing(1, Raised)).(cols := sc.cols.(active := [], failed := sc.cols.failed[x.ts := 1]));
    st' := Go(st0, st', sc1, t, x, sc2);
    assert sc2.agents == Turn(sc, t, Closing(1, Raised)).agents;
  }

  lemma Closes(st0: Sys, st: Sys, sc: Scene, t: nat, x: Input) returns (st': Sys)
    requires Leads(st0, st) && Shows(st, sc) && t < 2 && sc.agents[t] == Closing(1, Raised)
    ensures var job := sc.job.(state := JobState.Failed);
            Leads(st0, st') && Shows(st', Turn(sc, t, Settling(1, Raised, job)).(job := job))
  {
    hide Leads;
    var job := sc.job.(state := JobState.Failed);
    var sc1 := Turn(sc, t, Deciding(1, Raised)).(job := job);
    st' := Go(st0, st, sc, t, x, sc1);
    var sc2 := Turn(sc1, t, Settling(1, Raised, job));
    st' := Go(st0, st', sc1, t, x, sc2);
    assert sc2 == Turn(sc, t, Settling(1, Raised, job)).(job := job);
  }

  function FailedJob(job: Job): Job {
    Charge(job).(state := JobState.Failed)
  }

  lemma Raises(st0: Sys, st: Sys, sc: Scene, t: nat) returns (st': Sys)
    requires Leads(st0, st) && Shows(st, sc) && t < 2 && sc.agents[t] == Running(1) && sc.job.state == JobState.Active
    ensures Leads(st0, st') && Shows(st', Turn(sc, t, Verifying(1, Raised, JobState.Active)))
  {
    hide Leads, Call;
    st' := Apply(st, Return(t, true));
    Onward(st0, st, Return(t, true));
  }

  /** The processor of agent `t` fails, and the job is moved to the failed set. */
  lemma Fails(st0: Sys, st: Sys, sc: Scene, t: nat, x: Input) returns (st': Sys)
    requires Leads(st0, st) && Shows(st, sc) && t < 2 && sc.agents[t] == Running(1)
    requires sc.job.state == JobState.Active && sc.cols.active == [1] && x.ts >= 0
    ensures Leads(st0, st')
    ensures Shows(st', Turn(sc, t, Settling(1, Raised, FailedJob(sc.job)))
                       .(cols := sc.cols.(active := [], failed := sc.cols.failed[x.ts := 1]), job := FailedJob(sc.job)))
  {
    assert |sc.agents| == 2;
    hide Leads, Call, Shows;
    st' := Raises(st0, st, sc, t);
    var sc1 := Turn(sc, t, Verifying(1, Raised, JobState.Active));
    st' := CountsFailure(st0, st', sc1, t, x);
    var sc2 := Turn(sc1, t, Leaving(1, Raised, JobState.Active)).(job := Charge(sc.job));
    st' := MovesToFailed(st0, st', sc2, t, x);
    var sc3 := Turn(sc2, t, Closing(1, Raised)).(cols := sc.cols.(active := [], failed := sc.cols.failed[x.ts := 1]));
    st' := Closes(st0, st', sc3, t, x);
    var pc := Settling(1, Raised, FailedJob(sc.job));
    assert Turn(sc3, t, pc).agents == Turn(sc, t, pc).agents;
  }

  /** Two attempts, 100 ms apart. */
  const RETRIED := JobOptions(0, 0, 2, None, None, Some(Number(100)), None)

  lemma Inserts(now: int) returns (st': Sys)
    ensures Leads(Init(2), st')
    ensures Shows(st', Scene([Free, Free], NO_COLS.(waiting := [1]), NewJob(RETRIED, 0), multiset{}))
  {
    hide Leads, Call;
    assert Leads(Init(2), Init(2)) by {
      Nowhere(Init(2));
    }
    st' := Apply(Init(2), Count(RETRIED));
    Onward(Init(2), Init(2), Count(RETRIED));
    Onward(Init(2), st', AssignId);
    st' := Apply(st', AssignId);
    Onward(Init(2), st', PlaceJob(false, now));
    st' := Apply(st', PlaceJob(false, now));
    Onward(Init(2), st', Record);
    st' := Apply(st', Record);
  }

  lemma Nowhere(st: Sys)
    ensures Leads(st, st)
  {
    assert Legal(st, []) && Run(st, []) == st;
  }

  /** The first failure is retried: delayed already, and not yet taken out of the failed set. */
  lemma Retries(st0: Sys, st: Sys, sc: Scene, t: nat, x: Input) returns (st': Sys)
    requires Leads(st0, st) && Shows(st, sc) && t < 2 && sc.agents[t] == Settling(1, Raised, sc.job)
    requires sc.job.opts == RETRIED && sc.job.attemptsMade == 1 && x.strategies == BUILTIN && x.env.nowMs >= 0
    ensures Leads(st0, st')
    ensures Shows(st', Turn(sc, t, Unfailing(1)).(cols := sc.cols.(delayed := sc.cols.delayed[x.env.nowMs + 100 := 1])))
  {
    hide Leads;
    assert Decide(x.strategies, sc.job, true, x.env) == ToDelayed(x.env.nowMs + 100);
    var cols := sc.cols.(delayed := sc.cols.delayed[x.env.nowMs + 100 := 1]);
    st' := Go(st0, st, sc, t, x, Turn(sc, t, Unfailing(1)).(cols := cols));
  }

  lemma PollOfOne(k: nat)
    requires k >= 1
    ensures GetDelayedAt(map[k := 1], k, k + MIN_DELAY_MS) == Polled(map[], [1], [])
  {
    var d: map<nat, Id> := map[k := 1];
    var none: map<nat, Id> := map[];
    assert DueBetween(d, k, k + MIN_DELAY_MS) == none[k := 1];
    ValuesAppend<Id>(none, k, 1);
    ValuesEmpty<Id>(none);
    assert d - {k} == none;
    assert OverdueAt(none, k) == none;
  }

  /** A poll releases the job, and the timer delivers it to the wait list. */
  lemma Releases(st0: Sys, st: Sys, sc: Scene, k: nat) returns (st': Sys)
    requires Leads(st0, st) && Shows(st, sc) && k >= 1
    requires sc.cols.delayed == map[k := 1] && sc.cols.waiting == [] && sc.promoted == multiset{}
    ensures Leads(st0, st') && Shows(st', sc.(cols := sc.cols.(delayed := map[], waiting := [1])))
  {
    hide Leads, Call, GetDelayedAt;
    PollOfOne(k);
    var poll := PollDelayed(k, k + MIN_DELAY_MS);
    Onward(st0, st, poll);
    st' := Apply(st, poll);
    assert st'.promoted == multiset{1};
    Onward(st0, st', Deliver(1));
    st' := Apply(st', Deliver(1));
    assert [1] + [] == [1];
  }

  /** The second failure is final: no attempt is left. */
  lemma GivesUp(st0: Sys, st: Sys, sc: Scene, t: nat, x: Input) returns (st': Sys)
    requires Leads(st0, st) && Shows(st, sc) && t < 2 && sc.agents[t] == Settling(1, Raised, sc.job)
    requires sc.job.opts == RETRIED && sc.job.attemptsMade == 2
    ensures Leads(st0, st') && Shows(st', Turn(sc, t, Free))
  {
    hide Leads;
    assert Decide(x.strategies, sc.job, true, x.env) == CleanUp(None);
    st' := Go(st0, st, sc, t, x, Turn(sc, t, Free));
  }

  lemma RemovesLate(st0: Sys, st: Sys, sc: Scene, t: nat, x: Input) returns (st': Sys)
    requires Leads(st0, st) && Shows(st, sc) && t < 2 && sc.agents[t] == Unfailing(1)
    requires 1 !in sc.cols.failed && sc.cols.failed.Values <= {1}
    ensures Leads(st0, st') && Shows(st', Turn(sc, t, Free).(cols := sc.cols.(failed := map[])))
  {
    hide Leads;
    forall k | k in sc.cols.failed ensures sc.cols.failed[k] == 1 {
      assert sc.cols.failed[k] in sc.cols.failed.Values;
    }
    assert Dropping<nat, Id>(sc.cols.failed, 1) == map[];
    st' := Go(st0, st, sc, t, x, Turn(sc, t, Free).(cols := sc.cols.(failed := map[])));
  }

  /** The job after `made` failed runs. */
  ghost predicate Failing(job: Job, made: nat) {
    job.opts == RETRIED && job.attemptsMade == made && job.state == JobState.Failed
  }

  /** Agent 0 has failed job 1 once and is about to take it out of the failed set. */
  lemma FirstFailure(now: int, c: Claim, x: Input) returns (st: Sys, job: Job)
    requires x.ts >= 0 && x.strategies == BUILTIN && x.env.nowMs >= 0
    ensures Leads(Init(2), st) && Failing(job, 1)
    ensures var cols := NO_COLS.(delayed := map[x.env.nowMs + 100 := 1], failed := map[x.ts := 1]);
            Shows(st, Scene([Unfailing(1), Free], cols, job, multiset{}))
  {
    hide Leads, Shows;
    var st0 := Init(2);
    var sc := Scene([Free, Free], NO_COLS.(waiting := [1]), NewJob(RETRIED, 0), multiset{});
    st := Inserts(now);
    st := Activates(st0, st, sc, 0, c, x);
    sc := Turn(sc, 0, Running(1)).(cols := NO_COLS.(active := [1]), job := Stamped(sc.job, c));
    st := Fails(st0, st, sc, 0, x);
    job := FailedJob(sc.job);
    sc := Turn(sc, 0, Settling(1, Raised, job)).(cols := NO_COLS.(failed := map[x.ts := 1]), job := job);
    st := Retries(st0, st, sc, 0, x);
    assert Turn(sc, 0, Unfailing(1)).agents == [Unfailing(1), Free];
  }

  /** The collections once both runs have failed. */
  function TwiceFailed(ts1: nat, ts2: nat): Cols {
    NO_COLS.(failed := map[ts1 := 1][ts2 := 1])
  }

  /** The job is released, run by agent 1, and fails again before agent 0 comes to its removal. */
  lemma SecondFailure(st0: Sys, was: Sys, job: Job, k: nat, ts1: nat, c: Claim, x: Input) returns (st: Sys, job': Job)
    requires Leads(st0, was) && Failing(job, 1) && k >= 1 && x.ts >= 0
    requires var cols := NO_COLS.(delayed := map[k := 1], failed := map[ts1 := 1]);
             Shows(was, Scene([Unfailing(1), Free], cols, job, multiset{}))
    ensures Leads(st0, st) && Failing(job', 2)
    ensures Shows(st, Scene([Unfailing(1), Settling(1, Raised, job')], TwiceFailed(ts1, x.ts), job', multiset{}))
  {
    hide Leads, Shows;
    var sc := Scene([Unfailing(1), Free], NO_COLS.(delayed := map[k := 1], failed := map[ts1 := 1]), job, multiset{});
    st := Releases(st0, was, sc, k);
    sc := sc.(cols := NO_COLS.(waiting := [1], failed := map[ts1 := 1]));
    st := Activates(st0, st, sc, 1, c, x);
    sc := Turn(sc, 1, Running(1)).(cols := NO_COLS.(active := [1], failed := map[ts1 := 1]), job := Stamped(job, c));
    st := Fails(st0, st, sc, 1, x);
    job' := FailedJob(sc.job);
    assert Turn(sc, 1, Settling(1, Raised, job')).agents == [Unfailing(1), Settling(1, Raised, job')];
  }

  /** Job 1 has failed twice; agent 1 is about to settle it, agent 0 to take it out of the failed set. */
  lemma BothPending(now: int, c1: Claim, c2: Claim, x1: Input, x2: Input) returns (st: Sys, job: Job)
    requires 1 < x1.ts < x2.ts && x1.strategies == BUILTIN && x1.env.nowMs >= 0
    ensures Leads(Init(2), st) && Failing(job, 2)
    ensures Shows(st, Scene([Unfailing(1), Settling(1, Raised, job)], TwiceFailed(x1.ts, x2.ts), job, multiset{}))
  {
    hide Leads, Shows;
    var job1;
    st, job1 := FirstFailure(now, c1, x1);
    st, job := SecondFailure(Init(2), st, job1, x1.env.nowMs + 100, x1.ts, c2, x2);
  }

  /**
    * An overtaken retry, with every score unused and no repeat: job 1 fails, is
    * retried and fails for good, and the removal left over from the retry takes it
    * out of the failed set. Its record is there, and the job is nowhere.
    */
  lemma LostToLateRemoval(now: int, c1: Claim, c2: Claim, x1: Input, x2: Input) returns (st: Sys)
    requires 1 < x1.ts < x2.ts && x1.strategies == BUILTIN && x1.env.nowMs >= 0
    ensures Leads(Init(2), st) && 1 in st.store.jobs && Lost(st, 1)
  {
    hide Leads;
    var job;
    st, job := BothPending(now, c1, c2, x1, x2);
    var sc := Scene([Unfailing(1), Settling(1, Raised, job)], TwiceFailed(x1.ts, x2.ts), job, multiset{});
    st := GivesUp(Init(2), st, sc, 1, x2);
    sc := sc.(agents := [Unfailing(1), Free]);
    st := RemovesLate(Init(2), st, sc, 0, x1);
    NothingLeft(st, sc.(agents := [Free, Free], cols := NO_COLS));
  }

  /**
    * The same run with the last two calls the other way round: the removal still
    * finds the job in the hands of agent 1, which then settles it and lets it go.
    */
  lemma LostWhenSettled(now: int, c1: Claim, c2: Claim, x1: Input, x2: Input) returns (mid: Sys, st: Sys)
    requires 1 < x1.ts < x2.ts && x1.strategies == BUILTIN && x1.env.nowMs >= 0
    ensures Leads(Init(2), mid) && Ended(mid.store.cols, 1) == 0 && Homed(mid, 1)
    ensures Leads(Init(2), st) && 1 in st.store.jobs && Lost(st, 1)
  {
    hide Leads;
    var job;
    mid, job := BothPending(now, c1, c2, x1, x2);
    var sc := Scene([Unfailing(1), Settling(1, Raised, job)], TwiceFailed(x1.ts, x2.ts), job, multiset{});
    mid := RemovesLate(Init(2), mid, sc, 0, x1);
    sc := sc.(agents := [Free, Settling(1, Raised, job)], cols := NO_COLS);
    assert Claims(mid.agents[1], 1);
    assert KeysOf(map[], 1) == {};
    st := GivesUp(Init(2), mid, sc, 1, x2);
    NothingLeft(st, sc.(agents := [Free, Free]));
  }

  lemma NothingLeft(st: Sys, sc: Scene)
    requires Shows(st, sc) && sc.agents == [Free, Free] && sc.cols == NO_COLS && sc.promoted == multiset{}
    ensures Lost(st, 1)
  {
    assert KeysOf(map[], 1) == {};
  }

  // ---- A deadline missed before the record is stored ----

  /** Job 1 is delayed until `now + opts.delayMs`, and the producer has yet to store its record. */
  lemma DelayedUnrecorded(opts: JobOptions, now: int) returns (st: Sys)
    requires opts.delayMs >= MIN_DELAY_MS && opts.priority == 0 && now >= 0
    ensures Leads(Init(1), st) && st.producer == Placed(opts, 0, 1)
    ensures var store := Empty().(lastId := 1, cols := NO_COLS.(delayed := map[now + opts.delayMs := 1]));
            st == Init(1).(store := store, producer := Placed(opts, 0, 1))
  {
    hide Leads, Call;
    Nowhere(Init(1));
    st := Apply(Init(1), Count(opts));
    Onward(Init(1), Init(1), Count(opts));
    Onward(Init(1), st, AssignId);
    st := Apply(st, AssignId);
    Onward(Init(1), st, PlaceJob(false, now));
    st := Apply(st, PlaceJob(false, now));
  }

  lemma MissedPoll(k: nat, start: int, stop: int)
    requires k < start - 1 && start <= stop
    ensures GetDelayedAt(map[k := 1], start, stop) == Polled(map[], [], [1])
  {
    var d: map<nat, Id> := map[k := 1];
    var none: map<nat, Id> := map[];
    assert DueBetween(d, start, stop) == none;
    assert d - none.Keys == d;
    assert OverdueAt(d, start) == d == none[k := 1];
    ValuesAppend<Id>(none, k, 1);
    ValuesEmpty<Id>(none);
    assert d - d.Keys == none;
  }

  /** The poll finds it overdue, and the agent that is to fail it finds no record. */
  lemma MissesUnrecorded(st0: Sys, was: Sys, k: nat, start: int, x: Input) returns (st: Sys)
    requires Leads(st0, was) && was.agents == [Free] && was.store.jobs == map[] && was.missed == multiset{}
    requires was.store.cols == NO_COLS.(delayed := map[k := 1]) && k < start - 1
    ensures Leads(st0, st) && st.agents == [Free] && st.producer == was.producer
    ensures st.store == was.store.(cols := NO_COLS) && st.promoted == was.promoted && st.missed == multiset{}
  {
    hide Leads;
    st := MissedInHand(st0, was, k, start);
    Onward(st0, st, Advance(0, x));
    st := Apply(st, Advance(0, x));
    assert st.agents == [Verifying(1, MissedDeadline, JobState.Wait)];
    Onward(st0, st, Advance(0, x));
    st := Apply(st, Advance(0, x));
  }

  lemma MissedInHand(st0: Sys, was: Sys, k: nat, start: int) returns (st: Sys)
    requires Leads(st0, was) && was.agents == [Free] && was.store.jobs == map[] && was.missed == multiset{}
    requires was.store.cols == NO_COLS.(delayed := map[k := 1]) && k < start - 1
    ensures Leads(st0, st) && st.agents == [Overdue(1)] && st.producer == was.producer
    ensures st.store == was.store.(cols := NO_COLS) && st.promoted == was.promoted && st.missed == multiset{}
  {
    hide Leads, GetDelayedAt, Call;
    var poll := PollDelayed(start, start + MIN_DELAY_MS);
    MissedPoll(k, start, start + MIN_DELAY_MS);
    Onward(st0, was, poll);
    st := Apply(was, poll);
    assert st.missed == multiset{1};
    Onward(st0, st, BeginMissed(0, 1));
    st := Apply(st, BeginMissed(0, 1));
  }

  /** Job 1 is accepted and recorded, was never retried, and is nowhere. */
  lemma LostBeforeRecord(opts: JobOptions, now: int, start: int, x: Input) returns (st: Sys)
    requires opts.delayMs >= MIN_DELAY_MS && opts.priority == 0 && now >= 0 && now + opts.delayMs < start - 1
    ensures Leads(Init(1), st) && 1 in st.accepted && 1 in st.store.jobs && Lost(st, 1)
  {
    hide Leads, Call;
    st := DelayedUnrecorded(opts, now);
    st := MissesUnrecorded(Init(1), st, now + opts.delayMs, start, x);
    Onward(Init(1), st, Record);
    st := Apply(st, Record);
    assert KeysOf(map[], 1) == {};
  }
}
