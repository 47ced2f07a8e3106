// The completion test of `QueueMetrics` (src/queue/options.rs): a handful of
// counters is compared, and what that says about which jobs have completed.
module Completion {
  import opened Collections
  import opened Policy
  import opened Stores
  import opened Counts
  import opened Queues
  import opened Lifecycle
  import opened Conservation
  import opened Words

  datatype Metrics = Metrics(
    lastId: nat,
    processing: nat,
    active: nat,
    stalled: nat,
    completed: nat,
    delayed: nat,
    prioritized: nat,
    paused: nat,
    failed: nat,
    waiting: nat)
  {
    predicate QueueHasWork() {
      waiting > 0 || delayed > 0 || stalled > 0 || prioritized > 0
    }

    predicate IsIdle() {
      !QueueHasWork() && active == 0 && processing == 0
    }

    predicate AllJobsCompleted() {
      lastId > 0 && completed == lastId && active == 0 && IsIdle()
    }
  }

  /** `get_metrics`; nothing ever enters the stalled set. */
  function GetMetrics(s: Store, processing: nat): Metrics {
    var c := s.cols;
    Metrics(s.lastId, processing, |c.active|, 0, |c.completed|, |c.delayed|, |c.prioritized|, |c.paused|, |c.failed|,
            |c.waiting|)
  }

  /**
    * For every store, whatever it holds: the queue is idle exactly when nothing
    * waits, is delayed, prioritized or active and no worker is processing.
    */
  lemma IdleIff(s: Store, processing: nat)
    ensures GetMetrics(s, processing).IsIdle() <==>
            && s.cols.waiting == [] && s.cols.active == [] && processing == 0
            && s.cols.prioritized.Keys == {} && s.cols.delayed.Keys == {}
  {
    NoEntriesIff(s.cols.prioritized);
    NoEntriesIff(s.cols.delayed);
  }

  lemma NoEntriesIff(m: map<nat, Id>)
    ensures |m| == 0 <==> m.Keys == {}
    ensures m.Keys == {} ==> m.Values == {}
  {
  }

  /** A counter is positive exactly when some id is there to be counted. */
  lemma CountersSee(s: Store, processing: nat)
    ensures var m, c := GetMetrics(s, processing), s.cols;
            && (m.waiting > 0 <==> exists id :: InList(c.waiting, id) > 0)
            && (m.paused > 0 <==> exists id :: InList(c.paused, id) > 0)
            && (m.active > 0 <==> exists id :: InList(c.active, id) > 0)
            && (m.prioritized > 0 <==> exists id :: InMap(c.prioritized, id) > 0)
            && (m.delayed > 0 <==> exists id :: InMap(c.delayed, id) > 0)
            && (m.completed > 0 <==> exists id :: InMap(c.completed, id) > 0)
            && (m.failed > 0 <==> exists id :: InMap(c.failed, id) > 0)
  {
    var c := s.cols;
    ListSees(c.waiting);
    ListSees(c.paused);
    ListSees(c.active);
    MapSees(c.prioritized);
    MapSees(c.delayed);
    MapSees(c.completed);
    MapSees(c.failed);
  }

  lemma ListSees(s: seq<Id>)
    ensures |s| > 0 <==> exists id :: InList(s, id) > 0
  {
    ListEmpty(s);
  }

  lemma MapSees(m: map<nat, Id>)
    ensures |m| > 0 <==> exists id :: InMap(m, id) > 0
  {
    MapEmpty(m);
    if id :| InMap(m, id) > 0 {
      InMapPositive(m, id);
    }
  }

  /**
    * For every store: when the test says that all jobs have completed, some job was
    * added, the completed set has as many entries as ids were handed out, and no
    * id waits, is delayed, prioritized or active.
    */
  lemma CompletedMeansDrained(s: Store, processing: nat, id: Id)
    requires GetMetrics(s, processing).AllJobsCompleted()
    ensures s.lastId > 0 && |s.cols.completed| == s.lastId && processing == 0
    ensures id !in s.cols.waiting && id !in s.cols.active
    ensures id !in s.cols.prioritized.Values && id !in s.cols.delayed.Values
  {
    IdleIff(s, processing);
    NoEntriesIff(s.cols.prioritized);
    NoEntriesIff(s.cols.delayed);
  }

  lemma SubsetOfSameSize(s: set<Id>, t: set<Id>)
    requires s <= t && |s| == |t|
    ensures s == t
  {
    assert |t - s| == |t| - |s|;
    assert t == s + (t - s);
  }

  /** A scored set has as many entries as distinct ids exactly when no id occurs twice. */
  lemma {:induction false} DistinctIds(m: map<nat, Id>)
    ensures |m.Values| <= |m|
    ensures |m.Values| == |m| <==> forall id :: InMap(m, id) <= 1
    decreases |m|
  {
    if m.Keys == {} {
      assert m.Values == {};
      forall id ensures InMap(m, id) == 0 {
        assert KeysOf(m, id) == {};
      }
    } else {
      var k := Pick(m.Keys);
      var rest := m - {k};
      assert rest.Keys == m.Keys - {k};
      DistinctIds(rest);
      forall id ensures InMap(m, id) == InMap(rest, id) + Bit(m[k] == id) {
        InMapDrop(m, k, id);
      }
      InMapPositive(rest, m[k]);
      ValuesDrop(m, k);
      assert InMap(m, m[k]) == InMap(rest, m[k]) + 1;
    }
  }

  lemma ValuesDrop(m: map<nat, Id>, k: nat)
    requires k in m
    ensures m.Values == (m - {k}).Values + {m[k]}
  {
    forall v | v in m.Values ensures v in (m - {k}).Values + {m[k]} {
      var j :| j in m && m[j] == v;
      assert j != k ==> j in m - {k};
    }
    forall v | v in (m - {k}).Values ensures v in m.Values {
      var j :| j in (m - {k}) && (m - {k})[j] == v;
      assert j in m && m[j] == v;
    }
  }

  /**
    * When the counters agree, the completed ids are all the ids ever handed out
    * if and only if no id completed twice.
    */
  lemma CountersAgreeIff(s: Store, processing: nat)
    requires s.cols.completed.Values <= Ids(s.lastId)
    requires GetMetrics(s, processing).AllJobsCompleted()
    ensures s.cols.completed.Values == Ids(s.lastId) <==> forall id :: InMap(s.cols.completed, id) <= 1
  {
    DistinctIds(s.cols.completed);
    if |s.cols.completed.Values| == s.lastId {
      SubsetOfSameSize(s.cols.completed.Values, Ids(s.lastId));
    }
  }

  lemma CompletedAreIds(l: Life)
    requires Inv(l)
    ensures l.store.cols.completed.Values <= Ids(l.store.lastId)
    ensures forall id :: InMap(l.store.cols.completed, id) <= 1
  {
    forall id ensures InMap(l.store.cols.completed, id) <= 1 {
      assert SpotOk(At(l, id));
    }
    forall id | id in l.store.cols.completed.Values ensures id in Ids(l.store.lastId) {
      InMapPositive(l.store.cols.completed, id);
      assert SpotOk(At(l, id));
    }
  }

  lemma OnlyCompleted(l: Life, id: Id)
    requires Inv(l) && l.store.cols.completed.Values == Ids(l.store.lastId)
    ensures At(l, id).Pending() == 0 && At(l, id).failed == 0
  {
    assert SpotOk(At(l, id));
    InMapPositive(l.store.cols.completed, id);
  }

  lemma NothingElsewhere(l: Life)
    requires Inv(l) && l.store.cols.completed.Values == Ids(l.store.lastId)
    ensures var c := l.store.cols;
            && c.waiting == [] && c.paused == [] && c.active == []
            && |c.prioritized| == 0 && |c.delayed| == 0 && |c.failed| == 0
            && l.promoted == multiset{}
  {
    var c := l.store.cols;
    forall id
      ensures InList(c.waiting, id) == 0 && InList(c.paused, id) == 0 && InList(c.active, id) == 0
      ensures InMap(c.prioritized, id) == 0 && InMap(c.delayed, id) == 0 && InMap(c.failed, id) == 0
      ensures l.promoted[id] == 0
    {
      OnlyCompleted(l, id);
    }
    ListEmpty(c.waiting);
    ListEmpty(c.paused);
    ListEmpty(c.active);
    MapEmpty(c.prioritized);
    MapEmpty(c.delayed);
    MapEmpty(c.failed);
  }

  lemma ListEmpty(s: seq<Id>)
    ensures (forall id :: InList(s, id) == 0) ==> s == []
  {
    if s != [] {
      assert s[0] in s;
      assert InList(s, s[0]) > 0;
    }
  }

  lemma MapEmpty(m: map<nat, Id>)
    ensures (forall id :: InMap(m, id) == 0) ==> |m| == 0
  {
    if |m| != 0 {
      var k := Pick(m.Keys);
      assert k in KeysOf(m, m[k]);
      assert InMap(m, m[k]) > 0;
    }
  }

  /**
    * In every state reached without repeat policies the test is exact: it holds if
    * and only if some job was added, no worker is processing, and the completed
    * ids are 1 to `lastId`. Nothing is then paused, failed or on its way either,
    * which the counters themselves do not look at.
    */
  lemma AllCompletedIff(l: Life, processing: nat)
    requires Inv(l)
    ensures GetMetrics(l.store, processing).AllJobsCompleted() <==>
            l.store.lastId > 0 && processing == 0 && l.store.cols.completed.Values == Ids(l.store.lastId)
    ensures GetMetrics(l.store, processing).AllJobsCompleted()
        ==> l.store.cols.paused == [] && |l.store.cols.failed| == 0 && l.promoted == multiset{}
  {
    CompletedAreIds(l);
    if GetMetrics(l.store, processing).AllJobsCompleted() {
      CountersAgreeIff(l.store, processing);
      NothingElsewhere(l);
    } else if l.store.cols.completed.Values == Ids(l.store.lastId) {
      NothingElsewhere(l);
      DistinctIds(l.store.cols.completed);
    }
  }

  lemma CompletionTestExact(ops: seq<Op>, processing: nat)
    requires Runs(START, ops) && PlausibleRun(START, ops)
    ensures var s := Run(START, ops).store;
            GetMetrics(s, processing).AllJobsCompleted() <==>
            s.lastId > 0 && processing == 0 && s.cols.completed.Values == Ids(s.lastId)
    ensures var l := Run(START, ops);
            GetMetrics(l.store, processing).AllJobsCompleted() ==>
            l.store.cols.paused == [] && |l.store.cols.failed| == 0 && l.promoted == multiset{}
  {
    StartOk();
    RunConserves(START, ops);
    AllCompletedIff(Run(START, ops), processing);
  }

  const TWICE := JobOptions(0, 0, 2, None, None, None, Some(Immediately(1)))
  const ONCE := JobOptions(0, 0, 1, None, None, None, None)

  /** Job 1 is the only one, waiting, with `made` attempts behind it. */
  ghost predicate OneWaiting(s: Store, made: nat, completed: map<nat, Id>) {
    && s.lastId == 1 && !s.isPaused && s.cols == NO_COLS.(waiting := [1], completed := completed)
    && 1 in s.jobs && s.jobs[1].opts == TWICE && s.jobs[1].attemptsMade == made
  }

  lemma TakeOne(l: Life, made: nat, completed: map<nat, Id>, c: Claim)
    requires OneWaiting(l.store, made, completed)
    ensures var s := Apply(l, Activate(c)).store;
            && s.lastId == 1 && !s.isPaused && s.cols == NO_COLS.(active := [1], completed := completed)
            && 1 in s.jobs && s.jobs[1] == l.store.jobs[1].(state := JobState.Active, token := Some(c.token))
  {
    hide Prepare;
    var cols := NO_COLS.(active := [1], completed := completed);
    assert l.store.cols.waiting[..0] == [] && [1] + l.store.cols.active == [1];
    assert PopBackPushFront(l.store.cols) == (cols, Some(1));
    PrepareRecorded(l.store, cols, 1, GetState(l.store, 1), c);
  }

  lemma EndOne(s: Store, ts: nat, env: Env)
    requires 1 in s.jobs && s.jobs[1].opts == TWICE && s.jobs[1].state == JobState.Active && s.cols.active == [1]
    ensures var s' := FinishRun(s, BUILTIN, 1, false, ts, env).0;
            && s'.lastId == s.lastId && s'.isPaused == s.isPaused && 1 in s'.jobs
            && s'.jobs[1].opts == TWICE && s'.jobs[1].attemptsMade == s.jobs[1].attemptsMade + 1
            && s'.cols == s.cols.(active := [], completed := s.cols.completed[ts := 1],
                                  waiting := (if s.jobs[1].attemptsMade == 0 then [1] else []) + s.cols.waiting)
  {
    hide MoveToEnd;
    MoveToEndIs(s, 1, false, ts);
    assert Without<Id>([1], 1) == [];
  }

  lemma RunOne(l: Life, made: nat, completed: map<nat, Id>, c: Claim, ts: nat, env: Env)
    requires OneWaiting(l.store, made, completed)
    ensures 1 in Apply(l, Activate(c)).store.cols.active
    ensures var s' := Apply(Apply(l, Activate(c)), Finish(1, false, ts, env, BUILTIN)).store;
            var ended := completed[ts := 1];
            && s'.lastId == 1 && !s'.isPaused && 1 in s'.jobs
            && s'.cols == NO_COLS.(waiting := if made == 0 then [1] else [], completed := ended)
            && (made == 0 ==> OneWaiting(s', 1, ended))
  {
    hide MoveToActive, FinishRun;
    TakeOne(l, made, completed, c);
    EndOne(Apply(l, Activate(c)).store, ts, env);
  }

  lemma FirstJob(now: int)
    ensures OneWaiting(Apply(START, Add(TWICE, false, now)).store, 0, map[])
  {
  }

  /** Job 1 is added, and runs and completes twice. */
  function RunTwice(c: Claim, env: Env, now: int, ts1: nat, ts2: nat): seq<Op> {
    [Add(TWICE, false, now), Activate(c), Finish(1, false, ts1, env, BUILTIN),
     Activate(c), Finish(1, false, ts2, env, BUILTIN)]
  }

  /** All that is left is job 1 in the completed set, twice. */
  ghost predicate DoneTwice(l: Life, ts1: nat, ts2: nat) {
    && l.store.lastId == 1 && !l.store.isPaused
    && l.store.cols == NO_COLS.(completed := map[ts1 := 1, ts2 := 1])
  }

  lemma RanTwice(c: Claim, env: Env, now: int, ts1: nat, ts2: nat)
    ensures var ops := RunTwice(c, env, now, ts1, ts2);
            Runs(START, ops) && DoneTwice(Run(START, ops), ts1, ts2)
  {
    hide Apply, Run, Runs;
    var add, take := Add(TWICE, false, now), Activate(c);
    var end1, end2 := Finish(1, false, ts1, env, BUILTIN), Finish(1, false, ts2, env, BUILTIN);
    var l1 := Apply(START, add);
    FirstJob(now);
    RunOne(l1, 0, map[], c, ts1, env);
    var l3 := Apply(Apply(l1, take), end1);
    RunOne(l3, 1, map[ts1 := 1], c, ts2, env);
    Stop(Apply(Apply(l3, take), end2));
    Then(Apply(l3, take), end2, [], [end2]);
    Then(l3, take, [end2], [take, end2]);
    Then(Apply(l1, take), end1, [take, end2], [end1, take, end2]);
    Then(l1, take, [end1, take, end2], [take, end1, take, end2]);
    Then(START, add, [take, end1, take, end2], [add, take, end1, take, end2]);
  }

  lemma SecondJob(l: Life, now: int, ts1: nat, ts2: nat)
    requires DoneTwice(l, ts1, ts2) && ts1 != ts2
    ensures var s := Apply(l, Add(ONCE, false, now)).store;
            && 2 in s.cols.waiting && 2 !in s.cols.completed.Values
            && !GetMetrics(s, 0).AllJobsCompleted()
    ensures var s := Apply(Apply(l, Add(ONCE, false, now)), PauseOrResume).store;
            && 2 in s.cols.paused && 2 !in s.cols.completed.Values
            && GetMetrics(s, 0).AllJobsCompleted()
  {
    var s := Apply(l, Add(ONCE, false, now)).store;
    assert s.cols == l.store.cols.(waiting := [2]);
    assert [] + s.cols.waiting == [2];
    assert s.cols.completed.Keys == {ts1, ts2};
  }

  /**
    * With a repeat policy the test is fooled by a pause: job 1 runs and completes
    * twice and job 2 is added. While job 2 waits the test says no; once the queue
    * is paused, and job 2 is in the paused list, the counters say that all jobs
    * have completed.
    */
  lemma RepeatsFoolTheTest(c: Claim, env: Env, now: int, ts1: nat, ts2: nat)
    requires TWO32 <= ts1 < ts2
    ensures var ops := RunTwice(c, env, now, ts1, ts2) + [Add(ONCE, false, now)];
            && Runs(START, ops)
            && !GetMetrics(Run(START, ops).store, 0).AllJobsCompleted()
            && 2 in Run(START, ops).store.cols.waiting
    ensures var ops := RunTwice(c, env, now, ts1, ts2) + [Add(ONCE, false, now), PauseOrResume];
            && Runs(START, ops)
            && GetMetrics(Run(START, ops).store, 0).AllJobsCompleted()
            && 2 in Run(START, ops).store.cols.paused
            && 2 !in Run(START, ops).store.cols.completed.Values
  {
    hide Apply, Run, Runs, RunTwice, GetMetrics;
    var twice, add, pause := RunTwice(c, env, now, ts1, ts2), Add(ONCE, false, now), PauseOrResume;
    RanTwice(c, env, now, ts1, ts2);
    var l := Run(START, twice);
    SecondJob(l, now, ts1, ts2);
    Stop(Apply(l, add));
    Then(l, add, [], [add]);
    RunJoin(START, twice, [add]);
    Stop(Apply(Apply(l, add), pause));
    Then(Apply(l, add), pause, [], [pause]);
    Then(l, add, [pause], [add, pause]);
    RunJoin(START, twice, [add, pause]);
  }
}
