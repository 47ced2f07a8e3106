// No job is lost: over every run of the lifecycle, every accepted job is in
// exactly one place if and only if no operation reused a score that was taken.
module Conservation {
  import opened Collections
  import opened Policy
  import opened Stores
  import opened Counts
  import opened Queues
  import opened Lifecycle
  import opened Words

  /**
    * Nothing is overwritten: the score the operation writes to is free, at most
    * one job is overdue, and no delay is negative. A caller can tell beforehand.
    */
  ghost predicate Unused(l: Life, op: Op) {
    var c := l.store.cols;
    match op
    case Add(opts, _, now) =>
      !Strayed(opts) && (opts.delayMs >= MIN_DELAY_MS ==> Unsigned(now + opts.delayMs) !in c.delayed)
    case Finish(id, failed, ts, _, _) =>
      && Unsigned(ts) !in (if failed then c.failed else c.completed)
      && (id in l.store.jobs && Verdict(l.store, op).ToDelayed? ==> Unsigned(Verdict(l.store, op).score) !in c.delayed)
    case Promote(nowMs, nowMicros) =>
      var missed := GetDelayedAt(c.delayed, nowMs, nowMs + MIN_DELAY_MS).missed;
      missed == [] || (|missed| == 1 && Unsigned(nowMicros) !in c.failed)
    case _ => true
  }

  lemma OverwritesSomething(m: map<nat, Id>, score: int)
    ensures (exists j: Id :: Overwrites(m, score, j)) <==> Unsigned(score) in m
  {
    if Unsigned(score) in m {
      assert Overwrites(m, score, m[Unsigned(score)]);
    }
  }

  lemma AddLosesIff(l: Life, op: Op)
    requires op.Add?
    ensures Unused(l, op) <==> forall j :: !Loses(l, op, j)
  {
    OverwritesSomething(l.store.cols.delayed, op.now + op.opts.delayMs);
    if Strayed(op.opts) {
      assert Loses(l, op, l.store.lastId + 1);
    } else if !Unused(l, op) {
      var j: Id :| Overwrites(l.store.cols.delayed, op.now + op.opts.delayMs, j);
      assert Loses(l, op, j);
    }
  }

  lemma FinishLosesIff(l: Life, op: Op)
    requires op.Finish? && op.ts >= 0 && op.id in l.store.jobs
    ensures Unused(l, op) <==> forall j :: !Loses(l, op, j)
  {
    hide Verdict;
    var ended := if op.failed then l.store.cols.failed else l.store.cols.completed;
    OverwritesSomething(ended, op.ts);
    if Unsigned(op.ts) in ended {
      var j: Id :| Overwrites(ended, op.ts, j);
      assert Loses(l, op, j);
    } else if Verdict(l.store, op).ToDelayed? {
      OverwritesSomething(l.store.cols.delayed, Verdict(l.store, op).score);
      if Unsigned(Verdict(l.store, op).score) in l.store.cols.delayed {
        var j: Id :| Overwrites(l.store.cols.delayed, Verdict(l.store, op).score, j);
        assert Loses(l, op, j);
      }
    }
  }

  lemma PollLosesIff(failed: map<nat, Id>, missed: seq<Id>, ts: int)
    requires forall i, j :: 0 <= i < j < |missed| ==> missed[i] != missed[j]
    ensures missed == [] || (|missed| == 1 && Unsigned(ts) !in failed) <==>
            forall j :: !PollLoses(failed, missed, ts, j)
  {
    OverwritesSomething(failed, ts);
    if |missed| > 1 {
      assert PollLoses(failed, missed, ts, missed[0]);
    } else if |missed| == 1 && Unsigned(ts) in failed {
      var j: Id :| Overwrites(failed, ts, j);
      assert PollLoses(failed, missed, ts, j);
    }
  }

  lemma PromoteLosesIff(l: Life, op: Op)
    requires Inv(l) && op.Promote?
    ensures Unused(l, op) <==> forall j :: !Loses(l, op, j)
  {
    hide GetDelayedAt;
    MissedAreFailable(l, op.nowMs);
    var missed := GetDelayedAt(l.store.cols.delayed, op.nowMs, op.nowMs + MIN_DELAY_MS).missed;
    DistinctIfOnce(missed);
    PollLosesIff(l.store.cols.failed, missed, op.nowMicros);
    forall j ensures Loses(l, op, j) <==> PollLoses(l.store.cols.failed, missed, op.nowMicros, j) {
    }
  }

  /** An operation loses nothing exactly when what it writes to is unused. */
  lemma LosesIff(l: Life, op: Op)
    requires Inv(l) && Enabled(l, op) && Plausible(l, op)
    ensures Unused(l, op) <==> forall j :: !Loses(l, op, j)
  {
    match op
    case Add(_, _, _) => AddLosesIff(l, op);
    case Finish(id, _, _, _, _) => assert SpotOk(At(l, id)); FinishLosesIff(l, op);
    case Promote(_, _) => PromoteLosesIff(l, op);
    case _ =>
  }

  lemma ConservedStep(l: Life, op: Op, l': Life)
    requires Inv(l) && StepEffect(l, op, l')
    ensures Conserved(l') <==> Conserved(l) && forall j :: !Loses(l, op, j)
  {
    hide Loses, At;
    forall j
      ensures At(l', j).Places() == Bit(j in l'.accepted)
        <==> At(l, j).Places() == Bit(j in l.accepted) && !Loses(l, op, j)
    {
      SpotBound(l, j);
    }
  }

  lemma SpotBound(l: Life, j: Id)
    requires Inv(l)
    ensures At(l, j).Places() <= Bit(j in l.accepted)
  {
    assert SpotOk(At(l, j));
  }

  predicate Runs(l: Life, ops: seq<Op>)
    decreases |ops|
  {
    ops == [] || (Enabled(l, ops[0]) && Runs(Apply(l, ops[0]), ops[1..]))
  }

  function Run(l: Life, ops: seq<Op>): Life
    requires Runs(l, ops)
    decreases |ops|
  {
    if ops == [] then l else Run(Apply(l, ops[0]), ops[1..])
  }

  lemma Stop(l: Life)
    ensures Runs(l, []) && Run(l, []) == l
  {
  }

  lemma Then(l: Life, op: Op, rest: seq<Op>, all: seq<Op>)
    requires Enabled(l, op) && Runs(Apply(l, op), rest) && all == [op] + rest
    ensures Runs(l, all) && Run(l, all) == Run(Apply(l, op), rest)
  {
    assert all[1..] == rest;
  }

  lemma {:induction false} RunJoin(l: Life, first: seq<Op>, second: seq<Op>)
    requires Runs(l, first) && Runs(Run(l, first), second)
    ensures Runs(l, first + second) && Run(l, first + second) == Run(Run(l, first), second)
    decreases |first|
  {
    hide Apply, Enabled;
    if first == [] {
      assert first + second == second;
    } else {
      RunJoin(Apply(l, first[0]), first[1..], second);
      Then(l, first[0], first[1..] + second, first + second);
    }
  }

  ghost predicate PlausibleRun(l: Life, ops: seq<Op>)
    requires Runs(l, ops)
    decreases |ops|
  {
    ops == [] || (Plausible(l, ops[0]) && PlausibleRun(Apply(l, ops[0]), ops[1..]))
  }

  /** Every operation of the run finds what it writes to unused. */
  ghost predicate UnusedRun(l: Life, ops: seq<Op>)
    requires Runs(l, ops)
    decreases |ops|
  {
    ops == [] || (Unused(l, ops[0]) && UnusedRun(Apply(l, ops[0]), ops[1..]))
  }

  lemma {:induction false} RunConserves(l: Life, ops: seq<Op>)
    requires Inv(l) && Runs(l, ops) && PlausibleRun(l, ops)
    ensures Inv(Run(l, ops))
    ensures Conserved(Run(l, ops)) <==> Conserved(l) && UnusedRun(l, ops)
    decreases |ops|
  {
    hide Unused, Conserved, Inv, Plausible;
    if ops == [] {
    } else {
      var l' := Apply(l, ops[0]);
      StepKeeps(l, ops[0]);
      LosesIff(l, ops[0]);
      ConservedStep(l, ops[0], l');
      RunConserves(l', ops[1..]);
    }
  }

  /**
    * From an empty store, every accepted job is in exactly one place at the end
    * of a run if and only if the run never wrote to a score in use. A job lost on
    * the way never comes back.
    */
  lemma NoJobLostIff(ops: seq<Op>)
    requires Runs(START, ops) && PlausibleRun(START, ops)
    ensures Conserved(Run(START, ops)) <==> UnusedRun(START, ops)
  {
    StartOk();
    RunConserves(START, ops);
  }

  /** Two jobs due at the same millisecond: the second insertion overwrites the first. */
  lemma SameMillisecond(opts: JobOptions, now: int)
    requires opts.delayMs >= MIN_DELAY_MS && opts.priority < TWO32 && opts.repeat.None? && now >= TWO32
    ensures var ops := [Add(opts, false, now), Add(opts, false, now)];
            && Runs(START, ops) && PlausibleRun(START, ops)
            && Run(START, ops).accepted == {1, 2}
            && At(Run(START, ops), 1).Places() == 0
            && !Conserved(Run(START, ops))
  {
    var add := Add(opts, false, now);
    var l1 := Apply(START, add);
    var l2 := Apply(l1, add);
    var due: nat := now + opts.delayMs;
    assert l1.store.cols == NO_COLS.(delayed := map[due := 1]);
    assert l2.store.cols == NO_COLS.(delayed := map[due := 2]);
    forall m: map<nat, Id> | m == map[] ensures InMap(m, 1) == 0 {
      assert KeysOf(m, 1) == {};
    }
    assert KeysOf(l2.store.cols.delayed, 1) == {};
    assert [add, add][1..] == [add];
    assert Run(START, [add, add]) == Run(l1, [add]) == l2;
    assert At(l2, 1).Places() == 0;
  }

  /** A negative delay: the insertion is accepted and recorded, and the job is nowhere. */
  lemma NegativeDelay(opts: JobOptions, now: int)
    requires -TWO63 <= opts.delayMs < 0 && opts.priority < TWO32 && opts.repeat.None?
    ensures var ops := [Add(opts, false, now)];
            && Runs(START, ops) && PlausibleRun(START, ops)
            && Run(START, ops).accepted == {1} && 1 in Run(START, ops).store.jobs
            && At(Run(START, ops), 1).Places() == 0
  {
    var add := Add(opts, false, now);
    var l := Apply(START, add);
    assert l.store.cols == NO_COLS;
    assert KeysOf(map[], 1) == {};
    assert [add][1..] == [];
    assert Run(START, [add]) == l;
  }

  lemma TwoDelayed(first: JobOptions, second: JobOptions, now: int)
    requires MIN_DELAY_MS <= first.delayMs < second.delayMs && now >= 0
    ensures var l := Apply(Apply(START, Add(first, false, now)), Add(second, false, now));
            && l.accepted == {1, 2}
            && l.store.cols == NO_COLS.(delayed := map[now + first.delayMs := 1, now + second.delayMs := 2])
  {
    var k1: nat, k2: nat := now + first.delayMs, now + second.delayMs;
    var l1 := Apply(START, Add(first, false, now));
    assert l1.store.cols == NO_COLS.(delayed := map[k1 := 1]);
  }

  lemma BothMissed(k1: nat, k2: nat, nowMs: int)
    requires k1 < k2 < nowMs - 1
    ensures GetDelayedAt(map[k1 := 1, k2 := 2], nowMs, nowMs + MIN_DELAY_MS).missed == [1, 2]
  {
    var d: map<nat, Id> := map[k1 := 1, k2 := 2];
    var none: map<nat, Id> := map[];
    assert DueBetween(d, nowMs, nowMs + MIN_DELAY_MS) == none;
    assert d - none.Keys == d;
    assert OverdueAt(d, nowMs) == d == none[k1 := 1][k2 := 2];
    ValuesEmpty<Id>(none);
    ValuesAppend<Id>(none, k1, 1);
    ValuesAppend<Id>(none[k1 := 1], k2, 2);
  }

  /** Two jobs overdue at one poll: both fail with the same timestamp, and the first is nowhere. */
  lemma TwoOverdue(first: JobOptions, second: JobOptions, now: int, nowMs: int, nowMicros: int)
    requires MIN_DELAY_MS <= first.delayMs < second.delayMs && now >= TWO32
    requires first.priority < TWO32 && second.priority < TWO32 && first.repeat.None? && second.repeat.None?
    requires now + second.delayMs < nowMs - 1 && nowMicros >= TWO32
    ensures var l := Apply(Apply(START, Add(first, false, now)), Add(second, false, now));
            var l' := Apply(l, Promote(nowMs, nowMicros));
            && Inv(l) && Conserved(l)
            && l'.accepted == {1, 2} && At(l', 1).Places() == 0
  {
    hide Inv, Conserved, At, GetDelayedAt, AddJob, PromoteJobs;
    var poll := Promote(nowMs, nowMicros);
    var l := Apply(Apply(START, Add(first, false, now)), Add(second, false, now));
    TwoConserved(first, second, now);
    TwoDelayed(first, second, now);
    StepKeeps(l, poll);
    BothMissed(now + first.delayMs, now + second.delayMs, nowMs);
    assert Loses(l, poll, 1);
    SpotBound(l, 1);
    assert At(Apply(l, poll), 1).Places() + Bit(Loses(l, poll, 1)) <= At(l, 1).Places();
  }

  lemma TwoConserved(first: JobOptions, second: JobOptions, now: int)
    requires MIN_DELAY_MS <= first.delayMs < second.delayMs && now >= TWO32
    requires first.priority < TWO32 && second.priority < TWO32 && first.repeat.None? && second.repeat.None?
    ensures var l := Apply(Apply(START, Add(first, false, now)), Add(second, false, now));
            Inv(l) && Conserved(l)
  {
    hide Inv, Conserved, At, AddJob;
    var add1, add2 := Add(first, false, now), Add(second, false, now);
    var l1 := Apply(START, add1);
    StartOk();
    OneDelayed(first, now);
    StepKeeps(START, add1);
    LosesIff(START, add1);
    ConservedStep(START, add1, l1);
    StepKeeps(l1, add2);
    LosesIff(l1, add2);
    ConservedStep(l1, add2, Apply(l1, add2));
  }

  lemma OneDelayed(opts: JobOptions, now: int)
    requires MIN_DELAY_MS <= opts.delayMs && now >= 0
    ensures var l := Apply(START, Add(opts, false, now));
            l.store.lastId == 1 && l.store.cols == NO_COLS.(delayed := map[now + opts.delayMs := 1])
  {
  }

  /**
    * With a repeat policy the law fails: a successful run that is repeated stays
    * in the completed set and is queued again. This happens exactly when the
    * policy decides to repeat.
    */
  lemma RepeatsOccupyTwoPlaces(s: Store, op: Op)
    requires op.Finish? && !op.failed && op.ts >= 0 && op.id in s.jobs && s.jobs[op.id].state == JobState.Active
    requires Queued(s.cols, op.id) == 1 && op.id in s.cols.active
    ensures var c := FinishRun(s, op.strategies, op.id, false, op.ts, op.env).0.cols;
            && op.id in c.completed.Values
            && Queued(c, op.id) == Bit(Requeues(Verdict(s, op)))
  {
    hide AfterSuccess, AfterFailure;
    SucceededCols(s, op);
    RetiredCount(s.cols, op.id, false, op.ts, op.id);
    var k: nat := op.ts;
    assert k in KeysOf(Retired(s.cols, op.id, false, op.ts).completed, op.id);
    RequeuedCount(Retired(s.cols, op.id, false, op.ts), op.id, Verdict(s, op));
  }

  /** The collections after a successful run has been settled. */
  function Requeued(c: Cols, id: Id, next: Next): Cols {
    match next
    case ToWait => c.(waiting := [id] + c.waiting)
    case ToDelayed(score) => c.(delayed := c.delayed[Unsigned(score) := id])
    case _ => c
  }

  lemma SucceededCols(s: Store, op: Op)
    requires op.Finish? && !op.failed && op.ts >= 0 && op.id in s.jobs && s.jobs[op.id].state == JobState.Active
    ensures FinishRun(s, op.strategies, op.id, false, op.ts, op.env).0.cols
         == Requeued(Retired(s.cols, op.id, false, op.ts), op.id, Verdict(s, op))
  {
    hide MoveToEnd, AfterSuccess, AfterFailure;
    MoveToEndIs(s, op.id, false, op.ts);
  }

  lemma RequeuedCount(c: Cols, id: Id, next: Next)
    requires Queued(c, id) == 0 && InMap(c.completed, id) > 0
    ensures var c' := Requeued(c, id, next);
            id in c'.completed.Values && Queued(c', id) == Bit(Requeues(next))
  {
    InMapPositive(c.completed, id);
    assert InList([id] + c.waiting, id) == 1 + InList(c.waiting, id);
    if next.ToDelayed? {
      InMapPositive(c.delayed, id);
      InMapStore(c.delayed, Unsigned(next.score), id, id);
    }
  }

  /**
    * Removal by id tries the id as a score first. It takes out exactly the entries
    * of that id if and only if the id is no score, or the score of its own only entry.
    */
  lemma RemovalIsExactIff(m: map<nat, Id>, id: Id)
    ensures RemoveScored(m, id) == Dropping<nat, Id>(m, id) <==> id in m ==> KeysOf(m, id) == {id}
  {
    if id in m {
      if KeysOf(m, id) == {id} {
        forall k | k in m ensures k in Dropping<nat, Id>(m, id) <==> k != id {
          assert k in KeysOf(m, id) <==> m[k] == id;
        }
      }
      if RemoveScored(m, id) == Dropping<nat, Id>(m, id) {
        forall k | k in m ensures m[k] == id <==> k == id {
          assert k in Dropping<nat, Id>(m, id) <==> k in m - {id};
        }
        assert KeysOf(m, id) == {id};
      }
    }
  }
}
