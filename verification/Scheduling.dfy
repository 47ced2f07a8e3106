// The order in which jobs start: first the wait list in order of entry, through
// any pauses, then the prioritized set by priority and arrival.
module Scheduling {
  import opened Collections
  import opened Policy
  import opened Stores
  import opened Counts
  import opened Queues
  import opened Lifecycle
  import opened Conservation
  import opened Words
  import S = Scores
  import T = Tags

  // ---- Priority ----

  /** Records keep the options and the arrival number they were inserted with. */
  ghost predicate Inherits(jobs: map<Id, Job>, jobs': map<Id, Job>) {
    forall j: Id :: j in jobs' ==>
      j in jobs && jobs'[j].opts == jobs[j].opts && jobs'[j].arrival == jobs[j].arrival
  }

  predicate Ranked(jobs: map<Id, Job>, i: Id) {
    i in jobs && jobs[i].opts.priority > 0
  }

  /** Prioritized jobs are numbered in the order of their ids. */
  ghost predicate InOrder(s: Store) {
    && (forall i: Id :: i in s.jobs ==> i <= s.lastId && s.jobs[i].arrival <= s.priorityCounter)
    && (forall i: Id, j: Id :: Ranked(s.jobs, i) && Ranked(s.jobs, j) && i < j ==>
          s.jobs[i].arrival < s.jobs[j].arrival)
  }

  lemma InheritsKeeps(s: Store, s': Store)
    requires InOrder(s) && Inherits(s.jobs, s'.jobs)
    requires s'.lastId >= s.lastId && s'.priorityCounter >= s.priorityCounter
    ensures InOrder(s')
  {
  }

  lemma AddInOrder(l: Life, op: Op)
    requires InOrder(l.store) && op.Add?
    ensures InOrder(Apply(l, op).store)
  {
    hide Place;
    var s, s' := l.store, Apply(l, op).store;
    var id := s.lastId + 1;
    if !TooShort(op.opts) {
      assert s'.jobs == s.jobs[id := NewJob(op.opts, ArrivalOf(s, op.opts))];
    }
  }

  lemma ActivateInherits(l: Life, c: Claim)
    requires Inv(l)
    ensures Inherits(l.store.jobs, Apply(l, Activate(c)).store.jobs)
    ensures Apply(l, Activate(c)).store.lastId == l.store.lastId
    ensures Apply(l, Activate(c)).store.priorityCounter == l.store.priorityCounter
  {
    hide MoveToActive, Taken, SetLock, Inv;
    MoveToActiveIs(l, c);
    var (cols, r) := Taken(l.store.cols);
    if r.Some? {
      StartedInherits(l.store, cols, r.value, c);
    }
  }

  lemma StartedInherits(s: Store, cols: Cols, id: Id, c: Claim)
    requires id in s.jobs
    ensures Inherits(s.jobs, Started(s, cols, id, c).jobs)
    ensures Started(s, cols, id, c).lastId == s.lastId && Started(s, cols, id, c).priorityCounter == s.priorityCounter
  {
  }

  lemma FinishInherits(l: Life, op: Op)
    requires Inv(l) && op.Finish? && Enabled(l, op) && op.ts >= 0
    ensures Inherits(l.store.jobs, Apply(l, op).store.jobs)
    ensures Apply(l, op).store.lastId == l.store.lastId
    ensures Apply(l, op).store.priorityCounter == l.store.priorityCounter
  {
    hide FinishRun, Verdict, FinishedCols;
    FinishIs(l, op);
    var s' := Apply(l, op).store;
    forall j: Id | j in s'.jobs
      ensures j in l.store.jobs
      ensures s'.jobs[j].opts == l.store.jobs[j].opts && s'.jobs[j].arrival == l.store.jobs[j].arrival
    {
      assert j != op.id ==> Lookup(s'.jobs, j) == Lookup(l.store.jobs, j);
    }
  }

  lemma PromoteInherits(l: Life, op: Op)
    requires Inv(l) && op.Promote? && op.nowMicros >= TWO32
    ensures Inherits(l.store.jobs, Apply(l, op).store.jobs)
    ensures Apply(l, op).store.lastId == l.store.lastId
    ensures Apply(l, op).store.priorityCounter == l.store.priorityCounter
  {
    hide GetDelayedAt, FailMissed, Inv;
    PromoteIs(l, op.nowMs, op.nowMicros);
  }

  lemma StepInOrder(l: Life, op: Op)
    requires Inv(l) && Enabled(l, op) && Plausible(l, op) && InOrder(l.store)
    ensures InOrder(Apply(l, op).store)
  {
    hide Inv, InOrder, AddJob, MoveToActive, FinishRun, PromoteJobs;
    var s, s' := l.store, Apply(l, op).store;
    match op
    case Add(_, _, _) => AddInOrder(l, op);
    case Activate(c) => ActivateInherits(l, c); InheritsKeeps(s, s');
    case Finish(_, _, _, _, _) => FinishInherits(l, op); InheritsKeeps(s, s');
    case Promote(_, _) => PromoteInherits(l, op); InheritsKeeps(s, s');
    case _ => InheritsKeeps(s, s');
  }

  lemma {:induction false} RunInOrder(l: Life, ops: seq<Op>)
    requires Inv(l) && InOrder(l.store) && Runs(l, ops) && PlausibleRun(l, ops)
    ensures Inv(Run(l, ops)) && InOrder(Run(l, ops).store)
    decreases |ops|
  {
    hide Inv, InOrder, Apply, Enabled, Plausible;
    if ops == [] {
    } else {
      StepKeeps(l, ops[0]);
      StepInOrder(l, ops[0]);
      RunInOrder(Apply(l, ops[0]), ops[1..]);
    }
  }

  /** Job `i` goes before job `j`: a smaller priority number, or the same one and an earlier insertion. */
  predicate Before(jobs: map<Id, Job>, i: Id, j: Id)
    requires i in jobs && j in jobs
  {
    || jobs[i].opts.priority < jobs[j].opts.priority
    || (jobs[i].opts.priority == jobs[j].opts.priority && i < j)
  }

  /** The entry with the least score goes before every other entry. */
  lemma LeastGoesFirst(s: Store, k: nat)
    requires Scored(s) && InOrder(s) && s.priorityCounter < TWO32
    requires k in s.cols.prioritized && k != Least(s.cols.prioritized.Keys)
    ensures var m := s.cols.prioritized;
            var first := m[Least(m.Keys)];
            first in s.jobs && m[k] in s.jobs && Before(s.jobs, first, m[k])
  {
    var m := s.cols.prioritized;
    var least: nat := Least(m.Keys);
    var a, b := s.jobs[m[least]], s.jobs[m[k]];
    assert least < k;
    S.ScoreOrder(a.opts.priority, a.arrival, b.opts.priority, b.arrival);
    if m[k] < m[least] {
      assert b.arrival < a.arrival;
    }
  }

  /**
    * What every activation takes: the oldest waiting job, whatever its priority;
    * with none waiting, the prioritized job that goes before all others; and
    * nothing only when both are empty.
    */
  ghost predicate TakesInOrder(s: Store, r: Activation) {
    var c := s.cols;
    if c.waiting != [] then r.Ready? && r.id == c.waiting[|c.waiting| - 1]
    else if |c.prioritized| == 0 then r.NoJob?
    else
      && r.Ready? && r.id in c.prioritized.Values && r.id in s.jobs
      && forall j :: j in c.prioritized.Values && j != r.id ==> j in s.jobs && Before(s.jobs, r.id, j)
  }

  lemma ActivationOrder(l: Life, c: Claim)
    requires Inv(l) && InOrder(l.store)
    ensures TakesInOrder(l.store, MoveToActive(l.store, c).1)
  {
    MoveToActiveIs(l, c);
    var m := l.store.cols.prioritized;
    if l.store.cols.waiting == [] && |m| != 0 {
      var least: nat := Least(m.Keys);
      forall j | j in m.Values && j != m[least] ensures j in l.store.jobs && Before(l.store.jobs, m[least], j) {
        var k :| k in m && m[k] == j;
        LeastGoesFirst(l.store, k);
      }
    }
  }

  lemma StablePriority(ops: seq<Op>, c: Claim)
    requires Runs(START, ops) && PlausibleRun(START, ops)
    ensures TakesInOrder(Run(START, ops).store, MoveToActive(Run(START, ops).store, c).1)
  {
    StartOk();
    RunInOrder(START, ops);
    ActivationOrder(Run(START, ops), c);
  }

  // ---- First in, first out ----

  function Reverse(s: seq<Id>): seq<Id> {
    if s == [] then [] else Reverse(s[1..]) + [s[0]]
  }

  lemma {:induction false} ReverseJoin(s: seq<Id>, t: seq<Id>)
    ensures Reverse(s + t) == Reverse(t) + Reverse(s)
  {
    if s == [] {
      assert s + t == t;
      assert Reverse(t) + [] == Reverse(t);
    } else {
      assert (s + t)[1..] == s[1..] + t;
      ReverseJoin(s[1..], t);
      assert Reverse(t) + Reverse(s[1..]) + [s[0]] == Reverse(t) + (Reverse(s[1..]) + [s[0]]);
    }
  }

  /**
    * Everything that entered the wait list has left it in the order of entry or is
    * still in line; while paused the line is in the pause list.
    */
  ghost predicate Fifo(l: Life) {
    var c := l.store.cols;
    && (if l.store.isPaused then c.waiting == [] else c.paused == [])
    && l.entered == l.left + Reverse(c.waiting + c.paused)
  }

  /** The operation puts new entries where the store expects them while paused or not. */
  predicate Orderly(l: Life, op: Op) {
    match op
    case Add(opts, flag, _) => Unsigned(opts.delayMs) == 0 && opts.priority == 0 ==> flag == l.store.isPaused
    case Deliver(_) => !l.store.isPaused
    case _ => true
  }

  /** A new entry joins the end of the line, whichever list holds the line. */
  lemma JoinLine(entered: seq<Id>, left: seq<Id>, waiting: seq<Id>, paused: seq<Id>, id: Id)
    requires entered == left + Reverse(waiting + paused)
    ensures entered + [id] == left + Reverse([id] + waiting + paused)
    ensures waiting == [] ==> entered + [id] == left + Reverse(waiting + ([id] + paused))
  {
    var line := waiting + paused;
    ReverseJoin([id], line);
    assert Reverse([id]) == [id];
    assert [id] + waiting + paused == [id] + line;
    assert waiting == [] ==> waiting + ([id] + paused) == [id] + line;
    assert left + (Reverse(line) + [id]) == entered + [id];
  }

  /** What an insertion does to the two lists and the history of entries. */
  lemma AddLists(l: Life, op: Op)
    requires op.Add?
    ensures var c, l' := l.store.cols, Apply(l, op);
            var id := l.store.lastId + 1;
            && l'.store.isPaused == l.store.isPaused && l'.left == l.left && l'.store.lastId == id
            && if Unsigned(op.opts.delayMs) == 0 && op.opts.priority == 0
               then && l'.entered == l.entered + [id]
                    && l'.store.cols.waiting == (if op.flag then c.waiting else [id] + c.waiting)
                    && l'.store.cols.paused == (if op.flag then [id] + c.paused else c.paused)
               else l'.entered == l.entered && l'.store.cols.waiting == c.waiting && l'.store.cols.paused == c.paused
  {
    assert l.entered + [] == l.entered;
  }

  lemma AddFifoIff(l: Life, op: Op)
    requires Fifo(l) && op.Add?
    ensures Fifo(Apply(l, op)) <==> Orderly(l, op)
  {
    hide Apply;
    AddLists(l, op);
    JoinLine(l.entered, l.left, l.store.cols.waiting, l.store.cols.paused, l.store.lastId + 1);
  }

  lemma DeliverFifoIff(l: Life, op: Op)
    requires Fifo(l) && op.Deliver? && Enabled(l, op)
    ensures Fifo(Apply(l, op)) <==> Orderly(l, op)
  {
    JoinLine(l.entered, l.left, l.store.cols.waiting, l.store.cols.paused, op.id);
  }

  lemma PauseFifo(l: Life)
    requires Fifo(l)
    ensures Fifo(Apply(l, PauseOrResume))
  {
    var c := l.store.cols;
    assert [] + (c.paused + c.waiting) == c.paused + c.waiting;
    assert (c.waiting + c.paused) + [] == c.waiting + c.paused;
    assert c.paused == [] ==> c.paused + c.waiting == c.waiting + c.paused;
  }

  lemma TakenFifo(left: seq<Id>, waiting: seq<Id>, paused: seq<Id>)
    requires waiting != [] && paused == []
    ensures var n := |waiting| - 1;
            left + Reverse(waiting + paused) == left + [waiting[n]] + Reverse(waiting[..n] + paused)
  {
    var n := |waiting| - 1;
    ReverseJoin(waiting[..n], [waiting[n]]);
    assert waiting + paused == waiting[..n] + [waiting[n]] && waiting[..n] + paused == waiting[..n];
    assert Reverse([waiting[n]]) == [waiting[n]];
  }

  lemma ActivateFifo(l: Life, c: Claim)
    requires Inv(l) && Fifo(l)
    ensures Fifo(Apply(l, Activate(c)))
  {
    hide MoveToActive, Inv;
    MoveToActiveIs(l, c);
    if l.store.cols.waiting != [] {
      TakenFifo(l.left, l.store.cols.waiting, l.store.cols.paused);
    }
  }

  lemma FinishFifo(l: Life, op: Op)
    requires Inv(l) && Fifo(l) && op.Finish? && Enabled(l, op) && op.ts >= 0
    ensures Fifo(Apply(l, op))
  {
    hide FinishRun, Verdict, Inv;
    FinishIs(l, op);
  }

  lemma PromoteFifo(l: Life, op: Op)
    requires Inv(l) && Fifo(l) && op.Promote? && op.nowMicros >= TWO32
    ensures Fifo(Apply(l, op))
  {
    hide GetDelayedAt, FailMissed, Inv;
    PromoteIs(l, op.nowMs, op.nowMicros);
  }

  /** The order of entry survives an operation if and only if the operation is orderly. */
  lemma FifoStepIff(l: Life, op: Op)
    requires Inv(l) && Fifo(l) && Enabled(l, op) && Plausible(l, op)
    ensures Fifo(Apply(l, op)) <==> Orderly(l, op)
  {
    hide Inv, AddJob, MoveToActive, FinishRun, PromoteJobs;
    match op
    case Add(_, _, _) => AddFifoIff(l, op);
    case PauseOrResume => PauseFifo(l);
    case Activate(c) => ActivateFifo(l, c);
    case Finish(_, _, _, _, _) => FinishFifo(l, op);
    case Promote(_, _) => PromoteFifo(l, op);
    case Deliver(_) => DeliverFifoIff(l, op);
    case _ =>
  }

  ghost predicate OrderlyRun(l: Life, ops: seq<Op>)
    requires Runs(l, ops)
    decreases |ops|
  {
    ops == [] || (Orderly(l, ops[0]) && OrderlyRun(Apply(l, ops[0]), ops[1..]))
  }

  lemma {:induction false} RunFifo(l: Life, ops: seq<Op>)
    requires Inv(l) && Fifo(l) && Runs(l, ops) && PlausibleRun(l, ops) && OrderlyRun(l, ops)
    ensures Fifo(Run(l, ops))
    decreases |ops|
  {
    hide Inv, Fifo, Orderly, Apply, Enabled, Plausible;
    if ops == [] {
    } else {
      StepKeeps(l, ops[0]);
      FifoStepIff(l, ops[0]);
      RunFifo(Apply(l, ops[0]), ops[1..]);
    }
  }

  /** Over every orderly run, with any pauses, the ids have left the wait list in the order they entered it. */
  lemma FirstInFirstOut(ops: seq<Op>)
    requires Runs(START, ops) && PlausibleRun(START, ops) && OrderlyRun(START, ops)
    ensures var l := Run(START, ops);
            l.left <= l.entered && l.entered[|l.left|..] == Reverse(l.store.cols.waiting + l.store.cols.paused)
  {
    StartOk();
    RunFifo(START, ops);
  }

  lemma ActivateLeaves(l: Life, c: Claim)
    requires Inv(l) && l.store.cols.waiting != []
    ensures var l' := Apply(l, Activate(c));
            l'.left == l.left + [l.store.cols.waiting[|l.store.cols.waiting| - 1]] && l'.entered == l.entered
  {
    hide MoveToActive, Inv;
    MoveToActiveIs(l, c);
  }

  lemma {:induction false} ReverseFirst(s: seq<Id>)
    requires s != []
    ensures Reverse(s) != [] && Reverse(s)[0] == s[|s| - 1]
  {
    if |s| == 1 {
    } else {
      ReverseFirst(s[1..]);
    }
  }

  /**
    * A queue that does not notice the pause breaks the order: its next job goes to
    * the wait list of the paused store and is started before everything in line.
    */
  lemma StaleFlagOvertakes(l: Life, opts: JobOptions, now: int, c: Claim)
    requires Inv(l) && Fifo(l) && l.store.isPaused && l.store.cols.paused != []
    requires opts.delayMs == 0 && opts.priority == 0 && AddPlausible(l, Add(opts, false, now))
    ensures var l' := Apply(Apply(l, Add(opts, false, now)), Activate(c));
            && l'.left == l.left + [l.store.lastId + 1]
            && !(l'.left <= l'.entered)
  {
    hide Apply, Inv, AddEffect;
    var add := Add(opts, false, now);
    AddLists(l, add);
    AddKeeps(l, add);
    ActivateLeaves(Apply(l, add), c);
    ReverseFirst(l.store.cols.paused);
    NewIsNotPaused(l);
    var l' := Apply(Apply(l, add), Activate(c));
    assert l.store.cols.waiting + l.store.cols.paused == l.store.cols.paused;
    assert l'.left[|l.left|] != l'.entered[|l.left|];
  }

  /** From the empty store: add, pause, add, activate - and job 2 has started before job 1. */
  lemma StaleFlagRun(opts: JobOptions, now: int, c: Claim)
    requires opts.delayMs == 0 && opts.priority == 0 && opts.repeat.None?
    ensures var add := Add(opts, false, now);
            var l := Apply(Apply(Apply(Apply(START, add), PauseOrResume), add), Activate(c));
            l.entered == [1, 2] && l.left == [2]
  {
    hide Apply, Inv, Fifo, AddEffect;
    var add := Add(opts, false, now);
    var l := Apply(Apply(START, add), PauseOrResume);
    PausedOne(opts, now);
    StaleFlagOvertakes(l, opts, now, c);
    AddLists(l, add);
    AddKeeps(l, add);
    ActivateLeaves(Apply(l, add), c);
  }

  lemma PausedOne(opts: JobOptions, now: int)
    requires opts.delayMs == 0 && opts.priority == 0 && opts.repeat.None?
    ensures var l := Apply(Apply(START, Add(opts, false, now)), PauseOrResume);
            && Inv(l) && Fifo(l) && l.store.isPaused && l.store.lastId == 1
            && l.store.cols.paused == [1] && l.entered == [1] && l.left == []
  {
    hide Inv, Fifo, Apply, StepEffect;
    var add := Add(opts, false, now);
    var l := Apply(START, add);
    StartOk();
    StartFifo();
    StepKeeps(START, add);
    FifoStepIff(START, add);
    AddLists(START, add);
    StepKeeps(l, PauseOrResume);
    FifoStepIff(l, PauseOrResume);
    PauseLists(l);
  }

  lemma PauseLists(l: Life)
    requires !l.store.isPaused && l.store.cols.paused == []
    ensures var l' := Apply(l, PauseOrResume);
            && l'.store.isPaused && l'.store.lastId == l.store.lastId && l'.store.cols.paused == l.store.cols.waiting
            && l'.entered == l.entered && l'.left == l.left
  {
    assert [] + l.store.cols.waiting == l.store.cols.waiting;
  }

  lemma StartFifo()
    ensures Fifo(START)
  {
  }

  lemma NewIsNotPaused(l: Life)
    requires Inv(l)
    ensures l.store.lastId + 1 !in l.store.cols.paused
  {
    assert SpotOk(At(l, l.store.lastId + 1));
    assert InList(l.store.cols.paused, l.store.lastId + 1) == 0;
  }

  /** Pausing and resuming gives back the very same store exactly when the pause list was empty. */
  lemma PauseResumeRestoresIff(s: Store)
    requires !s.isPaused
    ensures PauseStore(PauseStore(s, true), false) == s <==> s.cols.paused == []
  {
    var c := s.cols;
    assert [] + (c.paused + c.waiting) == c.paused + c.waiting;
    if c.paused != [] {
      assert |c.paused + c.waiting| != |c.waiting|;
    } else {
      assert c.paused + c.waiting == c.waiting;
    }
  }

  /**
    * Pausing and resuming never changes which job is taken next while any waits,
    * and whatever the pause list already held is taken after all of them, in order.
    */
  lemma PauseKeepsTurn(s: Store)
    requires !s.isPaused
    ensures var c := PauseStore(PauseStore(s, true), false).cols;
            && Reverse(c.waiting) == Reverse(s.cols.waiting) + Reverse(s.cols.paused) && c.paused == []
            && (s.cols.waiting != [] ==> PopBackPushFront(c).1 == PopBackPushFront(s.cols).1)
  {
    var c := s.cols;
    assert [] + (c.paused + c.waiting) == c.paused + c.waiting;
    ReverseJoin(c.paused, c.waiting);
  }

  /** An id appended to the wait list is taken after all that wait; one put at the other end is taken next. */
  lemma PushedEnds(c: Cols, id: Id)
    ensures PopBackPushFront(Added(c, T.Wait, id, None, false)).1 == Some(id)
    ensures PopBackPushFront(Added(c, T.Wait, id, None, true)).1
         == if c.waiting == [] then Some(id) else PopBackPushFront(c).1
  {
  }

  // ---- The active list ----

  /** The position of the last activation of `id` in the history, or -1. */
  function LastAt(history: seq<Activated>, id: Id): (n: int)
    ensures -1 <= n < |history|
    ensures n >= 0 ==> history[n].id == id
    ensures forall i :: n < i < |history| ==> history[i].id != id
  {
    if history == [] then -1 else
      var n := |history| - 1;
      if history[n].id == id then n else LastAt(history[..n], id)
  }

  /** Every listed id has been activated, and the ids activated later come first. */
  ghost predicate NewestFirst(active: seq<Id>, history: seq<Activated>) {
    && (forall i :: 0 <= i < |active| ==> LastAt(history, active[i]) >= 0)
    && (forall i, j :: 0 <= i < j < |active| ==> LastAt(history, active[j]) < LastAt(history, active[i]))
  }

  lemma ActivatedNewest(active: seq<Id>, history: seq<Activated>, a: Activated)
    requires NewestFirst(active, history) && a.id !in active
    ensures NewestFirst([a.id] + active, history + [a])
  {
    assert (history + [a])[..|history|] == history;
    forall id | id in active ensures LastAt(history + [a], id) == LastAt(history, id) {
    }
    assert LastAt(history + [a], a.id) == |history|;
  }

  lemma PrefixNewest(active: seq<Id>, history: seq<Activated>)
    requires active != [] && NewestFirst(active, history)
    ensures var n := |active| - 1;
            && NewestFirst(active[..n], history) && LastAt(history, active[n]) >= 0
            && forall x :: x in active[..n] ==> LastAt(history, active[n]) < LastAt(history, x)
  {
    hide LastAt;
  }

  lemma OldestLast(rest: seq<Id>, history: seq<Activated>, id: Id)
    requires NewestFirst(rest, history) && LastAt(history, id) >= 0
    requires forall x :: x in rest ==> LastAt(history, id) < LastAt(history, x)
    ensures NewestFirst(rest + [id], history) && rest + [] == rest
  {
    hide LastAt;
  }

  lemma {:induction false} WithoutNewest(active: seq<Id>, history: seq<Activated>, id: Id)
    requires NewestFirst(active, history)
    ensures NewestFirst(Without<Id>(active, id), history)
    ensures forall x :: x in Without<Id>(active, id) ==> x in active
    decreases |active|
  {
    hide NewestFirst, LastAt;
    if active == [] {
    } else {
      var n := |active| - 1;
      PrefixNewest(active, history);
      WithoutNewest(active[..n], history, id);
      OldestLast(Without<Id>(active[..n], id), history, active[n]);
    }
  }

  lemma ActivateNewest(l: Life, c: Claim)
    requires Inv(l) && NewestFirst(l.store.cols.active, l.activations)
    ensures var l' := Apply(l, Activate(c)); NewestFirst(l'.store.cols.active, l'.activations)
  {
    hide MoveToActive, NewestFirst, LastAt;
    MoveToActiveIs(l, c);
    var (cols, r) := Taken(l.store.cols);
    if r.Some? {
      TakenCount(l.store.cols, r.value);
      assert SpotOk(At(l, r.value));
      assert cols.active == [r.value] + l.store.cols.active;
      ActivatedNewest(l.store.cols.active, l.activations, Activated(r.value, c.token));
    }
  }

  lemma FinishNewest(l: Life, op: Op)
    requires Inv(l) && op.Finish? && Enabled(l, op) && op.ts >= 0
    requires NewestFirst(l.store.cols.active, l.activations)
    ensures var l' := Apply(l, op); NewestFirst(l'.store.cols.active, l'.activations)
  {
    hide FinishRun, Verdict, Inv, NewestFirst;
    FinishIs(l, op);
    WithoutNewest(l.store.cols.active, l.activations, op.id);
  }

  lemma PromoteNewest(l: Life, op: Op)
    requires Inv(l) && op.Promote? && op.nowMicros >= TWO32
    ensures var l' := Apply(l, op);
            l'.store.cols.active == l.store.cols.active && l'.activations == l.activations
  {
    hide GetDelayedAt, FailMissed, Inv;
    PromoteIs(l, op.nowMs, op.nowMicros);
  }

  lemma PlaceNewest(c: Cols, opts: JobOptions, pc: nat, id: Id, flag: bool, now: int)
    ensures Place(c, opts, pc, id, flag, now).active == c.active
  {
    hide S.Score, Unsigned, Push;
  }

  lemma AddNewest(l: Life, op: Op)
    requires op.Add?
    ensures var l' := Apply(l, op);
            l'.store.cols.active == l.store.cols.active && l'.activations == l.activations
  {
    hide Place, NewJob, TooShort;
    var id := l.store.lastId + 1;
    PlaceNewest(l.store.cols, op.opts, ArrivalOf(l.store, op.opts), id, op.flag, op.now);
  }

  lemma StepNewest(l: Life, op: Op)
    requires Inv(l) && Enabled(l, op) && Plausible(l, op) && NewestFirst(l.store.cols.active, l.activations)
    ensures var l' := Apply(l, op); NewestFirst(l'.store.cols.active, l'.activations)
  {
    hide Inv, AddJob, MoveToActive, FinishRun, PromoteJobs, NewestFirst;
    match op
    case Add(_, _, _) => AddNewest(l, op);
    case Activate(c) => ActivateNewest(l, c);
    case Finish(_, _, _, _, _) => FinishNewest(l, op);
    case Promote(_, _) => PromoteNewest(l, op);
    case _ =>
  }

  lemma {:induction false} RunNewest(l: Life, ops: seq<Op>)
    requires Inv(l) && Runs(l, ops) && PlausibleRun(l, ops) && NewestFirst(l.store.cols.active, l.activations)
    ensures NewestFirst(Run(l, ops).store.cols.active, Run(l, ops).activations)
    decreases |ops|
  {
    hide Inv, NewestFirst, Apply, Enabled, Plausible;
    if ops == [] {
    } else {
      StepKeeps(l, ops[0]);
      StepNewest(l, ops[0]);
      RunNewest(Apply(l, ops[0]), ops[1..]);
    }
  }

  /** Over every run, the active list holds activated jobs only, the latest activation first. */
  lemma ActiveNewestFirst(ops: seq<Op>)
    requires Runs(START, ops) && PlausibleRun(START, ops)
    ensures NewestFirst(Run(START, ops).store.cols.active, Run(START, ops).activations)
  {
    StartOk();
    RunNewest(START, ops);
  }
}
