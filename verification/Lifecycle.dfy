// The job lifecycle with each queue operation atomic: the state machine over
// which conservation, scheduling order and lock fencing are stated.
module Lifecycle {
  import opened Collections
  import opened Policy
  import opened Stores
  import opened Counts
  import opened Queues
  import opened TimedMaps
  import opened Words
  import S = Scores
  import T = Tags

  datatype Activated = Activated(id: Id, token: JobToken)

  /**
    * `promoted` holds the ids on their way through the promotion timer. The rest
    * is history: the ids whose insertion succeeded, the activations in order, and
    * the ids in the order they entered and left the wait list.
    */
  datatype Life = Life(
    store: Store,
    promoted: multiset<Id>,
    accepted: set<Id>,
    activations: seq<Activated>,
    entered: seq<Id>,
    left: seq<Id>)

  datatype Op =
    | Add(opts: JobOptions, flag: bool, now: int)
    | PauseOrResume
    | Activate(claim: Claim)
    | Finish(id: Id, failed: bool, ts: int, env: Env, strategies: Strategies)
    | Promote(nowMs: int, nowMicros: int)
    | Deliver(id: Id)
    | Extend(id: Id, claim: Claim)
    | CheckStalled(interval: nat, now: int)
    | PurgeLocks(now: int)
    | ToggleExpiration

  const START := Life(Empty(), multiset{}, {}, [], [], [])

  predicate Enabled(l: Life, op: Op) {
    match op
    case Finish(id, _, _, _, _) => id in l.store.cols.active
    case Deliver(id) => id in l.promoted
    case _ => true
  }

  /** The id an insertion appends to the wait or pause list, if any. */
  function Enqueued(opts: JobOptions, id: Id): seq<Id> {
    if Unsigned(opts.delayMs) == 0 && opts.priority == 0 then [id] else []
  }

  function Apply(l: Life, op: Op): Life
    requires Enabled(l, op)
  {
    match op
    case Add(opts, flag, now) =>
      var (s, r) := AddJob(l.store, opts, flag, now);
      if r.Accepted?
      then l.(store := s, accepted := l.accepted + {r.id}, entered := l.entered + Enqueued(opts, r.id))
      else l.(store := s)
    case PauseOrResume => l.(store := PauseStore(l.store, !l.store.isPaused))
    case Activate(c) =>
      var (s, r) := MoveToActive(l.store, c);
      if r.NoJob? then l.(store := s)
      else l.(store := s, activations := l.activations + [Activated(r.id, c.token)],
              left := if l.store.cols.waiting == [] then l.left else l.left + [r.id])
    case Finish(id, failed, ts, env, strategies) =>
      var s := FinishRun(l.store, strategies, id, failed, ts, env).0;
      l.(store := s)
    case Promote(nowMs, nowMicros) =>
      var (s, jobs) := PromoteJobs(l.store, nowMs, nowMicros);
      l.(store := s, promoted := l.promoted + multiset(jobs))
    case Deliver(id) =>
      l.(store := AddItem(l.store, T.Wait, id, None, true), promoted := l.promoted - multiset{id},
         entered := l.entered + [id])
    case Extend(id, c) => l.(store := ExtendLock(l.store, id, c).0)
    case CheckStalled(interval, now) => l.(store := TakeStallLock(l.store, interval, now))
    case PurgeLocks(now) => l.(store := l.store.(locks := LazyStep(l.store.locks, now, Purge).0))
    case ToggleExpiration => l.(store := l.store.(locks := LazyStep(l.store.locks, 0, Toggle).0))
  }

  /** Where the occurrences of one id are, and what its record says. */
  datatype Spot = Spot(
    listed: nat,
    prioritized: nat,
    active: nat,
    delayed: nat,
    promoted: nat,
    completed: nat,
    failed: nat,
    record: Option<Job>,
    accepted: bool)
  {
    function Places(): nat {
      listed + prioritized + active + delayed + promoted + completed + failed
    }

    function Pending(): nat {
      listed + prioritized + active + delayed + promoted
    }
  }

  ghost function At(l: Life, id: Id): Spot {
    var c := l.store.cols;
    Spot(InList(c.waiting, id) + InList(c.paused, id), InMap(c.prioritized, id), InList(c.active, id),
         InMap(c.delayed, id), l.promoted[id], InMap(c.completed, id), InMap(c.failed, id),
         Lookup(l.store.jobs, id), id in l.accepted)
  }

  predicate Unstarted(state: JobState) {
    state == JobState.Delayed || state == JobState.Failed || state == JobState.Completed
  }

  /** What every operation keeps of every id, with no repeat policies about. */
  ghost predicate SpotOk(p: Spot) {
    && p.Places() <= Bit(p.accepted)
    && (p.record.Some? ==> p.accepted && p.record.value.opts.repeat.None?)
    && (p.Pending() > 0 ==> p.record.Some?)
    && (p.active > 0 ==> p.record.value.state == JobState.Active)
    && (p.delayed + p.promoted > 0 ==> Unstarted(p.record.value.state))
  }

  /** Timestamps and due times are too large to be mistaken for ids. */
  ghost predicate HighScores(c: Cols) {
    && (forall k :: k in c.delayed ==> k >= TWO32)
    && (forall k :: k in c.completed ==> k >= TWO32)
    && (forall k :: k in c.failed ==> k >= TWO32)
  }

  /** Every entry of the prioritized set is scored by its priority and arrival. */
  ghost predicate Scored(s: Store) {
    forall k :: k in s.cols.prioritized ==>
      && s.cols.prioritized[k] in s.jobs
      && var job := s.jobs[s.cols.prioritized[k]];
         && 0 < job.opts.priority < TWO32
         && 0 < job.arrival <= s.priorityCounter
         && k == S.Score(job.opts.priority, job.arrival)
  }

  ghost predicate Inv(l: Life) {
    && (forall id :: SpotOk(At(l, id)))
    && (forall id :: id in l.accepted ==> 0 < id <= l.store.lastId)
    && l.store.lastId < TWO32
    && l.store.priorityCounter <= l.store.lastId
    && HighScores(l.store.cols)
    && Scored(l.store)
  }

  /** Every job whose insertion succeeded is in exactly one place, and no other id is anywhere. */
  ghost predicate Conserved(l: Life) {
    forall id :: At(l, id).Places() == Bit(id in l.accepted)
  }

  lemma EmptyAt(l: Life, id: Id)
    requires l.store.cols == NO_COLS && l.store.jobs == map[] && l.promoted == multiset{} && l.accepted == {}
    ensures SpotOk(At(l, id)) && At(l, id).Places() == 0
  {
    assert KeysOf(map[], id) == {};
  }

  lemma EmptyOk(l: Life)
    requires l.store.cols == NO_COLS && l.store.jobs == map[] && l.promoted == multiset{} && l.accepted == {}
    requires l.store.lastId == l.store.priorityCounter == 0
    ensures Inv(l) && Conserved(l)
  {
    hide At, SpotOk, HighScores, Scored;
    forall id ensures SpotOk(At(l, id)) && At(l, id).Places() == 0 {
      EmptyAt(l, id);
    }
    EmptyScored(l.store);
  }

  lemma EmptyScored(s: Store)
    requires s.cols == NO_COLS
    ensures HighScores(s.cols) && Scored(s)
  {
  }

  lemma StartOk()
    ensures Inv(START) && Conserved(START)
  {
    hide Inv, Conserved;
    EmptyOk(START);
  }

  // ---- Activation ----

  /** The store after the id popped into `cols` has been locked, marked and stamped. */
  function Started(s: Store, cols: Cols, id: Id, c: Claim): Store
    requires id in s.jobs
  {
    var s1 := SetLock(s.(cols := cols), id, c.token, c.duration, c.now);
    s1.(jobs := s.jobs[id := s.jobs[id].(state := JobState.Active, token := Some(c.token))])
  }

  lemma PrepareRecorded(s: Store, cols: Cols, id: Id, prev: JobState, c: Claim)
    requires id in s.jobs && id in cols.active
    ensures Prepare(s.(cols := cols), id, prev, c)
         == (Started(s, cols, id, c), Ready(id, Started(s, cols, id, c).jobs[id]))
  {
    var active := s.jobs[id].(state := JobState.Active);
    var stamped := active.(token := Some(c.token));
    assert s.jobs[id := active][id := stamped] == s.jobs[id := stamped];
  }

  /** The id an activation would take, and the collections once it is in the active list. */
  function Taken(c: Cols): (Cols, Option<Id>) {
    if c.waiting != [] then PopBackPushFront(c)
    else
      var (c1, id) := PopPrioritized(c);
      if id.None? then (c1, None) else (Added(c1, T.Active, id.value, None, true), id)
  }

  lemma TakenCount(c: Cols, j: Id)
    ensures var (c', r) := Taken(c);
            var b := Bit(r == Some(j));
            && InList(c'.active, j) == InList(c.active, j) + b
            && InList(c'.waiting, j) + InMap(c'.prioritized, j) + b == InList(c.waiting, j) + InMap(c.prioritized, j)
            && c' == c.(active := c'.active, waiting := c'.waiting, prioritized := c'.prioritized)
  {
    PopWaitingCount(c, j);
    PopPrioritizedCount(c, j);
  }

  lemma MoveToActiveIs(l: Life, c: Claim)
    requires Inv(l)
    ensures var (cols, r) := Taken(l.store.cols);
            if r.None? then MoveToActive(l.store, c) == (l.store, NoJob)
            else
              && r.value in l.store.jobs
              && var s := Started(l.store, cols, r.value, c);
                 MoveToActive(l.store, c) == (s, Ready(r.value, s.jobs[r.value]))
  {
    var (cols, r) := Taken(l.store.cols);
    if r.Some? {
      TakenCount(l.store.cols, r.value);
      assert SpotOk(At(l, r.value));
      PrepareRecorded(l.store, cols, r.value, GetState(l.store, r.value), c);
    }
  }

  lemma ActivateSpot(l: Life, c: Claim, id: Id)
    requires Inv(l)
    ensures var p, p' := At(l, id), At(Apply(l, Activate(c)), id);
            SpotOk(p') && p'.Places() == p.Places()
  {
    MoveToActiveIs(l, c);
    TakenCount(l.store.cols, id);
    assert SpotOk(At(l, id));
  }

  /** Entries only leave the prioritized set, and their records keep what scored them. */
  lemma ScoredShrinks(s: Store, s': Store)
    requires Scored(s) && s'.priorityCounter >= s.priorityCounter
    requires forall k :: k in s'.cols.prioritized ==>
               && k in s.cols.prioritized && s'.cols.prioritized[k] == s.cols.prioritized[k]
               && (s.cols.prioritized[k] in s.jobs ==>
                     && s.cols.prioritized[k] in s'.jobs
                     && s'.jobs[s.cols.prioritized[k]].opts == s.jobs[s.cols.prioritized[k]].opts
                     && s'.jobs[s.cols.prioritized[k]].arrival == s.jobs[s.cols.prioritized[k]].arrival)
    ensures Scored(s')
  {
  }

  lemma ActivateKeeps(l: Life, c: Claim)
    requires Inv(l)
    ensures Inv(Apply(l, Activate(c)))
    ensures forall id :: At(Apply(l, Activate(c)), id).Places() == At(l, id).Places()
  {
    hide MoveToActive;
    var l' := Apply(l, Activate(c));
    forall id ensures SpotOk(At(l', id)) && At(l', id).Places() == At(l, id).Places() {
      ActivateSpot(l, c, id);
    }
    MoveToActiveIs(l, c);
    ScoredShrinks(l.store, l'.store);
  }

  // ---- Finishing ----

  /** An id that occurs nowhere in a scored set, and is not one of its scores, is not removed from it. */
  lemma RemoveAbsent(m: map<nat, Id>, id: Id)
    requires InMap(m, id) == 0 && id !in m
    ensures RemoveScored(m, id) == m
  {
    forall k | k in m ensures m[k] != id {
      assert k in KeysOf(m, id) <==> m[k] == id;
    }
  }

  /** The collections after `id` has left the active list for the completed or the failed set. */
  function Retired(c: Cols, id: Id, failed: bool, ts: nat): Cols {
    var c1 := c.(active := Without<Id>(c.active, id));
    if failed then c1.(failed := c.failed[ts := id]) else c1.(completed := c.completed[ts := id])
  }

  lemma MoveToEndIs(s: Store, id: Id, failed: bool, ts: int)
    requires id in s.jobs && s.jobs[id].state == JobState.Active && ts >= 0
    ensures var job := s.jobs[id].(state := EndState(failed), attemptsMade := s.jobs[id].attemptsMade + 1);
            MoveToEnd(s, id, EndState(failed), ts)
              == (s.(cols := Retired(s.cols, id, failed, ts), jobs := s.jobs[id := job]), Some(job))
  {
    var counted := s.jobs[id].(attemptsMade := s.jobs[id].attemptsMade + 1);
    var job := counted.(state := EndState(failed));
    assert s.jobs[id := counted][id := job] == s.jobs[id := job];
  }

  /** The record of `id` once the attempt is counted. */
  function Spent(s: Store, id: Id, failed: bool): Job
    requires id in s.jobs
  {
    s.jobs[id].(state := EndState(failed), attemptsMade := s.jobs[id].attemptsMade + 1)
  }

  /** What becomes of the job after this run. */
  function Verdict(s: Store, op: Op): Next
    requires op.Finish? && op.id in s.jobs
  {
    Decide(op.strategies, Spent(s, op.id, op.failed), op.failed, op.env)
  }

  lemma SuccessEnds(s: Store, op: Op)
    requires op.Finish? && op.id in s.jobs && s.jobs[op.id].opts.repeat.None?
    ensures !Verdict(s, op).ToWait? && (Verdict(s, op).ToDelayed? ==> op.failed)
  {
  }

  /** The collections after a run: ended, or rescheduled and taken back out of the failed set. */
  function FinishedCols(c: Cols, op: Op, next: Next): Cols
    requires op.Finish? && op.ts >= 0
  {
    var c1 := Retired(c, op.id, op.failed, op.ts);
    if next.ToDelayed?
    then c1.(delayed := c.delayed[Unsigned(next.score) := op.id], failed := RemoveScored(c1.failed, op.id))
    else c1
  }

  /** `s'` is the store of `l` after the run `op`. */
  ghost predicate Finished(s: Store, op: Op, s': Store)
    requires op.Finish? && op.ts >= 0 && op.id in s.jobs
  {
    var next := Verdict(s, op);
    && s' == s.(cols := FinishedCols(s.cols, op, next), jobs := s'.jobs)
    && (forall j :: j != op.id ==> Lookup(s'.jobs, j) == Lookup(s.jobs, j))
    && (op.id in s'.jobs ==> s'.jobs[op.id] == Spent(s, op.id, op.failed))
    && (next.ToDelayed? ==> op.id in s'.jobs)
    && !next.ToWait?
  }

  lemma FinishIs(l: Life, op: Op)
    requires Inv(l) && op.Finish? && Enabled(l, op) && op.ts >= 0
    ensures op.id in l.store.jobs && l.store.jobs[op.id].state == JobState.Active
    ensures Finished(l.store, op, FinishRun(l.store, op.strategies, op.id, op.failed, op.ts, op.env).0)
  {
    hide AfterSuccess, MoveToEnd, HighScores, Scored;
    assert SpotOk(At(l, op.id));
    MoveToEndIs(l.store, op.id, op.failed, op.ts);
    SuccessEnds(l.store, op);
  }

  /** What the run of `op.id` overwrites: an earlier end, or another job due at the same millisecond. */
  ghost predicate Displaced(l: Life, op: Op, j: Id)
    requires op.Finish? && op.ts >= 0 && op.id in l.store.jobs
  {
    var c := l.store.cols;
    var next := Verdict(l.store, op);
    || Overwrites(if op.failed then c.failed else c.completed, op.ts, j)
    || (next.ToDelayed? && Overwrites(c.delayed, next.score, j))
  }

  lemma RetiredCount(c: Cols, id: Id, failed: bool, ts: nat, j: Id)
    ensures var c' := Retired(c, id, failed, ts);
            && InList(c'.active, j) == (if j == id then 0 else InList(c.active, j))
            && InMap(c'.completed, j) + Bit(!failed && Overwrites(c.completed, ts, j))
               == InMap(c.completed, j) + Bit(!failed && j == id)
            && InMap(c'.failed, j) + Bit(failed && Overwrites(c.failed, ts, j))
               == InMap(c.failed, j) + Bit(failed && j == id)
  {
    InListWithout(c.active, id, j);
    InMapStore(c.completed, ts, id, j);
    InMapStore(c.failed, ts, id, j);
  }

  /** A retried job is taken back out of the failed set; whatever its timestamp displaced stays lost. */
  lemma RetriedCount(m: map<nat, Id>, id: Id, ts: nat, j: Id)
    requires id !in m && id != ts && InMap(m, id) == 0
    ensures InMap(RemoveScored(m[ts := id], id), j) + Bit(Overwrites(m, ts, j)) == InMap(m, j)
  {
    RemoveScoredCount(m[ts := id], id, j);
    InMapStore(m, ts, id, j);
    assert ts in m && m[ts] == id ==> ts in KeysOf(m, id);
  }

  lemma FinishSpot(l: Life, op: Op, s': Store, j: Id)
    requires Inv(l) && op.Finish? && Enabled(l, op) && op.ts >= TWO32
    requires op.id in l.store.jobs && Finished(l.store, op, s')
    ensures var p, p' := At(l, j), At(l.(store := s'), j);
            && SpotOk(p')
            && p'.Places() + Bit(Displaced(l, op, j)) == p.Places()
  {
    var c := l.store.cols;
    var next := Verdict(l.store, op);
    assert SpotOk(At(l, op.id)) && SpotOk(At(l, j));
    assert op.id < TWO32;
    RetiredCount(c, op.id, op.failed, op.ts, j);
    if next.ToDelayed? {
      InMapStore(c.delayed, Unsigned(next.score), op.id, j);
      RetriedCount(c.failed, op.id, op.ts, j);
      SuccessEnds(l.store, op);
    }
    DisplacedOnce(l, op, j);
  }

  /** Nothing is displaced twice, and never the job itself. */
  lemma DisplacedOnce(l: Life, op: Op, j: Id)
    requires Inv(l) && op.Finish? && Enabled(l, op) && op.ts >= 0 && op.id in l.store.jobs
    ensures var c := l.store.cols;
            && (Overwrites(c.failed, op.ts, j) ==> InMap(c.failed, j) >= 1)
            && (Overwrites(c.completed, op.ts, j) ==> InMap(c.completed, j) >= 1)
            && (Verdict(l.store, op).ToDelayed? && Overwrites(c.delayed, Verdict(l.store, op).score, j) ==>
                  InMap(c.delayed, j) >= 1)
  {
    var c := l.store.cols;
    assert Overwrites(c.failed, op.ts, j) ==> Unsigned(op.ts) in KeysOf(c.failed, j);
    assert Overwrites(c.completed, op.ts, j) ==> Unsigned(op.ts) in KeysOf(c.completed, j);
    if Verdict(l.store, op).ToDelayed? {
      var k := Unsigned(Verdict(l.store, op).score);
      assert k in c.delayed && c.delayed[k] == j ==> k in KeysOf(c.delayed, j);
    }
  }

  /** The run carries timestamps and due times that cannot be mistaken for ids. */
  ghost predicate FinishPlausible(l: Life, op: Op)
    requires op.Finish?
  {
    && op.ts >= TWO32
    && (op.id in l.store.jobs ==> var next := Verdict(l.store, op); next.ToDelayed? ==> next.score >= TWO32)
  }

  lemma FinishKeeps(l: Life, op: Op)
    requires Inv(l) && op.Finish? && Enabled(l, op) && FinishPlausible(l, op)
    ensures Inv(Apply(l, op))
    ensures op.id in l.store.jobs
    ensures forall j :: At(Apply(l, op), j).Places() + Bit(Displaced(l, op, j)) == At(l, j).Places()
  {
    FinishIs(l, op);
    var s' := FinishRun(l.store, op.strategies, op.id, op.failed, op.ts, op.env).0;
    var l' := l.(store := s');
    forall j ensures SpotOk(At(l', j)) && At(l', j).Places() + Bit(Displaced(l, op, j)) == At(l, j).Places() {
      FinishSpot(l, op, s', j);
    }
    FinishScored(l, op, s');
  }

  lemma FinishScored(l: Life, op: Op, s': Store)
    requires Inv(l) && op.Finish? && Enabled(l, op) && op.ts >= 0
    requires op.id in l.store.jobs && Finished(l.store, op, s')
    ensures Scored(s')
  {
    assert SpotOk(At(l, op.id));
    ScoredKept(l.store, s', op.id);
  }

  /** Only the record of an id outside the prioritized set changes. */
  lemma ScoredKept(s: Store, s': Store, id: Id)
    requires Scored(s) && InMap(s.cols.prioritized, id) == 0
    requires s'.cols.prioritized == s.cols.prioritized && s'.priorityCounter == s.priorityCounter
    requires forall j :: j != id ==> Lookup(s'.jobs, j) == Lookup(s.jobs, j)
    ensures Scored(s')
  {
    forall k | k in s.cols.prioritized ensures s.cols.prioritized[k] != id {
      assert k in KeysOf(s.cols.prioritized, id) <==> s.cols.prioritized[k] == id;
    }
    forall k | k in s.cols.prioritized
      ensures Lookup(s'.jobs, s.cols.prioritized[k]) == Lookup(s.jobs, s.cols.prioritized[k])
    {
    }
  }

  // ---- Insertion ----

  /** No two arrivals share a score while priorities and the counter stay below 2^32. */
  lemma ScoreIsFresh(s: Store, priority: nat)
    requires Scored(s) && priority < TWO32 && s.priorityCounter + 1 < TWO32
    ensures Unsigned(S.Score(priority, s.priorityCounter + 1)) !in s.cols.prioritized
  {
    forall k | k in s.cols.prioritized ensures k != S.Score(priority, s.priorityCounter + 1) {
      var job := s.jobs[s.cols.prioritized[k]];
      S.ScoreOrder(job.opts.priority, job.arrival, priority, s.priorityCounter + 1);
    }
  }

  /** Fewer than 2^32 jobs, no repeat policy, and a due time that cannot be mistaken for an id. */
  predicate AddPlausible(l: Life, op: Op)
    requires op.Add?
  {
    && l.store.lastId + 1 < TWO32
    && op.opts.priority < TWO32
    && op.opts.repeat.None?
    && (op.opts.delayMs > 0 ==> op.now + op.opts.delayMs >= TWO32)
  }

  /** What the insertion overwrites: a job due at the same millisecond. */
  ghost predicate AddDisplaces(l: Life, op: Op, j: Id)
    requires op.Add?
  {
    !TooShort(op.opts) && op.opts.delayMs > 0 && Overwrites(l.store.cols.delayed, op.now + op.opts.delayMs, j)
  }

  /** Accepted, but placed in no collection: what becomes of a negative delay. */
  predicate Strayed(opts: JobOptions) {
    !TooShort(opts) && Unsigned(opts.delayMs) > 0 && opts.delayMs <= 0
  }

  /** How placing the new `id` changes the occurrences of `j`. */
  ghost predicate PlacedAs(c: Cols, c': Cols, opts: JobOptions, id: Id, now: int, j: Id) {
    var d := Unsigned(opts.delayMs);
    && InList(c'.waiting, j) + InList(c'.paused, j)
       == InList(c.waiting, j) + InList(c.paused, j) + Bit(d == 0 && opts.priority == 0 && j == id)
    && InMap(c'.prioritized, j) == InMap(c.prioritized, j) + Bit(d == 0 && opts.priority > 0 && j == id)
    && InMap(c'.delayed, j) + Bit(opts.delayMs > 0 && Overwrites(c.delayed, now + opts.delayMs, j))
       == InMap(c.delayed, j) + Bit(opts.delayMs > 0 && j == id)
    && c'.active == c.active && c'.completed == c.completed && c'.failed == c.failed
  }

  lemma JoinCount(list: seq<Id>, id: Id, j: Id)
    ensures InList([id] + list, j) == InList(list, j) + Bit(j == id)
  {
  }

  lemma PlaceSpot(c: Cols, opts: JobOptions, pc: nat, id: Id, flag: bool, now: int, j: Id)
    requires Unsigned(opts.delayMs) == 0 && opts.priority > 0 ==> Unsigned(S.Score(opts.priority, pc)) !in c.prioritized
    ensures PlacedAs(c, Place(c, opts, pc, id, flag, now), opts, id, now, j)
  {
    hide InMap, InList, S.Score;
    InMapStore(c.delayed, Unsigned(now + opts.delayMs), id, j);
    InMapStore(c.prioritized, Unsigned(S.Score(opts.priority, pc)), id, j);
    JoinCount(c.waiting, id, j);
    JoinCount(c.paused, id, j);
  }

  function ArrivalOf(s: Store, opts: JobOptions): nat {
    if opts.priority > 0 then s.priorityCounter + 1 else 0
  }

  /** The store after an accepted insertion. */
  function WithJob(s: Store, op: Op): Store
    requires op.Add?
  {
    var id, pc := s.lastId + 1, ArrivalOf(s, op.opts);
    s.(lastId := id, priorityCounter := if op.opts.priority > 0 then pc else s.priorityCounter,
       cols := Place(s.cols, op.opts, pc, id, op.flag, op.now), jobs := s.jobs[id := NewJob(op.opts, pc)])
  }

  lemma WithJobPlaced(l: Life, op: Op, j: Id)
    requires Inv(l) && op.Add? && AddPlausible(l, op)
    ensures PlacedAs(l.store.cols, WithJob(l.store, op).cols, op.opts, l.store.lastId + 1, op.now, j)
  {
    hide Place, PlacedAs, NewJob, S.Score;
    var id, pc := l.store.lastId + 1, ArrivalOf(l.store, op.opts);
    if op.opts.priority > 0 {
      ScoreIsFresh(l.store, op.opts.priority);
    }
    PlaceSpot(l.store.cols, op.opts, pc, id, op.flag, op.now, j);
  }

  /** `l'` is `l` after the accepted insertion `op`. */
  ghost predicate Inserted(l: Life, op: Op, l': Life)
    requires op.Add?
  {
    var id := l.store.lastId + 1;
    && (forall j :: PlacedAs(l.store.cols, l'.store.cols, op.opts, id, op.now, j))
    && l'.store.jobs == l.store.jobs[id := NewJob(op.opts, ArrivalOf(l.store, op.opts))]
    && l'.promoted == l.promoted
    && l'.accepted == l.accepted + {id}
  }

  lemma AddSpotNew(l: Life, op: Op, l': Life)
    requires Inv(l) && op.Add? && op.opts.repeat.None? && !TooShort(op.opts) && Inserted(l, op, l')
    ensures var p' := At(l', l.store.lastId + 1);
            SpotOk(p') && p'.Places() == Bit(!Strayed(op.opts))
    ensures !AddDisplaces(l, op, l.store.lastId + 1)
    ensures At(l, l.store.lastId + 1).Places() == 0
  {
    var id := l.store.lastId + 1;
    assert SpotOk(At(l, id));
    assert PlacedAs(l.store.cols, l'.store.cols, op.opts, id, op.now, id);
    InMapPositive(l.store.cols.delayed, id);
  }

  lemma AddSpotOther(l: Life, op: Op, l': Life, j: Id)
    requires op.Add? && !TooShort(op.opts) && Inserted(l, op, l')
    requires j != l.store.lastId + 1
    ensures var p, p' := At(l, j), At(l', j);
            p.delayed >= Bit(AddDisplaces(l, op, j)) && p' == p.(delayed := p.delayed - Bit(AddDisplaces(l, op, j)))
  {
    assert PlacedAs(l.store.cols, l'.store.cols, op.opts, l.store.lastId + 1, op.now, j);
  }

  lemma AddScored(l: Life, op: Op)
    requires Inv(l) && op.Add? && AddPlausible(l, op)
    ensures Scored(WithJob(l.store, op))
  {
    assert SpotOk(At(l, l.store.lastId + 1));
    NewScored(l.store, op);
  }

  lemma NewScored(s: Store, op: Op)
    requires Scored(s) && op.Add? && op.opts.priority < TWO32 && InMap(s.cols.prioritized, s.lastId + 1) == 0
    ensures Scored(WithJob(s, op))
  {
    hide Place, S.Score;
    var s' := WithJob(s, op);
    ScoredKept(s, s.(jobs := s'.jobs), s.lastId + 1);
    NewEntry(s.cols, op.opts, ArrivalOf(s, op.opts), s.lastId + 1, op.flag, op.now);
  }

  /** An insertion scores at most the new job. */
  lemma NewEntry(c: Cols, opts: JobOptions, pc: nat, id: Id, flag: bool, now: int)
    ensures var m := Place(c, opts, pc, id, flag, now).prioritized;
            m == c.prioritized || (opts.priority > 0 && m == c.prioritized[S.Score(opts.priority, pc) := id])
  {
    hide S.Score;
  }

  ghost predicate AddEffect(l: Life, op: Op, l': Life)
    requires op.Add?
  {
    && (forall j :: At(l', j).Places() + Bit(AddDisplaces(l, op, j))
                 == At(l, j).Places() + Bit(j == l.store.lastId + 1 && !TooShort(op.opts) && !Strayed(op.opts)))
    && l'.accepted == l.accepted + (if TooShort(op.opts) then {} else {l.store.lastId + 1})
  }

  lemma AcceptedSpots(l: Life, op: Op, l': Life)
    requires Inv(l) && op.Add? && op.opts.repeat.None? && !TooShort(op.opts) && Inserted(l, op, l')
    ensures (forall j :: SpotOk(At(l', j))) && AddEffect(l, op, l')
  {
    AddSpotNew(l, op, l');
    forall j ensures SpotOk(At(l', j))
             ensures At(l', j).Places() + Bit(AddDisplaces(l, op, j))
                  == At(l, j).Places() + Bit(j == l.store.lastId + 1 && !Strayed(op.opts))
    {
      if j != l.store.lastId + 1 {
        AddSpotOther(l, op, l', j);
        assert SpotOk(At(l, j));
      }
    }
  }

  lemma AcceptedKeeps(l: Life, op: Op, l': Life)
    requires Inv(l) && op.Add? && AddPlausible(l, op) && !TooShort(op.opts)
    requires l'.store == WithJob(l.store, op) && l'.promoted == l.promoted
    requires l'.accepted == l.accepted + {l.store.lastId + 1}
    ensures Inv(l') && AddEffect(l, op, l')
  {
    var id := l.store.lastId + 1;
    forall j ensures PlacedAs(l.store.cols, l'.store.cols, op.opts, id, op.now, j) {
      WithJobPlaced(l, op, j);
    }
    AcceptedSpots(l, op, l');
    AddScored(l, op);
  }

  lemma RejectedKeeps(l: Life, op: Op, l': Life)
    requires Inv(l) && op.Add? && AddPlausible(l, op) && TooShort(op.opts)
    requires l' == l.(store := l.store.(lastId := l.store.lastId + 1, priorityCounter := l'.store.priorityCounter))
    requires l.store.priorityCounter <= l'.store.priorityCounter <= l.store.priorityCounter + 1
    ensures Inv(l') && AddEffect(l, op, l')
  {
    forall j ensures At(l', j) == At(l, j) {
    }
    ScoredShrinks(l.store, l'.store);
  }

  lemma AddKeeps(l: Life, op: Op)
    requires Inv(l) && op.Add? && AddPlausible(l, op)
    ensures Inv(Apply(l, op)) && AddEffect(l, op, Apply(l, op))
  {
    if TooShort(op.opts) {
      RejectedKeeps(l, op, Apply(l, op));
    } else {
      AcceptedKeeps(l, op, Apply(l, op));
    }
  }

  // ---- Polling ----

  /** Failing a missed job changes its record and the failed set, nothing else. */
  lemma FailOneIs(s: Store, id: Id, ts: int)
    requires id in s.jobs && Unstarted(s.jobs[id].state) && ts >= 0
    requires InMap(s.cols.delayed, id) == 0 && InMap(s.cols.completed, id) == 0 && InMap(s.cols.failed, id) == 0
    requires id !in s.cols.delayed && id !in s.cols.completed && id !in s.cols.failed
    ensures MoveToEnd(s, id, JobState.Failed, ts).0
         == s.(cols := s.cols.(failed := s.cols.failed[ts := id]), jobs := s.jobs[id := Spent(s, id, true)])
  {
    RemoveAbsent(s.cols.delayed, id);
    RemoveAbsent(s.cols.completed, id);
    RemoveAbsent(s.cols.failed, id);
    var counted := s.jobs[id].(attemptsMade := s.jobs[id].attemptsMade + 1);
    var job := counted.(state := JobState.Failed);
    assert s.jobs[id := counted][id := job] == s.jobs[id := job];
  }

  /** The job `id` can be failed in `s`: it is recorded and no longer in any scored set. */
  ghost predicate Failable(s: Store, id: Id) {
    && id in s.jobs && Unstarted(s.jobs[id].state)
    && InMap(s.cols.delayed, id) == 0 && InMap(s.cols.completed, id) == 0 && InMap(s.cols.failed, id) == 0
    && id !in s.cols.delayed && id !in s.cols.completed && id !in s.cols.failed
  }

  function MissedJobs(s: Store, missed: seq<Id>): map<Id, Job> {
    map j | j in s.jobs :: if j in missed then Spent(s, j, true) else s.jobs[j]
  }

  /** The store once all of `missed` have failed at `ts`: only the last of them stays in the failed set. */
  function AllFailed(s: Store, missed: seq<Id>, ts: nat): Store {
    if missed == [] then s else
      s.(cols := s.cols.(failed := s.cols.failed[ts := missed[|missed| - 1]]), jobs := MissedJobs(s, missed))
  }

  lemma {:induction false} FailMissedIs(s: Store, missed: seq<Id>, ts: int)
    requires ts >= TWO32
    requires forall i, j :: 0 <= i < j < |missed| ==> missed[i] != missed[j]
    requires forall i :: 0 <= i < |missed| ==> Failable(s, missed[i]) && missed[i] < TWO32
    ensures FailMissed(s, missed, ts) == AllFailed(s, missed, ts)
  {
    if missed == [] {
    } else {
      var n := |missed| - 1;
      FailMissedIs(s, missed[..n], ts);
      FailNext(s, missed[..n], missed[n], ts);
      assert missed[..n] + [missed[n]] == missed;
    }
  }

  lemma FailNext(s: Store, before: seq<Id>, id: Id, ts: int)
    requires Failable(s, id) && id < TWO32 && ts >= TWO32 && id !in before
    ensures MoveToEnd(AllFailed(s, before, ts), id, JobState.Failed, ts).0 == AllFailed(s, before + [id], ts)
  {
    hide MoveToEnd, Failable, InMap;
    var s1 := AllFailed(s, before, ts);
    FailedStaysFailable(s, before, id, ts);
    FailOneIs(s1, id, ts);
    assert s1.jobs[id := Spent(s, id, true)] == MissedJobs(s, before + [id]);
    assert s1.cols.failed[ts := id] == s.cols.failed[ts := id];
  }

  lemma FailedStaysFailable(s: Store, before: seq<Id>, id: Id, ts: int)
    requires Failable(s, id) && id < TWO32 && ts >= TWO32 && id !in before
    ensures Failable(AllFailed(s, before, ts), id) && AllFailed(s, before, ts).jobs[id] == s.jobs[id]
  {
    if before != [] {
      assert before[|before| - 1] in before;
      InMapStore(s.cols.failed, ts, before[|before| - 1], id);
    }
  }

  lemma {:induction false} DistinctIfOnce(s: seq<Id>)
    requires forall id :: InList(s, id) <= 1
    ensures forall i, j :: 0 <= i < j < |s| ==> s[i] != s[j]
  {
    forall i, j | 0 <= i < j < |s| ensures s[i] != s[j] {
      assert s == s[..i] + [s[i]] + s[i + 1..j] + [s[j]] + s[j + 1..];
      assert InList(s, s[i]) >= 1 + Bit(s[i] == s[j]);
    }
  }

  function Swept(s: Store, nowMs: int): Store {
    s.(cols := s.cols.(delayed := GetDelayedAt(s.cols.delayed, nowMs, nowMs + MIN_DELAY_MS).delayed))
  }

  lemma MissedAreFailable(l: Life, nowMs: int)
    requires Inv(l)
    ensures var missed := GetDelayedAt(l.store.cols.delayed, nowMs, nowMs + MIN_DELAY_MS).missed;
            && (forall id :: InList(missed, id) <= 1)
            && (forall id :: id in missed ==>
                  Failable(Swept(l.store, nowMs), id) && id < TWO32 && At(l, id).delayed == 1)
  {
    hide GetDelayedAt, Scored;
    PollShape(l.store.cols.delayed, nowMs);
    var p := GetDelayedAt(l.store.cols.delayed, nowMs, nowMs + MIN_DELAY_MS);
    forall id: Id ensures InList(p.missed, id) <= 1
                  ensures id in p.missed ==> Failable(Swept(l.store, nowMs), id) && id < TWO32 && At(l, id).delayed == 1
    {
      assert SpotOk(At(l, id));
    }
  }

  lemma PromoteIs(l: Life, nowMs: int, nowMicros: int)
    requires Inv(l) && nowMicros >= TWO32
    ensures var p := GetDelayedAt(l.store.cols.delayed, nowMs, nowMs + MIN_DELAY_MS);
            PromoteJobs(l.store, nowMs, nowMicros) == (AllFailed(Swept(l.store, nowMs), p.missed, nowMicros), p.jobs)
  {
    var p := GetDelayedAt(l.store.cols.delayed, nowMs, nowMs + MIN_DELAY_MS);
    MissedAreFailable(l, nowMs);
    DistinctIfOnce(p.missed);
    forall i | 0 <= i < |p.missed| ensures Failable(Swept(l.store, nowMs), p.missed[i]) && p.missed[i] < TWO32 {
      assert p.missed[i] in p.missed;
    }
    FailMissedIs(Swept(l.store, nowMs), p.missed, nowMicros);
  }

  /** What a poll at `ts` loses: every missed job but the last, and a job that failed in the same microsecond. */
  ghost predicate PollLoses(failed: map<nat, Id>, missed: seq<Id>, ts: int, j: Id) {
    missed != [] && ((j in missed && j != missed[|missed| - 1]) || Overwrites(failed, ts, j))
  }

  ghost predicate PollDisplaces(l: Life, op: Op, j: Id)
    requires op.Promote?
  {
    var missed := GetDelayedAt(l.store.cols.delayed, op.nowMs, op.nowMs + MIN_DELAY_MS).missed;
    PollLoses(l.store.cols.failed, missed, op.nowMicros, j)
  }

  /** `l'` is `l` after the poll that returned `p`. */
  ghost predicate PolledLife(l: Life, p: Polled, ts: nat, l': Life) {
    && (forall j: Id :: InMap(p.delayed, j) + InList(p.jobs, j) + InList(p.missed, j) == InMap(l.store.cols.delayed, j))
    && l'.store == AllFailed(l.store.(cols := l.store.cols.(delayed := p.delayed)), p.missed, ts)
    && l'.promoted == l.promoted + multiset(p.jobs)
    && l'.accepted == l.accepted
  }

  lemma PolledAt(l: Life, p: Polled, ts: nat, l': Life, j: Id)
    requires PolledLife(l, p, ts, l')
    ensures var job := Lookup(l.store.jobs, j);
            At(l', j) == At(l, j).(delayed := InMap(p.delayed, j), promoted := l.promoted[j] + InList(p.jobs, j),
                                   failed := InMap(l'.store.cols.failed, j),
                                   record := if job.Some? && j in p.missed then Some(Spent(l.store, j, true)) else job)
  {
  }

  lemma PolledFailed(l: Life, p: Polled, ts: nat, l': Life, j: Id)
    requires PolledLife(l, p, ts, l')
    ensures var lost := p.missed != [] && Overwrites(l.store.cols.failed, ts, j);
            && InMap(l'.store.cols.failed, j) + Bit(lost)
               == InMap(l.store.cols.failed, j) + Bit(p.missed != [] && j == p.missed[|p.missed| - 1])
            && (lost ==> InMap(l.store.cols.failed, j) > 0)
  {
    if p.missed != [] {
      InMapStore(l.store.cols.failed, ts, p.missed[|p.missed| - 1], j);
      InMapPositive(l.store.cols.failed, j);
    }
  }

  /** The same, on one id's numbers alone. */
  lemma PollLocal(p: Spot, p': Spot, jobs: nat, missed: nat, last: bool, lost: bool)
    requires SpotOk(p) && p.delayed == p'.delayed + jobs + missed
    requires p' == p.(delayed := p'.delayed, promoted := p.promoted + jobs, failed := p'.failed, record := p'.record)
    requires p'.failed + Bit(lost) == p.failed + Bit(last) && (last ==> missed > 0) && (lost ==> p.failed > 0)
    requires missed == 0 ==> p'.record == p.record
    requires p.record.None? <==> p'.record.None?
    requires p.record.Some? ==> p'.record.value.opts == p.record.value.opts
    ensures SpotOk(p')
    ensures p'.Places() + Bit((missed > 0 && !last) || lost) == p.Places()
  {
  }

  lemma PromoteSpot(l: Life, p: Polled, ts: nat, l': Life, j: Id)
    requires SpotOk(At(l, j)) && PolledLife(l, p, ts, l')
    ensures SpotOk(At(l', j))
    ensures At(l', j).Places() + Bit(PollLoses(l.store.cols.failed, p.missed, ts, j)) == At(l, j).Places()
  {
    PolledAt(l, p, ts, l', j);
    PolledFailed(l, p, ts, l', j);
    var last := p.missed != [] && j == p.missed[|p.missed| - 1];
    var lost := p.missed != [] && Overwrites(l.store.cols.failed, ts, j);
    PollLocal(At(l, j), At(l', j), InList(p.jobs, j), InList(p.missed, j), last, lost);
  }

  lemma PolledKeeps(l: Life, p: Polled, ts: nat, l': Life)
    requires Inv(l) && ts >= TWO32 && PolledLife(l, p, ts, l')
    requires forall k :: k in p.delayed ==> k in l.store.cols.delayed
    ensures Inv(l')
    ensures forall j :: At(l', j).Places() + Bit(PollLoses(l.store.cols.failed, p.missed, ts, j)) == At(l, j).Places()
  {
    forall j ensures SpotOk(At(l', j))
             ensures At(l', j).Places() + Bit(PollLoses(l.store.cols.failed, p.missed, ts, j)) == At(l, j).Places()
    {
      PromoteSpot(l, p, ts, l', j);
    }
    ScoredShrinks(l.store, l'.store);
  }

  lemma PollShape(d: map<nat, Id>, nowMs: int)
    ensures var p := GetDelayedAt(d, nowMs, nowMs + MIN_DELAY_MS);
            && (forall j: Id :: InMap(p.delayed, j) + InList(p.jobs, j) + InList(p.missed, j) == InMap(d, j))
            && (forall k :: k in p.delayed ==> k in d)
  {
    forall j: Id {
      DrainCount(d, nowMs, nowMs + MIN_DELAY_MS, j);
    }
  }

  /** `l'` is `l` after the poll `op`. */
  ghost predicate Promoted(l: Life, op: Op, l': Life)
    requires op.Promote? && op.nowMicros >= 0
  {
    var p := GetDelayedAt(l.store.cols.delayed, op.nowMs, op.nowMs + MIN_DELAY_MS);
    && l'.store == AllFailed(Swept(l.store, op.nowMs), p.missed, op.nowMicros)
    && l'.promoted == l.promoted + multiset(p.jobs)
    && l'.accepted == l.accepted
  }

  lemma PromotedKeeps(l: Life, op: Op, l': Life)
    requires Inv(l) && op.Promote? && op.nowMicros >= TWO32 && Promoted(l, op, l')
    ensures Inv(l')
    ensures forall j :: At(l', j).Places() + Bit(PollDisplaces(l, op, j)) == At(l, j).Places()
  {
    hide GetDelayedAt;
    PollShape(l.store.cols.delayed, op.nowMs);
    PolledKeeps(l, GetDelayedAt(l.store.cols.delayed, op.nowMs, op.nowMs + MIN_DELAY_MS), op.nowMicros, l');
  }

  lemma PromoteKeeps(l: Life, op: Op)
    requires Inv(l) && op.Promote? && op.nowMicros >= TWO32
    ensures Inv(Apply(l, op))
    ensures forall j :: At(Apply(l, op), j).Places() + Bit(PollDisplaces(l, op, j)) == At(l, j).Places()
  {
    hide GetDelayedAt, FailMissed;
    PromoteIs(l, op.nowMs, op.nowMicros);
    PromotedKeeps(l, op, Apply(l, op));
  }

  // ---- Everything else ----

  lemma DeliverSpot(l: Life, l': Life, id: Id, j: Id)
    requires id in l.promoted && SpotOk(At(l, j))
    requires l'.store == l.store.(cols := l.store.cols.(waiting := [id] + l.store.cols.waiting))
    requires l'.promoted == l.promoted - multiset{id} && l'.accepted == l.accepted
    ensures SpotOk(At(l', j)) && At(l', j).Places() == At(l, j).Places()
  {
    hide InMap;
    var p := At(l, j);
    assert At(l', j) == p.(listed := p.listed + Bit(j == id), promoted := p.promoted - Bit(j == id)) by {
      hide SpotOk;
    }
  }

  lemma DeliverKeeps(l: Life, op: Op)
    requires Inv(l) && op.Deliver? && Enabled(l, op)
    ensures Inv(Apply(l, op))
    ensures forall j :: At(Apply(l, op), j).Places() == At(l, j).Places()
  {
    hide At, SpotOk, Scored;
    var l' := Apply(l, op);
    forall j ensures SpotOk(At(l', j)) && At(l', j).Places() == At(l, j).Places() {
      DeliverSpot(l, l', op.id, j);
    }
    ScoredShrinks(l.store, l'.store);
  }

  /** Pausing, resuming and the lock operations move no id between places. */
  lemma StillKeeps(l: Life, l': Life)
    requires Inv(l)
    requires l'.store.cols in {l.store.cols, Shifted(l.store.cols, true), Shifted(l.store.cols, false)}
    requires l' == l.(store := l'.store)
    requires l'.store.jobs == l.store.jobs && l'.store.lastId == l.store.lastId
    requires l'.store.priorityCounter == l.store.priorityCounter
    ensures Inv(l')
    ensures forall j :: At(l', j) == At(l, j)
  {
    forall j ensures At(l', j) == At(l, j) {
      PauseCount(l.store.cols, true, j);
      PauseCount(l.store.cols, false, j);
    }
  }

  // ---- Conservation ----

  /** What the arithmetic of the source takes for granted of its inputs. */
  ghost predicate Plausible(l: Life, op: Op) {
    match op
    case Add(_, _, _) => AddPlausible(l, op)
    case Finish(_, _, _, _, _) => FinishPlausible(l, op)
    case Promote(_, nowMicros) => nowMicros >= TWO32
    case _ => true
  }

  /** The operation leaves `j` without a place. */
  ghost predicate Loses(l: Life, op: Op, j: Id) {
    match op
    case Add(opts, _, _) => AddDisplaces(l, op, j) || (j == l.store.lastId + 1 && Strayed(opts))
    case Finish(id, _, ts, _, _) => ts >= 0 && id in l.store.jobs && Displaced(l, op, j)
    case Promote(_, _) => PollDisplaces(l, op, j)
    case _ => false
  }

  ghost predicate StepEffect(l: Life, op: Op, l': Life) {
    && l.accepted <= l'.accepted
    && (forall j :: At(l', j).Places() + Bit(Loses(l, op, j))
                 == At(l, j).Places() + Bit(j in l'.accepted && j !in l.accepted))
  }

  lemma StepKeeps(l: Life, op: Op)
    requires Inv(l) && Enabled(l, op) && Plausible(l, op)
    ensures Inv(Apply(l, op)) && StepEffect(l, op, Apply(l, op))
  {
    hide Inv, At, AddJob, MoveToActive, FinishRun, PromoteJobs, Displaced, PollDisplaces;
    match op
    case Add(opts, _, _) => AddStep(l, op);
    case Activate(c) => ActivateKeeps(l, c);
    case Finish(_, _, _, _, _) => FinishKeeps(l, op);
    case Promote(_, _) => PromoteKeeps(l, op);
    case Deliver(_) => DeliverKeeps(l, op);
    case _ => StillKeeps(l, Apply(l, op));
  }

  lemma AddStep(l: Life, op: Op)
    requires Inv(l) && op.Add? && AddPlausible(l, op)
    ensures Inv(Apply(l, op)) && StepEffect(l, op, Apply(l, op))
  {
    hide AddJob;
    AddKeeps(l, op);
    var id := l.store.lastId + 1;
    assert id !in l.accepted;
    AddEffectIsStep(l, op, Apply(l, op));
  }

  lemma AddEffectIsStep(l: Life, op: Op, l': Life)
    requires op.Add? && l.store.lastId + 1 !in l.accepted && AddEffect(l, op, l')
    ensures StepEffect(l, op, l')
  {
    hide At, Overwrites;
    var id := l.store.lastId + 1;
    forall j
      ensures At(l', j).Places() + Bit(Loses(l, op, j)) == At(l, j).Places() + Bit(j in l'.accepted && j !in l.accepted)
    {
    }
  }
}
