// The queue operations of src/queue/mod.rs and the finishing half of
// `process_job` (src/utils/mod.rs), as compositions of store calls: first as
// functions of the store, then as methods that perform the calls in place.
// The queue was opened on a store that was not paused, so its own pause flag,
// which `QueueMetrics::update` never refreshes, is false.
module Queues {
  import opened Collections
  import opened Policy
  import opened Stores
  import opened TimedMaps
  import T = Tags

  predicate Ends(to: JobState) {
    to == JobState.Completed || to == JobState.Failed
  }

  /** Take `id` out of one collection and put it into another. */
  function Relink(s: Store, id: Id, from: JobState, to: JobState, score: Option<int>): Store {
    AddItem(RemoveItem(s, SuffixOf(from), id), SuffixOf(to), id, score, false)
  }

  /** Move `id` to the collection of `to` unless it is there already. */
  function EnsureIn(s: Store, id: Id, from: JobState, to: JobState): Store {
    if ExistsIn(s.cols, SuffixOf(to), id) then s else Relink(s, id, from, to, None)
  }

  /** `move_job_to_state`; false when the job has no record. */
  function MoveJobToState(s: Store, id: Id, from: JobState, to: JobState, ts: int): (Store, bool) {
    if id !in s.jobs then (s, false)
    else if Ends(to) then (SetState(Relink(IncrAttempts(s, id), id, from, to, Some(ts)), id, to), true)
    else (SetState(EnsureIn(s, id, from, to), id, to), true)
  }

  datatype Activation = NoJob | Ready(id: Id, job: Job) | NotFound(id: Id)

  /** What a worker brings along: a fresh token, the lock duration, and the time. */
  datatype Claim = Claim(token: JobToken, duration: nat, now: int)

  /** `prepare_job_for_processing` */
  function Prepare(s: Store, id: Id, prev: JobState, c: Claim): (Store, Activation) {
    var s1 := SetLock(s, id, c.token, c.duration, c.now);
    var (s2, ok) := MoveJobToState(s1, id, prev, JobState.Active, 0);
    if !ok then (s2, NotFound(id)) else
      var s3 := SetToken(s2, id, c.token);
      (s3, if id in s3.jobs then Ready(id, s3.jobs[id]) else NotFound(id))
  }

  /** `move_to_active`: the oldest waiting job, or else the most urgent prioritized one. */
  function MoveToActive(s: Store, c: Claim): (Store, Activation) {
    var (c1, id) := PopBackPushFront(s.cols);
    var s1 := s.(cols := c1);
    if id.Some? then Prepare(s1, id.value, GetState(s1, id.value), c)
    else
      var (c2, p) := PopPrioritized(s1.cols);
      var s2 := s1.(cols := c2);
      if p.None? then (s2, NoJob)
      else
        var s3 := AddItem(s2, T.Active, p.value, None, true);
        Prepare(s3, p.value, GetState(s3, p.value), c)
  }

  /** `move_job_to_finished_or_failed` */
  function MoveToEnd(s: Store, id: Id, to: JobState, ts: int): (r: (Store, Option<Job>))
    requires Ends(to)
    ensures r.1.Some? <==> id in s.jobs
    ensures r.1.Some? ==> r.1.value == s.jobs[id].(attemptsMade := s.jobs[id].attemptsMade + 1, state := to)
  {
    var (s1, ok) := MoveJobToState(s, id, GetState(s, id), to, ts);
    (s1, if ok && id in s1.jobs then Some(s1.jobs[id]) else None)
  }

  /** `retry_job` and `clean_up_job`: carry out what the policy decided. */
  function Settle(s: Store, id: Id, next: Next, failed: bool): Store {
    match next
    case Stay => s
    case ToWait => AddItem(s, T.Wait, id, None, true)
    case ToDelayed(score) =>
      var s1 := AddItem(s, T.Delayed, id, Some(score), !failed);
      if failed then RemoveItem(s1, T.Failed, id) else s1
    case CleanUp(policy) => if Removes(policy, id) then RemoveRecord(s, id) else s
  }

  function Decide(strategies: Strategies, job: Job, failed: bool, env: Env): Next
    requires job.attemptsMade > 0
  {
    if failed
    then AfterFailure(strategies, job.opts, job.attemptsMade, env)
    else AfterSuccess(strategies, job.opts, job.attemptsMade, env)
  }

  function EndState(failed: bool): JobState {
    if failed then JobState.Failed else JobState.Completed
  }

  /** What `process_job` does once the processor has returned; false when the job has no record. */
  function FinishRun(s: Store, strategies: Strategies, id: Id, failed: bool, ts: int, env: Env): (Store, bool) {
    var (s1, job) := MoveToEnd(s, id, EndState(failed), ts);
    if job.None? then (s1, false)
    else (Settle(s1, id, Decide(strategies, job.value, failed, env), failed), true)
  }

  /** The missed jobs of one poll all fail with the poll's timestamp; errors are dropped. */
  function FailMissed(s: Store, missed: seq<Id>, ts: int): Store {
    if missed == [] then s else
      var n := |missed| - 1;
      MoveToEnd(FailMissed(s, missed[..n], ts), missed[n], JobState.Failed, ts).0
  }

  /** `promote_jobs`: one poll, returning the ids handed to the promotion timer. */
  function PromoteJobs(s: Store, nowMs: int, nowMicros: int): (Store, seq<Id>) {
    var p := GetDelayedAt(s.cols.delayed, nowMs, nowMs + MIN_DELAY_MS);
    (FailMissed(s.(cols := s.cols.(delayed := p.delayed)), p.missed, nowMicros), p.jobs)
  }

  /** `extend_lock` */
  function ExtendLock(s: Store, id: Id, c: Claim): (Store, bool) {
    var (s1, previous) := GetToken(s, id, c.now);
    if previous == Some(c.token) then (SetLock(s1, id, c.token, c.duration, c.now), true)
    else (s1, false)
  }

  /** `make_stalled_jobs_wait`: with no stalled job it only takes the stall-check lock. */
  function TakeStallLock(s: Store, interval: nat, now: int): Store {
    var (locks, out) := LazyStep(s.locks, now, ContainsKey(T.Tag(T.StalledCheck)));
    if out == Present(true) then s.(locks := locks)
    else s.(locks := LazyStep(locks, now, InsertExpirable(T.Tag(T.StalledCheck), LockValue.StallCheck, interval)).0)
  }

  class Queue {
    const store: InMemoryStore
    const strategies: Strategies

    constructor (store: InMemoryStore, strategies: Strategies)
      ensures this.store == store && this.strategies == strategies
    {
      this.store := store;
      this.strategies := strategies;
    }

    method RelinkItem(id: Id, from: JobState, to: JobState, score: Option<int>)
      requires store.Valid()
      modifies store.Repr()
      ensures store.Valid() && store.View() == Relink(old(store.View()), id, from, to, score)
    {
      store.RemoveFrom(SuffixOf(from), id);
      store.AddTo(SuffixOf(to), id, score, false);
    }

    method EnsureItemIn(id: Id, from: JobState, to: JobState)
      requires store.Valid()
      modifies store.Repr()
      ensures store.Valid() && store.View() == EnsureIn(old(store.View()), id, from, to)
    {
      hide Relink, ExistsIn, InMemoryStore.View, InMemoryStore.Valid;
      var there := store.Exists(SuffixOf(to), id);
      if !there {
        RelinkItem(id, from, to, None);
      }
    }

    method EndItem(id: Id, from: JobState, to: JobState, ts: int)
      requires store.Valid()
      modifies store.Repr()
      ensures store.Valid()
      ensures store.View() == SetState(Relink(IncrAttempts(old(store.View()), id), id, from, to, Some(ts)), id, to)
    {
      store.CountAttempt(id);
      RelinkItem(id, from, to, Some(ts));
      store.WriteState(id, to);
    }

    method PlaceItem(id: Id, from: JobState, to: JobState)
      requires store.Valid()
      modifies store.Repr()
      ensures store.Valid() && store.View() == SetState(EnsureIn(old(store.View()), id, from, to), id, to)
    {
      EnsureItemIn(id, from, to);
      store.WriteState(id, to);
    }

    method MoveState(id: Id, from: JobState, to: JobState, ts: int) returns (ok: bool)
      requires store.Valid()
      modifies store.Repr()
      ensures store.Valid() && (store.View(), ok) == MoveJobToState(old(store.View()), id, from, to, ts)
    {
      hide Relink, EnsureIn, IncrAttempts, SetState, InMemoryStore.View, InMemoryStore.Valid;
      var recorded := store.JobExists(id);
      if !recorded {
        return false;
      }
      if Ends(to) {
        EndItem(id, from, to, ts);
      } else {
        PlaceItem(id, from, to);
      }
      return true;
    }

    method PrepareJob(id: Id, prev: JobState, c: Claim) returns (r: Activation)
      requires store.Valid()
      modifies store.Repr()
      ensures store.Valid() && (store.View(), r) == Prepare(old(store.View()), id, prev, c)
    {
      store.WriteLock(id, c.token, c.duration, c.now);
      var ok := MoveState(id, prev, JobState.Active, 0);
      if !ok {
        return NotFound(id);
      }
      store.WriteToken(id, c.token);
      var job := store.GetJob(id);
      if job.None? {
        return NotFound(id);
      }
      return Ready(id, job.value);
    }

    method Activate(c: Claim) returns (r: Activation)
      requires store.Valid()
      modifies store.Repr()
      ensures store.Valid() && (store.View(), r) == MoveToActive(old(store.View()), c)
    {
      var id := store.PopBackPush();
      if id.Some? {
        var prev := store.StateOf(id.value);
        r := PrepareJob(id.value, prev, c);
        return;
      }
      var p := store.PopMin();
      if p.None? {
        return NoJob;
      }
      store.AddTo(T.Active, p.value, None, true);
      var prev := store.StateOf(p.value);
      r := PrepareJob(p.value, prev, c);
    }

    method EndJob(id: Id, to: JobState, ts: int) returns (job: Option<Job>)
      requires Ends(to)
      requires store.Valid()
      modifies store.Repr()
      ensures store.Valid() && (store.View(), job) == MoveToEnd(old(store.View()), id, to, ts)
    {
      var prev := store.StateOf(id);
      var ok := MoveState(id, prev, to, ts);
      if !ok {
        return None;
      }
      job := store.GetJob(id);
    }

    method ProcessResult(id: Id, failed: bool, ts: int, env: Env) returns (ok: bool)
      requires store.Valid()
      modifies store.Repr()
      ensures store.Valid() && (store.View(), ok) == FinishRun(old(store.View()), strategies, id, failed, ts, env)
    {
      var job := EndJob(id, EndState(failed), ts);
      if job.None? {
        return false;
      }
      match Decide(strategies, job.value, failed, env) {
        case Stay =>
        case ToWait => store.AddTo(T.Wait, id, None, true);
        case ToDelayed(score) =>
          store.AddTo(T.Delayed, id, Some(score), !failed);
          if failed {
            store.RemoveFrom(T.Failed, id);
          }
        case CleanUp(policy) =>
          if Removes(policy, id) {
            store.DeleteRecord(id);
          }
      }
      return true;
    }

    method Promote(nowMs: int, nowMicros: int) returns (promoted: seq<Id>)
      requires store.Valid()
      modifies store.Repr()
      ensures store.Valid() && (store.View(), promoted) == PromoteJobs(old(store.View()), nowMs, nowMicros)
    {
      hide GetDelayedAt, MoveToEnd;
      var missed;
      promoted, missed := store.Poll(nowMs, nowMs + MIN_DELAY_MS);
      ghost var polled := store.View();
      for i := 0 to |missed|
        invariant store.Valid() && store.View() == FailMissed(polled, missed[..i], nowMicros)
      {
        assert missed[..i + 1][..i] == missed[..i];
        var _ := EndJob(missed[i], JobState.Failed, nowMicros);
      }
      assert missed[..|missed|] == missed;
    }

    method Extend(id: Id, c: Claim) returns (extended: bool)
      requires store.Valid()
      modifies store.Repr()
      ensures store.Valid() && (store.View(), extended) == ExtendLock(old(store.View()), id, c)
    {
      var previous := store.ReadToken(id, c.now);
      if previous == Some(c.token) {
        store.WriteLock(id, c.token, c.duration, c.now);
        return true;
      }
      return false;
    }
  }
}
