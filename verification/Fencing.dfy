// Lock fencing: whoever holds the lock on a job is the worker that activated it
// last. Every run of the lifecycle counts, whatever its scores and timestamps.
module Fencing {
  import opened Collections
  import opened Policy
  import opened Stores
  import opened Queues
  import opened Lifecycle
  import opened Conservation
  import opened Words
  import Expiry
  import TimedMaps
  import T = Tags

  function LockKey(id: Id): nat {
    T.Tag(T.Lock(id))
  }

  /** The token of the last activation that wrote the lock under `key`. */
  function LastToken(history: seq<Activated>, key: nat): Option<JobToken> {
    if history == [] then None else
      var n := |history| - 1;
      if LockKey(history[n].id) == key then Some(history[n].token) else LastToken(history[..n], key)
  }

  /** Every job lock holds the token of the last activation behind its key. */
  ghost predicate Fenced(l: Life) {
    forall k :: k in l.store.locks.inner && l.store.locks.inner[k].value.Token? ==>
      LastToken(l.activations, k) == Some(l.store.locks.inner[k].value.token)
  }

  /** The locks only lost entries, or had a deadline moved, since `m`. */
  ghost predicate Thinned(
    m: map<nat, TimedMaps.ExpiryValue<LockValue>>, m': map<nat, TimedMaps.ExpiryValue<LockValue>>)
  {
    forall k :: k in m' && m'[k].value.Token? ==> k in m && m[k].value == m'[k].value
  }

  lemma ThinnedKeeps(l: Life, l': Life)
    requires Fenced(l) && l'.activations == l.activations
    requires Thinned(l.store.locks.inner, l'.store.locks.inner)
    ensures Fenced(l')
  {
  }

  lemma ActivatedKeeps(l: Life, l': Life, id: Id, c: Claim)
    requires Fenced(l) && l'.activations == l.activations + [Activated(id, c.token)]
    requires l'.store.locks == SetLock(l.store, id, c.token, c.duration, c.now).locks
    ensures Fenced(l')
  {
    assert l'.activations[..|l.activations|] == l.activations;
  }

  lemma PrepareLocks(s: Store, id: Id, prev: JobState, c: Claim)
    ensures Prepare(s, id, prev, c).0.locks == SetLock(s, id, c.token, c.duration, c.now).locks
    ensures Prepare(s, id, prev, c).1 == NotFound(id) ||
            (Prepare(s, id, prev, c).1.Ready? && Prepare(s, id, prev, c).1.id == id)
  {
    hide Added, Removed, ExistsIn, TimedMaps.LazyStep;
  }

  lemma ActivateFenced(l: Life, c: Claim)
    requires Fenced(l)
    ensures Fenced(Apply(l, Activate(c)))
  {
    hide Prepare, SetLock, Fenced, PopPrioritized;
    var s := l.store;
    var (c1, id) := PopBackPushFront(s.cols);
    var l' := Apply(l, Activate(c));
    if id.Some? {
      PrepareLocks(s.(cols := c1), id.value, GetState(s.(cols := c1), id.value), c);
      SameLocks(s.(cols := c1), s, id.value, c);
      ActivatedKeeps(l, l', id.value, c);
    } else {
      var (c2, p) := PopPrioritized(s.cols);
      if p.Some? {
        var s3 := AddItem(s.(cols := c2), T.Active, p.value, None, true);
        PrepareLocks(s3, p.value, GetState(s3, p.value), c);
        SameLocks(s3, s, p.value, c);
        ActivatedKeeps(l, l', p.value, c);
      } else {
        ThinnedKeeps(l, l');
      }
    }
  }

  lemma SameLocks(s: Store, t: Store, id: Id, c: Claim)
    requires s.locks == t.locks
    ensures SetLock(s, id, c.token, c.duration, c.now).locks == SetLock(t, id, c.token, c.duration, c.now).locks
  {
  }

  /** Extending rewrites the token that is there. */
  lemma ExtendThins(s: Store, id: Id, c: Claim)
    ensures Thinned(s.locks.inner, ExtendLock(s, id, c).0.locks.inner)
  {
  }

  lemma EndLocks(s: Store, id: Id, to: JobState, ts: int)
    requires Ends(to)
    ensures MoveToEnd(s, id, to, ts).0.locks == s.locks
  {
  }

  lemma FinishLocks(s: Store, strategies: Strategies, id: Id, failed: bool, ts: int, env: Env)
    ensures FinishRun(s, strategies, id, failed, ts, env).0.locks == s.locks
  {
    hide MoveToEnd, AfterSuccess, AfterFailure, Removes;
    EndLocks(s, id, EndState(failed), ts);
  }

  lemma {:induction false} FailMissedLocks(s: Store, missed: seq<Id>, ts: int)
    ensures FailMissed(s, missed, ts).locks == s.locks
  {
    hide MoveToEnd;
    if missed == [] {
    } else {
      var n := |missed| - 1;
      FailMissedLocks(s, missed[..n], ts);
      EndLocks(FailMissed(s, missed[..n], ts), missed[n], JobState.Failed, ts);
    }
  }

  lemma StepFenced(l: Life, op: Op)
    requires Fenced(l) && Enabled(l, op)
    ensures Fenced(Apply(l, op))
  {
    hide Fenced, Prepare, FinishRun, FailMissed, GetDelayedAt, ExtendLock, Place;
    var l' := Apply(l, op);
    match op
    case Activate(c) => ActivateFenced(l, c);
    case Finish(id, failed, ts, env, strategies) =>
      FinishLocks(l.store, strategies, id, failed, ts, env);
      ThinnedKeeps(l, l');
    case Promote(nowMs, nowMicros) =>
      var p := GetDelayedAt(l.store.cols.delayed, nowMs, nowMs + MIN_DELAY_MS);
      FailMissedLocks(l.store.(cols := l.store.cols.(delayed := p.delayed)), p.missed, nowMicros);
      ThinnedKeeps(l, l');
    case Extend(id, c) =>
      ExtendThins(l.store, id, c);
      ThinnedKeeps(l, l');
    case _ => ThinnedKeeps(l, l');
  }

  lemma {:induction false} RunFenced(l: Life, ops: seq<Op>)
    requires Fenced(l) && Runs(l, ops)
    ensures Fenced(Run(l, ops))
    decreases |ops|
  {
    hide Apply, Fenced, Enabled;
    if ops == [] {
    } else {
      StepFenced(l, ops[0]);
      RunFenced(Apply(l, ops[0]), ops[1..]);
    }
  }

  /** The token of the last activation of `id` itself. */
  function LatestActivation(history: seq<Activated>, id: Id): Option<JobToken> {
    if history == [] then None else
      var n := |history| - 1;
      if history[n].id == id then Some(history[n].token) else LatestActivation(history[..n], id)
  }

  lemma {:induction false} KeysAreIds(history: seq<Activated>, id: Id)
    requires id < TWO56 && forall a :: a in history ==> a.id < TWO56
    ensures LastToken(history, LockKey(id)) == LatestActivation(history, id)
  {
    if history == [] {
    } else {
      var n := |history| - 1;
      T.TagCollidesIff(T.Lock(history[n].id), T.Lock(id));
      assert history[n] in history;
      KeysAreIds(history[..n], id);
    }
  }

  /**
    * In every reachable state, whatever token anyone can read from the lock on a
    * job is that of the job's latest activation, and only that worker can renew
    * the lock: exactly while the lock is there and has not expired.
    */
  lemma LockHeldByLatest(ops: seq<Op>, id: Id, c: Claim)
    requires Runs(START, ops) && id < TWO56
    requires forall a :: a in Run(START, ops).activations ==> a.id < TWO56
    ensures var l := Run(START, ops);
            var seen := VisibleToken(l.store, id, c.now);
            && (seen.Some? ==> seen == LatestActivation(l.activations, id))
            && (ExtendLock(l.store, id, c).1 <==> seen.Some? && LatestActivation(l.activations, id) == Some(c.token))
  {
    RunFenced(START, ops);
    KeysAreIds(Run(START, ops).activations, id);
  }

  /** A job lock written at `t` for `d` shows its token exactly until `t + d`, or for ever while expiration is off. */
  lemma LockVisibleIff(s: Store, id: Id, token: JobToken, d: nat, t: int, now: int)
    ensures VisibleToken(SetLock(s, id, token, d, t), id, now)
         == (if now < t + d || s.locks.disabled then Some(token) else None)
  {
    Expiry.DeadlineIsExact(s.locks, LockKey(id), Token(token), d, t, now);
  }

  /** Writing the lock of one job shows on no other job whose lock has another key. */
  lemma OtherLocksStay(s: Store, id: Id, token: JobToken, d: nat, t: int, other: Id, now: int)
    requires LockKey(other) != LockKey(id)
    ensures VisibleToken(SetLock(s, id, token, d, t), other, now) == VisibleToken(s, other, now)
  {
  }

  /** Renewing never changes who holds the lock, and holds it for the whole duration and no longer. */
  lemma ExtendKeepsHolder(s: Store, id: Id, c: Claim, now: int)
    requires ExtendLock(s, id, c).1
    ensures VisibleToken(s, id, c.now) == Some(c.token)
    ensures VisibleToken(ExtendLock(s, id, c).0, id, now)
         == (if now < c.now + c.duration || s.locks.disabled then Some(c.token) else None)
  {
    LockVisibleIff(GetToken(s, id, c.now).0, id, c.token, c.duration, c.now, now);
  }

  /** Someone has taken the stall-check lock and it has not expired. */
  predicate StallHeld(s: Store, now: int) {
    TimedMaps.LazyStep(s.locks, now, TimedMaps.ContainsKey(T.Tag(T.StalledCheck))).1 == TimedMaps.Present(true)
  }

  /**
    * The stalled-jobs check is rate limited: a caller that finds the lock taken
    * changes nothing, one that finds it free takes it for exactly `interval`, and
    * neither changes what anyone sees of a job lock.
    */
  lemma StallCheckLimited(s: Store, interval: nat, now: int, later: int, id: Id)
    ensures StallHeld(s, now) ==> TakeStallLock(s, interval, now) == s
    ensures !StallHeld(s, now) ==>
              (StallHeld(TakeStallLock(s, interval, now), later) <==> later < now + interval || s.locks.disabled)
    ensures VisibleToken(TakeStallLock(s, interval, now), id, later) == VisibleToken(s, id, later)
  {
    T.TagCollidesIff(T.Lock(id), T.StalledCheck);
  }

  /** Two jobs share a lock exactly when their ids agree modulo 2^56. */
  lemma SharedLockIff(a: Id, b: Id)
    ensures LockKey(a) == LockKey(b) <==> a % TWO56 == b % TWO56
  {
    T.TagCollidesIff(T.Lock(a), T.Lock(b));
  }
}
