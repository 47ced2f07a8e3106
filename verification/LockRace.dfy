// Lock renewal at store-call granularity: `extend_lock` reads the token and then
// writes the lock, and an activation of the same job can come in between.
module LockRace {
  import opened Collections
  import opened Stores
  import opened Queues
  import opened Lifecycle
  import F = Fencing
  import TimedMaps

  /** Where a worker that renews a lock is: its token has been found in the lock, or not. */
  datatype Pc = Idle | Verified(id: Id, token: JobToken)

  /** The store, the workers that renew locks, and the activations so far. */
  datatype Race = Race(store: Store, workers: seq<Pc>, history: seq<Activated>)

  datatype Step =
    | Lock(id: Id, claim: Claim)
    | Check(t: nat, id: Id, claim: Claim)
    | Renew(t: nat, duration: nat, now: int)
    | TakeStallCheck(interval: nat, now: int)
    | PurgeAll(now: int)
    | Switch

  function Init(n: nat): Race {
    Race(Empty(), seq(n, _ => Idle), [])
  }

  predicate Enabled(r: Race, step: Step) {
    match step
    case Check(t, _, _) => t < |r.workers| && r.workers[t].Idle?
    case Renew(t, _, _) => t < |r.workers| && r.workers[t].Verified?
    case _ => true
  }

  function Apply(r: Race, step: Step): Race
    requires Enabled(r, step)
  {
    match step
    case Lock(id, c) =>
      r.(store := SetLock(r.store, id, c.token, c.duration, c.now), history := r.history + [Activated(id, c.token)])
    case Check(t, id, c) =>
      var (s, found) := GetToken(r.store, id, c.now);
      r.(store := s, workers := if found == Some(c.token) then r.workers[t := Verified(id, c.token)] else r.workers)
    case Renew(t, duration, now) =>
      var w := r.workers[t];
      r.(store := SetLock(r.store, w.id, w.token, duration, now), workers := r.workers[t := Idle])
    case TakeStallCheck(interval, now) => r.(store := TakeStallLock(r.store, interval, now))
    case PurgeAll(now) =>
      r.(store := r.store.(locks := TimedMaps.LazyStep(r.store.locks, now, TimedMaps.Purge).0))
    case Switch => r.(store := r.store.(locks := TimedMaps.LazyStep(r.store.locks, 0, TimedMaps.Toggle).0))
  }

  predicate Runs(r: Race, steps: seq<Step>)
    decreases |steps|
  {
    steps == [] || (Enabled(r, steps[0]) && Runs(Apply(r, steps[0]), steps[1..]))
  }

  function Run(r: Race, steps: seq<Step>): Race
    requires Runs(r, steps)
    decreases |steps|
  {
    if steps == [] then r else Run(Apply(r, steps[0]), steps[1..])
  }

  lemma Stop(r: Race)
    ensures Runs(r, []) && Run(r, []) == r
  {
  }

  lemma Then(r: Race, step: Step, rest: seq<Step>, all: seq<Step>)
    requires Enabled(r, step) && Runs(Apply(r, step), rest) && all == [step] + rest
    ensures Runs(r, all) && Run(r, all) == Run(Apply(r, step), rest)
  {
    assert all[1..] == rest;
  }

  /** Every job lock holds the token of the last activation behind its key. */
  ghost predicate Fenced(r: Race) {
    forall k :: k in r.store.locks.inner && r.store.locks.inner[k].value.Token? ==>
      F.LastToken(r.history, k) == Some(r.store.locks.inner[k].value.token)
  }

  /** The renewal writes a token that is no longer that of the last activation. */
  predicate Stale(r: Race, step: Step)
    requires Enabled(r, step)
  {
    step.Renew? && var w := r.workers[step.t]; F.LastToken(r.history, F.LockKey(w.id)) != Some(w.token)
  }

  lemma {:induction false} LastTokenGrows(history: seq<Activated>, a: Activated, k: nat)
    ensures F.LastToken(history + [a], k) == if F.LockKey(a.id) == k then Some(a.token) else F.LastToken(history, k)
  {
    assert (history + [a])[..|history|] == history;
  }

  lemma LockKeeps(r: Race, step: Step)
    requires Fenced(r) && step.Lock?
    ensures Fenced(Apply(r, step))
  {
    forall k {
      LastTokenGrows(r.history, Activated(step.id, step.claim.token), k);
    }
  }

  /** Fencing survives a store call if and only if the call is not a stale renewal. */
  lemma FencedStepIff(r: Race, step: Step)
    requires Fenced(r) && Enabled(r, step)
    ensures Fenced(Apply(r, step)) <==> !Stale(r, step)
  {
    if step.Lock? {
      LockKeeps(r, step);
    } else if step.Renew? {
      var w := r.workers[step.t];
      assert F.LockKey(w.id) in Apply(r, step).store.locks.inner;
    }
  }

  /** Some renewal that has passed its check would be made stale by the activation. */
  ghost predicate Overtakes(r: Race, step: Step) {
    step.Lock? && exists t :: 0 <= t < |r.workers| && Outdates(r.workers[t], step.id, step.claim.token)
  }

  predicate Outdates(w: Pc, id: Id, token: JobToken) {
    w.Verified? && F.LockKey(w.id) == F.LockKey(id) && w.token != token
  }

  /** Every worker that has passed its check still holds the token of the last activation. */
  ghost predicate Current(r: Race) {
    forall t :: 0 <= t < |r.workers| && r.workers[t].Verified? ==>
      F.LastToken(r.history, F.LockKey(r.workers[t].id)) == Some(r.workers[t].token)
  }

  lemma CheckKeeps(r: Race, step: Step)
    requires Fenced(r) && Current(r) && step.Check? && Enabled(r, step)
    ensures Current(Apply(r, step))
  {
    var found := VisibleToken(r.store, step.id, step.claim.now);
    assert found.Some? ==> F.LockKey(step.id) in r.store.locks.inner;
  }

  /** The workers stay current if and only if no activation overtakes one of them. */
  lemma CurrentStepIff(r: Race, step: Step)
    requires Fenced(r) && Current(r) && Enabled(r, step)
    ensures Current(Apply(r, step)) <==> !Overtakes(r, step)
  {
    if step.Check? {
      CheckKeeps(r, step);
    } else if step.Lock? {
      forall t | 0 <= t < |r.workers| && r.workers[t].Verified? {
        LastTokenGrows(r.history, Activated(step.id, step.claim.token), F.LockKey(r.workers[t].id));
      }
    }
  }

  ghost predicate NeverOvertakes(r: Race, steps: seq<Step>)
    requires Runs(r, steps)
    decreases |steps|
  {
    steps == [] || (!Overtakes(r, steps[0]) && NeverOvertakes(Apply(r, steps[0]), steps[1..]))
  }

  lemma {:induction false} RunFenced(r: Race, steps: seq<Step>)
    requires Fenced(r) && Current(r) && Runs(r, steps) && NeverOvertakes(r, steps)
    ensures Fenced(Run(r, steps)) && Current(Run(r, steps))
    decreases |steps|
  {
    hide Apply;
    if steps == [] {
    } else {
      assert !Stale(r, steps[0]);
      FencedStepIff(r, steps[0]);
      CurrentStepIff(r, steps[0]);
      RunFenced(Apply(r, steps[0]), steps[1..]);
    }
  }

  /**
    * Over every interleaving in which no activation comes between the check and the
    * renewal of another token's lock, a visible lock holds the token of the last
    * activation behind its key.
    */
  lemma LockHeldUnlessOvertaken(n: nat, steps: seq<Step>, id: Id, now: int)
    requires Runs(Init(n), steps) && NeverOvertakes(Init(n), steps)
    ensures var r := Run(Init(n), steps);
            var seen := VisibleToken(r.store, id, now);
            seen.Some? ==> seen == F.LastToken(r.history, F.LockKey(id))
  {
    RunFenced(Init(n), steps);
  }

  /** An overtaken renewal is stale, and leaves the lock with a token that is not the last one. */
  lemma OvertakenBreaksFence(r: Race, t: nat, id: Id, c: Claim, duration: nat, now: int)
    requires Fenced(r) && Current(r) && t < |r.workers| && r.workers[t].Verified?
    requires F.LockKey(r.workers[t].id) == F.LockKey(id) && r.workers[t].token != c.token
    ensures var r' := Apply(Apply(r, Lock(id, c)), Renew(t, duration, now));
            && !Fenced(r')
            && F.LastToken(r'.history, F.LockKey(id)) == Some(c.token)
            && (now < now + duration ==> VisibleToken(r'.store, id, now) == Some(r.workers[t].token))
  {
    var r1 := Apply(r, Lock(id, c));
    LastTokenGrows(r.history, Activated(id, c.token), F.LockKey(id));
    LockKeeps(r, Lock(id, c));
    FencedStepIff(r1, Renew(t, duration, now));
  }

  /** It does happen: locked by one worker, checked, locked by another, renewed by the first. */
  lemma StaleRenewalRun(id: Id, c1: Claim, c2: Claim, duration: nat, now: int)
    requires c1.token != c2.token && c1.duration > 0
    ensures var steps := [Lock(id, c1), Check(0, id, c1), Lock(id, c2), Renew(0, duration, now)];
            && Runs(Init(1), steps)
            && !Fenced(Run(Init(1), steps))
            && F.LastToken(Run(Init(1), steps).history, F.LockKey(id)) == Some(c2.token)
  {
    hide Runs, Run;
    var r1 := Apply(Init(1), Lock(id, c1));
    LockKeeps(Init(1), Lock(id, c1));
    var r2 := Apply(r1, Check(0, id, c1));
    assert r2.workers == [Verified(id, c1.token)];
    FencedStepIff(r1, Check(0, id, c1));
    CheckKeeps(r1, Check(0, id, c1));
    OvertakenBreaksFence(r2, 0, id, c2, duration, now);
    var r3 := Apply(r2, Lock(id, c2));
    var renew := Renew(0, duration, now);
    Stop(Apply(r3, renew));
    Then(r3, renew, [], [renew]);
    Then(r2, Lock(id, c2), [renew], [Lock(id, c2), renew]);
    Then(r1, Check(0, id, c1), [Lock(id, c2), renew], [Check(0, id, c1), Lock(id, c2), renew]);
    Then(Init(1), Lock(id, c1), [Check(0, id, c1), Lock(id, c2), renew],
         [Lock(id, c1), Check(0, id, c1), Lock(id, c2), renew]);
  }
}
