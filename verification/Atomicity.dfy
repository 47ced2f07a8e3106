// The two views of the lifecycle agree: an agent whose store calls nobody
// interrupts has the effect of the queue operation it carries out.
module Atomicity {
  import opened Collections
  import opened Policy
  import opened Stores
  import opened Queues
  import opened Ownership
  import T = Tags

  /** Store calls an agent has left before it rests, at most. */
  function Left(pc: Pc): nat {
    match pc
    case Free => 0
    case Running(_) => 0
    case Seeking(_) => 11
    case InHand(_, _) => 10
    case Reading(_, _) => 9
    case Locking(_, _, _) => 8
    case Checking(_, _, _) => 7
    case Ensuring(_, _, _) => 6
    case Unlinking(_, _, _) => 5
    case Relinking(_, _) => 4
    case Marking(_, _) => 3
    case Stamping(_, _) => 2
    case Fetching(_, _) => 1
    case Overdue(_) => 9
    case Verifying(_, _, _) => 8
    case Counting(_, _, _) => 7
    case Leaving(_, _, _) => 6
    case Ending(_, _) => 5
    case Closing(_, _) => 4
    case Deciding(_, _) => 3
    case Settling(_, _, _) => 2
    case Unfailing(_) => 1
  }

  /** Every store call brings the agent closer to rest, so no operation runs forever. */
  lemma CallDescends(s: Store, pc: Pc, x: Input)
    requires CanAdvance(pc)
    ensures Left(Call(s, pc, x).pc) < Left(pc)
  {
    hide Added, Removed, PopPrioritized, Decide, GetState;
  }

  /** Where the store and the agent end up when nobody else moves. */
  function Alone(s: Store, pc: Pc, x: Input): (Store, Pc)
    decreases Left(pc)
  {
    if !CanAdvance(pc) then (s, pc) else
      CallDescends(s, pc, x);
      var m := Call(s, pc, x);
      Alone(m.store, m.pc, x)
  }

  lemma Forward(s: Store, pc: Pc, x: Input, s': Store, pc': Pc)
    requires CanAdvance(pc) && Call(s, pc, x).store == s' && Call(s, pc, x).pc == pc'
    ensures Alone(s, pc, x) == Alone(s', pc', x)
  {
  }

  lemma Stop(s: Store, pc: Pc, x: Input)
    requires !CanAdvance(pc)
    ensures Alone(s, pc, x) == (s, pc)
  {
  }

  function Rests(r: Activation): Pc {
    if r.Ready? then Running(r.id) else Free
  }

  lemma AloneMarks(s: Store, id: Id, c: Claim, x: Input)
    requires id in s.jobs
    ensures Alone(s, Marking(id, c), x) == (SetToken(SetState(s, id, JobState.Active), id, c.token), Running(id))
  {
    hide Alone;
    var s1 := SetState(s, id, JobState.Active);
    var s2 := SetToken(s1, id, c.token);
    Forward(s, Marking(id, c), x, s1, Stamping(id, c));
    Forward(s1, Stamping(id, c), x, s2, Fetching(id, c));
    Forward(s2, Fetching(id, c), x, s2, Running(id));
    Stop(s2, Running(id), x);
  }

  lemma LockKeeps(s: Store, id: Id, c: Claim)
    ensures SetLock(s, id, c.token, c.duration, c.now).jobs == s.jobs
  {
  }

  lemma AloneEnsures(s: Store, id: Id, prev: JobState, c: Claim, x: Input)
    ensures Alone(s, Ensuring(id, c, prev), x) == Alone(EnsureIn(s, id, prev, JobState.Active), Marking(id, c), x)
  {
    hide Alone, Removed;
    if id in s.cols.active {
      Forward(s, Ensuring(id, c, prev), x, s, Marking(id, c));
    } else {
      var s1 := RemoveItem(s, SuffixOf(prev), id);
      Forward(s, Ensuring(id, c, prev), x, s, Unlinking(id, c, prev));
      Forward(s, Unlinking(id, c, prev), x, s1, Relinking(id, c));
      Forward(s1, Relinking(id, c), x, AddItem(s1, T.Active, id, None, false), Marking(id, c));
    }
  }

  lemma AlonePrepares(s: Store, id: Id, prev: JobState, c: Claim, x: Input)
    ensures Alone(s, Locking(id, c, prev), x) == (Prepare(s, id, prev, c).0, Rests(Prepare(s, id, prev, c).1))
  {
    hide Alone, SetLock, Added, Removed;
    var s1 := SetLock(s, id, c.token, c.duration, c.now);
    LockKeeps(s, id, c);
    Forward(s, Locking(id, c, prev), x, s1, Checking(id, c, prev));
    if id !in s.jobs {
      Forward(s1, Checking(id, c, prev), x, s1, Free);
      Stop(s1, Free, x);
    } else {
      Forward(s1, Checking(id, c, prev), x, s1, Ensuring(id, c, prev));
      AloneEnsures(s1, id, prev, c, x);
      AloneMarks(EnsureIn(s1, id, prev, JobState.Active), id, c, x);
    }
  }

  /** An uninterrupted worker that looks for a job performs `move_to_active`. */
  lemma AloneActivates(st: Sys, t: nat, c: Claim, x: Input)
    requires t < |st.agents| && st.agents[t].Free?
    ensures var st' := Apply(st, Begin(t, c));
            Alone(st'.store, st'.agents[t], x) == (MoveToActive(st.store, c).0, Rests(MoveToActive(st.store, c).1))
  {
    hide Alone, Prepare, PopPrioritized;
    var s := st.store;
    var (c1, id) := PopBackPushFront(s.cols);
    var s1 := s.(cols := c1);
    if id.Some? {
      AloneReads(s1, id.value, c, x);
    } else {
      var (c2, p) := PopPrioritized(s1.cols);
      var s2 := s1.(cols := c2);
      if p.None? {
        Forward(s1, Seeking(c), x, s2, Free);
        Stop(s2, Free, x);
      } else {
        var s3 := AddItem(s2, T.Active, p.value, None, true);
        Forward(s1, Seeking(c), x, s2, InHand(p.value, c));
        Forward(s2, InHand(p.value, c), x, s3, Reading(p.value, c));
        AloneReads(s3, p.value, c, x);
      }
    }
  }

  lemma AloneReads(s: Store, id: Id, c: Claim, x: Input)
    ensures var (s', r) := Prepare(s, id, GetState(s, id), c);
            Alone(s, Reading(id, c), x) == (s', Rests(r))
  {
    hide Alone, Prepare;
    Forward(s, Reading(id, c), x, s, Locking(id, c, GetState(s, id)));
    AlonePrepares(s, id, GetState(s, id), c, x);
  }

  lemma AloneRelinks(s: Store, id: Id, cause: Cause, prev: JobState, x: Input)
    ensures Alone(s, Leaving(id, cause, prev), x)
         == Alone(Relink(s, id, prev, Target(cause), Some(x.ts)), Closing(id, cause), x)
  {
    hide Alone, Added, Removed;
    var s1 := RemoveItem(s, SuffixOf(prev), id);
    Forward(s, Leaving(id, cause, prev), x, s1, Ending(id, cause));
    Forward(s1, Ending(id, cause), x, Relink(s, id, prev, Target(cause), Some(x.ts)), Closing(id, cause));
  }

  lemma RelinkKeeps(s: Store, id: Id, from: JobState, to: JobState, ts: int)
    ensures Relink(s, id, from, to, Some(ts)).jobs == s.jobs
  {
  }

  lemma AloneCounts(s: Store, id: Id, cause: Cause, prev: JobState, x: Input)
    requires id in s.jobs
    ensures Alone(s, Verifying(id, cause, prev), x) == Alone(IncrAttempts(s, id), Leaving(id, cause, prev), x)
  {
    hide Alone;
    Forward(s, Verifying(id, cause, prev), x, s, Counting(id, cause, prev));
    Forward(s, Counting(id, cause, prev), x, IncrAttempts(s, id), Leaving(id, cause, prev));
  }

  lemma AloneCloses(s: Store, id: Id, cause: Cause, x: Input)
    requires id in s.jobs
    ensures var s' := SetState(s, id, Target(cause));
            Alone(s, Closing(id, cause), x) == Alone(s', Settling(id, cause, s'.jobs[id]), x)
  {
    hide Alone;
    var s' := SetState(s, id, Target(cause));
    Forward(s, Closing(id, cause), x, s', Deciding(id, cause));
    Forward(s', Deciding(id, cause), x, s', Settling(id, cause, s'.jobs[id]));
  }

  /** The store calls that end a run, up to reading the record back. */
  lemma AloneEnds(s: Store, id: Id, cause: Cause, x: Input)
    requires id in s.jobs
    ensures var (s', job) := MoveToEnd(s, id, Target(cause), x.ts);
            && job.Some?
            && Alone(s, Verifying(id, cause, GetState(s, id)), x) == Alone(s', Settling(id, cause, job.value), x)
  {
    hide Alone, Call, Relink;
    var prev := GetState(s, id);
    var s1 := IncrAttempts(s, id);
    var s2 := Relink(s1, id, prev, Target(cause), Some(x.ts));
    AloneCounts(s, id, cause, prev, x);
    AloneRelinks(s1, id, cause, prev, x);
    RelinkKeeps(s1, id, prev, Target(cause), x.ts);
    AloneCloses(s2, id, cause, x);
  }

  lemma AloneSettles(s: Store, id: Id, cause: Cause, job: Job, x: Input)
    requires cause != MissedDeadline && job.attemptsMade > 0
    ensures Alone(s, Settling(id, cause, job), x)
         == (Settle(s, id, Decide(x.strategies, job, cause == Raised, x.env), cause == Raised), Free)
  {
    hide Alone, Decide, Added, Removed;
    var next := Decide(x.strategies, job, cause == Raised, x.env);
    var m := SettleCall(s, id, next, cause == Raised);
    Forward(s, Settling(id, cause, job), x, m.store, m.pc);
    if m.pc.Free? {
      Stop(m.store, Free, x);
    } else {
      var s' := RemoveItem(m.store, T.Failed, id);
      Forward(m.store, Unfailing(id), x, s', Free);
      Stop(s', Free, x);
    }
  }

  /** An uninterrupted worker whose processor has returned performs the second half of `process_job`. */
  lemma AloneFinishes(st: Sys, t: nat, raised: bool, x: Input)
    requires t < |st.agents| && st.agents[t].Running?
    ensures var st' := Apply(st, Return(t, raised));
            Alone(st'.store, st'.agents[t], x)
              == (FinishRun(st.store, x.strategies, st.agents[t].id, raised, x.ts, x.env).0, Free)
  {
    hide Alone, MoveToEnd, Settle, Decide;
    var s, id := st.store, st.agents[t].id;
    var cause := if raised then Raised else Succeeded;
    if id in s.jobs {
      AloneEnds(s, id, cause, x);
      var (s', job) := MoveToEnd(s, id, Target(cause), x.ts);
      AloneSettles(s', id, cause, job.value, x);
    } else {
      Forward(s, Verifying(id, cause, GetState(s, id)), x, s, Free);
      Stop(s, Free, x);
      MissingEnds(s, id, Target(cause), x.ts);
    }
  }

  lemma MissingEnds(s: Store, id: Id, to: JobState, ts: int)
    requires Ends(to) && id !in s.jobs
    ensures MoveToEnd(s, id, to, ts) == (s, None)
  {
  }

  /** An uninterrupted task for a missed job fails it, and decides nothing more. */
  lemma AloneMisses(s: Store, id: Id, x: Input)
    ensures Alone(s, Overdue(id), x) == (MoveToEnd(s, id, JobState.Failed, x.ts).0, Free)
  {
    hide Alone, MoveToEnd;
    Forward(s, Overdue(id), x, s, Verifying(id, MissedDeadline, GetState(s, id)));
    if id in s.jobs {
      AloneEnds(s, id, MissedDeadline, x);
      var (s', job) := MoveToEnd(s, id, JobState.Failed, x.ts);
      Forward(s', Settling(id, MissedDeadline, job.value), x, s', Free);
      Stop(s', Free, x);
    } else {
      Forward(s, Verifying(id, MissedDeadline, GetState(s, id)), x, s, Free);
      Stop(s, Free, x);
      MissingEnds(s, id, JobState.Failed, x.ts);
    }
  }

  /** An uninterrupted producer inserts like one round of `add_bulk`. */
  lemma AloneInserts(st: Sys, opts: JobOptions, flag: bool, now: int)
    requires st.producer.Resting?
    ensures var placed := Apply(Apply(Apply(st, Count(opts)), AssignId), PlaceJob(flag, now));
            var (s', r) := AddJob(st.store, opts, flag, now);
            if r.Accepted?
            then placed.producer.Placed? && Apply(placed, Record).store == s' && Apply(placed, Record).producer.Resting?
            else placed.producer.Resting? && placed.store == s'
  {
    hide Call, Place;
  }
}
