// What an interleaved step leaves alone: every step of the lifecycle concerns
// at most one id, and every other id is seen afterwards as before.
module Frames {
  import opened Collections
  import opened Policy
  import opened Stores
  import opened Counts
  import opened Queues
  import opened Ownership
  import S = Scores
  import T = Tags
  import TimedMaps

  /** The id an agent's next store call concerns. */
  function CallFocus(s: Store, pc: Pc): Option<Id> {
    if Claiming(pc) then Some(pc.id)
    else if pc.Seeking? then PopPrioritized(s.cols).1
    else None
  }

  /** The id a step concerns, if any. */
  function Focus(st: Sys, step: Step): Option<Id>
    requires Enabled(st, step)
  {
    match step
    case AssignId => Some(st.store.lastId + 1)
    case PlaceJob(_, _) => Some(st.producer.id)
    case Record => Some(st.producer.id)
    case Begin(_, _) => PopBackPushFront(st.store.cols).1
    case BeginMissed(_, id) => Some(id)
    case Return(t, _) => Some(st.agents[t].id)
    case Advance(t, _) => CallFocus(st.store, st.agents[t])
    case _ => None
  }

  /** One store call, seen from an id it does not concern. */
  ghost predicate Spared(s: Store, m: Move, j: Id) {
    && Queued(m.store.cols, j) <= Queued(s.cols, j)
    && InList(m.store.cols.active, j) == InList(s.cols.active, j)
    && Lookup(m.store.jobs, j) == Lookup(s.jobs, j)
    && m.store.lastId == s.lastId
    && !Claims(m.pc, j)
  }

  lemma SettleSpares(s: Store, id: Id, next: Next, raised: bool, j: Id)
    requires j != id
    ensures Spared(s, SettleCall(s, id, next, raised), j)
  {
    hide Added, Removes, Queued;
    if Requeues(next) {
      SettleCount(s.cols, id, next, raised, j);
    }
  }

  lemma LeavingSpares(s: Store, id: Id, col: T.Suffix, j: Id)
    requires j != id
    ensures Queued(Removed(s.cols, col, id), j) <= Queued(s.cols, j)
    ensures InList(Removed(s.cols, col, id).active, j) == InList(s.cols.active, j)
  {
    hide Removed, Queued;
    LeavingCount(s.cols, id, col);
  }

  lemma SeekingSpares(s: Store, j: Id)
    ensures Queued(PopPrioritized(s.cols).0, j) <= Queued(s.cols, j)
    ensures PopPrioritized(s.cols).0.active == s.cols.active
  {
    hide Queued;
    PopPrioritizedCount(s.cols, j);
  }

  lemma UnfailingSpares(s: Store, id: Id, j: Id)
    ensures Queued(Removed(s.cols, T.Failed, id), j) == Queued(s.cols, j)
    ensures Removed(s.cols, T.Failed, id).active == s.cols.active
  {
  }

  /** The call moves ids between collections; the others read, or write one record or a lock. */
  predicate Moves(pc: Pc) {
    pc.Seeking? || pc.InHand? || pc.Leaving? || pc.Ending? || pc.Settling? || pc.Unfailing?
  }

  lemma WriteSpares(s: Store, pc: Pc, x: Input, j: Id)
    requires CanAdvance(pc) && !pc.Unlinking? && !pc.Relinking? && !Moves(pc) && pc.id != j
    ensures Spared(s, Call(s, pc, x), j)
  {
    hide Queued;
  }

  lemma CallSpares(s: Store, pc: Pc, x: Input, j: Id)
    requires CanAdvance(pc) && !pc.Unlinking? && !pc.Relinking? && CallFocus(s, pc) != Some(j)
    ensures Spared(s, Call(s, pc, x), j)
  {
    hide Call, Spared;
    if Moves(pc) {
      MoveCallSpares(s, pc, x, j);
    } else {
      WriteSpares(s, pc, x, j);
    }
  }

  lemma MoveCallSpares(s: Store, pc: Pc, x: Input, j: Id)
    requires CanAdvance(pc) && Moves(pc) && CallFocus(s, pc) != Some(j)
    ensures Spared(s, Call(s, pc, x), j)
  {
    hide Queued, Removed, Decide, PopPrioritized, SettleCall;
    match pc
    case Seeking(_) => SeekingSpares(s, j);
    case InHand(id, _) => AddToList(s.cols, T.Active, id, None, true, j);
    case Leaving(id, _, prev) => LeavingSpares(s, id, SuffixOf(prev), j);
    case Ending(id, cause) => AddToEnded(s.cols, SuffixOf(Target(cause)), id, x.ts, false, j);
    case Settling(id, cause, job) =>
      if cause != MissedDeadline {
        SettleSpares(s, id, Decide(x.strategies, job, cause == Raised, x.env), cause == Raised, j);
      }
    case Unfailing(id) => UnfailingSpares(s, id, j);
  }

  lemma MoveSpares(st: Sys, t: nat, m: Move, j: Id)
    requires t < |st.agents| && Spared(st.store, m, j)
    ensures Kept(View(st, j), View(Moved(st, t, m), j))
  {
    hide Queued;
  }

  /** The agents that claim `j` are where they were. */
  ghost predicate SameClaims(a: seq<Pc>, b: seq<Pc>, j: Id) {
    && |a| == |b|
    && forall t :: 0 <= t < |a| ==> (Claims(a[t], j) || Claims(b[t], j) ==> a[t] == b[t])
  }

  lemma SameClaimed(a: seq<Pc>, b: seq<Pc>, j: Id)
    requires SameClaims(a, b, j)
    ensures Claimed(a, j) == Claimed(b, j)
  {
    if Claimed(a, j) {
      var t :| 0 <= t < |a| && Claims(a[t], j);
      assert Claims(b[t], j);
    }
    if Claimed(b, j) {
      var t :| 0 <= t < |b| && Claims(b[t], j);
      assert Claims(a[t], j);
    }
  }

  lemma BeginSpares(st: Sys, t: nat, c: Claim, j: Id)
    requires Enabled(st, Begin(t, c)) && Focus(st, Begin(t, c)) != Some(j)
    ensures View(Apply(st, Begin(t, c)), j) == View(st, j)
  {
    hide Queued, Call;
    PopWaitingCount(st.store.cols, j);
  }

  lemma PlaceSpares(st: Sys, flag: bool, now: int, j: Id)
    requires Enabled(st, PlaceJob(flag, now)) && j != st.producer.id
    ensures Kept(View(st, j), View(Apply(st, PlaceJob(flag, now)), j))
  {
    hide Place, Call, Queued;
    var p := st.producer;
    PlaceCount(st.store.cols, p.opts, p.pc, p.id, flag, now, j);
  }

  lemma PauseSpares(st: Sys, pause: bool, j: Id)
    ensures View(Apply(st, PauseOrResume(pause)), j) == View(st, j)
  {
    hide Call;
    PauseCount(st.store.cols, pause, j);
  }

  lemma CountSpares(st: Sys, opts: JobOptions, j: Id)
    requires Enabled(st, Count(opts))
    ensures View(Apply(st, Count(opts)), j) == View(st, j)
  {
    hide Call, Queued, Place, GetDelayedAt;
  }

  lemma AssignSpares(st: Sys, j: Id)
    requires Enabled(st, AssignId) && j != st.store.lastId + 1
    ensures View(Apply(st, AssignId), j) == View(st, j)
  {
    hide Call, Queued, Place, GetDelayedAt;
  }

  lemma TouchSpares(st: Sys, locks: TimedMaps.Timed<nat, LockValue>, j: Id)
    ensures View(Apply(st, TouchLocks(locks)), j) == View(st, j)
  {
    hide Call, Queued, Place, GetDelayedAt;
  }

  lemma BeginMissedSpares(st: Sys, t: nat, id: Id, j: Id)
    requires Enabled(st, BeginMissed(t, id)) && j != id
    ensures View(Apply(st, BeginMissed(t, id)), j) == View(st, j)
  {
    hide Call, Queued, Place, GetDelayedAt;
  }

  lemma RecordSpares(st: Sys, j: Id)
    requires Enabled(st, Record) && j != st.producer.id
    ensures View(Apply(st, Record), j) == View(st, j)
  {
    hide Call, Queued;
  }

  lemma ReturnSpares(st: Sys, t: nat, raised: bool, j: Id)
    requires Enabled(st, Return(t, raised))
    ensures View(Apply(st, Return(t, raised)), j) == View(st, j)
  {
    hide Call, Queued;
  }

  lemma AgentChange(a: seq<Pc>, t: nat, pc: Pc, j: Id)
    requires t < |a| && !Claims(a[t], j) && !Claims(pc, j)
    ensures SameClaims(a, a[t := pc], j)
  {
  }

  /** Nobody takes up or lets go of an id the step does not concern. */
  lemma StepClaims(st: Sys, step: Step, j: Id)
    requires Inv(st) && Enabled(st, step) && Focus(st, step) != Some(j)
    ensures SameClaims(st.agents, Apply(st, step).agents, j)
  {
    hide Inv, Call, Place, GetDelayedAt, PopPrioritized;
    match step
    case Begin(t, _) => AgentChange(st.agents, t, Apply(st, step).agents[t], j);
    case BeginMissed(t, id) => AgentChange(st.agents, t, Overdue(id), j);
    case Return(t, _) => AgentChange(st.agents, t, Apply(st, step).agents[t], j);
    case Advance(t, x) =>
      NoDetour(st, t);
      CallSpares(st.store, st.agents[t], x, j);
      AgentChange(st.agents, t, Call(st.store, st.agents[t], x).pc, j);
    case _ =>
  }

  lemma NoDetour(st: Sys, t: nat)
    requires Inv(st) && t < |st.agents|
    ensures !st.agents[t].Unlinking? && !st.agents[t].Relinking?
  {
  }

  /** A step leaves every id it does not concern as it was, except that an overwritten score may drop it. */
  lemma StepSpares(st: Sys, step: Step, j: Id)
    requires Inv(st) && Enabled(st, step) && Focus(st, step) != Some(j)
    ensures Kept(View(st, j), View(Apply(st, step), j))
    ensures SameClaims(st.agents, Apply(st, step).agents, j)
  {
    hide View, Call, Place, GetDelayedAt, PopPrioritized, SameClaims;
    StepClaims(st, step, j);
    match step
    case PlaceJob(flag, now) => PlaceSpares(st, flag, now, j);
    case PauseOrResume(pause) => PauseSpares(st, pause, j);
    case PollDelayed(start, stop) => PollView(st, start, stop, j);
    case Deliver(id) => DeliverView(st, id, j);
    case Begin(t, c) => BeginSpares(st, t, c, j);
    case Record => RecordSpares(st, j);
    case Return(t, raised) => ReturnSpares(st, t, raised, j);
    case Advance(t, x) => AdvanceSpares(st, t, x, j);
    case Count(opts) => CountSpares(st, opts, j);
    case AssignId => AssignSpares(st, j);
    case TouchLocks(locks) => TouchSpares(st, locks, j);
    case BeginMissed(t, id) => BeginMissedSpares(st, t, id, j);
  }

  lemma AdvanceSpares(st: Sys, t: nat, x: Input, j: Id)
    requires Inv(st) && Enabled(st, Advance(t, x)) && Focus(st, Advance(t, x)) != Some(j)
    ensures Kept(View(st, j), View(Apply(st, Advance(t, x)), j))
  {
    hide View, Call;
    CallSpares(st.store, st.agents[t], x, j);
    MoveSpares(st, t, Call(st.store, st.agents[t], x), j);
  }

  // ---- What a step does to the id it concerns ----

  lemma SettleKeepsActive(s: Store, pc: Pc, x: Input)
    requires pc.Settling? && CanAdvance(pc)
    ensures Call(s, pc, x).store.cols.active == s.cols.active && !Claiming(Call(s, pc, x).pc)
  {
    hide Decide, Removes;
  }

  /** When an agent lets go of its id: a lookup failed, or the run is settled. */
  lemma LettingGo(s: Store, pc: Pc, x: Input)
    requires CanAdvance(pc) && Claiming(pc) && !Claims(Call(s, pc, x).pc, pc.id)
    requires pc.Ensuring? ==> pc.id in s.cols.active
    ensures Call(s, pc, x).store.cols.active == s.cols.active && !Claiming(Call(s, pc, x).pc)
    ensures pc.Settling? || (pc.id !in s.jobs && (pc.Checking? || pc.Fetching? || pc.Verifying? || pc.Deciding?))
  {
    hide SettleCall, Decide, Removed, Added;
    if pc.Settling? {
      SettleKeepsActive(s, pc, x);
    }
  }

  lemma ProducerIsQuiet(st: Sys, step: Step)
    requires Enabled(st, step) && (step.AssignId? || step.PlaceJob? || step.Record?)
    ensures Apply(st, step).agents == st.agents && Apply(st, step).store.cols.active == st.store.cols.active
  {
    hide Call, GetDelayedAt, S.Score;
  }

  lemma TakenUp(st: Sys, step: Step, id: Id)
    requires Enabled(st, step) && Focus(st, step) == Some(id)
    requires step.Begin? || step.BeginMissed? || step.Return? || (step.Advance? && !Claiming(st.agents[step.t]))
    ensures Claimed(Apply(st, step).agents, id)
  {
    hide Call, PopPrioritized, GetDelayedAt, Place, Holding;
    assert Holding(Overdue(id)) by {
      HoldsOverdue(id);
    }
    match step
    case Begin(t, _) => assert Claims(Apply(st, step).agents[t], id);
    case BeginMissed(t, _) => assert Claims(Apply(st, step).agents[t], id);
    case Return(t, _) => assert Claims(Apply(st, step).agents[t], id);
    case Advance(t, x) =>
      SeekingTakes(st.store, st.agents[t], x, id);
      assert Claims(Apply(st, step).agents[t], id);
  }

  lemma HoldsOverdue(id: Id)
    ensures Holding(Overdue(id))
  {
  }

  lemma SeekingTakes(s: Store, pc: Pc, x: Input, id: Id)
    requires pc.Seeking? && CallFocus(s, pc) == Some(id)
    ensures Claims(Call(s, pc, x).pc, id)
  {
  }
}
