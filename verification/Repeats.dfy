// The repeat limit over whole interleaved runs: a job that never fails and never
// misses a deadline runs at most once more often than its policy repeats it.
module Repeats {
  import opened Collections
  import opened Policy
  import opened Stores
  import opened Counts
  import opened Queues
  import opened Ownership
  import opened Frames
  import opened Homes
  import S = Scores
  import T = Tags

  /** An agent that handles a job which only ever succeeds, at most `m` attempts in when not counted yet. */
  ghost predicate Succeeding(pc: Pc, v: Local, m: nat)
    requires Claiming(pc)
  {
    && !pc.Overdue?
    && (pc.Verifying? || Charged(pc) || pc.Counting? ==> pc.cause == Succeeded)
    && (v.record.Some? && !Charged(pc) ==> v.record.value.attemptsMade <= m)
  }

  /** The record, the starts and the place of the job are within the limit. */
  ghost predicate Within(v: Local, claimed: bool, m: nat) {
    && v.starts <= m + 1
    && (v.record.Some? ==>
          && StopsAfter(v.record.value.opts.repeat, m)
          && v.record.value.attemptsMade <= m + 1
          && (!claimed && v.stored > 0 ==> v.record.value.attemptsMade <= m))
  }

  ghost predicate Limited(st: Sys, id: Id, m: nat) {
    && Within(View(st, id), Claimed(st.agents, id), m)
    && forall t :: 0 <= t < |st.agents| && Claims(st.agents[t], id) ==> Succeeding(st.agents[t], View(st, id), m)
  }

  /** The step does not fail a run of `id`, miss its deadline, or give it another policy. */
  predicate Smooth(st: Sys, step: Step, id: Id, m: nat)
    requires Enabled(st, step)
  {
    match step
    case Return(t, raised) => st.agents[t].id == id ==> !raised
    case BeginMissed(_, missed) => missed != id
    case Record => st.producer.id == id ==> StopsAfter(st.producer.opts.repeat, m)
    case _ => true
  }

  predicate SmoothRun(st: Sys, steps: seq<Step>, id: Id, m: nat)
    requires Legal(st, steps)
    decreases |steps|
  {
    steps == [] || (Smooth(st, steps[0], id, m) && SmoothRun(Apply(st, steps[0]), steps[1..], id, m))
  }

  lemma SparedKeeps(st: Sys, st': Sys, id: Id, m: nat)
    requires Limited(st, id, m) && Ownership.Kept(View(st, id), View(st', id)) && SameClaims(st.agents, st'.agents, id)
    ensures Limited(st', id, m)
  {
    SameClaimed(st.agents, st'.agents, id);
  }

  /** Only agent `t` claims the id after the step, if anyone does. */
  lemma FocusKeeps(st': Sys, t: nat, id: Id, m: nat)
    requires t < |st'.agents|
    requires forall u :: 0 <= u < |st'.agents| && u != t ==> !Claims(st'.agents[u], id)
    requires Within(View(st', id), Claims(st'.agents[t], id), m)
    requires Claims(st'.agents[t], id) ==> Succeeding(st'.agents[t], View(st', id), m)
    ensures Limited(st', id, m)
  {
    hide View;
    assert Claimed(st'.agents, id) == Claims(st'.agents[t], id);
  }

  function Made(s: Store, id: Id): nat {
    if id in s.jobs then s.jobs[id].attemptsMade else 0
  }

  /** What one store call does to the record, the starts and the place of the claimed id. */
  ghost predicate CallEffect(s: Store, pc: Pc, m: Move)
    requires Claiming(pc)
  {
    var counted := Made(s, pc.id) + Bit(pc.Counting?);
    && (pc.id in m.store.jobs ==> pc.id in s.jobs && m.store.jobs[pc.id].opts == s.jobs[pc.id].opts
                                  && m.store.jobs[pc.id].attemptsMade == counted)
    && (m.started && Claiming(m.pc) ==> pc.Fetching? || (pc.Verifying? && pc.cause == MissedDeadline))
    && (Claiming(m.pc) ==> m.pc.id == pc.id)
    && (!Claiming(m.pc) && !pc.Settling? ==> pc.id !in m.store.jobs)
    && (Claiming(m.pc) ==>
          && !m.pc.Overdue?
          && (pc.Overdue? || Charged(m.pc) == (Charged(pc) || pc.Counting?))
          && (m.pc.Verifying? ==> pc.Overdue?)
          && (Charged(m.pc) || m.pc.Counting? ==>
                (Charged(pc) || pc.Verifying? || pc.Counting?) && m.pc.cause == pc.cause))
  }

  lemma CallHas(s: Store, pc: Pc, x: Input)
    requires CanAdvance(pc) && Claiming(pc) && (pc.Ensuring? ==> pc.id in s.cols.active)
    ensures CallEffect(s, pc, Call(s, pc, x))
  {
    hide Added, Removed, Decide, Removes;
  }

  /** A success that is repeated was not beyond the limit; otherwise the job is listed nowhere new. */
  lemma SettledWithin(s: Store, pc: Pc, x: Input, m: nat)
    requires pc.Settling? && pc.cause == Succeeded && CanAdvance(pc) && StopsAfter(pc.job.opts.repeat, m)
    ensures var c := Call(s, pc, x);
            && !Claiming(c.pc)
            && (c.store.cols == s.cols || pc.job.attemptsMade <= m)
  {
    hide Removes, Added;
  }

  lemma AdvanceLimited(st: Sys, t: nat, x: Input, id: Id, m: nat)
    requires Inv(st) && Enabled(st, Advance(t, x)) && Claims(st.agents[t], id) && Limited(st, id, m)
    ensures Limited(Apply(st, Advance(t, x)), id, m)
  {
    hide Call, Limited;
    var pc := st.agents[t];
    assert AgentOk(pc, View(st, id));
    assert pc.Ensuring? ==> InList(st.store.cols.active, id) > 0;
    CallHas(st.store, pc, x);
    if pc.Settling? {
      SettlingLimited(st, t, x, id, m);
    } else {
      MovedLimited(st, t, Call(st.store, pc, x), id, m);
    }
  }

  lemma SettlingLimited(st: Sys, t: nat, x: Input, id: Id, m: nat)
    requires Inv(st) && Enabled(st, Advance(t, x)) && Claims(st.agents[t], id) && st.agents[t].Settling?
    requires Limited(st, id, m)
    requires CallEffect(st.store, st.agents[t], Call(st.store, st.agents[t], x))
    ensures Limited(Apply(st, Advance(t, x)), id, m)
  {
    hide Call;
    var pc := st.agents[t];
    assert IdOk(View(st, id), Claimed(st.agents, id)) && AgentOk(pc, View(st, id));
    SettledWithin(st.store, pc, x, m);
    FocusKeeps(Apply(st, Advance(t, x)), t, id, m);
  }

  lemma MovedLimited(st: Sys, t: nat, c: Move, id: Id, m: nat)
    requires Inv(st) && t < |st.agents| && Claims(st.agents[t], id) && !st.agents[t].Settling? && Limited(st, id, m)
    requires CallEffect(st.store, st.agents[t], c)
    ensures Limited(Moved(st, t, c), id, m)
  {
    hide Queued;
    assert IdOk(View(st, id), Claimed(st.agents, id)) && AgentOk(st.agents[t], View(st, id));
    FocusKeeps(Moved(st, t, c), t, id, m);
  }

  lemma OthersClear(st: Sys, t: nat, id: Id)
    requires Inv(st) && t < |st.agents| && (Claims(st.agents[t], id) || !Claimed(st.agents, id))
    ensures forall u :: 0 <= u < |st.agents| && u != t ==> !Claims(st.agents[u], id)
  {
  }

  lemma ReturnLimited(st: Sys, t: nat, id: Id, m: nat)
    requires Inv(st) && Enabled(st, Return(t, false)) && st.agents[t].id == id && Limited(st, id, m)
    ensures Limited(Apply(st, Return(t, false)), id, m)
  {
    hide Call, Queued;
    assert Claims(st.agents[t], id);
    OthersClear(st, t, id);
    ReturnSpares(st, t, false, id);
    FocusKeeps(Apply(st, Return(t, false)), t, id, m);
  }

  /** An agent takes up a job that was listed, and so within the limit. */
  lemma TakenLimited(st: Sys, st': Sys, t: nat, pc: Pc, id: Id, m: nat)
    requires Inv(st) && t < |st.agents| && st'.agents == st.agents[t := pc] && Limited(st, id, m)
    requires (pc.Reading? || pc.InHand?) && pc.id == id && !Claimed(st.agents, id) && Stored(st, id) > 0
    requires st'.store.jobs == st.store.jobs && st'.starts == st.starts
    ensures Limited(st', id, m)
  {
    hide Queued, Stored;
    OthersClear(st, t, id);
    assert View(st', id).record == View(st, id).record && View(st', id).starts == View(st, id).starts;
    FocusKeeps(st', t, id, m);
  }

  lemma BeginLimited(st: Sys, t: nat, c: Claim, id: Id, m: nat)
    requires Inv(st) && Enabled(st, Begin(t, c)) && Focus(st, Begin(t, c)) == Some(id) && Limited(st, id, m)
    ensures Limited(Apply(st, Begin(t, c)), id, m)
  {
    hide Call, Limited;
    assert IdOk(View(st, id), Claimed(st.agents, id));
    PopWaitingCount(st.store.cols, id);
    StoredIsUnclaimed(st, id);
    TakenLimited(st, Apply(st, Begin(t, c)), t, Reading(id, c), id, m);
  }

  lemma SeekingLimited(st: Sys, t: nat, x: Input, id: Id, m: nat)
    requires Inv(st) && Enabled(st, Advance(t, x)) && st.agents[t].Seeking? && Limited(st, id, m)
    requires Focus(st, Advance(t, x)) == Some(id)
    ensures Limited(Apply(st, Advance(t, x)), id, m)
  {
    hide Limited, PopPrioritized, Queued;
    SeekingPops(st.store.cols, id);
    StoredIsUnclaimed(st, id);
    TakenLimited(st, Apply(st, Advance(t, x)), t, InHand(id, st.agents[t].claim), id, m);
  }

  lemma SeekingPops(c: Cols, id: Id)
    requires PopPrioritized(c).1 == Some(id)
    ensures Queued(c, id) > InList(c.active, id)
  {
    PopPrioritizedCount(c, id);
  }

  /** A job that is being inserted has no record yet, and starts with none of its attempts spent. */
  lemma ProducerLimited(st: Sys, step: Step, id: Id, m: nat)
    requires Inv(st) && Enabled(st, step) && Focus(st, step) == Some(id) && Limited(st, id, m)
    requires (step.AssignId? || step.PlaceJob? || step.Record?) && Smooth(st, step, id, m)
    ensures Limited(Apply(st, step), id, m)
  {
    hide Call, Queued, Place;
    assert IdOk(View(st, id), Claimed(st.agents, id));
    assert forall t :: 0 <= t < |st.agents| && Claims(st.agents[t], id) ==> AgentOk(st.agents[t], View(st, id));
  }

  lemma StepLimited(st: Sys, step: Step, id: Id, m: nat)
    requires Inv(st) && Enabled(st, step) && Limited(st, id, m) && Smooth(st, step, id, m)
    ensures Limited(Apply(st, step), id, m)
  {
    hide Inv, Limited, Apply, Call, PopPrioritized;
    if Focus(st, step) != Some(id) {
      StepSpares(st, step, id);
      SparedKeeps(st, Apply(st, step), id, m);
    } else {
      match step
      case Begin(t, c) => BeginLimited(st, t, c, id, m);
      case Return(t, _) => ReturnLimited(st, t, id, m);
      case Advance(t, x) =>
        if st.agents[t].Seeking? {
          SeekingLimited(st, t, x, id, m);
        } else {
          AdvanceLimited(st, t, x, id, m);
        }
      case _ => ProducerLimited(st, step, id, m);
    }
  }

  lemma {:induction false} RunLimited(st: Sys, steps: seq<Step>, id: Id, m: nat)
    requires Inv(st) && Limited(st, id, m) && Legal(st, steps) && SmoothRun(st, steps, id, m)
    ensures Limited(Run(st, steps), id, m)
    decreases |steps|
  {
    hide Inv, Limited, Apply, Smooth, Enabled;
    if steps == [] {
    } else {
      StepKeeps(st, steps[0]);
      StepLimited(st, steps[0], id, m);
      RunLimited(Apply(st, steps[0]), steps[1..], id, m);
    }
  }

  /**
    * Over every interleaved run in which no run of the job fails and no deadline of
    * it is missed, a job whose policy repeats it `m` times is started at most
    * min(max(1, attempts), m + 1) times.
    */
  lemma RepeatBound(n: nat, steps: seq<Step>, id: Id, m: nat)
    requires Legal(Init(n), steps) && SmoothRun(Init(n), steps, id, m)
    ensures var st := Run(Init(n), steps);
            Starts(st, id) <= if id in st.accepted then Min(Max(1, st.accepted[id].attempts), m + 1) else 0
  {
    hide Inv, Apply, SmoothRun;
    InitOk(n);
    InitLimited(n, id, m);
    RunLimited(Init(n), steps, id, m);
    BoundedAttempts(n, steps, id);
  }

  lemma InitLimited(n: nat, id: Id, m: nat)
    ensures Limited(Init(n), id, m)
  {
    hide Queued;
  }

  // ---- The exact number ----

  /** Starts and attempts agree, and a job that has come to rest has used up its repeats. */
  ghost predicate Tallied(v: Local, claimed: bool, m: nat) {
    && (v.accepted.Some? ==> StopsAfter(v.accepted.value.repeat, m))
    && (v.inserting ==> claimed || v.stored > 0)
    && (v.accepted.Some? && !claimed && v.stored == 0 ==> v.starts == Min(Cap(v.accepted.value), m + 1))
    && (v.record.Some? && !claimed ==> v.starts == v.record.value.attemptsMade)
  }

  ghost predicate Tally(pc: Pc, v: Local) {
    v.record.Some? ==> v.starts == v.record.value.attemptsMade + Bit(Started(pc))
  }

  ghost predicate Exact(st: Sys, id: Id, m: nat) {
    && Tallied(View(st, id), Claimed(st.agents, id), m)
    && forall t :: 0 <= t < |st.agents| && Claims(st.agents[t], id) ==> Tally(st.agents[t], View(st, id))
  }

  /** The step is smooth for the job, writes to unused scores, and gives the job no negative delay. */
  predicate Gentle(st: Sys, step: Step, id: Id, m: nat)
    requires Enabled(st, step)
  {
    && Smooth(st, step, id, m)
    && Fresh(st, step)
    && (step.PlaceJob? && st.producer.id == id ==> st.producer.opts.delayMs >= 0)
  }

  predicate GentleRun(st: Sys, steps: seq<Step>, id: Id, m: nat)
    requires Legal(st, steps)
    decreases |steps|
  {
    steps == [] || (Gentle(st, steps[0], id, m) && GentleRun(Apply(st, steps[0]), steps[1..], id, m))
  }

  // With unused scores a step keeps every listing of the ids it is not about.

  lemma LeavingKeepsQueued(c: Cols, col: T.Suffix, item: Id, id: Id)
    requires id != item && item !in c.prioritized && item !in c.delayed
    ensures Queued(Removed(c, col, item), id) == Queued(c, id)
  {
    match col
    case Active => InListWithout(c.active, item, id);
    case Wait => InListWithout(c.waiting, item, id);
    case Paused => InListWithout(c.paused, item, id);
    case Prioritized => InMapDropping(c.prioritized, item, id);
    case Delayed => InMapDropping(c.delayed, item, id);
    case _ =>
  }

  lemma SettleKeepsQueued(s: Store, pc: Pc, x: Input, id: Id)
    requires pc.Settling? && CanAdvance(pc) && FreshCall(s.cols, pc, x)
    ensures Queued(Call(s, pc, x).store.cols, id) == Queued(s.cols, id) + Bit(Requeues(Outcome(pc, x)) && id == pc.id)
  {
    hide Decide, Removes, Queued, Added;
    match Outcome(pc, x)
    case ToWait => AddToList(s.cols, T.Wait, pc.id, None, true, id);
    case ToDelayed(score) => AddToDelayed(s.cols, pc.id, score, pc.cause != Raised, id);
    case _ =>
  }

  lemma CallKeepsQueued(s: Store, pc: Pc, x: Input, id: Id)
    requires CanAdvance(pc) && !pc.Unlinking? && !pc.Relinking?
    requires CallFocus(s, pc) != Some(id) && FreshCall(s.cols, pc, x)
    ensures Queued(Call(s, pc, x).store.cols, id) == Queued(s.cols, id)
  {
    hide Queued, Removed, PopPrioritized, Decide;
    match pc
    case Seeking(_) => PopPrioritizedCount(s.cols, id);
    case InHand(item, _) => AddToList(s.cols, T.Active, item, None, true, id);
    case Leaving(item, _, prev) => LeavingKeepsQueued(s.cols, SuffixOf(prev), item, id);
    case Ending(item, cause) => AddToEnded(s.cols, SuffixOf(Target(cause)), item, x.ts, false, id);
    case Settling(_, _, _) => SettleKeepsQueued(s, pc, x, id);
    case Unfailing(item) => UnfailingSpares(s, item, id);
    case _ =>
  }

  lemma PlaceKeepsQueued(st: Sys, flag: bool, now: int, id: Id)
    requires Enabled(st, PlaceJob(flag, now)) && Fresh(st, PlaceJob(flag, now)) && !TooShort(st.producer.opts)
    ensures var p := st.producer;
            Queued(Apply(st, PlaceJob(flag, now)).store.cols, id)
            == Queued(st.store.cols, id) + Bit(!Unlisted(p.opts) && id == p.id)
  {
    hide Call, Queued, Added, S.Score;
    var p := st.producer;
    if Unsigned(p.opts.delayMs) > 0 {
      AddToDelayed(st.store.cols, p.id, now + p.opts.delayMs, false, id);
    } else if p.opts.priority > 0 {
      AddToPrioritized(st.store.cols, p.id, S.Score(p.opts.priority, p.pc), true, id);
    } else {
      AddToList(st.store.cols, if flag then T.Paused else T.Wait, p.id, None, true, id);
    }
  }

  lemma PlaceKeepsView(st: Sys, flag: bool, now: int, id: Id)
    requires Enabled(st, PlaceJob(flag, now)) && Fresh(st, PlaceJob(flag, now)) && id != st.producer.id
    ensures View(Apply(st, PlaceJob(flag, now)), id) == View(st, id)
  {
    hide Call, Place, Queued;
    PlaceSpares(st, flag, now, id);
    if !TooShort(st.producer.opts) {
      PlaceKeepsQueued(st, flag, now, id);
    }
  }

  lemma AdvanceKeepsView(st: Sys, t: nat, x: Input, id: Id)
    requires Inv(st) && Enabled(st, Advance(t, x)) && Fresh(st, Advance(t, x)) && Focus(st, Advance(t, x)) != Some(id)
    ensures View(Apply(st, Advance(t, x)), id) == View(st, id)
  {
    hide Call, Queued;
    NoDetour(st, t);
    AdvanceSpares(st, t, x, id);
    CallKeepsQueued(st.store, st.agents[t], x, id);
  }

  lemma FreshKeepsView(st: Sys, step: Step, id: Id)
    requires Inv(st) && Enabled(st, step) && Fresh(st, step) && Focus(st, step) != Some(id)
    ensures View(Apply(st, step), id) == View(st, id)
  {
    hide Inv, Apply, View, Call, Fresh;
    match step
    case PlaceJob(flag, now) => PlaceKeepsView(st, flag, now, id);
    case Advance(t, x) => AdvanceKeepsView(st, t, x, id);
    case _ => QuietSpares(st, step, id);
  }

  // ---- The job the step is about ----

  lemma FocusExact(st': Sys, t: nat, id: Id, m: nat)
    requires t < |st'.agents|
    requires forall u :: 0 <= u < |st'.agents| && u != t ==> !Claims(st'.agents[u], id)
    requires Tallied(View(st', id), Claims(st'.agents[t], id), m)
    requires Claims(st'.agents[t], id) ==> Tally(st'.agents[t], View(st', id))
    ensures Exact(st', id, m)
  {
    hide View;
    assert Claimed(st'.agents, id) == Claims(st'.agents[t], id);
  }

  /** A success that is not repeated has used up the attempts or the repeats. */
  lemma SettledAtLimit(pc: Pc, x: Input, m: nat)
    requires pc.Settling? && pc.cause == Succeeded && CanAdvance(pc) && StopsAfter(pc.job.opts.repeat, m)
    requires !Requeues(Outcome(pc, x))
    ensures pc.job.attemptsMade >= Min(Cap(pc.job.opts), m + 1)
  {
  }

  lemma SettlingExact(st: Sys, t: nat, x: Input, id: Id, m: nat)
    requires Inv(st) && Enabled(st, Advance(t, x)) && Claims(st.agents[t], id) && st.agents[t].Settling?
    requires Limited(st, id, m) && Exact(st, id, m) && FreshCall(st.store.cols, st.agents[t], x)
    requires CallEffect(st.store, st.agents[t], Call(st.store, st.agents[t], x))
    ensures Exact(Apply(st, Advance(t, x)), id, m)
  {
    hide Call, Queued;
    var pc := st.agents[t];
    assert IdOk(View(st, id), Claimed(st.agents, id)) && AgentOk(pc, View(st, id));
    SettledWithin(st.store, pc, x, m);
    SettleKeepsQueued(st.store, pc, x, id);
    if !Requeues(Outcome(pc, x)) {
      SettledAtLimit(pc, x, m);
    }
    OthersClear(st, t, id);
    FocusExact(Apply(st, Advance(t, x)), t, id, m);
  }

  lemma MovedExact(st: Sys, t: nat, c: Move, id: Id, m: nat)
    requires Inv(st) && t < |st.agents| && Claims(st.agents[t], id) && !st.agents[t].Settling?
    requires Limited(st, id, m) && Exact(st, id, m) && CallEffect(st.store, st.agents[t], c)
    requires Claiming(c.pc) ==> Started(c.pc) == ((Started(st.agents[t]) && !st.agents[t].Counting?) || c.started)
    requires Claiming(c.pc) && st.agents[t].Fetching? ==> c.started
    requires !Claiming(c.pc) ==> c.store.cols == st.store.cols && id !in st.store.jobs
    requires !Claiming(c.pc) ==> OnActive(st.agents[t]) || Charged(st.agents[t])
    ensures Exact(Moved(st, t, c), id, m)
  {
    hide Queued;
    ActiveIsQueued(st.store.cols, id);
    assert IdOk(View(st, id), Claimed(st.agents, id)) && AgentOk(st.agents[t], View(st, id));
    OthersClear(st, t, id);
    FocusExact(Moved(st, t, c), t, id, m);
  }

  lemma CallStarts(s: Store, pc: Pc, x: Input)
    requires CanAdvance(pc) && Claiming(pc) && !pc.Settling? && !pc.Overdue?
    requires pc.Ensuring? ==> pc.id in s.cols.active
    requires pc.Verifying? ==> pc.cause == Succeeded
    ensures var c := Call(s, pc, x);
            && (Claiming(c.pc) ==> Started(c.pc) == ((Started(pc) && !pc.Counting?) || c.started))
            && (Claiming(c.pc) && pc.Fetching? ==> c.started)
            && (!Claiming(c.pc) ==> c.store.cols == s.cols && pc.id !in s.jobs && (OnActive(pc) || Charged(pc)))
  {
    hide Added, Removed;
  }

  lemma AdvanceExact(st: Sys, t: nat, x: Input, id: Id, m: nat)
    requires Inv(st) && Enabled(st, Advance(t, x)) && Claims(st.agents[t], id)
    requires FreshCall(st.store.cols, st.agents[t], x)
    requires Limited(st, id, m) && Exact(st, id, m)
    ensures Exact(Apply(st, Advance(t, x)), id, m)
  {
    hide Call, Exact, FreshCall;
    var pc := st.agents[t];
    assert AgentOk(pc, View(st, id)) && Succeeding(pc, View(st, id), m);
    assert pc.Ensuring? ==> InList(st.store.cols.active, id) > 0;
    CallHas(st.store, pc, x);
    if pc.Settling? {
      SettlingExact(st, t, x, id, m);
    } else {
      CallStarts(st.store, pc, x);
      MovedExact(st, t, Call(st.store, pc, x), id, m);
    }
  }

  lemma ReturnExact(st: Sys, t: nat, id: Id, m: nat)
    requires Inv(st) && Enabled(st, Return(t, false)) && st.agents[t].id == id && Exact(st, id, m)
    ensures Exact(Apply(st, Return(t, false)), id, m)
  {
    hide Call, Queued;
    assert Claims(st.agents[t], id);
    OthersClear(st, t, id);
    ReturnSpares(st, t, false, id);
    FocusExact(Apply(st, Return(t, false)), t, id, m);
  }

  lemma TakenExact(st: Sys, st': Sys, t: nat, pc: Pc, id: Id, m: nat)
    requires Inv(st) && t < |st.agents| && st'.agents == st.agents[t := pc] && Exact(st, id, m)
    requires (pc.Reading? || pc.InHand?) && pc.id == id && !Claimed(st.agents, id)
    requires st'.store.jobs == st.store.jobs && st'.starts == st.starts && st'.accepted == st.accepted
    ensures Exact(st', id, m)
  {
    hide Queued, Stored;
    OthersClear(st, t, id);
    assert View(st', id).record == View(st, id).record && View(st', id).starts == View(st, id).starts;
    FocusExact(st', t, id, m);
  }

  lemma BeginExact(st: Sys, t: nat, c: Claim, id: Id, m: nat)
    requires Inv(st) && Enabled(st, Begin(t, c)) && Focus(st, Begin(t, c)) == Some(id) && Exact(st, id, m)
    ensures Exact(Apply(st, Begin(t, c)), id, m)
  {
    hide Call, Exact;
    assert IdOk(View(st, id), Claimed(st.agents, id));
    PopWaitingCount(st.store.cols, id);
    StoredIsUnclaimed(st, id);
    TakenExact(st, Apply(st, Begin(t, c)), t, Reading(id, c), id, m);
  }

  lemma SeekingExact(st: Sys, t: nat, x: Input, id: Id, m: nat)
    requires Inv(st) && Enabled(st, Advance(t, x)) && st.agents[t].Seeking? && Exact(st, id, m)
    requires Focus(st, Advance(t, x)) == Some(id)
    ensures Exact(Apply(st, Advance(t, x)), id, m)
  {
    hide Exact, PopPrioritized, Queued;
    SeekingPops(st.store.cols, id);
    StoredIsUnclaimed(st, id);
    TakenExact(st, Apply(st, Advance(t, x)), t, InHand(id, st.agents[t].claim), id, m);
  }

  lemma PlaceExact(st: Sys, flag: bool, now: int, id: Id, m: nat)
    requires Inv(st) && Enabled(st, PlaceJob(flag, now)) && id == st.producer.id && Exact(st, id, m)
    requires Gentle(st, PlaceJob(flag, now), id, m)
    ensures Exact(Apply(st, PlaceJob(flag, now)), id, m)
  {
    hide Call, Place, Queued;
    assert IdOk(View(st, id), Claimed(st.agents, id));
    if !TooShort(st.producer.opts) {
      PlaceKeepsQueued(st, flag, now, id);
    }
  }

  lemma InsertExact(st: Sys, step: Step, id: Id, m: nat)
    requires Inv(st) && Enabled(st, step) && Focus(st, step) == Some(id) && Exact(st, id, m)
    requires (step.AssignId? || step.Record?) && Smooth(st, step, id, m)
    ensures Exact(Apply(st, step), id, m)
  {
    hide Call, Queued;
    assert IdOk(View(st, id), Claimed(st.agents, id));
    assert forall t :: 0 <= t < |st.agents| && Claims(st.agents[t], id) ==> AgentOk(st.agents[t], View(st, id));
  }

  lemma SparedExact(st: Sys, st': Sys, id: Id, m: nat)
    requires Exact(st, id, m) && View(st', id) == View(st, id) && SameClaims(st.agents, st'.agents, id)
    ensures Exact(st', id, m)
  {
    SameClaimed(st.agents, st'.agents, id);
  }

  lemma StepExact(st: Sys, step: Step, id: Id, m: nat)
    requires Inv(st) && Enabled(st, step) && Limited(st, id, m) && Exact(st, id, m) && Gentle(st, step, id, m)
    ensures Exact(Apply(st, step), id, m)
  {
    hide Inv, Limited, Exact, Apply, Call, PopPrioritized;
    if Focus(st, step) != Some(id) {
      FreshKeepsView(st, step, id);
      StepClaims(st, step, id);
      SparedExact(st, Apply(st, step), id, m);
    } else {
      match step
      case Begin(t, c) => BeginExact(st, t, c, id, m);
      case Return(t, _) => ReturnExact(st, t, id, m);
      case PlaceJob(flag, now) => PlaceExact(st, flag, now, id, m);
      case Advance(t, x) =>
        if st.agents[t].Seeking? {
          SeekingExact(st, t, x, id, m);
        } else {
          AdvanceExact(st, t, x, id, m);
        }
      case _ => InsertExact(st, step, id, m);
    }
  }

  lemma {:induction false} RunExact(st: Sys, steps: seq<Step>, id: Id, m: nat)
    requires Inv(st) && Limited(st, id, m) && Exact(st, id, m) && Legal(st, steps) && GentleRun(st, steps, id, m)
    ensures Exact(Run(st, steps), id, m)
    decreases |steps|
  {
    hide Inv, Limited, Exact, Apply, Smooth, Fresh, Enabled;
    if steps == [] {
    } else {
      StepKeeps(st, steps[0]);
      StepLimited(st, steps[0], id, m);
      StepExact(st, steps[0], id, m);
      RunExact(Apply(st, steps[0]), steps[1..], id, m);
    }
  }

  /**
    * Over every interleaved run that writes to unused scores, and in which no run of
    * the job fails, no deadline of it is missed and its delay is not negative: once
    * the job has come to rest, listed nowhere and in nobody's hands, it has been
    * started exactly min(max(1, attempts), m + 1) times.
    */
  lemma RepeatExact(n: nat, steps: seq<Step>, id: Id, m: nat)
    requires Legal(Init(n), steps) && GentleRun(Init(n), steps, id, m)
    ensures var st := Run(Init(n), steps);
            id in st.accepted && Stored(st, id) == 0 && !Claimed(st.agents, id) ==>
            Starts(st, id) == Min(Max(1, st.accepted[id].attempts), m + 1)
  {
    hide Inv, Apply, GentleRun;
    InitOk(n);
    InitLimited(n, id, m);
    InitExact(n, id, m);
    RunExact(Init(n), steps, id, m);
  }

  lemma InitExact(n: nat, id: Id, m: nat)
    ensures Exact(Init(n), id, m)
  {
    hide Queued;
  }
}
