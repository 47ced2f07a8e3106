// Conservation at store-call granularity: when a job is left without any place,
// exactly, over every interleaved run and with no assumption on scores.
module Homes {
  import opened Collections
  import opened Policy
  import opened Stores
  import opened Counts
  import opened Queues
  import opened Ownership
  import opened Frames
  import S = Scores
  import T = Tags

  /** The places of the job outside the agents' hands: where it is listed, and where it has ended. */
  ghost function Places(st: Sys, id: Id): nat {
    Stored(st, id) + Ended(st.store.cols, id)
  }

  /** The job is listed, in an agent's hands, or has ended. */
  ghost predicate Homed(st: Sys, id: Id) {
    Places(st, id) > 0 || Claimed(st.agents, id)
  }

  /** The id has been handed out, and the job is nowhere. */
  ghost predicate Lost(st: Sys, id: Id) {
    0 < id <= st.store.lastId && !Homed(st, id)
  }

  /** The entries of `id` that removing `item` from a scored set takes out. */
  ghost function Unlinked(m: map<nat, Id>, item: Id, id: Id): nat {
    if item in m then Bit(m[item] == id) else if item == id then InMap(m, id) else 0
  }

  ghost function UnlinkedFrom(c: Cols, col: T.Suffix, item: Id, id: Id): nat {
    match col
    case Completed => Unlinked(c.completed, item, id)
    case Failed => Unlinked(c.failed, item, id)
    case Prioritized => Unlinked(c.prioritized, item, id)
    case Delayed => Unlinked(c.delayed, item, id)
    case _ => 0
  }

  /** What an agent's run comes to: the decision taken in `Settling`. */
  function Outcome(pc: Pc, x: Input): Next
    requires pc.Settling? && CanAdvance(pc)
  {
    if pc.cause == MissedDeadline then Stay else Decide(x.strategies, pc.job, pc.cause == Raised, x.env)
  }

  /** The entries of `id` that a store call made for another job, or left over from a retry, takes away. */
  ghost function CallErases(s: Store, pc: Pc, x: Input, id: Id): nat
    requires CanAdvance(pc)
  {
    match pc
    case Leaving(item, _, prev) => UnlinkedFrom(s.cols, SuffixOf(prev), item, id)
    case Ending(_, cause) =>
      Bit(Overwrites(if cause == Succeeded then s.cols.completed else s.cols.failed, x.ts, id))
    case Settling(_, _, _) =>
      Bit(Outcome(pc, x).ToDelayed? && Overwrites(s.cols.delayed, Outcome(pc, x).score, id))
    case Unfailing(item) => Unlinked(s.cols.failed, item, id)
    case _ => 0
  }

  ghost function PlaceErases(c: Cols, opts: JobOptions, pc: nat, now: int, id: Id): nat {
    if TooShort(opts) then 0
    else if Unsigned(opts.delayMs) > 0
    then Bit(opts.delayMs > 0 && Overwrites(c.delayed, now + opts.delayMs, id))
    else Bit(opts.priority > 0 && Overwrites(c.prioritized, S.Score(opts.priority, pc), id))
  }

  ghost function Erases(st: Sys, step: Step, id: Id): nat
    requires Enabled(st, step)
  {
    match step
    case PlaceJob(_, now) => PlaceErases(st.store.cols, st.producer.opts, st.producer.pc, now, id)
    case Advance(t, x) => CallErases(st.store, st.agents[t], x, id)
    case _ => 0
  }

  /** The insertion lists the job nowhere: it is rejected, or its delay is negative. */
  predicate Unlisted(opts: JobOptions) {
    TooShort(opts) || (Unsigned(opts.delayMs) > 0 && opts.delayMs <= 0)
  }

  /** The step lets go of the very job it is about, without listing it again. */
  predicate LetsGo(st: Sys, step: Step)
    requires Enabled(st, step)
  {
    match step
    case PlaceJob(_, _) => Unlisted(st.producer.opts)
    case Advance(t, x) =>
      var pc := st.agents[t];
      || (pc.Settling? && !Requeues(Outcome(pc, x)))
      || (pc.Verifying? && pc.cause == MissedDeadline && pc.id !in st.store.jobs)
    case _ => false
  }

  /**
    * The step leaves `id` without a place: it lets go of it and nothing holds its
    * end, or it takes away the last entries of an id that nobody works on.
    */
  ghost predicate Drops(st: Sys, step: Step, id: Id)
    requires Enabled(st, step)
  {
    if Focus(st, step) == Some(id)
    then LetsGo(st, step) && Ended(st.store.cols, id) == 0
    else id <= st.store.lastId && !Claimed(st.agents, id) && Erases(st, step, id) == Places(st, id) > 0
  }

  // ---- Ids the step is not about ----

  lemma UnlinkedCount(m: map<nat, Id>, item: Id, id: Id)
    ensures InMap(RemoveScored(m, item), id) + Unlinked(m, item, id) == InMap(m, id)
  {
    if item in m {
      InMapDrop(m, item, id);
    } else {
      InMapDropping(m, item, id);
    }
  }

  lemma UnlinkedFromCount(c: Cols, col: T.Suffix, item: Id, id: Id)
    requires id != item || col == T.Failed
    ensures var c' := Removed(c, col, item);
            Queued(c', id) + Ended(c', id) + UnlinkedFrom(c, col, item, id) == Queued(c, id) + Ended(c, id)
  {
    hide Without, RemoveScored, Unlinked, InMap, InList;
    match col
    case Active => InListWithout(c.active, item, id);
    case Wait => InListWithout(c.waiting, item, id);
    case Paused => InListWithout(c.paused, item, id);
    case Completed => UnlinkedCount(c.completed, item, id);
    case Failed => UnlinkedCount(c.failed, item, id);
    case Prioritized => UnlinkedCount(c.prioritized, item, id);
    case Delayed => UnlinkedCount(c.delayed, item, id);
    case _ =>
  }

  /** Occurrences of `id` in the collections. */
  ghost function Listed(c: Cols, id: Id): nat {
    Queued(c, id) + Ended(c, id)
  }

  lemma SettleErases(s: Store, pc: Pc, x: Input, id: Id)
    requires pc.Settling? && CanAdvance(pc)
    ensures Listed(Call(s, pc, x).store.cols, id) + CallErases(s, pc, x, id)
         == Listed(s.cols, id) + Bit(Requeues(Outcome(pc, x)) && id == pc.id)
  {
    hide Decide, Removes, Queued, Ended, Added;
    match Outcome(pc, x)
    case ToWait => AddToList(s.cols, T.Wait, pc.id, None, true, id);
    case ToDelayed(score) => AddToDelayed(s.cols, pc.id, score, pc.cause != Raised, id);
    case _ =>
  }

  lemma CallErasesCount(s: Store, pc: Pc, x: Input, id: Id)
    requires CanAdvance(pc) && !pc.Unlinking? && !pc.Relinking? && CallFocus(s, pc) != Some(id)
    ensures Listed(Call(s, pc, x).store.cols, id) + CallErases(s, pc, x, id) == Listed(s.cols, id)
  {
    hide Queued, Ended, Removed, PopPrioritized, Decide;
    match pc
    case Seeking(_) => PopPrioritizedCount(s.cols, id);
    case InHand(item, _) => AddToList(s.cols, T.Active, item, None, true, id);
    case Leaving(item, _, prev) => UnlinkedFromCount(s.cols, SuffixOf(prev), item, id);
    case Ending(item, cause) => AddToEnded(s.cols, SuffixOf(Target(cause)), item, x.ts, false, id);
    case Settling(_, _, _) => SettleErases(s, pc, x, id);
    case Unfailing(item) => UnlinkedFromCount(s.cols, T.Failed, item, id);
    case _ =>
  }

  lemma PlaceErasesCount(c: Cols, opts: JobOptions, pc: nat, item: Id, flag: bool, now: int, id: Id)
    requires !TooShort(opts)
    ensures Listed(Place(c, opts, pc, item, flag, now), id) + PlaceErases(c, opts, pc, now, id)
         == Listed(c, id) + Bit(!Unlisted(opts) && id == item)
  {
    hide Queued, Ended, Added, S.Score;
    if Unsigned(opts.delayMs) > 0 {
      AddToDelayed(c, item, now + opts.delayMs, false, id);
    } else if opts.priority > 0 {
      AddToPrioritized(c, item, S.Score(opts.priority, pc), true, id);
    } else {
      AddToList(c, if flag then T.Paused else T.Wait, item, None, true, id);
    }
  }

  lemma PlaceStep(st: Sys, flag: bool, now: int, id: Id)
    requires Enabled(st, PlaceJob(flag, now))
    ensures var p := st.producer;
            Places(Apply(st, PlaceJob(flag, now)), id) + Erases(st, PlaceJob(flag, now), id)
            == Places(st, id) - Bit(id == p.id) + Bit(!Unlisted(p.opts) && id == p.id)
  {
    hide Call, Place, PlaceErases, Queued, Ended;
    var p := st.producer;
    if TooShort(p.opts) {
      RejectedErases(st.store.cols, p.opts, p.pc, now, id);
    } else {
      PlaceErasesCount(st.store.cols, p.opts, p.pc, p.id, flag, now, id);
    }
  }

  lemma RejectedErases(c: Cols, opts: JobOptions, pc: nat, now: int, id: Id)
    requires TooShort(opts)
    ensures PlaceErases(c, opts, pc, now, id) == 0
  {
  }

  lemma AdvanceErases(st: Sys, t: nat, x: Input, id: Id)
    requires Inv(st) && Enabled(st, Advance(t, x)) && Focus(st, Advance(t, x)) != Some(id)
    ensures Places(Apply(st, Advance(t, x)), id) + Erases(st, Advance(t, x), id) == Places(st, id)
  {
    hide Call, CallErases, Queued, Ended;
    NoDetour(st, t);
    CallErasesCount(st.store, st.agents[t], x, id);
  }

  predicate Quiet(step: Step) {
    !step.PlaceJob? && !step.Advance?
  }

  lemma EndsStay(st: Sys, step: Step)
    requires Enabled(st, step) && Quiet(step)
    ensures Apply(st, step).store.cols.completed == st.store.cols.completed
    ensures Apply(st, step).store.cols.failed == st.store.cols.failed
  {
    hide Call, Place, GetDelayedAt, Added, Shifted, PopBackPushFront;
    match step
    case Deliver(id) => ListsOnly(st.store.cols, id, true);
    case PauseOrResume(pause) => ListsOnly(st.store.cols, 0, pause);
    case Begin(_, _) => ListsOnly(st.store.cols, 0, true);
    case _ =>
  }

  lemma ListsOnly(c: Cols, item: Id, pause: bool)
    ensures var a := Added(c, T.Wait, item, None, true);
            a.completed == c.completed && a.failed == c.failed
    ensures Shifted(c, pause).completed == c.completed && Shifted(c, pause).failed == c.failed
    ensures PopBackPushFront(c).0.completed == c.completed && PopBackPushFront(c).0.failed == c.failed
  {
  }

  lemma QuietSpares(st: Sys, step: Step, id: Id)
    requires Enabled(st, step) && Quiet(step) && Focus(st, step) != Some(id)
    ensures View(Apply(st, step), id) == View(st, id)
  {
    hide View, Apply, Call;
    match step
    case PauseOrResume(pause) => PauseSpares(st, pause, id);
    case PollDelayed(start, stop) => PollView(st, start, stop, id);
    case Deliver(j) => DeliverView(st, j, id);
    case Begin(t, c) => BeginSpares(st, t, c, id);
    case Record => RecordSpares(st, id);
    case Return(t, raised) => ReturnSpares(st, t, raised, id);
    case Count(opts) => CountSpares(st, opts, id);
    case AssignId => AssignSpares(st, id);
    case TouchLocks(locks) => TouchSpares(st, locks, id);
    case BeginMissed(t, j) => BeginMissedSpares(st, t, j, id);
  }

  /** Steps that write to no scored set keep all places. */
  lemma QuietErases(st: Sys, step: Step, id: Id)
    requires Enabled(st, step) && Quiet(step) && Focus(st, step) != Some(id)
    ensures Places(Apply(st, step), id) == Places(st, id)
  {
    hide Apply, Stored;
    EndsStay(st, step);
    QuietSpares(st, step, id);
    assert View(Apply(st, step), id).stored == View(st, id).stored;
  }

  lemma StepErases(st: Sys, step: Step, id: Id)
    requires Inv(st) && Enabled(st, step) && Focus(st, step) != Some(id)
    ensures Places(Apply(st, step), id) + Erases(st, step, id) == Places(st, id)
    ensures Claimed(Apply(st, step).agents, id) == Claimed(st.agents, id)
  {
    hide Inv, Apply, Places, Call, CallErases, PlaceErases;
    StepClaims(st, step, id);
    SameClaimed(st.agents, Apply(st, step).agents, id);
    match step
    case PlaceJob(flag, now) => PlaceStep(st, flag, now, id);
    case Advance(t, x) => AdvanceErases(st, t, x, id);
    case _ => QuietErases(st, step, id);
  }

  // ---- The id the step is about ----

  /** A claimed id keeps a place unless its agent lets go of it with nothing listed. */
  lemma AdvanceDrops(st: Sys, t: nat, x: Input, id: Id)
    requires Inv(st) && Enabled(st, Advance(t, x)) && Claims(st.agents[t], id)
    ensures Homed(Apply(st, Advance(t, x)), id) <==> !(LetsGo(st, Advance(t, x)) && Ended(st.store.cols, id) == 0)
  {
    hide Call, Budget, Queued, Ended;
    var pc := st.agents[t];
    var st' := Apply(st, Advance(t, x));
    var m := Call(st.store, pc, x);
    assert IdOk(View(st, id), Claimed(st.agents, id)) && AgentOk(pc, View(st, id));
    StaysOrGoes(st.store, pc, x);
    if Claims(m.pc, id) {
      assert Claims(st'.agents[t], id);
    } else {
      assert pc.Ensuring? ==> InList(st.store.cols.active, id) > 0;
      LettingGo(st.store, pc, x);
      assert forall u :: 0 <= u < |st.agents| && u != t ==> st'.agents[u] == st.agents[u] && !Claims(st.agents[u], id);
      GoneCount(st.store, pc, x, id);
      ActiveIsQueued(st.store.cols, id);
      assert !Claimed(st'.agents, id);
      assert Places(st', id) == Places(st, id) - Listed(st.store.cols, id) + Listed(m.store.cols, id);
    }
  }

  lemma ActiveIsQueued(c: Cols, id: Id)
    ensures InList(c.active, id) <= Queued(c, id)
  {
  }

  lemma StaysOrGoes(s: Store, pc: Pc, x: Input)
    requires CanAdvance(pc) && Claiming(pc)
    ensures pc.Settling? ==> !Claiming(Call(s, pc, x).pc)
    ensures pc.Verifying? && pc.id !in s.jobs ==> Call(s, pc, x).pc.Free?
  {
    hide Decide, Removes, Added;
  }

  lemma GoneCount(s: Store, pc: Pc, x: Input, id: Id)
    requires CanAdvance(pc) && Claims(pc, id) && !Claims(Call(s, pc, x).pc, id)
    requires pc.Ensuring? ==> id in s.cols.active
    ensures pc.Settling? || Call(s, pc, x).store.cols == s.cols
    ensures pc.Settling? ==>
              Listed(Call(s, pc, x).store.cols, id) + CallErases(s, pc, x, id)
              == Listed(s.cols, id) + Bit(Requeues(Outcome(pc, x)))
    ensures pc.Settling? && CallErases(s, pc, x, id) > 0 ==> Queued(s.cols, id) > 0
  {
    hide Decide, Removes, Added, Removed;
    if pc.Settling? {
      SettleErases(s, pc, x, id);
      InMapPositive(s.cols.delayed, id);
    }
  }

  lemma PlaceDrops(st: Sys, flag: bool, now: int, id: Id)
    requires Inv(st) && Enabled(st, PlaceJob(flag, now)) && id == st.producer.id
    ensures id <= st.store.lastId && Homed(st, id)
    ensures Homed(Apply(st, PlaceJob(flag, now)), id) <==>
            !(Unlisted(st.producer.opts) && Ended(st.store.cols, id) == 0)
  {
    hide Call, Place, Ended;
    assert IdOk(View(st, id), Claimed(st.agents, id));
    StoredIsUnclaimed(st, id);
    PlaceStep(st, flag, now, id);
    UnlistedErasesNothing(st.store.cols, st.producer.opts, st.producer.pc, now, id);
  }

  lemma UnlistedErasesNothing(c: Cols, opts: JobOptions, pc: nat, now: int, id: Id)
    requires Queued(c, id) == 0
    ensures PlaceErases(c, opts, pc, now, id) == 0
  {
    hide S.Score;
    InMapPositive(c.delayed, id);
    InMapPositive(c.prioritized, id);
  }

  /** An id that is taken up had a place before. */
  lemma TakenHadPlace(st: Sys, step: Step, id: Id)
    requires Inv(st) && Enabled(st, step) && Focus(st, step) == Some(id)
    requires step.Begin? || step.BeginMissed? || step.Return? || step.Advance?
    ensures Homed(st, id)
  {
    hide Call, PopPrioritized, Ended;
    match step
    case Begin(_, _) => PopWaitingCount(st.store.cols, id); ActiveIsQueued(PopBackPushFront(st.store.cols).0, id);
    case BeginMissed(_, _) =>
    case Return(t, _) => assert Claims(st.agents[t], id);
    case Advance(t, _) =>
      if Claiming(st.agents[t]) {
        assert Claims(st.agents[t], id);
      } else {
        PopPrioritizedCount(st.store.cols, id);
      }
  }

  lemma CountersStay(st: Sys, step: Step)
    requires Enabled(st, step) && !step.AssignId?
    ensures Apply(st, step).store.lastId == st.store.lastId
  {
    hide Call, Place, GetDelayedAt, PopBackPushFront, Added;
    if step.Advance? {
      CallCounters(st.store, st.agents[step.t], step.input);
    }
  }

  lemma CallCounters(s: Store, pc: Pc, x: Input)
    requires CanAdvance(pc)
    ensures Call(s, pc, x).store.lastId == s.lastId
  {
    hide PopPrioritized, Added, Removed, Decide, Removes;
  }

  lemma RecordKeepsPlaces(st: Sys, id: Id)
    requires Enabled(st, Record)
    ensures Homed(Apply(st, Record), id) == Homed(st, id)
  {
    hide Call;
  }

  lemma AssignGivesPlace(st: Sys)
    requires Enabled(st, AssignId)
    ensures Homed(Apply(st, AssignId), st.store.lastId + 1)
  {
    hide Call;
  }

  lemma FocusLost(st: Sys, step: Step, id: Id)
    requires Inv(st) && Enabled(st, step) && Focus(st, step) == Some(id)
    ensures Lost(Apply(st, step), id) <==> Lost(st, id) || (0 < id && Drops(st, step, id))
  {
    hide Inv, Apply, Homed, Call, PopPrioritized;
    if step.AssignId? {
      AssignGivesPlace(st);
    } else {
      CountersStay(st, step);
      if step.PlaceJob? {
        PlaceDrops(st, step.flag, step.now, id);
      } else if step.Record? {
        RecordKeepsPlaces(st, id);
      } else {
        TakenHadPlace(st, step, id);
        if step.Advance? && Claiming(st.agents[step.t]) {
          ClaimedIsKnown(st, step.t, id);
          AdvanceDrops(st, step.t, step.input, id);
        } else {
          TakenUp(st, step, id);
          HomedIfClaimed(Apply(st, step), id);
        }
      }
    }
  }

  lemma HomedIfClaimed(st: Sys, id: Id)
    requires Claimed(st.agents, id)
    ensures Homed(st, id)
  {
  }

  lemma ClaimedIsKnown(st: Sys, t: nat, id: Id)
    requires Inv(st) && t < |st.agents| && Claims(st.agents[t], id)
    ensures id <= st.store.lastId
  {
    assert AgentOk(st.agents[t], View(st, id));
  }

  // ---- The law ----

  /** A job is lost after a step exactly when it was before, or the step drops it. */
  lemma LostStepIff(st: Sys, step: Step, id: Id)
    requires Inv(st) && Enabled(st, step) && id > 0
    ensures Lost(Apply(st, step), id) <==> Lost(st, id) || Drops(st, step, id)
  {
    hide Inv, Apply, Places, Call, Erases;
    if Focus(st, step) == Some(id) {
      FocusLost(st, step, id);
    } else {
      StepErases(st, step, id);
      KnownStays(st, step, id);
    }
  }

  lemma KnownStays(st: Sys, step: Step, id: Id)
    requires Enabled(st, step) && Focus(st, step) != Some(id)
    ensures id <= Apply(st, step).store.lastId <==> id <= st.store.lastId
  {
    hide Call, Place, GetDelayedAt, PopPrioritized;
    if !step.AssignId? {
      CountersStay(st, step);
    }
  }

  ghost predicate Dropped(st: Sys, steps: seq<Step>, id: Id)
    requires Legal(st, steps)
    decreases |steps|
  {
    steps != [] && (Drops(st, steps[0], id) || Dropped(Apply(st, steps[0]), steps[1..], id))
  }

  lemma {:induction false} LostRunIff(st: Sys, steps: seq<Step>, id: Id)
    requires Inv(st) && Legal(st, steps) && id > 0
    ensures Lost(Run(st, steps), id) <==> Lost(st, id) || Dropped(st, steps, id)
    decreases |steps|
  {
    hide Inv, Apply, Lost, Drops, Enabled;
    if steps == [] {
    } else {
      StepKeeps(st, steps[0]);
      LostStepIff(st, steps[0], id);
      LostRunIff(Apply(st, steps[0]), steps[1..], id);
    }
  }

  /**
    * Interleaved conservation: over every run, with any number of agents, any
    * scores and any policies, a job whose id has been handed out has a place if
    * and only if no step of the run dropped it. A dropped job never comes back.
    */
  lemma NothingLostIff(n: nat, steps: seq<Step>, id: Id)
    requires Legal(Init(n), steps)
    ensures var st := Run(Init(n), steps);
            && (0 < id <= st.store.lastId ==> (Homed(st, id) <==> !Dropped(Init(n), steps, id)))
            && (id in st.accepted ==> id <= st.store.lastId)
  {
    hide Apply, Dropped, Homed;
    InitOk(n);
    RunKeeps(Init(n), steps);
    if id > 0 {
      LostRunIff(Init(n), steps, id);
    }
    var st := Run(Init(n), steps);
    assert IdOk(View(st, id), Claimed(st.agents, id));
  }

  // ---- With unused scores ----

  /** The call writes to a score that is free, and the id it removes is no score. */
  predicate FreshCall(c: Cols, pc: Pc, x: Input)
    requires CanAdvance(pc)
  {
    match pc
    case Leaving(item, _, _) =>
      item !in c.completed && item !in c.failed && item !in c.prioritized && item !in c.delayed
    case Ending(_, cause) => Unsigned(x.ts) !in (if cause == Succeeded then c.completed else c.failed)
    case Settling(_, _, _) => Outcome(pc, x).ToDelayed? ==> Unsigned(Outcome(pc, x).score) !in c.delayed
    case Unfailing(item) => item !in c.failed
    case _ => true
  }

  predicate Fresh(st: Sys, step: Step)
    requires Enabled(st, step)
  {
    match step
    case PlaceJob(_, now) =>
      var p, c := st.producer, st.store.cols;
      if Unsigned(p.opts.delayMs) > 0 then Unsigned(now + p.opts.delayMs) !in c.delayed
      else p.opts.priority > 0 ==> Unsigned(S.Score(p.opts.priority, p.pc)) !in c.prioritized
    case Advance(t, x) => FreshCall(st.store.cols, st.agents[t], x)
    case _ => true
  }

  /** A retry is overtaken: nothing but the failed set holds the job when its removal from there comes. */
  ghost predicate Overtaken(st: Sys, step: Step, id: Id)
    requires Enabled(st, step)
  {
    && step.Advance? && st.agents[step.t] == Unfailing(id) && id <= st.store.lastId
    && !Claimed(st.agents, id) && Stored(st, id) == 0
    && InMap(st.store.cols.completed, id) == 0 && InMap(st.store.cols.failed, id) > 0
  }

  lemma FreshErases(st: Sys, step: Step, id: Id)
    requires Enabled(st, step) && Fresh(st, step) && Focus(st, step) != Some(id)
    ensures Erases(st, step, id)
         == if step.Advance? && st.agents[step.t] == Unfailing(id) then InMap(st.store.cols.failed, id) else 0
  {
    hide Call, Decide, S.Score, PopPrioritized;
  }

  /**
    * With unused scores, and ids that are no scores, exactly four things cost a job
    * its last place: an overtaken retry, a run settled without listing the job again
    * and with its end already gone, a missed deadline of a job not yet recorded, and
    * an insertion that lists nothing.
    */
  lemma FreshDropsIff(st: Sys, step: Step, id: Id)
    requires Inv(st) && Enabled(st, step) && Fresh(st, step)
    ensures Drops(st, step, id) <==>
            || Overtaken(st, step, id)
            || (Focus(st, step) == Some(id) && LetsGo(st, step) && Ended(st.store.cols, id) == 0)
  {
    hide Inv, Call, Fresh, Erases, PopPrioritized, LetsGo;
    if Focus(st, step) != Some(id) {
      FreshErases(st, step, id);
    } else {
      FocusClaims(st, step, id);
    }
  }

  lemma FocusClaims(st: Sys, step: Step, id: Id)
    requires Enabled(st, step) && Focus(st, step) == Some(id)
    ensures !Overtaken(st, step, id)
  {
    hide Call, PopPrioritized;
  }
}
