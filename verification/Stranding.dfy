// What a failed activation costs. A job listed before its record is stored can
// be popped in between; the activation fails, and the job stays in the active
// list with nobody to run it. Exactly the jobs refused this way end up there.
module Stranding {
  import opened Collections
  import opened Policy
  import opened Stores
  import opened Counts
  import opened Queues
  import opened Ownership
  import opened Frames

  /** The job is in the active list, and no agent is working on it. */
  ghost predicate Adrift(st: Sys, id: Id) {
    InList(st.store.cols.active, id) > 0 && !Claimed(st.agents, id)
  }

  /** The step is an activation of `id` that fails with `JobNotFound`. */
  predicate Refuses(st: Sys, step: Step, id: Id)
    requires Enabled(st, step)
  {
    step.Advance? && st.agents[step.t].Checking? && st.agents[step.t].id == id && id !in st.store.jobs
  }

  predicate Refused(st: Sys, steps: seq<Step>, id: Id)
    requires Legal(st, steps)
    decreases |steps|
  {
    steps != [] && (Refuses(st, steps[0], id) || Refused(Apply(st, steps[0]), steps[1..], id))
  }

  /** An active id is nowhere else, so nobody can take it up and only its record can still arrive. */
  lemma OutOfReach(st: Sys, step: Step, id: Id)
    requires Inv(st) && Enabled(st, step) && Adrift(st, id) && Focus(st, step) == Some(id)
    ensures step.Record?
  {
    hide PopPrioritized, Call;
    assert IdOk(View(st, id), Claimed(st.agents, id));
    assert forall t :: 0 <= t < |st.agents| ==> !Claims(st.agents[t], id);
    PopWaitingCount(st.store.cols, id);
    PopPrioritizedCount(st.store.cols, id);
    PopKeepsActive(st.store.cols);
  }

  lemma PopKeepsActive(c: Cols)
    ensures PopPrioritized(c).0.active == c.active
  {
  }

  lemma AdriftStays(st: Sys, step: Step, id: Id)
    requires Inv(st) && Enabled(st, step) && Adrift(st, id)
    ensures Adrift(Apply(st, step), id) && Starts(Apply(st, step), id) == Starts(st, id)
  {
    hide Inv, Call, Apply;
    if Focus(st, step) == Some(id) {
      OutOfReach(st, step, id);
      RecordIsQuiet(st, id);
    } else {
      StepSpares(st, step, id);
      SameClaimed(st.agents, Apply(st, step).agents, id);
      assert View(Apply(st, step), id).active == View(st, id).active;
      assert View(Apply(st, step), id).starts == View(st, id).starts;
    }
  }

  lemma RecordIsQuiet(st: Sys, id: Id)
    requires Enabled(st, Record)
    ensures Adrift(Apply(st, Record), id) == Adrift(st, id) && Starts(Apply(st, Record), id) == Starts(st, id)
  {
    hide Call;
  }

  /** A claiming agent leaves its id unclaimed in the active list only by being refused. */
  lemma AdriftAdvance(st: Sys, t: nat, x: Input, id: Id)
    requires Inv(st) && Enabled(st, Advance(t, x)) && Claims(st.agents[t], id)
    ensures Adrift(Apply(st, Advance(t, x)), id) <==> Refuses(st, Advance(t, x), id)
    ensures Refuses(st, Advance(t, x), id) ==> Starts(Apply(st, Advance(t, x)), id) == 0
  {
    hide Call, Budget;
    var st' := Apply(st, Advance(t, x));
    var m := Call(st.store, st.agents[t], x);
    assert IdOk(View(st, id), Claimed(st.agents, id));
    assert AgentOk(st.agents[t], View(st, id));
    RefusedGo(st.store, st.agents[t], x);
    if Claims(m.pc, id) {
      assert Claims(st'.agents[t], id);
    } else {
      assert st.agents[t].Ensuring? ==> InList(st.store.cols.active, id) > 0;
      LettingGo(st.store, st.agents[t], x);
      assert forall u :: 0 <= u < |st.agents| && u != t ==> st'.agents[u] == st.agents[u] && !Claims(st.agents[u], id);
    }
  }

  lemma RefusedGo(s: Store, pc: Pc, x: Input)
    requires CanAdvance(pc)
    ensures pc.Checking? && pc.id !in s.jobs ==> Call(s, pc, x).pc.Free?
  {
  }

  /** Taking up an id, or inserting it, never leaves it adrift. */
  lemma AdriftTaken(st: Sys, step: Step, id: Id)
    requires Inv(st) && Enabled(st, step) && Focus(st, step) == Some(id) && !Adrift(st, id)
    requires step.Advance? ==> !Claiming(st.agents[step.t])
    ensures !Adrift(Apply(st, step), id)
  {
    hide Inv, Apply, Call, PopPrioritized;
    if step.AssignId? || step.PlaceJob? || step.Record? {
      ProducerIsQuiet(st, step);
    } else {
      TakenUp(st, step, id);
    }
  }

  /** A job is adrift after a step exactly when it was before, or the step refused it. */
  lemma AdriftStepIff(st: Sys, step: Step, id: Id)
    requires Inv(st) && Enabled(st, step)
    ensures Adrift(Apply(st, step), id) <==> Adrift(st, id) || Refuses(st, step, id)
    ensures Refuses(st, step, id) ==> Starts(Apply(st, step), id) == 0
  {
    hide Inv, Apply, Adrift, Call;
    if Adrift(st, id) {
      AdriftStays(st, step, id);
      NotRefused(st, step, id);
    } else if Focus(st, step) != Some(id) {
      StepSpares(st, step, id);
      SameClaimed(st.agents, Apply(st, step).agents, id);
      StillAshore(st, Apply(st, step), id);
    } else if step.Advance? && Claiming(st.agents[step.t]) {
      AdriftAdvance(st, step.t, step.input, id);
    } else {
      AdriftTaken(st, step, id);
    }
  }

  lemma NotRefused(st: Sys, step: Step, id: Id)
    requires Enabled(st, step) && Adrift(st, id)
    ensures !Refuses(st, step, id)
  {
    assert forall t :: 0 <= t < |st.agents| ==> !Claims(st.agents[t], id);
  }

  lemma StillAshore(st: Sys, st': Sys, id: Id)
    requires !Adrift(st, id) && Claimed(st.agents, id) == Claimed(st'.agents, id)
    requires Ownership.Kept(View(st, id), View(st', id))
    ensures !Adrift(st', id)
  {
    assert View(st', id).active == View(st, id).active;
  }

  lemma {:induction false} AdriftRunIff(st: Sys, steps: seq<Step>, id: Id)
    requires Inv(st) && Legal(st, steps) && (Adrift(st, id) ==> Starts(st, id) == 0)
    ensures Adrift(Run(st, steps), id) <==> Adrift(st, id) || Refused(st, steps, id)
    ensures Adrift(Run(st, steps), id) ==> Starts(Run(st, steps), id) == 0
    decreases |steps|
  {
    hide Inv, Apply, Adrift, Enabled, Refuses;
    if steps == [] {
    } else {
      var st' := Apply(st, steps[0]);
      StepKeeps(st, steps[0]);
      AdriftStepIff(st, steps[0], id);
      if Adrift(st, id) {
        AdriftStays(st, steps[0], id);
      }
      AdriftRunIff(st', steps[1..], id);
    }
  }

  /**
    * Over every run: a job sits in the active list with nobody working on it if
    * and only if one of its activations failed with `JobNotFound`. Such a job is
    * never run, whatever happens afterwards, although its record arrives.
    */
  lemma StrandedIff(n: nat, steps: seq<Step>, more: seq<Step>, id: Id)
    requires Legal(Init(n), steps) && Legal(Run(Init(n), steps), more)
    ensures var st := Run(Init(n), steps);
            && (Adrift(st, id) <==> Refused(Init(n), steps, id))
            && (Adrift(st, id) ==> Adrift(Run(st, more), id) && Starts(Run(st, more), id) == 0)
            && (Adrift(st, id) && !Inserting(st.producer, id) ==> id in st.store.jobs)
  {
    hide Inv, Apply, Refused;
    InitOk(n);
    RunKeeps(Init(n), steps);
    AdriftRunIff(Init(n), steps, id);
    AdriftRunIff(Run(Init(n), steps), more, id);
    NoDanglingIds(n, steps, id);
    ActiveIsStored(Run(Init(n), steps), id);
  }

  lemma ActiveIsStored(st: Sys, id: Id)
    ensures InList(st.store.cols.active, id) <= Stored(st, id)
  {
  }

  /** The producer has listed job 1 but not yet stored its record. */
  lemma Listed(opts: JobOptions, now: int)
    requires opts.delayMs == 0 && opts.priority == 0
    ensures var st := Apply(Apply(Init(1), Count(opts)), AssignId);
            && Apply(Init(1), Count(opts)).producer.Counted? && st.producer.Numbered?
            && var store := Empty().(lastId := 1, cols := NO_COLS.(waiting := [1]));
               Apply(st, PlaceJob(false, now)) == Init(1).(store := store, producer := Placed(opts, 0, 1))
  {
    hide Call;
  }

  /** A worker that comes in at this moment pops the job and is refused. */
  lemma RefusedHere(st: Sys, c: Claim, x: Input)
    requires st.agents == [Free] && st.store.cols == NO_COLS.(waiting := [1]) && st.store.jobs == map[]
    ensures var st1 := Apply(st, Begin(0, c));
            && st1.agents == [Reading(1, c)]
            && var st2 := Apply(st1, Advance(0, x));
               && st2.agents == [Locking(1, c, JobState.Wait)]
               && var st3 := Apply(st2, Advance(0, x));
                  && st3.agents == [Checking(1, c, JobState.Wait)]
                  && var st4 := Apply(st3, Advance(0, x));
                     && st4.agents == [Free] && st4.store.cols == NO_COLS.(active := [1])
                     && st4.store.jobs == map[] && st4.producer == st.producer
  {
    assert [1][..0] == [] && [1] + [] == [1];
    assert [Free][0 := Reading(1, c)] == [Reading(1, c)];
    var st1 := Apply(st, Begin(0, c));
    assert st1.store.cols == NO_COLS.(active := [1]);
  }

  lemma RefusedTail(st: Sys, opts: JobOptions, c: Claim, x: Input)
    requires st.agents == [Free] && st.store.cols == NO_COLS.(waiting := [1]) && st.store.jobs == map[]
    requires st.producer == Placed(opts, 0, 1)
    ensures var go := Advance(0, x);
            var steps := [Begin(0, c), go, go, go, Record];
            && Legal(st, steps)
            && var st' := Run(st, steps);
               Adrift(st', 1) && 1 in st'.store.jobs && st'.producer.Resting?
  {
    hide Apply, Run, Legal, Adrift;
    var go, begin := Advance(0, x), Begin(0, c);
    RefusedHere(st, c, x);
    var s1 := Apply(st, begin);
    var s2 := Apply(s1, go);
    var s3 := Apply(s2, go);
    var s4 := Apply(s3, go);
    RecordArrives(s4, opts);
    Stop(Apply(s4, Record));
    Then(s4, Record, [], [Record]);
    Then(s3, go, [Record], [go, Record]);
    Then(s2, go, [go, Record], [go, go, Record]);
    Then(s1, go, [go, go, Record], [go, go, go, Record]);
    Then(st, begin, [go, go, go, Record], [begin, go, go, go, Record]);
  }

  /** It does happen: one producer, one worker, eight steps, and job 1 is stranded. */
  lemma StrandedRun(opts: JobOptions, now: int, c: Claim, x: Input)
    requires opts.delayMs == 0 && opts.priority == 0
    ensures var go := Advance(0, x);
            var steps := [Count(opts), AssignId, PlaceJob(false, now), Begin(0, c), go, go, go, Record];
            && Legal(Init(1), steps)
            && var st := Run(Init(1), steps);
               Adrift(st, 1) && 1 in st.store.jobs && st.producer.Resting?
  {
    hide Apply, Run, Legal, Adrift;
    var place, tail := PlaceJob(false, now), [Begin(0, c), Advance(0, x), Advance(0, x), Advance(0, x), Record];
    var s0 := Init(1);
    var s1 := Apply(s0, Count(opts));
    Listed(opts, now);
    var s2 := Apply(s1, AssignId);
    RefusedTail(Apply(s2, place), opts, c, x);
    Then(s2, place, tail, [place] + tail);
    Then(s1, AssignId, [place] + tail, [AssignId, place] + tail);
    var go := Advance(0, x);
    Then(s0, Count(opts), [AssignId, place] + tail, [Count(opts), AssignId, place, Begin(0, c), go, go, go, Record]);
  }

  lemma RecordArrives(st: Sys, opts: JobOptions)
    requires st.agents == [Free] && st.store.cols == NO_COLS.(active := [1]) && st.producer == Placed(opts, 0, 1)
    ensures var st' := Apply(st, Record);
            Adrift(st', 1) && 1 in st'.store.jobs && st'.producer.Resting?
  {
  }
}
