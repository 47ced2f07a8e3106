// The job lifecycle with any number of agents interleaved at store-call
// granularity. An agent is a worker, or the future that fails one missed
// delayed job; its program counter says which store call comes next. One
// producer inserts jobs, one poller promotes delayed ones, and promoted ids are
// delivered to the wait list at most once each, in any order.
module Ownership {
  import opened Collections
  import opened Policy
  import opened Stores
  import opened Counts
  import opened Queues
  import opened TimedMaps
  import S = Scores
  import T = Tags

  /** How a job came to its end. */
  datatype Cause = Succeeded | Raised | MissedDeadline

  datatype Pc =
    | Free
    // move_to_active
    | Seeking(claim: Claim)
    | InHand(id: Id, claim: Claim)
    | Reading(id: Id, claim: Claim)
    | Locking(id: Id, claim: Claim, prev: JobState)
    | Checking(id: Id, claim: Claim, prev: JobState)
    | Ensuring(id: Id, claim: Claim, prev: JobState)
    | Unlinking(id: Id, claim: Claim, prev: JobState)
    | Relinking(id: Id, claim: Claim)
    | Marking(id: Id, claim: Claim)
    | Stamping(id: Id, claim: Claim)
    | Fetching(id: Id, claim: Claim)
    // the processor, then move_job_to_finished_or_failed
    | Running(id: Id)
    | Overdue(id: Id)
    | Verifying(id: Id, cause: Cause, prev: JobState)
    | Counting(id: Id, cause: Cause, prev: JobState)
    | Leaving(id: Id, cause: Cause, prev: JobState)
    | Ending(id: Id, cause: Cause)
    | Closing(id: Id, cause: Cause)
    | Deciding(id: Id, cause: Cause)
    // retry_job and clean_up_job
    | Settling(id: Id, cause: Cause, job: Job)
    | Unfailing(id: Id)

  datatype Producer =
    | Resting
    | Counted(opts: JobOptions, pc: nat)
    | Numbered(opts: JobOptions, pc: nat, id: Id)
    | Placed(opts: JobOptions, pc: nat, id: Id)

  /**
    * `promoted` holds ids on their way through the promotion timer, `missed`
    * those a poll found overdue. `accepted` and `starts` are history: the options
    * of every job recorded, and its processor runs plus counted missed deadlines.
    */
  datatype Sys = Sys(
    store: Store,
    agents: seq<Pc>,
    producer: Producer,
    promoted: multiset<Id>,
    missed: multiset<Id>,
    accepted: map<Id, JobOptions>,
    starts: map<Id, nat>)

  /** What a store call may observe from outside: a timestamp, and the clock and cron. */
  datatype Input = Input(ts: int, env: Env, strategies: Strategies)

  datatype Step =
    | Count(opts: JobOptions)
    | AssignId
    | PlaceJob(flag: bool, now: int)
    | Record
    | PauseOrResume(pause: bool)
    | PollDelayed(start: int, stop: int)
    | Deliver(id: Id)
    | TouchLocks(locks: Timed<nat, LockValue>)
    | Begin(t: nat, claim: Claim)
    | BeginMissed(t: nat, id: Id)
    | Return(t: nat, raised: bool)
    | Advance(t: nat, input: Input)

  function Init(n: nat): Sys {
    Sys(Empty(), seq(n, _ => Free), Resting, multiset{}, multiset{}, map[], map[])
  }

  function Target(cause: Cause): JobState {
    if cause == Succeeded then JobState.Completed else JobState.Failed
  }

  datatype Move = Move(store: Store, pc: Pc, started: bool)

  predicate CanAdvance(pc: Pc) {
    !pc.Free? && !pc.Running? && (pc.Settling? && pc.cause != MissedDeadline ==> pc.job.attemptsMade > 0)
  }

  /** The next store call of an agent. */
  function Call(s: Store, pc: Pc, x: Input): Move
    requires CanAdvance(pc)
  {
    match pc
    case Seeking(c) =>
      var (cols, p) := PopPrioritized(s.cols);
      Move(s.(cols := cols), if p.None? then Free else InHand(p.value, c), false)
    case InHand(id, c) => Move(AddItem(s, T.Active, id, None, true), Reading(id, c), false)
    case Reading(id, c) => Move(s, Locking(id, c, GetState(s, id)), false)
    case Locking(id, c, prev) => Move(SetLock(s, id, c.token, c.duration, c.now), Checking(id, c, prev), false)
    case Checking(id, c, prev) => Move(s, if id in s.jobs then Ensuring(id, c, prev) else Free, false)
    case Ensuring(id, c, prev) => Move(s, if id in s.cols.active then Marking(id, c) else Unlinking(id, c, prev), false)
    case Unlinking(id, c, prev) => Move(RemoveItem(s, SuffixOf(prev), id), Relinking(id, c), false)
    case Relinking(id, c) => Move(AddItem(s, T.Active, id, None, false), Marking(id, c), false)
    case Marking(id, c) => Move(SetState(s, id, JobState.Active), Stamping(id, c), false)
    case Stamping(id, c) => Move(SetToken(s, id, c.token), Fetching(id, c), false)
    case Fetching(id, c) => if id in s.jobs then Move(s, Running(id), true) else Move(s, Free, false)
    case Overdue(id) => Move(s, Verifying(id, MissedDeadline, GetState(s, id)), false)
    case Verifying(id, cause, prev) =>
      if id in s.jobs then Move(s, Counting(id, cause, prev), cause == MissedDeadline) else Move(s, Free, false)
    case Counting(id, cause, prev) => Move(IncrAttempts(s, id), Leaving(id, cause, prev), false)
    case Leaving(id, cause, prev) => Move(RemoveItem(s, SuffixOf(prev), id), Ending(id, cause), false)
    case Ending(id, cause) =>
      Move(AddItem(s, SuffixOf(Target(cause)), id, Some(x.ts), false), Closing(id, cause), false)
    case Closing(id, cause) => Move(SetState(s, id, Target(cause)), Deciding(id, cause), false)
    case Deciding(id, cause) => Move(s, if id in s.jobs then Settling(id, cause, s.jobs[id]) else Free, false)
    case Settling(id, cause, job) =>
      if cause == MissedDeadline then Move(s, Free, false)
      else SettleCall(s, id, Decide(x.strategies, job, cause == Raised, x.env), cause == Raised)
    case Unfailing(id) => Move(RemoveItem(s, T.Failed, id), Free, false)
  }

  function SettleCall(s: Store, id: Id, next: Next, raised: bool): Move {
    match next
    case Stay => Move(s, Free, false)
    case ToWait => Move(AddItem(s, T.Wait, id, None, true), Free, false)
    case ToDelayed(score) =>
      Move(AddItem(s, T.Delayed, id, Some(score), !raised), if raised then Unfailing(id) else Free, false)
    case CleanUp(policy) => Move(if Removes(policy, id) then RemoveRecord(s, id) else s, Free, false)
  }

  predicate Enabled(st: Sys, step: Step) {
    match step
    case Count(_) => st.producer.Resting?
    case AssignId => st.producer.Counted?
    case PlaceJob(_, _) => st.producer.Numbered?
    case Record => st.producer.Placed?
    case Deliver(id) => id in st.promoted
    case Begin(t, _) => t < |st.agents| && st.agents[t].Free?
    case BeginMissed(t, id) => t < |st.agents| && st.agents[t].Free? && id in st.missed
    case Return(t, _) => t < |st.agents| && st.agents[t].Running?
    case Advance(t, _) => t < |st.agents| && CanAdvance(st.agents[t])
    case _ => true
  }

  function Starts(st: Sys, id: Id): nat {
    if id in st.starts then st.starts[id] else 0
  }

  /** Agent `t` makes the move `m`. */
  function Moved(st: Sys, t: nat, m: Move): Sys
    requires t < |st.agents|
  {
    var st' := st.(store := m.store, agents := st.agents[t := m.pc]);
    if m.started && Claiming(m.pc)
    then st'.(starts := st.starts[m.pc.id := Starts(st, m.pc.id) + 1])
    else st'
  }

  function Apply(st: Sys, step: Step): Sys
    requires Enabled(st, step)
  {
    match step
    case Count(opts) =>
      if opts.priority > 0
      then st.(store := st.store.(priorityCounter := st.store.priorityCounter + 1),
               producer := Counted(opts, st.store.priorityCounter + 1))
      else st.(producer := Counted(opts, 0))
    case AssignId =>
      var id := st.store.lastId + 1;
      st.(store := st.store.(lastId := id), producer := Numbered(st.producer.opts, st.producer.pc, id))
    case PlaceJob(flag, now) =>
      var p := st.producer;
      if TooShort(p.opts) then st.(producer := Resting)
      else st.(store := st.store.(cols := Place(st.store.cols, p.opts, p.pc, p.id, flag, now)),
               producer := Placed(p.opts, p.pc, p.id))
    case Record =>
      var p := st.producer;
      st.(store := st.store.(jobs := st.store.jobs[p.id := NewJob(p.opts, p.pc)]), producer := Resting,
          accepted := st.accepted[p.id := p.opts])
    case PauseOrResume(pause) => st.(store := PauseStore(st.store, pause))
    case PollDelayed(start, stop) =>
      var p := GetDelayedAt(st.store.cols.delayed, start, stop);
      st.(store := st.store.(cols := st.store.cols.(delayed := p.delayed)),
          promoted := st.promoted + multiset(p.jobs), missed := st.missed + multiset(p.missed))
    case Deliver(id) =>
      st.(store := AddItem(st.store, T.Wait, id, None, true), promoted := st.promoted - multiset{id})
    case TouchLocks(locks) => st.(store := st.store.(locks := locks))
    case Begin(t, c) =>
      var (cols, id) := PopBackPushFront(st.store.cols);
      st.(store := st.store.(cols := cols),
          agents := st.agents[t := if id.None? then Seeking(c) else Reading(id.value, c)])
    case BeginMissed(t, id) =>
      st.(missed := st.missed - multiset{id}, agents := st.agents[t := Overdue(id)])
    case Return(t, raised) =>
      var id := st.agents[t].id;
      Moved(st, t, Move(st.store, Verifying(id, if raised then Raised else Succeeded, GetState(st.store, id)), false))
    case Advance(t, x) =>
      Moved(st, t, Call(st.store, st.agents[t], x))
  }

  predicate Legal(st: Sys, steps: seq<Step>)
    decreases |steps|
  {
    steps == [] || (Enabled(st, steps[0]) && Legal(Apply(st, steps[0]), steps[1..]))
  }

  function Run(st: Sys, steps: seq<Step>): Sys
    requires Legal(st, steps)
    decreases |steps|
  {
    if steps == [] then st else Run(Apply(st, steps[0]), steps[1..])
  }

  lemma Then(st: Sys, step: Step, rest: seq<Step>, all: seq<Step>)
    requires Enabled(st, step) && Legal(Apply(st, step), rest) && all == [step] + rest
    ensures Legal(st, all) && Run(st, all) == Run(Apply(st, step), rest)
  {
    assert all[1..] == rest;
  }

  lemma Stop(st: Sys)
    ensures Legal(st, []) && Run(st, []) == st
  {
  }

  // ---- What is kept ----

  /** The agent works on an id that is in the active list. */
  predicate OnActive(pc: Pc) {
    match pc
    case Reading(_, _) => true
    case Locking(_, _, _) => true
    case Checking(_, _, _) => true
    case Ensuring(_, _, _) => true
    case Marking(_, _) => true
    case Stamping(_, _) => true
    case Fetching(_, _) => true
    case Running(_) => true
    case Verifying(_, cause, _) => cause != MissedDeadline
    case Counting(_, cause, _) => cause != MissedDeadline
    case Leaving(_, cause, _) => cause != MissedDeadline
    case _ => false
  }

  /** The agent has an id in hand that is in no queued collection. */
  predicate Holding(pc: Pc) {
    match pc
    case InHand(_, _) => true
    case Overdue(_) => true
    case Verifying(_, cause, _) => cause == MissedDeadline
    case Counting(_, cause, _) => cause == MissedDeadline
    case Leaving(_, cause, _) => cause == MissedDeadline
    case Ending(_, _) => true
    case Closing(_, _) => true
    case Deciding(_, _) => true
    case Settling(_, _, _) => true
    case _ => false
  }

  predicate Claiming(pc: Pc) {
    OnActive(pc) || Holding(pc)
  }

  predicate Claims(pc: Pc, id: Id) {
    Claiming(pc) && pc.id == id
  }

  /** The run, or the missed deadline, has begun but is not yet counted. */
  predicate Started(pc: Pc) {
    pc.Running? || (pc.Verifying? && pc.cause != MissedDeadline) || pc.Counting?
  }

  /** The attempt has been counted. */
  predicate Charged(pc: Pc) {
    pc.Leaving? || pc.Ending? || pc.Closing? || pc.Deciding? || pc.Settling?
  }

  /** The agent has seen the record. */
  predicate Seen(pc: Pc) {
    pc.Ensuring? || pc.Marking? || pc.Stamping? || pc.Fetching? || Started(pc) || Charged(pc)
  }

  /** The record says Active from here until the job leaves the active list. */
  predicate Marked(pc: Pc) {
    OnActive(pc) && (pc.Stamping? || pc.Fetching? || Started(pc) || pc.Leaving?)
  }

  predicate Inserting(p: Producer, id: Id) {
    (p.Numbered? || p.Placed?) && p.id == id
  }

  /** Occurrences of `id` outside any agent's hands. */
  ghost function Stored(st: Sys, id: Id): nat {
    Queued(st.store.cols, id) + st.promoted[id] + st.missed[id]
    + Bit(st.producer.Numbered? && st.producer.id == id)
  }

  /** All the system knows about one id, agents apart. */
  datatype Local = Local(
    stored: nat,
    active: nat,
    record: Option<Job>,
    accepted: Option<JobOptions>,
    starts: nat,
    inserting: bool,
    known: bool)

  ghost function View(st: Sys, id: Id): Local {
    Local(Stored(st, id), InList(st.store.cols.active, id), Lookup(st.store.jobs, id), Lookup(st.accepted, id),
          Starts(st, id), Inserting(st.producer, id), id <= st.store.lastId)
  }

  ghost predicate Budget(pc: Pc, job: Job, starts: nat) {
    if Charged(pc)
    then 1 <= job.attemptsMade <= Cap(job.opts) && starts <= job.attemptsMade
    else job.attemptsMade < Cap(job.opts) && starts <= job.attemptsMade + Bit(Started(pc))
  }

  /** What holds of an agent that claims the id seen as `v`. */
  ghost predicate AgentOk(pc: Pc, v: Local)
    requires Claiming(pc)
  {
    && v.known
    && (OnActive(pc) ==> v.active == 1)
    && (Holding(pc) ==> v.stored == 0)
    && (Seen(pc) ==> v.record.Some?)
    && (v.record.None? ==> v.inserting)
    && (v.record.Some? ==> Budget(pc, v.record.value, v.starts))
    && (Marked(pc) ==> v.record.value.state == JobState.Active)
    && (Marked(pc) && (pc.Verifying? || pc.Counting? || pc.Leaving?) ==> pc.prev == JobState.Active)
    && (pc.Settling? ==> pc.job == v.record.value)
  }

  /** What holds of an id, claimed by some agent or not. */
  ghost predicate IdOk(v: Local, claimed: bool) {
    && v.stored <= 1
    && (!v.known ==> v.stored == 0 && v.record.None? && v.accepted.None?)
    && (v.inserting ==> v.known && v.accepted.None?)
    && (v.record.Some? ==> v.accepted == Some(v.record.value.opts))
    && (v.stored > 0 && v.record.None? ==> v.inserting)
    && v.starts <= (if v.accepted.Some? then Cap(v.accepted.value) else 0)
    && (v.record.Some? && !claimed ==>
          && v.starts <= v.record.value.attemptsMade
          && (v.stored > 0 ==> v.record.value.attemptsMade < Cap(v.record.value.opts)))
  }

  ghost predicate Claimed(agents: seq<Pc>, id: Id) {
    exists t :: 0 <= t < |agents| && Claims(agents[t], id)
  }

  ghost predicate AgentsOk(st: Sys) {
    forall t :: 0 <= t < |st.agents| ==>
      && !st.agents[t].Unlinking? && !st.agents[t].Relinking?
      && (Claiming(st.agents[t]) ==> AgentOk(st.agents[t], View(st, st.agents[t].id)))
  }

  ghost predicate Exclusive(agents: seq<Pc>) {
    forall t, u :: 0 <= t < |agents| && 0 <= u < |agents| && t != u && Claiming(agents[t])
      ==> !Claims(agents[u], agents[t].id)
  }

  ghost predicate Inv(st: Sys) {
    && (forall id :: IdOk(View(st, id), Claimed(st.agents, id)))
    && AgentsOk(st)
    && Exclusive(st.agents)
  }

  lemma InitOk(n: nat)
    ensures Inv(Init(n))
  {
    var st := Init(n);
    forall id ensures View(st, id) == Local(0, 0, None, None, 0, false, id == 0) {
      assert KeysOf(map[], id) == {};
    }
  }

  /** As before, except that an overwriting insertion may have dropped occurrences. */
  ghost predicate Kept(v: Local, v': Local) {
    v'.stored <= v.stored && v' == v.(stored := v'.stored)
  }

  /** Agent `t` makes a step that concerns only `id`, which no other agent claims. */
  lemma AgentFrame(st: Sys, st': Sys, t: nat, id: Id)
    requires Inv(st) && t < |st.agents| && |st'.agents| == |st.agents|
    requires forall u :: 0 <= u < |st.agents| && u != t ==> st'.agents[u] == st.agents[u] && !Claims(st.agents[u], id)
    requires Claiming(st.agents[t]) ==> st.agents[t].id == id
    requires Claiming(st'.agents[t]) ==> st'.agents[t].id == id && AgentOk(st'.agents[t], View(st', id))
    requires !st'.agents[t].Unlinking? && !st'.agents[t].Relinking?
    requires IdOk(View(st', id), Claiming(st'.agents[t]))
    requires forall j :: j != id ==> Kept(View(st, j), View(st', j))
    ensures Inv(st')
  {
    forall j ensures IdOk(View(st', j), Claimed(st'.agents, j)) {
      if j == id {
        assert Claimed(st'.agents, id) == Claiming(st'.agents[t]) by {
          if Claiming(st'.agents[t]) {
            assert Claims(st'.agents[t], id);
          }
        }
      } else {
        ClaimedByOthers(st.agents, st'.agents, t, j);
        assert IdOk(View(st, j), Claimed(st.agents, j));
        assert Kept(View(st, j), View(st', j));
      }
    }
    forall u | 0 <= u < |st'.agents| && u != t && Claiming(st'.agents[u])
      ensures AgentOk(st'.agents[u], View(st', st'.agents[u].id))
    {
      assert Kept(View(st, st.agents[u].id), View(st', st.agents[u].id));
    }
  }

  lemma ClaimedByOthers(a: seq<Pc>, b: seq<Pc>, t: nat, j: Id)
    requires t < |a| == |b| && !Claims(a[t], j) && !Claims(b[t], j)
    requires forall u :: 0 <= u < |a| && u != t ==> a[u] == b[u]
    ensures Claimed(a, j) == Claimed(b, j)
  {
    if Claimed(a, j) {
      var u :| 0 <= u < |a| && Claims(a[u], j);
      assert Claims(b[u], j);
    }
    if Claimed(b, j) {
      var u :| 0 <= u < |b| && Claims(b[u], j);
      assert Claims(a[u], j);
    }
  }

  /** How a change of the collections shows in the view of an id. */
  lemma ColsView(st: Sys, agents: seq<Pc>, cols: Cols, id: Id)
    ensures View(st.(store := st.store.(cols := cols), agents := agents), id)
         == View(st, id).(stored := Stored(st, id) - Queued(st.store.cols, id) + Queued(cols, id),
                          active := InList(cols.active, id))
  {
  }

  /** A move that leaves the collections alone and writes at most the record of the claimed id. */
  lemma RecordMove(st: Sys, t: nat, m: Move, id: Id)
    requires Inv(st) && t < |st.agents| && Claims(st.agents[t], id)
    requires m.store.cols == st.store.cols && m.store.lastId == st.store.lastId
    requires forall j :: j != id ==> Lookup(m.store.jobs, j) == Lookup(st.store.jobs, j)
    requires !m.pc.Unlinking? && !m.pc.Relinking? && (Claiming(m.pc) ==> m.pc.id == id)
    requires var v := View(st, id).(record := Lookup(m.store.jobs, id),
                                    starts := Starts(st, id) + Bit(m.started && Claiming(m.pc)));
             IdOk(v, Claiming(m.pc)) && (Claiming(m.pc) ==> AgentOk(m.pc, v))
    ensures Inv(Moved(st, t, m))
  {
    var st' := Moved(st, t, m);
    forall j ensures Stored(st', j) == Stored(st, j) {
    }
    AgentFrame(st, st', t, id);
  }

  lemma ReadingKeeps(st: Sys, t: nat, x: Input)
    requires Inv(st) && t < |st.agents| && (st.agents[t].Reading? || st.agents[t].Locking? || st.agents[t].Overdue?)
    ensures Inv(Moved(st, t, Call(st.store, st.agents[t], x)))
  {
    var pc := st.agents[t];
    assert IdOk(View(st, pc.id), Claimed(st.agents, pc.id)) && Claims(pc, pc.id);
    RecordMove(st, t, Call(st.store, pc, x), pc.id);
  }

  lemma CheckingKeeps(st: Sys, t: nat, x: Input)
    requires Inv(st) && t < |st.agents| && (st.agents[t].Checking? || st.agents[t].Ensuring?)
    ensures Inv(Moved(st, t, Call(st.store, st.agents[t], x)))
  {
    var pc := st.agents[t];
    assert IdOk(View(st, pc.id), Claimed(st.agents, pc.id)) && Claims(pc, pc.id);
    RecordMove(st, t, Call(st.store, pc, x), pc.id);
  }

  lemma MarkingKeeps(st: Sys, t: nat, x: Input)
    requires Inv(st) && t < |st.agents| && (st.agents[t].Marking? || st.agents[t].Stamping?)
    ensures Inv(Moved(st, t, Call(st.store, st.agents[t], x)))
  {
    var pc := st.agents[t];
    assert IdOk(View(st, pc.id), Claimed(st.agents, pc.id)) && Claims(pc, pc.id);
    RecordMove(st, t, Call(st.store, pc, x), pc.id);
  }

  lemma FetchingKeeps(st: Sys, t: nat, x: Input)
    requires Inv(st) && t < |st.agents| && (st.agents[t].Fetching? || st.agents[t].Verifying?)
    ensures Inv(Moved(st, t, Call(st.store, st.agents[t], x)))
  {
    var pc := st.agents[t];
    assert IdOk(View(st, pc.id), Claimed(st.agents, pc.id)) && Claims(pc, pc.id);
    RecordMove(st, t, Call(st.store, pc, x), pc.id);
  }

  lemma CountingKeeps(st: Sys, t: nat, x: Input)
    requires Inv(st) && t < |st.agents| && (st.agents[t].Counting? || st.agents[t].Closing?)
    ensures Inv(Moved(st, t, Call(st.store, st.agents[t], x)))
  {
    var pc := st.agents[t];
    assert IdOk(View(st, pc.id), Claimed(st.agents, pc.id)) && Claims(pc, pc.id);
    RecordMove(st, t, Call(st.store, pc, x), pc.id);
  }

  lemma DecidingKeeps(st: Sys, t: nat, x: Input)
    requires Inv(st) && t < |st.agents| && (st.agents[t].Deciding?)
    ensures Inv(Moved(st, t, Call(st.store, st.agents[t], x)))
  {
    var pc := st.agents[t];
    assert IdOk(View(st, pc.id), Claimed(st.agents, pc.id)) && Claims(pc, pc.id);
    RecordMove(st, t, Call(st.store, pc, x), pc.id);
  }

  lemma ReturnKeeps(st: Sys, t: nat, raised: bool)
    requires Inv(st) && t < |st.agents| && st.agents[t].Running?
    ensures Inv(Apply(st, Return(t, raised)))
  {
    hide Call, Queued;
    var id := st.agents[t].id;
    assert IdOk(View(st, id), Claimed(st.agents, id)) && Claims(st.agents[t], id);
    var cause := if raised then Raised else Succeeded;
    RecordMove(st, t, Move(st.store, Verifying(id, cause, GetState(st.store, id)), false), id);
  }

  /** A move that changes the collections on behalf of the claimed id. */
  lemma ColsMove(st: Sys, t: nat, m: Move, id: Id)
    requires Inv(st) && t < |st.agents| && Claims(st.agents[t], id)
    requires m.store == st.store.(cols := m.store.cols) && !m.started
    requires forall j :: j != id ==>
               && Queued(m.store.cols, j) <= Queued(st.store.cols, j)
               && InList(m.store.cols.active, j) == InList(st.store.cols.active, j)
    requires !m.pc.Unlinking? && !m.pc.Relinking? && (Claiming(m.pc) ==> m.pc.id == id)
    requires var v := View(st, id).(stored := Stored(st, id) - Queued(st.store.cols, id) + Queued(m.store.cols, id),
                                    active := InList(m.store.cols.active, id));
             IdOk(v, Claiming(m.pc)) && (Claiming(m.pc) ==> AgentOk(m.pc, v))
    ensures Inv(Moved(st, t, m))
  {
    AgentFrame(st, Moved(st, t, m), t, id);
  }

  lemma InHandKeeps(st: Sys, t: nat, x: Input)
    requires Inv(st) && t < |st.agents| && st.agents[t].InHand?
    ensures Inv(Moved(st, t, Call(st.store, st.agents[t], x)))
  {
    var pc := st.agents[t];
    assert IdOk(View(st, pc.id), Claimed(st.agents, pc.id)) && Claims(pc, pc.id);
    forall j {
      AddToList(st.store.cols, T.Active, pc.id, None, true, j);
    }
    ColsMove(st, t, Call(st.store, pc, x), pc.id);
  }

  lemma LeavingKeeps(st: Sys, t: nat, x: Input)
    requires Inv(st) && t < |st.agents| && st.agents[t].Leaving?
    ensures Inv(Moved(st, t, Call(st.store, st.agents[t], x)))
  {
    var pc := st.agents[t];
    assert IdOk(View(st, pc.id), Claimed(st.agents, pc.id)) && Claims(pc, pc.id);
    LeavingCount(st.store.cols, pc.id, SuffixOf(pc.prev));
    ColsMove(st, t, Call(st.store, pc, x), pc.id);
  }

  /** Leaving the active list takes every occurrence; leaving elsewhere adds none. */
  lemma LeavingCount(c: Cols, id: Id, col: T.Suffix)
    ensures var c' := Removed(c, col, id);
            && (forall j :: Queued(c', j) <= Queued(c, j))
            && (forall j :: j != id ==> InList(c'.active, j) == InList(c.active, j))
            && (col == T.Active ==> Queued(c', id) + InList(c.active, id) == Queued(c, id))
  {
    forall j ensures Queued(Removed(c, col, id), j) <= Queued(c, j)
             ensures j != id ==> InList(Removed(c, col, id).active, j) == InList(c.active, j)
    {
      if col == T.Active {
        RemoveActiveCount(c, id, j);
      } else {
        RemoveCount(c, col, id, j);
      }
    }
    RemoveActiveCount(c, id, id);
  }

  lemma EndingKeeps(st: Sys, t: nat, x: Input)
    requires Inv(st) && t < |st.agents| && st.agents[t].Ending?
    ensures Inv(Moved(st, t, Call(st.store, st.agents[t], x)))
  {
    var pc := st.agents[t];
    assert IdOk(View(st, pc.id), Claimed(st.agents, pc.id)) && Claims(pc, pc.id);
    var col := SuffixOf(Target(pc.cause));
    var m := Move(AddItem(st.store, col, pc.id, Some(x.ts), false), Closing(pc.id, pc.cause), false);
    forall j {
      AddToEnded(st.store.cols, col, pc.id, x.ts, false, j);
    }
    ColsMove(st, t, m, pc.id);
  }

  lemma SettlingKeeps(st: Sys, t: nat, x: Input)
    requires Inv(st) && t < |st.agents| && st.agents[t].Settling? && CanAdvance(st.agents[t])
    ensures Inv(Moved(st, t, Call(st.store, st.agents[t], x)))
  {
    var pc := st.agents[t];
    assert IdOk(View(st, pc.id), Claimed(st.agents, pc.id)) && Claims(pc, pc.id);
    if pc.cause == MissedDeadline {
      RecordMove(st, t, Move(st.store, Free, false), pc.id);
    } else {
      var raised := pc.cause == Raised;
      var next := Decide(x.strategies, pc.job, raised, x.env);
      RequeueNeedsAttempts(x.strategies, pc.job.opts, pc.job.attemptsMade, x.env);
      SettleKeeps(st, t, next, raised);
    }
  }

  /** Settling either leaves the queued collections alone or lists the job once more. */
  lemma SettleCount(c: Cols, id: Id, next: Next, raised: bool, j: Id)
    requires Requeues(next)
    ensures var c' := if next.ToWait? then Added(c, T.Wait, id, None, true)
                      else Added(c, T.Delayed, id, Some(next.score), !raised);
            Queued(c', j) <= Queued(c, j) + Bit(j == id) && c'.active == c.active
  {
    if next.ToWait? {
      AddToList(c, T.Wait, id, None, true, j);
    } else {
      AddToDelayed(c, id, next.score, !raised, j);
    }
  }

  lemma SettleKeeps(st: Sys, t: nat, next: Next, raised: bool)
    requires Inv(st) && t < |st.agents| && st.agents[t].Settling?
    requires Requeues(next) ==> st.agents[t].job.attemptsMade < Cap(st.agents[t].job.opts)
    ensures Inv(Moved(st, t, SettleCall(st.store, st.agents[t].id, next, raised)))
  {
    hide Removes, Added, Queued;
    var pc := st.agents[t];
    var m := SettleCall(st.store, pc.id, next, raised);
    assert IdOk(View(st, pc.id), Claimed(st.agents, pc.id)) && Claims(pc, pc.id);
    if Requeues(next) {
      forall j {
        SettleCount(st.store.cols, pc.id, next, raised, j);
      }
      ColsMove(st, t, m, pc.id);
    } else {
      RecordMove(st, t, m, pc.id);
    }
  }

  /** An id stored outside the active list is claimed by no agent. */
  lemma StoredIsUnclaimed(st: Sys, id: Id)
    requires Inv(st) && Stored(st, id) > InList(st.store.cols.active, id)
    ensures !Claimed(st.agents, id)
  {
    assert IdOk(View(st, id), Claimed(st.agents, id));
  }

  lemma NextIsUnclaimed(st: Sys, id: Id)
    requires Inv(st) && id > st.store.lastId
    ensures !Claimed(st.agents, id) && IdOk(View(st, id), false)
  {
    assert IdOk(View(st, id), Claimed(st.agents, id));
    forall u | 0 <= u < |st.agents| ensures !Claims(st.agents[u], id) {
      assert Claims(st.agents[u], id) ==> AgentOk(st.agents[u], View(st, id));
    }
  }

  /** A move of an agent that claims nothing before or after it. */
  lemma IdleMove(st: Sys, t: nat, m: Move)
    requires Inv(st) && t < |st.agents| && !Claiming(st.agents[t]) && !Claiming(m.pc)
    requires !m.pc.Unlinking? && !m.pc.Relinking?
    requires m.store == st.store.(cols := m.store.cols)
    requires m.store.cols.active == st.store.cols.active
    requires forall j :: Queued(m.store.cols, j) == Queued(st.store.cols, j)
    ensures Inv(Moved(st, t, m))
  {
    var next := st.store.lastId + 1;
    NextIsUnclaimed(st, next);
    assert View(Moved(st, t, m), next) == View(st, next);
    AgentFrame(st, Moved(st, t, m), t, next);
  }

  lemma UnfailingKeeps(st: Sys, t: nat, x: Input)
    requires Inv(st) && t < |st.agents| && st.agents[t].Unfailing?
    ensures Inv(Moved(st, t, Call(st.store, st.agents[t], x)))
  {
    IdleMove(st, t, Move(RemoveItem(st.store, T.Failed, st.agents[t].id), Free, false));
  }

  /** An agent takes an id that nobody claims into its hands, or onto the active list. */
  lemma TakeKeeps(st: Sys, st': Sys, t: nat, pc: Pc)
    requires Inv(st) && t < |st.agents| && !Claiming(st.agents[t])
    requires st'.agents == st.agents[t := pc] && (pc.Reading? || pc.InHand? || pc.Overdue?)
    requires Stored(st, pc.id) > InList(st.store.cols.active, pc.id)
    requires forall j :: j != pc.id ==> View(st', j) == View(st, j)
    requires View(st', pc.id) == View(st, pc.id).(stored := Bit(pc.Reading?), active := Bit(pc.Reading?))
    ensures Inv(st')
  {
    StoredIsUnclaimed(st, pc.id);
    assert IdOk(View(st, pc.id), Claimed(st.agents, pc.id));
    AgentFrame(st, st', t, pc.id);
  }

  lemma BeginKeeps(st: Sys, t: nat, c: Claim)
    requires Inv(st) && Enabled(st, Begin(t, c))
    ensures Inv(Apply(st, Begin(t, c)))
  {
    var (cols, r) := PopBackPushFront(st.store.cols);
    if r.None? {
      IdleMove(st, t, Move(st.store, Seeking(c), false));
    } else {
      BeginTakes(st, t, cols, Reading(r.value, c));
    }
  }

  lemma BeginTakes(st: Sys, t: nat, cols: Cols, pc: Pc)
    requires Inv(st) && t < |st.agents| && !Claiming(st.agents[t])
    requires pc.Reading? && (cols, Some(pc.id)) == PopBackPushFront(st.store.cols)
    ensures Inv(st.(store := st.store.(cols := cols), agents := st.agents[t := pc]))
  {
    var st' := st.(store := st.store.(cols := cols), agents := st.agents[t := pc]);
    forall j ensures j != pc.id ==> View(st', j) == View(st, j) {
      PopWaitingCount(st.store.cols, j);
      ColsView(st, st'.agents, cols, j);
    }
    PopWaitingCount(st.store.cols, pc.id);
    ColsView(st, st'.agents, cols, pc.id);
    assert IdOk(View(st, pc.id), Claimed(st.agents, pc.id));
    assert InList(st.store.cols.waiting, pc.id) > 0;
    TakeKeeps(st, st', t, pc);
  }

  lemma SeekingKeeps(st: Sys, t: nat, x: Input)
    requires Inv(st) && t < |st.agents| && st.agents[t].Seeking?
    ensures Inv(Moved(st, t, Call(st.store, st.agents[t], x)))
  {
    var (cols, r) := PopPrioritized(st.store.cols);
    if r.None? {
      IdleMove(st, t, Move(st.store, Free, false));
    } else {
      SeekingTakes(st, t, cols, InHand(r.value, st.agents[t].claim));
    }
  }

  lemma SeekingTakes(st: Sys, t: nat, cols: Cols, pc: Pc)
    requires Inv(st) && t < |st.agents| && !Claiming(st.agents[t])
    requires pc.InHand? && (cols, Some(pc.id)) == PopPrioritized(st.store.cols)
    ensures Inv(st.(store := st.store.(cols := cols), agents := st.agents[t := pc]))
  {
    var st' := st.(store := st.store.(cols := cols), agents := st.agents[t := pc]);
    forall j ensures j != pc.id ==> View(st', j) == View(st, j) {
      PopPrioritizedCount(st.store.cols, j);
      ColsView(st, st'.agents, cols, j);
    }
    PopPrioritizedCount(st.store.cols, pc.id);
    ColsView(st, st'.agents, cols, pc.id);
    assert IdOk(View(st, pc.id), Claimed(st.agents, pc.id));
    TakeKeeps(st, st', t, pc);
  }

  lemma BeginMissedKeeps(st: Sys, t: nat, id: Id)
    requires Inv(st) && Enabled(st, BeginMissed(t, id))
    ensures Inv(Apply(st, BeginMissed(t, id)))
  {
    assert IdOk(View(st, id), Claimed(st.agents, id));
    TakeKeeps(st, Apply(st, BeginMissed(t, id)), t, Overdue(id));
  }

  lemma AdvanceKeeps(st: Sys, t: nat, x: Input)
    requires Inv(st) && Enabled(st, Advance(t, x))
    ensures Inv(Apply(st, Advance(t, x)))
  {
    match st.agents[t]
    case Seeking(_) => SeekingKeeps(st, t, x);
    case InHand(_, _) => InHandKeeps(st, t, x);
    case Reading(_, _) => ReadingKeeps(st, t, x);
    case Locking(_, _, _) => ReadingKeeps(st, t, x);
    case Overdue(_) => ReadingKeeps(st, t, x);
    case Checking(_, _, _) => CheckingKeeps(st, t, x);
    case Ensuring(_, _, _) => CheckingKeeps(st, t, x);
    case Marking(_, _) => MarkingKeeps(st, t, x);
    case Stamping(_, _) => MarkingKeeps(st, t, x);
    case Fetching(_, _) => FetchingKeeps(st, t, x);
    case Verifying(_, _, _) => FetchingKeeps(st, t, x);
    case Counting(_, _, _) => CountingKeeps(st, t, x);
    case Closing(_, _) => CountingKeeps(st, t, x);
    case Deciding(_, _) => DecidingKeeps(st, t, x);
    case Leaving(_, _, _) => LeavingKeeps(st, t, x);
    case Ending(_, _) => EndingKeeps(st, t, x);
    case Settling(_, _, _) => SettlingKeeps(st, t, x);
    case Unfailing(_) => UnfailingKeeps(st, t, x);
  }

  // ---- Steps outside the agents ----

  /** A step of the producer, the poller or the timer that concerns only `id`, which nobody claims. */
  lemma EnvironmentFrame(st: Sys, st': Sys, id: Id)
    requires Inv(st) && st'.agents == st.agents && !Claimed(st.agents, id)
    requires forall j :: j != id ==> Kept(View(st, j), View(st', j))
    requires IdOk(View(st', id), false)
    ensures Inv(st')
  {
    forall j ensures IdOk(View(st', j), Claimed(st'.agents, j)) {
      assert IdOk(View(st, j), Claimed(st.agents, j));
      assert j != id ==> Kept(View(st, j), View(st', j));
    }
    forall t | 0 <= t < |st'.agents| && Claiming(st'.agents[t])
      ensures AgentOk(st'.agents[t], View(st', st'.agents[t].id))
    {
      assert Claims(st.agents[t], st.agents[t].id);
      assert Kept(View(st, st.agents[t].id), View(st', st.agents[t].id));
    }
  }

  /** A step after which every id is seen as before. */
  lemma SameViews(st: Sys, st': Sys)
    requires Inv(st) && st'.agents == st.agents
    requires forall j :: View(st', j) == View(st, j)
    ensures Inv(st')
  {
    forall j ensures IdOk(View(st', j), Claimed(st'.agents, j)) {
      assert IdOk(View(st, j), Claimed(st.agents, j));
    }
  }

  lemma PauseKeeps(st: Sys, pause: bool)
    requires Inv(st)
    ensures Inv(Apply(st, PauseOrResume(pause)))
  {
    forall j {
      PauseCount(st.store.cols, pause, j);
    }
    SameViews(st, Apply(st, PauseOrResume(pause)));
  }

  lemma PollKeeps(st: Sys, start: int, stop: int)
    requires Inv(st)
    ensures Inv(Apply(st, PollDelayed(start, stop)))
  {
    forall j {
      PollView(st, start, stop, j);
    }
    SameViews(st, Apply(st, PollDelayed(start, stop)));
  }

  lemma PollView(st: Sys, start: int, stop: int, id: Id)
    ensures View(Apply(st, PollDelayed(start, stop)), id) == View(st, id)
  {
    hide GetDelayedAt, Call;
    PollCount(st.store.cols, start, stop, id);
  }

  lemma DeliverKeeps(st: Sys, id: Id)
    requires Inv(st) && id in st.promoted
    ensures Inv(Apply(st, Deliver(id)))
  {
    forall j {
      DeliverView(st, id, j);
    }
    SameViews(st, Apply(st, Deliver(id)));
  }

  lemma DeliverView(st: Sys, id: Id, j: Id)
    requires id in st.promoted
    ensures View(Apply(st, Deliver(id)), j) == View(st, j)
  {
    hide Call, Queued, Ended, Added, Place, GetDelayedAt;
    AddToList(st.store.cols, T.Wait, id, None, true, j);
  }

  lemma AssignIdKeeps(st: Sys)
    requires Inv(st) && Enabled(st, AssignId)
    ensures Inv(Apply(st, AssignId))
  {
    var id := st.store.lastId + 1;
    NextIsUnclaimed(st, id);
    EnvironmentFrame(st, Apply(st, AssignId), id);
  }

  lemma PlaceCount(c: Cols, opts: JobOptions, pc: nat, id: Id, flag: bool, now: int, j: Id)
    ensures var c' := Place(c, opts, pc, id, flag, now);
            && Queued(c', j) <= Queued(c, j) + Bit(j == id)
            && c'.active == c.active
  {
    hide S.Score, Queued;
    if Unsigned(opts.delayMs) > 0 {
      AddToDelayed(c, id, now + opts.delayMs, false, j);
    } else if opts.priority > 0 {
      AddToPrioritized(c, id, S.Score(opts.priority, pc), true, j);
    } else {
      AddToList(c, if flag then T.Paused else T.Wait, id, None, true, j);
    }
  }

  lemma PlaceKeeps(st: Sys, flag: bool, now: int)
    requires Inv(st) && Enabled(st, PlaceJob(flag, now))
    ensures Inv(Apply(st, PlaceJob(flag, now)))
  {
    hide Place, Call;
    var p := st.producer;
    var st' := Apply(st, PlaceJob(flag, now));
    assert IdOk(View(st, p.id), Claimed(st.agents, p.id));
    StoredIsUnclaimed(st, p.id);
    if !TooShort(p.opts) {
      forall j {
        PlaceCount(st.store.cols, p.opts, p.pc, p.id, flag, now, j);
      }
    }
    EnvironmentFrame(st, st', p.id);
  }

  /** A record that appears while agents already handle the id leaves them all content. */
  lemma RecordAppears(v: Local, job: Job, claimed: bool)
    requires IdOk(v, claimed) && v.inserting && job.attemptsMade == 0
    ensures var v' := v.(record := Some(job), accepted := Some(job.opts), inserting := false);
            && IdOk(v', claimed)
            && forall pc :: Claiming(pc) && AgentOk(pc, v) ==> AgentOk(pc, v')
  {
  }

  lemma RecordKeeps(st: Sys)
    requires Inv(st) && Enabled(st, Record)
    ensures Inv(Apply(st, Record))
  {
    hide Call, Queued, Budget, Claims;
    var p := st.producer;
    var st' := Apply(st, Record);
    assert IdOk(View(st, p.id), Claimed(st.agents, p.id));
    RecordAppears(View(st, p.id), NewJob(p.opts, p.pc), Claimed(st.agents, p.id));
    forall j ensures j != p.id ==> View(st', j) == View(st, j) {
    }
    forall j ensures IdOk(View(st', j), Claimed(st'.agents, j)) {
      assert IdOk(View(st, j), Claimed(st.agents, j));
    }
    forall t | 0 <= t < |st'.agents| && Claiming(st'.agents[t])
      ensures AgentOk(st'.agents[t], View(st', st'.agents[t].id))
    {
      assert AgentOk(st.agents[t], View(st, st.agents[t].id));
    }
  }

  lemma CountKeeps(st: Sys, opts: JobOptions)
    requires Inv(st) && Enabled(st, Count(opts))
    ensures Inv(Apply(st, Count(opts)))
  {
    SameViews(st, Apply(st, Count(opts)));
  }

  lemma StepKeeps(st: Sys, step: Step)
    requires Inv(st) && Enabled(st, step)
    ensures Inv(Apply(st, step))
  {
    match step
    case Count(opts) => CountKeeps(st, opts);
    case AssignId => AssignIdKeeps(st);
    case PlaceJob(flag, now) => PlaceKeeps(st, flag, now);
    case Record => RecordKeeps(st);
    case PauseOrResume(pause) => PauseKeeps(st, pause);
    case PollDelayed(start, stop) => PollKeeps(st, start, stop);
    case Deliver(id) => DeliverKeeps(st, id);
    case TouchLocks(locks) => SameViews(st, Apply(st, step));
    case Begin(t, c) => BeginKeeps(st, t, c);
    case BeginMissed(t, id) => BeginMissedKeeps(st, t, id);
    case Return(t, raised) => ReturnKeeps(st, t, raised);
    case Advance(t, x) => AdvanceKeeps(st, t, x);
  }

  lemma {:induction false} RunKeeps(st: Sys, steps: seq<Step>)
    requires Inv(st) && Legal(st, steps)
    ensures Inv(Run(st, steps))
    decreases |steps|
  {
    if steps == [] {
    } else {
      StepKeeps(st, steps[0]);
      RunKeeps(Apply(st, steps[0]), steps[1..]);
    }
  }

  // ---- The theorems ----

  /**
    * Exclusive ownership: in every run, however the store calls interleave, an
    * id occurs at most once in all of waiting, paused, prioritized, delayed,
    * active, the promotion timer and the agents' hands, and two agents never
    * work on the same id.
    */
  lemma ExclusiveOwnership(n: nat, steps: seq<Step>, id: Id)
    requires Legal(Init(n), steps)
    ensures var st := Run(Init(n), steps);
            && Queued(st.store.cols, id) + st.promoted[id] + st.missed[id] <= 1
            && (forall t, u :: 0 <= t < |st.agents| && 0 <= u < |st.agents| && t != u
                  ==> !(Claims(st.agents[t], id) && Claims(st.agents[u], id)))
            && (forall t :: 0 <= t < |st.agents| && Holding(st.agents[t]) && st.agents[t].id == id
                  ==> Queued(st.store.cols, id) + st.promoted[id] + st.missed[id] == 0)
  {
    InitOk(n);
    RunKeeps(Init(n), steps);
    var st := Run(Init(n), steps);
    assert IdOk(View(st, id), Claimed(st.agents, id));
  }

  /** In particular no job is ever processed by two workers at once. */
  lemma OneProcessorPerJob(n: nat, steps: seq<Step>, t: nat, u: nat)
    requires Legal(Init(n), steps)
    requires var st := Run(Init(n), steps);
             t < u < |st.agents| && st.agents[t].Running? && st.agents[u].Running?
    ensures var st := Run(Init(n), steps);
            st.agents[t].id != st.agents[u].id
  {
    ExclusiveOwnership(n, steps, Run(Init(n), steps).agents[t].id);
  }

  /** Every id that is queued or in an agent's hands has a record, unless its own insertion is under way. */
  lemma NoDanglingIds(n: nat, steps: seq<Step>, id: Id)
    requires Legal(Init(n), steps)
    ensures var st := Run(Init(n), steps);
            Stored(st, id) > 0 || Claimed(st.agents, id) ==> id in st.store.jobs || Inserting(st.producer, id)
  {
    InitOk(n);
    RunKeeps(Init(n), steps);
    var st := Run(Init(n), steps);
    assert IdOk(View(st, id), Claimed(st.agents, id));
  }

  lemma NotFoundHereIff(st: Sys, t: nat, x: Input)
    requires Inv(st) && t < |st.agents| && st.agents[t].Checking?
    ensures Call(st.store, st.agents[t], x).pc.Free? <==> Inserting(st.producer, st.agents[t].id)
  {
    var id := st.agents[t].id;
    assert IdOk(View(st, id), Claimed(st.agents, id));
    assert AgentOk(st.agents[t], View(st, id));
  }

  /** An activation fails with `JobNotFound` exactly when the producer has not recorded the job yet. */
  lemma JobNotFoundIff(n: nat, steps: seq<Step>, t: nat, x: Input)
    requires Legal(Init(n), steps)
    requires var st := Run(Init(n), steps);
             t < |st.agents| && st.agents[t].Checking?
    ensures var st := Run(Init(n), steps);
            Call(st.store, st.agents[t], x).pc.Free? <==> Inserting(st.producer, st.agents[t].id)
  {
    hide Inv, Apply;
    InitOk(n);
    RunKeeps(Init(n), steps);
    NotFoundHereIff(Run(Init(n), steps), t, x);
  }

  /** Past that check no later lookup of the run can fail. */
  lemma LaterLookupsSucceed(n: nat, steps: seq<Step>, t: nat, x: Input)
    requires Legal(Init(n), steps)
    requires var st := Run(Init(n), steps);
             && t < |st.agents|
             && (st.agents[t].Fetching? || st.agents[t].Deciding?
                 || (st.agents[t].Verifying? && st.agents[t].cause != MissedDeadline))
    ensures var st := Run(Init(n), steps);
            !Call(st.store, st.agents[t], x).pc.Free?
  {
    InitOk(n);
    RunKeeps(Init(n), steps);
    var st := Run(Init(n), steps);
    assert AgentOk(st.agents[t], View(st, st.agents[t].id));
  }

  /**
    * Bounded attempts: over any mix of success, failure, retry, repeat and missed
    * deadlines, the processor runs of a job plus its missed deadlines never exceed
    * max(1, attempts), and a job that is queued and in nobody's hands has an attempt left.
    */
  lemma BoundedAttempts(n: nat, steps: seq<Step>, id: Id)
    requires Legal(Init(n), steps)
    ensures var st := Run(Init(n), steps);
            && (id in st.accepted ==> Starts(st, id) <= Max(1, st.accepted[id].attempts))
            && (id !in st.accepted ==> Starts(st, id) == 0)
            && (id in st.store.jobs && Stored(st, id) > 0 && !Claimed(st.agents, id) ==>
                  st.store.jobs[id].attemptsMade < Cap(st.store.jobs[id].opts))
  {
    InitOk(n);
    RunKeeps(Init(n), steps);
    var st := Run(Init(n), steps);
    assert IdOk(View(st, id), Claimed(st.agents, id));
  }

  /** The attempts a recorded job has left. */
  function Remaining(s: Store, id: Id): int
    requires id in s.jobs
  {
    Cap(s.jobs[id].opts) - s.jobs[id].attemptsMade
  }

  lemma CountingSpends(st: Sys, t: nat, x: Input)
    requires Inv(st) && t < |st.agents| && st.agents[t].Counting?
    ensures var id := st.agents[t].id;
            var s' := Call(st.store, st.agents[t], x).store;
            && id in st.store.jobs && id in s'.jobs
            && 0 <= Remaining(s', id) == Remaining(st.store, id) - 1
  {
    assert AgentOk(st.agents[t], View(st, st.agents[t].id));
  }

  /** Every finish and every missed deadline spends one attempt, of which there was one left. */
  lemma FinishSpendsAttempt(n: nat, steps: seq<Step>, t: nat, x: Input)
    requires Legal(Init(n), steps)
    requires var st := Run(Init(n), steps);
             t < |st.agents| && st.agents[t].Counting?
    ensures var st := Run(Init(n), steps);
            var id := st.agents[t].id;
            var s' := Call(st.store, st.agents[t], x).store;
            && id in st.store.jobs && id in s'.jobs
            && 0 <= Remaining(s', id) == Remaining(st.store, id) - 1
  {
    hide Inv, Apply;
    InitOk(n);
    RunKeeps(Init(n), steps);
    CountingSpends(Run(Init(n), steps), t, x);
  }
}
