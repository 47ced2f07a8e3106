// The in-memory store (src/stores/inmemory_store.rs): the store calls as
// functions of the store's contents, and the class that performs them in place.
module Stores {
  import opened Collections
  import opened Policy
  import opened TimedMaps
  import opened Words
  import D = Deque
  import S = Scores
  import T = Tags

  type Id = nat
  type JobToken = int

  const MIN_DELAY_MS: nat := 50

  datatype LockValue = Token(token: JobToken) | StallCheck

  /** A job record. `arrival` is history: the priority counter the job was scored with. */
  datatype Job = Job(
    state: JobState,
    attemptsMade: nat,
    opts: JobOptions,
    token: Option<JobToken>,
    arrival: nat)

  /** The collections of ids. Lists run from front to back; scored sets map a score to an id. */
  datatype Cols = Cols(
    waiting: seq<Id>,
    paused: seq<Id>,
    active: seq<Id>,
    prioritized: map<nat, Id>,
    delayed: map<nat, Id>,
    completed: map<nat, Id>,
    failed: map<nat, Id>)

  /** The whole store. Records are keyed by id, locks by collection tag. */
  datatype Store = Store(
    lastId: nat,
    priorityCounter: nat,
    isPaused: bool,
    cols: Cols,
    jobs: map<Id, Job>,
    locks: Timed<nat, LockValue>)

  const NO_COLS := Cols([], [], [], map[], map[], map[], map[])

  function Empty(): Store {
    Store(0, 0, false, NO_COLS, map[], Timed(map[], false))
  }

  /** `i64::cast_unsigned`. */
  function Unsigned(x: int): nat {
    if x < 0 then x % TWO64 else x
  }

  function SuffixOf(state: JobState): T.Suffix {
    match state
    case Wait => T.Wait
    case Stalled => T.Paused
    case Paused => T.Paused
    case Active => T.Active
    case Resumed => T.Active
    case Completed => T.Completed
    case Failed => T.Failed
    case Delayed => T.Delayed
    case Progress => T.Prefix
    case Prioritized => T.Prioritized
    case Processing => T.Meta
    case Obliterated => T.Events
  }

  function Push(list: seq<Id>, item: Id, append: bool): seq<Id> {
    if append then [item] + list else list + [item]
  }

  function Added(c: Cols, col: T.Suffix, item: Id, score: Option<int>, append: bool): Cols {
    match col
    case Active => c.(active := Push(c.active, item, append))
    case Wait => c.(waiting := Push(c.waiting, item, append))
    case Paused => c.(paused := Push(c.paused, item, append))
    case Completed => if score.None? then c else c.(completed := c.completed[Unsigned(score.value) := item])
    case Failed => if score.None? then c else c.(failed := c.failed[Unsigned(score.value) := item])
    case Prioritized => if score.None? then c else c.(prioritized := c.prioritized[Unsigned(score.value) := item])
    case Delayed => if score.None? then c else c.(delayed := c.delayed[Unsigned(score.value) := item])
    case _ => c
  }

  function AddItem(s: Store, col: T.Suffix, item: Id, score: Option<int>, append: bool): Store {
    s.(cols := Added(s.cols, col, item, score, append))
  }

  /** Removal from a scored set tries the id as a score first. */
  function RemoveScored(m: map<nat, Id>, item: Id): map<nat, Id> {
    if item in m then m - {item} else Dropping<nat, Id>(m, item)
  }

  function Removed(c: Cols, col: T.Suffix, item: Id): Cols {
    match col
    case Active => c.(active := Without<Id>(c.active, item))
    case Wait => c.(waiting := Without<Id>(c.waiting, item))
    case Paused => c.(paused := Without<Id>(c.paused, item))
    case Completed => c.(completed := RemoveScored(c.completed, item))
    case Failed => c.(failed := RemoveScored(c.failed, item))
    case Prioritized => c.(prioritized := RemoveScored(c.prioritized, item))
    case Delayed => c.(delayed := RemoveScored(c.delayed, item))
    case _ => c
  }

  function RemoveItem(s: Store, col: T.Suffix, item: Id): Store {
    s.(cols := Removed(s.cols, col, item))
  }

  function RemoveRecord(s: Store, id: Id): Store {
    s.(jobs := s.jobs - {id})
  }

  predicate ExistsIn(c: Cols, col: T.Suffix, item: Id) {
    match col
    case Active => item in c.active
    case Wait => item in c.waiting
    case Paused => item in c.paused
    case Completed => item in c.completed.Values
    case Failed => item in c.failed.Values
    case Prioritized => item in c.prioritized.Values
    case Delayed => item in c.delayed.Values
    case _ => false
  }

  function PopBackPushFront(c: Cols): (Cols, Option<Id>) {
    if c.waiting == [] then (c, None) else
      var id := c.waiting[|c.waiting| - 1];
      (c.(waiting := c.waiting[..|c.waiting| - 1], active := [id] + c.active), Some(id))
  }

  /** `pop_set(Prioritized, true)`: take the entry with the least score. */
  function PopPrioritized(c: Cols): (Cols, Option<Id>) {
    if |c.prioritized.Keys| == 0 then (c, None) else
      var k: nat := Least(c.prioritized.Keys);
      (c.(prioritized := c.prioritized - {k}), Some(c.prioritized[k]))
  }

  /** The entries a poll of `start .. stop` releases. */
  function DueBetween(delayed: map<nat, Id>, start: int, stop: int): map<nat, Id> {
    map k | k in delayed && Unsigned(start) <= k < Unsigned(stop) :: delayed[k]
  }

  /** The entries a poll at `start` finds overdue. */
  function OverdueAt(delayed: map<nat, Id>, start: int): map<nat, Id> {
    map k | k in delayed && k < Unsigned(start - 1) :: delayed[k]
  }

  datatype Polled = Polled(delayed: map<nat, Id>, jobs: seq<Id>, missed: seq<Id>)

  function GetDelayedAt(delayed: map<nat, Id>, start: int, stop: int): Polled {
    var jobs := DueBetween(delayed, start, stop);
    var rest := delayed - jobs.Keys;
    var missed := OverdueAt(rest, start);
    Polled(rest - missed.Keys, Values<Id>(jobs), Values<Id>(missed))
  }

  function Shifted(c: Cols, pause: bool): Cols {
    if pause
    then c.(paused := c.paused + c.waiting, waiting := [])
    else c.(waiting := c.waiting + c.paused, paused := [])
  }

  function PauseStore(s: Store, pause: bool): Store {
    s.(cols := Shifted(s.cols, pause), isPaused := pause)
  }

  /** `incr(Job(id), 1, "attemptsMade")` */
  function IncrAttempts(s: Store, id: Id): Store {
    if id in s.jobs then s.(jobs := s.jobs[id := s.jobs[id].(attemptsMade := s.jobs[id].attemptsMade + 1)]) else s
  }

  /** `set_fields` with a new state. */
  function SetState(s: Store, id: Id, state: JobState): Store {
    if id in s.jobs then s.(jobs := s.jobs[id := s.jobs[id].(state := state)]) else s
  }

  function SetToken(s: Store, id: Id, token: JobToken): Store {
    if id in s.jobs then s.(jobs := s.jobs[id := s.jobs[id].(token := Some(token))]) else s
  }

  function GetState(s: Store, id: Id): JobState {
    if id in s.jobs then s.jobs[id].state else JobState.Wait
  }

  function SetLock(s: Store, id: Id, token: JobToken, duration: nat, now: int): Store {
    s.(locks := LazyStep(s.locks, now, InsertExpirable(T.Tag(T.Lock(id)), Token(token), duration)).0)
  }

  /** The token of the lock on `id` a caller can see at `now`. */
  function VisibleToken(s: Store, id: Id, now: int): Option<JobToken> {
    var out := LazyStep(s.locks, now, Get(T.Tag(T.Lock(id)))).1;
    if out.Found? && out.found.Some? && out.found.value.Token? then Some(out.found.value.token) else None
  }

  function GetToken(s: Store, id: Id, now: int): (Store, Option<JobToken>) {
    (s.(locks := LazyStep(s.locks, now, Get(T.Tag(T.Lock(id)))).0), VisibleToken(s, id, now))
  }

  datatype Inserted = Accepted(id: Id) | DelayBelowLimit(current: int)

  /** Where a new job goes: the body of `insert` up to the record. */
  function Place(c: Cols, opts: JobOptions, pc: nat, id: Id, flag: bool, now: int): Cols {
    if Unsigned(opts.delayMs) > 0 then
      if opts.delayMs <= 0 then c
      else Added(c, T.Delayed, id, Some(now + opts.delayMs), false)
    else if opts.priority > 0 then Added(c, T.Prioritized, id, Some(S.Score(opts.priority, pc)), true)
    else Added(c, if flag then T.Paused else T.Wait, id, None, true)
  }

  function NewJob(opts: JobOptions, pc: nat): Job {
    var state :=
      if Unsigned(opts.delayMs) > 0 then (if opts.delayMs > 0 then JobState.Delayed else JobState.Wait)
      else if opts.priority > 0 then JobState.Prioritized
      else JobState.Wait;
    Job(state, 0, opts, None, pc)
  }

  predicate TooShort(opts: JobOptions) {
    0 < Unsigned(opts.delayMs) < MIN_DELAY_MS
  }

  function Insert(s: Store, opts: JobOptions, pc: nat, id: Id, flag: bool, now: int): (Store, Inserted) {
    if TooShort(opts) then (s, DelayBelowLimit(Unsigned(opts.delayMs)))
    else
      (s.(cols := Place(s.cols, opts, pc, id, flag, now), jobs := s.jobs[id := NewJob(opts, pc)]), Accepted(id))
  }

  /** One round of `add_bulk`: counters first, then `insert`. */
  function AddJob(s: Store, opts: JobOptions, flag: bool, now: int): (Store, Inserted) {
    var pc := if opts.priority > 0 then s.priorityCounter + 1 else 0;
    var s1 := if opts.priority > 0 then s.(priorityCounter := pc) else s;
    var s2 := s1.(lastId := s1.lastId + 1);
    Insert(s2, opts, pc, s2.lastId, flag, now)
  }

  /** The three lists are deques, the locks a map with deadlines; `View` is what they hold. */
  class InMemoryStore {
    var lastId: nat
    var priorityCounter: nat
    var isPaused: bool
    const waiting: D.ConcurrentDeque<Id>
    const paused: D.ConcurrentDeque<Id>
    const active: D.ConcurrentDeque<Id>
    var prioritized: map<nat, Id>
    var delayed: map<nat, Id>
    var completed: map<nat, Id>
    var failed: map<nat, Id>
    var jobs: map<Id, Job>
    const locks: TimedMap<nat, LockValue>

    ghost function Repr(): set<object> {
      {this, waiting, paused, active, locks}
    }

    ghost predicate Valid()
      reads Repr()
    {
      && waiting != paused && waiting != active && paused != active
      && waiting.Valid() && paused.Valid() && active.Valid()
    }

    ghost function Collections(): Cols
      reads Repr()
    {
      Cols(waiting.Contents(), paused.Contents(), active.Contents(), prioritized, delayed, completed, failed)
    }

    ghost function View(): Store
      reads Repr()
    {
      Store(lastId, priorityCounter, isPaused, Collections(), jobs, locks.View())
    }

    constructor ()
      ensures Valid() && fresh(Repr()) && View() == Empty()
    {
      lastId, priorityCounter, isPaused := 0, 0, false;
      waiting := new D.ConcurrentDeque<Id>();
      paused := new D.ConcurrentDeque<Id>();
      active := new D.ConcurrentDeque<Id>();
      prioritized, delayed, completed, failed := map[], map[], map[], map[];
      jobs := map[];
      locks := new TimedMap<nat, LockValue>();
    }

    /** Push onto one end of a deque, keeping every other part of the store. */
    static method PushOnto(list: D.ConcurrentDeque<Id>, item: Id, append: bool)
      requires list.Valid()
      modifies list
      ensures list.Valid() && list.Contents() == Push(old(list.Contents()), item, append)
    {
      if append {
        list.PushFront(item);
      } else {
        list.PushBack(item);
      }
    }

    /** Store the id under its score. */
    method AddScored(col: T.Suffix, item: Id, score: int, append: bool)
      requires Valid() && col in {T.Completed, T.Failed, T.Prioritized, T.Delayed}
      modifies Repr()
      ensures Valid() && View() == AddItem(old(View()), col, item, Some(score), append)
    {
      hide Values, Unsigned;
      match col {
        case Completed => completed := completed[Unsigned(score) := item];
        case Failed => failed := failed[Unsigned(score) := item];
        case Prioritized => prioritized := prioritized[Unsigned(score) := item];
        case Delayed => delayed := delayed[Unsigned(score) := item];
      }
    }

    method AddListed(col: T.Suffix, item: Id, score: Option<int>, append: bool)
      requires Valid() && col in {T.Active, T.Wait, T.Paused}
      modifies Repr()
      ensures Valid() && View() == AddItem(old(View()), col, item, score, append)
    {
      hide Push, Values;
      match col {
        case Active => PushOnto(active, item, append);
        case Wait => PushOnto(waiting, item, append);
        case Paused => PushOnto(paused, item, append);
      }
    }

    method AddTo(col: T.Suffix, item: Id, score: Option<int>, append: bool)
      requires Valid()
      modifies Repr()
      ensures Valid() && View() == AddItem(old(View()), col, item, score, append)
    {
      hide View, Valid;
      if col in {T.Active, T.Wait, T.Paused} {
        AddListed(col, item, score, append);
      } else if score.Some? && col in {T.Completed, T.Failed, T.Prioritized, T.Delayed} {
        AddScored(col, item, score.value, append);
      }
    }

    /** Unlink the entry with that score, or else every entry that holds `item`. */
    static method FilterScored(m: map<nat, Id>, item: Id) returns (r: map<nat, Id>)
      ensures r == RemoveScored(m, item)
    {
      if item in m {
        return m - {item};
      }
      r := UnlinkValue<nat, Id>(m, item);
    }

    method RemoveListed(col: T.Suffix, item: Id)
      requires Valid() && col in {T.Active, T.Wait, T.Paused}
      modifies Repr()
      ensures Valid() && View() == RemoveItem(old(View()), col, item)
    {
      hide Without, Values;
      match col {
        case Active => active.RemoveValue(item);
        case Wait => waiting.RemoveValue(item);
        case Paused => paused.RemoveValue(item);
      }
    }

    method RemoveEntry(col: T.Suffix, item: Id)
      requires Valid() && col in {T.Completed, T.Failed, T.Prioritized, T.Delayed}
      modifies Repr()
      ensures Valid() && View() == RemoveItem(old(View()), col, item)
    {
      hide RemoveScored, Values;
      match col {
        case Completed => completed := FilterScored(completed, item);
        case Failed => failed := FilterScored(failed, item);
        case Prioritized => prioritized := FilterScored(prioritized, item);
        case Delayed => delayed := FilterScored(delayed, item);
      }
    }

    method RemoveFrom(col: T.Suffix, item: Id)
      requires Valid()
      modifies Repr()
      ensures Valid() && View() == RemoveItem(old(View()), col, item)
    {
      hide View, Valid;
      if col in {T.Active, T.Wait, T.Paused} {
        RemoveListed(col, item);
      } else if col in {T.Completed, T.Failed, T.Prioritized, T.Delayed} {
        RemoveEntry(col, item);
      }
    }

    method DeleteRecord(id: Id)
      modifies this`jobs
      ensures View() == RemoveRecord(old(View()), id)
    {
      jobs := jobs - {id};
    }

    method PopBackPush() returns (id: Option<Id>)
      requires Valid()
      modifies Repr()
      ensures Valid() && (Collections(), id) == PopBackPushFront(old(Collections()))
      ensures View() == old(View()).(cols := Collections())
    {
      id := waiting.PopBack();
      if id.Some? {
        active.PushFront(id.value);
      }
    }

    /** `pop_front` of the skip map. */
    method PopMin() returns (id: Option<Id>)
      modifies this`prioritized
      ensures (Collections(), id) == PopPrioritized(old(Collections()))
      ensures View() == old(View()).(cols := Collections())
    {
      AscendEnumerates(prioritized.Keys);
      var keys := Ascend(prioritized.Keys);
      if |keys| == 0 {
        return None;
      }
      var k: nat := keys[0];
      id := Some(prioritized[k]);
      prioritized := prioritized - {k};
    }

    /** Drain the entries of `range` in key order, unlinking each from the delayed set. */
    method Drain(range: map<nat, Id>) returns (ids: seq<Id>)
      modifies this`delayed
      ensures delayed == old(delayed) - range.Keys
      ensures ids == Values<Id>(range)
    {
      AscendEnumerates(range.Keys);
      var keys := Ascend(range.Keys);
      ghost var done: set<nat> := {};
      ids := [];
      for i := 0 to |keys|
        invariant ids == Values<Id>(range)[..i]
        invariant delayed.Keys == old(delayed).Keys - done
        invariant forall k :: k in delayed ==> delayed[k] == old(delayed)[k]
        invariant done <= range.Keys
        invariant forall j :: 0 <= j < i ==> keys[j] in done
      {
        var k: nat := keys[i];
        ids := ids + [range[k]];
        delayed := delayed - {k};
        done := done + {k};
      }
      assert done == range.Keys;
    }

    method Poll(start: int, stop: int) returns (jobIds: seq<Id>, missedIds: seq<Id>)
      modifies this`delayed
      ensures Polled(delayed, jobIds, missedIds) == GetDelayedAt(old(delayed), start, stop)
    {
      var due := DueBetween(delayed, start, stop);
      jobIds := Drain(due);
      var overdue := OverdueAt(delayed, start);
      missedIds := Drain(overdue);
    }

    /** Move the values one by one: pop the front of one deque, push it to the back of the other. */
    static method Shift(from: D.ConcurrentDeque<Id>, to: D.ConcurrentDeque<Id>)
      requires from != to && from.Valid() && to.Valid()
      modifies from, to
      ensures from.Valid() && to.Valid()
      ensures from.Contents() == [] && to.Contents() == old(to.Contents()) + old(from.Contents())
    {
      hide Values;
      ghost var all := to.Contents() + from.Contents();
      var entry := from.PopFront();
      while entry.Some?
        invariant from.Valid() && to.Valid()
        invariant entry.Some? ==> to.Contents() + ([entry.value] + from.Contents()) == all
        invariant entry.None? ==> from.Contents() == [] && to.Contents() == all
        decreases entry.Some?, |from.Contents()|
      {
        ghost var done, rest := to.Contents(), from.Contents();
        to.PushBack(entry.value);
        assert done + [entry.value] + rest == done + ([entry.value] + rest);
        entry := from.PopFront();
      }
    }

    method Pause(pause: bool)
      requires Valid()
      modifies Repr()
      ensures Valid() && View() == PauseStore(old(View()), pause)
    {
      if pause {
        Shift(waiting, paused);
      } else {
        Shift(paused, waiting);
      }
      isPaused := pause;
    }

    /** Does some entry of the skip map hold `item`? */
    static method AnyEntry(m: map<nat, Id>, item: Id) returns (b: bool)
      ensures b <==> item in m.Values
    {
      var rest := m.Keys;
      while rest != {}
        invariant forall k :: k in m && m[k] == item ==> k in rest
        decreases rest
      {
        var k :| k in rest;
        if m[k] == item {
          return true;
        }
        rest := rest - {k};
      }
      return false;
    }

    method Exists(col: T.Suffix, item: Id) returns (b: bool)
      ensures b == ExistsIn(View().cols, col, item)
    {
      match col {
        case Active => b := active.ContainsValue(item);
        case Wait => b := waiting.ContainsValue(item);
        case Paused => b := paused.ContainsValue(item);
        case Completed => b := AnyEntry(completed, item);
        case Failed => b := AnyEntry(failed, item);
        case Prioritized => b := AnyEntry(prioritized, item);
        case Delayed => b := AnyEntry(delayed, item);
        case _ => b := false;
      }
    }

    method JobExists(id: Id) returns (b: bool)
      ensures b <==> id in View().jobs
    {
      b := id in jobs;
    }

    method GetJob(id: Id) returns (job: Option<Job>)
      ensures job == Lookup(View().jobs, id)
    {
      job := Lookup(jobs, id);
    }

    method StateOf(id: Id) returns (state: JobState)
      ensures state == GetState(View(), id)
    {
      state := if id in jobs then jobs[id].state else JobState.Wait;
    }

    method CountAttempt(id: Id)
      modifies this`jobs
      ensures View() == IncrAttempts(old(View()), id)
    {
      if id in jobs {
        jobs := jobs[id := jobs[id].(attemptsMade := jobs[id].attemptsMade + 1)];
      }
    }

    method WriteState(id: Id, state: JobState)
      modifies this`jobs
      ensures View() == SetState(old(View()), id, state)
    {
      if id in jobs {
        jobs := jobs[id := jobs[id].(state := state)];
      }
    }

    method WriteToken(id: Id, token: JobToken)
      modifies this`jobs
      ensures View() == SetToken(old(View()), id, token)
    {
      if id in jobs {
        jobs := jobs[id := jobs[id].(token := Some(token))];
      }
    }

    method WriteLock(id: Id, token: JobToken, duration: nat, now: int)
      modifies locks
      ensures View() == SetLock(old(View()), id, token, duration, now)
    {
      locks.InsertExpirable(T.Tag(T.Lock(id)), Token(token), duration, now);
    }

    method ReadToken(id: Id, now: int) returns (token: Option<JobToken>)
      modifies locks
      ensures (View(), token) == GetToken(old(View()), id, now)
    {
      var found := locks.Get(T.Tag(T.Lock(id)), now);
      if found.Some? && found.value.Token? {
        return Some(found.value.token);
      }
      return None;
    }

    /** The part of `insert` that lists the job and settles its first state. */
    method ListJob(opts: JobOptions, pc: nat, id: Id, flag: bool, now: int) returns (state: JobState)
      requires Valid()
      modifies Repr()
      ensures Valid() && View() == old(View()).(cols := Place(old(Collections()), opts, pc, id, flag, now))
      ensures state == NewJob(opts, pc).state
    {
      hide Added, S.Score;
      state := JobState.Wait;
      if Unsigned(opts.delayMs) > 0 {
        if opts.delayMs > 0 {
          AddTo(T.Delayed, id, Some(now + opts.delayMs), false);
          state := JobState.Delayed;
        }
      } else if opts.priority > 0 {
        state := JobState.Prioritized;
        AddTo(T.Prioritized, id, Some(S.Score(opts.priority, pc)), true);
      } else {
        AddTo(if flag then T.Paused else T.Wait, id, None, true);
      }
    }

    method Add(opts: JobOptions, flag: bool, now: int) returns (r: Inserted)
      requires Valid()
      modifies Repr()
      ensures Valid() && (View(), r) == AddJob(old(View()), opts, flag, now)
    {
      hide Place;
      var pc := 0;
      if opts.priority > 0 {
        priorityCounter := priorityCounter + 1;
        pc := priorityCounter;
      }
      lastId := lastId + 1;
      var id := lastId;
      var delay := Unsigned(opts.delayMs);
      if 0 < delay < MIN_DELAY_MS {
        return DelayBelowLimit(delay);
      }
      var state := ListJob(opts, pc, id, flag, now);
      jobs := jobs[id := Job(state, 0, opts, None, pc)];
      return Accepted(id);
    }
  }
}
