// The delay window: a poll at `now` releases what is due in the next 50 ms and
// fails what is overdue. What that means for one job over any schedule of polls.
module Deadlines {
  import opened Collections
  import opened Policy
  import opened Stores
  import opened Counts
  import T = Tags

  /** Other jobs are scored, and polls happen, in any order. */
  datatype Event = Put(score: nat, id: Id) | Poll(now: int)

  function PollAt(d: map<nat, Id>, now: int): Polled {
    GetDelayedAt(d, now, now + MIN_DELAY_MS)
  }

  function After(d: map<nat, Id>, e: Event): map<nat, Id> {
    match e
    case Put(score, id) => d[score := id]
    case Poll(now) => PollAt(d, now).delayed
  }

  /** How many polls hand `id` to the promotion timer. */
  ghost function Releases(d: map<nat, Id>, events: seq<Event>, id: Id): nat
    decreases |events|
  {
    if events == [] then 0 else
      (if events[0].Poll? then InList(PollAt(d, events[0].now).jobs, id) else 0)
      + Releases(After(d, events[0]), events[1..], id)
  }

  /** How many polls declare that `id` missed its deadline. */
  ghost function Misses(d: map<nat, Id>, events: seq<Event>, id: Id): nat
    decreases |events|
  {
    if events == [] then 0 else
      (if events[0].Poll? then InList(PollAt(d, events[0].now).missed, id) else 0)
      + Misses(After(d, events[0]), events[1..], id)
  }

  /** The clock starts after the epoch and does not run backwards. */
  ghost predicate Clock(t: int, events: seq<Event>)
    decreases |events|
  {
    events != [] ==>
      if events[0].Poll? then 1 <= events[0].now && t <= events[0].now && Clock(events[0].now, events[1..])
      else Clock(t, events[1..])
  }

  /** The clock, with no two polls more than 50 ms apart. */
  ghost predicate Timely(t: int, events: seq<Event>)
    decreases |events|
  {
    events != [] ==>
      if events[0].Poll? then
        1 <= events[0].now && t <= events[0].now <= t + MIN_DELAY_MS && Timely(events[0].now, events[1..])
      else Timely(t, events[1..])
  }

  /** Nothing else is scored at `k`, and the job is not scored again. */
  ghost predicate Apart(k: nat, id: Id, events: seq<Event>) {
    forall i :: 0 <= i < |events| && events[i].Put? ==> events[i].score != k && events[i].id != id
  }

  /** The first poll whose window reaches past `k`. */
  function FirstPast(k: nat, events: seq<Event>): Option<int>
    decreases |events|
  {
    if events == [] then None
    else if events[0].Poll? && k < events[0].now + MIN_DELAY_MS then Some(events[0].now)
    else FirstPast(k, events[1..])
  }

  /** Some poll comes two milliseconds after `k` or later. */
  predicate PolledLate(k: nat, events: seq<Event>)
    decreases |events|
  {
    events != [] && ((events[0].Poll? && k + 2 <= events[0].now) || PolledLate(k, events[1..]))
  }

  /** The job is in the delayed set, under the score `k` and no other. */
  ghost predicate Holds(d: map<nat, Id>, k: nat, id: Id) {
    KeysOf(d, id) == {k}
  }

  lemma PartOf(d: map<nat, Id>, part: map<nat, Id>, k: nat, id: Id)
    requires Holds(d, k, id)
    requires forall j :: j in part ==> j in d && part[j] == d[j]
    ensures InList(Values<Id>(part), id) == Bit(k in part)
  {
    InMapValues(part, id);
    assert k in KeysOf(d, id);
    forall j | j in KeysOf(part, id) ensures j == k {
      assert j in KeysOf(d, id);
    }
    assert KeysOf(part, id) == if k in part then {k} else {};
  }

  lemma StillHeld(d: map<nat, Id>, d': map<nat, Id>, k: nat, id: Id)
    requires Holds(d, k, id) && k in d'
    requires forall j :: j in d' ==> j in d && d'[j] == d[j]
    ensures Holds(d', k, id)
  {
    assert k in KeysOf(d, id);
    forall j | j in KeysOf(d', id) ensures j == k {
      assert j in KeysOf(d, id);
    }
  }

  /** A poll takes exactly what is due and what is overdue, and nothing else. */
  lemma PollParts(d: map<nat, Id>, now: int, k: nat)
    requires k in d && now >= 1
    ensures var due := DueBetween(d, now, now + MIN_DELAY_MS);
            var overdue := OverdueAt(d - due.Keys, now);
            && (k in due <==> now <= k < now + MIN_DELAY_MS)
            && (k in overdue <==> k < now - 1)
            && (k in PollAt(d, now).delayed <==> k !in due && k !in overdue)
  {
  }

  /** One poll, seen from one job. */
  lemma PollFate(d: map<nat, Id>, now: int, k: nat, id: Id)
    requires Holds(d, k, id) && now >= 1
    ensures var p := PollAt(d, now);
            var due, overdue := now <= k < now + MIN_DELAY_MS, k < now - 1;
            && InList(p.jobs, id) == Bit(due)
            && InList(p.missed, id) == Bit(overdue)
            && (if due || overdue then InMap(p.delayed, id) == 0 else Holds(p.delayed, k, id))
  {
    assert k in KeysOf(d, id);
    PollParts(d, now, k);
    DrainCount(d, now, now + MIN_DELAY_MS, id);
    PollFateParts(d, now, k, id);
  }

  lemma PollFateParts(d: map<nat, Id>, now: int, k: nat, id: Id)
    requires Holds(d, k, id) && k in d
    ensures var due := DueBetween(d, now, now + MIN_DELAY_MS);
            var overdue := OverdueAt(d - due.Keys, now);
            && InList(Values<Id>(due), id) == Bit(k in due)
            && InList(Values<Id>(overdue), id) == Bit(k in overdue)
            && (k in PollAt(d, now).delayed ==> Holds(PollAt(d, now).delayed, k, id))
  {
    hide Values, InList;
    var due := DueBetween(d, now, now + MIN_DELAY_MS);
    PartOf(d, due, k, id);
    PartOf(d, OverdueAt(d - due.Keys, now), k, id);
    if k in PollAt(d, now).delayed {
      StillHeld(d, PollAt(d, now).delayed, k, id);
    }
  }

  lemma PutKeeps(d: map<nat, Id>, e: Event, k: nat, id: Id)
    requires Holds(d, k, id) && e.Put? && e.score != k && e.id != id
    ensures Holds(After(d, e), k, id)
  {
    assert k in KeysOf(d, id);
    assert KeysOf(After(d, e), id) == KeysOf(d, id) - {e.score};
  }

  lemma {:induction false} GoneForGood(d: map<nat, Id>, events: seq<Event>, k: nat, id: Id)
    requires InMap(d, id) == 0 && Apart(k, id, events)
    ensures Releases(d, events, id) == 0 && Misses(d, events, id) == 0
    decreases |events|
  {
    hide GetDelayedAt;
    if events == [] {
    } else {
      var e := events[0];
      match e {
        case Put(score, v) => InMapStore(d, score, v, id);
        case Poll(now) => DrainCount(d, now, now + MIN_DELAY_MS, id);
      }
      GoneForGood(After(d, e), events[1..], k, id);
    }
  }

  /** Once its first window has passed it by, the job can only be missed. */
  lemma {:induction false} TooLate(d: map<nat, Id>, t: int, events: seq<Event>, k: nat, id: Id)
    requires Holds(d, k, id) && Apart(k, id, events) && Clock(t, events) && k < t
    ensures Releases(d, events, id) == 0
    ensures Misses(d, events, id) == Bit(PolledLate(k, events))
    decreases |events|
  {
    hide GetDelayedAt;
    if events == [] {
    } else {
      var e := events[0];
      if e.Put? {
        PutKeeps(d, e, k, id);
        TooLate(After(d, e), t, events[1..], k, id);
      } else {
        PollFate(d, e.now, k, id);
        if k + 2 <= e.now {
          GoneForGood(After(d, e), events[1..], k, id);
        } else {
          TooLate(After(d, e), e.now, events[1..], k, id);
        }
      }
    }
  }

  /**
    * The fate of a delayed job under any schedule of polls. It is released by
    * exactly one poll if the first window that reaches past its score opens no
    * later than the score, and by none otherwise; then it is declared missed by
    * the first poll that comes two milliseconds late. Exactly one millisecond
    * late, it is neither.
    */
  lemma {:induction false} FateIff(d: map<nat, Id>, t: int, events: seq<Event>, k: nat, id: Id)
    requires Holds(d, k, id) && Apart(k, id, events) && Clock(t, events)
    ensures var first := FirstPast(k, events);
            && Releases(d, events, id) == Bit(first.Some? && first.value <= k)
            && Misses(d, events, id) == Bit(first.Some? && first.value > k && PolledLate(k, events))
    decreases |events|
  {
    hide GetDelayedAt;
    if events == [] {
    } else {
      var e := events[0];
      if e.Put? {
        PutKeeps(d, e, k, id);
        FateIff(After(d, e), t, events[1..], k, id);
      } else {
        PollFate(d, e.now, k, id);
        if e.now <= k < e.now + MIN_DELAY_MS || k < e.now - 1 {
          GoneForGood(After(d, e), events[1..], k, id);
        } else if k < e.now {
          TooLate(After(d, e), e.now, events[1..], k, id);
        } else {
          FateIff(After(d, e), e.now, events[1..], k, id);
        }
      }
    }
  }

  lemma {:induction false} TimelyIsClock(t: int, events: seq<Event>)
    requires Timely(t, events)
    ensures Clock(t, events)
    decreases |events|
  {
    if events == [] {
    } else {
      TimelyIsClock(if events[0].Poll? then events[0].now else t, events[1..]);
    }
  }

  /** With polls at most 50 ms apart, the first window past `k` opens in time. */
  lemma {:induction false} TimelyReaches(t: int, events: seq<Event>, k: nat)
    requires Timely(t, events) && t + MIN_DELAY_MS <= k
    ensures FirstPast(k, events).Some? ==> FirstPast(k, events).value <= k
    decreases |events|
  {
    if events == [] {
    } else {
      if events[0].Put? {
        TimelyReaches(t, events[1..], k);
      } else if events[0].now + MIN_DELAY_MS <= k {
        TimelyReaches(events[0].now, events[1..], k);
      }
    }
  }

  /** An accepted delayed job is scored at least one window ahead. */
  lemma AcceptedIsHeld(s: Store, opts: JobOptions, flag: bool, now: nat)
    requires opts.delayMs > 0 && !TooShort(opts) && InMap(s.cols.delayed, s.lastId + 1) == 0
    ensures var (s', r) := AddJob(s, opts, flag, now);
            && r == Accepted(s.lastId + 1)
            && Holds(s'.cols.delayed, now + opts.delayMs, s.lastId + 1)
            && now + MIN_DELAY_MS <= now + opts.delayMs
  {
    var k: nat := now + opts.delayMs;
    InMapPositive(s.cols.delayed, s.lastId + 1);
    InMapStore(s.cols.delayed, k, s.lastId + 1, s.lastId + 1);
  }

  /**
    * No missed deadline: a job accepted with a positive delay, polled at most 50 ms
    * apart from its insertion on, is released by exactly one poll as soon as a
    * window reaches past its score, and is never declared missed.
    */
  lemma NoMissedDeadline(s: Store, opts: JobOptions, flag: bool, now: nat, events: seq<Event>)
    requires opts.delayMs > 0 && !TooShort(opts) && InMap(s.cols.delayed, s.lastId + 1) == 0
    requires Timely(now, events) && Apart(now + opts.delayMs, s.lastId + 1, events)
    ensures var d := AddJob(s, opts, flag, now).0.cols.delayed;
            && Releases(d, events, s.lastId + 1) == Bit(FirstPast(now + opts.delayMs, events).Some?)
            && Misses(d, events, s.lastId + 1) == 0
  {
    hide AddJob;
    var d := AddJob(s, opts, flag, now).0.cols.delayed;
    AcceptedIsHeld(s, opts, flag, now);
    TimelyIsClock(now, events);
    TimelyReaches(now, events, now + opts.delayMs);
    FateIff(d, now, events, now + opts.delayMs, s.lastId + 1);
  }

  // ---- The promotion timer ----

  /** A promotion timer for `id`, due at `at`; no other kind of timer moves a job. */
  datatype Timer = Timer(id: Id, at: int)

  /** A promotion timer requested at `now`. */
  function Request(id: Id, now: int): Timer {
    Timer(id, now + MIN_DELAY_MS)
  }

  /** The timers one poll requests: one for every job it releases. */
  function Requests(jobs: seq<Id>, now: int): seq<Timer> {
    if jobs == [] then [] else [Request(jobs[0], now)] + Requests(jobs[1..], now)
  }

  function Scheduled(d: map<nat, Id>, events: seq<Event>): seq<Timer>
    decreases |events|
  {
    if events == [] then [] else
      (if events[0].Poll? then Requests(PollAt(d, events[0].now).jobs, events[0].now) else [])
      + Scheduled(After(d, events[0]), events[1..])
  }

  /** The timers an ideal clock has fired by `now`. */
  function Fired(timers: seq<Timer>, now: int): seq<Timer> {
    if timers == [] then [] else (if timers[0].at <= now then [timers[0]] else []) + Fired(timers[1..], now)
  }

  /** What `process_timer` does to the collections. */
  function Process(c: Cols, timer: Timer): Cols {
    Added(c, T.Wait, timer.id, None, true)
  }

  function ProcessAll(c: Cols, timers: seq<Timer>): Cols
    decreases |timers|
  {
    if timers == [] then c else ProcessAll(Process(c, timers[0]), timers[1..])
  }

  /** The wait list at `now`, from the collections `c` on: everything whose timer has fired. */
  function WaitListAt(c: Cols, events: seq<Event>, now: int): seq<Id> {
    ProcessAll(c, Fired(Scheduled(c.delayed, events), now)).waiting
  }

  /** How many of the timers promote `id`. */
  ghost function Promotions(timers: seq<Timer>, id: Id): nat {
    if timers == [] then 0 else Bit(timers[0].id == id) + Promotions(timers[1..], id)
  }

  lemma {:induction false} ProcessedCount(c: Cols, timers: seq<Timer>, id: Id)
    ensures InList(ProcessAll(c, timers).waiting, id) == InList(c.waiting, id) + Promotions(timers, id)
    decreases |timers|
  {
    if timers == [] {
    } else {
      ProcessedCount(Process(c, timers[0]), timers[1..], id);
    }
  }

  lemma {:induction false} FiredJoin(s: seq<Timer>, t: seq<Timer>, now: int)
    ensures Fired(s + t, now) == Fired(s, now) + Fired(t, now)
  {
    if s == [] {
      assert s + t == t;
    } else {
      assert (s + t)[1..] == s[1..] + t;
      FiredJoin(s[1..], t, now);
      var head := if s[0].at <= now then [s[0]] else [];
      assert head + (Fired(s[1..], now) + Fired(t, now)) == head + Fired(s[1..], now) + Fired(t, now);
    }
  }

  lemma {:induction false} PromotionsJoin(s: seq<Timer>, t: seq<Timer>, id: Id)
    ensures Promotions(s + t, id) == Promotions(s, id) + Promotions(t, id)
  {
    if s == [] {
      assert s + t == t;
    } else {
      assert (s + t)[1..] == s[1..] + t;
      PromotionsJoin(s[1..], t, id);
    }
  }

  /** The timers of one poll all fire one window after it. */
  lemma {:induction false} RequestsFire(jobs: seq<Id>, at: int, now: int, id: Id)
    ensures Promotions(Fired(Requests(jobs, at), now), id) == if at + MIN_DELAY_MS <= now then InList(jobs, id) else 0
  {
    if jobs == [] {
    } else {
      var r, rest := Request(jobs[0], at), Requests(jobs[1..], at);
      assert jobs == [jobs[0]] + jobs[1..];
      assert Requests(jobs, at) == [r] + rest;
      FiredJoin([r], rest, now);
      PromotionsJoin(Fired([r], now), Fired(rest, now), id);
      RequestsFire(jobs[1..], at, now, id);
    }
  }

  /** Promotions of `id` fired by `now`, one poll at a time. */
  ghost function Entries(d: map<nat, Id>, events: seq<Event>, now: int, id: Id): nat {
    Promotions(Fired(Scheduled(d, events), now), id)
  }

  lemma EntriesStep(d: map<nat, Id>, events: seq<Event>, now: int, id: Id)
    requires events != []
    ensures var e := events[0];
            var first := if e.Poll? && e.now + MIN_DELAY_MS <= now then InList(PollAt(d, e.now).jobs, id) else 0;
            Entries(d, events, now, id) == first + Entries(After(d, e), events[1..], now, id)
  {
    hide GetDelayedAt;
    var e := events[0];
    var rest := Scheduled(After(d, e), events[1..]);
    if e.Poll? {
      var timers := Requests(PollAt(d, e.now).jobs, e.now);
      FiredJoin(timers, rest, now);
      PromotionsJoin(Fired(timers, now), Fired(rest, now), id);
      RequestsFire(PollAt(d, e.now).jobs, e.now, now, id);
    } else {
      assert [] + rest == rest;
    }
  }

  lemma {:induction false} NoEntries(d: map<nat, Id>, events: seq<Event>, now: int, id: Id)
    requires Releases(d, events, id) == 0
    ensures Entries(d, events, now, id) == 0
    decreases |events|
  {
    hide GetDelayedAt;
    if events == [] {
    } else {
      EntriesStep(d, events, now, id);
      NoEntries(After(d, events[0]), events[1..], now, id);
    }
  }

  /** Under any schedule of polls, the entry follows the releasing poll by one window. */
  lemma {:induction false} EntriesIff(d: map<nat, Id>, t: int, events: seq<Event>, k: nat, id: Id, now: int)
    requires Holds(d, k, id) && Apart(k, id, events) && Clock(t, events)
    ensures var first := FirstPast(k, events);
            Entries(d, events, now, id) == Bit(first.Some? && first.value <= k && first.value + MIN_DELAY_MS <= now)
    decreases |events|
  {
    hide GetDelayedAt, Entries;
    if events == [] {
      NoEntries(d, events, now, id);
    } else {
      var e := events[0];
      EntriesStep(d, events, now, id);
      if e.Put? {
        PutKeeps(d, e, k, id);
        EntriesIff(After(d, e), t, events[1..], k, id, now);
      } else {
        PollFate(d, e.now, k, id);
        if e.now + MIN_DELAY_MS <= k {
          EntriesIff(After(d, e), e.now, events[1..], k, id, now);
        } else {
          if e.now <= k || k < e.now - 1 {
            GoneForGood(After(d, e), events[1..], k, id);
          } else {
            TooLate(After(d, e), e.now, events[1..], k, id);
          }
          NoEntries(After(d, e), events[1..], now, id);
        }
      }
    }
  }

  /**
    * The delayed job in the wait list: with polls at most 50 ms apart and an ideal
    * timer it is not there up to its scheduled millisecond, and it is there, once,
    * from 50 ms after that on, as soon as a poll has reached past its score.
    */
  lemma ReleaseTime(c: Cols, t: int, events: seq<Event>, k: nat, id: Id, now: int)
    requires Holds(c.delayed, k, id) && Apart(k, id, events) && InList(c.waiting, id) == 0
    requires Timely(t, events) && t + MIN_DELAY_MS <= k
    ensures var entered := InList(WaitListAt(c, events, now), id);
            && entered <= 1
            && (now <= k ==> entered == 0)
            && (now >= k + MIN_DELAY_MS && FirstPast(k, events).Some? ==> entered == 1)
  {
    hide Scheduled, Fired, ProcessAll;
    TimelyIsClock(t, events);
    TimelyReaches(t, events, k);
    WindowReaches(events, k);
    EntriesIff(c.delayed, t, events, k, id, now);
    ProcessedCount(c, Fired(Scheduled(c.delayed, events), now), id);
  }

  lemma {:induction false} WindowReaches(events: seq<Event>, k: nat)
    ensures FirstPast(k, events).Some? ==> k < FirstPast(k, events).value + MIN_DELAY_MS
    decreases |events|
  {
    if events == [] {
    } else {
      WindowReaches(events[1..], k);
    }
  }

  /** The delayed set once all of `events` have happened. */
  function AfterAll(d: map<nat, Id>, events: seq<Event>): map<nat, Id>
    decreases |events|
  {
    if events == [] then d else AfterAll(After(d, events[0]), events[1..])
  }

  /** The poll that hands the job over, and the window in which its timer fires. */
  lemma {:induction false} ReleasingPoll(d: map<nat, Id>, t: int, events: seq<Event>, k: nat, id: Id) returns (i: nat)
    requires Holds(d, k, id) && Apart(k, id, events) && Timely(t, events) && t + MIN_DELAY_MS <= k
    requires FirstPast(k, events).Some?
    ensures i < |events| && events[i].Poll?
    ensures id in PollAt(AfterAll(d, events[..i]), events[i].now).jobs
    ensures k < Request(id, events[i].now).at <= k + MIN_DELAY_MS
    decreases |events|
  {
    hide GetDelayedAt;
    var e := events[0];
    if e.Poll? {
      PollFate(d, e.now, k, id);
    } else {
      PutKeeps(d, e, k, id);
    }
    if e.Poll? && k < e.now + MIN_DELAY_MS {
      i := 0;
    } else {
      var j := ReleasingPoll(After(d, e), if e.Poll? then e.now else t, events[1..], k, id);
      i := j + 1;
      assert events[..i][1..] == events[1..][..j];
    }
  }

  /** Polls 51 ms apart can step over a job: in neither window at first, and missed by the next poll. */
  lemma GapOf51Misses(k: nat, id: Id)
    requires k > MIN_DELAY_MS
    ensures var events := [Poll(k - 50), Poll(k + 1), Poll(k + 51)];
            && Releases(map[k := id], events, id) == 0
            && Releases(map[k := id], events[..2], id) == 0 && Misses(map[k := id], events[..2], id) == 0
            && Misses(map[k := id], events, id) == 1
  {
    hide Releases, Misses;
    var d: map<nat, Id> := map[k := id];
    var events := [Poll(k - 50), Poll(k + 1), Poll(k + 51)];
    assert KeysOf(d, id) == {k};
    assert events[1..] == [Poll(k + 1), Poll(k + 51)] && events[1..][1..] == [Poll(k + 51)];
    assert events[..2] == [Poll(k - 50), Poll(k + 1)] && events[..2][1..] == [Poll(k + 1)];
    assert Clock(k + 1, [Poll(k + 51)]) && Clock(k - 50, events[1..]) && Clock(k - 50, events[..2][1..]);
    assert FirstPast(k, events[1..]) == Some(k + 1) && FirstPast(k, events[..2][1..]) == Some(k + 1);
    assert PolledLate(k, [Poll(k + 51)]) && PolledLate(k, events[1..]) && !PolledLate(k, events[..2][1..]);
    FateIff(d, 1, events, k, id);
    FateIff(d, 1, events[..2], k, id);
  }

  /** A 49 ms delay would be too short for the window: a timely poll can come one millisecond late. */
  lemma ShorterDelayMisses(t: nat, id: Id)
    ensures var events := [Poll(t + 50), Poll(t + 100)];
            && Timely(t, events)
            && Releases(map[t + 49 := id], events, id) == 0
            && Misses(map[t + 49 := id], events, id) == 1
  {
    hide Releases, Misses;
    var k: nat := t + 49;
    var d: map<nat, Id> := map[k := id];
    var events := [Poll(t + 50), Poll(t + 100)];
    assert KeysOf(d, id) == {k};
    assert events[1..] == [Poll(t + 100)];
    assert Clock(t + 50, events[1..]) && Timely(t + 50, events[1..]);
    FateIff(d, 1, events, k, id);
  }
}
