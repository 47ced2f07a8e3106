// When an entry of the TTL map is visible (src/timers/concurrent_timed_map.rs),
// said of the calls alone: the last write of a key decides every later answer
// about it, and an entry is visible strictly before its deadline.
module Expiry {
  import opened Collections
  import opened TimedMaps

  /** A value and, if it is to expire, its deadline. */
  datatype Entry<V> = Entry(value: V, until: Option<int>)

  function VisibleAt<V>(e: Option<Entry<V>>, now: int): Option<V> {
    if e.None? then None
    else if e.value.until.Some? && e.value.until.value <= now then None
    else Some(e.value.value)
  }

  function Stored<V>(e: Entry<V>): ExpiryValue<V> {
    if e.until.None? then Constant(e.value) else Expirable(e.value, e.until.value)
  }

  ghost predicate Writes<K, V>(op: Op<K, V>, key: K) {
    match op
    case InsertConstant(k, _) => k == key
    case InsertExpirable(k, _, _) => k == key
    case Remove(k) => k == key
    case UpdateExpiration(k, _) => k == key
    case Clear => true
    case _ => false
  }

  /** What a write at time `t` leaves under its key; a new deadline needs a stored entry that has one. */
  function Written<K, V>(s: Timed<K, V>, t: int, op: Op<K, V>, key: K): Option<Entry<V>> {
    match op
    case InsertConstant(_, v) => Some(Entry(v, None))
    case InsertExpirable(_, v, ttl) => Some(Entry(v, if s.disabled then None else Some(t + ttl)))
    case UpdateExpiration(_, ttl) =>
      if key !in s.inner then None
      else if s.inner[key].Constant? then Some(Entry(s.inner[key].value, None))
      else Some(Entry(s.inner[key].value, Some(t + ttl)))
    case _ => None
  }

  ghost predicate Untouched<K, V>(trace: seq<Call<K, V>>, key: K) {
    forall i :: 0 <= i < |trace| ==> !Writes(trace[i].op, key)
  }

  ghost function After<K, V>(s: Timed<K, V>, trace: seq<Call<K, V>>): Timed<K, V>
    decreases |trace|
  {
    if trace == [] then s else After(LazyStep(s, trace[0].now, trace[0].op).0, trace[1..])
  }

  function LastTime<K, V>(t: int, trace: seq<Call<K, V>>): int {
    if trace == [] then t else trace[|trace| - 1].now
  }

  /** The map holds `e` under `key`, or has already dropped it because its deadline is past. */
  ghost predicate Keeps<K, V>(s: Timed<K, V>, key: K, e: Option<Entry<V>>, t: int) {
    if key in s.inner then e.Some? && s.inner[key] == Stored(e.value)
    else VisibleAt(e, t).None?
  }

  lemma WriteIsKept<K, V>(s: Timed<K, V>, t: int, op: Op<K, V>, key: K)
    requires Writes(op, key)
    ensures Keeps(LazyStep(s, t, op).0, key, Written(s, t, op, key), t)
  {
  }

  lemma StepKeeps<K, V>(s: Timed<K, V>, now: int, op: Op<K, V>, key: K, e: Option<Entry<V>>, t: int)
    requires Keeps(s, key, e, t) && t <= now && !Writes(op, key)
    ensures Keeps(LazyStep(s, now, op).0, key, e, now)
  {
  }

  lemma {:induction false} TraceKeeps<K, V>(
    s: Timed<K, V>, key: K, e: Option<Entry<V>>, t: int, trace: seq<Call<K, V>>)
    requires Keeps(s, key, e, t) && ClockFrom(t, trace) && Untouched(trace, key)
    ensures Keeps(After(s, trace), key, e, LastTime(t, trace))
    decreases |trace|
  {
    if trace == [] {
    } else {
      var now, op := trace[0].now, trace[0].op;
      StepKeeps(s, now, op, key, e, t);
      TraceKeeps(LazyStep(s, now, op).0, key, e, now, trace[1..]);
    }
  }

  /** The three ways to ask for `key` at `now` agree that its value is `v`, or that it has none. */
  ghost predicate Answers<K, V>(s: Timed<K, V>, now: int, key: K, v: Option<V>) {
    && LazyStep(s, now, Get(key)).1 == Found(v)
    && LazyStep(s, now, ContainsKey(key)).1 == Present(v.Some?)
    && var all := LazyStep(s, now, Iter).1;
       && all.Entries?
       && (key in all.entries <==> v.Some?)
       && (v.Some? ==> all.entries[key] == v.value)
  }

  /**
    * Every answer about a key is decided by its last write: whatever the map
    * held before, whatever reads, purges, toggles and writes of other keys came
    * since, the key has the written value strictly before the deadline that the
    * write gave it, and no value from that deadline on.
    */
  lemma AnsweredByLastWrite<K, V>(
    s: Timed<K, V>, t: int, op: Op<K, V>, key: K, since: seq<Call<K, V>>, now: int)
    requires Writes(op, key) && ClockFrom(t, since) && Untouched(since, key) && LastTime(t, since) <= now
    ensures Answers(After(LazyStep(s, t, op).0, since), now, key, VisibleAt(Written(s, t, op, key), now))
  {
    WriteIsKept(s, t, op, key);
    TraceKeeps(LazyStep(s, t, op).0, key, Written(s, t, op, key), t, since);
  }

  function Toggles<K, V>(trace: seq<Call<K, V>>): nat {
    if trace == [] then 0 else (if trace[0].op.Toggle? then 1 else 0) + Toggles(trace[1..])
  }

  /** Whether expiration is off is decided by the number of toggles so far, and by nothing else. */
  lemma {:induction false} OffIffToggledOdd<K, V>(s: Timed<K, V>, trace: seq<Call<K, V>>)
    ensures After(s, trace).disabled == s.disabled <==> Toggles(trace) % 2 == 0
    decreases |trace|
  {
    if trace == [] {
    } else {
      OffIffToggledOdd(LazyStep(s, trace[0].now, trace[0].op).0, trace[1..]);
    }
  }

  /** An entry inserted for `ttl` can be read exactly until `t + ttl`, or for ever while expiration is off. */
  lemma DeadlineIsExact<K, V>(s: Timed<K, V>, k: K, v: V, ttl: nat, t: int, now: int)
    ensures LazyStep(LazyStep(s, t, InsertExpirable(k, v, ttl)).0, now, Get(k)).1
         == Found(if s.disabled || now < t + ttl then Some(v) else None)
  {
  }
}
