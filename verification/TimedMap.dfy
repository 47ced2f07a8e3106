// The TTL map of src/timers/concurrent_timed_map.rs. Expired entries are only
// evicted when something happens to touch them; its observable behaviour is
// compared with a map that drops every entry at its deadline.
// The clock is an argument of every operation that reads it.
module TimedMaps {
  import opened Collections

  datatype ExpiryValue<+V> = Constant(value: V) | Expirable(value: V, expiresAt: int) {
    predicate IsExpired(now: int) {
      Expirable? && now >= expiresAt
    }
  }

  /** The entries of `m` that have not expired at `now`. */
  function Live<K, V>(m: map<K, ExpiryValue<V>>, now: int): map<K, ExpiryValue<V>> {
    map k | k in m && !m[k].IsExpired(now) :: m[k]
  }

  function Plain<K, V>(m: map<K, ExpiryValue<V>>): map<K, V> {
    map k | k in m :: m[k].value
  }

  datatype Timed<K, V> = Timed(inner: map<K, ExpiryValue<V>>, disabled: bool)

  datatype Op<K, V> =
    | InsertConstant(key: K, value: V)
    | InsertExpirable(key: K, value: V, ttl: nat)
    | Get(key: K)
    | ContainsKey(key: K)
    | Iter
    | Remove(key: K)
    | UpdateExpiration(key: K, ttl: nat)
    | Toggle
    | Clear
    | Purge

  datatype Out<K, V> =
    | Done
    | Found(found: Option<V>)
    | Present(present: bool)
    | Entries(entries: map<K, V>)
    | Deadline(at: Option<int>)

  /** What the code does. */
  function LazyStep<K, V>(s: Timed<K, V>, now: int, op: Op<K, V>): (r: (Timed<K, V>, Out<K, V>)) {
    match op
    case InsertConstant(k, v) => (s.(inner := s.inner[k := Constant(v)]), Done)
    case InsertExpirable(k, v, ttl) =>
      var entry := if s.disabled then Constant(v) else Expirable(v, now + ttl);
      (s.(inner := s.inner[k := entry]), Done)
    case Get(k) =>
      if k !in s.inner then (s, Found(None))
      else if s.inner[k].IsExpired(now) then (s.(inner := s.inner - {k}), Found(None))
      else (s, Found(Some(s.inner[k].value)))
    case ContainsKey(k) =>
      if k !in s.inner then (s, Present(false))
      else if s.inner[k].IsExpired(now) then (s.(inner := s.inner - {k}), Present(false))
      else (s, Present(true))
    case Iter => (s.(inner := Live(s.inner, now)), Entries(Plain(Live(s.inner, now))))
    case Remove(k) => (s.(inner := s.inner - {k}), Done)
    case UpdateExpiration(k, ttl) =>
      if k !in s.inner || s.inner[k].Constant? then (s, Deadline(None))
      else (s.(inner := s.inner[k := s.inner[k].(expiresAt := now + ttl)]), Deadline(Some(now + ttl)))
    case Toggle => (s.(disabled := !s.disabled), Done)
    case Clear => (s.(inner := map[]), Done)
    case Purge => (if s.disabled then s else s.(inner := Live(s.inner, now)), Done)
  }

  /** The reference: drop what has expired, then act on an ordinary map. */
  function EagerStep<K, V>(s: Timed<K, V>, now: int, op: Op<K, V>): (Timed<K, V>, Out<K, V>) {
    var m := Live(s.inner, now);
    match op
    case InsertConstant(k, v) => (s.(inner := m[k := Constant(v)]), Done)
    case InsertExpirable(k, v, ttl) =>
      var entry := if s.disabled then Constant(v) else Expirable(v, now + ttl);
      (s.(inner := m[k := entry]), Done)
    case Get(k) => (s.(inner := m), Found(if k in m then Some(m[k].value) else None))
    case ContainsKey(k) => (s.(inner := m), Present(k in m))
    case Iter => (s.(inner := m), Entries(Plain(m)))
    case Remove(k) => (s.(inner := m - {k}), Done)
    case UpdateExpiration(k, ttl) =>
      if k in m && m[k].Expirable?
      then (s.(inner := m[k := Expirable(m[k].value, now + ttl)]), Deadline(Some(now + ttl)))
      else (s.(inner := m), Deadline(None))
    case Toggle => (s.(inner := m, disabled := !s.disabled), Done)
    case Clear => (s.(inner := map[]), Done)
    case Purge => (s.(inner := m), Done)
  }

  datatype Call<K, V> = Call(now: int, op: Op<K, V>)

  ghost predicate ClockFrom<K, V>(t: int, trace: seq<Call<K, V>>)
    decreases |trace|
  {
    trace != [] ==> t <= trace[0].now && ClockFrom(trace[0].now, trace[1..])
  }

  function LazyOutputs<K, V>(s: Timed<K, V>, trace: seq<Call<K, V>>): seq<Out<K, V>>
    decreases |trace|
  {
    if trace == [] then [] else
      var (s', out) := LazyStep(s, trace[0].now, trace[0].op);
      [out] + LazyOutputs(s', trace[1..])
  }

  function EagerOutputs<K, V>(s: Timed<K, V>, trace: seq<Call<K, V>>): seq<Out<K, V>>
    decreases |trace|
  {
    if trace == [] then [] else
      var (s', out) := EagerStep(s, trace[0].now, trace[0].op);
      [out] + EagerOutputs(s', trace[1..])
  }

  /** The call would give a new deadline to an entry that has expired but is still stored. */
  predicate Revives<K, V>(s: Timed<K, V>, now: int, op: Op<K, V>) {
    op.UpdateExpiration? && op.key in s.inner && s.inner[op.key].IsExpired(now)
  }

  ghost predicate NeverRevives<K, V>(s: Timed<K, V>, trace: seq<Call<K, V>>)
    decreases |trace|
  {
    trace != [] ==>
      && !Revives(s, trace[0].now, trace[0].op)
      && NeverRevives(LazyStep(s, trace[0].now, trace[0].op).0, trace[1..])
  }

  /** The two maps show the same entries at `now`. */
  ghost predicate Matches<K, V>(lazy: Timed<K, V>, eager: Timed<K, V>, now: int) {
    lazy.disabled == eager.disabled && Live(lazy.inner, now) == Live(eager.inner, now)
  }

  lemma MatchesLater<K, V>(lazy: Timed<K, V>, eager: Timed<K, V>, t: int, now: int)
    requires Matches(lazy, eager, t) && t <= now
    ensures Matches(lazy, eager, now)
  {
    assert Live(Live(lazy.inner, t), now) == Live(lazy.inner, now);
    assert Live(Live(eager.inner, t), now) == Live(eager.inner, now);
  }

  lemma LiveStore<K, V>(m: map<K, ExpiryValue<V>>, now: int, k: K, x: ExpiryValue<V>)
    ensures Live(m[k := x], now) == if x.IsExpired(now) then Live(m, now) - {k} else Live(m, now)[k := x]
  {
  }

  lemma LiveDrop<K, V>(m: map<K, ExpiryValue<V>>, now: int, k: K)
    ensures Live(m - {k}, now) == Live(m, now) - {k}
    ensures k !in Live(m, now) ==> Live(m - {k}, now) == Live(m, now)
  {
  }

  lemma StoreMatches<K, V>(lazy: Timed<K, V>, eager: Timed<K, V>, now: int, k: K, x: ExpiryValue<V>)
    requires Matches(lazy, eager, now)
    ensures Matches(lazy.(inner := lazy.inner[k := x]), eager.(inner := Live(eager.inner, now)[k := x]), now)
  {
    LiveStore(lazy.inner, now, k, x);
    LiveStore(Live(eager.inner, now), now, k, x);
    assert Live(Live(eager.inner, now), now) == Live(eager.inner, now);
  }

  /** A call has the same result on both maps exactly when it revives nothing, and then they still match. */
  ghost predicate StaysMatched<K, V>(lazy: Timed<K, V>, eager: Timed<K, V>, now: int, op: Op<K, V>) {
    && (LazyStep(lazy, now, op).1 == EagerStep(eager, now, op).1 <==> !Revives(lazy, now, op))
    && (!Revives(lazy, now, op) ==> Matches(LazyStep(lazy, now, op).0, EagerStep(eager, now, op).0, now))
  }

  lemma InsertMatches<K, V>(lazy: Timed<K, V>, eager: Timed<K, V>, now: int, op: Op<K, V>)
    requires Matches(lazy, eager, now) && (op.InsertConstant? || op.InsertExpirable?)
    ensures StaysMatched(lazy, eager, now, op)
  {
    var entry :=
      if op.InsertConstant? || lazy.disabled then Constant(op.value) else Expirable(op.value, now + op.ttl);
    StoreMatches(lazy, eager, now, op.key, entry);
  }

  lemma ReadMatches<K, V>(lazy: Timed<K, V>, eager: Timed<K, V>, now: int, op: Op<K, V>)
    requires Matches(lazy, eager, now) && (op.Get? || op.ContainsKey? || op.Iter? || op.Purge?)
    ensures StaysMatched(lazy, eager, now, op)
  {
    var l := Live(lazy.inner, now);
    assert Live(l, now) == l;
    if op.Get? || op.ContainsKey? {
      LiveDrop(lazy.inner, now, op.key);
    }
  }

  lemma DropMatches<K, V>(lazy: Timed<K, V>, eager: Timed<K, V>, now: int, op: Op<K, V>)
    requires Matches(lazy, eager, now) && (op.Remove? || op.Clear? || op.Toggle?)
    ensures StaysMatched(lazy, eager, now, op)
  {
    var e := Live(eager.inner, now);
    assert Live(e, now) == e;
    if op.Remove? {
      LiveDrop(lazy.inner, now, op.key);
      LiveDrop(e, now, op.key);
    }
  }

  lemma UpdateMatches<K, V>(lazy: Timed<K, V>, eager: Timed<K, V>, now: int, op: Op<K, V>)
    requires Matches(lazy, eager, now) && op.UpdateExpiration?
    ensures StaysMatched(lazy, eager, now, op)
  {
    var l, e := Live(lazy.inner, now), Live(eager.inner, now);
    assert Live(e, now) == e;
    if op.key in l && l[op.key].Expirable? {
      StoreMatches(lazy, eager, now, op.key, Expirable(l[op.key].value, now + op.ttl));
    }
  }

  lemma StepMatches<K, V>(lazy: Timed<K, V>, eager: Timed<K, V>, now: int, op: Op<K, V>)
    requires Matches(lazy, eager, now)
    ensures StaysMatched(lazy, eager, now, op)
  {
    hide StaysMatched, Matches;
    if op.InsertConstant? || op.InsertExpirable? {
      InsertMatches(lazy, eager, now, op);
    } else if op.Get? || op.ContainsKey? || op.Iter? || op.Purge? {
      ReadMatches(lazy, eager, now, op);
    } else if op.Remove? || op.Clear? || op.Toggle? {
      DropMatches(lazy, eager, now, op);
    } else {
      UpdateMatches(lazy, eager, now, op);
    }
  }

  /**
    * Lazy eviction refines eager expiry: over any trace of calls with a
    * nondecreasing clock, wherever purges fall, every result equals that of
    * the eager map - if and only if no call revives an expired entry.
    */
  lemma {:induction false} LazyIsEagerIff<K, V>(
    lazy: Timed<K, V>, eager: Timed<K, V>, t: int, trace: seq<Call<K, V>>)
    requires Matches(lazy, eager, t) && ClockFrom(t, trace)
    ensures LazyOutputs(lazy, trace) == EagerOutputs(eager, trace) <==> NeverRevives(lazy, trace)
    decreases |trace|
  {
    if trace == [] {
    } else {
      var now, op := trace[0].now, trace[0].op;
      MatchesLater(lazy, eager, t, now);
      StepMatches(lazy, eager, now, op);
      var (lazy', a) := LazyStep(lazy, now, op);
      var (eager', b) := EagerStep(eager, now, op);
      var restA, restB := LazyOutputs(lazy', trace[1..]), EagerOutputs(eager', trace[1..]);
      assert LazyOutputs(lazy, trace) == [a] + restA;
      assert EagerOutputs(eager, trace) == [b] + restB;
      assert [a] + restA == [b] + restB <==> a == b && restA == restB by {
        assert ([a] + restA)[0] == a && ([a] + restA)[1..] == restA;
        assert ([b] + restB)[0] == b && ([b] + restB)[1..] == restB;
      }
      if a == b {
        LazyIsEagerIff(lazy', eager', now, trace[1..]);
      }
    }
  }

  /** Asking `contains_key` first rules a revival out: it evicts what it finds expired. */
  lemma CheckedUpdateNeverRevives<K, V>(s: Timed<K, V>, now: int, key: K, ttl: nat)
    ensures !Revives(LazyStep(s, now, ContainsKey(key)).0, now, UpdateExpiration(key, ttl))
  {
  }

  class TimedMap<K(==), V> {
    var inner: map<K, ExpiryValue<V>>
    var disableExpiration: bool

    ghost function View(): Timed<K, V>
      reads this
    {
      Timed(inner, disableExpiration)
    }

    constructor ()
      ensures View() == Timed(map[], false)
    {
      inner := map[];
      disableExpiration := false;
    }

    method ToggleExpiration()
      modifies this
      ensures View() == LazyStep(old(View()), 0, Toggle).0
    {
      var previous := disableExpiration;
      disableExpiration := !previous;
    }

    method InsertConstant(key: K, value: V)
      modifies this
      ensures View() == LazyStep(old(View()), 0, Op.InsertConstant(key, value)).0
    {
      inner := inner[key := Constant(value)];
    }

    method InsertExpirable(key: K, value: V, ttl: nat, now: int)
      modifies this
      ensures View() == LazyStep(old(View()), now, Op.InsertExpirable(key, value, ttl)).0
    {
      if disableExpiration {
        InsertConstant(key, value);
        return;
      }
      inner := inner[key := Expirable(value, now + ttl)];
    }

    method Get(key: K, now: int) returns (r: Option<V>)
      modifies this
      ensures (View(), Found(r)) == LazyStep(old(View()), now, Op.Get(key))
      ensures r.Some? <==> key in old(inner) && (old(inner)[key].Expirable? ==> now < old(inner)[key].expiresAt)
      ensures r.Some? ==> r.value == old(inner)[key].value
    {
      if key !in inner {
        return None;
      }
      var found := inner[key];
      if found.IsExpired(now) {
        inner := inner - {key};
        return None;
      }
      return Some(found.value);
    }

    method ContainsKey(key: K, now: int) returns (b: bool)
      modifies this
      ensures (View(), Present(b)) == LazyStep(old(View()), now, Op.ContainsKey(key))
      ensures b <==> key in old(inner) && (old(inner)[key].Expirable? ==> now < old(inner)[key].expiresAt)
    {
      if key in inner {
        var found := Get(key, now);
        return found.Some?;
      }
      return false;
    }

    method Remove(key: K)
      modifies this
      ensures View() == LazyStep(old(View()), 0, Op.Remove(key)).0
    {
      inner := inner - {key};
    }

    method UpdateExpirationStatus(key: K, ttl: nat, now: int) returns (at: Option<int>)
      modifies this
      ensures (View(), Deadline(at)) == LazyStep(old(View()), now, UpdateExpiration(key, ttl))
    {
      if key !in inner {
        return None;
      }
      match inner[key] {
        case Constant(_) => return None;
        case Expirable(v, _) =>
          inner := inner[key := Expirable(v, now + ttl)];
          return Some(now + ttl);
      }
    }

    /** Evict every expired entry: the loop shared by `iter` and `purge_expired`. */
    method Evict(now: int)
      modifies this`inner
      ensures inner == Live(old(inner), now)
      ensures forall k :: k in inner <==>
                k in old(inner) && (old(inner)[k].Expirable? ==> now < old(inner)[k].expiresAt)
    {
      ghost var before := inner;
      var rest := inner.Keys;
      while rest != {}
        invariant rest <= inner.Keys <= before.Keys
        invariant forall k :: k in inner ==> inner[k] == before[k] && (k in rest || !inner[k].IsExpired(now))
        invariant forall k :: k in before && k !in inner ==> before[k].IsExpired(now)
        decreases rest
      {
        var k :| k in rest;
        rest := rest - {k};
        if inner[k].IsExpired(now) {
          inner := inner - {k};
        }
      }
      assert inner == Live(before, now);
    }

    method Iter(now: int) returns (entries: map<K, V>)
      modifies this
      ensures (View(), Entries(entries)) == LazyStep(old(View()), now, Op.Iter)
    {
      Evict(now);
      entries := Plain(inner);
    }

    method PurgeExpired(now: int)
      modifies this
      ensures View() == LazyStep(old(View()), now, Purge).0
    {
      if disableExpiration {
        return;
      }
      Evict(now);
    }
  }
}
