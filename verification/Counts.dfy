// How often an id occurs in the store's collections, and what each store call
// does to those counts.
module Counts {
  import opened Collections
  import opened Stores
  import T = Tags

  function Bit(b: bool): nat {
    if b then 1 else 0
  }

  /** The scores under which `m` holds `id`. */
  ghost function KeysOf(m: map<nat, Id>, id: Id): set<nat> {
    set k | k in m && m[k] == id
  }

  ghost function InMap(m: map<nat, Id>, id: Id): nat {
    |KeysOf(m, id)|
  }

  lemma InMapDrop(m: map<nat, Id>, k: nat, id: Id)
    requires k in m
    ensures InMap(m - {k}, id) + Bit(m[k] == id) == InMap(m, id)
  {
    assert KeysOf(m - {k}, id) == KeysOf(m, id) - {k};
  }

  /** Storing under a taken score overwrites its id. */
  lemma InMapStore(m: map<nat, Id>, k: nat, v: Id, id: Id)
    ensures InMap(m[k := v], id) + Bit(k in m && m[k] == id) == InMap(m, id) + Bit(v == id)
  {
    hide InMap;
    var rest := m - {k};
    assert m[k := v] - {k} == rest;
    InMapDrop(m[k := v], k, id);
    if k in m {
      InMapDrop(m, k, id);
    } else {
      assert rest == m;
    }
  }

  lemma InMapDropping(m: map<nat, Id>, v: Id, id: Id)
    ensures InMap(Dropping<nat, Id>(m, v), id) == if v == id then 0 else InMap(m, id)
  {
    assert KeysOf(Dropping<nat, Id>(m, v), id) == if v == id then {} else KeysOf(m, id);
  }

  lemma InMapSplit(m: map<nat, Id>, part: map<nat, Id>, id: Id)
    requires forall k :: k in part ==> k in m && m[k] == part[k]
    ensures InMap(m - part.Keys, id) + InMap(part, id) == InMap(m, id)
  {
    assert KeysOf(m, id) == KeysOf(m - part.Keys, id) + KeysOf(part, id);
    assert KeysOf(m - part.Keys, id) !! KeysOf(part, id);
  }

  lemma InMapPositive(m: map<nat, Id>, id: Id)
    ensures InMap(m, id) > 0 <==> id in m.Values
  {
    if InMap(m, id) > 0 {
      var k := Pick(KeysOf(m, id));
      assert m[k] == id;
    }
    if id in m.Values {
      var k :| k in m && m[k] == id;
      assert k in KeysOf(m, id);
    }
  }

  lemma {:induction false} InMapValues(m: map<nat, Id>, id: Id)
    ensures InList(Values<Id>(m), id) == InMap(m, id)
    decreases |m|
  {
    ValuesEmpty(m);
    if m == map[] {
      assert KeysOf(m, id) == {};
    } else {
      ValuesFront(m);
      var k: nat := Ascend(m.Keys)[0];
      var rest := m - {k};
      InMapDrop(m, k, id);
      InMapValues(rest, id);
      assert multiset(Values<Id>(m)) == multiset{m[k]} + multiset(Values<Id>(rest));
    }
  }

  lemma SplitCount(m: map<nat, Id>, part: map<nat, Id>, id: Id)
    requires forall k :: k in part ==> k in m && m[k] == part[k]
    ensures InMap(m - part.Keys, id) + InList(Values<Id>(part), id) == InMap(m, id)
  {
    InMapSplit(m, part, id);
    InMapValues(part, id);
  }

  lemma {:induction false} InListWithout(s: seq<Id>, v: Id, id: Id)
    ensures InList(Without<Id>(s, v), id) == if v == id then 0 else InList(s, id)
  {
    if s == [] {
    } else {
      var n := |s| - 1;
      InListWithout(s[..n], v, id);
      assert s == s[..n] + [s[n]];
    }
  }

  ghost function InList(s: seq<Id>, id: Id): nat {
    multiset(s)[id]
  }

  /** Occurrences of `id` among the jobs that are waiting to run or running. */
  ghost function Queued(c: Cols, id: Id): nat {
    InList(c.waiting, id) + InList(c.paused, id) + InMap(c.prioritized, id) + InMap(c.delayed, id)
    + InList(c.active, id)
  }

  /** Occurrences of `id` among the jobs that have ended. */
  ghost function Ended(c: Cols, id: Id): nat {
    InMap(c.completed, id) + InMap(c.failed, id)
  }

  /** What a scored insertion would overwrite. */
  ghost predicate Overwrites(m: map<nat, Id>, score: int, id: Id) {
    Unsigned(score) in m && m[Unsigned(score)] == id
  }

  lemma AddToList(c: Cols, col: T.Suffix, item: Id, score: Option<int>, append: bool, id: Id)
    requires col in {T.Active, T.Wait, T.Paused}
    ensures var c' := Added(c, col, item, score, append);
            && Queued(c', id) == Queued(c, id) + Bit(item == id)
            && InList(c'.active, id) == InList(c.active, id) + Bit(col == T.Active && item == id)
            && Ended(c', id) == Ended(c, id)
  {
  }

  lemma AddToDelayed(c: Cols, item: Id, score: int, append: bool, id: Id)
    ensures var c' := Added(c, T.Delayed, item, Some(score), append);
            && Queued(c', id) + Bit(Overwrites(c.delayed, score, id)) == Queued(c, id) + Bit(item == id)
            && Ended(c', id) == Ended(c, id)
  {
    InMapStore(c.delayed, Unsigned(score), item, id);
  }

  lemma AddToPrioritized(c: Cols, item: Id, score: int, append: bool, id: Id)
    ensures var c' := Added(c, T.Prioritized, item, Some(score), append);
            && Queued(c', id) + Bit(Overwrites(c.prioritized, score, id)) == Queued(c, id) + Bit(item == id)
            && Ended(c', id) == Ended(c, id)
  {
    InMapStore(c.prioritized, Unsigned(score), item, id);
  }

  lemma AddToEnded(c: Cols, col: T.Suffix, item: Id, score: int, append: bool, id: Id)
    requires col == T.Completed || col == T.Failed
    ensures var c' := Added(c, col, item, Some(score), append);
            var m := if col == T.Completed then c.completed else c.failed;
            && Queued(c', id) == Queued(c, id)
            && Ended(c', id) + Bit(Overwrites(m, score, id)) == Ended(c, id) + Bit(item == id)
  {
    InMapStore(c.completed, Unsigned(score), item, id);
    InMapStore(c.failed, Unsigned(score), item, id);
  }

  lemma RemoveScoredCount(m: map<nat, Id>, item: Id, id: Id)
    ensures InMap(RemoveScored(m, item), id) <= InMap(m, id)
    ensures item !in m ==> InMap(RemoveScored(m, item), id) == if item == id then 0 else InMap(m, id)
  {
    if item in m {
      InMapDrop(m, item, id);
    } else {
      InMapDropping(m, item, id);
    }
  }

  lemma RemoveActiveCount(c: Cols, item: Id, id: Id)
    ensures var c' := Removed(c, T.Active, item);
            && Queued(c', id) + (if item == id then InList(c.active, id) else 0) == Queued(c, id)
            && Ended(c', id) == Ended(c, id)
            && InList(c'.active, id) == if item == id then 0 else InList(c.active, id)
  {
    InListWithout(c.active, item, id);
  }

  lemma RemoveListCount(c: Cols, col: T.Suffix, item: Id, id: Id)
    requires col == T.Wait || col == T.Paused
    ensures Queued(Removed(c, col, item), id) <= Queued(c, id)
  {
    if col == T.Wait {
      InListWithout(c.waiting, item, id);
    } else {
      InListWithout(c.paused, item, id);
    }
  }

  /** Removing an item never makes any id occur more often. */
  lemma RemoveCount(c: Cols, col: T.Suffix, item: Id, id: Id)
    requires col != T.Active
    ensures Queued(Removed(c, col, item), id) <= Queued(c, id)
    ensures Ended(Removed(c, col, item), id) <= Ended(c, id)
  {
    match col
    case Wait => RemoveListCount(c, col, item, id);
    case Paused => RemoveListCount(c, col, item, id);
    case Prioritized => RemoveScoredCount(c.prioritized, item, id);
    case Delayed => RemoveScoredCount(c.delayed, item, id);
    case Completed => RemoveScoredCount(c.completed, item, id);
    case Failed => RemoveScoredCount(c.failed, item, id);
    case _ =>
  }

  lemma PopWaitingCount(c: Cols, id: Id)
    ensures var (c', r) := PopBackPushFront(c);
            && Queued(c', id) == Queued(c, id)
            && Ended(c', id) == Ended(c, id)
            && InList(c'.active, id) == InList(c.active, id) + Bit(r == Some(id))
  {
    if c.waiting != [] {
      var n := |c.waiting| - 1;
      assert c.waiting == c.waiting[..n] + [c.waiting[n]];
    }
  }

  lemma PopPrioritizedCount(c: Cols, id: Id)
    ensures var (c', r) := PopPrioritized(c);
            && Queued(c', id) + Bit(r == Some(id)) == Queued(c, id)
            && Ended(c', id) == Ended(c, id)
  {
    if |c.prioritized.Keys| > 0 {
      InMapDrop(c.prioritized, Least(c.prioritized.Keys), id);
    }
  }

  lemma PollCount(c: Cols, start: int, stop: int, id: Id)
    ensures var p := GetDelayedAt(c.delayed, start, stop);
            Queued(c.(delayed := p.delayed), id) + InList(p.jobs, id) + InList(p.missed, id) == Queued(c, id)
  {
    DrainCount(c.delayed, start, stop, id);
  }

  lemma DrainCount(delayed: map<nat, Id>, start: int, stop: int, id: Id)
    ensures var p := GetDelayedAt(delayed, start, stop);
            InMap(p.delayed, id) + InList(p.jobs, id) + InList(p.missed, id) == InMap(delayed, id)
  {
    var jobs := DueBetween(delayed, start, stop);
    var rest := delayed - jobs.Keys;
    SplitCount(delayed, jobs, id);
    SplitCount(rest, OverdueAt(rest, start), id);
  }

  lemma PauseCount(c: Cols, pause: bool, id: Id)
    ensures Queued(Shifted(c, pause), id) == Queued(c, id)
    ensures Ended(Shifted(c, pause), id) == Ended(c, id)
  {
  }

  /** How often `id` occurs in one collection. */
  ghost function HeldIn(c: Cols, col: T.Suffix, id: Id): nat {
    match col
    case Wait => InList(c.waiting, id)
    case Paused => InList(c.paused, id)
    case Active => InList(c.active, id)
    case Prioritized => InMap(c.prioritized, id)
    case Delayed => InMap(c.delayed, id)
    case Completed => InMap(c.completed, id)
    case Failed => InMap(c.failed, id)
    case _ => 0
  }

  /** The membership test of every collection is exact. */
  lemma ExistsIffHeld(c: Cols, col: T.Suffix, id: Id)
    ensures ExistsIn(c, col, id) <==> HeldIn(c, col, id) > 0
  {
    match col
    case Prioritized => InMapPositive(c.prioritized, id);
    case Delayed => InMapPositive(c.delayed, id);
    case Completed => InMapPositive(c.completed, id);
    case Failed => InMapPositive(c.failed, id);
    case _ =>
  }

  /** Without a score, adding to a scored set lists the id nowhere. */
  lemma UnscoredIsDropped(c: Cols, col: T.Suffix, item: Id, append: bool, other: T.Suffix, id: Id)
    requires col in {T.Prioritized, T.Delayed, T.Completed, T.Failed}
    ensures HeldIn(Added(c, col, item, None, append), other, id) == HeldIn(c, other, id)
  {
  }

  /** The id is also a score of the collection, which removal would take for the entry it means. */
  predicate IsScore(c: Cols, col: T.Suffix, item: Id) {
    match col
    case Prioritized => item in c.prioritized
    case Delayed => item in c.delayed
    case Completed => item in c.completed
    case Failed => item in c.failed
    case _ => false
  }

  lemma RemovedThere(c: Cols, col: T.Suffix, item: Id, id: Id)
    requires !IsScore(c, col, item)
    ensures HeldIn(Removed(c, col, item), col, id) == (if id == item then 0 else HeldIn(c, col, id))
  {
    hide Without, RemoveScored, InMap, InList;
    match col
    case Wait => InListWithout(c.waiting, item, id);
    case Paused => InListWithout(c.paused, item, id);
    case Active => InListWithout(c.active, item, id);
    case Prioritized => RemoveScoredCount(c.prioritized, item, id);
    case Delayed => RemoveScoredCount(c.delayed, item, id);
    case Completed => RemoveScoredCount(c.completed, item, id);
    case Failed => RemoveScoredCount(c.failed, item, id);
    case _ =>
  }

  /** Removing an id leaves no occurrence of it in that collection, and changes nothing else. */
  lemma RemovedIsGone(c: Cols, col: T.Suffix, item: Id, other: T.Suffix, id: Id)
    requires !IsScore(c, col, item)
    ensures HeldIn(Removed(c, col, item), other, id)
         == (if other == col && id == item then 0 else HeldIn(c, other, id))
  {
    hide Without, RemoveScored, InMap, InList;
    RemovedThere(c, col, item, id);
  }
}
