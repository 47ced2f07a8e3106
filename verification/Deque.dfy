// The double-ended queue of src/utils/concurrent_structures.rs, used by one
// thread at a time: an ordered map plus two indices refines a sequence.
module Deque {
  import opened Collections

  /** What `get_job_ids_in_state` promises for a list `s`: the positions `start ..= end`. */
  function Page<T>(s: seq<T>, start: Option<nat>, end: Option<nat>): seq<T> {
    if s == [] then [] else
      var a := if start.Some? then start.value else 0;
      var b := if end.Some? then end.value else |s| - 1;
      if a <= b < |s| then s[a..b + 1] else []
  }

  /** With no bounds a page is the whole list, with one bound it is everything up to it, or from it on. */
  lemma PageBounds<T>(s: seq<T>, a: nat, b: nat)
    ensures Page(s, None, None) == s
    ensures b < |s| ==> Page(s, None, Some(b)) == s[..b + 1]
    ensures a <= |s| ==> Page(s, Some(a), None) == s[a..]
    ensures a <= b < |s| ==> Page(s, Some(a), Some(b)) == s[a..b + 1]
    ensures a > b || b >= |s| ==> Page(s, Some(a), Some(b)) == []
  {
  }

  /** The pagination code: look up the keys at both positions, then read the key range. */
  method PageByKeys<T>(m: map<int, T>, start: Option<nat>, end: Option<nat>) returns (page: seq<T>)
    ensures page == Page(Values(m), start, end)
  {
    ValuesEmpty(m);
    if m == map[] {
      return [];
    }
    var keys := Ascend(m.Keys);
    var a := if start.Some? then start.value else 0;
    var b := if end.Some? then end.value else |keys| - 1;
    if a < |keys| && b < |keys| {
      RangeIsSlice(m, a, b);
      return Values(Range(m, keys[a], keys[b]));
    }
    return [];
  }

  /** `n` pages of `p` ids each, asked for as `i * p ..= i * p + p - 1` and joined. */
  function Pages<T>(s: seq<T>, p: nat, n: nat): seq<T>
    requires p > 0
  {
    if n == 0 then [] else
      Pages(s, p, n - 1) + Page(s, Some((n - 1) * p), Some((n - 1) * p + p - 1))
  }

  lemma {:induction false} FullPages<T>(s: seq<T>, p: nat, n: nat)
    requires p > 0 && n * p <= |s|
    ensures Pages(s, p, n) == s[..n * p]
  {
    if n == 0 {
    } else {
      assert (n - 1) * p + p == n * p;
      FullPages(s, p, n - 1);
    }
  }

  lemma {:induction false} PagesPastTheEnd<T>(s: seq<T>, p: nat, q: nat, n: nat)
    requires p > 0 && q * p <= |s| < (q + 1) * p && q <= n
    ensures Pages(s, p, n) == s[..q * p]
    decreases n
  {
    if n == q {
      FullPages(s, p, q);
    } else {
      PagesPastTheEnd(s, p, q, n - 1);
      assert (q + 1) * p <= n * p by { MulMonotone(q + 1, n, p); }
      assert (n - 1) * p + p == n * p;
    }
  }

  lemma DivBounds(x: nat, p: nat)
    requires p > 0
    ensures x / p * p <= x < (x / p + 1) * p
    ensures x % p == 0 <==> x / p * p == x
  {
  }

  /**
    * Fixed-size pages join to the whole list exactly when the page size divides
    * its length: a page whose end lies past the last id comes back empty.
    */
  lemma PagesCoverIff<T>(s: seq<T>, p: nat, n: nat)
    requires p > 0 && n * p >= |s|
    ensures Pages(s, p, n) == s <==> |s| % p == 0
  {
    var q := |s| / p;
    DivBounds(|s|, p);
    if n < q {
      MulMonotone(n + 1, q, p);
    }
    PagesPastTheEnd(s, p, q, n);
  }

  /** Leaving the end of the last page open recovers the remainder, for every list. */
  lemma OpenLastPageCovers<T>(s: seq<T>, p: nat, q: nat)
    requires p > 0 && q * p <= |s| < (q + 1) * p
    ensures Pages(s, p, q) + Page(s, Some(q * p), None) == s
  {
    hide Pages, Page;
    FullPages(s, p, q);
    SplitAt(s, q * p);
  }

  lemma SplitAt<T>(s: seq<T>, x: nat)
    requires x <= |s|
    ensures s[..x] + Page(s, Some(x), None) == s
  {
  }

  class ConcurrentDeque<T(==)> {
    var data: map<int, T>
    var headIdx: int
    var tailIdx: int

    ghost predicate Valid()
      reads this
    {
      headIdx < tailIdx && forall k :: k in data ==> headIdx < k < tailIdx
    }

    ghost function Contents(): seq<T>
      reads this
    {
      Values(data)
    }

    constructor ()
      ensures Valid() && Contents() == []
    {
      data := map[];
      headIdx := 0;
      tailIdx := 1;
    }

    method PushFront(value: T)
      requires Valid()
      modifies this
      ensures Valid() && Contents() == [value] + old(Contents())
    {
      var idx := headIdx;
      headIdx := headIdx - 1;
      ValuesPrepend(data, idx, value);
      data := data[idx := value];
    }

    method PushBack(value: T)
      requires Valid()
      modifies this
      ensures Valid() && Contents() == old(Contents()) + [value]
    {
      var idx := tailIdx;
      tailIdx := tailIdx + 1;
      ValuesAppend(data, idx, value);
      data := data[idx := value];
    }

    method Clear()
      modifies this
      ensures Valid() && Contents() == []
    {
      data := map[];
      headIdx := 0;
      tailIdx := 1;
    }

    method PopFront() returns (r: Option<T>)
      requires Valid()
      modifies this`data
      ensures Valid()
      ensures r == None <==> old(Contents()) == []
      ensures r.Some? ==> old(Contents()) == [r.value] + Contents()
      ensures r.None? ==> Contents() == old(Contents())
    {
      var keys := Ascend(data.Keys);
      if |keys| == 0 {
        return None;
      }
      ValuesFront(data);
      r := Some(data[keys[0]]);
      data := data - {keys[0]};
    }

    method PopBack() returns (r: Option<T>)
      requires Valid()
      modifies this`data
      ensures Valid()
      ensures r == None <==> old(Contents()) == []
      ensures r.Some? ==> old(Contents()) == Contents() + [r.value]
      ensures r.None? ==> Contents() == old(Contents())
    {
      var keys := Ascend(data.Keys);
      if |keys| == 0 {
        return None;
      }
      ValuesBack(data);
      var key := keys[|keys| - 1];
      r := Some(data[key]);
      data := data - {key};
    }

    method Len() returns (n: nat)
      ensures n == |Contents()|
    {
      n := |Ascend(data.Keys)|;
    }

    method IsEmpty() returns (b: bool)
      ensures b <==> Contents() == []
    {
      ValuesEmpty(data);
      b := data == map[];
    }

    method ContainsValue(value: T) returns (b: bool)
      ensures b <==> value in Contents()
    {
      b := value in Values(data);
    }

    /** The list arms of `remove_item`: visit every entry, unlinking each match. */
    method RemoveValue(value: T)
      requires Valid()
      modifies this`data
      ensures Valid() && Contents() == Without(old(Contents()), value)
    {
      ValuesDropping(data, value);
      data := UnlinkValue(data, value);
    }

    method PageOf(start: Option<nat>, end: Option<nat>) returns (page: seq<T>)
      ensures page == Page(Contents(), start, end)
      ensures start.None? && end.None? ==> page == Contents()
      ensures start.None? && end.Some? && end.value < |Contents()| ==> page == Contents()[..end.value + 1]
      ensures start.Some? && end.None? && start.value <= |Contents()| ==> page == Contents()[start.value..]
    {
      PageBounds(Contents(), 0, 0);
      page := PageByKeys(data, start, end);
    }
  }
}
