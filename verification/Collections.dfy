// Ordered views of the skip maps the store is built from.
module Collections {

  datatype Option<+T> = None | Some(value: T)

  ghost predicate IsLeast(k: int, s: set<int>) {
    k in s && forall j :: j in s ==> k <= j
  }

  lemma Pick<T>(s: set<T>) returns (x: T)
    requires |s| > 0
    ensures x in s
  {
    x :| x in s;
  }

  lemma {:induction false} HasLeast(s: set<int>)
    requires |s| > 0
    ensures exists k :: IsLeast(k, s)
  {
    var x := Pick(s);
    var rest := s - {x};
    if |rest| == 0 {
      assert s == {x};
      assert IsLeast(x, s);
    } else {
      HasLeast(rest);
      var k :| IsLeast(k, rest);
      assert IsLeast(if k <= x then k else x, s) by {
        assert forall j :: j in s ==> j == x || j in rest;
      }
    }
  }

  function Least(s: set<int>): (k: int)
    requires |s| > 0
    ensures IsLeast(k, s)
  {
    HasLeast(s);
    assert exists k :: k in s && forall j :: j in s ==> k <= j by {
      var k :| IsLeast(k, s);
    }
    var k :| k in s && forall j :: j in s ==> k <= j; k
  }

  /** The elements of `s` from least to greatest: the order in which a skip map iterates. */
  function Ascend(s: set<int>): seq<int>
    decreases |s|
  {
    if |s| == 0 then [] else [Least(s)] + Ascend(s - {Least(s)})
  }

  ghost predicate Ascending(r: seq<int>) {
    forall i, j :: 0 <= i < j < |r| ==> r[i] < r[j]
  }

  /** `r` lists the elements of `s`, each once, in increasing order. */
  ghost predicate Enumerates(r: seq<int>, s: set<int>) {
    && Ascending(r)
    && (forall i :: 0 <= i < |r| ==> r[i] in s)
    && (forall k :: k in s ==> k in r)
  }

  lemma ConsEnumerates(k: int, r: seq<int>, s: set<int>)
    requires IsLeast(k, s) && Enumerates(r, s - {k})
    ensures Enumerates([k] + r, s)
  {
    forall j | j in s ensures j in [k] + r {
      assert j == k || j in s - {k};
    }
  }

  lemma {:induction false} AscendEnumerates(s: set<int>)
    ensures Enumerates(Ascend(s), s)
    decreases |s|
  {
    if |s| == 0 {
    } else {
      var k := Least(s);
      var rest := s - {k};
      AscendEnumerates(rest);
      var r := Ascend(rest);
      assert Ascend(s) == [k] + r;
      ConsEnumerates(k, r, s);
    }
  }

  lemma EnumerationTail(r: seq<int>, s: set<int>)
    requires Enumerates(r, s) && |r| > 0
    ensures Enumerates(r[1..], s - {r[0]})
  {
    forall k | k in s - {r[0]} ensures k in r[1..] {
      var i :| 0 <= i < |r| && r[i] == k;
      assert r[1..][i - 1] == k;
    }
  }

  /** An increasing enumeration is determined by its elements. */
  lemma {:induction false} EnumerationUnique(a: seq<int>, b: seq<int>, s: set<int>)
    requires Enumerates(a, s) && Enumerates(b, s)
    ensures a == b
  {
    assert |a| > 0 ==> a[0] in s;
    assert |b| > 0 ==> b[0] in s;
    if |a| == 0 {
      assert |s| == 0 by {
        if |s| > 0 {
          var k := Pick(s);
        }
      }
    } else {
      var i :| 0 <= i < |b| && b[i] == a[0];
      var j :| 0 <= j < |a| && a[j] == b[0];
      assert a[0] == b[0];
      var t := s - {a[0]};
      EnumerationTail(a, s);
      EnumerationTail(b, s);
      EnumerationUnique(a[1..], b[1..], t);
    }
  }

  lemma AscendIs(s: set<int>, r: seq<int>)
    requires Enumerates(r, s)
    ensures Ascend(s) == r
  {
    hide Ascend;
    AscendEnumerates(s);
    EnumerationUnique(Ascend(s), r, s);
  }

  lemma AscendAppend(s: set<int>, k: int)
    requires forall j :: j in s ==> j < k
    ensures Ascend(s + {k}) == Ascend(s) + [k]
  {
    hide Ascend;
    AscendEnumerates(s);
    AscendIs(s + {k}, Ascend(s) + [k]);
  }

  lemma AscendPrepend(s: set<int>, k: int)
    requires forall j :: j in s ==> k < j
    ensures Ascend(s + {k}) == [k] + Ascend(s)
  {
    hide Ascend;
    AscendEnumerates(s);
    AscendIs(s + {k}, [k] + Ascend(s));
  }

  lemma AscendFront(s: set<int>)
    requires |Ascend(s)| > 0
    ensures IsLeast(Ascend(s)[0], s)
    ensures Ascend(s - {Ascend(s)[0]}) == Ascend(s)[1..]
  {
  }

  lemma AscendBack(s: set<int>)
    requires |Ascend(s)| > 0
    ensures var r := Ascend(s); var k := r[|r| - 1];
            && k in s
            && (forall j :: j in s - {k} ==> j < k)
            && Ascend(s - {k}) == r[..|r| - 1]
  {
    hide Ascend;
    AscendEnumerates(s);
    var r := Ascend(s);
    var n := |r| - 1;
    forall j | j in s - {r[n]} ensures j in r[..n] && j < r[n] {
      var i :| 0 <= i < |r| && r[i] == j;
      assert r[..n][i] == j;
    }
    AscendIs(s - {r[n]}, r[..n]);
  }

  lemma SliceEnumerates(s: set<int>, r: seq<int>, t: set<int>, i: nat, j: nat)
    requires Enumerates(r, s) && i <= j < |r|
    requires forall k :: k in t <==> k in s && r[i] <= k <= r[j]
    ensures Enumerates(r[i..j + 1], t)
  {
    forall k | k in t ensures k in r[i..j + 1] {
      var n :| 0 <= n < |r| && r[n] == k;
      assert r[i..j + 1][n - i] == k;
    }
  }

  /** The elements of `s` from its i-th to its j-th element. */
  lemma AscendBetween(s: set<int>, t: set<int>, i: nat, j: nat)
    requires i < |Ascend(s)| && j < |Ascend(s)|
    requires forall k :: k in t <==> k in s && Ascend(s)[i] <= k <= Ascend(s)[j]
    ensures Ascend(t) == if i <= j then Ascend(s)[i..j + 1] else []
  {
    hide Ascend;
    AscendEnumerates(s);
    if i <= j {
      SliceEnumerates(s, Ascend(s), t, i, j);
      AscendIs(t, Ascend(s)[i..j + 1]);
    } else {
      AscendIs(t, []);
    }
  }

  /** The values of `m` in key order. */
  function Values<T>(m: map<int, T>): (r: seq<T>)
    ensures |r| == |Ascend(m.Keys)|
    ensures forall i :: 0 <= i < |r| ==> Ascend(m.Keys)[i] in m && r[i] == m[Ascend(m.Keys)[i]]
  {
    AscendEnumerates(m.Keys);
    var ks := Ascend(m.Keys);
    seq(|ks|, i requires 0 <= i < |ks| => m[ks[i]])
  }

  lemma ValuesAppend<T>(m: map<int, T>, k: int, v: T)
    requires forall j :: j in m ==> j < k
    ensures Values(m[k := v]) == Values(m) + [v]
  {
    hide Ascend;
    AscendAppend(m.Keys, k);
    assert m[k := v].Keys == m.Keys + {k};
  }

  lemma ValuesPrepend<T>(m: map<int, T>, k: int, v: T)
    requires forall j :: j in m ==> k < j
    ensures Values(m[k := v]) == [v] + Values(m)
  {
    hide Ascend;
    AscendPrepend(m.Keys, k);
    assert m[k := v].Keys == m.Keys + {k};
  }

  lemma ValuesEmpty<T>(m: map<int, T>)
    ensures Values(m) == [] <==> m == map[]
  {
    assert |m.Keys| == 0 <==> m == map[];
  }

  /** Splitting off the entry with the least key. */
  lemma ValuesFront<T>(m: map<int, T>)
    requires Values(m) != []
    ensures var k := Ascend(m.Keys)[0];
            IsLeast(k, m.Keys) && Values(m) == [m[k]] + Values(m - {k})
  {
    hide Ascend;
    AscendFront(m.Keys);
    var r := Ascend(m.Keys);
    assert (m - {r[0]}).Keys == m.Keys - {r[0]};
  }

  /** Splitting off the entry with the greatest key. */
  lemma ValuesBack<T>(m: map<int, T>)
    requires Values(m) != []
    ensures var r := Ascend(m.Keys); var k := r[|r| - 1];
            && k in m
            && (forall j :: j in m - {k} ==> j < k)
            && Values(m) == Values(m - {k}) + [m[k]]
  {
    hide Ascend;
    AscendBack(m.Keys);
    var r := Ascend(m.Keys);
    var k := r[|r| - 1];
    assert (m - {k}).Keys == m.Keys - {k};
  }

  /** The entries whose keys lie in `lo ..= hi`. */
  function Range<T>(m: map<int, T>, lo: int, hi: int): map<int, T> {
    map k | k in m && lo <= k <= hi :: m[k]
  }

  /** The key range from the i-th key to the j-th key holds the i-th to the j-th values. */
  lemma RangeIsSlice<T>(m: map<int, T>, i: nat, j: nat)
    requires i < |Values(m)| && j < |Values(m)|
    ensures var r := Ascend(m.Keys);
            Values(Range(m, r[i], r[j])) == if i <= j then Values(m)[i..j + 1] else []
  {
    var r := Ascend(m.Keys);
    AscendBetween(m.Keys, Range(m, r[i], r[j]).Keys, i, j);
  }

  /** `s` without the elements equal to `v`. */
  function Without<T(==)>(s: seq<T>, v: T): (r: seq<T>)
    ensures v !in r
  {
    if s == [] then [] else
      Without(s[..|s| - 1], v) + (if s[|s| - 1] == v then [] else [s[|s| - 1]])
  }

  /** The entries of `m` whose value is not `v`. */
  function Dropping<K, V(==)>(m: map<K, V>, v: V): map<K, V> {
    map k | k in m && m[k] != v :: m[k]
  }

  lemma {:induction false} ValuesDropping<T>(m: map<int, T>, v: T)
    ensures Values(Dropping(m, v)) == Without(Values(m), v)
    decreases |m|
  {
    ValuesEmpty(m);
    if m == map[] {
      assert Dropping(m, v) == map[];
    } else {
      ValuesBack(m);
      var r := Ascend(m.Keys);
      var k := r[|r| - 1];
      var rest := m - {k};
      ValuesDropping(rest, v);
      assert Values(m)[..|Values(m)| - 1] == Values(rest);
      if m[k] == v {
        assert Dropping(m, v) == Dropping(rest, v);
      } else {
        assert Dropping(m, v) == Dropping(rest, v)[k := m[k]];
        ValuesAppend(Dropping(rest, v), k, m[k]);
      }
    }
  }

  /** Visit every entry of a skip map, unlinking those that hold `v`. */
  method UnlinkValue<K(==), V(==)>(m: map<K, V>, v: V) returns (r: map<K, V>)
    ensures r == Dropping(m, v)
  {
    r := m;
    var rest := m.Keys;
    while rest != {}
      invariant rest <= r.Keys <= m.Keys
      invariant forall k :: k in r ==> r[k] == m[k] && (k in rest || r[k] != v)
      invariant forall k :: k in m && k !in r ==> m[k] == v
      decreases rest
    {
      var k :| k in rest;
      rest := rest - {k};
      if r[k] == v {
        r := r - {k};
      }
    }
  }

  function Lookup<K, V>(m: map<K, V>, k: K): Option<V> {
    if k in m then Some(m[k]) else None
  }

  lemma MulMonotone(a: nat, b: nat, d: nat)
    requires a <= b
    ensures a * d <= b * d
  {
  }

  /** The ids 1 to `n`. */
  ghost function Ids(n: nat): (ids: set<nat>)
    ensures |ids| == n
    ensures forall id :: id in ids <==> 1 <= id <= n
  {
    if n == 0 then {} else Ids(n - 1) + {n}
  }
}
