// The same deque shared by any number of threads, one atomic action per step:
// a push reserves a key (`fetch_sub` / `fetch_add`) and then links its entry;
// a pop reads the end entry and then removes that key, if it is still there.
module DequeRace {
  import opened Collections

  /** Where a thread is between the two atomic actions of an operation. */
  datatype Pc<T> = Idle | Reserved(key: int, value: T) | Sighted(key: int)

  datatype Entry<T> = Entry(key: int, value: T)

  /**
    * `data`, `head` and `tail` are the deque. `issued` and `returned` are
    * history: the value pushed under every key ever reserved, and what the
    * pops have handed out so far.
    */
  datatype State<T> = State(
    data: map<int, T>,
    head: int,
    tail: int,
    threads: seq<Pc<T>>,
    issued: map<int, T>,
    returned: seq<Entry<T>>)

  datatype Step<T> =
    | ReserveFront(t: nat, value: T)
    | ReserveBack(t: nat, value: T)
    | Link(t: nat)
    | SightFront(t: nat)
    | SightBack(t: nat)
    | Unlink(t: nat)

  function Init<T>(n: nat): State<T> {
    State(map[], 0, 1, seq(n, _ => Idle), map[], [])
  }

  predicate Enabled<T>(s: State<T>, step: Step<T>) {
    && step.t < |s.threads|
    && match step
       case Link(t) => s.threads[t].Reserved?
       case Unlink(t) => s.threads[t].Sighted?
       case _ => s.threads[step.t].Idle?
  }

  function Apply<T>(s: State<T>, step: Step<T>): State<T>
    requires Enabled(s, step)
  {
    match step
    case ReserveFront(t, v) =>
      s.(head := s.head - 1, issued := s.issued[s.head := v],
         threads := s.threads[t := Reserved(s.head, v)])
    case ReserveBack(t, v) =>
      s.(tail := s.tail + 1, issued := s.issued[s.tail := v],
         threads := s.threads[t := Reserved(s.tail, v)])
    case Link(t) =>
      s.(data := s.data[s.threads[t].key := s.threads[t].value], threads := s.threads[t := Idle])
    case SightFront(t) =>
      var keys := Ascend(s.data.Keys);
      if keys == [] then s else s.(threads := s.threads[t := Sighted(keys[0])])
    case SightBack(t) =>
      var keys := Ascend(s.data.Keys);
      if keys == [] then s else s.(threads := s.threads[t := Sighted(keys[|keys| - 1])])
    case Unlink(t) =>
      var k := s.threads[t].key;
      if k in s.data
      then s.(data := s.data - {k}, returned := s.returned + [Entry(k, s.data[k])],
              threads := s.threads[t := Idle])
      else s.(threads := s.threads[t := Idle])
  }

  predicate Legal<T>(s: State<T>, steps: seq<Step<T>>)
    decreases |steps|
  {
    steps == [] || (Enabled(s, steps[0]) && Legal(Apply(s, steps[0]), steps[1..]))
  }

  function Run<T>(s: State<T>, steps: seq<Step<T>>): State<T>
    requires Legal(s, steps)
    decreases |steps|
  {
    if steps == [] then s else Run(Apply(s, steps[0]), steps[1..])
  }

  ghost predicate InFlight<T>(s: State<T>, k: int) {
    exists t :: 0 <= t < |s.threads| && s.threads[t].Reserved? && s.threads[t].key == k
  }

  ghost predicate Returned<T>(s: State<T>, k: int) {
    exists i :: 0 <= i < |s.returned| && s.returned[i].key == k
  }

  /** The keys handed out are exactly the integers strictly between the two indices. */
  ghost predicate KeysIssued<T>(s: State<T>) {
    forall k :: k in s.issued <==> s.head < k < s.tail
  }

  /** No two pushes in flight hold the same key, and no two pops returned the same push. */
  ghost predicate NoSharing<T>(s: State<T>) {
    && (forall t, u :: 0 <= t < u < |s.threads| && s.threads[t].Reserved? && s.threads[u].Reserved?
          ==> s.threads[t].key != s.threads[u].key)
    && (forall i, j :: 0 <= i < j < |s.returned| ==> s.returned[i].key != s.returned[j].key)
  }

  /** Every entry, wherever it is, carries the value pushed under its key. */
  ghost predicate ValuesKept<T>(s: State<T>) {
    && (forall t :: 0 <= t < |s.threads| && s.threads[t].Reserved?
          ==> s.threads[t].key in s.issued && s.issued[s.threads[t].key] == s.threads[t].value)
    && (forall k :: k in s.data ==> k in s.issued && s.issued[k] == s.data[k])
    && (forall i :: 0 <= i < |s.returned|
          ==> s.returned[i].key in s.issued && s.issued[s.returned[i].key] == s.returned[i].value)
  }

  /** Each push ever started is in exactly one place. */
  ghost predicate ExactlyOnePlace<T>(s: State<T>) {
    forall k :: k in s.issued ==>
      && (InFlight(s, k) || k in s.data || Returned(s, k))
      && !(InFlight(s, k) && k in s.data)
      && !(InFlight(s, k) && Returned(s, k))
      && !(k in s.data && Returned(s, k))
  }

  /** An entry some pop has read stays in the map until a pop returns it. */
  ghost predicate SightedKept<T>(s: State<T>) {
    forall t :: 0 <= t < |s.threads| && s.threads[t].Sighted?
      ==> s.threads[t].key in s.data || Returned(s, s.threads[t].key)
  }

  ghost predicate Inv<T>(s: State<T>) {
    && s.head < s.tail
    && KeysIssued(s)
    && NoSharing(s)
    && ValuesKept(s)
    && ExactlyOnePlace(s)
    && SightedKept(s)
  }

  lemma ReserveKeeps<T>(s: State<T>, step: Step<T>)
    requires Inv(s) && Enabled(s, step) && (step.ReserveFront? || step.ReserveBack?)
    ensures Inv(Apply(s, step))
  {
    var s' := Apply(s, step);
    var key := if step.ReserveFront? then s.head else s.tail;
    assert key !in s.issued;
    assert s'.threads[step.t].key == key;
    assert forall k :: Returned(s', k) == Returned(s, k);
    forall k | k in s.issued ensures InFlight(s', k) == InFlight(s, k) {
      if InFlight(s, k) {
        var u :| 0 <= u < |s.threads| && s.threads[u].Reserved? && s.threads[u].key == k;
        assert s'.threads[u] == s.threads[u];
      }
    }
  }

  /** The key being linked is unused, so linking never overwrites another push. */
  lemma LinkIsFresh<T>(s: State<T>, t: nat)
    requires Inv(s) && Enabled(s, Link(t))
    ensures s.threads[t].key !in s.data
  {
    assert InFlight(s, s.threads[t].key);
  }

  lemma LinkKeeps<T>(s: State<T>, t: nat)
    requires Inv(s) && Enabled(s, Link(t))
    ensures Inv(Apply(s, Link(t)))
  {
    LinkIsFresh(s, t);
    var s' := Apply(s, Link(t));
    var key := s.threads[t].key;
    assert InFlight(s, key);
    forall k | k in s.issued
      ensures InFlight(s', k) == (InFlight(s, k) && k != key)
    {
      if InFlight(s, k) && k != key {
        var u :| 0 <= u < |s.threads| && s.threads[u].Reserved? && s.threads[u].key == k;
        assert s'.threads[u] == s.threads[u];
      }
    }
    assert forall k :: Returned(s', k) == Returned(s, k);
  }

  lemma OtherStepsKeepFlights<T>(s: State<T>, step: Step<T>)
    requires Enabled(s, step) && !step.ReserveFront? && !step.ReserveBack? && !step.Link?
    ensures forall k :: InFlight(Apply(s, step), k) == InFlight(s, k)
  {
    var s' := Apply(s, step);
    forall k ensures InFlight(s', k) == InFlight(s, k) {
      if InFlight(s, k) {
        var u :| 0 <= u < |s.threads| && s.threads[u].Reserved? && s.threads[u].key == k;
        assert s'.threads[u] == s.threads[u];
      }
    }
  }

  lemma SightKeeps<T>(s: State<T>, step: Step<T>)
    requires Inv(s) && Enabled(s, step) && (step.SightFront? || step.SightBack?)
    ensures Inv(Apply(s, step))
  {
    OtherStepsKeepFlights(s, step);
    AscendEnumerates(s.data.Keys);
    assert forall k :: Returned(Apply(s, step), k) == Returned(s, k);
  }

  lemma UnlinkKeeps<T>(s: State<T>, t: nat)
    requires Inv(s) && Enabled(s, Unlink(t))
    ensures Inv(Apply(s, Unlink(t)))
  {
    var s' := Apply(s, Unlink(t));
    OtherStepsKeepFlights(s, Unlink(t));
    var key := s.threads[t].key;
    if key in s.data {
      assert s'.returned[|s.returned|].key == key;
      forall k ensures Returned(s', k) == (Returned(s, k) || k == key) {
        if Returned(s, k) {
          var i :| 0 <= i < |s.returned| && s.returned[i].key == k;
          assert s'.returned[i] == s.returned[i];
        }
      }
    }
  }

  lemma StepKeeps<T>(s: State<T>, step: Step<T>)
    requires Inv(s) && Enabled(s, step)
    ensures Inv(Apply(s, step))
  {
    match step
    case ReserveFront(_, _) => ReserveKeeps(s, step);
    case ReserveBack(_, _) => ReserveKeeps(s, step);
    case Link(t) => LinkKeeps(s, t);
    case Unlink(t) => UnlinkKeeps(s, t);
    case SightFront(_) => SightKeeps(s, step);
    case SightBack(_) => SightKeeps(s, step);
  }

  lemma {:induction false} RunKeeps<T>(s: State<T>, steps: seq<Step<T>>)
    requires Inv(s) && Legal(s, steps)
    ensures Inv(Run(s, steps))
    decreases |steps|
  {
    if steps == [] {
    } else {
      StepKeeps(s, steps[0]);
      RunKeeps(Apply(s, steps[0]), steps[1..]);
    }
  }

  /**
    * Conservation: however `n` threads interleave their pushes and pops, no
    * reserved key is shared and every push is in flight, in the map, or
    * returned by one pop - exactly one of the three - with its value intact.
    */
  lemma NothingLostOrDuplicated<T>(n: nat, steps: seq<Step<T>>)
    requires Legal(Init<T>(n), steps)
    ensures var s := Run(Init(n), steps);
            KeysIssued(s) && NoSharing(s) && ValuesKept(s) && ExactlyOnePlace(s)
  {
    RunKeeps(Init<T>(n), steps);
  }

  /** No push ever overwrites another, at any point of any run. */
  lemma NoPushOverwrites<T>(n: nat, steps: seq<Step<T>>, t: nat)
    requires Legal(Init<T>(n), steps) && Enabled(Run(Init(n), steps), Link(t))
    ensures Run(Init(n), steps).threads[t].key !in Run(Init(n), steps).data
  {
    RunKeeps(Init<T>(n), steps);
    LinkIsFresh(Run(Init(n), steps), t);
  }

  /** Once no push is in flight, the map holds exactly the pushes not yet returned. */
  lemma QuiescentContents<T>(n: nat, steps: seq<Step<T>>)
    requires Legal(Init<T>(n), steps)
    requires var s := Run(Init(n), steps); forall k :: !InFlight(s, k)
    ensures var s := Run(Init(n), steps);
            forall k :: k in s.data <==> s.head < k < s.tail && !Returned(s, k)
  {
    RunKeeps(Init<T>(n), steps);
  }

  /**
    * A pop that read an end entry comes back empty-handed exactly when another
    * pop has returned that entry in the meantime.
    */
  lemma PopMissesIffOvertaken<T>(n: nat, steps: seq<Step<T>>, t: nat)
    requires Legal(Init<T>(n), steps) && Enabled(Run(Init(n), steps), Unlink(t))
    ensures var s := Run(Init(n), steps);
            Apply(s, Unlink(t)).returned == s.returned <==> Returned(s, s.threads[t].key)
  {
    RunKeeps(Init<T>(n), steps);
    var s := Run(Init(n), steps);
    var k := s.threads[t].key;
    if k in s.data {
      assert |Apply(s, Unlink(t)).returned| == |s.returned| + 1;
    }
  }

  /** It does happen, with entries left: two pops read the same front entry. */
  lemma OvertakenPop<T>(s: State<T>)
    requires Inv(s) && |s.threads| >= 2 && s.threads[0].Idle? && s.threads[1].Idle?
    requires |Ascend(s.data.Keys)| >= 2
    ensures var steps := [SightFront(0), SightFront(1), Unlink(1)];
            && Legal(s, steps)
            && var z := Run(s, steps);
               z.threads[0].Sighted? && z.data != map[] && Apply(z, Unlink(0)).data == z.data
  {
    var keys := Ascend(s.data.Keys);
    AscendEnumerates(s.data.Keys);
    var steps := [SightFront(0), SightFront(1), Unlink(1)];
    var s1 := Apply(s, steps[0]);
    var s2 := Apply(s1, steps[1]);
    var z := Apply(s2, steps[2]);
    assert keys[0] < keys[1] && keys[1] in z.data;
    assert steps[1..][0] == steps[1] && steps[1..][1..] == [steps[2]];
    assert Legal(z, []) && Legal(s2, [steps[2]]) && Run(s2, [steps[2]]) == z;
    assert Legal(s1, steps[1..]) && Run(s1, steps[1..]) == z;
  }

  lemma TwoPushed<T>(a: T, b: T)
    ensures var push := [ReserveBack(0, a), Link(0), ReserveBack(0, b), Link(0)];
            && Legal(Init<T>(2), push)
            && var s := Run(Init<T>(2), push);
               s.threads == [Idle, Idle] && s.data == map[1 := a, 2 := b]
  {
    var s0 := Init<T>(2);
    assert s0.threads == [Idle, Idle];
    var s1 := Apply(s0, ReserveBack(0, a));
    var s2 := Apply(s1, Link(0));
    var s3 := Apply(s2, ReserveBack(0, b));
    var s4 := Apply(s3, Link(0));
    var push := [ReserveBack(0, a), Link(0), ReserveBack(0, b), Link(0)];
    assert push[1..][1..][1..][1..] == [];
    assert Legal(s4, push[1..][1..][1..][1..]);
    assert Legal(s3, push[1..][1..][1..]) && Run(s3, push[1..][1..][1..]) == s4;
    assert Legal(s2, push[1..][1..]) && Run(s2, push[1..][1..]) == s4;
    assert Legal(s1, push[1..]) && Run(s1, push[1..]) == s4;
    assert s4.threads == [Idle, Idle];
  }

  lemma InitOk<T>(n: nat)
    ensures Inv(Init<T>(n))
  {
  }

  lemma AscendTwo()
    ensures |Ascend({1} + {2})| == 2
  {
    hide Ascend;
    AscendIs({1} + {2}, [1, 2]);
  }

  /** From the empty deque: two pushes, two pops that read the same entry, and one comes back empty. */
  lemma OvertakenRun<T>(a: T, b: T)
    ensures var push := [ReserveBack(0, a), Link(0), ReserveBack(0, b), Link(0)];
            var pop := [SightFront(0), SightFront(1), Unlink(1)];
            && Legal(Init<T>(2), push) && Legal(Run(Init<T>(2), push), pop)
            && var z := Run(Run(Init<T>(2), push), pop);
               z.threads[0].Sighted? && z.data != map[] && Apply(z, Unlink(0)).data == z.data
  {
    hide Legal, Run, Apply, Inv, Ascend;
    var push := [ReserveBack(0, a), Link(0), ReserveBack(0, b), Link(0)];
    TwoPushed(a, b);
    InitOk<T>(2);
    RunKeeps(Init<T>(2), push);
    var s := Run(Init<T>(2), push);
    assert s.data.Keys == {1} + {2};
    AscendTwo();
    OvertakenPop(s);
  }
}
