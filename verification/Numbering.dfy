// How ids are handed out: `incr` (src/stores/inmemory_store.rs) bumps a shared
// counter and then reads it back, in two steps that other threads can separate.
module Numbering {
  datatype Step = Bump(t: nat) | Read(t: nat)

  /** `inside` holds the threads between their two steps; `issued` the ids handed out, in order. */
  datatype Counter = Counter(value: nat, inside: set<nat>, issued: seq<nat>)

  const FRESH := Counter(0, {}, [])

  predicate Enabled(c: Counter, step: Step) {
    match step
    case Bump(t) => t !in c.inside
    case Read(t) => t in c.inside
  }

  function Apply(c: Counter, step: Step): Counter
    requires Enabled(c, step)
  {
    match step
    case Bump(t) => c.(value := c.value + 1, inside := c.inside + {t})
    case Read(t) => c.(inside := c.inside - {t}, issued := c.issued + [c.value])
  }

  predicate Runs(c: Counter, steps: seq<Step>)
    decreases |steps|
  {
    steps == [] || (Enabled(c, steps[0]) && Runs(Apply(c, steps[0]), steps[1..]))
  }

  function Run(c: Counter, steps: seq<Step>): Counter
    requires Runs(c, steps)
    decreases |steps|
  {
    if steps == [] then c else Run(Apply(c, steps[0]), steps[1..])
  }

  /** Nobody bumps the counter while another thread is between its two steps. */
  predicate Serialised(c: Counter, steps: seq<Step>)
    requires Runs(c, steps)
    decreases |steps|
  {
    steps == [] || ((steps[0].Bump? ==> c.inside == {}) && Serialised(Apply(c, steps[0]), steps[1..]))
  }

  predicate Distinct(s: seq<nat>) {
    forall i, j :: 0 <= i < j < |s| ==> s[i] != s[j]
  }

  /** The ids 1, 2, 3, ... in order. */
  predicate InTurn(s: seq<nat>) {
    forall i :: 0 <= i < |s| ==> s[i] == i + 1
  }

  ghost predicate Inv(c: Counter) {
    && c.value == |c.issued| + |c.inside|
    && (forall i :: 0 <= i < |c.issued| ==> 1 <= c.issued[i] <= c.value)
    && (forall i, j :: 0 <= i < j < |c.issued| ==> c.issued[i] <= c.issued[j])
  }

  lemma StepKeeps(c: Counter, step: Step)
    requires Inv(c) && Enabled(c, step)
    ensures Inv(Apply(c, step)) && c.issued <= Apply(c, step).issued
  {
  }

  lemma {:induction false} RunKeeps(c: Counter, steps: seq<Step>)
    requires Inv(c) && Runs(c, steps)
    ensures Inv(Run(c, steps)) && c.issued <= Run(c, steps).issued
    decreases |steps|
  {
    if steps == [] {
    } else {
      StepKeeps(c, steps[0]);
      RunKeeps(Apply(c, steps[0]), steps[1..]);
    }
  }

  lemma {:induction false} SerialisedInTurn(c: Counter, steps: seq<Step>)
    requires Inv(c) && InTurn(c.issued) && |c.inside| <= 1 && Runs(c, steps) && Serialised(c, steps)
    ensures InTurn(Run(c, steps).issued)
    decreases |steps|
  {
    if steps == [] {
    } else {
      StepKeeps(c, steps[0]);
      SerialisedInTurn(Apply(c, steps[0]), steps[1..]);
    }
  }

  /** Once two threads are inside, the next id skips a number. */
  lemma {:induction false} CrowdSkips(c: Counter, steps: seq<Step>)
    requires Inv(c) && |c.inside| >= 2 && Runs(c, steps) && Run(c, steps).inside == {}
    ensures |c.issued| < |Run(c, steps).issued| && Run(c, steps).issued[|c.issued|] > |c.issued| + 1
    decreases |steps|
  {
    if steps == [] {
    } else {
      var next := Apply(c, steps[0]);
      StepKeeps(c, steps[0]);
      if steps[0].Bump? {
        CrowdSkips(next, steps[1..]);
      } else {
        RunKeeps(next, steps[1..]);
        assert next.issued[|c.issued|] == c.value;
      }
    }
  }

  lemma {:induction false} CrowdedSkips(c: Counter, steps: seq<Step>)
    requires Inv(c) && |c.inside| <= 1 && Runs(c, steps) && Run(c, steps).inside == {} && !Serialised(c, steps)
    ensures !InTurn(Run(c, steps).issued)
    decreases |steps|
  {
    var next := Apply(c, steps[0]);
    StepKeeps(c, steps[0]);
    if steps[0].Bump? && c.inside != {} {
      CrowdSkips(next, steps[1..]);
    } else {
      CrowdedSkips(next, steps[1..]);
    }
  }

  /** Distinct ids from a quiet counter leave no gaps. */
  lemma {:induction false} DistinctFrom(c: Counter, i: nat)
    requires Inv(c) && Distinct(c.issued) && c.inside == {} && i < |c.issued|
    ensures c.issued[i] >= i + 1
    decreases i
  {
    if i == 0 {
    } else {
      DistinctFrom(c, i - 1);
    }
  }

  lemma {:induction false} DistinctTo(c: Counter, i: nat)
    requires Inv(c) && Distinct(c.issued) && c.inside == {} && i < |c.issued|
    ensures c.issued[i] <= i + 1
    decreases |c.issued| - i
  {
    if i + 1 == |c.issued| {
    } else {
      DistinctTo(c, i + 1);
      assert c.issued[i] < c.issued[i + 1];
    }
  }

  /**
    * For any number of threads and any interleaving that has run to completion, no
    * id was handed out twice if and only if the insertions were serialised; the ids
    * are then 1, 2, 3, ... in order.
    */
  lemma DistinctIffSerialised(steps: seq<Step>)
    requires Runs(FRESH, steps) && Run(FRESH, steps).inside == {}
    ensures Distinct(Run(FRESH, steps).issued) <==> Serialised(FRESH, steps)
    ensures Serialised(FRESH, steps) ==> InTurn(Run(FRESH, steps).issued)
  {
    var c := Run(FRESH, steps);
    RunKeeps(FRESH, steps);
    if Serialised(FRESH, steps) {
      SerialisedInTurn(FRESH, steps);
    } else {
      CrowdedSkips(FRESH, steps);
      if Distinct(c.issued) {
        forall i | 0 <= i < |c.issued| ensures c.issued[i] == i + 1 {
          DistinctFrom(c, i);
          DistinctTo(c, i);
        }
      }
    }
  }

  /** Two threads bump before either reads: both are given id 2. */
  lemma RaceRepeatsId()
    ensures var steps := [Bump(0), Bump(1), Read(0), Read(1)];
            Runs(FRESH, steps) && Run(FRESH, steps).issued == [2, 2]
  {
    var steps := [Bump(0), Bump(1), Read(0), Read(1)];
    assert steps[1..] == [Bump(1), Read(0), Read(1)];
    assert steps[1..][1..] == [Read(0), Read(1)];
    assert steps[1..][1..][1..] == [Read(1)];
  }
}
