/** The order in which the modes of a task are shown (SortMode in common_utils.cpp). */
module Modes {
  import opened TaskTable

  /** Modes shown first, in this order. */
  const TARGET: seq<nat> := [DATA_TRANSFER, AUDIO_RECORDING, LOCATION]

  /** The target modes that occur, each once. */
  function Leading(target: seq<nat>, modes: seq<nat>): seq<nat> {
    if target == [] then []
    else Leading(target[..|target| - 1], modes) + if target[|target| - 1] in modes then [target[|target| - 1]] else []
  }

  /** The other modes, as they come. */
  function Others(target: seq<nat>, modes: seq<nat>): seq<nat> {
    if modes == [] then []
    else Others(target, modes[..|modes| - 1]) + if modes[|modes| - 1] in target then [] else [modes[|modes| - 1]]
  }

  function Sorted(modes: seq<nat>): seq<nat> {
    Leading(TARGET, modes) + Others(TARGET, modes)
  }

  method SortMode(modes: seq<nat>) returns (result: seq<nat>)
    ensures result == Sorted(modes)
  {
    result := [];
    var i := 0;
    while i < |TARGET|
      invariant 0 <= i <= |TARGET| && result == Leading(TARGET[..i], modes)
    {
      assert TARGET[..i + 1][..i] == TARGET[..i];
      if TARGET[i] in modes {
        result := result + [TARGET[i]];
      }
      i := i + 1;
    }
    assert TARGET[..|TARGET|] == TARGET;
    i := 0;
    while i < |modes|
      invariant 0 <= i <= |modes| && result == Leading(TARGET, modes) + Others(TARGET, modes[..i])
    {
      assert modes[..i + 1][..i] == modes[..i];
      if modes[i] !in TARGET {
        result := result + [modes[i]];
      }
      i := i + 1;
    }
    assert modes[..|modes|] == modes;
  }

  lemma CountSnoc(a: seq<nat>, x: nat, m: nat)
    ensures multiset(a + [x])[m] == multiset(a)[m] + if m == x then 1 else 0
  {
  }

  lemma CountConcat(a: seq<nat>, b: seq<nat>, m: nat)
    ensures multiset(a + b)[m] == multiset(a)[m] + multiset(b)[m]
  {
  }

  lemma {:induction false} LeadingCount(target: seq<nat>, modes: seq<nat>, m: nat)
    requires forall i, j :: 0 <= i < j < |target| ==> target[i] != target[j]
    ensures multiset(Leading(target, modes))[m] == if m in target && m in modes then 1 else 0
  {
    if target != [] {
      var n := |target| - 1;
      LeadingCount(target[..n], modes, m);
      assert target == target[..n] + [target[n]];
      assert m in target[..n] ==> m != target[n];
    }
  }

  lemma {:induction false} OthersCount(target: seq<nat>, modes: seq<nat>, m: nat)
    ensures multiset(Others(target, modes))[m] == if m in target then 0 else multiset(modes)[m]
  {
    if modes != [] {
      var n := |modes| - 1;
      OthersCount(target, modes[..n], m);
      assert modes == modes[..n] + [modes[n]];
      CountSnoc(modes[..n], modes[n], m);
      if modes[n] !in target {
        CountSnoc(Others(target, modes[..n]), modes[n], m);
      }
    }
  }

  /** How often each mode occurs afterwards: a target mode once if it occurred, any other as often as before. */
  lemma SortedCount(modes: seq<nat>, m: nat)
    ensures multiset(Sorted(modes))[m] == if m in TARGET then (if m in modes then 1 else 0) else multiset(modes)[m]
  {
    hide Leading, Others;
    LeadingCount(TARGET, modes, m);
    OthersCount(TARGET, modes, m);
    CountConcat(Leading(TARGET, modes), Others(TARGET, modes), m);
  }

  /** No mode is lost or invented, and sorting is a permutation exactly when no target mode is repeated. */
  lemma SortedSame(modes: seq<nat>)
    ensures forall m :: m in Sorted(modes) <==> m in modes
    ensures multiset(Sorted(modes)) == multiset(modes) <==> forall m :: m in TARGET ==> multiset(modes)[m] <= 1
  {
    forall m ensures m in Sorted(modes) <==> m in modes {
      SortedCount(modes, m);
      assert m in Sorted(modes) <==> multiset(Sorted(modes))[m] > 0;
      assert m in modes <==> multiset(modes)[m] > 0;
    }
    forall m: nat
      ensures multiset(Sorted(modes))[m] == multiset(modes)[m] <==> m !in TARGET || multiset(modes)[m] <= 1
    {
      SortedCount(modes, m);
      assert m in modes <==> multiset(modes)[m] > 0;
    }
  }
}
