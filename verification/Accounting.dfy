// Usage accounting of the live case driver: two lower bounds on what a case spent are
// joined into one.
module Accounting {
  // Missing entries count as 0.
  datatype Spend = Spend(input: int, output: int, reasoning: int, cached: int, total: int, billedCost: real)

  function Max(a: int, b: int): int { if a < b then b else a }

  function MaxCost(a: real, b: real): real { if a < b then b else a }

  function Parts(s: Spend): int { s.input + s.output + s.reasoning }

  // The total covers the parts.
  predicate Sound(s: Spend) { Parts(s) <= s.total }

  predicate AtMost(a: Spend, b: Spend) {
    && a.input <= b.input && a.output <= b.output && a.reasoning <= b.reasoning && a.cached <= b.cached
    && a.total <= b.total && a.billedCost <= b.billedCost
  }

  // _merge_accounting_lower_bounds
  function Merge(a: Spend, b: Spend): Spend {
    var input, output, reasoning := Max(a.input, b.input), Max(a.output, b.output), Max(a.reasoning, b.reasoning);
    Spend(input, output, reasoning, Max(a.cached, b.cached),
          Max(Max(input + output + reasoning, a.total), b.total), MaxCost(a.billedCost, b.billedCost))
  }

  // The least sound record above both.
  lemma MergeIsLeastUpperBound(a: Spend, b: Spend, c: Spend)
    ensures Sound(Merge(a, b)) && AtMost(a, Merge(a, b)) && AtMost(b, Merge(a, b))
    ensures Sound(c) ==> (AtMost(Merge(a, b), c) <==> AtMost(a, c) && AtMost(b, c))
  {
  }

  lemma MergeIsSemilattice(a: Spend, b: Spend, c: Spend)
    ensures Merge(a, b) == Merge(b, a)
    ensures Merge(Merge(a, b), c) == Merge(a, Merge(b, c))
    ensures Merge(a, a) == a <==> Sound(a)
  {
  }

  // Order does not matter over any number of bounds either: a join of all of them is
  // above each, and below every sound record that is.
  function MergeAll(first: Spend, more: seq<Spend>): Spend {
    if more == [] then first else Merge(MergeAll(first, more[..|more| - 1]), more[|more| - 1])
  }

  lemma {:induction false} MergeAllIsLeast(first: Spend, more: seq<Spend>, c: Spend)
    requires Sound(c)
    ensures |more| > 0 ==>
      (AtMost(MergeAll(first, more), c) <==> AtMost(first, c) && forall i :: 0 <= i < |more| ==> AtMost(more[i], c))
  {
    hide AtMost, Merge, Sound;
    if more != [] {
      var init, last := more[..|more| - 1], more[|more| - 1];
      MergeAllIsLeast(first, init, c);
      MergeIsLeastUpperBound(MergeAll(first, init), last, c);
      if init == [] { assert MergeAll(first, init) == first; }
      assert more == init + [last];
    }
  }
}
