/** Costs and budgets of fixtures, and the ordered packing of fixtures into batches. */
module ResourceDispatch {
  import opened Common

  /** CPU and memory as exact non-negative quantities. */
  datatype Cost = Cost(cpu: real, memory: real) {
    predicate Valid() { cpu >= 0.0 && memory >= 0.0 }

    function Plus(other: Cost): Cost { Cost(cpu + other.cpu, memory + other.memory) }

    function Minus(other: Cost): Cost { Cost(cpu - other.cpu, memory - other.memory) }
  }

  const ZERO := Cost(0.0, 0.0)

  /** None stands for an infinite budget. */
  datatype Budget = Budget(cpu: Option<real>, memory: Option<real>) {
    predicate Admits(c: Cost) {
      && (cpu.Some? ==> c.cpu <= cpu.value)
      && (memory.Some? ==> c.memory <= memory.value)
    }
  }

  function Total(costs: seq<Cost>): Cost {
    if costs == [] then ZERO else Total(costs[..|costs| - 1]).Plus(costs[|costs| - 1])
  }

  ghost predicate AllValid(costs: seq<Cost>) {
    forall i :: 0 <= i < |costs| ==> costs[i].Valid()
  }

  /** What the dispatcher rejects before it starts anything. */
  predicate Dispatchable(costs: seq<Cost>, slots: int, budget: Budget) {
    slots >= 1 && forall i :: 0 <= i < |costs| ==> budget.Admits(costs[i])
  }

  /** A batch that may run together. */
  ghost predicate Feasible(batch: seq<Cost>, slots: int, budget: Budget) {
    |batch| <= slots && budget.Admits(Total(batch))
  }

  function Flatten<T>(parts: seq<seq<T>>): seq<T> {
    if parts == [] then [] else Flatten(parts[..|parts| - 1]) + parts[|parts| - 1]
  }

  // ---- packing ----

  function Costs<T>(resources: T -> Cost, cases: seq<T>): (r: seq<Cost>)
    ensures |r| == |cases| && forall i :: 0 <= i < |cases| ==> r[i] == resources(cases[i])
  {
    seq(|cases|, i requires 0 <= i < |cases| => resources(cases[i]))
  }

  ghost predicate FeasibleCases<T>(resources: T -> Cost, batch: seq<T>, slots: int, budget: Budget) {
    Feasible(Costs(resources, batch), slots, budget)
  }

  ghost predicate AllFeasible<T>(resources: T -> Cost, split: seq<seq<T>>, slots: int, budget: Budget) {
    forall i :: 0 <= i < |split| ==> FeasibleCases(resources, split[i], slots, budget)
  }

  /** A split of the cases, in order, into batches that may each run together. */
  ghost predicate FeasibleSplit<T>(resources: T -> Cost, cases: seq<T>, slots: int, budget: Budget,
                                   split: seq<seq<T>>) {
    && Flatten(split) == cases
    && AllFeasible(resources, split, slots, budget)
  }

  /** Some batches cover a prefix of the cases, each of them feasible. */
  ghost predicate CoversPrefix<T>(resources: T -> Cost, cases: seq<T>, slots: int, budget: Budget, split: seq<seq<T>>) {
    && Flatten(split) <= cases
    && AllFeasible(resources, split, slots, budget)
  }

  /** No equally many feasible batches reach further into the cases. */
  ghost predicate StaysAhead<T(!new)>(resources: T -> Cost, cases: seq<T>, slots: int, budget: Budget,
                                      done: seq<seq<T>>) {
    forall split {:trigger CoversPrefix(resources, cases, slots, budget, split)} ::
      CoversPrefix(resources, cases, slots, budget, split) && |split| <= |done| ==> |Flatten(split)| <= |Flatten(done)|
  }

  lemma PlusAssociates(a: Cost, b: Cost, c: Cost)
    ensures a.Plus(b).Plus(c) == a.Plus(b.Plus(c))
  {
  }

  lemma {:induction false} TotalOfConcat(a: seq<Cost>, b: seq<Cost>)
    ensures Total(a + b) == Total(a).Plus(Total(b))
  {
    if b == [] {
      assert a + b == a;
    } else {
      var all, front, last := a + b, b[..|b| - 1], b[|b| - 1];
      assert all[..|all| - 1] == a + front && all[|all| - 1] == last;
      TotalOfConcat(a, front);
      PlusAssociates(Total(a), Total(front), last);
    }
  }

  lemma {:induction false} TotalIsValid(costs: seq<Cost>)
    requires AllValid(costs)
    ensures Total(costs).Valid()
  {
    if costs != [] {
      TotalIsValid(costs[..|costs| - 1]);
    }
  }

  /** With non-negative costs a longer run costs at least as much. */
  lemma {:induction false} LongerRunCostsMore(costs: seq<Cost>, i: nat, j: nat)
    requires AllValid(costs) && i <= j <= |costs|
    ensures Total(costs[i..j]).cpu <= Total(costs).cpu && Total(costs[i..j]).memory <= Total(costs).memory
  {
    TotalOfConcat(costs[..i], costs[i..j]);
    TotalOfConcat(costs[..i] + costs[i..j], costs[j..]);
    assert costs[..i] + costs[i..j] + costs[j..] == costs;
    TotalIsValid(costs[..i]);
    TotalIsValid(costs[j..]);
  }

  lemma {:induction false} CostsOfSlice<T>(resources: T -> Cost, cases: seq<T>, i: nat, j: nat)
    requires i <= j <= |cases|
    ensures Costs(resources, cases[i..j]) == Costs(resources, cases)[i..j]
  {
  }

  lemma {:induction false} SlicesAreValid(costs: seq<Cost>, i: nat, j: nat)
    requires AllValid(costs) && i <= j <= |costs|
    ensures AllValid(costs[i..j])
  {
  }

  /** Part of a feasible batch is feasible. */
  lemma {:induction false} PartIsFeasible<T>(resources: T -> Cost, batch: seq<T>, i: nat, j: nat, slots: int,
                                             budget: Budget)
    requires AllValid(Costs(resources, batch)) && i <= j <= |batch| && FeasibleCases(resources, batch, slots, budget)
    ensures FeasibleCases(resources, batch[i..j], slots, budget)
  {
    CostsOfSlice(resources, batch, i, j);
    LongerRunCostsMore(Costs(resources, batch), i, j);
  }

  /** A feasible batch of consecutive cases ends before any infeasible run it would contain. */
  lemma {:induction false} FeasibleBatchEndsBefore<T>(resources: T -> Cost, cases: seq<T>, from: nat, to: nat, lo: nat,
                                                      hi: nat, slots: int, budget: Budget)
    requires AllValid(Costs(resources, cases)) && from <= lo <= hi <= |cases| && from <= to <= |cases|
    requires FeasibleCases(resources, cases[from..to], slots, budget)
    requires !FeasibleCases(resources, cases[lo..hi], slots, budget)
    ensures to < hi
  {
    if hi <= to {
      CostsOfSlice(resources, cases, from, to);
      SlicesAreValid(Costs(resources, cases), from, to);
      assert cases[lo..hi] == cases[from..to][lo - from..hi - from];
      PartIsFeasible(resources, cases[from..to], lo - from, hi - from, slots, budget);
      assert false;
    }
  }

  /** The last batch of a split that covers a prefix is a slice of the cases. */
  lemma {:induction false} LastBatchIsASlice<T>(resources: T -> Cost, cases: seq<T>, slots: int, budget: Budget,
                                                split: seq<seq<T>>)
    requires split != [] && CoversPrefix(resources, cases, slots, budget, split)
    ensures var before, last := split[..|split| - 1], split[|split| - 1];
            var from := |Flatten(before)|;
            && CoversPrefix(resources, cases, slots, budget, before)
            && from + |last| == |Flatten(split)| <= |cases| && last == cases[from..from + |last|]
            && FeasibleCases(resources, last, slots, budget)
  {
    var before, last := split[..|split| - 1], split[|split| - 1];
    assert Flatten(split) == Flatten(before) + last;
    assert forall i :: 0 <= i < |before| ==> before[i] == split[i];
  }

  /** One more batch of any other split ends before the end of an infeasible run that starts where the packer is. */
  lemma {:induction false} OneMoreBatch<T(!new)>(resources: T -> Cost, cases: seq<T>, slots: int, budget: Budget,
                              done: seq<seq<T>>, hi: nat, split: seq<seq<T>>)
    requires AllValid(Costs(resources, cases)) && StaysAhead(resources, cases, slots, budget, done)
    requires |Flatten(done)| < hi <= |cases|
    requires !FeasibleCases(resources, cases[|Flatten(done)|..hi], slots, budget)
    requires CoversPrefix(resources, cases, slots, budget, split) && |split| <= |done| + 1
    ensures |Flatten(split)| < hi
  {
    if split != [] {
      var before := split[..|split| - 1];
      LastBatchIsASlice(resources, cases, slots, budget, split);
      assert |Flatten(before)| <= |Flatten(done)|;
      FeasibleBatchEndsBefore(resources, cases, |Flatten(before)|, |Flatten(split)|, |Flatten(done)|, hi,
                              slots, budget);
    }
  }

  /** Closing a batch only when the next case does not fit keeps the packer ahead. */
  lemma {:induction false} ClosingStaysAhead<T(!new)>(resources: T -> Cost, cases: seq<T>, slots: int, budget: Budget,
                                   done: seq<seq<T>>, batch: seq<T>, next: T)
    requires AllValid(Costs(resources, cases)) && Flatten(done) + batch + [next] <= cases
    requires StaysAhead(resources, cases, slots, budget, done)
    requires !FeasibleCases(resources, batch + [next], slots, budget)
    ensures StaysAhead(resources, cases, slots, budget, done + [batch])
  {
    var reached, hi := |Flatten(done)|, |Flatten(done)| + |batch| + 1;
    assert cases[reached..hi] == batch + [next];
    assert (done + [batch])[..|done|] == done;
    assert |Flatten(done + [batch])| == hi - 1;
    forall split | CoversPrefix(resources, cases, slots, budget, split) && |split| <= |done + [batch]|
      ensures |Flatten(split)| <= |Flatten(done + [batch])|
    {
      OneMoreBatch(resources, cases, slots, budget, done, hi, split);
    }
  }

  /** What the packer holds after some cases: closed batches and the open one with its cost. */
  ghost predicate Packed<T>(resources: T -> Cost, cases: seq<T>, slots: int, budget: Budget,
                            done: seq<seq<T>>, batch: seq<T>, used: Cost) {
    && Flatten(done) + batch == cases
    && (cases != [] ==> batch != []) && [] !in done
    && AllFeasible(resources, done, slots, budget)
    && (batch != [] ==> FeasibleCases(resources, batch, slots, budget))
    && used == Total(Costs(resources, batch))
  }

  /** The test for closing the open batch is the feasibility of the batch with the next case. */
  lemma {:induction false} FitsMeansFeasible<T>(resources: T -> Cost, slots: int, budget: Budget, batch: seq<T>,
                                                next: T)
    ensures var used := Total(Costs(resources, batch)).Plus(resources(next));
            && Total(Costs(resources, batch + [next])) == used
            && (FeasibleCases(resources, batch + [next], slots, budget) <==> |batch| < slots && budget.Admits(used))
  {
    assert Costs(resources, batch + [next])[..|batch|] == Costs(resources, batch);
  }

  lemma {:induction false} PackedExtends<T>(resources: T -> Cost, cases: seq<T>, slots: int, budget: Budget,
                         done: seq<seq<T>>, batch: seq<T>, used: Cost, next: T)
    requires Packed(resources, cases, slots, budget, done, batch, used)
    requires FeasibleCases(resources, batch + [next], slots, budget)
    ensures Packed(resources, cases + [next], slots, budget, done, batch + [next], used.Plus(resources(next)))
  {
    FitsMeansFeasible(resources, slots, budget, batch, next);
    assert Flatten(done) + (batch + [next]) == cases + [next];
  }

  lemma {:induction false} PackedCloses<T>(resources: T -> Cost, cases: seq<T>, slots: int, budget: Budget,
                        done: seq<seq<T>>, batch: seq<T>, used: Cost, next: T)
    requires Packed(resources, cases, slots, budget, done, batch, used) && batch != []
    requires FeasibleCases(resources, [next], slots, budget)
    ensures Packed(resources, cases + [next], slots, budget, done + [batch], [next], ZERO.Plus(resources(next)))
  {
    FitsMeansFeasible(resources, slots, budget, [], next);
    assert [] + [next] == [next];
    assert (done + [batch])[..|done|] == done;
  }

  /** With non-negative costs the closed batches are ahead of any other feasible ones. */
  ghost predicate Ahead<T(!new)>(resources: T -> Cost, cases: seq<T>, slots: int, budget: Budget, done: seq<seq<T>>) {
    AllValid(Costs(resources, cases)) ==> StaysAhead(resources, cases, slots, budget, done)
  }

  predicate MustClose(slots: int, budget: Budget, size: nat, used: Cost) {
    size != 0 && (size == slots || !budget.Admits(used))
  }

  /** The next case is added to the open batch, or closes it and opens the next one. */
  lemma {:induction false} PackNext<T>(resources: T -> Cost, cases: seq<T>, slots: int, budget: Budget,
                    done: seq<seq<T>>, batch: seq<T>, used: Cost, next: T)
    requires slots >= 1 && budget.Admits(resources(next)) && Packed(resources, cases, slots, budget, done, batch, used)
    ensures var sum := used.Plus(resources(next));
            if MustClose(slots, budget, |batch|, sum) then
              && Packed(resources, cases + [next], slots, budget, done + [batch], [next], ZERO.Plus(resources(next)))
              && !FeasibleCases(resources, batch + [next], slots, budget)
            else
              Packed(resources, cases + [next], slots, budget, done, batch + [next], sum)
  {
    FitsMeansFeasible(resources, slots, budget, batch, next);
    FitsMeansFeasible(resources, slots, budget, [], next);
    assert [] + [next] == [next];
    if MustClose(slots, budget, |batch|, used.Plus(resources(next))) {
      PackedCloses(resources, cases, slots, budget, done, batch, used, next);
    } else {
      PackedExtends(resources, cases, slots, budget, done, batch, used, next);
    }
  }

  lemma {:induction false} PackOne<T(!new)>(resources: T -> Cost, cases: seq<T>, n: nat, slots: int, budget: Budget,
                         done: seq<seq<T>>, batch: seq<T>, used: Cost)
    requires Dispatchable(Costs(resources, cases), slots, budget) && n < |cases|
    requires Packed(resources, cases[..n], slots, budget, done, batch, used)
    requires Ahead(resources, cases, slots, budget, done)
    ensures var (next, cost) := (cases[n], resources(cases[n]));
            if MustClose(slots, budget, |batch|, used.Plus(cost)) then
              && Packed(resources, cases[..n + 1], slots, budget, done + [batch], [next], ZERO.Plus(cost))
              && Ahead(resources, cases, slots, budget, done + [batch])
            else
              Packed(resources, cases[..n + 1], slots, budget, done, batch + [next], used.Plus(cost))
  {
    var next := cases[n];
    assert Costs(resources, cases)[n] == resources(next);
    PackNext(resources, cases[..n], slots, budget, done, batch, used, next);
    assert cases[..n] + [next] == cases[..n + 1];
    if MustClose(slots, budget, |batch|, used.Plus(resources(next))) && AllValid(Costs(resources, cases)) {
      assert Flatten(done) + batch + [next] <= cases;
      ClosingStaysAhead(resources, cases, slots, budget, done, batch, next);
    }
  }

  function Closed<T>(done: seq<seq<T>>, batch: seq<T>): seq<seq<T>> {
    if |batch| == 0 then done else done + [batch]
  }

  ghost predicate Minimal<T(!new)>(resources: T -> Cost, cases: seq<T>, slots: int, budget: Budget,
                                   batches: seq<seq<T>>) {
    forall split :: FeasibleSplit(resources, cases, slots, budget, split) ==> |batches| <= |split|
  }

  lemma {:induction false} PackedIsASplit<T>(resources: T -> Cost, cases: seq<T>, slots: int, budget: Budget,
                          done: seq<seq<T>>, batch: seq<T>, used: Cost)
    requires Packed(resources, cases, slots, budget, done, batch, used)
    ensures FeasibleSplit(resources, cases, slots, budget, Closed(done, batch)) && [] !in Closed(done, batch)
  {
    if batch != [] {
      assert (done + [batch])[..|done|] == done;
    } else {
      assert Flatten(done) + batch == Flatten(done);
    }
  }

  /** A packer that is ahead before its last batch has used the fewest batches. */
  lemma {:induction false} PackedIsMinimal<T(!new)>(resources: T -> Cost, cases: seq<T>, slots: int, budget: Budget,
                                 done: seq<seq<T>>, batch: seq<T>, used: Cost)
    requires Packed(resources, cases, slots, budget, done, batch, used)
    requires StaysAhead(resources, cases, slots, budget, done)
    ensures Minimal(resources, cases, slots, budget, Closed(done, batch))
  {
    forall split | FeasibleSplit(resources, cases, slots, budget, split)
      ensures |Closed(done, batch)| <= |split|
    {
      assert CoversPrefix(resources, cases, slots, budget, split);
      if batch == [] {
        assert Flatten(done) == [];
        assert done == [];
      }
    }
  }

  /** Pack ordered batches greedily; with non-negative costs no split needs fewer. */
  method ResourceBatches<T(!new)>(cases: seq<T>, slots: int, resources: T -> Cost, budget: Budget)
    returns (r: Result<seq<seq<T>>>)
    ensures r.Ok? <==> Dispatchable(Costs(resources, cases), slots, budget)
    ensures r.Ok? ==> FeasibleSplit(resources, cases, slots, budget, r.value) && [] !in r.value
    ensures r.Ok? && AllValid(Costs(resources, cases)) ==> Minimal(resources, cases, slots, budget, r.value)
  {
    if !Dispatchable(Costs(resources, cases), slots, budget) {
      return Error("fixture exceeds the dispatch resource budget");
    }
    var done: seq<seq<T>>, batch: seq<T>, used := [], [], ZERO;
    for n := 0 to |cases|
      invariant Packed(resources, cases[..n], slots, budget, done, batch, used)
      invariant Ahead(resources, cases, slots, budget, done)
    {
      var cost := resources(cases[n]);
      PackOne(resources, cases, n, slots, budget, done, batch, used);
      if MustClose(slots, budget, |batch|, used.Plus(cost)) {
        done, batch, used := done + [batch], [], ZERO;
      }
      batch := batch + [cases[n]];
      used := used.Plus(cost);
    }
    assert cases[..|cases|] == cases;
    PackedIsASplit(resources, cases, slots, budget, done, batch, used);
    if AllValid(Costs(resources, cases)) {
      PackedIsMinimal(resources, cases, slots, budget, done, batch, used);
    }
    if batch != [] {
      done := done + [batch];
    }
    r := Ok(done);
  }
}
