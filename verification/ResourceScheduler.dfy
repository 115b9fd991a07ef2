/** First-come admission of fixtures under a slot cap and a two-dimensional budget. */
module ResourceScheduler {
  import opened Common
  import opened ResourceDispatch

  /**
   The dispatcher between two effects. A future is named by the position of its case
   in the input; completed lists futures in the order their results were taken.
   */
  datatype Snapshot<T, E> = Snapshot(
    pending: seq<T>, submitted: seq<T>, active: map<nat, Cost>, used: Cost, completed: seq<nat>, errors: seq<E>)

  /** Sum of the costs of the running futures below n. */
  ghost function RunningCost(active: map<nat, Cost>, n: nat): Cost {
    if n == 0 then ZERO
    else RunningCost(active, n - 1).Plus(if n - 1 in active then active[n - 1] else ZERO)
  }

  function Failures<E>(outcome: nat -> Option<E>, completed: seq<nat>): seq<E> {
    if completed == [] then []
    else
      var last := completed[|completed| - 1];
      Failures(outcome, completed[..|completed| - 1]) + if outcome(last).Some? then [outcome(last).value] else []
  }

  ghost predicate Distinct(s: seq<nat>) {
    forall i, j :: 0 <= i < j < |s| ==> s[i] != s[j]
  }

  /** One dispatch: its inputs, and how each case will end. */
  datatype Job<!T, !E> = Job(cases: seq<T>, slots: int, resources: T -> Cost, budget: Budget, outcome: nat -> Option<E>)

  ghost predicate NonNegative<T, E>(job: Job<T, E>) {
    AllValid(Costs(job.resources, job.cases)) && job.budget.Admits(ZERO)
  }

  /** Cases leave the queue in input order, and each of them is running or completed, once. */
  ghost predicate Accounted<T, E>(job: Job<T, E>, s: Snapshot<T, E>) {
    && s.submitted + s.pending == job.cases
    && (forall f: nat :: f < |s.submitted| ==> f in s.active || f in s.completed)
    && (forall f: nat :: f in s.active ==>
          f < |s.submitted| && f !in s.completed && s.active[f] == job.resources(job.cases[f]))
    && (forall i :: 0 <= i < |s.completed| ==> s.completed[i] < |s.submitted|)
    && Distinct(s.completed)
    && s.errors == Failures(job.outcome, s.completed)
  }

  /** The budget in use is the sum over the running cases and stays within its limits. */
  ghost predicate WithinLimits<T, E>(job: Job<T, E>, s: Snapshot<T, E>) {
    && |s.active| <= job.slots
    && s.used == RunningCost(s.active, |s.submitted|)
    && (NonNegative(job) ==> job.budget.Admits(s.used))
  }

  ghost predicate Safe<T, E>(job: Job<T, E>, s: Snapshot<T, E>) {
    Accounted(job, s) && WithinLimits(job, s)
  }

  /** The head of the queue starts, and only when a slot and the budget are free. */
  ghost predicate Submits<T, E>(job: Job<T, E>, s: Snapshot<T, E>, s': Snapshot<T, E>) {
    && s.pending != [] && |s.active| < job.slots
    && job.budget.Admits(s.used.Plus(job.resources(s.pending[0])))
    && s' == s.(pending := s.pending[1..], submitted := s.submitted + [s.pending[0]],
                active := s.active[|s.submitted| := job.resources(s.pending[0])],
                used := s.used.Plus(job.resources(s.pending[0])))
  }

  function Finish<T, E>(outcome: nat -> Option<E>, s: Snapshot<T, E>, f: nat): Snapshot<T, E>
    requires f in s.active
  {
    s.(active := s.active - {f}, used := s.used.Minus(s.active[f]), completed := s.completed + [f],
       errors := s.errors + if outcome(f).Some? then [outcome(f).value] else [])
  }

  lemma {:induction false} RunningCostIgnoresRest(a: map<nat, Cost>, b: map<nat, Cost>, n: nat)
    requires forall f: nat :: f < n ==> (f in a <==> f in b) && (f in a ==> a[f] == b[f])
    ensures RunningCost(a, n) == RunningCost(b, n)
  {
    if n > 0 { RunningCostIgnoresRest(a, b, n - 1); }
  }

  lemma {:induction false} RunningCostWithout(active: map<nat, Cost>, f: nat, n: nat)
    requires f in active && f < n
    ensures RunningCost(active - {f}, n) == RunningCost(active, n).Minus(active[f])
  {
    if f == n - 1 {
      RunningCostIgnoresRest(active - {f}, active, n - 1);
    } else {
      RunningCostWithout(active, f, n - 1);
    }
  }

  lemma {:induction false} RunningCostIsValid(active: map<nat, Cost>, n: nat)
    requires forall f: nat :: f in active ==> active[f].Valid()
    ensures RunningCost(active, n).Valid()
  {
    if n > 0 { RunningCostIsValid(active, n - 1); }
  }

  /** With nothing running, nothing is used, so the head of the queue fits. */
  lemma {:induction false} IdleUsesNothing(n: nat)
    ensures RunningCost(map[], n) == ZERO
  {
    if n > 0 { IdleUsesNothing(n - 1); }
  }

  lemma {:induction false} SubmitIsAccounted<T, E>(job: Job<T, E>, s: Snapshot<T, E>, s': Snapshot<T, E>)
    requires Accounted(job, s) && Submits(job, s, s')
    ensures Accounted(job, s')
  {
    assert job.cases[|s.submitted|] == s.pending[0];
    assert s'.submitted + s'.pending == job.cases;
  }

  lemma {:induction false} SubmitStaysWithin<T, E>(job: Job<T, E>, s: Snapshot<T, E>, s': Snapshot<T, E>)
    requires WithinLimits(job, s) && Submits(job, s, s') && |s.submitted| !in s.active
    ensures WithinLimits(job, s')
  {
    RunningCostIgnoresRest(s.active, s'.active, |s.submitted|);
  }

  lemma {:induction false} FinishIsAccounted<T, E>(job: Job<T, E>, s: Snapshot<T, E>, f: nat)
    requires Accounted(job, s) && f in s.active
    ensures Accounted(job, Finish(job.outcome, s, f))
  {
    var s' := Finish(job.outcome, s, f);
    assert s'.completed[..|s.completed|] == s.completed;
    assert s'.completed[|s.completed|] == f;
  }

  lemma {:induction false} FinishStaysWithin<T, E>(job: Job<T, E>, s: Snapshot<T, E>, f: nat)
    requires WithinLimits(job, s) && f in s.active && f < |s.submitted|
    requires NonNegative(job) ==> s.active[f].Valid()
    ensures WithinLimits(job, Finish(job.outcome, s, f))
  {
    RunningCostWithout(s.active, f, |s.submitted|);
    assert s.active.Keys == (s.active - {f}).Keys + {f};
  }

  lemma {:induction false} StepIsSafe<T, E>(job: Job<T, E>, s: Snapshot<T, E>, s': Snapshot<T, E>)
    requires Safe(job, s) && Advances(job, s, s')
    ensures Safe(job, s')
  {
    if Submits(job, s, s') {
      SubmitIsAccounted(job, s, s');
      SubmitStaysWithin(job, s, s');
    } else {
      var f: nat :| f in s.active && s' == Finish(job.outcome, s, f);
      FinishIsAccounted(job, s, f);
      assert s.active[f] == Costs(job.resources, job.cases)[f];
      FinishStaysWithin(job, s, f);
    }
  }

  ghost predicate Advances<T, E>(job: Job<T, E>, s: Snapshot<T, E>, s': Snapshot<T, E>) {
    Submits(job, s, s') || exists f: nat :: f in s.active && s' == Finish(job.outcome, s, f)
  }

  /** A recorded stretch of the dispatch: consecutive safe snapshots. */
  ghost predicate SafeTrace<T, E>(job: Job<T, E>, trace: seq<Snapshot<T, E>>) {
    |trace| > 0 && forall i: nat :: SafeAt(job, trace, i)
  }

  ghost predicate SafeAt<T, E>(job: Job<T, E>, trace: seq<Snapshot<T, E>>, i: nat) {
    i < |trace| ==> Safe(job, trace[i]) && (i > 0 ==> Advances(job, trace[i - 1], trace[i]))
  }

  function Last<A>(s: seq<A>): A
    requires s != []
  {
    s[|s| - 1]
  }

  lemma {:induction false} ExtendTrace<T, E>(job: Job<T, E>, trace: seq<Snapshot<T, E>>, s': Snapshot<T, E>)
    requires SafeTrace(job, trace) && Advances(job, Last(trace), s')
    ensures SafeTrace(job, trace + [s'])
  {
    assert SafeAt(job, trace, |trace| - 1);
    StepIsSafe(job, Last(trace), s');
    forall i: nat ensures SafeAt(job, trace + [s'], i) {
      assert SafeAt(job, trace, i);
    }
  }

  /** Work left: a round that waits always reduces it. */
  function Left<T, E>(s: Snapshot<T, E>): nat {
    |s.pending| + |s.active|
  }

  lemma {:induction false} FinishReduces<T, E>(job: Job<T, E>, s: Snapshot<T, E>, f: nat)
    requires f in s.active
    ensures Left(Finish(job.outcome, s, f)) == Left(s) - 1 && Advances(job, s, Finish(job.outcome, s, f))
  {
    assert s.active.Keys == Finish(job.outcome, s, f).active.Keys + {f};
  }

  /** Polling the stop event: once it is set it stays set. */
  method Poll(stopped: bool) returns (isSet: bool)
    ensures stopped ==> isSet
  {
    isSet := *;
    if stopped { isSet := true; }
  }

  /** Start cases from the head of the queue until one does not fit. */
  method Admit<T, E>(job: Job<T, E>, before: seq<Snapshot<T, E>>, stopped: bool)
    returns (trace: seq<Snapshot<T, E>>, stopSeen: bool)
    requires SafeTrace(job, before) && Dispatchable(Costs(job.resources, job.cases), job.slots, job.budget)
    ensures SafeTrace(job, trace) && before <= trace && (stopped ==> stopSeen)
    ensures Left(Last(trace)) == Left(Last(before))
    ensures Last(trace).active == map[] && Last(trace).pending != [] ==> stopSeen
  {
    trace, stopSeen := before, stopped;
    while Last(trace).pending != [] && |Last(trace).active| < job.slots
      invariant SafeTrace(job, trace) && before <= trace && (stopped ==> stopSeen)
      invariant Left(Last(trace)) == Left(Last(before))
      decreases |Last(trace).pending|
    {
      var s := Last(trace);
      assert SafeAt(job, trace, |trace| - 1);
      var cost := job.resources(s.pending[0]);
      stopSeen := Poll(stopSeen);
      if stopSeen || !job.budget.Admits(s.used.Plus(cost)) {
        if s.active == map[] {
          IdleUsesNothing(|s.submitted|);
          assert Costs(job.resources, job.cases)[|s.submitted|] == cost;
        }
        return;
      }
      var s' := s.(pending := s.pending[1..], submitted := s.submitted + [s.pending[0]],
                   active := s.active[|s.submitted| := cost], used := s.used.Plus(cost));
      assert Submits(job, s, s') && |s.submitted| !in s.active;
      ExtendTrace(job, trace, s');
      trace := trace + [s'];
    }
  }

  /** Wait for some running cases to end and take their results, in any order. */
  method Collect<T, E>(job: Job<T, E>, before: seq<Snapshot<T, E>>) returns (trace: seq<Snapshot<T, E>>)
    requires SafeTrace(job, before) && Last(before).active != map[]
    ensures SafeTrace(job, trace) && before <= trace && Left(Last(trace)) < Left(Last(before))
  {
    trace := before;
    assert Last(before).active.Keys != {};
    var completed: set<nat> :| completed <= Last(before).active.Keys && completed != {};
    ghost var waited := |completed|;
    while completed != {}
      invariant SafeTrace(job, trace) && before <= trace && completed <= Last(trace).active.Keys
      invariant Left(Last(trace)) + waited == Left(Last(before)) + |completed|
      decreases |completed|
    {
      var f :| f in completed;
      completed := completed - {f};
      FinishReduces(job, Last(trace), f);
      ExtendTrace(job, trace, Finish(job.outcome, Last(trace), f));
      trace := trace + [Finish(job.outcome, Last(trace), f)];
    }
  }

  /**
   Run every case as soon as its turn and its resources come. The trace records each
   intermediate snapshot; stopSeen says whether a poll ever saw the stop event.
   */
  method RunWithResources<T, E>(job: Job<T, E>) returns (r: Result<seq<E>>, trace: seq<Snapshot<T, E>>, stopSeen: bool)
    ensures r.Ok? <==> Dispatchable(Costs(job.resources, job.cases), job.slots, job.budget)
    ensures r.Ok? ==> SafeTrace(job, trace) && trace[0].pending == job.cases
    ensures r.Ok? ==> Last(trace).active == map[] && r.value == Last(trace).errors
    ensures r.Ok? && !stopSeen ==> Last(trace).submitted == job.cases
  {
    stopSeen, trace := false, [];
    if !Dispatchable(Costs(job.resources, job.cases), job.slots, job.budget) {
      return Error("fixture exceeds the dispatch resource budget"), trace, stopSeen;
    }
    trace := [Snapshot(job.cases, [], map[], ZERO, [], [])];
    while true
      invariant SafeTrace(job, trace) && trace[0].pending == job.cases
      decreases Left(Last(trace))
    {
      if Last(trace).active == map[] {
        if Last(trace).pending == [] { break; }
        stopSeen := Poll(stopSeen);
        if stopSeen { break; }
      }
      trace, stopSeen := Admit(job, trace, stopSeen);
      if Last(trace).active == map[] { break; }
      trace := Collect(job, trace);
    }
    assert SafeAt(job, trace, |trace| - 1);
    r := Ok(Last(trace).errors);
  }
}
