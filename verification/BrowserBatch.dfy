/** Browser batches: every fixture of a batch outlives every client of the batch. */
module BrowserBatch {
  import opened Common
  import opened ResourceDispatch

  /** Errors carry the case they belong to. */
  datatype Failure =
    | PrepareFailed(i: nat)
    | StartupFailed(i: nat)
    | ClientFailed(i: nat)
    | CleanupFailed(i: nat)
    | NotExecuted(blockedBy: nat)

  /** How one case behaves; teardown may depend on the failure it is shown. */
  datatype Behaviour = Behaviour(prepares: bool, enters: bool, passes: bool, tearsDown: Option<Failure> -> bool)

  datatype Event =
    | Entered(i: nat)
    | EntryFailed(i: nat)
    | ClientStarted(i: nat)
    | ClientEnded(i: nat, passed: bool)
    | Exited(i: nat, seen: Option<Failure>, clean: bool)

  // ---- what a batch of n cases promises about its events ----

  ghost predicate ClientsWaitForEntries(events: seq<Event>, n: nat) {
    forall p, i: nat :: 0 <= p < |events| && events[p].ClientStarted? && i < n ==> Entered(i) in events[..p]
  }

  predicate IsClient(e: Event) { e.ClientStarted? || e.ClientEnded? }

  ghost predicate ExitsWaitForClients(events: seq<Event>) {
    && (forall p, q :: 0 <= p < |events| && 0 <= q < |events| && events[p].Exited? && IsClient(events[q]) ==> q < p)
    && (forall i: nat :: ClientStarted(i) in events ==>
          ClientEnded(i, true) in events || ClientEnded(i, false) in events)
  }

  /** Entered fixtures exit exactly once, the last entered first. */
  ghost predicate ExitsUnwindEntries(events: seq<Event>) {
    && (forall p, q :: 0 <= p < q < |events| && events[p].Exited? && events[q].Exited? ==> events[q].i < events[p].i)
    && (forall i: nat :: Entered(i) in events <==>
          exists p :: 0 <= p < |events| && events[p].Exited? && events[p].i == i)
  }

  /** An exit sees its own client's failure, or which peer kept the client from starting. */
  ghost predicate SeesOwnFailure(events: seq<Event>, e: Event)
    requires e.Exited?
  {
    match e.seen
    case None => ClientEnded(e.i, true) in events
    case Some(ClientFailed(j)) => j == e.i && ClientEnded(e.i, false) in events
    case Some(NotExecuted(k)) => EntryFailed(k) in events && ClientStarted(e.i) !in events
    case Some(_) => false
  }

  ghost predicate Disciplined(events: seq<Event>, n: nat) {
    && ClientsWaitForEntries(events, n)
    && ExitsWaitForClients(events)
    && ExitsUnwindEntries(events)
    && (forall e :: e in events && e.Exited? ==> SeesOwnFailure(events, e))
  }

  /** Case i ran, passed and cleaned up. */
  ghost predicate Succeeded(events: seq<Event>, i: nat) {
    Entered(i) in events && ClientEnded(i, true) in events && exists seen :: Exited(i, seen, true) in events
  }

  // ---- running one batch ----

  /** The entries in order, then the clients or the failed entry, then the exits in reverse. */
  ghost predicate EntriesShaped(entries: seq<Event>, k: nat) {
    |entries| == k && forall i: nat :: i < k ==> entries[i] == Entered(i)
  }

  ghost predicate ExitsShaped(exits: seq<Event>, k: nat, failure: seq<Option<Failure>>) {
    && |exits| == k <= |failure|
    && forall p :: 0 <= p < k ==> exits[p].Exited? && exits[p].i == k - 1 - p && exits[p].seen == failure[k - 1 - p]
  }

  /** What became of client i, and what its fixture will be told. */
  ghost predicate ClientShaped(mid: seq<Event>, failure: seq<Option<Failure>>, i: nat)
    requires i < |failure|
  {
    && ClientStarted(i) in mid
    && ClientEnded(i, failure[i] == None) in mid && ClientEnded(i, failure[i] != None) !in mid
    && (failure[i].Some? ==> failure[i].value == ClientFailed(i))
  }

  ghost predicate MiddleShaped(mid: seq<Event>, n: nat, k: nat, failure: seq<Option<Failure>>) {
    && |failure| == n && k <= n
    && if k < n then
         mid == [EntryFailed(k)] && forall i: nat :: i < k ==> failure[i] == Some(NotExecuted(k))
       else
         (forall i: nat :: i < n ==> ClientShaped(mid, failure, i)) && forall e :: e in mid ==> IsClient(e) && e.i < n
  }

  lemma {:induction false} ShapeKeepsOrder(entries: seq<Event>, mid: seq<Event>, exits: seq<Event>, n: nat, k: nat,
                                           failure: seq<Option<Failure>>)
    requires EntriesShaped(entries, k) && MiddleShaped(mid, n, k, failure) && ExitsShaped(exits, k, failure)
    ensures ClientsWaitForEntries(entries + mid + exits, n) && ExitsWaitForClients(entries + mid + exits)
  {
    var events := entries + mid + exits;
    forall p, i: nat | 0 <= p < |events| && events[p].ClientStarted? && i < n ensures Entered(i) in events[..p] {
      assert k <= p < k + |mid| && events[p] == mid[p - k];
      assert events[..p][i] == Entered(i);
    }
    forall i: nat | ClientStarted(i) in events
      ensures ClientEnded(i, true) in events || ClientEnded(i, false) in events
    {
      assert ClientStarted(i) in mid;
      assert ClientShaped(mid, failure, i);
    }
  }

  lemma {:induction false} ShapeUnwinds(entries: seq<Event>, mid: seq<Event>, exits: seq<Event>, n: nat, k: nat,
                                        failure: seq<Option<Failure>>)
    requires EntriesShaped(entries, k) && MiddleShaped(mid, n, k, failure) && ExitsShaped(exits, k, failure)
    ensures ExitsUnwindEntries(entries + mid + exits)
  {
    var events := entries + mid + exits;
    forall p | 0 <= p < |events| && events[p].Exited? ensures p >= k + |mid| && events[p] == exits[p - k - |mid|] {
      assert forall e :: e in mid ==> !e.Exited?;
    }
    forall i: nat | Entered(i) in events
      ensures exists p :: 0 <= p < |events| && events[p].Exited? && events[p].i == i
    {
      assert Entered(i) in entries;
      var p := k + |mid| + (k - 1 - i);
      assert events[p] == exits[k - 1 - i];
    }
    forall p | 0 <= p < |events| && events[p].Exited? ensures Entered(events[p].i) in events {
      assert events[events[p].i] == Entered(events[p].i);
    }
  }

  lemma {:induction false} ShapeSeesOwn(entries: seq<Event>, mid: seq<Event>, exits: seq<Event>, n: nat, k: nat,
                                        failure: seq<Option<Failure>>, e: Event)
    requires EntriesShaped(entries, k) && MiddleShaped(mid, n, k, failure) && ExitsShaped(exits, k, failure)
    requires e in entries + mid + exits && e.Exited?
    ensures e.i < k && e.seen == failure[e.i] && SeesOwnFailure(entries + mid + exits, e)
  {
    assert e in exits;
    if k == n { assert ClientShaped(mid, failure, e.i); }
  }

  lemma {:induction false} ShapeIsDisciplined(entries: seq<Event>, mid: seq<Event>, exits: seq<Event>, n: nat, k: nat,
                                              failure: seq<Option<Failure>>)
    requires EntriesShaped(entries, k) && MiddleShaped(mid, n, k, failure) && ExitsShaped(exits, k, failure)
    ensures Disciplined(entries + mid + exits, n)
  {
    ShapeKeepsOrder(entries, mid, exits, n, k, failure);
    ShapeUnwinds(entries, mid, exits, n, k, failure);
    forall e | e in entries + mid + exits && e.Exited? ensures SeesOwnFailure(entries + mid + exits, e) {
      ShapeSeesOwn(entries, mid, exits, n, k, failure, e);
    }
  }

  /** Each failed step has its error, and each error its failed step. */
  ghost predicate Attributed(events: seq<Event>, errors: seq<Failure>) {
    && (forall i: nat :: StartupFailed(i) in errors <==> EntryFailed(i) in events)
    && (forall i: nat :: ClientFailed(i) in errors <==> ClientEnded(i, false) in events)
    && (forall i: nat :: CleanupFailed(i) in errors <==>
          exists p :: 0 <= p < |events| && events[p].Exited? && events[p].i == i && !events[p].clean)
  }

  /** Where client i stands while some clients still run. */
  ghost predicate ClientAt(mid: seq<Event>, failure: seq<Option<Failure>>, running: set<nat>, i: nat) {
    i < |failure| ==>
      && ClientStarted(i) in mid
      && (if i in running then failure[i] == None && ClientEnded(i, true) !in mid && ClientEnded(i, false) !in mid
          else ClientShaped(mid, failure, i))
  }

  ghost predicate ClientsSoFar(mid: seq<Event>, failure: seq<Option<Failure>>, running: set<nat>,
                               errors: seq<Failure>) {
    && (forall i {:trigger ClientAt(mid, failure, running, i)} :: ClientAt(mid, failure, running, i))
    && (forall e :: e in mid ==> IsClient(e) && e.i < |failure|)
    && (forall f :: f in errors ==> f.ClientFailed?)
    && (forall i: nat :: ClientFailed(i) in errors <==> ClientEnded(i, false) in mid)
    && (errors != [] ==> exists i: nat :: ClientEnded(i, false) in mid)
  }

  lemma {:induction false} ClientEnds(mid: seq<Event>, failure: seq<Option<Failure>>, running: set<nat>,
                                      errors: seq<Failure>, i: nat, passed: bool)
    requires ClientsSoFar(mid, failure, running, errors) && i in running && i < |failure|
    ensures ClientsSoFar(mid + [ClientEnded(i, passed)],
                         if passed then failure else failure[i := Some(ClientFailed(i))], running - {i},
                         if passed then errors else errors + [ClientFailed(i)])
  {
    var mid' := mid + [ClientEnded(i, passed)];
    var failure' := if passed then failure else failure[i := Some(ClientFailed(i))];
    assert ClientAt(mid, failure, running, i);
    forall j ensures ClientAt(mid', failure', running - {i}, j) {
      assert ClientAt(mid, failure, running, j);
    }
    if !passed {
      assert ClientEnded(i, false) in mid';
    }
  }

  lemma {:induction false} AllClientsEnded(mid: seq<Event>, failure: seq<Option<Failure>>, errors: seq<Failure>)
    requires ClientsSoFar(mid, failure, {}, errors)
    ensures MiddleShaped(mid, |failure|, |failure|, failure)
    ensures errors == [] <==> forall i: nat :: i < |failure| ==> ClientEnded(i, true) in mid
  {
    forall i: nat | i < |failure| ensures ClientShaped(mid, failure, i) {
      assert ClientAt(mid, failure, {}, i);
    }
    if errors != [] {
      var i: nat :| ClientEnded(i, false) in mid;
      assert ClientShaped(mid, failure, i);
    } else {
      forall i: nat | i < |failure| ensures ClientEnded(i, true) in mid {
        assert ClientShaped(mid, failure, i) && ClientFailed(i) !in errors;
      }
    }
  }

  function Starts(n: nat): (r: seq<Event>)
    ensures |r| == n && forall i: nat :: i < n ==> r[i] == ClientStarted(i)
  {
    if n == 0 then [] else Starts(n - 1) + [ClientStarted(n - 1)]
  }

  function Indices(n: nat): (r: set<nat>)
    ensures forall i: nat :: i in r <==> i < n
  {
    if n == 0 then {} else Indices(n - 1) + {n - 1}
  }

  /** Run the clients of a fully entered batch; they end in any order. */
  method RunClients(batch: seq<Behaviour>, failure: array<Option<Failure>>)
    returns (mid: seq<Event>, errors: seq<Failure>)
    requires failure.Length == |batch| && forall i :: 0 <= i < failure.Length ==> failure[i] == None
    modifies failure
    ensures MiddleShaped(mid, |batch|, |batch|, failure[..])
    ensures ClientsSoFar(mid, failure[..], {}, errors)
    ensures errors == [] <==> forall i: nat :: i < |batch| ==> ClientEnded(i, true) in mid
  {
    mid, errors := Starts(|batch|), [];
    var running := Indices(|batch|);
    forall i: nat ensures ClientAt(mid, failure[..], running, i) {
      assert i < |batch| ==> mid[i] == ClientStarted(i);
    }
    while running != {}
      invariant running <= Indices(|batch|)
      invariant ClientsSoFar(mid, failure[..], running, errors)
      decreases running
    {
      var i :| i in running;
      ClientEnds(mid, failure[..], running, errors, i, batch[i].passes);
      running := running - {i};
      mid := mid + [ClientEnded(i, batch[i].passes)];
      if !batch[i].passes {
        ghost var was := failure[..];
        failure[i] := Some(ClientFailed(i));
        assert failure[..] == was[i := Some(ClientFailed(i))];
        errors := errors + [ClientFailed(i)];
      }
    }
    AllClientsEnded(mid, failure[..], errors);
  }

  /** Enter the fixtures in order; a failed entry tells the entered ones who blocked them. */
  method EnterAll(batch: seq<Behaviour>, failure: array<Option<Failure>>) returns (entries: seq<Event>, k: nat)
    requires failure.Length == |batch| && forall i :: 0 <= i < failure.Length ==> failure[i] == None
    modifies failure
    ensures k <= |batch| && EntriesShaped(entries, k)
    ensures k < |batch| ==> MiddleShaped([EntryFailed(k)], |batch|, k, failure[..])
    ensures k == |batch| ==> failure[..] == old(failure[..])
  {
    entries, k := [], 0;
    while k < |batch|
      invariant k <= |batch| && EntriesShaped(entries, k)
      invariant failure[..] == old(failure[..])
    {
      if !batch[k].enters {
        for j := 0 to k
          invariant forall i :: 0 <= i < j ==> failure[i] == Some(NotExecuted(k))
        {
          failure[j] := Some(NotExecuted(k));
        }
        return;
      }
      entries := entries + [Entered(k)];
      k := k + 1;
    }
  }

  /** Unwind the entered fixtures; each is shown its own failure, and its own error is kept. */
  method Unwind(batch: seq<Behaviour>, k: nat, failure: seq<Option<Failure>>)
    returns (exits: seq<Event>, errors: seq<Failure>)
    requires k <= |batch| == |failure|
    ensures ExitsShaped(exits, k, failure)
    ensures forall f :: f in errors ==> f.CleanupFailed?
    ensures forall i: nat :: CleanupFailed(i) in errors <==>
              exists p :: 0 <= p < k && exits[p].i == i && !exits[p].clean
    ensures errors == [] <==> forall p :: 0 <= p < k ==> exits[p].clean
  {
    exits, errors := [], [];
    while |exits| < k
      invariant |exits| <= k
      invariant forall p :: 0 <= p < |exits| ==>
                  exits[p].Exited? && exits[p].i == k - 1 - p && exits[p].seen == failure[k - 1 - p]
      invariant forall f :: f in errors ==> f.CleanupFailed?
      invariant forall i: nat :: CleanupFailed(i) in errors <==>
                  exists p :: 0 <= p < |exits| && exits[p].i == i && !exits[p].clean
      invariant errors == [] <==> forall p :: 0 <= p < |exits| ==> exits[p].clean
    {
      var i := k - 1 - |exits|;
      var clean := batch[i].tearsDown(failure[i]);
      ghost var before := exits;
      exits := exits + [Exited(i, failure[i], clean)];
      assert exits[|before|] == Exited(i, failure[i], clean);
      assert forall p :: 0 <= p < |before| ==> exits[p] == before[p];
      if !clean {
        errors := errors + [CleanupFailed(i)];
      }
      forall j: nat
        ensures CleanupFailed(j) in errors <==> exists p :: 0 <= p < |exits| && exits[p].i == j && !exits[p].clean
      {
        if p :| 0 <= p < |before| && before[p].i == j && !before[p].clean { assert exits[p] == before[p]; }
      }
    }
  }

  lemma {:induction false} SuccessMeans(entries: seq<Event>, mid: seq<Event>, exits: seq<Event>, n: nat, k: nat,
                                        failure: seq<Option<Failure>>, i: nat)
    requires EntriesShaped(entries, k) && MiddleShaped(mid, n, k, failure) && ExitsShaped(exits, k, failure)
    ensures Succeeded(entries + mid + exits, i) <==> i < k && ClientEnded(i, true) in mid && exits[k - 1 - i].clean
  {
    var events := entries + mid + exits;
    if Succeeded(events, i) {
      assert Entered(i) in entries && ClientEnded(i, true) in mid;
      var seen :| Exited(i, seen, true) in events;
      assert Exited(i, seen, true) in exits;
      var p :| 0 <= p < k && exits[p] == Exited(i, seen, true);
      assert p == k - 1 - i;
    }
    if i < k && ClientEnded(i, true) in mid && exits[k - 1 - i].clean {
      assert entries[i] == Entered(i);
      assert exits[k - 1 - i] == Exited(i, failure[i], true) && exits[k - 1 - i] in events;
    }
  }

  lemma {:induction false} SuccessIsNoError(entries: seq<Event>, mid: seq<Event>, exits: seq<Event>, n: nat, k: nat,
                                            failure: seq<Option<Failure>>, early: seq<Failure>, late: seq<Failure>)
    requires EntriesShaped(entries, k) && MiddleShaped(mid, n, k, failure) && ExitsShaped(exits, k, failure)
    requires early == [] <==> k == n && forall i: nat :: i < n ==> ClientEnded(i, true) in mid
    requires late == [] <==> forall p :: 0 <= p < k ==> exits[p].clean
    ensures early + late == [] <==> forall i: nat :: i < n ==> Succeeded(entries + mid + exits, i)
  {
    forall i: nat
      ensures Succeeded(entries + mid + exits, i) <==> i < k && ClientEnded(i, true) in mid && exits[k - 1 - i].clean
    {
      SuccessMeans(entries, mid, exits, n, k, failure, i);
    }
    if forall i: nat :: i < n ==> Succeeded(entries + mid + exits, i) {
      assert n > 0 ==> Succeeded(entries + mid + exits, n - 1);
      forall p | 0 <= p < k ensures exits[p].clean {
        assert Succeeded(entries + mid + exits, k - 1 - p);
      }
    }
  }

  lemma {:induction false} ErrorsAreAttributed(entries: seq<Event>, mid: seq<Event>, exits: seq<Event>, n: nat, k: nat,
                                               failure: seq<Option<Failure>>, early: seq<Failure>, late: seq<Failure>)
    requires EntriesShaped(entries, k) && MiddleShaped(mid, n, k, failure) && ExitsShaped(exits, k, failure)
    requires if k < n then early == [StartupFailed(k)] else ClientsSoFar(mid, failure, {}, early)
    requires forall f :: f in late ==> f.CleanupFailed?
    requires forall i: nat :: CleanupFailed(i) in late <==> exists p :: 0 <= p < k && exits[p].i == i && !exits[p].clean
    ensures Attributed(entries + mid + exits, early + late)
  {
    var events := entries + mid + exits;
    forall i: nat ensures EntryFailed(i) in events <==> EntryFailed(i) in mid {}
    forall i: nat ensures ClientEnded(i, false) in events <==> ClientEnded(i, false) in mid {}
    forall i: nat
      ensures CleanupFailed(i) in early + late <==>
              exists p :: 0 <= p < |events| && events[p].Exited? && events[p].i == i && !events[p].clean
    {
      if p :| 0 <= p < k && exits[p].i == i && !exits[p].clean {
        assert events[k + |mid| + p] == exits[p];
      }
      if p :| 0 <= p < |events| && events[p].Exited? && events[p].i == i && !events[p].clean {
        assert events[p] !in mid;
        assert events[p] == exits[p - k - |mid|];
      }
    }
  }

  /** One batch: prepare all, enter all, run all, and unwind whatever was entered. */
  method RunBatch(batch: seq<Behaviour>) returns (events: seq<Event>, errors: seq<Failure>)
    ensures Disciplined(events, |batch|) && Attributed(events, errors)
    ensures errors == [] <==> forall i: nat :: i < |batch| ==> Succeeded(events, i)
  {
    for i := 0 to |batch|
      invariant forall j :: 0 <= j < i ==> batch[j].prepares
    {
      if !batch[i].prepares {
        assert !Succeeded([], i);
        return [], [PrepareFailed(i)];
      }
    }
    var failure := new Option<Failure>[|batch|](_ => None);
    var entries, k := EnterAll(batch, failure);
    var mid, early := [EntryFailed(k)], [StartupFailed(k)];
    if k == |batch| {
      mid, early := RunClients(batch, failure);
    }
    var exits, late := Unwind(batch, k, failure[..]);
    ShapeIsDisciplined(entries, mid, exits, |batch|, k, failure[..]);
    ErrorsAreAttributed(entries, mid, exits, |batch|, k, failure[..], early, late);
    SuccessIsNoError(entries, mid, exits, |batch|, k, failure[..], early, late);
    events, errors := entries + mid + exits, early + late;
  }

  datatype BatchRun = BatchRun(events: seq<Event>, errors: seq<Failure>)

  ghost predicate GoodRun(batch: seq<Behaviour>, run: BatchRun) {
    && Disciplined(run.events, |batch|) && Attributed(run.events, run.errors)
    && (run.errors == [] <==> AllSucceeded(batch, run))
  }

  ghost predicate AllSucceeded(batch: seq<Behaviour>, run: BatchRun) {
    forall i: nat :: i < |batch| ==> Succeeded(run.events, i)
  }

  function ErrorsOf(runs: seq<BatchRun>): seq<Failure> {
    if runs == [] then [] else ErrorsOf(runs[..|runs| - 1]) + runs[|runs| - 1].errors
  }

  /** The first batches ran well, and there is an error exactly when one of their cases did not succeed. */
  ghost predicate Ran(batches: seq<seq<Behaviour>>, runs: seq<BatchRun>, errors: seq<Failure>) {
    && |runs| <= |batches| && errors == ErrorsOf(runs)
    && (forall b :: 0 <= b < |runs| ==> GoodRun(batches[b], runs[b]))
    && (errors == [] <==> forall b :: 0 <= b < |runs| ==> AllSucceeded(batches[b], runs[b]))
  }

  lemma RanOneMore(batches: seq<seq<Behaviour>>, runs: seq<BatchRun>, errors: seq<Failure>, run: BatchRun)
    requires Ran(batches, runs, errors) && |runs| < |batches| && GoodRun(batches[|runs|], run)
    ensures Ran(batches, runs + [run], errors + run.errors)
  {
    var more := runs + [run];
    assert more[..|runs|] == runs;
    assert forall b :: 0 <= b < |runs| ==> more[b] == runs[b];
    if errors + run.errors == [] {
      forall b | 0 <= b < |more|
        ensures AllSucceeded(batches[b], more[b])
      {
        assert b < |runs| ==> AllSucceeded(batches[b], runs[b]);
      }
    } else if errors != [] {
      var b :| 0 <= b < |runs| && !AllSucceeded(batches[b], runs[b]);
      assert !AllSucceeded(batches[b], more[b]);
    } else {
      assert !AllSucceeded(batches[|runs|], more[|runs|]);
    }
  }

  /** All batches in order; with fail-fast the first batch with an error is the last. */
  method RunBrowserBatches(cases: seq<Behaviour>, slots: int, resources: Behaviour -> Cost, budget: Budget,
                           failFast: bool)
    returns (r: Result<seq<Failure>>, batches: seq<seq<Behaviour>>, runs: seq<BatchRun>)
    ensures r.Ok? <==> Dispatchable(Costs(resources, cases), slots, budget)
    ensures r.Ok? ==> FeasibleSplit(resources, cases, slots, budget, batches) && Ran(batches, runs, r.value)
    ensures r.Ok? ==> |runs| == |batches| || (failFast && r.value != [])
    ensures r.Ok? && failFast && runs != [] ==> ErrorsOf(runs[..|runs| - 1]) == []
  {
    runs, batches := [], [];
    var packed := ResourceBatches(cases, slots, resources, budget);
    if packed.Error? { return Error(packed.reason), batches, runs; }
    batches := packed.value;
    var errors := [];
    for b := 0 to |batches|
      invariant |runs| == b && Ran(batches, runs, errors) && (failFast ==> errors == [])
    {
      var events, failed := RunBatch(batches[b]);
      var run := BatchRun(events, failed);
      assert (runs + [run])[..b] == runs;
      RanOneMore(batches, runs, errors, run);
      runs := runs + [run];
      errors := errors + failed;
      if failFast && errors != [] { return Ok(errors), batches, runs; }
    }
    assert failFast && runs != [] ==> ErrorsOf(runs[..|runs| - 1]) == [];
    r := Ok(errors);
  }
}
