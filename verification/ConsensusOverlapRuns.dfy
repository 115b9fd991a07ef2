/**
 Runs of the group with overlapping handlers. An accept handler checks the promise and waits; a
 prepare handler of the same slot promises a higher ballot and reports nothing; the accept handler
 then writes below that promise. When every voter does so, two values are chosen.
 */
module ConsensusOverlapRuns {
  import opened Common
  import opened Consensus
  import opened Acceptor
  import opened ConsensusOverlap
  import Safety = ConsensusSafety
  import Runs = ConsensusRuns

  ghost predicate Reaches(g: Group, w: World) {
    exists run :: IsWorldRun(g, true, run) && run[|run| - 1] == w
  }

  lemma Take(g: Group, w: World, e: Event) returns (w': World)
    requires Reaches(g, w) && Possible(g, true, w, e)
    ensures w' == After(g, true, w, e) && Reaches(g, w')
  {
    w' := After(g, true, w, e);
    var run :| IsWorldRun(g, true, run) && run[|run| - 1] == w;
    var longer := run + [w'];
    assert Follows(g, true, w, w');
    forall i: nat
      ensures WorldStepAt(g, true, longer, i)
    {
      assert WorldStepAt(g, true, run, i);
    }
    assert IsWorldRun(g, true, longer) && longer[|longer| - 1] == w';
  }

  /** The slot is open at the replica, so receiving and loading leave the replica as it is. */
  ghost predicate IsOpen(w: World, n: nat, k: nat) {
    && n in w.s.replicas && k < |w.s.attempts| && w.s.attempts[k].slot in w.s.replicas[n].slots
    && w.s.attempts[k].slot <= w.s.replicas[n].highestSeen && w.s.replicas[n].term == w.s.attempts[k].term
  }

  /** Only the handlers in flight changed. */
  ghost predicate OnlyFlights(w: World, w': World, flights: map<Ticket, Flight>) {
    w'.s == w.s && w'.flights == flights && forall n: nat, slot: nat :: w'.VersionAt(n, slot) == w.VersionAt(n, slot)
  }

  lemma Begin(g: Group, w: World, id: Ticket, n: nat, k: nat, accept: bool) returns (w': World)
    requires Reaches(g, w) && IsOpen(w, n, k) && id !in w.flights
    requires if accept then w.s.attempts[k].decision.Some? else !w.s.attempts[k].SkipsPrepare()
    ensures var t := w.s.attempts[k];
            var stage := if accept then AcceptStart(t.Value()) else PrepareStart(t.ballot);
            && Reaches(g, w')
            && OnlyFlights(w, w', w.flights[id := Flight(n, k, stage)])
  {
    var r := w.s.replicas[n];
    assert Received(r, w.s.attempts[k]) == r;
    w' := Take(g, w, Receive(id, n, k, accept));
    assert w'.s.replicas == w.s.replicas;
  }

  /** A step that only loads. */
  lemma Load(g: Group, w: World, id: Ticket, next: Handler) returns (w': World)
    requires Reaches(g, w) && id in w.flights && IsOpen(w, w.flights[id].n, w.flights[id].k)
    requires var f := w.flights[id]; var cells := w.CellsAt(f.n, w.s.attempts[f.k].slot);
             MoveOf(cells, f.stage) == Goes(next) && CellsAfter(cells, f.stage) == cells
    ensures Reaches(g, w') && OnlyFlights(w, w', w.flights[id := w.flights[id].(stage := next)])
  {
    var f := w.flights[id];
    var r := w.s.replicas[f.n];
    var slot := w.s.attempts[f.k].slot;
    assert Rewritten(r, slot, r.At(slot)) == r;
    w' := Take(g, w, Step(id));
    assert w'.s.replicas == w.s.replicas;
  }

  // ---- whole sets of replicas ----

  /** The handlers in flight and the versions are the same. */
  ghost predicate SameFlights(w: World, w': World) {
    w'.flights == w.flights && forall n: nat, slot: nat :: w'.VersionAt(n, slot) == w.VersionAt(n, slot)
  }

  lemma BeginPrepare(g: Group, w: World, id: Ticket, n: nat, k: nat) returns (w': World)
    requires Reaches(g, w) && id !in w.flights && Enabled(g, w.s, OnPrepare(n, k))
    ensures Reaches(g, w') && w'.s == Put(w.s, n, Received(w.s.replicas[n], w.s.attempts[k]))
    ensures w'.flights == w.flights[id := Flight(n, k, PrepareStart(w.s.attempts[k].ballot))]
    ensures w'.versions == w.versions && IsOpen(w', n, k)
  {
    w' := Take(g, w, Receive(id, n, k, false));
  }

  lemma CommitPromise(g: Group, w: World, id: Ticket, report: Option<Entry>) returns (w': World)
    requires Reaches(g, w) && id in w.flights && IsOpen(w, w.flights[id].n, w.flights[id].k)
    requires var f := w.flights[id]; var t := w.s.attempts[f.k];
             f.stage == PrepareLoaded(t.ballot, w.s.replicas[f.n].At(t.slot).promised, report)
    ensures var f := w.flights[id]; var t := w.s.attempts[f.k]; var r := w.s.replicas[f.n];
            var node := r.At(t.slot).(promised := Some(t.ballot));
            && Reaches(g, w') && w'.flights == w.flights - {id}
            && (forall n: nat, slot: nat :: w'.VersionAt(n, slot) == w.VersionAt(n, slot))
            && w'.s == w.s.(replicas := w.s.replicas[f.n := Rewritten(r, t.slot, node)],
                            promises := w.s.promises[(f.k, f.n) := report])
  {
    w' := Take(g, w, Step(id));
  }

  lemma BeginAndLoad(g: Group, w: World, id: Ticket, n: nat, k: nat) returns (w': World)
    requires Reaches(g, w) && id !in w.flights && Enabled(g, w.s, OnPrepare(n, k))
    requires Promises(w.s.replicas[n].At(w.s.attempts[k].slot), w.s.attempts[k].ballot)
    ensures var t := w.s.attempts[k]; var st := w.s.replicas[n].At(t.slot);
            && Reaches(g, w') && w'.s == Put(w.s, n, Received(w.s.replicas[n], t)) && IsOpen(w', n, k)
            && w'.flights == w.flights[id := Flight(n, k, PrepareLoaded(t.ballot, st.promised, st.accepted))]
            && (forall m: nat, slot: nat :: w'.VersionAt(m, slot) == w.VersionAt(m, slot))
  {
    var t := w.s.attempts[k];
    var st := w.s.replicas[n].At(t.slot);
    var w1 := BeginPrepare(g, w, id, n, k);
    assert w1.s.replicas[n].At(t.slot) == st;
    var w2 := Load(g, w1, id, PrepareChecked(t.ballot, st.promised));
    w' := Load(g, w2, id, PrepareLoaded(t.ballot, st.promised, st.accepted));
  }

  lemma PromisingInSteps(r: Replica, t: Attempt)
    ensures Rewritten(Received(r, t), t.slot, r.At(t.slot).(promised := Some(t.ballot))) == Runs.Promising(r, t)
  {
  }

  /** A prepare handler that nothing disturbs promises. */
  lemma PromiseOne(g: Group, w: World, id: Ticket, n: nat, k: nat) returns (w': World)
    requires Reaches(g, w) && id !in w.flights && Enabled(g, w.s, OnPrepare(n, k))
    requires Promises(w.s.replicas[n].At(w.s.attempts[k].slot), w.s.attempts[k].ballot)
    ensures var (r, t) := (w.s.replicas[n], w.s.attempts[k]);
            && Reaches(g, w') && SameFlights(w, w')
            && w'.s == w.s.(replicas := w.s.replicas[n := Runs.Promising(r, t)],
                            promises := w.s.promises[(k, n) := r.At(t.slot).accepted])
  {
    var t := w.s.attempts[k];
    var w1 := BeginAndLoad(g, w, id, n, k);
    assert w1.s.replicas[n].At(t.slot) == w.s.replicas[n].At(t.slot);
    w' := CommitPromise(g, w1, id, w.s.replicas[n].At(t.slot).accepted);
    PromisingInSteps(w.s.replicas[n], t);
    assert w.flights[id := w1.flights[id]] - {id} == w.flights;
  }

  ghost predicate AllMayPromise(s: State, k: nat, w: set<nat>) {
    && w <= s.replicas.Keys && k < |s.attempts| && !s.attempts[k].SkipsPrepare()
    && forall n <- w :: s.replicas[n].term <= s.attempts[k].term
                        && Promises(s.replicas[n].At(s.attempts[k].slot), s.attempts[k].ballot)
  }

  lemma {:induction false} PromiseAll(g: Group, w: World, k: nat, v: set<nat>) returns (w': World)
    requires Reaches(g, w) && AllMayPromise(w.s, k, v) && forall n <- v :: (n, 1) !in w.flights
    ensures Reaches(g, w') && SameFlights(w, w') && Runs.PromisedBy(w.s, w'.s, k, v)
    ensures w'.s.replicas == Runs.AllPromising(w.s.replicas, v, w.s.attempts[k])
    decreases v
  {
    if v == {} {
      w' := w;
      assert Runs.AllPromising(w.s.replicas, v, w.s.attempts[k]) == w.s.replicas;
    } else {
      var n :| n in v;
      var before := PromiseAll(g, w, k, v - {n});
      assert before.s.replicas[n] == w.s.replicas[n];
      w' := PromiseOne(g, before, (n, 1), n, k);
      assert w'.s.replicas == Runs.AllPromising(w.s.replicas, v, w.s.attempts[k]);
    }
  }

  // ---- accept handlers ----

  /** Replica n has promised exactly the ballot of attempt k, which is settled. */
  ghost predicate MayLoad(w: World, n: nat, k: nat) {
    && IsOpen(w, n, k) && w.s.attempts[k].decision.Some?
    && w.s.replicas[n].At(w.s.attempts[k].slot).promised == Some(w.s.attempts[k].ballot)
  }

  function LoadedFlight(w: World, n: nat, k: nat): Flight
    requires k < |w.s.attempts| && w.s.attempts[k].decision.Some?
  {
    var t := w.s.attempts[k];
    Flight(n, k, AcceptLoaded(t.Value(), w.VersionAt(n, t.slot)))
  }

  /** An accept handler checks the promise and loads the cells, but does not write yet. */
  lemma LoadAccept(g: Group, w: World, id: Ticket, n: nat, k: nat) returns (w': World)
    requires Reaches(g, w) && id !in w.flights && MayLoad(w, n, k)
    ensures Reaches(g, w') && OnlyFlights(w, w', w.flights[id := LoadedFlight(w, n, k)])
  {
    var t := w.s.attempts[k];
    var e := t.Value();
    var w1 := Begin(g, w, id, n, k, true);
    var w2 := Load(g, w1, id, AcceptChecked(e, Some(t.ballot)));
    var w3 := Load(g, w2, id, AcceptRaised(e));
    w' := Load(g, w3, id, AcceptLoaded(e, w.VersionAt(n, t.slot)));
  }

  function Holding(r: Replica, t: Attempt): Replica
    requires t.decision.Some?
  {
    Rewritten(r, t.slot, r.At(t.slot).(accepted := Some(t.Value())))
  }

  /** Versions elsewhere than at this slot of this replica are the same. */
  ghost predicate SameVersionsBut(w: World, w': World, n: nat, slot: nat) {
    forall m: nat, x: nat :: m != n || x != slot ==> w'.VersionAt(m, x) == w.VersionAt(m, x)
  }

  /** The handler writes what it carries, whatever the promise says by now. */
  lemma CommitAccept(g: Group, w: World, id: Ticket, n: nat, k: nat) returns (w': World)
    requires Reaches(g, w) && n in w.s.replicas && k < |w.s.attempts| && w.s.attempts[k].decision.Some?
    requires id in w.flights && w.flights[id] == LoadedFlight(w, n, k)
    ensures Reaches(g, w') && w'.flights == w.flights - {id} && SameVersionsBut(w, w', n, w.s.attempts[k].slot)
    ensures w'.s == w.s.(replicas := w.s.replicas[n := Holding(w.s.replicas[n], w.s.attempts[k])],
                         accepts := w.s.accepts + {(k, n)})
  {
    w' := Take(g, w, Step(id));
  }

  function InFlight(w: World, k: nat, v: set<nat>): map<Ticket, Flight>
    requires k < |w.s.attempts| && w.s.attempts[k].decision.Some?
  {
    map id | id in Tickets(v) :: LoadedFlight(w, id.0, k)
  }

  function Tickets(v: set<nat>): set<Ticket> {
    set n <- v :: (n, 0)
  }

  lemma TicketsExtend(v: set<nat>, n: nat)
    requires n in v
    ensures Tickets(v) == Tickets(v - {n}) + {(n, 0)} && (n, 0) !in Tickets(v - {n})
  {
  }

  lemma InFlightExtends(w: World, k: nat, v: set<nat>, n: nat)
    requires k < |w.s.attempts| && w.s.attempts[k].decision.Some? && n in v
    ensures InFlight(w, k, v - {n})[(n, 0) := LoadedFlight(w, n, k)] == InFlight(w, k, v)
    ensures InFlight(w, k, v) - {(n, 0)} == InFlight(w, k, v - {n}) && (n, 0) !in InFlight(w, k, v - {n})
  {
    TicketsExtend(v, n);
  }

  lemma {:induction false} LoadAll(g: Group, w: World, k: nat, v: set<nat>) returns (w': World)
    requires Reaches(g, w) && w.flights == map[] && k < |w.s.attempts| && w.s.attempts[k].decision.Some?
    requires forall n <- v :: MayLoad(w, n, k)
    ensures Reaches(g, w') && OnlyFlights(w, w', InFlight(w, k, v))
    decreases v
  {
    if v == {} {
      w' := w;
      assert InFlight(w, k, v) == map[];
    } else {
      var n :| n in v;
      var before := LoadAll(g, w, k, v - {n});
      InFlightExtends(w, k, v, n);
      assert MayLoad(w, n, k);
      w' := LoadAccept(g, before, (n, 0), n, k);
      assert LoadedFlight(before, n, k) == LoadedFlight(w, n, k);
    }
  }

  function AllHolding(rs: map<nat, Replica>, v: set<nat>, t: Attempt): map<nat, Replica>
    requires t.decision.Some?
  {
    map n <- rs :: if n in v then Holding(rs[n], t) else rs[n]
  }

  /** The handlers of w0 are still in flight for these replicas, and nobody has written there since. */
  ghost predicate StillInFlight(w0: World, w: World, k: nat, v: set<nat>) {
    && k < |w0.s.attempts| && w0.s.attempts[k].decision.Some?
    && k < |w.s.attempts| && w.s.attempts[k] == w0.s.attempts[k]
    && w.flights == InFlight(w0, k, v) && v <= w.s.replicas.Keys
    && forall n <- v :: w.VersionAt(n, w.s.attempts[k].slot) == w0.VersionAt(n, w.s.attempts[k].slot)
  }

  lemma {:induction false} WriteAll(g: Group, w0: World, w: World, k: nat, v: set<nat>) returns (w': World)
    requires Reaches(g, w) && StillInFlight(w0, w, k, v)
    ensures Reaches(g, w') && w'.flights == map[]
    ensures w'.s == w.s.(replicas := AllHolding(w.s.replicas, v, w.s.attempts[k]),
                         accepts := w.s.accepts + Runs.Pairs(k, v))
    decreases v
  {
    if v == {} {
      w' := w;
      assert AllHolding(w.s.replicas, v, w.s.attempts[k]) == w.s.replicas;
      assert InFlight(w0, k, v) == map[];
    } else {
      var n :| n in v;
      InFlightExtends(w0, k, v, n);
      assert LoadedFlight(w0, n, k) == LoadedFlight(w, n, k);
      var next := CommitAccept(g, w, (n, 0), n, k);
      w' := WriteAll(g, w0, next, k, v - {n});
      HoldingInTurn(w.s.replicas, v, n, w.s.attempts[k]);
      assert Runs.Pairs(k, v) == Runs.Pairs(k, v - {n}) + {(k, n)};
    }
  }

  lemma HoldingInTurn(rs: map<nat, Replica>, v: set<nat>, n: nat, t: Attempt)
    requires v <= rs.Keys && n in v && t.decision.Some?
    ensures AllHolding(rs[n := Holding(rs[n], t)], v - {n}, t) == AllHolding(rs, v, t)
  {
  }

  lemma {:induction false} AcceptAll(g: Group, w: World, k: nat, v: set<nat>) returns (w': World)
    requires Reaches(g, w) && w.flights == map[] && forall n <- v :: MayLoad(w, n, k)
    ensures Reaches(g, w') && w'.s.attempts == w.s.attempts && w'.s.accepts == w.s.accepts + Runs.Pairs(k, v)
    decreases v
  {
    if v == {} {
      w' := w;
    } else {
      var n :| n in v;
      assert MayLoad(w, n, k);
      var loaded := LoadAccept(g, w, (n, 0), n, k);
      assert LoadedFlight(loaded, n, k) == LoadedFlight(w, n, k);
      var next := CommitAccept(g, loaded, (n, 0), n, k);
      forall m <- v - {n}
        ensures MayLoad(next, m, k)
      {
        assert MayLoad(w, m, k);
      }
      assert next.flights == map[];
      w' := AcceptAll(g, next, k, v - {n});
      assert Runs.Pairs(k, v) == Runs.Pairs(k, v - {n}) + {(k, n)};
    }
  }

  // ---- the run ----

  lemma TakeOutside(g: Group, w: World, a: Action) returns (w': World)
    requires Reaches(g, w) && Enabled(g, w.s, a) && (a.Proceed? || a.Prepare?)
    ensures Reaches(g, w') && w' == w.(s := Apply(g, w.s, a))
  {
    w' := Take(g, w, Outside(a));
    assert w'.flights == w.flights;
  }

  lemma ReachStart(g: Group)
    ensures Reaches(g, World(Init(g), map[], map[]))
  {
    assert IsWorldRun(g, true, [World(Init(g), map[], map[])]);
  }

  /** A run in which nothing has been proposed has no handlers, so it is a run of both models. */
  lemma {:induction false} LiftElections(g: Group, run: seq<State>, i: nat)
    requires IsRun(g, run) && i < |run| && run[i].attempts == []
    ensures Reaches(g, World(run[i], map[], map[]))
  {
    if i == 0 {
      ReachStart(g);
    } else {
      assert StepAt(g, run, i - 1);
      var a :| Enabled(g, run[i - 1], a) && run[i] == Apply(g, run[i - 1], a);
      NothingProposedBefore(g, run[i - 1], a);
      LiftElections(g, run, i - 1);
      var w := Take(g, World(run[i - 1], map[], map[]), Outside(a));
      assert w == World(run[i], map[], map[]);
    }
  }

  lemma NothingProposedBefore(g: Group, s: State, a: Action)
    requires Enabled(g, s, a) && Apply(g, s, a).attempts == []
    ensures s.attempts == [] && !a.OnPrepare? && !a.OnAccept?
  {
    assert |Apply(g, s, a).attempts| >= |s.attempts|;
  }

  const LEFT := "left over"

  const CHOSEN := "chosen"

  function First(x: nat, decision: Option<Decision>): Attempt {
    Attempt(x, 1, Ballot(1, x), 1, LEFT, decision)
  }

  function Second(x: nat, decision: Option<Decision>): Attempt {
    Attempt(x, 1, Ballot(2, x), 1, CHOSEN, decision)
  }

  /** Replica n has promised this ballot at slot 1, in term 1, and accepted this entry there. */
  ghost predicate Holds(r: Replica, b: Ballot, accepted: Option<Entry>) {
    r.term == 1 && 1 in r.slots && r.slots[1] == SlotState(Some(b), accepted) && r.highestSeen >= 1
  }

  ghost predicate AllHold(g: Group, s: State, b: Ballot, accepted: Option<Entry>) {
    s.replicas.Keys == g.voters && forall n <- g.voters :: Holds(s.replicas[n], b, accepted)
  }

  /** Everyone promised attempt k and reported nothing. */
  ghost predicate AllReportNothing(g: Group, s: State, k: nat) {
    forall n <- g.voters :: (k, n) in s.promises && s.promises[(k, n)] == None
  }

  lemma ReachLeader(g: Group, x: nat) returns (w: World)
    requires x in g.voters
    ensures Reaches(g, w) && w.flights == map[] && w.s.replicas.Keys == g.voters
    ensures w.s.attempts == [] && w.s.accepts == {} && w.s.replicas[x].tasks
    ensures forall n <- g.voters :: w.s.replicas[n].term == 1 && w.s.replicas[n].slots == map[]
  {
    var s := Runs.ReachFirstLeader(g, false, x);
    var run :| Runs.IsRunOf(g, false, run) && run[|run| - 1] == s;
    Runs.RunOfIsRun(g, false, run);
    LiftElections(g, run, |run| - 1);
    w := World(s, map[], map[]);
  }

  /** Everyone promised without a report, so the attempt goes on with its own value. */
  lemma ProceedAlone(g: Group, w: World, k: nat) returns (w': World)
    requires Reaches(g, w) && g.voters != {} && AllReportNothing(g, w.s, k)
    requires k < |w.s.attempts| && w.s.attempts[k].decision == None
    ensures var t := w.s.attempts[k];
            && Reaches(g, w')
            && w' == w.(s := w.s.(attempts := w.s.attempts[k := t.(decision := Some(Decision(g.voters, t.own)))]))
  {
    assert |g.voters| > 0;
    assert IsAdopted(w.s.promises, k, g.voters, None);
    w' := TakeOutside(g, w, Proceed(k, g.voters, None));
  }

  lemma PromisingHolds(r: Replica, t: Attempt)
    requires r.term == 1 && t.term == 1 && t.slot == 1 && r.At(1).accepted == None
    ensures Holds(Runs.Promising(r, t), t.ballot, None)
  {
  }

  ghost predicate AllMayHold(g: Group, s: State, t: Attempt) {
    && s.replicas.Keys == g.voters && t.term == 1 && t.slot == 1 && !t.SkipsPrepare()
    && forall n <- g.voters :: s.replicas[n].term == 1 && s.replicas[n].At(1).accepted == None
                               && Promises(s.replicas[n].At(1), t.ballot)
  }

  lemma PromiseEverywhere(g: Group, w: World, k: nat) returns (w': World)
    requires Reaches(g, w) && k < |w.s.attempts| && AllMayHold(g, w.s, w.s.attempts[k])
    requires forall n <- g.voters :: (n, 1) !in w.flights
    ensures Reaches(g, w') && SameFlights(w, w') && AllHold(g, w'.s, w.s.attempts[k].ballot, None)
    ensures AllReportNothing(g, w'.s, k) && w'.s.attempts == w.s.attempts && w'.s.accepts == w.s.accepts
    ensures forall n <- g.voters :: w'.s.replicas[n].tasks == w.s.replicas[n].tasks
  {
    w' := PromiseAll(g, w, k, g.voters);
    forall n <- g.voters
      ensures w'.s.replicas[n] == Runs.Promising(w.s.replicas[n], w.s.attempts[k])
      ensures Holds(w'.s.replicas[n], w.s.attempts[k].ballot, None)
    {
      PromisingHolds(w.s.replicas[n], w.s.attempts[k]);
    }
  }

  /** The first attempt is promised by everyone and settled on its own value. */
  lemma SettleFirst(g: Group, x: nat) returns (w: World)
    requires x in g.voters
    ensures Reaches(g, w) && w.flights == map[] && w.s.accepts == {} && AllHold(g, w.s, Ballot(1, x), None)
    ensures w.s.attempts == [First(x, Some(Decision(g.voters, LEFT)))] && w.s.replicas[x].tasks
  {
    var w0 := ReachLeader(g, x);
    var w1 := TakeOutside(g, w0, Prepare(x, 1, LEFT, 0));
    assert w1.s.attempts == [First(x, None)];
    var w2 := PromiseEverywhere(g, w1, 0);
    w := ProceedAlone(g, w2, 0);
  }

  /** The second attempt is about to be prepared. */
  lemma PlanSecond(g: Group, x: nat) returns (w: World)
    requires x in g.voters
    ensures Reaches(g, w) && w.flights == map[] && w.s.accepts == {} && AllHold(g, w.s, Ballot(1, x), None)
    ensures w.s.attempts == [First(x, Some(Decision(g.voters, LEFT))), Second(x, None)]
  {
    var w0 := SettleFirst(g, x);
    assert Holds(w0.s.replicas[x], Ballot(1, x), None);
    w := TakeOutside(g, w0, Prepare(x, 1, CHOSEN, 1));
    assert w.s.attempts[1] == Second(x, None);
  }

  lemma HeldMayLoad(g: Group, w: World, k: nat, b: Ballot, accepted: Option<Entry>)
    requires AllHold(g, w.s, b, accepted) && k < |w.s.attempts| && w.s.attempts[k].decision.Some?
    requires w.s.attempts[k].ballot == b && w.s.attempts[k].slot == 1 && w.s.attempts[k].term == 1
    ensures forall n <- g.voters :: MayLoad(w, n, k)
  {
    forall n <- g.voters
      ensures MayLoad(w, n, k)
    {
      assert Holds(w.s.replicas[n], b, accepted);
    }
  }

  /** The handlers that accept it have loaded everywhere, and then everyone promises the second attempt. */
  lemma OverlapEverywhere(g: Group, x: nat) returns (w0: World, w: World)
    requires x in g.voters
    ensures Reaches(g, w) && StillInFlight(w0, w, 0, g.voters) && w.s.accepts == {}
    ensures AllHold(g, w.s, Ballot(2, x), None) && AllReportNothing(g, w.s, 1)
    ensures w.s.attempts == [First(x, Some(Decision(g.voters, LEFT))), Second(x, None)]
  {
    w0 := PlanSecond(g, x);
    HeldMayLoad(g, w0, 0, Ballot(1, x), None);
    var w1 := LoadAll(g, w0, 0, g.voters);
    forall n <- g.voters
      ensures w1.s.replicas[n].term == 1 && w1.s.replicas[n].At(1) == SlotState(Some(Ballot(1, x)), None)
      ensures (n, 1) !in w1.flights
    {
      assert Holds(w0.s.replicas[n], Ballot(1, x), None);
    }
    w := PromiseEverywhere(g, w1, 1);
  }

  lemma ChosenByAll(g: Group, s: State, k: nat)
    requires g.voters != {} && k < |s.attempts| && s.attempts[k].decision.Some? && Runs.Pairs(k, g.voters) <= s.accepts
    ensures ChosenBy(g, s, k)
  {
    forall n <- g.voters
      ensures n in Acceptors(g, s, k)
    {
      assert (k, n) in Runs.Pairs(k, g.voters);
    }
    assert Acceptors(g, s, k) == g.voters && |g.voters| > 0;
  }

  lemma HoldingHolds(r: Replica, t: Attempt, b: Ballot)
    requires Holds(r, b, None) && t.slot == 1 && t.decision.Some?
    ensures Holds(Holding(r, t), b, Some(t.Value()))
  {
  }

  lemma AllHoldingHold(g: Group, s: State, s': State, b: Ballot)
    requires AllHold(g, s, b, None) && |s.attempts| > 0 && s.attempts[0].slot == 1 && s.attempts[0].decision.Some?
    requires s'.replicas == AllHolding(s.replicas, g.voters, s.attempts[0])
    ensures AllHold(g, s', b, Some(s.attempts[0].Value()))
  {
    forall n <- g.voters
      ensures Holds(s'.replicas[n], b, Some(s.attempts[0].Value()))
    {
      assert Holds(s.replicas[n], b, None);
      HoldingHolds(s.replicas[n], s.attempts[0], b);
    }
  }

  lemma FlightsGoOn(w0: World, w: World, w': World, k: nat, v: set<nat>)
    requires StillInFlight(w0, w, k, v) && w'.flights == w.flights && w'.versions == w.versions
    requires w'.s.replicas == w.s.replicas && k < |w'.s.attempts| && w'.s.attempts[k] == w.s.attempts[k]
    ensures StillInFlight(w0, w', k, v)
  {
  }

  lemma OverlapAndProceed(g: Group, x: nat) returns (w0: World, w: World)
    requires x in g.voters
    ensures Reaches(g, w) && StillInFlight(w0, w, 0, g.voters) && w.s.accepts == {}
    ensures w.s.attempts == [First(x, Some(Decision(g.voters, LEFT))), Second(x, Some(Decision(g.voters, CHOSEN)))]
    ensures AllHold(g, w.s, Ballot(2, x), None)
  {
    var before;
    w0, before := OverlapEverywhere(g, x);
    w := ProceedAlone(g, before, 1);
    FlightsGoOn(w0, before, w, 0, g.voters);
  }

  /** The handlers write the first value below the promise that everyone made meanwhile. */
  lemma WriteBelow(g: Group, x: nat) returns (w: World)
    requires x in g.voters
    ensures Reaches(g, w) && w.flights == map[] && w.s.accepts == Runs.Pairs(0, g.voters)
    ensures w.s.attempts == [First(x, Some(Decision(g.voters, LEFT))), Second(x, Some(Decision(g.voters, CHOSEN)))]
    ensures AllHold(g, w.s, Ballot(2, x), Some(w.s.attempts[0].Value()))
  {
    var w0, w1 := OverlapAndProceed(g, x);
    w := WriteAll(g, w0, w1, 0, g.voters);
    AllHoldingHold(g, w1.s, w.s, Ballot(2, x));
    assert Runs.Pairs(0, g.voters) == w1.s.accepts + Runs.Pairs(0, g.voters);
  }

  /** The second attempt goes on with its own value, and both values are chosen. */
  lemma OverlapBreaksAgreement(g: Group, x: nat) returns (w: World)
    requires x in g.voters
    ensures Reaches(g, w) && !Agreement(g, w.s)
  {
    var w0 := WriteBelow(g, x);
    HeldMayLoad(g, w0, 1, Ballot(2, x), Some(w0.s.attempts[0].Value()));
    w := AcceptAll(g, w0, 1, g.voters);
    ChosenByAll(g, w.s, 0);
    ChosenByAll(g, w.s, 1);
    assert w.s.attempts[0].slot == w.s.attempts[1].slot;
  }

  /** A group that always runs Phase 1 agrees in all its runs exactly when handlers of a slot never overlap. */
  lemma ClassicAgreementIffSerial(g: Group, overlap: bool)
    requires g.forceClassic && g.voters != {}
    ensures !overlap <==>
            forall run: seq<World>, i: nat :: IsWorldRun(g, overlap, run) && i < |run| ==> Agreement(g, run[i].s)
  {
    if overlap {
      var x :| x in g.voters;
      var w := OverlapBreaksAgreement(g, x);
      var run :| IsWorldRun(g, true, run) && run[|run| - 1] == w;
    } else {
      forall run: seq<World>, i: nat | IsWorldRun(g, overlap, run) && i < |run|
        ensures Agreement(g, run[i].s)
      {
        SerialHandlersAgree(g, run, i);
      }
    }
  }
}
