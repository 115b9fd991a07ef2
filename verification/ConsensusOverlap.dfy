/**
 The group with its acceptor handlers taken apart: a handler is received, and then loads and swaps
 the cells of its slot step by step while everything else goes on. Groups that always run Phase 1
 agree exactly when the handlers of one slot of one replica never overlap.
 */
module ConsensusOverlap {
  import opened Common
  import opened Consensus
  import opened Acceptor
  import opened Safety = ConsensusSafety

  /** A handler of replica n for attempt k. */
  datatype Flight = Flight(n: nat, k: nat, stage: Handler)

  /** Handlers in flight are told apart by tickets. */
  type Ticket = (nat, nat)

  datatype World = World(s: State, versions: map<(nat, nat), nat>, flights: map<Ticket, Flight>) {
    function VersionAt(n: nat, slot: nat): nat {
      if (n, slot) in versions then versions[(n, slot)] else 0
    }

    function CellsAt(n: nat, slot: nat): Cells
      requires n in s.replicas
    {
      Cells(s.replicas[n].At(slot), VersionAt(n, slot))
    }
  }

  datatype Event =
    | Outside(a: Action)
    | Receive(id: Ticket, n: nat, k: nat, accept: bool)
    | Step(id: Ticket)

  /** Nobody else works on the slot of attempt k at replica n. */
  ghost predicate IsFree(w: World, n: nat, k: nat)
    requires k < |w.s.attempts|
  {
    forall f <- w.flights.Values :: f.n == n && f.k < |w.s.attempts| ==> w.s.attempts[f.k].slot != w.s.attempts[k].slot
  }

  ghost predicate Possible(g: Group, overlap: bool, w: World, e: Event) {
    match e
    case Outside(a) => !a.OnPrepare? && !a.OnAccept? && Enabled(g, w.s, a)
    case Receive(id, n, k, accept) =>
      && id !in w.flights && Enabled(g, w.s, if accept then OnAccept(n, k) else OnPrepare(n, k))
      && (overlap || IsFree(w, n, k))
    case Step(id) =>
      id in w.flights && w.flights[id].n in w.s.replicas && w.flights[id].k < |w.s.attempts|
  }

  function Received(r: Replica, t: Attempt): Replica {
    var r' := r.InTerm(t.term);
    r'.Open(t.slot, r'.At(t.slot))
  }

  /** The replica with other contents in one opened slot. */
  function Rewritten(r: Replica, slot: nat, node: SlotState): Replica {
    r.(slots := r.slots[slot := node])
  }

  function StateAfter(s: State, f: Flight, move: Move): State {
    match move
    case Replies(Promised(report)) => s.(promises := s.promises[(f.k, f.n) := report])
    case Replies(Accepted) => s.(accepts := s.accepts + {(f.k, f.n)})
    case _ => s
  }

  ghost function After(g: Group, overlap: bool, w: World, e: Event): World
    requires Possible(g, overlap, w, e)
  {
    match e
    case Outside(a) =>
      w.(s := Apply(g, w.s, a),
         flights := map id <- w.flights | !(a.Restart? && a.n == w.flights[id].n) :: w.flights[id])
    case Receive(id, n, k, accept) =>
      var t := w.s.attempts[k];
      w.(s := Put(w.s, n, Received(w.s.replicas[n], t)),
         flights := w.flights[id := Flight(n, k, if accept then AcceptStart(t.Value()) else PrepareStart(t.ballot))])
    case Step(id) =>
      var f := w.flights[id];
      var slot := w.s.attempts[f.k].slot;
      var cells, move := CellsAfter(w.CellsAt(f.n, slot), f.stage), MoveOf(w.CellsAt(f.n, slot), f.stage);
      World(StateAfter(Put(w.s, f.n, Rewritten(w.s.replicas[f.n], slot, cells.node)), f, move),
            w.versions[(f.n, slot) := cells.version],
            if move.Goes? then w.flights[id := f.(stage := move.next)] else w.flights - {id})
  }

  ghost predicate WorldStepAt(g: Group, overlap: bool, run: seq<World>, i: nat) {
    i + 1 < |run| ==> Follows(g, overlap, run[i], run[i + 1])
  }

  ghost predicate Follows(g: Group, overlap: bool, w: World, w': World) {
    exists e :: Possible(g, overlap, w, e) && w' == After(g, overlap, w, e)
  }

  ghost predicate IsWorldRun(g: Group, overlap: bool, run: seq<World>) {
    |run| > 0 && run[0] == World(Init(g), map[], map[]) && forall i: nat :: WorldStepAt(g, overlap, run, i)
  }

  // ---- handlers that never overlap ----

  /** The handler works for its attempt, and what it has loaded is still there. */
  ghost predicate Sound(w: World, f: Flight) {
    && f.n in w.s.replicas && f.k < |w.s.attempts| && !w.s.attempts[f.k].SkipsPrepare()
    && (match f.stage
        case PrepareStart(b) => b == w.s.attempts[f.k].ballot
        case PrepareChecked(b, _) => b == w.s.attempts[f.k].ballot
        case PrepareLoaded(b, _, _) => b == w.s.attempts[f.k].ballot
        case AcceptStart(e) => Settled(w.s, f.k) && e == w.s.attempts[f.k].Value()
        case AcceptChecked(e, _) => Settled(w.s, f.k) && e == w.s.attempts[f.k].Value()
        case AcceptRaising(e, _) => Settled(w.s, f.k) && e == w.s.attempts[f.k].Value()
        case AcceptRaised(e) => Settled(w.s, f.k) && e == w.s.attempts[f.k].Value()
        case AcceptLoaded(e, _) => Settled(w.s, f.k) && e == w.s.attempts[f.k].Value())
    && Current(w.CellsAt(f.n, w.s.attempts[f.k].slot), f.stage)
  }

  ghost predicate SoundAt(w: World, id: Ticket) {
    id in w.flights ==> Sound(w, w.flights[id])
  }

  ghost predicate Apart(w: World, i: Ticket, j: Ticket) {
    i in w.flights && j in w.flights && w.flights[i].n == w.flights[j].n ==>
      SameSlot(w.s, w.flights[i].k, w.flights[j].k) ==> i == j
  }

  ghost predicate WorldInv(g: Group, w: World) {
    && Inv(g, w.s) && AllClassic(w.s)
    && (forall id: Ticket {:trigger SoundAt(w, id)} :: SoundAt(w, id))
    && (forall i: Ticket, j: Ticket {:trigger Apart(w, i, j)} :: Apart(w, i, j))
  }

  /** A promise that moves up on its own breaks nothing. */
  lemma {:induction false} RaiseKeepsInv(g: Group, s: State, s': State, n: nat, slot: nat, b: Ballot)
    requires Inv(g, s) && n in s.replicas && AtMost(Bar(s.replicas[n].At(slot)), b)
    requires OneSlotMoved(s, s', n, slot, s.replicas[n].At(slot).(promised := Some(b)))
    requires s'.promises == s.promises && s'.accepts == s.accepts
    ensures Inv(g, s')
  {
    assert Climbs(s, s');
    KeepsPromises(g, s, s');
    KeepsAccepted(g, s, s');
    KeepsReports(g, s, s');
    KeepsRule(g, s, s');
  }

  lemma RewriteMovesOneSlot(s: State, s': State, n: nat, slot: nat, node: SlotState)
    requires n in s.replicas && s'.attempts == s.attempts
    requires s'.replicas == s.replicas[n := Rewritten(s.replicas[n], slot, node)]
    ensures OneSlotMoved(s, s', n, slot, node)
  {
  }

  lemma {:induction false} RewriteNothingIsQuiet(g: Group, s: State, s': State, n: nat, slot: nat)
    requires Inv(g, s) && n in s.replicas && s' == Put(s, n, Rewritten(s.replicas[n], slot, s.replicas[n].At(slot)))
    ensures Inv(g, s')
  {
    assert WellIndexed(g, s') && Safety.Quiet(s, s');
    QuietStepKeepsInv(g, s, s');
  }

  /** One step of a handler that has its slot to itself keeps the group's invariant. */
  lemma {:induction false} SoloStepKeepsInv(g: Group, overlap: bool, w: World, id: Ticket)
    requires Inv(g, w.s) && Possible(g, overlap, w, Step(id)) && Sound(w, w.flights[id])
    ensures Inv(g, After(g, overlap, w, Step(id)).s)
  {
    var f := w.flights[id];
    var t := w.s.attempts[f.k];
    var s' := After(g, overlap, w, Step(id)).s;
    var node := CellsAfter(w.CellsAt(f.n, t.slot), f.stage).node;
    RewriteMovesOneSlot(w.s, s', f.n, t.slot, node);
    if f.stage.PrepareLoaded? {
      Safety.PromiseKeepsInv(g, w.s, s', f.n, f.k);
    } else if f.stage.AcceptLoaded? {
      Safety.AcceptKeepsInv(g, w.s, s', f.n, f.k);
    } else if f.stage.AcceptRaising? {
      RaiseKeepsInv(g, w.s, s', f.n, t.slot, t.ballot);
    } else {
      RewriteNothingIsQuiet(g, w.s, s', f.n, t.slot);
    }
  }

  lemma {:induction false} OutsideIsQuiet(g: Group, s: State, a: Action)
    requires WellIndexed(g, s) && Enabled(g, s, a) && !a.OnPrepare? && !a.OnAccept?
    ensures Safety.Quiet(s, Apply(g, s, a))
  {
    if a.Proceed? {
      ProceedEffect(g, s, a.k, a.folded, a.adopted);
    } else if a.LeaderWrite? || a.Prepare? {
      ProposeEffect(g, s, a);
    } else {
      ElectionEffect(g, s, a);
      ShiftIsQuiet(g, s, Apply(g, s, a), a.n, Apply(g, s, a).replicas[a.n]);
    }
  }

  /** A handler stays sound while its attempt and its cells stay. */
  lemma {:induction false} SoundStays(w: World, w': World, f: Flight)
    requires Sound(w, f) && Grows(w.s, w'.s)
    requires w'.CellsAt(f.n, w.s.attempts[f.k].slot) == w.CellsAt(f.n, w.s.attempts[f.k].slot)
    ensures Sound(w', f)
  {
  }

  lemma {:induction false} OutsideKeepsWorldInv(g: Group, overlap: bool, w: World, e: Event)
    requires g.forceClassic && WorldInv(g, w) && e.Outside? && Possible(g, overlap, w, e)
    ensures WorldInv(g, After(g, overlap, w, e))
  {
    var w' := After(g, overlap, w, e);
    OutsideIsQuiet(g, w.s, e.a);
    StepKeepsInv(g, w.s, e.a);
    ClassicStays(g, w.s, e.a);
    forall id: Ticket
      ensures SoundAt(w', id)
    {
      assert SoundAt(w, id);
      if id in w'.flights {
        SoundStays(w, w', w.flights[id]);
      }
    }
    forall i: Ticket, j: Ticket
      ensures Apart(w', i, j)
    {
      assert Apart(w, i, j) && SoundAt(w, i) && SoundAt(w, j);
    }
  }

  lemma {:induction false} ClassicStays(g: Group, s: State, a: Action)
    requires g.forceClassic && AllClassic(s) && Enabled(g, s, a)
    ensures AllClassic(Apply(g, s, a))
  {
  }

  lemma {:induction false} ReceivingIsQuiet(g: Group, s: State, n: nat, t: Attempt)
    requires Inv(g, s) && n in s.replicas
    ensures var s' := Put(s, n, Received(s.replicas[n], t)); Safety.Quiet(s, s') && Inv(g, s')
  {
    var s' := Put(s, n, Received(s.replicas[n], t));
    assert WellIndexed(g, s') && Safety.Quiet(s, s');
    QuietStepKeepsInv(g, s, s');
  }

  /** A handler that finds its slot free stays apart from all others. */
  lemma {:induction false} ReceivedApart(g: Group, w: World, e: Event, i: Ticket, j: Ticket)
    requires e.Receive? && Possible(g, false, w, e) && Apart(w, i, j)
    requires SoundAt(w, i) && SoundAt(w, j)
    ensures Apart(After(g, false, w, e), i, j)
  {
    assert i in w.flights ==> w.flights[i] in w.flights.Values;
    assert j in w.flights ==> w.flights[j] in w.flights.Values;
  }

  lemma {:induction false} ReceiveKeepsWorldInv(g: Group, w: World, e: Event)
    requires WorldInv(g, w) && e.Receive? && Possible(g, false, w, e)
    ensures WorldInv(g, After(g, false, w, e))
  {
    var w' := After(g, false, w, e);
    ReceivingIsQuiet(g, w.s, e.n, w.s.attempts[e.k]);
    forall id: Ticket
      ensures SoundAt(w', id)
    {
      assert SoundAt(w, id);
      if id in w.flights {
        SoundStays(w, w', w.flights[id]);
      }
    }
    forall i: Ticket, j: Ticket
      ensures Apart(w', i, j)
    {
      assert Apart(w, i, j) && SoundAt(w, i) && SoundAt(w, j);
      ReceivedApart(g, w, e, i, j);
    }
  }

  /** A step rewrites one slot of one replica. */
  lemma {:induction false} StepElsewhere(g: Group, w: World, id: Ticket, n: nat, slot: nat)
    requires Possible(g, false, w, Step(id)) && n in w.s.replicas
    requires n != w.flights[id].n || slot != w.s.attempts[w.flights[id].k].slot
    ensures After(g, false, w, Step(id)).CellsAt(n, slot) == w.CellsAt(n, slot)
  {
  }

  lemma {:induction false} StepHere(g: Group, w: World, id: Ticket)
    requires Possible(g, false, w, Step(id))
    ensures var f := w.flights[id]; var slot := w.s.attempts[f.k].slot;
            After(g, false, w, Step(id)).CellsAt(f.n, slot) == CellsAfter(w.CellsAt(f.n, slot), f.stage)
  {
  }

  lemma {:induction false} StepLeavesAttempts(g: Group, w: World, id: Ticket)
    requires Possible(g, false, w, Step(id))
    ensures var s' := After(g, false, w, Step(id)).s;
            s'.attempts == w.s.attempts && s'.replicas.Keys == w.s.replicas.Keys
  {
  }

  lemma {:induction false} MovingStaysSound(w: World, w': World, f: Flight)
    requires Sound(w, f) && w'.s.attempts == w.s.attempts && f.n in w'.s.replicas
    requires w'.CellsAt(f.n, w.s.attempts[f.k].slot) == CellsAfter(w.CellsAt(f.n, w.s.attempts[f.k].slot), f.stage)
    ensures var move := MoveOf(w.CellsAt(f.n, w.s.attempts[f.k].slot), f.stage);
            move.Goes? ==> Sound(w', f.(stage := move.next))
  {
    CurrentStays(w.CellsAt(f.n, w.s.attempts[f.k].slot), f.stage);
  }

  lemma {:induction false} SoundElsewhere(w: World, w': World, f: Flight)
    requires Sound(w, f) && w'.s.attempts == w.s.attempts && f.n in w'.s.replicas
    requires w'.CellsAt(f.n, w.s.attempts[f.k].slot) == w.CellsAt(f.n, w.s.attempts[f.k].slot)
    ensures Sound(w', f)
  {
  }

  lemma {:induction false} StepKeepsWorldInv(g: Group, w: World, e: Event)
    requires WorldInv(g, w) && e.Step? && Possible(g, false, w, e)
    ensures WorldInv(g, After(g, false, w, e))
  {
    var w' := After(g, false, w, e);
    assert SoundAt(w, e.id);
    SoloStepKeepsInv(g, false, w, e.id);
    StepLeavesAttempts(g, w, e.id);
    StepHere(g, w, e.id);
    forall id: Ticket
      ensures SoundAt(w', id)
    {
      assert SoundAt(w, id) && Apart(w, id, e.id);
      if id == e.id {
        MovingStaysSound(w, w', w.flights[id]);
      } else if id in w.flights {
        var f := w.flights[id];
        StepElsewhere(g, w, e.id, f.n, w.s.attempts[f.k].slot);
        SoundElsewhere(w, w', f);
      }
    }
    forall i: Ticket, j: Ticket
      ensures Apart(w', i, j)
    {
      assert Apart(w, i, j);
    }
  }

  lemma {:induction false} EventKeepsWorldInv(g: Group, w: World, e: Event)
    requires g.forceClassic && WorldInv(g, w) && Possible(g, false, w, e)
    ensures WorldInv(g, After(g, false, w, e))
  {
    if e.Outside? {
      OutsideKeepsWorldInv(g, false, w, e);
    } else if e.Receive? {
      ReceiveKeepsWorldInv(g, w, e);
    } else {
      StepKeepsWorldInv(g, w, e);
    }
  }

  lemma StartHoldsWorldInv(g: Group)
    ensures WorldInv(g, World(Init(g), map[], map[]))
  {
    var s := Init(g);
    assert forall n: nat, slot: nat :: n in s.replicas ==> s.replicas[n].At(slot) == UNOPENED;
  }

  lemma {:induction false} SerialRunKeepsWorldInv(g: Group, run: seq<World>, i: nat)
    requires g.forceClassic && IsWorldRun(g, false, run) && i < |run|
    ensures WorldInv(g, run[i])
  {
    if i == 0 {
      StartHoldsWorldInv(g);
    } else {
      SerialRunKeepsWorldInv(g, run, i - 1);
      assert WorldStepAt(g, false, run, i - 1);
      var e :| Possible(g, false, run[i - 1], e) && run[i] == After(g, false, run[i - 1], e);
      EventKeepsWorldInv(g, run[i - 1], e);
    }
  }

  /** Groups that always run Phase 1 agree, step by step, when the handlers of a slot never overlap. */
  lemma SerialHandlersAgree(g: Group, run: seq<World>, i: nat)
    requires g.forceClassic && IsWorldRun(g, false, run) && i < |run|
    ensures Agreement(g, run[i].s)
  {
    SerialRunKeepsWorldInv(g, run, i);
    InvImpliesAgreement(g, run[i].s);
  }
}
