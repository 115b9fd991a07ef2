/**
 The acceptor below the protocol. Run alone, its two handlers are the atomic steps the
 protocol is stated over. Several of them may work on one slot at once: they share the slot's
 two atomic cells, and each load and each compare-and-swap is a step of its own.
 */
module Acceptor {
  import opened Common
  import opened Consensus

  datatype Reply = Promised(accepted: Option<Entry>) | Accepted | Rejected(current: Ballot)

  // ---- handlers that run alone ----

  class PxAcceptor {
    var slots: map<nat, SlotState>
    var trimSlot: nat
    var highestSeen: nat

    function At(slot: nat): SlotState
      reads this
    {
      if slot in slots then slots[slot] else UNOPENED
    }

    /** Everything about other slots, and the ceiling that counts every opened slot. */
    twostate predicate OnlyOpened(slot: nat)
      reads this
    {
      && slots == old(slots)[slot := At(slot)] && trimSlot == old(trimSlot)
      && highestSeen == if slot > old(highestSeen) then slot else old(highestSeen)
    }

    method OpenSlot(slot: nat)
      modifies this`slots, this`highestSeen
      ensures OnlyOpened(slot) && slot in slots && At(slot) == old(At(slot))
    {
      slots := slots[slot := At(slot)];
      if slot > highestSeen {
        highestSeen := slot;
      }
    }

    method Prepare(slot: nat, ballot: Ballot) returns (reply: Reply)
      modifies this`slots, this`highestSeen
      ensures slot < trimSlot ==> reply == Rejected(LOWEST) && slots == old(slots) && highestSeen == old(highestSeen)
      ensures slot >= trimSlot ==> OnlyOpened(slot)
      ensures slot >= trimSlot && Promises(old(At(slot)), ballot) ==>
                reply == Promised(old(At(slot)).accepted) && At(slot) == old(At(slot)).(promised := Some(ballot))
      ensures slot >= trimSlot && !Promises(old(At(slot)), ballot) ==>
                reply == Rejected(old(At(slot)).promised.value) && At(slot) == old(At(slot))
    {
      if slot < trimSlot {
        return Rejected(LOWEST);
      }
      OpenSlot(slot);
      var node := slots[slot];
      if node.promised.Some? && AtMost(ballot, node.promised.value) {
        return Rejected(node.promised.value);
      }
      reply := Promised(node.accepted);
      slots := slots[slot := node.(promised := Some(ballot))];
    }

    method InnerAccept(slot: nat, entry: Entry) returns (reply: Reply)
      modifies this`slots, this`highestSeen
      ensures slot < trimSlot ==> reply == Rejected(LOWEST) && slots == old(slots) && highestSeen == old(highestSeen)
      ensures slot >= trimSlot ==> OnlyOpened(slot)
      ensures slot >= trimSlot && Accepts(old(At(slot)), entry.ballot) ==>
                reply == Accepted && At(slot) == SlotState(Raised(old(At(slot)), entry.ballot), Some(entry))
      ensures slot >= trimSlot && !Accepts(old(At(slot)), entry.ballot) ==>
                reply == Rejected(old(At(slot)).promised.value) && At(slot) == old(At(slot))
    {
      if slot < trimSlot {
        return Rejected(LOWEST);
      }
      OpenSlot(slot);
      var node := slots[slot];
      if node.promised.Some? && Below(entry.ballot, node.promised.value) {
        return Rejected(node.promised.value);
      }
      if Below(Bar(node), entry.ballot) {
        node := node.(promised := Some(entry.ballot));
      }
      slots := slots[slot := node.(accepted := Some(entry))];
      reply := Accepted;
    }
  }

  // ---- the proposer's fold over the answers ----

  datatype Answer = Promising(accepted: Option<Entry>) | Rejecting(promised: Ballot) | TermStale(term: nat)

  ghost function Promisers(answers: map<nat, Answer>): set<nat> {
    set n <- answers | answers[n].Promising?
  }

  /** The adopted entry is the newest reported one. */
  ghost predicate Newest(answers: map<nat, Answer>, adopted: Option<Entry>) {
    && (adopted.Some? ==> exists n :: n in Promisers(answers) && answers[n].accepted == adopted)
    && (forall n :: n in Promisers(answers) && answers[n].accepted.Some? ==>
          adopted.Some? && AtMost(answers[n].accepted.value.ballot, adopted.value.ballot))
  }

  ghost predicate HighestRound(answers: map<nat, Answer>, round: Option<nat>) {
    && (round.Some? ==> exists n <- answers :: answers[n].Rejecting? && answers[n].promised.round == round.value)
    && (forall n <- answers :: answers[n].Rejecting? ==> round.Some? && answers[n].promised.round <= round.value)
  }

  ghost predicate HighestTerm(answers: map<nat, Answer>, term: Option<nat>) {
    && (term.Some? ==> exists n <- answers :: answers[n].TermStale? && answers[n].term == term.value)
    && (forall n <- answers :: answers[n].TermStale? ==> term.Some? && answers[n].term <= term.value)
  }

  function Highest(value: nat, known: Option<nat>): Option<nat> {
    Some(if known.Some? && known.value > value then known.value else value)
  }

  function Newer(adopted: Option<Entry>, candidate: Option<Entry>): Option<Entry> {
    if candidate.Some? && (adopted.None? || Below(adopted.value.ballot, candidate.value.ballot)) then candidate
    else adopted
  }

  lemma NewestExtends(answers: map<nat, Answer>, adopted: Option<Entry>, n: nat, answer: Answer)
    requires Newest(answers, adopted) && n !in answers
    ensures Newest(answers[n := answer], if answer.Promising? then Newer(adopted, answer.accepted) else adopted)
  {
    var (more, now) := (answers[n := answer], if answer.Promising? then Newer(adopted, answer.accepted) else adopted);
    if now.Some? && now == adopted {
      var m :| m in Promisers(answers) && answers[m].accepted == adopted;
      assert m in Promisers(more) && more[m].accepted == now;
    } else if now.Some? {
      assert n in Promisers(more) && more[n].accepted == now;
    }
  }

  lemma HighestExtends(answers: map<nat, Answer>, round: Option<nat>, term: Option<nat>, n: nat, answer: Answer)
    requires HighestRound(answers, round) && HighestTerm(answers, term) && n !in answers
    ensures HighestRound(answers[n := answer],
                         if answer.Rejecting? then Highest(answer.promised.round, round) else round)
    ensures HighestTerm(answers[n := answer], if answer.TermStale? then Highest(answer.term, term) else term)
  {
    var more := answers[n := answer];
    assert more[n] == answer && forall m <- answers :: more[m] == answers[m];
  }

  ghost function Counted(answers: map<nat, Answer>, voters: set<nat>): set<nat> {
    set n <- answers | answers[n].Promising? && n in voters
  }

  lemma CountedExtends(answers: map<nat, Answer>, n: nat, answer: Answer, voters: set<nat>)
    requires n !in answers
    ensures var more := Counted(answers[n := answer], voters);
            if answer.Promising? && n in voters then
              more == Counted(answers, voters) + {n} && n !in Counted(answers, voters)
            else more == Counted(answers, voters)
  {
  }

  class ReplyFold {
    const voters: set<nat>
    var accepted: nat
    var adopted: Option<Entry>
    var rejectedRound: Option<nat>
    var staleTerm: Option<nat>
    ghost var answers: map<nat, Answer>

    ghost predicate Valid()
      reads this
    {
      && accepted == |Counted(answers, voters)|
      && Newest(answers, adopted) && HighestRound(answers, rejectedRound) && HighestTerm(answers, staleTerm)
    }

    constructor (voters: set<nat>)
      ensures Valid() && answers == map[] && this.voters == voters
    {
      this.voters := voters;
      accepted, adopted, rejectedRound, staleTerm, answers := 0, None, None, None, map[];
    }

    method ConsiderAccepted(candidate: Entry)
      modifies this`adopted
      ensures adopted == Newer(old(adopted), Some(candidate))
    {
      if adopted.None? || Below(adopted.value.ballot, candidate.ballot) {
        adopted := Some(candidate);
      }
    }

    /** Fold one more answer; only voters are counted, but everyone's report is considered. */
    method Fold(n: nat, answer: Answer)
      requires Valid() && n !in answers
      modifies this
      ensures Valid() && answers == old(answers)[n := answer]
    {
      NewestExtends(answers, adopted, n, answer);
      HighestExtends(answers, rejectedRound, staleTerm, n, answer);
      CountedExtends(answers, n, answer, voters);
      answers := answers[n := answer];
      match answer
      case Promising(reported) =>
        if n in voters {
          accepted := accepted + 1;
        }
        if reported.Some? {
          ConsiderAccepted(reported.value);
        }
      case Rejecting(b) => rejectedRound := Highest(b.round, rejectedRound);
      case TermStale(t) => staleTerm := Highest(t, staleTerm);
    }

    /** Enough promises were folded, and then the protocol's rule for adopting a value is met. */
    method Proceeds() returns (yes: bool)
      requires Valid()
      ensures yes <==> Majority(voters, Counted(answers, voters))
      ensures forall k: nat, promises: map<(nat, nat), Option<Entry>> ::
                Agrees(promises, k, answers) ==> IsAdopted(promises, k, Promisers(answers), adopted)
    {
      yes := accepted >= |voters| / 2 + 1;
    }
  }

  /** The folded promises are those the group has for attempt k. */
  ghost predicate Agrees(promises: map<(nat, nat), Option<Entry>>, k: nat, answers: map<nat, Answer>) {
    forall n :: n in answers && answers[n].Promising? ==> (k, n) in promises && promises[(k, n)] == answers[n].accepted
  }

  // ---- handlers that overlap on one slot ----

  /** A handler between two of its atomic steps, with what it has loaded so far. */
  datatype Handler =
    | PrepareStart(ballot: Ballot)
    | PrepareChecked(ballot: Ballot, seen: Option<Ballot>)
    | PrepareLoaded(ballot: Ballot, seen: Option<Ballot>, report: Option<Entry>)
    | AcceptStart(entry: Entry)
    | AcceptChecked(entry: Entry, seen: Option<Ballot>)
    | AcceptRaising(entry: Entry, seen: Option<Ballot>)
    | AcceptRaised(entry: Entry)
    | AcceptLoaded(entry: Entry, version: nat)

  /** The two atomic cells of a slot; the version counts the writes to the accepted one. */
  datatype Cells = Cells(node: SlotState, version: nat)

  /** What an atomic step leads to: the next one, or the reply. */
  datatype Move = Goes(next: Handler) | Replies(reply: Reply)

  /** One atomic step; a lost compare-and-swap on a promise or a value starts over. */
  function MoveOf(c: Cells, h: Handler): Move {
    match h
    case PrepareStart(b) =>
      if Promises(c.node, b) then Goes(PrepareChecked(b, c.node.promised)) else Replies(Rejected(Bar(c.node)))
    case PrepareChecked(b, seen) => Goes(PrepareLoaded(b, seen, c.node.accepted))
    case PrepareLoaded(b, seen, report) =>
      if c.node.promised == seen then Replies(Promised(report)) else Goes(PrepareStart(b))
    case AcceptStart(e) =>
      if Accepts(c.node, e.ballot) then Goes(AcceptChecked(e, c.node.promised)) else Replies(Rejected(Bar(c.node)))
    case AcceptChecked(e, seen) =>
      Goes(if Below(Bar(c.node), e.ballot) then AcceptRaising(e, seen) else AcceptRaised(e))
    case AcceptRaising(e, _) => Goes(AcceptRaised(e))
    case AcceptRaised(e) => Goes(AcceptLoaded(e, c.version))
    case AcceptLoaded(e, version) => if c.version == version then Replies(Accepted) else Goes(AcceptStart(e))
  }

  /** The cells after that step. */
  function CellsAfter(c: Cells, h: Handler): Cells {
    match h
    case PrepareLoaded(b, seen, _) =>
      if c.node.promised == seen then c.(node := c.node.(promised := Some(b))) else c
    case AcceptRaising(e, seen) =>
      if c.node.promised == seen then c.(node := c.node.(promised := Some(e.ballot))) else c
    case AcceptLoaded(e, version) =>
      if c.version == version then Cells(c.node.(accepted := Some(e)), version + 1) else c
    case _ => c
  }

  /** What a handler that has the slot to itself has loaded is still what the cells hold. */
  predicate Current(c: Cells, h: Handler) {
    match h
    case PrepareStart(_) => true
    case PrepareChecked(b, seen) => seen == c.node.promised && Promises(c.node, b)
    case PrepareLoaded(b, seen, report) => seen == c.node.promised && Promises(c.node, b) && report == c.node.accepted
    case AcceptStart(_) => true
    case AcceptChecked(e, seen) => seen == c.node.promised && Accepts(c.node, e.ballot)
    case AcceptRaising(e, seen) => seen == c.node.promised && Accepts(c.node, e.ballot)
    case AcceptRaised(e) => Bar(c.node) == e.ballot
    case AcceptLoaded(e, version) => Bar(c.node) == e.ballot && version == c.version
  }

  lemma CurrentStays(c: Cells, h: Handler)
    requires Current(c, h)
    ensures MoveOf(c, h).Goes? ==> Current(CellsAfter(c, h), MoveOf(c, h).next)
  {
  }

  /** A Promised reply that was sent. */
  datatype Promise = Promise(ballot: Ballot, report: Option<Entry>)

  datatype Slot = Slot(cells: Cells, handlers: seq<Handler>, promises: set<Promise>, accepts: set<Entry>)

  function Begin(s: Slot, h: Handler): Slot {
    s.(handlers := s.handlers + [h])
  }

  function Becomes(s: Slot, i: nat, h: Handler): Slot
    requires i < |s.handlers|
  {
    s.(handlers := s.handlers[i := h])
  }

  function Ends(s: Slot, i: nat): Slot
    requires i < |s.handlers|
  {
    s.(handlers := s.handlers[..i] + s.handlers[i + 1..])
  }

  /** One atomic step of handler i. */
  function Step(s: Slot, i: nat): Slot
    requires i < |s.handlers|
  {
    var h := s.handlers[i];
    var moved := s.(cells := CellsAfter(s.cells, h));
    match MoveOf(s.cells, h)
    case Goes(next) => Becomes(moved, i, next)
    case Replies(Rejected(_)) => Ends(moved, i)
    case Replies(Promised(report)) => Ends(moved, i).(promises := s.promises + {Promise(h.ballot, report)})
    case Replies(Accepted) => Ends(moved, i).(accepts := s.accepts + {h.entry})
  }

  /** A new request is taken up while fewer than `lanes` handlers are in flight. */
  ghost predicate MayBegin(lanes: nat, s: Slot, s': Slot) {
    && |s.handlers| < lanes
    && ((exists b :: s' == Begin(s, PrepareStart(b))) || (exists e :: s' == Begin(s, AcceptStart(e))))
  }

  ghost predicate MayStep(s: Slot, s': Slot) {
    exists i: nat :: i < |s.handlers| && s' == Step(s, i)
  }

  ghost predicate NextAt(lanes: nat, run: seq<Slot>, i: nat) {
    i + 1 < |run| ==> MayBegin(lanes, run[i], run[i + 1]) || MayStep(run[i], run[i + 1])
  }

  const EMPTY := Slot(Cells(UNOPENED, 0), [], {}, {})

  ghost predicate IsSlotRun(lanes: nat, run: seq<Slot>) {
    |run| > 0 && run[0] == EMPTY && forall i: nat :: NextAt(lanes, run, i)
  }

  /** A promise reports an entry at least as new as every older entry that is ever accepted. */
  predicate Covered(p: Promise, e: Entry) {
    Below(e.ballot, p.ballot) ==> p.report.Some? && AtMost(e.ballot, p.report.value.ballot)
  }

  ghost predicate Contract(s: Slot) {
    forall p, e :: p in s.promises && e in s.accepts ==> Covered(p, e)
  }

  // ---- one handler at a time keeps the contract ----

  ghost predicate PromisesBounded(s: Slot) {
    forall p <- s.promises :: s.cells.node.promised.Some? && AtMost(p.ballot, s.cells.node.promised.value)
  }

  ghost predicate AcceptsBounded(s: Slot) {
    forall e <- s.accepts ::
      && AtMost(e.ballot, Bar(s.cells.node))
      && s.cells.node.accepted.Some? && AtMost(e.ballot, s.cells.node.accepted.value.ballot)
  }

  ghost predicate SerialInv(s: Slot) {
    && Contract(s) && PromisesBounded(s) && AcceptsBounded(s)
    && |s.handlers| <= 1 && (|s.handlers| == 1 ==> Current(s.cells, s.handlers[0]))
  }

  lemma BallotsAreOrdered(a: Ballot, b: Ballot, c: Ballot)
    ensures AtMost(a, b) || Below(b, a)
    ensures AtMost(a, b) && AtMost(b, c) ==> AtMost(a, c)
    ensures !(Below(a, b) && AtMost(b, a))
  {
  }

  lemma PromiseKeepsInv(s: Slot)
    requires SerialInv(s) && |s.handlers| == 1 && s.handlers[0].PrepareLoaded?
    ensures SerialInv(Step(s, 0))
  {
    var h, s' := s.handlers[0], Step(s, 0);
    forall p, e | p in s'.promises && e in s'.accepts
      ensures Covered(p, e)
    {
    }
    forall p <- s'.promises
      ensures AtMost(p.ballot, h.ballot)
    {
    }
    forall e <- s'.accepts
      ensures AtMost(e.ballot, h.ballot)
    {
      BallotsAreOrdered(e.ballot, Bar(s.cells.node), h.ballot);
    }
  }

  lemma AcceptKeepsInv(s: Slot)
    requires SerialInv(s) && |s.handlers| == 1 && s.handlers[0].AcceptLoaded?
    ensures SerialInv(Step(s, 0))
  {
    var s' := Step(s, 0);
    forall p, e | p in s'.promises && e in s'.accepts
      ensures Covered(p, e)
    {
      if e !in s.accepts {
        assert AtMost(p.ballot, e.ballot);
        BallotsAreOrdered(e.ballot, p.ballot, p.ballot);
      }
    }
  }

  lemma RaiseKeepsInv(s: Slot)
    requires SerialInv(s) && |s.handlers| == 1 && s.handlers[0].AcceptRaising?
    ensures SerialInv(Step(s, 0))
  {
    var e := s.handlers[0].entry;
    forall p <- s.promises
      ensures AtMost(p.ballot, e.ballot)
    {
      BallotsAreOrdered(p.ballot, s.cells.node.promised.value, e.ballot);
    }
    forall x <- s.accepts
      ensures AtMost(x.ballot, e.ballot)
    {
      BallotsAreOrdered(x.ballot, Bar(s.cells.node), e.ballot);
    }
  }

  lemma SerialStepKeepsInv(s: Slot, s': Slot)
    requires SerialInv(s) && (MayBegin(1, s, s') || MayStep(s, s'))
    ensures SerialInv(s')
  {
    if MayStep(s, s') {
      match s.handlers[0]
      case PrepareLoaded(_, _, _) => PromiseKeepsInv(s);
      case AcceptLoaded(_, _) => AcceptKeepsInv(s);
      case AcceptRaising(_, _) => RaiseKeepsInv(s);
      case AcceptChecked(e, _) => BallotsAreOrdered(e.ballot, Bar(s.cells.node), e.ballot);
      case _ =>
    }
  }

  lemma {:induction false} SerialRunKeepsInv(lanes: nat, run: seq<Slot>, n: nat)
    requires lanes <= 1 && IsSlotRun(lanes, run) && n < |run|
    ensures SerialInv(run[n])
  {
    if n > 0 {
      SerialRunKeepsInv(lanes, run, n - 1);
      assert NextAt(lanes, run, n - 1);
      SerialStepKeepsInv(run[n - 1], run[n]);
    }
  }

  // ---- two handlers break it ----

  const OLD := Entry(Ballot(1, 1), 1, "old")

  const HIGH := Ballot(2, 2)

  /** A slot on which nothing has been accepted. */
  function Quiet(promised: Option<Ballot>, handlers: seq<Handler>): Slot {
    Slot(Cells(SlotState(promised, None), 0), handlers, {}, {})
  }

  /** Accept checks the promise, Prepare promises a higher ballot, then Accept writes below it. */
  function OverlapRun(): seq<Slot> {
    var low := Some(OLD.ballot);
    var accept := AcceptLoaded(OLD, 0);
    [EMPTY,
     Quiet(None, [AcceptStart(OLD)]),
     Quiet(None, [AcceptChecked(OLD, None)]),
     Quiet(None, [AcceptRaising(OLD, None)]),
     Quiet(low, [AcceptRaised(OLD)]),
     Quiet(low, [accept]),
     Quiet(low, [accept, PrepareStart(HIGH)]),
     Quiet(low, [accept, PrepareChecked(HIGH, low)]),
     Quiet(low, [accept, PrepareLoaded(HIGH, low, None)]),
     Slot(Cells(SlotState(Some(HIGH), None), 0), [accept], {Promise(HIGH, None)}, {}),
     Slot(Cells(SlotState(Some(HIGH), Some(OLD)), 1), [], {Promise(HIGH, None)}, {OLD})]
  }

  lemma OverlapIsARun(lanes: nat, i: nat)
    requires lanes >= 2 && i < 10
    ensures NextAt(lanes, OverlapRun(), i)
  {
    var (s, s') := (OverlapRun()[i], OverlapRun()[i + 1]);
    if i == 0 {
      assert s' == Begin(s, AcceptStart(OLD));
    } else if i == 5 {
      assert s' == Begin(s, PrepareStart(HIGH));
    } else if 5 < i < 9 {
      assert s' == Step(s, 1);
    } else {
      assert s' == Step(s, 0);
    }
  }

  lemma OverlapBreaksTheContract(lanes: nat)
    requires lanes >= 2
    ensures IsSlotRun(lanes, OverlapRun()) && !Contract(OverlapRun()[10])
  {
    forall i: nat
      ensures NextAt(lanes, OverlapRun(), i)
    {
      if i < 10 {
        OverlapIsARun(lanes, i);
      }
    }
    assert !Covered(Promise(HIGH, None), OLD);
  }

  /** The acceptor keeps the contract in every run exactly when the handlers of a slot never overlap. */
  lemma ContractIffSerialized(lanes: nat)
    ensures (forall run, n: nat :: IsSlotRun(lanes, run) && n < |run| ==> Contract(run[n])) <==> lanes <= 1
  {
    if lanes <= 1 {
      forall run, n: nat | IsSlotRun(lanes, run) && n < |run|
        ensures Contract(run[n])
      {
        SerialRunKeepsInv(lanes, run, n);
      }
    } else {
      OverlapBreaksTheContract(lanes);
    }
  }
}
