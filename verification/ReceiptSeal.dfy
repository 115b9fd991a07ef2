/**
 Concurrent sealing of one cluster's receipt: each process writes a private temporary
 file and links it into place; only the first link can succeed. Processes may crash
 between any two steps.
 */
module ReceiptSeal {
  import opened Common
  import opened DockerLocal

  /** A file is partial until its writer has flushed it. */
  datatype Content = Partial | Complete(record: Record)

  datatype Phase =
    | Starting
    | Writing
    | Written
    | Linked
    | Beaten                 // the receipt already existed
    | Closing(normal: bool)  // about to unlink the temporary file
    | Ended(normal: bool)
    | Crashed

  datatype State = State(receipt: Option<Content>, temporary: map<nat, Content>, phase: map<nat, Phase>)

  datatype Move = Open | Write | FailWrite | Link | SyncDirectory | FailSync | Compare | Unlink | Crash

  ghost predicate Enabled(s: State, p: nat, m: Move) {
    && p in s.phase
    && match m
       case Open => s.phase[p] == Starting
       case Write => s.phase[p] == Writing
       case FailWrite => s.phase[p] == Writing
       case Link => s.phase[p] == Written && p in s.temporary
       case SyncDirectory => s.phase[p] == Linked
       case FailSync => s.phase[p] == Linked
       case Compare => s.phase[p] == Beaten && s.receipt.Some?
       case Unlink => s.phase[p].Closing?
       case Crash => !s.phase[p].Ended?
  }

  ghost function Apply(proposal: nat -> Record, s: State, p: nat, m: Move): State
    requires Enabled(s, p, m)
  {
    match m
    case Open => s.(temporary := s.temporary[p := Partial], phase := s.phase[p := Writing])
    case Write => s.(temporary := s.temporary[p := Complete(proposal(p))], phase := s.phase[p := Written])
    case FailWrite => s.(phase := s.phase[p := Closing(false)])
    case Link =>
      if s.receipt.None? then s.(receipt := Some(s.temporary[p]), phase := s.phase[p := Linked])
      else s.(phase := s.phase[p := Beaten])
    case SyncDirectory => s.(phase := s.phase[p := Closing(true)])
    case FailSync => s.(phase := s.phase[p := Closing(false)])
    case Compare => s.(phase := s.phase[p := Closing(s.receipt.value == Complete(proposal(p)))])
    case Unlink => s.(temporary := s.temporary - {p}, phase := s.phase[p := Ended(s.phase[p].normal)])
    case Crash => s.(phase := s.phase[p := Crashed])
  }

  ghost predicate Next(proposal: nat -> Record, s: State, s': State) {
    exists p, m :: Enabled(s, p, m) && s' == Apply(proposal, s, p, m)
  }

  /** Any number of processes start together; a receipt from before is complete. */
  ghost predicate Init(s: State) {
    && s.receipt != Some(Partial) && s.temporary == map[]
    && forall p :: p in s.phase ==> s.phase[p] == Starting
  }

  ghost predicate StepAt(proposal: nat -> Record, run: seq<State>, i: int) {
    0 <= i < |run| - 1 ==> Next(proposal, run[i], run[i + 1])
  }

  ghost predicate IsRun(proposal: nat -> Record, run: seq<State>) {
    |run| > 0 && Init(run[0]) && forall i {:trigger StepAt(proposal, run, i)} :: StepAt(proposal, run, i)
  }

  /** A process that got past its link, or compared equal, finds its own record stored. */
  ghost predicate StoredFor(proposal: nat -> Record, s: State, p: nat) {
    p in s.phase ==>
      && (s.phase[p] == Written ==> p in s.temporary && s.temporary[p] == Complete(proposal(p)))
      && (s.phase[p] in {Linked, Closing(true), Ended(true)} ==> s.receipt == Some(Complete(proposal(p))))
      && (s.phase[p] == Beaten ==> s.receipt.Some?)
  }

  ghost predicate Inv(proposal: nat -> Record, s: State) {
    && s.receipt != Some(Partial)
    && forall p {:trigger StoredFor(proposal, s, p)} :: StoredFor(proposal, s, p)
  }

  lemma {:induction false} StepKeepsInv(proposal: nat -> Record, s: State, s': State)
    requires Inv(proposal, s) && Next(proposal, s, s')
    ensures Inv(proposal, s') && (s.receipt.Some? ==> s'.receipt == s.receipt)
  {
    var p, m :| Enabled(s, p, m) && s' == Apply(proposal, s, p, m);
    assert StoredFor(proposal, s, p);
    forall q ensures StoredFor(proposal, s', q) {
      assert StoredFor(proposal, s, q);
    }
  }

  lemma {:induction false} InvAlong(proposal: nat -> Record, run: seq<State>, i: nat)
    requires IsRun(proposal, run) && i < |run|
    ensures Inv(proposal, run[i])
  {
    if i > 0 {
      InvAlong(proposal, run, i - 1);
      assert StepAt(proposal, run, i - 1);
      StepKeepsInv(proposal, run[i - 1], run[i]);
    } else {
      forall p ensures StoredFor(proposal, run[0], p) {}
    }
  }

  /** Once there is a receipt it is one complete record, and it is never replaced. */
  lemma {:induction false} ReceiptIsPermanent(proposal: nat -> Record, run: seq<State>, i: nat, j: nat)
    requires IsRun(proposal, run) && i <= j < |run| && run[i].receipt.Some?
    ensures run[j].receipt == run[i].receipt && run[i].receipt.value.Complete?
    decreases j - i
  {
    InvAlong(proposal, run, i);
    if i < j {
      assert StepAt(proposal, run, i);
      StepKeepsInv(proposal, run[i], run[i + 1]);
      ReceiptIsPermanent(proposal, run, i + 1, j);
    }
  }

  /** A receipt that appears during the run is the whole proposal of one of the processes. */
  lemma {:induction false} ReceiptHasProposer(proposal: nat -> Record, run: seq<State>, j: nat)
    requires IsRun(proposal, run) && j < |run| && run[0].receipt == None && run[j].receipt.Some?
    ensures exists p :: p in run[j].phase && run[j].receipt == Some(Complete(proposal(p)))
  {
    assert StepAt(proposal, run, j - 1);
    InvAlong(proposal, run, j - 1);
    var p, m :| Enabled(run[j - 1], p, m) && run[j] == Apply(proposal, run[j - 1], p, m);
    assert StoredFor(proposal, run[j - 1], p);
    if run[j - 1].receipt.Some? {
      ReceiptHasProposer(proposal, run, j - 1);
      var q :| q in run[j - 1].phase && run[j - 1].receipt == Some(Complete(proposal(q)));
      assert q in run[j].phase;
    } else {
      assert p in run[j].phase;
    }
  }

  /** What adopting the receipt answers to a request. */
  function Adopt(stored: Content, request: Request): Result<Record> {
    match stored
    case Partial => Error("invalid cluster receipt")
    case Complete(r) => if request.Agrees(r) then Ok(r) else Error("inputs differ from retained cluster inputs")
  }

  /**
   A process that returns normally has its own record stored from then on: any other
   process that returns normally proposed the same record, and any later adoption
   answers that record or rejects.
   */
  lemma {:induction false} NormalReturnIsFinal(proposal: nat -> Record, run: seq<State>, i: nat, j: nat, p: nat,
                                               q: nat, request: Request)
    requires IsRun(proposal, run) && i <= j < |run|
    requires p in run[i].phase && run[i].phase[p] == Ended(true)
    ensures run[j].receipt == Some(Complete(proposal(p)))
    ensures q in run[j].phase && run[j].phase[q] == Ended(true) ==> proposal(q) == proposal(p)
    ensures var a := Adopt(run[j].receipt.value, request); a.Ok? ==> a.value == proposal(p)
  {
    InvAlong(proposal, run, i);
    assert StoredFor(proposal, run[i], p);
    ReceiptIsPermanent(proposal, run, i, j);
    InvAlong(proposal, run, j);
    assert StoredFor(proposal, run[j], q);
  }
}
