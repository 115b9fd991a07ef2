/**
 A group with one voter: its terms never fall back, a slot is taken once per leadership, and a
 write that a restart left behind is fenced by the next term before its slot is taken again.
 */
module ConsensusSingleVoter {
  import opened Common
  import opened Consensus
  import opened ConsensusSafety

  ghost predicate IsWrite(s: State, k: nat) {
    k < |s.attempts| && s.attempts[k].SkipsPrepare()
  }

  /** Nobody accepted the attempt, and its term is over. */
  ghost predicate Lost(s: State, v: nat, k: nat) {
    v in s.replicas && k < |s.attempts| && s.attempts[k].term < s.replicas[v].term && (k, v) !in s.accepts
  }

  ghost predicate Alone(s: State, v: nat) {
    && s.replicas.Keys == {v}
    && (forall q <- s.requests :: q.candidate == v)
    && (forall t <- s.terms :: t <= s.replicas[v].term)
    && (s.replicas[v].driver.Planned? ==> s.replicas[v].driver.proposed > s.replicas[v].term)
  }

  /** An attempt is of the current term at the latest, and of an earlier one once a new leader is being elected. */
  ghost predicate Dated(s: State, v: nat, k: nat) {
    v in s.replicas && k < |s.attempts| ==>
      var r := s.replicas[v];
      && s.attempts[k].term <= r.term
      && (!r.tasks && (r.driver.Standing? || r.driver.Polling?) ==> s.attempts[k].term < r.term)
  }

  ghost predicate Seen(s: State, v: nat, k: nat, n: nat) {
    (k, n) in s.accepts ==>
      n == v && v in s.replicas && k < |s.attempts| && s.attempts[k].slot <= s.replicas[v].highestSeen
  }

  /** While proposals may go on, the slots of all writes that are not lost are taken. */
  ghost predicate Taken(s: State, v: nat, k: nat) {
    IsWrite(s, k) && v in s.replicas && s.replicas[v].tasks ==>
      s.attempts[k].slot < s.replicas[v].nextSlot || Lost(s, v, k)
  }

  /** Of two writes at one slot the earlier is lost. */
  ghost predicate Succeeds(s: State, v: nat, j: nat, k: nat) {
    j < k && IsWrite(s, j) && IsWrite(s, k) && s.attempts[j].slot == s.attempts[k].slot ==> Lost(s, v, j)
  }

  ghost predicate SingleInv(s: State, v: nat) {
    && Alone(s, v)
    && (forall k: nat {:trigger Dated(s, v, k)} :: Dated(s, v, k))
    && (forall k: nat, n: nat {:trigger Seen(s, v, k, n)} :: Seen(s, v, k, n))
    && (forall k: nat {:trigger Taken(s, v, k)} :: Taken(s, v, k))
    && (forall j: nat, k: nat {:trigger Succeeds(s, v, j, k)} :: Succeeds(s, v, j, k))
  }

  lemma {:induction false} AloneStays(g: Group, s: State, a: Action, v: nat)
    requires Alone(s, v) && Enabled(g, s, a) && (a.OnPrepare? || a.OnAccept? ==> Dated(s, v, a.k))
    ensures Alone(Apply(g, s, a), v) && Apply(g, s, a).replicas[v].term >= s.replicas[v].term
  {
  }

  lemma {:induction false} DatedStays(g: Group, s: State, a: Action, v: nat, k: nat)
    requires Alone(s, v) && Enabled(g, s, a) && Dated(s, v, k) && (a.OnPrepare? || a.OnAccept? ==> Dated(s, v, a.k))
    ensures Dated(Apply(g, s, a), v, k)
  {
  }

  lemma {:induction false} SeenStays(g: Group, s: State, a: Action, v: nat, k: nat, n: nat)
    requires Alone(s, v) && Enabled(g, s, a) && Seen(s, v, k, n)
    ensures Seen(Apply(g, s, a), v, k, n)
  {
  }

  /** A lost write stays lost: accepting it takes a term that is over. */
  lemma {:induction false} LostStays(g: Group, s: State, a: Action, v: nat, k: nat)
    requires Alone(s, v) && Enabled(g, s, a) && Lost(s, v, k) && (a.OnPrepare? || a.OnAccept? ==> Dated(s, v, a.k))
    ensures Lost(Apply(g, s, a), v, k)
  {
    AloneStays(g, s, a, v);
  }

  lemma {:induction false} TakenStays(g: Group, s: State, a: Action, v: nat, k: nat)
    requires Alone(s, v) && Enabled(g, s, a) && Dated(s, v, k) && Seen(s, v, k, v) && Taken(s, v, k)
    requires a.OnPrepare? || a.OnAccept? ==> Dated(s, v, a.k)
    ensures Taken(Apply(g, s, a), v, k)
  {
    if Lost(s, v, k) {
      LostStays(g, s, a, v, k);
    }
  }

  lemma {:induction false} SucceedsStays(g: Group, s: State, a: Action, v: nat, j: nat, k: nat)
    requires Alone(s, v) && Enabled(g, s, a) && Taken(s, v, j) && Succeeds(s, v, j, k)
    requires a.OnPrepare? || a.OnAccept? ==> Dated(s, v, a.k)
    ensures Succeeds(Apply(g, s, a), v, j, k)
  {
    if Lost(s, v, j) {
      LostStays(g, s, a, v, j);
    }
  }

  lemma {:induction false} StepKeepsSingleInv(g: Group, s: State, a: Action, v: nat)
    requires SingleInv(s, v) && Enabled(g, s, a)
    ensures SingleInv(Apply(g, s, a), v)
  {
    var s' := Apply(g, s, a);
    assert a.OnPrepare? || a.OnAccept? ==> Dated(s, v, a.k);
    AloneStays(g, s, a, v);
    forall k: nat
      ensures Dated(s', v, k)
    {
      assert Dated(s, v, k);
      DatedStays(g, s, a, v, k);
    }
    forall k: nat, n: nat
      ensures Seen(s', v, k, n)
    {
      assert Seen(s, v, k, n);
      SeenStays(g, s, a, v, k, n);
    }
    forall k: nat
      ensures Taken(s', v, k)
    {
      assert Dated(s, v, k) && Seen(s, v, k, v) && Taken(s, v, k);
      TakenStays(g, s, a, v, k);
    }
    forall j: nat, k: nat
      ensures Succeeds(s', v, j, k)
    {
      assert Taken(s, v, j) && Succeeds(s, v, j, k);
      SucceedsStays(g, s, a, v, j, k);
    }
  }

  lemma {:induction false} RunKeepsSingleInv(g: Group, run: seq<State>, i: nat, v: nat)
    requires g.voters == {v} && IsRun(g, run) && i < |run|
    ensures SingleInv(run[i], v)
  {
    if i > 0 {
      RunKeepsSingleInv(g, run, i - 1, v);
      assert StepAt(g, run, i - 1);
      var a :| Enabled(g, run[i - 1], a) && run[i] == Apply(g, run[i - 1], a);
      StepKeepsSingleInv(g, run[i - 1], a, v);
    }
  }

  lemma {:induction false} SingleWritesCoincide(s: State, v: nat)
    requires SingleInv(s, v)
    ensures WritesCoincide(s)
  {
    forall j: nat, k: nat, m: nat, n: nat | AcceptedWrite(s, j, m) && AcceptedWrite(s, k, n) && SameSlot(s, j, k)
      ensures j == k
    {
      assert Seen(s, v, j, m) && Seen(s, v, k, n);
      assert Succeeds(s, v, j, k) && Succeeds(s, v, k, j) && IsWrite(s, j) && IsWrite(s, k);
    }
  }

  /** A single voter agrees with itself on every slot, with leader writes or without. */
  lemma SingleVoterAgrees(g: Group, run: seq<State>, i: nat)
    requires |g.voters| <= 1 && IsRun(g, run) && i < |run|
    ensures Agreement(g, run[i])
  {
    if g.voters == {} {
      assert forall k: nat :: !ChosenBy(g, run[i], k);
    } else {
      var v :| v in g.voters;
      assert |g.voters - {v}| == 0;
      assert g.voters == {v} + (g.voters - {v});
      RunKeepsInv(g, run, i);
      RunKeepsSingleInv(g, run, i, v);
      SingleWritesCoincide(run[i], v);
      InvImpliesAgreement(g, run[i]);
    }
  }
}
