/**
 Groups of at most two voters in orderly runs: every quorum is the whole group, so a new leader has
 heard from everyone about every slot an accepted write may occupy, and leader writes cannot clash.
 */
module ConsensusSmallGroups {
  import opened Common
  import opened Consensus
  import opened ConsensusElections
  import opened ConsensusRuns
  import opened ConsensusSafety

  ghost predicate Unanimous(g: Group) {
    forall part :: Majority(g.voters, part) ==> part == g.voters
  }

  lemma SmallGroupsAreUnanimous(g: Group)
    requires |g.voters| <= 2
    ensures Unanimous(g)
  {
    forall part | Majority(g.voters, part)
      ensures part == g.voters
    {
      if v :| v in g.voters && v !in part {
        SubsetIsNoLarger(part + {v}, g.voters);
        assert false;
      }
    }
  }

  /** An accepted entry lies at or below what its replica has seen, in slot and term. */
  ghost predicate Seen(s: State, k: nat, n: nat) {
    (k, n) in s.accepts ==>
      && k < |s.attempts| && n in s.replicas
      && s.attempts[k].slot <= s.replicas[n].highestSeen && s.attempts[k].term <= s.replicas[n].term
  }

  /** A vote in a later term reports a ceiling at or above every slot its voter had accepted. */
  ghost predicate SeenByVote(s: State, k: nat, v: Vote) {
    (k, v.voter) in s.accepts && v in s.votes && k < |s.attempts| && v.term > s.attempts[k].term ==>
      s.attempts[k].slot <= v.highestSeen
  }

  /** Voter m elected n in this term and had seen only slots below the bound. */
  ghost predicate HasVote(s: State, n: nat, term: nat, bound: nat, m: nat) {
    exists v :: v in s.votes && v.voter == m && v.candidate == n && v.term == term && v.highestSeen < bound
  }

  ghost predicate LeaderHeard(g: Group, s: State, n: nat) {
    Leads(s, n) ==> forall m <- g.voters :: HasVote(s, n, s.replicas[n].term, s.replicas[n].nextSlot, m)
  }

  ghost predicate IsWrite(s: State, k: nat) {
    k < |s.attempts| && s.attempts[k].SkipsPrepare()
  }

  ghost predicate WriteHeard(g: Group, s: State, k: nat) {
    IsWrite(s, k) ==>
      var t := s.attempts[k]; forall m <- g.voters :: HasVote(s, t.proposer, t.term, t.slot, m)
  }

  /** A proposer has not gone back before its own attempts. */
  ghost predicate Behind(s: State, k: nat) {
    k < |s.attempts| ==>
      && s.attempts[k].proposer in s.replicas
      && var r := s.replicas[s.attempts[k].proposer];
         && s.attempts[k].term <= r.term
         && (s.attempts[k].term == r.term ==> !r.driver.Standing? && r.driver != Polling(r.term))
         && (s.attempts[k].term == r.term && r.role.Leader? && s.attempts[k].SkipsPrepare() ==>
               s.attempts[k].slot < r.nextSlot)
  }

  /** A leader has no election going on. */
  ghost predicate AtRest(s: State, n: nat) {
    Leads(s, n) ==> s.replicas[n].driver.Idle?
  }

  /** A leader writes once per slot. */
  ghost predicate Distinct(s: State, j: nat, k: nat) {
    (&& IsWrite(s, j) && IsWrite(s, k) && s.attempts[j].proposer == s.attempts[k].proposer
     && s.attempts[j].term == s.attempts[k].term && s.attempts[j].slot == s.attempts[k].slot) ==> j == k
  }

  ghost predicate SmallInv(g: Group, s: State) {
    && (forall k: nat, n: nat {:trigger Seen(s, k, n)} :: Seen(s, k, n))
    && (forall k: nat, v {:trigger SeenByVote(s, k, v)} :: SeenByVote(s, k, v))
    && (forall n {:trigger LeaderHeard(g, s, n)} :: LeaderHeard(g, s, n))
    && (forall n {:trigger AtRest(s, n)} :: AtRest(s, n))
    && (forall k: nat {:trigger WriteHeard(g, s, k)} :: WriteHeard(g, s, k))
    && (forall k: nat {:trigger Behind(s, k)} :: Behind(s, k))
    && (forall j: nat, k: nat {:trigger Distinct(s, j, k)} :: Distinct(s, j, k))
  }

  // ---- every step keeps it ----

  lemma {:induction false} SeenStays(g: Group, s: State, a: Action, k: nat, n: nat)
    requires Enabled(g, s, a) && Orderly(s, a) && Seen(s, k, n)
    ensures Seen(Apply(g, s, a), k, n)
  {
  }

  lemma {:induction false} SeenByVoteStays(g: Group, s: State, a: Action, k: nat, v: Vote)
    requires Enabled(g, s, a) && Seen(s, k, v.voter) && SeenByVote(s, k, v) && (v in s.votes ==> Binds(s, v))
    ensures SeenByVote(Apply(g, s, a), k, v)
  {
  }

  lemma {:induction false} HasVoteStays(s: State, s': State, n: nat, term: nat, low: nat, bound: nat, m: nat)
    requires s.votes <= s'.votes && low <= bound && HasVote(s, n, term, low, m)
    ensures HasVote(s', n, term, bound, m)
  {
  }

  lemma {:induction false} WinnerHeard(g: Group, s: State, a: Action)
    requires Unanimous(g) && a.Win? && Enabled(g, s, a) && Orderly(s, a)
    ensures LeaderHeard(g, Apply(g, s, a), a.n)
  {
    var s' := Apply(g, s, a);
    assert Voters(a.granted) == g.voters;
    forall m <- g.voters
      ensures HasVote(s', a.n, s'.replicas[a.n].term, s'.replicas[a.n].nextSlot, m)
    {
      assert m in Voters(a.granted);
      var v :| v in a.granted && v.voter == m;
      assert v in s'.votes && v.highestSeen < s'.replicas[a.n].nextSlot;
    }
  }

  /** A step other than winning makes nobody leader, and takes no slot back from one. */
  lemma {:induction false} LeadersGoOn(g: Group, s: State, a: Action, n: nat)
    requires Enabled(g, s, a) && (a.Win? ==> a.n != n) && Leads(Apply(g, s, a), n)
    ensures var s' := Apply(g, s, a);
            && Leads(s, n) && s'.replicas[n].term == s.replicas[n].term
            && s'.replicas[n].nextSlot >= s.replicas[n].nextSlot
  {
  }

  lemma {:induction false} LeaderHeardStays(g: Group, s: State, a: Action, n: nat)
    requires Unanimous(g) && Enabled(g, s, a) && Orderly(s, a) && LeaderHeard(g, s, n)
    ensures LeaderHeard(g, Apply(g, s, a), n)
  {
    var s' := Apply(g, s, a);
    if a.Win? && a.n == n {
      WinnerHeard(g, s, a);
    } else if Leads(s', n) {
      LeadersGoOn(g, s, a, n);
      forall m <- g.voters
        ensures HasVote(s', n, s'.replicas[n].term, s'.replicas[n].nextSlot, m)
      {
        HasVoteStays(s, s', n, s.replicas[n].term, s.replicas[n].nextSlot, s'.replicas[n].nextSlot, m);
      }
    }
  }

  lemma {:induction false} AtRestStays(g: Group, s: State, a: Action, n: nat)
    requires Enabled(g, s, a) && AtRest(s, n)
    ensures AtRest(Apply(g, s, a), n)
  {
  }

  /** A new write takes its leader's next slot; nothing else is a new write. */
  lemma {:induction false} NewWrite(g: Group, s: State, a: Action, k: nat)
    requires Enabled(g, s, a) && Orderly(s, a) && IsWrite(Apply(g, s, a), k)
    ensures var s' := Apply(g, s, a);
            if k < |s.attempts| then
              && IsWrite(s, k) && s'.attempts[k].proposer == s.attempts[k].proposer
              && s'.attempts[k].term == s.attempts[k].term && s'.attempts[k].slot == s.attempts[k].slot
            else
              && a.LeaderWrite? && k == |s.attempts| && Leads(s, a.n) && s'.attempts[k].proposer == a.n
              && s'.attempts[k].term == s.replicas[a.n].term && s'.attempts[k].slot == s.replicas[a.n].nextSlot
  {
  }

  lemma {:induction false} WriteHeardStays(g: Group, s: State, a: Action, k: nat)
    requires Enabled(g, s, a) && Orderly(s, a) && WriteHeard(g, s, k) && (a.LeaderWrite? ==> LeaderHeard(g, s, a.n))
    ensures WriteHeard(g, Apply(g, s, a), k)
  {
    var s' := Apply(g, s, a);
    if IsWrite(s', k) {
      NewWrite(g, s, a, k);
      var t := s'.attempts[k];
      forall m <- g.voters
        ensures HasVote(s', t.proposer, t.term, t.slot, m)
      {
        HasVoteStays(s, s', t.proposer, t.term, t.slot, t.slot, m);
      }
    }
  }

  ghost predicate IsDelivery(a: Action) {
    a.OnPrepare? || a.OnAccept?
  }

  lemma {:induction false} BehindStaysOnDelivery(g: Group, s: State, a: Action, k: nat)
    requires Enabled(g, s, a) && IsDelivery(a) && Behind(s, k)
    ensures Behind(Apply(g, s, a), k)
  {
  }

  lemma {:induction false} BehindStaysOnProposal(g: Group, s: State, a: Action, k: nat)
    requires Enabled(g, s, a) && Orderly(s, a) && Behind(s, k) && (a.LeaderWrite? || a.Prepare? || a.Proceed?)
    requires a.LeaderWrite? || a.Prepare? ==> AtRest(s, a.n)
    ensures Behind(Apply(g, s, a), k)
  {
  }

  lemma {:induction false} BehindStaysOnElection(g: Group, s: State, a: Action, k: nat)
    requires Enabled(g, s, a) && Orderly(s, a) && Behind(s, k) && IsElection(a)
    ensures Behind(Apply(g, s, a), k)
  {
  }

  lemma {:induction false} BehindStays(g: Group, s: State, a: Action, k: nat)
    requires Enabled(g, s, a) && Orderly(s, a) && Behind(s, k) && (a.LeaderWrite? || a.Prepare? ==> AtRest(s, a.n))
    ensures Behind(Apply(g, s, a), k)
  {
    if IsDelivery(a) {
      BehindStaysOnDelivery(g, s, a, k);
    } else if IsElection(a) {
      BehindStaysOnElection(g, s, a, k);
    } else {
      BehindStaysOnProposal(g, s, a, k);
    }
  }

  lemma {:induction false} DistinctStays(g: Group, s: State, a: Action, j: nat, k: nat)
    requires Enabled(g, s, a) && Orderly(s, a) && Distinct(s, j, k) && Behind(s, j) && Behind(s, k)
    ensures Distinct(Apply(g, s, a), j, k)
  {
    var s' := Apply(g, s, a);
    if IsWrite(s', j) && IsWrite(s', k) {
      NewWrite(g, s, a, j);
      NewWrite(g, s, a, k);
    }
  }

  lemma {:induction false} StepKeepsSmallInv(g: Group, s: State, a: Action)
    requires Unanimous(g) && VotesBind(s) && SmallInv(g, s) && Enabled(g, s, a) && Orderly(s, a)
    ensures SmallInv(g, Apply(g, s, a))
  {
    var s' := Apply(g, s, a);
    forall k: nat, n: nat
      ensures Seen(s', k, n)
    {
      assert Seen(s, k, n);
      SeenStays(g, s, a, k, n);
    }
    forall k: nat, v
      ensures SeenByVote(s', k, v)
    {
      assert Seen(s, k, v.voter) && SeenByVote(s, k, v) && (v in s.votes ==> Binds(s, v));
      SeenByVoteStays(g, s, a, k, v);
    }
    forall n
      ensures LeaderHeard(g, s', n) && AtRest(s', n)
    {
      assert LeaderHeard(g, s, n) && AtRest(s, n);
      LeaderHeardStays(g, s, a, n);
      AtRestStays(g, s, a, n);
    }
    forall k: nat
      ensures WriteHeard(g, s', k)
    {
      assert WriteHeard(g, s, k) && (a.LeaderWrite? ==> LeaderHeard(g, s, a.n));
      WriteHeardStays(g, s, a, k);
    }
    forall k: nat
      ensures Behind(s', k)
    {
      assert Behind(s, k) && (a.LeaderWrite? || a.Prepare? ==> AtRest(s, a.n));
      BehindStays(g, s, a, k);
    }
    forall j: nat, k: nat
      ensures Distinct(s', j, k)
    {
      assert Distinct(s, j, k) && Behind(s, j) && Behind(s, k);
      DistinctStays(g, s, a, j, k);
    }
  }

  lemma OrderlyRunIsCalm(g: Group, run: seq<State>)
    requires IsRunOf(g, true, run)
    ensures IsCalmRun(g, run)
  {
    forall i: nat
      ensures CalmAt(g, run, i)
    {
      assert StepOf(g, true, run, i);
    }
  }

  lemma StartHoldsSmallInv(g: Group)
    ensures SmallInv(g, Init(g))
  {
  }

  lemma {:induction false} RunKeepsSmallInv(g: Group, run: seq<State>, i: nat)
    requires Unanimous(g) && IsRunOf(g, true, run) && i < |run|
    ensures SmallInv(g, run[i])
  {
    if i == 0 {
      StartHoldsSmallInv(g);
    } else {
      RunKeepsSmallInv(g, run, i - 1);
      OrderlyRunIsCalm(g, run);
      CalmRunKeepsInv(g, run, i - 1);
      assert StepOf(g, true, run, i - 1);
      var a :| Enabled(g, run[i - 1], a) && run[i] == Apply(g, run[i - 1], a) && Orderly(run[i - 1], a);
      StepKeepsSmallInv(g, run[i - 1], a);
    }
  }

  // ---- agreement ----

  /** An accepted write leaves no room for a write of another term at its slot. */
  lemma {:induction false} WritesShareTheirTerm(g: Group, s: State, j: nat, k: nat, n: nat)
    requires SmallInv(g, s) && AcceptedWrite(s, j, n) && n in g.voters && IsWrite(s, k) && SameSlot(s, j, k)
    ensures s.attempts[k].term <= s.attempts[j].term
  {
    assert WriteHeard(g, s, k);
    var t := s.attempts[k];
    assert HasVote(s, t.proposer, t.term, t.slot, n);
    var v :| v in s.votes && v.voter == n && v.candidate == t.proposer && v.term == t.term && v.highestSeen < t.slot;
    assert SeenByVote(s, j, v);
  }

  lemma {:induction false} SmallWritesCoincide(g: Group, s: State)
    requires SmallInv(g, s) && VotesAreUnique(s) && s.replicas.Keys == g.voters
    ensures WritesCoincide(s)
  {
    forall j: nat, k: nat, m: nat, n: nat | AcceptedWrite(s, j, m) && AcceptedWrite(s, k, n) && SameSlot(s, j, k)
      ensures j == k
    {
      assert Seen(s, j, m) && Seen(s, k, n);
      WritesShareTheirTerm(g, s, j, k, m);
      WritesShareTheirTerm(g, s, k, j, n);
      assert WriteHeard(g, s, j) && WriteHeard(g, s, k) && IsWrite(s, j) && IsWrite(s, k);
      assert HasVote(s, s.attempts[j].proposer, s.attempts[j].term, s.attempts[j].slot, m);
      assert HasVote(s, s.attempts[k].proposer, s.attempts[k].term, s.attempts[k].slot, m);
      var v :| v in s.votes && v.voter == m && v.candidate == s.attempts[j].proposer && v.term == s.attempts[j].term;
      var w :| w in s.votes && w.voter == m && w.candidate == s.attempts[k].proposer && w.term == s.attempts[k].term;
      assert OneVote(v, w);
      assert Distinct(s, j, k);
    }
  }

  /** Groups of at most two voters agree on every slot in orderly runs, with leader writes or without. */
  lemma SmallGroupsAgree(g: Group, run: seq<State>, i: nat)
    requires |g.voters| <= 2 && IsRunOf(g, true, run) && i < |run|
    ensures Agreement(g, run[i])
  {
    SmallGroupsAreUnanimous(g);
    RunOfIsRun(g, true, run);
    OrderlyRunIsCalm(g, run);
    CalmRunKeepsInv(g, run, i);
    RunKeepsInv(g, run, i);
    RunKeepsSmallInv(g, run, i);
    SmallWritesCoincide(g, run[i]);
    InvImpliesAgreement(g, run[i]);
  }
}
