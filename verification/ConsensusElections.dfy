/**
 Elections. A term has at most one leader over every run in which no replica moves on while its
 election task waits. The code does not look again after waiting, and without that a term can
 have two leaders in every group of two or more voters, and a replica can vote twice in a term.
 */
module ConsensusElections {
  import opened Common
  import opened Consensus
  import opened ConsensusRuns
  import Safety = ConsensusSafety

  /** A vote binds its voter for its term: the voter is beyond that term, or still bound. */
  ghost predicate Binds(s: State, v: Vote) {
    && v.voter in s.replicas && v.term <= s.replicas[v.voter].term
    && (v.term == s.replicas[v.voter].term ==> s.replicas[v.voter].votedFor == Some(v.candidate))
  }

  ghost predicate VotesBind(s: State) {
    forall v {:trigger Binds(s, v)} :: v in s.votes ==> Binds(s, v)
  }

  ghost predicate OneVote(v: Vote, w: Vote) {
    v.voter == w.voter && v.term == w.term ==> v.candidate == w.candidate
  }

  ghost predicate VotesAreUnique(s: State) {
    forall v, w {:trigger OneVote(v, w)} :: v in s.votes && w in s.votes ==> OneVote(v, w)
  }

  /** A majority voted for n in this term. */
  ghost predicate Elected(g: Group, s: State, n: nat, term: nat) {
    exists granted: set<Vote> :: IsMandate(g, s, n, term, granted)
  }

  ghost predicate IsMandate(g: Group, s: State, n: nat, term: nat, granted: set<Vote>) {
    && granted <= s.votes && Majority(g.voters, Voters(granted))
    && forall v :: v in granted ==> v.term == term && v.candidate == n
  }

  ghost predicate Leads(s: State, n: nat) {
    n in s.replicas && s.replicas[n].role.Leader?
  }

  ghost predicate LeadersAreElected(g: Group, s: State) {
    forall n {:trigger Leads(s, n)} :: Leads(s, n) ==> Elected(g, s, n, s.replicas[n].term)
  }

  ghost predicate ElectionInv(g: Group, s: State) {
    VotesBind(s) && VotesAreUnique(s) && LeadersAreElected(g, s)
  }

  /** What a step does to votes and to the terms and votes of replicas. */
  ghost predicate Moves(s: State, s': State, n: nat) {
    && n in s.replicas && s'.replicas.Keys == s.replicas.Keys && s.votes <= s'.votes
    && (forall m :: m in s.replicas && m != n ==> s'.replicas[m] == s.replicas[m])
    && s'.replicas[n].term >= s.replicas[n].term
    && (s'.replicas[n].term == s.replicas[n].term && s.replicas[n].votedFor.Some? ==>
          s'.replicas[n].votedFor == s.replicas[n].votedFor)
  }

  lemma {:induction false} MovesKeepVotes(s: State, s': State, n: nat)
    requires VotesBind(s) && Moves(s, s', n)
    requires forall v :: v in s'.votes && v !in s.votes ==> v.voter == n && Binds(s', v)
    requires forall v, w :: v in s'.votes && v !in s.votes && w in s'.votes ==> OneVote(v, w) && OneVote(w, v)
    requires VotesAreUnique(s)
    ensures VotesBind(s') && VotesAreUnique(s')
  {
    forall v | v in s'.votes
      ensures Binds(s', v)
    {
      if v in s.votes {
        assert Binds(s, v);
      }
    }
    forall v, w | v in s'.votes && w in s'.votes
      ensures OneVote(v, w)
    {
      if v in s.votes && w in s.votes {
        assert OneVote(v, w);
      }
    }
  }

  lemma {:induction false} ElectedStays(g: Group, s: State, s': State, n: nat, term: nat)
    requires s.votes <= s'.votes && Elected(g, s, n, term)
    ensures Elected(g, s', n, term)
  {
    var granted :| IsMandate(g, s, n, term, granted);
    assert IsMandate(g, s', n, term, granted);
  }

  /** Only the winner of an election becomes leader; everyone else keeps or loses leadership. */
  ghost predicate NoNewLeader(s: State, s': State) {
    forall n {:trigger Leads(s', n)} :: Leads(s', n) ==> Leads(s, n) && s'.replicas[n].term == s.replicas[n].term
  }

  lemma {:induction false} LeadersStayElected(g: Group, s: State, s': State)
    requires LeadersAreElected(g, s) && s.votes <= s'.votes && NoNewLeader(s, s')
    ensures LeadersAreElected(g, s')
  {
    forall n | Leads(s', n)
      ensures Elected(g, s', n, s'.replicas[n].term)
    {
      assert Leads(s, n);
      ElectedStays(g, s, s', n, s.replicas[n].term);
    }
  }

  ghost predicate CalmAt(g: Group, run: seq<State>, i: nat) {
    i + 1 < |run| ==> exists a :: Enabled(g, run[i], a) && run[i + 1] == Apply(g, run[i], a) && Undisturbed(run[i], a)
  }

  ghost predicate IsCalmRun(g: Group, run: seq<State>) {
    |run| > 0 && run[0] == Init(g) && forall i: nat :: CalmAt(g, run, i)
  }

  lemma {:induction false} VoteKeepsInv(g: Group, s: State, a: Action)
    requires ElectionInv(g, s) && Enabled(g, s, a) && Undisturbed(s, a) && (a.Stand? || a.Poll? || a.GrantVote?)
    ensures ElectionInv(g, Apply(g, s, a))
  {
    var s' := Apply(g, s, a);
    var n := a.n;
    assert Moves(s, s', n);
    forall v, w | v in s'.votes && v !in s.votes && w in s'.votes
      ensures OneVote(v, w) && OneVote(w, v)
    {
      if w in s.votes {
        assert Binds(s, w);
      }
    }
    MovesKeepVotes(s, s', n);
    LeadersStayElected(g, s, s');
  }

  lemma {:induction false} WinKeepsInv(g: Group, s: State, a: Action)
    requires ElectionInv(g, s) && Enabled(g, s, a) && Undisturbed(s, a) && a.Win?
    ensures ElectionInv(g, Apply(g, s, a))
  {
    var s' := Apply(g, s, a);
    MovesKeepVotes(s, s', a.n);
    forall n | Leads(s', n)
      ensures Elected(g, s', n, s'.replicas[n].term)
    {
      if n == a.n {
        assert IsMandate(g, s', n, s'.replicas[n].term, a.granted);
      } else {
        assert Leads(s, n);
        ElectedStays(g, s, s', n, s.replicas[n].term);
      }
    }
  }

  ghost predicate IsOther(a: Action) {
    !a.Stand? && !a.Poll? && !a.GrantVote? && !a.Win?
  }

  /** A step adds no vote, makes no leader and binds no voter anew. */
  ghost predicate Passes(s: State, s': State, n: nat) {
    s'.votes == s.votes && Moves(s, s', n) && NoNewLeader(s, s')
  }

  lemma {:induction false} DeliveryPasses(g: Group, s: State, a: Action)
    requires Enabled(g, s, a) && (a.OnPrepare? || a.OnAccept?)
    ensures Passes(s, Apply(g, s, a), a.n)
  {
  }

  lemma {:induction false} TaskPasses(g: Group, s: State, a: Action)
    requires Enabled(g, s, a) && IsOther(a) && !a.OnPrepare? && !a.OnAccept? && !a.Proceed?
    ensures Passes(s, Apply(g, s, a), a.n)
  {
  }

  lemma {:induction false} OtherKeepsInv(g: Group, s: State, a: Action)
    requires ElectionInv(g, s) && Enabled(g, s, a) && IsOther(a)
    ensures ElectionInv(g, Apply(g, s, a))
  {
    var s' := Apply(g, s, a);
    if a.Proceed? {
      forall v | v in s'.votes
        ensures Binds(s', v)
      {
        assert Binds(s, v);
      }
    } else {
      if a.OnPrepare? || a.OnAccept? {
        DeliveryPasses(g, s, a);
      } else {
        TaskPasses(g, s, a);
      }
      MovesKeepVotes(s, s', a.n);
    }
    LeadersStayElected(g, s, s');
  }

  lemma {:induction false} CalmRunKeepsInv(g: Group, run: seq<State>, i: nat)
    requires IsCalmRun(g, run) && i < |run|
    ensures ElectionInv(g, run[i])
  {
    if i > 0 {
      CalmRunKeepsInv(g, run, i - 1);
      assert CalmAt(g, run, i - 1);
      var a :| Enabled(g, run[i - 1], a) && run[i] == Apply(g, run[i - 1], a) && Undisturbed(run[i - 1], a);
      if a.Win? {
        WinKeepsInv(g, run[i - 1], a);
      } else if IsOther(a) {
        OtherKeepsInv(g, run[i - 1], a);
      } else {
        VoteKeepsInv(g, run[i - 1], a);
      }
    }
  }

  lemma {:induction false} VotesGrow(g: Group, run: seq<State>, i: nat, j: nat)
    requires IsCalmRun(g, run) && i <= j < |run|
    ensures run[i].votes <= run[j].votes
  {
    if i < j {
      VotesGrow(g, run, i, j - 1);
      assert CalmAt(g, run, j - 1);
    }
  }

  /** Two leaders of one term, even at different times of such a run, are the same replica. */
  lemma {:induction false} OneLeaderPerTerm(g: Group, run: seq<State>, i: nat, j: nat, n: nat, m: nat)
    requires IsCalmRun(g, run) && i <= j < |run| && Leads(run[i], n) && Leads(run[j], m)
    requires run[i].replicas[n].term == run[j].replicas[m].term
    ensures n == m
  {
    var term := run[i].replicas[n].term;
    CalmRunKeepsInv(g, run, i);
    CalmRunKeepsInv(g, run, j);
    VotesGrow(g, run, i, j);
    ElectedStays(g, run[i], run[j], n, term);
    assert Elected(g, run[j], m, term);
    var forN: set<Vote> :| IsMandate(g, run[j], n, term, forN);
    var forM: set<Vote> :| IsMandate(g, run[j], m, term, forM);
    var voter := MajoritiesMeet(g.voters, Voters(forN), Voters(forM));
    var v: Vote :| v in forN && v.voter == voter;
    var w: Vote :| w in forM && w.voter == voter;
    assert OneVote(v, w);
  }

  // ---- what happens when nobody looks again ----

  ghost predicate OneLeader(s: State) {
    forall n: nat, m: nat :: Leads(s, n) && Leads(s, m) && s.replicas[n].term == s.replicas[m].term ==> n == m
  }

  lemma SecondVoteIsGranted(g: Group, s: State, a: nat, b: nat)
    requires {a, b} <= g.voters && a != b && s.replicas.Keys == g.voters && s.replicas[a] == Campaigning(Fresh(), a)
    requires forall n <- g.voters - {a} :: s.replicas[n] == FirstVoter(a)
    ensures CanPlan(s, b, g.voters - {b}, VoteRequest(2, b, 0, 0)) && IsHighest(s.replicas, b, g.voters - {b})
    ensures g.voters - {b} + {b} == g.voters
  {
    var request := VoteRequest(2, b, 0, 0);
    assert WouldGrant(FirstVoter(a), request) by {
      assert FirstVoter(a).IsLogTip(0, 0);
    }
    assert WouldGrant(Campaigning(Fresh(), a), request) by {
      assert Campaigning(Fresh(), a).IsLogTip(0, 0);
    }
    assert g.voters - {b} + {b} == g.voters;
  }

  /**
   Everyone votes for a in term 1. Before a counts, everyone, a included, makes b the leader of
   term 2. Then a counts its votes of term 1 and leads too, but in the term it is in by now.
   */
  lemma LateCountMakesTwoLeaders(g: Group, a: nat, b: nat) returns (s: State)
    requires {a, b} <= g.voters && a != b
    ensures Reachable(g, false, s) && !OneLeader(s)
  {
    var w := g.voters - {a};
    var s1 := ReachFirstPoll(g, false, a);
    FreshWouldGrant(g, a);
    SecondVoteIsGranted(g, s1, a, b);
    var s2 := Elect(g, false, s1, b, g.voters - {b}, VoteRequest(2, b, 0, 0));
    assert s2.replicas[a] == Granting(Campaigning(Fresh(), a), 2, b);
    s := Victory(g, false, s2, Init(g).replicas, a, w);
    assert s.replicas[b] == Leading(FirstVoter(a), b);
    assert Leads(s, a) && Leads(s, b) && s.replicas[a].term == s.replicas[b].term;
  }

  /** With or without pre-votes, a term never has two leaders exactly in groups of at most one voter. */
  lemma OneLeaderIffSingleVoter(g: Group)
    ensures (forall s :: Reachable(g, false, s) ==> OneLeader(s)) <==> |g.voters| <= 1
  {
    if |g.voters| <= 1 {
      forall s | Reachable(g, false, s)
        ensures OneLeader(s)
      {
        OnlyVotersLead(g, s);
        forall n: nat, m: nat | Leads(s, n) && Leads(s, m)
          ensures n == m
        {
          if n != m {
            assert |{n, m}| == 2;
            SubsetIsNoLarger({n, m}, g.voters);
            assert false;
          }
        }
      }
    } else {
      var a :| a in g.voters;
      assert |g.voters - {a}| >= 1;
      var b :| b in g.voters - {a};
      var s := LateCountMakesTwoLeaders(g, a, b);
    }
  }

  lemma OnlyVotersLead(g: Group, s: State)
    requires Reachable(g, false, s)
    ensures s.replicas.Keys == g.voters
  {
    var run :| IsRunOf(g, false, run) && run[|run| - 1] == s;
    RunOfIsRun(g, false, run);
    Safety.RunKeepsInv(g, run, |run| - 1);
  }

  // ---- voting twice ----

  /**
   Replica y has fixed term 1 for its own election, grants x its vote of term 1 while it waits,
   and then stands in term 1 itself: both candidates count its vote.
   */
  lemma StalePlanVotesTwice(g: Group, x: nat, y: nat) returns (s: State)
    requires {x, y} <= g.voters && x != y
    ensures Reachable(g, false, s) && !VotesAreUnique(s)
  {
    ReachInit(g, false);
    FreshWouldGrant(g, y);
    var s1, granted := WinPreVote(g, false, Init(g), y, g.voters - {y}, VoteRequest(1, y, 0, 0));
    StaleVoterWouldGrant(g, s1, x, y);
    var s2 := Canvass(g, false, s1, x, g.voters - {x}, VoteRequest(1, x, 0, 0));
    assert s2.replicas[y] == Granting(Planning(g, Fresh()), 1, x);
    assert Vote(1, y, x, 0) in VotesOf(s1.replicas, g.voters - {x}, 1, x);
    s := StandAndPoll(g, false, s2, y, granted, 0, 0);
    assert !OneVote(Vote(1, y, x, 0), Vote(1, y, y, 0));
  }

  lemma StaleVoterWouldGrant(g: Group, s: State, x: nat, y: nat)
    requires {x, y} <= g.voters && x != y && s.replicas == Init(g).replicas[y := Planning(g, Fresh())]
    ensures CanPlan(s, x, g.voters - {x}, VoteRequest(1, x, 0, 0)) && Majority(g.voters, g.voters - {x} + {x})
  {
    var request := VoteRequest(1, x, 0, 0);
    assert WouldGrant(Fresh(), request) by {
      assert Fresh().IsLogTip(0, 0);
    }
    assert WouldGrant(Planning(g, Fresh()), request) by {
      assert Planning(g, Fresh()).IsLogTip(0, 0);
    }
    assert g.voters - {x} + {x} == g.voters && |g.voters| > 0;
  }
}
