/** Building runs: whole sets of replicas grant, promise or accept, one step after the other. */
module ConsensusRuns {
  import opened Common
  import opened Consensus

  /** One step of a run; with o, an orderly one. */
  ghost predicate StepOf(g: Group, o: bool, run: seq<State>, i: nat) {
    i + 1 < |run| ==> Follows(g, o, run[i], run[i + 1])
  }

  ghost predicate Follows(g: Group, o: bool, s: State, s': State) {
    exists a :: Enabled(g, s, a) && s' == Apply(g, s, a) && (o ==> Orderly(s, a))
  }

  ghost predicate IsRunOf(g: Group, o: bool, run: seq<State>) {
    |run| > 0 && run[0] == Init(g) && forall i: nat :: StepOf(g, o, run, i)
  }

  /** Some run, with o some orderly run, leads to this state. */
  ghost predicate Reachable(g: Group, o: bool, s: State) {
    exists run :: IsRunOf(g, o, run) && run[|run| - 1] == s
  }

  lemma RunOfIsRun(g: Group, o: bool, run: seq<State>)
    requires IsRunOf(g, o, run)
    ensures IsRun(g, run)
  {
    forall i: nat
      ensures StepAt(g, run, i)
    {
      assert StepOf(g, o, run, i);
    }
  }

  lemma ReachInit(g: Group, o: bool)
    ensures Reachable(g, o, Init(g))
  {
    assert IsRunOf(g, o, [Init(g)]);
  }

  lemma Take(g: Group, o: bool, s: State, a: Action) returns (s': State)
    requires Reachable(g, o, s) && Enabled(g, s, a) && (o ==> Orderly(s, a))
    ensures s' == Apply(g, s, a) && Reachable(g, o, s')
  {
    s' := Apply(g, s, a);
    var run :| IsRunOf(g, o, run) && run[|run| - 1] == s;
    var longer := run + [s'];
    assert Follows(g, o, s, s');
    forall i: nat
      ensures StepOf(g, o, longer, i)
    {
      assert StepOf(g, o, run, i);
    }
    assert IsRunOf(g, o, longer) && longer[|longer| - 1] == s';
  }

  /** Nothing was proposed or answered. */
  ghost predicate SameLog(s: State, s': State) {
    s'.attempts == s.attempts && s'.promises == s.promises && s'.accepts == s.accepts
  }

  // ---- votes ----

  ghost predicate WouldGrant(r: Replica, request: VoteRequest) {
    && r.term < request.term
    && exists tipSlot, tipTerm :: r.IsLogTip(tipSlot, tipTerm) && UpToDate(request, tipSlot, tipTerm)
  }

  ghost predicate AllWouldGrant(rs: map<nat, Replica>, w: set<nat>, request: VoteRequest) {
    w <= rs.Keys && request.candidate !in w && forall n <- w :: WouldGrant(rs[n], request)
  }

  function PreVotesOf(w: set<nat>, term: nat, c: nat): set<PreVote> {
    set n <- w :: PreVote(term, n, c)
  }

  lemma {:induction false} AllPreVote(g: Group, o: bool, s: State, request: VoteRequest, w: set<nat>)
    returns (s': State)
    requires Reachable(g, o, s) && request in s.preRequests && AllWouldGrant(s.replicas, w, request)
    ensures Reachable(g, o, s') && s' == s.(preVotes := s.preVotes + PreVotesOf(w, request.term, request.candidate))
    decreases w
  {
    if w == {} {
      s' := s;
    } else {
      var n :| n in w;
      var before := AllPreVote(g, o, s, request, w - {n});
      assert WouldGrant(s.replicas[n], request);
      var tipSlot, tipTerm :| s.replicas[n].IsLogTip(tipSlot, tipTerm) && UpToDate(request, tipSlot, tipTerm);
      s' := Take(g, o, before, GrantPreVote(n, request, tipSlot, tipTerm));
      assert PreVotesOf(w, request.term, request.candidate) ==
             PreVotesOf(w - {n}, request.term, request.candidate) + {PreVote(request.term, n, request.candidate)};
    }
  }

  function Granting(r: Replica, term: nat, c: nat): Replica {
    r.(term := term, votedFor := Some(c), role := Follower)
  }

  function AllGranting(rs: map<nat, Replica>, w: set<nat>, term: nat, c: nat): map<nat, Replica> {
    map n <- rs :: if n in w then Granting(rs[n], term, c) else rs[n]
  }

  function VotesOf(rs: map<nat, Replica>, w: set<nat>, term: nat, c: nat): set<Vote>
    requires w <= rs.Keys
  {
    set n <- w :: Vote(term, n, c, rs[n].highestSeen)
  }

  lemma GrantOne(g: Group, o: bool, s: State, request: VoteRequest, n: nat) returns (s': State)
    requires Reachable(g, o, s) && request in s.requests && n in s.replicas && request.candidate != n
    requires WouldGrant(s.replicas[n], request)
    ensures Reachable(g, o, s')
    ensures s' == s.(replicas := s.replicas[n := Granting(s.replicas[n], request.term, request.candidate)],
                     votes := s.votes + {Vote(request.term, n, request.candidate, s.replicas[n].highestSeen)})
  {
    var tipSlot, tipTerm :| s.replicas[n].IsLogTip(tipSlot, tipTerm) && UpToDate(request, tipSlot, tipTerm);
    s' := Take(g, o, s, GrantVote(n, request, tipSlot, tipTerm));
  }

  lemma OneMoreGrant(rs: map<nat, Replica>, w: set<nat>, n: nat, term: nat, c: nat)
    requires w <= rs.Keys && n in w
    ensures var fewer := AllGranting(rs, w - {n}, term, c);
            fewer[n] == rs[n] && fewer[n := Granting(rs[n], term, c)] == AllGranting(rs, w, term, c)
    ensures VotesOf(rs, w, term, c) == VotesOf(rs, w - {n}, term, c) + {Vote(term, n, c, rs[n].highestSeen)}
  {
  }

  lemma {:induction false} AllGrant(g: Group, o: bool, s: State, request: VoteRequest, w: set<nat>) returns (s': State)
    requires Reachable(g, o, s) && request in s.requests && AllWouldGrant(s.replicas, w, request)
    ensures Reachable(g, o, s')
    ensures s' == s.(replicas := AllGranting(s.replicas, w, request.term, request.candidate),
                     votes := s.votes + VotesOf(s.replicas, w, request.term, request.candidate))
    decreases w
  {
    if w == {} {
      s' := s;
      assert AllGranting(s.replicas, w, request.term, request.candidate) == s.replicas;
    } else {
      var n :| n in w;
      assert WouldGrant(s.replicas[n], request);
      var before := AllGrant(g, o, s, request, w - {n});
      OneMoreGrant(s.replicas, w, n, request.term, request.candidate);
      s' := GrantOne(g, o, before, request, n);
    }
  }

  // ---- promises and accepts ----

  function Promising(r: Replica, t: Attempt): Replica {
    var r' := r.InTerm(t.term);
    r'.Open(t.slot, r'.At(t.slot).(promised := Some(t.ballot)))
  }

  function AllPromising(rs: map<nat, Replica>, w: set<nat>, t: Attempt): map<nat, Replica> {
    map n <- rs :: if n in w then Promising(rs[n], t) else rs[n]
  }

  ghost predicate PromisedBy(s: State, s': State, k: nat, w: set<nat>) {
    && (forall n <- w :: n in s.replicas && k < |s.attempts|
                         && (k, n) in s'.promises
                         && s'.promises[(k, n)] == s.replicas[n].At(s.attempts[k].slot).accepted)
    && s' == s.(replicas := s'.replicas, promises := s'.promises)
  }

  lemma {:induction false} AllPromise(g: Group, o: bool, s: State, k: nat, w: set<nat>) returns (s': State)
    requires Reachable(g, o, s) && w <= s.replicas.Keys && k < |s.attempts| && !s.attempts[k].SkipsPrepare()
    requires forall n <- w :: s.replicas[n].term <= s.attempts[k].term
                              && Promises(s.replicas[n].At(s.attempts[k].slot), s.attempts[k].ballot)
    ensures Reachable(g, o, s') && PromisedBy(s, s', k, w)
    ensures s'.replicas == AllPromising(s.replicas, w, s.attempts[k])
    decreases w
  {
    if w == {} {
      s' := s;
      assert AllPromising(s.replicas, w, s.attempts[k]) == s.replicas;
    } else {
      var n :| n in w;
      var before := AllPromise(g, o, s, k, w - {n});
      assert before.replicas[n] == s.replicas[n];
      s' := Take(g, o, before, OnPrepare(n, k));
      assert s'.replicas == AllPromising(s.replicas, w, s.attempts[k]);
    }
  }

  function Accepting(r: Replica, t: Attempt): Replica
    requires t.decision.Some?
  {
    var r' := r.InTerm(t.term);
    r'.Open(t.slot, SlotState(Raised(r'.At(t.slot), t.ballot), Some(t.Value())))
  }

  function AllAccepting(rs: map<nat, Replica>, w: set<nat>, t: Attempt): map<nat, Replica>
    requires t.decision.Some?
  {
    map n <- rs :: if n in w then Accepting(rs[n], t) else rs[n]
  }

  function Pairs(k: nat, w: set<nat>): set<(nat, nat)> {
    set n <- w :: (k, n)
  }

  lemma {:induction false} AllAccept(g: Group, o: bool, s: State, k: nat, w: set<nat>) returns (s': State)
    requires Reachable(g, o, s) && w <= s.replicas.Keys && k < |s.attempts| && s.attempts[k].decision.Some?
    requires forall n <- w :: s.replicas[n].term <= s.attempts[k].term
                              && Accepts(s.replicas[n].At(s.attempts[k].slot), s.attempts[k].ballot)
    ensures Reachable(g, o, s')
    ensures s' == s.(replicas := AllAccepting(s.replicas, w, s.attempts[k]), accepts := s.accepts + Pairs(k, w))
    decreases w
  {
    if w == {} {
      s' := s;
      assert AllAccepting(s.replicas, w, s.attempts[k]) == s.replicas;
    } else {
      var n :| n in w;
      var before := AllAccept(g, o, s, k, w - {n});
      assert before.replicas[n] == s.replicas[n];
      s' := Take(g, o, before, OnAccept(n, k));
      assert s'.replicas == AllAccepting(s.replicas, w, s.attempts[k]);
      assert Pairs(k, w) == Pairs(k, w - {n}) + {(k, n)};
    }
  }

  // ---- one election ----

  function Planning(g: Group, r: Replica): Replica {
    r.(driver := Planned(r.term + 1), role := if g.preVote then PreCandidate else r.role)
  }

  ghost predicate CanPlan(s: State, c: nat, w: set<nat>, request: VoteRequest) {
    && c in s.replicas && s.replicas[c].driver.Idle? && !s.replicas[c].role.Leader?
    && s.replicas[c].IsLogTip(request.tipSlot, request.tipTerm)
    && request.candidate == c && request.term == s.replicas[c].term + 1
    && AllWouldGrant(s.replicas, w, request)
  }

  lemma PreVotersOf(w: set<nat>, term: nat, c: nat)
    ensures PreVoters(PreVotesOf(w, term, c)) == w
  {
    forall n <- w
      ensures n in PreVoters(PreVotesOf(w, term, c))
    {
      assert PreVote(term, n, c) in PreVotesOf(w, term, c);
    }
  }

  /** Replica c fixes its next term and wins the pre-vote round, if there is one. */
  lemma WinPreVote(g: Group, o: bool, s: State, c: nat, w: set<nat>, request: VoteRequest)
    returns (s': State, granted: set<PreVote>)
    requires Reachable(g, o, s) && CanPlan(s, c, w, request) && Majority(g.voters, w + {c})
    ensures Reachable(g, o, s') && SameLog(s, s') && s'.requests == s.requests && s'.votes == s.votes
    ensures s.preVotes <= s'.preVotes
    ensures s'.replicas == s.replicas[c := Planning(g, s.replicas[c])] && Enabled(g, s', Stand(c, granted))
  {
    s' := Take(g, o, s, Plan(c, request.tipSlot, request.tipTerm));
    granted := {};
    if g.preVote {
      assert forall n <- w :: s'.replicas[n] == s.replicas[n];
      s' := AllPreVote(g, o, s', request, w);
      granted := PreVotesOf(w, request.term, c);
      PreVotersOf(w, request.term, c);
    }
  }

  function Campaigning(r: Replica, c: nat): Replica {
    r.(term := r.term + 1, votedFor := Some(c), role := Candidate, driver := Polling(r.term + 1))
  }

  /** Replica c stands in the planned term and asks for votes. */
  lemma StandAndPoll(g: Group, o: bool, s: State, c: nat, granted: set<PreVote>, tipSlot: nat, tipTerm: nat)
    returns (s': State)
    requires Reachable(g, o, s) && Enabled(g, s, Stand(c, granted)) && s.replicas[c].IsLogTip(tipSlot, tipTerm)
    requires o ==> Undisturbed(s, Stand(c, granted))
    ensures var (r, term) := (s.replicas[c], s.replicas[c].driver.proposed);
            && Reachable(g, o, s') && SameLog(s, s') && s'.preVotes == s.preVotes
            && s'.replicas ==
               s.replicas[c := r.(term := term, votedFor := Some(c), role := Candidate, driver := Polling(term))]
            && s'.requests == s.requests + {VoteRequest(term, c, tipTerm, tipSlot)}
            && s'.votes == s.votes + {Vote(term, c, c, r.highestSeen)}
  {
    var s1 := Take(g, o, s, Stand(c, granted));
    s' := Take(g, o, s1, Poll(c, tipSlot, tipTerm));
  }

  lemma AskedWouldGrant(rs: map<nat, Replica>, asked: map<nat, Replica>, w: set<nat>, request: VoteRequest)
    requires AllWouldGrant(rs, w, request) && w <= asked.Keys && forall n <- w :: asked[n] == rs[n]
    ensures AllWouldGrant(asked, w, request)
  {
  }

  lemma GrantsAroundCandidate(rs: map<nat, Replica>, w: set<nat>, term: nat, c: nat, r: Replica)
    requires c in rs && c !in w && w <= rs.Keys
    ensures AllGranting(rs[c := r], w, term, c) == AllGranting(rs, w, term, c)[c := r]
    ensures VotesOf(rs[c := r], w, term, c) == VotesOf(rs, w, term, c)
    ensures forall n <- w :: rs[c := r][n] == rs[n]
  {
  }

  /** Replica c polls for the next term and everyone in w votes for it. */
  lemma Canvass(g: Group, o: bool, s: State, c: nat, w: set<nat>, request: VoteRequest) returns (s': State)
    requires Reachable(g, o, s) && CanPlan(s, c, w, request) && Majority(g.voters, w + {c})
    ensures Reachable(g, o, s') && SameLog(s, s') && s.votes <= s'.votes && s.preVotes <= s'.preVotes
    ensures s'.replicas == AllGranting(s.replicas, w, request.term, c)[c := Campaigning(s.replicas[c], c)]
    ensures VotesOf(s.replicas, w, request.term, c) + {Vote(request.term, c, c, s.replicas[c].highestSeen)} <= s'.votes
  {
    var s1, granted := WinPreVote(g, o, s, c, w, request);
    var s2 := StandAndPoll(g, o, s1, c, granted, request.tipSlot, request.tipTerm);
    var asked := s.replicas[c := Campaigning(s.replicas[c], c)];
    assert s2.replicas == asked;
    GrantsAroundCandidate(s.replicas, w, request.term, c, Campaigning(s.replicas[c], c));
    AskedWouldGrant(s.replicas, asked, w, request);
    s' := AllGrant(g, o, s2, request, w);
  }

  lemma VotersOf(rs: map<nat, Replica>, w: set<nat>, term: nat, c: nat, mine: Vote)
    requires w <= rs.Keys && mine.voter == c
    ensures Voters(VotesOf(rs, w, term, c) + {mine}) == w + {c}
  {
    forall n <- w
      ensures n in Voters(VotesOf(rs, w, term, c) + {mine})
    {
      assert Vote(term, n, c, rs[n].highestSeen) in VotesOf(rs, w, term, c);
    }
    assert mine in VotesOf(rs, w, term, c) + {mine};
  }

  /** No voter has seen a slot above the candidate's own. */
  ghost predicate IsHighest(rs: map<nat, Replica>, c: nat, w: set<nat>) {
    && c in rs && w <= rs.Keys && rs[c].highestSeen + 1 >= rs[c].nextSlot
    && forall n <- w :: rs[n].highestSeen <= rs[c].highestSeen
  }

  /** With the votes it collected, c becomes leader, in whatever term it is by now. */
  lemma Victory(g: Group, o: bool, s: State, rs: map<nat, Replica>, c: nat, w: set<nat>) returns (s': State)
    requires Reachable(g, o, s) && c in s.replicas && s.replicas[c].driver.Polling? && Majority(g.voters, w + {c})
    requires IsHighest(rs, c, w) && (o ==> s.replicas[c].driver.polled == s.replicas[c].term)
    requires s.replicas[c].highestSeen == rs[c].highestSeen && s.replicas[c].nextSlot == rs[c].nextSlot
    requires var polled := s.replicas[c].driver.polled;
             VotesOf(rs, w, polled, c) + {Vote(polled, c, c, rs[c].highestSeen)} <= s.votes
    ensures Reachable(g, o, s') && SameLog(s, s') && s'.votes == s.votes
    ensures s'.replicas == s.replicas[c := s.replicas[c].(role := Leader, driver := Idle, tasks := true,
                                                          nextSlot := rs[c].highestSeen + 1)]
  {
    var polled := s.replicas[c].driver.polled;
    var mine := Vote(polled, c, c, rs[c].highestSeen);
    var granted := VotesOf(rs, w, polled, c) + {mine};
    VotersOf(rs, w, polled, c, mine);
    assert IsCeiling(s.replicas[c], granted, rs[c].highestSeen);
    s' := Take(g, o, s, Win(c, granted, rs[c].highestSeen));
  }

  function Leading(r: Replica, c: nat): Replica {
    r.(term := r.term + 1, votedFor := Some(c), role := Leader, driver := Idle, tasks := true,
       nextSlot := r.highestSeen + 1)
  }

  function AfterElection(rs: map<nat, Replica>, w: set<nat>, c: nat): map<nat, Replica>
    requires c in rs
  {
    AllGranting(rs, w, rs[c].term + 1, c)[c := Leading(rs[c], c)]
  }

  lemma LeadingAfterCampaign(rs: map<nat, Replica>, w: set<nat>, c: nat)
    requires c in rs
    ensures var r := Campaigning(rs[c], c);
            AllGranting(rs, w, rs[c].term + 1, c)[c := r]
              [c := r.(role := Leader, driver := Idle, tasks := true, nextSlot := rs[c].highestSeen + 1)]
            == AfterElection(rs, w, c)
  {
  }

  /** Replica c wins the next term with the votes of w and its own. */
  lemma Elect(g: Group, o: bool, s: State, c: nat, w: set<nat>, request: VoteRequest) returns (s': State)
    requires Reachable(g, o, s) && CanPlan(s, c, w, request)
    requires Majority(g.voters, w + {c}) && IsHighest(s.replicas, c, w)
    ensures Reachable(g, o, s') && SameLog(s, s') && s.votes <= s'.votes
    ensures s'.replicas == AfterElection(s.replicas, w, c)
  {
    var s1 := Canvass(g, o, s, c, w, request);
    LeadingAfterCampaign(s.replicas, w, c);
    s' := Victory(g, o, s1, s.replicas, c, w);
  }

  // ---- a first and a second leader ----

  /** How a voter looks after it made x the leader of term 1. */
  function FirstVoter(x: nat): Replica {
    Replica(1, Some(x), Follower, Idle, false, 1, 0, map[])
  }

  lemma FreshWouldGrant(g: Group, x: nat)
    requires x in g.voters
    ensures CanPlan(Init(g), x, g.voters - {x}, VoteRequest(1, x, 0, 0))
    ensures IsHighest(Init(g).replicas, x, g.voters - {x})
    ensures g.voters - {x} + {x} == g.voters && Majority(g.voters, g.voters)
  {
    assert WouldGrant(Fresh(), VoteRequest(1, x, 0, 0)) by {
      assert Fresh().IsLogTip(0, 0);
    }
    assert g.voters - {x} + {x} == g.voters;
    assert |g.voters| > 0;
  }

  /** Everyone votes for x in term 1; x has not counted the votes yet. */
  lemma ReachFirstPoll(g: Group, o: bool, x: nat) returns (s: State)
    requires x in g.voters
    ensures Reachable(g, o, s) && SameLog(Init(g), s) && s.replicas.Keys == g.voters
    ensures s.replicas[x] == Campaigning(Fresh(), x) && forall n <- g.voters - {x} :: s.replicas[n] == FirstVoter(x)
    ensures VotesOf(Init(g).replicas, g.voters - {x}, 1, x) + {Vote(1, x, x, 0)} <= s.votes
  {
    ReachInit(g, o);
    FreshWouldGrant(g, x);
    s := Canvass(g, o, Init(g), x, g.voters - {x}, VoteRequest(1, x, 0, 0));
  }

  /** Everyone makes x the leader of term 1. */
  lemma ReachFirstLeader(g: Group, o: bool, x: nat) returns (s: State)
    requires x in g.voters
    ensures Reachable(g, o, s) && SameLog(Init(g), s) && s.replicas.Keys == g.voters
    ensures s.replicas[x] == Leading(Fresh(), x) && forall n <- g.voters - {x} :: s.replicas[n] == FirstVoter(x)
  {
    ReachInit(g, o);
    FreshWouldGrant(g, x);
    s := Elect(g, o, Init(g), x, g.voters - {x}, VoteRequest(1, x, 0, 0));
  }
}
