/**
 Why leader writes that skip Phase 1 break agreement. Their ballots are (0, leader), so a write
 of a later term can carry a lower ballot than a leftover of an earlier term, and recovery adopts
 the reported entry with the highest ballot, not the newest term. And a proposal admitted before
 a step-down takes its slot and its term only afterwards, so two leaders write the same slot.
 */
module ConsensusLeaderWrites {
  import opened Common
  import opened Consensus
  import opened ConsensusRuns
  import opened ConsensusSafety
  import opened ConsensusSingleVoter
  import opened ConsensusSmallGroups

  /** A proposal of replica c takes the next slot without a first phase. */
  lemma Write(g: Group, o: bool, s: State, c: nat, payload: string) returns (s': State)
    requires Reachable(g, o, s) && !g.forceClassic
    requires c in s.replicas && s.replicas[c].tasks && s.replicas[c].nextSlot == 1
    requires o ==> s.replicas[c].role.Leader?
    ensures Reachable(g, o, s')
    ensures s' == s.(replicas := s.replicas[c := s.replicas[c].(nextSlot := 2)],
                     attempts := s.attempts + [WriteOf(c, s.replicas[c].term, payload)])
  {
    s' := Take(g, o, s, LeaderWrite(c, payload));
  }

  function WriteOf(c: nat, term: nat, payload: string): Attempt {
    Attempt(c, 1, Ballot(0, c), term, payload, Some(Decision({}, payload)))
  }

  function Holding(t: Attempt): SlotState
    requires t.decision.Some?
  {
    SlotState(Some(t.ballot), Some(t.Value()))
  }

  const LEFT := "left over"

  const CHOSEN := "chosen"

  lemma AllChoose(g: Group, s: State, k: nat, w: set<nat>)
    requires k < |s.attempts| && s.attempts[k].decision.Some? && Majority(g.voters, w) && Pairs(k, w) <= s.accepts
    ensures ChosenBy(g, s, k)
  {
    forall n <- w
      ensures n in Acceptors(g, s, k)
    {
      assert (k, n) in Pairs(k, w);
    }
    SubsetIsNoLarger(w, Acceptors(g, s, k));
  }

  // ---- a proposal outlives the leadership it was admitted in ----

  /** Replica x led term 1 and has proposals waiting; everyone has since made y the leader of term 2. */
  ghost predicate Succeeded(g: Group, s: State, x: nat, y: nat) {
    && s.replicas.Keys == g.voters && {x, y} <= g.voters && s.attempts == [] && s.accepts == {}
    && s.replicas[x].tasks && s.replicas[y].tasks
    && forall n <- g.voters :: s.replicas[n].term == 2 && s.replicas[n].slots == map[] && s.replicas[n].nextSlot == 1
  }

  lemma ReachSuccessor(g: Group, x: nat, y: nat) returns (s: State)
    requires {x, y} <= g.voters && x != y
    ensures Reachable(g, false, s) && Succeeded(g, s, x, y)
  {
    var s1 := ReachFirstLeader(g, false, x);
    var request := VoteRequest(2, y, 0, 0);
    assert WouldGrant(FirstVoter(x), request) by {
      assert FirstVoter(x).IsLogTip(0, 0);
    }
    assert WouldGrant(Leading(Fresh(), x), request) by {
      assert Leading(Fresh(), x).IsLogTip(0, 0);
    }
    assert g.voters - {y} + {y} == g.voters && |g.voters| > 0;
    s := Elect(g, false, s1, y, g.voters - {y}, request);
  }

  /** Everyone accepted what the former leader wrote at slot 1, in the term of its successor. */
  ghost predicate Overtaken(g: Group, s: State, x: nat, y: nat) {
    && s.replicas.Keys == g.voters && s.attempts == [WriteOf(x, 2, LEFT)] && s.accepts == Pairs(0, g.voters)
    && y in g.voters && s.replicas[y].tasks && s.replicas[y].nextSlot == 1
    && forall n <- g.voters :: s.replicas[n].term == 2 && AtMost(Bar(s.replicas[n].At(1)), Ballot(0, x))
  }

  lemma FormerLeaderWritesFirst(g: Group, s: State, x: nat, y: nat) returns (s': State)
    requires Reachable(g, false, s) && Succeeded(g, s, x, y) && x != y && !g.forceClassic
    ensures Reachable(g, false, s') && Overtaken(g, s', x, y)
  {
    var s1 := Write(g, false, s, x, LEFT);
    forall n <- g.voters
      ensures s1.replicas[n].term == 2 && s1.replicas[n].At(1) == UNOPENED
      ensures AtMost(Bar(Accepting(s1.replicas[n], WriteOf(x, 2, LEFT)).At(1)), Ballot(0, x))
    {
      assert s1.replicas[n].slots == map[];
    }
    s' := AllAccept(g, false, s1, 0, g.voters);
  }

  /** Both write slot 1 of term 2, first the former leader and then the present one, and everyone accepts both. */
  lemma FormerLeaderWrites(g: Group, x: nat, y: nat) returns (s: State)
    requires {x, y} <= g.voters && x < y && !g.forceClassic
    ensures Reachable(g, false, s) && !Agreement(g, s)
  {
    s := ReachSuccessor(g, x, y);
    s := FormerLeaderWritesFirst(g, s, x, y);
    s := SuccessorWrites(g, s, x, y);
  }

  lemma SuccessorWrites(g: Group, s: State, x: nat, y: nat) returns (s': State)
    requires Reachable(g, false, s) && Overtaken(g, s, x, y) && x < y && !g.forceClassic
    ensures Reachable(g, false, s') && !Agreement(g, s')
  {
    var s1 := Write(g, false, s, y, CHOSEN);
    forall n <- g.voters
      ensures s1.replicas[n].term == 2 && Accepts(s1.replicas[n].At(1), Ballot(0, y))
    {
      assert s1.replicas[n].slots == s.replicas[n].slots;
    }
    s' := AllAccept(g, false, s1, 1, g.voters);
    assert |g.voters| > 0;
    AllChoose(g, s', 0, g.voters);
    AllChoose(g, s', 1, g.voters);
    assert s'.attempts[0].slot == s'.attempts[1].slot;
  }

  // ---- a leftover of an old leader outranks a newer chosen value ----

  /** Everyone makes x the leader of term 1, and x alone accepts its own write at slot 1. */
  ghost predicate TermOne(g: Group, s: State, x: nat) {
    && s.replicas.Keys == g.voters && s.attempts == [WriteOf(x, 1, LEFT)]
    && s.accepts == {(0, x)} && s.promises == map[]
    && forall n <- g.voters :: s.replicas[n] == InTermOne(n, x)
  }

  function InTermOne(n: nat, x: nat): Replica {
    if n == x then Replica(1, Some(x), Leader, Idle, true, 2, 1, map[1 := Holding(WriteOf(x, 1, LEFT))])
    else FirstVoter(x)
  }

  lemma ReachTermOne(g: Group, x: nat) returns (s: State)
    requires !g.forceClassic && x in g.voters && x > 0 && |g.voters| >= 1
    ensures Reachable(g, true, s) && TermOne(g, s, x)
  {
    var s0 := ReachFirstLeader(g, true, x);
    var s1 := Write(g, true, s0, x, LEFT);
    s := AllAccept(g, true, s1, 0, {x});
    assert s.replicas[x] == Accepting(s1.replicas[x], WriteOf(x, 1, LEFT));
  }

  /** All but x make y the leader of term 2 and accept its write at slot 1. */
  ghost predicate TermTwo(g: Group, s: State, x: nat, y: nat) {
    && s.replicas.Keys == g.voters && s.attempts == [WriteOf(x, 1, LEFT), WriteOf(y, 2, CHOSEN)]
    && s.accepts == {(0, x)} + Pairs(1, g.voters - {x}) && s.promises == map[]
    && forall n <- g.voters :: s.replicas[n] == InTermTwo(n, x, y)
  }

  function InTermTwo(n: nat, x: nat, y: nat): Replica {
    if n == x then InTermOne(x, x)
    else if n == y then Replica(2, Some(y), Leader, Idle, true, 2, 1, map[1 := Holding(WriteOf(y, 2, CHOSEN))])
    else Replica(2, Some(y), Follower, Idle, false, 1, 1, map[1 := Holding(WriteOf(y, 2, CHOSEN))])
  }

  /** How a replica other than x gets from term 1 to term 2. */
  function Voting(n: nat, x: nat, y: nat): Replica {
    if n == y then Leading(InTermOne(y, x), y).(nextSlot := 2) else Granting(InTermOne(n, x), 2, y)
  }

  lemma VotingLeadsToTermTwo(n: nat, x: nat, y: nat)
    requires n != x && x != y && y > 0
    ensures Voting(n, x, y).term == 2 && Accepts(Voting(n, x, y).At(1), Ballot(0, y))
    ensures Accepting(Voting(n, x, y), WriteOf(y, 2, CHOSEN)) == InTermTwo(n, x, y)
  {
  }

  lemma AllButOneIsAMajority(g: Group, x: nat)
    requires |g.voters| >= 3 && x in g.voters
    ensures Majority(g.voters, g.voters - {x})
  {
  }

  lemma ReachSecondLeader(g: Group, s: State, x: nat, y: nat) returns (s': State)
    requires |g.voters| >= 3 && x in g.voters && y in g.voters && x != y
    requires Reachable(g, true, s) && TermOne(g, s, x)
    ensures Reachable(g, true, s') && SameLog(s, s')
    ensures s'.replicas == AfterElection(s.replicas, g.voters - {x} - {y}, y)
  {
    var w := g.voters - {x} - {y};
    AllButOneIsAMajority(g, x);
    assert w + {y} == g.voters - {x};
    var idle := InTermOne(y, x);
    assert WouldGrant(idle, VoteRequest(2, y, 0, 0)) by {
      assert idle.IsLogTip(0, 0);
    }
    assert forall n <- w + {y} :: s.replicas[n] == idle;
    s' := Elect(g, true, s, y, w, VoteRequest(2, y, 0, 0));
  }

  lemma ReachChosen(g: Group, s: State, x: nat, y: nat) returns (s': State)
    requires x in g.voters && x != y && y > 0 && Reachable(g, true, s) && s.replicas.Keys == g.voters
    requires s.attempts == [WriteOf(x, 1, LEFT), WriteOf(y, 2, CHOSEN)] && s.accepts == {(0, x)} && s.promises == map[]
    requires s.replicas[x] == InTermOne(x, x) && forall n <- g.voters - {x} :: s.replicas[n] == Voting(n, x, y)
    ensures Reachable(g, true, s') && TermTwo(g, s', x, y)
  {
    forall n <- g.voters - {x}
      ensures Voting(n, x, y).term == 2 && Accepts(Voting(n, x, y).At(1), Ballot(0, y))
      ensures Accepting(Voting(n, x, y), WriteOf(y, 2, CHOSEN)) == InTermTwo(n, x, y)
    {
      VotingLeadsToTermTwo(n, x, y);
    }
    s' := AllAccept(g, true, s, 1, g.voters - {x});
  }

  lemma ReachTermTwo(g: Group, s: State, x: nat, y: nat) returns (s': State)
    requires !g.forceClassic && |g.voters| >= 3 && x in g.voters && y in g.voters && x != y && y > 0
    requires Reachable(g, true, s) && TermOne(g, s, x)
    ensures Reachable(g, true, s') && TermTwo(g, s', x, y)
  {
    var s1 := ReachSecondLeader(g, s, x, y);
    var s2 := Write(g, true, s1, y, CHOSEN);
    forall n <- g.voters - {x}
      ensures s2.replicas[n] == Voting(n, x, y)
    {
    }
    s' := ReachChosen(g, s2, x, y);
  }

  lemma TermTwoWouldGrant(n: nat, x: nat, y: nat, z: nat)
    requires x != y
    ensures WouldGrant(InTermTwo(n, x, y), VoteRequest(3, z, 2, 1)) && InTermTwo(n, x, y).highestSeen == 1
  {
    assert InTermTwo(n, x, y).IsLogTip(1, if n == x then 1 else 2);
  }

  lemma ThirdElectionIsPossible(g: Group, s: State, x: nat, y: nat, z: nat)
    requires {x, y, z} <= g.voters && x != y && x != z && y != z && TermTwo(g, s, x, y)
    ensures CanPlan(s, z, g.voters - {z}, VoteRequest(3, z, 2, 1)) && IsHighest(s.replicas, z, g.voters - {z})
  {
    assert InTermTwo(z, x, y).IsLogTip(1, 2);
    forall n <- g.voters
      ensures WouldGrant(s.replicas[n], VoteRequest(3, z, 2, 1)) && s.replicas[n].highestSeen == 1
    {
      TermTwoWouldGrant(n, x, y, z);
    }
  }

  lemma ReachTermThree(g: Group, s: State, x: nat, y: nat, z: nat) returns (s': State)
    requires |g.voters| >= 3 && {x, y, z} <= g.voters && x != y && x != z && y != z
    requires Reachable(g, true, s) && TermTwo(g, s, x, y)
    ensures Reachable(g, true, s') && SameLog(s, s') && s'.replicas == AfterElection(s.replicas, g.voters - {z}, z)
  {
    var w := g.voters - {z};
    assert w + {z} == g.voters;
    ThirdElectionIsPossible(g, s, x, y, z);
    s' := Elect(g, true, s, z, w, VoteRequest(3, z, 2, 1));
  }

  function Recovery(z: nat): Attempt {
    Attempt(z, 1, Ballot(1, z), 3, "", None)
  }

  /** Everyone promises the recovery of slot 1 and reports what it holds. */
  ghost predicate Reported(g: Group, s: State, x: nat, y: nat, z: nat) {
    && s.replicas.Keys == g.voters && s.attempts == [WriteOf(x, 1, LEFT), WriteOf(y, 2, CHOSEN), Recovery(z)]
    && s.accepts == {(0, x)} + Pairs(1, g.voters - {x})
    && forall n <- g.voters ::
         && (2, n) in s.promises && s.promises[(2, n)] == Some(HeldBy(n, x, y).Value())
         && s.replicas[n].term == 3 && s.replicas[n].At(1).promised == Some(Ballot(1, z))
  }

  /** A replica as it is when z leads term 3, with what it accepted at slot 1. */
  ghost predicate InTermThree(r: Replica, t: Attempt)
    requires t.decision.Some?
  {
    r.term == 3 && r.At(1) == Holding(t)
  }

  function HeldBy(n: nat, x: nat, y: nat): Attempt {
    if n == x then WriteOf(x, 1, LEFT) else WriteOf(y, 2, CHOSEN)
  }

  lemma ReachRecovery(g: Group, s: State, x: nat, y: nat, z: nat) returns (s': State)
    requires |g.voters| >= 3 && {x, y, z} <= g.voters && x != y && x != z && y != z
    requires Reachable(g, true, s) && TermTwo(g, s, x, y)
    ensures Reachable(g, true, s') && s'.replicas.Keys == g.voters && s'.attempts == s.attempts + [Recovery(z)]
    ensures s'.promises == s.promises && s'.accepts == s.accepts
    ensures forall n <- g.voters :: InTermThree(s'.replicas[n], HeldBy(n, x, y))
  {
    var s1 := ReachTermThree(g, s, x, y, z);
    forall n <- g.voters
      ensures InTermThree(s1.replicas[n], HeldBy(n, x, y))
    {
      assert s.replicas[n] == InTermTwo(n, x, y);
    }
    assert s1.replicas[z] == Leading(InTermTwo(z, x, y), z);
    s' := Take(g, true, s1, Prepare(z, 1, "", 0));
  }

  lemma PromisingKeepsReport(r: Replica, t: Attempt, z: nat)
    requires t.decision.Some? && InTermThree(r, t) && t.ballot.round == 0
    ensures r.term == 3 && r.At(1).accepted == Some(t.Value()) && Promises(r.At(1), Ballot(1, z))
    ensures Promising(r, Recovery(z)).term == 3 && Promising(r, Recovery(z)).At(1).promised == Some(Ballot(1, z))
  {
  }

  lemma ReachReports(g: Group, s: State, x: nat, y: nat, z: nat) returns (s': State)
    requires Reachable(g, true, s) && s.replicas.Keys == g.voters
    requires s.attempts == [WriteOf(x, 1, LEFT), WriteOf(y, 2, CHOSEN), Recovery(z)]
    requires s.accepts == {(0, x)} + Pairs(1, g.voters - {x})
    requires forall n <- g.voters :: InTermThree(s.replicas[n], HeldBy(n, x, y))
    ensures Reachable(g, true, s') && Reported(g, s', x, y, z)
  {
    forall n <- g.voters
      ensures s.replicas[n].term == 3 && s.replicas[n].At(1).accepted == Some(HeldBy(n, x, y).Value())
      ensures Promises(s.replicas[n].At(1), Ballot(1, z))
      ensures Promising(s.replicas[n], Recovery(z)).term == 3
      ensures Promising(s.replicas[n], Recovery(z)).At(1).promised == Some(Ballot(1, z))
    {
      PromisingKeepsReport(s.replicas[n], HeldBy(n, x, y), z);
    }
    s' := AllPromise(g, true, s, 2, g.voters);
  }

  /** The chosen value and the leftover are both chosen at slot 1 once z recovers the slot. */
  lemma RecoveryChoosesTheLeftover(g: Group, s: State, x: nat, y: nat, z: nat) returns (s': State)
    requires |g.voters| >= 3 && {x, y, z} <= g.voters && y < x
    requires Reachable(g, true, s) && Reported(g, s, x, y, z)
    ensures Reachable(g, true, s') && !Agreement(g, s')
  {
    var leftover := Some(WriteOf(x, 1, LEFT).Value());
    assert IsAdopted(s.promises, 2, g.voters, leftover) by {
      assert s.promises[(2, x)] == leftover;
    }
    var s1 := Take(g, true, s, Proceed(2, g.voters, leftover));
    s' := AllAccept(g, true, s1, 2, g.voters);
    AllButOneIsAMajority(g, x);
    AllChoose(g, s', 1, g.voters - {x});
    AllChoose(g, s', 2, g.voters);
    assert s'.attempts[1].slot == s'.attempts[2].slot;
  }

  lemma ThreeInOrder(g: Group) returns (x: nat, y: nat, z: nat)
    requires |g.voters| >= 3
    ensures {x, y, z} <= g.voters && 0 < y < x && z != x && z != y
  {
    var a :| a in g.voters;
    assert |g.voters - {a}| >= 2;
    var b :| b in g.voters - {a};
    assert |g.voters - {a} - {b}| >= 1;
    var c :| c in g.voters - {a} - {b};
    var hi, lo := if a > b then a else b, if a > b then b else a;
    x, y, z := if c > hi then c else hi, if c > hi then hi else if c < lo then lo else c, if c < lo then c else lo;
  }

  /** With leader writes every group of three or more voters can lose a chosen value, even in an orderly run. */
  lemma LeaderWritesLoseAChosenValue(g: Group) returns (s: State)
    requires |g.voters| >= 3 && !g.forceClassic
    ensures Reachable(g, true, s) && !Agreement(g, s)
  {
    var x, y, z := ThreeInOrder(g);
    s := ReachTermOne(g, x);
    s := ReachTermTwo(g, s, x, y);
    s := ReachRecovery(g, s, x, y, z);
    s := ReachReports(g, s, x, y, z);
    s := RecoveryChoosesTheLeftover(g, s, x, y, z);
  }

  /** Every orderly run of a group agrees exactly when the group always runs Phase 1 or has at most two voters. */
  lemma OrderlyAgreementIffClassicOrSmall(g: Group)
    ensures (forall s :: Reachable(g, true, s) ==> Agreement(g, s)) <==> g.forceClassic || |g.voters| <= 2
  {
    if g.forceClassic || |g.voters| <= 2 {
      forall s | Reachable(g, true, s)
        ensures Agreement(g, s)
      {
        var run :| IsRunOf(g, true, run) && run[|run| - 1] == s;
        RunOfIsRun(g, true, run);
        if g.forceClassic {
          ClassicGroupsAgree(g, run, |run| - 1);
        } else {
          SmallGroupsAgree(g, run, |run| - 1);
        }
      }
    } else {
      var s := LeaderWritesLoseAChosenValue(g);
    }
  }

  /** A group agrees in all its runs exactly when it always runs Phase 1 or has at most one voter. */
  lemma AgreementIffClassicOrSingle(g: Group)
    ensures (forall s :: Reachable(g, false, s) ==> Agreement(g, s)) <==> g.forceClassic || |g.voters| <= 1
  {
    if g.forceClassic || |g.voters| <= 1 {
      forall s | Reachable(g, false, s)
        ensures Agreement(g, s)
      {
        var run :| IsRunOf(g, false, run) && run[|run| - 1] == s;
        RunOfIsRun(g, false, run);
        if g.forceClassic {
          ClassicGroupsAgree(g, run, |run| - 1);
        } else {
          SingleVoterAgrees(g, run, |run| - 1);
        }
      }
    } else {
      var a :| a in g.voters;
      assert |g.voters - {a}| >= 1;
      var b :| b in g.voters - {a};
      var s := FormerLeaderWrites(g, if a < b then a else b, if a < b then b else a);
    }
  }
}
