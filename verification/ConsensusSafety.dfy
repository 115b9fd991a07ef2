/**
 Agreement: an invariant of every run of every group, in both modes of proposing, under which
 two chosen values of a slot can only come from two accepted leader writes.
 */
module ConsensusSafety {
  import opened Common
  import opened Consensus

  ghost predicate Settled(s: State, k: nat) {
    k < |s.attempts| && s.attempts[k].decision.Some?
  }

  /** Replica n accepted exactly this entry at this slot, from attempt k. */
  ghost predicate AcceptedFrom(s: State, n: nat, slot: nat, e: Entry, k: nat) {
    (k, n) in s.accepts && Settled(s, k) && s.attempts[k].slot == slot && s.attempts[k].Value() == e
  }

  ghost predicate AcceptedAt(s: State, n: nat, slot: nat, e: Entry) {
    exists k: nat :: AcceptedFrom(s, n, slot, e, k)
  }

  ghost predicate SameSlot(s: State, j: nat, k: nat) {
    j < |s.attempts| && k < |s.attempts| && s.attempts[j].slot == s.attempts[k].slot
  }

  ghost predicate SameBallot(s: State, j: nat, k: nat) {
    j < |s.attempts| && k < |s.attempts| && s.attempts[j].ballot == s.attempts[k].ballot
  }

  ghost predicate Lower(s: State, j: nat, k: nat) {
    j < |s.attempts| && k < |s.attempts| && Below(s.attempts[j].ballot, s.attempts[k].ballot)
  }

  ghost predicate WellIndexed(g: Group, s: State) {
    && s.replicas.Keys == g.voters
    && (forall k: nat, n: nat :: (k, n) in s.promises ==>
          k < |s.attempts| && n in s.replicas && !s.attempts[k].SkipsPrepare())
    && (forall k: nat, n: nat :: (k, n) in s.accepts ==> Settled(s, k) && n in s.replicas)
  }

  /** The promise that replica n holds at the slot of attempt k covers the ballot of k. */
  ghost predicate Covers(s: State, k: nat, n: nat) {
    k < |s.attempts| && n in s.replicas && AtMost(s.attempts[k].ballot, Bar(s.replicas[n].At(s.attempts[k].slot)))
  }

  ghost predicate PromisesHold(s: State) {
    && (forall k: nat, n: nat :: (k, n) in s.promises ==> Covers(s, k, n))
    && (forall k: nat, n: nat :: (k, n) in s.accepts ==> Covers(s, k, n))
    && (forall j: nat, k: nat, n: nat ::
          (j, n) in s.promises && (k, n) in s.promises && SameSlot(s, j, k) && SameBallot(s, j, k) ==> j == k)
  }

  /** The entry that replica n holds at the slot of attempt k is at least as new as k. */
  ghost predicate Holds(s: State, k: nat, n: nat) {
    && k < |s.attempts| && n in s.replicas
    && var e := s.replicas[n].At(s.attempts[k].slot).accepted; e.Some? && AtMost(s.attempts[k].ballot, e.value.ballot)
  }

  ghost predicate GoodSlot(s: State, n: nat, slot: nat, st: SlotState) {
    st.accepted.Some? ==> AcceptedAt(s, n, slot, st.accepted.value) && AtMost(st.accepted.value.ballot, Bar(st))
  }

  ghost predicate AcceptedIsNewest(s: State) {
    && (forall k: nat, n: nat :: (k, n) in s.accepts ==> Holds(s, k, n))
    && (forall n: nat, slot: nat :: n in s.replicas ==> GoodSlot(s, n, slot, s.replicas[n].At(slot)))
  }

  /** The report of n to attempt k is at least as new as attempt j. */
  ghost predicate Reports(s: State, k: nat, n: nat, j: nat) {
    && (k, n) in s.promises && s.promises[(k, n)].Some? && j < |s.attempts|
    && AtMost(s.attempts[j].ballot, s.promises[(k, n)].value.ballot)
  }

  ghost predicate GoodReport(s: State, k: nat, n: nat) {
    && (k, n) in s.promises && k < |s.attempts|
    && (s.promises[(k, n)].Some? ==>
          && Below(s.promises[(k, n)].value.ballot, s.attempts[k].ballot)
          && AcceptedAt(s, n, s.attempts[k].slot, s.promises[(k, n)].value))
  }

  /** A promise reports the newest entry accepted below its ballot, and stays accurate. */
  ghost predicate ReportsAreComplete(s: State) {
    && (forall k: nat, n: nat :: (k, n) in s.promises ==> GoodReport(s, k, n))
    && (forall j: nat, k: nat, n: nat ::
          (k, n) in s.promises && (j, n) in s.accepts && SameSlot(s, j, k) && Lower(s, j, k) ==> Reports(s, k, n, j))
  }

  /** A settled value follows the recovery rule over a quorum of promises. */
  ghost predicate FollowsRule(g: Group, s: State, k: nat) {
    && Settled(s, k)
    && var d := s.attempts[k].decision.value;
    && Majority(g.voters, d.folded)
    && (forall n :: n in d.folded ==> (k, n) in s.promises)
    && exists adopted ::
         IsAdopted(s.promises, k, d.folded, adopted) && (adopted.Some? ==> d.payload == adopted.value.payload)
  }

  ghost predicate DecisionsFollowRule(g: Group, s: State) {
    forall k: nat :: SettledClassic(s, k) ==> FollowsRule(g, s, k)
  }

  /** Settled after a first phase. */
  ghost predicate SettledClassic(s: State, k: nat) {
    Settled(s, k) && !s.attempts[k].SkipsPrepare()
  }

  ghost predicate Inv(g: Group, s: State) {
    && WellIndexed(g, s) && PromisesHold(s) && AcceptedIsNewest(s)
    && ReportsAreComplete(s) && DecisionsFollowRule(g, s)
  }

  // ---- what the invariant implies ----

  /** Two settled attempts never share a slot and a ballot. */
  lemma {:induction false} SettledBallotsAreUnique(g: Group, s: State, j: nat, k: nat)
    requires PromisesHold(s) && FollowsRule(g, s, j) && FollowsRule(g, s, k)
    requires SameSlot(s, j, k) && SameBallot(s, j, k)
    ensures j == k
  {
    var n := MajoritiesMeet(g.voters, s.attempts[j].decision.value.folded, s.attempts[k].decision.value.folded);
    assert (j, n) in s.promises && (k, n) in s.promises;
  }

  lemma AtMostIsTransitive(a: Ballot, b: Ballot, c: Ballot)
    requires AtMost(a, b) && AtMost(b, c)
    ensures AtMost(a, c)
  {}

  /** The value settled above a chosen ballot is one that a folded promise reported. */
  lemma {:induction false} ReportSeesChosen(g: Group, s: State, j: nat, k: nat) returns (m: nat, e: Entry)
    requires ReportsAreComplete(s) && ChosenBy(g, s, j) && FollowsRule(g, s, k)
    requires SameSlot(s, j, k) && Lower(s, j, k)
    ensures (k, m) in s.promises && s.promises[(k, m)] == Some(e)
    ensures AtMost(s.attempts[j].ballot, e.ballot) && s.attempts[k].decision.value.payload == e.payload
  {
    var d := s.attempts[k].decision.value;
    var n := MajoritiesMeet(g.voters, Acceptors(g, s, j), d.folded);
    assert (k, n) in s.promises && (j, n) in s.accepts;
    assert Reports(s, k, n, j);
    var adopted :|
      IsAdopted(s.promises, k, d.folded, adopted) && (adopted.Some? ==> d.payload == adopted.value.payload);
    e := adopted.value;
    AtMostIsTransitive(s.attempts[j].ballot, s.promises[(k, n)].value.ballot, e.ballot);
    m :| m in d.folded && s.promises[(k, m)] == adopted;
  }

  ghost predicate AcceptedWrite(s: State, k: nat, n: nat) {
    (k, n) in s.accepts && k < |s.attempts| && s.attempts[k].SkipsPrepare()
  }

  /** The leader writes of a slot that were accepted anywhere are one and the same. */
  ghost predicate WritesCoincide(s: State) {
    forall j: nat, k: nat, m: nat, n: nat ::
      AcceptedWrite(s, j, m) && AcceptedWrite(s, k, n) && SameSlot(s, j, k) ==> j == k
  }

  lemma ChosenIsAccepted(g: Group, s: State, j: nat) returns (n: nat)
    requires ChosenBy(g, s, j)
    ensures (j, n) in s.accepts
  {
    assert Acceptors(g, s, j) != {};
    n :| n in Acceptors(g, s, j);
  }

  /** Whatever is accepted at or above the ballot of a chosen value is that value. */
  lemma {:induction false} ChosenValueIsKept(g: Group, s: State, j: nat, k: nat, n: nat)
    requires Inv(g, s) && WritesCoincide(s) && ChosenBy(g, s, j) && Settled(s, k) && (k, n) in s.accepts
    requires SameSlot(s, j, k) && AtMost(s.attempts[j].ballot, s.attempts[k].ballot)
    ensures s.attempts[k].decision.value.payload == s.attempts[j].decision.value.payload
    decreases s.attempts[k].ballot.round, s.attempts[k].ballot.leader
  {
    if s.attempts[k].SkipsPrepare() {
      var m := ChosenIsAccepted(g, s, j);
      assert AcceptedWrite(s, j, m) && AcceptedWrite(s, k, n);
    } else if s.attempts[j].ballot == s.attempts[k].ballot {
      assert SettledClassic(s, j) && SettledClassic(s, k);
      SettledBallotsAreUnique(g, s, j, k);
    } else {
      assert SettledClassic(s, k);
      var m, e := ReportSeesChosen(g, s, j, k);
      assert GoodReport(s, k, m);
      var i: nat :| AcceptedFrom(s, m, s.attempts[k].slot, e, i);
      ChosenValueIsKept(g, s, j, i, m);
    }
  }

  lemma {:induction false} InvImpliesAgreement(g: Group, s: State)
    requires Inv(g, s) && WritesCoincide(s)
    ensures Agreement(g, s)
  {
    forall j: nat, k: nat | ChosenBy(g, s, j) && ChosenBy(g, s, k) && s.attempts[j].slot == s.attempts[k].slot
      ensures s.attempts[j].decision.value.payload == s.attempts[k].decision.value.payload
    {
      var m := ChosenIsAccepted(g, s, j);
      var n := ChosenIsAccepted(g, s, k);
      if AtMost(s.attempts[j].ballot, s.attempts[k].ballot) {
        ChosenValueIsKept(g, s, j, k, n);
      } else {
        ChosenValueIsKept(g, s, k, j, m);
      }
    }
  }

  // ---- every step keeps the invariant ----

  /** What no step takes back: settled values, replies and the height of promises. */
  ghost predicate Grows(s: State, s': State) {
    && |s.attempts| <= |s'.attempts|
    && (forall k: nat :: k < |s.attempts| ==>
          && s'.attempts[k].slot == s.attempts[k].slot && s'.attempts[k].ballot == s.attempts[k].ballot
          && s'.attempts[k].term == s.attempts[k].term
          && (s.attempts[k].decision.Some? ==> s'.attempts[k].decision == s.attempts[k].decision))
    && (forall p :: p in s.promises ==> p in s'.promises && s'.promises[p] == s.promises[p])
    && s.accepts <= s'.accepts
    && s'.replicas.Keys == s.replicas.Keys
  }

  lemma {:induction false} AcceptedStays(s: State, s': State, n: nat, slot: nat, e: Entry)
    requires Grows(s, s') && AcceptedAt(s, n, slot, e)
    ensures AcceptedAt(s', n, slot, e)
  {
    var k: nat :| AcceptedFrom(s, n, slot, e, k);
    assert AcceptedFrom(s', n, slot, e, k);
  }

  lemma {:induction false} RuleStays(g: Group, s: State, s': State, k: nat)
    requires Grows(s, s') && FollowsRule(g, s, k)
    ensures FollowsRule(g, s', k)
  {
    var d := s.attempts[k].decision.value;
    var adopted :|
      IsAdopted(s.promises, k, d.folded, adopted) && (adopted.Some? ==> d.payload == adopted.value.payload);
    assert forall n :: n in d.folded ==> s'.promises[(k, n)] == s.promises[(k, n)];
    assert IsAdopted(s'.promises, k, d.folded, adopted);
  }

  lemma {:induction false} ReportStays(s: State, s': State, k: nat, n: nat)
    requires Grows(s, s') && GoodReport(s, k, n)
    ensures GoodReport(s', k, n)
  {
    if s.promises[(k, n)].Some? {
      AcceptedStays(s, s', n, s.attempts[k].slot, s.promises[(k, n)].value);
    }
  }

  ghost predicate SlotClimbs(st: SlotState, st': SlotState) {
    && AtMost(Bar(st), Bar(st'))
    && (st.accepted.Some? ==> st'.accepted.Some? && AtMost(st.accepted.value.ballot, st'.accepted.value.ballot))
  }

  /** Promises and accepted ballots only move up. */
  ghost predicate Climbs(s: State, s': State) {
    && Grows(s, s')
    && forall n: nat, slot: nat :: n in s.replicas ==> SlotClimbs(s.replicas[n].At(slot), s'.replicas[n].At(slot))
  }

  lemma {:induction false} KeepsPromises(g: Group, s: State, s': State)
    requires WellIndexed(g, s) && PromisesHold(s) && Climbs(s, s')
    requires forall k: nat, n: nat :: (k, n) in s'.promises && (k, n) !in s.promises ==> Covers(s', k, n)
    requires forall k: nat, n: nat :: (k, n) in s'.accepts && (k, n) !in s.accepts ==> Covers(s', k, n)
    requires forall j: nat, k: nat, n: nat ::
               ((j, n) in s'.promises && (k, n) in s'.promises && (k, n) !in s.promises
                && SameSlot(s', j, k) && SameBallot(s', j, k)) ==> j == k
    ensures PromisesHold(s')
  {
    forall k: nat, n: nat | (k, n) in s.promises || (k, n) in s.accepts ensures Covers(s', k, n) {
      assert Covers(s, k, n);
      var slot := s.attempts[k].slot;
      assert SlotClimbs(s.replicas[n].At(slot), s'.replicas[n].At(slot));
      AtMostIsTransitive(s.attempts[k].ballot, Bar(s.replicas[n].At(slot)), Bar(s'.replicas[n].At(slot)));
    }
    forall j: nat, k: nat, n: nat |
      (j, n) in s.promises && (k, n) in s.promises && SameSlot(s', j, k) && SameBallot(s', j, k)
      ensures j == k
    {
      assert SameSlot(s, j, k) && SameBallot(s, j, k);
    }
  }

  lemma {:induction false} KeepsAccepted(g: Group, s: State, s': State)
    requires WellIndexed(g, s) && AcceptedIsNewest(s) && Climbs(s, s')
    requires forall k: nat, n: nat :: (k, n) in s'.accepts && (k, n) !in s.accepts ==> Holds(s', k, n)
    requires forall n: nat, slot: nat ::
               n in s.replicas && s'.replicas[n].At(slot).accepted != s.replicas[n].At(slot).accepted ==>
                 GoodSlot(s', n, slot, s'.replicas[n].At(slot))
    ensures AcceptedIsNewest(s')
  {
    forall k: nat, n: nat | (k, n) in s.accepts ensures Holds(s', k, n) {
      assert Holds(s, k, n);
      var slot := s.attempts[k].slot;
      assert SlotClimbs(s.replicas[n].At(slot), s'.replicas[n].At(slot));
      AtMostIsTransitive(s.attempts[k].ballot, s.replicas[n].At(slot).accepted.value.ballot,
                         s'.replicas[n].At(slot).accepted.value.ballot);
    }
    forall n: nat, slot: nat | n in s'.replicas && s'.replicas[n].At(slot).accepted == s.replicas[n].At(slot).accepted
      ensures GoodSlot(s', n, slot, s'.replicas[n].At(slot))
    {
      SlotStays(s, s', n, slot, s.replicas[n].At(slot), s'.replicas[n].At(slot));
    }
  }

  lemma {:induction false} SlotStays(s: State, s': State, n: nat, slot: nat, st: SlotState, st': SlotState)
    requires Grows(s, s') && GoodSlot(s, n, slot, st) && SlotClimbs(st, st') && st'.accepted == st.accepted
    ensures GoodSlot(s', n, slot, st')
  {
    if st.accepted.Some? {
      AcceptedStays(s, s', n, slot, st.accepted.value);
      AtMostIsTransitive(st.accepted.value.ballot, Bar(st), Bar(st'));
    }
  }

  lemma {:induction false} KeepsReports(g: Group, s: State, s': State)
    requires WellIndexed(g, s) && ReportsAreComplete(s) && Grows(s, s')
    requires forall k: nat, n: nat :: (k, n) in s'.promises && (k, n) !in s.promises ==> GoodReport(s', k, n)
    requires forall j: nat, k: nat, n: nat ::
               ((k, n) in s'.promises && (j, n) in s'.accepts && ((k, n) !in s.promises || (j, n) !in s.accepts)
                && SameSlot(s', j, k) && Lower(s', j, k)) ==> Reports(s', k, n, j)
    ensures ReportsAreComplete(s')
  {
    forall k: nat, n: nat | (k, n) in s.promises ensures GoodReport(s', k, n) {
      ReportStays(s, s', k, n);
    }
    forall j: nat, k: nat, n: nat | (k, n) in s.promises && (j, n) in s.accepts && SameSlot(s', j, k) && Lower(s', j, k)
      ensures Reports(s', k, n, j)
    {
      assert SameSlot(s, j, k) && Lower(s, j, k);
      assert Reports(s, k, n, j);
    }
  }

  /** Elections, refusals and new or settled attempts move no slot and send no reply. */
  ghost predicate Quiet(s: State, s': State) {
    && Grows(s, s') && s'.promises == s.promises && s'.accepts == s.accepts
    && forall n: nat, slot: nat :: n in s.replicas ==> s'.replicas[n].At(slot) == s.replicas[n].At(slot)
  }

  lemma {:induction false} QuietStepKeepsInv(g: Group, s: State, s': State)
    requires Inv(g, s) && WellIndexed(g, s') && Quiet(s, s')
    requires forall k: nat :: SettledClassic(s', k) && !Settled(s, k) ==> FollowsRule(g, s', k)
    ensures Inv(g, s')
  {
    KeepsPromises(g, s, s');
    KeepsAccepted(g, s, s');
    KeepsReports(g, s, s');
    KeepsRule(g, s, s');
  }

  lemma {:induction false} KeepsRule(g: Group, s: State, s': State)
    requires DecisionsFollowRule(g, s) && Grows(s, s')
    requires forall k: nat :: SettledClassic(s', k) && !Settled(s, k) ==> FollowsRule(g, s', k)
    ensures DecisionsFollowRule(g, s')
  {
    forall k: nat | SettledClassic(s, k) ensures FollowsRule(g, s', k) {
      RuleStays(g, s, s', k);
    }
  }

  /** Only one slot of one replica changed. */
  ghost predicate OneSlotMoved(s: State, s': State, n: nat, slot: nat, st': SlotState) {
    && s'.attempts == s.attempts && s'.replicas.Keys == s.replicas.Keys
    && n in s.replicas && s'.replicas[n].At(slot) == st'
    && forall m: nat, x: nat :: m in s.replicas && (m != n || x != slot) ==> s'.replicas[m].At(x) == s.replicas[m].At(x)
  }

  /** Replica n promised attempt k and reported what it held. */
  ghost predicate Promised(s: State, s': State, n: nat, k: nat) {
    && n in s.replicas && k < |s.attempts| && !s.attempts[k].SkipsPrepare()
    && var st := s.replicas[n].At(s.attempts[k].slot);
       && Promises(st, s.attempts[k].ballot)
       && OneSlotMoved(s, s', n, s.attempts[k].slot, st.(promised := Some(s.attempts[k].ballot)))
       && s'.promises == s.promises[(k, n) := st.accepted] && s'.accepts == s.accepts
  }

  /** The report of a new promise is the newest entry, so it is complete. */
  lemma {:induction false} PromiseKeepsReports(g: Group, s: State, s': State, n: nat, k: nat)
    requires Inv(g, s) && Promised(s, s', n, k) && Grows(s, s')
    ensures ReportsAreComplete(s')
  {
    var t := s.attempts[k];
    var st := s.replicas[n].At(t.slot);
    assert GoodReport(s', k, n) by {
      assert GoodSlot(s, n, t.slot, st);
      if st.accepted.Some? { AcceptedStays(s, s', n, t.slot, st.accepted.value); }
    }
    forall j: nat | (j, n) in s.accepts && SameSlot(s', j, k) ensures Reports(s', k, n, j) {
      assert Holds(s, j, n);
    }
    KeepsReports(g, s, s');
  }

  /** A promise covers its ballot and is the first at that ballot. */
  lemma {:induction false} PromiseKeepsInv(g: Group, s: State, s': State, n: nat, k: nat)
    requires Inv(g, s) && Promised(s, s', n, k)
    ensures Inv(g, s')
  {
    forall j: nat | (j, n) in s.promises && SameSlot(s, j, k) ensures Lower(s, j, k) {
      assert Covers(s, j, n);
    }
    assert Climbs(s, s');
    KeepsPromises(g, s, s');
    KeepsAccepted(g, s, s');
    PromiseKeepsReports(g, s, s', n, k);
    KeepsRule(g, s, s');
  }

  /** Replica n accepted what attempt k proposed. */
  ghost predicate Accepted(s: State, s': State, n: nat, k: nat) {
    && n in s.replicas && Settled(s, k)
    && var t := s.attempts[k]; var st := s.replicas[n].At(t.slot);
       && Accepts(st, t.ballot)
       && OneSlotMoved(s, s', n, t.slot, SlotState(Raised(st, t.ballot), Some(t.Value())))
       && s'.promises == s.promises && s'.accepts == s.accepts + {(k, n)}
  }

  lemma {:induction false} AcceptClimbs(g: Group, s: State, s': State, n: nat, k: nat)
    requires Inv(g, s) && Accepted(s, s', n, k)
    ensures Climbs(s, s') && Covers(s', k, n)
  {
    var t := s.attempts[k];
    var st := s.replicas[n].At(t.slot);
    assert SlotClimbs(st, SlotState(Raised(st, t.ballot), Some(t.Value()))) by {
      assert GoodSlot(s, n, t.slot, st);
      if st.accepted.Some? { AtMostIsTransitive(st.accepted.value.ballot, Bar(st), t.ballot); }
    }
  }

  /** An accepted entry lies under no promise given before, so every report stays complete. */
  lemma {:induction false} AcceptKeepsReports(g: Group, s: State, s': State, n: nat, k: nat)
    requires Inv(g, s) && Accepted(s, s', n, k) && Grows(s, s')
    ensures ReportsAreComplete(s')
  {
    var t := s.attempts[k];
    var st := s.replicas[n].At(t.slot);
    forall i: nat | (i, n) in s.promises && SameSlot(s, k, i) ensures AtMost(s.attempts[i].ballot, t.ballot) {
      assert Covers(s, i, n);
      AtMostIsTransitive(s.attempts[i].ballot, Bar(st), t.ballot);
    }
    KeepsReports(g, s, s');
  }

  /** An accepted entry is the newest at its slot. */
  lemma {:induction false} AcceptKeepsInv(g: Group, s: State, s': State, n: nat, k: nat)
    requires Inv(g, s) && Accepted(s, s', n, k)
    ensures Inv(g, s')
  {
    AcceptClimbs(g, s, s', n, k);
    KeepsPromises(g, s, s');
    assert AcceptedFrom(s', n, s.attempts[k].slot, s.attempts[k].Value(), k);
    KeepsAccepted(g, s, s');
    AcceptKeepsReports(g, s, s', n, k);
    KeepsRule(g, s, s');
  }

  lemma {:induction false} OnPrepareEffect(g: Group, s: State, n: nat, k: nat)
    requires WellIndexed(g, s) && Enabled(g, s, OnPrepare(n, k))
    ensures var s' := Apply(g, s, OnPrepare(n, k));
            if Promises(s.replicas[n].At(s.attempts[k].slot), s.attempts[k].ballot) then Promised(s, s', n, k)
            else WellIndexed(g, s') && Quiet(s, s') && s'.attempts == s.attempts
  {}

  lemma {:induction false} OnAcceptEffect(g: Group, s: State, n: nat, k: nat)
    requires WellIndexed(g, s) && Enabled(g, s, OnAccept(n, k))
    ensures var s' := Apply(g, s, OnAccept(n, k));
            if Accepts(s.replicas[n].At(s.attempts[k].slot), s.attempts[k].ballot) then Accepted(s, s', n, k)
            else WellIndexed(g, s') && Quiet(s, s') && s'.attempts == s.attempts
  {}

  lemma {:induction false} ProceedEffect(g: Group, s: State, k: nat, folded: set<nat>, adopted: Option<Entry>)
    requires WellIndexed(g, s) && Enabled(g, s, Proceed(k, folded, adopted))
    ensures var s' := Apply(g, s, Proceed(k, folded, adopted));
            && WellIndexed(g, s') && Quiet(s, s')
            && forall i: nat :: Settled(s', i) && !Settled(s, i) ==> FollowsRule(g, s', i)
  {
    var s' := Apply(g, s, Proceed(k, folded, adopted));
    assert IsAdopted(s'.promises, k, folded, adopted);
  }

  /** One replica changed, but for its slots, and nothing was proposed or answered. */
  ghost predicate Shifted(s: State, s': State, n: nat, r: Replica) {
    && n in s.replicas && r.slots == s.replicas[n].slots && s'.replicas == s.replicas[n := r]
    && s'.attempts == s.attempts && s'.promises == s.promises && s'.accepts == s.accepts
  }

  lemma {:induction false} ShiftIsQuiet(g: Group, s: State, s': State, n: nat, r: Replica)
    requires WellIndexed(g, s) && Shifted(s, s', n, r)
    ensures WellIndexed(g, s') && Quiet(s, s')
  {}

  ghost predicate IsElection(a: Action) {
    !a.OnPrepare? && !a.OnAccept? && !a.Proceed? && !a.LeaderWrite? && !a.Prepare?
  }

  /** Elections move terms, roles and votes only. */
  lemma {:induction false} ElectionEffect(g: Group, s: State, a: Action)
    requires Enabled(g, s, a) && IsElection(a)
    ensures var s' := Apply(g, s, a); Shifted(s, s', a.n, s'.replicas[a.n])
  {}

  lemma {:induction false} ElectionKeepsInv(g: Group, s: State, a: Action)
    requires Inv(g, s) && Enabled(g, s, a) && IsElection(a)
    ensures Inv(g, Apply(g, s, a))
  {
    var s' := Apply(g, s, a);
    ElectionEffect(g, s, a);
    ShiftIsQuiet(g, s, s', a.n, s'.replicas[a.n]);
    QuietStepKeepsInv(g, s, s');
  }

  lemma {:induction false} ProposeEffect(g: Group, s: State, a: Action)
    requires WellIndexed(g, s) && Enabled(g, s, a) && (a.LeaderWrite? || a.Prepare?)
    ensures var s' := Apply(g, s, a);
            WellIndexed(g, s') && Quiet(s, s') && forall i: nat :: SettledClassic(s', i) ==> Settled(s, i)
  {}

  lemma {:induction false} OnPrepareKeepsInv(g: Group, s: State, n: nat, k: nat)
    requires Inv(g, s) && Enabled(g, s, OnPrepare(n, k))
    ensures Inv(g, Apply(g, s, OnPrepare(n, k)))
  {
    var s' := Apply(g, s, OnPrepare(n, k));
    OnPrepareEffect(g, s, n, k);
    if Promises(s.replicas[n].At(s.attempts[k].slot), s.attempts[k].ballot) {
      PromiseKeepsInv(g, s, s', n, k);
    } else {
      QuietStepKeepsInv(g, s, s');
    }
  }

  lemma {:induction false} OnAcceptKeepsInv(g: Group, s: State, n: nat, k: nat)
    requires Inv(g, s) && Enabled(g, s, OnAccept(n, k))
    ensures Inv(g, Apply(g, s, OnAccept(n, k)))
  {
    var s' := Apply(g, s, OnAccept(n, k));
    OnAcceptEffect(g, s, n, k);
    if Accepts(s.replicas[n].At(s.attempts[k].slot), s.attempts[k].ballot) {
      AcceptKeepsInv(g, s, s', n, k);
    } else {
      QuietStepKeepsInv(g, s, s');
    }
  }

  lemma {:induction false} ProposeKeepsInv(g: Group, s: State, a: Action)
    requires Inv(g, s) && Enabled(g, s, a) && (a.LeaderWrite? || a.Prepare?)
    ensures Inv(g, Apply(g, s, a))
  {
    ProposeEffect(g, s, a);
    QuietStepKeepsInv(g, s, Apply(g, s, a));
  }

  lemma {:induction false} ProceedKeepsInv(g: Group, s: State, a: Action)
    requires Inv(g, s) && Enabled(g, s, a) && a.Proceed?
    ensures Inv(g, Apply(g, s, a))
  {
    ProceedEffect(g, s, a.k, a.folded, a.adopted);
    QuietStepKeepsInv(g, s, Apply(g, s, a));
  }

  lemma {:induction false} StepKeepsInv(g: Group, s: State, a: Action)
    requires Inv(g, s) && Enabled(g, s, a)
    ensures Inv(g, Apply(g, s, a))
  {
    if a.OnPrepare? {
      OnPrepareKeepsInv(g, s, a.n, a.k);
    } else if a.OnAccept? {
      OnAcceptKeepsInv(g, s, a.n, a.k);
    } else if a.Proceed? {
      ProceedKeepsInv(g, s, a);
    } else if a.LeaderWrite? || a.Prepare? {
      ProposeKeepsInv(g, s, a);
    } else {
      ElectionKeepsInv(g, s, a);
    }
  }

  lemma {:induction false} RunKeepsInv(g: Group, run: seq<State>, i: nat)
    requires IsRun(g, run) && i < |run|
    ensures Inv(g, run[i])
  {
    if i > 0 {
      RunKeepsInv(g, run, i - 1);
      assert StepAt(g, run, i - 1);
      var a :| Enabled(g, run[i - 1], a) && run[i] == Apply(g, run[i - 1], a);
      StepKeepsInv(g, run[i - 1], a);
    }
  }

  ghost predicate AllClassic(s: State) {
    forall k: nat :: k < |s.attempts| ==> !s.attempts[k].SkipsPrepare()
  }

  lemma {:induction false} ClassicRunsStayClassic(g: Group, run: seq<State>, i: nat)
    requires g.forceClassic && IsRun(g, run) && i < |run|
    ensures AllClassic(run[i])
  {
    if i > 0 {
      ClassicRunsStayClassic(g, run, i - 1);
      assert StepAt(g, run, i - 1);
    }
  }

  /** With classic proposals every reachable state of every group agrees on every slot. */
  lemma ClassicGroupsAgree(g: Group, run: seq<State>, i: nat)
    requires g.forceClassic && IsRun(g, run) && i < |run|
    ensures Agreement(g, run[i])
  {
    RunKeepsInv(g, run, i);
    ClassicRunsStayClassic(g, run, i);
    InvImpliesAgreement(g, run[i]);
  }
}
