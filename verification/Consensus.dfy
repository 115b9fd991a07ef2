/**
 Per-slot Paxos with Raft-style elections, as one replication group runs it.

 Handlers are atomic and a reply is sent only after its record is durable, so a
 restart keeps terms, votes and slots. The network may drop, delay, duplicate
 and reorder: requests and replies stay available to be delivered later. What a
 replica reads before it waits, it acts on afterwards without looking again.
 */
module Consensus {
  import opened Common

  /** Proposal number, ordered by round and then by leader. */
  datatype Ballot = Ballot(round: nat, leader: nat)

  predicate Below(a: Ballot, b: Ballot) {
    a.round < b.round || (a.round == b.round && a.leader < b.leader)
  }

  predicate AtMost(a: Ballot, b: Ballot) {
    a == b || Below(a, b)
  }

  datatype Entry = Entry(ballot: Ballot, term: nat, payload: string)

  datatype SlotState = SlotState(promised: Option<Ballot>, accepted: Option<Entry>)

  const UNOPENED := SlotState(None, None)

  datatype Role = Follower | PreCandidate | Candidate | Leader

  /** How far the election task of a replica has come; it waits between any two stages. */
  datatype Driver =
    | Idle
    | Planned(proposed: nat)  // the next term is fixed, and the pre-vote round runs
    | Standing                // candidate, with its own vote on the way to disk
    | Polling(polled: nat)    // votes of this term are collected

  /** A replica; `tasks` says that proposals admitted while it led may still be going on. */
  datatype Replica = Replica(
    term: nat, votedFor: Option<nat>, role: Role, driver: Driver, tasks: bool,
    nextSlot: nat, highestSeen: nat, slots: map<nat, SlotState>)
  {
    function At(slot: nat): SlotState {
      if slot in slots then slots[slot] else UNOPENED
    }

    /** Adopting a newer term forgets the vote and the leadership of the old one. */
    function InTerm(t: nat): Replica {
      if t > term then this.(term := t, votedFor := None, role := Follower) else this
    }

    function Open(slot: nat, st: SlotState): Replica {
      this.(slots := slots[slot := st],
            highestSeen := if slot > highestSeen then slot else highestSeen)
    }

    /** The newest accepted slot and its term, (0, 0) for an empty log. */
    ghost predicate IsLogTip(slot: nat, tipTerm: nat) {
      && (forall later :: later in slots && later > slot ==> slots[later].accepted == None)
      && (if slot in slots && slots[slot].accepted.Some?
          then tipTerm == slots[slot].accepted.value.term
          else slot == 0 && tipTerm == 0)
    }
  }

  /** What the proposer settled after Phase 1: the replies it folded and the value. */
  datatype Decision = Decision(folded: set<nat>, payload: string)

  /** One run of the phases at one slot; its replies are matched by its index. */
  datatype Attempt = Attempt(
    proposer: nat, slot: nat, ballot: Ballot, term: nat, own: string, decision: Option<Decision>)
  {
    /** Leader writes skip Phase 1 and always use round zero. */
    predicate SkipsPrepare() { ballot.round == 0 }

    function Value(): Entry
      requires decision.Some?
    {
      Entry(ballot, term, decision.value.payload)
    }
  }

  datatype VoteRequest = VoteRequest(term: nat, candidate: nat, tipTerm: nat, tipSlot: nat)

  datatype PreVote = PreVote(term: nat, voter: nat, candidate: nat)

  /** A vote as its candidate counts it. */
  datatype Vote = Vote(term: nat, voter: nat, candidate: nat, highestSeen: nat)

  datatype State = State(
    replicas: map<nat, Replica>,
    attempts: seq<Attempt>,
    promises: map<(nat, nat), Option<Entry>>,  // (attempt, replica) to the accepted entry it reported
    accepts: set<(nat, nat)>,                  // (attempt, replica)
    preRequests: set<VoteRequest>,
    preVotes: set<PreVote>,
    requests: set<VoteRequest>,
    votes: set<Vote>,
    terms: set<nat>)                           // every term a replica ever stood in

  datatype Group = Group(voters: set<nat>, preVote: bool, forceClassic: bool)

  function Fresh(): Replica {
    Replica(0, None, Follower, Idle, false, 1, 0, map[])
  }

  function Init(g: Group): State {
    State(map n | n in g.voters :: Fresh(), [], map[], {}, {}, {}, {}, {}, {})
  }

  datatype Action =
    | Plan(n: nat, tipSlot: nat, tipTerm: nat)
    | GrantPreVote(n: nat, request: VoteRequest, tipSlot: nat, tipTerm: nat)
    | Stand(n: nat, preGranted: set<PreVote>)
    | Poll(n: nat, tipSlot: nat, tipTerm: nat)
    | Abandon(n: nat)
    | GrantVote(n: nat, request: VoteRequest, tipSlot: nat, tipTerm: nat)
    | Win(n: nat, granted: set<Vote>, ceiling: nat)
    | Follow(n: nat, newTerm: nat)
    | Restart(n: nat)
    | LeaderWrite(n: nat, payload: string)
    | Prepare(n: nat, slot: nat, payload: string, minRound: nat)
    | OnPrepare(n: nat, k: nat)
    | Proceed(k: nat, folded: set<nat>, adopted: Option<Entry>)
    | OnAccept(n: nat, k: nat)

  function Voters(granted: set<Vote>): set<nat> {
    set v | v in granted :: v.voter
  }

  function PreVoters(granted: set<PreVote>): set<nat> {
    set v | v in granted :: v.voter
  }

  predicate UpToDate(request: VoteRequest, tipSlot: nat, tipTerm: nat) {
    request.tipTerm > tipTerm || (request.tipTerm == tipTerm && request.tipSlot >= tipSlot)
  }

  ghost predicate IsCeiling(r: Replica, granted: set<Vote>, ceiling: nat) {
    && ceiling >= r.highestSeen && ceiling + 1 >= r.nextSlot
    && (forall v :: v in granted ==> ceiling >= v.highestSeen)
    && (|| ceiling == r.highestSeen || ceiling + 1 == r.nextSlot
        || exists v :: v in granted && ceiling == v.highestSeen)
  }

  /** The value recovery rule: the reported entry with the highest ballot, if any. */
  ghost predicate IsAdopted(promises: map<(nat, nat), Option<Entry>>, k: nat, folded: set<nat>, adopted: Option<Entry>)
    requires forall n :: n in folded ==> (k, n) in promises
  {
    match adopted
    case None => forall n :: n in folded ==> promises[(k, n)] == None
    case Some(best) =>
      && (exists n :: n in folded && promises[(k, n)] == adopted)
      && (forall n :: n in folded && promises[(k, n)].Some? ==> AtMost(promises[(k, n)].value.ballot, best.ballot))
  }

  ghost predicate Enabled(g: Group, s: State, a: Action) {
    match a
    case Plan(n, tipSlot, tipTerm) =>
      && n in s.replicas && s.replicas[n].driver.Idle? && !s.replicas[n].role.Leader?
      && s.replicas[n].IsLogTip(tipSlot, tipTerm)
    case GrantPreVote(n, request, tipSlot, tipTerm) =>
      && n in s.replicas && request in s.preRequests && request.candidate != n
      && s.replicas[n].IsLogTip(tipSlot, tipTerm)
      && request.term > s.replicas[n].term && UpToDate(request, tipSlot, tipTerm)
    case Stand(n, granted) =>
      && n in s.replicas && s.replicas[n].driver.Planned? && granted <= s.preVotes
      && (forall v :: v in granted ==> v.term == s.replicas[n].driver.proposed && v.candidate == n)
      && (g.preVote ==> Majority(g.voters, PreVoters(granted) + {n}))
    case Poll(n, tipSlot, tipTerm) =>
      n in s.replicas && s.replicas[n].driver.Standing? && s.replicas[n].IsLogTip(tipSlot, tipTerm)
    case Abandon(n) => n in s.replicas
    case GrantVote(n, request, tipSlot, tipTerm) =>
      && n in s.replicas && request in s.requests && request.candidate != n
      && s.replicas[n].IsLogTip(tipSlot, tipTerm)
      && (|| request.term > s.replicas[n].term
          || (request.term == s.replicas[n].term
              && (s.replicas[n].votedFor.Some? ==> s.replicas[n].votedFor.value == request.candidate)))
      && UpToDate(request, tipSlot, tipTerm)
    case Win(n, granted, ceiling) =>
      && n in s.replicas && s.replicas[n].driver.Polling? && granted <= s.votes
      && (forall v :: v in granted ==> v.term == s.replicas[n].driver.polled && v.candidate == n)
      && Majority(g.voters, Voters(granted))
      && IsCeiling(s.replicas[n], granted, ceiling)
    case Follow(n, newTerm) => n in s.replicas && (newTerm in s.terms || newTerm == s.replicas[n].term)
    case Restart(n) => n in s.replicas
    case LeaderWrite(n, payload) => n in s.replicas && s.replicas[n].tasks && !g.forceClassic
    case Prepare(n, slot, payload, minRound) => n in s.replicas && s.replicas[n].tasks
    case OnPrepare(n, k) =>
      && n in s.replicas && k < |s.attempts| && !s.attempts[k].SkipsPrepare()
      && s.attempts[k].term >= s.replicas[n].term
    case Proceed(k, folded, adopted) =>
      && k < |s.attempts| && s.attempts[k].decision == None
      && Majority(g.voters, folded)
      && (forall n :: n in folded ==> (k, n) in s.promises)
      && IsAdopted(s.promises, k, folded, adopted)
    case OnAccept(n, k) =>
      && n in s.replicas && k < |s.attempts| && s.attempts[k].decision.Some?
      && s.attempts[k].term >= s.replicas[n].term
  }

  /** The acceptor's answer to Prepare: strictly higher ballots are promised. */
  predicate Promises(st: SlotState, ballot: Ballot) {
    st.promised.Some? ==> Below(st.promised.value, ballot)
  }

  /** The acceptor's answer to Accept: anything not below the promise is taken. */
  predicate Accepts(st: SlotState, ballot: Ballot) {
    st.promised.Some? ==> AtMost(st.promised.value, ballot)
  }

  const LOWEST := Ballot(0, 0)

  /** An unset promise holds like one at the lowest ballot. */
  function Bar(st: SlotState): Ballot {
    st.promised.GetOr(LOWEST)
  }

  /** Accept raises the promise to its own ballot. */
  function Raised(st: SlotState, ballot: Ballot): Option<Ballot> {
    if Below(Bar(st), ballot) then Some(ballot) else st.promised
  }

  function PrepareRound(st: SlotState, minRound: nat): nat {
    1 + if st.promised.Some? && st.promised.value.round > minRound then st.promised.value.round else minRound
  }

  function Put(s: State, n: nat, r: Replica): State {
    s.(replicas := s.replicas[n := r])
  }

  ghost function Apply(g: Group, s: State, a: Action): State
    requires Enabled(g, s, a)
  {
    match a
    case Plan(n, tipSlot, tipTerm) =>
      var r := s.replicas[n];
      if g.preVote then
        Put(s, n, r.(driver := Planned(r.term + 1), role := PreCandidate))
        .(preRequests := s.preRequests + {VoteRequest(r.term + 1, n, tipTerm, tipSlot)})
      else
        Put(s, n, r.(driver := Planned(r.term + 1)))
    case GrantPreVote(n, request, _, _) =>
      s.(preVotes := s.preVotes + {PreVote(request.term, n, request.candidate)})
    case Stand(n, _) =>
      var r := s.replicas[n];
      Put(s, n, r.(term := r.driver.proposed, votedFor := Some(n), role := Candidate, driver := Standing))
      .(terms := s.terms + {r.driver.proposed})
    case Poll(n, tipSlot, tipTerm) =>
      var r := s.replicas[n];
      Put(s, n, r.(driver := Polling(r.term)))
      .(requests := s.requests + {VoteRequest(r.term, n, tipTerm, tipSlot)},
        votes := s.votes + {Vote(r.term, n, n, r.highestSeen)})
    case Abandon(n) => Put(s, n, s.replicas[n].(driver := Idle))
    case GrantVote(n, request, _, _) =>
      var r := s.replicas[n];
      Put(s, n, r.(term := request.term, votedFor := Some(request.candidate), role := Follower))
      .(votes := s.votes + {Vote(request.term, n, request.candidate, r.highestSeen)})
    case Win(n, _, ceiling) =>
      Put(s, n, s.replicas[n].(role := Leader, driver := Idle, tasks := true, nextSlot := ceiling + 1))
    case Follow(n, newTerm) => Put(s, n, s.replicas[n].InTerm(newTerm).(role := Follower))
    case Restart(n) => Put(s, n, s.replicas[n].(role := Follower, driver := Idle, tasks := false, nextSlot := 1))
    case LeaderWrite(n, payload) =>
      var r := s.replicas[n];
      Put(s, n, r.(nextSlot := r.nextSlot + 1))
      .(attempts := s.attempts
          + [Attempt(n, r.nextSlot, Ballot(0, n), r.term, payload, Some(Decision({}, payload)))])
    case Prepare(n, slot, payload, minRound) =>
      var r := s.replicas[n];
      s.(attempts := s.attempts
           + [Attempt(n, slot, Ballot(PrepareRound(r.At(slot), minRound), n), r.term, payload, None)])
    case OnPrepare(n, k) =>
      var t := s.attempts[k];
      var r := s.replicas[n].InTerm(t.term);
      var st := r.At(t.slot);
      if Promises(st, t.ballot) then
        Put(s, n, r.Open(t.slot, st.(promised := Some(t.ballot))))
        .(promises := s.promises[(k, n) := st.accepted])
      else
        Put(s, n, r.Open(t.slot, st))
    case Proceed(k, folded, adopted) =>
      var t := s.attempts[k];
      var payload := if adopted.Some? then adopted.value.payload else t.own;
      s.(attempts := s.attempts[k := t.(decision := Some(Decision(folded, payload)))])
    case OnAccept(n, k) =>
      var t := s.attempts[k];
      var r := s.replicas[n].InTerm(t.term);
      var st := r.At(t.slot);
      if Accepts(st, t.ballot) then
        Put(s, n, r.Open(t.slot, SlotState(Raised(st, t.ballot), Some(t.Value()))))
        .(accepts := s.accepts + {(k, n)})
      else
        Put(s, n, r.Open(t.slot, st))
  }

  /** What an election read before it waited still holds when it goes on. */
  ghost predicate Undisturbed(s: State, a: Action) {
    match a
    case Stand(n, _) =>
      n in s.replicas && s.replicas[n].driver.Planned? && s.replicas[n].driver.proposed > s.replicas[n].term
    case Poll(n, _, _) => n in s.replicas && s.replicas[n].votedFor == Some(n)
    case Win(n, _, _) => n in s.replicas && s.replicas[n].driver == Polling(s.replicas[n].term)
    case _ => true
  }

  /** Nothing is done by a task whose time is over: elections are undisturbed and only leaders propose. */
  ghost predicate Orderly(s: State, a: Action) {
    && Undisturbed(s, a)
    && (a.LeaderWrite? || a.Prepare? ==> a.n in s.replicas && s.replicas[a.n].role.Leader?)
  }

  ghost predicate Next(g: Group, s: State, s': State) {
    exists a :: Enabled(g, s, a) && s' == Apply(g, s, a)
  }

  ghost predicate StepAt(g: Group, run: seq<State>, i: nat) {
    i + 1 < |run| ==> Next(g, run[i], run[i + 1])
  }

  ghost predicate IsRun(g: Group, run: seq<State>) {
    |run| > 0 && run[0] == Init(g) && forall i: nat :: StepAt(g, run, i)
  }

  ghost function Acceptors(g: Group, s: State, k: nat): set<nat> {
    set n | n in g.voters && (k, n) in s.accepts
  }

  /** A quorum of voters accepted what attempt k proposed. */
  ghost predicate ChosenBy(g: Group, s: State, k: nat) {
    k < |s.attempts| && s.attempts[k].decision.Some? && Majority(g.voters, Acceptors(g, s, k))
  }

  /** No slot ever has two chosen values. */
  ghost predicate Agreement(g: Group, s: State) {
    forall j: nat, k: nat :: ChosenBy(g, s, j) && ChosenBy(g, s, k) && s.attempts[j].slot == s.attempts[k].slot
      ==> s.attempts[j].decision.value.payload == s.attempts[k].decision.value.payload
  }
}
