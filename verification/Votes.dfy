/** When a node forgets a vote within its term. Stepping down clears the vote even when the term stays the same; this
    says exactly which steps do that, and that they are the only way to a second vote in one term. */
module Votes {
  import opened Entries
  import opened Protocol
  import opened Cluster
  import opened Assumptions

  /** What is on disk is what is in memory. */
  ghost predicate Durable(n: Node) {
    n.diskTerm == n.term && n.diskVote == n.votedFor
  }

  ghost predicate AllDurable(s: State) {
    && "" !in s.members && s.nodes.Keys == s.members
    && (forall id :: id in s.nodes ==> Durable(s.nodes[id]))
    && (forall m :: m in s.net && m.VoteRequest? ==> m.from != "")
  }

  /** The node votes, in its current term, for the one candidate its memory and its disk name. */
  ghost predicate VoteKept(n: Node) {
    && Durable(n)
    && (forall b :: b in n.cast ==> b.0 <= n.term)
    && (forall c :: (n.term, c) in n.cast <==> c != "" && c == n.votedFor)
  }

  ghost predicate VotesKept(s: State) {
    AllDurable(s) && forall id :: id in s.nodes ==> VoteKept(s.nodes[id])
  }

  /** The guard of the branch that forgets: a candidate or pre-candidate that has voted in its term hears from the
      leader of that same term. */
  ghost predicate ForgetsVote(n: Node, term: nat) {
    n.votedFor != "" && term == n.term && (n.role.Candidate? || n.role.PreCandidate?)
  }

  ghost predicate Forgetful(s: State, e: Event)
    requires Enabled(s, e)
  {
    match e
    case OnAppendRequest(m) => ForgetsVote(s.nodes[m.to], m.term)
    case OnSnapRequest(m, _) => ForgetsVote(s.nodes[m.to], m.term)
    case _ => false
  }

  /** What a node's step does to its vote. */
  ghost predicate VoteEvolves(n: Node, n': Node) {
    && Durable(n')
    && (n'.term == n.term ==>
          || (n'.votedFor == n.votedFor && n'.cast == n.cast)
          || (n.votedFor in {"", n'.votedFor} && n'.votedFor != "" && n'.cast == n.cast + {(n.term, n'.votedFor)}))
    && (n'.term > n.term ==>
          || (n'.votedFor == "" && n'.cast == n.cast)
          || (n'.votedFor != "" && n'.cast == n.cast + {(n'.term, n'.votedFor)}))
    && n'.term >= n.term
  }

  lemma MovesKeep(n: Node, n': Node)
    requires VoteKept(n) && VoteEvolves(n, n')
    ensures VoteKept(n')
  {
  }

  lemma TickVotes(n: Node, id: Id, voters: set<Id>)
    requires Durable(n) && id != ""
    ensures VoteEvolves(n, Election(n, id, voters))
  {
  }

  lemma VoterVotes(n: Node, m: Message, refuse: bool)
    requires Durable(n) && m.VoteRequest? && m.from != ""
    ensures VoteEvolves(n, HandleVoteRequest(n, m, refuse).0)
  {
    hide UpToDate;
  }

  lemma LeaderVotes(n: Node, members: set<Id>)
    ensures var n' := BecomeLeader(n, members);
            && n'.diskTerm == n.diskTerm && n'.term == n.term && n'.diskVote == n.diskVote && n'.votedFor == n.votedFor
            && n'.cast == n.cast
  {
  }

  lemma CandidateVotes(n: Node, members: set<Id>, voters: set<Id>, m: Message)
    requires Durable(n) && m.VoteResponse? && m.round < |n.rounds|
    ensures VoteEvolves(n, HandleVoteResponse(n, members, voters, m))
  {
    hide BecomeLeader, HasQuorum;
    LeaderVotes(CountVote(n, m), members);
    LeaderVotes(CountVote(n, m).(role := Candidate), members);
  }

  lemma ReplyVotes(n: Node, m: Message)
    requires Durable(n)
    ensures m.AppendResponse? ==> VoteEvolves(n, HandleAppendResponse(n, m))
    ensures m.SnapResponse? ==> VoteEvolves(n, HandleSnapResponse(n, m))
  {
  }

  lemma OwnVotes(n: Node, id: Id, voters: set<Id>, index: nat, data: seq<Byte>)
    requires Durable(n)
    ensures VoteEvolves(n, n) && VoteEvolves(n, Submit(n, data, index)) && VoteEvolves(n, CommitScan(n, id, voters))
    ensures VoteEvolves(n, Compact(n, index)) && VoteEvolves(n, Restart(n))
    ensures n.lastApplied < n.commitIndex <= |n.log| ==> VoteEvolves(n, ApplyNext(n))
  {
  }

  lemma FollowVotes(n: Node, term: nat)
    requires VoteKept(n) && term >= n.term
    ensures VoteKept(FollowLeader(n, term)) <==> !ForgetsVote(n, term)
  {
    assert n.votedFor != "" ==> (n.term, n.votedFor) in n.cast;
  }

  lemma SameVotes(n: Node, n': Node)
    requires n'.diskTerm == n.diskTerm && n'.term == n.term && n'.diskVote == n.diskVote && n'.votedFor == n.votedFor
    requires n'.cast == n.cast
    ensures VoteKept(n') == VoteKept(n)
  {
  }

  lemma FollowDurable(n: Node, term: nat)
    requires Durable(n) && term >= n.term
    ensures Durable(FollowLeader(n, term)) && FollowLeader(n, term).term == term
  {
  }

  /** A request from a leader leaves disk and memory in step, and no term decreases, whether or not a vote is
      forgotten. */
  lemma RequestDurable(n: Node, m: Message, complete: bool)
    requires Durable(n)
    ensures m.AppendRequest? && n.snapIndex <= |n.log| ==>
              Durable(HandleAppendRequest(n, m).0) && n.term <= HandleAppendRequest(n, m).0.term
    ensures m.SnapRequest? ==>
              Durable(HandleSnapRequest(n, m, complete).0) && n.term <= HandleSnapRequest(n, m, complete).0.term
  {
    hide Check, Merge, FollowLeader;
    if ((m.AppendRequest? && n.snapIndex <= |n.log|) || m.SnapRequest?) && m.term >= n.term {
      FollowDurable(n, m.term);
    }
  }

  /** A request from a leader leaves its receiver with the vote it cast exactly when the guard does not hold. */
  lemma RequestVotes(n: Node, m: Message, complete: bool)
    requires VoteKept(n)
    ensures m.AppendRequest? && n.snapIndex <= |n.log| ==>
              (VoteKept(HandleAppendRequest(n, m).0) <==> !ForgetsVote(n, m.term))
    ensures m.SnapRequest? ==> (VoteKept(HandleSnapRequest(n, m, complete).0) <==> !ForgetsVote(n, m.term))
  {
    hide VoteKept, FollowLeader, Check, Merge;
    if ((m.AppendRequest? && n.snapIndex <= |n.log|) || m.SnapRequest?) && m.term >= n.term {
      FollowVotes(n, m.term);
      SameVotes(FollowLeader(n, m.term),
        if m.SnapRequest? then HandleSnapRequest(n, m, complete).0 else HandleAppendRequest(n, m).0);
    }
  }

  /** The node whose lock-held section the event is. */
  function Actor(e: Event): Id {
    match e
    case Tick(id) => id
    case AskVote(id, _, _) => id
    case OnVoteRequest(m, _) => m.to
    case OnVoteResponse(m) => m.to
    case ClientSubmit(id, _) => id
    case SendAppend(id, _) => id
    case OnAppendRequest(m) => m.to
    case OnAppendResponse(m) => m.to
    case ScanCommits(id) => id
    case Apply(id) => id
    case TakeSnapshot(id, _) => id
    case SendSnapshot(id, _) => id
    case OnSnapRequest(m, _) => m.to
    case OnSnapResponse(m) => m.to
    case Crash(id) => id
  }

  lemma OnlyActorMoves(s: State, e: Event)
    requires Enabled(s, e)
    ensures var t := Next(s, e);
            Actor(e) in s.nodes && t.nodes == s.nodes[Actor(e) := t.nodes[Actor(e)]] && t.members == s.members
  {
    hide Election, HandleVoteRequest, HandleVoteResponse, Submit, HandleAppendResponse, HandleSnapResponse, CommitScan,
         ApplyNext, Compact, Restart, HandleAppendRequest, HandleSnapRequest, AnswersOf;
  }

  lemma OnlyActorAsks(s: State, e: Event)
    requires Enabled(s, e)
    ensures forall m :: m in Next(s, e).net - s.net && m.VoteRequest? ==> m.from == Actor(e)
  {
    hide Election, HandleVoteResponse, Submit, HandleAppendResponse, HandleSnapResponse, CommitScan, ApplyNext, Compact,
         Restart, AnswersOf, JoinElection, UpToDate, FollowLeader, Merge, Check, Acknowledge;
  }

  lemma OwnActorMoves(s: State, e: Event)
    requires AllDurable(s) && Enabled(s, e)
    requires e.AskVote? || e.ClientSubmit? || e.SendAppend? || e.ScanCommits? || e.Apply? || e.TakeSnapshot? ||
               e.SendSnapshot? || e.Crash?
    ensures Actor(e) in s.nodes && Actor(e) in Next(s, e).nodes
    ensures VoteEvolves(s.nodes[Actor(e)], Next(s, e).nodes[Actor(e)])
  {
    hide VoteEvolves, CommitScan, Submit, ApplyNext, Restart, Compact, Durable, AnswersOf, BuildVoteRequest,
         BuildAppendRequest, BuildSnapRequest;
    var n := s.nodes[Actor(e)];
    var index := if e.ClientSubmit? then |s.submitted| else if e.TakeSnapshot? then e.index else 0;
    OwnVotes(n, Actor(e), s.voters, index, if e.ClientSubmit? then e.data else []);
  }

  lemma ActorMoves(s: State, e: Event)
    requires AllDurable(s) && Enabled(s, e) && !e.OnAppendRequest? && !e.OnSnapRequest?
    ensures Actor(e) in s.nodes && Actor(e) in Next(s, e).nodes
    ensures VoteEvolves(s.nodes[Actor(e)], Next(s, e).nodes[Actor(e)])
  {
    hide Durable, VoteKept, VoteEvolves, Election, HandleVoteRequest, HandleVoteResponse, HandleAppendResponse,
         HandleSnapResponse;
    if e.Tick? {
      TickVotes(s.nodes[e.id], e.id, s.voters);
    } else if e.OnVoteRequest? {
      VoterVotes(s.nodes[e.m.to], e.m, e.refuse);
    } else if e.OnVoteResponse? {
      CandidateVotes(s.nodes[e.m.to], s.members, s.voters, e.m);
    } else if e.OnAppendResponse? || e.OnSnapResponse? {
      ReplyVotes(s.nodes[e.m.to], e.m);
    } else {
      OwnActorMoves(s, e);
    }
  }

  /** Whatever the event, every node keeps disk and memory in step and lowers no term. */
  lemma StepDurable(s: State, e: Event)
    requires AllDurable(s) && Enabled(s, e)
    ensures var t := Next(s, e);
            AllDurable(t) && t.nodes.Keys == s.nodes.Keys && forall id :: id in s.nodes ==>
              s.nodes[id].term <= t.nodes[id].term
  {
    hide Enabled, Next, Durable;
    OnlyActorMoves(s, e);
    OnlyActorAsks(s, e);
    ActorDurable(s, e);
  }

  lemma ActorDurable(s: State, e: Event)
    requires AllDurable(s) && Enabled(s, e)
    ensures Actor(e) in s.nodes && Actor(e) in Next(s, e).nodes
    ensures var n' := Next(s, e).nodes[Actor(e)]; Durable(n') && s.nodes[Actor(e)].term <= n'.term
  {
    hide Durable, HandleAppendRequest, HandleSnapRequest;
    if e.OnAppendRequest? {
      RequestDurable(s.nodes[e.m.to], e.m, true);
    } else if e.OnSnapRequest? {
      RequestDurable(s.nodes[e.m.to], e.m, e.complete);
    } else {
      ActorMoves(s, e);
    }
  }

  lemma ActorVotes(s: State, e: Event)
    requires VotesKept(s) && Enabled(s, e)
    ensures Actor(e) in s.nodes && Actor(e) in Next(s, e).nodes
    ensures VoteKept(Next(s, e).nodes[Actor(e)]) <==> !Forgetful(s, e)
  {
    hide VoteKept, AllDurable, VoteEvolves, ForgetsVote, HandleAppendRequest, HandleSnapRequest;
    if e.OnAppendRequest? {
      RequestVotes(s.nodes[e.m.to], e.m, true);
    } else if e.OnSnapRequest? {
      RequestVotes(s.nodes[e.m.to], e.m, e.complete);
    } else {
      ActorMoves(s, e);
      MovesKeep(s.nodes[Actor(e)], Next(s, e).nodes[Actor(e)]);
    }
  }

  /** One event, exactly: every node still votes for the candidate it voted for, and for nobody else, in its term, if
      and only if the event is not a same-term step-down of a node that has voted. */
  lemma KeptUnlessForgetful(s: State, e: Event)
    requires VotesKept(s) && Enabled(s, e)
    ensures VotesKept(Next(s, e)) <==> !Forgetful(s, e)
  {
    hide VoteKept, AllDurable, Forgetful, Next, Enabled;
    StepDurable(s, e);
    OnlyActorMoves(s, e);
    ActorVotes(s, e);
  }

  /** As long as no vote was forgotten, no second vote is cast: assumption A2 holds of the event. */
  lemma KeptVotesAreSingle(s: State, e: Event)
    requires VotesKept(s) && Enabled(s, e)
    ensures KeepsVote(s, e)
  {
    hide Next;
    if e.OnVoteRequest? && !e.m.prevote && HandleVoteRequest(s.nodes[e.m.to], e.m, e.refuse).1.granted {
      var n := s.nodes[e.m.to];
      assert VoteKept(n) && e.m.from != "";
      forall c | (e.m.term, c) in n.cast ensures c == e.m.from {
        assert e.m.term <= n.term;
      }
    }
  }

  ghost predicate Unforgetful(s: State, es: seq<Event>)
    decreases |es|
  {
    es != [] && Enabled(s, es[0]) ==> !Forgetful(s, es[0]) && Unforgetful(Next(s, es[0]), es[1..])
  }

  /** A run in which no node that has voted steps down within its term is a run of the safety theorems: it obeys A2. */
  lemma {:induction false} UnforgetfulRunsObeyA2(s: State, es: seq<Event>, t: State)
    requires VotesKept(s) && Reaches(s, es, t, Obeys(false, true, true)) && Unforgetful(s, es)
    ensures Reaches(s, es, t, Obeys(true, true, true))
    decreases |es|
  {
    hide VotesKept, KeepsVote, RepliesAreCurrent, AsksInTime, Forgetful, Next, Enabled;
    if es != [] {
      KeptUnlessForgetful(s, es[0]);
      KeptVotesAreSingle(s, es[0]);
      UnforgetfulRunsObeyA2(Next(s, es[0]), es[1..], t);
    }
  }

  lemma InitialVotes(s: State)
    requires Init(s)
    ensures VotesKept(s)
  {
  }
}
