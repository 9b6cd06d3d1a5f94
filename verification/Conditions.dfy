/** Exactly when one reply or one vote breaks what A3 and A4 protect, and what a crash inside a handler can do. */
module Conditions {
  import opened Entries
  import opened Protocol
  import opened Cluster
  import opened Invariant
  import opened QuietSteps
  import opened Votes

  // --- A3: replies of an older term ---

  /** A leader knows no more of a follower than the follower took over in the leader's term. */
  ghost predicate MatchesAcked(s: State, id: Id)
    requires id in s.nodes
  {
    var n := s.nodes[id];
    n.role.Leader? ==> forall f :: f in n.matched && f in s.nodes ==> n.matched[f] <= AckOf(s.nodes[f], n.term)
  }

  /** The guard of the branch that raises the match index, for a reply of another term than the leader's that claims
      more than the follower has taken over in the leader's term. */
  ghost predicate Overcounts(s: State, m: Message)
    requires Enabled(s, OnAppendResponse(m)) && m.from in s.nodes
  {
    var n := s.nodes[m.to];
    && n.role.Leader? && m.from in n.next && m.from in n.matched && m.term <= n.term && m.success
    && m.upTo > n.matched[m.from] && m.requestTerm != n.term && AckOf(s.nodes[m.from], n.term) < m.upTo
  }

  ghost predicate OvercountsSnapshot(s: State, m: Message)
    requires Enabled(s, OnSnapResponse(m)) && m.from in s.nodes
  {
    var n := s.nodes[m.to];
    && n.role.Leader? && m.from in n.next && m.from in n.matched && m.term <= n.term && m.covered
    && m.requestTerm != n.term && AckOf(s.nodes[m.from], n.term) < m.index
  }

  lemma ReplyOutcome(n: Node, m: Message, ack: map<Id, nat>)
    requires m.AppendResponse? && n.matched.Keys <= ack.Keys && m.from in ack
    requires n.role.Leader? ==> forall f :: f in n.matched ==> n.matched[f] <= ack[f]
    ensures var n' := HandleAppendResponse(n, m);
            (n'.role.Leader? ==> n'.term == n.term && n'.matched.Keys == n.matched.Keys)
    ensures var n' := HandleAppendResponse(n, m);
            (n'.role.Leader? ==> forall f :: f in n'.matched ==> n'.matched[f] <= ack[f]) <==>
            !(n.role.Leader? && m.from in n.next && m.from in n.matched && m.term <= n.term && m.success &&
              m.upTo > n.matched[m.from] && ack[m.from] < m.upTo)
  {
  }

  lemma SnapReplyOutcome(n: Node, m: Message, ack: map<Id, nat>)
    requires m.SnapResponse? && n.matched.Keys <= ack.Keys && m.from in ack
    requires n.role.Leader? ==> forall f :: f in n.matched ==> n.matched[f] <= ack[f]
    ensures var n' := HandleSnapResponse(n, m);
            (n'.role.Leader? ==> n'.term == n.term && n'.matched.Keys == n.matched.Keys)
    ensures var n' := HandleSnapResponse(n, m);
            (n'.role.Leader? ==> forall f :: f in n'.matched ==> n'.matched[f] <= ack[f]) <==>
            !(n.role.Leader? && m.from in n.next && m.from in n.matched && m.term <= n.term && m.covered &&
              ack[m.from] < m.index)
  {
  }

  /** What the followers took over in term `t`. */
  ghost function Acks(s: State, t: nat): map<Id, nat> {
    map f | f in s.nodes :: AckOf(s.nodes[f], t)
  }

  lemma ReplyChangesNoAcks(s: State, m: Message, t: nat)
    requires (m.AppendResponse? && Enabled(s, OnAppendResponse(m))) ||
               (m.SnapResponse? && Enabled(s, OnSnapResponse(m)))
    ensures var n' := if m.AppendResponse? then HandleAppendResponse(s.nodes[m.to], m)
                      else HandleSnapResponse(s.nodes[m.to], m);
            var s' := if m.AppendResponse? then Next(s, OnAppendResponse(m)) else Next(s, OnSnapResponse(m));
            s'.nodes == s.nodes[m.to := n'] && Acks(s', t) == Acks(s, t)
  {
    hide HandleAppendResponse, HandleSnapResponse;
    var n := s.nodes[m.to];
    var n' := if m.AppendResponse? then HandleAppendResponse(n, m) else HandleSnapResponse(n, m);
    assert n'.acks == n.acks by {
      ReplyKeepsAcks(n, m);
    }
  }

  lemma ReplyKeepsAcks(n: Node, m: Message)
    ensures m.AppendResponse? ==> HandleAppendResponse(n, m).acks == n.acks
    ensures m.SnapResponse? ==> HandleSnapResponse(n, m).acks == n.acks
  {
  }

  lemma LeaderMatchesAcked(s: State, id: Id)
    requires Inv(s) && id in s.nodes
    ensures MatchesAcked(s, id) && (s.nodes[id].role.Leader? ==> s.nodes[id].matched.Keys == s.nodes.Keys)
  {
    hide LocalOK, AcksOK, RoundsOK, HistoryOK, ElectedOK, Completeness, CommitsOK, VotesOK, NetOK;
    NodeAt(s, id);
  }

  lemma ReplyClaims(s: State, m: Message)
    requires Inv(s) && m in s.net
    ensures m.AppendResponse? ==>
              m.from in s.nodes && (m.success ==> m.upTo <= AckOf(s.nodes[m.from], m.requestTerm))
    ensures m.SnapResponse? ==>
              m.from in s.nodes && (m.covered ==> m.index <= AckOf(s.nodes[m.from], m.requestTerm))
  {
    hide Inv;
    MessageAt(s, m);
  }

  lemma AckedMeans(s: State, id: Id, ack: map<Id, nat>)
    requires id in s.nodes && ack == Acks(s, s.nodes[id].term)
    requires s.nodes[id].role.Leader? ==> s.nodes[id].matched.Keys <= s.nodes.Keys
    ensures var n := s.nodes[id];
            MatchesAcked(s, id) <==> (n.role.Leader? ==> forall f :: f in n.matched ==> n.matched[f] <= ack[f])
  {
  }

  /** One reply, exactly: in a state that satisfies the invariant, every match index of the leader stays at most what
      its follower took over in the leader's term, if and only if the reply is not one of another term that claims
      more. */
  lemma ReplyKeepsExactly(s: State, m: Message)
    requires Inv(s) && Enabled(s, OnAppendResponse(m))
    ensures m.from in s.nodes && m.to in Next(s, OnAppendResponse(m)).nodes
    ensures MatchesAcked(Next(s, OnAppendResponse(m)), m.to) <==> !Overcounts(s, m)
  {
    hide Inv, HandleAppendResponse, MatchesAcked, AckOf, Next;
    ReplyClaims(s, m);
    var n := s.nodes[m.to];
    var ack := Acks(s, n.term);
    ReplyChangesNoAcks(s, m, n.term);
    LeaderMatchesAcked(s, m.to);
    if n.role.Leader? {
      AckedMeans(s, m.to, ack);
      ReplyOutcome(n, m, ack);
      if HandleAppendResponse(n, m).role.Leader? {
        AckedMeans(Next(s, OnAppendResponse(m)), m.to, ack);
      } else {
        NotLeaderMatches(Next(s, OnAppendResponse(m)), m.to);
      }
    } else {
      FollowerIgnores(s, m);
    }
  }

  lemma NotLeaderMatches(s: State, id: Id)
    requires id in s.nodes && !s.nodes[id].role.Leader?
    ensures MatchesAcked(s, id)
  {
  }

  lemma FollowerIgnores(s: State, m: Message)
    requires (m.AppendResponse? && Enabled(s, OnAppendResponse(m))) ||
               (m.SnapResponse? && Enabled(s, OnSnapResponse(m)))
    requires !s.nodes[m.to].role.Leader?
    ensures m.AppendResponse? ==>
              m.to in Next(s, OnAppendResponse(m)).nodes && MatchesAcked(Next(s, OnAppendResponse(m)), m.to)
    ensures m.SnapResponse? ==>
              m.to in Next(s, OnSnapResponse(m)).nodes && MatchesAcked(Next(s, OnSnapResponse(m)), m.to)
  {
  }

  /** The same for the reply to a snapshot. */
  lemma SnapReplyKeepsExactly(s: State, m: Message)
    requires Inv(s) && Enabled(s, OnSnapResponse(m))
    ensures m.from in s.nodes && m.to in Next(s, OnSnapResponse(m)).nodes
    ensures MatchesAcked(Next(s, OnSnapResponse(m)), m.to) <==> !OvercountsSnapshot(s, m)
  {
    hide Inv, HandleSnapResponse, MatchesAcked, AckOf, Next;
    ReplyClaims(s, m);
    var n := s.nodes[m.to];
    var ack := Acks(s, n.term);
    ReplyChangesNoAcks(s, m, n.term);
    LeaderMatchesAcked(s, m.to);
    if n.role.Leader? {
      AckedMeans(s, m.to, ack);
      SnapReplyOutcome(n, m, ack);
      if HandleSnapResponse(n, m).role.Leader? {
        AckedMeans(Next(s, OnSnapResponse(m)), m.to, ack);
      } else {
        NotLeaderMatches(Next(s, OnSnapResponse(m)), m.to);
      }
    } else {
      FollowerIgnores(s, m);
    }
  }

  // --- A4: votes of another term ---

  /** Whoever is counted in the node's rounds of real votes has voted for `id` in the round's term. */
  ghost predicate AllVoted(n: Node, id: Id, voted: map<Id, set<(nat, Id)>>) {
    forall r, q :: 0 <= r < |n.rounds| && !n.rounds[r].prevote && q in n.rounds[r].granted ==>
      q in voted && (n.rounds[r].term, id) in voted[q]
  }

  ghost function Voted(s: State): map<Id, set<(nat, Id)>> {
    map q | q in s.nodes :: s.nodes[q].cast
  }

  /** Whoever is counted in a round of real votes has voted for this node in the round's term. */
  ghost predicate RoundsCounted(s: State, id: Id)
    requires id in s.nodes
  {
    AllVoted(s.nodes[id], id, Voted(s))
  }

  /** The guard of the branch that counts a vote, in a round of real votes. */
  ghost predicate Counts(s: State, m: Message)
    requires Enabled(s, OnVoteResponse(m))
  {
    s.nodes[m.to].term <= m.requestTerm && m.granted && !s.nodes[m.to].rounds[m.round].prevote
  }

  /** A message of a round says of what kind the round is, and a granted real vote was cast. */
  ghost predicate BallotOnItsWay(s: State, m: Message) {
    && (m.VoteRequest? ==>
          m.from in s.nodes && m.round < |s.nodes[m.from].rounds| &&
            s.nodes[m.from].rounds[m.round].prevote == m.prevote)
    && (m.VoteResponse? ==>
          && m.from in s.nodes
          && (m.to in s.nodes ==>
                m.round < |s.nodes[m.to].rounds| && s.nodes[m.to].rounds[m.round].prevote == m.prevote)
          && (m.granted && !m.prevote ==> (m.requestTerm, m.to) in s.nodes[m.from].cast))
  }

  ghost predicate BallotsOnTheirWay(s: State) {
    forall m :: m in s.net ==> BallotOnItsWay(s, m)
  }

  /** Votes and rounds are only added. */
  ghost predicate Adds(n: Node, n': Node) {
    && n.cast <= n'.cast && |n.rounds| <= |n'.rounds|
    && forall r :: 0 <= r < |n.rounds| ==>
         n'.rounds[r].prevote == n.rounds[r].prevote && n'.rounds[r].term == n.rounds[r].term
  }

  lemma OwnAdds(n: Node, id: Id, voters: set<Id>, index: nat, data: seq<Byte>)
    ensures Adds(n, n) && Adds(n, Election(n, id, voters)) && Adds(n, Submit(n, data, index))
    ensures Adds(n, CommitScan(n, id, voters)) && Adds(n, Compact(n, index)) && Adds(n, Restart(n))
    ensures n.lastApplied < n.commitIndex <= |n.log| ==> Adds(n, ApplyNext(n))
  {
    hide LargestCommitting;
  }

  lemma VoterAdds(n: Node, m: Message, refuse: bool)
    requires m.VoteRequest?
    ensures Adds(n, HandleVoteRequest(n, m, refuse).0)
  {
    hide UpToDate;
  }

  lemma AppendAdds(n: Node, m: Message)
    requires m.AppendRequest? && n.snapIndex <= |n.log|
    ensures Adds(n, HandleAppendRequest(n, m).0)
  {
    hide Check, Merge, FollowLeader;
    FollowAdds(n, m.term);
  }

  lemma FollowAdds(n: Node, term: nat)
    ensures FollowLeader(n, term).cast == n.cast && FollowLeader(n, term).rounds == n.rounds
  {
  }

  lemma SnapRequestAdds(n: Node, m: Message, flag: bool)
    ensures m.SnapRequest? ==> Adds(n, HandleSnapRequest(n, m, flag).0)
  {
    hide FollowLeader;
    if m.SnapRequest? {
      FollowAdds(n, m.term);
    }
  }

  lemma ReplyAdds(n: Node, m: Message)
    ensures m.AppendResponse? ==> Adds(n, HandleAppendResponse(n, m))
    ensures m.SnapResponse? ==> Adds(n, HandleSnapResponse(n, m))
  {
  }

  lemma CandidateAdds(n: Node, m: Message, members: set<Id>, voters: set<Id>)
    requires m.VoteResponse? && m.round < |n.rounds|
    ensures Adds(n, HandleVoteResponse(n, members, voters, m))
  {
    hide HandleVoteResponse;
    RoundsAfter(n, members, voters, m);
  }

  lemma ActorAdds(s: State, e: Event)
    requires Enabled(s, e)
    ensures Actor(e) in s.nodes && Actor(e) in Next(s, e).nodes && Adds(s.nodes[Actor(e)], Next(s, e).nodes[Actor(e)])
  {
    hide Adds, Election, HandleVoteRequest, HandleVoteResponse, Submit, HandleAppendRequest, HandleAppendResponse,
         HandleSnapRequest, HandleSnapResponse, CommitScan, ApplyNext, Compact, Restart, AnswersOf, BuildVoteRequest,
         BuildAppendRequest, BuildSnapRequest;
    var n := s.nodes[Actor(e)];
    if e.OnVoteResponse? {
      CandidateAdds(n, e.m, s.members, s.voters);
    } else if e.OnVoteRequest? {
      VoterAdds(n, e.m, e.refuse);
    } else if e.OnAppendRequest? {
      AppendAdds(n, e.m);
    } else if e.OnSnapRequest? {
      SnapRequestAdds(n, e.m, e.complete);
    } else if e.OnAppendResponse? || e.OnSnapResponse? {
      ReplyAdds(n, e.m);
    } else {
      var index := if e.ClientSubmit? then |s.submitted| else if e.TakeSnapshot? then e.index else 0;
      OwnAdds(n, Actor(e), s.voters, index, if e.ClientSubmit? then e.data else []);
    }
  }

  lemma BallotStaysOnItsWay(s: State, t: State, a: Id, m: Message)
    requires BallotOnItsWay(s, m) && a in s.nodes && a in t.nodes && t.nodes == s.nodes[a := t.nodes[a]]
    requires Adds(s.nodes[a], t.nodes[a])
    ensures BallotOnItsWay(t, m)
  {
  }

  /** What an event sends about ballots. */
  lemma NewBallot(s: State, e: Event, m: Message)
    requires BallotsOnTheirWay(s) && Enabled(s, e) && m in Next(s, e).net && m !in s.net
    requires Actor(e) in s.nodes && Next(s, e).nodes == s.nodes[Actor(e) := Next(s, e).nodes[Actor(e)]]
    requires Actor(e) in Next(s, e).nodes && Adds(s.nodes[Actor(e)], Next(s, e).nodes[Actor(e)])
    ensures BallotOnItsWay(Next(s, e), m)
  {
    hide Election, HandleVoteRequest, HandleVoteResponse, Submit, HandleAppendRequest, HandleAppendResponse,
         HandleSnapRequest, HandleSnapResponse, CommitScan, ApplyNext, Compact, Restart, AnswersOf;
    if e.OnVoteRequest? {
      GrantedIsCast(s, e.m, e.refuse);
    } else if e.OnAppendRequest? || e.OnSnapRequest? {
      NoBallotInReply(s.nodes[e.m.to], e.m, e.OnSnapRequest? && e.complete);
    }
  }

  lemma NoBallotInReply(n: Node, m: Message, complete: bool)
    ensures m.AppendRequest? && n.snapIndex <= |n.log| ==> HandleAppendRequest(n, m).1.AppendResponse?
    ensures m.SnapRequest? ==> HandleSnapRequest(n, m, complete).1.SnapResponse?
  {
    hide Check, Merge, FollowLeader, Acknowledge;
  }

  /** A vote that is granted is cast in the request's term. */
  lemma GrantedIsCast(s: State, m: Message, refuse: bool)
    requires m.VoteRequest? && m.to in s.nodes
    ensures var (n, y) := HandleVoteRequest(s.nodes[m.to], m, refuse);
            && y.VoteResponse? && y.from == m.to && y.to == m.from && y.round == m.round && y.prevote == m.prevote
            && y.requestTerm == m.term && (y.granted && !y.prevote ==> (m.term, m.from) in n.cast)
  {
    hide UpToDate;
  }

  lemma StepBallots(s: State, e: Event)
    requires BallotsOnTheirWay(s) && Enabled(s, e)
    ensures BallotsOnTheirWay(Next(s, e))
  {
    hide Next, Enabled, BallotOnItsWay, Adds;
    OnlyActorMoves(s, e);
    ActorAdds(s, e);
    forall m | m in Next(s, e).net ensures BallotOnItsWay(Next(s, e), m) {
      if m in s.net {
        BallotStaysOnItsWay(s, Next(s, e), Actor(e), m);
      } else {
        NewBallot(s, e, m);
      }
    }
  }

  lemma {:induction false} FreeRunBallots(states: seq<State>, events: seq<Event>, k: nat)
    requires FreeRun(states, events) && k < |states|
    ensures BallotsOnTheirWay(states[k])
    decreases k
  {
    hide BallotOnItsWay, Next, Enabled;
    if k > 0 {
      FreeRunBallots(states, events, k - 1);
      StepBallots(states[k - 1], events[k - 1]);
    }
  }

  lemma LeaderKeepsRounds(n: Node, members: set<Id>)
    ensures BecomeLeader(n, members).rounds == n.rounds && BecomeLeader(n, members).cast == n.cast
  {
  }

  lemma RoundsAfter(n: Node, members: set<Id>, voters: set<Id>, m: Message)
    requires m.VoteResponse? && m.round < |n.rounds|
    ensures var n' := HandleVoteResponse(n, members, voters, m);
            && n'.cast == n.cast
            && n'.rounds == if n.term <= m.requestTerm then CountVote(n, m).rounds else n.rounds
  {
    hide HasQuorum, BecomeLeader;
    LeaderKeepsRounds(CountVote(n, m), members);
    LeaderKeepsRounds(CountVote(n, m).(role := Candidate), members);
    assert CountVote(n, m).cast == n.cast;
  }

  /** One vote, exactly: in every run of the protocol, whether or not it obeys the assumptions, the voters counted in
      the rounds of real votes stay voters for this node in the round's term, if and only if the vote, when it is
      counted, is for the round's term or its voter also voted for this node in that term. */
  lemma VoteKeepsExactly(states: seq<State>, events: seq<Event>, k: nat, m: Message)
    requires FreeRun(states, events) && k < |events| && events[k] == OnVoteResponse(m)
    requires m.to in states[k].nodes && RoundsCounted(states[k], m.to)
    ensures m.VoteResponse? && m.from in states[k].nodes && m.to in states[k + 1].nodes
    ensures RoundsCounted(states[k + 1], m.to) <==>
            (Counts(states[k], m) ==>
               var term := states[k].nodes[m.to].rounds[m.round].term;
               m.requestTerm == term || (term, m.to) in states[k].nodes[m.from].cast)
  {
    var s := states[k];
    FreeRunBallots(states, events, k);
    CountsExactly(s, m);
  }

  /** The same for the node before and after, and the votes cast. */
  lemma CountedExactly(n: Node, n': Node, m: Message, voted: map<Id, set<(nat, Id)>>)
    requires m.VoteResponse? && m.round < |n.rounds| && m.from in voted
    requires n'.rounds == if n.term <= m.requestTerm then CountVote(n, m).rounds else n.rounds
    requires m.granted && !n.rounds[m.round].prevote ==> (m.requestTerm, m.to) in voted[m.from]
    requires AllVoted(n, m.to, voted)
    ensures AllVoted(n', m.to, voted) <==>
            (n.term <= m.requestTerm && m.granted && !n.rounds[m.round].prevote ==>
               m.requestTerm == n.rounds[m.round].term || (n.rounds[m.round].term, m.to) in voted[m.from])
  {
    if n.term <= m.requestTerm && m.granted && !n.rounds[m.round].prevote {
      assert m.from in n'.rounds[m.round].granted && n'.rounds[m.round].term == n.rounds[m.round].term;
    }
  }

  lemma BallotCast(s: State, m: Message)
    requires BallotsOnTheirWay(s) && Enabled(s, OnVoteResponse(m))
    ensures m.from in s.nodes && m.to in s.nodes
    ensures m.granted && !s.nodes[m.to].rounds[m.round].prevote ==> (m.requestTerm, m.to) in s.nodes[m.from].cast
  {
    assert BallotOnItsWay(s, m);
  }

  lemma CountsExactly(s: State, m: Message)
    requires BallotsOnTheirWay(s) && Enabled(s, OnVoteResponse(m)) && RoundsCounted(s, m.to)
    ensures m.from in s.nodes && m.to in Next(s, OnVoteResponse(m)).nodes
    ensures RoundsCounted(Next(s, OnVoteResponse(m)), m.to) <==>
            (Counts(s, m) ==>
               var term := s.nodes[m.to].rounds[m.round].term;
               m.requestTerm == term || (term, m.to) in s.nodes[m.from].cast)
  {
    hide BallotsOnTheirWay, AllVoted, CountVote, HandleVoteResponse;
    BallotCast(s, m);
    CountedAfter(s, m);
    var t := Next(s, OnVoteResponse(m));
    hide Next, Enabled;
    assert Voted(t) == Voted(s);
    CountedExactly(s.nodes[m.to], t.nodes[m.to], m, Voted(s));
  }

  /** What handling a vote leaves of the rounds and the cast votes. */
  lemma CountedAfter(s: State, m: Message)
    requires Enabled(s, OnVoteResponse(m))
    ensures var t := Next(s, OnVoteResponse(m));
            && t.nodes.Keys == s.nodes.Keys && (forall q :: q in s.nodes && q != m.to ==> t.nodes[q] == s.nodes[q])
            && t.nodes[m.to].cast == s.nodes[m.to].cast
            && t.nodes[m.to].rounds == if s.nodes[m.to].term <= m.requestTerm then CountVote(s.nodes[m.to], m).rounds
                                       else s.nodes[m.to].rounds
  {
    hide HandleVoteResponse;
    RoundsAfter(s.nodes[m.to], s.members, s.voters, m);
  }

  // --- A5: a crash inside the installation of a snapshot ---

  /** A node that goes down after its snapshot `whole` is installed and before its log `short` is replaced compares
      votes with the short log when it is up again. There is a candidate that it then grants its vote and would have
      refused, exactly when the short log is behind the snapshot by last term, or by length at the same last term. */
  lemma TornInstallGrantsMore(short: Log, whole: Log)
    ensures (exists index: nat, term: nat :: UpToDate(index, term, short) && !UpToDate(index, term, whole)) <==>
            LastTerm(short) < LastTerm(whole) || (LastTerm(short) == LastTerm(whole) && |short| < |whole|)
  {
    if LastTerm(short) < LastTerm(whole) || (LastTerm(short) == LastTerm(whole) && |short| < |whole|) {
      assert UpToDate(|short|, LastTerm(short), short) && !UpToDate(|short|, LastTerm(short), whole);
    }
  }
}
