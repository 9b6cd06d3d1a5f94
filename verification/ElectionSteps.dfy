/** Ticks, vote requests and vote replies that do not win an election. */
module ElectionSteps {
  import opened Entries
  import opened Protocol
  import opened Cluster
  import opened Quorums
  import opened Invariant
  import opened Stability
  import opened QuietSteps

  lemma SameRetains(s: State, n: Node, n': Node)
    requires n'.log == n.log && n'.acks == n.acks
    ensures Retains(s, n) == Retains(s, n')
  {
  }

  lemma CandidateRounds(s: State, id: Id, n: Node)
    requires ElectedOK(s) && id in s.nodes && id in s.voters && n.term == s.nodes[id].term && RoundsOK(s, id, n)
    requires !n.role.Leader?
    ensures RoundsOK(s, id, StartRound(BecomeCandidate(n, id)))
  {
    var n' := StartRound(BecomeCandidate(n, id));
    forall r | 0 <= r < |n'.rounds| ensures RoundOK(s, id, n', n'.rounds[r]) {
      if r < |n.rounds| {
        assert RoundOK(s, id, n, n.rounds[r]);
      }
    }
    assert (n'.term, id) !in s.elected by {
      assert forall p :: p in s.elected ==> p.0 <= s.nodes[p.1].term;
    }
  }

  lemma CandidateOK(s: State, id: Id, n: Node)
    requires ElectedOK(s) && id in s.nodes && id in s.voters && n.term == s.nodes[id].term && NodeOK(s, id, n)
    requires !n.role.Leader?
    ensures var n' := StartRound(BecomeCandidate(n, id));
            && NodeOK(s, id, n') && Evolves(n, n')
            && n'.cast == n.cast + {(n'.term, id)} && n'.term > n.term && n'.log == n.log && n'.acks == n.acks
  {
    hide LogOK, CommitOK, Retains, Agree, RoundsOK, ElectedOK;
    var n' := StartRound(BecomeCandidate(n, id));
    SameRetains(s, n, n');
    GrowsReflexive(s);
    CommitOKStays(s, s, n.log, n.commitIndex, n.term, n'.term);
    CandidateRounds(s, id, n);
  }

  lemma PreCandidateOK(s: State, id: Id, n: Node)
    requires NodeOK(s, id, n) && !n.role.Leader?
    ensures var n' := StartRound(n.(role := PreCandidate)); NodeOK(s, id, n') && Evolves(n, n')
  {
    var n' := StartRound(n.(role := PreCandidate));
    forall r | 0 <= r < |n'.rounds| ensures RoundOK(s, id, n', n'.rounds[r]) {
      if r < |n.rounds| {
        assert RoundOK(s, id, n, n.rounds[r]);
      }
    }
  }

  /** A candidate's own vote: its log holds what it acknowledged itself. */
  lemma OwnBallotOK(s: State, s': State, id: Id, t: nat)
    requires Grows(s, s') && s'.leaderLogs == s.leaderLogs && id in s.nodes && NodeOK(s, id, s.nodes[id])
    requires id in s'.nodes && s'.nodes[id].term == t && s'.nodes[id].log == s.nodes[id].log
    requires s'.nodes[id].acks == s.nodes[id].acks
    ensures BallotOK(s', s'.nodes[id], t, id)
  {
    var n := s.nodes[id];
    forall u: nat, i: nat | MayCommit(s', u, i) && u < t && AckOf(n, u) >= i ensures Agree(n.log, s'.leaderLogs[u], i) {
      assert u in n.acks;
      MayCommitBack(s, s', u, i);
    }
  }

  lemma Candidacy(s: State, s': State, id: Id)
    requires Inv(s) && id in s.nodes && id in s.voters && s.nodes[id].role.Candidate?
    requires Becomes(s, s', id, StartRound(BecomeCandidate(s.nodes[id], id)), {})
    ensures Inv(s') && Grows(s, s')
  {
    hide *;
    var n := s.nodes[id];
    var n' := StartRound(BecomeCandidate(n, id));
    NodeAt(s, id);
    PartsOf(s);
    CandidateOK(s, id, n);
    QuietHistory(s, s', id, n', {});
    QuietFrame(s, s', id, n');
    OwnBallotOK(s, s', id, n'.term);
    VotingStep(s, s', id, n', {}, {(n'.term, id)});
  }

  lemma PreCandidacy(s: State, s': State, id: Id)
    requires Inv(s) && id in s.nodes && !s.nodes[id].role.Leader?
    requires Becomes(s, s', id, StartRound(s.nodes[id].(role := PreCandidate)), {})
    ensures Inv(s') && Grows(s, s')
  {
    var n := s.nodes[id];
    assert NodeOK(s, id, n);
    PreCandidateOK(s, id, n);
    QuietStep(s, s', id, StartRound(n.(role := PreCandidate)), {});
  }

  lemma PreserveTick(s: State, id: Id)
    requires Inv(s) && Enabled(s, Tick(id))
    ensures Inv(Next(s, Tick(id))) && Grows(s, Next(s, Tick(id)))
  {
    var n := s.nodes[id];
    var s' := Next(s, Tick(id));
    if n.role.Leader? || id !in s.voters {
      SendingStep(s, s', id, {});
    } else if n.role.Candidate? {
      Candidacy(s, s', id);
    } else {
      PreCandidacy(s, s', id);
    }
  }

  /** A request for a vote as it is built. */
  lemma AskedOK(s: State, id: Id, round: nat, to: Id)
    requires Enabled(s, AskVote(id, round, to)) && AsksInTime(s, AskVote(id, round, to)) && NodeOK(s, id, s.nodes[id])
    ensures MessageOK(s, BuildVoteRequest(s.nodes[id], id, to, round))
  {
    hide LocalOK, AcksOK, LeaderOK;
    assert RoundOK(s, id, s.nodes[id], s.nodes[id].rounds[round]);
  }

  lemma PreserveAskVote(s: State, id: Id, round: nat, to: Id)
    requires Inv(s) && Enabled(s, AskVote(id, round, to)) && AsksInTime(s, AskVote(id, round, to))
    ensures var s' := Next(s, AskVote(id, round, to)); Inv(s') && Grows(s, s')
  {
    hide Inv, NodeOK, MessageOK, Grows, BuildVoteRequest;
    NodeAt(s, id);
    AskedOK(s, id, round, to);
    SendingStep(s, Next(s, AskVote(id, round, to)), id, {BuildVoteRequest(s.nodes[id], id, to, round)});
  }

  /** The election restriction: a log that is at least as up-to-date as one that holds an entry that may still be
      committed holds that entry too. */
  lemma UpToDateCarries(s: State, v: Log, c: Log, u: nat, i: nat)
    requires Shape(s) && HistoryOK(s) && Completeness(s) && MayCommit(s, u, i)
    requires LogOK(s.base, s.leaderLogs, v) && LogOK(s.base, s.leaderLogs, c)
    requires Agree(v, s.leaderLogs[u], i) && UpToDate(|c|, LastTerm(c), v)
    ensures Agree(c, s.leaderLogs[u], i)
  {
    var k := |c| - 1;
    var t := c[k].term;
    assert LeaderLogOK(s, u);
    assert v[i - 1].term == u && v[i - 1].term <= v[|v| - 1].term;
    if k == 0 {
      assert i == 1;
    } else if t > u {
      assert LeaderLogOK(s, t);
      assert Agree(s.leaderLogs[t], s.leaderLogs[u], i);
      assert Agree(c, s.leaderLogs[t], k + 1);
      assert s.leaderLogs[t][k].term == t && s.leaderLogs[t][i - 1].term == u;
      assert k >= i - 1;
    }
  }

  lemma GrantOK(s: State, id: Id, n: Node, c: Id)
    requires NodeOK(s, id, n) && forall d :: (n.term, d) in n.cast ==> d == c
    ensures var n' := GrantVote(n, c);
            && NodeOK(s, id, n') && Evolves(n, n')
            && n'.cast == n.cast + {(n.term, c)} && n'.term == n.term && n'.log == n.log && n'.acks == n.acks
  {
    var n' := GrantVote(n, c);
    forall r | 0 <= r < |n'.rounds| ensures RoundOK(s, id, n', n'.rounds[r]) {
      assert RoundOK(s, id, n, n.rounds[r]);
    }
  }

  lemma JoinElectionOK(s: State, m: Message, n: Node)
    requires ElectedOK(s) && m.VoteRequest? && m.to in s.nodes && n == s.nodes[m.to] && NodeOK(s, m.to, n)
    ensures var n1 := JoinElection(n, m);
            && NodeOK(s, m.to, n1) && Evolves(n, n1) && n1.log == n.log && n1.acks == n.acks && n1.cast == n.cast
            && (!m.prevote && m.term >= n.term ==> n1.term == m.term)
  {
    if !m.prevote && m.term > n.term {
      BecomeFollowerOK(s, m.to, n, m.term);
    }
  }

  lemma NewBallotAgrees(s: State, s': State, v: Node, c: Log, u: nat, i: nat, lastIndex: nat, lastTerm: nat)
    requires Shape(s) && HistoryOK(s) && Completeness(s) && Grows(s, s') && s'.leaderLogs == s.leaderLogs
    requires LogOK(s.base, s.leaderLogs, c) && LogOK(s.base, s.leaderLogs, v.log) && AcksOK(s, v)
    requires UpToDate(lastIndex, lastTerm, v.log) && lastIndex == |c| && lastTerm == LastTerm(c)
    requires MayCommit(s', u, i) && AckOf(v, u) >= i
    ensures u in s'.leaderLogs && Agree(c, s'.leaderLogs[u], i)
  {
    hide HistoryOK, Completeness, LogOK, Shape, UpToDate;
    assert u in v.acks;
    MayCommitBack(s, s', u, i);
    assert Agree(v.log, s.leaderLogs[u], i);
    UpToDateCarries(s, v.log, c, u, i);
  }

  lemma NewBallotOK(s: State, s': State, m: Message, v: Node)
    requires HistoryOK(s) && Completeness(s) && Shape(s)
    requires Grows(s, s') && s'.leaderLogs == s.leaderLogs
    requires m.VoteRequest? && MessageOK(s, m) && !m.prevote && m.to in s.nodes && NodeOK(s, m.to, v)
    requires NodeOK(s, m.from, s.nodes[m.from])
    requires s'.nodes == s.nodes[m.to := v]
    requires UpToDate(m.lastIndex, m.lastTerm, v.log)
    ensures BallotOK(s', v, m.term, m.from)
  {
    var c := s.nodes[m.from];
    if m.term !in s.leaderLogs && c.term == m.term {
      hide HistoryOK, Completeness, LogOK, AcksOK, RoundsOK, LeaderOK, Majority, UpToDate;
      forall u: nat, i: nat | MayCommit(s', u, i) && u < m.term && AckOf(v, u) >= i
        ensures Agree(c.log, s'.leaderLogs[u], i)
      {
        NewBallotAgrees(s, s', v, c.log, u, i, m.lastIndex, m.lastTerm);
      }
    }
  }

  lemma RequestSender(s: State, m: Message)
    requires m.VoteRequest? && MessageOK(s, m)
    ensures m.from in s.nodes && m.from != m.to
  {
  }

  lemma VoteResponseSent(s: State, s': State, m: Message, r: Message)
    requires m.VoteRequest? && MessageOK(s, m) && Grows(s, s') && m.to in s'.nodes
    requires r.VoteResponse? && r.from == m.to && r.to == m.from && r.round == m.round
    requires r.requestTerm == m.term && r.prevote == m.prevote
    requires r.granted && !m.prevote ==> (m.term, m.from) in s'.nodes[m.to].cast
    ensures MessageOK(s', r)
  {
    assert Evolves(s.nodes[m.from], s'.nodes[m.from]);
  }

  /** The vote is refused, or only a pre-vote is granted. */
  lemma RefusalOK(s: State, s': State, m: Message, n': Node, response: Message)
    requires m.VoteRequest? && m.to in s.nodes && MessageOK(s, m) && s'.nodes == s.nodes[m.to := n']
    requires s'.voters == s.voters
    requires m.from != m.to
    requires response.VoteResponse? && response.from == m.to && response.to == m.from && response.round == m.round
    requires response.requestTerm == m.term && response.prevote == m.prevote && (response.granted ==> m.prevote)
    ensures MessageOK(s', response)
  {
    assert VoteRequestOK(s, m);
    assert VoteResponseOK(s', response);
  }

  lemma NoVote(s: State, s': State, m: Message, response: Message)
    requires Inv(s) && m.VoteRequest? && m in s.net && m.to in s.nodes
    requires Becomes(s, s', m.to, JoinElection(s.nodes[m.to], m), {response})
    requires response.VoteResponse? && response.from == m.to && response.to == m.from && response.round == m.round
    requires response.requestTerm == m.term && response.prevote == m.prevote && (response.granted ==> m.prevote)
    ensures Inv(s') && Grows(s, s')
  {
    hide Inv, NodeOK, Grows, Evolves, Becomes;
    var n := s.nodes[m.to];
    var n' := JoinElection(n, m);
    PartsOf(s);
    NodeAt(s, m.to);
    MessageAt(s, m);
    JoinElectionOK(s, m, n);
    QuietHistory(s, s', m.to, n', {response});
    RefusalOK(s, s', m, n', response);
    QuietStep(s, s', m.to, n', {response});
  }

  lemma GrantedVote(s: State, s': State, m: Message, response: Message)
    requires Inv(s) && m.VoteRequest? && m in s.net && m.to in s.nodes && !m.prevote && m.term >= s.nodes[m.to].term
    requires forall c :: (m.term, c) in s.nodes[m.to].cast ==> c == m.from
    requires UpToDate(m.lastIndex, m.lastTerm, s.nodes[m.to].log)
    requires Becomes(s, s', m.to, GrantVote(JoinElection(s.nodes[m.to], m), m.from), {response})
    requires response == VoteResponse(m.to, m.from, m.round, m.term, m.prevote, m.term, true)
    ensures Inv(s') && Grows(s, s')
  {
    hide *;
    var n := s.nodes[m.to];
    var n1 := JoinElection(n, m);
    var n' := GrantVote(n1, m.from);
    PartsOf(s);
    NodeAt(s, m.to);
    MessageAt(s, m);
    RequestSender(s, m);
    NodeAt(s, m.from);
    JoinElectionOK(s, m, n);
    GrantOK(s, m.to, n1, m.from);
    EvolvesTransitive(n, n1, n');
    QuietHistory(s, s', m.to, n', {response});
    QuietFrame(s, s', m.to, n');
    NewBallotOK(s, s', m, n');
    VoteResponseSent(s, s', m, response);
    VotingStep(s, s', m.to, n', {response}, {(m.term, m.from)});
  }

  lemma VoteRequestOutcome(s: State, m: Message, refuse: bool)
    requires Enabled(s, OnVoteRequest(m, refuse)) && KeepsVote(s, OnVoteRequest(m, refuse))
    ensures var s' := Next(s, OnVoteRequest(m, refuse));
            var n := s.nodes[m.to];
            var r := HandleVoteRequest(n, m, refuse).1;
            && r.VoteResponse? && r.from == m.to && r.to == m.from && r.round == m.round
            && r.requestTerm == m.term && r.prevote == m.prevote
            && ((!(r.granted && !m.prevote) && Becomes(s, s', m.to, n, {r}))
                || (!(r.granted && !m.prevote) && Becomes(s, s', m.to, JoinElection(n, m), {r}))
                || (r == VoteResponse(m.to, m.from, m.round, m.term, m.prevote, m.term, true) && !m.prevote &&
                     m.term >= n.term
                    && UpToDate(m.lastIndex, m.lastTerm, n.log)
                    && (forall c :: (m.term, c) in n.cast ==> c == m.from)
                    && Becomes(s, s', m.to, GrantVote(JoinElection(n, m), m.from), {r})))
  {
  }

  lemma PreserveVoteRequest(s: State, m: Message, refuse: bool)
    requires Inv(s) && m.VoteRequest? && m.to in s.nodes && m in s.net
    requires Enabled(s, OnVoteRequest(m, refuse)) && KeepsVote(s, OnVoteRequest(m, refuse))
    ensures var s' := Next(s, OnVoteRequest(m, refuse)); Inv(s') && Grows(s, s')
  {
    hide *;
    var s' := Next(s, OnVoteRequest(m, refuse));
    var n := s.nodes[m.to];
    VoteRequestOutcome(s, m, refuse);
    var r := HandleVoteRequest(n, m, refuse).1;
    if r.granted && !m.prevote {
      GrantedVote(s, s', m, r);
    } else if Becomes(s, s', m.to, n, {r}) {
      MessageAt(s, m);
      GrowsReflexive(s);
      VoteResponseSent(s, s, m, r);
      SendingStep(s, s', m.to, {r});
    } else {
      NoVote(s, s', m, r);
    }
  }

  lemma CountVoteRounds(s: State, m: Message, n: Node)
    requires m.VoteResponse? && MessageOK(s, m) && m.to in s.nodes && m.round < |n.rounds| && n == s.nodes[m.to]
    requires RoundsOK(s, m.to, n)
    ensures RoundsOK(s, m.to, CountVote(n, m))
  {
    var n' := CountVote(n, m);
    forall k | 0 <= k < |n'.rounds| ensures RoundOK(s, m.to, n', n'.rounds[k]) {
      assert RoundOK(s, m.to, n, n.rounds[k]);
    }
  }

  lemma CountVoteOK(s: State, m: Message, n: Node)
    requires m.VoteResponse? && MessageOK(s, m) && m.to in s.nodes && m.round < |n.rounds| && n == s.nodes[m.to]
    requires NodeOK(s, m.to, n)
    ensures NodeOK(s, m.to, CountVote(n, m)) && Evolves(n, CountVote(n, m))
  {
    hide LogOK, CommitOK, Retains, Agree, RoundsOK, MessageOK;
    CountVoteRounds(s, m, n);
    SameRetains(s, n, CountVote(n, m));
  }

  /** A node that is not leader may change between follower, pre-candidate and candidate. */
  lemma RoleChangeOK(s: State, id: Id, n: Node, role: Role)
    requires NodeOK(s, id, n) && !n.role.Leader? && !role.Leader?
    ensures NodeOK(s, id, n.(role := role)) && Evolves(n, n.(role := role))
  {
    var n' := n.(role := role);
    forall r | 0 <= r < |n'.rounds| ensures RoundOK(s, id, n', n'.rounds[r]) {
      assert RoundOK(s, id, n, n.rounds[r]);
    }
  }

  /** The reply wins the election. */
  ghost predicate Wins(s: State, m: Message)
    requires Enabled(s, OnVoteResponse(m))
  {
    var n := s.nodes[m.to];
    && n.term <= m.requestTerm && m.term <= m.requestTerm && !m.prevote
    && HasQuorum(s.voters, 1 + |CountVote(n, m).rounds[m.round].granted|)
    && (n.role.Candidate? || n.role.PreCandidate?)
  }

  lemma VoteResponseOutcome(s: State, m: Message)
    requires Enabled(s, OnVoteResponse(m)) && !Wins(s, m) && s.nodes[m.to].term <= m.requestTerm
    ensures var n1 := CountVote(s.nodes[m.to], m);
            var n' := HandleVoteResponse(s.nodes[m.to], s.members, s.voters, m);
            n' == n1 || (n1.role.PreCandidate? && n' == n1.(role := Candidate)) ||
              (m.term > m.requestTerm && n' == BecomeFollower(n1, m.term))
  {
  }

  lemma PreserveVoteResponse(s: State, m: Message)
    requires Inv(s) && Enabled(s, OnVoteResponse(m)) && !Wins(s, m)
    ensures var s' := Next(s, OnVoteResponse(m)); Inv(s') && Grows(s, s')
  {
    hide Inv, NodeOK, MessageOK, Grows, Evolves;
    var s' := Next(s, OnVoteResponse(m));
    PartsOf(s);
    var n := s.nodes[m.to];
    var n1 := CountVote(n, m);
    var n' := HandleVoteResponse(n, s.members, s.voters, m);
    if n.term > m.requestTerm {
      SendingStep(s, s', m.to, {});
    } else {
      NodeAt(s, m.to);
      MessageAt(s, m);
      CountVoteOK(s, m, n);
      VoteResponseOutcome(s, m);
      if n' == n1 {
      } else if n1.role.PreCandidate? && n' == n1.(role := Candidate) {
        RoleChangeOK(s, m.to, n1, Candidate);
      } else {
        BecomeFollowerOK(s, m.to, n1, m.term);
      }
      EvolvesTransitive(n, n1, n');
      QuietStep(s, s', m.to, n', {});
    }
  }
}
