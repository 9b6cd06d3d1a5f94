/** What a follower does with a leader's requests, and the steps a node takes on its own. */
module FollowerSteps {
  import opened Entries
  import opened Protocol
  import opened Cluster
  import opened Quorums
  import opened Invariant
  import opened Stability
  import opened QuietSteps
  import opened ReplicationSteps

  // --- joining the leader's term ---

  /** The leader of a term is not the receiver of its own requests. */
  lemma ReceiverIsNotLeader(s: State, id: Id, from: Id, t: nat)
    requires Inv(s) && id in s.nodes && (t, from) in s.elected && from != id && t == s.nodes[id].term
    ensures !s.nodes[id].role.Leader?
  {
    hide *;
    NodeAt(s, id);
    if s.nodes[id].role.Leader? {
      LeaderFacts(s, id, s.nodes[id]);
      OneLeaderPerTerm(s, t, from, id);
    }
  }

  lemma FollowLeaderShape(n: Node, t: nat)
    requires t >= n.term
    ensures var n1 := FollowLeader(n, t);
            && n1.term == t && n1.cast == n.cast && n1.log == n.log && n1.acks == n.acks && n1.snapIndex == n.snapIndex
            && n1.commitIndex == n.commitIndex && n1.lastApplied == n.lastApplied
            && (n1 == n || n1 == BecomeFollower(n, t))
  {
  }

  lemma FollowLeaderOK(s: State, id: Id, from: Id, t: nat)
    requires Inv(s) && id in s.nodes && (t, from) in s.elected && from != id && t >= s.nodes[id].term
    ensures var n1 := FollowLeader(s.nodes[id], t); NodeOK(s, id, n1) && Evolves(s.nodes[id], n1) && !n1.role.Leader?
  {
    hide *;
    var n := s.nodes[id];
    NodeAt(s, id);
    PartsOf(s);
    FollowLeaderShape(n, t);
    if t == n.term {
      ReceiverIsNotLeader(s, id, from, t);
    }
    var n1 := FollowLeader(n, t);
    if n1 == BecomeFollower(n, t) {
      BecomeFollowerOK(s, id, n, t);
      FollowerIsNotLeader(n, t);
    } else {
      EvolvesReflexive(n);
    }
    assert t == n.term || n1 == BecomeFollower(n, t) by {
      FollowLeaderShape(n, t);
    }
  }

  lemma FollowerIsNotLeader(n: Node, t: nat)
    ensures !BecomeFollower(n, t).role.Leader?
  {
  }

  // --- taking over a prefix of the leader's log ---

  /** `l'` is what `l` becomes when the first `e` entries of the leader's log are taken over. */
  ghost predicate Adopts(l: Log, leader: Log, e: nat, l': Log) {
    && e <= |leader|
    && (Agree(l, leader, e) ==> l' == l)
    && (!Agree(l, leader, e) ==> l' == leader[..e])
  }

  /** Whatever the old log and the leader's log share with a third log, the new log shares with it too. */
  lemma AdoptKeeps(l: Log, leader: Log, e: nat, l': Log, other: Log, i: nat)
    requires Adopts(l, leader, e, l') && Agree(l, other, i) && Agree(leader, other, i)
    ensures Agree(l', other, i)
  {
    if !Agree(l, leader, e) {
      assert i < e by {
        if e <= i {
          assert Agree(l, leader, e);
        }
      }
      assert forall k :: 0 <= k < i ==> leader[..e][k] == leader[k];
    }
  }

  lemma AdoptTakes(l: Log, leader: Log, e: nat, l': Log)
    requires Adopts(l, leader, e, l')
    ensures Agree(l', leader, e)
  {
  }

  lemma AdoptedLogOK(s: State, l: Log, t: nat, e: nat, l': Log)
    requires LogOK(s.base, s.leaderLogs, l) && t in s.leaderLogs && LeaderLogOK(s, t)
    requires Adopts(l, s.leaderLogs[t], e, l')
    requires forall k :: 1 <= k < |l| ==> l[k].term <= t
    ensures LogOK(s.base, s.leaderLogs, l') && forall k :: 1 <= k < |l'| ==> l'[k].term <= t
  {
    var leader := s.leaderLogs[t];
    if !Agree(l, leader, e) {
      assert forall k :: 0 <= k < e ==> leader[..e][k] == leader[k];
      forall k | 1 <= k < |l'| ensures l'[k].term in s.leaderLogs && Agree(l', s.leaderLogs[l'[k].term], k + 1) {
        assert Agree(leader, s.leaderLogs[leader[k].term], k + 1);
      }
    }
  }

  lemma AdoptedAcksOK(s: State, n: Node, t: nat, e: nat, n': Node)
    requires AcksOK(s, n) && Completeness(s) && n.term == t && t in s.leaderLogs
    requires Adopts(n.log, s.leaderLogs[t], e, n'.log)
    requires n'.term == t && n'.acks == n.acks[t := Max(AckOf(n, t), e)]
    ensures AcksOK(s, n')
  {
    var leader := s.leaderLogs[t];
    AdoptTakes(n.log, leader, e, n'.log);
    if t in n.acks {
      AdoptKeeps(n.log, leader, e, n'.log, leader, n.acks[t]);
    }
    forall u: nat, i: nat | MayCommit(s, u, i) && AckOf(n', u) >= i ensures Agree(n'.log, s.leaderLogs[u], i) {
      if u != t {
        assert u in n.acks && u < t;
        AdoptKeeps(n.log, leader, e, n'.log, s.leaderLogs[u], i);
      }
    }
  }

  lemma AdoptedCommitOK(s: State, l: Log, t: nat, e: nat, l': Log, c: nat)
    requires Completeness(s) && CommitsOK(s) && CommitOK(s, l, c, t) && t in s.leaderLogs
    requires Adopts(l, s.leaderLogs[t], e, l')
    ensures CommitOK(s, l', c, t) && Agree(l', l, c)
  {
    CommittedInLeader(s, l, c, t, t);
    AdoptKeeps(l, s.leaderLogs[t], e, l', l, c);
    if c > 0 {
      var w :| w in s.commits && w.0 <= t && c <= w.1 && w.0 in s.leaderLogs && Agree(l, s.leaderLogs[w.0], c);
      assert Agree(l', s.leaderLogs[w.0], c);
    }
  }

  lemma CommitOKMoves(s: State, l: Log, l': Log, c: nat, t: nat)
    requires CommitOK(s, l, c, t) && Agree(l', l, c)
    ensures CommitOK(s, l', c, t)
  {
    if c > 0 {
      var w :| w in s.commits && w.0 <= t && c <= w.1 && w.0 in s.leaderLogs && Agree(l, s.leaderLogs[w.0], c);
      assert Agree(l', s.leaderLogs[w.0], c);
    }
  }

  /** The node after an accepted request. */
  function Accept(n: Node, t: nat, e: nat, log: Log, commit: nat): Node {
    Acknowledge(n.(log := log, commitIndex := commit), t, e)
  }

  lemma AcceptLocalOK(s: State, n: Node, t: nat, e: nat, l': Log, c: nat)
    requires LocalOK(s, n) && Completeness(s) && CommitsOK(s) && n.term == t && t in s.leaderLogs && LeaderLogOK(s, t)
    requires Adopts(n.log, s.leaderLogs[t], e, l')
    requires c == n.commitIndex || (n.commitIndex <= c <= e && CommitOK(s, s.leaderLogs[t], c, t))
    ensures LocalOK(s, Accept(n, t, e, l', c))
  {
    hide Completeness, CommitsOK, LeaderLogOK;
    AdoptedLogOK(s, n.log, t, e, l');
    AdoptedCommitOK(s, n.log, t, e, l', n.commitIndex);
    assert n.log[..n.lastApplied] == l'[..n.lastApplied];
    if c != n.commitIndex {
      AdoptTakes(n.log, s.leaderLogs[t], e, l');
      CommitOKMoves(s, s.leaderLogs[t], l', c, t);
    }
  }

  lemma AcceptRoundsOK(s: State, id: Id, n: Node, n': Node)
    requires RoundsOK(s, id, n) && n'.rounds == n.rounds && n'.live == n.live && n'.term == n.term
    requires n'.cast == n.cast && n'.role == n.role
    ensures RoundsOK(s, id, n')
  {
    forall r | 0 <= r < |n'.rounds| ensures RoundOK(s, id, n', n'.rounds[r]) {
      assert RoundOK(s, id, n, n.rounds[r]);
    }
  }

  lemma AcceptOK(s: State, id: Id, n: Node, t: nat, e: nat, l': Log, c: nat)
    requires HistoryOK(s) && Completeness(s) && CommitsOK(s) && NodeOK(s, id, n) && !n.role.Leader?
    requires n.term == t && t in s.leaderLogs && Adopts(n.log, s.leaderLogs[t], e, l')
    requires c == n.commitIndex || (n.commitIndex <= c <= e && CommitOK(s, s.leaderLogs[t], c, t))
    ensures var n' := Accept(n, t, e, l', c);
            NodeOK(s, id, n') && Evolves(n, n') && n'.cast == n.cast && n'.term == t && AckOf(n', t) >= e
  {
    hide LocalOK, Completeness, MayCommit, LogOK, CommitOK;
    var n' := Accept(n, t, e, l', c);
    AcceptLocalOK(s, n, t, e, l', c);
    AdoptedAcksOK(s, n, t, e, n');
    AcceptRoundsOK(s, id, n, n');
  }

  // --- AppendEntries ---

  lemma RunBeforeBound(l: Log, snap: nat, t: nat, index: nat)
    requires snap <= index <= |l|
    ensures snap <= RunBefore(l, snap, t, index) <= index
  {
  }

  /** A rejected leader is asked for an index inside its own log, or just above it. */
  lemma HintInRange(s: State, n: Node, t: nat, prev: nat, prevTerm: nat)
    requires LocalOK(s, n) && Completeness(s) && CommitsOK(s) && n.term == t && t in s.leaderLogs
    requires prev <= |s.leaderLogs[t]|
    requires Check(n.log, n.snapIndex, prev, prevTerm).Some?
    ensures Check(n.log, n.snapIndex, prev, prevTerm).value <= |s.leaderLogs[t]| + 1
  {
    CommittedInLeader(s, n.log, n.commitIndex, t, t);
    if n.snapIndex < prev <= |n.log| {
      RunBeforeBound(n.log, n.snapIndex, TermAt(n.log, prev), prev - 1);
    }
  }

  /** An accepted probe means the follower holds the leader's log up to the previous entry. */
  lemma AcceptedProbe(s: State, l: Log, snap: nat, t: nat, prev: nat)
    requires LogOK(s.base, s.leaderLogs, l) && t in s.leaderLogs && LeaderLogOK(s, t) && snap <= |l|
    requires prev <= |s.leaderLogs[t]| && Check(l, snap, prev, TermAt(s.leaderLogs[t], prev)) == None
    ensures Agree(l, s.leaderLogs[t], prev)
  {
    if prev > 0 {
      LogsMatch(s.base, s.leaderLogs, l, s.leaderLogs[t], prev - 1);
    }
  }

  lemma MergeAdopts(s: State, n: Node, m: Message)
    requires LocalOK(s, n) && m.AppendRequest? && AppendRequestOK(s, m) && HistoryOK(s)
    requires Check(n.log, n.snapIndex, m.prev, m.prevTerm) == None
    ensures m.prev <= |n.log|
    ensures Adopts(n.log, s.leaderLogs[m.term], m.prev + |m.entries|, Merge(n.log, m.prev, m.entries))
  {
    assert LeaderLogOK(s, m.term);
    AcceptedProbe(s, n.log, n.snapIndex, m.term, m.prev);
    LogsAreMatching(s.base, s.leaderLogs, n.log, s.leaderLogs[m.term]);
    MergeAdoptsLeaderPrefix(n.log, s.leaderLogs[m.term], m.prev, m.entries);
  }

  lemma AppendRequestFacts(s: State, m: Message)
    requires m.AppendRequest? && MessageOK(s, m)
    ensures AppendRequestOK(s, m) && m.from != m.to && (m.term, m.from) in s.elected && m.term in s.leaderLogs
    ensures m.prev <= |s.leaderLogs[m.term]| && m.leaderCommit <= m.prev + |m.entries|
    ensures CommitOK(s, s.leaderLogs[m.term], m.leaderCommit, m.term)
  {
  }

  lemma NodeParts(s: State, id: Id, n: Node)
    requires NodeOK(s, id, n)
    ensures LocalOK(s, n) && n.snapIndex <= n.lastApplied <= n.commitIndex <= |n.log|
  {
  }

  lemma AppendRequestOutcome(s: State, m: Message)
    requires Enabled(s, OnAppendRequest(m))
    ensures m.AppendRequest? && m.to in s.nodes && m in s.net && s.nodes[m.to].snapIndex <= |s.nodes[m.to].log|
    ensures var n := s.nodes[m.to];
            var s' := Next(s, OnAppendRequest(m));
            var (n', r) := HandleAppendRequest(n, m);
            && Becomes(s, s', m.to, n', {r}) && r.AppendResponse?
            && r.from == m.to && r.to == m.from && r.requestTerm == m.term && r.upTo == m.prev + |m.entries|
            && (m.term < n.term ==> n' == n && r.term == n.term && !r.success)
            && (m.term >= n.term ==>
                  var n1 := FollowLeader(n, m.term);
                  && r.term == n1.term
                  && match Check(n1.log, n1.snapIndex, m.prev, m.prevTerm)
                     case Some(hint) => n' == n1 && !r.success && r.hint == hint
                     case None =>
                       && r.success && m.prev <= |n1.log|
                       && var log := Merge(n1.log, m.prev, m.entries);
                          n' == Accept(n1, m.term, m.prev + |m.entries|, log,
                                       if m.leaderCommit > n1.commitIndex
                                         then Min(m.leaderCommit, |log|) else n1.commitIndex))
  {
  }

  lemma AppendResponseSent(s: State, s': State, m: Message, r: Message)
    requires MessageOK(s, m) && m.AppendRequest? && r.AppendResponse? && r.from == m.to && r.to == m.from
    requires r.requestTerm == m.term
    requires m.to in s'.nodes && s'.leaderLogs == s.leaderLogs && r.requestTerm <= r.term
    requires r.success ==> r.upTo <= AckOf(s'.nodes[m.to], m.term)
    requires m.term in s.leaderLogs && !r.success && r.term <= m.term ==> r.hint <= |s.leaderLogs[m.term]| + 1
    ensures MessageOK(s', r)
  {
  }

  /** A request from a term that is over. */
  lemma StaleAppendRequest(s: State, m: Message)
    requires Inv(s) && Enabled(s, OnAppendRequest(m)) && m.AppendRequest? && m.to in s.nodes
    requires m.term < s.nodes[m.to].term
    ensures var s' := Next(s, OnAppendRequest(m)); Inv(s') && Grows(s, s')
  {
    hide *;
    var s' := Next(s, OnAppendRequest(m));
    AppendRequestOutcome(s, m);
    MessageAt(s, m);
    var r := HandleAppendRequest(s.nodes[m.to], m).1;
    AppendResponseSent(s, s, m, r);
    SendingStep(s, s', m.to, {r});
  }

  lemma RejectedAppendRequest(s: State, m: Message)
    requires Inv(s) && Enabled(s, OnAppendRequest(m)) && m.AppendRequest? && m.to in s.nodes
    requires m.term >= s.nodes[m.to].term
    requires var n := FollowLeader(s.nodes[m.to], m.term);
             n.snapIndex <= |n.log| && Check(n.log, n.snapIndex, m.prev, m.prevTerm).Some?
    ensures var s' := Next(s, OnAppendRequest(m)); Inv(s') && Grows(s, s')
  {
    hide *;
    var s' := Next(s, OnAppendRequest(m));
    AppendRequestOutcome(s, m);
    MessageAt(s, m);
    AppendRequestFacts(s, m);
    PartsOf(s);
    var n := s.nodes[m.to];
    var n1 := FollowLeader(n, m.term);
    FollowLeaderShape(n, m.term);
    FollowLeaderOK(s, m.to, m.from, m.term);
    NodeParts(s, m.to, n1);
    HintInRange(s, n1, m.term, m.prev, m.prevTerm);
    var r := HandleAppendRequest(n, m).1;
    QuietHistory(s, s', m.to, n1, {r});
    AppendResponseSent(s, s', m, r);
    QuietStep(s, s', m.to, n1, {r});
  }

  lemma NewCommit(s: State, n: Node, m: Message, l': Log) returns (c: nat)
    requires m.AppendRequest? && AppendRequestOK(s, m) && m.prev <= |n.log|
    requires Adopts(n.log, s.leaderLogs[m.term], m.prev + |m.entries|, l')
    ensures c == if m.leaderCommit > n.commitIndex then Min(m.leaderCommit, |l'|) else n.commitIndex
    ensures c == n.commitIndex ||
              (n.commitIndex <= c <= m.prev + |m.entries| && CommitOK(s, s.leaderLogs[m.term], c, m.term))
  {
    AdoptTakes(n.log, s.leaderLogs[m.term], m.prev + |m.entries|, l');
    c := if m.leaderCommit > n.commitIndex then m.leaderCommit else n.commitIndex;
  }

  lemma AcceptedAppendRequest(s: State, m: Message)
    requires Inv(s) && Enabled(s, OnAppendRequest(m)) && m.AppendRequest? && m.to in s.nodes
    requires m.term >= s.nodes[m.to].term
    requires var n := FollowLeader(s.nodes[m.to], m.term);
             n.snapIndex <= |n.log| && Check(n.log, n.snapIndex, m.prev, m.prevTerm).None?
    ensures var s' := Next(s, OnAppendRequest(m)); Inv(s') && Grows(s, s')
  {
    hide *;
    var s' := Next(s, OnAppendRequest(m));
    AppendRequestOutcome(s, m);
    MessageAt(s, m);
    AppendRequestFacts(s, m);
    PartsOf(s);
    var n := s.nodes[m.to];
    var n1 := FollowLeader(n, m.term);
    FollowLeaderShape(n, m.term);
    FollowLeaderOK(s, m.to, m.from, m.term);
    NodeParts(s, m.to, n1);
    MergeAdopts(s, n1, m);
    var e := m.prev + |m.entries|;
    var log := Merge(n1.log, m.prev, m.entries);
    var c := NewCommit(s, n1, m, log);
    AcceptOK(s, m.to, n1, m.term, e, log, c);
    var n' := Accept(n1, m.term, e, log, c);
    EvolvesTransitive(n, n1, n');
    var r := HandleAppendRequest(n, m).1;
    QuietHistory(s, s', m.to, n', {r});
    AppendResponseSent(s, s', m, r);
    QuietStep(s, s', m.to, n', {r});
  }

  lemma PreserveAppendRequest(s: State, m: Message)
    requires Inv(s) && Enabled(s, OnAppendRequest(m))
    ensures var s' := Next(s, OnAppendRequest(m)); Inv(s') && Grows(s, s')
  {
    hide *;
    AppendRequestOutcome(s, m);
    if m.term < s.nodes[m.to].term {
      StaleAppendRequest(s, m);
    } else {
      FollowLeaderShape(s.nodes[m.to], m.term);
      var n1 := FollowLeader(s.nodes[m.to], m.term);
      if Check(n1.log, n1.snapIndex, m.prev, m.prevTerm).Some? {
        RejectedAppendRequest(s, m);
      } else {
        AcceptedAppendRequest(s, m);
      }
    }
  }

  // --- InstallSnapshot ---

  lemma SnapRequestFacts(s: State, m: Message)
    requires m.SnapRequest? && MessageOK(s, m)
    ensures m.from != m.to && (m.term, m.from) in s.elected && m.term in s.leaderLogs
    ensures 1 <= m.index <= |s.leaderLogs[m.term]|
    ensures m.content == s.leaderLogs[m.term][..m.index] && m.lastTerm == s.leaderLogs[m.term][m.index - 1].term
    ensures CommitOK(s, s.leaderLogs[m.term], m.index, m.term)
  {
  }

  /** The node after a snapshot replaced its log. */
  function Install(n: Node, t: nat, index: nat, content: Log): Node {
    Acknowledge(n.(log := content, snapIndex := index, commitIndex := index, lastApplied := index,
      applied := content), t, index)
  }

  lemma InstallLocalOK(s: State, n: Node, t: nat, e: nat, l': Log)
    requires LocalOK(s, n) && Completeness(s) && CommitsOK(s) && n.term == t && t in s.leaderLogs
    requires LeaderLogOK(s, t) && !n.role.Leader?
    requires Adopts(n.log, s.leaderLogs[t], e, l') && !Agree(n.log, s.leaderLogs[t], e)
    requires CommitOK(s, s.leaderLogs[t], e, t)
    ensures LocalOK(s, Install(n, t, e, l')) && n.commitIndex <= e
  {
    AdoptedLogOK(s, n.log, t, e, l');
    AdoptTakes(n.log, s.leaderLogs[t], e, l');
    CommitOKMoves(s, s.leaderLogs[t], l', e, t);
    CommittedInLeader(s, n.log, n.commitIndex, t, t);
    assert l'[..e] == l';
  }

  lemma InstallOK(s: State, id: Id, n: Node, t: nat, e: nat, l': Log)
    requires HistoryOK(s) && Completeness(s) && CommitsOK(s) && NodeOK(s, id, n) && !n.role.Leader?
    requires n.term == t && t in s.leaderLogs && Adopts(n.log, s.leaderLogs[t], e, l')
    requires !Agree(n.log, s.leaderLogs[t], e)
    requires CommitOK(s, s.leaderLogs[t], e, t) && e >= 1
    ensures var n' := Install(n, t, e, l');
            NodeOK(s, id, n') && Evolves(n, n') && n'.cast == n.cast && n'.term == t && AckOf(n', t) >= e
    ensures n.commitIndex <= e
  {
    hide LocalOK, MayCommit, CommitOK, Completeness, CommitsOK, LogOK, RoundsOK;
    var n' := Install(n, t, e, l');
    assert LeaderLogOK(s, t);
    InstallLocalOK(s, n, t, e, l');
    AdoptTakes(n.log, s.leaderLogs[t], e, l');
    AdoptedAcksOK(s, n, t, e, n');
    AcceptRoundsOK(s, id, n, n');
  }

  lemma SnapRequestOutcome(s: State, m: Message, complete: bool)
    requires Enabled(s, OnSnapRequest(m, complete))
    ensures m.SnapRequest? && m.to in s.nodes && m in s.net
    ensures var n := s.nodes[m.to];
            var s' := Next(s, OnSnapRequest(m, complete));
            var (n', r) := HandleSnapRequest(n, m, complete);
            && Becomes(s, s', m.to, n', {r}) && r.SnapResponse?
            && r.from == m.to && r.to == m.from && r.requestTerm == m.term && r.index == m.index
            && (m.term < n.term ==> n' == n && r.term == n.term && !r.covered)
            && (m.term >= n.term ==>
                  var n1 := FollowLeader(n, m.term);
                  var has := m.index <= |n1.log| && m.index > 0 && n1.log[m.index - 1].term == m.lastTerm;
                  && r.term == n1.term
                  && ((n' == n1 && !r.covered)
                      || ((n1.snapIndex >= m.index || n1.lastApplied >= m.index || has)
                          && n' == Accept(n1, m.term, m.index, n1.log, n1.commitIndex))
                      || (!has && n' == Install(n1, m.term, m.index, m.content))))
  {
  }

  lemma SnapResponseSent(s: State, s': State, m: Message, r: Message)
    requires MessageOK(s, m) && m.SnapRequest? && r.SnapResponse? && r.from == m.to && r.to == m.from
    requires r.requestTerm == m.term
    requires r.index == m.index && m.to in s'.nodes && s'.leaderLogs == s.leaderLogs && r.requestTerm <= r.term
    requires r.covered ==> r.index <= AckOf(s'.nodes[m.to], m.term)
    ensures MessageOK(s', r)
  {
  }

  /** Whoever has applied up to the snapshot point, or has its entry, holds the leader's log up to there. */
  lemma CoversSnapshot(s: State, n: Node, m: Message)
    requires HistoryOK(s) && Completeness(s) && CommitsOK(s) && LocalOK(s, n) && n.term == m.term
    requires m.SnapRequest? && MessageOK(s, m)
    requires n.snapIndex >= m.index || n.lastApplied >= m.index ||
               (m.index <= |n.log| && n.log[m.index - 1].term == m.lastTerm)
    ensures Adopts(n.log, s.leaderLogs[m.term], m.index, n.log)
  {
    assert LeaderLogOK(s, m.term);
    if n.lastApplied >= m.index {
      CommittedInLeader(s, n.log, n.commitIndex, m.term, m.term);
    } else {
      LogsMatch(s.base, s.leaderLogs, n.log, s.leaderLogs[m.term], m.index - 1);
    }
  }

  lemma MissesSnapshot(s: State, n: Node, m: Message)
    requires m.SnapRequest? && MessageOK(s, m) && n.term == m.term
    requires !(m.index <= |n.log| && m.index > 0 && n.log[m.index - 1].term == m.lastTerm)
    ensures m.term in s.leaderLogs && !Agree(n.log, s.leaderLogs[m.term], m.index)
    ensures Adopts(n.log, s.leaderLogs[m.term], m.index, m.content)
  {
  }

  lemma PreserveSnapRequest(s: State, m: Message, complete: bool)
    requires Inv(s) && Enabled(s, OnSnapRequest(m, complete))
    ensures var s' := Next(s, OnSnapRequest(m, complete)); Inv(s') && Grows(s, s')
  {
    hide *;
    var s' := Next(s, OnSnapRequest(m, complete));
    SnapRequestOutcome(s, m, complete);
    MessageAt(s, m);
    SnapRequestFacts(s, m);
    PartsOf(s);
    var n := s.nodes[m.to];
    var (n', r) := HandleSnapRequest(n, m, complete);
    if m.term < n.term {
      SnapResponseSent(s, s, m, r);
      SendingStep(s, s', m.to, {r});
    } else {
      var n1 := FollowLeader(n, m.term);
      FollowLeaderShape(n, m.term);
      FollowLeaderOK(s, m.to, m.from, m.term);
      NodeParts(s, m.to, n1);
      if n' == n1 && !r.covered {
      } else if n' == Install(n1, m.term, m.index, m.content)
                && !(m.index <= |n1.log| && m.index > 0 && n1.log[m.index - 1].term == m.lastTerm) {
        MissesSnapshot(s, n1, m);
        InstallOK(s, m.to, n1, m.term, m.index, m.content);
        EvolvesTransitive(n, n1, n');
      } else {
        CoversSnapshot(s, n1, m);
        AcceptOK(s, m.to, n1, m.term, m.index, n1.log, n1.commitIndex);
        EvolvesTransitive(n, n1, n');
      }
      QuietHistory(s, s', m.to, n', {r});
      SnapResponseSent(s, s', m, r);
      QuietStep(s, s', m.to, n', {r});
    }
  }

  // --- apply, compact, crash ---

  lemma ApplyOutcome(s: State, id: Id)
    requires Enabled(s, Apply(id))
    ensures id in s.nodes && s.nodes[id].lastApplied < s.nodes[id].commitIndex <= |s.nodes[id].log|
    ensures Becomes(s, Next(s, Apply(id)), id, ApplyNext(s.nodes[id]), {})
  {
  }

  lemma ApplyOK(s: State, id: Id, n: Node)
    requires NodeOK(s, id, n) && n.lastApplied < n.commitIndex
    ensures var n' := ApplyNext(n);
            NodeOK(s, id, n') && Evolves(n, n') && n'.cast == n.cast && n'.log == n.log && n'.term == n.term
  {
    var n' := ApplyNext(n);
    assert n.log[..n.lastApplied] + [n.log[n.lastApplied]] == n.log[..n'.lastApplied];
    AcceptRoundsOK(s, id, n, n');
  }

  lemma PreserveApply(s: State, id: Id)
    requires Inv(s) && Enabled(s, Apply(id))
    ensures var s' := Next(s, Apply(id)); Inv(s') && Grows(s, s')
  {
    hide *;
    ApplyOutcome(s, id);
    NodeAt(s, id);
    ApplyOK(s, id, s.nodes[id]);
    QuietStep(s, Next(s, Apply(id)), id, ApplyNext(s.nodes[id]), {});
  }

  lemma CompactOutcome(s: State, id: Id, index: nat)
    requires Enabled(s, TakeSnapshot(id, index))
    ensures id in s.nodes && s.nodes[id].snapIndex < index <= s.nodes[id].lastApplied
    ensures Becomes(s, Next(s, TakeSnapshot(id, index)), id, Compact(s.nodes[id], index), {})
  {
  }

  lemma CompactOK(s: State, id: Id, n: Node, index: nat)
    requires NodeOK(s, id, n) && index <= n.lastApplied
    ensures var n' := Compact(n, index);
            NodeOK(s, id, n') && Evolves(n, n') && n'.cast == n.cast && n'.log == n.log && n'.term == n.term
  {
    AcceptRoundsOK(s, id, n, Compact(n, index));
  }

  lemma PreserveCompact(s: State, id: Id, index: nat)
    requires Inv(s) && Enabled(s, TakeSnapshot(id, index))
    ensures var s' := Next(s, TakeSnapshot(id, index)); Inv(s') && Grows(s, s')
  {
    hide *;
    CompactOutcome(s, id, index);
    NodeAt(s, id);
    CompactOK(s, id, s.nodes[id], index);
    QuietStep(s, Next(s, TakeSnapshot(id, index)), id, Compact(s.nodes[id], index), {});
  }

  lemma CrashOutcome(s: State, id: Id)
    requires Enabled(s, Crash(id))
    ensures id in s.nodes && Becomes(s, Next(s, Crash(id)), id, Restart(s.nodes[id]), {})
  {
  }

  lemma RestartLocalOK(s: State, n: Node)
    requires LocalOK(s, n)
    ensures LocalOK(s, Restart(n))
  {
    SnapshotIsCommitted(s, n);
  }

  /** The stored term and vote bring the node back to the term it was in. */
  lemma RestartOK(s: State, id: Id, n: Node)
    requires NodeOK(s, id, n)
    ensures var n' := Restart(n);
            NodeOK(s, id, n') && Evolves(n, n') && n'.cast == n.cast && n'.log == n.log && n'.term == n.term
  {
    var n' := Restart(n);
    RestartLocalOK(s, n);
    forall r | 0 <= r < |n'.rounds| ensures RoundOK(s, id, n', n'.rounds[r]) {
      assert RoundOK(s, id, n, n.rounds[r]);
    }
  }

  lemma PreserveCrash(s: State, id: Id)
    requires Inv(s) && Enabled(s, Crash(id))
    ensures var s' := Next(s, Crash(id)); Inv(s') && Grows(s, s')
  {
    hide *;
    CrashOutcome(s, id);
    NodeAt(s, id);
    RestartOK(s, id, s.nodes[id]);
    QuietStep(s, Next(s, Crash(id)), id, Restart(s.nodes[id]), {});
  }
}
