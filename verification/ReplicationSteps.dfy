/** Replication: requests and replies, the commit scan, and what a follower does to its log. */
module ReplicationSteps {
  import opened Entries
  import opened Protocol
  import opened Cluster
  import opened Quorums
  import opened Invariant
  import opened Stability
  import opened QuietSteps

  /** Log matching: two good logs with the same term at the same index are the same up to there. */
  lemma LogsMatch(base: Entry, leaderLogs: map<nat, Log>, a: Log, b: Log, k: nat)
    requires LogOK(base, leaderLogs, a) && LogOK(base, leaderLogs, b)
    requires k < |a| && k < |b| && a[k].term == b[k].term
    ensures Agree(a, b, k + 1)
  {
    if k > 0 {
      assert Agree(a, leaderLogs[a[k].term], k + 1) && Agree(b, leaderLogs[b[k].term], k + 1);
    }
  }

  lemma LogsAreMatching(base: Entry, leaderLogs: map<nat, Log>, a: Log, b: Log)
    requires LogOK(base, leaderLogs, a) && LogOK(base, leaderLogs, b)
    ensures Matching(a, b)
  {
    forall k | 0 <= k < |a| && k < |b| && a[k].term == b[k].term ensures Agree(a, b, k + 1) {
      LogsMatch(base, leaderLogs, a, b, k);
    }
  }

  lemma CommittedMayCommit(s: State, t: nat, i: nat)
    requires Committed(s, t, i)
    ensures MayCommit(s, t, i)
  {
    MajorityGrows(s.voters, Ackers(s, t, i), Possible(s, t, i));
  }

  /** A committed prefix is in the log of every leader of its term and of later ones. */
  lemma CommittedInLeader(s: State, l: Log, c: nat, t: nat, u: nat)
    requires Completeness(s) && CommitsOK(s) && CommitOK(s, l, c, t) && t <= u && u in s.leaderLogs
    ensures Agree(l, s.leaderLogs[u], c)
  {
    if c > 0 {
      var w :| w in s.commits && w.0 <= t && c <= w.1 && w.0 in s.leaderLogs && Agree(l, s.leaderLogs[w.0], c);
      if w.0 < u {
        CommittedMayCommit(s, w.0, w.1);
        assert Agree(s.leaderLogs[u], s.leaderLogs[w.0], w.1);
      }
    }
  }

  // --- the leader's side ---

  /** Every request built ends with the leader's last entry, hence at or above the leader's commit index. */
  lemma BuiltRequestOK(s: State, id: Id, to: Id)
    requires Shape(s) && id in s.nodes && NodeOK(s, id, s.nodes[id]) && s.nodes[id].role.Leader? && to != id
    requires to in s.nodes[id].next && s.nodes[id].snapIndex < s.nodes[id].next[to] <= |s.nodes[id].log| + 1
    ensures MessageOK(s, BuildAppendRequest(s.nodes[id], id, to))
  {
  }

  lemma BuiltSnapshotOK(s: State, id: Id, to: Id)
    requires Shape(s) && id in s.nodes && NodeOK(s, id, s.nodes[id]) && s.nodes[id].role.Leader? && to != id
    requires 1 <= s.nodes[id].snapIndex <= |s.nodes[id].log|
    ensures MessageOK(s, BuildSnapRequest(s.nodes[id], id, to))
  {
    SnapshotIsCommitted(s, s.nodes[id]);
  }

  lemma SendAppendOutcome(s: State, id: Id, to: Id)
    requires Enabled(s, SendAppend(id, to))
    ensures id in s.nodes && s.nodes[id].role.Leader? && to != id
    ensures to in s.nodes[id].next && s.nodes[id].snapIndex < s.nodes[id].next[to] <= |s.nodes[id].log| + 1
    ensures Becomes(s, Next(s, SendAppend(id, to)), id, s.nodes[id], {BuildAppendRequest(s.nodes[id], id, to)})
  {
  }

  lemma SendSnapshotOutcome(s: State, id: Id, to: Id)
    requires Enabled(s, SendSnapshot(id, to))
    ensures id in s.nodes && s.nodes[id].role.Leader? && to != id && 1 <= s.nodes[id].snapIndex <= |s.nodes[id].log|
    ensures Becomes(s, Next(s, SendSnapshot(id, to)), id, s.nodes[id], {BuildSnapRequest(s.nodes[id], id, to)})
  {
  }

  lemma PreserveSendAppend(s: State, id: Id, to: Id)
    requires Inv(s) && Enabled(s, SendAppend(id, to))
    ensures var s' := Next(s, SendAppend(id, to)); Inv(s') && Grows(s, s')
  {
    hide *;
    SendAppendOutcome(s, id, to);
    NodeAt(s, id);
    PartsOf(s);
    BuiltRequestOK(s, id, to);
    SendingStep(s, Next(s, SendAppend(id, to)), id, {BuildAppendRequest(s.nodes[id], id, to)});
  }

  lemma PreserveSendSnapshot(s: State, id: Id, to: Id)
    requires Inv(s) && Enabled(s, SendSnapshot(id, to))
    ensures var s' := Next(s, SendSnapshot(id, to)); Inv(s') && Grows(s, s')
  {
    hide *;
    SendSnapshotOutcome(s, id, to);
    NodeAt(s, id);
    PartsOf(s);
    BuiltSnapshotOK(s, id, to);
    SendingStep(s, Next(s, SendSnapshot(id, to)), id, {BuildSnapRequest(s.nodes[id], id, to)});
  }

  lemma SnapshotIsCommitted(s: State, n: Node)
    requires LocalOK(s, n)
    ensures CommitOK(s, n.log, n.snapIndex, n.term)
  {
    if n.snapIndex > 0 {
      var w :| w in s.commits && w.0 <= n.term && n.commitIndex <= w.1 && w.0 in s.leaderLogs
               && Agree(n.log, s.leaderLogs[w.0], n.commitIndex);
      assert Agree(n.log, s.leaderLogs[w.0], n.snapIndex);
    }
  }

  lemma AckedIsBounded(s: State, id: Id, t: nat)
    requires id in s.nodes && NodeOK(s, id, s.nodes[id]) && t in s.leaderLogs
    ensures AckOf(s.nodes[id], t) <= |s.leaderLogs[t]|
  {
  }

  lemma FollowerIndexesOK(s: State, id: Id, n: Node, f: Id, next: nat, matched: nat)
    requires NodeOK(s, id, n) && n.role.Leader? && f in n.next && f in n.matched && f in s.nodes
    requires next <= |n.log| + 1 && matched <= AckOf(s.nodes[f], n.term)
    ensures var n' := n.(next := n.next[f := next], matched := n.matched[f := matched]);
            NodeOK(s, id, n') && Evolves(n, n')
  {
    var n' := n.(next := n.next[f := next], matched := n.matched[f := matched]);
    assert n'.next.Keys == n.next.Keys && n'.matched.Keys == n.matched.Keys;
    forall r | 0 <= r < |n'.rounds| ensures RoundOK(s, id, n', n'.rounds[r]) {
      assert RoundOK(s, id, n, n.rounds[r]);
    }
  }

  lemma LeaderFacts(s: State, id: Id, n: Node)
    requires NodeOK(s, id, n) && n.role.Leader?
    ensures n.term in s.leaderLogs && s.leaderLogs[n.term] == n.log && (n.term, id) in s.elected
    ensures forall f :: f in n.matched && f in s.nodes ==> n.matched[f] <= AckOf(s.nodes[f], n.term)
    ensures forall f :: f in n.next ==> n.next[f] <= |n.log| + 1
  {
  }

  lemma AppendResponseOutcome(s: State, m: Message)
    requires Enabled(s, OnAppendResponse(m)) && RepliesAreCurrent(s, OnAppendResponse(m)) && MessageOK(s, m)
    ensures m.AppendResponse? && m.to in s.nodes && m.from in s.nodes
    ensures var n := s.nodes[m.to];
            var n' := HandleAppendResponse(n, m);
            && Becomes(s, Next(s, OnAppendResponse(m)), m.to, n', {})
            && (n' == n
                || (n.role.Leader? && m.term > n.term && n' == BecomeFollower(n, m.term))
                || (n.role.Leader? && m.from in n.next && m.from in n.matched && m.requestTerm == n.term
                    && ((!m.success && n' == n.(next := n.next[m.from := m.hint],
                         matched := n.matched[m.from := n.matched[m.from]])
                         && m.hint <= (if n.term in s.leaderLogs then |s.leaderLogs[n.term]| else 0) + 1)
                        || (m.success && m.upTo <= AckOf(s.nodes[m.from], n.term)
                            && n' == n.(next := n.next[m.from := Max(n.next[m.from], m.upTo + 1)],
                                        matched := n.matched[m.from := m.upTo])))))
  {
    var n := s.nodes[m.to];
    if m.from in n.matched {
      assert n.matched == n.matched[m.from := n.matched[m.from]];
    }
  }

  lemma FollowerCast(n: Node, t: nat)
    ensures BecomeFollower(n, t).cast == n.cast && BecomeFollower(n, t).log == n.log
    ensures BecomeFollower(n, t).acks == n.acks
    ensures BecomeFollower(n, t).term == t
  {
  }

  lemma PreserveAppendResponse(s: State, m: Message)
    requires Inv(s) && m in s.net
    requires Enabled(s, OnAppendResponse(m)) && RepliesAreCurrent(s, OnAppendResponse(m))
    ensures var s' := Next(s, OnAppendResponse(m)); Inv(s') && Grows(s, s')
  {
    hide *;
    var s' := Next(s, OnAppendResponse(m));
    MessageAt(s, m);
    AppendResponseOutcome(s, m);
    var n := s.nodes[m.to];
    var n' := HandleAppendResponse(n, m);
    NodeAt(s, m.to);
    PartsOf(s);
    if n' == n {
      SendingStep(s, s', m.to, {});
    } else if n' == BecomeFollower(n, m.term) && m.term > n.term {
      BecomeFollowerOK(s, m.to, n, m.term);
      FollowerCast(n, m.term);
      QuietStep(s, s', m.to, n', {});
    } else {
      LeaderFacts(s, m.to, n);
      NodeAt(s, m.from);
      AckedIsBounded(s, m.from, n.term);
      if m.success {
        MaxBound(n.next[m.from], m.upTo + 1, |n.log| + 1);
        FollowerIndexesOK(s, m.to, n, m.from, Max(n.next[m.from], m.upTo + 1), m.upTo);
      } else {
        FollowerIndexesOK(s, m.to, n, m.from, m.hint, n.matched[m.from]);
      }
      QuietStep(s, s', m.to, n', {});
    }
  }

  lemma MaxBound(a: nat, b: nat, c: nat)
    requires a <= c && b <= c
    ensures Max(a, b) <= c
  {
  }

  lemma SnapResponseOutcome(s: State, m: Message)
    requires Enabled(s, OnSnapResponse(m)) && RepliesAreCurrent(s, OnSnapResponse(m)) && MessageOK(s, m)
    ensures m.SnapResponse? && m.to in s.nodes && m.from in s.nodes
    ensures var n := s.nodes[m.to];
            var n' := HandleSnapResponse(n, m);
            && Becomes(s, Next(s, OnSnapResponse(m)), m.to, n', {})
            && (n' == n
                || (m.term > n.term && n' == BecomeFollower(n, m.term))
                || (n.role.Leader? && m.from in n.next && m.from in n.matched &&
                     m.index <= AckOf(s.nodes[m.from], n.term)
                    && n' == n.(next := n.next[m.from := m.index + 1], matched := n.matched[m.from := m.index])))
  {
  }

  lemma PreserveSnapResponse(s: State, m: Message)
    requires Inv(s) && m in s.net
    requires Enabled(s, OnSnapResponse(m)) && RepliesAreCurrent(s, OnSnapResponse(m))
    ensures var s' := Next(s, OnSnapResponse(m)); Inv(s') && Grows(s, s')
  {
    hide *;
    var s' := Next(s, OnSnapResponse(m));
    MessageAt(s, m);
    SnapResponseOutcome(s, m);
    var n := s.nodes[m.to];
    var n' := HandleSnapResponse(n, m);
    NodeAt(s, m.to);
    PartsOf(s);
    if n' == n {
      SendingStep(s, s', m.to, {});
    } else if n' == BecomeFollower(n, m.term) && m.term > n.term {
      BecomeFollowerOK(s, m.to, n, m.term);
      FollowerCast(n, m.term);
      QuietStep(s, s', m.to, n', {});
    } else {
      LeaderFacts(s, m.to, n);
      NodeAt(s, m.from);
      AckedIsBounded(s, m.from, n.term);
      FollowerIndexesOK(s, m.to, n, m.from, m.index + 1, m.index);
      QuietStep(s, s', m.to, n', {});
    }
  }

  // --- the commit scan ---

  /** What the scan commits, a majority has acknowledged. */
  lemma MatchersAcknowledged(s: State, id: Id, n: Node, index: nat, f: Id)
    requires Shape(s) && id in s.nodes && n == s.nodes[id] && LeaderOK(s, id, n) && n.role.Leader? && id in s.voters
    requires 1 <= index <= |n.log| && (f == id || (f in n.matched && f in s.voters && n.matched[f] >= index))
    ensures f in Ackers(s, n.term, index)
  {
  }

  lemma LeaderIsVoter(s: State, id: Id, n: Node)
    requires ElectedOK(s) && LeaderOK(s, id, n) && n.role.Leader?
    ensures id in s.voters && n.term in s.leaderLogs && s.leaderLogs[n.term] == n.log
  {
    assert (n.term, id) in s.elected && (n.term, id).1 in s.voters;
  }

  lemma ScanIsCommitted(s: State, id: Id, n: Node, index: nat)
    requires Shape(s) && ElectedOK(s) && id in s.nodes && n == s.nodes[id] && NodeOK(s, id, n) && n.role.Leader?
    requires 1 <= index <= |n.log| && Commits(n, id, s.voters, index)
    ensures Committed(s, n.term, index)
  {
    hide LocalOK, AcksOK, RoundsOK, LeaderOK, ElectedOK, Ackers, Shape;
    LeaderIsVoter(s, id, n);
    var q := set f | f in n.matched && f != id && f in s.voters && n.matched[f] >= index;
    forall f | f in q + {id} ensures f in Ackers(s, n.term, index) {
      MatchersAcknowledged(s, id, n, index, f);
    }
    assert |q + {id}| == 1 + |q|;
    AckersVote(s, n.term, index);
    MajorityGrows(s.voters, q + {id}, Ackers(s, n.term, index));
  }

  lemma AckersVote(s: State, t: nat, i: nat)
    ensures Ackers(s, t, i) <= s.voters
  {
  }

  lemma {:induction false} LargestCommits(n: Node, id: Id, voters: set<Id>, low: nat, high: nat)
    requires low <= high <= |n.log|
    ensures var r := LargestCommitting(n, id, voters, low, high); r > low ==> Commits(n, id, voters, r)
  {
    if high > low && !Commits(n, id, voters, high) {
      LargestCommits(n, id, voters, low, high - 1);
    }
  }

  /** Recording a commit that a majority acknowledged. */
  lemma RecordCommit(s: State, s': State, t: nat, i: nat)
    requires Inv(s) && Committed(s, t, i) && s' == s.(commits := s.commits + {(t, i)})
    ensures Inv(s') && Grows(s, s') && s'.nodes == s.nodes && s'.leaderLogs == s.leaderLogs
  {
    hide *;
    CommitRecordGrows(s, s', t, i);
    HistoryStays(s, s');
    forall id | id in s'.nodes ensures NodeOK(s', id, s'.nodes[id]) {
      NodeAt(s, id);
      NodeOKLifts(s, s', id, s.nodes[id]);
    }
    AllNodesOf(s');
    var id := CommittedHasVoter(s, t, i);
    CommitRecordFrame(s, s', id);
    BallotsStay(s, s', id, {});
    NetStays(s, s', id);
    InvOf(s');
  }

  lemma CommittedHasVoter(s: State, t: nat, i: nat) returns (id: Id)
    requires Committed(s, t, i)
    ensures id in s.nodes
  {
    assert Ackers(s, t, i) != {};
    id :| id in Ackers(s, t, i);
  }

  lemma AllNodesOf(s: State)
    requires forall q :: q in s.nodes ==> NodeOK(s, q, s.nodes[q])
    ensures NodesOK(s)
  {
  }

  lemma CommitRecordGrows(s: State, s': State, t: nat, i: nat)
    requires s' == s.(commits := s.commits + {(t, i)}) && Committed(s, t, i)
    ensures Grows(s, s') && s'.leaderLogs == s.leaderLogs && s'.elected == s.elected && s'.nodes == s.nodes
    ensures s'.net == s.net
    ensures forall w :: w in s'.commits && w !in s.commits ==> Committed(s', w.0, w.1)
  {
    CommittedStays(s, s', t, i);
  }

  lemma CommitRecordFrame(s: State, s': State, id: Id)
    requires Grows(s, s') && s'.leaderLogs == s.leaderLogs && s'.elected == s.elected && s'.nodes == s.nodes
    requires id in s.nodes
    ensures ActsAlone(s, s', id) && KeepsLog(s, s', id)
  {
  }

  lemma CommitIndexOK(s: State, id: Id, n: Node, c: nat)
    requires NodeOK(s, id, n) && n.role.Leader? && n.commitIndex <= c <= |n.log| && (n.term, c) in s.commits
    ensures NodeOK(s, id, n.(commitIndex := c)) && Evolves(n, n.(commitIndex := c))
  {
    var n' := n.(commitIndex := c);
    assert Agree(n.log, s.leaderLogs[(n.term, c).0], c);
    forall r | 0 <= r < |n'.rounds| ensures RoundOK(s, id, n', n'.rounds[r]) {
      assert RoundOK(s, id, n, n.rounds[r]);
    }
  }

  lemma ScanOutcome(s: State, id: Id)
    requires Enabled(s, ScanCommits(id)) && NodeOK(s, id, s.nodes[id])
    ensures id in s.nodes
    ensures var n := s.nodes[id];
            var s' := Next(s, ScanCommits(id));
            var c := CommitScan(n, id, s.voters).commitIndex;
            Becomes(s, s', id, n, {}) ||
            (n.role.Leader? && n.commitIndex < c <= |n.log| && Commits(n, id, s.voters, c)
             && Becomes(s.(commits := s.commits + {(n.term, c)}), s', id, n.(commitIndex := c), {}))
  {
    hide LocalOK, AcksOK, RoundsOK, LeaderOK, Commits, CommitScan;
    NodeIndices(s, s.nodes[id]);
    ScanNode(s.nodes[id], id, s.voters);
  }

  lemma NodeIndices(s: State, n: Node)
    requires LocalOK(s, n)
    ensures n.commitIndex <= |n.log|
  {
  }

  lemma ScanNode(n: Node, id: Id, voters: set<Id>)
    requires n.commitIndex <= |n.log|
    ensures var c := CommitScan(n, id, voters).commitIndex;
            && CommitScan(n, id, voters) == n.(commitIndex := c) && n.commitIndex <= c <= |n.log|
            && (c > n.commitIndex ==> n.role.Leader? && Commits(n, id, voters, c))
  {
    hide Commits;
    if n.role.Leader? {
      LargestCommits(n, id, voters, n.commitIndex, |n.log|);
    }
  }

  lemma PreserveScan(s: State, id: Id)
    requires Inv(s) && id in s.nodes && Enabled(s, ScanCommits(id))
    ensures var s' := Next(s, ScanCommits(id)); Inv(s') && Grows(s, s')
  {
    hide *;
    var s' := Next(s, ScanCommits(id));
    NodeAt(s, id);
    ScanOutcome(s, id);
    var n := s.nodes[id];
    if Becomes(s, s', id, n, {}) {
      SendingStep(s, s', id, {});
    } else {
      var c := CommitScan(n, id, s.voters).commitIndex;
      var s1 := s.(commits := s.commits + {(n.term, c)});
      PartsOf(s);
      ScanIsCommitted(s, id, n, c);
      RecordCommit(s, s1, n.term, c);
      NodeAt(s1, id);
      CommitIndexOK(s1, id, n, c);
      QuietStep(s1, s', id, n.(commitIndex := c), {});
      GrowsTransitive(s, s1, s');
    }
  }
}
