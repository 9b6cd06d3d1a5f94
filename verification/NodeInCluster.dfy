/** The program's nodes inside the cluster: what the handlers of a node demand holds in every reachable state. */
module NodeInCluster {
  import opened Entries
  import opened Protocol
  import opened Cluster
  import opened Invariant
  import opened ReplicationSteps
  import opened QuietSteps
  import opened Safety
  import opened Repair
  import opened RaftNode

  /** A node of a reachable state has its indices in order and has applied exactly the entries up to lastApplied, so no
      lookup of the commit scan, of the apply loop or of a snapshot misses its entry. */
  lemma ReachableNodeInOrder(r: Raft, states: seq<State>, events: seq<Event>, k: nat)
    requires Run(states, events) && k < |states| && r.id in states[k].nodes
    requires r.Valid() && r.Abs() == states[k].nodes[r.id]
    ensures r.InOrder()
    ensures r.state.Leader? ==> forall f :: f in r.nextIndex ==> r.nextIndex[f] <= |r.full| + 1
  {
    hide *;
    RunInv(states, events, k);
    NodeFacts(states[k], r.id);
    InOrderOfNode(r, states[k].nodes[r.id]);
  }

  ghost predicate Ordered(n: Node) {
    && n.snapIndex <= n.lastApplied <= n.commitIndex <= |n.log| && n.applied == n.log[..n.lastApplied]
    && (n.role.Leader? ==> forall f :: f in n.next ==> n.next[f] <= |n.log| + 1)
  }

  lemma NodeFacts(s: State, id: Id)
    requires Inv(s) && id in s.nodes
    ensures Ordered(s.nodes[id])
  {
    assert NodeOK(s, id, s.nodes[id]);
    hide LogOK, CommitOK, AcksOK, RoundsOK, Shape, HistoryOK, ElectedOK, Completeness, CommitsOK, VotesOK, NetOK;
  }

  lemma InOrderOfNode(r: Raft, n: Node)
    requires r.Abs() == n && Ordered(n)
    ensures r.InOrder()
    ensures r.state.Leader? ==> forall f :: f in r.nextIndex ==> r.nextIndex[f] <= |r.full| + 1
  {
  }

  /** A snapshot on its way to a node covers exactly the entries up to its index, and a vote on its way to a node
      belongs to a round of that node. */
  lemma ReachableMessagesFit(states: seq<State>, events: seq<Event>, k: nat, m: Message)
    requires Run(states, events) && k < |states| && m in states[k].net
    ensures m.SnapRequest? ==> |m.content| == m.index && LastTerm(m.content) == m.lastTerm
    ensures m.VoteResponse? ==> m.to in states[k].nodes && m.round < |states[k].nodes[m.to].rounds|
  {
    hide *;
    RunInv(states, events, k);
    MessageFacts(states[k], m);
  }

  lemma MessageFacts(s: State, m: Message)
    requires Inv(s) && m in s.net
    ensures m.SnapRequest? ==> |m.content| == m.index && LastTerm(m.content) == m.lastTerm
    ensures m.VoteResponse? ==> m.to in s.nodes && m.round < |s.nodes[m.to].rounds|
  {
    assert MessageOK(s, m);
    hide NodesOK, HistoryOK, ElectedOK, Completeness, CommitsOK, VotesOK, CommitOK, Shape;
  }

  // --- log repair ---

  /** A node has committed nothing that a leader of its term or of a later one does not have. */
  lemma CommittedAtLeader(s: State, f: Id, t: nat)
    requires Inv(s) && f in s.nodes && t in s.leaderLogs && s.nodes[f].term <= t
    ensures var n := s.nodes[f];
            n.snapIndex <= n.commitIndex <= |n.log| && Agree(n.log, s.leaderLogs[t], n.commitIndex) && Sorted(n.log)
  {
    hide Inv, Agree, Completeness, CommitsOK, CommitOK, RoundsOK, LeaderOK, AcksOK;
    PartsOf(s);
    NodeAt(s, f);
    CommittedInLeader(s, s.nodes[f].log, s.nodes[f].commitIndex, s.nodes[f].term, t);
  }

  lemma LeaderMatches(s: State, l: Id, f: Id)
    requires Inv(s) && l in s.nodes && f in s.nodes && s.nodes[l].role.Leader?
    ensures var n := s.nodes[l];
            n.term in s.leaderLogs && s.leaderLogs[n.term] == n.log && Matching(s.nodes[f].log, n.log)
    ensures s.nodes[l].next.Keys == s.members && s.nodes[l].matched.Keys == s.members
    ensures forall p :: p in s.nodes[l].next ==> s.nodes[l].next[p] <= |s.nodes[l].log| + 1
    ensures f in s.members
  {
    hide Matching, LogOK, AcksOK, RoundsOK, Completeness, CommitsOK, HistoryOK, VotesOK, NetOK;
    NodeAt(s, l);
    NodeAt(s, f);
    LogsAreMatching(s.base, s.leaderLogs, s.nodes[f].log, s.nodes[l].log);
  }

  lemma IsPair(l: Node, f: Node, fid: Id)
    requires l.role.Leader? && fid in l.next && fid in l.matched && l.matched[fid] <= |l.log| && f.term <= l.term
    requires l.snapIndex <= f.snapIndex && l.snapIndex < l.next[fid] <= |l.log| + 1
    requires f.snapIndex <= f.commitIndex <= |f.log| && Agree(f.log, l.log, f.commitIndex) && Sorted(f.log)
    requires Matching(f.log, l.log)
    ensures Pair(l, f, fid)
  {
    assert f.snapIndex > 0 ==> f.log[f.snapIndex - 1] == l.log[f.snapIndex - 1];
  }

  /** In a run, a leader and any other node that is not in a later term meet what the repair bound asks for, as long
      as the leader has not compacted past the follower's snapshot point or the follower's next index. */
  lemma ReachablePair(states: seq<State>, events: seq<Event>, k: nat, lid: Id, fid: Id)
    requires Run(states, events) && k < |states| && lid in states[k].nodes && fid in states[k].nodes
    requires var l, f := states[k].nodes[lid], states[k].nodes[fid];
             && l.role.Leader? && f.term <= l.term && l.snapIndex <= f.snapIndex
             && (fid in l.next ==> l.snapIndex < l.next[fid])
    ensures Pair(states[k].nodes[lid], states[k].nodes[fid], fid)
  {
    hide Run, Inv, Pair, Agree, Matching, Sorted, AckOf;
    var s := states[k];
    RunInv(states, events, k);
    LeaderMatches(s, lid, fid);
    CommittedAtLeader(s, fid, s.nodes[lid].term);
    MatchIndexSound(states, events, k, lid, fid);
    IsPair(s.nodes[lid], s.nodes[fid], fid);
  }

  /** In a run, a request that is not of an older term never conflicts with what its receiver has committed: from the
      snapshot point up to the commit index it is accepted. The branch that rejects at the snapshot point for its term
      is never taken. */
  lemma NoConflictWithCommitted(states: seq<State>, events: seq<Event>, k: nat, m: Message)
    requires Run(states, events) && k < |states| && m in states[k].net && m.AppendRequest? && m.to in states[k].nodes
    requires m.term >= states[k].nodes[m.to].term
    ensures var n := states[k].nodes[m.to];
            && n.snapIndex <= n.commitIndex <= |n.log|
            && (m.prev <= n.commitIndex ==> m.prevTerm == TermAt(n.log, m.prev))
            && (n.snapIndex <= m.prev <= n.commitIndex ==> HandleAppendRequest(n, m).1.success)
  {
    hide Run, Inv, HandleAppendRequest, Sorted;
    var s := states[k];
    RunInv(states, events, k);
    RequestFacts(s, m);
    CommittedAtLeader(s, m.to, m.term);
    var n := s.nodes[m.to];
    if m.prev <= n.commitIndex {
      assert m.prev > 0 ==> n.log[m.prev - 1] == s.leaderLogs[m.term][m.prev - 1];
      if n.snapIndex <= m.prev {
        AcceptedInside(n, m);
      }
    }
  }

  lemma RequestFacts(s: State, m: Message)
    requires Inv(s) && m in s.net && m.AppendRequest?
    ensures m.term in s.leaderLogs && m.prev <= |s.leaderLogs[m.term]|
    ensures m.prevTerm == TermAt(s.leaderLogs[m.term], m.prev)
  {
    hide Inv, CommitOK;
    MessageAt(s, m);
  }

  lemma AcceptedInside(n: Node, m: Message)
    requires m.AppendRequest? && m.term >= n.term && n.snapIndex <= m.prev <= |n.log|
    requires m.prevTerm == TermAt(n.log, m.prev)
    ensures HandleAppendRequest(n, m).1.success
  {
    hide Merge, RunBefore;
    if m.prev == n.snapIndex {
      SnapshotPointMismatch(n, m);
    }
  }
}
