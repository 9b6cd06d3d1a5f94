/** Steps in which a leader log grows: winning an election and accepting a client's operation. */
module LeaderSteps {
  import opened Entries
  import opened Protocol
  import opened Cluster
  import opened Quorums
  import opened Invariant
  import opened Stability
  import opened QuietSteps
  import opened ElectionSteps

  /** `n` has become `n'`, a leader whose log has one more entry, of its own term. */
  ghost predicate AppendsOne(n: Node, n': Node) {
    && n'.role.Leader? && n'.term == n.term
    && |n'.log| == |n.log| + 1 && Extends(n.log, n'.log) && n'.log[|n.log|].term == n.term
    && n'.acks == n.acks[n.term := |n'.log|]
    && n'.cast == n.cast && n'.rounds == n.rounds && n'.live == n.live
    && n'.diskTerm == n.diskTerm && n'.diskVote == n.diskVote && n'.votedFor == n.votedFor
    && n'.snapIndex == n.snapIndex && n'.commitIndex == n.commitIndex
    && n'.lastApplied == n.lastApplied && n'.applied == n.applied
  }

  /** Only the node and the leader log of its term change. */
  ghost predicate AppendState(s: State, s': State, id: Id, n': Node) {
    && s'.nodes == s.nodes[id := n'] && s'.leaderLogs == s.leaderLogs[n'.term := n'.log]
    && s'.elected == s.elected + {(n'.term, id)}
    && s'.base == s.base && s'.members == s.members && s'.voters == s.voters && s'.commits == s.commits &&
         s'.net == s.net
  }

  /** The node is a leader, or has the votes to be the first one of its term. */
  ghost predicate Entitled(s: State, id: Id)
    requires id in s.nodes
  {
    var n := s.nodes[id];
    n.role.Leader? || (n.term >= 1 && n.term !in s.leaderLogs && id in s.voters &&
      Majority(s.voters, Supporters(s, n.term, id)))
  }

  ghost predicate Appending(s: State, s': State, id: Id) {
    && id in s.nodes && id in s'.nodes && Entitled(s, id)
    && AppendsOne(s.nodes[id], s'.nodes[id]) && AppendState(s, s', id, s'.nodes[id])
  }

  lemma AppendEvolves(s: State, id: Id, n: Node, n': Node)
    requires NodeOK(s, id, n) && AppendsOne(n, n')
    ensures Evolves(n, n')
  {
    if n.term in n.acks {
      assert n.acks[n.term] <= |n.log|;
    }
  }

  /** No leader's log loses anything when a node appends. */
  lemma AppendLeaderLogs(s: State, s': State, id: Id, t: nat)
    requires Appending(s, s', id) && LeaderOK(s, id, s.nodes[id]) && t in s.leaderLogs
    ensures t in s'.leaderLogs && Extends(s.leaderLogs[t], s'.leaderLogs[t])
    ensures s'.leaderLogs[t] == s.leaderLogs[t] || (t, id) in s.elected
  {
    if t == s.nodes[id].term {
      assert s.leaderLogs[t] == s.nodes[id].log && s'.leaderLogs[t] == s'.nodes[id].log;
    }
  }

  lemma AppendFrame(s: State, s': State, id: Id)
    requires Appending(s, s', id) && NodeOK(s, id, s.nodes[id])
    ensures ActsAlone(s, s', id) && Grows(s, s') && KeepsLog(s, s', id)
  {
    hide LocalOK, AcksOK, RoundsOK, LeaderOK, Entitled, Extends, Evolves;
    var n, n' := s.nodes[id], s'.nodes[id];
    AppendEvolves(s, id, n, n');
    forall q | q in s.nodes ensures Evolves(s.nodes[q], s'.nodes[q]) {
      EvolvesReflexive(s.nodes[q]);
    }
    assert s'.nodes.Keys == s.nodes.Keys;
    forall t | t in s.leaderLogs
      ensures t in s'.leaderLogs && Extends(s.leaderLogs[t], s'.leaderLogs[t])
      ensures s'.leaderLogs[t] == s.leaderLogs[t] || (t, id) in s.elected
    {
      AppendLeaderLogs(s, s', id, t);
    }
  }

  /** A log of terms up to `t`, followed by one entry of term `t`. */
  lemma SortedAppend(l: Log, l': Log, t: nat)
    requires Sorted(l) && Extends(l, l') && |l'| == |l| + 1 && l'[|l|].term == t
    requires forall k :: 0 <= k < |l| ==> l[k].term <= t
    ensures Sorted(l') && forall k :: 0 <= k < |l'| ==> l'[k].term <= t
  {
  }

  lemma LogOKAppend(s: State, s': State, l: Log, l': Log, t: nat)
    requires Grows(s, s') && LogOK(s.base, s.leaderLogs, l) && t in s'.leaderLogs && s'.leaderLogs[t] == l'
    requires Extends(l, l') && |l'| == |l| + 1 && l'[|l|].term == t && Sorted(l')
    ensures LogOK(s'.base, s'.leaderLogs, l')
  {
    LogOKStays(s, s', l);
    forall k | 1 <= k < |l'| ensures l'[k].term in s'.leaderLogs && Agree(l', s'.leaderLogs[l'[k].term], k + 1) {
      if k < |l| {
        assert l'[k] == l[k] && Agree(l, s'.leaderLogs[l[k].term], k + 1);
      }
    }
  }

  lemma AppendedLogOK(s: State, s': State, id: Id)
    requires Appending(s, s', id) && NodeOK(s, id, s.nodes[id]) && HistoryOK(s) && s.base.term == 1
    requires Grows(s, s')
    ensures LeaderLogOK(s', s'.nodes[id].term)
    ensures forall k :: 1 <= k < |s'.nodes[id].log| ==> s'.nodes[id].log[k].term <= s'.nodes[id].term
  {
    var n, n' := s.nodes[id], s'.nodes[id];
    assert n.term >= 1 && forall k :: 0 <= k < |n.log| ==> n.log[k].term <= n.term by {
      if n.role.Leader? {
        assert LeaderLogOK(s, n.term);
      }
    }
    SortedAppend(n.log, n'.log, n.term);
    LogOKAppend(s, s', n.log, n'.log, n.term);
  }

  lemma AppendHistoryOK(s: State, s': State, id: Id)
    requires Appending(s, s', id) && NodeOK(s, id, s.nodes[id]) && HistoryOK(s) && s.base.term == 1
    requires Grows(s, s')
    ensures HistoryOK(s')
  {
    AppendedLogOK(s, s', id);
    forall t | t in s'.leaderLogs ensures LeaderLogOK(s', t) {
      if t != s'.nodes[id].term {
        assert LeaderLogOK(s, t);
        LogOKStays(s, s', s.leaderLogs[t]);
      }
    }
  }

  lemma AppendElected(s: State, s': State, id: Id, p: (nat, Id))
    requires Appending(s, s', id) && id in s.voters && s.voters == s'.voters && ElectedOK(s) && Grows(s, s')
    requires p in s'.elected
    requires Majority(s.voters, Supporters(s, s.nodes[id].term, id))
    ensures p.0 in s'.leaderLogs && p.1 in s'.nodes && p.1 in s'.voters
    ensures Majority(s'.voters, Supporters(s', p.0, p.1)) && p.0 <= s'.nodes[p.1].term
  {
    hide Majority, Supporters, Extends, Entitled, ActsAlone;
    SupportersGrow(s, s', p.0, p.1);
    assert Evolves(s.nodes[p.1], s'.nodes[p.1]);
  }

  /** A node that may append for its term has the votes of a majority. */
  lemma EntitledHasMajority(s: State, id: Id)
    requires ElectedOK(s) && id in s.nodes && Entitled(s, id) && LeaderOK(s, id, s.nodes[id])
    ensures id in s.voters && Majority(s.voters, Supporters(s, s.nodes[id].term, id))
  {
    hide Majority, Supporters;
    if s.nodes[id].role.Leader? {
      assert (s.nodes[id].term, id) in s.elected;
      assert (s.nodes[id].term, id).1 in s.voters;
    }
  }

  lemma AppendElectedOK(s: State, s': State, id: Id)
    requires Appending(s, s', id) && NodeOK(s, id, s.nodes[id]) && ElectedOK(s)
    requires Grows(s, s')
    ensures ElectedOK(s')
  {
    hide Majority, Supporters, LocalOK, AcksOK, RoundsOK, LeaderOK, Entitled, Grows;
    EntitledHasMajority(s, id);
    forall p | p in s'.elected
      ensures p.0 in s'.leaderLogs && p.1 in s'.nodes && p.1 in s'.voters
      ensures Majority(s'.voters, Supporters(s', p.0, p.1)) && p.0 <= s'.nodes[p.1].term
    {
      AppendElected(s, s', id, p);
    }
    forall t | t in s'.leaderLogs ensures exists l :: (t, l) in s'.elected {
      if t == s'.nodes[id].term {
        assert (t, id) in s'.elected;
      } else {
        var l :| (t, l) in s.elected;
        assert (t, l) in s'.elected;
      }
    }
  }

  lemma ElectedMajority(s: State, w: nat) returns (l: Id)
    requires ElectedOK(s) && w in s.leaderLogs
    ensures Majority(s.voters, Supporters(s, w, l))
  {
    l :| (w, l) in s.elected;
    assert Majority(s.voters, Supporters(s, (w, l).0, (w, l).1));
  }

  lemma MayCommitMajority(s: State, t: nat, i: nat)
    requires MayCommit(s, t, i)
    ensures Majority(s.voters, Possible(s, t, i))
  {
  }

  /** Who supported a later leader can no longer take over an entry that is only now appended. */
  lemma LateVoter(s: State, s': State, id: Id, w: nat, l: Id, q: Id)
    requires Appending(s, s', id) && w > s.nodes[id].term && q in Supporters(s, w, l)
    requires NodeOK(s, q, s.nodes[q]) && NodeOK(s, id, s.nodes[id])
    ensures q !in Possible(s', s.nodes[id].term, |s.nodes[id].log| + 1)
  {
    assert (w, l).0 <= s.nodes[q].term;
    assert q != id && s'.nodes[q] == s.nodes[q];
    var t := s.nodes[id].term;
    if t in s.nodes[q].acks {
      assert s.nodes[q].acks[t] <= |s.leaderLogs[t]|;
    }
  }

  lemma NewEntryCannotCommit(s: State, s': State, id: Id, w: nat)
    requires Inv(s) && Appending(s, s', id) && id in s.nodes && w in s.leaderLogs && w > s.nodes[id].term
    requires s'.voters == s.voters
    ensures !MayCommit(s', s.nodes[id].term, |s.nodes[id].log| + 1)
  {
    hide *;
    var t, i := s.nodes[id].term, |s.nodes[id].log| + 1;
    PartsOf(s);
    var l := ElectedMajority(s, w);
    if MayCommit(s', t, i) {
      MayCommitMajority(s', t, i);
      var q := MajoritiesIntersect(s.voters, Supporters(s, w, l), Possible(s', t, i));
      SupportersAreNodes(s, w, l, q);
      NodeAt(s, q);
      NodeAt(s, id);
      LateVoter(s, s', id, w, l, q);
    }
  }

  lemma SupportersAreNodes(s: State, w: nat, l: Id, q: Id)
    requires q in Supporters(s, w, l)
    ensures q in s.nodes
  {
  }

  lemma SupporterPassedOn(s: State, n: Node, q: Id, t: nat, id: Id, u: nat, i: nat)
    requires q in s.nodes && n == s.nodes[q] && NodeOK(s, q, n) && BallotsOK(s, n)
    requires q in Supporters(s, t, id) && q in Possible(s, u, i) && MayCommit(s, u, i) && u < t
    requires id in s.nodes && t == s.nodes[id].term && t !in s.leaderLogs
    ensures Agree(s.nodes[id].log, s.leaderLogs[u], i)
  {
    assert (t, id).0 <= n.term;
    assert BallotOK(s, n, (t, id).0, (t, id).1);
  }

  lemma BallotsAt(s: State, q: Id)
    requires Inv(s) && q in s.nodes
    ensures BallotsOK(s, s.nodes[q])
  {
  }

  /** An elected candidate's log holds everything that may be committed in an earlier term. */
  lemma WinnerIsComplete(s: State, id: Id, u: nat, i: nat)
    requires Inv(s) && id in s.nodes && s.nodes[id].term !in s.leaderLogs && u in s.leaderLogs
    requires Majority(s.voters, Supporters(s, s.nodes[id].term, id)) && MayCommit(s, u, i) && u < s.nodes[id].term
    ensures Agree(s.nodes[id].log, s.leaderLogs[u], i)
  {
    hide *;
    var t := s.nodes[id].term;
    MayCommitMajority(s, u, i);
    var q := MajoritiesIntersect(s.voters, Supporters(s, t, id), Possible(s, u, i));
    SupportersAreNodes(s, t, id, q);
    NodeAt(s, q);
    BallotsAt(s, q);
    SupporterPassedOn(s, s.nodes[q], q, t, id, u, i);
  }

  /** Before it appends, the leader's log already holds what an earlier term may have committed. */
  lemma LeaderHasEarlier(s: State, id: Id, u: nat, i: nat)
    requires Inv(s) && id in s.nodes && Entitled(s, id) && MayCommit(s, u, i) && u in s.leaderLogs
    requires u < s.nodes[id].term
    ensures Agree(s.nodes[id].log, s.leaderLogs[u], i)
  {
    hide MayCommit, Agree;
    NodeAt(s, id);
    if !s.nodes[id].role.Leader? {
      WinnerIsComplete(s, id, u, i);
    }
  }

  lemma AppendCompletenessBefore(s: State, s': State, id: Id, u: nat, i: nat)
    requires Inv(s) && Appending(s, s', id) && Grows(s, s')
    requires MayCommit(s', u, i) && u < s.nodes[id].term
    ensures Agree(s'.leaderLogs[s.nodes[id].term], s'.leaderLogs[u], i)
  {
    hide Inv, MayCommit, Entitled;
    MayCommitEarlier(s, s', id, u, i);
    LeaderHasEarlier(s, id, u, i);
    assert Extends(s.nodes[id].log, s'.nodes[id].log);
  }

  lemma MayCommitEarlier(s: State, s': State, id: Id, u: nat, i: nat)
    requires Appending(s, s', id) && Grows(s, s') && MayCommit(s', u, i) && u < s.nodes[id].term
    ensures u in s.leaderLogs && s'.leaderLogs[u] == s.leaderLogs[u] && MayCommit(s, u, i)
    ensures s'.nodes[id].term == s.nodes[id].term && s.nodes[id].term in s'.leaderLogs
    ensures s'.leaderLogs[s.nodes[id].term] == s'.nodes[id].log
  {
    MayCommitBack(s, s', u, i);
  }

  /** The first entry is the same everywhere. */
  lemma FirstEntryEverywhere(s: State, s': State, id: Id, w: nat)
    requires HistoryOK(s) && Appending(s, s', id) && LocalOK(s, s.nodes[id]) && w in s.leaderLogs
    ensures Agree(s.leaderLogs[w], s'.nodes[id].log, 1)
  {
    assert LeaderLogOK(s, w);
    assert Extends(s.nodes[id].log, s'.nodes[id].log);
  }

  /** A node that is not yet leader of its term has no entry of its term. */
  lemma NoEntryOfOwnTerm(s: State, id: Id, i: nat)
    requires id in s.nodes && LocalOK(s, s.nodes[id]) && 2 <= i <= |s.nodes[id].log|
    requires s.nodes[id].log[i - 1].term == s.nodes[id].term
    ensures s.nodes[id].term in s.leaderLogs
  {
  }

  lemma AppendCompletenessAfter(s: State, s': State, id: Id, w: nat, i: nat)
    requires HistoryOK(s) && Completeness(s) && Appending(s, s', id) && Grows(s, s') && NodeOK(s, id, s.nodes[id])
    requires MayCommit(s', s.nodes[id].term, i) && w in s'.leaderLogs && w > s.nodes[id].term && i <= |s.nodes[id].log|
    ensures Agree(s'.leaderLogs[w], s'.leaderLogs[s.nodes[id].term], i)
  {
    hide HistoryOK, LocalOK, AcksOK, RoundsOK, Majority, Grows;
    var n := s.nodes[id];
    assert w in s.leaderLogs && s'.leaderLogs[w] == s.leaderLogs[w];
    assert s'.leaderLogs[n.term] == s'.nodes[id].log && Extends(n.log, s'.nodes[id].log);
    if i == 1 {
      FirstEntryEverywhere(s, s', id, w);
    } else {
      NoEntryOfOwnTerm(s, id, i);
      MayCommitBack(s, s', n.term, i);
    }
  }

  lemma AppendCompletenessElsewhere(s: State, s': State, id: Id, u: nat, w: nat, i: nat)
    requires Completeness(s) && Appending(s, s', id) && Grows(s, s')
    requires MayCommit(s', u, i) && w in s'.leaderLogs && u < w && u != s.nodes[id].term && w != s.nodes[id].term
    ensures Agree(s'.leaderLogs[w], s'.leaderLogs[u], i)
  {
    MayCommitBack(s, s', u, i);
  }

  lemma AppendCompletenessHere(s: State, s': State, id: Id, w: nat, i: nat)
    requires Inv(s) && Appending(s, s', id) && Grows(s, s')
    requires MayCommit(s', s.nodes[id].term, i) && w in s'.leaderLogs && s.nodes[id].term < w
    ensures Agree(s'.leaderLogs[w], s'.leaderLogs[s.nodes[id].term], i)
  {
    hide Inv, Grows, NodeOK, Completeness, HistoryOK;
    PartsOf(s);
    NodeAt(s, id);
    AppendShape(s, s', id, w);
    if i == |s.nodes[id].log| + 1 {
      NewEntryCannotCommit(s, s', id, w);
    }
    AppendCompletenessAfter(s, s', id, w, i);
  }

  lemma AppendShape(s: State, s': State, id: Id, w: nat)
    requires Appending(s, s', id) && w in s'.leaderLogs && s.nodes[id].term < w
    ensures w in s.leaderLogs && s'.voters == s.voters && s.nodes[id].term in s'.leaderLogs
    ensures |s'.leaderLogs[s.nodes[id].term]| == |s.nodes[id].log| + 1
  {
  }

  lemma AppendCompleteness(s: State, s': State, id: Id)
    requires Inv(s) && Appending(s, s', id) && Grows(s, s')
    ensures Completeness(s')
  {
    hide Inv, Grows, Appending, MayCommit, Agree;
    PartsOf(s);
    assert id in s.nodes by {
      AppendingNode(s, s', id);
    }
    var t := s.nodes[id].term;
    forall u: nat, w: nat, i: nat | MayCommit(s', u, i) && w in s'.leaderLogs && u < w
      ensures u in s'.leaderLogs && Agree(s'.leaderLogs[w], s'.leaderLogs[u], i)
    {
      MayCommitIn(s', u, i);
      if u == t {
        AppendCompletenessHere(s, s', id, w, i);
      } else if w == t {
        AppendCompletenessBefore(s, s', id, u, i);
      } else {
        AppendCompletenessElsewhere(s, s', id, u, w, i);
      }
    }
  }

  lemma MayCommitIn(s: State, u: nat, i: nat)
    requires MayCommit(s, u, i)
    ensures u in s.leaderLogs
  {
  }

  lemma AppendingNode(s: State, s': State, id: Id)
    requires Appending(s, s', id)
    ensures id in s.nodes
  {
  }

  lemma AppendCommitsOK(s: State, s': State)
    requires CommitsOK(s) && Grows(s, s') && s'.commits == s.commits
    ensures CommitsOK(s')
  {
    forall w | w in s'.commits ensures Committed(s', w.0, w.1) {
      CommittedStays(s, s', w.0, w.1);
    }
  }

  lemma AppendLocalOK(s: State, s': State, id: Id)
    requires Appending(s, s', id) && NodeOK(s, id, s.nodes[id]) && Grows(s, s') && LeaderLogOK(s', s'.nodes[id].term)
    requires forall k :: 1 <= k < |s'.nodes[id].log| ==> s'.nodes[id].log[k].term <= s'.nodes[id].term
    ensures LocalOK(s', s'.nodes[id])
  {
    hide AcksOK, RoundsOK, LeaderOK, Grows, Entitled, Majority;
    var n, n' := s.nodes[id], s'.nodes[id];
    CommitOKStays(s, s', n.log, n.commitIndex, n.term, n.term);
    if n'.commitIndex > 0 {
      var w :| w in s'.commits && w.0 <= n.term && n.commitIndex <= w.1 && w.0 in s'.leaderLogs
               && Agree(n.log, s'.leaderLogs[w.0], n.commitIndex);
      assert Agree(n'.log, s'.leaderLogs[w.0], n.commitIndex);
    }
    assert n'.log[..n.lastApplied] == n.log[..n.lastApplied];
  }

  lemma AppendRetains(s: State, s': State, id: Id)
    requires Appending(s, s', id) && AcksOK(s, s.nodes[id]) && Grows(s, s')
    ensures Retains(s', s'.nodes[id])
  {
    hide LogOK, Entitled, Agree;
    var n, n' := s.nodes[id], s'.nodes[id];
    forall u: nat, i: nat | MayCommit(s', u, i) && AckOf(n', u) >= i ensures Agree(n'.log, s'.leaderLogs[u], i) {
      AppendedAgree(s, s', id, u, i);
    }
  }

  lemma AppendedAgree(s: State, s': State, id: Id, u: nat, i: nat)
    requires Appending(s, s', id) && AcksOK(s, s.nodes[id]) && Grows(s, s')
    requires MayCommit(s', u, i) && AckOf(s'.nodes[id], u) >= i
    ensures Agree(s'.nodes[id].log, s'.leaderLogs[u], i)
  {
    var n := s.nodes[id];
    if u != n.term {
      assert u in n.acks;
      MayCommitBack(s, s', u, i);
      assert Agree(n.log, s.leaderLogs[u], i);
    }
  }

  lemma AppendAcksOK(s: State, s': State, id: Id)
    requires Appending(s, s', id) && NodeOK(s, id, s.nodes[id]) && Grows(s, s')
    ensures AcksOK(s', s'.nodes[id])
  {
    hide Retains, LocalOK, RoundsOK, LeaderOK, Grows;
    AppendRetains(s, s', id);
    AppendedAcks(s, s', id);
  }

  lemma AppendedAcks(s: State, s': State, id: Id)
    requires Appending(s, s', id) && AcksOK(s, s.nodes[id])
    ensures var n := s'.nodes[id];
            && (forall t :: t in n.acks ==> t <= n.term && t in s'.leaderLogs && n.acks[t] <= |s'.leaderLogs[t]|)
            && (n.term in n.acks ==> Agree(n.log, s'.leaderLogs[n.term], n.acks[n.term]))
  {
    hide Retains, LogOK, Entitled;
  }

  lemma AppendNodeOK(s: State, s': State, id: Id)
    requires Appending(s, s', id) && NodeOK(s, id, s.nodes[id]) && Grows(s, s') && LeaderLogOK(s', s'.nodes[id].term)
    requires forall k :: 1 <= k < |s'.nodes[id].log| ==> s'.nodes[id].log[k].term <= s'.nodes[id].term
    requires LeaderOK(s', id, s'.nodes[id])
    ensures NodeOK(s', id, s'.nodes[id])
  {
    var n, n' := s.nodes[id], s'.nodes[id];
    AppendLocalOK(s, s', id);
    AppendAcksOK(s, s', id);
    forall r | 0 <= r < |n'.rounds| ensures RoundOK(s', id, n', n'.rounds[r]) {
      RoundOKStays(s, s', id, n, n.rounds[r]);
    }
  }

  lemma AppendStep(s: State, s': State, id: Id)
    requires Inv(s) && id in s.nodes && id in s'.nodes && Appending(s, s', id) && LeaderOK(s', id, s'.nodes[id])
    requires s'.nodes[id].cast == s.nodes[id].cast && s'.net == s.net && s'.commits == s.commits
    ensures Inv(s') && Grows(s, s')
  {
    hide *;
    NodeAt(s, id);
    PartsOf(s);
    AppendFrame(s, s', id);
    ShapeStays(s, s');
    AppendHistoryOK(s, s', id);
    AppendedLogOK(s, s', id);
    AppendElectedOK(s, s', id);
    AppendCompleteness(s, s', id);
    AppendCommitsOK(s, s');
    OtherNodesStay(s, s', id);
    AppendNodeOK(s, s', id);
    NodesOf(s', id);
    BallotsStay(s, s', id, {});
    NetStays(s, s', id);
    InvOf(s');
  }

  lemma ShapeStays(s: State, s': State)
    requires Shape(s) && Grows(s, s')
    ensures Shape(s') && s.base.term == 1
  {
  }

  lemma SubmitAppendsOne(n: Node, data: seq<Byte>, ticket: nat)
    requires n.role.Leader?
    ensures AppendsOne(n, Submit(n, data, ticket))
  {
  }

  lemma SubmitAppends(s: State, s': State, id: Id, data: seq<Byte>)
    requires Enabled(s, ClientSubmit(id, data)) && s' == Next(s, ClientSubmit(id, data))
    ensures Appending(s, s', id) && s'.nodes[id].cast == s.nodes[id].cast && s'.net == s.net && s'.commits == s.commits
    ensures s'.nodes == s.nodes[id := Submit(s.nodes[id], data, |s.submitted|)]
  {
    hide AppendsOne;
    SubmitAppendsOne(s.nodes[id], data, |s.submitted|);
  }

  lemma SubmitLeaderOK(s: State, s': State, id: Id, data: seq<Byte>)
    requires Grows(s, s') && id in s.nodes && s.nodes[id].role.Leader? && NodeOK(s, id, s.nodes[id])
    requires Appending(s, s', id) && s'.nodes[id] == Submit(s.nodes[id], data, |s.submitted|)
    ensures LeaderOK(s', id, s'.nodes[id])
  {
    var n, n' := s.nodes[id], s'.nodes[id];
    forall f | f in n'.matched && f in s'.nodes ensures n'.matched[f] <= AckOf(s'.nodes[f], n'.term) {
      assert Evolves(s.nodes[f], s'.nodes[f]);
    }
  }

  lemma PreserveSubmit(s: State, id: Id, data: seq<Byte>)
    requires Inv(s) && id in s.nodes && s.nodes[id].role.Leader? && Enabled(s, ClientSubmit(id, data))
    ensures var s' := Next(s, ClientSubmit(id, data)); Inv(s') && Grows(s, s')
  {
    hide *;
    var s' := Next(s, ClientSubmit(id, data));
    NodeAt(s, id);
    SubmitAppends(s, s', id, data);
    AppendFrame(s, s', id);
    SubmitLeaderOK(s, s', id, data);
    AppendStep(s, s', id);
  }

  /** The granted votes of a round and the candidate's own are votes for it in the round's term. */
  lemma RoundIsSupport(s: State, id: Id, n: Node, r: Round)
    requires s.voters <= s.nodes.Keys && id in s.nodes && n == s.nodes[id] && RoundOK(s, id, n, r) && !r.prevote
    requires HasQuorum(s.voters, 1 + |r.granted|)
    ensures Majority(s.voters, Supporters(s, r.term, id))
  {
    var q := r.granted + {id};
    assert |q| == 1 + |r.granted|;
    assert q <= Supporters(s, r.term, id);
    MajorityGrows(s.voters, q, Supporters(s, r.term, id));
  }

  lemma SameCandidate(s: State, t: nat, a: Id, b: Id, q: Id)
    requires q in Supporters(s, t, a) && q in Supporters(s, t, b) && q in s.nodes && NodeOK(s, q, s.nodes[q])
    ensures a == b
  {
  }

  lemma LiveRoundNotElected(s: State, id: Id, n: Node, r: nat)
    requires NodeOK(s, id, n) && !n.role.Leader? && n.live <= r < |n.rounds| && !n.rounds[r].prevote
    requires n.rounds[r].term == n.term
    ensures (n.term, id) !in s.elected && n.term >= 1 && id in s.voters && RoundOK(s, id, n, n.rounds[r])
  {
  }

  lemma ElectedIn(s: State, t: nat) returns (l: Id)
    requires ElectedOK(s) && t in s.leaderLogs
    ensures (t, l) in s.elected && Majority(s.voters, Supporters(s, t, l))
  {
    l :| (t, l) in s.elected;
    assert Majority(s.voters, Supporters(s, (t, l).0, (t, l).1));
  }

  lemma VotersAreNodes(s: State)
    requires Shape(s)
    ensures s.voters <= s.nodes.Keys
  {
  }

  /** A candidate with a quorum in its current term's round is the first leader of that term. */
  lemma WinnerEntitled(s: State, id: Id, r: nat)
    requires Inv(s) && id in s.nodes
    requires var n := s.nodes[id];
             && !n.role.Leader? && n.live <= r < |n.rounds| && !n.rounds[r].prevote && n.rounds[r].term == n.term
             && HasQuorum(s.voters, 1 + |n.rounds[r].granted|)
    ensures var n := s.nodes[id];
            n.term >= 1 && n.term !in s.leaderLogs && id in s.voters && Majority(s.voters, Supporters(s, n.term, id))
  {
    hide *;
    var n := s.nodes[id];
    PartsOf(s);
    VotersAreNodes(s);
    NodeAt(s, id);
    LiveRoundNotElected(s, id, n, r);
    RoundIsSupport(s, id, n, n.rounds[r]);
    if n.term in s.leaderLogs {
      var l := ElectedIn(s, n.term);
      var q := MajoritiesIntersect(s.voters, Supporters(s, n.term, l), Supporters(s, n.term, id));
      SupportersAreNodes(s, n.term, id, q);
      NodeAt(s, q);
      SameCandidate(s, n.term, l, id, q);
    }
  }

  lemma BecomeLeaderAppends(s: State, s': State, id: Id)
    requires id in s.nodes && Entitled(s, id)
    requires s' == Update(s, id, BecomeLeader(s.nodes[id], s.members), {})
    ensures Appending(s, s', id) && s'.nodes[id].cast == s.nodes[id].cast && s'.net == s.net && s'.commits == s.commits
    ensures s'.nodes == s.nodes[id := BecomeLeader(s.nodes[id], s.members)] && s'.members == s.members
  {
    assert AppendsOne(s.nodes[id], BecomeLeader(s.nodes[id], s.members));
  }

  lemma NewLeaderOK(s: State, s': State, id: Id)
    requires id in s.nodes && id in s'.nodes && s'.nodes[id] == BecomeLeader(s.nodes[id], s.members)
    requires Appending(s, s', id) && s'.members == s.members
    ensures LeaderOK(s', id, s'.nodes[id])
  {
  }

  lemma EntitledByVotes(s: State, id: Id)
    requires id in s.nodes
    requires var n := s.nodes[id];
             n.term >= 1 && n.term !in s.leaderLogs && id in s.voters && Majority(s.voters, Supporters(s, n.term, id))
    ensures Entitled(s, id)
  {
  }

  lemma PreserveWin(s: State, s': State, id: Id, r: nat)
    requires Inv(s) && id in s.nodes
    requires var n := s.nodes[id];
             && !n.role.Leader? && n.live <= r < |n.rounds| && !n.rounds[r].prevote && n.rounds[r].term == n.term
             && HasQuorum(s.voters, 1 + |n.rounds[r].granted|)
    requires s' == Update(s, id, BecomeLeader(s.nodes[id], s.members), {})
    ensures Inv(s') && Grows(s, s')
  {
    hide *;
    WinnerEntitled(s, id, r);
    EntitledByVotes(s, id);
    BecomeLeaderAppends(s, s', id);
    NewLeaderOK(s, s', id);
    AppendStep(s, s', id);
  }

  /** What a winning vote makes of the node. */
  lemma WinNode(s: State, m: Message)
    requires Enabled(s, OnVoteResponse(m)) && Wins(s, m)
    ensures var n := s.nodes[m.to];
            HandleVoteResponse(n, s.members, s.voters, m) ==
              BecomeLeader(CountVote(n, m).(role := Candidate), s.members)
  {
    hide BecomeLeader, HasQuorum;
  }

  lemma WinRound(s: State, m: Message)
    requires Enabled(s, OnVoteResponse(m)) && Wins(s, m) && MessageOK(s, m) && RoundsOK(s, m.to, s.nodes[m.to])
    ensures var n := s.nodes[m.to];
            var c := CountVote(n, m).(role := Candidate);
            && c.live <= m.round < |c.rounds| && !c.rounds[m.round].prevote && c.rounds[m.round].term == c.term
  {
    hide HandleVoteResponse, BecomeLeader, HasQuorum;
    assert RoundOK(s, m.to, s.nodes[m.to], s.nodes[m.to].rounds[m.round]);
  }

  lemma WinOutcome(s: State, m: Message)
    requires Enabled(s, OnVoteResponse(m)) && Wins(s, m) && MessageOK(s, m) && NodeOK(s, m.to, s.nodes[m.to])
    ensures var n := s.nodes[m.to];
            var c := CountVote(n, m).(role := Candidate);
            var s1 := Update(s, m.to, c, {});
            && Becomes(s, s1, m.to, c, {}) && s1.nodes == s.nodes[m.to := c] && s1.members == s.members &&
                 s1.voters == s.voters
            && Next(s, OnVoteResponse(m)) == Update(s1, m.to, BecomeLeader(c, s.members), {})
            && !n.role.Leader? && c.cast == n.cast && c.term == n.term && c.log == n.log
            && c.live <= m.round < |c.rounds| && !c.rounds[m.round].prevote && c.rounds[m.round].term == c.term
            && HasQuorum(s.voters, 1 + |c.rounds[m.round].granted|)
  {
    hide LocalOK, AcksOK, RoundsOK, LeaderOK, MessageOK, HandleVoteResponse, BecomeLeader;
    var n := s.nodes[m.to];
    WinNode(s, m);
    WinRound(s, m);
    var c := CountVote(n, m).(role := Candidate);
    assert s.nodes[m.to := c][m.to := BecomeLeader(c, s.members)] == s.nodes[m.to := BecomeLeader(c, s.members)];
    LeaderIsLeader(c, s.members);
  }

  lemma LeaderIsLeader(n: Node, members: set<Id>)
    ensures BecomeLeader(n, members).role.Leader? && BecomeLeader(n, members).term == n.term
  {
  }

  lemma CountVoteRole(n: Node, m: Message)
    requires m.VoteResponse? && m.round < |n.rounds|
    ensures CountVote(n, m).role == n.role
  {
  }

  lemma PreserveWinningVote(s: State, m: Message)
    requires Inv(s) && m.VoteResponse? && m in s.net && m.to in s.nodes && m.round < |s.nodes[m.to].rounds|
    requires Enabled(s, OnVoteResponse(m)) && Wins(s, m)
    ensures var s' := Next(s, OnVoteResponse(m)); Inv(s') && Grows(s, s')
  {
    hide *;
    var n := s.nodes[m.to];
    var n1 := CountVote(n, m);
    var c := n1.(role := Candidate);
    var s1 := Update(s, m.to, c, {});
    var s' := Next(s, OnVoteResponse(m));
    NodeAt(s, m.to);
    MessageAt(s, m);
    WinOutcome(s, m);
    CountVoteOK(s, m, n);
    CountVoteRole(n, m);
    RoleChangeOK(s, m.to, n1, Candidate);
    EvolvesTransitive(n, n1, c);
    QuietStep(s, s1, m.to, c, {});
    PreserveWin(s1, s', m.to, m.round);
    GrowsTransitive(s, s1, s');
  }
}
