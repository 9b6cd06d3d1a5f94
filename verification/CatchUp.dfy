/** Snapshots do their work: they are installed where they are missing, a follower that is behind the leader's snapshot
    catches up through one, and a restarted node resumes from its own. */
module CatchUp {
  import opened Entries
  import opened Protocol
  import opened Cluster
  import opened Invariant
  import opened Stability
  import opened QuietSteps
  import opened ReplicationSteps
  import opened FollowerSteps
  import opened Safety
  import opened Repair
  import opened NodeInCluster
  import opened Progress
  import Clients

  // --- joining the leader ---

  lemma FollowLeaderRole(n: Node, t: nat)
    requires t >= n.term
    ensures FollowLeader(n, t).role.Follower? || (t == n.term && n.role.Leader? && FollowLeader(n, t) == n)
    ensures FollowLeader(n, t).log == n.log && FollowLeader(n, t).applied == n.applied
    ensures FollowLeader(n, t).snapIndex == n.snapIndex && FollowLeader(n, t).lastApplied == n.lastApplied
    ensures FollowLeader(n, t).commitIndex == n.commitIndex && FollowLeader(n, t).term == t
  {
  }

  lemma RequestFollows(n: Node, m: Message, complete: bool)
    ensures m.AppendRequest? && n.snapIndex <= |n.log| && m.term >= n.term ==>
              var n1 := FollowLeader(n, m.term);
              HandleAppendRequest(n, m).0.role == n1.role && HandleAppendRequest(n, m).0.term == n1.term
    ensures m.SnapRequest? && m.term >= n.term ==>
              var n1 := FollowLeader(n, m.term);
              HandleSnapRequest(n, m, complete).0.role == n1.role && HandleSnapRequest(n, m, complete).0.term == n1.term
  {
    hide Check, Merge, FollowLeader;
  }

  /** Whoever hears from the leader of its term or a later one is then a follower of that term, also when it rejects the
      request. */
  lemma HeardLeader(states: seq<State>, events: seq<Event>, k: nat)
    requires Run(states, events) && k < |events| && (events[k].OnAppendRequest? || events[k].OnSnapRequest?)
    ensures var m := events[k].m;
            && m.to in states[k].nodes && m.to in states[k + 1].nodes
            && var n, n' := states[k].nodes[m.to], states[k + 1].nodes[m.to];
               if m.term >= n.term then n'.role.Follower? && n'.term == m.term else n' == n
  {
    hide *;
    StepOfRun(states, events, k);
    RunInv(states, events, k);
    var s, t, m := states[k], states[k + 1], events[k].m;
    var complete := if events[k].OnSnapRequest? then events[k].complete else true;
    RequestReceiver(s, events[k], t);
    RequestStepMoves(s, events[k], t, m.to);
    Clients.RequestPending(s.nodes[m.to], m, complete);
    if m.term >= s.nodes[m.to].term {
      MessageAt(s, m);
      Clients.RequestFrom(s, m);
      FollowLeaderRole(s.nodes[m.to], m.term);
      RequestFollows(s.nodes[m.to], m, complete);
      if m.term == s.nodes[m.to].term {
        ReceiverIsNotLeader(s, m.to, m.from, m.term);
      }
    }
  }

  lemma StepOfRun(states: seq<State>, events: seq<Event>, k: nat)
    requires Run(states, events) && k < |events|
    ensures |states| == |events| + 1 && Step(states[k], events[k], states[k + 1])
  {
  }

  lemma RequestReceiver(s: State, e: Event, t: State)
    requires Step(s, e, t) && (e.OnAppendRequest? || e.OnSnapRequest?)
    ensures e.m in s.net && e.m.to in s.nodes && e.m.to in t.nodes
  {
  }

  // --- installing a snapshot ---

  /** Whether nothing in the snapshot is new to the receiver, by its own snapshot or by what it has applied. */
  predicate Covers(n: Node, m: Message)
    requires m.SnapRequest?
  {
    n.snapIndex >= m.index || n.lastApplied >= m.index
  }

  /** Whether the receiver has the snapshot's entries already, covered or in its log. */
  predicate HasSnapshot(n: Node, m: Message)
    requires m.SnapRequest?
  {
    Covers(n, m) || (1 <= m.index <= |n.log| && n.log[m.index - 1].term == m.lastTerm)
  }

  /** What a chunk of a snapshot does to a node. */
  lemma ChunkOutcome(n: Node, m: Message, complete: bool)
    requires m.SnapRequest? && m.term >= n.term && m.index >= 1
    ensures var (n', y) := HandleSnapRequest(n, m, complete);
            && y == SnapResponse(m.to, m.from, m.term, m.index, m.term, complete || Covers(n, m)) && n'.term == m.term
            && if HasSnapshot(n, m) || !complete
               then n'.log == n.log && n'.applied == n.applied && n'.snapIndex == n.snapIndex
                    && n'.lastApplied == n.lastApplied && n'.commitIndex == n.commitIndex
               else n'.log == n'.applied == m.content && n'.snapIndex == n'.lastApplied == n'.commitIndex == m.index
  {
    hide FollowLeader;
    FollowLeaderRole(n, m.term);
  }

  lemma HasAgrees(s: State, m: Message)
    requires Inv(s) && m in s.net && m.SnapRequest? && m.to in s.nodes && m.term >= s.nodes[m.to].term
    ensures m.index >= 1 && |m.content| == m.index
    ensures HasSnapshot(s.nodes[m.to], m) ==> Agree(s.nodes[m.to].log, m.content, m.index)
  {
    hide *;
    var n := s.nodes[m.to];
    MessageAt(s, m);
    SnapRequestFacts(s, m);
    if HasSnapshot(n, m) {
      var n1 := FollowLeader(n, m.term);
      FollowLeaderRole(n, m.term);
      FollowLeaderOK(s, m.to, m.from, m.term);
      NodeParts(s, m.to, n1);
      PartsOf(s);
      SameSnapshot(n, n1, m);
      CoversSnapshot(s, n1, m);
      AgreesWithContent(s.leaderLogs[m.term], m, n.log);
    }
  }

  lemma SameSnapshot(n: Node, n1: Node, m: Message)
    requires m.SnapRequest? && HasSnapshot(n, m)
    requires n1.log == n.log && n1.snapIndex == n.snapIndex && n1.lastApplied == n.lastApplied
    ensures n1.snapIndex >= m.index || n1.lastApplied >= m.index ||
            (m.index <= |n1.log| && n1.log[m.index - 1].term == m.lastTerm)
  {
  }

  lemma AgreesWithContent(leader: Log, m: Message, l: Log)
    requires m.SnapRequest? && m.index <= |leader| && m.content == leader[..m.index] && Adopts(l, leader, m.index, l)
    ensures Agree(l, m.content, m.index)
  {
  }

  /** A snapshot is installed where it is missing: after its last chunk the receiver holds the snapshot's entries and
      says so. If it held them before, nothing is lost; if not, its state machine and its log are the snapshot. An
      earlier chunk changes neither, and is acknowledged only when nothing in the snapshot is new. */
  lemma SnapshotIsInstalled(states: seq<State>, events: seq<Event>, k: nat, m: Message, complete: bool)
    requires Run(states, events) && k < |events| && events[k] == OnSnapRequest(m, complete)
    ensures m.SnapRequest? && m.to in states[k].nodes && m.to in states[k + 1].nodes
    ensures m.term >= states[k].nodes[m.to].term ==>
              var n, n' := states[k].nodes[m.to], states[k + 1].nodes[m.to];
              && (complete || Covers(n, m) ==> Agree(n'.log, m.content, m.index))
              && SnapResponse(m.to, m.from, m.term, m.index, m.term, complete || Covers(n, m)) in states[k + 1].net
              && if HasSnapshot(n, m) || !complete
                 then n'.log == n.log && n'.applied == n.applied && n'.snapIndex == n.snapIndex
                      && n'.lastApplied == n.lastApplied && n'.commitIndex == n.commitIndex
                 else n'.log == n'.applied == m.content && n'.snapIndex == n'.lastApplied == n'.commitIndex == m.index
  {
    hide Run, Inv, Next, HandleSnapRequest;
    StepOfRun(states, events, k);
    RunInv(states, events, k);
    var s := states[k];
    SnapRequestOutcome(s, m, complete);
    if m.term >= s.nodes[m.to].term {
      HasAgrees(s, m);
      ChunkOutcome(s.nodes[m.to], m, complete);
    }
  }

  // --- catching up ---

  /** The leader sends its snapshot, the follower gets the whole of it and answers, the leader handles the answer. */
  function SnapshotExchange(l: Node, lid: Id, f: Node, fid: Id): (Node, Node)
    requires 1 <= l.snapIndex <= |l.log|
  {
    var (f', y) := HandleSnapRequest(f, BuildSnapRequest(l, lid, fid), true);
    (HandleSnapResponse(l, y), f')
  }

  /** The leader has compacted past the follower's next index; the two share what the follower has committed. */
  ghost predicate Behind(l: Node, f: Node, fid: Id) {
    && l.role.Leader? && fid in l.next && fid in l.matched && l.next[fid] <= l.snapIndex
    && 1 <= l.snapIndex <= l.commitIndex <= |l.log| && l.matched[fid] <= |l.log|
    && f.term <= l.term && f.snapIndex <= f.lastApplied <= f.commitIndex
    && Agree(f.log, l.log, f.commitIndex) && Matching(f.log, l.log) && Sorted(f.log)
    && Sorted(l.log)
  }

  /** How the two stand after a snapshot was sent: the follower holds the leader's entries up to the snapshot point, and
      the leader goes on behind it. */
  ghost predicate Snapped(l: Node, f: Node, l': Node, f': Node, fid: Id) {
    && Meets(l', f', fid) && l'.log == l.log && l'.snapIndex == l.snapIndex && l'.commitIndex == l.commitIndex
    && l'.next[fid] == l.snapIndex + 1 && l'.matched[fid] == l.snapIndex
    && Agree(f'.log, l.log, l.snapIndex) && Agree(f'.log, l.log, f'.commitIndex) && Matching(f'.log, l.log)
    && Sorted(f'.log) && f'.snapIndex <= f'.commitIndex
    && Max(f'.commitIndex, l.commitIndex) == Max(f.commitIndex, l.commitIndex)
  }

  lemma HoldsSnapshot(l: Node, lid: Id, f: Node, fid: Id)
    requires Behind(l, f, fid)
    ensures var m := BuildSnapRequest(l, lid, fid);
            && (HasSnapshot(f, m) ==> Agree(f.log, l.log, l.snapIndex))
            && (!HasSnapshot(f, m) ==> f.commitIndex < l.snapIndex)
  {
    if f.commitIndex >= l.snapIndex {
      assert f.log[l.snapIndex - 1] == l.log[l.snapIndex - 1];
    }
  }

  lemma LeaderHearsCovered(l: Node, y: Message)
    requires l.role.Leader? && y.SnapResponse? && y.from in l.next && y.from in l.matched && y.covered
    requires y.term <= l.term
    ensures HandleSnapResponse(l, y) ==
            l.(matched := l.matched[y.from := y.index], next := l.next[y.from := y.index + 1])
  {
  }

  lemma SnapshotMeets(l: Node, lid: Id, f: Node, fid: Id)
    requires Behind(l, f, fid)
    ensures var (l', f') := SnapshotExchange(l, lid, f, fid); Snapped(l, f, l', f', fid)
  {
    hide HandleSnapRequest, HandleSnapResponse, HasSnapshot;
    var m := BuildSnapRequest(l, lid, fid);
    HoldsSnapshot(l, lid, f, fid);
    ChunkOutcome(f, m, true);
    LeaderHearsCovered(l, HandleSnapRequest(f, m, true).1);
    PrefixMatches(l.log, l.snapIndex);
  }

  lemma PrefixMatches(l: Log, n: nat)
    requires n <= |l|
    ensures Agree(l[..n], l, n) && Matching(l[..n], l)
    ensures Sorted(l) ==> Sorted(l[..n])
  {
  }
  lemma SnappedProbe(l: Node, f: Node, fid: Id, l1: Node, f1: Node)
    requires Snapped(l, f, l1, f1, fid) && l.snapIndex <= l.commitIndex <= |l.log|
    ensures l.snapIndex < f1.snapIndex ==> Pair(l1, f1, fid)
    ensures var p := Probe(l1.log, f1.log, f1.snapIndex, l1.next[fid]);
            if f1.snapIndex > l.snapIndex then p == Some(f1.snapIndex + 1)
            else p == None && l.snapIndex <= |f1.log|
    ensures f1.snapIndex > l.snapIndex ==>
              f1.snapIndex <= |l.log| && Agree(f1.log, l.log, f1.snapIndex)
  {
    HintIsExact(f1.log, f1.snapIndex, l.snapIndex, TermAt(l.log, l.snapIndex));
    assert l.snapIndex > 0 ==> f1.log[l.snapIndex - 1] == l.log[l.snapIndex - 1];
    if f1.snapIndex > l.snapIndex {
      assert f1.log[f1.snapIndex - 1] == l.log[f1.snapIndex - 1];
    }
  }

  /** A probe at a point up to which the two agree is accepted and repairs the rest. */
  lemma AgreedProbe(l: Log, f: Log, snap: nat, prev: nat)
    requires Agree(f, l, prev) && Matching(f, l) && snap <= prev
    ensures snap <= |f| && Probe(l, f, snap, prev + 1) == None
    ensures Agree(Merge(f, prev, l[prev..]), l, |l|)
  {
    hide Check, Merge, Matching, RunBefore;
    HintIsExact(f, snap, prev, TermAt(l, prev));
    assert prev > 0 ==> f[prev - 1] == l[prev - 1];
    MergesAll(l, f, prev);
  }

  lemma MergesAll(l: Log, f: Log, prev: nat)
    requires Agree(f, l, prev) && Matching(f, l)
    ensures prev <= |f| && prev <= |l| && Agree(Merge(f, prev, l[prev..]), l, |l|)
  {
    hide Matching, Merge;
    MergeAdoptsLeaderPrefix(f, l, prev, l[prev..]);
    assert l[..|l|] == l;
  }

  /** A follower that is behind the leader's snapshot catches up: after the snapshot and at most two more requests it
      holds the leader's whole log, knows of all that the leader has committed, and the leader knows it. */
  lemma SnapshotCatchesUp(l: Node, lid: Id, f: Node, fid: Id)
    requires Behind(l, f, fid)
    ensures var (l1, f1) := SnapshotExchange(l, lid, f, fid);
            && Meets(l1, f1, fid)
            && var (l2, f2) := if f1.snapIndex <= l.snapIndex then (l1, f1) else Exchange(l1, lid, f1, fid);
               && Meets(l2, f2, fid)
               && var (l3, f3) := Exchange(l2, lid, f2, fid);
                  && Repaired(l, f, l3, f3, fid)
                  && (l.snapIndex < |l.log| ==> fid in l3.next && l3.next[fid] == |l.log| + 1)
  {
    hide Exchange, SnapshotExchange, Meets, Probe, Merge, Agree, Matching, Sorted, Repairable;
    var (l1, f1) := SnapshotExchange(l, lid, f, fid);
    SnapshotMeets(l, lid, f, fid);
    SnappedProbe(l, f, fid, l1, f1);
    if f1.snapIndex <= l.snapIndex {
      AgreedProbe(l.log, f1.log, f1.snapIndex, l.snapIndex);
      LastExchange(l1, lid, f1, fid);
    } else {
      PairFacts(l1, f1, fid);
      RejectedExchange(l1, lid, f1, fid);
      var (l2, f2) := Exchange(l1, lid, f1, fid);
      PairFacts(l2, f2, fid);
      AgreedProbe(l.log, f1.log, f1.snapIndex, f1.snapIndex);
      LastExchange(l2, lid, f2, fid);
    }
  }

  /** In a run, a leader with a snapshot and any node of no later term whose next index the leader has compacted meet
      what catching up asks for. */
  lemma ReachableBehind(states: seq<State>, events: seq<Event>, k: nat, lid: Id, fid: Id)
    requires Run(states, events) && k < |states| && lid in states[k].nodes && fid in states[k].nodes
    requires var l, f := states[k].nodes[lid], states[k].nodes[fid];
             && l.role.Leader? && f.term <= l.term && 1 <= l.snapIndex
             && (fid in l.next ==> l.next[fid] <= l.snapIndex)
    ensures Behind(states[k].nodes[lid], states[k].nodes[fid], fid)
  {
    hide Run, Inv, Agree, Matching, Sorted, AckOf;
    var s := states[k];
    RunInv(states, events, k);
    LeaderMatches(s, lid, fid);
    CommittedAtLeader(s, fid, s.nodes[lid].term);
    CommittedAtLeader(s, lid, s.nodes[lid].term);
    MatchIndexSound(states, events, k, lid, fid);
    IndicesInOrder(states, events, k, lid);
    IndicesInOrder(states, events, k, fid);
  }

  // --- committing ---

  /** In a run, the commit scan of a leader that knows that it and some other voters, together more than half, hold its
      whole log, commits its whole log: the log ends with an entry of the leader's own term. */
  lemma MajorityCommitsAll(states: seq<State>, events: seq<Event>, k: nat, id: Id, q: set<Id>)
    requires Run(states, events) && k < |events| && events[k] == ScanCommits(id)
    requires id in states[k].nodes && states[k].nodes[id].role.Leader?
    requires forall f :: f in q ==> f in states[k].voters && f != id && f in states[k].nodes[id].matched
    requires forall f :: f in q ==> states[k].nodes[id].matched[f] >= |states[k].nodes[id].log|
    requires 2 * (1 + |q|) > |states[k].voters|
    ensures id in states[k + 1].nodes
    ensures var n, n' := states[k].nodes[id], states[k + 1].nodes[id];
            n'.log == n.log && n'.commitIndex == |n.log| && LastTerm(n.log) == n.term
  {
    hide Run, Inv, CommitScan, LastTerm;
    StepOfRun(states, events, k);
    var s := states[k];
    RunInv(states, events, k);
    IndicesInOrder(states, events, k, id);
    LeaderEndsInItsTerm(s, id);
    ScanIsExact(s.nodes[id], id, s.voters);
    QuorumCommitsAll(s.nodes[id], id, s.voters, q);
  }

  lemma LeaderEndsInItsTerm(s: State, id: Id)
    requires Inv(s) && id in s.nodes && s.nodes[id].role.Leader?
    ensures var n := s.nodes[id]; n.log != [] && LastTerm(n.log) == n.term
  {
    hide LocalOK, AcksOK, RoundsOK, Completeness, CommitsOK, ElectedOK, VotesOK, NetOK;
    assert NodeOK(s, id, s.nodes[id]);
    assert LeaderLogOK(s, s.nodes[id].term);
  }

  // --- restarting ---

  /** Nothing applied is lost through a snapshot and a restart: a node of a run that takes a snapshot of all it has
      applied and restarts resumes with the same state machine, and a restart keeps log, snapshot, term and vote. */
  lemma SnapshotSurvivesRestart(states: seq<State>, events: seq<Event>, k: nat, id: Id)
    requires Run(states, events) && k < |states| && id in states[k].nodes
    ensures var n := states[k].nodes[id];
            && n.snapIndex <= n.lastApplied == |n.applied| <= |n.log|
            && (var n' := Restart(n);
                && n'.log == n.log && n'.snapIndex == n.snapIndex && n'.term == n.term && n'.votedFor == n.votedFor
                && n'.applied == n.applied[..n.snapIndex] && n'.lastApplied == |n'.applied|)
            && (var n' := Restart(Compact(n, n.lastApplied));
                && n'.log == n.log && n'.term == n.term && n'.votedFor == n.votedFor
                && n'.applied == n.applied && n'.lastApplied == n'.snapIndex == n.lastApplied)
  {
    hide Run, Inv, NodeOK, LogOK, CommitOK;
    RunInv(states, events, k);
    NodeAt(states[k], id);
    NodeParts(states[k], id, states[k].nodes[id]);
    var n := states[k].nodes[id];
    assert n.applied == n.log[..n.lastApplied];
  }
}
