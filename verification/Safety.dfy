/** The safety theorems of section 5.4.3 of the Raft paper, over every run. */
module Safety {
  import opened Entries
  import opened Protocol
  import opened Cluster
  import opened Quorums
  import opened Invariant
  import opened Stability
  import opened QuietSteps
  import opened ElectionSteps
  import opened LeaderSteps
  import opened ReplicationSteps
  import opened FollowerSteps
  import A = Assumptions
  import Votes

  lemma InitInv(s: State)
    requires Init(s)
    ensures Inv(s)
  {
    forall id | id in s.nodes ensures NodeOK(s, id, s.nodes[id]) && BallotsOK(s, s.nodes[id]) {
      assert s.nodes[id] == InitialNode(s.base);
    }
  }

  /** Every step keeps the invariant and loses nothing of the history. */
  lemma StepInv(s: State, e: Event, t: State)
    requires Inv(s) && Step(s, e, t)
    ensures Inv(t) && Grows(s, t)
  {
    hide Inv, Grows, Next;
    match e
    case Tick(id) => PreserveTick(s, id);
    case AskVote(id, round, to) => PreserveAskVote(s, id, round, to);
    case OnVoteRequest(m, refuse) => PreserveVoteRequest(s, m, refuse);
    case OnVoteResponse(m) =>
      if Wins(s, m) {
        PreserveWinningVote(s, m);
      } else {
        PreserveVoteResponse(s, m);
      }
    case ClientSubmit(id, data) => PreserveSubmit(s, id, data);
    case SendAppend(id, to) => PreserveSendAppend(s, id, to);
    case OnAppendRequest(m) => PreserveAppendRequest(s, m);
    case OnAppendResponse(m) => PreserveAppendResponse(s, m);
    case ScanCommits(id) => PreserveScan(s, id);
    case Apply(id) => PreserveApply(s, id);
    case TakeSnapshot(id, index) => PreserveCompact(s, id, index);
    case SendSnapshot(id, to) => PreserveSendSnapshot(s, id, to);
    case OnSnapRequest(m, complete) => PreserveSnapRequest(s, m, complete);
    case OnSnapResponse(m) => PreserveSnapResponse(s, m);
    case Crash(id) => PreserveCrash(s, id);
  }

  lemma {:induction false} RunInv(states: seq<State>, events: seq<Event>, k: nat)
    requires Run(states, events) && k < |states|
    ensures Inv(states[k])
  {
    hide Inv, Init, Step;
    if k == 0 {
      InitInv(states[0]);
    } else {
      RunInv(states, events, k - 1);
      StepInv(states[k - 1], events[k - 1], states[k]);
    }
  }

  lemma {:induction false} RunGrows(states: seq<State>, events: seq<Event>, j: nat, k: nat)
    requires Run(states, events) && j <= k < |states|
    ensures Grows(states[j], states[k])
  {
    hide Inv, Init, Step, Grows;
    if j == k {
      GrowsReflexive(states[j]);
    } else {
      RunGrows(states, events, j, k - 1);
      RunInv(states, events, k - 1);
      StepInv(states[k - 1], events[k - 1], states[k]);
      GrowsTransitive(states[j], states[k - 1], states[k]);
    }
  }

  /** Election safety: one term never has two leaders, however far apart in the run they lead. */
  lemma ElectionSafety(states: seq<State>, events: seq<Event>, j: nat, k: nat, a: Id, b: Id)
    requires Run(states, events) && j < |states| && k < |states|
    requires a in states[j].nodes && states[j].nodes[a].role.Leader?
    requires b in states[k].nodes && states[k].nodes[b].role.Leader?
    requires states[j].nodes[a].term == states[k].nodes[b].term
    ensures a == b
  {
    hide Run, Inv, NodeOK, Grows;
    var t := states[j].nodes[a].term;
    var last := |states| - 1;
    RunInv(states, events, j);
    RunInv(states, events, k);
    RunInv(states, events, last);
    NodeAt(states[j], a);
    NodeAt(states[k], b);
    LeaderFacts(states[j], a, states[j].nodes[a]);
    LeaderFacts(states[k], b, states[k].nodes[b]);
    RunGrows(states, events, j, last);
    RunGrows(states, events, k, last);
    GrowsHistory(states[j], states[last]);
    GrowsHistory(states[k], states[last]);
    OneLeaderPerTerm(states[last], t, a, b);
  }

  /** Election safety from the guard: of the protocol's runs that obey A3 and A4, those in which no node that has voted
      steps down within its term never reach two leaders of one term. */
  lemma UnforgetfulElectionSafety(s: State, es: seq<Event>, t: State, a: Id, b: Id)
    requires Init(s) && A.Reaches(s, es, t, A.Obeys(false, true, true)) && Votes.Unforgetful(s, es)
    requires a in t.nodes && t.nodes[a].role.Leader? && b in t.nodes && t.nodes[b].role.Leader?
    requires t.nodes[a].term == t.nodes[b].term
    ensures a == b
  {
    hide *;
    Votes.InitialVotes(s);
    Votes.UnforgetfulRunsObeyA2(s, es, t);
    StartsRun(s);
    var states := A.ReachesIsRun(s, es, t, [s], []);
    RunShape(states, [] + es);
    ElectionSafety(states, [] + es, |es|, |es|, a, b);
  }

  lemma StartsRun(s: State)
    requires Init(s)
    ensures Run([s], [])
  {
  }

  lemma RunShape(states: seq<State>, events: seq<Event>)
    requires Run(states, events)
    ensures |states| == |events| + 1
  {
  }

  lemma GrowsHistory(s: State, t: State)
    requires Grows(s, t)
    ensures s.elected <= t.elected && s.commits <= t.commits && t.base == s.base && t.nodes.Keys == s.nodes.Keys
    ensures forall u :: u in s.leaderLogs ==> u in t.leaderLogs && Extends(s.leaderLogs[u], t.leaderLogs[u])
    ensures forall id :: id in s.nodes ==> Evolves(s.nodes[id], t.nodes[id])
  {
  }

  /** Leaders only append: between two moments of one leadership the log is extended. */
  lemma LeaderAppendOnly(states: seq<State>, events: seq<Event>, j: nat, k: nat, a: Id)
    requires Run(states, events) && j <= k < |states|
    requires a in states[j].nodes && states[j].nodes[a].role.Leader?
    requires a in states[k].nodes && states[k].nodes[a].role.Leader?
    requires states[k].nodes[a].term == states[j].nodes[a].term
    ensures Extends(states[j].nodes[a].log, states[k].nodes[a].log)
  {
    hide Run, Inv, NodeOK, Grows;
    RunInv(states, events, j);
    RunInv(states, events, k);
    NodeAt(states[j], a);
    NodeAt(states[k], a);
    LeaderFacts(states[j], a, states[j].nodes[a]);
    LeaderFacts(states[k], a, states[k].nodes[a]);
    RunGrows(states, events, j, k);
    GrowsHistory(states[j], states[k]);
  }

  lemma NodeLogOK(s: State, id: Id)
    requires Inv(s) && id in s.nodes
    ensures LogOK(s.base, s.leaderLogs, s.nodes[id].log)
  {
    assert NodeOK(s, id, s.nodes[id]);
  }

  /** Log matching: two logs, at any two moments of a run, that have the same term at one index are the same up to it.
      */
  lemma LogMatching(states: seq<State>, events: seq<Event>, j: nat, k: nat, a: Id, b: Id, i: nat)
    requires Run(states, events) && j < |states| && k < |states|
    requires a in states[j].nodes && b in states[k].nodes
    requires i < |states[j].nodes[a].log| && i < |states[k].nodes[b].log|
    requires states[j].nodes[a].log[i].term == states[k].nodes[b].log[i].term
    ensures Agree(states[j].nodes[a].log, states[k].nodes[b].log, i + 1)
  {
    hide Run, Inv, LogOK, Grows;
    var s := states[|states| - 1];
    RunInv(states, events, j);
    RunInv(states, events, k);
    NodeLogOK(states[j], a);
    NodeLogOK(states[k], b);
    RunGrows(states, events, j, |states| - 1);
    RunGrows(states, events, k, |states| - 1);
    LogOKStays(states[j], s, states[j].nodes[a].log);
    LogOKStays(states[k], s, states[k].nodes[b].log);
    LogsMatch(s.base, s.leaderLogs, states[j].nodes[a].log, states[k].nodes[b].log, i);
  }

  lemma CommittedCarried(s: State, t: nat, i: nat, u: nat)
    requires Inv(s) && (t, i) in s.commits && u in s.leaderLogs && t < u
    ensures t in s.leaderLogs && Agree(s.leaderLogs[u], s.leaderLogs[t], i)
  {
    assert Committed(s, (t, i).0, (t, i).1);
    CommittedMayCommit(s, t, i);
  }

  /** A later leader's log ended above the entry already when it was shorter. */
  lemma EarlierLeaderLog(s: State, t: State, u: nat, v: nat, i: nat)
    requires Inv(s) && Inv(t) && Grows(s, t) && u in s.leaderLogs && v in t.leaderLogs && v < u
    requires Agree(t.leaderLogs[u], t.leaderLogs[v], i)
    ensures Agree(s.leaderLogs[u], t.leaderLogs[v], i)
  {
    hide ElectedOK, Completeness, CommitsOK, NodesOK, VotesOK, NetOK, Evolves;
    assert LeaderLogOK(s, u) && LeaderLogOK(t, v);
    assert Extends(s.leaderLogs[u], t.leaderLogs[u]);
    var last := |s.leaderLogs[u]| - 1;
    assert s.leaderLogs[u][last].term == u && t.leaderLogs[u][last] == s.leaderLogs[u][last];
    assert last >= i;
  }

  /** Leader completeness: what a commit scan committed in term `t`, every leader of a later term has at the same
      index, no matter which of the two moments comes first. */
  lemma LeaderCompleteness(states: seq<State>, events: seq<Event>, j: nat, k: nat, t: nat, i: nat, b: Id)
    requires Run(states, events) && j < |states| && k < |states|
    requires (t, i) in states[j].commits
    requires b in states[k].nodes && states[k].nodes[b].role.Leader? && states[k].nodes[b].term > t
    ensures t in states[j].leaderLogs && Agree(states[k].nodes[b].log, states[j].leaderLogs[t], i)
  {
    hide Run, Inv, NodeOK, Grows;
    var last := |states| - 1;
    var s := states[last];
    var u := states[k].nodes[b].term;
    RunInv(states, events, j);
    RunInv(states, events, k);
    RunInv(states, events, last);
    NodeAt(states[k], b);
    LeaderFacts(states[k], b, states[k].nodes[b]);
    RunGrows(states, events, j, last);
    RunGrows(states, events, k, last);
    GrowsHistory(states[j], s);
    GrowsHistory(states[k], s);
    CommittedCarried(s, t, i, u);
    EarlierLeaderLog(states[k], s, u, t, i);
    CommitInItsLog(states[j], t, i);
  }

  lemma CommitInItsLog(s: State, t: nat, i: nat)
    requires Inv(s) && (t, i) in s.commits
    ensures t in s.leaderLogs && 1 <= i <= |s.leaderLogs[t]|
  {
    assert Committed(s, (t, i).0, (t, i).1);
  }

  /** Two committed prefixes are prefixes of one another. */
  lemma CommittedPrefixesAgree(s: State, a: Log, c: nat, t: nat, b: Log, d: nat, u: nat)
    requires Inv(s) && CommitOK(s, a, c, t) && CommitOK(s, b, d, u) && c <= d
    ensures Agree(a, b, c)
  {
    hide Inv;
    if c > 0 {
      var v :| v in s.commits && v.0 <= t && c <= v.1 && v.0 in s.leaderLogs && Agree(a, s.leaderLogs[v.0], c);
      var w :| w in s.commits && w.0 <= u && d <= w.1 && w.0 in s.leaderLogs && Agree(b, s.leaderLogs[w.0], d);
      if v.0 < w.0 {
        CommittedCarried(s, v.0, v.1, w.0);
      } else if w.0 < v.0 {
        CommittedCarried(s, w.0, w.1, v.0);
      }
    }
  }

  lemma CommitOKPrefix(s: State, l: Log, p: Log, c: nat, d: nat, t: nat)
    requires CommitOK(s, l, c, t) && d <= c && Agree(p, l, d)
    ensures CommitOK(s, p, d, t)
  {
    if d > 0 {
      var w :| w in s.commits && w.0 <= t && c <= w.1 && w.0 in s.leaderLogs && Agree(l, s.leaderLogs[w.0], c);
      assert Agree(p, s.leaderLogs[w.0], d);
    }
  }

  lemma AppliedIsCommitted(s: State, id: Id)
    requires Inv(s) && id in s.nodes
    ensures var n := s.nodes[id];
            && n.applied == n.log[..n.lastApplied] && |n.applied| == n.lastApplied <= n.commitIndex <= |n.log|
            && CommitOK(s, n.applied, n.lastApplied, n.term)
  {
    hide Inv, NodeOK;
    var n := s.nodes[id];
    NodeAt(s, id);
    NodeParts(s, id, n);
    CommitOKPrefix(s, n.log, n.applied, n.commitIndex, n.lastApplied, n.term);
  }

  /** State machine safety: whatever two nodes have applied, at any two moments of a run, one applied sequence is a
      prefix of the other. */
  lemma StateMachineSafety(states: seq<State>, events: seq<Event>, j: nat, k: nat, a: Id, b: Id)
    requires Run(states, events) && j < |states| && k < |states| && a in states[j].nodes && b in states[k].nodes
    requires |states[j].nodes[a].applied| <= |states[k].nodes[b].applied|
    ensures Extends(states[j].nodes[a].applied, states[k].nodes[b].applied)
  {
    hide Run, Inv, CommitOK, Grows;
    var last := |states| - 1;
    RunInv(states, events, j);
    RunInv(states, events, k);
    RunInv(states, events, last);
    var m, n := states[j].nodes[a], states[k].nodes[b];
    AppliedIsCommitted(states[j], a);
    AppliedIsCommitted(states[k], b);
    RunGrows(states, events, j, last);
    RunGrows(states, events, k, last);
    CommitOKStays(states[j], states[last], m.applied, m.lastApplied, m.term, m.term);
    CommitOKStays(states[k], states[last], n.applied, n.lastApplied, n.term, n.term);
    CommittedPrefixesAgree(states[last], m.applied, m.lastApplied, m.term, n.applied, n.lastApplied, n.term);
  }

  /** In every reachable state a node's applied sequence is exactly its entries 1 to lastApplied, and its indices are in
      order: snapshot, applied, commit, last. */
  lemma IndicesInOrder(states: seq<State>, events: seq<Event>, k: nat, id: Id)
    requires Run(states, events) && k < |states| && id in states[k].nodes
    ensures var n := states[k].nodes[id];
            && n.snapIndex <= n.lastApplied <= n.commitIndex <= |n.log| && n.applied == n.log[..n.lastApplied]
            && (n.role.Leader? ==> forall f :: f in states[k].members ==>
                 f in n.next && f in n.matched && n.next[f] <= |n.log| + 1)
  {
    RunInv(states, events, k);
    assert NodeOK(states[k], id, states[k].nodes[id]);
  }

  /** In every run of the protocol, also in those that break A2, A3 or A4, the stored term and vote are those in memory
      after every step, no term ever decreases, and so a crash and a restart undo neither. */
  lemma {:induction false} DurableTermAndVote(states: seq<State>, events: seq<Event>, j: nat, k: nat, id: Id)
    requires FreeRun(states, events) && j <= k < |states| && id in states[j].nodes
    ensures id in states[k].nodes
    ensures var n := states[k].nodes[id];
            && n.diskTerm == n.term && n.diskVote == n.votedFor && states[j].nodes[id].term <= n.term
            && Restart(n).term == n.term && Restart(n).votedFor == n.votedFor
    decreases k
  {
    hide Init, Next, Votes.AllDurable, Restart;
    FreeRunDurable(states, events, k);
    if j < k {
      DurableTermAndVote(states, events, j, k - 1, id);
      FreeRunDurable(states, events, k - 1);
      Votes.StepDurable(states[k - 1], events[k - 1]);
    }
    DurableNode(states[k], id);
  }

  lemma DurableNode(s: State, id: Id)
    requires Votes.AllDurable(s) && id in s.nodes
    ensures var n := s.nodes[id];
            && n.diskTerm == n.term && n.diskVote == n.votedFor
            && Restart(n).term == n.term && Restart(n).votedFor == n.votedFor
  {
  }

  lemma {:induction false} FreeRunDurable(states: seq<State>, events: seq<Event>, k: nat)
    requires FreeRun(states, events) && k < |states|
    ensures Votes.AllDurable(states[k])
    decreases k
  {
    if k == 0 {
      Votes.InitialVotes(states[0]);
    } else {
      FreeRunDurable(states, events, k - 1);
      Votes.StepDurable(states[k - 1], events[k - 1]);
    }
  }

  /** matchIndex soundness: what a leader believes a follower has, the follower took over in the leader's term, and it
      still has it while it stays in that term. */
  lemma MatchIndexSound(states: seq<State>, events: seq<Event>, k: nat, l: Id, f: Id)
    requires Run(states, events) && k < |states| && l in states[k].nodes && states[k].nodes[l].role.Leader?
    requires f in states[k].members
    ensures var n := states[k].nodes[l];
            && f in n.matched && f in states[k].nodes && n.matched[f] <= |n.log|
            && n.matched[f] <= AckOf(states[k].nodes[f], n.term)
            && (states[k].nodes[f].term == n.term ==> Agree(states[k].nodes[f].log, n.log, n.matched[f]))
  {
    hide LocalOK, RoundsOK, Retains, HistoryOK, ElectedOK, Completeness, CommitsOK, VotesOK, NetOK, Run;
    var s := states[k];
    RunInv(states, events, k);
    assert NodeOK(s, l, s.nodes[l]) && NodeOK(s, f, s.nodes[f]);
  }

  // --- committed entries are never lost ---

  /** How one step may change one node's log. */
  ghost predicate LogMoves(s: State, n: Node, n': Node) {
    || Extends(n.log, n'.log)
    || (n'.term in s.leaderLogs && n.term <= n'.term && exists e :: Adopts(n.log, s.leaderLogs[n'.term], e, n'.log))
  }

  lemma AppendRequestMoves(s: State, m: Message)
    requires Inv(s) && Enabled(s, OnAppendRequest(m)) && m.AppendRequest? && m.to in s.nodes
    requires s.nodes[m.to].snapIndex <= |s.nodes[m.to].log|
    ensures LogMoves(s, s.nodes[m.to], HandleAppendRequest(s.nodes[m.to], m).0)
  {
    hide *;
    var n := s.nodes[m.to];
    var n' := HandleAppendRequest(n, m).0;
    AppendRequestOutcome(s, m);
    MessageAt(s, m);
    AppendRequestFacts(s, m);
    PartsOf(s);
    SameLogMoves(s, n, n');
    if m.term >= n.term {
      var n1 := FollowLeader(n, m.term);
      FollowLeaderShape(n, m.term);
      if Check(n1.log, n1.snapIndex, m.prev, m.prevTerm).None? {
        FollowLeaderOK(s, m.to, m.from, m.term);
        NodeParts(s, m.to, n1);
        MergeAdopts(s, n1, m);
        var log := Merge(n1.log, m.prev, m.entries);
        AcceptShape(n1, m.term, m.prev + |m.entries|, log,
                    if m.leaderCommit > n1.commitIndex then Min(m.leaderCommit, |log|) else n1.commitIndex);
        AdoptMoves(s, n, n', m.prev + |m.entries|);
      }
    }
  }

  lemma AcceptShape(n: Node, t: nat, e: nat, log: Log, c: nat)
    ensures var n' := Accept(n, t, e, log, c); n'.log == log && n'.term == n.term && n'.commitIndex == c
  {
  }

  lemma InstallShape(n: Node, t: nat, e: nat, log: Log)
    ensures var n' := Install(n, t, e, log); n'.log == log && n'.term == n.term && n'.commitIndex == e
  {
  }

  lemma SameLogMoves(s: State, n: Node, n': Node)
    ensures n'.log == n.log ==> LogMoves(s, n, n')
  {
  }

  lemma ExtendingMoves(s: State, n: Node, n': Node)
    requires Extends(n.log, n'.log)
    ensures LogMoves(s, n, n')
  {
  }

  lemma AdoptMoves(s: State, n: Node, n': Node, e: nat)
    requires n'.term in s.leaderLogs && n.term <= n'.term && Adopts(n.log, s.leaderLogs[n'.term], e, n'.log)
    ensures LogMoves(s, n, n')
  {
  }

  lemma SnapRequestMoves(s: State, m: Message, complete: bool)
    requires Inv(s) && Enabled(s, OnSnapRequest(m, complete)) && m.SnapRequest? && m.to in s.nodes
    ensures LogMoves(s, s.nodes[m.to], HandleSnapRequest(s.nodes[m.to], m, complete).0)
  {
    hide *;
    var n := s.nodes[m.to];
    var n' := HandleSnapRequest(n, m, complete).0;
    SnapRequestOutcome(s, m, complete);
    MessageAt(s, m);
    SameLogMoves(s, n, n');
    if m.term >= n.term {
      var n1 := FollowLeader(n, m.term);
      FollowLeaderShape(n, m.term);
      AcceptShape(n1, m.term, m.index, n1.log, n1.commitIndex);
      if !(m.index <= |n1.log| && m.index > 0 && n1.log[m.index - 1].term == m.lastTerm)
         && n' == Install(n1, m.term, m.index, m.content) {
        MissesSnapshot(s, n1, m);
        InstallShape(n1, m.term, m.index, m.content);
        AdoptMoves(s, n, n', m.index);
      }
    }
  }

  /** The log is extended, and no index goes back. */
  ghost predicate Advances(n: Node, n': Node) {
    && Extends(n.log, n'.log)
    && n.snapIndex <= n'.snapIndex && n.lastApplied <= n'.lastApplied && n.commitIndex <= n'.commitIndex
  }

  lemma TickAdvances(n: Node, id: Id, voters: set<Id>)
    ensures Advances(n, Election(n, id, voters))
  {
  }

  lemma VoterAdvances(n: Node, m: Message, refuse: bool)
    requires m.VoteRequest?
    ensures Advances(n, HandleVoteRequest(n, m, refuse).0)
  {
    assert Advances(n, JoinElection(n, m)) && Advances(n, GrantVote(JoinElection(n, m), m.from));
  }

  lemma NewLeaderAdvances(n: Node, members: set<Id>)
    ensures Advances(n, BecomeLeader(n, members))
  {
  }

  lemma CandidateAdvances(n: Node, members: set<Id>, voters: set<Id>, m: Message)
    requires m.VoteResponse? && m.round < |n.rounds|
    ensures Advances(n, HandleVoteResponse(n, members, voters, m))
  {
    hide BecomeLeader, Advances, HasQuorum;
    var n1 := CountVote(n, m);
    NewLeaderAdvances(n1, members);
    NewLeaderAdvances(n1.(role := Candidate), members);
    SameLogAdvances(n, n1);
    SameLogAdvances(n, n1.(role := Candidate));
    SameLogAdvances(n, BecomeFollower(n1, m.term));
    SameLogAdvances(n, n);
    AdvancesTransitive(n, n1, BecomeLeader(n1, members));
    AdvancesTransitive(n, n1.(role := Candidate), BecomeLeader(n1.(role := Candidate), members));
  }

  lemma SameLogAdvances(n: Node, n': Node)
    requires n'.log == n.log && n'.snapIndex == n.snapIndex && n'.lastApplied == n.lastApplied
    requires n'.commitIndex == n.commitIndex
    ensures Advances(n, n')
  {
  }

  lemma AdvancesTransitive(n: Node, n1: Node, n2: Node)
    requires Advances(n, n1) && Advances(n1, n2)
    ensures Advances(n, n2)
  {
  }

  lemma SubmitAdvances(n: Node, data: seq<Byte>, ticket: nat)
    ensures Advances(n, Submit(n, data, ticket))
  {
  }

  lemma ResponseAdvances(n: Node, m: Message)
    ensures m.AppendResponse? ==> Advances(n, HandleAppendResponse(n, m))
    ensures m.SnapResponse? ==> Advances(n, HandleSnapResponse(n, m))
  {
  }

  lemma LocalAdvances(n: Node, id: Id, voters: set<Id>)
    ensures Advances(n, CommitScan(n, id, voters))
    ensures n.lastApplied < n.commitIndex <= |n.log| ==> Advances(n, ApplyNext(n))
    ensures Extends(n.log, Restart(n).log)
  {
  }

  lemma CompactAdvances(n: Node, index: nat)
    requires n.snapIndex <= index
    ensures Advances(n, Compact(n, index))
  {
  }

  lemma MessageStepAdvances(s: State, e: Event, t: State, a: Id)
    requires Step(s, e, t) && a in s.nodes && a in t.nodes
    requires e.OnVoteRequest? || e.OnVoteResponse? || e.OnAppendResponse? || e.OnSnapResponse?
    ensures Advances(s.nodes[a], t.nodes[a])
  {
    hide Advances, HandleVoteRequest, HandleVoteResponse, HandleAppendResponse, HandleSnapResponse, Assumed;
    var n := s.nodes[a];
    if a == e.m.to {
      if e.OnVoteRequest? {
        VoterAdvances(n, e.m, e.refuse);
      } else if e.OnVoteResponse? {
        CandidateAdvances(n, s.members, s.voters, e.m);
      } else {
        ResponseAdvances(n, e.m);
      }
    } else {
      AdvancesReflexive(n);
    }
  }

  lemma AdvancesReflexive(n: Node)
    ensures Advances(n, n)
  {
  }

  lemma OwnStepAdvances(s: State, e: Event, t: State, a: Id)
    requires Step(s, e, t) && a in s.nodes && a in t.nodes && !e.OnAppendRequest? && !e.OnSnapRequest?
    ensures Extends(s.nodes[a].log, t.nodes[a].log)
    ensures e != Crash(a) ==> Advances(s.nodes[a], t.nodes[a])
  {
    hide Advances, Election, HandleVoteRequest, HandleVoteResponse, Submit, HandleAppendResponse, HandleSnapResponse,
         CommitScan, ApplyNext, Compact, Restart, Extends, Assumed, BuildVoteRequest, BuildAppendRequest,
           BuildSnapRequest,
         AnswersOf;
    var n := s.nodes[a];
    AdvancesExtends(n, t.nodes[a]);
    LocalAdvances(n, a, s.voters);
    if e.OnVoteRequest? || e.OnVoteResponse? || e.OnAppendResponse? || e.OnSnapResponse? {
      MessageStepAdvances(s, e, t, a);
    } else if e.Tick? {
      TickAdvances(n, a, s.voters);
    } else if e.ClientSubmit? {
      SubmitAdvances(n, e.data, |s.submitted|);
    } else if e.TakeSnapshot? && a == e.id {
      CompactAdvances(n, e.index);
    }
  }

  lemma AdvancesExtends(n: Node, n': Node)
    ensures Advances(n, n') ==> Extends(n.log, n'.log)
    ensures Extends(n.log, n.log) && Advances(n, n)
  {
  }

  lemma RequestStepMoves(s: State, e: Event, t: State, a: Id)
    requires Step(s, e, t) && a in s.nodes && a in t.nodes && (e.OnAppendRequest? || e.OnSnapRequest?)
    ensures e.m.to in s.nodes && s.nodes[e.m.to].snapIndex >= 0
    ensures e.OnAppendRequest? ==> e.m.AppendRequest? && s.nodes[e.m.to].snapIndex <= |s.nodes[e.m.to].log|
    ensures e.OnSnapRequest? ==> e.m.SnapRequest?
    ensures a != e.m.to ==> t.nodes[a] == s.nodes[a]
    ensures a == e.m.to ==>
              t.nodes[a] == if e.OnAppendRequest? then HandleAppendRequest(s.nodes[a], e.m).0
                            else HandleSnapRequest(s.nodes[a], e.m, e.complete).0
    ensures Enabled(s, e)
  {
  }

  lemma StepMoves(s: State, e: Event, t: State, a: Id)
    requires Inv(s) && Step(s, e, t) && a in s.nodes && a in t.nodes
    ensures LogMoves(s, s.nodes[a], t.nodes[a])
  {
    hide *;
    if e.OnAppendRequest? || e.OnSnapRequest? {
      RequestStepMoves(s, e, t, a);
      SameLogMoves(s, s.nodes[a], t.nodes[a]);
      if a == e.m.to {
        if e.OnAppendRequest? {
          AppendRequestMoves(s, e.m);
        } else {
          SnapRequestMoves(s, e.m, e.complete);
        }
      }
    } else {
      OwnStepAdvances(s, e, t, a);
      ExtendingMoves(s, s.nodes[a], t.nodes[a]);
    }
  }

  /** A step never takes a committed entry away from a node that has it. */
  lemma StepKeepsCommitted(s: State, e: Event, t: State, a: Id, c: nat)
    requires Inv(s) && Step(s, e, t) && Grows(s, t) && a in s.nodes && a in t.nodes
    requires CommitOK(s, s.nodes[a].log, c, s.nodes[a].term)
    ensures CommitOK(t, t.nodes[a].log, c, t.nodes[a].term) && Agree(t.nodes[a].log, s.nodes[a].log, c)
  {
    hide *;
    var n, n' := s.nodes[a], t.nodes[a];
    StepMoves(s, e, t, a);
    GrowsHistory(s, t);
    PartsOf(s);
    EvolvesTerm(n, n');
    CommitOKStays(s, s, n.log, c, n.term, n'.term) by {
      GrowsReflexive(s);
    }
    LogMovesKeep(s, n, n', c);
    CommitOKStays(s, t, n'.log, c, n'.term, n'.term);
  }

  lemma EvolvesTerm(n: Node, n': Node)
    requires Evolves(n, n')
    ensures n.term <= n'.term
  {
  }

  lemma LogMovesKeep(s: State, n: Node, n': Node, c: nat)
    requires LogMoves(s, n, n') && CommitOK(s, n.log, c, n'.term) && Completeness(s) && CommitsOK(s)
    ensures CommitOK(s, n'.log, c, n'.term) && Agree(n'.log, n.log, c)
  {
    if Extends(n.log, n'.log) {
      assert c <= |n.log|;
      CommitOKMoves(s, n.log, n'.log, c, n'.term);
    } else {
      var e :| Adopts(n.log, s.leaderLogs[n'.term], e, n'.log);
      AdoptedCommitOK(s, n.log, n'.term, e, n'.log, c);
    }
  }

  lemma {:induction false} CommittedStaysInRun(states: seq<State>, events: seq<Event>, j: nat, k: nat, a: Id, c: nat)
    requires Run(states, events) && j <= k < |states| && a in states[j].nodes
    requires CommitOK(states[j], states[j].nodes[a].log, c, states[j].nodes[a].term)
    ensures a in states[k].nodes && CommitOK(states[k], states[k].nodes[a].log, c, states[k].nodes[a].term)
    ensures Agree(states[k].nodes[a].log, states[j].nodes[a].log, c)
  {
    hide Inv, Init, Step, Grows;
    if j == k {
    } else {
      CommittedStaysInRun(states, events, j, k - 1, a, c);
      RunInv(states, events, k - 1);
      StepInv(states[k - 1], events[k - 1], states[k]);
      GrowsHistory(states[k - 1], states[k]);
      StepKeepsCommitted(states[k - 1], events[k - 1], states[k], a, c);
    }
  }

  /** Committed entries are never truncated: what a node once knew to be committed stays in its log for the rest of the
      run, through any number of crashes, elections and installed snapshots. */
  lemma CommittedNeverLost(states: seq<State>, events: seq<Event>, j: nat, k: nat, a: Id)
    requires Run(states, events) && j <= k < |states| && a in states[j].nodes
    ensures a in states[k].nodes
    ensures Agree(states[k].nodes[a].log, states[j].nodes[a].log, states[j].nodes[a].commitIndex)
  {
    RunInv(states, events, j);
    assert NodeOK(states[j], a, states[j].nodes[a]);
    CommittedStaysInRun(states, events, j, k, a, states[j].nodes[a].commitIndex);
  }

  // --- indices only move forward ---

  ghost predicate IndicesAdvance(n: Node, n': Node) {
    n.snapIndex <= n'.snapIndex && n.lastApplied <= n'.lastApplied && n.commitIndex <= n'.commitIndex
  }

  lemma AdvancesIndices(n: Node, n': Node)
    requires Advances(n, n')
    ensures IndicesAdvance(n, n')
  {
  }

  lemma AppendRequestIndices(n: Node, m: Message)
    requires m.AppendRequest? && n.snapIndex <= |n.log| && n.commitIndex <= |n.log|
    requires m.term >= n.term && Check(FollowLeader(n, m.term).log, n.snapIndex, m.prev, m.prevTerm).None? ==>
               m.prev <= |n.log| && |Merge(FollowLeader(n, m.term).log, m.prev, m.entries)| >= n.commitIndex
    ensures IndicesAdvance(n, HandleAppendRequest(n, m).0)
  {
  }

  /** The snapshot a node installs reaches at least to its commit index. */
  lemma SnapRequestIndices(s: State, m: Message, complete: bool)
    requires Inv(s) && Enabled(s, OnSnapRequest(m, complete)) && m.SnapRequest? && m.to in s.nodes
    ensures IndicesAdvance(s.nodes[m.to], HandleSnapRequest(s.nodes[m.to], m, complete).0)
  {
    hide Inv, Enabled, NodeOK, LocalOK, HistoryOK, Completeness, CommitsOK, CommitOK, Agree, Adopts, ElectedOK,
         MessageOK;
    var n := s.nodes[m.to];
    SnapRequestOutcome(s, m, complete);
    if m.term >= n.term {
      MessageAt(s, m);
      SnapRequestFacts(s, m);
      PartsOf(s);
      FollowLeaderOK(s, m.to, m.from, m.term);
      var n1 := FollowLeader(n, m.term);
      if !(m.index <= |n1.log| && m.index > 0 && n1.log[m.index - 1].term == m.lastTerm) {
        MissesSnapshot(s, n1, m);
        InstallOK(s, m.to, n1, m.term, m.index, m.content);
      }
    }
  }

  /** Except for a crash, no index of a node ever goes back. */
  lemma StepAdvances(s: State, e: Event, t: State, a: Id)
    requires Inv(s) && Inv(t) && Step(s, e, t) && a in s.nodes && a in t.nodes && e != Crash(a)
    ensures IndicesAdvance(s.nodes[a], t.nodes[a])
  {
    hide *;
    if e.OnAppendRequest? || e.OnSnapRequest? {
      RequestStepMoves(s, e, t, a);
      IndicesStay(s.nodes[a], t.nodes[a]);
      if a == e.m.to {
        if e.OnAppendRequest? {
          NodeAt(s, a);
          NodeParts(s, a, s.nodes[a]);
          CommitStays(s, e.m);
          AppendRequestIndices(s.nodes[a], e.m);
        } else {
          SnapRequestIndices(s, e.m, e.complete);
        }
      }
    } else {
      OwnStepAdvances(s, e, t, a);
      AdvancesIndices(s.nodes[a], t.nodes[a]);
    }
  }

  lemma IndicesStay(n: Node, n': Node)
    ensures n == n' ==> IndicesAdvance(n, n')
  {
  }

  /** Merging a request never cuts a log below the commit index. */
  lemma CommitStays(s: State, m: Message)
    requires Inv(s) && m.AppendRequest? && Enabled(s, OnAppendRequest(m)) && m.to in s.nodes
    requires s.nodes[m.to].snapIndex <= |s.nodes[m.to].log|
    ensures var n := s.nodes[m.to];
            m.term >= n.term && Check(FollowLeader(n, m.term).log, n.snapIndex, m.prev, m.prevTerm).None? ==>
              m.prev <= |n.log| && |Merge(FollowLeader(n, m.term).log, m.prev, m.entries)| >= n.commitIndex
  {
    hide *;
    var n := s.nodes[m.to];
    AppendRequestOutcome(s, m);
    if m.term >= n.term {
      FollowLeaderShape(n, m.term);
      var n1 := FollowLeader(n, m.term);
      if Check(n1.log, n1.snapIndex, m.prev, m.prevTerm).None? {
        MessageAt(s, m);
        AppendRequestFacts(s, m);
        PartsOf(s);
        FollowLeaderOK(s, m.to, m.from, m.term);
        NodeParts(s, m.to, n1);
        MergeAdopts(s, n1, m);
        var log := Merge(n1.log, m.prev, m.entries);
        CommitIsCommitted(s, n1);
        AdoptedCommitOK(s, n1.log, m.term, m.prev + |m.entries|, log, n1.commitIndex);
        CommitInLog(s, log, n1.commitIndex, m.term);
      }
    }
  }

  lemma CommitIsCommitted(s: State, n: Node)
    requires LocalOK(s, n)
    ensures CommitOK(s, n.log, n.commitIndex, n.term)
  {
  }

  lemma CommitInLog(s: State, l: Log, c: nat, t: nat)
    requires CommitOK(s, l, c, t)
    ensures c <= |l|
  {
  }

  /** Between crashes every entry is applied once and in order: a step leaves the applied sequence or extends it. */
  lemma AppliedOnlyExtends(states: seq<State>, events: seq<Event>, k: nat, a: Id)
    requires Run(states, events) && k < |events| && a in states[k].nodes && events[k] != Crash(a)
    ensures a in states[k + 1].nodes && Extends(states[k].nodes[a].applied, states[k + 1].nodes[a].applied)
    ensures IndicesAdvance(states[k].nodes[a], states[k + 1].nodes[a])
  {
    hide Inv, NodeOK, Grows, Extends, CommitOK;
    RunInv(states, events, k);
    RunInv(states, events, k + 1);
    RunGrows(states, events, k, k + 1);
    GrowsHistory(states[k], states[k + 1]);
    StepAdvances(states[k], events[k], states[k + 1], a);
    AppliedIsCommitted(states[k], a);
    AppliedIsCommitted(states[k + 1], a);
    StateMachineSafety(states, events, k, k + 1, a, a);
  }

  // --- commit by last index ---

  /** A follower that takes a request in holds the leader's log up to the request's end. */
  lemma RequestTaken(s: State, m: Message)
    requires Inv(s) && m in s.net && m.AppendRequest? && m.to in s.nodes && m.term >= s.nodes[m.to].term
    requires s.nodes[m.to].snapIndex <= |s.nodes[m.to].log| && m.term in s.leaderLogs
    requires var n1 := FollowLeader(s.nodes[m.to], m.term); Check(n1.log, n1.snapIndex, m.prev, m.prevTerm).None?
    ensures var n1 := FollowLeader(s.nodes[m.to], m.term);
            m.prev <= |n1.log| && Agree(Merge(n1.log, m.prev, m.entries), s.leaderLogs[m.term], m.prev + |m.entries|)
  {
    hide Inv, NodeOK, Grows, Extends, CommitOK, LocalOK, HistoryOK, Completeness, ElectedOK, CommitsOK, Adopts,
         AppendRequestOK, MessageOK;
    var n1 := FollowLeader(s.nodes[m.to], m.term);
    MessageAt(s, m);
    AppendRequestFacts(s, m);
    FollowLeaderShape(s.nodes[m.to], m.term);
    PartsOf(s);
    FollowLeaderOK(s, m.to, m.from, m.term);
    NodeParts(s, m.to, n1);
    MergeAdopts(s, n1, m);
    AdoptTakes(n1.log, s.leaderLogs[m.term], m.prev + |m.entries|, Merge(n1.log, m.prev, m.entries));
  }

  /** Every request in flight ends inside its leader's log at or above the commit index it carries, and a follower that
      accepts it commits only entries the request has verified, even when a longer stale tail stays behind them. */
  lemma CommitByLastIndexIsSound(states: seq<State>, events: seq<Event>, k: nat, m: Message)
    requires Run(states, events) && k < |events| && events[k] == OnAppendRequest(m)
    ensures m.AppendRequest? && m.leaderCommit <= m.prev + |m.entries|
    ensures m.to in states[k].nodes && m.to in states[k + 1].nodes && m.term in states[k].leaderLogs
    ensures var c, c' := states[k].nodes[m.to].commitIndex, states[k + 1].nodes[m.to].commitIndex;
            c' != c ==>
              && c < c' == m.leaderCommit
              && Agree(states[k + 1].nodes[m.to].log, states[k].leaderLogs[m.term], m.prev + |m.entries|)
  {
    hide Inv, NodeOK, Grows, Extends, CommitOK, LocalOK, HistoryOK, Completeness, ElectedOK, CommitsOK, Adopts,
         AppendRequestOK, MessageOK, Init;
    var s, t := states[k], states[k + 1];
    assert Step(s, events[k], t);
    RunInv(states, events, k);
    AppendRequestOutcome(s, m);
    MessageAt(s, m);
    AppendRequestFacts(s, m);
    var n := s.nodes[m.to];
    if m.term >= n.term {
      var n1 := FollowLeader(n, m.term);
      FollowLeaderShape(n, m.term);
      if Check(n1.log, n1.snapIndex, m.prev, m.prevTerm).None? {
        RequestTaken(s, m);
      }
    }
  }
}
