/** What one step of one node leaves in place for everybody else. */
module Stability {
  import opened Entries
  import opened Protocol
  import opened Cluster
  import opened Quorums
  import opened Invariant

  /** A node's term, votes, acknowledgements and rounds only grow, and below its term its acknowledgements are final. */
  ghost predicate Evolves(n: Node, n': Node) {
    && n.term <= n'.term && n.cast <= n'.cast
    && (forall t :: t in n.acks ==> t in n'.acks && n.acks[t] <= n'.acks[t])
    && (forall t :: t in n'.acks && t < n.term ==> t in n.acks && n'.acks[t] == n.acks[t])
    && |n.rounds| <= |n'.rounds|
    && (forall r :: 0 <= r < |n.rounds| ==>
          n'.rounds[r].prevote == n.rounds[r].prevote && n'.rounds[r].term == n.rounds[r].term)
  }

  ghost predicate Extends(l: Log, l': Log) {
    Agree(l, l', |l|)
  }

  ghost predicate Grows(s: State, s': State) {
    && s'.base == s.base && s'.members == s.members && s'.voters == s.voters && s'.nodes.Keys == s.nodes.Keys
    && (forall id :: id in s.nodes ==> Evolves(s.nodes[id], s'.nodes[id]))
    && (forall t :: t in s.leaderLogs ==> t in s'.leaderLogs && Extends(s.leaderLogs[t], s'.leaderLogs[t]))
    && s.elected <= s'.elected && s.commits <= s'.commits && s.net <= s'.net
  }

  /** A step of `actor`: every other node is as before, and only the actor's own terms got longer leader logs. */
  ghost predicate ActsAlone(s: State, s': State, actor: Id) {
    && Grows(s, s') && actor in s.nodes
    && (forall id :: id in s.nodes && id != actor ==> s'.nodes[id] == s.nodes[id])
    && (forall p :: p in s'.elected ==> p in s.elected || p.1 == actor)
    && (forall t :: t in s.leaderLogs ==> s'.leaderLogs[t] == s.leaderLogs[t] || (t, actor) in s.elected)
  }

  /** A node that stays in a term that has no leader keeps its log. */
  ghost predicate KeepsLog(s: State, s': State, actor: Id)
    requires actor in s.nodes && actor in s'.nodes
  {
    s'.nodes[actor].term == s.nodes[actor].term && s'.nodes[actor].term !in s'.leaderLogs ==>
      s'.nodes[actor].log == s.nodes[actor].log
  }

  lemma PossibleShrinks(s: State, s': State, t: nat, i: nat)
    requires Grows(s, s') && i >= 1
    ensures Possible(s', t, i) <= Possible(s, t, i)
  {
    forall q | q in Possible(s', t, i) ensures q in Possible(s, t, i) {
      assert Evolves(s.nodes[q], s'.nodes[q]);
    }
  }

  /** An old entry that may still be committed could be committed before. */
  lemma MayCommitBack(s: State, s': State, t: nat, i: nat)
    requires Grows(s, s') && MayCommit(s', t, i) && t in s.leaderLogs && i <= |s.leaderLogs[t]|
    ensures MayCommit(s, t, i)
  {
    PossibleShrinks(s, s', t, i);
    MajorityGrows(s.voters, Possible(s', t, i), Possible(s, t, i));
  }

  lemma SupportersGrow(s: State, s': State, t: nat, id: Id)
    requires Grows(s, s') && Majority(s.voters, Supporters(s, t, id))
    ensures Majority(s'.voters, Supporters(s', t, id))
  {
    forall q | q in Supporters(s, t, id) ensures q in Supporters(s', t, id) {
      assert Evolves(s.nodes[q], s'.nodes[q]);
    }
    MajorityGrows(s.voters, Supporters(s, t, id), Supporters(s', t, id));
  }

  lemma CommittedStays(s: State, s': State, t: nat, i: nat)
    requires Grows(s, s') && Committed(s, t, i)
    ensures Committed(s', t, i)
  {
    forall q | q in Ackers(s, t, i) ensures q in Ackers(s', t, i) {
      assert Evolves(s.nodes[q], s'.nodes[q]);
    }
    MajorityGrows(s.voters, Ackers(s, t, i), Ackers(s', t, i));
  }

  lemma CommitOKStays(s: State, s': State, l: Log, c: nat, t: nat, t': nat)
    requires Grows(s, s') && CommitOK(s, l, c, t) && t <= t'
    ensures CommitOK(s', l, c, t')
  {
    if c > 0 {
      var w :| w in s.commits && w.0 <= t && c <= w.1 && w.0 in s.leaderLogs && Agree(l, s.leaderLogs[w.0], c);
      assert w in s'.commits && Agree(l, s'.leaderLogs[w.0], c);
    }
  }

  lemma LogOKStays(s: State, s': State, l: Log)
    requires Grows(s, s') && LogOK(s.base, s.leaderLogs, l)
    ensures LogOK(s'.base, s'.leaderLogs, l)
  {
    forall k | 1 <= k < |l| ensures l[k].term in s'.leaderLogs && Agree(l, s'.leaderLogs[l[k].term], k + 1) {
      assert Extends(s.leaderLogs[l[k].term], s'.leaderLogs[l[k].term]);
    }
  }

  lemma LocalOKStays(s: State, s': State, n: Node)
    requires Grows(s, s') && LocalOK(s, n)
    ensures LocalOK(s', n)
  {
    LogOKStays(s, s', n.log);
    CommitOKStays(s, s', n.log, n.commitIndex, n.term, n.term);
  }

  lemma AcksOKStays(s: State, s': State, n: Node)
    requires Grows(s, s') && AcksOK(s, n)
    ensures AcksOK(s', n)
  {
    forall t: nat, i: nat | MayCommit(s', t, i) && AckOf(n, t) >= i ensures Agree(n.log, s'.leaderLogs[t], i) {
      assert t in n.acks;
      MayCommitBack(s, s', t, i);
      assert Agree(n.log, s.leaderLogs[t], i);
    }
  }

  /** No two nodes are elected in the same term. */
  lemma OneLeaderPerTerm(s: State, t: nat, a: Id, b: Id)
    requires Inv(s) && (t, a) in s.elected && (t, b) in s.elected
    ensures a == b
  {
    var q := MajoritiesIntersect(s.voters, Supporters(s, t, a), Supporters(s, t, b));
    assert NodeOK(s, q, s.nodes[q]);
  }

  lemma LeaderOKStays(s: State, s': State, actor: Id, id: Id)
    requires ActsAlone(s, s', actor) && id in s.nodes && id != actor && LeaderOK(s, id, s.nodes[id])
    requires (s.nodes[id].term, id) in s.elected ==> (s.nodes[id].term, actor) !in s.elected
    ensures LeaderOK(s', id, s.nodes[id])
  {
    var n := s.nodes[id];
    if n.role.Leader? {
      forall f | f in n.matched && f in s'.nodes ensures n.matched[f] <= AckOf(s'.nodes[f], n.term) {
        assert Evolves(s.nodes[f], s'.nodes[f]);
      }
    }
  }

  lemma NodeOKStays(s: State, s': State, actor: Id, id: Id)
    requires Inv(s) && ActsAlone(s, s', actor) && id in s.nodes && id != actor
    ensures NodeOK(s', id, s'.nodes[id])
  {
    var n := s.nodes[id];
    assert NodeOK(s, id, n);
    LocalOKStays(s, s', n);
    AcksOKStays(s, s', n);
    RoundsOKStay(s, s', actor, id);
    if (n.term, id) in s.elected && (n.term, actor) in s.elected {
      OneLeaderPerTerm(s, n.term, actor, id);
    }
    LeaderOKStays(s, s', actor, id);
  }

  lemma RoundOKStays(s: State, s': State, id: Id, n: Node, r: Round)
    requires Grows(s, s') && RoundOK(s, id, n, r)
    ensures RoundOK(s', id, n, r)
  {
    if !r.prevote {
      forall q | q in r.granted && q in s'.nodes ensures (r.term, id) in s'.nodes[q].cast {
        assert Evolves(s.nodes[q], s'.nodes[q]);
      }
    }
  }

  lemma RoundsOKStay(s: State, s': State, actor: Id, id: Id)
    requires ActsAlone(s, s', actor) && id in s.nodes && id != actor && RoundsOK(s, id, s.nodes[id])
    ensures RoundsOK(s', id, s.nodes[id])
  {
    var n := s.nodes[id];
    forall r | 0 <= r < |n.rounds| ensures RoundOK(s', id, n, n.rounds[r]) {
      RoundOKStays(s, s', id, n, n.rounds[r]);
    }
  }

  lemma OtherNodesStay(s: State, s': State, actor: Id)
    requires Inv(s) && ActsAlone(s, s', actor)
    ensures forall id :: id in s'.nodes && id != actor ==> NodeOK(s', id, s'.nodes[id])
  {
    forall id | id in s'.nodes && id != actor ensures NodeOK(s', id, s'.nodes[id]) {
      NodeOKStays(s, s', actor, id);
    }
  }

  lemma BallotAt(s: State, q: Id, t: nat, c: Id)
    requires Inv(s) && q in s.nodes && (t, c) in s.nodes[q].cast
    ensures BallotOK(s, s.nodes[q], t, c) && t <= s.nodes[q].term
    ensures forall v :: v in s.nodes[q].acks ==> v in s.leaderLogs && s.nodes[q].acks[v] <= |s.leaderLogs[v]|
  {
    var n := s.nodes[q];
    assert NodeOK(s, q, n) && BallotsOK(s, n);
    assert BallotOK(s, n, (t, c).0, (t, c).1);
  }

  lemma BallotStays(s: State, s': State, actor: Id, q: Id, t: nat, c: Id)
    requires Inv(s) && ActsAlone(s, s', actor) && KeepsLog(s, s', actor) && q in s.nodes && (t, c) in s.nodes[q].cast
    ensures BallotOK(s', s'.nodes[q], t, c)
  {
    hide Inv, Agree, Majority, Possible;
    var n := s.nodes[q];
    BallotAt(s, q, t, c);
    assert Evolves(n, s'.nodes[q]) && Evolves(s.nodes[c], s'.nodes[c]);
    if t !in s'.leaderLogs && s'.nodes[c].term == t {
      assert s'.nodes[c].log == s.nodes[c].log;
      forall u: nat, i: nat | MayCommit(s', u, i) && u < t && AckOf(s'.nodes[q], u) >= i
        ensures Agree(s'.nodes[c].log, s'.leaderLogs[u], i)
      {
        BallotAgrees(s, s', n, s'.nodes[q], t, c, u, i);
      }
    }
  }

  lemma BallotAgrees(s: State, s': State, n: Node, n': Node, t: nat, c: Id, u: nat, i: nat)
    requires Grows(s, s') && Evolves(n, n') && BallotOK(s, n, t, c) && t <= n.term
    requires t !in s.leaderLogs && c in s.nodes && s.nodes[c].term == t
    requires MayCommit(s', u, i) && u < t && AckOf(n', u) >= i
    requires forall v :: v in n.acks ==> v in s.leaderLogs && n.acks[v] <= |s.leaderLogs[v]|
    ensures Agree(s.nodes[c].log, s'.leaderLogs[u], i)
  {
    assert u in n.acks && AckOf(n, u) >= i;
    MayCommitBack(s, s', u, i);
  }

  lemma BallotsStay(s: State, s': State, actor: Id, added: set<(nat, Id)>)
    requires Inv(s) && ActsAlone(s, s', actor) && KeepsLog(s, s', actor)
    requires s'.nodes[actor].cast == s.nodes[actor].cast + added
    requires forall b :: b in added ==> BallotOK(s', s'.nodes[actor], b.0, b.1)
    ensures VotesOK(s')
  {
    hide Inv, KeepsLog, BallotOK, Evolves;
    forall q, b | q in s'.nodes && b in s'.nodes[q].cast ensures BallotOK(s', s'.nodes[q], b.0, b.1) {
      if b in s.nodes[q].cast {
        BallotStays(s, s', actor, q, b.0, b.1);
      }
    }
  }

  lemma VoteRequestStays(s: State, s': State, actor: Id, m: Message)
    requires ActsAlone(s, s', actor) && KeepsLog(s, s', actor) && m.VoteRequest? && VoteRequestOK(s, m)
    ensures VoteRequestOK(s', m)
  {
    assert Evolves(s.nodes[m.from], s'.nodes[m.from]);
  }

  lemma VoteResponseStays(s: State, s': State, m: Message)
    requires Grows(s, s') && m.VoteResponse? && VoteResponseOK(s, m)
    ensures VoteResponseOK(s', m)
  {
    assert Evolves(s.nodes[m.to], s'.nodes[m.to]);
    if m.from in s.nodes {
      assert Evolves(s.nodes[m.from], s'.nodes[m.from]);
    }
  }

  lemma AppendRequestStays(s: State, s': State, m: Message)
    requires Grows(s, s') && m.AppendRequest? && AppendRequestOK(s, m)
    ensures AppendRequestOK(s', m)
  {
    var l, l' := s.leaderLogs[m.term], s'.leaderLogs[m.term];
    assert Extends(l, l');
    assert l'[m.prev..m.prev + |m.entries|] == l[m.prev..m.prev + |m.entries|];
    CommitOKStays(s, s', l, m.leaderCommit, m.term, m.term);
  }

  lemma SnapRequestStays(s: State, s': State, m: Message)
    requires Grows(s, s') && m.SnapRequest? && SnapRequestOK(s, m)
    ensures SnapRequestOK(s', m)
  {
    var l, l' := s.leaderLogs[m.term], s'.leaderLogs[m.term];
    assert Extends(l, l');
    assert l'[..m.index] == l[..m.index];
    CommitOKStays(s, s', l, m.index, m.term, m.term);
  }

  lemma MessageStays(s: State, s': State, actor: Id, m: Message)
    requires ActsAlone(s, s', actor) && KeepsLog(s, s', actor) && MessageOK(s, m)
    ensures MessageOK(s', m)
  {
    match m
    case VoteRequest(_, _, _, _, _, _, _) => VoteRequestStays(s, s', actor, m);
    case VoteResponse(_, _, _, _, _, _, _) => VoteResponseStays(s, s', m);
    case AppendRequest(_, _, _, _, _, _, _) => AppendRequestStays(s, s', m);
    case AppendResponse(_, _, _, _, _, _, _) =>
      assert Evolves(s.nodes[m.from], s'.nodes[m.from]);
      assert Extends(s.leaderLogs[m.requestTerm], s'.leaderLogs[m.requestTerm]);
    case SnapRequest(_, _, _, _, _, _) => SnapRequestStays(s, s', m);
    case SnapResponse(_, _, _, _, _, _) => assert Evolves(s.nodes[m.from], s'.nodes[m.from]);
  }

  lemma NetStays(s: State, s': State, actor: Id)
    requires Inv(s) && ActsAlone(s, s', actor) && KeepsLog(s, s', actor)
    requires forall m :: m in s'.net && m !in s.net ==> MessageOK(s', m)
    ensures NetOK(s')
  {
    forall m | m in s'.net ensures MessageOK(s', m) {
      if m in s.net {
        MessageStays(s, s', actor, m);
      }
    }
  }

  /** A step that leaves the leader logs and elections alone. */
  lemma LeaderLogsStay(s: State, s': State)
    requires HistoryOK(s) && s'.leaderLogs == s.leaderLogs && s'.base == s.base
    ensures HistoryOK(s')
  {
    forall t | t in s'.leaderLogs ensures LeaderLogOK(s', t) {
      assert LeaderLogOK(s, t);
    }
  }

  lemma ElectedStays(s: State, s': State)
    requires ElectedOK(s) && Grows(s, s') && s'.leaderLogs == s.leaderLogs && s'.elected == s.elected
    ensures ElectedOK(s')
  {
    hide Majority, Supporters, Extends;
    forall p | p in s'.elected
      ensures p.0 in s'.leaderLogs && p.1 in s'.nodes && p.1 in s'.voters
      ensures Majority(s'.voters, Supporters(s', p.0, p.1)) && p.0 <= s'.nodes[p.1].term
    {
      SupportersGrow(s, s', p.0, p.1);
      assert Evolves(s.nodes[p.1], s'.nodes[p.1]);
    }
  }

  lemma CompletenessStays(s: State, s': State)
    requires Completeness(s) && Grows(s, s') && s'.leaderLogs == s.leaderLogs
    ensures Completeness(s')
  {
    forall t: nat, u: nat, i: nat | MayCommit(s', t, i) && u in s'.leaderLogs && t < u
      ensures Agree(s'.leaderLogs[u], s'.leaderLogs[t], i)
    {
      MayCommitBack(s, s', t, i);
    }
  }

  lemma CommitsStay(s: State, s': State)
    requires CommitsOK(s) && Grows(s, s')
    requires forall w :: w in s'.commits && w !in s.commits ==> Committed(s', w.0, w.1)
    ensures CommitsOK(s')
  {
    hide Committed;
    forall w | w in s'.commits ensures Committed(s', w.0, w.1) {
      if w in s.commits {
        CommittedStays(s, s', w.0, w.1);
      }
    }
  }

  lemma HistoryStays(s: State, s': State)
    requires Inv(s) && Grows(s, s') && s'.leaderLogs == s.leaderLogs && s'.elected == s.elected
    requires forall w :: w in s'.commits && w !in s.commits ==> Committed(s', w.0, w.1)
    ensures HistoryOK(s') && ElectedOK(s') && Completeness(s') && CommitsOK(s') && Shape(s')
  {
    hide HistoryOK, ElectedOK, Completeness, CommitsOK, Committed, NodesOK, VotesOK, NetOK;
    LeaderLogsStay(s, s');
    ElectedStays(s, s');
    CompletenessStays(s, s');
    CommitsStay(s, s');
  }
}
