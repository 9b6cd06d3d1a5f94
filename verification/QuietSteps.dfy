/** Steps that append to no leader log and elect nobody. */
module QuietSteps {
  import opened Entries
  import opened Protocol
  import opened Cluster
  import opened Quorums
  import opened Invariant
  import opened Stability

  /** `s'` is `s` after `id` became `n` and sent `out`; the client history may have changed too. */
  ghost predicate Becomes(s: State, s': State, id: Id, n: Node, out: set<Message>) {
    s' == Update(s, id, n, out).(submitted := s'.submitted, answers := s'.answers)
  }

  lemma QuietHistory(s: State, s': State, id: Id, n: Node, out: set<Message>)
    requires Becomes(s, s', id, n, out) && NodeOK(s, id, n)
    ensures s'.leaderLogs == s.leaderLogs && s'.elected == s.elected && s'.commits == s.commits && s.net <= s'.net
    ensures s'.nodes == s.nodes[id := n] && s'.base == s.base && s'.members == s.members && s'.voters == s.voters
    ensures forall m :: m in s'.net && m !in s.net ==> m in out
  {
  }

  lemma QuietFrame(s: State, s': State, id: Id, n: Node)
    requires id in s.nodes && Evolves(s.nodes[id], n)
    requires s'.nodes == s.nodes[id := n] && s'.base == s.base && s'.members == s.members && s'.voters == s.voters
    requires s'.leaderLogs == s.leaderLogs && s'.elected == s.elected && s.commits <= s'.commits && s.net <= s'.net
    ensures ActsAlone(s, s', id) && Grows(s, s')
    ensures (n.term == s.nodes[id].term && n.term !in s.leaderLogs ==> n.log == s.nodes[id].log) ==> KeepsLog(s, s', id)
  {
    assert s'.nodes.Keys == s.nodes.Keys;
  }

  lemma NodeOKLifts(s: State, s': State, id: Id, n: Node)
    requires Grows(s, s') && s'.leaderLogs == s.leaderLogs && s'.elected == s.elected && NodeOK(s, id, n)
    ensures NodeOK(s', id, n)
  {
    LocalOKStays(s, s', n);
    AcksOKStays(s, s', n);
    forall r | 0 <= r < |n.rounds| ensures RoundOK(s', id, n, n.rounds[r]) {
      RoundOKStays(s, s', id, n, n.rounds[r]);
    }
    forall f | f in n.matched && f in s'.nodes && n.role.Leader? ensures n.matched[f] <= AckOf(s'.nodes[f], n.term) {
      assert Evolves(s.nodes[f], s'.nodes[f]);
    }
  }

  lemma NodeAt(s: State, id: Id)
    requires Inv(s) && id in s.nodes
    ensures NodeOK(s, id, s.nodes[id])
  {
  }

  lemma MessageAt(s: State, m: Message)
    requires Inv(s) && m in s.net
    ensures MessageOK(s, m)
  {
  }

  lemma PartsOf(s: State)
    requires Inv(s)
    ensures Shape(s) && HistoryOK(s) && ElectedOK(s) && Completeness(s) && CommitsOK(s)
  {
  }

  lemma InvOf(s: State)
    requires Shape(s) && HistoryOK(s) && ElectedOK(s) && Completeness(s) && CommitsOK(s) && NodesOK(s) && VotesOK(s)
    requires NetOK(s)
    ensures Inv(s)
  {
  }

  lemma NodesOf(s: State, id: Id)
    requires forall q :: q in s.nodes && q != id ==> NodeOK(s, q, s.nodes[q])
    requires id in s.nodes ==> NodeOK(s, id, s.nodes[id])
    ensures NodesOK(s)
  {
  }

  /** A step in which the node casts the votes `votes`. */
  lemma VotingStep(s: State, s': State, id: Id, n: Node, out: set<Message>, votes: set<(nat, Id)>)
    requires Inv(s) && id in s.nodes && Becomes(s, s', id, n, out) && Evolves(s.nodes[id], n)
    requires NodeOK(s, id, n)
    requires n.term == s.nodes[id].term && n.term !in s.leaderLogs ==> n.log == s.nodes[id].log
    requires forall m :: m in out ==> MessageOK(s', m)
    requires n.cast == s.nodes[id].cast + votes
    requires forall b :: b in votes ==> BallotOK(s', n, b.0, b.1)
    ensures Inv(s') && Grows(s, s')
  {
    hide *;
    QuietHistory(s, s', id, n, out);
    QuietFrame(s, s', id, n);
    HistoryStays(s, s');
    OtherNodesStay(s, s', id);
    NodeOKLifts(s, s', id, n);
    NodesOf(s', id);
    BallotsStay(s, s', id, votes);
    NetStays(s, s', id);
    InvOf(s');
  }

  lemma QuietStep(s: State, s': State, id: Id, n: Node, out: set<Message>)
    requires Inv(s) && id in s.nodes && Becomes(s, s', id, n, out) && Evolves(s.nodes[id], n)
    requires NodeOK(s, id, n)
    requires n.term == s.nodes[id].term && n.term !in s.leaderLogs ==> n.log == s.nodes[id].log
    requires forall m :: m in out ==> MessageOK(s', m)
    requires n.cast == s.nodes[id].cast
    ensures Inv(s') && Grows(s, s')
  {
    hide *;
    VotingStep(s, s', id, n, out, {});
  }

  lemma FollowerLocalOK(s: State, n: Node, t: nat)
    requires LocalOK(s, n) && t >= n.term
    ensures LocalOK(s, BecomeFollower(n, t))
  {
    GrowsReflexive(s);
    CommitOKStays(s, s, n.log, n.commitIndex, n.term, t);
  }

  lemma FollowerRoundsOK(s: State, id: Id, n: Node, t: nat)
    requires RoundsOK(s, id, n) && t >= n.term && (t == n.term ==> !n.role.Leader?)
    requires (t, id) in s.elected ==> t <= n.term
    ensures RoundsOK(s, id, BecomeFollower(n, t))
  {
    var n' := BecomeFollower(n, t);
    forall r | 0 <= r < |n'.rounds| ensures RoundOK(s, id, n', n'.rounds[r]) {
      assert RoundOK(s, id, n, n.rounds[r]);
    }
  }

  /** Stepping down to follower, in a later term or from a candidacy. */
  lemma FollowerAcksOK(s: State, n: Node, t: nat)
    requires AcksOK(s, n) && t >= n.term
    ensures AcksOK(s, BecomeFollower(n, t))
  {
    hide MayCommit, Agree;
  }

  lemma BecomeFollowerOK(s: State, id: Id, n: Node, t: nat)
    requires ElectedOK(s) && id in s.nodes && n.term >= s.nodes[id].term && NodeOK(s, id, n)
    requires t > n.term || (t == n.term && !n.role.Leader?)
    ensures NodeOK(s, id, BecomeFollower(n, t)) && Evolves(n, BecomeFollower(n, t))
  {
    hide LocalOK, AcksOK, RoundsOK, Majority, Supporters;
    FollowerLocalOK(s, n, t);
    FollowerAcksOK(s, n, t);
    FollowerRoundsOK(s, id, n, t) by {
      if (t, id) in s.elected {
        assert (t, id).0 <= s.nodes[(t, id).1].term;
      }
    }
  }

  lemma EvolvesTransitive(a: Node, b: Node, c: Node)
    requires Evolves(a, b) && Evolves(b, c)
    ensures Evolves(a, c)
  {
  }

  lemma GrowsReflexive(s: State)
    ensures Grows(s, s)
  {
  }

  /** A step that only sends messages, or does nothing. */
  lemma SendingStep(s: State, s': State, id: Id, out: set<Message>)
    requires Inv(s) && id in s.nodes && Becomes(s, s', id, s.nodes[id], out)
    requires forall m :: m in out ==> MessageOK(s, m)
    ensures Inv(s') && Grows(s, s')
  {
    hide *;
    var n := s.nodes[id];
    NodeAt(s, id);
    EvolvesReflexive(n);
    QuietHistory(s, s', id, n, out);
    QuietFrame(s, s', id, n);
    forall m | m in out ensures MessageOK(s', m) {
      MessageStays(s, s', id, m);
    }
    QuietStep(s, s', id, n, out);
  }

  lemma EvolvesReflexive(n: Node)
    ensures Evolves(n, n)
  {
  }

  lemma GrowsTransitive(a: State, b: State, c: State)
    requires Grows(a, b) && Grows(b, c)
    ensures Grows(a, c)
  {
    forall id | id in a.nodes ensures Evolves(a.nodes[id], c.nodes[id]) {
      EvolvesTransitive(a.nodes[id], b.nodes[id], c.nodes[id]);
    }
    forall t | t in a.leaderLogs ensures t in c.leaderLogs && Extends(a.leaderLogs[t], c.leaderLogs[t]) {
      assert Extends(a.leaderLogs[t], b.leaderLogs[t]) && Extends(b.leaderLogs[t], c.leaderLogs[t]);
    }
  }
}
