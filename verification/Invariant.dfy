/** What holds in every reachable state of the cluster. */
module Invariant {
  import opened Entries
  import opened Protocol
  import opened Cluster
  import opened Quorums

  /** A log starts with the bootstrap entry, its terms never decrease, and up to each of its later entries it is
      the log of that entry's leader. */
  ghost predicate LogOK(base: Entry, leaderLogs: map<nat, Log>, l: Log) {
    && |l| >= 1 && l[0] == base && Sorted(l)
    && forall k :: 1 <= k < |l| ==> l[k].term in leaderLogs && Agree(l, leaderLogs[l[k].term], k + 1)
  }

  ghost predicate Shape(s: State) {
    s.base.term == 1 && s.voters <= s.members && s.nodes.Keys == s.members && "" !in s.members
  }

  ghost predicate LeaderLogOK(s: State, t: nat)
    requires t in s.leaderLogs
  {
    && t >= 1 && LogOK(s.base, s.leaderLogs, s.leaderLogs[t])
    && LastTerm(s.leaderLogs[t]) == t
    && forall k :: 0 <= k < |s.leaderLogs[t]| ==> s.leaderLogs[t][k].term <= t
  }

  ghost predicate HistoryOK(s: State) {
    forall t :: t in s.leaderLogs ==> LeaderLogOK(s, t)
  }

  /** The voters that voted for `id` in term `t`. */
  ghost function Supporters(s: State, t: nat, id: Id): set<Id> {
    set q | q in s.voters && q in s.nodes && (t, id) in s.nodes[q].cast
  }

  /** Every elected leader had a majority, and every leader log has an elected leader. */
  ghost predicate ElectedOK(s: State) {
    && (forall p :: p in s.elected ==>
          && p.0 in s.leaderLogs && p.1 in s.nodes && p.1 in s.voters
          && Majority(s.voters, Supporters(s, p.0, p.1)) && p.0 <= s.nodes[p.1].term)
    && (forall t :: t in s.leaderLogs ==> exists id :: (t, id) in s.elected)
  }

  /** The voters that have taken over the first `i` entries of term `t`'s leader log, or still can. */
  ghost function Possible(s: State, t: nat, i: nat): set<Id> {
    set q | q in s.voters && q in s.nodes && (s.nodes[q].term <= t || AckOf(s.nodes[q], t) >= i)
  }

  ghost function Ackers(s: State, t: nat, i: nat): set<Id> {
    set q | q in s.voters && q in s.nodes && AckOf(s.nodes[q], t) >= i
  }

  /** Entry `i` of term `t`'s leader log is of that term, and a majority has it or can still get it in that term. */
  ghost predicate MayCommit(s: State, t: nat, i: nat) {
    && t in s.leaderLogs && 1 <= i <= |s.leaderLogs[t]| && s.leaderLogs[t][i - 1].term == t
    && Majority(s.voters, Possible(s, t, i))
  }

  /** Leader completeness, stated before the fact: what may be committed in a term is in every later leader's log. */
  ghost predicate Completeness(s: State) {
    forall t: nat, u: nat, i: nat :: MayCommit(s, t, i) && u in s.leaderLogs && t < u ==>
      Agree(s.leaderLogs[u], s.leaderLogs[t], i)
  }

  ghost predicate Committed(s: State, t: nat, i: nat) {
    && t in s.leaderLogs && 1 <= i <= |s.leaderLogs[t]| && s.leaderLogs[t][i - 1].term == t
    && Majority(s.voters, Ackers(s, t, i))
  }

  ghost predicate CommitsOK(s: State) {
    forall w :: w in s.commits ==> Committed(s, w.0, w.1)
  }

  /** The first `c` entries of `l` were committed by a scan in a term not above `t`. */
  ghost predicate CommitOK(s: State, l: Log, c: nat, t: nat) {
    && c <= |l|
    && (c > 0 ==> exists w ::
            w in s.commits && w.0 <= t && c <= w.1 && w.0 in s.leaderLogs && Agree(l, s.leaderLogs[w.0], c))
  }

  /** What a node acknowledged and a majority may still commit, it still holds. */
  ghost predicate Retains(s: State, n: Node) {
    forall t: nat, i: nat :: MayCommit(s, t, i) && AckOf(n, t) >= i ==> Agree(n.log, s.leaderLogs[t], i)
  }

  ghost predicate AcksOK(s: State, n: Node) {
    && (forall t :: t in n.acks ==> t <= n.term && t in s.leaderLogs && n.acks[t] <= |s.leaderLogs[t]|)
    && (n.term in n.acks ==> Agree(n.log, s.leaderLogs[n.term], n.acks[n.term]))
    && Retains(s, n)
  }

  ghost predicate LocalOK(s: State, n: Node) {
    && n.diskTerm == n.term && n.diskVote == n.votedFor
    && LogOK(s.base, s.leaderLogs, n.log)
    && (forall k :: 1 <= k < |n.log| ==> n.log[k].term <= n.term)
    && n.snapIndex <= n.lastApplied <= n.commitIndex <= |n.log|
    && n.applied == n.log[..n.lastApplied]
    && CommitOK(s, n.log, n.commitIndex, n.term)
    && (forall b :: b in n.cast ==> b.0 <= n.term)
    && (forall t, c, d :: (t, c) in n.cast && (t, d) in n.cast ==> c == d)
    && n.live <= |n.rounds|
    && (!n.role.Leader? ==> n.pending == map[])
  }

  ghost predicate RoundOK(s: State, id: Id, n: Node, r: Round) {
    && r.granted <= s.voters - {id}
    && (!r.prevote ==>
          && 1 <= r.term <= n.term && (r.term, id) in n.cast && id in s.voters
          && forall q :: q in r.granted && q in s.nodes ==> (r.term, id) in s.nodes[q].cast)
  }

  ghost predicate RoundsOK(s: State, id: Id, n: Node) {
    && (forall r :: 0 <= r < |n.rounds| ==> RoundOK(s, id, n, n.rounds[r]))
    && ((n.term, id) in s.elected && !n.role.Leader? ==>
          forall r :: n.live <= r < |n.rounds| && !n.rounds[r].prevote ==> n.rounds[r].term != n.term)
  }

  /** A leader's log is the log of its term, and it knows no more of a follower than the follower acknowledged. */
  ghost predicate LeaderOK(s: State, id: Id, n: Node) {
    n.role.Leader? ==>
      && (n.term, id) in s.elected && n.term in s.leaderLogs && s.leaderLogs[n.term] == n.log
      && AckOf(n, n.term) == |n.log|
      && n.next.Keys == s.members && n.matched.Keys == s.members
      && (forall f :: f in n.next ==> n.next[f] <= |n.log| + 1)
      && (forall f :: f in n.matched && f in s.nodes ==> n.matched[f] <= AckOf(s.nodes[f], n.term))
  }

  ghost predicate NodeOK(s: State, id: Id, n: Node) {
    LocalOK(s, n) && AcksOK(s, n) && RoundsOK(s, id, n) && LeaderOK(s, id, n)
  }

  /** While the candidate has not been elected, its log holds whatever a supporter acknowledged that may be committed.
      */
  ghost predicate BallotOK(s: State, n: Node, t: nat, c: Id) {
    && c in s.nodes && t <= s.nodes[c].term
    && (t !in s.leaderLogs && s.nodes[c].term == t ==>
          forall u: nat, i: nat :: MayCommit(s, u, i) && u < t && AckOf(n, u) >= i ==>
            Agree(s.nodes[c].log, s.leaderLogs[u], i))
  }

  ghost predicate BallotsOK(s: State, n: Node) {
    forall b :: b in n.cast ==> BallotOK(s, n, b.0, b.1)
  }

  ghost predicate VoteRequestOK(s: State, m: Message)
    requires m.VoteRequest?
  {
    && m.from in s.nodes && m.from in s.voters && m.to in s.voters && m.to != m.from
    && m.round < |s.nodes[m.from].rounds|
    && s.nodes[m.from].rounds[m.round].prevote == m.prevote
    && (!m.prevote ==>
          && s.nodes[m.from].rounds[m.round].term == m.term
          && m.term <= s.nodes[m.from].term
          && (m.term !in s.leaderLogs && s.nodes[m.from].term == m.term ==>
                m.lastIndex == |s.nodes[m.from].log| && m.lastTerm == LastTerm(s.nodes[m.from].log)))
  }

  ghost predicate VoteResponseOK(s: State, m: Message)
    requires m.VoteResponse?
  {
    && m.to in s.nodes && m.from in s.voters && m.from != m.to
    && m.round < |s.nodes[m.to].rounds|
    && s.nodes[m.to].rounds[m.round].prevote == m.prevote
    && (!m.prevote ==>
          && s.nodes[m.to].rounds[m.round].term == m.requestTerm
          && (m.granted ==> m.from in s.nodes && (m.requestTerm, m.to) in s.nodes[m.from].cast))
  }

  /** A request carries a stretch of its term's leader log, and its leader commit lies inside what it verifies. */
  ghost predicate AppendRequestOK(s: State, m: Message)
    requires m.AppendRequest?
  {
    && m.from != m.to && m.from in s.members && (m.term, m.from) in s.elected && m.term in s.leaderLogs
    && m.prev + |m.entries| <= |s.leaderLogs[m.term]|
    && m.entries == s.leaderLogs[m.term][m.prev..m.prev + |m.entries|]
    && m.prevTerm == TermAt(s.leaderLogs[m.term], m.prev)
    && m.leaderCommit <= m.prev + |m.entries|
    && CommitOK(s, s.leaderLogs[m.term], m.leaderCommit, m.term)
  }

  ghost predicate AppendResponseOK(s: State, m: Message)
    requires m.AppendResponse?
  {
    && m.from in s.nodes && m.requestTerm in s.leaderLogs && m.from != m.to
    && (m.success ==> m.upTo <= AckOf(s.nodes[m.from], m.requestTerm))
    && (!m.success && m.term <= m.requestTerm ==> m.hint <= |s.leaderLogs[m.requestTerm]| + 1)
    && m.requestTerm <= m.term
  }

  ghost predicate SnapRequestOK(s: State, m: Message)
    requires m.SnapRequest?
  {
    && m.from != m.to && m.from in s.members && (m.term, m.from) in s.elected && m.term in s.leaderLogs
    && 1 <= m.index <= |s.leaderLogs[m.term]|
    && m.content == s.leaderLogs[m.term][..m.index]
    && m.lastTerm == s.leaderLogs[m.term][m.index - 1].term
    && CommitOK(s, s.leaderLogs[m.term], m.index, m.term)
  }

  ghost predicate SnapResponseOK(s: State, m: Message)
    requires m.SnapResponse?
  {
    && m.from in s.nodes && m.requestTerm in s.leaderLogs && m.from != m.to
    && (m.covered ==> 1 <= m.index <= AckOf(s.nodes[m.from], m.requestTerm))
    && m.requestTerm <= m.term
  }

  ghost predicate MessageOK(s: State, m: Message) {
    match m
    case VoteRequest(_, _, _, _, _, _, _) => VoteRequestOK(s, m)
    case VoteResponse(_, _, _, _, _, _, _) => VoteResponseOK(s, m)
    case AppendRequest(_, _, _, _, _, _, _) => AppendRequestOK(s, m)
    case AppendResponse(_, _, _, _, _, _, _) => AppendResponseOK(s, m)
    case SnapRequest(_, _, _, _, _, _) => SnapRequestOK(s, m)
    case SnapResponse(_, _, _, _, _, _) => SnapResponseOK(s, m)
  }

  ghost predicate NodesOK(s: State) {
    forall id :: id in s.nodes ==> NodeOK(s, id, s.nodes[id])
  }

  ghost predicate VotesOK(s: State) {
    forall id :: id in s.nodes ==> BallotsOK(s, s.nodes[id])
  }

  ghost predicate NetOK(s: State) {
    forall m :: m in s.net ==> MessageOK(s, m)
  }

  ghost predicate Inv(s: State) {
    && Shape(s) && HistoryOK(s) && ElectedOK(s) && Completeness(s) && CommitsOK(s)
    && NodesOK(s) && VotesOK(s) && NetOK(s)
  }
}
