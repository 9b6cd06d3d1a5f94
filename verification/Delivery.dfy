/** From a submission to its answer: a leader that reaches a majority replicates its log, commits all of it, and answers
    every client that waits. */
module Delivery {
  import opened Entries
  import opened Protocol
  import opened Cluster
  import opened Invariant
  import opened Repair
  import opened RaftNode
  import opened Progress
  import opened Safety
  import opened NodeInCluster
  import opened Service
  import opened CatchUp
  import C = Clients

  /** The leader has changed nothing but what it knows of one follower. */
  ghost predicate OnlyAbout(l: Node, l': Node, fid: Id) {
    && l' == l.(next := l'.next, matched := l'.matched)
    && l'.next.Keys == l.next.Keys && l'.matched.Keys == l.matched.Keys
    && (forall p :: p in l.next && p != fid ==> l'.next[p] == l.next[p])
    && (forall p :: p in l.matched && p != fid ==> l'.matched[p] == l.matched[p])
  }

  lemma ReplyOnlyAbout(l: Node, y: Message)
    requires y.AppendResponse? && y.term <= l.term
    ensures OnlyAbout(l, HandleAppendResponse(l, y), y.from)
  {
  }

  lemma ExchangeOnlyAbout(l: Node, lid: Id, f: Node, fid: Id)
    requires Meets(l, f, fid)
    ensures OnlyAbout(l, Exchange(l, lid, f, fid).0, fid)
  {
    hide HandleAppendRequest, HandleAppendResponse, OnlyAbout;
    var m := BuildAppendRequest(l, lid, fid);
    FollowerAnswers(f, m);
    ReplyOnlyAbout(l, HandleAppendRequest(f, m).1);
  }

  lemma OnlyAboutTransitive(l: Node, l1: Node, l2: Node, fid: Id)
    requires OnlyAbout(l, l1, fid) && OnlyAbout(l1, l2, fid)
    ensures OnlyAbout(l, l2, fid)
  {
  }

  lemma OnlyAboutReflexive(l: Node, fid: Id)
    ensures OnlyAbout(l, l, fid)
  {
  }

  lemma {:induction false} ExchangesOnlyAbout(l: Node, lid: Id, f: Node, fid: Id, k: nat)
    requires Pair(l, f, fid) && k <= Rejections(l.log, f.log, f.snapIndex, l.next[fid])
    ensures OnlyAbout(l, Exchanges(l, lid, f, fid, k).0, fid)
    decreases k
  {
    hide OnlyAbout, Exchange, Repairable, Probe;
    OnlyAboutReflexive(l, fid);
    if k > 0 {
      RejectedExchange(l, lid, f, fid);
      ExchangesUnfold(l, lid, f, fid, k);
      var (l', f') := Exchange(l, lid, f, fid);
      ExchangeOnlyAbout(l, lid, f, fid);
      ExchangesOnlyAbout(l', lid, f', fid, k - 1);
      OnlyAboutTransitive(l, l', Exchanges(l', lid, f', fid, k - 1).0, fid);
    }
  }

  /** As many exchanges with one follower as it takes. */
  function RepairOne(l: Node, lid: Id, f: Node, fid: Id): (Node, Node)
    requires Pair(l, f, fid) && l.commitIndex <= |l.log|
  {
    PairFacts(l, f, fid);
    var k := Rejections(l.log, f.log, f.snapIndex, l.next[fid]);
    ExchangesRepair(l, lid, f, fid, k);
    var (l1, f1) := Exchanges(l, lid, f, fid, k);
    PairFacts(l1, f1, fid);
    Exchange(l1, lid, f1, fid)
  }

  lemma RepairOneOutcome(l: Node, lid: Id, f: Node, fid: Id)
    requires Pair(l, f, fid) && l.commitIndex <= |l.log|
    ensures var (l', f') := RepairOne(l, lid, f, fid);
            OnlyAbout(l, l', fid) && fid in l'.matched && l'.matched[fid] == |l.log| && Agree(f'.log, l.log, |l.log|)
  {
    hide OnlyAbout, Exchange, Repairable, Pair, Agree;
    PairFacts(l, f, fid);
    var k := Rejections(l.log, f.log, f.snapIndex, l.next[fid]);
    ExchangesRepair(l, lid, f, fid, k);
    ExchangesOnlyAbout(l, lid, f, fid, k);
    var (l1, f1) := Exchanges(l, lid, f, fid, k);
    PairFacts(l1, f1, fid);
    ExchangeOnlyAbout(l1, lid, f1, fid);
    OnlyAboutTransitive(l, l1, Exchange(l1, lid, f1, fid).0, fid);
  }

  ghost predicate AllPairs(l: Node, fs: map<Id, Node>, qs: seq<Id>) {
    forall q :: q in qs ==> q in fs && Pair(l, fs[q], q)
  }

  /** The leader has changed nothing but what it knows of the followers in `qs`, and knows that those match its log. */
  ghost predicate MatchedBy(l: Node, l': Node, qs: seq<Id>) {
    && l' == l.(next := l'.next, matched := l'.matched)
    && l'.next.Keys == l.next.Keys && l'.matched.Keys == l.matched.Keys
    && (forall p :: p in l.next && p !in qs ==> l'.next[p] == l.next[p])
    && (forall p :: p in l.matched && p !in qs ==> l'.matched[p] == l.matched[p])
    && (forall q :: q in qs ==> q in l'.matched && l'.matched[q] == |l.log|)
  }

  lemma MatchedByOneMore(l: Node, l1: Node, l2: Node, qs: seq<Id>)
    requires qs != [] && Distinct(qs) && MatchedBy(l, l1, qs[..|qs| - 1]) && OnlyAbout(l1, l2, qs[|qs| - 1])
    requires qs[|qs| - 1] in l2.matched && l2.matched[qs[|qs| - 1]] == |l.log|
    ensures MatchedBy(l, l2, qs)
  {
    assert qs == qs[..|qs| - 1] + [qs[|qs| - 1]];
  }

  lemma StillPair(l: Node, l1: Node, fs: map<Id, Node>, qs: seq<Id>)
    requires qs != [] && Distinct(qs) && AllPairs(l, fs, qs) && MatchedBy(l, l1, qs[..|qs| - 1])
    ensures qs[|qs| - 1] in fs && Pair(l1, fs[qs[|qs| - 1]], qs[|qs| - 1])
  {
    hide Repairable;
    assert qs[|qs| - 1] !in qs[..|qs| - 1];
  }

  /** Repairs one follower after another. */
  ghost function Replicated(l: Node, lid: Id, fs: map<Id, Node>, qs: seq<Id>): (l': Node)
    requires AllPairs(l, fs, qs) && Distinct(qs) && l.commitIndex <= |l.log|
    ensures MatchedBy(l, l', qs)
  {
    if qs == [] then l
    else
      var q, before := qs[|qs| - 1], qs[..|qs| - 1];
      var l1 := Replicated(l, lid, fs, before);
      StillPair(l, l1, fs, qs);
      RepairOneOutcome(l1, lid, fs[q], q);
      MatchedByOneMore(l, l1, RepairOne(l1, lid, fs[q], q).0, qs);
      RepairOne(l1, lid, fs[q], q).0
  }

  /** Submissions are answered: a leader that reaches enough followers to make a majority with itself repairs their
      logs, commits its whole log in one scan, applies all of it, and answers every client that waits, with its own
      operation. */
  lemma OperationsAreDelivered(l: Node, lid: Id, voters: set<Id>, fs: map<Id, Node>, qs: seq<Id>)
    requires l.role.Leader? && l.lastApplied <= l.commitIndex <= |l.log| && l.log != [] && LastTerm(l.log) == l.term
    requires AllPairs(l, fs, qs) && Distinct(qs) && 2 * (1 + |qs|) > |voters|
    requires forall q :: q in qs ==> q in voters && q != lid
    requires forall i :: i in l.pending ==> l.lastApplied < i <= |l.log| && l.log[i - 1].kind.Operation?
    ensures var l1 := CommitScan(Replicated(l, lid, fs, qs), lid, voters);
            && l1.log == l.log && l1.commitIndex == |l.log|
            && ApplyAll(l1).applied == l.applied + l.log[l.lastApplied..] && ApplyAll(l1).pending == map[]
            && forall i :: i in l.pending ==>
                 Answer(l.pending[i], i, l.log[i - 1].term, l.log[i - 1].data) in AllAnswers(l1)
  {
    hide AllPairs, CommitScan, ApplyAll, AllAnswers, LastTerm, Distinct;
    var r := Replicated(l, lid, fs, qs);
    SetOfDistinct(qs);
    ScanIsExact(r, lid, voters);
    QuorumCommitsAll(r, lid, voters, SetOf(qs));
    var l1 := CommitScan(r, lid, voters);
    ApplyAllIsExact(l1);
    AnswersAreExact(l1);
    forall i | i in l.pending
      ensures Answer(l.pending[i], i, l.log[i - 1].term, l.log[i - 1].data) in AllAnswers(l1)
    {
      assert IsDue(l1, i) && AnswerTo(l1, i) in AllAnswers(l1);
    }
  }

  /** The leader can repair the followers' logs: none is in a later term, and it has compacted past none of them. */
  ghost predicate Reachable(s: State, lid: Id, qs: seq<Id>)
    requires lid in s.nodes
  {
    var l := s.nodes[lid];
    forall q :: q in qs ==>
      && q in s.voters && q != lid && q in s.nodes
      && s.nodes[q].term <= l.term && l.snapIndex <= s.nodes[q].snapIndex && (q in l.next ==> l.snapIndex < l.next[q])
  }

  lemma ReachablePairs(states: seq<State>, events: seq<Event>, k: nat, lid: Id, qs: seq<Id>)
    requires Run(states, events) && k < |states| && lid in states[k].nodes && states[k].nodes[lid].role.Leader?
    requires Reachable(states[k], lid, qs)
    ensures AllPairs(states[k].nodes[lid], states[k].nodes, qs)
    ensures forall q :: q in qs ==> q in states[k].voters && q != lid
  {
    hide Run, Pair;
    forall q | q in qs ensures q in states[k].nodes && Pair(states[k].nodes[lid], states[k].nodes[q], q) {
      ReachablePair(states, events, k, lid, q);
    }
  }

  lemma WaitingAre(s: State, id: Id)
    requires C.ClientsOK(s) && id in s.nodes
    ensures var n := s.nodes[id];
            forall i :: i in n.pending ==>
              && n.lastApplied < i <= |n.log| && n.pending[i] < |s.submitted|
              && n.log[i - 1] == Entry(n.term, Operation, s.submitted[n.pending[i]])
  {
    forall i | i in s.nodes[id].pending
      ensures var n := s.nodes[id];
              && n.lastApplied < i <= |n.log| && n.pending[i] < |s.submitted|
              && n.log[i - 1] == Entry(n.term, Operation, s.submitted[n.pending[i]])
    {
      WaitingFacts(s, id, i);
    }
  }

  lemma AppliedAndRest(l: Log, n: nat)
    requires n <= |l|
    ensures l[..n] + l[n..] == l
  {
  }

  /** In a run, whenever a leader can repair the logs of enough voters to make a majority with itself, doing so, one
      commit scan and the apply loop bring its whole log to its state machine, and every client that waits at that
      moment gets its answer, with what it submitted. */
  lemma RunDelivers(states: seq<State>, events: seq<Event>, k: nat, lid: Id, qs: seq<Id>)
    requires Run(states, events) && k < |states| && lid in states[k].nodes && states[k].nodes[lid].role.Leader?
    requires Distinct(qs) && 2 * (1 + |qs|) > |states[k].voters| && Reachable(states[k], lid, qs)
    ensures var s, l := states[k], states[k].nodes[lid];
            && AllPairs(l, s.nodes, qs) && l.commitIndex <= |l.log|
            && var l1 := CommitScan(Replicated(l, lid, s.nodes, qs), lid, s.voters);
               && l1.log == l.log && l1.commitIndex == |l.log|
               && ApplyAll(l1).applied == l.log && ApplyAll(l1).pending == map[]
               && forall i :: i in l.pending ==>
                    && l.pending[i] < |s.submitted|
                    && Answer(l.pending[i], i, l.term, s.submitted[l.pending[i]]) in AllAnswers(l1)
  {
    hide *;
    var s := states[k];
    RunInv(states, events, k);
    C.RunClients(states, events, k);
    ReachablePairs(states, events, k, lid, qs);
    IndicesInOrder(states, events, k, lid);
    LeaderEndsInItsTerm(s, lid);
    WaitingAre(s, lid);
    OperationsAreDelivered(s.nodes[lid], lid, s.voters, s.nodes, qs);
    AppliedAndRest(s.nodes[lid].log, s.nodes[lid].lastApplied);
  }
}
