/** Client answers: a success reply carries the submitter's own operation, and each operation is answered at most
    once. */
module Clients {
  import opened Entries
  import opened Protocol
  import opened Cluster
  import opened Invariant
  import opened Stability
  import opened QuietSteps
  import opened ReplicationSteps
  import opened FollowerSteps
  import opened Safety

  ghost predicate Answered(s: State, ticket: nat) {
    exists k :: 0 <= k < |s.answers| && s.answers[k].ticket == ticket
  }

  /** A pending index belongs to a leader, lies above what it has applied, and holds that client's operation at the
      current term. */
  ghost predicate PendingOK(s: State, n: Node, i: nat)
    requires i in n.pending
  {
    && n.role.Leader? && n.lastApplied < i <= |n.log|
    && n.pending[i] < |s.submitted|
    && n.log[i - 1] == Entry(n.term, Operation, s.submitted[n.pending[i]])
    && !Answered(s, n.pending[i])
  }

  ghost predicate PendingsOK(s: State) {
    forall id, i :: id in s.nodes && i in s.nodes[id].pending ==> PendingOK(s, s.nodes[id], i)
  }

  /** No ticket waits at two places. */
  ghost predicate TicketsDistinct(s: State) {
    forall a, i, b, j ::
      (a in s.nodes && i in s.nodes[a].pending && b in s.nodes && j in s.nodes[b].pending
       && s.nodes[a].pending[i] == s.nodes[b].pending[j])
      ==> a == b && i == j
  }

  /** Some commit scan committed `e` as the entry with index `i`. */
  ghost predicate EntryCommitted(s: State, i: nat, e: Entry) {
    exists w :: w in s.commits && 1 <= i <= w.1 && w.0 in s.leaderLogs && i <= |s.leaderLogs[w.0]| &&
      s.leaderLogs[w.0][i - 1] == e
  }

  ghost predicate AnswerCommitted(s: State, a: Answer) {
    EntryCommitted(s, a.index, Entry(a.term, Operation, a.data))
  }

  ghost predicate AnswersOK(s: State) {
    && (forall k :: 0 <= k < |s.answers| ==>
          && s.answers[k].ticket < |s.submitted| && s.answers[k].data == s.submitted[s.answers[k].ticket]
          && AnswerCommitted(s, s.answers[k]))
    && (forall j, k :: 0 <= j < k < |s.answers| ==> s.answers[j].ticket != s.answers[k].ticket)
  }

  ghost predicate ClientsOK(s: State) {
    PendingsOK(s) && TicketsDistinct(s) && AnswersOK(s)
  }

  /** How one step may change a node's waiting clients: it drops some, or stays leader of its term with the same log so
      far. */
  ghost predicate PendingMoves(n: Node, n': Node) {
    n'.pending == map[] ||
    (n'.role.Leader? && n'.term == n.term && Extends(n.log, n'.log)
     && (forall i :: i in n'.pending ==> i in n.pending && n'.pending[i] == n.pending[i] && n'.lastApplied < i))
  }

  /** What is known of the waiting clients of one node before the step. */
  ghost predicate Waits(n: Node) {
    && (!n.role.Leader? ==> n.pending == map[])
    && (forall i :: i in n.pending ==> n.lastApplied < i)
  }

  lemma VoteMoves(n: Node, id: Id, members: set<Id>, voters: set<Id>, m: Message, refuse: bool)
    requires Waits(n)
    ensures PendingMoves(n, Election(n, id, voters))
    ensures m.VoteRequest? ==>
              PendingMoves(n, JoinElection(n, m)) && PendingMoves(n, GrantVote(JoinElection(n, m), m.from))
    ensures PendingMoves(n, n)
  {
  }

  lemma VoterMoves(n: Node, m: Message, refuse: bool)
    requires Waits(n) && m.VoteRequest?
    ensures PendingMoves(n, HandleVoteRequest(n, m, refuse).0)
  {
    hide PendingMoves;
    VoteMoves(n, "", {}, {}, m, refuse);
  }

  lemma CandidateMoves(n: Node, members: set<Id>, voters: set<Id>, m: Message)
    requires Waits(n) && m.VoteResponse? && m.round < |n.rounds|
    ensures PendingMoves(n, HandleVoteResponse(n, members, voters, m))
  {
    var n1 := CountVote(n, m);
    assert PendingMoves(n, n1) && PendingMoves(n, BecomeFollower(n1, m.term)) &&
             PendingMoves(n, BecomeLeader(n1, members));
  }

  lemma ResponseMoves(n: Node, m: Message)
    requires Waits(n)
    ensures m.AppendResponse? ==> PendingMoves(n, HandleAppendResponse(n, m))
    ensures m.SnapResponse? ==> PendingMoves(n, HandleSnapResponse(n, m))
  {
  }

  lemma LocalMoves(n: Node, id: Id, voters: set<Id>, index: nat)
    requires Waits(n)
    ensures PendingMoves(n, CommitScan(n, id, voters)) && PendingMoves(n, Restart(n))
    ensures PendingMoves(n, Compact(n, index))
  {
  }

  /** Only an operation can wait at the index that is applied next. */
  lemma ApplyMoves(n: Node)
    requires Waits(n) && n.lastApplied < n.commitIndex <= |n.log|
    requires n.lastApplied + 1 in n.pending ==> n.log[n.lastApplied].kind.Operation?
    ensures PendingMoves(n, ApplyNext(n))
  {
  }

  lemma FollowMoves(n: Node, n': Node, t: nat)
    requires Waits(n) && t >= n.term && (t == n.term ==> !n.role.Leader?) && n'.pending == FollowLeader(n, t).pending
    ensures PendingMoves(n, n')
  {
  }

  lemma RequestPending(n: Node, m: Message, complete: bool)
    ensures m.AppendRequest? && n.snapIndex <= |n.log| && m.term >= n.term ==>
              HandleAppendRequest(n, m).0.pending == FollowLeader(n, m.term).pending
    ensures m.SnapRequest? && m.term >= n.term ==>
              HandleSnapRequest(n, m, complete).0.pending == FollowLeader(n, m.term).pending
    ensures m.AppendRequest? && n.snapIndex <= |n.log| && m.term < n.term ==> HandleAppendRequest(n, m).0 == n
    ensures m.SnapRequest? && m.term < n.term ==> HandleSnapRequest(n, m, complete).0 == n
  {
  }

  lemma MovesReflexive(n: Node, n': Node)
    requires Waits(n)
    ensures n' == n ==> PendingMoves(n, n')
  {
  }

  lemma RequestFrom(s: State, m: Message)
    requires MessageOK(s, m) && (m.AppendRequest? || m.SnapRequest?)
    ensures (m.term, m.from) in s.elected && m.from != m.to
  {
  }

  lemma RequestMoves(s: State, e: Event, t: State, a: Id)
    requires Inv(s) && Step(s, e, t) && a in s.nodes && a in t.nodes && (e.OnAppendRequest? || e.OnSnapRequest?)
    requires e.m in s.net && Waits(s.nodes[a])
    ensures PendingMoves(s.nodes[a], t.nodes[a])
  {
    hide *;
    var n := s.nodes[a];
    RequestStepMoves(s, e, t, a);
    MovesReflexive(n, t.nodes[a]);
    if a == e.m.to {
      MessageAt(s, e.m);
      RequestFrom(s, e.m);
      RequestPending(n, e.m, if e.OnSnapRequest? then e.complete else true);
      if e.m.term == n.term {
        ReceiverIsNotLeader(s, a, e.m.from, e.m.term);
      }
      if e.m.term >= n.term {
        FollowMoves(n, t.nodes[a], e.m.term);
      }
    }
  }

  lemma OwnMoves(s: State, e: Event, t: State, a: Id)
    requires Step(s, e, t) && a in s.nodes && a in t.nodes && !e.OnAppendRequest? && !e.OnSnapRequest?
    requires !e.ClientSubmit?
    requires Waits(s.nodes[a])
    requires forall i :: i in s.nodes[a].pending && i <= |s.nodes[a].log| && i >= 1 ==>
               s.nodes[a].log[i - 1].kind.Operation?
    ensures PendingMoves(s.nodes[a], t.nodes[a])
  {
    hide Waits, PendingMoves, Election, HandleVoteRequest, HandleVoteResponse, Submit, HandleAppendResponse,
         HandleSnapResponse,
         CommitScan, ApplyNext, Compact, Restart, Assumed;
    var n := s.nodes[a];
    VoteMoves(n, a, s.members, s.voters, SnapResponse("", "", 0, 0, 0, false), true);
    LocalMoves(n, a, s.voters, if e.TakeSnapshot? then e.index else 0);
    match e
    case OnVoteRequest(m, refuse) => VoterMoves(n, m, refuse);
    case OnVoteResponse(m) =>
      if a == m.to {
        CandidateMoves(n, s.members, s.voters, m);
      }
    case OnAppendResponse(m) => ResponseMoves(n, m);
    case OnSnapResponse(m) => ResponseMoves(n, m);
    case Apply(id) =>
      if a == id {
        ApplyMoves(n);
      }
    case _ =>
  }

  lemma RequestInNet(s: State, e: Event, t: State)
    requires Step(s, e, t) && (e.OnAppendRequest? || e.OnSnapRequest?)
    ensures e.m in s.net
  {
  }

  lemma OnlyLeadersWait(s: State, id: Id, n: Node)
    requires NodeOK(s, id, n)
    ensures !n.role.Leader? ==> n.pending == map[]
  {
  }

  lemma NodeWaits(s: State, a: Id)
    requires Inv(s) && PendingsOK(s) && a in s.nodes
    ensures Waits(s.nodes[a])
    ensures forall i :: i in s.nodes[a].pending ==> PendingOK(s, s.nodes[a], i)
    ensures forall i :: i in s.nodes[a].pending && i <= |s.nodes[a].log| && i >= 1 ==>
              s.nodes[a].log[i - 1].kind.Operation?
  {
    hide Inv, NodeOK;
    NodeAt(s, a);
    OnlyLeadersWait(s, a, s.nodes[a]);
  }

  lemma StepPendingMoves(s: State, e: Event, t: State, a: Id)
    requires Inv(s) && PendingsOK(s) && Step(s, e, t) && a in s.nodes && a in t.nodes && !e.ClientSubmit?
    ensures PendingMoves(s.nodes[a], t.nodes[a])
  {
    hide *;
    NodeWaits(s, a);
    if e.OnAppendRequest? || e.OnSnapRequest? {
      RequestInNet(s, e, t);
      RequestMoves(s, e, t, a);
    } else {
      OwnMoves(s, e, t, a);
    }
  }

  /** The clients' history only changes when an operation is submitted or applied. */
  lemma ClientHistory(s: State, e: Event, t: State)
    requires Step(s, e, t)
    ensures !e.ClientSubmit? ==> t.submitted == s.submitted
    ensures !e.Apply? ==> t.answers == s.answers
    ensures e.ClientSubmit? ==> t.submitted == s.submitted + [e.data]
    ensures e.Apply? ==>
              && e.id in s.nodes && s.nodes[e.id].lastApplied < s.nodes[e.id].commitIndex <= |s.nodes[e.id].log|
              && t.answers == s.answers + AnswersOf(s.nodes[e.id])
              && t.nodes == s.nodes[e.id := ApplyNext(s.nodes[e.id])]
    ensures e.ClientSubmit? ==> e.id in s.nodes && s.nodes[e.id].role.Leader?
                                && t.nodes == s.nodes[e.id := Submit(s.nodes[e.id], e.data, |s.submitted|)]
  {
  }

  lemma AnswerStays(s: State, t: State, a: Answer)
    requires Grows(s, t) && AnswerCommitted(s, a)
    ensures AnswerCommitted(t, a)
  {
    var e := Entry(a.term, Operation, a.data);
    var w :| w in s.commits && 1 <= a.index <= w.1 && w.0 in s.leaderLogs && a.index <= |s.leaderLogs[w.0]|
             && s.leaderLogs[w.0][a.index - 1] == e;
    assert w in t.commits && Extends(s.leaderLogs[w.0], t.leaderLogs[w.0]);
  }

  lemma OldAnswersOK(s: State, t: State)
    requires Grows(s, t) && AnswersOK(s) && t.answers == s.answers && s.submitted <= t.submitted
    ensures AnswersOK(t)
  {
    forall k | 0 <= k < |t.answers| ensures AnswerCommitted(t, t.answers[k]) {
      AnswerStays(s, t, s.answers[k]);
    }
  }

  lemma QuietPending(s: State, t: State, a: Id, i: nat)
    requires PendingsOK(s) && a in s.nodes && a in t.nodes && PendingMoves(s.nodes[a], t.nodes[a])
    requires i in t.nodes[a].pending
    requires s.submitted <= t.submitted
    ensures i in s.nodes[a].pending && t.nodes[a].pending[i] == s.nodes[a].pending[i]
    ensures !Answered(t, t.nodes[a].pending[i]) ==> PendingOK(t, t.nodes[a], i)
  {
    assert PendingOK(s, s.nodes[a], i);
  }

  /** If every waiting client waited before the step, at the same place, no ticket waits twice. */
  lemma DistinctStays(s: State, t: State)
    requires TicketsDistinct(s) && t.nodes.Keys == s.nodes.Keys
    requires forall a, i :: a in t.nodes && i in t.nodes[a].pending ==>
               i in s.nodes[a].pending && t.nodes[a].pending[i] == s.nodes[a].pending[i]
    ensures TicketsDistinct(t)
  {
  }

  lemma PreserveQuiet(s: State, e: Event, t: State)
    requires Inv(s) && ClientsOK(s) && Step(s, e, t) && Grows(s, t) && !e.ClientSubmit? && !e.Apply?
    ensures ClientsOK(t)
  {
    hide Inv, Step, PendingMoves, AnswersOK, PendingOK, Grows, TicketsDistinct, Answered;
    ClientHistory(s, e, t);
    GrowsHistory(s, t);
    OldAnswersOK(s, t);
    forall a, i | a in t.nodes && i in t.nodes[a].pending
      ensures i in s.nodes[a].pending && t.nodes[a].pending[i] == s.nodes[a].pending[i] && PendingOK(t, t.nodes[a], i)
    {
      StepPendingMoves(s, e, t, a);
      QuietPending(s, t, a, i);
      NotAnswered(s, t, a, i);
    }
    DistinctStays(s, t);
  }

  lemma NotAnswered(s: State, t: State, a: Id, i: nat)
    requires PendingsOK(s) && a in s.nodes && i in s.nodes[a].pending && t.answers == s.answers
    ensures !Answered(t, s.nodes[a].pending[i])
  {
    assert PendingOK(s, s.nodes[a], i);
  }

  lemma SubmittedPending(s: State, e: Event, t: State, a: Id, i: nat)
    requires Inv(s) && ClientsOK(s) && Step(s, e, t) && e.ClientSubmit? && a in t.nodes && i in t.nodes[a].pending
    ensures PendingOK(t, t.nodes[a], i)
  {
    hide Inv, Step, AnswersOK, TicketsDistinct;
    ClientHistory(s, e, t);
    assert AnswersOK(s);
    TicketsBelow(s);
    if i in s.nodes[a].pending && t.nodes[a].pending[i] == s.nodes[a].pending[i] {
      assert PendingOK(s, s.nodes[a], i);
    }
    if a == e.id {
      NodeWaits(s, a);
      LastAppliedInLog(s, a);
    }
  }

  lemma TicketsBelow(s: State)
    requires AnswersOK(s)
    ensures !Answered(s, |s.submitted|)
  {
  }

  lemma SubmittedDistinct(s: State, e: Event, t: State, a: Id, i: nat, b: Id, j: nat)
    requires ClientsOK(s) && Step(s, e, t) && e.ClientSubmit?
    requires a in t.nodes && i in t.nodes[a].pending && b in t.nodes && j in t.nodes[b].pending
    requires t.nodes[a].pending[i] == t.nodes[b].pending[j]
    ensures a == b && i == j
  {
    hide Step, AnswersOK, Answered;
    ClientHistory(s, e, t);
    if i in s.nodes[a].pending {
      assert PendingOK(s, s.nodes[a], i);
    }
    if j in s.nodes[b].pending {
      assert PendingOK(s, s.nodes[b], j);
    }
  }

  lemma PreserveSubmission(s: State, e: Event, t: State)
    requires Inv(s) && ClientsOK(s) && Step(s, e, t) && Grows(s, t) && e.ClientSubmit?
    ensures ClientsOK(t)
  {
    hide Inv, Step, Grows, PendingOK, AnswersOK;
    ClientHistory(s, e, t);
    OldAnswersOK(s, t);
    forall a, i | a in t.nodes && i in t.nodes[a].pending ensures PendingOK(t, t.nodes[a], i) {
      SubmittedPending(s, e, t, a, i);
    }
    forall a, i, b, j | a in t.nodes && i in t.nodes[a].pending && b in t.nodes && j in t.nodes[b].pending
      && t.nodes[a].pending[i] == t.nodes[b].pending[j] ensures a == b && i == j
    {
      SubmittedDistinct(s, e, t, a, i, b, j);
    }
  }

  lemma LastAppliedInLog(s: State, a: Id)
    requires Inv(s) && a in s.nodes
    ensures s.nodes[a].lastApplied <= |s.nodes[a].log|
  {
    assert NodeOK(s, a, s.nodes[a]);
  }

  lemma CommittedEntry(s: State, l: Log, c: nat, t: nat, i: nat)
    requires CommitOK(s, l, c, t) && 1 <= i <= c
    ensures c <= |l| && EntryCommitted(s, i, l[i - 1])
  {
    var w :| w in s.commits && w.0 <= t && c <= w.1 && w.0 in s.leaderLogs && Agree(l, s.leaderLogs[w.0], c);
    assert s.leaderLogs[w.0][i - 1] == l[i - 1];
  }

  lemma NewAnswerOK(s: State, t: State, id: Id, a: Answer)
    requires Inv(s) && ClientsOK(s) && Grows(s, t) && id in s.nodes && t.submitted == s.submitted
    requires s.nodes[id].lastApplied < s.nodes[id].commitIndex <= |s.nodes[id].log| && AnswersOf(s.nodes[id]) == [a]
    ensures a.ticket < |s.submitted| && a.data == s.submitted[a.ticket] && AnswerCommitted(t, a)
    ensures !Answered(s, a.ticket)
  {
    hide Inv, NodeOK, LocalOK, Grows, CommitOK, EntryCommitted;
    var n := s.nodes[id];
    assert PendingOK(s, n, n.lastApplied + 1);
    NodeAt(s, id);
    NodeParts(s, id, n);
    CommitIsCommitted(s, n);
    CommittedEntry(s, n.log, n.commitIndex, n.term, n.lastApplied + 1);
    AnswerStays(s, t, a);
  }

  lemma AppliedAnswersOK(s: State, t: State, id: Id)
    requires Inv(s) && ClientsOK(s) && Grows(s, t) && id in s.nodes && t.submitted == s.submitted
    requires s.nodes[id].lastApplied < s.nodes[id].commitIndex <= |s.nodes[id].log|
    requires t.answers == s.answers + AnswersOf(s.nodes[id])
    ensures AnswersOK(t)
  {
    hide Inv, Grows;
    forall k | 0 <= k < |s.answers| ensures AnswerCommitted(t, s.answers[k]) {
      AnswerStays(s, t, s.answers[k]);
    }
    if AnswersOf(s.nodes[id]) != [] {
      NewAnswerOK(s, t, id, AnswersOf(s.nodes[id])[0]);
    }
  }

  lemma PreserveApplied(s: State, e: Event, t: State)
    requires Inv(s) && ClientsOK(s) && Step(s, e, t) && Grows(s, t) && e.Apply?
    ensures ClientsOK(t)
  {
    hide Inv, Step, Grows, AnswersOK, PendingMoves, PendingOK, TicketsDistinct, Answered;
    ClientHistory(s, e, t);
    AppliedAnswersOK(s, t, e.id);
    forall a, i | a in t.nodes && i in t.nodes[a].pending
      ensures i in s.nodes[a].pending && t.nodes[a].pending[i] == s.nodes[a].pending[i] && PendingOK(t, t.nodes[a], i)
    {
      StepPendingMoves(s, e, t, a);
      QuietPending(s, t, a, i);
      StillWaiting(s, t, e.id, a, i);
    }
    DistinctStays(s, t);
  }

  lemma StillWaiting(s: State, t: State, id: Id, a: Id, i: nat)
    requires ClientsOK(s) && id in s.nodes && a in s.nodes && i in s.nodes[a].pending
    requires s.nodes[id].lastApplied < s.nodes[id].commitIndex <= |s.nodes[id].log|
    requires t.answers == s.answers + AnswersOf(s.nodes[id]) && t.nodes == s.nodes[id := ApplyNext(s.nodes[id])]
    requires a in t.nodes && i in t.nodes[a].pending
    ensures !Answered(t, s.nodes[a].pending[i])
  {
    assert PendingOK(s, s.nodes[a], i);
    assert forall k :: 0 <= k < |s.answers| ==> s.answers[k].ticket != s.nodes[a].pending[i];
  }

  lemma StepClients(s: State, e: Event, t: State)
    requires Inv(s) && ClientsOK(s) && Step(s, e, t)
    ensures ClientsOK(t)
  {
    hide Inv, ClientsOK, Step, Grows;
    StepInv(s, e, t);
    if e.ClientSubmit? {
      PreserveSubmission(s, e, t);
    } else if e.Apply? {
      PreserveApplied(s, e, t);
    } else {
      PreserveQuiet(s, e, t);
    }
  }

  lemma InitClients(s: State)
    requires Init(s)
    ensures ClientsOK(s)
  {
  }

  lemma {:induction false} RunClients(states: seq<State>, events: seq<Event>, k: nat)
    requires Run(states, events) && k < |states|
    ensures ClientsOK(states[k])
  {
    hide Inv, Init, Step, ClientsOK;
    if k == 0 {
      InitClients(states[0]);
    } else {
      RunClients(states, events, k - 1);
      RunInv(states, events, k - 1);
      StepClients(states[k - 1], events[k - 1], states[k]);
    }
  }

  /** A committed entry is what every node that has applied up to its index has applied there. */
  lemma CommittedEntryApplied(s: State, id: Id, i: nat, e: Entry)
    requires Inv(s) && EntryCommitted(s, i, e) && id in s.nodes && s.nodes[id].lastApplied >= i
    ensures |s.nodes[id].applied| >= i >= 1 && s.nodes[id].applied[i - 1] == e
  {
    hide Inv, CommitOK;
    var w :| w in s.commits && 1 <= i <= w.1 && w.0 in s.leaderLogs && i <= |s.leaderLogs[w.0]| &&
      s.leaderLogs[w.0][i - 1] == e;
    var n := s.nodes[id];
    AppliedIsCommitted(s, id);
    CommitOKPrefix(s, n.applied, n.applied, n.lastApplied, i, n.term);
    CommitIsOK(s, w.0, w.1);
    CommitOKPrefix(s, s.leaderLogs[w.0], s.leaderLogs[w.0], w.1, i, w.0);
    CommittedPrefixesAgree(s, n.applied, i, n.term, s.leaderLogs[w.0], i, w.0);
    SameAt(n.applied, s.leaderLogs[w.0], i, i - 1);
  }

  lemma SameAt(a: Log, b: Log, n: nat, k: nat)
    requires Agree(a, b, n) && k < n
    ensures k < |a| && k < |b| && a[k] == b[k]
  {
  }

  lemma CommitIsOK(s: State, t: nat, i: nat)
    requires Inv(s) && (t, i) in s.commits
    ensures t in s.leaderLogs && CommitOK(s, s.leaderLogs[t], i, t) && i <= |s.leaderLogs[t]|
  {
    assert Committed(s, (t, i).0, (t, i).1);
  }

  lemma AnswerFacts(s: State, x: nat)
    requires ClientsOK(s) && x < |s.answers|
    ensures var a := s.answers[x];
            && a.ticket < |s.submitted| && a.data == s.submitted[a.ticket] && AnswerCommitted(s, a)
            && (forall y :: 0 <= y < |s.answers| && y != x ==> s.answers[y].ticket != a.ticket)
  {
  }

  /** Client answers are never crossed: every success reply in a run carries what its own client submitted, no client
      is answered twice, and every node that has applied that far applied this operation, at this index and in this
      term. */
  lemma AnswersNeverCrossed(states: seq<State>, events: seq<Event>, k: nat, x: nat, id: Id)
    requires Run(states, events) && k < |states| && x < |states[k].answers|
    ensures var s := states[k];
            var a := s.answers[x];
            && a.ticket < |s.submitted| && a.data == s.submitted[a.ticket]
            && (forall y :: 0 <= y < |s.answers| && y != x ==> s.answers[y].ticket != a.ticket)
            && (id in s.nodes && s.nodes[id].lastApplied >= a.index ==>
                  |s.nodes[id].applied| >= a.index >= 1 &&
                    s.nodes[id].applied[a.index - 1] == Entry(a.term, Operation, a.data))
  {
    hide Inv, Run, ClientsOK, EntryCommitted;
    RunClients(states, events, k);
    RunInv(states, events, k);
    var s := states[k];
    AnswerFacts(s, x);
    if id in s.nodes && s.nodes[id].lastApplied >= s.answers[x].index {
      CommittedEntryApplied(s, id, s.answers[x].index, Entry(s.answers[x].term, Operation, s.answers[x].data));
    }
  }

  /** A client that waits is with the leader of the current term, above what it has applied, and at that index stands
      the client's own operation. */
  lemma WaitingClientsHoldTheirIndex(states: seq<State>, events: seq<Event>, k: nat, id: Id, i: nat)
    requires Run(states, events) && k < |states| && id in states[k].nodes && i in states[k].nodes[id].pending
    ensures PendingOK(states[k], states[k].nodes[id], i)
  {
    hide Inv, Run;
    RunClients(states, events, k);
  }
}
