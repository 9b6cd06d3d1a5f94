/** Clients are served: a client whose operation is applied while its node leads gets its answer, and no sooner does it
    stop waiting. */
module Service {
  import opened Entries
  import opened Protocol
  import opened Cluster
  import opened Invariant
  import opened Stability
  import opened QuietSteps
  import opened FollowerSteps
  import opened Safety
  import opened Clients

  /** Whoever waits at `n` waits at `n'` too, and nothing is applied in between. */
  ghost predicate KeepsWaiting(n: Node, n': Node) {
    && n'.lastApplied == n.lastApplied
    && forall i :: i in n.pending && i <= |n.log| ==> i in n'.pending && n'.pending[i] == n.pending[i]
  }

  lemma VoteKeepsWaiting(n: Node, id: Id, members: set<Id>, voters: set<Id>, m: Message, refuse: bool)
    requires n.role.Leader?
    ensures KeepsWaiting(n, Election(n, id, voters))
    ensures m.VoteRequest? && HandleVoteRequest(n, m, refuse).0.role.Leader? ==>
              KeepsWaiting(n, HandleVoteRequest(n, m, refuse).0)
    ensures m.VoteResponse? && m.round < |n.rounds| && HandleVoteResponse(n, members, voters, m).role.Leader? ==>
              KeepsWaiting(n, HandleVoteResponse(n, members, voters, m))
  {
    hide HasQuorum, UpToDate;
  }

  lemma ReplyKeepsWaiting(n: Node, m: Message)
    requires n.role.Leader?
    ensures m.AppendResponse? && HandleAppendResponse(n, m).role.Leader? ==>
              KeepsWaiting(n, HandleAppendResponse(n, m))
    ensures m.SnapResponse? && HandleSnapResponse(n, m).role.Leader? ==> KeepsWaiting(n, HandleSnapResponse(n, m))
  {
  }

  lemma OwnKeepsWaiting(n: Node, id: Id, voters: set<Id>, data: seq<Byte>, index: nat)
    ensures KeepsWaiting(n, n) && KeepsWaiting(n, CommitScan(n, id, voters)) && KeepsWaiting(n, Compact(n, index))
    ensures KeepsWaiting(n, Submit(n, data, index)) && !Restart(n).role.Leader?
  {
  }

  /** Requests of a leader that the node takes part in make it a follower, so they find no client. */
  lemma RequestKeepsWaiting(s: State, e: Event, t: State, a: Id)
    requires Inv(s) && Step(s, e, t) && a in s.nodes && a in t.nodes && (e.OnAppendRequest? || e.OnSnapRequest?)
    requires s.nodes[a].role.Leader? && t.nodes[a].role.Leader? && t.nodes[a].term == s.nodes[a].term
    ensures t.nodes[a] == s.nodes[a]
  {
    hide *;
    var n := s.nodes[a];
    RequestStepMoves(s, e, t, a);
    if a == e.m.to {
      RequestInNet(s, e, t);
      MessageAt(s, e.m);
      RequestFrom(s, e.m);
      RequestPending(n, e.m, if e.OnSnapRequest? then e.complete else true);
      if e.m.term >= n.term {
        RequestTakesTerm(n, e.m, if e.OnSnapRequest? then e.complete else true);
        ReceiverIsNotLeader(s, a, e.m.from, e.m.term);
      }
    }
  }

  lemma RequestTakesTerm(n: Node, m: Message, complete: bool)
    ensures m.AppendRequest? && n.snapIndex <= |n.log| && m.term >= n.term ==>
              HandleAppendRequest(n, m).0.term == m.term
    ensures m.SnapRequest? && m.term >= n.term ==> HandleSnapRequest(n, m, complete).0.term == m.term
  {
    hide Check, Merge;
  }

  lemma StepKeepsWaiting(s: State, e: Event, t: State, a: Id)
    requires Inv(s) && Step(s, e, t) && a in s.nodes && a in t.nodes && e != Apply(a)
    requires s.nodes[a].role.Leader? && t.nodes[a].role.Leader? && t.nodes[a].term == s.nodes[a].term
    ensures KeepsWaiting(s.nodes[a], t.nodes[a])
  {
    hide Inv, KeepsWaiting, Election, HandleVoteRequest, HandleVoteResponse, Submit, HandleAppendRequest,
         HandleAppendResponse, HandleSnapRequest, HandleSnapResponse, CommitScan, ApplyNext, Compact, Restart, Assumed,
         AnswersOf, BuildVoteRequest, BuildAppendRequest, BuildSnapRequest;
    var n := s.nodes[a];
    OwnKeepsWaiting(n, a, s.voters, if e.ClientSubmit? then e.data else [],
                    if e.ClientSubmit? then |s.submitted| else if e.TakeSnapshot? then e.index else 0);
    if e.OnAppendRequest? || e.OnSnapRequest? {
      RequestKeepsWaiting(s, e, t, a);
    } else if e.Tick? {
      VoteKeepsWaiting(n, a, s.members, s.voters, SnapResponse("", "", 0, 0, 0, false), true);
    } else if (e.OnVoteRequest? || e.OnVoteResponse?) && a == e.m.to {
      VoteKeepsWaiting(n, a, s.members, s.voters, e.m, if e.OnVoteRequest? then e.refuse else true);
    } else if (e.OnAppendResponse? || e.OnSnapResponse?) && a == e.m.to {
      ReplyKeepsWaiting(n, e.m);
    }
  }

  /** The client that waits at index `i` of a node gets its answer in the step that applies the entry, and waits on in
      any other step of the apply loop. */
  lemma ApplyServes(s: State, t: State, id: Id, i: nat)
    requires Inv(s) && ClientsOK(s) && Step(s, Apply(id), t) && id in s.nodes && i in s.nodes[id].pending
    ensures id in t.nodes && 1 <= i <= |s.nodes[id].log| && s.answers <= t.answers
    ensures var n, n' := s.nodes[id], t.nodes[id];
            && n'.lastApplied == n.lastApplied + 1
            && (if n'.lastApplied < i then i in n'.pending && n'.pending[i] == n.pending[i]
                else Answer(n.pending[i], i, n.log[i - 1].term, n.log[i - 1].data) in t.answers)
            && (i in n'.pending <==> n'.lastApplied < i)
  {
    hide Inv, Step, AnswersOK, TicketsDistinct, Answered;
    ClientHistory(s, Apply(id), t);
    assert PendingOK(s, s.nodes[id], i);
  }

  /** No answer is lost: a client that waits before a step of the apply loop and does not wait after it was answered in
      it, with its own operation. */
  lemma WaitsUntilAnswered(states: seq<State>, events: seq<Event>, k: nat, id: Id, i: nat)
    requires Run(states, events) && k < |events| && events[k] == Apply(id)
    requires id in states[k].nodes && i in states[k].nodes[id].pending
    ensures id in states[k + 1].nodes && states[k].nodes[id].pending[i] < |states[k].submitted|
    ensures var n, n', ticket := states[k].nodes[id], states[k + 1].nodes[id], states[k].nodes[id].pending[i];
            i !in n'.pending ==>
              && i == n'.lastApplied
              && Answer(ticket, i, n.term, states[k].submitted[ticket]) in states[k + 1].answers
  {
    hide Inv, ClientsOK, Init, Assumed, Next, Enabled;
    var s, t := states[k], states[k + 1];
    assert Step(s, events[k], t);
    RunInv(states, events, k);
    RunClients(states, events, k);
    ApplyServes(s, t, id, i);
    WaitingFacts(s, id, i);
  }

  lemma WaitingFacts(s: State, id: Id, i: nat)
    requires ClientsOK(s) && id in s.nodes && i in s.nodes[id].pending
    ensures var n := s.nodes[id];
            && n.lastApplied < i <= |n.log| && n.pending[i] < |s.submitted|
            && n.log[i - 1] == Entry(n.term, Operation, s.submitted[n.pending[i]])
  {
    assert PendingOK(s, s.nodes[id], i);
  }

  /** Where the client stands whose operation is the entry with index `i`: it waits there until the entry is applied,
      and then it has its answer. */
  ghost predicate InService(s: State, id: Id, i: nat, answer: Answer)
    requires id in s.nodes
  {
    var n := s.nodes[id];
    if n.lastApplied < i then i in n.pending && n.pending[i] == answer.ticket else answer in s.answers
  }

  lemma StepServes(s: State, e: Event, t: State, id: Id, i: nat, answer: Answer)
    requires Inv(s) && ClientsOK(s) && Step(s, e, t) && id in s.nodes && id in t.nodes
    requires s.nodes[id].role.Leader? && t.nodes[id].role.Leader? && t.nodes[id].term == s.nodes[id].term
    requires InService(s, id, i, answer) && 1 <= i <= |s.nodes[id].log| && answer.index == i
    requires s.nodes[id].log[i - 1] == Entry(answer.term, Operation, answer.data)
    ensures InService(t, id, i, answer)
  {
    hide Inv, ClientsOK, Step, AnswersOf;
    ClientHistory(s, e, t);
    if e == Apply(id) {
      if s.nodes[id].lastApplied < i {
        ApplyServes(s, t, id, i);
      } else {
        assert ApplyNext(s.nodes[id]).lastApplied > s.nodes[id].lastApplied;
      }
    } else {
      StepKeepsWaiting(s, e, t, id);
    }
  }

  lemma SubmitServes(s: State, t: State, id: Id, data: seq<Byte>)
    requires Inv(s) && Step(s, ClientSubmit(id, data), t) && id in s.nodes && id in t.nodes
    ensures var i := |s.nodes[id].log| + 1;
            InService(t, id, i, Answer(|s.submitted|, i, s.nodes[id].term, data))
    ensures t.nodes[id].log == s.nodes[id].log + [Entry(s.nodes[id].term, Operation, data)]
  {
    hide Inv, Step;
    ClientHistory(s, ClientSubmit(id, data), t);
    LastAppliedInLog(s, id);
  }

  /** The node leads in one term from moment `j` to moment `k`. */
  ghost predicate LeadsThroughout(states: seq<State>, j: nat, k: nat, id: Id)
    requires j <= k < |states|
  {
    && id in states[j].nodes
    && forall x :: j <= x <= k ==>
         id in states[x].nodes && states[x].nodes[id].role.Leader?
         && states[x].nodes[id].term == states[j].nodes[id].term
  }

  /** Every submitted operation is served while its node leads: it stands at its index; until it is applied, its client
      waits there, and as soon as it is applied, the client has its own answer. */
  lemma {:induction false} ServedWhileLeading(states: seq<State>, events: seq<Event>, j: nat, k: nat, id: Id)
    requires Run(states, events) && j < k < |states| && events[j].ClientSubmit? && events[j].id == id
    requires LeadsThroughout(states, j, k, id)
    ensures id in states[j].nodes && id in states[k].nodes
    ensures var i, n := |states[j].nodes[id].log| + 1, states[k].nodes[id];
            && i <= |n.log| && n.log[i - 1] == Entry(n.term, Operation, events[j].data)
            && InService(states[k], id, i, Answer(|states[j].submitted|, i, n.term, events[j].data))
    decreases k
  {
    hide Inv, Init, Step, ClientsOK, InService;
    if k == j + 1 {
      RunInv(states, events, j);
      SubmitServes(states[j], states[k], id, events[j].data);
    } else {
      ServedWhileLeading(states, events, j, k - 1, id);
      RunInv(states, events, k - 1);
      RunClients(states, events, k - 1);
      LeaderAppendOnly(states, events, k - 1, k, id);
      StepServes(states[k - 1], events[k - 1], states[k], id, |states[j].nodes[id].log| + 1,
                 Answer(|states[j].submitted|, |states[j].nodes[id].log| + 1, states[k].nodes[id].term,
                        events[j].data));
    }
  }
}
