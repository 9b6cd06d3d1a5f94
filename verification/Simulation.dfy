/** The program's handlers perform the cluster's steps: whatever event of a run is at a node, its handler takes the
    node to the state that the run says, and sends what the run says. */
module Simulation {
  import opened Entries
  import opened Protocol
  import opened Cluster
  import opened Frames
  import opened Storage
  import opened LogView
  import opened RaftNode
  import opened NodeInCluster
  import opened Votes

  /** The entries of a request as the program sends them, numbered from behind the previous entry. */
  function Numbering(prev: nat, entries: Log): seq<LogEntry> {
    seq(|entries|, i requires 0 <= i < |entries| =>
      LogEntry(prev + 1 + i, entries[i].term, 0, entries[i].data, entries[i].kind))
  }

  function Request(m: Message): AppendEntriesRequest
    requires m.AppendRequest?
  {
    AppendEntriesRequest(m.from, m.term, m.prev, m.prevTerm, Numbering(m.prev, m.entries), m.leaderCommit)
  }

  lemma RequestIsMessage(m: Message)
    requires m.AppendRequest?
    ensures ToMessage(Request(m), m.to) == m && Numbered(Items(Request(m).entries), m.prev + 1)
  {
    assert EntriesOf(Items(Numbering(m.prev, m.entries))) == m.entries;
  }

  /** What the event writes can be stored: indices and terms stay below 2^64, and the log file below 2^63. */
  ghost predicate Room(r: Raft, e: Event)
    reads r, r.log
  {
    match e
    case OnVoteResponse(_) => r.RoomFor([r.NextEntry(NoOp, [])])
    case ClientSubmit(_, data) => r.RoomFor([r.NextEntry(Operation, data)])
    case OnAppendRequest(m) =>
      m.AppendRequest? ==>
        && WellFormed(r.log.codec, Request(m))
        && Grown(r.log.codec, |r.log.file|, Request(m).entries) < INT64_LIMIT
    case OnSnapRequest(m, _) => m.SnapRequest? ==> m.index < UINT64 && m.lastTerm < UINT64
    case _ => true
  }

  /** The event changes the node to `n`, sends `out`, and answers clients with `answers`. */
  ghost predicate Performed(s: State, e: Event, n: Node, out: set<Message>, answers: seq<Answer>)
    requires Enabled(s, e)
  {
    var t := Next(s, e);
    t.nodes == s.nodes[Actor(e) := n] && t.net == s.net + out && t.answers == s.answers + answers
  }

  /** The object is the event's node. */
  ghost predicate IsAt(r: Raft, s: State, e: Event)
    reads r, r.log
  {
    && r.Valid() && Actor(e) == r.id && r.id in s.nodes && r.Abs() == s.nodes[r.id]
    && r.members == s.members && r.voters == s.voters
  }

  method VoteEvent(r: Raft, e: Event, ghost s: State) returns (out: set<Message>)
    requires Enabled(s, e) && IsAt(r, s, e) && Room(r, e)
    requires e.Tick? || e.AskVote? || e.OnVoteRequest? || e.OnVoteResponse?
    modifies r, r.log
    ensures r.Valid() && Performed(s, e, r.Abs(), out, [])
  {
    hide Raft.Valid, Raft.RoomFor, Protocol.Election, Protocol.BuildVoteRequest, HandleVoteRequest, HandleVoteResponse;
    out := {};
    match e
    case Tick(_) => r.Election();
    case AskVote(_, round, to) =>
      var m := r.BuildVoteRequest(to, round);
      out := {m};
    case OnVoteRequest(m, refuse) =>
      var reply := r.RequestVote(m, refuse);
      out := {reply};
    case OnVoteResponse(m) => r.HandleVoteReply(m);
  }

  lemma AppendReply(n: Node, m: Message)
    requires m.AppendRequest? && n.snapIndex <= |n.log|
    ensures var y := HandleAppendRequest(n, m).1;
            y == AppendResponse(m.to, m.from, m.term, m.prev + |m.entries|, y.term, y.success, y.hint)
  {
    hide Check, Merge, FollowLeader, Acknowledge;
  }

  method AppendRequestEvent(r: Raft, e: Event, ghost s: State) returns (out: set<Message>)
    requires Enabled(s, e) && IsAt(r, s, e) && Room(r, e) && e.OnAppendRequest?
    modifies r, r.log
    ensures r.Valid() && Performed(s, e, r.Abs(), out, [])
  {
    hide Raft.Valid, WellFormed, HandleAppendRequest, Items, EntriesOf, Numbering;
    RequestIsMessage(e.m);
    AppendReply(s.nodes[r.id], e.m);
    var response := r.AppendEntries(Request(e.m));
    out := {AppendResponse(e.m.to, e.m.from, e.m.term, e.m.prev + |e.m.entries|,
                           response.term, response.success, response.index)};
  }

  /** The ticket stands for the channel on which a submitting client waits. */
  method AppendEvent(r: Raft, e: Event, ticket: nat, ghost s: State) returns (out: set<Message>)
    requires Enabled(s, e) && IsAt(r, s, e) && Room(r, e)
    requires (e.ClientSubmit? && ticket == |s.submitted|) || e.SendAppend? || e.OnAppendResponse?
    modifies r, r.log
    ensures r.Valid() && Performed(s, e, r.Abs(), out, [])
  {
    hide Raft.Valid, Raft.RoomFor, Submit, BuildAppendRequest, HandleAppendResponse, ToMessage, WellFormed;
    out := {};
    match e
    case ClientSubmit(_, data) =>
      var ok := r.SubmitOperation(data, ticket);
    case SendAppend(_, to) =>
      var request := r.BuildAppendEntries(to);
      out := {ToMessage(request, to)};
    case OnAppendResponse(m) => r.HandleAppendReply(m);
  }

  method SnapshotRequestEvent(r: Raft, e: Event, ghost s: State) returns (out: set<Message>)
    requires Enabled(s, e) && IsAt(r, s, e) && Room(r, e) && e.OnSnapRequest?
    requires |e.m.content| == e.m.index && LastTerm(e.m.content) == e.m.lastTerm
    modifies r, r.log
    ensures r.Valid() && Performed(s, e, r.Abs(), out, [])
  {
    hide Raft.Valid, HandleSnapRequest, LastTerm;
    var reply := r.InstallSnapshot(e.m, e.complete);
    out := {reply};
  }

  method SnapshotEvent(r: Raft, e: Event, ghost s: State) returns (out: set<Message>)
    requires Enabled(s, e) && IsAt(r, s, e) && r.InOrder()
    requires e.TakeSnapshot? || e.SendSnapshot? || e.OnSnapResponse?
    modifies r, r.log
    ensures r.Valid() && Performed(s, e, r.Abs(), out, [])
  {
    hide Raft.Valid, HandleSnapResponse, BuildSnapRequest, Compact;
    out := {};
    match e
    case TakeSnapshot(_, index) =>
      assert r.full[..index] == r.fsm[..index];
      r.CompactTo(index, r.fsm[..index]);
    case SendSnapshot(_, to) =>
      var m := r.BuildInstallSnapshot(to);
      out := {m};
    case OnSnapResponse(m) => r.HandleSnapshotReply(m);
  }

  method LocalEvent(r: Raft, e: Event, ghost s: State) returns (answers: seq<Answer>)
    requires Enabled(s, e) && IsAt(r, s, e) && r.InOrder()
    requires e.ScanCommits? || e.Apply? || e.Crash?
    modifies r, r.log
    ensures r.Valid() && Performed(s, e, r.Abs(), {}, answers)
  {
    hide Raft.Valid, Protocol.CommitScan, ApplyNext, AnswersOf, Restart;
    answers := [];
    match e
    case ScanCommits(_) =>
      var committed := r.CommitScan();
    case Apply(_) => answers := r.ApplyEntry();
    case Crash(_) => r.Restore();
  }

  /** Each step of a run, performed by the program: a node object that stands where the run's node stands handles the
      event, and afterwards stands where the run's node stands after it, has sent the same messages and given the same
      answers. */
  method Perform(r: Raft, e: Event, ticket: nat, ghost states: seq<State>, ghost events: seq<Event>, ghost k: nat)
    returns (out: set<Message>, answers: seq<Answer>)
    requires Run(states, events) && k < |events| && events[k] == e && IsAt(r, states[k], e) && Room(r, e)
    requires ticket == |states[k].submitted|
    modifies r, r.log
    ensures r.Valid() && states[k + 1].nodes == states[k].nodes[r.id := r.Abs()]
    ensures states[k + 1].net == states[k].net + out && states[k + 1].answers == states[k].answers + answers
  {
    hide Raft.Valid, Next, Enabled, Room, Raft.Abs, LastTerm;
    StepAt(states, events, k);
    ReachableNodeInOrder(r, states, events, k);
    SnapshotFits(states, events, k);
    ghost var s := states[k];
    out, answers := {}, [];
    if e.Tick? || e.AskVote? || e.OnVoteRequest? || e.OnVoteResponse? {
      out := VoteEvent(r, e, s);
    } else if e.OnAppendRequest? {
      out := AppendRequestEvent(r, e, s);
    } else if e.ClientSubmit? || e.SendAppend? || e.OnAppendResponse? {
      out := AppendEvent(r, e, ticket, s);
    } else if e.ScanCommits? || e.Apply? || e.Crash? {
      answers := LocalEvent(r, e, s);
    } else if e.OnSnapRequest? {
      out := SnapshotRequestEvent(r, e, s);
    } else {
      out := SnapshotEvent(r, e, s);
    }
  }

  lemma StepAt(states: seq<State>, events: seq<Event>, k: nat)
    requires Run(states, events) && k < |events|
    ensures Enabled(states[k], events[k]) && states[k + 1] == Next(states[k], events[k])
  {
    assert Step(states[k], events[k], states[k + 1]);
  }

  lemma SnapshotFits(states: seq<State>, events: seq<Event>, k: nat)
    requires Run(states, events) && k < |events|
    ensures events[k].OnSnapRequest? ==>
              events[k].m.SnapRequest? && |events[k].m.content| == events[k].m.index &&
              LastTerm(events[k].m.content) == events[k].m.lastTerm
  {
    hide LastTerm, Next;
    StepAt(states, events, k);
    if events[k].OnSnapRequest? {
      ReachableMessagesFit(states, events, k, events[k].m);
    }
  }
}
