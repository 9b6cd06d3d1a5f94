/** The cluster: all nodes, every message ever sent, and the history the safety theorems speak about.

    One event is one lock-held section of one node. A message stays in `net` for ever, so it may be lost (never
    received), duplicated, delayed and reordered without limit. */
module Cluster {
  import opened Entries
  import opened Protocol

  /** A success reply to a client: the operation it submitted, with the index and term it was committed at. */
  datatype Answer = Answer(ticket: nat, index: nat, term: nat, data: seq<Byte>)

  datatype State = State(
    base: Entry,                  // the bootstrap entry, index 1 of every log
    members: set<Id>,
    voters: set<Id>,
    nodes: map<Id, Node>,
    net: set<Message>,
    leaderLogs: map<nat, Log>,    // history: for each term that had a leader, that leader's log
    elected: set<(nat, Id)>,      // history: every (term, node) that became leader
    commits: set<(nat, nat)>,     // history: every (term, index) a commit scan moved its commit index to
    submitted: seq<seq<Byte>>,     // history: what each client ticket submitted
    answers: seq<Answer>          // history: the success replies, in order
  )

  datatype Event =
    | Tick(id: Id)
    | AskVote(id: Id, round: nat, to: Id)
    | OnVoteRequest(m: Message, refuse: bool)
    | OnVoteResponse(m: Message)
    | ClientSubmit(id: Id, data: seq<Byte>)
    | SendAppend(id: Id, to: Id)
    | OnAppendRequest(m: Message)
    | OnAppendResponse(m: Message)
    | ScanCommits(id: Id)
    | Apply(id: Id)
    | TakeSnapshot(id: Id, index: nat)
    | SendSnapshot(id: Id, to: Id)
    | OnSnapRequest(m: Message, complete: bool)
    | OnSnapResponse(m: Message)
    | Crash(id: Id)

  ghost predicate Received(s: State, m: Message) {
    m in s.net && m.to in s.nodes
  }

  ghost predicate Enabled(s: State, e: Event) {
    match e
    case Tick(id) => id in s.nodes
    case AskVote(id, round, to) =>
      && id in s.nodes && id in s.voters && to in s.voters && to != id
      && s.nodes[id].live <= round < |s.nodes[id].rounds|
    case OnVoteRequest(m, _) => m.VoteRequest? && Received(s, m)
    case OnVoteResponse(m) =>
      m.VoteResponse? && Received(s, m) && s.nodes[m.to].live <= m.round < |s.nodes[m.to].rounds|
    case ClientSubmit(id, _) => id in s.nodes && s.nodes[id].role.Leader?
    case SendAppend(id, to) =>
      && id in s.nodes && s.nodes[id].role.Leader? && to in s.members && to != id && to in s.nodes[id].next
      && s.nodes[id].snapIndex < s.nodes[id].next[to] <= |s.nodes[id].log| + 1
    case OnAppendRequest(m) =>
      m.AppendRequest? && Received(s, m) && s.nodes[m.to].snapIndex <= |s.nodes[m.to].log|
    case OnAppendResponse(m) => m.AppendResponse? && Received(s, m)
    case ScanCommits(id) => id in s.nodes
    case Apply(id) =>
      id in s.nodes && s.nodes[id].lastApplied < s.nodes[id].commitIndex <= |s.nodes[id].log|
    case TakeSnapshot(id, index) =>
      id in s.nodes && s.nodes[id].snapIndex < index <= s.nodes[id].lastApplied
    case SendSnapshot(id, to) =>
      && id in s.nodes && s.nodes[id].role.Leader? && to in s.members && to != id && to in s.nodes[id].next
      && s.nodes[id].next[to] <= s.nodes[id].snapIndex && 1 <= s.nodes[id].snapIndex <= |s.nodes[id].log|
    case OnSnapRequest(m, _) => m.SnapRequest? && Received(s, m)
    case OnSnapResponse(m) => m.SnapResponse? && Received(s, m)
    case Crash(id) => id in s.nodes
  }

  /** A2. Clearing the vote on a step-down within the same term never leads to a second vote in that term. */
  ghost predicate KeepsVote(s: State, e: Event)
    requires Enabled(s, e)
  {
    e.OnVoteRequest? && !e.m.prevote && HandleVoteRequest(s.nodes[e.m.to], e.m, e.refuse).1.granted ==>
      forall c :: (e.m.term, c) in s.nodes[e.m.to].cast ==> c == e.m.from
  }

  /** A3. A leader uses a reply only while its term is still the term of the request. */
  ghost predicate RepliesAreCurrent(s: State, e: Event)
    requires Enabled(s, e)
  {
    && (e.OnAppendResponse? && s.nodes[e.m.to].role.Leader? && e.m.term <= s.nodes[e.m.to].term ==>
          e.m.requestTerm == s.nodes[e.m.to].term)
    && (e.OnSnapResponse? && s.nodes[e.m.to].role.Leader? && e.m.term <= s.nodes[e.m.to].term ==>
          e.m.requestTerm == s.nodes[e.m.to].term)
  }

  /** A4. A request for a real vote is built in the term its round was started in. */
  ghost predicate AsksInTime(s: State, e: Event)
    requires Enabled(s, e)
  {
    e.AskVote? && !s.nodes[e.id].rounds[e.round].prevote ==> s.nodes[e.id].rounds[e.round].term == s.nodes[e.id].term
  }

  ghost predicate Assumed(s: State, e: Event)
    requires Enabled(s, e)
  {
    KeepsVote(s, e) && RepliesAreCurrent(s, e) && AsksInTime(s, e)
  }

  /** Replaces one node and sends messages; while the node is a leader, its log is the log of its term. */
  ghost function Update(s: State, id: Id, n: Node, out: set<Message>): State {
    s.(nodes := s.nodes[id := n],
       net := s.net + out,
       leaderLogs := if n.role.Leader? then s.leaderLogs[n.term := n.log] else s.leaderLogs,
       elected := if n.role.Leader? then s.elected + {(n.term, id)} else s.elected)
  }

  /** The answers given when the node applies its next entry. */
  ghost function AnswersOf(n: Node): seq<Answer>
    requires n.lastApplied < n.commitIndex <= |n.log|
  {
    var e := n.log[n.lastApplied];
    var index := n.lastApplied + 1;
    if e.kind.Operation? && index in n.pending then [Answer(n.pending[index], index, e.term, e.data)] else []
  }

  ghost function Next(s: State, e: Event): State
    requires Enabled(s, e)
  {
    match e
    case Tick(id) => Update(s, id, Election(s.nodes[id], id, s.voters), {})
    case AskVote(id, round, to) => Update(s, id, s.nodes[id], {BuildVoteRequest(s.nodes[id], id, to, round)})
    case OnVoteRequest(m, refuse) =>
      var (n, response) := HandleVoteRequest(s.nodes[m.to], m, refuse);
      Update(s, m.to, n, {response})
    case OnVoteResponse(m) =>
      Update(s, m.to, HandleVoteResponse(s.nodes[m.to], s.members, s.voters, m), {})
    case ClientSubmit(id, data) =>
      Update(s, id, Submit(s.nodes[id], data, |s.submitted|), {}).(submitted := s.submitted + [data])
    case SendAppend(id, to) => Update(s, id, s.nodes[id], {BuildAppendRequest(s.nodes[id], id, to)})
    case OnAppendRequest(m) =>
      var (n, response) := HandleAppendRequest(s.nodes[m.to], m);
      Update(s, m.to, n, {response})
    case OnAppendResponse(m) => Update(s, m.to, HandleAppendResponse(s.nodes[m.to], m), {})
    case ScanCommits(id) =>
      var n := CommitScan(s.nodes[id], id, s.voters);
      Update(s, id, n, {}).(commits := if n.commitIndex > s.nodes[id].commitIndex
                                       then s.commits + {(n.term, n.commitIndex)} else s.commits)
    case Apply(id) =>
      Update(s, id, ApplyNext(s.nodes[id]), {}).(answers := s.answers + AnswersOf(s.nodes[id]))
    case TakeSnapshot(id, index) => Update(s, id, Compact(s.nodes[id], index), {})
    case SendSnapshot(id, to) => Update(s, id, s.nodes[id], {BuildSnapRequest(s.nodes[id], id, to)})
    case OnSnapRequest(m, complete) =>
      var (n, response) := HandleSnapRequest(s.nodes[m.to], m, complete);
      Update(s, m.to, n, {response})
    case OnSnapResponse(m) => Update(s, m.to, HandleSnapResponse(s.nodes[m.to], m), {})
    case Crash(id) => Update(s, id, Restart(s.nodes[id]), {})
  }

  function InitialNode(base: Entry): Node {
    Node(Follower, 0, "", 0, "", [base], 0, 0, 0, [], map[], map[], [], 0, map[], map[], {})
  }

  /** A1 and A6: a fixed set of at least two members, some of them voters, whose logs all start as the bootstrap
      entry. */
  ghost predicate Init(s: State) {
    && s.base.term == 1 && s.base.kind.Configuration?
    && |s.members| >= 2 && s.voters <= s.members && "" !in s.members
    && s.nodes.Keys == s.members
    && (forall id :: id in s.nodes ==> s.nodes[id] == InitialNode(s.base))
    && s.net == {} && s.leaderLogs == map[] && s.elected == {} && s.commits == {} && s.submitted == [] &&
         s.answers == []
  }

  ghost predicate Step(s: State, e: Event, t: State) {
    Enabled(s, e) && Assumed(s, e) && t == Next(s, e)
  }

  /** A finite run from an initial state. */
  ghost predicate Run(states: seq<State>, events: seq<Event>) {
    && |states| == |events| + 1
    && Init(states[0])
    && forall k :: 0 <= k < |events| ==> Step(states[k], events[k], states[k + 1])
  }

  /** A finite run of the protocol, whether or not it obeys A2, A3 and A4. */
  ghost predicate FreeRun(states: seq<State>, events: seq<Event>) {
    && |states| == |events| + 1
    && Init(states[0])
    && forall k :: 0 <= k < |events| ==> Enabled(states[k], events[k]) && states[k + 1] == Next(states[k], events[k])
  }
}
