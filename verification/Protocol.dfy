/** One node of the cluster and what each of its lock-held sections does to it.

    A node's log is written here in full; `snapIndex` says up to where the node has really compacted it, and the
    handlers look at nothing below `snapIndex` except the term of the snapshot point. The two fields `acks` and
    `cast` are history variables: no handler reads them to decide anything. */
module Protocol {
  import opened Entries

  datatype Role = Follower | PreCandidate | Candidate | Leader

  /** One round of vote requests: the shared counter of `sendRequestVoteToPeers` is `1 + |granted|`. */
  datatype Round = Round(prevote: bool, term: nat, granted: set<Id>)

  datatype Node = Node(
    role: Role,
    term: nat,
    votedFor: Id,           // "" when no vote is cast
    diskTerm: nat,          // the stored term and vote
    diskVote: Id,
    log: Log,
    snapIndex: nat,         // lastIncludedIndex
    commitIndex: nat,
    lastApplied: nat,
    applied: Log,           // the state machine, as the sequence of entries it has applied
    next: map<Id, nat>,
    matched: map<Id, nat>,
    rounds: seq<Round>,     // all rounds this node ever started; those below `live` died with a crash
    live: nat,
    pending: map<nat, nat>, // log index of a submitted operation to the ticket of its client
    acks: map<nat, nat>,    // history: for a term, how much of that term's leader log this node took over
    cast: set<(nat, Id)>    // history: every (term, candidate) this node voted for
  )

  datatype Message =
    | VoteRequest(from: Id, to: Id, round: nat, term: nat, lastIndex: nat, lastTerm: nat, prevote: bool)
    | VoteResponse(from: Id, to: Id, round: nat, requestTerm: nat, prevote: bool, term: nat, granted: bool)
    | AppendRequest(from: Id, to: Id, term: nat, prev: nat, prevTerm: nat, entries: Log, leaderCommit: nat)
    | AppendResponse(from: Id, to: Id, requestTerm: nat, upTo: nat, term: nat, success: bool, hint: nat)
    // A7: the content arrives as it was sent; see TransferIntegrity in SnapshotTransfer for when it does
    | SnapRequest(from: Id, to: Id, term: nat, index: nat, lastTerm: nat, content: Log)
    // `covered`: the reply shows that its sender has everything up to `index`; see AcknowledgedIsCovered
    // in SnapshotTransfer
    | SnapResponse(from: Id, to: Id, requestTerm: nat, index: nat, term: nat, covered: bool)

  predicate HasQuorum(voters: set<Id>, count: nat) {
    count > |voters| / 2
  }

  function AckOf(n: Node, t: nat): nat {
    if t in n.acks then n.acks[t] else 0
  }

  function Max(a: nat, b: nat): nat {
    if a >= b then a else b
  }

  function Min(a: nat, b: nat): nat {
    if a <= b then a else b
  }

  function Acknowledge(n: Node, t: nat, upTo: nat): Node {
    n.(acks := n.acks[t := Max(AckOf(n, t), upTo)])
  }

  function BecomeFollower(n: Node, term: nat): Node {
    n.(role := Follower, term := term, votedFor := "", diskTerm := term, diskVote := "", pending := map[])
  }

  function BecomeCandidate(n: Node, id: Id): Node {
    n.(role := Candidate, term := n.term + 1, votedFor := id, diskTerm := n.term + 1, diskVote := id,
       cast := n.cast + {(n.term + 1, id)})
  }

  /** Appends at the end of the leader's own log, which is also the log of its term. */
  function LeaderAppend(n: Node, kind: Kind, data: seq<Byte>): Node {
    var log := n.log + [Entry(n.term, kind, data)];
    n.(log := log, acks := n.acks[n.term := |log|])
  }

  function Everyone(members: set<Id>, value: nat): map<Id, nat> {
    map f | f in members :: value
  }

  function BecomeLeader(n: Node, members: set<Id>): Node {
    LeaderAppend(
      n.(role := Leader, pending := map[], next := Everyone(members, |n.log| + 1), matched := Everyone(members, 0)),
      NoOp, [])
  }

  function StartRound(n: Node): Node {
    n.(rounds := n.rounds + [Round(n.role.PreCandidate?, n.term, {})])
  }

  /** The election tick of a node that has not heard from a leader for a while. */
  function Election(n: Node, id: Id, voters: set<Id>): Node {
    if n.role.Leader? || id !in voters then n
    else if n.role.Candidate? then StartRound(BecomeCandidate(n, id))
    else StartRound(n.(role := PreCandidate))
  }

  function BuildVoteRequest(n: Node, id: Id, to: Id, round: nat): Message
    requires round < |n.rounds|
  {
    var prevote := n.rounds[round].prevote;
    VoteRequest(id, to, round, if prevote then n.term + 1 else n.term, |n.log|, LastTerm(n.log), prevote)
  }

  function GrantVote(n: Node, candidate: Id): Node {
    n.(votedFor := candidate, diskTerm := n.term, diskVote := candidate, cast := n.cast + {(n.term, candidate)})
  }

  /** A request for a real vote moves its receiver to the request's term. */
  function JoinElection(n: Node, m: Message): Node
    requires m.VoteRequest?
  {
    if !m.prevote && m.term > n.term then BecomeFollower(n, m.term) else n
  }

  /** RequestVote at the receiver; `refuse` stands for a valid lease or a recent contact from a leader. */
  function HandleVoteRequest(n: Node, m: Message, refuse: bool): (Node, Message)
    requires m.VoteRequest?
  {
    var no := (t: nat) => VoteResponse(m.to, m.from, m.round, m.term, m.prevote, t, false);
    if refuse || m.term < n.term then (n, no(n.term))
    else
      var n1 := JoinElection(n, m);
      if !m.prevote && n1.votedFor != "" && n1.votedFor != m.from then (n1, no(n1.term))
      else if !UpToDate(m.lastIndex, m.lastTerm, n1.log) then (n1, no(n1.term))
      else
        (if m.prevote then n1 else GrantVote(n1, m.from),
         VoteResponse(m.to, m.from, m.round, m.term, m.prevote, n1.term, true))
  }

  function CountVote(n: Node, m: Message): Node
    requires m.VoteResponse? && m.round < |n.rounds|
  {
    if m.granted then
      var r := n.rounds[m.round];
      n.(rounds := n.rounds[m.round := r.(granted := r.granted + {m.from})])
    else n
  }

  function HandleVoteResponse(n: Node, members: set<Id>, voters: set<Id>, m: Message): Node
    requires m.VoteResponse? && m.round < |n.rounds|
  {
    if n.term > m.requestTerm then n
    else
      var n1 := CountVote(n, m);
      if m.term > m.requestTerm then BecomeFollower(n1, m.term)
      else if !HasQuorum(voters, 1 + |n1.rounds[m.round].granted|) then n1
      else
        var n2 := if n1.role.PreCandidate? then n1.(role := Candidate) else n1;
        if !m.prevote && n2.role.Candidate? then BecomeLeader(n2, members) else n2
  }

  function Submit(n: Node, data: seq<Byte>, ticket: nat): Node {
    var n1 := LeaderAppend(n, Operation, data);
    n1.(pending := n1.pending[|n1.log| := ticket])
  }

  /** Contact from the leader of a term that is not stale makes the receiver a follower of that term. */
  function FollowLeader(n: Node, term: nat): Node {
    if term > n.term || n.role.Candidate? || n.role.PreCandidate? then BecomeFollower(n, term) else n
  }

  /** The request built for a follower whose next index is above the leader's snapshot point. */
  function BuildAppendRequest(n: Node, id: Id, to: Id): Message
    requires to in n.next && n.snapIndex < n.next[to] <= |n.log| + 1
  {
    var prev := n.next[to] - 1;
    AppendRequest(id, to, n.term, prev, TermAt(n.log, prev), n.log[prev..], n.commitIndex)
  }

  function HandleAppendRequest(n: Node, m: Message): (Node, Message)
    requires m.AppendRequest? && n.snapIndex <= |n.log|
  {
    var upTo := m.prev + |m.entries|;
    if m.term < n.term then (n, AppendResponse(m.to, m.from, m.term, upTo, n.term, false, 0))
    else
      var n1 := FollowLeader(n, m.term);
      match Check(n1.log, n1.snapIndex, m.prev, m.prevTerm)
      case Some(hint) => (n1, AppendResponse(m.to, m.from, m.term, upTo, n1.term, false, hint))
      case None =>
        var log := Merge(n1.log, m.prev, m.entries);
        var commit := if m.leaderCommit > n1.commitIndex then Min(m.leaderCommit, |log|) else n1.commitIndex;
        (Acknowledge(n1.(log := log, commitIndex := commit), m.term, upTo),
         AppendResponse(m.to, m.from, m.term, upTo, n1.term, true, 0))
  }

  function HandleAppendResponse(n: Node, m: Message): Node
    requires m.AppendResponse?
  {
    if !n.role.Leader? || m.from !in n.next || m.from !in n.matched then n
    else if m.term > n.term then BecomeFollower(n, m.term)
    else if !m.success then n.(next := n.next[m.from := m.hint])
    else if m.upTo > n.matched[m.from] then
      n.(next := n.next[m.from := Max(n.next[m.from], m.upTo + 1)], matched := n.matched[m.from := m.upTo])
    else n
  }

  /** The commit scan's test for one index: the entry is of the current term and, counting the leader itself,
      a quorum of voters matches it. */
  predicate Commits(n: Node, id: Id, voters: set<Id>, index: nat)
    requires 1 <= index <= |n.log|
  {
    && n.log[index - 1].term == n.term
    && HasQuorum(voters, 1 + |set f | f in n.matched && f != id && f in voters && n.matched[f] >= index|)
  }

  /** The largest index in (low, high] that commits, or `low`. */
  function LargestCommitting(n: Node, id: Id, voters: set<Id>, low: nat, high: nat): (r: nat)
    requires low <= high <= |n.log|
    ensures low <= r <= high
  {
    if high == low then low
    else if Commits(n, id, voters, high) then high
    else LargestCommitting(n, id, voters, low, high - 1)
  }

  function CommitScan(n: Node, id: Id, voters: set<Id>): Node {
    if n.role.Leader? && n.commitIndex <= |n.log| then
      n.(commitIndex := LargestCommitting(n, id, voters, n.commitIndex, |n.log|))
    else n
  }

  /** Applies the entry after the last applied one and answers the client that waits for it. */
  function ApplyNext(n: Node): Node
    requires n.lastApplied < n.commitIndex <= |n.log|
  {
    var e := n.log[n.lastApplied];
    var index := n.lastApplied + 1;
    n.(applied := n.applied + [e], lastApplied := index,
       pending := if e.kind.Operation? then n.pending - {index} else n.pending)
  }

  function Compact(n: Node, index: nat): Node {
    n.(snapIndex := index)
  }

  function BuildSnapRequest(n: Node, id: Id, to: Id): Message
    requires 1 <= n.snapIndex <= |n.log|
  {
    SnapRequest(id, to, n.term, n.snapIndex, n.log[n.snapIndex - 1].term, n.log[..n.snapIndex])
  }

  /** InstallSnapshot at the receiver. `complete` says that this request brings the last missing bytes. When the log
      already holds the snapshot point, the log is kept, and compacting it is left to a later `Compact`. */
  function HandleSnapRequest(n: Node, m: Message, complete: bool): (Node, Message)
    requires m.SnapRequest?
  {
    if m.term < n.term then (n, SnapResponse(m.to, m.from, m.term, m.index, n.term, false))
    else
      var n1 := FollowLeader(n, m.term);
      if n1.snapIndex >= m.index || n1.lastApplied >= m.index then
        (Acknowledge(n1, m.term, m.index), SnapResponse(m.to, m.from, m.term, m.index, n1.term, true))
      else if !complete then
        (n1, SnapResponse(m.to, m.from, m.term, m.index, n1.term, false))
      else if m.index <= |n1.log| && m.index > 0 && n1.log[m.index - 1].term == m.lastTerm then
        (Acknowledge(n1, m.term, m.index), SnapResponse(m.to, m.from, m.term, m.index, n1.term, true))
      else
        var n2 := n1.(log := m.content, snapIndex := m.index, commitIndex := m.index, lastApplied := m.index,
                      applied := m.content);
        (Acknowledge(n2, m.term, m.index), SnapResponse(m.to, m.from, m.term, m.index, n1.term, true))
  }

  function HandleSnapResponse(n: Node, m: Message): Node
    requires m.SnapResponse?
  {
    if !n.role.Leader? || m.from !in n.next || m.from !in n.matched then n
    else if m.term > n.term then BecomeFollower(n, m.term)
    else if !m.covered then n
    else n.(matched := n.matched[m.from := m.index], next := n.next[m.from := m.index + 1])
  }

  /** A crash followed by a restart: the stored term and vote, the log and the snapshot survive. */
  function Restart(n: Node): Node {
    n.(role := Follower, term := n.diskTerm, votedFor := n.diskVote,
       commitIndex := n.snapIndex, lastApplied := n.snapIndex,
       applied := if n.snapIndex <= |n.log| then n.log[..n.snapIndex] else n.log,
       next := map[], matched := map[], live := |n.rounds|, pending := map[])
  }
}
