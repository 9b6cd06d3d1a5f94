/** What the handlers bring about. The safety theorems also hold of nodes that refuse everything; the laws here say what
    a vote, a reply and a round of an election must do. */
module Progress {
  import opened Entries
  import opened Protocol

  /** A vote is granted in exactly these cases, and every answer carries the voter's term after the step. A pre-vote
      and a refusal for a recent contact leave the voter as it was; any other request takes it to the later of the
      two terms. */
  lemma VoteIsExact(n: Node, m: Message, refuse: bool)
    requires m.VoteRequest?
    ensures var (n', y) := HandleVoteRequest(n, m, refuse);
            && y.VoteResponse? && y == VoteResponse(m.to, m.from, m.round, m.term, m.prevote, n'.term, y.granted)
            && (y.granted <==>
                  && !refuse && m.term >= n.term
                  && (m.prevote || m.term > n.term || n.votedFor == "" || n.votedFor == m.from)
                  && (m.lastTerm > LastTerm(n.log) || (m.lastTerm == LastTerm(n.log) && m.lastIndex >= |n.log|)))
            && (m.prevote || refuse ==> n' == n)
            && (!m.prevote && !refuse ==> n'.term == Max(n.term, m.term))
            && (!m.prevote && !refuse && m.term > n.term ==> n'.role.Follower? && n'.pending == map[])
            && (!m.prevote && y.granted ==> n'.votedFor == n'.diskVote == m.from)
  {
  }

  /** Every answer to a leader carries the term of its sender after the step, which is the later of the two terms. */
  lemma RepliesCarryTerm(n: Node, m: Message, complete: bool)
    requires (m.AppendRequest? && n.snapIndex <= |n.log|) || m.SnapRequest?
    ensures m.AppendRequest? ==>
              var (n', y) := HandleAppendRequest(n, m);
              && y.AppendResponse? && y.from == m.to && y.to == m.from && y.requestTerm == m.term
              && y.term == n'.term == Max(n.term, m.term) && y.upTo == m.prev + |m.entries|
    ensures m.SnapRequest? ==>
              var (n', y) := HandleSnapRequest(n, m, complete);
              && y.SnapResponse? && y.from == m.to && y.to == m.from && y.requestTerm == m.term
              && y.term == n'.term == Max(n.term, m.term) && y.index == m.index
  {
    hide Check, Merge;
  }

  /** `n` has stepped down in term `t`: it follows, its vote is free, both are stored, and no client waits. */
  predicate SteppedDown(n: Node, t: nat) {
    n.role.Follower? && n.term == n.diskTerm == t && n.votedFor == n.diskVote == "" && n.pending == map[]
  }

  /** A node that still counts on a reply and sees a later term in it steps down in that term; no other reply changes
      the node's term. */
  lemma LaterTermStepsDown(n: Node, members: set<Id>, voters: set<Id>, m: Message)
    ensures m.VoteResponse? && m.round < |n.rounds| ==>
              var n' := HandleVoteResponse(n, members, voters, m);
              if n.term <= m.requestTerm < m.term then SteppedDown(n', m.term) else n'.term == n.term
    ensures m.AppendResponse? || m.SnapResponse? ==>
              var n' := if m.AppendResponse? then HandleAppendResponse(n, m) else HandleSnapResponse(n, m);
              if n.role.Leader? && m.from in n.next && m.from in n.matched && m.term > n.term
              then SteppedDown(n', m.term) else n'.term == n.term
  {
    hide HasQuorum;
  }

  /** A successful reply never takes back what the leader knows of a follower: the match index becomes the larger of
      the two, and the next index is behind it whenever the match index rises; a failure moves only the next
      index, to where the follower asks. */
  lemma ReplyMovesIndices(n: Node, m: Message)
    requires m.AppendResponse? && n.role.Leader? && m.from in n.next && m.from in n.matched && m.term <= n.term
    ensures var n' := HandleAppendResponse(n, m);
            && n'.next.Keys == n.next.Keys && n'.matched.Keys == n.matched.Keys && n'.log == n.log
            && (forall f :: f in n.next && f != m.from ==> n'.next[f] == n.next[f])
            && (forall f :: f in n.matched && f != m.from ==> n'.matched[f] == n.matched[f])
            && n'.matched[m.from] == (if m.success then Max(n.matched[m.from], m.upTo) else n.matched[m.from])
            && (m.success ==> n.next[m.from] <= n'.next[m.from])
            && (m.success && m.upTo > n.matched[m.from] ==>
                  n'.next[m.from] > m.upTo && (n'.next[m.from] > m.upTo + 1 ==> n'.next[m.from] == n.next[m.from]))
            && (m.success && m.upTo <= n.matched[m.from] ==> n' == n)
            && (!m.success ==> n'.next[m.from] == m.hint)
  {
  }

  // --- a round of an election ---

  /** The requests of the round are built at once; the voters in `qs` handle them, and the node handles their answers.
      */
  function Polled(c: Node, id: Id, r: nat, members: set<Id>, voters: set<Id>, nodes: map<Id, Node>, qs: seq<Id>)
    : (n: Node)
    requires r < |c.rounds| && forall q :: q in qs ==> q in nodes
    ensures |n.rounds| == |c.rounds|
  {
    if qs == [] then c
    else
      var q := qs[|qs| - 1];
      var y := HandleVoteRequest(nodes[q], BuildVoteRequest(c, id, q, r), false).1;
      HandleVoteResponse(Polled(c, id, r, members, voters, nodes, qs[..|qs| - 1]), members, voters, y)
  }

  predicate Distinct(qs: seq<Id>) {
    forall j, k :: 0 <= j < k < |qs| ==> qs[j] != qs[k]
  }

  /** The voter is not in a later term than the election, has not voted for another node in it, and its log is not
      ahead of the candidate's. */
  predicate Supports(v: Node, term: nat, id: Id, log: Log) {
    && (v.term < term || (v.term == term && (v.votedFor == "" || v.votedFor == id)))
    && (LastTerm(log) > LastTerm(v.log) || (LastTerm(log) == LastTerm(v.log) && |log| >= |v.log|))
  }

  function SetOf(qs: seq<Id>): set<Id> {
    set q | q in qs
  }

  lemma {:induction false} SetOfDistinct(qs: seq<Id>)
    requires Distinct(qs)
    ensures |SetOf(qs)| == |qs|
  {
    if qs != [] {
      SetOfDistinct(qs[..|qs| - 1]);
      assert qs == qs[..|qs| - 1] + [qs[|qs| - 1]];
      assert SetOf(qs) == SetOf(qs[..|qs| - 1]) + {qs[|qs| - 1]};
    }
  }

  lemma SupporterGrants(v: Node, c: Node, id: Id, q: Id, r: nat)
    requires r < |c.rounds| && Supports(v, if c.rounds[r].prevote then c.term + 1 else c.term, id, c.log)
    ensures var rt := if c.rounds[r].prevote then c.term + 1 else c.term;
            var y := HandleVoteRequest(v, BuildVoteRequest(c, id, q, r), false).1;
            && y.VoteResponse? && y.from == q && y.round == r && y.requestTerm == rt && y.granted && y.term <= rt
            && y.prevote == c.rounds[r].prevote
  {
    VoteIsExact(v, BuildVoteRequest(c, id, q, r), false);
  }

  /** The node after its round was granted by the voters in `qs`. */
  function Granted(c: Node, r: nat, qs: seq<Id>): Node
    requires r < |c.rounds|
  {
    c.(rounds := c.rounds[r := c.rounds[r].(granted := SetOf(qs))])
  }

  /** What the round makes of the node. */
  function Outcome(c: Node, r: nat, members: set<Id>, voters: set<Id>, qs: seq<Id>): Node
    requires r < |c.rounds|
  {
    var g := Granted(c, r, qs);
    if qs == [] || 2 * (1 + |qs|) <= |voters| then g
    else if c.rounds[r].prevote then g.(role := Candidate)
    else BecomeLeader(g, members)
  }

  /** An answer in a live round is counted when it grants the vote. With a majority a round of pre-votes makes a
      pre-candidate a candidate, and a round of votes makes a candidate or pre-candidate the leader; a leader or a
      follower stays what it is. */
  lemma VoteIsCounted(n: Node, members: set<Id>, voters: set<Id>, y: Message)
    requires y.VoteResponse? && y.round < |n.rounds| && n.term <= y.requestTerm && y.term <= y.requestTerm
    ensures var round := n.rounds[y.round];
            var granted := if y.granted then round.granted + {y.from} else round.granted;
            var g := n.(rounds := n.rounds[y.round := round.(granted := granted)]);
            HandleVoteResponse(n, members, voters, y) ==
            if 2 * (1 + |granted|) <= |voters| || n.role.Leader? || n.role.Follower? then g
            else if !y.prevote then BecomeLeader(g, members)
            else g.(role := Candidate)
  {
    LeaderFromAnyRole(CountVote(n, y), members);
    hide BecomeLeader;
    assert n.rounds[y.round := n.rounds[y.round]] == n.rounds;
  }

  lemma LeaderFromAnyRole(n: Node, members: set<Id>)
    ensures BecomeLeader(n.(role := Candidate), members) == BecomeLeader(n, members)
  {
  }

  lemma LeaderWithRounds(g: Node, members: set<Id>, rounds: seq<Round>)
    ensures BecomeLeader(g, members).(rounds := rounds) == BecomeLeader(g.(rounds := rounds), members)
    ensures BecomeLeader(g, members).role.Leader? && BecomeLeader(g, members).rounds == g.rounds
    ensures BecomeLeader(g, members).term == g.term
  {
  }

  lemma GrantedStep(c: Node, r: nat, qs: seq<Id>)
    requires r < |c.rounds| && qs != [] && Distinct(qs)
    ensures var was, now := Granted(c, r, qs[..|qs| - 1]), Granted(c, r, qs);
            && |was.rounds| == |now.rounds| == |c.rounds| && was.role == now.role == c.role
            && was.term == now.term == c.term && now == was.(rounds := now.rounds)
            && now.rounds[r].prevote == was.rounds[r].prevote == c.rounds[r].prevote
            && var granted := was.rounds[r].granted + {qs[|qs| - 1]};
               |granted| == |qs| && now.rounds == was.rounds[r := was.rounds[r].(granted := granted)]
  {
    var before := qs[..|qs| - 1];
    SetOfDistinct(qs);
    assert qs == before + [qs[|qs| - 1]];
    assert SetOf(qs) == SetOf(before) + {qs[|qs| - 1]};
  }

  lemma OutcomeStep(c: Node, r: nat, members: set<Id>, voters: set<Id>, qs: seq<Id>, y: Message)
    requires r < |c.rounds| && c.rounds[r].granted == {} && qs != [] && Distinct(qs)
    requires if c.rounds[r].prevote then c.role.PreCandidate? else c.role.Candidate?
    requires y.VoteResponse? && y.round == r && y.granted && y.prevote == c.rounds[r].prevote
    requires c.term <= y.requestTerm && y.term <= y.requestTerm && y.from == qs[|qs| - 1]
    ensures var n := Outcome(c, r, members, voters, qs[..|qs| - 1]);
            r < |n.rounds| && HandleVoteResponse(n, members, voters, y) == Outcome(c, r, members, voters, qs)
  {
    hide BecomeLeader, HandleVoteResponse, Granted, Distinct;
    var before := qs[..|qs| - 1];
    var n := Outcome(c, r, members, voters, before);
    var was, now := Granted(c, r, before), Granted(c, r, qs);
    GrantedStep(c, r, qs);
    LeaderWithRounds(was, members, now.rounds);
    VoteIsCounted(n, members, voters, y);
  }

  lemma {:induction false} PolledOutcome(c: Node, id: Id, r: nat, members: set<Id>, voters: set<Id>,
                                         nodes: map<Id, Node>, qs: seq<Id>)
    requires r < |c.rounds| && c.rounds[r].granted == {} && Distinct(qs)
    requires if c.rounds[r].prevote then c.role.PreCandidate? else c.role.Candidate?
    requires forall q :: q in qs ==> q in nodes
    requires forall q :: q in qs ==> Supports(nodes[q], if c.rounds[r].prevote then c.term + 1 else c.term, id, c.log)
    ensures Polled(c, id, r, members, voters, nodes, qs) == Outcome(c, r, members, voters, qs)
  {
    hide Outcome, Supports, HandleVoteResponse, HandleVoteRequest;
    if qs == [] {
      NothingPolled(c, r, members, voters);
    } else {
      var q := qs[|qs| - 1];
      PolledOutcome(c, id, r, members, voters, nodes, qs[..|qs| - 1]);
      SupporterGrants(nodes[q], c, id, q, r);
      OutcomeStep(c, r, members, voters, qs, HandleVoteRequest(nodes[q], BuildVoteRequest(c, id, q, r), false).1);
    }
  }

  lemma NothingPolled(c: Node, r: nat, members: set<Id>, voters: set<Id>)
    requires r < |c.rounds| && c.rounds[r].granted == {}
    ensures Outcome(c, r, members, voters, []) == c
  {
    assert SetOf([]) == {};
  }

  /** The voters in `qs` and the node itself are more than half of the voters, and support it. */
  predicate Backed(n: Node, term: nat, id: Id, voters: set<Id>, nodes: map<Id, Node>, qs: seq<Id>) {
    && qs != [] && Distinct(qs) && 2 * (1 + |qs|) > |voters|
    && forall q :: q in qs ==> q in nodes && Supports(nodes[q], term, id, n.log)
  }

  /** `w` leads in `term`, for which it voted itself. Its log is that of `n` and the no-op entry of the term, and the
      no-op entry is what it sends first to everyone. */
  predicate Leads(n: Node, w: Node, term: nat, id: Id, members: set<Id>) {
    && w.role.Leader? && w.term == w.diskTerm == term && w.votedFor == w.diskVote == id
    && w.log == n.log + [Entry(term, NoOp, [])] && w.commitIndex == n.commitIndex && w.snapIndex == n.snapIndex
    && w.next.Keys == w.matched.Keys == members && w.pending == map[]
    && forall f :: f in members ==> w.next[f] == |w.log| && w.matched[f] == 0
  }

  /** A candidate whose election timeout passes is elected in the next term when more than half of the voters back it.
      */
  lemma CandidateIsElected(n: Node, id: Id, members: set<Id>, voters: set<Id>, nodes: map<Id, Node>, qs: seq<Id>)
    requires n.role.Candidate? && id in voters && Backed(n, n.term + 1, id, voters, nodes, qs)
    ensures var c := Election(n, id, voters);
            && |c.rounds| == |n.rounds| + 1
            && Leads(n, Polled(c, id, |n.rounds|, members, voters, nodes, qs), n.term + 1, id, members)
  {
    hide Supports, Polled;
    var c := Election(n, id, voters);
    PolledOutcome(c, id, |n.rounds|, members, voters, nodes, qs);
  }

  /** A node that is no candidate yet first asks for pre-votes. When more than half of the voters back it, the round
      makes it a candidate in its old term, with its old vote. */
  lemma PreVoteSucceeds(n: Node, id: Id, members: set<Id>, voters: set<Id>, nodes: map<Id, Node>, qs: seq<Id>)
    requires (n.role.Follower? || n.role.PreCandidate?) && id in voters
    requires Backed(n, n.term + 1, id, voters, nodes, qs)
    ensures var c := Election(n, id, voters);
            && |c.rounds| == |n.rounds| + 1
            && var p := Polled(c, id, |n.rounds|, members, voters, nodes, qs);
               p == n.(role := Candidate, rounds := p.rounds)
  {
    hide Supports, Polled;
    var c := Election(n, id, voters);
    PolledOutcome(c, id, |n.rounds|, members, voters, nodes, qs);
  }

  /** Elections succeed: a follower or pre-candidate whose election timeout passes, and whose log no voter of some
      majority is ahead of, becomes leader of the next term after one round of pre-votes and one round of votes. */
  lemma ElectionSucceeds(n: Node, id: Id, members: set<Id>, voters: set<Id>, nodes: map<Id, Node>, qs: seq<Id>)
    requires (n.role.Follower? || n.role.PreCandidate?) && id in voters
    requires Backed(n, n.term + 1, id, voters, nodes, qs)
    ensures var c := Election(n, id, voters);
            && |c.rounds| == |n.rounds| + 1
            && var p := Polled(c, id, |n.rounds|, members, voters, nodes, qs);
               var c2 := Election(p, id, voters);
               && |c2.rounds| == |p.rounds| + 1
               && Leads(n, Polled(c2, id, |p.rounds|, members, voters, nodes, qs), n.term + 1, id, members)
  {
    hide Supports, Polled, Leads, Election;
    PreVoteSucceeds(n, id, members, voters, nodes, qs);
    var c := Election(n, id, voters);
    var p := Polled(c, id, |n.rounds|, members, voters, nodes, qs);
    BackedAlike(n, p, id, voters, nodes, qs);
    CandidateIsElected(p, id, members, voters, nodes, qs);
    LeadsAlike(n, p, Polled(Election(p, id, voters), id, |p.rounds|, members, voters, nodes, qs), n.term + 1, id,
               members);
  }

  lemma BackedAlike(n: Node, p: Node, id: Id, voters: set<Id>, nodes: map<Id, Node>, qs: seq<Id>)
    requires Backed(n, n.term + 1, id, voters, nodes, qs) && p.log == n.log && p.term == n.term
    ensures Backed(p, p.term + 1, id, voters, nodes, qs)
  {
  }

  lemma LeadsAlike(n: Node, p: Node, w: Node, term: nat, id: Id, members: set<Id>)
    requires Leads(p, w, term, id, members) && p.log == n.log && p.commitIndex == n.commitIndex
    requires p.snapIndex == n.snapIndex
    ensures Leads(n, w, term, id, members)
  {
  }
}
