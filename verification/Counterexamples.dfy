/** Runs of the protocol that break one assumption each. */
module Counterexamples {
  import opened Entries
  import opened Protocol
  import opened Cluster
  import opened Assumptions

  const Base: Entry := Entry(1, Configuration, [])

  ghost function Start(members: set<Id>, voters: set<Id>): State {
    State(Base, members, voters, map id | id in members :: InitialNode(Base), {}, map[], {}, {}, [], [])
  }

  const ABC: set<Id> := {"a", "b", "c"}

  lemma StartOK(members: set<Id>)
    requires ABC <= members && "" !in members
    ensures Init(Start(members, ABC)) && |ABC| == 3
  {
    assert |members| >= |ABC| by {
      assert members == ABC + (members - ABC);
    }
  }

  lemma Quorums()
    ensures HasQuorum(ABC, 2) && !HasQuorum(ABC, 1)
  {
    assert |ABC| == 3;
  }

  /** A voter that is not in a later term and has no better log grants a pre-vote, which is enough for a
      pre-candidate. */
  lemma PreVoteWins(n: Node, w: Node, id: Id, v: Id, members: set<Id>)
    requires n.role.PreCandidate? && n.rounds != [] && n.rounds[|n.rounds| - 1] == Round(true, n.term, {})
    requires w.term <= n.term + 1 && UpToDate(|n.log|, LastTerm(n.log), w.log)
    ensures var m := BuildVoteRequest(n, id, v, |n.rounds| - 1);
            var (w', y) := HandleVoteRequest(w, m, false);
            && w' == w && y.granted && m.prevote && y.VoteResponse? && y.round == |n.rounds| - 1
            && HandleVoteResponse(n, members, ABC, y) ==
                 n.(role := Candidate, rounds := n.rounds[|n.rounds| - 1 := Round(true, n.term, {v})])
  {
    Quorums();
    hide UpToDate;
    assert {} + {v} == {v};
  }

  /** A round of pre-votes: `id` ticks, `v` grants, `id` may become candidate. */
  lemma PreVoting(s: State, id: Id, v: Id, o: Obeys) returns (t: State, es: seq<Event>)
    requires TwoIsQuorum(s, id, v) && s.voters == ABC && s.nodes[id].role.Follower?
    requires s.nodes[id].live <= |s.nodes[id].rounds|
    requires s.nodes[v].term <= s.nodes[id].term + 1
    requires UpToDate(|s.nodes[id].log|, LastTerm(s.nodes[id].log), s.nodes[v].log)
    ensures Reaches(s, es, t, o) && SameCluster(s, t)
    ensures var n := s.nodes[id];
            t.nodes == s.nodes[id := n.(role := Candidate, rounds := n.rounds + [Round(true, n.term, {v})])]
  {
    hide Reaches, UpToDate, HandleVoteRequest, HandleVoteResponse, BuildVoteRequest;
    var n := s.nodes[id];
    var s1, es1 := TickStep(s, id, o);
    var n1 := s1.nodes[id];
    assert n1 == n.(role := PreCandidate, rounds := n.rounds + [Round(true, n.term, {})]);
    PreVoteWins(n1, s.nodes[v], id, v, s.members);
    var es2;
    t, es2 := Asking(s1, id, v, |n.rounds|, o);
    assert n1.rounds[|n.rounds| := Round(true, n.term, {v})] == n.rounds + [Round(true, n.term, {v})];
    Compose(s, es1, s1, es2, t, o);
    es := es1 + es2;
  }

  /** A candidate starts a real round in the next term. */
  lemma Standing(s: State, id: Id, o: Obeys) returns (t: State, es: seq<Event>)
    requires id in s.nodes && id in s.voters && s.nodes[id].role.Candidate?
    ensures Reaches(s, es, t, o) && SameCluster(s, t)
    ensures t.nodes == s.nodes[id := StartRound(BecomeCandidate(s.nodes[id], id))]
  {
    t, es := TickStep(s, id, o);
  }

  /** The first vote in the real round `r` makes `id` leader. */
  lemma Winning(s: State, id: Id, v: Id, r: nat, o: Obeys) returns (t: State, es: seq<Event>)
    requires TwoIsQuorum(s, id, v) && s.voters == ABC
    requires var n, w := s.nodes[id], s.nodes[v];
             && (n.role.Candidate? || n.role.PreCandidate?) && n.live <= r < |n.rounds|
             && !n.rounds[r].prevote && n.rounds[r].granted == {}
             && (o.asksInTime ==> n.rounds[r].term == n.term)
             && w.term <= n.term && (w.term == n.term ==> w.votedFor == "" || w.votedFor == id)
             && UpToDate(|n.log|, LastTerm(n.log), w.log)
             && (o.keepsVote ==> forall c :: (n.term, c) in w.cast ==> c == id)
    ensures Reaches(s, es, t, o) && SameCluster(s, t)
    ensures var n, w := s.nodes[id], s.nodes[v];
            var w' := if w.term < n.term then BecomeFollower(w, n.term) else w;
            t.nodes == s.nodes[v := GrantVote(w', id)]
                              [id := BecomeLeader(n.(role := Candidate,
                                rounds := n.rounds[r := Round(false, n.rounds[r].term, {v})]), s.members)]
  {
    Quorums();
    t, es := Asking(s, id, v, r, o);
    assert {} + {v} == {v};
  }

  lemma NewLeader(n: Node, members: set<Id>)
    ensures var l := BecomeLeader(n, members);
            && l.role.Leader? && l.term == n.term && l.log == n.log + [Entry(n.term, NoOp, [])]
            && l.rounds == n.rounds && l.live == n.live && l.snapIndex == n.snapIndex && l.commitIndex == n.commitIndex
            && l.next.Keys == members && l.matched.Keys == members
            && forall f :: f in members ==> l.next[f] == |n.log| + 1 && l.matched[f] == 0
  {
  }

  const Fresh: Node := InitialNode(Base)

  /** A node that became candidate of term 1 with a pre-vote of `v`. */
  ghost function CandidateOf(id: Id, v: Id): Node {
    Fresh.(role := Candidate, term := 1, votedFor := id, diskTerm := 1, diskVote := id, cast := {(1, id)},
           rounds := [Round(true, 0, {v}), Round(false, 1, {})])
  }

  lemma FirstCandidacy(s: State, id: Id, v: Id, o: Obeys) returns (t: State, es: seq<Event>)
    requires TwoIsQuorum(s, id, v) && s.voters == ABC && s.nodes[id] == Fresh && s.nodes[v].term <= 1
    requires UpToDate(1, 1, s.nodes[v].log)
    ensures Reaches(s, es, t, o) && SameCluster(s, t) && t.nodes == s.nodes[id := CandidateOf(id, v)]
  {
    hide Reaches, UpToDate;
    var s1, e1 := PreVoting(s, id, v, o);
    var e2;
    t, e2 := Standing(s1, id, o);
    Compose(s, e1, s1, e2, t, o);
    es := e1 + e2;
    assert StartRound(BecomeCandidate(s1.nodes[id], id)) == CandidateOf(id, v);
  }

  /** Two nodes are candidates, `c` in term 1 and `a` already in term 2. */
  lemma TwoCandidates(o: Obeys) returns (s: State, es: seq<Event>, t: State)
    ensures Init(s) && Reaches(s, es, t, o) && SameCluster(s, t) && s.members == ABC && s.voters == ABC
    ensures t.nodes.Keys == ABC && t.nodes["b"] == Fresh && t.nodes["c"] == CandidateOf("c", "b")
    ensures t.nodes["a"] == StartRound(BecomeCandidate(CandidateOf("a", "b"), "a"))
  {
    hide Reaches, Init;
    s := Start(ABC, ABC);
    StartOK(ABC);
    var s1, e1 := FirstCandidacy(s, "c", "b", o);
    var s2, e2 := FirstCandidacy(s1, "a", "b", o);
    Compose(s, e1, s1, e2, s2, o);
    var e3;
    t, e3 := Standing(s2, "a", o);
    Compose(s, e1 + e2, s2, e3, t, o);
    es := e1 + e2 + e3;
  }

  /** `a` leads term 2 with the vote of `c`, a candidate of term 1. */
  lemma CandidateVoted(o: Obeys) returns (s: State, es: seq<Event>, t: State)
    ensures Init(s) && Reaches(s, es, t, o) && SameCluster(s, t) && s.members == ABC && s.voters == ABC
    ensures t.nodes.Keys == ABC
    ensures t.nodes["b"] == Fresh && t.nodes["a"].role.Leader? && t.nodes["a"].term == 2
    ensures t.nodes["c"] == GrantVote(BecomeFollower(CandidateOf("c", "b"), 2), "a")
  {
    hide Reaches, Init;
    var s1, e1, e2;
    s, e1, s1 := TwoCandidates(o);
    t, e2 := Winning(s1, "a", "c", 2, o);
    Compose(s, e1, s1, e2, t, o);
    es := e1 + e2;
  }

  /** `a` leads term 2 with `c`'s vote, and `c`, which has voted for it in that term, stands for election again. */
  lemma VoterStandsAgain(o: Obeys) returns (s: State, es: seq<Event>, t: State)
    ensures Init(s) && Reaches(s, es, t, o) && SameCluster(s, t) && s.members == ABC && s.voters == ABC
    ensures t.nodes.Keys == ABC
    ensures t.nodes["b"] == Fresh && t.nodes["a"].role.Leader? && t.nodes["a"].term == 2
    ensures var c := t.nodes["c"];
            && c.role.PreCandidate? && c.term == 2 && c.log == [Base] && c.live == 0
            && |c.rounds| == 3 && c.rounds[1] == Round(false, 1, {})
  {
    hide Reaches, Init;
    var s1, e1, e2;
    s, e1, s1 := CandidateVoted(o);
    t, e2 := TickStep(s1, "c", o);
    Compose(s, e1, s1, e2, t, o);
    es := e1 + e2;
  }

  /** Without A4: a request for a real vote is built in a later term than its round was started in, and in that term the
      candidate has voted for another node. Both become leader of that term. */
  lemma LateRequestMakesTwoLeaders() returns (s: State, es: seq<Event>, t: State)
    ensures Init(s) && Reaches(s, es, t, Obeys(true, true, false))
    ensures "a" in t.nodes && t.nodes["a"].role.Leader? && "c" in t.nodes && t.nodes["c"].role.Leader?
    ensures t.nodes["a"].term == t.nodes["c"].term
  {
    hide Reaches, Init;
    var o := Obeys(true, true, false);
    var s1, e1, e2;
    s, e1, s1 := VoterStandsAgain(o);
    t, e2 := Winning(s1, "c", "b", 1, o);
    Compose(s, e1, s1, e2, t, o);
    es := e1 + e2;
  }

  /** Node `a` when it leads term 1. */
  ghost function LeaderOf1(members: set<Id>): Node {
    BecomeLeader(CandidateOf("a", "b").(rounds := [Round(true, 0, {"b"}), Round(false, 1, {"b"})]), members)
  }

  /** `a` leads term 1 with `b`'s vote, and `c` is candidate of that term too. */
  lemma LeaderAndCandidate(o: Obeys) returns (s: State, es: seq<Event>, t: State)
    ensures Init(s) && Reaches(s, es, t, o) && SameCluster(s, t) && s.members == ABC && s.voters == ABC
    ensures t.nodes.Keys == ABC
    ensures t.nodes["c"] == CandidateOf("c", "b")
    ensures t.nodes["b"] == GrantVote(BecomeFollower(Fresh, 1), "a")
    ensures t.nodes["a"] == LeaderOf1(ABC)
  {
    hide Reaches, Init;
    s := Start(ABC, ABC);
    StartOK(ABC);
    var s1, e1 := FirstCandidacy(s, "c", "b", o);
    var s2, e2 := FirstCandidacy(s1, "a", "b", o);
    Compose(s, e1, s1, e2, s2, o);
    var e3;
    t, e3 := Winning(s2, "a", "b", 1, o);
    Compose(s, e1 + e2, s2, e3, t, o);
    es := e1 + e2 + e3;
    assert CandidateOf("a", "b").rounds[1 := Round(false, 1, {"b"})] == [Round(true, 0, {"b"}), Round(false, 1, {"b"})];
  }

  const NoOpOf1: Entry := Entry(1, NoOp, [])

  /** Taking over the first entry of term 1 from its leader. */
  lemma FirstEntry(n: Node, m: Message)
    requires n.log == [Base] && n.snapIndex == 0 && n.term == 1 && n.commitIndex == 0
    requires m.AppendRequest? && m.term == 1 && m.prev == 1 && m.prevTerm == 1 && m.entries == [NoOpOf1]
    requires m.leaderCommit == 0
    ensures HandleAppendRequest(n, m).0 == Acknowledge(FollowLeader(n, 1).(log := [Base, NoOpOf1]), 1, 2)
  {
    MergesBehindBase(NoOpOf1);
    hide Merge, RunBefore;
  }

  lemma MergesBehindBase(e: Entry)
    ensures Merge([Base], 1, [e]) == [Base, e]
  {
  }

  lemma LeaderOf1Sends(l: Node, f: Id)
    requires l == LeaderOf1(ABC) && f in ABC
    ensures l.role.Leader? && l.term == 1 && f in l.next && l.snapIndex == 0 && l.next[f] == 2 && |l.log| == 2
    ensures BuildAppendRequest(l, "a", f) == AppendRequest("a", f, 1, 1, 1, [NoOpOf1], 0)
  {
    assert l.log[1..] == [NoOpOf1];
  }

  /** The voter of the leader of term 1 becomes pre-candidate, hears from that leader, and has forgotten its vote. */
  lemma VoteForgotten(o: Obeys) returns (s: State, es: seq<Event>, t: State)
    ensures Init(s) && Reaches(s, es, t, o) && SameCluster(s, t) && s.members == ABC && s.voters == ABC
    ensures t.nodes.Keys == ABC
    ensures t.nodes["a"] == LeaderOf1(ABC) && t.nodes["c"] == CandidateOf("c", "b")
    ensures t.nodes["b"].term == 1 && t.nodes["b"].votedFor == "" && t.nodes["b"].log == [Base, NoOpOf1]
  {
    hide Reaches, Init, HandleAppendRequest, BuildAppendRequest, LeaderOf1;
    var s1, s2, e1, e2, e3;
    s, e1, s1 := LeaderAndCandidate(o);
    LeaderOf1Sends(s1.nodes["a"], "b");
    s2, e2 := TickStep(s1, "b", o);
    Compose(s, e1, s1, e2, s2, o);
    t, e3 := Replicating(s2, "a", "b", o);
    FirstEntry(s2.nodes["b"], AppendRequest("a", "b", 1, 1, 1, [NoOpOf1], 0));
    Compose(s, e1 + e2, s2, e3, t, o);
    es := e1 + e2 + e3;
  }

  /** Then the other candidate of that term has taken over the leader's log, and stands for election again. */
  lemma CandidateAgain(o: Obeys) returns (s: State, es: seq<Event>, t: State)
    ensures Init(s) && Reaches(s, es, t, o) && SameCluster(s, t) && s.members == ABC && s.voters == ABC
    ensures t.nodes.Keys == ABC
    ensures t.nodes["a"].role.Leader? && t.nodes["a"].term == 1
    ensures t.nodes["b"].term == 1 && t.nodes["b"].votedFor == "" && t.nodes["b"].log == [Base, NoOpOf1]
    ensures var c := t.nodes["c"];
            && c.role.PreCandidate? && c.term == 1 && c.log == [Base, NoOpOf1] && c.live == 0
            && |c.rounds| == 3 && c.rounds[1] == Round(false, 1, {})
  {
    hide Reaches, Init, HandleAppendRequest, BuildAppendRequest, LeaderOf1;
    var s1, s2, e1, e2, e3;
    s, e1, s1 := VoteForgotten(o);
    LeaderOf1Sends(s1.nodes["a"], "c");
    s2, e2 := Replicating(s1, "a", "c", o);
    FirstEntry(s1.nodes["c"], AppendRequest("a", "c", 1, 1, 1, [NoOpOf1], 0));
    Compose(s, e1, s1, e2, s2, o);
    t, e3 := TickStep(s2, "c", o);
    Compose(s, e1 + e2, s2, e3, t, o);
    es := e1 + e2 + e3;
  }

  /** Without A2: the voter becomes pre-candidate, hears from the leader it voted for, forgets its vote, and votes for
      the other candidate of the same term. Both become leader of that term. */
  lemma ForgottenVoteMakesTwoLeaders() returns (s: State, es: seq<Event>, t: State)
    ensures Init(s) && Reaches(s, es, t, Obeys(false, true, true))
    ensures "a" in t.nodes && t.nodes["a"].role.Leader? && "c" in t.nodes && t.nodes["c"].role.Leader?
    ensures t.nodes["a"].term == t.nodes["c"].term
  {
    hide Reaches, Init;
    var o := Obeys(false, true, true);
    var s1, e1, e2;
    s, e1, s1 := CandidateAgain(o);
    t, e2 := Winning(s1, "c", "b", 1, o);
    Compose(s, e1, s1, e2, t, o);
    es := e1 + e2;
  }

  // A cluster with a fourth member that has no vote.
  const ABCF: set<Id> := ABC + {"f"}

  const NoOpOf2: Entry := Entry(2, NoOp, [])

  /** The reply of `f` to the first request of term 1. */
  const StaleReply: Message := AppendResponse("f", "a", 1, 2, 1, true, 0)

  lemma FirstReply(n: Node)
    requires n == Fresh
    ensures HandleAppendRequest(n, AppendRequest("a", "f", 1, 1, 1, [NoOpOf1], 0)).1 == StaleReply
    ensures HandleAppendRequest(n, AppendRequest("a", "f", 1, 1, 1, [NoOpOf1], 0)).0 ==
            Acknowledge(BecomeFollower(n, 1).(log := [Base, NoOpOf1]), 1, 2)
  {
  }

  lemma LeaderOf1Of4Sends(l: Node)
    requires l == LeaderOf1(ABCF)
    ensures l.role.Leader? && l.term == 1 && "f" in l.next && l.snapIndex == 0 && l.next["f"] == 2 && |l.log| == 2
    ensures BuildAppendRequest(l, "a", "f") == AppendRequest("a", "f", 1, 1, 1, [NoOpOf1], 0)
  {
    assert l.log[1..] == [NoOpOf1];
  }

  /** `a` leads term 1 of the four. */
  lemma LeaderOfFour(o: Obeys) returns (s: State, es: seq<Event>, t: State)
    ensures Init(s) && Reaches(s, es, t, o) && SameCluster(s, t) && s.members == ABCF && s.voters == ABC
    ensures t.nodes.Keys == ABCF
    ensures t.nodes["c"] == Fresh && t.nodes["f"] == Fresh
    ensures t.nodes["b"] == GrantVote(BecomeFollower(Fresh, 1), "a")
    ensures t.nodes["a"] == LeaderOf1(ABCF)
  {
    hide Reaches, Init, GrantVote, BecomeFollower;
    s := Start(ABCF, ABC);
    StartOK(ABCF);
    var s1, e1 := FirstCandidacy(s, "a", "b", o);
    var e2;
    t, e2 := Winning(s1, "a", "b", 1, o);
    Compose(s, e1, s1, e2, t, o);
    es := e1 + e2;
    assert CandidateOf("a", "b").rounds[1 := Round(false, 1, {"b"})] == [Round(true, 0, {"b"}), Round(false, 1, {"b"})];
  }

  /** `a` leads term 1 and `f` has taken over its log; the reply is still on its way. */
  lemma ReplyUnderWay(o: Obeys) returns (s: State, es: seq<Event>, t: State)
    ensures Init(s) && Reaches(s, es, t, o) && SameCluster(s, t) && s.members == ABCF && s.voters == ABC
    ensures t.nodes.Keys == ABCF
    ensures StaleReply in t.net && t.nodes["c"] == Fresh
    ensures t.nodes["b"] == GrantVote(BecomeFollower(Fresh, 1), "a")
    ensures t.nodes["a"] == LeaderOf1(ABCF)
    ensures t.nodes["f"] == Acknowledge(BecomeFollower(Fresh, 1).(log := [Base, NoOpOf1]), 1, 2)
  {
    hide Reaches, Init, HandleAppendRequest, BuildAppendRequest, LeaderOf1;
    var s1, e1, e2;
    s, e1, s1 := LeaderOfFour(o);
    LeaderOf1Of4Sends(s1.nodes["a"]);
    FirstReply(s1.nodes["f"]);
    t, e2 := Replicating(s1, "a", "f", o);
    Compose(s, e1, s1, e2, t, o);
    es := e1 + e2;
  }

  lemma LeaderOf2Sends(l: Node)
    requires l.log == [Base, NoOpOf2] && l.role.Leader? && l.term == 2 && "f" in l.next && l.next["f"] == 2
    requires l.snapIndex == 0 && l.commitIndex == 0
    ensures BuildAppendRequest(l, "c", "f") == AppendRequest("c", "f", 2, 1, 1, [NoOpOf2], 0)
  {
    assert l.log[1..] == [NoOpOf2];
  }

  lemma EntryReplaced(n: Node)
    requires n == Acknowledge(BecomeFollower(Fresh, 1).(log := [Base, NoOpOf1]), 1, 2)
    ensures n.snapIndex <= |n.log|
    ensures HandleAppendRequest(n, AppendRequest("c", "f", 2, 1, 1, [NoOpOf2], 0)).0.log == [Base, NoOpOf2]
    ensures HandleAppendRequest(n, AppendRequest("c", "f", 2, 1, 1, [NoOpOf2], 0)).0.term == 2
  {
  }

  /** `c` is candidate of term 2. */
  lemma SecondCandidate(o: Obeys) returns (s: State, es: seq<Event>, t: State)
    ensures Init(s) && Reaches(s, es, t, o) && SameCluster(s, t) && s.members == ABCF && s.voters == ABC
    ensures t.nodes.Keys == ABCF
    ensures StaleReply in t.net && t.nodes["a"] == LeaderOf1(ABCF)
    ensures t.nodes["b"] == GrantVote(BecomeFollower(Fresh, 1), "a")
    ensures t.nodes["f"] == Acknowledge(BecomeFollower(Fresh, 1).(log := [Base, NoOpOf1]), 1, 2)
    ensures t.nodes["c"] == StartRound(BecomeCandidate(CandidateOf("c", "b"), "c"))
  {
    hide Reaches, Init, LeaderOf1, Acknowledge, GrantVote, BecomeFollower;
    var s1, s2, e1, e2, e3;
    s, e1, s1 := ReplyUnderWay(o);
    assert s1.nodes["b"].term <= 1 && UpToDate(1, 1, s1.nodes["b"].log) by {
      VoterOf1();
    }
    s2, e2 := FirstCandidacy(s1, "c", "b", o);
    Compose(s, e1, s1, e2, s2, o);
    t, e3 := Standing(s2, "c", o);
    Compose(s, e1 + e2, s2, e3, t, o);
    es := e1 + e2 + e3;
  }

  lemma VoterOf1()
    ensures var b := GrantVote(BecomeFollower(Fresh, 1), "a");
            b.term == 1 && UpToDate(1, 1, b.log) && forall c :: (2, c) !in b.cast
  {
  }

  /** `c` leads term 2 with `b`'s vote. */
  lemma SecondLeader(o: Obeys) returns (s: State, es: seq<Event>, t: State)
    ensures Init(s) && Reaches(s, es, t, o) && SameCluster(s, t) && s.members == ABCF && s.voters == ABC
    ensures t.nodes.Keys == ABCF
    ensures StaleReply in t.net && t.nodes["a"] == LeaderOf1(ABCF)
    ensures t.nodes["b"] == GrantVote(BecomeFollower(GrantVote(BecomeFollower(Fresh, 1), "a"), 2), "c")
    ensures t.nodes["f"] == Acknowledge(BecomeFollower(Fresh, 1).(log := [Base, NoOpOf1]), 1, 2)
    ensures var c := t.nodes["c"];
            && c.role.Leader? && c.term == 2 && c.log == [Base, NoOpOf2] && c.live == 0 && c.snapIndex == 0 &&
                 c.commitIndex == 0
            && "f" in c.next && c.next["f"] == 2 && |c.rounds| == 3 && c.rounds[2] == Round(false, 2, {"b"})
  {
    hide Reaches, Init, LeaderOf1, Acknowledge, BecomeLeader, GrantVote, BecomeFollower, HasQuorum, Everyone;
    VoterOf1();
    var s1, e1, e2;
    s, e1, s1 := SecondCandidate(o);
    var c := s1.nodes["c"];
    NewLeader(c.(role := Candidate, rounds := c.rounds[2 := Round(false, c.rounds[2].term, {"b"})]), ABCF);
    t, e2 := Winning(s1, "c", "b", 2, o);
    Compose(s, e1, s1, e2, t, o);
    es := e1 + e2;
  }

  /** `c` has led term 2 with `b`'s vote and has replaced the entry that `f` had acknowledged to `a`. */
  lemma EntryLost(o: Obeys) returns (s: State, es: seq<Event>, t: State)
    ensures Init(s) && Reaches(s, es, t, o) && SameCluster(s, t) && s.members == ABCF && s.voters == ABC
    ensures t.nodes.Keys == ABCF
    ensures StaleReply in t.net && t.nodes["f"].log == [Base, NoOpOf2]
    ensures t.nodes["b"] == GrantVote(BecomeFollower(GrantVote(BecomeFollower(Fresh, 1), "a"), 2), "c")
    ensures t.nodes["a"] == LeaderOf1(ABCF)
    ensures var c := t.nodes["c"];
            && c.role.Leader? && c.term == 2 && c.log == [Base, NoOpOf2] && c.live == 0
            && |c.rounds| == 3 && c.rounds[2] == Round(false, 2, {"b"})
  {
    hide Reaches, Init, HandleAppendRequest, BuildAppendRequest, LeaderOf1, Acknowledge, GrantVote, BecomeFollower;
    var s1, e1, e2;
    s, e1, s1 := SecondLeader(o);
    LeaderOf2Sends(s1.nodes["c"]);
    EntryReplaced(s1.nodes["f"]);
    t, e2 := Replicating(s1, "c", "f", o);
    Compose(s, e1, s1, e2, t, o);
    es := e1 + e2;
  }

  /** The leader of term 1 votes for the candidate of term 2. */
  lemma LeaderOf1Votes(m: Message)
    requires m.VoteRequest? && m.from == "c" && !m.prevote && m.term == 2 && m.lastIndex == 2 && m.lastTerm == 2
    ensures var (n, r) := HandleVoteRequest(LeaderOf1(ABCF), m, false);
            && r.granted && r.term == 2
            && n.role.Follower? && n.term == 2 && n.log == [Base, NoOpOf1] && n.live == 0 && |n.rounds| == 2
    ensures forall c :: (2, c) !in LeaderOf1(ABCF).cast
  {
  }

  /** `a` has voted for `c` in term 2 and is no leader any more. */
  lemma SteppedDown(o: Obeys) returns (s: State, es: seq<Event>, t: State)
    ensures Init(s) && Reaches(s, es, t, o) && SameCluster(s, t) && s.members == ABCF && s.voters == ABC
    ensures t.nodes.Keys == ABCF
    ensures StaleReply in t.net && t.nodes["f"].log == [Base, NoOpOf2]
    ensures t.nodes["b"] == GrantVote(BecomeFollower(GrantVote(BecomeFollower(Fresh, 1), "a"), 2), "c")
    ensures var a := t.nodes["a"];
            a.role.Follower? && a.term == 2 && a.log == [Base, NoOpOf1] && a.live == 0 && |a.rounds| == 2
  {
    hide Reaches, Init, HandleVoteRequest, HandleVoteResponse, BecomeLeader, Agree;
    var s1, e1, e2;
    s, e1, s1 := EntryLost(o);
    var m := BuildVoteRequest(s1.nodes["c"], "c", "a", 2);
    LeaderOf1Votes(m);
    t, e2 := Asking(s1, "c", "a", 2, o);
    Compose(s, e1, s1, e2, t, o);
    es := e1 + e2;
  }

  /** `a` is candidate of term 3. */
  lemma StandingAgain(o: Obeys) returns (s: State, es: seq<Event>, t: State)
    ensures Init(s) && Reaches(s, es, t, o) && SameCluster(s, t) && s.members == ABCF && s.voters == ABC
    ensures t.nodes.Keys == ABCF
    ensures StaleReply in t.net && t.nodes["f"].log == [Base, NoOpOf2]
    ensures var b := t.nodes["b"];
            b.term == 2 && UpToDate(2, 1, b.log) && forall c :: (3, c) !in b.cast
    ensures var a := t.nodes["a"];
            && a.role.Candidate? && a.term == 3 && a.log == [Base, NoOpOf1] && a.live == 0
            && |a.rounds| == 4 && a.rounds[3] == Round(false, 3, {})
  {
    hide Reaches, Init, Agree;
    var s1, s2, e1, e2, e3;
    s, e1, s1 := SteppedDown(o);
    s2, e2 := PreVoting(s1, "a", "b", o);
    Compose(s, e1, s1, e2, s2, o);
    t, e3 := Standing(s2, "a", o);
    Compose(s, e1 + e2, s2, e3, t, o);
    es := e1 + e2 + e3;
  }

  /** `a` leads again, in term 3, with the log it had in term 1. */
  lemma LeadingAgain(o: Obeys) returns (s: State, es: seq<Event>, t: State)
    ensures Init(s) && Reaches(s, es, t, o) && t.nodes.Keys == ABCF && StaleReply in t.net
    ensures t.nodes["f"].log == [Base, NoOpOf2]
    ensures var a := t.nodes["a"];
            && a.role.Leader? && a.term == 3 && a.log == [Base, NoOpOf1, Entry(3, NoOp, [])]
            && "f" in a.next && "f" in a.matched && a.matched["f"] == 0
  {
    hide Reaches, Init, BecomeLeader, GrantVote, Agree;
    var s1, e1, e2;
    s, e1, s1 := StandingAgain(o);
    var a := s1.nodes["a"];
    NewLeader(a.(role := Candidate, rounds := a.rounds[3 := Round(false, a.rounds[3].term, {"b"})]), ABCF);
    t, e2 := Winning(s1, "a", "b", 3, o);
    Compose(s, e1, s1, e2, t, o);
    es := e1 + e2;
  }

  /** Without A3: a reply to a request of term 1 reaches its sender after it became leader again. It then counts an
      entry as stored on a follower whose log holds another one there. */
  lemma StaleReplyBreaksMatchIndex() returns (s: State, es: seq<Event>, t: State)
    ensures Init(s) && Reaches(s, es, t, Obeys(true, false, true))
    ensures "a" in t.nodes && "f" in t.nodes && t.nodes["a"].role.Leader? && "f" in t.nodes["a"].matched
    ensures t.nodes["a"].matched["f"] == 2 && !Agree(t.nodes["f"].log, t.nodes["a"].log, 2)
  {
    var o := Obeys(true, false, true);
    var s1, e1;
    s, e1, s1 := LeadingAgain(o);
    var e := OnAppendResponse(StaleReply);
    assert Allowed(s1, e, o);
    OneStep(s1, e, o);
    t := Next(s1, e);
    Compose(s, e1, s1, [e], t, o);
    es := e1 + [e];
    assert t.nodes["f"].log[1] != t.nodes["a"].log[1];
  }
}
