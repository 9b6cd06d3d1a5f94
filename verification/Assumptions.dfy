/** What the assumptions on runs are needed for: for each one a run of the protocol that breaks only it, and that
    reaches a state which the safety theorems exclude. */
module Assumptions {
  import opened Entries
  import opened Protocol
  import opened Cluster

  /** Which of the assumptions a run obeys. */
  datatype Obeys = Obeys(keepsVote: bool, repliesAreCurrent: bool, asksInTime: bool)

  ghost predicate Allowed(s: State, e: Event, o: Obeys) {
    && Enabled(s, e)
    && (o.keepsVote ==> KeepsVote(s, e))
    && (o.repliesAreCurrent ==> RepliesAreCurrent(s, e))
    && (o.asksInTime ==> AsksInTime(s, e))
  }

  ghost predicate Reaches(s: State, es: seq<Event>, t: State, o: Obeys)
    decreases |es|
  {
    if es == [] then s == t else Allowed(s, es[0], o) && Reaches(Next(s, es[0]), es[1..], t, o)
  }

  /** Under all assumptions these are the runs of the safety theorems. */
  lemma {:induction false} ReachesIsRun(s: State, es: seq<Event>, t: State, states: seq<State>, events: seq<Event>)
    returns (states': seq<State>)
    requires Run(states, events) && states[|states| - 1] == s && Reaches(s, es, t, Obeys(true, true, true))
    ensures Run(states', events + es) && states'[|states'| - 1] == t
    decreases |es|
  {
    hide Next, Enabled, KeepsVote, RepliesAreCurrent, AsksInTime, Init;
    if es == [] {
      assert events + es == events;
      states' := states;
    } else {
      var u := Next(s, es[0]);
      assert Step(s, es[0], u);
      var more, moreEvents := states + [u], events + [es[0]];
      assert Run(more, moreEvents) by {
        forall k | 0 <= k < |moreEvents| ensures Step(more[k], moreEvents[k], more[k + 1]) {
          if k < |events| {
            assert Step(states[k], events[k], states[k + 1]);
          }
        }
      }
      states' := ReachesIsRun(u, es[1..], t, more, moreEvents);
      assert moreEvents + es[1..] == events + es;
    }
  }

  lemma {:induction false} Compose(s: State, es: seq<Event>, t: State, fs: seq<Event>, u: State, o: Obeys)
    requires Reaches(s, es, t, o) && Reaches(t, fs, u, o)
    ensures Reaches(s, es + fs, u, o)
    decreases |es|
  {
    hide Next, Enabled, KeepsVote, RepliesAreCurrent, AsksInTime;
    if es == [] {
      assert es + fs == fs;
    } else {
      Compose(Next(s, es[0]), es[1..], t, fs, u, o);
      assert (es + fs)[1..] == es[1..] + fs;
    }
  }

  lemma OneStep(s: State, e: Event, o: Obeys)
    requires Allowed(s, e, o)
    ensures Reaches(s, [e], Next(s, e), o)
  {
    assert Reaches(Next(s, e), [e][1..], Next(s, e), o);
  }

  /** What the constructions below need to know about the rest of the cluster. */
  ghost predicate SameCluster(s: State, t: State) {
    t.members == s.members && t.voters == s.voters && s.net <= t.net && t.nodes.Keys == s.nodes.Keys
  }

  ghost predicate TwoIsQuorum(s: State, id: Id, v: Id) {
    && id in s.nodes && v in s.nodes && id in s.voters && v in s.voters && id != v && |s.voters| == 3
  }

  lemma TickStep(s: State, id: Id, o: Obeys) returns (t: State, es: seq<Event>)
    requires id in s.nodes
    ensures Reaches(s, es, t, o) && SameCluster(s, t) && t.nodes == s.nodes[id := Election(s.nodes[id], id, s.voters)]
  {
    es := [Tick(id)];
    t := Next(s, Tick(id));
    OneStep(s, Tick(id), o);
    assert t.nodes.Keys == s.nodes.Keys;
  }

  lemma AskStep(s: State, id: Id, v: Id, round: nat, o: Obeys) returns (t: State, es: seq<Event>)
    requires TwoIsQuorum(s, id, v) && s.nodes[id].live <= round < |s.nodes[id].rounds|
    requires o.asksInTime && !s.nodes[id].rounds[round].prevote ==> s.nodes[id].rounds[round].term == s.nodes[id].term
    ensures Reaches(s, es, t, o) && SameCluster(s, t)
    ensures t.nodes == s.nodes && BuildVoteRequest(s.nodes[id], id, v, round) in t.net
  {
    hide BuildVoteRequest, Reaches;
    var e := AskVote(id, round, v);
    es, t := [e], Next(s, e);
    assert Allowed(s, e, o);
    OneStep(s, e, o);
    assert t.nodes == s.nodes;
  }

  lemma VoteStep(s: State, m: Message, o: Obeys) returns (t: State, es: seq<Event>)
    requires m.VoteRequest? && m in s.net && m.to in s.nodes
    requires HandleVoteRequest(s.nodes[m.to], m, false).1.granted
    requires o.keepsVote && !m.prevote ==> forall c :: (m.term, c) in s.nodes[m.to].cast ==> c == m.from
    ensures Reaches(s, es, t, o) && SameCluster(s, t)
    ensures var (n, r) := HandleVoteRequest(s.nodes[m.to], m, false); t.nodes == s.nodes[m.to := n] && r in t.net
  {
    hide HandleVoteRequest, Reaches;
    var e := OnVoteRequest(m, false);
    es, t := [e], Next(s, e);
    assert Allowed(s, e, o);
    OneStep(s, e, o);
    assert t.nodes.Keys == s.nodes.Keys;
  }

  lemma CountStep(s: State, r: Message, o: Obeys) returns (t: State, es: seq<Event>)
    requires r.VoteResponse? && r in s.net && r.to in s.nodes && s.nodes[r.to].live <= r.round < |s.nodes[r.to].rounds|
    ensures Reaches(s, es, t, o) && SameCluster(s, t)
    ensures t.nodes == s.nodes[r.to := HandleVoteResponse(s.nodes[r.to], s.members, s.voters, r)]
  {
    hide HandleVoteResponse, Reaches;
    var e := OnVoteResponse(r);
    es, t := [e], Next(s, e);
    assert Allowed(s, e, o);
    OneStep(s, e, o);
    assert t.nodes.Keys == s.nodes.Keys;
  }

  lemma VoteExchange(n: Node, w: Node, id: Id, v: Id, round: nat)
    requires round < |n.rounds|
    ensures var m := BuildVoteRequest(n, id, v, round);
            && m.VoteRequest? && m.from == id && m.to == v && m.prevote == n.rounds[round].prevote
            && var r := HandleVoteRequest(w, m, false).1; r.VoteResponse? && r.to == id && r.round == round
  {
  }

  /** `id` asks `v` in round `round`, `v` grants, and `id` counts the vote. */
  lemma Asking(s: State, id: Id, v: Id, round: nat, o: Obeys) returns (t: State, es: seq<Event>)
    requires TwoIsQuorum(s, id, v) && s.nodes[id].live <= round < |s.nodes[id].rounds|
    requires var m := BuildVoteRequest(s.nodes[id], id, v, round);
             var (n, r) := HandleVoteRequest(s.nodes[v], m, false);
             && r.granted
             && (o.asksInTime && !m.prevote ==> s.nodes[id].rounds[round].term == s.nodes[id].term)
             && (o.keepsVote && !m.prevote ==> forall c :: (m.term, c) in s.nodes[v].cast ==> c == id)
    ensures Reaches(s, es, t, o) && SameCluster(s, t)
    ensures var m := BuildVoteRequest(s.nodes[id], id, v, round);
            var (n, r) := HandleVoteRequest(s.nodes[v], m, false);
            t.nodes == s.nodes[v := n][id := HandleVoteResponse(s.nodes[id], s.members, s.voters, r)]
  {
    hide BuildVoteRequest, HandleVoteRequest, HandleVoteResponse, Reaches;
    VoteExchange(s.nodes[id], s.nodes[v], id, v, round);
    var m := BuildVoteRequest(s.nodes[id], id, v, round);
    var r := HandleVoteRequest(s.nodes[v], m, false).1;
    var s1, s2, e1, e2, e3;
    s1, e1 := AskStep(s, id, v, round, o);
    s2, e2 := VoteStep(s1, m, o);
    Compose(s, e1, s1, e2, s2, o);
    t, e3 := CountStep(s2, r, o);
    Compose(s, e1 + e2, s2, e3, t, o);
    es := e1 + e2 + e3;
  }

  /** `l` sends its log to `f`, which handles the request; the reply is on its way. */
  lemma Replicating(s: State, l: Id, f: Id, o: Obeys) returns (t: State, es: seq<Event>)
    requires Enabled(s, SendAppend(l, f)) && f in s.nodes && s.nodes[f].snapIndex <= |s.nodes[f].log|
    ensures Reaches(s, es, t, o) && SameCluster(s, t)
    ensures var (n, r) := HandleAppendRequest(s.nodes[f], BuildAppendRequest(s.nodes[l], l, f));
            t.nodes == s.nodes[f := n] && r in t.net
  {
    var m := BuildAppendRequest(s.nodes[l], l, f);
    var e1, e2 := SendAppend(l, f), OnAppendRequest(m);
    var s1 := Next(s, e1);
    assert Allowed(s, e1, o);
    OneStep(s, e1, o);
    assert s1.nodes == s.nodes && m in s1.net;
    assert Allowed(s1, e2, o);
    OneStep(s1, e2, o);
    t := Next(s1, e2);
    Compose(s, [e1], s1, [e2], t, o);
    es := [e1] + [e2];
    assert t.nodes.Keys == s.nodes.Keys;
  }
}
