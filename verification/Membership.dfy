/** Configurations, how they change, and what their quorums have in common. */
module Membership {
  import opened Entries
  import opened Protocol
  import opened Quorums

  datatype Configuration = Config(members: map<Id, string>, isVoter: map<Id, bool>, index: nat)

  /** What a leader keeps for each member. */
  datatype Peer = Peer(nextIndex: nat, matchIndex: nat)

  datatype Change = NotLeader | NoCommitThisTerm | StillPending | NothingToDo | Submitted(configuration: Configuration)

  ghost predicate WellKeyed(c: Configuration) {
    c.isVoter.Keys == c.members.Keys
  }

  predicate IsVoter(c: Configuration, id: Id) {
    id in c.isVoter && c.isVoter[id]
  }

  ghost function Voters(c: Configuration): set<Id> {
    set id | id in c.isVoter && IsVoter(c, id)
  }

  method NewConfiguration(index: nat, members: map<Id, string>) returns (c: Configuration)
    ensures WellKeyed(c) && c.members == members && c.index == index && Voters(c) == members.Keys
  {
    var isVoter: map<Id, bool> := map[];
    var left := members.Keys;
    while left != {}
      invariant left <= members.Keys && isVoter.Keys == members.Keys - left
      invariant forall id :: id in isVoter ==> isVoter[id]
      decreases |left|
    {
      var id :| id in left;
      isVoter := isVoter[id := true];
      left := left - {id};
    }
    c := Config(members, isVoter, index);
  }

  lemma SameWhenWellKeyed(c: Configuration, d: Configuration)
    requires d.members.Keys == d.isVoter.Keys == c.members.Keys && d.index == c.index
    requires forall id :: id in c.members ==> d.members[id] == c.members[id] && d.isVoter[id] == IsVoter(c, id)
    ensures d.members == c.members && (d == c <==> WellKeyed(c))
  {
    if WellKeyed(c) {
      assert d.isVoter == c.isVoter;
    }
  }

  /** A copy has the keys of the members in both maps, and is the configuration itself exactly when it was well keyed.
      */
  method Clone(c: Configuration) returns (d: Configuration)
    ensures WellKeyed(d) && d.members == c.members && d.index == c.index
    ensures forall id :: id in c.members ==> (IsVoter(d, id) <==> IsVoter(c, id))
    ensures d == c <==> WellKeyed(c)
  {
    var members: map<Id, string>, isVoter: map<Id, bool> := map[], map[];
    var left := c.members.Keys;
    while left != {}
      invariant left <= c.members.Keys && members.Keys == isVoter.Keys == c.members.Keys - left
      invariant forall id :: id in members ==> members[id] == c.members[id] && isVoter[id] == IsVoter(c, id)
      decreases |left|
    {
      var id :| id in left;
      members := members[id := c.members[id]];
      isVoter := isVoter[id := IsVoter(c, id)];
      left := left - {id};
    }
    d := Config(members, isVoter, c.index);
    SameWhenWellKeyed(c, d);
  }

  method HasQuorum(c: Configuration, count: nat) returns (b: bool)
    ensures b == Protocol.HasQuorum(Voters(c), count)
  {
    var voters := 0;
    var left := c.isVoter.Keys;
    ghost var counted := {};
    while left != {}
      invariant left <= c.isVoter.Keys && voters == |counted|
      invariant counted == set id | id in c.isVoter && id !in left && IsVoter(c, id)
      decreases |left|
    {
      var id :| id in left;
      left := left - {id};
      if c.isVoter[id] {
        counted := counted + {id};
        voters := voters + 1;
      }
    }
    assert counted == Voters(c);
    b := count > voters / 2;
  }

  /** `c` is the configuration in entry `j`, and no entry from there up to `n` has another. */
  ghost predicate IsLast(entries: seq<Option<Configuration>>, j: nat, n: nat, c: Option<Configuration>) {
    j < n <= |entries| && entries[j].Some? && c == entries[j] && forall k :: j < k < n ==> entries[k].None?
  }

  /** `c` is the last configuration in the first `n` entries, or the one that was there before if they have none. */
  ghost predicate Latest(before: Option<Configuration>, entries: seq<Option<Configuration>>, n: nat,
                         c: Option<Configuration>)
    requires n <= |entries|
  {
    (exists j :: IsLast(entries, j, n, c)) || (c == before && forall k :: 0 <= k < n ==> entries[k].None?)
  }

  /** `c` and `committed` are the last two configurations of the first `n` entries, with the one that was there before
      in the place of each that is missing. */
  ghost predicate LatestTwo(before: Option<Configuration>, entries: seq<Option<Configuration>>, n: nat,
                            c: Option<Configuration>, committed: Option<Configuration>)
    requires n <= |entries|
  {
    || (c == committed == before && forall k :: 0 <= k < n ==> entries[k].None?)
    || (exists j :: IsLast(entries, j, n, c) && Latest(before, entries, j, committed))
  }

  /** Recovers the configuration from the snapshot, if there is one, and then from the entries of the log behind it: the
      last configuration is used, and the one before it counts as committed. */
  method RestoreConfiguration(snapshot: Option<Configuration>, entries: seq<Option<Configuration>>)
    returns (configuration: Option<Configuration>, committed: Option<Configuration>)
    requires snapshot.Some? ==> WellKeyed(snapshot.value)
    requires forall k :: 0 <= k < |entries| && entries[k].Some? ==> WellKeyed(entries[k].value)
    ensures LatestTwo(snapshot, entries, |entries|, configuration, committed)
  {
    configuration, committed := snapshot, snapshot;
    for i := 0 to |entries|
      invariant LatestTwo(snapshot, entries, i, configuration, committed)
      invariant configuration.Some? ==> WellKeyed(configuration.value)
    {
      ghost var c, d := configuration, committed;
      NextEntry(snapshot, entries, i, c, d);
      if entries[i].None? {
        continue;
      }
      if configuration.Some? {
        var copy := Clone(configuration.value);
        committed := Some(copy);
      }
      configuration := entries[i];
    }
  }

  lemma NextEntry(before: Option<Configuration>, entries: seq<Option<Configuration>>, i: nat,
                  c: Option<Configuration>, committed: Option<Configuration>)
    requires i < |entries| && LatestTwo(before, entries, i, c, committed)
    ensures entries[i].None? ==> LatestTwo(before, entries, i + 1, c, committed)
    ensures entries[i].Some? ==>
              LatestTwo(before, entries, i + 1, entries[i], if c.Some? then c else committed)
  {
    if exists j :: IsLast(entries, j, i, c) && Latest(before, entries, j, committed) {
      var j :| IsLast(entries, j, i, c) && Latest(before, entries, j, committed);
      assert entries[i].None? ==> IsLast(entries, j, i + 1, c);
      assert Latest(before, entries, i, c);
    }
    assert entries[i].Some? ==> IsLast(entries, i, i + 1, entries[i]);
  }

  /** Of whoever is still there, the same is known as before; whoever is new starts from nothing. */
  ghost predicate Carried(before: map<Id, Peer>, after: map<Id, Peer>) {
    forall f :: f in after ==> after[f] == if f in before then before[f] else Peer(0, 0)
  }

  /** The part of a node that membership changes work on. */
  class Server {
    const id: Id
    var leader: bool
    var configuration: Configuration
    var committed: Option<Configuration>
    var followers: map<Id, Peer>

    ghost predicate Valid()
      reads this
    {
      && WellKeyed(configuration) && (committed.Some? ==> WellKeyed(committed.value))
      && followers.Keys == configuration.members.Keys
    }

    /** Starting a node: an entry for every member of its configuration. */
    constructor (id: Id, configuration: Configuration, committed: Option<Configuration>)
      requires WellKeyed(configuration) && (committed.Some? ==> WellKeyed(committed.value))
      ensures Valid() && this.id == id && !leader && this.configuration == configuration && this.committed == committed
      ensures forall f :: f in followers ==> followers[f] == Peer(0, 0)
    {
      this.id, this.configuration, this.committed, leader, followers := id, configuration, committed, false, map[];
      new;
      var left := configuration.members.Keys;
      while left != {}
        invariant left <= configuration.members.Keys && followers.Keys == configuration.members.Keys - left
        invariant forall f :: f in followers ==> followers[f] == Peer(0, 0)
        invariant this.configuration == configuration && this.committed == committed && !leader
        decreases |left|
      {
        var f :| f in left;
        followers := followers[f := Peer(0, 0)];
        left := left - {f};
      }
    }

    /** The entries from `index` on were cut off the log: a configuration that was among them gives way to the committed
        one. */
    method FallBack(index: nat)
      requires Valid() && (index <= configuration.index ==> committed.Some?)
      modifies this
      ensures Valid() && committed == old(committed)
      ensures old(configuration.index) < index ==>
                configuration == old(configuration) && followers == old(followers) && leader == old(leader)
      ensures index <= old(configuration.index) ==>
                && Some(configuration) == committed && (leader <==> old(leader) && id in configuration.members)
                && Carried(old(followers), followers)
    {
      if index <= configuration.index {
        NextConfiguration(committed.value);
      }
    }

    predicate Pending()
      reads this
    {
      committed.None? || committed.value.index != configuration.index
    }

    /** Adds a node, or changes whether it votes. The new configuration is active at once, and the next change has to
        wait until it is committed. */
    method AddServer(server: Id, address: string, isVoter: bool, committedThisTerm: bool, nextLogIndex: nat)
      returns (r: Change)
      requires Valid()
      modifies this
      ensures Valid() && committed == old(committed) && leader == old(leader)
      ensures r.Submitted? <==> old(leader && committedThisTerm && !Pending() &&
                !(server in configuration.members && IsVoter(configuration, server) == isVoter))
      ensures r.Submitted? ==>
                configuration == r.configuration && server in followers && followers[server] == Peer(1, 0)
      ensures r.Submitted? && nextLogIndex != old(configuration.index) ==> Pending()
      ensures r.Submitted? ==> var base := old(configuration);
                r.configuration == Config(base.members[server := address], base.isVoter[server := isVoter],
                  nextLogIndex)
      ensures forall f :: f in old(followers) && (f != server || !r.Submitted?) ==>
                f in followers && followers[f] == old(followers[f])
      ensures !r.Submitted? ==> configuration == old(configuration)
      ensures r.NotLeader? <==> !leader
      ensures r.NoCommitThisTerm? <==> leader && !committedThisTerm
      ensures r.StillPending? <==> leader && committedThisTerm && old(Pending())
    {
      if !leader {
        return NotLeader;
      }
      if !committedThisTerm {
        return NoCommitThisTerm;
      }
      if Pending() {
        return StillPending;
      }
      if server in configuration.members && IsVoter(configuration, server) == isVoter {
        return NothingToDo;
      }
      var next := Clone(configuration);
      next := Config(next.members[server := address], next.isVoter[server := isVoter], nextLogIndex);
      configuration := next;
      followers := followers[server := Peer(1, 0)];
      r := Submitted(next);
    }

    /** Removes a node. The new configuration is only appended to the log: it is not active, nothing on this node
        changes, and the node does not count the change as pending. */
    method RemoveServer(server: Id, committedThisTerm: bool, nextLogIndex: nat) returns (r: Change)
      requires Valid()
      ensures r.Submitted? <==> leader && committedThisTerm && !Pending() && server in configuration.members
      ensures r.Submitted? ==>
                r.configuration == Config(configuration.members - {server}, configuration.isVoter - {server},
                  nextLogIndex)
      ensures r.Submitted? ==> WellKeyed(r.configuration) && !Pending()
      ensures r.NotLeader? <==> !leader
      ensures r.NoCommitThisTerm? <==> leader && !committedThisTerm
      ensures r.StillPending? <==> leader && committedThisTerm && Pending()
    {
      if !leader {
        return NotLeader;
      }
      if !committedThisTerm {
        return NoCommitThisTerm;
      }
      if Pending() {
        return StillPending;
      }
      if server !in configuration.members {
        return NothingToDo;
      }
      var next := Clone(configuration);
      r := Submitted(Config(next.members - {server}, next.isVoter - {server}, nextLogIndex));
    }

    /** Moves to another configuration: members that stay keep what is known of them, the others go, and new ones start
        from nothing. */
    method NextConfiguration(next: Configuration)
      requires Valid() && WellKeyed(next)
      modifies this
      ensures Valid() && configuration == next && committed == old(committed)
      ensures leader <==> old(leader) && id in next.members
      ensures Carried(old(followers), followers)
    {
      if id !in next.members && leader {
        leader := false;
      }
      DropRemoved(next);
      CreateAdded(next);
      configuration := next;
    }

    method DropRemoved(next: Configuration)
      requires followers.Keys == configuration.members.Keys
      modifies this`followers
      ensures followers.Keys == configuration.members.Keys * next.members.Keys
      ensures forall f :: f in followers ==> followers[f] == old(followers)[f]
    {
      var left := configuration.members.Keys;
      while left != {}
        invariant left <= configuration.members.Keys
        invariant forall f :: f in followers <==> f in configuration.members && (f in left || f in next.members)
        invariant forall f :: f in followers ==> f in old(followers) && followers[f] == old(followers)[f]
        decreases |left|
      {
        var f :| f in left;
        if f !in next.members {
          followers := followers - {f};
        }
        left := left - {f};
      }
    }

    method CreateAdded(next: Configuration)
      requires followers.Keys == configuration.members.Keys * next.members.Keys
      modifies this`followers
      ensures followers.Keys == next.members.Keys && Carried(old(followers), followers)
    {
      var added := next.members.Keys;
      while added != {}
        invariant added <= next.members.Keys
        invariant forall f :: f in followers <==> f in next.members && (f in configuration.members || f !in added)
        invariant Carried(old(followers), followers)
        decreases |added|
      {
        var f :| f in added;
        if f !in configuration.members {
          followers := followers[f := Peer(0, 0)];
        }
        added := added - {f};
      }
    }

    /** Applies a committed configuration, unless a later one was committed already. */
    method ApplyConfiguration(next: Configuration)
      requires Valid() && WellKeyed(next)
      modifies this
      ensures Valid()
      ensures old(committed.Some? && next.index <= committed.value.index) ==>
                configuration == old(configuration) && committed == old(committed) && followers == old(followers) &&
                  leader == old(leader)
      ensures !old(committed.Some? && next.index <= committed.value.index) ==>
                && configuration == next && committed == Some(next) && !Pending()
                && (leader <==> old(leader) && id in next.members) && Carried(old(followers), followers)
    {
      if committed.Some? && next.index <= committed.value.index {
        return;
      }
      NextConfiguration(next);
      committed := Some(next);
    }
  }

  // --- quorums ---

  /** The configurations differ in at most one node. */
  ghost predicate Adjacent(c: Configuration, d: Configuration, server: Id) {
    forall id :: id != server ==> (IsVoter(c, id) <==> IsVoter(d, id))
  }

  /** What the two operations submit is adjacent to what they start from. */
  lemma ChangesAreAdjacent(c: Configuration, server: Id, address: string, isVoter: bool, index: nat)
    ensures Adjacent(c, Config(c.members[server := address], c.isVoter[server := isVoter], index), server)
    ensures Adjacent(c, Config(c.members - {server}, c.isVoter - {server}, index), server)
  {
  }

  lemma DisjointBound(a: set<Id>, b: set<Id>, all: set<Id>)
    requires a <= all && b <= all && a !! b
    ensures |a| + |b| <= |all|
  {
    assert |a + b| == |a| + |b|;
    SubsetCardinality(a + b, all);
  }

  /** Any quorum of one configuration shares a node with any quorum of an adjacent one: adding, removing, promoting and
      demoting a node all keep this. */
  lemma AdjacentQuorumsIntersect(c: Configuration, d: Configuration, server: Id, p: set<Id>, q: set<Id>)
    requires Adjacent(c, d, server) && Majority(Voters(c), p) && Majority(Voters(d), q)
    ensures p * q != {}
  {
    var all := Voters(c) + Voters(d);
    if IsVoter(c, server) {
      assert all == Voters(c);
      assert Voters(c) <= Voters(d) + {server};
      SubsetCardinality(Voters(c), Voters(d) + {server});
    } else {
      assert all == Voters(d);
      assert Voters(d) <= Voters(c) + {server};
      SubsetCardinality(Voters(d), Voters(c) + {server});
    }
    SubsetCardinality(Voters(c), all);
    SubsetCardinality(Voters(d), all);
    if p * q == {} {
      DisjointBound(p, q, all);
      assert false;
    }
  }

  // --- where the guards end ---

  /** The voters that, with the leader itself counted in, let the leader's commit scan pass. */
  ghost predicate CommitQuorum(voters: set<Id>, leader: Id, q: set<Id>) {
    q <= voters - {leader} && Protocol.HasQuorum(voters, 1 + |q|)
  }

  /** The voters that, with the candidate itself counted in, elect it; only voters stand for election. */
  ghost predicate VoteQuorum(voters: set<Id>, candidate: Id, q: set<Id>) {
    candidate in voters && q <= voters - {candidate} && Protocol.HasQuorum(voters, 1 + |q|)
  }

  ghost predicate CommitsMeetElections(voters: set<Id>, leader: Id) {
    forall p, candidate, q :: CommitQuorum(voters, leader, p) && VoteQuorum(voters, candidate, q) ==>
      (p + {leader}) * (q + {candidate}) * voters != {}
  }

  lemma CommitMeetsElection(voters: set<Id>, leader: Id, p: set<Id>, candidate: Id, q: set<Id>)
    requires leader in voters || |voters| % 2 == 0
    requires CommitQuorum(voters, leader, p) && VoteQuorum(voters, candidate, q)
    ensures (p + {leader}) * (q + {candidate}) * voters != {}
  {
    var commit := if leader in voters then p + {leader} else p;
    var vote := q + {candidate};
    if (p + {leader}) * vote * voters == {} {
      assert commit * vote <= (p + {leader}) * vote * voters;
      DisjointBound(commit, vote, voters);
      assert false;
    }
  }

  lemma {:induction false} SubsetOfSize(all: set<Id>, n: nat) returns (part: set<Id>)
    requires n <= |all|
    ensures part <= all && |part| == n
    decreases n
  {
    if n == 0 {
      part := {};
    } else {
      var id :| id in all;
      var rest := SubsetOfSize(all - {id}, n - 1);
      part := rest + {id};
    }
  }

  /** The commit scan counts the leader even when it is no voter, which a leader becomes by demoting itself. Each of its
      quorums still meets every quorum that can elect another node if and only if the leader is a voter or the number of
      voters is even. */
  lemma LeaderCountsItself(voters: set<Id>, leader: Id)
    requires voters != {}
    ensures CommitsMeetElections(voters, leader) <==> leader in voters || |voters| % 2 == 0
  {
    if leader in voters || |voters| % 2 == 0 {
      forall p, candidate, q | CommitQuorum(voters, leader, p) && VoteQuorum(voters, candidate, q)
        ensures (p + {leader}) * (q + {candidate}) * voters != {}
      {
        CommitMeetsElection(voters, leader, p, candidate, q);
      }
    } else {
      var k := |voters| / 2;
      var p := SubsetOfSize(voters, k);
      assert |voters - p| == k + 1;
      var candidate :| candidate in voters - p;
      var q := voters - p - {candidate};
      assert CommitQuorum(voters, leader, p) && VoteQuorum(voters, candidate, q);
      assert (p + {leader}) * (q + {candidate}) * voters == {};
    }
  }

  ghost predicate AlwaysMeet(v: set<Id>, w: set<Id>) {
    forall p, q :: Majority(v, p) && Majority(w, q) ==> p * q != {}
  }

  /** Two removals may be under way at once, since a removal does not count as pending. All quorums of the two resulting
      configurations meet if and only if the number of voters before was odd. */
  lemma TwoRemovals(voters: set<Id>, a: Id, b: Id)
    requires a in voters && b in voters && a != b
    ensures AlwaysMeet(voters - {a}, voters - {b}) <==> |voters| % 2 == 1
  {
    var v, w := voters - {a}, voters - {b};
    if |voters| % 2 == 1 {
      forall p, q | Majority(v, p) && Majority(w, q) ensures p * q != {} {
        if p * q == {} {
          DisjointBound(p, q, voters);
          assert false;
        }
      }
    } else {
      var k := |voters| / 2;
      var rest := SubsetOfSize(voters - {a, b}, k - 1);
      var p := rest + {b};
      var q := voters - p;
      assert Majority(v, p) && Majority(w, q) && p * q == {};
    }
  }
}
