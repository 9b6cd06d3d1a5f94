/** Log repair: probing a follower backwards ends, within a bound given by the terms in the follower's log. */
module Repair {
  import opened Entries
  import opened Protocol

  /** The leader and the follower share the follower's snapshot point, their logs match, and the leader has not
      compacted past that point. */
  ghost predicate Repairable(l: Log, f: Log, snap: nat) {
    snap <= |f| && snap <= |l| && TermAt(f, snap) == TermAt(l, snap) && Matching(f, l) && Sorted(f)
  }

  lemma RunBeforeStops(f: Log, snap: nat, t: nat, index: nat)
    requires snap <= index <= |f|
    ensures var j := RunBefore(f, snap, t, index);
            && snap <= j <= index && (j > snap ==> f[j - 1].term != t)
            && (forall k :: j <= k < index ==> f[k].term == t)
  {
  }

  /** The answer to a probe is exact: it is accepted if and only if the follower has an entry of that term at that
      index; otherwise the hint is one past what the follower lacks, and after a conflict the first index of the
      conflicting term that is left. */
  lemma HintIsExact(l: Log, snap: nat, prev: nat, prevTerm: nat)
    requires snap <= |l|
    ensures var c := Check(l, snap, prev, prevTerm);
            && (c.None? <==> snap <= prev <= |l| && TermAt(l, prev) == prevTerm)
            && (prev < snap ==> c == Some(snap + 1))
            && (prev > |l| ==> c == Some(|l| + 1))
            && (prev == snap && c.Some? ==> c.value == snap)
            && (snap < prev <= |l| && c.Some? ==>
                  && snap < c.value <= prev
                  && (forall k :: c.value <= k + 1 <= prev ==> l[k].term == l[prev - 1].term)
                  && (c.value == snap + 1 || l[c.value - 2].term != l[prev - 1].term))
  {
    if snap < prev <= |l| {
      RunBeforeStops(l, snap, TermAt(l, prev), prev - 1);
    }
  }

  /** The answer to a probe at `next`, for a leader with log `l`. */
  function Probe(l: Log, f: Log, snap: nat, next: nat): Option<nat>
    requires snap <= |f| && 1 <= next <= |l| + 1
  {
    Check(f, snap, next - 1, TermAt(l, next - 1))
  }

  lemma HintIsUsable(l: Log, f: Log, snap: nat, next: nat)
    requires Repairable(l, f, snap) && 1 <= next <= |l| + 1 && Probe(l, f, snap, next).Some?
    ensures var hint := Probe(l, f, snap, next).value;
            && snap + 1 <= hint <= |l| + 1 && hint <= |f| + 1
            && (next > snap ==> hint < next)
  {
    if snap < next - 1 <= |f| {
      RunBeforeStops(f, snap, TermAt(f, next - 1), next - 2);
    }
  }

  /** How often a leader that starts at `next` and follows every hint is rejected. */
  function Rejections(l: Log, f: Log, snap: nat, next: nat): nat
    requires Repairable(l, f, snap) && 1 <= next <= |l| + 1
    decreases if next <= snap then |l| + 2 else next
  {
    match Probe(l, f, snap, next)
    case None => 0
    case Some(hint) =>
      HintIsUsable(l, f, snap, next);
      1 + Rejections(l, f, snap, hint)
  }

  /** Where it ends. */
  function Landing(l: Log, f: Log, snap: nat, next: nat): nat
    requires Repairable(l, f, snap) && 1 <= next <= |l| + 1
    decreases if next <= snap then |l| + 2 else next
  {
    match Probe(l, f, snap, next)
    case None => next
    case Some(hint) =>
      HintIsUsable(l, f, snap, next);
      Landing(l, f, snap, hint)
  }

  /** The terms in the part of the log above `snap`, up to index `upTo`. */
  function TermsIn(f: Log, snap: nat, upTo: nat): set<nat>
    requires upTo <= |f|
  {
    set k | snap <= k < upTo :: f[k].term
  }

  /** Every conflict rejection skips all of one term. */
  lemma ConflictDropsTerm(f: Log, snap: nat, prev: nat)
    requires snap < prev <= |f| && Sorted(f)
    ensures var j := RunBefore(f, snap, TermAt(f, prev), prev - 1);
            snap <= j < prev && |TermsIn(f, snap, j)| + 1 <= |TermsIn(f, snap, prev)|
  {
    var t := TermAt(f, prev);
    var j := RunBefore(f, snap, t, prev - 1);
    RunBeforeStops(f, snap, t, prev - 1);
    var a, b := TermsIn(f, snap, j), TermsIn(f, snap, prev);
    assert f[prev - 1].term in b;
    assert forall k :: snap <= k < j ==> f[k].term <= f[j - 1].term <= f[prev - 1].term;
    OneTermMore(a, t, b);
  }

  lemma OneTermMore(a: set<nat>, t: nat, b: set<nat>)
    requires a <= b && t in b && t !in a
    ensures |a| + 1 <= |b|
  {
    assert |a + {t}| == |a| + 1;
    assert b == (a + {t}) + (b - (a + {t}));
  }

  lemma {:induction false} RejectionsInside(l: Log, f: Log, snap: nat, next: nat)
    requires Repairable(l, f, snap) && snap < next <= |l| + 1 && next <= |f| + 1
    ensures Rejections(l, f, snap, next) <= |TermsIn(f, snap, next - 1)|
    decreases next
  {
    if Probe(l, f, snap, next).Some? {
      HintIsUsable(l, f, snap, next);
      ConflictDropsTerm(f, snap, next - 1);
      RejectionsInside(l, f, snap, Probe(l, f, snap, next).value);
    }
  }

  lemma MoreTerms(f: Log, snap: nat, a: nat)
    requires a <= |f|
    ensures |TermsIn(f, snap, a)| <= |TermsIn(f, snap, |f|)|
  {
    var x, y := TermsIn(f, snap, a), TermsIn(f, snap, |f|);
    assert y == x + (y - x);
  }

  /** Log repair ends after at most one rejection more than there are terms in the follower's uncompacted log. */
  lemma RepairIsBounded(l: Log, f: Log, snap: nat, next: nat)
    requires Repairable(l, f, snap) && 1 <= next <= |l| + 1
    ensures Rejections(l, f, snap, next) <= 1 + |TermsIn(f, snap, |f|)|
  {
    if next > snap && next <= |f| + 1 {
      RejectionsInside(l, f, snap, next);
      MoreTerms(f, snap, next - 1);
    } else if Probe(l, f, snap, next).Some? {
      HintIsUsable(l, f, snap, next);
      var hint := Probe(l, f, snap, next).value;
      RejectionsInside(l, f, snap, hint);
      MoreTerms(f, snap, hint - 1);
    }
  }

  lemma AcceptedProbeRepairs(l: Log, f: Log, snap: nat, next: nat)
    requires Repairable(l, f, snap) && 1 <= next <= |l| + 1 && Probe(l, f, snap, next) == None
    ensures next - 1 <= |f| && Agree(Merge(f, next - 1, l[next - 1..]), l, |l|)
  {
    var prev := next - 1;
    assert Agree(f, l, prev) by {
      if prev > 0 {
        assert f[prev - 1].term == l[prev - 1].term;
      }
    }
    MergeAdoptsLeaderPrefix(f, l, prev, l[prev..]);
    assert l[..|l|] == l;
  }

  /** Where the leader lands, the follower accepts and ends with the leader's log up to the leader's last index. */
  lemma {:induction false} RepairSucceeds(l: Log, f: Log, snap: nat, next: nat)
    requires Repairable(l, f, snap) && 1 <= next <= |l| + 1
    ensures var n := Landing(l, f, snap, next);
            && 1 <= n <= |l| + 1 && Probe(l, f, snap, n) == None && n - 1 <= |f|
            && Agree(Merge(f, n - 1, l[n - 1..]), l, |l|)
    decreases if next <= snap then |l| + 2 else next
  {
    hide Agree, Matching, Sorted;
    match Probe(l, f, snap, next)
    case Some(hint) =>
      HintIsUsable(l, f, snap, next);
      RepairSucceeds(l, f, snap, hint);
    case None => AcceptedProbeRepairs(l, f, snap, next);
  }

  // --- the same for the two nodes exchanging requests and replies ---

  /** The leader sends a request, the follower answers, the leader handles the answer. */
  function Exchange(l: Node, lid: Id, f: Node, fid: Id): (Node, Node)
    requires fid in l.next && l.snapIndex < l.next[fid] <= |l.log| + 1 && f.snapIndex <= |f.log|
  {
    var (f', response) := HandleAppendRequest(f, BuildAppendRequest(l, lid, fid));
    (HandleAppendResponse(l, response), f')
  }

  /** The leader can send the follower a request, and is not in an older term. */
  ghost predicate Meets(l: Node, f: Node, fid: Id) {
    && l.role.Leader? && fid in l.next && fid in l.matched && l.matched[fid] <= |l.log|
    && f.term <= l.term && f.snapIndex <= |f.log| && l.snapIndex < l.next[fid] <= |l.log| + 1
  }

  ghost predicate Pair(l: Node, f: Node, fid: Id) {
    Meets(l, f, fid) && l.snapIndex <= f.snapIndex && Repairable(l.log, f.log, f.snapIndex)
  }

  /** The follower's answer to a request of a term that is not stale. */
  lemma FollowerAnswers(f: Node, m: Message)
    requires m.AppendRequest? && f.snapIndex <= |f.log| && f.term <= m.term
    ensures var (f', y) := HandleAppendRequest(f, m);
            && f'.snapIndex == f.snapIndex && f'.term == m.term
            && y.AppendResponse? && y.from == m.to && y.term == m.term && y.upTo == m.prev + |m.entries|
            && match Check(f.log, f.snapIndex, m.prev, m.prevTerm)
               case Some(hint) =>
                 !y.success && y.hint == hint && f'.log == f.log && f'.commitIndex == f.commitIndex
               case None =>
                 && y.success && m.prev <= |f.log| && f'.log == Merge(f.log, m.prev, m.entries)
                 && (m.leaderCommit <= |f'.log| ==> f'.commitIndex == Max(f.commitIndex, m.leaderCommit))
  {
    hide Merge, RunBefore;
  }

  lemma LeaderLearns(l: Node, y: Message)
    requires l.role.Leader? && y.AppendResponse? && y.from in l.next && y.from in l.matched && y.term == l.term
    requires l.matched[y.from] <= y.upTo
    ensures var l' := HandleAppendResponse(l, y);
            && l'.log == l.log && l'.snapIndex == l.snapIndex && l'.term == l.term && l'.role == l.role
            && y.from in l'.next && y.from in l'.matched
            && (!y.success ==> l'.next[y.from] == y.hint && l'.matched[y.from] == l.matched[y.from])
            && (y.success ==> l'.matched[y.from] == y.upTo)
            && (y.success && l.matched[y.from] < y.upTo ==> l'.next[y.from] == Max(l.next[y.from], y.upTo + 1))
            && l'.commitIndex == l.commitIndex
  {
  }

  lemma ExchangeStep(l: Node, lid: Id, f: Node, fid: Id)
    requires Meets(l, f, fid)
    ensures var (l', f') := Exchange(l, lid, f, fid);
            && l'.log == l.log && l'.snapIndex == l.snapIndex && l'.term == l.term && l'.role == l.role
            && l'.commitIndex == l.commitIndex
            && f'.snapIndex == f.snapIndex && f'.term == l.term && fid in l'.next && fid in l'.matched
            && match Probe(l.log, f.log, f.snapIndex, l.next[fid])
               case Some(hint) =>
                 && f'.log == f.log && f'.commitIndex == f.commitIndex
                 && l'.next[fid] == hint && l'.matched[fid] == l.matched[fid]
               case None =>
                 && l.next[fid] - 1 <= |f.log|
                 && f'.log == Merge(f.log, l.next[fid] - 1, l.log[l.next[fid] - 1..]) && l'.matched[fid] == |l.log|
                 && (l.matched[fid] < |l.log| ==> l'.next[fid] == |l.log| + 1)
                 && (l.commitIndex <= |f'.log| ==> f'.commitIndex == Max(f.commitIndex, l.commitIndex))
  {
    hide HandleAppendRequest, HandleAppendResponse, Merge, Check, Repairable;
    var m := BuildAppendRequest(l, lid, fid);
    FollowerAnswers(f, m);
    LeaderLearns(l, HandleAppendRequest(f, m).1);
  }

  /** The pair after `k` exchanges, as long as the leader has not heard of success. */
  function Exchanges(l: Node, lid: Id, f: Node, fid: Id, k: nat): (Node, Node)
    requires Pair(l, f, fid) && k <= Rejections(l.log, f.log, f.snapIndex, l.next[fid])
    decreases k
  {
    if k == 0 then (l, f)
    else
      ExchangeStep(l, lid, f, fid);
      HintIsUsable(l.log, f.log, f.snapIndex, l.next[fid]);
      var (l', f') := Exchange(l, lid, f, fid);
      Exchanges(l', lid, f', fid, k - 1)
  }

  lemma RejectedExchange(l: Node, lid: Id, f: Node, fid: Id)
    requires Pair(l, f, fid) && Probe(l.log, f.log, f.snapIndex, l.next[fid]).Some?
    ensures var (l', f') := Exchange(l, lid, f, fid);
            && Pair(l', f', fid) && l'.log == l.log && f'.log == f.log && f'.snapIndex == f.snapIndex
            && l'.commitIndex == l.commitIndex && f'.commitIndex == f.commitIndex
            && l'.matched[fid] == l.matched[fid] && l'.next[fid] == Probe(l.log, f.log, f.snapIndex, l.next[fid]).value
            && Rejections(l.log, f.log, f.snapIndex, l.next[fid]) ==
                 1 + Rejections(l.log, f.log, f.snapIndex, l'.next[fid])
            && Landing(l.log, f.log, f.snapIndex, l.next[fid]) == Landing(l.log, f.log, f.snapIndex, l'.next[fid])
  {
    ExchangeStep(l, lid, f, fid);
    HintIsUsable(l.log, f.log, f.snapIndex, l.next[fid]);
  }

  lemma AcceptedProbeLands(l: Log, f: Log, snap: nat, next: nat)
    requires Repairable(l, f, snap) && 1 <= next <= |l| + 1 && Probe(l, f, snap, next).None?
    ensures Rejections(l, f, snap, next) == 0 && Landing(l, f, snap, next) == next
  {
  }

  lemma ExchangesUnfold(l: Node, lid: Id, f: Node, fid: Id, k: nat)
    requires Pair(l, f, fid) && 0 < k <= Rejections(l.log, f.log, f.snapIndex, l.next[fid])
    requires var (l', f') := Exchange(l, lid, f, fid);
             Pair(l', f', fid) && k - 1 <= Rejections(l'.log, f'.log, f'.snapIndex, l'.next[fid])
    ensures var (l', f') := Exchange(l, lid, f, fid);
            Exchanges(l, lid, f, fid, k) == Exchanges(l', lid, f', fid, k - 1)
  {
  }

  lemma PairFacts(l: Node, f: Node, fid: Id)
    requires Pair(l, f, fid)
    ensures Meets(l, f, fid)
    ensures fid in l.next && fid in l.matched && 1 <= l.next[fid] <= |l.log| + 1 && l.snapIndex < l.next[fid]
    ensures f.snapIndex <= |f.log| && Repairable(l.log, f.log, f.snapIndex)
    ensures Probe(l.log, f.log, f.snapIndex, l.next[fid]).None? ==> Exchanges(l, "", f, fid, 0) == (l, f)
  {
  }

  lemma {:induction false} ExchangesLand(l: Node, lid: Id, f: Node, fid: Id, k: nat)
    requires Pair(l, f, fid) && k == Rejections(l.log, f.log, f.snapIndex, l.next[fid])
    ensures var (l', f') := Exchanges(l, lid, f, fid, k);
            && Pair(l', f', fid) && l'.log == l.log && f'.log == f.log && f'.snapIndex == f.snapIndex
            && l'.commitIndex == l.commitIndex && f'.commitIndex == f.commitIndex
            && fid in l'.matched && fid in l.matched && l'.matched[fid] == l.matched[fid]
            && l'.next[fid] == Landing(l.log, f.log, f.snapIndex, l.next[fid])
    decreases k
  {
    hide Pair, Repairable, Probe, Rejections, Landing, Exchange;
    PairFacts(l, f, fid);
    if Probe(l.log, f.log, f.snapIndex, l.next[fid]).Some? {
      RejectedExchange(l, lid, f, fid);
      ExchangesUnfold(l, lid, f, fid, k);
      var (l', f') := Exchange(l, lid, f, fid);
      ExchangesLand(l', lid, f', fid, k - 1);
    } else {
      AcceptedProbeLands(l.log, f.log, f.snapIndex, l.next[fid]);
    }
  }

  /** How the pair (l, f) ends as (l', f'): the leader knows that the follower matches its whole log; the follower does
      match, and knows of every entry that the leader knows to be committed. */
  ghost predicate Repaired(l: Node, f: Node, l': Node, f': Node, fid: Id) {
    && l'.log == l.log && Agree(f'.log, l.log, |l.log|)
    && fid in l.matched && fid in l'.matched && l'.matched[fid] == |l.log|
    && f'.commitIndex == Max(f.commitIndex, l.commitIndex)
  }

  /** A leader that has learned something goes on behind its log. */
  ghost predicate GoesOn(l: Node, l': Node, fid: Id) {
    fid in l.matched && l.matched[fid] < |l.log| ==> fid in l'.next && l'.next[fid] == |l.log| + 1
  }

  lemma LastExchange(l: Node, lid: Id, f: Node, fid: Id)
    requires Meets(l, f, fid) && l.commitIndex <= |l.log|
    requires var next := l.next[fid];
             && Probe(l.log, f.log, f.snapIndex, next) == None && next - 1 <= |f.log|
             && Agree(Merge(f.log, next - 1, l.log[next - 1..]), l.log, |l.log|)
    ensures var (l', f') := Exchange(l, lid, f, fid); Repaired(l, f, l', f', fid) && GoesOn(l, l', fid)
  {
    hide Exchange, Probe, Merge, Repairable;
    ExchangeStep(l, lid, f, fid);
  }

  lemma RepairedFromStart(l: Node, f: Node, l1: Node, f1: Node, l2: Node, f2: Node, fid: Id)
    requires Repaired(l1, f1, l2, f2, fid)
    requires l1.log == l.log && f1.commitIndex == f.commitIndex && l1.commitIndex == l.commitIndex
    requires fid in l.matched && fid in l1.matched && l1.matched[fid] == l.matched[fid]
    ensures Repaired(l, f, l2, f2, fid)
  {
  }

  /** After its rejections and one more exchange the leader knows that the follower matches its whole log, and the
      follower does. The follower then knows of every entry that the leader knows to be committed. */
  lemma ExchangesRepair(l: Node, lid: Id, f: Node, fid: Id, k: nat)
    requires Pair(l, f, fid) && k == Rejections(l.log, f.log, f.snapIndex, l.next[fid]) && l.commitIndex <= |l.log|
    ensures k <= 1 + |TermsIn(f.log, f.snapIndex, |f.log|)|
    ensures var (l1, f1) := Exchanges(l, lid, f, fid, k);
            Pair(l1, f1, fid) && var (l2, f2) := Exchange(l1, lid, f1, fid);
                                 Repaired(l, f, l2, f2, fid) && GoesOn(l, l2, fid)
  {
    hide Pair, Repairable, Rejections, Landing, Exchange, Agree, Exchanges, Repaired, Probe, Merge;
    PairFacts(l, f, fid);
    ExchangesLand(l, lid, f, fid, k);
    RepairIsBounded(l.log, f.log, f.snapIndex, l.next[fid]);
    RepairSucceeds(l.log, f.log, f.snapIndex, l.next[fid]);
    var (l1, f1) := Exchanges(l, lid, f, fid, k);
    PairFacts(l1, f1, fid);
    LastExchange(l1, lid, f1, fid);
    var (l2, f2) := Exchange(l1, lid, f1, fid);
    RepairedFromStart(l, f, l1, f1, l2, f2, fid);
  }

  // --- compaction ---

  lemma {:induction false} RunBeforeCompacted(l: Log, snap: nat, t: nat, index: nat)
    requires snap <= index <= |l|
    ensures RunBefore(l, snap, t, index) == Max(RunBefore(l, 0, t, index), snap)
  {
    if index == snap {
      RunBeforeStops(l, 0, t, index);
    } else if l[index - 1].term == t {
      RunBeforeCompacted(l, snap, t, index - 1);
    }
  }

  lemma CheckCompacted(l: Log, snap: nat, prev: nat, prevTerm: nat)
    requires snap <= |l| && prev >= snap && (prev == snap ==> prevTerm == TermAt(l, snap))
    ensures var c, full := Check(l, snap, prev, prevTerm), Check(l, 0, prev, prevTerm);
            && c.None? == full.None?
            && (c.Some? ==> c.value == if prev <= |l| then Max(full.value, snap + 1) else full.value)
  {
    if snap < prev <= |l| {
      RunBeforeCompacted(l, snap, TermAt(l, prev), prev - 1);
    }
  }

  lemma FollowCompacted(n: Node, term: nat)
    ensures FollowLeader(n.(snapIndex := 0), term) == FollowLeader(n, term).(snapIndex := 0)
    ensures FollowLeader(n, term).log == n.log && FollowLeader(n, term).snapIndex == n.snapIndex
    ensures FollowLeader(n, term).acks == n.acks && FollowLeader(n, term).commitIndex == n.commitIndex
  {
  }

  /** Compaction is invisible: a request from the snapshot point on, agreeing with it, leaves a compacted node exactly
      as it would leave one that had compacted nothing, and the replies differ only in the hint after a conflict,
      which is never below the first entry that is left. */
  lemma CompactionIsInvisible(n: Node, m: Message)
    requires m.AppendRequest? && n.snapIndex <= |n.log| && m.prev >= n.snapIndex
    requires m.prev == n.snapIndex ==> m.prevTerm == TermAt(n.log, n.snapIndex)
    ensures var (n', r) := HandleAppendRequest(n, m);
            var (full', rf) := HandleAppendRequest(n.(snapIndex := 0), m);
            && n' == full'.(snapIndex := n.snapIndex)
            && r.success == rf.success && r.term == rf.term
            && (!r.success && m.term >= n.term && m.prev <= |n.log| ==> r.hint == Max(rf.hint, n.snapIndex + 1))
            && (m.term < n.term || m.prev > |n.log| ==> r.hint == rf.hint)
  {
    hide Check, Merge, FollowLeader;
    CheckCompacted(n.log, n.snapIndex, m.prev, m.prevTerm);
    FollowCompacted(n, m.term);
  }

  /** A request that does not agree with the snapshot point is rejected at it. */
  lemma SnapshotPointMismatch(n: Node, m: Message)
    requires m.AppendRequest? && n.snapIndex <= |n.log| && m.term >= n.term
    ensures var r := HandleAppendRequest(n, m).1;
            && (m.prev < n.snapIndex ==> !r.success && r.hint == n.snapIndex + 1)
            && (m.prev == n.snapIndex ==> (r.success <==> m.prevTerm == TermAt(n.log, n.snapIndex)))
            && (m.prev == n.snapIndex && !r.success ==> r.hint == n.snapIndex)
  {
  }

  // --- the commit scan ---

  lemma {:induction false} NothingCommitsAbove(n: Node, id: Id, voters: set<Id>, low: nat, high: nat, i: nat)
    requires low <= high <= |n.log| && LargestCommitting(n, id, voters, low, high) < i <= high
    ensures !Commits(n, id, voters, i)
  {
    if !Commits(n, id, voters, high) && i < high {
      NothingCommitsAbove(n, id, voters, low, high - 1, i);
    }
  }

  lemma {:induction false} ScanResultCommits(n: Node, id: Id, voters: set<Id>, low: nat, high: nat)
    requires low <= high <= |n.log|
    ensures var r := LargestCommitting(n, id, voters, low, high); r == low || Commits(n, id, voters, r)
  {
    if high > low && !Commits(n, id, voters, high) {
      ScanResultCommits(n, id, voters, low, high - 1);
    }
  }

  /** The other voters that the leader knows to hold the entry with the given index. */
  function Holders(n: Node, id: Id, voters: set<Id>, index: nat): set<Id> {
    set f | f in n.matched && f != id && f in voters && n.matched[f] >= index
  }

  lemma CommitsMeans(n: Node, id: Id, voters: set<Id>, i: nat)
    requires 1 <= i <= |n.log|
    ensures Commits(n, id, voters, i) <==>
              n.log[i - 1].term == n.term && 2 * (1 + |Holders(n, id, voters, i)|) > |voters|
  {
    assert Holders(n, id, voters, i) == set f | f in n.matched && f != id && f in voters && n.matched[f] >= i;
  }

  /** The commit scan is exact: it ends at the largest index above the old commit index whose entry is of the current
      term and which more than half of the voters hold, the leader itself counted in; and it stays where it was when
      there is none. */
  lemma ScanIsExact(n: Node, id: Id, voters: set<Id>)
    requires n.role.Leader? && n.commitIndex <= |n.log|
    ensures var c := CommitScan(n, id, voters).commitIndex;
            && n.commitIndex <= c <= |n.log|
            && (c > n.commitIndex ==>
                  n.log[c - 1].term == n.term && 2 * (1 + |Holders(n, id, voters, c)|) > |voters|)
            && (forall i :: c < i <= |n.log| && n.log[i - 1].term == n.term ==>
                  2 * (1 + |Holders(n, id, voters, i)|) <= |voters|)
    ensures CommitScan(n, id, voters) == n.(commitIndex := CommitScan(n, id, voters).commitIndex)
  {
    hide Commits, Holders;
    ScanResultCommits(n, id, voters, n.commitIndex, |n.log|);
    var c := CommitScan(n, id, voters).commitIndex;
    if c > n.commitIndex {
      CommitsMeans(n, id, voters, c);
    }
    forall i | c < i <= |n.log| && n.log[i - 1].term == n.term
      ensures 2 * (1 + |Holders(n, id, voters, i)|) <= |voters|
    {
      NothingCommitsAbove(n, id, voters, n.commitIndex, |n.log|, i);
      CommitsMeans(n, id, voters, i);
    }
  }

  /** When more than half of the voters hold all that the leader has, and its last entry is of its term, the scan
      commits the whole log. */
  lemma QuorumCommitsAll(n: Node, id: Id, voters: set<Id>, q: set<Id>)
    requires n.role.Leader? && n.commitIndex <= |n.log| && LastTerm(n.log) == n.term && n.log != []
    requires forall f :: f in q ==> f in voters && f != id && f in n.matched && n.matched[f] >= |n.log|
    requires 2 * (1 + |q|) > |voters|
    ensures CommitScan(n, id, voters).commitIndex == |n.log|
  {
    hide CommitScan;
    ScanIsExact(n, id, voters);
    var h := Holders(n, id, voters, |n.log|);
    assert h == q + (h - q);
  }
}
