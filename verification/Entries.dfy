/** Log entries and the comparisons of logs that the protocol is built from.

    A log is the full sequence of entries from index 1 on: the entry with index `i` is `l[i - 1]`,
    and an index used as a length names the prefix that ends with that entry. */
module Entries {

  type Id = string

  type Byte = b: int | 0 <= b < 256

  datatype Option<+T> = None | Some(value: T)

  datatype Kind = NoOp | Operation | Configuration

  datatype Entry = Entry(term: nat, kind: Kind, data: seq<Byte>)

  type Log = seq<Entry>

  /** The first `n` entries of both logs exist and are the same. */
  ghost predicate Agree(a: Log, b: Log, n: nat) {
    n <= |a| && n <= |b| && forall k :: 0 <= k < n ==> a[k] == b[k]
  }

  /** Terms never decrease along a log. */
  ghost predicate Sorted(l: Log) {
    forall j, k :: 0 <= j <= k < |l| ==> l[j].term <= l[k].term
  }

  /** The term of the entry with index `i`; index 0 is the placeholder, which has term 0. */
  function TermAt(l: Log, i: nat): nat
    requires i <= |l|
  {
    if i == 0 then 0 else l[i - 1].term
  }

  function LastTerm(l: Log): nat {
    TermAt(l, |l|)
  }

  /** A candidate whose log ends with (lastIndex, lastTerm) is at least as up-to-date as `l`. */
  predicate UpToDate(lastIndex: nat, lastTerm: nat, l: Log) {
    !(lastTerm < LastTerm(l) || (lastTerm == LastTerm(l) && |l| > lastIndex))
  }

  /** Steps back from `index` while the entries still have term `t`, but not past `snap`. */
  function RunBefore(l: Log, snap: nat, t: nat, index: nat): nat
    requires snap <= index <= |l|
  {
    if index == snap || l[index - 1].term != t then index else RunBefore(l, snap, t, index - 1)
  }

  /** What a follower with log `l`, compacted up to `snap`, answers to a probe for (prev, prevTerm):
      nothing if it accepts, and otherwise the index it asks the leader to try next. */
  function Check(l: Log, snap: nat, prev: nat, prevTerm: nat): Option<nat>
    requires snap <= |l|
  {
    if snap > prev then Some(snap + 1)
    else if |l| + 1 <= prev then Some(|l| + 1)
    else if snap == prev && TermAt(l, snap) != prevTerm then Some(snap)
    else if snap < prev && TermAt(l, prev) != prevTerm then
      Some(RunBefore(l, snap, TermAt(l, prev), prev - 1) + 1)
    else None
  }

  /** The skip/truncate/append loop: entries already present are skipped, the first one that is missing or
      conflicts by term cuts the log, and the rest of the request is appended. */
  function Merge(l: Log, prev: nat, entries: Log): Log
    requires prev <= |l|
    decreases |entries|
  {
    if entries == [] then l
    else if prev == |l| then l + entries
    else if l[prev].term == entries[0].term then Merge(l, prev + 1, entries[1..])
    else l[..prev] + entries
  }

  /** Two logs match when the same term at the same index means the same entries up to that index. */
  ghost predicate Matching(a: Log, b: Log) {
    forall k :: 0 <= k < |a| && k < |b| && a[k].term == b[k].term ==> Agree(a, b, k + 1)
  }

  /** The loop against its simple specification. If the request carries the leader's log `leader` from `prev`
      up to `prev + |entries|`, then the follower keeps its log when it already holds that prefix of the leader's,
      and otherwise ends with exactly that prefix. */
  lemma {:induction false} MergeAdoptsLeaderPrefix(l: Log, leader: Log, prev: nat, entries: Log)
    requires prev + |entries| <= |leader| && entries == leader[prev..prev + |entries|]
    requires Agree(l, leader, prev) && Matching(l, leader)
    ensures var e := prev + |entries|;
            && (Agree(l, leader, e) ==> Merge(l, prev, entries) == l)
            && (!Agree(l, leader, e) ==> Merge(l, prev, entries) == leader[..e])
    decreases |entries|
  {
    var e := prev + |entries|;
    if entries == [] {
    } else if prev == |l| {
      assert l == leader[..prev];
      assert leader[..prev] + entries == leader[..e];
    } else if l[prev].term == entries[0].term {
      assert entries[0] == leader[prev];
      MergeAdoptsLeaderPrefix(l, leader, prev + 1, entries[1..]);
    } else {
      assert entries[0] == leader[prev];
      assert l[..prev] == leader[..prev];
      assert leader[..prev] + entries == leader[..e];
    }
  }
}
