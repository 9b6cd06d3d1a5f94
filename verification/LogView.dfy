/** What a compacted log stands for: the entries that the snapshot replaced, followed by the entries that are left. */
module LogView {
  import opened Entries
  import opened Frames
  import opened Storage

  function EntryOf(i: Item): Entry {
    Entry(i.term, i.kind, i.data)
  }

  function EntriesOf(items: seq<Item>): Log {
    seq(|items|, i requires 0 <= i < |items| => EntryOf(items[i]))
  }

  /** The entries behind the placeholder. */
  function Tail(items: seq<Item>): Log {
    if items == [] then [] else EntriesOf(items[1..])
  }

  /** The items are numbered from `first` on. */
  ghost predicate Numbered(items: seq<Item>, first: nat) {
    forall k :: 0 <= k < |items| ==> items[k].index == first + k
  }

  /** The log file holds the entries above the snapshot point, behind a placeholder for the snapshot point itself. */
  ghost predicate Represents(items: seq<Item>, snapshot: Log) {
    |items| >= 1 && Numbered(items, |snapshot|) && items[0].term == LastTerm(snapshot) && |snapshot| + |items| <= UINT64
  }

  ghost function Whole(items: seq<Item>, snapshot: Log): (l: Log)
    ensures |items| >= 1 ==> |l| == |snapshot| + |items| - 1
  {
    snapshot + Tail(items)
  }

  lemma Lookup(items: seq<Item>, snapshot: Log, index: nat)
    requires Represents(items, snapshot) && |snapshot| <= index < |snapshot| + |items|
    ensures TermAt(Whole(items, snapshot), index) == items[index - |snapshot|].term
    ensures index > |snapshot| ==> Whole(items, snapshot)[index - 1] == EntryOf(items[index - |snapshot|])
  {
  }

  lemma Longer(items: seq<Item>, more: seq<Item>, snapshot: Log)
    requires Represents(items, snapshot) && Numbered(more, |snapshot| + |items|)
    requires |snapshot| + |items| + |more| <= UINT64
    ensures Represents(items + more, snapshot)
    ensures Whole(items + more, snapshot) == Whole(items, snapshot) + EntriesOf(more)
  {
    assert (items + more)[1..] == items[1..] + more;
    assert EntriesOf(items[1..] + more) == EntriesOf(items[1..]) + EntriesOf(more);
  }

  lemma Shorter(items: seq<Item>, snapshot: Log, k: nat)
    requires Represents(items, snapshot) && 1 <= k <= |items|
    ensures Represents(items[..k], snapshot)
    ensures Whole(items[..k], snapshot) == Whole(items, snapshot)[..|snapshot| + k - 1]
  {
    assert items[..k][1..] == items[1..][..k - 1];
    assert EntriesOf(items[1..][..k - 1]) == EntriesOf(items[1..])[..k - 1];
  }

  /** Moving the snapshot point up does not change what the log stands for. */
  lemma Compacted(items: seq<Item>, snapshot: Log, k: nat, moved: Log)
    requires Represents(items, snapshot) && 1 <= k < |items| && moved == Whole(items, snapshot)[..|snapshot| + k]
    ensures Represents(items[k..], moved) && Whole(items[k..], moved) == Whole(items, snapshot)
  {
    assert items[k..][1..] == items[1..][k..];
    assert EntriesOf(items[1..][k..]) == EntriesOf(items[1..])[k..];
    Lookup(items, snapshot, |snapshot| + k);
    JoinedAgain(snapshot, EntriesOf(items[1..]), k);
  }

  lemma JoinedAgain(snapshot: Log, tail: Log, k: nat)
    requires k <= |tail|
    ensures (snapshot + tail)[..|snapshot| + k] + tail[k..] == snapshot + tail
  {
  }

  lemma OnlyPlaceholder(index: nat, term: nat, snapshot: Log)
    requires |snapshot| == index && LastTerm(snapshot) == term && index < UINT64
    ensures Represents([Item(index, term, [], NoOp)], snapshot)
    ensures Whole([Item(index, term, [], NoOp)], snapshot) == snapshot
  {
  }

  /** Where a log that stands for `full` keeps its entries. */
  lemma Located(es: seq<LogEntry>, snapshot: Log, full: Log, index: nat)
    requires Represents(Items(es), snapshot) && full == Whole(Items(es), snapshot) && index < UINT64
    ensures |es| >= 1 && |full| < UINT64 && |snapshot| + |es| == |full| + 1
    ensures Holds(es[0].index, |es|, index) <==> |snapshot| < index <= |full|
    ensures Holds(es[0].index, |es|, index) ==>
              && Position(es[0].index, index) == index - |snapshot|
              && var e := es[index - |snapshot|]; e.index == index && Entry(e.term, e.kind, e.data) == full[index - 1]
  {
    assert Items(es)[0] == ItemOf(es[0]);
    ContainsIsExact(|snapshot|, |es|, index);
    hide Holds, Position;
    if |snapshot| < index <= |full| {
      Lookup(Items(es), snapshot, index);
      assert Items(es)[index - |snapshot|] == ItemOf(es[index - |snapshot|]);
    }
  }

  lemma Ends(es: seq<LogEntry>, snapshot: Log, full: Log)
    requires Represents(Items(es), snapshot) && full == Whole(Items(es), snapshot)
    ensures |es| >= 1 && es[|es| - 1].index == |full| && es[|es| - 1].term == Entries.LastTerm(full)
  {
    Lookup(Items(es), snapshot, |full|);
    assert Items(es)[|es| - 1] == ItemOf(es[|es| - 1]);
  }

  lemma ItemsTake(es: seq<LogEntry>, k: nat)
    requires k <= |es|
    ensures Items(es[..k]) == Items(es)[..k]
  {
  }
}
