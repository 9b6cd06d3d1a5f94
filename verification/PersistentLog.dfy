/** The durable log: entries in memory, their frames in a file, and the position the file is written at. */
module Storage {
  import opened Entries
  import opened Frames

  /** The position of `index` in a log whose placeholder has index `first`, as unsigned 64-bit subtraction gives it. */
  function Position(first: nat, index: nat): nat {
    (index - first) % UINT64
  }

  predicate Holds(first: nat, size: nat, index: nat) {
    0 < Position(first, index) < size
  }

  /** Wrap-around does no harm: as long as the log ends below 2^64, exactly the indices above the placeholder and up
      to the last entry are contained. */
  lemma ContainsIsExact(first: nat, size: nat, index: nat)
    requires 1 <= size && first + size <= UINT64 && index < UINT64
    ensures Holds(first, size, index) <==> first < index < first + size
    ensures Holds(first, size, index) ==> Position(first, index) == index - first
  {
    if index < first {
      assert Position(first, index) == index - first + UINT64;
    }
  }

  /** An entry without its place in the file. */
  datatype Item = Item(index: nat, term: nat, data: seq<Byte>, kind: Kind)

  function ItemOf(e: LogEntry): Item {
    Item(e.index, e.term, e.data, e.kind)
  }

  function Items(es: seq<LogEntry>): seq<Item> {
    seq(|es|, i requires 0 <= i < |es| => ItemOf(es[i]))
  }

  /** Every entry's offset is the total length of the frames before it. */
  ghost predicate OffsetsOK(c: Codec, es: seq<LogEntry>) {
    forall k :: 0 <= k < |es| ==> es[k].offset == |File(c, es[..k])|
  }

  ghost predicate SameItems(a: seq<LogEntry>, b: seq<LogEntry>) {
    |a| == |b| && forall k :: 0 <= k < |a| ==> ItemOf(a[k]) == ItemOf(b[k])
  }

  lemma ItemsAppend(a: seq<LogEntry>, b: seq<LogEntry>, c: seq<LogEntry>)
    requires SameItems(b, c)
    ensures Items(a + b) == Items(a) + Items(c)
  {
  }

  lemma ItemsDrop(a: seq<LogEntry>, b: seq<LogEntry>, n: nat)
    requires n <= |a| && SameItems(b, a[n..])
    ensures Items(b) == Items(a)[n..]
  {
  }

  /** One entry more, written at the end of the file. */
  lemma WriteNext(c: Codec, before: seq<LogEntry>, written: seq<LogEntry>, es: seq<LogEntry>, entry: LogEntry)
    requires OffsetsOK(c, before + written) && AllFit(c, written)
    requires |written| < |es| && SameItems(written, es[..|written|]) && Fits(c, es[|written|])
    requires entry == es[|written|].(offset := |File(c, before + written)|)
    ensures var more := written + [entry];
            && SameItems(more, es[..|more|]) && AllFit(c, more) && OffsetsOK(c, before + more)
            && File(c, before + more) == File(c, before + written) + Frame(c, entry)
  {
    hide Fits, File, Frame, OffsetsOK;
    var more := written + [entry];
    FitsAnywhere(c, es[|written|], entry.offset);
    OffsetsOfAppend(c, before + written, entry);
    assert before + more == before + written + [entry];
  }

  /** The entry fits wherever it is written. */
  lemma FitsAnywhere(c: Codec, e: LogEntry, o: nat)
    requires Fits(c, e)
    ensures Fits(c, e.(offset := o))
  {
    forall o': nat | o' < INT64_LIMIT ensures |c.marshal(e.(offset := o).(offset := o'))| < INT32_LIMIT {
      assert e.(offset := o).(offset := o') == e.(offset := o');
    }
  }

  function Prefixed(es: seq<LogEntry>, p: Option<seq<LogEntry>>): Option<seq<LogEntry>> {
    match p case None => None case Some(more) => Some(es + more)
  }

  lemma PrefixedOnce(es: seq<LogEntry>, e: LogEntry, p: Option<seq<LogEntry>>)
    ensures Prefixed(es, Prefixed([e], p)) == Prefixed(es + [e], p)
    ensures Prefixed([], p) == p && Prefixed(es, Some([])) == Some(es)
  {
    if p.Some? {
      assert es + ([e] + p.value) == es + [e] + p.value;
      assert [] + p.value == p.value;
    }
    assert es + [] == es;
  }

  /** How long a file of the given size gets when the entries are written at its end. */
  ghost function Grown(c: Codec, size: nat, es: seq<LogEntry>): nat
    decreases |es|
  {
    if es == [] then size else Grown(c, size + |Frame(c, es[0].(offset := size))|, es[1..])
  }

  lemma {:induction false} GrownAtLeast(c: Codec, size: nat, es: seq<LogEntry>)
    ensures size <= Grown(c, size, es)
    decreases |es|
  {
    hide Frame;
    if es != [] {
      GrownAtLeast(c, size + |Frame(c, es[0].(offset := size))|, es[1..]);
    }
  }

  /** One entry makes the file longer by less than 2^31 + 4 bytes. */
  lemma GrownByOne(c: Codec, e: LogEntry, size: nat)
    requires Fits(c, e) && size < INT64_LIMIT
    ensures Grown(c, size, [e]) == size + |Frame(c, e.(offset := size))| < size + INT32_LIMIT + 4
  {
    assert Grown(c, size, [e]) == Grown(c, size + |Frame(c, e.(offset := size))|, []);
  }

  lemma FrameMonotone(c: Codec, e: LogEntry, o: nat, p: nat)
    requires Monotone(c) && Fits(c, e) && o <= p < INT64_LIMIT
    ensures |Frame(c, e.(offset := o))| <= |Frame(c, e.(offset := p))|
  {
  }

  /** Fewer entries, written to a shorter file, end no later. */
  lemma {:induction false} GrownMonotone(c: Codec, size: nat, es: seq<LogEntry>, less: nat, n: nat)
    requires Monotone(c) && AllFit(c, es) && less <= size && n <= |es| && Grown(c, size, es) < INT64_LIMIT
    ensures Grown(c, less, es[n..]) <= Grown(c, size, es)
    decreases |es|
  {
    hide Frame, Fits, Monotone;
    GrownAtLeast(c, size, es);
    if es == [] {
    } else if n == 0 {
      FrameMonotone(c, es[0], less, size);
      GrownMonotone(c, size + |Frame(c, es[0].(offset := size))|, es[1..],
                    less + |Frame(c, es[0].(offset := less))|, 0);
      assert es[0..] == es && es[1..][0..] == es[1..];
    } else {
      GrownMonotone(c, size + |Frame(c, es[0].(offset := size))|, es[1..], less, n - 1);
      assert es[1..][n - 1..] == es[n..];
    }
  }

  /** Written anew from the start, the last entries of a file need no more room than the file. */
  lemma {:induction false} GrownFromStart(c: Codec, es: seq<LogEntry>, n: nat, size: nat)
    requires Monotone(c) && AllFit(c, es) && OffsetsOK(c, es) && |File(c, es)| < INT64_LIMIT
    requires n <= |es| && size <= |File(c, es[..n])|
    ensures Grown(c, size, es[n..]) <= |File(c, es)|
    decreases |es| - n
  {
    hide Frame, Fits, Monotone, OffsetsOK;
    if n == |es| {
      assert es[..n] == es && es[n..] == [];
    } else {
      OffsetAt(c, es, n);
      FilePrefix(c, es, n);
      FrameMonotone(c, es[n], size, es[n].offset);
      assert es[n].(offset := es[n].offset) == es[n];
      assert es[..n + 1][..n] == es[..n] && es[..n + 1][n] == es[n];
      GrownFromStart(c, es, n + 1, size + |Frame(c, es[n].(offset := size))|);
      assert es[n..][0] == es[n] && es[n..][1..] == es[n + 1..];
    }
  }

  lemma OffsetAt(c: Codec, es: seq<LogEntry>, n: nat)
    requires OffsetsOK(c, es) && n < |es|
    ensures es[n].offset == |File(c, es[..n])|
  {
  }

  /** Every entry is stored below the end of the file. */
  lemma OffsetsInside(c: Codec, es: seq<LogEntry>)
    requires OffsetsOK(c, es)
    ensures forall k :: 0 <= k < |es| ==> es[k].offset <= |File(c, es)|
  {
    forall k | 0 <= k < |es| ensures es[k].offset <= |File(c, es)| {
      FilePrefix(c, es, k);
    }
  }

  lemma AllFitTogether(c: Codec, a: seq<LogEntry>, b: seq<LogEntry>)
    requires AllFit(c, a) && AllFit(c, b)
    ensures AllFit(c, a + b)
  {
  }

  lemma SameItemsLength(a: seq<LogEntry>, b: seq<LogEntry>)
    requires SameItems(a, b)
    ensures |a| == |b|
  {
  }

  lemma NothingWritten(c: Codec, es: seq<LogEntry>)
    ensures SameItems([], es[..0]) && AllFit(c, [])
  {
  }

  const Placeholder: LogEntry := LogEntry(0, 0, 0, [], NoOp)

  lemma OffsetsOfPrefix(c: Codec, es: seq<LogEntry>, n: nat)
    requires OffsetsOK(c, es) && n <= |es|
    ensures OffsetsOK(c, es[..n])
  {
    forall k | 0 <= k < n ensures es[..n][k].offset == |File(c, es[..n][..k])| {
      assert es[..n][..k] == es[..k];
    }
  }

  lemma OffsetsOfAppend(c: Codec, es: seq<LogEntry>, e: LogEntry)
    requires OffsetsOK(c, es) && e.offset == |File(c, es)|
    ensures OffsetsOK(c, es + [e]) && File(c, es + [e]) == File(c, es) + Frame(c, e)
  {
    assert (es + [e])[..|es|] == es;
    forall k | 0 <= k < |es + [e]| ensures (es + [e])[k].offset == |File(c, (es + [e])[..k])| {
      assert (es + [e])[..k] == if k <= |es| then es[..k] else es + [e];
      assert es[..|es|] == es;
    }
  }

  lemma NoFile(c: Codec)
    ensures File(c, []) == [] && OffsetsOK(c, [])
  {
  }

  lemma OnlyEntry(c: Codec, e: LogEntry)
    requires Fits(c, e) && e.offset == 0
    ensures AllFit(c, [e]) && OffsetsOK(c, [e]) && File(c, [e]) == Frame(c, e) && |Frame(c, e)| < INT64_LIMIT
  {
    OffsetsOfAppend(c, [], e);
    assert [] + [e] == [e];
    assert e.(offset := 0) == e;
  }

  /** The file of a prefix is a prefix of the file. */
  lemma {:induction false} FilePrefix(c: Codec, es: seq<LogEntry>, n: nat)
    requires n <= |es|
    ensures |File(c, es[..n])| <= |File(c, es)| && File(c, es)[..|File(c, es[..n])|] == File(c, es[..n])
    decreases |es|
  {
    if n == |es| {
      assert es[..n] == es;
    } else {
      FilePrefix(c, es[..|es| - 1], n);
      assert es[..|es| - 1][..n] == es[..n];
    }
  }

  class PersistentLog {
    const codec: Codec
    var open: bool
    var entries: seq<LogEntry>
    var file: seq<Byte>
    var pos: nat

    /** The log is open and replayed: the file holds exactly the frames of the entries, every entry knows where its
        frame starts, and the position is at the end. */
    ghost predicate Valid()
      reads this
    {
      && Sound(codec) && AllFit(codec, entries)
      && open && |entries| >= 1
      && file == File(codec, entries) && OffsetsOK(codec, entries)
      && pos == |file| < INT64_LIMIT
    }

    /** What the log stands for. */
    ghost function Contents(): seq<Item>
      reads this
    {
      Items(entries)
    }

    constructor (codec: Codec, file: seq<Byte>)
      ensures this.codec == codec && this.file == file && !open && entries == [] && pos == 0
    {
      this.codec := codec;
      this.file := file;
      open, entries, pos := false, [], 0;
    }

    method Open()
      modifies this
      ensures open && entries == [] && pos == 0 && file == old(file)
    {
      open, entries, pos := true, [], 0;
    }

    method Close()
      modifies this
      ensures !open && entries == [] && pos == 0 && file == old(file)
    {
      open, entries, pos := false, [], 0;
    }

    /** Writes at the current position, as a file does: over what is there, and past the end. */
    method Write(bytes: seq<Byte>)
      requires pos <= |file|
      modifies this`file, this`pos
      ensures pos == old(pos) + |bytes|
      ensures file == old(file)[..old(pos)] + bytes + old(if pos + |bytes| <= |file| then file[pos + |bytes|..] else [])
    {
      file := file[..pos] + bytes + if pos + |bytes| <= |file| then file[pos + |bytes|..] else [];
      pos := pos + |bytes|;
    }

    method EncodeEntry(e: LogEntry)
      requires pos == |file| && Fits(codec, e) && e.offset < INT64_LIMIT
      modifies this`file, this`pos
      ensures file == old(file) + Frame(codec, e) && pos == |file|
    {
      var m := codec.marshal(e);
      assert |m| < INT32_LIMIT by {
        assert e.(offset := e.offset) == e;
      }
      Write(BigEndian(|m|));
      Write(m);
    }

    /** Reads the whole file into memory. A file without entries gets the placeholder. */
    method Replay() returns (ok: bool)
      requires open && entries == [] && pos == 0 && Fits(codec, Placeholder)
      modifies this
      ensures open
      ensures ok <==> Parse(codec, old(file)).Some?
      ensures ok && Parse(codec, old(file)).value != [] ==>
                entries == Parse(codec, old(file)).value && file == old(file) && pos == |file|
      ensures ok && Parse(codec, old(file)).value == [] ==>
                entries == [Placeholder] && file == old(file) + Frame(codec, Placeholder) && pos == |file|
      ensures old(file) == [] && Sound(codec) ==> ok && Valid() && entries == [Placeholder]
    {
      hide File, Frame, Fits, OffsetsOK;
      var rest := file;
      PrefixedOnce([], Placeholder, Parse(codec, rest));
      while true
        invariant open && file == old(file)
        invariant Parse(codec, old(file)) == Prefixed(entries, Parse(codec, rest))
        decreases |rest|
      {
        ReadShrinks(codec, rest);
        var reading := ReadEntry(codec, rest);
        PrefixedOnce(entries, Placeholder, None);
        if reading.EndOfFile? {
          break;
        }
        if reading.Broken? {
          return false;
        }
        PrefixedOnce(entries, reading.entry, Parse(codec, reading.rest));
        entries := entries + [reading.entry];
        rest := reading.rest;
      }
      pos := |file|;
      if |entries| == 0 {
        EncodeEntry(Placeholder);
        OnlyEntry(codec, Placeholder);
        entries := [Placeholder];
      }
      ok := true;
    }

    method Contains(index: nat) returns (b: bool)
      requires |entries| >= 1
      ensures b == Holds(entries[0].index, |entries|, index)
    {
      var logIndex := Position(entries[0].index, index);
      b := !(logIndex <= 0 || logIndex >= |entries|);
    }

    method GetEntry(index: nat) returns (r: Option<LogEntry>)
      requires open ==> |entries| >= 1
      ensures r.Some? <==> open && Holds(entries[0].index, |entries|, index)
      ensures r.Some? ==> r.value == entries[Position(entries[0].index, index)]
    {
      if !open {
        return None;
      }
      var contained := Contains(index);
      if !contained {
        return None;
      }
      r := Some(entries[Position(entries[0].index, index)]);
    }

    /** Writes entries at the end of a file that holds `before`, and gives each the offset it is written at. */
    method EncodeEntries(es: seq<LogEntry>, ghost before: seq<LogEntry>) returns (written: seq<LogEntry>)
      requires pos == |file| && file == File(codec, before) && OffsetsOK(codec, before) && AllFit(codec, es)
      requires Grown(codec, |file|, es) < INT64_LIMIT
      modifies this`file, this`pos
      ensures SameItems(written, es) && AllFit(codec, written)
      ensures pos == |file| && file == File(codec, before + written) && OffsetsOK(codec, before + written)
      ensures |file| == Grown(codec, old(|file|), es)
    {
      hide File, Frame, OffsetsOK, Fits, SameItems;
      written := [];
      assert before + [] == before;
      NothingWritten(codec, es);
      for i := 0 to |es|
        invariant pos == |file| && |written| == i && SameItems(written, es[..i])
        invariant AllFit(codec, written) && OffsetsOK(codec, before + written)
        invariant file == File(codec, before + written)
        invariant Grown(codec, |file|, es[i..]) == Grown(codec, old(|file|), es)
      {
        GrownAtLeast(codec, pos, es[i..]);
        assert es[i..][0] == es[i] && es[i..][1..] == es[i + 1..];
        var entry := es[i].(offset := pos);
        WriteNext(codec, before, written, es, entry);
        FitsAnywhere(codec, es[i], pos);
        EncodeEntry(entry);
        written := written + [entry];
      }
      assert es[..|es|] == es;
    }

    method AppendEntries(es: seq<LogEntry>) returns (ok: bool)
      requires open ==> Valid()
      requires AllFit(codec, es) && Grown(codec, |file|, es) < INT64_LIMIT
      modifies this
      ensures ok == old(open) && open == old(open)
      ensures ok ==> Valid() && Contents() == old(Contents()) + Items(es)
      ensures ok ==> |entries| == old(|entries|) + |es| && entries[..old(|entries|)] == old(entries)
      ensures !ok ==> entries == old(entries) && file == old(file) && pos == old(pos)
    {
      if !open {
        return false;
      }
      hide File, Frame, Fits, OffsetsOK, RoundTrips, Items, AllFit, SameItems;
      var written := EncodeEntries(es, entries);
      ItemsAppend(entries, written, es);
      AllFitTogether(codec, entries, written);
      assert |written| == |es| by {
        SameItemsLength(written, es);
      }
      entries := entries + written;
      ok := true;
    }

    method AppendEntry(e: LogEntry) returns (ok: bool)
      requires open ==> Valid()
      requires Fits(codec, e) && Grown(codec, |file|, [e]) < INT64_LIMIT
      modifies this
      ensures ok == old(open) && open == old(open)
      ensures ok ==> Valid() && Contents() == old(Contents()) + [ItemOf(e)]
      ensures ok ==> |entries| == old(|entries|) + 1 && entries[..old(|entries|)] == old(entries)
      ensures !ok ==> entries == old(entries) && file == old(file) && pos == old(pos)
    {
      ok := AppendEntries([e]);
      assert Items([e]) == [ItemOf(e)];
    }

    /** Deletes the entry with the given index and everything behind it. */
    method Truncate(index: nat) returns (ok: bool)
      requires open ==> Valid()
      modifies this
      ensures ok == old(open && Holds(entries[0].index, |entries|, index)) && open == old(open)
      ensures ok ==> Valid() && entries == old(entries[..Position(entries[0].index, index)]) && |file| <= old(|file|)
      ensures !ok ==> entries == old(entries) && file == old(file) && pos == old(pos)
    {
      if !open {
        return false;
      }
      var contained := Contains(index);
      if !contained {
        return false;
      }
      var logIndex := Position(entries[0].index, index);
      var size := entries[logIndex].offset;
      FilePrefix(codec, entries, logIndex);
      OffsetsOfPrefix(codec, entries, logIndex);
      file := file[..size];
      pos := size;
      entries := entries[..logIndex];
      ok := true;
    }

    /** Replaces the file by one that holds the entries from `index` on, each with its new offset. */
    method Compact(index: nat) returns (ok: bool)
      requires open ==> Valid()
      modifies this
      ensures ok == old(open && Holds(entries[0].index, |entries|, index)) && open == old(open)
      ensures ok ==> Valid() && Contents() == old(Contents()[Position(entries[0].index, index)..])
      ensures !ok ==> entries == old(entries) && file == old(file) && pos == old(pos)
    {
      if !open {
        return false;
      }
      var contained := Contains(index);
      if !contained {
        return false;
      }
      var logIndex := Position(entries[0].index, index);
      GrownFromStart(codec, entries, logIndex, 0);
      Rewrite(entries[logIndex..]);
      ItemsDrop(old(entries), entries, logIndex);
      ok := true;
    }

    /** Writes the entries to a new file, which then takes the place of the old one. */
    method Rewrite(kept: seq<LogEntry>)
      requires open && Sound(codec) && AllFit(codec, kept) && |kept| >= 1 && Grown(codec, 0, kept) < INT64_LIMIT
      modifies this
      ensures Valid() && SameItems(entries, kept)
    {
      hide File, Frame, Fits, OffsetsOK;
      var tmp := new PersistentLog(codec, []);
      NoFile(codec);
      var newEntries := tmp.EncodeEntries(kept, []);
      assert [] + newEntries == newEntries;
      file, pos := tmp.file, |tmp.file|;
      entries := newEntries;
    }

    /** Empties the log; it now starts behind the given index and term. */
    method DiscardEntries(index: nat, term: nat) returns (ok: bool)
      requires open ==> Valid()
      requires index < UINT64 && term < UINT64
      modifies this
      ensures ok == old(open) && open == old(open)
      ensures ok ==> Valid() && Contents() == [Item(index, term, [], NoOp)]
      ensures !ok ==> entries == old(entries) && file == old(file) && pos == old(pos)
    {
      if !open {
        return false;
      }
      GrownByOne(codec, LogEntry(index, term, 0, [], NoOp), 0);
      Rewrite([LogEntry(index, term, 0, [], NoOp)]);
      ok := true;
    }

    method LastTerm() returns (t: nat)
      requires |entries| >= 1
      ensures t == entries[|entries| - 1].term
    {
      t := entries[|entries| - 1].term;
    }

    method LastIndex() returns (i: nat)
      requires |entries| >= 1
      ensures i == entries[|entries| - 1].index
    {
      i := entries[|entries| - 1].index;
    }

    method NextIndex() returns (i: nat)
      requires |entries| >= 1
      ensures i == entries[|entries| - 1].index + 1
    {
      i := entries[|entries| - 1].index + 1;
    }

    method Size() returns (n: nat)
      requires |entries| >= 1
      ensures n == |entries| - 1
    {
      n := |entries| - 1;
    }

    /** Whatever was done to the log since it was opened, closing and reopening it brings back the same entries. */
    method Reopen() returns (ok: bool)
      requires Valid()
      modifies this
      ensures ok && Valid() && entries == old(entries) && file == old(file)
    {
      OffsetsInside(codec, entries);
      FitsIsStored(codec, entries);
      ParseFile(codec, entries);
      Close();
      Open();
      ok := Replay();
    }
  }
}
