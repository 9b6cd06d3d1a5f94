/** The first start of a node: from an empty file to the node that the cluster starts from. It shows that what is
    asked of the marshalling, of the log and of the node can be met. */
module FirstStart {
  import opened Entries
  import opened Protocol
  import opened Cluster
  import opened Frames
  import opened Storage
  import opened LogView
  import opened RaftNode

  const UINT32: nat := 0x1_0000_0000

  function Wide(n: nat): (b: seq<Byte>)
    requires n < UINT64
    ensures |b| == 8
  {
    BigEndian(n / UINT32) + BigEndian(n % UINT32)
  }

  function FromWide(b: seq<Byte>): nat
    requires |b| == 8
  {
    FromBigEndian(b[..4]) * UINT32 + FromBigEndian(b[4..])
  }

  lemma WideRoundTrip(n: nat)
    requires n < UINT64
    ensures FromWide(Wide(n)) == n
  {
    BigEndianRoundTrip(n / UINT32);
    BigEndianRoundTrip(n % UINT32);
    assert Wide(n)[..4] == BigEndian(n / UINT32) && Wide(n)[4..] == BigEndian(n % UINT32);
  }

  function KindByte(k: Kind): Byte {
    match k case NoOp => 0 case Operation => 1 case Configuration => 2
  }

  /** Index, term and offset in eight bytes each, one byte for the kind, and then the data. */
  function Marshal(e: LogEntry): seq<Byte> {
    if Storable(e) then Wide(e.index) + Wide(e.term) + Wide(e.offset) + [KindByte(e.kind)] + e.data else []
  }

  function Unmarshal(b: seq<Byte>): Option<LogEntry> {
    if |b| < 25 || b[24] > 2 then None
    else
      var kind := if b[24] == 0 then NoOp else if b[24] == 1 then Operation else Configuration;
      Some(LogEntry(FromWide(b[..8]), FromWide(b[8..16]), FromWide(b[16..24]), b[25..], kind))
  }

  const FixedWidth: Codec := Codec(Marshal, Unmarshal)

  lemma MarshalRoundTrip(e: LogEntry)
    requires Storable(e)
    ensures Unmarshal(Marshal(e)) == Some(e)
  {
    hide Wide, FromWide;
    var b := Marshal(e);
    WideRoundTrip(e.index);
    WideRoundTrip(e.term);
    WideRoundTrip(e.offset);
    assert b[..8] == Wide(e.index) && b[8..16] == Wide(e.term) && b[16..24] == Wide(e.offset);
    assert b[24] == KindByte(e.kind) && b[25..] == e.data;
  }

  lemma ShortFits(e: LogEntry)
    requires e.index < UINT64 && e.term < UINT64 && |e.data| + 25 < INT32_LIMIT
    ensures Fits(FixedWidth, e)
  {
  }

  /** There is a marshalling that meets every demand. */
  lemma FixedWidthIsSound()
    ensures Sound(FixedWidth)
  {
    hide Wide, Fits;
    forall e | Storable(e) ensures FixedWidth.unmarshal(FixedWidth.marshal(e)) == Some(e) {
      MarshalRoundTrip(e);
    }
    forall i: nat, t: nat, k: Kind | i < UINT64 && t < UINT64 ensures Fits(FixedWidth, LogEntry(i, t, 0, [], k)) {
      ShortFits(LogEntry(i, t, 0, [], k));
    }
  }

  /** Opens and replays an empty log file. */
  method OpenEmptyLog() returns (log: PersistentLog)
    ensures fresh(log) && log.Valid() && log.codec == FixedWidth && log.entries == [Placeholder]
    ensures |log.file| < INT32_LIMIT + 4
  {
    hide Marshal, Unmarshal, Fits, File, Frame, OffsetsOK, Sound;
    FixedWidthIsSound();
    ShortFits(Placeholder);
    log := new PersistentLog(FixedWidth, []);
    log.Open();
    var ok := log.Replay();
    FileOfPlaceholder(log);
  }

  lemma FileOfPlaceholder(log: PersistentLog)
    requires log.Valid() && log.entries == [Placeholder]
    ensures |log.file| < INT32_LIMIT + 4
  {
    assert Fits(log.codec, log.entries[0]);
    OnlyEntry(log.codec, Placeholder);
    GrownByOne(log.codec, Placeholder, 0);
    assert Placeholder.(offset := 0) == Placeholder;
  }

  /** A node that opens an empty log file and is bootstrapped is valid, and is the node that every run starts from. */
  method StartNode(id: Id, members: set<Id>, voters: set<Id>, data: seq<Byte>) returns (r: Raft)
    requires |data| + 25 < INT32_LIMIT
    ensures fresh(r) && fresh(r.log) && r.Valid() && r.InOrder() && r.log.codec == FixedWidth
    ensures r.id == id && r.members == members && r.voters == voters
    ensures r.Abs() == InitialNode(Entry(1, Configuration, data))
  {
    hide PersistentLog.Valid, Marshal, Unmarshal, Fits, Represents, Raft.Valid;
    var log := OpenEmptyLog();
    OnlyPlaceholder(0, 0, []);
    assert log.Contents() == [Item(0, 0, [], NoOp)];
    r := new Raft(id, members, voters, log, [], TermAndVote(0, ""));
    var entry := LogEntry(1, 1, 0, data, Configuration);
    ShortFits(entry);
    GrownByOne(FixedWidth, entry, |log.file|);
    var ok := r.Bootstrap(data);
  }
}
