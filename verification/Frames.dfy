/** The log file as bytes: every entry is a frame, a four-byte big-endian length followed by the marshalled entry. */
module Frames {
  import opened Entries

  /** An entry as it is stored. `offset` is where its frame starts in the file; it is part of what is marshalled. */
  datatype LogEntry = LogEntry(index: nat, term: nat, offset: nat, data: seq<Byte>, kind: Kind)

  /** The marshalling of entries, which is not part of this model. */
  datatype Codec = Codec(marshal: LogEntry -> seq<Byte>, unmarshal: seq<Byte> -> Option<LogEntry>)

  const INT32_LIMIT: nat := 0x8000_0000

  /** Positions in a file are below this. */
  const INT64_LIMIT: nat := 0x8000_0000_0000_0000

  /** Unsigned 64-bit indices and terms are below this. */
  const UINT64: nat := 0x1_0000_0000_0000_0000

  predicate Storable(e: LogEntry) {
    e.index < UINT64 && e.term < UINT64 && e.offset < INT64_LIMIT
  }

  ghost predicate RoundTrips(c: Codec) {
    forall e :: Storable(e) ==> c.unmarshal(c.marshal(e)) == Some(e)
  }

  /** At whatever offset it is written, the entry is short enough for its length to be a positive int32. */
  ghost predicate Fits(c: Codec, e: LogEntry) {
    e.index < UINT64 && e.term < UINT64 && forall o: nat :: o < INT64_LIMIT ==>
      |c.marshal(e.(offset := o))| < INT32_LIMIT
  }

  ghost predicate AllFit(c: Codec, es: seq<LogEntry>) {
    forall k :: 0 <= k < |es| ==> Fits(c, es[k])
  }

  /** An entry without data can be stored, whatever its index and term. */
  ghost predicate EmptyFits(c: Codec) {
    forall i: nat, t: nat, k: Kind :: i < UINT64 && t < UINT64 ==> Fits(c, LogEntry(i, t, 0, [], k))
  }

  /** A smaller offset does not make an entry longer. */
  ghost predicate Monotone(c: Codec) {
    forall e: LogEntry, o: nat, p: nat :: e.index < UINT64 && e.term < UINT64 && o <= p < INT64_LIMIT ==>
      |c.marshal(e.(offset := o))| <= |c.marshal(e.(offset := p))|
  }

  /** What is asked of the marshalling. */
  ghost predicate Sound(c: Codec) {
    RoundTrips(c) && EmptyFits(c) && Monotone(c)
  }

  function BigEndian(n: nat): (b: seq<Byte>)
    requires n < 0x1_0000_0000
    ensures |b| == 4
  {
    [n / 0x100_0000, n / 0x1_0000 % 0x100, n / 0x100 % 0x100, n % 0x100]
  }

  function FromBigEndian(b: seq<Byte>): nat
    requires |b| == 4
  {
    b[0] as int * 0x100_0000 + b[1] as int * 0x1_0000 + b[2] as int * 0x100 + b[3] as int
  }

  lemma BigEndianRoundTrip(n: nat)
    requires n < 0x1_0000_0000
    ensures FromBigEndian(BigEndian(n)) == n
  {
    var a, b := n / 0x100, n / 0x1_0000;
    assert a / 0x100 == b && b / 0x100 == n / 0x100_0000;
    assert n == a * 0x100 + n % 0x100 && a == b * 0x100 + a % 0x100 && b == (b / 0x100) * 0x100 + b % 0x100;
  }

  ghost function Frame(c: Codec, e: LogEntry): seq<Byte> {
    var m := c.marshal(e);
    if |m| < INT32_LIMIT then BigEndian(|m|) + m else m
  }

  /** The file that holds the entries, in order. */
  ghost function File(c: Codec, es: seq<LogEntry>): seq<Byte> {
    if es == [] then [] else File(c, es[..|es| - 1]) + Frame(c, es[|es| - 1])
  }

  /** What reading one entry finds. */
  datatype Reading = EndOfFile | Broken | Found(entry: LogEntry, rest: seq<Byte>)

  /** Reading one entry: a file that ends before the first length byte, or right after a length, is at its end; anything
      else that is cut short or cannot be unmarshalled is broken. */
  function ReadEntry(c: Codec, bytes: seq<Byte>): Reading {
    if bytes == [] then EndOfFile
    else if |bytes| < 4 then Broken
    else
      var size := FromBigEndian(bytes[..4]);
      var rest := bytes[4..];
      if size >= INT32_LIMIT then Broken
      else if size > 0 && rest == [] then EndOfFile
      else if |rest| < size then Broken
      else match c.unmarshal(rest[..size])
           case None => Broken
           case Some(e) => Found(e, rest[size..])
  }

  lemma ReadShrinks(c: Codec, bytes: seq<Byte>)
    ensures ReadEntry(c, bytes).Found? ==> |ReadEntry(c, bytes).rest| < |bytes|
  {
  }

  /** The entries of a file, or nothing if some entry is broken. */
  function Parse(c: Codec, bytes: seq<Byte>): Option<seq<LogEntry>>
    decreases |bytes|
  {
    match ReadEntry(c, bytes)
    case EndOfFile => Some([])
    case Broken => None
    case Found(e, rest) =>
      ReadShrinks(c, bytes);
      match Parse(c, rest)
      case None => None
      case Some(es) => Some([e] + es)
  }

  lemma ReadFrame(c: Codec, e: LogEntry, rest: seq<Byte>)
    requires RoundTrips(c) && Storable(e) && |c.marshal(e)| < INT32_LIMIT
    ensures ReadEntry(c, Frame(c, e) + rest) == Found(e, rest)
  {
    var m := c.marshal(e);
    var bytes := Frame(c, e) + rest;
    BigEndianRoundTrip(|m|);
    assert bytes[..4] == BigEndian(|m|);
    assert bytes[4..] == m + rest;
    assert (m + rest)[..|m|] == m && (m + rest)[|m|..] == rest;
  }

  lemma FileOfTail(c: Codec, es: seq<LogEntry>)
    requires es != []
    ensures File(c, es) == Frame(c, es[0]) + File(c, es[1..])
    decreases |es|
  {
    hide Frame;
    if |es| == 1 {
      assert es[..0] == [] && es[1..] == [];
    } else {
      FileOfTail(c, es[..|es| - 1]);
      assert es[..|es| - 1][1..] == es[1..][..|es| - 2];
    }
  }

  ghost predicate AllStored(c: Codec, es: seq<LogEntry>) {
    forall k :: 0 <= k < |es| ==> Storable(es[k]) && |c.marshal(es[k])| < INT32_LIMIT
  }

  lemma FitsIsStored(c: Codec, es: seq<LogEntry>)
    requires AllFit(c, es) && forall k :: 0 <= k < |es| ==> es[k].offset < INT64_LIMIT
    ensures AllStored(c, es)
  {
    forall k | 0 <= k < |es| ensures Storable(es[k]) && |c.marshal(es[k])| < INT32_LIMIT {
      assert Fits(c, es[k]) && es[k].(offset := es[k].offset) == es[k];
    }
  }

  lemma ParseFrame(c: Codec, e: LogEntry, rest: seq<Byte>)
    requires RoundTrips(c) && Storable(e) && |c.marshal(e)| < INT32_LIMIT
    ensures Parse(c, Frame(c, e) + rest) == match Parse(c, rest) case None => None case Some(more) => Some([e] + more)
  {
    ReadFrame(c, e, rest);
  }

  /** Parsing the file of some entries, followed by anything, finds those entries first. */
  lemma {:induction false} ParseFileThen(c: Codec, es: seq<LogEntry>, rest: seq<Byte>)
    requires RoundTrips(c) && AllStored(c, es)
    ensures Parse(c, File(c, es) + rest) == match Parse(c, rest) case None => None case Some(more) => Some(es + more)
    decreases |es|
  {
    hide Frame, Parse, RoundTrips;
    if es == [] {
      assert File(c, es) + rest == rest;
      if Parse(c, rest).Some? {
        assert es + Parse(c, rest).value == Parse(c, rest).value;
      }
    } else {
      FileOfTail(c, es);
      var tail := File(c, es[1..]) + rest;
      assert File(c, es) + rest == Frame(c, es[0]) + tail;
      ParseFrame(c, es[0], tail);
      ParseFileThen(c, es[1..], rest);
      if Parse(c, rest).Some? {
        assert [es[0]] + (es[1..] + Parse(c, rest).value) == es + Parse(c, rest).value;
      }
    }
  }

  /** A written file reads back as the entries that were written. */
  lemma ParseFile(c: Codec, es: seq<LogEntry>)
    requires RoundTrips(c) && AllStored(c, es)
    ensures Parse(c, File(c, es)) == Some(es)
  {
    ParseFileThen(c, es, []);
    assert File(c, es) + [] == File(c, es) && es + [] == es;
  }

  /** A frame that was only partly written when the node went down. Replay accepts the file exactly when nothing of the
      frame or exactly its four length bytes were written, and then it finds the entries before it. */
  lemma TornAppend(c: Codec, es: seq<LogEntry>, e: LogEntry, n: nat)
    requires RoundTrips(c) && AllStored(c, es) && |c.marshal(e)| < INT32_LIMIT && n < |Frame(c, e)|
    ensures var p := Parse(c, File(c, es) + Frame(c, e)[..n]);
            && (p.Some? <==> n == 0 || n == 4)
            && (p.Some? ==> p == Some(es))
  {
    var m := c.marshal(e);
    var torn := Frame(c, e)[..n];
    ParseFileThen(c, es, torn);
    assert es + [] == es;
    if n >= 4 {
      BigEndianRoundTrip(|m|);
      assert torn[..4] == BigEndian(|m|);
      assert |torn[4..]| == n - 4 < |m|;
    }
  }

  /** The four bytes that a replay overlooks stay in the file. What is appended after them is then read as the payload
      that the length announced: as soon as the file holds that many bytes, replay fails or finds some other entry. */
  lemma OverlookedLength(c: Codec, es: seq<LogEntry>, e: LogEntry, more: seq<Byte>)
    requires RoundTrips(c) && AllStored(c, es) && 0 < |c.marshal(e)| < INT32_LIMIT && more != []
    ensures var m := |c.marshal(e)|;
            var p := Parse(c, File(c, es) + Frame(c, e)[..4] + more);
            && (|more| < m ==> p.None?)
            && (|more| >= m ==>
                  match c.unmarshal(more[..m])
                  case None => p.None?
                  case Some(x) => p.Some? ==> |p.value| > |es| && p.value[..|es|] == es && p.value[|es|] == x)
  {
    var m := c.marshal(e);
    var rest := Frame(c, e)[..4] + more;
    assert File(c, es) + Frame(c, e)[..4] + more == File(c, es) + rest;
    ParseFileThen(c, es, rest);
    BigEndianRoundTrip(|m|);
    assert rest[..4] == BigEndian(|m|) && rest[4..] == more;
  }
}
