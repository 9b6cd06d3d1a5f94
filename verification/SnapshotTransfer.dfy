/** Sending snapshot files from a leader to a follower, over a network that loses, delays, duplicates and reorders,
    and with resets, restarts and new terms at either end. */
module SnapshotTransfer {
  import opened Entries
  import opened Frames

  /** A request is the last one when it carries less than this. */
  const CHUNK: nat := 32768

  /** The content of the snapshot with a given last included index. */
  type Files = nat -> seq<Byte>

  datatype Snapshot = Snapshot(index: nat, bytes: seq<Byte>)

  datatype Chunk = Chunk(term: nat, index: nat, offset: nat, bytes: seq<Byte>, done: bool)

  /** The reply, together with what its sender remembers of the request. */
  datatype Reply = Reply(requestTerm: nat, index: nat, offset: nat, done: bool, term: nat, bytesWritten: nat)

  datatype Handle = Handle(index: nat, pos: nat)

  /** The leader's side: its term, the file it has open for the follower, and the follower's match index. */
  datatype Sending = Sending(leading: bool, term: nat, open: Option<Handle>, matchIndex: nat)

  /** The follower's side: its term, the unfinished file, the installed one, and the index up to which it has
      everything. */
  datatype Receiving = Receiving(term: nat, partial: Option<Snapshot>, installed: Option<Snapshot>, covers: nat)

  function Rest(file: seq<Byte>, at: nat): seq<Byte> {
    if at <= |file| then file[at..] else []
  }

  /** The rest of the file from the current position on; the position moves to the end. Without an open file, the latest
      snapshot is opened. */
  function Send(files: Files, s: Sending, latest: nat): (Sending, Chunk) {
    var h := if s.open.Some? then s.open.value else Handle(latest, 0);
    var bytes := Rest(files(h.index), h.pos);
    (s.(open := Some(Handle(h.index, h.pos + |bytes|))), Chunk(s.term, h.index, h.pos, bytes, |bytes| < CHUNK))
  }

  function ReplyTo(c: Chunk, term: nat, bytesWritten: nat): Reply {
    Reply(c.term, c.index, c.offset, c.done, term, bytesWritten)
  }

  /** The unfinished file a chunk goes to: one for an older snapshot is discarded. */
  function Unfinished(r: Receiving, c: Chunk): Snapshot {
    if r.partial.Some? && r.partial.value.index >= c.index then r.partial.value else Snapshot(c.index, [])
  }

  function Receive(r: Receiving, c: Chunk): (Receiving, Reply) {
    if r.term > c.term then (r, ReplyTo(c, r.term, 0))
    else
      var r1 := if r.term < c.term then r.(term := c.term, partial := None) else r;
      if r1.covers >= c.index then (r1, ReplyTo(c, c.term, 0))
      else
        var p := Unfinished(r1, c);
        if c.offset != |p.bytes| then (r1.(partial := Some(p)), ReplyTo(c, c.term, |p.bytes|))
        else
          var written := Snapshot(p.index, p.bytes + c.bytes);
          (if c.done then r1.(partial := None, installed := Some(written), covers := c.index)
           else r1.(partial := Some(written)),
           ReplyTo(c, c.term, |written.bytes|))
  }

  /** The reply that makes the leader advance the follower's match index. */
  predicate Acknowledges(y: Reply) {
    y.bytesWritten == y.offset && y.done
  }

  function OnReply(s: Sending, y: Reply): Sending {
    if s.open.None? then s
    else if y.term > s.term then s.(leading := false, term := y.term, open := None)
    else if y.bytesWritten != y.offset then s.(open := Some(s.open.value.(pos := y.bytesWritten)))
    else if !y.done then s
    else s.(open := None, matchIndex := y.index)
  }

  // --- the handlers as the program runs them ---

  class Sender {
    const files: Files
    var leading: bool
    var term: nat
    var open: Option<Handle>
    var matchIndex: nat

    constructor (files: Files)
      ensures this.files == files && State() == Sending(false, 0, None, 0)
    {
      this.files, leading, term, open, matchIndex := files, false, 0, None, 0;
    }

    ghost function State(): Sending
      reads this
    {
      Sending(leading, term, open, matchIndex)
    }

    /** Copies what is left of the file, byte by byte, into a request. */
    method NextChunk(latest: nat) returns (c: Chunk)
      requires leading
      modifies this`open
      ensures (State(), c) == Send(files, old(State()), latest)
    {
      if open.None? {
        open := Some(Handle(latest, 0));
      }
      var index, offset := open.value.index, open.value.pos;
      var file := files(index);
      var bytes, pos := [], offset;
      while pos < |file|
        invariant offset <= pos && (offset <= |file| ==> pos <= |file|) && (offset > |file| ==> pos == offset)
        invariant bytes == if offset <= |file| then file[offset..pos] else []
      {
        bytes := bytes + [file[pos]];
        pos := pos + 1;
      }
      open := Some(Handle(index, pos));
      assert offset <= |file| ==> bytes == file[offset..];
      c := Chunk(term, index, offset, bytes, |bytes| < CHUNK);
    }

    method HandleReply(y: Reply)
      modifies this
      ensures State() == OnReply(old(State()), y)
    {
      if open.None? {
        return;
      }
      if y.term > term {
        leading, term, open := false, y.term, None;
        return;
      }
      if y.bytesWritten != y.offset {
        open := Some(open.value.(pos := y.bytesWritten));
        return;
      }
      if !y.done {
        return;
      }
      open := None;
      matchIndex := y.index;
    }
  }

  class Receiver {
    var term: nat
    var partial: Option<Snapshot>
    var installed: Option<Snapshot>
    var covers: nat

    constructor ()
      ensures State() == Receiving(0, None, None, 0)
    {
      term, partial, installed, covers := 0, None, None, 0;
    }

    ghost function State(): Receiving
      reads this
    {
      Receiving(term, partial, installed, covers)
    }

    method HandleChunk(c: Chunk) returns (y: Reply)
      modifies this
      ensures (State(), y) == Receive(old(State()), c)
    {
      y := ReplyTo(c, term, 0);
      if term > c.term {
        return;
      }
      if term < c.term {
        term, partial := c.term, None;
        y := ReplyTo(c, term, 0);
      }
      if covers >= c.index {
        return;
      }
      if partial.Some? && partial.value.index < c.index {
        partial := None;
      }
      if partial.None? {
        partial := Some(Snapshot(c.index, []));
      }
      var offset := |partial.value.bytes|;
      y := ReplyTo(c, term, offset);
      if c.offset != offset {
        return;
      }
      partial := Some(Snapshot(partial.value.index, partial.value.bytes + c.bytes));
      y := ReplyTo(c, term, offset + |c.bytes|);
      if !c.done {
        return;
      }
      installed, partial, covers := partial, None, c.index;
    }
  }

  // --- one chunk ---

  ghost predicate ChunkOK(files: Files, c: Chunk) {
    c.bytes == Rest(files(c.index), c.offset)
  }

  /** The unfinished file is a prefix of the leader's, and the installed file is the leader's byte for byte. */
  ghost predicate FilesOK(files: Files, r: Receiving) {
    && (r.partial.Some? ==> r.partial.value.bytes <= files(r.partial.value.index))
    && (r.installed.Some? ==> r.installed.value.bytes == files(r.installed.value.index))
  }

  /** A chunk of an older snapshot goes to the unfinished file of a newer one. */
  ghost predicate Misdirected(r: Receiving, c: Chunk) {
    && c.term == r.term && r.covers < c.index
    && r.partial.Some? && c.index < r.partial.value.index && c.offset == |r.partial.value.bytes|
  }

  /** From the chunk's offset on, the newer file goes on as the older one does. */
  ghost predicate GoesOnAlike(files: Files, newer: nat, c: Chunk) {
    var older, rest := Rest(files(c.index), c.offset), Rest(files(newer), c.offset);
    if c.done then older == rest else older <= rest
  }

  lemma Joins(file: seq<Byte>, bytes: seq<Byte>, more: seq<Byte>)
    requires bytes <= file
    ensures (bytes + more <= file) <==> more <= file[|bytes|..]
    ensures bytes + more == file <==> more == file[|bytes|..]
  {
    assert file == bytes + file[|bytes|..];
    if more <= file[|bytes|..] {
      assert file[|bytes|..] == more + file[|bytes|..][|more|..];
      assert file == (bytes + more) + file[|bytes|..][|more|..];
    }
    if bytes + more <= file {
      assert file == (bytes + more) + file[|bytes + more|..];
      assert file[|bytes|..] == more + file[|bytes + more|..];
    }
  }

  /** One chunk, exactly: the follower's files stay right if and only if the chunk does not go to the unfinished file
      of a newer snapshot, or that file happens to go on as the chunk does. */
  lemma ChunkKeepsExactly(files: Files, r: Receiving, c: Chunk)
    requires ChunkOK(files, c) && FilesOK(files, r)
    ensures FilesOK(files, Receive(r, c).0) <==>
            (Misdirected(r, c) ==> GoesOnAlike(files, r.partial.value.index, c))
  {
    var r1 := if r.term < c.term then r.(term := c.term, partial := None) else r;
    if r.term <= c.term && r1.covers < c.index {
      var p := Unfinished(r1, c);
      if c.offset == |p.bytes| {
        Joins(files(p.index), p.bytes, c.bytes);
      }
    }
  }

  /** A reply of the follower's own term that makes the leader advance means that the follower has everything up to the
      snapshot's index. */
  lemma AcknowledgedIsCovered(r: Receiving, c: Chunk)
    ensures var (r', y) := Receive(r, c);
            && y.index == c.index && y.requestTerm == c.term && y.requestTerm <= y.term && r.covers <= r'.covers
            && (Acknowledges(y) && y.term == y.requestTerm ==> r'.covers >= y.index)
  {
  }

  // --- all runs ---

  datatype State = State(
    sender: Sending, receiver: Receiving, chunks: set<Chunk>, replies: set<Reply>,
    hasCovered: nat)              // history: the highest index the follower has ever covered

  datatype Event =
    | SendChunk(latest: nat)
    | ReceiveChunk(c: Chunk)
    | ReceiveReply(y: Reply)
    | Lead(term: nat)             // the leader's node is elected in a later term
    | StepDown(term: nat)         // it hears of a later term
    | Follow(term: nat)           // the follower steps down, in its term or in a later one
    | Restart                     // the follower restarts and covers no more than it has installed
    | CatchUp(index: nat)         // the follower comes to cover an index by replication

  ghost predicate Enabled(s: State, e: Event) {
    match e
    case SendChunk(_) => s.sender.leading
    case ReceiveChunk(c) => c in s.chunks
    case ReceiveReply(y) => y in s.replies
    case Lead(term) => term > s.sender.term
    case StepDown(term) => term >= s.sender.term
    case Follow(term) => term >= s.receiver.term
    case _ => true
  }

  ghost function Next(files: Files, s: State, e: Event): State
    requires Enabled(s, e)
  {
    match e
    case SendChunk(latest) => var (sender, c) := Send(files, s.sender, latest); s.(sender := sender,
      chunks := s.chunks + {c})
    case ReceiveChunk(c) =>
      var (receiver, y) := Receive(s.receiver, c);
      s.(receiver := receiver, replies := s.replies + {y}, hasCovered := Higher(s.hasCovered, receiver.covers))
    case ReceiveReply(y) => s.(sender := OnReply(s.sender, y))
    case Lead(term) => s.(sender := Sending(true, term, None, 0))
    case StepDown(term) => s.(sender := s.sender.(leading := false, term := term, open := None))
    case Follow(term) => s.(receiver := s.receiver.(term := term, partial := None))
    case Restart =>
      var installed := s.receiver.installed;
      s.(receiver := s.receiver.(partial := None,
        covers := if installed.Some? then Lower(installed.value.index, s.receiver.covers) else 0))
    case CatchUp(index) =>
      s.(receiver := s.receiver.(covers := Higher(s.receiver.covers, index)), hasCovered := Higher(s.hasCovered, index))
  }

  function Higher(a: nat, b: nat): nat {
    if a >= b then a else b
  }

  function Lower(a: nat, b: nat): nat {
    if a <= b then a else b
  }

  const Start: State := State(Sending(false, 0, None, 0), Receiving(0, None, None, 0), {}, {}, 0)

  /** Assumption A3 for snapshot replies. */
  ghost predicate ReplyIsCurrent(s: State, e: Event) {
    e.ReceiveReply? && s.sender.open.Some? && e.y.term <= s.sender.term ==> e.y.requestTerm == s.sender.term
  }

  /** No chunk of an older snapshot arrives while the file of a newer one is unfinished at just that length. */
  ghost predicate WellDirected(s: State, e: Event) {
    e.ReceiveChunk? ==> !Misdirected(s.receiver, e.c)
  }

  ghost predicate Run(files: Files, states: seq<State>, events: seq<Event>) {
    && |states| == |events| + 1 && states[0] == Start
    && forall k :: 0 <= k < |events| ==>
         Enabled(states[k], events[k]) && states[k + 1] == Next(files, states[k], events[k])
  }

  ghost predicate AllCurrent(states: seq<State>, events: seq<Event>) {
    |events| < |states| && forall k :: 0 <= k < |events| ==> ReplyIsCurrent(states[k], events[k])
  }

  ghost predicate AllDirected(states: seq<State>, events: seq<Event>) {
    |events| < |states| && forall k :: 0 <= k < |events| ==> WellDirected(states[k], events[k])
  }

  ghost predicate BytesOK(files: Files, s: State) {
    FilesOK(files, s.receiver) && forall c :: c in s.chunks ==> ChunkOK(files, c)
  }

  lemma StepKeepsBytes(files: Files, s: State, e: Event)
    requires BytesOK(files, s) && Enabled(s, e) && WellDirected(s, e)
    ensures BytesOK(files, Next(files, s, e))
  {
    hide Receive, OnReply, GoesOnAlike;
    if e.ReceiveChunk? {
      ChunkKeepsExactly(files, s.receiver, e.c);
    }
  }

  /** In every run in which no chunk is misdirected, whatever is lost, delayed, duplicated or reset, an unfinished
      file is a prefix of the leader's file and an installed file is the leader's file byte for byte. */
  lemma {:induction false} TransferIntegrity(files: Files, states: seq<State>, events: seq<Event>, k: nat)
    requires Run(files, states, events) && AllDirected(states, events) && k < |states|
    ensures FilesOK(files, states[k].receiver) && forall c :: c in states[k].chunks ==> ChunkOK(files, c)
    decreases k
  {
    if k > 0 {
      TransferIntegrity(files, states, events, k - 1);
      StepKeepsBytes(files, states[k - 1], events[k - 1]);
    }
  }

  /** Every chunk carries all the rest of its file, and is marked as the last one when that is short. */
  ghost predicate ChunkWhole(files: Files, c: Chunk) {
    ChunkOK(files, c) && (c.done <==> |c.bytes| < CHUNK)
  }

  /** An unfinished file is empty or already the whole file, with only the mark of the last chunk missing. */
  ghost predicate WholeOrEmpty(files: Files, r: Receiving) {
    r.partial.Some? ==>
      var p := r.partial.value;
      p.bytes == [] || (p.bytes == files(p.index) && |files(p.index)| >= CHUNK)
  }

  lemma ChunkKeepsWhole(files: Files, r: Receiving, c: Chunk)
    requires ChunkWhole(files, c) && FilesOK(files, r) && WholeOrEmpty(files, r) && !Misdirected(r, c)
    ensures WholeOrEmpty(files, Receive(r, c).0)
  {
    var r1 := if r.term < c.term then r.(term := c.term, partial := None) else r;
    if r.term <= c.term && r1.covers < c.index {
      var p := Unfinished(r1, c);
      if c.offset == |p.bytes| {
        Joins(files(p.index), p.bytes, c.bytes);
      }
    }
  }

  lemma StepKeepsWhole(files: Files, s: State, e: Event)
    requires BytesOK(files, s) && Enabled(s, e) && WellDirected(s, e)
    requires WholeOrEmpty(files, s.receiver) && forall c :: c in s.chunks ==> ChunkWhole(files, c)
    ensures var t := Next(files, s, e);
            WholeOrEmpty(files, t.receiver) && forall c :: c in t.chunks ==> ChunkWhole(files, c)
  {
    hide Receive, OnReply, FilesOK;
    if e.ReceiveChunk? {
      ChunkKeepsWhole(files, s.receiver, e.c);
    }
  }

  /** In every run in which no chunk is misdirected, an unfinished file lacks either everything or only the mark of the
      last chunk, so that an interrupted transfer is always one that TransferCompletes speaks of. */
  lemma {:induction false} UnfinishedIsWholeOrEmpty(files: Files, states: seq<State>, events: seq<Event>, k: nat)
    requires Run(files, states, events) && AllDirected(states, events) && k < |states|
    ensures WholeOrEmpty(files, states[k].receiver) && forall c :: c in states[k].chunks ==> ChunkWhole(files, c)
    decreases k
  {
    if k > 0 {
      TransferIntegrity(files, states, events, k - 1);
      UnfinishedIsWholeOrEmpty(files, states, events, k - 1);
      StepKeepsWhole(files, states[k - 1], events[k - 1]);
    }
  }

  ghost predicate CoverageOK(s: State) {
    && s.sender.matchIndex <= s.hasCovered && s.receiver.covers <= s.hasCovered
    && forall y :: y in s.replies ==>
         y.requestTerm <= y.term && (Acknowledges(y) && y.term == y.requestTerm ==> y.index <= s.hasCovered)
  }

  lemma StepKeepsCoverage(files: Files, s: State, e: Event)
    requires CoverageOK(s) && Enabled(s, e) && ReplyIsCurrent(s, e)
    ensures CoverageOK(Next(files, s, e))
  {
    hide Receive, Rest;
    if e.ReceiveChunk? {
      AcknowledgedIsCovered(s.receiver, e.c);
    }
  }

  /** In every run that obeys A3, the leader's match index for the follower is never above what the follower has
      covered. */
  lemma {:induction false} MatchedIsCovered(files: Files, states: seq<State>, events: seq<Event>, k: nat)
    requires Run(files, states, events) && AllCurrent(states, events) && k < |states|
    ensures CoverageOK(states[k])
    decreases k
  {
    if k > 0 {
      MatchedIsCovered(files, states, events, k - 1);
      StepKeepsCoverage(files, states[k - 1], events[k - 1]);
    }
  }

  // --- where the assumptions are needed ---

  /** A run and the state it ends in. */
  datatype Trace = Trace(states: seq<State>, events: seq<Event>) {
    ghost predicate Of(files: Files, end: State) {
      Run(files, states, events) && states[|events|] == end
    }
  }

  lemma Extended(files: Files, r: Trace, s: State, e: Event) returns (r': Trace)
    requires r.Of(files, s) && Enabled(s, e)
    ensures r'.Of(files, Next(files, s, e))
    ensures AllCurrent(r.states, r.events) && ReplyIsCurrent(s, e) ==> AllCurrent(r'.states, r'.events)
    ensures AllDirected(r.states, r.events) && WellDirected(s, e) ==> AllDirected(r'.states, r'.events)
  {
    hide Next, ReplyIsCurrent, WellDirected;
    r' := Trace(r.states + [Next(files, s, e)], r.events + [e]);
  }

  const NothingYet: Trace := Trace([Start], [])

  /** Two snapshots of one byte each. */
  function TwoFiles(index: nat): seq<Byte> {
    if index == 1 then [7] else [8]
  }

  const OldChunk: Chunk := Chunk(1, 1, 0, [7], true)

  /** The follower got snapshot 1 by replication, the leader knows it, the follower restarts, and the chunk is still
      on its way. */
  lemma OldChunkUnderWay() returns (r: Trace, s: State)
    ensures r.Of(TwoFiles, s) && AllCurrent(r.states, r.events)
    ensures s.sender == Sending(true, 1, None, 1) && s.receiver == Receiving(1, None, None, 0) && OldChunk in s.chunks
  {
    var s1 := Next(TwoFiles, Start, Lead(1));
    r := Extended(TwoFiles, NothingYet, Start, Lead(1));
    var s2 := Next(TwoFiles, s1, CatchUp(1));
    r := Extended(TwoFiles, r, s1, CatchUp(1));
    var s3 := Next(TwoFiles, s2, SendChunk(1));
    r := Extended(TwoFiles, r, s2, SendChunk(1));
    assert OldChunk in s3.chunks;
    var s4 := Next(TwoFiles, s3, ReceiveChunk(OldChunk));
    r := Extended(TwoFiles, r, s3, ReceiveChunk(OldChunk));
    var y := Reply(1, 1, 0, true, 1, 0);
    assert y in s4.replies;
    var s5 := Next(TwoFiles, s4, ReceiveReply(y));
    r := Extended(TwoFiles, r, s4, ReceiveReply(y));
    s := Next(TwoFiles, s5, Restart);
    r := Extended(TwoFiles, r, s5, Restart);
  }

  /** Without the condition on chunks: a chunk of an older snapshot is written to the unfinished file of a newer one,
      which is then installed with the wrong content. */
  lemma OldChunkSpoilsFile() returns (r: Trace, s: State)
    ensures r.Of(TwoFiles, s) && AllCurrent(r.states, r.events)
    ensures s.receiver.installed == Some(Snapshot(2, [7])) && !FilesOK(TwoFiles, s.receiver)
  {
    hide Run, AllCurrent;
    var s1;
    r, s1 := OldChunkUnderWay();
    var s2 := Next(TwoFiles, s1, SendChunk(2));
    r := Extended(TwoFiles, r, s1, SendChunk(2));
    assert s2.sender.open == Some(Handle(2, 1));
    var s3 := Next(TwoFiles, s2, SendChunk(2));
    r := Extended(TwoFiles, r, s2, SendChunk(2));
    var late := Chunk(1, 2, 1, [], true);
    assert late in s3.chunks && OldChunk in s3.chunks;
    var s4 := Next(TwoFiles, s3, ReceiveChunk(late));
    r := Extended(TwoFiles, r, s3, ReceiveChunk(late));
    assert s4.receiver.partial == Some(Snapshot(2, []));
    s := Next(TwoFiles, s4, ReceiveChunk(OldChunk));
    r := Extended(TwoFiles, r, s4, ReceiveChunk(OldChunk));
    assert [] + [7] == [7];
  }

  /** Without A3: the follower refuses a chunk of an older term, and the refusal reaches the leader's node when it leads
      again in a still later term. It counts as a success. */
  lemma RefusalCountsAsSuccess() returns (r: Trace, s: State)
    ensures r.Of(TwoFiles, s) && AllDirected(r.states, r.events)
    ensures s.sender.leading && s.sender.matchIndex == 1 && s.hasCovered == 0
  {
    var s1 := Next(TwoFiles, Start, Lead(1));
    r := Extended(TwoFiles, NothingYet, Start, Lead(1));
    var s2 := Next(TwoFiles, s1, SendChunk(1));
    r := Extended(TwoFiles, r, s1, SendChunk(1));
    var s3 := Next(TwoFiles, s2, Follow(2));
    r := Extended(TwoFiles, r, s2, Follow(2));
    assert OldChunk in s3.chunks;
    var s4 := Next(TwoFiles, s3, ReceiveChunk(OldChunk));
    r := Extended(TwoFiles, r, s3, ReceiveChunk(OldChunk));
    var s5 := Next(TwoFiles, s4, Lead(3));
    r := Extended(TwoFiles, r, s4, Lead(3));
    var s6 := Next(TwoFiles, s5, SendChunk(1));
    r := Extended(TwoFiles, r, s5, SendChunk(1));
    var y := Reply(1, 1, 0, true, 2, 0);
    assert y in s6.replies;
    s := Next(TwoFiles, s6, ReceiveReply(y));
    r := Extended(TwoFiles, r, s6, ReceiveReply(y));
  }

  // --- one exchange after another, without faults ---

  /** A chunk is sent, the follower answers, the leader handles the answer. */
  function Transmit(files: Files, latest: nat, s: Sending, r: Receiving): (Sending, Receiving) {
    var (s1, c) := Send(files, s, latest);
    var (r1, y) := Receive(r, c);
    (OnReply(s1, y), r1)
  }

  /** At most `n` exchanges, until the leader knows that the follower has the snapshot. */
  function Transmissions(files: Files, latest: nat, s: Sending, r: Receiving, n: nat): (Sending, Receiving)
    decreases n
  {
    if n == 0 || s.matchIndex >= latest then (s, r)
    else
      var (s1, r1) := Transmit(files, latest, s, r);
      Transmissions(files, latest, s1, r1, n - 1)
  }

  /** The two ends before an exchange for the snapshot with index `latest`. */
  ghost predicate Ready(files: Files, latest: nat, s: Sending, r: Receiving) {
    && r.term <= s.term && s.matchIndex < latest
    && (s.open.Some? ==> s.open.value.index == latest && s.open.value.pos <= |files(latest)|)
  }

  /** Every exchange brings the two to the later of their terms, and a leader of an earlier term no longer leads. */
  lemma TermsMeet(files: Files, latest: nat, s: Sending, r: Receiving)
    ensures var (s', r') := Transmit(files, latest, s, r);
            && s'.term == r'.term == Higher(s.term, r.term)
            && (r.term > s.term ==> !s'.leading && s'.open.None? && s'.matchIndex == s.matchIndex && r' == r)
            && (r.term <= s.term ==> s'.leading == s.leading)
  {
  }

  /** The unfinished file that the follower goes on with in the leader's term. */
  function Begun(s: Sending, r: Receiving, latest: nat): seq<Byte> {
    if r.term == s.term && r.partial.Some? && r.partial.value.index == latest then r.partial.value.bytes else []
  }

  /** A transfer that was interrupted: the leader stands anywhere in its file; the follower has nothing of it, or all
      but the mark of the last chunk. */
  ghost predicate Interrupted(files: Files, latest: nat, s: Sending, r: Receiving) {
    && r.term <= s.term && s.matchIndex < latest && r.covers < latest
    && (s.open.Some? ==> s.open.value.index == latest)
    && (r.term == s.term && r.partial.Some? ==> r.partial.value.index <= latest)
    && (Begun(s, r, latest) == [] || (Begun(s, r, latest) == files(latest) && |files(latest)| >= CHUNK))
  }

  function Position(s: Sending): nat {
    if s.open.Some? then s.open.value.pos else 0
  }

  ghost predicate Installed(files: Files, latest: nat, s: Sending, r: Receiving) {
    s.matchIndex == latest && r.installed == Some(Snapshot(latest, files(latest))) && r.covers == latest
  }

  /** Where the two do not stand at the same place, the leader goes where the follower is. */
  lemma Resynchronised(files: Files, latest: nat, s: Sending, r: Receiving)
    requires Interrupted(files, latest, s, r) && Position(s) != |Begun(s, r, latest)|
    ensures var (s', r') := Transmit(files, latest, s, r);
            && Interrupted(files, latest, s', r') && Begun(s', r', latest) == Begun(s, r, latest)
            && Position(s') == |Begun(s, r, latest)|
  {
    hide Rest;
  }

  lemma FinishesWhole(files: Files, latest: nat, s: Sending, r: Receiving)
    requires Interrupted(files, latest, s, r) && Begun(s, r, latest) != []
    requires Position(s) == |files(latest)|
    ensures var (s', r') := Transmit(files, latest, s, r); Installed(files, latest, s', r')
  {
    var file := files(latest);
    assert file[|file|..] == [] && file + [] == file;
  }

  /** The follower has installed a short file, but the leader has not heard of it. */
  ghost predicate Unheard(files: Files, latest: nat, s: Sending, r: Receiving) {
    && r.installed == Some(Snapshot(latest, files(latest))) && r.covers == latest && r.term == s.term
    && s.open.Some? && s.open.value.index == latest && s.matchIndex < latest && 0 < |files(latest)| < CHUNK
  }

  lemma FirstExchange(files: Files, latest: nat, s: Sending, r: Receiving)
    requires Interrupted(files, latest, s, r) && Begun(s, r, latest) == [] && Position(s) == 0
    ensures var (s', r') := Transmit(files, latest, s, r);
            var file := files(latest);
            if file == [] then Installed(files, latest, s', r')
            else if |file| < CHUNK then Unheard(files, latest, s', r') && Position(s') == |file|
            else Interrupted(files, latest, s', r') && Begun(s', r', latest) == file && Position(s') == |file|
  {
    var file := files(latest);
    assert file[0..] == file && [] + file == file;
  }

  lemma HearsAtLast(files: Files, latest: nat, s: Sending, r: Receiving)
    requires Unheard(files, latest, s, r)
    ensures var (s', r') := Transmit(files, latest, s, r);
            if Position(s) == 0 then Installed(files, latest, s', r')
            else Unheard(files, latest, s', r') && Position(s') == 0
  {
  }

  lemma FinishesFromStart(files: Files, latest: nat, s: Sending, r: Receiving)
    requires Interrupted(files, latest, s, r) && Begun(s, r, latest) == [] && Position(s) == 0
    ensures var (s', r') := Transmissions(files, latest, s, r, 3); Installed(files, latest, s', r')
  {
    hide Transmit, Begun, Position, Installed, Transmissions, Rest;
    InstalledIsMatched(files, latest);
    FirstExchange(files, latest, s, r);
    FirstTransmission(files, latest, s, r, 3);
    var (s1, r1) := Transmit(files, latest, s, r);
    NoneNeeded(files, latest, s1, r1, 2);
    if files(latest) != [] {
      FirstTransmission(files, latest, s1, r1, 2);
      var (s2, r2) := Transmit(files, latest, s1, r1);
      NoneNeeded(files, latest, s2, r2, 1);
      if |files(latest)| < CHUNK {
        HearsAtLast(files, latest, s1, r1);
        HearsAtLast(files, latest, s2, r2);
        FirstTransmission(files, latest, s2, r2, 1);
        var (s3, r3) := Transmit(files, latest, s2, r2);
        NoTransmission(files, latest, s3, r3);
      } else {
        FinishesWhole(files, latest, s1, r1);
      }
    }
  }

  lemma NoTransmission(files: Files, latest: nat, s: Sending, r: Receiving)
    ensures Transmissions(files, latest, s, r, 0) == (s, r)
  {
  }

  lemma FirstTransmission(files: Files, latest: nat, s: Sending, r: Receiving, n: nat)
    requires s.matchIndex < latest && n > 0
    ensures var (s', r') := Transmit(files, latest, s, r);
            Transmissions(files, latest, s, r, n) == Transmissions(files, latest, s', r', n - 1)
  {
  }

  lemma NoneNeeded(files: Files, latest: nat, s: Sending, r: Receiving, n: nat)
    ensures s.matchIndex >= latest ==> Transmissions(files, latest, s, r, n) == (s, r)
  {
  }

  /** A transfer without faults takes at most three exchanges from the start, and at most four from wherever it was
      interrupted. */
  lemma TransferCompletes(files: Files, latest: nat, s0: Sending, r0: Receiving)
    requires Interrupted(files, latest, s0, r0)
    ensures var (s, r) := Transmissions(files, latest, s0, r0, 4); Installed(files, latest, s, r)
    ensures Begun(s0, r0, latest) == [] && Position(s0) == 0 ==>
              var (s, r) := Transmissions(files, latest, s0, r0, 3); Installed(files, latest, s, r)
  {
    hide Transmit, Begun, Position, Installed, Transmissions;
    InstalledIsMatched(files, latest);
    if Begun(s0, r0, latest) == [] && Position(s0) == 0 {
      FinishesFromStart(files, latest, s0, r0);
      MoreTransmissions(files, latest, s0, r0, 3);
    } else {
      FirstTransmission(files, latest, s0, r0, 4);
      var (s1, r1) := Transmit(files, latest, s0, r0);
      if Position(s0) == |Begun(s0, r0, latest)| {
        FinishesWhole(files, latest, s0, r0);
        NoneNeeded(files, latest, s1, r1, 3);
      } else {
        Resynchronised(files, latest, s0, r0);
        if Begun(s1, r1, latest) == [] {
          FinishesFromStart(files, latest, s1, r1);
        } else {
          FirstTransmission(files, latest, s1, r1, 3);
          FinishesWhole(files, latest, s1, r1);
          var (s2, r2) := Transmit(files, latest, s1, r1);
          NoneNeeded(files, latest, s2, r2, 2);
        }
      }
    }
  }

  /** The same from any moment of a run in which no chunk is misdirected, when the leader sends its latest snapshot and
      the follower has not begun a newer one in its term. */
  lemma RunCompletes(files: Files, states: seq<State>, events: seq<Event>, k: nat, latest: nat)
    requires Run(files, states, events) && AllDirected(states, events) && k < |states|
    requires var s, r := states[k].sender, states[k].receiver;
             && r.term <= s.term && s.matchIndex < latest && r.covers < latest
             && (s.open.Some? ==> s.open.value.index == latest)
             && (r.term == s.term && r.partial.Some? ==> r.partial.value.index <= latest)
    ensures var (s, r) := Transmissions(files, latest, states[k].sender, states[k].receiver, 4);
            Installed(files, latest, s, r)
  {
    hide Run, Transmissions, Installed, ChunkWhole;
    UnfinishedIsWholeOrEmpty(files, states, events, k);
    TransferCompletes(files, latest, states[k].sender, states[k].receiver);
  }

  lemma InstalledIsMatched(files: Files, latest: nat)
    ensures forall s, r :: Installed(files, latest, s, r) ==> s.matchIndex == latest
  {
  }

  lemma {:induction false} MoreTransmissions(files: Files, latest: nat, s: Sending, r: Receiving, n: nat)
    requires Transmissions(files, latest, s, r, n).0.matchIndex >= latest
    ensures Transmissions(files, latest, s, r, n + 1) == Transmissions(files, latest, s, r, n)
    decreases n
  {
    if n > 0 && s.matchIndex < latest {
      var (s1, r1) := Transmit(files, latest, s, r);
      MoreTransmissions(files, latest, s1, r1, n - 1);
    }
  }

  /** When the follower covers the index but the leader has not heard of it (the last reply was lost), the leader
      learns it from further exchanges if and only if the file is shorter than a chunk. */
  lemma LostLastReply(files: Files, latest: nat, s: Sending, r: Receiving)
    requires Ready(files, latest, s, r) && r.covers >= latest
    ensures (exists n: nat :: Transmissions(files, latest, s, r, n).0.matchIndex >= latest) <==> |files(latest)| < CHUNK
  {
    if |files(latest)| < CHUNK {
      var (s1, r1) := Transmit(files, latest, s, r);
      var (s2, r2) := Transmit(files, latest, s1, r1);
      assert Transmissions(files, latest, s, r, 2) == Transmissions(files, latest, s1, r1, 1);
      if s1.matchIndex < latest {
        assert Transmissions(files, latest, s1, r1, 1) == Transmissions(files, latest, s2, r2, 0);
      }
      assert Transmissions(files, latest, s, r, 2).0.matchIndex >= latest;
    } else {
      forall n: nat ensures !(Transmissions(files, latest, s, r, n).0.matchIndex >= latest) {
        NeverMatched(files, latest, s, r, n);
      }
    }
  }

  lemma {:induction false} NeverMatched(files: Files, latest: nat, s: Sending, r: Receiving, n: nat)
    requires Ready(files, latest, s, r) && r.covers >= latest && |files(latest)| >= CHUNK
    ensures Transmissions(files, latest, s, r, n).0.matchIndex < latest
    decreases n
  {
    if n > 0 {
      var (s1, r1) := Transmit(files, latest, s, r);
      NeverMatched(files, latest, s1, r1, n - 1);
    }
  }
}
