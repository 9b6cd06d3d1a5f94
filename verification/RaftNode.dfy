/** One node as the program has it: fields that its handlers update in place, a compacted durable log, a snapshot file
    and stored term and vote. Every handler does to the abstract node exactly what the protocol's function says. */
module RaftNode {
  import opened Entries
  import opened Protocol
  import opened Cluster
  import opened Frames
  import opened Storage
  import opened LogView

  datatype AppendEntriesRequest = AppendEntriesRequest(
    leader: Id, term: nat, prevLogIndex: nat, prevLogTerm: nat, entries: seq<LogEntry>, leaderCommit: nat)

  datatype AppendEntriesResponse = AppendEntriesResponse(term: nat, success: bool, index: nat)

  function ToMessage(r: AppendEntriesRequest, to: Id): Message {
    AppendRequest(r.leader, to, r.term, r.prevLogIndex, r.prevLogTerm, EntriesOf(Items(r.entries)), r.leaderCommit)
  }

  /** The entries of a request are numbered from behind the previous entry, and can be stored. */
  ghost predicate WellFormed(c: Codec, r: AppendEntriesRequest) {
    && Numbered(Items(r.entries), r.prevLogIndex + 1) && AllFit(c, r.entries)
    && r.prevLogIndex + |r.entries| < UINT64
  }

  datatype TermAndVote = TermAndVote(term: nat, vote: Id)

  lemma Single(e: LogEntry)
    ensures Items([e]) == [ItemOf(e)] && EntriesOf(Items([e])) == [Entry(e.term, e.kind, e.data)]
    ensures Numbered(Items([e]), e.index)
  {
  }

  lemma OneMore(entries: seq<LogEntry>, entry: LogEntry, first: nat)
    requires Numbered(Items(entries), first) && entry.index == first + |entries|
    ensures Numbered(Items(entries + [entry]), first)
    ensures EntriesOf(Items(entries + [entry])) ==
              EntriesOf(Items(entries)) + [Entry(entry.term, entry.kind, entry.data)]
  {
    assert Items(entries + [entry]) == Items(entries) + [ItemOf(entry)];
  }

  /** The three ways a request can end. */
  lemma AppendOutcome(n: Node, m: Message)
    requires m.AppendRequest? && n.snapIndex <= |n.log|
    ensures var (n', y) := HandleAppendRequest(n, m);
            && y.AppendResponse?
            && (m.term < n.term ==> n' == n && y.term == n.term && !y.success && y.hint == 0)
            && (m.term >= n.term ==>
                  var n1 := Protocol.FollowLeader(n, m.term);
                  && n1.term == m.term && y.term == n1.term && n1.log == n.log && n1.snapIndex == n.snapIndex
                  && n1.commitIndex == n.commitIndex
                  && match Check(n.log, n.snapIndex, m.prev, m.prevTerm)
                     case Some(hint) => n' == n1 && !y.success && y.hint == hint
                     case None =>
                       && y.success && y.hint == 0 && n.snapIndex <= m.prev <= |n.log|
                       && var log := Merge(n.log, m.prev, m.entries);
                          var commit := if m.leaderCommit > n.commitIndex
                            then Min(m.leaderCommit, |log|) else n.commitIndex;
                          n' == Acknowledge(n1.(log := log, commitIndex := commit), m.term, m.prev + |m.entries|))
  {
    hide Merge;
  }

  lemma SameLength(entries: seq<LogEntry>)
    ensures |EntriesOf(Items(entries))| == |entries|
  {
  }

  lemma NothingToAppend()
    ensures Items([]) == [] && EntriesOf([]) == [] && forall first :: Numbered([], first)
  {
  }

  lemma MergeStep(l: Log, prev: nat, es: Log)
    requires prev <= |l| && es != []
    ensures prev == |l| ==> Merge(l, prev, es) == l + es
    ensures prev < |l| && l[prev].term == es[0].term ==> Merge(l, prev, es) == Merge(l, prev + 1, es[1..])
    ensures prev < |l| && l[prev].term != es[0].term ==> Merge(l, prev, es) == l[..prev] + es
  {
  }

  lemma MergeNothing(l: Log, prev: nat)
    requires prev <= |l|
    ensures Merge(l, prev, []) == l
  {
  }

  lemma Remaining(entries: seq<LogEntry>, prev: nat, i: nat)
    requires Numbered(Items(entries), prev + 1) && i < |entries|
    ensures Items(entries[i..]) == Items(entries)[i..]
    ensures EntriesOf(Items(entries[i..])) == EntriesOf(Items(entries))[i..]
    ensures Numbered(Items(entries[i..]), prev + i + 1) && entries[i].index == prev + i + 1
    ensures EntriesOf(Items(entries))[i].term == entries[i].term && |EntriesOf(Items(entries))| == |entries|
    ensures EntriesOf(Items(entries))[i..][1..] == EntriesOf(Items(entries))[i + 1..]
  {
    assert Items(entries)[i] == ItemOf(entries[i]);
  }

  class Raft {
    const id: Id
    const members: set<Id>
    const voters: set<Id>
    const log: PersistentLog
    var state: Role
    var currentTerm: nat
    var votedFor: Id
    var stored: TermAndVote       // on disk
    var lastIncludedIndex: nat
    var lastIncludedTerm: nat
    var snapshot: Log             // on disk: the state machine as of lastIncludedIndex
    var commitIndex: nat
    var lastApplied: nat
    var fsm: Log                  // the state machine: the entries applied to it
    var nextIndex: map<Id, nat>
    var matchIndex: map<Id, nat>
    var rounds: seq<Round>
    var live: nat
    var pendingReplicated: map<nat, nat>
    ghost var full: Log           // all entries from index 1 on, those behind the snapshot included
    ghost var acks: map<nat, nat>
    ghost var cast: set<(nat, Id)>

    ghost predicate Valid()
      reads this`full, this`snapshot, this`lastIncludedIndex, this`lastIncludedTerm, log
    {
      && log.Valid()
      && |snapshot| == lastIncludedIndex && LastTerm(snapshot) == lastIncludedTerm
      && Represents(log.Contents(), snapshot) && full == Whole(log.Contents(), snapshot)
    }

    /** Whether the entries can be stored: the log stays below 2^64 and its file below 2^63. */
    ghost predicate RoomFor(es: seq<LogEntry>)
      reads this`full, log
    {
      AllFit(log.codec, es) && |full| + |es| < UINT64 && Grown(log.codec, |log.file|, es) < INT64_LIMIT
    }

    /** The entry that would be appended next. */
    ghost function NextEntry(kind: Kind, data: seq<Byte>): LogEntry
      reads this`full, this`currentTerm
    {
      LogEntry(|full| + 1, currentTerm, 0, data, kind)
    }

    ghost function Abs(): Node
      reads this
    {
      Node(state, currentTerm, votedFor, stored.term, stored.vote, full, lastIncludedIndex, commitIndex, lastApplied,
        fsm,
           nextIndex, matchIndex, rounds, live, pendingReplicated, acks, cast)
    }

    /** A node that was restored from an opened and replayed log, a snapshot and a stored term and vote. */
    constructor (id: Id, members: set<Id>, voters: set<Id>, log: PersistentLog, snapshot: Log, stored: TermAndVote)
      requires log.Valid() && Represents(log.Contents(), snapshot)
      ensures Valid() && this.log == log && this.id == id && this.members == members && this.voters == voters
      ensures Abs() == Restart(Abs()) && full == Whole(log.Contents(), snapshot) && lastIncludedIndex == |snapshot|
      ensures currentTerm == stored.term && votedFor == stored.vote && rounds == [] && acks == map[] && cast == {}
    {
      this.id, this.members, this.voters, this.log := id, members, voters, log;
      this.stored, this.snapshot := stored, snapshot;
      state, currentTerm, votedFor := Follower, stored.term, stored.vote;
      lastIncludedIndex, lastIncludedTerm := |snapshot|, Entries.LastTerm(snapshot);
      commitIndex, lastApplied, fsm := |snapshot|, |snapshot|, snapshot;
      nextIndex, matchIndex, rounds, live, pendingReplicated := map[], map[], [], 0, map[];
      acks, cast, full := map[], {}, Whole(log.Contents(), snapshot);
    }

    method PersistTermAndVote()
      modifies this`stored
      ensures Abs() == old(Abs()).(diskTerm := currentTerm, diskVote := votedFor)
    {
      stored := TermAndVote(currentTerm, votedFor);
    }

    method SetTermAndVote(term: nat, vote: Id)
      modifies this`currentTerm, this`votedFor, this`stored
      ensures Abs() == old(Abs()).(term := term, votedFor := vote, diskTerm := term, diskVote := vote)
    {
      currentTerm, votedFor := term, vote;
      PersistTermAndVote();
    }

    /** Steps down. Every caller passes a term that is at least the current one. */
    method BecomeFollower(term: nat)
      requires Valid() && term >= currentTerm
      modifies this
      ensures Valid() && Abs() == Protocol.BecomeFollower(old(Abs()), term)
    {
      hide Valid;
      SetTermAndVote(term, "");
      state := Follower;
      pendingReplicated := map[];
    }

    method BecomeCandidate()
      requires Valid()
      modifies this
      ensures Valid() && Abs() == Protocol.BecomeCandidate(old(Abs()), id)
    {
      hide Valid;
      state := Candidate;
      SetTermAndVote(currentTerm + 1, id);
      cast := cast + {(currentTerm, id)};
    }

    /** The entry with the given index, which is never missing for an index that the full log has and the snapshot
        does not cover. */
    method GetEntry(index: nat) returns (e: LogEntry)
      requires Valid() && lastIncludedIndex < index <= |full|
      ensures e.index == index && Entry(e.term, e.kind, e.data) == full[index - 1] && Fits(log.codec, e)
    {
      hide Valid, Fits, Holds, Position, Whole, Entries.LastTerm;
      SnapshotPoint();
      Locate(index);
      var found := log.GetEntry(index);
      e := found.value;
    }

    /** Where the log keeps the entry with the given index, if it has it. */
    lemma Locate(index: nat)
      requires Valid() && index < UINT64
      ensures log.open && |log.entries| >= 1
      ensures Holds(log.entries[0].index, |log.entries|, index) <==> lastIncludedIndex < index <= |full|
      ensures Holds(log.entries[0].index, |log.entries|, index) ==>
                var e := log.entries[Position(log.entries[0].index, index)];
                e.index == index && Entry(e.term, e.kind, e.data) == full[index - 1] && Fits(log.codec, e)
    {
      hide Valid, Fits, Holds, Position, Represents, Whole, Items, EntriesOf, Entries.LastTerm;
      Unpack();
      Located(log.entries, snapshot, full, index);
    }

    /** What validity means for the log. */
    lemma Unpack()
      requires Valid()
      ensures log.open && log.Valid() && Sound(log.codec) && AllFit(log.codec, log.entries)
      ensures |snapshot| == lastIncludedIndex && Entries.LastTerm(snapshot) == lastIncludedTerm && |full| < UINT64
      ensures log.Contents() == Items(log.entries)
      ensures Represents(Items(log.entries), snapshot) && full == Whole(Items(log.entries), snapshot)
    {
    }

    lemma Pack()
      requires log.Valid()
      requires |snapshot| == lastIncludedIndex && Entries.LastTerm(snapshot) == lastIncludedTerm
      requires Represents(log.Contents(), snapshot) && full == Whole(log.Contents(), snapshot)
      ensures Valid()
    {
    }

    method LastEntry() returns (index: nat, term: nat)
      requires Valid()
      ensures index == |full| && term == Entries.LastTerm(full)
    {
      hide Valid, Represents, Whole, Fits, Entries.LastTerm;
      Unpack();
      Ends(log.entries, snapshot, full);
      index := log.LastIndex();
      term := log.LastTerm();
    }

    // --- elections ---

    method StartRound()
      requires Valid()
      modifies this`rounds
      ensures Valid() && Abs() == Protocol.StartRound(old(Abs()))
    {
      rounds := rounds + [Round(state.PreCandidate?, currentTerm, {})];
    }

    /** The election loop when the election timeout has passed. */
    method Election()
      requires Valid()
      modifies this
      ensures Valid() && Abs() == Protocol.Election(old(Abs()), id, voters)
    {
      hide Valid;
      if state.Leader? || id !in voters {
        return;
      }
      if state.Follower? {
        state := PreCandidate;
      }
      if state.Candidate? {
        BecomeCandidate();
      }
      StartRound();
    }

    method BuildVoteRequest(to: Id, round: nat) returns (m: Message)
      requires Valid() && round < |rounds|
      ensures m == Protocol.BuildVoteRequest(Abs(), id, to, round)
    {
      hide Valid;
      var lastIndex, lastTerm := LastEntry();
      var term := currentTerm;
      if rounds[round].prevote {
        term := term + 1;
      }
      m := VoteRequest(id, to, round, term, lastIndex, lastTerm, rounds[round].prevote);
    }

    /** `refuse` stands for a valid lease or a recent contact from a leader. */
    method RequestVote(m: Message, refuse: bool) returns (r: Message)
      requires Valid() && m.VoteRequest?
      modifies this
      ensures Valid() && (Abs(), r) == HandleVoteRequest(old(Abs()), m, refuse)
    {
      hide Valid;
      r := VoteResponse(m.to, m.from, m.round, m.term, m.prevote, currentTerm, false);
      if refuse || m.term < currentTerm {
        return;
      }
      if !m.prevote && m.term > currentTerm {
        BecomeFollower(m.term);
        r := VoteResponse(m.to, m.from, m.round, m.term, m.prevote, currentTerm, false);
      }
      if !m.prevote && votedFor != "" && votedFor != m.from {
        return;
      }
      var lastIndex, lastTerm := LastEntry();
      if m.lastTerm < lastTerm || (m.lastTerm == lastTerm && lastIndex > m.lastIndex) {
        return;
      }
      r := VoteResponse(m.to, m.from, m.round, m.term, m.prevote, currentTerm, true);
      if !m.prevote {
        GrantVote(m.from);
      }
    }

    method GrantVote(candidate: Id)
      modifies this`votedFor, this`stored, this`cast
      ensures Abs() == Protocol.GrantVote(old(Abs()), candidate)
    {
      votedFor := candidate;
      PersistTermAndVote();
      cast := cast + {(currentTerm, candidate)};
    }

    method HasQuorum(count: nat) returns (b: bool)
      ensures b == Protocol.HasQuorum(voters, count)
    {
      b := count > |voters| / 2;
    }

    method HandleVoteReply(m: Message)
      requires Valid() && m.VoteResponse? && m.round < |rounds| && RoomFor([NextEntry(NoOp, [])])
      modifies this, log
      ensures Valid() && Abs() == HandleVoteResponse(old(Abs()), members, voters, m)
    {
      hide Valid, RoomFor, NextEntry;
      if currentTerm > m.requestTerm {
        return;
      }
      if m.granted {
        var round := rounds[m.round];
        rounds := rounds[m.round := round.(granted := round.granted + {m.from})];
      }
      if m.term > m.requestTerm {
        BecomeFollower(m.term);
        return;
      }
      var quorum := HasQuorum(1 + |rounds[m.round].granted|);
      if quorum && state.PreCandidate? {
        state := Candidate;
      }
      if !m.prevote && quorum && state.Candidate? {
        BecomeLeader();
      }
    }

    // --- the log ---

    lemma CountItems()
      requires Valid()
      ensures |snapshot| + |log.Contents()| == |full| + 1
    {
    }

    /** Stores entries at the end of the log. */
    method Store(es: seq<LogEntry>)
      requires Valid() && Numbered(Items(es), |full| + 1) && RoomFor(es)
      modifies log, this`full
      ensures Valid() && full == old(full) + EntriesOf(Items(es))
    {
      hide Valid, PersistentLog.Valid, PersistentLog.Contents, Represents, Whole, EntriesOf, Fits, Sound,
           Entries.LastTerm;
      Unpack();
      CountItems();
      Longer(log.Contents(), Items(es), snapshot);
      var ok := log.AppendEntries(es);
      full := full + EntriesOf(Items(es));
      Pack();
    }

    /** Appends one entry of the current term at the end of the log. */
    method AppendNew(kind: Kind, data: seq<Byte>) returns (index: nat)
      requires Valid() && RoomFor([NextEntry(kind, data)])
      modifies log, this`full, this`acks
      ensures Valid() && Abs() == LeaderAppend(old(Abs()), kind, data) && index == |full|
    {
      hide Valid, Fits;
      var lastIndex, lastTerm := LastEntry();
      index := lastIndex + 1;
      var entry := LogEntry(index, currentTerm, 0, data, kind);
      Single(entry);
      Store([entry]);
      acks := acks[currentTerm := |full|];
    }

    method ResetFollowers()
      requires Valid()
      modifies this`state, this`pendingReplicated, this`nextIndex, this`matchIndex
      ensures Valid()
      ensures Abs() == old(Abs()).(role := Leader, pending := map[], next := Everyone(members, |full| + 1),
                                   matched := Everyone(members, 0))
    {
      hide Valid, Everyone;
      var lastIndex, lastTerm := LastEntry();
      state := Leader;
      pendingReplicated := map[];
      nextIndex, matchIndex := Everyone(members, lastIndex + 1), Everyone(members, 0);
    }

    method BecomeLeader()
      requires Valid() && RoomFor([NextEntry(NoOp, [])])
      modifies this, log
      ensures Valid() && Abs() == Protocol.BecomeLeader(old(Abs()), members)
    {
      hide Valid, Fits, Everyone;
      ResetFollowers();
      var index := AppendNew(NoOp, []);
    }

    /** Writes the bootstrap entry to an empty log. */
    method Bootstrap(data: seq<Byte>) returns (ok: bool)
      requires Valid() && RoomFor([LogEntry(1, 1, 0, data, Configuration)])
      modifies log, this`full
      ensures Valid() && ok == (old(full) == [])
      ensures Abs() == if ok then old(Abs()).(log := [Entry(1, Configuration, data)]) else old(Abs())
    {
      hide Valid, Fits;
      var lastIndex, lastTerm := LastEntry();
      if lastIndex > 0 {
        return false;
      }
      Single(LogEntry(1, 1, 0, data, Configuration));
      Store([LogEntry(1, 1, 0, data, Configuration)]);
      ok := true;
    }

    method SubmitOperation(data: seq<Byte>, ticket: nat) returns (ok: bool)
      requires Valid() && RoomFor([NextEntry(Operation, data)])
      modifies this, log
      ensures Valid() && ok == old(state).Leader?
      ensures Abs() == if ok then Submit(old(Abs()), data, ticket) else old(Abs())
    {
      hide Valid, RoomFor, Fits;
      if !state.Leader? {
        return false;
      }
      var index := AppendNew(Operation, data);
      pendingReplicated := pendingReplicated[index := ticket];
      ok := true;
    }

    // --- replication ---

    /** The entries from `next` on. */
    method EntriesFrom(next: nat) returns (entries: seq<LogEntry>)
      requires Valid() && lastIncludedIndex < next <= |full| + 1
      ensures EntriesOf(Items(entries)) == full[next - 1..] && |entries| == |full| + 1 - next
      ensures AllFit(log.codec, entries) && Numbered(Items(entries), next)
    {
      hide Valid, Fits;
      entries := [];
      var lastIndex, lastTerm := LastEntry();
      var index := next;
      while index > lastIncludedIndex && index < lastIndex + 1
        invariant next <= index <= lastIndex + 1 && |entries| == index - next
        invariant AllFit(log.codec, entries) && Numbered(Items(entries), next)
        invariant EntriesOf(Items(entries)) == full[next - 1..index - 1]
        decreases lastIndex + 1 - index
      {
        var entry := GetEntry(index);
        OneMore(entries, entry, next);
        entries := entries + [entry];
        index := index + 1;
      }
      assert full[next - 1..lastIndex] == full[next - 1..];
    }

    method TermOf(index: nat) returns (term: nat)
      requires Valid() && lastIncludedIndex <= index <= |full|
      ensures term == TermAt(full, index)
    {
      hide Valid;
      SnapshotPoint();
      term := lastIncludedTerm;
      var lastIndex, lastTerm := LastEntry();
      if index > lastIncludedIndex && index < lastIndex + 1 {
        var entry := GetEntry(index);
        term := entry.term;
      }
    }

    /** Builds the request for a follower whose next index is above the snapshot point. */
    method BuildAppendEntries(to: Id) returns (r: AppendEntriesRequest)
      requires Valid() && to in nextIndex && lastIncludedIndex < nextIndex[to] <= |full| + 1
      ensures WellFormed(log.codec, r) && ToMessage(r, to) == BuildAppendRequest(Abs(), id, to)
    {
      hide Valid, Fits;
      SnapshotPoint();
      var next := nextIndex[to];
      var prev := Max(next - 1, lastIncludedIndex);
      var prevTerm := TermOf(prev);
      var entries := EntriesFrom(next);
      r := AppendEntriesRequest(id, currentTerm, prev, prevTerm, entries, commitIndex);
    }

    method HandleAppendReply(m: Message)
      requires Valid() && m.AppendResponse?
      modifies this
      ensures Valid() && Abs() == HandleAppendResponse(old(Abs()), m)
    {
      hide Valid;
      if !state.Leader? || m.from !in nextIndex || m.from !in matchIndex {
        return;
      }
      if m.term > currentTerm {
        BecomeFollower(m.term);
        return;
      }
      if !m.success {
        nextIndex := nextIndex[m.from := m.hint];
        return;
      }
      if m.upTo > matchIndex[m.from] {
        nextIndex := nextIndex[m.from := Max(nextIndex[m.from], m.upTo + 1)];
        matchIndex := matchIndex[m.from := m.upTo];
      }
    }

    method FollowLeader(term: nat)
      requires Valid() && term >= currentTerm
      modifies this
      ensures Valid() && Abs() == Protocol.FollowLeader(old(Abs()), term)
    {
      hide Valid;
      if term > currentTerm {
        BecomeFollower(term);
      }
      if term == currentTerm && (state.Candidate? || state.PreCandidate?) {
        BecomeFollower(term);
      }
    }

    lemma SnapshotPoint()
      requires Valid()
      ensures lastIncludedIndex <= |full| < UINT64 && TermAt(full, lastIncludedIndex) == lastIncludedTerm
    {
      Lookup(log.Contents(), snapshot, lastIncludedIndex);
    }

    /** Steps back from `from` over the entries with the given term. */
    method FirstOfTerm(from: nat, term: nat) returns (index: nat)
      requires Valid() && lastIncludedIndex <= from <= |full|
      ensures index == RunBefore(full, lastIncludedIndex, term, from)
    {
      hide Valid;
      index := from;
      while index > lastIncludedIndex
        invariant lastIncludedIndex <= index <= from
        invariant RunBefore(full, lastIncludedIndex, term, index) == RunBefore(full, lastIncludedIndex, term, from)
      {
        var entry := GetEntry(index);
        if entry.term != term {
          break;
        }
        index := index - 1;
      }
    }

    /** Whether the log holds the previous entry of a request, and otherwise where the leader should try next. */
    method CheckPrevious(prev: nat, prevTerm: nat) returns (hint: Option<nat>)
      requires Valid()
      ensures lastIncludedIndex <= |full| && hint == Check(full, lastIncludedIndex, prev, prevTerm)
    {
      hide Valid, RunBefore;
      SnapshotPoint();
      if lastIncludedIndex > prev {
        return Some(lastIncludedIndex + 1);
      }
      var lastIndex, lastTerm := LastEntry();
      if lastIndex + 1 <= prev {
        return Some(lastIndex + 1);
      }
      if lastIncludedIndex == prev && lastIncludedTerm != prevTerm {
        return Some(lastIncludedIndex);
      }
      if lastIncludedIndex < prev {
        var prevEntry := GetEntry(prev);
        if prevEntry.term != prevTerm {
          var index := FirstOfTerm(prev - 1, prevEntry.term);
          return Some(index + 1);
        }
      }
      hint := None;
    }

    /** Deletes the entries from `index` on. */
    method Truncate(index: nat)
      requires Valid() && lastIncludedIndex < index <= |full|
      modifies log, this`full
      ensures Valid() && full == old(full)[..index - 1] && |log.file| <= old(|log.file|)
    {
      hide Valid, PersistentLog.Valid, PersistentLog.Contents, Represents, Whole, Fits, Sound, Holds, Position,
           Entries.LastTerm, Items;
      Unpack();
      CountItems();
      Located(log.entries, snapshot, full, index);
      Shorter(log.Contents(), snapshot, index - lastIncludedIndex);
      ItemsTake(log.entries, index - lastIncludedIndex);
      var ok := log.Truncate(index);
      ContentsAreItems();
      full := full[..index - 1];
      Pack();
    }

    lemma ContentsAreItems()
      ensures log.Contents() == Items(log.entries)
    {
    }

    /** What room there was for some entries is enough for the last of them, also after a truncation. */
    lemma RoomForRest(entries: seq<LogEntry>, size: nat, i: nat)
      requires Valid() && AllFit(log.codec, entries) && i <= |entries| && |full| + |entries| - i < UINT64
      requires |log.file| <= size && Grown(log.codec, size, entries) < INT64_LIMIT
      ensures RoomFor(entries[i..])
    {
      hide PersistentLog.Contents, Represents, Whole, Fits, File, OffsetsOK, Frame;
      GrownMonotone(log.codec, size, entries, |log.file|, i);
    }

    /** Skips the entries that are there, cuts the log at the first conflict, and appends the rest. */
    method MergeEntries(prev: nat, entries: seq<LogEntry>)
      requires Valid() && lastIncludedIndex <= prev <= |full|
      requires Numbered(Items(entries), prev + 1) && AllFit(log.codec, entries) && prev + |entries| < UINT64
      requires Grown(log.codec, |log.file|, entries) < INT64_LIMIT
      modifies log, this`full
      ensures Valid() && full == Merge(old(full), prev, EntriesOf(Items(entries)))
    {
      hide Valid, Fits, RoomFor, Merge, Items, EntriesOf, Entries.LastTerm, Grown;
      ghost var es := EntriesOf(Items(entries));
      assert |es| == |entries| && es[0..] == es by {
        SameLength(entries);
      }
      var toAppend := [];
      var i := 0;
      while i < |entries|
        invariant 0 <= i <= |entries| && prev + i <= |full| && toAppend == [] && Valid() && full == old(full)
        invariant log.file == old(log.file)
        invariant Merge(full, prev, es) == Merge(full, prev + i, es[i..])
      {
        var entry := entries[i];
        Remaining(entries, prev, i);
        MergeStep(full, prev + i, es[i..]);
        var lastIndex, lastTerm := LastEntry();
        if lastIndex < entry.index {
          toAppend := entries[i..];
          break;
        }
        var existing := GetEntry(entry.index);
        if !(existing.index == entry.index && existing.term != entry.term) {
          i := i + 1;
          continue;
        }
        Truncate(entry.index);
        toAppend := entries[i..];
        break;
      }
      SnapshotPoint();
      NothingToAppend();
      RoomForRest(entries, old(|log.file|), i);
      RoomForRest(entries, old(|log.file|), |entries|);
      assert entries[|entries|..] == [];
      MergeNothing(full, if prev + i <= |full| then prev + i else 0);
      Store(toAppend);
    }

    ghost method NoteAcknowledged(term: nat, upTo: nat)
      modifies this`acks
      ensures Abs() == Acknowledge(old(Abs()), term, upTo)
    {
      acks := Acknowledge(Abs(), term, upTo).acks;
    }

    method FollowCommit(leaderCommit: nat)
      requires Valid()
      modifies this`commitIndex
      ensures var n := old(Abs());
              Abs() == n.(commitIndex := if leaderCommit > n.commitIndex
                then Min(leaderCommit, |full|) else n.commitIndex)
    {
      if leaderCommit > commitIndex {
        var lastIndex, lastTerm := LastEntry();
        commitIndex := Min(leaderCommit, lastIndex);
      }
    }

    method AppendEntries(r: AppendEntriesRequest) returns (response: AppendEntriesResponse)
      requires Valid() && WellFormed(log.codec, r) && Grown(log.codec, |log.file|, r.entries) < INT64_LIMIT
      modifies this, log
      ensures Valid()
      ensures var (n, m) := HandleAppendRequest(old(Abs()), ToMessage(r, id));
              Abs() == n && response == AppendEntriesResponse(m.term, m.success, m.hint)
    {
      hide Valid, Fits, HandleAppendRequest, Acknowledge, Check, Merge, Items, EntriesOf, Protocol.FollowLeader;
      SnapshotPoint();
      AppendOutcome(Abs(), ToMessage(r, id));
      SameLength(r.entries);
      response := AppendEntriesResponse(currentTerm, false, 0);
      if r.term < currentTerm {
        return;
      }
      FollowLeader(r.term);
      response := AppendEntriesResponse(currentTerm, false, 0);
      var hint := CheckPrevious(r.prevLogIndex, r.prevLogTerm);
      if hint.Some? {
        response := response.(index := hint.value);
        return;
      }
      response := response.(success := true);
      MergeEntries(r.prevLogIndex, r.entries);
      FollowCommit(r.leaderCommit);
      NoteAcknowledged(r.term, r.prevLogIndex + |r.entries|);
    }

    // --- committing and applying ---

    /** The order of a node's indices and what its state machine has applied: what every node of a reachable state
        keeps. */
    ghost predicate InOrder()
      reads this
    {
      lastIncludedIndex <= lastApplied <= commitIndex <= |full| && fsm == full[..lastApplied]
    }

    /** How many voters, this node included, hold the entry with the given index. */
    method CountMatches(index: nat) returns (matches: nat)
      ensures matches == 1 + |set f | f in matchIndex && f != id && f in voters && matchIndex[f] >= index|
    {
      matches := 1;
      var left := matchIndex.Keys;
      ghost var counted := {};
      while left != {}
        invariant left <= matchIndex.Keys && matches == 1 + |counted|
        invariant counted == set f | f in matchIndex && f !in left && f != id && f in voters && matchIndex[f] >= index
        decreases |left|
      {
        var f :| f in left;
        left := left - {f};
        if f == id || f !in voters {
          continue;
        }
        if matchIndex[f] >= index {
          counted := counted + {f};
          matches := matches + 1;
        }
      }
      assert counted == set f | f in matchIndex && f != id && f in voters && matchIndex[f] >= index;
    }

    /** The commit loop: goes up from the commit index and past entries that do not qualify. */
    method CommitScan() returns (committed: bool)
      requires Valid() && lastIncludedIndex <= commitIndex
      modifies this`commitIndex
      ensures Valid() && Abs() == Protocol.CommitScan(old(Abs()), id, voters)
      ensures committed <==> commitIndex > old(commitIndex)
    {
      hide Valid;
      committed := false;
      if !state.Leader? {
        return;
      }
      ghost var n := Abs();
      var lastIndex, lastTerm := LastEntry();
      var index := commitIndex + 1;
      while index <= lastIndex
        invariant n.commitIndex < index && (n.commitIndex <= lastIndex ==> index <= lastIndex + 1)
        invariant n.commitIndex <= lastIndex ==>
                    commitIndex == LargestCommitting(n, id, voters, n.commitIndex, index - 1)
        invariant n.commitIndex > lastIndex ==> commitIndex == n.commitIndex
        invariant committed <==> commitIndex > n.commitIndex
      {
        var entry := GetEntry(index);
        if entry.term == currentTerm {
          var matches := CountMatches(index);
          var quorum := HasQuorum(matches);
          if quorum {
            commitIndex := index;
            committed := true;
          }
        }
        index := index + 1;
      }
    }

    /** Applies every committed entry that is not applied yet, and answers the clients that wait for them. */
    method ApplyCommitted() returns (answers: seq<Answer>)
      requires Valid() && lastIncludedIndex <= lastApplied && commitIndex <= |full|
      modifies this`fsm, this`lastApplied, this`pendingReplicated
      ensures Valid() && Abs() == ApplyAll(old(Abs())) && answers == AllAnswers(old(Abs()))
    {
      hide Valid, ApplyAll, AllAnswers, ApplyNext, AnswersOf;
      answers := [];
      while lastApplied < commitIndex
        invariant Valid() && lastIncludedIndex <= lastApplied && commitIndex <= |full|
        invariant Abs().commitIndex <= |Abs().log|
        invariant ApplyAll(Abs()) == ApplyAll(old(Abs()))
        invariant answers + AllAnswers(Abs()) == AllAnswers(old(Abs()))
      {
        ApplyAllStep(Abs());
        ghost var later := AllAnswers(ApplyNext(Abs()));
        var answer := ApplyEntry();
        assert answers + (answer + later) == (answers + answer) + later;
        answers := answers + answer;
      }
      ApplyAllEnd(Abs());
      assert answers + [] == answers;
    }

    method ApplyEntry() returns (answer: seq<Answer>)
      requires Valid() && lastIncludedIndex <= lastApplied < commitIndex <= |full|
      modifies this`fsm, this`lastApplied, this`pendingReplicated
      ensures Valid() && Abs() == ApplyNext(old(Abs())) && answer == AnswersOf(old(Abs()))
    {
      hide Valid;
      var entry := GetEntry(lastApplied + 1);
      answer := [];
      if entry.kind.Operation? {
        answer := AnswerClient(entry);
      }
      fsm := fsm + [Entry(entry.term, entry.kind, entry.data)];
      lastApplied := lastApplied + 1;
    }

    /** Answers the client that waits for the entry, if there is one. */
    method AnswerClient(entry: LogEntry) returns (answer: seq<Answer>)
      modifies this`pendingReplicated
      ensures Abs() == old(Abs()).(pending := old(pendingReplicated) - {entry.index})
      ensures answer == if entry.index in old(pendingReplicated)
                        then [Answer(old(pendingReplicated)[entry.index], entry.index, entry.term, entry.data)] else []
    {
      answer := [];
      if entry.index in pendingReplicated {
        answer := [Answer(pendingReplicated[entry.index], entry.index, entry.term, entry.data)];
      }
      pendingReplicated := pendingReplicated - {entry.index};
    }

    // --- snapshots ---

    /** Moves the snapshot point up to `index`: the snapshot takes the place of the entries up to there. */
    method CompactTo(index: nat, moved: Log)
      requires Valid() && lastIncludedIndex < index <= |full| && moved == full[..index]
      modifies log, this`snapshot, this`lastIncludedIndex, this`lastIncludedTerm
      ensures Valid() && Abs() == Compact(old(Abs()), index)
    {
      hide Valid, PersistentLog.Valid, PersistentLog.Contents, Represents, Whole, Fits, Sound, Holds, Position,
           Entries.LastTerm, Items;
      Unpack();
      CountItems();
      Located(log.entries, snapshot, full, index);
      Compacted(log.Contents(), snapshot, index - lastIncludedIndex, moved);
      var ok := log.Compact(index);
      snapshot, lastIncludedIndex, lastIncludedTerm := moved, index, Entries.LastTerm(moved);
      Pack();
    }

    /** Takes a snapshot of the state machine, unless there is nothing new or a membership change is under way. */
    method TakeSnapshot(pendingConfiguration: bool) returns (taken: bool)
      requires Valid() && InOrder()
      modifies this, log
      ensures Valid() && InOrder()
      ensures taken <==> old(lastApplied > lastIncludedIndex) && !pendingConfiguration
      ensures Abs() == if taken then Compact(old(Abs()), old(lastApplied)) else old(Abs())
    {
      hide Valid;
      if lastApplied <= lastIncludedIndex || pendingConfiguration {
        return false;
      }
      CompactTo(lastApplied, fsm);
      taken := true;
    }

    method BuildInstallSnapshot(to: Id) returns (m: Message)
      requires Valid() && 1 <= lastIncludedIndex
      ensures m == BuildSnapRequest(Abs(), id, to)
    {
      assert full[..lastIncludedIndex] == snapshot;
      m := SnapRequest(id, to, currentTerm, lastIncludedIndex, lastIncludedTerm, snapshot);
    }

    method FindEntry(index: nat) returns (e: Option<LogEntry>)
      requires Valid() && index < UINT64
      ensures e.Some? <==> lastIncludedIndex < index <= |full|
      ensures e.Some? ==> e.value.term == full[index - 1].term
    {
      hide Valid, Fits, Holds, Position, Whole, Entries.LastTerm;
      Locate(index);
      e := log.GetEntry(index);
    }

    method DiscardLog(content: Log, index: nat, term: nat)
      requires Valid() && |content| == index < UINT64 && Entries.LastTerm(content) == term < UINT64
      modifies log, this`full, this`snapshot, this`lastIncludedIndex, this`lastIncludedTerm
      ensures Valid() && Abs() == old(Abs()).(log := content, snapIndex := index)
    {
      hide Valid, PersistentLog.Valid, PersistentLog.Contents, Represents, Whole, Fits, Entries.LastTerm;
      Unpack();
      OnlyPlaceholder(index, term, content);
      var ok := log.DiscardEntries(index, term);
      snapshot, lastIncludedIndex, lastIncludedTerm, full := content, index, term, content;
      Pack();
    }

    /** Replaces the log and the state machine by the snapshot. */
    method RestoreSnapshot(content: Log, index: nat, term: nat)
      requires Valid() && |content| == index < UINT64 && Entries.LastTerm(content) == term < UINT64
      modifies this, log
      ensures Valid()
      ensures Abs() == old(Abs()).(log := content, snapIndex := index, commitIndex := index, lastApplied := index,
                applied := content)
    {
      hide Valid, Entries.LastTerm;
      RestoreStateMachine(content, index);
      DiscardLog(content, index, term);
    }

    method RestoreStateMachine(content: Log, index: nat)
      modifies this`fsm, this`lastApplied, this`commitIndex
      ensures Abs() == old(Abs()).(commitIndex := index, lastApplied := index, applied := content)
    {
      fsm, lastApplied, commitIndex := content, index, index;
    }

    /** Handles a chunk of a snapshot; `complete` says that the chunk was the last one missing. When the log already
        holds the snapshot point, nothing is discarded; `CompactTo` follows once everything up to that point is
        applied. */
    method InstallSnapshot(m: Message, complete: bool) returns (r: Message)
      requires Valid() && m.SnapRequest? && |m.content| == m.index < UINT64
      requires Entries.LastTerm(m.content) == m.lastTerm < UINT64
      modifies this, log
      ensures Valid() && (Abs(), r) == HandleSnapRequest(old(Abs()), m, complete)
    {
      hide Valid, Entries.LastTerm;
      r := SnapResponse(m.to, m.from, m.term, m.index, currentTerm, false);
      if currentTerm > m.term {
        return;
      }
      FollowLeader(m.term);
      if lastIncludedIndex >= m.index || lastApplied >= m.index {
        NoteAcknowledged(m.term, m.index);
        r := SnapResponse(m.to, m.from, m.term, m.index, currentTerm, true);
        return;
      }
      r := SnapResponse(m.to, m.from, m.term, m.index, currentTerm, complete);
      if !complete {
        return;
      }
      var entry := FindEntry(m.index);
      if entry.None? || entry.value.term != m.lastTerm {
        RestoreSnapshot(m.content, m.index, m.lastTerm);
      }
      NoteAcknowledged(m.term, m.index);
    }

    method HandleSnapshotReply(m: Message)
      requires Valid() && m.SnapResponse?
      modifies this
      ensures Valid() && Abs() == HandleSnapResponse(old(Abs()), m)
    {
      hide Valid;
      if !state.Leader? || m.from !in nextIndex || m.from !in matchIndex {
        return;
      }
      if m.term > currentTerm {
        BecomeFollower(m.term);
        return;
      }
      if m.covered {
        matchIndex := matchIndex[m.from := m.index];
        nextIndex := nextIndex[m.from := m.index + 1];
      }
    }

    /** Starts again from what is on disk: the log file, the snapshot, and the stored term and vote. */
    method Restore()
      requires Valid()
      modifies this, log
      ensures Valid() && Abs() == Restart(old(Abs()))
    {
      hide Valid;
      ReplayLog();
      RestoreState();
      ForgetLeadership();
    }

    method RestoreState()
      requires Valid()
      modifies this`state, this`currentTerm, this`votedFor, this`commitIndex, this`lastApplied, this`fsm
      ensures Valid() && |full| >= lastIncludedIndex
      ensures var n := old(Abs());
              Abs() == n.(role := Follower, term := n.diskTerm, votedFor := n.diskVote, commitIndex := n.snapIndex,
                          lastApplied := n.snapIndex, applied := n.log[..n.snapIndex])
    {
      hide Valid;
      SnapshotIsPrefix();
      state, currentTerm, votedFor := Follower, stored.term, stored.vote;
      RestoreStateMachine(snapshot, lastIncludedIndex);
    }

    method ForgetLeadership()
      requires Valid()
      modifies this`nextIndex, this`matchIndex, this`live, this`pendingReplicated
      ensures Valid() && Abs() == old(Abs()).(next := map[], matched := map[], live := |rounds|, pending := map[])
    {
      hide Valid;
      nextIndex, matchIndex, live, pendingReplicated := map[], map[], |rounds|, map[];
    }

    method ReplayLog()
      requires Valid()
      modifies log
      ensures Valid()
    {
      hide Valid, PersistentLog.Valid, PersistentLog.Contents, Represents, Whole, Fits, Entries.LastTerm, Items;
      Unpack();
      var ok := log.Reopen();
      ContentsAreItems();
      Pack();
    }

    lemma SnapshotIsPrefix()
      requires Valid()
      ensures |snapshot| == lastIncludedIndex <= |full| && full[..lastIncludedIndex] == snapshot
    {
    }
  }

  /** Applying until nothing committed is left. */
  ghost function ApplyAll(n: Node): Node
    requires n.commitIndex <= |n.log|
    decreases n.commitIndex - n.lastApplied
  {
    if n.lastApplied >= n.commitIndex then n else ApplyAll(ApplyNext(n))
  }

  ghost function AllAnswers(n: Node): seq<Answer>
    requires n.commitIndex <= |n.log|
    decreases n.commitIndex - n.lastApplied
  {
    if n.lastApplied >= n.commitIndex then [] else AnswersOf(n) + AllAnswers(ApplyNext(n))
  }

  lemma ApplyAllStep(n: Node)
    requires n.lastApplied < n.commitIndex <= |n.log|
    ensures var n' := ApplyNext(n);
            && n'.commitIndex == n.commitIndex && n'.log == n.log && n'.lastApplied == n.lastApplied + 1
            && ApplyAll(n) == ApplyAll(n') && AllAnswers(n) == AnswersOf(n) + AllAnswers(n')
  {
  }

  lemma ApplyAllEnd(n: Node)
    requires n.lastApplied >= n.commitIndex && n.commitIndex <= |n.log|
    ensures ApplyAll(n) == n && AllAnswers(n) == []
  {
  }

  /** The state machine has then applied exactly the committed entries, each once and in order, and no client waits
      for any of them. */
  lemma {:induction false} ApplyAllIsExact(n: Node)
    requires n.lastApplied <= n.commitIndex <= |n.log|
    ensures var n' := ApplyAll(n);
            && n'.lastApplied == n'.commitIndex == n.commitIndex && n'.log == n.log
            && n'.applied == n.applied + n.log[n.lastApplied..n.commitIndex]
            && (forall i :: i in n'.pending <==>
                  i in n.pending && !(n.lastApplied < i <= n.commitIndex && n.log[i - 1].kind.Operation?))
    decreases n.commitIndex - n.lastApplied
  {
    if n.lastApplied < n.commitIndex {
      ApplyAllIsExact(ApplyNext(n));
      assert n.log[n.lastApplied..n.commitIndex] == [n.log[n.lastApplied]] + n.log[n.lastApplied + 1..n.commitIndex];
    }
  }

  /** The answer to the client that waits for the entry with the given index. */
  ghost function AnswerTo(n: Node, i: nat): Answer
    requires 1 <= i <= |n.log| && i in n.pending
  {
    Answer(n.pending[i], i, n.log[i - 1].term, n.log[i - 1].data)
  }

  /** Whether a client waits for the entry with the given index, which is committed and not applied yet. */
  ghost predicate IsDue(n: Node, i: nat) {
    n.lastApplied < i <= n.commitIndex <= |n.log| && i in n.pending && n.log[i - 1].kind.Operation?
  }

  /** Of the clients that are due, the next step answers the one at the next index, and leaves the others due. */
  lemma OneAnswer(n: Node)
    requires n.lastApplied < n.commitIndex <= |n.log|
    ensures var n', due := ApplyNext(n), IsDue(n, n.lastApplied + 1);
            && n'.lastApplied == n.lastApplied + 1 && n'.commitIndex == n.commitIndex && n'.log == n.log
            && AnswersOf(n) == (if due then [AnswerTo(n, n.lastApplied + 1)] else [])
            && forall i: nat :: i != n.lastApplied + 1 ==>
                 (IsDue(n, i) <==> IsDue(n', i)) && (IsDue(n, i) ==> AnswerTo(n', i) == AnswerTo(n, i))
  {
  }

  /** The answers are those to the clients that are due, each once and in the order of the log. */
  ghost predicate ExactlyDue(n: Node, all: seq<Answer>) {
    && (forall i: nat :: IsDue(n, i) ==> AnswerTo(n, i) in all)
    && (forall x :: 0 <= x < |all| ==> IsDue(n, all[x].index) && all[x] == AnswerTo(n, all[x].index))
    && (forall x, y :: 0 <= x < y < |all| ==> all[x].index < all[y].index)
  }

  lemma AnswerBefore(n: Node, n': Node, first: seq<Answer>, later: seq<Answer>)
    requires ExactlyDue(n', later) && n'.lastApplied == n.lastApplied + 1
    requires first == if IsDue(n, n.lastApplied + 1) then [AnswerTo(n, n.lastApplied + 1)] else []
    requires forall i: nat :: i != n.lastApplied + 1 ==>
               (IsDue(n, i) <==> IsDue(n', i)) && (IsDue(n, i) ==> AnswerTo(n', i) == AnswerTo(n, i))
    ensures ExactlyDue(n, first + later)
  {
    var all := first + later;
    forall x | 0 <= x < |later| ensures later[x].index > n'.lastApplied && later[x] == AnswerTo(n, later[x].index) {
      assert IsDue(n', later[x].index);
    }
    assert forall x :: |first| <= x < |all| ==> all[x] == later[x - |first|];
    hide AnswerTo;
    forall i: nat | IsDue(n, i) ensures AnswerTo(n, i) in all {
      if i != n.lastApplied + 1 {
        assert AnswerTo(n', i) in later;
      }
    }
  }

  /** Applying answers exactly the clients that wait for one of the operations it applies, each once and in the order
      of the log. */
  lemma {:induction false} AnswersAreExact(n: Node)
    requires n.lastApplied <= n.commitIndex <= |n.log|
    ensures ExactlyDue(n, AllAnswers(n))
    decreases n.commitIndex - n.lastApplied
  {
    hide AnswersOf, ApplyNext, AnswerTo;
    if n.lastApplied < n.commitIndex {
      OneAnswer(n);
      AnswersAreExact(ApplyNext(n));
      AnswerBefore(n, ApplyNext(n), AnswersOf(n), AllAnswers(ApplyNext(n)));
    }
  }
}
