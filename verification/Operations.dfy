/** The operations a leader still owes an answer. */
module Operations {
  import opened Entries

  datatype OperationType = LinearizableReadOnly | LeaseBasedReadOnly

  /** A submitted read; the manager updates it in place. */
  class ReadOperation {
    const bytes: seq<Byte>
    const operationType: OperationType
    const readIndex: nat            // the commit index when it was submitted
    var quorumVerified: bool

    constructor (bytes: seq<Byte>, operationType: OperationType, readIndex: nat)
      ensures this.bytes == bytes && this.operationType == operationType && this.readIndex == readIndex
      ensures !quorumVerified
    {
      this.bytes, this.operationType, this.readIndex, quorumVerified := bytes, operationType, readIndex, false;
    }

    /** The state machine has caught up with the read, and leadership was confirmed if the read asks for that. */
    predicate Appliable(applyIndex: nat)
      reads this
    {
      readIndex <= applyIndex && (operationType.LinearizableReadOnly? ==> quorumVerified)
    }
  }

  class OperationManager {
    var pendingReadOnly: map<ReadOperation, nat>    // to the ticket of the client that waits
    var pendingReplicated: map<nat, nat>            // log index to ticket
    var shouldVerifyQuorum: bool

    constructor ()
      ensures pendingReadOnly == map[] && pendingReplicated == map[] && shouldVerifyQuorum
    {
      pendingReadOnly, pendingReplicated, shouldVerifyQuorum := map[], map[], true;
    }

    /** Every read that is pending now counts as verified, whenever it was submitted; no other read changes. */
    method MarkAsVerified()
      modifies this`shouldVerifyQuorum, pendingReadOnly.Keys
      ensures shouldVerifyQuorum
      ensures forall o :: o in pendingReadOnly ==> o.quorumVerified
    {
      var left := pendingReadOnly.Keys;
      while left != {}
        invariant left <= pendingReadOnly.Keys
        invariant forall o :: o in pendingReadOnly && o !in left ==> o.quorumVerified
        decreases |left|
      {
        var o :| o in left;
        o.quorumVerified := true;
        left := left - {o};
      }
      shouldVerifyQuorum := true;
    }

    /** Takes out exactly the reads that can be applied: each is handed out once, with its own client, and the others
        stay. */
    method AppliableReadOnlyOperations(applyIndex: nat) returns (appliable: map<ReadOperation, nat>)
      modifies this`pendingReadOnly
      ensures appliable.Keys == set o | o in old(pendingReadOnly) && o.Appliable(applyIndex)
      ensures pendingReadOnly.Keys !! appliable.Keys && pendingReadOnly + appliable == old(pendingReadOnly)
      ensures forall o :: o in pendingReadOnly ==> !o.Appliable(applyIndex)
    {
      appliable := map[];
      var left := pendingReadOnly.Keys;
      while left != {}
        invariant left <= pendingReadOnly.Keys <= old(pendingReadOnly).Keys
        invariant forall o :: o in old(pendingReadOnly) <==> o in pendingReadOnly || o in appliable
        invariant pendingReadOnly.Keys !! appliable.Keys
        invariant forall o :: o in pendingReadOnly ==> pendingReadOnly[o] == old(pendingReadOnly)[o]
        invariant forall o :: o in appliable ==> appliable[o] == old(pendingReadOnly)[o] && o.Appliable(applyIndex)
        invariant forall o :: o in pendingReadOnly && o !in left ==> !o.Appliable(applyIndex)
        decreases |left|
      {
        var o :| o in left;
        left := left - {o};
        if (o.operationType.LinearizableReadOnly? && o.quorumVerified && o.readIndex <= applyIndex)
           || (o.operationType.LeaseBasedReadOnly? && o.readIndex <= applyIndex) {
          appliable := appliable[o := pendingReadOnly[o]];
          pendingReadOnly := pendingReadOnly - {o};
        }
      }
    }

    /** Tells every waiting client that this node is no leader any more, once for each operation it waits for, and
        forgets them all. */
    method NotifyLostLeadership() returns (refused: multiset<nat>)
      modifies this`pendingReadOnly, this`pendingReplicated
      ensures pendingReadOnly == map[] && pendingReplicated == map[]
      ensures forall ticket: nat ::
                refused[ticket] == |Waiting(old(pendingReadOnly), {}, ticket)| +
                  |Waiting(old(pendingReplicated), {}, ticket)|
    {
      refused := multiset{};
      var reading := pendingReadOnly.Keys;
      while reading != {}
        invariant pendingReadOnly == old(pendingReadOnly) && pendingReplicated == old(pendingReplicated)
        invariant reading <= pendingReadOnly.Keys
        invariant forall ticket: nat :: refused[ticket] == |Waiting(pendingReadOnly, reading, ticket)|
        decreases |reading|
      {
        var o :| o in reading;
        OneLessLeft(pendingReadOnly, reading, o);
        reading := reading - {o};
        refused := refused + multiset{pendingReadOnly[o]};
      }
      var indices := pendingReplicated.Keys;
      while indices != {}
        invariant pendingReadOnly == old(pendingReadOnly) && pendingReplicated == old(pendingReplicated)
        invariant indices <= pendingReplicated.Keys
        invariant forall ticket: nat ::
                    refused[ticket] == |Waiting(pendingReadOnly, {}, ticket)| +
                      |Waiting(pendingReplicated, indices, ticket)|
        decreases |indices|
      {
        var i :| i in indices;
        OneLessLeft(pendingReplicated, indices, i);
        indices := indices - {i};
        refused := refused + multiset{pendingReplicated[i]};
      }
      assert indices == {};
      pendingReadOnly, pendingReplicated := map[], map[];
    }
  }

  /** What the client with the given ticket waits for, apart from what is in `left`. */
  ghost function Waiting<K>(pending: map<K, nat>, left: set<K>, ticket: nat): set<K> {
    set k | k in pending && k !in left && pending[k] == ticket
  }

  lemma OneLessLeft<K>(pending: map<K, nat>, left: set<K>, k: K)
    requires left <= pending.Keys && k in left
    ensures forall ticket: nat :: |Waiting(pending, left - {k}, ticket)| ==
              |Waiting(pending, left, ticket)| + if pending[k] == ticket then 1 else 0
  {
    forall ticket ensures |Waiting(pending, left - {k}, ticket)| ==
                          |Waiting(pending, left, ticket)| + if pending[k] == ticket then 1 else 0
    {
      var before, after := Waiting(pending, left, ticket), Waiting(pending, left - {k}, ticket);
      if pending[k] == ticket {
        assert after == before + {k};
      } else {
        assert after == before;
      }
    }
  }
}
