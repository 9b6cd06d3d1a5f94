/** Majorities of the voter set. */
module Quorums {
  import opened Entries
  import opened Protocol

  ghost predicate Majority(voters: set<Id>, q: set<Id>) {
    q <= voters && HasQuorum(voters, |q|)
  }

  lemma SubsetCardinality<T>(a: set<T>, b: set<T>)
    requires a <= b
    ensures |a| <= |b|
  {
    assert b == a + (b - a);
  }

  lemma MajorityGrows(voters: set<Id>, q: set<Id>, r: set<Id>)
    requires Majority(voters, q) && q <= r <= voters
    ensures Majority(voters, r)
  {
    SubsetCardinality(q, r);
  }

  /** Any two majorities share a voter. */
  lemma MajoritiesIntersect(voters: set<Id>, q: set<Id>, r: set<Id>) returns (id: Id)
    requires Majority(voters, q) && Majority(voters, r)
    ensures id in q && id in r && id in voters
  {
    assert q * r != {} by {
      assert |q + r| == |q| + |r| - |q * r|;
      SubsetCardinality(q + r, voters);
    }
    id :| id in q * r;
  }
}
