/** Majorities of a voter list. */
module Quorum {
  import opened Types

  /** Whether a voter list names a node. */
  method AnyVoter(voters: seq<VoterInfo>, id: NodeId) returns (found: bool)
    ensures found <==> id in Ids(voters)
  {
    found := false;
    for i := 0 to |voters|
      invariant found <==> exists j :: 0 <= j < i && voters[j].nodeId == id
    {
      if voters[i].nodeId == id { found := true; }
    }
  }

  lemma {:induction false} SubsetSize<T>(a: set<T>, b: set<T>)
    requires a <= b
    ensures |a| <= |b|
  {
    if a != {} {
      var x :| x in a;
      SubsetSize(a - {x}, b - {x});
    }
  }

  /** A voter list without duplicates has as many identifiers as entries. */
  lemma {:induction false} IdsCount(voters: seq<VoterInfo>)
    requires !Duplicates(voters)
    ensures |Ids(voters)| == |voters|
  {
    if voters != [] {
      var n := |voters| - 1;
      var front := voters[..n];
      IdsCount(front);
      assert Ids(voters) == Ids(front) + {voters[n].nodeId} by {
        forall x | x in Ids(voters) ensures x in Ids(front) + {voters[n].nodeId} {
          var i :| 0 <= i < |voters| && voters[i].nodeId == x;
          if i < n { assert front[i].nodeId == x; }
        }
        forall x | x in Ids(front) ensures x in Ids(voters) {
          var i :| 0 <= i < n && front[i].nodeId == x;
          assert voters[i].nodeId == x;
        }
      }
      assert voters[n].nodeId !in Ids(front);
    }
  }

  /** Two parts of a whole that are together larger than it share an element. */
  lemma {:induction false} Overlap<T>(a: set<T>, b: set<T>, all: set<T>) returns (x: T)
    requires a <= all && b <= all && |a| + |b| > |all|
    ensures x in a && x in b
  {
    if a * b == {} {
      assert |a + b| == |a| + |b|;
      SubsetSize(a + b, all);
      assert false;
    }
    x :| x in a * b;
  }
}
