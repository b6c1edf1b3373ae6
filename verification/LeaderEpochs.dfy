/**
 The leader-epoch checkpoint: which offset each term's leader change sits at.
 The storage engine rebuilds it by scanning the log and keeping the first offset
 of a term; the follower keeps it up to date entry by entry and keeps the last.
 */
module LeaderEpochs {
  import opened Types

  type Epochs = map<Term, Offset>

  /** The follower's incremental rule: every leader change overwrites its term. */
  function Overwriting(base: Epochs, es: seq<LogEntry>): Epochs
    decreases |es|
  {
    if es == [] then base
    else
      var e := es[|es| - 1];
      var rest := Overwriting(base, es[..|es| - 1]);
      if e.entryType == LeaderChangeMessage then rest[e.term := e.offset] else rest
  }

  lemma {:induction false} OverwritingConcat(base: Epochs, a: seq<LogEntry>, b: seq<LogEntry>)
    ensures Overwriting(base, a + b) == Overwriting(Overwriting(base, a), b)
    decreases |b|
  {
    if b == [] {
      assert a + b == a;
    } else {
      assert (a + b)[..|a + b| - 1] == a + b[..|b| - 1];
      OverwritingConcat(base, a, b[..|b| - 1]);
    }
  }

  /** The engine's rule: the first leader change of a term wins. */
  function KeepingFirst(es: seq<LogEntry>): Epochs
    decreases |es|
  {
    if es == [] then map[]
    else
      var e := es[|es| - 1];
      var rest := KeepingFirst(es[..|es| - 1]);
      if e.entryType == LeaderChangeMessage && e.term !in rest then rest[e.term := e.offset] else rest
  }

  method Rebuild(es: seq<LogEntry>) returns (epochs: Epochs)
    ensures epochs == KeepingFirst(es)
  {
    epochs := map[];
    for i := 0 to |es|
      invariant epochs == KeepingFirst(es[..i])
    {
      assert es[..i + 1][..i] == es[..i];
      if es[i].entryType == LeaderChangeMessage {
        if es[i].term !in epochs { epochs := epochs[es[i].term := es[i].offset]; }
      }
    }
    assert es[..|es|] == es;
  }

  predicate IsLeaderChange(es: seq<LogEntry>, i: int) {
    0 <= i < |es| && es[i].entryType == LeaderChangeMessage
  }

  /** No two leader changes share a term. */
  ghost predicate DistinctLeaderTerms(es: seq<LogEntry>) {
    forall i, j :: IsLeaderChange(es, i) && IsLeaderChange(es, j) && i < j ==> es[i].term != es[j].term
  }

  ghost predicate Increasing(es: seq<LogEntry>) {
    forall i, j | 0 <= i < j < |es| :: es[i].offset < es[j].offset
  }

  /** The terms a scan records are those of the leader changes, each at one of their offsets. */
  lemma {:induction false} ScansCover(es: seq<LogEntry>, t: Term)
    ensures t in Overwriting(map[], es) <==> t in KeepingFirst(es)
    ensures t in KeepingFirst(es) <==> exists i :: IsLeaderChange(es, i) && es[i].term == t
    ensures t in Overwriting(map[], es) ==>
              exists i :: IsLeaderChange(es, i) && es[i].term == t && es[i].offset == Overwriting(map[], es)[t]
    ensures t in KeepingFirst(es) ==>
              exists i :: IsLeaderChange(es, i) && es[i].term == t && es[i].offset == KeepingFirst(es)[t]
    decreases |es|
  {
    if es != [] {
      var n := |es| - 1;
      var front := es[..n];
      ScansCover(front, t);
      assert forall i :: IsLeaderChange(front, i) ==> IsLeaderChange(es, i) && es[i] == front[i];
      assert forall i :: IsLeaderChange(es, i) && i != n ==> IsLeaderChange(front, i);
      if es[n].entryType == LeaderChangeMessage && es[n].term == t { assert IsLeaderChange(es, n); }
    }
  }

  /** The engine's rule records a leader change no later than any other of its term. */
  lemma {:induction false} FirstWins(es: seq<LogEntry>, i: nat) returns (j: nat)
    requires IsLeaderChange(es, i)
    ensures j <= i && IsLeaderChange(es, j) && es[j].term == es[i].term
    ensures es[i].term in KeepingFirst(es) && KeepingFirst(es)[es[i].term] == es[j].offset
    decreases |es|
  {
    var n := |es| - 1;
    var front := es[..n];
    if i < n {
      j := FirstWins(front, i);
    } else if es[n].term in KeepingFirst(front) {
      ScansCover(front, es[n].term);
      j :| IsLeaderChange(front, j) && front[j].term == es[n].term && front[j].offset == KeepingFirst(front)[es[n].term];
    } else {
      j := n;
    }
  }

  /** The follower's rule records a leader change no earlier than any other of its term. */
  lemma {:induction false} LastWins(es: seq<LogEntry>, i: nat) returns (j: nat)
    requires IsLeaderChange(es, i)
    ensures i <= j && IsLeaderChange(es, j) && es[j].term == es[i].term
    ensures es[i].term in Overwriting(map[], es) && Overwriting(map[], es)[es[i].term] == es[j].offset
    decreases |es|
  {
    var n := |es| - 1;
    if es[n].entryType == LeaderChangeMessage && es[n].term == es[i].term {
      j := n;
    } else {
      j := LastWins(es[..n], i);
    }
  }

  /** No leader change at or after an index repeats the term of an earlier one. */
  ghost predicate FreshFrom(es: seq<LogEntry>, n: int) {
    forall i, j :: IsLeaderChange(es, i) && IsLeaderChange(es, j) && i < j && n <= j ==> es[i].term != es[j].term
  }

  /** The two rules give the same checkpoint exactly when no two leader changes share a term. */
  lemma {:induction false} RulesAgree(es: seq<LogEntry>)
    requires Increasing(es)
    ensures Overwriting(map[], es) == KeepingFirst(es) <==> DistinctLeaderTerms(es)
    decreases |es|
  {
    if es != [] {
      var n := |es| - 1;
      var front, e := es[..n], es[n];
      RulesAgree(front);
      assert forall i :: IsLeaderChange(front, i) ==> IsLeaderChange(es, i) && es[i] == front[i];
      assert forall i :: IsLeaderChange(es, i) && i != n ==> IsLeaderChange(front, i);
      if e.entryType != LeaderChangeMessage {
        assert DistinctLeaderTerms(front) <==> DistinctLeaderTerms(es);
      } else {
        Repeated(front, e);
        if e.term in KeepingFirst(front) {
          assert !DistinctLeaderTerms(es) by { RepeatedIsNotDistinct(es); }
        } else {
          FreshKeepsDistinct(es);
        }
      }
    }
  }

  /** When the new leader change repeats a term, the two rules disagree on that term. */
  lemma {:induction false} Repeated(front: seq<LogEntry>, e: LogEntry)
    requires forall i | 0 <= i < |front| :: front[i].offset < e.offset
    ensures e.term in KeepingFirst(front) ==> KeepingFirst(front)[e.term] != e.offset
    ensures e.term in Overwriting(map[], front) <==> e.term in KeepingFirst(front)
    ensures e.term !in KeepingFirst(front) ==>
              (Overwriting(map[], front)[e.term := e.offset] == KeepingFirst(front)[e.term := e.offset]
               <==> Overwriting(map[], front) == KeepingFirst(front))
  {
    ScansCover(front, e.term);
    var a, b := Overwriting(map[], front), KeepingFirst(front);
    if e.term !in b && a[e.term := e.offset] == b[e.term := e.offset] {
      forall t ensures t in a <==> t in b { ScansCover(front, t); }
      forall t | t in a ensures a[t] == b[t] {
        assert a[t] == a[e.term := e.offset][t] && b[t] == b[e.term := e.offset][t];
      }
      assert a == b;
    }
  }

  lemma {:induction false} RepeatedIsNotDistinct(es: seq<LogEntry>)
    requires es != [] && IsLeaderChange(es, |es| - 1)
    requires es[|es| - 1].term in KeepingFirst(es[..|es| - 1])
    ensures !DistinctLeaderTerms(es)
  {
    var n := |es| - 1;
    var front := es[..n];
    ScansCover(front, es[n].term);
    var i :| IsLeaderChange(front, i) && front[i].term == es[n].term;
    assert IsLeaderChange(es, i) && IsLeaderChange(es, n) && i < n;
  }

  lemma {:induction false} FreshKeepsDistinct(es: seq<LogEntry>)
    requires es != [] && IsLeaderChange(es, |es| - 1)
    requires es[|es| - 1].term !in KeepingFirst(es[..|es| - 1])
    ensures DistinctLeaderTerms(es) <==> DistinctLeaderTerms(es[..|es| - 1])
  {
    var n := |es| - 1;
    var front := es[..n];
    ScansCover(front, es[n].term);
    assert forall i :: IsLeaderChange(front, i) ==> IsLeaderChange(es, i) && es[i] == front[i];
    assert forall i :: IsLeaderChange(es, i) && i != n ==> IsLeaderChange(front, i) && es[i] == front[i];
  }
}
