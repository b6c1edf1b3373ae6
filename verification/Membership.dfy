/** Cluster membership with at most one change in flight, and how it follows the log. */
module Membership {
  import opened Types
  import Quorum

  datatype Record = Record(voters: set<NodeId>, offset: Offset) {

    function QuorumSize(): nat { |voters| / 2 + 1 }

    /** Enough of the voters to decide. */
    ghost predicate IsQuorum(q: set<NodeId>) {
      q <= voters && |q| >= QuorumSize()
    }
  }

  datatype Pending = Pending(record: Record, offset: Offset)

  datatype Error =
    | ChangeAlreadyPending(pendingOffset: Offset)
    | NoPendingChange
    | OffsetMismatch(expected: Offset, actual: Offset)

  datatype Result = Ok(record: Record) | Err(error: Error)

  datatype State = State(committed: Record, pending: Option<Pending>) {

    function Effective(): Record {
      if pending.Some? then pending.value.record else committed
    }
  }

  function Propose(st: State, voters: set<NodeId>, at: Offset): (State, Result) {
    if st.pending.Some? then (st, Err(ChangeAlreadyPending(st.pending.value.offset)))
    else
      var record := Record(voters, at);
      (st.(pending := Some(Pending(record, at))), Ok(record))
  }

  function Commit(st: State, at: Offset): (State, Result) {
    if st.pending.None? then (st, Err(NoPendingChange))
    else if st.pending.value.offset != at then (st, Err(OffsetMismatch(st.pending.value.offset, at)))
    else (State(st.pending.value.record, None), Ok(st.pending.value.record))
  }

  function ClearIfTruncated(st: State, from: Offset): State {
    if st.pending.Some? && st.pending.value.offset >= from then st.(pending := None) else st
  }

  class MembershipState {
    var committed: Record
    var pending: Option<Pending>

    ghost function Abs(): State
      reads this
    {
      State(committed, pending)
    }

    constructor (voters: Record)
      ensures Abs() == State(voters, None)
    {
      committed, pending := voters, None;
    }

    method EffectiveVoters() returns (r: Record)
      ensures r == Abs().Effective()
    {
      match pending {
        case Some(p) => r := p.record;
        case None => r := committed;
      }
    }

    method ProposeChange(voters: set<NodeId>, at: Offset) returns (r: Result)
      modifies this`pending
      ensures (Abs(), r) == Propose(old(Abs()), voters, at)
    {
      if pending.Some? { return Err(ChangeAlreadyPending(pending.value.offset)); }
      var record := Record(voters, at);
      pending := Some(Pending(record, at));
      r := Ok(pending.value.record);
    }

    method CommitChange(at: Offset) returns (r: Result)
      modifies this
      ensures (Abs(), r) == Commit(old(Abs()), at)
    {
      var taken := pending;
      pending := None;
      if taken.None? { return Err(NoPendingChange); }
      if taken.value.offset != at {
        pending := taken;
        return Err(OffsetMismatch(pending.value.offset, at));
      }
      committed := taken.value.record;
      r := Ok(committed);
    }

    method ClearPendingIfTruncated(from: Offset)
      modifies this`pending
      ensures Abs() == ClearIfTruncated(old(Abs()), from)
    {
      if pending.Some? {
        if pending.value.offset >= from { pending := None; }
      }
    }

    method ClearPending()
      modifies this`pending
      ensures Abs() == old(Abs()).(pending := None)
    {
      pending := None;
    }

    method ApplySnapshot(voters: Record)
      modifies this
      ensures Abs() == State(voters, None)
    {
      committed := voters;
      pending := None;
    }
  }

  // ---- Membership beside a log ----

  /**
   A log that begins after a known voter record: entry i, at offset base + i, is
   a voter set or something else. Entries below the high watermark are committed.
   */
  datatype System = System(st: State, start: Record, base: Offset, entries: seq<Option<set<NodeId>>>, committed: nat) {

    function End(): Offset { base + |entries| }
  }

  datatype Event =
    | Proposed(voters: set<NodeId>)
    | Appended
    | Truncated(from: Offset)
    | Reverted
    | Committed
    | Reported(at: Offset)
    | SnapshotApplied(record: Record, base: Offset)

  /**
   Nothing committed is cut off, only what exists is committed, and a snapshot
   includes its voter record. A commit may be reported again, or of an offset
   that holds no voter record.
   */
  predicate Enabled(sys: System, ev: Event) {
    match ev
    case Truncated(from) => sys.base + sys.committed <= from <= sys.End()
    case Committed => sys.committed < |sys.entries|
    case Reported(at) =>
      at < sys.base + sys.committed || at >= sys.End() || sys.entries[at - sys.base].None?
    case SnapshotApplied(record, base) => record.offset < base
    case _ => true
  }

  /** Proposals are appended where they are recorded, cuts are reported, and so are commits of voter records. */
  function React(sys: System, ev: Event): System
    requires Enabled(sys, ev) && sys.committed <= |sys.entries|
  {
    match ev
    case Proposed(voters) =>
      var (st, r) := Propose(sys.st, voters, sys.End());
      if r.Ok? then sys.(st := st, entries := sys.entries + [Some(voters)]) else sys.(st := st)
    case Appended => sys.(entries := sys.entries + [None])
    case Truncated(from) =>
      sys.(st := ClearIfTruncated(sys.st, from), entries := sys.entries[..from - sys.base])
    case Reverted => sys.(st := sys.st.(pending := None), entries := sys.entries[..sys.committed])
    case Committed =>
      var st := if sys.entries[sys.committed].Some? then Commit(sys.st, sys.base + sys.committed).0 else sys.st;
      sys.(st := st, committed := sys.committed + 1)
    case Reported(at) => sys.(st := Commit(sys.st, at).0)
    case SnapshotApplied(record, base) => System(State(record, None), record, base, [], 0)
  }

  function Step(sys: System, ev: Event): System
    requires sys.committed <= |sys.entries|
  {
    if Enabled(sys, ev) then React(sys, ev) else sys
  }

  function Run(sys: System, evs: seq<Event>): (r: System)
    requires sys.committed <= |sys.entries|
    ensures r.committed <= |r.entries|
  {
    if evs == [] then sys else Step(Run(sys, evs[..|evs| - 1]), evs[|evs| - 1])
  }

  /** The last voter record of a log, counting the one it starts from. */
  function LastRecord(start: Record, base: Offset, entries: seq<Option<set<NodeId>>>): Record {
    if entries == [] then start
    else
      var n := |entries| - 1;
      if entries[n].Some? then Record(entries[n].value, base + n) else LastRecord(start, base, entries[..n])
  }

  /** No voter record from one index up to another. */
  ghost predicate NoneIn(entries: seq<Option<set<NodeId>>>, from: nat, to: nat) {
    forall i | from <= i < to && i < |entries| :: entries[i].None?
  }

  /** Memory and log agree: the pending change is the one uncommitted voter record. */
  ghost predicate Inv(sys: System) {
    && sys.committed <= |sys.entries|
    && sys.st.committed == LastRecord(sys.start, sys.base, sys.entries[..sys.committed])
    && (sys.st.pending.None? ==> NoneIn(sys.entries, sys.committed, |sys.entries|))
    && (sys.st.pending.Some? ==>
          var p := sys.st.pending.value;
          && p.record.offset == p.offset && sys.base + sys.committed <= p.offset < sys.End()
          && sys.entries[p.offset - sys.base] == Some(p.record.voters)
          && NoneIn(sys.entries, sys.committed, p.offset - sys.base)
          && NoneIn(sys.entries, p.offset - sys.base + 1, |sys.entries|))
  }

  /** The last record does not change over entries that are no voter records. */
  lemma {:induction false} LastThrough(start: Record, base: Offset, entries: seq<Option<set<NodeId>>>, from: nat)
    requires from <= |entries| && NoneIn(entries, from, |entries|)
    ensures LastRecord(start, base, entries) == LastRecord(start, base, entries[..from])
    decreases |entries|
  {
    if from == |entries| {
      assert entries[..from] == entries;
    } else {
      var n := |entries| - 1;
      LastThrough(start, base, entries[..n], from);
      assert entries[..n][..from] == entries[..from];
    }
  }

  /** Committed voters are the last record below the watermark, effective voters the last in the whole log. */
  lemma {:induction false} FollowsLog(sys: System)
    requires Inv(sys)
    ensures sys.st.committed == LastRecord(sys.start, sys.base, sys.entries[..sys.committed])
    ensures sys.st.Effective() == LastRecord(sys.start, sys.base, sys.entries)
    ensures forall i, j | sys.committed <= i < j < |sys.entries| :: sys.entries[i].None? || sys.entries[j].None?
  {
    if sys.st.pending.None? {
      LastThrough(sys.start, sys.base, sys.entries, sys.committed);
    } else {
      var k := sys.st.pending.value.offset - sys.base;
      LastThrough(sys.start, sys.base, sys.entries, k + 1);
      var cut := sys.entries[..k + 1];
      assert cut[|cut| - 1] == sys.entries[k];
    }
  }

  lemma {:induction false} CommitInv(sys: System)
    requires Inv(sys) && sys.committed < |sys.entries|
    ensures Inv(React(sys, Committed))
  {
    var k := sys.committed;
    var next := React(sys, Committed);
    var cut := sys.entries[..k + 1];
    assert cut[..k] == sys.entries[..k] && cut[k] == sys.entries[k];
    assert next.entries[..next.committed] == cut;
  }

  /** A report of anything but the pending change is refused and changes nothing. */
  lemma {:induction false} ReportedInv(sys: System, at: Offset)
    requires Inv(sys) && Enabled(sys, Reported(at))
    ensures React(sys, Reported(at)) == sys && Commit(sys.st, at).1.Err?
  {
  }

  /**
   A proposal is taken exactly when nothing is pending, and is then what the node
   goes by; the committed voters stay.
   */
  lemma {:induction false} ProposesExactly(st: State, voters: set<NodeId>, at: Offset)
    ensures var (now, r) := Propose(st, voters, at);
      && (r.Ok? <==> st.pending.None?) && now.committed == st.committed
      && (r.Ok? ==> r.record == now.Effective() == Record(voters, at) && now.pending == Some(Pending(r.record, at)))
      && (r.Err? ==> now == st && r.error == ChangeAlreadyPending(st.pending.value.offset))
  {
  }

  /**
   A commit succeeds exactly for the offset of the pending change, whose record
   it returns and makes the committed one.
   */
  lemma {:induction false} CommitsExactly(st: State, at: Offset)
    ensures var (now, r) := Commit(st, at);
      && (r.Ok? <==> st.pending.Some? && st.pending.value.offset == at)
      && (r.Ok? ==> r.record == now.committed == st.Effective() && now.pending.None?)
      && (r.Err? ==> now == st && r.error == match st.pending case None => NoPendingChange case Some(p) => OffsetMismatch(p.offset, at))
  {
  }

  lemma {:induction false} TruncateInv(sys: System, from: Offset)
    requires Inv(sys) && sys.base + sys.committed <= from <= sys.End()
    ensures Inv(React(sys, Truncated(from)))
  {
    var cut := sys.entries[..from - sys.base];
    assert cut[..sys.committed] == sys.entries[..sys.committed];
  }

  lemma {:induction false} AppendInv(sys: System, e: Option<set<NodeId>>)
    requires Inv(sys)
    ensures Inv(React(sys, Appended)) && (e.Some? ==> Inv(React(sys, Proposed(e.value))))
  {
    assert (sys.entries + [None])[..sys.committed] == sys.entries[..sys.committed];
    assert (sys.entries + [e])[..sys.committed] == sys.entries[..sys.committed];
  }

  lemma {:induction false} StepInv(sys: System, ev: Event)
    requires Inv(sys)
    ensures Inv(Step(sys, ev))
  {
    if Enabled(sys, ev) {
      match ev {
        case Proposed(voters) => AppendInv(sys, Some(voters));
        case Appended => AppendInv(sys, None);
        case Truncated(from) => TruncateInv(sys, from);
        case Reverted => TruncateInv(sys, sys.base + sys.committed);
        case Committed => CommitInv(sys);
        case Reported(at) => ReportedInv(sys, at);
        case SnapshotApplied(_, _) =>
      }
    }
  }

  /** A node that knows a voter record and has nothing after it. */
  ghost predicate Init(sys: System) {
    sys.st == State(sys.start, None) && sys.entries == [] && sys.committed == 0
  }

  lemma {:induction false} RunInv(sys: System, evs: seq<Event>)
    requires Init(sys)
    ensures Inv(Run(sys, evs))
    decreases |evs|
  {
    hide Step;
    if evs != [] {
      RunInv(sys, evs[..|evs| - 1]);
      StepInv(Run(sys, evs[..|evs| - 1]), evs[|evs| - 1]);
    }
  }

  /** In every run memory follows the log, with at most one uncommitted voter record. */
  lemma {:induction false} RunFollowsLog(sys: System, evs: seq<Event>)
    requires Init(sys)
    ensures var now := Run(sys, evs);
      && now.st.committed == LastRecord(now.start, now.base, now.entries[..now.committed])
      && now.st.Effective() == LastRecord(now.start, now.base, now.entries)
      && forall i, j | now.committed <= i < j < |now.entries| :: now.entries[i].None? || now.entries[j].None?
  {
    hide Run, LastRecord;
    RunInv(sys, evs);
    FollowsLog(Run(sys, evs));
  }

  /** In every run a proposal is accepted exactly when no voter record is uncommitted. */
  lemma {:induction false} ProposalAdmitted(sys: System, evs: seq<Event>, voters: set<NodeId>)
    requires Init(sys)
    ensures var now := Run(sys, evs);
      Propose(now.st, voters, now.End()).1.Ok? <==> NoneIn(now.entries, now.committed, |now.entries|)
  {
    hide Run, LastRecord;
    RunInv(sys, evs);
    var now := Run(sys, evs);
    if now.st.pending.Some? {
      var k := now.st.pending.value.offset - now.base;
      assert now.entries[k].Some?;
    }
  }

  // ---- Quorums ----

  /** A quorum is exactly more than half of the voters. */
  lemma {:induction false} QuorumIsMajority(r: Record, q: set<NodeId>)
    requires q <= r.voters
    ensures r.IsQuorum(q) <==> 2 * |q| > |r.voters|
  {
  }

  /** Two voter sets that differ in at most one node. */
  ghost predicate Close(a: set<NodeId>, b: set<NodeId>) {
    |a - b| + |b - a| <= 1
  }

  ghost predicate QuorumsMeet(a: Record, b: Record) {
    forall p, q | a.IsQuorum(p) && b.IsQuorum(q) :: p * q != {}
  }

  lemma {:induction false} Pick<T>(s: set<T>, k: nat) returns (r: set<T>)
    requires k <= |s|
    ensures r <= s && |r| == k
  {
    if k == 0 {
      r := {};
    } else {
      var x :| x in s;
      var rest := Pick(s - {x}, k - 1);
      r := rest + {x};
    }
  }

  /** Too small a union leaves room for two quorums apart. */
  lemma {:induction false} Apart(a: Record, b: Record) returns (p: set<NodeId>, q: set<NodeId>)
    requires a.voters != {} && b.voters != {}
    requires a.QuorumSize() + b.QuorumSize() <= |a.voters + b.voters|
    ensures a.IsQuorum(p) && b.IsQuorum(q) && p * q == {}
  {
    var alone := a.voters - b.voters;
    var shared := a.voters * b.voters;
    assert a.voters == alone + shared;
    assert a.voters + b.voters == alone + b.voters;
    if a.QuorumSize() <= |alone| {
      p := Pick(alone, a.QuorumSize());
      q := Pick(b.voters, b.QuorumSize());
    } else {
      var x := Pick(shared, a.QuorumSize() - |alone|);
      p := alone + x;
      q := Pick(b.voters - x, b.QuorumSize());
    }
  }

  /** Quorums of two configurations always meet exactly when together they outnumber the union. */
  lemma {:induction false} QuorumsMeetExactly(a: Record, b: Record)
    requires a.voters != {} && b.voters != {}
    ensures QuorumsMeet(a, b) <==> a.QuorumSize() + b.QuorumSize() > |a.voters + b.voters|
  {
    if a.QuorumSize() + b.QuorumSize() <= |a.voters + b.voters| {
      var p, q := Apart(a, b);
    } else {
      forall p, q | a.IsQuorum(p) && b.IsQuorum(q) ensures p * q != {} {
        var x := Quorum.Overlap(p, q, a.voters + b.voters);
        assert x in p * q;
      }
    }
  }

  /** A majority of one and a majority of the other outnumber the union. */
  lemma {:induction false} CloseSizes(a: Record, b: Record)
    requires Close(a.voters, b.voters)
    ensures a.QuorumSize() + b.QuorumSize() > |a.voters + b.voters|
  {
  }

  lemma {:induction false} CloseMeets(a: Record, b: Record)
    requires Close(a.voters, b.voters)
    ensures QuorumsMeet(a, b)
  {
    hide Close;
    CloseSizes(a, b);
    forall p, q | a.IsQuorum(p) && b.IsQuorum(q) ensures p * q != {} {
      var x := Quorum.Overlap(p, q, a.voters + b.voters);
      assert x in p * q;
    }
  }

  /** Every proposal of the run differs from the voters committed at the time in at most one node. */
  ghost predicate SmallChanges(sys: System, evs: seq<Event>)
    requires sys.committed <= |sys.entries|
  {
    forall i | 0 <= i < |evs| && evs[i].Proposed? :: Close(Run(sys, evs[..i]).st.committed.voters, evs[i].voters)
  }

  ghost predicate PendingClose(st: State) {
    st.pending.Some? ==> Close(st.committed.voters, st.pending.value.record.voters)
  }

  lemma {:induction false} StepClose(sys: System, ev: Event)
    requires Inv(sys) && PendingClose(sys.st)
    requires ev.Proposed? ==> Close(sys.st.committed.voters, ev.voters)
    ensures PendingClose(Step(sys, ev).st)
  {
  }

  lemma {:induction false} RunClose(sys: System, evs: seq<Event>)
    requires Init(sys) && SmallChanges(sys, evs)
    ensures PendingClose(Run(sys, evs).st)
    decreases |evs|
  {
    hide Step, Close;
    if evs != [] {
      var front := evs[..|evs| - 1];
      assert SmallChanges(sys, front) by {
        forall i | 0 <= i < |front| && front[i].Proposed? ensures Close(Run(sys, front[..i]).st.committed.voters, front[i].voters) {
          assert front[..i] == evs[..i];
          assert evs[i].Proposed?;
        }
      }
      RunClose(sys, front);
      RunInv(sys, front);
      assert evs[..|evs| - 1] == front;
      StepClose(Run(sys, front), evs[|evs| - 1]);
    }
  }

  /** With single-node changes, committed and effective quorums meet at every step of every run. */
  lemma {:induction false} QuorumsAlwaysMeet(sys: System, evs: seq<Event>)
    requires Init(sys) && SmallChanges(sys, evs)
    ensures var st := Run(sys, evs).st; QuorumsMeet(st.committed, st.Effective())
  {
    hide Run, Close, SmallChanges;
    RunClose(sys, evs);
    var st := Run(sys, evs).st;
    if st.pending.None? { CloseItself(st.committed.voters); }
    CloseMeets(st.committed, st.Effective());
  }

  lemma {:induction false} CloseItself(a: set<NodeId>)
    ensures Close(a, a)
  {
  }
}
