/**
 The follower as the object the code mutates: node state, state machine,
 listener and completion queue, updated step by step by each handler.
 */
module ReplicationNode {
  import opened Types
  import opened Replication
  import LogSpec
  import DeferredCompletion

  class FollowerNode {
    const id: NodeId
    const clusterId: nat
    const logStart: Offset
    const decode: VotersDecoder
    const queue: DeferredCompletion.DeferredCompletionQueue

    var term: Term
    var votedFor: Option<NodeId>
    var leaderId: Option<NodeId>
    var role: Role
    var votes: set<NodeId>
    var preVotes: set<NodeId>
    var log: seq<LogEntry>
    var logEnd: Offset
    var hw: Offset
    var voterSet: seq<VoterInfo>
    var pendingChange: Option<PendingChange>
    var epochs: map<Term, Offset>

    var applied: seq<Applied>
    var batches: seq<seq<Applied>>
    var shutdown: bool
    var transferInProgress: bool

    constructor (id: NodeId, clusterId: nat, logStart: Offset, decode: VotersDecoder)
      ensures Valid() && fresh(queue)
      ensures this.id == id && this.clusterId == clusterId && this.logStart == logStart
      ensures applied == [] && batches == [] && log == [] && hw == logStart && term == 0
    {
      this.id, this.clusterId, this.logStart, this.decode := id, clusterId, logStart, decode;
      queue := new DeferredCompletion.DeferredCompletionQueue();
      term, votedFor, leaderId, role, votes, preVotes := 0, None, None, Role.Follower, {}, {};
      log, logEnd, hw := [], logStart, logStart;
      voterSet, pendingChange, epochs := [], None, map[];
      applied, batches, shutdown, transferInProgress := [], [], false, false;
    }

    /** The end offset the code keeps beside the log vector agrees with it. */
    ghost predicate Valid()
      reads this
    {
      && logEnd == logStart + |log|
      && logStart <= hw <= logEnd
      && LogSpec.Log(logStart, log).Contiguous()
    }

    function Node(): NodeState
      reads this
    {
      NodeState(id, clusterId, term, votedFor, leaderId, role, votes, preVotes,
                LogSpec.Log(logStart, log), hw, voterSet, pendingChange, epochs)
    }

    function AppView(): App
      reads this
    {
      App(applied, batches, shutdown)
    }

    function View(): Follower
      reads this, queue
    {
      Replication.Follower.Follower(Node(), AppView(), queue.View(), transferInProgress)
    }

    method BuildFetchRequest() returns (actions: seq<IoAction>)
      requires Valid()
      ensures actions == FetchActions(Node())
    {
      if leaderId.None? || role != Role.Follower { return []; }
      var last := if log == [] then 0 else log[|log| - 1].term;
      actions := [SendRpc(leaderId.value, FetchRequest(id, logEnd, last))];
    }

    method ValidateAndUpdateTerm(r: FetchResponse) returns (persist: Option<QuorumState>, error: Option<Reason>)
      requires Valid()
      modifies this`term, this`votedFor, this`leaderId, this`role, this`votes, this`preVotes
      ensures Valid()
      ensures match Validate(old(Node()), r)
              case Accepted(n, p) => Node() == n && persist == p && error == None
              case Rejected(reason) => Node() == old(Node()) && error == Some(reason)
    {
      persist, error := None, None;
      if r.leaderEpoch < term { return None, Some(StaleEpoch); }
      if r.leaderEpoch > term {
        term := r.leaderEpoch;
        votedFor := None;
        leaderId := Some(r.leaderId);
        role := Role.Follower;
        votes := {};
        preVotes := {};
        return Some(QuorumState(term, votedFor, leaderId, term)), None;
      }
      if role != Role.Follower { return None, Some(NotFollower); }
      if leaderId.Some? {
        if r.leaderId != leaderId.value { return None, Some(WrongLeader); }
      } else {
        leaderId := Some(r.leaderId);
        return Some(QuorumState(term, votedFor, leaderId, term)), None;
      }
      if r.snapshotId.Some? && r.diverging.Some? { return None, Some(BothFields); }
    }

    /** Applies one committed entry; false when the node must halt. */
    method ApplyEntry(e: LogEntry, rejects: set<Offset>) returns (error: Option<Error>)
      modifies this`applied, this`shutdown, this`voterSet, this`pendingChange, this`epochs
      ensures Commit(Node(), AppView(), error) == ApplyOne(old(Commit(Node(), AppView(), None)), e, decode, rejects)
    {
      error := None;
      match e.entryType
      case Command =>
        if e.offset in rejects {
          shutdown := true;
          return Some(ApplyError(e.offset));
        }
        applied := applied + [Applied(e.offset, e.payload)];
      case VotersRecord =>
        var voters := decode(e.payload);
        if voters.None? { return Some(InvalidResponse(VotersUndecodable)); }
        voterSet := voters.value;
        if pendingChange.Some? && pendingChange.value.offset <= e.offset {
          pendingChange := None;
        }
      case LeaderChangeMessage =>
        epochs := epochs[e.term := e.offset];
    }

    /** Applies committed entries in order until one fails. */
    method ApplyCommitted(es: seq<LogEntry>, rejects: set<Offset>) returns (error: Option<Error>)
      modifies this`applied, this`shutdown, this`voterSet, this`pendingChange, this`epochs
      ensures Commit(Node(), AppView(), error) ==
              ApplyEntries(old(Commit(Node(), AppView(), None)), es, decode, rejects)
    {
      error := None;
      ghost var first := Commit(Node(), AppView(), None);
      for i := 0 to |es|
        invariant error == None
        invariant Commit(Node(), AppView(), None) == ApplyEntries(first, es[..i], decode, rejects)
      {
        assert es[..i + 1][..i] == es[..i];
        error := ApplyEntry(es[i], rejects);
        if error.Some? {
          ErrorSticks(first, es, i + 1, decode, rejects);
          return;
        }
      }
      assert es[..|es|] == es;
    }

    static method CollectCommands(es: seq<LogEntry>) returns (records: seq<Applied>)
      ensures records == Commands(es)
    {
      records := [];
      for i := 0 to |es|
        invariant records == Commands(es[..i])
      {
        assert es[..i + 1][..i] == es[..i];
        if es[i].entryType == Command {
          records := records + [Applied(es[i].offset, es[i].payload)];
        }
      }
      assert es[..|es|] == es;
    }

    /** State machine first, then the listener, then the parked completions. */
    method ExecuteCommitNotification(oldHw: Offset, newHw: Offset, rejects: set<Offset>) returns (error: Option<Error>)
      modifies this`applied, this`shutdown, this`voterSet, this`pendingChange, this`epochs, this`batches, queue
      ensures (View(), error) == Notify(old(View()), oldHw, newHw, decode, rejects)
    {
      var committed := LogSpec.Log(logStart, log).Read(oldHw, newHw);
      error := ApplyCommitted(committed, rejects);
      if error.Some? { return; }
      var records := CollectCommands(committed);
      batches := batches + [records];
      var _ := queue.CompleteBelow(newHw);
    }

    method Cut(cut: Offset)
      requires Valid() && hw <= cut <= logEnd
      modifies this`log, this`logEnd, this`pendingChange, this`epochs
      ensures Valid() && Node() == CutNode(old(Node()), cut)
    {
      assert LogSpec.Log(logStart, log[..cut - logStart]) == LogSpec.Log(logStart, log).TruncateSuffix(cut);
      log := log[..cut - logStart];
      logEnd := cut;
      if pendingChange.Some? && pendingChange.value.offset >= cut { pendingChange := None; }
      epochs := KeepBelow(epochs, cut);
    }

    method TruncateOnDivergence(d: DivergingEpoch, persist: Option<QuorumState>) returns (out: Outcome)
      requires Valid()
      modifies this`log, this`logEnd, this`pendingChange, this`epochs, queue
      ensures Valid()
      ensures StepResult(View(), out) == OnDivergence(old(View()), d, persist)
    {
      var cut := Min(d.endOffset, logEnd);
      if cut < hw { return Err(InvalidResponse(BelowHighWatermark)); }
      Cut(cut);
      var _ := queue.FailFrom(cut);
      var refetch := BuildFetchRequest();
      out := Ok([TruncateSuffix(cut)] + refetch + Persist(persist), false);
    }

    static method CheckEntries(es: seq<LogEntry>, end: Offset) returns (bad: Option<Reason>)
      ensures bad == if es != [] && es[0].offset != end then Some(OffsetMismatch)
                     else if !Consecutive(es) then Some(NonContiguous) else None
    {
      bad := None;
      if es == [] { return; }
      if es[0].offset != end { return Some(OffsetMismatch); }
      for i := 0 to |es| - 1
        invariant forall j | 0 <= j < i :: es[j + 1].offset == es[j].offset + 1
      {
        if es[i + 1].offset != es[i].offset + 1 { return Some(NonContiguous); }
      }
    }

    method Append(es: seq<LogEntry>)
      requires Valid() && es != [] && es[0].offset == logEnd && Consecutive(es)
      modifies this`log, this`logEnd
      ensures Valid() && log == old(log) + es
    {
      ConsecutiveOffsets(es);
      log := log + es;
      logEnd := logEnd + |es|;
    }

    method AdvanceHighWatermark(leaderHw: Offset, success: Outcome, rejects: set<Offset>) returns (out: Outcome)
      requires Valid()
      modifies this`hw
      modifies this`applied, this`shutdown, this`voterSet, this`pendingChange, this`epochs, this`batches, queue
      ensures Valid()
      ensures StepResult(View(), out) == Advance(old(View()), leaderHw, success, decode, rejects)
    {
      var newHw := Min(leaderHw, logEnd);
      var oldHw := hw;
      if newHw <= oldHw { return success; }
      hw := newHw;
      var error := ExecuteCommitNotification(oldHw, newHw, rejects);
      out := if error.Some? then Err(error.value) else success;
    }

    method AppendAndAdvance(r: FetchResponse, persist: Option<QuorumState>, rejects: set<Offset>) returns (out: Outcome)
      requires Valid()
      modifies this`log, this`logEnd, this`hw
      modifies this`applied, this`shutdown, this`voterSet, this`pendingChange, this`epochs, this`batches, queue
      ensures Valid()
      ensures StepResult(View(), out) == OnEntries(old(View()), r, persist, decode, rejects)
    {
      var bad := CheckEntries(r.entries, logEnd);
      if bad.Some? { return Err(InvalidResponse(bad.value)); }
      var success := Ok(Persist(persist), false);
      if r.entries != [] {
        Append(r.entries);
        success := Ok([AppendLog(r.entries)] + Persist(persist), false);
      }
      out := AdvanceHighWatermark(r.highWatermark, success, rejects);
    }

    method Handle(r: FetchResponse, rejects: set<Offset>) returns (out: Outcome)
      requires Valid()
      modifies this, queue
      ensures Valid()
      ensures StepResult(View(), out) == HandleFetchResponse(old(View()), r, decode, rejects)
    {
      var persist, error := ValidateAndUpdateTerm(r);
      if error.Some? { return Err(InvalidResponse(error.value)); }
      if r.snapshotId.Some? && r.diverging.Some? { return Err(InvalidResponse(BothFields)); }
      if r.snapshotId.Some? {
        if transferInProgress { return Ok(Persist(persist), false); }
        var target := if leaderId.Some? then leaderId.value else r.leaderId;
        transferInProgress := true;
        return Ok([SendRpc(target, FetchSnapshotRequest(r.snapshotId.value, 0))] + Persist(persist), true);
      }
      if r.diverging.Some? {
        out := TruncateOnDivergence(r.diverging.value, persist);
        return;
      }
      out := AppendAndAdvance(r, persist, rejects);
    }

    method Receive(m: Envelope, rejects: set<Offset>) returns (out: Outcome)
      requires Valid()
      modifies this, queue
      ensures Valid()
      ensures StepResult(View(), out) == HandleMessage(old(View()), m, decode, rejects)
    {
      if m.clusterId != clusterId { return Err(InvalidClusterId); }
      match m.payload
      case OtherPayload => out := Err(InvalidResponse(Unhandled));
      case Fetched(r) =>
        if m.source != r.leaderId { return Err(InvalidResponse(SourceMismatch)); }
        out := Handle(r, rejects);
    }
  }

  /** Once an entry fails, the entries after it are not looked at. */
  lemma {:induction false} ErrorSticks(c: Commit, es: seq<LogEntry>, k: nat, decode: VotersDecoder, rejects: set<Offset>)
    requires k <= |es| && ApplyEntries(c, es[..k], decode, rejects).error.Some?
    ensures ApplyEntries(c, es, decode, rejects) == ApplyEntries(c, es[..k], decode, rejects)
    decreases |es|
  {
    if k == |es| {
      assert es[..k] == es;
    } else {
      assert es[..|es| - 1][..k] == es[..k];
      ErrorSticks(c, es[..|es| - 1], k, decode, rejects);
    }
  }
}
