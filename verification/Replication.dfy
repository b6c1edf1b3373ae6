/**
 The follower side of replication as a function of the follower's state: how a
 fetch response is validated, truncates or extends the log, advances the high
 watermark, notifies the application and which I/O actions it emits.
 */
module Replication {
  import opened Types
  import LogSpec
  import Q = DeferredCompletion

  type Log = LogSpec.Log
  type VotersDecoder = bytes -> Option<seq<VoterInfo>>

  datatype PendingChange = PendingChange(offset: Offset, voters: seq<VoterInfo>)

  datatype QuorumState = QuorumState(
    term: Term, votedFor: Option<NodeId>, leaderId: Option<NodeId>, leaderEpoch: Term)

  datatype NodeState = NodeState(
    id: NodeId,
    clusterId: nat,
    term: Term,
    votedFor: Option<NodeId>,
    leaderId: Option<NodeId>,
    role: Role,
    votes: set<NodeId>,
    preVotes: set<NodeId>,
    log: Log,
    hw: Offset,
    voterSet: seq<VoterInfo>,
    pendingChange: Option<PendingChange>,
    epochs: map<Term, Offset>)

  /** A command handed to the application. */
  datatype Applied = Applied(offset: Offset, payload: bytes)

  /** What the state machine applied, the batches the listener saw, and whether it was told to shut down. */
  datatype App = App(applied: seq<Applied>, batches: seq<seq<Applied>>, shutdown: bool)

  datatype Follower = Follower(node: NodeState, app: App, queue: Q.Queue, transferInProgress: bool)

  datatype DivergingEpoch = DivergingEpoch(epoch: Term, endOffset: Offset)

  datatype SnapshotId = SnapshotId(endOffset: Offset, epoch: Term)

  datatype FetchResponse = FetchResponse(
    leaderId: NodeId,
    leaderEpoch: Term,
    highWatermark: Offset,
    logStartOffset: Offset,
    entries: seq<LogEntry>,
    diverging: Option<DivergingEpoch>,
    snapshotId: Option<SnapshotId>)

  datatype Payload = Fetched(response: FetchResponse) | OtherPayload

  datatype Envelope = Envelope(clusterId: nat, source: NodeId, payload: Payload)

  datatype Rpc =
    | FetchRequest(replica: NodeId, fetchOffset: Offset, lastFetchedEpoch: Term)
    | FetchSnapshotRequest(id: SnapshotId, position: nat)

  datatype IoAction =
    | PersistQuorumState(state: QuorumState)
    | AppendLog(entries: seq<LogEntry>)
    | TruncateSuffix(from: Offset)
    | SendRpc(target: NodeId, rpc: Rpc)

  datatype Reason =
    | StaleEpoch | NotFollower | WrongLeader | BothFields | BelowHighWatermark
    | OffsetMismatch | NonContiguous | VotersUndecodable | SourceMismatch | Unhandled

  datatype Error = InvalidClusterId | InvalidResponse(reason: Reason) | ApplyError(at: Offset)

  datatype Outcome = Ok(batch: seq<IoAction>, transferInitiated: bool) | Err(error: Error)

  datatype StepResult = StepResult(follower: Follower, outcome: Outcome)

  // ---- Building a fetch request ----

  function LastTerm(log: Log): Term {
    if log.entries == [] then 0 else log.entries[|log.entries| - 1].term
  }

  function FetchActions(n: NodeState): seq<IoAction> {
    if n.leaderId.Some? && n.role == Role.Follower
    then [SendRpc(n.leaderId.value, FetchRequest(n.id, n.log.End(), LastTerm(n.log)))]
    else []
  }

  function Persist(qs: Option<QuorumState>): seq<IoAction> {
    match qs case Some(s) => [PersistQuorumState(s)] case None => []
  }

  // ---- Validation ----

  datatype Validation = Accepted(node: NodeState, persist: Option<QuorumState>) | Rejected(reason: Reason)

  function Validate(n: NodeState, r: FetchResponse): Validation {
    if r.leaderEpoch < n.term then Rejected(StaleEpoch)
    else if r.leaderEpoch > n.term then
      var m := n.(term := r.leaderEpoch, votedFor := None, leaderId := Some(r.leaderId),
                  role := Role.Follower, votes := {}, preVotes := {});
      Accepted(m, Some(QuorumState(m.term, None, m.leaderId, m.term)))
    else if n.role != Role.Follower then Rejected(NotFollower)
    else if n.leaderId.None? then
      var m := n.(leaderId := Some(r.leaderId));
      Accepted(m, Some(QuorumState(m.term, m.votedFor, m.leaderId, m.term)))
    else if r.leaderId != n.leaderId.value then Rejected(WrongLeader)
    else if r.snapshotId.Some? && r.diverging.Some? then Rejected(BothFields)
    else Accepted(n, None)
  }

  // ---- Commit notification ----

  /** The commands among some entries, as the application sees them. */
  function Commands(es: seq<LogEntry>): seq<Applied> {
    if es == [] then []
    else
      var last := es[|es| - 1];
      var rest := Commands(es[..|es| - 1]);
      if last.entryType == Command then rest + [Applied(last.offset, last.payload)] else rest
  }

  datatype Commit = Commit(node: NodeState, app: App, error: Option<Error>)

  function ApplyOne(c: Commit, e: LogEntry, decode: VotersDecoder, rejects: set<Offset>): Commit {
    match e.entryType
    case Command =>
      if e.offset in rejects then
        Commit(c.node, c.app.(shutdown := true), Some(ApplyError(e.offset)))
      else
        c.(app := c.app.(applied := c.app.applied + [Applied(e.offset, e.payload)]))
    case VotersRecord =>
      (match decode(e.payload)
       case None => c.(error := Some(InvalidResponse(VotersUndecodable)))
       case Some(voters) =>
         var settled := c.node.pendingChange.Some? && c.node.pendingChange.value.offset <= e.offset;
         c.(node := c.node.(voterSet := voters,
                            pendingChange := if settled then None else c.node.pendingChange)))
    case LeaderChangeMessage =>
      c.(node := c.node.(epochs := c.node.epochs[e.term := e.offset]))
  }

  /** Applies entries in order, stopping at the first error. */
  function ApplyEntries(c: Commit, es: seq<LogEntry>, decode: VotersDecoder, rejects: set<Offset>): Commit
    decreases |es|
  {
    if es == [] then c
    else
      var front := ApplyEntries(c, es[..|es| - 1], decode, rejects);
      if front.error.Some? then front else ApplyOne(front, es[|es| - 1], decode, rejects)
  }

  function Notify(f: Follower, oldHw: Offset, newHw: Offset, decode: VotersDecoder, rejects: set<Offset>)
    : (Follower, Option<Error>)
  {
    var es := f.node.log.Read(oldHw, newHw);
    var c := ApplyEntries(Commit(f.node, f.app, None), es, decode, rejects);
    if c.error.Some? then (f.(node := c.node, app := c.app), c.error)
    else
      (f.(node := c.node,
          app := c.app.(batches := c.app.batches + [Commands(es)]),
          queue := Q.Complete(f.queue, newHw)), None)
  }

  // ---- The three kinds of response ----

  function OnSnapshot(f: Follower, r: FetchResponse, id: SnapshotId, persist: Option<QuorumState>): StepResult {
    if f.transferInProgress then StepResult(f, Ok(Persist(persist), false))
    else
      var target := if f.node.leaderId.Some? then f.node.leaderId.value else r.leaderId;
      StepResult(f.(transferInProgress := true),
                 Ok([SendRpc(target, FetchSnapshotRequest(id, 0))] + Persist(persist), true))
  }

  function KeepBelow(epochs: map<Term, Offset>, bound: Offset): map<Term, Offset> {
    map t | t in epochs && epochs[t] < bound :: epochs[t]
  }

  /** The node after cutting its log: nothing may refer to an entry that is gone. */
  function CutNode(n: NodeState, cut: Offset): NodeState {
    var gone := n.pendingChange.Some? && n.pendingChange.value.offset >= cut;
    n.(log := n.log.TruncateSuffix(cut),
       pendingChange := if gone then None else n.pendingChange,
       epochs := KeepBelow(n.epochs, cut))
  }

  function OnDivergence(f: Follower, d: DivergingEpoch, persist: Option<QuorumState>): StepResult {
    var n := f.node;
    var cut := Min(d.endOffset, n.log.End());
    if cut < n.hw then StepResult(f, Err(InvalidResponse(BelowHighWatermark)))
    else
      var m := CutNode(n, cut);
      StepResult(f.(node := m, queue := Q.FailAtOrAbove(f.queue, cut)),
                 Ok([TruncateSuffix(cut)] + FetchActions(m) + Persist(persist), false))
  }

  predicate Consecutive(es: seq<LogEntry>) {
    forall i | 0 <= i < |es| - 1 :: es[i + 1].offset == es[i].offset + 1
  }

  lemma {:induction false} ConsecutiveOffsets(es: seq<LogEntry>)
    requires Consecutive(es)
    ensures forall i | 0 <= i < |es| :: es[i].offset == es[0].offset + i
  {
    if |es| > 1 {
      var front := es[..|es| - 1];
      ConsecutiveOffsets(front);
      assert es[|es| - 2] == front[|es| - 2];
      assert es[|es| - 2 + 1].offset == es[|es| - 2].offset + 1;
    }
  }

  /** Raises the high watermark to min(leader's, log end) if that is higher, and notifies the application. */
  function Advance(f: Follower, leaderHw: Offset, success: Outcome, decode: VotersDecoder, rejects: set<Offset>)
    : StepResult
  {
    var newHw := Min(leaderHw, f.node.log.End());
    if newHw > f.node.hw then
      var (g, error) := Notify(f.(node := f.node.(hw := newHw)), f.node.hw, newHw, decode, rejects);
      StepResult(g, if error.Some? then Err(error.value) else success)
    else StepResult(f, success)
  }

  function OnEntries(f: Follower, r: FetchResponse, persist: Option<QuorumState>, decode: VotersDecoder,
                     rejects: set<Offset>): StepResult
  {
    var n := f.node;
    if r.entries != [] && r.entries[0].offset != n.log.End() then
      StepResult(f, Err(InvalidResponse(OffsetMismatch)))
    else if !Consecutive(r.entries) then StepResult(f, Err(InvalidResponse(NonContiguous)))
    else if r.entries == [] then Advance(f, r.highWatermark, Ok(Persist(persist), false), decode, rejects)
    else
      Advance(f.(node := n.(log := n.log.Append(r.entries))), r.highWatermark,
              Ok([AppendLog(r.entries)] + Persist(persist), false), decode, rejects)
  }

  function HandleFetchResponse(f: Follower, r: FetchResponse, decode: VotersDecoder, rejects: set<Offset>)
    : StepResult
  {
    match Validate(f.node, r)
    case Rejected(reason) => StepResult(f, Err(InvalidResponse(reason)))
    case Accepted(n, persist) =>
      var g := f.(node := n);
      if r.snapshotId.Some? && r.diverging.Some? then StepResult(g, Err(InvalidResponse(BothFields)))
      else if r.snapshotId.Some? then OnSnapshot(g, r, r.snapshotId.value, persist)
      else if r.diverging.Some? then OnDivergence(g, r.diverging.value, persist)
      else OnEntries(g, r, persist, decode, rejects)
  }

  function HandleMessage(f: Follower, m: Envelope, decode: VotersDecoder, rejects: set<Offset>): StepResult {
    if m.clusterId != f.node.clusterId then StepResult(f, Err(InvalidClusterId))
    else match m.payload
      case OtherPayload => StepResult(f, Err(InvalidResponse(Unhandled)))
      case Fetched(r) =>
        if m.source != r.leaderId then StepResult(f, Err(InvalidResponse(SourceMismatch)))
        else HandleFetchResponse(f, r, decode, rejects)
  }
}
