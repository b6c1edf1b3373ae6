/**
 One consensus node during elections, as functions from its memory and its
 stores before a handler to those after it. Storage outcomes are parameters.
 */
module RaftSpec {
  import opened Types
  import opened LogSpec

  /** The nil cluster id. */
  const NIL: nat := 0

  datatype QuorumState = QuorumState(
    term: Term, votedFor: Option<NodeId>, leaderId: Option<NodeId>, leaderEpoch: Term, clusterId: nat)

  datatype Snapshot = Snapshot(voters: seq<VoterInfo>, lastIncluded: Offset)

  /** What survives a crash. */
  datatype Stores = Stores(log: Log, quorum: Option<QuorumState>, snapshot: Option<Snapshot>)

  /** What does not. */
  datatype Node = Node(
    clusterId: nat, term: Term, votedFor: Option<NodeId>, role: Role, leaderId: Option<NodeId>,
    logStart: Offset, logEnd: Offset, highWatermark: Offset,
    voters: seq<VoterInfo>, votes: set<NodeId>, bootstrapped: bool)

  datatype Payload = Request(request: VoteRequest) | Response(response: VoteResponse) | OtherRpc

  datatype Envelope = Envelope(clusterId: nat, leaderEpoch: Term, source: NodeId, payload: Payload)

  datatype Packet = Packet(to: NodeId, envelope: Envelope)

  /** How a save of the quorum state ends; a failure may come before or after the bytes are durable. */
  datatype Save = Saved | NotWritten | WrittenThenFailed

  /** How the appends of a winning candidate end; the process may die between the two. */
  datatype Appends = Appends(leaderChange: bool, voters: VotersAppend, rolledBack: bool)

  datatype VotersAppend = Appended | Refused | DiedBefore

  /** The outcomes of every storage call one handler makes, and whether a reply could be sent. */
  datatype Storage = Storage(adopt: Save, vote: Save, appends: Appends, replied: bool)

  datatype Outcome = Done | Failed | Died

  datatype Effect = Effect(node: Node, stores: Stores, sent: seq<Packet>, outcome: Outcome)

  /** Serialisation of voter lists. */
  datatype VotersCodec = VotersCodec(encode: seq<VoterInfo> -> bytes, decode: bytes -> Option<seq<VoterInfo>>)

  ghost predicate Faithful(c: VotersCodec) {
    forall vs {:trigger c.encode(vs)} :: c.decode(c.encode(vs)) == Some(vs)
  }

  // ---- Stores ----

  predicate HasData(stores: Stores) {
    stores.log.start != 0 || stores.log.End() != 0 || stores.quorum.Some? || stores.snapshot.Some?
  }

  function LastLogInfo(log: Log): Freshness {
    if log.End() == 0 then Freshness(0, 0)
    else match log.EntryAt(log.End() - 1)
      case Some(e) => Freshness(e.term, log.End() - 1)
      case None => Freshness(0, log.End() - 1)
  }

  predicate HasVotersRecord(log: Log) {
    exists i :: 0 <= i < |log.entries| && log.entries[i].entryType == VotersRecord
  }

  function SaveQuorum(stores: Stores, node: Node, save: Save): Stores {
    if save.NotWritten? then stores
    else stores.(quorum := Some(QuorumState(node.term, node.votedFor, None, 0, node.clusterId)))
  }

  // ---- Starting ----

  const FRESH: Node := Node(NIL, 0, None, Unattached, None, 0, 0, 0, [], {}, false)

  function Recover(c: VotersCodec, stores: Stores): Node {
    var q := stores.quorum;
    var n := if q.None? then FRESH
             else FRESH.(term := q.value.term, votedFor := q.value.votedFor, leaderId := q.value.leaderId,
                         clusterId := q.value.clusterId);
    var snapshotEnd := if stores.snapshot.None? then 0 else stores.snapshot.value.lastIncluded + 1;
    var voters :=
      if stores.snapshot.Some? then stores.snapshot.value.voters
      else if q.None? then []
      else match LatestVoters(c.decode, stores.log.entries) case Some(vs) => vs case None => [];
    n.(voters := voters, highWatermark := snapshotEnd,
       logStart := Max(snapshotEnd, stores.log.start), logEnd := Max(stores.log.End(), snapshotEnd),
       role := Follower, bootstrapped := true)
  }

  function Start(c: VotersCodec, stores: Stores): Node {
    if HasData(stores) then Recover(c, stores) else FRESH
  }

  predicate ValidBootstrap(id: NodeId, clusterId: nat, voters: seq<VoterInfo>) {
    clusterId != NIL && !Duplicates(voters) && id in Ids(voters)
  }

  predicate CanBootstrap(id: NodeId, node: Node, stores: Stores, clusterId: nat, voters: seq<VoterInfo>) {
    !node.bootstrapped && node.role.Unattached? && !HasData(stores) && ValidBootstrap(id, clusterId, voters)
  }

  function Bootstrap(id: NodeId, node: Node, stores: Stores, clusterId: nat, voters: seq<VoterInfo>): Effect {
    if !CanBootstrap(id, node, stores, clusterId, voters) then Effect(node, stores, [], Failed)
    else
      Effect(node.(clusterId := clusterId, voters := voters, term := 0, votedFor := None, leaderId := None,
                   role := Follower, votes := {}, bootstrapped := true), stores, [], Done)
  }

  // ---- Elections ----

  predicate HasQuorum(node: Node) {
    |node.voters| > 0 && |node.votes| >= |node.voters| / 2 + 1
  }

  function LeaderChange(node: Node, log: Log): LogEntry {
    LogEntry(log.End(), node.term, LeaderChangeMessage, [])
  }

  function Voters(c: VotersCodec, node: Node, log: Log): LogEntry {
    LogEntry(log.End(), node.term, VotersRecord, c.encode(node.voters))
  }

  /** The log a win leaves behind. */
  function WonLog(c: VotersCodec, node: Node, log: Log): Log {
    var changed := log.Append([LeaderChange(node, log)]);
    if HasVotersRecord(log) then changed else changed.Append([Voters(c, node, changed)])
  }

  function Lead(id: NodeId, node: Node, end: Offset): Node {
    node.(role := Leader, leaderId := Some(id), logEnd := end,
          highWatermark := if |node.voters| == 1 then end else node.highWatermark)
  }

  function BecomeLeader(c: VotersCodec, id: NodeId, node: Node, stores: Stores, io: Appends): Effect {
    var log := stores.log;
    var changed := log.Append([LeaderChange(node, log)]);
    if !io.leaderChange then Effect(node, stores, [], Failed)
    else if !HasVotersRecord(log) && io.voters.DiedBefore? then
      Effect(node, stores.(log := changed), [], Died)
    else if !HasVotersRecord(log) && io.voters.Refused? then
      var left := if io.rolledBack then changed.TruncateSuffix(changed.End() - 1) else changed;
      Effect(node, stores.(log := left), [], Failed)
    else
      var won := WonLog(c, node, log);
      Effect(Lead(id, node, won.End()), stores.(log := won), [], Done)
  }

  /** A candidate's request, addressed to every voter but itself. */
  function Requests(id: NodeId, node: Node, log: Log, to: seq<VoterInfo>): seq<Packet> {
    if to == [] then []
    else
      var last := to[|to| - 1].nodeId;
      var rest := Requests(id, node, log, to[..|to| - 1]);
      if last == id then rest else rest + [Packet(last, Ask(id, node, log))]
  }

  function Ask(id: NodeId, node: Node, log: Log): Envelope {
    var last := LastLogInfo(log);
    Envelope(node.clusterId, 0, id, Request(VoteRequest(node.term, id, last.offset, last.term, false)))
  }

  function Stand(id: NodeId, node: Node): Node {
    node.(term := node.term + 1, votedFor := Some(id), role := Candidate, leaderId := None, votes := {id})
  }

  function ElectionTimeout(c: VotersCodec, id: NodeId, node: Node, stores: Stores, io: Storage): Effect {
    if !node.role.Follower? && !node.role.Candidate? then Effect(node, stores, [], Failed)
    else
      var stood := Stand(id, node);
      var kept := SaveQuorum(stores, stood, io.vote);
      if !io.vote.Saved? then Effect(stood, kept, [], Failed)
      else if HasQuorum(stood) then BecomeLeader(c, id, stood, kept, io.appends)
      else Effect(stood, kept, Requests(id, stood, kept.log, stood.voters), Done)
  }

  /** Taking over a higher term: no vote, no leader, no votes received. */
  function Adopt(node: Node, term: Term): Node {
    node.(term := term, votedFor := None, role := Follower, leaderId := None, votes := {})
  }

  function CandidateLast(req: VoteRequest): Freshness {
    Freshness(req.lastLogTerm, req.lastLogOffset)
  }

  predicate Grants(node: Node, log: Log, req: VoteRequest) {
    && (node.votedFor.None? || node.votedFor == Some(req.candidateId))
    && NoFresherThan(LastLogInfo(log), CandidateLast(req))
  }

  function Answer(id: NodeId, node: Node, req: VoteRequest, to: NodeId, granted: bool): Packet {
    Packet(to, Envelope(node.clusterId, 0, id, Response(VoteResponse(node.term, granted, req.isPreVote))))
  }

  function OnVoteRequest(id: NodeId, node: Node, stores: Stores, req: VoteRequest, from: NodeId, io: Storage): Effect {
    if req.candidateId !in Ids(node.voters) then Effect(node, stores, [Answer(id, node, req, from, false)], Done)
    else
      var adopting := req.term > node.term;
      var cur := if adopting then Adopt(node, req.term) else node;
      var kept := if adopting then SaveQuorum(stores, cur, io.adopt) else stores;
      if adopting && !io.adopt.Saved? then Effect(cur, kept, [], Failed)
      else if req.term < cur.term then Effect(cur, kept, [Answer(id, cur, req, from, false)], Done)
      else if !Grants(cur, kept.log, req) then Effect(cur, kept, [Answer(id, cur, req, from, false)], Done)
      else if req.isPreVote then Effect(cur, kept, [Answer(id, cur, req, from, true)], Done)
      else
        var voted := cur.(votedFor := Some(req.candidateId));
        var written := SaveQuorum(kept, voted, io.vote);
        if !io.vote.Saved? then Effect(voted, written, [], Failed)
        else Effect(voted, written, [Answer(id, voted, req, from, true)], Done)
  }

  function OnVoteResponse(c: VotersCodec, id: NodeId, node: Node, stores: Stores, from: NodeId, resp: VoteResponse, io: Storage): Effect {
    if resp.term > node.term then
      var cur := Adopt(node, resp.term);
      Effect(cur, SaveQuorum(stores, cur, io.adopt), [], if io.adopt.Saved? then Done else Failed)
    else if !node.role.Candidate? || resp.term != node.term || resp.isPreVote || from !in Ids(node.voters)
            || !resp.voteGranted then
      Effect(node, stores, [], Done)
    else
      var counted := node.(votes := node.votes + {from});
      if HasQuorum(counted) then BecomeLeader(c, id, counted, stores, io.appends)
      else Effect(counted, stores, [], Done)
  }

  /** After bootstrap, messages with a nil or another cluster's id are refused. */
  predicate Fenced(node: Node, env: Envelope) {
    node.bootstrapped && node.clusterId != NIL && (env.clusterId == NIL || env.clusterId != node.clusterId)
  }

  /** A reply that cannot be sent is an error; what was decided stands. */
  function Replied(e: Effect, replied: bool): Effect {
    if e.outcome.Done? && !replied then e.(sent := [], outcome := Failed) else e
  }

  function OnRpc(c: VotersCodec, id: NodeId, node: Node, stores: Stores, env: Envelope, io: Storage): Effect {
    if Fenced(node, env) then Effect(node, stores, [], Failed)
    else match env.payload
      case Request(req) => Replied(OnVoteRequest(id, node, stores, req, env.source, io), io.replied)
      case Response(resp) => OnVoteResponse(c, id, node, stores, env.source, resp, io)
      case OtherRpc => Effect(node, stores, [], Done)
  }
}
