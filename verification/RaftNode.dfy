/** The node object, whose handlers change its state and its stores step by step. */
module RaftNode {
  import opened Types
  import opened LogSpec
  import opened RaftSpec
  import Quorum

  method AnyVotersRecord(entries: seq<LogEntry>) returns (found: bool)
    ensures found <==> HasVotersRecord(Log(0, entries))
  {
    found := false;
    for i := 0 to |entries|
      invariant found <==> exists j :: 0 <= j < i && entries[j].entryType == VotersRecord
    {
      if entries[i].entryType == VotersRecord { found := true; }
    }
  }

  /** Scans the log backwards for a voter list that can be decoded. */
  method ScanVoters(c: VotersCodec, entries: seq<LogEntry>) returns (found: Option<seq<VoterInfo>>)
    ensures found == LatestVoters(c.decode, entries)
  {
    var i := |entries|;
    assert entries[..i] == entries;
    while i > 0
      invariant i <= |entries| && LatestVoters(c.decode, entries[..i]) == LatestVoters(c.decode, entries)
    {
      assert entries[..i][..i - 1] == entries[..i - 1];
      i := i - 1;
      if entries[i].entryType == VotersRecord {
        var record := c.decode(entries[i].payload);
        if record.Some? { return record; }
      }
    }
    found := None;
  }

  method ValidateBootstrapConfig(id: NodeId, clusterId: nat, voters: seq<VoterInfo>) returns (ok: bool)
    ensures ok <==> ValidBootstrap(id, clusterId, voters)
  {
    if clusterId == NIL || voters == [] { return false; }
    var seen: set<NodeId> := {};
    for i := 0 to |voters|
      invariant forall x :: x in seen <==> exists j :: 0 <= j < i && voters[j].nodeId == x
      invariant forall j, k | 0 <= j < k < i :: voters[j].nodeId != voters[k].nodeId
    {
      if voters[i].nodeId in seen { return false; }
      seen := seen + {voters[i].nodeId};
    }
    ok := Quorum.AnyVoter(voters, id);
  }

  class RaftNode {
    const id: NodeId
    const codec: VotersCodec
    var state: Node
    var log: Log
    var quorumFile: Option<QuorumState>
    var snapshot: Option<Snapshot>
    var sent: seq<Packet>

    ghost function Disk(): Stores
      reads this
    {
      Stores(log, quorumFile, snapshot)
    }

    /** The handler did what the specification says, and sent that much more. */
    ghost predicate Did(e: Effect, outcome: Outcome, before: seq<Packet>)
      reads this
    {
      e == Effect(state, Disk(), e.sent, outcome) && sent == before + e.sent
    }

    /** Starts on what the stores hold. */
    constructor (id: NodeId, codec: VotersCodec, stores: Stores)
      ensures this.id == id && this.codec == codec && Disk() == stores && sent == []
      ensures state == Start(codec, stores)
    {
      this.id, this.codec := id, codec;
      state := FRESH;
      log, quorumFile, snapshot, sent := stores.log, stores.quorum, stores.snapshot, [];
      new;
      if log.start != 0 || log.End() != 0 || quorumFile.Some? || snapshot.Some? {
        RecoverState();
      }
    }

    method RecoverState()
      requires state == FRESH
      modifies this`state
      ensures state == Recover(codec, Disk())
    {
      if quorumFile.Some? {
        var qs := quorumFile.value;
        state := state.(term := qs.term, votedFor := qs.votedFor, leaderId := qs.leaderId, clusterId := qs.clusterId);
      }
      var snapshotEnd := 0;
      if snapshot.Some? {
        snapshotEnd := snapshot.value.lastIncluded + 1;
        state := state.(voters := snapshot.value.voters, logStart := snapshotEnd, highWatermark := snapshotEnd);
      }
      if log.start > state.logStart { state := state.(logStart := log.start); }
      state := state.(logEnd := Max(log.End(), snapshotEnd));
      if snapshot.None? && quorumFile.Some? && log.End() > log.start {
        var found := ScanVoters(codec, log.entries);
        if found.Some? { state := state.(voters := found.value); }
      }
      state := state.(role := Follower);
      state := state.(bootstrapped := true);
    }

    method BootstrapCluster(cluster: nat, initial: seq<VoterInfo>) returns (outcome: Outcome)
      modifies this`state
      ensures Did(Bootstrap(id, old(state), Disk(), cluster, initial), outcome, sent)
    {
      if state.bootstrapped || state.role != Unattached { return Failed; }
      if log.start != 0 || log.End() != 0 || quorumFile.Some? || snapshot.Some? { return Failed; }
      var ok := ValidateBootstrapConfig(id, cluster, initial);
      if !ok { return Failed; }
      state := state.(clusterId := cluster, voters := initial);
      state := state.(term := 0, votedFor := None, leaderId := None, role := Follower, votes := {});
      state := state.(bootstrapped := true);
      outcome := Done;
    }

    method EnoughVotes() returns (enough: bool)
      ensures enough == HasQuorum(state)
    {
      if |state.voters| == 0 { return false; }
      var needed := |state.voters| / 2 + 1;
      enough := |state.votes| >= needed;
    }

    method LastInfo() returns (last: Freshness)
      ensures last == LastLogInfo(log)
    {
      if log.End() == 0 { return Freshness(0, 0); }
      var lastOffset := log.End() - 1;
      match log.EntryAt(lastOffset) {
        case Some(e) => last := Freshness(e.term, lastOffset);
        case None => last := Freshness(0, lastOffset);
      }
    }

    method PersistQuorum(save: Save) returns (ok: bool)
      modifies this`quorumFile
      ensures ok <==> save.Saved?
      ensures Disk() == SaveQuorum(old(Disk()), state, save)
    {
      if !save.NotWritten? {
        quorumFile := Some(QuorumState(state.term, state.votedFor, None, 0, state.clusterId));
      }
      ok := save.Saved?;
    }

    method WinElection(io: Appends) returns (outcome: Outcome)
      modifies this`state, this`log
      ensures Did(BecomeLeader(codec, id, old(state), old(Disk()), io), outcome, sent)
    {
      var recorded := AnyVotersRecord(log.entries);
      assert recorded == HasVotersRecord(log);
      if !io.leaderChange { return Failed; }
      log := log.Append([LogEntry(log.End(), state.term, LeaderChangeMessage, [])]);
      if !recorded {
        var payload := codec.encode(state.voters);
        match io.voters {
          case DiedBefore => return Died;
          case Refused =>
            var lcmOffset := if log.End() == 0 then 0 else log.End() - 1;
            if io.rolledBack { log := log.TruncateSuffix(lcmOffset); }
            return Failed;
          case Appended =>
            log := log.Append([LogEntry(log.End(), state.term, VotersRecord, payload)]);
        }
      }
      state := state.(role := Leader, leaderId := Some(id));
      state := state.(logEnd := log.End());
      if |state.voters| == 1 { state := state.(highWatermark := state.logEnd); }
      outcome := Done;
    }

    method Broadcast()
      modifies this`sent
      ensures sent == old(sent) + Requests(id, state, log, state.voters)
    {
      var last := LastInfo();
      var env := Envelope(state.clusterId, 0, id, Request(VoteRequest(state.term, id, last.offset, last.term, false)));
      for i := 0 to |state.voters|
        invariant sent == old(sent) + Requests(id, state, log, state.voters[..i])
      {
        assert state.voters[..i + 1][..i] == state.voters[..i];
        if state.voters[i].nodeId != id {
          sent := sent + [Packet(state.voters[i].nodeId, env)];
        }
      }
      assert state.voters[..|state.voters|] == state.voters;
    }

    method HandleElectionTimeout(io: Storage) returns (outcome: Outcome)
      modifies this
      ensures Did(ElectionTimeout(codec, id, old(state), old(Disk()), io), outcome, old(sent))
    {
      hide BecomeLeader, Requests, HasQuorum;
      if state.role != Follower && state.role != Candidate { return Failed; }
      state := state.(term := state.term + 1, votedFor := Some(id), role := Candidate);
      state := state.(leaderId := None, votes := {id});
      var ok := PersistQuorum(io.vote);
      if !ok { return Failed; }
      var won := EnoughVotes();
      if won {
        outcome := WinElection(io.appends);
        WinSendsNothing(codec, id, Stand(id, old(state)), SaveQuorum(old(Disk()), Stand(id, old(state)), io.vote), io.appends);
      } else {
        Broadcast();
        outcome := Done;
      }
    }

    /** Decides a vote request; no answer when storage failed. */
    method HandleVoteRequest(req: VoteRequest, from: NodeId, io: Storage) returns (answer: Option<VoteResponse>)
      modifies this`state, this`quorumFile
      ensures var e := OnVoteRequest(id, old(state), old(Disk()), req, from, io);
        && e == Effect(state, Disk(), e.sent, if answer.Some? then Done else Failed)
        && e.sent == if answer.None? then []
                     else [Packet(from, Envelope(state.clusterId, 0, id, Response(answer.value)))]
    {
      hide Ids;
      var known := Quorum.AnyVoter(state.voters, req.candidateId);
      if !known { return Some(VoteResponse(state.term, false, req.isPreVote)); }
      if req.term > state.term {
        state := state.(term := req.term, votedFor := None, role := Follower, leaderId := None, votes := {});
        var ok := PersistQuorum(io.adopt);
        if !ok { return None; }
      }
      if req.term < state.term { return Some(VoteResponse(state.term, false, req.isPreVote)); }
      var canVote := match state.votedFor case None => true case Some(c) => c == req.candidateId;
      var ours := LastInfo();
      var logOk := req.lastLogTerm > ours.term || (req.lastLogTerm == ours.term && req.lastLogOffset >= ours.offset);
      var granted := canVote && logOk;
      if granted && !req.isPreVote {
        state := state.(votedFor := Some(req.candidateId));
        var ok := PersistQuorum(io.vote);
        if !ok { return None; }
      }
      answer := Some(VoteResponse(state.term, granted, req.isPreVote));
    }

    method HandleVoteResponse(from: NodeId, resp: VoteResponse, io: Storage) returns (outcome: Outcome)
      modifies this`state, this`quorumFile, this`log
      ensures Did(OnVoteResponse(codec, id, old(state), old(Disk()), from, resp, io), outcome, sent)
    {
      hide BecomeLeader, HasQuorum, Ids;
      if resp.term > state.term {
        state := state.(term := resp.term, votedFor := None, role := Follower, leaderId := None, votes := {});
        var ok := PersistQuorum(io.adopt);
        return if ok then Done else Failed;
      }
      if state.role != Candidate || resp.term != state.term { return Done; }
      if resp.isPreVote { return Done; }
      var known := Quorum.AnyVoter(state.voters, from);
      if !known { return Done; }
      if resp.voteGranted {
        state := state.(votes := state.votes + {from});
        var won := EnoughVotes();
        if won {
          outcome := WinElection(io.appends);
          return;
        }
      }
      outcome := Done;
    }

    method HandleRpc(env: Envelope, io: Storage) returns (outcome: Outcome)
      modifies this
      ensures Did(OnRpc(codec, id, old(state), old(Disk()), env, io), outcome, old(sent))
    {
      hide OnVoteRequest, OnVoteResponse;
      if state.bootstrapped && state.clusterId != NIL && (env.clusterId == NIL || state.clusterId != env.clusterId) {
        return Failed;
      }
      match env.payload {
        case Request(req) =>
          var answer := HandleVoteRequest(req, env.source, io);
          if answer.None? || !io.replied { return Failed; }
          sent := sent + [Packet(env.source, Envelope(state.clusterId, 0, id, Response(answer.value)))];
          outcome := Done;
        case Response(resp) =>
          outcome := HandleVoteResponse(env.source, resp, io);
          ResponseSendsNothing(codec, id, old(state), old(Disk()), env.source, resp, io);
        case OtherRpc =>
          outcome := Done;
      }
    }
  }

  lemma {:induction false} WinSendsNothing(c: VotersCodec, id: NodeId, node: Node, stores: Stores, io: Appends)
    ensures BecomeLeader(c, id, node, stores, io).sent == []
  {
  }

  lemma {:induction false} ResponseSendsNothing(
    c: VotersCodec, id: NodeId, node: Node, stores: Stores, from: NodeId, resp: VoteResponse, io: Storage)
    ensures OnVoteResponse(c, id, node, stores, from, resp, io).sent == []
  {
  }
}
