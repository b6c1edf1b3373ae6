/**
 What a node decides in an election, exactly and for every input: when it
 stands, whom it asks, when it votes, and when it leads.
 */
module ElectionExact {
  import opened Types
  import opened LogSpec
  import opened RaftSpec

  /** The appends a win needs succeed. */
  predicate AppendsSucceed(log: Log, io: Appends) {
    io.leaderChange && (HasVotersRecord(log) || io.voters.Appended?)
  }

  /** More than half of the voters. */
  predicate IsMajority(votes: set<NodeId>, voters: seq<VoterInfo>) {
    2 * |votes| > |voters| && voters != []
  }

  /** The log of a new leader: the old one, its leader change, and its voter list if the log had none. */
  ghost predicate LogOfWin(c: VotersCodec, term: Term, voters: seq<VoterInfo>, was: Log, log: Log) {
    log.start == was.start && log.entries ==
      was.entries + [LogEntry(was.End(), term, LeaderChangeMessage, [])]
      + (if exists i :: 0 <= i < |was.entries| && was.entries[i].entryType == VotersRecord then []
         else [LogEntry(was.End() + 1, term, VotersRecord, c.encode(voters))])
  }

  /** What winning leaves: the role, the leader, the log, and for a sole voter everything committed. */
  ghost predicate Leads(c: VotersCodec, id: NodeId, was: Node, before: Log, e: Effect) {
    && e.outcome.Done? && e.sent == []
    && LogOfWin(c, was.term, was.voters, before, e.stores.log)
    && e.node == was.(role := Leader, leaderId := Some(id), logEnd := e.stores.log.End(),
                      highWatermark := if |was.voters| == 1 then e.stores.log.End() else was.highWatermark)
  }

  /** A node with enough votes leads exactly when its appends succeed. */
  lemma {:induction false} LeadsExactly(c: VotersCodec, id: NodeId, node: Node, stores: Stores, io: Appends)
    ensures var e := BecomeLeader(c, id, node, stores, io);
      && (AppendsSucceed(stores.log, io) ==> Leads(c, id, node, stores.log, e))
      && (!AppendsSucceed(stores.log, io) ==> e.node == node && !e.outcome.Done?)
      && e.stores.quorum == stores.quorum && e.stores.snapshot == stores.snapshot && e.sent == []
  {
    var log := stores.log;
    var first := LogEntry(log.End(), node.term, LeaderChangeMessage, []);
    if HasVotersRecord(log) {
      assert log.entries + [first] + [] == log.entries + [first];
    }
  }

  /**
   What a win whose appends fail leaves of the log: nothing new, or the leader
   change when the process died after it or could not take it back.
   */
  lemma {:induction false} FailedWinLeaves(c: VotersCodec, id: NodeId, node: Node, stores: Stores, io: Appends)
    requires !AppendsSucceed(stores.log, io)
    ensures var e := BecomeLeader(c, id, node, stores, io); var log := stores.log;
      && e.node == node
      && (e.outcome.Died? <==> io.leaderChange && io.voters.DiedBefore?)
      && e.stores.log ==
           if io.leaderChange && (io.voters.DiedBefore? || !io.rolledBack)
           then Log(log.start, log.entries + [LogEntry(log.End(), node.term, LeaderChangeMessage, [])]) else log
  {
    var log := stores.log;
    var changed := log.Append([LeaderChange(node, log)]);
    assert changed.TruncateSuffix(changed.End() - 1).entries == log.entries;
  }

  // ---- Counting votes ----

  /** An answer a candidate counts. */
  predicate Counts(node: Node, from: NodeId, resp: VoteResponse) {
    && node.role.Candidate? && resp.term == node.term && resp.voteGranted && !resp.isPreVote
    && from in Ids(node.voters)
  }

  /** A counted vote makes a leader exactly when it completes a majority and the appends succeed. */
  lemma {:induction false} CountsExactly(c: VotersCodec, id: NodeId, node: Node, stores: Stores, from: NodeId, resp: VoteResponse,
                           io: Storage)
    requires Counts(node, from, resp)
    ensures var e := OnVoteResponse(c, id, node, stores, from, resp, io);
      var counted := node.(votes := node.votes + {from});
      && e.node.votes == node.votes + {from} && e.node.term == node.term && e.node.votedFor == node.votedFor
      && e.stores.quorum == stores.quorum && e.sent == []
      && (e.node.role.Leader? <==> IsMajority(node.votes + {from}, node.voters) && AppendsSucceed(stores.log, io.appends))
      && (e.node.role.Leader? ==> Leads(c, id, counted, stores.log, e))
      && (!IsMajority(node.votes + {from}, node.voters) ==> e == Effect(counted, stores, [], Done))
  {
    hide BecomeLeader, Leads, AppendsSucceed, Ids;
    LeadsExactly(c, id, node.(votes := node.votes + {from}), stores, io.appends);
    LeadsRole(c, id, node.(votes := node.votes + {from}), stores.log, BecomeLeader(c, id, node.(votes := node.votes + {from}), stores, io.appends));
  }

  lemma {:induction false} LeadsRole(c: VotersCodec, id: NodeId, was: Node, before: Log, e: Effect)
    ensures Leads(c, id, was, before, e) ==>
      e.node.role.Leader? && e.node.votes == was.votes && e.node.term == was.term && e.node.votedFor == was.votedFor
  {
  }

  /** Any other answer of the term or an earlier one is ignored; a later term is taken over and stored. */
  lemma {:induction false} IgnoresExactly(c: VotersCodec, id: NodeId, node: Node, stores: Stores, from: NodeId, resp: VoteResponse,
                            io: Storage)
    requires !Counts(node, from, resp)
    ensures var e := OnVoteResponse(c, id, node, stores, from, resp, io);
      if resp.term <= node.term then e == Effect(node, stores, [], Done)
      else Yields(node, stores, resp.term, io.adopt, e) && e.sent == [] && (e.outcome.Done? <==> io.adopt.Saved?)
  {
    hide Ids;
  }

  /**
   A later term taken over: no vote in it yet, a follower that knows no leader,
   written unless the save did not happen.
   */
  ghost predicate Yields(was: Node, before: Stores, term: Term, save: Save, e: Effect) {
    && e.node == was.(term := term, votedFor := None, role := Follower, leaderId := None, votes := {})
    && e.stores.log == before.log && e.stores.snapshot == before.snapshot
    && e.stores.quorum == (if save.NotWritten? then before.quorum else Some(QuorumState(term, None, None, 0, was.clusterId)))
  }

  // ---- Standing ----

  /** A timeout raises the term, votes for oneself and stores that, in every follower and candidate. */
  lemma {:induction false} StandsExactly(c: VotersCodec, id: NodeId, node: Node, stores: Stores, io: Storage)
    requires node.role.Follower? || node.role.Candidate?
    ensures var e := ElectionTimeout(c, id, node, stores, io);
      && e.node.term == node.term + 1 && e.node.votedFor == Some(id) && e.node.votes == {id} && e.node.voters == node.voters
      && e.stores.snapshot == stores.snapshot
      && e.stores.quorum == (if io.vote.NotWritten? then stores.quorum
                             else Some(QuorumState(node.term + 1, Some(id), None, 0, node.clusterId)))
      && (e.node.role.Leader? <==>
            io.vote.Saved? && IsMajority({id}, node.voters) && AppendsSucceed(stores.log, io.appends))
      && (!e.node.role.Leader? ==> e.node.role.Candidate? && e.node.leaderId == None)
  {
    hide BecomeLeader, AppendsSucceed, Leads, Requests;
    var stood := Stand(id, node);
    var kept := SaveQuorum(stores, stood, io.vote);
    LeadsExactly(c, id, stood, kept, io.appends);
    LeadsRole(c, id, stood, kept.log, BecomeLeader(c, id, stood, kept, io.appends));
    StoodVoters(c, id, stood, kept, io.appends);
  }

  lemma {:induction false} StoodVoters(c: VotersCodec, id: NodeId, node: Node, stores: Stores, io: Appends)
    ensures BecomeLeader(c, id, node, stores, io).node.voters == node.voters
  {
  }

  /** Any other role refuses and changes nothing. */
  lemma {:induction false} OthersDoNotStand(c: VotersCodec, id: NodeId, node: Node, stores: Stores, io: Storage)
    requires node.role.Leader? || node.role.Unattached?
    ensures ElectionTimeout(c, id, node, stores, io) == Effect(node, stores, [], Failed)
  {
  }

  /** A candidate that needs votes asks exactly the other voters, with its new term and the end of its log. */
  lemma {:induction false} AsksExactly(c: VotersCodec, id: NodeId, node: Node, stores: Stores, io: Storage, p: Packet)
    requires node.role.Follower? || node.role.Candidate?
    ensures p in ElectionTimeout(c, id, node, stores, io).sent <==>
      && io.vote.Saved? && !IsMajority({id}, node.voters) && p.to in Ids(node.voters) && p.to != id
      && p.envelope == Envelope(node.clusterId, 0, id, Request(VoteRequest(node.term + 1, id,
           LastLogInfo(stores.log).offset, LastLogInfo(stores.log).term, false)))
  {
    hide BecomeLeader, LastLogInfo, Ids;
    var stood := Stand(id, node);
    var kept := SaveQuorum(stores, stood, io.vote);
    LeadsExactly(c, id, stood, kept, io.appends);
    RequestsExactly(id, stood, kept.log, stood.voters, p);
  }

  lemma {:induction false} RequestsExactly(id: NodeId, node: Node, log: Log, to: seq<VoterInfo>, p: Packet)
    ensures p in Requests(id, node, log, to) <==> p.to in Ids(to) && p.to != id && p.envelope == Ask(id, node, log)
    decreases |to|
  {
    hide Ask, Ids;
    NoIds();
    if to != [] {
      RequestsExactly(id, node, log, to[..|to| - 1], p);
      IdsLast(to, p.to);
    }
  }

  lemma {:induction false} NoIds()
    ensures Ids([]) == {}
  {
  }

  lemma {:induction false} IdsLast(to: seq<VoterInfo>, x: NodeId)
    requires to != []
    ensures x in Ids(to) <==> x in Ids(to[..|to| - 1]) || x == to[|to| - 1].nodeId
  {
    var front := to[..|to| - 1];
    assert forall i | 0 <= i < |front| :: front[i] == to[i];
    if x in Ids(front) {
      var i :| 0 <= i < |front| && front[i].nodeId == x;
      assert to[i].nodeId == x;
    }
  }

  // ---- Voting ----

  /** Logs are compared by last term and then last offset, and any two can be compared. */
  lemma {:induction false} FreshnessOrder(a: Freshness, b: Freshness)
    ensures NoFresherThan(a, b) || NoFresherThan(b, a)
    ensures NoFresherThan(a, b) && NoFresherThan(b, a) <==> a == b
    ensures a.term < b.term ==> !NoFresherThan(b, a)
    ensures a.term == b.term ==> (NoFresherThan(a, b) <==> a.offset <= b.offset)
  {
  }

  /** The end of a log is its last entry; an empty one counts as term 0 just before its start. */
  lemma {:induction false} LastInfoExactly(log: Log)
    ensures log.entries != [] ==> LastLogInfo(log) == Freshness(log.entries[|log.entries| - 1].term, log.start + |log.entries| - 1)
    ensures log.entries == [] ==> LastLogInfo(log) == Freshness(0, if log.start == 0 then 0 else log.start - 1)
  {
  }

  /** The candidate may have the vote: a voter, no earlier term, no other vote in it, a log no older. */
  predicate Deserves(node: Node, log: Log, req: VoteRequest) {
    && req.candidateId in Ids(node.voters) && req.term >= node.term
    && (req.term == node.term ==> node.votedFor.None? || node.votedFor == Some(req.candidateId))
    && NoFresherThan(LastLogInfo(log), Freshness(req.lastLogTerm, req.lastLogOffset))
  }

  predicate Takes(node: Node, req: VoteRequest) {
    req.candidateId in Ids(node.voters) && req.term > node.term
  }

  /** The saves a request needs succeed. */
  predicate SavesSucceed(node: Node, log: Log, req: VoteRequest, io: Storage) {
    (Takes(node, req) ==> io.adopt.Saved?) && (Deserves(node, log, req) && !req.isPreVote ==> io.vote.Saved?)
  }

  /** A request is answered once, to its sender, exactly when the saves succeed; it is granted exactly when deserved. */
  lemma {:induction false} VotesExactly(id: NodeId, node: Node, stores: Stores, req: VoteRequest, from: NodeId, io: Storage)
    ensures var e := OnVoteRequest(id, node, stores, req, from, io);
      && e.stores.log == stores.log && e.stores.snapshot == stores.snapshot
      && (e.outcome.Done? <==> SavesSucceed(node, stores.log, req, io)) && !e.outcome.Died?
      && e.sent == if !e.outcome.Done? then [] else
           [Packet(from, Envelope(node.clusterId, 0, id,
              Response(VoteResponse(if Takes(node, req) then req.term else node.term, Deserves(node, stores.log, req), req.isPreVote))))]
  {
    hide LastLogInfo, Ids;
  }

  /** What it does to the node: a later term is taken over, a deserved real vote is recorded, nothing else. */
  lemma {:induction false} VoteEffect(id: NodeId, node: Node, stores: Stores, req: VoteRequest, from: NodeId, io: Storage)
    requires SavesSucceed(node, stores.log, req, io)
    ensures var e := OnVoteRequest(id, node, stores, req, from, io);
      var voting := Deserves(node, stores.log, req) && !req.isPreVote;
      var cur := if Takes(node, req)
        then node.(term := req.term, votedFor := None, role := Follower, leaderId := None, votes := {}) else node;
      && e.node == (if voting then cur.(votedFor := Some(req.candidateId)) else cur)
      && e.stores.quorum == (if voting || Takes(node, req)
                             then Some(QuorumState(e.node.term, e.node.votedFor, None, 0, node.clusterId))
                             else stores.quorum)
  {
    hide LastLogInfo, Ids;
  }

  // ---- Messages ----

  /** A node that knows its cluster hears only that cluster; a node that does not hears all. */
  lemma {:induction false} HearsExactly(c: VotersCodec, id: NodeId, node: Node, stores: Stores, env: Envelope, io: Storage)
    ensures var e := OnRpc(c, id, node, stores, env, io);
      if node.bootstrapped && node.clusterId != 0 && env.clusterId != node.clusterId then e == Effect(node, stores, [], Failed)
      else match env.payload
        case Request(req) =>
          var f := OnVoteRequest(id, node, stores, req, env.source, io);
          && e.node == f.node && e.stores == f.stores && (e.outcome.Done? <==> f.outcome.Done? && io.replied)
          && e.sent == (if io.replied then f.sent else [])
        case Response(resp) => e == OnVoteResponse(c, id, node, stores, env.source, resp, io)
        case OtherRpc => e == Effect(node, stores, [], Done)
  {
    hide OnVoteRequest, OnVoteResponse;
    if env.payload.Request? { NothingSent(id, node, stores, env.payload.request, env.source, io); }
  }

  lemma {:induction false} NothingSent(id: NodeId, node: Node, stores: Stores, req: VoteRequest, from: NodeId, io: Storage)
    ensures var e := OnVoteRequest(id, node, stores, req, from, io); !e.outcome.Done? ==> e.sent == []
  {
  }

  // ---- Starting ----

  /** The latest voters record that can be decoded. */
  ghost predicate IsLatest(decode: bytes -> Option<seq<VoterInfo>>, es: seq<LogEntry>, i: nat) {
    && i < |es| && es[i].entryType == VotersRecord && decode(es[i].payload).Some?
    && forall j | i < j < |es| :: es[j].entryType != VotersRecord || decode(es[j].payload).None?
  }

  /** Scanning finds that record's voters, and none exactly when no record can be decoded. */
  lemma {:induction false} LatestExactly(decode: bytes -> Option<seq<VoterInfo>>, es: seq<LogEntry>, i: nat)
    ensures IsLatest(decode, es, i) ==> LatestVoters(decode, es) == decode(es[i].payload)
    ensures LatestVoters(decode, es).None? <==>
      forall j | 0 <= j < |es| :: es[j].entryType != VotersRecord || decode(es[j].payload).None?
    decreases |es|
  {
    if es != [] {
      var front := es[..|es| - 1];
      LatestExactly(decode, front, i);
      assert forall j | 0 <= j < |front| :: front[j] == es[j];
    }
  }

  predicate NothingStored(stores: Stores) {
    stores.log == Log(0, []) && stores.quorum.None? && stores.snapshot.None?
  }

  /** A node with empty stores waits to be bootstrapped; any other is a follower with what its stores say. */
  lemma {:induction false} StartsExactly(c: VotersCodec, stores: Stores)
    ensures var n := Start(c, stores); var end := match stores.snapshot case None => 0 case Some(x) => x.lastIncluded + 1;
      && n.votes == {} && n.highWatermark == end
      && (n.bootstrapped <==> !NothingStored(stores)) && n.role == (if NothingStored(stores) then Unattached else Follower)
      && n.logStart == Max(end, stores.log.start) && n.logEnd == Max(end, stores.log.End())
      && (match stores.quorum
          case None => n.term == 0 && n.votedFor == None && n.leaderId == None && n.clusterId == 0
          case Some(q) => n.term == q.term && n.votedFor == q.votedFor && n.leaderId == q.leaderId && n.clusterId == q.clusterId)
      && (match stores.snapshot
          case Some(x) => n.voters == x.voters
          case None =>
            if stores.quorum.None? || LatestVoters(c.decode, stores.log.entries).None? then n.voters == []
            else Some(n.voters) == LatestVoters(c.decode, stores.log.entries))
  {
    hide LatestVoters;
  }

  /** What a node saved is what it restarts with, whatever else its stores hold. */
  lemma {:induction false} RestartKeepsVote(c: VotersCodec, node: Node, stores: Stores)
    ensures var again := Start(c, SaveQuorum(stores, node, Saved));
      again.term == node.term && again.votedFor == node.votedFor && again.clusterId == node.clusterId && again.role.Follower?
  {
    hide LatestVoters;
  }

  /** A leader that wrote its voter list knows it after a restart. */
  lemma {:induction false} RestartKeepsVoters(c: VotersCodec, id: NodeId, node: Node, stores: Stores, io: Appends)
    requires Faithful(c) && stores.snapshot.None? && stores.quorum.Some?
    requires AppendsSucceed(stores.log, io) && !HasVotersRecord(stores.log)
    ensures Start(c, BecomeLeader(c, id, node, stores, io).stores).voters == node.voters
  {
    var e := BecomeLeader(c, id, node, stores, io);
    LeadsExactly(c, id, node, stores, io);
    var es := e.stores.log.entries;
    assert es[|es| - 1] == LogEntry(stores.log.End() + 1, node.term, VotersRecord, c.encode(node.voters));
    StartsExactly(c, e.stores);
  }

  /**
   Bootstrapping succeeds exactly once, on empty stores, with a real cluster id
   and distinct voters that name the node.
   */
  lemma {:induction false} BootstrapsExactly(id: NodeId, node: Node, stores: Stores, clusterId: nat, voters: seq<VoterInfo>)
    ensures var e := Bootstrap(id, node, stores, clusterId, voters);
      && e.stores == stores && e.sent == [] && !e.outcome.Died?
      && (e.outcome.Done? <==>
            && !node.bootstrapped && node.role.Unattached? && NothingStored(stores) && clusterId != 0
            && (exists i :: 0 <= i < |voters| && voters[i].nodeId == id)
            && (forall i, j | 0 <= i < j < |voters| :: voters[i].nodeId != voters[j].nodeId))
      && (!e.outcome.Done? ==> e.node == node)
      && (e.outcome.Done? ==>
            && e.node.role.Follower? && e.node.bootstrapped && e.node.clusterId == clusterId && e.node.voters == voters
            && e.node.term == 0 && e.node.votedFor == None && e.node.leaderId == None && e.node.votes == {})
  {
  }
}
