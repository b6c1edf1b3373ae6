/** The logs that elections write: their shape over whole runs, and exactly when it is lost. */
module ElectionShapes {
  import opened Types
  import opened LogSpec
  import opened RaftSpec
  import opened ElectionRun
  import opened ElectionSafety
  import opened ElectionSteps
  import opened ElectionTheorems

  ghost predicate TermsBelow(log: Log, term: Term) {
    forall i | 0 <= i < |log.entries| :: log.entries[i].term < term
  }

  /** The log holds a leader change of the term. */
  ghost predicate HasChange(log: Log, term: Term) {
    exists i :: 0 <= i < |log.entries| && log.entries[i].entryType == LeaderChangeMessage && log.entries[i].term == term
  }

  /** Contiguous offsets, terms that never fall, one leader change per term, one voters record. */
  ghost predicate WellShaped(log: Log) {
    && log.Contiguous()
    && (forall i, j | 0 <= i < j < |log.entries| :: log.entries[i].term <= log.entries[j].term)
    && (forall i, j | 0 <= i < j < |log.entries| ::
          log.entries[i].entryType == log.entries[j].entryType == LeaderChangeMessage ==>
            log.entries[i].term != log.entries[j].term)
    && (forall i, j | 0 <= i < j < |log.entries| ::
          !(log.entries[i].entryType == log.entries[j].entryType == VotersRecord))
  }

  // ---- One attempt to win ----

  lemma {:induction false} ShapeAppend(log: Log, e: LogEntry)
    requires WellShaped(log) && e.offset == log.End() && TermsBelow(log, e.term + 1)
    requires e.entryType == LeaderChangeMessage ==> !HasChange(log, e.term)
    requires e.entryType == VotersRecord ==> !HasVotersRecord(log)
    ensures WellShaped(log.Append([e])) && TermsBelow(log.Append([e]), e.term + 1)
  {
    hide HasChange, HasVotersRecord;
    var more := log.Append([e]).entries;
    forall i | 0 <= i < |log.entries|
      ensures !(more[i].entryType == e.entryType == LeaderChangeMessage && more[i].term == e.term)
      ensures !(more[i].entryType == e.entryType == VotersRecord)
    {
      if log.entries[i].entryType == LeaderChangeMessage { ChangeAt(log, i); }
      if log.entries[i].entryType == VotersRecord { RecordAt(log, i); }
    }
  }

  lemma {:induction false} ChangeAt(log: Log, i: nat)
    requires i < |log.entries| && log.entries[i].entryType == LeaderChangeMessage
    ensures HasChange(log, log.entries[i].term)
  {
  }

  lemma {:induction false} RecordAt(log: Log, i: nat)
    requires i < |log.entries| && log.entries[i].entryType == VotersRecord
    ensures HasVotersRecord(log)
  {
  }

  /** Two leader changes of a term spoil a log and every log that extends it. */
  lemma {:induction false} Repeated(log: Log, node: Node, more: Log)
    requires HasChange(log, node.term) && Extends(log.Append([LeaderChange(node, log)]), more)
    ensures !WellShaped(more)
  {
    var i :| 0 <= i < |log.entries| && log.entries[i].entryType == LeaderChangeMessage && log.entries[i].term == node.term;
    assert more.entries[i] == log.entries[i] && more.entries[|log.entries|] == LeaderChange(node, log);
  }

  lemma {:induction false} IllStays(a: Log, b: Log)
    requires Extends(a, b) && WellShaped(b)
    ensures WellShaped(a)
  {
    assert forall i | 0 <= i < |a.entries| :: a.entries[i] == b.entries[i];
  }

  /** What the appends of a would-be leader leave: the log as it was, or with a leader change of the term after it. */
  lemma {:induction false} WinLogs(c: VotersCodec, id: NodeId, node: Node, stores: Stores, io: Appends)
    ensures var e := BecomeLeader(c, id, node, stores, io); var changed := stores.log.Append([LeaderChange(node, stores.log)]);
      && (e.stores.log == stores.log
          || (Extends(changed, e.stores.log) && (e.stores.log == changed || (!HasVotersRecord(stores.log) && e.stores.log == WonLog(c, node, stores.log)))))
      && Extends(stores.log, e.stores.log) && e.stores.quorum == stores.quorum
      && (e.outcome.Done? ==> e.node.role.Leader?) && (!e.outcome.Done? ==> e.node == node)
      && e.node.term == node.term
  {
    hide HasVotersRecord;
    var log := stores.log;
    var lcm := LeaderChange(node, log);
    var longer := log.entries + [lcm];
    assert longer[..|log.entries|] == log.entries;
  }

  /**
   Exactly when an attempt to win keeps the log well-shaped: the log held no
   leader change of the term, or it is left as it was.
   */
  lemma {:induction false} WinShapeExactly(c: VotersCodec, id: NodeId, node: Node, stores: Stores, io: Appends)
    requires WellShaped(stores.log) && TermsBelow(stores.log, node.term + 1)
    ensures var e := BecomeLeader(c, id, node, stores, io);
      && (WellShaped(e.stores.log) <==> !HasChange(stores.log, node.term) || e.stores.log == stores.log)
      && TermsBelow(e.stores.log, node.term + 1)
  {
    hide HasVotersRecord, WellShaped, TermsBelow, HasChange, BecomeLeader, Extends;
    var log := stores.log;
    var e := BecomeLeader(c, id, node, stores, io);
    WinLogs(c, id, node, stores, io);
    if e.stores.log != log {
      if HasChange(log, node.term) { Repeated(log, node, e.stores.log); }
      else { FirstChange(c, node, log); }
      LaterAppends(c, node, log);
    }
  }

  lemma {:induction false} LaterAppends(c: VotersCodec, node: Node, log: Log)
    requires TermsBelow(log, node.term + 1)
    ensures TermsBelow(log.Append([LeaderChange(node, log)]), node.term + 1) && TermsBelow(WonLog(c, node, log), node.term + 1)
  {
    hide HasVotersRecord;
  }

  lemma {:induction false} FirstChange(c: VotersCodec, node: Node, log: Log)
    requires WellShaped(log) && TermsBelow(log, node.term + 1) && !HasChange(log, node.term)
    ensures WellShaped(log.Append([LeaderChange(node, log)]))
    ensures !HasVotersRecord(log) ==> WellShaped(WonLog(c, node, log))
  {
    hide WellShaped, TermsBelow, HasChange, HasVotersRecord;
    var lcm := LeaderChange(node, log);
    var changed := log.Append([lcm]);
    ShapeAppend(log, lcm);
    if !HasVotersRecord(log) {
      StillNone(log, lcm);
      ShapeAppend(changed, Voters(c, node, changed));
    }
  }

  lemma {:induction false} StillNone(log: Log, e: LogEntry)
    requires !HasVotersRecord(log) && e.entryType != VotersRecord
    ensures !HasVotersRecord(log.Append([e]))
  {
  }

  // ---- What every reachable node satisfies ----

  /** No entry is newer than the stored term; a candidate has one of its own term exactly when it is stuck there. */
  ghost predicate ShapeOk(id: NodeId, p: Proc, stuck: set<(NodeId, Term)>, doubled: set<NodeId>) {
    && (WellShaped(p.stores.log) <==> id !in doubled)
    && (p.stores.quorum.None? ==> p.stores.log.entries == [])
    && (p.stores.quorum.Some? ==> TermsBelow(p.stores.log, p.stores.quorum.value.term + 1))
    && (forall t | (id, t) in stuck :: p.stores.quorum.Some? && t <= p.stores.quorum.value.term)
    && (p.up.Some? && p.up.value.role.Candidate? ==> CandidateShape(id, p, stuck))
  }

  ghost predicate CandidateShape(id: NodeId, p: Proc, stuck: set<(NodeId, Term)>)
    requires p.up.Some?
  {
    var t := p.up.value.term;
    if (id, t) in stuck then HasChange(p.stores.log, t) else TermsBelow(p.stores.log, t)
  }

  ghost predicate ShapesOk(cl: Cluster) {
    forall id | id in cl.procs && id !in cl.h.touched :: ShapeOk(id, cl.procs[id], cl.h.stuck, cl.h.doubled)
  }

  /** The process after a handler. */
  function After(e: Effect): Proc { Proc(if e.outcome.Died? then None else Some(e.node), e.stores) }

  lemma {:induction false} NoChangeYet(log: Log, t: Term)
    requires TermsBelow(log, t)
    ensures !HasChange(log, t) && TermsBelow(log, t + 1)
  {
  }

  lemma {:induction false} ChangeKept(log: Log, node: Node, more: Log)
    requires Extends(log.Append([LeaderChange(node, log)]), more) || (more == log && HasChange(log, node.term))
    ensures HasChange(more, node.term)
  {
    if Extends(log.Append([LeaderChange(node, log)]), more) {
      assert more.entries[|log.entries|] == LeaderChange(node, log);
    }
  }

  /** A candidate that tries to win with its term stored, in every outcome of its appends. */
  lemma {:induction false} WinMove(c: VotersCodec, id: NodeId, p: Proc, node: Node, stores: Stores, io: Appends, h: History)
    requires node.role.Candidate? && stores.quorum.Some? && stores.quorum.value.term == node.term
    requires ShapeOk(id, Proc(Some(node), stores), h.stuck, h.doubled) && p.stores.log == stores.log
    ensures var e := BecomeLeader(c, id, node, stores, io);
      var stuck := h.stuck + NewlyStuck(id, p.stores, e);
      var doubled := if (id, e.node.term) in h.stuck && e.stores.log != p.stores.log then h.doubled + {id} else h.doubled;
      ShapeOk(id, After(e), stuck, doubled)
  {
    hide WellShaped, TermsBelow, HasChange, BecomeLeader, Extends, WonLog;
    var log := stores.log;
    var e := BecomeLeader(c, id, node, stores, io);
    WinLogs(c, id, node, stores, io);
    if (id, node.term) !in h.stuck { NoChangeYet(log, node.term); }
    if e.stores.log != log || HasChange(log, node.term) { ChangeKept(log, node, e.stores.log); }
    if id in h.doubled {
      if WellShaped(e.stores.log) { IllStays(log, e.stores.log); }
      LaterTerms(c, node, stores, e.stores.log);
    } else {
      WinShapeExactly(c, id, node, stores, io);
    }
  }

  lemma {:induction false} LaterTerms(c: VotersCodec, node: Node, stores: Stores, after: Log)
    requires TermsBelow(stores.log, node.term + 1)
    requires after in {stores.log, stores.log.Append([LeaderChange(node, stores.log)]), WonLog(c, node, stores.log)}
    ensures TermsBelow(after, node.term + 1)
  {
    LaterAppends(c, node, stores.log);
  }

  lemma {:induction false} TermsWithin(log: Log, a: Term, b: Term)
    requires TermsBelow(log, a) && a <= b
    ensures TermsBelow(log, b)
  {
  }

  lemma {:induction false} NoTerms(log: Log, t: Term)
    requires log.entries == []
    ensures TermsBelow(log, t)
  {
  }

  /** A step that leaves the log alone, and stands only in a term after every entry. */
  lemma {:induction false} QuietShape(id: NodeId, p: Proc, q: Proc, stuck: set<(NodeId, Term)>, doubled: set<NodeId>)
    requires ShapeOk(id, p, stuck, doubled) && q.stores.log == p.stores.log && Forward(p.stores.quorum, q.stores.quorum)
    requires q.up.Some? && q.up.value.role.Candidate? ==> CandidateShape(id, q, stuck)
    ensures ShapeOk(id, q, stuck, doubled)
  {
    hide WellShaped, HasChange, TermsBelow, CandidateShape;
    if p.stores.quorum.Some? {
      TermsWithin(p.stores.log, p.stores.quorum.value.term + 1, q.stores.quorum.value.term + 1);
    } else if q.stores.quorum.Some? {
      NoTerms(p.stores.log, q.stores.quorum.value.term + 1);
    }
  }

  /** What a handler has to keep for its own node. */
  ghost predicate Keeps(id: NodeId, p: Proc, e: Effect, h: History) {
    ShapeOk(id, p, h.stuck, h.doubled) ==>
      ShapeOk(id, After(e), h.stuck + NewlyStuck(id, p.stores, e),
              if (id, e.node.term) in h.stuck && e.stores.log != p.stores.log then h.doubled + {id} else h.doubled)
  }

  /** A handler that left the log alone. */
  lemma {:induction false} QuietKeeps(id: NodeId, p: Proc, e: Effect, h: History)
    requires ShapeOk(id, p, h.stuck, h.doubled) ==> ShapeOk(id, After(e), h.stuck, h.doubled)
    requires e.stores.log == p.stores.log
    ensures Keeps(id, p, e, h)
  {
    hide ShapeOk;
    assert h.stuck + NewlyStuck(id, p.stores, e) == h.stuck;
  }

  lemma {:induction false} TimeoutShape(s: Setup, id: NodeId, p: Proc, io: Storage, h: History)
    requires p.up.Some? && Agrees(p.up.value, p.stores.quorum)
    ensures Keeps(id, p, ElectionTimeout(s.codec, id, p.up.value, p.stores, io), h)
  {
    hide WellShaped, TermsBelow, HasChange, BecomeLeader, HasQuorum, Requests;
    var e := ElectionTimeout(s.codec, id, p.up.value, p.stores, io);
    var n := p.up.value;
    if !ShapeOk(id, p, h.stuck, h.doubled) {
    } else if n.role.Follower? || n.role.Candidate? {
      var stood := Stand(id, n);
      var kept := SaveQuorum(p.stores, stood, io.vote);
      assert TermsBelow(p.stores.log, n.term + 1) by {
        if p.stores.quorum.Some? { TermsWithin(p.stores.log, p.stores.quorum.value.term + 1, n.term + 1); }
        else { NoTerms(p.stores.log, n.term + 1); }
      }
      QuietShape(id, p, Proc(Some(stood), kept), h.stuck, h.doubled);
      if io.vote.Saved? && HasQuorum(stood) {
        WinMove(s.codec, id, p, stood, kept, io.appends, h);
      } else {
        QuietKeeps(id, p, e, h);
      }
    } else {
      QuietKeeps(id, p, e, h);
    }
  }

  lemma {:induction false} ResponseShape(s: Setup, cl: Cluster, packet: Packet, io: Storage)
    requires Inv(s, cl) && packet in cl.net && Running(cl, packet.to) && packet.envelope.payload.Response?
    ensures var id, p := packet.to, cl.procs[packet.to];
      var e := OnVoteResponse(s.codec, id, p.up.value, p.stores, packet.envelope.source, packet.envelope.payload.response, io);
      Keeps(id, p, e, cl.h)
  {
    hide WellShaped, TermsBelow, HasChange, BecomeLeader, HasQuorum, Ids, ConfigKept, VotesCast, Standing, Won, StoredCast,
      HistoryOk, Cast;
    var id, p, from, resp := packet.to, cl.procs[packet.to], packet.envelope.source, packet.envelope.payload.response;
    var n := p.up.value;
    var e := OnVoteResponse(s.codec, id, n, p.stores, from, resp, io);
    assert NodeOk(s, id, p, cl.h) && PacketOk(packet, cl.h);
    if !ShapeOk(id, p, cl.h.stuck, cl.h.doubled) {
    } else if resp.term > n.term {
      QuietShape(id, p, After(e), cl.h.stuck, cl.h.doubled);
      QuietKeeps(id, p, e, cl.h);
    } else if n.role.Candidate? && resp.term == n.term && !resp.isPreVote && from in Ids(n.voters) && resp.voteGranted {
      CandidateStored(cl, id);
      var counted := n.(votes := n.votes + {from});
      QuietShape(id, p, Proc(Some(counted), p.stores), cl.h.stuck, cl.h.doubled);
      if HasQuorum(counted) { WinMove(s.codec, id, p, counted, p.stores, io.appends, cl.h); }
      else { QuietKeeps(id, p, e, cl.h); }
    } else {
      QuietKeeps(id, p, e, cl.h);
    }
  }

  /** A candidate that receives a granted vote has its term on disk. */
  lemma {:induction false} CandidateStored(cl: Cluster, id: NodeId)
    requires Stored(cl.procs, cl.h.ballots) && Running(cl, id) && Agrees(cl.procs[id].up.value, cl.procs[id].stores.quorum)
    requires Cast(cl.h.ballots, id, cl.procs[id].up.value.term, id)
    ensures cl.procs[id].stores.quorum.Some? && cl.procs[id].stores.quorum.value.term == cl.procs[id].up.value.term
  {
  }

  lemma {:induction false} RequestShape(id: NodeId, p: Proc, req: VoteRequest, from: NodeId, io: Storage, h: History)
    requires p.up.Some? && Agrees(p.up.value, p.stores.quorum)
    ensures Keeps(id, p, OnVoteRequest(id, p.up.value, p.stores, req, from, io), h)
  {
    hide WellShaped, TermsBelow, HasChange, OnVoteRequest, LastLogInfo, NoFresherThan, Agrees;
    var e := OnVoteRequest(id, p.up.value, p.stores, req, from, io);
    RequestVotes(id, p, req, from, io);
    if ShapeOk(id, p, h.stuck, h.doubled) { QuietShape(id, p, After(e), h.stuck, h.doubled); }
    QuietKeeps(id, p, e, h);
  }

  lemma {:induction false} UnsentKeeps(id: NodeId, p: Proc, e: Effect, h: History, replied: bool)
    requires Keeps(id, p, e, h) && e.stores.log == p.stores.log && !e.outcome.Died?
    ensures Keeps(id, p, Replied(e, replied), h)
  {
    hide ShapeOk;
    assert NewlyStuck(id, p.stores, Replied(e, replied)) == NewlyStuck(id, p.stores, e) == {};
  }

  lemma {:induction false} DeliverShape(s: Setup, cl: Cluster, packet: Packet, io: Storage)
    requires Inv(s, cl) && packet in cl.net && Running(cl, packet.to)
    ensures var id, p := packet.to, cl.procs[packet.to];
      Keeps(id, p, OnRpc(s.codec, id, p.up.value, p.stores, packet.envelope, io), cl.h)
  {
    hide ShapeOk, Keeps, OnVoteRequest, OnVoteResponse, PacketOk, HistoryOk, Stored, Inv, Agrees;
    var id, p, env := packet.to, cl.procs[packet.to], packet.envelope;
    AgreesOf(s, cl, id);
    if Fenced(p.up.value, env) || env.payload.OtherRpc? {
      QuietKeeps(id, p, OnRpc(s.codec, id, p.up.value, p.stores, env, io), cl.h);
    } else if env.payload.Request? {
      RequestShape(id, p, env.payload.request, env.source, io, cl.h);
      RequestLeavesLog(id, p, env.payload.request, env.source, io);
      UnsentKeeps(id, p, OnVoteRequest(id, p.up.value, p.stores, env.payload.request, env.source, io), cl.h, io.replied);
    } else {
      ResponseShape(s, cl, packet, io);
    }
  }

  lemma {:induction false} RestShape(c: VotersCodec, id: NodeId, p: Proc, clusterId: nat, voters: seq<VoterInfo>, h: History)
    requires ShapeOk(id, p, h.stuck, h.doubled)
    ensures ShapeOk(id, Proc(None, p.stores), h.stuck, h.doubled)
    ensures ShapeOk(id, Proc(Some(Start(c, p.stores)), p.stores), h.stuck, h.doubled)
    ensures p.up.Some? ==>
      var e := Bootstrap(id, p.up.value, p.stores, clusterId, voters);
      !e.outcome.Died? && e.stores == p.stores && ShapeOk(id, After(e), h.stuck, h.doubled)
  {
    hide WellShaped, TermsBelow, HasChange, LatestVoters, ValidBootstrap;
  }

  /** A handler that keeps its own node's shape keeps that of the cluster. */
  lemma {:induction false} MovedShape(cl: Cluster, id: NodeId, e: Effect, candLast: Freshness, standing: bool)
    requires id in cl.procs && ShapesOk(cl) && Keeps(id, cl.procs[id], e, cl.h)
    ensures ShapesOk(Moved(cl, id, e, candLast, standing))
  {
    hide NewBallots, NewRuns, NewWins, SentSet, WellShaped, HasChange, TermsBelow;
    var next := Moved(cl, id, e, candLast, standing);
    forall j | j in next.procs && j !in next.h.touched ensures ShapeOk(j, next.procs[j], next.h.stuck, next.h.doubled) {
      assert ShapeOk(j, cl.procs[j], cl.h.stuck, cl.h.doubled);
      if j != id { OtherShape(j, cl.procs[j], cl.h, next.h, id); }
    }
  }

  lemma {:induction false} OtherShape(id: NodeId, p: Proc, h: History, g: History, mover: NodeId)
    requires ShapeOk(id, p, h.stuck, h.doubled) && id != mover
    requires forall t :: (id, t) in g.stuck <==> (id, t) in h.stuck
    requires id in g.doubled <==> id in h.doubled
    ensures ShapeOk(id, p, g.stuck, g.doubled)
  {
    hide WellShaped, HasChange, TermsBelow;
  }

  lemma {:induction false} StepShape(s: Setup, cl: Cluster, ev: Event)
    requires Sensible(s) && Inv(s, cl) && ShapesOk(cl)
    ensures ShapesOk(Step(s, cl, ev))
  {
    hide Inv, ShapeOk, Keeps, RecordsAre, LastLogInfo, ElectionTimeout, OnRpc, Bootstrap, Start, AskedLast, NodeOk, Moved, Agrees;
    if Enabled(s, cl, ev) {
      match ev {
        case Bootstrapped(id) =>
          var p := cl.procs[id];
          BootstrapKeeps(s, id, p, cl.h);
          MovedShape(cl, id, Bootstrap(id, p.up.value, p.stores, s.clusterId, s.voters), Freshness(0, 0), false);
        case TimedOut(id, io) =>
          var p := cl.procs[id];
          AgreesOf(s, cl, id);
          TimeoutShape(s, id, p, io, cl.h);
          MovedShape(cl, id, ElectionTimeout(s.codec, id, p.up.value, p.stores, io), LastLogInfo(p.stores.log), true);
        case Delivered(packet, io) =>
          var p := cl.procs[packet.to];
          DeliverShape(s, cl, packet, io);
          MovedShape(cl, packet.to, OnRpc(s.codec, packet.to, p.up.value, p.stores, packet.envelope, io), AskedLast(packet.envelope), false);
        case Forged(packet) =>
        case Crashed(id) =>
          if ShapeOk(id, cl.procs[id], cl.h.stuck, cl.h.doubled) { RestShape(s.codec, id, cl.procs[id], s.clusterId, s.voters, cl.h); }
        case Restarted(id) =>
          if ShapeOk(id, cl.procs[id], cl.h.stuck, cl.h.doubled) { RestShape(s.codec, id, cl.procs[id], s.clusterId, s.voters, cl.h); }
        case Replicated(id, log) =>
      }
    }
  }

  lemma {:induction false} BootstrapKeeps(s: Setup, id: NodeId, p: Proc, h: History)
    requires p.up.Some?
    ensures Keeps(id, p, Bootstrap(id, p.up.value, p.stores, s.clusterId, s.voters), h)
  {
    hide ShapeOk, ValidBootstrap;
    var e := Bootstrap(id, p.up.value, p.stores, s.clusterId, s.voters);
    if ShapeOk(id, p, h.stuck, h.doubled) { RestShape(s.codec, id, p, s.clusterId, s.voters, h); }
    QuietKeeps(id, p, e, h);
  }

  lemma {:induction false} AgreesOf(s: Setup, cl: Cluster, id: NodeId)
    requires Inv(s, cl) && Running(cl, id)
    ensures Agrees(cl.procs[id].up.value, cl.procs[id].stores.quorum)
  {
    hide PacketOk, HistoryOk, Stored, StoredCast, ConfigKept, VotesCast, Standing, Won, Agrees;
    assert NodeOk(s, id, cl.procs[id], cl.h);
  }

  lemma {:induction false} RunShapes(s: Setup, cl: Cluster, evs: seq<Event>)
    requires Sensible(s) && Init(s, cl)
    ensures ShapesOk(Run(s, cl, evs))
    decreases |evs|
  {
    hide Inv, Step;
    if evs != [] {
      var front := evs[..|evs| - 1];
      RunInv(s, cl, front);
      RunShapes(s, cl, front);
      StepShape(s, Run(s, cl, front), evs[|evs| - 1]);
    }
  }

  /**
   In every run a log that only elections wrote has no entry after the current
   term, and is well-shaped exactly when its node never kept another entry in a
   term whose leader change it had failed to roll back.
   */
  lemma {:induction false} LogsWellShaped(s: Setup, cl: Cluster, evs: seq<Event>, id: NodeId)
    requires Sensible(s) && Init(s, cl)
    requires var now := Run(s, cl, evs); id in now.procs && id !in now.h.touched
    ensures var now := Run(s, cl, evs);
      && (WellShaped(now.procs[id].stores.log) <==> id !in now.h.doubled)
      && (now.procs[id].up.Some? ==> TermsBelow(now.procs[id].stores.log, now.procs[id].up.value.term + 1))
  {
    hide Run, Init, Inv, WellShaped, NodeOk, TermsBelow, HasChange;
    RunShapes(s, cl, evs);
    RunInv(s, cl, evs);
    var now := Run(s, cl, evs);
    var p := now.procs[id];
    assert ShapeOk(id, p, now.h.stuck, now.h.doubled);
    if p.up.Some? {
      AgreesOf(s, now, id);
      if p.stores.quorum.Some? { TermsWithin(p.stores.log, p.stores.quorum.value.term + 1, p.up.value.term + 1); }
      else { NoTerms(p.stores.log, p.up.value.term + 1); }
    }
  }
}
