/** Each handler gives the cluster what the invariant of elections needs of it. */
module ElectionSteps {
  import opened Types
  import opened LogSpec
  import opened RaftSpec
  import opened ElectionRun
  import opened ElectionSafety
  import Quorum

  /** Changing memory alone, to something the invariant allows. */
  lemma {:induction false} MemoryMove(s: Setup, h: History, id: NodeId, p: Proc, e: Effect, candLast: Freshness, standing: bool)
    requires p.up.Some? && e.stores == p.stores && (e.node.role.Leader? ==> p.up.value.role.Leader?)
    requires NodeOk(s, id, Proc(if e.outcome.Died? then None else Some(e.node), e.stores), h)
    requires forall q | q in e.sent :: PacketOk(q, h)
    ensures MoveOk(s, h, id, p, e, candLast, standing)
  {
  }

  /** Whatever a node stood for before, its term was no later than the current one. */
  lemma {:induction false} NoRunAhead(s: Setup, cl: Cluster, id: NodeId, r: Candidacy)
    requires Inv(s, cl) && Running(cl, id) && r in cl.h.runs && r.cand == id
    ensures r.term <= cl.procs[id].up.value.term
  {
  }

  /** A node was never stuck nor won in a term it has not reached. */
  lemma {:induction false} NothingAhead(s: Setup, cl: Cluster, id: NodeId, term: Term)
    requires Inv(s, cl) && Running(cl, id) && term > cl.procs[id].up.value.term
    ensures !Tried(cl.h.runs, id, term) && (id, term) !in cl.h.stuck && !Won(cl.h.wins, id, term)
  {
    hide NodeOk, PacketOk, Stored, OneVote, BallotOk, RunsOnce, RunsCast, Cast, Extends;
    forall r | r in cl.h.runs && r.cand == id ensures r.term != term { NoRunAhead(s, cl, id, r); }
    forall w | w in cl.h.wins && w.leader == id ensures w.term != term {
      assert WinOk(s, w, cl.h);
    }
    forall x | x in cl.h.stuck ensures x != (id, term) { assert Tried(cl.h.runs, x.0, x.1); }
  }

  // ---- Becoming leader ----

  /** What a winning candidate's appends can leave behind. */
  lemma {:induction false} LeaderEffect(s: Setup, id: NodeId, node: Node, stores: Stores, io: Appends)
    requires Sensible(s) && RecordsAre(s, stores.log) && node.voters == s.voters
    ensures var e := BecomeLeader(s.codec, id, node, stores, io);
      && e.stores.quorum == stores.quorum && e.stores.snapshot == stores.snapshot && e.sent == []
      && (e.outcome.Done? ==> e.node == Lead(id, node, e.stores.log.End()))
      && (!e.outcome.Done? ==> e.node == node)
      && RecordsAre(s, e.stores.log) && Extends(stores.log, e.stores.log)
  {
  }

  /** A majority of the list, counted as the code does, is more than half of the voters. */
  lemma {:induction false} QuorumIsMajority(s: Setup, node: Node)
    requires Sensible(s) && node.voters == s.voters && HasQuorum(node)
    ensures 2 * |node.votes| > |Ids(s.voters)|
  {
    Quorum.IdsCount(s.voters);
  }

  // ---- Election timeout ----

  lemma {:induction false} RequestsOk(id: NodeId, node: Node, log: Log, to: seq<VoterInfo>, h: History)
    requires Ran(h.runs, id, node.term, LastLogInfo(log))
    ensures forall q | q in Requests(id, node, log, to) :: PacketOk(q, h)
    decreases |to|
  {
    hide LastLogInfo, Ran;
    if to != [] { RequestsOk(id, node, log, to[..|to| - 1], h); }
  }

  /** A vote for oneself that reached the disk, whatever came after it. */
  ghost predicate Stood(s: Setup, id: NodeId, p: Proc, e: Effect) {
    && p.up.Some? && (p.up.value.role.Follower? || p.up.value.role.Candidate?)
    && e.stores.quorum == Some(QuorumState(p.up.value.term + 1, Some(id), None, 0, p.up.value.clusterId))
    && e.node.term == p.up.value.term + 1 && e.node.votedFor == Some(id) && e.node.votes == {id}
    && (e.node.role.Candidate? || (e.node.role.Leader? && 2 > |Ids(s.voters)|))
    && ConfigKept(s, Proc(Some(e.node), e.stores))
    && Extends(p.stores.log, e.stores.log)
    && (e.node.role.Candidate? && e.stores.log != p.stores.log ==> !e.outcome.Done?)
    && (e.node.role.Leader? ==> e.outcome.Done?)
  }

  /** The ballot, the candidacy and the win recorded when a node stands. */
  lemma {:induction false} StoodRecords(s: Setup, cl: Cluster, id: NodeId, e: Effect)
    requires Inv(s, cl) && Running(cl, id) && Stood(s, id, cl.procs[id], e)
    ensures var p := cl.procs[id]; var last := LastLogInfo(p.stores.log);
      && NewBallots(id, p.stores, e.stores, last) == {Ballot(id, e.node.term, id, last, last)}
      && NewRuns(id, p.stores, e.stores, true) == {Candidacy(id, e.node.term, p.stores.log)}
      && NewWins(id, p, e) == (if e.node.role.Leader? then {Win(id, e.node.term, {id}, p.stores.log)} else {})
      && Forward(p.stores.quorum, e.stores.quorum)
  {
  }

  lemma {:induction false} StoodCast(id: NodeId, p: Proc, e: Effect, h: History)
    requires p.up.Some?
    requires var last := LastLogInfo(p.stores.log);
      && NewBallots(id, p.stores, e.stores, last) == {Ballot(id, e.node.term, id, last, last)}
      && NewRuns(id, p.stores, e.stores, true) == {Candidacy(id, e.node.term, p.stores.log)}
    ensures var last := LastLogInfo(p.stores.log); var g := Remember(h, id, p, e, last, true);
      && Cast(g.ballots, id, e.node.term, id) && Ran(g.runs, id, e.node.term, last)
      && Candidacy(id, e.node.term, p.stores.log) in g.runs
  {
  }

  lemma {:induction false} StoodNode(s: Setup, cl: Cluster, id: NodeId, e: Effect)
    requires Inv(s, cl) && Running(cl, id) && Stood(s, id, cl.procs[id], e)
    ensures var p := cl.procs[id]; var g := Remember(cl.h, id, p, e, LastLogInfo(p.stores.log), true);
      NodeOk(s, id, Proc(if e.outcome.Died? then None else Some(e.node), e.stores), g)
  {
    hide PacketOk, HistoryOk, LastLogInfo, Stored, Cast, Ran, NewBallots, NewRuns, RecordsAre, Extends, NewWins;
    var p := cl.procs[id];
    var last := LastLogInfo(p.stores.log);
    var g := Remember(cl.h, id, p, e, last, true);
    StoodRecords(s, cl, id, e);
    StoodCast(id, p, e, cl.h);
    assert NodeOk(s, id, p, cl.h);
    assert {id} <= Ids(s.voters);
    NothingAhead(s, cl, id, e.node.term);
    forall r | r in g.runs && r.cand == id && r.term == e.node.term ensures r.log == p.stores.log {
      if r in cl.h.runs { NoRunAhead(s, cl, id, r); }
    }
    if e.node.role.Leader? {
      assert Win(id, e.node.term, {id}, p.stores.log) in g.wins;
    }
  }

  lemma {:induction false} StoodMove(s: Setup, cl: Cluster, id: NodeId, e: Effect)
    requires Inv(s, cl) && Running(cl, id) && Stood(s, id, cl.procs[id], e)
    requires var p := cl.procs[id]; var g := Remember(cl.h, id, p, e, LastLogInfo(p.stores.log), true);
      forall q | q in e.sent :: PacketOk(q, g)
    ensures MoveOk(s, cl.h, id, cl.procs[id], e, LastLogInfo(cl.procs[id].stores.log), true)
  {
    hide PacketOk, HistoryOk, LastLogInfo, Stored, Cast, Ran, NewBallots, NewRuns, NewWins, NodeOk, RecordsAre, Forward, ConfigKept;
    var p := cl.procs[id];
    var last := LastLogInfo(p.stores.log);
    var g := Remember(cl.h, id, p, e, last, true);
    StoodRecords(s, cl, id, e);
    StoodCast(id, p, e, cl.h);
    StoodNode(s, cl, id, e);
    NothingAhead(s, cl, id, e.node.term);
    assert Tried(g.runs, id, e.node.term) by { assert Candidacy(id, e.node.term, p.stores.log) in g.runs; }
    forall x | x in cl.h.runs ensures !(x.cand == id && x.term == e.node.term) {
      if x.cand == id && x.term == e.node.term { NoRunAhead(s, cl, id, x); }
    }
    if e.node.role.Leader? {
      var w := Win(id, e.node.term, {id}, p.stores.log);
      assert Candidacy(id, e.node.term, p.stores.log) in g.runs;
      assert AskedWith(w, g);
      assert id in Ids(s.voters) by { NodeIsVoter(s, cl, id); }
      assert WinOk(s, w, g);
    }
  }

  lemma {:induction false} NodeIsVoter(s: Setup, cl: Cluster, id: NodeId)
    requires Inv(s, cl) && id in cl.procs
    ensures id in Ids(s.voters)
  {
  }

  lemma {:induction false} TimeoutMove(s: Setup, cl: Cluster, id: NodeId, io: Storage)
    requires Sensible(s) && Inv(s, cl) && Running(cl, id)
    ensures var p := cl.procs[id];
      MoveOk(s, cl.h, id, p, ElectionTimeout(s.codec, id, p.up.value, p.stores, io), LastLogInfo(p.stores.log), true)
  {
    hide MoveOk, PacketOk, HistoryOk, LastLogInfo, Stored, StoredCast, RecordsAre, Requests, BecomeLeader, HasQuorum, Extends;
    var p := cl.procs[id];
    var last := LastLogInfo(p.stores.log);
    var e := ElectionTimeout(s.codec, id, p.up.value, p.stores, io);
    assert NodeOk(s, id, p, cl.h);
    if !p.up.value.role.Follower? && !p.up.value.role.Candidate? {
      MemoryMove(s, cl.h, id, p, e, last, true);
    } else if io.vote.NotWritten? {
      NothingAhead(s, cl, id, e.node.term);
      forall r | r in cl.h.runs && r.cand == id ensures r.term != e.node.term { NoRunAhead(s, cl, id, r); }
      assert {id} <= Ids(s.voters);
      MemoryMove(s, cl.h, id, p, e, last, true);
    } else {
      TimeoutStands(s, cl, id, io);
      TimeoutSends(s, cl, id, io);
      StoodMove(s, cl, id, e);
    }
  }

  lemma {:induction false} TimeoutStands(s: Setup, cl: Cluster, id: NodeId, io: Storage)
    requires Sensible(s) && Inv(s, cl) && Running(cl, id) && !io.vote.NotWritten?
    requires cl.procs[id].up.value.role.Follower? || cl.procs[id].up.value.role.Candidate?
    ensures var p := cl.procs[id]; Stood(s, id, p, ElectionTimeout(s.codec, id, p.up.value, p.stores, io))
  {
    hide PacketOk, HistoryOk, LastLogInfo, Stored, StoredCast, VotesCast, Standing, Won, RecordsAre, Requests, BecomeLeader;
    var p := cl.procs[id];
    assert NodeOk(s, id, p, cl.h);
    var stood := Stand(id, p.up.value);
    var kept := SaveQuorum(p.stores, stood, io.vote);
    if io.vote.Saved? && HasQuorum(stood) {
      LeaderEffect(s, id, stood, kept, io.appends);
      QuorumIsMajority(s, stood);
    }
  }

  lemma {:induction false} TimeoutSends(s: Setup, cl: Cluster, id: NodeId, io: Storage)
    requires Sensible(s) && Inv(s, cl) && Running(cl, id) && !io.vote.NotWritten?
    requires cl.procs[id].up.value.role.Follower? || cl.procs[id].up.value.role.Candidate?
    ensures var p := cl.procs[id];
      var e := ElectionTimeout(s.codec, id, p.up.value, p.stores, io);
      forall q | q in e.sent :: PacketOk(q, Remember(cl.h, id, p, e, LastLogInfo(p.stores.log), true))
  {
    hide PacketOk, HistoryOk, LastLogInfo, Stored, StoredCast, VotesCast, Standing, Won, RecordsAre, Requests, BecomeLeader,
      NewBallots, NewRuns, NewWins, Stood, Cast, Ran;
    var p := cl.procs[id];
    var e := ElectionTimeout(s.codec, id, p.up.value, p.stores, io);
    assert NodeOk(s, id, p, cl.h);
    var stood := Stand(id, p.up.value);
    var kept := SaveQuorum(p.stores, stood, io.vote);
    if io.vote.Saved? {
      if HasQuorum(stood) {
        LeaderEffect(s, id, stood, kept, io.appends);
      } else {
        TimeoutStands(s, cl, id, io);
        StoodRecords(s, cl, id, e);
        StoodCast(id, p, e, cl.h);
        RequestsOk(id, stood, kept.log, stood.voters, Remember(cl.h, id, p, e, LastLogInfo(p.stores.log), true));
      }
    }
  }

  // ---- Vote requests ----

  /** A handler that leaves the log alone, gathers no votes, and votes only for the candidate that asked. */
  ghost predicate Voted(p: Proc, e: Effect, req: VoteRequest) {
    && p.up.Some? && e.stores.log == p.stores.log && e.stores.snapshot == p.stores.snapshot && !e.outcome.Died?
    && (e.node == p.up.value.(votedFor := e.node.votedFor) || e.node.role.Follower?)
    && e.node.voters == p.up.value.voters
    && Agrees(e.node, e.stores.quorum) && Forward(p.stores.quorum, e.stores.quorum)
    && (e.stores.quorum == p.stores.quorum || e.stores.quorum.value.votedFor.None?
        || (&& e.stores.quorum.value.term == req.term && e.stores.quorum.value.votedFor == Some(req.candidateId)
            && NoFresherThan(LastLogInfo(p.stores.log), CandidateLast(req)) && !req.isPreVote))
  }

  lemma {:induction false} RequestVotes(id: NodeId, p: Proc, req: VoteRequest, from: NodeId, io: Storage)
    requires p.up.Some? && Agrees(p.up.value, p.stores.quorum)
    ensures Voted(p, OnVoteRequest(id, p.up.value, p.stores, req, from, io), req)
  {
    hide Ids, LastLogInfo, NoFresherThan;
  }

  /** A granted real vote is on disk before the answer leaves. */
  lemma {:induction false} GrantIsStored(id: NodeId, p: Proc, req: VoteRequest, from: NodeId, io: Storage)
    requires p.up.Some?
    ensures var e := OnVoteRequest(id, p.up.value, p.stores, req, from, io);
      forall q | q in e.sent ::
        && q.to == from && q.envelope.source == id && q.envelope.payload.Response?
        && (q.envelope.payload.response.voteGranted && !q.envelope.payload.response.isPreVote ==>
              && e.stores.quorum.Some? && e.stores.quorum.value.votedFor == Some(req.candidateId)
              && e.stores.quorum.value.term == req.term == q.envelope.payload.response.term && !req.isPreVote)
  {
  }

  lemma {:induction false} VotedNode(s: Setup, h: History, id: NodeId, p: Proc, e: Effect, req: VoteRequest)
    requires NodeOk(s, id, p, h) && Voted(p, e, req)
    ensures NodeOk(s, id, Proc(Some(e.node), e.stores), Remember(h, id, p, e, CandidateLast(req), false))
  {
  }

  lemma {:induction false} RequestMove(s: Setup, cl: Cluster, packet: Packet, io: Storage)
    requires Inv(s, cl) && packet in cl.net && Running(cl, packet.to) && packet.envelope.payload.Request?
    ensures var id, p, req := packet.to, cl.procs[packet.to], packet.envelope.payload.request;
      MoveOk(s, cl.h, id, p, OnVoteRequest(id, p.up.value, p.stores, req, packet.envelope.source, io), CandidateLast(req), false)
  {
    hide Stored, RecordsAre, OnVoteRequest, Cast, Ran, LastLogInfo, NoFresherThan, Standing, VotesCast, Won, RunsOnce, OneVote, WinOk;
    var id, p, req := packet.to, cl.procs[packet.to], packet.envelope.payload.request;
    var from := packet.envelope.source;
    var e := OnVoteRequest(id, p.up.value, p.stores, req, from, io);
    assert NodeOk(s, id, p, cl.h) && PacketOk(packet, cl.h);
    RequestVotes(id, p, req, from, io);
    VotedNode(s, cl.h, id, p, e, req);
    var g := Remember(cl.h, id, p, e, CandidateLast(req), false);
    assert g.runs == cl.h.runs;
    GrantIsStored(id, p, req, from, io);
    forall q | q in e.sent ensures PacketOk(q, g) {
      var resp := q.envelope.payload.response;
      if resp.voteGranted && !resp.isPreVote {
        assert StoredCast(id, e.stores.quorum, g.ballots);
        CandidateCast(s, cl.h, req.candidateId, req.term, CandidateLast(req));
        CastGrows(cl.h.ballots, g.ballots, req.candidateId, req.term, req.candidateId);
      }
    }
  }

  lemma {:induction false} CandidateCast(s: Setup, h: History, cand: NodeId, term: Term, last: Freshness)
    requires HistoryOk(s, h) && Ran(h.runs, cand, term, last)
    ensures Cast(h.ballots, cand, term, cand)
  {
  }

  // ---- Vote responses ----

  /** A candidate that counted one more vote, and may have won with it. */
  ghost predicate Tallied(s: Setup, cl: Cluster, id: NodeId, e: Effect, x: NodeId)
    requires Running(cl, id)
  {
    var p := cl.procs[id]; var n := p.up.value;
    && n.role.Candidate? && x in Ids(s.voters) && Cast(cl.h.ballots, x, n.term, id) && Cast(cl.h.ballots, id, n.term, id)
    && e.stores.quorum == p.stores.quorum && e.sent == []
    && e.node.term == n.term && e.node.votedFor == n.votedFor && e.node.votes == n.votes + {x}
    && (e.node.role.Candidate? || (e.node.role.Leader? && 2 * |e.node.votes| > |Ids(s.voters)|))
    && ConfigKept(s, Proc(Some(e.node), e.stores)) && Extends(p.stores.log, e.stores.log)
    && (e.node.role.Candidate? && e.stores.log != p.stores.log ==> !e.outcome.Done?)
    && (e.node.role.Leader? ==> e.outcome.Done?)
  }

  /** Counting a vote writes no ballot and no candidacy. */
  lemma {:induction false} TalliedHistory(s: Setup, cl: Cluster, id: NodeId, e: Effect, x: NodeId)
    requires Running(cl, id) && Tallied(s, cl, id, e, x)
    ensures var p := cl.procs[id]; var g := Remember(cl.h, id, p, e, Freshness(0, 0), false);
      && g.ballots == cl.h.ballots && g.runs == cl.h.runs
      && NewBallots(id, p.stores, e.stores, Freshness(0, 0)) == {} && NewRuns(id, p.stores, e.stores, false) == {}
      && NewWins(id, p, e) == (if e.node.role.Leader? then {Win(id, e.node.term, e.node.votes, p.stores.log)} else {})
      && (e.node.role.Candidate? ==> g.wins == cl.h.wins)
      && (e.node.role.Leader? ==> g.stuck == cl.h.stuck && Win(id, e.node.term, e.node.votes, p.stores.log) in g.wins)
  {
    hide LastLogInfo, Cast, Extends, ConfigKept, Ids, NewBallots, NewRuns, NewWins, NewlyStuck;
    var p := cl.procs[id];
    SameQuorum(id, p.stores, e.stores);
    assert NewWins(id, p, e) == (if e.node.role.Leader? then {Win(id, e.node.term, e.node.votes, p.stores.log)} else {}) by {
      WinRecorded(id, p, e);
    }
    if e.node.role.Leader? { assert NewlyStuck(id, p.stores, e) == {} by { DoneIsNotStuck(id, p.stores, e); } }
  }

  lemma {:induction false} SameQuorum(id: NodeId, before: Stores, after: Stores)
    requires after.quorum == before.quorum
    ensures NewBallots(id, before, after, Freshness(0, 0)) == {} && NewRuns(id, before, after, false) == {}
  {
  }

  lemma {:induction false} WinRecorded(id: NodeId, p: Proc, e: Effect)
    requires p.up.Some? && p.up.value.role.Candidate?
    ensures NewWins(id, p, e) == if e.node.role.Leader? then {Win(id, e.node.term, e.node.votes, p.stores.log)} else {}
  {
  }

  lemma {:induction false} DoneIsNotStuck(id: NodeId, before: Stores, e: Effect)
    requires e.outcome.Done?
    ensures NewlyStuck(id, before, e) == {}
  {
  }

  lemma {:induction false} TalliedStanding(s: Setup, cl: Cluster, id: NodeId, e: Effect, x: NodeId)
    requires Inv(s, cl) && Running(cl, id) && Tallied(s, cl, id, e, x) && !e.outcome.Died?
    ensures Standing(id, e.node, e.stores.log, Remember(cl.h, id, cl.procs[id], e, Freshness(0, 0), false))
  {
    hide PacketOk, LastLogInfo, Stored, Cast, HistoryOk, ConfigKept, Won, Ids, StoredCast, VotesCast, Agrees, Extends;
    var p := cl.procs[id];
    var n := p.up.value;
    var g := Remember(cl.h, id, p, e, Freshness(0, 0), false);
    assert NodeOk(s, id, p, cl.h);
    TalliedHistory(s, cl, id, e, x);
    forall q | q in g.runs && q.cand == id && q.term == n.term
      ensures Extends(q.log, e.stores.log)
      ensures e.node.role.Candidate? ==> (q.log == e.stores.log <==> (id, n.term) !in g.stuck)
    {
      ExtendsThrough(q.log, p.stores.log, e.stores.log);
    }
  }

  lemma {:induction false} TalliedNode(s: Setup, cl: Cluster, id: NodeId, e: Effect, x: NodeId)
    requires Inv(s, cl) && Running(cl, id) && Tallied(s, cl, id, e, x)
    ensures NodeOk(s, id, Proc(if e.outcome.Died? then None else Some(e.node), e.stores),
                   Remember(cl.h, id, cl.procs[id], e, Freshness(0, 0), false))
  {
    hide PacketOk, LastLogInfo, Stored, Cast, HistoryOk, RecordsAre, Won, Ids, Standing, Extends, NewBallots, NewRuns, NewWins;
    var g := Remember(cl.h, id, cl.procs[id], e, Freshness(0, 0), false);
    assert NodeOk(s, id, cl.procs[id], cl.h);
    TalliedHistory(s, cl, id, e, x);
    if !e.outcome.Died? { TalliedStanding(s, cl, id, e, x); }
    if e.node.role.Leader? { WonBy(g.wins, Win(id, e.node.term, e.node.votes, cl.procs[id].stores.log)); }
  }

  lemma {:induction false} CountedMove(s: Setup, cl: Cluster, id: NodeId, e: Effect, x: NodeId)
    requires Inv(s, cl) && Running(cl, id) && Tallied(s, cl, id, e, x)
    ensures MoveOk(s, cl.h, id, cl.procs[id], e, Freshness(0, 0), false)
  {
    hide PacketOk, LastLogInfo, Stored, Cast, Ran, RecordsAre, HistoryOk, Won, AskedWith, ConfigKept, Extends, Agrees, StoredCast,
      NewBallots, NewRuns, NewWins;
    var p := cl.procs[id];
    var n := p.up.value;
    var g := Remember(cl.h, id, p, e, Freshness(0, 0), false);
    assert NodeOk(s, id, p, cl.h);
    TalliedHistory(s, cl, id, e, x);
    TalliedNode(s, cl, id, e, x);
    var r := CandidacyOf(s, cl, id);
    if e.node.role.Leader? {
      var w := Win(id, e.node.term, e.node.votes, p.stores.log);
      AskedBy(w, g, r);
      assert WinOk(s, w, g);
    }
    assert Tried(g.runs, id, n.term);
  }

  lemma {:induction false} AskedBy(w: Win, g: History, r: Candidacy)
    requires r in g.runs && r.cand == w.leader && r.term == w.term
    requires Extends(r.log, w.log) && (r.log == w.log <==> (w.leader, w.term) !in g.stuck)
    ensures AskedWith(w, g)
  {
  }

  lemma {:induction false} WonBy(wins: set<Win>, w: Win)
    requires w in wins
    ensures Won(wins, w.leader, w.term)
  {
  }

  lemma {:induction false} ExtendsThrough(a: Log, b: Log, c: Log)
    requires Extends(a, b) && Extends(b, c)
    ensures Extends(a, c) && (a == c ==> a == b && b == c)
  {
  }

  /** A candidate whose own vote is durable has a recorded candidacy, with the log it still has. */
  lemma {:induction false} CandidacyOf(s: Setup, cl: Cluster, id: NodeId) returns (r: Candidacy)
    requires Inv(s, cl) && Running(cl, id) && cl.procs[id].up.value.role.Candidate?
    requires Cast(cl.h.ballots, id, cl.procs[id].up.value.term, id)
    ensures r in cl.h.runs && r.cand == id && r.term == cl.procs[id].up.value.term
    ensures Extends(r.log, cl.procs[id].stores.log)
    ensures r.log == cl.procs[id].stores.log <==> (id, cl.procs[id].up.value.term) !in cl.h.stuck
  {
    hide PacketOk, LastLogInfo, Stored, RecordsAre, OneVote, RunsOnce, ConfigKept, Won, VotesCast, WinOk, Extends, Agrees, StoredCast;
    var t := cl.procs[id].up.value.term;
    var b :| b in cl.h.ballots && b.voter == id && b.term == t && b.cand == id;
    assert BallotOk(b, cl.h.runs);
    r :| r in cl.h.runs && r.cand == id && r.term == t && LastLogInfo(r.log) == b.candLast;
    assert NodeOk(s, id, cl.procs[id], cl.h);
  }

  lemma {:induction false} ResponseMove(s: Setup, cl: Cluster, packet: Packet, io: Storage)
    requires Sensible(s) && Inv(s, cl) && packet in cl.net && Running(cl, packet.to) && packet.envelope.payload.Response?
    ensures var id, p := packet.to, cl.procs[packet.to];
      var e := OnVoteResponse(s.codec, id, p.up.value, p.stores, packet.envelope.source, packet.envelope.payload.response, io);
      MoveOk(s, cl.h, id, p, e, Freshness(0, 0), false)
  {
    hide MoveOk, HistoryOk, Stored, RecordsAre, BecomeLeader, HasQuorum, Cast, Ran, LastLogInfo, Standing, VotesCast, Won, Extends;
    var id, p, from, resp := packet.to, cl.procs[packet.to], packet.envelope.source, packet.envelope.payload.response;
    var n := p.up.value;
    var e := OnVoteResponse(s.codec, id, n, p.stores, from, resp, io);
    assert NodeOk(s, id, p, cl.h) && PacketOk(packet, cl.h);
    if resp.term > n.term {
      AdoptMove(s, cl.h, id, p, resp.term, io.adopt);
    } else if !n.role.Candidate? || resp.term != n.term || resp.isPreVote || from !in Ids(n.voters) || !resp.voteGranted {
      MemoryMove(s, cl.h, id, p, e, Freshness(0, 0), false);
    } else {
      var counted := n.(votes := n.votes + {from});
      assert n.voters == s.voters;
      if HasQuorum(counted) {
        LeaderEffect(s, id, counted, p.stores, io.appends);
        QuorumIsMajority(s, counted);
      } else {
        ExtendsItself(p.stores.log);
      }
      CountedMove(s, cl, id, e, from);
    }
  }

  lemma {:induction false} ExtendsItself(log: Log)
    ensures Extends(log, log)
  {
  }

  /** Taking over a higher term from a response. */
  lemma {:induction false} AdoptMove(s: Setup, h: History, id: NodeId, p: Proc, term: Term, save: Save)
    requires p.up.Some? && NodeOk(s, id, p, h) && term > p.up.value.term
    ensures var cur := Adopt(p.up.value, term);
      MoveOk(s, h, id, p, Effect(cur, SaveQuorum(p.stores, cur, save), [], if save.Saved? then Done else Failed), Freshness(0, 0), false)
  {
  }

  // ---- The other events ----

  lemma {:induction false} BootstrapMove(s: Setup, cl: Cluster, id: NodeId)
    requires Inv(s, cl) && Running(cl, id)
    ensures var p := cl.procs[id];
      MoveOk(s, cl.h, id, p, Bootstrap(id, p.up.value, p.stores, s.clusterId, s.voters), Freshness(0, 0), false)
  {
    hide MoveOk, HistoryOk, Stored, RecordsAre, Cast, Ran, LastLogInfo, Won, Extends, PacketOk, ValidBootstrap;
    var p := cl.procs[id];
    assert NodeOk(s, id, p, cl.h);
    MemoryMove(s, cl.h, id, p, Bootstrap(id, p.up.value, p.stores, s.clusterId, s.voters), Freshness(0, 0), false);
  }

  lemma {:induction false} RequestLeavesLog(id: NodeId, p: Proc, req: VoteRequest, from: NodeId, io: Storage)
    requires p.up.Some?
    ensures var e := OnVoteRequest(id, p.up.value, p.stores, req, from, io); e.stores.log == p.stores.log && !e.outcome.Died?
  {
    hide LastLogInfo, NoFresherThan, Ids;
  }

  /** A reply that was not sent changes nothing the cluster relies on. */
  lemma {:induction false} UnsentMove(s: Setup, h: History, id: NodeId, p: Proc, e: Effect, candLast: Freshness, replied: bool)
    requires MoveOk(s, h, id, p, e, candLast, false) && e.stores.log == p.stores.log && !e.outcome.Died?
    ensures MoveOk(s, h, id, p, Replied(e, replied), candLast, false)
  {
    hide NodeOk, PacketOk, BallotOk, WinOk, Cast, Forward, LastLogInfo;
    assert Remember(h, id, p, Replied(e, replied), candLast, false) == Remember(h, id, p, e, candLast, false);
  }

  lemma {:induction false} DeliverMove(s: Setup, cl: Cluster, packet: Packet, io: Storage)
    requires Sensible(s) && Inv(s, cl) && packet in cl.net && Running(cl, packet.to)
    ensures var p := cl.procs[packet.to];
      MoveOk(s, cl.h, packet.to, p, OnRpc(s.codec, packet.to, p.up.value, p.stores, packet.envelope, io), AskedLast(packet.envelope), false)
  {
    hide MoveOk, HistoryOk, Stored, NodeOk, PacketOk, OnVoteRequest, OnVoteResponse, CandidateLast;
    var id, p, env := packet.to, cl.procs[packet.to], packet.envelope;
    assert NodeOk(s, id, p, cl.h);
    if Fenced(p.up.value, env) || env.payload.OtherRpc? {
      MemoryMove(s, cl.h, id, p, OnRpc(s.codec, id, p.up.value, p.stores, env, io), AskedLast(env), false);
    } else if env.payload.Request? {
      RequestMove(s, cl, packet, io);
      var e := OnVoteRequest(id, p.up.value, p.stores, env.payload.request, env.source, io);
      RequestLeavesLog(id, p, env.payload.request, env.source, io);
      UnsentMove(s, cl.h, id, p, e, AskedLast(env), io.replied);
    } else {
      ResponseMove(s, cl, packet, io);
    }
  }

  lemma {:induction false} LatestIs(s: Setup, es: seq<LogEntry>)
    requires RecordsAre(s, Log(0, es))
    ensures LatestVoters(s.codec.decode, es).Some? ==> LatestVoters(s.codec.decode, es).value == s.voters
    decreases |es|
  {
    if es != [] {
      var front := es[..|es| - 1];
      assert RecordsAre(s, Log(0, front)) by {
        forall i | 0 <= i < |front| && front[i].entryType == VotersRecord
          ensures s.codec.decode(front[i].payload).Some? ==> s.codec.decode(front[i].payload).value == s.voters
        { assert es[i] == front[i]; }
      }
      LatestIs(s, front);
    }
  }

  /** A node started on its stores has the stored term and vote. */
  lemma {:induction false} RestartNode(s: Setup, h: History, id: NodeId, p: Proc)
    requires NodeOk(s, id, p, h)
    ensures NodeOk(s, id, Proc(Some(Start(s.codec, p.stores)), p.stores), h)
  {
    hide Cast, LatestVoters, Won, Extends;
    LatestIs(s, p.stores.log.entries);
  }

  /** Replacing one process, without anything to remember. */
  lemma {:induction false} ReplacedKeeps(s: Setup, cl: Cluster, id: NodeId, p: Proc, touched: set<NodeId>)
    requires Inv(s, cl) && id in cl.procs && p.stores.quorum == cl.procs[id].stores.quorum
    requires NodeOk(s, id, p, cl.h)
    ensures Inv(s, cl.(procs := cl.procs[id := p], h := cl.h.(touched := touched)))
  {
  }

  lemma {:induction false} ForgedKeeps(s: Setup, cl: Cluster, packet: Packet)
    requires Inv(s, cl) && packet.envelope.payload.Request? && packet.envelope.payload.request.isPreVote
    ensures Inv(s, cl.(net := cl.net + {packet}))
  {
  }

  /** Every event keeps the invariant. */
  lemma {:induction false} StepInv(s: Setup, cl: Cluster, ev: Event)
    requires Sensible(s) && Inv(s, cl)
    ensures Inv(s, Step(s, cl, ev))
  {
    hide Inv, MoveOk, Moved, RecordsAre, LastLogInfo, ElectionTimeout, OnRpc, Bootstrap, Start, AskedLast, NodeOk;
    if Enabled(s, cl, ev) {
      match ev {
        case Bootstrapped(id) =>
          var p := cl.procs[id];
          BootstrapMove(s, cl, id);
          MovedKeeps(s, cl, id, Bootstrap(id, p.up.value, p.stores, s.clusterId, s.voters), Freshness(0, 0), false);
        case TimedOut(id, io) =>
          var p := cl.procs[id];
          TimeoutMove(s, cl, id, io);
          MovedKeeps(s, cl, id, ElectionTimeout(s.codec, id, p.up.value, p.stores, io), LastLogInfo(p.stores.log), true);
        case Delivered(packet, io) =>
          var p := cl.procs[packet.to];
          DeliverMove(s, cl, packet, io);
          MovedKeeps(s, cl, packet.to, OnRpc(s.codec, packet.to, p.up.value, p.stores, packet.envelope, io), AskedLast(packet.envelope), false);
        case Forged(packet) => ForgedKeeps(s, cl, packet);
        case Crashed(id) =>
          NodeOf(s, cl, id);
          DownNode(s, id, cl.procs[id], cl.h);
          ReplacedKeeps(s, cl, id, Proc(None, cl.procs[id].stores), cl.h.touched);
        case Restarted(id) =>
          NodeOf(s, cl, id);
          RestartNode(s, cl.h, id, cl.procs[id]);
          ReplacedKeeps(s, cl, id, Proc(Some(Start(s.codec, cl.procs[id].stores)), cl.procs[id].stores), cl.h.touched);
        case Replicated(id, log) =>
          NodeOf(s, cl, id);
          ReplicatedNode(s, id, cl.procs[id], cl.h, log);
          ReplacedKeeps(s, cl, id, Proc(cl.procs[id].up, cl.procs[id].stores.(log := log)), cl.h.touched + {id});
      }
    }
  }

  lemma {:induction false} NodeOf(s: Setup, cl: Cluster, id: NodeId)
    requires Inv(s, cl) && id in cl.procs
    ensures NodeOk(s, id, cl.procs[id], cl.h)
  {
  }

  lemma {:induction false} DownNode(s: Setup, id: NodeId, p: Proc, h: History)
    requires NodeOk(s, id, p, h)
    ensures NodeOk(s, id, Proc(None, p.stores), h)
  {
  }

  lemma {:induction false} ReplicatedNode(s: Setup, id: NodeId, p: Proc, h: History, log: Log)
    requires NodeOk(s, id, p, h) && p.up.Some? && !p.up.value.role.Candidate? && RecordsAre(s, log)
    ensures NodeOk(s, id, Proc(p.up, p.stores.(log := log)), h)
  {
  }
}
