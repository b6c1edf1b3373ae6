/** What holds of every run of the cluster: one leader per term, and the shape of the logs elections write. */
module ElectionTheorems {
  import opened Types
  import opened LogSpec
  import opened RaftSpec
  import opened ElectionRun
  import opened ElectionSafety
  import opened ElectionSteps
  import Quorum

  lemma {:induction false} InitInv(s: Setup, cl: Cluster)
    requires Init(s, cl)
    ensures Inv(s, cl)
  {
  }

  lemma {:induction false} RunInv(s: Setup, cl: Cluster, evs: seq<Event>)
    requires Sensible(s) && Init(s, cl)
    ensures Inv(s, Run(s, cl, evs))
    decreases |evs|
  {
    hide Inv, Init, Step;
    if evs == [] {
      InitInv(s, cl);
    } else {
      RunInv(s, cl, evs[..|evs| - 1]);
      StepInv(s, Run(s, cl, evs[..|evs| - 1]), evs[|evs| - 1]);
    }
  }

  // ---- Election safety ----

  lemma {:induction false} CastOnce(ballots: set<Ballot>, voter: NodeId, term: Term, c: NodeId, d: NodeId)
    requires OneVote(ballots) && Cast(ballots, voter, term, c) && Cast(ballots, voter, term, d)
    ensures c == d
  {
  }

  lemma {:induction false} WinsAgree(s: Setup, h: History, v: Win, w: Win)
    requires HistoryOk(s, h) && v in h.wins && w in h.wins && v.term == w.term
    ensures v.leader == w.leader
  {
    hide Cast, AskedWith, RunsOnce, RunsCast, OneVote, BallotOk;
    assert WinOk(s, v, h) && WinOk(s, w, h);
    var x := Quorum.Overlap(v.votes, w.votes, Ids(s.voters));
    CastOnce(h.ballots, x, v.term, v.leader, w.leader);
  }

  /** In every run at most one node ever becomes leader in a term. */
  lemma {:induction false} OneLeaderPerTerm(s: Setup, cl: Cluster, evs: seq<Event>, v: Win, w: Win)
    requires Sensible(s) && Init(s, cl)
    requires v in Run(s, cl, evs).h.wins && w in Run(s, cl, evs).h.wins && v.term == w.term
    ensures v.leader == w.leader
  {
    hide Run, Init, NodeOk, PacketOk, Stored, HistoryOk;
    RunInv(s, cl, evs);
    WinsAgree(s, Run(s, cl, evs).h, v, w);
  }

  /** Two nodes that both act as leader of a term are the same node. */
  lemma {:induction false} SameLeader(s: Setup, cl: Cluster, evs: seq<Event>, a: NodeId, b: NodeId)
    requires Sensible(s) && Init(s, cl)
    requires var now := Run(s, cl, evs);
      && Running(now, a) && Running(now, b) && now.procs[a].up.value.role.Leader? && now.procs[b].up.value.role.Leader?
      && now.procs[a].up.value.term == now.procs[b].up.value.term
    ensures a == b
  {
    hide Run, Init, PacketOk, Stored, HistoryOk, StoredCast, ConfigKept, Agrees, VotesCast, Standing;
    RunInv(s, cl, evs);
    var now := Run(s, cl, evs);
    assert NodeOk(s, a, now.procs[a], now.h) && NodeOk(s, b, now.procs[b], now.h);
    var v :| v in now.h.wins && v.leader == a && v.term == now.procs[a].up.value.term;
    var w :| w in now.h.wins && w.leader == b && w.term == now.procs[b].up.value.term;
    WinsAgree(s, now.h, v, w);
  }

  /** No voter ever tells two candidates yes in one term, through any number of crashes. */
  lemma {:induction false} GrantedOnce(s: Setup, cl: Cluster, evs: seq<Event>, p: Packet, q: Packet)
    requires Sensible(s) && Init(s, cl)
    requires p in Run(s, cl, evs).net && q in Run(s, cl, evs).net
    requires Grant(p) && Grant(q) && p.envelope.source == q.envelope.source
    requires p.envelope.payload.response.term == q.envelope.payload.response.term
    ensures p.to == q.to
  {
    hide Run, Init, NodeOk, Cast, Stored, RunsOnce, RunsCast, OneVote, BallotOk, WinOk;
    RunInv(s, cl, evs);
    var h := Run(s, cl, evs).h;
    assert PacketOk(p, h) && PacketOk(q, h);
    CastOnce(h.ballots, p.envelope.source, p.envelope.payload.response.term, p.to, q.to);
  }

  predicate Grant(p: Packet) {
    p.envelope.payload.Response? && p.envelope.payload.response.voteGranted && !p.envelope.payload.response.isPreVote
  }

  // ---- Election restriction ----

  /** A voter's ballot for the winner, cast when the voter's log was no fresher than the one asked with. */
  ghost predicate FairBallot(h: History, w: Win, x: NodeId, asked: Log) {
    exists b :: b in h.ballots && b.voter == x && b.term == w.term && b.cand == w.leader
      && NoFresherThan(b.voterLast, LastLogInfo(asked))
  }

  /**
   Every leader had votes from more than half the voters, each cast when that
   voter's log was no fresher than the log the leader asked with. The log it won
   with extends that one, and equals it exactly when no rollback of the leader
   failed in that term.
   */
  lemma {:induction false} ElectionRestriction(s: Setup, cl: Cluster, evs: seq<Event>, w: Win) returns (asked: Log)
    requires Sensible(s) && Init(s, cl) && w in Run(s, cl, evs).h.wins
    ensures w.votes <= Ids(s.voters) && 2 * |w.votes| > |Ids(s.voters)|
    ensures forall x | x in w.votes :: FairBallot(Run(s, cl, evs).h, w, x, asked)
    ensures Extends(asked, w.log)
    ensures asked == w.log <==> (w.leader, w.term) !in Run(s, cl, evs).h.stuck
  {
    hide Run, Init, NodeOk, PacketOk, Stored, LastLogInfo, Cast, OneVote, RunsCast, NoFresherThan, Extends, FairBallot;
    RunInv(s, cl, evs);
    var h := Run(s, cl, evs).h;
    assert WinOk(s, w, h);
    var r :| r in h.runs && r.cand == w.leader && r.term == w.term
      && Extends(r.log, w.log) && (r.log == w.log <==> (w.leader, w.term) !in h.stuck);
    asked := r.log;
    forall x | x in w.votes ensures FairBallot(h, w, x, asked) { FairVote(s, h, w, x, r); }
  }

  lemma {:induction false} FairVote(s: Setup, h: History, w: Win, x: NodeId, r: Candidacy)
    requires HistoryOk(s, h) && Cast(h.ballots, x, w.term, w.leader)
    requires r in h.runs && r.cand == w.leader && r.term == w.term
    ensures FairBallot(h, w, x, r.log)
  {
  }
}
