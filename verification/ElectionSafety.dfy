/** Every step of the cluster keeps the invariant of elections. */
module ElectionSafety {
  import opened Types
  import opened LogSpec
  import opened RaftSpec
  import opened ElectionRun

  // ---- History only grows ----

  ghost predicate Grows(h: History, g: History) {
    h.ballots <= g.ballots && h.runs <= g.runs && h.wins <= g.wins && h.stuck <= g.stuck
  }

  lemma {:induction false} CastGrows(a: set<Ballot>, b: set<Ballot>, voter: NodeId, term: Term, cand: NodeId)
    requires Cast(a, voter, term, cand) && a <= b
    ensures Cast(b, voter, term, cand)
  {
  }

  lemma {:induction false} RanGrows(a: set<Candidacy>, b: set<Candidacy>, cand: NodeId, term: Term, last: Freshness)
    requires Ran(a, cand, term, last) && a <= b
    ensures Ran(b, cand, term, last)
  {
  }

  lemma {:induction false} PacketGrows(p: Packet, h: History, g: History)
    requires PacketOk(p, h) && Grows(h, g)
    ensures PacketOk(p, g)
  {
  }

  lemma {:induction false} WinGrows(s: Setup, w: Win, h: History, g: History)
    requires WinOk(s, w, h) && Grows(h, g) && ((w.leader, w.term) in g.stuck ==> (w.leader, w.term) in h.stuck)
    ensures WinOk(s, w, g)
  {
  }

  /** A node that did not move keeps its part of the invariant. */
  lemma {:induction false} OtherNodeKept(s: Setup, id: NodeId, p: Proc, h: History, g: History, mover: NodeId)
    requires NodeOk(s, id, p, h) && Grows(h, g) && id != mover
    requires forall r | r in g.runs && r !in h.runs :: r.cand == mover
    requires forall w | w in g.wins && w !in h.wins :: w.leader == mover
    requires forall x | x in g.stuck && x !in h.stuck :: x.0 == mover
    ensures NodeOk(s, id, p, g)
  {
  }

  // ---- What one handler must give ----

  /** The part of the invariant a moving node is responsible for. */
  ghost predicate MoveOk(s: Setup, h: History, id: NodeId, p: Proc, e: Effect, candLast: Freshness, standing: bool) {
    var g := Remember(h, id, p, e, candLast, standing);
    && NodeOk(s, id, Proc(if e.outcome.Died? then None else Some(e.node), e.stores), g)
    && Forward(p.stores.quorum, e.stores.quorum)
    && (forall q | q in e.sent :: PacketOk(q, g))
    && (forall b | b in NewBallots(id, p.stores, e.stores, candLast) :: BallotOk(b, g.runs))
    && (forall r | r in NewRuns(id, p.stores, e.stores, standing) ::
          Cast(g.ballots, r.cand, r.term, r.cand) && forall x | x in h.runs :: !(x.cand == id && x.term == r.term))
    && (forall w | w in NewWins(id, p, e) :: WinOk(s, w, g))
    && (forall x | x in NewlyStuck(id, p.stores, e) :: Tried(g.runs, x.0, x.1) && !Won(h.wins, x.0, x.1))
  }

  lemma {:induction false} NewVoteAgrees(
    procs: map<NodeId, Proc>, ballots: set<Ballot>, id: NodeId, after: Stores, candLast: Freshness)
    requires id in procs && Stored(procs, ballots) && OneVote(ballots)
    requires Forward(procs[id].stores.quorum, after.quorum)
    ensures OneVote(ballots + NewBallots(id, procs[id].stores, after, candLast))
    ensures forall up :: Stored(procs[id := Proc(up, after)], ballots + NewBallots(id, procs[id].stores, after, candLast))
  {
  }

  lemma {:induction false} HistoryKept(s: Setup, cl: Cluster, id: NodeId, e: Effect, candLast: Freshness, standing: bool)
    requires id in cl.procs && Inv(s, cl) && MoveOk(s, cl.h, id, cl.procs[id], e, candLast, standing)
    ensures HistoryOk(s, Remember(cl.h, id, cl.procs[id], e, candLast, standing))
  {
    hide NodeOk, PacketOk, Cast, Ran, WinOk, Stored, NewBallots, NewWins, OneVote, Forward, LastLogInfo, NoFresherThan,
      Tried, Won, NewlyStuck;
    var h, p := cl.h, cl.procs[id];
    var g := Remember(h, id, p, e, candLast, standing);
    NewVoteAgrees(cl.procs, h.ballots, id, e.stores, candLast);
    forall b | b in g.ballots ensures BallotOk(b, g.runs) {
      if b in h.ballots { RanGrows(h.runs, g.runs, b.cand, b.term, b.candLast); }
    }
    forall r | r in g.runs ensures Cast(g.ballots, r.cand, r.term, r.cand) {
      if r in h.runs { CastGrows(h.ballots, g.ballots, r.cand, r.term, r.cand); }
    }
    forall w | w in g.wins ensures WinOk(s, w, g) {
      if w in h.wins {
        NotNewlyStuck(h.wins, w, NewlyStuck(id, p.stores, e));
        WinGrows(s, w, h, g);
      }
    }
    forall x | x in g.stuck ensures Tried(g.runs, x.0, x.1) {
      if x in h.stuck { TriedGrows(h.runs, g.runs, x.0, x.1); }
    }
  }

  lemma {:induction false} NotNewlyStuck(wins: set<Win>, w: Win, newly: set<(NodeId, Term)>)
    requires w in wins && forall x | x in newly :: !Won(wins, x.0, x.1)
    ensures (w.leader, w.term) !in newly
  {
  }

  lemma {:induction false} TriedGrows(a: set<Candidacy>, b: set<Candidacy>, id: NodeId, term: Term)
    requires Tried(a, id, term) && a <= b
    ensures Tried(b, id, term)
  {
  }

  lemma {:induction false} MovedKeeps(s: Setup, cl: Cluster, id: NodeId, e: Effect, candLast: Freshness, standing: bool)
    requires id in cl.procs && Inv(s, cl) && MoveOk(s, cl.h, id, cl.procs[id], e, candLast, standing)
    ensures Inv(s, Moved(cl, id, e, candLast, standing))
  {
    hide NodeOk, PacketOk, Cast, Ran, WinOk, Stored, HistoryOk, NewBallots, NewWins, OneVote, Forward, LastLogInfo;
    var h, p := cl.h, cl.procs[id];
    var g := Remember(h, id, p, e, candLast, standing);
    var next := Moved(cl, id, e, candLast, standing);
    HistoryKept(s, cl, id, e, candLast, standing);
    assert OneVote(h.ballots) by { OneVoteOf(s, h); }
    NewVoteAgrees(cl.procs, h.ballots, id, e.stores, candLast);
    assert forall w | w in g.wins && w !in h.wins :: w.leader == id by { OwnWins(id, p, e); }
    forall j | j in next.procs ensures NodeOk(s, j, next.procs[j], g) {
      if j != id { OtherNodeKept(s, j, cl.procs[j], h, g, id); }
    }
    forall q | q in next.net ensures PacketOk(q, g) {
      if q in cl.net { PacketGrows(q, h, g); }
    }
  }

  lemma {:induction false} OwnWins(id: NodeId, p: Proc, e: Effect)
    ensures forall w | w in NewWins(id, p, e) :: w.leader == id
  {
  }

  lemma {:induction false} OneVoteOf(s: Setup, h: History)
    requires HistoryOk(s, h)
    ensures OneVote(h.ballots)
  {
  }
}
