/** Runs that happen: an election won, and a leader change written twice after a failed rollback. */
module ElectionExamples {
  import opened Types
  import opened LogSpec
  import opened RaftSpec
  import opened ElectionRun
  import opened ElectionShapes

  const EMPTY: Stores := Stores(Log(0, []), None, None)

  /** Every storage call succeeds. */
  const FINE: Storage := Storage(Saved, Saved, Appends(true, Appended, true), true)

  /** The voters record is refused and the leader change cannot be taken back. */
  const JAMMED: Storage := Storage(Saved, Saved, Appends(true, Refused, false), true)

  /** A freshly bootstrapped node. */
  function Ready(s: Setup): Node {
    FRESH.(clusterId := s.clusterId, voters := s.voters, role := Follower, bootstrapped := true)
  }

  function Voted(s: Setup, term: Term, cand: NodeId): Stores {
    EMPTY.(quorum := Some(QuorumState(term, Some(cand), None, 0, s.clusterId)))
  }

  lemma {:induction false} RunAppend(s: Setup, cl: Cluster, evs: seq<Event>, ev: Event)
    ensures Run(s, cl, evs + [ev]) == Step(s, Run(s, cl, evs), ev)
  {
    assert (evs + [ev])[..|evs|] == evs;
  }

  lemma {:induction false} Boots(s: Setup, cl: Cluster, id: NodeId)
    requires Sensible(s) && id in Ids(s.voters) && id in cl.procs && cl.procs[id] == Proc(None, EMPTY)
    ensures var two := Step(s, Step(s, cl, Restarted(id)), Bootstrapped(id));
      two.procs == cl.procs[id := Proc(Some(Ready(s)), EMPTY)]
  {
    hide Remember, SentSet, Duplicates, Ids;
    var one := Step(s, cl, Restarted(id));
    assert one.procs[id] == Proc(Some(FRESH), EMPTY);
    assert CanBootstrap(id, FRESH, EMPTY, s.clusterId, s.voters);
  }

  // ---- One voter ----

  /** Elections can be won: a sole voter that starts, is bootstrapped and times out leads term 1. */
  lemma {:induction false} SoleVoterLeads(s: Setup, cl: Cluster, id: NodeId) returns (evs: seq<Event>)
    requires Sensible(s) && Init(s, cl) && |s.voters| == 1 && s.voters[0].nodeId == id
    requires id in cl.procs && cl.procs[id].stores.snapshot.None?
    ensures var now := Run(s, cl, evs);
      && Running(now, id) && now.procs[id].up.value.role.Leader? && now.procs[id].up.value.term == 1
      && now.procs[id].stores.log.entries
         == [LogEntry(0, 1, LeaderChangeMessage, []), LogEntry(1, 1, VotersRecord, s.codec.encode(s.voters))]
      && now.procs[id].up.value.highWatermark == 2
  {
    hide Step, Ids, Duplicates;
    evs := [Restarted(id)] + [Bootstrapped(id)] + [TimedOut(id, FINE)];
    assert [] + [Restarted(id)] == [Restarted(id)] && Run(s, cl, []) == cl;
    RunAppend(s, cl, [], Restarted(id));
    RunAppend(s, cl, [Restarted(id)], Bootstrapped(id));
    RunAppend(s, cl, [Restarted(id)] + [Bootstrapped(id)], TimedOut(id, FINE));
    assert id in Ids(s.voters) by { Named(s.voters, 0); }
    Boots(s, cl, id);
    SoleTimeout(s, Run(s, cl, [Restarted(id)] + [Bootstrapped(id)]), id);
  }

  lemma {:induction false} Named(voters: seq<VoterInfo>, i: nat)
    requires i < |voters|
    ensures voters[i].nodeId in Ids(voters)
  {
  }

  lemma {:induction false} SoleTimeout(s: Setup, two: Cluster, id: NodeId)
    requires |s.voters| == 1 && id in two.procs && two.procs[id] == Proc(Some(Ready(s)), EMPTY)
    ensures var now := Step(s, two, TimedOut(id, FINE));
      && Running(now, id) && now.procs[id].up.value.role.Leader? && now.procs[id].up.value.term == 1
      && now.procs[id].stores.log.entries
         == [LogEntry(0, 1, LeaderChangeMessage, []), LogEntry(1, 1, VotersRecord, s.codec.encode(s.voters))]
      && now.procs[id].up.value.highWatermark == 2
  {
    hide Remember, SentSet, Requests;
  }

  // ---- Two voters ----

  /** The request node a sends to node b in term 1. */
  function Request1(s: Setup, a: NodeId, b: NodeId): Packet {
    Packet(b, Envelope(s.clusterId, 0, a, Request(VoteRequest(1, a, 0, 0, false))))
  }

  /** The vote node b gives node a in term 1. */
  function Grant1(s: Setup, a: NodeId, b: NodeId): Packet {
    Packet(a, Envelope(s.clusterId, 0, b, Response(VoteResponse(1, true, false))))
  }

  ghost predicate Pair(s: Setup, a: NodeId, b: NodeId) {
    Sensible(s) && |s.voters| == 2 && s.voters[0].nodeId == a && s.voters[1].nodeId == b && a != b
  }

  lemma {:induction false} Stands(s: Setup, cl: Cluster, a: NodeId, b: NodeId)
    requires Pair(s, a, b) && a in cl.procs && b in cl.procs && cl.procs[a] == Proc(Some(Ready(s)), EMPTY)
    ensures var now := Step(s, cl, TimedOut(a, FINE));
      && now.procs == cl.procs[a := Proc(Some(Stand(a, Ready(s))), Voted(s, 1, a))]
      && Request1(s, a, b) in now.net
  {
    hide Remember;
    var stood := Stand(a, Ready(s));
    var to := s.voters;
    assert to[..1][..0] == [] && to[..1][0] == to[0];
    assert Requests(a, stood, EMPTY.log, to[..1]) == [];
    assert Requests(a, stood, EMPTY.log, to) == [Request1(s, a, b)];
  }

  lemma {:induction false} Grants1(s: Setup, cl: Cluster, a: NodeId, b: NodeId)
    requires Pair(s, a, b) && a in cl.procs && b in cl.procs && cl.procs[b] == Proc(Some(Ready(s)), EMPTY)
    requires Request1(s, a, b) in cl.net
    ensures var now := Step(s, cl, Delivered(Request1(s, a, b), FINE));
      now.procs.Keys == cl.procs.Keys && now.procs[a] == cl.procs[a] && Grant1(s, a, b) in now.net
  {
    hide Remember, Ids, Duplicates;
    Named(s.voters, 0);
    var p := cl.procs[b];
    var e := OnRpc(s.codec, b, p.up.value, p.stores, Request1(s, a, b).envelope, FINE);
    assert e.sent == [Grant1(s, a, b)];
  }

  function JammedStores(s: Setup, a: NodeId): Stores {
    Voted(s, 1, a).(log := Log(0, [LogEntry(0, 1, LeaderChangeMessage, [])]))
  }

  lemma {:induction false} JamEffect(s: Setup, a: NodeId, b: NodeId)
    requires Pair(s, a, b)
    ensures OnRpc(s.codec, a, Stand(a, Ready(s)), Voted(s, 1, a), Grant1(s, a, b).envelope, JAMMED)
      == Effect(Stand(a, Ready(s)).(votes := {a, b}), JammedStores(s, a), [], Failed)
  {
    hide Ids, Duplicates;
    Named(s.voters, 1);
    assert {a} + {b} == {a, b} && |{a, b}| == 2;
  }

  lemma {:induction false} RepeatEffect(s: Setup, a: NodeId, b: NodeId)
    requires Pair(s, a, b)
    ensures var node := Stand(a, Ready(s)).(votes := {a, b});
      var e := OnRpc(s.codec, a, node, JammedStores(s, a), Grant1(s, a, b).envelope, FINE);
      && e.outcome.Done? && e.node.role.Leader? && e.node.term == 1
      && e.stores.log != JammedStores(s, a).log && !WellShaped(e.stores.log)
  {
    hide Ids, Duplicates, WellShaped;
    Named(s.voters, 1);
    assert {a, b} + {b} == {a, b} && |{a, b}| == 2;
    var node := Stand(a, Ready(s)).(votes := {a, b});
    var log := JammedStores(s, a).log;
    ChangeAt(log, 0);
    WinLogs(s.codec, a, node, JammedStores(s, a), FINE.appends);
    Repeated(log, node, WonLog(s.codec, node, log));
  }

  /** The vote wins, but the voters record is refused and the leader change stays. */
  lemma {:induction false} Jams(s: Setup, cl: Cluster, a: NodeId, b: NodeId)
    requires Pair(s, a, b) && a in cl.procs && cl.procs[a] == Proc(Some(Stand(a, Ready(s))), Voted(s, 1, a))
    requires Grant1(s, a, b) in cl.net
    ensures var now := Step(s, cl, Delivered(Grant1(s, a, b), JAMMED));
      && a in now.procs && now.procs[a].up == Some(Stand(a, Ready(s)).(votes := {a, b}))
      && now.procs[a].stores == JammedStores(s, a)
      && (a, 1) in now.h.stuck && Grant1(s, a, b) in now.net
  {
    hide NewBallots, NewRuns, NewWins, SentSet, OnRpc, Pair;
    JamEffect(s, a, b);
    assert JammedStores(s, a).log != Voted(s, 1, a).log;
  }

  /** The same vote again wins once more in the term. */
  lemma {:induction false} Repeats(s: Setup, cl: Cluster, a: NodeId, b: NodeId)
    requires Pair(s, a, b) && a in cl.procs && cl.procs[a].up == Some(Stand(a, Ready(s)).(votes := {a, b}))
    requires cl.procs[a].stores == JammedStores(s, a)
    requires (a, 1) in cl.h.stuck && Grant1(s, a, b) in cl.net
    ensures var now := Step(s, cl, Delivered(Grant1(s, a, b), FINE));
      && Running(now, a) && now.procs[a].up.value.role.Leader? && a in now.h.doubled
      && !WellShaped(now.procs[a].stores.log)
  {
    hide NewBallots, NewRuns, NewWins, SentSet, OnRpc, Pair, WellShaped, JammedStores;
    RepeatEffect(s, a, b);
  }

  /**
   The log shape is lost in a run: two voters, one election, a refused voters
   record whose rollback fails, and the same granted vote delivered twice.
   */
  lemma {:induction false} SecondLeaderChange(s: Setup, cl: Cluster, a: NodeId, b: NodeId) returns (evs: seq<Event>)
    requires Pair(s, a, b) && Init(s, cl) && a in cl.procs && b in cl.procs
    requires cl.procs[a].stores.snapshot.None? && cl.procs[b].stores.snapshot.None?
    ensures var now := Run(s, cl, evs);
      && Running(now, a) && now.procs[a].up.value.role.Leader?
      && !WellShaped(now.procs[a].stores.log) && a in now.h.doubled
  {
    hide Step, WellShaped, Ids, Duplicates;
    Named(s.voters, 0);
    Named(s.voters, 1);
    var c0 := cl;
    var c1 := Step(s, c0, Restarted(a));
    var c2 := Step(s, c1, Bootstrapped(a));
    Boots(s, c0, a);
    var c3 := Step(s, c2, Restarted(b));
    var c4 := Step(s, c3, Bootstrapped(b));
    Boots(s, c2, b);
    var c5 := Step(s, c4, TimedOut(a, FINE));
    Stands(s, c4, a, b);
    var c6 := Step(s, c5, Delivered(Request1(s, a, b), FINE));
    Grants1(s, c5, a, b);
    var c7 := Step(s, c6, Delivered(Grant1(s, a, b), JAMMED));
    Jams(s, c6, a, b);
    var c8 := Step(s, c7, Delivered(Grant1(s, a, b), FINE));
    Repeats(s, c7, a, b);
    evs := Eight(s, cl, Restarted(a), Bootstrapped(a), Restarted(b), Bootstrapped(b), TimedOut(a, FINE),
                 Delivered(Request1(s, a, b), FINE), Delivered(Grant1(s, a, b), JAMMED), Delivered(Grant1(s, a, b), FINE));
  }

  lemma {:induction false} Eight(s: Setup, cl: Cluster, a: Event, b: Event, c: Event, d: Event, e: Event, f: Event, g: Event, h: Event)
    returns (evs: seq<Event>)
    ensures Run(s, cl, evs) == Step(s, Step(s, Step(s, Step(s, Step(s, Step(s, Step(s, Step(s, cl, a), b), c), d), e), f), g), h)
  {
    hide Step;
    var e0: seq<Event> := [];
    assert Run(s, cl, e0) == cl;
    hide Run;
    var e1 := e0 + [a]; RunAppend(s, cl, e0, a);
    var e2 := e1 + [b]; RunAppend(s, cl, e1, b);
    var e3 := e2 + [c]; RunAppend(s, cl, e2, c);
    var e4 := e3 + [d]; RunAppend(s, cl, e3, d);
    var e5 := e4 + [e]; RunAppend(s, cl, e4, e);
    var e6 := e5 + [f]; RunAppend(s, cl, e5, f);
    var e7 := e6 + [g]; RunAppend(s, cl, e6, g);
    evs := e7 + [h]; RunAppend(s, cl, e7, h);
  }
}
