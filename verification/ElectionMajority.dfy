/** Elections succeed: any majority that can be reached elects any candidate whose log is no older than theirs. */
module ElectionMajority {
  import opened Types
  import opened RaftSpec
  import opened ElectionRun
  import opened ElectionExact
  import opened ElectionExamples
  import Quorum

  /** A running node of the cluster. */
  ghost predicate Member(s: Setup, cl: Cluster, id: NodeId) {
    && Running(cl, id) && cl.procs[id].up.value.voters == s.voters && cl.procs[id].up.value.clusterId == s.clusterId
    && id in Ids(s.voters)
  }

  /** It has given no other vote in the term and its log is no fresher. */
  ghost predicate Willing(s: Setup, cl: Cluster, x: NodeId, a: NodeId, t: Term, last: Freshness) {
    && Member(s, cl, x)
    && var n := cl.procs[x].up.value;
       && n.term <= t && (n.term == t ==> n.votedFor.None? || n.votedFor == Some(a))
       && NoFresherThan(LastLogInfo(cl.procs[x].stores.log), last)
  }

  function RequestTo(s: Setup, x: NodeId, a: NodeId, t: Term, last: Freshness): Packet {
    Packet(x, Envelope(s.clusterId, 0, a, Request(VoteRequest(t, a, last.offset, last.term, false))))
  }

  function GrantFrom(s: Setup, x: NodeId, a: NodeId, t: Term): Packet {
    Packet(a, Envelope(s.clusterId, 0, x, Response(VoteResponse(t, true, false))))
  }

  /** The election so far: a candidate with exactly these votes, or a leader once they are a majority. */
  ghost predicate Polling(s: Setup, cl: Cluster, a: NodeId, t: Term, votes: set<NodeId>) {
    && Member(s, cl, a) && cl.procs[a].up.value.term == t
    && if IsMajority(votes, s.voters) then cl.procs[a].up.value.role.Leader?
       else cl.procs[a].up.value.role.Candidate? && cl.procs[a].up.value.votes == votes
  }

  /** Everyone still to be heard has been asked and is willing. */
  ghost predicate Pending(s: Setup, cl: Cluster, a: NodeId, t: Term, last: Freshness, rest: set<NodeId>) {
    forall x | x in rest :: x != a && Willing(s, cl, x, a, t, last) && RequestTo(s, x, a, t, last) in cl.net
  }

  // ---- One voter ----

  lemma {:induction false} AskedGrants(s: Setup, cl: Cluster, a: NodeId, x: NodeId, t: Term, last: Freshness)
    requires s.clusterId != NIL && x != a && a in Ids(s.voters) && Willing(s, cl, x, a, t, last)
    requires RequestTo(s, x, a, t, last) in cl.net
    ensures var now := Step(s, cl, Delivered(RequestTo(s, x, a, t, last), FINE));
      && now.procs.Keys == cl.procs.Keys && (forall y | y in cl.procs && y != x :: now.procs[y] == cl.procs[y])
      && cl.net <= now.net && GrantFrom(s, x, a, t) in now.net
  {
    hide Remember, OnVoteRequest, LastLogInfo, Ids;
    var p := cl.procs[x];
    var env := RequestTo(s, x, a, t, last).envelope;
    HearsExactly(s.codec, x, p.up.value, p.stores, env, FINE);
    VotesExactly(x, p.up.value, p.stores, env.payload.request, a, FINE);
  }

  lemma {:induction false} GrantCounts(s: Setup, cl: Cluster, a: NodeId, x: NodeId, t: Term, votes: set<NodeId>)
    requires s.clusterId != NIL && Polling(s, cl, a, t, votes) && x in Ids(s.voters) && GrantFrom(s, x, a, t) in cl.net
    ensures var now := Step(s, cl, Delivered(GrantFrom(s, x, a, t), FINE));
      && Polling(s, now, a, t, votes + {x})
      && now.procs.Keys == cl.procs.Keys && (forall y | y in cl.procs && y != a :: now.procs[y] == cl.procs[y])
      && cl.net <= now.net
  {
    hide Remember, OnVoteResponse, Ids, IsMajority, Leads;
    var p := cl.procs[a];
    var env := GrantFrom(s, x, a, t).envelope;
    HearsExactly(s.codec, a, p.up.value, p.stores, env, FINE);
    MoreVotes(votes, x, s.voters);
    if IsMajority(votes, s.voters) {
      IgnoresExactly(s.codec, a, p.up.value, p.stores, x, env.payload.response, FINE);
    } else {
      CountsExactly(s.codec, a, p.up.value, p.stores, x, env.payload.response, FINE);
      CountKeeps(s.codec, a, p.up.value, p.stores, x, env.payload.response);
    }
  }

  lemma {:induction false} CountKeeps(c: VotersCodec, id: NodeId, node: Node, stores: Stores, from: NodeId, resp: VoteResponse)
    ensures var e := OnVoteResponse(c, id, node, stores, from, resp, FINE);
      e.node.voters == node.voters && e.node.clusterId == node.clusterId && !e.outcome.Died?
  {
  }

  lemma {:induction false} MoreVotes(votes: set<NodeId>, x: NodeId, voters: seq<VoterInfo>)
    ensures IsMajority(votes, voters) ==> IsMajority(votes + {x}, voters)
  {
    Quorum.SubsetSize(votes, votes + {x});
  }

  // ---- All of them ----

  /** Hearing the rest one by one adds their votes. */
  lemma {:induction false} HearAll(s: Setup, cl: Cluster, evs: seq<Event>, a: NodeId, t: Term, last: Freshness, votes: set<NodeId>,
                    rest: set<NodeId>) returns (more: seq<Event>)
    requires s.clusterId != NIL
    requires Polling(s, Run(s, cl, evs), a, t, votes) && Pending(s, Run(s, cl, evs), a, t, last, rest)
    ensures Polling(s, Run(s, cl, more), a, t, votes + rest)
    decreases rest
  {
    hide Step, Run, Polling, Pending, Ids, Willing;
    if rest == {} {
      assert votes + rest == votes;
      return evs;
    }
    var x :| x in rest;
    var ask, grant := Delivered(RequestTo(s, x, a, t, last), FINE), Delivered(GrantFrom(s, x, a, t), FINE);
    RunAppend(s, cl, evs, ask);
    RunAppend(s, cl, evs + [ask], grant);
    HearOne(s, Run(s, cl, evs), a, x, t, last, votes, rest);
    assert votes + {x} + (rest - {x}) == votes + rest;
    more := HearAll(s, cl, evs + [ask] + [grant], a, t, last, votes + {x}, rest - {x});
  }

  lemma {:induction false} HearOne(s: Setup, cl: Cluster, a: NodeId, x: NodeId, t: Term, last: Freshness, votes: set<NodeId>, rest: set<NodeId>)
    requires s.clusterId != NIL && Polling(s, cl, a, t, votes) && Pending(s, cl, a, t, last, rest) && x in rest
    ensures var asked := Step(s, cl, Delivered(RequestTo(s, x, a, t, last), FINE));
      var now := Step(s, asked, Delivered(GrantFrom(s, x, a, t), FINE));
      Polling(s, now, a, t, votes + {x}) && Pending(s, now, a, t, last, rest - {x})
  {
    hide Step, Ids, IsMajority, LastLogInfo, RequestTo, GrantFrom;
    var asked := Step(s, cl, Delivered(RequestTo(s, x, a, t, last), FINE));
    AskedGrants(s, cl, a, x, t, last);
    assert Polling(s, asked, a, t, votes);
    GrantCounts(s, asked, a, x, t, votes);
  }

  /** It may stand: a running follower or candidate. */
  ghost predicate MayStand(s: Setup, cl: Cluster, a: NodeId) {
    Member(s, cl, a) && (cl.procs[a].up.value.role.Follower? || cl.procs[a].up.value.role.Candidate?)
  }

  lemma {:induction false} StandsAndAsks(s: Setup, cl: Cluster, a: NodeId, others: set<NodeId>)
    requires !Duplicates(s.voters) && MayStand(s, cl, a) && a !in others
    requires var t, last := cl.procs[a].up.value.term + 1, LastLogInfo(cl.procs[a].stores.log);
      forall x | x in others :: Willing(s, cl, x, a, t, last)
    ensures var now := Step(s, cl, TimedOut(a, FINE));
      var t, last := cl.procs[a].up.value.term + 1, LastLogInfo(cl.procs[a].stores.log);
      && Polling(s, now, a, t, {a})
      && (|s.voters| > 1 ==> Pending(s, now, a, t, last, others))
  {
    hide Remember, ElectionTimeout, LastLogInfo, Ids, Duplicates;
    var p := cl.procs[a];
    var t, last := p.up.value.term + 1, LastLogInfo(p.stores.log);
    StandsExactly(s.codec, a, p.up.value, p.stores, FINE);
    StandKeeps(s.codec, a, p.up.value, p.stores);
    forall x | x in others && |s.voters| > 1 ensures RequestTo(s, x, a, t, last) in Step(s, cl, TimedOut(a, FINE)).net {
      AsksExactly(s.codec, a, p.up.value, p.stores, FINE, RequestTo(s, x, a, t, last));
    }
    NotEmpty(s.voters, a);
  }

  lemma {:induction false} StandKeeps(c: VotersCodec, id: NodeId, node: Node, stores: Stores)
    ensures var e := ElectionTimeout(c, id, node, stores, FINE); e.node.clusterId == node.clusterId && !e.outcome.Died?
  {
  }

  lemma {:induction false} NotEmpty(voters: seq<VoterInfo>, x: NodeId)
    requires x in Ids(voters)
    ensures voters != []
  {
  }

  /**
   From any cluster, reachable or not: if more than half of the voters, among
   them a node that may stand, are running, have given no other vote in its next
   term and have logs no fresher than its own, then it can be elected in that term.
   */
  lemma {:induction false} MajorityElects(s: Setup, cl: Cluster, a: NodeId, majority: set<NodeId>) returns (evs: seq<Event>)
    requires Sensible(s) && MayStand(s, cl, a) && a in majority && IsMajority(majority, s.voters)
    requires var t, last := cl.procs[a].up.value.term + 1, LastLogInfo(cl.procs[a].stores.log);
      forall x | x in majority && x != a :: Willing(s, cl, x, a, t, last)
    ensures var now := Run(s, cl, evs);
      && Running(now, a) && now.procs[a].up.value.role.Leader?
      && now.procs[a].up.value.term == cl.procs[a].up.value.term + 1
  {
    hide Step, Ids, LastLogInfo, Willing, Duplicates;
    var t, last := cl.procs[a].up.value.term + 1, LastLogInfo(cl.procs[a].stores.log);
    var ev := TimedOut(a, FINE);
    assert [] + [ev] == [ev] && Run(s, cl, []) == cl;
    RunAppend(s, cl, [], ev);
    StandsAndAsks(s, cl, a, majority - {a});
    assert {a} + (majority - {a}) == majority;
    if |s.voters| > 1 {
      evs := HearAll(s, cl, [ev], a, t, last, {a}, majority - {a});
    } else {
      evs := [ev];
    }
  }

  // ---- A new cluster ----

  /** These nodes are freshly bootstrapped and the others as they were. */
  ghost predicate Booted(s: Setup, cl: Cluster, now: Cluster, some: set<NodeId>) {
    && now.procs.Keys == cl.procs.Keys
    && (forall x | x in some :: x in now.procs && now.procs[x] == Proc(Some(Ready(s)), EMPTY))
    && (forall x | x in cl.procs && x !in some :: now.procs[x] == cl.procs[x])
  }

  lemma {:induction false} BootAll(s: Setup, cl: Cluster, some: set<NodeId>) returns (evs: seq<Event>)
    requires Sensible(s) && some <= Ids(s.voters)
    requires forall x | x in some :: x in cl.procs && cl.procs[x] == Proc(None, EMPTY)
    ensures Booted(s, cl, Run(s, cl, evs), some)
    decreases some
  {
    hide Step, Ids, Duplicates;
    if some == {} {
      evs := [];
      assert Run(s, cl, evs) == cl;
      return;
    }
    var x :| x in some;
    var before := BootAll(s, cl, some - {x});
    var mid := Run(s, cl, before);
    RunAppend(s, cl, before, Restarted(x));
    RunAppend(s, cl, before + [Restarted(x)], Bootstrapped(x));
    Boots(s, mid, x);
    evs := before + [Restarted(x)] + [Bootstrapped(x)];
  }

  /** In a new cluster of any size, any majority that comes up can elect any of its members in term 1. */
  lemma {:induction false} NewClusterElects(s: Setup, cl: Cluster, a: NodeId, majority: set<NodeId>) returns (evs: seq<Event>)
    requires Sensible(s) && Init(s, cl) && a in majority && majority <= Ids(s.voters) && 2 * |majority| > |s.voters|
    requires forall x | x in majority :: x in cl.procs && cl.procs[x].stores.snapshot.None?
    ensures var now := Run(s, cl, evs);
      Running(now, a) && now.procs[a].up.value.role.Leader? && now.procs[a].up.value.term == 1
  {
    hide Step, Ids, Duplicates, Run;
    var boot := BootAll(s, cl, majority);
    var up := Run(s, cl, boot);
    NotEmpty(s.voters, a);
    var t, last := 1, LastLogInfo(EMPTY.log);
    forall x | x in majority ensures Member(s, up, x) && Willing(s, up, x, a, t, last) {}
    var more := MajorityElects(s, up, a, majority);
    RunConcat(s, cl, boot, more);
    evs := boot + more;
  }

  lemma {:induction false} RunConcat(s: Setup, cl: Cluster, a: seq<Event>, b: seq<Event>)
    ensures Run(s, cl, a + b) == Run(s, Run(s, cl, a), b)
    decreases |b|
  {
    hide Step;
    if b == [] {
      assert a + b == a;
    } else {
      assert (a + b)[..|a + b| - 1] == a + b[..|b| - 1];
      RunConcat(s, cl, a, b[..|b| - 1]);
    }
  }

  /** Two of three voters are enough, whichever two. */
  lemma {:induction false} TwoOfThree(s: Setup, cl: Cluster, a: NodeId, b: NodeId) returns (evs: seq<Event>)
    requires Sensible(s) && Init(s, cl) && |s.voters| == 3 && a in Ids(s.voters) && b in Ids(s.voters) && a != b
    requires a in cl.procs && b in cl.procs && cl.procs[a].stores.snapshot.None? && cl.procs[b].stores.snapshot.None?
    ensures var now := Run(s, cl, evs);
      Running(now, a) && now.procs[a].up.value.role.Leader? && now.procs[a].up.value.term == 1
  {
    hide Run, Init, Ids, Duplicates;
    assert |{a, b}| == 2;
    evs := NewClusterElects(s, cl, a, {a, b});
  }
}
