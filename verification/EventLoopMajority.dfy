/** Elections in the event loop succeed: any majority that can be reached elects a candidate whose log is no older. */
module EventLoopMajority {
  import opened Types
  import opened EventLoopSpec
  import opened EventLoopRun
  import opened EventLoopExact
  import Quorum

  /** A node of the cluster. */
  ghost predicate Member(voters: seq<VoterInfo>, clusterId: nat, cl: Cluster, id: NodeId) {
    && id in cl.machines && cl.machines[id].state.voters == voters && cl.machines[id].state.clusterId == clusterId
    && id in Ids(voters)
  }

  function RequestTo(clusterId: nat, x: NodeId, req: VoteRequest): Packet {
    Packet(x, Envelope(clusterId, 0, req.candidateId, VoteRequested(req)))
  }

  function GrantFrom(clusterId: nat, x: NodeId, req: VoteRequest): Packet {
    Packet(req.candidateId, Envelope(clusterId, 0, x, VoteAnswered(VoteResponse(req.term, true, false))))
  }

  /** The election so far: a candidate with exactly these votes, or a leader once they are more than half. */
  ghost predicate Polling(voters: seq<VoterInfo>, clusterId: nat, cl: Cluster, a: NodeId, term: Term, votes: set<NodeId>) {
    && Member(voters, clusterId, cl, a) && cl.machines[a].state.term == term
    && if 2 * |votes| > |voters| then cl.machines[a].state.role.Leader?
       else cl.machines[a].state.role.Candidate? && cl.machines[a].state.votes == votes
  }

  ghost predicate Pending(voters: seq<VoterInfo>, clusterId: nat, cl: Cluster, req: VoteRequest, rest: set<NodeId>) {
    forall x | x in rest ::
      && x != req.candidateId && Member(voters, clusterId, cl, x) && Deserves(cl.machines[x].state, req)
      && RequestTo(clusterId, x, req) in cl.net
  }

  lemma {:induction false} RunAppend(cl: Cluster, evs: seq<Event>, ev: Event)
    ensures Run(cl, evs + [ev]) == Step(Run(cl, evs), ev)
  {
    assert (evs + [ev])[..|evs|] == evs;
  }

  lemma {:induction false} AskedGrants(voters: seq<VoterInfo>, clusterId: nat, cl: Cluster, x: NodeId, req: VoteRequest)
    requires Member(voters, clusterId, cl, x) && Deserves(cl.machines[x].state, req) && !req.isPreVote
    requires RequestTo(clusterId, x, req) in cl.net
    ensures var now := Step(cl, Delivered(RequestTo(clusterId, x, req)));
      && now.machines.Keys == cl.machines.Keys && (forall y | y in cl.machines && y != x :: now.machines[y] == cl.machines[y])
      && cl.net <= now.net && GrantFrom(clusterId, x, req) in now.net
  {
    hide OnRpc, Execute, Sends, Ids, NoOlder;
    var m := cl.machines[x];
    VotesExactly(x, m.state, m.stores, RequestTo(clusterId, x, req).envelope);
  }

  lemma {:induction false} GrantCounts(voters: seq<VoterInfo>, clusterId: nat, cl: Cluster, x: NodeId, req: VoteRequest, votes: set<NodeId>)
    requires Polling(voters, clusterId, cl, req.candidateId, req.term, votes) && x in Ids(voters)
    requires GrantFrom(clusterId, x, req) in cl.net
    ensures var now := Step(cl, Delivered(GrantFrom(clusterId, x, req)));
      && Polling(voters, clusterId, now, req.candidateId, req.term, votes + {x})
      && now.machines.Keys == cl.machines.Keys
      && (forall y | y in cl.machines && y != req.candidateId :: now.machines[y] == cl.machines[y])
      && cl.net <= now.net
  {
    hide OnRpc, Execute, Sends, Ids;
    var m := cl.machines[req.candidateId];
    var env := GrantFrom(clusterId, x, req).envelope;
    Quorum.SubsetSize(votes, votes + {x});
    if 2 * |votes| > |voters| {
      AnswersIgnored(req.candidateId, m.state, m.stores, env);
    } else {
      CountsExactly(req.candidateId, m.state, m.stores, env);
    }
  }

  lemma {:induction false} HearOne(voters: seq<VoterInfo>, clusterId: nat, cl: Cluster, x: NodeId, req: VoteRequest, votes: set<NodeId>,
                    rest: set<NodeId>)
    requires !req.isPreVote && x in rest
    requires Polling(voters, clusterId, cl, req.candidateId, req.term, votes) && Pending(voters, clusterId, cl, req, rest)
    ensures var asked := Step(cl, Delivered(RequestTo(clusterId, x, req)));
      var now := Step(asked, Delivered(GrantFrom(clusterId, x, req)));
      && Polling(voters, clusterId, now, req.candidateId, req.term, votes + {x})
      && Pending(voters, clusterId, now, req, rest - {x})
  {
    hide Step, Ids, Deserves, RequestTo, GrantFrom;
    var asked := Step(cl, Delivered(RequestTo(clusterId, x, req)));
    AskedGrants(voters, clusterId, cl, x, req);
    assert Polling(voters, clusterId, asked, req.candidateId, req.term, votes);
    GrantCounts(voters, clusterId, asked, x, req, votes);
  }

  lemma {:induction false} HearAll(voters: seq<VoterInfo>, clusterId: nat, cl: Cluster, evs: seq<Event>, req: VoteRequest,
                    votes: set<NodeId>, rest: set<NodeId>) returns (more: seq<Event>)
    requires !req.isPreVote && Polling(voters, clusterId, Run(cl, evs), req.candidateId, req.term, votes)
    requires Pending(voters, clusterId, Run(cl, evs), req, rest)
    ensures Polling(voters, clusterId, Run(cl, more), req.candidateId, req.term, votes + rest)
    decreases rest
  {
    hide Step, Run, Polling, Pending, Ids;
    if rest == {} {
      assert votes + rest == votes;
      return evs;
    }
    var x :| x in rest;
    var ask, grant := Delivered(RequestTo(clusterId, x, req)), Delivered(GrantFrom(clusterId, x, req));
    RunAppend(cl, evs, ask);
    RunAppend(cl, evs + [ask], grant);
    HearOne(voters, clusterId, Run(cl, evs), x, req, votes, rest);
    assert votes + {x} + (rest - {x}) == votes + rest;
    more := HearAll(voters, clusterId, cl, evs + [ask] + [grant], req, votes + {x}, rest - {x});
  }

  /** The request a node sends when it stands next. */
  function NextRequest(id: NodeId, st: State): VoteRequest {
    VoteRequest(st.term + 1, id, if st.logEnd == 0 then 0 else st.logEnd - 1, st.lastLogTerm, false)
  }

  lemma {:induction false} StandsAndAsks(voters: seq<VoterInfo>, clusterId: nat, cl: Cluster, a: NodeId, others: set<NodeId>)
    requires Member(voters, clusterId, cl, a) && a !in others
    requires forall x | x in others :: Member(voters, clusterId, cl, x) && Deserves(cl.machines[x].state, NextRequest(a, cl.machines[a].state))
    ensures var now, req := Step(cl, TimedOut(a)), NextRequest(a, cl.machines[a].state);
      Polling(voters, clusterId, now, a, req.term, {a}) && Pending(voters, clusterId, now, req, others)
  {
    hide OnElectionTimeout, Execute, Sends, Ids, Deserves;
    var m := cl.machines[a];
    var req := NextRequest(a, m.state);
    SomeVoter(voters, a);
    StandsExactly(a, m.state, m.stores);
    forall x | x in others ensures RequestTo(clusterId, x, req) in Step(cl, TimedOut(a)).net {
      AsksExactly(a, m.state, RequestTo(clusterId, x, req));
    }
  }

  lemma {:induction false} SomeVoter(voters: seq<VoterInfo>, x: NodeId)
    requires x in Ids(voters)
    ensures voters != []
  {
  }

  /**
   From any cluster: a voter that more than half of the voters would vote for in
   its next term, itself counted, can be elected in that term.
   */
  lemma {:induction false} MajorityElects(voters: seq<VoterInfo>, clusterId: nat, cl: Cluster, a: NodeId, majority: set<NodeId>)
    returns (evs: seq<Event>)
    requires a in majority && 2 * |majority| > |voters| && majority <= cl.machines.Keys
    requires forall x | x in majority :: Member(voters, clusterId, cl, x)
    requires forall x | x in majority && x != a :: Deserves(cl.machines[x].state, NextRequest(a, cl.machines[a].state))
    ensures var now := Run(cl, evs);
      && a in now.machines && now.machines[a].state.role.Leader?
      && now.machines[a].state.term == cl.machines[a].state.term + 1
  {
    hide Step, Ids, Deserves;
    var req, ev := NextRequest(a, cl.machines[a].state), TimedOut(a);
    assert [] + [ev] == [ev] && Run(cl, []) == cl;
    RunAppend(cl, [], ev);
    StandsAndAsks(voters, clusterId, cl, a, majority - {a});
    assert {a} + (majority - {a}) == majority;
    evs := HearAll(voters, clusterId, cl, [ev], req, {a}, majority - {a});
  }
}
