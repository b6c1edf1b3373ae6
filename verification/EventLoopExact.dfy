/**
 What the event loop decides in an election, exactly and for every state and
 message, on the state, the stores and the packets afterwards.
 */
module EventLoopExact {
  import opened Types
  import opened LogSpec
  import opened EventLoopSpec
  import opened EventLoopRun
  import ElectionExact

  /** A follower of a term that knows no leader and counts no votes; everything else as it was. */
  ghost predicate Resigned(was: State, term: Term, votedFor: Option<NodeId>, st: State) {
    && st.term == term && st.votedFor == votedFor && st.role == Role.Follower && st.leaderId == None && st.votes == {}
    && st == was.(term := st.term, votedFor := st.votedFor, role := st.role, leaderId := st.leaderId, votes := st.votes)
  }

  // ---- Check quorum ----

  /**
   A failed check ends the leadership in the same term with the vote kept, on
   disk too, and tells nobody; a passed one does nothing.
   */
  lemma {:induction false} CheckExactly(st: State, s: Stores, passed: bool)
    ensures var r := OnCheckQuorum(st, passed);
      && Sends(r.batch) == []
      && (passed ==> r.state == st && Execute(s, r.batch) == s)
      && (!passed ==>
            && Resigned(st, st.term, st.votedFor, r.state)
            && Execute(s, r.batch) == Stores(Some(QuorumRecord(st.term, st.votedFor, None, 0)), s.log))
  {
    var r := OnCheckQuorum(st, passed);
    if !passed {
      assert r.batch == [r.batch[0]];
      ExecuteOne(s, r.batch[0]);
    }
  }

  /** Whatever happened before, a node whose check has just failed is no leader, and only that has changed. */
  lemma {:induction false} CheckStepsDown(cl: Cluster, evs: seq<Event>, id: NodeId)
    requires id in cl.machines
    ensures var was, now := Run(cl, evs), Run(cl, evs + [CheckedQuorum(id, false)]);
      && id in was.machines && id in now.machines
      && Resigned(was.machines[id].state, was.machines[id].state.term, was.machines[id].state.votedFor, now.machines[id].state)
      && now.net == was.net && now.wins == was.wins
      && forall x | x in was.machines && x != id :: x in now.machines && now.machines[x] == was.machines[x]
  {
    hide Execute, OnCheckQuorum, Sends;
    assert (evs + [CheckedQuorum(id, false)])[..|evs|] == evs;
    SameMachines(cl, evs);
    var was := Run(cl, evs);
    CheckExactly(was.machines[id].state, was.machines[id].stores, false);
  }

  lemma {:induction false} SameMachines(cl: Cluster, evs: seq<Event>)
    ensures Run(cl, evs).machines.Keys == cl.machines.Keys
    decreases |evs|
  {
    hide OnRpc, OnElectionTimeout, OnCheckQuorum, Execute, Sends;
    if evs != [] { SameMachines(cl, evs[..|evs| - 1]); }
  }

  /** Terms do not fall, and within a term nobody becomes candidate or leader who was neither. */
  ghost predicate Settled(was: State, st: State) {
    was.term <= st.term && (was.term == st.term && !Running(was) ==> !Running(st))
  }

  predicate Running(st: State) { st.role.Candidate? || st.role.Leader? }

  lemma {:induction false} HandlersSettled(id: NodeId, was: State, env: Envelope, passed: bool)
    ensures Settled(was, OnRpc(id, was, env).state)
    ensures Settled(was, OnElectionTimeout(id, was).state)
    ensures Settled(was, OnCheckQuorum(was, passed).state)
  {
    hide Ids, Requests, LogOk;
  }

  lemma {:induction false} StepSettled(cl: Cluster, ev: Event, id: NodeId)
    requires id in cl.machines
    ensures id in Step(cl, ev).machines && Settled(cl.machines[id].state, Step(cl, ev).machines[id].state)
  {
    hide OnRpc, OnElectionTimeout, OnCheckQuorum, Execute, Sends;
    var was := cl.machines[id].state;
    match ev
    case Delivered(p) => HandlersSettled(id, was, p.envelope, true);
    case TimedOut(_) => HandlersSettled(id, was, Envelope(0, 0, 0, FetchRequested), true);
    case CheckedQuorum(_, passed) => HandlersSettled(id, was, Envelope(0, 0, 0, FetchRequested), passed);
    case Injected(_) =>
  }

  /**
   A leader that stepped down in a term, or any node that is neither leader nor
   candidate, never leads that term again.
   */
  lemma {:induction false} NeverLeadsAgain(cl: Cluster, evs: seq<Event>, k: nat, id: NodeId)
    requires id in cl.machines && k <= |evs|
    ensures id in Run(cl, evs[..k]).machines && id in Run(cl, evs).machines
    ensures Settled(Run(cl, evs[..k]).machines[id].state, Run(cl, evs).machines[id].state)
    decreases |evs|
  {
    hide Step;
    SameMachines(cl, evs[..k]);
    if k == |evs| {
      assert evs[..k] == evs;
    } else {
      var front := evs[..|evs| - 1];
      assert front[..k] == evs[..k];
      NeverLeadsAgain(cl, front, k, id);
      StepSettled(Run(cl, front), evs[|evs| - 1], id);
    }
  }

  // ---- Messages in general ----

  /** Messages of other clusters do nothing at all. */
  lemma {:induction false} OthersIgnored(id: NodeId, was: State, s: Stores, env: Envelope)
    requires env.clusterId != was.clusterId
    ensures var r := OnRpc(id, was, env); r.state == was && Execute(s, r.batch) == s && Sends(r.batch) == []
  {
  }

  /** The term a message speaks for. */
  function TermOf(env: Envelope): Term {
    match env.payload
    case VoteRequested(req) => req.term
    case VoteAnswered(resp) => resp.term
    case FetchAnswered(epoch) => epoch
    case _ => env.leaderEpoch
  }

  predicate PreVoting(env: Envelope) {
    || (env.payload.VoteRequested? && env.payload.request.isPreVote)
    || (env.payload.VoteAnswered? && env.payload.response.isPreVote)
  }

  /** A later term makes any node a follower of that term, unless it comes with a pre-vote; it is stored. */
  predicate Later(was: State, env: Envelope) { env.clusterId == was.clusterId && !PreVoting(env) && TermOf(env) > was.term }

  lemma {:induction false} LaterTermTaken(id: NodeId, was: State, s: Stores, env: Envelope)
    requires Later(was, env) && !env.payload.VoteRequested?
    ensures var r := OnRpc(id, was, env);
      && Resigned(was, TermOf(env), None, r.state) && Sends(r.batch) == []
      && Execute(s, r.batch) == Stores(Some(QuorumRecord(TermOf(env), None, None, 0)), s.log)
  {
    var r := OnRpc(id, was, env);
    var save := Persist(QuorumRecord(TermOf(env), None, None, 0));
    assert r.batch == [save];
    ExecuteOne(s, save);
  }

  /** Fetches, snapshots and their answers of no later term change nothing here. */
  lemma {:induction false} FetchesLeaveIt(id: NodeId, was: State, s: Stores, env: Envelope)
    requires !env.payload.VoteRequested? && !env.payload.VoteAnswered? && TermOf(env) <= was.term
    ensures var r := OnRpc(id, was, env); r.state == was && Execute(s, r.batch) == s && Sends(r.batch) == []
  {
    var r := OnRpc(id, was, env);
    assert r.batch == [];
  }

  // ---- Vote requests ----

  /** The candidate's log is no older, or the voter's is empty. */
  predicate NoOlder(was: State, req: VoteRequest) {
    || was.logEnd == 0
    || req.lastLogTerm > was.lastLogTerm
    || (req.lastLogTerm == was.lastLogTerm && req.lastLogOffset + 1 >= was.logEnd)
  }

  /** The candidate may have the vote of its term. */
  predicate Deserves(was: State, req: VoteRequest) {
    && NoOlder(was, req)
    && (req.term > was.term
        || (req.term == was.term && !was.role.Leader? && (was.votedFor.None? || was.votedFor == Some(req.candidateId))))
  }

  function Reply(id: NodeId, was: State, req: VoteRequest, term: Term, granted: bool): Packet {
    Packet(req.candidateId, Envelope(was.clusterId, 0, id, VoteAnswered(VoteResponse(term, granted, req.isPreVote))))
  }

  /** A request is answered once, granted exactly when deserved, and a later term and the vote are on disk. */
  lemma {:induction false} VotesExactly(id: NodeId, was: State, s: Stores, env: Envelope)
    requires env.clusterId == was.clusterId && env.payload.VoteRequested? && !env.payload.request.isPreVote
    ensures var r, req := OnRpc(id, was, env), env.payload.request;
      var term := Max(was.term, req.term);
      && Sends(r.batch) == [Reply(id, was, req, term, Deserves(was, req))]
      && r.state.term == term
      && r.state.votedFor == (if Deserves(was, req) then Some(req.candidateId) else if req.term > was.term then None else was.votedFor)
      && (req.term > was.term ==> Resigned(was, term, r.state.votedFor, r.state))
      && (req.term <= was.term ==> r.state == was.(votedFor := r.state.votedFor))
      && Execute(s, r.batch).log == s.log
      && (Deserves(was, req) || req.term > was.term ==>
            && Execute(s, r.batch).quorum.Some?
            && Execute(s, r.batch).quorum.value.term == term && Execute(s, r.batch).quorum.value.votedFor == r.state.votedFor)
      && (!Deserves(was, req) && req.term <= was.term ==> Execute(s, r.batch) == s)
  {
    hide Execute, Sends;
    var req := env.payload.request;
    var down := req.term > was.term;
    var st := if down then BecomeFollower(was, req.term) else was;
    var save := Persist(QuorumRecord(st.term, None, None, 0));
    var v := OnVoteRequest(id, st, req);
    GrantsExactly(st, req);
    RequestBatch(id, st, if down then Apply(s, save) else s, req);
    if down {
      ExecuteOne(s, save);
      ExecuteConcat(s, [save], v.batch);
    } else {
      assert [] + v.batch == v.batch;
    }
  }

  lemma {:induction false} GrantsExactly(st: State, req: VoteRequest)
    requires req.term <= st.term
    ensures Grants(st, req) <==>
      && NoOlder(st, req) && req.term == st.term && !st.role.Leader?
      && (st.votedFor.None? || st.votedFor == Some(req.candidateId))
  {
  }

  lemma {:induction false} RequestBatch(id: NodeId, st: State, s: Stores, req: VoteRequest)
    requires req.term <= st.term && !req.isPreVote
    ensures var r := OnVoteRequest(id, st, req);
      && Sends(r.batch) == [Reply(id, st, req, st.term, Grants(st, req))]
      && Execute(s, r.batch) == if Grants(st, req)
           then s.(quorum := Some(QuorumRecord(st.term, Some(req.candidateId), st.leaderId, 0))) else s
  {
    hide Execute, Sends, LogOk;
    var r := OnVoteRequest(id, st, req);
    if Grants(st, req) {
      assert r.batch == [r.batch[0], r.batch[1]];
      ExecuteTwo(s, r.batch[0], r.batch[1]);
    } else {
      assert r.batch == [r.batch[0]];
      ExecuteOne(s, r.batch[0]);
    }
  }

  /**
   A pre-vote is answered once, in the node's own term, granted exactly for no
   earlier term and a log no older; nothing changes.
   */
  lemma {:induction false} PreVotesExactly(id: NodeId, was: State, s: Stores, env: Envelope)
    requires env.clusterId == was.clusterId && env.payload.VoteRequested? && env.payload.request.isPreVote
    ensures var r, req := OnRpc(id, was, env), env.payload.request;
      && r.state == was && Execute(s, r.batch) == s
      && Sends(r.batch) == [Reply(id, was, req, was.term, req.term >= was.term && NoOlder(was, req))]
  {
    hide Execute, Sends;
    var r := OnRpc(id, was, env);
    assert r.batch == [r.batch[0]];
    ExecuteOne(s, r.batch[0]);
  }

  // ---- Answers ----

  /** An answer a candidate counts. */
  predicate Counts(was: State, env: Envelope) {
    && env.clusterId == was.clusterId && env.payload.VoteAnswered? && env.source in Ids(was.voters)
    && var resp := env.payload.response;
       was.role.Candidate? && resp.voteGranted && !resp.isPreVote && resp.term == was.term
  }

  /** What a win leaves: a leader with its vote kept, one more entry in the log, all of it stored. */
  ghost predicate Leads(id: NodeId, was: State, s: Stores, votes: set<NodeId>, r: Reaction) {
    && r.state == was.(role := Role.Leader, leaderId := Some(id), votes := votes, logEnd := was.logEnd + 1, lastLogTerm := was.term)
    && Execute(s, r.batch) == Stores(
         Some(QuorumRecord(was.term, was.votedFor, Some(id), was.term)),
         Log(s.log.start, s.log.entries + [LogEntry(was.logEnd, was.term, LeaderChangeMessage, [])]))
  }

  lemma {:induction false} ElectedLeads(id: NodeId, st: State, s: Stores)
    ensures Leads(id, st, s, st.votes, Elected(id, st)) && Sends(Elected(id, st).batch) == []
  {
    var r := Elected(id, st);
    assert r.batch == [r.batch[0], r.batch[1]];
    ExecuteTwo(s, r.batch[0], r.batch[1]);
  }

  /** A counted vote makes a leader exactly when more than half of the voters are then counted. */
  lemma {:induction false} CountsExactly(id: NodeId, was: State, s: Stores, env: Envelope)
    requires Counts(was, env)
    ensures var r := OnRpc(id, was, env); var votes := was.votes + {env.source};
      && Sends(r.batch) == []
      && if 2 * |votes| > |was.voters| then Leads(id, was, s, votes, r)
         else r.state == was.(votes := votes) && Execute(s, r.batch) == s
  {
    hide Ids, Leads;
    var r, counted := OnRpc(id, was, env), was.(votes := was.votes + {env.source});
    if 2 * |counted.votes| > |was.voters| {
      assert r.batch == Elected(id, counted).batch && r.state == Elected(id, counted).state;
      ElectedLeads(id, counted, s);
      SameLead(id, was, counted, s, r);
    } else {
      assert r.batch == [];
    }
  }

  lemma {:induction false} SameLead(id: NodeId, was: State, counted: State, s: Stores, r: Reaction)
    requires counted == was.(votes := counted.votes)
    ensures Leads(id, counted, s, counted.votes, r) <==> Leads(id, was, s, counted.votes, r)
  {
    hide Execute;
  }

  /** Any other answer of no later term counts for nothing; a granted pre-vote of the term is noted. */
  lemma {:induction false} AnswersIgnored(id: NodeId, was: State, s: Stores, env: Envelope)
    requires env.payload.VoteAnswered? && !Counts(was, env) && !Later(was, env)
    ensures var r, resp := OnRpc(id, was, env), env.payload.response;
      && Execute(s, r.batch) == s && Sends(r.batch) == []
      && r.state == (if env.clusterId == was.clusterId && resp.isPreVote && resp.voteGranted && resp.term == was.term
                     then was.(preVotes := was.preVotes + {env.source}) else was)
  {
    hide Ids;
    var r := OnRpc(id, was, env);
    assert r.batch == [];
  }

  // ---- Standing ----

  /** A voter whose timer fires stands in the next term with its own vote stored; a sole voter leads at once. */
  lemma {:induction false} StandsExactly(id: NodeId, was: State, s: Stores)
    requires id in Ids(was.voters)
    ensures var r := OnElectionTimeout(id, was);
      var stood := was.(term := was.term + 1, votedFor := Some(id), role := Role.Candidate, leaderId := None, votes := {id});
      var saved := s.(quorum := Some(QuorumRecord(was.term + 1, Some(id), None, 0)));
      if |was.voters| == 1 then Leads(id, stood, s, {id}, r)
      else r.state == stood && Execute(s, r.batch) == saved
  {
    hide Requests, Ids, Leads, Execute, Sends;
    var st := BecomeCandidate(id, was);
    var asks := Requests(id, st, st.voters);
    var save := Persist(QuorumRecord(st.term, st.votedFor, None, 0));
    var saved := Apply(s, save);
    ExecuteOne(s, save);
    ExecuteConcat(s, [save], asks);
    RequestsOnlyAsk(id, st, st.voters, saved);
    if |was.voters| == 1 {
      var won := Elected(id, st);
      ExecuteConcat(s, Stand(id, was).batch, won.batch);
      ElectedLeads(id, st, saved);
      LeadsAfter(id, st, s, saved, won, OnElectionTimeout(id, was));
    }
  }

  lemma {:induction false} LeadsAfter(id: NodeId, st: State, s: Stores, saved: Stores, won: Reaction, r: Reaction)
    requires Leads(id, st, saved, st.votes, won) && r.state == won.state && saved.log == s.log
    requires Execute(s, r.batch) == Execute(saved, won.batch)
    ensures Leads(id, st, s, st.votes, r)
  {
    hide Execute;
  }

  /**
   It asks exactly the other voters, with its new term and the end of its log; a
   node that is no voter does nothing.
   */
  lemma {:induction false} AsksExactly(id: NodeId, was: State, p: Packet)
    ensures p in Sends(OnElectionTimeout(id, was).batch) <==>
      && id in Ids(was.voters) && p.to in Ids(was.voters) && p.to != id
      && p.envelope == Envelope(was.clusterId, 0, id, VoteRequested(VoteRequest(was.term + 1, id,
           if was.logEnd == 0 then 0 else was.logEnd - 1, was.lastLogTerm, false)))
    ensures id !in Ids(was.voters) ==> OnElectionTimeout(id, was).state == was && OnElectionTimeout(id, was).batch == []
  {
    hide Requests, Ids, Execute;
    if id in Ids(was.voters) {
      var st := BecomeCandidate(id, was);
      var asks := Requests(id, st, st.voters);
      var save := Persist(QuorumRecord(st.term, st.votedFor, None, 0));
      var s := Stores(None, Log(0, []));
      ExecuteOne(s, save);
      ExecuteConcat(s, [save], asks);
      RequestsExactly(id, st, st.voters, p);
      if |was.voters| == 1 {
        ExecuteConcat(s, Stand(id, was).batch, Elected(id, st).batch);
        ElectedLeads(id, st, s);
      }
    }
  }

  lemma {:induction false} RequestsExactly(id: NodeId, st: State, to: seq<VoterInfo>, p: Packet)
    ensures p in Sends(Requests(id, st, to)) <==>
      && p.to in Ids(to) && p.to != id
      && p.envelope == Envelope(st.clusterId, 0, id, VoteRequested(VoteRequest(st.term, id, LastOffset(st), st.lastLogTerm, false)))
    decreases |to|
  {
    hide Ids, Execute;
    ElectionExact.NoIds();
    if to != [] {
      var front := to[..|to| - 1];
      RequestsExactly(id, st, front, p);
      ElectionExact.IdsLast(to, p.to);
      if to[|to| - 1].nodeId != id {
        var rest := Requests(id, st, front);
        var all := Requests(id, st, to);
        assert all[..|all| - 1] == rest;
      }
    }
  }
}
