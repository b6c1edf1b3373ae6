/** The event loop's election handlers: each turns a state and an input into a state and a batch of actions. */
module EventLoopSpec {
  import opened Types
  import opened LogSpec

  datatype State = State(
    clusterId: nat, term: Term, votedFor: Option<NodeId>, role: Role, leaderId: Option<NodeId>,
    voters: seq<VoterInfo>, votes: set<NodeId>, preVotes: set<NodeId>, logEnd: Offset, lastLogTerm: Term)

  datatype QuorumRecord = QuorumRecord(term: Term, votedFor: Option<NodeId>, leaderId: Option<NodeId>, leaderEpoch: Term)

  datatype Payload =
    | VoteRequested(request: VoteRequest)
    | VoteAnswered(response: VoteResponse)
    | FetchRequested
    | FetchAnswered(epoch: Term)
    | SnapshotRequested
    | SnapshotAnswered

  datatype Envelope = Envelope(clusterId: nat, leaderEpoch: Term, source: NodeId, payload: Payload)

  datatype Packet = Packet(to: NodeId, envelope: Envelope)

  datatype Action = Persist(record: QuorumRecord) | AppendLog(entries: seq<LogEntry>) | Send(packet: Packet)

  datatype Reaction = Reaction(state: State, batch: seq<Action>)

  // ---- State transitions ----

  function BecomeFollower(st: State, term: Term): State {
    st.(term := term, votedFor := None, role := Follower, leaderId := None, votes := {})
  }

  function BecomeCandidate(id: NodeId, st: State): State {
    st.(term := st.term + 1, votedFor := Some(id), role := Candidate, leaderId := None, votes := {id})
  }

  function Majority(st: State): nat { |st.voters| / 2 + 1 }

  function StepDown(st: State, term: Term): State {
    if term > st.term then BecomeFollower(st, term) else st
  }

  function LastOffset(st: State): Offset {
    if st.logEnd > 0 then st.logEnd - 1 else 0
  }

  predicate LogOk(st: State, req: VoteRequest) {
    || NoFresherThan(Freshness(st.lastLogTerm, LastOffset(st)), Freshness(req.lastLogTerm, req.lastLogOffset))
    || st.logEnd == 0
  }

  // ---- Votes ----

  function Answer(id: NodeId, st: State, req: VoteRequest, granted: bool): Action {
    Send(Packet(req.candidateId,
      Envelope(st.clusterId, 0, id, VoteAnswered(VoteResponse(st.term, granted, req.isPreVote)))))
  }

  predicate Grants(st: State, req: VoteRequest) {
    && !st.role.Leader? && req.term >= st.term
    && (st.votedFor.None? || st.votedFor == Some(req.candidateId))
    && LogOk(st, req)
  }

  function OnVoteRequest(id: NodeId, was: State, req: VoteRequest): Reaction {
    var st := StepDown(was, req.term);
    if Grants(st, req) then
      var voted := st.(votedFor := Some(req.candidateId));
      Reaction(voted, [Persist(QuorumRecord(voted.term, voted.votedFor, voted.leaderId, 0)), Answer(id, voted, req, true)])
    else
      Reaction(st, [Answer(id, st, req, false)])
  }

  function OnPreVote(id: NodeId, st: State, req: VoteRequest): Reaction {
    Reaction(st, [Answer(id, st, req, req.term >= st.term && LogOk(st, req))])
  }

  function Elected(id: NodeId, st: State): Reaction {
    Reaction(
      st.(role := Leader, leaderId := Some(id), logEnd := st.logEnd + 1, lastLogTerm := st.term),
      [Persist(QuorumRecord(st.term, st.votedFor, Some(id), st.term)),
       AppendLog([LogEntry(st.logEnd, st.term, LeaderChangeMessage, [])])])
  }

  function OnVoteResponse(id: NodeId, st: State, source: NodeId, resp: VoteResponse, steppedDown: bool): Reaction {
    if resp.isPreVote then
      Reaction(if resp.voteGranted && resp.term == st.term then st.(preVotes := st.preVotes + {source}) else st, [])
    else if steppedDown || !st.role.Candidate? || !resp.voteGranted || resp.term != st.term || source !in Ids(st.voters) then
      Reaction(st, [])
    else
      var counted := st.(votes := st.votes + {source});
      if |counted.votes| >= Majority(counted) then Elected(id, counted) else Reaction(counted, [])
  }

  // ---- Handlers ----

  function Requests(id: NodeId, st: State, to: seq<VoterInfo>): seq<Action> {
    if to == [] then []
    else
      var last := to[|to| - 1].nodeId;
      var rest := Requests(id, st, to[..|to| - 1]);
      if last == id then rest
      else rest + [Send(Packet(last, Envelope(st.clusterId, 0, id,
        VoteRequested(VoteRequest(st.term, id, LastOffset(st), st.lastLogTerm, false)))))]
  }

  function Stand(id: NodeId, was: State): Reaction {
    var st := BecomeCandidate(id, was);
    Reaction(st, [Persist(QuorumRecord(st.term, st.votedFor, None, 0))] + Requests(id, st, st.voters))
  }

  function OnElectionTimeout(id: NodeId, st: State): Reaction {
    if id !in Ids(st.voters) then Reaction(st, [])
    else
      var stood := Stand(id, st);
      if |st.voters| == 1 then
        var won := Elected(id, stood.state);
        Reaction(won.state, stood.batch + won.batch)
      else stood
  }

  /** A leader that cannot confirm its majority steps down but keeps its vote. */
  function OnCheckQuorum(st: State, passed: bool): Reaction {
    if passed then Reaction(st, [])
    else
      var down := BecomeFollower(st, st.term).(votedFor := st.votedFor);
      Reaction(down, [Persist(QuorumRecord(down.term, down.votedFor, None, 0))])
  }

  predicate IsPreVote(p: Payload) {
    match p
    case VoteRequested(req) => req.isPreVote
    case VoteAnswered(resp) => resp.isPreVote
    case _ => false
  }

  function EffectiveTerm(env: Envelope): Term {
    match env.payload
    case VoteRequested(req) => req.term
    case VoteAnswered(resp) => resp.term
    case FetchRequested => env.leaderEpoch
    case FetchAnswered(epoch) => epoch
    case SnapshotRequested => env.leaderEpoch
    case SnapshotAnswered => env.leaderEpoch
  }

  function Dispatch(id: NodeId, st: State, env: Envelope, steppedDown: bool): Reaction {
    match env.payload
    case VoteRequested(req) => if req.isPreVote then OnPreVote(id, st, req) else OnVoteRequest(id, st, req)
    case VoteAnswered(resp) => OnVoteResponse(id, st, env.source, resp, steppedDown)
    case _ => Reaction(st, [])
  }

  function OnRpc(id: NodeId, was: State, env: Envelope): Reaction {
    if env.clusterId != was.clusterId then Reaction(was, [])
    else
      var down := !IsPreVote(env.payload) && EffectiveTerm(env) > was.term;
      var st := if down then BecomeFollower(was, EffectiveTerm(env)) else was;
      var first := if down then [Persist(QuorumRecord(st.term, None, None, 0))] else [];
      var r := Dispatch(id, st, env, down);
      Reaction(r.state, first + r.batch)
  }

  // ---- Storage ----

  datatype Stores = Stores(quorum: Option<QuorumRecord>, log: Log)

  function Apply(s: Stores, a: Action): Stores {
    match a
    case Persist(record) => s.(quorum := Some(record))
    case AppendLog(es) => s.(log := s.log.Append(es))
    case Send(_) => s
  }

  function Execute(s: Stores, batch: seq<Action>): Stores {
    if batch == [] then s else Apply(Execute(s, batch[..|batch| - 1]), batch[|batch| - 1])
  }

  function Sends(batch: seq<Action>): seq<Packet> {
    if batch == [] then []
    else
      var rest := Sends(batch[..|batch| - 1]);
      var a := batch[|batch| - 1];
      if a.Send? then rest + [a.packet] else rest
  }
}
