/**
 A cluster of event loops that do not crash: one vote per term, one leader per
 term, and stores that mirror memory.
 */
module EventLoopRun {
  import opened Types
  import opened LogSpec
  import opened EventLoopSpec
  import Quorum

  datatype Machine = Machine(state: State, stores: Stores)

  datatype Vote = Vote(voter: NodeId, term: Term, cand: NodeId)

  datatype Win = Win(leader: NodeId, term: Term, votes: set<NodeId>)

  /** The packets and votes are all there ever were. */
  datatype Cluster = Cluster(machines: map<NodeId, Machine>, net: set<Packet>, votes: set<Vote>, wins: set<Win>)

  datatype Event =
    | TimedOut(id: NodeId)
    | CheckedQuorum(id: NodeId, passed: bool)
    | Delivered(packet: Packet)
    | Injected(packet: Packet)

  /** A real vote that was granted. */
  predicate Grant(p: Packet) {
    p.envelope.payload.VoteAnswered? && p.envelope.payload.response.voteGranted && !p.envelope.payload.response.isPreVote
  }

  /** Anything may arrive from outside, except a granted vote that nobody gave. */
  predicate Enabled(cl: Cluster, ev: Event) {
    match ev
    case TimedOut(id) => id in cl.machines
    case CheckedQuorum(id, _) => id in cl.machines
    case Delivered(p) => p in cl.net && p.to in cl.machines
    case Injected(p) => !Grant(p)
  }

  function Held(id: NodeId, st: State): set<Vote> {
    if st.votedFor.Some? then {Vote(id, st.term, st.votedFor.value)} else {}
  }

  function Newly(id: NodeId, was: State, st: State): set<Win> {
    if st.role.Leader? && !(was.role.Leader? && was.term == st.term) then {Win(id, st.term, st.votes)} else {}
  }

  function SentSet(sent: seq<Packet>): set<Packet> {
    set p | p in sent
  }

  function Moved(cl: Cluster, id: NodeId, r: Reaction): Cluster
    requires id in cl.machines
  {
    var m := cl.machines[id];
    Cluster(
      cl.machines[id := Machine(r.state, Execute(m.stores, r.batch))],
      cl.net + SentSet(Sends(r.batch)),
      cl.votes + Held(id, r.state),
      cl.wins + Newly(id, m.state, r.state))
  }

  function React(cl: Cluster, ev: Event): Cluster
    requires Enabled(cl, ev)
  {
    match ev
    case TimedOut(id) => Moved(cl, id, OnElectionTimeout(id, cl.machines[id].state))
    case CheckedQuorum(id, passed) => Moved(cl, id, OnCheckQuorum(cl.machines[id].state, passed))
    case Delivered(p) => Moved(cl, p.to, OnRpc(p.to, cl.machines[p.to].state, p.envelope))
    case Injected(p) => cl.(net := cl.net + {p})
  }

  function Step(cl: Cluster, ev: Event): Cluster {
    if Enabled(cl, ev) then React(cl, ev) else cl
  }

  function Run(cl: Cluster, evs: seq<Event>): Cluster {
    if evs == [] then cl else Step(Run(cl, evs[..|evs| - 1]), evs[|evs| - 1])
  }

  // ---- Invariant ----

  /** The stored term and vote are those in memory, and so are the end and last term of the stored log. */
  ghost predicate Mirrored(m: Machine) {
    && (m.stores.quorum.None? ==> m.state.term == 0 && m.state.votedFor.None?)
    && (m.stores.quorum.Some? ==>
          m.stores.quorum.value.term == m.state.term && m.stores.quorum.value.votedFor == m.state.votedFor)
    && LogMirrored(m.stores.log, m.state)
  }

  ghost predicate LogMirrored(log: Log, st: State) {
    log.Contiguous() && log.End() == st.logEnd
    && (log.entries != [] ==> log.entries[|log.entries| - 1].term == st.lastLogTerm)
  }

  /** A vote given in an earlier term, or the one now held. */
  predicate Covers(st: State, v: Vote) {
    v.term < st.term || (v.term == st.term && st.votedFor == Some(v.cand))
  }

  ghost predicate MachineOk(voters: seq<VoterInfo>, id: NodeId, m: Machine, votes: set<Vote>, wins: set<Win>) {
    && m.state.voters == voters && Mirrored(m)
    && Held(id, m.state) <= votes
    && (m.state.role.Candidate? || m.state.role.Leader? ==>
          m.state.votes <= Ids(voters) && forall x | x in m.state.votes :: Vote(x, m.state.term, id) in votes)
    && (m.state.role.Leader? ==> Win(id, m.state.term, m.state.votes) in wins)
  }

  ghost predicate PacketOk(p: Packet, votes: set<Vote>) {
    Grant(p) ==> Vote(p.envelope.source, p.envelope.payload.response.term, p.to) in votes
  }

  ghost predicate OneVote(votes: set<Vote>) {
    forall a, b | a in votes && b in votes && a.voter == b.voter && a.term == b.term :: a.cand == b.cand
  }

  ghost predicate WinOk(voters: seq<VoterInfo>, w: Win, votes: set<Vote>) {
    && w.votes <= Ids(voters) && 2 * |w.votes| > |Ids(voters)|
    && forall x | x in w.votes :: Vote(x, w.term, w.leader) in votes
  }

  ghost predicate Inv(voters: seq<VoterInfo>, cl: Cluster) {
    && (forall id | id in cl.machines :: MachineOk(voters, id, cl.machines[id], cl.votes, cl.wins))
    && (forall p | p in cl.net :: PacketOk(p, cl.votes))
    && (forall v | v in cl.votes :: v.voter in cl.machines && Covers(cl.machines[v.voter].state, v))
    && OneVote(cl.votes)
    && (forall w | w in cl.wins :: WinOk(voters, w, cl.votes))
  }

  /** Fresh nodes over any logs of their own, all given the same voter list. */
  ghost predicate Init(voters: seq<VoterInfo>, cl: Cluster) {
    && !Duplicates(voters)
    && (forall id | id in cl.machines ::
          var m := cl.machines[id];
          && m.state.voters == voters && m.state.term == 0 && m.state.votedFor.None?
          && (m.state.role.Follower? || m.state.role.Unattached?)
          && m.stores.quorum.None? && LogMirrored(m.stores.log, m.state))
    && cl.net == {} && cl.votes == {} && cl.wins == {}
  }

  // ---- Batches ----

  lemma {:induction false} ExecuteConcat(s: Stores, a: seq<Action>, b: seq<Action>)
    ensures Execute(s, a + b) == Execute(Execute(s, a), b)
    ensures Sends(a + b) == Sends(a) + Sends(b)
    decreases |b|
  {
    if b == [] {
      assert a + b == a;
    } else {
      var n := |b| - 1;
      assert (a + b)[..|a + b| - 1] == a + b[..n];
      ExecuteConcat(s, a, b[..n]);
    }
  }

  lemma {:induction false} ExecuteOne(s: Stores, a: Action)
    ensures Execute(s, [a]) == Apply(s, a)
    ensures Sends([a]) == if a.Send? then [a.packet] else []
  {
  }

  lemma {:induction false} ExecuteTwo(s: Stores, a: Action, b: Action)
    ensures Execute(s, [a, b]) == Apply(Apply(s, a), b)
    ensures Sends([a, b]) == (if a.Send? then [a.packet] else []) + (if b.Send? then [b.packet] else [])
  {
    ExecuteOne(s, a);
    ExecuteOne(Apply(s, a), b);
    assert [a, b] == [a] + [b];
    ExecuteConcat(s, [a], [b]);
  }

  lemma {:induction false} RequestsOnlyAsk(id: NodeId, st: State, to: seq<VoterInfo>, s: Stores)
    ensures Execute(s, Requests(id, st, to)) == s
    ensures forall p | p in Sends(Requests(id, st, to)) :: !Grant(p)
    decreases |to|
  {
    hide Execute, Sends;
    if to == [] {
      NoActions(s);
    } else {
      var front := to[..|to| - 1];
      RequestsOnlyAsk(id, st, front, s);
      if to[|to| - 1].nodeId != id {
        var rest, last := Requests(id, st, front), Requests(id, st, to)[|Requests(id, st, front)|];
        assert Requests(id, st, to) == rest + [last];
        ExecuteConcat(s, rest, [last]);
        ExecuteOne(s, last);
        assert Sends(Requests(id, st, to)) == Sends(rest) + [last.packet];
      }
    }
  }

  lemma {:induction false} NoActions(s: Stores)
    ensures Execute(s, []) == s && Sends([]) == []
  {
  }

  // ---- What one handler gives ----

  /** Votes are never taken back, storage follows, and a win needs a majority. */
  ghost predicate Sound(id: NodeId, was: State, s: Stores, r: Reaction) {
    && r.state.voters == was.voters
    && Mirrored(Machine(r.state, Execute(s, r.batch)))
    && (was.term < r.state.term
        || (was.term == r.state.term && (was.votedFor.Some? ==> r.state.votedFor == was.votedFor)))
    && (forall p | p in Sends(r.batch) :: Grant(p) ==>
          p.envelope.source == id && p.envelope.payload.response.term == r.state.term && r.state.votedFor == Some(p.to))
  }

  /** The votes a candidate or new leader counts. */
  ghost predicate Counted(id: NodeId, was: State, r: Reaction, heard: set<NodeId>) {
    (r.state.role.Candidate? || r.state.role.Leader?) ==>
      || (r.state.role == was.role && r.state.term == was.term && r.state.votes == was.votes)
      || (was.role.Candidate? && r.state.term == was.term && r.state.votes == was.votes + heard
          && heard <= Ids(was.voters) && (r.state.role.Leader? ==> |r.state.votes| >= |was.voters| / 2 + 1))
      || (r.state.term > was.term && r.state.votes == {id} && r.state.votedFor == Some(id) && id in Ids(was.voters)
          && (r.state.role.Leader? ==> |was.voters| == 1))
  }

  lemma {:induction false} ElectedStores(id: NodeId, st: State, s: Stores)
    requires LogMirrored(s.log, st)
    ensures var r := Elected(id, st);
      && Mirrored(Machine(r.state, Execute(s, r.batch))) && Sends(r.batch) == []
  {
    var r := Elected(id, st);
    ExecuteTwo(s, r.batch[0], r.batch[1]);
    assert r.batch == [r.batch[0], r.batch[1]];
  }

  lemma {:induction false} TimeoutSound(id: NodeId, was: State, s: Stores)
    requires Mirrored(Machine(was, s))
    ensures Sound(id, was, s, OnElectionTimeout(id, was)) && Counted(id, was, OnElectionTimeout(id, was), {})
  {
    hide Grant, LogMirrored, Requests;
    if id in Ids(was.voters) {
      var st := BecomeCandidate(id, was);
      var asks := Requests(id, st, st.voters);
      var save := Persist(QuorumRecord(st.term, st.votedFor, None, 0));
      var saved := Apply(s, save);
      ExecuteOne(s, save);
      ExecuteConcat(s, [save], asks);
      RequestsOnlyAsk(id, st, st.voters, saved);
      SameLog(s.log, was, st);
      if |was.voters| == 1 {
        var won := Elected(id, st);
        ExecuteConcat(s, Stand(id, was).batch, won.batch);
        ElectedStores(id, st, saved);
      }
    }
  }

  lemma {:induction false} SameLog(log: Log, a: State, b: State)
    requires LogMirrored(log, a) && a.logEnd == b.logEnd && a.lastLogTerm == b.lastLogTerm
    ensures LogMirrored(log, b)
  {
  }

  lemma {:induction false} CheckSound(id: NodeId, was: State, s: Stores, passed: bool)
    requires Mirrored(Machine(was, s))
    ensures Sound(id, was, s, OnCheckQuorum(was, passed)) && Counted(id, was, OnCheckQuorum(was, passed), {})
  {
  }

  lemma {:induction false} RequestSound(id: NodeId, was: State, s: Stores, req: VoteRequest)
    requires Mirrored(Machine(was, s)) && req.term <= was.term && !req.isPreVote
    ensures Sound(id, was, s, OnVoteRequest(id, was, req)) && Counted(id, was, OnVoteRequest(id, was, req), {})
  {
    hide LogMirrored, LogOk;
    var r := OnVoteRequest(id, was, req);
    SameLog(s.log, was, r.state);
    if Grants(was, req) {
      ExecuteTwo(s, r.batch[0], r.batch[1]);
      assert r.batch == [r.batch[0], r.batch[1]];
    } else {
      ExecuteOne(s, r.batch[0]);
      assert r.batch == [r.batch[0]];
    }
  }

  /** A pre-vote changes neither the state nor the stores. */
  lemma {:induction false} PreVotePure(id: NodeId, was: State, s: Stores, req: VoteRequest)
    requires req.isPreVote
    ensures var r := OnPreVote(id, was, req);
      r.state == was && Execute(s, r.batch) == s && forall p | p in Sends(r.batch) :: !Grant(p)
  {
  }

  lemma {:induction false} ResponseSound(id: NodeId, was: State, s: Stores, source: NodeId, resp: VoteResponse, down: bool)
    requires Mirrored(Machine(was, s))
    ensures var r := OnVoteResponse(id, was, source, resp, down); Sound(id, was, s, r)
    ensures var r := OnVoteResponse(id, was, source, resp, down);
      Counted(id, was, r, if Hears(was, source, resp) then {source} else {})
  {
    hide LogMirrored, Ids, Grant;
    var r := OnVoteResponse(id, was, source, resp, down);
    SameLog(s.log, was, was.(preVotes := r.state.preVotes, votes := r.state.votes));
    if r.batch != [] {
      ElectedStores(id, was.(votes := was.votes + {source}), s);
    }
  }

  /** A granted vote that a candidate counts. */
  predicate Hears(st: State, source: NodeId, resp: VoteResponse) {
    st.role.Candidate? && resp.voteGranted && !resp.isPreVote && resp.term == st.term && source in Ids(st.voters)
  }

  function Heard(st: State, env: Envelope): set<NodeId> {
    if env.payload.VoteAnswered? && Hears(st, env.source, env.payload.response) then {env.source} else {}
  }

  lemma {:induction false} DispatchSound(id: NodeId, st: State, s: Stores, env: Envelope, down: bool)
    requires Mirrored(Machine(st, s))
    requires env.payload.VoteRequested? && !env.payload.request.isPreVote ==> env.payload.request.term <= st.term
    ensures Sound(id, st, s, Dispatch(id, st, env, down)) && Counted(id, st, Dispatch(id, st, env, down), Heard(st, env))
  {
    hide Ids, Grant, Mirrored, OnVoteRequest, OnVoteResponse, OnPreVote;
    match env.payload {
      case VoteRequested(req) =>
        if req.isPreVote {
          PreVotePure(id, st, s, req);
          PureSound(id, st, s, OnPreVote(id, st, req));
        } else {
          RequestSound(id, st, s, req);
        }
      case VoteAnswered(resp) => ResponseSound(id, st, s, env.source, resp, down);
      case _ => PureSound(id, st, s, Reaction(st, []));
    }
  }

  lemma {:induction false} PureSound(id: NodeId, st: State, s: Stores, r: Reaction)
    requires Mirrored(Machine(st, s)) && r.state == st && Execute(s, r.batch) == s
    requires forall p | p in Sends(r.batch) :: !Grant(p)
    ensures Sound(id, st, s, r) && forall heard: set<NodeId> :: Counted(id, st, r, heard)
  {
  }

  lemma {:induction false} RpcSound(id: NodeId, was: State, s: Stores, env: Envelope)
    requires Mirrored(Machine(was, s))
    ensures Sound(id, was, s, OnRpc(id, was, env)) && Counted(id, was, OnRpc(id, was, env), Heard(was, env))
  {
    hide Ids, Grant, Dispatch, LogMirrored;
    if env.clusterId != was.clusterId {
      PureSound(id, was, s, OnRpc(id, was, env));
      return;
    }
    var t := EffectiveTerm(env);
    var down := !IsPreVote(env.payload) && t > was.term;
    if down {
      var st := BecomeFollower(was, t);
      var save := Persist(QuorumRecord(t, None, None, 0));
      ExecuteOne(s, save);
      SameLog(s.log, was, st);
      DispatchSound(id, st, Apply(s, save), env, true);
      ExecuteConcat(s, [save], Dispatch(id, st, env, true).batch);
    } else {
      DispatchSound(id, was, s, env, false);
      assert [] + Dispatch(id, was, env, false).batch == Dispatch(id, was, env, false).batch;
    }
  }

  // ---- Steps keep the invariant ----

  lemma {:induction false} VotesKept(cl: Cluster, id: NodeId, st: State)
    requires id in cl.machines && OneVote(cl.votes)
    requires forall v | v in cl.votes :: v.voter in cl.machines && Covers(cl.machines[v.voter].state, v)
    requires var was := cl.machines[id].state;
      was.term < st.term || (was.term == st.term && (was.votedFor.Some? ==> st.votedFor == was.votedFor))
    ensures var all := cl.votes + Held(id, st);
      OneVote(all) && forall v, stores | v in all ::
        var ms := cl.machines[id := Machine(st, stores)]; v.voter in ms && Covers(ms[v.voter].state, v)
  {
  }

  lemma {:induction false} MovedMachine(voters: seq<VoterInfo>, cl: Cluster, id: NodeId, r: Reaction, heard: set<NodeId>)
    requires Inv(voters, cl) && id in cl.machines
    requires Sound(id, cl.machines[id].state, cl.machines[id].stores, r) && Counted(id, cl.machines[id].state, r, heard)
    requires forall x | x in heard :: Vote(x, cl.machines[id].state.term, id) in cl.votes
    ensures var next := Moved(cl, id, r); MachineOk(voters, id, next.machines[id], next.votes, next.wins)
  {
  }

  lemma {:induction false} MovedWins(voters: seq<VoterInfo>, cl: Cluster, id: NodeId, r: Reaction, heard: set<NodeId>)
    requires !Duplicates(voters) && Inv(voters, cl) && id in cl.machines
    requires Sound(id, cl.machines[id].state, cl.machines[id].stores, r) && Counted(id, cl.machines[id].state, r, heard)
    requires MachineOk(voters, id, Moved(cl, id, r).machines[id], Moved(cl, id, r).votes, Moved(cl, id, r).wins)
    ensures forall w | w in Moved(cl, id, r).wins :: WinOk(voters, w, Moved(cl, id, r).votes)
  {
    hide Mirrored, PacketOk, OneVote, Covers, Ids, Grant, Execute, Sends, Duplicates;
    assert MachineOk(voters, id, cl.machines[id], cl.votes, cl.wins);
    Quorum.IdsCount(voters);
    var next := Moved(cl, id, r);
    forall w | w in next.wins ensures WinOk(voters, w, next.votes) {
      if w in cl.wins { assert WinOk(voters, w, cl.votes); }
    }
  }

  lemma {:induction false} MovedInv(voters: seq<VoterInfo>, cl: Cluster, id: NodeId, r: Reaction, heard: set<NodeId>)
    requires !Duplicates(voters) && Inv(voters, cl) && id in cl.machines
    requires Sound(id, cl.machines[id].state, cl.machines[id].stores, r) && Counted(id, cl.machines[id].state, r, heard)
    requires forall x | x in heard :: Vote(x, cl.machines[id].state.term, id) in cl.votes
    ensures Inv(voters, Moved(cl, id, r))
  {
    hide Mirrored, OneVote, WinOk, Covers, Ids, Grant, Execute, Sends, Duplicates, MachineOk, Counted;
    var next := Moved(cl, id, r);
    MovedMachine(voters, cl, id, r, heard);
    MovedWins(voters, cl, id, r, heard);
    VotesKept(cl, id, r.state);
    forall j | j in next.machines ensures MachineOk(voters, j, next.machines[j], next.votes, next.wins) {
      if j != id { OtherMachine(voters, j, cl.machines[j], cl.votes, cl.wins, next.votes, next.wins); }
    }
  }

  lemma {:induction false} OtherMachine(voters: seq<VoterInfo>, id: NodeId, m: Machine, vs: set<Vote>, ws: set<Win>, vs': set<Vote>, ws': set<Win>)
    requires MachineOk(voters, id, m, vs, ws) && vs <= vs' && ws <= ws'
    ensures MachineOk(voters, id, m, vs', ws')
  {
  }

  lemma {:induction false} StepInv(voters: seq<VoterInfo>, cl: Cluster, ev: Event)
    requires !Duplicates(voters) && Inv(voters, cl)
    ensures Inv(voters, Step(cl, ev))
  {
    hide Moved, OneVote, WinOk, Covers, Duplicates, OnRpc, OnElectionTimeout, OnCheckQuorum, Sound, Counted, Mirrored, Held;
    if Enabled(cl, ev) {
      match ev {
        case TimedOut(id) =>
          assert MachineOk(voters, id, cl.machines[id], cl.votes, cl.wins);
          TimeoutSound(id, cl.machines[id].state, cl.machines[id].stores);
          MovedInv(voters, cl, id, OnElectionTimeout(id, cl.machines[id].state), {});
        case CheckedQuorum(id, passed) =>
          assert MachineOk(voters, id, cl.machines[id], cl.votes, cl.wins);
          CheckSound(id, cl.machines[id].state, cl.machines[id].stores, passed);
          MovedInv(voters, cl, id, OnCheckQuorum(cl.machines[id].state, passed), {});
        case Delivered(p) =>
          assert MachineOk(voters, p.to, cl.machines[p.to], cl.votes, cl.wins) && PacketOk(p, cl.votes);
          RpcSound(p.to, cl.machines[p.to].state, cl.machines[p.to].stores, p.envelope);
          MovedInv(voters, cl, p.to, OnRpc(p.to, cl.machines[p.to].state, p.envelope), Heard(cl.machines[p.to].state, p.envelope));
        case Injected(p) =>
      }
    }
  }

  lemma {:induction false} RunInv(voters: seq<VoterInfo>, cl: Cluster, evs: seq<Event>)
    requires Init(voters, cl)
    ensures Inv(voters, Run(cl, evs))
    decreases |evs|
  {
    hide Step, Duplicates, LogMirrored, Ids;
    if evs != [] {
      hide Inv;
      RunInv(voters, cl, evs[..|evs| - 1]);
      StepInv(voters, Run(cl, evs[..|evs| - 1]), evs[|evs| - 1]);
    }
  }

  // ---- Theorems ----

  /** No node ever votes for two candidates in one term, through any step-down. */
  lemma {:induction false} NeverVotesTwice(voters: seq<VoterInfo>, cl: Cluster, evs: seq<Event>, p: Packet, q: Packet)
    requires Init(voters, cl) && p in Run(cl, evs).net && q in Run(cl, evs).net && Grant(p) && Grant(q)
    requires p.envelope.source == q.envelope.source && p.envelope.payload.response.term == q.envelope.payload.response.term
    ensures p.to == q.to
  {
    hide Run, Init, MachineOk, Covers, WinOk;
    RunInv(voters, cl, evs);
    assert PacketOk(p, Run(cl, evs).votes) && PacketOk(q, Run(cl, evs).votes);
  }

  /** At most one node ever becomes leader in a term. */
  lemma {:induction false} OneLeaderPerTerm(voters: seq<VoterInfo>, cl: Cluster, evs: seq<Event>, v: Win, w: Win)
    requires Init(voters, cl) && v in Run(cl, evs).wins && w in Run(cl, evs).wins && v.term == w.term
    ensures v.leader == w.leader
  {
    hide Run, Init, MachineOk, Covers, PacketOk, Ids;
    RunInv(voters, cl, evs);
    var now := Run(cl, evs);
    assert WinOk(voters, v, now.votes) && WinOk(voters, w, now.votes);
    var x := Quorum.Overlap(v.votes, w.votes, Ids(voters));
    assert Vote(x, v.term, v.leader) in now.votes && Vote(x, w.term, w.leader) in now.votes;
  }

  /** After every step the stores say what memory says, and a leader in memory is a recorded win. */
  lemma {:induction false} StoresMirrorMemory(voters: seq<VoterInfo>, cl: Cluster, evs: seq<Event>, id: NodeId)
    requires Init(voters, cl) && id in Run(cl, evs).machines
    ensures Mirrored(Run(cl, evs).machines[id])
    ensures var st := Run(cl, evs).machines[id].state;
      st.role.Leader? ==> Win(id, st.term, st.votes) in Run(cl, evs).wins
  {
    hide Run, Init, Mirrored, Covers, PacketOk, Ids, WinOk, OneVote;
    RunInv(voters, cl, evs);
    assert MachineOk(voters, id, Run(cl, evs).machines[id], Run(cl, evs).votes, Run(cl, evs).wins);
  }
}
