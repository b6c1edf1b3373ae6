/** The election restriction for the event loop: how up to date the logs were when votes were given. */
module EventLoopRestriction {
  import opened Types
  import opened LogSpec
  import opened EventLoopSpec
  import opened EventLoopRun

  /** A vote given: how up to date the voter's log was, whether it was empty, and what the request claimed. */
  datatype Granted = Granted(
    voter: NodeId, term: Term, cand: NodeId, voterLast: Freshness, voterEmpty: bool, candLast: Freshness)

  /** A win and how up to date the winner's log was. */
  datatype Victory = Victory(leader: NodeId, term: Term, votes: set<NodeId>, last: Freshness)

  /** A cluster, the votes given, the victories, and the candidates and terms someone injected requests for. */
  datatype Story = Story(cl: Cluster, grants: set<Granted>, victories: set<Victory>, forged: set<(NodeId, Term)>)

  function LastOf(st: State): Freshness { Freshness(st.lastLogTerm, LastOffset(st)) }

  function Claimed(req: VoteRequest): Freshness { Freshness(req.lastLogTerm, req.lastLogOffset) }

  predicate RealRequest(p: Packet) {
    p.envelope.payload.VoteRequested? && !p.envelope.payload.request.isPreVote
  }

  function NewGrants(id: NodeId, was: State, env: Envelope): set<Granted> {
    if env.clusterId != was.clusterId || !env.payload.VoteRequested? || env.payload.request.isPreVote then {}
    else
      var req := env.payload.request;
      if Grants(StepDown(was, req.term), req)
      then {Granted(id, req.term, req.candidateId, LastOf(was), was.logEnd == 0, Claimed(req))}
      else {}
  }

  function NewVictories(id: NodeId, was: State, st: State): set<Victory> {
    if Newly(id, was, st) == {} then {} else {Victory(id, st.term, st.votes, LastOf(was))}
  }

  function Told(s: Story, ev: Event): Story
    requires Enabled(s.cl, ev)
  {
    var next := s.(cl := React(s.cl, ev));
    match ev
    case TimedOut(id) =>
      next.(victories := s.victories + NewVictories(id, s.cl.machines[id].state, next.cl.machines[id].state))
    case CheckedQuorum(id, _) =>
      next.(victories := s.victories + NewVictories(id, s.cl.machines[id].state, next.cl.machines[id].state))
    case Delivered(p) =>
      next.(grants := s.grants + NewGrants(p.to, s.cl.machines[p.to].state, p.envelope),
            victories := s.victories + NewVictories(p.to, s.cl.machines[p.to].state, next.cl.machines[p.to].state))
    case Injected(p) =>
      next.(forged := if RealRequest(p)
                      then s.forged + {(p.envelope.payload.request.candidateId, p.envelope.payload.request.term)}
                      else s.forged)
  }

  function Tell(s: Story, ev: Event): Story {
    if Enabled(s.cl, ev) then Told(s, ev) else s
  }

  function Telling(s: Story, evs: seq<Event>): Story {
    if evs == [] then s else Tell(Telling(s, evs[..|evs| - 1]), evs[|evs| - 1])
  }

  /** Telling the story does not change what happens. */
  lemma {:induction false} TellsRun(s: Story, evs: seq<Event>)
    ensures Telling(s, evs).cl == Run(s.cl, evs)
    decreases |evs|
  {
    hide React;
    if evs != [] { TellsRun(s, evs[..|evs| - 1]); }
  }

  // ---- Invariant ----

  /** While a node stands in the term, its log is what was claimed for it. */
  ghost predicate Honest(ms: map<NodeId, Machine>, cand: NodeId, term: Term, claimed: Freshness) {
    cand in ms && term <= ms[cand].state.term
    && (term == ms[cand].state.term && ms[cand].state.role.Candidate? ==> claimed == LastOf(ms[cand].state))
  }

  ghost predicate HasGrant(grants: set<Granted>, voter: NodeId, term: Term, cand: NodeId) {
    exists g :: g in grants && g.voter == voter && g.term == term && g.cand == cand
  }

  ghost predicate GrantOk(g: Granted, s: Story) {
    && (NoFresherThan(g.voterLast, g.candLast) || g.voterEmpty)
    && ((g.cand, g.term) !in s.forged ==> Honest(s.cl.machines, g.cand, g.term, g.candLast))
  }

  ghost predicate AskOk(p: Packet, s: Story) {
    && (RealRequest(p) ==>
          var req := p.envelope.payload.request;
          (req.candidateId, req.term) !in s.forged ==> Honest(s.cl.machines, req.candidateId, req.term, Claimed(req)))
    && (Grant(p) ==> HasGrant(s.grants, p.envelope.source, p.envelope.payload.response.term, p.to))
  }

  ghost predicate CountOk(id: NodeId, st: State, grants: set<Granted>) {
    st.role.Candidate? || st.role.Leader? ==> forall x | x in st.votes :: x == id || HasGrant(grants, x, st.term, id)
  }

  /** A vote for the winner, given to a log no older than the voter's or by a voter with an empty log. */
  ghost predicate FairGrant(v: Victory, x: NodeId, s: Story) {
    exists g :: g in s.grants && g.voter == x && g.term == v.term && g.cand == v.leader
      && (NoFresherThan(g.voterLast, g.candLast) || g.voterEmpty)
      && ((v.leader, v.term) !in s.forged ==> g.candLast == v.last)
  }

  ghost predicate VictoryOk(v: Victory, s: Story) {
    forall x | x in v.votes :: x == v.leader || FairGrant(v, x, s)
  }

  ghost predicate StoryOk(s: Story) {
    && (forall p | p in s.cl.net :: AskOk(p, s))
    && (forall g | g in s.grants :: GrantOk(g, s))
    && (forall id | id in s.cl.machines :: CountOk(id, s.cl.machines[id].state, s.grants))
    && (forall v | v in s.victories :: VictoryOk(v, s))
    && (forall w | w in s.cl.wins :: exists v :: v in s.victories && v.leader == w.leader && v.term == w.term && v.votes == w.votes)
  }

  // ---- What one handler does to logs, requests and grants ----

  /** Terms never fall, and a node stands within a term only with the log it stood up with. */
  ghost predicate Steady(id: NodeId, was: State, r: Reaction) {
    && was.term <= r.state.term
    && (r.state.term == was.term && r.state.role.Candidate? ==> was.role.Candidate? && LastOf(r.state) == LastOf(was))
    && (forall p | p in Sends(r.batch) && RealRequest(p) ::
          var req := p.envelope.payload.request;
          req.candidateId == id && req.term == r.state.term && (r.state.role.Candidate? ==> Claimed(req) == LastOf(r.state)))
  }

  lemma {:induction false} RequestsClaim(id: NodeId, st: State, to: seq<VoterInfo>)
    ensures forall p | p in Sends(Requests(id, st, to)) && RealRequest(p) ::
      var req := p.envelope.payload.request; req.candidateId == id && req.term == st.term && Claimed(req) == LastOf(st)
    decreases |to|
  {
    hide Execute;
    if to != [] {
      var front := to[..|to| - 1];
      RequestsClaim(id, st, front);
      if to[|to| - 1].nodeId != id {
        var rest := Requests(id, st, front);
        var last := Requests(id, st, to)[|rest|];
        assert Requests(id, st, to) == rest + [last];
        ExecuteConcat(Stores(None, Log(0, [])), rest, [last]);
        ExecuteOne(Stores(None, Log(0, [])), last);
      }
    }
  }

  lemma {:induction false} TimeoutSteady(id: NodeId, was: State)
    ensures Steady(id, was, OnElectionTimeout(id, was))
    ensures forall p | p in Sends(OnElectionTimeout(id, was).batch) :: !Grant(p)
  {
    hide Requests, Execute, Sends;
    var none := Stores(None, Log(0, []));
    assert Sends([]) == [] by { SendsNothing(); }
    if id in Ids(was.voters) {
      var st := BecomeCandidate(id, was);
      var save := Persist(QuorumRecord(st.term, st.votedFor, None, 0));
      ExecuteOne(none, save);
      ExecuteConcat(none, [save], Requests(id, st, st.voters));
      RequestsClaim(id, st, st.voters);
      RequestsOnlyAsk(id, st, st.voters, none);
      if |was.voters| == 1 {
        var won := Elected(id, st);
        ExecuteConcat(none, Stand(id, was).batch, won.batch);
        ElectedSends(id, st);
      }
    }
  }

  lemma {:induction false} SendsNothing()
    ensures Sends([]) == []
  {
  }

  lemma {:induction false} ElectedSends(id: NodeId, st: State)
    ensures Sends(Elected(id, st).batch) == []
  {
    var b := Elected(id, st).batch;
    ExecuteTwo(Stores(None, Log(0, [])), b[0], b[1]);
    assert b == [b[0], b[1]];
  }

  lemma {:induction false} CheckSteady(id: NodeId, was: State, passed: bool)
    ensures Steady(id, was, OnCheckQuorum(was, passed))
    ensures forall p | p in Sends(OnCheckQuorum(was, passed).batch) :: !Grant(p)
  {
    var b := OnCheckQuorum(was, passed).batch;
    if b != [] {
      ExecuteOne(Stores(None, Log(0, [])), b[0]);
      assert b == [b[0]];
    }
  }

  /** What answering a message sends: no request, and a granted vote only as recorded. */
  ghost predicate Answers(id: NodeId, was: State, env: Envelope, sent: seq<Packet>) {
    forall p | p in sent ::
      && !RealRequest(p)
      && (Grant(p) ==> HasGrant(NewGrants(id, was, env), p.envelope.source, p.envelope.payload.response.term, p.to))
  }

  lemma {:induction false} DispatchAnswers(id: NodeId, was: State, st: State, env: Envelope, down: bool)
    requires env.clusterId == was.clusterId
    requires st == if down then BecomeFollower(was, EffectiveTerm(env)) else was
    requires down <==> !IsPreVote(env.payload) && EffectiveTerm(env) > was.term
    ensures var r := Dispatch(id, st, env, down);
      && Answers(id, was, env, Sends(r.batch)) && st.term <= r.state.term
      && (r.state.term == st.term && r.state.role.Candidate? ==> st.role.Candidate? && LastOf(r.state) == LastOf(st))
  {
    hide Execute, Sends, Ids, LogOk;
    var none := Stores(None, Log(0, []));
    SendsNothing();
    match env.payload {
      case VoteRequested(req) =>
        var b := Dispatch(id, st, env, down).batch;
        if !req.isPreVote && Grants(st, req) {
          ExecuteTwo(none, b[0], b[1]);
          assert b == [b[0], b[1]];
          GrantRecorded(id, was, st, env);
        } else {
          ExecuteOne(none, b[0]);
          assert b == [b[0]];
        }
      case VoteAnswered(resp) =>
        ElectedSends(id, st.(votes := st.votes + {env.source}));
      case _ =>
    }
  }

  lemma {:induction false} GrantRecorded(id: NodeId, was: State, st: State, env: Envelope)
    requires env.clusterId == was.clusterId && env.payload.VoteRequested? && !env.payload.request.isPreVote
    requires st == StepDown(was, env.payload.request.term) && Grants(st, env.payload.request)
    ensures HasGrant(NewGrants(id, was, env), id, env.payload.request.term, env.payload.request.candidateId)
    ensures st.term == env.payload.request.term
  {
    var req := env.payload.request;
    assert Granted(id, req.term, req.candidateId, LastOf(was), was.logEnd == 0, Claimed(req)) in NewGrants(id, was, env);
  }

  lemma {:induction false} RpcSteady(id: NodeId, was: State, env: Envelope)
    ensures Steady(id, was, OnRpc(id, was, env)) && Answers(id, was, env, Sends(OnRpc(id, was, env).batch))
  {
    hide Dispatch, Execute, Sends, NewGrants, HasGrant;
    SendsNothing();
    if env.clusterId == was.clusterId {
      var down := !IsPreVote(env.payload) && EffectiveTerm(env) > was.term;
      var st := if down then BecomeFollower(was, EffectiveTerm(env)) else was;
      DispatchAnswers(id, was, st, env, down);
      var batch := Dispatch(id, st, env, down).batch;
      if down {
        var save := Persist(QuorumRecord(st.term, None, None, 0));
        ExecuteOne(Stores(None, Log(0, [])), save);
        ExecuteConcat(Stores(None, Log(0, [])), [save], batch);
        assert [] + Sends(batch) == Sends(batch);
      } else {
        assert [] + batch == batch;
      }
    }
  }

  // ---- Steps keep it ----

  /** Claims stay honest while machines move on. */
  lemma {:induction false} HonestStays(ms: map<NodeId, Machine>, id: NodeId, r: Reaction, stores: Stores, cand: NodeId, term: Term, claimed: Freshness)
    requires id in ms && Steady(id, ms[id].state, r) && Honest(ms, cand, term, claimed)
    ensures Honest(ms[id := Machine(r.state, stores)], cand, term, claimed)
  {
    hide Sends;
  }

  lemma {:induction false} GrantGrows(a: set<Granted>, b: set<Granted>, voter: NodeId, term: Term, cand: NodeId)
    requires HasGrant(a, voter, term, cand) && a <= b
    ensures HasGrant(b, voter, term, cand)
  {
  }

  /** The story after a node reacted, with what it granted. */
  function Moves(s: Story, id: NodeId, r: Reaction, grants: set<Granted>): Story
    requires id in s.cl.machines
  {
    Story(Moved(s.cl, id, r), s.grants + grants, s.victories + NewVictories(id, s.cl.machines[id].state, r.state), s.forged)
  }

  /** What a reaction must give. */
  ghost predicate Reacts(s: Story, id: NodeId, r: Reaction, grants: set<Granted>, heard: set<NodeId>)
    requires id in s.cl.machines
  {
    var was := s.cl.machines[id].state;
    && Steady(id, was, r) && Counted(id, was, r, heard)
    && (forall x | x in heard :: HasGrant(s.grants, x, was.term, id))
    && (forall p | p in Sends(r.batch) && Grant(p) :: HasGrant(grants, p.envelope.source, p.envelope.payload.response.term, p.to))
    && (forall g | g in grants ::
          && (NoFresherThan(g.voterLast, g.candLast) || g.voterEmpty)
          && ((g.cand, g.term) !in s.forged ==> Honest(s.cl.machines, g.cand, g.term, g.candLast)))
  }

  lemma {:induction false} MovesAsks(s: Story, id: NodeId, r: Reaction, grants: set<Granted>, heard: set<NodeId>)
    requires StoryOk(s) && id in s.cl.machines && Reacts(s, id, r, grants, heard)
    ensures var t := Moves(s, id, r, grants);
      (forall p | p in t.cl.net :: AskOk(p, t)) && (forall g | g in t.grants :: GrantOk(g, t))
  {
    hide Execute, Sends, Honest, HasGrant, NewVictories, CountOk, VictoryOk, Counted, Newly, Held, Steady;
    var t := Moves(s, id, r, grants);
    var stores := Execute(s.cl.machines[id].stores, r.batch);
    forall p | p in t.cl.net ensures AskOk(p, t) {
      if p in s.cl.net {
        assert AskOk(p, s);
        if RealRequest(p) && (p.envelope.payload.request.candidateId, p.envelope.payload.request.term) !in s.forged {
          HonestStays(s.cl.machines, id, r, stores, p.envelope.payload.request.candidateId, p.envelope.payload.request.term, Claimed(p.envelope.payload.request));
        }
        if Grant(p) { GrantGrows(s.grants, t.grants, p.envelope.source, p.envelope.payload.response.term, p.to); }
      } else {
        if RealRequest(p) { NewAsk(s.cl.machines, id, r, stores, p); }
        if Grant(p) { GrantGrows(grants, t.grants, p.envelope.source, p.envelope.payload.response.term, p.to); }
      }
    }
    forall g | g in t.grants ensures GrantOk(g, t) {
      assert g in s.grants ==> GrantOk(g, s);
      if (g.cand, g.term) !in s.forged { HonestStays(s.cl.machines, id, r, stores, g.cand, g.term, g.candLast); }
    }
  }

  lemma {:induction false} NewAsk(ms: map<NodeId, Machine>, id: NodeId, r: Reaction, stores: Stores, p: Packet)
    requires id in ms && Steady(id, ms[id].state, r) && p in Sends(r.batch) && RealRequest(p)
    ensures var req := p.envelope.payload.request; Honest(ms[id := Machine(r.state, stores)], req.candidateId, req.term, Claimed(req))
  {
    hide Sends;
  }

  lemma {:induction false} MovesCounts(s: Story, id: NodeId, r: Reaction, grants: set<Granted>, heard: set<NodeId>)
    requires StoryOk(s) && id in s.cl.machines && Reacts(s, id, r, grants, heard)
    ensures var t := Moves(s, id, r, grants);
      forall j | j in t.cl.machines :: CountOk(j, t.cl.machines[j].state, t.grants)
  {
    hide Execute, Sends, Honest, HasGrant, NewVictories, VictoryOk, Newly, Held, Grant, Steady, AskOk, GrantOk, Ids;
    var t := Moves(s, id, r, grants);
    forall j | j in t.cl.machines ensures CountOk(j, t.cl.machines[j].state, t.grants) {
      var st := t.cl.machines[j].state;
      var was := s.cl.machines[j].state;
      assert CountOk(j, was, s.grants);
      if st.role.Candidate? || st.role.Leader? {
        forall x | x in st.votes ensures x == j || HasGrant(t.grants, x, st.term, j) {
          if x != j && st.term == was.term { GrantGrows(s.grants, t.grants, x, st.term, j); }
        }
      }
    }
  }

  /** A new leader's votes were all given to the log it won with. */
  lemma {:induction false} NewVictoryOk(s: Story, id: NodeId, r: Reaction, grants: set<Granted>, heard: set<NodeId>, v: Victory)
    requires StoryOk(s) && id in s.cl.machines && Reacts(s, id, r, grants, heard)
    requires v in NewVictories(id, s.cl.machines[id].state, r.state)
    ensures VictoryOk(v, Moves(s, id, r, grants))
  {
    hide Execute, Sends, HasGrant, Held, Grant, Steady, AskOk, Ids;
    var was := s.cl.machines[id].state;
    var t := Moves(s, id, r, grants);
    assert CountOk(id, was, s.grants);
    forall x | x in v.votes && x != v.leader ensures FairGrant(v, x, t) {
      assert was.role.Candidate? && r.state.term == was.term;
      assert HasGrant(s.grants, x, was.term, id);
      GrantIsFair(s, t, id, v, x);
    }
  }

  lemma {:induction false} GrantIsFair(s: Story, t: Story, id: NodeId, v: Victory, x: NodeId)
    requires id in s.cl.machines && s.cl.machines[id].state.role.Candidate?
    requires v.leader == id && v.term == s.cl.machines[id].state.term && v.last == LastOf(s.cl.machines[id].state)
    requires HasGrant(s.grants, x, v.term, id) && s.grants <= t.grants && t.forged == s.forged
    requires forall g | g in s.grants :: GrantOk(g, s)
    ensures FairGrant(v, x, t)
  {
    var g :| g in s.grants && g.voter == x && g.term == v.term && g.cand == id;
    assert GrantOk(g, s) && g in t.grants;
  }

  lemma {:induction false} OldVictoryOk(v: Victory, s: Story, t: Story)
    requires VictoryOk(v, s) && s.grants <= t.grants && s.forged <= t.forged
    ensures VictoryOk(v, t)
  {
    forall x | x in v.votes && x != v.leader ensures FairGrant(v, x, t) {
      assert FairGrant(v, x, s);
      var g :| g in s.grants && g.voter == x && g.term == v.term && g.cand == v.leader
        && (NoFresherThan(g.voterLast, g.candLast) || g.voterEmpty) && ((v.leader, v.term) !in s.forged ==> g.candLast == v.last);
      assert g in t.grants;
    }
  }

  lemma {:induction false} MovesOk(s: Story, id: NodeId, r: Reaction, grants: set<Granted>, heard: set<NodeId>)
    requires StoryOk(s) && id in s.cl.machines && Reacts(s, id, r, grants, heard)
    ensures StoryOk(Moves(s, id, r, grants))
  {
    hide Execute, Sends, HasGrant, Held, Grant, Steady, AskOk, GrantOk, CountOk, VictoryOk, Counted, Honest, Ids, Reacts;
    var t := Moves(s, id, r, grants);
    MovesAsks(s, id, r, grants, heard);
    MovesCounts(s, id, r, grants, heard);
    forall v | v in t.victories ensures VictoryOk(v, t) {
      if v in s.victories { OldVictoryOk(v, s, t); } else { NewVictoryOk(s, id, r, grants, heard, v); }
    }
    forall w | w in t.cl.wins ensures exists v :: v in t.victories && v.leader == w.leader && v.term == w.term && v.votes == w.votes {
      if w in s.cl.wins {
        var v :| v in s.victories && v.leader == w.leader && v.term == w.term && v.votes == w.votes;
        assert v in t.victories;
      } else {
        assert Victory(id, r.state.term, r.state.votes, LastOf(s.cl.machines[id].state)) in t.victories;
      }
    }
  }

  lemma {:induction false} InjectOk(s: Story, p: Packet)
    requires StoryOk(s) && !Grant(p)
    ensures StoryOk(Told(s, Injected(p)))
  {
    hide HasGrant, Honest, CountOk, FairGrant;
    var t := Told(s, Injected(p));
    forall q | q in t.cl.net ensures AskOk(q, t) { assert q in s.cl.net ==> AskOk(q, s); }
    forall g | g in t.grants ensures GrantOk(g, t) { assert GrantOk(g, s); }
    forall v | v in t.victories ensures VictoryOk(v, t) { OldVictoryOk(v, s, t); }
  }

  /** A vote that was granted was granted with the log check passed. */
  lemma {:induction false} GrantChecked(s: Story, p: Packet)
    requires p in s.cl.net && p.to in s.cl.machines && AskOk(p, s)
    ensures forall g | g in NewGrants(p.to, s.cl.machines[p.to].state, p.envelope) ::
      && (NoFresherThan(g.voterLast, g.candLast) || g.voterEmpty)
      && ((g.cand, g.term) !in s.forged ==> Honest(s.cl.machines, g.cand, g.term, g.candLast))
  {
    hide Honest, HasGrant;
  }

  lemma {:induction false} DeliverOk(voters: seq<VoterInfo>, s: Story, p: Packet)
    requires Inv(voters, s.cl) && StoryOk(s) && p in s.cl.net && p.to in s.cl.machines
    ensures StoryOk(Told(s, Delivered(p)))
  {
    hide StoryOk, OnRpc, Steady, Counted, NewGrants, Honest, Sends, Mirrored, OneVote, WinOk, Covers, Held, Moved, HasGrant, NewVictories, PacketOk;
    var id, m := p.to, s.cl.machines[p.to];
    assert MachineOk(voters, id, m, s.cl.votes, s.cl.wins);
    var r := OnRpc(id, m.state, p.envelope);
    RpcSteady(id, m.state, p.envelope);
    RpcSound(id, m.state, m.stores, p.envelope);
    AskOf(s, p);
    GrantChecked(s, p);
    var heard := Heard(m.state, p.envelope);
    assert forall x | x in heard :: HasGrant(s.grants, x, m.state.term, id);
    MovesOk(s, id, r, NewGrants(id, m.state, p.envelope), heard);
    DeliveredMoves(s, p);
  }

  lemma {:induction false} DeliveredMoves(s: Story, p: Packet)
    requires p in s.cl.net && p.to in s.cl.machines
    ensures var st := s.cl.machines[p.to].state;
      Told(s, Delivered(p)) == Moves(s, p.to, OnRpc(p.to, st, p.envelope), NewGrants(p.to, st, p.envelope))
  {
    hide OnRpc, NewGrants, NewVictories, Execute, Sends, Held, Newly;
  }

  lemma {:induction false} TimerMoves(s: Story, ev: Event)
    requires (ev.TimedOut? || ev.CheckedQuorum?) && ev.id in s.cl.machines
    ensures var st := s.cl.machines[ev.id].state;
      Told(s, ev) == Moves(s, ev.id, if ev.TimedOut? then OnElectionTimeout(ev.id, st) else OnCheckQuorum(st, ev.passed), {})
  {
    hide OnElectionTimeout, OnCheckQuorum, NewVictories, Execute, Sends, Held, Newly;
    assert s.grants + {} == s.grants;
  }

  lemma {:induction false} AskOf(s: Story, p: Packet)
    requires StoryOk(s) && p in s.cl.net
    ensures AskOk(p, s)
  {
    hide AskOk, GrantOk, CountOk, VictoryOk;
  }

  lemma {:induction false} TimerOk(voters: seq<VoterInfo>, s: Story, ev: Event)
    requires Inv(voters, s.cl) && StoryOk(s) && (ev.TimedOut? || ev.CheckedQuorum?) && ev.id in s.cl.machines
    ensures StoryOk(Told(s, ev))
  {
    hide StoryOk, OnElectionTimeout, OnCheckQuorum, Steady, Counted, Honest, Sends, Mirrored, OneVote, WinOk, Covers, Held, Moved, HasGrant,
      NewVictories, PacketOk, Grant;
    var id, m := ev.id, s.cl.machines[ev.id];
    assert MachineOk(voters, id, m, s.cl.votes, s.cl.wins);
    var r := if ev.TimedOut? then OnElectionTimeout(id, m.state) else OnCheckQuorum(m.state, ev.passed);
    if ev.TimedOut? {
      TimeoutSteady(id, m.state);
      TimeoutSound(id, m.state, m.stores);
    } else {
      CheckSteady(id, m.state, ev.passed);
      CheckSound(id, m.state, m.stores, ev.passed);
    }
    MovesOk(s, id, r, {}, {});
    TimerMoves(s, ev);
  }

  lemma {:induction false} TellOk(voters: seq<VoterInfo>, s: Story, ev: Event)
    requires Inv(voters, s.cl) && StoryOk(s)
    ensures StoryOk(Tell(s, ev))
  {
    hide StoryOk, Inv, Told, Grant;
    if Enabled(s.cl, ev) {
      match ev {
        case TimedOut(_) => TimerOk(voters, s, ev);
        case CheckedQuorum(_, _) => TimerOk(voters, s, ev);
        case Delivered(p) => DeliverOk(voters, s, p);
        case Injected(p) => InjectOk(s, p);
      }
    }
  }

  // ---- The restriction ----

  lemma {:induction false} RunStory(voters: seq<VoterInfo>, cl: Cluster, evs: seq<Event>)
    requires Init(voters, cl)
    ensures StoryOk(Telling(Story(cl, {}, {}, {}), evs))
    decreases |evs|
  {
    hide Tell, Inv, Duplicates, LogMirrored, Honest, HasGrant, FairGrant;
    var s := Story(cl, {}, {}, {});
    if evs != [] {
      hide StoryOk;
      var front := evs[..|evs| - 1];
      RunStory(voters, cl, front);
      TellsRun(s, front);
      RunInv(voters, cl, front);
      TellOk(voters, Telling(s, front), evs[|evs| - 1]);
    }
  }

  /**
   Every vote behind a win, the winner's own aside, was given by a voter whose
   log was empty or no fresher than the request claimed; and unless someone
   injected a request for that candidate and term, the claim is the log the
   winner won with.
   */
  lemma {:induction false} ElectionRestriction(voters: seq<VoterInfo>, cl: Cluster, evs: seq<Event>, w: Win) returns (v: Victory)
    requires Init(voters, cl) && w in Run(cl, evs).wins
    ensures var s := Telling(Story(cl, {}, {}, {}), evs);
      && v in s.victories && v.leader == w.leader && v.term == w.term && v.votes == w.votes
      && forall x | x in w.votes :: x == w.leader || FairGrant(v, x, s)
  {
    hide Telling, Run, Init, AskOk, GrantOk, CountOk, FairGrant;
    var s := Telling(Story(cl, {}, {}, {}), evs);
    RunStory(voters, cl, evs);
    TellsRun(Story(cl, {}, {}, {}), evs);
    v :| v in s.victories && v.leader == w.leader && v.term == w.term && v.votes == w.votes;
    assert VictoryOk(v, s);
  }
}
