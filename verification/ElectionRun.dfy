/** A cluster of voters electing leaders over a network that loses, repeats and reorders, with crashes. */
module ElectionRun {
  import opened Types
  import opened LogSpec
  import opened RaftSpec

  /** What every bootstrap of the cluster is given. */
  datatype Setup = Setup(clusterId: nat, voters: seq<VoterInfo>, codec: VotersCodec)

  ghost predicate Sensible(s: Setup) {
    s.clusterId != NIL && !Duplicates(s.voters) && Faithful(s.codec)
  }

  datatype Proc = Proc(up: Option<Node>, stores: Stores)

  /** A vote made durable: who voted in which term for whom, and how up to date both logs were. */
  datatype Ballot = Ballot(voter: NodeId, term: Term, cand: NodeId, voterLast: Freshness, candLast: Freshness)

  /** A durable vote for oneself, and the log it was cast with. */
  datatype Candidacy = Candidacy(cand: NodeId, term: Term, log: Log)

  /** A node becoming leader: the votes it had and the log it had. */
  datatype Win = Win(leader: NodeId, term: Term, votes: set<NodeId>, log: Log)

  /**
   Everything of note that has happened. A node is stuck in a term once it failed
   to roll back its leader-change entry of that term, doubled once it kept
   another entry in such a term, and touched once something other than an
   election changed its log.
   */
  datatype History = History(
    ballots: set<Ballot>, runs: set<Candidacy>, wins: set<Win>,
    stuck: set<(NodeId, Term)>, doubled: set<NodeId>, touched: set<NodeId>)

  /** The packets are all that were ever sent: delivery takes any, any number of times, or never. */
  datatype Cluster = Cluster(procs: map<NodeId, Proc>, net: set<Packet>, h: History)

  datatype Event =
    | Bootstrapped(id: NodeId)
    | TimedOut(id: NodeId, io: Storage)
    | Delivered(packet: Packet, io: Storage)
    | Forged(packet: Packet)
    | Crashed(id: NodeId)
    | Restarted(id: NodeId)
    | Replicated(id: NodeId, log: Log)

  predicate Running(cl: Cluster, id: NodeId) {
    id in cl.procs && cl.procs[id].up.Some?
  }

  /** Every voter list recorded in a log is the cluster's. */
  ghost predicate RecordsAre(s: Setup, log: Log) {
    forall i | 0 <= i < |log.entries| && log.entries[i].entryType == VotersRecord ::
      s.codec.decode(log.entries[i].payload).Some? ==> s.codec.decode(log.entries[i].payload).value == s.voters
  }

  /** Pre-vote requests may come from anywhere; a candidate's log is changed by elections alone. */
  ghost predicate Enabled(s: Setup, cl: Cluster, ev: Event) {
    match ev
    case Bootstrapped(id) => Running(cl, id)
    case TimedOut(id, _) => Running(cl, id)
    case Delivered(p, _) => p in cl.net && Running(cl, p.to)
    case Forged(p) => p.envelope.payload.Request? && p.envelope.payload.request.isPreVote
    case Crashed(id) => Running(cl, id)
    case Restarted(id) => id in cl.procs && cl.procs[id].up.None?
    case Replicated(id, log) =>
      Running(cl, id) && !cl.procs[id].up.value.role.Candidate? && RecordsAre(s, log)
  }

  /** The ballot a step made durable, if it wrote a new vote. */
  function NewBallots(id: NodeId, before: Stores, after: Stores, candLast: Freshness): set<Ballot> {
    if after.quorum == before.quorum || after.quorum.None? || after.quorum.value.votedFor.None? then {}
    else {Ballot(id, after.quorum.value.term, after.quorum.value.votedFor.value, LastLogInfo(before.log), candLast)}
  }

  function NewRuns(id: NodeId, before: Stores, after: Stores, standing: bool): set<Candidacy> {
    if !standing || after.quorum == before.quorum || after.quorum.None? then {}
    else {Candidacy(id, after.quorum.value.term, before.log)}
  }

  function NewWins(id: NodeId, before: Proc, e: Effect): set<Win> {
    if e.node.role.Leader? && before.up.Some? && !before.up.value.role.Leader?
    then {Win(id, e.node.term, e.node.votes, before.stores.log)}
    else {}
  }

  /** A handler that failed and yet left its log changed could not roll back. */
  function NewlyStuck(id: NodeId, before: Stores, e: Effect): set<(NodeId, Term)> {
    if e.outcome.Failed? && e.stores.log != before.log then {(id, e.node.term)} else {}
  }

  function Remember(h: History, id: NodeId, before: Proc, e: Effect, candLast: Freshness, standing: bool): History {
    History(
      h.ballots + NewBallots(id, before.stores, e.stores, candLast),
      h.runs + NewRuns(id, before.stores, e.stores, standing),
      h.wins + NewWins(id, before, e),
      h.stuck + NewlyStuck(id, before.stores, e),
      if (id, e.node.term) in h.stuck && e.stores.log != before.stores.log then h.doubled + {id} else h.doubled,
      h.touched)
  }

  function SentSet(sent: seq<Packet>): set<Packet> {
    set p | p in sent
  }

  /** The cluster after one node ran one handler. */
  function Moved(cl: Cluster, id: NodeId, e: Effect, candLast: Freshness, standing: bool): Cluster
    requires id in cl.procs
  {
    Cluster(
      cl.procs[id := Proc(if e.outcome.Died? then None else Some(e.node), e.stores)],
      cl.net + SentSet(e.sent),
      Remember(cl.h, id, cl.procs[id], e, candLast, standing))
  }

  function AskedLast(env: Envelope): Freshness {
    if env.payload.Request? then CandidateLast(env.payload.request) else Freshness(0, 0)
  }

  function Effective(s: Setup, cl: Cluster, ev: Event): Cluster
    requires Enabled(s, cl, ev)
  {
    match ev
    case Bootstrapped(id) =>
      var p := cl.procs[id];
      Moved(cl, id, Bootstrap(id, p.up.value, p.stores, s.clusterId, s.voters), Freshness(0, 0), false)
    case TimedOut(id, io) =>
      var p := cl.procs[id];
      Moved(cl, id, ElectionTimeout(s.codec, id, p.up.value, p.stores, io), LastLogInfo(p.stores.log), true)
    case Delivered(packet, io) =>
      var p := cl.procs[packet.to];
      Moved(cl, packet.to, OnRpc(s.codec, packet.to, p.up.value, p.stores, packet.envelope, io),
            AskedLast(packet.envelope), false)
    case Forged(packet) => cl.(net := cl.net + {packet})
    case Crashed(id) => cl.(procs := cl.procs[id := Proc(None, cl.procs[id].stores)])
    case Restarted(id) =>
      cl.(procs := cl.procs[id := Proc(Some(Start(s.codec, cl.procs[id].stores)), cl.procs[id].stores)])
    case Replicated(id, log) =>
      var p := cl.procs[id];
      cl.(procs := cl.procs[id := Proc(p.up, p.stores.(log := log))], h := cl.h.(touched := cl.h.touched + {id}))
  }

  /** All processes down with empty stores, or with a snapshot of the cluster's voter list. */
  ghost predicate Init(s: Setup, cl: Cluster) {
    && cl.procs.Keys == Ids(s.voters)
    && (forall id | id in cl.procs :: cl.procs[id].up.None? && cl.procs[id].stores.log == Log(0, [])
          && cl.procs[id].stores.quorum.None?
          && (cl.procs[id].stores.snapshot.Some? ==> cl.procs[id].stores.snapshot.value.voters == s.voters))
    && cl.net == {} && cl.h == History({}, {}, {}, {}, {}, {})
  }

  /** An event that cannot happen now changes nothing. */
  ghost function Step(s: Setup, cl: Cluster, ev: Event): Cluster {
    if Enabled(s, cl, ev) then Effective(s, cl, ev) else cl
  }

  /** The cluster after a run of events. */
  ghost function Run(s: Setup, cl: Cluster, evs: seq<Event>): Cluster
    decreases |evs|
  {
    if evs == [] then cl else Step(s, Run(s, cl, evs[..|evs| - 1]), evs[|evs| - 1])
  }

  // ---- What every reachable cluster satisfies ----

  /** Some durable ballot of this voter in this term went to this candidate. */
  ghost predicate Cast(ballots: set<Ballot>, voter: NodeId, term: Term, cand: NodeId) {
    exists b :: b in ballots && b.voter == voter && b.term == term && b.cand == cand
  }

  ghost predicate Ran(runs: set<Candidacy>, cand: NodeId, term: Term, last: Freshness) {
    exists r :: r in runs && r.cand == cand && r.term == term && LastLogInfo(r.log) == last
  }

  ghost predicate Won(wins: set<Win>, leader: NodeId, term: Term) {
    exists w :: w in wins && w.leader == leader && w.term == term
  }

  /** Memory is at least as new as the stored term, and keeps a stored vote of its own term. */
  predicate Agrees(node: Node, q: Option<QuorumState>) {
    q.Some? ==>
      && q.value.term <= node.term
      && (q.value.term == node.term && q.value.votedFor.Some? ==> node.votedFor == q.value.votedFor)
  }

  /** A stored vote is never given up within its term, and the stored term never falls. */
  predicate Forward(q: Option<QuorumState>, r: Option<QuorumState>) {
    q.Some? ==>
      && r.Some? && q.value.term <= r.value.term
      && (q.value.term == r.value.term && q.value.votedFor.Some? ==> r.value.votedFor == q.value.votedFor)
  }

  predicate Covers(q: Option<QuorumState>, b: Ballot) {
    q.Some? && (b.term < q.value.term || (b.term == q.value.term && q.value.votedFor == Some(b.cand)))
  }

  ghost predicate StoredCast(id: NodeId, q: Option<QuorumState>, ballots: set<Ballot>) {
    q.Some? && q.value.votedFor.Some? ==> Cast(ballots, id, q.value.term, q.value.votedFor.value)
  }

  /** A candidate counts only votes that were cast for it in its term. */
  ghost predicate VotesCast(voters: seq<VoterInfo>, id: NodeId, node: Node, ballots: set<Ballot>) {
    node.role.Candidate? ==>
      node.votes <= Ids(voters) && forall x | x in node.votes :: x == id || Cast(ballots, x, node.term, id)
  }

  ghost predicate Extends(a: Log, b: Log) {
    a.start == b.start && a.entries <= b.entries
  }

  /** While a node stands for election its log stays what it asked with, unless a rollback fails. */
  ghost predicate Standing(id: NodeId, node: Node, log: Log, h: History) {
    node.role.Candidate? ==>
      && !Won(h.wins, id, node.term)
      && forall r | r in h.runs && r.cand == id && r.term == node.term ::
           Extends(r.log, log) && (r.log == log <==> (id, node.term) !in h.stuck)
  }

  ghost predicate ConfigKept(s: Setup, p: Proc) {
    && RecordsAre(s, p.stores.log)
    && (p.stores.snapshot.Some? ==> p.stores.snapshot.value.voters == s.voters)
    && (p.up.Some? ==> p.up.value.voters == s.voters || p.up.value.voters == [])
  }

  ghost predicate NodeOk(s: Setup, id: NodeId, p: Proc, h: History) {
    && id in Ids(s.voters)
    && StoredCast(id, p.stores.quorum, h.ballots)
    && ConfigKept(s, p)
    && (p.up.Some? ==>
          && Agrees(p.up.value, p.stores.quorum)
          && VotesCast(s.voters, id, p.up.value, h.ballots)
          && Standing(id, p.up.value, p.stores.log, h)
          && (p.up.value.role.Leader? ==> Won(h.wins, id, p.up.value.term)))
  }

  /** Real requests come from candidacies; granted votes were cast for the node they are sent to. */
  ghost predicate PacketOk(p: Packet, h: History) {
    match p.envelope.payload
    case Request(req) => !req.isPreVote ==>
      p.envelope.source == req.candidateId && Ran(h.runs, req.candidateId, req.term, CandidateLast(req))
    case Response(resp) => resp.voteGranted && !resp.isPreVote ==>
      Cast(h.ballots, p.envelope.source, resp.term, p.to) && Cast(h.ballots, p.to, resp.term, p.to)
    case OtherRpc => true
  }

  ghost predicate Stored(procs: map<NodeId, Proc>, ballots: set<Ballot>) {
    forall b | b in ballots :: b.voter in procs && Covers(procs[b.voter].stores.quorum, b)
  }

  /** One vote per voter and term. */
  ghost predicate OneVote(ballots: set<Ballot>) {
    forall a, b | a in ballots && b in ballots && a.voter == b.voter && a.term == b.term :: a.cand == b.cand
  }

  ghost predicate BallotOk(b: Ballot, runs: set<Candidacy>) {
    NoFresherThan(b.voterLast, b.candLast) && Ran(runs, b.cand, b.term, b.candLast)
  }

  ghost predicate RunsOnce(runs: set<Candidacy>) {
    forall a, b | a in runs && b in runs && a.cand == b.cand && a.term == b.term :: a == b
  }

  ghost predicate RunsCast(h: History) {
    forall r | r in h.runs :: Cast(h.ballots, r.cand, r.term, r.cand)
  }

  /** The log a node won with extends the one it asked with, and is that one unless a rollback failed in between. */
  ghost predicate AskedWith(w: Win, h: History) {
    exists r :: r in h.runs && r.cand == w.leader && r.term == w.term
      && Extends(r.log, w.log) && (r.log == w.log <==> (w.leader, w.term) !in h.stuck)
  }

  /** The node stood in the term. */
  ghost predicate Tried(runs: set<Candidacy>, id: NodeId, term: Term) {
    exists r :: r in runs && r.cand == id && r.term == term
  }

  ghost predicate WinOk(s: Setup, w: Win, h: History) {
    && w.votes <= Ids(s.voters) && 2 * |w.votes| > |Ids(s.voters)|
    && (forall x | x in w.votes :: Cast(h.ballots, x, w.term, w.leader))
    && AskedWith(w, h)
  }

  ghost predicate HistoryOk(s: Setup, h: History) {
    && OneVote(h.ballots) && (forall b | b in h.ballots :: BallotOk(b, h.runs))
    && RunsOnce(h.runs) && RunsCast(h)
    && (forall x | x in h.stuck :: Tried(h.runs, x.0, x.1))
    && (forall w | w in h.wins :: WinOk(s, w, h))
  }

  ghost predicate Inv(s: Setup, cl: Cluster) {
    && (forall id | id in cl.procs :: NodeOk(s, id, cl.procs[id], cl.h))
    && (forall p | p in cl.net :: PacketOk(p, cl.h))
    && Stored(cl.procs, cl.h.ballots)
    && HistoryOk(s, cl.h)
  }
}
