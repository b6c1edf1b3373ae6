/**
 Whole runs of a follower: any sequence of messages, honest or not, and of
 clients parking completions. A run stops at the first failed commit notification.
 */
module ReplicationRun {
  import opened Types
  import opened Replication
  import LogSpec
  import E = LeaderEpochs
  import Q = DeferredCompletion

  datatype Event = Deliver(m: Envelope, rejects: set<Offset>) | ParkClient(ticket: Q.Ticket)

  /**
   A follower, the durable log and quorum state its I/O actions have built,
   whether a commit notification has failed, the (term, leader) pairs whose
   responses passed validation, the lowest point the log was cut to, and every
   ticket parked so far.
   */
  datatype World = World(
    follower: Follower, durable: Log, stored: QuorumState, halted: bool, accepted: set<(Term, NodeId)>,
    lowest: Option<Offset>, parked: seq<Q.Ticket>)

  /** Where a run began. */
  datatype Origin = Origin(start: Offset, hw: Offset, voters: seq<VoterInfo>)

  /** The stored quorum state after a batch. */
  function StoredAfter(stored: QuorumState, batch: seq<IoAction>): QuorumState
    decreases |batch|
  {
    if batch == [] then stored
    else if batch[|batch| - 1].PersistQuorumState? then batch[|batch| - 1].state
    else StoredAfter(stored, batch[..|batch| - 1])
  }

  /** The lowest cut so far after a batch. */
  function LowestAfter(lowest: Option<Offset>, batch: seq<IoAction>): Option<Offset>
    decreases |batch|
  {
    if batch == [] then lowest
    else
      var rest := LowestAfter(lowest, batch[..|batch| - 1]);
      match batch[|batch| - 1]
      case TruncateSuffix(from) => Some(if rest.None? then from else Min(rest.value, from))
      case _ => rest
  }

  /** The durable log after the log actions of a batch, in batch order. */
  function Replay(log: Log, batch: seq<IoAction>): Log
    decreases |batch|
  {
    if batch == [] then log
    else
      var rest := Replay(log, batch[..|batch| - 1]);
      match batch[|batch| - 1]
      case AppendLog(es) => rest.Append(es)
      case TruncateSuffix(from) => rest.TruncateSuffix(from)
      case _ => rest
  }

  /** Errors raised by the commit notification; the node halts on them. */
  predicate Halts(e: Error) {
    e.ApplyError? || e == InvalidResponse(VotersUndecodable)
  }

  predicate Admitted(f: Follower, m: Envelope) {
    && m.clusterId == f.node.clusterId && m.payload.Fetched?
    && m.source == m.payload.response.leaderId
    && Validate(f.node, m.payload.response).Accepted?
  }

  function Received(w: World, m: Envelope, s: StepResult): World {
    World(s.follower,
          if s.outcome.Ok? then Replay(w.durable, s.outcome.batch) else w.durable,
          if s.outcome.Ok? then StoredAfter(w.stored, s.outcome.batch) else w.stored,
          s.outcome.Err? && Halts(s.outcome.error),
          if Admitted(w.follower, m)
          then w.accepted + {(m.payload.response.leaderEpoch, m.payload.response.leaderId)} else w.accepted,
          if s.outcome.Ok? then LowestAfter(w.lowest, s.outcome.batch) else w.lowest,
          w.parked)
  }

  function Step(w: World, ev: Event, decode: VotersDecoder): World {
    if w.halted then w
    else match ev
      case Deliver(m, rejects) => Received(w, m, HandleMessage(w.follower, m, decode, rejects))
      case ParkClient(t) =>
        w.(follower := w.follower.(queue := Q.Park(w.follower.queue, t)), parked := w.parked + [t])
  }

  function Run(w: World, evs: seq<Event>, decode: VotersDecoder): World
    decreases |evs|
  {
    if evs == [] then w else Step(Run(w, evs[..|evs| - 1], decode), evs[|evs| - 1], decode)
  }

  /** Clients park at offsets that are not committed yet. */
  predicate FairPark(w: World, ev: Event) {
    ev.ParkClient? && !w.halted ==> ev.ticket.offset >= w.follower.node.hw
  }

  ghost predicate FairRun(w: World, evs: seq<Event>, decode: VotersDecoder) {
    forall i | 0 <= i < |evs| :: FairPark(Run(w, evs[..i], decode), evs[i])
  }

  function Committed(f: Follower, from: Offset): seq<LogEntry> {
    f.node.log.Read(from, f.node.hw)
  }

  /** The voters of the latest decodable record among some entries, or the given ones. */
  function LastVoters(base: seq<VoterInfo>, es: seq<LogEntry>, decode: VotersDecoder): seq<VoterInfo> {
    match LatestVoters(decode, es) case Some(voters) => voters case None => base
  }

  function Flatten(batches: seq<seq<Applied>>): seq<Applied> {
    if batches == [] then [] else Flatten(batches[..|batches| - 1]) + batches[|batches| - 1]
  }

  // ---- The invariant, piece by piece ----

  ghost predicate LogSound(o: Origin, f: Follower) {
    && f.node.log.Contiguous()
    && f.node.log.start == o.start <= o.hw <= f.node.hw <= f.node.log.End()
  }

  /** Everything the application was told, and what the node derived from it, matches the committed entries. */
  ghost predicate CommitExact(o: Origin, f: Follower, decode: VotersDecoder) {
    && f.app.applied == Commands(Committed(f, o.hw))
    && Flatten(f.app.batches) == f.app.applied
    && f.node.voterSet == LastVoters(o.voters, Committed(f, o.hw), decode)
  }

  ghost predicate FiredSound(o: Origin, f: Follower) {
    && Q.OffsetOrdered(f.queue.fired)
    && (forall t | t in f.queue.fired :: o.hw <= t.offset < f.node.hw)
    && (forall t | t in f.queue.fired :: IsApplied(f, t.offset))
  }

  /** The entry at the offset, if it is a command, was applied. */
  ghost predicate IsApplied(f: Follower, at: Offset) {
    match f.node.log.EntryAt(at)
    case None => false
    case Some(e) => e.entryType == Command ==> Applied(at, e.payload) in f.app.applied
  }

  ghost predicate PendingSound(f: Follower) {
    forall k | k in f.queue.pending :: k >= f.node.hw
  }

  ghost predicate Counted(f: Follower, parked: seq<Q.Ticket>) {
    forall t :: Q.Accounted(f.queue, t) == Occurrences(parked, t)
  }

  ghost predicate LeadersUnique(w: World) {
    && (forall p | p in w.accepted :: p.0 <= w.follower.node.term)
    && (forall p | p in w.accepted && p.0 == w.follower.node.term :: w.follower.node.leaderId == Some(p.1))
    && (forall p, q | p in w.accepted && q in w.accepted && p.0 == q.0 :: p.1 == q.1)
  }

  ghost predicate PendingChangeSound(f: Follower) {
    f.node.pendingChange.Some? ==> f.node.pendingChange.value.offset < f.node.log.End()
  }

  ghost predicate Inv(o: Origin, w: World, decode: VotersDecoder) {
    && LogSound(o, w.follower)
    && FiredSound(o, w.follower)
    && Counted(w.follower, w.parked)
    && LeadersUnique(w)
    && PendingChangeSound(w.follower)
    && w.follower.app.applied <= Commands(Committed(w.follower, o.hw))
    && (!w.halted ==>
          && CommitExact(o, w.follower, decode)
          && PendingSound(w.follower)
          && w.durable == w.follower.node.log)
  }

  /** A run starts with a sound follower that has told the application nothing yet. */
  ghost predicate Init(w: World) {
    var f := w.follower;
    && f.node.log.Contiguous() && f.node.log.start <= f.node.hw <= f.node.log.End()
    && f.app.applied == [] && f.app.batches == []
    && f.queue == Q.Queue(map[], [], [])
    && PendingChangeSound(f)
    && w.durable == f.node.log && !w.halted && w.accepted == {} && w.lowest == None && w.parked == []
  }

  function OriginOf(w: World): Origin {
    Origin(w.follower.node.log.start, w.follower.node.hw, w.follower.node.voterSet)
  }

  lemma {:induction false} InitInv(w: World, decode: VotersDecoder)
    requires Init(w)
    ensures Inv(OriginOf(w), w, decode)
  {
  }

  // ---- Facts about slices, commands and voters ----

  lemma {:induction false} ReadSplit(log: Log, a: Offset, b: Offset, c: Offset)
    requires log.start <= a <= b <= c <= log.End()
    ensures log.Read(a, c) == log.Read(a, b) + log.Read(b, c)
  {
  }

  lemma {:induction false} AppendKeepsRead(log: Log, es: seq<LogEntry>, a: Offset, b: Offset)
    requires log.start <= a <= b <= log.End()
    ensures log.Append(es).Read(a, b) == log.Read(a, b)
  {
  }

  lemma {:induction false} CutKeepsRead(log: Log, cut: Offset, a: Offset, b: Offset)
    requires log.start <= a <= b <= cut <= log.End()
    ensures log.TruncateSuffix(cut).Read(a, b) == log.Read(a, b)
  {
    LogSpec.SliceOfFront(log.entries, cut - log.start, a - log.start, b - log.start);
    if cut == log.End() { assert log.entries[..cut - log.start] == log.entries; }
  }

  lemma {:induction false} CommandsConcat(a: seq<LogEntry>, b: seq<LogEntry>)
    ensures Commands(a + b) == Commands(a) + Commands(b)
    decreases |b|
  {
    if b == [] {
      assert a + b == a;
    } else {
      assert (a + b)[..|a + b| - 1] == a + b[..|b| - 1];
      CommandsConcat(a, b[..|b| - 1]);
    }
  }

  lemma {:induction false} VotersConcat(base: seq<VoterInfo>, a: seq<LogEntry>, b: seq<LogEntry>, decode: VotersDecoder)
    ensures LastVoters(base, a + b, decode) == LastVoters(LastVoters(base, a, decode), b, decode)
    decreases |b|
  {
    if b == [] {
      assert a + b == a;
    } else {
      assert (a + b)[..|a + b| - 1] == a + b[..|b| - 1];
      VotersConcat(base, a, b[..|b| - 1], decode);
    }
  }

  /** Every command among some entries shows up in their command list. */
  lemma {:induction false} CommandListed(es: seq<LogEntry>, i: nat)
    requires i < |es| && es[i].entryType == Command
    ensures Applied(es[i].offset, es[i].payload) in Commands(es)
    decreases |es|
  {
    if i < |es| - 1 { CommandListed(es[..|es| - 1], i); }
  }

  // ---- Applying committed entries ----

  ghost predicate SameButDerived(a: NodeState, b: NodeState) {
    b == a.(voterSet := b.voterSet, pendingChange := b.pendingChange, epochs := b.epochs)
  }

  /** What applying entries does to the node and the application, with and without an error. */
  lemma {:induction false} AppliedEntries(c: Commit, es: seq<LogEntry>, decode: VotersDecoder, rejects: set<Offset>)
    requires c.error.None?
    ensures var d := ApplyEntries(c, es, decode, rejects);
      && SameButDerived(c.node, d.node)
      && (d.node.pendingChange == c.node.pendingChange || d.node.pendingChange == None)
      && d.app.batches == c.app.batches
      && (d.error.None? ==>
            && d.app.applied == c.app.applied + Commands(es)
            && d.node.voterSet == LastVoters(c.node.voterSet, es, decode)
            && d.node.epochs == E.Overwriting(c.node.epochs, es))
      && (d.error.Some? ==> Halts(d.error.value))
      && c.app.applied <= d.app.applied <= c.app.applied + Commands(es)
    decreases |es|
  {
    if es != [] {
      AppliedEntries(c, es[..|es| - 1], decode, rejects);
    }
  }
}
