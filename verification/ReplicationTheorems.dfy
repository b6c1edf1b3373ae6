/** The follower's promises over whole runs. */
module ReplicationTheorems {
  import opened Types
  import opened Replication
  import opened ReplicationRun
  import opened ReplicationSafety
  import Q = DeferredCompletion

  // ---- The invariant holds in every run ----

  /** What a delivered message leaves behind, whichever part of the pipeline it reached. */
  ghost predicate Delivered(o: Origin, w: World, s: StepResult, decode: VotersDecoder) {
    && Always(o, s.follower, w.parked)
    && (s.outcome.Ok? || !Halts(s.outcome.error) ==> Quietly(o, s.follower, w.parked, decode))
    && (s.outcome.Ok? ==> Replay(w.follower.node.log, s.outcome.batch) == s.follower.node.log)
    && (s.outcome.Err? && !Halts(s.outcome.error) ==> s.follower.node.log == w.follower.node.log)
  }

  lemma {:induction false} DeliverData(o: Origin, w: World, m: Envelope, decode: VotersDecoder, rejects: set<Offset>)
    requires Quietly(o, w.follower, w.parked, decode)
    ensures Delivered(o, w, HandleMessage(w.follower, m, decode, rejects), decode)
  {
    hide Quietly, Delivered, HandleMessage, Classify, SameData, OnEntries, OnDivergence;
    var f := w.follower;
    Classified(f, m, decode, rejects);
    match Classify(f, m)
    case Quiet => QuietDelivered(o, w, HandleMessage(f, m, decode, rejects), decode);
    case Cutting(g, d, persist) => CutDelivered(o, w, g, d, persist, decode);
    case Growing(g, r, persist) => EntriesDelivered(o, w, g, r, persist, decode, rejects);
  }

  lemma {:induction false} QuietlyAlways(o: Origin, f: Follower, parked: seq<Q.Ticket>, decode: VotersDecoder)
    requires Quietly(o, f, parked, decode)
    ensures Always(o, f, parked)
  {
    hide LogSound, FiredSound, Counted, PendingSound, PendingChangeSound, Commands, Committed;
  }

  lemma {:induction false} QuietDelivered(o: Origin, w: World, s: StepResult, decode: VotersDecoder)
    requires Quietly(o, w.follower, w.parked, decode) && SameData(w.follower, s.follower)
    requires s.outcome.Err? ==> !Halts(s.outcome.error)
    requires s.outcome.Ok? ==> forall log :: Replay(log, s.outcome.batch) == log
    ensures Delivered(o, w, s, decode)
  {
    hide Quietly, Always, Replay, Halts;
    QuietSound(o, w.follower, s.follower, w.parked, decode);
    QuietlyAlways(o, s.follower, w.parked, decode);
  }

  lemma {:induction false} CutDelivered(o: Origin, w: World, g: Follower, d: DivergingEpoch, persist: Option<QuorumState>,
                     decode: VotersDecoder)
    requires Quietly(o, w.follower, w.parked, decode) && SameData(w.follower, g)
    ensures Delivered(o, w, OnDivergence(g, d, persist), decode)
  {
    hide Quietly, Always, Replay, Halts, OnDivergence;
    QuietSound(o, w.follower, g, w.parked, decode);
    CutSound(o, g, d, persist, w.parked, decode);
    QuietlyAlways(o, OnDivergence(g, d, persist).follower, w.parked, decode);
  }

  lemma {:induction false} EntriesDelivered(o: Origin, w: World, g: Follower, r: FetchResponse, persist: Option<QuorumState>,
                         decode: VotersDecoder, rejects: set<Offset>)
    requires Quietly(o, w.follower, w.parked, decode) && SameData(w.follower, g)
    ensures Delivered(o, w, OnEntries(g, r, persist, decode, rejects), decode)
  {
    hide Quietly, Always, Replay, Halts, OnEntries;
    QuietSound(o, w.follower, g, w.parked, decode);
    EntriesSound(o, g, r, persist, w.parked, decode, rejects);
  }

  /** Handling a message leaves the term and leader that validation chose. */
  lemma {:induction false} DeliverLeader(f: Follower, m: Envelope, decode: VotersDecoder, rejects: set<Offset>)
    ensures LeaderChosen(f, m, HandleMessage(f, m, decode, rejects).follower)
  {
    Classified(f, m, decode, rejects);
    match Classify(f, m)
    case Quiet =>
    case Cutting(_, _, _) =>
    case Growing(g, r, persist) => EntriesKeepLeader(g, r, persist, decode, rejects);
  }

  lemma {:induction false} EntriesKeepLeader(f: Follower, r: FetchResponse, persist: Option<QuorumState>, decode: VotersDecoder,
                          rejects: set<Offset>)
    ensures var n := OnEntries(f, r, persist, decode, rejects).follower.node;
      n.term == f.node.term && n.leaderId == f.node.leaderId
  {
    var log := if r.entries == [] then f.node.log else f.node.log.Append(r.entries);
    var newHw := Min(r.highWatermark, log.End());
    var n := f.node.(log := log, hw := newHw);
    AppliedEntries(Commit(n, f.app, None), log.Read(f.node.hw, newHw), decode, rejects);
  }

  /** The term and leader a message leaves behind are those validation chose. */
  ghost predicate LeaderChosen(f: Follower, m: Envelope, g: Follower) {
    if Admitted(f, m) then
      var n := Validate(f.node, m.payload.response).node;
      g.node.term == n.term && g.node.leaderId == n.leaderId
    else g.node.term == f.node.term && g.node.leaderId == f.node.leaderId
  }

  lemma {:induction false} ReceivedLeaders(w: World, m: Envelope, s: StepResult)
    requires LeadersUnique(w) && LeaderChosen(w.follower, m, s.follower)
    ensures LeadersUnique(Received(w, m, s))
  {
  }

  lemma {:induction false} DeliveredInv(o: Origin, w: World, v: World, s: StepResult, decode: VotersDecoder)
    requires Delivered(o, w, s, decode) && w.durable == w.follower.node.log && LeadersUnique(v)
    requires v.follower == s.follower && v.parked == w.parked
    requires v.halted <==> s.outcome.Err? && Halts(s.outcome.error)
    requires v.durable == if s.outcome.Ok? then Replay(w.durable, s.outcome.batch) else w.durable
    ensures Inv(o, v, decode)
  {
  }

  lemma {:induction false} DeliverInv(o: Origin, w: World, m: Envelope, decode: VotersDecoder, rejects: set<Offset>)
    requires Inv(o, w, decode) && !w.halted
    ensures Inv(o, Step(w, Deliver(m, rejects), decode), decode)
  {
    hide Delivered, HandleMessage, LeadersUnique, LeaderChosen, LogSound, FiredSound, Counted, PendingSound,
      PendingChangeSound, CommitExact, Commands, Committed;
    var s := HandleMessage(w.follower, m, decode, rejects);
    DeliverData(o, w, m, decode, rejects);
    DeliverLeader(w.follower, m, decode, rejects);
    ReceivedLeaders(w, m, s);
    DeliveredInv(o, w, Received(w, m, s), s, decode);
  }

  lemma {:induction false} ParkInv(o: Origin, w: World, t: Q.Ticket, decode: VotersDecoder)
    requires Inv(o, w, decode) && !w.halted && t.offset >= w.follower.node.hw
    ensures Inv(o, Step(w, ParkClient(t), decode), decode)
  {
    var f := w.follower;
    var g := f.(queue := Q.Park(f.queue, t));
    ParkCounted(f, t, w.parked);
    FiredStays(o, f, g);
    assert CommitExact(o, g, decode);
  }

  lemma {:induction false} ParkCounted(f: Follower, t: Q.Ticket, parked: seq<Q.Ticket>)
    requires Counted(f, parked)
    ensures Counted(f.(queue := Q.Park(f.queue, t)), parked + [t])
  {
    forall u ensures Q.Accounted(Q.Park(f.queue, t), u) == Occurrences(parked + [t], u) {
      Q.ParkAccounts(f.queue, t, u);
      Q.OccurrencesConcat(parked, [t], u);
    }
  }

  lemma {:induction false} RunInv(w: World, evs: seq<Event>, decode: VotersDecoder)
    requires Init(w) && FairRun(w, evs, decode)
    ensures Inv(OriginOf(w), Run(w, evs, decode), decode)
    decreases |evs|
  {
    hide Inv, Init, HandleMessage, FairRun;
    if evs == [] {
      InitInv(w, decode);
    } else {
      var n := |evs| - 1;
      FairPrefix(w, evs, n, decode);
      RunInv(w, evs[..n], decode);
      var before := Run(w, evs[..n], decode);
      FairAt(w, evs, n, decode);
      if !before.halted {
        match evs[n]
        case Deliver(m, rejects) => DeliverInv(OriginOf(w), before, m, decode, rejects);
        case ParkClient(t) => ParkInv(OriginOf(w), before, t, decode);
      }
    }
  }

  lemma {:induction false} FairAt(w: World, evs: seq<Event>, n: nat, decode: VotersDecoder)
    requires FairRun(w, evs, decode) && n < |evs|
    ensures FairPark(Run(w, evs[..n], decode), evs[n])
  {
  }

  lemma {:induction false} FairPrefix(w: World, evs: seq<Event>, n: nat, decode: VotersDecoder)
    requires FairRun(w, evs, decode) && n <= |evs|
    ensures FairRun(w, evs[..n], decode)
  {
    forall i | 0 <= i < n ensures FairPark(Run(w, evs[..n][..i], decode), evs[..n][i]) {
      assert evs[..n][..i] == evs[..i];
    }
  }

  // ---- Nothing committed is ever taken back ----

  /** The later state has forgotten nothing the earlier one had committed, applied or answered. */
  ghost predicate Later(f: Follower, g: Follower) {
    && f.node.term <= g.node.term && f.node.hw <= g.node.hw
    && f.node.log.start == g.node.log.start
    && g.node.log.Read(f.node.log.start, f.node.hw) == f.node.log.Read(f.node.log.start, f.node.hw)
    && f.app.applied <= g.app.applied
    && f.queue.fired <= g.queue.fired && f.queue.dropped <= g.queue.dropped
  }

  lemma {:induction false} LaterTransitive(f: Follower, g: Follower, h: Follower)
    requires Later(f, g) && Later(g, h)
    requires f.node.log.start <= f.node.hw && g.node.hw <= g.node.log.End() && h.node.hw <= h.node.log.End()
    ensures Later(f, h)
  {
    SameBelow(g.node.log, h.node.log, f.node.hw, g.node.hw);
  }

  /** Logs that agree up to an offset agree up to any earlier one. */
  lemma {:induction false} SameBelow(a: Log, b: Log, x: Offset, y: Offset)
    requires a.start == b.start <= x <= y <= a.End() && y <= b.End() && a.Read(a.start, y) == b.Read(b.start, y)
    ensures a.Read(a.start, x) == b.Read(b.start, x)
  {
    ReadPrefix(a, x, y);
    ReadPrefix(b, x, y);
  }

  lemma {:induction false} ReadPrefix(log: Log, a: Offset, b: Offset)
    requires log.start <= a <= b <= log.End()
    ensures |log.Read(log.start, b)| == b - log.start
    ensures log.Read(log.start, a) == log.Read(log.start, b)[..a - log.start]
  {
    var x, y := a - log.start, b - log.start;
    assert log.entries[0..y] == log.entries[..y] && log.entries[0..x] == log.entries[..x];
    assert log.entries[..y][..x] == log.entries[..x];
  }

  lemma {:induction false} AdvanceLater(f: Follower, leaderHw: Offset, success: Outcome, decode: VotersDecoder, rejects: set<Offset>)
    requires f.node.log.start <= f.node.hw <= f.node.log.End()
    ensures var s := Advance(f, leaderHw, success, decode, rejects);
      Later(f, s.follower) && s.follower.node.hw <= s.follower.node.log.End()
      && s.follower.queue.dropped == f.queue.dropped
  {
    var newHw := Min(leaderHw, f.node.log.End());
    if newHw > f.node.hw {
      var h := f.(node := f.node.(hw := newHw));
      AppliedEntries(Commit(h.node, h.app, None), h.node.log.Read(f.node.hw, newHw), decode, rejects);
    }
  }

  lemma {:induction false} EntriesLater(f: Follower, r: FetchResponse, persist: Option<QuorumState>, decode: VotersDecoder,
                     rejects: set<Offset>)
    requires f.node.log.start <= f.node.hw <= f.node.log.End()
    ensures var s := OnEntries(f, r, persist, decode, rejects);
      Later(f, s.follower) && s.follower.node.hw <= s.follower.node.log.End()
      && s.follower.queue.dropped == f.queue.dropped
  {
    if (r.entries != [] && r.entries[0].offset != f.node.log.End()) || !Consecutive(r.entries) {
    } else if r.entries == [] {
      AdvanceLater(f, r.highWatermark, Ok(Persist(persist), false), decode, rejects);
    } else {
      var g := f.(node := f.node.(log := f.node.log.Append(r.entries)));
      AppendKeepsRead(f.node.log, r.entries, f.node.log.start, f.node.hw);
      var success := Ok([AppendLog(r.entries)] + Persist(persist), false);
      AdvanceLater(g, r.highWatermark, success, decode, rejects);
      LaterTransitive(f, g, Advance(g, r.highWatermark, success, decode, rejects).follower);
    }
  }

  lemma {:induction false} CutLater(f: Follower, d: DivergingEpoch, persist: Option<QuorumState>)
    requires f.node.log.start <= f.node.hw <= f.node.log.End()
    ensures var s := OnDivergence(f, d, persist);
      && Later(f, s.follower) && s.follower.node.hw <= s.follower.node.log.End()
      && s.follower.node.hw == f.node.hw
      && forall i | |f.queue.dropped| <= i < |s.follower.queue.dropped| ::
           s.follower.queue.dropped[i].offset >= f.node.hw
  {
    var cut := Min(d.endOffset, f.node.log.End());
    if f.node.hw <= cut {
      CutKeepsRead(f.node.log, cut, f.node.log.start, f.node.hw);
      FailSound(f.queue, cut);
    }
  }

  /**
   One step never lowers the term or the high watermark, never changes a
   committed entry, and fails only completions of uncommitted offsets.
   */
  lemma {:induction false} StepLater(w: World, ev: Event, decode: VotersDecoder)
    requires w.follower.node.log.start <= w.follower.node.hw <= w.follower.node.log.End()
    ensures var v := Step(w, ev, decode);
      && Later(w.follower, v.follower)
      && v.follower.node.hw <= v.follower.node.log.End()
      && (forall i | |w.follower.queue.dropped| <= i < |v.follower.queue.dropped| ::
            v.follower.queue.dropped[i].offset >= v.follower.node.hw)
  {
    hide HandleMessage, OnDivergence, OnEntries, Classify, Replay;
    if !w.halted && ev.Deliver? {
      var f := w.follower;
      Classified(f, ev.m, decode, ev.rejects);
      DeliverLeader(f, ev.m, decode, ev.rejects);
      match Classify(f, ev.m)
      case Quiet =>
      case Cutting(g, d, persist) => CutLater(g, d, persist);
      case Growing(g, r, persist) => EntriesLater(g, r, persist, decode, ev.rejects);
    }
  }

  ghost predicate Bounded(f: Follower) {
    f.node.log.start <= f.node.hw <= f.node.log.End()
  }

  lemma {:induction false} RunStepLater(w: World, evs: seq<Event>, decode: VotersDecoder)
    requires evs != [] && Bounded(Run(w, evs[..|evs| - 1], decode).follower)
    ensures Later(Run(w, evs[..|evs| - 1], decode).follower, Run(w, evs, decode).follower)
    ensures Bounded(Run(w, evs, decode).follower)
  {
    StepLater(Run(w, evs[..|evs| - 1], decode), evs[|evs| - 1], decode);
  }

  lemma {:induction false} RunBounds(w: World, evs: seq<Event>, decode: VotersDecoder)
    requires Init(w)
    ensures Bounded(Run(w, evs, decode).follower)
    decreases |evs|
  {
    if evs != [] {
      RunBounds(w, evs[..|evs| - 1], decode);
      RunStepLater(w, evs, decode);
    }
  }

  /** Any two points of any run: the later one has forgotten nothing. */
  lemma {:induction false} NothingCommittedIsLost(w: World, evs: seq<Event>, k: nat, decode: VotersDecoder)
    requires Init(w) && k <= |evs|
    ensures Later(Run(w, evs[..k], decode).follower, Run(w, evs, decode).follower)
    decreases |evs|
  {
    hide Run, Bounded, Init;
    RunBounds(w, evs, decode);
    if k == |evs| {
      assert evs[..k] == evs;
    } else {
      var front := evs[..|evs| - 1];
      assert front[..k] == evs[..k];
      NothingCommittedIsLost(w, front, k, decode);
      RunBounds(w, front, decode);
      RunBounds(w, evs[..k], decode);
      RunStepLater(w, evs, decode);
      LaterChain(Run(w, evs[..k], decode), Run(w, front, decode), Run(w, evs, decode));
    }
  }

  lemma {:induction false} LaterChain(a: World, b: World, c: World)
    requires Later(a.follower, b.follower) && Later(b.follower, c.follower)
    requires Bounded(a.follower) && Bounded(b.follower) && Bounded(c.follower)
    ensures Later(a.follower, c.follower)
  {
    LaterTransitive(a.follower, b.follower, c.follower);
  }

  // ---- What does not depend on the clients ----

  /** Two worlds that differ at most in their completion queues. */
  ghost predicate Alike(w: World, v: World) {
    && w.follower == v.follower.(queue := w.follower.queue)
    && w.durable == v.durable && w.halted == v.halted && w.accepted == v.accepted
    && w.stored == v.stored && w.lowest == v.lowest
  }

  ghost predicate SameReaction(s: StepResult, t: StepResult) {
    s.outcome == t.outcome && s.follower == t.follower.(queue := s.follower.queue)
  }

  lemma {:induction false} EntriesBlind(f: Follower, q: Q.Queue, r: FetchResponse, persist: Option<QuorumState>,
                     decode: VotersDecoder, rejects: set<Offset>)
    ensures SameReaction(OnEntries(f, r, persist, decode, rejects), OnEntries(f.(queue := q), r, persist, decode, rejects))
  {
  }

  lemma {:induction false} CutBlind(f: Follower, q: Q.Queue, d: DivergingEpoch, persist: Option<QuorumState>)
    ensures SameReaction(OnDivergence(f, d, persist), OnDivergence(f.(queue := q), d, persist))
  {
  }

  /** What a message does to node, application and batch is the same for every queue. */
  lemma {:induction false} QueueBlind(f: Follower, q: Q.Queue, m: Envelope, decode: VotersDecoder, rejects: set<Offset>)
    ensures SameReaction(HandleMessage(f, m, decode, rejects), HandleMessage(f.(queue := q), m, decode, rejects))
  {
    hide Validate, OnEntries, OnDivergence;
    if m.payload.Fetched? {
      var r := m.payload.response;
      var v := Validate(f.node, r);
      if v.Accepted? && r.snapshotId.None? {
        if r.diverging.Some? { CutBlind(f.(node := v.node), q, r.diverging.value, v.persist); }
        else { EntriesBlind(f.(node := v.node), q, r, v.persist, decode, rejects); }
      }
    }
  }

  /** The messages of a run, without the clients. */
  function Messages(evs: seq<Event>): seq<Event> {
    if evs == [] then []
    else if evs[|evs| - 1].Deliver? then Messages(evs[..|evs| - 1]) + [evs[|evs| - 1]]
    else Messages(evs[..|evs| - 1])
  }

  lemma {:induction false} MessagesFair(w: World, evs: seq<Event>, decode: VotersDecoder)
    ensures FairRun(w, Messages(evs), decode)
    ensures forall i | 0 <= i < |Messages(evs)| :: Messages(evs)[i].Deliver?
    decreases |evs|
  {
    if evs != [] { MessagesFair(w, evs[..|evs| - 1], decode); }
  }

  lemma {:induction false} StepAlike(w: World, v: World, ev: Event, decode: VotersDecoder)
    requires Alike(w, v)
    ensures if ev.Deliver? then Alike(Step(w, ev, decode), Step(v, ev, decode)) else Alike(Step(w, ev, decode), v)
  {
    hide HandleMessage, Validate, Replay, Q.Park;
    if ev.Deliver? {
      QueueBlind(v.follower, w.follower.queue, ev.m, decode, ev.rejects);
    }
  }

  /** A run and its messages alone lead to worlds that differ only in their queues. */
  lemma {:induction false} RunAlike(w: World, evs: seq<Event>, decode: VotersDecoder)
    ensures Alike(Run(w, evs, decode), Run(w, Messages(evs), decode))
    decreases |evs|
  {
    hide Step, Alike;
    if evs == [] {
      AlikeItself(w);
    } else {
      var front, ev := evs[..|evs| - 1], evs[|evs| - 1];
      RunAlike(w, front, decode);
      StepAlike(Run(w, front, decode), Run(w, Messages(front), decode), ev, decode);
      if ev.Deliver? {
        assert Messages(evs)[..|Messages(evs)| - 1] == Messages(front);
      }
    }
  }

  lemma {:induction false} AlikeItself(w: World)
    ensures Alike(w, w)
  {
  }

  /** The invariant, but for the completion queue, of any run. */
  lemma {:induction false} RunData(w: World, evs: seq<Event>, decode: VotersDecoder)
    requires Init(w)
    ensures var v := Run(w, evs, decode); var o := OriginOf(w);
      && LogSound(o, v.follower) && LeadersUnique(v)
      && v.follower.app.applied <= Commands(Committed(v.follower, o.hw))
      && (!v.halted ==> CommitExact(o, v.follower, decode) && v.durable == v.follower.node.log)
  {
    hide Run, Init, Commands, LastVoters, FairRun, Messages, FiredSound, Counted, PendingSound;
    MessagesFair(w, evs, decode);
    RunInv(w, Messages(evs), decode);
    RunAlike(w, evs, decode);
  }

  // ---- Consequences, one per promise ----

  /** Two responses that passed validation in one term came from one leader. */
  lemma {:induction false} OneLeaderPerTerm(w: World, evs: seq<Event>, decode: VotersDecoder, t: Term, a: NodeId, b: NodeId)
    requires Init(w)
    requires (t, a) in Run(w, evs, decode).accepted && (t, b) in Run(w, evs, decode).accepted
    ensures a == b
  {
    RunData(w, evs, decode);
  }

  /** The application has been told exactly the commands committed during the run, in order, once each. */
  lemma {:induction false} AppliedExactly(w: World, evs: seq<Event>, decode: VotersDecoder)
    requires Init(w)
    ensures var v := Run(w, evs, decode);
      var es := Committed(v.follower, w.follower.node.hw);
      && v.follower.app.applied <= Commands(es)
      && (!v.halted ==>
            && v.follower.app.applied == Commands(es)
            && Flatten(v.follower.app.batches) == Commands(es)
            && v.follower.node.voterSet == LastVoters(w.follower.node.voterSet, es, decode))
  {
    RunData(w, evs, decode);
  }

  /** The durable log built by the emitted actions equals the log in memory. */
  lemma {:induction false} DurableMirrorsMemory(w: World, evs: seq<Event>, decode: VotersDecoder)
    requires Init(w)
    ensures var v := Run(w, evs, decode); !v.halted ==> v.durable == v.follower.node.log
  {
    RunData(w, evs, decode);
  }

  /**
   Completions: every parked ticket is pending, fired or dropped, as often as it
   was parked; those fired are for committed, applied offsets, in offset order;
   none below the high watermark is left pending.
   */
  lemma {:induction false} CompletionsSettled(w: World, evs: seq<Event>, decode: VotersDecoder, t: Q.Ticket)
    requires Init(w) && FairRun(w, evs, decode)
    ensures var v := Run(w, evs, decode);
      && Q.Accounted(v.follower.queue, t) == Occurrences(v.parked, t)
      && Q.OffsetOrdered(v.follower.queue.fired)
      && (t in v.follower.queue.fired ==>
            w.follower.node.hw <= t.offset < v.follower.node.hw && IsApplied(v.follower, t.offset))
      && (!v.halted && t.offset in v.follower.queue.pending ==> t.offset >= v.follower.node.hw)
  {
    RunInv(w, evs, decode);
  }

  /** Every completion dropped by the i-th event of a run was for an offset not committed then. */
  lemma {:induction false} DroppedUncommitted(w: World, evs: seq<Event>, decode: VotersDecoder, i: nat, k: nat)
    requires Init(w) && i < |evs|
    requires |Run(w, evs[..i], decode).follower.queue.dropped| <= k < |Run(w, evs[..i + 1], decode).follower.queue.dropped|
    ensures Run(w, evs[..i + 1], decode).follower.queue.dropped[k].offset >= Run(w, evs[..i + 1], decode).follower.node.hw
    ensures k < |Run(w, evs, decode).follower.queue.dropped|
    ensures Run(w, evs, decode).follower.queue.dropped[k] == Run(w, evs[..i + 1], decode).follower.queue.dropped[k]
  {
    hide Init, Step;
    RunBounds(w, evs[..i], decode);
    assert evs[..i + 1][..i] == evs[..i];
    StepLater(Run(w, evs[..i], decode), evs[i], decode);
    NothingCommittedIsLost(w, evs, i + 1, decode);
  }
}
