/** What every run of a follower keeps, proved step by step. */
module ReplicationSafety {
  import opened Types
  import opened Replication
  import opened ReplicationRun
  import LogSpec
  import Q = DeferredCompletion
  import SortedKeys

  // ---- Which part of the pipeline a message reaches ----

  datatype Kind =
    | Quiet
    | Cutting(g: Follower, d: DivergingEpoch, persist: Option<QuorumState>)
    | Growing(g: Follower, r: FetchResponse, persist: Option<QuorumState>)

  function Classify(f: Follower, m: Envelope): Kind {
    if !Admitted(f, m) then Quiet
    else
      var r := m.payload.response;
      var v := Validate(f.node, r);
      if r.snapshotId.Some? then Quiet
      else if r.diverging.Some? then Cutting(f.(node := v.node), r.diverging.value, v.persist)
      else Growing(f.(node := v.node), r, v.persist)
  }

  /** Equal in everything but term, vote, role and leader. */
  ghost predicate SameData(f: Follower, g: Follower) {
    && g.node.log == f.node.log && g.node.hw == f.node.hw
    && g.node.voterSet == f.node.voterSet && g.node.pendingChange == f.node.pendingChange
    && g.node.epochs == f.node.epochs && g.app == f.app && g.queue == f.queue
  }

  lemma {:induction false} Classified(f: Follower, m: Envelope, decode: VotersDecoder, rejects: set<Offset>)
    ensures var s := HandleMessage(f, m, decode, rejects);
      match Classify(f, m)
      case Quiet =>
        && SameData(f, s.follower)
        && (s.outcome.Err? ==> !Halts(s.outcome.error))
        && (s.outcome.Ok? ==> forall log :: Replay(log, s.outcome.batch) == log)
      case Cutting(g, d, persist) => SameData(f, g) && s == OnDivergence(g, d, persist)
      case Growing(g, r, persist) => SameData(f, g) && s == OnEntries(g, r, persist, decode, rejects)
  {
    var s := HandleMessage(f, m, decode, rejects);
    if Classify(f, m).Quiet? && s.outcome.Ok? {
      forall log ensures Replay(log, s.outcome.batch) == log { QuietBatch(s.outcome.batch, log); }
    }
  }

  predicate NoLogAction(a: IoAction) { a.PersistQuorumState? || a.SendRpc? }

  lemma {:induction false} QuietBatch(batch: seq<IoAction>, log: Log)
    requires forall a | a in batch :: NoLogAction(a)
    ensures Replay(log, batch) == log
    decreases |batch|
  {
    if batch != [] {
      assert NoLogAction(batch[|batch| - 1]);
      QuietBatch(batch[..|batch| - 1], log);
    }
  }

  lemma {:induction false} LogActionFirst(a: IoAction, rest: seq<IoAction>, log: Log)
    requires forall b | b in rest :: NoLogAction(b)
    ensures Replay(log, [a] + rest) == Replay(log, [a])
    decreases |rest|
  {
    var batch := [a] + rest;
    if rest == [] {
      assert batch == [a];
    } else {
      assert batch[..|batch| - 1] == [a] + rest[..|rest| - 1];
      assert NoLogAction(rest[|rest| - 1]) && batch[|batch| - 1] == rest[|rest| - 1];
      LogActionFirst(a, rest[..|rest| - 1], log);
    }
  }

  // ---- Completions ----

  /** Completing moves exactly the offsets in [hw, newHw) to the end of the fired list, in order. */
  lemma {:induction false} CompleteSound(q: Q.Queue, hw: Offset, newHw: Offset)
    requires forall k | k in q.pending :: k >= hw
    requires Q.OffsetOrdered(q.fired) && forall t | t in q.fired :: t.offset < hw
    ensures var p := Q.Complete(q, newHw);
      && (forall k | k in p.pending :: k >= newHw)
      && Q.OffsetOrdered(p.fired)
      && q.fired <= p.fired && p.dropped == q.dropped
      && (forall t | t in p.fired :: t in q.fired || hw <= t.offset < newHw)
  {
    var keys := SortedKeys.Sorted(Q.Below(q.pending, newHw));
    Q.Removed(q.pending, keys);
    Q.TakeOrdered(q.pending, keys);
    var taken := Q.Take(q.pending, keys);
    assert forall t | t in taken :: hw <= t.offset < newHw;
    assert forall i | 0 <= i < |q.fired| :: q.fired[i] in q.fired;
    assert forall i | 0 <= i < |taken| :: taken[i] in taken;
  }

  /** Failing drops exactly the offsets at or above the cut. */
  lemma {:induction false} FailSound(q: Q.Queue, cut: Offset)
    ensures var p := Q.FailAtOrAbove(q, cut);
      && p.fired == q.fired && q.dropped <= p.dropped
      && (forall k | k in p.pending :: k in q.pending)
      && (forall i | |q.dropped| <= i < |p.dropped| :: p.dropped[i].offset >= cut)
  {
    var keys := SortedKeys.Sorted(Q.AtOrAbove(q.pending, cut));
    Q.Removed(q.pending, keys);
    Q.TakeOrdered(q.pending, keys);
    var taken := Q.Take(q.pending, keys);
    assert forall i | 0 <= i < |taken| :: taken[i] in taken;
  }

  lemma {:induction false} AppliedBelow(o: Origin, f: Follower, at: Offset)
    requires LogSound(o, f) && f.app.applied == Commands(Committed(f, o.hw))
    requires o.hw <= at < f.node.hw
    ensures IsApplied(f, at)
  {
    var es := Committed(f, o.hw);
    assert es[at - o.hw] == f.node.log.entries[at - o.start];
    if es[at - o.hw].entryType == Command { CommandListed(es, at - o.hw); }
  }

  // ---- Advancing the high watermark ----

  ghost predicate Quietly(o: Origin, f: Follower, parked: seq<Q.Ticket>, decode: VotersDecoder) {
    && LogSound(o, f) && CommitExact(o, f, decode) && FiredSound(o, f)
    && PendingSound(f) && Counted(f, parked) && PendingChangeSound(f)
  }

  ghost predicate Always(o: Origin, f: Follower, parked: seq<Q.Ticket>) {
    && LogSound(o, f) && FiredSound(o, f) && Counted(f, parked) && PendingChangeSound(f)
    && f.app.applied <= Commands(Committed(f, o.hw))
  }

  /** The committed entries after a raise are the ones before it and the newly committed ones. */
  lemma {:induction false} CommittedGrows(o: Origin, f: Follower, newHw: Offset, decode: VotersDecoder)
    requires LogSound(o, f) && f.node.hw <= newHw <= f.node.log.End()
    ensures var es := f.node.log.Read(f.node.hw, newHw);
      && f.node.log.Read(o.hw, newHw) == Committed(f, o.hw) + es
      && Commands(f.node.log.Read(o.hw, newHw)) == Commands(Committed(f, o.hw)) + Commands(es)
      && LastVoters(o.voters, f.node.log.Read(o.hw, newHw), decode)
           == LastVoters(LastVoters(o.voters, Committed(f, o.hw), decode), es, decode)
  {
    var es := f.node.log.Read(f.node.hw, newHw);
    ReadSplit(f.node.log, o.hw, f.node.hw, newHw);
    CommandsConcat(Committed(f, o.hw), es);
    VotersConcat(o.voters, Committed(f, o.hw), es, decode);
  }

  lemma {:induction false} NotifySound(o: Origin, f: Follower, newHw: Offset, parked: seq<Q.Ticket>, decode: VotersDecoder,
                    rejects: set<Offset>)
    requires Quietly(o, f, parked, decode) && f.node.hw < newHw <= f.node.log.End()
    ensures var (g, error) := Notify(f.(node := f.node.(hw := newHw)), f.node.hw, newHw, decode, rejects);
      && Always(o, g, parked)
      && g.node.log == f.node.log && g.node.term == f.node.term && g.node.leaderId == f.node.leaderId
      && (error.None? ==> Quietly(o, g, parked, decode))
      && (error.Some? ==> Halts(error.value))
  {
    var h := f.(node := f.node.(hw := newHw));
    var es := f.node.log.Read(f.node.hw, newHw);
    var c := ApplyEntries(Commit(h.node, h.app, None), es, decode, rejects);
    AppliedEntries(Commit(h.node, h.app, None), es, decode, rejects);
    CommittedGrows(o, f, newHw, decode);
    var (g, error) := Notify(h, f.node.hw, newHw, decode, rejects);
    assert LogSound(o, g);
    if error.None? {
      NotifiedCommit(o, f, g, c, es, decode);
      NotifiedQueue(o, f, g, parked, newHw);
    } else {
      assert g.app.applied <= Commands(Committed(g, o.hw));
      FiredStays(o, f, g);
    }
  }

  /** A successful notification tells the application exactly the newly committed commands. */
  lemma {:induction false} NotifiedCommit(o: Origin, f: Follower, g: Follower, c: Commit, es: seq<LogEntry>, decode: VotersDecoder)
    requires CommitExact(o, f, decode)
    requires c.app.applied == f.app.applied + Commands(es) && c.app.batches == f.app.batches
    requires c.node.voterSet == LastVoters(f.node.voterSet, es, decode)
    requires g.node == c.node && g.app == c.app.(batches := c.app.batches + [Commands(es)])
    requires Commands(Committed(g, o.hw)) == Commands(Committed(f, o.hw)) + Commands(es)
    requires LastVoters(o.voters, Committed(g, o.hw), decode)
               == LastVoters(LastVoters(o.voters, Committed(f, o.hw), decode), es, decode)
    ensures CommitExact(o, g, decode)
  {
  }

  lemma {:induction false} NotifiedQueue(o: Origin, f: Follower, g: Follower, parked: seq<Q.Ticket>, newHw: Offset)
    requires FiredSound(o, f) && PendingSound(f) && Counted(f, parked) && LogSound(o, f)
    requires LogSound(o, g) && g.app.applied == Commands(Committed(g, o.hw))
    requires g.node.hw == newHw >= f.node.hw && g.queue == Q.Complete(f.queue, newHw)
    ensures FiredSound(o, g) && PendingSound(g) && Counted(g, parked)
  {
    CompleteSound(f.queue, f.node.hw, newHw);
    forall t | t in g.queue.fired ensures IsApplied(g, t.offset) { AppliedBelow(o, g, t.offset); }
    forall t ensures Q.Accounted(g.queue, t) == Occurrences(parked, t) {
      Q.CompleteAccounts(f.queue, newHw, t);
    }
  }

  /** Fired completions stay justified while the log below them and what was applied stay. */
  lemma {:induction false} FiredStays(o: Origin, f: Follower, g: Follower)
    requires FiredSound(o, f) && LogSound(o, f) && LogSound(o, g)
    requires g.queue.fired == f.queue.fired && f.node.hw <= g.node.hw && f.app.applied <= g.app.applied
    requires forall at | o.hw <= at < f.node.hw :: g.node.log.EntryAt(at) == f.node.log.EntryAt(at)
    ensures FiredSound(o, g)
  {
  }

  // ---- The three kinds of step ----

  lemma {:induction false} QuietSound(o: Origin, f: Follower, g: Follower, parked: seq<Q.Ticket>, decode: VotersDecoder)
    requires Quietly(o, f, parked, decode) && SameData(f, g)
    ensures Quietly(o, g, parked, decode)
  {
  }

  lemma {:induction false} SliceParts(log: Log, a: Offset, h: Offset)
    requires log.start <= a <= h <= log.End()
    ensures |log.Read(log.start, h)| == h - log.start
    ensures log.Read(a, h) == log.Read(log.start, h)[a - log.start..]
  {
  }

  lemma {:induction false} SliceEntry(log: Log, at: Offset, h: Offset)
    requires log.start <= at < h <= log.End()
    ensures |log.Read(log.start, h)| == h - log.start
    ensures log.EntryAt(at) == Some(log.Read(log.start, h)[at - log.start])
  {
    ReadFront(log, h);
  }

  lemma {:induction false} ReadFront(log: Log, h: Offset)
    requires log.start < h <= log.End()
    ensures log.Read(log.start, h) == log.entries[..h - log.start]
  {
    var n := h - log.start;
    assert log.entries[0..n] == log.entries[..n];
  }

  /** Logs with the same start that agree below the high watermark agree on every slice and entry there. */
  lemma {:induction false} SameCommitted(a: Log, b: Log, from: Offset, hw: Offset)
    requires a.start == b.start <= from <= hw <= a.End() && hw <= b.End()
    requires a.Read(a.start, hw) == b.Read(b.start, hw)
    ensures a.Read(from, hw) == b.Read(from, hw)
    ensures forall at | from <= at < hw :: b.EntryAt(at) == a.EntryAt(at)
  {
    SliceParts(a, from, hw);
    SliceParts(b, from, hw);
    forall at | from <= at < hw ensures b.EntryAt(at) == a.EntryAt(at) {
      SliceEntry(a, at, hw);
      SliceEntry(b, at, hw);
    }
  }

  /** Replacing the log by one with the same committed entries keeps what was derived from them. */
  lemma {:induction false} Relogged(o: Origin, f: Follower, g: Follower, decode: VotersDecoder)
    requires LogSound(o, f) && CommitExact(o, f, decode) && FiredSound(o, f)
    requires LogSound(o, g) && g.node.hw == f.node.hw
    requires Committed(g, o.start) == Committed(f, o.start)
    requires g.app == f.app && g.queue.fired == f.queue.fired
    requires g.node.voterSet == f.node.voterSet
    ensures CommitExact(o, g, decode) && FiredSound(o, g)
  {
    hide Commands, LastVoters, Flatten, FiredSound;
    SameCommitted(f.node.log, g.node.log, o.hw, f.node.hw);
    FiredStays(o, f, g);
  }

  lemma {:induction false} AppendSound(o: Origin, f: Follower, es: seq<LogEntry>, parked: seq<Q.Ticket>, decode: VotersDecoder)
    requires Quietly(o, f, parked, decode)
    requires es != [] && es[0].offset == f.node.log.End() && Consecutive(es)
    ensures Quietly(o, f.(node := f.node.(log := f.node.log.Append(es))), parked, decode)
  {
    var g := f.(node := f.node.(log := f.node.log.Append(es)));
    assert LogSound(o, g) by {
      ConsecutiveOffsets(es);
      LogSpec.LegalKeepsContiguous(f.node.log, LogSpec.Append(es));
    }
    AppendKeepsRead(f.node.log, es, o.start, f.node.hw);
    Relogged(o, f, g, decode);
  }

  lemma {:induction false} AdvanceSound(o: Origin, f: Follower, leaderHw: Offset, success: Outcome, parked: seq<Q.Ticket>,
                     decode: VotersDecoder, rejects: set<Offset>)
    requires Quietly(o, f, parked, decode) && success.Ok?
    ensures var s := Advance(f, leaderHw, success, decode, rejects);
      && Always(o, s.follower, parked)
      && s.follower.node.log == f.node.log
      && s.follower.node.term == f.node.term && s.follower.node.leaderId == f.node.leaderId
      && (s.outcome == success ==> Quietly(o, s.follower, parked, decode))
      && (s.outcome != success ==> s.outcome.Err? && Halts(s.outcome.error))
  {
    var newHw := Min(leaderHw, f.node.log.End());
    if newHw > f.node.hw { NotifySound(o, f, newHw, parked, decode, rejects); }
  }

  lemma {:induction false} EntriesSound(o: Origin, f: Follower, r: FetchResponse, persist: Option<QuorumState>,
                     parked: seq<Q.Ticket>, decode: VotersDecoder, rejects: set<Offset>)
    requires Quietly(o, f, parked, decode)
    ensures var s := OnEntries(f, r, persist, decode, rejects);
      && Always(o, s.follower, parked)
      && s.follower.node.term == f.node.term && s.follower.node.leaderId == f.node.leaderId
      && (s.outcome.Ok? || !Halts(s.outcome.error) ==> Quietly(o, s.follower, parked, decode))
      && (s.outcome.Ok? ==> Replay(f.node.log, s.outcome.batch) == s.follower.node.log)
      && (s.outcome.Err? && !Halts(s.outcome.error) ==> s.follower == f)
  {
    if (r.entries != [] && r.entries[0].offset != f.node.log.End()) || !Consecutive(r.entries) {
    } else if r.entries == [] {
      AdvanceSound(o, f, r.highWatermark, Ok(Persist(persist), false), parked, decode, rejects);
      QuietBatch(Persist(persist), f.node.log);
    } else {
      AppendSound(o, f, r.entries, parked, decode);
      var success := Ok([AppendLog(r.entries)] + Persist(persist), false);
      var g := f.(node := f.node.(log := f.node.log.Append(r.entries)));
      AdvanceSound(o, g, r.highWatermark, success, parked, decode, rejects);
      LogActionFirst(AppendLog(r.entries), Persist(persist), f.node.log);
      assert Replay(f.node.log, [AppendLog(r.entries)]) == f.node.log.Append(r.entries) by {
        assert [AppendLog(r.entries)][..0] == [];
      }
    }
  }

  /** A cut at or above the high watermark keeps everything but the cut entries and their completions. */
  lemma {:induction false} CutKeeps(o: Origin, f: Follower, cut: Offset, g: Follower, parked: seq<Q.Ticket>, decode: VotersDecoder)
    requires Quietly(o, f, parked, decode) && f.node.hw <= cut <= f.node.log.End()
    requires g == f.(node := CutNode(f.node, cut), queue := Q.FailAtOrAbove(f.queue, cut))
    ensures Quietly(o, g, parked, decode)
  {
    assert LogSound(o, g) by {
      LogSpec.LegalKeepsContiguous(f.node.log, LogSpec.TruncateSuffix(cut));
    }
    CutKeepsRead(f.node.log, cut, o.start, f.node.hw);
    FailSound(f.queue, cut);
    Relogged(o, f, g, decode);
    FailCounted(f, cut, g, parked);
  }

  lemma {:induction false} CutSound(o: Origin, f: Follower, d: DivergingEpoch, persist: Option<QuorumState>,
                 parked: seq<Q.Ticket>, decode: VotersDecoder)
    requires Quietly(o, f, parked, decode)
    ensures var s := OnDivergence(f, d, persist);
      && Quietly(o, s.follower, parked, decode)
      && s.follower.node.hw == f.node.hw
      && s.follower.node.term == f.node.term && s.follower.node.leaderId == f.node.leaderId
      && (s.outcome.Err? ==> s.follower == f && !Halts(s.outcome.error))
      && (s.outcome.Ok? ==> Replay(f.node.log, s.outcome.batch) == s.follower.node.log)
  {
    var s := OnDivergence(f, d, persist);
    var cut := Min(d.endOffset, f.node.log.End());
    if f.node.hw <= cut {
      CutKeeps(o, f, cut, s.follower, parked, decode);
      CutBatch(f.node.log, cut, s.follower.node, persist);
    }
  }

  lemma {:induction false} FailCounted(f: Follower, cut: Offset, g: Follower, parked: seq<Q.Ticket>)
    requires Counted(f, parked) && g.queue == Q.FailAtOrAbove(f.queue, cut)
    ensures Counted(g, parked)
  {
    forall t ensures Q.Accounted(g.queue, t) == Occurrences(parked, t) {
      Q.FailAccounts(f.queue, cut, t);
    }
  }

  lemma {:induction false} CutBatch(log: Log, cut: Offset, n: NodeState, persist: Option<QuorumState>)
    ensures Replay(log, [TruncateSuffix(cut)] + FetchActions(n) + Persist(persist)) == log.TruncateSuffix(cut)
  {
    var fetch, save := FetchActions(n), Persist(persist);
    assert forall a: IoAction | a in fetch + save :: a in fetch || a in save;
    assert forall a: IoAction | a in fetch + save :: NoLogAction(a);
    hide FetchActions, Persist;
    assert [TruncateSuffix(cut)] + fetch + save == [TruncateSuffix(cut)] + (fetch + save);
    LogActionFirst(TruncateSuffix(cut), fetch + save, log);
    assert [TruncateSuffix(cut)][..0] == [];
  }
}
