/** The leader-epoch checkpoint over whole runs, from any checkpoint a follower starts with. */
module ReplicationCheckpoints {
  import opened Types
  import opened Replication
  import opened ReplicationRun
  import opened ReplicationSafety
  import opened ReplicationTheorems
  import E = LeaderEpochs
  import Q = DeferredCompletion

  /** The checkpoints that lie before every cut so far. */
  function Surviving(epochs: E.Epochs, lowest: Option<Offset>): E.Epochs {
    if lowest.None? then epochs else KeepBelow(epochs, lowest.value)
  }

  /** The checkpoint is what the cuts left of the first one, overwritten by the leader changes committed since. */
  ghost predicate CheckpointExact(first: E.Epochs, hw: Offset, v: World) {
    && v.follower.node.epochs == E.Overwriting(Surviving(first, v.lowest), Committed(v.follower, hw))
    && (v.lowest.Some? ==> hw <= v.lowest.value)
  }

  /** No entry before the lowest cut has changed. */
  ghost predicate Uncut(w: World, v: World) {
    forall at | w.follower.node.log.start <= at < w.follower.node.log.End() && (v.lowest.Some? ==> at < v.lowest.value) ::
      v.follower.node.log.EntryAt(at) == w.follower.node.log.EntryAt(at)
  }

  // ---- Cuts and overwriting ----

  lemma {:induction false} KeepTwice(m: E.Epochs, a: Offset, b: Offset)
    ensures KeepBelow(KeepBelow(m, a), b) == KeepBelow(m, Min(a, b))
  {
  }

  /** A cut after some entries drops nothing they recorded. */
  lemma {:induction false} CutAfter(m: E.Epochs, es: seq<LogEntry>, cut: Offset)
    requires forall i | 0 <= i < |es| :: es[i].offset < cut
    ensures KeepBelow(E.Overwriting(m, es), cut) == E.Overwriting(KeepBelow(m, cut), es)
    decreases |es|
  {
    if es != [] {
      CutAfter(m, es[..|es| - 1], cut);
      KeepUpdate(E.Overwriting(m, es[..|es| - 1]), es[|es| - 1].term, es[|es| - 1].offset, cut);
    }
  }

  lemma {:induction false} KeepUpdate(m: E.Epochs, t: Term, o: Offset, cut: Offset)
    requires o < cut
    ensures KeepBelow(m[t := o], cut) == KeepBelow(m, cut)[t := o]
  {
  }

  /** A term is recorded as the entries say, or else as it was before them. */
  lemma {:induction false} Lookup(m: E.Epochs, es: seq<LogEntry>, t: Term)
    ensures var own := E.Overwriting(map[], es); var all := E.Overwriting(m, es);
      && (t in own ==> t in all && all[t] == own[t])
      && (t !in own ==> (t in all <==> t in m) && (t in m ==> all[t] == m[t]))
    decreases |es|
  {
    if es != [] { Lookup(m, es[..|es| - 1], t); }
  }

  lemma {:induction false} CommittedOffsets(o: Origin, f: Follower, from: Offset)
    requires LogSound(o, f) && o.start <= from <= f.node.hw
    ensures forall i | 0 <= i < |Committed(f, from)| ::
      Committed(f, from)[i].offset == from + i && Committed(f, from)[i] == f.node.log.entries[from - o.start + i]
    ensures |Committed(f, from)| == f.node.hw - from
  {
  }

  // ---- What a batch cuts ----

  lemma {:induction false} NoCuts(batch: seq<IoAction>, lowest: Option<Offset>)
    requires forall a | a in batch :: !a.TruncateSuffix?
    ensures LowestAfter(lowest, batch) == lowest
    decreases |batch|
  {
    if batch != [] {
      assert batch[|batch| - 1] in batch;
      NoCuts(batch[..|batch| - 1], lowest);
    }
  }

  lemma {:induction false} OneCut(cut: Offset, rest: seq<IoAction>, lowest: Option<Offset>)
    requires forall a | a in rest :: !a.TruncateSuffix?
    ensures LowestAfter(lowest, [TruncateSuffix(cut)] + rest)
      == Some(if lowest.None? then cut else Min(lowest.value, cut))
    decreases |rest|
  {
    var batch := [TruncateSuffix(cut)] + rest;
    if rest == [] {
      assert batch == [TruncateSuffix(cut)] && batch[..0] == [];
    } else {
      assert rest[|rest| - 1] in rest;
      assert batch[..|batch| - 1] == [TruncateSuffix(cut)] + rest[..|rest| - 1];
      OneCut(cut, rest[..|rest| - 1], lowest);
    }
  }

  /** Only the divergence path emits a cut. */
  lemma {:induction false} OnlyDivergenceCuts(f: Follower, m: Envelope, decode: VotersDecoder, rejects: set<Offset>)
    requires !Classify(f, m).Cutting?
    ensures var s := HandleMessage(f, m, decode, rejects);
      s.outcome.Ok? ==> forall a | a in s.outcome.batch :: !a.TruncateSuffix?
  {
    hide ApplyEntries, Consecutive, Q.Complete;
  }

  // ---- One step ----

  /** The cut of a divergence answer. */
  function CutAt(f: Follower, d: DivergingEpoch): Offset { Min(d.endOffset, f.node.log.End()) }

  lemma {:induction false} CutStep(o: Origin, first: E.Epochs, f: Follower, lowest: Option<Offset>, d: DivergingEpoch,
                    persist: Option<QuorumState>)
    requires LogSound(o, f) && f.node.epochs == E.Overwriting(Surviving(first, lowest), Committed(f, o.hw))
    requires f.node.hw <= CutAt(f, d) && (lowest.Some? ==> o.hw <= lowest.value)
    ensures var s := OnDivergence(f, d, persist); var low := LowestAfter(lowest, s.outcome.batch);
      && low == Some(if lowest.None? then CutAt(f, d) else Min(lowest.value, CutAt(f, d)))
      && s.follower.node.epochs == E.Overwriting(Surviving(first, low), Committed(s.follower, o.hw))
  {
    hide E.Overwriting, KeepBelow, FetchActions, Persist;
    var cut := CutAt(f, d);
    var s := OnDivergence(f, d, persist);
    CutActions(s.follower.node, cut, persist, lowest);
    CommittedThroughCut(o, f, cut);
    CommittedOffsets(o, f, o.hw);
    CutAfter(Surviving(first, lowest), Committed(f, o.hw), cut);
    if lowest.Some? { KeepTwice(first, lowest.value, cut); }
  }

  lemma {:induction false} CutActions(n: NodeState, cut: Offset, persist: Option<QuorumState>, lowest: Option<Offset>)
    ensures LowestAfter(lowest, [TruncateSuffix(cut)] + FetchActions(n) + Persist(persist))
      == Some(if lowest.None? then cut else Min(lowest.value, cut))
  {
    hide LowestAfter;
    var rest := FetchActions(n) + Persist(persist);
    assert [TruncateSuffix(cut)] + FetchActions(n) + Persist(persist) == [TruncateSuffix(cut)] + rest;
    assert forall a | a in rest :: a in FetchActions(n) || a in Persist(persist);
    OneCut(cut, rest, lowest);
  }

  lemma {:induction false} CommittedThroughCut(o: Origin, f: Follower, cut: Offset)
    requires LogSound(o, f) && f.node.hw <= cut <= f.node.log.End()
    ensures f.node.log.TruncateSuffix(cut).Read(o.hw, f.node.hw) == Committed(f, o.hw)
  {
    CutKeepsRead(f.node.log, cut, o.hw, f.node.hw);
  }

  /** Raising the high watermark records the newly committed leader changes over what was there. */
  lemma {:induction false} RaiseStep(o: Origin, base: E.Epochs, f: Follower, r: FetchResponse, persist: Option<QuorumState>,
                      decode: VotersDecoder, rejects: set<Offset>)
    requires LogSound(o, f) && f.node.epochs == E.Overwriting(base, Committed(f, o.hw))
    ensures var s := OnEntries(f, r, persist, decode, rejects);
      s.outcome.Ok? || !Halts(s.outcome.error) ==>
        s.follower.node.epochs == E.Overwriting(base, Committed(s.follower, o.hw))
  {
    hide E.Overwriting, ApplyEntries, Commands;
    if (r.entries == [] || r.entries[0].offset == f.node.log.End()) && Consecutive(r.entries) {
      var log := if r.entries == [] then f.node.log else f.node.log.Append(r.entries);
      GrownCommitted(o, f, r.entries);
      var newHw := Min(r.highWatermark, log.End());
      if newHw > f.node.hw {
        var n := f.node.(log := log, hw := newHw);
        var es := log.Read(f.node.hw, newHw);
        AppliedEntries(Commit(n, f.app, None), es, decode, rejects);
        ReadSplit(log, o.hw, f.node.hw, newHw);
        E.OverwritingConcat(base, Committed(f, o.hw), es);
      }
    }
  }

  lemma {:induction false} GrownCommitted(o: Origin, f: Follower, es: seq<LogEntry>)
    requires LogSound(o, f)
    ensures f.node.log.Append(es).Read(o.hw, f.node.hw) == Committed(f, o.hw)
  {
    AppendKeepsRead(f.node.log, es, o.hw, f.node.hw);
  }

  lemma {:induction false} StepCheckpoint(o: Origin, first: E.Epochs, w: World, ev: Event, decode: VotersDecoder)
    requires LogSound(o, w.follower) && CheckpointExact(first, o.hw, w) && !Step(w, ev, decode).halted
    ensures CheckpointExact(first, o.hw, Step(w, ev, decode))
  {
    hide HandleMessage, OnDivergence, OnEntries, Classify, Replay, LowestAfter, StoredAfter, E.Overwriting, Surviving, Q.Park;
    if ev.Deliver? {
      var f, m := w.follower, ev.m;
      Classified(f, m, decode, ev.rejects);
      var s := HandleMessage(f, m, decode, ev.rejects);
      match Classify(f, m)
      case Quiet => QuietCheckpoint(o, w, m, decode, ev.rejects);
      case Cutting(g, d, persist) => DivergedCheckpoint(o, first, w, g, d, persist);
      case Growing(g, r, persist) =>
        OnlyDivergenceCuts(f, m, decode, ev.rejects);
        if s.outcome.Ok? { NoCuts(s.outcome.batch, w.lowest); }
        RaiseStep(o, Surviving(first, w.lowest), g, r, persist, decode, ev.rejects);
    }
  }

  lemma {:induction false} QuietCheckpoint(o: Origin, w: World, m: Envelope, decode: VotersDecoder, rejects: set<Offset>)
    requires Classify(w.follower, m).Quiet?
    ensures var s := HandleMessage(w.follower, m, decode, rejects);
      && s.follower.node.epochs == w.follower.node.epochs
      && Committed(s.follower, o.hw) == Committed(w.follower, o.hw)
      && (s.outcome.Ok? ==> LowestAfter(w.lowest, s.outcome.batch) == w.lowest)
  {
    hide HandleMessage, LowestAfter;
    Classified(w.follower, m, decode, rejects);
    OnlyDivergenceCuts(w.follower, m, decode, rejects);
    var s := HandleMessage(w.follower, m, decode, rejects);
    if s.outcome.Ok? { NoCuts(s.outcome.batch, w.lowest); }
  }

  lemma {:induction false} DivergedCheckpoint(o: Origin, first: E.Epochs, w: World, g: Follower, d: DivergingEpoch,
                               persist: Option<QuorumState>)
    requires LogSound(o, w.follower) && CheckpointExact(first, o.hw, w) && SameData(w.follower, g)
    ensures var s := OnDivergence(g, d, persist);
      var low := if s.outcome.Ok? then LowestAfter(w.lowest, s.outcome.batch) else w.lowest;
      && s.follower.node.epochs == E.Overwriting(Surviving(first, low), Committed(s.follower, o.hw))
      && (low.Some? ==> o.hw <= low.value)
  {
    hide E.Overwriting, Surviving, LowestAfter;
    if g.node.hw <= CutAt(g, d) { CutStep(o, first, g, w.lowest, d, persist); }
  }

  // ---- Whole runs ----

  /**
   In every run the checkpoint is exactly this: the follower's first checkpoint
   without what lay at or after a cut, overwritten by the leader changes
   committed during the run.
   */
  lemma {:induction false} CheckpointExactly(w: World, evs: seq<Event>, decode: VotersDecoder)
    requires Init(w) && !Run(w, evs, decode).halted
    ensures CheckpointExact(w.follower.node.epochs, w.follower.node.hw, Run(w, evs, decode))
    decreases |evs|
  {
    hide LogSound, HandleMessage, Replay, LowestAfter, StoredAfter, Q.Park, CommitExact;
    if evs == [] {
      assert Committed(w.follower, w.follower.node.hw) == [];
    } else {
      var front := evs[..|evs| - 1];
      CheckpointExactly(w, front, decode);
      RunData(w, front, decode);
      StepCheckpoint(OriginOf(w), w.follower.node.epochs, Run(w, front, decode), evs[|evs| - 1], decode);
    }
  }

  /**
   Whatever checkpoint the follower started with, every leader change committed
   during the run is recorded, and a further cut drops exactly the checkpoints
   at or after it, all of them left over from the start.
   */
  lemma {:induction false} CutsKeepCheckpoints(w: World, evs: seq<Event>, decode: VotersDecoder, d: DivergingEpoch,
                            persist: Option<QuorumState>, t: Term)
    requires Init(w) && !Run(w, evs, decode).halted
    ensures var f := Run(w, evs, decode).follower;
      var own := E.Overwriting(map[], Committed(f, w.follower.node.hw));
      var after := OnDivergence(f, d, persist).follower.node.epochs;
      && (t in own ==> t in f.node.epochs && f.node.epochs[t] == own[t] && t in after && after[t] == own[t])
      && (f.node.hw <= CutAt(f, d) && t in f.node.epochs ==> (t !in after <==> f.node.epochs[t] >= CutAt(f, d)))
      && (t in after ==> t in f.node.epochs && after[t] == f.node.epochs[t])
      && (t in f.node.epochs && t !in own ==>
            t in w.follower.node.epochs && f.node.epochs[t] == w.follower.node.epochs[t])
  {
    hide Run, Init, E.Overwriting, Committed, CommitExact, FetchActions, Persist;
    CheckpointExactly(w, evs, decode);
    RunData(w, evs, decode);
    var v := Run(w, evs, decode);
    var es := Committed(v.follower, w.follower.node.hw);
    Lookup(Surviving(w.follower.node.epochs, v.lowest), es, t);
    RecordedBelow(OriginOf(w), v.follower, t);
  }

  lemma {:induction false} RecordedBelow(o: Origin, f: Follower, t: Term)
    requires LogSound(o, f)
    ensures var own := E.Overwriting(map[], Committed(f, o.hw)); t in own ==> own[t] < f.node.hw
  {
    var es := Committed(f, o.hw);
    CommittedOffsets(o, f, o.hw);
    E.ScansCover(es, t);
  }

  /**
   A follower that starts with a scan of its committed prefix has one after
   every run exactly when no two committed leader changes share a term.
   */
  lemma {:induction false} CheckpointMatchesScan(w: World, evs: seq<Event>, decode: VotersDecoder)
    requires Init(w) && !Run(w, evs, decode).halted
    requires w.follower.node.epochs == E.Overwriting(map[], Committed(w.follower, w.follower.node.log.start))
    ensures var f := Run(w, evs, decode).follower;
      var es := Committed(f, f.node.log.start);
      f.node.epochs == E.KeepingFirst(es) <==> E.DistinctLeaderTerms(es)
  {
    hide Run, E.Overwriting, E.KeepingFirst, E.DistinctLeaderTerms, CommitExact, Surviving, Committed, Init;
    CheckpointExactly(w, evs, decode);
    var o, v := OriginOf(w), Run(w, evs, decode);
    SoundAt(w, evs, decode);
    ScanSurvives(o, w.follower, v.lowest);
    CommittedSplits(w, evs, decode);
    E.OverwritingConcat(map[], Committed(w.follower, o.start), Committed(v.follower, o.hw));
    ScanRules(o, v.follower);
  }

  lemma {:induction false} SoundAt(w: World, evs: seq<Event>, decode: VotersDecoder)
    requires Init(w)
    ensures LogSound(OriginOf(w), w.follower) && LogSound(OriginOf(w), Run(w, evs, decode).follower)
  {
    hide Run, CommitExact;
    RunData(w, evs, decode);
  }

  /** A scan of the committed prefix lies before every cut. */
  lemma {:induction false} ScanSurvives(o: Origin, f: Follower, lowest: Option<Offset>)
    requires LogSound(o, f) && o.hw == f.node.hw && (lowest.Some? ==> o.hw <= lowest.value)
    ensures var scan := E.Overwriting(map[], Committed(f, o.start)); Surviving(scan, lowest) == scan
  {
    hide E.Overwriting, Committed;
    CommittedOffsets(o, f, o.start);
    if lowest.Some? {
      CutAfter(map[], Committed(f, o.start), lowest.value);
      assert KeepBelow(map[], lowest.value) == map[];
    }
  }

  /** The committed prefix is the one at the start followed by what was committed since. */
  lemma {:induction false} CommittedSplits(w: World, evs: seq<Event>, decode: VotersDecoder)
    requires Init(w)
    ensures var o, f := OriginOf(w), Run(w, evs, decode).follower;
      Committed(f, o.start) == Committed(w.follower, o.start) + Committed(f, o.hw)
  {
    hide Run, CommitExact;
    SoundAt(w, evs, decode);
    NothingCommittedIsLost(w, evs, 0, decode);
    assert evs[..0] == [];
    RunNothing(w, decode);
    var o, f := OriginOf(w), Run(w, evs, decode).follower;
    ReadSplit(f.node.log, o.start, o.hw, f.node.hw);
  }

  lemma {:induction false} ScanRules(o: Origin, f: Follower)
    requires LogSound(o, f)
    ensures var es := Committed(f, o.start);
      E.Overwriting(map[], es) == E.KeepingFirst(es) <==> E.DistinctLeaderTerms(es)
  {
    CommittedOffsets(o, f, o.start);
    E.RulesAgree(Committed(f, o.start));
  }

  lemma {:induction false} RunNothing(w: World, decode: VotersDecoder)
    ensures Run(w, [], decode) == w
  {
  }

  // ---- A follower restored with a scan of its whole log ----

  lemma {:induction false} StepUncut(o: Origin, w: World, v: World, ev: Event, decode: VotersDecoder)
    requires LogSound(o, v.follower) && w.follower.node.log.start == o.start && Uncut(w, v)
    ensures Uncut(w, Step(v, ev, decode))
  {
    hide HandleMessage, OnDivergence, OnEntries, Classify, Replay, LowestAfter, StoredAfter, Q.Park;
    if !v.halted && ev.Deliver? {
      var f, m := v.follower, ev.m;
      Classified(f, m, decode, ev.rejects);
      var s := HandleMessage(f, m, decode, ev.rejects);
      match Classify(f, m)
      case Quiet => QuietCheckpoint(o, v, m, decode, ev.rejects);
      case Cutting(g, d, persist) => DivergedUncut(w, v, g, d, persist);
      case Growing(g, r, persist) =>
        OnlyDivergenceCuts(f, m, decode, ev.rejects);
        if s.outcome.Ok? { NoCuts(s.outcome.batch, v.lowest); }
        EntriesOnlyGrow(g, r, persist, decode, ev.rejects);
    }
  }

  lemma {:induction false} EntriesOnlyGrow(f: Follower, r: FetchResponse, persist: Option<QuorumState>, decode: VotersDecoder,
                            rejects: set<Offset>)
    ensures var log := OnEntries(f, r, persist, decode, rejects).follower.node.log;
      log == f.node.log || log == f.node.log.Append(r.entries)
  {
    hide ApplyEntries, Commands, Consecutive;
    var log := if r.entries == [] then f.node.log else f.node.log.Append(r.entries);
    var newHw := Min(r.highWatermark, log.End());
    AppliedEntries(Commit(f.node.(log := log, hw := newHw), f.app, None), log.Read(f.node.hw, newHw), decode, rejects);
  }

  lemma {:induction false} DivergedUncut(w: World, v: World, g: Follower, d: DivergingEpoch, persist: Option<QuorumState>)
    requires Uncut(w, v) && SameData(v.follower, g) && g.node.log.start <= g.node.hw
    requires w.follower.node.log.start == g.node.log.start
    ensures var s := OnDivergence(g, d, persist);
      Uncut(w, v.(follower := s.follower, lowest := if s.outcome.Ok? then LowestAfter(v.lowest, s.outcome.batch) else v.lowest))
  {
    hide LowestAfter, FetchActions, Persist;
    var cut := CutAt(g, d);
    if g.node.hw <= cut {
      CutActions(OnDivergence(g, d, persist).follower.node, cut, persist, v.lowest);
    }
  }

  lemma {:induction false} RunUncut(w: World, evs: seq<Event>, decode: VotersDecoder)
    requires Init(w)
    ensures Uncut(w, Run(w, evs, decode))
    decreases |evs|
  {
    hide LogSound, Step, Uncut, CommitExact;
    if evs == [] {
      UncutItself(w);
    } else {
      var front := evs[..|evs| - 1];
      RunUncut(w, front, decode);
      RunData(w, front, decode);
      StepUncut(OriginOf(w), w, Run(w, front, decode), evs[|evs| - 1], decode);
    }
  }

  lemma {:induction false} UncutItself(w: World)
    ensures Uncut(w, w)
  {
  }

  /**
   A follower restored with a scan of its whole log, committed or not, has a
   checkpoint that below the high watermark is a scan of the committed prefix
   exactly when no leader change committed during the run repeats a term.
   */
  lemma {:induction false} RestoredCheckpoint(w: World, evs: seq<Event>, decode: VotersDecoder)
    requires Init(w) && !Run(w, evs, decode).halted
    requires w.follower.node.epochs == E.KeepingFirst(w.follower.node.log.entries)
    ensures var f := Run(w, evs, decode).follower; var es := Committed(f, f.node.log.start);
      var known := w.follower.node.hw - w.follower.node.log.start;
      KeepBelow(f.node.epochs, f.node.hw) == E.KeepingFirst(es) <==> E.FreshFrom(es, known)
  {
    hide Run, E.Overwriting, E.KeepingFirst, CommitExact, Committed, Init, Surviving, CheckpointExact, Uncut, E.FreshFrom;
    CheckpointExactly(w, evs, decode);
    RunUncut(w, evs, decode);
    SoundAt(w, evs, decode);
    CommittedSplits(w, evs, decode);
    RestoredScan(OriginOf(w), w, Run(w, evs, decode));
  }

  /** What a restored follower and its later self have in common. */
  ghost predicate Restored(o: Origin, w: World, v: World) {
    && LogSound(o, w.follower) && LogSound(o, v.follower) && o.hw == w.follower.node.hw
    && CheckpointExact(w.follower.node.epochs, o.hw, v) && Uncut(w, v)
    && w.follower.node.epochs == E.KeepingFirst(w.follower.node.log.entries)
    && Committed(v.follower, o.start) == Committed(w.follower, o.start) + Committed(v.follower, o.hw)
  }

  lemma {:induction false} RestoredScan(o: Origin, w: World, v: World)
    requires Restored(o, w, v)
    ensures var f := v.follower; var es := Committed(f, o.start);
      KeepBelow(f.node.epochs, f.node.hw) == E.KeepingFirst(es) <==> E.FreshFrom(es, o.hw - o.start)
  {
    hide E.KeepingFirst, Restored, E.FreshFrom, Committed;
    var f := v.follower;
    var es := Committed(f, o.start);
    var scan, known := E.KeepingFirst(es), KeepBelow(f.node.epochs, f.node.hw);
    if E.FreshFrom(es, o.hw - o.start) {
      forall t | t in scan ensures t in known && known[t] == scan[t] { ScannedIsKnown(o, w, v, t); }
      forall t | t in known ensures t in scan { KnownIsScanned(o, w, v, t); }
    } else {
      var t := RepeatShows(o, w, v);
    }
  }

  lemma {:induction false} ScannedIsKnown(o: Origin, w: World, v: World, t: Term)
    requires Restored(o, w, v) && t in E.KeepingFirst(Committed(v.follower, o.start))
    requires E.FreshFrom(Committed(v.follower, o.start), o.hw - o.start)
    ensures t in v.follower.node.epochs
    ensures v.follower.node.epochs[t] == E.KeepingFirst(Committed(v.follower, o.start))[t] < v.follower.node.hw
  {
    hide E.Overwriting, E.KeepingFirst, Committed, Uncut, E.FreshFrom;
    var f := v.follower;
    var all, since, before := Committed(f, o.start), Committed(f, o.hw), Committed(w.follower, o.start);
    CommittedOffsets(o, f, o.start);
    CommittedOffsets(o, f, o.hw);
    CommittedOffsets(o, w.follower, o.start);
    Lookup(Surviving(w.follower.node.epochs, v.lowest), since, t);
    E.ScansCover(all, t);
    var i :| E.IsLeaderChange(all, i) && all[i].term == t && all[i].offset == E.KeepingFirst(all)[t];
    if i < |before| {
      assert all[i] == before[i] == w.follower.node.log.entries[i];
      var j := E.FirstWins(w.follower.node.log.entries, i);
      assert all[j] == before[j] == w.follower.node.log.entries[j];
      var k := E.FirstWins(all, j);
      NotSince(all, before, since, i, t);
    } else {
      InSince(all, before, since, i, t);
    }
  }

  lemma {:induction false} NotSince(all: seq<LogEntry>, before: seq<LogEntry>, since: seq<LogEntry>, i: nat, t: Term)
    requires all == before + since && E.FreshFrom(all, |before|)
    requires i < |before| && E.IsLeaderChange(all, i) && all[i].term == t
    ensures t !in E.Overwriting(map[], since)
  {
    hide E.Overwriting, E.KeepingFirst;
    E.ScansCover(since, t);
    forall k | E.IsLeaderChange(since, k) ensures since[k].term != t {
      assert E.IsLeaderChange(all, |before| + k);
    }
  }

  lemma {:induction false} InSince(all: seq<LogEntry>, before: seq<LogEntry>, since: seq<LogEntry>, i: nat, t: Term)
    requires all == before + since && E.FreshFrom(all, |before|)
    requires i >= |before| && E.IsLeaderChange(all, i) && all[i].term == t
    ensures t in E.Overwriting(map[], since) && E.Overwriting(map[], since)[t] == all[i].offset
  {
    hide E.Overwriting, E.KeepingFirst;
    E.ScansCover(since, t);
    assert E.IsLeaderChange(since, i - |before|);
    var k :| E.IsLeaderChange(since, k) && since[k].term == t && since[k].offset == E.Overwriting(map[], since)[t];
    assert E.IsLeaderChange(all, |before| + k);
  }

  lemma {:induction false} KnownIsScanned(o: Origin, w: World, v: World, t: Term)
    requires Restored(o, w, v)
    requires t in v.follower.node.epochs && v.follower.node.epochs[t] < v.follower.node.hw
    ensures t in E.KeepingFirst(Committed(v.follower, o.start))
  {
    hide E.Overwriting, E.KeepingFirst, Committed;
    var f := v.follower;
    var all, since := Committed(f, o.start), Committed(f, o.hw);
    CommittedOffsets(o, f, o.start);
    CommittedOffsets(o, f, o.hw);
    Lookup(Surviving(w.follower.node.epochs, v.lowest), since, t);
    E.ScansCover(all, t);
    E.ScansCover(since, t);
    if t in E.Overwriting(map[], since) {
      var k :| E.IsLeaderChange(since, k) && since[k].term == t;
      assert E.IsLeaderChange(all, o.hw - o.start + k);
    } else {
      var es := w.follower.node.log.entries;
      E.ScansCover(es, t);
      var j :| E.IsLeaderChange(es, j) && es[j].term == t && es[j].offset == E.KeepingFirst(es)[t];
      var at := o.start + j;
      assert f.node.log.EntryAt(at) == w.follower.node.log.EntryAt(at);
      assert all[j] == es[j] && E.IsLeaderChange(all, j);
    }
  }

  /** A repeated term is recorded at its last offset, and the scan keeps its first. */
  lemma {:induction false} RepeatShows(o: Origin, w: World, v: World) returns (t: Term)
    requires Restored(o, w, v) && !E.FreshFrom(Committed(v.follower, o.start), o.hw - o.start)
    ensures var f := v.follower; var scan := E.KeepingFirst(Committed(f, o.start));
      t in scan && t in f.node.epochs && scan[t] < f.node.epochs[t] < f.node.hw
  {
    hide E.Overwriting, E.KeepingFirst, Committed, Uncut, Surviving;
    var f := v.follower;
    var all, since := Committed(f, o.start), Committed(f, o.hw);
    CommittedOffsets(o, f, o.start);
    CommittedOffsets(o, f, o.hw);
    var n := o.hw - o.start;
    var i, j :| E.IsLeaderChange(all, i) && E.IsLeaderChange(all, j) && i < j && n <= j && all[i].term == all[j].term;
    t := all[i].term;
    assert since[j - n] == all[j] && E.IsLeaderChange(since, j - n);
    var first := E.FirstWins(all, i);
    var last := E.LastWins(since, j - n);
    Lookup(Surviving(w.follower.node.epochs, v.lowest), since, t);
  }
}
