/**
 Responses that are refused after their term or leader was taken over: when
 that happens, what it changes, and when the stored quorum state lags memory.
 */
module ReplicationQuorum {
  import opened Types
  import opened Replication
  import opened ReplicationRun
  import opened ReplicationSafety
  import opened ReplicationTheorems
  import LogSpec
  import Q = DeferredCompletion

  // ---- Guards a caller can evaluate before the call ----

  /** The response brings a later term, or a leader to a follower that knows none. */
  predicate Adopts(n: NodeState, r: FetchResponse) {
    r.leaderEpoch > n.term || (r.leaderEpoch == n.term && n.role == Role.Follower && n.leaderId.None?)
  }

  /** The message reaches the node's validation and is adopted there. */
  predicate Adopted(f: Follower, m: Envelope) {
    && m.clusterId == f.node.clusterId && m.payload.Fetched?
    && m.source == m.payload.response.leaderId && Adopts(f.node, m.payload.response)
  }

  /** The application cannot take an entry. */
  predicate Fails(e: LogEntry, decode: VotersDecoder, rejects: set<Offset>) {
    (e.entryType == Command && e.offset in rejects) || (e.entryType == VotersRecord && decode(e.payload).None?)
  }

  predicate AnyFails(es: seq<LogEntry>, decode: VotersDecoder, rejects: set<Offset>) {
    exists i :: 0 <= i < |es| && Fails(es[i], decode, rejects)
  }

  /** The entries do not continue the log. */
  predicate Misplaced(log: Log, es: seq<LogEntry>) {
    (es != [] && es[0].offset != log.End()) || !Consecutive(es)
  }

  /** The entries a response would newly commit. */
  function NewlyCommitted(n: NodeState, r: FetchResponse): seq<LogEntry> {
    var log := n.log.Append(r.entries);
    log.Read(n.hw, Min(r.highWatermark, log.End()))
  }

  /** What makes the pipeline refuse a response that validation let through. */
  predicate Refuses(n: NodeState, r: FetchResponse, decode: VotersDecoder, rejects: set<Offset>) {
    if r.snapshotId.Some? then r.diverging.Some?
    else if r.diverging.Some? then Min(r.diverging.value.endOffset, n.log.End()) < n.hw
    else Misplaced(n.log, r.entries) || AnyFails(NewlyCommitted(n, r), decode, rejects)
  }

  // ---- The guards are exact ----

  lemma {:induction false} AdoptsExactly(f: Follower, m: Envelope)
    ensures Adopted(f, m) <==> Admitted(f, m) && Validate(f.node, m.payload.response).persist.Some?
  {
  }

  lemma {:induction false} FailsExactly(c: Commit, es: seq<LogEntry>, decode: VotersDecoder, rejects: set<Offset>)
    requires c.error.None?
    ensures ApplyEntries(c, es, decode, rejects).error.Some? <==> AnyFails(es, decode, rejects)
    decreases |es|
  {
    if es != [] {
      var front := es[..|es| - 1];
      FailsExactly(c, front, decode, rejects);
      assert forall i | 0 <= i < |front| :: front[i] == es[i];
      if AnyFails(front, decode, rejects) {
        var i :| 0 <= i < |front| && Fails(front[i], decode, rejects);
        assert Fails(es[i], decode, rejects);
      }
    }
  }

  lemma {:induction false} EntriesRefused(f: Follower, r: FetchResponse, persist: Option<QuorumState>, decode: VotersDecoder,
                           rejects: set<Offset>)
    ensures OnEntries(f, r, persist, decode, rejects).outcome.Err?
      <==> Misplaced(f.node.log, r.entries) || AnyFails(NewlyCommitted(f.node, r), decode, rejects)
  {
    hide ApplyEntries, AnyFails, Commands, Consecutive;
    var n := f.node;
    if !Misplaced(n.log, r.entries) {
      var log := if r.entries == [] then n.log else n.log.Append(r.entries);
      assert log == n.log.Append(r.entries) by { assert n.log.entries + [] == n.log.entries; }
      var newHw := Min(r.highWatermark, log.End());
      var es := log.Read(n.hw, newHw);
      FailsExactly(Commit(n.(log := log, hw := newHw), f.app, None), es, decode, rejects);
      if newHw <= n.hw {
        assert es == [];
        NoneFails(decode, rejects);
      }
    }
  }

  lemma {:induction false} NoneFails(decode: VotersDecoder, rejects: set<Offset>)
    ensures !AnyFails([], decode, rejects)
  {
  }

  /** An adopted response is refused exactly when one of these guards holds. */
  lemma {:induction false} RefusedExactly(f: Follower, m: Envelope, decode: VotersDecoder, rejects: set<Offset>)
    requires Adopted(f, m)
    ensures HandleMessage(f, m, decode, rejects).outcome.Err? <==> Refuses(f.node, m.payload.response, decode, rejects)
  {
    hide OnEntries, Misplaced, AnyFails, NewlyCommitted;
    var r := m.payload.response;
    var v := Validate(f.node, r);
    EntriesRefused(f.(node := v.node), r, v.persist, decode, rejects);
    SameGuards(f.node, v.node, r, decode, rejects);
  }

  lemma {:induction false} SameGuards(n: NodeState, m: NodeState, r: FetchResponse, decode: VotersDecoder, rejects: set<Offset>)
    requires m.log == n.log && m.hw == n.hw
    ensures Refuses(m, r, decode, rejects) <==> Refuses(n, r, decode, rejects)
    ensures NewlyCommitted(m, r) == NewlyCommitted(n, r)
  {
    hide AnyFails, Misplaced;
  }

  /**
   A response that is refused, without halting the node, leaves everything as
   it was exactly when it was not adopted first.
   */
  lemma {:induction false} RefusedUnchangedExactly(f: Follower, m: Envelope, decode: VotersDecoder, rejects: set<Offset>)
    requires HandleMessage(f, m, decode, rejects).outcome.Err?
    requires !Halts(HandleMessage(f, m, decode, rejects).outcome.error)
    ensures HandleMessage(f, m, decode, rejects).follower == f <==> !Adopted(f, m)
  {
    hide ApplyEntries, Commands, Consecutive, OnEntries;
    if Admitted(f, m) {
      var v := Validate(f.node, m.payload.response);
      EntriesRefusedQuietly(f.(node := v.node), m.payload.response, v.persist, decode, rejects);
    }
  }

  lemma {:induction false} EntriesRefusedQuietly(f: Follower, r: FetchResponse, persist: Option<QuorumState>, decode: VotersDecoder,
                                  rejects: set<Offset>)
    ensures var s := OnEntries(f, r, persist, decode, rejects); s.outcome.Err? && !Halts(s.outcome.error) ==> s.follower == f
  {
    hide ApplyEntries, Commands, Consecutive;
    var log := if r.entries == [] then f.node.log else f.node.log.Append(r.entries);
    var newHw := Min(r.highWatermark, log.End());
    AppliedEntries(Commit(f.node.(log := log, hw := newHw), f.app, None), log.Read(f.node.hw, newHw), decode, rejects);
  }

  // ---- The stored quorum state ----

  /** The stored term, vote and leader are those in memory. */
  predicate Mirrors(stored: QuorumState, n: NodeState) {
    stored.term == n.term && stored.votedFor == n.votedFor && stored.leaderId == n.leaderId
  }

  lemma {:induction false} PersistedLast(stored: QuorumState, rest: seq<IoAction>, persist: Option<QuorumState>)
    requires forall a | a in rest :: !a.PersistQuorumState?
    ensures StoredAfter(stored, rest + Persist(persist)) == if persist.Some? then persist.value else stored
    decreases |rest|
  {
    var batch := rest + Persist(persist);
    if persist.None? {
      assert batch == rest;
      if rest != [] {
        assert rest[|rest| - 1] in rest;
        assert rest[..|rest| - 1] + Persist(None) == rest[..|rest| - 1];
        PersistedLast(stored, rest[..|rest| - 1], None);
      }
    }
  }

  /** What validation makes of a node, when the message gets that far. */
  function Chosen(f: Follower, m: Envelope): NodeState {
    if Admitted(f, m) then Validate(f.node, m.payload.response).node else f.node
  }

  /** Nothing after validation touches term, vote or leader. */
  lemma {:induction false} KeepsQuorum(f: Follower, m: Envelope, decode: VotersDecoder, rejects: set<Offset>)
    ensures var n := HandleMessage(f, m, decode, rejects).follower.node; var c := Chosen(f, m);
      n.term == c.term && n.votedFor == c.votedFor && n.leaderId == c.leaderId
  {
    hide ApplyEntries, Commands, Consecutive, OnEntries, Validate;
    if Admitted(f, m) {
      var v := Validate(f.node, m.payload.response);
      EntriesKeepQuorum(f.(node := v.node), m.payload.response, v.persist, decode, rejects);
    }
  }

  lemma {:induction false} EntriesKeepQuorum(f: Follower, r: FetchResponse, persist: Option<QuorumState>, decode: VotersDecoder,
                              rejects: set<Offset>)
    ensures var n := OnEntries(f, r, persist, decode, rejects).follower.node;
      n.term == f.node.term && n.votedFor == f.node.votedFor && n.leaderId == f.node.leaderId
  {
    hide ApplyEntries, Commands, Consecutive;
    var log := if r.entries == [] then f.node.log else f.node.log.Append(r.entries);
    var newHw := Min(r.highWatermark, log.End());
    AppliedEntries(Commit(f.node.(log := log, hw := newHw), f.app, None), log.Read(f.node.hw, newHw), decode, rejects);
  }

  /** An accepted response emits the quorum state that validation asked for, last. */
  lemma {:induction false} StoredByBatch(f: Follower, m: Envelope, stored: QuorumState, decode: VotersDecoder, rejects: set<Offset>)
    requires HandleMessage(f, m, decode, rejects).outcome.Ok?
    ensures Admitted(f, m)
    ensures var persist := Validate(f.node, m.payload.response).persist;
      StoredAfter(stored, HandleMessage(f, m, decode, rejects).outcome.batch) == if persist.Some? then persist.value else stored
  {
    hide ApplyEntries, Commands, Consecutive, StoredAfter, Validate, FetchActions;
    var r := m.payload.response;
    var v := Validate(f.node, r);
    var s := HandleMessage(f, m, decode, rejects);
    var rest := Leading(f, m, s);
    assert s.outcome.batch == rest + Persist(v.persist);
    PersistedLast(stored, rest, v.persist);
  }

  /** The actions before the quorum state. */
  function Leading(f: Follower, m: Envelope, s: StepResult): (rest: seq<IoAction>)
    requires Admitted(f, m)
    ensures forall a | a in rest :: !a.PersistQuorumState?
  {
    var r := m.payload.response;
    var n := Validate(f.node, r).node;
    if r.snapshotId.Some? then
      if f.transferInProgress then []
      else [SendRpc(if n.leaderId.Some? then n.leaderId.value else r.leaderId, FetchSnapshotRequest(r.snapshotId.value, 0))]
    else if r.diverging.Some? then
      var cut := Min(r.diverging.value.endOffset, n.log.End());
      [TruncateSuffix(cut)] + FetchActions(CutNode(n, cut))
    else if r.entries == [] then [] else [AppendLog(r.entries)]
  }

  /** The store is never ahead of memory. */
  predicate Behind(stored: QuorumState, n: NodeState) {
    && stored.term <= n.term
    && (stored.term == n.term && stored.leaderId.Some? ==> n.leaderId == stored.leaderId)
  }

  /**
   After a message the stored quorum state mirrors memory exactly when it did
   before, or, for an adopted response, exactly when that was not refused.
   */
  lemma {:induction false} MirrorsExactly(f: Follower, m: Envelope, stored: QuorumState, decode: VotersDecoder, rejects: set<Offset>)
    requires Behind(stored, f.node)
    ensures var s := HandleMessage(f, m, decode, rejects);
      var after := if s.outcome.Ok? then StoredAfter(stored, s.outcome.batch) else stored;
      && Behind(after, s.follower.node)
      && (Mirrors(after, s.follower.node) <==>
            if Adopted(f, m) then !Refuses(f.node, m.payload.response, decode, rejects) else Mirrors(stored, f.node))
  {
    hide HandleMessage, StoredAfter, Refuses;
    var s := HandleMessage(f, m, decode, rejects);
    KeepsQuorum(f, m, decode, rejects);
    AdoptsExactly(f, m);
    if s.outcome.Ok? { StoredByBatch(f, m, stored, decode, rejects); }
    if Adopted(f, m) { RefusedExactly(f, m, decode, rejects); }
  }

  // ---- Whole runs ----

  /** The last response adopted in the run was refused. */
  ghost predicate Lagging(w: World, evs: seq<Event>, decode: VotersDecoder)
    decreases |evs|
  {
    evs != [] &&
    var v, ev := Run(w, evs[..|evs| - 1], decode), evs[|evs| - 1];
    if !v.halted && ev.Deliver? && Adopted(v.follower, ev.m)
    then Refuses(v.follower.node, ev.m.payload.response, decode, ev.rejects)
    else Lagging(w, evs[..|evs| - 1], decode)
  }

  /**
   In every run that starts with the stored quorum state in step, it is in step
   at the end exactly when no response was adopted or the last one adopted was
   not refused.
   */
  lemma {:induction false} StoredMirrorsExactly(w: World, evs: seq<Event>, decode: VotersDecoder)
    requires Mirrors(w.stored, w.follower.node)
    ensures var v := Run(w, evs, decode);
      && (Mirrors(v.stored, v.follower.node) <==> !Lagging(w, evs, decode))
      && Behind(v.stored, v.follower.node)
      && (Lagging(w, evs, decode) ==> v.follower.node.leaderId.Some?)
    decreases |evs|
  {
    hide HandleMessage, StoredAfter, Refuses, LowestAfter, Replay, Q.Park, Adopted;
    if evs != [] {
      var front, ev := evs[..|evs| - 1], evs[|evs| - 1];
      StoredMirrorsExactly(w, front, decode);
      var v := Run(w, front, decode);
      if !v.halted && ev.Deliver? {
        MirrorsExactly(v.follower, ev.m, v.stored, decode, ev.rejects);
        LeaderStays(v.follower, ev.m, decode, ev.rejects);
      }
    }
  }

  lemma {:induction false} LeaderStays(f: Follower, m: Envelope, decode: VotersDecoder, rejects: set<Offset>)
    ensures var n := HandleMessage(f, m, decode, rejects).follower.node;
      && (f.node.leaderId.Some? || Adopted(f, m) ==> n.leaderId.Some?)
      && f.node.term <= n.term
      && (f.node.leaderId.Some? && n.term == f.node.term ==> !Adopted(f, m))
  {
    hide HandleMessage;
    KeepsQuorum(f, m, decode, rejects);
  }

  /** A refused adoption is never made up for while its term lasts. */
  lemma {:induction false} LagLasts(w: World, evs: seq<Event>, k: nat, decode: VotersDecoder)
    requires Mirrors(w.stored, w.follower.node) && k <= |evs| && Lagging(w, evs[..k], decode)
    requires Run(w, evs, decode).follower.node.term == Run(w, evs[..k], decode).follower.node.term
    ensures Lagging(w, evs, decode)
    ensures Run(w, evs, decode).stored.term == Run(w, evs[..k], decode).stored.term
    decreases |evs|
  {
    hide HandleMessage, StoredAfter, Refuses, LowestAfter, Replay, Q.Park, Adopted, Mirrors;
    if k == |evs| {
      assert evs[..k] == evs;
    } else {
      var front, ev := evs[..|evs| - 1], evs[|evs| - 1];
      assert front[..k] == evs[..k];
      TermsRise(w, front, k, decode);
      var v := Run(w, front, decode);
      if !v.halted && ev.Deliver? { LeaderStays(v.follower, ev.m, decode, ev.rejects); }
      LagLasts(w, front, k, decode);
      StoredMirrorsExactly(w, front, decode);
      if !v.halted && ev.Deliver? { StoredStays(v.follower, ev.m, v.stored, decode, ev.rejects); }
    }
  }

  lemma {:induction false} StoredStays(f: Follower, m: Envelope, stored: QuorumState, decode: VotersDecoder, rejects: set<Offset>)
    requires !Adopted(f, m)
    ensures var s := HandleMessage(f, m, decode, rejects); s.outcome.Ok? ==> StoredAfter(stored, s.outcome.batch) == stored
  {
    hide HandleMessage, StoredAfter;
    AdoptsExactly(f, m);
    if HandleMessage(f, m, decode, rejects).outcome.Ok? { StoredByBatch(f, m, stored, decode, rejects); }
  }

  lemma {:induction false} TermsRise(w: World, evs: seq<Event>, k: nat, decode: VotersDecoder)
    requires k <= |evs|
    ensures Run(w, evs[..k], decode).follower.node.term <= Run(w, evs, decode).follower.node.term
    decreases |evs|
  {
    hide HandleMessage, StoredAfter, LowestAfter, Replay, Q.Park;
    if k == |evs| {
      assert evs[..k] == evs;
    } else {
      var front, ev := evs[..|evs| - 1], evs[|evs| - 1];
      assert front[..k] == evs[..k];
      TermsRise(w, front, k, decode);
      var v := Run(w, front, decode);
      if !v.halted && ev.Deliver? { LeaderStays(v.follower, ev.m, decode, ev.rejects); }
    }
  }

  // ---- A response that does it ----

  /** A follower of term 3 that voted for node 2 and follows it, with its state stored. */
  const FOLLOWER: Follower := Follower.Follower(
    NodeState(1, 7, 3, Some(2), Some(2), Role.Follower, {}, {}, LogSpec.Log(0, []), 0, [], None, map[]),
    App([], [], false), Q.Queue(map[], [], []), false)

  const STORED: QuorumState := QuorumState(3, Some(2), Some(2), 3)

  /** A response of term 4 with both a snapshot and a divergence. */
  const BOTH: Envelope := Envelope(7, 5,
    Fetched(FetchResponse(5, 4, 0, 0, [], Some(DivergingEpoch(1, 0)), Some(SnapshotId(9, 2)))))

  /** It is refused, yet memory is in term 4 under node 5 while the store says term 3 and node 2. */
  lemma {:induction false} RefusedButAdopted(decode: VotersDecoder, rejects: set<Offset>)
    ensures Mirrors(STORED, FOLLOWER.node)
    ensures var s := HandleMessage(FOLLOWER, BOTH, decode, rejects);
      && s.outcome == Err(InvalidResponse(BothFields))
      && s.follower.node.term == 4 && s.follower.node.leaderId == Some(5) && s.follower != FOLLOWER
      && !Mirrors(STORED, s.follower.node)
  {
  }
}
