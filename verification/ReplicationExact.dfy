/**
 What the fetch pipeline answers to every message, on guards a caller can
 evaluate on the message and the follower before the call.
 */
module ReplicationExact {
  import opened Types
  import opened Replication
  import opened ReplicationRun
  import opened ReplicationQuorum
  import LogSpec
  import SortedKeys
  import E = LeaderEpochs
  import Q = DeferredCompletion

  // ---- Guards ----

  /** A response of the leader the follower already follows, in the term it is in. */
  predicate Follows(n: NodeState, r: FetchResponse) {
    r.leaderEpoch == n.term && n.role == Role.Follower && n.leaderId == Some(r.leaderId)
  }

  /** A fetch response of this cluster, sent by the leader it names. */
  predicate Addressed(f: Follower, m: Envelope) {
    m.clusterId == f.node.clusterId && m.payload.Fetched? && m.source == m.payload.response.leaderId
  }

  predicate Heard(f: Follower, m: Envelope) {
    Addressed(f, m) && (Adopts(f.node, m.payload.response) || Follows(f.node, m.payload.response))
  }

  /** A response with entries only. */
  predicate Plain(r: FetchResponse) { r.snapshotId.None? && r.diverging.None? }

  // ---- Exactly the refusals ----

  /** A message has an effect exactly when it is heard and nothing makes the pipeline refuse it. */
  lemma {:induction false} OutcomeExactly(f: Follower, m: Envelope, decode: VotersDecoder, rejects: set<Offset>)
    ensures HandleMessage(f, m, decode, rejects).outcome.Ok?
      <==> Heard(f, m) && !Refuses(f.node, m.payload.response, decode, rejects)
  {
    hide OnEntries, Misplaced, AnyFails, NewlyCommitted;
    if Addressed(f, m) {
      var r := m.payload.response;
      if Adopts(f.node, r) {
        RefusedExactly(f, m, decode, rejects);
      } else if Follows(f.node, r) {
        EntriesRefused(f, r, None, decode, rejects);
      }
    }
  }

  /** What is said of an entry the application cannot take. */
  function Complaint(e: LogEntry): Error {
    if e.entryType == Command then ApplyError(e.offset) else InvalidResponse(VotersUndecodable)
  }

  /** The first entry the application cannot take. */
  ghost predicate FirstFailing(es: seq<LogEntry>, i: nat, decode: VotersDecoder, rejects: set<Offset>) {
    i < |es| && Fails(es[i], decode, rejects) && !AnyFails(es[..i], decode, rejects)
  }

  lemma {:induction false} FindFirst(es: seq<LogEntry>, decode: VotersDecoder, rejects: set<Offset>) returns (i: nat)
    requires AnyFails(es, decode, rejects)
    ensures FirstFailing(es, i, decode, rejects)
    decreases |es|
  {
    var n := |es| - 1;
    if AnyFails(es[..n], decode, rejects) {
      i := FindFirst(es[..n], decode, rejects);
      assert es[..n][..i] == es[..i];
    } else {
      assert forall k | 0 <= k < n :: es[..n][k] == es[k];
      i := n;
    }
  }

  /** A voters record at or after the offset is among the entries. */
  ghost predicate Overtaken(at: Offset, es: seq<LogEntry>) {
    exists i :: 0 <= i < |es| && es[i].entryType == VotersRecord && at <= es[i].offset
  }

  /** What committing entries makes of a node: the voters, the checkpoint and the pending change. */
  ghost function Derived(n: NodeState, es: seq<LogEntry>, decode: VotersDecoder): NodeState {
    n.(voterSet := LastVoters(n.voterSet, es, decode), epochs := E.Overwriting(n.epochs, es),
       pendingChange := if n.pendingChange.Some? && Overtaken(n.pendingChange.value.offset, es) then None else n.pendingChange)
  }

  /** The entries before it take effect, it is reported, and a refused command shuts the listener down. */
  lemma {:induction false} StopsAtFirst(c: Commit, es: seq<LogEntry>, i: nat, decode: VotersDecoder, rejects: set<Offset>)
    requires c.error.None? && FirstFailing(es, i, decode, rejects)
    ensures var d := ApplyEntries(c, es, decode, rejects);
      && d.error == Some(Complaint(es[i]))
      && d.app.applied == c.app.applied + Commands(es[..i]) && d.app.batches == c.app.batches
      && d.app.shutdown == (c.app.shutdown || es[i].entryType == Command)
      && d.node == Derived(c.node, es[..i], decode)
    decreases |es|
  {
    hide Commands, Derived, AnyFails;
    var n := |es| - 1;
    if i == n {
      CommitSucceeds(c, es[..n], decode, rejects);
    } else {
      assert es[..n][..i] == es[..i];
      StopsAtFirst(c, es[..n], i, decode, rejects);
    }
  }

  lemma {:induction false} NoShutdown(c: Commit, es: seq<LogEntry>, decode: VotersDecoder, rejects: set<Offset>)
    requires c.error.None?
    ensures var d := ApplyEntries(c, es, decode, rejects); d.error.None? ==> d.app.shutdown == c.app.shutdown
    decreases |es|
  {
    if es != [] { NoShutdown(c, es[..|es| - 1], decode, rejects); }
  }

  /** Every reason for a refusal, with the messages that get it. */
  lemma {:induction false} ReasonsExactly(f: Follower, m: Envelope, decode: VotersDecoder, rejects: set<Offset>)
    ensures var out := HandleMessage(f, m, decode, rejects).outcome;
      && (out == Err(InvalidClusterId) <==> m.clusterId != f.node.clusterId)
      && (out == Err(InvalidResponse(Unhandled)) <==> m.clusterId == f.node.clusterId && m.payload.OtherPayload?)
      && (out == Err(InvalidResponse(SourceMismatch)) <==>
            m.clusterId == f.node.clusterId && m.payload.Fetched? && m.source != m.payload.response.leaderId)
  {
    hide OnEntries;
    if Addressed(f, m) {
      var v := Validate(f.node, m.payload.response);
      if v.Accepted? { EntriesReasons(f.(node := v.node), m.payload.response, v.persist, decode, rejects); }
    }
  }

  /** The same for the responses that reach validation. */
  lemma {:induction false} ResponseReasonsExactly(f: Follower, m: Envelope, decode: VotersDecoder, rejects: set<Offset>)
    requires Addressed(f, m)
    ensures var out := HandleMessage(f, m, decode, rejects).outcome; var n, r := f.node, m.payload.response;
      && (out == Err(InvalidResponse(StaleEpoch)) <==> r.leaderEpoch < n.term)
      && (out == Err(InvalidResponse(NotFollower)) <==> r.leaderEpoch == n.term && n.role != Role.Follower)
      && (out == Err(InvalidResponse(WrongLeader)) <==>
            r.leaderEpoch == n.term && n.role == Role.Follower && n.leaderId.Some? && n.leaderId != Some(r.leaderId))
      && (out == Err(InvalidResponse(BothFields)) <==> Heard(f, m) && r.snapshotId.Some? && r.diverging.Some?)
      && (out == Err(InvalidResponse(BelowHighWatermark)) <==>
            && Heard(f, m) && r.snapshotId.None? && r.diverging.Some?
            && Min(r.diverging.value.endOffset, n.log.End()) < n.hw)
      && (out == Err(InvalidResponse(OffsetMismatch)) <==>
            Heard(f, m) && Plain(r) && r.entries != [] && r.entries[0].offset != n.log.End())
      && (out == Err(InvalidResponse(NonContiguous)) <==>
            && Heard(f, m) && Plain(r) && !Consecutive(r.entries)
            && (r.entries != [] ==> r.entries[0].offset == n.log.End()))
  {
    hide OnEntries, Consecutive;
    var v := Validate(f.node, m.payload.response);
    if v.Accepted? { EntriesReasons(f.(node := v.node), m.payload.response, v.persist, decode, rejects); }
  }

  lemma {:induction false} EntriesReasons(f: Follower, r: FetchResponse, persist: Option<QuorumState>, decode: VotersDecoder,
                           rejects: set<Offset>)
    ensures var out := OnEntries(f, r, persist, decode, rejects).outcome;
      out.Err? ==>
        || Halts(out.error)
        || out.error == InvalidResponse(if r.entries != [] && r.entries[0].offset != f.node.log.End() then OffsetMismatch else NonContiguous)
    ensures var out := OnEntries(f, r, persist, decode, rejects).outcome;
      Misplaced(f.node.log, r.entries) <==> out.Err? && !Halts(out.error)
  {
    hide ApplyEntries, Commands, Consecutive;
    var log := if r.entries == [] then f.node.log else f.node.log.Append(r.entries);
    var newHw := Min(r.highWatermark, log.End());
    AppliedEntries(Commit(f.node.(log := log, hw := newHw), f.app, None), log.Read(f.node.hw, newHw), decode, rejects);
  }

  // ---- What every heard response settles ----

  /** The quorum state to store: only for a response that brings a term or a leader. */
  function ToStore(n: NodeState, r: FetchResponse): Option<QuorumState> {
    if !Adopts(n, r) then None
    else Some(QuorumState(r.leaderEpoch, if r.leaderEpoch > n.term then None else n.votedFor, Some(r.leaderId), r.leaderEpoch))
  }

  /** Refused or not, a heard response makes the node a follower of its sender; no other message changes anything. */
  lemma {:induction false} LeaderTaken(f: Follower, m: Envelope, decode: VotersDecoder, rejects: set<Offset>)
    ensures var g := HandleMessage(f, m, decode, rejects).follower;
      if !Heard(f, m) then g == f
      else
        var n, r := f.node, m.payload.response;
        && g.node.term == r.leaderEpoch && g.node.leaderId == Some(r.leaderId) && g.node.role == Role.Follower
        && g.node.id == n.id && g.node.clusterId == n.clusterId
        && (r.leaderEpoch > n.term ==> g.node.votedFor == None && g.node.votes == {} && g.node.preVotes == {})
        && (r.leaderEpoch == n.term ==>
              g.node.votedFor == n.votedFor && g.node.votes == n.votes && g.node.preVotes == n.preVotes)
  {
    hide OnEntries;
    if Heard(f, m) {
      var v := Validate(f.node, m.payload.response);
      if v.Accepted? { EntriesKeepIdentity(f.(node := v.node), m.payload.response, v.persist, decode, rejects); }
    }
  }

  lemma {:induction false} EntriesKeepIdentity(f: Follower, r: FetchResponse, persist: Option<QuorumState>, decode: VotersDecoder,
                                rejects: set<Offset>)
    ensures var n := OnEntries(f, r, persist, decode, rejects).follower.node;
      n == f.node.(log := n.log, hw := n.hw, voterSet := n.voterSet, pendingChange := n.pendingChange, epochs := n.epochs)
  {
    hide OnEntries, Misplaced, Advance;
    MisplacedStays(f, r, persist, decode, rejects);
    if !Misplaced(f.node.log, r.entries) {
      AppendedFirst(f, r, persist, decode, rejects);
      AdvanceKeepsIdentity(f.(node := f.node.(log := f.node.log.Append(r.entries))), r.highWatermark,
        Ok((if r.entries == [] then [] else [AppendLog(r.entries)]) + Persist(persist), false), decode, rejects);
    }
  }

  lemma {:induction false} MisplacedStays(f: Follower, r: FetchResponse, persist: Option<QuorumState>, decode: VotersDecoder,
                           rejects: set<Offset>)
    ensures Misplaced(f.node.log, r.entries) ==> OnEntries(f, r, persist, decode, rejects).follower == f
  {
    hide Consecutive, Advance;
  }

  lemma {:induction false} AdvanceKeepsIdentity(f: Follower, leaderHw: Offset, success: Outcome, decode: VotersDecoder, rejects: set<Offset>)
    ensures var n := Advance(f, leaderHw, success, decode, rejects).follower.node;
      n == f.node.(hw := n.hw, voterSet := n.voterSet, pendingChange := n.pendingChange, epochs := n.epochs)
  {
    hide ApplyEntries, Commands;
    var newHw := Min(leaderHw, f.node.log.End());
    AppliedEntries(Commit(f.node.(hw := newHw), f.app, None), f.node.log.Read(f.node.hw, newHw), decode, rejects);
  }

  // ---- Responses with entries ----

  /** The node's own part of an append: the log, the watermark and what committing derives. */
  ghost predicate Grown(f: Follower, r: FetchResponse, g: Follower, decode: VotersDecoder) {
    var n, log := f.node, f.node.log.Append(r.entries);
    var newly := NewlyCommitted(n, r);
    && g.node.log == log
    && g.node.hw == Max(n.hw, Min(r.highWatermark, log.End()))
    && SameDerived(g.node, Derived(n, newly, decode))
  }

  /**
   The application's part: the newly committed commands, one batch for the
   listener, completions below the watermark.
   */
  ghost predicate Told(f: Follower, r: FetchResponse, g: Follower) {
    var newly := NewlyCommitted(f.node, r);
    if g.node.hw == f.node.hw then g.app == f.app && g.queue == f.queue
    else
      && g.app == App(f.app.applied + Commands(newly), f.app.batches + [Commands(newly)], f.app.shutdown)
      && g.queue == Q.Complete(f.queue, g.node.hw)
  }

  /** A response with entries that is not refused: exactly what it changes and what it asks to be written. */
  lemma {:induction false} GrowsExactly(f: Follower, m: Envelope, decode: VotersDecoder, rejects: set<Offset>)
    requires Heard(f, m) && Plain(m.payload.response) && !Refuses(f.node, m.payload.response, decode, rejects)
    ensures var s := HandleMessage(f, m, decode, rejects); var r := m.payload.response;
      && Grown(f, r, s.follower, decode) && Told(f, r, s.follower)
      && s.follower.transferInProgress == f.transferInProgress
      && s.outcome == Ok((if r.entries == [] then [] else [AppendLog(r.entries)]) + Persist(ToStore(f.node, r)), false)
  {
    hide OnEntries, Grown, Told, Misplaced, AnyFails, NewlyCommitted;
    var r := m.payload.response;
    var v := Validate(f.node, r);
    var g := f.(node := v.node);
    assert v.persist == ToStore(f.node, r);
    SameGuards(f.node, v.node, r, decode, rejects);
    EntriesGrow(g, r, v.persist, decode, rejects);
    SameGrowth(f, g, r, OnEntries(g, r, v.persist, decode, rejects).follower, decode);
  }

  lemma {:induction false} SameGrowth(f: Follower, g: Follower, r: FetchResponse, h: Follower, decode: VotersDecoder)
    requires g == f.(node := g.node)
    requires g.node.log == f.node.log && g.node.hw == f.node.hw && g.node.voterSet == f.node.voterSet
    requires g.node.epochs == f.node.epochs && g.node.pendingChange == f.node.pendingChange
    ensures Grown(g, r, h, decode) <==> Grown(f, r, h, decode)
    ensures Told(g, r, h) <==> Told(f, r, h)
  {
    hide Commands, E.Overwriting, LastVoters, Overtaken;
  }

  /** Entries that continue the log are appended before the watermark moves. */
  lemma {:induction false} AppendedFirst(f: Follower, r: FetchResponse, persist: Option<QuorumState>, decode: VotersDecoder,
                          rejects: set<Offset>)
    requires !Misplaced(f.node.log, r.entries)
    ensures OnEntries(f, r, persist, decode, rejects) ==
      Advance(f.(node := f.node.(log := f.node.log.Append(r.entries))), r.highWatermark,
              Ok((if r.entries == [] then [] else [AppendLog(r.entries)]) + Persist(persist), false), decode, rejects)
  {
    hide Advance, Consecutive;
    var n := f.node;
    if r.entries == [] {
      assert n.log.entries + [] == n.log.entries;
      assert n.(log := n.log.Append([])) == n;
      assert [] + Persist(persist) == Persist(persist);
    }
  }

  lemma {:induction false} EntriesGrow(f: Follower, r: FetchResponse, persist: Option<QuorumState>, decode: VotersDecoder,
                        rejects: set<Offset>)
    requires !Misplaced(f.node.log, r.entries) && !AnyFails(NewlyCommitted(f.node, r), decode, rejects)
    ensures var s := OnEntries(f, r, persist, decode, rejects);
      && Grown(f, r, s.follower, decode) && Told(f, r, s.follower)
      && s.follower.transferInProgress == f.transferInProgress
      && s.outcome == Ok((if r.entries == [] then [] else [AppendLog(r.entries)]) + Persist(persist), false)
  {
    hide ApplyEntries, Commands, Misplaced, AnyFails, E.Overwriting, LastVoters, Overtaken, Q.Complete, OnEntries;
    AppendedFirst(f, r, persist, decode, rejects);
    var n := f.node;
    var log := n.log.Append(r.entries);
    var newHw := Min(r.highWatermark, log.End());
    var es := log.Read(n.hw, newHw);
    assert es == NewlyCommitted(n, r);
    if newHw > n.hw {
      CommitSucceeds(Commit(n.(log := log, hw := newHw), f.app, None), es, decode, rejects);
    } else {
      NothingDerived(n, decode);
    }
  }

  /** What a commit notification without failures does. */
  lemma {:induction false} CommitSucceeds(c: Commit, es: seq<LogEntry>, decode: VotersDecoder, rejects: set<Offset>)
    requires c.error.None? && !AnyFails(es, decode, rejects)
    ensures var d := ApplyEntries(c, es, decode, rejects);
      && d.error.None? && d.app == c.app.(applied := c.app.applied + Commands(es))
      && d.node == Derived(c.node, es, decode)
  {
    hide ApplyEntries, Commands, AnyFails, E.Overwriting, LastVoters, Overtaken;
    FailsExactly(c, es, decode, rejects);
    AppliedEntries(c, es, decode, rejects);
    NoShutdown(c, es, decode, rejects);
    ChangeSettled(c, es, decode, rejects);
  }

  lemma {:induction false} NothingDerived(n: NodeState, decode: VotersDecoder)
    ensures LastVoters(n.voterSet, [], decode) == n.voterSet && E.Overwriting(n.epochs, []) == n.epochs
    ensures forall at :: !Overtaken(at, [])
  {
  }

  /** A pending change is settled exactly by a committed voters record at or after it. */
  lemma {:induction false} ChangeSettled(c: Commit, es: seq<LogEntry>, decode: VotersDecoder, rejects: set<Offset>)
    requires c.error.None? && ApplyEntries(c, es, decode, rejects).error.None?
    ensures ApplyEntries(c, es, decode, rejects).node.pendingChange
      == if c.node.pendingChange.Some? && Overtaken(c.node.pendingChange.value.offset, es) then None else c.node.pendingChange
    decreases |es|
  {
    if es != [] {
      var n := |es| - 1;
      ChangeSettled(c, es[..n], decode, rejects);
      if c.node.pendingChange.Some? { OvertakenLast(c.node.pendingChange.value.offset, es); }
    }
  }

  lemma {:induction false} OvertakenLast(at: Offset, es: seq<LogEntry>)
    requires es != []
    ensures Overtaken(at, es) <==>
      Overtaken(at, es[..|es| - 1]) || (es[|es| - 1].entryType == VotersRecord && at <= es[|es| - 1].offset)
  {
    var front := es[..|es| - 1];
    assert forall i | 0 <= i < |front| :: front[i] == es[i];
    if Overtaken(at, front) {
      var i :| 0 <= i < |front| && front[i].entryType == VotersRecord && at <= front[i].offset;
      assert es[i] == front[i];
    }
  }

  /**
   A failed commit notification: the log has grown and the watermark is raised,
   but only the commands before the failure are applied and nobody else is told.
   */
  lemma {:induction false} HaltsExactly(f: Follower, m: Envelope, decode: VotersDecoder, rejects: set<Offset>) returns (i: nat)
    requires Heard(f, m) && Plain(m.payload.response) && !Misplaced(f.node.log, m.payload.response.entries)
    requires AnyFails(NewlyCommitted(f.node, m.payload.response), decode, rejects)
    ensures FirstFailing(NewlyCommitted(f.node, m.payload.response), i, decode, rejects)
    ensures var s := HandleMessage(f, m, decode, rejects); var r := m.payload.response;
      var newly := NewlyCommitted(f.node, r);
      && s.outcome == Err(Complaint(newly[i]))
      && s.follower.node.log == f.node.log.Append(r.entries)
      && s.follower.node.hw == Min(r.highWatermark, f.node.log.End() + |r.entries|) > f.node.hw
      && SameDerived(s.follower.node, Derived(f.node, newly[..i], decode))
      && s.follower.app == App(f.app.applied + Commands(newly[..i]), f.app.batches, f.app.shutdown || newly[i].entryType == Command)
      && s.follower.queue == f.queue
  {
    hide OnEntries, Misplaced, FirstFailing, NewlyCommitted, Commands, AnyFails;
    var r := m.payload.response;
    i := FindFirst(NewlyCommitted(f.node, r), decode, rejects);
    var v := Validate(f.node, r);
    SameGuards(f.node, v.node, r, decode, rejects);
    EntriesHalt(f.(node := v.node), r, v.persist, i, decode, rejects);
  }

  /** The same voters, checkpoint and pending change. */
  ghost predicate SameDerived(a: NodeState, b: NodeState) {
    a.voterSet == b.voterSet && a.epochs == b.epochs && a.pendingChange == b.pendingChange
  }

  lemma {:induction false} EntriesHalt(f: Follower, r: FetchResponse, persist: Option<QuorumState>, i: nat, decode: VotersDecoder,
                        rejects: set<Offset>)
    requires !Misplaced(f.node.log, r.entries) && FirstFailing(NewlyCommitted(f.node, r), i, decode, rejects)
    ensures var s := OnEntries(f, r, persist, decode, rejects); var newly := NewlyCommitted(f.node, r);
      && s.outcome == Err(Complaint(newly[i]))
      && s.follower.node.log == f.node.log.Append(r.entries)
      && s.follower.node.hw == Min(r.highWatermark, f.node.log.End() + |r.entries|) > f.node.hw
      && SameDerived(s.follower.node, Derived(f.node, newly[..i], decode))
      && s.follower.app == App(f.app.applied + Commands(newly[..i]), f.app.batches, f.app.shutdown || newly[i].entryType == Command)
      && s.follower.queue == f.queue
  {
    hide ApplyEntries, Commands, Misplaced, FirstFailing, OnEntries;
    AppendedFirst(f, r, persist, decode, rejects);
    var n := f.node;
    var log := n.log.Append(r.entries);
    var newHw := Min(r.highWatermark, log.End());
    var es := log.Read(n.hw, newHw);
    assert es == NewlyCommitted(n, r);
    FailingIsSome(es, i, decode, rejects);
    var c := Commit(n.(log := log, hw := newHw), f.app, None);
    StopsAtFirst(c, es, i, decode, rejects);
    AppliedEntries(c, es, decode, rejects);
  }

  lemma {:induction false} FailingIsSome(es: seq<LogEntry>, i: nat, decode: VotersDecoder, rejects: set<Offset>)
    requires FirstFailing(es, i, decode, rejects)
    ensures i < |es|
  {
  }

  // ---- Divergence answers ----

  /** The term of the last entry before an offset. */
  function TermBefore(log: Log, at: Offset): Term {
    if log.start < at <= log.End() then log.entries[at - 1 - log.start].term else 0
  }

  /**
   A divergence answer that is not refused: the log is cut where it says, or at
   its end, and fetching resumes there.
   */
  lemma {:induction false} CutsExactly(f: Follower, m: Envelope, decode: VotersDecoder, rejects: set<Offset>)
    requires Heard(f, m) && m.payload.response.snapshotId.None? && m.payload.response.diverging.Some?
    requires !Refuses(f.node, m.payload.response, decode, rejects) && f.node.log.start <= f.node.hw
    ensures var s := HandleMessage(f, m, decode, rejects); var n, r := f.node, m.payload.response;
      var cut := Min(r.diverging.value.endOffset, n.log.End());
      && s.follower.node.log == LogSpec.Log(n.log.start, n.log.entries[..cut - n.log.start])
      && s.follower.node.hw == n.hw && s.follower.node.voterSet == n.voterSet
      && (forall t :: t in s.follower.node.epochs <==> t in n.epochs && n.epochs[t] < cut)
      && (forall t | t in s.follower.node.epochs :: s.follower.node.epochs[t] == n.epochs[t])
      && s.follower.node.pendingChange ==
           (if n.pendingChange.Some? && n.pendingChange.value.offset < cut then n.pendingChange else None)
      && s.follower.app == f.app && s.follower.transferInProgress == f.transferInProgress
      && s.outcome == Ok([TruncateSuffix(cut),
                          SendRpc(r.leaderId, FetchRequest(n.id, cut, TermBefore(n.log, cut)))] + Persist(ToStore(n, r)), false)
  {
    hide OnDivergence, OnEntries, OnSnapshot;
    var v := Validate(f.node, m.payload.response);
    DivergenceCuts(f.(node := v.node), m.payload.response.diverging.value, v.persist, m.payload.response.leaderId);
  }

  lemma {:induction false} DivergenceCuts(f: Follower, d: DivergingEpoch, persist: Option<QuorumState>, leader: NodeId)
    requires f.node.log.start <= f.node.hw <= Min(d.endOffset, f.node.log.End())
    requires f.node.role == Role.Follower && f.node.leaderId == Some(leader)
    ensures var s := OnDivergence(f, d, persist); var n := f.node;
      var cut := Min(d.endOffset, n.log.End());
      && s.follower.node.log == LogSpec.Log(n.log.start, n.log.entries[..cut - n.log.start])
      && s.follower.node.hw == n.hw && s.follower.node.voterSet == n.voterSet
      && (forall t :: t in s.follower.node.epochs <==> t in n.epochs && n.epochs[t] < cut)
      && (forall t | t in s.follower.node.epochs :: s.follower.node.epochs[t] == n.epochs[t])
      && s.follower.node.pendingChange ==
           (if n.pendingChange.Some? && n.pendingChange.value.offset < cut then n.pendingChange else None)
      && s.follower.app == f.app && s.follower.transferInProgress == f.transferInProgress
      && s.outcome == Ok([TruncateSuffix(cut),
                          SendRpc(leader, FetchRequest(n.id, cut, TermBefore(n.log, cut)))] + Persist(persist), false)
  {
    hide Persist, Q.FailAtOrAbove;
    var n := f.node;
    var cut := Min(d.endOffset, n.log.End());
    assert n.log.TruncateSuffix(cut).entries == n.log.entries[..cut - n.log.start];
    var refetch := SendRpc(leader, FetchRequest(n.id, cut, TermBefore(n.log, cut)));
    assert FetchActions(CutNode(n, cut)) == [refetch];
    assert [TruncateSuffix(cut)] + [refetch] == [TruncateSuffix(cut), refetch];
  }

  /** Its completions: exactly those at or after the cut are dropped. */
  lemma {:induction false} CutDrops(f: Follower, m: Envelope, decode: VotersDecoder, rejects: set<Offset>, at: Offset)
    requires Heard(f, m) && m.payload.response.snapshotId.None? && m.payload.response.diverging.Some?
    requires !Refuses(f.node, m.payload.response, decode, rejects)
    ensures var q := HandleMessage(f, m, decode, rejects).follower.queue;
      var cut := Min(m.payload.response.diverging.value.endOffset, f.node.log.End());
      && (at in q.pending <==> at in f.queue.pending && at < cut)
      && (at in q.pending ==> q.pending[at] == f.queue.pending[at])
      && q.fired == f.queue.fired
  {
    hide Q.Remove, Q.Take, CutNode, FetchActions, OnEntries, OnSnapshot;
    var cut := Min(m.payload.response.diverging.value.endOffset, f.node.log.End());
    var keys := SortedKeys.Sorted(Q.AtOrAbove(f.queue.pending, cut));
    Q.Removed(f.queue.pending, keys);
  }

  // ---- Snapshot answers ----

  /** A snapshot answer starts one transfer, from the first byte, unless one is under way; nothing else changes. */
  lemma {:induction false} SnapshotExactly(f: Follower, m: Envelope, decode: VotersDecoder, rejects: set<Offset>)
    requires Heard(f, m) && m.payload.response.snapshotId.Some? && m.payload.response.diverging.None?
    ensures var s := HandleMessage(f, m, decode, rejects); var n, r := f.node, m.payload.response;
      && s.follower.transferInProgress && s.follower.app == f.app && s.follower.queue == f.queue
      && s.follower.node.log == n.log && s.follower.node.hw == n.hw && s.follower.node.voterSet == n.voterSet
      && s.follower.node.epochs == n.epochs && s.follower.node.pendingChange == n.pendingChange
      && s.outcome == Ok((if f.transferInProgress then []
                          else [SendRpc(r.leaderId, FetchSnapshotRequest(r.snapshotId.value, 0))]) + Persist(ToStore(n, r)),
                         !f.transferInProgress)
  {
    assert [] + Persist(ToStore(f.node, m.payload.response)) == Persist(ToStore(f.node, m.payload.response));
  }

  // ---- Fetching ----

  /** A node asks exactly when it follows a known leader, and asks it for what comes after its log. */
  lemma {:induction false} FetchesExactly(n: NodeState, target: NodeId, rpc: Rpc)
    ensures SendRpc(target, rpc) in FetchActions(n) <==>
      && n.role == Role.Follower && n.leaderId == Some(target)
      && rpc == FetchRequest(n.id, n.log.End(), TermBefore(n.log, n.log.End()))
    ensures |FetchActions(n)| <= 1 && forall a | a in FetchActions(n) :: a.SendRpc?
  {
  }
}
