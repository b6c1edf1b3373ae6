/** Whole lives of a segmented log: store operations, restarts, and crashes in the middle of an append. */
module SegmentRuns {
  import opened Types
  import opened LogSpec
  import opened SegmentViews
  import opened Segment
  import opened SegmentRecovery
  import opened SegmentLog
  import F = Framing

  /** The directory holds exactly the files of the open segments. */
  ghost predicate OnDisk(log: SegmentedLog, files: Directory)
    reads log, log.segments
    requires log.Matching()
  {
    && (forall i | 0 <= i < |log.segments| :: FileOf(log.segments[i], log.views[i], files))
    && (forall k | k in files :: k in Bases(log.views))
  }

  ghost predicate FileOf(seg: SegmentFile, v: View, files: Directory)
    reads seg
  {
    v.base in files && files[v.base] == seg.file
  }

  lemma {:induction false} OnDiskStored(log: SegmentedLog, files: Directory)
    requires log.Valid() && OnDisk(log, files)
    ensures Stored(log.codec, files, log.views)
  {
  }

  ghost function BasesOf(segs: seq<SegmentFile>): (r: seq<Offset>)
    ensures |r| == |segs| && forall i | 0 <= i < |segs| :: r[i] == segs[i].base
  {
    if segs == [] then [] else BasesOf(segs[..|segs| - 1]) + [segs[|segs| - 1].base]
  }

  ghost function FilesHeld(segs: seq<SegmentFile>): (r: seq<bytes>)
    reads segs
    ensures |r| == |segs| && forall i | 0 <= i < |segs| :: r[i] == segs[i].file
  {
    if segs == [] then [] else FilesHeld(segs[..|segs| - 1]) + [segs[|segs| - 1].file]
  }

  /** The directory with these files under these bases. */
  function Dir(bases: seq<Offset>, held: seq<bytes>): Directory
    requires |bases| == |held|
  {
    if bases == [] then map[]
    else
      var n := |bases| - 1;
      Dir(bases[..n], held[..n])[bases[n] := held[n]]
  }

  /** The files of an open log, as a later start finds them. */
  method FilesOf(log: SegmentedLog) returns (files: Directory)
    requires log.Valid()
    ensures OnDisk(log, files)
    ensures files == Dir(BasesOf(log.segments), FilesHeld(log.segments))
  {
    hide F.Lawful, F.Clean, F.Contents, F.Dense, Linked, Bounds, Holds, Dir;
    ghost var bases, held := BasesOf(log.segments), FilesHeld(log.segments);
    NoFiles(bases, held);
    BasesAscend(log.views);
    files := map[];
    for i := 0 to |log.segments|
      invariant forall j | 0 <= j < i :: FileOf(log.segments[j], log.views[j], files)
      invariant forall k | k in files :: k in Bases(log.views)
      invariant files == Dir(bases[..i], held[..i])
    {
      OneFile(bases, held, i);
      LastBase(log.segments[i], log.codec, log.views[i]);
      AddedFile(log, files, i);
      files := files[log.segments[i].base := log.segments[i].file];
    }
    assert bases[..|bases|] == bases && held[..|held|] == held;
  }

  lemma {:induction false} AddedFile(log: SegmentedLog, files: Directory, i: nat)
    requires log.Matching() && i < |log.segments| && forall j | 0 <= j < i :: FileOf(log.segments[j], log.views[j], files)
    requires (forall k | k in files :: k in Bases(log.views)) && log.segments[i].base == log.views[i].base
    requires forall j | 0 <= j < i :: Bases(log.views)[j] < Bases(log.views)[i]
    ensures var now := files[log.segments[i].base := log.segments[i].file];
      && (forall j | 0 <= j <= i :: FileOf(log.segments[j], log.views[j], now))
      && (forall k | k in now :: k in Bases(log.views))
  {
    hide F.Lawful, F.Clean, F.Contents, F.Dense, Holds;
    var now := files[log.segments[i].base := log.segments[i].file];
    assert Bases(log.views)[i] == log.segments[i].base;
    forall j | 0 <= j <= i ensures FileOf(log.segments[j], log.views[j], now) {
      if j < i { assert FileOf(log.segments[j], log.views[j], files) && Bases(log.views)[j] < Bases(log.views)[i]; }
    }
  }

  lemma {:induction false} NoFiles(bases: seq<Offset>, held: seq<bytes>)
    ensures Dir(bases[..0], held[..0]) == map[]
  {
  }

  lemma {:induction false} OneFile(bases: seq<Offset>, held: seq<bytes>, i: nat)
    requires i < |bases| == |held|
    ensures Dir(bases[..i + 1], held[..i + 1]) == Dir(bases[..i], held[..i])[bases[i] := held[i]]
  {
    assert bases[..i + 1][..i] == bases[..i] && held[..i + 1][..i] == held[..i];
  }

  // ---- What is recovered ----

  lemma {:induction false} NothingToDrop(vs: seq<View>)
    requires Linked(vs)
    ensures DropEmpty(vs) == vs
  {
  }

  /** A rolled segment that stayed empty is dropped, or is the lone empty segment of an empty log. */
  lemma {:induction false} EmptyTailDropped(vs: seq<View>, start: Offset, end: Offset, persisted: Offset)
    requires Linked(vs) && NonEmpty(vs) && Bounds(vs, start, end, persisted)
    ensures var ws := DropEmpty(vs + [View(end, [])]);
      Linked(ws) && Bounds(ws, start, end, persisted) && Logical(ws, start) == Logical(vs, start)
  {
  }

  /** The directory a crash leaves after k bytes of an append. */
  ghost function Torn(log: SegmentedLog, files: Directory, es: seq<LogEntry>, k: nat): Directory
    reads log, log.segments
    requires log.Matching() && OnDisk(log, files) && k <= |F.Frame(log.codec, es)|
  {
    if log.Rolls() then TornNew(log.codec, files, log.logEnd, es, k)
    else
      assert FileOf(log.segments[|log.segments| - 1], log.views[|log.segments| - 1], files);
      TornLast(log.codec, files, log.views[|log.views| - 1].base, es, k)
  }

  lemma {:induction false} RollsAreNonEmpty(log: SegmentedLog)
    requires log.Valid() && log.Rolls()
    ensures NonEmpty(log.views)
  {
  }

  /** What is found after a crash: the old log, or the old log with the whole batch. */
  lemma {:induction false} TornFinds(log: SegmentedLog, files: Directory, es: seq<LogEntry>, k: nat)
    requires log.Valid() && OnDisk(log, files) && k <= |F.Frame(log.codec, es)|
    requires es != [] && F.Fits(log.codec, es) && Log(log.logEnd, es).Contiguous()
    ensures var torn := Torn(log, files, es, k);
      var whole := k == |F.Frame(log.codec, es)|;
      var ws := RecoveredViews(log.codec, torn);
      && DenseDirectory(log.codec, torn) && Linked(ws)
      && Bounds(ws, log.logStart, if whole then log.logEnd + |es| else log.logEnd, log.persistedStart)
      && Logical(ws, log.logStart) == if whole then log.Abs().Append(es) else log.Abs()
  {
    hide F.Lawful, F.Fits, F.Frame, F.Clean, F.Contents, F.Dense, RecoveredViews, DropEmpty, Linked, Logical,
      DenseDirectory, Holds, FileOf, Stored, AppendLast, TornNew, TornLast, NonEmpty;
    OnDiskStored(log, files);
    var vs, start, end, persisted := log.views, log.logStart, log.logEnd, log.persistedStart;
    if log.Rolls() {
      RollsAreNonEmpty(log);
      TornNewRestart(log.codec, files, vs, end, es, k);
      if k < |F.Frame(log.codec, es)| {
        EmptyTailDropped(vs, start, end, persisted);
      } else {
        NewSegmentAfter(vs, es, start, end, persisted);
        NothingToDrop(vs + [View(end, es)]);
      }
    } else {
      TornLastRestart(log.codec, files, vs, es, k);
      if k < |F.Frame(log.codec, es)| {
        NothingToDrop(vs);
      } else {
        AppendLastSound(vs, es, start, end, persisted);
        NothingToDrop(AppendLast(vs, es));
      }
    }
  }

  lemma {:induction false} NewSegmentAfter(vs: seq<View>, es: seq<LogEntry>, start: Offset, end: Offset, persisted: Offset)
    requires Linked(vs) && NonEmpty(vs) && Bounds(vs, start, end, persisted)
    requires Log(end, es).Contiguous() && es != []
    ensures var ws := vs + [View(end, es)];
      && Linked(ws) && Bounds(ws, start, end + |es|, persisted)
      && Logical(ws, start) == Logical(vs, start).Append(es)
  {
    hide Linked, Bounds, Logical;
    NewSegmentSound(vs, es, start, end, persisted);
  }

  // ---- Reopening ----

  /** Opens a directory that recovers to a well-formed row of segments. */
  method Reopen(codec: F.Codec, limit: nat, files: Directory, persisted: Offset, ghost start: Offset, ghost end: Offset)
    returns (log: SegmentedLog)
    requires F.Lawful(codec) && limit > 0 && DenseDirectory(codec, files)
    requires Linked(RecoveredViews(codec, files)) && Bounds(RecoveredViews(codec, files), start, end, persisted)
    ensures fresh(log) && fresh(log.segments) && log.Valid() && log.codec == codec
    ensures log.Abs() == Logical(RecoveredViews(codec, files), start)
  {
    hide F.Lawful, DenseDirectory, Linked, RecoveredViews, Logical, Holds, Opened;
    log := new SegmentedLog(codec, limit, files, persisted);
  }

  /** A clean restart loses nothing and adds nothing. */
  method Restart(log: SegmentedLog) returns (again: SegmentedLog)
    requires log.Valid()
    ensures fresh(again) && fresh(again.segments) && again.Valid() && again.codec == log.codec
    ensures again.Abs() == log.Abs()
  {
    hide F.Lawful, DenseDirectory, Linked, RecoveredViews, Logical, Holds, Stored, OnDisk, Bounds;
    var files := FilesOf(log);
    OnDiskStored(log, files);
    CleanRestart(log.codec, files, log.views);
    again := Reopen(log.codec, log.limit, files, log.persistedStart, log.logStart, log.logEnd);
  }

  /** A crash after k bytes of an append leaves the log as it was, or with the whole batch. */
  method CrashInAppend(log: SegmentedLog, es: seq<LogEntry>, k: nat) returns (again: SegmentedLog)
    requires log.Valid() && k <= |F.Frame(log.codec, es)|
    requires es != [] && F.Fits(log.codec, es) && Log(log.logEnd, es).Contiguous()
    ensures fresh(again) && fresh(again.segments) && again.Valid() && again.codec == log.codec
    ensures again.Abs() == if k < |F.Frame(log.codec, es)| then log.Abs() else log.Abs().Append(es)
  {
    hide F.Lawful, F.Frame, DenseDirectory, Linked, RecoveredViews, Logical, Holds, Stored, OnDisk, Bounds, Bases;
    var files := FilesOf(log);
    TornFinds(log, files, es, k);
    var left := WriteTorn(log, files, es, k);
    again := Reopen(log.codec, log.limit, left, log.persistedStart, log.logStart,
      if k < |F.Frame(log.codec, es)| then log.logEnd else log.logEnd + |es|);
  }

  method WriteTorn(log: SegmentedLog, files: Directory, es: seq<LogEntry>, k: nat) returns (left: Directory)
    requires log.Valid() && OnDisk(log, files) && k <= |F.Frame(log.codec, es)|
    ensures left == Torn(log, files, es, k)
  {
    hide F.Lawful, F.Frame, Linked, Bounds, Bases, Holds, TornNew, TornLast;
    var n := |log.segments|;
    if n == 0 || log.segments[n - 1].size >= log.limit {
      left := TornNew(log.codec, files, log.logEnd, es, k);
    } else {
      assert FileOf(log.segments[n - 1], log.views[n - 1], files);
      LastBase(log.segments[n - 1], log.codec, log.views[n - 1]);
      left := TornLast(log.codec, files, log.segments[n - 1].base, es, k);
    }
  }

  // ---- A finished append ----

  /** An append that finishes leaves the files that a crash after its last byte would. */
  method FinishAppend(log: SegmentedLog, es: seq<LogEntry>) returns (before: Directory, after: Directory)
    requires log.Valid() && es != [] && F.Fits(log.codec, es) && Log(log.logEnd, es).Contiguous()
    modifies log, log.segments
    ensures log.Valid() && log.Abs() == old(log.Abs()).Append(es)
    ensures old(OnDisk(log, before)) && OnDisk(log, after)
    ensures after == old(Torn(log, before, es, |F.Frame(log.codec, es)|))
  {
    hide F.Lawful, F.Frame, F.Fits, Linked, Bounds, Bases, Logical, Holds, OnDisk, Torn, Paired, Dir;
    before := FilesOf(log);
    WholeTorn(log, before, es);
    after := AppendFiles(log, es);
  }

  /** What an append does to the files. */
  method AppendFiles(log: SegmentedLog, es: seq<LogEntry>) returns (after: Directory)
    requires log.Valid() && es != [] && F.Fits(log.codec, es) && Log(log.logEnd, es).Contiguous()
    modifies log, log.segments
    ensures log.Valid() && log.Abs() == old(log.Abs()).Append(es) && OnDisk(log, after)
    ensures after == var was := old(Dir(BasesOf(log.segments), FilesHeld(log.segments))); var frame := F.Frame(log.codec, es);
      if old(log.Rolls()) then was[old(log.logEnd) := frame]
      else was[old(log.segments[|log.segments| - 1].base) := old(log.segments[|log.segments| - 1].file) + frame]
  {
    hide F.Lawful, F.Frame, F.Fits, Linked, Bounds, Bases, Logical, Holds, OnDisk, Paired, Dir;
    ghost var was, rolled, end, frame := log.segments, log.Rolls(), log.logEnd, F.Frame(log.codec, es);
    ghost var held := FilesHeld(was);
    var _ := log.Append(es);
    after := FilesOf(log);
    if rolled { RolledFiles(log.segments, was, held, end, frame); }
    else { GrownFiles(log.segments, was, held, frame); }
  }

  lemma {:induction false} RolledFiles(segs: seq<SegmentFile>, was: seq<SegmentFile>, held: seq<bytes>, end: Offset, frame: bytes)
    requires |segs| == |was| + 1 && |held| == |was| && segs[..|was|] == was
    requires forall i | 0 <= i < |was| :: segs[i].file == held[i]
    requires segs[|was|].base == end && segs[|was|].file == frame
    ensures Dir(BasesOf(segs), FilesHeld(segs)) == Dir(BasesOf(was), held)[end := frame]
  {
    assert forall i | 0 <= i < |was| :: segs[i] == was[i];
    assert BasesOf(segs)[..|was|] == BasesOf(was) && FilesHeld(segs)[..|was|] == held;
  }

  lemma {:induction false} GrownFiles(segs: seq<SegmentFile>, was: seq<SegmentFile>, held: seq<bytes>, frame: bytes)
    requires segs == was && segs != [] && |held| == |segs|
    requires forall i | 0 <= i < |segs| - 1 :: segs[i].file == held[i]
    requires segs[|segs| - 1].file == held[|segs| - 1] + frame
    ensures Dir(BasesOf(segs), FilesHeld(segs)) == Dir(BasesOf(was), held)[was[|was| - 1].base := held[|was| - 1] + frame]
  {
    var n := |segs| - 1;
    assert FilesHeld(segs)[..n] == held[..n];
  }

  /** A tear after the last byte is no tear. */
  lemma {:induction false} WholeTorn(log: SegmentedLog, files: Directory, es: seq<LogEntry>)
    requires log.Matching() && OnDisk(log, files)
    ensures var n := |log.segments| - 1; var frame := F.Frame(log.codec, es);
      Torn(log, files, es, |frame|) ==
        if log.Rolls() then files[log.logEnd := frame]
        else files[log.segments[n].base := log.segments[n].file + frame]
  {
    hide F.Frame, F.Clean, F.Contents, F.Dense, F.Lawful;
    var frame := F.Frame(log.codec, es);
    assert frame[..|frame|] == frame;
    if !log.Rolls() {
      var n := |log.segments| - 1;
      assert Holds(log.segments[n], log.codec, log.views[n]) && FileOf(log.segments[n], log.views[n], files);
    }
  }

  // ---- Runs ----

  datatype Event =
    | Call(op: Op)
    | Restarted
    | Crashed(es: seq<LogEntry>, written: nat)

  /** Callers keep the store's rules; an append that a crash cuts short was a legal one. */
  ghost predicate Allowed(c: F.Codec, log: Log, ev: Event) {
    match ev
    case Call(op) => Legal(log, op) && (op.Append? ==> F.Fits(c, op.es))
    case Restarted => true
    case Crashed(es, k) => es != [] && log.Continues(es) && F.Fits(c, es) && k <= |F.Frame(c, es)|
  }

  /** The reference log: restarts change nothing, an interrupted append happens wholly or not at all. */
  function Next(c: F.Codec, log: Log, ev: Event): Log {
    match ev
    case Call(op) => After(log, op)
    case Restarted => log
    case Crashed(es, k) => if k < |F.Frame(c, es)| then log else log.Append(es)
  }

  function Seen(c: F.Codec, log: Log, ev: Event): Answer {
    match ev
    case Call(op) => Reply(log, op)
    case _ => var next := Next(c, log, ev); Answer([], next.start, next.End())
  }

  function NextAll(c: F.Codec, log: Log, evs: seq<Event>): Log
    decreases |evs|
  {
    if evs == [] then log else Next(c, NextAll(c, log, evs[..|evs| - 1]), evs[|evs| - 1])
  }

  function SeenAll(c: F.Codec, log: Log, evs: seq<Event>): seq<Answer>
    decreases |evs|
  {
    if evs == [] then []
    else SeenAll(c, log, evs[..|evs| - 1]) + [Seen(c, NextAll(c, log, evs[..|evs| - 1]), evs[|evs| - 1])]
  }

  ghost predicate AllAllowed(c: F.Codec, log: Log, evs: seq<Event>)
    decreases |evs|
  {
    evs == [] ||
    (AllAllowed(c, log, evs[..|evs| - 1]) && Allowed(c, NextAll(c, log, evs[..|evs| - 1]), evs[|evs| - 1]))
  }

  /** One store operation answers as the reference does. */
  method Perform(log: SegmentedLog, op: Op) returns (a: Answer)
    requires log.Valid() && Legal(log.Abs(), op) && (op.Append? ==> F.Fits(log.codec, op.es))
    modifies log, log.segments
    ensures log.Valid() && log.Abs() == After(old(log.Abs()), op)
    ensures a == Reply(old(log.Abs()), op)
    ensures forall s | s in log.segments :: s in old(log.segments) || fresh(s)
  {
    hide F.Lawful, F.Fits, Linked, Bounds, Logical, Holds, Paired;
    LogicalSound(log.views, log.logStart, log.logEnd, log.persistedStart);
    var found: seq<LogEntry> := [];
    match op {
      case Append(es) => var _ := log.Append(es);
      case TruncateSuffix(from) => log.TruncateSuffix(from);
      case TruncatePrefix(upTo) => log.TruncatePrefix(upTo);
      case Read(lo, hi) =>
        var r := log.Read(lo, hi);
        found := r.entries;
      case EntryAt(at) =>
        var e := log.EntryAt(at);
        found := match e case Some(x) => [x] case None => [];
    }
    LogicalSound(log.views, log.logStart, log.logEnd, log.persistedStart);
    a := Answer(found, log.logStart, log.logEnd);
  }

  method Live(log: SegmentedLog, ev: Event) returns (after: SegmentedLog, a: Answer)
    requires log.Valid() && Allowed(log.codec, log.Abs(), ev)
    modifies log, log.segments
    ensures after.Valid() && after.codec == log.codec && (after == log || fresh(after))
    ensures forall s | s in after.segments :: s in old(log.segments) || fresh(s)
    ensures after.Abs() == Next(log.codec, old(log.Abs()), ev)
    ensures a == Seen(log.codec, old(log.Abs()), ev)
  {
    hide F.Lawful, F.Fits, F.Frame, Linked, Bounds, Logical, Holds, Paired;
    LogicalSound(log.views, log.logStart, log.logEnd, log.persistedStart);
    match ev {
      case Call(op) =>
        a := Perform(log, op);
        return log, a;
      case Restarted => after := Restart(log);
      case Crashed(es, k) => after := CrashInAppend(log, es, k);
    }
    LogicalSound(after.views, after.logStart, after.logEnd, after.persistedStart);
    a := Answer([], after.logStart, after.logEnd);
  }

  /** Through any life of the store the answers are those of one contiguous log. */
  method Lives(log: SegmentedLog, evs: seq<Event>) returns (after: SegmentedLog, answers: seq<Answer>)
    requires log.Valid() && AllAllowed(log.codec, log.Abs(), evs)
    modifies log, log.segments
    ensures after.Valid() && after.codec == log.codec && (after == log || fresh(after))
    ensures forall s | s in after.segments :: s in old(log.segments) || fresh(s)
    ensures after.Abs() == NextAll(log.codec, old(log.Abs()), evs)
    ensures answers == SeenAll(log.codec, old(log.Abs()), evs)
    decreases |evs|
  {
    hide F.Lawful, Linked, Bounds, Logical, Holds, Paired, Allowed, Next, Seen;
    if evs == [] { return log, []; }
    var n := |evs| - 1;
    var mid, before := Lives(log, evs[..n]);
    assert forall i | 0 <= i < |mid.segments| :: mid.segments[i] in mid.segments;
    var a;
    after, a := Live(mid, evs[n]);
    answers := before + [a];
  }
}
