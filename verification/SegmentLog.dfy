/** The segmented log: many files that together answer like one contiguous log. */
module SegmentLog {
  import opened Types
  import opened LogSpec
  import opened SegmentViews
  import opened Segment
  import F = Framing
  import opened SegmentRecovery
  import SortedKeys

  // ---- Reading across segments ----

  lemma {:induction false} ReadSegmentStep(vs: seq<View>, i: nat, lo: Offset, hi: Offset)
    requires Linked(vs) && i < |vs|
    ensures InRange(All(vs[..i + 1]), lo, hi) == InRange(All(vs[..i]), lo, hi) + InRange(vs[i].entries, lo, hi)
    ensures vs[i].End() <= lo || hi <= vs[i].base ==> InRange(vs[i].entries, lo, hi) == []
  {
    assert vs[..i + 1][..i] == vs[..i];
    InRangeConcat(All(vs[..i]), vs[i].entries, lo, hi);
    InRangeIsSlice(Log(vs[i].base, vs[i].entries), lo, hi);
  }

  lemma {:induction false} NothingYet(vs: seq<View>, lo: Offset, hi: Offset)
    ensures InRange(All(vs[..0]), lo, hi) == []
  {
  }

  lemma {:induction false} ReadAcross(vs: seq<View>, start: Offset, end: Offset, persisted: Offset, lo: Offset, hi: Offset)
    requires Linked(vs) && Bounds(vs, start, end, persisted)
    ensures InRange(All(vs), Max(lo, start), hi) == Logical(vs, start).Read(lo, hi)
  {
    if vs != [] {
      PhysicalSound(vs);
      InRangeIsSlice(Physical(vs), Max(lo, start), hi);
      ReadThroughCut(Physical(vs), start, lo, hi);
    }
  }

  lemma {:induction false} ReadThroughCut(log: Log, start: Offset, lo: Offset, hi: Offset)
    requires log.start <= start <= log.End()
    ensures log.Read(Max(lo, start), hi) == log.TruncatePrefix(start).Read(lo, hi)
  {
    var a, b := Max(lo, start), Min(hi, log.End());
    var cut := log.TruncatePrefix(start);
    assert cut.start == start && cut.End() == log.End() && cut.entries == log.entries[start - log.start..];
    if a < b {
      SliceOfSlice(log.entries, start - log.start, a - log.start, b - log.start);
      assert cut.entries[a - start..b - start] == log.entries[a - log.start..b - log.start];
    }
  }

  lemma {:induction false} OutOfBounds(vs: seq<View>, start: Offset, end: Offset, persisted: Offset)
    requires end < start
    ensures !Bounds(vs, start, end, persisted)
  {
  }

  /** A start moved back, or moved past the end, is no cut of the log. */
  lemma {:induction false} PrefixCutOutside(vs: seq<View>, upTo: Offset, start: Offset, end: Offset, persisted: Offset)
    requires Linked(vs) && Bounds(vs, start, end, persisted) && !(start <= upTo <= end)
    ensures var ws := KeepAfter(vs, upTo);
      !(Bounds(ws, upTo, end, upTo) && Logical(ws, upTo) == Logical(vs, start).TruncatePrefix(upTo))
  {
    hide KeepAfter, All;
    LogicalSound(vs, start, end, persisted);
    if upTo > end { AllRemoved(vs, upTo); }
  }

  lemma {:induction false} AllRemoved(vs: seq<View>, upTo: Offset)
    requires Linked(vs) && (vs != [] ==> vs[|vs| - 1].End() <= upTo)
    ensures KeepAfter(vs, upTo) == []
  {
    KeptIsSuffix(vs, upTo);
    LeadingStops(vs, upTo);
    var k := Leading(vs, upTo);
    if k < |vs| { EndsIncrease(vs, k, |vs| - 1); }
  }

  lemma {:induction false} ReadOne(log: Log, at: Offset)
    ensures log.Read(at, at + 1) == match log.EntryAt(at) case Some(e) => [e] case None => []
  {
  }

  lemma {:induction false} LastJoin(vs: seq<View>, es: seq<LogEntry>)
    requires Linked(vs) && vs != [] && Log(vs[|vs| - 1].End(), es).Contiguous()
    ensures Log(vs[|vs| - 1].base, vs[|vs| - 1].entries + es).Contiguous()
  {
  }

  lemma {:induction false} RolledView(vs: seq<View>, end: Offset, es: seq<LogEntry>)
    ensures AppendLast(vs + [View(end, [])], es) == vs + [View(end, es)]
    ensures (vs + [View(end, [])])[|vs|].entries + es == es
  {
  }

  /** A segment object that is sound, as appending leaves it, and holds what the view says. */
  ghost predicate Holds(seg: SegmentFile, codec: F.Codec, v: View)
    reads seg
  {
    && seg.Valid() && seg.Ordered() && seg.codec == codec
    && seg.base == v.base && seg.Entries() == v.entries
  }

  /** Each segment object holds what its view says; no object occurs twice. */
  ghost predicate Paired(segs: seq<SegmentFile>, vs: seq<View>, codec: F.Codec)
    reads segs
  {
    && |vs| == |segs|
    && (forall i | 0 <= i < |segs| :: Holds(segs[i], codec, vs[i]))
    && (forall i, j | 0 <= i < j < |segs| :: segs[i] != segs[j])
  }

  /** A segment object opened on a file of the directory. */
  ghost predicate OpenedOn(seg: SegmentFile, codec: F.Codec, v: View, files: Directory)
    reads seg
  {
    && seg.Valid() && seg.codec == codec && seg.base == v.base && seg.Entries() == v.entries
    && v.base in files && seg.file == Recovered(codec, files[v.base])
  }

  ghost predicate Opened(segs: seq<SegmentFile>, vs: seq<View>, codec: F.Codec, files: Directory)
    reads segs
  {
    && |vs| == |segs|
    && (forall i | 0 <= i < |segs| :: OpenedOn(segs[i], codec, vs[i], files))
    && (forall i, j | 0 <= i < j < |segs| :: segs[i] != segs[j])
  }

  /** Segments opened on a directory whose files recover to a well-formed row of segments. */
  lemma {:induction false} OpenedPairs(segs: seq<SegmentFile>, vs: seq<View>, codec: F.Codec, files: Directory)
    requires Opened(segs, vs, codec, files) && Linked(vs) && DenseDirectory(codec, files)
    ensures Paired(segs, vs, codec)
  {
  }

  lemma {:induction false} OpenedCount(seg: SegmentFile, codec: F.Codec, v: View, files: Directory)
    requires OpenedOn(seg, codec, v, files)
    ensures (seg.entryCount == 0 <==> v.entries == []) && seg.base == v.base && seg.nextOffset == v.End()
  {
  }

  /** Opens every file of the directory in order of base offset. */
  method OpenAll(codec: F.Codec, files: Directory, keys: seq<Offset>) returns (segs: seq<SegmentFile>)
    requires F.Lawful(codec) && forall k | k in keys :: k in files
    ensures Opened(segs, Found(codec, files, keys), codec, files) && fresh(segs)
  {
    hide F.Lawful, F.Contents, Recovered, OpenedOn;
    segs := [];
    ghost var vs: seq<View> := [];
    for i := 0 to |keys|
      invariant vs == Found(codec, files, keys[..i])
      invariant Opened(segs, vs, codec, files) && fresh(segs)
    {
      assert keys[..i + 1][..i] == keys[..i] && keys[i] in keys;
      var seg := OpenOne(codec, files, keys[i]);
      assert forall j | 0 <= j < |segs| :: segs[j] != seg && OpenedOn(segs[j], codec, vs[j], files);
      segs := segs + [seg];
      vs := vs + [View(keys[i], F.Contents(codec, files[keys[i]]))];
    }
    assert keys[..|keys|] == keys;
  }

  method OpenOne(codec: F.Codec, files: Directory, key: Offset) returns (seg: SegmentFile)
    requires F.Lawful(codec) && key in files
    ensures fresh(seg) && OpenedOn(seg, codec, View(key, F.Contents(codec, files[key])), files)
  {
    seg := new SegmentFile(codec, key, files[key]);
  }

  /** Removes empty segments from the end, keeping at least one. */
  method PopEmpty(found: seq<SegmentFile>, ghost vs: seq<View>, ghost codec: F.Codec, ghost files: Directory)
    returns (segs: seq<SegmentFile>)
    requires Opened(found, vs, codec, files)
    ensures segs <= found && Opened(segs, DropEmpty(vs), codec, files)
  {
    hide OpenedOn;
    segs := found;
    ghost var ws := vs;
    while |segs| > 1
      invariant segs <= found && Opened(segs, ws, codec, files) && DropEmpty(ws) == DropEmpty(vs)
      decreases |segs|
    {
      OpenedCount(segs[|segs| - 1], codec, ws[|ws| - 1], files);
      if segs[|segs| - 1].entryCount != 0 { break; }
      segs, ws := segs[..|segs| - 1], ws[..|ws| - 1];
    }
  }

  lemma {:induction false} LastBase(seg: SegmentFile, codec: F.Codec, v: View)
    requires Holds(seg, codec, v)
    ensures seg.base == v.base
  {
  }

  lemma {:induction false} NextOffset(seg: SegmentFile, codec: F.Codec, v: View)
    requires Holds(seg, codec, v)
    ensures seg.nextOffset == v.End()
  {
  }

  lemma {:induction false} SliceOfSlice(es: seq<LogEntry>, x: nat, a: nat, b: nat)
    requires x <= a <= b <= |es|
    ensures es[x..][a - x..b - x] == es[a..b]
  {
  }

  /** When the last segment has reached the limit, no segment is empty. */
  lemma {:induction false} FullSegments(segs: seq<SegmentFile>, vs: seq<View>, codec: F.Codec, limit: nat)
    requires Paired(segs, vs, codec) && Linked(vs) && segs != [] && segs[|segs| - 1].size >= limit > 0
    ensures forall i | 0 <= i < |vs| :: vs[i].entries != []
  {
    var n := |vs| - 1;
    if vs[n].entries == [] { F.DenseEmpty(codec, segs[n].file); }
  }

  class SegmentedLog {
    const codec: F.Codec
    const limit: nat
    var segments: seq<SegmentFile>
    var logStart: Offset
    var logEnd: Offset
    var persistedStart: Offset
    ghost var views: seq<View>

    ghost predicate Matching()
      reads this, segments
    {
      Paired(segments, views, codec)
    }

    ghost predicate Valid()
      reads this, segments
    {
      && F.Lawful(codec) && limit > 0 && Matching()
      && Linked(views) && Bounds(views, logStart, logEnd, persistedStart)
    }

    /** An append starts a new segment when there is none or the last has reached the limit. */
    ghost predicate Rolls()
      reads this, segments
    {
      segments == [] || segments[|segments| - 1].size >= limit
    }

    /** The contiguous log the segments stand for. */
    ghost function Abs(): Log
      reads this, segments
    {
      Logical(views, logStart)
    }

    /** Opens the directory, whatever its files hold. */
    constructor (codec: F.Codec, limit: nat, files: Directory, persisted: Offset)
      requires F.Lawful(codec) && limit > 0
      ensures this.codec == codec && this.limit == limit && persistedStart == persisted
      ensures views == RecoveredViews(codec, files) && Opened(segments, views, codec, files) && fresh(segments)
      ensures logStart == Max(persisted, if views == [] then 0 else views[0].base)
      ensures logEnd == if views == [] then logStart else views[|views| - 1].End()
      ensures DenseDirectory(codec, files) && Linked(views) && logStart <= logEnd ==> Valid()
    {
      hide F.Lawful, F.Contents, Recovered, OpenedOn, DropEmpty, Found, DenseDirectory, Linked, Holds;
      this.codec, this.limit := codec, limit;
      var found := OpenAll(codec, files, SortedKeys.Sorted(files.Keys));
      ghost var all := Found(codec, files, SortedKeys.Sorted(files.Keys));
      var segs := PopEmpty(found, all, codec, files);
      ghost var vs := DropEmpty(all);
      segments, views, persistedStart := segs, vs, persisted;
      if |segs| > 0 {
        OpenedCount(segs[0], codec, vs[0], files);
        OpenedCount(segs[|segs| - 1], codec, vs[|vs| - 1], files);
      }
      var start := Max(persisted, if |segs| > 0 then segs[0].base else 0);
      logStart := start;
      logEnd := if |segs| > 0 then segs[|segs| - 1].nextOffset else start;
      new;
      if DenseDirectory(codec, files) && Linked(views) && logStart <= logEnd {
        OpenedPairs(segments, views, codec, files);
      }
    }

    method Read(lo: Offset, hi: Offset) returns (r: ReadResult)
      requires Valid()
      ensures r == ReadResult.Entries(Abs().Read(lo, hi))
    {
      hide Holds, F.Lawful, Linked, Logical, InRange, All, Bounds, Paired;
      var from := Max(lo, logStart);
      ReadAcross(views, logStart, logEnd, persistedStart, lo, hi);
      LogicalSound(views, logStart, logEnd, persistedStart);
      if from >= hi { return ReadResult.Entries([]); }
      var result := ReadSegments(segments, from, hi, codec, views);
      r := ReadResult.Entries(result);
    }

    /** The entries in a range, segment by segment. */
    static method ReadSegments(segs: seq<SegmentFile>, from: Offset, hi: Offset, ghost c: F.Codec, ghost vs: seq<View>)
      returns (result: seq<LogEntry>)
      requires Paired(segs, vs, c) && Linked(vs)
      ensures result == InRange(All(vs), from, hi)
    {
      hide Holds, Linked, InRange, All;
      result := [];
      NothingYet(vs, from, hi);
      for i := 0 to |segs|
        invariant result == InRange(All(vs[..i]), from, hi)
      {
        ReadSegmentStep(vs, i, from, hi);
        var found := ReadOverlap(segs[i], from, hi, c, vs[i]);
        result := result + found;
      }
      assert vs[..|segs|] == vs;
    }

    /** The entries of one segment in a range, skipping segments outside it. */
    static method ReadOverlap(seg: SegmentFile, from: Offset, hi: Offset, ghost c: F.Codec, ghost v: View) returns (r: seq<LogEntry>)
      requires Holds(seg, c, v)
      requires v.End() <= from || hi <= v.base ==> InRange(v.entries, from, hi) == []
      ensures r == InRange(v.entries, from, hi)
    {
      if seg.nextOffset <= from || seg.base >= hi { return []; }
      var found := seg.Read(from, hi);
      r := found.entries;
    }

    method EntryAt(at: Offset) returns (r: Option<LogEntry>)
      requires Valid()
      ensures r == Abs().EntryAt(at)
    {
      var found := Read(at, at + 1);
      ReadOne(Abs(), at);
      r := if found.entries == [] then None else Some(found.entries[0]);
    }

    /** Adds an empty segment file at the end of the log. */
    method Roll()
      requires F.Lawful(codec) && Matching()
      modifies this`segments, this`views
      ensures |segments| == |old(segments)| + 1 && segments[..|segments| - 1] == old(segments)
      ensures fresh(segments[|segments| - 1]) && segments[|segments| - 1].file == [] && segments[|segments| - 1].base == logEnd
      ensures Matching() && views == old(views) + [View(logEnd, [])]
    {
      var seg := new SegmentFile(codec, logEnd, []);
      assert Holds(seg, codec, View(logEnd, [])) by {
        F.ScanAtEnd(codec, []);
        F.DenseAtEnd(codec, []);
      }
      segments := segments + [seg];
      views := views + [View(logEnd, [])];
    }

    /** Writes a batch to the last segment file. */
    method AppendToLast(es: seq<LogEntry>)
      requires F.Lawful(codec) && Matching() && segments != [] && es != [] && F.Fits(codec, es)
      requires Log(views[|views| - 1].base, views[|views| - 1].entries + es).Contiguous()
      modifies this`views, segments[|segments| - 1]
      ensures Matching() && views == AppendLast(old(views), es)
      ensures segments[|segments| - 1].file == old(segments[|segments| - 1].file) + F.Frame(codec, es)
    {
      var n := |segments| - 1;
      segments[n].Append(es);
      views := AppendLast(views, es);
      assert Holds(segments[n], codec, views[n]);
    }

    /** Appends to the current last segment. */
    method AppendInPlace(es: seq<LogEntry>)
      requires Valid() && segments != [] && es != [] && F.Fits(codec, es) && Log(logEnd, es).Contiguous()
      modifies this`views, this`logEnd, segments[|segments| - 1]
      ensures Valid() && Abs() == old(Abs()).Append(es) && logEnd == old(logEnd) + |es|
      ensures segments[|segments| - 1].file == old(segments[|segments| - 1].file) + F.Frame(codec, es)
      ensures forall i | 0 <= i < |segments| - 1 :: segments[i].file == old(segments[i].file)
    {
      hide Holds, F.Lawful, Linked, Logical, AppendLast, F.Frame;
      AppendLastSound(views, es, logStart, logEnd, persistedStart);
      LastJoin(views, es);
      AppendToLast(es);
      logEnd := logEnd + |es|;
    }

    /** Starts a new segment at the log end and appends there. */
    method AppendRolled(es: seq<LogEntry>)
      requires Valid() && es != [] && F.Fits(codec, es) && Log(logEnd, es).Contiguous()
      requires forall i | 0 <= i < |segments| :: views[i].entries != []
      modifies this`segments, this`views, this`logEnd
      ensures Valid() && Abs() == old(Abs()).Append(es) && logEnd == old(logEnd) + |es|
      ensures |segments| == |old(segments)| + 1 && segments[..|segments| - 1] == old(segments) && fresh(segments[|segments| - 1])
      ensures segments[|segments| - 1].base == old(logEnd) && segments[|segments| - 1].file == F.Frame(codec, es)
    {
      hide Holds, F.Lawful, Linked, Logical, AppendLast, F.Frame;
      NewSegmentSound(views, es, logStart, logEnd, persistedStart);
      RolledView(views, logEnd, es);
      Roll();
      AppendToLast(es);
      logEnd := logEnd + |es|;
    }

    /** A batch goes to the last segment, or to a new one when that has reached the size limit. */
    method Append(es: seq<LogEntry>) returns (ok: bool)
      requires Valid() && F.Fits(codec, es)
      requires forall i | 0 <= i < |es| :: es[i].offset == es[0].offset + i
      modifies this, segments
      ensures Valid() && fresh(set s | s in segments && s !in old(segments))
      ensures ok <==> es == [] || es[0].offset == old(logEnd)
      ensures Abs() == if ok then old(Abs()).Append(es) else old(Abs())
      ensures !ok || es == [] ==> unchanged(this) && unchanged(old(segments))
      ensures ok && es != [] && !old(Rolls()) ==>
        var n := |segments| - 1;
        && segments == old(segments) && (forall i | 0 <= i < n :: segments[i].file == old(segments[i].file))
        && segments[n].file == old(segments[|segments| - 1].file) + F.Frame(codec, es)
      ensures ok && es != [] && old(Rolls()) ==>
        var n := |old(segments)|;
        && |segments| == n + 1 && segments[..n] == old(segments) && (forall i | 0 <= i < n :: segments[i].file == old(segments[i].file))
        && segments[n].base == old(logEnd) && segments[n].file == F.Frame(codec, es)
    {
      hide Holds, F.Lawful, Linked, Logical, Bounds, F.Frame, F.Fits;
      if es == [] {
        assert Abs().entries + es == Abs().entries;
        return true;
      }
      if es[0].offset != logEnd { return false; }
      ok := true;
      if segments == [] {
        AppendRolled(es);
      } else if segments[|segments| - 1].size >= limit {
        FullSegments(segments, views, codec, limit);
        AppendRolled(es);
      } else {
        AppendInPlace(es);
      }
    }

    /** Drops trailing segments that begin at or after the cut, keeping at least one. */
    method PopFrom(from: Offset)
      requires Matching() && segments != []
      modifies this`segments, this`views
      ensures Matching() && views == DropTail(old(views), from)
      ensures segments != [] && segments <= old(segments)
    {
      hide Holds;
      while |segments| > 1 && segments[|segments| - 1].base >= from
        invariant segments != [] && segments <= old(segments) && Matching()
        invariant DropTail(views, from) == DropTail(old(views), from)
        decreases |segments|
      {
        LastBase(segments[|segments| - 1], codec, views[|views| - 1]);
        segments := segments[..|segments| - 1];
        views := views[..|views| - 1];
      }
      LastBase(segments[|segments| - 1], codec, views[|views| - 1]);
    }

    /** Cuts the last segment file. */
    method CutLastSegment(from: Offset)
      requires Matching() && segments != []
      modifies this`views, segments[|segments| - 1]
      ensures Matching() && views == CutLast(old(views), from)
    {
      var n := |segments| - 1;
      var _ := segments[n].TruncateSuffix(from);
      views := CutLast(views, from);
      assert Holds(segments[n], codec, views[n]);
    }

    /** Cuts as the contiguous log does; exactly a cut before the start breaks the log's bounds. */
    method TruncateSuffix(from: Offset)
      requires Valid()
      modifies this, segments
      ensures Matching() && segments <= old(segments) && logStart == old(logStart)
      ensures Valid() <==> logStart <= from
      ensures logStart <= from ==> Abs() == old(Abs()).TruncateSuffix(from)
      ensures from < logStart ==> logEnd == from
    {
      hide Holds, F.Lawful, Linked, Bounds, Logical, DropTail, CutLast;
      LogicalSound(views, logStart, logEnd, persistedStart);
      if from >= logEnd { return; }
      if logStart <= from { SuffixCutSound(views, from, logStart, logEnd, persistedStart); }
      if segments != [] {
        PopFrom(from);
        CutLastSegment(from);
      }
      logEnd := from;
      if from < logStart { OutOfBounds(views, logStart, logEnd, persistedStart); }
    }

    /** Removes the segments that end at or before the new start. */
    method RemoveBefore(upTo: Offset)
      requires Matching()
      modifies this`segments, this`views
      ensures Matching() && views == KeepAfter(old(views), upTo)
      ensures forall s | s in segments :: s in old(segments)
    {
      hide Holds;
      var kept: seq<SegmentFile> := [];
      ghost var keptViews: seq<View> := [];
      for i := 0 to |segments|
        invariant segments == old(segments) && views == old(views) && Matching()
        invariant keptViews == KeepAfter(views[..i], upTo)
        invariant Paired(kept, keptViews, codec) && forall s | s in kept :: s in segments[..i]
      {
        assert views[..i + 1][..i] == views[..i];
        NextOffset(segments[i], codec, views[i]);
        if segments[i].nextOffset > upTo {
          assert segments[i] !in segments[..i];
          kept := kept + [segments[i]];
          keptViews := keptViews + [views[i]];
        }
      }
      assert views[..|segments|] == views;
      segments := kept;
      views := keptViews;
    }

    /** Cuts the front as the contiguous log does, exactly for cuts within the log. */
    method TruncatePrefix(upTo: Offset)
      requires Valid()
      modifies this
      ensures Matching() && forall s | s in segments :: s in old(segments)
      ensures logStart == persistedStart == upTo && logEnd == old(logEnd)
      ensures Valid() && Abs() == old(Abs()).TruncatePrefix(upTo) <==> old(logStart) <= upTo <= old(logEnd)
    {
      hide Holds, F.Lawful, Linked, Bounds, Logical, KeepAfter;
      if logStart <= upTo <= logEnd { PrefixCutSound(views, upTo, logStart, logEnd, persistedStart); }
      else { PrefixCutOutside(views, upTo, logStart, logEnd, persistedStart); }
      RemoveBefore(upTo);
      logStart := upTo;
      persistedStart := upTo;
    }
  }
}
