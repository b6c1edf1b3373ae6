/** Two in-memory log stores: one computes indices, the other filters by offset. */
module MemoryLogs {
  import opened Types
  import opened LogSpec

  function Minus(a: nat, b: nat): nat { if a < b then 0 else a - b }

  /** The entries at or after an offset, in order. */
  function From(es: seq<LogEntry>, lo: Offset): seq<LogEntry> {
    if es == [] then []
    else
      var rest := From(es[..|es| - 1], lo);
      if es[|es| - 1].offset >= lo then rest + [es[|es| - 1]] else rest
  }

  /** On a contiguous log, filtering from an offset is cutting the front off. */
  lemma {:induction false} FromIsSlice(log: Log, lo: Offset)
    requires log.Contiguous()
    ensures From(log.entries, lo) == log.entries[Min(Minus(lo, log.start), |log.entries|)..]
    decreases |log.entries|
  {
    if log.entries != [] {
      var n := |log.entries| - 1;
      FromIsSlice(Log(log.start, log.entries[..n]), lo);
      if lo <= log.start + n { SliceLast(log.entries, Minus(lo, log.start)); }
    }
  }

  lemma {:induction false} SliceLast(es: seq<LogEntry>, k: nat)
    requires k < |es|
    ensures es[k..] == es[..|es| - 1][k..] + [es[|es| - 1]]
  {
  }

  lemma {:induction false} BelowIsCut(log: Log, from: Offset)
    requires log.Contiguous()
    ensures InRange(log.entries, 0, from) == log.TruncateSuffix(from).entries
  {
    InRangeIsSlice(log, 0, from);
  }

  lemma {:induction false} FromIsCut(log: Log, upTo: Offset)
    requires log.Contiguous() && log.start <= upTo
    ensures From(log.entries, upTo) == log.TruncatePrefix(upTo).entries
  {
    hide From;
    FromIsSlice(log, upTo);
    assert log.entries[0..] == log.entries && log.entries[|log.entries|..] == [];
  }

  class IndexedLogStore {
    var entries: seq<LogEntry>
    var start: Offset
    var fsyncFails: bool

    ghost function Abs(): Log
      reads this
    {
      Log(start, entries)
    }

    constructor ()
      ensures Abs() == Log(0, []) && !fsyncFails
    {
      entries, start, fsyncFails := [], 0, false;
    }

    method Append(es: seq<LogEntry>) returns (ok: bool)
      modifies this`entries
      ensures ok <==> !fsyncFails
      ensures Abs() == if ok then old(Abs()).Append(es) else old(Abs())
    {
      if fsyncFails { return false; }
      for i := 0 to |es|
        invariant entries == old(entries) + es[..i]
      {
        entries := entries + [es[i]];
      }
      assert es[..|es|] == es;
      ok := true;
    }

    method Read(lo: Offset, hi: Offset) returns (r: seq<LogEntry>)
      ensures r == Abs().Read(lo, hi)
    {
      var startIdx := Minus(lo, start);
      var endIdx := Min(Minus(hi, start), |entries|);
      if startIdx > endIdx { return []; }
      r := entries[startIdx..endIdx];
    }

    method EntryAt(o: Offset) returns (r: Option<LogEntry>)
      ensures r == Abs().EntryAt(o)
    {
      if o < start { return None; }
      var idx := o - start;
      r := if idx < |entries| then Some(entries[idx]) else None;
    }

    method TruncateSuffix(from: Offset)
      modifies this`entries
      ensures Abs() == old(Abs()).TruncateSuffix(from)
    {
      if from <= start {
        entries := [];
      } else {
        var idx := from - start;
        if idx < |entries| { entries := entries[..idx]; }
      }
    }

    method TruncatePrefix(upTo: Offset)
      modifies this`entries, this`start
      ensures Abs() == old(Abs()).TruncatePrefix(upTo)
    {
      if upTo <= start { return; }
      var removeCount := upTo - start;
      if removeCount >= |entries| {
        entries := [];
        start := upTo;
      } else {
        entries := entries[removeCount..];
        start := upTo;
      }
    }

    method EndOffset() returns (end: Offset)
      ensures end == Abs().End()
    {
      end := start + |entries|;
    }
  }

  class FilterLogStore {
    var entries: seq<LogEntry>
    var start: Offset

    ghost function Abs(): Log
      reads this
    {
      Log(start, entries)
    }

    constructor ()
      ensures Abs() == Log(0, [])
    {
      entries, start := [], 0;
    }

    method Append(es: seq<LogEntry>)
      modifies this`entries
      ensures Abs() == old(Abs()).Append(es)
    {
      for i := 0 to |es|
        invariant entries == old(entries) + es[..i]
      {
        entries := entries + [es[i]];
      }
      assert es[..|es|] == es;
    }

    method Read(lo: Offset, hi: Offset) returns (r: seq<LogEntry>)
      ensures r == InRange(entries, lo, hi)
      ensures Abs().Contiguous() ==> r == Abs().Read(lo, hi)
    {
      r := [];
      for i := 0 to |entries|
        invariant r == InRange(entries[..i], lo, hi)
      {
        assert entries[..i + 1][..i] == entries[..i];
        if entries[i].offset >= lo && entries[i].offset < hi { r := r + [entries[i]]; }
      }
      assert entries[..|entries|] == entries;
      if Abs().Contiguous() { InRangeIsSlice(Abs(), lo, hi); }
    }

    method EntryAt(o: Offset) returns (r: Option<LogEntry>)
      ensures r.Some? ==> r.value in entries && r.value.offset == o
      ensures r.None? ==> forall j | 0 <= j < |entries| :: entries[j].offset != o
      ensures Abs().Contiguous() ==> r == Abs().EntryAt(o)
    {
      for i := 0 to |entries|
        invariant forall j | 0 <= j < i :: entries[j].offset != o
      {
        if entries[i].offset == o { return Some(entries[i]); }
      }
      r := None;
    }

    method TruncateSuffix(from: Offset)
      modifies this`entries
      ensures start == old(start) && entries == InRange(old(entries), 0, from)
      ensures old(Abs().Contiguous()) ==> Abs() == old(Abs()).TruncateSuffix(from)
    {
      ghost var was := Abs();
      var kept: seq<LogEntry> := [];
      for i := 0 to |entries|
        invariant kept == InRange(entries[..i], 0, from)
      {
        assert entries[..i + 1][..i] == entries[..i];
        if entries[i].offset < from { kept := kept + [entries[i]]; }
      }
      assert entries[..|entries|] == entries;
      if was.Contiguous() { BelowIsCut(was, from); }
      entries := kept;
    }

    method TruncatePrefix(upTo: Offset)
      modifies this`entries, this`start
      ensures start == upTo && entries == From(old(entries), upTo)
      ensures old(Abs().Contiguous() && start <= upTo) ==> Abs() == old(Abs()).TruncatePrefix(upTo)
    {
      ghost var was := Abs();
      var kept: seq<LogEntry> := [];
      for i := 0 to |entries|
        invariant kept == From(entries[..i], upTo)
      {
        assert entries[..i + 1][..i] == entries[..i];
        if entries[i].offset >= upTo { kept := kept + [entries[i]]; }
      }
      assert entries[..|entries|] == entries;
      if was.Contiguous() && was.start <= upTo { FromIsCut(was, upTo); }
      entries := kept;
      start := upTo;
    }

    method EndOffset() returns (end: Offset)
      ensures Abs().Contiguous() ==> end == Abs().End()
    {
      end := if entries == [] then start else entries[|entries| - 1].offset + 1;
    }
  }

  // ---- The two stores side by side ----

  /** The filter store's cut of the front, as a function of its log. */
  function FilterPrefix(log: Log, upTo: Offset): Log { Log(upTo, From(log.entries, upTo)) }

  /** The stores cut the front alike exactly when the cut does not lie before the start. */
  lemma {:induction false} PrefixCutsAgree(log: Log, upTo: Offset)
    requires log.Contiguous()
    ensures FilterPrefix(log, upTo) == log.TruncatePrefix(upTo) <==> log.start <= upTo
  {
    if log.start <= upTo { FromIsCut(log, upTo); }
  }

  /**
   What the two stores do alike: batches that continue the log, and cuts of the
   front that do not move the start back.
   */
  ghost predicate Alike(log: Log, fsyncFails: bool, op: Op) {
    match op
    case Append(es) => log.Continues(es) && (fsyncFails ==> es == [])
    case TruncatePrefix(upTo) => log.start <= upTo
    case _ => true
  }

  ghost predicate AllAlike(log: Log, fsyncFails: bool, ops: seq<Op>) {
    forall i | 0 <= i < |ops| :: Alike(AfterAll(log, ops[..i]), fsyncFails, ops[i])
  }

  lemma {:induction false} AlikeKeepsContiguous(log: Log, fsyncFails: bool, op: Op)
    requires log.Contiguous() && Alike(log, fsyncFails, op)
    ensures After(log, op).Contiguous()
  {
  }

  /** One operation on both stores: the same answer, the reference's. */
  method Both(a: IndexedLogStore, b: FilterLogStore, op: Op) returns (x: Answer, y: Answer)
    requires a.Abs() == b.Abs() && b.Abs().Contiguous() && Alike(a.Abs(), a.fsyncFails, op)
    modifies a`entries, a`start, b
    ensures a.Abs() == b.Abs() == After(old(a.Abs()), op) && b.Abs().Contiguous()
    ensures x == y == Reply(old(a.Abs()), op)
  {
    AlikeKeepsContiguous(a.Abs(), a.fsyncFails, op);
    var found: seq<LogEntry>, seen: seq<LogEntry> := [], [];
    match op {
      case Append(es) =>
        assert a.Abs().entries + [] == a.Abs().entries;
        var _ := a.Append(es);
        b.Append(es);
      case TruncateSuffix(from) =>
        a.TruncateSuffix(from);
        b.TruncateSuffix(from);
      case TruncatePrefix(upTo) =>
        a.TruncatePrefix(upTo);
        b.TruncatePrefix(upTo);
      case Read(lo, hi) =>
        found := a.Read(lo, hi);
        seen := b.Read(lo, hi);
      case EntryAt(at) =>
        var e := a.EntryAt(at);
        var f := b.EntryAt(at);
        found := match e case Some(v) => [v] case None => [];
        seen := match f case Some(v) => [v] case None => [];
    }
    var endA := a.EndOffset();
    var endB := b.EndOffset();
    x, y := Answer(found, a.start, endA), Answer(seen, b.start, endB);
  }

  /** Any such run gives the same answers from both stores, those of one contiguous log. */
  method SideBySide(a: IndexedLogStore, b: FilterLogStore, ops: seq<Op>) returns (xs: seq<Answer>, ys: seq<Answer>)
    requires a.Abs() == b.Abs() && b.Abs().Contiguous() && AllAlike(a.Abs(), a.fsyncFails, ops)
    modifies a`entries, a`start, b
    ensures xs == ys && |xs| == |ops| && forall i | 0 <= i < |ops| :: xs[i] == ReplyAt(old(a.Abs()), ops, i)
    ensures a.Abs() == b.Abs() == AfterAll(old(a.Abs()), ops) && b.Abs().Contiguous()
  {
    hide After, Reply;
    xs, ys := [], [];
    for i := 0 to |ops|
      invariant xs == ys && |xs| == i && forall k | 0 <= k < i :: xs[k] == ReplyAt(old(a.Abs()), ops, k)
      invariant a.Abs() == b.Abs() == AfterAll(old(a.Abs()), ops[..i]) && b.Abs().Contiguous()
    {
      assert ops[..i + 1][..i] == ops[..i];
      var x, y := Both(a, b, ops[i]);
      xs, ys := xs + [x], ys + [y];
    }
    assert ops[..|ops|] == ops;
  }
}
