/** A row of segments seen as values: how it adds up to one contiguous log, and how each operation changes that. */
module SegmentViews {
  import opened Types
  import opened LogSpec

  datatype View = View(base: Offset, entries: seq<LogEntry>) {
    function End(): Offset { base + |entries| }
  }

  /** Each segment is contiguous, neighbours abut, and only a lone segment may be empty. */
  ghost predicate Linked(vs: seq<View>) {
    && (forall i | 0 <= i < |vs| :: Log(vs[i].base, vs[i].entries).Contiguous())
    && (forall i | 0 <= i < |vs| - 1 :: vs[i].End() == vs[i + 1].base)
    && (|vs| > 1 ==> forall i | 0 <= i < |vs| :: vs[i].entries != [])
  }

  function All(vs: seq<View>): seq<LogEntry> {
    if vs == [] then [] else All(vs[..|vs| - 1]) + vs[|vs| - 1].entries
  }

  function Physical(vs: seq<View>): Log
    requires vs != []
  {
    Log(vs[0].base, All(vs))
  }

  /** The log a caller sees: everything from the start offset on. */
  function Logical(vs: seq<View>, start: Offset): Log {
    if vs == [] then Log(start, []) else Physical(vs).TruncatePrefix(start)
  }

  /** The bounds kept beside the segments, and the start offset kept in its own file. */
  ghost predicate Bounds(vs: seq<View>, start: Offset, end: Offset, persisted: Offset) {
    && (vs == [] ==> start == end)
    && (vs != [] ==> vs[0].base <= start <= end == vs[|vs| - 1].End())
    && start == Max(persisted, if vs == [] then 0 else vs[0].base)
  }

  lemma {:induction false} PhysicalSound(vs: seq<View>)
    requires Linked(vs) && vs != []
    ensures Physical(vs).Contiguous() && Physical(vs).End() == vs[|vs| - 1].End()
    decreases |vs|
  {
    var n := |vs| - 1;
    if n == 0 {
      assert All(vs) == vs[0].entries by { assert All(vs[..0]) == []; }
    } else {
      var front := vs[..n];
      PhysicalSound(front);
      assert vs[n - 1].End() == vs[n - 1 + 1].base;
      JoinContiguous(Physical(front), vs[n]);
    }
  }

  lemma {:induction false} JoinContiguous(log: Log, v: View)
    requires log.Contiguous() && Log(v.base, v.entries).Contiguous() && log.End() == v.base
    ensures Log(log.start, log.entries + v.entries).Contiguous()
  {
  }

  lemma {:induction false} LogicalSound(vs: seq<View>, start: Offset, end: Offset, persisted: Offset)
    requires Linked(vs) && Bounds(vs, start, end, persisted)
    ensures var log := Logical(vs, start); log.Contiguous() && log.start == start && log.End() == end
  {
    if vs != [] { PhysicalSound(vs); }
  }

  // ---- Appending ----

  function AppendLast(vs: seq<View>, es: seq<LogEntry>): seq<View>
    requires vs != []
  {
    vs[..|vs| - 1] + [View(vs[|vs| - 1].base, vs[|vs| - 1].entries + es)]
  }

  lemma {:induction false} AppendLastSound(vs: seq<View>, es: seq<LogEntry>, start: Offset, end: Offset, persisted: Offset)
    requires Linked(vs) && Bounds(vs, start, end, persisted) && vs != []
    requires Log(end, es).Contiguous() && es != []
    ensures Linked(AppendLast(vs, es)) && Bounds(AppendLast(vs, es), start, end + |es|, persisted)
    ensures Logical(AppendLast(vs, es), start) == Logical(vs, start).Append(es)
  {
    AppendLastLinked(vs, es);
    PhysicalSound(vs);
    AppendLastAll(vs, es);
    AppendAfterPrefixCut(Physical(vs), start, es);
  }

  lemma {:induction false} AppendLastLinked(vs: seq<View>, es: seq<LogEntry>)
    requires Linked(vs) && vs != [] && es != [] && Log(vs[|vs| - 1].End(), es).Contiguous()
    ensures Linked(AppendLast(vs, es)) && AppendLast(vs, es)[0].base == vs[0].base
  {
  }

  lemma {:induction false} AppendLastAll(vs: seq<View>, es: seq<LogEntry>)
    requires vs != []
    ensures All(AppendLast(vs, es)) == All(vs) + es
  {
  }

  lemma {:induction false} AppendAfterPrefixCut(log: Log, start: Offset, es: seq<LogEntry>)
    requires start <= log.End()
    ensures Log(log.start, log.entries + es).TruncatePrefix(start) == log.TruncatePrefix(start).Append(es)
  {
  }

  lemma {:induction false} NewSegmentSound(vs: seq<View>, es: seq<LogEntry>, start: Offset, end: Offset, persisted: Offset)
    requires Linked(vs) && Bounds(vs, start, end, persisted)
    requires forall i | 0 <= i < |vs| :: vs[i].entries != []
    requires Log(end, es).Contiguous() && es != []
    ensures var ws := vs + [View(end, es)];
      && Linked(ws) && Bounds(ws, start, end + |es|, persisted)
      && Logical(ws, start) == Logical(vs, start).Append(es)
  {
    var ws := vs + [View(end, es)];
    assert ws[..|vs|] == vs;
    if vs == [] {
      assert All(ws) == [] + es == es;
    } else {
      PhysicalSound(vs);
      AppendAfterPrefixCut(Physical(vs), start, es);
    }
  }

  // ---- Cutting the suffix ----

  /** The segments left after dropping those that begin at or after the cut, keeping at least one. */
  function DropTail(vs: seq<View>, from: Offset): (ws: seq<View>)
    ensures vs != [] ==> ws != []
    decreases |vs|
  {
    if |vs| > 1 && vs[|vs| - 1].base >= from then DropTail(vs[..|vs| - 1], from) else vs
  }

  function CutLast(vs: seq<View>, from: Offset): seq<View>
    requires vs != []
  {
    var last := vs[|vs| - 1];
    vs[..|vs| - 1] + [View(last.base, Log(last.base, last.entries).TruncateSuffix(from).entries)]
  }

  lemma {:induction false} DropTailSound(vs: seq<View>, from: Offset)
    requires Linked(vs) && vs != [] && vs[0].base <= from <= vs[|vs| - 1].End()
    ensures var ws := DropTail(vs, from);
      && Linked(ws) && ws != [] && ws <= vs
      && (|ws| > 1 ==> ws[|ws| - 1].base < from)
      && vs[0].base <= from && ws[|ws| - 1].base <= from <= ws[|ws| - 1].End()
      && Physical(ws).TruncateSuffix(from) == Physical(vs).TruncateSuffix(from)
    decreases |vs|
  {
    var n := |vs| - 1;
    if n > 0 && vs[n].base >= from {
      var front := vs[..n];
      assert vs[n - 1].End() == vs[n - 1 + 1].base;
      DropTailSound(front, from);
      PhysicalSound(front);
      CutInFront(Physical(front), vs[n].entries, from);
    }
  }

  /** A cut inside the first part of a concatenation does not see the second. */
  lemma {:induction false} CutInFront(log: Log, more: seq<LogEntry>, from: Offset)
    requires from <= log.End()
    ensures Log(log.start, log.entries + more).TruncateSuffix(from) == log.TruncateSuffix(from)
  {
  }

  /** A cut inside the last part of a concatenation leaves the first alone. */
  lemma {:induction false} CutInBack(log: Log, more: seq<LogEntry>, from: Offset)
    requires log.End() <= from
    ensures Log(log.start, log.entries + more).TruncateSuffix(from)
            == Log(log.start, log.entries + Log(log.End(), more).TruncateSuffix(from).entries)
  {
  }

  lemma {:induction false} CutLastSound(vs: seq<View>, from: Offset)
    requires Linked(vs) && vs != [] && (|vs| > 1 ==> vs[|vs| - 1].base < from)
    requires vs[|vs| - 1].base <= from <= vs[|vs| - 1].End()
    ensures var ws := CutLast(vs, from);
      && Linked(ws) && ws[0].base == vs[0].base && ws[|ws| - 1].End() == from
      && Physical(ws) == Physical(vs).TruncateSuffix(from)
  {
    var n := |vs| - 1;
    var ws := CutLast(vs, from);
    var front := Log(vs[0].base, All(vs[..n]));
    assert ws[..n] == vs[..n];
    if n > 0 {
      PhysicalSound(vs[..n]);
      assert vs[n - 1].End() == vs[n - 1 + 1].base;
    }
    assert front.End() == vs[n].base;
    CutInBack(front, vs[n].entries, from);
  }

  lemma {:induction false} SuffixCutSound(vs: seq<View>, from: Offset, start: Offset, end: Offset, persisted: Offset)
    requires Linked(vs) && Bounds(vs, start, end, persisted) && start <= from < end
    ensures vs != []
    ensures var ws := CutLast(DropTail(vs, from), from);
      && Linked(ws) && Bounds(ws, start, from, persisted)
      && Logical(ws, start) == Logical(vs, start).TruncateSuffix(from)
  {
    DropTailSound(vs, from);
    CutLastSound(DropTail(vs, from), from);
    PhysicalSound(vs);
    CutsCommute(Physical(vs), start, from);
  }

  lemma {:induction false} CutsCommute(log: Log, start: Offset, from: Offset)
    requires log.start <= start <= from <= log.End()
    ensures log.TruncateSuffix(from).TruncatePrefix(start) == log.TruncatePrefix(start).TruncateSuffix(from)
  {
  }

  // ---- Cutting the prefix ----

  /** The segments that still hold an entry at or after the new start. */
  function KeepAfter(vs: seq<View>, upTo: Offset): seq<View> {
    if vs == [] then []
    else
      var rest := KeepAfter(vs[..|vs| - 1], upTo);
      if vs[|vs| - 1].End() <= upTo then rest else rest + [vs[|vs| - 1]]
  }

  lemma {:induction false} EndsIncrease(vs: seq<View>, i: nat, j: nat)
    requires Linked(vs) && i <= j < |vs|
    ensures vs[i].End() <= vs[j].End()
    decreases j - i
  {
    if i < j {
      EndsIncrease(vs, i, j - 1);
      assert vs[j - 1].End() == vs[j - 1 + 1].base;
    }
  }

  lemma {:induction false} LinkedPrefix(vs: seq<View>, k: nat)
    requires Linked(vs) && k <= |vs|
    ensures Linked(vs[..k])
  {
  }

  /** The number of leading segments that end at or before an offset. */
  function Leading(vs: seq<View>, upTo: Offset): (k: nat)
    ensures k <= |vs|
  {
    if vs == [] then 0
    else
      var k := Leading(vs[..|vs| - 1], upTo);
      if k == |vs| - 1 && vs[|vs| - 1].End() <= upTo then |vs| else k
  }

  lemma {:induction false} LeadingStops(vs: seq<View>, upTo: Offset)
    ensures var k := Leading(vs, upTo);
      (k > 0 ==> vs[k - 1].End() <= upTo) && (k < |vs| ==> vs[k].End() > upTo)
    decreases |vs|
  {
    if vs != [] { LeadingStops(vs[..|vs| - 1], upTo); }
  }

  /** What is kept is the rest of the row from the first segment that reaches past the cut. */
  lemma {:induction false} KeptIsSuffix(vs: seq<View>, upTo: Offset)
    requires Linked(vs)
    ensures KeepAfter(vs, upTo) == vs[Leading(vs, upTo)..]
    decreases |vs|
  {
    if vs != [] {
      var n := |vs| - 1;
      var front := vs[..n];
      var k := Leading(front, upTo);
      LinkedPrefix(vs, n);
      KeptIsSuffix(front, upTo);
      EndsIncrease(vs, Min(k, n), n);
      LeadingStops(front, upTo);
      if vs[n].End() > upTo { SuffixStep(vs, k); }
    }
  }

  lemma {:induction false} SuffixStep(vs: seq<View>, k: nat)
    requires k < |vs|
    ensures vs[k..] == vs[..|vs| - 1][k..] + [vs[|vs| - 1]]
  {
  }

  lemma {:induction false} AllSnoc(vs: seq<View>, v: View)
    ensures All(vs + [v]) == All(vs) + v.entries
  {
    assert (vs + [v])[..|vs|] == vs;
  }

  lemma {:induction false} Regroup(a: seq<LogEntry>, b: seq<LogEntry>, c: seq<LogEntry>)
    ensures (a + b) + c == a + (b + c)
  {
  }

  /** The last segment joins the second part. */
  lemma {:induction false} AllSplitLast(vs: seq<View>, k: nat)
    requires k < |vs| && All(vs[..|vs| - 1]) == All(vs[..k]) + All(vs[..|vs| - 1][k..])
    ensures All(vs) == All(vs[..k]) + All(vs[k..])
  {
    hide All;
    var front, last := vs[..|vs| - 1], vs[|vs| - 1];
    assert front + [last] == vs;
    SuffixStep(vs, k);
    AllSnoc(front, last);
    AllSnoc(front[k..], last);
    Regroup(All(vs[..k]), All(front[k..]), last.entries);
  }

  lemma {:induction false} AllSplit(vs: seq<View>, k: nat)
    requires k <= |vs|
    ensures All(vs) == All(vs[..k]) + All(vs[k..])
    decreases |vs|
  {
    if k == |vs| {
      assert vs[..k] == vs && vs[k..] == [];
    } else {
      AllSplit(vs[..|vs| - 1], k);
      assert vs[..|vs| - 1][..k] == vs[..k];
      AllSplitLast(vs, k);
    }
  }

  lemma {:induction false} LinkedSuffix(vs: seq<View>, k: nat)
    requires Linked(vs) && k <= |vs|
    ensures Linked(vs[k..])
  {
  }

  lemma {:induction false} PrefixCutSound(vs: seq<View>, upTo: Offset, start: Offset, end: Offset, persisted: Offset)
    requires Linked(vs) && Bounds(vs, start, end, persisted) && start <= upTo <= end
    ensures var ws := KeepAfter(vs, upTo);
      && Linked(ws) && Bounds(ws, upTo, end, upTo)
      && Logical(ws, upTo) == Logical(vs, start).TruncatePrefix(upTo)
  {
    KeptIsSuffix(vs, upTo);
    var k := Leading(vs, upTo);
    LinkedSuffix(vs, k);
    KeptBounds(vs, k, upTo, start, end, persisted);
    if vs != [] {
      PhysicalSound(vs);
      PrefixCutTwice(Physical(vs), start, upTo);
      KeptLogical(vs, k, upTo);
    }
  }

  lemma {:induction false} KeptBounds(vs: seq<View>, k: nat, upTo: Offset, start: Offset, end: Offset, persisted: Offset)
    requires Linked(vs) && Bounds(vs, start, end, persisted) && start <= upTo <= end
    requires k == Leading(vs, upTo)
    ensures Bounds(vs[k..], upTo, end, upTo)
  {
    LeadingStops(vs, upTo);
    if 0 < k < |vs| { assert vs[k - 1].End() == vs[k - 1 + 1].base; }
    if k < |vs| { assert vs[k..][|vs| - k - 1] == vs[|vs| - 1]; }
  }

  lemma {:induction false} KeptLogical(vs: seq<View>, k: nat, upTo: Offset)
    requires Linked(vs) && vs != [] && k == Leading(vs, upTo) && upTo <= vs[|vs| - 1].End()
    ensures Logical(vs[k..], upTo) == Physical(vs).TruncatePrefix(upTo)
  {
    LeadingStops(vs, upTo);
    if k == 0 {
      assert vs[k..] == vs;
    } else if k < |vs| {
      KeptMiddle(vs, k, upTo);
    } else {
      PhysicalSound(vs);
    }
  }

  lemma {:induction false} KeptMiddle(vs: seq<View>, k: nat, upTo: Offset)
    requires Linked(vs) && 0 < k < |vs| && vs[k - 1].End() <= upTo < vs[k].End()
    ensures Logical(vs[k..], upTo) == Physical(vs).TruncatePrefix(upTo)
  {
    var a, b := All(vs[..k]), All(vs[k..]);
    AllSplit(vs, k);
    DroppedLength(vs, k);
    assert vs[k].base == vs[0].base + |a| by { assert vs[k - 1].End() == vs[k - 1 + 1].base; }
    LinkedSuffix(vs, k);
    PhysicalSound(vs[k..]);
    EndsIncrease(vs, k, |vs| - 1);
    DropFront(vs[0].base, a, b, upTo);
  }

  lemma {:induction false} DroppedLength(vs: seq<View>, k: nat)
    requires Linked(vs) && 0 < k <= |vs|
    ensures vs[0].base + |All(vs[..k])| == vs[k - 1].End()
  {
    LinkedPrefix(vs, k);
    PhysicalSound(vs[..k]);
  }

  lemma {:induction false} PrefixCutTwice(log: Log, a: Offset, b: Offset)
    requires a <= b <= log.End()
    ensures log.TruncatePrefix(a).TruncatePrefix(b) == log.TruncatePrefix(b)
  {
  }

  lemma {:induction false} DropFront(base: Offset, a: seq<LogEntry>, b: seq<LogEntry>, upTo: Offset)
    requires base + |a| <= upTo < base + |a| + |b|
    ensures Log(base + |a|, b).TruncatePrefix(upTo) == Log(base, a + b).TruncatePrefix(upTo)
  {
  }
}
