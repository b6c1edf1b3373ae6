/**
 The reference every log store is compared with: one contiguous run of entries
 beginning at a start offset, and the answers it gives to each store operation.
 */
module LogSpec {
  import opened Types

  datatype Log = Log(start: Offset, entries: seq<LogEntry>) {

    function End(): Offset { start + |entries| }

    ghost predicate Contiguous() {
      forall i | 0 <= i < |entries| :: entries[i].offset == start + i
    }

    function Append(es: seq<LogEntry>): Log {
      Log(start, entries + es)
    }

    function TruncateSuffix(from: Offset): Log {
      if from >= End() then this
      else if from <= start then Log(start, [])
      else Log(start, entries[..from - start])
    }

    function TruncatePrefix(upTo: Offset): Log {
      if upTo <= start then this
      else if upTo >= End() then Log(upTo, [])
      else Log(upTo, entries[upTo - start..])
    }

    function Read(lo: Offset, hi: Offset): seq<LogEntry> {
      var a, b := Max(lo, start), Min(hi, End());
      if a >= b then [] else entries[a - start..b - start]
    }

    function EntryAt(o: Offset): Option<LogEntry> {
      if start <= o < End() then Some(entries[o - start]) else None
    }

    /** The batch continues this log: it starts at the end and has no gaps. */
    ghost predicate Continues(es: seq<LogEntry>) {
      forall i | 0 <= i < |es| :: es[i].offset == End() + i
    }
  }

  datatype Op =
    | Append(es: seq<LogEntry>)
    | TruncateSuffix(from: Offset)
    | TruncatePrefix(upTo: Offset)
    | Read(lo: Offset, hi: Offset)
    | EntryAt(at: Offset)

  /** What a caller sees after an operation: the answer and the two bounds. */
  datatype Answer = Answer(entries: seq<LogEntry>, start: Offset, end: Offset)

  /** The conditions callers keep: batches continue the log, cuts lie inside it. */
  ghost predicate Legal(log: Log, op: Op) {
    match op
    case Append(es) => log.Continues(es)
    case TruncateSuffix(from) => log.start <= from
    case TruncatePrefix(upTo) => log.start <= upTo <= log.End()
    case Read(_, _) => true
    case EntryAt(_) => true
  }

  function After(log: Log, op: Op): Log {
    match op
    case Append(es) => log.Append(es)
    case TruncateSuffix(from) => log.TruncateSuffix(from)
    case TruncatePrefix(upTo) => log.TruncatePrefix(upTo)
    case Read(_, _) => log
    case EntryAt(_) => log
  }

  function Reply(log: Log, op: Op): Answer {
    var next := After(log, op);
    var found := match op
      case Read(lo, hi) => log.Read(lo, hi)
      case EntryAt(at) => (match log.EntryAt(at) case Some(e) => [e] case None => [])
      case _ => [];
    Answer(found, next.start, next.End())
  }

  function AfterAll(log: Log, ops: seq<Op>): Log
    decreases |ops|
  {
    if ops == [] then log else After(AfterAll(log, ops[..|ops| - 1]), ops[|ops| - 1])
  }

  /** The reply to the i-th operation of a run. */
  function ReplyAt(log: Log, ops: seq<Op>, i: nat): Answer
    requires i < |ops|
  {
    Reply(AfterAll(log, ops[..i]), ops[i])
  }

  /** Legal operations keep the offsets of the reference log contiguous. */
  lemma {:induction false} LegalKeepsContiguous(log: Log, op: Op)
    requires log.Contiguous() && Legal(log, op)
    ensures After(log, op).Contiguous()
  {
  }

  /** The entries of a batch whose offsets lie in [lo, hi), in order. */
  function InRange(es: seq<LogEntry>, lo: Offset, hi: Offset): seq<LogEntry> {
    if es == [] then []
    else
      var last := es[|es| - 1];
      var rest := InRange(es[..|es| - 1], lo, hi);
      if lo <= last.offset < hi then rest + [last] else rest
  }

  lemma {:induction false} InRangeConcat(a: seq<LogEntry>, b: seq<LogEntry>, lo: Offset, hi: Offset)
    ensures InRange(a + b, lo, hi) == InRange(a, lo, hi) + InRange(b, lo, hi)
  {
    if b == [] {
      assert a + b == a;
    } else {
      var n := |b| - 1;
      assert (a + b)[..|a + b| - 1] == a + b[..n];
      InRangeConcat(a, b[..n], lo, hi);
    }
  }

  /** On contiguous entries the offset filter is a slice. */
  lemma {:induction false} InRangeIsSlice(log: Log, lo: Offset, hi: Offset)
    requires log.Contiguous()
    ensures InRange(log.entries, lo, hi) == log.Read(lo, hi)
    decreases |log.entries|
  {
    var n := |log.entries|;
    if n > 0 {
      var front := log.entries[..n - 1];
      InRangeIsSlice(Log(log.start, front), lo, hi);
      SliceStep(log, lo, hi);
    }
  }

  lemma {:induction false} SliceEnd(es: seq<LogEntry>, a: nat)
    requires a < |es|
    ensures es[a..] == es[a..|es|] == es[..|es| - 1][a..|es| - 1] + [es[|es| - 1]]
  {
    var n := |es| - 1;
    assert es[..n][a..n] == es[a..n];
    assert es[a..n] + [es[n]] == es[a..n + 1];
  }

  lemma {:induction false} SliceOfFront(es: seq<LogEntry>, n: nat, a: nat, b: nat)
    requires a <= b <= n <= |es|
    ensures es[..n][a..b] == es[a..b]
  {
    var x, y := es[..n][a..b], es[a..b];
    assert |x| == |y| && forall i | 0 <= i < |x| :: x[i] == y[i];
  }

  /** How a slice grows with the last entry. */
  lemma {:induction false} SliceStep(log: Log, lo: Offset, hi: Offset)
    requires log.entries != []
    ensures log.Read(lo, hi) ==
            Log(log.start, log.entries[..|log.entries| - 1]).Read(lo, hi) +
            if lo < log.End() <= hi then [log.entries[|log.entries| - 1]] else []
  {
    var es, n := log.entries, |log.entries| - 1;
    var a := Max(lo, log.start) - log.start;
    if log.End() <= hi {
      if a <= n { SliceEnd(es, a); }
    } else if log.start <= hi {
      var b := hi - log.start;
      if a < b { assert es[a..b] == es[..n][a..b]; }
    }
  }
}
