/** One segment file: opening with recovery, appending, reading and cutting its batches. */
module Segment {
  import opened Types
  import opened Framing
  import LogSpec

  datatype ReadResult = Entries(entries: seq<LogEntry>) | Corruption(flaw: Flaw) | IoError

  /** Reading succeeds exactly when only an incomplete header follows the run of batches. */
  function ReadAnswer(c: Codec, file: bytes, lo: Offset, hi: Offset): ReadResult {
    var run := Scan(c, file, 0);
    match ParseAt(c, file, run.end)
    case Broken(ShortHeader) => Entries(LogSpec.InRange(run.entries, lo, hi))
    case Broken(ShortPayload) => IoError
    case Broken(flaw) => Corruption(flaw)
    case Batch(_, _) => IoError
  }

  /** A clean file always reads back, entry for entry. */
  lemma {:induction false} CleanReads(c: Codec, file: bytes, lo: Offset, hi: Offset)
    requires Clean(c, file)
    ensures ReadAnswer(c, file, lo, hi) == Entries(LogSpec.InRange(Contents(c, file), lo, hi))
  {
  }

  /**
   Reading any file gives the entries in range of its longest run of valid
   batches when fewer bytes than a header follow, and otherwise says what is
   wrong with the bytes after it.
   */
  lemma {:induction false} ReadsExactly(c: Codec, file: bytes, ps: seq<nat>, batches: seq<seq<LogEntry>>, lo: Offset, hi: Offset)
    requires Longest(c, file, ps, batches)
    ensures var end := ps[|batches|];
      match ReadAnswer(c, file, lo, hi)
      case Entries(es) => Flawed(c, file, end, ShortHeader) && es == LogSpec.InRange(Concat(batches), lo, hi)
      case Corruption(flaw) => flaw != ShortHeader && flaw != ShortPayload && Flawed(c, file, end, flaw)
      case IoError => Flawed(c, file, end, ShortPayload)
  {
    hide ValidBatch, Flawed, Chain, Longest;
    LongestIsScanned(c, file, ps, batches);
    ScanEnds(c, file, 0);
    var p := ParseAt(c, file, ps[|batches|]);
    ParsesExactly(c, file, ps[|batches|], [], 0, p.flaw);
  }

  lemma {:induction false} LongestIsScanned(c: Codec, file: bytes, ps: seq<nat>, batches: seq<seq<LogEntry>>)
    requires Longest(c, file, ps, batches)
    ensures |ps| == |batches| + 1 && ps[|batches|] == Scan(c, file, 0).end && Concat(batches) == Contents(c, file)
  {
    ScanIsLongest(c, file, ps, batches);
    var qs, all := ScanIsReached(c, file, [0], []);
    assert Chain(c, file, qs, all);
  }

  /** Reads the header and payload at a position and checks magic, length, checksum and payload in turn. */
  method ReadBatch(c: Codec, file: bytes, pos: nat) returns (p: Parse)
    requires pos + HEADER <= |file|
    ensures p == ParseAt(c, file, pos)
  {
    var header := file[pos..pos + HEADER];
    assert header[..4] == file[pos..pos + 4];
    assert header[4..8] == file[pos + 4..pos + 8];
    assert header[8..12] == file[pos + 8..pos + 12];
    if header[..4] != MAGIC { return Broken(BadMagic); }
    var storedCrc, len := FromLe32(header[4..8]), FromLe32(header[8..12]);
    if pos + HEADER + len > |file| { return Broken(ShortPayload); }
    var payload := file[pos + HEADER..pos + HEADER + len];
    if c.crc(payload) != storedCrc { return Broken(BadCrc); }
    var es := c.decode(payload);
    if es.None? { return Broken(BadPayload); }
    p := Batch(es.value, pos + HEADER + len);
  }

  /** The scan done when a segment is opened: bytes worth keeping and entries found. */
  method RecoverScan(c: Codec, file: bytes) returns (lastGood: nat, total: nat)
    ensures lastGood == Scan(c, file, 0).end <= |file| && total == |Contents(c, file)|
  {
    lastGood, total := 0, 0;
    ScanEnds(c, file, 0);
    while lastGood + HEADER <= |file|
      invariant lastGood <= |file|
      invariant Scan(c, file, lastGood).end == Scan(c, file, 0).end
      invariant total + |Scan(c, file, lastGood).entries| == |Contents(c, file)|
    {
      var p := ReadBatch(c, file, lastGood);
      if p.Broken? { return; }
      ScanBatch(c, file, lastGood, p.entries, p.next);
      total := total + |p.entries|;
      lastGood := p.next;
    }
  }

  method ReadFile(c: Codec, file: bytes, lo: Offset, hi: Offset) returns (r: ReadResult)
    ensures r == ReadAnswer(c, file, lo, hi)
  {
    var pos := 0;
    var result: seq<LogEntry> := [];
    while pos + HEADER <= |file|
      invariant pos <= |file|
      invariant Scan(c, file, pos).end == Scan(c, file, 0).end
      invariant LogSpec.InRange(Contents(c, file), lo, hi)
                == result + LogSpec.InRange(Scan(c, file, pos).entries, lo, hi)
    {
      var p := ReadBatch(c, file, pos);
      if p.Broken? {
        ReadStops(c, file, pos);
        return if p.flaw == ShortPayload then IoError else Corruption(p.flaw);
      }
      ReadStep(c, file, pos, p, lo, hi);
      var picked := PickRange(p.entries, lo, hi);
      Assoc(result, picked, LogSpec.InRange(Scan(c, file, p.next).entries, lo, hi));
      result := result + picked;
      pos := p.next;
    }
    ReadStops(c, file, pos);
    assert result + [] == result;
    r := Entries(result);
  }

  lemma {:induction false} ReadStops(c: Codec, file: bytes, pos: nat)
    requires ParseAt(c, file, pos).Broken? && Scan(c, file, pos).end == Scan(c, file, 0).end
    ensures Scan(c, file, 0).end == pos && Scan(c, file, pos).entries == []
  {
  }

  lemma {:induction false} ReadStep(c: Codec, file: bytes, pos: nat, p: Parse, lo: Offset, hi: Offset)
    requires p == ParseAt(c, file, pos) && p.Batch?
    ensures Scan(c, file, p.next).end == Scan(c, file, pos).end
    ensures LogSpec.InRange(Scan(c, file, pos).entries, lo, hi) ==
            LogSpec.InRange(p.entries, lo, hi) + LogSpec.InRange(Scan(c, file, p.next).entries, lo, hi)
  {
    ScanBatch(c, file, pos, p.entries, p.next);
    LogSpec.InRangeConcat(p.entries, Scan(c, file, p.next).entries, lo, hi);
  }

  method PickRange(es: seq<LogEntry>, lo: Offset, hi: Offset) returns (picked: seq<LogEntry>)
    ensures picked == LogSpec.InRange(es, lo, hi)
  {
    picked := [];
    for i := 0 to |es|
      invariant picked == LogSpec.InRange(es[..i], lo, hi)
    {
      assert es[..i + 1][..i] == es[..i];
      if lo <= es[i].offset < hi { picked := picked + [es[i]]; }
    }
    assert es[..|es|] == es;
  }

  /** What opening keeps of a file. */
  function Recovered(c: Codec, found: bytes): bytes {
    ScanEnds(c, found, 0);
    found[..Scan(c, found, 0).end]
  }

  /** The batch at a position of a clean file, read without looking at its checksum. */
  method ReadUnchecked(c: Codec, file: bytes, pos: nat) returns (p: Parse)
    requires pos + HEADER <= |file| && ParseAt(c, file, pos).Batch?
    ensures p == ParseAt(c, file, pos)
  {
    var len := FromLe32(file[pos + 8..pos + 12]);
    var es := c.decode(file[pos + HEADER..pos + HEADER + len]);
    p := Batch(es.value, pos + HEADER + len);
  }

  method AnyFrom(es: seq<LogEntry>, from: Offset) returns (hit: bool)
    ensures hit <==> exists i :: 0 <= i < |es| && es[i].offset >= from
  {
    hit := false;
    for i := 0 to |es|
      invariant !hit && forall j | 0 <= j < i :: es[j].offset < from
    {
      if es[i].offset >= from { return true; }
    }
  }

  // ---- Cutting ----

  /** Some entry lies at or after the offset. */
  predicate Hit(es: seq<LogEntry>, from: Offset) {
    exists i :: 0 <= i < |es| && es[i].offset >= from
  }

  /** What a cut leaves of the batches from a position on: those before the first hit, and the rest of that one. */
  function Kept(c: Codec, file: bytes, pos: nat, from: Offset): seq<LogEntry>
    decreases |file| - pos
  {
    match ParseAt(c, file, pos)
    case Broken(_) => []
    case Batch(es, next) => if Hit(es, from) then LogSpec.InRange(es, 0, from) else es + Kept(c, file, next, from)
  }

  lemma {:induction false} AllBelow(es: seq<LogEntry>, from: Offset)
    requires !Hit(es, from)
    ensures LogSpec.InRange(es, 0, from) == es
    decreases |es|
  {
    if es != [] {
      var n := |es| - 1;
      assert forall i | 0 <= i < n :: es[..n][i] == es[i];
      AllBelow(es[..n], from);
    }
  }

  lemma {:induction false} NoneBelow(es: seq<LogEntry>, from: Offset)
    requires forall i | 0 <= i < |es| :: es[i].offset >= from
    ensures LogSpec.InRange(es, 0, from) == []
    decreases |es|
  {
    if es != [] { NoneBelow(es[..|es| - 1], from); }
  }

  /** In a file of consecutive offsets a cut keeps exactly the entries before the offset. */
  lemma {:induction false} KeptInOrder(c: Codec, file: bytes, pos: nat, base: Offset, from: Offset)
    requires LogSpec.Log(base, Scan(c, file, pos).entries).Contiguous()
    ensures Kept(c, file, pos, from) == LogSpec.InRange(Scan(c, file, pos).entries, 0, from)
    decreases |file| - pos
  {
    var p := ParseAt(c, file, pos);
    if p.Batch? {
      var rest := Scan(c, file, p.next).entries;
      var all := p.entries + rest;
      assert all == Scan(c, file, pos).entries;
      assert forall i | 0 <= i < |rest| :: rest[i] == all[|p.entries| + i];
      LogSpec.InRangeConcat(p.entries, rest, 0, from);
      if Hit(p.entries, from) {
        var i :| 0 <= i < |p.entries| && p.entries[i].offset >= from;
        assert all[i] == p.entries[i];
        NoneBelow(rest, from);
      } else {
        AllBelow(p.entries, from);
        KeptInOrder(c, file, p.next, base + |p.entries|, from);
      }
    }
  }

  lemma {:induction false} KeptIsCut(c: Codec, file: bytes, base: Offset, from: Offset)
    requires LogSpec.Log(base, Contents(c, file)).Contiguous()
    ensures Kept(c, file, 0, from) == LogSpec.Log(base, Contents(c, file)).TruncateSuffix(from).entries
    ensures LogSpec.Log(base, Kept(c, file, 0, from)).Contiguous()
    ensures Hit(Contents(c, file), from) <==> Contents(c, file) != [] && from < base + |Contents(c, file)|
  {
    hide Kept, Contents, LogSpec.InRange;
    var es := Contents(c, file);
    assert es == Scan(c, file, 0).entries by { ScannedContents(c, file); }
    KeptInOrder(c, file, 0, base, from);
    LogSpec.InRangeIsSlice(LogSpec.Log(base, es), 0, from);
    if es != [] && from < base + |es| { assert es[|es| - 1].offset >= from; }
  }

  lemma {:induction false} ScannedContents(c: Codec, file: bytes)
    ensures Contents(c, file) == Scan(c, file, 0).entries
  {
  }

  /** The file after the cut: the batch at the position overwritten by what is kept of it, the rest gone. */
  function CutFile(c: Codec, file: bytes, pos: nat, kept: seq<LogEntry>): bytes
    requires pos <= |file|
  {
    if kept == [] then file[..pos]
    else Overwrite(file, pos, Frame(c, kept))[..pos + |Frame(c, kept)|]
  }

  lemma {:induction false} CutFileClean(c: Codec, file: bytes, pos: nat, from: Offset)
    requires Lawful(c) && pos <= |file| && Clean(c, file[..pos]) && ParseAt(c, file, pos).Batch?
    ensures var kept := LogSpec.InRange(ParseAt(c, file, pos).entries, 0, from); var left := CutFile(c, file, pos, kept);
      && Clean(c, left) && Contents(c, left) == Contents(c, file[..pos]) + kept
      && (Dense(c, file[..pos], 0) ==> Dense(c, left, 0))
  {
    hide Contents, Clean, Dense, LogSpec.InRange, Frame, Lawful;
    var kept := LogSpec.InRange(ParseAt(c, file, pos).entries, 0, from);
    if kept == [] {
      assert Contents(c, file[..pos]) + kept == Contents(c, file[..pos]);
    } else {
      CutBytesAre(file, pos, Frame(c, kept));
      KeptFits(c, file, pos, from);
      AppendFrame(c, file[..pos], kept);
      if Dense(c, file[..pos], 0) { DenseAppend(c, file[..pos], kept); }
    }
  }

  lemma {:induction false} CutBytesAre(file: bytes, pos: nat, data: bytes)
    requires pos <= |file|
    ensures Overwrite(file, pos, data)[..pos + |data|] == file[..pos] + data
  {
  }

  lemma {:induction false} KeptFits(c: Codec, file: bytes, pos: nat, from: Offset)
    requires Lawful(c) && ParseAt(c, file, pos).Batch?
    ensures Fits(c, LogSpec.InRange(ParseAt(c, file, pos).entries, 0, from))
  {
    var p := ParseAt(c, file, pos);
    Le32Bound(file[pos + 8..pos + 12]);
    var payload := file[pos + HEADER..p.next];
    assert c.decode(payload).Some? && |c.encode(c.decode(payload).value)| <= |payload|;
  }

  lemma {:induction false} Le32Bound(b: bytes)
    requires |b| == 4
    ensures FromLe32(b) < U32
  {
  }

  /** The batches before a position of a clean file, and those from it on. */
  ghost predicate Cursor(c: Codec, file: bytes, pos: nat, from: Offset) {
    && pos <= |file| && Scan(c, file, pos).end == |file| && Clean(c, file[..pos])
    && Contents(c, file) == Contents(c, file[..pos]) + Scan(c, file, pos).entries
    && Kept(c, file, 0, from) == Contents(c, file[..pos]) + Kept(c, file, pos, from)
    && !Hit(Contents(c, file[..pos]), from)
    && (Dense(c, file, 0) ==> Dense(c, file[..pos], 0) && Dense(c, file, pos))
  }

  lemma {:induction false} CursorStart(c: Codec, file: bytes, from: Offset)
    requires Clean(c, file)
    ensures Cursor(c, file, 0, from) && Contents(c, file[..0]) == []
  {
    hide Kept;
    assert file[..0] == [] && Contents(c, []) == [];
    assert [] + Contents(c, file) == Contents(c, file) && [] + Kept(c, file, 0, from) == Kept(c, file, 0, from);
  }

  /** One more batch without a hit. */
  lemma {:induction false} CursorStep(c: Codec, file: bytes, pos: nat, from: Offset)
    requires Cursor(c, file, pos, from) && ParseAt(c, file, pos).Batch? && !Hit(ParseAt(c, file, pos).entries, from)
    ensures var p := ParseAt(c, file, pos);
      Cursor(c, file, p.next, from) && Contents(c, file[..p.next]) == Contents(c, file[..pos]) + p.entries
  {
    hide Contents, Clean, Hit;
    var p := ParseAt(c, file, pos);
    ScanStep(c, file, pos);
    if Dense(c, file, 0) { DensePrefixStep(c, file, pos, p.next); }
    Assoc(Contents(c, file[..pos]), p.entries, Kept(c, file, p.next, from));
    NoHits(Contents(c, file[..pos]), p.entries, from);
  }

  lemma {:induction false} NoHits(a: seq<LogEntry>, b: seq<LogEntry>, from: Offset)
    ensures Hit(a + b, from) <==> Hit(a, from) || Hit(b, from)
  {
    if Hit(a, from) {
      var i :| 0 <= i < |a| && a[i].offset >= from;
      assert (a + b)[i].offset >= from;
    }
    if Hit(b, from) {
      var i :| 0 <= i < |b| && b[i].offset >= from;
      assert (a + b)[|a| + i].offset >= from;
    }
  }

  /** The walk stops at a batch with a hit. */
  lemma {:induction false} CursorHit(c: Codec, file: bytes, pos: nat, from: Offset)
    requires Cursor(c, file, pos, from) && ParseAt(c, file, pos).Batch? && Hit(ParseAt(c, file, pos).entries, from)
    ensures Hit(Contents(c, file), from)
    ensures Kept(c, file, 0, from) == Contents(c, file[..pos]) + LogSpec.InRange(ParseAt(c, file, pos).entries, 0, from)
  {
    hide Contents, Clean, Dense, Hit, LogSpec.InRange;
    var p := ParseAt(c, file, pos);
    NoHits(p.entries, Scan(c, file, p.next).entries, from);
    NoHits(Contents(c, file[..pos]), Scan(c, file, pos).entries, from);
  }

  /** Or at the end of the file without one. */
  lemma {:induction false} CursorEnd(c: Codec, file: bytes, pos: nat, from: Offset)
    requires Cursor(c, file, pos, from) && pos + HEADER > |file|
    ensures file[..pos] == file && !Hit(Contents(c, file), from) && Kept(c, file, 0, from) == Contents(c, file)
  {
    hide Contents, Clean, Dense, Hit;
    assert Scan(c, file, pos) == Scanned(pos, []) && file[..pos] == file;
    assert Kept(c, file, pos, from) == [];
  }

  /** Walks the batches of a clean file up to the first one with an entry at or after an offset. */
  method FindCut(c: Codec, file: bytes, from: Offset)
    returns (found: bool, pos: nat, remaining: nat, kept: seq<LogEntry>)
    requires Clean(c, file)
    ensures found <==> Hit(Contents(c, file), from)
    ensures !found ==> remaining == |Contents(c, file)| && Kept(c, file, 0, from) == Contents(c, file)
    ensures found ==>
      && pos <= |file| && Clean(c, file[..pos]) && (Dense(c, file, 0) ==> Dense(c, file[..pos], 0))
      && remaining == |Contents(c, file[..pos])| && ParseAt(c, file, pos).Batch?
      && kept == LogSpec.InRange(ParseAt(c, file, pos).entries, 0, from)
      && Kept(c, file, 0, from) == Contents(c, file[..pos]) + kept
  {
    hide Contents, Dense, Kept, Clean;
    found, pos, remaining, kept := false, 0, 0, [];
    CursorStart(c, file, from);
    while pos + HEADER <= |file|
      invariant Cursor(c, file, pos, from) && remaining == |Contents(c, file[..pos])|
    {
      assert ParseAt(c, file, pos).Batch?;
      var p := ReadUnchecked(c, file, pos);
      var hit := AnyFrom(p.entries, from);
      if hit {
        kept := PickRange(p.entries, 0, from);
        CursorHit(c, file, pos, from);
        return true, pos, remaining, kept;
      }
      CursorStep(c, file, pos, from);
      remaining := remaining + |p.entries|;
      pos := p.next;
    }
    CursorEnd(c, file, pos, from);
  }

  /** The bytes and entry count a segment is left with after a cut. */
  method CutBytes(c: Codec, file: bytes, from: Offset) returns (cut: bool, left: bytes, count: nat)
    requires Lawful(c) && Clean(c, file)
    ensures cut <==> Hit(Contents(c, file), from)
    ensures !cut ==> left == file
    ensures Clean(c, left) && count == |Contents(c, left)| && Contents(c, left) == Kept(c, file, 0, from)
    ensures Dense(c, file, 0) ==> Dense(c, left, 0)
  {
    hide Contents, Dense, Kept, Clean, Lawful, CutFile;
    var pos, remaining, kept;
    cut, pos, remaining, kept := FindCut(c, file, from);
    if cut {
      CutFileClean(c, file, pos, from);
      left, count := CutFile(c, file, pos, kept), remaining + |kept|;
    } else {
      left, count := file, remaining;
    }
  }

  class SegmentFile {
    const codec: Codec
    const base: Offset
    var file: bytes
    var size: nat
    var entryCount: nat
    var nextOffset: Offset

    ghost predicate Valid()
      reads this
    {
      && Lawful(codec)
      && size == |file| && Clean(codec, file)
      && entryCount == |Entries()| && nextOffset == base + entryCount
    }

    ghost function Entries(): seq<LogEntry>
      reads this
    {
      Contents(codec, file)
    }

    /** The entries carry the offsets base, base + 1, ... and no batch is empty, as appending leaves it. */
    ghost predicate Ordered()
      reads this
    {
      LogSpec.Log(base, Entries()).Contiguous() && Dense(codec, file, 0)
    }

    /** Opens a file with any bytes in it, keeping its longest run of valid batches. */
    constructor (codec: Codec, base: Offset, found: bytes)
      requires Lawful(codec)
      ensures Valid() && this.codec == codec && this.base == base
      ensures file == Recovered(codec, found) && Entries() == Contents(codec, found)
    {
      this.codec, this.base := codec, base;
      var lastGood, total := 0, 0;
      if |found| > 0 {
        lastGood, total := RecoverScan(codec, found);
      }
      ScanCut(codec, found, 0);
      ScanAtEnd(codec, found[..0]);
      file, size := found[..lastGood], lastGood;
      entryCount, nextOffset := total, base + total;
    }

    method Append(es: seq<LogEntry>)
      requires Valid()
      modifies this
      ensures es == [] ==> unchanged(this)
      ensures es != [] ==> file == old(file) + Frame(codec, es)
      ensures nextOffset == old(nextOffset) + |es|
      ensures Fits(codec, es) ==> Valid() && Entries() == old(Entries()) + es
      ensures Fits(codec, es) && old(Dense(codec, file, 0)) ==> Dense(codec, file, 0)
    {
      if es == [] {
        assert Entries() + es == Entries();
        return;
      }
      var payload := codec.encode(es);
      var buf := MAGIC + Le32(codec.crc(payload)) + Le32(|payload|) + payload;
      if Fits(codec, es) {
        AppendFrame(codec, file, es);
        if Dense(codec, file, 0) { DenseAppend(codec, file, es); }
      }
      file := file + buf;
      size := size + |buf|;
      entryCount := entryCount + |es|;
      nextOffset := nextOffset + |es|;
    }

    method Read(lo: Offset, hi: Offset) returns (r: ReadResult)
      requires Valid()
      ensures r == ReadResult.Entries(LogSpec.InRange(Entries(), lo, hi))
    {
      r := ReadFile(codec, file, lo, hi);
      CleanReads(codec, file, lo, hi);
    }

    /** Cuts at the first batch with an entry at or after the offset, rewriting that batch. */
    method TruncateSuffix(from: Offset) returns (cut: bool)
      requires Valid()
      modifies this
      ensures Valid() && Entries() == Kept(codec, old(file), 0, from)
      ensures cut <==> Hit(old(Entries()), from)
      ensures !cut ==> unchanged(this)
      ensures old(Dense(codec, file, 0)) ==> Dense(codec, file, 0)
      ensures old(Ordered()) ==> Ordered() && Entries() == LogSpec.Log(base, old(Entries())).TruncateSuffix(from).entries
    {
      hide Contents, Dense, Kept, Clean, Lawful;
      var kept, count;
      cut, kept, count := CutBytes(codec, file, from);
      if LogSpec.Log(base, Contents(codec, file)).Contiguous() { KeptIsCut(codec, file, base, from); }
      if cut {
        file := kept;
        size := |kept|;
        entryCount := count;
        nextOffset := base + count;
      }
    }
  }
}
