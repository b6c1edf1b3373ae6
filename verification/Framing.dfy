/**
 The on-disk batch format of a segment file, what a scan of arbitrary bytes
 finds, and how appending, cutting and tearing a file change that.
 */
module Framing {
  import opened Types
  import LogSpec

  const MAGIC: bytes := [0x58, 0x52, 0x41, 0x46]
  const HEADER: nat := 12
  const U32: nat := 0x1_0000_0000

  /** The serializer and the checksum, as black boxes. */
  datatype Codec = Codec(
    encode: seq<LogEntry> -> bytes, decode: bytes -> Option<seq<LogEntry>>, crc: bytes -> nat)

  /**
   What is known of them: decoding undoes encoding, leaving entries out makes no
   encoding longer, and no payload is shorter than needed.
   */
  ghost predicate Lawful(c: Codec) {
    && (forall es {:trigger c.decode(c.encode(es))} :: c.decode(c.encode(es)) == Some(es))
    && (forall es, hi {:trigger c.encode(LogSpec.InRange(es, 0, hi))} :: |c.encode(LogSpec.InRange(es, 0, hi))| <= |c.encode(es)|)
    && (forall p {:trigger c.encode(c.decode(p).value)} | c.decode(p).Some? :: |c.encode(c.decode(p).value)| <= |p|)
    && (forall p :: c.crc(p) < U32)
  }

  /** A batch whose payload length fits the 32-bit length field. */
  predicate Fits(c: Codec, es: seq<LogEntry>) { |c.encode(es)| < U32 }

  function Le32(n: nat): bytes {
    [n % 256, n / 256 % 256, n / 256 / 256 % 256, n / 256 / 256 / 256 % 256]
  }

  function FromLe32(b: bytes): nat
    requires |b| == 4
  {
    b[0] as int + 256 * (b[1] as int + 256 * (b[2] as int + 256 * b[3] as int))
  }

  lemma {:induction false} Le32RoundTrip(n: nat)
    requires n < U32
    ensures FromLe32(Le32(n)) == n
  {
  }

  /** The length field holds the payload length modulo 2^32. */
  function Frame(c: Codec, es: seq<LogEntry>): bytes {
    var payload := c.encode(es);
    MAGIC + Le32(c.crc(payload)) + Le32(|payload|) + payload
  }

  datatype Flaw = ShortHeader | BadMagic | ShortPayload | BadCrc | BadPayload

  datatype Parse = Batch(entries: seq<LogEntry>, next: nat) | Broken(flaw: Flaw)

  /** The batch starting at a position, if one does. */
  function ParseAt(c: Codec, file: bytes, pos: nat): Parse {
    if pos + HEADER > |file| then Broken(ShortHeader)
    else if file[pos..pos + 4] != MAGIC then Broken(BadMagic)
    else
      var len := FromLe32(file[pos + 8..pos + 12]);
      if pos + HEADER + len > |file| then Broken(ShortPayload)
      else
        var payload := file[pos + HEADER..pos + HEADER + len];
        if c.crc(payload) != FromLe32(file[pos + 4..pos + 8]) then Broken(BadCrc)
        else match c.decode(payload)
          case None => Broken(BadPayload)
          case Some(es) => Batch(es, pos + HEADER + len)
  }

  datatype Scanned = Scanned(end: nat, entries: seq<LogEntry>)

  /** The run of batches from a position: where it stops and the entries it holds. */
  function Scan(c: Codec, file: bytes, pos: nat): Scanned
    decreases |file| - pos
  {
    match ParseAt(c, file, pos)
    case Broken(_) => Scanned(pos, [])
    case Batch(es, next) =>
      var rest := Scan(c, file, next);
      Scanned(rest.end, es + rest.entries)
  }

  function Contents(c: Codec, file: bytes): seq<LogEntry> { Scan(c, file, 0).entries }

  /** The whole file is a run of batches. */
  predicate Clean(c: Codec, file: bytes) { Scan(c, file, 0).end == |file| }

  // ---- Parsing looks only at the batch itself ----

  lemma {:induction false} ParseFrame(c: Codec, pre: bytes, es: seq<LogEntry>)
    requires Lawful(c) && Fits(c, es)
    ensures ParseAt(c, pre + Frame(c, es), |pre|) == Batch(es, |pre + Frame(c, es)|)
  {
    var payload := c.encode(es);
    var file := pre + Frame(c, es);
    var p := |pre|;
    assert file[p..p + 4] == MAGIC;
    assert file[p + 4..p + 8] == Le32(c.crc(payload));
    assert file[p + 8..p + 12] == Le32(|payload|);
    Le32RoundTrip(c.crc(payload));
    Le32RoundTrip(|payload|);
    assert file[p + HEADER..p + HEADER + |payload|] == payload;
  }

  lemma {:induction false} ParseExtend(c: Codec, file: bytes, more: bytes, pos: nat)
    requires ParseAt(c, file, pos).Batch?
    ensures ParseAt(c, file + more, pos) == ParseAt(c, file, pos)
  {
    var g := file + more;
    var len := FromLe32(file[pos + 8..pos + 12]);
    assert g[pos..pos + 4] == file[pos..pos + 4];
    assert g[pos + 4..pos + 8] == file[pos + 4..pos + 8];
    assert g[pos + 8..pos + 12] == file[pos + 8..pos + 12];
    assert g[pos + HEADER..pos + HEADER + len] == file[pos + HEADER..pos + HEADER + len];
  }

  lemma {:induction false} ParseCut(c: Codec, file: bytes, q: nat, pos: nat)
    requires ParseAt(c, file, pos).Batch? && ParseAt(c, file, pos).next <= q <= |file|
    ensures ParseAt(c, file[..q], pos) == ParseAt(c, file, pos)
  {
    var g := file[..q];
    var len := FromLe32(file[pos + 8..pos + 12]);
    assert g[pos..pos + 4] == file[pos..pos + 4];
    assert g[pos + 4..pos + 8] == file[pos + 4..pos + 8];
    assert g[pos + 8..pos + 12] == file[pos + 8..pos + 12];
    assert g[pos + HEADER..pos + HEADER + len] == file[pos + HEADER..pos + HEADER + len];
  }

  // ---- Scanning ----

  lemma {:induction false} ScanEnds(c: Codec, file: bytes, pos: nat)
    requires pos <= |file|
    ensures pos <= Scan(c, file, pos).end <= |file|
    ensures ParseAt(c, file, Scan(c, file, pos).end).Broken?
    decreases |file| - pos
  {
    var p := ParseAt(c, file, pos);
    if p.Batch? { ScanEnds(c, file, p.next); }
  }

  lemma {:induction false} ScanBatch(c: Codec, file: bytes, pos: nat, es: seq<LogEntry>, next: nat)
    requires ParseAt(c, file, pos) == Batch(es, next)
    ensures Scan(c, file, pos) == Scanned(Scan(c, file, next).end, es + Scan(c, file, next).entries)
  {
  }

  lemma {:induction false} Assoc(a: seq<LogEntry>, b: seq<LogEntry>, c: seq<LogEntry>)
    ensures a + (b + c) == (a + b) + c
  {
  }

  /** Bytes after a clean run do not disturb it. */
  lemma {:induction false} ScanThrough(c: Codec, file: bytes, more: bytes, pos: nat)
    requires Scan(c, file, pos).end == |file|
    ensures var tail := Scan(c, file + more, |file|);
      Scan(c, file + more, pos) == Scanned(tail.end, Scan(c, file, pos).entries + tail.entries)
    decreases |file| - pos
  {
    var p := ParseAt(c, file, pos);
    var tail := Scan(c, file + more, |file|);
    if p.Batch? {
      ParseExtend(c, file, more, pos);
      ScanBatch(c, file, pos, p.entries, p.next);
      ScanThrough(c, file, more, p.next);
      ScanBatch(c, file + more, pos, p.entries, p.next);
      Assoc(p.entries, Scan(c, file, p.next).entries, tail.entries);
    } else {
      assert [] + tail.entries == tail.entries;
    }
  }

  /** Cutting a file where its run of batches stops keeps the run. */
  lemma {:induction false} ScanCut(c: Codec, file: bytes, pos: nat)
    requires pos <= |file|
    ensures Scan(c, file, pos).end <= |file|
    ensures Scan(c, file[..Scan(c, file, pos).end], pos) == Scan(c, file, pos)
    decreases |file| - pos
  {
    var end := Scan(c, file, pos).end;
    ScanEnds(c, file, pos);
    var p := ParseAt(c, file, pos);
    if p.Batch? {
      ScanEnds(c, file, p.next);
      ParseCut(c, file, end, pos);
      ScanCut(c, file, p.next);
    } else {
      assert ParseAt(c, file[..end], pos) == Broken(ShortHeader);
    }
  }

  /** A file that is all scanned has nothing left at its end. */
  lemma {:induction false} ScanAtEnd(c: Codec, file: bytes)
    ensures Scan(c, file, |file|) == Scanned(|file|, [])
  {
  }

  /** Appending a frame to a clean file appends its entries. */
  lemma {:induction false} AppendFrame(c: Codec, file: bytes, es: seq<LogEntry>)
    requires Lawful(c) && Fits(c, es) && Clean(c, file)
    ensures Clean(c, file + Frame(c, es))
    ensures Contents(c, file + Frame(c, es)) == Contents(c, file) + es
  {
    var g := file + Frame(c, es);
    ScanThrough(c, file, Frame(c, es), 0);
    ParseFrame(c, file, es);
    ScanAtEnd(c, g);
    assert Scan(c, g, |file|) == Scanned(|g|, es + []);
    assert es + [] == es;
  }

  /** A torn append leaves the old contents: no proper prefix of a frame is a batch. */
  lemma {:induction false} TornFrame(c: Codec, file: bytes, es: seq<LogEntry>, k: nat)
    requires Lawful(c) && Fits(c, es) && Clean(c, file) && k < |Frame(c, es)|
    ensures Scan(c, file + Frame(c, es)[..k], 0) == Scanned(|file|, Contents(c, file))
  {
    var torn := Frame(c, es)[..k];
    var g := file + torn;
    ScanThrough(c, file, torn, 0);
    assert ParseAt(c, g, |file|).Broken? by {
      if k >= HEADER {
        var payload := c.encode(es);
        assert Frame(c, es)[8..12] == Le32(|payload|);
        assert g[|file| + 8..|file| + 12] == Frame(c, es)[8..12];
        Le32RoundTrip(|payload|);
      }
    }
    assert Contents(c, file) + [] == Contents(c, file);
  }

  /** A single batch after a clean prefix. */
  lemma {:induction false} PrefixStep(c: Codec, file: bytes, pos: nat, es: seq<LogEntry>, next: nat)
    requires pos <= |file| && Clean(c, file[..pos]) && ParseAt(c, file, pos) == Batch(es, next)
    ensures next <= |file| && Clean(c, file[..next])
    ensures Contents(c, file[..next]) == Contents(c, file[..pos]) + es
  {
    var g := file[..next];
    assert g == file[..pos] + file[pos..next];
    ScanThrough(c, file[..pos], file[pos..next], 0);
    ParseCut(c, file, next, pos);
    ScanBatch(c, g, pos, es, next);
    ScanAtEnd(c, g);
    assert es + [] == es;
  }

  /** One more batch of a file: the prefix up to it, its entries and the rest. */
  lemma {:induction false} ScanStep(c: Codec, file: bytes, pos: nat)
    requires pos <= |file| && Clean(c, file[..pos]) && ParseAt(c, file, pos).Batch?
    requires Contents(c, file) == Contents(c, file[..pos]) + Scan(c, file, pos).entries
    ensures var p := ParseAt(c, file, pos);
      && p.next <= |file| && Clean(c, file[..p.next])
      && Contents(c, file[..p.next]) == Contents(c, file[..pos]) + p.entries
      && Contents(c, file) == Contents(c, file[..p.next]) + Scan(c, file, p.next).entries
      && Scan(c, file, p.next).end == Scan(c, file, pos).end
  {
    var p := ParseAt(c, file, pos);
    PrefixStep(c, file, pos, p.entries, p.next);
    ScanBatch(c, file, pos, p.entries, p.next);
    Assoc(Contents(c, file[..pos]), p.entries, Scan(c, file, p.next).entries);
  }

  // ---- Files without empty batches, which is what appending writes ----

  predicate Dense(c: Codec, file: bytes, pos: nat)
    decreases |file| - pos
  {
    match ParseAt(c, file, pos)
    case Broken(_) => true
    case Batch(es, next) => es != [] && Dense(c, file, next)
  }

  lemma {:induction false} DenseThrough(c: Codec, file: bytes, more: bytes, pos: nat)
    requires Scan(c, file, pos).end == |file| && Dense(c, file, pos) && Dense(c, file + more, |file|)
    ensures Dense(c, file + more, pos)
    decreases |file| - pos
  {
    var p := ParseAt(c, file, pos);
    if p.Batch? {
      ParseExtend(c, file, more, pos);
      DenseThrough(c, file, more, p.next);
    }
  }

  lemma {:induction false} DenseAtEnd(c: Codec, file: bytes)
    ensures Dense(c, file, |file|)
  {
  }

  lemma {:induction false} DenseAppend(c: Codec, file: bytes, es: seq<LogEntry>)
    requires Lawful(c) && Fits(c, es) && Clean(c, file) && Dense(c, file, 0) && es != []
    ensures Dense(c, file + Frame(c, es), 0)
  {
    ParseFrame(c, file, es);
    DenseAtEnd(c, file + Frame(c, es));
    DenseThrough(c, file, Frame(c, es), 0);
  }

  lemma {:induction false} DensePrefixStep(c: Codec, file: bytes, pos: nat, next: nat)
    requires pos <= |file| && Clean(c, file[..pos]) && Dense(c, file[..pos], 0) && Dense(c, file, pos)
    requires ParseAt(c, file, pos).Batch? && next == ParseAt(c, file, pos).next
    ensures Dense(c, file[..next], 0)
  {
    assert file[..next] == file[..pos] + file[pos..next];
    ParseCut(c, file, next, pos);
    DenseAtEnd(c, file[..next]);
    DenseThrough(c, file[..pos], file[pos..next], 0);
  }

  lemma {:induction false} DenseEmpty(c: Codec, file: bytes)
    requires Clean(c, file) && Dense(c, file, 0) && Contents(c, file) == []
    ensures file == []
  {
  }

  // ---- Valid batches, read off the bytes ----

  /** Four bytes hold a number, lowest byte first. */
  predicate Holds32(b: bytes, n: nat) {
    |b| == 4 && n == b[0] as int + 0x100 * b[1] as int + 0x1_0000 * b[2] as int + 0x100_0000 * b[3] as int
  }

  /**
   The bytes from one position to another are a batch: magic, checksum and length
   of the payload, and a payload that decodes.
   */
  predicate ValidBatch(c: Codec, file: bytes, pos: nat, es: seq<LogEntry>, next: nat) {
    && pos + 12 <= next <= |file|
    && file[pos..pos + 4] == [0x58, 0x52, 0x41, 0x46]
    && Holds32(file[pos + 4..pos + 8], c.crc(file[pos + 12..next]))
    && Holds32(file[pos + 8..pos + 12], next - pos - 12)
    && c.decode(file[pos + 12..next]) == Some(es)
  }

  /** What is wrong with the bytes at a position, looked at in the order in which they are read. */
  predicate Flawed(c: Codec, file: bytes, pos: nat, flaw: Flaw) {
    match flaw
    case ShortHeader => |file| < pos + 12
    case BadMagic => pos + 12 <= |file| && file[pos..pos + 4] != [0x58, 0x52, 0x41, 0x46]
    case ShortPayload => StartsBatch(file, pos) && |file| < PayloadEnd(file, pos)
    case BadCrc => HasPayload(file, pos) && !ChecksumHolds(c, file, pos)
    case BadPayload => HasPayload(file, pos) && ChecksumHolds(c, file, pos) && c.decode(file[pos + 12..PayloadEnd(file, pos)]).None?
  }

  predicate HasPayload(file: bytes, pos: nat) {
    StartsBatch(file, pos) && PayloadEnd(file, pos) <= |file|
  }

  predicate ChecksumHolds(c: Codec, file: bytes, pos: nat)
    requires HasPayload(file, pos)
  {
    Holds32(file[pos + 4..pos + 8], c.crc(file[pos + 12..PayloadEnd(file, pos)]))
  }

  predicate StartsBatch(file: bytes, pos: nat) {
    pos + 12 <= |file| && file[pos..pos + 4] == [0x58, 0x52, 0x41, 0x46]
  }

  /** Where the payload announced at a position ends. */
  function PayloadEnd(file: bytes, pos: nat): nat
    requires pos + 12 <= |file|
  {
    pos + 12 + file[pos + 8] as int + 0x100 * file[pos + 9] as int + 0x1_0000 * file[pos + 10] as int
      + 0x100_0000 * file[pos + 11] as int
  }

  lemma {:induction false} HeldNumber(b: bytes, n: nat)
    requires |b| == 4
    ensures Holds32(b, n) <==> FromLe32(b) == n
  {
  }

  /** Parsing finds a batch exactly where the bytes are one, and otherwise names the first thing wrong. */
  lemma {:induction false} ParsesExactly(c: Codec, file: bytes, pos: nat, es: seq<LogEntry>, next: nat, flaw: Flaw)
    ensures ParseAt(c, file, pos) == Batch(es, next) <==> ValidBatch(c, file, pos, es, next)
    ensures ParseAt(c, file, pos) == Broken(flaw) <==> Flawed(c, file, pos, flaw)
  {
    if pos + 12 <= |file| {
      var len := FromLe32(file[pos + 8..pos + 12]);
      HeldNumber(file[pos + 8..pos + 12], len);
      assert PayloadEnd(file, pos) == pos + 12 + len;
      if pos + 12 <= next <= |file| {
        HeldNumber(file[pos + 4..pos + 8], c.crc(file[pos + 12..next]));
        HeldNumber(file[pos + 8..pos + 12], next - pos - 12);
      }
      if pos + 12 + len <= |file| { HeldNumber(file[pos + 4..pos + 8], c.crc(file[pos + 12..pos + 12 + len])); }
    }
  }

  // ---- Recovery keeps exactly the longest run of valid batches ----

  /** Valid batches that follow one another from the start of the file: the positions between them and their entries. */
  ghost predicate Chain(c: Codec, file: bytes, ps: seq<nat>, batches: seq<seq<LogEntry>>) {
    && |ps| == |batches| + 1 && ps[0] == 0
    && forall i | 0 <= i < |batches| :: ValidBatch(c, file, ps[i], batches[i], ps[i + 1])
  }

  function Concat(batches: seq<seq<LogEntry>>): seq<LogEntry> {
    if batches == [] then [] else Concat(batches[..|batches| - 1]) + batches[|batches| - 1]
  }

  /** Scanning goes through any run of valid batches. */
  lemma {:induction false} ChainReaches(c: Codec, file: bytes, ps: seq<nat>, batches: seq<seq<LogEntry>>)
    requires Chain(c, file, ps, batches)
    ensures ps[|batches|] <= |file|
    ensures var rest := Scan(c, file, ps[|batches|]); Scan(c, file, 0) == Scanned(rest.end, Concat(batches) + rest.entries)
    decreases |batches|
  {
    hide ValidBatch;
    if batches == [] {
      assert [] + Scan(c, file, 0).entries == Scan(c, file, 0).entries;
    } else {
      var n := |batches| - 1;
      ChainReaches(c, file, ps[..n + 1], batches[..n]);
      assert ValidBatch(c, file, ps[n], batches[n], ps[n + 1]);
      ParsesExactly(c, file, ps[n], batches[n], ps[n + 1], ShortHeader);
      ScanBatch(c, file, ps[n], batches[n], ps[n + 1]);
      BatchInside(c, file, ps[n], batches[n], ps[n + 1]);
      Assoc(Concat(batches[..n]), batches[n], Scan(c, file, ps[n + 1]).entries);
    }
  }

  lemma {:induction false} BatchInside(c: Codec, file: bytes, pos: nat, es: seq<LogEntry>, next: nat)
    requires ValidBatch(c, file, pos, es, next)
    ensures pos < next <= |file|
  {
  }

  /** Every run of valid batches ends at or before the point where the scan stops, and its entries come first. */
  lemma {:induction false} ScanIsLongest(c: Codec, file: bytes, ps: seq<nat>, batches: seq<seq<LogEntry>>)
    requires Chain(c, file, ps, batches)
    ensures ps[|batches|] <= Scan(c, file, 0).end && Concat(batches) <= Scan(c, file, 0).entries
  {
    ChainReaches(c, file, ps, batches);
    ScanEnds(c, file, ps[|batches|]);
  }

  lemma {:induction false} ChainGrows(c: Codec, file: bytes, ps: seq<nat>, batches: seq<seq<LogEntry>>, es: seq<LogEntry>, next: nat)
    requires Chain(c, file, ps, batches) && ValidBatch(c, file, ps[|batches|], es, next)
    ensures Chain(c, file, ps + [next], batches + [es])
  {
    hide ValidBatch;
    var qs, bs := ps + [next], batches + [es];
    forall i | 0 <= i < |bs| ensures ValidBatch(c, file, qs[i], bs[i], qs[i + 1]) {
      if i < |batches| { assert qs[i] == ps[i] && qs[i + 1] == ps[i + 1] && bs[i] == batches[i]; }
    }
  }

  /** The point where the scan stops is itself reached by a run of valid batches, with the entries found. */
  lemma {:induction false} ScanIsReached(c: Codec, file: bytes, ps: seq<nat>, batches: seq<seq<LogEntry>>)
    returns (qs: seq<nat>, all: seq<seq<LogEntry>>)
    requires Chain(c, file, ps, batches)
    ensures Chain(c, file, qs, all) && qs[|all|] == Scan(c, file, 0).end && Concat(all) == Scan(c, file, 0).entries
    decreases |file| - ps[|batches|]
  {
    hide ValidBatch;
    var last := ps[|batches|];
    var p := ParseAt(c, file, last);
    ChainReaches(c, file, ps, batches);
    if p.Batch? {
      ParsesExactly(c, file, last, p.entries, p.next, ShortHeader);
      ChainGrows(c, file, ps, batches, p.entries, p.next);
      BatchInside(c, file, last, p.entries, p.next);
      qs, all := ScanIsReached(c, file, ps + [p.next], batches + [p.entries]);
    } else {
      qs, all := ps, batches;
      assert Concat(batches) + [] == Concat(batches);
    }
  }

  /** A run of valid batches that no other one goes beyond. */
  ghost predicate Longest(c: Codec, file: bytes, ps: seq<nat>, batches: seq<seq<LogEntry>>) {
    && Chain(c, file, ps, batches)
    && forall qs, others | Chain(c, file, qs, others) :: qs[|others|] <= ps[|batches|] && Concat(others) <= Concat(batches)
  }

  /**
   Recovery: what is kept of any file is its longest run of valid batches with
   exactly their entries, the kept file is clean, and recovering it again changes
   nothing.
   */
  lemma {:induction false} RecoveryKeepsLongestRun(c: Codec, file: bytes)
    ensures var end := Scan(c, file, 0).end;
      && end <= |file|
      && (exists ps, batches :: Longest(c, file, ps, batches) && ps[|batches|] == end && Concat(batches) == Contents(c, file))
      && Clean(c, file[..end])
      && Scan(c, file[..end], 0) == Scan(c, file, 0)
  {
    ScanCut(c, file, 0);
    var ps, batches := ScanIsReached(c, file, [0], []);
    forall qs, others | Chain(c, file, qs, others)
      ensures qs[|others|] <= ps[|batches|] && Concat(others) <= Concat(batches)
    {
      ScanIsLongest(c, file, qs, others);
    }
    assert Longest(c, file, ps, batches);
  }

  /** Bytes under a checksum that is not theirs are never taken for a batch. */
  lemma {:induction false} WrongChecksumStops(c: Codec, file: bytes, p: bytes, wrong: nat, more: bytes)
    requires Clean(c, file) && |p| < U32 && wrong < U32 && wrong != c.crc(p)
    ensures var g := file + (MAGIC + Le32(wrong) + Le32(|p|) + p + more);
      Scan(c, g, 0) == Scanned(|file|, Contents(c, file)) && ParseAt(c, g, |file|) == Broken(BadCrc)
  {
    hide Le32, ParseAt;
    var tail := MAGIC + Le32(wrong) + Le32(|p|) + p + more;
    WrongChecksum(c, file, p, Le32(wrong), Le32(|p|), wrong, more);
    ScanThrough(c, file, tail, 0);
    assert Contents(c, file) + [] == Contents(c, file);
  }

  lemma {:induction false} WrongChecksum(c: Codec, file: bytes, p: bytes, crc: bytes, len: bytes, wrong: nat, more: bytes)
    requires |p| < U32 && wrong < U32 && crc == Le32(wrong) && len == Le32(|p|) && wrong != c.crc(p)
    ensures ParseAt(c, file + (MAGIC + crc + len + p + more), |file|) == Broken(BadCrc)
  {
    Le32RoundTrip(wrong);
    Le32RoundTrip(|p|);
    hide Le32, FromLe32;
    var tail := MAGIC + crc + len + p + more;
    Shift(file, tail, 0, 4);
    Shift(file, tail, 4, 8);
    Shift(file, tail, 8, 12);
    Shift(file, tail, 12, 12 + |p|);
    Fields(crc, len, p, more);
  }

  lemma {:induction false} Shift(file: bytes, tail: bytes, a: nat, b: nat)
    requires a <= b <= |tail|
    ensures (file + tail)[|file| + a..|file| + b] == tail[a..b]
  {
  }

  lemma {:induction false} Fields(crc: bytes, len: bytes, p: bytes, more: bytes)
    requires |crc| == 4 && |len| == 4
    ensures var tail := MAGIC + crc + len + p + more;
      tail[..4] == tail[0..4] == MAGIC && tail[4..8] == crc && tail[8..12] == len && tail[12..12 + |p|] == p
  {
    var tail := MAGIC + crc + len + p + more;
    assert tail == (MAGIC + crc + len) + (p + more);
    assert tail[..12] == MAGIC + crc + len;
  }
}
