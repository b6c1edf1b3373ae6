/** What reopening a log directory finds, after a clean shutdown or a crash in the middle of an append. */
module SegmentRecovery {
  import opened Types
  import opened LogSpec
  import opened SegmentViews
  import opened Segment
  import F = Framing
  import SortedKeys

  /** The segment files of a log directory by base offset. */
  type Directory = map<Offset, bytes>

  function Found(c: F.Codec, files: Directory, keys: seq<Offset>): seq<View>
    requires forall k | k in keys :: k in files
  {
    if keys == [] then []
    else
      var k := keys[|keys| - 1];
      Found(c, files, keys[..|keys| - 1]) + [View(k, F.Contents(c, files[k]))]
  }

  /** Trailing empty segments are leftovers of a crash during rollover and are removed. */
  function DropEmpty(vs: seq<View>): seq<View> {
    if |vs| > 1 && vs[|vs| - 1].entries == [] then DropEmpty(vs[..|vs| - 1]) else vs
  }

  function RecoveredViews(c: F.Codec, files: Directory): seq<View> {
    DropEmpty(Found(c, files, SortedKeys.Sorted(files.Keys)))
  }

  /** Every file recovers to batches that are not empty. */
  ghost predicate DenseDirectory(c: F.Codec, files: Directory) {
    forall k | k in files :: F.Dense(c, Recovered(c, files[k]), 0)
  }

  /** A file is exactly the batches of a view, as appending leaves it. */
  ghost predicate FileIs(c: F.Codec, file: bytes, v: View) {
    F.Clean(c, file) && F.Dense(c, file, 0) && F.Contents(c, file) == v.entries
  }

  /** The directory holds one file per segment and nothing else. */
  ghost predicate Stored(c: F.Codec, files: Directory, vs: seq<View>) {
    && (forall i | 0 <= i < |vs| :: vs[i].base in files && FileIs(c, files[vs[i].base], vs[i]))
    && (forall k | k in files :: k in Bases(vs))
  }

  function Bases(vs: seq<View>): (r: seq<Offset>)
    ensures |r| == |vs|
    ensures forall i | 0 <= i < |vs| :: r[i] == vs[i].base
  {
    if vs == [] then [] else Bases(vs[..|vs| - 1]) + [vs[|vs| - 1].base]
  }

  ghost predicate NonEmpty(vs: seq<View>) {
    forall i | 0 <= i < |vs| :: vs[i].entries != []
  }

  lemma {:induction false} BaseBelow(vs: seq<View>, i: nat, j: nat)
    requires Linked(vs) && i < j < |vs|
    ensures vs[i].base < vs[j].base
    decreases j - i
  {
    assert vs[j - 1].End() == vs[j - 1 + 1].base;
    if i < j - 1 { BaseBelow(vs, i, j - 1); }
  }

  lemma {:induction false} BasesAscend(vs: seq<View>)
    requires Linked(vs)
    ensures SortedKeys.Ascending(Bases(vs))
  {
    forall i, j | 0 <= i < j < |vs| ensures Bases(vs)[i] < Bases(vs)[j] { BaseBelow(vs, i, j); }
  }

  /** What a scan of the files at the bases of a row of segments finds. */
  lemma {:induction false} FoundAt(c: F.Codec, files: Directory, vs: seq<View>)
    requires forall i | 0 <= i < |vs| :: vs[i].base in files && F.Contents(c, files[vs[i].base]) == vs[i].entries
    ensures (forall k | k in Bases(vs) :: k in files) && Found(c, files, Bases(vs)) == vs
    decreases |vs|
  {
    if vs != [] {
      var n := |vs| - 1;
      FoundAt(c, files, vs[..n]);
      assert Bases(vs)[..n] == Bases(vs[..n]);
      assert vs == vs[..n] + [vs[n]] && vs[n] == View(vs[n].base, F.Contents(c, files[vs[n].base]));
    }
  }

  /** The sorted listing of a directory that holds a row of segments is their bases. */
  lemma {:induction false} ListingIsBases(files: Directory, vs: seq<View>)
    requires SortedKeys.Ascending(Bases(vs))
    requires forall k :: k in files <==> k in Bases(vs)
    ensures SortedKeys.Sorted(files.Keys) == Bases(vs)
  {
    SortedKeys.AscendingUnique(SortedKeys.Sorted(files.Keys), Bases(vs));
  }

  lemma {:induction false} DirectoryFinds(c: F.Codec, files: Directory, vs: seq<View>)
    requires SortedKeys.Ascending(Bases(vs))
    requires forall k :: k in files <==> k in Bases(vs)
    requires forall i | 0 <= i < |vs| :: vs[i].base in files && F.Contents(c, files[vs[i].base]) == vs[i].entries
    ensures RecoveredViews(c, files) == DropEmpty(vs)
  {
    ListingIsBases(files, vs);
    FoundAt(c, files, vs);
  }

  /** A clean file recovers to itself. */
  lemma {:induction false} CleanRecovers(c: F.Codec, file: bytes)
    requires F.Clean(c, file)
    ensures Recovered(c, file) == file
  {
  }

  /** Recovery keeps the contents, leaves a file without damage, and has nothing left to do a second time. */
  lemma {:induction false} RecoveryIdempotent(c: F.Codec, found: bytes)
    ensures var kept := Recovered(c, found);
      && F.Clean(c, kept) && F.Contents(c, kept) == F.Contents(c, found)
      && Recovered(c, kept) == kept
  {
    F.ScanCut(c, found, 0);
    CleanRecovers(c, Recovered(c, found));
  }

  lemma {:induction false} StoredKeys(c: F.Codec, files: Directory, vs: seq<View>)
    requires Stored(c, files, vs)
    ensures forall k :: k in files <==> k in Bases(vs)
    ensures DenseDirectory(c, files)
  {
    forall k | k in Bases(vs) ensures k in files {
      var i :| 0 <= i < |vs| && Bases(vs)[i] == k;
      assert vs[i].base in files;
    }
    forall k | k in files ensures F.Dense(c, Recovered(c, files[k]), 0) {
      var i :| 0 <= i < |vs| && Bases(vs)[i] == k;
      assert FileIs(c, files[vs[i].base], vs[i]);
      CleanRecovers(c, files[k]);
    }
  }

  /** Reopening after a clean shutdown finds the same segments. */
  lemma {:induction false} CleanRestart(c: F.Codec, files: Directory, vs: seq<View>)
    requires Stored(c, files, vs) && Linked(vs)
    ensures RecoveredViews(c, files) == vs && DenseDirectory(c, files)
  {
    StoredKeys(c, files, vs);
    BasesAscend(vs);
    assert forall i | 0 <= i < |vs| :: FileIs(c, files[vs[i].base], vs[i]);
    DirectoryFinds(c, files, vs);
  }

  // ---- Crashes in the middle of an append ----

  /** What is on disk when a crash stops an append to the last file after k of its bytes. */
  function TornLast(c: F.Codec, files: Directory, last: Offset, es: seq<LogEntry>, k: nat): Directory
    requires last in files && k <= |F.Frame(c, es)|
  {
    files[last := files[last] + F.Frame(c, es)[..k]]
  }

  /** The same when the append had just started a new file. */
  function TornNew(c: F.Codec, files: Directory, base: Offset, es: seq<LogEntry>, k: nat): Directory
    requires k <= |F.Frame(c, es)|
  {
    files[base := F.Frame(c, es)[..k]]
  }

  /** A torn or complete frame after a clean file: all of the batch or none of it. */
  lemma {:induction false} TornFile(c: F.Codec, file: bytes, es: seq<LogEntry>, k: nat)
    requires F.Lawful(c) && F.Fits(c, es) && es != [] && F.Clean(c, file) && F.Dense(c, file, 0)
    requires k <= |F.Frame(c, es)|
    ensures var g := file + F.Frame(c, es)[..k];
      && F.Contents(c, g) == (if k < |F.Frame(c, es)| then F.Contents(c, file) else F.Contents(c, file) + es)
      && F.Dense(c, Recovered(c, g), 0)
  {
    var g := file + F.Frame(c, es)[..k];
    if k < |F.Frame(c, es)| {
      F.TornFrame(c, file, es, k);
      assert g[..|file|] == file;
    } else {
      assert F.Frame(c, es)[..k] == F.Frame(c, es);
      F.AppendFrame(c, file, es);
      F.DenseAppend(c, file, es);
      CleanRecovers(c, g);
    }
  }

  lemma {:induction false} DenseUpdate(c: F.Codec, files: Directory, k: Offset, file: bytes)
    requires DenseDirectory(c, files) && F.Dense(c, Recovered(c, file), 0)
    ensures DenseDirectory(c, files[k := file])
  {
  }

  /** Rewriting the last file changes the last view alone. */
  lemma {:induction false} LastFileRewritten(c: F.Codec, files: Directory, vs: seq<View>, file: bytes)
    requires Stored(c, files, vs) && vs != [] && SortedKeys.Ascending(Bases(vs))
    requires F.Dense(c, Recovered(c, file), 0)
    ensures var last := vs[|vs| - 1].base;
      && DenseDirectory(c, files[last := file])
      && RecoveredViews(c, files[last := file]) == DropEmpty(vs[..|vs| - 1] + [View(last, F.Contents(c, file))])
  {
    hide F.Contents, F.Dense, Recovered, RecoveredViews, DropEmpty, FileIs, DenseDirectory, Stored, Bases;
    var n := |vs| - 1;
    var last := vs[n].base;
    var torn := files[last := file];
    var ws := vs[..n] + [View(last, F.Contents(c, file))];
    StoredKeys(c, files, vs);
    DenseUpdate(c, files, last, file);
    assert Bases(ws) == Bases(vs);
    assert Bases(vs)[n] == last;
    forall i | 0 <= i < |ws| ensures ws[i].base in torn && F.Contents(c, torn[ws[i].base]) == ws[i].entries {
      if i < n {
        assert Bases(vs)[i] < Bases(vs)[n];
        FileHolds(c, files, vs, i);
      }
    }
    DirectoryFinds(c, torn, ws);
  }

  /** A file after the last one adds a view. */
  lemma {:induction false} FileAdded(c: F.Codec, files: Directory, vs: seq<View>, base: Offset, file: bytes)
    requires Stored(c, files, vs) && SortedKeys.Ascending(Bases(vs) + [base])
    requires F.Dense(c, Recovered(c, file), 0)
    ensures DenseDirectory(c, files[base := file])
    ensures RecoveredViews(c, files[base := file]) == DropEmpty(vs + [View(base, F.Contents(c, file))])
  {
    hide F.Contents, F.Dense, Recovered, RecoveredViews, DropEmpty, FileIs, DenseDirectory, Stored, Bases;
    var torn := files[base := file];
    var ws := vs + [View(base, F.Contents(c, file))];
    StoredKeys(c, files, vs);
    DenseUpdate(c, files, base, file);
    assert ws[..|vs|] == vs;
    var bs := Bases(vs) + [base];
    assert Bases(ws) == bs;
    forall i | 0 <= i < |ws| ensures ws[i].base in torn && F.Contents(c, torn[ws[i].base]) == ws[i].entries {
      if i < |vs| {
        assert bs[i] < bs[|vs|];
        FileHolds(c, files, vs, i);
      }
    }
    assert base in bs by { assert bs[|vs|] == base; }
    DirectoryFinds(c, torn, ws);
  }

  lemma {:induction false} FileHolds(c: F.Codec, files: Directory, vs: seq<View>, i: nat)
    requires Stored(c, files, vs) && i < |vs|
    ensures vs[i].base in files && F.Contents(c, files[vs[i].base]) == vs[i].entries
  {
  }

  /** A crash while appending to the last segment reopens as the old segments, or with the whole batch. */
  lemma {:induction false} TornLastRestart(c: F.Codec, files: Directory, vs: seq<View>, es: seq<LogEntry>, k: nat)
    requires F.Lawful(c) && F.Fits(c, es) && es != [] && k <= |F.Frame(c, es)|
    requires Stored(c, files, vs) && Linked(vs) && vs != []
    ensures vs[|vs| - 1].base in files
    ensures var torn := TornLast(c, files, vs[|vs| - 1].base, es, k);
      && DenseDirectory(c, torn)
      && RecoveredViews(c, torn) == DropEmpty(if k < |F.Frame(c, es)| then vs else AppendLast(vs, es))
  {
    hide F.Lawful, F.Fits, F.Frame, F.Contents, F.Dense, F.Clean, Recovered, RecoveredViews, DropEmpty, Linked, Bases;
    var n := |vs| - 1;
    var last := vs[n].base;
    assert FileIs(c, files[last], vs[n]);
    TornFile(c, files[last], es, k);
    BasesAscend(vs);
    LastFileRewritten(c, files, vs, files[last] + F.Frame(c, es)[..k]);
    assert vs == vs[..n] + [View(last, vs[n].entries)];
  }

  /** A crash after starting a new segment reopens as the old segments, or with the new one. */
  lemma {:induction false} TornNewRestart(c: F.Codec, files: Directory, vs: seq<View>, end: Offset, es: seq<LogEntry>, k: nat)
    requires F.Lawful(c) && F.Fits(c, es) && es != [] && k <= |F.Frame(c, es)|
    requires Stored(c, files, vs) && Linked(vs) && NonEmpty(vs)
    requires vs != [] ==> vs[|vs| - 1].End() == end
    ensures var torn := TornNew(c, files, end, es, k);
      && DenseDirectory(c, torn)
      && RecoveredViews(c, torn) == DropEmpty(vs + [View(end, if k < |F.Frame(c, es)| then [] else es)])
  {
    hide F.Lawful, F.Fits, F.Frame, F.Dense, Recovered, RecoveredViews, DropEmpty, Linked, Bases;
    assert [] + F.Frame(c, es)[..k] == F.Frame(c, es)[..k];
    F.ScanAtEnd(c, []);
    F.DenseAtEnd(c, []);
    assert [] + es == es;
    TornFile(c, [], es, k);
    NewBaseAscends(vs, end);
    FileAdded(c, files, vs, end, F.Frame(c, es)[..k]);
  }

  lemma {:induction false} NewBaseAscends(vs: seq<View>, end: Offset)
    requires Linked(vs) && NonEmpty(vs) && (vs != [] ==> vs[|vs| - 1].End() == end)
    ensures SortedKeys.Ascending(Bases(vs) + [end])
  {
    BasesAscend(vs);
    forall i | 0 <= i < |vs| ensures Bases(vs)[i] < end {
      EndsIncrease(vs, i, |vs| - 1);
    }
  }
}
