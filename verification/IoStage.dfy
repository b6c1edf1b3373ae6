/** A batch of I/O actions run as three concurrent groups, compared with running the batch in order. */
module IoStage {
  import opened Types

  type Error = nat

  datatype IoAction =
    | AppendLog(entries: seq<LogEntry>)
    | TruncateSuffix(from: Offset)
    | TruncatePrefix(upTo: Offset)
    | SaveSnapshot(snapshot: bytes)
    | SendRpc(to: NodeId, data: bytes)

  datatype IoResult =
    | SnapshotSaved | SnapshotSaveFailed(error: Error)
    | PrefixTruncated | PrefixTruncateFailed(error: Error)
    | LogAppended | SuffixTruncated
    | RpcSent | RpcFailed(error: Error)
    | StorageFailed(error: Error)

  datatype Group = LogGroup | SnapshotGroup | NetworkGroup

  function GroupOf(a: IoAction): Group {
    match a
    case AppendLog(_) => LogGroup
    case TruncateSuffix(_) => LogGroup
    case TruncatePrefix(_) => LogGroup
    case SaveSnapshot(_) => SnapshotGroup
    case SendRpc(_, _) => NetworkGroup
  }

  /** A store: what an action does to it, and the error it may answer with. */
  type Device<!S> = (S, IoAction) -> (S, Option<Error>)

  datatype Backend<!S> = Backend(log: Device<S>, snapshots: Device<S>, network: Device<S>) {

    function Of(g: Group): Device<S> {
      match g case LogGroup => log case SnapshotGroup => snapshots case NetworkGroup => network
    }
  }

  /** The state of each store. */
  datatype World<S> = World(log: S, snapshots: S, network: S) {

    function Of(g: Group): S {
      match g case LogGroup => log case SnapshotGroup => snapshots case NetworkGroup => network
    }

    function With(g: Group, s: S): World<S> {
      match g
      case LogGroup => this.(log := s)
      case SnapshotGroup => this.(snapshots := s)
      case NetworkGroup => this.(network := s)
    }
  }

  function ResultOf(a: IoAction, failed: Option<Error>): IoResult {
    match a
    case AppendLog(_) => if failed.None? then LogAppended else StorageFailed(failed.value)
    case TruncateSuffix(_) => if failed.None? then SuffixTruncated else StorageFailed(failed.value)
    case TruncatePrefix(_) => if failed.None? then PrefixTruncated else PrefixTruncateFailed(failed.value)
    case SaveSnapshot(_) => if failed.None? then SnapshotSaved else SnapshotSaveFailed(failed.value)
    case SendRpc(_, _) => if failed.None? then RpcSent else RpcFailed(failed.value)
  }

  // ---- The reference: the whole batch in order ----

  function Apply<S>(b: Backend<S>, w: World<S>, a: IoAction): (World<S>, IoResult) {
    var g := GroupOf(a);
    var r := b.Of(g)(w.Of(g), a);
    (w.With(g, r.0), ResultOf(a, r.1))
  }

  function InOrder<S>(b: Backend<S>, w: World<S>, batch: seq<IoAction>): (r: (World<S>, seq<IoResult>))
    ensures |r.1| == |batch|
  {
    if batch == [] then (w, [])
    else
      var before := InOrder(b, w, batch[..|batch| - 1]);
      var last := Apply(b, before.0, batch[|batch| - 1]);
      (last.0, before.1 + [last.1])
  }

  // ---- What each store answers, action by action ----

  predicate ForLog(a: IoAction) { a.AppendLog? || a.TruncateSuffix? || a.TruncatePrefix? }

  predicate ForSnapshots(a: IoAction) { a.SaveSnapshot? }

  predicate ForNetwork(a: IoAction) { a.SendRpc? }

  predicate SameStore(a: IoAction, b: IoAction) {
    (ForLog(a) && ForLog(b)) || (ForSnapshots(a) && ForSnapshots(b)) || (ForNetwork(a) && ForNetwork(b))
  }

  /** A store after those actions of a batch that are meant for it, in batch order. */
  function Fed<S>(d: Device<S>, s: S, batch: seq<IoAction>, mine: IoAction -> bool): S {
    if batch == [] then s
    else
      var n := |batch| - 1;
      var before := Fed(d, s, batch[..n], mine);
      if mine(batch[n]) then d(before, batch[n]).0 else before
  }

  /** The error with which a store meets action i, after the earlier actions meant for it. */
  function Met<S>(d: Device<S>, s: S, batch: seq<IoAction>, i: nat, mine: IoAction -> bool): Option<Error>
    requires i < |batch|
  {
    d(Fed(d, s, batch[..i], mine), batch[i]).1
  }

  /**
   Result i reports success of the kind of action i exactly when its store did
   not fail, and else that kind's failure with the store's error.
   */
  ghost predicate Answers<S>(b: Backend<S>, w: World<S>, batch: seq<IoAction>, i: nat, r: IoResult)
    requires i < |batch|
  {
    match batch[i]
    case AppendLog(_) =>
      (match Met(b.log, w.log, batch, i, ForLog) case None => r == LogAppended case Some(e) => r == StorageFailed(e))
    case TruncateSuffix(_) =>
      (match Met(b.log, w.log, batch, i, ForLog)
       case None => r == SuffixTruncated
       case Some(e) => r == StorageFailed(e))
    case TruncatePrefix(_) =>
      (match Met(b.log, w.log, batch, i, ForLog)
       case None => r == PrefixTruncated
       case Some(e) => r == PrefixTruncateFailed(e))
    case SaveSnapshot(_) =>
      (match Met(b.snapshots, w.snapshots, batch, i, ForSnapshots)
       case None => r == SnapshotSaved
       case Some(e) => r == SnapshotSaveFailed(e))
    case SendRpc(_, _) =>
      (match Met(b.network, w.network, batch, i, ForNetwork)
       case None => r == RpcSent
       case Some(e) => r == RpcFailed(e))
  }

  /** The batch in order feeds each store its own actions. */
  lemma {:induction false} InOrderFeeds<S>(b: Backend<S>, w: World<S>, batch: seq<IoAction>)
    ensures InOrder(b, w, batch).0 ==
      World(Fed(b.log, w.log, batch, ForLog), Fed(b.snapshots, w.snapshots, batch, ForSnapshots), Fed(b.network, w.network, batch, ForNetwork))
    decreases |batch|
  {
    if batch != [] { InOrderFeeds(b, w, batch[..|batch| - 1]); }
  }

  lemma {:induction false} InOrderAnswers<S>(b: Backend<S>, w: World<S>, batch: seq<IoAction>, i: nat)
    requires i < |batch|
    ensures Answers(b, w, batch, i, InOrder(b, w, batch).1[i])
    decreases |batch|
  {
    hide Fed;
    var n := |batch| - 1;
    InOrderFeeds(b, w, batch[..n]);
    if i < n {
      InOrderAnswers(b, w, batch[..n], i);
      assert batch[..n][..i] == batch[..i];
    }
  }

  // ---- One group ----

  /** The actions of a group with their places in the batch. */
  function Part(batch: seq<IoAction>, g: Group): seq<(nat, IoAction)> {
    if batch == [] then []
    else
      var n := |batch| - 1;
      var rest := Part(batch[..n], g);
      if GroupOf(batch[n]) == g then rest + [(n, batch[n])] else rest
  }

  /** A store after a group ran on it, and the results it gave. */
  function RunGroup<S>(d: Device<S>, s: S, part: seq<(nat, IoAction)>): (S, seq<(nat, IoResult)>) {
    if part == [] then (s, [])
    else
      var (idx, a) := part[|part| - 1];
      var before := RunGroup(d, s, part[..|part| - 1]);
      var r := d(before.0, a);
      (r.0, before.1 + [(idx, ResultOf(a, r.1))])
  }

  /** The results of a group are at their places in the results of the batch. */
  ghost predicate Placed(results: seq<(nat, IoResult)>, all: seq<IoResult>, batch: seq<IoAction>, g: Group)
    requires |all| == |batch|
  {
    && (forall k | 0 <= k < |results| :: results[k].0 < |batch| && GroupOf(batch[results[k].0]) == g
          && all[results[k].0] == results[k].1)
    && (forall j, k | 0 <= j < k < |results| :: results[j].0 < results[k].0)
  }

  /** A group alone does to its store what the batch in order does. */
  lemma {:induction false} GroupAlone<S>(b: Backend<S>, w: World<S>, batch: seq<IoAction>, g: Group)
    ensures InOrder(b, w, batch).0.Of(g) == RunGroup(b.Of(g), w.Of(g), Part(batch, g)).0
    ensures Placed(RunGroup(b.Of(g), w.Of(g), Part(batch, g)).1, InOrder(b, w, batch).1, batch, g)
    decreases |batch|
  {
    hide Placed;
    if batch == [] {
      PlacedNone(g);
    } else {
      var n := |batch| - 1;
      GroupAlone(b, w, batch[..n], g);
      PlaceLast(b, w, batch, RunGroup(b.Of(g), w.Of(g), Part(batch[..n], g)).1, g);
      PartStep(b.Of(g), w.Of(g), batch, g);
    }
  }

  lemma {:induction false} PlacedNone(g: Group)
    ensures Placed([], [], [], g)
  {
  }

  lemma {:induction false} PlaceLast<S>(b: Backend<S>, w: World<S>, batch: seq<IoAction>, results: seq<(nat, IoResult)>, g: Group)
    requires batch != []
    requires Placed(results, InOrder(b, w, batch[..|batch| - 1]).1, batch[..|batch| - 1], g)
    ensures var n := |batch| - 1; var all := InOrder(b, w, batch).1;
      Placed(if GroupOf(batch[n]) == g then results + [(n, all[n])] else results, all, batch, g)
  {
    hide Placed;
    var n := |batch| - 1;
    var before, all := InOrder(b, w, batch[..n]).1, InOrder(b, w, batch).1;
    assert batch == batch[..n] + [batch[n]] && all == before + [all[n]];
    if GroupOf(batch[n]) == g { PlacedMore(results, before, batch[..n], g, batch[n], all[n]); }
    else { PlacedOther(results, before, batch[..n], g, batch[n], all[n]); }
  }

  lemma {:induction false} PlacedOther(results: seq<(nat, IoResult)>, all: seq<IoResult>, batch: seq<IoAction>, g: Group, a: IoAction, r: IoResult)
    requires |all| == |batch| && Placed(results, all, batch, g) && GroupOf(a) != g
    ensures Placed(results, all + [r], batch + [a], g)
  {
  }

  lemma {:induction false} PlacedMore(results: seq<(nat, IoResult)>, all: seq<IoResult>, batch: seq<IoAction>, g: Group, a: IoAction, r: IoResult)
    requires |all| == |batch| && Placed(results, all, batch, g) && GroupOf(a) == g
    ensures Placed(results + [(|batch|, r)], all + [r], batch + [a], g)
  {
  }

  lemma {:induction false} PartStep<S>(d: Device<S>, s: S, batch: seq<IoAction>, g: Group)
    requires batch != []
    ensures var n := |batch| - 1;
      var before := RunGroup(d, s, Part(batch[..n], g));
      RunGroup(d, s, Part(batch, g)) ==
        if GroupOf(batch[n]) == g
        then (d(before.0, batch[n]).0, before.1 + [(n, ResultOf(batch[n], d(before.0, batch[n]).1))])
        else before
  {
  }

  // ---- Merging ----

  /** Puts a result before the first one with a larger place. */
  function Insert(x: (nat, IoResult), xs: seq<(nat, IoResult)>): seq<(nat, IoResult)> {
    if xs == [] then [x]
    else
      var n := |xs| - 1;
      if xs[n].0 <= x.0 then xs + [x] else Insert(x, xs[..n]) + [xs[n]]
  }

  function SortByPlace(xs: seq<(nat, IoResult)>): seq<(nat, IoResult)> {
    if xs == [] then [] else Insert(xs[|xs| - 1], SortByPlace(xs[..|xs| - 1]))
  }

  ghost predicate Strict(xs: seq<(nat, IoResult)>) {
    forall j, k | 0 <= j < k < |xs| :: xs[j].0 < xs[k].0
  }

  ghost predicate Below(xs: seq<(nat, IoResult)>, bound: nat) {
    forall k | 0 <= k < |xs| :: xs[k].0 < bound
  }

  ghost predicate Missing(xs: seq<(nat, IoResult)>, place: nat) {
    forall k | 0 <= k < |xs| :: xs[k].0 != place
  }

  ghost predicate Distinct(xs: seq<(nat, IoResult)>) {
    forall j, k | 0 <= j < k < |xs| :: xs[j].0 != xs[k].0
  }

  /** Every result listed is the one of its place. */
  ghost predicate From(xs: seq<(nat, IoResult)>, all: seq<IoResult>) {
    forall k | 0 <= k < |xs| :: xs[k].0 < |all| && xs[k].1 == all[xs[k].0]
  }

  lemma {:induction false} InsertKeeps(x: (nat, IoResult), xs: seq<(nat, IoResult)>, bound: nat, place: nat, all: seq<IoResult>)
    ensures |Insert(x, xs)| == |xs| + 1
    ensures Below(xs, bound) && x.0 < bound ==> Below(Insert(x, xs), bound)
    ensures Missing(xs, place) && x.0 != place ==> Missing(Insert(x, xs), place)
    ensures From(xs, all) && x.0 < |all| && x.1 == all[x.0] ==> From(Insert(x, xs), all)
    decreases |xs|
  {
    if xs != [] {
      var n := |xs| - 1;
      InsertKeeps(x, xs[..n], bound, place, all);
    }
  }

  lemma {:induction false} InsertStrict(x: (nat, IoResult), xs: seq<(nat, IoResult)>)
    requires Strict(xs) && Missing(xs, x.0)
    ensures Strict(Insert(x, xs))
    decreases |xs|
  {
    if xs != [] {
      var n := |xs| - 1;
      if xs[n].0 > x.0 {
        InsertStrict(x, xs[..n]);
        InsertKeeps(x, xs[..n], xs[n].0, 0, []);
      }
    }
  }

  lemma {:induction false} SortKeeps(xs: seq<(nat, IoResult)>, place: nat, all: seq<IoResult>)
    ensures |SortByPlace(xs)| == |xs|
    ensures Missing(xs, place) ==> Missing(SortByPlace(xs), place)
    ensures From(xs, all) ==> From(SortByPlace(xs), all)
    decreases |xs|
  {
    if xs != [] {
      var n := |xs| - 1;
      SortKeeps(xs[..n], place, all);
      InsertKeeps(xs[n], SortByPlace(xs[..n]), 0, place, all);
    }
  }

  lemma {:induction false} SortStrict(xs: seq<(nat, IoResult)>)
    requires Distinct(xs)
    ensures Strict(SortByPlace(xs))
    decreases |xs|
  {
    if xs != [] {
      var n := |xs| - 1;
      SortStrict(xs[..n]);
      SortKeeps(xs[..n], xs[n].0, []);
      InsertStrict(xs[n], SortByPlace(xs[..n]));
    }
  }

  /** Strictly increasing places below their number are 0, 1, 2, and so on. */
  lemma {:induction false} StrictAtLeast(xs: seq<(nat, IoResult)>, i: nat)
    requires Strict(xs) && i < |xs|
    ensures xs[i].0 >= i
    decreases i
  {
    if i > 0 { StrictAtLeast(xs, i - 1); }
  }

  lemma {:induction false} StrictAtMost(xs: seq<(nat, IoResult)>, i: nat)
    requires Strict(xs) && i < |xs| && Below(xs, |xs|)
    ensures xs[i].0 <= i
    decreases |xs| - i
  {
    if i + 1 < |xs| { StrictAtMost(xs, i + 1); }
  }

  lemma {:induction false} SortedAtPlace(xs: seq<(nat, IoResult)>, all: seq<IoResult>)
    requires Distinct(xs) && From(xs, all) && |xs| == |all|
    ensures |SortByPlace(xs)| == |all|
    ensures forall i | 0 <= i < |all| :: SortByPlace(xs)[i] == (i, all[i])
  {
    hide SortByPlace, Distinct;
    SortStrict(xs);
    SortKeeps(xs, 0, all);
    var sorted := SortByPlace(xs);
    forall i | 0 <= i < |all| ensures sorted[i] == (i, all[i]) {
      StrictAtLeast(sorted, i);
      StrictAtMost(sorted, i);
    }
  }

  lemma {:induction false} PartSizes(batch: seq<IoAction>)
    ensures |Part(batch, LogGroup)| + |Part(batch, SnapshotGroup)| + |Part(batch, NetworkGroup)| == |batch|
    decreases |batch|
  {
    if batch != [] { PartSizes(batch[..|batch| - 1]); }
  }

  lemma {:induction false} GroupSize<S>(d: Device<S>, s: S, part: seq<(nat, IoAction)>)
    ensures |RunGroup(d, s, part).1| == |part|
    decreases |part|
  {
    if part != [] { GroupSize(d, s, part[..|part| - 1]); }
  }

  /** The results of the three groups together name every place at most once, with its result. */
  lemma {:induction false} GroupsDistinct(l: seq<(nat, IoResult)>, s: seq<(nat, IoResult)>, n: seq<(nat, IoResult)>, all: seq<IoResult>, batch: seq<IoAction>)
    requires |all| == |batch|
    requires Placed(l, all, batch, LogGroup) && Placed(s, all, batch, SnapshotGroup) && Placed(n, all, batch, NetworkGroup)
    ensures Distinct(l + s + n) && From(l + s + n, all)
  {
  }

  /** Sorting the three groups' results gives the results of the batch in order. */
  lemma {:induction false} MergedInOrder<S>(b: Backend<S>, w: World<S>, batch: seq<IoAction>)
    ensures var l := RunGroup(b.log, w.log, Part(batch, LogGroup)).1;
      var s := RunGroup(b.snapshots, w.snapshots, Part(batch, SnapshotGroup)).1;
      var n := RunGroup(b.network, w.network, Part(batch, NetworkGroup)).1;
      var sorted := SortByPlace(l + s + n);
      |sorted| == |batch| && forall i | 0 <= i < |batch| :: sorted[i] == (i, InOrder(b, w, batch).1[i])
  {
    hide RunGroup, Part, InOrder, Placed, SortByPlace;
    var l := RunGroup(b.log, w.log, Part(batch, LogGroup)).1;
    var s := RunGroup(b.snapshots, w.snapshots, Part(batch, SnapshotGroup)).1;
    var n := RunGroup(b.network, w.network, Part(batch, NetworkGroup)).1;
    var all := InOrder(b, w, batch).1;
    GroupAlone(b, w, batch, LogGroup);
    GroupAlone(b, w, batch, SnapshotGroup);
    GroupAlone(b, w, batch, NetworkGroup);
    PartSizes(batch);
    GroupSize(b.log, w.log, Part(batch, LogGroup));
    GroupSize(b.snapshots, w.snapshots, Part(batch, SnapshotGroup));
    GroupSize(b.network, w.network, Part(batch, NetworkGroup));
    GroupsDistinct(l, s, n, all, batch);
    SortedAtPlace(l + s + n, all);
  }

  // ---- Any interleaving ----

  /** Where a group has got to: its store, its results, and its next action. */
  datatype Lane<S> = Lane(store: S, results: seq<(nat, IoResult)>, next: nat)

  ghost predicate LaneAt<S>(d: Device<S>, s: S, part: seq<(nat, IoAction)>, lane: Lane<S>) {
    lane.next <= |part| && (lane.store, lane.results) == RunGroup(d, s, part[..lane.next])
  }

  /** One more action of a group, if it has any left. */
  method RunNext<S>(d: Device<S>, ghost s: S, part: seq<(nat, IoAction)>, lane: Lane<S>) returns (after: Lane<S>)
    requires LaneAt(d, s, part, lane)
    ensures LaneAt(d, s, part, after) && after.next == Min(lane.next + 1, |part|)
  {
    if lane.next == |part| { return lane; }
    var (idx, action) := part[lane.next];
    var r := d(lane.store, action);
    after := Lane(r.0, lane.results + [(idx, ResultOf(action, r.1))], lane.next + 1);
    assert part[..lane.next + 1][..lane.next] == part[..lane.next];
  }

  /** The schedule lets every group finish. */
  ghost predicate Finishes(schedule: seq<Group>, batch: seq<IoAction>) {
    forall g: Group :: |Part(batch, g)| <= Occurrences(schedule, g)
  }

  /** The places of one group among those that ran. */
  function Only(ran: seq<nat>, batch: seq<IoAction>, g: Group): seq<nat> {
    if ran == [] then []
    else
      var i := ran[|ran| - 1];
      var rest := Only(ran[..|ran| - 1], batch, g);
      if i < |batch| && GroupOf(batch[i]) == g then rest + [i] else rest
  }

  function Places(part: seq<(nat, IoAction)>): seq<nat> {
    if part == [] then [] else Places(part[..|part| - 1]) + [part[|part| - 1].0]
  }

  lemma {:induction false} PartAt(batch: seq<IoAction>, g: Group, k: nat)
    requires k < |Part(batch, g)|
    ensures var x := Part(batch, g)[k]; x.0 < |batch| && batch[x.0] == x.1 && GroupOf(x.1) == g
    decreases |batch|
  {
    var n := |batch| - 1;
    if k < |Part(batch[..n], g)| { PartAt(batch[..n], g, k); }
  }

  /** A group holds exactly the places of its actions, in batch order. */
  lemma {:induction false} PlacesOfGroup(batch: seq<IoAction>, g: Group, i: nat)
    ensures i in Places(Part(batch, g)) <==> i < |batch| && GroupOf(batch[i]) == g
    ensures forall j, k | 0 <= j < k < |Places(Part(batch, g))| :: Places(Part(batch, g))[j] < Places(Part(batch, g))[k]
    ensures forall k | 0 <= k < |Places(Part(batch, g))| :: Places(Part(batch, g))[k] < |batch|
    decreases |batch|
  {
    if batch != [] {
      var n := |batch| - 1;
      var rest := Part(batch[..n], g);
      PlacesOfGroup(batch[..n], g, i);
      if GroupOf(batch[n]) == g {
        assert Part(batch, g)[..|rest|] == rest;
        assert Places(Part(batch, g)) == Places(rest) + [n];
      }
    }
  }

  /** The trace so far runs each group in batch order, up to where its lane is. */
  ghost predicate TraceAt(ran: seq<nat>, batch: seq<IoAction>, l: nat, s: nat, n: nat) {
    && l <= |Part(batch, LogGroup)| && s <= |Part(batch, SnapshotGroup)| && n <= |Part(batch, NetworkGroup)|
    && |ran| == l + s + n
    && Only(ran, batch, LogGroup) == Places(Part(batch, LogGroup)[..l])
    && Only(ran, batch, SnapshotGroup) == Places(Part(batch, SnapshotGroup)[..s])
    && Only(ran, batch, NetworkGroup) == Places(Part(batch, NetworkGroup)[..n])
  }

  lemma {:induction false} TraceStep(ran: seq<nat>, batch: seq<IoAction>, l: nat, s: nat, n: nat, g: Group)
    requires TraceAt(ran, batch, l, s, n)
    requires var k := match g case LogGroup => l case SnapshotGroup => s case NetworkGroup => n; k < |Part(batch, g)|
    ensures var k := match g case LogGroup => l case SnapshotGroup => s case NetworkGroup => n;
      var more := ran + [Part(batch, g)[k].0];
      match g
      case LogGroup => TraceAt(more, batch, l + 1, s, n)
      case SnapshotGroup => TraceAt(more, batch, l, s + 1, n)
      case NetworkGroup => TraceAt(more, batch, l, s, n + 1)
  {
    hide Part, GroupOf;
    var k := match g case LogGroup => l case SnapshotGroup => s case NetworkGroup => n;
    PartAt(batch, g, k);
    var more := ran + [Part(batch, g)[k].0];
    assert more[..|ran|] == ran;
    assert Part(batch, g)[..k + 1][..k] == Part(batch, g)[..k];
  }

  /** Every place ran once, and the actions of a store ran in batch order. */
  ghost predicate RanInOrder(ran: seq<nat>, batch: seq<IoAction>) {
    && |ran| == |batch| && (forall i | 0 <= i < |batch| :: i in ran)
    && (forall p, q | 0 <= p < q < |ran| && ran[p] < |batch| && ran[q] < |batch| && SameStore(batch[ran[p]], batch[ran[q]]) ::
          ran[p] < ran[q])
  }

  lemma {:induction false} OnlyHolds(ran: seq<nat>, batch: seq<IoAction>, g: Group, i: nat)
    ensures i in Only(ran, batch, g) <==> i in ran && i < |batch| && GroupOf(batch[i]) == g
    decreases |ran|
  {
    hide GroupOf;
    if ran != [] {
      OnlyHolds(ran[..|ran| - 1], batch, g, i);
      assert ran == ran[..|ran| - 1] + [ran[|ran| - 1]];
    }
  }

  ghost predicate Rising(xs: seq<nat>) {
    forall j, k | 0 <= j < k < |xs| :: xs[j] < xs[k]
  }

  lemma {:induction false} RisesInOrder(ran: seq<nat>, batch: seq<IoAction>, g: Group, p: nat, q: nat)
    requires Rising(Only(ran, batch, g)) && p < q < |ran| && ran[p] < |batch| && ran[q] < |batch|
    requires GroupOf(batch[ran[p]]) == g && GroupOf(batch[ran[q]]) == g
    ensures ran[p] < ran[q]
    decreases |ran|
  {
    hide GroupOf;
    var n := |ran| - 1;
    var rest := Only(ran[..n], batch, g);
    if q < n {
      RisesOnly(ran, batch, g);
      RisesInOrder(ran[..n], batch, g, p, q);
    } else {
      OnlyHolds(ran[..n], batch, g, ran[p]);
      assert ran[..n][p] == ran[p];
      var k :| 0 <= k < |rest| && rest[k] == ran[p];
      assert Only(ran, batch, g)[k] == ran[p] && Only(ran, batch, g)[|rest|] == ran[q];
    }
  }

  lemma {:induction false} RisesOnly(ran: seq<nat>, batch: seq<IoAction>, g: Group)
    requires ran != [] && Rising(Only(ran, batch, g))
    ensures Rising(Only(ran[..|ran| - 1], batch, g))
  {
    hide GroupOf;
    var rest := Only(ran[..|ran| - 1], batch, g);
    assert forall k | 0 <= k < |rest| :: Only(ran, batch, g)[k] == rest[k];
  }

  lemma {:induction false} TraceInOrder(ran: seq<nat>, batch: seq<IoAction>)
    requires |ran| == |batch| && forall g: Group :: Only(ran, batch, g) == Places(Part(batch, g))
    ensures RanInOrder(ran, batch)
  {
    hide Only, Places, Part;
    forall i | 0 <= i < |batch| ensures i in ran {
      PlacesOfGroup(batch, GroupOf(batch[i]), i);
      OnlyHolds(ran, batch, GroupOf(batch[i]), i);
    }
    forall p, q | 0 <= p < q < |ran| && ran[p] < |batch| && ran[q] < |batch| && SameStore(batch[ran[p]], batch[ran[q]])
      ensures ran[p] < ran[q]
    {
      var g := GroupOf(batch[ran[p]]);
      PlacesOfGroup(batch, g, 0);
      RisesInOrder(ran, batch, g, p, q);
    }
  }

  /** Splits the batch by store, keeping each action's place. */
  method Partition(batch: seq<IoAction>) returns (l: seq<(nat, IoAction)>, s: seq<(nat, IoAction)>, n: seq<(nat, IoAction)>)
    ensures l == Part(batch, LogGroup) && s == Part(batch, SnapshotGroup) && n == Part(batch, NetworkGroup)
  {
    l, s, n := [], [], [];
    for i := 0 to |batch|
      invariant l == Part(batch[..i], LogGroup) && s == Part(batch[..i], SnapshotGroup) && n == Part(batch[..i], NetworkGroup)
    {
      assert batch[..i + 1][..i] == batch[..i];
      match batch[i] {
        case AppendLog(_) => l := l + [(i, batch[i])];
        case TruncateSuffix(_) => l := l + [(i, batch[i])];
        case TruncatePrefix(_) => l := l + [(i, batch[i])];
        case SaveSnapshot(_) => s := s + [(i, batch[i])];
        case SendRpc(_, _) => n := n + [(i, batch[i])];
      }
    }
    assert batch[..|batch|] == batch;
  }

  /** Runs the three groups as the schedule interleaves them. */
  method Interleave<S>(b: Backend<S>, w: World<S>, batch: seq<IoAction>, schedule: seq<Group>)
    returns (l: Lane<S>, s: Lane<S>, n: Lane<S>, ran: seq<nat>)
    requires Finishes(schedule, batch)
    ensures LaneAt(b.log, w.log, Part(batch, LogGroup), l) && l.next == |Part(batch, LogGroup)|
    ensures LaneAt(b.snapshots, w.snapshots, Part(batch, SnapshotGroup), s) && s.next == |Part(batch, SnapshotGroup)|
    ensures LaneAt(b.network, w.network, Part(batch, NetworkGroup), n) && n.next == |Part(batch, NetworkGroup)|
    ensures TraceAt(ran, batch, l.next, s.next, n.next)
  {
    hide Part, RunGroup, GroupOf, Only, Places;
    var logs, snaps, nets := Partition(batch);
    l, s, n, ran := Lane(w.log, [], 0), Lane(w.snapshots, [], 0), Lane(w.network, [], 0), [];
    LaneStarts(b.log, w.log, logs);
    LaneStarts(b.snapshots, w.snapshots, snaps);
    LaneStarts(b.network, w.network, nets);
    TraceStarts(batch);
    for i := 0 to |schedule|
      invariant LaneAt(b.log, w.log, logs, l) && l.next == Min(Occurrences(schedule[..i], LogGroup), |logs|)
      invariant LaneAt(b.snapshots, w.snapshots, snaps, s) && s.next == Min(Occurrences(schedule[..i], SnapshotGroup), |snaps|)
      invariant LaneAt(b.network, w.network, nets, n) && n.next == Min(Occurrences(schedule[..i], NetworkGroup), |nets|)
      invariant TraceAt(ran, batch, l.next, s.next, n.next)
    {
      assert schedule[..i + 1][..i] == schedule[..i];
      match schedule[i] {
        case LogGroup =>
          if l.next < |logs| {
            TraceStep(ran, batch, l.next, s.next, n.next, LogGroup);
            ran := ran + [logs[l.next].0];
          }
          l := RunNext(b.log, w.log, logs, l);
        case SnapshotGroup =>
          if s.next < |snaps| {
            TraceStep(ran, batch, l.next, s.next, n.next, SnapshotGroup);
            ran := ran + [snaps[s.next].0];
          }
          s := RunNext(b.snapshots, w.snapshots, snaps, s);
        case NetworkGroup =>
          if n.next < |nets| {
            TraceStep(ran, batch, l.next, s.next, n.next, NetworkGroup);
            ran := ran + [nets[n.next].0];
          }
          n := RunNext(b.network, w.network, nets, n);
      }
    }
    assert schedule[..|schedule|] == schedule;
    assert |logs| <= Occurrences(schedule, LogGroup) && |snaps| <= Occurrences(schedule, SnapshotGroup) && |nets| <= Occurrences(schedule, NetworkGroup);
  }

  lemma {:induction false} LaneStarts<S>(d: Device<S>, s: S, part: seq<(nat, IoAction)>)
    ensures LaneAt(d, s, part, Lane(s, [], 0))
  {
  }

  lemma {:induction false} TraceStarts(batch: seq<IoAction>)
    ensures TraceAt([], batch, 0, 0, 0)
  {
  }

  lemma {:induction false} LaneEnds<S>(d: Device<S>, s: S, part: seq<(nat, IoAction)>, lane: Lane<S>)
    requires LaneAt(d, s, part, lane) && lane.next == |part|
    ensures (lane.store, lane.results) == RunGroup(d, s, part)
  {
    assert part[..|part|] == part;
  }

  /** Sorts the results by place and drops the places. */
  method Merge(xs: seq<(nat, IoResult)>) returns (results: seq<IoResult>)
    ensures |results| == |xs| == |SortByPlace(xs)|
    ensures forall i | 0 <= i < |xs| :: results[i] == SortByPlace(xs)[i].1
  {
    var sorted := SortByPlace(xs);
    SortKeeps(xs, 0, []);
    results := [];
    for i := 0 to |sorted|
      invariant |results| == i && forall k | 0 <= k < i :: results[k] == sorted[k].1
    {
      results := results + [sorted[i].1];
    }
  }

  /**
   However the three groups interleave, every store ends as the actions meant
   for it leave it, in batch order and once each, result i is what that store
   says of action i, and no action overtakes an earlier one of its store.
   */
  method Execute<S>(b: Backend<S>, w: World<S>, batch: seq<IoAction>, schedule: seq<Group>)
    returns (after: World<S>, results: seq<IoResult>, ran: seq<nat>)
    requires Finishes(schedule, batch)
    ensures (after, results) == InOrder(b, w, batch)
    ensures after.log == Fed(b.log, w.log, batch, ForLog)
    ensures after.snapshots == Fed(b.snapshots, w.snapshots, batch, ForSnapshots)
    ensures after.network == Fed(b.network, w.network, batch, ForNetwork)
    ensures |results| == |batch| && forall i | 0 <= i < |batch| :: Answers(b, w, batch, i, results[i])
    ensures RanInOrder(ran, batch)
  {
    hide Part, RunGroup, InOrder, LaneAt, SortByPlace, Finishes, Fed, Answers, RanInOrder;
    var l, s, n;
    l, s, n, ran := Interleave(b, w, batch, schedule);
    LaneEnds(b.log, w.log, Part(batch, LogGroup), l);
    LaneEnds(b.snapshots, w.snapshots, Part(batch, SnapshotGroup), s);
    LaneEnds(b.network, w.network, Part(batch, NetworkGroup), n);
    results := Merge(l.results + s.results + n.results);
    after := World(l.store, s.store, n.store);
    Merged(b, w, batch, after, results);
    InOrderFeeds(b, w, batch);
    forall i | 0 <= i < |batch| ensures Answers(b, w, batch, i, results[i]) { InOrderAnswers(b, w, batch, i); }
    AllRan(ran, batch, l.next, s.next, n.next);
  }

  lemma {:induction false} Merged<S>(b: Backend<S>, w: World<S>, batch: seq<IoAction>, after: World<S>, results: seq<IoResult>)
    requires var l := RunGroup(b.log, w.log, Part(batch, LogGroup));
      var s := RunGroup(b.snapshots, w.snapshots, Part(batch, SnapshotGroup));
      var n := RunGroup(b.network, w.network, Part(batch, NetworkGroup));
      var sorted := SortByPlace(l.1 + s.1 + n.1);
      && after == World(l.0, s.0, n.0)
      && |results| == |sorted| && forall i | 0 <= i < |sorted| :: results[i] == sorted[i].1
    ensures (after, results) == InOrder(b, w, batch)
  {
    hide Part, RunGroup, InOrder, SortByPlace;
    GroupAlone(b, w, batch, LogGroup);
    GroupAlone(b, w, batch, SnapshotGroup);
    GroupAlone(b, w, batch, NetworkGroup);
    MergedInOrder(b, w, batch);
    assert results == InOrder(b, w, batch).1;
  }

  lemma {:induction false} AllRan(ran: seq<nat>, batch: seq<IoAction>, l: nat, s: nat, n: nat)
    requires TraceAt(ran, batch, l, s, n)
    requires l == |Part(batch, LogGroup)| && s == |Part(batch, SnapshotGroup)| && n == |Part(batch, NetworkGroup)|
    ensures RanInOrder(ran, batch)
  {
    hide Part, RanInOrder, Only, Places;
    PartSizes(batch);
    forall g: Group ensures Only(ran, batch, g) == Places(Part(batch, g)) {
      assert Part(batch, g)[..|Part(batch, g)|] == Part(batch, g);
      match g
      case LogGroup =>
      case SnapshotGroup =>
      case NetworkGroup =>
    }
    TraceInOrder(ran, batch);
  }
}
