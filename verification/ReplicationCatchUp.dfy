/**
 A follower that fetches from one leader ends with that leader's log: from any
 point where the two logs agree, whatever sizes the answers have.
 */
module ReplicationCatchUp {
  import opened Types
  import opened Replication
  import opened ReplicationRun
  import opened ReplicationQuorum
  import opened ReplicationExact
  import LogSpec

  /** A leader, its log and how much of it is committed. */
  datatype Peer = Peer(id: NodeId, clusterId: nat, term: Term, log: Log, hw: Offset)

  /** Its log is contiguous, commits what it has, and the application can take what is committed. */
  ghost predicate Sound(l: Peer, decode: VotersDecoder) {
    l.log.Contiguous() && l.log.start <= l.hw <= l.log.End() && !AnyFails(l.log.entries, decode, {})
  }

  /** An answer of some entries from an offset on. */
  function Serve(l: Peer, from: Offset, n: nat): Envelope {
    Envelope(l.clusterId, l.id, Fetched(FetchResponse(l.id, l.term, l.hw, l.log.start, l.log.Read(from, from + n), None, None)))
  }

  /** Where the follower asks a leader to go on, if it asks it. */
  function Asked(n: NodeState, leader: NodeId): Option<Offset> {
    var actions := FetchActions(n);
    if |actions| == 1 && actions[0].SendRpc? && actions[0].target == leader && actions[0].rpc.FetchRequest?
    then Some(actions[0].rpc.fetchOffset) else None
  }

  /** One round: the follower asks, the leader answers with up to n entries. */
  function Round(w: World, l: Peer, n: nat, decode: VotersDecoder): World {
    match Asked(w.follower.node, l.id)
    case None => w
    case Some(from) => Step(w, Deliver(Serve(l, from, n), {}), decode)
  }

  function Rounds(w: World, l: Peer, sizes: seq<nat>, decode: VotersDecoder): World
    decreases |sizes|
  {
    if sizes == [] then w
    else Round(Rounds(w, l, sizes[..|sizes| - 1], decode), l, sizes[|sizes| - 1], decode)
  }

  function Sum(sizes: seq<nat>): nat {
    if sizes == [] then 0 else Sum(sizes[..|sizes| - 1]) + sizes[|sizes| - 1]
  }

  /** The follower follows this leader and its log is a front of the leader's. */
  ghost predicate Trails(n: NodeState, l: Peer) {
    && n.clusterId == l.clusterId && n.term == l.term && n.role == Role.Follower && n.leaderId == Some(l.id)
    && n.log.start == l.log.start && n.log.entries <= l.log.entries
    && n.log.start <= n.hw <= n.log.End() && n.hw <= l.hw
  }

  /** The first entries of a log, at most n. */
  function Front(log: Log, n: nat): Log {
    LogSpec.Log(log.start, log.entries[..Min(n, |log.entries|)])
  }

  // ---- One round ----

  lemma {:induction false} NoFailureWithin(es: seq<LogEntry>, some: seq<LogEntry>, a: nat, decode: VotersDecoder, rejects: set<Offset>)
    requires !AnyFails(es, decode, rejects) && a + |some| <= |es| && some == es[a..a + |some|]
    ensures !AnyFails(some, decode, rejects)
  {
    forall i | 0 <= i < |some| ensures !Fails(some[i], decode, rejects) {
      assert some[i] == es[a + i];
    }
  }

  /** What is served continues the follower's log. */
  lemma {:induction false} ServedFits(n: NodeState, l: Peer, size: nat, decode: VotersDecoder)
    requires Trails(n, l) && Sound(l, decode)
    ensures var r := Serve(l, n.log.End(), size).payload.response;
      && !Misplaced(n.log, r.entries)
      && n.log.Append(r.entries) == Front(l.log, |n.log.entries| + size)
  {
    hide AnyFails, Consecutive;
    var a := |n.log.entries|;
    var b := Min(a + size, |l.log.entries|);
    assert n.log.End() == l.log.start + a && n.log.entries == l.log.entries[..a];
    ServedRead(l.log, a, size);
    FrontGrows(l.log.entries, a, b);
    ServedInOrder(l.log, a, size);
    assert Serve(l, n.log.End(), size).payload.response.entries == l.log.entries[a..b];
  }

  lemma {:induction false} ServedRead(log: Log, a: nat, size: nat)
    requires a <= |log.entries|
    ensures log.Read(log.start + a, log.start + a + size) == log.entries[a..Min(a + size, |log.entries|)]
  {
    var lo, hi := Max(log.start + a, log.start), Min(log.start + a + size, log.End());
    var b := Min(a + size, |log.entries|);
    assert lo - log.start == a && hi - log.start == b;
    if lo >= hi { assert a == b && log.entries[a..b] == []; }
  }

  lemma {:induction false} FrontGrows(es: seq<LogEntry>, a: nat, b: nat)
    requires a <= b <= |es|
    ensures es[..a] + es[a..b] == es[..b]
  {
  }

  lemma {:induction false} ServedInOrder(log: Log, a: nat, size: nat)
    requires log.Contiguous() && a <= |log.entries|
    ensures var es := log.entries[a..Min(a + size, |log.entries|)];
      Consecutive(es) && (es != [] ==> es[0].offset == log.start + a)
  {
  }

  lemma {:induction false} FrontRead(log: Log, k: nat, lo: Offset, hi: Offset)
    requires log.start <= lo && hi <= Front(log, k).End()
    ensures Front(log, k).Read(lo, hi) == log.Read(lo, hi)
  {
    if lo < hi {
      var a, b, n := lo - log.start, hi - log.start, Min(k, |log.entries|);
      LogSpec.SliceOfFront(log.entries, n, a, b);
    }
  }

  /** What a served answer commits is what the leader has there. */
  lemma {:induction false} NewlyFromLeader(n: NodeState, l: Peer, size: nat)
    requires Trails(n, l) && l.log.start <= l.hw <= l.log.End()
    requires n.log.Append(l.log.Read(n.log.End(), n.log.End() + size)) == Front(l.log, |n.log.entries| + size)
    ensures var r := Serve(l, n.log.End(), size).payload.response; var log := n.log.Append(r.entries);
      NewlyCommitted(n, r) == l.log.Read(n.hw, Max(n.hw, Min(l.hw, log.End())))
  {
    NewlyInFront(l.log, |n.log.entries| + size, n.hw, l.hw);
  }

  lemma {:induction false} NewlyInFront(log: Log, k: nat, hw: Offset, leaderHw: Offset)
    requires log.start <= hw
    ensures var front := Front(log, k);
      front.Read(hw, Min(leaderHw, front.End())) == log.Read(hw, Max(hw, Min(leaderHw, front.End())))
  {
    FrontRead(log, k, hw, Min(leaderHw, Front(log, k).End()));
  }

  lemma {:induction false} ReadTakes(log: Log, lo: Offset, hi: Offset, decode: VotersDecoder)
    requires log.start <= lo && hi <= log.End() && !AnyFails(log.entries, decode, {})
    ensures !AnyFails(log.Read(lo, hi), decode, {})
  {
    hide AnyFails;
    if lo < hi {
      NoFailureWithin(log.entries, log.Read(lo, hi), lo - log.start, decode, {});
    } else {
      NoneFails(decode, {});
    }
  }

  lemma {:induction false} ServedAccepted(f: Follower, l: Peer, size: nat, decode: VotersDecoder)
    requires Trails(f.node, l) && Sound(l, decode)
    ensures var m := Serve(l, f.node.log.End(), size);
      Heard(f, m) && Plain(m.payload.response) && !Refuses(f.node, m.payload.response, decode, {})
  {
    hide AnyFails, Misplaced, NewlyCommitted, Front;
    var n, r := f.node, Serve(l, f.node.log.End(), size).payload.response;
    ServedFits(n, l, size, decode);
    NewlyFromLeader(n, l, size);
    ReadTakes(l.log, n.hw, Max(n.hw, Min(l.hw, n.log.Append(r.entries).End())), decode);
  }

  /** What a round adds: the next entries, the watermark they allow, and the commands it commits. */
  ghost predicate Advanced(w: World, v: World, l: Peer, size: nat) {
    var n, k := w.follower.node, v.follower.node;
    && !v.halted && Trails(k, l)
    && k.log == Front(l.log, |n.log.entries| + size)
    && k.hw == Max(n.hw, Min(l.hw, k.log.End()))
    && v.follower.app.applied == w.follower.app.applied + Commands(l.log.Read(n.hw, k.hw))
    && (w.durable == n.log ==> v.durable == k.log)
  }

  lemma {:induction false} RoundAdvances(w: World, l: Peer, size: nat, decode: VotersDecoder)
    requires !w.halted && Trails(w.follower.node, l) && Sound(l, decode)
    ensures Advanced(w, Round(w, l, size, decode), l, size)
  {
    hide HandleMessage, Sound, Commands, Replay, StoredAfter, LowestAfter, Serve;
    var f := w.follower;
    assert Asked(f.node, l.id) == Some(f.node.log.End());
    ServedGrows(f, l, size, decode);
  }

  /** What the follower makes of an answer to its own request. */
  lemma {:induction false} ServedGrows(f: Follower, l: Peer, size: nat, decode: VotersDecoder)
    requires Trails(f.node, l) && Sound(l, decode)
    ensures var s := HandleMessage(f, Serve(l, f.node.log.End(), size), decode, {});
      var n, k := f.node, s.follower.node;
      && s.outcome.Ok? && Trails(k, l)
      && k.log == Front(l.log, |n.log.entries| + size)
      && k.hw == Max(n.hw, Min(l.hw, k.log.End()))
      && s.follower.app.applied == f.app.applied + Commands(l.log.Read(n.hw, k.hw))
      && Replay(n.log, s.outcome.batch) == k.log
  {
    hide HandleMessage, Refuses, NewlyCommitted, Misplaced, Commands, Replay;
    var m := Serve(l, f.node.log.End(), size);
    ServedAccepted(f, l, size, decode);
    OutcomeExactly(f, m, decode, {});
    ServedFits(f.node, l, size, decode);
    ServedNode(f, l, m, size, decode);
    NewlyFromLeader(f.node, l, size);
    GrowsExactly(f, m, decode, {});
    ReplayGrows(f.node.log, m.payload.response.entries, ToStore(f.node, m.payload.response));
    AppliedNothing(f, m.payload.response, HandleMessage(f, m, decode, {}).follower, l);
  }

  lemma {:induction false} ServedNode(f: Follower, l: Peer, m: Envelope, size: nat, decode: VotersDecoder)
    requires Trails(f.node, l) && Sound(l, decode) && m == Serve(l, f.node.log.End(), size)
    requires Heard(f, m) && Plain(m.payload.response) && !Refuses(f.node, m.payload.response, decode, {})
    requires f.node.log.Append(m.payload.response.entries) == Front(l.log, |f.node.log.entries| + size)
    ensures var n, k := f.node, HandleMessage(f, m, decode, {}).follower.node;
      Trails(k, l) && k.log == Front(l.log, |n.log.entries| + size) && k.hw == Max(n.hw, Min(l.hw, k.log.End()))
  {
    hide HandleMessage, Refuses, NewlyCommitted, Commands, Told;
    GrowsExactly(f, m, decode, {});
    LeaderTaken(f, m, decode, {});
  }

  lemma {:induction false} ReplayGrows(log: Log, es: seq<LogEntry>, persist: Option<QuorumState>)
    ensures Replay(log, (if es == [] then [] else [AppendLog(es)]) + Persist(persist)) == log.Append(es)
  {
    var first := if es == [] then [] else [AppendLog(es)];
    var batch := first + Persist(persist);
    if es == [] { assert log.entries + es == log.entries; }
    assert Replay(log, first) == log.Append(es);
    if persist.Some? { assert batch[..|batch| - 1] == first; } else { assert batch == first; }
  }

  lemma {:induction false} AppliedNothing(f: Follower, r: FetchResponse, g: Follower, l: Peer)
    requires Told(f, r, g) && f.node.hw <= g.node.hw
    requires NewlyCommitted(f.node, r) == l.log.Read(f.node.hw, g.node.hw)
    ensures g.app.applied == f.app.applied + Commands(l.log.Read(f.node.hw, g.node.hw))
  {
    hide NewlyCommitted;
    if g.node.hw == f.node.hw { assert l.log.Read(f.node.hw, g.node.hw) == []; }
  }

  // ---- All of it ----

  lemma {:induction false} RoundsAdvance(w: World, l: Peer, sizes: seq<nat>, decode: VotersDecoder)
    requires !w.halted && Trails(w.follower.node, l) && Sound(l, decode) && sizes != []
    ensures Advanced(w, Rounds(w, l, sizes, decode), l, Sum(sizes))
    decreases |sizes|
  {
    hide Round;
    var front, last := sizes[..|sizes| - 1], sizes[|sizes| - 1];
    var v := Rounds(w, l, front, decode);
    if front == [] {
      assert v == w && Sum(sizes) == last;
      RoundAdvances(w, l, last, decode);
    } else {
      RoundsAdvance(w, l, front, decode);
      RoundAdvances(v, l, last, decode);
      AdvancedTwice(w, v, Rounds(w, l, sizes, decode), l, Sum(front), last);
    }
  }

  lemma {:induction false} AdvancedTwice(w: World, v: World, u: World, l: Peer, a: nat, b: nat)
    requires Advanced(w, v, l, a) && Advanced(v, u, l, b) && Trails(w.follower.node, l)
    requires l.log.start <= l.hw <= l.log.End()
    ensures Advanced(w, u, l, a + b)
  {
    hide Commands;
    var x, y, z := w.follower.node.hw, v.follower.node.hw, u.follower.node.hw;
    ReadSplit(l.log, x, y, z);
    CommandsConcat(l.log.Read(x, y), l.log.Read(y, z));
  }

  /**
   A follower whose log is a front of its leader's, and which keeps fetching
   until the answers cover what it misses, has the leader's log in memory and
   on disk, the leader's high watermark, and has applied every command up to it.
   */
  lemma {:induction false} CatchesUp(w: World, l: Peer, sizes: seq<nat>, decode: VotersDecoder)
    requires !w.halted && Trails(w.follower.node, l) && Sound(l, decode)
    requires w.durable == w.follower.node.log
    requires sizes != [] && |w.follower.node.log.entries| + Sum(sizes) >= |l.log.entries|
    ensures var v := Rounds(w, l, sizes, decode);
      && v.follower.node.log == v.durable == l.log && v.follower.node.hw == l.hw && !v.halted
      && v.follower.app.applied == w.follower.app.applied + Commands(l.log.Read(w.follower.node.hw, l.hw))
  {
    hide Commands;
    RoundsAdvance(w, l, sizes, decode);
    assert l.log.entries[..|l.log.entries|] == l.log.entries;
  }

  /** The answer that tells a follower where its log parts from the leader's. */
  function Diverge(l: Peer, epoch: Term, end: Offset): Envelope {
    Envelope(l.clusterId, l.id, Fetched(FetchResponse(l.id, l.term, l.hw, l.log.start, [], Some(DivergingEpoch(epoch, end)), None)))
  }

  /** The follower may learn of this leader, and the logs agree below a point that is not committed away. */
  ghost predicate MayJoin(n: NodeState, l: Peer, cut: Offset) {
    && n.clusterId == l.clusterId
    && (n.term < l.term || (n.term == l.term && n.role == Role.Follower && (n.leaderId == None || n.leaderId == Some(l.id))))
    && n.log.start == l.log.start <= n.hw <= cut <= Min(n.log.End(), l.log.End())
    && n.log.entries[..cut - n.log.start] == l.log.entries[..cut - n.log.start]
    && n.hw <= l.hw
  }

  /**
   The same for any follower of this or an earlier term, with any uncommitted
   entries: told where the logs part, it drops what follows, asks again from
   exactly there, and catches up.
   */
  lemma {:induction false} RejoinsAndCatchesUp(w: World, l: Peer, epoch: Term, end: Offset, sizes: seq<nat>, decode: VotersDecoder)
    requires var n := w.follower.node; !w.halted && w.durable == n.log && MayJoin(n, l, Min(end, n.log.End())) && Sound(l, decode)
    requires sizes != [] && Min(end, w.follower.node.log.End()) - l.log.start + Sum(sizes) >= |l.log.entries|
    ensures var cut := Min(end, w.follower.node.log.End());
      var joined := Step(w, Deliver(Diverge(l, epoch, end), {}), decode);
      var v := Rounds(joined, l, sizes, decode);
      && joined.follower.node.log == Front(l.log, cut - l.log.start) && Asked(joined.follower.node, l.id) == Some(cut)
      && v.follower.node.log == v.durable == l.log && v.follower.node.hw == l.hw && !v.halted
      && v.follower.app.applied == w.follower.app.applied + Commands(l.log.Read(w.follower.node.hw, l.hw))
  {
    hide HandleMessage, Commands, Replay, StoredAfter, LowestAfter, Diverge, MayJoin, Sound;
    var joined := Step(w, Deliver(Diverge(l, epoch, end), {}), decode);
    Joins(w.follower, l, epoch, end, decode);
    CatchesUp(joined, l, sizes, decode);
  }

  /** What the follower makes of such an answer. */
  lemma {:induction false} Joins(f: Follower, l: Peer, epoch: Term, end: Offset, decode: VotersDecoder)
    requires MayJoin(f.node, l, Min(end, f.node.log.End()))
    ensures var s := HandleMessage(f, Diverge(l, epoch, end), decode, {}); var cut := Min(end, f.node.log.End());
      && s.outcome.Ok? && Trails(s.follower.node, l) && cut >= l.log.start
      && s.follower.node.log == Front(l.log, cut - l.log.start) && s.follower.node.hw == f.node.hw
      && Asked(s.follower.node, l.id) == Some(cut)
      && s.follower.app == f.app && Replay(f.node.log, s.outcome.batch) == s.follower.node.log
  {
    hide HandleMessage, Replay;
    var m := Diverge(l, epoch, end);
    var cut := Min(end, f.node.log.End());
    OutcomeExactly(f, m, decode, {});
    CutsExactly(f, m, decode, {});
    LeaderTaken(f, m, decode, {});
    ReplayCuts(f.node.log, cut, HandleMessage(f, m, decode, {}).outcome.batch[1], ToStore(f.node, m.payload.response));
  }

  lemma {:induction false} ReplayCuts(log: Log, cut: Offset, send: IoAction, persist: Option<QuorumState>)
    requires send.SendRpc? && log.start <= cut <= log.End()
    ensures Replay(log, [TruncateSuffix(cut), send] + Persist(persist)) == LogSpec.Log(log.start, log.entries[..cut - log.start])
  {
    var first := [TruncateSuffix(cut), send];
    var batch := first + Persist(persist);
    assert first[..1] == [TruncateSuffix(cut)];
    assert Replay(log, [TruncateSuffix(cut)]) == log.TruncateSuffix(cut);
    assert Replay(log, first) == log.TruncateSuffix(cut);
    if persist.Some? { assert batch[..2] == first; } else { assert batch == first; }
    assert log.TruncateSuffix(cut).entries == log.entries[..cut - log.start];
  }
}
