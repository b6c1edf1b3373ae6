/**
 The queue of client completions parked by log offset: a committed offset
 completes its senders, a truncated one drops them.
 */
module DeferredCompletion {
  import opened Types
  import opened SortedKeys

  type Sender = nat

  /** One parked completion. */
  datatype Ticket = Ticket(offset: Offset, sender: Sender)

  type Pending = map<Offset, seq<Sender>>

  /** The parked senders, and what their receivers have observed so far, in order. */
  datatype Queue = Queue(pending: Pending, fired: seq<Ticket>, dropped: seq<Ticket>)

  function Tickets(o: Offset, senders: seq<Sender>): (ts: seq<Ticket>)
    ensures |ts| == |senders|
    ensures forall i | 0 <= i < |ts| :: ts[i] == Ticket(o, senders[i])
  {
    if senders == [] then []
    else Tickets(o, senders[..|senders| - 1]) + [Ticket(o, senders[|senders| - 1])]
  }

  /** The tickets parked at the given offsets, offset by offset. */
  function Take(p: Pending, keys: seq<Offset>): seq<Ticket>
    requires forall k | k in keys :: k in p
  {
    if keys == [] then []
    else
      var last := keys[|keys| - 1];
      Take(p, keys[..|keys| - 1]) + Tickets(last, p[last])
  }

  function Below(p: Pending, bound: Offset): set<Offset> {
    set o | o in p && o < bound
  }

  function AtOrAbove(p: Pending, bound: Offset): set<Offset> {
    set o | o in p && o >= bound
  }

  function Drop(p: Pending, o: Offset): Pending {
    map k | k in p && k != o :: p[k]
  }

  /** The queue map after removing the given offsets one by one. */
  function Remove(p: Pending, keys: seq<Offset>): Pending {
    if keys == [] then p else Drop(Remove(p, keys[..|keys| - 1]), keys[|keys| - 1])
  }

  lemma {:induction false} Removed(p: Pending, keys: seq<Offset>)
    ensures forall k :: k in Remove(p, keys) <==> k in p && k !in keys
    ensures forall k | k in Remove(p, keys) :: Remove(p, keys)[k] == p[k]
  {
    if keys != [] {
      Removed(p, keys[..|keys| - 1]);
      assert keys == keys[..|keys| - 1] + [keys[|keys| - 1]];
    }
  }

  /** One step of an ascending walk over parked offsets. */
  lemma {:induction false} WalkStep(p: Pending, keys: seq<Offset>, i: nat)
    requires Ascending(keys) && i < |keys| && forall k | k in keys :: k in p
    ensures keys[i] in Remove(p, keys[..i]) && Remove(p, keys[..i])[keys[i]] == p[keys[i]]
    ensures Remove(p, keys[..i + 1]) == Drop(Remove(p, keys[..i]), keys[i])
    ensures Take(p, keys[..i + 1]) == Take(p, keys[..i]) + Tickets(keys[i], p[keys[i]])
  {
    Removed(p, keys[..i]);
    assert keys[..i + 1][..i] == keys[..i];
  }

  function Park(q: Queue, t: Ticket): Queue {
    var parked := if t.offset in q.pending then q.pending[t.offset] else [];
    q.(pending := q.pending[t.offset := parked + [t.sender]])
  }

  function Complete(q: Queue, hw: Offset): Queue {
    var keys := Sorted(Below(q.pending, hw));
    Queue(Remove(q.pending, keys), q.fired + Take(q.pending, keys), q.dropped)
  }

  function FailAtOrAbove(q: Queue, threshold: Offset): Queue {
    var keys := Sorted(AtOrAbove(q.pending, threshold));
    Queue(Remove(q.pending, keys), q.fired, q.dropped + Take(q.pending, keys))
  }

  // ---- No completion is lost, duplicated or made up ----

  lemma {:induction false} OccurrencesConcat<T>(a: seq<T>, b: seq<T>, x: T)
    ensures Occurrences(a + b, x) == Occurrences(a, x) + Occurrences(b, x)
  {
    if b == [] {
      assert a + b == a;
    } else {
      assert (a + b)[..|a + b| - 1] == a + b[..|b| - 1];
      OccurrencesConcat(a, b[..|b| - 1], x);
    }
  }

  /** How often a ticket is still parked. */
  function Parked(p: Pending, t: Ticket): nat {
    if t.offset in p then Occurrences(p[t.offset], t.sender) else 0
  }

  /** How often a ticket is accounted for: still parked, fired or dropped. */
  function Accounted(q: Queue, t: Ticket): nat {
    Parked(q.pending, t) + Occurrences(q.fired, t) + Occurrences(q.dropped, t)
  }

  lemma {:induction false} TicketsCount(o: Offset, senders: seq<Sender>, t: Ticket)
    ensures Occurrences(Tickets(o, senders), t) == if t.offset == o then Occurrences(senders, t.sender) else 0
  {
    if senders != [] {
      var n := |senders| - 1;
      TicketsCount(o, senders[..n], t);
      assert Tickets(o, senders)[..n] == Tickets(o, senders[..n]);
    }
  }

  /** Taking ascending offsets takes each ticket parked there as often as it is parked. */
  lemma {:induction false} TakeCount(p: Pending, keys: seq<Offset>, t: Ticket)
    requires Ascending(keys) && forall k | k in keys :: k in p
    ensures Occurrences(Take(p, keys), t) == if t.offset in keys then Parked(p, t) else 0
  {
    if keys != [] {
      var n := |keys| - 1;
      TakeCount(p, keys[..n], t);
      TicketsCount(keys[n], p[keys[n]], t);
      OccurrencesConcat(Take(p, keys[..n]), Tickets(keys[n], p[keys[n]]), t);
      assert t.offset in keys <==> t.offset in keys[..n] || t.offset == keys[n];
    }
  }

  lemma {:induction false} ParkAccounts(q: Queue, t: Ticket, u: Ticket)
    ensures Accounted(Park(q, t), u) == Accounted(q, u) + if u == t then 1 else 0
  {
    if u.offset == t.offset {
      var before := if t.offset in q.pending then q.pending[t.offset] else [];
      OccurrencesConcat(before, [t.sender], u.sender);
      assert u == t <==> u.sender == t.sender;
    }
  }

  lemma {:induction false} CompleteAccounts(q: Queue, hw: Offset, t: Ticket)
    ensures Accounted(Complete(q, hw), t) == Accounted(q, t)
  {
    var keys := Sorted(Below(q.pending, hw));
    Removed(q.pending, keys);
    TakeCount(q.pending, keys, t);
    OccurrencesConcat(q.fired, Take(q.pending, keys), t);
  }

  lemma {:induction false} FailAccounts(q: Queue, threshold: Offset, t: Ticket)
    ensures Accounted(FailAtOrAbove(q, threshold), t) == Accounted(q, t)
  {
    var keys := Sorted(AtOrAbove(q.pending, threshold));
    Removed(q.pending, keys);
    TakeCount(q.pending, keys, t);
    OccurrencesConcat(q.dropped, Take(q.pending, keys), t);
  }

  // ---- Order ----

  ghost predicate OffsetOrdered(ts: seq<Ticket>) {
    forall i, j | 0 <= i < j < |ts| :: ts[i].offset <= ts[j].offset
  }

  /** Taking ascending offsets yields tickets of those offsets, in offset order. */
  lemma {:induction false} TakeOrdered(p: Pending, keys: seq<Offset>)
    requires Ascending(keys) && forall k | k in keys :: k in p
    ensures OffsetOrdered(Take(p, keys))
    ensures forall t | t in Take(p, keys) :: t.offset in keys && t.sender in p[t.offset]
  {
    if keys != [] {
      var n := |keys| - 1;
      var front := keys[..n];
      TakeOrdered(p, front);
      assert forall t | t in Take(p, front) :: t.offset < keys[n];
    }
  }

  /** The queue object: an ordered map from offset to the senders parked there. */
  class DeferredCompletionQueue {
    var pending: Pending
    var fired: seq<Ticket>
    var dropped: seq<Ticket>

    constructor ()
      ensures View() == Queue(map[], [], [])
    {
      pending, fired, dropped := map[], [], [];
    }

    function View(): Queue
      reads this
    {
      Queue(pending, fired, dropped)
    }

    method ParkSender(o: Offset, sender: Sender)
      modifies this
      ensures View() == Park(old(View()), Ticket(o, sender))
    {
      var parked := if o in pending then pending[o] else [];
      pending := pending[o := parked + [sender]];
    }

    /** Fires every sender below the high watermark; returns how many fired. */
    method CompleteBelow(hw: Offset) returns (count: nat)
      modifies this
      ensures View() == Complete(old(View()), hw)
      ensures |fired| == |old(fired)| + count
    {
      var taken;
      pending, taken := RemoveEach(pending, Sorted(Below(pending, hw)));
      fired := fired + taken;
      count := |taken|;
    }

    /** Drops every sender at or above the threshold; returns how many were dropped. */
    method FailFrom(threshold: Offset) returns (count: nat)
      modifies this
      ensures View() == FailAtOrAbove(old(View()), threshold)
      ensures |dropped| == |old(dropped)| + count
    {
      var taken;
      pending, taken := RemoveEach(pending, Sorted(AtOrAbove(pending, threshold)));
      dropped := dropped + taken;
      count := |taken|;
    }
  }

  /** Removes the collected offsets one by one, gathering their senders in order. */
  method RemoveEach(p: Pending, offsets: seq<Offset>) returns (rest: Pending, taken: seq<Ticket>)
    requires Ascending(offsets) && forall k | k in offsets :: k in p
    ensures rest == Remove(p, offsets) && taken == Take(p, offsets)
  {
    rest, taken := p, [];
    for i := 0 to |offsets|
      invariant rest == Remove(p, offsets[..i])
      invariant taken == Take(p, offsets[..i])
    {
      var o := offsets[i];
      WalkStep(p, offsets, i);
      var sent := SendAll(o, rest[o]);
      taken := taken + sent;
      rest := Drop(rest, o);
    }
    assert offsets[..|offsets|] == offsets;
  }

  /** One ticket per sender, in parking order. */
  method SendAll(o: Offset, senders: seq<Sender>) returns (sent: seq<Ticket>)
    ensures sent == Tickets(o, senders)
  {
    sent := [];
    for j := 0 to |senders|
      invariant sent == Tickets(o, senders[..j])
    {
      assert senders[..j + 1][..j] == senders[..j];
      sent := sent + [Ticket(o, senders[j])];
    }
    assert senders[..|senders|] == senders;
  }
}
