/**
 The bounded broadcast between a pump and its subscribers: a ring of slots that new
 values overwrite, and receivers that are moved forward when they fall a whole ring
 behind.  Proved to be what `Spine` keeps as a subscriber's `inbox` and `taken`.
 */
module Broadcast {
  import opened Common
  import opened Cutover
  import opened Spine
  import opened SpineInvariant

  // ------------------------------------------------------------ the ring

  datatype Received<T> = Empty | Lagged(missed: nat) | Value(value: T)

  /** What a receiver at position `next` gets, and where it stands afterwards. */
  function RecvAt<T>(sent: seq<T>, capacity: nat, next: nat): (Received<T>, nat)
    requires next <= |sent|
  {
    if next == |sent| then (Empty, next)
    else if |sent| - next > capacity then (Lagged(|sent| - capacity - next), |sent| - capacity)
    else (Value(sent[next]), next + 1)
  }

  lemma SameSlot(p: nat, q: nat, capacity: nat)
    requires capacity > 0 && p < q && p % capacity == q % capacity
    ensures q >= p + capacity
  {
    var a, b, r := p / capacity, q / capacity, p % capacity;
    assert p == a * capacity + r && q == b * capacity + r;
    Multiples(b, a, capacity);
    Multiples(a + 1, b, capacity);
    assert (a + 1) * capacity == a * capacity + capacity;
  }

  lemma SlotsDiffer(p: nat, q: nat, capacity: nat)
    requires capacity > 0 && p < q < p + capacity
    ensures p % capacity != q % capacity
  {
    if p % capacity == q % capacity {
      SameSlot(p, q, capacity);
    }
  }

  class BroadcastChannel {
    const slots: array<Envelope>
    var tail: nat
    /** Everything ever sent; the slots hold the end of it. */
    ghost var sent: seq<Envelope>

    ghost predicate Valid()
      reads this, slots
    {
      && slots.Length > 0 && tail == |sent|
      && forall p: nat {:trigger sent[p]} :: p < tail <= p + slots.Length ==> slots[p % slots.Length] == sent[p]
    }

    constructor (capacity: nat)
      requires capacity > 0
      ensures Valid() && sent == [] && slots.Length == capacity && fresh(slots)
    {
      slots := new Envelope[capacity](_ => Envelope(0, 0));
      tail, sent := 0, [];
    }

    /** Overwrites the oldest slot once the ring is full. */
    method Send(e: Envelope)
      requires Valid()
      modifies this, slots
      ensures Valid() && sent == old(sent) + [e]
    {
      ghost var n := slots.Length;
      forall p: nat | p < tail < p + n
        ensures p % n != tail % n
      {
        SlotsDiffer(p, tail, n);
      }
      slots[tail % slots.Length] := e;
      tail, sent := tail + 1, sent + [e];
    }

    /** What was overwritten is reported as missed; anything else is read from its slot. */
    method Recv(next: nat) returns (r: Received<Envelope>, next': nat)
      requires Valid() && next <= tail
      ensures (r, next') == RecvAt(sent, slots.Length, next)
      ensures next == |sent| ==> r == Empty && next' == next
      ensures next < |sent| && |sent| - next <= slots.Length ==> r == Value(sent[next]) && next' == next + 1
      ensures |sent| - next > slots.Length ==> next' == |sent| - slots.Length && r == Lagged(next' - next)
    {
      if next == tail {
        return Empty, next;
      }
      if tail - next > slots.Length {
        return Lagged(tail - slots.Length - next), tail - slots.Length;
      }
      assert slots[next % slots.Length] == sent[next];
      return Value(slots[next % slots.Length]), next + 1;
    }
  }

  // ------------------------------------------------------------ reading from it

  datatype Op<T> = Put(value: T) | Take

  /** A receiver and its handler; a handler that gives up at the first lag has `stopped`. */
  datatype Reader<T> = Reader(sent: seq<T>, next: nat, got: seq<T>, stopped: bool)

  /** `givesUp`: whether the handler ends its stream at a lag or reads on from where it was moved. */
  function Read<T>(givesUp: bool, capacity: nat, r: Reader<T>, op: Op<T>): Reader<T>
    requires r.next <= |r.sent|
  {
    match op
    case Put(e) => r.(sent := r.sent + [e])
    case Take =>
      if r.stopped then r
      else
        var (got, next) := RecvAt(r.sent, capacity, r.next);
        match got
        case Empty => r
        case Lagged(_) => if givesUp then r.(stopped := true) else r.(next := next)
        case Value(e) => r.(next := next, got := r.got + [e])
  }

  function Reads<T>(givesUp: bool, capacity: nat, ops: seq<Op<T>>): (r: Reader<T>)
    ensures r.next <= |r.sent|
  {
    if ops == [] then Reader([], 0, [], false) else Read(givesUp, capacity, Reads(givesUp, capacity, Front(ops)), Last(ops))
  }

  /**
   A handler that gives up at the first lag has, in every run, received a gapless
   prefix of what was sent; and it has given up exactly when it found itself more
   than the ring behind.
   */
  lemma {:induction false} GotIsPrefix<T>(capacity: nat, ops: seq<Op<T>>)
    ensures var r := Reads(true, capacity, ops);
            && r.next == |r.got| && r.got <= r.sent
            && (r.stopped <==> LagSeen(capacity, ops))
            && (r.stopped ==> |r.sent| - |r.got| > capacity)
  {
    if ops != [] {
      GotIsPrefix(capacity, Front(ops));
      var r := Reads(true, capacity, Front(ops));
      assert r.next < |r.sent| ==> r.got + [r.sent[r.next]] <= r.sent;
    }
  }

  /** At some receive of the run the reader was more than the ring behind. */
  predicate LagSeen<T>(capacity: nat, ops: seq<Op<T>>)
  {
    ops != [] &&
    (LagSeen(capacity, Front(ops)) ||
     (Last(ops).Take? && |Reads(true, capacity, Front(ops)).sent| - Reads(true, capacity, Front(ops)).next > capacity))
  }

  /** A handler that reads on instead skips what was overwritten. */
  lemma ReadingOnSkips()
    ensures var r := Reads(false, 1, [Put(10), Put(20), Take, Take]);
            r.got == [20] && !(r.got <= r.sent) && !r.stopped
  {
    var a: seq<Op<int>>, b: seq<Op<int>>, c: seq<Op<int>>, d: seq<Op<int>> := [Put(10)], [Put(10), Put(20)], [Put(10), Put(20), Take], [Put(10), Put(20), Take, Take];
    assert Front(a) == [] && Front(b) == a && Front(c) == b && Front(d) == c;
    assert Reads(false, 1, a) == Reader([10], 0, [], false);
    assert Reads(false, 1, b) == Reader([10, 20], 0, [], false);
    assert Reads(false, 1, c) == Reader([10, 20], 1, [], false);
  }

  // ------------------------------------------------------------ the subscriber of the transition system

  /** What a run of the whole system does to the subscriber's receiver. */
  ghost function OpsOf(c: Config, labels: seq<Label>): seq<Op<nat>>
  {
    if labels == [] || Exec(c, Front(labels)).None? then []
    else OpsOf(c, Front(labels)) + OpOf(c, Exec(c, Front(labels)).value, Last(labels))
  }

  ghost function OpOf(c: Config, s: State, l: Label): seq<Op<nat>>
  {
    match l
    case Pump(PumpNext) =>
      if Listening(s.sub) && OnSubject(c, s.db.log, s.broker.stream, s.cursor + 1) then [Put(s.cursor + 1)] else []
    case Pump(Redeliver(q)) => if Listening(s.sub) then [Put(q)] else []
    case Handle(Receive) => [Take]
    case _ => []
  }

  /** The subscriber's inbox as a receiver. */
  function ReaderOf(sub: Sub): Reader<nat>
    requires sub.taken <= |sub.inbox|
  {
    Reader(sub.inbox, sub.taken, sub.inbox[..sub.taken], sub.phase == Ended(true))
  }

  lemma ReadsSnoc<T>(givesUp: bool, capacity: nat, ops: seq<Op<T>>, op: Op<T>)
    ensures Reads(givesUp, capacity, ops + [op]) == Read(givesUp, capacity, Reads(givesUp, capacity, ops), op)
  {
    assert Front(ops + [op]) == ops;
  }

  lemma BroadcastReads(capacity: nat, sub: Sub, q: nat, ops: seq<Op<nat>>)
    requires sub.taken <= |sub.inbox| && Reads(true, capacity, ops) == ReaderOf(sub)
    ensures var sub' := Broadcast(sub, q);
            sub'.taken <= |sub'.inbox| &&
            Reads(true, capacity, ops + (if Listening(sub) then [Put(q)] else [])) == ReaderOf(sub')
  {
    if Listening(sub) {
      ReadsSnoc(true, capacity, ops, Put(q));
      assert (sub.inbox + [q])[..sub.taken] == sub.inbox[..sub.taken];
    } else {
      assert ops + [] == ops;
    }
  }

  lemma ReceiveReads(c: Config, sub: Sub, cursor: nat, commits: nat, ops: seq<Op<nat>>)
    requires sub.phase.Tailing? && sub.taken < |sub.inbox| && Reads(true, c.ring, ops) == ReaderOf(sub)
    ensures var sub' := AfterHandle(c, sub, cursor, commits, Receive);
            sub'.taken <= |sub'.inbox| && Reads(true, c.ring, ops + [Take]) == ReaderOf(sub')
  {
    ReadsSnoc(true, c.ring, ops, Take);
    assert sub.inbox[..sub.taken + 1] == sub.inbox[..sub.taken] + [sub.inbox[sub.taken]];
  }

  lemma OthersRead(c: Config, s: State, l: Label)
    requires Inv(c, s) && Enabled(c, s, l) && s.sub.taken <= |s.sub.inbox| && !l.Pump? && l != Handle(Receive)
    ensures var s' := Step(c, s, l); s'.sub.taken <= |s'.sub.inbox| && ReaderOf(s'.sub) == ReaderOf(s.sub)
  {
    if l.Handle? {
      assert l.handle.Subscribe? ==> s.sub == NO_SUB;
    } else {
      assert Step(c, s, l).sub == s.sub;
    }
  }

  lemma StepReads(c: Config, s: State, l: Label, ops: seq<Op<nat>>)
    requires Inv(c, s) && Enabled(c, s, l) && s.sub.taken <= |s.sub.inbox| && Reads(true, c.ring, ops) == ReaderOf(s.sub)
    ensures var s' := Step(c, s, l);
            s'.sub.taken <= |s'.sub.inbox| && Reads(true, c.ring, ops + OpOf(c, s, l)) == ReaderOf(s'.sub)
  {
    if l.Pump? {
      BroadcastReads(c.ring, s.sub, if l.pump.PumpNext? then s.cursor + 1 else l.pump.q, ops);
      assert ops + [] == ops;
    } else if l == Handle(Receive) {
      ReceiveReads(c, s.sub, s.cursor, |s.db.log|, ops);
    } else {
      OthersRead(c, s, l);
      assert ops + [] == ops;
    }
  }

  /**
   In every run of the whole system the subscriber's `inbox`, `taken` and lag are
   those of a receiver on a ring that overwrites: what the handler has taken is the
   gapless prefix of what was broadcast to it up to its first lag.
   */
  lemma {:induction false} InboxIsRing(c: Config, labels: seq<Label>)
    requires Exec(c, labels).Some?
    ensures var s := Exec(c, labels).value;
            s.sub.taken <= |s.sub.inbox| && Reads(true, c.ring, OpsOf(c, labels)) == ReaderOf(s.sub)
  {
    if labels != [] {
      var s := Exec(c, Front(labels)).value;
      InboxIsRing(c, Front(labels));
      ReachableInv(c, Front(labels));
      StepReads(c, s, Last(labels), OpsOf(c, Front(labels)));
    }
  }

  /** So a stream ends with the lag error exactly when a receive found the handler more than the ring behind. */
  lemma LagEndsTheStreamIff(c: Config, labels: seq<Label>)
    requires Exec(c, labels).Some?
    ensures Exec(c, labels).value.sub.phase == Ended(true) <==> LagSeen(c.ring, OpsOf(c, labels))
  {
    InboxIsRing(c, labels);
    GotIsPrefix(c.ring, OpsOf(c, labels));
  }

  // ------------------------------------------------------------ the pump task

  /** What the consumer hands the pump: an error, or a message whose payload and delivery info may fail to parse. */
  datatype Incoming = ReceiveError | Delivery(eventId: Option<EventId>, streamSeq: Option<nat>)

  predicate Decodes(m: Incoming)
  {
    m.Delivery? && m.eventId.Some?
  }

  /** The message decodes to the envelope, which gets the message's stream sequence if that can be read. */
  predicate CarriedBy(e: Envelope, m: Incoming)
  {
    Decodes(m) && e.id == m.eventId.value && e.natsSeq == if m.streamSeq.Some? then m.streamSeq.value else 0
  }

  /** `out` is the decodable messages of `ms`, in order, each under its stream sequence; `at` says where they were. */
  ghost predicate Picks(ms: seq<Incoming>, at: seq<nat>, out: seq<Envelope>)
  {
    && |at| == |out| && Increasing(at)
    && (forall i :: 0 <= i < |at| ==> at[i] < |ms| && CarriedBy(out[i], ms[at[i]]))
    && (forall j :: 0 <= j < |ms| && Decodes(ms[j]) ==> j in at)
  }

  /** The pump loop: every message delivered is acked; exactly the decodable ones are broadcast, in order, under their stream sequences. */
  method RunPump(ch: BroadcastChannel, ms: seq<Incoming>) returns (acked: set<nat>, ghost at: seq<nat>)
    requires ch.Valid()
    modifies ch, ch.slots
    ensures ch.Valid() && old(ch.sent) <= ch.sent
    ensures Picks(ms, at, ch.sent[|old(ch.sent)|..])
    ensures acked == set i | 0 <= i < |ms| && ms[i].Delivery?
  {
    acked, at := {}, [];
    ghost var was := ch.sent;
    for i := 0 to |ms|
      invariant ch.Valid() && was <= ch.sent && Picks(ms[..i], at, ch.sent[|was|..])
      invariant acked == set j | 0 <= j < i && ms[j].Delivery?
    {
      ghost var before, at0 := ch.sent, at;
      if ms[i].ReceiveError? {
        PicksOn(ms, i, at, before[|was|..]);
        continue;
      }
      if ms[i].eventId.Some? {
        var natsSeq := 0;
        if ms[i].streamSeq.Some? {
          natsSeq := ms[i].streamSeq.value;
        }
        ch.Send(Envelope(ms[i].eventId.value, natsSeq));
        at := at + [i];
        assert ch.sent[|was|..] == before[|was|..] + [Envelope(ms[i].eventId.value, natsSeq)];
      }
      PicksOn(ms, i, at0, before[|was|..]);
      acked := acked + {i};
    }
    assert ms[..|ms|] == ms;
  }

  lemma PicksOn(ms: seq<Incoming>, i: nat, at: seq<nat>, out: seq<Envelope>)
    requires i < |ms| && Picks(ms[..i], at, out)
    ensures if !Decodes(ms[i]) then Picks(ms[..i + 1], at, out)
            else Picks(ms[..i + 1], at + [i], out + [Envelope(ms[i].eventId.value, if ms[i].streamSeq.Some? then ms[i].streamSeq.value else 0)])
  {
    forall j | 0 <= j < i + 1 && Decodes(ms[..i + 1][j])
      ensures j in at + [i] && (j < i ==> j in at)
    {
      if j < i {
        assert ms[..i][j] == ms[j];
      } else {
        assert (at + [i])[|at|] == i;
      }
    }
  }

  /** What the pump broadcasts: each delivery whose payload parses, once and in order, under its stream sequence if that can be read. */
  lemma WhatIsPumped(ms: seq<Incoming>, at: seq<nat>, out: seq<Envelope>)
    requires Picks(ms, at, out)
    ensures |at| == |out| && forall k, m :: 0 <= k < m < |at| ==> at[k] < at[m]
    ensures forall k :: 0 <= k < |at| ==>
              && at[k] < |ms| && ms[at[k]].Delivery? && ms[at[k]].eventId == Some(out[k].id)
              && out[k].natsSeq == (if ms[at[k]].streamSeq.Some? then ms[at[k]].streamSeq.value else 0)
    ensures forall j :: 0 <= j < |ms| && ms[j].Delivery? && ms[j].eventId.Some? ==> exists k :: 0 <= k < |at| && at[k] == j
  {
    forall j | 0 <= j < |ms| && ms[j].Delivery? && ms[j].eventId.Some?
      ensures exists k :: 0 <= k < |at| && at[k] == j
    {
      assert Decodes(ms[j]);
      assert j in at;
    }
  }

  lemma FirstPick(n: nat, at: seq<nat>)
    requires forall i :: 0 <= i < |at| ==> at[i] < n
    ensures at == [] || at[0] < n
  {
  }

  lemma LastPick(at: seq<nat>, k: nat)
    requires Increasing(at) && k < |at|
    ensures at[k] <= Last(at) && (at[k] == Last(at) ==> k == |at| - 1)
  {
  }

  lemma {:induction false} AllPicked(n: nat, at: seq<nat>)
    requires Increasing(at) && (forall i :: 0 <= i < |at| ==> at[i] < n) && forall j: nat :: j < n ==> j in at
    ensures |at| == n && forall i :: 0 <= i < n ==> at[i] == i
    decreases n
  {
    if n == 0 {
      FirstPick(n, at);
    } else {
      assert n - 1 in at;
      var k :| 0 <= k < |at| && at[k] == n - 1;
      LastPick(at, k);
      forall j: nat | j < n - 1
        ensures j in Front(at)
      {
        assert j in at;
        var i :| 0 <= i < |at| && at[i] == j;
        assert Front(at)[i] == j;
      }
      AllPicked(n - 1, Front(at));
    }
  }

  /** The messages at the given sequences, as the consumer delivers them. */
  function Deliveries(log: seq<Row>, stream: seq<nat>, qs: seq<nat>): (ms: seq<Incoming>)
    ensures |ms| == |qs|
  {
    seq(|qs|, i requires 0 <= i < |qs| => Delivery(Some(IdAt(log, stream, qs[i])), Some(qs[i])))
  }

  /** What the pump broadcasts for readable deliveries is, envelope by envelope, what `Spine` says the subscriber receives. */
  lemma PumpFeedsInbox(log: seq<Row>, stream: seq<nat>, qs: seq<nat>, at: seq<nat>, out: seq<Envelope>)
    requires Picks(Deliveries(log, stream, qs), at, out)
    ensures out == Envelopes(log, stream, qs)
  {
    forall j: nat | j < |qs|
      ensures j in at
    {
      assert Decodes(Deliveries(log, stream, qs)[j]);
    }
    AllPicked(|qs|, at);
  }
}
