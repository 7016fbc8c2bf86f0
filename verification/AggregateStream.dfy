/**
 The stream of an aggregated board: one forwarder per subscribed channel copies
 envelopes into a shared queue, the handler takes them from there.  A forwarder
 that falls a whole ring behind stops without a word.
 */
module AggregateStream {
  import opened Common
  import opened Cutover
  import Ring = Broadcast

  datatype Status = Running | Lagged | Closed

  /** `inbox` is everything broadcast on the channel since the subscription, of which `sent` have been copied on. */
  datatype Forwarder = Forwarder(inbox: seq<Envelope>, sent: nat, status: Status)

  datatype Item = Item(source: nat, envelope: Envelope)

  datatype State = State(forwarders: seq<Forwarder>, merged: seq<Item>, taken: nat, open: bool)

  datatype Label =
    | Broadcast(source: nat, envelope: Envelope)
    | Forward(source: nat)
    | CloseChannel(source: nat)
    | Take
    | Finish
    | End

  function Initial(n: nat): State
  {
    State(seq(n, _ => Forwarder([], 0, Running)), [], 0, true)
  }

  predicate IsRunning(s: State, i: nat)
  {
    i < |s.forwarders| && s.forwarders[i].status == Running
  }

  predicate Enabled(s: State, l: Label)
  {
    match l
    case Broadcast(i, e) => i < |s.forwarders| && s.forwarders[i].status != Closed
    case Forward(i) => IsRunning(s, i) && s.open && s.forwarders[i].sent < |s.forwarders[i].inbox|
    case CloseChannel(i) => IsRunning(s, i) && s.forwarders[i].sent == |s.forwarders[i].inbox|
    case Take => s.open && s.taken < |s.merged|
    case Finish => s.open && s.taken == |s.merged| && forall i :: 0 <= i < |s.forwarders| ==> s.forwarders[i].status != Running
    case End => s.open
  }

  /** `recv` on the ring: the next envelope, or the lag error that ends the `while let` loop. */
  function Received(f: Forwarder, ring: nat): Forwarder
    requires f.sent <= |f.inbox|
  {
    match Ring.RecvAt(f.inbox, ring, f.sent).0
    case Empty => f
    case Lagged(_) => f.(status := Lagged)
    case Value(_) => f.(sent := f.sent + 1)
  }

  function Step(ring: nat, s: State, l: Label): State
    requires Enabled(s, l)
  {
    match l
    case Broadcast(i, e) => s.(forwarders := s.forwarders[i := s.forwarders[i].(inbox := s.forwarders[i].inbox + [e])])
    case Forward(i) =>
      var f := s.forwarders[i];
      s.(forwarders := s.forwarders[i := Received(f, ring)],
         merged := if Received(f, ring).status == Lagged then s.merged else s.merged + [Item(i, f.inbox[f.sent])])
    case CloseChannel(i) => s.(forwarders := s.forwarders[i := s.forwarders[i].(status := Closed)])
    case Take => s.(taken := s.taken + 1)
    case Finish => s.(open := false)
    case End => s.(open := false)
  }

  function Exec(n: nat, ring: nat, labels: seq<Label>): Option<State>
  {
    if labels == [] then Some(Initial(n))
    else
      var s := Exec(n, ring, Front(labels));
      if s.Some? && Enabled(s.value, Last(labels)) then Some(Step(ring, s.value, Last(labels))) else None
  }

  /** What came from one source, in queue order. */
  function Of(merged: seq<Item>, i: nat): seq<Envelope>
  {
    if merged == [] then []
    else Of(Front(merged), i) + if Last(merged).source == i then [Last(merged).envelope] else []
  }

  function TotalSent(fs: seq<Forwarder>): nat
  {
    if fs == [] then 0 else TotalSent(Front(fs)) + Last(fs).sent
  }

  function TotalBroadcast(fs: seq<Forwarder>): nat
  {
    if fs == [] then 0 else TotalBroadcast(Front(fs)) + |Last(fs).inbox|
  }

  ghost predicate ForwarderOk(f: Forwarder, queued: seq<Envelope>)
  {
    && f.sent <= |f.inbox| && queued == f.inbox[..f.sent]
    && (f.status == Lagged ==> f.sent < |f.inbox|)
    && (f.status == Closed ==> f.sent == |f.inbox|)
  }

  /** The queue holds, source by source, exactly the first `sent` envelopes of each channel. */
  ghost predicate Inv(s: State)
  {
    && (forall i :: 0 <= i < |s.forwarders| ==> ForwarderOk(s.forwarders[i], Of(s.merged, i)))
    && |s.merged| == TotalSent(s.forwarders) && s.taken <= |s.merged|
  }

  lemma {:induction false} SentAfter(fs: seq<Forwarder>, i: nat, f: Forwarder)
    requires i < |fs|
    ensures TotalSent(fs[i := f]) == TotalSent(fs) - fs[i].sent + f.sent
  {
    if i == |fs| - 1 {
      assert Front(fs[i := f]) == Front(fs);
    } else {
      SentAfter(Front(fs), i, f);
      assert Front(fs[i := f]) == Front(fs)[i := f];
    }
  }

  lemma OfSnoc(merged: seq<Item>, item: Item, i: nat)
    ensures Of(merged + [item], i) == Of(merged, i) + if item.source == i then [item.envelope] else []
  {
    assert Front(merged + [item]) == merged;
  }

  lemma ReceivedOk(f: Forwarder, ring: nat, queued: seq<Envelope>)
    requires ForwarderOk(f, queued) && f.status == Running && f.sent < |f.inbox|
    ensures var f' := Received(f, ring);
            && (f'.status == Lagged ==> f' == f.(status := Lagged) && ForwarderOk(f', queued))
            && (f'.status != Lagged ==> f' == f.(sent := f.sent + 1) && ForwarderOk(f', queued + [f.inbox[f.sent]]))
  {
    assert f.inbox[..f.sent + 1] == f.inbox[..f.sent] + [f.inbox[f.sent]];
  }

  lemma ForwardKeepsOne(ring: nat, s: State, i: nat, j: nat)
    requires Inv(s) && Enabled(s, Forward(i)) && j < |s.forwarders|
    ensures var s' := Step(ring, s, Forward(i)); ForwarderOk(s'.forwarders[j], Of(s'.merged, j))
  {
    var f := s.forwarders[i];
    assert ForwarderOk(s.forwarders[j], Of(s.merged, j));
    ReceivedOk(f, ring, Of(s.merged, i));
    OfSnoc(s.merged, Item(i, f.inbox[f.sent]), j);
  }

  lemma ForwardKeepsInv(ring: nat, s: State, i: nat)
    requires Inv(s) && Enabled(s, Forward(i))
    ensures Inv(Step(ring, s, Forward(i)))
  {
    var s' := Step(ring, s, Forward(i));
    ReceivedOk(s.forwarders[i], ring, Of(s.merged, i));
    SentAfter(s.forwarders, i, Received(s.forwarders[i], ring));
    forall j | 0 <= j < |s.forwarders|
      ensures ForwarderOk(s'.forwarders[j], Of(s'.merged, j))
    {
      ForwardKeepsOne(ring, s, i, j);
    }
  }

  lemma StepKeepsInv(ring: nat, s: State, l: Label)
    requires Inv(s) && Enabled(s, l)
    ensures Inv(Step(ring, s, l))
  {
    match l
    case Broadcast(i, e) =>
      var f := s.forwarders[i];
      SentAfter(s.forwarders, i, f.(inbox := f.inbox + [e]));
      assert ForwarderOk(f, Of(s.merged, i));
      assert (f.inbox + [e])[..f.sent] == f.inbox[..f.sent];
    case Forward(i) => ForwardKeepsInv(ring, s, i);
    case CloseChannel(i) =>
      assert ForwarderOk(s.forwarders[i], Of(s.merged, i));
      SentAfter(s.forwarders, i, s.forwarders[i].(status := Closed));
    case _ =>
  }

  lemma {:induction false} NothingSentYet(n: nat, fs: seq<Forwarder>)
    requires |fs| == n && forall i :: 0 <= i < n ==> fs[i] == Forwarder([], 0, Running)
    ensures TotalSent(fs) == 0
    decreases n
  {
    if n > 0 {
      NothingSentYet(n - 1, Front(fs));
    }
  }

  /** In every run each forwarder has passed on a prefix of its channel, in order and without gaps. */
  lemma {:induction false} ReachableInv(n: nat, ring: nat, labels: seq<Label>)
    requires Exec(n, ring, labels).Some?
    ensures Inv(Exec(n, ring, labels).value) && |Exec(n, ring, labels).value.forwarders| == n
  {
    if labels == [] {
      NothingSentYet(n, Initial(n).forwarders);
    } else {
      ReachableInv(n, ring, Front(labels));
      StepKeepsInv(ring, Exec(n, ring, Front(labels)).value, Last(labels));
    }
  }

  // ------------------------------------------------------------ what the client gets

  function Seen(merged: seq<Item>): (es: seq<Envelope>)
    ensures |es| == |merged|
  {
    seq(|merged|, i requires 0 <= i < |merged| => merged[i].envelope)
  }

  /** Every forwarder still running and the handler have nothing left to do. */
  predicate CaughtUp(s: State)
  {
    s.taken == |s.merged| && forall i :: 0 <= i < |s.forwarders| && s.forwarders[i].status == Running ==> s.forwarders[i].sent == |s.forwarders[i].inbox|
  }

  predicate NoneLagged(fs: seq<Forwarder>)
  {
    forall i :: 0 <= i < |fs| ==> fs[i].status != Lagged
  }

  lemma {:induction false} TotalsAgreeIff(fs: seq<Forwarder>)
    requires forall i :: 0 <= i < |fs| ==> fs[i].sent <= |fs[i].inbox| && (fs[i].status == Lagged <==> fs[i].sent < |fs[i].inbox|)
    ensures TotalSent(fs) <= TotalBroadcast(fs)
    ensures TotalSent(fs) == TotalBroadcast(fs) <==> NoneLagged(fs)
  {
    if fs != [] {
      TotalsAgreeIff(Front(fs));
      assert NoneLagged(fs) <==> NoneLagged(Front(fs)) && Last(fs).status != Lagged by {
        if NoneLagged(Front(fs)) && Last(fs).status != Lagged {
          assert forall i :: 0 <= i < |fs| ==> fs[i] == if i < |fs| - 1 then Front(fs)[i] else Last(fs);
        }
        if NoneLagged(fs) {
          assert forall i :: 0 <= i < |fs| - 1 ==> Front(fs)[i] == fs[i];
        }
      }
    }
  }

  // ------------------------------------------------------------ each forwarder is a reader of a ring

  /** What a run does to the receiver of forwarder `i`. */
  function OpsOf(labels: seq<Label>, i: nat): seq<Ring.Op<Envelope>>
  {
    if labels == [] then [] else OpsOf(Front(labels), i) + OpOf(Last(labels), i)
  }

  function OpOf(l: Label, i: nat): seq<Ring.Op<Envelope>>
  {
    match l
    case Broadcast(k, e) => if k == i then [Ring.Put(e)] else []
    case Forward(k) => if k == i then [Ring.Take] else []
    case _ => []
  }

  function ReaderOf(f: Forwarder): Ring.Reader<Envelope>
    requires f.sent <= |f.inbox|
  {
    Ring.Reader(f.inbox, f.sent, f.inbox[..f.sent], f.status == Lagged)
  }

  lemma BroadcastReads(ring: nat, f: Forwarder, e: Envelope, ops: seq<Ring.Op<Envelope>>)
    requires f.sent <= |f.inbox| && Ring.Reads(true, ring, ops) == ReaderOf(f)
    ensures Ring.Reads(true, ring, ops + [Ring.Put(e)]) == ReaderOf(f.(inbox := f.inbox + [e]))
  {
    Ring.ReadsSnoc(true, ring, ops, Ring.Put(e));
    assert (f.inbox + [e])[..f.sent] == f.inbox[..f.sent];
  }

  lemma ForwardReads(ring: nat, f: Forwarder, ops: seq<Ring.Op<Envelope>>)
    requires f.sent < |f.inbox| && f.status == Running && Ring.Reads(true, ring, ops) == ReaderOf(f)
    ensures Received(f, ring).sent <= |Received(f, ring).inbox|
    ensures Ring.Reads(true, ring, ops + [Ring.Take]) == ReaderOf(Received(f, ring))
  {
    Ring.ReadsSnoc(true, ring, ops, Ring.Take);
    assert f.inbox[..f.sent + 1] == f.inbox[..f.sent] + [f.inbox[f.sent]];
  }

  lemma StepReads(ring: nat, s: State, l: Label, i: nat, ops: seq<Ring.Op<Envelope>>)
    requires Enabled(s, l) && i < |s.forwarders| && s.forwarders[i].sent <= |s.forwarders[i].inbox|
    requires Ring.Reads(true, ring, ops) == ReaderOf(s.forwarders[i])
    ensures var s' := Step(ring, s, l);
            && |s'.forwarders| == |s.forwarders| && s'.forwarders[i].sent <= |s'.forwarders[i].inbox|
            && Ring.Reads(true, ring, ops + OpOf(l, i)) == ReaderOf(s'.forwarders[i])
  {
    if l.Broadcast? && l.source == i {
      BroadcastReads(ring, s.forwarders[i], l.envelope, ops);
    } else if l.Forward? && l.source == i {
      ForwardReads(ring, s.forwarders[i], ops);
    } else {
      assert ops + OpOf(l, i) == ops;
    }
  }

  /** In every run each forwarder is a receiver on the overwriting ring whose handler gives up at the first lag. */
  lemma {:induction false} ForwarderIsReader(n: nat, ring: nat, labels: seq<Label>, i: nat)
    requires Exec(n, ring, labels).Some? && i < n
    ensures var fs := Exec(n, ring, labels).value.forwarders;
            && |fs| == n && fs[i].sent <= |fs[i].inbox|
            && Ring.Reads(true, ring, OpsOf(labels, i)) == ReaderOf(fs[i])
  {
    if labels != [] {
      ForwarderIsReader(n, ring, Front(labels), i);
      StepReads(ring, Exec(n, ring, Front(labels)).value, Last(labels), i, OpsOf(Front(labels), i));
    }
  }

  /** At no receive of the run did a forwarder find more than the ring waiting. */
  predicate NoLagSeen(n: nat, ring: nat, labels: seq<Label>)
  {
    forall i :: 0 <= i < n ==> !Ring.LagSeen(ring, OpsOf(labels, i))
  }

  lemma LaggedIffSeen(n: nat, ring: nat, labels: seq<Label>)
    requires Exec(n, ring, labels).Some?
    ensures |Exec(n, ring, labels).value.forwarders| == n
    ensures NoneLagged(Exec(n, ring, labels).value.forwarders) <==> NoLagSeen(n, ring, labels)
  {
    ReachableInv(n, ring, labels);
    forall i | 0 <= i < n
      ensures Exec(n, ring, labels).value.forwarders[i].status == Lagged <==> Ring.LagSeen(ring, OpsOf(labels, i))
    {
      ForwarderIsReader(n, ring, labels, i);
      Ring.GotIsPrefix(ring, OpsOf(labels, i));
    }
  }

  /**
   Once caught up, the client has been sent every envelope broadcast on any of
   the channels if and only if no forwarder ever found more than the ring waiting and the
   queue happened to be in sequence order.
   */
  lemma EverythingArrivesIff(n: nat, ring: nat, capacity: nat, labels: seq<Label>)
    requires Exec(n, ring, labels).Some? && CaughtUp(Exec(n, ring, labels).value)
    requires DistinctIds(Seen(Exec(n, ring, labels).value.merged))
    ensures var s := Exec(n, ring, labels).value;
            |Emitted(capacity, MergeCalls(0, Seen(s.merged)))| == TotalBroadcast(s.forwarders) <==>
            NoLagSeen(n, ring, labels) && InOrder(0, Seen(s.merged))
  {
    var s := Exec(n, ring, labels).value;
    ReachableInv(n, ring, labels);
    LaggedIffSeen(n, ring, labels);
    forall i | 0 <= i < |s.forwarders|
      ensures s.forwarders[i].sent <= |s.forwarders[i].inbox|
      ensures s.forwarders[i].status == Lagged <==> s.forwarders[i].sent < |s.forwarders[i].inbox|
    {
      assert ForwarderOk(s.forwarders[i], Of(s.merged, i));
    }
    TotalsAgreeIff(s.forwarders);
    MergeEmitsMaxima(capacity, 0, Seen(s.merged));
    AllAreMaxima(0, Seen(s.merged));
  }

  /** A running forwarder has been running all along. */
  lemma {:induction false} RunningBefore(n: nat, ring: nat, labels: seq<Label>, m: nat, i: nat)
    requires Exec(n, ring, labels).Some? && m <= |labels| && IsRunning(Exec(n, ring, labels).value, i)
    ensures Exec(n, ring, labels[..m]).Some? && IsRunning(Exec(n, ring, labels[..m]).value, i)
  {
    if m == |labels| {
      assert labels[..m] == labels;
    } else {
      assert Front(labels)[..m] == labels[..m];
      RunningBefore(n, ring, Front(labels), m, i);
    }
  }

  /**
   A forwarder that has lagged is silent for good: in no continuation of the run does
   anything more of its channel reach the queue, and while another forwarder runs the
   stream neither finishes nor, unless a check ends it, closes.
   */
  lemma {:induction false} LagIsForGood(n: nat, ring: nat, labels: seq<Label>, m: nat, i: nat)
    requires Exec(n, ring, labels).Some? && m <= |labels| && Exec(n, ring, labels[..m]).Some?
    requires i < |Exec(n, ring, labels[..m]).value.forwarders| && Exec(n, ring, labels[..m]).value.forwarders[i].status == Lagged
    ensures var before, s := Exec(n, ring, labels[..m]).value, Exec(n, ring, labels).value;
            && |s.forwarders| == |before.forwarders|
            && s.forwarders[i].status == Lagged && Of(s.merged, i) == Of(before.merged, i)
            && (before.open && (exists j :: IsRunning(s, j)) && (forall k :: m <= k < |labels| ==> !labels[k].End?) ==> s.open)
  {
    if m == |labels| {
      assert labels[..m] == labels;
    } else {
      var front, l := Front(labels), Last(labels);
      assert front[..m] == labels[..m];
      LagIsForGood(n, ring, front, m, i);
      var prev := Exec(n, ring, front).value;
      StaysLagged(ring, prev, l, i);
      assert forall k :: m <= k < |front| ==> front[k] == labels[k];
      assert labels[|labels| - 1] == l;
      if j :| IsRunning(Exec(n, ring, labels).value, j) {
        assert labels[..|front|] == front;
        RunningBefore(n, ring, labels, |front|, j);
        assert IsRunning(prev, j);
      }
    }
  }

  lemma StaysLagged(ring: nat, s: State, l: Label, i: nat)
    requires Enabled(s, l) && i < |s.forwarders| && s.forwarders[i].status == Lagged
    ensures var s' := Step(ring, s, l);
            |s'.forwarders| == |s.forwarders| && s'.forwarders[i].status == Lagged && Of(s'.merged, i) == Of(s.merged, i)
  {
    if l.Forward? {
      var f := s.forwarders[l.source];
      OfSnoc(s.merged, Item(l.source, f.inbox[f.sent]), i);
    }
  }

  lemma Extend(n: nat, ring: nat, labels: seq<Label>, s: State, l: Label) returns (labels': seq<Label>, s': State)
    requires Exec(n, ring, labels) == Some(s) && Enabled(s, l)
    ensures Exec(n, ring, labels') == Some(s') && s' == Step(ring, s, l)
  {
    labels', s' := labels + [l], Step(ring, s, l);
    assert Front(labels') == labels && Last(labels') == l;
  }

  /** The first source broadcasts twice into a ring of one before its forwarder looks. */
  lemma FirstLags() returns (ls: seq<Label>, s: State)
    ensures Exec(2, 1, ls) == Some(s)
    ensures s == State([Forwarder([Envelope(7, 1), Envelope(8, 2)], 0, Lagged), Forwarder([], 0, Running)], [], 0, true)
  {
    var s1, s2;
    ls, s1 := Extend(2, 1, [], Initial(2), Broadcast(0, Envelope(7, 1)));
    ls, s2 := Extend(2, 1, ls, s1, Broadcast(0, Envelope(8, 2)));
    assert s2.forwarders[0] == Forwarder([Envelope(7, 1), Envelope(8, 2)], 0, Running);
    ls, s := Extend(2, 1, ls, s2, Forward(0));
    assert s.forwarders[1] == Forwarder([], 0, Running);
  }

  lemma SecondArrives(ls: seq<Label>, s: State) returns (ls': seq<Label>, s': State)
    requires Exec(2, 1, ls) == Some(s) && |s.forwarders| == 2 && s.forwarders[1] == Forwarder([], 0, Running)
    requires s.merged == [] && s.taken == 0 && s.open
    ensures Exec(2, 1, ls') == Some(s')
    ensures s' == State([s.forwarders[0], Forwarder([Envelope(9, 3)], 1, Running)], [Item(1, Envelope(9, 3))], 1, true)
  {
    var s1, s2;
    ls', s1 := Extend(2, 1, ls, s, Broadcast(1, Envelope(9, 3)));
    assert s1.forwarders[1] == Forwarder([Envelope(9, 3)], 0, Running);
    ls', s2 := Extend(2, 1, ls', s1, Forward(1));
    ls', s' := Extend(2, 1, ls', s2, Take);
  }

  /** Two sources and a ring of one: the first source's two envelopes never arrive, the second's does, and the stream is open and quiet. */
  lemma LagLosesSilently()
    ensures exists labels ::
              && Exec(2, 1, labels).Some? && CaughtUp(Exec(2, 1, labels).value) && Exec(2, 1, labels).value.open
              && Seen(Exec(2, 1, labels).value.merged) == [Envelope(9, 3)]
              && TotalBroadcast(Exec(2, 1, labels).value.forwarders) == 3
  {
    var ls, s := FirstLags();
    ls, s := SecondArrives(ls, s);
    TotalOfTwo(s.forwarders);
    assert Seen(s.merged) == [Envelope(9, 3)];
  }

  lemma TotalOfTwo(fs: seq<Forwarder>)
    requires |fs| == 2
    ensures TotalBroadcast(fs) == |fs[0].inbox| + |fs[1].inbox|
  {
    assert Front(fs) == [fs[0]] && Front([fs[0]]) == [];
    assert TotalBroadcast([fs[0]]) == |fs[0].inbox|;
  }
}
