/** What the invariant of `Spine` says to a subscriber: nothing committed is lost, and nothing is skipped silently. */
module SpineTheorems {
  import opened Common
  import opened Cutover
  import opened Spine
  import opened SpineInvariant

  // ------------------------------------------------------------ the tracker on an inbox

  function Seqs(es: seq<Envelope>): (qs: seq<nat>)
    ensures |qs| == |es|
  {
    seq(|es|, i requires 0 <= i < |es| => es[i].natsSeq)
  }

  /** `id` has been yielded to the client as a live event. */
  ghost predicate EmittedLive(capacity: nat, calls: seq<Call>, id: EventId)
  {
    exists q :: CallLive(id, q) in Emitted(capacity, calls)
  }

  lemma {:induction false} EmittedAreCalls(capacity: nat, calls: seq<Call>, call: Call)
    ensures call in Emitted(capacity, calls) ==> call in calls
  {
    if calls != [] {
      EmittedAreCalls(capacity, Front(calls), call);
    }
  }

  lemma {:induction false} LiveSeqsAreLive(calls: seq<Call>, q: nat)
    requires q in LiveSeqs(calls)
    ensures exists id :: CallLive(id, q) in calls
  {
    if calls != [] {
      if Last(calls).CallLive? && Last(calls).natsSeq == q {
        assert CallLive(Last(calls).id, q) in calls;
      } else {
        LiveSeqsAreLive(Front(calls), q);
      }
    }
  }

  lemma {:induction false} StreamFirstCutover(replays: seq<EventId>, cut: nat, es: seq<Envelope>)
    ensures FirstCutover(StreamCalls(replays, cut, es)) == Some(cut)
    decreases |es|
  {
    var calls := StreamCalls(replays, cut, es);
    if es == [] {
      assert Front(calls) == ReplayCalls(replays);
      NoCutoverInReplays(replays);
    } else {
      StreamSnoc(replays, cut, es);
      StreamFirstCutover(replays, cut, Front(es));
    }
  }

  lemma {:induction false} NoCutoverInReplays(replays: seq<EventId>)
    ensures FirstCutover(ReplayCalls(replays)) == None
  {
    if replays != [] {
      assert Front(ReplayCalls(replays)) == ReplayCalls(Front(replays));
      NoCutoverInReplays(Front(replays));
    }
  }

  lemma StreamSnoc(replays: seq<EventId>, cut: nat, es: seq<Envelope>)
    requires es != []
    ensures StreamCalls(replays, cut, es) != []
    ensures Front(StreamCalls(replays, cut, es)) == StreamCalls(replays, cut, Front(es))
    ensures Last(StreamCalls(replays, cut, es)) == CallLive(Last(es).id, Last(es).natsSeq)
  {
    assert Front(MergeCalls(cut, es)) == MergeCalls(cut, Front(es));
  }

  lemma LiveCallsAreEnvelopes(replays: seq<EventId>, cut: nat, es: seq<Envelope>, id: EventId, q: nat)
    requires CallLive(id, q) in StreamCalls(replays, cut, es)
    ensures Envelope(id, q) in es
  {
    var calls := StreamCalls(replays, cut, es);
    var i :| 0 <= i < |calls| && calls[i] == CallLive(id, q);
    assert es[i - |replays| - 1] == Envelope(id, q);
  }

  /** The replayed ids are not those of real events, and one sequence has one id. */
  ghost predicate IdsAgree(replays: seq<EventId>, es: seq<Envelope>)
  {
    && (forall i :: 0 <= i < |es| ==> es[i].id !in replays)
    && (forall i, j :: 0 <= i < j < |es| && es[i].natsSeq == es[j].natsSeq ==> es[i].id == es[j].id)
  }

  /** The sequences emitted live for these envelopes. */
  function LiveSoFar(capacity: nat, replays: seq<EventId>, cut: nat, es: seq<Envelope>): seq<nat>
  {
    LiveSeqs(Emitted(capacity, StreamCalls(replays, cut, es)))
  }

  /** Envelope `j` comes above the cutover and everything emitted before it. */
  ghost predicate ComesAbove(capacity: nat, replays: seq<EventId>, cut: nat, es: seq<Envelope>, j: nat)
    requires j < |es|
  {
    es[j].natsSeq > cut && forall q :: q in LiveSoFar(capacity, replays, cut, es[..j]) ==> q < es[j].natsSeq
  }

  /** The tracker's last sequence is what an event must come above. */
  lemma AboveIffAboveLast(capacity: nat, replays: seq<EventId>, cut: nat, es: seq<Envelope>, seqNo: nat)
    ensures var t := Run(capacity, StreamCalls(replays, cut, es));
            && t.phase != Replay && t.last.Some?
            && (seqNo > t.last.value <==> seqNo > cut && forall q :: q in LiveSoFar(capacity, replays, cut, es) ==> q < seqNo)
  {
    var calls := StreamCalls(replays, cut, es);
    StreamFirstCutover(replays, cut, es);
    LiveIsMonotone(capacity, calls);
    var qs := LiveSoFar(capacity, replays, cut, es);
    if qs != [] {
      assert Last(qs) in qs;
      forall q | q in qs
        ensures q <= Last(qs)
      {
        var i :| 0 <= i < |qs| && qs[i] == q;
      }
    }
  }

  /** The tracker emits an event that comes above everything, unless it has done so before. */
  lemma LastComesAbove(capacity: nat, replays: seq<EventId>, cut: nat, es: seq<Envelope>)
    requires es != [] && IdsAgree(replays, es) && ComesAbove(capacity, replays, cut, es, |es| - 1)
    ensures EmittedLive(capacity, StreamCalls(replays, cut, es), Last(es).id)
  {
    var calls := StreamCalls(replays, cut, es);
    var e, before := Last(es), Emitted(capacity, Front(calls));
    StreamSnoc(replays, cut, es);
    assert es[..|es| - 1] == Front(es);
    AboveIffAboveLast(capacity, replays, cut, Front(es), e.natsSeq);
    AdmittedAreEmitted(capacity, Front(calls));
    var t := Run(capacity, Front(calls));
    assert e.natsSeq > t.last.value;
    if LiveOutcome(t, e.id, e.natsSeq) == Emit {
      assert CallLive(e.id, e.natsSeq) in Emitted(capacity, calls);
    } else {
      var i :| 0 <= i < |before| && IdOf(before[i]) == e.id;
      EmittedBefore(capacity, replays, cut, es, before[i]);
    }
  }

  lemma EmittedBefore(capacity: nat, replays: seq<EventId>, cut: nat, es: seq<Envelope>, call: Call)
    requires es != [] && IdsAgree(replays, es) && IdOf(call) == Last(es).id
    requires call in Emitted(capacity, StreamCalls(replays, cut, Front(es)))
    ensures EmittedLive(capacity, StreamCalls(replays, cut, es), Last(es).id)
  {
    var calls := StreamCalls(replays, cut, es);
    StreamSnoc(replays, cut, es);
    EmittedAreCalls(capacity, Front(calls), call);
    assert call in Emitted(capacity, calls);
    match call
    case CallLive(id, q) =>
    case CallReplay(id) => ReplayCallsAreReplays(replays, cut, Front(es), id);
    case CallCutover(q) => CutoversAreSilent(capacity, Front(calls), q);
  }

  lemma ReplayCallsAreReplays(replays: seq<EventId>, cut: nat, es: seq<Envelope>, id: EventId)
    requires CallReplay(id) in StreamCalls(replays, cut, es)
    ensures id in replays
  {
    var calls := StreamCalls(replays, cut, es);
    var i :| 0 <= i < |calls| && calls[i] == CallReplay(id);
    assert replays[i] == id;
  }

  lemma {:induction false} CutoversAreSilent(capacity: nat, calls: seq<Call>, q: nat)
    ensures CallCutover(q) !in Emitted(capacity, calls)
  {
    if calls != [] {
      CutoversAreSilent(capacity, Front(calls), q);
    }
  }

  lemma {:induction false} AboveIsEmitted(capacity: nat, replays: seq<EventId>, cut: nat, es: seq<Envelope>, j: nat)
    requires IdsAgree(replays, es) && j < |es| && ComesAbove(capacity, replays, cut, es, j)
    ensures EmittedLive(capacity, StreamCalls(replays, cut, es), es[j].id)
    decreases |es|
  {
    if j == |es| - 1 {
      LastComesAbove(capacity, replays, cut, es);
    } else {
      var front := Front(es);
      assert front[..j] == es[..j];
      AboveIsEmitted(capacity, replays, cut, front, j);
      StreamSnoc(replays, cut, es);
      var q :| CallLive(es[j].id, q) in Emitted(capacity, StreamCalls(replays, cut, front));
      assert CallLive(es[j].id, q) in Emitted(capacity, StreamCalls(replays, cut, es));
    }
  }

  lemma AboveAllBefore(capacity: nat, replays: seq<EventId>, cut: nat, es: seq<Envelope>, j: nat)
    requires j < |es| && es[j].natsSeq > cut && forall i :: 0 <= i < j ==> es[i].natsSeq < es[j].natsSeq
    ensures ComesAbove(capacity, replays, cut, es, j)
  {
    var before := es[..j];
    var calls := StreamCalls(replays, cut, before);
    forall q | q in LiveSoFar(capacity, replays, cut, before)
      ensures q < es[j].natsSeq
    {
      LiveSeqsAreLive(Emitted(capacity, calls), q);
      var id :| CallLive(id, q) in Emitted(capacity, calls);
      EmittedAreCalls(capacity, calls, CallLive(id, q));
      LiveCallsAreEnvelopes(replays, cut, before, id, q);
      var i :| 0 <= i < |before| && before[i] == Envelope(id, q);
      assert es[i] == before[i];
    }
  }

  /**
   Everything taken from an inbox in which first deliveries come in order is
   emitted, except what is at or below the cutover or older than the join.
   */
  lemma {:induction false} TakenIsHandled(capacity: nat, replays: seq<EventId>, cut: nat, joined: nat, es: seq<Envelope>, j: nat)
    requires IdsAgree(replays, es) && Ordered(joined, Seqs(es)) && j < |es|
    ensures || es[j].natsSeq <= cut
            || es[j].natsSeq <= joined
            || EmittedLive(capacity, StreamCalls(replays, cut, es), es[j].id)
    decreases j
  {
    var qs := Seqs(es);
    assert qs[j] <= joined || qs[j] in qs[..j] || forall i :: 0 <= i < j ==> qs[i] < qs[j];
    if qs[j] in qs[..j] {
      var i :| 0 <= i < j && qs[i] == qs[j];
      TakenIsHandled(capacity, replays, cut, joined, es, i);
      assert es[i].id == es[j].id;
    } else if es[j].natsSeq > cut && es[j].natsSeq > joined {
      assert forall i :: 0 <= i < j ==> es[i].natsSeq == qs[i];
      AboveAllBefore(capacity, replays, cut, es, j);
      AboveIsEmitted(capacity, replays, cut, es, j);
    }
  }

  lemma {:induction false} EmittedCameAbove(capacity: nat, replays: seq<EventId>, cut: nat, es: seq<Envelope>, id: EventId) returns (j: nat)
    requires EmittedLive(capacity, StreamCalls(replays, cut, es), id)
    ensures j < |es| && es[j].id == id && ComesAbove(capacity, replays, cut, es, j)
    decreases |es|
  {
    var calls := StreamCalls(replays, cut, es);
    var q :| CallLive(id, q) in Emitted(capacity, calls);
    EmittedAreCalls(capacity, calls, CallLive(id, q));
    LiveCallsAreEnvelopes(replays, cut, es, id, q);
    StreamSnoc(replays, cut, es);
    var front := Front(es);
    if EmittedLive(capacity, StreamCalls(replays, cut, front), id) {
      j := EmittedCameAbove(capacity, replays, cut, front, id);
      assert front[..j] == es[..j];
    } else {
      assert CallLive(id, q) !in Emitted(capacity, Front(calls));
      j := |es| - 1;
      assert es[..j] == front;
      LastEmittedIsAbove(capacity, replays, cut, es);
    }
  }

  lemma LastEmittedIsAbove(capacity: nat, replays: seq<EventId>, cut: nat, es: seq<Envelope>)
    requires es != []
    requires Emits(Run(capacity, Front(StreamCalls(replays, cut, es))), Last(StreamCalls(replays, cut, es)))
    ensures ComesAbove(capacity, replays, cut, es, |es| - 1)
  {
    StreamSnoc(replays, cut, es);
    assert es[..|es| - 1] == Front(es);
    AboveIffAboveLast(capacity, replays, cut, Front(es), Last(es).natsSeq);
  }

  lemma {:induction false} EmittedPrefix(capacity: nat, a: seq<Call>, b: seq<Call>)
    ensures Emitted(capacity, a) <= Emitted(capacity, a + b)
  {
    if b == [] {
      assert a + b == a;
    } else {
      EmittedPrefix(capacity, a, Front(b));
      assert Front(a + b) == a + Front(b);
    }
  }

  /** A snapshot whose event ids are distinct is emitted whole, however small the filter. */
  lemma {:induction false} AllReplaysEmitted(capacity: nat, ids: seq<EventId>)
    requires Distinct(ids)
    ensures Emitted(capacity, ReplayCalls(ids)) == ReplayCalls(ids)
  {
    if ids != [] {
      var front := Front(ids);
      AllReplaysEmitted(capacity, front);
      assert ReplayCalls(ids) == ReplayCalls(front) + [CallReplay(Last(ids))];
      ReplayEmittedIff(capacity, ReplayCalls(front), Last(ids));
    }
  }

  /** And on a stream every one of them has been emitted. */
  lemma ReplayIsEmitted(capacity: nat, replays: seq<EventId>, cut: nat, es: seq<Envelope>, i: nat)
    requires Distinct(replays) && i < |replays|
    ensures CallReplay(replays[i]) in Emitted(capacity, StreamCalls(replays, cut, es))
  {
    AllReplaysEmitted(capacity, replays);
    EmittedPrefix(capacity, ReplayCalls(replays), MergeCalls(cut, es));
    assert ReplayCalls(replays)[i] == CallReplay(replays[i]);
  }

  // ------------------------------------------------------------ reading a reachable state

  /** `m` is the largest mark on a row of the board and tenant, or zero. */
  ghost predicate MaxRead(c: Config, labels: seq<Label>, i: nat, m: nat)
    requires i < |labels|
  {
    && labels[i] == Handle(ReadMax(m)) && Exec(c, labels[..i]).Some?
    && var db := Exec(c, labels[..i]).value.db;
       && (forall k :: k in db.marks && k < |db.log| && db.log[k].board == Some(c.board) && db.log[k].tenant == c.tenant ==> db.marks[k] <= m)
       && (m == 0 || exists k :: k in db.marks && k < |db.log| && db.log[k].board == Some(c.board) && db.log[k].tenant == c.tenant && db.marks[k] == m)
  }

  /** An open stream has cut over at its token, or, if it is fresh, at the largest mark on the board's rows when it read `MAX(nats_seq)`. */
  lemma CutIs(c: Config, labels: seq<Label>)
    requires OpenStream(c, labels)
    ensures c.since > 0 ==> Exec(c, labels).value.sub.cut == c.since
    ensures c.since == 0 ==> exists i: nat :: i < |labels| && MaxRead(c, labels, i, Exec(c, labels).value.sub.cut)
  {
    if c.since == 0 {
      var i := CutWasRead(c, labels);
    } else {
      CutIsToken(c, labels);
    }
  }

  lemma {:induction false} CutIsToken(c: Config, labels: seq<Label>)
    requires Exec(c, labels).Some? && c.since > 0
    ensures var sub := Exec(c, labels).value.sub; sub.phase != Snapshotting && (sub.phase.Tailing? ==> sub.cut == c.since)
  {
    if labels != [] {
      CutIsToken(c, Front(labels));
      var s, l := Exec(c, Front(labels)).value, Last(labels);
      assert !l.Handle? && !l.Pump? ==> Step(c, s, l).sub == s.sub;
    }
  }

  lemma {:induction false} CutWasRead(c: Config, labels: seq<Label>) returns (i: nat)
    requires Exec(c, labels).Some? && c.since == 0
    ensures var sub := Exec(c, labels).value.sub;
            sub.phase.Snapshotting? || sub.phase.Tailing? ==> i < |labels| && MaxRead(c, labels, i, sub.cut)
  {
    i := 0;
    if labels != [] {
      var s, l := Exec(c, Front(labels)).value, Last(labels);
      i := CutWasRead(c, Front(labels));
      assert !l.Handle? && !l.Pump? ==> Step(c, s, l).sub == s.sub;
      if l.Handle? && l.handle.ReadMax? {
        i := |labels| - 1;
        assert labels[..i] == Front(labels);
        ReadIsMax(c, s, l.handle.max);
      } else if i < |labels| - 1 {
        assert Front(labels)[..i] == labels[..i];
      }
    }
  }

  lemma ReadIsMax(c: Config, s: State, m: nat)
    requires IsMaxSeq(s.db, c.tenant, c.board, m)
    ensures forall k :: k in s.db.marks && k < |s.db.log| && s.db.log[k].board == Some(c.board) && s.db.log[k].tenant == c.tenant ==> s.db.marks[k] <= m
    ensures m == 0 || exists k :: k in s.db.marks && k < |s.db.log| && s.db.log[k].board == Some(c.board) && s.db.log[k].tenant == c.tenant && s.db.marks[k] == m
  {
    forall k | k in s.db.marks && k < |s.db.log| && s.db.log[k].board == Some(c.board) && s.db.log[k].tenant == c.tenant
      ensures s.db.marks[k] <= m
    {
      assert OfBoard(s.db, c.tenant, c.board, k);
    }
  }

  /** In every run the snapshot's events have ids of their own. */
  lemma {:induction false} ReplaysAreDistinct(c: Config, labels: seq<Label>)
    requires Exec(c, labels).Some?
    ensures Distinct(Exec(c, labels).value.sub.replays)
  {
    if labels != [] {
      ReplaysAreDistinct(c, Front(labels));
      ReplaysStep(c, Exec(c, Front(labels)).value, Last(labels));
    }
  }

  lemma ReplaysStep(c: Config, s: State, l: Label)
    requires Enabled(c, s, l) && Distinct(s.sub.replays)
    ensures Distinct(Step(c, s, l).sub.replays)
  {
    match l
    case Handle(op) =>
    case Pump(op) =>
    case _ => assert Step(c, s, l).sub == s.sub;
  }

  /** The sequences the handler has received so far. */
  function TakenSeqs(s: State): seq<nat>
  {
    if s.sub.taken <= |s.sub.inbox| then s.sub.inbox[..s.sub.taken] else s.sub.inbox
  }

  function TakenEnvelopes(s: State): seq<Envelope>
  {
    Spine.Envelopes(s.db.log, s.broker.stream, TakenSeqs(s))
  }

  /** All the handler has asked its tracker so far. */
  function CallsOf(s: State): seq<Call>
  {
    StreamCalls(s.sub.replays, s.sub.cut, TakenEnvelopes(s))
  }

  /** What the client has been sent, snapshot envelopes first. */
  function Sent(c: Config, s: State): seq<Call>
  {
    Emitted(c.seenCapacity, CallsOf(s))
  }

  /** Row `k` has been emitted live to the subscriber. */
  ghost predicate RowEmitted(c: Config, s: State, k: nat)
    requires k < |s.db.log|
  {
    EmittedLive(c.seenCapacity, CallsOf(s), s.db.log[k].id)
  }

  lemma TakenAgree(c: Config, s: State)
    requires Inv(c, s) && !s.sub.phase.Off?
    ensures IdsAgree(s.sub.replays, TakenEnvelopes(s))
    ensures Ordered(s.sub.joinCursor, Seqs(TakenEnvelopes(s)))
    ensures Seqs(TakenEnvelopes(s)) == TakenSeqs(s)
  {
    var qs := TakenSeqs(s);
    assert Seqs(TakenEnvelopes(s)) == qs;
    forall j | 0 <= j < |qs|
      ensures qs[j] <= s.sub.joinCursor || qs[j] in qs[..j] || forall i :: 0 <= i < j ==> qs[i] < qs[j]
    {
      assert qs[..j] == s.sub.inbox[..j];
    }
  }

  /** A message the subscriber has taken was emitted, or is at or below the cutover, or is older than the join. */
  lemma TakenRow(c: Config, s: State, q: nat)
    requires Inv(c, s) && !s.sub.phase.Off? && q in TakenSeqs(s)
    ensures OnSubject(c, s.db.log, s.broker.stream, q)
    ensures q <= s.sub.cut || q <= s.sub.joinCursor || RowEmitted(c, s, s.broker.stream[q - 1])
  {
    TakenAgree(c, s);
    var j :| 0 <= j < s.sub.taken && s.sub.inbox[j] == q;
    TakenIsHandled(c.seenCapacity, s.sub.replays, s.sub.cut, s.sub.joinCursor, TakenEnvelopes(s), j);
  }

  /** Everything sent on the subject since the join and up to the pump's place is taken or still buffered. */
  lemma ArrivedIsTakenOrBuffered(c: Config, s: State, q: nat)
    requires Inv(c, s) && Listening(s.sub)
    requires s.sub.joinCursor < q <= s.cursor && OnSubject(c, s.db.log, s.broker.stream, q)
    ensures q in TakenSeqs(s) || q in s.sub.inbox[s.sub.taken..]
  {
    assert s.sub.inbox == s.sub.inbox[..s.sub.taken] + s.sub.inbox[s.sub.taken..];
    assert q in s.sub.inbox;
  }

  /** Copy `q` of a row has not got as far as the handler: it is unpumped or still in its buffer. */
  predicate NotConsumed(s: State, q: nat)
  {
    q > s.cursor || (s.sub.taken <= |s.sub.inbox| && q in s.sub.inbox[s.sub.taken..])
  }

  /** Row `k` was committed before `MAX(nats_seq)` was read, so every later snapshot statement sees it. */
  predicate SeenBySnapshot(s: State, k: nat)
  {
    k < s.sub.maxLog && forall i :: 0 <= i < |s.sub.views| ==> k < s.sub.views[i]
  }

  lemma CopyIsHandled(c: Config, s: State, k: nat, q: nat)
    requires Inv(c, s) && s.sub.phase.Tailing? && c.since == 0
    requires k < |s.db.log| && Route(s.db.log[k]) == Some(BoardSubject(c.board)) && Holds(s.broker.stream, q, k)
    ensures SeenBySnapshot(s, k) || RowEmitted(c, s, k) || NotConsumed(s, q)
  {
    if k >= s.sub.maxLog && !NotConsumed(s, q) {
      ArrivedIsTakenOrBuffered(c, s, q);
      TakenRow(c, s, q);
    }
  }

  ghost predicate OpenStream(c: Config, labels: seq<Label>)
  {
    Exec(c, labels).Some? && Exec(c, labels).value.sub.phase.Tailing?
  }

  /**
   Duplicated but never lost.  In every interleaving of writers, dispatchers,
   crashes, the duplicate window, the pump and a fresh subscriber, each row of
   the board was committed before `MAX(nats_seq)` was read, so that every later
   snapshot statement sees it; or has been emitted live; or no copy of it has
   reached the handler yet.
   */
  lemma NothingIsLost(c: Config, labels: seq<Label>, k: nat)
    requires OpenStream(c, labels) && c.since == 0
    requires var s := Exec(c, labels).value;
             k < |s.db.log| && (s.db.log[k].aggregated == Some(c.board) || (s.db.log[k].aggregated == None && s.db.log[k].board == Some(c.board)))
    ensures var s := Exec(c, labels).value;
            || SeenBySnapshot(s, k)
            || RowEmitted(c, s, k)
            || forall q: nat :: Holds(s.broker.stream, q, k) ==> NotConsumed(s, q)
  {
    ReachableInv(c, labels);
    var s := Exec(c, labels).value;
    if q: nat :| Holds(s.broker.stream, q, k) && !NotConsumed(s, q) {
      CopyIsHandled(c, s, k, q);
    }
  }

  /** Every envelope a fresh subscriber's tracker withheld belongs to a row committed before the `MAX(nats_seq)` read, or was already emitted. */
  lemma WithheldIsInSnapshot(c: Config, labels: seq<Label>, q: nat)
    requires OpenStream(c, labels) && c.since == 0 && q in TakenSeqs(Exec(c, labels).value)
    ensures var s := Exec(c, labels).value;
            && OnSubject(c, s.db.log, s.broker.stream, q)
            && (SeenBySnapshot(s, s.broker.stream[q - 1]) || RowEmitted(c, s, s.broker.stream[q - 1]))
  {
    ReachableInv(c, labels);
    TakenRow(c, Exec(c, labels).value, q);
  }

  /** Once the pump and the handler have caught up, every stored row committed after the `MAX(nats_seq)` read has been emitted. */
  lemma CaughtUp(c: Config, labels: seq<Label>, k: nat)
    requires OpenStream(c, labels) && c.since == 0
    requires var s := Exec(c, labels).value;
             && s.cursor == |s.broker.stream| && s.sub.taken == |s.sub.inbox|
             && s.sub.maxLog <= k < |s.db.log| && (s.db.log[k].aggregated == Some(c.board) || (s.db.log[k].aggregated == None && s.db.log[k].board == Some(c.board)))
             && (k in s.db.marks || k in s.broker.stream)
    ensures RowEmitted(c, Exec(c, labels).value, k)
  {
    ReachableInv(c, labels);
    var s := Exec(c, labels).value;
    var q := StoredAt(s, k);
    CopyIsHandled(c, s, k, q);
    assert !NotConsumed(s, q);
  }

  /** A marked or stored row has a place in the stream. */
  lemma StoredAt(s: State, k: nat) returns (q: nat)
    requires DbOk(s.db, s.broker.stream) && (k in s.db.marks || k in s.broker.stream)
    ensures Holds(s.broker.stream, q, k) && 0 < q <= |s.broker.stream|
  {
    if k in s.db.marks {
      q := s.db.marks[k];
    } else {
      var i :| 0 <= i < |s.broker.stream| && s.broker.stream[i] == k;
      q := i + 1;
    }
  }

  /** Only rows of the board reach its subscribers: those that name it as their aggregated board, or name no aggregated board and it as their board. */
  lemma EmittedIsOwn(c: Config, labels: seq<Label>, k: nat)
    requires OpenStream(c, labels) && k < |Exec(c, labels).value.db.log| && RowEmitted(c, Exec(c, labels).value, k)
    ensures var s := Exec(c, labels).value;
            s.db.log[k].aggregated == Some(c.board) || (s.db.log[k].aggregated == None && s.db.log[k].board == Some(c.board))
  {
    ReachableInv(c, labels);
    EmittedIsRouted(c, Exec(c, labels).value, k);
  }

  lemma EmittedIsRouted(c: Config, s: State, k: nat)
    requires Inv(c, s) && s.sub.phase.Tailing? && k < |s.db.log| && RowEmitted(c, s, k)
    ensures Route(s.db.log[k]) == Some(BoardSubject(c.board))
  {
    var id, calls := s.db.log[k].id, CallsOf(s);
    var q :| CallLive(id, q) in Emitted(c.seenCapacity, calls);
    EmittedAreCalls(c.seenCapacity, calls, CallLive(id, q));
    LiveCallsAreEnvelopes(s.sub.replays, s.sub.cut, TakenEnvelopes(s), id, q);
    var j :| 0 <= j < |TakenEnvelopes(s)| && TakenEnvelopes(s)[j] == Envelope(id, q);
    assert TakenSeqs(s)[j] == q;
    TakenRow(c, s, q);
    assert IdAt(s.db.log, s.broker.stream, q) == id;
  }

  /** The emitted sequences of an open stream strictly increase above its cutover, and repeats of an id are far apart. */
  lemma StreamIsMonotone(c: Config, labels: seq<Label>)
    requires OpenStream(c, labels)
    ensures var s := Exec(c, labels).value;
            && Increasing(LiveSeqs(Sent(c, s))) && (forall q :: q in LiveSeqs(Sent(c, s)) ==> q > s.sub.cut)
            && Spaced(Keep(c.seenCapacity), Cutover.Ids(Sent(c, s)))
  {
    var s := Exec(c, labels).value;
    StreamFirstCutover(s.sub.replays, s.sub.cut, TakenEnvelopes(s));
    LiveIsMonotone(c.seenCapacity, CallsOf(s));
    RepeatsAreSpaced(c.seenCapacity, CallsOf(s));
  }

  lemma SentWasTaken(c: Config, s: State, q: nat)
    requires q in LiveSeqs(Sent(c, s))
    ensures q in TakenSeqs(s)
  {
    LiveSeqsAreLive(Sent(c, s), q);
    var id :| CallLive(id, q) in Sent(c, s);
    EmittedAreCalls(c.seenCapacity, CallsOf(s), CallLive(id, q));
    LiveCallsAreEnvelopes(s.sub.replays, s.sub.cut, TakenEnvelopes(s), id, q);
    var j :| 0 <= j < |TakenEnvelopes(s)| && TakenEnvelopes(s)[j] == Envelope(id, q);
    assert TakenSeqs(s)[j] == q;
  }

  /**
   No silent gap: while the stream is open, once some sequence has been emitted,
   every earlier message on the subject above the cutover and since the join has
   been emitted too.
   */
  lemma NoHole(c: Config, labels: seq<Label>, last: nat, q: nat)
    requires OpenStream(c, labels)
    requires var s := Exec(c, labels).value;
             && last in LiveSeqs(Sent(c, s))
             && s.sub.cut < q <= last && s.sub.joinCursor < q && OnSubject(c, s.db.log, s.broker.stream, q)
    ensures var s := Exec(c, labels).value;
            RowEmitted(c, s, s.broker.stream[q - 1])
  {
    ReachableInv(c, labels);
    var s := Exec(c, labels).value;
    SentWasTaken(c, s, last);
    var j :| 0 <= j < s.sub.taken && s.sub.inbox[j] == last;
    assert Covered(c, s.db.log, s.broker.stream, s.sub.joinCursor, last, s.sub.inbox[..j + 1]);
    assert q in s.sub.inbox[..j + 1];
    assert q in TakenSeqs(s);
    TakenRow(c, s, q);
  }
}
