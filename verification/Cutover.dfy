/**
 The replay-to-live state machine of one board stream, with its bounded
 duplicate filter.  An event id is the number its printed form spells; module
 `Ids` shows that printing is injective and order preserving.

 The reference definition is `Tracker`: it remembers every id ever admitted and
 looks only at the last `Keep(capacity)` of them.  The classes below hold the
 deque, hash set and sequence fields of the source and are proved to follow it.
 */
module Cutover {
  import opened Common

  type EventId = nat

  const MAX_U64: nat := 0xFFFF_FFFF_FFFF_FFFF

  datatype Outcome = Emit | Drop | OutOfOrder

  datatype Phase = Replay | Live(resumeSeq: nat)

  /** How many ids the filter really keeps: capacity zero still keeps one. */
  function Keep(capacity: nat): nat
  {
    if capacity == 0 then 1 else capacity
  }

  datatype Tracker = Tracker(capacity: nat, phase: Phase, last: Option<nat>, admitted: seq<EventId>)

  function NewTracker(capacity: nat): Tracker
  {
    Tracker(capacity, Replay, None, [])
  }

  /** The ids the filter still remembers. */
  function Recent(t: Tracker): seq<EventId>
  {
    Suffix(Keep(t.capacity), t.admitted)
  }

  function ReplayOutcome(t: Tracker, id: EventId): Outcome
  {
    if id in Recent(t) then Drop else Emit
  }

  function AfterReplay(t: Tracker, id: EventId): Tracker
  {
    if ReplayOutcome(t, id) == Emit then t.(admitted := t.admitted + [id]) else t
  }

  function AfterCutover(t: Tracker, natsSeq: nat): Tracker
  {
    if t.phase == Replay
    then t.(phase := Live(if natsSeq < MAX_U64 then natsSeq + 1 else MAX_U64), last := Some(natsSeq))
    else t
  }

  function LiveOutcome(t: Tracker, id: EventId, natsSeq: nat): Outcome
  {
    if t.phase == Replay || (t.last.Some? && natsSeq <= t.last.value) then OutOfOrder
    else if id in Recent(t) then Drop
    else Emit
  }

  function AfterLive(t: Tracker, id: EventId, natsSeq: nat): Tracker
  {
    if LiveOutcome(t, id, natsSeq) == Emit
    then t.(admitted := t.admitted + [id], last := Some(natsSeq))
    else t
  }

  // ---------------------------------------------------------------- classes

  /** The ring-buffer set: a deque in admission order and a hash set of the same ids. */
  class BoundedSet {
    const capacity: nat
    var queue: seq<EventId>
    var members: set<EventId>
    ghost var admitted: seq<EventId>

    ghost predicate Valid()
      reads this
    {
      && queue == Suffix(Keep(capacity), admitted)
      && Distinct(queue)
      && members == Members(queue)
    }

    constructor (capacity: nat)
      ensures Valid() && admitted == [] && this.capacity == capacity
    {
      this.capacity := capacity;
      queue, members, admitted := [], {}, [];
    }

    /** Admits `id` unless it is one of the last `Keep(capacity)` admitted ids. */
    method Insert(id: EventId) returns (inserted: bool)
      requires Valid()
      modifies this
      ensures Valid()
      ensures inserted <==> id !in Suffix(Keep(capacity), old(admitted))
      ensures admitted == if inserted then old(admitted) + [id] else old(admitted)
      ensures |queue| <= Keep(capacity)
    {
      if id in members {
        return false;
      }
      FilterNext(capacity, admitted, id);
      if |queue| >= capacity && queue != [] {
        members := members - {queue[0]};
        queue := queue[1..];
      }
      queue := queue + [id];
      members := members + {id};
      admitted := admitted + [id];
      return true;
    }
  }

  /** The last ids admitted, after one more: the oldest goes if they were as many as may be kept. */
  lemma FilterNext(capacity: nat, admitted: seq<EventId>, id: EventId)
    requires Distinct(Suffix(Keep(capacity), admitted)) && id !in Suffix(Keep(capacity), admitted)
    ensures var queue, queue' := Suffix(Keep(capacity), admitted), Suffix(Keep(capacity), admitted + [id]);
            && Distinct(queue')
            && if |queue| >= capacity && queue != []
               then queue' == queue[1..] + [id] && Members(queue') == Members(queue) - {queue[0]} + {id}
               else queue' == queue + [id] && Members(queue') == Members(queue) + {id}
  {
    var queue, queue' := Suffix(Keep(capacity), admitted), Suffix(Keep(capacity), admitted + [id]);
    if |queue| >= capacity && queue != [] {
      assert queue' == queue[1..] + [id];
      DistinctTail(queue);
      assert queue == [queue[0]] + queue[1..];
    } else {
      assert queue' == queue + [id];
    }
  }

  /** The tracker object of one stream. */
  class CutoverTracker {
    var phase: Phase
    const seenIds: BoundedSet
    var lastLiveSeq: Option<nat>

    ghost predicate Valid()
      reads this, seenIds
    {
      && seenIds.Valid()
      && (phase == Replay ==> lastLiveSeq == None)
    }

    /** The reference state this object stands for. */
    ghost function Abstract(): Tracker
      reads this, seenIds
    {
      Tracker(seenIds.capacity, phase, lastLiveSeq, seenIds.admitted)
    }

    constructor (capacity: nat)
      ensures Valid() && fresh(seenIds) && Abstract() == NewTracker(capacity)
    {
      phase := Replay;
      lastLiveSeq := None;
      seenIds := new BoundedSet(capacity);
    }

    method ObserveReplay(id: EventId) returns (outcome: Outcome)
      requires Valid()
      modifies seenIds
      ensures Valid()
      ensures outcome == ReplayOutcome(old(Abstract()), id)
      ensures outcome == if id in old(seenIds.members) then Drop else Emit
      ensures Abstract() == AfterReplay(old(Abstract()), id)
    {
      var isNew := seenIds.Insert(id);
      outcome := if isNew then Emit else Drop;
    }

    method CutoverToLive(lastReplaySeq: nat)
      requires Valid()
      modifies this
      ensures Valid()
      ensures Abstract() == AfterCutover(old(Abstract()), lastReplaySeq)
      ensures old(phase) == Replay ==>
                lastLiveSeq == Some(lastReplaySeq) && phase == Live(if lastReplaySeq < MAX_U64 then lastReplaySeq + 1 else MAX_U64)
      ensures old(phase) != Replay ==> lastLiveSeq == old(lastLiveSeq) && phase == old(phase)
    {
      if phase == Replay {
        phase := Live(if lastReplaySeq < MAX_U64 then lastReplaySeq + 1 else MAX_U64);
        lastLiveSeq := Some(lastReplaySeq);
      }
    }

    method ObserveLive(id: EventId, natsSeq: nat) returns (outcome: Outcome)
      requires Valid()
      modifies this, seenIds
      ensures Valid()
      ensures outcome == LiveOutcome(old(Abstract()), id, natsSeq)
      ensures outcome == OutOfOrder <==> old(phase) == Replay || (old(lastLiveSeq).Some? && natsSeq <= old(lastLiveSeq).value)
      ensures outcome != OutOfOrder ==> (outcome == Drop <==> id in old(seenIds.members))
      ensures lastLiveSeq == (if outcome == Emit then Some(natsSeq) else old(lastLiveSeq)) && phase == old(phase)
      ensures Abstract() == AfterLive(old(Abstract()), id, natsSeq)
    {
      if phase == Replay {
        return OutOfOrder;
      }
      if lastLiveSeq.Some? && natsSeq <= lastLiveSeq.value {
        return OutOfOrder;
      }
      var isNew := seenIds.Insert(id);
      if !isNew {
        return Drop;
      }
      lastLiveSeq := Some(natsSeq);
      return Emit;
    }
  }

  // ------------------------------------------------- runs of a tracker

  datatype Call = CallReplay(id: EventId) | CallCutover(natsSeq: nat) | CallLive(id: EventId, natsSeq: nat)

  function After(t: Tracker, c: Call): Tracker
  {
    match c
    case CallReplay(id) => AfterReplay(t, id)
    case CallCutover(s) => AfterCutover(t, s)
    case CallLive(id, s) => AfterLive(t, id, s)
  }

  predicate Emits(t: Tracker, c: Call)
  {
    match c
    case CallReplay(id) => ReplayOutcome(t, id) == Emit
    case CallCutover(_) => false
    case CallLive(id, s) => LiveOutcome(t, id, s) == Emit
  }

  /** The tracker after a whole sequence of calls on a new one. */
  function Run(capacity: nat, calls: seq<Call>): Tracker
  {
    if calls == [] then NewTracker(capacity) else After(Run(capacity, Front(calls)), Last(calls))
  }

  /** The calls of a run that were answered with `Emit`, in order. */
  function Emitted(capacity: nat, calls: seq<Call>): seq<Call>
  {
    if calls == [] then []
    else
      var before := Emitted(capacity, Front(calls));
      if Emits(Run(capacity, Front(calls)), Last(calls)) then before + [Last(calls)] else before
  }

  function IdOf(c: Call): EventId
  {
    if c.CallCutover? then 0 else c.id
  }

  function Ids(calls: seq<Call>): (ids: seq<EventId>)
    ensures |ids| == |calls|
    ensures forall i :: 0 <= i < |ids| ==> ids[i] == IdOf(calls[i])
  {
    seq(|calls|, i requires 0 <= i < |calls| => IdOf(calls[i]))
  }

  function LiveSeqs(calls: seq<Call>): seq<nat>
  {
    if calls == [] then []
    else if Last(calls).CallLive? then LiveSeqs(Front(calls)) + [Last(calls).natsSeq]
    else LiveSeqs(Front(calls))
  }

  function FirstCutover(calls: seq<Call>): Option<nat>
  {
    if calls == [] then None
    else if FirstCutover(Front(calls)).Some? then FirstCutover(Front(calls))
    else if Last(calls).CallCutover? then Some(Last(calls).natsSeq)
    else None
  }

  /** Any `n + 1` neighbours of `s` are pairwise different. */
  ghost predicate Spaced(n: nat, s: seq<EventId>)
  {
    forall i, j :: 0 <= i < j < |s| && s[i] == s[j] ==> j - i > n
  }

  lemma {:induction false} AdmittedAreEmitted(capacity: nat, calls: seq<Call>)
    ensures Run(capacity, calls).admitted == Ids(Emitted(capacity, calls))
    ensures Run(capacity, calls).capacity == capacity
  {
    if calls != [] {
      AdmittedAreEmitted(capacity, Front(calls));
    }
  }

  lemma SuffixHas(n: nat, ids: seq<EventId>, id: EventId)
    ensures id !in Suffix(n, ids) <==> forall i :: 0 <= i < |ids| && |ids| - i <= n ==> ids[i] != id
  {
    if |ids| > n {
      assert forall i :: |ids| - n <= i < |ids| ==> Suffix(n, ids)[i - (|ids| - n)] == ids[i];
    }
  }

  /**
   Over every call sequence, replay and live calls mixed in any order, an id
   that is emitted twice has at least `max(capacity, 1)` other emissions in
   between, and those emissions carry pairwise different ids, none of them it.
   */
  lemma {:induction false} RepeatsAreSpaced(capacity: nat, calls: seq<Call>)
    ensures Spaced(Keep(capacity), Ids(Emitted(capacity, calls)))
  {
    AdmittedAreEmitted(capacity, calls);
    if calls != [] {
      var front := Front(calls);
      AdmittedAreEmitted(capacity, front);
      RepeatsAreSpaced(capacity, front);
      var t := Run(capacity, front);
      if Emits(t, Last(calls)) {
        SuffixHas(Keep(capacity), t.admitted, IdOf(Last(calls)));
      }
    }
  }

  /** Phase and high-water mark agree with the first cutover value and the live sequences emitted so far. */
  ghost predicate LiveFacts(t: Tracker, first: Option<nat>, emitted: seq<nat>)
  {
    match first
    case None => emitted == [] && t.phase == Replay && t.last == None
    case Some(c) =>
      && t.phase == Live(if c < MAX_U64 then c + 1 else MAX_U64)
      && t.last == Some(if emitted == [] then c else Last(emitted))
      && Increasing(emitted) && (forall s :: s in emitted ==> s > c)
  }

  lemma LiveFactsExtend(t: Tracker, first: nat, emitted: seq<nat>, t': Tracker, s: nat)
    requires LiveFacts(t, Some(first), emitted) && s > t.last.value
    requires t'.phase == t.phase && t'.last == Some(s)
    ensures LiveFacts(t', Some(first), emitted + [s])
  {
    assert forall i :: 0 <= i < |emitted| ==> emitted[i] <= Last(emitted);
    assert Last(emitted + [s]) == s;
    assert emitted != [] ==> Last(emitted) in emitted;
  }

  /**
   Over every call sequence: nothing is emitted live before the first cutover;
   the emitted live sequences strictly increase and all exceed the first cutover
   value; and only that first value ever counts.
   */
  lemma {:induction false} LiveIsMonotone(capacity: nat, calls: seq<Call>)
    ensures LiveFacts(Run(capacity, calls), FirstCutover(calls), LiveSeqs(Emitted(capacity, calls)))
  {
    if calls != [] {
      var front, call := Front(calls), Last(calls);
      LiveIsMonotone(capacity, front);
      var t, before := Run(capacity, front), Emitted(capacity, front);
      assert Front(before + [call]) == before;
      if call.CallLive? && Emits(t, call) {
        LiveFactsExtend(t, FirstCutover(front).value, LiveSeqs(before), After(t, call), call.natsSeq);
      }
    }
  }

  // ------------------------------------------------- exactly what is emitted

  lemma NotRecent(capacity: nat, calls: seq<Call>, id: EventId)
    ensures var e := Emitted(capacity, calls);
            id !in Recent(Run(capacity, calls)) <==>
            forall i :: 0 <= i < |e| && |e| - i <= (if capacity == 0 then 1 else capacity) ==> e[i].CallCutover? || e[i].id != id
  {
    AdmittedAreEmitted(capacity, calls);
    NoCutoverEmitted(capacity, calls);
    SuffixHas(Keep(capacity), Run(capacity, calls).admitted, id);
  }

  lemma {:induction false} NoCutoverEmitted(capacity: nat, calls: seq<Call>)
    ensures forall i :: 0 <= i < |Emitted(capacity, calls)| ==> !Emitted(capacity, calls)[i].CallCutover?
  {
    if calls != [] {
      NoCutoverEmitted(capacity, Front(calls));
    }
  }

  /** In every run a replayed event is emitted if and only if its id is not among the last `max(capacity, 1)` ids emitted. */
  lemma ReplayEmittedIff(capacity: nat, calls: seq<Call>, id: EventId)
    ensures var e := Emitted(capacity, calls);
            Emitted(capacity, calls + [CallReplay(id)]) ==
            if forall i :: 0 <= i < |e| && |e| - i <= (if capacity == 0 then 1 else capacity) ==> e[i].CallCutover? || e[i].id != id
            then e + [CallReplay(id)] else e
  {
    assert Front(calls + [CallReplay(id)]) == calls;
    NotRecent(capacity, calls, id);
  }

  lemma {:induction false} FirstCutoverAt(calls: seq<Call>)
    ensures FirstCutover(calls).None? <==> forall k :: 0 <= k < |calls| ==> !calls[k].CallCutover?
    ensures FirstCutover(calls).Some? ==> exists k :: 0 <= k < |calls| && calls[k] == CallCutover(FirstCutover(calls).value) &&
                                                      forall i :: 0 <= i < k ==> !calls[i].CallCutover?
  {
    if calls != [] {
      var front := Front(calls);
      FirstCutoverAt(front);
      if FirstCutover(front).Some? {
        var k :| 0 <= k < |front| && front[k] == CallCutover(FirstCutover(front).value) && forall i :: 0 <= i < k ==> !front[i].CallCutover?;
        assert calls[k] == front[k] && forall i :: 0 <= i < k ==> calls[i] == front[i];
      } else {
        assert forall i :: 0 <= i < |calls| - 1 ==> calls[i] == front[i];
      }
    }
  }

  lemma {:induction false} LiveSeqsAre(calls: seq<Call>, q: nat)
    ensures q in LiveSeqs(calls) <==> exists i :: 0 <= i < |calls| && calls[i].CallLive? && calls[i].natsSeq == q
  {
    if calls != [] {
      LiveSeqsAre(Front(calls), q);
      if i :| 0 <= i < |Front(calls)| && Front(calls)[i].CallLive? && Front(calls)[i].natsSeq == q {
        assert calls[i] == Front(calls)[i];
      }
    }
  }

  /** Before any cutover nothing is emitted live; cutting over emits nothing. */
  lemma SilentCalls(capacity: nat, calls: seq<Call>, id: EventId, natsSeq: nat)
    ensures Emitted(capacity, calls + [CallCutover(natsSeq)]) == Emitted(capacity, calls)
    ensures (forall k :: 0 <= k < |calls| ==> !calls[k].CallCutover?) ==>
              Emitted(capacity, calls + [CallLive(id, natsSeq)]) == Emitted(capacity, calls)
  {
    assert Front(calls + [CallCutover(natsSeq)]) == calls && Front(calls + [CallLive(id, natsSeq)]) == calls;
    LiveIsMonotone(capacity, calls);
    FirstCutoverAt(calls);
  }

  /**
   In every run, after a first cutover `calls[k]`, a live event is emitted if and only if its
   sequence is above the cutover's and above all emitted live, and its id is not among
   the last `max(capacity, 1)` ids emitted.
   */
  lemma LiveEmittedIff(capacity: nat, calls: seq<Call>, k: nat, id: EventId, natsSeq: nat)
    requires k < |calls| && calls[k].CallCutover? && forall i :: 0 <= i < k ==> !calls[i].CallCutover?
    ensures var e := Emitted(capacity, calls);
            Emitted(capacity, calls + [CallLive(id, natsSeq)]) ==
            if && natsSeq > calls[k].natsSeq
               && (forall i :: 0 <= i < |e| && e[i].CallLive? ==> e[i].natsSeq < natsSeq)
               && (forall i :: 0 <= i < |e| && |e| - i <= (if capacity == 0 then 1 else capacity) ==> e[i].CallCutover? || e[i].id != id)
            then e + [CallLive(id, natsSeq)] else e
  {
    FirstCutoverIs(calls, k);
    LiveStep(capacity, calls, id, natsSeq);
    NotRecent(capacity, calls, id);
    AboveAllLive(capacity, calls, natsSeq);
  }

  lemma FirstCutoverIs(calls: seq<Call>, k: nat)
    requires k < |calls| && calls[k].CallCutover? && forall i :: 0 <= i < k ==> !calls[i].CallCutover?
    ensures FirstCutover(calls) == Some(calls[k].natsSeq)
  {
    FirstCutoverAt(calls);
    assert FirstCutover(calls).Some?;
  }

  lemma LiveStep(capacity: nat, calls: seq<Call>, id: EventId, natsSeq: nat)
    ensures var t, e := Run(capacity, calls), Emitted(capacity, calls);
            t.phase != Replay && t.last.Some? ==>
              Emitted(capacity, calls + [CallLive(id, natsSeq)]) ==
              if natsSeq > t.last.value && id !in Recent(t) then e + [CallLive(id, natsSeq)] else e
  {
    assert Front(calls + [CallLive(id, natsSeq)]) == calls;
  }

  /** The largest sequence emitted live, or the cutover's. */
  lemma LargestLive(capacity: nat, calls: seq<Call>, i: nat)
    requires FirstCutover(calls).Some? && i < |Emitted(capacity, calls)| && Emitted(capacity, calls)[i].CallLive?
    ensures var t := Run(capacity, calls); t.last.Some? && Emitted(capacity, calls)[i].natsSeq <= t.last.value
  {
    LiveIsMonotone(capacity, calls);
    var e, qs := Emitted(capacity, calls), LiveSeqs(Emitted(capacity, calls));
    LiveSeqsAre(e, e[i].natsSeq);
    assert e[i].natsSeq in qs;
    var j :| 0 <= j < |qs| && qs[j] == e[i].natsSeq;
    assert j == |qs| - 1 || qs[j] < qs[|qs| - 1];
  }

  /** The high-water mark is what a live event must come above. */
  lemma AboveAllLive(capacity: nat, calls: seq<Call>, natsSeq: nat)
    requires FirstCutover(calls).Some?
    ensures var t, e := Run(capacity, calls), Emitted(capacity, calls);
            && t.phase != Replay && t.last.Some?
            && (natsSeq > t.last.value <==>
                natsSeq > FirstCutover(calls).value && forall i :: 0 <= i < |e| && e[i].CallLive? ==> e[i].natsSeq < natsSeq)
  {
    LiveIsMonotone(capacity, calls);
    var e, qs, last := Emitted(capacity, calls), LiveSeqs(Emitted(capacity, calls)), Run(capacity, calls).last.value;
    forall i | 0 <= i < |e| && e[i].CallLive?
      ensures e[i].natsSeq <= last
    {
      LargestLive(capacity, calls, i);
    }
    if qs != [] {
      assert Last(qs) in qs;
      assert last == Last(qs) > FirstCutover(calls).value;
      LiveSeqsAre(e, Last(qs));
    }
  }

  // ------------------------------------------------- the aggregate merge

  /** One envelope of the merged channel of an aggregated board. */
  datatype Envelope = Envelope(id: EventId, natsSeq: nat)

  /** What the aggregate loop does with the merged envelopes: cut over at `cut`, then observe each. */
  function MergeCalls(cut: nat, merged: seq<Envelope>): (calls: seq<Call>)
    ensures |calls| == |merged| + 1
  {
    [CallCutover(cut)] + seq(|merged|, i requires 0 <= i < |merged| => CallLive(merged[i].id, merged[i].natsSeq))
  }

  /** `merged[i]` is larger than the cutover and than everything that arrived before it. */
  ghost predicate IsMaximum(cut: nat, merged: seq<Envelope>, i: nat)
    requires i < |merged|
  {
    merged[i].natsSeq > cut && forall j :: 0 <= j < i ==> merged[j].natsSeq < merged[i].natsSeq
  }

  /** The left-to-right maxima of the merged list, in order. */
  ghost function Maxima(cut: nat, merged: seq<Envelope>): seq<Call>
  {
    if merged == [] then []
    else
      var rest := Maxima(cut, Front(merged));
      if IsMaximum(cut, merged, |merged| - 1) then rest + [CallLive(Last(merged).id, Last(merged).natsSeq)] else rest
  }

  ghost predicate DistinctIds(merged: seq<Envelope>)
  {
    forall i, j :: 0 <= i < j < |merged| ==> merged[i].id != merged[j].id
  }

  /** The highest sequence seen so far, the cutover included. */
  function Peak(cut: nat, merged: seq<Envelope>): nat
  {
    if merged == [] then cut
    else if Last(merged).natsSeq > Peak(cut, Front(merged)) then Last(merged).natsSeq
    else Peak(cut, Front(merged))
  }

  lemma {:induction false} PeakIsHighest(cut: nat, merged: seq<Envelope>)
    ensures Peak(cut, merged) >= cut
    ensures forall i :: 0 <= i < |merged| ==> merged[i].natsSeq <= Peak(cut, merged)
    ensures Peak(cut, merged) == cut || exists i :: 0 <= i < |merged| && merged[i].natsSeq == Peak(cut, merged)
  {
    if merged != [] {
      PeakIsHighest(cut, Front(merged));
      if Peak(cut, merged) != cut && Peak(cut, merged) == Peak(cut, Front(merged)) {
        var i :| 0 <= i < |Front(merged)| && Front(merged)[i].natsSeq == Peak(cut, Front(merged));
        assert merged[i].natsSeq == Peak(cut, merged);
      }
    }
  }

  lemma MaximumBeatsPeak(cut: nat, merged: seq<Envelope>)
    requires merged != []
    ensures IsMaximum(cut, merged, |merged| - 1) <==> Last(merged).natsSeq > Peak(cut, Front(merged))
  {
    var front := Front(merged);
    PeakIsHighest(cut, front);
    if Last(merged).natsSeq <= Peak(cut, front) && Peak(cut, front) != cut {
      var i :| 0 <= i < |front| && front[i].natsSeq == Peak(cut, front);
      assert merged[i].natsSeq >= Last(merged).natsSeq;
    }
  }

  ghost predicate IdsFrom(ids: seq<EventId>, merged: seq<Envelope>)
  {
    forall id :: id in ids ==> exists i :: 0 <= i < |merged| && merged[i].id == id
  }

  lemma IdsFromExtend(ids: seq<EventId>, merged: seq<Envelope>)
    requires merged != [] && IdsFrom(ids, Front(merged))
    ensures IdsFrom(ids, merged) && IdsFrom(ids + [Last(merged).id], merged)
  {
    forall id | id in ids
      ensures exists i :: 0 <= i < |merged| && merged[i].id == id
    {
      var i :| 0 <= i < |Front(merged)| && Front(merged)[i].id == id;
      assert merged[i].id == id;
    }
  }

  lemma MergeSnoc(cut: nat, merged: seq<Envelope>)
    requires merged != []
    ensures Front(MergeCalls(cut, merged)) == MergeCalls(cut, Front(merged))
    ensures Last(MergeCalls(cut, merged)) == CallLive(Last(merged).id, Last(merged).natsSeq)
  {
  }

  /** The tracker while it works through a merge: its high-water mark is the peak, its ids come from the merge. */
  ghost predicate MergeFacts(t: Tracker, cut: nat, merged: seq<Envelope>)
  {
    t.phase.Live? && t.last == Some(Peak(cut, merged)) && IdsFrom(t.admitted, merged)
  }

  lemma MergeStep(t: Tracker, cut: nat, merged: seq<Envelope>)
    requires merged != [] && DistinctIds(merged) && MergeFacts(t, cut, Front(merged))
    ensures var e := Last(merged);
            && MergeFacts(AfterLive(t, e.id, e.natsSeq), cut, merged)
            && (LiveOutcome(t, e.id, e.natsSeq) == Emit <==> IsMaximum(cut, merged, |merged| - 1))
  {
    MaximumBeatsPeak(cut, merged);
    IdsFromExtend(t.admitted, merged);
    assert Last(merged).id !in t.admitted;
  }

  lemma {:induction false} MergeState(capacity: nat, cut: nat, merged: seq<Envelope>)
    requires DistinctIds(merged)
    ensures Emitted(capacity, MergeCalls(cut, merged)) == Maxima(cut, merged)
    ensures MergeFacts(Run(capacity, MergeCalls(cut, merged)), cut, merged)
  {
    var calls := MergeCalls(cut, merged);
    if merged == [] {
      assert Front(calls) == [];
      assert Run(capacity, []) == NewTracker(capacity);
    } else {
      MergeSnoc(cut, merged);
      MergeState(capacity, cut, Front(merged));
      MergeStep(Run(capacity, Front(calls)), cut, merged);
    }
  }

  lemma {:induction false} AllAreMaxima(cut: nat, merged: seq<Envelope>)
    ensures |Maxima(cut, merged)| <= |merged|
    ensures |Maxima(cut, merged)| == |merged| <==> forall i :: 0 <= i < |merged| ==> IsMaximum(cut, merged, i)
  {
    if merged != [] {
      var front := Front(merged);
      AllAreMaxima(cut, front);
      assert forall i :: 0 <= i < |front| ==> (IsMaximum(cut, merged, i) <==> IsMaximum(cut, front, i));
    }
  }

  /** The merged list is in sequence order, starting above the cutover. */
  ghost predicate InOrder(cut: nat, merged: seq<Envelope>)
  {
    && (forall i :: 0 <= i < |merged| ==> merged[i].natsSeq > cut)
    && (forall i, j :: 0 <= i < j < |merged| ==> merged[i].natsSeq < merged[j].natsSeq)
  }

  /**
   For every merge of the forwarders' envelopes with distinct event ids, the
   aggregate stream emits exactly the left-to-right maxima above the cutover,
   whatever the filter's capacity.  So it drops nothing if and only if the
   merge happens to be in sequence order.
   */
  lemma {:induction false} MergeEmitsMaxima(capacity: nat, cut: nat, merged: seq<Envelope>)
    requires DistinctIds(merged)
    ensures Emitted(capacity, MergeCalls(cut, merged)) == Maxima(cut, merged)
    ensures |Emitted(capacity, MergeCalls(cut, merged))| == |merged| <==> InOrder(cut, merged)
  {
    MergeState(capacity, cut, merged);
    AllAreMaxima(cut, merged);
    if InOrder(cut, merged) {
      assert forall i :: 0 <= i < |merged| ==> IsMaximum(cut, merged, i);
    }
    if |Maxima(cut, merged)| == |merged| {
      forall j | 0 <= j < |merged|
        ensures merged[j].natsSeq > cut && forall i :: 0 <= i < j ==> merged[i].natsSeq < merged[j].natsSeq
      {
        assert IsMaximum(cut, merged, j);
      }
    }
  }

  /** Two source boards, one event each, forwarded in the unlucky order: the older one is never emitted. */
  lemma AggregateMergeCanDrop(capacity: nat)
    ensures var merged := [Envelope(20, 6), Envelope(10, 5)];
            |Emitted(capacity, MergeCalls(0, merged))| < 2
  {
    var merged := [Envelope(20, 6), Envelope(10, 5)];
    MergeEmitsMaxima(capacity, 0, merged);
    AllAreMaxima(0, merged);
    assert !(merged[0].natsSeq < merged[1].natsSeq);
  }
}
