/**
 The `SubscribeBoard` handler as the loop it is.  What it yields is proved to be
 what the tracker emits for the snapshot, the cutover and the messages received before
 the first thing that ends the stream, which is how `Spine` sees it.
 */
module BoardStream {
  import opened Common
  import opened Cutover
  import opened Spine
  import opened SpineInvariant
  import opened SpineTheorems

  /** The result of a token or permission check; one that fails has a status of its own. */
  datatype Check = Pass | Denied | Failed(failure: Failure)

  datatype Event = Message(envelope: Envelope) | Lagged | Closed | HeartbeatTick

  /** One turn of the live loop: the token check, the permission recheck if one is due, and what `select` returned. */
  datatype Turn = Turn(token: Check, permission: Option<Check>, event: Event)

  /** How the stream opens: the registry refuses, or reading the snapshot fails with some status, or it is read. */
  datatype Opening = SubscribeFails | SnapshotFails(failure: Failure) | Opens(ids: seq<EventId>, lastReplay: nat)

  datatype Failure = Internal | NotFound | Unauthenticated | PermissionDenied | ResourceExhausted

  /** Why a turn ends the stream: with an error for the client, or quietly. */
  datatype Stop = WithError(failure: Failure) | Quietly

  datatype Response =
    | SnapshotItem(id: EventId)
    | CutoverMark(natsSeq: nat)
    | LiveItem(envelope: Envelope)
    | Heartbeat
    | Error(failure: Failure)

  /** The events among the responses, as the calls that emitted them. */
  function Yielded(out: seq<Response>): seq<Call>
  {
    if out == [] then []
    else
      match Last(out)
      case SnapshotItem(id) => Yielded(Front(out)) + [CallReplay(id)]
      case LiveItem(e) => Yielded(Front(out)) + [CallLive(e.id, e.natsSeq)]
      case _ => Yielded(Front(out))
  }

  /** How many heartbeats are among the responses. */
  function Beats(out: seq<Response>): nat
  {
    if out == [] then 0 else Beats(Front(out)) + if Last(out) == Heartbeat then 1 else 0
  }

  /** How many of the first `n` turns found the heartbeat due. */
  function Ticks(turns: seq<Turn>, n: nat): nat
    requires n <= |turns|
  {
    if n == 0 then 0 else Ticks(turns, n - 1) + if turns[n - 1].event == HeartbeatTick then 1 else 0
  }

  lemma BeatsSnoc(out: seq<Response>, r: Response)
    ensures Beats(out + [r]) == if r == Heartbeat then Beats(out) + 1 else Beats(out)
  {
    assert Front(out + [r]) == out;
  }

  lemma {:induction false} BeatsConcat(a: seq<Response>, b: seq<Response>)
    ensures Beats(a + b) == Beats(a) + Beats(b)
  {
    if b == [] {
      assert a + b == a;
    } else {
      BeatsConcat(a, Front(b));
      assert Front(a + b) == a + Front(b) && Last(a + b) == Last(b);
    }
  }

  lemma {:induction false} BeatsAre(out: seq<Response>)
    ensures Beats(out) == |set i: nat | i < |out| && out[i] == Heartbeat|
  {
    var at := set i: nat | i < |out| && out[i] == Heartbeat;
    if out == [] {
      assert at == {};
    } else {
      BeatsAre(Front(out));
      var before := set i: nat | i < |Front(out)| && Front(out)[i] == Heartbeat;
      assert at == if Last(out) == Heartbeat then before + {|out| - 1} else before;
    }
  }

  function TickTurns(turns: seq<Turn>, n: nat): set<nat>
    requires n <= |turns|
  {
    set i: nat | i < n && turns[i].event == HeartbeatTick
  }

  lemma TickTurnsSnoc(turns: seq<Turn>, i: nat)
    requires i < |turns|
    ensures i !in TickTurns(turns, i)
    ensures TickTurns(turns, i + 1) == if turns[i].event == HeartbeatTick then TickTurns(turns, i) + {i} else TickTurns(turns, i)
  {
  }

  lemma {:induction false} TicksAre(turns: seq<Turn>, n: nat)
    requires n <= |turns|
    ensures Ticks(turns, n) == |TickTurns(turns, n)|
  {
    if n > 0 {
      TicksAre(turns, n - 1);
      TickTurnsSnoc(turns, n - 1);
    }
  }

  lemma {:induction false} NoBeats(out: seq<Response>)
    requires forall i :: 0 <= i < |out| ==> out[i] != Heartbeat
    ensures Beats(out) == 0
  {
    if out != [] {
      NoBeats(Front(out));
    }
  }

  predicate NoError(out: seq<Response>)
  {
    forall i :: 0 <= i < |out| ==> !out[i].Error?
  }

  predicate AllSnapshot(out: seq<Response>)
  {
    forall i :: 0 <= i < |out| ==> out[i].SnapshotItem?
  }

  /** Neither a snapshot event nor the cutover mark. */
  predicate AllAfter(out: seq<Response>)
  {
    forall i :: 0 <= i < |out| ==> !out[i].SnapshotItem? && !out[i].CutoverMark?
  }

  /** The tracker has been asked `calls`, and `out` is what that made the stream yield after `before`. */
  ghost predicate InStep(t: Tracker, calls: seq<Call>, before: seq<Call>, out: seq<Response>)
  {
    t == Run(t.capacity, calls) && before + Yielded(out) == Emitted(t.capacity, calls) && NoError(out)
  }

  /** The response that carries an event. */
  predicate Carries(r: Response, call: Call)
  {
    match call
    case CallReplay(id) => r == SnapshotItem(id)
    case CallLive(id, q) => r == LiveItem(Envelope(id, q))
    case CallCutover(q) => r == CutoverMark(q)
  }

  lemma CallKeepsStep(t: Tracker, calls: seq<Call>, before: seq<Call>, out: seq<Response>, call: Call, r: Response)
    requires InStep(t, calls, before, out) && Carries(r, call)
    ensures InStep(After(t, call), calls + [call], before,
                   if Emits(t, call) || call.CallCutover? then out + [r] else out)
  {
    assert Front(calls + [call]) == calls && Front(out + [r]) == out;
    var yielded := if Emits(t, call) then [call] else [];
    assert before + (Yielded(out) + yielded) == (before + Yielded(out)) + yielded;
  }

  /** What the responses say was yielded: snapshot and live events, in order, each as it is. */
  lemma YieldedSnoc(out: seq<Response>, r: Response)
    ensures Yielded([]) == []
    ensures r.SnapshotItem? ==> Yielded(out + [r]) == Yielded(out) + [CallReplay(r.id)]
    ensures r.LiveItem? ==> Yielded(out + [r]) == Yielded(out) + [CallLive(r.envelope.id, r.envelope.natsSeq)]
    ensures r.CutoverMark? || r.Heartbeat? || r.Error? ==> Yielded(out + [r]) == Yielded(out)
  {
    assert Front(out + [r]) == out;
  }

  lemma {:induction false} YieldedConcat(a: seq<Response>, b: seq<Response>)
    ensures Yielded(a + b) == Yielded(a) + Yielded(b)
  {
    if b == [] {
      assert a + b == a;
    } else {
      YieldedConcat(a, Front(b));
      assert Front(a + b) == a + Front(b) && Last(a + b) == Last(b);
    }
  }

  lemma {:induction false} SnapshotYields(out: seq<Response>)
    requires AllSnapshot(out)
    ensures |Yielded(out)| == |out| && forall i :: 0 <= i < |out| ==> Yielded(out)[i] == CallReplay(out[i].id)
  {
    if out != [] {
      SnapshotYields(Front(out));
      assert Last(out).SnapshotItem?;
    }
  }

  // ------------------------------------------------------------ the snapshot

  /** Asks the tracker about one snapshot event. */
  method ReplayOne(tracker: CutoverTracker, ghost calls: seq<Call>, id: EventId, before: seq<Response>) returns (out: seq<Response>)
    requires tracker.Valid() && InStep(tracker.Abstract(), calls, [], before) && AllSnapshot(before)
    modifies tracker.seenIds
    ensures tracker.Valid() && InStep(tracker.Abstract(), calls + [CallReplay(id)], [], out) && AllSnapshot(out)
  {
    CallKeepsStep(tracker.Abstract(), calls, [], before, CallReplay(id), SnapshotItem(id));
    var outcome := tracker.ObserveReplay(id);
    out := if outcome == Emit then before + [SnapshotItem(id)] else before;
  }

  /** Yields the snapshot envelopes the tracker lets through: all of them, when their ids are distinct. */
  method ReplaySnapshot(tracker: CutoverTracker, ids: seq<EventId>) returns (out: seq<Response>)
    requires tracker.Valid() && tracker.Abstract() == NewTracker(tracker.seenIds.capacity)
    modifies tracker.seenIds
    ensures tracker.Valid() && InStep(tracker.Abstract(), ReplayCalls(ids), [], out) && AllSnapshot(out)
    ensures Distinct(ids) ==> |out| == |ids| && forall i :: 0 <= i < |ids| ==> out[i] == SnapshotItem(ids[i])
    ensures |out| <= |ids|
  {
    out := [];
    ghost var calls: seq<Call> := [];
    for i := 0 to |ids|
      invariant calls == ReplayCalls(ids[..i])
      invariant tracker.Valid() && InStep(tracker.Abstract(), calls, [], out) && AllSnapshot(out)
    {
      ReplaySnoc(ids, i);
      out := ReplayOne(tracker, calls, ids[i], out);
      calls := calls + [CallReplay(ids[i])];
    }
    assert ids[..|ids|] == ids;
    assert [] + Yielded(out) == Yielded(out);
    SnapshotIsWhole(tracker.seenIds.capacity, ids, out);
  }

  lemma SnapshotIsWhole(capacity: nat, ids: seq<EventId>, out: seq<Response>)
    requires AllSnapshot(out) && Yielded(out) == Emitted(capacity, ReplayCalls(ids))
    ensures |out| <= |ids|
    ensures Distinct(ids) ==> |out| == |ids| && forall i :: 0 <= i < |ids| ==> out[i] == SnapshotItem(ids[i])
  {
    SnapshotYields(out);
    FewEmitted(capacity, ReplayCalls(ids));
    if Distinct(ids) {
      AllReplaysEmitted(capacity, ids);
      SameReplays(out, ids);
    }
  }

  lemma SameReplays(out: seq<Response>, ids: seq<EventId>)
    requires AllSnapshot(out) && Yielded(out) == ReplayCalls(ids)
    ensures |out| == |ids| && forall i :: 0 <= i < |ids| ==> out[i] == SnapshotItem(ids[i])
  {
    SnapshotYields(out);
    forall i | 0 <= i < |ids|
      ensures out[i] == SnapshotItem(ids[i])
    {
      assert ReplayCalls(ids)[i] == CallReplay(ids[i]) && out[i].SnapshotItem?;
    }
  }

  lemma {:induction false} FewEmitted(capacity: nat, calls: seq<Call>)
    ensures |Emitted(capacity, calls)| <= |calls|
  {
    if calls != [] {
      FewEmitted(capacity, Front(calls));
    }
  }

  lemma ReplaySnoc(ids: seq<EventId>, i: nat)
    requires i < |ids|
    ensures ReplayCalls(ids[..i + 1]) == ReplayCalls(ids[..i]) + [CallReplay(ids[i])]
  {
  }

  // ------------------------------------------------------------ the live tail

  /** `at` are the messages among the first `n` turns, in order, and `asked` what the tracker is asked about them. */
  ghost predicate Picked(turns: seq<Turn>, n: nat, at: seq<nat>, asked: seq<Call>)
    requires n <= |turns|
  {
    && |at| == |asked| && Increasing(at)
    && (forall k {:trigger asked[k]} :: 0 <= k < |at| ==> at[k] < n && turns[at[k]].event.Message? &&
                                                          asked[k] == CallLive(turns[at[k]].event.envelope.id, turns[at[k]].event.envelope.natsSeq))
    && (forall j {:trigger j in at} :: 0 <= j < n && turns[j].event.Message? ==> j in at)
  }

  function CallsOfEvent(event: Event): seq<Call>
  {
    if event.Message? then [CallLive(event.envelope.id, event.envelope.natsSeq)] else []
  }

  /** What the first `n` turns ask the tracker. */
  function AskedBy(turns: seq<Turn>, n: nat): seq<Call>
    requires n <= |turns|
  {
    if n == 0 then [] else AskedBy(turns, n - 1) + CallsOfEvent(turns[n - 1].event)
  }

  lemma {:induction false} AskedIsPicked(turns: seq<Turn>, n: nat) returns (at: seq<nat>)
    requires n <= |turns|
    ensures Picked(turns, n, at, AskedBy(turns, n))
  {
    if n == 0 {
      at := [];
    } else {
      var before := AskedIsPicked(turns, n - 1);
      at := PickedOn(turns, n - 1, before, AskedBy(turns, n - 1), AskedBy(turns, n));
    }
  }

  lemma PickedOn(turns: seq<Turn>, i: nat, at: seq<nat>, asked: seq<Call>, asked': seq<Call>) returns (at': seq<nat>)
    requires i < |turns| && Picked(turns, i, at, asked) && asked' == asked + CallsOfEvent(turns[i].event)
    ensures Picked(turns, i + 1, at', asked')
  {
    at' := if turns[i].event.Message? then at + [i] else at;
    forall k | 0 <= k < |at'|
      ensures at'[k] < i + 1 && turns[at'[k]].event.Message?
      ensures asked'[k] == CallLive(turns[at'[k]].event.envelope.id, turns[at'[k]].event.envelope.natsSeq)
    {
      assert k < |at| ==> asked[k] == asked'[k];
    }
    forall j | 0 <= j < i + 1 && turns[j].event.Message?
      ensures j in at'
    {
      assert j < i ==> j in at;
      assert j == i ==> at'[|at|] == i;
    }
  }

  /** All turns before `n` pass their checks, and neither lag nor find the channel closed. */
  ghost predicate CalmUpTo(turns: seq<Turn>, n: nat)
    requires n <= |turns|
  {
    forall j :: 0 <= j < n ==>
      && turns[j].token == Pass && (turns[j].permission == None || turns[j].permission == Some(Pass))
      && !turns[j].event.Lagged? && !turns[j].event.Closed?
  }

  /** Turn `t` ends the stream with error `f`: the token first, then the permission, then the lag. */
  predicate CallsFor(t: Turn, f: Failure)
  {
    match t.token
    case Denied => f == Unauthenticated
    case Failed(g) => f == g
    case Pass =>
      match t.permission
      case Some(Denied) => f == PermissionDenied
      case Some(Failed(g)) => f == g
      case _ => t.event.Lagged? && f == ResourceExhausted
  }

  /** Turn `t` ends the stream without an error. */
  predicate ClosesQuietly(t: Turn)
  {
    t.token == Pass && (t.permission == None || t.permission == Some(Pass)) && t.event.Closed?
  }

  predicate EndsWith(t: Turn, out: seq<Response>)
  {
    (out != [] && Last(out).Error? && CallsFor(t, Last(out).failure)) || (ClosesQuietly(t) && NoError(out))
  }

  /** The responses end as turn `n`, if there is one, calls for. */
  ghost predicate EndsAt(turns: seq<Turn>, n: nat, out: seq<Response>)
    requires n <= |turns|
  {
    && (if n == |turns| then NoError(out) else EndsWith(turns[n], out))
    && forall i :: 0 <= i < |out| - 1 ==> !out[i].Error?
  }

  /** What ends a stream, case by case: the first turn that is denied, fails a check, lags or finds the channel closed. */
  lemma HowItEnds(turns: seq<Turn>, n: nat, out: seq<Response>)
    requires n <= |turns| && CalmUpTo(turns, n) && EndsAt(turns, n, out)
    ensures forall j :: 0 <= j < n ==>
              && turns[j].token == Pass && (turns[j].permission == None || turns[j].permission == Some(Pass))
              && (turns[j].event.Message? || turns[j].event == HeartbeatTick)
    ensures n == |turns| ==> forall i :: 0 <= i < |out| ==> !out[i].Error?
    ensures n < |turns| && turns[n].token.Denied? ==> out != [] && out[|out| - 1] == Error(Unauthenticated)
    ensures n < |turns| && turns[n].token.Failed? ==> out != [] && out[|out| - 1] == Error(turns[n].token.failure)
    ensures n < |turns| && turns[n].token.Pass? && turns[n].permission == Some(Denied) ==>
              out != [] && out[|out| - 1] == Error(PermissionDenied)
    ensures n < |turns| && turns[n].token.Pass? && turns[n].permission.Some? && turns[n].permission.value.Failed? ==>
              out != [] && out[|out| - 1] == Error(turns[n].permission.value.failure)
    ensures n < |turns| && turns[n].token.Pass? && (turns[n].permission == None || turns[n].permission == Some(Pass)) ==>
              turns[n].event.Lagged? || turns[n].event.Closed?
    ensures n < |turns| && turns[n].token.Pass? && (turns[n].permission == None || turns[n].permission == Some(Pass)) ==>
              turns[n].event.Lagged? ==> out != [] && out[|out| - 1] == Error(ResourceExhausted)
    ensures n < |turns| && turns[n].token.Pass? && (turns[n].permission == None || turns[n].permission == Some(Pass)) ==>
              turns[n].event.Closed? ==> forall i :: 0 <= i < |out| ==> !out[i].Error?
    ensures forall i :: 0 <= i < |out| - 1 ==> !out[i].Error?
  {
  }

  /** What the tracker is asked on the live tail: the messages before turn `n`, at the places `at`, each once, in order. */
  lemma WhatIsAsked(turns: seq<Turn>, n: nat) returns (at: seq<nat>)
    requires n <= |turns|
    ensures |at| == |AskedBy(turns, n)| && forall k, m :: 0 <= k < m < |at| ==> at[k] < at[m]
    ensures forall k :: 0 <= k < |at| ==>
              && at[k] < n && turns[at[k]].event.Message?
              && AskedBy(turns, n)[k] == CallLive(turns[at[k]].event.envelope.id, turns[at[k]].event.envelope.natsSeq)
    ensures forall j :: 0 <= j < n && turns[j].event.Message? ==> exists k :: 0 <= k < |at| && at[k] == j
  {
    at := AskedIsPicked(turns, n);
    forall k | 0 <= k < |at|
      ensures at[k] < n && turns[at[k]].event.Message?
      ensures AskedBy(turns, n)[k] == CallLive(turns[at[k]].event.envelope.id, turns[at[k]].event.envelope.natsSeq)
    {
      assert AskedBy(turns, n)[k] == AskedBy(turns, n)[k];
    }
    forall j | 0 <= j < n && turns[j].event.Message?
      ensures exists k :: 0 <= k < |at| && at[k] == j
    {
      assert j in at;
    }
  }

  /** The live tail sends one heartbeat for every turn before `n` that found it due. */
  lemma HowOftenItBeats(turns: seq<Turn>, n: nat, out: seq<Response>)
    requires n <= |turns| && Beats(out) == Ticks(turns, n)
    ensures |set i: nat | i < |out| && out[i] == Heartbeat| == |set j: nat | j < n && turns[j].event == HeartbeatTick|
  {
    BeatsAre(out);
    TicksAre(turns, n);
  }

  lemma ErrorEnds(out: seq<Response>, f: Failure)
    requires NoError(out)
    ensures Yielded(out + [Error(f)]) == Yielded(out) && Last(out + [Error(f)]) == Error(f)
    ensures forall i :: 0 <= i < |out + [Error(f)]| - 1 ==> !(out + [Error(f)])[i].Error?
  {
    YieldedSnoc(out, Error(f));
  }

  lemma EndsJoin(turns: seq<Turn>, n: nat, a: seq<Response>, b: seq<Response>)
    requires n <= |turns| && NoError(a) && EndsAt(turns, n, b)
    ensures EndsAt(turns, n, a + b)
  {
    forall i | 0 <= i < |a + b| - 1
      ensures !(a + b)[i].Error?
    {
      if i >= |a| {
        assert !b[i - |a|].Error?;
      }
    }
    assert b != [] ==> Last(a + b) == Last(b);
  }

  /**
   The live loop; `before` is what the tracker has been asked so far.  Turn `n` is the
   first that fails a check, lags or finds the channel closed: the stream ends there,
   with the error that calls for and no other (`HowItEnds`).  The messages before it and
   no others are put to the tracker (`WhatIsAsked`), and what it emits is yielded;
   every heartbeat that was due is sent (`HowOftenItBeats`).
   */
  method TailLive(tracker: CutoverTracker, ghost before: seq<Call>, turns: seq<Turn>) returns (out: seq<Response>, ghost n: nat)
    requires tracker.Valid() && tracker.Abstract() == Run(tracker.seenIds.capacity, before)
    modifies tracker, tracker.seenIds
    ensures n <= |turns| && CalmUpTo(turns, n) && EndsAt(turns, n, out) && AllAfter(out) && Beats(out) == Ticks(turns, n)
    ensures Emitted(tracker.seenIds.capacity, before) + Yielded(out) ==
            Emitted(tracker.seenIds.capacity, before + AskedBy(turns, n))
  {
    out := [];
    ghost var emitted := Emitted(tracker.seenIds.capacity, before);
    GoingAtFirst(tracker, before, turns);
    var i := 0;
    while i < |turns| && StopOf(turns[i]) == None
      invariant Going(tracker, before, emitted, turns, i, out)
    {
      out := TakeTurn(tracker, before, emitted, turns, i, out);
      i := i + 1;
    }
    n := i;
    if i < |turns| {
      StoppedEnds(turns, i, out, StopOf(turns[i]).value);
      out := Stopped(out, StopOf(turns[i]).value);
    }
  }

  /** The live loop has gone through `i` turns. */
  ghost predicate Going(tracker: CutoverTracker, before: seq<Call>, emitted: seq<Call>, turns: seq<Turn>, i: nat, out: seq<Response>)
    reads tracker, tracker.seenIds
  {
    && i <= |turns| && CalmUpTo(turns, i) && AllAfter(out) && Beats(out) == Ticks(turns, i)
    && tracker.Valid() && InStep(tracker.Abstract(), before + AskedBy(turns, i), emitted, out)
  }

  lemma GoingAtFirst(tracker: CutoverTracker, before: seq<Call>, turns: seq<Turn>)
    requires tracker.Valid() && tracker.Abstract() == Run(tracker.seenIds.capacity, before)
    ensures Going(tracker, before, Emitted(tracker.seenIds.capacity, before), turns, 0, [])
  {
    AdmittedAreEmitted(tracker.seenIds.capacity, before);
    assert before + AskedBy(turns, 0) == before;
    assert Emitted(tracker.seenIds.capacity, before) + Yielded([]) == Emitted(tracker.seenIds.capacity, before);
  }

  /** A turn that goes on: a message is put to the tracker, a tick yields a heartbeat. */
  method TakeTurn(tracker: CutoverTracker, ghost before: seq<Call>, ghost emitted: seq<Call>, turns: seq<Turn>, i: nat, out: seq<Response>)
    returns (out': seq<Response>)
    requires i < |turns| && StopOf(turns[i]) == None && Going(tracker, before, emitted, turns, i, out)
    modifies tracker, tracker.seenIds
    ensures Going(tracker, before, emitted, turns, i + 1, out')
  {
    ghost var calls := before + AskedBy(turns, i);
    CalmOn(turns, i);
    assert before + AskedBy(turns, i + 1) == calls + CallsOfEvent(turns[i].event);
    if turns[i].event.Message? {
      out' := Observe(tracker, calls, emitted, turns[i].event.envelope, out);
    } else {
      YieldedSnoc(out, Heartbeat);
      BeatsSnoc(out, Heartbeat);
      assert calls + [] == calls;
      out' := out + [Heartbeat];
    }
  }

  /** The steps of a turn in order: the token, the permission if it is due, and what `select` returned. */
  function StopOf(t: Turn): (stop: Option<Stop>)
    ensures stop == None <==> t.token == Pass && (t.permission == None || t.permission == Some(Pass)) && !t.event.Lagged? && !t.event.Closed?
    ensures stop.Some? ==> if stop.value.WithError? then CallsFor(t, stop.value.failure) else ClosesQuietly(t)
  {
    match t.token
    case Denied => Some(WithError(Unauthenticated))
    case Failed(f) => Some(WithError(f))
    case Pass =>
      match t.permission
      case Some(Denied) => Some(WithError(PermissionDenied))
      case Some(Failed(f)) => Some(WithError(f))
      case _ =>
        if t.event.Lagged? then Some(WithError(ResourceExhausted))
        else if t.event.Closed? then Some(Quietly)
        else None
  }

  lemma CalmOn(turns: seq<Turn>, i: nat)
    requires i < |turns| && CalmUpTo(turns, i) && StopOf(turns[i]) == None
    ensures CalmUpTo(turns, i + 1)
  {
    assert turns[i].token == Pass && (turns[i].permission == None || turns[i].permission == Some(Pass));
  }

  /** What a stop adds to the responses. */
  function Stopped(before: seq<Response>, stop: Stop): seq<Response>
  {
    if stop.WithError? then before + [Error(stop.failure)] else before
  }

  lemma StoppedEnds(turns: seq<Turn>, n: nat, before: seq<Response>, stop: Stop)
    requires n < |turns| && NoError(before) && AllAfter(before) && StopOf(turns[n]) == Some(stop)
    ensures var out := Stopped(before, stop);
            EndsAt(turns, n, out) && AllAfter(out) && Yielded(out) == Yielded(before) && Beats(out) == Beats(before)
  {
    if stop.WithError? {
      BeatsSnoc(before, Error(stop.failure));
      ErrorEnds(before, stop.failure);
    }
  }

  /** Puts a message to the tracker. */
  method Observe(tracker: CutoverTracker, ghost calls: seq<Call>, ghost emitted: seq<Call>, e: Envelope, before: seq<Response>)
    returns (out: seq<Response>)
    requires tracker.Valid() && InStep(tracker.Abstract(), calls, emitted, before) && AllAfter(before)
    modifies tracker, tracker.seenIds
    ensures tracker.Valid() && InStep(tracker.Abstract(), calls + [CallLive(e.id, e.natsSeq)], emitted, out)
    ensures AllAfter(out) && Beats(out) == Beats(before)
  {
    BeatsSnoc(before, LiveItem(e));
    CallKeepsStep(tracker.Abstract(), calls, emitted, before, CallLive(e.id, e.natsSeq), LiveItem(e));
    var outcome := tracker.ObserveLive(e.id, e.natsSeq);
    out := if outcome == Emit then before + [LiveItem(e)] else before;
  }

  // ------------------------------------------------------------ the whole stream

  /** Steps 2 and 3: the snapshot, if any, and the cutover envelope. */
  method OpenLive(tracker: CutoverTracker, ids: seq<EventId>, cutover: nat) returns (out: seq<Response>)
    requires tracker.Valid() && tracker.Abstract() == NewTracker(tracker.seenIds.capacity)
    modifies tracker, tracker.seenIds
    ensures tracker.Valid() && InStep(tracker.Abstract(), ReplayCalls(ids) + [CallCutover(cutover)], [], out)
    ensures 0 < |out| <= |ids| + 1 && AllSnapshot(Front(out)) && Last(out) == CutoverMark(cutover)
    ensures Distinct(ids) ==> |out| == |ids| + 1 && forall i :: 0 <= i < |ids| ==> out[i] == SnapshotItem(ids[i])
  {
    out := ReplaySnapshot(tracker, ids);
    CallKeepsStep(tracker.Abstract(), ReplayCalls(ids), [], out, CallCutover(cutover), CutoverMark(cutover));
    out := out + [CutoverMark(cutover)];
    assert Front(out) == out[..|out| - 1];
    tracker.CutoverToLive(cutover);
  }

  /** Snapshot events first, the cutover mark at place `mark`, and everything else after it. */
  ghost predicate Framed(since: nat, opening: Opening, out: seq<Response>, mark: nat)
  {
    && mark < |out| && AllSnapshot(out[..mark]) && AllAfter(out[mark + 1..])
    && (since > 0 ==> mark == 0 && out[0] == CutoverMark(since))
    && (since == 0 && opening.Opens? ==> out[mark] == CutoverMark(opening.lastReplay))
    && (since == 0 && opening.Opens? && Distinct(opening.ids) ==>
          mark == |opening.ids| && forall i :: 0 <= i < mark ==> out[i] == SnapshotItem(opening.ids[i]))
  }

  /** How a stream begins: a fresh one with every event of its snapshot in order, then its maximum; a resume with its token. */
  lemma HowItBegins(since: nat, opening: Opening, out: seq<Response>, mark: nat)
    requires Framed(since, opening, out, mark)
    ensures mark < |out| && (forall i :: 0 <= i < mark ==> out[i].SnapshotItem?)
    ensures forall i :: mark < i < |out| ==> !out[i].SnapshotItem? && !out[i].CutoverMark?
    ensures since > 0 ==> mark == 0 && out[0] == CutoverMark(since)
    ensures since == 0 && opening.Opens? ==> out[mark] == CutoverMark(opening.lastReplay)
    ensures since == 0 && opening.Opens? && Distinct(opening.ids) ==>
              mark == |opening.ids| && forall i :: 0 <= i < |opening.ids| ==> out[i] == SnapshotItem(opening.ids[i])
  {
    assert forall i :: 0 <= i < mark ==> out[..mark][i] == out[i];
    assert forall i :: mark < i < |out| ==> out[mark + 1..][i - mark - 1] == out[i];
  }

  /** What the tracker is asked before the live tail. */
  function OpeningCalls(since: nat, opening: Opening): (calls: seq<Call>)
  {
    if since == 0 && opening.Opens? then ReplayCalls(opening.ids) + [CallCutover(opening.lastReplay)] else [CallCutover(since)]
  }

  /** A fresh stream asks about every event of the snapshot, in order, and then cuts over; a resume only cuts over. */
  lemma WhatIsAskedFirst(since: nat, opening: Opening)
    ensures since > 0 ==> OpeningCalls(since, opening) == [CallCutover(since)]
    ensures since == 0 && opening.Opens? ==>
              var calls := OpeningCalls(since, opening);
              && |calls| == |opening.ids| + 1 && calls[|opening.ids|] == CallCutover(opening.lastReplay)
              && forall i :: 0 <= i < |opening.ids| ==> calls[i] == CallReplay(opening.ids[i])
  {
  }

  /** The calls of a stream are those of the transition system. */
  lemma AskedIsStream(since: nat, opening: Opening, es: seq<Envelope>, asked: seq<Call>)
    requires |asked| == |es| && forall k :: 0 <= k < |es| ==> asked[k] == CallLive(es[k].id, es[k].natsSeq)
    ensures since > 0 ==> OpeningCalls(since, opening) + asked == StreamCalls([], since, es)
    ensures since == 0 && opening.Opens? ==> OpeningCalls(since, opening) + asked == StreamCalls(opening.ids, opening.lastReplay, es)
  {
  }

  /**
   The whole stream.  A refused opening yields its one error.  Otherwise the snapshot
   comes first, then the cutover mark at place `mark`, then the live tail, which ends as
   turn `n` calls for; the tracker is asked about the snapshot, the cutover and the
   messages before turn `n`, and what it emits is yielded.  A fresh stream replays the
   snapshot, whole if its ids are distinct, and cuts over at its maximum; a resume
   replays nothing and cuts over at its token.
   */
  method BuildStream(capacity: nat, since: nat, opening: Opening, turns: seq<Turn>)
    returns (out: seq<Response>, ghost mark: nat, ghost n: nat)
    ensures opening.SubscribeFails? ==> out == [Error(Internal)]
    ensures since == 0 && opening.SnapshotFails? ==> out == [Error(opening.failure)]
    ensures !opening.SubscribeFails? && !(since == 0 && opening.SnapshotFails?) ==>
              && n <= |turns| && CalmUpTo(turns, n) && EndsAt(turns, n, out) && Framed(since, opening, out, mark)
              && Yielded(out) == Emitted(capacity, OpeningCalls(since, opening) + AskedBy(turns, n)) && Beats(out) == Ticks(turns, n)
  {
    mark, n := 0, 0;
    if opening.SubscribeFails? {
      out := [Error(Internal)];
      return;
    }
    if since == 0 && opening.SnapshotFails? {
      out := [Error(opening.failure)];
      return;
    }
    var ids := if since == 0 then opening.ids else [];
    var cutover := if since == 0 then opening.lastReplay else since;
    var tracker := new CutoverTracker(capacity);
    var replay := OpenLive(tracker, ids, cutover);
    ghost var before := ReplayCalls(ids) + [CallCutover(cutover)];
    assert [] + Yielded(replay) == Yielded(replay) == Emitted(capacity, before);
    var live;
    live, n := TailLive(tracker, before, turns);
    YieldedConcat(replay, live);
    BeatsConcat(replay, live);
    ReplayHasNoError(replay, cutover);
    EndsJoin(turns, n, replay, live);
    FrameHolds(since, opening, replay, live);
    out, mark := replay + live, |replay| - 1;
  }

  lemma FrameHolds(since: nat, opening: Opening, replay: seq<Response>, live: seq<Response>)
    requires replay != [] && AllSnapshot(Front(replay)) && AllAfter(live)
    requires since > 0 ==> |replay| == 1 && Last(replay) == CutoverMark(since)
    requires since == 0 && opening.Opens? ==> Last(replay) == CutoverMark(opening.lastReplay)
    requires since == 0 && opening.Opens? && Distinct(opening.ids) ==>
               |replay| == |opening.ids| + 1 && forall i :: 0 <= i < |opening.ids| ==> replay[i] == SnapshotItem(opening.ids[i])
    ensures Framed(since, opening, replay + live, |replay| - 1)
  {
    var out, k := replay + live, |replay| - 1;
    assert out[..k] == Front(replay) && out[k] == Last(replay) && out[k + 1..] == live;
  }

  lemma ReplayHasNoError(replay: seq<Response>, cutover: nat)
    requires replay != [] && AllSnapshot(Front(replay)) && Last(replay) == CutoverMark(cutover)
    ensures NoError(replay) && Beats(replay) == 0
  {
    assert forall i :: 0 <= i < |replay| - 1 ==> Front(replay)[i] == replay[i];
    NoBeats(replay);
  }

  // ------------------------------------------------------------ the transition system's stream as turns

  /** What a run of the whole system hands the handler, checks always passing: one turn a receive. */
  ghost function TurnsOf(c: Config, labels: seq<Label>): seq<Turn>
  {
    if labels == [] || Exec(c, Front(labels)).None? then []
    else TurnsOf(c, Front(labels)) + if Last(labels) == Handle(Receive) then [Turn(Pass, None, EventOf(c, Exec(c, Front(labels)).value))] else []
  }

  /** What `recv` returns: the next envelope, or the lag when more than the ring is waiting. */
  function EventOf(c: Config, s: State): Event
  {
    if |s.sub.inbox| > s.sub.taken + c.ring then Lagged
    else if s.sub.taken < |s.sub.inbox| then
      Message(Envelope(IdAt(s.db.log, s.broker.stream, s.sub.inbox[s.sub.taken]), s.sub.inbox[s.sub.taken]))
    else HeartbeatTick
  }

  /** The messages taken, and after them the lag if the stream has ended with it. */
  ghost predicate TurnsAre(s: State, turns: seq<Turn>)
  {
    var es := TakenEnvelopes(s);
    && |turns| == |es| + (if s.sub.phase == Ended(true) then 1 else 0)
    && (forall i :: 0 <= i < |es| ==> turns[i] == Turn(Pass, None, Message(es[i])))
    && (s.sub.phase == Ended(true) ==> turns[|es|] == Turn(Pass, None, Lagged))
  }

  /**
   In every run the handler's turns are the messages taken, all checks passing, and then, if
   and only if the run has ended with the lag, one turn that lags; so `BuildStream` ends
   with `ResourceExhausted` exactly in the runs of `LagEndsTheStreamIff`.
   */
  lemma {:induction false} RunAsTurns(c: Config, labels: seq<Label>)
    requires Exec(c, labels).Some?
    ensures TurnsAre(Exec(c, labels).value, TurnsOf(c, labels))
  {
    if labels != [] {
      var s, l := Exec(c, Front(labels)).value, Last(labels);
      RunAsTurns(c, Front(labels));
      ReachableInv(c, Front(labels));
      ReachableInv(c, labels);
      TurnStep(c, s, l, TurnsOf(c, Front(labels)));
    }
  }

  lemma TurnStep(c: Config, s: State, l: Label, turns: seq<Turn>)
    requires Inv(c, s) && Enabled(c, s, l) && TurnsAre(s, turns)
    ensures TurnsAre(Step(c, s, l), turns + if l == Handle(Receive) then [Turn(Pass, None, EventOf(c, s))] else [])
  {
    if l == Handle(Receive) {
      ReceiveTurn(c, s, turns);
    } else {
      TakenStays(c, s, l);
      assert turns + [] == turns;
    }
  }

  lemma ReceiveTurn(c: Config, s: State, turns: seq<Turn>)
    requires CanHandle(c, s, Receive) && s.sub.taken <= |s.sub.inbox| && TurnsAre(s, turns)
    ensures TurnsAre(Step(c, s, Handle(Receive)), turns + [Turn(Pass, None, EventOf(c, s))])
  {
    var s', q := Step(c, s, Handle(Receive)), s.sub.inbox[s.sub.taken];
    if |s.sub.inbox| - s.sub.taken <= c.ring {
      assert TakenSeqs(s') == TakenSeqs(s) + [q];
      assert TakenEnvelopes(s') == TakenEnvelopes(s) + [Envelope(IdAt(s.db.log, s.broker.stream, q), q)];
    }
  }

  lemma TakenStays(c: Config, s: State, l: Label)
    requires Inv(c, s) && Enabled(c, s, l) && l != Handle(Receive)
    ensures var s' := Step(c, s, l); TakenEnvelopes(s') == TakenEnvelopes(s) && (s'.sub.phase == Ended(true) <==> s.sub.phase == Ended(true))
  {
    var s' := Step(c, s, l);
    SeqsStay(c, s, l);
    assert s.sub.phase.Off? ==> s.sub == NO_SUB;
    forall j | 0 <= j < |TakenSeqs(s)|
      ensures IdAt(s'.db.log, s'.broker.stream, TakenSeqs(s)[j]) == IdAt(s.db.log, s.broker.stream, TakenSeqs(s)[j])
    {
      TakenRow(c, s, TakenSeqs(s)[j]);
    }
  }

  /** The sub-state keeps what has been taken: only a receive takes. */
  predicate TakesNothing(sub: Sub, sub': Sub)
  {
    && sub'.taken == sub.taken && sub.inbox <= sub'.inbox
    && (sub'.phase == Ended(true) <==> sub.phase == Ended(true))
  }

  lemma HandleTakesNothing(c: Config, s: State, op: HandlerOp)
    requires Inv(c, s) && CanHandle(c, s, op) && op != Receive
    ensures TakesNothing(s.sub, AfterHandle(c, s.sub, s.cursor, |s.db.log|, op))
  {
    assert op.Subscribe? ==> s.sub == NO_SUB;
  }

  lemma SeqsStay(c: Config, s: State, l: Label)
    requires Inv(c, s) && Enabled(c, s, l) && l != Handle(Receive)
    ensures var s' := Step(c, s, l);
            && TakenSeqs(s') == TakenSeqs(s) && s.db.log <= s'.db.log && s.broker.stream <= s'.broker.stream
            && (s'.sub.phase == Ended(true) <==> s.sub.phase == Ended(true))
  {
    var s' := Step(c, s, l);
    if l.Handle? {
      HandleTakesNothing(c, s, l.handle);
    }
    assert TakesNothing(s.sub, s'.sub);
    TakenIsPrefix(c, s);
  }

  lemma TakenIsPrefix(c: Config, s: State)
    requires Inv(c, s)
    ensures s.sub.taken <= |s.sub.inbox|
  {
  }

  lemma {:induction false} AskedAboutMessages(turns: seq<Turn>, es: seq<Envelope>, n: nat)
    requires n <= |es| <= |turns| && forall i :: 0 <= i < n ==> turns[i].event == Message(es[i])
    ensures |AskedBy(turns, n)| == n && forall k :: 0 <= k < n ==> AskedBy(turns, n)[k] == CallLive(es[k].id, es[k].natsSeq)
  {
    if n > 0 {
      AskedAboutMessages(turns, es, n - 1);
    }
  }

  /** A stream whose turns are those of a run ends with `ResourceExhausted` if and only if the run has ended with the lag, and asks the tracker about exactly what the run has taken. */
  lemma RunAsStream(c: Config, labels: seq<Label>, n: nat, out: seq<Response>)
    requires Exec(c, labels).Some? && n <= |TurnsOf(c, labels)|
    requires CalmUpTo(TurnsOf(c, labels), n) && EndsAt(TurnsOf(c, labels), n, out)
    ensures var s, es, asked := Exec(c, labels).value, TakenEnvelopes(Exec(c, labels).value), AskedBy(TurnsOf(c, labels), n);
            && (s.sub.phase == Ended(true) <==> out != [] && out[|out| - 1] == Error(ResourceExhausted))
            && |asked| == |es| && forall k :: 0 <= k < |es| ==> asked[k] == CallLive(es[k].id, es[k].natsSeq)
  {
    RunAsTurns(c, labels);
    var s, turns := Exec(c, labels).value, TurnsOf(c, labels);
    var es := TakenEnvelopes(s);
    if n < |es| {
      assert turns[n] == Turn(Pass, None, Message(es[n]));
    }
    HowItEnds(turns, n, out);
    AskedAboutMessages(turns, es, |es|);
    assert n == |es|;
  }
}
