/** What the dispatchers keep true of the stream and the marks, over every run of `Spine`. */
module OutboxSafety {
  import opened Common
  import opened Cutover
  import opened Spine
  import opened SpineInvariant

  /**
   With any number of dispatchers, crashes, failed publishes, lost acks and failed
   updates: every stored message carries a committed row and is on the subject the
   row routes to, and a row's `nats_seq` names a message that carries that row.
   */
  lemma StreamAndMarksAgree(c: Config, labels: seq<Label>)
    requires Exec(c, labels).Some?
    ensures var s := Exec(c, labels).value;
            && (forall i :: 0 <= i < |s.broker.stream| ==>
                  s.broker.stream[i] < |s.db.log| && Route(s.db.log[s.broker.stream[i]]).Some?)
            && (forall k :: k in s.db.marks ==> k < |s.db.log| && Holds(s.broker.stream, s.db.marks[k], k))
            && (forall i, j :: 0 <= i < j < |s.db.log| ==> s.db.log[i].id != s.db.log[j].id)
  {
    ReachableInv(c, labels);
  }

  // ------------------------------------------------------------ at most one copy

  /** Step `i` stores a message whose row is already stored, outside the duplicate window or without a message id. */
  ghost predicate StoresAgain(c: Config, labels: seq<Label>, i: nat)
    requires i < |labels|
  {
    && labels[i].Store? && Exec(c, labels[..i]).Some?
    && var s, p := Exec(c, labels[..i]).value, labels[i].p;
       p.row in s.broker.stream && !(p.withId && p.row in s.broker.window)
  }

  lemma PrefixStoresAgain(c: Config, labels: seq<Label>, i: nat)
    requires i < |labels| - 1
    ensures StoresAgain(c, labels, i) <==> StoresAgain(c, Front(labels), i)
  {
    assert labels[..i] == Front(labels)[..i];
  }

  lemma LastStoresAgain(c: Config, labels: seq<Label>)
    requires labels != [] && Exec(c, labels).Some?
    ensures Distinct(Exec(c, labels).value.broker.stream) <==>
            Distinct(Exec(c, Front(labels)).value.broker.stream) && !StoresAgain(c, labels, |labels| - 1)
  {
    assert labels[..|labels| - 1] == Front(labels);
    var s := Exec(c, Front(labels)).value;
    if Last(labels).Store? {
      StoredOnce(s.broker, Last(labels).p);
    } else {
      assert Exec(c, labels).value.broker.stream == s.broker.stream;
    }
  }

  /**
   The stream holds at most one message per row if and only if every re-publish
   of a stored row carried its message id and fell inside the duplicate window.
   */
  lemma {:induction false} OneCopyIffInsideWindow(c: Config, labels: seq<Label>)
    requires Exec(c, labels).Some?
    ensures Distinct(Exec(c, labels).value.broker.stream) <==> forall i :: 0 <= i < |labels| ==> !StoresAgain(c, labels, i)
  {
    if labels != [] {
      OneCopyIffInsideWindow(c, Front(labels));
      forall i | 0 <= i < |labels| - 1
        ensures StoresAgain(c, labels, i) <==> StoresAgain(c, Front(labels), i)
      {
        PrefixStoresAgain(c, labels, i);
      }
      LastStoresAgain(c, labels);
    }
  }

  lemma StoredOnce(b: Broker, p: Publish)
    ensures Distinct(AfterStore(b, p).stream) <==>
            Distinct(b.stream) && !(p.row in b.stream && !(p.withId && p.row in b.window))
  {
    var after := AfterStore(b, p).stream;
    if !(p.withId && p.row in b.window) {
      assert after[|b.stream|] == p.row;
      if p.row in b.stream {
        var i :| 0 <= i < |b.stream| && b.stream[i] == p.row;
        assert after[i] == after[|b.stream|];
      }
      assert forall i :: 0 <= i < |b.stream| ==> after[i] == b.stream[i];
    }
  }

  // ------------------------------------------------------------ marked rows

  /** After `labels`, dispatcher `d` is about to publish a row whose `nats_seq` is set. */
  ghost predicate RepublishesMarked(c: Config, labels: seq<Label>, d: nat)
  {
    && Exec(c, labels).Some?
    && var s := Exec(c, labels).value;
       CanDispatch(c, s, d, Send(true)) && Current(s, d) in s.db.marks
  }

  /** The lone dispatcher's remaining rows are unmarked and pairwise different. */
  ghost predicate RestUnmarked(marks: map<nat, nat>, pc: Pc)
  {
    pc.Working? ==>
      && (forall i, j :: 0 <= i < j < |pc.batch| ==> pc.batch[i] != pc.batch[j])
      && (forall i :: pc.at <= i < |pc.batch| ==> pc.batch[i] !in marks)
  }

  lemma {:induction false} LoneDispatcher(c: Config, labels: seq<Label>)
    requires c.dispatchers <= 1 && Exec(c, labels).Some?
    ensures var s := Exec(c, labels).value;
            |s.pcs| == c.dispatchers && forall d :: 0 <= d < |s.pcs| ==> RestUnmarked(s.db.marks, s.pcs[d])
  {
    if labels != [] {
      LoneDispatcher(c, Front(labels));
      ReachableInv(c, Front(labels));
      LoneStep(c, Exec(c, Front(labels)).value, Last(labels));
    }
  }

  lemma LoneStep(c: Config, s: State, l: Label)
    requires Enabled(c, s, l) && |s.pcs| <= 1
    requires forall d :: 0 <= d < |s.pcs| ==> RestUnmarked(s.db.marks, s.pcs[d])
    ensures var s' := Step(c, s, l);
            |s'.pcs| == |s.pcs| && forall d :: 0 <= d < |s'.pcs| ==> RestUnmarked(s'.db.marks, s'.pcs[d])
  {
    var s' := Step(c, s, l);
    match l
    case Dispatch(d, op) =>
      assert RestUnmarked(s.db.marks, s.pcs[d]);
      if op.Select? {
        assert forall i, j :: 0 <= i < j < |op.batch| ==> s.db.log[op.batch[i]].id < s.db.log[op.batch[j]].id;
      }
    case _ =>
      assert s'.pcs == s.pcs && forall k :: k in s'.db.marks ==> k in s.db.marks;
  }

  function BoardRow(c: Config, id: EventId): Row
  {
    Row(id, c.tenant, None, Some(c.board), None, OtherChange)
  }

  predicate IsRedelivery(l: Label)
  {
    l.Pump? && l.pump.Redeliver?
  }

  ghost predicate NoRedelivery(labels: seq<Label>)
  {
    forall i :: 0 <= i < |labels| ==> !IsRedelivery(labels[i])
  }

  /** Appends an enabled step to a run. */
  lemma Extend(c: Config, labels: seq<Label>, s: State, l: Label) returns (labels': seq<Label>, s': State)
    requires Exec(c, labels) == Some(s) && NoRedelivery(labels)
    requires Enabled(c, s, l) && !IsRedelivery(l)
    ensures s' == Step(c, s, l) && Exec(c, labels') == Some(s') && NoRedelivery(labels')
  {
    ExecSnoc(c, labels, l);
    labels', s' := labels + [l], Step(c, s, l);
  }

  /** A batch that takes in every row of a log with ascending ids and no marks. */
  lemma WholeLogIsBatch(db: Db, limit: nat, batch: seq<nat>)
    requires db.marks == map[] && db.gone == {} && |batch| == |db.log| <= limit
    requires forall i :: 0 <= i < |batch| ==> batch[i] == i
    requires forall i, j :: 0 <= i < j < |db.log| ==> db.log[i].id < db.log[j].id
    ensures IsBatch(db, limit, batch)
  {
    forall k: nat | Undispatched(db, k)
      ensures k in batch
    {
      assert batch[k] == k;
    }
  }

  /** From a state in which dispatcher 0 is about to publish a row the window does not know, the row is stored and acked. */
  lemma PublishIsAcked(c: Config, labels: seq<Label>, s: State) returns (labels': seq<Label>, s': State)
    requires Exec(c, labels) == Some(s) && NoRedelivery(labels)
    requires CanDispatch(c, s, 0, Send(true)) && Current(s, 0) !in s.broker.window
    ensures Exec(c, labels') == Some(s') && NoRedelivery(labels')
    ensures var k, q := Current(s, 0), |s.broker.stream| + 1;
            && s' == s.(pcs := s'.pcs, broker := s'.broker, inflight := s'.inflight, acks := s'.acks)
            && s'.broker == Broker(s.broker.stream + [k], s.broker.window[k := q])
            && s'.pcs == s.pcs[0 := s.pcs[0].(stage := AwaitingAck)]
            && PubAck(0, k, q) in s'.acks
  {
    var s1;
    labels', s1 := Extend(c, labels, s, Dispatch(0, Send(true)));
    labels', s' := Extend(c, labels', s1, Store(Publish(0, Current(s, 0), true)));
  }

  /** Dispatcher 0, awaiting an ack that has been issued, receives it and its update succeeds or fails. */
  lemma AckIsRecorded(c: Config, labels: seq<Label>, s: State, q: nat, ok: bool) returns (labels': seq<Label>, s': State)
    requires Exec(c, labels) == Some(s) && NoRedelivery(labels)
    requires AtStage(s, 0, AwaitingAck) && PubAck(0, Current(s, 0), q) in s.acks
    ensures Exec(c, labels') == Some(s') && NoRedelivery(labels')
    ensures s' == s.(db := if ok then AfterMark(s.db, Current(s, 0), q) else s.db, pcs := s.pcs[0 := NextRow(s.pcs[0])])
  {
    var s1;
    labels', s1 := Extend(c, labels, s, Dispatch(0, ReceiveAck(q)));
    assert s1 == s.(pcs := s.pcs[0 := s.pcs[0].(stage := Acked(q))]);
    labels', s' := Extend(c, labels', s1, Dispatch(0, if ok then Mark else MarkFail));
    assert s'.pcs == s.pcs[0 := NextRow(s.pcs[0])];
  }

  /** From a state in which dispatcher 0 is about to publish a row the window does not know, it publishes and marks it. */
  lemma PublishAndMark(c: Config, labels: seq<Label>, s: State) returns (labels': seq<Label>, s': State)
    requires Exec(c, labels) == Some(s) && NoRedelivery(labels)
    requires CanDispatch(c, s, 0, Send(true))
    requires Current(s, 0) !in s.broker.window && Current(s, 0) !in s.db.gone
    ensures Exec(c, labels') == Some(s') && NoRedelivery(labels')
    ensures var k, q := Current(s, 0), |s.broker.stream| + 1;
            && s'.db == s.db.(marks := s.db.marks[k := q])
            && s'.broker == Broker(s.broker.stream + [k], s.broker.window[k := q])
            && s'.pcs == s.pcs[0 := NextRow(s.pcs[0])]
            && s'.cursor == s.cursor && s'.sub == s.sub
  {
    var s1;
    labels', s1 := PublishIsAcked(c, labels, s);
    labels', s' := AckIsRecorded(c, labels', s1, |s.broker.stream| + 1, true);
    assert s'.pcs == s.pcs[0 := NextRow(s.pcs[0])];
  }

  lemma Commits(c: Config, rows: seq<Row>) returns (labels: seq<Label>, s: State)
    requires forall i, j :: 0 <= i < j < |rows| ==> rows[i].id != rows[j].id
    ensures Exec(c, labels) == Some(s) && NoRedelivery(labels)
    ensures s == Init(c).(db := Db(rows, map[], {}))
  {
    labels, s := Extend(c, [], Init(c), Write(Commit(rows)));
  }

  /** Two rows are committed and dispatcher 0 selects them. */
  lemma SelectsTwo(c: Config, labels: seq<Label>, s: State, rows: seq<Row>) returns (labels': seq<Label>, s': State)
    requires Exec(c, labels) == Some(s) && NoRedelivery(labels) && c.dispatchers > 0 && c.batchSize >= 2
    requires s == Init(c).(sub := s.sub) && |rows| == 2 && rows[0].id < rows[1].id
    requires rows[0].id !in s.sub.replays && rows[1].id !in s.sub.replays
    ensures Exec(c, labels') == Some(s') && NoRedelivery(labels')
    ensures s' == s.(db := Db(rows, map[], {}), pcs := s.pcs[0 := Working([0, 1], 0, ToPublish)])
  {
    labels', s' := Extend(c, labels, s, Write(Commit(rows)));
    WholeLogIsBatch(s'.db, c.batchSize, [0, 1]);
    labels', s' := Extend(c, labels', s', Dispatch(0, Select([0, 1])));
  }

  /** And publishes and marks both. */
  lemma PublishesTwo(c: Config, labels: seq<Label>, s: State) returns (labels': seq<Label>, s': State)
    requires Exec(c, labels) == Some(s) && NoRedelivery(labels) && |s.pcs| > 0 && s.pcs[0] == Working([0, 1], 0, ToPublish)
    requires s.broker == Broker([], map[]) && s.db.marks == map[] && s.db.gone == {} && |s.db.log| == 2
    requires Route(s.db.log[0]).Some? && Route(s.db.log[1]).Some?
    ensures Exec(c, labels') == Some(s') && NoRedelivery(labels') && s'.sub == s.sub
    ensures s'.db.log == s.db.log && s'.broker.stream == [0, 1] && s'.cursor == s.cursor
  {
    labels', s' := PublishAndMark(c, labels, s);
    assert s'.pcs[0] == Working([0, 1], 1, ToPublish);
    labels', s' := PublishAndMark(c, labels', s');
  }

  /** Two dispatchers both select the one row; the first publishes and marks it, and the second is about to publish it. */
  lemma RaceRuns(c: Config) returns (ls: seq<Label>)
    requires c.dispatchers >= 2 && c.batchSize >= 1
    ensures RepublishesMarked(c, ls, 1)
  {
    var s0, s1, s2, s3;
    ls, s0 := Commits(c, [BoardRow(c, 7)]);
    WholeLogIsBatch(s0.db, c.batchSize, [0]);
    ls, s1 := Extend(c, ls, s0, Dispatch(0, Select([0])));
    ls, s2 := Extend(c, ls, s1, Dispatch(1, Select([0])));
    ls, s3 := PublishAndMark(c, ls, s2);
  }

  /**
   The module comment says that a row with `nats_seq` set is never published
   again.  That holds over all runs if and only if at most one dispatcher runs:
   two pods may both have the row in hand before either marks it.
   */
  lemma MarkedIsFinalIffLone(c: Config)
    requires c.batchSize >= 1
    ensures (forall labels, d :: !RepublishesMarked(c, labels, d)) <==> c.dispatchers <= 1
  {
    if c.dispatchers <= 1 {
      forall labels, d
        ensures !RepublishesMarked(c, labels, d)
      {
        if Exec(c, labels).Some? {
          LoneDispatcher(c, labels);
        }
      }
    } else {
      var ls := RaceRuns(c);
    }
  }
}
