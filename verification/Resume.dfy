/**
 A resumed stream (`since_seq > 0`) skips the snapshot and relies on the channel
 to replay history.  A channel that already exists does not: what its pump had
 broadcast before the subscriber joined is gone for that subscriber.
 */
module Resume {
  import opened Common
  import opened Cutover
  import opened Spine
  import opened SpineInvariant
  import opened SpineTheorems
  import opened OutboxSafety

  ghost predicate Delivered(c: Config, s: State, q: nat)
  {
    1 <= q <= |s.broker.stream| && s.broker.stream[q - 1] < |s.db.log| && RowEmitted(c, s, s.broker.stream[q - 1])
  }

  /** A resumed stream that has taken everything the pump can offer. */
  ghost predicate ResumedAndCaughtUp(c: Config, labels: seq<Label>)
  {
    && c.since > 0 && OpenStream(c, labels)
    && var s := Exec(c, labels).value;
       s.cursor == |s.broker.stream| && s.sub.taken == |s.sub.inbox|
  }

  /** The client has every message on its subject after its resume token. */
  ghost predicate ResumeComplete(c: Config, s: State)
  {
    forall q :: c.since < q && OnSubject(c, s.db.log, s.broker.stream, q) ==> Delivered(c, s, q)
  }

  /** When the subscriber joined, the pump had sent nothing of the subject beyond the resume token. */
  ghost predicate NothingSentPastToken(c: Config, s: State)
  {
    forall q :: c.since < q && OnSubject(c, s.db.log, s.broker.stream, q) ==> q > s.sub.joinCursor
  }

  lemma ResumeDelivers(c: Config, labels: seq<Label>, q: nat)
    requires ResumedAndCaughtUp(c, labels)
    requires var s := Exec(c, labels).value;
             c.since < q && s.sub.joinCursor < q && OnSubject(c, s.db.log, s.broker.stream, q)
    ensures Delivered(c, Exec(c, labels).value, q)
  {
    ReachableInv(c, labels);
    var s := Exec(c, labels).value;
    ArrivedIsTakenOrBuffered(c, s, q);
    TakenRow(c, s, q);
  }

  ghost predicate OnlyNew(s: State)
  {
    s.sub.joinCursor <= s.cursor && forall i :: 0 <= i < |s.sub.inbox| ==> s.sub.inbox[i] > s.sub.joinCursor
  }

  lemma OnlyNewStep(c: Config, s: State, l: Label)
    requires OnlyNew(s) && Enabled(c, s, l) && !IsRedelivery(l)
    ensures OnlyNew(Step(c, s, l))
  {
    match l
    case Pump(_) =>
    case Handle(_) =>
    case _ => assert Step(c, s, l).sub == s.sub && Step(c, s, l).cursor == s.cursor;
  }

  /** Without redelivery, the inbox holds only messages newer than the join. */
  lemma {:induction false} OnlyNewArrive(c: Config, labels: seq<Label>)
    requires Exec(c, labels).Some? && NoRedelivery(labels)
    ensures OnlyNew(Exec(c, labels).value)
  {
    if labels != [] {
      OnlyNewArrive(c, Front(labels));
      OnlyNewStep(c, Exec(c, Front(labels)).value, Last(labels));
    }
  }

  lemma {:induction false} LiveCallsHaveSeqs(calls: seq<Call>, id: EventId, q: nat)
    requires CallLive(id, q) in calls
    ensures q in LiveSeqs(calls)
  {
    if Last(calls) != CallLive(id, q) {
      LiveCallsHaveSeqs(Front(calls), id, q);
    }
  }

  lemma DeliveredWasTaken(c: Config, s: State, q: nat) returns (q': nat)
    requires Delivered(c, s, q) && Inv(c, s) && !s.sub.phase.Off?
    ensures q' in TakenSeqs(s) && OnSubject(c, s.db.log, s.broker.stream, q')
    ensures s.broker.stream[q' - 1] == s.broker.stream[q - 1]
    ensures q' in LiveSeqs(Sent(c, s))
  {
    var id := s.db.log[s.broker.stream[q - 1]].id;
    q' :| CallLive(id, q') in Emitted(c.seenCapacity, CallsOf(s));
    EmittedAreCalls(c.seenCapacity, CallsOf(s), CallLive(id, q'));
    LiveCallsHaveSeqs(Sent(c, s), id, q');
    LiveCallsAreEnvelopes(s.sub.replays, s.sub.cut, TakenEnvelopes(s), id, q');
    var j :| 0 <= j < |TakenEnvelopes(s)| && TakenEnvelopes(s)[j] == Envelope(id, q');
    assert TakenSeqs(s)[j] == q';
    assert IdAt(s.db.log, s.broker.stream, q') == id;
  }

  /** Every message past the token has a copy of its row that lies past the token and was sent after the join. */
  ghost predicate LaterCopies(c: Config, s: State)
  {
    forall q :: c.since < q && OnSubject(c, s.db.log, s.broker.stream, q) ==> HasLaterCopy(c, s, s.broker.stream[q - 1])
  }

  ghost predicate HasLaterCopy(c: Config, s: State, k: nat)
  {
    exists q: nat :: Holds(s.broker.stream, q, k) && q > c.since && q > s.sub.joinCursor
  }

  lemma CopyDelivers(c: Config, labels: seq<Label>, q: nat)
    requires ResumedAndCaughtUp(c, labels)
    requires var s := Exec(c, labels).value;
             OnSubject(c, s.db.log, s.broker.stream, q) && HasLaterCopy(c, s, s.broker.stream[q - 1])
    ensures Delivered(c, Exec(c, labels).value, q)
  {
    var s := Exec(c, labels).value;
    var k := s.broker.stream[q - 1];
    var q': nat :| Holds(s.broker.stream, q', k) && q' > c.since && q' > s.sub.joinCursor;
    assert OnSubject(c, s.db.log, s.broker.stream, q');
    ResumeDelivers(c, labels, q');
  }

  lemma DeliveredIsLaterCopy(c: Config, labels: seq<Label>, q: nat)
    requires ResumedAndCaughtUp(c, labels) && NoRedelivery(labels)
    requires var s := Exec(c, labels).value;
             OnSubject(c, s.db.log, s.broker.stream, q) && Delivered(c, s, q)
    ensures var s := Exec(c, labels).value; HasLaterCopy(c, s, s.broker.stream[q - 1])
  {
    var s := Exec(c, labels).value;
    ReachableInv(c, labels);
    OnlyNewArrive(c, labels);
    StreamIsMonotone(c, labels);
    var q' := DeliveredWasTaken(c, s, q);
    assert Holds(s.broker.stream, q', s.broker.stream[q - 1]);
  }

  /** Some copy of row `k` that was taken came above the cutover and everything emitted before it. */
  ghost predicate CameAbove(c: Config, s: State, k: nat)
  {
    exists j :: 0 <= j < |TakenSeqs(s)| && Holds(s.broker.stream, TakenSeqs(s)[j], k) &&
      ComesAbove(c.seenCapacity, s.sub.replays, s.sub.cut, TakenEnvelopes(s), j)
  }

  /** On every open stream, whatever is redelivered, a row has been emitted if and only if a copy of it came above everything. */
  lemma EmittedIffCameAbove(c: Config, labels: seq<Label>, k: nat)
    requires OpenStream(c, labels) && k < |Exec(c, labels).value.db.log|
    ensures var s := Exec(c, labels).value; RowEmitted(c, s, k) <==> CameAbove(c, s, k)
  {
    ReachableInv(c, labels);
    var s := Exec(c, labels).value;
    if RowEmitted(c, s, k) {
      EmittedThenAbove(c, s, k);
    }
    if CameAbove(c, s, k) {
      AboveThenEmitted(c, s, k);
    }
  }

  lemma EmittedThenAbove(c: Config, s: State, k: nat)
    requires Inv(c, s) && !s.sub.phase.Off? && k < |s.db.log| && RowEmitted(c, s, k)
    ensures CameAbove(c, s, k)
  {
    var j := EmittedCameAbove(c.seenCapacity, s.sub.replays, s.sub.cut, TakenEnvelopes(s), s.db.log[k].id);
    TakenIsRow(c, s, j, k);
  }

  lemma AboveThenEmitted(c: Config, s: State, k: nat)
    requires Inv(c, s) && !s.sub.phase.Off? && k < |s.db.log| && CameAbove(c, s, k)
    ensures RowEmitted(c, s, k)
  {
    TakenAgree(c, s);
    var j :| 0 <= j < |TakenSeqs(s)| && Holds(s.broker.stream, TakenSeqs(s)[j], k) &&
      ComesAbove(c.seenCapacity, s.sub.replays, s.sub.cut, TakenEnvelopes(s), j);
    assert TakenEnvelopes(s)[j].id == s.db.log[k].id;
    AboveIsEmitted(c.seenCapacity, s.sub.replays, s.sub.cut, TakenEnvelopes(s), j);
  }

  lemma TakenIsRow(c: Config, s: State, j: nat, k: nat)
    requires Inv(c, s) && !s.sub.phase.Off? && j < |TakenSeqs(s)| && k < |s.db.log| && TakenEnvelopes(s)[j].id == s.db.log[k].id
    ensures Holds(s.broker.stream, TakenSeqs(s)[j], k)
  {
    TakenRow(c, s, TakenSeqs(s)[j]);
  }

  /** Every message past the token has a copy of its row that came above everything emitted before it. */
  ghost predicate AllCameAbove(c: Config, s: State)
  {
    forall q :: c.since < q && OnSubject(c, s.db.log, s.broker.stream, q) ==> CameAbove(c, s, s.broker.stream[q - 1])
  }

  lemma CompleteIffAllAbove(c: Config, labels: seq<Label>)
    requires OpenStream(c, labels)
    ensures var s := Exec(c, labels).value; ResumeComplete(c, s) <==> AllCameAbove(c, s)
  {
    var s := Exec(c, labels).value;
    forall q | c.since < q && OnSubject(c, s.db.log, s.broker.stream, q)
      ensures Delivered(c, s, q) <==> CameAbove(c, s, s.broker.stream[q - 1])
    {
      EmittedIffCameAbove(c, labels, s.broker.stream[q - 1]);
    }
  }

  /**
   Whatever is redelivered, a resume is complete exactly when every message past its
   token has a copy that came above everything emitted before it.  A copy past the token that
   was sent after the join is enough; without redelivery it is needed.
   */
  lemma ResumeCompleteIff(c: Config, labels: seq<Label>)
    requires ResumedAndCaughtUp(c, labels)
    ensures var s := Exec(c, labels).value;
            && (ResumeComplete(c, s) <==> AllCameAbove(c, s))
            && (LaterCopies(c, s) ==> ResumeComplete(c, s))
            && (NoRedelivery(labels) ==> (ResumeComplete(c, s) <==> LaterCopies(c, s)))
  {
    var s := Exec(c, labels).value;
    CompleteIffAllAbove(c, labels);
    if LaterCopies(c, s) {
      forall q | c.since < q && OnSubject(c, s.db.log, s.broker.stream, q)
        ensures Delivered(c, s, q)
      {
        CopyDelivers(c, labels, q);
      }
    }
    if NoRedelivery(labels) && ResumeComplete(c, s) {
      forall q | c.since < q && OnSubject(c, s.db.log, s.broker.stream, q)
        ensures HasLaterCopy(c, s, s.broker.stream[q - 1])
      {
        DeliveredIsLaterCopy(c, labels, q);
      }
    }
  }

  /** With one copy per row, that is when the channel had sent nothing past the token before the join. */
  lemma SingleCopies(c: Config, s: State)
    requires Distinct(s.broker.stream)
    ensures LaterCopies(c, s) <==> NothingSentPastToken(c, s)
  {
    forall q | c.since < q && OnSubject(c, s.db.log, s.broker.stream, q)
      ensures HasLaterCopy(c, s, s.broker.stream[q - 1]) <==> q > s.sub.joinCursor
    {
      var k := s.broker.stream[q - 1];
      if q': nat :| Holds(s.broker.stream, q', k) && q' > c.since && q' > s.sub.joinCursor {
        assert q' - 1 == q - 1;
      }
      assert Holds(s.broker.stream, q, k);
    }
  }

  /** Two rows of the board are committed and published. */
  lemma TwoPublished(c: Config) returns (ls: seq<Label>, s: State)
    requires c.dispatchers == 1 && c.batchSize >= 2
    ensures Exec(c, ls) == Some(s) && NoRedelivery(ls)
    ensures s.db.log == [BoardRow(c, 7), BoardRow(c, 8)] && s.broker.stream == [0, 1]
    ensures s.sub == NO_SUB && s.cursor == 0
  {
    ls, s := [], Init(c);
    ls, s := SelectsTwo(c, ls, s, [BoardRow(c, 7), BoardRow(c, 8)]);
    ls, s := PublishesTwo(c, ls, s);
  }

  /** Two rows are published and pumped to somebody else before the client resumes at sequence 1: sequence 2 never reaches it. */
  lemma ResumeCanLose(board: nat, tenant: nat)
    ensures var c := Config(board, tenant, 1, 256, 1024, 1, 256);
            exists labels :: ResumedAndCaughtUp(c, labels) && !ResumeComplete(c, Exec(c, labels).value)
  {
    var c := Config(board, tenant, 1, 256, 1024, 1, 256);
    var ls, s := TwoPublished(c);
    ls, s := PumpsAwayThenResumes(c, ls, s);
    assert OnSubject(c, s.db.log, s.broker.stream, 2);
    assert !NothingSentPastToken(c, s);
    SingleCopies(c, s);
    ResumeCompleteIff(c, ls);
  }

  lemma PumpsAwayThenResumes(c: Config, labels: seq<Label>, s: State) returns (labels': seq<Label>, s': State)
    requires Exec(c, labels) == Some(s) && NoRedelivery(labels) && c.since > 0
    requires s.sub == NO_SUB && s.cursor == 0 && |s.broker.stream| == 2
    ensures Exec(c, labels') == Some(s') && NoRedelivery(labels') && ResumedAndCaughtUp(c, labels')
    ensures s'.db == s.db && s'.broker == s.broker && s'.sub.joinCursor == 2
  {
    var s1, s2, s3;
    labels', s1 := Extend(c, labels, s, Pump(PumpNext));
    labels', s2 := Extend(c, labels', s1, Pump(PumpNext));
    labels', s3 := Extend(c, labels', s2, Handle(Subscribe));
    labels', s' := Extend(c, labels', s3, Handle(CutOver));
  }
}
