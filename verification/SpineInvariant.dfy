/**
 The invariant of every reachable state of `Spine`, and its proof: each piece is
 framed by the part of the state it speaks of, so a step only has to answer for
 the pieces it touches.
 */
module SpineInvariant {
  import opened Common
  import opened Spine

  // ------------------------------------------------------------ the pieces

  ghost predicate UniqueIds(log: seq<Row>)
  {
    forall i, j :: 0 <= i < j < |log| ==> log[i].id != log[j].id
  }

  /** Sequence `q` exists and holds row `k`. */
  predicate Holds(stream: seq<nat>, q: nat, k: nat)
  {
    1 <= q <= |stream| && stream[q - 1] == k
  }

  /** Every stored message carries a committed, routable row, and the window points at real messages. */
  ghost predicate BrokerOk(log: seq<Row>, b: Broker)
  {
    && (forall i :: 0 <= i < |b.stream| ==> b.stream[i] < |log| && Route(log[b.stream[i]]).Some?)
    && (forall k :: k in b.window ==> Holds(b.stream, b.window[k], k))
  }

  /** A mark names a message that carries the marked row. */
  ghost predicate DbOk(db: Db, stream: seq<nat>)
  {
    && UniqueIds(db.log)
    && (forall k :: k in db.marks ==> k < |db.log| && Holds(stream, db.marks[k], k))
  }

  ghost predicate NetworkOk(log: seq<Row>, stream: seq<nat>, inflight: multiset<Publish>, acks: set<PubAck>)
  {
    && (forall p :: p in inflight ==> p.row < |log| && Route(log[p.row]).Some?)
    && (forall a :: a in acks ==> Holds(stream, a.natsSeq, a.row))
  }

  ghost predicate PcOk(log: seq<Row>, stream: seq<nat>, pc: Pc)
  {
    pc.Working? ==>
      && (forall i :: 0 <= i < |pc.batch| ==> pc.batch[i] < |log|)
      && (AtRow(pc) && pc.stage.Acked? ==> Holds(stream, pc.stage.natsSeq, pc.batch[pc.at]))
  }

  /** `qs[j]` is no newer than `old`, or a repeat, or newer than everything before it. */
  ghost predicate Ordered(joined: nat, qs: seq<nat>)
  {
    forall j {:trigger qs[..j]} :: 0 <= j < |qs| ==> qs[j] <= joined || qs[j] in qs[..j] || forall i :: 0 <= i < j ==> qs[i] < qs[j]
  }

  /** Every message on the subject newer than the join and no newer than `upTo` is among `qs`. */
  ghost predicate Covered(c: Config, log: seq<Row>, stream: seq<nat>, joined: nat, upTo: nat, qs: seq<nat>)
  {
    forall q {:trigger OnSubject(c, log, stream, q)} :: joined < q <= upTo && OnSubject(c, log, stream, q) ==> q in qs
  }

  /** Whenever a message has arrived, so has every earlier one on the subject since the join. */
  ghost predicate Gapless(c: Config, log: seq<Row>, stream: seq<nat>, joined: nat, qs: seq<nat>)
  {
    forall j {:trigger qs[..j + 1]} :: 0 <= j < |qs| ==> Covered(c, log, stream, joined, qs[j], qs[..j + 1])
  }

  ghost predicate InboxOk(c: Config, log: seq<Row>, stream: seq<nat>, cursor: nat, joined: nat, qs: seq<nat>)
  {
    && (forall i :: 0 <= i < |qs| ==> qs[i] <= cursor && OnSubject(c, log, stream, qs[i]))
    && Ordered(joined, qs)
    && Gapless(c, log, stream, joined, qs)
  }

  /** Messages up to the cutover carry rows committed before `MAX(nats_seq)` was read, and so do the snapshot reads' views. */
  ghost predicate SnapshotOk(log: seq<Row>, stream: seq<nat>, sub: Sub)
  {
    && sub.joinLog <= sub.maxLog <= |log|
    && sub.cut <= |stream|
    && (forall i :: 0 <= i < sub.cut ==> stream[i] < sub.maxLog)
    && (forall i :: 0 <= i < |sub.views| ==> sub.maxLog <= sub.views[i] <= |log|)
    && (forall i, j :: 0 <= i < j < |sub.views| ==> sub.views[i] <= sub.views[j])
  }

  ghost predicate ReplaysOk(log: seq<Row>, sub: Sub)
  {
    && (forall k :: 0 <= k < |log| ==> log[k].id !in sub.replays)
    && Distinct(sub.replays)
  }

  /** The receiver's side: what had happened when it joined, and what it has been sent since. */
  ghost predicate ChannelOk(c: Config, log: seq<Row>, stream: seq<nat>, cursor: nat, sub: Sub)
  {
    && sub.taken <= |sub.inbox|
    && sub.joinCursor <= cursor <= |stream|
    && sub.joinLog <= |log|
    && (forall i :: 0 <= i < sub.joinCursor ==> stream[i] < sub.joinLog)
    && InboxOk(c, log, stream, cursor, sub.joinCursor, sub.inbox)
  }

  /** The handler's side: which phase it is in and what it has read. */
  ghost predicate HandlerOk(c: Config, log: seq<Row>, stream: seq<nat>, sub: Sub)
  {
    match sub.phase
    case Off => sub == NO_SUB
    case Joined => sub.replays == [] && sub.views == [] && sub.taken == 0
    case Snapshotting => c.since == 0 && sub.taken == 0 && SnapshotOk(log, stream, sub)
    case Tailing => if c.since == 0 then SnapshotOk(log, stream, sub) else sub.cut == c.since && sub.replays == []
    case Ended(_) => true
  }

  ghost predicate SubOk(c: Config, log: seq<Row>, stream: seq<nat>, cursor: nat, sub: Sub)
  {
    && ReplaysOk(log, sub)
    && HandlerOk(c, log, stream, sub)
    && (!sub.phase.Off? ==> ChannelOk(c, log, stream, cursor, sub))
    && (Listening(sub) ==> Covered(c, log, stream, sub.joinCursor, cursor, sub.inbox))
  }

  ghost predicate Inv(c: Config, s: State)
  {
    && DbOk(s.db, s.broker.stream)
    && BrokerOk(s.db.log, s.broker)
    && NetworkOk(s.db.log, s.broker.stream, s.inflight, s.acks)
    && |s.pcs| == c.dispatchers
    && (forall d :: 0 <= d < |s.pcs| ==> PcOk(s.db.log, s.broker.stream, s.pcs[d]))
    && s.cursor <= |s.broker.stream|
    && SubOk(c, s.db.log, s.broker.stream, s.cursor, s.sub)
  }

  // ------------------------------------------------------------ stability

  /** Rows and messages are only ever added at the end, so what was said of a message stays true. */
  lemma OnSubjectStable(c: Config, log: seq<Row>, stream: seq<nat>, log': seq<Row>, stream': seq<nat>, q: nat)
    requires log <= log' && stream <= stream' && q <= |stream|
    requires forall i :: 0 <= i < |stream| ==> stream[i] < |log|
    ensures OnSubject(c, log', stream', q) <==> OnSubject(c, log, stream, q)
  {
    if 1 <= q {
      assert stream'[q - 1] == stream[q - 1];
    }
  }

  lemma InboxStable(c: Config, log: seq<Row>, stream: seq<nat>, log': seq<Row>, stream': seq<nat>, cursor: nat, joined: nat, qs: seq<nat>)
    requires log <= log' && stream <= stream' && cursor <= |stream|
    requires forall i :: 0 <= i < |stream| ==> stream[i] < |log|
    requires InboxOk(c, log, stream, cursor, joined, qs)
    ensures InboxOk(c, log', stream', cursor, joined, qs)
  {
    forall q: nat | q <= |stream|
      ensures OnSubject(c, log', stream', q) <==> OnSubject(c, log, stream, q)
    {
      OnSubjectStable(c, log, stream, log', stream', q);
    }
    forall j | 0 <= j < |qs|
      ensures Covered(c, log', stream', joined, qs[j], qs[..j + 1])
    {
      assert Covered(c, log, stream, joined, qs[j], qs[..j + 1]);
    }
  }

  lemma SubStable(c: Config, log: seq<Row>, stream: seq<nat>, log': seq<Row>, stream': seq<nat>, cursor: nat, sub: Sub)
    requires log <= log' && stream <= stream' && cursor <= |stream|
    requires forall i :: 0 <= i < |stream| ==> stream[i] < |log|
    requires SubOk(c, log, stream, cursor, sub) && ReplaysOk(log', sub)
    ensures SubOk(c, log', stream', cursor, sub)
  {
    if !sub.phase.Off? {
      InboxStable(c, log, stream, log', stream', cursor, sub.joinCursor, sub.inbox);
      forall q: nat | q <= |stream|
        ensures OnSubject(c, log', stream', q) <==> OnSubject(c, log, stream, q)
      {
        OnSubjectStable(c, log, stream, log', stream', q);
      }
    }
  }

  lemma OrderedGrows(joined: nat, qs: seq<nat>, q: nat)
    requires Ordered(joined, qs)
    requires q <= joined || q in qs || forall i :: 0 <= i < |qs| ==> qs[i] < q
    ensures Ordered(joined, qs + [q])
  {
    var all := qs + [q];
    forall j | 0 <= j < |all|
      ensures all[j] <= joined || all[j] in all[..j] || forall i :: 0 <= i < j ==> all[i] < all[j]
    {
      assert all[..j] == qs[..j];
    }
  }

  lemma GaplessGrows(c: Config, log: seq<Row>, stream: seq<nat>, joined: nat, qs: seq<nat>, q: nat)
    requires Gapless(c, log, stream, joined, qs) && Covered(c, log, stream, joined, q, qs + [q])
    ensures Gapless(c, log, stream, joined, qs + [q])
  {
    var all := qs + [q];
    forall j | 0 <= j < |all|
      ensures Covered(c, log, stream, joined, all[j], all[..j + 1])
    {
      if j < |qs| {
        assert all[..j + 1] == qs[..j + 1];
        assert Covered(c, log, stream, joined, qs[j], qs[..j + 1]);
      } else {
        assert all[..j + 1] == all;
      }
    }
  }

  /** A message arriving at the back of the inbox: first delivery in stream order, or a repeat of an old one. */
  lemma InboxGrows(c: Config, log: seq<Row>, stream: seq<nat>, cursor: nat, joined: nat, qs: seq<nat>, q: nat, cursor': nat)
    requires InboxOk(c, log, stream, cursor, joined, qs) && Covered(c, log, stream, joined, cursor, qs)
    requires OnSubject(c, log, stream, q)
    requires (q == cursor + 1 == cursor') || (q <= cursor == cursor')
    ensures InboxOk(c, log, stream, cursor', joined, qs + [q])
    ensures Covered(c, log, stream, joined, cursor', qs + [q])
  {
    OrderedGrows(joined, qs, q);
    GaplessGrows(c, log, stream, joined, qs, q);
  }

  // ------------------------------------------------------------ one step

  lemma CommitKeepsInv(c: Config, s: State, rows: seq<Row>)
    requires Inv(c, s) && CanWrite(s, Commit(rows))
    ensures Inv(c, s.(db := AfterWrite(s.db, Commit(rows))))
  {
    var log' := s.db.log + rows;
    forall k | 0 <= k < |log'|
      ensures log'[k].id !in s.sub.replays
    {
      if k >= |s.db.log| {
        assert !IdTaken(s, rows[k - |s.db.log|].id);
      }
    }
    forall i, j | 0 <= i < j < |log'|
      ensures log'[i].id != log'[j].id
    {
      if i < |s.db.log| <= j {
        assert !IdTaken(s, rows[j - |s.db.log|].id);
      }
    }
    SubStable(c, s.db.log, s.broker.stream, log', s.broker.stream, s.cursor, s.sub);
  }

  lemma StoreKeepsBroker(log: seq<Row>, b: Broker, p: Publish)
    requires BrokerOk(log, b) && p.row < |log| && Route(log[p.row]).Some?
    ensures BrokerOk(log, AfterStore(b, p))
    ensures b.stream <= AfterStore(b, p).stream && Holds(AfterStore(b, p).stream, StoreSeq(b, p), p.row)
  {
  }

  lemma StoreKeepsInv(c: Config, s: State, p: Publish)
    requires Inv(c, s) && Enabled(c, s, Store(p))
    ensures Inv(c, Step(c, s, Store(p)))
  {
    var stream' := AfterStore(s.broker, p).stream;
    StoreKeepsBroker(s.db.log, s.broker, p);
    SubStable(c, s.db.log, s.broker.stream, s.db.log, stream', s.cursor, s.sub);
    assert forall q: nat, k: nat :: Holds(s.broker.stream, q, k) ==> Holds(stream', q, k);
    assert NetworkOk(s.db.log, stream', Step(c, s, Store(p)).inflight, Step(c, s, Store(p)).acks);
    assert DbOk(s.db, stream');
  }

  lemma DispatcherKeepsInv(c: Config, s: State, d: nat, op: DispatchOp)
    requires Inv(c, s) && CanDispatch(c, s, d, op)
    ensures Inv(c, AfterDispatch(c, s, d, op))
  {
    assert PcOk(s.db.log, s.broker.stream, s.pcs[d]);
    assert PcOk(s.db.log, s.broker.stream, AfterPc(s.pcs[d], op));
  }

  /** The pump passes sequence `cursor + 1`, sending it on when it is on the subject. */
  lemma PumpAdvances(c: Config, log: seq<Row>, stream: seq<nat>, cursor: nat, sub: Sub)
    requires SubOk(c, log, stream, cursor, sub) && cursor < |stream|
    ensures SubOk(c, log, stream, cursor + 1,
                  if OnSubject(c, log, stream, cursor + 1) then Broadcast(sub, cursor + 1) else sub)
  {
    if Listening(sub) && OnSubject(c, log, stream, cursor + 1) {
      InboxGrows(c, log, stream, cursor, sub.joinCursor, sub.inbox, cursor + 1, cursor + 1);
    }
  }

  lemma RedeliveryArrives(c: Config, log: seq<Row>, stream: seq<nat>, cursor: nat, sub: Sub, q: nat)
    requires SubOk(c, log, stream, cursor, sub) && q <= cursor && OnSubject(c, log, stream, q)
    ensures SubOk(c, log, stream, cursor, Broadcast(sub, q))
  {
    if Listening(sub) {
      InboxGrows(c, log, stream, cursor, sub.joinCursor, sub.inbox, q, cursor);
    }
  }

  lemma PumpKeepsInv(c: Config, s: State, op: PumpOp)
    requires Inv(c, s) && CanPump(c, s, op)
    ensures Inv(c, AfterPump(c, s, op))
  {
    match op
    case PumpNext => PumpAdvances(c, s.db.log, s.broker.stream, s.cursor, s.sub);
    case Redeliver(q) => RedeliveryArrives(c, s.db.log, s.broker.stream, s.cursor, s.sub, q);
  }

  lemma ReadMaxBounds(db: Db, stream: seq<nat>, tenant: nat, board: nat, m: nat)
    requires DbOk(db, stream) && IsMaxSeq(db, tenant, board, m)
    ensures m <= |stream|
  {
  }

  lemma HandlerKeepsInv(c: Config, s: State, op: HandlerOp)
    requires Inv(c, s) && CanHandle(c, s, op)
    ensures SubOk(c, s.db.log, s.broker.stream, s.cursor, AfterHandle(c, s.sub, s.cursor, |s.db.log|, op))
  {
    match op
    case Subscribe =>
    case ReadMax(m) => ReadMaxBounds(s.db, s.broker.stream, c.tenant, c.board, m);
    case ReadStatement =>
    case ReplayEnvelope(id) =>
    case CutOver =>
    case Receive =>
    case End =>
  }

  lemma PurgeKeepsInv(c: Config, s: State, ks: set<nat>)
    requires Inv(c, s)
    ensures Inv(c, s.(db := AfterWrite(s.db, Purge(ks))))
  {
  }

  lemma StepKeepsInv(c: Config, s: State, l: Label)
    requires Inv(c, s) && Enabled(c, s, l)
    ensures Inv(c, Step(c, s, l))
  {
    match l
    case Write(Commit(rows)) => CommitKeepsInv(c, s, rows);
    case Write(Purge(ks)) => PurgeKeepsInv(c, s, ks);
    case Dispatch(d, op) => DispatcherKeepsInv(c, s, d, op);
    case Store(p) => StoreKeepsInv(c, s, p);
    case Forget(_) =>
    case Pump(op) => PumpKeepsInv(c, s, op);
    case Handle(op) => HandlerKeepsInv(c, s, op);
  }

  /** Every state of every run satisfies the invariant. */
  lemma {:induction false} ReachableInv(c: Config, labels: seq<Label>)
    requires Exec(c, labels).Some?
    ensures Inv(c, Exec(c, labels).value)
  {
    if labels != [] {
      ReachableInv(c, Front(labels));
      StepKeepsInv(c, Exec(c, Front(labels)).value, Last(labels));
    }
  }
}
