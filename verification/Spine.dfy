/**
 The realtime spine as a labelled transition system: writers commit rows,
 dispatchers on any number of pods publish and mark them, JetStream stores them,
 a pump broadcasts them, and one subscriber joins, reads a snapshot, cuts over
 and filters the live tail.

 A row is named by its place in commit order, so "committed before" is `<`; its
 event id is a field.  Stream sequence `q` holds the row `stream[q - 1]`.  A label
 fixes every choice the environment makes, so `Step` is a function and a run is a
 list of labels.
 */
module Spine {
  import opened Common
  import opened Cutover

  // ------------------------------------------------------------ database

  /**
   What the transaction of a row did to columns and cards, as far as a snapshot can
   see it.  This is apart from where the row is routed: a card may be placed in a
   column of another board than the row's.
   */
  datatype Change =
    | CardPlaced(card: nat, column: nat)
    | CardGone(card: nat)
    | ColumnPresent(column: nat, board: nat)
    | ColumnGone(column: nat)
    | OtherChange

  /** An `event_log` row; the three routing columns are nullable. */
  datatype Row = Row(
    id: EventId,
    tenant: nat,
    aggregated: Option<nat>,
    board: Option<nat>,
    project: Option<nat>,
    change: Change)

  datatype Subject = BoardSubject(id: nat) | ProjectSubject(id: nat)

  /** The aggregated id wins over the board id; a project row has its own subject; otherwise unroutable. */
  function Route(r: Row): Option<Subject>
  {
    if r.aggregated.Some? then Some(BoardSubject(r.aggregated.value))
    else if r.board.Some? then Some(BoardSubject(r.board.value))
    else if r.project.Some? then Some(ProjectSubject(r.project.value))
    else None
  }

  /** Where a row goes, by its three columns: its aggregated board, else its board, else its project, else nowhere. */
  lemma RouteByColumns(r: Row)
    ensures r.aggregated.Some? ==> Route(r) == Some(BoardSubject(r.aggregated.value))
    ensures r.aggregated == None && r.board.Some? ==> Route(r) == Some(BoardSubject(r.board.value))
    ensures r.aggregated == None && r.board == None && r.project.Some? ==> Route(r) == Some(ProjectSubject(r.project.value))
    ensures r.aggregated == None && r.board == None && r.project == None ==> Route(r) == None
  {
  }

  /** `marks` holds the non-null `nats_seq` values; `gone` are rows removed by a board's cascade. */
  datatype Db = Db(log: seq<Row>, marks: map<nat, nat>, gone: set<nat>)

  ghost predicate Undispatched(db: Db, k: nat)
  {
    k < |db.log| && k !in db.marks && k !in db.gone
  }

  /** `SELECT … WHERE nats_seq IS NULL ORDER BY id LIMIT limit`. */
  ghost predicate IsBatch(db: Db, limit: nat, batch: seq<nat>)
  {
    && |batch| <= limit
    && (forall i :: 0 <= i < |batch| ==> Undispatched(db, batch[i]))
    && (forall i, j :: 0 <= i < j < |batch| ==> db.log[batch[i]].id < db.log[batch[j]].id)
    && (forall k: nat :: Undispatched(db, k) && k !in batch ==>
          |batch| == limit && forall i :: 0 <= i < |batch| ==> db.log[batch[i]].id < db.log[k].id)
  }

  predicate OfBoard(db: Db, tenant: nat, board: nat, k: nat)
    requires k < |db.log|
  {
    db.log[k].board == Some(board) && db.log[k].tenant == tenant
  }

  /** `SELECT COALESCE(MAX(nats_seq), 0) … WHERE board_id = $1 AND tenant_id = $2`. */
  ghost predicate IsMaxSeq(db: Db, tenant: nat, board: nat, m: nat)
  {
    && (forall k :: k in db.marks && k < |db.log| && OfBoard(db, tenant, board, k) ==> db.marks[k] <= m)
    && (m == 0 || exists k :: k in db.marks && k < |db.log| && OfBoard(db, tenant, board, k) && db.marks[k] == m)
  }

  // ------------------------------------------------------------ broker and dispatchers

  /** The append-only stream and the message ids its duplicate window still knows. */
  datatype Broker = Broker(stream: seq<nat>, window: map<nat, nat>)

  datatype Publish = Publish(sender: nat, row: nat, withId: bool)

  datatype PubAck = PubAck(to: nat, row: nat, natsSeq: nat)

  /** A known message id inside the window returns the original sequence; anything else is appended. */
  function StoreSeq(b: Broker, p: Publish): nat
  {
    if p.withId && p.row in b.window then b.window[p.row] else |b.stream| + 1
  }

  function AfterStore(b: Broker, p: Publish): Broker
  {
    if p.withId && p.row in b.window then b
    else Broker(b.stream + [p.row], if p.withId then b.window[p.row := |b.stream| + 1] else b.window)
  }

  datatype Stage = ToPublish | AwaitingAck | Acked(natsSeq: nat)

  /** Where one dispatcher is inside `drain_once`. */
  datatype Pc = Idle | Working(batch: seq<nat>, at: nat, stage: Stage)

  /** Dispatcher `pc` is at a row of its batch, in the given stage. */
  predicate AtRow(pc: Pc)
  {
    pc.Working? && pc.at < |pc.batch|
  }

  function NextRow(pc: Pc): Pc
    requires AtRow(pc)
  {
    pc.(at := pc.at + 1, stage := ToPublish)
  }

  // ------------------------------------------------------------ subscriber

  datatype SubPhase = Off | Joined | Snapshotting | Tailing | Ended(lagged: bool)

  /**
   One stream.  `inbox` is everything broadcast since it joined, of which it has
   taken the first `taken`; the other fields record what was true when it joined
   (`joinCursor`, `joinLog`) and when it read `MAX(nats_seq)` (`maxLog`).
   */
  datatype Sub = Sub(
    phase: SubPhase,
    joinCursor: nat,
    joinLog: nat,
    maxLog: nat,
    cut: nat,
    views: seq<nat>,
    replays: seq<EventId>,
    inbox: seq<nat>,
    taken: nat)

  const NO_SUB := Sub(Off, 0, 0, 0, 0, [], [], [], 0)

  datatype Config = Config(
    board: nat,
    tenant: nat,
    since: nat,
    ring: nat,
    seenCapacity: nat,
    dispatchers: nat,
    batchSize: nat)

  datatype State = State(
    db: Db,
    broker: Broker,
    pcs: seq<Pc>,
    inflight: multiset<Publish>,
    acks: set<PubAck>,
    cursor: nat,
    sub: Sub)

  function Init(c: Config): State
  {
    State(Db([], map[], {}), Broker([], map[]), seq(c.dispatchers, _ => Idle), multiset{}, {}, 0, NO_SUB)
  }

  /** The stored message at sequence `q` is on the subscriber's subject. */
  ghost predicate OnSubject(c: Config, log: seq<Row>, stream: seq<nat>, q: nat)
  {
    1 <= q <= |stream| && stream[q - 1] < |log| && Route(log[stream[q - 1]]) == Some(BoardSubject(c.board))
  }

  /** The event id in the envelope at sequence `q`; zero when there is no such message. */
  function IdAt(log: seq<Row>, stream: seq<nat>, q: nat): EventId
  {
    if 1 <= q <= |stream| && stream[q - 1] < |log| then log[stream[q - 1]].id else 0
  }

  // ------------------------------------------------------------ steps

  datatype WriteOp =
    | Commit(rows: seq<Row>)
    | Purge(ks: set<nat>)

  datatype DispatchOp =
    | Select(batch: seq<nat>)
    | SkipRow
    | PublishFail
    | Send(withId: bool)
    | ReceiveAck(natsSeq: nat)
    | GiveUp
    | Mark
    | MarkFail
    | Finish
    | Crash

  datatype PumpOp = PumpNext | Redeliver(q: nat)

  datatype HandlerOp =
    | Subscribe
    | ReadMax(max: nat)
    | ReadStatement
    | ReplayEnvelope(id: EventId)
    | CutOver
    | Receive
    | End

  datatype Label =
    | Write(write: WriteOp)
    | Dispatch(d: nat, dispatch: DispatchOp)
    | Store(p: Publish)
    | Forget(row: nat)
    | Pump(pump: PumpOp)
    | Handle(handle: HandlerOp)

  // Writers.  A transaction's rows appear together; a board's deletion removes its rows.

  /** Ids already given out to rows or to snapshot envelopes of this stream. */
  ghost predicate IdTaken(s: State, id: EventId)
  {
    (exists k :: 0 <= k < |s.db.log| && s.db.log[k].id == id) || id in s.sub.replays
  }

  ghost predicate CanWrite(s: State, op: WriteOp)
  {
    match op
    case Commit(rows) =>
      && (forall i :: 0 <= i < |rows| ==> !IdTaken(s, rows[i].id))
      && (forall i, j :: 0 <= i < j < |rows| ==> rows[i].id != rows[j].id)
    case Purge(ks) => true
  }

  function AfterWrite(db: Db, op: WriteOp): Db
  {
    match op
    case Commit(rows) => db.(log := db.log + rows)
    case Purge(ks) => db.(gone := db.gone + ks, marks := db.marks - ks)
  }

  // Dispatchers.  One pass of `drain_once`, cut at every point where it awaits something.

  ghost predicate AtStage(s: State, d: nat, stage: Stage)
  {
    d < |s.pcs| && AtRow(s.pcs[d]) && s.pcs[d].stage == stage
  }

  /** The row dispatcher `d` is working on. */
  function Current(s: State, d: nat): nat
    requires d < |s.pcs| && AtRow(s.pcs[d])
  {
    s.pcs[d].batch[s.pcs[d].at]
  }

  ghost predicate CanDispatch(c: Config, s: State, d: nat, op: DispatchOp)
  {
    match op
    case Select(batch) => d < |s.pcs| && s.pcs[d].Idle? && IsBatch(s.db, c.batchSize, batch)
    case SkipRow =>
      AtStage(s, d, ToPublish) && Current(s, d) < |s.db.log| && Route(s.db.log[Current(s, d)]).None?
    case PublishFail => AtStage(s, d, ToPublish)
    case Send(withId) =>
      AtStage(s, d, ToPublish) && Current(s, d) < |s.db.log| && Route(s.db.log[Current(s, d)]).Some?
    case ReceiveAck(q) => AtStage(s, d, AwaitingAck) && PubAck(d, Current(s, d), q) in s.acks
    case GiveUp => AtStage(s, d, AwaitingAck)
    case Mark => d < |s.pcs| && AtRow(s.pcs[d]) && s.pcs[d].stage.Acked?
    case MarkFail => d < |s.pcs| && AtRow(s.pcs[d]) && s.pcs[d].stage.Acked?
    case Finish => d < |s.pcs| && s.pcs[d].Working? && s.pcs[d].at >= |s.pcs[d].batch|
    case Crash => d < |s.pcs|
  }

  function AfterPc(pc: Pc, op: DispatchOp): Pc
    requires op.Select? || op.Finish? || op.Crash? || AtRow(pc)
  {
    match op
    case Select(batch) => Working(batch, 0, ToPublish)
    case Send(_) => pc.(stage := AwaitingAck)
    case ReceiveAck(q) => pc.(stage := Acked(q))
    case Finish => Idle
    case Crash => Idle
    case _ => NextRow(pc)
  }

  /** The update sets `nats_seq`; on a row that has been removed meanwhile it changes nothing. */
  function AfterMark(db: Db, k: nat, q: nat): Db
  {
    if k in db.gone then db else db.(marks := db.marks[k := q])
  }

  ghost function AfterDispatch(c: Config, s: State, d: nat, op: DispatchOp): State
    requires CanDispatch(c, s, d, op)
  {
    s.(pcs := s.pcs[d := AfterPc(s.pcs[d], op)],
       db := if op.Mark? then AfterMark(s.db, Current(s, d), s.pcs[d].stage.natsSeq) else s.db,
       inflight := if op.Send? then s.inflight + multiset{Publish(d, Current(s, d), op.withId)} else s.inflight)
  }

  // The pump.  First deliveries come in stream order; old messages may be delivered again.

  ghost predicate CanPump(c: Config, s: State, op: PumpOp)
  {
    match op
    case PumpNext => s.cursor < |s.broker.stream|
    case Redeliver(q) => q <= s.cursor && OnSubject(c, s.db.log, s.broker.stream, q)
  }

  predicate Listening(sub: Sub)
  {
    !sub.phase.Off? && !sub.phase.Ended?
  }

  /** A broadcast reaches the subscriber exactly when it holds a receiver. */
  function Broadcast(sub: Sub, q: nat): Sub
  {
    if Listening(sub) then sub.(inbox := sub.inbox + [q]) else sub
  }

  ghost function AfterPump(c: Config, s: State, op: PumpOp): State
  {
    match op
    case PumpNext =>
      var q := s.cursor + 1;
      s.(cursor := q, sub := if OnSubject(c, s.db.log, s.broker.stream, q) then Broadcast(s.sub, q) else s.sub)
    case Redeliver(q) => s.(sub := Broadcast(s.sub, q))
  }

  // The stream handler.

  ghost predicate CanHandle(c: Config, s: State, op: HandlerOp)
  {
    match op
    case Subscribe => s.sub.phase.Off?
    case ReadMax(m) => s.sub.phase.Joined? && c.since == 0 && IsMaxSeq(s.db, c.tenant, c.board, m)
    case ReadStatement => s.sub.phase.Snapshotting?
    case ReplayEnvelope(id) => s.sub.phase.Snapshotting? && !IdTaken(s, id)
    case CutOver => (s.sub.phase.Snapshotting? && s.sub.views != []) || (s.sub.phase.Joined? && c.since > 0)
    case Receive => s.sub.phase.Tailing? && s.sub.taken < |s.sub.inbox|
    case End => Listening(s.sub)
  }

  function AfterHandle(c: Config, sub: Sub, cursor: nat, commits: nat, op: HandlerOp): Sub
  {
    match op
    case Subscribe => NO_SUB.(phase := Joined, joinCursor := cursor, joinLog := commits)
    case ReadMax(m) => sub.(phase := Snapshotting, cut := m, maxLog := commits)
    case ReadStatement => sub.(views := sub.views + [commits])
    case ReplayEnvelope(id) => sub.(replays := sub.replays + [id])
    case CutOver => sub.(phase := Tailing, cut := if c.since == 0 then sub.cut else c.since)
    case Receive =>
      if |sub.inbox| - sub.taken > c.ring then sub.(phase := Ended(true)) else sub.(taken := sub.taken + 1)
    case End => sub.(phase := Ended(false))
  }

  ghost predicate Enabled(c: Config, s: State, l: Label)
  {
    match l
    case Write(op) => CanWrite(s, op)
    case Dispatch(d, op) => CanDispatch(c, s, d, op)
    case Store(p) => p in s.inflight
    case Forget(k) => k in s.broker.window
    case Pump(op) => CanPump(c, s, op)
    case Handle(op) => CanHandle(c, s, op)
  }

  ghost function Step(c: Config, s: State, l: Label): State
    requires Enabled(c, s, l)
  {
    match l
    case Write(op) => s.(db := AfterWrite(s.db, op))
    case Dispatch(d, op) => AfterDispatch(c, s, d, op)
    case Store(p) =>
      s.(broker := AfterStore(s.broker, p),
         inflight := s.inflight - multiset{p},
         acks := s.acks + {PubAck(p.sender, p.row, StoreSeq(s.broker, p))})
    case Forget(k) => s.(broker := s.broker.(window := s.broker.window - {k}))
    case Pump(op) => AfterPump(c, s, op)
    case Handle(op) => s.(sub := AfterHandle(c, s.sub, s.cursor, |s.db.log|, op))
  }

  /** The state a list of labels leads to from the start, if every step was enabled. */
  ghost function Exec(c: Config, labels: seq<Label>): Option<State>
  {
    if labels == [] then Some(Init(c))
    else
      match Exec(c, Front(labels))
      case None => None
      case Some(s) => if Enabled(c, s, Last(labels)) then Some(Step(c, s, Last(labels))) else None
  }

  lemma ExecSnoc(c: Config, labels: seq<Label>, l: Label)
    requires Exec(c, labels).Some? && Enabled(c, Exec(c, labels).value, l)
    ensures Exec(c, labels + [l]) == Some(Step(c, Exec(c, labels).value, l))
  {
    assert Front(labels + [l]) == labels;
  }

  // ------------------------------------------------------------ what the stream says

  /** The envelopes the subscriber took, as the tracker sees them. */
  function Envelopes(log: seq<Row>, stream: seq<nat>, qs: seq<nat>): (es: seq<Envelope>)
    ensures |es| == |qs|
  {
    seq(|qs|, i requires 0 <= i < |qs| => Envelope(IdAt(log, stream, qs[i]), qs[i]))
  }

  function ReplayCalls(ids: seq<EventId>): (calls: seq<Call>)
    ensures |calls| == |ids|
  {
    seq(|ids|, i requires 0 <= i < |ids| => CallReplay(ids[i]))
  }

  /** Everything the stream handler asked its tracker: the snapshot, the cutover, then each envelope. */
  function StreamCalls(replays: seq<EventId>, cut: nat, envelopes: seq<Envelope>): seq<Call>
  {
    ReplayCalls(replays) + MergeCalls(cut, envelopes)
  }
}
