/** Concrete runs in which a caught-up subscriber misses a card that is there, or keeps one that is not, from any tables. */
module SnapshotRuns {
  import opened Common
  import opened Cutover
  import opened Spine
  import opened SpineTheorems
  import opened OutboxSafety
  import opened Snapshot

  /** The cards in columns of the board. */
  function Entries(t: Tables, board: nat): set<Entry>
  {
    set card | card in t.columns && t.columns[card] in t.boards && t.boards[t.columns[card]] == board :: Entry(t.columns[card], card)
  }

  /** Every statement sees the tables as they were at first. */
  function ReadsOf(t: Tables, board: nat, events: map<Entry, EventId>): Reads
  {
    var lists := map column | column in t.boards && t.boards[column] == board :: 1;
    Reads(lists, map card | card in t.columns && t.columns[card] in lists :: Entry(t.columns[card], card) := 2, events)
  }

  ghost predicate SoundAtFirst(t: Tables)
  {
    forall card :: card in t.columns ==> t.columns[card] in t.boards
  }

  /** The rows move, make and delete cards, in columns there are. */
  predicate CardRows(t: Tables, log: seq<Row>)
  {
    forall k :: 0 <= k < |log| ==> log[k].change.CardGone? || (log[k].change.CardPlaced? && log[k].change.column in t.boards)
  }

  lemma {:induction false} ColumnsStay(t: Tables, log: seq<Row>, view: nat, column: nat)
    requires CardRows(t, log) && view <= |log|
    ensures BoardOf(t, log, view, column) == Lookup(t.boards, column)
  {
    if view > 0 {
      ColumnsStay(t, log, view - 1, column);
    }
  }

  lemma {:induction false} PlacedInColumns(t: Tables, log: seq<Row>, view: nat, card: nat)
    requires SoundAtFirst(t) && CardRows(t, log) && view <= |log|
    ensures Placed(t, log, view, card).Some? ==> Placed(t, log, view, card).value in t.boards
  {
    if view > 0 {
      PlacedInColumns(t, log, view - 1, card);
    }
  }

  lemma CardRowsAreSound(t: Tables, log: seq<Row>)
    requires SoundAtFirst(t) && CardRows(t, log)
    ensures Sound(t, log)
  {
    forall view, column | 0 <= view <= |log|
      ensures BoardOf(t, log, view, column) == Lookup(t.boards, column)
    {
      ColumnsStay(t, log, view, column);
    }
    forall view, card | 0 <= view <= |log| && Placed(t, log, view, card).Some?
      ensures Home(t, log, view, card).Some?
    {
      PlacedInColumns(t, log, view, card);
    }
  }

  lemma FirstReadCompletes(t: Tables, log: seq<Row>, board: nat, events: map<Entry, EventId>)
    ensures Completed(t, log, [0, 0, 0], ReadsOf(t, board, events), board)
    ensures ReadsOf(t, board, events).fetches.Keys == Entries(t, board)
  {
    var views: seq<nat>, read := [0, 0, 0], ReadsOf(t, board, events);
    forall e
      ensures e in read.fetches <==> Lists(t, log, views, read, e)
      ensures e in read.fetches ==> Fetches(t, log, views, read, e)
    {
      assert Placed(t, log, 0, e.card) == Lookup(t.columns, e.card);
    }
  }

  /** The events that replay the entries are in the stream, and their ids are none of the small ones the runs below give to rows. */
  ghost predicate Replayed(sub: Sub, entries: set<Entry>, events: map<Entry, EventId>)
  {
    && (forall i :: 0 <= i < |sub.replays| ==> 10 <= sub.replays[i] < 10 + |sub.replays|)
    && events.Keys == entries && forall e :: e in entries ==> events[e] in sub.replays
  }

  lemma {:induction false} ReplaysAll(c: Config, labels: seq<Label>, s: State, entries: set<Entry>)
    returns (labels': seq<Label>, s': State, events: map<Entry, EventId>)
    requires Exec(c, labels) == Some(s) && NoRedelivery(labels)
    requires s == Init(c).(sub := s.sub) && s.sub.phase == Snapshotting && s.sub.replays == []
    ensures Exec(c, labels') == Some(s') && NoRedelivery(labels')
    ensures s' == s.(sub := s.sub.(replays := s'.sub.replays)) && Replayed(s'.sub, entries, events)
    decreases entries
  {
    if entries == {} {
      labels', s', events := labels, s, map[];
    } else {
      var e :| e in entries;
      labels', s', events := ReplaysAll(c, labels, s, entries - {e});
      var id := 10 + |s'.sub.replays|;
      labels', s' := Extend(c, labels', s', Handle(ReplayEnvelope(id)));
      events := events[e := id];
      assert entries == (entries - {e}) + {e};
    }
  }

  /** A subscriber who has read an empty log and cut over. */
  ghost predicate Tails(sub: Sub)
  {
    sub == NO_SUB.(phase := Tailing, views := [0, 0, 0], replays := sub.replays)
  }

  /** A subscriber reads an empty log: `MAX(nats_seq)`, columns, card ids, cards; replays what it found; and cuts over. */
  lemma ReadsThenTails(c: Config, t: Tables) returns (ls: seq<Label>, s: State, events: map<Entry, EventId>)
    requires c.since == 0
    ensures Exec(c, ls) == Some(s) && NoRedelivery(ls)
    ensures s == Init(c).(sub := s.sub) && Tails(s.sub) && Replayed(s.sub, Entries(t, c.board), events)
  {
    ls, s := Extend(c, [], Init(c), Handle(Subscribe));
    ls, s := Extend(c, ls, s, Handle(ReadMax(0)));
    ls, s := Extend(c, ls, s, Handle(ReadStatement));
    ls, s := Extend(c, ls, s, Handle(ReadStatement));
    ls, s := Extend(c, ls, s, Handle(ReadStatement));
    ls, s, events := ReplaysAll(c, ls, s, Entries(t, c.board));
    ls, s := Extend(c, ls, s, Handle(CutOver));
  }

  lemma Settles(c: Config, ls: seq<Label>, s: State, t: Tables, events: map<Entry, EventId>)
    requires c.since == 0 && Exec(c, ls) == Some(s) && SoundAtFirst(t) && CardRows(t, s.db.log)
    requires s.sub.phase.Tailing? && s.sub.views == [0, 0, 0] && s.sub.maxLog == 0
    requires s.cursor == |s.broker.stream| && s.sub.taken == |s.sub.inbox| && Replayed(s.sub, Entries(t, c.board), events)
    requires forall k :: 0 <= k < |s.db.log| && RoutedTo(s.db.log[k], c.board) ==> k in s.broker.stream
    ensures Settled(c, ls, t, ReadsOf(t, c.board, events))
  {
    CardRowsAreSound(t, s.db.log);
    FirstReadCompletes(t, s.db.log, c.board, events);
  }

  /** One row is committed after the read, and not routed to the board. */
  lemma StrayRowSettles(c: Config, t: Tables, row: Row) returns (ls: seq<Label>, read: Reads)
    requires c.since == 0 && SoundAtFirst(t) && CardRows(t, [row]) && !RoutedTo(row, c.board) && row.id < 10
    ensures Settled(c, ls, t, read) && exists events :: read == ReadsOf(t, c.board, events)
    ensures var s := Exec(c, ls).value; s.db.log == [row] && s.sub.views == [0, 0, 0] && s.sub.maxLog == 0
  {
    var s, events;
    ls, s, events := ReadsThenTails(c, t);
    ls, s := Extend(c, ls, s, Write(Commit([row])));
    Settles(c, ls, s, t, events);
    read := ReadsOf(t, c.board, events);
  }

  /**
   From any tables, a card is moved from a column of another board into one of the
   subscriber's, after the subscriber has read: it is missed.
   */
  lemma CrossBoardMoveIsMissed(c: Config, t: Tables, source: nat, card: nat, from: nat, column: nat) returns (ls: seq<Label>, read: Reads)
    requires c.since == 0 && source != c.board && SoundAtFirst(t)
    requires Lookup(t.columns, card) == Some(from) && Lookup(t.boards, from) == Some(source) && Lookup(t.boards, column) == Some(c.board)
    ensures Settled(c, ls, t, read) && Missed(c, ls, t, read, card, column)
    ensures Exec(c, ls).value.db.log == [MoveRow(7, c.tenant, source, card, column)]
  {
    var row := MoveRow(7, c.tenant, source, card, column);
    ls, read := StrayRowSettles(c, t, row);
    assert Placed(t, [row], 0, card) == Some(from);
    ColumnsStay(t, [row], 0, from);
    ColumnsStay(t, [row], 1, column);
    MovedInIsMissedIff(c, ls, t, read, 0, 7, c.tenant, source, card, from, column);
  }

  /** From any tables, a card is deleted by a row routed to a board it was read on before: the subscriber keeps seeing it. */
  lemma StrayDeletionLingers(c: Config, t: Tables, stray: nat, card: nat, column: nat) returns (ls: seq<Label>, read: Reads)
    requires c.since == 0 && stray != c.board && SoundAtFirst(t)
    requires Lookup(t.columns, card) == Some(column) && Lookup(t.boards, column) == Some(c.board)
    ensures Settled(c, ls, t, read) && Lingers(c, ls, t, read, card)
  {
    var row := DeleteRow(7, c.tenant, stray, card);
    ls, read := StrayRowSettles(c, t, row);
    assert Placed(t, [row], 0, card) == Some(column);
    ColumnsStay(t, [row], 0, column);
    DeletedOnceLingersIff(c, ls, t, read, 0, 7, c.tenant, stray, card, column);
  }

  // ------------------------------------------------------------ runs with an emitted row

  /** After the read two rows are committed, published and pumped, and the one routed to the board is received. */
  lemma SeesTwo(c: Config, t: Tables, rows: seq<Row>) returns (ls: seq<Label>, s: State, events: map<Entry, EventId>)
    requires c.since == 0 && c.dispatchers > 0 && c.batchSize >= 2 && c.ring > 0
    requires |rows| == 2 && rows[0].id < rows[1].id < 10 && Route(rows[0]).Some? && Route(rows[1]).Some?
    requires RoutedTo(rows[0], c.board) != RoutedTo(rows[1], c.board)
    ensures Exec(c, ls) == Some(s) && NoRedelivery(ls) && s.db.log == rows && s.broker.stream == [0, 1] && s.cursor == 2
    ensures s.sub.phase == Tailing && s.sub.views == [0, 0, 0] && s.sub.maxLog == 0 && s.sub.taken == |s.sub.inbox|
    ensures Replayed(s.sub, Entries(t, c.board), events)
  {
    ls, s, events := ReadsThenTails(c, t);
    ls, s := SelectsTwo(c, ls, s, rows);
    ls, s := PublishesTwo(c, ls, s);
    ls, s := PumpsTwo(c, ls, s);
    ls, s := Extend(c, ls, s, Handle(Receive));
  }

  lemma PumpsTwo(c: Config, labels: seq<Label>, s: State) returns (labels': seq<Label>, s': State)
    requires Exec(c, labels) == Some(s) && NoRedelivery(labels) && s.broker.stream == [0, 1] && s.cursor == 0
    requires s.sub.phase == Tailing && s.sub.inbox == [] && |s.db.log| == 2
    requires RoutedTo(s.db.log[0], c.board) != RoutedTo(s.db.log[1], c.board)
    ensures Exec(c, labels') == Some(s') && NoRedelivery(labels') && s'.db == s.db && s'.broker == s.broker && s'.cursor == 2
    ensures |s'.sub.inbox| == 1 && s'.sub == s.sub.(inbox := s'.sub.inbox)
  {
    labels', s' := Extend(c, labels, s, Pump(PumpNext));
    labels', s' := Extend(c, labels', s', Pump(PumpNext));
  }

  /** The two rows of a card that leaves the board by a move and comes back by another. */
  function ThereAndBack(tenant: nat, board: nat, other: nat, card: nat, away: nat, column: nat): seq<Row>
  {
    [MoveRow(7, tenant, board, card, away), MoveRow(8, tenant, other, card, column)]
  }

  /**
   From any tables, a card the subscriber was shown is moved to another board, which the
   subscriber is told, and back into its column, which it is not: it is missed
   although it stands where it was shown.
   */
  lemma ThereAndBackIsMissed(c: Config, t: Tables, other: nat, card: nat, away: nat, column: nat) returns (ls: seq<Label>, read: Reads)
    requires c.since == 0 && c.dispatchers > 0 && c.batchSize >= 2 && c.ring > 0 && other != c.board && SoundAtFirst(t)
    requires Lookup(t.columns, card) == Some(column) && Lookup(t.boards, column) == Some(c.board) && Lookup(t.boards, away) == Some(other)
    ensures Settled(c, ls, t, read) && Missed(c, ls, t, read, card, column)
    ensures var s := Exec(c, ls).value;
            && s.db.log == ThereAndBack(c.tenant, c.board, other, card, away, column)
            && Shown(t, s.db.log, s.sub.views, read, card, column)
            && TakesOff(t, s.db.log, 0, c.board, card) && RowEmitted(c, s, 0) && !RowEmitted(c, s, 1)
  {
    var rows := ThereAndBack(c.tenant, c.board, other, card, away, column);
    var s, events;
    ls, s, events := SeesTwo(c, t, rows);
    read := ReadsOf(t, c.board, events);
    Settles(c, ls, s, t, events);
    EmittedIffRouted(c, ls, t, read, 0);
    EmittedIffRouted(c, ls, t, read, 1);
    GoesAndReturns(t, c.tenant, c.board, other, card, away, column);
    assert Fetched(read, s.sub.views, Entry(column, card));
    LastMovedIsMissedIff(c, ls, t, read, 1, 8, c.tenant, other, card, column);
  }

  lemma GoesAndReturns(t: Tables, tenant: nat, board: nat, other: nat, card: nat, away: nat, column: nat)
    requires Lookup(t.columns, card) == Some(column) && Lookup(t.boards, column) == Some(board)
    requires Lookup(t.boards, away) == Some(other) && other != board
    ensures var log := ThereAndBack(tenant, board, other, card, away, column);
            && Placed(t, log, 0, card) == Some(column) && TakesOff(t, log, 0, board, card)
            && OnBoard(t, log, 2, board, card, column) && LastAboutCard(log, 0, 2, card) == Some(1)
  {
    var log := ThereAndBack(tenant, board, other, card, away, column);
    ColumnsStay(t, log, 0, column);
    ColumnsStay(t, log, 1, away);
    ColumnsStay(t, log, 2, column);
    assert Placed(t, log, 1, card) == Some(away);
    assert AboutCard(log[1], card);
  }

  /**
   From any tables, a card is transferred to the subscriber's board, which the subscriber
   is told, and then deleted by a row routed to the board it came from, read
   before the transfer: it lingers although no fetch ever showed it.
   */
  lemma TransferredThenDeletedLingers(c: Config, t: Tables, other: nat, card: nat, from: nat, column: nat) returns (ls: seq<Label>, read: Reads)
    requires c.since == 0 && c.dispatchers > 0 && c.batchSize >= 2 && c.ring > 0 && other != c.board && SoundAtFirst(t)
    requires Lookup(t.columns, card) == Some(from) && Lookup(t.boards, from) == Some(other) && Lookup(t.boards, column) == Some(c.board)
    ensures Settled(c, ls, t, read) && Lingers(c, ls, t, read, card)
    ensures var s := Exec(c, ls).value;
            && s.db.log == TransferRows(7, 8, c.tenant, other, c.board, card, column) + [DeleteRow(9, c.tenant, other, card)]
            && !ShownAtAll(s.sub.views, read, card)
  {
    var rows, row := TransferRows(7, 8, c.tenant, other, c.board, card, column), DeleteRow(9, c.tenant, other, card);
    var s, events;
    ls, s, events := SeesTwo(c, t, rows);
    read := ReadsOf(t, c.board, events);
    ls, s := Extend(c, ls, s, Write(Commit([row])));
    assert s.db.log == rows + [row];
    Settles(c, ls, s, t, events);
    ComesAndGoes(t, c.tenant, c.board, other, card, from, column, events);
    UntoldThenLingers(c, ls, t, read, card, 2);
  }

  lemma ComesAndGoes(t: Tables, tenant: nat, board: nat, other: nat, card: nat, from: nat, column: nat, events: map<Entry, EventId>)
    requires Lookup(t.columns, card) == Some(from) && Lookup(t.boards, from) == Some(other)
    requires Lookup(t.boards, column) == Some(board) && other != board
    ensures var log := TransferRows(7, 8, tenant, other, board, card, column) + [DeleteRow(9, tenant, other, card)];
            && !ShownAtAll([0, 0, 0], ReadsOf(t, board, events), card)
            && LeavesUntold(t, log, [0, 0, 0], ReadsOf(t, board, events), board, 0, card, 2)
  {
    var log := TransferRows(7, 8, tenant, other, board, card, column) + [DeleteRow(9, tenant, other, card)];
    var views: seq<nat>, read := [0, 0, 0], ReadsOf(t, board, events);
    ColumnsStay(t, log, 2, column);
    assert Placed(t, log, 2, card) == Some(column) && Placed(t, log, 3, card) == None;
    assert AboutCard(log[1], card) && Due(t, log, views, read, board, 0, card, 2);
    assert !RoutedTo(log[2], board);
    assert DueAtHome(t, log, views, read, board, 0, card, 2);
  }
}
