/**
 The snapshot is not atomic: the columns are read by one statement, each column's
 card ids by another, and each card by a third, so a card moving at the wrong moment
 can be missed by all of them or shown twice.  What the reads leave out is made up
 for by the live tail exactly as far as the rows that say so are routed to the board.
 */
module Snapshot {
  import opened Common
  import opened Cutover
  import opened Spine
  import opened SpineInvariant
  import opened SpineTheorems

  // ------------------------------------------------------------ columns and cards over time

  /** The tables before the first row of the log: the board of each column, the column of each card. */
  datatype Tables = Tables(boards: map<nat, nat>, columns: map<nat, nat>)

  function Lookup(m: map<nat, nat>, k: nat): Option<nat>
  {
    if k in m then Some(m[k]) else None
  }

  /** The column card `card` is in after the first `view` commits; a column that goes takes its cards along. */
  function Placed(t: Tables, log: seq<Row>, view: nat, card: nat): Option<nat>
    requires view <= |log|
  {
    if view == 0 then Lookup(t.columns, card)
    else
      var before := Placed(t, log, view - 1, card);
      match log[view - 1].change
      case CardPlaced(k, column) => if k == card then Some(column) else before
      case CardGone(k) => if k == card then None else before
      case ColumnGone(k) => if before == Some(k) then None else before
      case _ => before
  }

  /** The board column `column` belongs to after the first `view` commits. */
  function BoardOf(t: Tables, log: seq<Row>, view: nat, column: nat): Option<nat>
    requires view <= |log|
  {
    if view == 0 then Lookup(t.boards, column)
    else
      match log[view - 1].change
      case ColumnPresent(k, board) => if k == column then Some(board) else BoardOf(t, log, view - 1, column)
      case ColumnGone(k) => if k == column then None else BoardOf(t, log, view - 1, column)
      case _ => BoardOf(t, log, view - 1, column)
  }

  predicate OnBoard(t: Tables, log: seq<Row>, view: nat, board: nat, card: nat, column: nat)
    requires view <= |log|
  {
    Placed(t, log, view, card) == Some(column) && BoardOf(t, log, view, column) == Some(board)
  }

  /** The board the card is on, through the column it is in. */
  function Home(t: Tables, log: seq<Row>, view: nat, card: nat): Option<nat>
    requires view <= |log|
  {
    var column := Placed(t, log, view, card);
    if column.Some? then BoardOf(t, log, view, column.value) else None
  }

  predicate AboutCard(r: Row, card: nat)
  {
    match r.change
    case CardPlaced(k, _) => k == card
    case CardGone(k) => k == card
    case _ => false
  }

  /** The latest of the rows `from..to` about the card, if there is one. */
  function LastAboutCard(log: seq<Row>, from: nat, to: nat, card: nat): (k: Option<nat>)
    requires from <= to <= |log|
    ensures k.Some? ==> from <= k.value < to && AboutCard(log[k.value], card)
    ensures forall i :: (if k.Some? then k.value + 1 else from) <= i < to ==> !AboutCard(log[i], card)
  {
    if from == to then None
    else if AboutCard(log[to - 1], card) then Some(to - 1)
    else LastAboutCard(log, from, to - 1, card)
  }

  predicate NoneAboutCard(log: seq<Row>, from: nat, to: nat, card: nat)
    requires from <= to <= |log|
  {
    forall k :: from <= k < to ==> !AboutCard(log[k], card)
  }

  /** Where no row is about a card, it has been where it is. */
  lemma {:induction false} CardStood(t: Tables, log: seq<Row>, from: nat, to: nat, card: nat, column: nat)
    requires from <= to <= |log| && NoneAboutCard(log, from, to, card)
    requires Placed(t, log, to, card) == Some(column)
    ensures Placed(t, log, from, card) == Some(column)
  {
    if from < to {
      assert !AboutCard(log[to - 1], card);
      CardStood(t, log, from, to - 1, card, column);
    }
  }

  /** Where a card is now is what the latest row about it says. */
  lemma LatestPlaces(t: Tables, log: seq<Row>, from: nat, card: nat, column: nat)
    requires from <= |log| && Placed(t, log, |log|, card) == Some(column)
    ensures var k := LastAboutCard(log, from, |log|, card);
            if k.Some? then log[k.value].change == CardPlaced(card, column) else Placed(t, log, from, card) == Some(column)
  {
    var k := LastAboutCard(log, from, |log|, card);
    CardStood(t, log, if k.Some? then k.value + 1 else from, |log|, card, column);
  }

  /** Row `k` puts the card into the column, and no later one before `view` is about the card or removes the column. */
  ghost predicate PutBy(log: seq<Row>, view: nat, card: nat, column: nat, k: nat)
    requires view <= |log|
  {
    && k < view && log[k].change == CardPlaced(card, column)
    && forall i :: k < i < view ==> !AboutCard(log[i], card) && log[i].change != ColumnGone(column)
  }

  /** A card is in a column after `view` commits if and only if some row put it there and none since took it away, or it was there at first and none did. */
  lemma {:induction false} PlacedIff(t: Tables, log: seq<Row>, view: nat, card: nat, column: nat)
    requires view <= |log|
    ensures Placed(t, log, view, card) == Some(column) <==>
            || (exists k :: PutBy(log, view, card, column, k))
            || (card in t.columns && t.columns[card] == column &&
                forall i :: 0 <= i < view ==> !AboutCard(log[i], card) && log[i].change != ColumnGone(column))
  {
    if view > 0 {
      var w: nat := view - 1;
      PlacedIff(t, log, w, card, column);
      if k :| PutBy(log, view, card, column, k) {
        assert k == w || PutBy(log, w, card, column, k);
      }
      if Placed(t, log, view, card) == Some(column) {
        if log[view - 1].change == CardPlaced(card, column) {
          assert PutBy(log, view, card, column, w);
        } else if k :| PutBy(log, w, card, column, k) {
          assert PutBy(log, view, card, column, k);
        }
      }
    }
  }

  /** Row `k` makes the column one of the board, and no later one before `view` makes or removes it. */
  ghost predicate MadeBy(log: seq<Row>, view: nat, column: nat, board: nat, k: nat)
    requires view <= |log|
  {
    && k < view && log[k].change == ColumnPresent(column, board)
    && forall i :: k < i < view ==> !AboutColumn(log[i], column)
  }

  predicate AboutColumn(r: Row, column: nat)
  {
    match r.change
    case ColumnPresent(k, _) => k == column
    case ColumnGone(k) => k == column
    case _ => false
  }

  /** The same for the board of a column. */
  lemma {:induction false} BoardOfIff(t: Tables, log: seq<Row>, view: nat, column: nat, board: nat)
    requires view <= |log|
    ensures BoardOf(t, log, view, column) == Some(board) <==>
            || (exists k :: MadeBy(log, view, column, board, k))
            || (column in t.boards && t.boards[column] == board && forall i :: 0 <= i < view ==> !AboutColumn(log[i], column))
  {
    if view > 0 {
      var w: nat := view - 1;
      BoardOfIff(t, log, w, column, board);
      if k :| MadeBy(log, view, column, board, k) {
        assert k == w || MadeBy(log, w, column, board, k);
      }
      if BoardOf(t, log, view, column) == Some(board) {
        if log[view - 1].change == ColumnPresent(column, board) {
          assert MadeBy(log, view, column, board, w);
        } else if k :| MadeBy(log, w, column, board, k) {
          assert MadeBy(log, view, column, board, k);
        }
      }
    }
  }

  // ------------------------------------------------------------ which rows say so to the board

  predicate RoutedTo(r: Row, board: nat)
  {
    Route(r) == Some(BoardSubject(board))
  }

  /** If row `k` puts a card into a column of some board, or makes a column of it, the row is routed to that board. */
  predicate ArrivalIsHome(t: Tables, log: seq<Row>, k: nat)
    requires k < |log|
  {
    match log[k].change
    case CardPlaced(_, column) =>
      BoardOf(t, log, k, column).Some? ==> RoutedTo(log[k], BoardOf(t, log, k, column).value)
    case ColumnPresent(_, board) => RoutedTo(log[k], board)
    case _ => true
  }

  /** The board the card of row `k` was on just before the row, if the row is about a card. */
  function BoardLeft(t: Tables, log: seq<Row>, k: nat): Option<nat>
    requires k < |log|
  {
    match log[k].change
    case CardPlaced(card, _) =>
      var from := Placed(t, log, k, card); if from.Some? then BoardOf(t, log, k, from.value) else None
    case CardGone(card) =>
      var from := Placed(t, log, k, card); if from.Some? then BoardOf(t, log, k, from.value) else None
    case ColumnPresent(column, _) => BoardOf(t, log, k, column)
    case ColumnGone(column) => BoardOf(t, log, k, column)
    case OtherChange => None
  }

  /** If row `k` takes a card or a column from a board, the row is routed to that board. */
  predicate DepartureIsHome(t: Tables, log: seq<Row>, k: nat)
    requires k < |log|
  {
    BoardLeft(t, log, k).Some? ==> RoutedTo(log[k], BoardLeft(t, log, k).value)
  }

  /** The one row of a card move: routed to the board the card is read from. */
  function MoveRow(id: EventId, tenant: nat, source: nat, card: nat, column: nat): Row
  {
    Row(id, tenant, None, Some(source), None, CardPlaced(card, column))
  }

  /** The two rows of a transfer to another project: one for each board. */
  function TransferRows(id: EventId, id': EventId, tenant: nat, source: nat, target: nat, card: nat, column: nat): seq<Row>
  {
    [Row(id, tenant, None, Some(source), None, CardGone(card)), Row(id', tenant, None, Some(target), None, CardPlaced(card, column))]
  }

  lemma TransferIsHome(t: Tables, log: seq<Row>, id: EventId, id': EventId, tenant: nat, source: nat, target: nat, card: nat, column: nat, from: nat)
    requires OnBoard(t, log, |log|, source, card, from) && BoardOf(t, log, |log|, column) == Some(target)
    ensures var log' := log + TransferRows(id, id', tenant, source, target, card, column);
            forall k :: |log| <= k < |log'| ==> ArrivalIsHome(t, log', k) && DepartureIsHome(t, log', k)
  {
    var rows := TransferRows(id, id', tenant, source, target, card, column);
    var log' := log + rows;
    Prefix(t, log, rows, card, column);
    Prefix(t, log, rows, card, from);
    assert log'[|log|] == rows[0] && log'[|log| + 1] == rows[1];
    assert Placed(t, log', |log| + 1, card) == None;
    assert BoardOf(t, log', |log| + 1, column) == Some(target);
  }

  lemma {:induction false} PrefixAt(t: Tables, log: seq<Row>, rows: seq<Row>, view: nat, card: nat, column: nat)
    requires view <= |log|
    ensures Placed(t, log + rows, view, card) == Placed(t, log, view, card)
    ensures BoardOf(t, log + rows, view, column) == BoardOf(t, log, view, column)
  {
    if view > 0 {
      PrefixAt(t, log, rows, view - 1, card, column);
    }
  }

  lemma Prefix(t: Tables, log: seq<Row>, rows: seq<Row>, card: nat, column: nat)
    ensures Placed(t, log + rows, |log|, card) == Placed(t, log, |log|, card)
    ensures BoardOf(t, log + rows, |log|, column) == BoardOf(t, log, |log|, column)
  {
    PrefixAt(t, log, rows, |log|, card, column);
  }

  /** What keys and foreign keys guarantee: a card's column exists, and a column never changes boards. */
  ghost predicate Sound(t: Tables, log: seq<Row>)
  {
    && (forall view, card :: 0 <= view <= |log| && Placed(t, log, view, card).Some? ==> Home(t, log, view, card).Some?)
    && (forall view, later, column :: 0 <= view <= later <= |log| && BoardOf(t, log, view, column).Some? && BoardOf(t, log, later, column).Some? ==>
          BoardOf(t, log, view, column) == BoardOf(t, log, later, column))
  }

  /** A card that is not on a board does not get there without a row about it. */
  lemma StaysElsewhere(t: Tables, log: seq<Row>, from: nat, to: nat, card: nat, board: nat)
    requires Sound(t, log) && from <= to <= |log| && NoneAboutCard(log, from, to, card)
    requires Home(t, log, from, card) != Some(board)
    ensures Home(t, log, to, card) != Some(board)
  {
    var column := Placed(t, log, to, card);
    if column.Some? {
      CardStood(t, log, from, to, card, column.value);
    }
  }

  /** And one that is on it now was on it, in the same column, since the last row about it. */
  lemma StoodOnBoard(t: Tables, log: seq<Row>, from: nat, to: nat, card: nat, column: nat, board: nat)
    requires Sound(t, log) && from <= to <= |log| && NoneAboutCard(log, from, to, card)
    requires OnBoard(t, log, to, board, card, column)
    ensures OnBoard(t, log, from, board, card, column)
  {
    CardStood(t, log, from, to, card, column);
    assert Home(t, log, from, card).Some?;
  }

  // ------------------------------------------------------------ the read

  /** A card id returned by the statement that lists a column. */
  datatype Entry = Entry(column: nat, card: nat)

  /** Which statement listed the cards of each column, which one fetched each card listed, and the event that replays what it found. */
  datatype Reads = Reads(lists: map<nat, nat>, fetches: map<Entry, nat>, events: map<Entry, EventId>)

  predicate Fetched(read: Reads, views: seq<nat>, e: Entry)
  {
    e in read.fetches && 0 <= read.fetches[e] < |views|
  }

  predicate ColumnRead(read: Reads, views: seq<nat>, column: nat)
  {
    column in read.lists && read.lists[column] < |views|
  }

  /**
   A completed read.  `views[i]` is the number of commits statement `i` sees.  The
   first statement finds the columns; each column found has a later one that lists its
   cards; each card listed has a still later one that fetches it.  A card that is gone
   by then fails the whole snapshot.
   */
  ghost predicate Completed(t: Tables, log: seq<Row>, views: seq<nat>, read: Reads, board: nat)
  {
    && views != [] && (forall i :: 0 <= i < |views| ==> views[i] <= |log|)
    && (forall column :: column in read.lists <==> BoardOf(t, log, views[0], column) == Some(board))
    && (forall column :: column in read.lists ==> ColumnRead(read, views, column))
    && (forall e :: e in read.fetches <==> Lists(t, log, views, read, e))
    && (forall e :: e in read.fetches ==> Fetches(t, log, views, read, e))
  }

  predicate Lists(t: Tables, log: seq<Row>, views: seq<nat>, read: Reads, e: Entry)
    requires forall i :: 0 <= i < |views| ==> views[i] <= |log|
  {
    ColumnRead(read, views, e.column) && Placed(t, log, views[read.lists[e.column]], e.card) == Some(e.column)
  }

  predicate Fetches(t: Tables, log: seq<Row>, views: seq<nat>, read: Reads, e: Entry)
    requires forall i :: 0 <= i < |views| ==> views[i] <= |log|
  {
    && ColumnRead(read, views, e.column) && Fetched(read, views, e) && read.lists[e.column] < read.fetches[e]
    && Placed(t, log, views[read.fetches[e]], e.card).Some?
  }

  /** The column under which the snapshot shows a card is the one its fetch finds, whichever column listed it. */
  ghost predicate Shown(t: Tables, log: seq<Row>, views: seq<nat>, read: Reads, card: nat, column: nat)
    requires forall i :: 0 <= i < |views| ==> views[i] <= |log|
  {
    exists e :: Fetched(read, views, e) && e.card == card && Placed(t, log, views[read.fetches[e]], card) == Some(column)
  }

  /** The snapshot shows the card somewhere. */
  ghost predicate ShownAtAll(views: seq<nat>, read: Reads, card: nat)
  {
    exists e :: Fetched(read, views, e) && e.card == card
  }

  /** A fresh subscriber that has caught up with a log whose rows for the board are all published, and what its snapshot read. */
  ghost predicate Settled(c: Config, labels: seq<Label>, t: Tables, read: Reads)
  {
    && OpenStream(c, labels) && c.since == 0
    && var s := Exec(c, labels).value;
       && s.cursor == |s.broker.stream| && s.sub.taken == |s.sub.inbox| && s.sub.maxLog <= |s.db.log|
       && (forall k :: s.sub.maxLog <= k < |s.db.log| && RoutedTo(s.db.log[k], c.board) ==> k in s.broker.stream)
       && Sound(t, s.db.log) && Completed(t, s.db.log, s.sub.views, read, c.board)
       && forall e :: e in read.fetches ==> e in read.events && read.events[e] in s.sub.replays
  }

  /** The statements ran in order, after the `MAX(nats_seq)` read. */
  ghost predicate InOrder(since: nat, views: seq<nat>)
  {
    && (forall i :: 0 <= i < |views| ==> since <= views[i])
    && (forall i, j :: 0 <= i <= j < |views| ==> views[i] <= views[j])
  }

  lemma SettledReads(c: Config, labels: seq<Label>, t: Tables, read: Reads)
    requires Settled(c, labels, t, read)
    ensures var s := Exec(c, labels).value; Inv(c, s) && InOrder(s.sub.maxLog, s.sub.views)
  {
    ReachableInv(c, labels);
  }

  /** Of the rows since the read, exactly those routed to the board are emitted. */
  lemma EmittedIffRouted(c: Config, labels: seq<Label>, t: Tables, read: Reads, k: nat)
    requires Settled(c, labels, t, read)
    requires Exec(c, labels).value.sub.maxLog <= k < |Exec(c, labels).value.db.log|
    ensures var s := Exec(c, labels).value; RowEmitted(c, s, k) <==> RoutedTo(s.db.log[k], c.board)
  {
    ReachableInv(c, labels);
    var s := Exec(c, labels).value;
    if RoutedTo(s.db.log[k], c.board) {
      CaughtUp(c, labels, k);
    }
    if RowEmitted(c, s, k) {
      EmittedIsRouted(c, s, k);
    }
  }

  // ------------------------------------------------------------ what the client has heard

  /** Row `k` takes the card off the board. */
  predicate TakesOff(t: Tables, log: seq<Row>, k: nat, board: nat, card: nat)
    requires k < |log|
  {
    Home(t, log, k, card) == Some(board) && Home(t, log, k + 1, card) != Some(board)
  }

  /** Row `k` is about the card, or takes it off the board along with its column. */
  predicate Concerns(t: Tables, log: seq<Row>, k: nat, board: nat, card: nat)
    requires k < |log|
  {
    AboutCard(log[k], card) || TakesOff(t, log, k, board, card)
  }

  /** Some fetch of the card saw the first `v` commits. */
  ghost predicate FetchedAt(views: seq<nat>, read: Reads, card: nat, v: nat)
  {
    exists e :: Fetched(read, views, e) && e.card == card && views[read.fetches[e]] == v
  }

  /** The client has been sent the event that replays what such a fetch found. */
  ghost predicate ReplayedAt(c: Config, s: State, read: Reads, card: nat, v: nat)
  {
    exists e :: Fetched(read, s.sub.views, e) && e.card == card && s.sub.views[read.fetches[e]] == v &&
      e in read.events && CallReplay(read.events[e]) in Sent(c, s)
  }

  /** Every event of the snapshot has been emitted, however small the duplicate filter. */
  lemma FetchIsReplayed(c: Config, labels: seq<Label>, t: Tables, read: Reads, card: nat, v: nat)
    requires Settled(c, labels, t, read)
    ensures var s := Exec(c, labels).value; ReplayedAt(c, s, read, card, v) <==> FetchedAt(s.sub.views, read, card, v)
  {
    var s := Exec(c, labels).value;
    ReplaysAreDistinct(c, labels);
    if e :| Fetched(read, s.sub.views, e) && e.card == card && s.sub.views[read.fetches[e]] == v {
      var i :| 0 <= i < |s.sub.replays| && s.sub.replays[i] == read.events[e];
      ReplayIsEmitted(c.seenCapacity, s.sub.replays, s.sub.cut, TakenEnvelopes(s), i);
    }
  }

  /** The client has heard how the card stood after the first `v` commits: by the event that replays a fetch, or by a row emitted live. */
  ghost predicate Heard(c: Config, s: State, t: Tables, read: Reads, card: nat, v: nat)
  {
    && v <= |s.db.log|
    && (|| ReplayedAt(c, s, read, card, v)
        || (s.sub.maxLog < v && Concerns(t, s.db.log, v - 1, c.board, card) && RowEmitted(c, s, v - 1)))
  }

  /** The same by what is in the log: the row is routed to the board. */
  ghost predicate Due(t: Tables, log: seq<Row>, views: seq<nat>, read: Reads, board: nat, since: nat, card: nat, v: nat)
  {
    && v <= |log|
    && (|| FetchedAt(views, read, card, v)
        || (since < v && Concerns(t, log, v - 1, board, card) && RoutedTo(log[v - 1], board)))
  }

  /** `Due` for a settled subscriber. */
  ghost predicate DueTo(c: Config, s: State, t: Tables, read: Reads, card: nat, v: nat)
  {
    Due(t, s.db.log, s.sub.views, read, c.board, s.sub.maxLog, card, v)
  }

  lemma HeardIffDue(c: Config, labels: seq<Label>, t: Tables, read: Reads, card: nat, v: nat)
    requires Settled(c, labels, t, read)
    ensures var s := Exec(c, labels).value; Heard(c, s, t, read, card, v) <==> DueTo(c, s, t, read, card, v)
  {
    FetchIsReplayed(c, labels, t, read, card, v);
    if Exec(c, labels).value.sub.maxLog < v <= |Exec(c, labels).value.db.log| {
      EmittedIffRouted(c, labels, t, read, v - 1);
    }
  }

  // ------------------------------------------------------------ what is missed

  /** The client has heard of the card since the last row about it. */
  ghost predicate Told(c: Config, s: State, t: Tables, read: Reads, card: nat)
  {
    exists v: nat :: Heard(c, s, t, read, card, v) && NoneAboutCard(s.db.log, v, |s.db.log|, card)
  }

  /** The card is on the board of a caught-up subscriber who has not heard of it since the last row about it. */
  ghost predicate Missed(c: Config, labels: seq<Label>, t: Tables, read: Reads, card: nat, column: nat)
    requires Settled(c, labels, t, read)
  {
    var s := Exec(c, labels).value;
    OnBoard(t, s.db.log, |s.db.log|, c.board, card, column) && !Told(c, s, t, read, card)
  }

  /** A card on the board that is not shown under its present column has a row since the read, and the latest put it there. */
  lemma ShownOrLatest(t: Tables, log: seq<Row>, views: seq<nat>, read: Reads, board: nat, since: nat, card: nat, column: nat)
    requires Sound(t, log) && Completed(t, log, views, read, board) && since <= |log| && InOrder(since, views)
    requires OnBoard(t, log, |log|, board, card, column) && !Shown(t, log, views, read, card, column)
    ensures var k := LastAboutCard(log, since, |log|, card); k.Some? && log[k.value].change == CardPlaced(card, column)
  {
    LatestPlaces(t, log, since, card, column);
    if LastAboutCard(log, since, |log|, card).None? {
      StoodOnBoard(t, log, views[0], |log|, card, column, board);
      assert ColumnRead(read, views, column);
      var e := Entry(column, card);
      CardStood(t, log, views[read.lists[column]], |log|, card, column);
      assert Lists(t, log, views, read, e);
      assert Fetches(t, log, views, read, e);
      CardStood(t, log, views[read.fetches[e]], |log|, card, column);
    }
  }

  /** Some statement that fetched the card sees row `k`. */
  ghost predicate FetchedAfter(views: seq<nat>, read: Reads, card: nat, k: nat)
  {
    exists e :: Fetched(read, views, e) && e.card == card && views[read.fetches[e]] > k
  }

  /** What is due and up to date is a fetch after the latest row about the card, or that row. */
  lemma DueSince(t: Tables, log: seq<Row>, views: seq<nat>, read: Reads, board: nat, since: nat, card: nat, column: nat, k: nat, v: nat)
    requires Sound(t, log) && since <= k < |log| && AboutCard(log[k], card) && NoneAboutCard(log, k + 1, |log|, card)
    requires OnBoard(t, log, |log|, board, card, column)
    requires Due(t, log, views, read, board, since, card, v) && NoneAboutCard(log, v, |log|, card)
    ensures RoutedTo(log[k], board) || FetchedAfter(views, read, card, k)
  {
    assert v > k;
    if !FetchedAt(views, read, card, v) && v - 1 > k {
      StoodOnBoard(t, log, v, |log|, card, column, board);
    }
  }

  lemma DueThenTold(c: Config, labels: seq<Label>, t: Tables, read: Reads, card: nat, v: nat)
    requires Settled(c, labels, t, read) && DueTo(c, Exec(c, labels).value, t, read, card, v)
    requires NoneAboutCard(Exec(c, labels).value.db.log, v, |Exec(c, labels).value.db.log|, card)
    ensures Told(c, Exec(c, labels).value, t, read, card)
  {
    HeardIffDue(c, labels, t, read, card, v);
  }

  /** The latest row about the card, if it is routed to the board, or a fetch after it is due and up to date. */
  lemma DueNow(t: Tables, log: seq<Row>, views: seq<nat>, read: Reads, board: nat, since: nat, card: nat, k: nat) returns (v: nat)
    requires since <= |log| && LastAboutCard(log, since, |log|, card) == Some(k)
    requires forall i :: 0 <= i < |views| ==> views[i] <= |log|
    requires RoutedTo(log[k], board) || FetchedAfter(views, read, card, k)
    ensures Due(t, log, views, read, board, since, card, v) && NoneAboutCard(log, v, |log|, card)
  {
    if RoutedTo(log[k], board) {
      v := k + 1;
    } else {
      var e :| Fetched(read, views, e) && e.card == card && views[read.fetches[e]] > k;
      v := views[read.fetches[e]];
      assert FetchedAt(views, read, card, v);
    }
  }

  lemma ToldSince(c: Config, labels: seq<Label>, t: Tables, read: Reads, card: nat, k: nat)
    requires Settled(c, labels, t, read)
    requires LastAboutCard(Exec(c, labels).value.db.log, Exec(c, labels).value.sub.maxLog, |Exec(c, labels).value.db.log|, card) == Some(k)
    requires var s := Exec(c, labels).value;
             RoutedTo(s.db.log[k], c.board) || FetchedAfter(s.sub.views, read, card, k)
    ensures Told(c, Exec(c, labels).value, t, read, card)
  {
    var s := Exec(c, labels).value;
    var v := DueNow(t, s.db.log, s.sub.views, read, c.board, s.sub.maxLog, card, k);
    DueThenTold(c, labels, t, read, card, v);
  }

  /**
   The exact condition, run by run and card by card: a card on the board is missed if
   and only if there is a row about it since the read, the latest such row is not routed
   to the board, and no fetch of the card ran after it.
   */
  lemma MissedIff(c: Config, labels: seq<Label>, t: Tables, read: Reads, card: nat, column: nat)
    requires Settled(c, labels, t, read)
    requires var s := Exec(c, labels).value; OnBoard(t, s.db.log, |s.db.log|, c.board, card, column)
    ensures var s := Exec(c, labels).value;
            var k := LastAboutCard(s.db.log, s.sub.maxLog, |s.db.log|, card);
            Missed(c, labels, t, read, card, column) <==>
            k.Some? && !RoutedTo(s.db.log[k.value], c.board) && !FetchedAfter(s.sub.views, read, card, k.value)
  {
    SettledReads(c, labels, t, read);
    var s := Exec(c, labels).value;
    var k := LastAboutCard(s.db.log, s.sub.maxLog, |s.db.log|, card);
    if k.None? {
      var v := FreshIfNoRow(t, s.db.log, s.sub.views, read, c.board, s.sub.maxLog, card, column);
      DueThenTold(c, labels, t, read, card, v);
    } else if Told(c, s, t, read, card) {
      var v: nat :| Heard(c, s, t, read, card, v) && NoneAboutCard(s.db.log, v, |s.db.log|, card);
      HeardIffDue(c, labels, t, read, card, v);
      DueSince(t, s.db.log, s.sub.views, read, c.board, s.sub.maxLog, card, column, k.value, v);
    } else if RoutedTo(s.db.log[k.value], c.board) || FetchedAfter(s.sub.views, read, card, k.value) {
      ToldSince(c, labels, t, read, card, k.value);
    }
  }

  /** Without a row about it since the read, the card was fetched. */
  lemma FreshIfNoRow(t: Tables, log: seq<Row>, views: seq<nat>, read: Reads, board: nat, since: nat, card: nat, column: nat) returns (v: nat)
    requires since <= |log| && Sound(t, log) && Completed(t, log, views, read, board) && InOrder(since, views)
    requires OnBoard(t, log, |log|, board, card, column) && LastAboutCard(log, since, |log|, card).None?
    ensures Due(t, log, views, read, board, since, card, v) && NoneAboutCard(log, v, |log|, card)
  {
    if !Shown(t, log, views, read, card, column) {
      ShownOrLatest(t, log, views, read, board, since, card, column);
    }
    var e :| Fetched(read, views, e) && e.card == card && Placed(t, log, views[read.fetches[e]], card) == Some(column);
    v := views[read.fetches[e]];
    assert FetchedAt(views, read, card, v);
  }

  lemma LatestIsHome(t: Tables, log: seq<Row>, since: nat, board: nat, card: nat, column: nat)
    requires Sound(t, log) && since <= |log| && LastAboutCard(log, since, |log|, card).Some?
    requires OnBoard(t, log, |log|, board, card, column)
    ensures var k := LastAboutCard(log, since, |log|, card).value; ArrivalIsHome(t, log, k) ==> RoutedTo(log[k], board)
  {
    var k := LastAboutCard(log, since, |log|, card).value;
    LatestPlaces(t, log, since, card, column);
    StoodOnBoard(t, log, k + 1, |log|, card, column, board);
  }

  /** So if every row since the read that puts a card on the board is routed to it, the client has heard of every card on the board since the last row about it. */
  lemma SnapshotOrLive(c: Config, labels: seq<Label>, t: Tables, read: Reads, card: nat, column: nat)
    requires Settled(c, labels, t, read)
    requires var s := Exec(c, labels).value;
             && (forall k :: s.sub.maxLog <= k < |s.db.log| ==> ArrivalIsHome(t, s.db.log, k))
             && OnBoard(t, s.db.log, |s.db.log|, c.board, card, column)
    ensures Told(c, Exec(c, labels).value, t, read, card)
  {
    var s := Exec(c, labels).value;
    MissedIff(c, labels, t, read, card, column);
    if LastAboutCard(s.db.log, s.sub.maxLog, |s.db.log|, card).Some? {
      LatestIsHome(t, s.db.log, s.sub.maxLog, c.board, card, column);
    }
  }

  /** Since the read, row `k` alone is about the card. */
  ghost predicate OnlyRow(log: seq<Row>, since: nat, k: nat, card: nat)
  {
    since <= k < |log| && NoneAboutCard(log, since, k, card) && AboutCard(log[k], card) && NoneAboutCard(log, k + 1, |log|, card)
  }

  /** The statement that listed the column sees row `k`. */
  predicate ListedAfter(views: seq<nat>, read: Reads, column: nat, k: nat)
  {
    ColumnRead(read, views, column) && views[read.lists[column]] > k
  }

  /** A card that comes from another board is fetched after its move exactly when its new column is listed after it. */
  lemma FetchedIfListedLater(t: Tables, log: seq<Row>, views: seq<nat>, read: Reads, board: nat, since: nat, k: nat, card: nat, from: nat, column: nat)
    requires Sound(t, log) && Completed(t, log, views, read, board) && InOrder(since, views) && OnlyRow(log, since, k, card)
    requires Placed(t, log, k, card) == Some(from) && BoardOf(t, log, k, from) != Some(board) && Placed(t, log, |log|, card) == Some(column)
    ensures FetchedAfter(views, read, card, k) <==> ListedAfter(views, read, column, k)
  {
    if FetchedAfter(views, read, card, k) {
      var e :| Fetched(read, views, e) && e.card == card && views[read.fetches[e]] > k;
      assert Lists(t, log, views, read, e);
      var v := views[read.lists[e.column]];
      assert BoardOf(t, log, views[0], e.column) == Some(board);
      if v <= k {
        CardStood(t, log, v, k, card, from);
      } else {
        CardStood(t, log, v, |log|, card, column);
      }
    }
    if ListedAfter(views, read, column, k) {
      var e := Entry(column, card);
      CardStood(t, log, views[read.lists[column]], |log|, card, column);
      assert Lists(t, log, views, read, e);
      assert Fetches(t, log, views, read, e);
    }
  }

  /**
   A card whose latest row since the read is a move into a column of the board: it is
   missed if and only if move_card read it on another board than the column's and no
   fetch of it ran after.
   */
  lemma LastMovedIsMissedIff(
    c: Config, labels: seq<Label>, t: Tables, read: Reads, k: nat, id: EventId, tenant: nat, source: nat, card: nat, column: nat)
    requires Settled(c, labels, t, read)
    requires var s := Exec(c, labels).value;
             && LastAboutCard(s.db.log, s.sub.maxLog, |s.db.log|, card) == Some(k)
             && s.db.log[k] == MoveRow(id, tenant, source, card, column)
             && OnBoard(t, s.db.log, |s.db.log|, c.board, card, column)
    ensures Missed(c, labels, t, read, card, column) <==>
            source != c.board && !FetchedAfter(Exec(c, labels).value.sub.views, read, card, k)
  {
    MissedIff(c, labels, t, read, card, column);
  }

  lemma OnlyRowIsLatest(log: seq<Row>, since: nat, k: nat, card: nat)
    requires OnlyRow(log, since, k, card)
    ensures LastAboutCard(log, since, |log|, card) == Some(k)
  {
    assert !(LastAboutCard(log, since, |log|, card).None?);
  }

  /** If it was moved once and came from a column of another board, that is: `source` is not the board, and the new column was listed before the move. */
  lemma MovedInIsMissedIff(
    c: Config, labels: seq<Label>, t: Tables, read: Reads, k: nat, id: EventId, tenant: nat, source: nat, card: nat, from: nat, column: nat)
    requires Settled(c, labels, t, read)
    requires var s := Exec(c, labels).value;
             && OnlyRow(s.db.log, s.sub.maxLog, k, card) && s.db.log[k] == MoveRow(id, tenant, source, card, column)
             && Placed(t, s.db.log, k, card) == Some(from) && BoardOf(t, s.db.log, k, from) != Some(c.board)
             && OnBoard(t, s.db.log, |s.db.log|, c.board, card, column)
    ensures Missed(c, labels, t, read, card, column) <==>
            source != c.board && !ListedAfter(Exec(c, labels).value.sub.views, read, column, k)
  {
    SettledReads(c, labels, t, read);
    var s := Exec(c, labels).value;
    OnlyRowIsLatest(s.db.log, s.sub.maxLog, k, card);
    LastMovedIsMissedIff(c, labels, t, read, k, id, tenant, source, card, column);
    FetchedIfListedLater(t, s.db.log, s.sub.views, read, c.board, s.sub.maxLog, k, card, from, column);
  }

  // ------------------------------------------------------------ what lingers

  /** The last row to take the card off is found going back from where it is off. */
  lemma {:induction false} LastRowTakesOff(t: Tables, log: seq<Row>, from: nat, to: nat, board: nat, card: nat) returns (k: nat)
    requires from <= to <= |log| && Home(t, log, from, card) == Some(board) && Home(t, log, to, card) != Some(board)
    ensures from <= k < to && TakesOff(t, log, k, board, card)
    ensures forall v :: k < v <= to ==> Home(t, log, v, card) != Some(board)
  {
    if Home(t, log, to - 1, card) == Some(board) {
      k := to - 1;
    } else {
      k := LastRowTakesOff(t, log, from, to - 1, board, card);
    }
  }

  /** A card that was shown was on the board when its column was listed. */
  lemma ListedAtHome(t: Tables, log: seq<Row>, views: seq<nat>, read: Reads, board: nat, since: nat, e: Entry)
    requires Sound(t, log) && Completed(t, log, views, read, board) && InOrder(since, views) && Fetched(read, views, e)
    ensures ColumnRead(read, views, e.column) && OnBoard(t, log, views[read.lists[e.column]], board, e.card, e.column)
  {
    assert Lists(t, log, views, read, e);
    assert Home(t, log, views[read.lists[e.column]], e.card).Some?;
    assert BoardOf(t, log, views[0], e.column) == Some(board);
  }

  /** A card that was shown and has left was taken off by some row since the read. */
  lemma SomeRowSince(t: Tables, log: seq<Row>, views: seq<nat>, read: Reads, board: nat, since: nat, card: nat) returns (k: nat)
    requires Sound(t, log) && Completed(t, log, views, read, board) && InOrder(since, views)
    requires ShownAtAll(views, read, card) && Home(t, log, |log|, card) != Some(board)
    ensures since <= k < |log| && TakesOff(t, log, k, board, card)
  {
    var e :| Fetched(read, views, e) && e.card == card;
    ListedAtHome(t, log, views, read, board, since, e);
    k := LastRowTakesOff(t, log, views[read.lists[e.column]], |log|, board, card);
  }

  /** `v` is the last moment the client has heard of. */
  ghost predicate LastHeard(c: Config, s: State, t: Tables, read: Reads, card: nat, v: nat)
  {
    Heard(c, s, t, read, card, v) && forall w: nat :: Heard(c, s, t, read, card, w) ==> w <= v
  }

  ghost predicate LastHeardAtHome(c: Config, s: State, t: Tables, read: Reads, card: nat, v: nat)
  {
    LastHeard(c, s, t, read, card, v) && Home(t, s.db.log, v, card) == Some(c.board)
  }

  /** The card is not on the board, but was at the last moment the client has heard of. */
  ghost predicate Lingers(c: Config, labels: seq<Label>, t: Tables, read: Reads, card: nat)
    requires Settled(c, labels, t, read)
  {
    var s := Exec(c, labels).value;
    && Home(t, s.db.log, |s.db.log|, card) != Some(c.board)
    && exists v: nat :: LastHeardAtHome(c, s, t, read, card, v)
  }

  /** Row `d`, since the read, took the card off the board for good. */
  ghost predicate LeavesAt(t: Tables, log: seq<Row>, board: nat, since: nat, card: nat, d: nat)
  {
    && since <= d < |log| && Home(t, log, d, card) == Some(board)
    && forall v :: d < v <= |log| ==> Home(t, log, v, card) != Some(board)
  }

  /** Of what is due by row `d`, the last has the card on the board. */
  ghost predicate DueAtHome(t: Tables, log: seq<Row>, views: seq<nat>, read: Reads, board: nat, since: nat, card: nat, d: nat)
  {
    exists v: nat :: v <= d && Due(t, log, views, read, board, since, card, v) && Home(t, log, v, card) == Some(board) &&
      forall w: nat :: w <= d && Due(t, log, views, read, board, since, card, w) ==> w <= v
  }

  ghost predicate NothingDueAfter(t: Tables, log: seq<Row>, views: seq<nat>, read: Reads, board: nat, since: nat, card: nat, d: nat)
  {
    forall w: nat :: Due(t, log, views, read, board, since, card, w) ==> w <= d
  }

  /** The row `d` is the card's departure, the client was due to hear that the card was there, and nothing after. */
  ghost predicate LeavesUntold(t: Tables, log: seq<Row>, views: seq<nat>, read: Reads, board: nat, since: nat, card: nat, d: nat)
  {
    && LeavesAt(t, log, board, since, card, d)
    && DueAtHome(t, log, views, read, board, since, card, d)
    && NothingDueAfter(t, log, views, read, board, since, card, d)
  }

  lemma DepartureFollows(t: Tables, log: seq<Row>, views: seq<nat>, read: Reads, board: nat, since: nat, card: nat, v: nat) returns (d: nat)
    requires InOrder(since, views) && Due(t, log, views, read, board, since, card, v) && NothingDueAfter(t, log, views, read, board, since, card, v)
    requires Home(t, log, v, card) == Some(board) && Home(t, log, |log|, card) != Some(board)
    ensures LeavesUntold(t, log, views, read, board, since, card, d)
  {
    d := LastRowTakesOff(t, log, v, |log|, board, card);
  }

  lemma LastHeardIsDue(c: Config, labels: seq<Label>, t: Tables, read: Reads, card: nat, v: nat)
    requires Settled(c, labels, t, read) && LastHeard(c, Exec(c, labels).value, t, read, card, v)
    ensures var s := Exec(c, labels).value;
            && DueTo(c, s, t, read, card, v)
            && NothingDueAfter(t, s.db.log, s.sub.views, read, c.board, s.sub.maxLog, card, v)
  {
    var s := Exec(c, labels).value;
    HeardIffDue(c, labels, t, read, card, v);
    forall w: nat | Due(t, s.db.log, s.sub.views, read, c.board, s.sub.maxLog, card, w)
      ensures w <= v
    {
      HeardIffDue(c, labels, t, read, card, w);
      assert Heard(c, s, t, read, card, w);
    }
  }

  lemma LingersThenUntold(c: Config, labels: seq<Label>, t: Tables, read: Reads, card: nat) returns (d: nat)
    requires Settled(c, labels, t, read) && Lingers(c, labels, t, read, card)
    ensures var s := Exec(c, labels).value;
            LeavesUntold(t, s.db.log, s.sub.views, read, c.board, s.sub.maxLog, card, d)
  {
    var s := Exec(c, labels).value;
    var v: nat :| LastHeardAtHome(c, s, t, read, card, v);
    SettledReads(c, labels, t, read);
    LastHeardIsDue(c, labels, t, read, card, v);
    d := DepartureFollows(t, s.db.log, s.sub.views, read, c.board, s.sub.maxLog, card, v);
  }

  lemma UntoldThenLingers(c: Config, labels: seq<Label>, t: Tables, read: Reads, card: nat, d: nat)
    requires Settled(c, labels, t, read)
    requires var s := Exec(c, labels).value;
             LeavesUntold(t, s.db.log, s.sub.views, read, c.board, s.sub.maxLog, card, d)
    ensures Lingers(c, labels, t, read, card)
  {
    var s := Exec(c, labels).value;
    var v: nat :| v <= d && DueTo(c, s, t, read, card, v) && Home(t, s.db.log, v, card) == Some(c.board) &&
      forall w: nat :: w <= d && DueTo(c, s, t, read, card, w) ==> w <= v;
    HeardIffDue(c, labels, t, read, card, v);
    forall w: nat | Heard(c, s, t, read, card, w)
      ensures w <= v
    {
      HeardIffDue(c, labels, t, read, card, w);
    }
    assert LastHeardAtHome(c, s, t, read, card, v);
  }

  /**
   The exact condition, run by run and card by card: a card lingers if and only if some row
   since the read took it off the board for good, what the client was due to hear last
   by then, from a fetch or a row routed to the board, had the card there, and
   neither that row nor any later one that concerns the card is routed to the board, nor any
   fetch of it later.
   */
  lemma LingersIff(c: Config, labels: seq<Label>, t: Tables, read: Reads, card: nat)
    requires Settled(c, labels, t, read)
    ensures var s := Exec(c, labels).value;
            Lingers(c, labels, t, read, card) <==>
            exists d: nat :: LeavesUntold(t, s.db.log, s.sub.views, read, c.board, s.sub.maxLog, card, d)
  {
    var s := Exec(c, labels).value;
    if Lingers(c, labels, t, read, card) {
      var d := LingersThenUntold(c, labels, t, read, card);
    }
    if d: nat :| LeavesUntold(t, s.db.log, s.sub.views, read, c.board, s.sub.maxLog, card, d) {
      UntoldThenLingers(c, labels, t, read, card, d);
    }
  }

  /** So if every row since the read that takes a card or a column from a board is routed to it, no card lingers. */
  lemma NoneLinger(c: Config, labels: seq<Label>, t: Tables, read: Reads, card: nat)
    requires Settled(c, labels, t, read)
    requires var s := Exec(c, labels).value;
             forall k :: s.sub.maxLog <= k < |s.db.log| ==> DepartureIsHome(t, s.db.log, k)
    ensures !Lingers(c, labels, t, read, card)
  {
    var s := Exec(c, labels).value;
    if Lingers(c, labels, t, read, card) {
      var d := LingersThenUntold(c, labels, t, read, card);
      UntoldIsStray(t, s.db.log, s.sub.views, read, c.board, s.sub.maxLog, card, d);
    }
  }

  lemma UntoldIsStray(t: Tables, log: seq<Row>, views: seq<nat>, read: Reads, board: nat, since: nat, card: nat, d: nat)
    requires LeavesUntold(t, log, views, read, board, since, card, d)
    ensures d < |log| && !RoutedTo(log[d], board) && !DepartureIsHome(t, log, d)
  {
    DepartsFrom(t, log, d, board, card);
    assert !Due(t, log, views, read, board, since, card, d + 1);
  }

  /** And every card shown that has left was taken off by a row that was emitted. */
  lemma ShownOrRemoved(c: Config, labels: seq<Label>, t: Tables, read: Reads, card: nat)
    requires Settled(c, labels, t, read)
    requires var s := Exec(c, labels).value;
             && (forall k :: s.sub.maxLog <= k < |s.db.log| ==> DepartureIsHome(t, s.db.log, k))
             && ShownAtAll(s.sub.views, read, card) && Home(t, s.db.log, |s.db.log|, card) != Some(c.board)
    ensures var s := Exec(c, labels).value;
            exists k :: s.sub.maxLog <= k < |s.db.log| && TakesOff(t, s.db.log, k, c.board, card) && RowEmitted(c, s, k)
  {
    SettledReads(c, labels, t, read);
    var s := Exec(c, labels).value;
    var k := SomeRowSince(t, s.db.log, s.sub.views, read, c.board, s.sub.maxLog, card);
    assert DepartureIsHome(t, s.db.log, k);
    DepartsFrom(t, s.db.log, k, c.board, card);
    EmittedIffRouted(c, labels, t, read, k);
  }

  lemma DepartsFrom(t: Tables, log: seq<Row>, k: nat, board: nat, card: nat)
    requires k < |log| && TakesOff(t, log, k, board, card)
    ensures BoardLeft(t, log, k) == Some(board)
  {
  }

  /** Some statement that fetched the card does not see row `k`. */
  ghost predicate FetchedBefore(views: seq<nat>, read: Reads, card: nat, k: nat)
  {
    exists e :: Fetched(read, views, e) && e.card == card && views[read.fetches[e]] <= k
  }

  /** The statement that listed the column does not see row `k`. */
  predicate ListedBefore(views: seq<nat>, read: Reads, column: nat, k: nat)
  {
    ColumnRead(read, views, column) && views[read.lists[column]] <= k
  }

  /** If one row alone is about a card since the read and takes it off, the card is listed once at most, by its column. */
  lemma ListedByItsColumn(t: Tables, log: seq<Row>, views: seq<nat>, read: Reads, board: nat, since: nat, k: nat, column: nat, e: Entry)
    requires Sound(t, log) && Completed(t, log, views, read, board) && InOrder(since, views) && OnlyRow(log, since, k, e.card)
    requires OnBoard(t, log, k, board, e.card, column) && Home(t, log, k + 1, e.card) != Some(board) && Fetched(read, views, e)
    ensures e.column == column && ListedBefore(views, read, column, k)
  {
    ListedAtHome(t, log, views, read, board, since, e);
    var v := views[read.lists[e.column]];
    if v <= k {
      CardStood(t, log, v, k, e.card, column);
    } else {
      StaysElsewhere(t, log, k + 1, v, e.card, board);
    }
  }

  /** Before that row nothing but a fetch tells of the card, after it nothing but a fetch or the row. */
  lemma OnlyRowIsDue(t: Tables, log: seq<Row>, views: seq<nat>, read: Reads, board: nat, since: nat, k: nat, card: nat, column: nat, v: nat)
    requires Sound(t, log) && OnlyRow(log, since, k, card) && Due(t, log, views, read, board, since, card, v)
    requires OnBoard(t, log, k, board, card, column) && Home(t, log, k + 1, card) != Some(board)
    ensures FetchedAt(views, read, card, v) || (v == k + 1 && RoutedTo(log[k], board))
  {
    if !FetchedAt(views, read, card, v) && v != k + 1 {
      if v <= k {
        StoodOnBoard(t, log, v, k, card, column, board);
      } else {
        StaysElsewhere(t, log, k + 1, v - 1, card, board);
      }
    }
  }

  lemma LeavesAtOnlyRow(t: Tables, log: seq<Row>, board: nat, since: nat, k: nat, card: nat, column: nat)
    requires Sound(t, log) && OnlyRow(log, since, k, card)
    requires OnBoard(t, log, k, board, card, column) && Home(t, log, k + 1, card) != Some(board)
    ensures LeavesAt(t, log, board, since, card, k)
  {
    forall v | k < v <= |log|
      ensures Home(t, log, v, card) != Some(board)
    {
      StaysElsewhere(t, log, k + 1, v, card, board);
    }
  }

  lemma FetchedBeforeIsUntold(t: Tables, log: seq<Row>, views: seq<nat>, read: Reads, board: nat, since: nat, k: nat, card: nat, column: nat)
    requires Sound(t, log) && Completed(t, log, views, read, board) && InOrder(since, views) && OnlyRow(log, since, k, card)
    requires OnBoard(t, log, k, board, card, column) && Home(t, log, k + 1, card) != Some(board)
    requires !RoutedTo(log[k], board) && FetchedBefore(views, read, card, k)
    ensures LeavesUntold(t, log, views, read, board, since, card, k)
  {
    var e :| Fetched(read, views, e) && e.card == card && views[read.fetches[e]] <= k;
    var v := views[read.fetches[e]];
    ListedByItsColumn(t, log, views, read, board, since, k, column, e);
    assert FetchedAt(views, read, card, v);
    forall w: nat | Due(t, log, views, read, board, since, card, w)
      ensures w == v
    {
      OnlyRowIsDue(t, log, views, read, board, since, k, card, column, w);
      var e' :| Fetched(read, views, e') && e'.card == card && views[read.fetches[e']] == w;
      ListedByItsColumn(t, log, views, read, board, since, k, column, e');
      assert e' == e;
    }
    StoodOnBoard(t, log, v, k, card, column, board);
    LeavesAtOnlyRow(t, log, board, since, k, card, column);
    assert Due(t, log, views, read, board, since, card, v);
  }

  lemma UntoldIsFetchedBefore(t: Tables, log: seq<Row>, views: seq<nat>, read: Reads, board: nat, since: nat, k: nat, card: nat, column: nat, d: nat)
    requires Sound(t, log) && OnlyRow(log, since, k, card)
    requires OnBoard(t, log, k, board, card, column) && Home(t, log, k + 1, card) != Some(board)
    requires LeavesUntold(t, log, views, read, board, since, card, d)
    ensures !RoutedTo(log[k], board) && FetchedBefore(views, read, card, k)
  {
    LeavesAtOnlyRow(t, log, board, since, k, card, column);
    assert d == k;
    assert !Due(t, log, views, read, board, since, card, k + 1);
    var v: nat :| v <= d && Due(t, log, views, read, board, since, card, v);
    OnlyRowIsDue(t, log, views, read, board, since, k, card, column, v);
  }

  /**
   A card taken off the board by the one row about it since the read, a deletion or a
   move away, lingers if and only if that row is not routed to the board and the
   card was fetched before.
   */
  lemma LeftOnceLingersIff(c: Config, labels: seq<Label>, t: Tables, read: Reads, k: nat, card: nat, column: nat)
    requires Settled(c, labels, t, read)
    requires var s := Exec(c, labels).value;
             && OnlyRow(s.db.log, s.sub.maxLog, k, card)
             && OnBoard(t, s.db.log, k, c.board, card, column) && Home(t, s.db.log, k + 1, card) != Some(c.board)
    ensures var s := Exec(c, labels).value;
            Lingers(c, labels, t, read, card) <==> !RoutedTo(s.db.log[k], c.board) && FetchedBefore(s.sub.views, read, card, k)
  {
    SettledReads(c, labels, t, read);
    var s := Exec(c, labels).value;
    if Lingers(c, labels, t, read, card) {
      var d := LingersThenUntold(c, labels, t, read, card);
      UntoldIsFetchedBefore(t, s.db.log, s.sub.views, read, c.board, s.sub.maxLog, k, card, column, d);
    }
    if !RoutedTo(s.db.log[k], c.board) && FetchedBefore(s.sub.views, read, card, k) {
      FetchedBeforeIsUntold(t, s.db.log, s.sub.views, read, c.board, s.sub.maxLog, k, card, column);
      UntoldThenLingers(c, labels, t, read, card, k);
    }
  }

  /** The one row of a deletion, routed to the board read before the transaction. */
  function DeleteRow(id: EventId, tenant: nat, named: nat, card: nat): Row
  {
    Row(id, tenant, None, Some(named), None, CardGone(card))
  }

  /** A card deleted by the one row about it since the read is fetched before exactly when its column is listed before. */
  lemma DeletedIsFetchedBefore(t: Tables, log: seq<Row>, views: seq<nat>, read: Reads, board: nat, since: nat, k: nat, card: nat, column: nat)
    requires Sound(t, log) && Completed(t, log, views, read, board) && InOrder(since, views) && OnlyRow(log, since, k, card)
    requires OnBoard(t, log, k, board, card, column) && log[k].change == CardGone(card)
    ensures FetchedBefore(views, read, card, k) <==> ListedBefore(views, read, column, k)
  {
    if FetchedBefore(views, read, card, k) {
      var e :| Fetched(read, views, e) && e.card == card && views[read.fetches[e]] <= k;
      ListedByItsColumn(t, log, views, read, board, since, k, column, e);
    }
    if ListedBefore(views, read, column, k) {
      var e := Entry(column, card);
      CardStood(t, log, views[read.lists[column]], k, card, column);
      assert Lists(t, log, views, read, e);
      assert Fetches(t, log, views, read, e);
      var v := views[read.fetches[e]];
      if v > k {
        CardStood(t, log, k + 1, v, card, Placed(t, log, v, card).value);
      }
    }
  }

  /** For a deletion: if and only if delete_card read the card on another board, and the column was listed before. */
  lemma DeletedOnceLingersIff(
    c: Config, labels: seq<Label>, t: Tables, read: Reads, k: nat, id: EventId, tenant: nat, named: nat, card: nat, column: nat)
    requires Settled(c, labels, t, read)
    requires var s := Exec(c, labels).value;
             && OnlyRow(s.db.log, s.sub.maxLog, k, card) && s.db.log[k] == DeleteRow(id, tenant, named, card)
             && OnBoard(t, s.db.log, k, c.board, card, column)
    ensures Lingers(c, labels, t, read, card) <==>
            named != c.board && ListedBefore(Exec(c, labels).value.sub.views, read, column, k)
  {
    SettledReads(c, labels, t, read);
    var s := Exec(c, labels).value;
    LeftOnceLingersIff(c, labels, t, read, k, card, column);
    DeletedIsFetchedBefore(t, s.db.log, s.sub.views, read, c.board, s.sub.maxLog, k, card, column);
  }
}
