/**
 `drain_once` as the loop it is.  The dispatcher's pass over one batch is proved
 to compute `AfterRows`; `AfterRows` is shown to be a run of `Spine`, and bounded
 progress is proved about it.
 */
module Drain {
  import opened Common
  import opened Spine
  import opened SpineInvariant
  import opened OutboxSafety

  /** What the environment lets happen to one routable row of a pass. */
  datatype Outcome = PublishFails | AckFails(stored: bool) | UpdateFails | Succeeds

  /** The table and the stream, as one dispatcher sees them while nobody else acts. */
  datatype World = World(db: Db, broker: Broker)

  function AfterRow(w: World, k: nat, o: Outcome): World
  {
    if k >= |w.db.log| || Route(w.db.log[k]).None? then w
    else
      var p := Publish(0, k, true);
      match o
      case PublishFails => w
      case AckFails(stored) => if stored then World(w.db, AfterStore(w.broker, p)) else w
      case UpdateFails => World(w.db, AfterStore(w.broker, p))
      case Succeeds => World(AfterMark(w.db, k, StoreSeq(w.broker, p)), AfterStore(w.broker, p))
  }

  predicate Counts(w: World, k: nat, o: Outcome)
  {
    k < |w.db.log| && Route(w.db.log[k]).Some? && o == Succeeds
  }

  /** The world after the first `n` rows of a batch. */
  function AfterRows(w: World, batch: seq<nat>, oracle: nat -> Outcome, n: nat): World
    requires n <= |batch|
  {
    if n == 0 then w else AfterRow(AfterRows(w, batch, oracle, n - 1), batch[n - 1], oracle(n - 1))
  }

  function Dispatched(w: World, batch: seq<nat>, oracle: nat -> Outcome, n: nat): nat
    requires n <= |batch|
  {
    if n == 0 then 0
    else Dispatched(w, batch, oracle, n - 1) + if Counts(w, batch[n - 1], oracle(n - 1)) then 1 else 0
  }

  /** Row `i` of the batch names an aggregated board, a board or a project, and its update succeeds. */
  predicate Goes(w: World, batch: seq<nat>, oracle: nat -> Outcome, i: nat)
  {
    && i < |batch| && batch[i] < |w.db.log| && oracle(i) == Succeeds
    && (w.db.log[batch[i]].aggregated.Some? || w.db.log[batch[i]].board.Some? || w.db.log[batch[i]].project.Some?)
  }

  function Going(w: World, batch: seq<nat>, oracle: nat -> Outcome, n: nat): set<nat>
  {
    set i: nat | i < n && Goes(w, batch, oracle, i)
  }

  lemma GoingSnoc(w: World, batch: seq<nat>, oracle: nat -> Outcome, n: nat)
    ensures Going(w, batch, oracle, n + 1) ==
            if Goes(w, batch, oracle, n) then Going(w, batch, oracle, n) + {n} else Going(w, batch, oracle, n)
    ensures n !in Going(w, batch, oracle, n)
  {
  }

  /** A pass counts exactly those rows. */
  lemma {:induction false} DispatchedAre(w: World, batch: seq<nat>, oracle: nat -> Outcome, n: nat)
    requires n <= |batch|
    ensures Dispatched(w, batch, oracle, n) == |Going(w, batch, oracle, n)|
  {
    if n > 0 {
      DispatchedAre(w, batch, oracle, n - 1);
      RouteByColumnsIff(w, batch, oracle, n - 1);
      GoingSnoc(w, batch, oracle, n - 1);
    }
  }

  lemma RouteByColumnsIff(w: World, batch: seq<nat>, oracle: nat -> Outcome, i: nat)
    requires i < |batch|
    ensures Counts(w, batch[i], oracle(i)) <==> Goes(w, batch, oracle, i)
  {
  }

  /** A batch, row by row: committed, unmarked and not removed, in id order, and whatever it leaves out comes later. */
  lemma BatchIs(db: Db, limit: nat, batch: seq<nat>)
    requires IsBatch(db, limit, batch)
    ensures |batch| <= limit
    ensures forall i :: 0 <= i < |batch| ==> batch[i] < |db.log| && batch[i] !in db.marks && batch[i] !in db.gone
    ensures forall i, j :: 0 <= i < j < |batch| ==> db.log[batch[i]].id < db.log[batch[j]].id
    ensures forall k: nat :: k < |db.log| && k !in db.marks && k !in db.gone && k !in batch ==>
              |batch| == limit && forall i :: 0 <= i < |batch| ==> db.log[batch[i]].id < db.log[k].id
  {
    assert forall i :: 0 <= i < |batch| ==> Undispatched(db, batch[i]);
    forall k: nat | k < |db.log| && k !in db.marks && k !in db.gone && k !in batch
      ensures |batch| == limit && forall i :: 0 <= i < |batch| ==> db.log[batch[i]].id < db.log[k].id
    {
      assert Undispatched(db, k);
    }
  }

  lemma {:induction false} RowsKeepLog(w: World, batch: seq<nat>, oracle: nat -> Outcome, n: nat)
    requires n <= |batch|
    ensures AfterRows(w, batch, oracle, n).db.log == w.db.log
    ensures AfterRows(w, batch, oracle, n).db.gone == w.db.gone
  {
    if n > 0 {
      RowsKeepLog(w, batch, oracle, n - 1);
    }
  }

  class OutboxDispatcher {
    var db: Db
    var broker: Broker
    const batchSize: nat

    constructor (db: Db, broker: Broker, batchSize: nat)
      ensures this.db == db && this.broker == broker && this.batchSize == batchSize
    {
      this.db, this.broker, this.batchSize := db, broker, batchSize;
    }

    /** The undispatched row with the least id that is not in `batch`, if any. */
    method NextUndispatched(batch: seq<nat>) returns (best: Option<nat>)
      ensures best.Some? ==> Undispatched(db, best.value) && best.value !in batch
      ensures forall k: nat :: Undispatched(db, k) && k !in batch ==>
                best.Some? && db.log[best.value].id <= db.log[k].id
    {
      best := None;
      for k := 0 to |db.log|
        invariant best.Some? ==> Undispatched(db, best.value) && best.value !in batch
        invariant forall j: nat :: j < k && Undispatched(db, j) && j !in batch ==>
                    best.Some? && db.log[best.value].id <= db.log[j].id
      {
        if k !in db.marks && k !in db.gone && k !in batch {
          if best.None? || db.log[k].id < db.log[best.value].id {
            best := Some(k);
          }
        }
      }
    }

    /** The SELECT: the first `batchSize` undispatched rows by id. */
    method SelectBatch() returns (batch: seq<nat>)
      requires UniqueIds(db.log)
      ensures IsBatch(db, batchSize, batch)
    {
      batch := [];
      while |batch| < batchSize
        invariant |batch| <= batchSize
        invariant forall i :: 0 <= i < |batch| ==> Undispatched(db, batch[i])
        invariant forall i, j :: 0 <= i < j < |batch| ==> db.log[batch[i]].id < db.log[batch[j]].id
        invariant forall k: nat, i :: Undispatched(db, k) && k !in batch && 0 <= i < |batch| ==>
                    db.log[batch[i]].id < db.log[k].id
      {
        var next := NextUndispatched(batch);
        if next.None? {
          return;
        }
        batch := batch + [next.value];
      }
    }

    /** Publish, await the ack, mark: the steps of one row, cut short at the first failure. */
    method DispatchRow(k: nat, outcome: Outcome) returns (marked: bool)
      requires k < |db.log|
      modifies this
      ensures World(db, broker) == AfterRow(old(World(db, broker)), k, outcome)
      ensures marked <==> Counts(old(World(db, broker)), k, outcome)
      ensures db.log == old(db.log) && db.gone == old(db.gone)
      ensures marked <==> outcome == Succeeds && (db.log[k].aggregated.Some? || db.log[k].board.Some? || db.log[k].project.Some?)
      ensures db.marks == if !marked || k in db.gone then old(db.marks)
                          else old(db.marks)[k := if k in old(broker.window) then old(broker.window)[k] else |old(broker.stream)| + 1]
      ensures broker.stream == if (db.log[k].aggregated.Some? || db.log[k].board.Some? || db.log[k].project.Some?) &&
                                  outcome != PublishFails && outcome != AckFails(false) && k !in old(broker.window)
                               then old(broker.stream) + [k] else old(broker.stream)
    {
      var subject := Route(db.log[k]);
      if subject.None? || outcome == PublishFails || outcome == AckFails(false) {
        return false;
      }
      var natsSeq := StoreSeq(broker, Publish(0, k, true));
      broker := AfterStore(broker, Publish(0, k, true));
      if outcome != Succeeds {
        return false;
      }
      db := AfterMark(db, k, natsSeq);
      return true;
    }

    /** The row loop of a pass. */
    method DispatchRows(rows: seq<nat>, oracle: nat -> Outcome) returns (dispatched: nat)
      requires forall i :: 0 <= i < |rows| ==> rows[i] < |db.log|
      modifies this
      ensures World(db, broker) == AfterRows(old(World(db, broker)), rows, oracle, |rows|)
      ensures dispatched == Dispatched(old(World(db, broker)), rows, oracle, |rows|)
    {
      dispatched := 0;
      ghost var was := World(db, broker);
      for i := 0 to |rows|
        invariant World(db, broker) == AfterRows(was, rows, oracle, i)
        invariant dispatched == Dispatched(was, rows, oracle, i)
      {
        RowsKeepLog(was, rows, oracle, i);
        var marked := DispatchRow(rows[i], oracle(i));
        if marked {
          dispatched := dispatched + 1;
        }
      }
    }

    /** One drain pass; `oracle` decides what becomes of each publish, ack and update. */
    method DrainOnce(oracle: nat -> Outcome) returns (dispatched: nat, ghost batch: seq<nat>)
      requires UniqueIds(db.log)
      modifies this
      ensures IsBatch(old(db), batchSize, batch)
      ensures World(db, broker) == AfterRows(old(World(db, broker)), batch, oracle, |batch|)
      ensures dispatched == Dispatched(old(World(db, broker)), batch, oracle, |batch|)
    {
      var rows := SelectBatch();
      assert forall i :: 0 <= i < |rows| ==> Undispatched(db, rows[i]);
      batch := rows;
      dispatched := DispatchRows(rows, oracle);
    }
  }

  // ------------------------------------------------------------ a pass is a run of the spine

  /** One row of dispatcher 0's pass, as steps of the transition system. */
  lemma RowIsARun(c: Config, labels: seq<Label>, s: State, o: Outcome) returns (labels': seq<Label>, s': State)
    requires Exec(c, labels) == Some(s) && NoRedelivery(labels)
    requires AtStage(s, 0, ToPublish) && Current(s, 0) < |s.db.log|
    ensures Exec(c, labels') == Some(s') && NoRedelivery(labels')
    ensures World(s'.db, s'.broker) == AfterRow(World(s.db, s.broker), Current(s, 0), o)
    ensures s'.pcs == s.pcs[0 := NextRow(s.pcs[0])] && s'.sub == s.sub && s'.cursor == s.cursor
  {
    var k := Current(s, 0);
    if Route(s.db.log[k]).None? {
      labels', s' := Extend(c, labels, s, Dispatch(0, SkipRow));
    } else if o == PublishFails {
      labels', s' := Extend(c, labels, s, Dispatch(0, PublishFail));
    } else {
      var s1;
      labels', s1 := Extend(c, labels, s, Dispatch(0, Send(true)));
      labels', s' := SentRowIsARun(c, labels', s1, o);
      assert s'.pcs == s.pcs[0 := NextRow(s.pcs[0])];
    }
  }

  lemma SentRowIsARun(c: Config, labels: seq<Label>, s: State, o: Outcome) returns (labels': seq<Label>, s': State)
    requires Exec(c, labels) == Some(s) && NoRedelivery(labels) && o != PublishFails
    requires AtStage(s, 0, AwaitingAck) && Current(s, 0) < |s.db.log| && Route(s.db.log[Current(s, 0)]).Some?
    requires Publish(0, Current(s, 0), true) in s.inflight
    ensures Exec(c, labels') == Some(s') && NoRedelivery(labels')
    ensures World(s'.db, s'.broker) == AfterRow(World(s.db, s.broker), Current(s, 0), o)
    ensures s'.pcs == s.pcs[0 := NextRow(s.pcs[0])] && s'.sub == s.sub && s'.cursor == s.cursor
  {
    var p := Publish(0, Current(s, 0), true);
    if o == AckFails(false) {
      labels', s' := Extend(c, labels, s, Dispatch(0, GiveUp));
    } else {
      var s1;
      labels', s1 := Extend(c, labels, s, Store(p));
      assert s1.db == s.db && s1.pcs == s.pcs && s1.broker == AfterStore(s.broker, p);
      if o == AckFails(true) {
        labels', s' := Extend(c, labels', s1, Dispatch(0, GiveUp));
      } else {
        labels', s' := AckIsRecorded(c, labels', s1, StoreSeq(s.broker, p), o == Succeeds);
      }
    }
  }

  /**
   Whatever fails along the way, a whole undisturbed `drain_once` is a run of the
   transition system that ends with the same table and stream, so every invariant
   and theorem about `Spine` speaks about the loop.
   */
  lemma {:induction false} PassIsARun(c: Config, labels: seq<Label>, s: State, batch: seq<nat>, oracle: nat -> Outcome, n: nat)
    returns (labels': seq<Label>, s': State)
    requires Exec(c, labels) == Some(s) && NoRedelivery(labels) && 0 < |s.pcs| && s.pcs[0].Idle?
    requires IsBatch(s.db, c.batchSize, batch) && n <= |batch|
    ensures Exec(c, labels') == Some(s') && NoRedelivery(labels')
    ensures World(s'.db, s'.broker) == AfterRows(World(s.db, s.broker), batch, oracle, n)
    ensures s'.pcs == s.pcs[0 := Working(batch, n, ToPublish)] && s'.sub == s.sub && s'.cursor == s.cursor
    decreases n
  {
    if n == 0 {
      labels', s' := Extend(c, labels, s, Dispatch(0, Select(batch)));
    } else {
      var s1;
      labels', s1 := PassIsARun(c, labels, s, batch, oracle, n - 1);
      RowsKeepLog(World(s.db, s.broker), batch, oracle, n - 1);
      assert Undispatched(s.db, batch[n - 1]) && Current(s1, 0) == batch[n - 1];
      labels', s' := RowIsARun(c, labels', s1, oracle(n - 1));
    }
  }

  // ------------------------------------------------------------ bounded progress

  function Routable(db: Db): set<nat>
  {
    set k: nat | k < |db.log| && k !in db.marks && k !in db.gone && Route(db.log[k]).Some?
  }

  function Unroutable(db: Db): set<nat>
  {
    set k: nat | k < |db.log| && k !in db.marks && k !in db.gone && Route(db.log[k]).None?
  }

  /** The rows waiting to be dispatched, and those that wait in vain, by their columns. */
  lemma RoutableByColumns(db: Db, k: nat)
    ensures k in Routable(db) <==>
            && k < |db.log| && k !in db.marks && k !in db.gone
            && (db.log[k].aggregated.Some? || db.log[k].board.Some? || db.log[k].project.Some?)
    ensures k in Unroutable(db) <==>
            && k < |db.log| && k !in db.marks && k !in db.gone
            && db.log[k].aggregated == None && db.log[k].board == None && db.log[k].project == None
  {
  }

  /** Nothing fails. */
  function Flawless(i: nat): Outcome
  {
    Succeeds
  }

  function AfterPass(w: World, batch: seq<nat>): World
  {
    AfterRows(w, batch, Flawless, |batch|)
  }

  /** Without failures the pass marks exactly the routable rows of its batch. */
  lemma {:induction false} PassMarks(w: World, batch: seq<nat>, n: nat)
    requires n <= |batch| && forall i :: 0 <= i < |batch| ==> Undispatched(w.db, batch[i])
    ensures var w' := AfterRows(w, batch, Flawless, n);
            && w'.db.log == w.db.log && w'.db.gone == w.db.gone
            && forall k :: k in w'.db.marks <==> k in w.db.marks || (k in batch[..n] && k < |w.db.log| && Route(w.db.log[k]).Some?)
  {
    RowsKeepLog(w, batch, Flawless, n);
    if n > 0 {
      RowsKeepLog(w, batch, Flawless, n - 1);
      PassMarks(w, batch, n - 1);
      assert batch[..n] == batch[..n - 1] + [batch[n - 1]];
    }
  }

  lemma BatchIsDistinct(db: Db, limit: nat, batch: seq<nat>)
    requires IsBatch(db, limit, batch)
    ensures Distinct(batch)
  {
    forall i, j | 0 <= i < j < |batch|
      ensures batch[i] != batch[j]
    {
      assert db.log[batch[i]].id < db.log[batch[j]].id;
    }
  }

  /** The routable rows a batch takes are all there are, or all its places but the unroutable ones. */
  lemma BatchTakes(db: Db, limit: nat, batch: seq<nat>)
    requires IsBatch(db, limit, batch)
    ensures var taken := Members(batch);
            Routable(db) <= taken || |taken * Routable(db)| >= limit - |Unroutable(db)|
  {
    var taken := Members(batch);
    BatchIsDistinct(db, limit, batch);
    DistinctSize(batch);
    assert taken == taken * Routable(db) + taken * Unroutable(db);
    SubsetSize(taken * Unroutable(db), Unroutable(db));
    if k :| k in Routable(db) && k !in taken {
      assert Undispatched(db, k) && k !in batch;
    }
  }

  lemma PassShrinks(w: World, limit: nat, batch: seq<nat>)
    requires IsBatch(w.db, limit, batch)
    ensures var w' := AfterPass(w, batch);
            && Unroutable(w'.db) == Unroutable(w.db)
            && (Routable(w'.db) == {} || |Routable(w'.db)| <= |Routable(w.db)| - (limit - |Unroutable(w.db)|))
            && Routable(w'.db) <= Routable(w.db)
  {
    PassMarks(w, batch, |batch|);
    assert batch[..|batch|] == batch;
    var taken := Members(batch);
    assert Routable(AfterPass(w, batch).db) == Routable(w.db) - taken * Routable(w.db);
    assert Unroutable(AfterPass(w, batch).db) == Unroutable(w.db);
    BatchTakes(w.db, limit, batch);
  }

  /** The world after consecutive failure-free passes. */
  function AfterPasses(w: World, batches: seq<seq<nat>>): World
  {
    if batches == [] then w else AfterPass(AfterPasses(w, Front(batches)), Last(batches))
  }

  /** Each batch is what the SELECT of its pass returns. */
  ghost predicate ArePasses(w: World, limit: nat, batches: seq<seq<nat>>)
  {
    batches == [] ||
    (ArePasses(w, limit, Front(batches)) && IsBatch(AfterPasses(w, Front(batches)).db, limit, Last(batches)))
  }

  lemma {:induction false} PassesShrink(w: World, limit: nat, batches: seq<seq<nat>>)
    requires ArePasses(w, limit, batches)
    ensures var w' := AfterPasses(w, batches);
            && Unroutable(w'.db) == Unroutable(w.db)
            && (Routable(w'.db) == {} || |Routable(w'.db)| <= |Routable(w.db)| - |batches| * (limit - |Unroutable(w.db)|))
  {
    if batches != [] {
      var mid := AfterPasses(w, Front(batches));
      PassesShrink(w, limit, Front(batches));
      PassShrinks(mid, limit, Last(batches));
      var gain := limit - |Unroutable(w.db)|;
      assert |batches| * gain == (|batches| - 1) * gain + gain;
    }
  }

  /**
   With `r` routable and `u < b` unroutable rows pending, no new rows and no
   failures, `ceil(r / (b - u))` passes of batch size `b` mark every routable row:
   unroutable rows come back in every batch but cannot stop the drain.
   */
  lemma DrainFinishes(w: World, limit: nat, batches: seq<seq<nat>>)
    requires ArePasses(w, limit, batches) && |Unroutable(w.db)| < limit
    requires |batches| * (limit - |Unroutable(w.db)|) >= |Routable(w.db)|
    ensures Routable(AfterPasses(w, batches).db) == {}
  {
    PassesShrink(w, limit, batches);
  }

  // ------------------------------------------------------------ sequences follow ids

  /** Row `k` was marked by the passes since `w`. */
  predicate MarkedSince(w: World, w': World, k: nat)
  {
    k in w'.db.marks && k !in w.db.marks && k < |w.db.log|
  }

  /** Rows `j` and `k` were both marked since `w`, and `j` has the smaller id. */
  predicate MarkedPair(w: World, w': World, j: nat, k: nat)
  {
    MarkedSince(w, w', j) && MarkedSince(w, w', k) && w.db.log[j].id < w.db.log[k].id
  }

  /**
   What the rows marked since `w` got: the sequence the window knew, or a new one, and
   new ones in id order; they lie below the rows `rest` still to come, about which
   the window knows what it knew.
   */
  ghost predicate Assigned(w: World, w': World, rest: set<nat>)
  {
    && w'.db.log == w.db.log && w.db.marks.Keys <= w'.db.marks.Keys && |w.broker.stream| <= |w'.broker.stream|
    && (forall k :: MarkedSince(w, w', k) ==> AssignedTo(w, w', k))
    && (forall j: nat, k: nat :: MarkedPair(w, w', j, k) ==>
          j in w.broker.window || k in w.broker.window || w'.db.marks[j] < w'.db.marks[k])
    && (forall j: nat, k: nat :: MarkedSince(w, w', j) && k in rest ==> k < |w.db.log| && w.db.log[j].id < w.db.log[k].id)
    && (forall k :: k in rest ==> SameWindow(w.broker.window, w'.broker.window, k))
  }

  predicate SameWindow(a: map<nat, nat>, b: map<nat, nat>, k: nat)
  {
    (k in a <==> k in b) && (k in a ==> a[k] == b[k])
  }

  predicate AssignedTo(w: World, w': World, k: nat)
    requires k in w'.db.marks
  {
    if k in w.broker.window then w'.db.marks[k] == w.broker.window[k]
    else |w.broker.stream| < w'.db.marks[k] <= |w'.broker.stream|
  }

  lemma RowGets(w: World, k: nat)
    requires k < |w.db.log| && k !in w.db.gone && Route(w.db.log[k]).Some?
    ensures var w' := AfterRow(w, k, Succeeds);
            && w'.db == w.db.(marks := w.db.marks[k := if k in w.broker.window then w.broker.window[k] else |w.broker.stream| + 1])
            && (if k in w.broker.window then w'.broker == w.broker else |w'.broker.stream| == |w.broker.stream| + 1)
            && forall j :: j != k ==> SameWindow(w.broker.window, w'.broker.window, j)
  {
  }

  /** One more row is marked: it must come before the rest, and then everything stays in order. */
  lemma RowInOrder(w: World, w': World, k: nat, rest: set<nat>)
    requires Assigned(w, w', rest + {k}) && k !in rest && k < |w.db.log|
    requires k !in w'.db.gone && k !in w'.db.marks && k !in w.db.marks && Route(w.db.log[k]).Some?
    requires forall j :: j in rest ==> j < |w.db.log| && w.db.log[k].id < w.db.log[j].id
    ensures Assigned(w, AfterRow(w', k, Succeeds), rest)
  {
    RowGets(w', k);
    MarkInOrder(w, w', AfterRow(w', k, Succeeds), k, rest);
  }

  lemma MarkInOrder(w: World, w': World, w2: World, k: nat, rest: set<nat>)
    requires Assigned(w, w', rest + {k}) && k !in rest && k < |w.db.log| && k !in w'.db.marks && k !in w.db.marks
    requires forall j :: j in rest ==> j < |w.db.log| && w.db.log[k].id < w.db.log[j].id
    requires w2.db == w'.db.(marks := w'.db.marks[k := if k in w'.broker.window then w'.broker.window[k] else |w'.broker.stream| + 1])
    requires if k in w'.broker.window then w2.broker == w'.broker else |w2.broker.stream| == |w'.broker.stream| + 1
    requires forall j :: j != k ==> SameWindow(w'.broker.window, w2.broker.window, j)
    ensures Assigned(w, w2, rest)
  {
    assert k in rest + {k};
    assert SameWindow(w.broker.window, w'.broker.window, k);
    forall x: nat
      ensures MarkedSince(w, w2, x) <==> MarkedSince(w, w', x) || x == k
      ensures MarkedSince(w, w2, x) ==> AssignedTo(w, w2, x)
    {
      assert MarkedSince(w, w', x) ==> AssignedTo(w, w', x);
    }
    forall x | x in rest
      ensures SameWindow(w.broker.window, w2.broker.window, x)
    {
      assert x in rest + {k};
      assert SameWindow(w.broker.window, w'.broker.window, x) && SameWindow(w'.broker.window, w2.broker.window, x);
    }
    forall x: nat, y: nat | MarkedPair(w, w2, x, y)
      ensures x in w.broker.window || y in w.broker.window || w2.db.marks[x] < w2.db.marks[y]
    {
      PairStaysInOrder(w, w', w2, k, rest, x, y);
    }
  }

  lemma PairStaysInOrder(w: World, w': World, w2: World, k: nat, rest: set<nat>, x: nat, y: nat)
    requires Assigned(w, w', rest + {k}) && k < |w.db.log| && k !in w'.db.marks
    requires w2.db == w'.db.(marks := w'.db.marks[k := if k in w'.broker.window then w'.broker.window[k] else |w'.broker.stream| + 1])
    requires MarkedPair(w, w2, x, y)
    ensures x in w.broker.window || y in w.broker.window || w2.db.marks[x] < w2.db.marks[y]
  {
    assert k in rest + {k};
    assert SameWindow(w.broker.window, w'.broker.window, k);
    assert y == k || MarkedSince(w, w', y);
    if x != k {
      assert MarkedSince(w, w', x) && AssignedTo(w, w', x);
      assert y != k ==> MarkedPair(w, w', x, y);
    }
  }

  /** The routable rows of `db` that the first `n` rows of the batch leave over. */
  function LeftOver(db: Db, batch: seq<nat>, n: nat): set<nat>
    requires n <= |batch|
  {
    set k | k in Routable(db) && k !in batch[..n]
  }

  /** Every routable row a batch has not reached yet has a larger id than the row it is at. */
  lemma LeftOverIsLater(db: Db, limit: nat, batch: seq<nat>, n: nat)
    requires IsBatch(db, limit, batch) && 0 < n <= |batch|
    ensures forall j :: j in LeftOver(db, batch, n) ==> db.log[batch[n - 1]].id < db.log[j].id
    ensures LeftOver(db, batch, n) == LeftOver(db, batch, n - 1) - {batch[n - 1]}
    ensures batch[n - 1] !in batch[..n - 1]
  {
    BatchIsDistinct(db, limit, batch);
    assert batch[..n] == batch[..n - 1] + [batch[n - 1]];
    forall j | j in LeftOver(db, batch, n)
      ensures db.log[batch[n - 1]].id < db.log[j].id
    {
      assert Undispatched(db, j);
      if j in batch {
        var i :| 0 <= i < |batch| && batch[i] == j;
        assert forall x :: 0 <= x < n ==> batch[..n][x] == batch[x];
        assert i >= n;
      }
    }
  }

  /** What is left over after `n` rows is what is routable then. */
  lemma LeftOverIsRoutable(w: World, batch: seq<nat>, n: nat)
    requires n <= |batch| && forall i :: 0 <= i < |batch| ==> Undispatched(w.db, batch[i])
    ensures Routable(AfterRows(w, batch, Flawless, n).db) == LeftOver(w.db, batch, n)
  {
    PassMarks(w, batch, n);
  }

  /** One row of a pass, routable or not, keeps the order; `before` and `after` are the rows still to come. */
  lemma StepInOrder(w: World, wm: World, k: nat, before: set<nat>, after: set<nat>)
    requires Assigned(w, wm, before) && after == before - {k} && k < |w.db.log|
    requires forall j :: j in after ==> j < |w.db.log| && w.db.log[k].id < w.db.log[j].id
    requires Route(w.db.log[k]).Some? ==> k in before && k !in wm.db.gone && k !in wm.db.marks
    ensures Assigned(w, AfterRow(wm, k, Succeeds), after)
  {
    if Route(w.db.log[k]).Some? {
      assert after + {k} == before;
      RowInOrder(w, wm, k, after);
    }
  }

  lemma RowIsStillPending(w: World, limit: nat, batch: seq<nat>, n: nat)
    requires IsBatch(w.db, limit, batch) && 0 < n <= |batch|
    ensures var wm, k := AfterRows(w, batch, Flawless, n - 1), batch[n - 1];
            && k < |w.db.log| && wm.db.log == w.db.log && k !in wm.db.gone && k !in wm.db.marks
            && (Route(w.db.log[k]).Some? ==> k in LeftOver(w.db, batch, n - 1))
  {
    LeftOverIsLater(w.db, limit, batch, n);
    BatchRow(w, limit, batch, n - 1);
    PassMarks(w, batch, n - 1);
  }

  lemma BatchRow(w: World, limit: nat, batch: seq<nat>, i: nat)
    requires IsBatch(w.db, limit, batch) && i < |batch|
    ensures Undispatched(w.db, batch[i])
    ensures Route(w.db.log[batch[i]]).Some? && batch[i] !in batch[..i] ==> batch[i] in LeftOver(w.db, batch, i)
  {
  }

  lemma {:induction false} PassInOrder(w: World, w': World, limit: nat, batch: seq<nat>, n: nat)
    requires IsBatch(w'.db, limit, batch) && n <= |batch| && Assigned(w, w', Routable(w'.db))
    ensures Assigned(w, AfterRows(w', batch, Flawless, n), LeftOver(w'.db, batch, n))
  {
    if n == 0 {
      assert LeftOver(w'.db, batch, 0) == Routable(w'.db);
    } else {
      PassInOrder(w, w', limit, batch, n - 1);
      NextInOrder(w, w', limit, batch, n);
    }
  }

  lemma NextInOrder(w: World, w': World, limit: nat, batch: seq<nat>, n: nat)
    requires IsBatch(w'.db, limit, batch) && 0 < n <= |batch| && w.db.log == w'.db.log
    requires Assigned(w, AfterRows(w', batch, Flawless, n - 1), LeftOver(w'.db, batch, n - 1))
    ensures Assigned(w, AfterRows(w', batch, Flawless, n), LeftOver(w'.db, batch, n))
  {
    var wm, before, after := AfterRows(w', batch, Flawless, n - 1), LeftOver(w'.db, batch, n - 1), LeftOver(w'.db, batch, n);
    LeftOverIsLater(w'.db, limit, batch, n);
    RowIsStillPending(w', limit, batch, n);
    assert AfterRows(w', batch, Flawless, n) == AfterRow(wm, batch[n - 1], Succeeds);
    assert forall j :: j in after ==> j < |w.db.log|;
    StepInOrder(w, wm, batch[n - 1], before, after);
  }

  /** What failure-free passes assign to the rows they mark. */
  lemma {:induction false} PassesAssign(w: World, limit: nat, batches: seq<seq<nat>>)
    requires ArePasses(w, limit, batches)
    ensures var w' := AfterPasses(w, batches); Assigned(w, w', Routable(w'.db))
  {
    if batches != [] {
      PassesAssign(w, limit, Front(batches));
      var mid := AfterPasses(w, Front(batches));
      PassInOrder(w, mid, limit, Last(batches), |Last(batches)|);
      LeftOverIsRoutable(mid, Last(batches), |Last(batches)|);
    }
  }

  /** Sequence order is id order among the rows marked since `w`. */
  ghost predicate InIdOrder(w: World, w': World)
  {
    forall j: nat, k: nat :: MarkedPair(w, w', j, k) ==> w'.db.marks[j] < w'.db.marks[k]
  }

  /** Row `k` does not keep an old sequence that is too small for row `j` before it. */
  predicate KeepsPace(window: map<nat, nat>, j: nat, k: nat)
  {
    k in window ==> j in window && window[j] < window[k]
  }

  /**
   Over failure-free passes the sequence numbers assigned follow row-id order if and only if
   every marked row that the duplicate window already knew comes behind known rows
   only, stored in the same order; so always, if the window knew none.
   */
  lemma SequencesFollowIdsIff(w: World, limit: nat, batches: seq<seq<nat>>)
    requires ArePasses(w, limit, batches) && BrokerOk(w.db.log, w.broker)
    ensures var w' := AfterPasses(w, batches);
            InIdOrder(w, w') <==> forall j: nat, k: nat :: MarkedPair(w, w', j, k) ==> KeepsPace(w.broker.window, j, k)
  {
    PassesAssign(w, limit, batches);
    var w' := AfterPasses(w, batches);
    forall j: nat, k: nat | MarkedPair(w, w', j, k)
      ensures w'.db.marks[j] < w'.db.marks[k] <==> KeepsPace(w.broker.window, j, k)
    {
      PairInOrder(w, w', Routable(w'.db), j, k);
    }
  }

  lemma PairInOrder(w: World, w': World, rest: set<nat>, j: nat, k: nat)
    requires Assigned(w, w', rest) && BrokerOk(w.db.log, w.broker) && MarkedPair(w, w', j, k)
    ensures w'.db.marks[j] < w'.db.marks[k] <==> KeepsPace(w.broker.window, j, k)
  {
    assert AssignedTo(w, w', j) && AssignedTo(w, w', k);
  }
}
