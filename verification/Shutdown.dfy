/** The dispatcher's loop: a drain pass before every wait, and one last pass on shutdown. */
module Shutdown {
  import opened Common
  import opened Spine
  import opened Drain
  import opened SpineInvariant
  import opened OutboxSafety

  /** What ends a wait: the signal, a result from the listener, or the poll interval. */
  datatype Wake = Signal | Notification(ok: bool) | PollTick

  /** One turn of the loop: whether the signal is seen before the pass, and what ends the wait after it. */
  datatype Turn = Turn(signalled: bool, wake: Wake)

  /** A listener that is gone delivers nothing. */
  predicate Plausible(listening: bool, turns: seq<Turn>)
  {
    turns != [] ==>
      && (turns[0].wake.Notification? ==> listening)
      && Plausible(ListensAfter(listening, turns[0].wake), turns[1..])
  }

  predicate ListensAfter(listening: bool, wake: Wake)
  {
    listening && wake != Notification(false)
  }

  predicate Stops(turns: seq<Turn>)
  {
    turns != [] && (turns[0].signalled || turns[0].wake.Signal? || Stops(turns[1..]))
  }

  /** Passes made in these turns, the final one included. */
  function PassesIn(turns: seq<Turn>): nat
  {
    if turns == [] then 0
    else if turns[0].signalled then 1
    else if turns[0].wake.Signal? then 2
    else 1 + PassesIn(turns[1..])
  }

  lemma {:induction false} PassesToSignal(turns: seq<Turn>, i: nat)
    requires i < |turns| && (turns[i].signalled || turns[i].wake.Signal?) && QuietBefore(turns, i)
    ensures Stops(turns) && PassesIn(turns) == if turns[i].signalled then i + 1 else i + 2
  {
    if i > 0 {
      var rest := turns[1..];
      assert !turns[0].signalled && !turns[0].wake.Signal?;
      assert forall j :: 0 <= j < i - 1 ==> rest[j] == turns[j + 1];
      PassesToSignal(rest, i - 1);
    }
  }

  lemma {:induction false} PassesWithoutSignal(turns: seq<Turn>)
    requires QuietBefore(turns, |turns|)
    ensures !Stops(turns) && PassesIn(turns) == |turns|
  {
    if turns != [] {
      var rest := turns[1..];
      assert !turns[0].signalled && !turns[0].wake.Signal?;
      assert forall j :: 0 <= j < |rest| ==> rest[j] == turns[j + 1];
      PassesWithoutSignal(rest);
    }
  }

  /** The loop stops exactly when some turn is signalled or woken by the signal: one pass for every turn before the first such turn, and after it one more in the first case and two in the second. */
  lemma WhenItStops(turns: seq<Turn>)
    ensures forall i :: 0 <= i < |turns| && (turns[i].signalled || turns[i].wake.Signal?) && (forall j :: 0 <= j < i ==> !turns[j].signalled && !turns[j].wake.Signal?) ==> Stops(turns) && PassesIn(turns) == if turns[i].signalled then i + 1 else i + 2
    ensures (forall j :: 0 <= j < |turns| ==> !turns[j].signalled && !turns[j].wake.Signal?) ==> !Stops(turns) && PassesIn(turns) == |turns|
  {
    forall i | 0 <= i < |turns| && (turns[i].signalled || turns[i].wake.Signal?) && (forall j :: 0 <= j < i ==> !turns[j].signalled && !turns[j].wake.Signal?)
      ensures Stops(turns) && PassesIn(turns) == if turns[i].signalled then i + 1 else i + 2
    {
      PassesToSignal(turns, i);
    }
    if forall j :: 0 <= j < |turns| ==> !turns[j].signalled && !turns[j].wake.Signal? {
      PassesWithoutSignal(turns);
    }
  }

  /** No signal in the first `n` turns. */
  predicate QuietBefore(turns: seq<Turn>, n: nat)
    requires n <= |turns|
  {
    forall j :: 0 <= j < n ==> !turns[j].signalled && !turns[j].wake.Signal?
  }

  /** What the environment does around pass `i`: the rows others commit before it, whether its SELECT answers, and what becomes of each row. */
  datatype Fate = Fate(arrivals: seq<Row>, selects: bool, rows: nat -> Outcome)

  function Arrive(w: World, rows: seq<Row>): World
  {
    World(AfterWrite(w.db, Commit(rows)), w.broker)
  }

  /** The world after the first `n` passes, whatever befell them. */
  function After(w: World, batches: seq<seq<nat>>, fates: nat -> Fate, n: nat): World
    requires n <= |batches|
  {
    if n == 0 then w
    else AfterRows(Arrive(After(w, batches, fates, n - 1), fates(n - 1).arrivals), batches[n - 1], fates(n - 1).rows, |batches[n - 1]|)
  }

  /** The table pass `i` finds. */
  function Found(w: World, batches: seq<seq<nat>>, fates: nat -> Fate, i: nat): World
    requires i <= |batches|
  {
    Arrive(After(w, batches, fates, i), fates(i).arrivals)
  }

  /** The event rows there are when the first `n` passes are over. */
  function LogAfter(log: seq<Row>, fates: nat -> Fate, n: nat): seq<Row>
  {
    if n == 0 then log else LogAfter(log, fates, n - 1) + fates(n - 1).arrivals
  }

  /** Batch `i` is what its pass's SELECT returns, or empty if that fails. */
  ghost predicate Selected(w: World, limit: nat, batches: seq<seq<nat>>, fates: nat -> Fate, i: nat)
    requires i < |batches|
  {
    if fates(i).selects then IsBatch(Found(w, batches, fates, i).db, limit, batches[i]) else batches[i] == []
  }

  ghost predicate Selections(w: World, limit: nat, batches: seq<seq<nat>>, fates: nat -> Fate)
  {
    forall i :: 0 <= i < |batches| ==> Selected(w, limit, batches, fates, i)
  }

  lemma {:induction false} AfterPrefix(w: World, batches: seq<seq<nat>>, batch: seq<nat>, fates: nat -> Fate, n: nat)
    requires n <= |batches|
    ensures After(w, batches + [batch], fates, n) == After(w, batches, fates, n)
  {
    if n > 0 {
      AfterPrefix(w, batches, batch, fates, n - 1);
    }
  }

  lemma SelectionsSnoc(w: World, limit: nat, batches: seq<seq<nat>>, batch: seq<nat>, fates: nat -> Fate)
    requires Selections(w, limit, batches, fates)
    requires var i := |batches|;
             if fates(i).selects then IsBatch(Found(w, batches, fates, i).db, limit, batch) else batch == []
    ensures Selections(w, limit, batches + [batch], fates)
    ensures After(w, batches + [batch], fates, |batches| + 1) ==
            AfterRows(Found(w, batches, fates, |batches|), batch, fates(|batches|).rows, |batch|)
  {
    var all := batches + [batch];
    forall i | 0 <= i < |all|
      ensures Selected(w, limit, all, fates, i)
    {
      AfterPrefix(w, batches, batch, fates, i);
      if i < |batches| {
        assert Selected(w, limit, batches, fates, i) && all[i] == batches[i];
      }
    }
    AfterPrefix(w, batches, batch, fates, |batches|);
  }

  lemma {:induction false} AfterHasLog(w: World, batches: seq<seq<nat>>, fates: nat -> Fate, n: nat)
    requires n <= |batches|
    ensures After(w, batches, fates, n).db.log == LogAfter(w.db.log, fates, n)
  {
    if n > 0 {
      AfterHasLog(w, batches, fates, n - 1);
      RowsKeepLog(Found(w, batches, fates, n - 1), batches[n - 1], fates(n - 1).rows, |batches[n - 1]|);
    }
  }

  /** No two of those rows share an id. */
  ghost predicate UniqueLog(log: seq<Row>, fates: nat -> Fate, n: nat)
  {
    UniqueIds(LogAfter(log, fates, n))
  }

  lemma {:induction false} EarlierLogs(log: seq<Row>, fates: nat -> Fate, n: nat)
    requires UniqueLog(log, fates, n)
    ensures forall m: nat :: m <= n ==> UniqueLog(log, fates, m)
    decreases n
  {
    if n > 0 {
      var front, all := LogAfter(log, fates, n - 1), LogAfter(log, fates, n);
      assert forall i :: 0 <= i < |front| ==> front[i] == all[i];
      EarlierLogs(log, fates, n - 1);
    }
  }

  /** One pass, recorded, after whatever others commit before it; an error of the SELECT ends it at once. */
  method Pass(d: OutboxDispatcher, ghost w: World, ghost batches: seq<seq<nat>>, fates: nat -> Fate, i: nat, ghost all: nat)
    returns (ghost batches': seq<seq<nat>>)
    requires i < all && UniqueLog(w.db.log, fates, all) && i == |batches| && Selections(w, d.batchSize, batches, fates)
    requires World(d.db, d.broker) == After(w, batches, fates, i)
    modifies d
    ensures |batches'| == i + 1 && Selections(w, d.batchSize, batches', fates)
    ensures World(d.db, d.broker) == After(w, batches', fates, i + 1)
  {
    EarlierLogs(w.db.log, fates, all);
    assert UniqueLog(w.db.log, fates, i + 1);
    AfterHasLog(w, batches, fates, i);
    d.db := AfterWrite(d.db, Commit(fates(i).arrivals));
    ghost var batch: seq<nat> := [];
    if fates(i).selects {
      var n;
      n, batch := d.DrainOnce(fates(i).rows);
    }
    SelectionsSnoc(w, d.batchSize, batches, batch, fates);
    batches' := batches + [batch];
  }

  /** The loop, for as many turns as are observed, whatever befalls its passes and whatever is committed between them. */
  method Spawn(d: OutboxDispatcher, listening: bool, turns: seq<Turn>, fates: nat -> Fate)
    returns (ghost batches: seq<seq<nat>>, passes: nat, stopped: bool, listens: bool)
    requires UniqueLog(d.db.log, fates, PassesIn(turns)) && Plausible(listening, turns)
    modifies d
    ensures passes == |batches| == PassesIn(turns) && stopped == Stops(turns)
    ensures Selections(old(World(d.db, d.broker)), d.batchSize, batches, fates)
    ensures World(d.db, d.broker) == After(old(World(d.db, d.broker)), batches, fates, passes)
    ensures forall i :: 0 <= i < |turns| && (turns[i].signalled || turns[i].wake.Signal?) && (forall j :: 0 <= j < i ==> !turns[j].signalled && !turns[j].wake.Signal?) ==> stopped && |batches| == if turns[i].signalled then i + 1 else i + 2
    ensures (forall j :: 0 <= j < |turns| ==> !turns[j].signalled && !turns[j].wake.Signal?) ==> !stopped && |batches| == |turns|
    ensures listens ==> listening
    ensures !stopped ==> (listens <==> listening && forall j :: 0 <= j < |turns| ==> turns[j].wake != Notification(false))
  {
    ghost var w := World(d.db, d.broker);
    batches, passes, stopped, listens := SpawnLoop(d, w, listening, turns, fates);
    WhenItStops(turns);
  }

  method SpawnLoop(d: OutboxDispatcher, ghost w: World, listening: bool, turns: seq<Turn>, fates: nat -> Fate)
    returns (ghost batches: seq<seq<nat>>, passes: nat, stopped: bool, listens: bool)
    requires w == World(d.db, d.broker) && UniqueLog(d.db.log, fates, PassesIn(turns)) && Plausible(listening, turns)
    modifies d
    ensures passes == |batches| == PassesIn(turns) && stopped == Stops(turns)
    ensures Selections(w, d.batchSize, batches, fates) && World(d.db, d.broker) == After(w, batches, fates, passes)
    ensures listens ==> listening
    ensures !stopped ==> (listens <==> listening && forall j :: 0 <= j < |turns| ==> turns[j].wake != Notification(false))
  {
    ghost var all := PassesIn(turns);
    batches, passes, listens := [], 0, listening;
    for i := 0 to |turns|
      invariant passes == |batches| && Selections(w, d.batchSize, batches, fates)
      invariant World(d.db, d.broker) == After(w, batches, fates, passes)
      invariant passes + PassesIn(turns[i..]) == all && Stops(turns[i..]) == Stops(turns)
      invariant Plausible(listens, turns[i..])
      invariant listens <==> listening && forall j :: 0 <= j < i ==> turns[j].wake != Notification(false)
    {
      assert turns[i..][0] == turns[i] && turns[i..][1..] == turns[i + 1..];
      if turns[i].signalled {
        batches := Pass(d, w, batches, fates, passes, all);
        return batches, passes + 1, true, listens;
      }
      batches := Pass(d, w, batches, fates, passes, all);
      passes := passes + 1;
      match turns[i].wake {
        case Signal =>
          batches := Pass(d, w, batches, fates, passes, all);
          return batches, passes + 1, true, listens;
        case Notification(ok) =>
          if !ok {
            listens := false;
          }
        case PollTick =>
      }
    }
    assert turns[|turns|..] == [];
    stopped := false;
  }

  /** The arrivals of the first `n` passes carry ids that no snapshot envelope has. */
  predicate FreshArrivals(sub: Sub, fates: nat -> Fate, n: nat)
  {
    forall i, j {:trigger fates(i).arrivals[j]} :: 0 <= i < n && 0 <= j < |fates(i).arrivals| ==> fates(i).arrivals[j].id !in sub.replays
  }

  lemma NewId(log: seq<Row>, rows: seq<Row>, j: nat)
    requires UniqueIds(log + rows) && j < |rows|
    ensures forall k :: 0 <= k < |log| ==> log[k].id != rows[j].id
  {
    forall k | 0 <= k < |log|
      ensures log[k].id != rows[j].id
    {
      assert (log + rows)[k] == log[k] && (log + rows)[|log| + j] == rows[j];
    }
  }

  lemma NewIdsDiffer(log: seq<Row>, rows: seq<Row>)
    requires UniqueIds(log + rows)
    ensures forall i, j :: 0 <= i < j < |rows| ==> rows[i].id != rows[j].id
  {
    forall i, j | 0 <= i < j < |rows|
      ensures rows[i].id != rows[j].id
    {
      assert (log + rows)[|log| + i] == rows[i] && (log + rows)[|log| + j] == rows[j];
    }
  }

  /** What arrives before a pass is a step of the transition system. */
  lemma ArrivalIsAStep(c: Config, labels: seq<Label>, s: State, rows: seq<Row>) returns (labels': seq<Label>, s': State)
    requires Exec(c, labels) == Some(s) && NoRedelivery(labels) && UniqueIds(s.db.log + rows)
    requires forall j :: 0 <= j < |rows| ==> rows[j].id !in s.sub.replays
    ensures Exec(c, labels') == Some(s') && NoRedelivery(labels') && s' == s.(db := AfterWrite(s.db, Commit(rows)))
  {
    forall j | 0 <= j < |rows|
      ensures !IdTaken(s, rows[j].id)
    {
      NewId(s.db.log, rows, j);
    }
    NewIdsDiffer(s.db.log, rows);
    labels', s' := Extend(c, labels, s, Write(Commit(rows)));
  }

  /** The loop, with any failures and arrivals, is a run of the transition system, so the safety theorems speak about it. */
  lemma {:induction false} LoopIsARun(c: Config, labels: seq<Label>, s: State, batches: seq<seq<nat>>, fates: nat -> Fate, n: nat)
    returns (labels': seq<Label>, s': State)
    requires Exec(c, labels) == Some(s) && NoRedelivery(labels) && 0 < |s.pcs| && s.pcs[0].Idle?
    requires Selections(World(s.db, s.broker), c.batchSize, batches, fates) && n <= |batches|
    requires UniqueLog(s.db.log, fates, n) && FreshArrivals(s.sub, fates, n)
    ensures Exec(c, labels') == Some(s') && NoRedelivery(labels') && |s'.pcs| == |s.pcs| && s'.pcs[0].Idle? && s'.sub == s.sub
    ensures World(s'.db, s'.broker) == After(World(s.db, s.broker), batches, fates, n)
    decreases n
  {
    labels', s' := labels, s;
    if n > 0 {
      EarlierLogs(s.db.log, fates, n);
      labels', s' := LoopIsARun(c, labels, s, batches, fates, n - 1);
      labels', s' := TurnAsSteps(c, labels', s', World(s.db, s.broker), batches, fates, n);
    }
  }

  lemma TurnAsSteps(c: Config, labels: seq<Label>, s: State, w: World, batches: seq<seq<nat>>, fates: nat -> Fate, n: nat)
    returns (labels': seq<Label>, s': State)
    requires Exec(c, labels) == Some(s) && NoRedelivery(labels) && 0 < |s.pcs| && s.pcs[0].Idle?
    requires 0 < n <= |batches| && World(s.db, s.broker) == After(w, batches, fates, n - 1)
    requires Selections(w, c.batchSize, batches, fates) && UniqueLog(w.db.log, fates, n) && FreshArrivals(s.sub, fates, n)
    ensures Exec(c, labels') == Some(s') && NoRedelivery(labels') && |s'.pcs| == |s.pcs| && s'.pcs[0].Idle? && s'.sub == s.sub
    ensures World(s'.db, s'.broker) == After(w, batches, fates, n)
  {
    AfterHasLog(w, batches, fates, n - 1);
    assert Selected(w, c.batchSize, batches, fates, n - 1);
    labels', s' := ArrivalIsAStep(c, labels, s, fates(n - 1).arrivals);
    assert World(s'.db, s'.broker) == Found(w, batches, fates, n - 1);
    labels', s' := PassAsSteps(c, labels', s', batches[n - 1], fates(n - 1));
  }

  lemma PassAsSteps(c: Config, labels: seq<Label>, s: State, batch: seq<nat>, fate: Fate) returns (labels': seq<Label>, s': State)
    requires Exec(c, labels) == Some(s) && NoRedelivery(labels) && 0 < |s.pcs| && s.pcs[0].Idle?
    requires if fate.selects then IsBatch(s.db, c.batchSize, batch) else batch == []
    ensures Exec(c, labels') == Some(s') && NoRedelivery(labels') && |s'.pcs| == |s.pcs| && s'.pcs[0].Idle? && s'.sub == s.sub
    ensures World(s'.db, s'.broker) == AfterRows(World(s.db, s.broker), batch, fate.rows, |batch|)
  {
    labels', s' := labels, s;
    if fate.selects {
      labels', s' := PassIsARun(c, labels, s, batch, fate.rows, |batch|);
      labels', s' := Extend(c, labels', s', Dispatch(0, Finish));
    }
  }

  /** Where nothing fails and nothing arrives, the passes are those of the progress bound. */
  lemma {:induction false} FlawlessPasses(w: World, limit: nat, batches: seq<seq<nat>>, fates: nat -> Fate, n: nat)
    requires n <= |batches| && Selections(w, limit, batches, fates)
    requires forall i :: fates(i) == Fate([], true, Flawless)
    ensures ArePasses(w, limit, batches[..n]) && AfterPasses(w, batches[..n]) == After(w, batches, fates, n)
  {
    if n > 0 {
      FlawlessPasses(w, limit, batches, fates, n - 1);
      var before := After(w, batches, fates, n - 1);
      assert fates(n - 1) == Fate([], true, Flawless) && Selected(w, limit, batches, fates, n - 1);
      assert Found(w, batches, fates, n - 1) == before;
      assert IsBatch(before.db, limit, batches[n - 1]);
      assert Front(batches[..n]) == batches[..n - 1] && Last(batches[..n]) == batches[n - 1];
    }
  }

  /** So enough turns of any kind mark every routable row. */
  lemma FlawlessLoop(w: World, limit: nat, batches: seq<seq<nat>>, fates: nat -> Fate, n: nat)
    requires n <= |batches| && Selections(w, limit, batches, fates)
    requires forall i :: fates(i) == Fate([], true, Flawless)
    requires |Unroutable(w.db)| < limit && n * (limit - |Unroutable(w.db)|) >= |Routable(w.db)|
    ensures Routable(After(w, batches, fates, n).db) == {}
  {
    FlawlessPasses(w, limit, batches, fates, n);
    assert |batches[..n]| == n;
    DrainFinishes(w, limit, batches[..n]);
  }

  // ------------------------------------------------------------ the final pass

  function Waiting(db: Db): set<nat>
  {
    set k: nat | k < |db.log| && k !in db.marks && k !in db.gone
  }

  /** The undispatched rows with smaller ids than row `k`. */
  function Earlier(db: Db, k: nat): set<nat>
    requires k < |db.log|
  {
    set j | j in Waiting(db) && db.log[j].id < db.log[k].id
  }

  /** A waiting row is in the batch exactly when fewer than a batch of rows are ahead of it. */
  lemma InBatchIff(db: Db, limit: nat, batch: seq<nat>, k: nat)
    requires IsBatch(db, limit, batch) && k in Waiting(db)
    ensures k in batch <==> |Earlier(db, k)| < limit
  {
    BatchIsDistinct(db, limit, batch);
    assert Undispatched(db, k);
    if k in batch {
      var i :| 0 <= i < |batch| && batch[i] == k;
      EarlierInBatch(db, limit, batch, i);
    } else {
      BatchIsEarlier(db, limit, batch, k);
    }
  }

  lemma EarlierInBatch(db: Db, limit: nat, batch: seq<nat>, i: nat)
    requires IsBatch(db, limit, batch) && i < |batch|
    ensures batch[i] < |db.log| && |Earlier(db, batch[i])| == i
  {
    var front := Members(batch[..i]);
    BatchIsDistinct(db, limit, batch);
    DistinctSize(batch[..i]);
    assert Undispatched(db, batch[i]);
    forall j
      ensures j in Earlier(db, batch[i]) <==> j in front
    {
      if j in Earlier(db, batch[i]) {
        assert Undispatched(db, j);
        assert j in batch;
        var x :| 0 <= x < |batch| && batch[x] == j;
        assert batch[..i][x] == j;
      }
      if j in front {
        var x :| 0 <= x < i && batch[..i][x] == j;
        assert Undispatched(db, batch[x]);
      }
    }
    assert Earlier(db, batch[i]) == front;
  }

  lemma BatchIsEarlier(db: Db, limit: nat, batch: seq<nat>, k: nat)
    requires IsBatch(db, limit, batch) && k in Waiting(db) && k !in batch
    ensures |Earlier(db, k)| >= limit
  {
    var all := Members(batch);
    BatchIsDistinct(db, limit, batch);
    DistinctSize(batch);
    assert Undispatched(db, k);
    forall j | j in batch
      ensures j in Earlier(db, k)
    {
      var x :| 0 <= x < |batch| && batch[x] == j;
      assert Undispatched(db, batch[x]);
    }
    SubsetSize(all, Earlier(db, k));
  }

  /** The final pass flushes everything routable exactly when no routable row has a whole batch of rows ahead of it. */
  lemma FinalDrainFlushesIff(w: World, limit: nat, batch: seq<nat>)
    requires IsBatch(w.db, limit, batch)
    ensures Routable(AfterPass(w, batch).db) == {} <==> forall k :: k in Routable(w.db) ==> |Earlier(w.db, k)| < limit
  {
    assert forall i :: 0 <= i < |batch| ==> Undispatched(w.db, batch[i]);
    LeftOverIsRoutable(w, batch, |batch|);
    assert batch[..|batch|] == batch;
    forall k | k in Routable(w.db)
      ensures k in LeftOver(w.db, batch, |batch|) <==> |Earlier(w.db, k)| >= limit
    {
      InBatchIff(w.db, limit, batch, k);
    }
    assert forall k :: k in LeftOver(w.db, batch, |batch|) ==> k in Routable(w.db);
  }

  /** The last pass of the loop finds every row there was and every row committed before it. */
  lemma LastPassFindsAll(w: World, limit: nat, batches: seq<seq<nat>>, fates: nat -> Fate, i: nat, row: Row)
    requires batches != [] && Selections(w, limit, batches, fates)
    ensures row in w.db.log ==> row in Found(w, batches, fates, |batches| - 1).db.log
    ensures i < |batches| && row in fates(i).arrivals ==> row in Found(w, batches, fates, |batches| - 1).db.log
  {
    AfterHasLog(w, batches, fates, |batches| - 1);
    LogHasArrivals(w.db.log, fates, |batches|, i, row);
    assert Found(w, batches, fates, |batches| - 1).db.log == LogAfter(w.db.log, fates, |batches|);
  }

  lemma {:induction false} LogHasArrivals(log: seq<Row>, fates: nat -> Fate, n: nat, i: nat, row: Row)
    ensures row in log ==> row in LogAfter(log, fates, n)
    ensures i < n && row in fates(i).arrivals ==> row in LogAfter(log, fates, n)
  {
    if n > 0 {
      LogHasArrivals(log, fates, n - 1, i, row);
    }
  }

  /**
   So what a stopped loop leaves behind is decided by its last pass: if its SELECT answers
   and nothing fails, no routable row is left if and only if, in the table it finds, no
   routable row has a whole batch of rows ahead of it.
   */
  lemma StoppedLoopFlushesIff(w: World, limit: nat, batches: seq<seq<nat>>, fates: nat -> Fate)
    requires batches != [] && Selections(w, limit, batches, fates)
    requires fates(|batches| - 1).selects && fates(|batches| - 1).rows == Flawless
    ensures var db := Found(w, batches, fates, |batches| - 1).db;
            Routable(After(w, batches, fates, |batches|).db) == {} <==> forall k :: k in Routable(db) ==> |Earlier(db, k)| < limit
  {
    var last := |batches| - 1;
    assert Selected(w, limit, batches, fates, last);
    FinalDrainFlushesIff(Found(w, batches, fates, last), limit, batches[last]);
  }
}
