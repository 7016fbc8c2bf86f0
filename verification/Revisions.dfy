/**
 Event rows and revision counters written in one transaction.  The UPDATE that bumps
 a counter keeps the row lock until the transaction ends, so another transaction that
 bumps the same counter waits.  Boards and aggregated boards follow the same contract.
 */
module Revisions {
  import opened Common

  datatype Json = Null | Number(n: int) | Text(s: string) | Object(fields: map<string, Json>)

  datatype Key = Board(id: nat) | Aggregated(id: nat)

  /** `key` is absent for project events; `revision` is what the UPDATE returned, 0 without one. */
  datatype Event = Event(key: Option<Key>, revision: nat, payload: Json)

  datatype Tx = Idle | Active(bumped: map<Key, nat>, events: seq<Event>)

  datatype State = State(revisions: map<Key, nat>, log: seq<Event>, txs: seq<Tx>)

  datatype Label =
    | Begin(tx: nat)
    | InsertKeyed(tx: nat, key: Key, payload: Json)
    | InsertProject(tx: nat, payload: Json)
    | Commit(tx: nat)
    | Rollback(tx: nat)

  function WithBoardRevision(payload: Json, revision: nat): Json
  {
    if payload.Object? then Object(payload.fields["board_revision" := Number(revision)]) else payload
  }

  /** `as_u64` of a top-level key, 0 when it is missing or of another type. */
  function JsonU64(json: Json, key: string): nat
  {
    if json.Object? && key in json.fields && json.fields[key].Number? && json.fields[key].n >= 0 then json.fields[key].n else 0
  }

  // ------------------------------------------------------------ transactions

  predicate IsActive(s: State, i: nat)
  {
    i < |s.txs| && s.txs[i].Active?
  }

  predicate Locks(s: State, i: nat, key: Key)
  {
    IsActive(s, i) && key in s.txs[i].bumped
  }

  ghost predicate Enabled(s: State, l: Label)
  {
    match l
    case Begin(i) => i < |s.txs| && s.txs[i].Idle?
    case InsertKeyed(i, key, payload) => IsActive(s, i) && key in s.revisions && forall j: nat :: j != i ==> !Locks(s, j, key)
    case InsertProject(i, payload) => IsActive(s, i)
    case Commit(i) => IsActive(s, i)
    case Rollback(i) => IsActive(s, i)
  }

  /** What a transaction sees of a counter: its own bump, or else what is committed. */
  function Seen(revisions: map<Key, nat>, bumped: map<Key, nat>, key: Key): nat
  {
    if key in bumped then bumped[key] else if key in revisions then revisions[key] else 0
  }

  function Bumped(revisions: map<Key, nat>, tx: Tx, key: Key, payload: Json): Tx
    requires tx.Active?
  {
    var revision := Seen(revisions, tx.bumped, key) + 1;
    Active(tx.bumped[key := revision], tx.events + [Event(Some(key), revision, WithBoardRevision(payload, revision))])
  }

  function Step(s: State, l: Label): State
  {
    if l.tx >= |s.txs| then s
    else
      match l
      case Begin(i) => s.(txs := s.txs[i := Active(map[], [])])
      case InsertKeyed(i, key, payload) =>
        if s.txs[i].Active? then s.(txs := s.txs[i := Bumped(s.revisions, s.txs[i], key, payload)]) else s
      case InsertProject(i, payload) =>
        if s.txs[i].Active? then s.(txs := s.txs[i := s.txs[i].(events := s.txs[i].events + [Event(None, 0, payload)])]) else s
      case Commit(i) =>
        if s.txs[i].Active? then State(s.revisions + s.txs[i].bumped, s.log + s.txs[i].events, s.txs[i := Idle]) else s
      case Rollback(i) => s.(txs := s.txs[i := Idle])
  }

  /** Every run from `first`, with all transactions idle and an empty log. */
  ghost predicate Run(first: State, labels: seq<Label>, last: State)
  {
    if labels == [] then first == last && first.log == [] && forall i :: 0 <= i < |first.txs| ==> first.txs[i] == Idle
    else exists s :: Run(first, Front(labels), s) && Enabled(s, Last(labels)) && Step(s, Last(labels)) == last
  }

  // ------------------------------------------------------------ the invariant

  /** The revisions carried by the events of one counter, in order. */
  function RevisionsOf(events: seq<Event>, key: Key): seq<nat>
  {
    if events == [] then []
    else RevisionsOf(Front(events), key) + if Last(events).key == Some(key) then [Last(events).revision] else []
  }

  function UpFrom(low: nat, high: nat): (r: seq<nat>)
    requires low <= high
    ensures |r| == high - low
    ensures forall i :: 0 <= i < |r| ==> r[i] == low + 1 + i
  {
    seq(high - low, i => low + 1 + i)
  }

  lemma {:induction false} RevisionsConcat(a: seq<Event>, b: seq<Event>, key: Key)
    ensures RevisionsOf(a + b, key) == RevisionsOf(a, key) + RevisionsOf(b, key)
  {
    if b == [] {
      assert a + b == a;
    } else {
      RevisionsConcat(a, Front(b), key);
      assert Front(a + b) == a + Front(b) && Last(a + b) == Last(b);
    }
  }

  lemma UpFromConcat(a: nat, b: nat, c: nat)
    requires a <= b <= c
    ensures UpFrom(a, b) + UpFrom(b, c) == UpFrom(a, c)
  {
  }

  /** The log of a counter counts up from where the counter started to where it stands. */
  ghost predicate LogOk(first: State, s: State, key: Key)
  {
    var low, high := Seen(first.revisions, map[], key), Seen(s.revisions, map[], key);
    low <= high && RevisionsOf(s.log, key) == UpFrom(low, high)
  }

  /** A transaction's own events of a counter count up from the committed value to its own bump. */
  ghost predicate TxOk(revisions: map<Key, nat>, tx: Tx, key: Key)
  {
    tx.Active? ==>
      var low, high := Seen(revisions, map[], key), Seen(revisions, tx.bumped, key);
      low <= high && RevisionsOf(tx.events, key) == UpFrom(low, high)
  }

  ghost predicate OneLock(s: State, key: Key)
  {
    forall i: nat, j: nat :: Locks(s, i, key) && Locks(s, j, key) ==> i == j
  }

  ghost predicate KeyOk(first: State, s: State, key: Key)
  {
    && LogOk(first, s, key) && OneLock(s, key)
    && forall i :: 0 <= i < |s.txs| ==> TxOk(s.revisions, s.txs[i], key)
  }

  lemma RevisionsSnoc(events: seq<Event>, e: Event, key: Key)
    ensures RevisionsOf(events + [e], key) == RevisionsOf(events, key) + if e.key == Some(key) then [e.revision] else []
  {
    assert Front(events + [e]) == events && Last(events + [e]) == e;
  }

  lemma UpFromSnoc(low: nat, high: nat)
    requires low <= high
    ensures UpFrom(low, high + 1) == UpFrom(low, high) + [high + 1]
  {
  }

  lemma NextOk(revisions: map<Key, nat>, tx: Tx, tx': Tx, e: Event, key: Key)
    requires tx.Active? && TxOk(revisions, tx, key) && tx'.Active? && tx'.events == tx.events + [e]
    requires var seen, seen' := Seen(revisions, tx.bumped, key), Seen(revisions, tx'.bumped, key);
             if e.key == Some(key) then seen' == e.revision == seen + 1 else seen' == seen
    ensures TxOk(revisions, tx', key)
  {
    RevisionsSnoc(tx.events, e, key);
    UpFromSnoc(Seen(revisions, map[], key), Seen(revisions, tx.bumped, key));
  }

  /** A bump adds the next revision of its own counter and leaves the others alone. */
  lemma BumpOk(revisions: map<Key, nat>, tx: Tx, bump: Key, payload: Json, key: Key)
    requires tx.Active? && TxOk(revisions, tx, key)
    ensures TxOk(revisions, Bumped(revisions, tx, bump, payload), key)
  {
    var revision := Seen(revisions, tx.bumped, bump) + 1;
    NextOk(revisions, tx, Bumped(revisions, tx, bump, payload), Event(Some(bump), revision, WithBoardRevision(payload, revision)), key);
  }

  lemma InsertKeeps(first: State, s: State, i: nat, bump: Key, payload: Json, key: Key)
    requires KeyOk(first, s, key) && Enabled(s, InsertKeyed(i, bump, payload))
    ensures KeyOk(first, Step(s, InsertKeyed(i, bump, payload)), key)
  {
    BumpOk(s.revisions, s.txs[i], bump, payload, key);
    InsertKeepsLock(s, i, bump, payload, key);
  }

  lemma InsertKeepsLock(s: State, i: nat, bump: Key, payload: Json, key: Key)
    requires OneLock(s, key) && Enabled(s, InsertKeyed(i, bump, payload))
    ensures OneLock(Step(s, InsertKeyed(i, bump, payload)), key)
  {
    var s' := Step(s, InsertKeyed(i, bump, payload));
    forall a: nat, b: nat | Locks(s', a, key) && Locks(s', b, key)
      ensures a == b
    {
      assert a != i ==> Locks(s, a, key);
      assert b != i ==> Locks(s, b, key);
      assert key != bump && a == i ==> Locks(s, a, key);
      assert key != bump && b == i ==> Locks(s, b, key);
    }
  }

  lemma ProjectKeeps(first: State, s: State, i: nat, payload: Json, key: Key)
    requires KeyOk(first, s, key) && IsActive(s, i)
    ensures KeyOk(first, Step(s, InsertProject(i, payload)), key)
  {
    var s' := Step(s, InsertProject(i, payload));
    assert Front(s'.txs[i].events) == s.txs[i].events && Last(s'.txs[i].events).key == None;
    forall a: nat | Locks(s', a, key)
      ensures Locks(s, a, key)
    {
    }
  }

  /** Replacing a transaction by one that holds no lock. */
  lemma EndsKeepLocks(s: State, s': State, i: nat, tx: Tx, key: Key)
    requires OneLock(s, key) && i < |s.txs| && s'.txs == s.txs[i := tx] && (tx.Active? ==> key !in tx.bumped)
    ensures OneLock(s', key)
  {
    forall a: nat | Locks(s', a, key)
      ensures Locks(s, a, key)
    {
    }
  }

  lemma CommitKeeps(first: State, s: State, i: nat, key: Key)
    requires KeyOk(first, s, key) && IsActive(s, i)
    ensures KeyOk(first, Step(s, Commit(i)), key)
  {
    var s', tx := Step(s, Commit(i)), s.txs[i];
    assert TxOk(s.revisions, tx, key);
    RevisionsConcat(s.log, tx.events, key);
    UpFromConcat(Seen(first.revisions, map[], key), Seen(s.revisions, map[], key), Seen(s.revisions, tx.bumped, key));
    assert Seen(s'.revisions, map[], key) == Seen(s.revisions, tx.bumped, key);
    EndsKeepLocks(s, s', i, Idle, key);
    forall j | 0 <= j < |s'.txs| && s'.txs[j].Active?
      ensures TxOk(s'.revisions, s'.txs[j], key)
    {
      assert j != i && s'.txs[j] == s.txs[j] && TxOk(s.revisions, s.txs[j], key);
      if Locks(s, i, key) {
        assert !Locks(s, j, key);
      }
    }
  }

  lemma StepKeeps(first: State, s: State, l: Label, key: Key)
    requires KeyOk(first, s, key) && Enabled(s, l)
    ensures KeyOk(first, Step(s, l), key)
  {
    match l
    case Begin(i) =>
      EndsKeepLocks(s, Step(s, l), i, Active(map[], []), key);
      assert UpFrom(Seen(s.revisions, map[], key), Seen(s.revisions, map[], key)) == [];
    case InsertKeyed(i, bump, payload) => InsertKeeps(first, s, i, bump, payload, key);
    case InsertProject(i, payload) => ProjectKeeps(first, s, i, payload, key);
    case Commit(i) => CommitKeeps(first, s, i, key);
    case Rollback(i) => EndsKeepLocks(s, Step(s, l), i, Idle, key);
  }

  lemma {:induction false} RunKeeps(first: State, labels: seq<Label>, s: State, key: Key)
    requires Run(first, labels, s)
    ensures KeyOk(first, s, key)
  {
    if labels == [] {
      assert UpFrom(Seen(s.revisions, map[], key), Seen(s.revisions, map[], key)) == [];
    } else {
      var prev :| Run(first, Front(labels), prev) && Enabled(prev, Last(labels)) && Step(prev, Last(labels)) == s;
      RunKeeps(first, Front(labels), prev, key);
      StepKeeps(first, prev, Last(labels), key);
    }
  }

  /** However transactions interleave, commit and roll back, the committed rows of a counter carry its revisions once each, in commit order. */
  lemma RevisionsAreGapless(first: State, labels: seq<Label>, s: State, key: Key)
    requires Run(first, labels, s) && key in first.revisions
    ensures key in s.revisions && first.revisions[key] <= s.revisions[key]
    ensures RevisionsOf(s.log, key) == UpFrom(first.revisions[key], s.revisions[key])
  {
    RunKeeps(first, labels, s, key);
    KeysStay(first, labels, s, key);
  }

  lemma {:induction false} KeysStay(first: State, labels: seq<Label>, s: State, key: Key)
    requires Run(first, labels, s) && key in first.revisions
    ensures key in s.revisions
  {
    if labels != [] {
      var prev :| Run(first, Front(labels), prev) && Enabled(prev, Last(labels)) && Step(prev, Last(labels)) == s;
      KeysStay(first, Front(labels), prev, key);
    }
  }

  // ------------------------------------------------------------ payloads

  /** The same payload but for what `board_revision` holds; only objects are touched. */
  predicate SameBut(a: Json, b: Json)
  {
    if a.Object? then b.Object? && a.fields - {"board_revision"} == b.fields - {"board_revision"} else a == b
  }

  /** `e` is the row that the insert `l` asked for. */
  predicate RowOf(e: Event, l: Label)
  {
    match l
    case InsertKeyed(i, key, payload) => e.key == Some(key) && SameBut(payload, e.payload)
    case InsertProject(i, payload) => e == Event(None, 0, payload)
    case _ => false
  }

  ghost predicate RowsOf(events: seq<Event>, inserts: seq<Label>)
  {
    |events| == |inserts| && forall i :: 0 <= i < |events| ==> RowOf(events[i], inserts[i])
  }

  /** The inserts of transaction `i` since it last began. */
  function Pending(labels: seq<Label>, i: nat): seq<Label>
  {
    if labels == [] then []
    else if Last(labels).tx != i then Pending(Front(labels), i)
    else if Last(labels).InsertKeyed? || Last(labels).InsertProject? then Pending(Front(labels), i) + [Last(labels)]
    else []
  }

  /** The inserts that took effect: at each commit those of its transaction, all together. */
  function Committed(labels: seq<Label>): seq<Label>
  {
    if labels == [] then []
    else Committed(Front(labels)) + if Last(labels).Commit? then Pending(Front(labels), Last(labels).tx) else []
  }

  lemma RowsConcat(a: seq<Event>, b: seq<Event>, c: seq<Label>, d: seq<Label>)
    requires RowsOf(a, c) && RowsOf(b, d)
    ensures RowsOf(a + b, c + d)
  {
  }

  ghost predicate Recorded(s: State, labels: seq<Label>)
  {
    && RowsOf(s.log, Committed(labels))
    && forall i {:trigger s.txs[i]} :: 0 <= i < |s.txs| && s.txs[i].Active? ==> RowsOf(s.txs[i].events, Pending(labels, i))
  }

  lemma InsertRecords(s: State, labels: seq<Label>, l: Label)
    requires labels != [] && l == Last(labels) && (l.InsertKeyed? || l.InsertProject?)
    requires Enabled(s, l) && Recorded(s, Front(labels))
    ensures Recorded(Step(s, l), labels)
  {
    RowsConcat(s.txs[l.tx].events, [Last(Step(s, l).txs[l.tx].events)], Pending(Front(labels), l.tx), [l]);
  }

  lemma EndRecords(s: State, labels: seq<Label>, l: Label)
    requires labels != [] && l == Last(labels) && !l.InsertKeyed? && !l.InsertProject?
    requires Enabled(s, l) && Recorded(s, Front(labels))
    ensures Recorded(Step(s, l), labels)
  {
    if l.Commit? {
      RowsConcat(s.log, s.txs[l.tx].events, Committed(Front(labels)), Pending(Front(labels), l.tx));
    }
  }

  /**
   Whatever interleaves, the log is the inserts of the committed transactions, in commit order and whole:
   nothing of a transaction that rolled back, and no payload changed but for its revision.
   */
  lemma {:induction false} LogIsCommitted(first: State, labels: seq<Label>, s: State)
    requires Run(first, labels, s)
    ensures RowsOf(s.log, Committed(labels))
    ensures Recorded(s, labels)
  {
    if labels != [] {
      var l := Last(labels);
      var prev :| Run(first, Front(labels), prev) && Enabled(prev, l) && Step(prev, l) == s;
      LogIsCommitted(first, Front(labels), prev);
      if l.InsertKeyed? || l.InsertProject? {
        InsertRecords(prev, labels, l);
      } else {
        EndRecords(prev, labels, l);
      }
    }
  }

  ghost predicate Stamped(e: Event)
  {
    && (e.key.Some? ==> e.revision > 0)
    && (e.key.Some? && e.payload.Object? ==> JsonU64(e.payload, "board_revision") == e.revision)
    && (e.key.Some? && !e.payload.Object? ==> JsonU64(e.payload, "board_revision") == 0)
  }

  ghost predicate AllStamped(events: seq<Event>)
  {
    forall i :: 0 <= i < |events| ==> Stamped(events[i])
  }

  /** In every run each committed row with an object payload shows its own revision in the envelope. */
  lemma {:induction false} EnvelopesShowRevisions(first: State, labels: seq<Label>, s: State)
    requires Run(first, labels, s)
    ensures AllStamped(s.log)
    ensures forall i :: 0 <= i < |s.txs| && s.txs[i].Active? ==> AllStamped(s.txs[i].events)
  {
    if labels != [] {
      var prev :| Run(first, Front(labels), prev) && Enabled(prev, Last(labels)) && Step(prev, Last(labels)) == s;
      EnvelopesShowRevisions(first, Front(labels), prev);
    }
  }

  // ------------------------------------------------------------ the helpers as code

  /** One open transaction, over the counters as committed. */
  class EventLogTx {
    const revisions: map<Key, nat>
    var bumped: map<Key, nat>
    var events: seq<Event>

    constructor (revisions: map<Key, nat>)
      ensures this.revisions == revisions && bumped == map[] && events == []
    {
      this.revisions, bumped, events := revisions, map[], [];
    }

    /** False is the error of an UPDATE that finds no row; the handler then drops the transaction. */
    method InsertKeyedEvent(key: Key, payload: Json) returns (ok: bool)
      modifies this
      ensures ok <==> key in revisions
      ensures ok ==> Active(bumped, events) == Bumped(revisions, Active(old(bumped), old(events)), key, payload)
      ensures !ok ==> bumped == old(bumped) && events == old(events)
    {
      if key !in revisions {
        return false;
      }
      var revision := (if key in bumped then bumped[key] else revisions[key]) + 1;
      bumped := bumped[key := revision];
      var stored := payload;
      if stored.Object? {
        stored := Object(stored.fields["board_revision" := Number(revision)]);
      }
      events := events + [Event(Some(key), revision, stored)];
      ok := true;
    }

    method InsertProjectEvent(payload: Json)
      modifies this`events
      ensures events == old(events) + [Event(None, 0, payload)]
    {
      events := events + [Event(None, 0, payload)];
    }

    /** A board update writes one event for a new name and one for a new description or icon; if both, their revisions are consecutive. */
    method RecordBoardUpdate(key: Key, name: string, description: string, icon: string, renamed: Json, updated: Json)
      requires key in revisions
      modifies this
      ensures var r := Seen(revisions, old(bumped), key);
              var one, two := name != "", description != "" || icon != "";
              var next := if one then r + 1 else r;
              && (one || two ==> bumped == old(bumped)[key := if two then next + 1 else next])
              && (!one && !two ==> bumped == old(bumped))
              && events == old(events)
                           + (if one then [Event(Some(key), r + 1, WithBoardRevision(renamed, r + 1))] else [])
                           + (if two then [Event(Some(key), next + 1, WithBoardRevision(updated, next + 1))] else [])
    {
      var ok;
      if name != "" {
        ok := InsertKeyedEvent(key, renamed);
      }
      if description != "" || icon != "" {
        ok := InsertKeyedEvent(key, updated);
      }
    }
  }
}
