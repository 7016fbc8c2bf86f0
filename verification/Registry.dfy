/**
 The per-pod registry: one channel per key, shared through a refcount.

 Each critical section of the source is a method of the class, proved to compute a
 function of the map; the transition system below interleaves those functions
 with everything that happens between two locks.
 */
module Registry {
  import opened Common

  type Key = nat

  type PumpId = nat

  datatype Channel = Channel(pump: PumpId, refcount: nat)

  function AfterJoin(boards: map<Key, Channel>, key: Key): map<Key, Channel>
    requires key in boards
  {
    boards[key := boards[key].(refcount := boards[key].refcount + 1)]
  }

  function Decremented(ch: Channel): nat
  {
    if ch.refcount == 0 then 0 else ch.refcount - 1
  }

  /** The map after a handle on `key` is dropped: an entry that reaches zero is removed. */
  function AfterDrop(boards: map<Key, Channel>, key: Key): map<Key, Channel>
  {
    if key !in boards then boards
    else if Decremented(boards[key]) == 0 then boards - {key}
    else boards[key := boards[key].(refcount := Decremented(boards[key]))]
  }

  class BoardSubscriberRegistry {
    var boards: map<Key, Channel>
    var aborted: set<PumpId>

    constructor ()
      ensures boards == map[] && aborted == {}
    {
      boards, aborted := map[], {};
    }

    /** Under the write lock: join the channel if it is still there. */
    method JoinExisting(key: Key) returns (pump: Option<PumpId>)
      modifies this`boards
      ensures pump == if key in old(boards) then Some(old(boards)[key].pump) else None
      ensures boards == if key in old(boards) then AfterJoin(old(boards), key) else old(boards)
      ensures key in old(boards) ==>
                boards == old(boards)[key := Channel(old(boards)[key].pump, old(boards)[key].refcount + 1)]
    {
      if key in boards {
        var ch := boards[key];
        boards := boards[key := ch.(refcount := ch.refcount + 1)];
        return Some(ch.pump);
      }
      return None;
    }

    /** Under the write lock: put a freshly opened channel in the map, whatever is there. */
    method InsertChannel(key: Key, pump: PumpId)
      modifies this`boards
      ensures boards == old(boards)[key := Channel(pump, 1)]
    {
      boards := boards[key := Channel(pump, 1)];
    }

    /** Under the write lock: one handle less; the last one removes the entry and aborts its pump. */
    method DecrementRefcount(key: Key)
      modifies this
      ensures boards == AfterDrop(old(boards), key)
      ensures key in old(boards) && old(boards)[key].refcount <= 1 ==>
                boards == old(boards) - {key} && aborted == old(aborted) + {old(boards)[key].pump}
      ensures key in old(boards) && old(boards)[key].refcount > 1 ==>
                boards == old(boards)[key := Channel(old(boards)[key].pump, old(boards)[key].refcount - 1)] && aborted == old(aborted)
      ensures key !in old(boards) ==> boards == old(boards) && aborted == old(aborted)
      ensures aborted == old(aborted) + (if key in old(boards) && key !in boards then {old(boards)[key].pump} else {})
    {
      if key !in boards {
        return;
      }
      var ch := boards[key];
      var left := if ch.refcount == 0 then 0 else ch.refcount - 1;
      if left == 0 {
        boards := boards - {key};
        aborted := aborted + {ch.pump};
      } else {
        boards := boards[key := ch.(refcount := left)];
      }
    }
  }

  // ------------------------------------------------------------ interleavings

  /** A live subscription: its key and the pump that feeds its receiver. */
  datatype Handle = Handle(key: Key, pump: PumpId)

  /** A subscribe call between two locks: it saw the key, or it is opening a consumer. */
  datatype Stage = SawEntry(key: Key) | OpeningConsumer(key: Key)

  datatype State = State(
    boards: map<Key, Channel>,
    aborted: set<PumpId>,
    handles: map<nat, Handle>,
    tasks: map<nat, Stage>,
    next: nat)

  const START := State(map[], {}, map[], map[], 0)

  datatype Label =
    | Check(task: nat, key: Key)
    | TakeWriteLock(task: nat)
    | Insert(task: nat)
    | Abandon(task: nat)
    | DropHandle(h: nat)

  predicate Enabled(s: State, l: Label)
  {
    match l
    case Check(t, key) => t !in s.tasks
    case TakeWriteLock(t) => t in s.tasks && s.tasks[t].SawEntry?
    case Insert(t) => t in s.tasks && s.tasks[t].OpeningConsumer?
    case Abandon(t) => t in s.tasks
    case DropHandle(h) => h in s.handles
  }

  function Step(s: State, l: Label): State
    requires Enabled(s, l)
  {
    match l
    case Check(t, key) =>
      s.(tasks := s.tasks[t := if key in s.boards then SawEntry(key) else OpeningConsumer(key)])
    case TakeWriteLock(t) =>
      var key := s.tasks[t].key;
      if key in s.boards
      then s.(boards := AfterJoin(s.boards, key),
              handles := s.handles[s.next := Handle(key, s.boards[key].pump)],
              tasks := s.tasks - {t},
              next := s.next + 1)
      else s.(tasks := s.tasks[t := OpeningConsumer(key)])
    case Insert(t) =>
      var key := s.tasks[t].key;
      s.(boards := s.boards[key := Channel(s.next, 1)],
         handles := s.handles[s.next := Handle(key, s.next)],
         tasks := s.tasks - {t},
         next := s.next + 1)
    case Abandon(t) => s.(tasks := s.tasks - {t})
    case DropHandle(h) =>
      var key := s.handles[h].key;
      var boards' := AfterDrop(s.boards, key);
      s.(boards := boards',
         aborted := s.aborted + (if key in s.boards && key !in boards' then {s.boards[key].pump} else {}),
         handles := s.handles - {h})
  }

  function Exec(labels: seq<Label>): Option<State>
  {
    if labels == [] then Some(START)
    else
      match Exec(Front(labels))
      case None => None
      case Some(s) => if Enabled(s, Last(labels)) then Some(Step(s, Last(labels))) else None
  }

  /** The live handles on `key`. */
  function Live(s: State, key: Key): set<nat>
  {
    On(s.handles, key)
  }

  function On(handles: map<nat, Handle>, key: Key): set<nat>
  {
    set h | h in handles && handles[h].key == key
  }

  lemma OnGrows(handles: map<nat, Handle>, h: nat, handle: Handle, key: Key)
    requires h !in handles
    ensures |On(handles[h := handle], key)| == |On(handles, key)| + if handle.key == key then 1 else 0
  {
    assert On(handles[h := handle], key) == On(handles, key) + (if handle.key == key then {h} else {});
  }

  lemma OnShrinks(handles: map<nat, Handle>, h: nat, key: Key)
    requires h in handles
    ensures |On(handles - {h}, key)| == |On(handles, key)| - if handles[h].key == key then 1 else 0
  {
    assert On(handles - {h}, key) == On(handles, key) - {h};
  }

  ghost predicate FreshHandles(s: State)
  {
    forall h :: h in s.handles ==> h < s.next && s.handles[h].pump < s.next
  }

  ghost predicate FreshPumps(s: State)
  {
    && (forall key :: key in s.boards ==> s.boards[key].pump < s.next)
    && (forall p :: p in s.aborted ==> p < s.next)
  }

  ghost predicate OnePumpEach(s: State)
  {
    forall a, b :: a in s.boards && b in s.boards && a != b ==> s.boards[a].pump != s.boards[b].pump
  }

  ghost predicate NoneAborted(s: State)
  {
    forall key :: key in s.boards ==> s.boards[key].pump !in s.aborted
  }

  ghost predicate FreshIds(s: State)
  {
    FreshHandles(s) && FreshPumps(s) && OnePumpEach(s) && NoneAborted(s)
  }

  /** Every entry's refcount is at least one and at most the number of live handles on its key. */
  ghost predicate RefcountsBounded(s: State)
  {
    forall key :: key in s.boards ==> 1 <= s.boards[key].refcount <= |Live(s, key)|
  }

  /** The key of the handle a step creates, if it creates one. */
  function NewKey(s: State, l: Label): Option<Key>
    requires Enabled(s, l)
  {
    if l.Insert? || (l.TakeWriteLock? && s.tasks[l.task].key in s.boards) then Some(s.tasks[l.task].key) else None
  }

  function DroppedKey(s: State, l: Label): Option<Key>
    requires Enabled(s, l)
  {
    if l.DropHandle? then Some(s.handles[l.h].key) else None
  }

  lemma LiveAfter(s: State, l: Label, key: Key)
    requires Enabled(s, l) && FreshIds(s)
    ensures |Live(Step(s, l), key)| ==
            |Live(s, key)| + (if NewKey(s, l) == Some(key) then 1 else 0) - (if DroppedKey(s, l) == Some(key) then 1 else 0)
  {
    var s' := Step(s, l);
    if NewKey(s, l).Some? {
      OnGrows(s.handles, s.next, s'.handles[s.next], key);
    } else if l.DropHandle? {
      OnShrinks(s.handles, l.h, key);
    } else {
      assert s'.handles == s.handles;
    }
  }

  lemma FreshIdsStep(s: State, l: Label)
    requires Enabled(s, l) && FreshIds(s)
    ensures FreshIds(Step(s, l))
  {
    HandlesStep(s, l);
    PumpsStep(s, l);
    OnePumpStep(s, l);
    AbortedStep(s, l);
  }

  lemma HandlesStep(s: State, l: Label)
    requires Enabled(s, l) && FreshHandles(s) && FreshPumps(s)
    ensures FreshHandles(Step(s, l))
  {
  }

  lemma PumpsStep(s: State, l: Label)
    requires Enabled(s, l) && FreshPumps(s)
    ensures FreshPumps(Step(s, l))
  {
  }

  /** A step gives an entry a new pump, keeps its pump, or removes it. */
  lemma PumpAfter(s: State, l: Label, key: Key)
    requires Enabled(s, l) && key in Step(s, l).boards
    ensures var p := Step(s, l).boards[key].pump;
            if l.Insert? && s.tasks[l.task].key == key then p == s.next else key in s.boards && p == s.boards[key].pump
  {
  }

  lemma OnePumpStep(s: State, l: Label)
    requires Enabled(s, l) && FreshPumps(s) && OnePumpEach(s)
    ensures OnePumpEach(Step(s, l))
  {
    forall a, b | a in Step(s, l).boards && b in Step(s, l).boards && a != b
      ensures Step(s, l).boards[a].pump != Step(s, l).boards[b].pump
    {
      PumpAfter(s, l, a);
      PumpAfter(s, l, b);
    }
  }

  lemma AbortedStep(s: State, l: Label)
    requires Enabled(s, l) && FreshPumps(s) && OnePumpEach(s) && NoneAborted(s)
    ensures NoneAborted(Step(s, l))
  {
    var s' := Step(s, l);
    forall key | key in s'.boards
      ensures s'.boards[key].pump !in s'.aborted
    {
      PumpAfter(s, l, key);
      if l.DropHandle? {
        assert key in s.boards && s'.boards[key].pump == s.boards[key].pump;
      }
    }
  }

  lemma BoundedStep(s: State, l: Label)
    requires Enabled(s, l) && FreshIds(s) && RefcountsBounded(s)
    ensures RefcountsBounded(Step(s, l))
  {
    forall key
      ensures key in Step(s, l).boards ==> 1 <= Step(s, l).boards[key].refcount <= |Live(Step(s, l), key)|
    {
      LiveAfter(s, l, key);
    }
  }

  /**
   In every interleaving of checks, joins, slow paths, failures and drops, an
   entry's refcount stays between one and the number of live handles on its key:
   the decrement never saturates and no entry outlives its last handle.
   */
  lemma {:induction false} RefcountsStayBounded(labels: seq<Label>)
    requires Exec(labels).Some?
    ensures FreshIds(Exec(labels).value) && RefcountsBounded(Exec(labels).value)
  {
    if labels != [] {
      RefcountsStayBounded(Front(labels));
      FreshIdsStep(Exec(Front(labels)).value, Last(labels));
      BoundedStep(Exec(Front(labels)).value, Last(labels));
    }
  }

  /** Refcounts equal live handles, and every live handle is fed by the channel in the map. */
  ghost predicate Exact(s: State)
  {
    && (forall key :: key in s.boards ==> s.boards[key].refcount == |Live(s, key)|)
    && (forall h :: h in s.handles ==>
          s.handles[h].key in s.boards && s.boards[s.handles[h].key].pump == s.handles[h].pump)
  }

  /** No pump is aborted while a handle it feeds is live. */
  ghost predicate NoLivePumpAborted(s: State)
  {
    forall h :: h in s.handles ==> s.handles[h].pump !in s.aborted
  }

  /** The slow path finds an entry that somebody else inserted in the meantime, and replaces it. */
  predicate Overwrites(s: State, l: Label)
  {
    l.Insert? && Enabled(s, l) && s.tasks[l.task].key in s.boards
  }

  lemma CountsStep(s: State, l: Label, key: Key)
    requires Enabled(s, l) && FreshIds(s) && RefcountsBounded(s) && Exact(s) && !Overwrites(s, l)
    ensures var s' := Step(s, l);
            if key in s'.boards then s'.boards[key].refcount == |Live(s', key)| else Live(s', key) == {}
  {
    LiveAfter(s, l, key);
    if key !in s.boards {
      assert Live(s, key) == {};
    }
  }

  lemma FeedStep(s: State, l: Label, h: nat)
    requires Enabled(s, l) && FreshIds(s) && RefcountsBounded(s) && Exact(s) && !Overwrites(s, l)
    requires h in Step(s, l).handles
    ensures var s', handle := Step(s, l), Step(s, l).handles[h];
            handle.key in s'.boards && s'.boards[handle.key].pump == handle.pump
  {
    var s' := Step(s, l);
    var key := s'.handles[h].key;
    assert h in Live(s', key);
    CountsStep(s, l, key);
    PumpAfter(s, l, key);
  }

  lemma FeedsStep(s: State, l: Label)
    requires Enabled(s, l) && FreshIds(s) && RefcountsBounded(s) && Exact(s) && !Overwrites(s, l)
    ensures Exact(Step(s, l))
  {
    var s' := Step(s, l);
    forall key | key in s'.boards
      ensures s'.boards[key].refcount == |Live(s', key)|
    {
      CountsStep(s, l, key);
    }
    forall h | h in s'.handles
      ensures s'.handles[h].key in s'.boards && s'.boards[s'.handles[h].key].pump == s'.handles[h].pump
    {
      FeedStep(s, l, h);
    }
  }

  lemma ExactStep(s: State, l: Label)
    requires Enabled(s, l) && FreshIds(s) && RefcountsBounded(s) && Exact(s)
    ensures Exact(Step(s, l)) <==> !Overwrites(s, l)
  {
    if Overwrites(s, l) {
      LiveAfter(s, l, s.tasks[l.task].key);
    } else {
      FeedsStep(s, l);
    }
  }

  /** Step `i` of the run replaces a live entry. */
  ghost predicate OverwritesAt(labels: seq<Label>, i: nat)
    requires i < |labels|
  {
    Exec(labels[..i]).Some? && Overwrites(Exec(labels[..i]).value, labels[i])
  }

  /** Every state of the run is exact. */
  ghost predicate ExactThroughout(labels: seq<Label>)
  {
    Exec(labels).Some? && Exact(Exec(labels).value) && (labels == [] || ExactThroughout(Front(labels)))
  }

  lemma OverwritesInFront(labels: seq<Label>, i: nat)
    requires i < |labels| - 1
    ensures OverwritesAt(labels, i) <==> OverwritesAt(Front(labels), i)
  {
    assert labels[..i] == Front(labels)[..i];
  }

  /** The last step of a run leaves an exact state exact exactly when it replaces nothing. */
  lemma LastStepExact(labels: seq<Label>)
    requires Exec(labels).Some? && labels != [] && Exact(Exec(Front(labels)).value)
    ensures Exact(Exec(labels).value) <==> !OverwritesAt(labels, |labels| - 1)
  {
    assert labels[..|labels| - 1] == Front(labels);
    RefcountsStayBounded(Front(labels));
    ExactStep(Exec(Front(labels)).value, Last(labels));
  }

  lemma ExactIsAlive(s: State)
    requires Exact(s) && NoneAborted(s)
    ensures NoLivePumpAborted(s)
  {
  }

  lemma {:induction false} ExactUpTo(labels: seq<Label>)
    requires Exec(labels).Some?
    ensures ExactThroughout(labels) <==> forall i :: 0 <= i < |labels| ==> !OverwritesAt(labels, i)
  {
    if labels != [] {
      var front := Front(labels);
      ExactUpTo(front);
      forall i | 0 <= i < |front|
        ensures OverwritesAt(labels, i) <==> OverwritesAt(front, i)
      {
        OverwritesInFront(labels, i);
      }
      if ExactThroughout(front) {
        LastStepExact(labels);
      }
    }
  }

  /**
   Refcounts equal live handles in every state of a run if and only if no slow
   path replaced an entry; and then no pump is ever aborted under a live handle.
   */
  lemma ExactIffNoOverwrite(labels: seq<Label>)
    requires Exec(labels).Some?
    ensures ExactThroughout(labels) <==> forall i :: 0 <= i < |labels| ==> !OverwritesAt(labels, i)
    ensures ExactThroughout(labels) ==> NoLivePumpAborted(Exec(labels).value)
  {
    ExactUpTo(labels);
    RefcountsStayBounded(labels);
    if ExactThroughout(labels) {
      ExactIsAlive(Exec(labels).value);
    }
  }

  /** No two subscribe calls are opening a consumer for the same key. */
  ghost predicate NoOverlap(s: State)
  {
    forall a, b :: a in s.tasks && b in s.tasks && a != b && s.tasks[a].OpeningConsumer? && s.tasks[b].OpeningConsumer? ==>
      s.tasks[a].key != s.tasks[b].key
  }

  ghost predicate NoOverlapThroughout(labels: seq<Label>)
  {
    Exec(labels).Some? && NoOverlap(Exec(labels).value) && (labels == [] || NoOverlapThroughout(Front(labels)))
  }

  ghost predicate OpeningIsAbsent(s: State)
  {
    forall t :: t in s.tasks && s.tasks[t].OpeningConsumer? ==> s.tasks[t].key !in s.boards
  }

  lemma OpeningStep(s: State, l: Label)
    requires Enabled(s, l) && OpeningIsAbsent(s) && NoOverlap(s)
    ensures OpeningIsAbsent(Step(s, l))
  {
    var s' := Step(s, l);
    forall t | t in s'.tasks && s'.tasks[t].OpeningConsumer?
      ensures s'.tasks[t].key !in s'.boards
    {
      if t in s.tasks && s.tasks[t] == s'.tasks[t] && l.Insert? {
        assert t != l.task && s.tasks[t].key != s.tasks[l.task].key;
      }
    }
  }

  lemma {:induction false} OpeningMeansAbsent(labels: seq<Label>)
    requires NoOverlapThroughout(labels)
    ensures OpeningIsAbsent(Exec(labels).value)
  {
    if labels != [] {
      OpeningMeansAbsent(Front(labels));
      OpeningStep(Exec(Front(labels)).value, Last(labels));
    }
  }

  lemma {:induction false} PrefixNoOverlap(labels: seq<Label>, i: nat)
    requires NoOverlapThroughout(labels) && i <= |labels|
    ensures NoOverlapThroughout(labels[..i])
  {
    if i == |labels| {
      assert labels[..i] == labels;
    } else {
      PrefixNoOverlap(Front(labels), i);
      assert labels[..i] == Front(labels)[..i];
    }
  }

  lemma {:induction false} PrefixRuns(labels: seq<Label>, i: nat)
    requires Exec(labels).Some? && i < |labels|
    ensures Exec(labels[..i]).Some? && Enabled(Exec(labels[..i]).value, labels[i])
  {
    if i == |labels| - 1 {
      assert labels[..i] == Front(labels);
    } else {
      PrefixRuns(Front(labels), i);
      assert labels[..i] == Front(labels)[..i];
    }
  }

  /** When slow paths on one key never overlap, the refcounts are exact. */
  lemma NoOverlapIsExact(labels: seq<Label>)
    requires NoOverlapThroughout(labels)
    ensures ExactThroughout(labels) && NoLivePumpAborted(Exec(labels).value)
  {
    forall i | 0 <= i < |labels|
      ensures !OverwritesAt(labels, i)
    {
      PrefixNoOverlap(labels, i);
      OpeningMeansAbsent(labels[..i]);
      PrefixRuns(labels, i);
    }
    ExactIffNoOverwrite(labels);
  }

  // ------------------------------------------------------------ when a live pump is aborted

  /** The live handles a pump feeds. */
  function Fed(handles: map<nat, Handle>, pump: PumpId): set<nat>
  {
    set h | h in handles && handles[h].pump == pump
  }

  lemma FedGrows(handles: map<nat, Handle>, h: nat, handle: Handle, pump: PumpId)
    requires h !in handles
    ensures |Fed(handles[h := handle], pump)| == |Fed(handles, pump)| + if handle.pump == pump then 1 else 0
  {
    assert Fed(handles[h := handle], pump) == Fed(handles, pump) + (if handle.pump == pump then {h} else {});
  }

  lemma FedShrinks(handles: map<nat, Handle>, h: nat, pump: PumpId)
    requires h in handles
    ensures |Fed(handles - {h}, pump)| == |Fed(handles, pump)| - if handles[h].pump == pump then 1 else 0
  {
    assert Fed(handles - {h}, pump) == Fed(handles, pump) - {h};
  }

  /** A handle fed by the pump of an entry is a handle on that entry's key. */
  ghost predicate FedAtHome(s: State)
  {
    forall h, key {:trigger s.handles[h], s.boards[key]} ::
      h in s.handles && key in s.boards && s.handles[h].pump == s.boards[key].pump ==> s.handles[h].key == key
  }

  lemma FedAtHomeStep(s: State, l: Label)
    requires Enabled(s, l) && FreshIds(s) && FedAtHome(s)
    ensures FedAtHome(Step(s, l))
  {
    var s' := Step(s, l);
    forall h, key | h in s'.handles && key in s'.boards && s'.handles[h].pump == s'.boards[key].pump
      ensures s'.handles[h].key == key
    {
      PumpAfter(s, l, key);
    }
  }

  /** The handle a drop takes away is fed by a pump that its key's entry has replaced. */
  predicate IsStray(s: State, l: Label, key: Key)
  {
    && l.DropHandle? && l.h in s.handles && s.handles[l.h].key == key
    && key in s.boards && s.handles[l.h].pump != s.boards[key].pump
  }

  predicate Opens(s: State, l: Label, key: Key)
  {
    l.Insert? && l.task in s.tasks && s.tasks[l.task].key == key
  }

  /** Drops of replaced pumps' handles since the key's entry was inserted. */
  function Strays(labels: seq<Label>, key: Key): nat
  {
    if labels == [] || Exec(Front(labels)).None? then 0
    else StraysAfter(Exec(Front(labels)).value, Last(labels), key, Strays(Front(labels), key))
  }

  function StraysAfter(s: State, l: Label, key: Key, n: nat): nat
  {
    if Opens(s, l, key) then 0 else if IsStray(s, l, key) then n + 1 else n
  }

  /** The entry's pump feeds as many live handles as the refcount says, and one more for each stray drop. */
  ghost predicate Accounts(s: State, key: Key, n: nat)
  {
    key in s.boards ==> |Fed(s.handles, s.boards[key].pump)| == s.boards[key].refcount + n
  }

  /** The drop takes the entry of `key` out of the map. */
  predicate Removes(s: State, l: Label, key: Key)
  {
    l.DropHandle? && l.h in s.handles && s.handles[l.h].key == key && key in s.boards && s.boards[key].refcount <= 1
  }

  lemma OpenAccounts(s: State, l: Label, key: Key, n: nat)
    requires Enabled(s, l) && l.Insert? && FreshIds(s) && Accounts(s, key, n)
    ensures Accounts(Step(s, l), key, StraysAfter(s, l, key, n))
  {
    var s' := Step(s, l);
    if Opens(s, l, key) {
      assert Fed(s'.handles, s.next) == {s.next};
    } else if key in s.boards {
      FedGrows(s.handles, s.next, s'.handles[s.next], s.boards[key].pump);
    }
  }

  lemma JoinAccounts(s: State, l: Label, key: Key, n: nat)
    requires Enabled(s, l) && l.TakeWriteLock? && FreshIds(s) && Accounts(s, key, n)
    ensures Accounts(Step(s, l), key, StraysAfter(s, l, key, n))
  {
    var joined := s.tasks[l.task].key;
    if key in s.boards && joined in s.boards {
      FedGrows(s.handles, s.next, Handle(joined, s.boards[joined].pump), s.boards[key].pump);
    }
  }

  lemma DropAccounts(s: State, l: Label, key: Key, n: nat)
    requires Enabled(s, l) && l.DropHandle? && RefcountsBounded(s) && FedAtHome(s) && Accounts(s, key, n)
    ensures Accounts(Step(s, l), key, StraysAfter(s, l, key, n))
    ensures Removes(s, l, key) ==> |Fed(Step(s, l).handles, s.boards[key].pump)| == StraysAfter(s, l, key, n)
  {
    if key in s.boards {
      FedShrinks(s.handles, l.h, s.boards[key].pump);
      assert s.handles[l.h].pump == s.boards[key].pump ==> s.handles[l.h].key == key;
    }
  }

  lemma AccountsStep(s: State, l: Label, key: Key, n: nat)
    requires Enabled(s, l) && FreshIds(s) && RefcountsBounded(s) && FedAtHome(s) && Accounts(s, key, n)
    ensures Accounts(Step(s, l), key, StraysAfter(s, l, key, n))
    ensures Removes(s, l, key) ==> |Fed(Step(s, l).handles, s.boards[key].pump)| == StraysAfter(s, l, key, n)
  {
    match l
    case Insert(_) => OpenAccounts(s, l, key, n);
    case TakeWriteLock(_) => JoinAccounts(s, l, key, n);
    case DropHandle(_) => DropAccounts(s, l, key, n);
    case _ =>
  }

  lemma {:induction false} StraysAccount(labels: seq<Label>, key: Key)
    requires Exec(labels).Some?
    ensures FedAtHome(Exec(labels).value) && Accounts(Exec(labels).value, key, Strays(labels, key))
  {
    if labels != [] {
      var s := Exec(Front(labels)).value;
      StraysAccount(Front(labels), key);
      RefcountsStayBounded(Front(labels));
      FedAtHomeStep(s, Last(labels));
      AccountsStep(s, Last(labels), key, Strays(Front(labels), key));
    }
  }

  /** Step `i` removes an entry whose pump's count has been run down by strays. */
  ghost predicate StrayRemovalAt(labels: seq<Label>, i: nat)
    requires i < |labels|
  {
    && Exec(labels[..i]).Some?
    && var s := Exec(labels[..i]).value;
       exists key :: Removes(s, labels[i], key) && StraysAfter(s, labels[i], key, Strays(labels[..i], key)) > 0
  }

  ghost predicate NoLivePumpAbortedThroughout(labels: seq<Label>)
  {
    Exec(labels).Some? && NoLivePumpAborted(Exec(labels).value) && (labels == [] || NoLivePumpAbortedThroughout(Front(labels)))
  }

  /** A step aborts a pump under a live handle exactly when it removes an entry whose pump still feeds one. */
  lemma AbortStep(s: State, l: Label)
    requires Enabled(s, l) && FreshIds(s) && RefcountsBounded(s) && NoLivePumpAborted(s)
    ensures NoLivePumpAborted(Step(s, l)) <==>
            forall key :: Removes(s, l, key) ==> |Fed(Step(s, l).handles, s.boards[key].pump)| == 0
  {
    var s' := Step(s, l);
    forall key | Removes(s, l, key)
      ensures s'.aborted == s.aborted + {s.boards[key].pump}
    {
    }
    if NoLivePumpAborted(s') {
      forall key | Removes(s, l, key)
        ensures |Fed(s'.handles, s.boards[key].pump)| == 0
      {
        assert forall h :: h in s'.handles ==> s'.handles[h].pump != s.boards[key].pump;
        assert Fed(s'.handles, s.boards[key].pump) == {};
      }
    }
    if forall key :: Removes(s, l, key) ==> |Fed(s'.handles, s.boards[key].pump)| == 0 {
      forall h | h in s'.handles
        ensures s'.handles[h].pump !in s'.aborted
      {
        KeptAlive(s, l, h);
      }
    }
  }

  lemma KeptAlive(s: State, l: Label, h: nat)
    requires Enabled(s, l) && FreshIds(s) && RefcountsBounded(s) && NoLivePumpAborted(s) && h in Step(s, l).handles
    requires forall key :: Removes(s, l, key) ==> |Fed(Step(s, l).handles, s.boards[key].pump)| == 0
    ensures Step(s, l).handles[h].pump !in Step(s, l).aborted
  {
    FeedsSomebody(Step(s, l).handles, h);
    if l.DropHandle? {
      assert Removes(s, l, s.handles[l.h].key) ==> s.handles[l.h].key in s.boards;
    }
  }

  lemma FeedsSomebody(handles: map<nat, Handle>, h: nat)
    requires h in handles
    ensures |Fed(handles, handles[h].pump)| > 0
  {
    assert h in Fed(handles, handles[h].pump);
  }

  lemma LastRemoval(labels: seq<Label>)
    requires Exec(labels).Some? && labels != [] && NoLivePumpAborted(Exec(Front(labels)).value)
    ensures NoLivePumpAborted(Exec(labels).value) <==> !StrayRemovalAt(labels, |labels| - 1)
  {
    var front := Front(labels);
    assert labels[..|labels| - 1] == front;
    var s := Exec(front).value;
    RefcountsStayBounded(front);
    AbortStep(s, Last(labels));
    forall key | Removes(s, Last(labels), key)
      ensures |Fed(Exec(labels).value.handles, s.boards[key].pump)| == StraysAfter(s, Last(labels), key, Strays(front, key))
    {
      StraysAccount(front, key);
      AccountsStep(s, Last(labels), key, Strays(front, key));
    }
  }

  lemma RemovalInFront(labels: seq<Label>, i: nat)
    requires i < |labels| - 1
    ensures StrayRemovalAt(labels, i) <==> StrayRemovalAt(Front(labels), i)
  {
    assert labels[..i] == Front(labels)[..i];
  }

  /**
   The exact condition: over a run no pump is ever aborted under a live handle if
   and only if no drop removes an entry that has seen, since its insertion, the drop
   of a handle fed by a pump it replaced.
   */
  lemma {:induction false} LivePumpAbortedIff(labels: seq<Label>)
    requires Exec(labels).Some?
    ensures NoLivePumpAbortedThroughout(labels) <==> forall i :: 0 <= i < |labels| ==> !StrayRemovalAt(labels, i)
  {
    if labels != [] {
      var front := Front(labels);
      LivePumpAbortedIff(front);
      forall i | 0 <= i < |front|
        ensures StrayRemovalAt(labels, i) <==> StrayRemovalAt(front, i)
      {
        RemovalInFront(labels, i);
      }
      if NoLivePumpAbortedThroughout(front) {
        LastRemoval(labels);
      }
    }
  }

  /** Two overlapping first subscribers of a key: dropping one aborts the pump that feeds the other. */
  lemma OverlapAbortsLivePump(key: Key)
    ensures exists labels, h ::
              && Exec(labels).Some? && h in Exec(labels).value.handles
              && Exec(labels).value.handles[h].key == key && Exec(labels).value.handles[h].pump in Exec(labels).value.aborted
  {
    var ls, s := Extend([], START, Check(0, key));
    ls, s := Extend(ls, s, Check(1, key));
    ls, s := Extend(ls, s, Insert(0));
    ls, s := Extend(ls, s, Insert(1));
    assert s.handles == map[0 := Handle(key, 0), 1 := Handle(key, 1)] && s.boards == map[key := Channel(1, 1)];
    ls, s := Extend(ls, s, DropHandle(0));
    assert 1 in s.handles && s.handles[1].pump in s.aborted;
  }

  lemma Extend(labels: seq<Label>, s: State, l: Label) returns (labels': seq<Label>, s': State)
    requires Exec(labels) == Some(s) && Enabled(s, l)
    ensures Exec(labels') == Some(s') && s' == Step(s, l)
  {
    labels', s' := labels + [l], Step(s, l);
    assert Front(labels') == labels;
  }

  /** `pump` was opened, is out of the map, and has not been aborted. */
  ghost predicate Orphaned(s: State, pump: PumpId)
  {
    pump < s.next && pump !in s.aborted && forall key :: key in s.boards ==> s.boards[key].pump != pump
  }

  lemma OrphanStays(s: State, l: Label, pump: PumpId)
    requires Enabled(s, l) && Orphaned(s, pump)
    ensures Orphaned(Step(s, l), pump)
  {
    forall key | key in Step(s, l).boards
      ensures Step(s, l).boards[key].pump != pump
    {
      PumpAfter(s, l, key);
    }
  }

  lemma OrphanMade(s: State, l: Label)
    requires FreshIds(s) && Overwrites(s, l)
    ensures Orphaned(Step(s, l), s.boards[s.tasks[l.task].key].pump)
  {
    forall key | key in Step(s, l).boards
      ensures Step(s, l).boards[key].pump != s.boards[s.tasks[l.task].key].pump
    {
      PumpAfter(s, l, key);
    }
  }

  /** The pump whose entry step `i` replaced is out of the map for good: in no later state has anything aborted it. */
  lemma {:induction false} ReplacedPumpLeaks(labels: seq<Label>, i: nat)
    requires Exec(labels).Some? && i < |labels| && OverwritesAt(labels, i)
    ensures var before := Exec(labels[..i]).value;
            Orphaned(Exec(labels).value, before.boards[before.tasks[labels[i].task].key].pump)
  {
    var front := Front(labels);
    if i == |front| {
      assert labels[..i] == front;
      RefcountsStayBounded(front);
      OrphanMade(Exec(front).value, labels[i]);
    } else {
      assert labels[..i] == front[..i];
      ReplacedPumpLeaks(front, i);
      var before := Exec(labels[..i]).value;
      OrphanStays(Exec(front).value, Last(labels), before.boards[before.tasks[labels[i].task].key].pump);
    }
  }
}
