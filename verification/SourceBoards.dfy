/** The source boards of an aggregated board: shift, upsert and renumber, or an in-memory remove and insert. */
module SourceBoards {
  import opened Common
  import opened Positions
  import opened Columns

  const MAX_U64_PLUS_1: int := 0x1_0000_0000_0000_0000

  /** `as usize` on a 32-bit integer: negative values wrap to huge ones. */
  function AsUsize(x: int): int
  {
    if x < 0 then x + MAX_U64_PLUS_1 else x
  }

  /** The ids before place `k`, then `x`, then the ids from place `k` on, with any old `x` left out. */
  function Put(ids: seq<Id>, k: nat, x: Id): seq<Id>
    requires k <= |ids|
  {
    Drop(ids[..k], x) + [x] + Drop(ids[k..], x)
  }

  function Drop(ids: seq<Id>, x: Id): (r: seq<Id>)
    ensures forall y :: y in r <==> y in ids && y != x
  {
    if ids == [] then [] else (if ids[0] == x then [] else [ids[0]]) + Drop(ids[1..], x)
  }

  lemma {:induction false} DropAbsent(ids: seq<Id>, x: Id)
    requires x !in ids
    ensures Drop(ids, x) == ids
  {
    if ids != [] {
      DropAbsent(ids[1..], x);
    }
  }

  lemma {:induction false} DropIsWithout(ids: seq<Id>, c: nat)
    requires Distinct(ids) && c < |ids|
    ensures Drop(ids, ids[c]) == Without(ids, c)
  {
    DistinctTail(ids);
    if c == 0 {
      DropAbsent(ids[1..], ids[0]);
      assert Without(ids, 0) == ids[1..];
    } else {
      DropIsWithout(ids[1..], c - 1);
      assert ids[c] == ids[1..][c - 1] && ids[c] in ids[1..];
      assert Without(ids, c) == [ids[0]] + Without(ids[1..], c - 1);
    }
  }

  lemma {:induction false} DropAscending(t: Table, ids: seq<Id>, x: Id)
    requires Ascending(t, ids)
    ensures Ascending(t, Drop(ids, x))
  {
    if ids != [] {
      AscendingSlices(t, ids, 1);
      DropAscending(t, ids[1..], x);
      HeadThen(t, ids, Drop(ids[1..], x));
      assert Drop(ids, x) == if ids[0] == x then Drop(ids[1..], x) else [ids[0]] + Drop(ids[1..], x);
    }
  }

  lemma HeadThen(t: Table, ids: seq<Id>, rest: seq<Id>)
    requires Ascending(t, ids) && ids != [] && Ascending(t, rest) && forall y :: y in rest ==> y in ids[1..]
    ensures Ascending(t, [ids[0]] + rest)
  {
    AscendingSlices(t, ids, 1);
    assert ids[0] in ids[..1];
    AscendingConcat(t, [ids[0]], rest);
  }

  lemma PutMembers(ids: seq<Id>, k: nat, x: Id, y: Id)
    requires k <= |ids|
    ensures y in Put(ids, k, x) <==> y == x || y in ids
  {
    assert ids == ids[..k] + ids[k..];
  }

  /** The shift keeps the order of any list of other ids, and leaves place `p` free. */
  lemma ShiftedAscending(t: Table, ids: seq<Id>, x: Id, p: int)
    requires Ascending(t, ids) && x !in ids
    ensures Ascending(Inserted(t, x, p), ids)
  {
    AscendingMap(t, Inserted(t, x, p), ids);
  }

  lemma PutAscending(r: Table, a: seq<Id>, b: seq<Id>, x: Id)
    requires Ascending(r, a) && Ascending(r, b) && x in r
    requires forall y :: y in a ==> r[y] < r[x]
    requires forall y :: y in b ==> r[x] < r[y]
    ensures Ascending(r, a + [x] + b)
  {
    AscendingConcat(r, a, [x]);
    AscendingConcat(r, a + [x], b);
  }

  /** After the shift and the upsert the table stands for `Put` at the number of rows below `p`, whether `x` was there or not. */
  lemma UpsertedIsOrder(t: Table, ids: seq<Id>, x: Id, p: int)
    requires IsOrder(t, ids)
    ensures IsOrder(Inserted(t, x, p), Put(ids, CountBelow(t, ids, p), x))
  {
    var k, r := CountBelow(t, ids, p), Inserted(t, x, p);
    CountCuts(t, ids, p);
    UpsertedAscending(t, ids, x, p, k);
    forall y
      ensures y in Put(ids, k, x) <==> y == x || y in ids
    {
      PutMembers(ids, k, x, y);
    }
  }

  lemma UpsertedAscending(t: Table, ids: seq<Id>, x: Id, p: int, k: nat)
    requires Ascending(t, ids) && Cuts(t, ids, p, k)
    ensures Ascending(Inserted(t, x, p), Put(ids, k, x))
  {
    AscendingSlices(t, ids, k);
    DropAscending(t, ids[..k], x);
    DropAscending(t, ids[k..], x);
    ShiftedAscending(t, Drop(ids[..k], x), x, p);
    ShiftedAscending(t, Drop(ids[k..], x), x, p);
    PutAscending(Inserted(t, x, p), Drop(ids[..k], x), Drop(ids[k..], x), x);
  }

  // ------------------------------------------------------------ reading by position, then age

  predicate Sooner(t: Table, added: map<Id, int>, x: Id, y: Id)
    requires x in t && y in t && t.Keys == added.Keys
  {
    t[x] < t[y] || (t[x] == t[y] && added[x] <= added[y])
  }

  /** `ids` is the table in `ORDER BY position, added_at`. */
  ghost predicate ByAge(t: Table, added: map<Id, int>, ids: seq<Id>)
  {
    && t.Keys == added.Keys && IsOrder(t, ids)
    && forall i, j {:trigger Sooner(t, added, ids[i], ids[j])} :: 0 <= i < j < |ids| ==> Sooner(t, added, ids[i], ids[j])
  }

  /** Reading by position, then age: whoever stands first has the smaller position, or the same one and is no younger. */
  lemma ReadOrder(t: Table, added: map<Id, int>, ids: seq<Id>)
    requires ByAge(t, added, ids)
    ensures (forall x :: x in t <==> x in ids) && forall i, j :: 0 <= i < j < |ids| ==> ids[i] != ids[j]
    ensures forall i, j :: 0 <= i < j < |ids| ==>
              && ids[i] in t && ids[j] in t && ids[i] in added && ids[j] in added
              && (t[ids[i]] < t[ids[j]] || (t[ids[i]] == t[ids[j]] && added[ids[i]] <= added[ids[j]]))
  {
    forall i, j | 0 <= i < j < |ids|
      ensures ids[i] in t && ids[j] in t && ids[i] in added && ids[j] in added
      ensures t[ids[i]] < t[ids[j]] || (t[ids[i]] == t[ids[j]] && added[ids[i]] <= added[ids[j]])
    {
      assert ids[i] in ids && ids[j] in ids;
      assert Sooner(t, added, ids[i], ids[j]);
    }
  }

  lemma {:induction false} Soonest(t: Table, added: map<Id, int>) returns (m: Id)
    requires t != map[] && t.Keys == added.Keys
    ensures m in t && forall y :: y in t ==> Sooner(t, added, m, y)
    decreases |t|
  {
    var z :| z in t;
    m := z;
    var rest := t - {z};
    if rest != map[] {
      Smaller(t, z);
      var first := Soonest(rest, added - {z});
      assert Sooner(rest, added - {z}, first, first);
      m := if Sooner(t, added, z, first) then z else first;
    }
    forall y | y in t
      ensures Sooner(t, added, m, y)
    {
      assert y == z || (y in rest && (rest != map[] ==> y in t - {z}));
    }
  }

  lemma SoonestIsLeast(t: Table, added: map<Id, int>, x: Id)
    requires t.Keys == added.Keys && x in t && forall y :: y in t ==> Sooner(t, added, x, y)
    ensures forall y :: y in t ==> t[x] <= t[y]
  {
    forall y | y in t
      ensures t[x] <= t[y]
    {
      assert Sooner(t, added, x, y);
    }
  }

  lemma StillSooner(t: Table, added: map<Id, int>, x: Id, rest: seq<Id>, i: nat, j: nat)
    requires t.Keys == added.Keys && ByAge(t - {x}, added - {x}, rest) && i < j < |rest|
    ensures rest[i] in t && rest[j] in t && Sooner(t, added, rest[i], rest[j])
  {
    assert rest[i] in rest && rest[j] in rest;
    assert Sooner(t - {x}, added - {x}, rest[i], rest[j]);
  }

  lemma SoonestFirst(t: Table, added: map<Id, int>, x: Id, rest: seq<Id>)
    requires t.Keys == added.Keys && x in t && (forall y :: y in t ==> Sooner(t, added, x, y)) && ByAge(t - {x}, added - {x}, rest)
    ensures ByAge(t, added, [x] + rest)
  {
    SoonestIsLeast(t, added, x);
    LeastFirst(t, x, rest);
    forall i, j | 0 <= i < j < |[x] + rest|
      ensures Sooner(t, added, ([x] + rest)[i], ([x] + rest)[j])
    {
      SoonerInFront(t, added, x, rest, i, j);
    }
  }

  lemma SoonerInFront(t: Table, added: map<Id, int>, x: Id, rest: seq<Id>, i: nat, j: nat)
    requires t.Keys == added.Keys && x in t && (forall y :: y in t ==> Sooner(t, added, x, y)) && ByAge(t - {x}, added - {x}, rest)
    requires i < j < |[x] + rest|
    ensures ([x] + rest)[i] in t && ([x] + rest)[j] in t && Sooner(t, added, ([x] + rest)[i], ([x] + rest)[j])
  {
    assert rest[j - 1] in rest;
    if i > 0 {
      StillSooner(t, added, x, rest, i - 1, j - 1);
    }
  }

  method SelectByAge(t: Table, added: map<Id, int>) returns (ids: seq<Id>)
    requires t.Keys == added.Keys
    ensures ByAge(t, added, ids)
    decreases |t|
  {
    if t == map[] {
      return [];
    }
    ghost var m := Soonest(t, added);
    assert m in t && forall y :: y in t ==> Sooner(t, added, m, y);
    var x :| x in t && forall y :: y in t ==> Sooner(t, added, x, y);
    Smaller(t, x);
    var rest := SelectByAge(t - {x}, added - {x});
    SoonestFirst(t, added, x, rest);
    ids := [x] + rest;
  }

  // ------------------------------------------------------------ the handlers

  class SourceTable {
    var pos: Table
    var added: map<Id, int>
    ghost var order: seq<Id>

    /** `order` is a list the positions may be read as; there always is one. */
    ghost predicate Valid()
      reads this
    {
      IsOrder(pos, order) && added.Keys == pos.Keys
    }

    ghost predicate Numbered()
      reads this
    {
      IsNumbered(pos, order)
    }

    constructor ()
      ensures Valid() && Numbered() && order == []
    {
      pos, added, order := map[], map[], [];
    }

    /**
     Adds a source board or moves one already there.  The request position is a
     raw position when positive, otherwise the row count.  Whatever the positions
     were, ties included, they are 0..n-1 afterwards, in the order in which the shifted
     table reads; without ties that is the old list with the board put in, and when
     the positions were 0..n-1 it lands at the request position clamped to the length,
     or at the end.
     */
    method AddSourceBoard(board: Id, requested: int, now: int)
      requires Valid()
      modifies this
      ensures Valid() && Numbered()
      ensures AddedBoard(old(pos), old(order), board, requested, added, order)
      ensures added == if board in old(pos) then old(added) else old(added)[board := now]
    {
      ghost var t, ids := pos, order;
      var p := if requested > 0 then requested else |pos|;
      UpsertAt(board, p, now);
      Normalise();
      ReadAfterAdd(t, ids, board, requested, added, order);
    }

    /** The shift, and the insert that only moves a board already there. */
    method UpsertAt(board: Id, p: int, now: int)
      requires added.Keys == pos.Keys
      modifies this`pos, this`added
      ensures pos == Inserted(old(pos), board, p) && added.Keys == pos.Keys
      ensures added == if board in old(pos) then old(added) else old(added)[board := now]
    {
      if board !in pos {
        added := added[board := now];
      }
      pos := Inserted(pos, board, p);
    }

    /** Reads the rows by position and age and writes 0..n-1 back. */
    method Normalise()
      requires pos.Keys == added.Keys
      modifies this`pos, this`order
      ensures Valid() && Numbered() && ByAge(old(pos), added, order)
    {
      var ids := SelectByAge(pos, added);
      pos := ApplyOrder(pos, ids);
      order := ids;
    }

    /** Removing a board that is not there only renumbers. */
    method RemoveSourceBoard(board: Id)
      requires Valid()
      modifies this
      ensures Valid() && Numbered()
      ensures ByAge(old(pos) - {board}, added, order) && added == old(added) - {board}
      ensures old(NoTies(pos)) ==> order == Drop(old(order), board)
    {
      ghost var t, ids := pos, order;
      pos, added := pos - {board}, added - {board};
      Normalise();
      ReadAfterRemoval(t, ids, board, added, order);
    }

    /** Takes the board out of the list as read and puts it back at the target, at most at the end; a negative target is the end. */
    method MoveSourceBoard(board: Id, toPosition: int) returns (r: Result, ghost read: seq<Id>)
      requires Valid() && -MAX_I32 - 1 <= toPosition <= MAX_I32 && |pos| <= MAX_I32
      modifies this`pos, this`order
      ensures Valid()
      ensures r == if board in old(pos) then Ok else NotFound
      ensures ByAge(old(pos), added, read) && (old(NoTies(pos)) ==> read == old(order))
      ensures r == Ok ==>
                && Numbered() && board in read
                && var rest := Drop(read, board);
                   var k := if toPosition < 0 || toPosition > |rest| then |rest| else toPosition;
                   order == rest[..k] + [board] + rest[k..]
      ensures r != Ok ==> pos == old(pos) && order == old(order)
    {
      var ids := SelectByAge(pos, added);
      read := ids;
      if NoTies(pos) {
        OrderIsUnique(pos, ids, order);
      }
      if board !in ids {
        return NotFound, read;
      }
      OrderSize(pos, ids);
      MovedList(pos, ids, board, toPosition);
      MovedByIndex(Drop(ids, board), toPosition, board);
      WriteOrder(Reordered(ids, board, toPosition));
      return Ok, read;
    }

    method WriteOrder(ids: seq<Id>)
      requires Distinct(ids) && (forall x :: x in pos <==> x in ids) && pos.Keys == added.Keys
      modifies this`pos, this`order
      ensures Valid() && Numbered() && order == ids
    {
      pos := ApplyOrder(pos, ids);
      order := ids;
    }
  }

  lemma ReadAfterRemoval(t: Table, ids: seq<Id>, board: Id, added: map<Id, int>, read: seq<Id>)
    requires IsOrder(t, ids) && ByAge(t - {board}, added, read)
    ensures NoTies(t) ==> read == Drop(ids, board)
  {
    if NoTies(t) {
      RemovalMakesNoTies(t, board);
      DropIsOrder(t, ids, board);
      OrderIsUnique(t - {board}, read, Drop(ids, board));
    }
  }

  /** Where an added board goes: the request position if positive, otherwise after everything. */
  function AddAt(t: Table, requested: int): int
  {
    if requested > 0 then requested else |t|
  }

  /**
   What adding a board does: the list is the shifted and upserted table as it reads;
   without ties the old list with the board put in; from 0..n-1 at the clamped place.
   */
  ghost predicate AddedBoard(t: Table, ids: seq<Id>, board: Id, requested: int, added: map<Id, int>, ids': seq<Id>)
  {
    && IsOrder(t, ids) && ByAge(Inserted(t, board, AddAt(t, requested)), added, ids')
    && (NoTies(t) ==> ids' == Put(ids, CountBelow(t, ids, AddAt(t, requested)), board))
    && (IsNumbered(t, ids) ==> ids' == Put(ids, if requested > 0 then Clamp(requested, |ids|) else |ids|, board))
  }

  lemma ReadAfterAdd(t: Table, ids: seq<Id>, board: Id, requested: int, added: map<Id, int>, read: seq<Id>)
    requires IsOrder(t, ids) && ByAge(Inserted(t, board, AddAt(t, requested)), added, read)
    ensures AddedBoard(t, ids, board, requested, added, read)
  {
    var p := AddAt(t, requested);
    AddedToNumbered(t, ids, requested);
    if NoTies(t) {
      UpsertedIsOrder(t, ids, board, p);
      InsertMakesNoTies(t, board, p);
      OrderIsUnique(Inserted(t, board, p), read, Put(ids, CountBelow(t, ids, p), board));
    }
  }

  lemma AddedToNumbered(t: Table, ids: seq<Id>, requested: int)
    requires IsOrder(t, ids)
    ensures IsNumbered(t, ids) ==>
              NoTies(t) && CountBelow(t, ids, AddAt(t, requested)) == if requested > 0 then Clamp(requested, |ids|) else |ids|
  {
    if IsNumbered(t, ids) {
      NumberedHasNoTies(t, ids);
      NumberedCount(t, ids, AddAt(t, requested));
      OrderSize(t, ids);
    }
  }

  lemma DropIsOrder(t: Table, ids: seq<Id>, x: Id)
    requires IsOrder(t, ids)
    ensures IsOrder(t - {x}, Drop(ids, x))
  {
    DropAscending(t, ids, x);
    AscendingMap(t, t - {x}, Drop(ids, x));
  }

  /** `remove` at the board's index, then `insert` at the target or at the end. */
  function Reordered(ids: seq<Id>, board: Id, toPosition: int): seq<Id>
    requires board in ids && -MAX_I32 - 1 <= toPosition
  {
    var rest := Without(ids, IndexOf(ids, board));
    Insert(rest, if AsUsize(toPosition) < |rest| then AsUsize(toPosition) else |rest|, board)
  }

  /** Where the board goes among the others. */
  function MoveTarget(n: nat, toPosition: int): (k: nat)
    ensures k <= n
  {
    if toPosition < 0 then n else Clamp(toPosition, n)
  }

  /** The move, by index: a negative target or one past the end is the end. */
  lemma MovedByIndex(rest: seq<Id>, toPosition: int, board: Id)
    ensures var k := if toPosition < 0 || toPosition > |rest| then |rest| else toPosition;
            Insert(rest, MoveTarget(|rest|, toPosition), board) == rest[..k] + [board] + rest[k..]
  {
  }

  lemma TargetIsClamped(n: nat, toPosition: int)
    requires n <= MAX_I32 && -MAX_I32 - 1 <= toPosition
    ensures (if AsUsize(toPosition) < n then AsUsize(toPosition) else n) == MoveTarget(n, toPosition)
  {
  }

  /** The in-memory reorder is the list move to the clamped place. */
  lemma ReorderedIs(ids: seq<Id>, board: Id, toPosition: int, c: nat)
    requires Distinct(ids) && board in ids && c == IndexOf(ids, board) && |ids| <= MAX_I32 && -MAX_I32 - 1 <= toPosition
    ensures Drop(ids, board) == Without(ids, c)
    ensures Reordered(ids, board, toPosition) == Insert(Without(ids, c), MoveTarget(|ids| - 1, toPosition), board)
  {
    DropIsWithout(ids, c);
    TargetIsClamped(|ids| - 1, toPosition);
  }

  lemma MovedList(t: Table, ids: seq<Id>, board: Id, toPosition: int)
    requires IsOrder(t, ids) && board in ids && |ids| <= MAX_I32 && -MAX_I32 - 1 <= toPosition
    ensures var rest := Drop(ids, board); Reordered(ids, board, toPosition) == Insert(rest, MoveTarget(|rest|, toPosition), board)
    ensures Distinct(Reordered(ids, board, toPosition))
    ensures forall y :: y in Reordered(ids, board, toPosition) <==> y in t
  {
    var c := IndexOf(ids, board);
    OrderIsDistinct(t, ids);
    ReorderedIs(ids, board, toPosition, c);
    PutBack(t, ids, c, MoveTarget(|ids| - 1, toPosition));
  }

  lemma OrderIsDistinct(t: Table, ids: seq<Id>)
    requires IsOrder(t, ids)
    ensures Distinct(ids)
  {
  }

  lemma PutBack(t: Table, ids: seq<Id>, c: nat, k: nat)
    requires IsOrder(t, ids) && c < |ids| && k < |ids|
    ensures var all := Insert(Without(ids, c), k, ids[c]); Distinct(all) && forall y :: y in all <==> y in t
  {
    OthersDistinct(t, ids, c);
    InsertDistinct(Without(ids, c), k, ids[c]);
  }

  lemma OthersDistinct(t: Table, ids: seq<Id>, c: nat)
    requires IsOrder(t, ids) && c < |ids|
    ensures Distinct(Without(ids, c)) && forall y :: y in Without(ids, c) <==> y in t && y != ids[c]
  {
    WithoutIsOrder(t, ids, c);
  }

  lemma InsertDistinct(ids: seq<Id>, k: nat, x: Id)
    requires Distinct(ids) && x !in ids && k <= |ids|
    ensures Distinct(Insert(ids, k, x))
    ensures forall y :: y in Insert(ids, k, x) <==> y == x || y in ids
  {
    var all := Insert(ids, k, x);
    assert forall i :: 0 <= i < |all| ==> all[i] == if i < k then ids[i] else if i == k then x else ids[i - 1];
    forall y
      ensures y in all <==> y == x || y in ids
    {
      InsertMembers(ids, k, x, y);
    }
  }

  lemma {:induction false} OrderSize(t: Table, ids: seq<Id>)
    requires IsOrder(t, ids)
    ensures |t| == |ids|
    decreases |ids|
  {
    if ids != [] {
      TailIsOrder(t, ids);
      OrderSize(t - {ids[0]}, ids[1..]);
      assert ids[0] in t && t.Keys == (t - {ids[0]}).Keys + {ids[0]};
      assert |t| == |t.Keys| && |t - {ids[0]}| == |(t - {ids[0]}).Keys|;
    } else {
      assert t == map[];
    }
  }

  /** The closed form of an add on 0..n-1, for a new board. */
  lemma PutNew(ids: seq<Id>, p: nat, x: Id)
    requires p <= |ids| && x !in ids
    ensures Put(ids, p, x) == Insert(ids, p, x)
  {
    assert ids == ids[..p] + ids[p..];
    DropAbsent(ids[..p], x);
    DropAbsent(ids[p..], x);
  }

  lemma WithoutInFront(a: seq<Id>, b: seq<Id>, c: nat)
    requires c < |a|
    ensures Without(a + b, c) == Without(a, c) + b
  {
  }

  lemma WithoutBehind(a: seq<Id>, b: seq<Id>, c: nat)
    requires c < |b|
    ensures Without(a + b, |a| + c) == a + Without(b, c)
  {
    assert (a + b)[..|a| + c] == a + b[..c];
    assert (a + b)[|a| + c + 1..] == b[c + 1..];
  }

  lemma InsertAtSeam(a: seq<Id>, b: seq<Id>, x: Id)
    ensures Insert(a + b, |a|, x) == a + [x] + b
  {
    assert (a + b)[..|a|] == a && (a + b)[|a|..] == b;
  }

  lemma NotOnTheOtherSide(t: Table, ids: seq<Id>, p: nat, c: nat)
    requires Ascending(t, ids) && p <= |ids| && c < |ids|
    ensures if c < p then ids[c] !in ids[p..] else ids[c] !in ids[..p]
  {
    AscendingSlices(t, ids, p);
    if c < p {
      assert ids[..p][c] == ids[c];
    } else {
      assert ids[p..][c - p] == ids[c];
    }
  }

  lemma PartAscending(t: Table, ids: seq<Id>, p: nat)
    requires Ascending(t, ids) && p <= |ids|
    ensures Ascending(t, ids[..p]) && Ascending(t, ids[p..])
  {
  }

  lemma PutFromFront(t: Table, ids: seq<Id>, a: seq<Id>, b: seq<Id>, c: nat)
    requires ids == a + b && Ascending(t, a) && c < |a| && ids[c] !in b
    ensures Drop(a, ids[c]) + [ids[c]] + Drop(b, ids[c]) == Insert(Without(ids, c), |a| - 1, ids[c])
  {
    DropIsWithout(a, c);
    DropAbsent(b, a[c]);
    WithoutInFront(a, b, c);
    InsertAtSeam(Without(a, c), b, a[c]);
  }

  lemma PutFromBehind(t: Table, ids: seq<Id>, a: seq<Id>, b: seq<Id>, c: nat)
    requires ids == a + b && Ascending(t, b) && |a| <= c < |ids| && ids[c] !in a
    ensures Drop(a, ids[c]) + [ids[c]] + Drop(b, ids[c]) == Insert(Without(ids, c), |a|, ids[c])
  {
    var d := c - |a|;
    assert ids[c] == b[d];
    DropIsWithout(b, d);
    DropAbsent(a, b[d]);
    WithoutBehind(a, b, d);
    InsertAtSeam(a, Without(b, d), b[d]);
  }

  lemma Halves(ids: seq<Id>, p: nat)
    requires p <= |ids|
    ensures ids == ids[..p] + ids[p..]
  {
  }

  /** The same for a board already at place `c`: it moves, and the ids it jumps over close up. */
  lemma PutExisting(t: Table, ids: seq<Id>, p: nat, c: nat)
    requires Ascending(t, ids) && p <= |ids| && c < |ids|
    ensures Put(ids, p, ids[c]) == Insert(Without(ids, c), if c < p then p - 1 else p, ids[c])
  {
    Halves(ids, p);
    NotOnTheOtherSide(t, ids, p, c);
    PartAscending(t, ids, p);
    if c < p {
      PutFromFront(t, ids, ids[..p], ids[p..], c);
    } else {
      PutFromBehind(t, ids, ids[..p], ids[p..], c);
    }
  }
}
