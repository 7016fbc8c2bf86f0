/** A board's columns: positions kept by set-based updates, proved to be list operations. */
module Columns {
  import opened Positions

  datatype Result = Ok | NotFound | InvalidArgument | OutOfRange

  /** What adding `id` at request position `p` does to the list. */
  ghost predicate Added(t: Table, ids: seq<Id>, id: Id, p: int, t': Table, ids': seq<Id>)
    requires IsOrder(t, ids)
  {
    && IsOrder(t', ids')
    && ids' == (if p == 0 then ids + [id] else Insert(ids, CountBelow(t, ids, p), id))
    && (p != 0 ==> id in t' && t'[id] == p)
    && (NoTies(t) ==> NoTies(t'))
    && (IsNumbered(t, ids) ==>
          && ids' == (if p == 0 then ids + [id] else Insert(ids, Clamp(p, |ids|), id))
          && (IsNumbered(t', ids') <==> 0 <= p <= |ids|))
  }

  lemma AppendMakesNoTies(t: Table, x: Id, p: int)
    requires NoTies(t) && Below(t, p - 1)
    ensures NoTies(t[x := p])
  {
  }

  lemma AppendAdds(t: Table, ids: seq<Id>, id: Id, m: int)
    requires IsOrder(t, ids) && id !in t && Below(t, m) && (IsNumbered(t, ids) ==> m == |ids| - 1)
    ensures Added(t, ids, id, 0, t[id := m + 1], ids + [id])
  {
    AppendedIsOrder(t, ids, id, m + 1);
    if NoTies(t) {
      AppendMakesNoTies(t, id, m + 1);
    }
  }

  lemma InsertAdds(t: Table, ids: seq<Id>, id: Id, p: int)
    requires IsOrder(t, ids) && id !in t && p != 0
    ensures Added(t, ids, id, p, Inserted(t, id, p), Insert(ids, CountBelow(t, ids, p), id))
  {
    InsertedIsOrder(t, ids, id, p);
    if NoTies(t) {
      InsertMakesNoTies(t, id, p);
    }
    if IsNumbered(t, ids) {
      InsertNumbered(t, ids, id, p);
      NumberedCount(t, ids, p);
    }
  }

  /** What moving the `c`-th id to the 0-based `target` does to the list. */
  ghost predicate MovedTo(t: Table, ids: seq<Id>, c: nat, target: nat, t': Table, ids': seq<Id>)
    requires IsOrder(t, ids) && c < |ids| && Ascending(t, Without(ids, c))
  {
    && IsOrder(t', ids') && ids[c] in t' && t'[ids[c]] == target
    && (NoTies(t) ==> NoTies(t'))
    && ids' == Insert(Without(ids, c), CountBelow(t, Without(ids, c), LandingBound(t, ids[c], target)), ids[c])
    && (IsNumbered(t, ids) ==>
          && ids' == Insert(Without(ids, c), Clamp(target, |ids| - 1), ids[c])
          && (IsNumbered(t', ids') <==> target < |ids|))
  }

  lemma MoveMoves(t: Table, ids: seq<Id>, c: nat, target: nat)
    requires IsOrder(t, ids) && c < |ids|
    ensures Ascending(t, Without(ids, c))
    ensures var ids' := Insert(Without(ids, c), CountBelow(t, Without(ids, c), LandingBound(t, ids[c], target)), ids[c]);
            MovedTo(t, ids, c, target, Moved(t, ids[c], target), ids')
  {
    MovedIsOrder(t, ids, c, target);
    if NoTies(t) {
      MoveMakesNoTies(t, ids[c], target);
    }
    if IsNumbered(t, ids) {
      MoveNumbered(t, ids, c, target);
      LandingNumbered(t, ids, c, target);
    }
  }

  /** `MovedTo`, for the place where the id is. */
  ghost predicate MovesId(t: Table, ids: seq<Id>, id: Id, target: nat, t': Table, ids': seq<Id>)
  {
    && IsOrder(t, ids) && id in ids
    && var c := IndexOf(ids, id);
       Ascending(t, Without(ids, c)) && MovedTo(t, ids, c, target, t', ids')
  }

  lemma IdMoves(t: Table, ids: seq<Id>, id: Id, target: nat) returns (ids': seq<Id>)
    requires IsOrder(t, ids) && id in t
    ensures MovesId(t, ids, id, target, Moved(t, id, target), ids')
  {
    var c := IndexOf(ids, id);
    MoveMoves(t, ids, c, target);
    ids' := Insert(Without(ids, c), CountBelow(t, Without(ids, c), LandingBound(t, id, target)), id);
  }

  function IndexOf(ids: seq<Id>, x: Id): (c: nat)
    requires x in ids
    ensures c < |ids| && ids[c] == x
  {
    if ids[0] == x then 0 else 1 + IndexOf(ids[1..], x)
  }

  class ColumnTable {
    var pos: Table
    ghost var order: seq<Id>

    /** `order` is a list the positions may be read as; there always is one. */
    ghost predicate Valid()
      reads this
    {
      IsOrder(pos, order)
    }

    /** Positions are 0..n-1. */
    ghost predicate Numbered()
      reads this
    {
      IsNumbered(pos, order)
    }

    constructor ()
      ensures Valid() && Numbered() && order == []
    {
      pos, order := map[], [];
    }

    /** `COALESCE(MAX(position), -1)`. */
    method MaxPosition() returns (m: int)
      requires Valid()
      ensures Below(pos, m)
      ensures if pos == map[] then m == -1 else exists x :: x in pos && pos[x] == m
      ensures Numbered() ==> m == |order| - 1
    {
      m := -1;
      var ids := pos.Keys;
      if ids != {} {
        var x :| x in ids;
        m := pos[x];
      }
      while ids != {}
        invariant ids <= pos.Keys
        invariant forall x :: x in pos && x !in ids ==> pos[x] <= m
        invariant if pos == map[] then m == -1 else exists x :: x in pos && pos[x] == m
      {
        var x :| x in ids;
        if pos[x] > m {
          m := pos[x];
        }
        ids := ids - {x};
      }
      if Numbered() {
        NumberedMax(pos, order, m);
      }
    }

    /** Zero appends; any other position is used as it is, and whatever stands at or above it moves up.  No tie is made. */
    method AddColumn(id: Id, position: int) returns (r: Result)
      requires Valid() && id !in pos
      modifies this
      ensures Valid() && (r == Ok || r == OutOfRange)
      ensures r == OutOfRange <==> exists x :: x in old(pos) && old(pos)[x] >= MAX_I32 && (position == 0 || old(pos)[x] >= position)
      ensures r == Ok ==> Added(old(pos), old(order), id, position, pos, order)
      ensures r == Ok ==> pos.Keys == old(pos).Keys + {id}
      ensures r == Ok && position != 0 ==>
                pos[id] == position && forall x :: x in old(pos) ==> pos[x] == if old(pos)[x] >= position then old(pos)[x] + 1 else old(pos)[x]
      ensures r == Ok && position == 0 ==>
                && (forall x :: x in old(pos) ==> pos[x] == old(pos)[x] < pos[id])
                && if old(pos) == map[] then pos[id] == 0 else exists x :: x in old(pos) && pos[id] == old(pos)[x] + 1
      ensures r != Ok ==> pos == old(pos) && order == old(order)
    {
      if position == 0 {
        r := AppendColumn(id);
      } else {
        r := InsertColumn(id, position);
      }
    }

    method AppendColumn(id: Id) returns (r: Result)
      requires Valid() && id !in pos
      modifies this
      ensures Valid() && (r == Ok || r == OutOfRange)
      ensures r == OutOfRange <==> exists x :: x in old(pos) && old(pos)[x] >= MAX_I32
      ensures r == Ok ==> Added(old(pos), old(order), id, 0, pos, order)
      ensures r == Ok ==>
                && pos.Keys == old(pos).Keys + {id} && (forall x :: x in old(pos) ==> pos[x] == old(pos)[x] < pos[id])
                && if old(pos) == map[] then pos[id] == 0 else exists x :: x in old(pos) && pos[id] == old(pos)[x] + 1
      ensures r != Ok ==> pos == old(pos) && order == old(order)
    {
      var m := MaxPosition();
      if m >= MAX_I32 {
        return OutOfRange;
      }
      AppendAdds(pos, order, id, m);
      pos := pos[id := m + 1];
      order := order + [id];
      return Ok;
    }

    method InsertColumn(id: Id, position: int) returns (r: Result)
      requires Valid() && id !in pos && position != 0
      modifies this
      ensures Valid() && (r == Ok || r == OutOfRange)
      ensures r == OutOfRange <==> exists x :: x in old(pos) && old(pos)[x] >= MAX_I32 && old(pos)[x] >= position
      ensures r == Ok ==> Added(old(pos), old(order), id, position, pos, order)
      ensures r == Ok ==>
                && pos.Keys == old(pos).Keys + {id} && pos[id] == position
                && forall x :: x in old(pos) ==> pos[x] == if old(pos)[x] >= position then old(pos)[x] + 1 else old(pos)[x]
      ensures r != Ok ==> pos == old(pos) && order == old(order)
    {
      if exists x :: x in pos && pos[x] >= position && pos[x] >= MAX_I32 {
        return OutOfRange;
      }
      InsertAdds(pos, order, id, position);
      order := Insert(order, CountBelow(pos, order, position), id);
      pos := Inserted(pos, id, position);
      return Ok;
    }

    /** A 1-based target; the range between moves by one and the column takes the target, even past the end. */
    method MoveColumn(id: Id, toPosition: int) returns (r: Result)
      requires Valid()
      modifies this
      ensures Valid()
      ensures r == if toPosition < 1 then InvalidArgument else if id !in old(pos) then NotFound else Ok
      ensures r == Ok ==> MovesId(old(pos), old(order), id, toPosition - 1, pos, order)
      ensures r != Ok ==> pos == old(pos) && order == old(order)
    {
      if toPosition < 1 {
        return InvalidArgument;
      }
      var target := toPosition - 1;
      if id !in pos {
        return NotFound;
      }
      order := IdMoves(pos, order, id, target);
      pos := ShiftAndPlace(pos, id, target);
      return Ok;
    }

    /** The range UPDATE of a move in its direction, then the UPDATE of the moved column. */
    static method ShiftAndPlace(t: Table, id: Id, target: int) returns (r: Table)
      requires id in t
      ensures r == Moved(t, id, target)
      ensures r.Keys == t.Keys && r[id] == target
      ensures forall x :: x in t && x != id ==>
                r[x] == if t[id] < t[x] <= target then t[x] - 1 else if target <= t[x] < t[id] then t[x] + 1 else t[x]
    {
      r := t;
      var current := t[id];
      if current != target {
        if target > current {
          r := Shift(r, current + 1, target, -1);
        } else {
          r := Shift(r, target, current - 1, 1);
        }
        r := r[id := target];
      }
    }

    /** Deletes the column and renumbers the rest in the order they are read in, whatever gaps and ties there were. */
    method RemoveColumn(id: Id) returns (r: Result)
      requires Valid()
      modifies this
      ensures Valid() && (r == Ok || r == NotFound)
      ensures r == NotFound <==> id !in old(pos)
      ensures r == NotFound ==> pos == old(pos) && order == old(order)
      ensures r == Ok ==> Numbered() && IsOrder(old(pos) - {id}, order)
      ensures r == Ok && old(NoTies(pos)) ==> id in old(order) && order == Without(old(order), IndexOf(old(order), id))
    {
      if id !in pos {
        return NotFound;
      }
      ghost var c := IndexOf(order, id);
      WithoutIsOrder(pos, order, c);
      var ids := SelectOrdered(pos - {id});
      if NoTies(pos) {
        RemovalMakesNoTies(pos, id);
        OrderIsUnique(pos - {id}, ids, Without(order, c));
      }
      pos := ApplyOrder(pos - {id}, ids);
      order := ids;
      return Ok;
    }
  }
}
