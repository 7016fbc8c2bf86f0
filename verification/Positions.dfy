/**
 Ordered lists kept as a position column.  A table maps an id to its position;
 `IsOrder` says that reading it by position may return this list, ties falling
 anyhow; `IsNumbered` that the positions are 0, 1, …, n-1.
 */
module Positions {
  import opened Common

  type Id = nat

  type Table = map<Id, int>

  const MAX_I32: int := 0x7FFF_FFFF

  ghost predicate Ascending(t: Table, ids: seq<Id>)
  {
    && (forall x :: x in ids ==> x in t) && Distinct(ids)
    && (forall i, j :: 0 <= i < j < |ids| ==> t[ids[i]] <= t[ids[j]])
  }

  /** `ids` lists the table's ids once each, by ascending position. */
  ghost predicate IsOrder(t: Table, ids: seq<Id>)
  {
    Ascending(t, ids) && forall x :: x in t ==> x in ids
  }

  /** No two ids share a position. */
  ghost predicate NoTies(t: Table)
  {
    forall x, y :: x in t && y in t && x != y ==> t[x] != t[y]
  }

  ghost predicate IsNumbered(t: Table, ids: seq<Id>)
  {
    IsOrder(t, ids) && forall i :: 0 <= i < |ids| ==> t[ids[i]] == i
  }

  function Insert(ids: seq<Id>, k: nat, x: Id): seq<Id>
    requires k <= |ids|
  {
    ids[..k] + [x] + ids[k..]
  }

  function Without(ids: seq<Id>, c: nat): seq<Id>
    requires c < |ids|
  {
    ids[..c] + ids[c + 1..]
  }

  function Clamp(x: int, n: nat): (k: nat)
    ensures k <= n
  {
    if x < 0 then 0 else if x > n then n else x
  }

  /** How many leading ids stand at a position below `p`. */
  function CountBelow(t: Table, ids: seq<Id>, p: int): (k: nat)
    requires forall x :: x in ids ==> x in t
    ensures k <= |ids|
  {
    if ids != [] && t[ids[0]] < p then 1 + CountBelow(t, ids[1..], p) else 0
  }

  /** `k` cuts the list into the ids below `p` and the rest. */
  ghost predicate Cuts(t: Table, ids: seq<Id>, p: int, k: nat)
    requires Ascending(t, ids)
  {
    && k <= |ids|
    && (forall y :: y in ids[..k] ==> t[y] < p)
    && (forall y :: y in ids[k..] ==> t[y] >= p)
  }

  lemma {:induction false} CountCuts(t: Table, ids: seq<Id>, p: int)
    requires Ascending(t, ids)
    ensures Cuts(t, ids, p, CountBelow(t, ids, p))
  {
    if ids != [] && t[ids[0]] < p {
      CountCuts(t, ids[1..], p);
      var k := CountBelow(t, ids, p);
      assert ids[..k] == [ids[0]] + ids[1..][..k - 1] && ids[k..] == ids[1..][k - 1..];
    } else if ids != [] {
      forall y | y in ids
        ensures t[y] >= p
      {
        var i :| 0 <= i < |ids| && ids[i] == y;
        assert t[ids[0]] <= t[ids[i]];
      }
    }
  }

  /** The cut is where the positions cross `p`. */
  lemma CountIs(t: Table, ids: seq<Id>, p: int, k: nat)
    requires Ascending(t, ids) && k <= |ids|
    requires k < |ids| ==> ids[k] in t && t[ids[k]] >= p
    requires k > 0 ==> ids[k - 1] in t && t[ids[k - 1]] < p
    ensures CountBelow(t, ids, p) == k
  {
    CountCuts(t, ids, p);
    var n := CountBelow(t, ids, p);
    assert n < |ids| ==> ids[n] in ids[n..];
    assert n > 0 ==> ids[n - 1] in ids[..n];
  }

  lemma NumberedCount(t: Table, ids: seq<Id>, p: int)
    requires IsNumbered(t, ids)
    ensures CountBelow(t, ids, p) == Clamp(p, |ids|)
  {
    assert forall i :: 0 <= i < |ids| ==> ids[i] in ids;
    CountIs(t, ids, p, Clamp(p, |ids|));
  }

  // ------------------------------------------------------------ ascending lists

  lemma AscendingConcat(t: Table, a: seq<Id>, b: seq<Id>)
    requires Ascending(t, a) && Ascending(t, b)
    requires forall y, z :: y in a && z in b ==> t[y] <= t[z] && y != z
    ensures Ascending(t, a + b)
  {
  }

  lemma AscendingSlices(t: Table, ids: seq<Id>, k: nat)
    requires Ascending(t, ids) && k <= |ids|
    ensures Ascending(t, ids[..k]) && Ascending(t, ids[k..])
    ensures forall y, z :: y in ids[..k] && z in ids[k..] ==> t[y] <= t[z] && y != z
  {
  }

  /** A change of positions that keeps the order of the ids in a list keeps the list ascending. */
  lemma AscendingMap(t: Table, r: Table, ids: seq<Id>)
    requires Ascending(t, ids) && forall y :: y in ids ==> y in r
    requires forall y, z :: y in ids && z in ids && t[y] <= t[z] ==> r[y] <= r[z]
    ensures Ascending(r, ids)
  {
  }

  /** Cutting an ascending list in two and putting `x` in between. */
  lemma InsertAscending(r: Table, ids: seq<Id>, k: nat, x: Id)
    requires Ascending(r, ids) && k <= |ids| && x in r && x !in ids
    requires forall y :: y in ids[..k] ==> r[y] <= r[x]
    requires forall y :: y in ids[k..] ==> r[x] <= r[y]
    ensures Ascending(r, Insert(ids, k, x))
  {
    AscendingSlices(r, ids, k);
    AscendingConcat(r, ids[..k], [x]);
    AscendingConcat(r, ids[..k] + [x], ids[k..]);
  }

  lemma InsertMembers(ids: seq<Id>, k: nat, x: Id, y: Id)
    requires k <= |ids|
    ensures y in Insert(ids, k, x) <==> y == x || y in ids
  {
    assert ids == ids[..k] + ids[k..];
  }

  lemma WithoutMembers(t: Table, ids: seq<Id>, c: nat, y: Id)
    requires Ascending(t, ids) && c < |ids|
    ensures y in Without(ids, c) <==> y in ids && y != ids[c]
  {
    assert ids == ids[..c] + [ids[c]] + ids[c + 1..];
    AscendingSlices(t, ids, c);
    AscendingSlices(t, ids, c + 1);
    assert ids[c] in ids[c..] && ids[c] in ids[..c + 1];
  }

  lemma WithoutIsOrder(t: Table, ids: seq<Id>, c: nat)
    requires IsOrder(t, ids) && c < |ids|
    ensures Ascending(t, Without(ids, c)) && IsOrder(t - {ids[c]}, Without(ids, c))
  {
    AscendingSlices(t, ids, c);
    AscendingSlices(t, ids, c + 1);
    assert ids[c + 1..] == ids[c..][1..];
    AscendingConcat(t, ids[..c], ids[c + 1..]);
    forall y
      ensures y in Without(ids, c) <==> y in ids && y != ids[c]
    {
      WithoutMembers(t, ids, c, y);
    }
    AscendingMap(t, t - {ids[c]}, Without(ids, c));
  }

  lemma HeadsAgree(t: Table, a: seq<Id>, b: seq<Id>)
    requires IsOrder(t, a) && IsOrder(t, b) && NoTies(t) && a != []
    ensures b != [] && a[0] == b[0]
  {
    assert a[0] in t;
    var j :| 0 <= j < |b| && b[j] == a[0];
    assert b[0] in t;
    var i :| 0 <= i < |a| && a[i] == b[0];
  }

  lemma TailIsOrder(t: Table, a: seq<Id>)
    requires IsOrder(t, a) && a != []
    ensures IsOrder(t - {a[0]}, a[1..])
  {
    WithoutIsOrder(t, a, 0);
    assert Without(a, 0) == a[1..];
  }

  lemma TailsAgree(t: Table, a: seq<Id>, b: seq<Id>)
    requires IsOrder(t, a) && IsOrder(t, b) && NoTies(t) && a != []
    ensures b != [] && a[0] == b[0] && a[0] in t && NoTies(t - {a[0]})
    ensures IsOrder(t - {a[0]}, a[1..]) && IsOrder(t - {a[0]}, b[1..])
  {
    HeadsAgree(t, a, b);
    TailIsOrder(t, a);
    TailIsOrder(t, b);
  }

  lemma SameSeq(a: seq<Id>, b: seq<Id>)
    requires a != [] && b != [] && a[0] == b[0] && a[1..] == b[1..]
    ensures a == b
  {
    assert a == [a[0]] + a[1..] && b == [b[0]] + b[1..];
  }

  /** A table without ties stands for one list only. */
  lemma {:induction false} OrderIsUnique(t: Table, a: seq<Id>, b: seq<Id>)
    requires IsOrder(t, a) && IsOrder(t, b) && NoTies(t)
    ensures a == b
    decreases |a|
  {
    if a != [] {
      TailsAgree(t, a, b);
      OrderIsUnique(t - {a[0]}, a[1..], b[1..]);
      SameSeq(a, b);
    } else if b != [] {
      HeadsAgree(t, b, a);
    }
  }

  /** If every other id is numbered around place `k`, the whole is numbered exactly when `x` is at `k`. */
  lemma NumberedInsert(r: Table, rest: seq<Id>, k: nat, x: Id)
    requires k <= |rest| && IsOrder(r, Insert(rest, k, x))
    requires forall i :: 0 <= i < |rest| ==> rest[i] in r && r[rest[i]] == if i < k then i else i + 1
    ensures x in r && (IsNumbered(r, Insert(rest, k, x)) <==> r[x] == k)
  {
    var all := Insert(rest, k, x);
    assert all[k] == x;
    forall i | 0 <= i < |all| && i != k
      ensures r[all[i]] == i
    {
      assert all[i] == rest[if i < k then i else i - 1];
    }
  }

  // ------------------------------------------------------------ insert

  /** The set-based UPDATE: every position in `lo..hi` moves by `delta`. */
  function Shift(t: Table, lo: int, hi: int, delta: int): (r: Table)
    ensures r.Keys == t.Keys
  {
    map x | x in t :: if lo <= t[x] <= hi then t[x] + delta else t[x]
  }

  predicate Below(t: Table, top: int)
  {
    forall x :: x in t ==> t[x] <= top
  }

  /** Positions at or above `p` move up by one and `x` goes to `p`. */
  function Inserted(t: Table, x: Id, p: int): (r: Table)
    ensures r.Keys == t.Keys + {x}
  {
    (map y | y in t :: if t[y] >= p then t[y] + 1 else t[y])[x := p]
  }

  lemma InsertedIsOrder(t: Table, ids: seq<Id>, x: Id, p: int)
    requires IsOrder(t, ids) && x !in t
    ensures IsOrder(Inserted(t, x, p), Insert(ids, CountBelow(t, ids, p), x))
  {
    var k, r := CountBelow(t, ids, p), Inserted(t, x, p);
    CountCuts(t, ids, p);
    AscendingMap(t, r, ids);
    InsertAscending(r, ids, k, x);
    forall y
      ensures y in Insert(ids, k, x) <==> y == x || y in ids
    {
      InsertMembers(ids, k, x, y);
    }
  }

  /** From 0..n-1, an insert gives 0..n exactly when the requested position is in 0..n; the list is the list insert at the clamped index. */
  lemma InsertNumbered(t: Table, ids: seq<Id>, x: Id, p: int)
    requires IsNumbered(t, ids) && x !in t
    ensures var ids' := Insert(ids, Clamp(p, |ids|), x);
            && IsOrder(Inserted(t, x, p), ids')
            && (IsNumbered(Inserted(t, x, p), ids') <==> 0 <= p <= |ids|)
  {
    NumberedCount(t, ids, p);
    InsertedIsOrder(t, ids, x, p);
    forall i | 0 <= i < |ids|
      ensures ids[i] in t && ids[i] != x && t[ids[i]] == i
    {
      assert ids[i] in ids;
    }
    NumberedInsert(Inserted(t, x, p), ids, Clamp(p, |ids|), x);
  }

  lemma AppendedIsOrder(t: Table, ids: seq<Id>, x: Id, p: int)
    requires IsOrder(t, ids) && x !in t && Below(t, p - 1)
    ensures IsOrder(t[x := p], ids + [x])
    ensures IsNumbered(t, ids) && p == |ids| ==> IsNumbered(t[x := p], ids + [x])
  {
    var r := t[x := p];
    AscendingMap(t, r, ids);
    AscendingConcat(r, ids, [x]);
  }

  // ------------------------------------------------------------ move

  /** The two range shifts of a move, and the place of the moved id. */
  function Moved(t: Table, x: Id, target: int): (r: Table)
    requires x in t
    ensures r.Keys == t.Keys
  {
    var current := t[x];
    if current == target then t
    else if target > current then Shift(t, current + 1, target, -1)[x := target]
    else Shift(t, target, current - 1, 1)[x := target]
  }

  /** The other ids that end up before the moved one stand below this position. */
  function LandingBound(t: Table, x: Id, target: int): int
    requires x in t
  {
    if target > t[x] then target + 1 else target
  }

  /** A move shifts the others without changing their order, and puts the moved id before or after each of them. */
  lemma MovedOther(t: Table, x: Id, target: int, y: Id, z: Id)
    requires x in t && y in t && z in t && y != x && z != x
    ensures var r := Moved(t, x, target);
            && r[x] == target
            && (t[y] <= t[z] ==> r[y] <= r[z])
            && (if t[y] < LandingBound(t, x, target) then r[y] < target else target <= r[y])
  {
  }

  lemma MovedOthers(t: Table, rest: seq<Id>, x: Id, target: int)
    requires x in t && Ascending(t, rest) && x !in rest
    ensures var r, k := Moved(t, x, target), CountBelow(t, rest, LandingBound(t, x, target));
            Ascending(r, rest) && Ascending(r, Insert(rest, k, x))
  {
    var r, k := Moved(t, x, target), CountBelow(t, rest, LandingBound(t, x, target));
    forall y, z | y in rest && z in rest && t[y] <= t[z]
      ensures r[y] <= r[z]
    {
      MovedOther(t, x, target, y, z);
    }
    AscendingMap(t, r, rest);
    CountCuts(t, rest, LandingBound(t, x, target));
    assert rest == rest[..k] + rest[k..];
    forall y | y in rest[..k]
      ensures r[y] <= r[x]
    {
      MovedOther(t, x, target, y, y);
    }
    forall y | y in rest[k..]
      ensures r[x] <= r[y]
    {
      MovedOther(t, x, target, y, y);
    }
    InsertAscending(r, rest, k, x);
  }

  /** For any table and target the moved table stands for the list with the id taken out and put back; the others keep their order. */
  lemma MovedIsOrder(t: Table, ids: seq<Id>, c: nat, target: int)
    requires IsOrder(t, ids) && c < |ids|
    ensures Ascending(t, Without(ids, c))
    ensures var x, rest := ids[c], Without(ids, c);
            IsOrder(Moved(t, x, target), Insert(rest, CountBelow(t, rest, LandingBound(t, x, target)), x))
  {
    var x, rest := ids[c], Without(ids, c);
    WithoutIsOrder(t, ids, c);
    OthersStandElsewhere(t, ids, c);
    MovedOthers(t, rest, x, target);
    forall y | y in t
      ensures y in Insert(rest, CountBelow(t, rest, LandingBound(t, x, target)), x)
    {
      InsertMembers(rest, CountBelow(t, rest, LandingBound(t, x, target)), x, y);
      WithoutMembers(t, ids, c, y);
    }
  }

  lemma OthersStandElsewhere(t: Table, ids: seq<Id>, c: nat)
    requires IsOrder(t, ids) && c < |ids|
    ensures ids[c] !in Without(ids, c) && forall y :: y in Without(ids, c) ==> y in t && y != ids[c]
  {
    forall y
      ensures y in Without(ids, c) <==> y in ids && y != ids[c]
    {
      WithoutMembers(t, ids, c, y);
    }
  }

  /** No operation makes a tie where there was none. */
  lemma InsertMakesNoTies(t: Table, x: Id, p: int)
    requires NoTies(t)
    ensures NoTies(Inserted(t, x, p))
  {
  }

  lemma MoveMakesNoTies(t: Table, x: Id, target: int)
    requires NoTies(t) && x in t
    ensures NoTies(Moved(t, x, target))
  {
  }

  lemma RemovalMakesNoTies(t: Table, x: Id)
    requires NoTies(t)
    ensures NoTies(t - {x})
  {
  }

  lemma LandingNumbered(t: Table, ids: seq<Id>, c: nat, target: nat)
    requires IsNumbered(t, ids) && c < |ids|
    ensures Ascending(t, Without(ids, c))
    ensures CountBelow(t, Without(ids, c), LandingBound(t, ids[c], target)) == Clamp(target, |ids| - 1)
  {
    var rest, bound, k := Without(ids, c), LandingBound(t, ids[c], target), Clamp(target, |ids| - 1);
    WithoutIsOrder(t, ids, c);
    if k < |rest| {
      RestNumbered(t, ids, c, k);
    }
    if k > 0 {
      RestNumbered(t, ids, c, k - 1);
    }
    CountIs(t, rest, bound, k);
  }

  lemma RestNumbered(t: Table, ids: seq<Id>, c: nat, i: nat)
    requires IsNumbered(t, ids) && c < |ids| && i < |ids| - 1
    ensures var y := Without(ids, c)[i]; y in t && t[y] == if i < c then i else i + 1
  {
    assert Without(ids, c)[i] == ids[if i < c then i else i + 1];
  }

  /** From 0..n-1, a move to `target` is remove-then-insert at the clamped index, and keeps 0..n-1 exactly when the target is below n. */
  lemma MoveNumbered(t: Table, ids: seq<Id>, c: nat, target: nat)
    requires IsNumbered(t, ids) && c < |ids|
    ensures var ids' := Insert(Without(ids, c), Clamp(target, |ids| - 1), ids[c]);
            && IsOrder(Moved(t, ids[c], target), ids')
            && (IsNumbered(Moved(t, ids[c], target), ids') <==> target < |ids|)
  {
    var x, rest, r := ids[c], Without(ids, c), Moved(t, ids[c], target);
    MovedIsOrder(t, ids, c, target);
    LandingNumbered(t, ids, c, target);
    var k := Clamp(target, |ids| - 1);
    forall i | 0 <= i < |rest|
      ensures rest[i] in r && r[rest[i]] == if i < k then i else i + 1
    {
      MovedRest(t, ids, c, target, i);
    }
    NumberedInsert(r, rest, k, x);
  }

  lemma MovedRest(t: Table, ids: seq<Id>, c: nat, target: nat, i: nat)
    requires IsNumbered(t, ids) && c < |ids| && i < |ids| - 1
    ensures var r, y := Moved(t, ids[c], target), Without(ids, c)[i];
            y in r && r[y] == if i < Clamp(target, |ids| - 1) then i else i + 1
  {
    RestNumbered(t, ids, c, i);
    OthersStandElsewhere(t, ids, c);
    assert Without(ids, c)[i] in Without(ids, c);
  }

  // ------------------------------------------------------------ reading and renumbering

  lemma Smaller(t: Table, x: Id)
    requires x in t
    ensures |t - {x}| < |t|
  {
    assert t.Keys == (t - {x}).Keys + {x};
    assert |t| == |t.Keys| && |t - {x}| == |(t - {x}).Keys|;
  }

  lemma {:induction false} Least(t: Table) returns (m: Id)
    requires t != map[]
    ensures m in t && forall y :: y in t ==> t[m] <= t[y]
    decreases |t|
  {
    var z :| z in t;
    m := z;
    var rest := t - {z};
    if rest != map[] {
      Smaller(t, z);
      var least := Least(rest);
      m := if t[z] <= t[least] then z else least;
    }
    forall y | y in t
      ensures t[m] <= t[y]
    {
      assert y == z || y in rest;
    }
  }

  lemma LeastFirst(t: Table, x: Id, rest: seq<Id>)
    requires x in t && (forall y :: y in t ==> t[x] <= t[y]) && IsOrder(t - {x}, rest)
    ensures IsOrder(t, [x] + rest)
  {
    AscendingMap(t - {x}, t, rest);
    AscendingConcat(t, [x], rest);
  }

  /** `SELECT … ORDER BY position`: ties fall anyhow. */
  method SelectOrdered(t: Table) returns (ids: seq<Id>)
    ensures IsOrder(t, ids)
    decreases |t|
  {
    if t == map[] {
      return [];
    }
    ghost var m := Least(t);
    assert m in t && forall y :: y in t ==> t[m] <= t[y];
    var x :| x in t && forall y :: y in t ==> t[x] <= t[y];
    Smaller(t, x);
    var rest := SelectOrdered(t - {x});
    LeastFirst(t, x, rest);
    ids := [x] + rest;
  }

  /** Writes position `i` for the `i`-th id, one update at a time. */
  method ApplyOrder(t: Table, ids: seq<Id>) returns (r: Table)
    requires Distinct(ids) && forall x :: x in t <==> x in ids
    ensures IsNumbered(r, ids)
  {
    r := t;
    for i := 0 to |ids|
      invariant r.Keys == t.Keys
      invariant forall j :: 0 <= j < i ==> r[ids[j]] == j
    {
      assert ids[i] in ids;
      r := r[ids[i] := i];
    }
  }

  lemma NumberedHasNoTies(t: Table, ids: seq<Id>)
    requires IsNumbered(t, ids)
    ensures NoTies(t)
  {
    forall x, y | x in t && y in t && x != y
      ensures t[x] != t[y]
    {
      var i :| 0 <= i < |ids| && ids[i] == x;
      var j :| 0 <= j < |ids| && ids[j] == y;
    }
  }

  lemma NumberedMax(t: Table, ids: seq<Id>, m: int)
    requires IsNumbered(t, ids) && Below(t, m) && (if t == map[] then m == -1 else exists x :: x in t && t[x] == m)
    ensures m == |ids| - 1
  {
    if ids != [] {
      assert ids[|ids| - 1] in t;
      var x :| x in t && t[x] == m;
      var i :| 0 <= i < |ids| && ids[i] == x;
    }
  }
}
