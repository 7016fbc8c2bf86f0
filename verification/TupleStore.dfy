/**
 Deleting relation tuples while paging through them.  The gateway lists by
 namespace, object and relation in id order, continues after the last id of a page,
 and treats an empty object or relation as no filter; it has no filter on the
 subject, which the client applies itself, and deletes one tuple id at a time.
 */
module TupleStore {
  import opened Common

  const MAX_PAGE: nat := 200

  datatype Tuple = Tuple(namespace: string, objectId: string, relation: string, subject: string)

  datatype Filter = Filter(namespace: string, objectId: Option<string>, relation: Option<string>, subject: Option<string>)

  type Tuples = map<nat, Tuple>

  /** What the gateway filters on. */
  predicate Listed(f: Filter, t: Tuple)
  {
    && t.namespace == f.namespace
    && (f.objectId.Some? && f.objectId.value != "" ==> t.objectId == f.objectId.value)
    && (f.relation.Some? && f.relation.value != "" ==> t.relation == f.relation.value)
  }

  predicate Doomed(f: Filter, t: Tuple)
  {
    Listed(f, t) && (f.subject.Some? ==> t.subject == f.subject.value)
  }

  /** Everything but the doomed tuples up to and including id `upTo`. */
  function Spared(all: Tuples, f: Filter, upTo: int): (r: Tuples)
  {
    map id | id in all && !(Doomed(f, all[id]) && id <= upTo) :: all[id]
  }

  function Remaining(all: Tuples, f: Filter): Tuples
  {
    map id | id in all && !Doomed(f, all[id]) :: all[id]
  }

  predicate Candidate(all: Tuples, f: Filter, after: int, id: nat)
  {
    id in all && id > after && Listed(f, all[id])
  }

  /** The first `size` listed ids above `after`, ascending. */
  ghost predicate IsPage(all: Tuples, f: Filter, after: int, size: nat, page: seq<nat>)
  {
    && |page| <= size
    && (forall i :: 0 <= i < |page| ==> Candidate(all, f, after, page[i]))
    && Increasing(page)
    && (forall id: nat :: Candidate(all, f, after, id) && id !in page ==> |page| == size && (page != [] ==> id > Last(page)))
  }

  /** The token is an id; absent means from the start, or no more. */
  function After(token: Option<nat>): int
  {
    if token.Some? then token.value else -1
  }

  lemma RestIsAbove(all: Tuples, f: Filter, after: int, last: int, page: seq<nat>)
    requires forall id: nat :: Candidate(all, f, after, id) && id !in page ==> id > last
    ensures forall id: nat :: Candidate(all, f, after, id) && id !in page ==> Candidate(all, f, last, id)
  {
  }

  lemma {:induction false} Least(ids: set<nat>) returns (m: nat)
    requires ids != {}
    ensures m in ids && forall x :: x in ids ==> m <= x
  {
    var a :| a in ids;
    m := a;
    if ids != {a} {
      var rest := Least(ids - {a});
      m := if a < rest then a else rest;
      forall x | x in ids
        ensures m <= x
      {
        assert x == a || x in ids - {a};
      }
    }
  }

  class PermissionStore {
    var tuples: Tuples

    constructor (tuples: Tuples)
      ensures this.tuples == tuples
    {
      this.tuples := tuples;
    }

    method NextListed(f: Filter, after: int) returns (best: Option<nat>)
      ensures best.Some? ==> Candidate(tuples, f, after, best.value)
      ensures forall id: nat :: Candidate(tuples, f, after, id) ==> best.Some? && best.value <= id
    {
      var ids := set id | id in tuples && Candidate(tuples, f, after, id);
      assert forall id: nat :: Candidate(tuples, f, after, id) ==> id in ids;
      if ids == {} {
        return None;
      }
      ghost var m := Least(ids);
      assert m in ids && forall x :: x in ids ==> m <= x;
      var least :| least in ids && forall x :: x in ids ==> least <= x;
      best := Some(least);
    }

    /** One listing.  A full last page may or may not come with a token; `eager` decides. */
    method ListRelationTuples(f: Filter, size: nat, token: Option<nat>, eager: bool)
      returns (page: seq<nat>, next: Option<nat>)
      requires size > 0
      ensures IsPage(tuples, f, After(token), size, page)
      ensures next.Some? ==> page != [] && next.value == Last(page)
      ensures next.None? ==> forall id: nat :: Candidate(tuples, f, After(token), id) ==> id in page
    {
      page := [];
      var last := After(token);
      while |page| < size
        invariant |page| <= size && last == if page == [] then After(token) else Last(page)
        invariant last >= After(token) && Increasing(page)
        invariant forall i :: 0 <= i < |page| ==> Candidate(tuples, f, After(token), page[i]) && page[i] <= last
        invariant forall id: nat :: Candidate(tuples, f, After(token), id) && id !in page ==> id > last
      {
        var best := NextListed(f, last);
        RestIsAbove(tuples, f, After(token), last, page);
        if best.None? {
          return page, if eager && page != [] then Some(Last(page)) else None;
        }
        page := page + [best.value];
        last := best.value;
      }
      var more := NextListed(f, last);
      RestIsAbove(tuples, f, After(token), last, page);
      next := if more.Some? || eager then Some(Last(page)) else None;
    }

    method DeleteRelationTuple(id: nat)
      modifies this
      ensures tuples == old(tuples) - {id}
    {
      tuples := tuples - {id};
    }

    /** The loop over one page; `calls` is how many delete calls will still be answered. */
    method DeletePage(f: Filter, page: seq<nat>, ghost all: Tuples, ghost after: int, calls: nat) returns (ok: bool, left: nat)
      requires tuples == Spared(all, f, after) && Increasing(page)
      requires forall i :: 0 <= i < |page| ==> Candidate(tuples, f, after, page[i])
      requires forall id: nat :: Candidate(tuples, f, after, id) && id !in page ==> page != [] && id > Last(page)
      modifies this
      ensures ok ==> tuples == Spared(all, f, if page == [] then after else Last(page))
      ensures forall id :: id in tuples ==> id in all && tuples[id] == all[id]
      ensures forall id :: id in all && id !in tuples ==> Doomed(f, all[id])
      ensures !ok ==> left == 0
      ensures calls - left == |old(tuples)| - |tuples|
    {
      left := calls;
      ghost var upTo := after;
      for i := 0 to |page|
        invariant tuples == Spared(all, f, upTo) && calls - left == |old(tuples)| - |tuples|
        invariant upTo == if i == 0 then after else page[i - 1]
      {
        var tuple := tuples[page[i]];
        if f.subject.None? || tuple.subject == f.subject.value {
          if left == 0 {
            return false, 0;
          }
          left := left - 1;
          OneLess(tuples, page[i]);
          DeleteRelationTuple(page[i]);
        }
        SparedNext(all, f, page, after, i, upTo);
        upTo := page[i];
      }
      ok := true;
    }

    /**
     Removes exactly the tuples that match, although every page shrinks what is being
     paged, provided nobody else writes.  A call that fails ends the loop: then some
     matching tuples may be left, but no other tuple is gone.  `eager` says which
     pages carry a token with nothing behind it; `calls` is how many calls succeed.
     */
    method DeleteRelationTuples(f: Filter, calls: nat, eager: nat -> bool) returns (ok: bool, left: nat)
      modifies this
      ensures ok ==> tuples == Remaining(old(tuples), f)
      ensures ok ==> forall id :: id in old(tuples) ==>
                (id in tuples <==>
                 || old(tuples)[id].namespace != f.namespace
                 || (f.objectId.Some? && f.objectId.value != "" && old(tuples)[id].objectId != f.objectId.value)
                 || (f.relation.Some? && f.relation.value != "" && old(tuples)[id].relation != f.relation.value)
                 || (f.subject.Some? && old(tuples)[id].subject != f.subject.value))
      ensures !ok ==> left == 0
      ensures calls > 2 * |old(tuples)| + 1 ==> ok
      ensures forall id :: id in tuples ==> id in old(tuples) && tuples[id] == old(tuples)[id]
      ensures forall id :: id in old(tuples) && id !in tuples ==>
                && old(tuples)[id].namespace == f.namespace
                && (f.subject.Some? ==> old(tuples)[id].subject == f.subject.value)
                && (f.objectId.Some? && f.objectId.value != "" ==> old(tuples)[id].objectId == f.objectId.value)
                && (f.relation.Some? && f.relation.value != "" ==> old(tuples)[id].relation == f.relation.value)
    {
      ghost var all := tuples;
      var token: Option<nat> := None;
      var pages := 0;
      left := calls;
      while true
        invariant tuples == Spared(all, f, After(token))
        invariant calls - left <= |Passed(all, After(token))| + |all| - |tuples|
        decreases set id | id in all && id > After(token)
      {
        PassedSize(all, After(token));
        if left == 0 {
          return false, 0;
        }
        left := left - 1;
        var page, next := ListRelationTuples(f, MAX_PAGE, token, eager(pages));
        PageCovers(tuples, f, After(token), page);
        ok, left := DeletePage(f, page, all, After(token), left);
        if !ok {
          return;
        }
        if next.None? {
          NothingLeft(all, f, After(token), page);
          return;
        }
        ghost var ahead := set id | id in all && id > After(token);
        assert Candidate(Spared(all, f, After(token)), f, After(token), next.value);
        assert next.value in ahead && next.value !in set id | id in all && id > next.value;
        PassedMore(all, After(token), next.value);
        token, pages := next, pages + 1;
        assert (set id | id in all && id > After(token)) < ahead;
      }
    }
  }

  /** The ids up to and including `upTo`. */
  function Passed(all: Tuples, upTo: int): set<nat>
  {
    set id | id in all && id <= upTo
  }

  lemma PassedSize(all: Tuples, upTo: int)
    ensures |Passed(all, upTo)| <= |all|
  {
    assert Passed(all, upTo) <= all.Keys;
    SubsetSize(Passed(all, upTo), all.Keys);
    assert |all.Keys| == |all|;
  }

  lemma PassedMore(all: Tuples, upTo: int, id: nat)
    requires id in all && id > upTo
    ensures |Passed(all, upTo)| < |Passed(all, id)|
  {
    assert Passed(all, upTo) <= Passed(all, id) - {id};
    SubsetSize(Passed(all, upTo), Passed(all, id) - {id});
  }

  lemma OneLess(all: Tuples, id: nat)
    requires id in all
    ensures |all - {id}| == |all| - 1
  {
    assert (all - {id}).Keys == all.Keys - {id};
    assert |(all - {id}).Keys| == |all - {id}| && |all.Keys| == |all|;
  }

  lemma PageCovers(all: Tuples, f: Filter, after: int, page: seq<nat>)
    requires IsPage(all, f, after, MAX_PAGE, page)
    ensures forall id: nat :: Candidate(all, f, after, id) && id !in page ==> page != [] && id > Last(page)
  {
  }

  lemma NothingLeft(all: Tuples, f: Filter, after: int, page: seq<nat>)
    requires Increasing(page)
    requires forall id: nat :: Candidate(Spared(all, f, after), f, after, id) ==> id in page
    requires forall i :: 0 <= i < |page| ==> page[i] > after
    ensures Spared(all, f, if page == [] then after else Last(page)) == Remaining(all, f)
  {
    var upTo := if page == [] then after else Last(page);
    forall id | id in all && Doomed(f, all[id])
      ensures id <= upTo
    {
      if id > after {
        assert Candidate(Spared(all, f, after), f, after, id);
        var j :| 0 <= j < |page| && page[j] == id;
      }
    }
  }

  lemma SparedNext(all: Tuples, f: Filter, page: seq<nat>, after: int, i: nat, upTo: int)
    requires Increasing(page) && i < |page| && upTo == if i == 0 then after else page[i - 1]
    requires forall j :: 0 <= j < |page| ==> page[j] in all && Candidate(Spared(all, f, after), f, after, page[j])
    requires forall id: nat :: Candidate(Spared(all, f, after), f, after, id) && id !in page ==> id > Last(page)
    ensures Spared(all, f, page[i]) ==
            if Doomed(f, all[page[i]]) then Spared(all, f, upTo) - {page[i]} else Spared(all, f, upTo)
  {
    forall id | id in all && Doomed(f, all[id])
      ensures id < page[i] ==> id <= upTo
    {
      if id > after {
        assert Candidate(Spared(all, f, after), f, after, id);
        NothingBetween(page, i, id);
      }
    }
  }

  lemma NothingBetween(page: seq<nat>, i: nat, id: nat)
    requires Increasing(page) && i < |page| && (id in page || id > Last(page))
    ensures id < page[i] ==> i > 0 && id <= page[i - 1]
  {
  }
}
