/**
 Keyset-paged scans of the cards table: `ORDER BY id LIMIT n`, then
 `id > $1` with the last id of the page, which has been parsed and printed again.
 */
module Keyset {
  import opened Common
  import opened Ids

  const PAGE_SIZE: nat := 500

  /** `printed` is the id as decoding and printing it again gives it. */
  datatype CardRow = CardRow(id: string, printed: string, tenant: string, board: string)

  /** Rows in `ORDER BY id`, ids unique. */
  ghost predicate IsTable(t: seq<CardRow>)
  {
    forall i, j {:trigger TextLess(t[i].id, t[j].id)} :: 0 <= i < j < |t| ==> TextLess(t[i].id, t[j].id)
  }

  lemma {:induction false} LessIsStrict(a: string, b: string)
    ensures !(TextLess(a, b) && TextLess(b, a))
    ensures !TextLess(a, a)
    ensures a == b || TextLess(a, b) || TextLess(b, a)
    decreases |a|
  {
    if a != "" {
      LessIsStrict(a[1..], if b == "" then "" else b[1..]);
      if b != "" {
        assert a == [a[0]] + a[1..] && b == [b[0]] + b[1..];
      }
    }
  }

  lemma {:induction false} LessIsTransitive(a: string, b: string, c: string)
    requires TextLess(a, b) && TextLess(b, c)
    ensures TextLess(a, c)
    decreases |a|
  {
    if a != "" && a[0] == b[0] == c[0] {
      LessIsTransitive(a[1..], b[1..], c[1..]);
    }
  }

  /** The WHERE clause. */
  function Where(t: seq<CardRow>, after: string): seq<CardRow>
  {
    if t == [] then []
    else (if TextLess(after, t[0].id) then [t[0]] else []) + Where(t[1..], after)
  }

  /** One query: the rows it returns, in order. */
  function Query(t: seq<CardRow>, after: Option<string>, limit: nat): seq<CardRow>
  {
    var found := if after.None? then t else Where(t, after.value);
    if |found| <= limit then found else found[..limit]
  }

  /** How many rows are not above `after`. */
  function Passed(t: seq<CardRow>, after: string): (k: nat)
    ensures k <= |t|
  {
    if t == [] || TextLess(after, t[0].id) then 0 else 1 + Passed(t[1..], after)
  }

  lemma TailIsTable(t: seq<CardRow>)
    requires IsTable(t) && t != []
    ensures IsTable(t[1..])
  {
    forall i, j | 0 <= i < j < |t[1..]|
      ensures TextLess(t[1..][i].id, t[1..][j].id)
    {
      assert t[1..][i] == t[i + 1] && t[1..][j] == t[j + 1];
    }
  }

  lemma {:induction false} AllAbove(t: seq<CardRow>, after: string)
    requires forall i :: 0 <= i < |t| ==> TextLess(after, t[i].id)
    ensures Where(t, after) == t
  {
    if t != [] {
      AllAbove(t[1..], after);
    }
  }

  /** On an ordered table the WHERE clause cuts off a prefix. */
  lemma {:induction false} WhereIsSuffix(t: seq<CardRow>, after: string)
    requires IsTable(t)
    ensures Where(t, after) == t[Passed(t, after)..]
  {
    if t != [] {
      if TextLess(after, t[0].id) {
        forall i | 0 <= i < |t|
          ensures TextLess(after, t[i].id)
        {
          if i > 0 {
            LessIsTransitive(after, t[0].id, t[i].id);
          }
        }
        AllAbove(t, after);
      } else {
        TailIsTable(t);
        WhereIsSuffix(t[1..], after);
        assert t[1..][Passed(t[1..], after)..] == t[Passed(t, after)..];
      }
    }
  }

  /** Asking for what is above the last row read returns exactly what was not read. */
  lemma {:induction false} PassedOwn(t: seq<CardRow>, i: nat)
    requires IsTable(t) && i < |t|
    ensures Passed(t, t[i].id) == i + 1
  {
    if i == 0 {
      LessIsStrict(t[0].id, t[0].id);
      if |t| > 1 {
        assert TextLess(t[0].id, t[1].id) && t[1..][0] == t[1];
      }
    } else {
      TailIsTable(t);
      PassedOwn(t[1..], i - 1);
      assert TextLess(t[0].id, t[i].id);
      LessIsStrict(t[0].id, t[i].id);
    }
  }

  function Min(a: nat, b: nat): nat
  {
    if a < b then a else b
  }

  /** The position of the first row above `after`. */
  function StartAfter(t: seq<CardRow>, after: Option<string>): (i: nat)
    ensures i <= |t|
  {
    if after.None? then 0 else Passed(t, after.value)
  }

  lemma FirstRows(t: seq<CardRow>, found: seq<CardRow>, i: nat, limit: nat)
    requires i <= |t| && found == t[i..]
    ensures (if |found| <= limit then found else found[..limit]) == t[i..Min(i + limit, |t|)]
  {
  }

  /** A query returns the next `limit` rows of the table. */
  lemma QueryIsPage(t: seq<CardRow>, after: Option<string>, limit: nat)
    requires IsTable(t)
    ensures var i := StartAfter(t, after); Query(t, after, limit) == t[i..Min(i + limit, |t|)]
  {
    if after.None? {
      FirstRows(t, t, 0, limit);
    } else {
      WhereIsSuffix(t, after.value);
      FirstRows(t, Where(t, after.value), Passed(t, after.value), limit);
    }
  }

  lemma {:induction false} PassedAreBelow(t: seq<CardRow>, after: string, j: nat)
    requires IsTable(t) && j < |t|
    ensures TextLess(after, t[j].id) <==> j >= Passed(t, after)
  {
    if TextLess(after, t[0].id) {
      if j > 0 {
        LessIsTransitive(after, t[0].id, t[j].id);
      }
    } else if j > 0 {
      TailIsTable(t);
      PassedAreBelow(t[1..], after, j - 1);
    }
  }

  predicate Above(after: Option<string>, r: CardRow)
  {
    after.Some? ==> TextLess(after.value, r.id)
  }

  lemma AboveFrom(t: seq<CardRow>, after: Option<string>, j: nat)
    requires IsTable(t) && j < |t|
    ensures Above(after, t[j]) <==> j >= StartAfter(t, after)
  {
    if after.Some? {
      PassedAreBelow(t, after.value, j);
    }
  }

  lemma QueryRow(t: seq<CardRow>, after: Option<string>, limit: nat, i: nat)
    requires IsTable(t) && i < |Query(t, after, limit)|
    ensures var k := StartAfter(t, after); k + i < |t| && i < limit && Query(t, after, limit)[i] == t[k + i]
  {
    QueryIsPage(t, after, limit);
  }

  lemma OnPage(t: seq<CardRow>, after: Option<string>, limit: nat, j: nat)
    requires IsTable(t) && StartAfter(t, after) <= j < Min(StartAfter(t, after) + limit, |t|)
    ensures t[j] in Query(t, after, limit)
  {
    QueryIsPage(t, after, limit);
    assert Query(t, after, limit)[j - StartAfter(t, after)] == t[j];
  }

  /** A row of the table that is above `after` and not among those the query returns comes after a full page of them. */
  lemma QueryRest(t: seq<CardRow>, after: Option<string>, limit: nat, r: CardRow)
    requires IsTable(t) && r in t && Above(after, r) && r !in Query(t, after, limit)
    ensures |Query(t, after, limit)| == limit && forall i :: 0 <= i < limit ==> TextLess(Query(t, after, limit)[i].id, r.id)
  {
    var j :| 0 <= j < |t| && t[j] == r;
    AboveFrom(t, after, j);
    if j < Min(StartAfter(t, after) + limit, |t|) {
      OnPage(t, after, limit, j);
    }
    QueryIsPage(t, after, limit);
    forall i | 0 <= i < limit
      ensures TextLess(Query(t, after, limit)[i].id, r.id)
    {
      QueryRow(t, after, limit, i);
      BelowLater(t, StartAfter(t, after) + i, j);
    }
  }

  lemma BelowLater(t: seq<CardRow>, i: nat, j: nat)
    requires IsTable(t) && i < j < |t|
    ensures TextLess(t[i].id, t[j].id)
  {
  }

  /** A query in its own terms: at most `limit` rows of the table, above `after`, in id order; `QueryRest` says what is left out. */
  lemma QueryIs(t: seq<CardRow>, after: Option<string>, limit: nat)
    requires IsTable(t)
    ensures var rows := Query(t, after, limit);
            && |rows| <= limit
            && (forall i :: 0 <= i < |rows| ==> rows[i] in t && (after.Some? ==> TextLess(after.value, rows[i].id)))
            && (forall i, j {:trigger rows[i], rows[j]} :: 0 <= i < j < |rows| ==> TextLess(rows[i].id, rows[j].id))
  {
    var k, rows := StartAfter(t, after), Query(t, after, limit);
    QueryIsPage(t, after, limit);
    forall i | 0 <= i < |rows|
      ensures rows[i] in t && (after.Some? ==> TextLess(after.value, rows[i].id))
    {
      QueryRow(t, after, limit, i);
      AboveFrom(t, after, k + i);
    }
    forall i, j | 0 <= i < j < |rows|
      ensures TextLess(rows[i].id, rows[j].id)
    {
      QueryRow(t, after, limit, i);
      QueryRow(t, after, limit, j);
      BelowLater(t, k + i, k + j);
    }
  }

  /** For each row, where a query that follows it starts. */
  function Jumps(t: seq<CardRow>): (js: seq<nat>)
    ensures |js| == |t|
    ensures forall i :: 0 <= i < |t| ==> js[i] == Passed(t, t[i].printed) <= |t|
  {
    seq(|t|, i requires 0 <= i < |t| => Passed(t, t[i].printed))
  }

  lemma RowsAreDistinct(t: seq<CardRow>)
    requires IsTable(t)
    ensures Distinct(t)
  {
    forall i, j | 0 <= i < j < |t|
      ensures t[i] != t[j]
    {
      assert TextLess(t[i].id, t[j].id);
      LessIsStrict(t[i].id, t[i].id);
    }
  }

  // ------------------------------------------------------------ the scan

  datatype Scan = Scan(visited: seq<CardRow>, finished: bool)

  predicate Lead(t: seq<CardRow>, js: seq<nat>)
  {
    |js| == |t| && forall i :: 0 <= i < |js| ==> js[i] <= |t|
  }

  /** What `queries` queries visit from position `i` on, and whether the last one came back empty. */
  function Walk(t: seq<CardRow>, js: seq<nat>, i: nat, limit: nat, queries: nat): Scan
    requires i <= |t| && limit > 0 && Lead(t, js)
    decreases queries
  {
    if queries == 0 then Scan([], false)
    else if i == |t| then Scan([], true)
    else
      var end := Min(i + limit, |t|);
      var rest := Walk(t, js, js[end - 1], limit, queries - 1);
      Scan(t[i..end] + rest.visited, rest.finished)
  }

  /** A backfill's scan of the whole table. */
  function Scanned(t: seq<CardRow>, limit: nat, queries: nat): Scan
    requires limit > 0
  {
    Walk(t, Jumps(t), 0, limit, queries)
  }

  /** The row loop: `last_id` ends up as the id of the page's last row. */
  method VisitRows(rows: seq<CardRow>, before: seq<CardRow>) returns (visited: seq<CardRow>, lastId: string)
    requires rows != []
    ensures visited == before + rows && lastId == Last(rows).printed
  {
    visited, lastId := before, "";
    for i := 0 to |rows|
      invariant visited == before + rows[..i]
      invariant i > 0 ==> lastId == rows[i - 1].printed
    {
      visited := visited + [rows[i]];
      lastId := rows[i].printed;
    }
  }

  method FetchPage(t: seq<CardRow>, after: Option<string>, limit: nat) returns (rows: seq<CardRow>)
    requires IsTable(t)
    ensures var i := StartAfter(t, after); rows == t[i..Min(i + limit, |t|)]
  {
    QueryIsPage(t, after, limit);
    rows := Query(t, after, limit);
  }

  /** One turn of the loop: a query and the row loop over what it returned. */
  method ScanPage(t: seq<CardRow>, ghost i: nat, after: Option<string>, before: seq<CardRow>, limit: nat)
    returns (visited: seq<CardRow>, last: Option<string>)
    requires IsTable(t) && limit > 0 && i == StartAfter(t, after)
    ensures i == |t| ==> last == None && visited == before
    ensures i < |t| ==> last == Some(t[Min(i + limit, |t|) - 1].printed) && visited == before + t[i..Min(i + limit, |t|)]
  {
    var rows := FetchPage(t, after, limit);
    if |rows| == 0 {
      return before, None;
    }
    var lastId;
    visited, lastId := VisitRows(rows, before);
    last := Some(lastId);
  }

  /** `total` is what the scan so far and the scan from here on come to. */
  ghost predicate Comes(total: Scan, visited: seq<CardRow>, rest: Scan)
  {
    total == Scan(visited + rest.visited, rest.finished)
  }

  lemma ComesOn(total: Scan, visited: seq<CardRow>, t: seq<CardRow>, js: seq<nat>, i: nat, limit: nat, queries: nat)
    requires limit > 0 && i < |t| && queries > 0 && Lead(t, js)
    requires Comes(total, visited, Walk(t, js, i, limit, queries))
    ensures var end := Min(i + limit, |t|);
            Comes(total, visited + t[i..end], Walk(t, js, js[end - 1], limit, queries - 1))
  {
    var end := Min(i + limit, |t|);
    Regroup(visited, t[i..end], Walk(t, js, js[end - 1], limit, queries - 1).visited);
  }

  lemma Regroup(a: seq<CardRow>, b: seq<CardRow>, c: seq<CardRow>)
    ensures a + (b + c) == a + b + c
  {
  }

  /** The loop of both backfills, stopped after `queries` queries at the latest. */
  method ScanCards(t: seq<CardRow>, limit: nat, queries: nat) returns (visited: seq<CardRow>, finished: bool)
    requires IsTable(t) && limit > 0
    ensures Scan(visited, finished) == Scanned(t, limit, queries)
  {
    var lastId: Option<string> := None;
    visited, finished := [], false;
    ghost var js := Jumps(t);
    ghost var i, total := 0, Walk(t, js, 0, limit, queries);
    for n := 0 to queries
      invariant i == StartAfter(t, lastId) && Comes(total, visited, Walk(t, js, i, limit, queries - n))
    {
      var last;
      ghost var before := visited;
      visited, last := ScanPage(t, i, lastId, visited, limit);
      if last.None? {
        return visited, true;
      }
      ComesOn(total, before, t, js, i, limit, queries - n);
      lastId := last;
      i := js[Min(i + limit, |t|) - 1];
    }
  }

  // ------------------------------------------------------------ once each, in order

  /** The re-printed last id of the page ending at `e` still separates what was read from what was not. */
  predicate Separates(js: seq<nat>, e: nat)
    requires 0 < e <= |js|
  {
    js[e - 1] == e
  }

  /** That is: the rows above the re-printed id of row `e - 1` are exactly those from `e` on. */
  lemma SeparatesIff(t: seq<CardRow>, e: nat)
    requires IsTable(t) && 0 < e <= |t|
    ensures Separates(Jumps(t), e) <==> forall j :: 0 <= j < |t| ==> (TextLess(t[e - 1].printed, t[j].id) <==> j >= e)
  {
    var k := Passed(t, t[e - 1].printed);
    forall j | 0 <= j < |t|
      ensures TextLess(t[e - 1].printed, t[j].id) <==> j >= k
    {
      PassedAreBelow(t, t[e - 1].printed, j);
    }
    if k < e {
      assert TextLess(t[e - 1].printed, t[k].id);
    } else if k > e {
      assert !TextLess(t[e - 1].printed, t[e].id);
    }
  }

  /** Every page from position `i` on ends in an id that separates. */
  predicate PagesSeparate(js: seq<nat>, i: nat, limit: nat)
    requires i <= |js| && limit > 0
    decreases |js| - i
  {
    i < |js| ==>
      && Separates(js, Min(i + limit, |js|))
      && PagesSeparate(js, Min(i + limit, |js|), limit)
  }

  /** Pages still to be read from position `i`. */
  function PagesLeft(n: nat, i: nat, limit: nat): nat
    requires i <= n && limit > 0
    decreases n - i
  {
    if i == n then 0 else 1 + PagesLeft(n, Min(i + limit, n), limit)
  }

  /** If the page ends separate, the walk visits the rest once, in order, and then stops. */
  lemma {:induction false} WalkVisitsAll(t: seq<CardRow>, js: seq<nat>, i: nat, limit: nat, queries: nat)
    requires limit > 0 && i <= |t| && Lead(t, js) && PagesSeparate(js, i, limit) && queries > PagesLeft(|t|, i, limit)
    ensures Walk(t, js, i, limit, queries) == Scan(t[i..], true)
    decreases queries
  {
    if i < |t| {
      var end := Min(i + limit, |t|);
      WalkVisitsAll(t, js, end, limit, queries - 1);
      assert t[i..end] + t[end..] == t[i..];
    }
  }

  lemma WalkStartsAt(t: seq<CardRow>, js: seq<nat>, i: nat, limit: nat, queries: nat)
    requires limit > 0 && i <= |t| && Lead(t, js)
    ensures var w := Walk(t, js, i, limit, queries);
            w.finished ==> if i == |t| then w.visited == [] else w.visited != [] && w.visited[0] == t[i]
  {
  }

  /** If the walk visits the rest once, in order, and stops, every page end still to come separates. */
  lemma {:induction false} AllVisitedSeparates(t: seq<CardRow>, js: seq<nat>, i: nat, limit: nat, queries: nat)
    requires Distinct(t) && limit > 0 && i <= |t| && Lead(t, js) && Walk(t, js, i, limit, queries) == Scan(t[i..], true)
    ensures PagesSeparate(js, i, limit)
    decreases queries
  {
    if i < |t| {
      var end := Min(i + limit, |t|);
      RestVisited(t, js, i, limit, queries);
      NextIsEnd(t, js, end, limit, queries - 1, js[end - 1]);
      AllVisitedSeparates(t, js, end, limit, queries - 1);
    }
  }

  lemma RestVisited(t: seq<CardRow>, js: seq<nat>, i: nat, limit: nat, queries: nat)
    requires limit > 0 && i < |t| && Lead(t, js) && Walk(t, js, i, limit, queries) == Scan(t[i..], true)
    ensures var end := Min(i + limit, |t|);
            queries > 0 && Walk(t, js, js[end - 1], limit, queries - 1) == Scan(t[end..], true)
  {
    var end := Min(i + limit, |t|);
    var rest := Walk(t, js, js[end - 1], limit, queries - 1);
    SameTail(t[i..end], rest.visited, t[end..], t[i..]);
  }

  lemma NextIsEnd(t: seq<CardRow>, js: seq<nat>, end: nat, limit: nat, queries: nat, next: nat)
    requires Distinct(t) && limit > 0 && end <= |t| && next <= |t| && Lead(t, js)
    requires Walk(t, js, next, limit, queries) == Scan(t[end..], true)
    ensures next == end
  {
    WalkStartsAt(t, js, next, limit, queries);
    if end < |t| {
      assert t[end..][0] == t[end];
    }
  }

  lemma SameTail(a: seq<CardRow>, b: seq<CardRow>, c: seq<CardRow>, all: seq<CardRow>)
    requires a + b == all && a + c == all
    ensures b == c
  {
    assert b == all[|a|..] && c == all[|a|..];
  }

  /**
   On a fixed table the scan visits every card exactly once, in id order, and ends
   within one query more than there are pages, exactly when the re-printed last id
   of every page separates.
   */
  lemma VisitsAllIff(t: seq<CardRow>, limit: nat, queries: nat)
    requires IsTable(t) && limit > 0 && queries > PagesLeft(|t|, 0, limit)
    ensures Scanned(t, limit, queries) == Scan(t, true) <==> PagesSeparate(Jumps(t), 0, limit)
  {
    assert t[0..] == t;
    if PagesSeparate(Jumps(t), 0, limit) {
      WalkVisitsAll(t, Jumps(t), 0, limit, queries);
    }
    if Scanned(t, limit, queries) == Scan(t, true) {
      RowsAreDistinct(t);
      AllVisitedSeparates(t, Jumps(t), 0, limit, queries);
    }
  }

  /** One query fewer is not enough: the end is only noticed on an empty page. */
  lemma {:induction false} NotBefore(t: seq<CardRow>, js: seq<nat>, i: nat, limit: nat, queries: nat)
    requires limit > 0 && i <= |t| && Lead(t, js) && PagesSeparate(js, i, limit) && queries <= PagesLeft(|t|, i, limit)
    ensures !Walk(t, js, i, limit, queries).finished
    decreases queries
  {
    if queries > 0 {
      NotBefore(t, js, Min(i + limit, |t|), limit, queries - 1);
    }
  }

  lemma {:induction false} AllSeparate(js: seq<nat>, i: nat, limit: nat)
    requires limit > 0 && i <= |js| && forall j :: 0 <= j < |js| ==> js[j] == j + 1
    ensures PagesSeparate(js, i, limit)
    decreases |js| - i
  {
    if i < |js| {
      AllSeparate(js, Min(i + limit, |js|), limit);
    }
  }

  // ------------------------------------------------------------ stored ids

  /** `Id` columns are parsed on the way in and printed on the way out. */
  ghost predicate Decoded(t: seq<CardRow>)
  {
    forall i :: 0 <= i < |t| ==> FromStr(t[i].id).Some? && t[i].printed == Reprint(t[i].id)
  }

  lemma {:induction false} PagesOf500(n: nat, i: nat)
    requires i <= n
    ensures PagesLeft(n, i, PAGE_SIZE) == (n - i + 499) / 500
    decreases n - i
  {
    if i < n {
      PagesOf500(n, Min(i + PAGE_SIZE, n));
    }
  }

  lemma CanonicalIsStable(t: seq<CardRow>)
    requires Decoded(t) && forall i :: 0 <= i < |t| ==> Canonical(t[i].id)
    ensures forall i :: 0 <= i < |t| ==> t[i].printed == t[i].id
  {
    forall i | 0 <= i < |t|
      ensures t[i].printed == t[i].id
    {
      ReprintIsSameIff(t[i].id);
    }
  }

  lemma StableJumps(t: seq<CardRow>)
    requires IsTable(t) && forall i :: 0 <= i < |t| ==> t[i].printed == t[i].id
    ensures forall i :: 0 <= i < |t| ==> Jumps(t)[i] == i + 1
  {
    forall i | 0 <= i < |t|
      ensures Jumps(t)[i] == i + 1
    {
      PassedOwn(t, i);
    }
  }

  lemma StableScan(t: seq<CardRow>, queries: nat)
    requires IsTable(t) && forall i :: 0 <= i < |t| ==> t[i].printed == t[i].id
    ensures Scanned(t, PAGE_SIZE, (|t| + 499) / 500 + 1) == Scan(t, true)
    ensures queries < (|t| + 499) / 500 + 1 ==> !Scanned(t, PAGE_SIZE, queries).finished
  {
    PagesOf500(|t|, 0);
    StableJumps(t);
    AllSeparate(Jumps(t), 0, PAGE_SIZE);
    VisitsAllIff(t, PAGE_SIZE, (|t| + 499) / 500 + 1);
    if queries < (|t| + 499) / 500 + 1 {
      NotBefore(t, Jumps(t), 0, PAGE_SIZE, queries);
    }
  }

  /** With canonical ids throughout, the backfill visits every card exactly once in ceil(n/500) + 1 queries, no fewer. */
  lemma CanonicalScan(t: seq<CardRow>, queries: nat)
    requires IsTable(t) && Decoded(t) && forall i :: 0 <= i < |t| ==> Canonical(t[i].id)
    ensures Scanned(t, PAGE_SIZE, (|t| + 499) / 500 + 1) == Scan(t, true)
    ensures queries < (|t| + 499) / 500 + 1 ==> !Scanned(t, PAGE_SIZE, queries).finished
  {
    CanonicalIsStable(t);
    StableScan(t, queries);
  }

  /** A last id that leads back to its own row is found again by every query, for ever. */
  lemma {:induction false} NeverEnds(row: CardRow, js: seq<nat>, limit: nat, queries: nat)
    requires limit > 0 && js == [0]
    ensures !Walk([row], js, 0, limit, queries).finished
    ensures |Walk([row], js, 0, limit, queries).visited| == queries
    decreases queries
  {
    if queries > 0 {
      NeverEnds(row, js, limit, queries - 1);
    }
  }

  /** A seeded card whose id overflows the ULID range: the backfill never finishes on a table holding just that card. */
  lemma OverflowingIdLoops(row: CardRow, queries: nat)
    requires row.id == "ZFV6D6484C46GZSJQAKWTJ70GW" && Decoded([row])
    ensures !Scanned([row], PAGE_SIZE, queries).finished
    ensures |Scanned([row], PAGE_SIZE, queries).visited| == queries
  {
    assert [row][0] == row;
    OverflowingIdShrinks(row.id);
    assert Passed([row], row.printed) == 0;
    assert Jumps([row]) == [0];
    NeverEnds(row, [0], PAGE_SIZE, queries);
  }

  lemma OverflowingIdShrinks(s: string)
    requires s == "ZFV6D6484C46GZSJQAKWTJ70GW"
    ensures FromStr(s).Some? && TextLess(Reprint(s), s)
  {
    UlidCanon(s);
    assert Reprint(s)[0] == '7';
  }
}
