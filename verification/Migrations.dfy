/**
 Startup migrations: a ledger, a list of bodies made of idempotent writes, and
 boots that may be cut off after any number of effects.  The cards table does not
 change meanwhile and one process boots at a time.
 */
module Migrations {
  import opened Common
  import opened Ids
  import opened Keyset

  /** A relation tuple in a tenant's store. */
  datatype Tuple = Tuple(tenant: string, objectType: string, objectId: string, relation: string, subject: string)

  datatype Write = Grant(tuple: Tuple) | IndexCard(card: string)

  datatype Migration = Migration(name: string, writes: seq<Write>)

  type Docs = map<string, nat>

  datatype Store = Store(tuples: set<Tuple>, index: Docs, ledger: seq<string>)

  /** A tuple that is already there is left alone; a card that is not found is skipped. */
  function Apply(docs: Docs, s: Store, w: Write): Store
  {
    match w
    case Grant(tuple) => s.(tuples := s.tuples + {tuple})
    case IndexCard(card) => if card in docs then s.(index := s.index[card := docs[card]]) else s
  }

  function ApplyAll(docs: Docs, s: Store, ws: seq<Write>): Store
  {
    if ws == [] then s else Apply(docs, ApplyAll(docs, s, Front(ws)), Last(ws))
  }

  datatype Boot = Boot(store: Store, ok: bool)

  /**
   `run_all` from the `i`-th migration on, cut off after `effects` steps: the call of a
   body, each of its writes, its ledger insert.  So a boot may also end inside a body that
   writes nothing.
   */
  function Booted(docs: Docs, s: Store, ms: seq<Migration>, i: nat, effects: nat): Boot
    requires i <= |ms|
    decreases |ms| - i
  {
    if i == |ms| then Boot(s, true)
    else if ms[i].name in s.ledger then Booted(docs, s, ms, i + 1, effects)
    else if effects == 0 then Boot(s, false)
    else if effects <= |ms[i].writes| + 1 then Boot(ApplyAll(docs, s, ms[i].writes[..effects - 1]), false)
    else
      Booted(docs, Recorded(docs, s, ms[i]), ms, i + 1, effects - |ms[i].writes| - 2)
  }

  /** The store after a series of boots, each cut off at its own point. */
  function Reboots(docs: Docs, s: Store, ms: seq<Migration>, cuts: seq<nat>): Store
  {
    if cuts == [] then s else Booted(docs, Reboots(docs, s, ms, Front(cuts)), ms, 0, Last(cuts)).store
  }

  function Names(ms: seq<Migration>): (ns: seq<string>)
    ensures |ns| == |ms| && forall i :: 0 <= i < |ms| ==> ns[i] == ms[i].name
  {
    seq(|ms|, i requires 0 <= i < |ms| => ms[i].name)
  }

  // ------------------------------------------------------------ what a set of writes amounts to

  /** The initial store with the writes of `done` in it, whatever their order and however often. */
  ghost predicate Holds(docs: Docs, init: Store, done: set<Write>, s: Store)
  {
    && (forall x :: x in s.tuples <==> x in init.tuples || Grant(x) in done)
    && (forall c :: c in s.index <==> c in init.index || (IndexCard(c) in done && c in docs))
    && (forall c :: c in s.index ==> s.index[c] == if IndexCard(c) in done && c in docs then docs[c] else init.index[c])
  }

  function WritesOf(ms: seq<Migration>): set<Write>
  {
    set i, w | 0 <= i < |ms| && w in ms[i].writes :: w
  }

  lemma ApplyHolds(docs: Docs, init: Store, done: set<Write>, s: Store, w: Write)
    requires Holds(docs, init, done, s)
    ensures Holds(docs, init, done + {w}, Apply(docs, s, w))
  {
  }

  lemma {:induction false} ApplyAllHolds(docs: Docs, init: Store, done: set<Write>, s: Store, ws: seq<Write>)
    requires Holds(docs, init, done, s)
    ensures Holds(docs, init, done + Members(ws), ApplyAll(docs, s, ws))
    ensures ApplyAll(docs, s, ws).ledger == s.ledger
  {
    if ws == [] {
      assert done + Members(ws) == done;
    } else {
      ApplyAllHolds(docs, init, done, s, Front(ws));
      ApplyHolds(docs, init, done + Members(Front(ws)), ApplyAll(docs, s, Front(ws)), Last(ws));
      MembersOfLast(ws);
      assert done + Members(ws) == done + Members(Front(ws)) + {Last(ws)};
    }
  }

  lemma MembersOfLast(ws: seq<Write>)
    requires ws != []
    ensures Members(ws) == Members(Front(ws)) + {Last(ws)}
  {
    assert ws == Front(ws) + [Last(ws)];
  }

  /** The ledger lists a prefix of the migrations; the store holds their writes and some of the others'. */
  ghost predicate Inv(docs: Docs, init: Store, ms: seq<Migration>, s: Store, k: nat, done: set<Write>)
  {
    && k <= |ms| && s.ledger == Names(ms[..k])
    && WritesOf(ms[..k]) <= done <= WritesOf(ms)
    && Holds(docs, init, done, s)
  }

  predicate UniqueNames(ms: seq<Migration>)
  {
    forall i, j :: 0 <= i < j < |ms| ==> ms[i].name != ms[j].name
  }

  lemma LedgerHas(ms: seq<Migration>, k: nat, i: nat)
    requires UniqueNames(ms) && k <= |ms| && i < |ms|
    ensures ms[i].name in Names(ms[..k]) <==> i < k
  {
    var ns := Names(ms[..k]);
    if i < k {
      assert ns[i] == ms[i].name;
    }
    assert forall j :: 0 <= j < k ==> ns[j] == ms[j].name;
  }

  lemma SomeWrites(ms: seq<Migration>, i: nat, n: nat)
    requires i < |ms| && n <= |ms[i].writes|
    ensures Members(ms[i].writes[..n]) <= WritesOf(ms)
    ensures Members(ms[i].writes) <= WritesOf(ms)
    ensures WritesOf(ms[..i + 1]) == WritesOf(ms[..i]) + Members(ms[i].writes)
  {
    var ws := ms[i].writes;
    forall w | w in ws
      ensures w in WritesOf(ms) && w in WritesOf(ms[..i + 1])
    {
      assert ms[..i + 1][i] == ms[i];
    }
    forall w | w in WritesOf(ms[..i])
      ensures w in WritesOf(ms[..i + 1])
    {
      var j :| 0 <= j < i && w in ms[..i][j].writes;
      assert ms[..i + 1][j] == ms[..i][j];
    }
    forall w | w in WritesOf(ms[..i + 1])
      ensures w in WritesOf(ms[..i]) + Members(ws)
    {
      var j :| 0 <= j < i + 1 && w in ms[..i + 1][j].writes;
      if j < i {
        assert ms[..i][j] == ms[..i + 1][j];
      }
    }
  }

  /** A body that is cut off adds some of its writes. */
  lemma CutBodyKeepsInv(docs: Docs, init: Store, ms: seq<Migration>, s: Store, k: nat, done: set<Write>, effects: nat)
    requires Inv(docs, init, ms, s, k, done) && k < |ms| && effects <= |ms[k].writes|
    ensures var ws := ms[k].writes[..effects]; Inv(docs, init, ms, ApplyAll(docs, s, ws), k, done + Members(ws))
  {
    SomeWrites(ms, k, effects);
    ApplyAllHolds(docs, init, done, s, ms[k].writes[..effects]);
  }

  function Recorded(docs: Docs, s: Store, m: Migration): Store
  {
    var done := ApplyAll(docs, s, m.writes);
    done.(ledger := done.ledger + [m.name])
  }

  /** A body that is run to its end and recorded extends the prefix by one. */
  lemma WholeBodyKeepsInv(docs: Docs, init: Store, ms: seq<Migration>, s: Store, k: nat, done: set<Write>)
    requires Inv(docs, init, ms, s, k, done) && k < |ms|
    ensures Inv(docs, init, ms, Recorded(docs, s, ms[k]), k + 1, done + Members(ms[k].writes))
  {
    SomeWrites(ms, k, 0);
    ApplyAllHolds(docs, init, done, s, ms[k].writes);
    assert Names(ms[..k + 1]) == Names(ms[..k]) + [ms[k].name];
  }

  lemma CutRunKeepsInv(docs: Docs, init: Store, ms: seq<Migration>, s: Store, k: nat, done: set<Write>, effects: nat) returns (done': set<Write>)
    requires UniqueNames(ms) && Inv(docs, init, ms, s, k, done) && k < |ms| && effects <= |ms[k].writes| + 1
    ensures var b := Booted(docs, s, ms, k, effects); Inv(docs, init, ms, b.store, k, done') && !b.ok
  {
    LedgerHas(ms, k, k);
    done' := done;
    if effects > 0 {
      CutBodyKeepsInv(docs, init, ms, s, k, done, effects - 1);
      done' := done + Members(ms[k].writes[..effects - 1]);
    }
  }

  /** A boot, wherever it is cut off, keeps the invariant; if it ends well the ledger is the whole list. */
  lemma {:induction false} RunKeepsInv(docs: Docs, init: Store, ms: seq<Migration>, s: Store, k: nat, done: set<Write>, i: nat, effects: nat)
    returns (k': nat, done': set<Write>)
    requires UniqueNames(ms) && Inv(docs, init, ms, s, k, done) && i <= k
    ensures var b := Booted(docs, s, ms, i, effects); Inv(docs, init, ms, b.store, k', done') && (b.ok ==> k' == |ms|)
    ensures k' >= k
    decreases |ms| - i
  {
    k', done' := k, done;
    if i < |ms| {
      LedgerHas(ms, k, i);
      if i < k {
        k', done' := RunKeepsInv(docs, init, ms, s, k, done, i + 1, effects);
      } else if effects > |ms[i].writes| + 1 {
        WholeBodyKeepsInv(docs, init, ms, s, k, done);
        k', done' := RunKeepsInv(docs, init, ms, Recorded(docs, s, ms[i]), k + 1, done + Members(ms[i].writes), i + 1, effects - |ms[i].writes| - 2);
      } else {
        done' := CutRunKeepsInv(docs, init, ms, s, k, done, effects);
      }
    }
  }

  lemma {:induction false} RebootsKeepInv(docs: Docs, init: Store, ms: seq<Migration>, cuts: seq<nat>) returns (k: nat, done: set<Write>)
    requires UniqueNames(ms) && init.ledger == []
    ensures Inv(docs, init, ms, Reboots(docs, init, ms, cuts), k, done)
  {
    if cuts == [] {
      k, done := 0, {};
      assert WritesOf(ms[..0]) == {};
    } else {
      k, done := RebootsKeepInv(docs, init, ms, Front(cuts));
      k, done := RunKeepsInv(docs, init, ms, Reboots(docs, init, ms, Front(cuts)), k, done, 0, Last(cuts));
    }
  }

  /** However the boots are cut off, the ledger lists the first so many migrations, in order. */
  lemma LedgerIsPrefix(docs: Docs, init: Store, ms: seq<Migration>, cuts: seq<nat>)
    requires UniqueNames(ms) && init.ledger == []
    ensures Reboots(docs, init, ms, cuts).ledger <= Names(ms)
  {
    var k, done := RebootsKeepInv(docs, init, ms, cuts);
    assert Names(ms)[..k] == Names(ms[..k]);
  }

  /** The first boot that ends well leaves the initial store plus every write, however often the bodies were run before. */
  lemma FirstOk(docs: Docs, init: Store, ms: seq<Migration>, cuts: seq<nat>, effects: nat)
    requires UniqueNames(ms) && init.ledger == []
    requires Booted(docs, Reboots(docs, init, ms, cuts), ms, 0, effects).ok
    ensures var s := Booted(docs, Reboots(docs, init, ms, cuts), ms, 0, effects).store;
            s.ledger == Names(ms) && Holds(docs, init, WritesOf(ms), s)
  {
    var k, done := RebootsKeepInv(docs, init, ms, cuts);
    k, done := RunKeepsInv(docs, init, ms, Reboots(docs, init, ms, cuts), k, done, 0, effects);
    assert ms[..k] == ms;
  }

  /** The steps a boot needs to get from migration `k` to the start of migration `j`. */
  function Cost(ms: seq<Migration>, k: nat, j: nat): nat
    requires k <= j <= |ms|
    decreases j - k
  {
    if k == j then 0 else |ms[k].writes| + 2 + Cost(ms, k + 1, j)
  }

  /** A boot ends well exactly when it is not cut off before the calls, writes and ledger inserts still missing. */
  lemma {:induction false} OkIffEnough(docs: Docs, init: Store, ms: seq<Migration>, s: Store, k: nat, done: set<Write>, i: nat, effects: nat)
    requires UniqueNames(ms) && Inv(docs, init, ms, s, k, done) && i <= k
    ensures Booted(docs, s, ms, i, effects).ok <==> effects >= Cost(ms, k, |ms|)
    decreases |ms| - i
  {
    if i < |ms| {
      LedgerHas(ms, k, i);
      if i < k {
        OkIffEnough(docs, init, ms, s, k, done, i + 1, effects);
      } else if effects > |ms[i].writes| + 1 {
        WholeBodyKeepsInv(docs, init, ms, s, k, done);
        OkIffEnough(docs, init, ms, Recorded(docs, s, ms[i]), k + 1, done + Members(ms[i].writes), i + 1, effects - |ms[i].writes| - 2);
      }
    }
  }

  // ------------------------------------------------------------ how often a body is started

  /** The bodies a boot starts, in order; a boot with no step left is cut off before it calls the next one. */
  function Started(docs: Docs, s: Store, ms: seq<Migration>, i: nat, effects: nat): seq<nat>
    requires i <= |ms|
    decreases |ms| - i
  {
    if i == |ms| then []
    else if ms[i].name in s.ledger then Started(docs, s, ms, i + 1, effects)
    else if effects == 0 then []
    else if effects <= |ms[i].writes| + 1 then [i]
    else [i] + Started(docs, Recorded(docs, s, ms[i]), ms, i + 1, effects - |ms[i].writes| - 2)
  }

  /** How many migrations are in the ledger after a boot that found `k` there. */
  function Advance(ms: seq<Migration>, k: nat, effects: nat): (k': nat)
    requires k <= |ms|
    ensures k <= k' <= |ms|
    decreases |ms| - k
  {
    if k == |ms| || effects <= |ms[k].writes| + 1 then k else Advance(ms, k + 1, effects - |ms[k].writes| - 2)
  }

  function Done(ms: seq<Migration>, cuts: seq<nat>): (k: nat)
    ensures k <= |ms|
  {
    if cuts == [] then 0 else Advance(ms, Done(ms, Front(cuts)), Last(cuts))
  }

  /** The boot ends after the start of body `j` and before its ledger insert: arithmetic on the cut. */
  predicate CutInside(ms: seq<Migration>, k: nat, effects: nat, j: nat)
    requires k <= |ms| && j < |ms|
  {
    k <= j && Cost(ms, k, j) < effects <= Cost(ms, k, j) + |ms[j].writes| + 1
  }

  /** How many of the boots start body `j`. */
  function StartCount(docs: Docs, init: Store, ms: seq<Migration>, cuts: seq<nat>, j: nat): nat
  {
    if cuts == [] then 0
    else
      StartCount(docs, init, ms, Front(cuts), j) +
      if j in Started(docs, Reboots(docs, init, ms, Front(cuts)), ms, 0, Last(cuts)) then 1 else 0
  }

  /** How many of the boots end inside body `j`. */
  function CutCount(ms: seq<Migration>, cuts: seq<nat>, j: nat): nat
    requires j < |ms|
  {
    if cuts == [] then 0
    else CutCount(ms, Front(cuts), j) + if CutInside(ms, Done(ms, Front(cuts)), Last(cuts), j) then 1 else 0
  }

  lemma {:induction false} AdvancePast(ms: seq<Migration>, k: nat, effects: nat, j: nat)
    requires k <= j < |ms|
    ensures Advance(ms, k, effects) > j <==> effects > Cost(ms, k, j) + |ms[j].writes| + 1
    decreases j - k
  {
    if k < j && effects > |ms[k].writes| + 1 {
      AdvancePast(ms, k + 1, effects - |ms[k].writes| - 2, j);
    }
  }

  lemma RecordedLedger(docs: Docs, s: Store, ms: seq<Migration>, k: nat)
    requires k < |ms| && s.ledger == Names(ms[..k])
    ensures Recorded(docs, s, ms[k]).ledger == Names(ms[..k + 1])
  {
    KeepsLedger(docs, s, ms[k].writes);
    assert Names(ms[..k + 1]) == Names(ms[..k]) + [ms[k].name];
  }

  /** How far a boot brings the ledger, as arithmetic on its cut. */
  lemma {:induction false} LedgerAdvances(docs: Docs, ms: seq<Migration>, s: Store, k: nat, i: nat, effects: nat)
    requires UniqueNames(ms) && k <= |ms| && s.ledger == Names(ms[..k]) && i <= k
    ensures |Booted(docs, s, ms, i, effects).store.ledger| == Advance(ms, k, effects)
    decreases |ms| - i
  {
    if i < |ms| {
      LedgerHas(ms, k, i);
      if i < k {
        LedgerAdvances(docs, ms, s, k, i + 1, effects);
      } else if effects > |ms[i].writes| + 1 {
        RecordedLedger(docs, s, ms, k);
        LedgerAdvances(docs, ms, Recorded(docs, s, ms[i]), k + 1, i + 1, effects - |ms[i].writes| - 2);
      } else if effects > 0 {
        KeepsLedger(docs, s, ms[i].writes[..effects - 1]);
      }
    }
  }

  /** Which bodies a boot starts, as arithmetic on its cut. */
  lemma {:induction false} StartsIff(docs: Docs, ms: seq<Migration>, s: Store, k: nat, i: nat, effects: nat, j: nat)
    requires UniqueNames(ms) && k <= |ms| && s.ledger == Names(ms[..k]) && i <= k && j < |ms|
    ensures j in Started(docs, s, ms, i, effects) <==> k <= j && effects > Cost(ms, k, j)
    decreases |ms| - i
  {
    if i < |ms| {
      LedgerHas(ms, k, i);
      if i < k {
        StartsIff(docs, ms, s, k, i + 1, effects, j);
      } else if effects > |ms[i].writes| + 1 {
        RecordedLedger(docs, s, ms, k);
        StartsIff(docs, ms, Recorded(docs, s, ms[i]), k + 1, i + 1, effects - |ms[i].writes| - 2, j);
      }
    }
  }

  /** A body is started once for every boot that ends inside it, and once more when it is recorded. */
  lemma {:induction false} StartsAreCounted(docs: Docs, init: Store, ms: seq<Migration>, cuts: seq<nat>, j: nat)
    requires UniqueNames(ms) && init.ledger == [] && j < |ms|
    ensures |Reboots(docs, init, ms, cuts).ledger| == Done(ms, cuts)
    ensures StartCount(docs, init, ms, cuts, j) == CutCount(ms, cuts, j) + if Done(ms, cuts) > j then 1 else 0
  {
    if cuts != [] {
      StartsAreCounted(docs, init, ms, Front(cuts), j);
      var s := Reboots(docs, init, ms, Front(cuts));
      var k, done := RebootsKeepInv(docs, init, ms, Front(cuts));
      StartsIff(docs, ms, s, k, 0, Last(cuts), j);
      LedgerAdvances(docs, ms, s, k, 0, Last(cuts));
      if k <= j {
        AdvancePast(ms, k, Last(cuts), j);
      }
    }
  }

  predicate CutInsideAt(ms: seq<Migration>, cuts: seq<nat>, b: nat, j: nat)
    requires b < |cuts| && j < |ms|
  {
    CutInside(ms, Done(ms, cuts[..b]), cuts[b], j)
  }

  lemma {:induction false} NoCuts(ms: seq<Migration>, cuts: seq<nat>, j: nat)
    requires j < |ms|
    ensures CutCount(ms, cuts, j) == 0 <==> forall b :: 0 <= b < |cuts| ==> !CutInsideAt(ms, cuts, b, j)
  {
    if cuts != [] {
      NoCuts(ms, Front(cuts), j);
      assert cuts[..|cuts| - 1] == Front(cuts);
      forall b | 0 <= b < |Front(cuts)|
        ensures CutInsideAt(ms, Front(cuts), b, j) <==> CutInsideAt(ms, cuts, b, j)
      {
        assert Front(cuts)[..b] == cuts[..b];
      }
      assert CutInsideAt(ms, cuts, |cuts| - 1, j) <==> CutInside(ms, Done(ms, Front(cuts)), Last(cuts), j);
    }
  }

  /**
   Exactly once: of the boots up to one that leaves body `j` recorded, exactly one
   starts it if and only if none ends after its start and before its ledger insert.
   */
  lemma ExactlyOnceIff(docs: Docs, init: Store, ms: seq<Migration>, cuts: seq<nat>, j: nat)
    requires UniqueNames(ms) && init.ledger == [] && j < |ms|
    requires ms[j].name in Reboots(docs, init, ms, cuts).ledger
    ensures StartCount(docs, init, ms, cuts, j) == 1 <==>
            forall b :: 0 <= b < |cuts| ==> !CutInsideAt(ms, cuts, b, j)
  {
    StartsAreCounted(docs, init, ms, cuts, j);
    NoCuts(ms, cuts, j);
    var k, done := RebootsKeepInv(docs, init, ms, cuts);
    LedgerHas(ms, k, j);
  }

  /** A boot that ends well has recorded every body, so the condition decides them all. */
  lemma OkRecordsAll(docs: Docs, init: Store, ms: seq<Migration>, cuts: seq<nat>, j: nat)
    requires UniqueNames(ms) && init.ledger == [] && j < |ms| && cuts != []
    requires Booted(docs, Reboots(docs, init, ms, Front(cuts)), ms, 0, Last(cuts)).ok
    ensures ms[j].name in Reboots(docs, init, ms, cuts).ledger
  {
    FirstOk(docs, init, ms, Front(cuts), Last(cuts));
    assert Names(ms)[j] == ms[j].name;
  }

  /** Once the ledger is complete, later boots change nothing. */
  lemma {:induction false} AppliedIsSkipped(docs: Docs, s: Store, ms: seq<Migration>, i: nat, effects: nat)
    requires i <= |ms| && forall j :: i <= j < |ms| ==> ms[j].name in s.ledger
    ensures Booted(docs, s, ms, i, effects) == Boot(s, true)
    decreases |ms| - i
  {
    if i < |ms| {
      AppliedIsSkipped(docs, s, ms, i + 1, effects);
    }
  }

  /** A boot cut off between a body's last write and its ledger insert has run the whole body, and the next boot starts it again. */
  lemma BodyRunsAgain(docs: Docs, s: Store, ms: seq<Migration>, effects: nat)
    requires ms != [] && s.ledger == []
    ensures var b := Booted(docs, s, ms, 0, |ms[0].writes| + 1);
            && b.store.ledger == [] && !b.ok && b.store == ApplyAll(docs, s, ms[0].writes)
            && (0 < effects <= |ms[0].writes| + 1 ==>
                  && Booted(docs, b.store, ms, 0, effects).store == ApplyAll(docs, b.store, ms[0].writes[..effects - 1])
                  && Started(docs, s, ms, 0, |ms[0].writes| + 1) == [0] == Started(docs, b.store, ms, 0, effects))
  {
    var ws := ms[0].writes;
    assert ws[..|ws|] == ws;
    KeepsLedger(docs, s, ws);
  }

  lemma {:induction false} KeepsLedger(docs: Docs, s: Store, ws: seq<Write>)
    ensures ApplyAll(docs, s, ws).ledger == s.ledger
  {
    if ws != [] {
      KeepsLedger(docs, s, Front(ws));
    }
  }

  // ------------------------------------------------------------ the two backfills

  function ParentTuple(row: CardRow): Tuple
  {
    Tuple(row.tenant, "KanbanCard", row.printed, "parent", "KanbanBoard:" + row.board)
  }

  function ParentWrites(rows: seq<CardRow>): (ws: seq<Write>)
    ensures |ws| == |rows| && forall i :: 0 <= i < |rows| ==> ws[i] == Grant(ParentTuple(rows[i]))
  {
    seq(|rows|, i requires 0 <= i < |rows| => Grant(ParentTuple(rows[i])))
  }

  function IndexWrites(rows: seq<CardRow>): (ws: seq<Write>)
    ensures |ws| == |rows| && forall i :: 0 <= i < |rows| ==> ws[i] == IndexCard(rows[i].printed)
  {
    seq(|rows|, i requires 0 <= i < |rows| => IndexCard(rows[i].printed))
  }

  /** The registered list, over a table whose rows the scan visits. */
  function AllMigrations(rows: seq<CardRow>): seq<Migration>
  {
    [Migration("backfill_card_parent_tuples", ParentWrites(rows)), Migration("backfill_opensearch_cards", IndexWrites(rows))]
  }

  lemma WritesOfBoth(rows: seq<CardRow>)
    ensures WritesOf(AllMigrations(rows)) == Members(ParentWrites(rows)) + Members(IndexWrites(rows))
  {
    var ms := AllMigrations(rows);
    assert ms[0].writes == ParentWrites(rows) && ms[1].writes == IndexWrites(rows);
  }

  lemma ParentWritesAre(rows: seq<CardRow>, x: Tuple)
    ensures Grant(x) in ParentWrites(rows) <==> x in set r | r in rows :: ParentTuple(r)
  {
    if Grant(x) in ParentWrites(rows) {
      var i :| 0 <= i < |rows| && ParentWrites(rows)[i] == Grant(x);
      assert rows[i] in rows;
    }
    if x in set r | r in rows :: ParentTuple(r) {
      var r :| r in rows && ParentTuple(r) == x;
      var i :| 0 <= i < |rows| && rows[i] == r;
      assert ParentWrites(rows)[i] == Grant(x);
    }
  }

  lemma IndexWritesAre(rows: seq<CardRow>, c: string)
    ensures IndexCard(c) in IndexWrites(rows) <==> c in set r | r in rows :: r.printed
  {
    if IndexCard(c) in IndexWrites(rows) {
      var i :| 0 <= i < |rows| && IndexWrites(rows)[i] == IndexCard(c);
      assert rows[i] in rows;
    }
    if c in set r | r in rows :: r.printed {
      var r :| r in rows && r.printed == c;
      var i :| 0 <= i < |rows| && rows[i] == r;
      assert IndexWrites(rows)[i] == IndexCard(c);
    }
  }

  lemma RegisteredWrites(rows: seq<CardRow>)
    ensures UniqueNames(AllMigrations(rows))
    ensures forall x :: Grant(x) in WritesOf(AllMigrations(rows)) <==> x in set r | r in rows :: ParentTuple(r)
    ensures forall c :: IndexCard(c) in WritesOf(AllMigrations(rows)) <==> c in set r | r in rows :: r.printed
  {
    assert AllMigrations(rows)[0].name[9] == 'c' && AllMigrations(rows)[1].name[9] == 'o';
    WritesOfBoth(rows);
    forall x
      ensures Grant(x) in Members(ParentWrites(rows)) + Members(IndexWrites(rows)) <==> x in set r | r in rows :: ParentTuple(r)
    {
      ParentWritesAre(rows, x);
    }
    forall c
      ensures IndexCard(c) in Members(ParentWrites(rows)) + Members(IndexWrites(rows)) <==> c in set r | r in rows :: r.printed
    {
      IndexWritesAre(rows, c);
    }
  }

  lemma RegisteredNames(rows: seq<CardRow>)
    ensures Names(AllMigrations(rows)) == ["backfill_card_parent_tuples", "backfill_opensearch_cards"]
  {
  }

  /** After the first successful boot: the initial tuples plus one parent tuple per card, and every card's document in the index. */
  lemma BackfilledAfterOk(docs: Docs, init: Store, rows: seq<CardRow>, cuts: seq<nat>, effects: nat)
    requires init.ledger == [] && forall r :: r in rows ==> r.printed in docs
    requires Booted(docs, Reboots(docs, init, AllMigrations(rows), cuts), AllMigrations(rows), 0, effects).ok
    ensures var s := Booted(docs, Reboots(docs, init, AllMigrations(rows), cuts), AllMigrations(rows), 0, effects).store;
            && s.ledger == ["backfill_card_parent_tuples", "backfill_opensearch_cards"]
            && s.tuples == init.tuples + (set r | r in rows :: Tuple(r.tenant, "KanbanCard", r.printed, "parent", "KanbanBoard:" + r.board))
            && (forall r :: r in rows ==> r.printed in s.index && s.index[r.printed] == docs[r.printed])
            && s.index.Keys == init.index.Keys + (set r | r in rows :: r.printed)
            && (forall c :: c in init.index && c !in (set r | r in rows :: r.printed) ==> s.index[c] == init.index[c])
  {
    RegisteredWrites(rows);
    FirstOk(docs, init, AllMigrations(rows), cuts, effects);
    RegisteredNames(rows);
    assert (set r | r in rows :: ParentTuple(r)) == (set r | r in rows :: Tuple(r.tenant, "KanbanCard", r.printed, "parent", "KanbanBoard:" + r.board));
  }

  /** No two cards share a parent tuple, so there is exactly one per card. */
  lemma OneTuplePerCard(t: seq<CardRow>, i: nat, j: nat)
    requires IsTable(t) && i < j < |t| && t[i].printed == t[i].id && t[j].printed == t[j].id
    ensures ParentTuple(t[i]) != ParentTuple(t[j])
    ensures ParentTuple(t[i]) == Tuple(t[i].tenant, "KanbanCard", t[i].printed, "parent", "KanbanBoard:" + t[i].board)
  {
    assert TextLess(t[i].id, t[j].id);
    LessIsStrict(t[i].id, t[i].id);
  }

  // ------------------------------------------------------------ the runner and the backfills as code

  datatype Progress = Progress(store: Store, effects: nat, ok: bool)

  /** A body's writes, cut off when the effects run out. */
  function Body(docs: Docs, s: Store, ws: seq<Write>, effects: nat): Progress
  {
    var n := Min(|ws|, effects);
    Progress(ApplyAll(docs, s, ws[..n]), effects - n, effects >= |ws|)
  }

  lemma {:induction false} ApplyConcat(docs: Docs, s: Store, a: seq<Write>, b: seq<Write>)
    ensures ApplyAll(docs, s, a + b) == ApplyAll(docs, ApplyAll(docs, s, a), b)
  {
    if b == [] {
      assert a + b == a;
    } else {
      ApplyConcat(docs, s, a, Front(b));
      assert Front(a + b) == a + Front(b) && Last(a + b) == Last(b);
    }
  }

  lemma BodyConcat(docs: Docs, s: Store, a: seq<Write>, b: seq<Write>, effects: nat)
    ensures var p := Body(docs, s, a, effects);
            Body(docs, s, a + b, effects) == if p.ok then Body(docs, p.store, b, p.effects) else p
  {
    if effects >= |a| {
      var n := Min(|b|, effects - |a|);
      assert (a + b)[..|a| + n] == a + b[..n] && a[..|a|] == a;
      ApplyConcat(docs, s, a, b[..n]);
    } else {
      assert (a + b)[..effects] == a[..effects];
    }
  }

  lemma OneWrite(docs: Docs, s: Store, w: Write, effects: nat)
    ensures Body(docs, s, [w], effects) == if effects == 0 then Progress(s, 0, false) else Progress(Apply(docs, s, w), effects - 1, true)
  {
    if effects > 0 {
      assert [w][..1] == [w] && Front([w]) == [];
      assert ApplyAll(docs, s, []) == s;
    }
  }

  datatype Response = Created | AlreadyExists | BackendError

  /** One turn of the runner's loop, in terms of what the body does once it is called. */
  lemma NextTurn(docs: Docs, s: Store, ms: seq<Migration>, i: nat, effects: nat, before: seq<nat>)
    requires i < |ms| && ms[i].name !in s.ledger && effects > 0
    ensures var p := Body(docs, s, ms[i].writes, effects - 1);
            if p.ok && p.effects > 0 then
              var s' := p.store.(ledger := p.store.ledger + [ms[i].name]);
              && Booted(docs, s, ms, i, effects) == Booted(docs, s', ms, i + 1, p.effects - 1)
              && before + Started(docs, s, ms, i, effects) == (before + [i]) + Started(docs, s', ms, i + 1, p.effects - 1)
            else
              Booted(docs, s, ms, i, effects) == Boot(p.store, false) && before + Started(docs, s, ms, i, effects) == before + [i]
  {
    var ws := ms[i].writes;
    assert ws[..|ws|] == ws;
  }

  class MigrationRunner {
    var store: Store
    /** Steps left before the process is cut off. */
    var effects: nat
    const docs: Docs
    const migrations: seq<Migration>

    constructor (store: Store, effects: nat, docs: Docs, migrations: seq<Migration>)
      ensures this.store == store && this.effects == effects && this.docs == docs && this.migrations == migrations
    {
      this.store, this.effects, this.docs, this.migrations := store, effects, docs, migrations;
    }

    /** `started` lists the bodies whose `run` was called. */
    method RunAll() returns (ok: bool, started: seq<nat>)
      modifies this
      ensures Boot(store, ok) == Booted(docs, old(store), migrations, 0, old(effects))
      ensures started == Started(docs, old(store), migrations, 0, old(effects))
    {
      started := [];
      for i := 0 to |migrations|
        invariant Booted(docs, old(store), migrations, 0, old(effects)) == Booted(docs, store, migrations, i, effects)
        invariant Started(docs, old(store), migrations, 0, old(effects)) == started + Started(docs, store, migrations, i, effects)
      {
        if migrations[i].name in store.ledger {
          continue;
        }
        if effects == 0 {
          return false, started;
        }
        NextTurn(docs, store, migrations, i, effects, started);
        started, effects := started + [i], effects - 1;
        ok := RunBody(migrations[i].writes);
        if !ok || effects == 0 {
          return false, started;
        }
        RecordApplied(migrations[i].name);
      }
      ok := true;
    }

    method RunBody(writes: seq<Write>) returns (ok: bool)
      modifies this
      ensures Progress(store, effects, ok) == Body(docs, old(store), writes, old(effects))
    {
      for i := 0 to |writes|
        invariant Body(docs, old(store), writes, old(effects)) == Body(docs, store, writes[i..], effects)
      {
        assert writes[i..] == [writes[i]] + writes[i + 1..];
        BodyConcat(docs, store, [writes[i]], writes[i + 1..], effects);
        OneWrite(docs, store, writes[i], effects);
        ok := Perform(writes[i]);
        if !ok {
          return;
        }
      }
      assert writes[|writes|..] == [];
      ok := true;
    }

    method RecordApplied(name: string)
      requires effects > 0
      modifies this
      ensures store == old(store).(ledger := old(store).ledger + [name]) && effects == old(effects) - 1
    {
      store := store.(ledger := store.ledger + [name]);
      effects := effects - 1;
    }

    method Perform(w: Write) returns (ok: bool)
      modifies this
      ensures Progress(store, effects, ok) == Body(docs, old(store), [w], old(effects))
    {
      match w {
        case Grant(tuple) => ok := Grant(tuple);
        case IndexCard(card) => ok := IndexCard(card);
      }
    }

    /** The gateway rejects a tuple it already has; once the effects have run out it does not answer. */
    method CreateRelationTuple(tuple: Tuple) returns (r: Response)
      modifies this
      ensures r == if old(effects) == 0 then BackendError else if tuple in old(store).tuples then AlreadyExists else Created
      ensures store == if r == Created then old(store).(tuples := old(store).tuples + {tuple}) else old(store)
      ensures effects == if r == BackendError then 0 else old(effects) - 1
    {
      if effects == 0 {
        return BackendError;
      }
      effects := effects - 1;
      if tuple in store.tuples {
        return AlreadyExists;
      }
      store := store.(tuples := store.tuples + {tuple});
      r := Created;
    }

    /** Idempotent: the rejection of a duplicate counts as success, any other error is returned. */
    method Grant(tuple: Tuple) returns (ok: bool)
      modifies this
      ensures Progress(store, effects, ok) == Body(docs, old(store), [Write.Grant(tuple)], old(effects))
      ensures ok ==> tuple in store.tuples
      ensures ok <==> old(effects) > 0
    {
      OneWrite(docs, store, Write.Grant(tuple), effects);
      var r := CreateRelationTuple(tuple);
      ok := r != BackendError;
      assert r == AlreadyExists ==> store.tuples + {tuple} == store.tuples;
    }

    method IndexCard(card: string) returns (ok: bool)
      modifies this
      ensures Progress(store, effects, ok) == Body(docs, old(store), [Write.IndexCard(card)], old(effects))
    {
      OneWrite(docs, store, Write.IndexCard(card), effects);
      if effects == 0 {
        return false;
      }
      effects := effects - 1;
      if card in docs {
        store := store.(index := store.index[card := docs[card]]);
      }
      ok := true;
    }

    /** The row loop of the tuple backfill, with one client per tenant, built when first needed. */
    method GrantRows(rows: seq<CardRow>, clients: map<string, string>) returns (ok: bool, clients': map<string, string>)
      requires forall x :: x in clients ==> clients[x] == x
      modifies this
      ensures Progress(store, effects, ok) == Body(docs, old(store), ParentWrites(rows), old(effects))
      ensures forall x :: x in clients' ==> clients'[x] == x
    {
      clients' := clients;
      for i := 0 to |rows|
        invariant Body(docs, old(store), ParentWrites(rows), old(effects)) == Body(docs, store, ParentWrites(rows)[i..], effects)
        invariant forall x :: x in clients' ==> clients'[x] == x
      {
        var row := rows[i];
        if row.tenant !in clients' {
          clients' := clients'[row.tenant := row.tenant];
        }
        var tuple := Tuple(clients'[row.tenant], "KanbanCard", row.printed, "parent", "KanbanBoard:" + row.board);
        ghost var ws := ParentWrites(rows);
        assert ws[i..] == [ws[i]] + ws[i + 1..] && ws[i] == Write.Grant(tuple);
        BodyConcat(docs, store, [ws[i]], ws[i + 1..], effects);
        ok := Perform(Write.Grant(tuple));
        if !ok {
          return;
        }
      }
      assert ParentWrites(rows)[|rows|..] == [];
      ok := true;
    }

    /** The row loop of the index backfill. */
    method IndexRows(rows: seq<CardRow>) returns (ok: bool)
      modifies this
      ensures Progress(store, effects, ok) == Body(docs, old(store), IndexWrites(rows), old(effects))
    {
      for i := 0 to |rows|
        invariant Body(docs, old(store), IndexWrites(rows), old(effects)) == Body(docs, store, IndexWrites(rows)[i..], effects)
      {
        ghost var ws := IndexWrites(rows);
        assert ws[i..] == [ws[i]] + ws[i + 1..];
        BodyConcat(docs, store, [ws[i]], ws[i + 1..], effects);
        ok := Perform(Write.IndexCard(rows[i].printed));
        if !ok {
          return;
        }
      }
      assert IndexWrites(rows)[|rows|..] == [];
      ok := true;
    }

    /** One turn of the tuple backfill: a page, its grants, and the id to go on after. */
    method GrantPage(t: seq<CardRow>, after: Option<string>, clients: map<string, string>, ghost queries: nat)
      returns (goOn: bool, ok: bool, last: Option<string>, clients': map<string, string>)
      requires IsTable(t) && queries > effects && forall x :: x in clients ==> clients[x] == x
      modifies this
      ensures goOn ==>
                && effects < old(effects)
                && Body(docs, old(store), ParentWrites(RestOf(t, after, queries)), old(effects)) ==
                   Body(docs, store, ParentWrites(RestOf(t, last, queries - 1)), effects)
      ensures !goOn ==> Progress(store, effects, ok) == Body(docs, old(store), ParentWrites(RestOf(t, after, queries)), old(effects))
      ensures forall x :: x in clients' ==> clients'[x] == x
    {
      var rows := FetchPage(t, after, PAGE_SIZE);
      last, clients' := after, clients;
      if |rows| == 0 {
        return false, true, last, clients;
      }
      PageThenRest(t, after, queries, rows, docs, store, effects);
      ok, clients' := GrantRows(rows, clients);
      goOn, last := ok, Some(rows[|rows| - 1].printed);
    }

    /** The whole tuple backfill.  Every page costs at least one effect, so the loop ends even where the scan would not. */
    method BackfillParents(t: seq<CardRow>) returns (ok: bool)
      requires IsTable(t)
      modifies this
      ensures Progress(store, effects, ok) ==
              Body(docs, old(store), ParentWrites(Scanned(t, PAGE_SIZE, old(effects) + 1).visited), old(effects))
    {
      var lastId: Option<string> := None;
      var clients: map<string, string> := map[];
      var goOn := true;
      ok := true;
      ghost var queries := effects + 1;
      while goOn
        invariant goOn ==>
                    && queries > effects
                    && Body(docs, old(store), ParentWrites(RestOf(t, None, old(effects) + 1)), old(effects)) ==
                       Body(docs, store, ParentWrites(RestOf(t, lastId, queries)), effects)
        invariant !goOn ==> Progress(store, effects, ok) == Body(docs, old(store), ParentWrites(RestOf(t, None, old(effects) + 1)), old(effects))
        invariant forall x :: x in clients ==> clients[x] == x
        decreases goOn, effects
      {
        goOn, ok, lastId, clients := GrantPage(t, lastId, clients, queries);
        queries := if queries > 0 then queries - 1 else 0;
      }
    }

    /** One turn of the index backfill. */
    method IndexPage(t: seq<CardRow>, after: Option<string>, ghost queries: nat)
      returns (goOn: bool, ok: bool, last: Option<string>)
      requires IsTable(t) && queries > effects
      modifies this
      ensures goOn ==>
                && effects < old(effects)
                && Body(docs, old(store), IndexWrites(RestOf(t, after, queries)), old(effects)) ==
                   Body(docs, store, IndexWrites(RestOf(t, last, queries - 1)), effects)
      ensures !goOn ==> Progress(store, effects, ok) == Body(docs, old(store), IndexWrites(RestOf(t, after, queries)), old(effects))
    {
      var rows := FetchPage(t, after, PAGE_SIZE);
      last := after;
      if |rows| == 0 {
        return false, true, last;
      }
      PageThenRest(t, after, queries, rows, docs, store, effects);
      ok := IndexRows(rows);
      goOn, last := ok, Some(rows[|rows| - 1].printed);
    }

    /** The whole index backfill. */
    method BackfillIndex(t: seq<CardRow>) returns (ok: bool)
      requires IsTable(t)
      modifies this
      ensures Progress(store, effects, ok) ==
              Body(docs, old(store), IndexWrites(Scanned(t, PAGE_SIZE, old(effects) + 1).visited), old(effects))
    {
      var lastId: Option<string> := None;
      var goOn := true;
      ok := true;
      ghost var queries := effects + 1;
      while goOn
        invariant goOn ==>
                    && queries > effects
                    && Body(docs, old(store), IndexWrites(RestOf(t, None, old(effects) + 1)), old(effects)) ==
                       Body(docs, store, IndexWrites(RestOf(t, lastId, queries)), effects)
        invariant !goOn ==> Progress(store, effects, ok) == Body(docs, old(store), IndexWrites(RestOf(t, None, old(effects) + 1)), old(effects))
        decreases goOn, effects
      {
        goOn, ok, lastId := IndexPage(t, lastId, queries);
        queries := if queries > 0 then queries - 1 else 0;
      }
    }
  }

  /** What the scan visits after `after`, within `queries` queries. */
  function RestOf(t: seq<CardRow>, after: Option<string>, queries: nat): seq<CardRow>
  {
    Walk(t, Jumps(t), StartAfter(t, after), PAGE_SIZE, queries).visited
  }

  lemma WritesConcat(a: seq<CardRow>, b: seq<CardRow>)
    ensures ParentWrites(a + b) == ParentWrites(a) + ParentWrites(b)
    ensures IndexWrites(a + b) == IndexWrites(a) + IndexWrites(b)
  {
  }

  /** What a page does, and then what is left of the scan. */
  lemma PageThenRest(t: seq<CardRow>, after: Option<string>, queries: nat, rows: seq<CardRow>, docs: Docs, s: Store, effects: nat)
    requires IsTable(t) && queries > 0 && rows != []
    requires var i := StartAfter(t, after); rows == t[i..Min(i + PAGE_SIZE, |t|)]
    ensures var rest := RestOf(t, Some(Last(rows).printed), queries - 1);
            && (var p := Body(docs, s, ParentWrites(rows), effects);
                Body(docs, s, ParentWrites(RestOf(t, after, queries)), effects) ==
                if p.ok then Body(docs, p.store, ParentWrites(rest), p.effects) else p)
            && (var p := Body(docs, s, IndexWrites(rows), effects);
                Body(docs, s, IndexWrites(RestOf(t, after, queries)), effects) ==
                if p.ok then Body(docs, p.store, IndexWrites(rest), p.effects) else p)
  {
    var rest := RestOf(t, Some(Last(rows).printed), queries - 1);
    RestAfterPage(t, after, queries, rows);
    WritesConcat(rows, rest);
    BodyConcat(docs, s, ParentWrites(rows), ParentWrites(rest), effects);
    BodyConcat(docs, s, IndexWrites(rows), IndexWrites(rest), effects);
  }

  lemma RestAfterPage(t: seq<CardRow>, after: Option<string>, queries: nat, rows: seq<CardRow>)
    requires IsTable(t) && queries > 0 && rows != []
    requires var i := StartAfter(t, after); rows == t[i..Min(i + PAGE_SIZE, |t|)]
    ensures RestOf(t, after, queries) == rows + RestOf(t, Some(Last(rows).printed), queries - 1)
  {
    assert Last(rows) == t[Min(StartAfter(t, after) + PAGE_SIZE, |t|) - 1];
  }

  lemma {:induction false} VisitsPrefix(t: seq<CardRow>, js: seq<nat>, i: nat, limit: nat, queries: nat)
    requires limit > 0 && i <= |t| && Lead(t, js) && PagesSeparate(js, i, limit)
    ensures var v := Walk(t, js, i, limit, queries).visited;
            v <= t[i..] && (v == t[i..] || |v| >= queries)
    decreases queries
  {
    if queries > 0 && i < |t| {
      var end := Min(i + limit, |t|);
      VisitsPrefix(t, js, end, limit, queries - 1);
      assert t[i..] == t[i..end] + t[end..];
    }
  }

  lemma SameCut(docs: Docs, s: Store, a: seq<Write>, b: seq<Write>, effects: nat)
    requires a <= b && (a == b || |a| > effects)
    ensures Body(docs, s, a, effects) == Body(docs, s, b, effects)
  {
    if |a| > effects {
      assert a[..effects] == b[..effects];
    }
  }

  /** On a table whose ids print back as they are, both bodies write once per card, in order, until they are cut off. */
  lemma BackfillsWholeTable(docs: Docs, s: Store, t: seq<CardRow>, effects: nat)
    requires IsTable(t) && forall i :: 0 <= i < |t| ==> t[i].printed == t[i].id
    ensures var visited := Scanned(t, PAGE_SIZE, effects + 1).visited;
            && Body(docs, s, ParentWrites(visited), effects) == Body(docs, s, ParentWrites(t), effects)
            && Body(docs, s, IndexWrites(visited), effects) == Body(docs, s, IndexWrites(t), effects)
  {
    var visited := Scanned(t, PAGE_SIZE, effects + 1).visited;
    StableJumps(t);
    AllSeparate(Jumps(t), 0, PAGE_SIZE);
    VisitsPrefix(t, Jumps(t), 0, PAGE_SIZE, effects + 1);
    assert t[0..] == t;
    SameCut(docs, s, ParentWrites(visited), ParentWrites(t), effects);
    SameCut(docs, s, IndexWrites(visited), IndexWrites(t), effects);
  }
}
