/**
 The search index as a derived view of the cards table.  Most writers commit a card
 change and its event row together; some change the card first and write the event
 in a later transaction, or change cards by a cascade and write none.  Dispatchers
 mark rows in any order and, after marking, load the card in three statements and
 write the document.
 */
module SearchIndex {
  import opened Common

  type Card = nat

  /** What the three loads read: the card's own columns, its label names, its assignees. */
  datatype Doc = Doc(fields: nat, labels: seq<nat>, assignees: seq<nat>)

  type Docs = map<Card, Doc>

  datatype EventRow = EventRow(eventType: string, card: Option<Card>)

  datatype Hook = Upsert(card: Card) | Erase(card: Card) | Nothing

  /** Which index update an event calls for; a payload without a usable card id calls for none. */
  function HookFor(row: EventRow): Hook
  {
    if row.card.None? then Nothing
    else if row.eventType in {"CardCreated", "CardUpdated", "CardMoved", "CardTransferred"} then Upsert(row.card.value)
    else if row.eventType == "CardDeleted" then Erase(row.card.value)
    else Nothing
  }

  datatype Pc =
    | Idle
    | Holding(row: nat)
    | LoadCard(card: Card)
    | LoadLabels(card: Card, fields: nat)
    | LoadAssignees(card: Card, fields: nat, labels: seq<nat>)
    | PutDoc(card: Card, doc: Doc)
    | DropDoc(card: Card)

  /** `interrupts`: a crash or an error may cut a dispatcher off after the mark.  `unlogged`: cards may change apart from any event. */
  datatype Config = Config(cards: Docs, index: Docs, dispatchers: nat, interrupts: bool, unlogged: bool)

  datatype State = State(cards: Docs, log: seq<EventRow>, marked: set<nat>, index: Docs, pcs: seq<Pc>)

  datatype Action = Take(row: nat) | Abandon | Mark | Work | Interrupt

  datatype Label =
    | Commit(card: Card, doc: Doc, eventType: string)
    | Remove(card: Card)
    | Other(row: EventRow)
    | Unlogged(card: Card, left: Option<Doc>)
    | Announce(card: Card, eventType: string)
    | Act(d: nat, action: Action)

  function Initial(c: Config): State
  {
    State(c.cards, [], {}, c.index, seq(c.dispatchers, _ => Idle))
  }

  predicate Pending(s: State, k: nat)
  {
    k < |s.log| && k !in s.marked
  }

  predicate Deleted(s: State, card: Card)
  {
    EventRow("CardDeleted", Some(card)) in s.log
  }

  /** Some event of the log is about the card. */
  predicate Touched(s: State, card: Card)
  {
    exists k :: 0 <= k < |s.log| && HookFor(s.log[k]) != Nothing && s.log[k].card == Some(card)
  }

  /** Which events touch a card, by their type. */
  lemma TouchedByType(s: State, k: nat, card: Card)
    requires k < |s.log| && s.log[k].card == Some(card)
    requires s.log[k].eventType in {"CardCreated", "CardUpdated", "CardMoved", "CardTransferred", "CardDeleted"}
    ensures Touched(s, card)
  {
  }

  /** And what each event calls for. */
  lemma HookByType(row: EventRow)
    ensures row.card.Some? && row.eventType in {"CardCreated", "CardUpdated", "CardMoved", "CardTransferred"} ==>
              HookFor(row) == Upsert(row.card.value)
    ensures row.card.Some? && row.eventType == "CardDeleted" ==> HookFor(row) == Erase(row.card.value)
    ensures row.card == None || row.eventType !in {"CardCreated", "CardUpdated", "CardMoved", "CardTransferred", "CardDeleted"} ==>
              HookFor(row) == Nothing
  {
  }

  predicate Enabled(c: Config, s: State, l: Label)
  {
    match l
    case Commit(card, doc, eventType) => !Deleted(s, card) && HookFor(EventRow(eventType, Some(card))).Upsert?
    case Remove(card) => card in s.cards
    case Other(row) => HookFor(row) == Nothing
    case Unlogged(card, doc) => c.unlogged && card in s.cards
    case Announce(card, eventType) =>
      HookFor(EventRow(eventType, Some(card))).Upsert? && (card in s.cards || card in c.cards || Touched(s, card))
    case Act(d, a) =>
      d < |s.pcs| &&
      match a {
        case Take(k) => s.pcs[d] == Idle && Pending(s, k)
        case Abandon => s.pcs[d].Holding?
        case Mark => s.pcs[d].Holding? && s.pcs[d].row < |s.log|
        case Work => !s.pcs[d].Idle? && !s.pcs[d].Holding?
        case Interrupt => c.interrupts
      }
  }

  function LabelsOf(cards: Docs, card: Card): seq<nat>
  {
    if card in cards then cards[card].labels else []
  }

  function AssigneesOf(cards: Docs, card: Card): seq<nat>
  {
    if card in cards then cards[card].assignees else []
  }

  /** What the hook does first, once its row is marked. */
  function Begin(h: Hook): Pc
  {
    match h
    case Upsert(card) => LoadCard(card)
    case Erase(card) => DropDoc(card)
    case Nothing => Idle
  }

  /** One statement or one index request. */
  function Worked(pc: Pc, cards: Docs, index: Docs): (Pc, Docs)
  {
    match pc
    case Idle => (pc, index)
    case Holding(_) => (pc, index)
    case LoadCard(card) => (if card in cards then LoadLabels(card, cards[card].fields) else Idle, index)
    case LoadLabels(card, fields) => (LoadAssignees(card, fields, LabelsOf(cards, card)), index)
    case LoadAssignees(card, fields, labels) => (PutDoc(card, Doc(fields, labels, AssigneesOf(cards, card))), index)
    case PutDoc(card, doc) => (Idle, index[card := doc])
    case DropDoc(card) => (Idle, index - {card})
  }

  function Acted(s: State, d: nat, a: Action): State
    requires d < |s.pcs|
  {
    match a
    case Take(k) => s.(pcs := s.pcs[d := Holding(k)])
    case Abandon => s.(pcs := s.pcs[d := Idle])
    case Mark =>
      if s.pcs[d].Holding? && s.pcs[d].row < |s.log| then
        s.(marked := s.marked + {s.pcs[d].row}, pcs := s.pcs[d := Begin(HookFor(s.log[s.pcs[d].row]))])
      else s
    case Work =>
      var (pc, index) := Worked(s.pcs[d], s.cards, s.index);
      s.(index := index, pcs := s.pcs[d := pc])
    case Interrupt => s.(pcs := s.pcs[d := Idle])
  }

  function Step(s: State, l: Label): State
  {
    match l
    case Commit(card, doc, eventType) => s.(cards := s.cards[card := doc], log := s.log + [EventRow(eventType, Some(card))])
    case Remove(card) => s.(cards := s.cards - {card}, log := s.log + [EventRow("CardDeleted", Some(card))])
    case Other(row) => s.(log := s.log + [row])
    case Unlogged(card, doc) => s.(cards := if doc.Some? then s.cards[card := doc.value] else s.cards - {card})
    case Announce(card, eventType) => s.(log := s.log + [EventRow(eventType, Some(card))])
    case Act(d, a) => if d < |s.pcs| then Acted(s, d, a) else s
  }

  function Exec(c: Config, labels: seq<Label>): Option<State>
  {
    if labels == [] then Some(Initial(c))
    else
      var s := Exec(c, Front(labels));
      if s.Some? && Enabled(c, s.value, Last(labels)) then Some(Step(s.value, Last(labels))) else None
  }

  lemma Extend(c: Config, labels: seq<Label>, s: State, l: Label) returns (labels': seq<Label>, s': State)
    requires Exec(c, labels) == Some(s) && Enabled(c, s, l)
    ensures Exec(c, labels') == Some(s') && s' == Step(s, l)
  {
    labels', s' := labels + [l], Step(s, l);
    assert Front(labels') == labels && Last(labels') == l;
  }

  // ------------------------------------------------------------ the invariant

  /** The index as it will be once the dispatcher has finished what it is doing, if no card changes meanwhile. */
  function Finish(pc: Pc, cards: Docs, index: Docs): Docs
  {
    match pc
    case Idle => index
    case Holding(_) => index
    case LoadCard(card) => if card in cards then index[card := cards[card]] else index
    case LoadLabels(card, fields) => index[card := Doc(fields, LabelsOf(cards, card), AssigneesOf(cards, card))]
    case LoadAssignees(card, fields, labels) => index[card := Doc(fields, labels, AssigneesOf(cards, card))]
    case PutDoc(card, doc) => index[card := doc]
    case DropDoc(card) => index - {card}
  }

  function Future(s: State): Docs
  {
    if s.pcs == [] then s.index else Finish(s.pcs[0], s.cards, s.index)
  }

  predicate Agrees(a: Docs, b: Docs, card: Card)
  {
    (card in a <==> card in b) && (card in a ==> a[card] == b[card])
  }

  /** A row still to be dispatched that will bring the card's document up to date: the deletion if there was one, else any change. */
  ghost predicate Awaited(s: State, card: Card)
  {
    exists k: nat :: Pending(s, k) && HookFor(s.log[k]) == Wanted(s, card)
  }

  ghost predicate CardOk(c: Config, s: State, card: Card)
  {
    || Awaited(s, card)
    || Agrees(Future(s), s.cards, card)
    || (!Touched(s, card) && Agrees(Future(s), c.index, card) && Agrees(s.cards, c.cards, card))
  }

  predicate DeletedAreGone(s: State)
  {
    forall k :: 0 <= k < |s.log| && HookFor(s.log[k]).Erase? ==> HookFor(s.log[k]).card !in s.cards
  }

  /** The card whose document a dispatcher is about to write. */
  function AtWork(pc: Pc): set<Card>
  {
    if pc.Idle? || pc.Holding? then {} else {pc.card}
  }

  /** The update that brings the card's document up to date. */
  function Wanted(s: State, card: Card): Hook
  {
    if card in s.cards then Upsert(card) else Erase(card)
  }

  /** The cards that have been changed apart from any event, or whose update has been cut off, and for which no event or update has come since. */
  function Dirty(c: Config, labels: seq<Label>): set<Card>
  {
    if labels == [] || Exec(c, Front(labels)).None? then {}
    else DirtyAfter(Exec(c, Front(labels)).value, Last(labels), Dirty(c, Front(labels)))
  }

  function DirtyAfter(s: State, l: Label, dirty: set<Card>): set<Card>
  {
    match l
    case Commit(card, _, _) => dirty - {card}
    case Remove(card) => dirty - {card}
    case Announce(card, _) => if card in s.cards then dirty - {card} else dirty
    case Unlogged(card, _) => dirty + {card}
    case Other(_) => dirty
    case Act(d, a) => if d < |s.pcs| then DirtyAfterAct(s, d, a, dirty) else dirty
  }

  function DirtyAfterAct(s: State, d: nat, a: Action, dirty: set<Card>): set<Card>
    requires d < |s.pcs|
  {
    match a
    case Interrupt => dirty + AtWork(s.pcs[d])
    case Mark => if s.pcs[d].Holding? && s.pcs[d].row < |s.log| then dirty - Cured(s, HookFor(s.log[s.pcs[d].row])) else dirty
    case _ => dirty
  }

  /** The card that the update brings up to date, if it does. */
  function Cured(s: State, hook: Hook): set<Card>
  {
    if hook != Nothing && hook == Wanted(s, hook.card) then {hook.card} else {}
  }

  ghost predicate Inv(c: Config, s: State, dirty: set<Card>)
  {
    && |s.pcs| == c.dispatchers
    && DeletedAreGone(s)
    && forall card :: card !in dirty ==> CardOk(c, s, card)
  }

  lemma HookCard(row: EventRow)
    ensures HookFor(row) != Nothing ==> row.card == Some(HookFor(row).card)
    ensures HookFor(row).Erase? ==> row == EventRow("CardDeleted", Some(HookFor(row).card))
  {
  }

  /** Working on does not change where the work leads. */
  lemma WorkedFinishes(pc: Pc, cards: Docs, index: Docs)
    requires !pc.Idle? && !pc.Holding?
    ensures var (pc', index') := Worked(pc, cards, index); Finish(pc', cards, index') == Finish(pc, cards, index)
  {
  }

  /** A change of one card leaves the documents of the others where they were going. */
  lemma FinishElsewhere(pc: Pc, cards: Docs, cards': Docs, index: Docs, changed: Card, card: Card)
    requires card != changed && forall x :: x != changed ==> Agrees(cards, cards', x)
    ensures Agrees(Finish(pc, cards, index), Finish(pc, cards', index), card)
  {
    assert Agrees(cards, cards', card);
    if pc.LoadCard? && pc.card == card {
      assert Finish(pc, cards, index) == if card in cards then index[card := cards[card]] else index;
    }
  }

  /** Appending rows of other cards, or rows with no hook, changes nothing for this one. */
  lemma AppendElsewhere(c: Config, s: State, s': State, row: EventRow, card: Card)
    requires CardOk(c, s, card) && s'.log == s.log + [row] && s'.marked == s.marked
    requires HookFor(row) != Nothing ==> HookFor(row).card != card
    requires Agrees(s.cards, s'.cards, card) && Agrees(Future(s), Future(s'), card)
    ensures CardOk(c, s', card)
  {
    if Awaited(s, card) {
      var k: nat :| Pending(s, k) && HookFor(s.log[k]) == Wanted(s, card);
      assert s'.log[k] == s.log[k] && Pending(s', k);
    }
    if Touched(s', card) {
      var k :| 0 <= k < |s'.log| && HookFor(s'.log[k]) != Nothing && s'.log[k].card == Some(card);
      HookCard(s'.log[k]);
      assert s'.log[k] == s.log[k];
    }
  }

  /** The row just written is the one to wait for. */
  lemma AppendHere(c: Config, s': State, row: EventRow, card: Card)
    requires s'.log != [] && Last(s'.log) == row && |s'.log| - 1 !in s'.marked
    requires HookFor(row) == if card in s'.cards then Upsert(card) else Erase(card)
    ensures CardOk(c, s', card)
  {
    assert Pending(s', |s'.log| - 1);
  }

  predicate MarksInLog(s: State)
  {
    forall k :: k in s.marked ==> k < |s.log|
  }

  lemma CommitKeeps(c: Config, s: State, dirty: set<Card>, card: Card, doc: Doc, eventType: string)
    requires Inv(c, s, dirty) && MarksInLog(s) && Enabled(c, s, Commit(card, doc, eventType))
    ensures Inv(c, Step(s, Commit(card, doc, eventType)), dirty - {card})
  {
    var s' := Step(s, Commit(card, doc, eventType));
    var row := EventRow(eventType, Some(card));
    assert |s.log| !in s.marked;
    forall x | x !in dirty - {card}
      ensures CardOk(c, s', x)
    {
      if x == card {
        AppendHere(c, s', row, x);
      } else {
        if s.pcs != [] {
          FinishElsewhere(s.pcs[0], s.cards, s'.cards, s.index, card, x);
        }
        assert CardOk(c, s, x);
        AppendElsewhere(c, s, s', row, x);
      }
    }
    forall k | 0 <= k < |s'.log| && HookFor(s'.log[k]).Erase?
      ensures HookFor(s'.log[k]).card !in s'.cards
    {
      assert k < |s.log| && s'.log[k] == s.log[k];
      HookCard(s.log[k]);
    }
  }

  lemma RemoveKeeps(c: Config, s: State, dirty: set<Card>, card: Card)
    requires Inv(c, s, dirty) && MarksInLog(s) && card in s.cards
    ensures Inv(c, Step(s, Remove(card)), dirty - {card})
  {
    var s' := Step(s, Remove(card));
    var row := EventRow("CardDeleted", Some(card));
    assert |s.log| !in s.marked;
    forall x | x !in dirty - {card}
      ensures CardOk(c, s', x)
    {
      if x == card {
        AppendHere(c, s', row, x);
      } else {
        if s.pcs != [] {
          FinishElsewhere(s.pcs[0], s.cards, s'.cards, s.index, card, x);
        }
        assert CardOk(c, s, x);
        AppendElsewhere(c, s, s', row, x);
      }
    }
  }

  lemma OtherKeeps(c: Config, s: State, dirty: set<Card>, row: EventRow)
    requires Inv(c, s, dirty) && HookFor(row) == Nothing
    ensures Inv(c, Step(s, Other(row)), dirty)
  {
    forall x | x !in dirty
      ensures CardOk(c, Step(s, Other(row)), x)
    {
      assert CardOk(c, s, x);
      AppendElsewhere(c, s, Step(s, Other(row)), row, x);
    }
  }

  /** A change apart from any event leaves the other cards' promises alone. */
  lemma UnloggedKeeps(c: Config, s: State, dirty: set<Card>, card: Card, left: Option<Doc>)
    requires Inv(c, s, dirty) && card in s.cards
    ensures Inv(c, Step(s, Unlogged(card, left)), dirty + {card})
  {
    var s' := Step(s, Unlogged(card, left));
    forall x | x !in dirty + {card}
      ensures CardOk(c, s', x)
    {
      if s.pcs != [] {
        FinishElsewhere(s.pcs[0], s.cards, s'.cards, s.index, card, x);
      }
      assert CardOk(c, s, x);
      Undisturbed(c, s, s', x);
    }
  }

  lemma Undisturbed(c: Config, s: State, s': State, card: Card)
    requires CardOk(c, s, card) && s'.log == s.log && s'.marked == s.marked
    requires Agrees(s.cards, s'.cards, card) && Agrees(Future(s), Future(s'), card)
    ensures CardOk(c, s', card)
  {
    if Awaited(s, card) {
      var k: nat :| Pending(s, k) && HookFor(s.log[k]) == Wanted(s, card);
      assert Pending(s', k);
    }
  }

  /** A late event makes its card's row one to wait for, or comes too late to matter. */
  lemma AnnounceKeeps(c: Config, s: State, dirty: set<Card>, card: Card, eventType: string)
    requires Inv(c, s, dirty) && MarksInLog(s) && Enabled(c, s, Announce(card, eventType))
    ensures var l := Announce(card, eventType); Inv(c, Step(s, l), DirtyAfter(s, l, dirty))
  {
    var l := Announce(card, eventType);
    var s', row := Step(s, l), EventRow(eventType, Some(card));
    assert |s.log| !in s.marked;
    forall x | x !in DirtyAfter(s, l, dirty)
      ensures CardOk(c, s', x)
    {
      if x == card && card in s.cards {
        AppendHere(c, s', row, x);
      } else {
        assert CardOk(c, s, x);
        if x == card {
          AppendTooLate(c, s, s', row, x);
        } else {
          AppendElsewhere(c, s, s', row, x);
        }
      }
    }
    forall k | 0 <= k < |s'.log| && HookFor(s'.log[k]).Erase?
      ensures HookFor(s'.log[k]).card !in s'.cards
    {
      assert k < |s.log| && s'.log[k] == s.log[k];
    }
  }

  lemma AppendTooLate(c: Config, s: State, s': State, row: EventRow, card: Card)
    requires CardOk(c, s, card) && card !in s.cards && (card in c.cards || Touched(s, card))
    requires s' == s.(log := s.log + [row]) && HookFor(row).Upsert?
    ensures CardOk(c, s', card)
  {
    if Awaited(s, card) {
      var k: nat :| Pending(s, k) && HookFor(s.log[k]) == Erase(card);
      assert s'.log[k] == s.log[k] && Pending(s', k);
    }
  }

  /** Marking a row promises its card's current document, if that is what the row calls for. */
  lemma MarkCures(c: Config, s: State, k: nat, card: Card)
    requires |s.pcs| == 1 && s.pcs[0] == Holding(k) && k < |s.log| && HookFor(s.log[k]) == Wanted(s, card)
    ensures CardOk(c, Acted(s, 0, Mark), card)
  {
    assert Agrees(Future(Acted(s, 0, Mark)), s.cards, card);
  }

  /** And takes no other promise away. */
  lemma MarkKeepsCard(c: Config, s: State, k: nat, card: Card)
    requires |s.pcs| == 1 && s.pcs[0] == Holding(k) && k < |s.log| && DeletedAreGone(s) && CardOk(c, s, card)
    ensures CardOk(c, Acted(s, 0, Mark), card)
  {
    var s' := Acted(s, 0, Mark);
    var hook := HookFor(s.log[k]);
    if hook == Wanted(s, card) {
      MarkCures(c, s, k, card);
    } else {
      assert hook.Erase? ==> hook.card !in s.cards;
      assert Agrees(Future(s'), s.index, card);
      if Awaited(s, card) {
        var j: nat :| Pending(s, j) && HookFor(s.log[j]) == Wanted(s, card);
        assert j != k && Pending(s', j);
      }
    }
  }

  /** Cutting work off breaks the promise of no card but the one worked on. */
  lemma InterruptKeepsCard(c: Config, s: State, card: Card)
    requires |s.pcs| == 1 && card !in AtWork(s.pcs[0]) && CardOk(c, s, card)
    ensures CardOk(c, Acted(s, 0, Interrupt), card)
  {
    assert Agrees(Future(s), s.index, card);
    Undisturbed(c, s, Acted(s, 0, Interrupt), card);
  }

  lemma SameFuture(c: Config, s: State, s': State, dirty: set<Card>)
    requires Inv(c, s, dirty) && s'.cards == s.cards && s'.log == s.log && s'.marked == s.marked
    requires |s'.pcs| == |s.pcs| && Future(s') == Future(s)
    ensures Inv(c, s', dirty)
  {
    forall card | card !in dirty
      ensures CardOk(c, s', card)
    {
      assert CardOk(c, s, card);
      Undisturbed(c, s, s', card);
    }
  }

  lemma ActKeeps(c: Config, s: State, dirty: set<Card>, d: nat, a: Action)
    requires Inv(c, s, dirty) && c.dispatchers <= 1 && Enabled(c, s, Act(d, a))
    ensures Inv(c, Step(s, Act(d, a)), DirtyAfterAct(s, d, a, dirty))
  {
    var s' := Acted(s, d, a);
    assert d == 0 && |s.pcs| == 1;
    match a
    case Take(_) => SameFuture(c, s, s', dirty);
    case Abandon => SameFuture(c, s, s', dirty);
    case Mark => MarkKeeps(c, s, dirty);
    case Work =>
      WorkedFinishes(s.pcs[0], s.cards, s.index);
      SameFuture(c, s, s', dirty);
    case Interrupt =>
      forall card | card !in dirty + AtWork(s.pcs[0])
        ensures CardOk(c, s', card)
      {
        assert CardOk(c, s, card);
        InterruptKeepsCard(c, s, card);
      }
  }

  lemma MarkKeeps(c: Config, s: State, dirty: set<Card>)
    requires Inv(c, s, dirty) && |s.pcs| == 1 && s.pcs[0].Holding? && s.pcs[0].row < |s.log|
    ensures Inv(c, Acted(s, 0, Mark), DirtyAfterAct(s, 0, Mark, dirty))
  {
    var k := s.pcs[0].row;
    forall card | card !in DirtyAfterAct(s, 0, Mark, dirty)
      ensures CardOk(c, Acted(s, 0, Mark), card)
    {
      if card in dirty {
        MarkCures(c, s, k, card);
      } else {
        assert CardOk(c, s, card);
        MarkKeepsCard(c, s, k, card);
      }
    }
  }

  lemma StepKeepsInv(c: Config, s: State, dirty: set<Card>, l: Label)
    requires Inv(c, s, dirty) && c.dispatchers <= 1 && MarksInLog(s) && Enabled(c, s, l)
    ensures Inv(c, Step(s, l), DirtyAfter(s, l, dirty))
  {
    match l
    case Commit(card, doc, eventType) => CommitKeeps(c, s, dirty, card, doc, eventType);
    case Remove(card) => RemoveKeeps(c, s, dirty, card);
    case Other(row) => OtherKeeps(c, s, dirty, row);
    case Unlogged(card, left) => UnloggedKeeps(c, s, dirty, card, left);
    case Announce(card, eventType) => AnnounceKeeps(c, s, dirty, card, eventType);
    case Act(d, a) => ActKeeps(c, s, dirty, d, a);
  }

  lemma {:induction false} ReachableInv(c: Config, labels: seq<Label>, s: State)
    requires Exec(c, labels) == Some(s) && c.dispatchers <= 1
    ensures Inv(c, s, Dirty(c, labels)) && MarksInLog(s)
  {
    if labels == [] {
      forall card
        ensures CardOk(c, s, card)
      {
      }
    } else {
      var prev := Exec(c, Front(labels)).value;
      ReachableInv(c, Front(labels), prev);
      StepKeepsInv(c, prev, Dirty(c, Front(labels)), Last(labels));
    }
  }

  // ------------------------------------------------------------ convergence

  /** No undispatched row and nobody at work. */
  predicate Quiet(s: State)
  {
    && (forall k :: 0 <= k < |s.log| ==> k in s.marked)
    && (forall d :: 0 <= d < |s.pcs| ==> s.pcs[d] == Idle)
  }

  /** In every run, at every quiet moment, each card any event was about is indexed as it is, or not at all if it is gone. */
  ghost predicate Converges(c: Config)
  {
    forall labels, s, card :: Exec(c, labels) == Some(s) && Quiet(s) && Touched(s, card) ==> Agrees(s.index, s.cards, card)
  }

  lemma QuietAgrees(c: Config, labels: seq<Label>, s: State, card: Card)
    requires Exec(c, labels) == Some(s) && c.dispatchers <= 1 && Quiet(s) && card !in Dirty(c, labels)
    ensures Agrees(s.index, s.cards, card) || (!Touched(s, card) && Agrees(s.index, c.index, card) && Agrees(s.cards, c.cards, card))
  {
    ReachableInv(c, labels, s);
    assert CardOk(c, s, card);
  }

  lemma {:induction false} NoneDirty(c: Config, labels: seq<Label>)
    requires Exec(c, labels).Some? && !c.unlogged && !c.interrupts
    ensures Dirty(c, labels) == {}
  {
    if labels != [] {
      NoneDirty(c, Front(labels));
    }
  }

  /**
   One dispatcher, however often it is cut off: at every quiet moment a card that any
   event was about is indexed as it is, provided an event of it, in the change's own
   transaction or a later one, or an update of it has followed its last change and
   its last update that was cut off.
   */
  lemma AgreesOnceAnnounced(c: Config, labels: seq<Label>, s: State, card: Card)
    requires Exec(c, labels) == Some(s) && c.dispatchers <= 1 && Quiet(s) && Touched(s, card)
    requires card !in Dirty(c, labels)
    ensures Agrees(s.index, s.cards, card)
  {
    QuietAgrees(c, labels, s, card);
  }

  /** If the backfill left the index equal to the table, it is equal again at every quiet moment when no card has been left behind. */
  lemma IndexEqualsTable(c: Config, labels: seq<Label>, s: State)
    requires Exec(c, labels) == Some(s) && c.dispatchers <= 1 && Quiet(s) && c.index == c.cards && Dirty(c, labels) == {}
    ensures s.index == s.cards
  {
    forall card
      ensures Agrees(s.index, s.cards, card)
    {
      QuietAgrees(c, labels, s, card);
      assert Agrees(c.index, c.cards, card);
    }
    forall card
      ensures card in s.index <==> card in s.cards
      ensures card in s.index ==> s.index[card] == s.cards[card]
    {
      assert Agrees(s.index, s.cards, card);
    }
  }

  // ------------------------------------------------------------ where convergence stops

  /** A document unlike the one the index starts with. */
  function Novel(c: Config, n: nat): Doc
  {
    Doc((if 0 in c.index then c.index[0].fields else 0) + 1 + n, [], [])
  }

  /** Card 0 is changed and the row for it is marked by a dispatcher. */
  lemma ChangeAndMark(c: Config, labels: seq<Label>, s: State, doc: Doc, d: nat) returns (labels': seq<Label>, s': State)
    requires Exec(c, labels) == Some(s) && d < |s.pcs| && s.pcs[d] == Idle && MarksInLog(s) && !Deleted(s, 0)
    ensures Exec(c, labels') == Some(s')
    ensures s' == State(s.cards[0 := doc], s.log + [EventRow("CardUpdated", Some(0))], s.marked + {|s.log|}, s.index, s.pcs[d := LoadCard(0)])
  {
    labels', s' := Extend(c, labels, s, Commit(0, doc, "CardUpdated"));
    labels', s' := Extend(c, labels', s', Act(d, Take(|s.log|)));
    labels', s' := Extend(c, labels', s', Act(d, Mark));
    assert s'.pcs == s.pcs[d := LoadCard(0)];
  }

  lemma Load(c: Config, labels: seq<Label>, s: State, d: nat) returns (labels': seq<Label>, s': State)
    requires Exec(c, labels) == Some(s) && d < |s.pcs| && s.pcs[d] == LoadCard(0) && 0 in s.cards
    ensures Exec(c, labels') == Some(s')
    ensures s' == s.(pcs := s.pcs[d := PutDoc(0, s.cards[0])])
  {
    labels', s' := Extend(c, labels, s, Act(d, Work));
    labels', s' := Extend(c, labels', s', Act(d, Work));
    labels', s' := Extend(c, labels', s', Act(d, Work));
    assert s'.pcs == s.pcs[d := PutDoc(0, s.cards[0])];
  }

  lemma ChangeMarkLoad(c: Config, labels: seq<Label>, s: State, doc: Doc, d: nat) returns (labels': seq<Label>, s': State)
    requires Exec(c, labels) == Some(s) && d < |s.pcs| && s.pcs[d] == Idle && MarksInLog(s) && !Deleted(s, 0)
    ensures Exec(c, labels') == Some(s') && MarksInLog(s') && !Deleted(s', 0)
    ensures s' == State(s.cards[0 := doc], s.log + [EventRow("CardUpdated", Some(0))], s.marked + {|s.log|}, s.index, s.pcs[d := PutDoc(0, doc)])
  {
    labels', s' := ChangeAndMark(c, labels, s, doc, d);
    labels', s' := Load(c, labels', s', d);
    assert s'.pcs == s.pcs[d := PutDoc(0, doc)];
  }

  lemma Put(c: Config, labels: seq<Label>, s: State, d: nat) returns (labels': seq<Label>, s': State)
    requires Exec(c, labels) == Some(s) && d < |s.pcs| && s.pcs[d].PutDoc?
    ensures Exec(c, labels') == Some(s')
    ensures s' == s.(index := s.index[s.pcs[d].card := s.pcs[d].doc], pcs := s.pcs[d := Idle])
  {
    labels', s' := Extend(c, labels, s, Act(d, Work));
  }

  ghost predicate Stale(c: Config, labels: seq<Label>, s: State)
  {
    Exec(c, labels) == Some(s) && Quiet(s) && Touched(s, 0) && !Agrees(s.index, s.cards, 0)
  }

  lemma Begins(c: Config) returns (s: State)
    ensures Exec(c, []) == Some(s) && s == Initial(c) && MarksInLog(s) && !Deleted(s, 0)
    ensures |s.pcs| == c.dispatchers && forall d :: 0 <= d < |s.pcs| ==> s.pcs[d] == Idle
  {
    s := Initial(c);
  }

  /** Cut off between the mark and the index write, a dispatcher never comes back to the row. */
  lemma InterruptLeavesStale(c: Config) returns (labels: seq<Label>, s: State)
    requires c.dispatchers > 0 && c.interrupts
    ensures Stale(c, labels, s)
  {
    s := Begins(c);
    labels, s := ChangeAndMark(c, [], s, Novel(c, 0), 0);
    labels, s := Extend(c, labels, s, Act(0, Interrupt));
    assert HookFor(s.log[0]) == Upsert(0);
  }

  lemma GoneIsStale(c: Config, labels: seq<Label>, s: State)
    requires Exec(c, labels) == Some(s) && s.log == [EventRow("CardUpdated", Some(0))] && s.marked == {0}
    requires forall d :: 0 <= d < |s.pcs| ==> s.pcs[d] == Idle
    requires 0 !in s.cards && 0 in s.index
    ensures Stale(c, labels, s)
  {
    assert HookFor(s.log[0]) == Upsert(0);
  }

  /** A card changed or deleted without an event keeps its old document. */
  lemma UnloggedLeavesStale(c: Config) returns (labels: seq<Label>, s: State)
    requires c.dispatchers > 0 && c.unlogged
    ensures Stale(c, labels, s)
  {
    var s0 := Begins(c);
    var first, s1 := ChangeMarkLoad(c, [], s0, Novel(c, 0), 0);
    var second, s2 := Put(c, first, s1, 0);
    assert s2.pcs == s0.pcs && s2.log == [EventRow("CardUpdated", Some(0))] && s2.marked == {0};
    labels, s := Extend(c, second, s2, Unlogged(0, None));
    GoneIsStale(c, labels, s);
  }

  /** The later change is indexed first, then the earlier one. */
  lemma PutLaterFirst(c: Config, labels: seq<Label>, s: State, old': Doc, new': Doc) returns (labels': seq<Label>, s': State)
    requires Exec(c, labels) == Some(s) && |s.pcs| > 1 && s.pcs[0] == PutDoc(0, old') && s.pcs[1] == PutDoc(0, new')
    ensures Exec(c, labels') == Some(s')
    ensures s' == s.(index := s.index[0 := old'], pcs := s.pcs[0 := Idle][1 := Idle])
  {
    labels', s' := Put(c, labels, s, 1);
    labels', s' := Put(c, labels', s', 0);
    assert s'.index == s.index[0 := old'];
    assert s'.pcs == s.pcs[0 := Idle][1 := Idle];
  }

  /** Two dispatchers can write the older of two loads last. */
  lemma RaceLeavesStale(c: Config) returns (labels: seq<Label>, s: State)
    requires c.dispatchers > 1
    ensures Stale(c, labels, s)
  {
    var s0 := Begins(c);
    var first, s1 := ChangeMarkLoad(c, [], s0, Novel(c, 0), 0);
    var second, s2 := ChangeMarkLoad(c, first, s1, Novel(c, 1), 1);
    labels, s := PutLaterFirst(c, second, s2, Novel(c, 0), Novel(c, 1));
    assert s2.pcs == s0.pcs[0 := PutDoc(0, Novel(c, 0))][1 := PutDoc(0, Novel(c, 1))];
    SeenStale(c, labels, s);
  }

  lemma SeenStale(c: Config, labels: seq<Label>, s: State)
    requires Exec(c, labels) == Some(s) && |s.log| == 2 && s.marked == {0, 1}
    requires s.log[0] == EventRow("CardUpdated", Some(0))
    requires forall d :: 0 <= d < |s.pcs| ==> s.pcs[d] == Idle
    requires 0 in s.cards && 0 in s.index && s.cards[0] == Novel(c, 1) && s.index[0] == Novel(c, 0)
    ensures Stale(c, labels, s)
  {
    assert HookFor(s.log[0]) == Upsert(0);
  }

  /** The exact condition, once at least one dispatcher runs. */
  lemma ConvergesIff(c: Config)
    requires c.dispatchers > 0
    ensures Converges(c) <==> c.dispatchers == 1 && !c.interrupts && !c.unlogged
  {
    if c.dispatchers <= 1 && !c.interrupts && !c.unlogged {
      forall labels, s, card | Exec(c, labels) == Some(s) && Quiet(s) && Touched(s, card)
        ensures Agrees(s.index, s.cards, card)
      {
        NoneDirty(c, labels);
        QuietAgrees(c, labels, s, card);
      }
    } else {
      var labels, s;
      if c.interrupts {
        labels, s := InterruptLeavesStale(c);
      } else if c.unlogged {
        labels, s := UnloggedLeavesStale(c);
      } else {
        labels, s := RaceLeavesStale(c);
      }
    }
  }

  // ------------------------------------------------------------ the write path as code

  /** `None` is a failed load or a failed request: it is logged and swallowed. */
  class SearchIndexer {
    var index: Docs

    constructor (index: Docs)
      ensures this.index == index
    {
      this.index := index;
    }

    /** Three statements, each seeing the table as it is at that moment. */
    static method CardDocumentFromDb(card: Card, first: Docs, second: Docs, third: Docs) returns (doc: Option<Doc>)
      ensures doc.Some? <==> card in first
      ensures doc.Some? ==> doc.value == Doc(first[card].fields, LabelsOf(second, card), AssigneesOf(third, card))
      ensures forall cards, index :: first == second == third == cards ==>
                Finish(LoadCard(card), cards, index) == if doc.Some? then index[card := doc.value] else index
    {
      if card !in first {
        return None;
      }
      doc := Some(Doc(first[card].fields, LabelsOf(second, card), AssigneesOf(third, card)));
    }

    method IndexCardById(card: Card, first: Docs, second: Docs, third: Docs, loads: bool, indexes: bool)
      modifies this
      ensures !loads || !indexes || card !in first ==> index == old(index)
      ensures loads && indexes && first == second == third ==> index == Finish(LoadCard(card), first, old(index))
      ensures forall x :: x != card ==> Agrees(index, old(index), x)
      ensures loads && indexes && card in first ==>
                index == old(index)[card := Doc(first[card].fields,
                                                if card in second then second[card].labels else [],
                                                if card in third then third[card].assignees else [])]
    {
      if loads {
        var doc := CardDocumentFromDb(card, first, second, third);
        if doc.Some? && indexes {
          index := index[card := doc.value];
        }
      }
    }

    method DeleteCardDoc(card: Card, deletes: bool)
      modifies this
      ensures index == if deletes then Finish(DropDoc(card), map[], old(index)) else old(index)
      ensures deletes ==> card !in index
    {
      if deletes {
        index := index - {card};
      }
    }

    /**
     Step 6 of a dispatch, with any failures and any changes between the loads: only
     the event's card is concerned, and with no failure and no change between the
     loads the index is what the transition system's work leads to.
     */
    method AfterMark(row: EventRow, first: Docs, second: Docs, third: Docs, loads: bool, requestOk: bool)
      modifies this
      ensures forall x :: (HookFor(row) != Nothing ==> x != HookFor(row).card) ==> Agrees(index, old(index), x)
      ensures first == second == third && loads && requestOk ==> index == Finish(Begin(HookFor(row)), first, old(index))
      ensures !requestOk || (HookFor(row).Upsert? && !loads) ==> index == old(index)
      ensures (row.card.Some? && row.eventType in {"CardCreated", "CardUpdated", "CardMoved", "CardTransferred"} &&
               loads && requestOk && row.card.value in first) ==>
                index == old(index)[row.card.value := Doc(first[row.card.value].fields,
                                                         if row.card.value in second then second[row.card.value].labels else [],
                                                         if row.card.value in third then third[row.card.value].assignees else [])]
      ensures (row.card.Some? && row.eventType in {"CardCreated", "CardUpdated", "CardMoved", "CardTransferred"} &&
               (!loads || !requestOk || row.card.value !in first)) ==>
                index == old(index)
      ensures row.card.Some? && row.eventType == "CardDeleted" ==>
                index == if requestOk then old(index) - {row.card.value} else old(index)
      ensures row.card == None || row.eventType !in {"CardCreated", "CardUpdated", "CardMoved", "CardTransferred", "CardDeleted"} ==>
                index == old(index)
    {
      match HookFor(row)
      case Upsert(card) => IndexCardById(card, first, second, third, loads, requestOk);
      case Erase(card) => DeleteCardDoc(card, requestOk);
      case Nothing =>
    }
  }
}
