// reactions.go, receipts.go and the first half of addChatLinkTx: who did what to which message,
// kept under one name for each linked person whatever the order in which things become known.
module Participants {
  import opened Links
  import opened Merging
  import opened Reports
  import opened TextOrder
  import opened Wrappers

  // The participant_id of the account's own reactions; no JID is spelled like this.
  const SELF: Jid := "self"

  // Zero times are None. An own reaction names no participant.
  datatype Incoming =
    | Link(first: Jid, second: Jid)
    | React(chat: Jid, target: string, own: bool, who: Jid, alias: Jid, at: Option<int>, event: string, emoji: string)
    | Receive(chat: Jid, who: Jid, alias: Jid, ids: seq<string>, kind: string, at: Option<int>, group: bool)

  predicate Accepted(e: Incoming) {
    match e
    case Link(_, _) => true
    case React(chat, target, own, who, _, at, event, emoji) =>
      chat != "" && target != "" && (own || who != "") && at.Some? && event != "" && Utf8Length(emoji) <= 128
    case Receive(chat, who, _, ids, kind, at, _) =>
      chat != "" && who != "" && at.Some? && 0 < |ids| <= 1000 && (kind == "delivered" || kind == "read") && "" !in ids
  }

  predicate NamesNobodySelf(e: Incoming) {
    match e
    case Link(first, second) => first != SELF && second != SELF
    case React(_, _, own, who, alias, _, _, _) => own || (who != SELF && alias != SELF)
    case Receive(_, who, alias, _, _, _, _) => who != SELF && alias != SELF
  }

  function LinkRows(first: Jid, second: Jid): set<LinkRow> {
    if first == "" || second == "" || first == second then {} else {(first, second), (second, first)}
  }

  // What one accepted incoming event teaches the store.
  function LinksOf(e: Incoming): set<LinkRow> {
    match e
    case Link(first, second) => LinkRows(first, second)
    case React(_, _, own, who, alias, _, _, _) => if own then {} else LinkRows(who, alias)
    case Receive(_, who, alias, _, _, _, _) => LinkRows(who, alias)
  }

  function ReactionsOf(e: Incoming): set<Report<Reaction>>
    requires Accepted(e)
  {
    if !e.React? then {}
    else {Report(Slot(e.chat, e.target, if e.own then SELF else e.who), Reaction(e.emoji, e.at.value, e.event))}
  }

  function TimesOf(e: Incoming): Receipt
    requires e.Receive? && e.at.Some?
  {
    if e.kind == "read" then Receipt(None, e.at, e.group) else Receipt(e.at, None, e.group)
  }

  function ReceiptsOf(e: Incoming): set<Report<Receipt>>
    requires Accepted(e)
  {
    if !e.Receive? then {} else Reported(e.chat, e.who, e.ids, TimesOf(e))
  }

  ghost function RepOf(rows: set<LinkRow>): Jid -> Jid {
    (j: Jid) => Rep(rows, j)
  }

  // rep with every name in done replaced by to.
  ghost function Folded(rep: Jid -> Jid, done: seq<Jid>, to: Jid): Jid -> Jid {
    j => if rep(j) in done then to else rep(j)
  }

  lemma FoldedAll(rows: set<LinkRow>, a: Jid, b: Jid, names: seq<Jid>)
    requires WellFormed(rows) && a != "" && b != "" && names != [] && Sorted(names)
    requires forall x :: x in names <==> x in Component(WithLink(rows, a, b), a)
    ensures forall j :: Folded(RepOf(rows), names[1..], names[0])(j) == RepOf(WithLink(rows, a, b))(j)
  {
    var rows' := WithLink(rows, a, b);
    var joined := Component(rows', a);
    SortedHeadIsLeast(names, joined);
    LinkJoinsComponents(rows, a, b, a);
    forall j
      ensures Folded(RepOf(rows), names[1..], names[0])(j) == Rep(rows', j)
    {
      LinkJoinsComponents(rows, a, b, j);
      LeastUnique(joined, names[0], Rep(rows', a));
      var r := Rep(rows, j);
      if j in joined {
        SameComponent(rows, if j in Component(rows, a) then a else b, j);
        assert r in joined;
        assert Rep(rows', j) == Rep(rows', a) == names[0];
      } else {
        SameComponent(rows, j, r);
        if r in joined {
          SameComponent(rows, if r in Component(rows, a) then a else b, r);
          assert false;
        }
      }
    }
  }

  lemma FoldedStep<V(!new)>(join: (V, V) -> V, rep: Jid -> Jid, reports: set<Report<V>>, table: Table<V>,
                            done: seq<Jid>, x: Jid, to: Jid)
    requires Semilattice(join) && x != to && Correct(join, Folded(rep, done, to), reports, table)
    ensures Correct(join, Folded(rep, done + [x], to), reports, Rekey(join, table, x, to))
  {
    RekeyCorrect(join, Folded(rep, done, to), reports, table, x, to);
    CorrectSameRep(join, Merged(Folded(rep, done, to), x, to), Folded(rep, done + [x], to), reports,
                   Rekey(join, table, x, to));
  }

  // Move the rows of every later name under the first.
  method MoveRows<V(!new)>(join: (V, V) -> V, table: Table<V>, names: seq<Jid>, ghost rep: Jid -> Jid,
                           ghost reports: set<Report<V>>) returns (table': Table<V>)
    requires Semilattice(join) && names != [] && Sorted(names) && Correct(join, rep, reports, table)
    ensures Correct(join, Folded(rep, names[1..], names[0]), reports, table')
  {
    table' := table;
    CorrectSameRep(join, rep, Folded(rep, [], names[0]), reports, table);
    var i := 1;
    assert names[1..1] == [];
    while i < |names|
      invariant 1 <= i <= |names|
      invariant Correct(join, Folded(rep, names[1..i], names[0]), reports, table')
    {
      LessIrreflexive(names[0]);
      FoldedStep(join, rep, reports, table', names[1..i], names[i], names[0]);
      assert names[1..i + 1] == names[1..i] + [names[i]];
      table' := Rekey(join, table', names[i], names[0]);
      i := i + 1;
    }
    assert names[1..i] == names[1..];
  }

  // mergeReactionParticipantsTx and mergeReceiptParticipantsTx: after the link (a, b) was stored,
  // move every row of a's component under the component's least name.
  method MergeParticipants<V(!new)>(join: (V, V) -> V, ghost before: set<LinkRow>, rows: set<LinkRow>, a: Jid,
                                    ghost b: Jid,
                                    table: Table<V>, ghost reports: set<Report<V>>) returns (table': Table<V>)
    requires Semilattice(join) && WellFormed(before) && a != "" && b != "" && rows == WithLink(before, a, b)
    requires Correct(join, RepOf(before), reports, table)
    ensures Correct(join, RepOf(rows), reports, table')
  {
    LinkJoinsComponents(before, a, b, a);
    var jids := LinkedJids(rows, [a]);
    LinkedOne(rows, a);
    var names := Sort(jids);
    assert a in Component(rows, a);
    table' := MoveRows(join, table, names, RepOf(before), reports);
    FoldedAll(before, a, b, names);
    CorrectSameRep(join, Folded(RepOf(before), names[1..], names[0]), RepOf(rows), reports, table');
  }

  lemma SelfAlone(rows: set<LinkRow>)
    requires forall r :: r in rows ==> r.0 != SELF && r.1 != SELF
    ensures Rep(rows, SELF) == SELF
  {
    ComponentWithin(rows, {SELF}, SELF);
    assert Component(rows, SELF) == {SELF};
  }

  // Everything the participant tables depend on.
  datatype Knowledge = Knowledge(links: set<LinkRow>, reacted: set<Report<Reaction>>, received: set<Report<Receipt>>)

  // The two tables agree with all that is known.
  ghost predicate Consistent(k: Knowledge, reactions: Table<Reaction>, receipts: Table<Receipt>) {
    && WellFormed(k.links)
    && (forall r :: r in k.links ==> r.0 != SELF && r.1 != SELF)
    && Correct(Latest, RepOf(k.links), k.reacted, reactions)
    && Correct(Earliest, RepOf(k.links), k.received, receipts)
  }

  // The participant columns of one account's database, with the history they must agree with.
  class Tables {
    var links: set<LinkRow>
    var reactions: Table<Reaction>
    var receipts: Table<Receipt>
    ghost var reacted: set<Report<Reaction>>
    ghost var received: set<Report<Receipt>>

    ghost function Now(): Knowledge
      reads this
    {
      Knowledge(links, reacted, received)
    }

    ghost predicate Valid()
      reads this
    {
      Consistent(Now(), reactions, receipts)
    }

    constructor ()
      ensures Valid() && links == {} && reacted == {} && received == {}
    {
      links, reactions, receipts, reacted, received := {}, map[], map[], {}, {};
      new;
      EmptyCorrect(Latest, RepOf(links));
      EmptyCorrect(Earliest, RepOf(links));
    }

    // addChatLinkTx up to the point where conversations are looked at.
    method AddLink(first: Jid, second: Jid)
      requires Valid() && first != SELF && second != SELF
      modifies this`links, this`reactions, this`receipts
      ensures Valid() && links == old(links) + LinkRows(first, second)
    {
      if first == "" || second == "" || first == second {
        return;
      }
      ghost var before := links;
      LatestIsSemilattice();
      EarliestIsSemilattice();
      LinkJoinsComponents(links, first, second, first);
      links := WithLink(links, first, second);
      reactions := MergeParticipants(Latest, before, links, first, second, reactions, reacted);
      receipts := MergeParticipants(Earliest, before, links, first, second, receipts, received);
    }

    // The least JID of everyone linked with jid.
    method Representative(jid: Jid) returns (name: Jid)
      requires Valid() && jid != ""
      ensures name == Rep(links, jid)
    {
      var jids := LinkedJids(links, [jid]);
      LinkedOne(links, jid);
      var names := Sort(jids);
      assert jid in Component(links, jid);
      SortedHeadIsLeast(names, Component(links, jid));
      LeastUnique(Component(links, jid), names[0], Rep(links, jid));
      name := names[0];
    }

    // The upsert of saveReactionTx, once the link that the reaction brings is stored.
    method RecordReaction(e: Incoming) returns (changed: bool)
      requires Valid() && e.React? && Accepted(e)
      modifies this`reactions, this`reacted
      ensures Valid() && reacted == old(reacted) + ReactionsOf(e) && SameOutside(e.chat, old(reactions), reactions)
      ensures changed <==> reactions != old(reactions)
      ensures var slot := Slot(e.chat, e.target, if e.own then SELF else Rep(links, e.who));
              && (changed ==> reactions == old(reactions)[slot := Reaction(e.emoji, e.at.value, e.event)])
              && (slot !in old(reactions) ==> changed)
              && (slot in old(reactions) ==>
                    var stored := old(reactions)[slot];
                    && (stored.at < e.at.value ==> changed)
                    && (stored.at > e.at.value ==> !changed)
                    && (stored.at == e.at.value && (stored.emoji == "" <==> e.emoji != "") ==>
                          (changed <==> e.emoji == "")))
    {
      var name := SELF;
      if !e.own {
        name := Representative(e.who);
      } else {
        SelfAlone(links);
      }
      var slot, value := Slot(e.chat, e.target, name), Reaction(e.emoji, e.at.value, e.event);
      ghost var report := Report(slot.(who := if e.own then SELF else e.who), value);
      LatestIsSemilattice();
      UpsertCorrect(Latest, RepOf(links), reacted, reactions, report);
      changed := slot !in reactions || Older(reactions[slot], value);
      if changed {
        OlderTotal(value, value);
        reactions := reactions[slot := value];
      }
      reacted := reacted + {report};
    }

    // The guarded upsert of one receipt row.
    method UpsertReceipt(slot: Slot, value: Receipt, ghost who: Jid) returns (changed: bool)
      requires Valid() && slot.who == Rep(links, who)
      modifies this`receipts, this`received
      ensures Valid() && received == old(received) + {Report(slot.(who := who), value)}
      ensures Earlier(old(receipts), receipts) && SameOutside(slot.chat, old(receipts), receipts)
      ensures changed <==> receipts != old(receipts)
    {
      ghost var report := Report(slot.(who := who), value);
      EarliestIsSemilattice();
      UpsertCorrect(Earliest, RepOf(links), received, receipts, report);
      ghost var upserted := Upsert(Earliest, receipts, slot, value);
      changed := false;
      if slot !in receipts {
        receipts, changed := receipts[slot := value], true;
      } else {
        ImprovesIffChanges(receipts[slot], value);
        if Improves(receipts[slot], value) {
          receipts, changed := receipts[slot := Earliest(receipts[slot], value)], true;
        }
      }
      assert receipts == upserted;
      received := received + {report};
    }

    // The loop of saveReceiptTx, once the link that the receipt brings is stored.
    method RecordReceipt(e: Incoming) returns (changed: bool)
      requires Valid() && e.Receive? && Accepted(e)
      modifies this`receipts, this`received
      ensures Valid() && received == old(received) + ReceiptsOf(e) && SameOutside(e.chat, old(receipts), receipts)
      ensures changed <==> receipts != old(receipts)
    {
      hide Consistent, Reported;
      var name := Representative(e.who);
      var value := TimesOf(e);
      changed := false;
      ReportedNone(e.chat, e.who, value);
      assert e.ids[..0] == [];
      EarlierSame(receipts);
      var i := 0;
      while i < |e.ids|
        invariant 0 <= i <= |e.ids| && Valid()
        invariant received == old(received) + Reported(e.chat, e.who, e.ids[..i], value)
        invariant Earlier(old(receipts), receipts) && SameOutside(e.chat, old(receipts), receipts)
        invariant (changed <==> receipts != old(receipts))
      {
        ghost var before := receipts;
        var changedHere := UpsertReceipt(Slot(e.chat, e.ids[i], name), value, e.who);
        EarlierOnwards(old(receipts), before, receipts);
        changed := changed || changedHere;
        ReportedStep(e.chat, e.who, e.ids[..i], e.ids[i], value);
        assert e.ids[..i + 1] == e.ids[..i] + [e.ids[i]];
        i := i + 1;
      }
      assert e.ids[..i] == e.ids;
    }

    // What saveReactionTx and saveReceiptTx do once addChatLinkTx has stored the links that the event brings.
    method Record(e: Incoming) returns (changed: bool)
      requires Valid() && Accepted(e) && LinksOf(e) <= links
      modifies this`reactions, this`receipts, this`reacted, this`received
      ensures Valid() && Now() == Learn(old(Now()), {e})
      ensures changed <==> reactions != old(reactions) || receipts != old(receipts)
      ensures forall chat :: !e.Link? && chat != e.chat ==>
              SameIn(chat, old(reactions), reactions) && SameIn(chat, old(receipts), receipts)
    {
      hide Consistent;
      LearnOnly(Now(), e);
      match e {
        case Link(_, _) =>
          changed := false;
        case React(_, _, _, _, _, _, _, _) =>
          changed := RecordReaction(e);
        case Receive(_, _, _, _, _, _, _) =>
          changed := RecordReceipt(e);
      }
    }
  }

  ghost predicate SameIn<V>(chat: Jid, before: Table<V>, after: Table<V>) {
    forall slot: Slot :: slot.chat == chat ==> Lookup(before, slot) == Lookup(after, slot)
  }

  ghost predicate SameOutside<V>(chat: Jid, before: Table<V>, after: Table<V>) {
    forall slot: Slot :: slot.chat != chat ==> Lookup(before, slot) == Lookup(after, slot)
  }

  // Every row of a receipt table stays and only takes earlier times.
  ghost predicate Earlier(before: Table<Receipt>, after: Table<Receipt>) {
    forall slot :: slot in before ==> slot in after && Below(Earliest, before[slot], after[slot])
  }

  lemma EarlierSame(t: Table<Receipt>)
    ensures Earlier(t, t)
  {
    EarliestIsSemilattice();
  }

  // What one step of a series changed, no later step changes back.
  lemma EarlierOnwards(a: Table<Receipt>, b: Table<Receipt>, c: Table<Receipt>)
    requires Earlier(a, b) && Earlier(b, c)
    ensures Earlier(a, c) && (a != c <==> a != b || b != c)
  {
    EarliestIsSemilattice();
    forall slot | slot in a
      ensures slot in c && Below(Earliest, a[slot], c[slot]) && (a[slot] == c[slot] ==> a[slot] == b[slot])
    {
      BelowTransitive(Earliest, a[slot], b[slot], c[slot]);
      assert Earliest(a[slot], b[slot]) == Earliest(b[slot], a[slot]);
    }
  }

  ghost function Learn(k: Knowledge, events: set<Incoming>): Knowledge {
    Knowledge(k.links + (set e, r | e in events && r in LinksOf(e) :: r),
              k.reacted + (set e, r | e in events && Accepted(e) && r in ReactionsOf(e) :: r),
              k.received + (set e, r | e in events && Accepted(e) && r in ReceiptsOf(e) :: r))
  }

  ghost function EventsOf(batch: seq<Incoming>): set<Incoming> {
    set e | e in batch
  }

  lemma LearnNothing(k: Knowledge)
    ensures Learn(k, {}) == k
  {
  }

  lemma LearnOnly(k: Knowledge, e: Incoming)
    requires Accepted(e)
    ensures Learn(k, {e}) == Knowledge(k.links + LinksOf(e), k.reacted + ReactionsOf(e), k.received + ReceiptsOf(e))
  {
  }

  lemma LearnMore(k: Knowledge, events: set<Incoming>, more: set<Incoming>)
    ensures Learn(Learn(k, events), more) == Learn(k, events + more)
  {
  }

  lemma LearnOne(k: Knowledge, done: seq<Incoming>, e: Incoming)
    ensures Learn(Learn(k, EventsOf(done)), {e}) == Learn(k, EventsOf(done + [e]))
  {
    LearnMore(k, EventsOf(done), {e});
    assert EventsOf(done + [e]) == EventsOf(done) + {e};
  }

  // What is known decides both tables.
  lemma KnowledgeDecides(k: Knowledge, reactions: Table<Reaction>, receipts: Table<Receipt>,
                         reactions': Table<Reaction>, receipts': Table<Receipt>)
    requires Consistent(k, reactions, receipts) && Consistent(k, reactions', receipts')
    ensures reactions == reactions' && receipts == receipts'
  {
    LatestIsSemilattice();
    EarliestIsSemilattice();
    CorrectUnique(Latest, RepOf(k.links), k.reacted, reactions, reactions');
    CorrectUnique(Earliest, RepOf(k.links), k.received, receipts, receipts');
  }

  function Reported(chat: Jid, who: Jid, ids: seq<string>, value: Receipt): set<Report<Receipt>> {
    set id | id in ids :: Report(Slot(chat, id, who), value)
  }

  lemma ReportedNone(chat: Jid, who: Jid, value: Receipt)
    ensures Reported(chat, who, [], value) == {}
  {
  }

  lemma ReportedStep(chat: Jid, who: Jid, ids: seq<string>, id: string, value: Receipt)
    ensures Reported(chat, who, ids + [id], value) ==
            Reported(chat, who, ids, value) + {Report(Slot(chat, id, who), value)}
  {
  }
}
