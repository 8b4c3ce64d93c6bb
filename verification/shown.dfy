// From what happened to what a reader sees: reactions, delivery counts and receipt times of a message after any run,
// in terms of the events themselves.
module Shown {
  import Changes
  import opened Conversations
  import opened History
  import opened Links
  import opened Merging
  import opened Participants
  import opened Reading
  import opened Reports
  import opened TextOrder
  import opened Wrappers

  // What a new store knows once it took some events.
  ghost function Heard(events: set<Incoming>): Knowledge {
    Learn(Knowledge({}, {}, {}), events)
  }

  // The tables of a store that took these events, however they came.
  ghost predicate Took(events: set<Incoming>, reactions: Table<Reaction>, receipts: Table<Receipt>) {
    (forall e :: e in events ==> Accepted(e)) && Consistent(Heard(events), reactions, receipts)
  }

  predicate NamesTogether(e: Incoming, a: Jid, b: Jid) {
    match e
    case Link(first, second) => {first, second} == {a, b}
    case React(_, _, own, who, alias, _, _, _) => !own && {who, alias} == {a, b}
    case Receive(_, who, alias, _, _, _, _) => {who, alias} == {a, b}
  }

  // Two JIDs are linked by the events that name them together: links, and other people's reactions and receipts.
  lemma NamesLink(events: set<Incoming>, a: Jid, b: Jid)
    ensures (a, b) in Heard(events).links <==>
            a != b && a != "" && b != "" && exists e :: e in events && NamesTogether(e, a, b)
  {
    forall e | e in events
      ensures (a, b) in LinksOf(e) <==> a != b && a != "" && b != "" && NamesTogether(e, a, b)
    {
      OfEvent(e, a, b);
    }
  }

  lemma OfEvent(e: Incoming, a: Jid, b: Jid)
    ensures (a, b) in LinksOf(e) <==> a != b && a != "" && b != "" && NamesTogether(e, a, b)
  {
    var (x, y) := match e
      case Link(first, second) => (first, second)
      case React(_, _, _, who, alias, _, _, _) => (who, alias)
      case Receive(_, who, alias, _, _, _, _) => (who, alias);
    if {x, y} == {a, b} && a != b {
      assert a in {x, y} && b in {x, y};
    }
    if (a, b) in LinkRows(x, y) {
      assert {x, y} == {a, b};
    }
  }

  // Every run of a new store ends with tables of the events it took.
  method RunTakes(run: seq<Transaction>) returns (s: Store)
    requires forall t :: t in run ==> t.Proper()
    ensures s.Valid() && Took(Taken(run), s.people.reactions, s.people.receipts)
  {
    hide Consistent, Learn, Transaction.Proper, Accepted;
    s := new Store();
    Replay(s, run);
    forall e | e in Taken(run)
      ensures Accepted(e)
    {
      var t :| t in run && e in t.Taken();
      TakenIsAccepted(t, e);
    }
  }

  lemma TakenIsAccepted(t: Transaction, e: Incoming)
    requires e in t.Taken()
    ensures Accepted(e)
  {
  }

  // The changes that a run stored, told by the ones that were accepted, live or in a batch.
  lemma ChangesTaken(run: seq<Transaction>, c: Changes.Change)
    ensures c in TakenChanges(run) <==>
            exists t, i :: t in run && Brought(t, i) && IsStored(i, c)
    decreases |run|
  {
    if run != [] {
      var less, last := run[..|run| - 1], run[|run| - 1];
      ChangesTaken(less, c);
      assert forall t :: t in run <==> t in less || t == last;
      ChangesBrought(last, c);
    }
  }

  // The transaction commits and brings the change.
  ghost predicate Brought(t: Transaction, i: ChangeIn) {
    match t
    case Live(_, _) => false
    case Changed(c) => c.Accepted() && i == c
    case Imported(b, _) => b.Accepted() && i in b.changes
  }

  predicate IsStored(i: ChangeIn, c: Changes.Change) {
    && c.key.chat == i.chat && c.key.target == i.target && c.key.kind == i.kind && i.at == Some(c.key.at)
    && c.key.event == i.event && c.text == i.text
  }

  lemma ChangesBrought(t: Transaction, c: Changes.Change)
    ensures c in t.TakenChanges() <==> exists i :: Brought(t, i) && IsStored(i, c)
  {
    if t.Changed? && t.change.Accepted() {
      assert Brought(t, t.change);
    }
    if t.Imported? && t.batch.Accepted() {
      if c in t.TakenChanges() {
        var k :| 0 <= k < |t.batch.changes| && t.batch.Changes()[k] == c;
        assert Brought(t, t.batch.changes[k]) && IsStored(t.batch.changes[k], c);
      }
      if i :| Brought(t, i) && IsStored(i, c) {
        var k :| 0 <= k < |t.batch.changes| && t.batch.changes[k] == i;
        assert t.batch.Changes()[k] == c;
      }
    }
  }

  lemma ReactionReported(events: set<Incoming>, r: Report<Reaction>)
    requires forall e :: e in events ==> Accepted(e)
    ensures r in Heard(events).reacted <==>
              exists e :: e in events && e.React? && r.slot.chat == e.chat && r.slot.target == e.target &&
                r.slot.who == (if e.own then SELF else e.who) && r.value.emoji == e.emoji &&
                e.at == Some(r.value.at) && r.value.event == e.event
  {
    if e :| e in events && r in ReactionsOf(e) {
      assert e.React?;
    }
    if e :| e in events && e.React? && r.slot.chat == e.chat && r.slot.target == e.target &&
            r.slot.who == (if e.own then SELF else e.who) && r.value.emoji == e.emoji &&
            e.at == Some(r.value.at) && r.value.event == e.event {
      assert r in ReactionsOf(e);
    }
  }

  ghost function Person(links: set<LinkRow>, e: Incoming): Jid
    requires !e.Link?
  {
    if e.React? && e.own then SELF else Rep(links, e.who)
  }

  // The latest event of a person on a message decides what the message shows of them, whatever aliases of the chat
  // and names of the person the events came under, and whenever these became known.
  lemma LatestEventShows(events: set<Incoming>, reactions: Table<Reaction>, receipts: Table<Receipt>, chats: set<Jid>,
                         e: Incoming, emoji: string)
    requires Took(events, reactions, receipts) && e in events && e.React? && e.chat in chats
    requires forall f ::
               f in events && f.React? && f.chat in chats && f.target == e.target &&
               Person(Heard(events).links, f) == Person(Heard(events).links, e) &&
               (f.at, f.event, f.emoji) != (e.at, e.event, e.emoji) ==>
                 f.at.value < e.at.value || (f.at == e.at && (
                   || (f.emoji != "" && e.emoji == "")
                   || ((f.emoji == "" <==> e.emoji == "") && (
                         || Less(f.event, e.event)
                         || (f.event == e.event && Less(f.emoji, e.emoji))))))
    ensures Person(Heard(events).links, e) in Reactors(reactions, chats, e.target, emoji) <==>
              emoji == e.emoji && emoji != ""
  {
    hide Rep, Less, Correct, Reactors, ReactionsOf, Learn;
    var links := Heard(events).links;
    SelfAlone(links);
    var r := Report(Slot(e.chat, e.target, if e.own then SELF else e.who), Reaction(e.emoji, e.at.value, e.event));
    ReactionReported(events, r);
    forall q | q in Heard(events).reacted
      ensures exists f :: f in events && f.React? && q.slot.chat == f.chat && q.slot.target == f.target &&
                q.slot.who == (if f.own then SELF else f.who) && q.value.emoji == f.emoji &&
                f.at == Some(q.value.at) && q.value.event == f.event
    {
      ReactionReported(events, q);
    }
    LatestReactionCounts(links, Heard(events).reacted, reactions, chats, e.target, r, emoji);
  }

  lemma ReceiptReported(events: set<Incoming>, r: Report<Receipt>)
    requires forall e :: e in events ==> Accepted(e)
    ensures r in Heard(events).received <==>
              exists e :: e in events && e.Receive? && r.slot.chat == e.chat && r.slot.target in e.ids &&
                r.slot.who == e.who && r.value.group == e.group &&
                r.value.read == (if e.kind == "read" then e.at else None) &&
                r.value.delivered == if e.kind == "delivered" then e.at else None
  {
    if e :| e in events && r in ReceiptsOf(e) {
      assert e.Receive?;
    }
    if e :| e in events && e.Receive? && r.slot.chat == e.chat && r.slot.target in e.ids && r.slot.who == e.who &&
            r.value.group == e.group && r.value.read == (if e.kind == "read" then e.at else None) &&
            r.value.delivered == (if e.kind == "delivered" then e.at else None) {
      assert r in ReceiptsOf(e);
    }
  }

  // The people counted as readers of a message are those of whom a read event names it, and the receivers those of
  // whom any receipt does.
  lemma ReceiptsCount(events: set<Incoming>, reactions: Table<Reaction>, receipts: Table<Receipt>, chats: set<Jid>,
                      target: string)
    requires Took(events, reactions, receipts)
    ensures Marked(Read, receipts, chats, target) ==
            set e | e in events && e.Receive? && e.chat in chats && target in e.ids && e.kind == "read" ::
              Rep(Heard(events).links, e.who)
    ensures Marked(Delivered, receipts, chats, target) ==
            set e | e in events && e.Receive? && e.chat in chats && target in e.ids :: Rep(Heard(events).links, e.who)
    ensures AnyGroup(receipts, chats, target) <==>
              exists e :: e in events && e.Receive? && e.chat in chats && target in e.ids && e.group
  {
    hide Rep, Correct, Marked, AnyGroup, ReceiptsOf, Learn;
    var k := Heard(events);
    CountsRefine(k.links, k.received, receipts, chats, target);
    GroupRefines(k.links, k.received, receipts, chats, target);
    forall r
      ensures r in k.received <==>
                exists e :: e in events && e.Receive? && r.slot.chat == e.chat && r.slot.target in e.ids &&
                  r.slot.who == e.who && r.value.group == e.group &&
                  r.value.read == (if e.kind == "read" then e.at else None) &&
                  r.value.delivered == if e.kind == "delivered" then e.at else None
    {
      ReceiptReported(events, r);
    }
    forall e | e in events && e.Receive? && e.chat in chats && target in e.ids
      ensures Given(e, target) in k.received
    {
      ReceiptReported(events, Given(e, target));
    }
  }

  ghost function Given(e: Incoming, target: string): Report<Receipt>
    requires e.Receive?
  {
    Report(Slot(e.chat, target, e.who),
           Receipt(if e.kind == "delivered" then e.at else None, if e.kind == "read" then e.at else None, e.group))
  }

  // The receipt list of a message names the people of whom some receipt names it, with the time of the first read
  // event and of the first delivered event of theirs.
  lemma FirstEventIsListed(events: set<Incoming>, chats: set<Jid>, target: string, item: ReceiptItem)
    requires forall e :: e in events ==> Accepted(e)
    requires ReportedFirst(Delivered, Heard(events).links, Heard(events).received, chats, target, item.who,
                           item.delivered)
    requires ReportedFirst(Read, Heard(events).links, Heard(events).received, chats, target, item.who, item.read)
    ensures IsFirst("delivered", events, chats, target, item.who, item.delivered)
    ensures IsFirst("read", events, chats, target, item.who, item.read)
    ensures Reporter(Heard(events).links, Heard(events).received, chats, target, item.who) <==>
            exists e :: Tells(events, chats, target, item.who, e)
  {
    hide Rep, Heard, IsFirst, ReportedFirst;
    FirstOf(Delivered, "delivered", events, chats, target, item.who, item.delivered);
    FirstOf(Read, "read", events, chats, target, item.who, item.read);
    if r :| r in Heard(events).received && Reading.About(r, chats, target) &&
            Rep(Heard(events).links, r.slot.who) == item.who {
      ReceiptReported(events, r);
      var e :| e in events && e.Receive? && r.slot.chat == e.chat && target in e.ids && r.slot.who == e.who;
      assert Tells(events, chats, target, item.who, e);
    }
    if e :| Tells(events, chats, target, item.who, e) {
      ReceiptReported(events, Given(e, target));
      assert Reading.About(Given(e, target), chats, target);
    }
  }

  // A receipt of the person on the message.
  ghost predicate Tells(events: set<Incoming>, chats: set<Jid>, target: string, who: Jid, e: Incoming) {
    e in events && e.Receive? && e.chat in chats && target in e.ids && Rep(Heard(events).links, e.who) == who
  }

  ghost predicate IsFirst(kind: string, events: set<Incoming>, chats: set<Jid>, target: string, who: Jid,
                          at: Option<int>) {
    && (at.Some? ==> exists e :: Tells(events, chats, target, who, e) && e.kind == kind && e.at == at)
    && (forall e :: Tells(events, chats, target, who, e) && e.kind == kind && e.at.Some? ==>
          at.Some? && at.value <= e.at.value)
  }

  lemma FirstOf(mark: Mark, kind: string, events: set<Incoming>, chats: set<Jid>, target: string, who: Jid,
                at: Option<int>)
    requires forall e :: e in events ==> Accepted(e)
    requires kind == match mark case Read => "read" case Delivered => "delivered"
    requires ReportedFirst(mark, Heard(events).links, Heard(events).received, chats, target, who, at)
    ensures IsFirst(kind, events, chats, target, who, at)
  {
    hide Rep, Heard;
    assert "read"[0] != "delivered"[0];
    if at.Some? {
      var r :| r in Heard(events).received && Reading.About(r, chats, target) &&
               Rep(Heard(events).links, r.slot.who) == who && Reading.At(mark, r.value) == at;
      ReceiptReported(events, r);
    }
    forall e | Tells(events, chats, target, who, e) && e.kind == kind && e.at.Some?
      ensures at.Some? && at.value <= e.at.value
    {
      ReceiptReported(events, Given(e, target));
      assert Reading.About(Given(e, target), chats, target) && Reading.At(mark, Given(e, target).value) == e.at;
    }
  }
}
