// history.go, and the transactions of aliases.go, reactions.go and receipts.go that bring one live event. A
// transaction links chats, which may unite conversations and people, and then stores what it brings.
module History {
  import Changes
  import opened ConversationRows
  import opened Conversations
  import opened ConversationState
  import opened Links
  import opened MergeRows
  import opened Merging
  import opened Participants
  import opened Reports
  import opened Schema
  import opened SendRefinement
  import opened TextOrder
  import opened Wrappers

  // A change as the provider reports it; a zero time is None.
  datatype ChangeIn = ChangeIn(chat: Jid, target: string, kind: Changes.Kind, at: Option<int>, event: string,
                               text: string) {
    predicate Accepted() {
      chat != "" && target != "" && event != "" && at.Some?
    }

    function Prepared(): Changes.Change
      requires Accepted()
    {
      Changes.Change(Changes.Key(chat, target, kind, at.value, event), text)
    }
  }

  datatype Batch = Batch(links: seq<Incoming>, chat: Option<Chat>, messages: seq<MessageIn>, changes: seq<ChangeIn>,
                         reactions: seq<Incoming>, receipts: seq<Incoming>) {
    predicate Typed() {
      && (forall e :: e in links ==> e.Link?)
      && (forall e :: e in reactions ==> e.React?)
      && (forall e :: e in receipts ==> e.Receive?)
    }

    // No step of ImportHistory refuses what it is given.
    predicate Accepted() {
      && (if chat.Some? then chat.value.id != "" else messages == [])
      && (forall m :: m in messages ==> m.chat != "" && m.pid != "" && m.sound)
      && (forall c :: c in changes ==> c.Accepted())
      && (forall e :: e in Events() ==> Participants.Accepted(e))
    }

    function Events(): seq<Incoming> {
      links + reactions + receipts
    }

    function Changes(): seq<Changes.Change>
      requires forall c :: c in changes ==> c.Accepted()
    {
      seq(|changes|, i requires 0 <= i < |changes| => changes[i].Prepared())
    }
  }

  // What addChatLinkTx is called with for an event, if at all.
  function LinkOf(e: Incoming): (Jid, Jid) {
    match e
    case Link(first, second) => (first, second)
    case React(_, _, own, who, alias, _, _, _) => if own then ("", "") else (who, alias)
    case Receive(_, who, alias, _, _, _, _) => (who, alias)
  }

  lemma LinkedByEvent(k: Knowledge, links: set<LinkRow>, e: Incoming)
    requires links == k.links + LinkRows(LinkOf(e).0, LinkOf(e).1)
    ensures links == k.links + LinksOf(e) && Learn(k.(links := links), {e}) == Learn(k, {e})
  {
  }

  // Names are linked to each other already; linking them again changes nobody's component.
  lemma LinkedAgain(links: set<LinkRow>, first: Jid, second: Jid, j: Jid)
    requires WellFormed(links) && first != "" && second in Component(links, first)
    ensures Component(links + LinkRows(first, second), j) == Component(links, j)
  {
    if second == "" || first == second {
      assert links + LinkRows(first, second) == links;
    } else {
      assert links + LinkRows(first, second) == WithLink(links, first, second);
      SameComponent(links, first, second);
      LinkJoinsComponents(links, first, second, j);
      if j in Component(links, first) {
        SameComponent(links, first, j);
      }
    }
  }

  // So it moves no rows between people ...
  lemma LinkedAgainPeople(k: Knowledge, links: set<LinkRow>, reactions: Table<Reaction>, receipts: Table<Receipt>,
                          reactions': Table<Reaction>, receipts': Table<Receipt>)
    requires Consistent(k, reactions, receipts) && Consistent(k.(links := links), reactions', receipts')
    requires forall j :: Component(links, j) == Component(k.links, j)
    ensures reactions' == reactions && receipts' == receipts
  {
    assert forall j :: RepOf(links)(j) == RepOf(k.links)(j);
    CorrectSameRep(Latest, RepOf(links), RepOf(k.links), k.reacted, reactions');
    CorrectSameRep(Earliest, RepOf(links), RepOf(k.links), k.received, receipts');
    KnowledgeDecides(k, reactions, receipts, reactions', receipts');
  }

  // ... and no chat to another conversation.
  lemma LinkedAgainChats(before: Db, after: Db, links: set<LinkRow>, first: Jid, second: Jid)
    requires WellFormed(links) && Agrees(links, before.aliases)
    requires first != "" && second != "" && second in Component(links, first)
    requires ChatsLinked(before, after, links + LinkRows(first, second), first, second)
    ensures after.aliases == before.aliases
  {
    hide UnitedRows, Component, Agrees;
    var links' := links + LinkRows(first, second);
    var names := Linked(links', [first] + [second]);
    if after != before {
      LinkedAgain(links, first, second, first);
      LinkedAgain(links, first, second, second);
      SameComponent(links, first, second);
      ComponentAgrees(links, before.aliases, first, second);
      assert first in before.aliases;
      forall j | j in names
        ensures j in before.aliases && before.aliases[j] == before.aliases[first]
      {
        assert j in Component(links, first);
        ComponentAgrees(links, before.aliases, first, j);
      }
      assert first in [first] + [second] && first in Component(links', first) && first in names;
      assert Led(before.aliases, names) == {before.aliases[first]};
    }
  }

  lemma GoodKeys(db: Db)
    requires Good(db)
    ensures KeysGood(db.rows, db.keys) && forall i :: i in db.jobs ==> i in db.rows && db.rows[i].direction == Outbound
  {
    JobsAreOutbound(db.rows, db.keys, db.jobs, db.orphans);
  }

  // addChatLinkTx, and then the upserts of saveReactionTx and saveReceiptTx; linked are the tables between the two.
  method SaveEvent(s: Store, e: Incoming, now: int)
    returns (changed: bool, ghost linked: (Table<Reaction>, Table<Receipt>))
    requires s.Valid() && Accepted(e) && NamesNobodySelf(e)
    modifies s`conversations, s`aliases, s`rows, s`keys, s`orphans, s`stale, s.people
    ensures s.Valid() && s.people.Now() == Learn(old(s.people.Now()), {e})
    ensures Consistent(old(s.people.Now()).(links := s.people.links), linked.0, linked.1)
    ensures changed <==> (s.people.reactions, s.people.receipts) != linked
    ensures forall chat :: !e.Link? && chat != e.chat ==>
              SameIn(chat, linked.0, s.people.reactions) && SameIn(chat, linked.1, s.people.receipts)
    ensures s.people.links == old(s.people.links) + LinkRows(LinkOf(e).0, LinkOf(e).1)
    ensures ChatsLinked(old(s.Now()), s.Now(), s.people.links, LinkOf(e).0, LinkOf(e).1)
    ensures s.keys == old(s.keys) && AllObjects(s.rows) + s.orphans == AllObjects(old(s.rows)) + old(s.orphans)
    ensures s.stale <= old(s.stale) && Follows(s.keys, old(s.rows), old(s.jobs), s.rows, s.jobs)
  {
    hide Good, Consistent, Agrees, AllObjects, ChatsLinked, Learn, SameIn, Follows;
    ghost var before, db := s.people.Now(), s.Now();
    GoodKeys(db);
    s.AddChatLink(LinkOf(e).0, LinkOf(e).1, now);
    ChatsLinkedFollows(db, s.Now(), s.people.links, LinkOf(e).0, LinkOf(e).1);
    LinkedByEvent(before, s.people.links, e);
    linked := (s.people.reactions, s.people.receipts);
    changed := s.people.Record(e);
  }

  // An event whose names are linked already leaves people and chats as they were, up to what it reports.
  lemma NothingLinked(k: Knowledge, e: Incoming, links: set<LinkRow>, before: Db, after: Db, reactions: Table<Reaction>,
                      receipts: Table<Receipt>, linked: (Table<Reaction>, Table<Receipt>))
    requires Consistent(k, reactions, receipts) && Consistent(k.(links := links), linked.0, linked.1)
    requires Agrees(k.links, before.aliases) && links == k.links + LinkRows(LinkOf(e).0, LinkOf(e).1)
    requires ChatsLinked(before, after, links, LinkOf(e).0, LinkOf(e).1)
    requires Accepted(e) && !e.Link? && (LinkOf(e).1 != "" ==> LinkOf(e).1 in Component(k.links, LinkOf(e).0))
    ensures after.aliases == before.aliases && linked == (reactions, receipts)
  {
    hide Component, Agrees, Ensured, Correct;
    var (first, second) := LinkOf(e);
    if second != "" {
      forall j
        ensures Component(links, j) == Component(k.links, j)
      {
        LinkedAgain(k.links, first, second, j);
      }
      LinkedAgainChats(before, after, k.links, first, second);
    } else {
      assert links == k.links;
    }
    LinkedAgainPeople(k, links, reactions, receipts, linked.0, linked.1);
  }

  // SaveReaction and SaveReceipt, which return the conversations to be read again, and LinkChats. Wherever a message
  // of another conversation looks for its reactions and receipts, it finds what it found before.
  method SaveLive(s: Store, e: Incoming, now: int) returns (r: Result<set<Id>>)
    requires s.Valid() && NamesNobodySelf(e)
    modifies s`conversations, s`aliases, s`rows, s`keys, s`orphans, s`stale, s.people
    ensures s.Valid() && (r.Ok? <==> Accepted(e))
    ensures r.Ok? <==> match e
            case Link(_, _) => true
            case React(chat, target, own, who, _, at, event, emoji) =>
              chat != "" && target != "" && (own || who != "") && at.Some? && event != "" && Utf8Length(emoji) <= 128
            case Receive(chat, who, _, ids, kind, at, _) =>
              && chat != "" && who != "" && at.Some? && 1 <= |ids| <= 1000 && (forall id :: id in ids ==> id != "")
              && kind in {"delivered", "read"}
    ensures s.people.Now() == Learn(old(s.people.Now()), if r.Ok? then {e} else {})
    ensures r.Err? ==> s.Now() == old(s.Now()) && s.people.reactions == old(s.people.reactions)
    ensures r.Err? ==> s.people.receipts == old(s.people.receipts)
    ensures s.keys == old(s.keys) && AllObjects(s.rows) + s.orphans == AllObjects(old(s.rows)) + old(s.orphans)
    ensures r.Ok? && !e.Link? ==> forall j :: j in s.aliases && s.aliases[j] !in r.value ==>
              && j in old(s.aliases) && old(s.aliases)[j] == s.aliases[j]
              && SameIn(j, old(s.people.reactions), s.people.reactions)
              && SameIn(j, old(s.people.receipts), s.people.receipts)
    ensures s.stale <= old(s.stale) && Follows(s.keys, old(s.rows), old(s.jobs), s.rows, s.jobs)
  {
    hide Good, Consistent, Agrees, AllObjects, ChatsLinked, Learn, SameIn, Component, Linked, NamesNobodySelf,
         Follows;
    FollowsSame(s.keys, s.rows, s.jobs);
    LearnNothing(s.people.Now());
    if !Accepted(e) {
      return Err(Invalid);
    }
    var newLink := false;
    if !e.Link? && LinkOf(e).1 != "" {
      LinksWellFormed(s.people.Now(), s.people.reactions, s.people.receipts);
      var jids := LinkedJids(s.people.links, [LinkOf(e).0]);
      LinkedFirst(s.people.links, e);
      newLink := LinkOf(e).1 !in jids;
    }
    ghost var known, before := s.people.Now(), s.Now();
    ghost var reactions, receipts := s.people.reactions, s.people.receipts;
    var changed, linked := SaveEvent(s, e, now);
    if newLink {
      return Ok(set j | j in s.aliases :: s.aliases[j]);
    }
    if !e.Link? {
      NothingLinked(known, e, s.people.links, before, s.Now(), reactions, receipts, linked);
      SameTable(linked.0);
      SameTable(linked.1);
    }
    r := Ok(if changed && !e.Link? && e.chat in s.aliases then {s.aliases[e.chat]} else {});
  }

  lemma LinkedFirst(links: set<LinkRow>, e: Incoming)
    requires Accepted(e) && !e.Link? && LinkOf(e).1 != ""
    ensures Linked(links, [LinkOf(e).0]) == Component(links, LinkOf(e).0)
  {
    LinkedOne(links, LinkOf(e).0);
  }

  lemma SameTable<V>(t: Table<V>)
    ensures forall chat :: SameIn(chat, t, t)
  {
  }

  lemma ChatsLinkedHolds(before: Db, after: Db, links: set<LinkRow>, first: Jid, second: Jid)
    requires ChatsLinked(before, after, links, first, second)
    ensures forall pid :: HasMessage(after.rows, pid) <==> HasMessage(before.rows, pid)
  {
    hide HasMessage, UnitedRows, EnsuredIndex;
    if after != before {
      var conv := after.aliases[first];
      forall pid
        ensures HasMessage(after.rows, pid) <==> HasMessage(before.rows, pid)
      {
        UnitedHolds(before, after, Led(before.aliases, Linked(links, [first] + [second])) + {conv}, conv, pid);
      }
    }
  }

  // The loops of ImportHistory over links, reactions and receipts.
  method SaveEvents(s: Store, events: seq<Incoming>, now: int)
    requires s.Valid() && forall e :: e in events ==> Accepted(e) && NamesNobodySelf(e)
    modifies s`conversations, s`aliases, s`rows, s`keys, s`orphans, s`stale, s.people
    ensures s.Valid() && s.people.Now() == Learn(old(s.people.Now()), EventsOf(events))
    ensures s.keys == old(s.keys) && AllObjects(s.rows) + s.orphans == AllObjects(old(s.rows)) + old(s.orphans)
    ensures forall pid :: HasMessage(s.rows, pid) <==> HasMessage(old(s.rows), pid)
    ensures s.stale <= old(s.stale) && Follows(s.keys, old(s.rows), old(s.jobs), s.rows, s.jobs)
  {
    hide Good, Consistent, Agrees, AllObjects, ChatsLinked, Learn, EventsOf, SameIn, Accepted, NamesNobodySelf,
         HasMessage, Follows;
    FollowsSame(s.keys, s.rows, s.jobs);
    ghost var before := s.people.Now();
    LearnNothing(before);
    NoEvents();
    for k := 0 to |events|
      invariant s.Valid() && s.people.Now() == Learn(before, EventsOf(events[..k]))
      invariant s.keys == old(s.keys) && AllObjects(s.rows) + s.orphans == AllObjects(old(s.rows)) + old(s.orphans)
      invariant forall pid :: HasMessage(s.rows, pid) <==> HasMessage(old(s.rows), pid)
      invariant s.stale <= old(s.stale) && Follows(s.keys, old(s.rows), old(s.jobs), s.rows, s.jobs)
    {
      assert events[k] in events;
      ghost var at := s.Now();
      var _, _ := SaveEvent(s, events[k], now);
      FollowsOn(s.keys, old(s.rows), old(s.jobs), at.rows, at.jobs, s.rows, s.jobs);
      ChatsLinkedHolds(at, s.Now(), s.people.links, LinkOf(events[k]).0, LinkOf(events[k]).1);
      LearnOne(before, events[..k], events[k]);
      assert events[..k + 1] == events[..k] + [events[k]];
    }
    assert events[..|events|] == events;
  }

  lemma NoEvents()
    ensures EventsOf([]) == {}
  {
  }

  // The loop of ImportHistory over changes.
  method SaveChanges(s: Store, changes: seq<Changes.Change>)
    modifies s`changes
    ensures s.changes == Changes.SavedAll(old(s.changes), changes)
  {
    for k := 0 to |changes|
      invariant s.changes == Changes.SavedAll(old(s.changes), changes[..k])
    {
      assert changes[..k + 1] == changes[..k] + [changes[k]];
      assert changes[..k + 1][..k] == changes[..k];
      s.changes := Changes.Saved(s.changes, changes[k]);
    }
    assert changes[..|changes|] == changes;
  }

  // ImportHistory. A refused batch is rolled back whole, so what refuses it is looked for before the first statement.
  method ImportHistory(s: Store, b: Batch, now: int) returns (ok: bool)
    requires s.Valid() && b.Typed() && forall e :: e in b.Events() ==> NamesNobodySelf(e)
    requires forall m :: m in b.messages ==> Unstored(m)
    modifies s, s.people
    ensures s.Valid() && (ok <==> b.Accepted())
    ensures ok <==> && (b.chat.Some? ==> b.chat.value.id != "") && (b.chat.None? ==> b.messages == [])
                    && (forall m :: m in b.messages ==> m.chat != "" && m.pid != "" && m.sound)
                    && (forall c :: c in b.changes ==>
                          c.chat != "" && c.target != "" && c.event != "" && c.at.Some?)
                    && (forall e :: e in b.links + b.reactions + b.receipts ==> Accepted(e))
    ensures s.people.Now() == Learn(old(s.people.Now()), if ok then EventsOf(b.Events()) else {})
    ensures s.changes == if ok then Changes.SavedAll(old(s.changes), b.Changes()) else old(s.changes)
    ensures forall pid :: HasMessage(s.rows, pid) <==>
            HasMessage(old(s.rows), pid) || (ok && exists m :: m in b.messages && m.pid == pid)
    ensures s.keys == old(s.keys) && AllObjects(s.rows) + s.orphans == AllObjects(old(s.rows)) + old(s.orphans)
    ensures forall c :: c in s.conversations ==> (c in s.stale <==> !IsLast(s.rows, c, s.conversations[c].last))
    ensures !ok ==> s.Now().(stale := old(s.stale)) == old(s.Now()) && s.people.reactions == old(s.people.reactions)
    ensures !ok ==> s.people.receipts == old(s.people.receipts)
    ensures Follows(s.keys, old(s.rows), old(s.jobs), s.rows, s.jobs)
    ensures b.chat.None? ==> s.stale <= old(s.stale)
  {
    hide Good, Consistent, Agrees, AllObjects, Learn, EventsOf, Accepted, NamesNobodySelf, HasMessage, Unstored, Traced,
         IsLast, LandsLast, Ensured, OnlyRefreshed, Follows, Unechoed;
    ghost var before := s.people.Now();
    FollowsSame(s.keys, s.rows, s.jobs);
    LearnNothing(before);
    if !b.Accepted() {
      s.NarrowStale();
      return false;
    }
    assert b.Events() == b.links + b.reactions + b.receipts;
    SaveEvents(s, b.links, now);
    ghost var linked := s.Now();
    if b.chat.Some? {
      GoodKeys(linked);
      var conv, ensured, trace := s.ImportChat(b.chat.value, b.messages, now);
      ImportedHolds(linked, ensured, s.Now(), b.chat.value, s.people.links, conv, trace, b.messages);
      ImportedFollows(linked, ensured, s.Now(), b.chat.value, s.people.links, conv, trace, b.messages);
      FollowsOn(s.keys, old(s.rows), old(s.jobs), linked.rows, linked.jobs, s.rows, s.jobs);
    }
    SaveChanges(s, b.Changes());
    ghost var imported := s.Now();
    SaveEvents(s, b.reactions, now);
    FollowsOn(s.keys, old(s.rows), old(s.jobs), imported.rows, imported.jobs, s.rows, s.jobs);
    ghost var reacted := s.Now();
    SaveEvents(s, b.receipts, now);
    FollowsOn(s.keys, old(s.rows), old(s.jobs), reacted.rows, reacted.jobs, s.rows, s.jobs);
    s.NarrowStale();
    EventsInParts(before, b);
    ok := true;
  }

  lemma ImportedHolds(before: Db, ensured: Db, after: Db, chat: Chat, links: set<LinkRow>, conv: Id,
                      trace: seq<Messages>,
                      messages: seq<MessageIn>)
    requires Ensured(before, ensured, chat.id, Linked(links, [chat.id] + (chat.aliases + [chat.preferred])), conv)
    requires Traced(trace, conv, messages) && trace[0] == ensured.rows && trace[|messages|] == after.rows
    ensures forall pid :: HasMessage(after.rows, pid) <==>
            HasMessage(before.rows, pid) || exists m :: m in messages && m.pid == pid
  {
    hide HasMessage, UnitedRows, EnsuredIndex, Imports, OutboundUnique;
    var names := Linked(links, [chat.id] + (chat.aliases + [chat.preferred]));
    forall pid
      ensures HasMessage(after.rows, pid) <==> HasMessage(before.rows, pid) || exists m :: m in messages && m.pid == pid
    {
      UnitedHolds(before, ensured, Led(before.aliases, names) + {conv}, conv, pid);
      TraceHolds(trace, conv, messages, pid);
    }
  }

  lemma ImportedFollows(before: Db, ensured: Db, after: Db, chat: Chat, links: set<LinkRow>, conv: Id,
                        trace: seq<Messages>, messages: seq<MessageIn>)
    requires Ensured(before, ensured, chat.id, Linked(links, [chat.id] + (chat.aliases + [chat.preferred])), conv)
    requires Traced(trace, conv, messages) && trace[0] == ensured.rows && trace[|messages|] == after.rows
    requires after.jobs == Unechoed(ensured.jobs, ensured.rows, messages) && KeysGood(before.rows, before.keys)
    requires forall i :: i in before.jobs ==> i in before.rows && before.rows[i].direction == Outbound
    ensures Follows(before.keys, before.rows, before.jobs, after.rows, after.jobs)
  {
    hide Follows, EnsuredIndex, Imports, OutboundUnique, Unechoed, AllObjects, HasPid, KeysGood;
    EnsuredFollows(before, ensured, chat.id, Linked(links, [chat.id] + (chat.aliases + [chat.preferred])), conv);
    TraceFollows(before.keys, ensured.jobs, trace, conv, messages);
    FollowsOn(before.keys, before.rows, before.jobs, ensured.rows, ensured.jobs, after.rows, after.jobs);
  }

  lemma EventsInParts(k: Knowledge, b: Batch)
    ensures Learn(Learn(Learn(k, EventsOf(b.links)), EventsOf(b.reactions)), EventsOf(b.receipts)) ==
            Learn(k, EventsOf(b.Events()))
  {
    hide Learn;
    LearnMore(k, EventsOf(b.links), EventsOf(b.reactions));
    LearnMore(k, EventsOf(b.links) + EventsOf(b.reactions), EventsOf(b.receipts));
    assert EventsOf(b.Events()) == EventsOf(b.links) + EventsOf(b.reactions) + EventsOf(b.receipts);
  }

  // A transaction that teaches the store about people and changes.
  datatype Transaction = Live(event: Incoming, now: int) | Changed(change: ChangeIn) | Imported(batch: Batch,
      now: int) {
    ghost predicate Proper() {
      match this
      case Live(e, _) => NamesNobodySelf(e)
      case Changed(_) => true
      case Imported(b, _) =>
        && b.Typed() && (forall e :: e in b.Events() ==> NamesNobodySelf(e))
        && (forall m :: m in b.messages ==> Unstored(m))
    }

    // It brings messages, which only the history of a chat does.
    predicate ImportsChat() {
      Imported? && batch.chat.Some?
    }

    predicate Committed() {
      match this
      case Live(e, _) => Accepted(e)
      case Changed(c) => c.Accepted()
      case Imported(b, _) => b.Accepted()
    }

    ghost function Brings(): set<Incoming> {
      match this
      case Live(e, _) => {e}
      case Changed(_) => {}
      case Imported(b, _) => EventsOf(b.Events())
    }

    // What it adds: all of it, or nothing.
    ghost function Taken(): set<Incoming> {
      if Committed() then Brings() else {}
    }

    function TakenChanges(): seq<Changes.Change> {
      if !Committed() then []
      else match this
        case Live(_, _) => []
        case Changed(c) => [c.Prepared()]
        case Imported(b, _) => b.Changes()
    }
  }

  ghost function Taken(run: seq<Transaction>): set<Incoming> {
    set t, e | t in run && e in t.Taken() :: e
  }

  function TakenChanges(run: seq<Transaction>): seq<Changes.Change> {
    if run == [] then [] else TakenChanges(run[..|run| - 1]) + run[|run| - 1].TakenChanges()
  }

  lemma TakenStep(k: Knowledge, done: seq<Transaction>, t: Transaction)
    ensures Learn(Learn(k, Taken(done)), t.Taken()) == Learn(k, Taken(done + [t]))
    ensures TakenChanges(done + [t]) == TakenChanges(done) + t.TakenChanges()
  {
    hide Learn;
    LearnMore(k, Taken(done), t.Taken());
    assert Taken(done + [t]) == Taken(done) + t.Taken();
    assert (done + [t])[..|done|] == done;
  }

  lemma TakenNone()
    ensures Taken([]) == {}
  {
  }

  // One transaction of a run.
  method Commit(s: Store, t: Transaction)
    requires s.Valid() && t.Proper()
    modifies s, s.people
    ensures s.Valid() && s.people.Now() == Learn(old(s.people.Now()), t.Taken())
    ensures s.changes == Changes.SavedAll(old(s.changes), t.TakenChanges())
    ensures s.keys == old(s.keys) && AllObjects(s.rows) + s.orphans == AllObjects(old(s.rows)) + old(s.orphans)
    ensures Follows(s.keys, old(s.rows), old(s.jobs), s.rows, s.jobs)
    ensures !t.ImportsChat() ==> s.stale <= old(s.stale)
  {
    hide Good, Consistent, Agrees, AllObjects, Learn, EventsOf, Accepted, NamesNobodySelf, HasMessage, Unstored, IsLast,
         Follows;
    FollowsSame(s.keys, s.rows, s.jobs);
    LearnNothing(s.people.Now());
    match t {
      case Live(e, now) =>
        var _ := SaveLive(s, e, now);
      case Changed(c) =>
        if c.Accepted() {
          SaveChanges(s, [c.Prepared()]);
        }
      case Imported(b, now) =>
        var _ := ImportHistory(s, b, now);
    }
  }

  // Any run of transactions.
  method Replay(s: Store, run: seq<Transaction>)
    requires s.Valid() && forall t :: t in run ==> t.Proper()
    modifies s, s.people
    ensures s.Valid() && s.people.Now() == Learn(old(s.people.Now()), Taken(run))
    ensures s.changes == Changes.SavedAll(old(s.changes), TakenChanges(run))
    ensures s.keys == old(s.keys) && AllObjects(s.rows) + s.orphans == AllObjects(old(s.rows)) + old(s.orphans)
    ensures (forall t :: t in run ==> !t.ImportsChat()) ==> s.stale <= old(s.stale)
  {
    hide Good, Consistent, Agrees, AllObjects, Learn, Follows, Taken, Transaction.Taken, Transaction.TakenChanges,
         Transaction.Proper;
    ghost var before, changes := s.people.Now(), s.changes;
    LearnNothing(before);
    TakenNone();
    for k := 0 to |run|
      invariant s.Valid() && s.people.Now() == Learn(before, Taken(run[..k]))
      invariant s.changes == Changes.SavedAll(changes, TakenChanges(run[..k]))
      invariant s.keys == old(s.keys) && AllObjects(s.rows) + s.orphans == AllObjects(old(s.rows)) + old(s.orphans)
      invariant (forall t :: t in run ==> !t.ImportsChat()) ==> s.stale <= old(s.stale)
    {
      assert run[k] in run;
      Commit(s, run[k]);
      TakenStep(before, run[..k], run[k]);
      Changes.SavedInParts(changes, TakenChanges(run[..k]), run[k].TakenChanges());
      assert run[..k + 1] == run[..k] + [run[k]];
    }
    assert run[..|run|] == run;
  }

  // Convergence: two stores that took the same events and changes, live or from history, in whatever order and
  // however often and however batched, hold the same links, reactions, receipts and changes.
  method Converge(run: seq<Transaction>, other: seq<Transaction>) returns (s: Store, t: Store)
    requires forall x :: x in run + other ==> x.Proper()
    requires Taken(run) == Taken(other)
    requires Changes.Agreeing(TakenChanges(run)) && Changes.Agreeing(TakenChanges(other))
    requires forall c :: c in TakenChanges(run) <==> c in TakenChanges(other)
    ensures s.Valid() && t.Valid()
    ensures s.people.links == t.people.links && s.people.reactions == t.people.reactions
    ensures s.people.receipts == t.people.receipts && s.changes == t.changes
  {
    hide Good, Consistent, Agrees, Learn, Taken, TakenChanges, Transaction.Proper, Changes.Agreeing;
    s := new Store();
    Replay(s, run);
    t := new Store();
    Replay(t, other);
    KnowledgeDecides(s.people.Now(), s.people.reactions, s.people.receipts, t.people.reactions, t.people.receipts);
    Changes.SameChangesSameTable(TakenChanges(run), TakenChanges(other));
  }

  // A store with one received message.
  method OneMessage() returns (s: Store, c: Id, e: Id)
    ensures s.Valid() && fresh(s) && fresh(s.people) && s.people.links == {} && s.aliases == map["b" := c]
    ensures s.keys == map[]
    ensures e in s.rows && s.rows == map[e := s.rows[e]] && s.rows[e].conv == c && s.rows[e].at == 5
    ensures s.rows[e].pid == "m" && c in s.conversations && AllObjects(s.rows) + s.orphans == {}
  {
    hide Good, Consistent, Agrees, AllObjects, IsLast, UnitedRows;
    s := new Store();
    ghost var empty := s.Now();
    NoObjects();
    var m := MessageIn("b", "m", Inbound, Received, "b", "hello", 5, None, None, map[], true);
    var saved, ensured := s.SaveMessage(m, 5);
    e := saved.value;
    Alone("b", []);
    NothingEnsured(empty, ensured, "b", {"b"}, s.aliases["b"]);
    c := s.aliases["b"];
  }

  // The same store with a newer reply waiting to be sent.
  method TwoMessages() returns (s: Store, c: Id, e: Id, n: Id)
    ensures s.Valid() && fresh(s) && fresh(s.people) && s.people.links == {} && s.aliases == map["b" := c]
    ensures e != n && s.rows.Keys == {e, n} && s.rows[e].conv == s.rows[n].conv == c && c in s.conversations
    ensures s.rows[e].at == 5 && s.rows[e].pid == "m" && s.rows[n].at == 7 && IsOutbound(s.rows[n], "p")
    ensures s.rows[n].state == Queued && IsLast(s.rows, c, s.conversations[c].last)
  {
    hide Good, Consistent, Agrees, AllObjects, IsLast;
    s, c, e := OneMessage();
    var reply := MessageIn("b", "p", Outbound, Queued, "me", "hi", 7, None, None, map[], true);
    var reserved := s.ReserveSend(reply, c, KeyId("actor", "key"), "hash", None);
    n := reserved.value.0;
    LastIsRight(s.Now(), c);
  }

  // ImportHistory of one chat can leave the cached last message of another one behind: the history of chat a repeats
  // the reply that waits in chat b, with an earlier time than the message it answers.
  method ImportLeavesStale() returns (s: Store, c: Id)
    ensures s.Valid() && c in s.conversations && !IsLast(s.rows, c, s.conversations[c].last)
  {
    hide Good, Consistent, Agrees, AllObjects, IsLast, Traced, LandsLast, EnsuredIndex, UnitedRows, Linked;
    var e, n;
    s, c, e, n := TwoMessages();
    var echo := MessageIn("a", "p", Outbound, Sent, "me", "hi", 1, None, None, map[], true);
    Alone("a", [""]);
    LandsBefore(s.rows, e, n, c, echo, s.conversations[c].last);
    ghost var before := s.Now();
    var conv, middle, trace := s.ImportChat(Chat("a", [], "", None, "", "", None), [echo], 9);
    assert ["a"] + ([] + [""]) == ["a"] + [""];
    NewConversation(before, middle, "a", {"a"}, conv);
  }

  lemma NewConversation(before: Db, after: Db, chat: Jid, names: set<Jid>, conv: Id)
    requires Ensured(before, after, chat, names, conv) && forall j :: j in names ==> j !in before.aliases
    ensures conv !in before.conversations && before.conversations.Keys <= after.conversations.Keys
  {
    assert Led(before.aliases, names) == {};
  }

  lemma NoObjects()
    ensures AllObjects(map[]) == {}
  {
  }

  lemma LastIsRight(db: Db, c: Id)
    requires Good(db) && c in db.conversations && c !in db.stale
    ensures IsLast(db.rows, c, db.conversations[c].last)
  {
  }

  lemma NothingEnsured(before: Db, after: Db, chat: Jid, names: set<Jid>, conv: Id)
    requires Ensured(before, after, chat, names, conv) && before.rows == map[]
    ensures after.rows == map[]
  {
    hide AllObjects, HasPid;
    assert after.rows.Keys == {};
  }

  // Two rows of a conversation; the newer one is the cached last message and lands before the other one.
  lemma LandsBefore(rows: Messages, e: Id, n: Id, c: Id, echo: MessageIn, last: Option<Id>)
    requires e in rows && n in rows && e != n && rows.Keys == {e, n} && rows[e].conv == rows[n].conv == c
    requires Newer(rows[n], rows[e]) && IsLast(rows, c, last)
    requires Touches(echo, rows[n]) && Pending(rows[n].state) && !Touches(echo, rows[e]) && echo.at < rows[e].at
    ensures last == Some(n) && !LandsLast(rows, [echo], c, last)
  {
    assert Landing(rows[e], [echo]) == PositionOf(rows[e]);
    assert Landing(rows[n], [echo]).at == echo.at;
  }

  lemma Alone(j: Jid, others: seq<Jid>)
    requires j != "" && forall o :: o in others ==> o == ""
    ensures Linked({}, [j] + others) == {j}
  {
    LinkedWithin({}, [j] + others, {j});
    LinkedClosed({}, [j] + others);
    assert j in [j] + others;
  }
}
