// Inserting and changing message rows keeps the tables good.
module ConversationRows {
  import opened ConversationState
  import opened Links
  import opened MergePlan
  import opened MergeRows
  import opened Participants
  import opened Reports
  import opened Schema
  import opened Wrappers

  lemma LinksWellFormed(k: Knowledge, reactions: Merging.Table<Reaction>, receipts: Merging.Table<Receipt>)
    requires Consistent(k, reactions, receipts)
    ensures WellFormed(k.links)
  {
  }

  lemma AgreesUnmapped(links: set<LinkRow>, aliases: Aliases, first: Jid, second: Jid)
    requires Agrees(links, aliases) && first !in aliases && second !in aliases
    ensures Agrees(links + LinkRows(first, second), aliases)
  {
  }

  lemma AgreesJoined(links: set<LinkRow>, aliases: Aliases, first: Jid, second: Jid)
    requires Agrees(links, aliases) && first != "" && second != ""
    ensures var links' := links + LinkRows(first, second); AgreesOutside(links', aliases,
            Linked(links', [first] + [second]))
  {
    hide Component, Linked;
    var links' := links + LinkRows(first, second);
    LinkedClosed(links', [first] + [second]);
    assert first in [first] + [second] && second in [first] + [second];
  }

  lemma EnsuredHas(before: Db, after: Db, chat: Jid, names: set<Jid>, conv: Id)
    requires Ensured(before, after, chat, names, conv)
    ensures conv in after.conversations && after.keys == before.keys
    ensures AllObjects(after.rows) + after.orphans == AllObjects(before.rows) + before.orphans
  {
  }

  lemma RowsAreUnique(rows: Messages, keys: Keys, jobs: set<Id>, orphans: set<Object>)
    requires RowsGood(rows, keys, jobs, orphans)
    ensures OutboundUnique(rows)
  {
  }

  // What ImportChat leaves of the other conversations, in terms of the database before it.
  lemma ImportedElsewhere(before: Db, ensured: Db, after: Db, chat: Jid, names: set<Jid>, conv: Id,
                          trace: seq<Messages>, messages: seq<MessageIn>)
    requires Ensured(before, ensured, chat, names, conv) && Traced(trace, conv, messages)
    requires trace[0] == ensured.rows && trace[|messages|] == after.rows
    requires after.conversations.Keys == ensured.conversations.Keys
    requires forall c :: c in after.conversations && c != conv ==> after.conversations[c] == ensured.conversations[c]
    ensures forall c :: c in after.conversations && c != conv ==>
              && c in before.conversations && after.conversations[c] == before.conversations[c]
              && (IsLast(after.rows, c, after.conversations[c].last) <==>
                  LandsLast(before.rows, messages, c, after.conversations[c].last))
  {
    hide IsLast, LandsLast, Traced, AllObjects;
    forall c | c in after.conversations && c != conv
      ensures c in before.conversations && after.conversations[c] == before.conversations[c]
      ensures IsLast(after.rows, c, after.conversations[c].last) <==>
              LandsLast(before.rows, messages, c, after.conversations[c].last)
    {
      ElsewhereExactlyWhen(before.rows, trace, conv, messages, c, after.conversations[c].last);
    }
  }

  lemma SavedEcho(rows: Messages, e: Id, m: MessageIn)
    requires e in rows && rows[e].direction == Outbound && rows[e].pid == m.pid && m.direction == Outbound
    ensures Repeated(rows, m)
  {
  }

  lemma EnsuredLeads(before: Db, after: Db, chat: Jid, names: set<Jid>, conv: Id, j: Jid)
    requires Ensured(before, after, chat, names, conv) && j in names
    ensures j in after.aliases && after.aliases[j] == conv
  {
  }

  // Uniting conversations neither adds nor removes an outbound provider ID.
  lemma EnsuredRepeats(before: Db, after: Db, chat: Jid, names: set<Jid>, conv: Id, m: MessageIn)
    requires Ensured(before, after, chat, names, conv)
    ensures (Repeated(after.rows, m) <==> Repeated(before.rows, m)) && after.stale <= before.stale
  {
    hide AllObjects, EnsuredIndex, HasPid;
    if i :| i in before.rows && IsOutbound(before.rows[i], m.pid) {
      assert IsOutbound(after.rows[i], m.pid);
    }
    if i :| i in after.rows && IsOutbound(after.rows[i], m.pid) {
      assert IsOutbound(before.rows[i], m.pid);
    }
  }

  // Refreshing the conversation afterwards changes nothing of what was ensured.
  lemma EnsuredRefreshed(before: Db, after: Db, final: Db, chat: Jid, names: set<Jid>, conv: Id)
    requires Ensured(before, after, chat, names, conv) && chat in names
    requires final == after.(conversations := final.conversations, stale := after.stale - {conv})
    requires OnlyRefreshed(after.conversations, final.conversations, after.rows, conv)
    ensures conv !in final.stale && chat in final.aliases && final.aliases[chat] == conv
    ensures Ensured(before, final, chat, names, conv)
  {
    hide AllObjects;
  }

  // A linked component leads wholly to one conversation or wholly to none.
  lemma ComponentAgrees(links: set<LinkRow>, aliases: Aliases, a: Jid, b: Jid)
    requires Agrees(links, aliases) && b in Component(links, a)
    ensures Agree(aliases, a, b)
  {
    var same := set x | x in Component(links, a) && Agree(aliases, a, x);
    ComponentClosed(links, a);
    assert Closed(links, same);
    ComponentWithin(links, same, a);
  }

  lemma RefreshedLasts(conversations: map<Id, Conversation>, rows: Messages, some: set<Id>, conv: Id, last: Option<Id>)
    requires LastsExcept(conversations, rows, some) && conv in conversations && IsLast(rows, conv, last)
    requires (last.Some? ==> last.value in rows)
    ensures LastsExcept(conversations[conv := Refreshed(conversations[conv], rows, last)], rows, some - {conv})
  {
    hide Newer;
    if conv !in some {
      NoRowsNoLast(rows, conv, last, conversations[conv].last);
    }
  }

  // The time of a refreshed conversation is its last message's.
  lemma RefreshedTime(conversations: map<Id, Conversation>, rows: Messages, some: set<Id>, conv: Id, last: Option<Id>)
    requires LastsExcept(conversations, rows, some) && conv in conversations && IsLast(rows, conv, last)
    ensures last.None? ==> conversations[conv].last.None?
  {
    if conv !in some {
      NoRowsNoLast(rows, conv, last, conversations[conv].last);
    }
  }

  lemma NoRowsNoLast(rows: Messages, conv: Id, last: Option<Id>, cached: Option<Id>)
    requires IsLast(rows, conv, last) && IsLast(rows, conv, cached)
    ensures last.None? ==> cached.None?
  {
  }

  lemma RefreshedAnchored(before: Db, after: Db, conv: Id, last: Option<Id>)
    requires Anchored(before) && conv in before.conversations && (last.Some? ==> last.value in before.rows)
    requires var refreshed := Refreshed(before.conversations[conv], before.rows, last);
             after == before.(conversations := before.conversations[conv := refreshed])
    ensures Anchored(after)
  {
  }

  lemma EnsuredNames(before: Db, after: Db, links: set<LinkRow>, chat: Jid, others: seq<Jid>, conv: Id, j: Jid)
    requires Ensured(before, after, chat, Linked(links, [chat] + others), conv) && j in others
    ensures conv in after.conversations && (j != "" ==> j in after.aliases && after.aliases[j] == conv)
  {
    hide Component, Led, UnitedRows;
    LinkedClosed(links, [chat] + others);
    assert j in [chat] + others;
  }

  // No other conversation has the JID of this one as its own: UNIQUE(account_id, provider_chat_id).
  lemma HomeIsUnique(db: Db, j: Jid, conv: Id)
    requires Anchored(db) && j in db.aliases && db.aliases[j] == conv
    ensures forall c :: c in db.conversations && c != conv ==> db.conversations[c].home != j
  {
  }

  lemma HomeLeadsBack(db: Db, conv: Id)
    requires Anchored(db) && conv in db.conversations
    ensures db.conversations[conv].home in db.aliases && db.aliases[db.conversations[conv].home] == conv
  {
  }

  // Editing a conversation's profile, or its home to another JID that leads to it.
  lemma EditKeeps(before: Db, after: Db, conv: Id, edited: Conversation, some: set<Id>)
    requires LastsExcept(before.conversations, before.rows, some) && Anchored(before) && conv in before.conversations
    requires after == before.(conversations := before.conversations[conv := edited])
    requires edited.last == before.conversations[conv].last
    requires edited.home in before.aliases && before.aliases[edited.home] == conv
    ensures LastsExcept(after.conversations, after.rows, some) && Anchored(after)
  {
  }

  lemma EchoKeeps(row: Message, m: MessageIn, orphans: set<Object>, rows: Messages, keys: Keys, jobs: set<Id>, e: Id)
    requires RowsGood(rows, keys, jobs, orphans) && e in rows && rows[e] == row && Unstored(m)
    ensures SameRow(row, EchoedRow(row, m)) && SameRow(row, ConflictRow(row, m))
  {
    hide ObjectsOf, SavedParts;
    SavedPartsKeepObjects(row.parts, m.parts);
  }

  lemma ReplaceKeeps(db: Db, e: Id, row: Message, some: set<Id>)
    requires RowsGood(db.rows, db.keys, db.jobs, db.orphans) && LastsExcept(db.conversations, db.rows, some)
    requires Anchored(db)
    requires e in db.rows && SameRow(db.rows[e], row)
    ensures RowsGood(db.rows[e := row], db.keys, db.jobs, db.orphans)
    ensures LastsExcept(db.conversations, db.rows[e := row], some + {row.conv})
    ensures Anchored(db.(rows := db.rows[e := row]))
  {
    hide LastsExcept, DistinctRows, KeysGood, ObjectsGood, Rooted, PartsGood, ObjectsOf, IsLast;
    RowIsAnchored(db, e);
    ReplaceKeepsLasts(db, e, row, some);
    ReplaceKeepsKeys(db.rows, db.keys, e, row);
    ReplaceKeepsObjects(db.rows, db.orphans, e, row);
    ReplaceKeepsAnchored(db, e, row);
  }

  lemma ReplaceKeepsKeys(rows: Messages, keys: Keys, e: Id, row: Message)
    requires DistinctRows(rows) && KeysGood(rows, keys) && e in rows
    requires row.conv == rows[e].conv && row.pid == rows[e].pid && row.direction == rows[e].direction
    requires row.local == rows[e].local
    ensures DistinctRows(rows[e := row]) && KeysGood(rows[e := row], keys)
  {
  }

  lemma ReplaceKeepsObjects(rows: Messages, orphans: set<Object>, e: Id, row: Message)
    requires ObjectsGood(rows, orphans) && e in rows && PartsGood(row.parts)
    requires ObjectsOf(row.parts) == ObjectsOf(rows[e].parts)
    ensures ObjectsGood(rows[e := row], orphans)
  {
    hide PartsGood, ObjectsOf;
  }

  lemma ReplaceKeepsAnchored(db: Db, e: Id, row: Message)
    requires Anchored(db) && e in db.rows && row.conv == db.rows[e].conv
    ensures Anchored(db.(rows := db.rows[e := row]))
  {
  }

  lemma RowIsAnchored(db: Db, e: Id)
    requires Anchored(db) && e in db.rows
    ensures db.rows[e].conv in db.conversations
  {
  }

  lemma ReplaceKeepsLasts(db: Db, e: Id, row: Message, some: set<Id>)
    requires LastsExcept(db.conversations, db.rows, some) && e in db.rows && db.rows[e].conv == row.conv
    requires row.conv in db.conversations
    ensures LastsExcept(db.conversations, db.rows[e := row], some + {row.conv})
  {
    var after := db.rows[e := row];
    assert after[e].conv == row.conv;
    forall c | c in db.conversations && c != row.conv
      ensures if c in some then HasRows(after, c) else IsLast(after, c, db.conversations[c].last)
    {
      if c in some {
        var i :| i in db.rows && db.rows[i].conv == c;
        assert after[i].conv == c;
      } else {
        assert IsLast(db.rows, c, db.conversations[c].last);
      }
    }
  }

  lemma CompletedIsSame(rows: Messages, keys: Keys, jobs: set<Id>, orphans: set<Object>, id: Id, state: State,
                        sender: string,
                        at: Option<int>, media: bool)
    requires RowsGood(rows, keys, jobs, orphans) && id in rows
    ensures SameRow(rows[id], CompletedRow(rows[id], state, sender, at, media))
  {
    hide ObjectsOf, PartsGood;
  }

  lemma ReserveKeeps(db: Db, id: Id, local: nat, conv: Id, m: MessageIn, k: KeyId, hash: string, upload: Option<Object>)
    requires RowsGood(db.rows, db.keys, db.jobs, db.orphans) && LastsExcept(db.conversations, db.rows, db.stale)
    requires Anchored(db)
    requires id !in db.rows && conv in db.conversations && k !in db.keys
    requires local >= 1 && forall i :: i in db.rows ==> db.rows[i].local < local
    requires forall i :: i in db.rows ==> db.rows[i].pid != m.pid
    requires upload.Some? ==> upload.value !in AllObjects(db.rows) + db.orphans
    ensures var rows, keys := db.rows[id := ReservedRow(conv, local, m, upload)], db.keys[k := SendKey(hash, id)];
            && (forall jobs :: jobs == db.jobs + (if upload.Some? then {id} else {}) ==>
                  RowsGood(rows, keys, jobs, db.orphans) && Anchored(db.(rows := rows, keys := keys, jobs := jobs)))
            && LastsExcept(db.conversations, rows, db.stale + {conv})
            && AllObjects(rows) == AllObjects(db.rows) + (if upload.Some? then {upload.value} else {})
  {
    hide LastsExcept, DistinctRows, KeysGood, ObjectsGood, Rooted, PartsGood, ObjectsOf, AllObjects, IsLast;
    var row := ReservedRow(conv, local, m, upload);
    ReservedObjects(conv, local, m, upload);
    InsertKeepsKeys(db.rows, db.keys, id, row);
    InsertKeepsObjects(db.rows, db.orphans, id, row);
    InsertKeepsAnchored(db, id, row);
    InsertKeepsLasts(db, id, row, db.stale);
    NewKeyGood(db.rows, db.keys, id, row, k, hash);
    AllObjectsSplit(db.rows[id := row], id);
    assert db.rows[id := row] - {id} == db.rows;
    var jobs := db.jobs + if upload.Some? then {id} else {};
    AnchoredSame(db.(rows := db.rows[id := row]), jobs, db.keys[k := SendKey(hash, id)]);
    forall j | j in jobs
      ensures Keyed(db.keys[k := SendKey(hash, id)], j)
    {
      NewKeyKeeps(db.keys, k, hash, id, j);
    }
  }

  lemma ReservedObjects(conv: Id, local: nat, m: MessageIn, upload: Option<Object>)
    ensures PartsGood(ReservedRow(conv, local, m, upload).parts)
    ensures ObjectsOf(ReservedRow(conv, local, m, upload).parts) == if upload.Some? then {upload.value} else {}
  {
    var parts := ReservedRow(conv, local, m, upload).parts;
    if upload.Some? {
      assert parts[0].blob == upload;
    }
  }

  lemma NewKeyKeeps(keys: Keys, k: KeyId, hash: string, id: Id, j: Id)
    requires k !in keys
    ensures Keyed(keys[k := SendKey(hash, id)], j) <==> Keyed(keys, j) || j == id
  {
    var keys' := keys[k := SendKey(hash, id)];
    if Keyed(keys, j) {
      var l :| l in keys && keys[l].message == j;
      assert keys'[l].message == j;
    }
    if j == id {
      assert keys'[k].message == j;
    }
  }

  lemma NewKeyGood(rows: Messages, keys: Keys, id: Id, row: Message, k: KeyId, hash: string)
    requires KeysGood(rows, keys) && id !in rows && k !in keys && row.direction == Outbound
    requires forall i :: i in rows ==> rows[i].pid != row.pid
    ensures KeysGood(rows[id := row], keys[k := SendKey(hash, id)])
  {
    hide Keyed;
    forall j
      ensures Keyed(keys[k := SendKey(hash, id)], j) <==> Keyed(keys, j) || j == id
    {
      NewKeyKeeps(keys, k, hash, id, j);
    }
  }

  // A new row with a provider ID of its own in its conversation.
  lemma InsertKeeps(db: Db, id: Id, row: Message, m: MessageIn, some: set<Id>)
    requires RowsGood(db.rows, db.keys, db.jobs, db.orphans) && LastsExcept(db.conversations, db.rows, some)
    requires Anchored(db)
    requires id !in db.rows && row.conv in db.conversations && Unstored(m) && row.parts == SavedParts(map[], m.parts)
    requires row.local >= 1 && forall i :: i in db.rows ==> db.rows[i].local < row.local
    requires forall i :: i in db.rows ==> db.rows[i].conv != row.conv || db.rows[i].pid != row.pid
    requires row.direction == Outbound ==> forall i :: i in db.rows ==> !IsOutbound(db.rows[i], row.pid)
    ensures RowsGood(db.rows[id := row], db.keys, db.jobs, db.orphans)
    ensures LastsExcept(db.conversations, db.rows[id := row], some + {row.conv})
    ensures Anchored(db.(rows := db.rows[id := row])) && ObjectsOf(row.parts) == {}
  {
    hide LastsExcept, DistinctRows, KeysGood, ObjectsGood, Rooted, PartsGood, ObjectsOf, IsLast, SavedParts, Unstored;
    NewParts(m);
    InsertKeepsKeys(db.rows, db.keys, id, row);
    InsertKeepsObjects(db.rows, db.orphans, id, row);
    InsertKeepsAnchored(db, id, row);
    InsertKeepsLasts(db, id, row, some);
  }

  lemma InsertKeepsKeys(rows: Messages, keys: Keys, id: Id, row: Message)
    requires DistinctRows(rows) && KeysGood(rows, keys) && id !in rows
    requires row.local >= 1 && forall i :: i in rows ==> rows[i].local < row.local
    requires forall i :: i in rows ==> rows[i].conv != row.conv || rows[i].pid != row.pid
    requires row.direction == Outbound ==> forall i :: i in rows ==> !IsOutbound(rows[i], row.pid)
    ensures DistinctRows(rows[id := row]) && KeysGood(rows[id := row], keys)
  {
    assert forall k :: k in keys ==> keys[k].message != id;
  }

  lemma InsertKeepsObjects(rows: Messages, orphans: set<Object>, id: Id, row: Message)
    requires ObjectsGood(rows, orphans) && id !in rows && PartsGood(row.parts)
    requires ObjectsOf(row.parts) !! orphans && ObjectsOf(row.parts) !! AllObjects(rows)
    ensures ObjectsGood(rows[id := row], orphans)
  {
    hide PartsGood, ObjectsOf;
    forall i | i in rows
      ensures ObjectsOf(row.parts) !! ObjectsOf(rows[i].parts)
    {
      assert forall x :: x in ObjectsOf(rows[i].parts) ==> x in AllObjects(rows);
    }
  }

  lemma InsertKeepsAnchored(db: Db, id: Id, row: Message)
    requires Anchored(db) && row.conv in db.conversations
    ensures Anchored(db.(rows := db.rows[id := row]))
  {
  }

  lemma NewParts(m: MessageIn)
    requires Unstored(m)
    ensures PartsGood(SavedParts(map[], m.parts)) && ObjectsOf(SavedParts(map[], m.parts)) == {}
  {
    SavedPartsKeepObjects(map[], m.parts);
    NoParts();
  }

  lemma NoParts()
    ensures PartsGood(map[]) && ObjectsOf(map[]) == {}
  {
  }

  lemma InsertKeepsLasts(db: Db, id: Id, row: Message, some: set<Id>)
    requires LastsExcept(db.conversations, db.rows, some) && id !in db.rows
    requires row.conv in db.conversations
    ensures LastsExcept(db.conversations, db.rows[id := row], some + {row.conv})
  {
    var after := db.rows[id := row];
    assert after[id].conv == row.conv;
    forall c | c in db.conversations && c != row.conv
      ensures if c in some then HasRows(after, c) else IsLast(after, c, db.conversations[c].last)
    {
      if c in some {
        var i :| i in db.rows && db.rows[i].conv == c;
        assert after[i].conv == c;
      } else {
        assert IsLast(db.rows, c, db.conversations[c].last);
      }
    }
  }

  lemma AllAgree(links: set<LinkRow>, aliases: Aliases, names: set<Jid>)
    requires Agrees(links, aliases)
    ensures AgreesOutside(links, aliases, names)
  {
  }

  lemma EchoConserves(rows: Messages, orphans: set<Object>, keys: Keys, jobs: set<Id>, e: Id, m: MessageIn)
    requires RowsGood(rows, keys, jobs, orphans) && e in rows && Unstored(m)
    ensures AllObjects(rows[e := EchoedRow(rows[e], m)]) == AllObjects(rows)
    ensures AllObjects(rows[e := ConflictRow(rows[e], m)]) == AllObjects(rows)
  {
    hide ObjectsOf, AllObjects, EchoedRow, ConflictRow;
    EchoKeeps(rows[e], m, orphans, rows, keys, jobs, e);
    SameRowConserves(rows, e, EchoedRow(rows[e], m));
    SameRowConserves(rows, e, ConflictRow(rows[e], m));
  }

  lemma SameRowConserves(rows: Messages, e: Id, row: Message)
    requires e in rows && ObjectsOf(row.parts) == ObjectsOf(rows[e].parts)
    ensures AllObjects(rows[e := row]) == AllObjects(rows)
  {
    AllObjectsSplit(rows, e);
    AllObjectsSplit(rows[e := row], e);
    assert rows[e := row] - {e} == rows - {e};
  }

  lemma IntoConserves(before: Messages, after: Messages, orphans: set<Object>, keys: Keys, jobs: set<Id>, id: Id,
                      conv: Id,
                      m: MessageIn)
    requires RowsGood(before, keys, jobs, orphans) && Unstored(m)
    requires if id in before then after == before[id := ConflictRow(before[id], m)]
             else exists local :: after == before[id := NewRow(conv, local, m)]
    ensures AllObjects(after) == AllObjects(before)
  {
    hide ObjectsOf, AllObjects, SavedParts, ConflictRow;
    if id in before {
      EchoConserves(before, orphans, keys, jobs, id, m);
    } else {
      NewParts(m);
      AllObjectsSplit(after, id);
      assert after - {id} == before;
    }
  }

  lemma AnchoredSame(db: Db, jobs: set<Id>, keys: Keys)
    requires Anchored(db)
    ensures Anchored(db.(jobs := jobs, keys := keys))
  {
  }

  lemma FewerJobs(rows: Messages, keys: Keys, jobs: set<Id>, orphans: set<Object>, e: Id)
    requires RowsGood(rows, keys, jobs, orphans)
    ensures RowsGood(rows, keys, jobs - {e}, orphans)
  {
  }

  // Where an echo puts the outbound message it repeats.
  function EchoPosition(row: Message, m: MessageIn): Position {
    Position(if Pending(row.state) then m.at else row.at, Coalesce(m.order, row.order), row.local)
  }

  // What the echoes of a batch make of a message's position: the first one that finds it pending moves it in time,
  // and each one may give it a provider order.
  function Landing(row: Message, messages: seq<MessageIn>): Position
    decreases |messages|
  {
    if messages == [] then PositionOf(row)
    else if !Touches(messages[0], row) then Landing(row, messages[1..])
    else
      var p := EchoPosition(row, messages[0]);
      Landing(row.(state := Echoed(row.state), at := p.at, order := p.order), messages[1..])
  }

  predicate Touches(m: MessageIn, row: Message) {
    m.direction == Outbound && IsOutbound(row, m.pid)
  }

  function Echoed(state: State): State {
    if Pending(state) then Sent else state
  }

  // A cached last message is the newest once every message of its conversation has landed.
  ghost predicate LandsLast(rows: Messages, messages: seq<MessageIn>, conv: Id, last: Option<Id>) {
    match last
    case None => forall i :: i in rows ==> rows[i].conv != conv
    case Some(m) => m in rows && rows[m].conv == conv &&
                    forall i :: i in rows && rows[i].conv == conv && i != m ==>
                        Later(Landing(rows[m], messages), Landing(rows[i], messages))
  }

  // A batch was imported message by message; no two outbound messages ever shared a provider ID.
  ghost predicate Traced(trace: seq<Messages>, conv: Id, messages: seq<MessageIn>) {
    && |trace| == |messages| + 1
    && (forall k :: 0 <= k < |trace| ==> OutboundUnique(trace[k]))
    && (forall k :: 0 <= k < |messages| ==> Imports(trace[k], trace[k + 1], conv, messages[k]))
  }

  lemma ImportsElsewhere(before: Messages, after: Messages, conv: Id, m: MessageIn, c: Id)
    requires OutboundUnique(before) && Imports(before, after, conv, m) && c != conv
    ensures forall i :: (i in after && after[i].conv == c) <==> (i in before && before[i].conv == c)
    ensures forall i :: i in before && before[i].conv == c ==>
            after[i] == if Touches(m, before[i]) then EchoedRow(before[i], m) else before[i]
  {
    hide ConflictRow, SavedParts;
    if Repeated(before, m) {
      var e :| Echoes(before, after, e, m);
      assert after[e].conv == before[e].conv;
    } else {
      var id :| Inserts(before, after, id, conv, m);
      ConflictStays(before, after, id, conv, m);
    }
  }

  lemma ConflictStays(before: Messages, after: Messages, id: Id, conv: Id, m: MessageIn)
    requires Inserts(before, after, id, conv, m)
    ensures id in after && after[id].conv == conv && forall i :: i in before && i != id ==>
            i in after && after[i] == before[i]
    ensures forall i :: i in after ==> i in before || i == id
    ensures id in before ==> before[id].conv == conv
  {
  }

  lemma SameLanding(row: Message, row': Message, messages: seq<MessageIn>)
    requires PositionOf(row) == PositionOf(row') && Pending(row.state) == Pending(row'.state)
    requires row.direction == row'.direction && row.pid == row'.pid
    ensures Landing(row, messages) == Landing(row', messages)
    decreases |messages|
  {
    if messages != [] && Touches(messages[0], row) {
      var m := messages[0];
      SameLanding(row.(state := Echoed(row.state), at := EchoPosition(row, m).at, order := EchoPosition(row, m).order),
                  row'.(state := Echoed(row'.state), at := EchoPosition(row', m).at,
                        order := EchoPosition(row', m).order), messages[1..]);
    } else if messages != [] {
      SameLanding(row, row', messages[1..]);
    }
  }

  // Messages of other conversations keep their place in the table and end where their echoes put them.
  lemma {:induction false} TraceLands(trace: seq<Messages>, conv: Id, messages: seq<MessageIn>, c: Id)
    requires Traced(trace, conv, messages) && c != conv
    ensures var final := trace[|messages|];
            && (forall i :: (i in final && final[i].conv == c) <==> (i in trace[0] && trace[0][i].conv == c))
            && forall i :: i in final && final[i].conv == c ==> PositionOf(final[i]) == Landing(trace[0][i], messages)
    decreases |messages|
  {
    if messages != [] {
      hide EchoedRow, Imports, OutboundUnique;
      ImportsElsewhere(trace[0], trace[1], conv, messages[0], c);
      assert Traced(trace[1..], conv, messages[1..]);
      TraceLands(trace[1..], conv, messages[1..], c);
      forall i | i in trace[0] && trace[0][i].conv == c
        ensures Landing(trace[1][i], messages[1..]) == Landing(trace[0][i], messages)
      {
        LandsAfterOne(trace[0][i], trace[1][i], messages);
      }
    }
  }

  lemma LandsAfterOne(row: Message, row': Message, messages: seq<MessageIn>)
    requires messages != [] && row' == if Touches(messages[0], row) then EchoedRow(row, messages[0]) else row
    ensures Landing(row', messages[1..]) == Landing(row, messages)
  {
    hide SavedParts;
    if Touches(messages[0], row) {
      var m := messages[0];
      SameLanding(row', row.(state := Echoed(row.state), at := EchoPosition(row, m).at,
                             order := EchoPosition(row, m).order), messages[1..]);
    }
  }

  // After a batch the cached last message of another conversation is right exactly when it lands last, which can
  // be told from the rows before the batch: old are the rows before the batch's own conversation was united.
  lemma ElsewhereExactlyWhen(rows: Messages, trace: seq<Messages>, conv: Id, messages: seq<MessageIn>, c: Id,
                             last: Option<Id>)
    requires Traced(trace, conv, messages) && c != conv
    requires forall i :: (i in rows && rows[i].conv == c) <==> (i in trace[0] && trace[0][i].conv == c)
    requires forall i :: i in rows && rows[i].conv == c ==> trace[0][i] == rows[i]
    ensures IsLast(trace[|messages|], c, last) <==> LandsLast(rows, messages, c, last)
  {
    hide Landing, Later, Imports, OutboundUnique;
    TraceLands(trace, conv, messages, c);
  }

  // Without an echo in a conversation nothing moves there.
  lemma {:induction false} UntouchedLands(row: Message, messages: seq<MessageIn>)
    requires forall m :: m in messages ==> !Touches(m, row)
    ensures Landing(row, messages) == PositionOf(row)
    decreases |messages|
  {
    if messages != [] {
      assert messages[0] in messages;
      UntouchedLands(row, messages[1..]);
    }
  }

  lemma NoEchoNoChange(rows: Messages, messages: seq<MessageIn>, c: Id, last: Option<Id>)
    requires forall m :: m in messages ==> !Repeats(rows, m, c)
    ensures LandsLast(rows, messages, c, last) <==> IsLast(rows, c, last)
  {
    hide Landing, Later;
    forall i | i in rows && rows[i].conv == c
      ensures Landing(rows[i], messages) == PositionOf(rows[i])
    {
      UntouchedLands(rows[i], messages);
    }
  }

  // Uniting conversations loses no provider message.
  lemma UnitedHolds(before: Db, after: Db, group: set<Id>, target: Id, pid: string)
    requires UnitedRows(before, after, group, target)
    ensures HasMessage(after.rows, pid) <==> HasMessage(before.rows, pid)
  {
    hide AllObjects;
    if HasMessage(before.rows, pid) {
      var i :| i in before.rows && before.rows[i].pid == pid;
      if before.rows[i].conv in group {
        assert HasPid(before.rows, before.rows[i].conv, pid) && HasPid(after.rows, target, pid);
      } else {
        assert after.rows[i] == before.rows[i];
      }
    }
    if HasMessage(after.rows, pid) {
      var i :| i in after.rows && after.rows[i].pid == pid;
      if after.rows[i].conv == target {
        assert HasPid(after.rows, target, pid);
      } else {
        assert before.rows[i].pid == pid;
      }
    }
  }

  lemma ImportsHolds(before: Messages, after: Messages, conv: Id, m: MessageIn, pid: string)
    requires Imports(before, after, conv, m)
    ensures HasMessage(after, pid) <==> HasMessage(before, pid) || pid == m.pid
  {
    hide SavedParts;
    var id: Id;
    if Repeated(before, m) {
      id :| Echoes(before, after, id, m);
    } else {
      id :| Inserts(before, after, id, conv, m);
    }
    assert after[id].pid == m.pid;
    assert forall i :: i in before ==> i in after && after[i].pid == before[i].pid;
    assert forall i :: i in after && i != id ==> i in before && after[i].pid == before[i].pid;
    if HasMessage(before, pid) {
      var i :| i in before && before[i].pid == pid;
      assert after[i].pid == pid;
    }
  }

  // Every message of a batch is stored afterwards, and what was stored before still is.
  lemma {:induction false} TraceHolds(trace: seq<Messages>, conv: Id, messages: seq<MessageIn>, pid: string)
    requires Traced(trace, conv, messages)
    ensures HasMessage(trace[|messages|], pid) <==>
            HasMessage(trace[0], pid) || exists m :: m in messages && m.pid == pid
    decreases |messages|
  {
    hide Imports, OutboundUnique;
    if messages != [] {
      ImportsHolds(trace[0], trace[1], conv, messages[0], pid);
      assert Traced(trace[1..], conv, messages[1..]);
      TraceHolds(trace[1..], conv, messages[1..], pid);
      assert forall m :: m in messages <==> m == messages[0] || m in messages[1..];
    }
  }

  // The jobs that no message of a batch ends: a job ends when its outbound message is repeated.
  ghost function Unechoed(jobs: set<Id>, rows: Messages, messages: seq<MessageIn>): set<Id> {
    set i | i in jobs && !exists m :: m in messages && i in rows && Touches(m, rows[i])
  }

  ghost predicate Fixed(rows: Messages, rows': Messages) {
    forall i :: i in rows ==> i in rows' && rows'[i].pid == rows[i].pid && rows'[i].direction == rows[i].direction
  }

  lemma FixedSame(rows: Messages)
    ensures Fixed(rows, rows)
  {
  }

  lemma FixedOn(a: Messages, b: Messages, c: Messages)
    requires Fixed(a, b) && Fixed(b, c)
    ensures Fixed(a, c)
  {
  }

  lemma JobsAreOutbound(rows: Messages, keys: Keys, jobs: set<Id>, orphans: set<Object>)
    requires RowsGood(rows, keys, jobs, orphans)
    ensures forall i :: i in jobs ==> i in rows && rows[i].direction == Outbound
  {
    forall i | i in jobs
      ensures i in rows && rows[i].direction == Outbound
    {
      assert Keyed(keys, i);
    }
  }

  lemma ImportsFix(before: Messages, after: Messages, conv: Id, m: MessageIn)
    requires Imports(before, after, conv, m)
    ensures Fixed(before, after)
  {
    hide SavedParts;
    if Repeated(before, m) {
      var e :| Echoes(before, after, e, m);
    } else {
      var id :| Inserts(before, after, id, conv, m);
    }
  }

  lemma UnechoedMore(jobs: set<Id>, rows: Messages, at: Messages, done: seq<MessageIn>, m: MessageIn)
    requires Fixed(rows, at) && OutboundUnique(at) && forall i :: i in jobs ==>
             i in rows && rows[i].direction == Outbound
    ensures m.direction != Outbound || !HasOutbound(at, m.pid) ==>
              Unechoed(jobs, rows, done + [m]) == Unechoed(jobs, rows, done)
    ensures forall e :: m.direction == Outbound && e in at && IsOutbound(at[e], m.pid) ==>
              Unechoed(jobs, rows, done + [m]) == Unechoed(jobs, rows, done) - {e}
  {
    var next, now := Unechoed(jobs, rows, done + [m]), Unechoed(jobs, rows, done);
    assert forall i :: i in jobs ==> (Touches(m, rows[i]) <==> Touches(m, at[i]));
    assert forall i :: i in next <==> i in now && !Touches(m, rows[i]);
  }

  lemma UnechoedNone(jobs: set<Id>, rows: Messages)
    ensures Unechoed(jobs, rows, []) == jobs
  {
  }

  // Only states differ.
  ghost predicate Restated(rows: Messages, rows': Messages) {
    rows'.Keys == rows.Keys && forall i :: i in rows ==> rows'[i] == rows[i].(state := rows'[i].state)
  }

  lemma RestatedKeeps(db: Db, rows': Messages, jobs': set<Id>)
    requires Good(db) && Restated(db.rows, rows') && jobs' <= db.jobs
    ensures Good(db.(rows := rows', jobs := jobs'))
  {
    hide PartsGood, ObjectsOf, Keyed, LastsExcept;
    RestatedLasts(db.conversations, db.rows, rows', db.stale);
  }

  lemma RestatedLasts(conversations: map<Id, Conversation>, rows: Messages, rows': Messages, some: set<Id>)
    requires LastsExcept(conversations, rows, some) && Restated(rows, rows')
    ensures LastsExcept(conversations, rows', some)
  {
    forall c | c in conversations
      ensures if c in some then HasRows(rows', c) else IsLast(rows', c, conversations[c].last)
    {
      if c in some {
        var i :| i in rows && rows[i].conv == c;
        assert rows'[i].conv == c;
      } else {
        assert IsLast(rows, c, conversations[c].last);
      }
    }
  }
}
