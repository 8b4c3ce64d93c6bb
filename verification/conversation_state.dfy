// The tables behind conversations: what holds between transactions, and what one of them may change.
module ConversationState {
  import opened Links
  import opened MergeRows
  import opened Schema
  import opened Wrappers

  type Aliases = map<Jid, Id>

  // stale: the conversations whose cached last message an import may have left behind; not a column.
  datatype Db = Db(conversations: map<Id, Conversation>, aliases: Aliases, rows: Messages, keys: Keys, jobs: set<Id>,
                   orphans: set<Object>, stale: set<Id>)

  ghost predicate RowsGood(rows: Messages, keys: Keys, jobs: set<Id>, orphans: set<Object>) {
    && DistinctRows(rows) && KeysGood(rows, keys) && ObjectsGood(rows, orphans)
    && forall m :: m in jobs ==> Keyed(keys, m)
  }

  ghost predicate HasRows(rows: Messages, conv: Id) {
    exists i :: i in rows && rows[i].conv == conv
  }

  // The cached last message of every conversation outside some is the newest of its messages; the others have messages.
  ghost predicate LastsExcept(conversations: map<Id, Conversation>, rows: Messages, some: set<Id>) {
    && some <= conversations.Keys
    && forall c :: c in conversations ==> if c in some then HasRows(rows, c) else IsLast(rows, c, conversations[c].last)
  }

  ghost predicate Good(db: Db) {
    RowsGood(db.rows, db.keys, db.jobs, db.orphans) && LastsExcept(db.conversations, db.rows, db.stale) && Anchored(db)
  }

  // Foreign keys, and every conversation's own JID leads back to it. So UNIQUE(account_id,
  // provider_chat_id) holds as well.
  ghost predicate Anchored(db: Db) {
    Rooted(db.conversations, db.aliases, db.rows)
  }

  ghost predicate Rooted(conversations: map<Id, Conversation>, aliases: Aliases, rows: Messages) {
    && (forall m :: m in rows ==> rows[m].conv in conversations)
    && (forall j :: j in aliases ==> aliases[j] in conversations)
    && (forall c :: c in conversations ==> conversations[c].home in aliases && aliases[conversations[c].home] == c)
  }

  function Redirected(aliases: Aliases, from: Id, to: Id): Aliases {
    map j | j in aliases :: if aliases[j] == from then to else aliases[j]
  }

  function MergedProfile(target: Conversation, source: Conversation): Conversation {
    target.(group := target.group || source.group,
            name := if target.name == "" then source.name else target.name,
            description := if target.description == "" then source.description else target.description)
  }

  function Refreshed(conversation: Conversation, rows: Messages, last: Option<Id>): Conversation
    requires last.Some? ==> last.value in rows
  {
    if last.None? then conversation else conversation.(updated := rows[last.value].at, last := last)
  }

  // m repeats an outbound message of the conversation.
  ghost predicate Repeats(rows: Messages, m: MessageIn, conv: Id) {
    m.direction == Outbound &&
      exists i :: i in rows && rows[i].conv == conv && rows[i].pid == m.pid && rows[i].direction == Outbound
  }

  ghost predicate Repeated(rows: Messages, m: MessageIn) {
    m.direction == Outbound && HasOutbound(rows, m.pid)
  }

  // saveMessageTx changed the outbound message that m repeats.
  ghost predicate Echoes(before: Messages, after: Messages, e: Id, m: MessageIn) {
    e in before && before[e].direction == Outbound && before[e].pid == m.pid &&
        after == before[e := EchoedRow(before[e], m)]
  }

  // saveMessageTx put m into a conversation: into the row it has there, or into a new one.
  ghost predicate Inserts(before: Messages, after: Messages, id: Id, conv: Id, m: MessageIn) {
    if id in before then before[id].conv == conv && before[id].pid == m.pid &&
        after == before[id := ConflictRow(before[id], m)]
    else !HasPid(before, conv, m.pid) && exists local :: after == before[id := NewRow(conv, local, m)]
  }

  // One message of ImportHistory.
  ghost predicate Imports(before: Messages, after: Messages, conv: Id, m: MessageIn) {
    if Repeated(before, m) then exists e :: Echoes(before, after, e, m)
        else exists id :: Inserts(before, after, id, conv, m)
  }

  // What the sending of a message depends on.
  predicate SameSend(row: Message, row': Message) {
    row'.pid == row.pid && row'.direction == row.direction && row'.state == row.state
  }

  // Only what refreshConversationTx writes may differ, and only in one conversation, whose time is its last message's.
  ghost predicate OnlyRefreshed(before: map<Id, Conversation>, after: map<Id, Conversation>, rows: Messages, conv: Id) {
    && conv in before && after.Keys == before.Keys
    && after[conv] == before[conv].(updated := after[conv].updated, last := after[conv].last)
    && (after[conv].last.Some? ==>
          after[conv].last.value in rows && after[conv].updated == rows[after[conv].last.value].at)
    && forall c :: c in before && c != conv ==> after[c] == before[c]
  }

  // HistoryBatch.Chat
  datatype Chat = Chat(id: Jid, aliases: seq<Jid>, preferred: Jid, group: Option<bool>, name: string,
                       description: string,
                       lastActivity: Option<int>)

  // The chat profile that ImportHistory brings; what it leaves empty stays.
  function Profiled(c: Conversation, preferred: Jid, group: Option<bool>, name: string,
                    description: string): Conversation {
    c.(home := if preferred != "" then preferred else c.home, group := if group.Some? then group.value else c.group,
       name := if name != "" then name else c.name, description := if description != "" then description
           else c.description)
  }

  ghost predicate Unstored(m: MessageIn) {
    forall p :: p in m.parts ==> m.parts[p].availability != Ready
  }

  // A new version of a row that is still the same row and owns the same objects.
  ghost predicate SameRow(row: Message, row': Message) {
    && row'.conv == row.conv && row'.pid == row.pid && row'.direction == row.direction && row'.local == row.local
    && PartsGood(row'.parts) && ObjectsOf(row'.parts) == ObjectsOf(row.parts)
  }

  function ReservedRow(conv: Id, local: nat, m: MessageIn, upload: Option<Object>): Message {
    Message(conv, m.pid, Outbound, Queued, m.sender, m.text, m.at, None, local, None, m.reply,
            if upload.Some? then map[0 := Part(Ready, None, false, "", 0, "", upload)] else map[])
  }

  function CompletedRow(row: Message, state: State, sender: string, at: Option<int>, media: bool): Message {
    if row.state == Queued || (media && row.state == Sent)
    then row.(state := if row.state == Sent then Sent else state, sender := if sender == "" then row.sender else sender,
              at := if at.Some? then at.value else row.at)
    else row
  }

  // A message that was reserved: outbound, waiting, not yet ordered by the provider, with the upload as its only file.
  ghost predicate ReservedColumns(conv: Id, m: MessageIn, upload: Option<Object>, row: Message) {
    && row.conv == conv && row.pid == m.pid && row.direction == Outbound && row.state == Queued
    && row.sender == m.sender && row.text == m.text && row.at == m.at && row.reply == m.reply
    && row.order == None && row.readAt == None
    && (upload.None? ==> row.parts == map[])
    && (upload.Some? ==> row.parts.Keys == {0} && row.parts[0].blob == upload && row.parts[0].availability == Ready)
  }

  lemma ReservedHas(conv: Id, local: nat, m: MessageIn, upload: Option<Object>)
    ensures ReservedColumns(conv, m, upload, ReservedRow(conv, local, m, upload))
  {
  }

  lemma CompletedColumns(row: Message, state: State, sender: string, at: Option<int>, media: bool)
    ensures var row' := CompletedRow(row, state, sender, at, media);
            && (row.state == Queued ==> row'.state == state)
            && (row.state != Queued ==> row'.state == row.state)
            && (row.state == Queued || (media && row.state == Sent) ==>
                  && row'.sender == (if sender != "" then sender else row.sender)
                  && row'.at == (if at.Some? then at.value else row.at)
                  && row' == row.(state := row'.state, sender := row'.sender, at := row'.at))
            && (row.state != Queued && !(media && row.state == Sent) ==> row' == row)
  {
  }

  // Every message that waits to be sent fails at a logout, ...
  function Failing(rows: Messages, jobs: set<Id>, sending: set<Id>): Messages {
    map i | i in rows :: if rows[i].state == Queued && i in jobs
                         then rows[i].(state := if i in sending then OutcomeUnknown else Failed) else rows[i]
  }

  // ... and is uncertain after a restart unless its job can begin anew.
  function Recovering(rows: Messages, jobs: set<Id>, sending: set<Id>): Messages {
    map i | i in rows :: if rows[i].state == Queued && (i !in jobs || i in sending)
                         then rows[i].(state := OutcomeUnknown) else rows[i]
  }

  // The conversations that a set of JIDs leads to.
  ghost function Led(aliases: Aliases, names: set<Jid>): set<Id> {
    set j | j in names && j in aliases :: aliases[j]
  }

  function Mapped(aliases: Aliases, names: set<Jid>, conv: Id): Aliases {
    map j | j in aliases.Keys + names :: if j in names then conv else aliases[j]
  }

  ghost predicate Agree(aliases: Aliases, a: Jid, b: Jid) {
    (a in aliases <==> b in aliases) && (a in aliases && b in aliases ==> aliases[a] == aliases[b])
  }

  // Linked JIDs lead to the same conversation or all to none.
  ghost predicate Agrees(links: set<LinkRow>, aliases: Aliases) {
    forall r :: r in links ==> Agree(aliases, r.0, r.1)
  }

  ghost predicate AgreesOutside(links: set<LinkRow>, aliases: Aliases, names: set<Jid>) {
    forall r :: r in links && r.0 !in names && r.1 !in names ==> Agree(aliases, r.0, r.1)
  }

  // The profile of conversations made one: a group if any of them was; name and description of the target, or of
  // another of them where the target has none, and none only if no one had any.
  ghost predicate UnitedProfile(before: map<Id, Conversation>, after: Conversation, group: set<Id>, target: Id) {
    && target in group && group <= before.Keys
    && (after.group <==> exists c :: c in group && before[c].group)
    && (exists c :: c in group && before[c].name == after.name)
    && (if before[target].name != "" then after.name == before[target].name
        else after.name == "" ==> forall c :: c in group ==> before[c].name == "")
    && (exists c :: c in group && before[c].description == after.description)
    && (if before[target].description != "" then after.description == before[target].description
        else after.description == "" ==> forall c :: c in group ==> before[c].description == "")
  }

  // What ensureConversationTx promises: every name leads to conv, ...
  ghost predicate EnsuredIndex(before: Db, after: Db, chat: Jid, names: set<Jid>, conv: Id) {
    var group := Led(before.aliases, names);
    && conv in after.conversations && after.aliases.Keys == before.aliases.Keys + names
    && (forall j :: j in after.aliases ==> after.aliases[j] == if j in names || before.aliases[j] in group then conv
        else before.aliases[j])
    && (if group == {}
        then
          && conv !in before.conversations && after.conversations.Keys == before.conversations.Keys + {conv}
          && after.conversations[conv].home == chat && !after.conversations[conv].group
          && after.conversations[conv].name == after.conversations[conv].description == ""
        else
          && conv in group && after.conversations.Keys == before.conversations.Keys - (group - {conv})
          && after.conversations[conv].home == before.conversations[conv].home
          && UnitedProfile(before.conversations, after.conversations[conv], group, conv))
    && (forall c :: c in before.conversations && c !in group ==>
        c in after.conversations && after.conversations[c] == before.conversations[c])
  }

  // ... and conv holds all that the names' old conversations held; everything else is as it was.
  ghost predicate Ensured(before: Db, after: Db, chat: Jid, names: set<Jid>, conv: Id) {
    EnsuredIndex(before, after, chat, names, conv) &&
        UnitedRows(before, after, Led(before.aliases, names) + {conv}, conv)
  }

  // What addChatLinkTx does about conversations, once the link is stored.
  ghost predicate ChatsLinked(before: Db, after: Db, links: set<LinkRow>, first: Jid, second: Jid) {
    if first != "" && second != "" && first != second && (first in before.aliases || second in before.aliases)
    then
      && first in after.aliases && after.aliases[first] !in after.stale
      && Ensured(before, after, first, Linked(links, [first] + [second]), after.aliases[first])
    else after == before
  }

  // A message with that provider ID is stored somewhere.
  ghost predicate HasMessage(rows: Messages, pid: string) {
    exists i :: i in rows && rows[i].pid == pid
  }

  predicate Precedes(conversations: map<Id, Conversation>, a: Id, b: Id)
    requires a in conversations && b in conversations
  {
    conversations[a].created < conversations[b].created ||
        (conversations[a].created == conversations[b].created && a < b)
  }

  ghost function Members(ids: seq<Id>): set<Id> {
    set c | c in ids
  }

  // after is before with all conversations of the group made one, which keeps target's identity: the
  // index, ...
  ghost predicate UnitedIndex(before: Db, after: Db, group: set<Id>, target: Id) {
    && target in group && group <= before.conversations.Keys
    && after.conversations.Keys == before.conversations.Keys - (group - {target})
    && (forall c :: c in after.conversations && c != target ==> after.conversations[c] == before.conversations[c])
    && after.conversations[target].home == before.conversations[target].home
    && after.conversations[target].created == before.conversations[target].created
    && UnitedProfile(before.conversations, after.conversations[target], group, target)
    && after.aliases.Keys == before.aliases.Keys
    && (forall j :: j in before.aliases ==> after.aliases[j] == if before.aliases[j] in group then target
        else before.aliases[j])
  }

  // ... and the messages: one row for each provider message of the group, no other row touched, no
  // send key and no stored object lost.
  ghost predicate UnitedRows(before: Db, after: Db, group: set<Id>, target: Id) {
    && (forall pid :: HasPid(after.rows, target, pid) <==> exists c :: c in group && HasPid(before.rows, c, pid))
    && (forall i :: i in after.rows ==> i in before.rows && SameSend(before.rows[i], after.rows[i]))
    && (forall i :: i in before.rows && before.rows[i].direction == Outbound ==> i in after.rows)
    && (forall i :: i in before.rows && before.rows[i].conv !in group ==>
        i in after.rows && after.rows[i] == before.rows[i])
    && (forall i :: i in after.rows && after.rows[i].conv != target ==>
        i in before.rows && before.rows[i].conv !in group)
    && after.keys == before.keys && after.jobs == before.jobs
    && before.stale - group <= after.stale <= before.stale
    && AllObjects(after.rows) + after.orphans == AllObjects(before.rows) + before.orphans
  }

  ghost predicate United(before: Db, after: Db, group: set<Id>, target: Id) {
    UnitedIndex(before, after, group, target) && UnitedRows(before, after, group, target)
  }

  // What a merge does to the two tables of conversations.
  ghost predicate MergedInto(before: Db, after: Db, target: Id, source: Id, last: Option<Id>) {
    && target in before.conversations && source in before.conversations && target != source
    && (last.Some? ==> last.value in after.rows)
    && after.aliases == Redirected(before.aliases, source, target)
    && after.conversations == (before.conversations - {source})
         [target := Refreshed(MergedProfile(before.conversations[target], before.conversations[source]), after.rows,
                              last)]
  }

  function WithParts(rows: Messages, m: Id, parts: map<nat, Part>): Messages
    requires m in rows
  {
    rows[m := rows[m].(parts := parts)]
  }

  // UPDATE send_keys SET message_id = to WHERE message_id = from
  function RedirectKeys(keys: Keys, from: Id, to: Id): Keys {
    map k | k in keys :: if keys[k].message == from then keys[k].(message := to) else keys[k]
  }

  function Only(parts: map<nat, Part>, some: set<nat>): map<nat, Part> {
    map p | p in parts && p in some :: parts[p]
  }
}
