// What saving a message does to the columns of the message table, told by the columns themselves: for one message that
// is repeated, for one that is put into a conversation, and over the message loop of an imported batch.
module MessageColumns {
  import opened ConversationRows
  import opened ConversationState
  import opened MergeRows
  import opened Schema
  import opened Wrappers

  // A repeated outbound message that was pending is sent, at the time of the repetition; otherwise state and time
  // stay. Sender and reply are filled in where they are missing, the provider order is taken if there is one, and
  // the text stays.
  lemma EchoColumns(before: Messages, after: Messages, e: Id, m: MessageIn)
    requires Echoes(before, after, e, m)
    ensures e in before && before[e].direction == Outbound && e in after
    ensures after.Keys == before.Keys && forall i :: i in before && i != e ==> after[i] == before[i]
    ensures var row, row' := before[e], after[e];
            && row' == row.(state := row'.state, at := row'.at, sender := row'.sender, order := row'.order,
                            reply := row'.reply, parts := row'.parts)
            && row'.state == (if row.state in {Queued, OutcomeUnknown} then Sent else row.state)
            && row'.at == (if row.state in {Queued, OutcomeUnknown} then m.at else row.at)
            && row'.sender == (if row.sender != "" then row.sender else m.sender)
            && row'.order == (if m.order.Some? then m.order else row.order)
            && row'.reply == (if row.reply.Some? then row.reply else m.reply)
            && AllRedescribed(row.parts, m.parts, row'.parts)
  {
    SavedPartsColumns(before[e].parts, m.parts);
  }

  // A message that its conversation has already keeps its time and whatever it has of sender, text and reply; only an
  // outbound one that was pending is sent by it.
  lemma ConflictColumns(before: Messages, after: Messages, id: Id, conv: Id, m: MessageIn)
    requires Inserts(before, after, id, conv, m) && id in before
    ensures after.Keys == before.Keys && forall i :: i in before && i != id ==> after[i] == before[i]
    ensures var row, row' := before[id], after[id];
            && row.conv == conv && row.pid == m.pid
            && row' == row.(state := row'.state, sender := row'.sender, text := row'.text, order := row'.order,
                            reply := row'.reply, parts := row'.parts)
            && row'.state == (if row.direction == Outbound && row.state in {Queued, OutcomeUnknown} then Sent
                              else row.state)
            && row'.sender == (if row.sender != "" then row.sender else m.sender)
            && row'.text == (if row.text != "" then row.text else m.text)
            && row'.order == (if m.order.Some? then m.order else row.order)
            && row'.reply == (if row.reply.Some? then row.reply else m.reply)
            && AllRedescribed(row.parts, m.parts, row'.parts)
  {
    SavedPartsColumns(before[id].parts, m.parts);
  }

  // A message that no row of its conversation has gets a row of its own with all it brings, unread.
  lemma NewColumns(before: Messages, after: Messages, id: Id, conv: Id, m: MessageIn)
    requires Inserts(before, after, id, conv, m) && id !in before
    ensures after.Keys == before.Keys + {id} && forall i :: i in before ==> after[i] == before[i]
    ensures forall i :: i in before && before[i].conv == conv ==> before[i].pid != m.pid
    ensures var row := after[id];
            && row.conv == conv && row.pid == m.pid && row.direction == m.direction && row.state == m.state
            && row.sender == m.sender && row.text == m.text && row.at == m.at && row.order == m.order
            && row.reply == m.reply && row.readAt == None && AllRedescribed(map[], m.parts, row.parts)
  {
    SavedPartsColumns(map[], m.parts);
    assert forall i :: i in before && before[i].conv == conv && before[i].pid == m.pid ==>
        HasPid(before, conv, m.pid);
  }

  // What an import leaves of a row that it finds.
  ghost predicate Kept(row: Message, row': Message) {
    && row'.conv == row.conv && row'.pid == row.pid && row'.direction == row.direction && row'.local == row.local
    && row'.readAt == row.readAt && (row.text != "" ==> row'.text == row.text)
    && (row.sender != "" ==> row'.sender == row.sender) && (row.reply.Some? ==> row'.reply == row.reply)
    && (row.order.Some? ==> row'.order.Some?)
    && (row'.state == row.state || (row.direction == Outbound && row.state in {Queued, OutcomeUnknown} &&
                                    row'.state == Sent))
    && (row'.at == row.at || (row.direction == Outbound && row.state in {Queued, OutcomeUnknown} && row'.state == Sent))
    && row.parts.Keys <= row'.parts.Keys && forall p :: p in row.parts ==> row'.parts[p].blob == row.parts[p].blob
  }

  lemma RedescribedKeeps(stored: map<nat, Part>, incoming: map<nat, PartIn>, saved: map<nat, Part>)
    requires AllRedescribed(stored, incoming, saved)
    ensures stored.Keys <= saved.Keys && forall p :: p in stored ==> saved[p].blob == stored[p].blob
  {
  }

  lemma ImportKeeps(before: Messages, after: Messages, conv: Id, m: MessageIn)
    requires Imports(before, after, conv, m)
    ensures forall i :: i in before ==> i in after && Kept(before[i], after[i])
  {
    hide Echoes, Inserts, AllRedescribed;
    if Repeated(before, m) {
      var e :| Echoes(before, after, e, m);
      EchoColumns(before, after, e, m);
      RedescribedKeeps(before[e].parts, m.parts, after[e].parts);
    } else {
      var id :| Inserts(before, after, id, conv, m);
      if id in before {
        ConflictColumns(before, after, id, conv, m);
        RedescribedKeeps(before[id].parts, m.parts, after[id].parts);
      } else {
        NewColumns(before, after, id, conv, m);
      }
    }
  }

  // Whatever a batch repeats, no message that was stored loses its text, sender, reply, read mark or a stored object,
  // and time and state change only where a pending outbound message turns out to be sent.
  lemma {:induction false} BatchKeeps(trace: seq<Messages>, conv: Id, messages: seq<MessageIn>)
    requires Traced(trace, conv, messages)
    ensures forall i :: i in trace[0] ==> i in trace[|messages|] && Kept(trace[0][i], trace[|messages|][i])
    decreases |messages|
  {
    hide Imports, OutboundUnique;
    if messages != [] {
      ImportKeeps(trace[0], trace[1], conv, messages[0]);
      assert Traced(trace[1..], conv, messages[1..]);
      BatchKeeps(trace[1..], conv, messages[1..]);
    }
  }
}
