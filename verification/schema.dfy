// The rows of one account's conversations and messages. Row IDs are numbers drawn fresh; a message's
// read mark, reply and attachments, each keyed by its ID in the database, are columns of the message.
module Schema {
  import opened Links
  import opened Wrappers

  type Id = nat

  datatype Direction = Inbound | Outbound

  datatype State = Received | Queued | Sent | Failed | OutcomeUnknown

  // The object key made of an attachment's or upload's ID, or of a photo's.
  datatype ObjectKey = FileKey(id: Id) | PhotoKey(id: Id)

  // A stored object: storage profile and key.
  datatype Object = Object(profile: string, key: ObjectKey)

  datatype Availability = Remote | Unavailable | Ready

  datatype Part = Part(availability: Availability, ref: Option<string>, auto: bool, failure: string, size: nat,
                       name: string,
                       blob: Option<Object>)

  // A part as the provider describes it; it is never stored yet.
  datatype PartIn = PartIn(availability: Availability, ref: Option<string>, auto: bool, size: nat, name: string)

  datatype Message = Message(conv: Id, pid: string, direction: Direction, state: State, sender: string, text: string,
                             at: int, order: Option<nat>, local: nat, readAt: Option<int>, reply: Option<string>,
                                 parts: map<nat, Part>)

  // A message as it comes from the provider or from a sender, with prepareMessage's defaults. sound: its content, if it
  // has any, is valid JSON, its reply names a message, and each attachment has a kind and a size that fits.
  datatype MessageIn = MessageIn(chat: Jid, pid: string, direction: Direction, state: State, sender: string,
                                 text: string, at: int, order: Option<nat>, reply: Option<string>,
                                 parts: map<nat, PartIn>, sound: bool)

  datatype Conversation = Conversation(home: Jid, group: bool, name: string, description: string, created: int,
                                       updated: int, last: Option<Id>)

  datatype KeyId = KeyId(actor: string, key: string)

  datatype SendKey = SendKey(hash: string, message: Id)

  type Messages = map<Id, Message>

  type Keys = map<KeyId, SendKey>

  // What messages are ordered by.
  datatype Position = Position(at: int, order: Option<nat>, local: nat)

  // (occurred_at, COALESCE(provider_order, '~'), local_order): an absent order comes after every number.
  predicate Later(a: Position, b: Position) {
    a.at > b.at || (a.at == b.at && (
      (a.order.None? && b.order.Some?)
      || (a.order.Some? && b.order.Some? && a.order.value > b.order.value)
      || (a.order == b.order && a.local > b.local)))
  }

  function PositionOf(m: Message): Position {
    Position(m.at, m.order, m.local)
  }

  predicate Newer(a: Message, b: Message) {
    Later(PositionOf(a), PositionOf(b))
  }

  lemma NewerTotal(a: Message, b: Message)
    requires a.local != b.local
    ensures Newer(a, b) != Newer(b, a)
  {
  }

  lemma NewerTransitive(a: Message, b: Message, c: Message)
    requires Newer(a, b) && Newer(b, c)
    ensures Newer(a, c)
  {
  }

  // refreshConversationTx stores the newest message, if there is one.
  ghost predicate IsLast(messages: Messages, conv: Id, last: Option<Id>) {
    match last
    case None => forall i :: i in messages ==> messages[i].conv != conv
    case Some(m) => m in messages && messages[m].conv == conv &&
                    forall i :: i in messages && messages[i].conv == conv && i != m ==> Newer(messages[m], messages[i])
  }

  predicate Keyed(keys: Keys, m: Id) {
    exists k :: k in keys && keys[k].message == m
  }

  ghost predicate HasPid(messages: Messages, conv: Id, pid: string) {
    exists i :: i in messages && messages[i].conv == conv && messages[i].pid == pid
  }

  // Local orders are rowids, which start at 1 and belong to one row each.
  ghost predicate Numbered(messages: Messages) {
    && (forall i :: i in messages ==> messages[i].local >= 1)
    && (forall i, j :: i in messages && j in messages && messages[i].local == messages[j].local ==> i == j)
  }

  // Row identity: provider IDs inside a conversation, and local orders.
  ghost predicate DistinctRows(messages: Messages) {
    && (forall i, j ::
          i in messages && j in messages && messages[i].conv == messages[j].conv && messages[i].pid == messages[j].pid
          ==> i == j)
    && Numbered(messages)
  }

  predicate IsOutbound(m: Message, pid: string) {
    m.direction == Outbound && m.pid == pid
  }

  ghost predicate HasOutbound(messages: Messages, pid: string) {
    exists i :: i in messages && IsOutbound(messages[i], pid)
  }

  // A provider ID belongs to one outbound message of the account.
  ghost predicate OutboundUnique(messages: Messages) {
    forall i, j ::
      i in messages && j in messages && IsOutbound(messages[i], messages[j].pid) && messages[j].direction == Outbound
      ==> i == j
  }

  // Every key leads to an outbound message.
  ghost predicate KeysGood(messages: Messages, keys: Keys) {
    && (forall k :: k in keys ==> keys[k].message in messages && messages[keys[k].message].direction == Outbound)
    && OutboundUnique(messages)
  }

  function ObjectsOf(parts: map<nat, Part>): set<Object> {
    set p | p in parts && parts[p].blob.Some? :: parts[p].blob.value
  }

  predicate PartGood(part: Part) {
    part.availability == Ready <==> part.blob.Some?
  }

  // A part is ready exactly when it names a stored object, and no two parts name the same one.
  ghost predicate PartsGood(parts: map<nat, Part>) {
    && (forall p :: p in parts ==> PartGood(parts[p]))
    && (forall p, q :: p in parts && q in parts && parts[p].blob.Some? && parts[p].blob == parts[q].blob ==> p == q)
  }

  // No two rows name the same object, and no named object waits for deletion.
  ghost predicate ObjectsGood(messages: Messages, orphans: set<Object>) {
    && (forall i :: i in messages ==> PartsGood(messages[i].parts) && ObjectsOf(messages[i].parts) !! orphans)
    && (forall i, j :: i in messages && j in messages && i != j ==>
        ObjectsOf(messages[i].parts) !! ObjectsOf(messages[j].parts))
  }

  ghost function AllObjects(messages: Messages): set<Object> {
    set i, x | i in messages && x in ObjectsOf(messages[i].parts) :: x
  }
}
