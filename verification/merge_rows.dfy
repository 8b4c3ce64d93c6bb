// What merging two duplicate rows of one provider message keeps.
module MergeRows {
  import opened Reports
  import opened Schema
  import opened Wrappers

  // saveAttachmentsTx: ON CONFLICT(message_id, part_index) DO UPDATE.
  function SavedPart(stored: Option<Part>, incoming: PartIn): Part {
    match stored
    case None => Part(incoming.availability, incoming.ref, incoming.auto, "", incoming.size, incoming.name, None)
    case Some(p) =>
      Part(if p.availability == Ready then Ready
           else if incoming.availability == Remote then Remote
           else p.availability,
           Coalesce(incoming.ref, p.ref),
           p.failure == "" && (p.auto || incoming.auto),
           p.failure,
           if incoming.size != 0 then incoming.size else p.size,
           if incoming.name != "" then incoming.name else p.name,
           p.blob)
  }

  function SavedParts(stored: map<nat, Part>, incoming: map<nat, PartIn>): map<nat, Part> {
    map p | p in stored.Keys + incoming.Keys :: if p in incoming then SavedPart(Stored(stored, p), incoming[p])
        else stored[p]
  }

  // What the provider's description does to a stored attachment: a missing column never clears a stored one, a stored
  // object stays, and a failed download is not fetched again by itself.
  ghost predicate Redescribed(p: Part, incoming: PartIn, saved: Part) {
    && saved.blob == p.blob && saved.failure == p.failure
    && (p.availability == Ready <==> saved.availability == Ready)
    && (saved.availability == Remote <==>
          p.availability == Remote || (p.availability != Ready && incoming.availability == Remote))
    && saved.ref == (if incoming.ref.Some? then incoming.ref else p.ref)
    && saved.size == (if incoming.size > 0 then incoming.size else p.size)
    && saved.name == (if incoming.name != "" then incoming.name else p.name)
    && (saved.auto <==> p.failure == "" && (p.auto || incoming.auto))
  }

  ghost predicate AllRedescribed(stored: map<nat, Part>, incoming: map<nat, PartIn>, saved: map<nat, Part>) {
    && saved.Keys == stored.Keys + incoming.Keys
    && (forall p :: p in stored && p !in incoming ==> saved[p] == stored[p])
    && (forall p :: p in stored && p in incoming ==> Redescribed(stored[p], incoming[p], saved[p]))
    && (forall p :: p in incoming && p !in stored ==>
          var i := incoming[p]; saved[p] == Part(i.availability, i.ref, i.auto, "", i.size, i.name, None))
  }

  lemma SavedPartsColumns(stored: map<nat, Part>, incoming: map<nat, PartIn>)
    ensures AllRedescribed(stored, incoming, SavedParts(stored, incoming))
  {
  }

  lemma SavedPartsKeepObjects(stored: map<nat, Part>, incoming: map<nat, PartIn>)
    requires PartsGood(stored) && forall p :: p in incoming ==> incoming[p].availability != Ready
    ensures PartsGood(SavedParts(stored, incoming)) && ObjectsOf(SavedParts(stored, incoming)) == ObjectsOf(stored)
  {
    var saved := SavedParts(stored, incoming);
    forall p | p in saved
      ensures PartGood(saved[p]) && saved[p].blob == if p in stored then stored[p].blob else None
    {
    }
    forall x | x in ObjectsOf(stored)
      ensures x in ObjectsOf(saved)
    {
      var p :| p in stored && stored[p].blob == Some(x);
      assert saved[p].blob == Some(x);
    }
  }

  predicate Pending(state: State) {
    state == Queued || state == OutcomeUnknown
  }

  // saveMessageTx on the outbound message that an incoming one repeats.
  function EchoedRow(row: Message, m: MessageIn): Message {
    row.(state := if Pending(row.state) then Sent else row.state,
         sender := if row.sender == "" then m.sender else row.sender,
         at := if Pending(row.state) then m.at else row.at,
         order := Coalesce(m.order, row.order), reply := Coalesce(row.reply, m.reply),
             parts := SavedParts(row.parts, m.parts))
  }

  // saveMessageTx: ON CONFLICT(account_id, conversation_id, provider_message_id) DO UPDATE.
  function ConflictRow(row: Message, m: MessageIn): Message {
    row.(state := if row.direction == Outbound && Pending(row.state) then Sent else row.state,
         sender := if row.sender == "" then m.sender else row.sender,
         text := if row.text == "" then m.text else row.text,
         order := Coalesce(m.order, row.order), reply := Coalesce(row.reply, m.reply),
             parts := SavedParts(row.parts, m.parts))
  }

  // A message that arrives again changes nothing more, whether as an echo or in a history batch.
  lemma RepeatsChangeNothing(row: Message, m: MessageIn)
    ensures EchoedRow(EchoedRow(row, m), m) == EchoedRow(row, m)
    ensures ConflictRow(ConflictRow(row, m), m) == ConflictRow(row, m)
  {
    SavedTwice(row.parts, m.parts);
  }

  lemma SavedTwice(stored: map<nat, Part>, incoming: map<nat, PartIn>)
    ensures SavedParts(SavedParts(stored, incoming), incoming) == SavedParts(stored, incoming)
  {
    var once := SavedParts(stored, incoming);
    forall p | p in incoming
      ensures SavedPart(Some(once[p]), incoming[p]) == once[p]
    {
    }
  }

  function NewRow(conv: Id, local: nat, m: MessageIn): Message {
    Message(conv, m.pid, m.direction, m.state, m.sender, m.text, m.at, m.order, local, None, m.reply,
            SavedParts(map[], m.parts))
  }

  function Described(p: Part): PartIn {
    PartIn(p.availability, p.ref, p.auto, p.size, p.name)
  }

  // One round of mergeAttachmentsTx: the kept row of a part.
  function MergedPart(stored: Option<Part>, source: Part): Part {
    var saved := SavedPart(stored, Described(source));
    if source.availability == Ready && (saved.availability != Ready || saved.blob.None?)
    then saved.(availability := Ready, blob := source.blob)
    else saved
  }

  function Stored(parts: map<nat, Part>, p: nat): Option<Part> {
    if p in parts then Some(parts[p]) else None
  }

  function MergedParts(target: map<nat, Part>, source: map<nat, Part>): map<nat, Part> {
    map p | p in target.Keys + source.Keys :: if p in source then MergedPart(Stored(target, p), source[p])
        else target[p]
  }

  function Min(a: Option<int>, b: Option<int>): Option<int> {
    Coalesce(Coalesce(SqlMin(a, b), a), b)
  }

  // mergeMessageOrderTx and mergeAttachmentsTx together.
  function MergedRow(kept: Message, dropped: Message): Message {
    kept.(readAt := Min(kept.readAt, dropped.readAt), reply := Coalesce(kept.reply, dropped.reply),
          order := Coalesce(kept.order, dropped.order), parts := MergedParts(kept.parts, dropped.parts))
  }

  function ReleasedPart(stored: Option<Part>, source: Part): set<Object> {
    if source.blob.Some? && stored.Some? && stored.value.blob.Some? && source.blob != stored.value.blob
        then {source.blob.value} else {}
  }

  // The objects that mergeAttachmentsTx hands to media_orphans.
  function Released(target: map<nat, Part>, source: map<nat, Part>): set<Object> {
    set p | p in source && p in target && source[p].blob.Some? && target[p].blob.Some? &&
        source[p].blob != target[p].blob :: source[p].blob.value
  }

  lemma MergedPartObject(target: map<nat, Part>, source: map<nat, Part>, p: nat)
    requires PartsGood(target) && PartsGood(source) && p in target.Keys + source.Keys
    ensures var merged := MergedParts(target, source)[p];
            && merged.blob == (if p in target && target[p].blob.Some? then target[p].blob else if p in source
                               then source[p].blob else None)
            && (merged.availability == Ready <==> merged.blob.Some?)
  {
  }

  // An attachment after the merge of two messages: unchanged if only the kept message has it, taken over if only the
  // other has, and else the kept one's object, or the other's, with the other's description where it has one.
  ghost predicate MergedColumns(kept: map<nat, Part>, other: map<nat, Part>, p: nat, merged: Part) {
    if p !in other then p in kept && merged == kept[p]
    else if p !in kept then merged == other[p].(failure := "")
    else
      && merged.blob == (if kept[p].blob.Some? then kept[p].blob else other[p].blob)
      && (merged.availability == Ready <==> merged.blob.Some?)
      && (merged.availability == Remote <==>
            merged.blob.None? && (kept[p].availability == Remote || other[p].availability == Remote))
      && merged.ref == (if other[p].ref.Some? then other[p].ref else kept[p].ref)
      && merged.size == (if other[p].size > 0 then other[p].size else kept[p].size)
      && merged.name == (if other[p].name != "" then other[p].name else kept[p].name)
      && merged.failure == kept[p].failure
      && (merged.auto <==> kept[p].failure == "" && (kept[p].auto || other[p].auto))
  }

  lemma MergedPartColumns(kept: map<nat, Part>, other: map<nat, Part>, p: nat)
    requires PartsGood(kept) && PartsGood(other) && p in kept.Keys + other.Keys
    ensures MergedColumns(kept, other, p, MergedParts(kept, other)[p])
  {
  }

  // Merging the parts of two messages loses no object, and keeps none that it releases.
  lemma MergedPartsConserve(target: map<nat, Part>, source: map<nat, Part>)
    requires PartsGood(target) && PartsGood(source) && ObjectsOf(target) !! ObjectsOf(source)
    ensures PartsGood(MergedParts(target, source))
    ensures ObjectsOf(MergedParts(target, source)) + Released(target, source) == ObjectsOf(target) + ObjectsOf(source)
    ensures ObjectsOf(MergedParts(target, source)) !! Released(target, source)
  {
    hide MergedParts;
    var merged := MergedParts(target, source);
    MergedPartsKeys(target, source);
    forall p | p in target.Keys + source.Keys
      ensures merged[p].blob == (if p in target && target[p].blob.Some? then target[p].blob else if p in source
                                 then source[p].blob else None)
      ensures merged[p].availability == Ready <==> merged[p].blob.Some?
    {
      MergedPartObject(target, source, p);
    }
    forall p, q | p in target && q in source && target[p].blob.Some? && source[q].blob.Some?
      ensures target[p].blob != source[q].blob
    {
      assert target[p].blob.value in ObjectsOf(target) && source[q].blob.value in ObjectsOf(source);
    }
    forall x | x in ObjectsOf(target)
      ensures x in ObjectsOf(merged)
    {
      var p :| p in target && target[p].blob == Some(x);
      assert merged[p].blob == Some(x);
    }
    forall x | x in ObjectsOf(source)
      ensures x in ObjectsOf(merged) || x in Released(target, source)
    {
      var p :| p in source && source[p].blob == Some(x);
      assert (p in target && target[p].blob.Some? && target[p].blob != Some(x)) || merged[p].blob == Some(x);
    }
  }

  lemma MergedPartsKeys(target: map<nat, Part>, source: map<nat, Part>)
    ensures MergedParts(target, source).Keys == target.Keys + source.Keys
  {
  }
}
