// aliases.go, conversations.go and the writing half of messages.go: conversations are found through
// every linked JID and merged when a link shows that two of them are one.
module Conversations {
  import Changes
  import opened ConversationRows
  import opened ConversationState
  import opened ConversationUnion
  import opened Links
  import opened MergePlan
  import opened MergeRows
  import opened Participants
  import opened Reports
  import opened Schema
  import opened Wrappers

  class Store {
    const people: Tables
    var conversations: map<Id, Conversation>
    var aliases: Aliases
    var rows: Messages
    var keys: Keys
    var jobs: set<Id>
    var orphans: set<Object>
    var changes: Changes.Table
    ghost var stale: set<Id>

    constructor ()
      ensures Valid() && fresh(people) && people.Now() == Knowledge({}, {}, {})
      ensures Now() == Db(map[], map[], map[], map[], {}, {}, {}) && changes == map[]
    {
      people := new Tables();
      conversations, aliases, rows, keys, jobs, orphans, changes, stale := map[], map[], map[], map[], {}, {}, map[],
          {};
    }

    ghost function Now(): Db
      reads this
    {
      Db(conversations, aliases, rows, keys, jobs, orphans, stale)
    }

    // SELECT ... WHERE conversation_id = ? AND provider_message_id = ?
    method Lookup(conv: Id, pid: string) returns (found: Option<Id>)
      ensures found.Some? ==> found.value in rows && rows[found.value].conv == conv && rows[found.value].pid == pid
      ensures found.None? ==> forall i :: i in rows ==> rows[i].conv != conv || rows[i].pid != pid
    {
      if i :| i in rows && rows[i].conv == conv && rows[i].pid == pid {
        found := Some(i);
      } else {
        found := None;
      }
    }

    // SELECT ... WHERE conversation_id = ? LIMIT 100, in no particular order.
    method SelectBatch(conv: Id) returns (batch: seq<Id>)
      ensures NoDuplicates(batch) && |batch| <= 100
      ensures forall i :: i in batch ==> i in rows && rows[i].conv == conv
      ensures batch == [] ==> forall i :: i in rows ==> rows[i].conv != conv
    {
      batch := [];
      var rest := set i | i in rows && rows[i].conv == conv;
      while rest != {} && |batch| < 100
        invariant NoDuplicates(batch) && |batch| <= 100
        invariant forall i :: i in rest ==> i in rows && rows[i].conv == conv && i !in batch
        invariant forall i :: i in batch ==> i in rows && rows[i].conv == conv
        invariant batch == [] ==> rest == set i | i in rows && rows[i].conv == conv
        decreases rest
      {
        var i :| i in rest;
        rest := rest - {i};
        batch := batch + [i];
      }
      if batch == [] {
        assert rest == {};
        assert forall i :: i in rows && rows[i].conv == conv ==> i in rest;
      }
    }

    // SELECT ... WHERE conversation_id = ? ORDER BY messageOrder LIMIT 1
    method Newest(conv: Id) returns (last: Option<Id>)
      requires DistinctRows(rows)
      ensures IsLast(rows, conv, last)
    {
      last := None;
      var rest := rows.Keys;
      while rest != {}
        invariant rest <= rows.Keys
        invariant last.Some? ==> last.value in rows && rows[last.value].conv == conv && last.value !in rest
        invariant forall i :: i in rows && i !in rest && rows[i].conv == conv ==>
                    last.Some? && (i == last.value || Newer(rows[last.value], rows[i]))
        decreases rest
      {
        var i :| i in rest;
        rest := rest - {i};
        if rows[i].conv == conv {
          if last.None? || Newer(rows[i], rows[last.value]) {
            last := Some(i);
          } else {
            NewerTotal(rows[i], rows[last.value]);
          }
        }
      }
    }

    // refreshConversationTx
    method Refresh(conv: Id) returns (ghost last: Option<Id>)
      requires DistinctRows(rows) && conv in conversations
      modifies this`conversations
      ensures IsLast(rows, conv, last) && (last.Some? ==> last.value in rows)
      ensures conversations == old(conversations)[conv := Refreshed(old(conversations)[conv], rows, last)]
    {
      var newest := Newest(conv);
      last := newest;
      if newest.Some? {
        conversations := conversations[conv := conversations[conv].(updated := rows[newest.value].at, last := newest)];
      }
    }

    // DELETE FROM messages: the preconditions are the foreign keys that would make it fail.
    method DeleteMessage(m: Id)
      requires m in rows && !Keyed(keys, m) && m !in jobs && rows[m].parts == map[]
      modifies this`rows
      ensures rows == old(rows) - {m}
    {
      rows := rows - {m};
    }

    // mergeMessageOrderTx
    method MergeMessageOrder(target: Id, source: Id)
      requires target in rows && source in rows && target != source
      modifies this`rows
      ensures var t, s := old(rows)[target], old(rows)[source];
              rows == old(rows)[target := t.(readAt := Min(t.readAt, s.readAt), reply := Coalesce(t.reply, s.reply),
                                             order := Coalesce(t.order, s.order))]
    {
      if rows[source].readAt.Some? {
        var read := if rows[target].readAt.Some? then SqlMin(rows[target].readAt, rows[source].readAt)
            else rows[source].readAt;
        rows := rows[target := rows[target].(readAt := read)];
      }
      if rows[source].reply.Some? && rows[target].reply.None? {
        rows := rows[target := rows[target].(reply := rows[source].reply)];
      }
      rows := rows[target := rows[target].(order := Coalesce(rows[target].order, rows[source].order))];
    }

    // One source attachment of mergeAttachmentsTx.
    method MergeAttachment(target: Id, p: nat, source: Part)
      requires target in rows && PartGood(source)
      requires p in rows[target].parts ==> PartGood(rows[target].parts[p])
      modifies this`rows, this`orphans
      ensures var stored := Stored(old(rows)[target].parts, p);
              && rows == WithParts(old(rows), target, old(rows)[target].parts[p := MergedPart(stored, source)])
              && orphans == old(orphans) + ReleasedPart(stored, source)
    {
      var part := SavedPart(Stored(rows[target].parts, p), Described(source));
      if source.availability == Ready {
        if part.availability != Ready || part.blob.None? {
          part := part.(availability := Ready, blob := source.blob);
        } else if source.blob.Some? && part.blob != source.blob {
          orphans := orphans + {source.blob.value};
        }
      }
      rows := rows[target := rows[target].(parts := rows[target].parts[p := part])];
    }

    // mergeAttachmentsTx
    method MergeAttachments(target: Id, source: Id)
      requires target in rows && source in rows && target != source
      requires PartsGood(rows[target].parts) && PartsGood(rows[source].parts)
      modifies this`rows, this`orphans
      ensures rows == WithParts(WithParts(old(rows), target,
                                          MergedParts(old(rows)[target].parts, old(rows)[source].parts)), source, map[])
      ensures orphans == old(orphans) + Released(old(rows)[target].parts, old(rows)[source].parts)
    {
      hide WithParts, MergedParts, Released, Only, MergedPart, ReleasedPart, PartGood;
      var parts := rows[source].parts;
      ghost var before := rows[target].parts;
      var rest := parts.Keys;
      WithPartsSame(rows, target);
      OnlyNone(before, parts);
      while rest != {}
        invariant rest <= parts.Keys
        invariant rows == WithParts(old(rows), target, MergedParts(before, Only(parts, parts.Keys - rest)))
        invariant orphans == old(orphans) + Released(before, Only(parts, parts.Keys - rest))
        decreases rest
      {
        var p :| p in rest;
        OnlyMerges(before, parts, parts.Keys - rest, p);
        OnlyReleases(before, parts, parts.Keys - rest, p);
        assert parts.Keys - (rest - {p}) == parts.Keys - rest + {p};
        assert PartGood(parts[p]) && (p in before ==> PartGood(before[p]));
        WithPartsTwice(old(rows), target, MergedParts(before, Only(parts, parts.Keys - rest)),
                       MergedParts(before, Only(parts, parts.Keys - rest + {p})));
        MergeAttachment(target, p, parts[p]);
        rest := rest - {p};
      }
      assert parts.Keys - rest == parts.Keys;
      OnlyAll(parts);
      WithPartsElsewhere(old(rows), target, MergedParts(before, parts), source);
      rows := rows[source := rows[source].(parts := map[])];
    }

    // mergeMessageOrderTx and mergeAttachmentsTx for one pair of duplicates.
    method Absorb(kept: Id, dropped: Id)
      requires kept in rows && dropped in rows && kept != dropped
      requires PartsGood(rows[kept].parts) && PartsGood(rows[dropped].parts)
      modifies this`rows, this`orphans
      ensures dropped in rows && rows[dropped].parts == map[]
      ensures rows - {dropped} == (old(rows) - {dropped})[kept := MergedRow(old(rows)[kept], old(rows)[dropped])]
      ensures orphans == old(orphans) + Released(old(rows)[kept].parts, old(rows)[dropped].parts)
    {
      hide PartsGood, MergedParts, Released;
      MergeMessageOrder(kept, dropped);
      MergeAttachments(kept, dropped);
    }

    // The source message of a pair replaces the target message.
    method ReplaceTarget(s: Id, t: Id, target: Id)
      requires s in rows && t in rows && s != t && ObjectsGood(rows, orphans) && !Keyed(keys, t) && t !in jobs
      modifies this`rows, this`orphans
      ensures rows == (old(rows) - {t})[s := MergedRow(old(rows)[s], old(rows)[t]).(conv := target)]
      ensures ObjectsGood(rows, orphans) && AllObjects(rows) + orphans == AllObjects(old(rows)) + old(orphans)
    {
      hide ObjectsGood, Keyed, ObjectsOf, AllObjects, PartsGood, MergedParts, Released;
      PairConserves(rows, orphans, s, t, MergedRow(rows[s], rows[t]).(conv := target));
      PairStaysGood(rows, orphans, s, t, MergedRow(rows[s], rows[t]).(conv := target));
      PartsOfGood(rows, orphans, s);
      PartsOfGood(rows, orphans, t);
      Absorb(s, t);
      DeleteMessage(t);
      rows := rows[s := rows[s].(conv := target)];
    }

    // The target message of a pair stays and takes over the source's keys.
    method KeepTarget(t: Id, s: Id)
      requires s in rows && t in rows && s != t && ObjectsGood(rows, orphans) && !Keyed(keys, s) && s !in jobs
      modifies this`rows, this`orphans, this`keys
      ensures rows == (old(rows) - {s})[t := MergedRow(old(rows)[t], old(rows)[s])] && keys == old(keys)
      ensures ObjectsGood(rows, orphans) && AllObjects(rows) + orphans == AllObjects(old(rows)) + old(orphans)
    {
      hide ObjectsGood, Keyed, ObjectsOf, AllObjects, PartsGood, MergedParts, Released;
      PairConserves(rows, orphans, t, s, MergedRow(rows[t], rows[s]));
      PairStaysGood(rows, orphans, t, s, MergedRow(rows[t], rows[s]));
      PartsOfGood(rows, orphans, s);
      PartsOfGood(rows, orphans, t);
      Absorb(t, s);
      RedirectNothing(keys, s, t);
      keys := RedirectKeys(keys, s, t);
      DeleteMessage(s);
    }

    // One message of the loop in mergeConversationTx.
    method HandleSource(s: Id, target: Id, ghost plan: Plan, ghost done: set<Id>)
      requires plan.Good() && plan.target == target && done <= plan.Sources() && s in plan.Sources() - done
      requires rows == plan.Merged(done) && keys == plan.keys && ObjectsGood(rows, orphans)
      requires forall m :: m in jobs ==> Keyed(keys, m)
      modifies this`rows, this`orphans, this`keys
      ensures rows == plan.Merged(done + {s}) && keys == plan.keys && ObjectsGood(rows, orphans)
      ensures AllObjects(rows) + orphans == AllObjects(old(rows)) + old(orphans)
    {
      hide MergedRow, ObjectsGood, Keyed, ObjectsOf, AllObjects, Plan.Good, Plan.Merged, Plan.Twin, Plan.Sources;
      plan.SourceRow(s);
      plan.Pairs(done, s);
      var m := rows[s];
      var existing := Lookup(target, m.pid);
      match existing {
        case None =>
          plan.StepMoves(done, s);
          SamePartsConserve(rows, orphans, s, m.(conv := target));
          rows := rows[s := m.(conv := target)];
        case Some(t) =>
          plan.LookupIsTwin(done, s, t);
          plan.StepMerges(done, s);
          plan.OnlyOneKeyed(s);
          if !Keyed(keys, t) && (Keyed(keys, s) || (m.direction == Outbound && rows[t].direction != Outbound)) {
            ReplaceTarget(s, t, target);
          } else {
            plan.TargetStays(s);
            KeepTarget(t, s);
          }
      }
    }

    // The batch loop of mergeConversationTx: it ends because every batch takes rows out of the source.
    method MergeMessages(target: Id, source: Id) returns (ghost plan: Plan)
      requires target != source && RowsGood(rows, keys, jobs, orphans)
      modifies this`rows, this`orphans, this`keys
      ensures plan == Plan(old(rows), old(keys), target, source) && plan.Good()
      ensures rows == plan.Merged(plan.Sources()) && keys == old(keys) && ObjectsGood(rows, orphans)
      ensures AllObjects(rows) + orphans == AllObjects(old(rows)) + old(orphans)
    {
      hide MergedRow, ObjectsGood, Keyed, ObjectsOf, AllObjects, Plan.Good, Plan.Merged, Plan.Twin, Plan.Sources;
      plan := Plan(rows, keys, target, source);
      GoodPlan(plan, jobs, orphans);
      plan.NothingDone();
      ghost var done := {};
      while true
        invariant done <= plan.Sources() && rows == plan.Merged(done) && keys == plan.keys && ObjectsGood(rows, orphans)
        invariant AllObjects(rows) + orphans == AllObjects(old(rows)) + old(orphans)
        decreases plan.Sources() - done
      {
        var batch := SelectBatch(source);
        plan.RemainingSources(done);
        if batch == [] {
          plan.NothingLeft(done, rows);
          break;
        }
        ghost var before := done;
        assert batch[0] in plan.Sources() - before;
        for k := 0 to |batch|
          invariant before <= done <= plan.Sources() && forall j :: k <= j < |batch| ==>
                    batch[j] in plan.Sources() - done
          invariant k > 0 ==> batch[0] in done
          invariant rows == plan.Merged(done) && keys == plan.keys && ObjectsGood(rows, orphans)
          invariant AllObjects(rows) + orphans == AllObjects(old(rows)) + old(orphans)
        {
          HandleSource(batch[k], target, plan, done);
          done := done + {batch[k]};
        }
      }
      assert done == plan.Sources();
    }

    // mergeConversationTx up to its last statement.
    method MoveConversation(target: Id, source: Id) returns (ghost plan: Plan)
      requires target in conversations && source in conversations && target != source
      requires RowsGood(rows, keys, jobs, orphans)
      modifies this`conversations, this`aliases, this`rows, this`keys, this`orphans
      ensures plan == Plan(old(rows), old(keys), target, source) && plan.Good() && rows == plan.Merged(plan.Sources())
      ensures keys == old(keys) && ObjectsGood(rows, orphans)
      ensures AllObjects(rows) + orphans == AllObjects(old(rows)) + old(orphans)
      ensures aliases == Redirected(old(aliases), source, target)
      ensures var profile := MergedProfile(old(conversations)[target], old(conversations)[source]);
              conversations == (old(conversations) - {source})[target := profile]
    {
      hide RowsGood, ObjectsGood, AllObjects, Plan.Good, Plan.Merged, Plan.Sources, MergedProfile, Redirected;
      conversations := conversations[target := MergedProfile(conversations[target], conversations[source])];
      plan := MergeMessages(target, source);
      aliases := Redirected(aliases, source, target);
      conversations := conversations - {source};
    }

    // mergeConversationTx
    method MergeConversation(target: Id, source: Id) returns (ghost plan: Plan, ghost last: Option<Id>)
      requires Good(Now()) && target in conversations && source in conversations && target != source
      modifies this`conversations, this`aliases, this`rows, this`keys, this`orphans, this`stale
      ensures Good(Now())
      ensures plan == Plan(old(rows), old(keys), target, source) && plan.Good() && rows == plan.Merged(plan.Sources())
      ensures keys == old(keys) && AllObjects(rows) + orphans == AllObjects(old(rows)) + old(orphans)
      ensures stale == old(stale) - {target, source}
      ensures IsLast(rows, target, last) && MergedInto(old(Now()), Now(), target, source, last)
    {
      hide RowsGood, LastsExcept, Rooted, DistinctRows, ObjectsGood, AllObjects, IsLast, Plan.Good, Plan.Merged,
           Plan.Sources,
           MergedProfile, Refreshed, Redirected, MergedInto;
      ghost var before := Now();
      plan := MoveConversation(target, source);
      plan.MergedStaysGood(plan.Sources());
      last := Refresh(target);
      stale := stale - {target, source};
      MergedIntoTarget(before, Now(), target, source, last);
      MergeKeepsGood(before, plan, last, Now());
    }

    // The candidates of ensureConversationTx in order of (created_at, id).
    method Ordered(candidates: set<Id>) returns (ordered: seq<Id>)
      requires candidates <= conversations.Keys
      ensures NoDuplicates(ordered) && forall c :: c in ordered <==> c in candidates
      ensures forall k :: 0 < k < |ordered| ==> Precedes(conversations, ordered[0], ordered[k])
    {
      ordered := [];
      var rest := candidates;
      while rest != {}
        invariant rest <= candidates && NoDuplicates(ordered)
        invariant forall c :: c in candidates <==> c in rest || c in ordered
        invariant forall c :: c in rest ==> c !in ordered
        invariant forall k :: 0 < k < |ordered| ==> Precedes(conversations, ordered[0], ordered[k])
        invariant ordered != [] ==> forall c :: c in rest ==> Precedes(conversations, ordered[0], c)
        decreases rest
      {
        var c := Oldest(rest);
        ordered := ordered + [c];
        rest := rest - {c};
      }
    }

    method Oldest(candidates: set<Id>) returns (oldest: Id)
      requires candidates <= conversations.Keys && candidates != {}
      ensures oldest in candidates && forall c :: c in candidates && c != oldest ==> Precedes(conversations, oldest, c)
    {
      oldest :| oldest in candidates;
      var rest := candidates - {oldest};
      while rest != {}
        invariant oldest in candidates && rest <= candidates && oldest !in rest
        invariant forall c :: c in candidates - rest && c != oldest ==> Precedes(conversations, oldest, c)
        decreases rest
      {
        var c :| c in rest;
        rest := rest - {c};
        if Precedes(conversations, c, oldest) {
          assert forall d :: d in candidates - rest && d != oldest && d != c ==> Precedes(conversations, oldest, d);
          oldest := c;
        }
      }
    }

    // The merge loop of ensureConversationTx.
    method MergeAll(ordered: seq<Id>)
      requires Good(Now()) && ordered != [] && NoDuplicates(ordered) && forall c :: c in ordered ==> c in conversations
      modifies this`conversations, this`aliases, this`rows, this`keys, this`orphans, this`stale
      ensures Good(Now()) && United(old(Now()), Now(), Members(ordered), ordered[0])
    {
      hide RowsGood, LastsExcept, Rooted, UnitedIndex, UnitedRows;
      ghost var before, group := Now(), {ordered[0]};
      UnitedAlone(before, ordered[0]);
      assert ordered[0] in ordered && ordered[0] in Members(ordered[..1]);
      for k := 1 to |ordered|
        invariant Good(Now()) && United(before, Now(), group, ordered[0])
        invariant group == Members(ordered[..k])
      {
        MembersBefore(ordered, k);
        MergeNext(before, group, ordered[0], ordered[k]);
        group := group + {ordered[k]};
      }
      MembersAll(ordered);
    }

    method MergeNext(ghost before: Db, ghost group: set<Id>, target: Id, source: Id)
      requires Good(Now()) && United(before, Now(), group, target) && source in before.conversations && source !in group
      modifies this`conversations, this`aliases, this`rows, this`keys, this`orphans, this`stale
      ensures Good(Now()) && United(before, Now(), group + {source}, target)
    {
      hide RowsGood, LastsExcept, Rooted, UnitedIndex, UnitedRows, AllObjects, Plan.Good, Plan.Merged, Plan.Sources;
      UnitedHas(before, Now(), group, target, source);
      ghost var middle := Now();
      ghost var plan, last := MergeConversation(target, source);
      UnitedStep(before, middle, Now(), group, plan, last);
    }

    // uuid.NewString: some ID that is not in use.
    method NewId(used: set<Id>) returns (id: Id)
      ensures id !in used
    {
      id := 0;
      var rest := used;
      while rest != {}
        invariant forall u :: u in used ==> u in rest || u < id
        decreases rest
      {
        var u :| u in rest;
        rest := rest - {u};
        if id <= u {
          id := u + 1;
        }
      }
    }

    // The conversations that the linked JIDs lead to.
    method Candidates(jids: seq<Jid>) returns (candidates: set<Id>)
      requires Good(Now())
      ensures candidates == Led(aliases, (set j | j in jids)) && candidates <= conversations.Keys
    {
      hide RowsGood, LastsExcept;
      candidates := {};
      for k := 0 to |jids|
        invariant candidates == Led(aliases, (set j | j in jids[..k]))
      {
        assert jids[..k + 1] == jids[..k] + [jids[k]];
        if jids[k] in aliases {
          candidates := candidates + {aliases[jids[k]]};
        }
      }
      assert jids[..|jids|] == jids;
    }

    // INSERT INTO conversations; UNIQUE(account_id, provider_chat_id) is the precondition.
    method InsertConversation(chat: Jid, createdAt: int) returns (id: Id)
      requires forall c :: c in conversations ==> conversations[c].home != chat
      modifies this`conversations
      ensures id !in old(conversations)
      ensures conversations == old(conversations)[id := Conversation(chat, false, "", "", createdAt, createdAt, None)]
    {
      id := NewId(conversations.Keys);
      conversations := conversations[id := Conversation(chat, false, "", "", createdAt, createdAt, None)];
    }

    // The last loop of ensureConversationTx.
    method MapAliases(jids: seq<Jid>, conv: Id)
      modifies this`aliases
      ensures aliases == Mapped(old(aliases), (set j | j in jids), conv)
    {
      for k := 0 to |jids|
        invariant aliases == Mapped(old(aliases), (set j | j in jids[..k]), conv)
      {
        assert jids[..k + 1] == jids[..k] + [jids[k]];
        aliases := aliases[jids[k] := conv];
      }
      assert jids[..|jids|] == jids;
    }

    // ensureConversationTx when no name leads anywhere.
    method CreateConversation(chat: Jid, jids: seq<Jid>, ghost names: set<Jid>, createdAt: int) returns (conv: Id)
      requires Good(Now()) && chat in names && Led(aliases, names) == {} && names == set j | j in jids
      modifies this`conversations, this`aliases
      ensures Good(Now()) && Ensured(old(Now()), Now(), chat, names, conv)
      ensures conv in conversations && conversations[conv].created == createdAt
    {
      hide RowsGood, LastsExcept, Rooted, Led, UnitedRows, EnsuredIndex;
      ghost var before := Now();
      NoHome(before, names, chat);
      conv := InsertConversation(chat, createdAt);
      MapAliases(jids, conv);
      CreatedGood(before, Now(), names, chat, conv);
    }

    // ensureConversationTx when the names lead to one conversation or more.
    method UniteConversations(chat: Jid, jids: seq<Jid>, candidates: set<Id>, ghost names: set<Jid>) returns (conv: Id)
      requires Good(Now()) && names == (set j | j in jids) && candidates == Led(aliases, names) && candidates != {}
      requires candidates <= conversations.Keys
      modifies this`conversations, this`aliases, this`rows, this`keys, this`orphans, this`stale
      ensures Good(Now()) && Ensured(old(Now()), Now(), chat, names, conv)
      ensures conv in candidates
      ensures forall c :: c in candidates && c != conv ==>
                var first, other := old(conversations)[conv], old(conversations)[c];
                first.created < other.created || (first.created == other.created && conv < c)
    {
      hide RowsGood, LastsExcept, Rooted, Led, UnitedIndex, UnitedRows, EnsuredIndex, Members;
      ghost var before := Now();
      var ordered := Ordered(candidates);
      OrderedFirst(conversations, ordered, candidates);
      conv := ordered[0];
      MergeAll(ordered);
      ghost var middle := Now();
      MapAliases(jids, conv);
      UnitedGood(before, middle, Now(), names, chat, conv);
    }

    // ensureConversationTx
    method EnsureConversation(chat: Jid, others: seq<Jid>, createdAt: int) returns (r: Result<Id>, created: bool)
      requires Good(Now()) && WellFormed(people.links)
      requires AgreesOutside(people.links, aliases, Linked(people.links, [chat] + others))
      modifies this`conversations, this`aliases, this`rows, this`keys, this`orphans, this`stale
      ensures chat == "" <==> r.Err?
      ensures r.Err? ==> Now() == old(Now())
      ensures r.Ok? ==> Good(Now()) && Agrees(people.links, aliases)
      ensures r.Ok? ==> Ensured(old(Now()), Now(), chat, Linked(people.links, [chat] + others), r.value)
      ensures r.Ok? ==> (created <==> Led(old(aliases), Linked(people.links, [chat] + others)) == {})
      ensures created ==> r.Ok? && r.value in conversations && conversations[r.value].created == createdAt
    {
      hide RowsGood, LastsExcept, Rooted, Linked, Component, Reaches, IsPath, WellFormed, Closed, AgreesOutside, Led,
           EnsuredIndex, UnitedRows;
      if chat == "" {
        return Err(Invalid), false;
      }
      ghost var before, names := Now(), Linked(people.links, [chat] + others);
      LinkedClosed(people.links, [chat] + others);
      assert chat in [chat] + others;
      var jids := LinkedJids(people.links, [chat] + others);
      assert names == set j | j in jids;
      var candidates := Candidates(jids);
      created := candidates == {};
      var conv;
      if created {
        conv := CreateConversation(chat, jids, names, createdAt);
      } else {
        conv := UniteConversations(chat, jids, candidates, names);
      }
      EnsuredAgrees(people.links, before, Now(), chat, names, conv);
      r := Ok(conv);
    }

    ghost predicate Valid()
      reads this, people
    {
      Good(Now()) && people.Valid() && Agrees(people.links, aliases)
    }

    // addChatLinkTx: whatever a link joins is one conversation afterwards, or still none.
    method AddChatLink(first: Jid, second: Jid, now: int)
      requires Valid() && first != SELF && second != SELF
      modifies this`conversations, this`aliases, this`rows, this`keys, this`orphans, this`stale
      modifies people`links, people`reactions, people`receipts
      ensures Valid() && people.links == old(people.links) + LinkRows(first, second)
      ensures keys == old(keys) && AllObjects(rows) + orphans == AllObjects(old(rows)) + old(orphans)
      ensures ChatsLinked(old(Now()), Now(), people.links, first, second)
    {
      hide RowsGood, LastsExcept, Rooted, Agrees, AgreesOutside, EnsuredIndex, Linked, AllObjects, Consistent,
           UnitedRows;
      if first == "" || second == "" || first == second {
        return;
      }
      ghost var before := people.links;
      people.AddLink(first, second);
      LinksWellFormed(people.Now(), people.reactions, people.receipts);
      if first !in aliases && second !in aliases {
        AgreesUnmapped(before, aliases, first, second);
        return;
      }
      AgreesJoined(before, aliases, first, second);
      var conv, _ := EnsureConversation(first, [second], now);
      ghost var names, ensured := Linked(people.links, [first] + [second]), Now();
      EnsuredHas(old(Now()), ensured, first, names, conv.value);
      RefreshGood(conv.value);
      LinkedClosed(people.links, [first] + [second]);
      assert first in [first] + [second];
      EnsuredRefreshed(old(Now()), ensured, Now(), first, names, conv.value);
    }

    // SELECT ... WHERE provider_message_id = ? AND direction = 'outbound' LIMIT 1
    method FindOutbound(pid: string) returns (found: Option<Id>)
      ensures found.Some? ==>
                found.value in rows && rows[found.value].pid == pid && rows[found.value].direction == Outbound
      ensures found.None? ==> forall i :: i in rows && rows[i].direction == Outbound ==> rows[i].pid != pid
    {
      if i :| i in rows && rows[i].pid == pid && rows[i].direction == Outbound {
        found := Some(i);
      } else {
        found := None;
      }
    }

    // saveMessageTx when an outbound message is repeated; its conversation is not refreshed here.
    method SaveEcho(e: Id, m: MessageIn)
      requires Good(Now()) && e in rows && rows[e].direction == Outbound && rows[e].pid == m.pid && Unstored(m)
      modifies this`rows, this`jobs, this`stale
      ensures Good(Now()) && Echoes(old(rows), rows, e, m) && jobs == old(jobs) - {e}
      ensures stale == old(stale) + {old(rows)[e].conv}
      ensures rows[e].conv == old(rows)[e].conv && rows[e].pid == old(rows)[e].pid && rows[e].conv in conversations
    {
      hide RowsGood, LastsExcept, Rooted, EchoedRow, Unstored;
      ghost var row := EchoedRow(rows[e], m);
      EchoKeeps(rows[e], m, orphans, rows, keys, jobs, e);
      ReplaceKeeps(Now(), e, row, stale);
      FewerJobs(rows[e := row], keys, jobs, orphans, e);
      AnchoredSame(Now().(rows := rows[e := row]), jobs - {e}, keys);
      RowIsAnchored(Now(), e);
      rows := rows[e := EchoedRow(rows[e], m)];
      jobs := jobs - {e};
      stale := stale + {row.conv};
    }

    // The upsert of saveMessageTx into a conversation; the conversation is not refreshed here.
    method SaveInto(conv: Id, m: MessageIn) returns (id: Id)
      requires Good(Now()) && conv in conversations && Unstored(m) && !Repeated(rows, m)
      modifies this`rows, this`stale
      ensures Good(Now()) && id in rows && rows[id].conv == conv && rows[id].pid == m.pid
      ensures stale == old(stale) + {conv}
      ensures Inserts(old(rows), rows, id, conv, m)
    {
      hide RowsGood, LastsExcept, Rooted, ConflictRow, Unstored;
      var existing := Lookup(conv, m.pid);
      match existing {
        case Some(e) =>
          EchoKeeps(rows[e], m, orphans, rows, keys, jobs, e);
          ReplaceKeeps(Now(), e, ConflictRow(rows[e], m), stale);
          rows := rows[e := ConflictRow(rows[e], m)];
          id := e;
        case None =>
          id := NewId(rows.Keys);
          var local := NextLocal();
          InsertKeeps(Now(), id, NewRow(conv, local, m), m, stale);
          rows := rows[id := NewRow(conv, local, m)];
      }
      stale := stale + {conv};
    }

    // The rowid that SQLite gives the next row.
    method NextLocal() returns (local: nat)
      ensures local >= 1 && forall i :: i in rows ==> rows[i].local < local
    {
      local := 1;
      var rest := rows.Keys;
      while rest != {}
        invariant local >= 1 && rest <= rows.Keys && forall i :: i in rows ==> i in rest || rows[i].local < local
        decreases rest
      {
        var i :| i in rest;
        rest := rest - {i};
        if local <= rows[i].local {
          local := rows[i].local + 1;
        }
      }
    }

    // SaveMessage of a message that repeats an outbound one.
    method SaveRepeat(e: Id, m: MessageIn)
      requires Valid() && Unstored(m) && e in rows && rows[e].direction == Outbound && rows[e].pid == m.pid
      modifies this`conversations, this`rows, this`jobs, this`stale
      ensures Valid() && jobs == old(jobs) - {e} && Echoes(old(rows), rows, e, m)
      ensures stale == old(stale) - {old(rows)[e].conv}
      ensures AllObjects(rows) == AllObjects(old(rows))
      ensures OnlyRefreshed(old(conversations), conversations, rows, old(rows)[e].conv)
      ensures e in rows && rows[e].conv == old(rows)[e].conv
    {
      hide RowsGood, LastsExcept, Rooted, ConflictRow, EchoedRow, Agrees, AllObjects, Consistent;
      EchoConserves(rows, orphans, keys, jobs, e, m);
      SaveEcho(e, m);
      RefreshGood(rows[e].conv);
    }

    // SaveMessage of any other message; ensured is the database once its conversation was found or made.
    method SaveNew(m: MessageIn, ingestedAt: int) returns (id: Id, ghost ensured: Db)
      requires Valid() && Unstored(m) && m.chat != "" && !Repeated(rows, m)
      modifies this`conversations, this`aliases, this`rows, this`keys, this`orphans, this`stale
      ensures Valid() && keys == old(keys) && AllObjects(rows) + orphans == AllObjects(old(rows)) + old(orphans)
      ensures m.chat in aliases
      ensures Ensured(old(Now()), ensured, m.chat, Linked(people.links, [m.chat] + []), aliases[m.chat])
      ensures aliases == ensured.aliases && jobs == ensured.jobs && Inserts(ensured.rows, rows, id, aliases[m.chat], m)
      ensures stale == ensured.stale - {aliases[m.chat]}
      ensures OnlyRefreshed(ensured.conversations, conversations, rows, aliases[m.chat])
      ensures stale <= old(stale) && id in rows && rows[id].conv == aliases[m.chat]
    {
      hide RowsGood, LastsExcept, Rooted, ConflictRow, NewRow, Agrees, AgreesOutside, EnsuredIndex, AllObjects, Linked,
           UnitedRows, Consistent;
      AllAgree(people.links, aliases, Linked(people.links, [m.chat] + []));
      LinksWellFormed(people.Now(), people.reactions, people.receipts);
      var conv, _ := EnsureConversation(m.chat, [], ingestedAt);
      EnsuredHas(old(Now()), Now(), m.chat, Linked(people.links, [m.chat] + []), conv.value);
      ensured := Now();
      EnsuredRepeats(old(Now()), ensured, m.chat, Linked(people.links, [m.chat] + []), conv.value, m);
      LinkedClosed(people.links, [m.chat] + []);
      assert m.chat in [m.chat] + [];
      EnsuredLeads(old(Now()), ensured, m.chat, Linked(people.links, [m.chat] + []), conv.value, m.chat);
      id := SaveInto(conv.value, m);
      IntoConserves(ensured.rows, rows, orphans, keys, jobs, id, conv.value, m);
      RefreshGood(conv.value);
    }

    // SaveMessage
    method SaveMessage(m: MessageIn, ingestedAt: int) returns (id: Result<Id>, ghost ensured: Db)
      requires Valid() && Unstored(m)
      modifies this`conversations, this`aliases, this`rows, this`keys, this`orphans, this`jobs, this`stale
      ensures Valid() && (id.Err? <==> m.chat == "" || m.pid == "" || !m.sound) && stale <= old(stale)
      ensures id.Err? ==> Now() == old(Now())
      ensures id.Ok? && Repeated(old(rows), m) ==>
              jobs == old(jobs) - {id.value} && aliases == old(aliases) && Echoes(old(rows), rows, id.value, m)
      ensures id.Ok? && !Repeated(old(rows), m) ==>
                && m.chat in aliases && Ensured(old(Now()), ensured, m.chat, Linked(people.links, [m.chat] + []),
                                                aliases[m.chat])
                && aliases == ensured.aliases && jobs == ensured.jobs &&
                   Inserts(ensured.rows, rows, id.value, aliases[m.chat], m)
      ensures id.Ok? ==> keys == old(keys) && AllObjects(rows) + orphans == AllObjects(old(rows)) + old(orphans)
      ensures id.Ok? ==> id.value in rows && rows[id.value].conv in conversations && rows[id.value].conv !in stale
    {
      hide RowsGood, LastsExcept, Rooted, Echoes, Inserts, Agrees, EnsuredIndex, AllObjects, Linked, Consistent;
      ensured := Now();
      if m.chat == "" || m.pid == "" || !m.sound {
        return Err(Invalid), ensured;
      }
      if m.direction == Outbound {
        var existing := FindOutbound(m.pid);
        if existing.Some? {
          SavedEcho(rows, existing.value, m);
          SaveRepeat(existing.value, m);
          RowIsAnchored(Now(), existing.value);
          return Ok(existing.value), ensured;
        }
      }
      var saved;
      saved, ensured := SaveNew(m, ingestedAt);
      RowIsAnchored(Now(), saved);
      id := Ok(saved);
    }

    // ReserveSend and, with the object of a ready upload, ReserveMediaSend. The provider message ID was
    // generated for this send.
    method ReserveSend(m: MessageIn, conv: Id, k: KeyId, hash: string,
                       upload: Option<Object>) returns (r: Result<(Id, bool)>)
      requires Valid() && m.direction == Outbound && m.state == Queued && m.parts == map[] && m.order == None
      requires forall i :: i in rows ==> rows[i].pid != m.pid
      requires upload.Some? ==> upload.value !in AllObjects(rows) + orphans
      modifies this`conversations, this`rows, this`keys, this`jobs, this`stale
      ensures Valid() && conversations.Keys == old(conversations).Keys
      ensures r.Err? ==> Now() == old(Now())
      ensures k in old(keys) && r.Ok? ==>
                Now() == old(Now()) && old(keys)[k].hash == hash && r.value == (old(keys)[k].message, false)
      ensures r.Err? <==> || m.chat == "" || m.pid == "" || !m.sound || k.actor == "" || k.key == "" || hash == ""
                          || if k in old(keys) then old(keys)[k].hash != hash else conv !in old(conversations)
      ensures k !in old(keys) && r.Ok? ==>
                && r.value.1 && r.value.0 !in old(rows) && keys == old(keys)[k := SendKey(hash, r.value.0)]
                && stale == old(stale) - {conv} && OnlyRefreshed(old(conversations), conversations, rows, conv)
                && (exists local :: rows == old(rows)[r.value.0 := ReservedRow(conv, local, m, upload)])
                && ReservedColumns(conv, m, upload, rows[r.value.0])
                && jobs == old(jobs) + (if upload.Some? then {r.value.0} else {})
                && AllObjects(rows) == AllObjects(old(rows)) + (if upload.Some? then {upload.value} else {})
    {
      hide RowsGood, LastsExcept, Rooted, Agrees, AllObjects, Consistent, ReservedRow, ReservedColumns;
      if m.chat == "" || m.pid == "" || !m.sound || k.actor == "" || k.key == "" || hash == "" {
        return Err(Invalid);
      }
      if k in keys {
        if keys[k].hash != hash {
          return Err(Idempotency);
        }
        return Ok((keys[k].message, false));
      }
      if conv !in conversations {
        return Err(Conflict);
      }
      var id := NewId(rows.Keys + jobs);
      var local := NextLocal();
      var row := ReservedRow(conv, local, m, upload);
      ReservedHas(conv, local, m, upload);
      ReserveKeeps(Now(), id, local, conv, m, k, hash, upload);
      rows := rows[id := row];
      if upload.Some? {
        jobs := jobs + {id};
      }
      keys := keys[k := SendKey(hash, id)];
      stale := stale + {conv};
      assert RowsGood(rows, keys, jobs, orphans);
      RefreshGood(conv);
      r := Ok((id, true));
    }

    // CompleteSend and CompleteMediaSend: the first writes over a queued message only, the second also
    // over one that an echo already marked sent, which stays sent.
    method CompleteSend(id: Id, state: State, sender: string, at: Option<int>, media: bool) returns (r: Result<()>)
      requires Valid()
      modifies this`conversations, this`rows, this`jobs, this`stale
      ensures Valid() && (r.Ok? <==> state in {Sent, Failed, OutcomeUnknown} && id in old(rows))
      ensures r.Err? ==> Now() == old(Now())
      ensures r.Ok? ==> rows == old(rows)[id := CompletedRow(old(rows)[id], state, sender, at, media)]
      ensures r.Ok? ==>
                var row, row' := old(rows)[id], rows[id];
                && (row.state == Queued ==> row'.state == state)
                && (row.state != Queued ==> row'.state == row.state)
                && (row.state == Queued || (media && row.state == Sent) ==>
                      && row'.sender == (if sender != "" then sender else row.sender)
                      && row'.at == (if at.Some? then at.value else row.at)
                      && row' == row.(state := row'.state, sender := row'.sender, at := row'.at))
                && (row.state != Queued && !(media && row.state == Sent) ==> row' == row)
      ensures r.Ok? ==> jobs == if media then old(jobs) - {id} else old(jobs)
      ensures r.Ok? ==> stale == old(stale) - {old(rows)[id].conv}
      ensures r.Ok? ==> OnlyRefreshed(old(conversations), conversations, rows, old(rows)[id].conv)
    {
      hide RowsGood, LastsExcept, Rooted, Agrees, CompletedRow, Consistent;
      if state !in {Sent, Failed, OutcomeUnknown} {
        return Err(Invalid);
      }
      if id !in rows {
        return Err(NotFound);
      }
      ghost var row := rows[id];
      CompletedIsSame(rows, keys, jobs, orphans, id, state, sender, at, media);
      ReplaceKeeps(Now(), id, CompletedRow(rows[id], state, sender, at, media), stale);
      RowIsAnchored(Now(), id);
      FewerJobs(rows[id := CompletedRow(rows[id], state, sender, at, media)], keys, jobs, orphans, id);
      AnchoredSame(Now().(rows := rows[id := CompletedRow(rows[id], state, sender, at, media)]), jobs - {id}, keys);
      rows := rows[id := CompletedRow(rows[id], state, sender, at, media)];
      if media {
        jobs := jobs - {id};
      }
      stale := stale + {rows[id].conv};
      RefreshGood(rows[id].conv);
      CompletedColumns(row, state, sender, at, media);
      r := Ok(());
    }

    // FailMediaSendsForAccount; sending are the jobs in that phase. The provider may have got their messages.
    method FailMediaSends(sending: set<Id>)
      requires Valid()
      modifies this`rows, this`jobs
      ensures Valid() && jobs == {} && rows == Failing(old(rows), old(jobs), sending)
    {
      hide RowsGood, LastsExcept, Rooted, Agrees, Consistent;
      JobsAreOutbound(rows, keys, jobs, orphans);
      ghost var before := Now();
      rows := map i | i in rows :: if rows[i].state == Queued && i in jobs
                                   then rows[i].(state := if i in sending then OutcomeUnknown else State.Failed)
                                   else rows[i];
      jobs := jobs - rows.Keys;
      RestatedKeeps(before, rows, jobs);
    }

    // The first two statements of recoverSends; the third one changes the phases of the jobs that stay.
    method RecoverSends(sending: set<Id>)
      requires Valid()
      modifies this`rows, this`jobs
      ensures Valid() && rows == Recovering(old(rows), old(jobs), sending)
      ensures jobs == set j | j in old(jobs) && j !in sending && j in rows && rows[j].state == Queued
    {
      hide RowsGood, LastsExcept, Rooted, Agrees, Consistent;
      JobsAreOutbound(rows, keys, jobs, orphans);
      ghost var before := Now();
      rows := map i | i in rows :: if rows[i].state == Queued && (i !in jobs || i in sending)
                                   then rows[i].(state := OutcomeUnknown) else rows[i];
      jobs := set j | j in jobs && !(j in sending || (j in rows && rows[j].state != Queued));
      RestatedKeeps(before, rows, jobs);
    }

    // saveMessageTx for one message of ImportHistory. An outbound message that repeats a row of another conversation
    // changes that row, but only conv is refreshed afterwards.
    method ImportMessage(conv: Id, m: MessageIn)
      requires Good(Now()) && conv in conversations && Unstored(m)
      modifies this`rows, this`jobs, this`stale
      ensures Good(Now()) && Imports(old(rows), rows, conv, m) && AllObjects(rows) == AllObjects(old(rows))
      ensures !Repeated(old(rows), m) ==> jobs == old(jobs)
      ensures Repeated(old(rows), m) ==>
                exists e :: e in old(rows) && IsOutbound(old(rows)[e], m.pid) && jobs == old(jobs) - {e}
    {
      hide RowsGood, LastsExcept, Rooted, EchoedRow, ConflictRow, NewRow, Unstored, AllObjects;
      var existing := None;
      if m.direction == Outbound {
        existing := FindOutbound(m.pid);
      }
      if existing.Some? {
        SavedEcho(rows, existing.value, m);
        EchoConserves(rows, orphans, keys, jobs, existing.value, m);
        SaveEcho(existing.value, m);
      } else {
        ghost var before := rows;
        var id := SaveInto(conv, m);
        IntoConserves(before, rows, orphans, keys, jobs, id, conv, m);
      }
    }

    // The message loop of ImportHistory.
    method ImportMessages(conv: Id, messages: seq<MessageIn>) returns (ghost trace: seq<Messages>)
      requires Good(Now()) && conv in conversations && forall m :: m in messages ==> Unstored(m)
      modifies this`rows, this`jobs, this`stale
      ensures Good(Now()) && Traced(trace, conv, messages) && trace[0] == old(rows) && trace[|messages|] == rows
      ensures AllObjects(rows) == AllObjects(old(rows)) && jobs == Unechoed(old(jobs), old(rows), messages)
    {
      hide RowsGood, LastsExcept, Rooted, Unstored, AllObjects, OutboundUnique, Unechoed, Imports, Fixed;
      RowsAreUnique(rows, keys, jobs, orphans);
      JobsAreOutbound(rows, keys, jobs, orphans);
      UnechoedNone(jobs, rows);
      FixedSame(rows);
      trace := [rows];
      for k := 0 to |messages|
        invariant Good(Now()) && conv in conversations && AllObjects(rows) == AllObjects(old(rows))
        invariant |trace| == k + 1 && trace[0] == old(rows) && trace[k] == rows
        invariant forall j :: 0 <= j <= k ==> OutboundUnique(trace[j])
        invariant forall j :: 0 <= j < k ==> Imports(trace[j], trace[j + 1], conv, messages[j])
        invariant Fixed(old(rows), rows) && jobs == Unechoed(old(jobs), old(rows), messages[..k])
      {
        ghost var before := rows;
        assert messages[k] in messages && messages[..k + 1] == messages[..k] + [messages[k]];
        UnechoedMore(old(jobs), old(rows), rows, messages[..k], messages[k]);
        ImportMessage(conv, messages[k]);
        RowsAreUnique(rows, keys, jobs, orphans);
        ImportsFix(before, rows, conv, messages[k]);
        FixedOn(old(rows), before, rows);
        trace := trace + [rows];
      }
      assert messages[..|messages|] == messages;
    }

    // The new home of a conversation is one of its own JIDs, so UNIQUE(account_id, provider_chat_id) holds.
    method SetProfile(conv: Id, preferred: Jid, group: Option<bool>, name: string, description: string)
      requires Good(Now()) && conv in conversations
      requires (preferred != "" ==> preferred in aliases && aliases[preferred] == conv)
      modifies this`conversations
      ensures Good(Now())
      ensures var profile := Profiled(old(conversations)[conv], preferred, group, name, description);
              conversations == old(conversations)[conv := profile]
    {
      hide RowsGood, LastsExcept, Rooted;
      var edited := conversations[conv];
      HomeLeadsBack(Now(), conv);
      if preferred != "" {
        HomeIsUnique(Now(), preferred, conv);
        edited := edited.(home := preferred);
      }
      edited := edited.(group := if group.Some? then group.value else edited.group,
                        name := if name != "" then name else edited.name,
                        description := if description != "" then description else edited.description);
      EditKeeps(Now(), Now().(conversations := conversations[conv := edited]), conv, edited, stale);
      conversations := conversations[conv := edited];
    }

    // The chat of ImportHistory, after its links were stored. Afterwards stale names exactly the conversations
    // whose cached last message is wrong: those, other than the imported one, where the batch's echoes put
    // another message last.
    method ImportChat(chat: Chat, messages: seq<MessageIn>, now: int)
      returns (conv: Id, ghost ensured: Db, ghost trace: seq<Messages>)
      requires Valid() && chat.id != "" && forall m :: m in messages ==> Unstored(m)
      modifies this`conversations, this`aliases, this`rows, this`keys, this`orphans, this`jobs, this`stale
      ensures Valid() && conv in conversations && keys == old(keys)
      ensures AllObjects(rows) + orphans == AllObjects(old(rows)) + old(orphans)
      ensures Ensured(old(Now()), ensured, chat.id, Linked(people.links, [chat.id] + (chat.aliases + [chat.preferred])),
                      conv)
      ensures conv in ensured.conversations &&
              var c := Profiled(ensured.conversations[conv], chat.preferred, chat.group, chat.name, chat.description);
              OnlyRefreshed(ensured.conversations[conv := c], conversations, rows, conv)
      ensures var c, c' := ensured.conversations[conv], conversations[conv];
              && c'.home == (if chat.preferred != "" then chat.preferred else c.home)
              && c'.group == (if chat.group.Some? then chat.group.value else c.group)
              && c'.name == (if chat.name != "" then chat.name else c.name)
              && c'.description == (if chat.description != "" then chat.description else c.description)
              && (c'.last.None? && chat.lastActivity.Some? ==> c'.updated == chat.lastActivity.value)
      ensures Traced(trace, conv, messages) && trace[0] == ensured.rows && trace[|messages|] == rows
      ensures aliases == ensured.aliases && jobs == Unechoed(ensured.jobs, ensured.rows, messages)
      ensures forall c :: c in conversations ==> (c in stale <==> !IsLast(rows, c, conversations[c].last))
      ensures forall c :: c in conversations && c != conv ==>
              c in old(conversations) && conversations[c] == old(conversations)[c]
      ensures forall c :: c in conversations && c != conv ==>
              (c in stale <==> !LandsLast(old(rows), messages, c, conversations[c].last))
      ensures conv !in stale
    {
      hide RowsGood, LastsExcept, Rooted, Agrees, AgreesOutside, EnsuredIndex, AllObjects, Linked, Consistent, Unstored,
           Imports, IsLast,
           UnitedRows, Traced, LandsLast;
      ghost var names := Linked(people.links, [chat.id] + (chat.aliases + [chat.preferred]));
      AllAgree(people.links, aliases, names);
      LinksWellFormed(people.Now(), people.reactions, people.receipts);
      var found, _ := EnsureConversation(chat.id, chat.aliases + [chat.preferred], now);
      conv := found.value;
      ensured := Now();
      EnsuredHas(old(Now()), ensured, chat.id, names, conv);
      EnsuredNames(old(Now()), ensured, people.links, chat.id, chat.aliases + [chat.preferred], conv, chat.preferred);
      SetProfile(conv, chat.preferred, chat.group, chat.name, chat.description);
      ghost var edited := conversations[conv];
      trace := ImportMessages(conv, messages);
      FinishChat(conv, chat.lastActivity);
      assert conversations[conv] == edited.(updated := conversations[conv].updated, last := conversations[conv].last);
      NarrowStale();
      ImportedElsewhere(old(Now()), ensured, Now(), chat.id, names, conv, trace, messages);
    }

    // A ghost step: stale names no conversation that is right after all.
    ghost method NarrowStale()
      requires Good(Now())
      modifies this`stale
      ensures Good(Now()) && stale <= old(stale)
      ensures forall c :: c in conversations ==> (c in stale <==> !IsLast(rows, c, conversations[c].last))
    {
      hide RowsGood, Rooted;
      stale := set c | c in stale && c in conversations && !IsLast(rows, c, conversations[c].last);
    }

    // The refresh of ImportHistory, and the time of the last activity for a chat without messages.
    method FinishChat(conv: Id, lastActivity: Option<int>)
      requires Good(Now()) && conv in conversations
      modifies this`conversations, this`stale
      ensures Good(Now()) && stale == old(stale) - {conv}
      ensures OnlyRefreshed(old(conversations), conversations, rows, conv)
      ensures conversations[conv].last.None? && lastActivity.Some? ==> conversations[conv].updated == lastActivity.value
    {
      hide RowsGood, LastsExcept, Rooted, IsLast;
      RefreshGood(conv);
      if lastActivity.Some? && conversations[conv].last.None? {
        var edited := conversations[conv].(updated := lastActivity.value);
        HomeLeadsBack(Now(), conv);
        EditKeeps(Now(), Now().(conversations := conversations[conv := edited]), conv, edited, stale);
        conversations := conversations[conv := edited];
      }
    }

    // refreshConversationTx as a step between good databases.
    method RefreshGood(conv: Id)
      requires Good(Now()) && conv in conversations
      modifies this`conversations, this`stale
      ensures Good(Now()) && stale == old(stale) - {conv}
      ensures OnlyRefreshed(old(conversations), conversations, rows, conv)
    {
      hide Rooted, LastsExcept, DistinctRows, KeysGood, ObjectsGood;
      ghost var before := Now();
      ghost var last := Refresh(conv);
      RefreshedLasts(before.conversations, rows, stale, conv, last);
      RefreshedTime(before.conversations, rows, stale, conv, last);
      RefreshedAnchored(before, Now(), conv, last);
      stale := stale - {conv};
    }
  }
}
