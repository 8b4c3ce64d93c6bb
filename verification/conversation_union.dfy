// Merging conversations, and mapping JIDs to them, keeps the tables good and unites what was there.
module ConversationUnion {
  import opened ConversationState
  import opened Links
  import opened MergePlan
  import opened MergeRows
  import opened Schema
  import opened Wrappers

  lemma OrderedFirst(conversations: map<Id, Conversation>, ordered: seq<Id>, candidates: set<Id>)
    requires candidates <= conversations.Keys && candidates != {} && forall c :: c in ordered <==> c in candidates
    requires forall k :: 0 < k < |ordered| ==> Precedes(conversations, ordered[0], ordered[k])
    ensures ordered != [] && Members(ordered) == candidates
    ensures forall c :: c in candidates && c != ordered[0] ==> Precedes(conversations, ordered[0], c)
  {
    var c :| c in candidates;
    assert c in ordered;
  }

  lemma MembersBefore(ids: seq<Id>, k: nat)
    requires k < |ids| && NoDuplicates(ids)
    ensures ids[k] !in Members(ids[..k]) && Members(ids[..k + 1]) == Members(ids[..k]) + {ids[k]}
  {
    assert ids[..k + 1] == ids[..k] + [ids[k]];
  }

  lemma MembersAll(ids: seq<Id>)
    ensures Members(ids[..|ids|]) == Members(ids)
  {
    assert ids[..|ids|] == ids;
  }

  lemma UnitedAlone(db: Db, target: Id)
    requires target in db.conversations
    ensures United(db, db, {target}, target)
  {
  }

  lemma UnitedHas(before: Db, after: Db, group: set<Id>, target: Id, c: Id)
    requires United(before, after, group, target) && c in before.conversations && c !in group
    ensures target in group && target in after.conversations && c in after.conversations && c != target
  {
  }

  // One more conversation joins.
  lemma UnitedStep(before: Db, middle: Db, after: Db, group: set<Id>, plan: Plan, last: Option<Id>)
    requires United(before, middle, group, plan.target) && plan.source in before.conversations && plan.source !in group
    requires plan == Plan(middle.rows, middle.keys, plan.target, plan.source) && plan.Good()
    requires after.rows == plan.Merged(plan.Sources())
    requires MergedInto(middle, after, plan.target, plan.source, last) && after.keys == middle.keys
    requires after.jobs == middle.jobs
    requires after.stale == middle.stale - {plan.target, plan.source}
    requires AllObjects(after.rows) + after.orphans == AllObjects(middle.rows) + middle.orphans
    ensures United(before, after, group + {plan.source}, plan.target)
  {
    hide Plan.Good, Plan.Merged, Plan.Sources, UnitedRows, UnitedIndex, MergedInto;
    RowsStep(before, middle, after, group, plan);
    IndexStep(before, middle, after, group, plan.target, plan.source, last);
  }

  lemma RowsStep(before: Db, middle: Db, after: Db, group: set<Id>, plan: Plan)
    requires United(before, middle, group, plan.target) && plan.source in before.conversations && plan.source !in group
    requires plan == Plan(middle.rows, middle.keys, plan.target, plan.source) && plan.Good()
    requires after.rows == plan.Merged(plan.Sources()) && after.keys == middle.keys && after.jobs == middle.jobs
    requires after.stale == middle.stale - {plan.target, plan.source}
    requires AllObjects(after.rows) + after.orphans == AllObjects(middle.rows) + middle.orphans
    ensures UnitedRows(before, after, group + {plan.source}, plan.target)
  {
    hide Plan.Good, Plan.Merged, Plan.Sources, HasPid, AllObjects, UnitedIndex, UnitedProfile;
    UnitedHas(before, middle, group, plan.target, plan.source);
    forall pid
      ensures HasPid(after.rows, plan.target, pid) <==>
              exists c :: c in group + {plan.source} && HasPid(before.rows, c, pid)
    {
      UnionStep(before, middle, after, group, plan, pid);
    }
    SendsStep(before, middle, after, group, plan);
    UntouchedStep(before, middle, after, group, plan);
  }

  lemma IndexStep(before: Db, middle: Db, after: Db, group: set<Id>, target: Id, source: Id, last: Option<Id>)
    requires UnitedIndex(before, middle, group, target) && source in before.conversations && source !in group
    requires MergedInto(middle, after, target, source, last)
    ensures UnitedIndex(before, after, group + {source}, target)
  {
    hide UnitedProfile;
    assert UnitedProfile(before.conversations, after.conversations[target], group + {source}, target) by {
      ProfileStep(before.conversations, middle.conversations[target], group, target, source);
      ProfileIs(before.conversations, MergedProfile(middle.conversations[target], before.conversations[source]),
                after.conversations[target], group + {source}, target);
    }
  }

  lemma ProfileStep(before: map<Id, Conversation>, middle: Conversation, group: set<Id>, target: Id, source: Id)
    requires UnitedProfile(before, middle, group, target) && source in before
    ensures UnitedProfile(before, MergedProfile(middle, before[source]), group + {source}, target)
  {
  }

  lemma ProfileIs(before: map<Id, Conversation>, a: Conversation, b: Conversation, group: set<Id>, target: Id)
    requires UnitedProfile(before, a, group, target)
    requires b.group == a.group && b.name == a.name && b.description == a.description
    ensures UnitedProfile(before, b, group, target)
  {
  }

  lemma UnionStep(before: Db, middle: Db, after: Db, group: set<Id>, plan: Plan, pid: string)
    requires United(before, middle, group, plan.target) && plan.source in before.conversations && plan.source !in group
    requires plan == Plan(middle.rows, middle.keys, plan.target, plan.source) && plan.Good()
    requires after.rows == plan.Merged(plan.Sources())
    ensures HasPid(after.rows, plan.target, pid) <==>
            exists c :: c in group + {plan.source} && HasPid(before.rows, c, pid)
  {
    hide Plan.Good, Plan.Merged, Plan.Sources;
    plan.MergeIsUnion(pid);
    assert HasPid(middle.rows, plan.source, pid) <==> HasPid(before.rows, plan.source, pid);
  }

  lemma SendsStep(before: Db, middle: Db, after: Db, group: set<Id>, plan: Plan)
    requires UnitedRows(before, middle, group, plan.target)
    requires plan == Plan(middle.rows, middle.keys, plan.target, plan.source) && plan.Good()
    requires after.rows == plan.Merged(plan.Sources())
    ensures forall i :: i in after.rows ==> i in before.rows && SameSend(before.rows[i], after.rows[i])
    ensures forall i :: i in before.rows && before.rows[i].direction == Outbound ==> i in after.rows
  {
    hide Plan.Good, Plan.Sources, HasPid, AllObjects;
    forall i | i in after.rows
      ensures i in before.rows && SameSend(before.rows[i], after.rows[i])
    {
      plan.AfterKeepsIdentity(plan.Sources(), i);
    }
    forall i | i in before.rows && before.rows[i].direction == Outbound
      ensures i in after.rows
    {
      plan.OutboundSurvives(plan.Sources(), i);
    }
  }

  lemma UntouchedStep(before: Db, middle: Db, after: Db, group: set<Id>, plan: Plan)
    requires United(before, middle, group, plan.target) && plan.source in before.conversations && plan.source !in group
    requires plan == Plan(middle.rows, middle.keys, plan.target, plan.source) && plan.Good()
    requires after.rows == plan.Merged(plan.Sources())
    ensures forall i :: i in before.rows && before.rows[i].conv !in group + {plan.source} ==>
            i in after.rows && after.rows[i] == before.rows[i]
    ensures forall i :: i in after.rows && after.rows[i].conv != plan.target ==>
            i in before.rows && before.rows[i].conv !in group + {plan.source}
  {
    hide Plan.Good, Plan.Merged, Plan.Sources, HasPid;
    forall i | i in before.rows && before.rows[i].conv !in group + {plan.source}
      ensures i in after.rows && after.rows[i] == before.rows[i]
    {
      assert i in middle.rows;
      plan.OthersUntouched(plan.Sources(), i);
    }
    forall i | i in after.rows && after.rows[i].conv != plan.target
      ensures i in before.rows && before.rows[i].conv !in group + {plan.source}
    {
      plan.NoneElseArrives(plan.Sources(), i);
      plan.RemainingSource(plan.Sources(), i);
      plan.StaysOrMoves(plan.Sources(), i);
    }
  }

  lemma MergedIntoTarget(before: Db, after: Db, target: Id, source: Id, last: Option<Id>)
    requires target in before.conversations && source in before.conversations && target != source
    requires (last.Some? ==> last.value in after.rows) && after.aliases == Redirected(before.aliases, source, target)
    requires var profile := MergedProfile(before.conversations[target], before.conversations[source]);
             var kept := (before.conversations - {source})[target := profile];
             after.conversations == kept[target := Refreshed(profile, after.rows, last)]
    ensures MergedInto(before, after, target, source, last)
  {
  }

  lemma GoodPlan(plan: Plan, jobs: set<Id>, orphans: set<Object>)
    requires RowsGood(plan.rows, plan.keys, jobs, orphans) && plan.target != plan.source
    ensures plan.Good()
  {
  }

  // What mergeConversationTx leaves is a good database again.
  lemma MergeKeepsGood(before: Db, plan: Plan, last: Option<Id>, after: Db)
    requires Good(before) && plan == Plan(before.rows, before.keys, plan.target, plan.source) && plan.Good()
    requires after.rows == plan.Merged(plan.Sources()) && after.keys == before.keys && after.jobs == before.jobs
    requires after.stale == before.stale - {plan.target, plan.source} && ObjectsGood(after.rows, after.orphans)
    requires IsLast(after.rows, plan.target, last) && MergedInto(before, after, plan.target, plan.source, last)
    ensures Good(after)
  {
    hide ObjectsGood, KeysGood, DistinctRows, Keyed, Plan.Merged, Plan.Sources, Rooted, IsLast, MergedInto;
    plan.MergedStaysGood(plan.Sources());
    MergeKeepsAnchored(before, plan, last, after);
    MergeKeepsLast(before, plan, last, after);
  }

  lemma MergeKeepsLast(before: Db, plan: Plan, last: Option<Id>, after: Db)
    requires Good(before) && plan == Plan(before.rows, before.keys, plan.target, plan.source) && plan.Good()
    requires after.rows == plan.Merged(plan.Sources())
    requires IsLast(after.rows, plan.target, last) && MergedInto(before, after, plan.target, plan.source, last)
    ensures LastsExcept(after.conversations, after.rows, before.stale - {plan.target, plan.source})
  {
    hide Plan.Good, Plan.Merged, Plan.Sources, IsLast, HasRows;
    var stale := before.stale - {plan.target, plan.source};
    forall c | c in after.conversations
      ensures if c in stale then HasRows(after.rows, c) else IsLast(after.rows, c, after.conversations[c].last)
    {
      if c == plan.target {
        LastOfTarget(before, plan, last, after);
      } else if c in before.stale {
        RowsElsewhere(plan, c);
      } else {
        LastElsewhere(plan, c, before.conversations[c].last);
      }
    }
  }

  lemma LastOfTarget(before: Db, plan: Plan, last: Option<Id>, after: Db)
    requires Good(before) && plan == Plan(before.rows, before.keys, plan.target, plan.source) && plan.Good()
    requires after.rows == plan.Merged(plan.Sources())
    requires IsLast(after.rows, plan.target, last) && MergedInto(before, after, plan.target, plan.source, last)
    ensures IsLast(after.rows, plan.target, after.conversations[plan.target].last)
  {
    hide Plan.Good, Plan.Merged, Plan.Sources;
    if last.None? {
      NoRowsBefore(plan);
    }
  }

  lemma RowsElsewhere(plan: Plan, c: Id)
    requires plan.Good() && c != plan.target && c != plan.source && HasRows(plan.rows, c)
    ensures HasRows(plan.Merged(plan.Sources()), c)
  {
    hide Plan.Merged, Plan.Sources;
    var i :| i in plan.rows && plan.rows[i].conv == c;
    plan.OthersUntouched(plan.Sources(), i);
  }

  lemma MergeKeepsAnchored(before: Db, plan: Plan, last: Option<Id>, after: Db)
    requires Anchored(before) && plan == Plan(before.rows, before.keys, plan.target, plan.source) && plan.Good()
    requires after.rows == plan.Merged(plan.Sources()) && MergedInto(before, after, plan.target, plan.source, last)
    ensures Anchored(after)
  {
    hide Plan.Good, Plan.Merged, Plan.Sources;
    forall m | m in after.rows
      ensures after.rows[m].conv in after.conversations
    {
      plan.RemainingSource(plan.Sources(), m);
      plan.StaysOrMoves(plan.Sources(), m);
    }
  }

  lemma LastElsewhere(plan: Plan, c: Id, last: Option<Id>)
    requires plan.Good() && c != plan.target && c != plan.source && IsLast(plan.rows, c, last)
    ensures IsLast(plan.Merged(plan.Sources()), c, last)
  {
    hide MergedRow, Plan.Merged, Plan.Sources;
    var final := plan.Merged(plan.Sources());
    forall i | i in final && final[i].conv == c
      ensures i in plan.rows && final[i] == plan.rows[i]
    {
      plan.NoneElseArrives(plan.Sources(), i);
      plan.OthersUntouched(plan.Sources(), i);
    }
    if last.Some? {
      plan.OthersUntouched(plan.Sources(), last.value);
    }
  }

  lemma NoRowsBefore(plan: Plan)
    requires plan.Good() && IsLast(plan.Merged(plan.Sources()), plan.target, None)
    ensures forall i :: i in plan.rows ==> plan.rows[i].conv != plan.target
  {
    forall i | i in plan.rows && plan.rows[i].conv == plan.target
      ensures false
    {
      plan.MergeIsUnion(plan.rows[i].pid);
      assert HasPid(plan.rows, plan.target, plan.rows[i].pid);
    }
  }

  lemma WithPartsSame(rows: Messages, m: Id)
    requires m in rows
    ensures WithParts(rows, m, rows[m].parts) == rows
  {
  }

  lemma WithPartsTwice(rows: Messages, m: Id, parts: map<nat, Part>, parts': map<nat, Part>)
    requires m in rows
    ensures var once := WithParts(rows, m, parts);
            m in once && once[m].parts == parts && WithParts(once, m, parts') == WithParts(rows, m, parts')
  {
  }

  lemma WithPartsElsewhere(rows: Messages, m: Id, parts: map<nat, Part>, n: Id)
    requires m in rows && n in rows && n != m
    ensures var once := WithParts(rows, m, parts);
            n in once && once[n] == rows[n] && WithParts(once, n, map[]) == once[n := rows[n].(parts := map[])]
  {
  }

  lemma SamePartsConserve(rows: Messages, orphans: set<Object>, m: Id, row: Message)
    requires ObjectsGood(rows, orphans) && m in rows && row.parts == rows[m].parts
    ensures ObjectsGood(rows[m := row], orphans) && AllObjects(rows[m := row]) == AllObjects(rows)
  {
    hide ObjectsOf;
    AllObjectsSplit(rows, m);
    AllObjectsSplit(rows[m := row], m);
    assert rows[m := row] - {m} == rows - {m};
  }

  lemma PartsOfGood(rows: Messages, orphans: set<Object>, m: Id)
    requires ObjectsGood(rows, orphans) && m in rows
    ensures PartsGood(rows[m].parts)
  {
  }

  lemma RedirectNothing(keys: Keys, from: Id, to: Id)
    requires !Keyed(keys, from)
    ensures RedirectKeys(keys, from, to) == keys
  {
  }

  lemma OnlyNone(target: map<nat, Part>, source: map<nat, Part>)
    ensures MergedParts(target, Only(source, source.Keys - source.Keys)) == target
    ensures Released(target, Only(source, source.Keys - source.Keys)) == {}
  {
  }

  lemma OnlyAll(source: map<nat, Part>)
    ensures Only(source, source.Keys) == source
  {
  }

  lemma OnlyMerges(target: map<nat, Part>, source: map<nat, Part>, some: set<nat>, p: nat)
    requires p in source && p !in some
    ensures var merged := MergedParts(target, Only(source, some));
            && Stored(merged, p) == Stored(target, p)
            && MergedParts(target, Only(source, some + {p})) == merged[p := MergedPart(Stored(target, p), source[p])]
  {
    hide MergedPart;
    var merged, merged' := MergedParts(target, Only(source, some)), MergedParts(target, Only(source, some + {p}));
    assert merged'.Keys == merged.Keys + {p};
  }

  lemma OnlyReleases(target: map<nat, Part>, source: map<nat, Part>, some: set<nat>, p: nat)
    requires p in source && p !in some
    ensures Released(target, Only(source, some + {p})) ==
            Released(target, Only(source, some)) + ReleasedPart(Stored(target, p), source[p])
  {
    var one := ReleasedPart(Stored(target, p), source[p]);
    forall x | x in Released(target, Only(source, some + {p}))
      ensures x in Released(target, Only(source, some)) + one
    {
    }
    forall x | x in Released(target, Only(source, some))
      ensures x in Released(target, Only(source, some + {p}))
    {
      var q :| q in Only(source, some) && q in target && source[q].blob == Some(x) && target[q].blob.Some? &&
          source[q].blob != target[q].blob;
      assert q in Only(source, some + {p});
    }
    if one != {} {
      assert p in Only(source, some + {p});
    }
  }

  // Were chat the home of a conversation, it would lead there.
  lemma NoHome(db: Db, names: set<Jid>, chat: Jid)
    requires Anchored(db) && chat in names && Led(db.aliases, names) == {}
    ensures forall c :: c in db.conversations ==> db.conversations[c].home != chat
  {
    NothingLed(db.aliases, names);
  }

  lemma LedBy(aliases: Aliases, names: set<Jid>, j: Jid)
    requires j in names && j in aliases
    ensures aliases[j] in Led(aliases, names)
  {
  }

  lemma NothingLed(aliases: Aliases, names: set<Jid>)
    requires Led(aliases, names) == {}
    ensures forall j :: j in names ==> j !in aliases
  {
    assert forall j :: j in names && j in aliases ==> aliases[j] in Led(aliases, names);
  }

  lemma CreatedGood(before: Db, after: Db, names: set<Jid>, chat: Jid, conv: Id)
    requires Good(before) && Led(before.aliases, names) == {} && conv !in before.conversations && chat in names
    requires exists at ::
               after.conversations == before.conversations[conv := Conversation(chat, false, "", "", at, at, None)]
    requires after == before.(conversations := after.conversations, aliases := Mapped(before.aliases, names, conv))
    ensures Good(after) && Ensured(before, after, chat, names, conv)
  {
    hide RowsGood, LastsExcept, Rooted, UnitedRows, Led, EnsuredIndex, Mapped;
    var at :| after.conversations == before.conversations[conv := Conversation(chat, false, "", "", at, at, None)];
    CreatedIndex(before, after, names, chat, conv);
    CreatedAnchored(before, after, names, chat, conv);
    CreatedRows(before, after, conv);
    assert Led(before.aliases, names) + {conv} == {conv};
  }

  lemma CreatedIndex(before: Db, after: Db, names: set<Jid>, chat: Jid, conv: Id)
    requires Led(before.aliases, names) == {} && conv !in before.conversations && chat in names
    requires exists at ::
               after.conversations == before.conversations[conv := Conversation(chat, false, "", "", at, at, None)]
    requires after.aliases == Mapped(before.aliases, names, conv)
    ensures EnsuredIndex(before, after, chat, names, conv)
  {
    NothingLed(before.aliases, names);
  }

  lemma CreatedRows(before: Db, after: Db, conv: Id)
    requires Anchored(before) && LastsExcept(before.conversations, before.rows, before.stale)
    requires conv !in before.conversations
    requires exists c: Conversation :: c.last == None && after.conversations == before.conversations[conv := c]
    requires after == before.(conversations := after.conversations, aliases := after.aliases)
    ensures LastsExcept(after.conversations, after.rows, after.stale) && UnitedRows(before, after, {conv}, conv)
  {
    hide AllObjects, Newer, LastsExcept;
    assert forall i :: i in before.rows ==> before.rows[i].conv != conv;
    assert forall pid :: !HasPid(before.rows, conv, pid);
    CreatedLasts(before, after, conv);
  }

  lemma CreatedLasts(before: Db, after: Db, conv: Id)
    requires LastsExcept(before.conversations, before.rows, before.stale) && conv !in before.conversations
    requires forall i :: i in before.rows ==> before.rows[i].conv != conv
    requires exists c: Conversation :: c.last == None && after.conversations == before.conversations[conv := c]
    requires after.rows == before.rows && after.stale == before.stale
    ensures LastsExcept(after.conversations, after.rows, after.stale)
  {
    hide Newer;
  }

  lemma CreatedAnchored(before: Db, after: Db, names: set<Jid>, chat: Jid, conv: Id)
    requires Anchored(before) && Led(before.aliases, names) == {} && conv !in before.conversations && chat in names
    requires exists c: Conversation :: c.home == chat && after.conversations == before.conversations[conv := c]
    requires after.rows == before.rows && after.aliases == Mapped(before.aliases, names, conv)
    ensures Anchored(after)
  {
    NothingLed(before.aliases, names);
  }

  lemma UnitedGood(before: Db, middle: Db, after: Db, names: set<Jid>, chat: Jid, conv: Id)
    requires Good(middle) && United(before, middle, Led(before.aliases, names), conv)
    requires after == middle.(aliases := Mapped(middle.aliases, names, conv))
    ensures Good(after) && Ensured(before, after, chat, names, conv)
  {
    hide RowsGood, LastsExcept, Rooted, UnitedIndex, UnitedRows, EnsuredIndex, Led, Mapped;
    UnitedAnchored(before, middle, after, names, conv);
    UnitedRowsCopy(before, middle, after, Led(before.aliases, names), conv);
    UnitedEnsures(before, middle, after, names, chat, conv);
    assert Led(before.aliases, names) + {conv} == Led(before.aliases, names);
  }

  lemma UnitedEnsures(before: Db, middle: Db, after: Db, names: set<Jid>, chat: Jid, conv: Id)
    requires UnitedIndex(before, middle, Led(before.aliases, names), conv)
    requires after == middle.(aliases := Mapped(middle.aliases, names, conv))
    ensures EnsuredIndex(before, after, chat, names, conv) && conv in Led(before.aliases, names)
  {
    hide Led;
  }

  lemma UnitedRowsCopy(before: Db, middle: Db, after: Db, group: set<Id>, conv: Id)
    requires UnitedRows(before, middle, group, conv) && after == middle.(aliases := after.aliases)
    ensures UnitedRows(before, after, group, conv)
  {
  }

  lemma UnitedAnchored(before: Db, middle: Db, after: Db, names: set<Jid>, conv: Id)
    requires Anchored(middle) && UnitedIndex(before, middle, Led(before.aliases, names), conv)
    requires after == middle.(aliases := Mapped(middle.aliases, names, conv))
    ensures Anchored(after)
  {
    hide Led;
    forall j | j in names && j in middle.aliases
      ensures middle.aliases[j] == conv
    {
      LedBy(before.aliases, names, j);
    }
    assert conv in middle.conversations;
  }

  // Afterwards every link agrees.
  lemma EnsuredAgrees(links: set<LinkRow>, before: Db, after: Db, chat: Jid, names: set<Jid>, conv: Id)
    requires WellFormed(links) && Closed(links, names) && AgreesOutside(links, before.aliases, names)
    requires EnsuredIndex(before, after, chat, names, conv)
    ensures Agrees(links, after.aliases)
  {
    hide UnitedRows, Led;
    forall r | r in links
      ensures Agree(after.aliases, r.0, r.1)
    {
      assert (r.1, r.0) in links;
    }
  }
}
