// mergeConversationTx, row by row: what the message table must be once a set of source rows was handled.
module MergePlan {
  import opened MergeRows
  import opened Schema
  import opened Wrappers

  // The tables as the merge finds them, and the two conversations.
  datatype Plan = Plan(rows: Messages, keys: Keys, target: Id, source: Id) {

    ghost predicate Good() {
      target != source && DistinctRows(rows) && KeysGood(rows, keys)
    }

    ghost predicate IsRow(conv: Id, pid: string, i: Id) {
      i in rows && rows[i].conv == conv && rows[i].pid == pid
    }

    ghost function Find(conv: Id, pid: string): (r: Option<Id>)
      ensures r.Some? ==> IsRow(conv, pid, r.value)
      ensures r.None? ==> forall i :: !IsRow(conv, pid, i)
    {
      if i :| IsRow(conv, pid, i) then Some(i) else None
    }

    // The duplicate of a row of one conversation in the other.
    ghost function Twin(i: Id): Option<Id>
      requires i in rows
    {
      if rows[i].conv == source then Find(target, rows[i].pid)
      else if rows[i].conv == target then Find(source, rows[i].pid)
      else None
    }

    // The branch condition: the source row replaces the target row.
    ghost predicate SourceWins(t: Id, s: Id)
      requires t in rows && s in rows
    {
      !Keyed(keys, t) && (Keyed(keys, s) || (rows[s].direction == Outbound && rows[t].direction != Outbound))
    }

    ghost predicate Handled(done: set<Id>, i: Id)
      requires i in rows
    {
      i in done || (rows[i].conv == target && Twin(i).Some? && Twin(i).value in done)
    }

    ghost predicate Loses(i: Id)
      requires i in rows
    {
      Twin(i).Some? && if rows[i].conv == source then !SourceWins(Twin(i).value, i) else SourceWins(i, Twin(i).value)
    }

    ghost function After(done: set<Id>, i: Id): Message
      requires i in rows
    {
      if !Handled(done, i) then rows[i]
      else if Twin(i).None? then rows[i].(conv := target)
      else MergedRow(rows[i], rows[Twin(i).value]).(conv := target)
    }

    // The message table after the source rows in done were handled.
    ghost function Merged(done: set<Id>): Messages {
      map i | i in rows && !(Handled(done, i) && Loses(i)) :: After(done, i)
    }

    ghost function Sources(): set<Id> {
      set i | i in rows && rows[i].conv == source
    }

    lemma TwinMutual(i: Id)
      requires Good() && i in rows && Twin(i).Some?
      ensures Twin(Twin(i).value) == Some(i) && Twin(i).value != i
      ensures rows[Twin(i).value].pid == rows[i].pid
      ensures rows[Twin(i).value].conv == if rows[i].conv == source then target else source
    {
      var j := Twin(i).value;
      assert IsRow(rows[i].conv, rows[i].pid, i);
      assert Twin(j).Some? && IsRow(rows[i].conv, rows[i].pid, Twin(j).value);
    }

    lemma TwinOf(i: Id, j: Id)
      requires Good() && i in rows && j in rows && rows[i].pid == rows[j].pid
      requires {rows[i].conv, rows[j].conv} == {source, target}
      ensures Twin(i) == Some(j)
    {
      assert IsRow(rows[j].conv, rows[i].pid, j);
    }

    lemma SourceRow(s: Id)
      requires s in Sources()
      ensures s in rows && rows[s].conv == source
    {
    }

    lemma NothingDone()
      requires Good()
      ensures Merged({}) == rows
    {
    }

    // A source row without a duplicate moves.
    lemma StepMoves(done: set<Id>, s: Id)
      requires Good() && done <= Sources() && s in Sources() - done && Twin(s).None?
      ensures s in Merged(done) && Merged(done)[s] == rows[s]
      ensures Merged(done + {s}) == Merged(done)[s := rows[s].(conv := target)]
    {
      forall i | i in rows && i != s
        ensures Handled(done + {s}, i) == Handled(done, i)
      {
        if Twin(i).Some? {
          TwinMutual(i);
        }
      }
    }

    // A source row with a duplicate is merged with it; one of the two rows goes.
    lemma StepMerges(done: set<Id>, s: Id)
      requires Good() && done <= Sources() && s in Sources() - done && Twin(s).Some?
      ensures var t := Twin(s).value;
              t in Merged(done) && s in Merged(done) && Merged(done)[s] == rows[s] && Merged(done)[t] == rows[t]
      ensures var t := Twin(s).value;
              Merged(done + {s}) ==
              if SourceWins(t, s) then (Merged(done) - {t})[s := MergedRow(rows[s], rows[t]).(conv := target)]
              else (Merged(done) - {s})[t := MergedRow(rows[t], rows[s]).(conv := target)]
    {
      hide MergedRow, Find, Keyed;
      var t := Twin(s).value;
      TwinMutual(s);
      TwinMutual(t);
      forall i | i in rows && i != s && i != t
        ensures Handled(done + {s}, i) == Handled(done, i)
      {
        if Twin(i).Some? {
          TwinMutual(i);
        }
      }
    }

    // Looking the duplicate up in the half-merged table finds the twin.
    lemma LookupIsTwin(done: set<Id>, s: Id, i: Id)
      requires Good() && done <= Sources() && s in Sources() - done
      requires i in Merged(done) && Merged(done)[i].conv == target && Merged(done)[i].pid == rows[s].pid
      ensures Twin(s) == Some(i)
    {
      if Twin(i).Some? {
        TwinMutual(i);
      }
      TwinOf(s, i);
    }

    lemma TwinIsFound(done: set<Id>, s: Id)
      requires Good() && done <= Sources() && s in Sources() - done && Twin(s).Some?
      ensures var t := Twin(s).value;
              t in Merged(done) && Merged(done)[t].conv == target && Merged(done)[t].pid == rows[s].pid
    {
      StepMerges(done, s);
      TwinMutual(s);
    }

    lemma RemainingSources(done: set<Id>)
      requires Good() && done <= Sources()
      ensures forall i :: i in Merged(done) && Merged(done)[i].conv == source <==> i in Sources() - done
    {
      forall i
        ensures i in Merged(done) && Merged(done)[i].conv == source <==> i in Sources() - done
      {
        RemainingSource(done, i);
      }
    }

    lemma NothingLeft(done: set<Id>, messages: Messages)
      requires Good() && done <= Sources() && messages == Merged(done) && forall i :: i in messages ==>
               messages[i].conv != source
      ensures done == Sources()
    {
      RemainingSources(done);
      assert Sources() - done == {};
      assert Sources() == Sources() - done + done;
    }

    lemma RemainingSource(done: set<Id>, i: Id)
      requires Good() && done <= Sources()
      ensures i in Merged(done) && Merged(done)[i].conv == source <==> i in Sources() - done
    {
      if i in rows && Twin(i).Some? {
        TwinMutual(i);
      }
    }

    // A key never has to be redirected: its message always survives under its own ID.
    lemma KeyedSurvives(done: set<Id>, i: Id)
      requires Good() && i in rows && Keyed(keys, i)
      ensures i in Merged(done)
    {
      if Twin(i).Some? {
        TwinMutual(i);
        var j := Twin(i).value;
        assert rows[i].direction == Outbound;
        assert !Keyed(keys, j);
      }
    }

    lemma AfterKeepsIdentity(done: set<Id>, i: Id)
      requires i in rows
      ensures var m := After(done, i);
              m.pid == rows[i].pid && m.direction == rows[i].direction && m.state == rows[i].state &&
              m.local == rows[i].local
    {
    }

    lemma MergedStaysGood(done: set<Id>)
      requires Good() && done <= Sources()
      ensures DistinctRows(Merged(done)) && KeysGood(Merged(done), keys)
    {
      hide Handled, Loses, Twin, MergedRow, After;
      forall i | i in Merged(done)
        ensures i in rows && Merged(done)[i] == After(done, i)
        ensures Merged(done)[i].pid == rows[i].pid && Merged(done)[i].direction == rows[i].direction
        ensures Merged(done)[i].local == rows[i].local
      {
        AfterKeepsIdentity(done, i);
      }
      forall i, j | i in Merged(done) && j in Merged(done) && Merged(done)[i].conv == Merged(done)[j].conv &&
          Merged(done)[i].pid == Merged(done)[j].pid
        ensures i == j
      {
        SamePlace(done, i, j);
      }
      forall k | k in keys
        ensures keys[k].message in Merged(done) && Merged(done)[keys[k].message].direction == Outbound
      {
        assert Keyed(keys, keys[k].message);
        KeyedSurvives(done, keys[k].message);
      }
    }

    lemma SamePlace(done: set<Id>, i: Id, j: Id)
      requires Good() && done <= Sources() && i in Merged(done) && j in Merged(done)
      requires Merged(done)[i].conv == Merged(done)[j].conv && Merged(done)[i].pid == Merged(done)[j].pid
      ensures i == j
    {
      if Twin(i).Some? {
        TwinMutual(i);
      }
      if Twin(j).Some? {
        TwinMutual(j);
      }
      if rows[i].conv != rows[j].conv {
        TwinOf(i, j);
        assert false;
      }
    }

    // What the branch on a duplicate knows about keys.
    lemma OnlyOneKeyed(s: Id)
      requires Good() && s in Sources() && Twin(s).Some?
      ensures Keyed(keys, s) ==> !Keyed(keys, Twin(s).value)
      ensures SourceWins(Twin(s).value, s) || !Keyed(keys, s)
    {
      TwinMutual(s);
    }

    lemma TargetStays(s: Id)
      requires Good() && s in Sources() && Twin(s).Some?
      ensures var t := Twin(s).value;
              MergedRow(rows[t], rows[s]).(conv := target) == MergedRow(rows[t], rows[s]) && t != s
    {
      TwinMutual(s);
    }

    // The row lookup in the target answers with the twin or not at all.
    lemma Pairs(done: set<Id>, s: Id)
      requires Good() && done <= Sources() && s in Sources() - done
      ensures s in Merged(done) && Merged(done)[s] == rows[s]
      ensures Twin(s).Some? <==>
                exists t :: t in Merged(done) && Merged(done)[t].conv == target && Merged(done)[t].pid == rows[s].pid
    {
      if Twin(s).Some? {
        TwinIsFound(done, s);
        StepMerges(done, s);
      } else {
        StepMoves(done, s);
        forall t | t in Merged(done) && Merged(done)[t].conv == target && Merged(done)[t].pid == rows[s].pid
          ensures false
        {
          LookupIsTwin(done, s, t);
        }
      }
    }

    // Afterwards the target holds exactly the provider messages that either conversation held.
    lemma MergeIsUnion(pid: string)
      requires Good()
      ensures HasPid(Merged(Sources()), target, pid) <==> HasPid(rows, target, pid) || HasPid(rows, source, pid)
      ensures !HasPid(Merged(Sources()), source, pid)
    {
      var final := Merged(Sources());
      forall i | i in rows && rows[i].pid == pid && rows[i].conv in {source, target}
        ensures exists w :: w in final && final[w].conv == target && final[w].pid == pid
      {
        if Twin(i).Some? {
          TwinMutual(i);
          Survivor(if rows[i].conv == source then Twin(i).value else i,
                   if rows[i].conv == source then i else Twin(i).value);
        } else {
          assert i in final && final[i].conv == target;
        }
      }
      forall i | i in final
        ensures final[i].conv != source
      {
        RemainingSource(Sources(), i);
      }
    }

    ghost predicate AreTwins(t: Id, s: Id) {
      t in rows && s in rows && rows[t].conv == target && rows[s].conv == source && rows[t].pid == rows[s].pid
    }

    // Of two duplicates exactly one survives: the row of the target, unless only that of the source is outbound. It
    // keeps its own text, sender, state and time, was read when the first was read, has the other's provider order and
    // reply where it has none, and carries the send key if either did.
    lemma Survivor(t: Id, s: Id)
      requires Good() && AreTwins(t, s)
      ensures s in Merged(Sources()) <==> rows[s].direction == Outbound
      ensures t in Merged(Sources()) <==> rows[s].direction != Outbound
      ensures var final := Merged(Sources());
              var w := if rows[s].direction == Outbound then s else t;
              var l := if w == s then t else s;
              && w in final && final[w].conv == target
              && final[w] == rows[w].(conv := target, readAt := final[w].readAt, order := final[w].order,
                                      reply := final[w].reply, parts := final[w].parts)
              && final[w].readAt in {rows[t].readAt, rows[s].readAt}
              && (rows[t].readAt.Some? ==> final[w].readAt.Some? && final[w].readAt.value <= rows[t].readAt.value)
              && (rows[s].readAt.Some? ==> final[w].readAt.Some? && final[w].readAt.value <= rows[s].readAt.value)
              && final[w].order == (if rows[w].order.Some? then rows[w].order else rows[l].order)
              && final[w].reply == (if rows[w].reply.Some? then rows[w].reply else rows[l].reply)
              && (Keyed(keys, t) || Keyed(keys, s) <==> Keyed(keys, w))
    {
      TwinOf(t, s);
      TwinOf(s, t);
      assert !(Keyed(keys, t) && Keyed(keys, s));
      assert forall m :: m in rows && Keyed(keys, m) ==> rows[m].direction == Outbound;
    }

    // An attachment of the survivor: its own object, or else the other's.
    lemma SurvivingPart(t: Id, s: Id, p: nat)
      requires Good() && AreTwins(t, s) && PartsGood(rows[t].parts) && PartsGood(rows[s].parts)
      ensures var final := Merged(Sources());
              var w := if rows[s].direction == Outbound then s else t;
              var l := if w == s then t else s;
              && w in final
              && (p in final[w].parts <==> p in rows[w].parts || p in rows[l].parts)
              && (p in final[w].parts ==> MergedColumns(rows[w].parts, rows[l].parts, p, final[w].parts[p]))
    {
      hide PartsGood, MergedParts;
      Survivor(t, s);
      TwinOf(t, s);
      TwinOf(s, t);
      var w, l := if rows[s].direction == Outbound then s else t, if rows[s].direction == Outbound then t else s;
      MergedPartsKeys(rows[w].parts, rows[l].parts);
      if p in rows[w].parts || p in rows[l].parts {
        MergedPartColumns(rows[w].parts, rows[l].parts, p);
      }
    }

    // No outbound message is ever dropped: a duplicate of it is inbound, without a key, and gives way.
    lemma OutboundSurvives(done: set<Id>, i: Id)
      requires Good() && done <= Sources() && i in rows && rows[i].direction == Outbound
      ensures i in Merged(done)
    {
      if Twin(i).Some? {
        TwinMutual(i);
        assert rows[Twin(i).value].direction != Outbound;
      }
    }

    // Nothing else changes.
    lemma OthersUntouched(done: set<Id>, i: Id)
      requires Good() && done <= Sources() && i in rows && rows[i].conv != source && rows[i].conv != target
      ensures i in Merged(done) && Merged(done)[i] == rows[i]
    {
    }

    lemma StaysOrMoves(done: set<Id>, i: Id)
      requires Good() && done <= Sources() && i in Merged(done)
      ensures i in rows && Merged(done)[i].conv in {rows[i].conv, target}
    {
    }

    lemma NoneElseArrives(done: set<Id>, i: Id)
      requires Good() && done <= Sources() && i in Merged(done)
      ensures i in rows && (Merged(done)[i].conv in {source, target} <==> rows[i].conv in {source, target})
    {
    }
  }

  lemma ReleasedWereSource(target: map<nat, Part>, source: map<nat, Part>)
    ensures Released(target, source) <= ObjectsOf(source)
  {
  }

  // One merge of two rows: no object gets a second owner and none owned is released ...
  lemma PairStaysGood(messages: Messages, orphans: set<Object>, w: Id, l: Id, kept: Message)
    requires ObjectsGood(messages, orphans) && w in messages && l in messages && w != l
    requires kept.parts == MergedParts(messages[w].parts, messages[l].parts)
    ensures ObjectsGood((messages - {l})[w := kept], orphans + Released(messages[w].parts, messages[l].parts))
  {
    hide PartsGood, Released, MergedParts, ObjectsOf;
    MergedPartsConserve(messages[w].parts, messages[l].parts);
    ReleasedWereSource(messages[w].parts, messages[l].parts);
    assert ObjectsOf(kept.parts) <= ObjectsOf(messages[w].parts) + ObjectsOf(messages[l].parts);
  }

  // ... and none is lost.
  lemma PairConserves(messages: Messages, orphans: set<Object>, w: Id, l: Id, kept: Message)
    requires ObjectsGood(messages, orphans) && w in messages && l in messages && w != l
    requires kept.parts == MergedParts(messages[w].parts, messages[l].parts)
    ensures AllObjects((messages - {l})[w := kept]) + orphans + Released(messages[w].parts, messages[l].parts) ==
            AllObjects(messages) + orphans
  {
    var after := (messages - {l})[w := kept];
    MergedPartsConserve(messages[w].parts, messages[l].parts);
    AllObjectsSplit(messages, w);
    AllObjectsSplit(messages - {w}, l);
    AllObjectsSplit(after, w);
    assert after - {w} == messages - {w} - {l};
  }

  lemma AllObjectsSplit(messages: Messages, i: Id)
    requires i in messages
    ensures AllObjects(messages) == AllObjects(messages - {i}) + ObjectsOf(messages[i].parts)
  {
    hide ObjectsOf;
    forall x | x in AllObjects(messages)
      ensures x in AllObjects(messages - {i}) || x in ObjectsOf(messages[i].parts)
    {
      var j :| j in messages && x in ObjectsOf(messages[j].parts);
      if j != i {
        assert j in messages - {i} && (messages - {i})[j] == messages[j];
      }
    }
    forall x | x in AllObjects(messages - {i})
      ensures x in AllObjects(messages)
    {
      var j :| j in messages - {i} && x in ObjectsOf((messages - {i})[j].parts);
      assert (messages - {i})[j] == messages[j];
    }
  }
}
