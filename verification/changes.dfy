// message_changes.go in both internal/store/sqlite and internal/app: the edits and deletions of messages. Every
// received change is kept under the chat JID it came with; what is shown is decided when a message is read.
module Changes {
  import opened Links
  import opened TextOrder
  import opened Wrappers

  datatype Kind = Edit | Revoke

  // The UNIQUE columns of message_changes. Times are in milliseconds.
  datatype Key = Key(chat: Jid, target: string, kind: Kind, at: int, event: string)

  datatype Change = Change(key: Key, text: string)

  type Table = map<Key, string>

  // INSERT ... ON CONFLICT DO NOTHING
  function Saved(t: Table, c: Change): Table {
    if c.key in t then t else t[c.key := c.text]
  }

  function SavedAll(t: Table, changes: seq<Change>): Table {
    if changes == [] then t else Saved(SavedAll(t, changes[..|changes| - 1]), changes[|changes| - 1])
  }

  function Replayed(changes: seq<Change>): Table {
    SavedAll(map[], changes)
  }

  lemma {:induction false} SavedInParts(t: Table, a: seq<Change>, b: seq<Change>)
    ensures SavedAll(SavedAll(t, a), b) == SavedAll(t, a + b)
  {
    if b == [] {
      assert a + b == a;
    } else {
      var less, last := b[..|b| - 1], b[|b| - 1];
      SavedInParts(t, a, less);
      assert a + b == a + less + [last];
    }
  }

  // What is stored of a change is never replaced, whatever else is reported under its key.
  lemma {:induction false} FirstTextStays(t: Table, changes: seq<Change>, k: Key)
    ensures k in t ==> k in SavedAll(t, changes) && SavedAll(t, changes)[k] == t[k]
    ensures k !in t ==> (k in SavedAll(t, changes) <==> exists i :: 0 <= i < |changes| && changes[i].key == k)
    ensures k !in t ==> forall i ::
              0 <= i < |changes| && changes[i].key == k && (forall j :: 0 <= j < i ==> changes[j].key != k) ==>
                SavedAll(t, changes)[k] == changes[i].text
  {
    if changes != [] {
      var less, last := changes[..|changes| - 1], changes[|changes| - 1];
      FirstTextStays(t, less, k);
      assert forall i :: 0 <= i < |less| ==> less[i] == changes[i];
      if last.key == k {
        assert changes[|less|].key == k;
      } else if k !in t && k in SavedAll(t, less) {
        var i :| 0 <= i < |less| && less[i].key == k;
        assert changes[i].key == k;
      }
    }
  }

  // An event has one text, whichever alias of the chat it is reported under.
  predicate SameEvent(a: Key, b: Key) {
    a.target == b.target && a.kind == b.kind && a.at == b.at && a.event == b.event
  }

  ghost predicate Agreeing(changes: seq<Change>) {
    forall i, j :: 0 <= i < |changes| && 0 <= j < |changes| && SameEvent(changes[i].key, changes[j].key) ==>
        changes[i].text == changes[j].text
  }

  ghost predicate Consistent(t: Table) {
    forall k, l :: k in t && l in t && SameEvent(k, l) ==> t[k] == t[l]
  }

  lemma {:induction false} ReplayedHolds(changes: seq<Change>)
    requires Agreeing(changes)
    ensures forall i :: 0 <= i < |changes| ==>
            changes[i].key in Replayed(changes) && Replayed(changes)[changes[i].key] == changes[i].text
    ensures forall k :: k in Replayed(changes) ==> exists i :: 0 <= i < |changes| && changes[i].key == k
  {
    if changes != [] {
      var less, last := changes[..|changes| - 1], changes[|changes| - 1];
      ReplayedHolds(less);
      assert Replayed(changes) == Saved(Replayed(less), last);
      forall k | k in Replayed(changes)
        ensures exists i :: 0 <= i < |changes| && changes[i].key == k
      {
        if k != last.key {
          var i :| 0 <= i < |less| && less[i].key == k;
          assert changes[i].key == k;
        } else {
          assert changes[|changes| - 1].key == k;
        }
      }
      forall i | 0 <= i < |changes|
        ensures changes[i].key in Replayed(changes) && Replayed(changes)[changes[i].key] == changes[i].text
      {
        if i < |less| {
          assert less[i] == changes[i];
          assert Replayed(changes)[changes[i].key] == changes[i].text;
        } else if last.key in Replayed(less) {
          assert exists j :: 0 <= j < |less| && less[j].key == last.key;
          var j :| 0 <= j < |less| && less[j].key == last.key;
          assert less[j] == changes[j];
        }
      }
    }
  }

  // The table is a function of the set of changes: order, repetition and batching make no difference.
  lemma SameChangesSameTable(a: seq<Change>, b: seq<Change>)
    requires Agreeing(a) && Agreeing(b) && forall c :: c in a <==> c in b
    ensures Replayed(a) == Replayed(b)
  {
    Included(a, b);
    Included(b, a);
  }

  lemma Included(a: seq<Change>, b: seq<Change>)
    requires Agreeing(a) && Agreeing(b) && forall c :: c in a ==> c in b
    ensures forall k :: k in Replayed(a) ==> k in Replayed(b) && Replayed(b)[k] == Replayed(a)[k]
  {
    ReplayedHolds(a);
    ReplayedHolds(b);
    forall k | k in Replayed(a)
      ensures k in Replayed(b) && Replayed(b)[k] == Replayed(a)[k]
    {
      var i :| 0 <= i < |a| && a[i].key == k;
      assert a[i] in b;
      var j :| 0 <= j < |b| && b[j] == a[i];
    }
  }

  lemma ReplayedIsConsistent(changes: seq<Change>)
    requires Agreeing(changes)
    ensures Consistent(Replayed(changes))
  {
    ReplayedHolds(changes);
  }

  // at_ms DESC, event_id DESC
  predicate Before(a: Key, b: Key) {
    a.at < b.at || (a.at == b.at && Less(a.event, b.event))
  }

  lemma BeforeTotal(a: Key, b: Key)
    ensures Before(a, b) || Before(b, a) || (a.at == b.at && a.event == b.event)
    ensures !(Before(a, b) && Before(b, a))
  {
    LessTotal(a.event, b.event);
    LessIrreflexive(a.event);
    if Less(a.event, b.event) {
      LessAsymmetric(a.event, b.event);
    }
  }

  lemma BeforeTransitive(a: Key, b: Key, c: Key)
    requires Before(a, b) && Before(b, c)
    ensures Before(a, c)
  {
    if a.at == b.at == c.at {
      LessTransitive(a.event, b.event, c.event);
    }
  }

  // A message as it is looked up: the aliases of its conversation and its provider ID.
  datatype View = View(aliases: set<Jid>, target: string)

  predicate About(k: Key, v: View, kind: Kind) {
    k.chat in v.aliases && k.target == v.target && k.kind == kind
  }

  // ROW_NUMBER() ... rank = 1
  ghost predicate IsTop(t: Table, v: View, kind: Kind, top: Option<Key>) {
    match top
    case None => forall k :: k in t ==> !About(k, v, kind)
    case Some(m) => m in t && About(m, v, kind) && forall k :: k in t && About(k, v, kind) ==> !Before(m, k)
  }

  datatype Shown = Shown(text: string, edited: Option<int>, deleted: Option<int>)

  // What attachMessageChanges makes of a message whose stored text is given.
  ghost predicate Shows(t: Table, v: View, original: string, shown: Shown) {
    exists edit, revoke :: ShowsBy(t, v, original, shown, edit, revoke)
  }

  ghost predicate ShowsBy(t: Table, v: View, original: string, shown: Shown, edit: Option<Key>, revoke: Option<Key>) {
    && IsTop(t, v, Edit, edit) && IsTop(t, v, Revoke, revoke)
    && shown.text == (if edit.Some? then t[edit.value] else original)
    && shown.edited == (if edit.Some? then Some(edit.value.at) else None)
    && shown.deleted == if revoke.Some? then Some(revoke.value.at) else None
  }

  method Top(t: Table, v: View, kind: Kind) returns (top: Option<Key>)
    ensures IsTop(t, v, kind, top)
  {
    top := None;
    var rest := t.Keys;
    while rest != {}
      invariant rest <= t.Keys
      invariant top.Some? ==> top.value in t && About(top.value, v, kind)
      invariant forall k :: k in t && k !in rest && About(k, v, kind) ==> top.Some? && !Before(top.value, k)
      decreases rest
    {
      var k :| k in rest;
      rest := rest - {k};
      if About(k, v, kind) && (top.None? || Before(top.value, k)) {
        ghost var was := top;
        top := Some(k);
        BeforeTotal(k, k);
        forall l | l in t && l !in rest && About(l, v, kind)
          ensures !Before(k, l)
        {
          if l != k && Before(k, l) {
            BeforeTransitive(was.value, k, l);
          }
        }
      }
    }
  }

  // A deletion is shown at the time of the latest one stored under any alias, and an edit with text and time of the
  // one that is latest, or among those of one time has the greatest event ID.
  method Attach(t: Table, v: View, original: string) returns (shown: Shown)
    ensures Shows(t, v, original, shown)
    ensures shown.deleted.None? <==>
              forall k :: k in t && k.chat in v.aliases && k.target == v.target ==> k.kind != Revoke
    ensures shown.deleted.Some? ==>
              && (exists k :: k in t && k.chat in v.aliases && k.target == v.target && k.kind == Revoke &&
                              k.at == shown.deleted.value)
              && (forall k :: k in t && k.chat in v.aliases && k.target == v.target && k.kind == Revoke ==>
                              k.at <= shown.deleted.value)
    ensures shown.edited.None? <==>
              forall k :: k in t && k.chat in v.aliases && k.target == v.target ==> k.kind != Edit
    ensures shown.edited.None? ==> shown.text == original
    ensures shown.edited.Some? ==>
              exists e :: e in t && e.chat in v.aliases && e.target == v.target && e.kind == Edit &&
                e.at == shown.edited.value && t[e] == shown.text &&
                forall k :: k in t && k.chat in v.aliases && k.target == v.target && k.kind == Edit ==>
                  k.at < e.at || (k.at == e.at && !Less(e.event, k.event))
  {
    shown := Shown(original, None, None);
    var edit := Top(t, v, Edit);
    var revoke := Top(t, v, Revoke);
    if revoke.Some? {
      shown := shown.(deleted := Some(revoke.value.at));
    }
    if edit.Some? {
      shown := shown.(edited := Some(edit.value.at), text := t[edit.value]);
    }
    assert ShowsBy(t, v, original, shown, edit, revoke);
  }

  lemma TopsAgree(t: Table, v: View, kind: Kind, a: Option<Key>, b: Option<Key>)
    requires IsTop(t, v, kind, a) && IsTop(t, v, kind, b)
    ensures a.Some? == b.Some? && (a.Some? ==> SameEvent(a.value, b.value))
  {
    if a.Some? && b.Some? {
      BeforeTotal(a.value, b.value);
    }
  }

  // There is one answer, although SQLite may pick either of two rows that report one event.
  lemma ShownIsUnique(t: Table, v: View, original: string, a: Shown, b: Shown)
    requires Consistent(t) && Shows(t, v, original, a) && Shows(t, v, original, b)
    ensures a == b
  {
    var e, r :| ShowsBy(t, v, original, a, e, r);
    var e', r' :| ShowsBy(t, v, original, b, e', r');
    TopsAgree(t, v, Edit, e, e');
    TopsAgree(t, v, Revoke, r, r');
  }

  lemma IsReplayed(changes: seq<Change>, c: Change)
    requires Agreeing(changes) && c in changes
    ensures c.key in Replayed(changes) && Replayed(changes)[c.key] == c.text
  {
    ReplayedHolds(changes);
    var i :| 0 <= i < |changes| && changes[i] == c;
  }

  lemma CameFrom(changes: seq<Change>, k: Key) returns (c: Change)
    requires Agreeing(changes) && k in Replayed(changes)
    ensures c in changes && c.key == k
  {
    ReplayedHolds(changes);
    var i :| 0 <= i < |changes| && changes[i].key == k;
    c := changes[i];
  }

  // After any changes, whichever aliases they came under, a message shows text and time of the latest edit, by the
  // greatest event ID among those of one time.
  lemma LatestEditShows(changes: seq<Change>, v: View, original: string, c: Change, shown: Shown)
    requires Agreeing(changes) && Shows(Replayed(changes), v, original, shown)
    requires c in changes && c.key.chat in v.aliases && c.key.target == v.target && c.key.kind == Edit
    requires forall d :: d in changes && d.key.chat in v.aliases && d.key.target == v.target && d.key.kind == Edit ==>
               || d.key.at < c.key.at
               || (d.key.at == c.key.at && (d.key.event == c.key.event || Less(d.key.event, c.key.event)))
    ensures shown.text == c.text && shown.edited == Some(c.key.at)
  {
    hide Less, Agreeing, Replayed, Consistent;
    var t := Replayed(changes);
    IsReplayed(changes, c);
    ReplayedIsConsistent(changes);
    var e, r :| ShowsBy(t, v, original, shown, e, r);
    assert About(c.key, v, Edit) && !Before(e.value, c.key);
    var d := CameFrom(changes, e.value);
    assert SameEvent(e.value, c.key);
    ConsistentOn(t, e.value, c.key);
  }

  lemma ConsistentOn(t: Table, k: Key, l: Key)
    requires Consistent(t) && k in t && l in t && SameEvent(k, l)
    ensures t[k] == t[l]
  {
  }

  // It shows as deleted exactly if a deletion is among them, and as it was sent if no edit is.
  lemma AnyDeletionShows(changes: seq<Change>, v: View, original: string, shown: Shown)
    requires Agreeing(changes) && Shows(Replayed(changes), v, original, shown)
    ensures shown.deleted.Some? <==>
            exists d :: d in changes && d.key.chat in v.aliases && d.key.target == v.target && d.key.kind == Revoke
    ensures shown.edited.Some? <==>
            exists d :: d in changes && d.key.chat in v.aliases && d.key.target == v.target && d.key.kind == Edit
    ensures shown.edited.None? ==> shown.text == original
  {
    hide Agreeing, Replayed;
    var e, r :| ShowsBy(Replayed(changes), v, original, shown, e, r);
    if r.Some? {
      var d := CameFrom(changes, r.value);
    }
    if e.Some? {
      var d := CameFrom(changes, e.value);
    }
    forall d | d in changes && d.key.chat in v.aliases && d.key.target == v.target
      ensures d.key in Replayed(changes) && About(d.key, v, d.key.kind)
    {
      IsReplayed(changes, d);
    }
  }

  predicate NotEarlier(a: Option<int>, b: Option<int>) {
    a.Some? ==> b.Some? && a.value <= b.value
  }

  // Whatever is saved later, replays included, and whichever aliases are linked later: a deletion is never
  // cleared, and an edit only gives way to one that is not older.
  lemma ChangesOnlyGrow(t: Table, v: View, t': Table, v': View, original: string, before: Shown, after: Shown)
    requires t.Keys <= t'.Keys && v.aliases <= v'.aliases && v.target == v'.target
    requires Shows(t, v, original, before) && Shows(t', v', original, after)
    ensures NotEarlier(before.deleted, after.deleted) && NotEarlier(before.edited, after.edited)
  {
    var e, r :| ShowsBy(t, v, original, before, e, r);
    var e', r' :| ShowsBy(t', v', original, after, e', r');
    TopsGrow(t, v, t', v', Edit, e, e');
    TopsGrow(t, v, t', v', Revoke, r, r');
  }

  lemma TopsGrow(t: Table, v: View, t': Table, v': View, kind: Kind, a: Option<Key>, b: Option<Key>)
    requires t.Keys <= t'.Keys && v.aliases <= v'.aliases && v.target == v'.target
    requires IsTop(t, v, kind, a) && IsTop(t', v', kind, b)
    ensures a.Some? ==> b.Some? && a.value.at <= b.value.at
  {
    if a.Some? {
      assert a.value in t' && About(a.value, v', kind);
      BeforeTotal(b.value, a.value);
    }
  }

  // ChangeMessage's clock: changeMu is held from the reading of the message to the last read.
  class Clock {
    var changeAt: int

    method Stamp(now: int, edited: Option<int>) returns (at: int)
      modifies this
      ensures at == changeAt == Stamped(old(changeAt), now, edited)
      ensures at >= now && at > old(changeAt) && (edited.Some? ==> at > edited.value)
      ensures at == now || at == old(changeAt) + 1 || (edited.Some? && at == edited.value + 1)
    {
      at := now;
      if at <= changeAt {
        at := changeAt + 1;
      }
      if edited.Some? && at <= edited.value {
        at := edited.value + 1;
      }
      changeAt := at;
    }
  }

  function Later(a: int, b: int): int {
    if a > b then a else b
  }

  // The earliest time that is neither past nor at or before another change that was made or is shown.
  function Stamped(changeAt: int, now: int, edited: Option<int>): int {
    Later(Later(now, changeAt + 1), if edited.Some? then edited.value + 1 else now)
  }

  function Stamps(changeAt: int, requests: seq<(int, Option<int>)>): seq<int>
    decreases |requests|
  {
    if requests == [] then []
    else
      var at := Stamped(changeAt, requests[0].0, requests[0].1);
      [at] + Stamps(at, requests[1..])
  }

  // The local changes of an account carry strictly increasing times, whatever the system clock does.
  lemma {:induction false} StampsIncrease(changeAt: int, requests: seq<(int, Option<int>)>)
    ensures var s := Stamps(changeAt, requests);
            && |s| == |requests|
            && (forall i :: 0 <= i < |s| ==> s[i] > changeAt && (requests[i].1.Some? ==> s[i] > requests[i].1.value))
            && (forall i, j :: 0 <= i < j < |s| ==> s[i] < s[j])
    decreases |requests|
  {
    if requests != [] {
      StampsIncrease(Stamped(changeAt, requests[0].0, requests[0].1), requests[1..]);
    }
  }

  // After an acknowledged edit the next read shows it exactly when no edit with a later time is stored under any
  // alias, and its text when none ranks above it.
  lemma EditIsShownExactlyWhen(t: Table, v: View, original: string, c: Change, shown: Shown)
    requires Consistent(t) && c.key in t && t[c.key] == c.text && About(c.key, v, Edit) && Shows(t, v, original, shown)
    ensures shown.edited == Some(c.key.at) <==> forall k :: k in t && About(k, v, Edit) ==> k.at <= c.key.at
    ensures (forall k :: k in t && About(k, v, Edit) ==> !Before(c.key, k)) ==> shown.text == c.text
  {
    var e, r :| ShowsBy(t, v, original, shown, e, r);
    BeforeTotal(e.value, c.key);
  }

  // It does when the message was read before the edit was stamped, and nothing else was stored since.
  lemma AcknowledgedEditIsShown(t: Table, v: View, original: string, changeAt: int, now: int, read: Shown, c: Change,
                                shown: Shown)
    requires Consistent(t) && Shows(t, v, original, read) && c.key !in t
    requires About(c.key, v, Edit) && c.key.at == Stamped(changeAt, now, read.edited)
    requires Shows(Saved(t, c), v, original, shown)
    ensures shown.text == c.text && shown.edited == Some(c.key.at)
  {
    var e, r :| ShowsBy(t, v, original, read, e, r);
    forall k | k in t && About(k, v, Edit)
      ensures k.at < c.key.at
    {
      assert !Before(e.value, k);
    }
    var e', r' :| ShowsBy(Saved(t, c), v, original, shown, e', r');
    assert !Before(e'.value, c.key);
  }
}
