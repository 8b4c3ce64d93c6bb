// Conservation of stored objects over whole runs: what is in the store is known to the database or to a worker,
// unless it left both by one of four events; and exactly when an upload is left behind.
module StorageLeaks {
  import opened MergeRows
  import opened Schema
  import opened Storage
  import opened Totals
  import opened Wrappers

  // While an upload is received, only its own row names its file, and no orphan does.
  ghost predicate Unshared(rows: Rows, orphans: set<Object>, tasks: Tasks) {
    forall t :: t in tasks && tasks[t].kind.Receive? && tasks[t].phase != Done ==>
      && (forall r :: Names(rows, r, FileKey(tasks[t].kind.upload)) ==>
          r == UploadRow(tasks[t].kind.upload) && Blob(rows[r]) == Some(Own(tasks[t])))
      && (forall x :: x in orphans ==> x.key != FileKey(tasks[t].kind.upload))
  }

  lemma RecordKeepsUnshared(max: int, w: World, t: nat)
    requires Inv(w) && Unshared(w.rows, w.orphans, w.tasks)
    ensures var w' := Apply(max, w, Record(t)); Unshared(w'.rows, w'.orphans, w'.tasks)
  {
    hide Inv, Unshared, Recorded;
    if At(w, t, Stored) {
      if w.tasks[t].kind.Fetch? {
        RecordFetchKeepsUnshared(w, t);
      } else {
        RecordFileKeepsUnshared(w, t);
      }
    }
  }

  lemma RecordFetchKeepsUnshared(w: World, t: nat)
    requires Inv(w) && Unshared(w.rows, w.orphans, w.tasks) && At(w, t, Stored) && w.tasks[t].kind.Fetch?
    ensures var w' := Recorded(w, t); Unshared(w'.rows, w'.orphans, w'.tasks)
  {
    hide Present, DoomedApart, OneOwner, TasksAlone, TasksApart, Receiving, Own;
    var w', slot := Recorded(w, t), w.tasks[t].kind.slot;
    FetchedIsPhoto(w.tasks[t]);
    assert slot in w.rows ==> RowGood(w.rows, slot);
    PhotoNamesNoFile(w.rows, slot, Own(w.tasks[t]), w.tasks[t].size);
    assert forall x :: x in w'.orphans && x !in w.orphans ==> x.key.PhotoKey?;
    forall s | s in w'.tasks
      ensures s in w.tasks && Own(w'.tasks[s]) == Own(w.tasks[s])
    {
      SameOwn(w.tasks[s], w'.tasks[s]);
    }
  }

  lemma FetchedIsPhoto(task: Task)
    requires task.kind.Fetch?
    ensures Own(task).key.PhotoKey?
  {
  }

  lemma PhotoNamesNoFile(rows: Rows, slot: RowId, photo: Object, bytes: nat)
    requires photo.key.PhotoKey?
    ensures var rows' := rows[slot := Avatar(Some(photo), bytes)];
            forall r, k: ObjectKey :: k.FileKey? && Names(rows', r, k) ==> Names(rows, r, k) && rows'[r] == rows[r]
  {
    assert Blob(Avatar(Some(photo), bytes)) == Some(photo);
  }

  lemma RecordFileKeepsUnshared(w: World, t: nat)
    requires Inv(w) && Unshared(w.rows, w.orphans, w.tasks) && At(w, t, Stored) && !w.tasks[t].kind.Fetch?
    ensures var w' := Recorded(w, t); Unshared(w'.rows, w'.orphans, w'.tasks)
  {
    hide Present, DoomedApart, OneOwner, TasksAlone, TasksApart, Known, Typed;
    var w' := Recorded(w, t);
    assert forall r, k :: Names(w'.rows, r, k) ==>
      (Names(w.rows, r, k) && Blob(w'.rows[r]) == Blob(w.rows[r])) ||
          (w.tasks[t].kind.Download? && k == FileKey(w.tasks[t].kind.att));
  }

  lemma MergeKeepsUnshared(max: int, w: World, source: Id, target: Id)
    requires Inv(w) && Unshared(w.rows, w.orphans, w.tasks)
    ensures var w' := Apply(max, w, MergeInto(source, target)); Unshared(w'.rows, w'.orphans, w'.tasks)
  {
    hide Present, DoomedApart, OneOwner, TasksAlone;
  }

  lemma BeginKeepsUnshared(max: int, w: World, t: nat, kind: Kind, profile: string)
    requires Inv(w) && Unshared(w.rows, w.orphans, w.tasks)
    ensures var w' := Apply(max, w, Begin(t, kind, profile)); Unshared(w'.rows, w'.orphans, w'.tasks)
  {
    hide Present, DoomedApart, OneOwner, TasksAlone, TasksApart;
    assert w.orphans <= Doomed(w);
  }

  lemma CreateKeepsUnshared(max: int, w: World, t: nat)
    requires Inv(w) && Unshared(w.rows, w.orphans, w.tasks)
    ensures var w' := Apply(max, w, CreateUpload(t)); Unshared(w'.rows, w'.orphans, w'.tasks)
  {
    hide Present, DoomedApart, OneOwner, TasksAlone;
  }

  lemma SendKeepsUnshared(max: int, w: World, id: Id)
    requires Inv(w) && Unshared(w.rows, w.orphans, w.tasks)
    ensures var w' := Apply(max, w, SendUpload(id)); Unshared(w'.rows, w'.orphans, w'.tasks)
  {
    hide Present, DoomedApart, OneOwner, TasksAlone, TasksApart;
  }

  predicate ChangesTables(a: Action) {
    a.NewPart? || a.Describe? || a.DropUpload? || a.SaveMissing? || a.ClearAvatars? || a.ClearUpload? ||
        a.MarkRemote? ||
    a.MarkUnavailable? || a.UpdateRef? || a.Undo?
  }

  // An orphan was named by a live row that is not an upload's, and is named by no row any more.
  lemma NewOrphans(max: int, w: World, a: Action, x: Object)
    requires Inv(w) && x in Apply(max, w, a).orphans && x !in w.orphans
    ensures x !in w.listed && (a.MergeInto? || a.SaveMissing? || a.ClearAvatars? || (a.Record? && x.key.PhotoKey?))
    ensures exists r: RowId :: !r.UploadRow? && Names(w.rows, r, x.key)
  {
    hide OneOwner, TasksAlone, TasksApart, Receiving, Present, Used, MergedPart, SavedPart;
    var r: RowId;
    match a {
      case MergeInto(source, target) => r := AttachmentRow(source);
      case SaveMissing(slot) => r := slot;
      case ClearAvatars(account) => r :| r in AvatarsOf(w, account) && Blob(w.rows[r]) == Some(x);
      case Record(t) => r := w.tasks[t].kind.slot;
      case _ => assert false;
    }
    assert Names(w.rows, r, x.key) && Live(w.rows[r]);
    assert x !in Doomed(w);
  }

  // Rows are removed or give up what they name.
  lemma TablesShrink(max: int, w: World, a: Action)
    requires Typed(w.rows) && ChangesTables(a)
    ensures var w' := Apply(max, w, a);
            forall r, k :: Names(w'.rows, r, k) ==> Names(w.rows, r, k) && Blob(w'.rows[r]) == Blob(w.rows[r])
    ensures Apply(max, w, a).tasks == w.tasks
  {
    hide Used, AvatarsOf, Blobs;
  }

  lemma TablesKeepUnshared(max: int, w: World, a: Action)
    requires Inv(w) && Unshared(w.rows, w.orphans, w.tasks) && ChangesTables(a)
    ensures var w' := Apply(max, w, a); Unshared(w'.rows, w'.orphans, w'.tasks)
  {
    hide Apply, Present, DoomedApart, OneOwner, TasksAlone, TasksApart, Known, Receiving, Names;
    TablesShrink(max, w, a);
    forall x | x in Apply(max, w, a).orphans && x !in w.orphans
      ensures exists r: RowId :: !r.UploadRow? && Names(w.rows, r, x.key)
    {
      NewOrphans(max, w, a, x);
    }
  }

  lemma TasksKeepUnshared(max: int, w: World, a: Action)
    requires Unshared(w.rows, w.orphans, w.tasks)
    requires !ChangesTables(a) && !(a.Begin? || a.CreateUpload? || a.SendUpload? || a.Record? || a.MergeInto?)
    ensures var w' := Apply(max, w, a); Unshared(w'.rows, w'.orphans, w'.tasks)
  {
    hide Used, Names;
  }

  lemma StepKeepsUnshared(max: int, w: World, a: Action)
    requires Inv(w) && Unshared(w.rows, w.orphans, w.tasks)
    ensures var w' := Apply(max, w, a); Unshared(w'.rows, w'.orphans, w'.tasks)
  {
    hide Inv, Unshared, Apply;
    match a
    case Begin(t, kind, profile) => BeginKeepsUnshared(max, w, t, kind, profile);
    case CreateUpload(t) => CreateKeepsUnshared(max, w, t);
    case SendUpload(id) => SendKeepsUnshared(max, w, id);
    case Record(t) => RecordKeepsUnshared(max, w, t);
    case MergeInto(source, target) => MergeKeepsUnshared(max, w, source, target);
    case NewPart(_, _) => TablesKeepUnshared(max, w, a);
    case Describe(_, _) => TablesKeepUnshared(max, w, a);
    case DropUpload(_) => TablesKeepUnshared(max, w, a);
    case SaveMissing(_) => TablesKeepUnshared(max, w, a);
    case ClearAvatars(_) => TablesKeepUnshared(max, w, a);
    case ClearUpload(_) => TablesKeepUnshared(max, w, a);
    case MarkRemote(_) => TablesKeepUnshared(max, w, a);
    case MarkUnavailable(_) => TablesKeepUnshared(max, w, a);
    case UpdateRef(_, _) => TablesKeepUnshared(max, w, a);
    case Undo(_) => TablesKeepUnshared(max, w, a);
    case _ => TasksKeepUnshared(max, w, a);
  }

  lemma {:induction false} RunKeepsUnshared(max: int, actions: seq<Action>)
    ensures var w := Run(max, actions); Unshared(w.rows, w.orphans, w.tasks)
  {
    hide Apply, Inv;
    if actions != [] {
      RunKeepsUnshared(max, actions[..|actions| - 1]);
      RunKeepsInv(max, actions[..|actions| - 1]);
      StepKeepsUnshared(max, Run(max, actions[..|actions| - 1]), actions[|actions| - 1]);
    }
  }

  // Objects wait for deletion that no upload's row names, and what was deleted while it waited is not in the store.
  ghost predicate Settled(w: World) {
    && (forall r: RowId, x :: r.UploadRow? && x in w.orphans ==> !Names(w.rows, r, x.key))
    && (forall x :: x in w.orphans && x in w.erased ==> x !in w.objects)
  }

  // Whatever a row names after an action was named before, or is the key of a worker that just wrote its row.
  lemma NewNames(max: int, w: World, a: Action, r: RowId, k: ObjectKey)
    requires Inv(w) && Names(Apply(max, w, a).rows, r, k)
    ensures (exists q :: Names(w.rows, q, k)) || exists t :: WritesKey(w, a, t, k)
    ensures r.UploadRow? ==> Names(w.rows, r, k) || exists t :: WritesKey(w, a, t, k)
  {
    hide Apply, Known, OneOwner, DoomedApart, TasksAlone, TasksApart, Receiving, Present, Names;
    if LeavesRows(a) {
      RowsLeft(max, w, a);
    } else if ChangesTables(a) {
      TablesShrink(max, w, a);
    } else {
      WrittenNames(max, w, a, r, k);
    }
  }

  lemma WrittenNames(max: int, w: World, a: Action, r: RowId, k: ObjectKey)
    requires Inv(w) && Names(Apply(max, w, a).rows, r, k) && !LeavesRows(a) && !ChangesTables(a)
    ensures (exists q :: Names(w.rows, q, k)) || exists t :: WritesKey(w, a, t, k)
    ensures r.UploadRow? ==> Names(w.rows, r, k) || exists t :: WritesKey(w, a, t, k)
  {
    hide OneOwner, DoomedApart, TasksAlone, TasksApart, Receiving, Present, Known, Used, MergedPart, AvatarsOf, Blobs;
    if !Names(w.rows, r, k) {
      var q := r;
      match a {
        case MergeInto(source, target) =>
          MergedPartBlob(if IsAttachment(w.rows, target) then Some(w.rows[AttachmentRow(target)].part) else None,
                         w.rows[AttachmentRow(source)].part);
          q := AttachmentRow(source);
          assert Names(w.rows, q, k);
        case SendUpload(id) =>
          q := UploadRow(id);
          assert Names(w.rows, q, k);
        case CreateUpload(t) => assert WritesKey(w, a, t, k);
        case Record(t) => assert WritesKey(w, a, t, k);
        case _ => assert false;
      }
    }
  }

  predicate WritesKey(w: World, a: Action, t: nat, k: ObjectKey) {
    && t in w.tasks && Uncommitted(w.tasks[t]) && Own(w.tasks[t]).key == k
    && (w.tasks[t].kind.Download? ==> IsAttachment(w.rows, w.tasks[t].kind.att))
  }

  lemma StepKeepsSettled(max: int, w: World, a: Action)
    requires Inv(w) && Unshared(w.rows, w.orphans, w.tasks) && Settled(w)
    ensures Settled(Apply(max, w, a))
  {
    hide Apply, Inv, Unshared, WritesKey;
    var w' := Apply(max, w, a);
    forall r: RowId, x | r.UploadRow? && x in w'.orphans && Names(w'.rows, r, x.key)
      ensures false
    {
      NewNames(max, w, a, r, x.key);
      if x in w.orphans {
        var t :| WritesKey(w, a, t, x.key);
        OrphanUnwritten(w, a, t, x);
      } else {
        OrphanNamedOnce(max, w, a, r, x);
      }
    }
    forall x | x in w'.orphans && x in w'.erased
      ensures x !in w'.objects
    {
      ErasedStaysGone(max, w, a, x);
    }
  }

  lemma OrphanUnwritten(w: World, a: Action, t: nat, x: Object)
    requires Inv(w) && x in w.orphans
    ensures !WritesKey(w, a, t, x.key)
  {
    assert x in Doomed(w);
  }

  lemma OrphanNamedOnce(max: int, w: World, a: Action, r: RowId, x: Object)
    requires Inv(w) && x in Apply(max, w, a).orphans && x !in w.orphans && r.UploadRow?
    ensures !Names(Apply(max, w, a).rows, r, x.key)
  {
    hide Apply, Known, DoomedApart, TasksApart, Receiving, Present;
    NewOrphans(max, w, a, x);
    var q: RowId :| !q.UploadRow? && Names(w.rows, q, x.key);
    if Names(Apply(max, w, a).rows, r, x.key) {
      NewNames(max, w, a, r, x.key);
    }
  }

  lemma ErasedStaysGone(max: int, w: World, a: Action, x: Object)
    requires Inv(w) && Unshared(w.rows, w.orphans, w.tasks) && Settled(w)
    requires x in Apply(max, w, a).orphans && x in Apply(max, w, a).erased
    ensures x !in Apply(max, w, a).objects
  {
    hide Apply, Inv, Unshared;
    var w' := Apply(max, w, a);
    if x !in w.orphans {
      NewOrphans(max, w, a, x);
      ErasedOnly(max, w, a, x);
      if x in w.erased {
        ErasedListed(w, x);
      }
    } else if x in w'.objects {
      ErasedOnly(max, w, a, x);
      var t :| StoredBy(w, a, t, x);
      OrphanUnstored(w, a, t, x);
    }
  }

  // The worker that an action lets store an object, completely or in part.
  predicate StoredBy(w: World, a: Action, t: nat, x: Object) {
    && (a == Put(t) || a == PutFails(t, true)) && t in w.tasks && Own(w.tasks[t]) == x
    && w.tasks[t].phase == if w.tasks[t].kind.Receive? then Created else Sized
  }

  ghost predicate Stores(w: World, a: Action, x: Object) {
    exists t :: StoredBy(w, a, t, x)
  }

  ghost predicate Removes(w: World, a: Action, x: Object) {
    x in Deletes(w, a) || a == Lose(x)
  }

  lemma StoreChanges(max: int, w: World, a: Action, x: Object)
    ensures x in Apply(max, w, a).objects <==> Stores(w, a, x) || (x in w.objects && !Removes(w, a, x))
  {
    hide Used;
    if a.Put? || a.PutFails? {
      if x in Apply(max, w, a).objects && x !in w.objects {
        assert StoredBy(w, a, a.t, x);
      }
    }
  }

  lemma ErasedOnly(max: int, w: World, a: Action, x: Object)
    requires x in Apply(max, w, a).erased
    ensures x in w.erased || a == Erase(x)
    ensures x in Apply(max, w, a).objects && (x in w.erased ==> x !in w.objects) ==> Stores(w, a, x)
    ensures a == Erase(x) && x !in w.erased ==> x in w.listed
  {
    hide Apply;
    StoreChanges(max, w, a, x);
    if x !in w.erased {
      ErasedSteps(max, w, a, x);
    }
  }

  lemma ErasedSteps(max: int, w: World, a: Action, x: Object)
    requires x in Apply(max, w, a).erased && x !in w.erased
    ensures a == Erase(x) && x in w.listed
  {
    hide Used;
  }

  lemma ErasedListed(w: World, x: Object)
    requires Inv(w) && x in w.erased
    ensures x in w.listed
  {
  }

  lemma OrphanUnstored(w: World, a: Action, t: nat, x: Object)
    requires Inv(w) && Unshared(w.rows, w.orphans, w.tasks) && x in w.orphans
    ensures !StoredBy(w, a, t, x)
  {
    assert x in Doomed(w);
  }

  // Everything that holds in every run.
  ghost predicate Sound(w: World) {
    Inv(w) && Unshared(w.rows, w.orphans, w.tasks) && Settled(w)
  }

  lemma {:induction false} RunIsSound(max: int, actions: seq<Action>)
    ensures Sound(Run(max, actions))
  {
    hide Apply, Inv, Unshared;
    RunKeepsInv(max, actions);
    RunKeepsUnshared(max, actions);
    if actions != [] {
      RunIsSound(max, actions[..|actions| - 1]);
      StepKeepsSettled(max, Run(max, actions[..|actions| - 1]), actions[|actions| - 1]);
    }
  }

  // The worker stored x, or part of it, and has neither recorded it nor ended.
  predicate Holding(task: Task, x: Object) {
    Own(task) == x && task.phase in {Stored, Unrecorded, Undoing}
  }

  ghost predicate Held(w: World, x: Object) {
    exists t :: t in w.tasks && Holding(w.tasks[t], x)
  }

  ghost predicate Covered(w: World, x: Object) {
    Tracked(w, x) || Held(w, x)
  }

  // How a covered object that stays in the store stops being covered: its worker ends, or the process does, before
  // it recorded or undid it; its upload's row is cleared although it was stored again; or its attachment's row
  // gives it up.
  ghost predicate Leaves(w: World, a: Action, x: Object) {
    match a
    case Finish(t) => !Tracked(w, x) && t in w.tasks && Holding(w.tasks[t], x)
    case Restart => !Tracked(w, x) && Held(w, x)
    case ClearUpload(id) => !Held(w, x) && Clears(w, id, x)
    case MarkRemote(id) => Forgets(w, a, x)
    case MarkUnavailable(id) => Forgets(w, a, x)
    case _ => false
  }

  lemma HeldStays(max: int, w: World, a: Action, t: nat, x: Object)
    requires Inv(w) && t in w.tasks && Holding(w.tasks[t], x)
    requires a != Finish(t) && a != Restart
    ensures Covered(Apply(max, w, a), x)
  {
    hide Inv, Used, AvatarsOf, Blobs, MergedPart, ReleasedPart, Accounted;
    var w' := Apply(max, w, a);
    if a == Record(t) {
      RecordCovers(max, w, t, x);
    } else {
      assert t in w'.tasks && Holding(w'.tasks[t], x);
    }
  }

  lemma RecordCovers(max: int, w: World, t: nat, x: Object)
    requires Inv(w) && t in w.tasks && Holding(w.tasks[t], x)
    ensures Covered(Apply(max, w, Record(t)), x)
  {
    hide Known, OneOwner, DoomedApart, TasksAlone, TasksApart, Present, Used;
    var w' := Apply(max, w, Record(t));
    if At(w, t, Stored) && w'.tasks[t].phase == Done {
      var task := w.tasks[t];
      var r := match task.kind case Download(att) => AttachmentRow(att) case Receive(upload) => UploadRow(upload)
          case Fetch(slot, _) => slot;
      assert r in w'.rows && Blob(w'.rows[r]) == Some(x);
    } else {
      assert t in w'.tasks && Holding(w'.tasks[t], x);
    }
  }

  lemma StoredIsHeld(max: int, w: World, a: Action, x: Object)
    requires Stores(w, a, x)
    ensures Held(Apply(max, w, a), x)
  {
    var t :| StoredBy(w, a, t, x);
    assert t in Apply(max, w, a).tasks && Holding(Apply(max, w, a).tasks[t], x);
  }

  // One step uncovers an object that is in the store exactly by these events.
  lemma LeavesExactlyWhen(max: int, w: World, a: Action, x: Object)
    requires Sound(w) && x in w.objects && x in Apply(max, w, a).objects && Covered(w, x)
    ensures !Covered(Apply(max, w, a), x) <==> Leaves(w, a, x)
  {
    hide Apply, Inv, Unshared, Forgets, Clears, Marks, Refetchable;
    if Leaves(w, a, x) {
      LeavesUncovers(max, w, a, x);
    } else if !Covered(Apply(max, w, a), x) {
      if t :| t in w.tasks && Holding(w.tasks[t], x) {
        EndedUntracked(max, w, a, t, x);
      } else {
        NothingForgotten(max, w, a, x);
        ForgottenLeaves(w, a, x);
      }
    }
  }

  lemma EndedUntracked(max: int, w: World, a: Action, t: nat, x: Object)
    requires Inv(w) && t in w.tasks && Holding(w.tasks[t], x) && !Covered(Apply(max, w, a), x)
    ensures Leaves(w, a, x)
  {
    hide Apply, Inv;
    if a != Finish(t) && a != Restart {
      HeldStays(max, w, a, t, x);
    } else if Tracked(w, x) {
      NothingForgotten(max, w, a, x);
    }
  }

  lemma ForgottenLeaves(w: World, a: Action, x: Object)
    requires Settled(w) && Forgets(w, a, x) && !Held(w, x) && x in w.objects
    ensures Leaves(w, a, x)
  {
  }

  lemma LeavesUncovers(max: int, w: World, a: Action, x: Object)
    requires Sound(w) && Leaves(w, a, x)
    ensures !Covered(Apply(max, w, a), x)
  {
    hide Apply, Inv, Unshared, Settled, Forgets;
    match a
    case Finish(t) => EndingUncovers(max, w, a, x);
    case Restart => EndingUncovers(max, w, a, x);
    case ClearUpload(id) => ClearingUncovers(max, w, id, x);
    case MarkRemote(id) => MarkingUncovers(max, w, a, x);
    case MarkUnavailable(id) => MarkingUncovers(max, w, a, x);
  }

  lemma EndingUncovers(max: int, w: World, a: Action, x: Object)
    requires Inv(w) && Leaves(w, a, x) && (a.Finish? || a.Restart?)
    ensures !Covered(Apply(max, w, a), x)
  {
    hide Apart, Receiving, Present, Used;
    var w' := Apply(max, w, a);
    assert w'.rows == w.rows && w'.orphans == w.orphans;
    assert !Tracked(w', x);
  }

  lemma ClearingUncovers(max: int, w: World, id: Id, x: Object)
    requires Sound(w) && Leaves(w, ClearUpload(id), x)
    ensures !Covered(Apply(max, w, ClearUpload(id)), x)
  {
    hide Unshared, Known, DoomedApart, TasksAlone, TasksApart, Receiving, Present, Used;
    var w' := Apply(max, w, ClearUpload(id));
    assert Names(w.rows, UploadRow(id), x.key);
    assert forall r :: r in w'.rows && Blob(w'.rows[r]) == Some(x) ==> Names(w.rows, r, x.key) && r != UploadRow(id);
    assert w'.tasks == w.tasks;
  }

  lemma MarkingUncovers(max: int, w: World, a: Action, x: Object)
    requires Sound(w) && Leaves(w, a, x) && (a.MarkRemote? || a.MarkUnavailable?)
    ensures !Covered(Apply(max, w, a), x)
  {
    hide Settled, Known, TasksApart, Receiving, Present, Used;
    var w' := Apply(max, w, a);
    assert Names(w.rows, AttachmentRow(a.id), x.key) && Live(w.rows[AttachmentRow(a.id)]);
    assert forall r :: r in w'.rows && Blob(w'.rows[r]) == Some(x) ==>
        Names(w.rows, r, x.key) && r != AttachmentRow(a.id);
    assert x !in Doomed(w);
    assert w'.tasks == w.tasks;
    assert forall t :: t in w.tasks && Holding(w.tasks[t], x) ==> !Uncommitted(w.tasks[t]);
  }

  // Conservation over runs: an object in the store is known to the database or held by a worker, or the run left it
  // behind by one of these events and it has stayed in the store, uncovered, ever since.
  lemma {:induction false} Conservation(max: int, actions: seq<Action>, x: Object)
    requires x in Run(max, actions).objects && !Covered(Run(max, actions), x)
    ensures exists k :: LeftAt(max, actions, x, k)
  {
    hide Apply, Leaves, Covered, Sound, Run;
    if actions == [] {
      NothingAtStart(max);
    } else {
      var less, a := actions[..|actions| - 1], actions[|actions| - 1];
      assert actions == less + [a];
      RunThen(max, less, a);
      RunIsSound(max, less);
      var w := Run(max, less);
      StoreChanges(max, w, a, x);
      if Stores(w, a, x) {
        StoredIsHeld(max, w, a, x);
        HeldIsCovered(Run(max, actions), x);
      } else if Covered(w, x) {
        LeavesExactlyWhen(max, w, a, x);
        assert actions[..|less|] == less && actions[..|actions|] == actions;
        assert LeftAt(max, actions, x, |less|);
      } else {
        Conservation(max, less, x);
        var k :| LeftAt(max, less, x, k);
        LeftLonger(max, less, a, x, k);
      }
    }
  }

  lemma NothingAtStart(max: int)
    ensures Run(max, []).objects == {}
  {
  }

  lemma HeldIsCovered(w: World, x: Object)
    requires Held(w, x)
    ensures Covered(w, x)
  {
  }

  ghost predicate LeftAt(max: int, actions: seq<Action>, x: Object, k: int) {
    && 0 <= k < |actions| && Covered(Run(max, actions[..k]), x) && Leaves(Run(max, actions[..k]), actions[k], x)
    && forall j :: k < j <= |actions| ==> x in Run(max, actions[..j]).objects && !Covered(Run(max, actions[..j]), x)
  }

  lemma LeftLonger(max: int, actions: seq<Action>, a: Action, x: Object, k: int)
    requires LeftAt(max, actions, x, k)
    requires x in Run(max, actions + [a]).objects && !Covered(Run(max, actions + [a]), x)
    ensures LeftAt(max, actions + [a], x, k)
  {
    hide Run, Covered, Leaves;
    var longer := actions + [a];
    assert longer[..k] == actions[..k] && longer[k] == actions[k];
    forall j | k < j <= |longer|
      ensures x in Run(max, longer[..j]).objects && !Covered(Run(max, longer[..j]), x)
    {
      if j <= |actions| {
        assert longer[..j] == actions[..j];
      } else {
        assert longer[..j] == longer;
      }
    }
  }

  // An upload's row was cleared: nothing can ever name the upload's key again.
  ghost predicate Cleared(w: World, id: Id) {
    && id in w.drawn && AttachmentRow(id) !in w.rows
    && (forall r :: !Names(w.rows, r, FileKey(id)))
    && (forall x :: x in w.orphans ==> x.key != FileKey(id))
    && (forall t :: t in w.tasks && Own(w.tasks[t]).key == FileKey(id) ==> !Uncommitted(w.tasks[t]))
  }

  lemma ClearUploadClears(max: int, w: World, id: Id, x: Object)
    requires Sound(w) && Clears(w, id, x)
    ensures Cleared(Apply(max, w, ClearUpload(id)), id) && x.key == FileKey(id)
  {
    hide Unshared, DoomedApart, TasksApart, Receiving, Present, Used;
    var w' := Apply(max, w, ClearUpload(id));
    assert Names(w.rows, UploadRow(id), x.key);
    assert forall r, k :: Names(w'.rows, r, k) ==> Names(w.rows, r, k) && r != UploadRow(id);
    assert w'.tasks == w.tasks && w'.orphans == w.orphans && w'.drawn == w.drawn;
  }

  lemma StaysCleared(max: int, w: World, a: Action, id: Id)
    requires Inv(w) && Cleared(w, id)
    ensures Cleared(Apply(max, w, a), id)
  {
    hide Apply, Inv;
    var w' := Apply(max, w, a);
    forall r
      ensures !Names(w'.rows, r, FileKey(id))
    {
      if Names(w'.rows, r, FileKey(id)) {
        NewNames(max, w, a, r, FileKey(id));
      }
    }
    forall x | x in w'.orphans
      ensures x.key != FileKey(id)
    {
      if x !in w.orphans {
        NewOrphans(max, w, a, x);
      }
    }
    assert UploadRow(id) !in w.rows by {
      UploadNamed(w, id);
    }
    ClearedRows(max, w, a, id);
    ClearedTasks(max, w, a, id);
  }

  lemma UploadNamed(w: World, id: Id)
    requires Inv(w)
    ensures UploadRow(id) in w.rows ==> Names(w.rows, UploadRow(id), FileKey(id))
  {
  }

  lemma ClearedRows(max: int, w: World, a: Action, id: Id)
    requires Inv(w) && id in w.drawn && AttachmentRow(id) !in w.rows && UploadRow(id) !in w.rows
    ensures id in Apply(max, w, a).drawn && AttachmentRow(id) !in Apply(max, w, a).rows
  {
    hide Names, OneOwner, DoomedApart, TasksAlone, TasksApart, Receiving, Present, Used, MergedPart, ReleasedPart;
  }

  lemma ClearedTasks(max: int, w: World, a: Action, id: Id)
    requires id in w.drawn && AttachmentRow(id) !in w.rows
    requires forall t :: t in w.tasks && Own(w.tasks[t]).key == FileKey(id) ==> !Uncommitted(w.tasks[t])
    ensures var tasks := Apply(max, w, a).tasks;
            forall t :: t in tasks && Own(tasks[t]).key == FileKey(id) ==> !Uncommitted(tasks[t])
  {
    hide Used, MergedPart, ReleasedPart, AvatarsOf, Blobs, SavedPart;
  }

  lemma ClearedUntracked(w: World, id: Id, x: Object)
    requires Cleared(w, id) && x.key == FileKey(id)
    ensures !Tracked(w, x)
  {
    if r :| r in w.rows && Blob(w.rows[r]) == Some(x) {
      assert Names(w.rows, r, x.key);
    }
  }

  // The run cleared the upload's row at step c.
  ghost predicate ClearedAt(max: int, actions: seq<Action>, id: Id, x: Object, c: int) {
    0 <= c < |actions| && actions[c] == ClearUpload(id) && Clears(Run(max, actions[..c]), id, x)
  }

  // The last event that put x into the store or took it out put it in.
  ghost predicate StoredLast(max: int, actions: seq<Action>, x: Object) {
    exists k :: StoredSince(max, actions, x, k)
  }

  ghost predicate StoredSince(max: int, actions: seq<Action>, x: Object, k: int) {
    && 0 <= k < |actions| && Stores(Run(max, actions[..k]), actions[k], x)
    && forall j :: k < j < |actions| ==> !Removes(Run(max, actions[..j]), actions[j], x)
  }

  lemma {:induction false} InStoreExactlyWhen(max: int, actions: seq<Action>, x: Object)
    ensures x in Run(max, actions).objects <==> StoredLast(max, actions, x)
  {
    hide Apply, Stores, Removes, Run;
    if actions == [] {
      NothingAtStart(max);
    } else {
      var less, a := actions[..|actions| - 1], actions[|actions| - 1];
      assert actions == less + [a] && actions[..|less|] == less;
      RunThen(max, less, a);
      InStoreExactlyWhen(max, less, x);
      StoreChanges(max, Run(max, less), a, x);
      assert forall j :: 0 <= j <= |less| ==> less[..j] == actions[..j];
      if Stores(Run(max, less), a, x) {
        assert StoredSince(max, actions, x, |less|);
      } else if x in Run(max, actions).objects {
        var k :| StoredSince(max, less, x, k);
        assert StoredSince(max, actions, x, k);
      }
      forall k | StoredSince(max, actions, x, k)
        ensures k == |less| || (StoredSince(max, less, x, k) && !Removes(Run(max, less), a, x))
      {
        assert actions[|less|] == a;
      }
    }
  }

  lemma {:induction false} ClearedForGood(max: int, actions: seq<Action>, id: Id, x: Object, c: int)
    requires ClearedAt(max, actions, id, x, c)
    ensures Cleared(Run(max, actions), id) && x.key == FileKey(id)
  {
    hide Apply, Inv, Cleared, Sound, Clears, Run;
    var less, a := actions[..|actions| - 1], actions[|actions| - 1];
    assert actions == less + [a];
    RunThen(max, less, a);
    RunIsSound(max, less);
    SoundIsInv(Run(max, less));
    if c == |less| {
      assert actions[..c] == less;
      ClearUploadClears(max, Run(max, less), id, x);
    } else {
      assert less[..c] == actions[..c];
      ClearedForGood(max, less, id, x, c);
      StaysCleared(max, Run(max, less), a, id);
    }
  }

  lemma SoundIsInv(w: World)
    requires Sound(w)
    ensures Inv(w)
  {
  }

  // An upload whose row was cleared is never known again, and it is left behind in the store exactly when its Put,
  // or a partial one, comes after the last time the cleaner erased it, before or after the row was cleared.
  lemma ClearedUploadLeaksExactlyWhen(max: int, actions: seq<Action>, id: Id, x: Object, c: int)
    requires ClearedAt(max, actions, id, x, c)
    ensures !Tracked(Run(max, actions), x)
    ensures x in Run(max, actions).objects <==> StoredLast(max, actions, x)
  {
    ClearedForGood(max, actions, id, x, c);
    ClearedUntracked(Run(max, actions), id, x);
    InStoreExactlyWhen(max, actions, x);
  }

  // The run wrote the upload's row at step s, for the file x.
  ghost predicate CreatedAt(max: int, actions: seq<Action>, id: Id, x: Object, s: int) {
    && 0 <= s < |actions| && actions[s].CreateUpload?
    && var w, t := Run(max, actions[..s]), actions[s].t;
       At(w, t, Sized) && w.tasks[t].kind == Receive(id) && Own(w.tasks[t]) == x
  }

  ghost predicate SentAt(max: int, actions: seq<Action>, id: Id, k: int) {
    && 0 <= k < |actions| && actions[k] == SendUpload(id)
    && IsUpload(Run(max, actions[..k]).rows, id, Sendable)
  }

  predicate HasRow(w: World, id: Id, x: Object) {
    UploadRow(id) in w.rows && w.rows[UploadRow(id)].Upload? && w.rows[UploadRow(id)].file == x
  }

  lemma UploadRowStays(max: int, w: World, a: Action, id: Id, x: Object)
    requires Inv(w) && HasRow(w, id, x) && !(a == SendUpload(id) && IsUpload(w.rows, id, Sendable))
    ensures HasRow(Apply(max, w, a), id, x) || (a == ClearUpload(id) && Clears(w, id, x))
  {
    hide Used, OneOwner, DoomedApart, TasksApart, Receiving, Present, MergedPart, ReleasedPart, SavedPart;
    if a.CreateUpload? && At(w, a.t, Sized) {
      assert Names(w.rows, UploadRow(id), x.key);
    }
  }

  lemma {:induction false} RowStaysUntil(max: int, actions: seq<Action>, id: Id, x: Object, s: int)
    requires CreatedAt(max, actions, id, x, s) && forall k :: !SentAt(max, actions, id, k)
    ensures HasRow(Run(max, actions), id, x) || exists c :: ClearedAt(max, actions, id, x, c)
  {
    hide Apply, Inv, Sound, Clears, Run, HasRow;
    var less, a := actions[..|actions| - 1], actions[|actions| - 1];
    assert actions == less + [a];
    RunThen(max, less, a);
    RunIsSound(max, less);
    SoundIsInv(Run(max, less));
    assert forall j :: 0 <= j <= |less| ==> less[..j] == actions[..j];
    if s == |less| {
      CreatedHasRow(max, Run(max, less), a.t, id, x);
    } else {
      assert forall k :: SentAt(max, less, id, k) ==> SentAt(max, actions, id, k);
      assert !SentAt(max, actions, id, |less|);
      RowStaysUntil(max, less, id, x, s);
      if c :| ClearedAt(max, less, id, x, c) {
        assert ClearedAt(max, actions, id, x, c);
      } else {
        UploadRowStays(max, Run(max, less), a, id, x);
        assert a == ClearUpload(id) && Clears(Run(max, less), id, x) ==> ClearedAt(max, actions, id, x, |less|);
      }
    }
  }

  lemma CreatedHasRow(max: int, w: World, t: nat, id: Id, x: Object)
    requires At(w, t, Sized) && w.tasks[t].kind == Receive(id) && Own(w.tasks[t]) == x
    ensures HasRow(Apply(max, w, CreateUpload(t)), id, x)
  {
  }

  // An upload that is never sent is left behind exactly when its row was cleared and its Put, or a partial one, comes
  // after the last time the cleaner erased it.
  lemma UploadLeaksExactlyWhen(max: int, actions: seq<Action>, id: Id, x: Object, s: int)
    requires CreatedAt(max, actions, id, x, s) && forall k :: !SentAt(max, actions, id, k)
    ensures var w := Run(max, actions);
            x in w.objects && !Tracked(w, x) <==>
              StoredLast(max, actions, x) && exists c :: ClearedAt(max, actions, id, x, c)
  {
    hide Run, StoredLast, ClearedAt, CreatedAt, SentAt;
    RowStaysUntil(max, actions, id, x, s);
    InStoreExactlyWhen(max, actions, x);
    if c :| ClearedAt(max, actions, id, x, c) {
      ClearedUploadLeaksExactlyWhen(max, actions, id, x, c);
    } else {
      assert Blob(Run(max, actions).rows[UploadRow(id)]) == Some(x);
    }
  }

  // Both orders occur. An upload that is deleted while its Put runs can be stored after the cleaner cleared its row ...
  lemma LateUploadLeaks(max: int, profile: string, id: Id, size: nat) returns (actions: seq<Action>)
    requires size <= max
    ensures var w := Run(max, actions); var x := Object(profile, FileKey(id));
            x in w.objects && !Tracked(w, x) && w.tasks == map[]
  {
    hide Run;
    var erased := ErasedUpload(max, profile, id, size);
    var cleared := erased + [ClearUpload(id)];
    RunThen(max, erased, ClearUpload(id));
    var stored := cleared + [Put(0)];
    RunThen(max, cleared, Put(0));
    actions := stored + [Finish(0)];
    RunThen(max, stored, Finish(0));
  }

  // ... or, wholly or in part, between the cleaner's deletion and its clearing of the row.
  lemma PartialUploadLeaks(max: int, profile: string, id: Id, size: nat) returns (actions: seq<Action>)
    requires size <= max
    ensures var w := Run(max, actions); var x := Object(profile, FileKey(id));
            x in w.objects && !Tracked(w, x) && w.tasks == map[]
  {
    hide Run;
    var erased := ErasedUpload(max, profile, id, size);
    var stored := erased + [PutFails(0, true)];
    RunThen(max, erased, PutFails(0, true));
    var cleared := stored + [ClearUpload(id)];
    RunThen(max, stored, ClearUpload(id));
    actions := cleared + [Finish(0)];
    RunThen(max, cleared, Finish(0));
  }

  // A photo is left behind without any upload: the process ends after the Put and before the row is written.
  lemma CrashedFetchLeaks(max: int, profile: string, slot: RowId, photo: Id, size: nat) returns (actions: seq<Action>)
    requires size <= max && slot.AvatarRow?
    ensures var w := Run(max, actions); var x := Object(profile, PhotoKey(photo));
            x in w.objects && !Tracked(w, x) && w.tasks == map[]
  {
    var begun := [Begin(0, Fetch(slot, photo), profile)];
    RunThen(max, [], begun[0]);
    assert [] + begun == begun;
    assert Accounted(Run(max, begun).rows) == map[];
    var sized := begun + [Reserve(0, size)];
    RunThen(max, begun, Reserve(0, size));
    var stored := sized + [Put(0)];
    RunThen(max, sized, Put(0));
    actions := stored + [Restart];
    RunThen(max, stored, Restart);
  }

  lemma ErasedUpload(max: int, profile: string, id: Id, size: nat) returns (erased: seq<Action>)
    requires size <= max
    ensures var x := Object(profile, FileKey(id));
            Run(max, erased) == World(map[UploadRow(id) := Upload(Deleting, x, size)], {}, {}, {}, {id},
                                      map[0 := Task(Receive(id), profile, Created, size)], size, {x}, {x})
  {
    hide Run, Used;
    var x := Object(profile, FileKey(id));
    var created := CreatedUpload(max, profile, id, size);
    var dropped := created + [DropUpload(id)];
    RunThen(max, created, DropUpload(id));
    var listed := dropped + [ListUpload(id)];
    RunThen(max, dropped, ListUpload(id));
    erased := listed + [Erase(x)];
    RunThen(max, listed, Erase(x));
  }

  lemma CreatedUpload(max: int, profile: string, id: Id, size: nat) returns (actions: seq<Action>)
    requires size <= max
    ensures Run(max, actions) == World(map[UploadRow(id) := Upload(Staging, Object(profile, FileKey(id)), size)], {},
                                       {}, {}, {id},
                                       map[0 := Task(Receive(id), profile, Created, size)], size, {}, {})
  {
    var begun := [Begin(0, Receive(id), profile)];
    RunThen(max, [], begun[0]);
    assert [] + begun == begun;
    assert Accounted(Run(max, begun).rows) == map[];
    var sized := begun + [Reserve(0, size)];
    RunThen(max, begun, Reserve(0, size));
    actions := sized + [CreateUpload(0)];
    RunThen(max, sized, CreateUpload(0));
  }
}
