// What the quota of storage.dfy counts: the sizes that were reserved for the objects that attachments, uploads and
// photos name.
module StorageSizes {
  import MergeRows
  import opened Schema
  import opened Storage
  import opened StorageQuota
  import opened Totals
  import opened Wrappers

  type Sizes = map<ObjectKey, nat>

  // The size reserved last for each key, told by the reservations of a run that were granted.
  ghost function Granted(max: int, actions: seq<Action>): Sizes {
    if actions == [] then map[]
    else
      var less := actions[..|actions| - 1];
      Grant(max, Run(max, less), actions[|actions| - 1], Granted(max, less))
  }

  ghost function Grant(max: int, w: World, a: Action, sizes: Sizes): Sizes {
    if a.Reserve? && At(w, a.t, Started) && At(Apply(max, w, a), a.t, Sized) then sizes[Own(w.tasks[a.t]).key := a.size]
    else sizes
  }

  // The size column of a row.
  function Column(row: Row): nat {
    match row
    case Attachment(_, stored) => stored
    case Upload(_, _, bytes) => bytes
    case Avatar(_, bytes) => bytes
  }

  ghost predicate RowsSized(rows: Rows, sizes: Sizes) {
    forall r, k :: Names(rows, r, k) ==> k in sizes && Column(rows[r]) == sizes[k]
  }

  ghost predicate TasksSized(tasks: Tasks, sizes: Sizes) {
    forall t :: t in tasks && Uncommitted(tasks[t]) && tasks[t].phase != Started ==>
        Own(tasks[t]).key in sizes && tasks[t].size == sizes[Own(tasks[t]).key]
  }

  lemma ReserveKeepsSizes(max: int, w: World, t: nat, size: nat, sizes: Sizes)
    requires Inv(w) && RowsSized(w.rows, sizes) && TasksSized(w.tasks, sizes)
    ensures var w', sizes' := Apply(max, w, Reserve(t, size)), Grant(max, w, Reserve(t, size), sizes);
            RowsSized(w'.rows, sizes') && TasksSized(w'.tasks, sizes')
  {
    hide Receiving, Present, Known, OneOwner, DoomedApart, Typed, Own;
    var w' := Apply(max, w, Reserve(t, size));
    if At(w, t, Started) && At(w', t, Sized) {
      SameOwn(w.tasks[t], w'.tasks[t]);
      assert Uncommitted(w.tasks[t]);
    }
  }

  lemma TasksKeepSizes(max: int, w: World, a: Action, sizes: Sizes)
    requires Inv(w) && RowsSized(w.rows, sizes) && TasksSized(w.tasks, sizes)
    requires a.Begin? || a.Put? || a.PutFails? || a.RecordFails? || a.Reread? || a.Finish? || a.Restart?
    ensures RowsSized(Apply(max, w, a).rows, sizes) && TasksSized(Apply(max, w, a).tasks, sizes)
  {
    hide Receiving, Present, Apart, TasksApart;
  }

  lemma CreateKeepsSizes(max: int, w: World, t: nat, sizes: Sizes)
    requires Inv(w) && RowsSized(w.rows, sizes) && TasksSized(w.tasks, sizes)
    ensures var w' := Apply(max, w, CreateUpload(t)); RowsSized(w'.rows, sizes) && TasksSized(w'.tasks, sizes)
  {
    hide Receiving, Present, TasksApart;
  }

  lemma RecordKeepsSizes(max: int, w: World, t: nat, sizes: Sizes)
    requires Inv(w) && RowsSized(w.rows, sizes) && TasksSized(w.tasks, sizes)
    ensures var w' := Apply(max, w, Record(t)); RowsSized(w'.rows, sizes) && TasksSized(w'.tasks, sizes)
  {
    hide Receiving, Present, TasksApart;
  }

  lemma UndoKeepsSizes(max: int, w: World, t: nat, sizes: Sizes)
    requires Inv(w) && RowsSized(w.rows, sizes) && TasksSized(w.tasks, sizes)
    ensures var w' := Apply(max, w, Undo(t)); RowsSized(w'.rows, sizes) && TasksSized(w'.tasks, sizes)
  {
    hide Receiving, Present, TasksApart;
  }

  lemma RowsKeepSizes(max: int, w: World, a: Action, sizes: Sizes)
    requires Inv(w) && RowsSized(w.rows, sizes) && TasksSized(w.tasks, sizes)
    requires a.NewPart? || a.Describe? || a.SendUpload? || a.DropUpload? || a.SaveMissing? || a.ClearAvatars? ||
             a.ClearUpload? || a.MarkRemote? || a.MarkUnavailable? || a.UpdateRef?
    ensures RowsSized(Apply(max, w, a).rows, sizes) && TasksSized(Apply(max, w, a).tasks, sizes)
  {
    hide Receiving, Present, TasksApart;
  }

  lemma MergeKeepsSizes(max: int, w: World, source: Id, target: Id, sizes: Sizes)
    requires Inv(w) && RowsSized(w.rows, sizes) && TasksSized(w.tasks, sizes)
    ensures var w' := Apply(max, w, MergeInto(source, target));
            RowsSized(w'.rows, sizes) && TasksSized(w'.tasks, sizes)
  {
    hide Receiving, Present, TasksApart, MergeRows.MergedPart;
    if Mergeable(w, source, target) {
      var to := AttachmentRow(target);
      MergedPartBlob(if IsAttachment(w.rows, target) then Some(w.rows[to].part) else None,
                     w.rows[AttachmentRow(source)].part);
    }
  }

  lemma StepKeepsSizes(max: int, w: World, a: Action, sizes: Sizes)
    requires Inv(w) && RowsSized(w.rows, sizes) && TasksSized(w.tasks, sizes)
    ensures RowsSized(Apply(max, w, a).rows, Grant(max, w, a, sizes))
    ensures TasksSized(Apply(max, w, a).tasks, Grant(max, w, a, sizes))
  {
    hide Inv, RowsSized, TasksSized;
    match a
    case Reserve(t, size) => ReserveKeepsSizes(max, w, t, size, sizes);
    case MergeInto(source, target) => MergeKeepsSizes(max, w, source, target, sizes);
    case Begin(_, _, _) => TasksKeepSizes(max, w, a, sizes);
    case Put(_) => TasksKeepSizes(max, w, a, sizes);
    case PutFails(_, _) => TasksKeepSizes(max, w, a, sizes);
    case RecordFails(_) => TasksKeepSizes(max, w, a, sizes);
    case Reread(_) => TasksKeepSizes(max, w, a, sizes);
    case Finish(_) => TasksKeepSizes(max, w, a, sizes);
    case Restart => TasksKeepSizes(max, w, a, sizes);
    case CreateUpload(t) => CreateKeepsSizes(max, w, t, sizes);
    case Record(t) => RecordKeepsSizes(max, w, t, sizes);
    case Undo(t) => UndoKeepsSizes(max, w, t, sizes);
    case ListOrphan(_) =>
    case ListUpload(_) =>
    case Erase(_) =>
    case ClearOrphan(_) =>
    case StopCleaning =>
    case Lose(_) =>
    case _ => RowsKeepSizes(max, w, a, sizes);
  }

  lemma {:induction false} RunIsSized(max: int, actions: seq<Action>)
    ensures RowsSized(Run(max, actions).rows, Granted(max, actions))
    ensures TasksSized(Run(max, actions).tasks, Granted(max, actions))
  {
    hide Inv, Apply;
    if actions != [] {
      var less := actions[..|actions| - 1];
      RunIsSized(max, less);
      RunKeepsInv(max, less);
      StepKeepsSizes(max, Run(max, less), actions[|actions| - 1], Granted(max, less));
    }
  }

  // The sizes of the objects that rows name, row by row; no two rows name one object.
  ghost function Stored(rows: Rows, sizes: Sizes): map<RowId, nat>
    requires RowsSized(rows, sizes)
  {
    map r | r in rows && NamedBy(rows, r) :: NamedSize(rows, r, sizes)
  }

  predicate NamedBy(rows: Rows, r: RowId) {
    r in rows && Blob(rows[r]).Some?
  }

  ghost function NamedSize(rows: Rows, r: RowId, sizes: Sizes): nat
    requires NamedBy(rows, r) && RowsSized(rows, sizes)
  {
    assert Names(rows, r, Blob(rows[r]).value.key);
    sizes[Blob(rows[r]).value.key]
  }

  // Over every run, the bytes that count against the limit are the sizes reserved for the objects that attachments,
  // uploads and photos name, each object once; and with the sizes reserved for objects that no row names yet they stay
  // within the limit.
  lemma UsedIsGranted(max: nat, actions: seq<Action>)
    ensures RowsSized(Run(max, actions).rows, Granted(max, actions))
    ensures var w := Run(max, actions);
            && Used(w) == Total(Stored(w.rows, Granted(max, actions)))
            && Total(Stored(w.rows, Granted(max, actions))) + Total(Pending(w.tasks)) <= max
    ensures var rows := Run(max, actions).rows;
            forall q, r :: NamedBy(rows, q) && NamedBy(rows, r) && Blob(rows[q]) == Blob(rows[r]) ==> q == r
  {
    hide Run, Apply;
    var w, sizes := Run(max, actions), Granted(max, actions);
    RunIsSized(max, actions);
    RunKeepsInv(max, actions);
    CountedIsStored(w, sizes);
    NamedOnce(w);
    QuotaIsKept(max, actions);
  }

  lemma QuotaIsKept(max: nat, actions: seq<Action>)
    ensures Used(Run(max, actions)) + Total(Pending(Run(max, actions).tasks)) <= max
  {
    hide Run, Total;
    QuotaHolds(max, actions);
  }

  lemma NamedOnce(w: World)
    requires Inv(w)
    ensures forall q, r :: NamedBy(w.rows, q) && NamedBy(w.rows, r) && Blob(w.rows[q]) == Blob(w.rows[r]) ==> q == r
  {
    forall q, r | NamedBy(w.rows, q) && NamedBy(w.rows, r) && Blob(w.rows[q]) == Blob(w.rows[r])
      ensures q == r
    {
      assert Names(w.rows, q, Blob(w.rows[q]).value.key) && Names(w.rows, r, Blob(w.rows[r]).value.key);
    }
  }

  lemma CountedIsStored(w: World, sizes: Sizes)
    requires Inv(w) && RowsSized(w.rows, sizes)
    ensures Used(w) == Total(Stored(w.rows, sizes))
  {
    hide Total;
    forall r | r in w.rows
      ensures Accounted(w.rows)[r] == if r in Stored(w.rows, sizes) then Stored(w.rows, sizes)[r] else 0
    {
      InvIsTyped(w);
      if NamedBy(w.rows, r) {
        assert Names(w.rows, r, Blob(w.rows[r]).value.key);
      }
    }
    TotalWithoutZeros(Stored(w.rows, sizes), Accounted(w.rows));
  }

  // Writing a row adds what its worker had reserved: for a download, for an upload, and for a photo less the size of
  // the photo that it replaces.
  lemma WritingCounts(max: int, w: World, t: nat)
    requires Inv(w)
    ensures At(w, t, Phase.Stored) && w.tasks[t].kind.Download? && At(Apply(max, w, Record(t)), t, Done) ==>
              Used(Apply(max, w, Record(t))) == Used(w) + w.tasks[t].size
    ensures At(w, t, Sized) && w.tasks[t].kind.Receive? ==>
              Used(Apply(max, w, CreateUpload(t))) == Used(w) + w.tasks[t].size
    ensures At(w, t, Phase.Stored) && w.tasks[t].kind.Fetch? ==>
              var slot := w.tasks[t].kind.slot;
              Used(Apply(max, w, Record(t))) == Used(w) + w.tasks[t].size -
                if slot in w.rows && w.rows[slot].Avatar? && w.rows[slot].photo.Some? then w.rows[slot].bytes else 0
  {
    hide Total, Present, Receiving, TasksApart;
    if t in w.tasks {
      match w.tasks[t].kind
      case Download(att) =>
        var w' := Apply(max, w, Record(t));
        if At(w, t, Phase.Stored) && At(w', t, Done) {
          RowCounts(w.rows, AttachmentRow(att), w'.rows[AttachmentRow(att)]);
        }
      case Receive(upload) =>
        var w' := Apply(max, w, CreateUpload(t));
        if At(w, t, Sized) {
          assert UploadRow(upload) in w.rows ==> Names(w.rows, UploadRow(upload), FileKey(upload));
          RowCounts(w.rows, UploadRow(upload), w'.rows[UploadRow(upload)]);
        }
      case Fetch(slot, _) =>
        var w' := Apply(max, w, Record(t));
        if At(w, t, Phase.Stored) {
          RowCounts(w.rows, slot, w'.rows[slot]);
        }
    }
  }
}
