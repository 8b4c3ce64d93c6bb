// The byte quota of storage.dfy: reserveMediaStorage's test keeps what is stored and what is about to be
// stored within the limit, in every interleaving of reservations, commits, releases and deletions.
module StorageQuota {
  import opened Schema
  import opened Storage
  import opened Totals
  import opened Wrappers

  function Reservations(tasks: Tasks): map<nat, nat> {
    map t | t in tasks :: tasks[t].size
  }

  // The reservations whose bytes no row accounts for yet.
  function Pending(tasks: Tasks): map<nat, nat> {
    map t | t in tasks :: if Uncommitted(tasks[t]) then tasks[t].size else 0
  }

  ghost predicate Quota(max: int, w: World) {
    && w.reserved == Total(Reservations(w.tasks))
    && Used(w) + Total(Pending(w.tasks)) <= max
    && (forall t :: t in w.tasks && w.tasks[t].phase == Started ==> w.tasks[t].size == 0)
  }

  lemma PendingIsReserved(tasks: Tasks)
    ensures Total(Pending(tasks)) <= Total(Reservations(tasks))
  {
    TotalOfPart(Pending(tasks), Reservations(tasks));
  }

  lemma RowCounts(rows: Rows, r: RowId, row: Row)
    ensures Total(Accounted(rows[r := row])) ==
            Total(Accounted(rows)) + Bytes(row) - (if r in rows then Bytes(rows[r]) else 0)
  {
    TotalUpdate(Accounted(rows), r, Bytes(row));
    assert Accounted(rows[r := row]) == Accounted(rows)[r := Bytes(row)];
  }

  lemma RowsGoneCount(rows: Rows, gone: set<RowId>)
    ensures Total(Accounted(rows - gone)) <= Total(Accounted(rows))
  {
    TotalOfPart(Accounted(rows - gone), Accounted(rows));
  }

  lemma RowGoneCounts(rows: Rows, r: RowId)
    requires r in rows
    ensures Total(Accounted(rows - {r})) == Total(Accounted(rows)) - Bytes(rows[r])
  {
    TotalWithout(Accounted(rows), r);
    assert Accounted(rows - {r}) == Accounted(rows) - {r};
  }

  lemma TaskCounts(tasks: Tasks, t: nat, task: Task)
    ensures Total(Reservations(tasks[t := task])) ==
            Total(Reservations(tasks)) + task.size - (if t in tasks then tasks[t].size else 0)
    ensures Total(Pending(tasks[t := task])) ==
            Total(Pending(tasks)) + (if Uncommitted(task) then task.size
                                     else 0) - (if t in tasks && Uncommitted(tasks[t]) then tasks[t].size else 0)
  {
    TotalUpdate(Reservations(tasks), t, task.size);
    assert Reservations(tasks[t := task]) == Reservations(tasks)[t := task.size];
    TotalUpdate(Pending(tasks), t, if Uncommitted(task) then task.size else 0);
    assert Pending(tasks[t := task]) == Pending(tasks)[t := if Uncommitted(task) then task.size else 0];
  }

  lemma TaskGoneCounts(tasks: Tasks, t: nat)
    requires t in tasks
    ensures Total(Reservations(tasks - {t})) == Total(Reservations(tasks)) - tasks[t].size
    ensures Total(Pending(tasks - {t})) <= Total(Pending(tasks))
  {
    TotalWithout(Reservations(tasks), t);
    assert Reservations(tasks - {t}) == Reservations(tasks) - {t};
    TotalOfPart(Pending(tasks - {t}), Pending(tasks));
  }

  lemma RowKeepsQuota(max: int, w: World, w': World, r: RowId, row: Row)
    requires Quota(max, w) && w'.rows == w.rows[r := row] && w'.tasks == w.tasks && w'.reserved == w.reserved
    requires Bytes(row) == 0 || (r in w.rows && Bytes(row) <= Bytes(w.rows[r]))
    ensures Quota(max, w')
  {
    hide Bytes;
    RowCounts(w.rows, r, row);
  }

  lemma AdvanceKeepsQuota(max: int, w: World, w': World, t: nat, phase: Phase)
    requires Quota(max, w) && t in w.tasks && w'.rows == w.rows && w'.tasks == w.tasks[t := w.tasks[t].(phase := phase)]
    requires w'.reserved == w.reserved
    requires phase != Started && (w.tasks[t].phase == Done ==> phase == Done)
    requires (w.tasks[t].kind.Receive? ==> phase != Sized)
    ensures Quota(max, w')
  {
    TaskCounts(w.tasks, t, w.tasks[t].(phase := phase));
  }

  // A task's row is written: its bytes move from what is reserved to what is accounted for.
  lemma CommitKeepsQuota(max: int, w: World, w': World, t: nat, r: RowId, row: Row, phase: Phase)
    requires Quota(max, w) && t in w.tasks && Uncommitted(w.tasks[t]) && Bytes(row) == w.tasks[t].size
    requires w'.rows == w.rows[r := row] && w'.tasks == w.tasks[t := w.tasks[t].(phase := phase)]
    requires w'.reserved == w.reserved
    requires phase != Started && !Uncommitted(w.tasks[t].(phase := phase))
    ensures Quota(max, w')
  {
    RowCounts(w.rows, r, row);
    TaskCounts(w.tasks, t, w.tasks[t].(phase := phase));
  }

  lemma ReserveKeepsQuota(max: int, w: World, t: nat, size: nat)
    requires Quota(max, w)
    ensures Quota(max, Apply(max, w, Reserve(t, size)))
  {
    hide Total;
    if At(w, t, Started) {
      TaskCounts(w.tasks, t, w.tasks[t].(phase := Sized, size := size));
      TaskGoneCounts(w.tasks, t);
      PendingIsReserved(w.tasks);
    }
  }

  lemma RecordKeepsQuota(max: int, w: World, t: nat)
    requires Quota(max, w)
    ensures Quota(max, Apply(max, w, Record(t)))
  {
    var w' := Apply(max, w, Record(t));
    if At(w, t, Stored) {
      RecordingKeepsQuota(max, w, t);
    }
  }

  lemma RecordingKeepsQuota(max: int, w: World, t: nat)
    requires Quota(max, w) && At(w, t, Stored)
    ensures Quota(max, Recorded(w, t))
  {
    hide Quota;
    var w' := Recorded(w, t);
    match w.tasks[t].kind
    case Download(att) =>
      if w'.rows == w.rows {
        AdvanceKeepsQuota(max, w, w', t, w'.tasks[t].phase);
      } else {
        CommitKeepsQuota(max, w, w', t, AttachmentRow(att), w'.rows[AttachmentRow(att)], Done);
      }
    case Receive(upload) =>
      AdvanceKeepsQuota(max, w, w'.(rows := w.rows), t, w'.tasks[t].phase);
      if w'.rows != w.rows {
        RowKeepsQuota(max, w'.(rows := w.rows), w', UploadRow(upload), w'.rows[UploadRow(upload)]);
      }
    case Fetch(slot, _) => CommitKeepsQuota(max, w, w', t, slot, w'.rows[slot], Done);
  }

  lemma InvIsTyped(w: World)
    requires Inv(w)
    ensures Typed(w.rows)
  {
  }

  lemma MergeKeepsQuota(max: int, w: World, source: Id, target: Id)
    requires Quota(max, w) && Typed(w.rows)
    ensures Quota(max, Apply(max, w, MergeInto(source, target)))
  {
    var w' := Apply(max, w, MergeInto(source, target));
    var from, to := AttachmentRow(source), AttachmentRow(target);
    if w' != w {
      MergedPartBlob(if IsAttachment(w.rows, target) then Some(w.rows[to].part) else None, w.rows[from].part);
      RowCounts(w.rows, to, w'.rows[to]);
      RowGoneCounts(w.rows[to := w'.rows[to]], from);
    }
  }

  // Turning an upload into an attachment leaves the accounted bytes as they are.
  lemma SendingIsFree(max: int, w: World, id: Id)
    ensures Used(Apply(max, w, SendUpload(id))) == Used(w)
  {
    if IsUpload(w.rows, id, Sendable) && AttachmentRow(id) !in w.rows {
      var w' := Apply(max, w, SendUpload(id));
      RowCounts(w.rows, AttachmentRow(id), w'.rows[AttachmentRow(id)]);
      RowGoneCounts(w.rows[AttachmentRow(id) := w'.rows[AttachmentRow(id)]], UploadRow(id));
    }
  }

  lemma NoTasksCountNothing()
    ensures Total(Reservations(map[])) == 0 && Total(Pending(map[])) == 0
  {
    assert Reservations(map[]) == map[] && Pending(map[]) == map[];
  }

  lemma OthersKeepQuota(max: int, w: World, a: Action)
    requires Quota(max, w)
    requires a.SendUpload? || a.Restart? || a.ListOrphan? || a.ListUpload? || a.Erase? || a.ClearOrphan? ||
             a.StopCleaning? || a.Lose?
    ensures Quota(max, Apply(max, w, a))
  {
    hide Total;
    match a
    case SendUpload(id) => SendingIsFree(max, w, id);
    case Restart => NoTasksCountNothing();
    case _ =>
  }

  lemma RowsGoneKeepQuota(max: int, w: World, w': World, gone: set<RowId>)
    requires Quota(max, w) && w'.rows == w.rows - gone && w'.tasks == w.tasks && w'.reserved == w.reserved
    ensures Quota(max, w')
  {
    RowsGoneCount(w.rows, gone);
  }

  lemma TablesKeepQuota(max: int, w: World, a: Action)
    requires Quota(max, w)
    requires a.NewPart? || a.Describe? || a.DropUpload? || a.SaveMissing? || a.ClearAvatars? || a.ClearUpload? ||
             a.MarkRemote? || a.MarkUnavailable? || a.UpdateRef?
    ensures Quota(max, Apply(max, w, a))
  {
    hide Quota, Used;
    var w' := Apply(max, w, a);
    if w' != w {
      match a
      case NewPart(id, _) => RowKeepsQuota(max, w, w', AttachmentRow(id), w'.rows[AttachmentRow(id)]);
      case Describe(id, _) => RowKeepsQuota(max, w, w', AttachmentRow(id), w'.rows[AttachmentRow(id)]);
      case DropUpload(id) => RowKeepsQuota(max, w, w', UploadRow(id), w'.rows[UploadRow(id)]);
      case SaveMissing(slot) => RowKeepsQuota(max, w, w', slot, w'.rows[slot]);
      case ClearAvatars(account) => RowsGoneKeepQuota(max, w, w', AvatarsOf(w, account));
      case ClearUpload(id) => RowsGoneKeepQuota(max, w, w', {UploadRow(id)});
      case MarkRemote(id) => RowKeepsQuota(max, w, w', AttachmentRow(id), w'.rows[AttachmentRow(id)]);
      case MarkUnavailable(id) => RowKeepsQuota(max, w, w', AttachmentRow(id), w'.rows[AttachmentRow(id)]);
      case UpdateRef(id, _) => RowKeepsQuota(max, w, w', AttachmentRow(id), w'.rows[AttachmentRow(id)]);
    }
  }

  lemma TasksKeepQuota(max: int, w: World, a: Action)
    requires Quota(max, w)
    requires a.CreateUpload? || a.Put? || a.PutFails? || a.RecordFails? || a.Reread?
    ensures Quota(max, Apply(max, w, a))
  {
    hide Quota, Used;
    var w' := Apply(max, w, a);
    if w' != w {
      match a
      case CreateUpload(t) => CommitKeepsQuota(max, w, w', t, UploadRow(w.tasks[t].kind.upload),
                                               w'.rows[UploadRow(w.tasks[t].kind.upload)], Created);
      case Put(t) => AdvanceKeepsQuota(max, w, w', t, Stored);
      case PutFails(t, _) => AdvanceKeepsQuota(max, w, w', t, Undoing);
      case RecordFails(t) => AdvanceKeepsQuota(max, w, w', t, w'.tasks[t].phase);
      case Reread(t) => AdvanceKeepsQuota(max, w, w', t, Undoing);
    }
  }

  lemma BeginKeepsQuota(max: int, w: World, t: nat, kind: Kind, profile: string)
    requires Quota(max, w)
    ensures Quota(max, Apply(max, w, Begin(t, kind, profile)))
  {
    hide Total;
    TaskCounts(w.tasks, t, Task(kind, profile, Started, 0));
  }

  lemma FinishKeepsQuota(max: int, w: World, t: nat)
    requires Quota(max, w)
    ensures Quota(max, Apply(max, w, Finish(t)))
  {
    hide Total;
    if t in w.tasks {
      TaskGoneCounts(w.tasks, t);
    }
  }

  lemma UndoKeepsQuota(max: int, w: World, t: nat)
    requires Quota(max, w)
    ensures Quota(max, Apply(max, w, Undo(t)))
  {
    hide Total;
    if At(w, t, Undoing) && w.tasks[t].kind.Receive? {
      TablesKeepQuota(max, w, DropUpload(w.tasks[t].kind.upload));
    }
  }

  lemma StepKeepsQuota(max: int, w: World, a: Action)
    requires Quota(max, w) && Inv(w)
    ensures Quota(max, Apply(max, w, a))
  {
    hide Apply, Quota, Apart, TasksApart, Receiving, Present;
    match a
    case Reserve(t, size) => ReserveKeepsQuota(max, w, t, size);
    case Record(t) => RecordKeepsQuota(max, w, t);
    case MergeInto(source, target) => InvIsTyped(w); MergeKeepsQuota(max, w, source, target);
    case SendUpload(_) => OthersKeepQuota(max, w, a);
    case Restart => OthersKeepQuota(max, w, a);
    case ListOrphan(_) => OthersKeepQuota(max, w, a);
    case ListUpload(_) => OthersKeepQuota(max, w, a);
    case Erase(_) => OthersKeepQuota(max, w, a);
    case ClearOrphan(_) => OthersKeepQuota(max, w, a);
    case StopCleaning => OthersKeepQuota(max, w, a);
    case Lose(_) => OthersKeepQuota(max, w, a);
    case Begin(t, kind, profile) => BeginKeepsQuota(max, w, t, kind, profile);
    case CreateUpload(_) => TasksKeepQuota(max, w, a);
    case Put(_) => TasksKeepQuota(max, w, a);
    case PutFails(_, _) => TasksKeepQuota(max, w, a);
    case RecordFails(_) => TasksKeepQuota(max, w, a);
    case Reread(_) => TasksKeepQuota(max, w, a);
    case Undo(t) => UndoKeepsQuota(max, w, t);
    case Finish(t) => FinishKeepsQuota(max, w, t);
    case _ => TablesKeepQuota(max, w, a);
  }

  // Over every run, the bytes accounted for and the bytes reserved for objects that no row names yet stay
  // within the limit together, and the counter of reserved bytes is the sum over the workers.
  lemma {:induction false} QuotaHolds(max: nat, actions: seq<Action>)
    ensures Quota(max, Run(max, actions))
  {
    if actions == [] {
      NoTasksCountNothing();
      assert Accounted(Start().rows) == map[];
    } else {
      QuotaHolds(max, actions[..|actions| - 1]);
      RunKeepsInv(max, actions[..|actions| - 1]);
      StepKeepsQuota(max, Run(max, actions[..|actions| - 1]), actions[|actions| - 1]);
    }
  }
}
