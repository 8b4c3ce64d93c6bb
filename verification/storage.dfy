// Stored objects and the byte quota: media.go, uploads.go and avatars.go around the attachments, uploads,
// avatars and media_orphans tables and the object store, for all accounts. Every database transaction, every
// call of the object store and every change of a counter is one action, in any interleaving.
module Storage {
  import opened Links
  import opened MergeRows
  import opened Schema
  import opened Totals
  import opened Wrappers

  datatype RowId = AttachmentRow(id: Id) | UploadRow(id: Id) | AvatarRow(account: Id, person: Jid)

  datatype UploadState = Staging | Sendable | Deleting

  // Only the availability and the object of a part matter here.
  datatype Row = Attachment(part: Part, stored: nat) | Upload(state: UploadState, file: Object, bytes: nat)
               | Avatar(photo: Option<Object>, bytes: nat)

  type Rows = map<RowId, Row>

  datatype Kind = Download(att: Id) | Receive(upload: Id) | Fetch(slot: RowId, photo: Id)

  // Sized: bytes are reserved. Created: the upload's row exists. Stored: Put returned. Unrecorded: the row was
  // not written. Undoing: the worker may delete the object it put.
  datatype Phase = Started | Sized | Created | Stored | Unrecorded | Undoing | Done

  datatype Task = Task(kind: Kind, profile: string, phase: Phase, size: nat)

  type Tasks = map<nat, Task>

  // lost: objects the environment removed. drawn: every UUID generated so far. listed and erased: where the cleaner is.
  datatype World = World(rows: Rows, orphans: set<Object>, objects: set<Object>, lost: set<Object>, drawn: set<Id>,
                         tasks: Tasks, reserved: int, listed: set<Object>, erased: set<Object>)

  datatype Action =
    | NewPart(id: Id, part: PartIn)
    | Describe(id: Id, part: PartIn)
    | Begin(t: nat, kind: Kind, profile: string)
    | Reserve(t: nat, size: nat)
    | CreateUpload(t: nat)
    | Put(t: nat)
    | PutFails(t: nat, partly: bool)
    | Record(t: nat)
    | RecordFails(t: nat)
    | Reread(t: nat)
    | Undo(t: nat)
    | Finish(t: nat)
    | SendUpload(id: Id)
    | DropUpload(id: Id)
    | SaveMissing(slot: RowId)
    | ClearAvatars(account: Id)
    | ListOrphan(x: Object)
    | ListUpload(id: Id)
    | Erase(x: Object)
    | ClearOrphan(x: Object)
    | ClearUpload(id: Id)
    | StopCleaning
    | MergeInto(source: Id, target: Id)
    | MarkRemote(id: Id)
    | MarkUnavailable(id: Id)
    | UpdateRef(id: Id, ref: string)
    | Lose(x: Object)
    | Restart

  function Blob(row: Row): Option<Object> {
    match row
    case Attachment(part, _) => part.blob
    case Upload(_, x, _) => Some(x)
    case Avatar(photo, _) => photo
  }

  function Own(task: Task): Object {
    match task.kind
    case Download(att) => Object(task.profile, FileKey(att))
    case Receive(upload) => Object(task.profile, FileKey(upload))
    case Fetch(_, photo) => Object(task.profile, PhotoKey(photo))
  }

  // The bytes of a row that StoredMediaBytes sums.
  function Bytes(row: Row): nat {
    match row
    case Attachment(part, stored) => if part.availability == Ready then stored else 0
    case Upload(_, _, bytes) => bytes
    case Avatar(photo, bytes) => if photo.Some? then bytes else 0
  }

  function Accounted(rows: Rows): map<RowId, nat> {
    map r | r in rows :: Bytes(rows[r])
  }

  ghost function Used(w: World): nat {
    Total(Accounted(w.rows))
  }

  predicate Free(w: World, kind: Kind) {
    match kind
    case Download(att) => AttachmentRow(att) in w.rows && w.rows[AttachmentRow(att)].Attachment? &&
                          w.rows[AttachmentRow(att)].part.availability == Remote && forall t :: t in w.tasks ==>
                              w.tasks[t].kind != kind
    case Receive(upload) => upload !in w.drawn
    case Fetch(slot, photo) => photo !in w.drawn && slot.AvatarRow?
  }

  function Drawn(kind: Kind): set<Id> {
    match kind
    case Download(_) => {}
    case Receive(upload) => {upload}
    case Fetch(_, photo) => {photo}
  }

  predicate IsAttachment(rows: Rows, id: Id) {
    AttachmentRow(id) in rows && rows[AttachmentRow(id)].Attachment?
  }

  predicate IsUpload(rows: Rows, id: Id, state: UploadState) {
    UploadRow(id) in rows && rows[UploadRow(id)].Upload? && rows[UploadRow(id)].state == state
  }

  function Advanced(w: World, t: nat, phase: Phase): World
    requires t in w.tasks
  {
    w.(tasks := w.tasks[t := w.tasks[t].(phase := phase)])
  }

  predicate At(w: World, t: nat, phase: Phase) {
    t in w.tasks && w.tasks[t].phase == phase
  }

  // SaveAvatar: the photo that a row held before becomes an orphan.
  function SavedAvatar(w: World, slot: RowId, photo: Option<Object>, bytes: nat): World {
    var before := if slot in w.rows then Blob(w.rows[slot]) else None;
    w.(rows := w.rows[slot := Avatar(photo, bytes)],
       orphans := if before.Some? && before != photo then w.orphans + {before.value} else w.orphans)
  }

  function Recorded(w: World, t: nat): World
    requires t in w.tasks
  {
    var task := w.tasks[t];
    match task.kind
    case Download(att) =>
      if IsAttachment(w.rows, att) && w.rows[AttachmentRow(att)].part.availability == Remote then
        var ready := w.rows[AttachmentRow(att)].part.(availability := Ready, blob := Some(Own(task)), auto := false,
                                                      failure := "");
        Advanced(w.(rows := w.rows[AttachmentRow(att) := Attachment(ready, task.size)]), t, Done)
      else Advanced(w, t, Unrecorded)
    case Receive(upload) =>
      if IsUpload(w.rows, upload, Staging)
      then Advanced(w.(rows := w.rows[UploadRow(upload) := w.rows[UploadRow(upload)].(state := Sendable)]), t, Done)
      else Advanced(w, t, Undoing)
    case Fetch(slot, _) => Advanced(SavedAvatar(w, slot, Some(Own(task)), task.size), t, Done)
  }

  function AvatarsOf(w: World, account: Id): set<RowId> {
    set r | r in w.rows && r.AvatarRow? && r.account == account
  }

  function Blobs(w: World, rows: set<RowId>): set<Object> {
    set r | r in rows && r in w.rows && Blob(w.rows[r]).Some? :: Blob(w.rows[r]).value
  }

  predicate Mergeable(w: World, source: Id, target: Id) {
    && source != target && IsAttachment(w.rows, source)
    && (IsAttachment(w.rows, target) || (target !in w.drawn && AttachmentRow(target) !in w.rows))
  }

  // One part of mergeAttachmentsTx; target is a fresh ID when the kept message lacks the part.
  function MergedInto(w: World, source: Id, target: Id): World
    requires IsAttachment(w.rows, source) && (IsAttachment(w.rows, target) || AttachmentRow(target) !in w.rows)
  {
    var from := w.rows[AttachmentRow(source)];
    var stored := if IsAttachment(w.rows, target) then Some(w.rows[AttachmentRow(target)].part) else None;
    var part := MergedPart(stored, from.part);
    var bytes := if stored.Some? && stored.value.availability == Ready then w.rows[AttachmentRow(target)].stored
        else from.stored;
    w.(rows := w.rows[AttachmentRow(target) := Attachment(part, bytes)] - {AttachmentRow(source)},
       orphans := w.orphans + ReleasedPart(stored, from.part), drawn := w.drawn + {target})
  }

  // WHERE availability = 'ready' AND provider_ref IS NOT NULL; the version is checked in storage_readers.dfy.
  predicate Refetchable(part: Part) {
    part.availability == Ready && part.ref.Some?
  }

  // An action that is not possible in a world leaves it as it is.
  ghost function Apply(max: int, w: World, a: Action): World {
    match a
    case NewPart(id, part) =>
      if id in w.drawn || part.availability == Ready then w
      else w.(rows := w.rows[AttachmentRow(id) := Attachment(SavedPart(None, part), 0)], drawn := w.drawn + {id})
    case Describe(id, part) =>
      if !IsAttachment(w.rows, id) || part.availability == Ready then w
      else
        var row := w.rows[AttachmentRow(id)];
        w.(rows := w.rows[AttachmentRow(id) := row.(part := SavedPart(Some(row.part), part))])
    case Begin(t, kind, profile) =>
      if t in w.tasks || !Free(w, kind) then w
      else w.(tasks := w.tasks[t := Task(kind, profile, Started, 0)], drawn := w.drawn + Drawn(kind))
    case Reserve(t, size) =>
      if !At(w, t, Started) then w
      else if Used(w) > max || w.reserved > max - Used(w) || size > max - Used(w) - w.reserved
          then w.(tasks := w.tasks - {t})
      else w.(tasks := w.tasks[t := w.tasks[t].(phase := Sized, size := size)], reserved := w.reserved + size)
    case CreateUpload(t) =>
      if !At(w, t, Sized) || !w.tasks[t].kind.Receive? then w
      else
        var upload := Upload(Staging, Own(w.tasks[t]), w.tasks[t].size);
        Advanced(w.(rows := w.rows[UploadRow(w.tasks[t].kind.upload) := upload]), t, Created)
    case Put(t) =>
      if !At(w, t, if t in w.tasks && w.tasks[t].kind.Receive? then Created else Sized) then w
      else Advanced(w.(objects := w.objects + {Own(w.tasks[t])}, lost := w.lost - {Own(w.tasks[t])}), t, Stored)
    case PutFails(t, partly) =>
      if !At(w, t, if t in w.tasks && w.tasks[t].kind.Receive? then Created else Sized) then w
      else Advanced(if partly then w.(objects := w.objects + {Own(w.tasks[t])}) else w, t, Undoing)
    case Record(t) => if At(w, t, Stored) then Recorded(w, t) else w
    case RecordFails(t) =>
      if !At(w, t, Stored) then w else Advanced(w, t, if w.tasks[t].kind.Download? then Unrecorded else Undoing)
    case Reread(t) =>
      if !At(w, t, Unrecorded) || !w.tasks[t].kind.Download? then w
      else
        var att := w.tasks[t].kind.att;
        if IsAttachment(w.rows, att) && !(w.rows[AttachmentRow(att)].part.availability == Ready &&
                                          Blob(w.rows[AttachmentRow(att)]) == Some(Own(w.tasks[t])))
        then Advanced(w, t, Undoing) else w
    case Undo(t) =>
      if !At(w, t, Undoing) then w
      else if w.tasks[t].kind.Receive? then Dropped(w, w.tasks[t].kind.upload)
      else w.(objects := w.objects - {Own(w.tasks[t])})
    case Finish(t) =>
      if t !in w.tasks then w
      else w.(tasks := w.tasks - {t}, reserved := w.reserved - w.tasks[t].size)
    case SendUpload(id) =>
      if !IsUpload(w.rows, id, Sendable) || AttachmentRow(id) in w.rows then w
      else
        var u := w.rows[UploadRow(id)];
        var row := Attachment(Part(Ready, None, false, "", u.bytes, "", Some(u.file)), u.bytes);
        w.(rows := w.rows[AttachmentRow(id) := row] - {UploadRow(id)})
    case DropUpload(id) => Dropped(w, id)
    case SaveMissing(slot) => if slot.AvatarRow? then SavedAvatar(w, slot, None, 0) else w
    case ClearAvatars(account) =>
      w.(rows := w.rows - AvatarsOf(w, account), orphans := w.orphans + Blobs(w, AvatarsOf(w, account)))
    case ListOrphan(x) => if x in w.orphans then w.(listed := w.listed + {x}) else w
    case ListUpload(id) => if IsUpload(w.rows, id, Deleting) then w.(listed := w.listed + {w.rows[UploadRow(id)].file})
        else w
    case Erase(x) => if x in w.listed then w.(objects := w.objects - {x}, erased := w.erased + {x}) else w
    case ClearOrphan(x) => if x in w.erased then w.(orphans := w.orphans - {x}) else w
    case ClearUpload(id) =>
      if IsUpload(w.rows, id, Deleting) && w.rows[UploadRow(id)].file in w.erased
          then w.(rows := w.rows - {UploadRow(id)}) else w
    case StopCleaning => w.(listed := {}, erased := {})
    case MergeInto(source, target) =>
      if Mergeable(w, source, target)
      then MergedInto(w, source, target) else w
    case MarkRemote(id) =>
      if !IsAttachment(w.rows, id) || !Refetchable(w.rows[AttachmentRow(id)].part) then w
      else
        var part := w.rows[AttachmentRow(id)].part.(availability := Remote, failure := "", blob := None);
        w.(rows := w.rows[AttachmentRow(id) := Attachment(part, 0)])
    case MarkUnavailable(id) =>
      if !IsAttachment(w.rows, id) || w.rows[AttachmentRow(id)].part.availability == Unavailable then w
      else
        var part := w.rows[AttachmentRow(id)].part.(availability := Unavailable, auto := false, failure := "",
                                                    blob := None);
        w.(rows := w.rows[AttachmentRow(id) := Attachment(part, 0)])
    case UpdateRef(id, ref) =>
      if !IsAttachment(w.rows, id) || w.rows[AttachmentRow(id)].part.availability == Ready || ref == "" then w
      else
        var row := w.rows[AttachmentRow(id)];
        w.(rows := w.rows[AttachmentRow(id) := row.(part := row.part.(ref := Some(ref), availability := Remote))])
    case Lose(x) => w.(objects := w.objects - {x}, lost := w.lost + {x})
    case Restart => w.(tasks := map[], reserved := 0, listed := {}, erased := {})
  }

  // MarkUploadDeleting, by request, by expiry or after a failed upload.
  function Dropped(w: World, id: Id): World {
    if (IsUpload(w.rows, id, Staging) || IsUpload(w.rows, id, Sendable))
        then w.(rows := w.rows[UploadRow(id) := w.rows[UploadRow(id)].(state := Deleting)]) else w
  }

  ghost function Start(): World {
    World(map[], {}, {}, {}, {}, map[], 0, {}, {})
  }

  ghost function Run(max: int, actions: seq<Action>): World {
    if actions == [] then Start() else Apply(max, Run(max, actions[..|actions| - 1]), actions[|actions| - 1])
  }

  // The objects that an action asks the object store to delete.
  function Deletes(w: World, a: Action): set<Object> {
    match a
    case Erase(x) => if x in w.listed then {x} else {}
    case Undo(t) => if At(w, t, Undoing) && !w.tasks[t].kind.Receive? then {Own(w.tasks[t])} else {}
    case _ => {}
  }

  // A row whose object the service can still be asked for.
  predicate Live(row: Row) {
    Blob(row).Some? && (row.Upload? ==> row.state != Deleting)
  }

  // A row whose object was stored completely.
  predicate Complete(row: Row) {
    Blob(row).Some? && (row.Upload? ==> row.state == Sendable)
  }

  // A task whose object no row names yet.
  predicate Uncommitted(task: Task) {
    if task.kind.Receive? then task.phase in {Started, Sized} else task.phase != Done
  }

  // What the cleaner deletes, or will.
  function Doomed(w: World): set<Object> {
    w.orphans + w.listed
  }

  predicate RowGood(rows: Rows, r: RowId)
    requires r in rows
  {
    match r
    case AttachmentRow(id) => rows[r].Attachment? && PartGood(rows[r].part)
    case UploadRow(id) => rows[r].Upload? && rows[r].file.key == FileKey(id) && AttachmentRow(id) !in rows
    case AvatarRow(_, _) => rows[r].Avatar? && (rows[r].photo.Some? ==> rows[r].photo.value.key.PhotoKey?)
  }

  ghost predicate Typed(rows: Rows) {
    forall r :: r in rows ==> RowGood(rows, r)
  }

  // No ID generated from now on is one that a row, a key or a task has.
  ghost predicate Known(rows: Rows, doomed: set<Object>, tasks: Tasks, drawn: set<Id>) {
    && (forall r :: r in rows && !r.AvatarRow? ==> r.id in drawn)
    && (forall r, k :: Names(rows, r, k) ==> k.id in drawn)
    && (forall x :: x in doomed ==> x.key.id in drawn)
    && (forall t :: t in tasks ==>
          Own(tasks[t]).key.id in drawn && (tasks[t].kind.Fetch? ==> tasks[t].kind.slot.AvatarRow?))
  }

  predicate Names(rows: Rows, r: RowId, k: ObjectKey) {
    r in rows && Blob(rows[r]).Some? && Blob(rows[r]).value.key == k
  }

  // No two rows name one key, and an attachment's own key is named by that attachment or by no row.
  ghost predicate OneOwner(rows: Rows) {
    && (forall r, q, k :: Names(rows, r, k) && Names(rows, q, k) ==> r == q)
    && (forall r, id :: Names(rows, r, FileKey(id)) && AttachmentRow(id) in rows ==> r == AttachmentRow(id))
  }

  // What waits for deletion is named by no live row and comes from an attachment that is gone for good.
  ghost predicate DoomedApart(rows: Rows, doomed: set<Object>) {
    && (forall r, x :: x in doomed && Names(rows, r, x.key) ==> !Live(rows[r]))
    && (forall x :: x in doomed && x.key.FileKey? ==> AttachmentRow(x.key.id) !in rows)
  }

  // Until a task writes its row no one else names its key.
  ghost predicate TasksAlone(rows: Rows, doomed: set<Object>, tasks: Tasks) {
    && (forall t, r :: t in tasks && Uncommitted(tasks[t]) ==> !Names(rows, r, Own(tasks[t]).key))
    && (forall t, x :: t in tasks && x in doomed && Uncommitted(tasks[t]) ==> x.key != Own(tasks[t]).key)
  }

  // No two unfinished tasks work on one key.
  ghost predicate TasksApart(tasks: Tasks) {
    forall s, t :: s in tasks && t in tasks && s != t && tasks[s].phase != Done && tasks[t].phase != Done ==>
        Own(tasks[s]).key != Own(tasks[t]).key
  }

  ghost predicate Receiving(rows: Rows, tasks: Tasks) {
    forall t :: t in tasks && tasks[t].kind.Receive? && tasks[t].phase != Done ==>
      && AttachmentRow(tasks[t].kind.upload) !in rows && !IsUpload(rows, tasks[t].kind.upload, Sendable)
      && (IsUpload(rows, tasks[t].kind.upload, Staging) ==> rows[UploadRow(tasks[t].kind.upload)].file == Own(tasks[t]))
  }

  // A task whose object is stored and whose row can still be written.
  predicate WillPromise(rows: Rows, tasks: Tasks, t: nat) {
    t in tasks && tasks[t].phase == Stored && (tasks[t].kind.Receive? ==> IsUpload(rows, tasks[t].kind.upload, Staging))
  }

  // Every object that a row promises is in the store, unless the environment removed it; so is every one about
  // to be promised.
  ghost predicate Present(rows: Rows, tasks: Tasks, known: set<Object>) {
    && (forall r :: r in rows && Complete(rows[r]) ==> Blob(rows[r]).value in known)
    && (forall t :: WillPromise(rows, tasks, t) ==> Own(tasks[t]) in known)
  }

  // Everything about who names which key.
  ghost predicate Apart(rows: Rows, doomed: set<Object>, tasks: Tasks, drawn: set<Id>) {
    && Typed(rows)
    && Known(rows, doomed, tasks, drawn)
    && OneOwner(rows)
    && DoomedApart(rows, doomed)
    && TasksAlone(rows, doomed, tasks)
  }

  ghost predicate Inv(w: World) {
    && Apart(w.rows, Doomed(w), w.tasks, w.drawn)
    && TasksApart(w.tasks)
    && Receiving(w.rows, w.tasks)
    && Present(w.rows, w.tasks, w.objects + w.lost)
    && w.erased <= w.listed
  }

  // A row is written that names nothing new.
  lemma RowStaysApart(rows: Rows, doomed: set<Object>, tasks: Tasks, drawn: set<Id>, drawn': set<Id>, r0: RowId,
                      row: Row)
    requires Apart(rows, doomed, tasks, drawn) && drawn <= drawn' && RowGood(rows[r0 := row], r0)
    requires r0 in rows || (Blob(row).None? && (r0.AvatarRow? || (r0.AttachmentRow? && r0.id in drawn' - drawn)))
    requires r0 in rows ==> Blob(row).None? || (Blob(row) == Blob(rows[r0]) && (Live(row) ==> Live(rows[r0])))
    ensures Apart(rows[r0 := row], doomed, tasks, drawn')
  {
    hide Own;
    var after := rows[r0 := row];
    assert forall r, k :: Names(after, r, k) ==> Names(rows, r, k);
    assert forall r :: r in rows && r != r0 && RowGood(rows, r) ==> RowGood(after, r);
  }

  // Rows are removed.
  lemma RowsGoneStayApart(rows: Rows, doomed: set<Object>, tasks: Tasks, drawn: set<Id>, gone: set<RowId>)
    requires Apart(rows, doomed, tasks, drawn)
    ensures Apart(rows - gone, doomed, tasks, drawn)
  {
    hide Own;
    assert forall r, k :: Names(rows - gone, r, k) ==> Names(rows, r, k);
    assert forall r :: r in rows - gone && RowGood(rows, r) ==> RowGood(rows - gone, r);
  }

  lemma SameOwn(task: Task, task': Task)
    requires task.kind == task'.kind && task.profile == task'.profile
    ensures Own(task) == Own(task')
  {
  }

  // A task's row is written.
  lemma OwnRowStaysApart(rows: Rows, doomed: set<Object>, tasks: Tasks, drawn: set<Id>, t: nat, r0: RowId, row: Row,
                         done: Task)
    requires Apart(rows, doomed, tasks, drawn) && TasksApart(tasks) && RowGood(rows[r0 := row], r0)
    requires t in tasks && Uncommitted(tasks[t]) && Blob(row) == Some(Own(tasks[t])) && done.kind == tasks[t].kind
    requires done.profile == tasks[t].profile && !Uncommitted(done)
    requires match r0
             case AttachmentRow(id) => r0 in rows && Own(tasks[t]).key == FileKey(id)
             case UploadRow(id) => Own(tasks[t]).key == FileKey(id) && AttachmentRow(id) !in rows
             case AvatarRow(_, _) => Own(tasks[t]).key.PhotoKey?
    ensures Apart(rows[r0 := row], doomed, tasks[t := done], drawn)
  {
    hide Own;
    var after := rows[r0 := row];
    SameOwn(tasks[t], done);
    assert forall r, k :: Names(after, r, k) ==> if r == r0 then k == Own(tasks[t]).key else Names(rows, r, k);
    assert forall r :: r in rows && r != r0 && RowGood(rows, r) ==> RowGood(after, r);
    assert forall s :: s in tasks && s != t && Uncommitted(tasks[s]) ==> Own(tasks[s]).key != Own(tasks[t]).key;
  }

  // A row takes over what another named.
  lemma MovedRowStaysApart(rows: Rows, doomed: set<Object>, tasks: Tasks, drawn: set<Id>, drawn': set<Id>, from: RowId,
                           to: RowId, row: Row)
    requires Apart(rows, doomed, tasks, drawn) && drawn <= drawn' && from in rows && from != to && to.AttachmentRow?
    requires RowGood(rows[to := row] - {from}, to)
    requires Blob(rows[from]).Some? && Live(rows[from]) && Blob(row) == Blob(rows[from])
    requires from.AttachmentRow? || from == UploadRow(to.id)
    requires to in rows || to.id in drawn' - drawn || from == UploadRow(to.id)
    ensures Apart(rows[to := row] - {from}, doomed, tasks, drawn')
  {
    hide Own;
    var after := rows[to := row] - {from};
    var key := Blob(row).value.key;
    assert Names(rows, from, key);
    assert forall r, k :: Names(after, r, k) ==> if r == to then k == key else Names(rows, r, k);
    assert forall r :: r in rows && r != to && r != from && RowGood(rows, r) ==> RowGood(after, r);
  }

  // Objects that rows named go to the orphans.
  lemma OrphansStayApart(rows: Rows, doomed: set<Object>, tasks: Tasks, drawn: set<Id>, orphans: set<Object>,
                         after: Rows)
    requires Apart(rows, doomed, tasks, drawn) && Apart(after, doomed, tasks, drawn)
    requires forall x :: x in orphans ==> exists r :: Names(rows, r, x.key)
    requires forall x, r :: x in orphans ==> !Names(after, r, x.key)
    requires forall x :: x in orphans && x.key.FileKey? ==> AttachmentRow(x.key.id) !in after
    ensures Apart(after, doomed + orphans, tasks, drawn)
  {
    hide Own, Names;
  }

  // Workers go on, and IDs may be drawn.
  lemma TasksStayApart(rows: Rows, doomed: set<Object>, tasks: Tasks, drawn: set<Id>, tasks': Tasks, drawn': set<Id>)
    requires Apart(rows, doomed, tasks, drawn) && drawn <= drawn'
    requires forall t :: t in tasks' ==> (t in tasks && tasks'[t].kind == tasks[t].kind &&
                                          tasks'[t].profile == tasks[t].profile &&
                                          (Uncommitted(tasks'[t]) ==> Uncommitted(tasks[t])))
    ensures Apart(rows, doomed, tasks', drawn')
  {
  }

  lemma NewPartKeepsInv(max: int, w: World, id: Id, part: PartIn)
    requires Inv(w)
    ensures Inv(Apply(max, w, NewPart(id, part)))
  {
    hide Apart, TasksApart;
    if id !in w.drawn && part.availability != Ready {
      NotDrawn(w, id);
      RowStaysApart(w.rows, Doomed(w), w.tasks, w.drawn, w.drawn + {id}, AttachmentRow(id),
                    Attachment(SavedPart(None, part), 0));
    }
  }

  lemma NotDrawn(w: World, id: Id)
    requires Inv(w) && id !in w.drawn
    ensures AttachmentRow(id) !in w.rows && UploadRow(id) !in w.rows
    ensures forall t :: t in w.tasks ==> Own(w.tasks[t]).key.id != id
  {
  }

  lemma DescribeKeepsInv(max: int, w: World, id: Id, part: PartIn)
    requires Inv(w)
    ensures Inv(Apply(max, w, Describe(id, part)))
  {
    hide Known, OneOwner, DoomedApart, TasksAlone, TasksApart;
    if IsAttachment(w.rows, id) && part.availability != Ready {
      var row := w.rows[AttachmentRow(id)].(part := SavedPart(Some(w.rows[AttachmentRow(id)].part), part));
      RowStaysApart(w.rows, Doomed(w), w.tasks, w.drawn, w.drawn, AttachmentRow(id), row);
    }
  }

  lemma MarkKeepsInv(max: int, w: World, a: Action)
    requires Inv(w) && (a.MarkRemote? || a.MarkUnavailable? || a.UpdateRef?)
    ensures Inv(Apply(max, w, a))
  {
    hide Known, OneOwner, DoomedApart, TasksAlone, TasksApart;
    var r := AttachmentRow(a.id);
    if Apply(max, w, a) != w {
      RowStaysApart(w.rows, Doomed(w), w.tasks, w.drawn, w.drawn, r, Apply(max, w, a).rows[r]);
    }
  }

  lemma DropKeepsInv(w: World, id: Id)
    requires Inv(w)
    ensures Inv(Dropped(w, id))
  {
    hide Known, OneOwner, DoomedApart, TasksAlone, TasksApart;
    if IsUpload(w.rows, id, Staging) || IsUpload(w.rows, id, Sendable) {
      RowStaysApart(w.rows, Doomed(w), w.tasks, w.drawn, w.drawn, UploadRow(id),
                    w.rows[UploadRow(id)].(state := Deleting));
    }
  }

  lemma ReserveKeepsInv(max: int, w: World, t: nat, size: nat)
    requires Inv(w)
    ensures Inv(Apply(max, w, Reserve(t, size)))
  {
    hide Apart, Used;
    if At(w, t, Started) {
      FinishKeepsInv(max, w, t);
      TasksStayApart(w.rows, Doomed(w), w.tasks, w.drawn, w.tasks[t := w.tasks[t].(phase := Sized, size := size)],
                     w.drawn);
    }
  }

  // A task goes on without any change of the tables; a second worker on its key is still impossible.
  lemma AdvanceKeepsInv(w: World, t: nat, phase: Phase)
    requires Inv(w) && t in w.tasks && w.tasks[t].phase != Done && phase !in {Started, Sized, Stored, Done}
    requires w.tasks[t].kind.Receive? ==> !Uncommitted(w.tasks[t])
    ensures Inv(Advanced(w, t, phase))
  {
    hide Apart;
    TasksStayApart(w.rows, Doomed(w), w.tasks, w.drawn, w.tasks[t := w.tasks[t].(phase := phase)], w.drawn);
  }

  lemma FinishKeepsInv(max: int, w: World, t: nat)
    requires Inv(w)
    ensures Inv(Apply(max, w, Finish(t)))
  {
    hide Apart;
    TasksStayApart(w.rows, Doomed(w), w.tasks, w.drawn, w.tasks - {t}, w.drawn);
  }

  lemma RestartKeepsInv(max: int, w: World)
    requires Inv(w)
    ensures Inv(Apply(max, w, Restart))
  {
    var empty: Tasks := map[];
    TasksStayApart(w.rows, Doomed(w), w.tasks, w.drawn, empty, w.drawn);
  }

  lemma BeginKeepsInv(max: int, w: World, t: nat, kind: Kind, profile: string)
    requires Inv(w)
    ensures Inv(Apply(max, w, Begin(t, kind, profile)))
  {
    if t !in w.tasks && Free(w, kind) {
      var task := Task(kind, profile, Started, 0);
      if !kind.Download? {
        NotDrawn(w, Own(task).key.id);
      }
      BeginStaysApart(w, t, task);
    }
  }

  lemma BeginStaysApart(w: World, t: nat, task: Task)
    requires Inv(w) && t !in w.tasks && Free(w, task.kind) && task.phase == Started
    ensures Apart(w.rows, Doomed(w), w.tasks[t := task], w.drawn + Drawn(task.kind))
    ensures TasksApart(w.tasks[t := task]) && Receiving(w.rows, w.tasks[t := task])
  {
  }

  lemma CreateUploadKeepsInv(max: int, w: World, t: nat)
    requires Inv(w)
    ensures Inv(Apply(max, w, CreateUpload(t)))
  {
    hide Known, OneOwner, DoomedApart, TasksAlone;
    if At(w, t, Sized) && w.tasks[t].kind.Receive? {
      OwnRowStaysApart(w.rows, Doomed(w), w.tasks, w.drawn, t, UploadRow(w.tasks[t].kind.upload),
                       Upload(Staging, Own(w.tasks[t]), w.tasks[t].size), w.tasks[t].(phase := Created));
    }
  }

  lemma PutKeepsInv(max: int, w: World, t: nat)
    requires Inv(w)
    ensures Inv(Apply(max, w, Put(t)))
  {
    hide Apart;
    if At(w, t, if t in w.tasks && w.tasks[t].kind.Receive? then Created else Sized) {
      TasksStayApart(w.rows, Doomed(w), w.tasks, w.drawn, w.tasks[t := w.tasks[t].(phase := Stored)], w.drawn);
    }
  }

  lemma PutFailsKeepsInv(max: int, w: World, t: nat, partly: bool)
    requires Inv(w)
    ensures Inv(Apply(max, w, PutFails(t, partly)))
  {
    hide Apart, Used;
    if At(w, t, if t in w.tasks && w.tasks[t].kind.Receive? then Created else Sized) {
      TasksStayApart(w.rows, Doomed(w), w.tasks, w.drawn, w.tasks[t := w.tasks[t].(phase := Undoing)], w.drawn);
    }
  }

  // Objects disappear that no row and no task relies on.
  lemma DeletionKeepsPresent(rows: Rows, tasks: Tasks, objects: set<Object>, lost: set<Object>, gone: Object)
    requires Present(rows, tasks, objects + lost)
    requires forall r :: r in rows && Complete(rows[r]) ==> Blob(rows[r]).value != gone
    requires forall t :: WillPromise(rows, tasks, t) ==> Own(tasks[t]) != gone
    ensures Present(rows, tasks, objects - {gone} + lost)
  {
  }

  lemma UndoKeepsInv(max: int, w: World, t: nat)
    requires Inv(w)
    ensures Inv(Apply(max, w, Undo(t)))
  {
    if At(w, t, Undoing) {
      if w.tasks[t].kind.Receive? {
        DropKeepsInv(w, w.tasks[t].kind.upload);
      } else {
        UndoIsSafe(w, t);
        DeletionKeepsPresent(w.rows, w.tasks, w.objects, w.lost, Own(w.tasks[t]));
      }
    }
  }

  // A worker only deletes an object that no row names and no other worker put.
  lemma UndoIsSafe(w: World, t: nat)
    requires Inv(w) && At(w, t, Undoing) && !w.tasks[t].kind.Receive?
    ensures forall r :: r in w.rows ==> Blob(w.rows[r]) != Some(Own(w.tasks[t]))
    ensures forall s :: s in w.tasks && w.tasks[s].phase == Stored ==> Own(w.tasks[s]) != Own(w.tasks[t])
  {
    assert forall r :: r in w.rows ==> !Names(w.rows, r, Own(w.tasks[t]).key);
  }

  lemma EraseKeepsInv(max: int, w: World, x: Object)
    requires Inv(w)
    ensures Inv(Apply(max, w, Erase(x)))
  {
    if x in w.listed {
      EraseIsSafe(w, x);
      DeletionKeepsPresent(w.rows, w.tasks, w.objects, w.lost, x);
    }
  }

  // The cleaner only deletes an object that no live row names and no worker is about to record.
  lemma EraseIsSafe(w: World, x: Object)
    requires Inv(w) && x in w.listed
    ensures forall r :: r in w.rows && Live(w.rows[r]) ==> Blob(w.rows[r]) != Some(x)
    ensures forall t :: WillPromise(w.rows, w.tasks, t) ==> Own(w.tasks[t]) != x
  {
    assert x in Doomed(w);
    forall r | r in w.rows && Blob(w.rows[r]) == Some(x)
      ensures !Live(w.rows[r])
    {
      assert Names(w.rows, r, x.key);
    }
  }

  lemma RecordDownloadKeepsInv(w: World, t: nat)
    requires Inv(w) && At(w, t, Stored) && w.tasks[t].kind.Download?
    ensures Inv(Recorded(w, t))
  {
    hide Known, OneOwner, DoomedApart, TasksAlone;
    var att := w.tasks[t].kind.att;
    if IsAttachment(w.rows, att) && w.rows[AttachmentRow(att)].part.availability == Remote {
      var ready := w.rows[AttachmentRow(att)].part.(availability := Ready, blob := Some(Own(w.tasks[t])), auto := false,
                                                    failure := "");
      OwnRowStaysApart(w.rows, Doomed(w), w.tasks, w.drawn, t, AttachmentRow(att), Attachment(ready, w.tasks[t].size),
                       w.tasks[t].(phase := Done));
    } else {
      AdvanceKeepsInv(w, t, Unrecorded);
    }
  }

  lemma RecordUploadKeepsInv(w: World, t: nat)
    requires Inv(w) && At(w, t, Stored) && w.tasks[t].kind.Receive?
    ensures Inv(Recorded(w, t))
  {
    hide Known, OneOwner, DoomedApart, TasksAlone;
    var id := w.tasks[t].kind.upload;
    if IsUpload(w.rows, id, Staging) {
      var row := w.rows[UploadRow(id)].(state := Sendable);
      RowStaysApart(w.rows, Doomed(w), w.tasks, w.drawn, w.drawn, UploadRow(id), row);
      TasksStayApart(w.rows[UploadRow(id) := row], Doomed(w), w.tasks, w.drawn,
                     w.tasks[t := w.tasks[t].(phase := Done)], w.drawn);
      assert Own(w.tasks[t]) in w.objects + w.lost;
    } else {
      AdvanceKeepsInv(w, t, Undoing);
    }
  }

  lemma ListUploadKeepsInv(max: int, w: World, id: Id)
    requires Inv(w)
    ensures Inv(Apply(max, w, ListUpload(id)))
  {
    if IsUpload(w.rows, id, Deleting) {
      var x := w.rows[UploadRow(id)].file;
      assert Names(w.rows, UploadRow(id), x.key);
      assert Doomed(Apply(max, w, ListUpload(id))) == Doomed(w) + {x};
    }
  }

  lemma CleaningKeepsInv(max: int, w: World, a: Action)
    requires Inv(w) && (a.ListOrphan? || a.ClearOrphan? || a.StopCleaning? || a.Lose?)
    ensures Inv(Apply(max, w, a))
  {
    hide Names;
    assert Doomed(Apply(max, w, a)) <= Doomed(w);
  }

  lemma ClearUploadKeepsInv(max: int, w: World, id: Id)
    requires Inv(w)
    ensures Inv(Apply(max, w, ClearUpload(id)))
  {
    hide Known, OneOwner, DoomedApart, TasksAlone;
    RowsGoneStayApart(w.rows, Doomed(w), w.tasks, w.drawn, {UploadRow(id)});
  }

  lemma SendUploadKeepsInv(max: int, w: World, id: Id)
    requires Inv(w)
    ensures Inv(Apply(max, w, SendUpload(id)))
  {
    hide Known, OneOwner, DoomedApart, TasksAlone;
    if IsUpload(w.rows, id, Sendable) && AttachmentRow(id) !in w.rows {
      var u := w.rows[UploadRow(id)];
      var row := Attachment(Part(Ready, None, false, "", u.bytes, "", Some(u.file)), u.bytes);
      MovedRowStaysApart(w.rows, Doomed(w), w.tasks, w.drawn, w.drawn, UploadRow(id), AttachmentRow(id), row);
    }
  }

  function Before(rows: Rows, slot: RowId, photo: Option<Object>): set<Object> {
    if slot in rows && Blob(rows[slot]).Some? && Blob(rows[slot]) != photo then {Blob(rows[slot]).value} else {}
  }

  // Replacing a photo: the one before becomes an orphan.
  lemma PhotoStaysApart(rows: Rows, doomed: set<Object>, tasks: Tasks, drawn: set<Id>, slot: RowId,
                        photo: Option<Object>,
                        bytes: nat)
    requires Apart(rows, doomed, tasks, drawn) && slot.AvatarRow?
    requires Apart(rows[slot := Avatar(photo, bytes)], doomed, tasks, drawn)
    requires photo.Some? ==> forall r :: !Names(rows, r, photo.value.key)
    ensures Apart(rows[slot := Avatar(photo, bytes)], doomed + Before(rows, slot, photo), tasks, drawn)
  {
    hide Known, DoomedApart, TasksAlone;
    var after := rows[slot := Avatar(photo, bytes)];
    forall x | x in Before(rows, slot, photo)
      ensures Names(rows, slot, x.key) && (forall r :: !Names(after, r, x.key)) && x.key.PhotoKey?
    {
      assert Names(rows, slot, x.key);
      assert forall r :: Names(after, r, x.key) ==> Names(rows, r, x.key) && r != slot;
    }
    OrphansStayApart(rows, doomed, tasks, drawn, Before(rows, slot, photo), after);
  }

  lemma SavedAvatarOrphans(w: World, slot: RowId, photo: Option<Object>, bytes: nat)
    ensures SavedAvatar(w, slot, photo, bytes).orphans == w.orphans + Before(w.rows, slot, photo)
    ensures Doomed(SavedAvatar(w, slot, photo, bytes)) == Doomed(w) + Before(w.rows, slot, photo)
  {
  }

  lemma RecordedPhotoStaysApart(w: World, t: nat)
    requires Inv(w) && At(w, t, Stored) && w.tasks[t].kind.Fetch?
    ensures var task := w.tasks[t];
            && task.kind.slot.AvatarRow?
            && Apart(w.rows[task.kind.slot := Avatar(Some(Own(task)), task.size)],
                     Doomed(w) + Before(w.rows, task.kind.slot, Some(Own(task))),
                     w.tasks[t := task.(phase := Done)], w.drawn)
  {
    hide OneOwner, DoomedApart, Receiving, Present;
    var task := w.tasks[t];
    var done := w.tasks[t := task.(phase := Done)];
    assert forall r :: !Names(w.rows, r, Own(task).key);
    OwnRowStaysApart(w.rows, Doomed(w), w.tasks, w.drawn, t, task.kind.slot, Avatar(Some(Own(task)), task.size),
                     task.(phase := Done));
    TasksStayApart(w.rows, Doomed(w), w.tasks, w.drawn, done, w.drawn);
    PhotoStaysApart(w.rows, Doomed(w), done, w.drawn, task.kind.slot, Some(Own(task)), task.size);
  }

  lemma RecordFetchKeepsInv(w: World, t: nat)
    requires Inv(w) && At(w, t, Stored) && w.tasks[t].kind.Fetch?
    ensures Inv(Recorded(w, t))
  {
    hide Apart, Names;
    var task := w.tasks[t];
    RecordedPhotoStaysApart(w, t);
    SavedAvatarOrphans(w, task.kind.slot, Some(Own(task)), task.size);
    assert Own(task) in w.objects + w.lost;
  }

  lemma SaveMissingKeepsInv(max: int, w: World, slot: RowId)
    requires Inv(w)
    ensures Inv(Apply(max, w, SaveMissing(slot)))
  {
    hide Known, OneOwner, DoomedApart, TasksAlone;
    if slot.AvatarRow? {
      RowStaysApart(w.rows, Doomed(w), w.tasks, w.drawn, w.drawn, slot, Avatar(None, 0));
      PhotoStaysApart(w.rows, Doomed(w), w.tasks, w.drawn, slot, None, 0);
      SavedAvatarOrphans(w, slot, None, 0);
    }
  }

  lemma ClearAvatarsKeepsInv(max: int, w: World, account: Id)
    requires Inv(w)
    ensures Inv(Apply(max, w, ClearAvatars(account)))
  {
    hide Known, DoomedApart, TasksAlone;
    var gone := AvatarsOf(w, account);
    var after := w.rows - gone;
    RowsGoneStayApart(w.rows, Doomed(w), w.tasks, w.drawn, gone);
    forall x | x in Blobs(w, gone)
      ensures exists r :: Names(w.rows, r, x.key)
      ensures forall r :: !Names(after, r, x.key)
      ensures x.key.PhotoKey?
    {
      var q :| q in gone && Blob(w.rows[q]) == Some(x);
      assert Names(w.rows, q, x.key);
      assert forall r :: Names(after, r, x.key) ==> Names(w.rows, r, x.key) && r != q;
    }
    OrphansStayApart(w.rows, Doomed(w), w.tasks, w.drawn, Blobs(w, gone), after);
    assert Doomed(Apply(max, w, ClearAvatars(account))) == Doomed(w) + Blobs(w, gone);
  }

  lemma MergeIntoKeepsInv(max: int, w: World, source: Id, target: Id)
    requires Inv(w)
    ensures Inv(Apply(max, w, MergeInto(source, target)))
  {
    if Mergeable(w, source, target) {
      var stored := if IsAttachment(w.rows, target) then Some(w.rows[AttachmentRow(target)].part) else None;
      MergedPartBlob(stored, w.rows[AttachmentRow(source)].part);
      if w.rows[AttachmentRow(source)].part.blob.Some? && (stored.None? || stored.value.blob.None?) {
        AdoptKeepsInv(w, source, target);
      } else {
        ReleaseKeepsInv(w, source, target);
      }
    }
  }

  lemma MergedPartBlob(stored: Option<Part>, source: Part)
    requires PartGood(source) && (stored.Some? ==> PartGood(stored.value))
    ensures PartGood(MergedPart(stored, source))
    ensures MergedPart(stored, source).blob == if stored.Some? && stored.value.blob.Some? then stored.value.blob
            else source.blob
  {
  }

  lemma MergeTargetFree(w: World, source: Id, target: Id)
    requires Inv(w) && IsAttachment(w.rows, source) && (IsAttachment(w.rows, target) || target !in w.drawn)
    ensures forall t :: t in w.tasks && w.tasks[t].kind.Receive? && w.tasks[t].phase != Done ==>
            w.tasks[t].kind.upload != target
  {
    if target !in w.drawn {
      NotDrawn(w, target);
    }
    forall t | t in w.tasks && w.tasks[t].kind.Receive? && w.tasks[t].phase != Done
      ensures w.tasks[t].kind.upload != target
    {
      assert Own(w.tasks[t]).key.id == w.tasks[t].kind.upload;
    }
  }

  // The kept part takes over the object of the other.
  lemma AdoptKeepsInv(w: World, source: Id, target: Id)
    requires Inv(w) && Mergeable(w, source, target)
    requires w.rows[AttachmentRow(source)].part.blob.Some?
    requires (IsAttachment(w.rows, target) ==> w.rows[AttachmentRow(target)].part.blob.None?)
    ensures Inv(MergedInto(w, source, target))
  {
    hide Known, OneOwner, DoomedApart, TasksAlone;
    var w' := MergedInto(w, source, target);
    MergeTargetFree(w, source, target);
    var stored := if IsAttachment(w.rows, target) then Some(w.rows[AttachmentRow(target)].part) else None;
    MergedPartBlob(stored, w.rows[AttachmentRow(source)].part);
    assert ReleasedPart(stored, w.rows[AttachmentRow(source)].part) == {};
    assert Doomed(w') == Doomed(w);
    MovedRowStaysApart(w.rows, Doomed(w), w.tasks, w.drawn, w'.drawn, AttachmentRow(source), AttachmentRow(target),
                       w'.rows[AttachmentRow(target)]);
  }

  // The kept part keeps its own object, if it has one; the other's becomes an orphan.
  lemma ReleaseKeepsInv(w: World, source: Id, target: Id)
    requires Inv(w) && Mergeable(w, source, target)
    requires w.rows[AttachmentRow(source)].part.blob.None? ||
             (IsAttachment(w.rows, target) && w.rows[AttachmentRow(target)].part.blob.Some?)
    ensures Inv(MergedInto(w, source, target))
  {
    hide Known, DoomedApart, TasksAlone;
    var w' := MergedInto(w, source, target);
    MergeTargetFree(w, source, target);
    var from, to := AttachmentRow(source), AttachmentRow(target);
    var stored := if IsAttachment(w.rows, target) then Some(w.rows[to].part) else None;
    var released := ReleasedPart(stored, w.rows[from].part);
    MergedPartBlob(stored, w.rows[from].part);
    RowStaysApart(w.rows, Doomed(w), w.tasks, w.drawn, w'.drawn, to, w'.rows[to]);
    RowsGoneStayApart(w.rows[to := w'.rows[to]], Doomed(w), w.tasks, w'.drawn, {from});
    TasksStayApart(w.rows, Doomed(w), w.tasks, w.drawn, w.tasks, w'.drawn);
    forall x | x in released
      ensures Names(w.rows, from, x.key) && (forall r :: !Names(w'.rows, r, x.key))
      ensures (x.key.FileKey? ==> AttachmentRow(x.key.id) !in w'.rows)
    {
      assert Names(w.rows, from, x.key);
      assert forall r :: Names(w'.rows, r, x.key) ==> Names(w.rows, r, x.key) && r != from;
    }
    OrphansStayApart(w.rows, Doomed(w), w.tasks, w'.drawn, released, w'.rows);
    assert Doomed(w') == Doomed(w) + released;
  }

  lemma StepKeepsInv(max: int, w: World, a: Action)
    requires Inv(w)
    ensures Inv(Apply(max, w, a))
  {
    hide Apart, TasksApart, Receiving, Present, Used;
    match a
    case NewPart(id, part) => NewPartKeepsInv(max, w, id, part);
    case Describe(id, part) => DescribeKeepsInv(max, w, id, part);
    case Begin(t, kind, profile) => BeginKeepsInv(max, w, t, kind, profile);
    case Reserve(t, size) => ReserveKeepsInv(max, w, t, size);
    case CreateUpload(t) => CreateUploadKeepsInv(max, w, t);
    case Put(t) => PutKeepsInv(max, w, t);
    case PutFails(t, partly) => PutFailsKeepsInv(max, w, t, partly);
    case Record(t) =>
      if At(w, t, Stored) {
        match w.tasks[t].kind
        case Download(_) => RecordDownloadKeepsInv(w, t);
        case Receive(_) => RecordUploadKeepsInv(w, t);
        case Fetch(_, _) => RecordFetchKeepsInv(w, t);
      }
    case RecordFails(t) =>
      if At(w, t, Stored) {
        AdvanceKeepsInv(w, t, if w.tasks[t].kind.Download? then Unrecorded else Undoing);
      }
    case Reread(t) => if At(w, t, Unrecorded) && w.tasks[t].kind.Download? { AdvanceKeepsInv(w, t, Undoing); }
    case Undo(t) => UndoKeepsInv(max, w, t);
    case Finish(t) => FinishKeepsInv(max, w, t);
    case SendUpload(id) => SendUploadKeepsInv(max, w, id);
    case DropUpload(id) => DropKeepsInv(w, id);
    case SaveMissing(slot) => SaveMissingKeepsInv(max, w, slot);
    case ClearAvatars(account) => ClearAvatarsKeepsInv(max, w, account);
    case ListOrphan(_) => CleaningKeepsInv(max, w, a);
    case ListUpload(id) => ListUploadKeepsInv(max, w, id);
    case Erase(x) => EraseKeepsInv(max, w, x);
    case ClearOrphan(_) => CleaningKeepsInv(max, w, a);
    case ClearUpload(id) => ClearUploadKeepsInv(max, w, id);
    case StopCleaning => CleaningKeepsInv(max, w, a);
    case MergeInto(source, target) => MergeIntoKeepsInv(max, w, source, target);
    case MarkRemote(_) => MarkKeepsInv(max, w, a);
    case MarkUnavailable(_) => MarkKeepsInv(max, w, a);
    case UpdateRef(_, _) => MarkKeepsInv(max, w, a);
    case Lose(_) => CleaningKeepsInv(max, w, a);
    case Restart => RestartKeepsInv(max, w);
  }

  lemma {:induction false} RunKeepsInv(max: int, actions: seq<Action>)
    ensures Inv(Run(max, actions))
  {
    if actions != [] {
      RunKeepsInv(max, actions[..|actions| - 1]);
      StepKeepsInv(max, Run(max, actions[..|actions| - 1]), actions[|actions| - 1]);
    }
  }

  // Over every run, no cleanup deletes an object that an attachment, an upload or a photo still names, nor one
  // that a worker stored and is about to record.
  lemma NothingLiveIsDeleted(max: int, actions: seq<Action>, a: Action, r: RowId, t: nat)
    ensures var w := Run(max, actions);
            && (r in w.rows && Live(w.rows[r]) ==> Blob(w.rows[r]).value !in Deletes(w, a))
            && (At(w, t, Stored) && !w.tasks[t].kind.Receive? ==> Own(w.tasks[t]) !in Deletes(w, a))
  {
    hide Run, Apply, Inv;
    RunKeepsInv(max, actions);
    var w := Run(max, actions);
    match a
    case Erase(x) => if x in w.listed { EraseIsSafe(w, x); }
    case Undo(u) => if At(w, u, Undoing) && !w.tasks[u].kind.Receive? { UndoIsSafe(w, u); }
    case _ =>
  }

  // Over every run in which nothing outside the service removes objects, every object that a ready attachment,
  // a ready upload or a photo names is in the store.
  lemma EveryPromiseIsKept(max: int, actions: seq<Action>, r: RowId)
    requires forall a :: a in actions ==> !a.Lose?
    requires r in Run(max, actions).rows && Complete(Run(max, actions).rows[r])
    ensures Blob(Run(max, actions).rows[r]).value in Run(max, actions).objects
  {
    RunKeepsInv(max, actions);
    NothingLost(max, actions);
  }

  lemma {:induction false} NothingLost(max: int, actions: seq<Action>)
    requires forall a :: a in actions ==> !a.Lose?
    ensures Run(max, actions).lost == {}
  {
    if actions != [] {
      NothingLost(max, actions[..|actions| - 1]);
      LosesNothing(max, Run(max, actions[..|actions| - 1]), actions[|actions| - 1]);
    }
  }

  lemma LosesNothing(max: int, w: World, a: Action)
    requires !a.Lose?
    ensures Apply(max, w, a).lost <= w.lost
  {
  }

  // The objects that the database knows of.
  predicate Tracked(w: World, x: Object) {
    x in w.orphans || exists r :: r in w.rows && Blob(w.rows[r]) == Some(x)
  }

  // ClearUpload finds the row of an upload whose object was deleted.
  predicate Clears(w: World, id: Id, x: Object) {
    IsUpload(w.rows, id, Deleting) && w.rows[UploadRow(id)].file == x && x in w.erased
  }

  // A ready attachment names the object.
  predicate Marks(rows: Rows, id: Id, x: Object) {
    IsAttachment(rows, id) && rows[AttachmentRow(id)].part.availability == Ready &&
        Blob(rows[AttachmentRow(id)]) == Some(x)
  }

  // What a transaction may make the database forget: an object whose deletion it records, or the object of a ready
  // attachment, which it takes to be gone. Whether it is gone, storage_leaks.dfy and storage_readers.dfy say.
  predicate Forgets(w: World, a: Action, x: Object) {
    match a
    case ClearOrphan(y) => x == y && x in w.orphans && x in w.erased
    case ClearUpload(id) => Clears(w, id, x)
    case MarkRemote(id) => Marks(w.rows, id, x) && Refetchable(w.rows[AttachmentRow(id)].part)
    case MarkUnavailable(id) => Marks(w.rows, id, x)
    case _ => false
  }

  lemma NothingForgotten(max: int, w: World, a: Action, x: Object)
    requires Inv(w) && Tracked(w, x) && !Tracked(Apply(max, w, a), x)
    ensures Forgets(w, a, x)
  {
    hide Apply, Inv, Known, OneOwner, DoomedApart, TasksAlone, TasksApart, Receiving, Present;
    if x in w.orphans {
      OrphansOnlyGrow(max, w, a, x);
    } else {
      var r :| r in w.rows && Blob(w.rows[r]) == Some(x);
      match a
      case Record(t) => RecordForgetsNothing(max, w, t, r, x);
      case MergeInto(source, target) => MergeForgetsNothing(max, w, source, target, r, x);
      case _ => RowForgetsNothing(max, w, a, r, x);
    }
  }

  lemma OrphansOnlyGrow(max: int, w: World, a: Action, x: Object)
    requires x in w.orphans
    ensures x in Apply(max, w, a).orphans || (a == ClearOrphan(x) && x in w.erased)
  {
    hide Used;
  }

  predicate LeavesRows(a: Action) {
    a.Begin? || a.Reserve? || a.Put? || a.PutFails? || a.RecordFails? || a.Reread? || a.Finish? || a.ListOrphan? ||
        a.ListUpload? ||
    a.Erase? || a.ClearOrphan? || a.StopCleaning? || a.Lose? || a.Restart?
  }

  lemma RowsLeft(max: int, w: World, a: Action)
    requires LeavesRows(a)
    ensures Apply(max, w, a).rows == w.rows
  {
    hide Used;
  }

  lemma RowForgetsNothing(max: int, w: World, a: Action, r: RowId, x: Object)
    requires Inv(w) && r in w.rows && Blob(w.rows[r]) == Some(x) && !a.Record? && !a.MergeInto?
    ensures Tracked(Apply(max, w, a), x) || Forgets(w, a, x)
  {
    hide Apply, Inv, LeavesRows;
    if LeavesRows(a) {
      RowsLeft(max, w, a);
    } else {
      ChangedRowForgetsNothing(max, w, a, r, x);
    }
  }

  lemma ChangedRowForgetsNothing(max: int, w: World, a: Action, r: RowId, x: Object)
    requires Inv(w) && r in w.rows && Blob(w.rows[r]) == Some(x) && !a.Record? && !a.MergeInto? && !LeavesRows(a)
    ensures Tracked(Apply(max, w, a), x) || Forgets(w, a, x)
  {
    hide OneOwner, DoomedApart, TasksApart, Receiving, Present, Used, Doomed, Live, Complete;
    assert Names(w.rows, r, x.key);
    var w' := Apply(max, w, a);
    if r !in w'.rows || Blob(w'.rows[r]) != Some(x) {
      match a
      case SendUpload(id) => assert Blob(w'.rows[AttachmentRow(id)]) == Some(x);
      case _ =>
    }
  }

  lemma RecordForgetsNothing(max: int, w: World, t: nat, r: RowId, x: Object)
    requires Inv(w) && r in w.rows && Blob(w.rows[r]) == Some(x)
    ensures Tracked(Apply(max, w, Record(t)), x)
  {
    hide Known, OneOwner, DoomedApart, TasksAlone, TasksApart, Present, Used;
    var w' := Apply(max, w, Record(t));
    assert x in w'.orphans || (r in w'.rows && Blob(w'.rows[r]) == Some(x));
  }

  lemma MergeForgetsNothing(max: int, w: World, source: Id, target: Id, r: RowId, x: Object)
    requires Inv(w) && r in w.rows && Blob(w.rows[r]) == Some(x)
    ensures Tracked(Apply(max, w, MergeInto(source, target)), x)
  {
    hide Known, OneOwner, DoomedApart, TasksAlone, TasksApart, Receiving, Present, Used;
    var w' := Apply(max, w, MergeInto(source, target));
    if IsAttachment(w.rows, source) && w' != w {
      MergedPartBlob(if IsAttachment(w.rows, target) then Some(w.rows[AttachmentRow(target)].part) else None,
                     w.rows[AttachmentRow(source)].part);
    }
    var q := if r == AttachmentRow(source) && w' != w then AttachmentRow(target) else r;
    assert x in w'.orphans || Blob(w'.rows[q]) == Some(x);
  }

  // What changes the availability of an attachment: it becomes ready by its own download while it is remote, or by the
  // merge of a part that is ready; a ready one becomes remote only if it can be fetched again; and an unavailable one
  // becomes remote only by a new reference or a description that says so.
  lemma AvailabilityTurns(max: int, w: World, a: Action, id: Id)
    requires Inv(w) && IsAttachment(w.rows, id) && IsAttachment(Apply(max, w, a).rows, id)
    ensures var p, p' := w.rows[AttachmentRow(id)].part, Apply(max, w, a).rows[AttachmentRow(id)].part;
            && (p.availability != Ready && p'.availability == Ready ==>
                  || (a.Record? && At(w, a.t, Stored) && w.tasks[a.t].kind == Download(id) && p.availability == Remote)
                  || (a.MergeInto? && a.target == id && w.rows[AttachmentRow(a.source)].part.availability == Ready))
            && (p.availability == Ready && p'.availability == Remote ==> a == MarkRemote(id) && p.ref.Some?)
            && (p.availability != Unavailable && p'.availability == Unavailable ==> a == MarkUnavailable(id))
            && (p.availability == Unavailable && p'.availability == Remote ==>
                  || (a.UpdateRef? && a.id == id) || (a.Describe? && a.id == id && a.part.availability == Remote)
                  || (a.MergeInto? && a.target == id && w.rows[AttachmentRow(a.source)].part.availability == Remote))
            && (a == MarkUnavailable(id) ==> p'.availability == Unavailable && p'.blob == None)
            && (a == MarkRemote(id) && p.availability == Ready && p.ref.Some? ==>
                  p' == p.(availability := Remote, failure := "", blob := None))
  {
    hide OneOwner, DoomedApart, TasksAlone, TasksApart, Receiving, Present;
  }

  lemma RunThen(max: int, actions: seq<Action>, a: Action)
    ensures Run(max, actions + [a]) == Apply(max, Run(max, actions), a)
  {
    assert (actions + [a])[..|actions|] == actions;
  }
}
