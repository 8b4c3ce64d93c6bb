// OpenMedia and processMedia where they take an attachment's object to be gone: a reader looks an attachment up, asks
// the object store, and then marks the row; a download marks it when the provider has nothing. In between anything
// else may happen, so a mark can forget an object that is in the store. Proved here: exactly when.
module StorageReaders {
  import opened MergeRows
  import opened Schema
  import opened Storage
  import opened StorageLeaks
  import opened Totals
  import opened Wrappers

  // A reader between GetMedia and its mark. kept: the row has named the object that was seen ever since. emptied: the
  // row was marked unavailable since. Neither is known to the program.
  datatype Look = Look(att: Id, seen: Object, version: nat, ref: bool, missed: bool, kept: bool, emptied: bool)

  // versions: media_version of the attachments, 0 for those not in the map.
  datatype Desk = Desk(w: World, versions: map<Id, nat>, looks: map<nat, Look>)

  datatype Step = Do(action: Action) | LookUp(r: nat, att: Id) | Open(r: nat) | Mark(r: nat) | FailDownload(t: nat)

  function Version(versions: map<Id, nat>, att: Id): nat {
    if att in versions then versions[att] else 0
  }

  function Bumped(versions: map<Id, nat>, att: Id): map<Id, nat> {
    versions[att := Version(versions, att) + 1]
  }

  // MarkMediaReady is about to write the row.
  predicate Readies(w: World, a: Action, att: Id) {
    && a.Record? && At(w, a.t, Stored) && w.tasks[a.t].kind == Download(att)
    && IsAttachment(w.rows, att) && w.rows[AttachmentRow(att)].part.availability == Remote
  }

  // MarkMediaRemote or MarkMediaUnavailable is about to empty the row.
  predicate Empties(w: World, a: Action, att: Id) {
    match a
    case MarkRemote(id) => id == att && IsAttachment(w.rows, att) && Refetchable(w.rows[AttachmentRow(att)].part)
    case MarkUnavailable(id) => id == att && IsAttachment(w.rows, att) &&
        w.rows[AttachmentRow(att)].part.availability != Unavailable
    case _ => false
  }

  ghost function Watched(l: Look, w: World, a: Action, after: World): Look {
    l.(kept := l.kept && Marks(after.rows, l.att, l.seen),
       emptied := l.emptied || (a.MarkUnavailable? && Empties(w, a, l.att)))
  }

  // A storage action, seen by every reader.
  ghost function Acted(max: int, d: Desk, a: Action): Desk {
    var w' := Apply(max, d.w, a);
    var versions := if a.Record? && At(d.w, a.t, Stored) && d.w.tasks[a.t].kind.Download? &&
        Readies(d.w, a, d.w.tasks[a.t].kind.att)
                    then Bumped(d.versions, d.w.tasks[a.t].kind.att)
                    else if a.MarkRemote? && Empties(d.w, a, a.id) then Bumped(d.versions, a.id)
                    else d.versions;
    Desk(w', versions, map r | r in d.looks :: Watched(d.looks[r], d.w, a, w'))
  }

  // The mark of a reader that missed the object: MarkMediaRemote checks the version it has read, MarkMediaUnavailable
  // does not.
  function MarkOf(d: Desk, l: Look): Option<Action> {
    if !l.missed then None
    else if !l.ref then Some(MarkUnavailable(l.att))
    else if Version(d.versions, l.att) == l.version then Some(MarkRemote(l.att))
    else None
  }

  ghost function Next(max: int, d: Desk, s: Step): Desk {
    match s
    case Do(a) =>
      if a.MarkRemote? || a.MarkUnavailable? then d
      else if a.Restart? then Acted(max, d, a).(looks := map[])
      else Acted(max, d, a)
    case LookUp(r, att) =>
      if r in d.looks || !IsAttachment(d.w.rows, att) then d
      else
        var part := d.w.rows[AttachmentRow(att)].part;
        if part.availability != Ready || part.blob.None? then d
        else d.(looks := d.looks[r := Look(att, part.blob.value, Version(d.versions, att), part.ref.Some?, false, true,
                                           false)])
    case Open(r) =>
      if r !in d.looks then d
      else if d.looks[r].seen in d.w.objects then d.(looks := d.looks - {r})
      else d.(looks := d.looks[r := d.looks[r].(missed := true)])
    case Mark(r) =>
      if r !in d.looks then d
      else if MarkOf(d, d.looks[r]).None? then d.(looks := d.looks - {r})
      else Acted(max, d.(looks := d.looks - {r}), MarkOf(d, d.looks[r]).value)
    case FailDownload(t) =>
      if !At(d.w, t, Started) || !d.w.tasks[t].kind.Download? then d
      else Acted(max, d, MarkUnavailable(d.w.tasks[t].kind.att))
  }

  ghost function Steps(max: int, steps: seq<Step>): Desk {
    if steps == [] then Desk(Start(), map[], map[]) else Next(max, Steps(max, steps[..|steps| - 1]), steps[|steps| - 1])
  }

  // No row, upload or worker will ever be about this attachment again.
  ghost predicate Retired(w: World, att: Id) {
    && att in w.drawn && AttachmentRow(att) !in w.rows && UploadRow(att) !in w.rows
    && forall t :: t in w.tasks && w.tasks[t].kind == Receive(att) ==> w.tasks[t].phase == Done
  }

  // What a reader may rely on. The object it missed is missing for as long as the row names it; and while the version
  // is the one it read, the row names it, is gone, or was marked unavailable.
  ghost predicate Trusted(w: World, versions: map<Id, nat>, l: Look) {
    && l.version <= Version(versions, l.att)
    && (l.kept ==> Marks(w.rows, l.att, l.seen) && (l.missed ==> l.seen !in w.objects))
    && (l.version == Version(versions, l.att) ==> l.kept || l.emptied || Retired(w, l.att))
  }

  ghost predicate Fair(d: Desk) {
    Sound(d.w) && forall r :: r in d.looks ==> Trusted(d.w, d.versions, d.looks[r])
  }

  lemma StepIsSound(max: int, w: World, a: Action)
    requires Sound(w)
    ensures Sound(Apply(max, w, a))
  {
    hide Apply, Inv, Unshared, Settled;
    StepKeepsInv(max, w, a);
    StepKeepsUnshared(max, w, a);
    StepKeepsSettled(max, w, a);
  }

  // A named object that is missing is not stored again.
  lemma NamedIsNotStored(w: World, a: Action, att: Id, x: Object)
    requires Sound(w) && Marks(w.rows, att, x)
    ensures !Stores(w, a, x)
  {
    hide Settled, Known, OneOwner, DoomedApart, TasksApart, Receiving, Present;
    assert Names(w.rows, AttachmentRow(att), x.key);
  }

  lemma RetiredStays(max: int, w: World, a: Action, att: Id)
    requires Inv(w) && Retired(w, att)
    ensures Retired(Apply(max, w, a), att)
  {
    hide Inv;
    ClearedRows(max, w, a, att);
    RetiredUploads(max, w, a, att);
  }

  lemma RetiredUploads(max: int, w: World, a: Action, att: Id)
    requires Inv(w) && Retired(w, att)
    ensures UploadRow(att) !in Apply(max, w, a).rows
    ensures var tasks := Apply(max, w, a).tasks; forall t :: t in tasks && tasks[t].kind == Receive(att) ==>
            tasks[t].phase == Done
  {
    hide Names, OneOwner, DoomedApart, TasksAlone, TasksApart, Receiving, Present, Used, MergedPart, ReleasedPart;
  }

  // How an attachment's row stops naming its object.
  lemma UnmarkedHow(max: int, w: World, a: Action, att: Id, x: Object)
    requires Inv(w) && Marks(w.rows, att, x) && !Marks(Apply(max, w, a).rows, att, x)
    ensures Empties(w, a, att) || Retired(Apply(max, w, a), att)
  {
    hide Apply, Inv, Empties, Marks;
    if !Empties(w, a, att) {
      KeptOrGone(max, w, a, att, x);
      GoneIsRetired(max, w, a, att);
    }
  }

  lemma KeptOrGone(max: int, w: World, a: Action, att: Id, x: Object)
    requires Inv(w) && Marks(w.rows, att, x) && !Empties(w, a, att)
    ensures Marks(Apply(max, w, a).rows, att, x) || AttachmentRow(att) !in Apply(max, w, a).rows
    ensures IsAttachment(w.rows, att)
  {
    hide OneOwner, DoomedApart, TasksAlone, TasksApart, Receiving, Present, Used, Names, ReleasedPart;
    assert RowGood(w.rows, AttachmentRow(att));
  }

  lemma GoneIsRetired(max: int, w: World, a: Action, att: Id)
    requires Inv(w) && IsAttachment(w.rows, att) && AttachmentRow(att) !in Apply(max, w, a).rows
    ensures Retired(Apply(max, w, a), att)
  {
    hide OneOwner, DoomedApart, TasksAlone, TasksApart, Present, Used, Names;
    assert RowGood(w.rows, AttachmentRow(att));
    assert a.MergeInto? && a.source == att;
  }

  predicate Bumps(w: World, a: Action, att: Id) {
    Readies(w, a, att) || (a.MarkRemote? && Empties(w, a, att))
  }

  lemma WatchedStaysTrusted(max: int, w: World, versions: map<Id, nat>, versions': map<Id, nat>, l: Look, a: Action)
    requires Sound(w) && Trusted(w, versions, l)
    requires Version(versions', l.att) == Version(versions, l.att) + if Bumps(w, a, l.att) then 1 else 0
    ensures Trusted(Apply(max, w, a), versions', Watched(l, w, a, Apply(max, w, a)))
  {
    hide Apply, Inv, Unshared, Settled, Readies, Empties, Marks, Retired, Stores, Removes;
    var w' := Apply(max, w, a);
    if l.kept {
      NamedIsNotStored(w, a, l.att, l.seen);
      StoreChanges(max, w, a, l.seen);
      if !Marks(w'.rows, l.att, l.seen) {
        UnmarkedHow(max, w, a, l.att, l.seen);
        EmptiedHow(w, a, l.att);
      }
    } else if Retired(w, l.att) {
      RetiredStays(max, w, a, l.att);
    }
  }

  lemma EmptiedHow(w: World, a: Action, att: Id)
    ensures Empties(w, a, att) ==> a.MarkRemote? || a.MarkUnavailable?
  {
  }

  lemma ActedIsFair(max: int, d: Desk, a: Action)
    requires Fair(d)
    ensures Fair(Acted(max, d, a))
  {
    hide Apply, Sound, Trusted, Empties;
    StepIsSound(max, d.w, a);
    var d' := Acted(max, d, a);
    forall r | r in d'.looks
      ensures Trusted(d'.w, d'.versions, d'.looks[r])
    {
      VersionsBump(max, d, a, d.looks[r].att);
      WatchedStaysTrusted(max, d.w, d.versions, d'.versions, d.looks[r], a);
    }
  }

  lemma VersionsBump(max: int, d: Desk, a: Action, att: Id)
    ensures Version(Acted(max, d, a).versions, att) == Version(d.versions, att) + if Bumps(d.w, a, att) then 1 else 0
  {
    hide Apply, Watched;
  }

  lemma NextIsFair(max: int, d: Desk, s: Step)
    requires Fair(d)
    ensures Fair(Next(max, d, s))
  {
    hide Acted, Sound, Apply;
    match s
    case Do(a) => ActedIsFair(max, d, a);
    case LookUp(r, att) =>
    case Open(r) =>
    case Mark(r) =>
      if r in d.looks && MarkOf(d, d.looks[r]).Some? {
        ActedIsFair(max, d.(looks := d.looks - {r}), MarkOf(d, d.looks[r]).value);
      }
    case FailDownload(t) =>
      if At(d.w, t, Started) && d.w.tasks[t].kind.Download? {
        ActedIsFair(max, d, MarkUnavailable(d.w.tasks[t].kind.att));
      }
  }

  lemma {:induction false} StepsAreFair(max: int, steps: seq<Step>)
    ensures Fair(Steps(max, steps))
  {
    hide Next, Trusted;
    if steps == [] {
      RunIsSound(max, []);
    } else {
      StepsAreFair(max, steps[..|steps| - 1]);
      NextIsFair(max, Steps(max, steps[..|steps| - 1]), steps[|steps| - 1]);
    }
  }

  ghost predicate Forgotten(before: World, after: World, x: Object) {
    Tracked(before, x) && !Tracked(after, x)
  }

  // In every run a reader's mark forgets the object that the row names then. It is in the store only if the row did
  // not name it ever since the reader looked, and where the version is checked only if the row was marked
  // unavailable since.
  lemma ReaderForgetsExactlyWhen(max: int, steps: seq<Step>, r: nat, x: Object)
    requires r in Steps(max, steps).looks
    ensures var d := Steps(max, steps); var l := d.looks[r];
            && (Forgotten(d.w, Next(max, d, Mark(r)).w, x) <==>
                  MarkOf(d, l).Some? && Marks(d.w.rows, l.att, x) &&
                      (l.ref ==> Refetchable(d.w.rows[AttachmentRow(l.att)].part)))
            && (Forgotten(d.w, Next(max, d, Mark(r)).w, x) && x in d.w.objects ==> !l.kept && (l.ref ==> l.emptied))
  {
    hide Apply, Sound, Steps, Marks, Refetchable, Tracked;
    StepsAreFair(max, steps);
    var d := Steps(max, steps);
    var l := d.looks[r];
    if MarkOf(d, l).Some? {
      MarkForgetsExactly(max, d.w, MarkOf(d, l).value, x);
      if l.kept && Marks(d.w.rows, l.att, x) {
        MarksOne(d.w.rows, l.att, l.seen, x);
      }
      if Marks(d.w.rows, l.att, x) {
        MarkedIsNotRetired(d.w, l.att, x);
      }
    }
  }

  lemma MarksOne(rows: Rows, att: Id, x: Object, y: Object)
    requires Marks(rows, att, x) && Marks(rows, att, y)
    ensures x == y
  {
  }

  lemma MarkedIsNotRetired(w: World, att: Id, x: Object)
    requires Marks(w.rows, att, x)
    ensures !Retired(w, att)
  {
  }

  lemma MarkForgetsExactly(max: int, w: World, a: Action, x: Object)
    requires Sound(w) && (a.MarkRemote? || a.MarkUnavailable?)
    ensures Forgotten(w, Apply(max, w, a), x) <==> Forgets(w, a, x)
  {
    hide Apply, Inv, Unshared, Settled, Marks, Refetchable, Held;
    if Forgets(w, a, x) {
      MarksTracks(w.rows, a.id, x);
      MarkingUncovers(max, w, a, x);
    } else if Forgotten(w, Apply(max, w, a), x) {
      NothingForgotten(max, w, a, x);
    }
  }

  lemma MarksTracks(rows: Rows, id: Id, x: Object)
    requires Marks(rows, id, x)
    ensures exists r :: r in rows && Blob(rows[r]) == Some(x)
  {
    assert AttachmentRow(id) in rows;
  }

  // In every run a download that the provider refuses forgets exactly the object that its attachment got meanwhile.
  lemma DownloadForgetsExactlyWhen(max: int, steps: seq<Step>, t: nat, x: Object)
    requires At(Steps(max, steps).w, t, Started) && Steps(max, steps).w.tasks[t].kind.Download?
    ensures var d := Steps(max, steps);
            Forgotten(d.w, Next(max, d, FailDownload(t)).w, x) <==> Marks(d.w.rows, d.w.tasks[t].kind.att, x)
  {
    hide Apply, Sound, Steps, Marks, Tracked;
    StepsAreFair(max, steps);
    var d := Steps(max, steps);
    MarkForgetsExactly(max, d.w, MarkUnavailable(d.w.tasks[t].kind.att), x);
  }

  // It does happen: while attachment 0 is downloaded, a merge hands it the object of attachment 1; the provider then
  // refuses the download, and the object stays in the store without any record.
  lemma RefusedDownloadForgets(max: nat, profile: string, ref: string) returns (steps: seq<Step>)
    ensures var d := Steps(max, steps); var x := Object(profile, FileKey(1));
            x in d.w.objects && !Tracked(d.w, x) && forall t :: t in d.w.tasks ==> Own(d.w.tasks[t]) != x
  {
    hide Run, Steps, Apply;
    var actions := MergedUnderDownload(max, profile, ref);
    AsSteps(max, actions);
    steps := ActionsDone(actions) + [FailDownload(1)];
    assert steps[..|steps| - 1] == ActionsDone(actions);
    StepsThen(max, ActionsDone(actions), FailDownload(1));
    RefusedAlone(max, Steps(max, ActionsDone(actions)), profile, ref);
  }

  function Remotely(ref: string): PartIn {
    PartIn(Remote, Some(ref), false, 0, "")
  }

  function Adopted(profile: string, ref: string): Part {
    Part(Ready, Some(ref), false, "", 0, "", Some(Object(profile, FileKey(1))))
  }

  lemma RefusedAlone(max: nat, d: Desk, profile: string, ref: string)
    requires d.w == World(map[AttachmentRow(0) := Attachment(Adopted(profile, ref), 0)], {},
                          {Object(profile, FileKey(1))}, {}, {0, 1},
                          map[1 := Task(Download(0), profile, Started, 0)], 0, {}, {})
    ensures var d' := Next(max, d, FailDownload(1)); var x := Object(profile, FileKey(1));
            x in d'.w.objects && !Tracked(d'.w, x) && forall t :: t in d'.w.tasks ==> Own(d'.w.tasks[t]) != x
  {
  }

  function ActionsDone(actions: seq<Action>): seq<Step> {
    seq(|actions|, i requires 0 <= i < |actions| => Do(actions[i]))
  }

  lemma StepsThen(max: int, steps: seq<Step>, s: Step)
    ensures Steps(max, steps + [s]) == Next(max, Steps(max, steps), s)
  {
    assert (steps + [s])[..|steps|] == steps;
  }

  lemma {:induction false} AsSteps(max: int, actions: seq<Action>)
    requires forall a :: a in actions ==> !a.MarkRemote? && !a.MarkUnavailable? && !a.Restart?
    ensures Steps(max, ActionsDone(actions)).w == Run(max, actions)
  {
    hide Apply;
    if actions != [] {
      var less, a := actions[..|actions| - 1], actions[|actions| - 1];
      AsSteps(max, less);
      assert ActionsDone(actions) == ActionsDone(less) + [Do(a)];
      StepsThen(max, ActionsDone(less), Do(a));
      assert actions == less + [a];
      RunThen(max, less, a);
    }
  }

  lemma MergedUnderDownload(max: nat, profile: string, ref: string) returns (actions: seq<Action>)
    ensures Run(max, actions) == World(map[AttachmentRow(0) := Attachment(Adopted(profile, ref), 0)], {},
                                       {Object(profile, FileKey(1))}, {}, {0, 1},
                                       map[1 := Task(Download(0), profile, Started, 0)], 0, {}, {})
    ensures forall a :: a in actions ==> !a.MarkRemote? && !a.MarkUnavailable? && !a.Restart?
  {
    hide Run, Used;
    var ready := ReadyAttachment(max, profile, ref);
    var made := ready + [NewPart(0, Remotely(ref))];
    RunThen(max, ready, NewPart(0, Remotely(ref)));
    var begun := made + [Begin(1, Download(0), profile)];
    RunThen(max, made, Begin(1, Download(0), profile));
    actions := begun + [MergeInto(1, 0)];
    RunThen(max, begun, MergeInto(1, 0));
  }

  lemma ReadyAttachment(max: nat, profile: string, ref: string) returns (actions: seq<Action>)
    ensures Run(max, actions) == World(map[AttachmentRow(1) := Attachment(Adopted(profile, ref), 0)], {},
                                       {Object(profile, FileKey(1))}, {}, {1},
                                       map[], 0, {}, {})
    ensures forall a :: a in actions ==> !a.MarkRemote? && !a.MarkUnavailable? && !a.Restart?
  {
    hide Run, Used;
    var sized := SizedDownload(max, profile, ref);
    var stored := sized + [Put(0)];
    RunThen(max, sized, Put(0));
    var recorded := stored + [Record(0)];
    RunThen(max, stored, Record(0));
    actions := recorded + [Finish(0)];
    RunThen(max, recorded, Finish(0));
  }

  lemma SizedDownload(max: nat, profile: string, ref: string) returns (actions: seq<Action>)
    ensures Run(max, actions) == World(map[AttachmentRow(1) := Attachment(SavedPart(None, Remotely(ref)), 0)], {}, {},
                                       {}, {1},
                                       map[0 := Task(Download(1), profile, Sized, 0)], 0, {}, {})
    ensures forall a :: a in actions ==> !a.MarkRemote? && !a.MarkUnavailable? && !a.Restart?
  {
    hide Used;
    var made := [NewPart(1, Remotely(ref))];
    RunThen(max, [], made[0]);
    assert [] + made == made;
    var begun := made + [Begin(0, Download(1), profile)];
    RunThen(max, made, Begin(0, Download(1), profile));
    NothingUsed(Run(max, begun), SavedPart(None, Remotely(ref)));
    actions := begun + [Reserve(0, 0)];
    RunThen(max, begun, Reserve(0, 0));
  }

  lemma NothingUsed(w: World, part: Part)
    requires w.rows == map[AttachmentRow(1) := Attachment(part, 0)]
    ensures Used(w) == 0
  {
    var empty: map<RowId, nat> := map[];
    TotalUpdate(empty, AttachmentRow(1), 0);
    assert Accounted(w.rows) == empty[AttachmentRow(1) := 0];
  }
}
