// The statements behind those actions of storage.dfy that test, loop or sum, as the store and the quota counter run
// them: each method leaves the tables that its action names.
module StorageTables {
  import opened Links
  import opened MergeRows
  import opened Schema
  import opened Storage
  import opened Totals
  import opened Wrappers

  class Store {
    var rows: Rows
    var orphans: set<Object>
    var reserved: int

    ghost predicate Holds(w: World)
      reads this
    {
      rows == w.rows && orphans == w.orphans && reserved == w.reserved
    }

    // StoredMediaBytes: three sums over three tables.
    method StoredMediaBytes() returns (total: nat)
      ensures total == Total(Accounted(rows))
    {
      total := 0;
      var rest := rows.Keys;
      ghost var counted: Rows := map[];
      assert Accounted(counted) == map[];
      while rest != {}
        invariant rest <= rows.Keys && counted == rows - rest
        invariant total == Total(Accounted(counted))
        decreases rest
      {
        var r :| r in rest;
        rest := rest - {r};
        match rows[r] {
          case Attachment(part, stored) =>
            if part.availability == Ready {
              total := total + stored;
            }
          case Upload(_, _, bytes) =>
            total := total + bytes;
          case Avatar(photo, bytes) =>
            if photo.Some? {
              total := total + bytes;
            }
        }
        TotalUpdate(Accounted(counted), r, Bytes(rows[r]));
        assert Accounted(counted[r := rows[r]]) == Accounted(counted)[r := Bytes(rows[r])];
        counted := counted[r := rows[r]];
        assert counted == rows - rest;
      }
      assert rows - rest == rows;
    }

    // reserveMediaStorage, under the media mutex.
    method ReserveMediaStorage(max: int, size: nat, ghost w: World, ghost t: nat) returns (ok: bool)
      requires Holds(w) && At(w, t, Started)
      modifies this`reserved
      ensures Holds(Apply(max, w, Reserve(t, size)))
      ensures ok <==> At(Apply(max, w, Reserve(t, size)), t, Sized)
      ensures ok <==> Used(w) + old(reserved) + size <= max && Used(w) <= max && Used(w) + old(reserved) <= max
    {
      var used := StoredMediaBytes();
      var available := max - used;
      if available < 0 || reserved > available || size > available - reserved {
        return false;
      }
      reserved := reserved + size;
      ok := true;
    }

    method MarkUploadReady(id: Id, ghost max: int, ghost w: World, ghost t: nat) returns (ok: bool)
      requires Holds(w) && At(w, t, Stored) && w.tasks[t].kind == Receive(id)
      modifies this`rows
      ensures Holds(Apply(max, w, Record(t))) && (ok <==> At(Apply(max, w, Record(t)), t, Done))
      ensures ok <==> IsUpload(old(rows), id, Staging)
      ensures rows == if ok then old(rows)[UploadRow(id) := old(rows)[UploadRow(id)].(state := Sendable)] else old(rows)
    {
      ok := IsUpload(rows, id, Staging);
      if ok {
        rows := rows[UploadRow(id) := rows[UploadRow(id)].(state := Sendable)];
      }
    }

    method MarkUploadDeleting(id: Id, ghost max: int, ghost w: World) returns (ok: bool)
      requires Holds(w)
      modifies this`rows
      ensures Holds(Apply(max, w, DropUpload(id)))
      ensures (ok <==> IsUpload(old(rows), id, Sendable) || IsUpload(old(rows), id, Staging))
      ensures rows == if ok then old(rows)[UploadRow(id) := old(rows)[UploadRow(id)].(state := Deleting)] else old(rows)
    {
      ok := IsUpload(rows, id, Sendable) || IsUpload(rows, id, Staging);
      if ok {
        rows := rows[UploadRow(id) := rows[UploadRow(id)].(state := Deleting)];
      }
    }

    // The file of ReserveMediaSend: a new attachment row under the upload's ID, and the upload's row deleted. usable
    // tells whether the account and the expiry time, which rows leave out here, pass the test of the SELECT.
    method AttachUpload(id: Id, usable: bool, ghost max: int, ghost w: World) returns (ok: bool)
      requires Holds(w)
      modifies this`rows
      ensures Holds(if usable then Apply(max, w, SendUpload(id)) else w)
      ensures ok <==> usable && IsUpload(old(rows), id, Sendable) && AttachmentRow(id) !in old(rows)
      ensures !ok ==> rows == old(rows)
      ensures ok ==>
                var u, a := old(rows)[UploadRow(id)], AttachmentRow(id);
                && rows.Keys == old(rows).Keys - {UploadRow(id)} + {a}
                && (forall r :: r in rows && r != a ==> rows[r] == old(rows)[r])
                && rows[a].Attachment? && rows[a].stored == rows[a].part.size == u.bytes
                && rows[a].part.availability == Ready && rows[a].part.blob == Some(u.file) && rows[a].part.ref == None
    {
      ok := usable && IsUpload(rows, id, Sendable) && AttachmentRow(id) !in rows;
      if ok {
        var u := rows[UploadRow(id)];
        rows := rows[AttachmentRow(id) := Attachment(Part(Ready, None, false, "", u.bytes, "", Some(u.file)), u.bytes)];
        rows := rows - {UploadRow(id)};
      }
    }

    method MarkMediaReady(att: Id, x: Object, size: nat, ghost max: int, ghost w: World,
                          ghost t: nat) returns (ok: bool)
      requires Holds(w) && At(w, t, Stored) && w.tasks[t].kind == Download(att) && Own(w.tasks[t]) == x
      requires w.tasks[t].size == size
      modifies this`rows
      ensures Holds(Apply(max, w, Record(t))) && (ok <==> At(Apply(max, w, Record(t)), t, Done))
      ensures ok <==> IsAttachment(old(rows), att) && old(rows)[AttachmentRow(att)].part.availability == Remote
      ensures !ok ==> rows == old(rows)
      ensures ok ==>
                var part := old(rows)[AttachmentRow(att)].part.(availability := Ready, blob := Some(x), auto := false,
                                                                failure := "");
                rows == old(rows)[AttachmentRow(att) := Attachment(part, size)]
    {
      ok := IsAttachment(rows, att) && rows[AttachmentRow(att)].part.availability == Remote;
      if ok {
        var part := rows[AttachmentRow(att)].part;
        part := part.(availability := Ready, blob := Some(x), auto := false, failure := "");
        rows := rows[AttachmentRow(att) := Attachment(part, size)];
      }
    }

    // SaveAvatar: the previous photo goes to the orphans unless it stays.
    method SaveAvatar(slot: RowId, photo: Option<Object>, bytes: nat, ghost w: World)
      requires Holds(w)
      modifies this`rows, this`orphans
      ensures Holds(SavedAvatar(w, slot, photo, bytes))
      ensures rows == old(rows)[slot := Avatar(photo, bytes)]
      ensures forall x :: x in orphans <==>
                x in old(orphans) || (slot in old(rows) && Blob(old(rows)[slot]) == Some(x) && photo != Some(x))
    {
      if slot in rows {
        var previous := Blob(rows[slot]);
        if previous.Some? && previous != photo {
          orphans := orphans + {previous.value};
        }
      }
      rows := rows[slot := Avatar(photo, bytes)];
    }

    // ClearAccountAvatars: INSERT INTO media_orphans SELECT ..., then DELETE FROM avatars.
    method ClearAccountAvatars(account: Id, ghost max: int, ghost w: World)
      requires Holds(w)
      modifies this`rows, this`orphans
      ensures Holds(Apply(max, w, ClearAvatars(account)))
      ensures forall r :: r in rows <==> r in old(rows) && !(r.AvatarRow? && r.account == account)
      ensures forall r :: r in rows ==> rows[r] == old(rows)[r]
      ensures forall x :: x in orphans <==>
                || x in old(orphans)
                || exists r :: r in old(rows) && r.AvatarRow? && r.account == account && Blob(old(rows)[r]) == Some(x)
    {
      var mine := set r | r in rows && r.AvatarRow? && r.account == account;
      assert mine == AvatarsOf(w, account);
      var rest := mine;
      while rest != {}
        invariant rest <= mine && rows == w.rows && orphans == w.orphans + Blobs(w, mine - rest)
        decreases rest
      {
        var r :| r in rest;
        var left := rest - {r};
        var photo := Blob(rows[r]);
        assert mine - left == (mine - rest) + {r};
        BlobsGrow(w, mine - rest, r);
        if photo.Some? {
          orphans := orphans + {photo.value};
        }
        rest := left;
      }
      assert mine - rest == mine;
      rows := rows - mine;
    }

    // One part of mergeAttachmentsTx: the source's object moves, or goes to the orphans, or was none.
    method MergePart(source: Id, target: Id, ghost max: int, ghost w: World)
      requires Holds(w) && Typed(rows) && Mergeable(w, source, target)
      modifies this`rows, this`orphans
      ensures Holds(Apply(max, w, MergeInto(source, target)))
      ensures rows.Keys == old(rows).Keys - {AttachmentRow(source)} + {AttachmentRow(target)}
      ensures forall r :: r in rows && r != AttachmentRow(target) ==> rows[r] == old(rows)[r]
      ensures var from, to := Blob(old(rows)[AttachmentRow(source)]), Blob(rows[AttachmentRow(target)]);
              var had := if AttachmentRow(target) in old(rows) then Blob(old(rows)[AttachmentRow(target)]) else None;
              && to == (if had.Some? then had else from)
              && orphans == old(orphans) + (if from.Some? && had.Some? && from != had then {from.value} else {})
    {
      var from := rows[AttachmentRow(source)];
      var found: Option<Part>, stored := None, 0;
      if AttachmentRow(target) in rows {
        found, stored := Some(rows[AttachmentRow(target)].part), rows[AttachmentRow(target)].stored;
      }
      var part := SavedPart(found, Described(from.part));
      if found.None? || found.value.availability != Ready {
        stored := from.stored;
      }
      if from.part.availability == Ready {
        if part.availability != Ready || part.blob.None? {
          part := part.(availability := Ready, blob := from.part.blob);
        } else if part.blob != from.part.blob {
          orphans := orphans + {from.part.blob.value};
        }
      }
      rows := rows[AttachmentRow(target) := Attachment(part, stored)];
      rows := rows - {AttachmentRow(source)};
    }
  }

  lemma BlobsGrow(w: World, some: set<RowId>, r: RowId)
    requires r in w.rows
    ensures Blobs(w, some + {r}) == Blobs(w, some) + (if Blob(w.rows[r]).Some? then {Blob(w.rows[r]).value} else {})
  {
  }
}
