// The fence around photo fetches: avatars.go next to the account machine. avatars.mu guards the epochs and is
// held from a commit's checks to the end of its database write; the account's own locks are not.
module AvatarFence {
  import opened Account
  import opened Wrappers

  type Person = string

  // epoch: what was read before the provider was asked; None before that.
  datatype Fetch = Fetch(person: Person, session: Session, epoch: Option<nat>)

  // photo: None records that there is none. session and epoch: who wrote it, for the history only.
  datatype Row = Row(photo: Option<nat>, session: Option<Session>, epoch: nat)

  datatype Lock = Unlocked | Saving(f: nat, photo: Option<nat>) | Removing(person: Person, epoch: nat)

  // told: the epoch that the photo event being handled got from invalidateAvatar. removals: the epoch of the last
  // recorded removal, by person. quiet: a logout cleared the rows, and no session was installed since.
  datatype Fence = Fence(account: Account.World, epochs: map<Person, nat>, fetches: map<nat, Fetch>,
                         rows: map<Person, Row>, lock: Lock,
                         told: Option<nat>, removals: map<Person, nat>, quiet: bool)

  datatype Step =
    | Base(a: Account.Action)
    | StartFetch(f: nat, person: Person)
    | ReadEpoch(f: nat)
    | Check(f: nat, photo: Option<nat>)
    | Save(ok: bool)
    | GiveUp(f: nat)
    | Invalidate
    | CheckRemoval
    | ClearAfterLogout(ok: bool)
    | ClearForLogin(t: nat, ok: bool)

  function EpochOf(epochs: map<Person, nat>, person: Person): nat {
    if person in epochs then epochs[person] else 0
  }

  // An event about photos is handled up to its last step before the account machine goes on.
  predicate Allowed(w: Fence, a: Account.Action) {
    a.Step? && w.account.c.holder.Entered? && w.account.c.holder.event.AvatarEvent? ==>
        w.told.Some? && !w.lock.Removing?
  }

  function Written(w: Fence, ok: bool): Fence {
    match w.lock
    case Unlocked => w
    case Saving(f, photo) =>
      if f !in w.fetches || w.fetches[f].epoch.None? then w.(lock := Unlocked)
      else
        var row := Row(photo, Some(w.fetches[f].session), w.fetches[f].epoch.value);
        w.(lock := Unlocked, fetches := w.fetches - {f},
           rows := if ok then w.rows[w.fetches[f].person := row] else w.rows)
    case Removing(person, epoch) =>
      if ok then w.(lock := Unlocked, rows := w.rows[person := Row(None, None, epoch)],
                    removals := w.removals[person := epoch])
      else w.(lock := Unlocked)
  }

  function Advance(w: Fence, s: Step): Fence {
    match s
    case Base(a) =>
      if !Allowed(w, a) then w
      else
        var account := Account.Apply(w.account, a);
        w.(account := account, told := if account.c.holder.Free? then None else w.told,
           quiet := w.quiet && account.c.session.None?)
    case StartFetch(f, person) =>
      if f in w.fetches || w.account.c.state != Connected || w.account.c.session.None? then w
      else w.(fetches := w.fetches[f := Fetch(person, w.account.c.session.value, None)])
    case ReadEpoch(f) =>
      if f !in w.fetches || w.fetches[f].epoch.Some? || !w.lock.Unlocked? then w
      else w.(fetches := w.fetches[f := w.fetches[f].(epoch := Some(EpochOf(w.epochs, w.fetches[f].person)))])
    case Check(f, photo) =>
      if f !in w.fetches || w.fetches[f].epoch.None? || !w.lock.Unlocked? then w
      else if w.fetches[f].epoch.value == EpochOf(w.epochs, w.fetches[f].person) && w.account.c.state == Connected &&
              w.account.c.session == Some(w.fetches[f].session) then w.(lock := Saving(f, photo))
      else w.(fetches := w.fetches - {f})
    case Save(ok) => Written(w, ok)
    case GiveUp(f) => if w.lock.Saving? && w.lock.f == f then w else w.(fetches := w.fetches - {f})
    case Invalidate =>
      var holder := w.account.c.holder;
      if !holder.Entered? || !holder.event.AvatarEvent? || w.told.Some? || !w.lock.Unlocked? then w
      else
        var epoch := EpochOf(w.epochs, holder.event.person) + 1;
        w.(epochs := w.epochs[holder.event.person := epoch], told := Some(epoch))
    case CheckRemoval =>
      var holder := w.account.c.holder;
      if !holder.Entered? || !holder.event.AvatarEvent? || !holder.event.removed || w.told.None? || !w.lock.Unlocked?
          then w
      else if EpochOf(w.epochs, holder.event.person) == w.told.value && w.account.c.session.Some? &&
          w.account.c.identity != ""
      then w.(lock := Removing(holder.event.person, w.told.value)) else w
    case ClearAfterLogout(ok) =>
      if !w.account.c.holder.LoggedOutCleared? || !w.lock.Unlocked? || !ok then w
      else w.(rows := map[], quiet := w.account.c.session.None?)
    case ClearForLogin(t, ok) =>
      if t !in w.account.starts || w.account.starts[t] != Claimed || !w.lock.Unlocked? || !ok then w
          else w.(rows := map[])
  }

  function Go(w: Fence, steps: seq<Step>): Fence
    decreases |steps|
  {
    if steps == [] then w else Go(Advance(w, steps[0]), steps[1..])
  }

  // Epochs only grow, nothing is written under an epoch that has passed, and a photo is never older than the last
  // removal. Sessions that rows, fetches or the account name are known to the account machine.
  ghost predicate EpochsGood(epochs: map<Person, nat>, rows: map<Person, Row>, removals: map<Person, nat>,
                             fetches: map<nat, Fetch>) {
    && (forall p :: p in rows ==> rows[p].epoch <= EpochOf(epochs, p))
    && (forall p :: p in removals ==> removals[p] <= EpochOf(epochs, p))
    && (forall p :: p in rows && p in removals && rows[p].photo.Some? ==> removals[p] <= rows[p].epoch)
    && (forall f :: f in fetches && fetches[f].epoch.Some? ==>
        fetches[f].epoch.value <= EpochOf(epochs, fetches[f].person))
  }

  predicate LockGood(lock: Lock, fetches: map<nat, Fetch>, epochs: map<Person, nat>) {
    match lock
    case Unlocked => true
    case Saving(f, _) => f in fetches && fetches[f].epoch == Some(EpochOf(epochs, fetches[f].person))
    case Removing(p, epoch) => epoch == EpochOf(epochs, p)
  }

  predicate SessionsGood(w: Fence) {
    && (w.account.c.session.Some? ==> w.account.c.session.value in w.account.identities)
    && (w.quiet ==> w.account.c.session.None? && w.rows == map[] && w.lock.Unlocked?)
  }

  ghost predicate FenceInv(w: Fence) {
    EpochsGood(w.epochs, w.rows, w.removals, w.fetches) && LockGood(w.lock, w.fetches, w.epochs) && SessionsGood(w)
  }

  function FenceStart(identity: string): Fence {
    Fence(Booted(identity), map[], map[], map[], Unlocked, None, map[], false)
  }

  lemma SessionsAreKnown(w: Account.World, a: Account.Action)
    requires w.c.session.Some? ==> w.c.session.value in w.identities
    ensures w.identities.Keys <= Account.Apply(w, a).identities.Keys
    ensures var w' := Account.Apply(w, a); w'.c.session.Some? ==>
            w'.c.session == w.c.session || (w'.c.session.value in w'.identities && w'.c.session.value !in w.identities)
  {
    hide Handled;
    match a
    case Step(ok) => SteppedKeepsSession(w.c, w.identities, ok);
    case _ =>
  }

  lemma SteppedKeepsSession(c: Connection, identities: map<Session, string>, ok: bool)
    ensures Stepped(c, identities, ok).session in {c.session, None}
  {
  }

  lemma BaseKeepsInv(w: Fence, a: Account.Action)
    requires FenceInv(w)
    ensures FenceInv(Advance(w, Base(a)))
  {
    hide Account.Apply, EpochsGood, LockGood;
    SessionsAreKnown(w.account, a);
  }

  lemma WrittenKeepsInv(w: Fence, ok: bool)
    requires FenceInv(w)
    ensures FenceInv(Written(w, ok))
  {
  }

  lemma InvalidateKeepsInv(w: Fence)
    requires FenceInv(w)
    ensures FenceInv(Advance(w, Invalidate))
  {
    hide Written;
  }

  lemma FetchKeepsInv(w: Fence, s: Step)
    requires FenceInv(w) && (s.StartFetch? || s.ReadEpoch? || s.GiveUp?)
    ensures FenceInv(Advance(w, s))
  {
    hide Account.Apply, Written;
  }

  lemma CheckKeepsInv(w: Fence, s: Step)
    requires FenceInv(w) && (s.Check? || s.CheckRemoval? || s.ClearAfterLogout? || s.ClearForLogin?)
    ensures FenceInv(Advance(w, s))
  {
    hide Account.Apply, Written;
  }

  // A fetched photo is about to be written exactly if nothing was announced about the person since its epoch was read
  // and the account is connected under the session that fetched it; otherwise it is dropped.
  lemma CheckPassesExactlyWhen(w: Fence, f: nat, photo: Option<nat>)
    requires f in w.fetches && w.fetches[f].epoch.Some? && w.lock.Unlocked?
    ensures var w', fetch := Advance(w, Check(f, photo)), w.fetches[f];
            if (if fetch.person in w.epochs then w.epochs[fetch.person] else 0) == fetch.epoch.value &&
               w.account.c.state == Connected && w.account.c.session == Some(fetch.session)
            then w' == w.(lock := Saving(f, photo))
            else w' == w.(fetches := w.fetches - {f})
  {
  }

  lemma AdvanceKeepsInv(w: Fence, s: Step)
    requires FenceInv(w)
    ensures FenceInv(Advance(w, s))
  {
    hide FenceInv, Advance;
    match s
    case Base(a) => BaseKeepsInv(w, a);
    case Save(ok) => SaveKeepsInv(w, ok);
    case Invalidate => InvalidateKeepsInv(w);
    case StartFetch(_, _) => FetchKeepsInv(w, s);
    case ReadEpoch(_) => FetchKeepsInv(w, s);
    case GiveUp(_) => FetchKeepsInv(w, s);
    case _ => CheckKeepsInv(w, s);
  }

  lemma SaveKeepsInv(w: Fence, ok: bool)
    requires FenceInv(w)
    ensures FenceInv(Advance(w, Save(ok)))
  {
    hide FenceInv, Written;
    WrittenKeepsInv(w, ok);
  }

  lemma {:induction false} GoKeepsInv(w: Fence, steps: seq<Step>)
    requires FenceInv(w)
    ensures FenceInv(Go(w, steps))
    decreases |steps|
  {
    hide FenceInv, Advance;
    if steps != [] {
      AdvanceKeepsInv(w, steps[0]);
      GoKeepsInv(Advance(w, steps[0]), steps[1..]);
    }
  }

  // Everything written since a moment was written by a fetch, or for a removal, that read its epoch no earlier
  // than the last invalidation before that moment.
  ghost predicate Fenced(epochs: map<Person, nat>, rows: map<Person, Row>, w: Fence) {
    && (forall p :: EpochOf(epochs, p) <= EpochOf(w.epochs, p))
    && (forall p :: p in w.rows ==> (p in rows && w.rows[p] == rows[p]) || w.rows[p].epoch >= EpochOf(epochs, p))
  }

  lemma AdvanceKeepsFenced(epochs: map<Person, nat>, rows: map<Person, Row>, w: Fence, s: Step)
    requires FenceInv(w) && Fenced(epochs, rows, w)
    ensures Fenced(epochs, rows, Advance(w, s))
  {
    hide Account.Apply, EpochsGood, SessionsGood;
  }

  lemma {:induction false} GoKeepsFenced(epochs: map<Person, nat>, rows: map<Person, Row>, w: Fence, steps: seq<Step>)
    requires FenceInv(w) && Fenced(epochs, rows, w)
    ensures Fenced(epochs, rows, Go(w, steps))
    decreases |steps|
  {
    hide FenceInv, Fenced, Advance;
    if steps != [] {
      AdvanceKeepsInv(w, steps[0]);
      AdvanceKeepsFenced(epochs, rows, w, steps[0]);
      GoKeepsFenced(epochs, rows, Advance(w, steps[0]), steps[1..]);
    }
  }

  // A fetch that read its epoch before an invalidation never writes a row, whatever follows.
  lemma PassedEpochsNeverCommit(identity: string, before: seq<Step>, after: seq<Step>, p: Person)
    ensures var w, w' := Go(FenceStart(identity), before), Go(Go(FenceStart(identity), before), after);
            p in w'.rows && !(p in w.rows && w'.rows[p] == w.rows[p]) ==> w'.rows[p].epoch >= EpochOf(w.epochs, p)
  {
    hide FenceInv, Advance;
    FenceStartsGood(identity);
    GoKeepsInv(FenceStart(identity), before);
    var w := Go(FenceStart(identity), before);
    GoKeepsFenced(w.epochs, w.rows, w, after);
  }

  lemma FenceStartsGood(identity: string)
    ensures FenceInv(FenceStart(identity))
  {
  }

  // A removed photo only comes back from a fetch that began after the removal was announced.
  lemma RemovedPhotosStayRemoved(identity: string, steps: seq<Step>, p: Person)
    ensures var w := Go(FenceStart(identity), steps);
            p in w.rows && w.rows[p].photo.Some? && p in w.removals ==> w.removals[p] <= w.rows[p].epoch
  {
    FenceStartsGood(identity);
    GoKeepsInv(FenceStart(identity), steps);
  }

  // No old session is the account's or has a commit under way, and rows of old sessions were there before.
  ghost predicate Renewed(past: set<Session>, rows: map<Person, Row>, w: Fence) {
    && past <= w.account.identities.Keys
    && (w.account.c.session.Some? ==> w.account.c.session.value !in past)
    && (forall p :: p in w.rows && w.rows[p].session.Some? && w.rows[p].session.value in past ==>
        p in rows && rows[p] == w.rows[p])
    && (w.lock.Saving? && w.lock.f in w.fetches ==> w.fetches[w.lock.f].session !in past)
  }

  lemma BaseKeepsRenewed(past: set<Session>, rows: map<Person, Row>, w: Fence, a: Account.Action)
    requires FenceInv(w) && Renewed(past, rows, w)
    ensures Renewed(past, rows, Advance(w, Base(a)))
  {
    hide Account.Apply, EpochsGood, LockGood;
    SessionsAreKnown(w.account, a);
  }

  lemma AdvanceKeepsRenewed(past: set<Session>, rows: map<Person, Row>, w: Fence, s: Step)
    requires FenceInv(w) && Renewed(past, rows, w)
    ensures Renewed(past, rows, Advance(w, s))
  {
    hide Account.Apply, EpochsGood, EpochOf;
    match s
    case Base(a) => BaseKeepsRenewed(past, rows, w, a);
    case _ =>
  }

  lemma {:induction false} GoKeepsRenewed(past: set<Session>, rows: map<Person, Row>, w: Fence, steps: seq<Step>)
    requires FenceInv(w) && Renewed(past, rows, w)
    ensures Renewed(past, rows, Go(w, steps))
    decreases |steps|
  {
    hide FenceInv, Renewed, Advance;
    if steps != [] {
      AdvanceKeepsInv(w, steps[0]);
      AdvanceKeepsRenewed(past, rows, w, steps[0]);
      GoKeepsRenewed(past, rows, Advance(w, steps[0]), steps[1..]);
    }
  }

  // A session that is no longer the account's and is not between the check and the write of a commit never writes a
  // row again, in any run; why it stopped being the account's makes no difference.
  lemma PastSessionsNeverCommit(identity: string, before: seq<Step>, after: seq<Step>, past: set<Session>, p: Person)
    requires var w := Go(FenceStart(identity), before);
             && past <= w.account.identities.Keys
             && (w.account.c.session.Some? ==> w.account.c.session.value !in past)
             && (w.lock.Saving? && w.lock.f in w.fetches ==> w.fetches[w.lock.f].session !in past)
    ensures var w, w' := Go(FenceStart(identity), before), Go(Go(FenceStart(identity), before), after);
            p in w'.rows && w'.rows[p].session.Some? && w'.rows[p].session.value in past ==>
                p in w.rows && w.rows[p] == w'.rows[p]
  {
    hide Advance, FenceInv;
    FenceStartsGood(identity);
    var w := Go(FenceStart(identity), before);
    GoKeepsInv(FenceStart(identity), before);
    GoKeepsRenewed(past, w.rows, w, after);
  }

  // Once a logout has cleared the rows there are none until a session is installed, and none of a session from
  // before the logout ever again.
  lemma LogoutClearsForGood(identity: string, before: seq<Step>, after: seq<Step>, p: Person)
    requires Go(FenceStart(identity), before).quiet
    ensures var w, w' := Go(FenceStart(identity), before), Go(Go(FenceStart(identity), before), after);
            && (w'.quiet ==> w'.rows == map[])
            && (p in w'.rows && w'.rows[p].session.Some? ==> w'.rows[p].session.value !in w.account.identities)
  {
    hide Advance, EpochsGood, LockGood;
    FenceStartsGood(identity);
    var w := Go(FenceStart(identity), before);
    GoKeepsInv(FenceStart(identity), before);
    GoKeepsInv(w, after);
    GoKeepsRenewed(w.account.identities.Keys, map[], w, after);
  }

  predicate Drops(c: Connection) {
    c.holder == Entered(LoggedOutEvent) || (c.holder.FinishingPersisted? && c.holder.failed && !c.holder.paired)
  }

  // The steps by which the account gets another session or loses its own. None of them takes avatars.mu.
  predicate Replaces(w: Account.World, s: Step) {
    s.Base? &&
    match s.a
    case StartInstalls(t, session) => t in w.starts && w.starts[t] == Bumped && session !in w.identities
    case Open(session, _) => session !in w.identities
    case Step(_) => w.c.session.Some? && Drops(w.c)
    case _ => false
  }

  ghost predicate ReplacedAt(w: Fence, steps: seq<Step>, k: int) {
    0 <= k < |steps| && Replaces(Go(w, steps[..k]).account, steps[k])
  }

  // A commit between its check and its write: the session it was checked for.
  predicate Committing(w: Fence, f: nat, photo: Option<nat>, session: Session) {
    w.lock == Saving(f, photo) && f in w.fetches && w.fetches[f].epoch.Some? && w.fetches[f].session == session
  }

  lemma CommittingStays(w: Fence, s: Step, f: nat, photo: Option<nat>, session: Session)
    requires Committing(w, f, photo, session) && !s.Save?
    ensures var w' := Advance(w, s); Committing(w', f, photo, session) && w'.fetches[f] == w.fetches[f]
  {
    hide Account.Apply;
  }

  lemma SteppedDrops(c: Connection, identities: map<Session, string>, ok: bool)
    ensures Stepped(c, identities, ok).session == if Drops(c) then None else c.session
  {
  }

  lemma AppliedReplaces(w: Account.World, a: Account.Action, session: Session)
    requires w.c.session.Some? ==> w.c.session.value in w.identities
    requires session in w.identities
    ensures w.c.session == Some(session) ==> (Account.Apply(w, a).c.session == Some(session) <==> !Replaces(w, Base(a)))
    ensures w.c.session != Some(session) ==> Account.Apply(w, a).c.session != Some(session)
  {
    hide Stepped;
    match a
    case Step(ok) => SteppedDrops(w.c, w.identities, ok);
    case _ =>
  }

  // A session that was replaced does not come back.
  lemma SessionReplaced(w: Fence, s: Step, session: Session)
    requires SessionsGood(w) && session in w.account.identities
    ensures session in Advance(w, s).account.identities
    ensures w.account.c.session == Some(session) ==>
            (Advance(w, s).account.c.session == Some(session) <==> !Replaces(w.account, s))
    ensures w.account.c.session != Some(session) ==> Advance(w, s).account.c.session != Some(session)
  {
    hide Account.Apply;
    match s
    case Base(a) =>
      SessionsAreKnown(w.account, a);
      AppliedReplaces(w.account, a, session);
    case _ =>
  }

  lemma {:induction false} CommitRuns(w: Fence, steps: seq<Step>, f: nat, photo: Option<nat>, session: Session)
    requires FenceInv(w) && Committing(w, f, photo, session) && session in w.account.identities
    requires forall s :: s in steps ==> !s.Save?
    ensures var w' := Go(w, steps); Committing(w', f, photo, session) && w'.fetches[f] == w.fetches[f]
    ensures w.account.c.session == Some(session) ==>
              (Go(w, steps).account.c.session == Some(session) <==> forall k :: !ReplacedAt(w, steps, k))
    ensures w.account.c.session != Some(session) ==> Go(w, steps).account.c.session != Some(session)
    decreases |steps|
  {
    hide FenceInv, Advance, Committing, Replaces;
    if steps != [] {
      assert steps[0] in steps;
      AdvanceKeepsInv(w, steps[0]);
      InvKnowsSessions(w);
      SessionReplaced(w, steps[0], session);
      CommittingStays(w, steps[0], f, photo, session);
      CommitRuns(Advance(w, steps[0]), steps[1..], f, photo, session);
      ReplacedLater(w, steps);
    }
  }

  lemma InvKnowsSessions(w: Fence)
    requires FenceInv(w)
    ensures SessionsGood(w)
  {
  }

  lemma ReplacedLater(w: Fence, steps: seq<Step>)
    requires steps != []
    ensures (exists k :: ReplacedAt(w, steps, k)) <==>
            Replaces(w.account, steps[0]) || exists k :: ReplacedAt(Advance(w, steps[0]), steps[1..], k)
  {
    hide Advance, Replaces;
    forall k | 0 < k < |steps|
      ensures ReplacedAt(w, steps, k) <==> ReplacedAt(Advance(w, steps[0]), steps[1..], k - 1)
    {
      assert steps[..k][0] == steps[0] && steps[..k][1..] == steps[1..][..k - 1];
    }
    assert ReplacedAt(w, steps, 0) <==> Replaces(w.account, steps[0]);
    if k :| ReplacedAt(Advance(w, steps[0]), steps[1..], k) {
      assert ReplacedAt(w, steps, k + 1);
    }
  }

  // A commit that passed its check writes its row whatever happens before, and the row belongs to a session that is
  // not the account's exactly when one of these steps came between the check and the write.
  lemma CommitIsStaleExactlyWhen(identity: string, before: seq<Step>, f: nat, photo: Option<nat>, more: seq<Step>)
    requires var w := Go(FenceStart(identity), before);
             w.lock.Unlocked? && Advance(w, Check(f, photo)).lock == Saving(f, photo)
    requires forall s :: s in more ==> !s.Save?
    ensures var w := Go(FenceStart(identity), before);
            var checked := Advance(w, Check(f, photo));
            var w' := Advance(Go(checked, more), Save(true));
            var p := w.fetches[f].person;
            && p in w'.rows && w'.rows[p] == Row(photo, w.account.c.session, EpochOf(w.epochs, p)) &&
               w.account.c.session.Some?
            && (w'.rows[p].session != w'.account.c.session <==> exists k :: ReplacedAt(checked, more, k))
  {
    hide FenceInv, ReplacedAt;
    FenceStartsGood(identity);
    GoKeepsInv(FenceStart(identity), before);
    var w := Go(FenceStart(identity), before);
    InvKnowsSessions(w);
    AdvanceKeepsInv(w, Check(f, photo));
    var session := w.account.c.session.value;
    CommitRuns(Advance(w, Check(f, photo)), more, f, photo, session);
  }

  function Bases(actions: seq<Account.Action>): seq<Step> {
    seq(|actions|, i requires 0 <= i < |actions| => Base(actions[i]))
  }

  predicate NoPhoto(c: Connection) {
    c.holder.Entered? ==> !c.holder.event.AvatarEvent?
  }

  // Without photo events the account machine runs as it does alone.
  lemma {:induction false} BasesRun(w: Fence, actions: seq<Account.Action>)
    requires NoPhoto(w.account.c) && w.told.None? && !w.quiet
    requires forall a :: a in actions ==> !a.Deliver? || !a.event.AvatarEvent?
    ensures Go(w, Bases(actions)) == w.(account := Account.Run(w.account, actions))
    decreases |actions|
  {
    if actions != [] {
      hide Account.Apply;
      var a := actions[0];
      assert a in actions;
      PhotosStayAway(w.account, a);
      assert Bases(actions)[0] == Base(a) && Bases(actions)[1..] == Bases(actions[1..]);
      BasesRun(Advance(w, Base(a)), actions[1..]);
    }
  }

  lemma PhotosStayAway(w: Account.World, a: Account.Action)
    requires NoPhoto(w.c) && (!a.Deliver? || !a.event.AvatarEvent?)
    ensures NoPhoto(Account.Apply(w, a).c)
  {
  }

  lemma {:induction false} GoSplits(w: Fence, steps: seq<Step>, more: seq<Step>)
    ensures Go(w, steps + more) == Go(Go(w, steps), more)
    decreases |steps|
  {
    hide Advance;
    if steps == [] {
      assert steps + more == more;
    } else {
      GoSplits(Advance(w, steps[0]), steps[1..], more);
      assert (steps + more)[1..] == steps[1..] + more;
    }
  }

  lemma ThreeSteps(w: Fence, a: Step, b: Step, c: Step)
    ensures Go(w, [a, b, c]) == Advance(Advance(Advance(w, a), b), c)
  {
    hide Advance;
    assert [a, b, c][1..] == [b, c] && [b, c][1..] == [c] && [c][1..] == [];
    assert Go(w, [a, b, c]) == Go(Advance(w, a), [b, c]);
    assert Go(Advance(w, a), [b, c]) == Go(Advance(Advance(w, a), b), [c]);
    assert Go(Advance(Advance(w, a), b), [c]) == Go(Advance(Advance(Advance(w, a), b), c), []);
  }

  // So the fence does not keep a replaced session from writing: while session 1's photo is between its check and its
  // write, a login that began before installs session 3, and the row of session 1 is written under session 3.
  lemma ReplacedSessionCommits(me: string, person: Person) returns (steps: seq<Step>)
    requires me != ""
    ensures var w := Go(FenceStart(""), steps);
            w.rows == map[person := Row(Some(7), Some(1), 0)] && w.account.c.session == Some(3) && w.lock.Unlocked?
  {
    hide Go, Account.Run;
    var overlap := Overlap(me);
    BasesRun(FenceStart(""), overlap);
    var first := [ClearForLogin(2, true), Base(StartBumps(2)), StartFetch(0, person)];
    var w1 := Go(FenceStart(""), Bases(overlap));
    ThreeSteps(w1, first[0], first[1], first[2]);
    var w2 := Go(w1, first);
    assert w2.fetches == map[0 := Fetch(person, 1, None)];
    assert w2.account == World(Connection(Connected, Some(1), 3, me, Free), true, map[2 := Bumped], map[1 := me],
                               map[1 := false]);
    var second := [ReadEpoch(0), Check(0, Some(7)), Base(StartInstalls(2, 3))];
    ThreeSteps(w2, second[0], second[1], second[2]);
    var w3 := Go(w2, second);
    assert w3.lock == Saving(0, Some(7)) && w3.fetches == map[0 := Fetch(person, 1, Some(0))];
    steps := Bases(overlap) + first + second + [Save(true)];
    OneAdvance(w3, Save(true));
    GoSplits(FenceStart(""), Bases(overlap), first);
    GoSplits(FenceStart(""), Bases(overlap) + first, second);
    GoSplits(FenceStart(""), Bases(overlap) + first + second, [Save(true)]);
  }

  lemma OneAdvance(w: Fence, s: Step)
    ensures Go(w, [s]) == Advance(w, s)
  {
    hide Advance;
    assert [s][1..] == [];
    assert Go(w, [s]) == Go(Advance(w, s), []);
  }
}
