// One account's connection: StartLogin, finishLogin, the startup code and onEvent of service.go, each cut where
// it lets go of a lock. eventMu is held by one event or one finishing login at a time; logins start without it.
module Account {
  import opened Wrappers

  datatype State = NeedsLogin | Pairing | Connecting | Connected | Reconnecting | Failed

  type Session = nat

  datatype Event = PairedEvent(identity: string) | ConnectedEvent | DisconnectedEvent | LoggedOutEvent
                 | ErrorEvent(given: bool) | AvatarEvent(person: string, removed: bool)

  // Who holds eventMu and how far it got.
  datatype Holder =
    | Free
    | Entered(event: Event)
    | PairedStored
    | ConnectedRead(session: Session, paired: bool)
    | ConnectedPersisted
    | LoggedOutCleared
    | Finishing(session: Session, failed: bool)
    | FinishingRead(session: Session, failed: bool, paired: bool)
    | FinishingPersisted(session: Session, failed: bool, paired: bool)

  datatype Start = Claimed | Bumped

  // identities: what each session is paired as, "" before; ended: the logins that returned, and whether they failed.
  datatype World = World(c: Connection, login: bool, starts: map<nat, Start>, identities: map<Session, string>,
                         ended: map<Session, bool>)

  // runtimeAccount's fields, and who holds its eventMu.
  datatype Connection = Connection(state: State, session: Option<Session>, generation: nat, identity: string,
                                   holder: Holder)

  datatype Action =
    | Open(s: Session, identity: string)
    | ConnectFails
    | StartLogin(t: nat)
    | StartFails(t: nat)
    | StartBumps(t: nat)
    | StartInstalls(t: nat, s: Session)
    | Pair(s: Session, identity: string)
    | LoginEnds(s: Session, failed: bool)
    | FinishLogin(s: Session)
    | Deliver(generation: nat, event: Event)
    | Step(ok: bool)

  // What Start finds in the accounts table.
  function Booted(identity: string): World {
    World(Connection(if identity != "" then Connecting else NeedsLogin, None, 1, identity, Free), false, map[], map[],
          map[])
  }

  function IdentityOf(identities: map<Session, string>, s: Session): string {
    if s in identities then identities[s] else ""
  }

  // The first step of an event of the current generation.
  function Handled(c: Connection, event: Event, ok: bool): Connection {
    match event
    case PairedEvent(identity) =>
      if identity == "" || !ok then c.(state := Failed, holder := Free)
          else c.(identity := identity, holder := PairedStored)
    case ConnectedEvent =>
      if c.session.None? then c.(holder := Free) else c.(holder := ConnectedRead(c.session.value, c.identity != ""))
    case DisconnectedEvent =>
      c.(state := if c.state.Connected? || c.state.Connecting? then Reconnecting else c.state, holder := Free)
    case LoggedOutEvent =>
      c.(generation := c.generation + 1, identity := "", session := None, state := NeedsLogin,
         holder := LoggedOutCleared)
    case ErrorEvent(given) => c.(state := if given then Failed else c.state, holder := Free)
    case AvatarEvent(_, _) => c.(holder := Free)
  }

  // The next step of whoever holds eventMu; ok tells whether the database write or the clearing it does succeeds.
  function Stepped(c: Connection, identities: map<Session, string>, ok: bool): Connection {
    match c.holder
    case Free => c
    case Entered(event) => Handled(c, event, ok)
    case PairedStored => c.(state := Connecting, holder := Free)
    case ConnectedRead(s, paired) =>
      if paired then c.(state := Connected, holder := Free)
      else if IdentityOf(identities, s) == "" || !ok then c.(state := Failed, holder := Free)
      else c.(identity := IdentityOf(identities, s), holder := ConnectedPersisted)
    case ConnectedPersisted => c.(state := Connected, holder := Free)
    case LoggedOutCleared => c.(state := if ok then c.state else Failed, holder := Free)
    case Finishing(s, failed) =>
      if c.session != Some(s) then c.(holder := Free) else c.(holder := FinishingRead(s, failed, c.identity != ""))
    case FinishingRead(s, failed, paired) =>
      if paired || IdentityOf(identities, s) == "" then c.(holder := FinishingPersisted(s, failed, paired))
      else if ok then c.(identity := IdentityOf(identities, s), holder := FinishingPersisted(s, failed, true))
      else c.(holder := FinishingPersisted(s, true, false))
    case FinishingPersisted(_, failed, paired) =>
      if failed && !paired then c.(session := None, generation := c.generation + 1, state := Failed, holder := Free)
      else if failed then c.(state := Failed, holder := Free)
      else c.(state := if c.state != Connected then Connecting else Connected, holder := Free)
  }

  // An action that is not possible in a world leaves it as it is.
  function Apply(w: World, a: Action): World {
    match a
    case Open(s, identity) =>
      if s in w.identities then w else w.(c := w.c.(session := Some(s)), identities := w.identities[s := identity])
    case ConnectFails => w.(c := w.c.(state := Failed))
    case StartLogin(t) => if t in w.starts || w.login || w.c.identity != "" then w
        else w.(login := true, starts := w.starts[t := Claimed])
    case StartFails(t) => if t !in w.starts then w else w.(login := false, starts := w.starts - {t})
    case StartBumps(t) =>
      if t !in w.starts || w.starts[t] != Claimed then w
      else w.(c := w.c.(generation := w.c.generation + 1), starts := w.starts[t := Bumped])
    case StartInstalls(t, s) =>
      if t !in w.starts || w.starts[t] != Bumped || s in w.identities then w
      else w.(c := w.c.(session := Some(s), state := Pairing), identities := w.identities[s := ""],
              starts := w.starts - {t})
    case Pair(s, identity) => if s in w.identities then w.(identities := w.identities[s := identity]) else w
    case LoginEnds(s, failed) => if s in w.identities && s !in w.ended
        then w.(login := false, ended := w.ended[s := failed]) else w
    case FinishLogin(s) => if s in w.ended && w.c.holder.Free? then w.(c := w.c.(holder := Finishing(s, w.ended[s])))
        else w
    case Deliver(generation, event) =>
      if w.c.holder.Free? && generation == w.c.generation then w.(c := w.c.(holder := Entered(event))) else w
    case Step(ok) => w.(c := Stepped(w.c, w.identities, ok))
  }

  function Run(w: World, actions: seq<Action>): World
    decreases |actions|
  {
    if actions == [] then w else Run(Apply(w, actions[0]), actions[1..])
  }

  ghost predicate Inv(c: Connection) {
    && (c.state == Connected ==> c.session.Some? && c.identity != "")
    && (c.holder.ConnectedRead? ==> c.session.Some? && (c.holder.paired ==> c.identity != ""))
    && (c.holder.ConnectedPersisted? ==> c.session.Some? && c.identity != "")
  }

  lemma SteppedKeepsInv(c: Connection, identities: map<Session, string>, ok: bool)
    requires Inv(c)
    ensures Inv(Stepped(c, identities, ok))
  {
  }

  lemma StepKeepsInv(w: World, a: Action)
    requires Inv(w.c)
    ensures Inv(Apply(w, a).c)
  {
    hide Stepped;
    match a
    case Step(ok) => SteppedKeepsInv(w.c, w.identities, ok);
    case _ =>
  }

  lemma {:induction false} RunKeepsInv(w: World, actions: seq<Action>)
    requires Inv(w.c)
    ensures Inv(Run(w, actions).c)
    decreases |actions|
  {
    if actions != [] {
      StepKeepsInv(w, actions[0]);
      RunKeepsInv(Apply(w, actions[0]), actions[1..]);
    }
  }

  // Over every run, the state "connected" means that there is a session and an identity.
  lemma ConnectedIsUsable(identity: string, actions: seq<Action>)
    ensures var c := Run(Booted(identity), actions).c; c.state == Connected ==> c.session.Some? && c.identity != ""
  {
    RunKeepsInv(Booted(identity), actions);
  }

  // What an event of the current generation does, besides letting go of eventMu or going on under it.
  lemma EventEffects(w: World, ok: bool)
    requires w.c.holder.Entered?
    ensures var c, c' := w.c, Apply(w, Step(ok)).c;
            match c.holder.event
            case DisconnectedEvent =>
              c' == c.(holder := Free, state := c'.state) &&
              c'.state == if c.state in {Connected, Connecting, Reconnecting} then Reconnecting else c.state
            case LoggedOutEvent =>
              c'.session == None && c'.identity == "" && c'.generation > c.generation && c'.state == NeedsLogin
            case PairedEvent(identity) =>
              && c'.session == c.session && c'.generation == c.generation
              && (identity != "" && ok ==> c'.identity == identity && c'.state == c.state)
              && (identity == "" || !ok ==> c'.identity == c.identity && c'.state == Failed && c'.holder == Free)
            case ConnectedEvent =>
              c' == c.(holder := c'.holder) && (c.session == None <==> c'.holder == Free)
            case ErrorEvent(given) =>
              c' == c.(holder := Free, state := c'.state) && c'.state == if given then Failed else c.state
            case AvatarEvent(_, _) => c' == c.(holder := Free)
  {
  }

  // The steps that set a state, whatever it was before.
  predicate Sets(w: World, a: Action, state: State) {
    match state
    case Connected =>
      a.Step? && (w.c.holder == ConnectedPersisted || (w.c.holder.ConnectedRead? && w.c.holder.paired))
    case Connecting =>
      a.Step? && (w.c.holder == PairedStored ||
                  (w.c.holder.FinishingPersisted? && !w.c.holder.failed && w.c.state != Connected))
    case Reconnecting =>
      a.Step? && w.c.holder == Entered(DisconnectedEvent) && w.c.state in {Connected, Connecting, Reconnecting}
    case Pairing =>
      a.StartInstalls? && a.t in w.starts && w.starts[a.t] == Bumped && a.s !in w.identities
    case NeedsLogin =>
      a.Step? && w.c.holder == Entered(LoggedOutEvent)
    case Failed =>
      || a.ConnectFails?
      || (a.Step? && w.c.holder == Entered(ErrorEvent(true)))
      || (a.Step? && w.c.holder.Entered? && w.c.holder.event.PairedEvent? && (w.c.holder.event.identity == "" || !a.ok))
      || (a.Step? && w.c.holder.ConnectedRead? && !w.c.holder.paired &&
          (IdentityOf(w.identities, w.c.holder.session) == "" || !a.ok))
      || (a.Step? && w.c.holder == LoggedOutCleared && !a.ok)
      || (a.Step? && w.c.holder.FinishingPersisted? && w.c.holder.failed)
  }

  lemma SetOrSame(w: World, a: Action)
    ensures Apply(w, a).c.state == w.c.state || Sets(w, a, Apply(w, a).c.state)
    ensures forall state :: Sets(w, a, state) ==> Apply(w, a).c.state == state
  {
  }

  ghost predicate SetAt(w: World, actions: seq<Action>, i: nat, state: State) {
    i < |actions| && Sets(Run(w, actions[..i]), actions[i], state)
  }

  // Over every run, the state is the one that was set last, and the first one if none was set.
  lemma {:induction false} StateIsLastSet(w: World, actions: seq<Action>, i: int)
    requires -1 <= i < |actions|
    requires forall j: nat, state :: i < j && j < |actions| ==> !SetAt(w, actions, j, state)
    ensures i == -1 ==> Run(w, actions).c.state == w.c.state
    ensures i >= 0 ==> forall state :: SetAt(w, actions, i, state) ==> Run(w, actions).c.state == state
  {
    hide Apply, Sets, Run;
    if actions == [] {
      EmptyRun(w);
    } else {
      var n := |actions| - 1;
      var less, a := actions[..n], actions[n];
      assert actions == less + [a];
      RunSplits(w, less, [a]);
      OneStep(Run(w, less), a);
      SetOrSame(Run(w, less), a);
      if i < n {
        assert forall j: nat, state :: j < n ==> SetAt(w, less, j, state) == SetAt(w, actions, j, state) by {
          assert forall j: nat :: j < n ==> less[..j] == actions[..j];
        }
        assert !SetAt(w, actions, n, Run(w, actions).c.state);
        StateIsLastSet(w, less, i);
      }
    }
  }

  lemma {:induction false} RunSplits(w: World, actions: seq<Action>, more: seq<Action>)
    ensures Run(w, actions + more) == Run(Run(w, actions), more)
    decreases |actions|
  {
    hide Apply;
    if actions == [] {
      assert actions + more == more;
    } else {
      RunSplits(Apply(w, actions[0]), actions[1..], more);
      assert (actions + more)[1..] == actions[1..] + more;
    }
  }

  lemma TwoSteps(w: World, a: Action, b: Action)
    ensures Run(w, [a, b]) == Apply(Apply(w, a), b)
  {
    hide Apply;
    assert [a, b][1..] == [b] && [b][1..] == [];
    assert Run(w, [a, b]) == Run(Apply(w, a), [b]);
    assert Run(Apply(w, a), [b]) == Run(Apply(Apply(w, a), b), []);
  }

  lemma FourSteps(w: World, a: Action, b: Action, c: Action, d: Action)
    ensures Run(w, [a, b, c, d]) == Apply(Apply(Apply(Apply(w, a), b), c), d)
  {
    hide Apply;
    assert [a, b, c, d][1..] == [b, c, d] && [b, c, d][1..] == [c, d] && [c, d][1..] == [d] && [d][1..] == [];
    assert Run(w, [a, b, c, d]) == Run(Apply(w, a), [b, c, d]);
    assert Run(Apply(w, a), [b, c, d]) == Run(Apply(Apply(w, a), b), [c, d]);
    TwoSteps(Apply(Apply(w, a), b), c, d);
  }

  // A first session is paired as me, and its connected event arrives.
  lemma FirstLogin(me: string) returns (actions: seq<Action>)
    requires me != ""
    ensures Run(Booted(""), actions) ==
            World(Connection(Pairing, Some(1), 2, "", Entered(ConnectedEvent)), false, map[], map[1 := me],
                  map[1 := false])
    ensures forall a :: a in actions ==> !a.Deliver? || !a.event.AvatarEvent?
  {
    hide Run, Stepped;
    var first := [StartLogin(0), StartBumps(0), StartInstalls(0, 1), Pair(1, me)];
    FourSteps(Booted(""), first[0], first[1], first[2], first[3]);
    var w1 := Run(Booted(""), first);
    assert w1.identities == map[1 := me] && w1.starts == map[];
    var second := [LoginEnds(1, false), Deliver(2, ConnectedEvent)];
    TwoSteps(w1, second[0], second[1]);
    assert Run(w1, second).identities == map[1 := me];
    actions := first + second;
    RunSplits(Booted(""), first, second);
  }

  // "Connected" does not mean that the session is the one the identity belongs to: a login that starts while the
  // first session's connected event is handled replaces the session under it.
  lemma ConnectedMayBelongToAnother(me: string) returns (actions: seq<Action>)
    requires me != ""
    ensures var w := Run(Booted(""), actions);
            w.c.state == Connected && w.c.identity == me && w.c.session.Some? &&
                IdentityOf(w.identities, w.c.session.value) == ""
  {
    hide Run;
    var first := FirstLogin(me);
    var w1 := Run(Booted(""), first);
    var second := [Step(true), StartLogin(2), StartBumps(2), StartInstalls(2, 3)];
    FourSteps(w1, second[0], second[1], second[2], second[3]);
    var w2 := Run(w1, second);
    assert w2.c == Connection(Pairing, Some(3), 3, "", ConnectedRead(1, false));
    var third := [Step(true), Step(true)];
    TwoSteps(w2, third[0], third[1]);
    actions := first + second + third;
    RunSplits(Booted(""), first, second);
    RunSplits(Booted(""), first + second, third);
  }

  // The account is connected under its first session, and a login that began before the identity was stored has
  // not got further yet.
  lemma Overlap(me: string) returns (actions: seq<Action>)
    requires me != ""
    ensures Run(Booted(""), actions) ==
            World(Connection(Connected, Some(1), 2, me, Free), true, map[2 := Claimed], map[1 := me], map[1 := false])
    ensures forall a :: a in actions ==> !a.Deliver? || !a.event.AvatarEvent?
  {
    hide Run;
    var first := FirstLogin(me);
    var w1 := Run(Booted(""), first);
    var second := [Step(true), StartLogin(2), Step(true), Step(true)];
    FourSteps(w1, second[0], second[1], second[2], second[3]);
    actions := first + second;
    RunSplits(Booted(""), first, second);
  }

  // Nor does it once an identity is stored: a login that began before can install its session afterwards, and that
  // session's connected event finds an identity, which is another one's, and stores nothing.
  lemma PairedMayBelongToAnother(me: string, other: string) returns (actions: seq<Action>)
    requires me != "" && other != me
    ensures var w := Run(Booted(""), actions);
            w.c.state == Connected && w.c.identity == me && w.c.session == Some(3) &&
                IdentityOf(w.identities, 3) == other
  {
    hide Run;
    var overlap := Overlap(me);
    var w2 := Run(Booted(""), overlap);
    var third := [StartBumps(2), StartInstalls(2, 3), Pair(3, other), Deliver(3, ConnectedEvent)];
    FourSteps(w2, third[0], third[1], third[2], third[3]);
    var w3 := Run(w2, third);
    assert w3.c == Connection(Pairing, Some(3), 3, me, Entered(ConnectedEvent));
    var fourth := [Step(true), Step(true)];
    TwoSteps(w3, fourth[0], fourth[1]);
    actions := overlap + third + fourth;
    RunSplits(Booted(""), overlap, third);
    RunSplits(Booted(""), overlap + third, fourth);
  }

  // The account is connected under a session that is paired as the account's identity.
  predicate Own(w: World) {
    w.c.state == Connected && w.c.session.Some? && IdentityOf(w.identities, w.c.session.value) == w.c.identity
  }

  // Anything that can happen while an event holds eventMu: no step of a holder, no boot, and no session that is
  // paired becomes another's.
  ghost predicate Quiet(w: World, more: seq<Action>) {
    forall a :: a in more ==> !a.Step? && !a.Open? && (a.Pair? ==> IdentityOf(w.identities, a.s) == "")
  }

  // The event goes on to say "connected", under an identity that is stored.
  predicate Settling(c: Connection) {
    c.identity != "" && (c.holder.ConnectedPersisted? || (c.holder.ConnectedRead? && c.holder.paired))
  }

  // No login is in flight, and the session is paired as me.
  predicate Safe(w: World, me: string) {
    w.starts == map[] && w.c.session.Some? && IdentityOf(w.identities, w.c.session.value) == me
  }

  lemma {:induction false} SafeStays(w: World, me: string, session: Session, more: seq<Action>)
    requires Settling(w.c) && Safe(w, me) && me != "" && w.c.session == Some(session)
    requires forall a :: a in more ==> !a.Step? && !a.Open? && (a.Pair? ==> a.s != session)
    ensures Run(w, more).c.(state := w.c.state) == w.c && Safe(Run(w, more), me)
    decreases |more|
  {
    if more != [] {
      assert more[0] in more;
      assert Apply(w, more[0]).c.(state := w.c.state) == w.c;
      SafeStays(Apply(w, more[0]), me, session, more[1..]);
    }
  }

  lemma OneStep(w: World, a: Action)
    ensures Run(w, [a]) == Apply(w, a)
  {
    hide Apply;
    assert [a][1..] == [];
    assert Run(w, [a]) == Run(Apply(w, a), []);
  }

  // What a login in flight can still do: install a new session under the event.
  function Intrusion(w: World, t: nat, s: Session): seq<Action> {
    if t in w.starts && w.starts[t] == Claimed then [StartBumps(t), StartInstalls(t, s)] else [StartInstalls(t, s)]
  }

  lemma IntrusionInstalls(w: World, t: nat, s: Session)
    requires t in w.starts && s !in w.identities
    ensures var w' := Run(w, Intrusion(w, t, s));
            && w'.c.holder == w.c.holder && w'.c.identity == w.c.identity && w'.c.session == Some(s)
            && w'.identities == w.identities[s := ""]
    ensures Quiet(w, Intrusion(w, t, s))
  {
    TwoSteps(w, StartBumps(t), StartInstalls(t, s));
    OneStep(w, StartInstalls(t, s));
  }

  lemma FreshSession(identities: map<Session, string>) returns (s: Session)
    ensures s !in identities
  {
    s := 0;
    var rest := identities.Keys;
    while rest != {}
      invariant forall x :: x in identities ==> x in rest || x < s
      decreases rest
    {
      var x :| x in rest;
      rest := rest - {x};
      if s <= x {
        s := x + 1;
      }
    }
  }

  // An event that is to say "connected" under a stored identity does so under the identity's own session, whatever
  // happens before its last step, exactly when the session is the identity's and no login is in flight.
  lemma SettlesOwnExactlyWhen(w: World)
    requires Settling(w.c) && Inv(w.c)
    ensures (forall more :: Quiet(w, more) ==> Own(Run(w, more + [Step(true)]))) <==> Safe(w, w.c.identity)
  {
    hide Run, Quiet;
    var me, session := w.c.identity, w.c.session.value;
    if Safe(w, me) {
      forall more | Quiet(w, more)
        ensures Own(Run(w, more + [Step(true)]))
      {
        SafeSettles(w, me, session, more);
      }
    } else {
      var more := Spoiler(w);
      assert Quiet(w, more) && !Own(Run(w, more + [Step(true)]));
    }
  }

  lemma SafeSettles(w: World, me: string, session: Session, more: seq<Action>)
    requires Settling(w.c) && Safe(w, me) && w.c.identity == me && w.c.session == Some(session) && Quiet(w, more)
    ensures Own(Run(w, more + [Step(true)]))
  {
    hide Run;
    SafeStays(w, me, session, more);
    RunSplits(w, more, [Step(true)]);
    OneStep(Run(w, more), Step(true));
  }

  lemma Spoiler(w: World) returns (more: seq<Action>)
    requires Settling(w.c) && Inv(w.c) && !Safe(w, w.c.identity)
    ensures Quiet(w, more) && !Own(Run(w, more + [Step(true)]))
  {
    hide Run;
    if t :| t in w.starts {
      var s := FreshSession(w.identities);
      more := Intrusion(w, t, s);
      IntrusionInstalls(w, t, s);
    } else {
      more := [];
      EmptyRun(w);
      assert w.starts == map[];
    }
    RunSplits(w, more, [Step(true)]);
    OneStep(Run(w, more), Step(true));
  }

  lemma EmptyRun(w: World)
    ensures Run(w, []) == w
  {
  }

  // A connected event that finds no identity stores the session's and then settles: the condition is the same when
  // it is about to store it.
  lemma ConnectedIsOwnExactlyWhen(w: World)
    requires w.c.holder.ConnectedRead? && !w.c.holder.paired && Inv(w.c)
    requires IdentityOf(w.identities, w.c.holder.session) != ""
    ensures (forall more :: Quiet(w, more) ==> Own(Run(w, [Step(true)] + more + [Step(true)]))) <==>
            Safe(w, IdentityOf(w.identities, w.c.holder.session))
  {
    hide Run, Quiet, Own;
    var w1 := Apply(w, Step(true));
    SettlesOwnExactlyWhen(w1);
    SameQuiet(w, w1);
    forall more
      ensures Run(w, [Step(true)] + more + [Step(true)]) == Run(w1, more + [Step(true)])
    {
      assert [Step(true)] + more + [Step(true)] == [Step(true)] + (more + [Step(true)]);
      RunSplits(w, [Step(true)], more + [Step(true)]);
      OneStep(w, Step(true));
    }
  }

  lemma SameQuiet(w: World, w': World)
    requires w'.identities == w.identities
    ensures forall more :: Quiet(w, more) <==> Quiet(w', more)
  {
  }
}
