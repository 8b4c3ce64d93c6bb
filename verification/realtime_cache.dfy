// createRealtimeCache of web/src/api/realtime-cache.ts: which queries are read again after the server announced
// a change. The browser runs one callback at a time; every callback, and every settled request, is a step.
module RealtimeCache {
  import opened Wrappers

  type Hash = string

  // A refresh waits for the request that was under way when it began, if there was one; then it asks.
  datatype Phase = Waiting(since: nat, on: Option<nat>) | Asking

  datatype Cache = Cache(dirty: set<Hash>, running: map<Hash, Phase>, timer: bool, stopped: bool)

  function Scheduled(c: Cache): Cache {
    c.(timer := c.timer || !c.stopped)
  }

  function Received(c: Cache, affected: set<Hash>): Cache {
    if c.stopped then c else Scheduled(c.(dirty := c.dirty + affected))
  }

  // fetching: the requests under way, by when they began.
  function Begun(h: Hash, fetching: map<Hash, nat>, now: nat): Phase {
    Waiting(now, if h in fetching then Some(fetching[h]) else None)
  }

  function Flushed(c: Cache, fetching: map<Hash, nat>, now: nat): Cache {
    c.(timer := false, dirty := c.dirty * c.running.Keys,
       running := map h | h in c.dirty + c.running.Keys :: if h in c.running then c.running[h]
           else Begun(h, fetching, now))
  }

  function Settled(c: Cache, h: Hash): Cache {
    if h in c.dirty then Scheduled(c.(running := c.running - {h})) else c.(running := c.running - {h})
  }

  function Closed(c: Cache): Cache {
    c.(stopped := true, timer := false, dirty := {})
  }

  // changed: when the last announced change of a query came. served: when the request began that answers the
  // last refresh of a query, or when an unused query was marked stale.
  datatype World = World(c: Cache, clock: nat, fetching: map<Hash, nat>, changed: map<Hash, nat>,
                         served: map<Hash, nat>)

  datatype Action =
    | Change(affected: set<Hash>, ready: bool)
    | Flush
    | Ask(h: Hash, active: bool)
    | Settle(h: Hash)
    | StartFetch(h: Hash)
    | EndFetch(h: Hash)
    | Close

  predicate MayAsk(w: World, h: Hash) {
    && h in w.c.running && w.c.running[h].Waiting?
    && (w.c.running[h].on.Some? ==> !(h in w.fetching && w.fetching[h] == w.c.running[h].on.value))
  }

  // An action that is not possible in a world changes nothing but the time.
  function Apply(w0: World, a: Action): World {
    var w := w0.(clock := w0.clock + 1);
    match a
    case Change(affected, ready) =>
      if w.c.stopped then w
      else w.(c := Received(w.c, affected), fetching := if ready then w.fetching - affected else w.fetching,
              changed := map h | h in w.changed.Keys + affected :: if h in affected then w0.clock else w.changed[h])
    case Flush => if w.c.timer then w.(c := Flushed(w.c, w.fetching, w0.clock)) else w
    case Ask(h, active) =>
      if !MayAsk(w, h) then w
      else
        var asking := w.c.(running := w.c.running[h := Asking]);
        if w.c.stopped then w.(c := asking)
        else if active && h in w.fetching then w.(c := asking, served := w.served[h := w.fetching[h]])
        else w.(c := asking, served := w.served[h := w0.clock],
                fetching := if active then w.fetching[h := w0.clock] else w.fetching)
    case Settle(h) => if h in w.c.running && w.c.running[h].Asking? then w.(c := Settled(w.c, h)) else w
    case StartFetch(h) => if h in w.fetching then w else w.(fetching := w.fetching[h := w0.clock])
    case EndFetch(h) => w.(fetching := w.fetching - {h})
    case Close => w.(c := Closed(w.c))
  }

  function Start(): World {
    World(Cache({}, map[], false, false), 0, map[], map[], map[])
  }

  function Run(w: World, actions: seq<Action>): World
    decreases |actions|
  {
    if actions == [] then w else Run(Apply(w, actions[0]), actions[1..])
  }

  // A dirty query will be flushed: the timer runs, or its refresh will set it when it ends.
  predicate Pending(c: Cache, h: Hash) {
    h in c.dirty && (c.timer || h in c.running)
  }

  // A change is not lost: its query is dirty and will be flushed, or a refresh that began after the change is
  // about to ask, or the request that answered the last refresh began after the change.
  predicate Kept(w: World, h: Hash)
    requires h in w.changed
  {
    || Pending(w.c, h)
    || (h in w.c.running && w.c.running[h].Waiting? && w.changed[h] < w.c.running[h].since)
    || (h in w.served && w.changed[h] < w.served[h])
  }

  ghost predicate Timed(w: World) {
    && (forall h :: h in w.fetching ==> w.fetching[h] < w.clock)
    && (forall h :: h in w.changed ==> w.changed[h] < w.clock)
    && (forall h :: h in w.c.running && w.c.running[h].Waiting? ==> w.c.running[h].since < w.clock)
    && (forall h :: h in w.c.running && w.c.running[h].Waiting? && h in w.fetching ==>
          w.c.running[h].on == Some(w.fetching[h]) || w.c.running[h].since < w.fetching[h])
  }

  ghost predicate Open(w: World) {
    && (forall h :: h in w.c.dirty ==> Pending(w.c, h))
    && (forall h :: h in w.changed ==> Kept(w, h))
    && (forall h :: h in w.changed && h !in w.c.dirty && h in w.c.running && w.c.running[h].Waiting? ==>
        w.changed[h] < w.c.running[h].since)
  }

  ghost predicate Inv(w: World) {
    && Timed(w)
    && (!w.c.stopped ==> Open(w))
    && (w.c.stopped ==> !w.c.timer && w.c.dirty == {})
  }

  lemma ChangeKeepsInv(w: World, affected: set<Hash>, ready: bool)
    requires Inv(w)
    ensures Inv(Apply(w, Change(affected, ready)))
  {
  }

  lemma FlushKeepsInv(w: World)
    requires Inv(w)
    ensures Inv(Apply(w, Flush))
  {
  }

  lemma AskKeepsInv(w: World, h: Hash, active: bool)
    requires Inv(w)
    ensures Inv(Apply(w, Ask(h, active)))
  {
    hide Timed, Open;
    AskKeepsTimed(w, h, active);
    if !w.c.stopped {
      AskKeepsOpen(w, h, active);
    }
  }

  lemma AskKeepsTimed(w: World, h: Hash, active: bool)
    requires Timed(w)
    ensures Timed(Apply(w, Ask(h, active)))
  {
  }

  lemma AskKeepsOpen(w: World, h: Hash, active: bool)
    requires Timed(w) && Open(w) && !w.c.stopped
    ensures Open(Apply(w, Ask(h, active)))
  {
  }

  lemma SettleKeepsInv(w: World, h: Hash)
    requires Inv(w)
    ensures Inv(Apply(w, Settle(h)))
  {
  }

  lemma FetchKeepsInv(w: World, a: Action)
    requires Inv(w) && (a.StartFetch? || a.EndFetch? || a.Close?)
    ensures Inv(Apply(w, a))
  {
  }

  lemma StepKeepsInv(w: World, a: Action)
    requires Inv(w)
    ensures Inv(Apply(w, a))
  {
    hide Inv, Apply;
    match a
    case Change(affected, ready) => ChangeKeepsInv(w, affected, ready);
    case Flush => FlushKeepsInv(w);
    case Ask(h, active) => AskKeepsInv(w, h, active);
    case Settle(h) => SettleKeepsInv(w, h);
    case _ => FetchKeepsInv(w, a);
  }

  lemma {:induction false} RunKeepsInv(w: World, actions: seq<Action>)
    requires Inv(w)
    ensures Inv(Run(w, actions))
    decreases |actions|
  {
    hide Inv, Apply;
    if actions != [] {
      StepKeepsInv(w, actions[0]);
      RunKeepsInv(Apply(w, actions[0]), actions[1..]);
    }
  }

  // Over every run, while the cache is open, no announced change is lost.
  lemma NoLostInvalidation(actions: seq<Action>, h: Hash)
    ensures var w := Run(Start(), actions);
            !w.c.stopped ==> (h in w.c.dirty ==> w.c.timer || h in w.c.running) && (h in w.changed ==> Kept(w, h))
  {
    hide Kept;
    RunKeepsInv(Start(), actions);
  }

  // When nothing is dirty and no refresh is under way, every query is as new as its last announced change.
  lemma QuietMeansFresh(actions: seq<Action>, h: Hash)
    requires var w := Run(Start(), actions); !w.c.stopped && w.c.dirty == {} && w.c.running == map[] && h in w.changed
    ensures var w := Run(Start(), actions); h in w.served && w.changed[h] < w.served[h]
  {
    RunKeepsInv(Start(), actions);
  }

  // After close() no query is asked for and no timer is set, whatever still comes.
  lemma {:induction false} NothingStartsAfterClose(w: World, actions: seq<Action>)
    requires Inv(w) && w.c.stopped
    ensures var w' := Run(w, actions); w'.c.stopped && w'.served == w.served && !w'.c.timer && w'.c.dirty == {}
    decreases |actions|
  {
    if actions != [] {
      StepKeepsInv(w, actions[0]);
      assert Apply(w, actions[0]).served == w.served && Apply(w, actions[0]).c.stopped;
      NothingStartsAfterClose(Apply(w, actions[0]), actions[1..]);
    }
  }

  // The closure's own variables and functions.
  class Refresher {
    var dirty: set<Hash>
    var running: map<Hash, Phase>
    var timer: bool
    var stopped: bool

    ghost function Now(): Cache
      reads this
    {
      Cache(dirty, running, timer, stopped)
    }

    constructor ()
      ensures Now() == Start().c
    {
      dirty, running, timer, stopped := {}, map[], false, false;
    }

    method Schedule()
      modifies this`timer
      ensures Now() == Scheduled(old(Now()))
    {
      if !stopped && !timer {
        timer := true;
      }
    }

    method Receive(affected: set<Hash>)
      modifies this`dirty, this`timer
      ensures Now() == Received(old(Now()), affected)
      ensures !stopped ==> dirty == old(dirty) + affected && timer
      ensures stopped ==> dirty == old(dirty) && timer == old(timer)
    {
      if stopped {
        return;
      }
      dirty := dirty + affected;
      Schedule();
    }

    method Flush(fetching: map<Hash, nat>, now: nat)
      modifies this`dirty, this`timer, this`running
      ensures Now() == Flushed(old(Now()), fetching, now)
      ensures !timer && forall h :: h in dirty <==> h in old(dirty) && h in old(running)
      ensures forall h :: h in running <==> h in old(running) || h in old(dirty)
      ensures forall h :: h in old(running) ==> running[h] == old(running)[h]
      ensures forall h :: h in old(dirty) && h !in old(running) ==>
                running[h] == Waiting(now, if h in fetching then Some(fetching[h]) else None)
    {
      timer := false;
      var rest := dirty;
      while rest != {}
        invariant rest <= dirty <= old(dirty) && timer == false && stopped == old(stopped)
        invariant forall h :: h in old(dirty) ==> (h in dirty <==> h in rest || h in old(running))
        invariant forall h :: h in running <==> h in old(running) || (h in old(dirty) && h !in dirty)
        invariant forall h :: h in running ==> running[h] == if h in old(running) then old(running)[h]
                  else Begun(h, fetching, now)
        decreases rest
      {
        var h :| h in rest;
        rest := rest - {h};
        if h !in running {
          dirty := dirty - {h};
          running := running[h := Begun(h, fetching, now)];
        }
      }
      assert running == Flushed(old(Now()), fetching, now).running;
    }

    // The finally block of refresh.
    method Settle(h: Hash)
      modifies this`running, this`timer
      ensures Now() == Settled(old(Now()), h)
      ensures running == old(running) - {h} && (timer <==> old(timer) || (h in dirty && !stopped))
    {
      running := running - {h};
      if h in dirty {
        Schedule();
      }
    }

    method Close()
      modifies this`stopped, this`timer, this`dirty
      ensures Now() == Closed(old(Now()))
    {
      stopped := true;
      timer := false;
      dirty := {};
    }
  }
}
