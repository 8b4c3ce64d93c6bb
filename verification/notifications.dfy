// notifications.go and browser_notifications.go: subscriptions, revoked sessions and the jobs of the push
// workers, with every transaction, clock reading and provider call an action of its own.
module Notifications {
  import opened Schema
  import opened Totals
  import opened Wrappers

  // A browser session's ID fixes its expiry and generation.
  datatype Owner = Owner(id: nat, generation: string, expires: int)

  datatype Subscription = Subscription(endpoint: string, keys: string, owner: Owner)

  type Target = (Id, Id)

  datatype Job = Job(attempts: nat, available: int, expires: int)

  datatype Tables = Tables(subs: map<Id, Subscription>, jobs: map<Target, Job>, revoked: map<Owner, int>)

  const LIFETIME := 5 * 60 * 1000000000

  const LEASE := 30 * 1000000000

  // The cascade from browser_subscriptions to notification_jobs.
  function Jobs(jobs: map<Target, Job>, subs: set<Id>): map<Target, Job> {
    map k | k in jobs && k.0 in subs :: jobs[k]
  }

  // SaveSubscription's transaction: nothing happens for a revoked session or for keys that changed.
  predicate Refuses(t: Tables, sub: Subscription) {
    sub.owner in t.revoked || exists i :: i in t.subs && t.subs[i].endpoint == sub.endpoint &&
                                          (t.subs[i].keys != sub.keys ||
                                           t.subs[i].owner.generation != sub.owner.generation)
  }

  // id is the stored subscription of the endpoint, or a fresh one.
  function Subscribed(t: Tables, id: Id, sub: Subscription): Tables {
    t.(subs := t.subs[id := sub],
       jobs := if id in t.subs && t.subs[id].owner != sub.owner then (map k | k in t.jobs && k.0 != id :: t.jobs[k])
           else t.jobs)
  }

  function Unsubscribed(t: Tables, gone: set<Id>): Tables {
    t.(subs := t.subs - gone, jobs := Jobs(t.jobs, t.subs.Keys - gone))
  }

  function Of(t: Tables, owner: Owner): set<Id> {
    set i | i in t.subs && t.subs[i].owner == owner
  }

  // DeleteNotificationSession
  function Revoked(t: Tables, owner: Owner): Tables {
    Unsubscribed(t.(revoked := if owner in t.revoked then t.revoked else t.revoked[owner := owner.expires]),
                 Of(t, owner))
  }

  // enqueueNotificationsTx
  function Enqueued(t: Tables, message: Id, generation: string, now: int): Tables {
    t.(jobs := map k | k in t.jobs.Keys + Targets(t, message, generation, now) ::
                 if k in t.jobs then t.jobs[k] else Job(0, now, now + LIFETIME))
  }

  function Targets(t: Tables, message: Id, generation: string, now: int): set<Target> {
    set i | i in t.subs && t.subs[i].owner.generation == generation && t.subs[i].owner.expires > now :: (i, message)
  }

  function Outdated(t: Tables, generation: string, now: int): set<Id> {
    set i | i in t.subs && (t.subs[i].owner.generation != generation || t.subs[i].owner.expires <= now)
  }

  // What those of ClaimNotification's statements leave that delete.
  function Purged(t: Tables, generation: string, now: int): Tables {
    var kept := Unsubscribed(t, Outdated(t, generation, now));
    kept.(revoked := map o | o in t.revoked && t.revoked[o] > now :: t.revoked[o],
          jobs := map k | k in kept.jobs && kept.jobs[k].expires > now && kept.jobs[k].attempts < 5 :: kept.jobs[k])
  }

  // A job that a claim at this time does not delete.
  predicate Lives(t: Tables, k: Target, generation: string, now: int) {
    && k in t.jobs && t.jobs[k].expires > now && t.jobs[k].attempts < 5
    && k.0 in t.subs && t.subs[k.0].owner.generation == generation && t.subs[k.0].owner.expires > now
  }

  lemma PurgedJobs(t: Tables, generation: string, now: int)
    ensures forall k :: k in Purged(t, generation, now).jobs <==> Lives(t, k, generation, now)
    ensures forall k :: k in Purged(t, generation, now).jobs ==> Purged(t, generation, now).jobs[k] == t.jobs[k]
  {
  }

  predicate Due(t: Tables, k: Target, now: int) {
    k in t.jobs && t.jobs[k].available <= now && forall l :: l in t.jobs ==> t.jobs[k].available <= t.jobs[l].available
  }

  function Claimed(t: Tables, k: Target, now: int): Tables
    requires k in t.jobs
  {
    t.(jobs := t.jobs[k := t.jobs[k].(attempts := t.jobs[k].attempts + 1, available := now + LEASE)])
  }

  // FinishNotification
  function Finished(t: Tables, k: Target, attempts: nat, next: Option<int>): Tables {
    if next.None? then t.(jobs := t.jobs - {k})
    else if k in t.jobs && t.jobs[k].attempts == attempts
        then t.(jobs := t.jobs[k := t.jobs[k].(available := next.value)]) else t
  }

  // The statements as the store runs them.
  class Store {
    var subs: map<Id, Subscription>
    var jobs: map<Target, Job>
    var revoked: map<Owner, int>

    ghost function Now(): Tables
      reads this
    {
      Tables(subs, jobs, revoked)
    }

    // DELETE FROM browser_subscriptions, with its cascade.
    method DeleteSubscriptions(gone: set<Id>)
      modifies this`subs, this`jobs
      ensures Now() == Unsubscribed(old(Now()), gone)
    {
      subs := subs - gone;
      jobs := map k | k in jobs && k.0 in subs :: jobs[k];
      assert jobs == Jobs(old(jobs), old(subs).Keys - gone);
    }

    // The transaction of SaveSubscription; newId is the ID for an endpoint that is not stored yet.
    method SaveSubscription(sub: Subscription, newId: Id) returns (r: Result<Id>)
      requires newId !in subs && forall i, j :: i in subs && j in subs && subs[i].endpoint == subs[j].endpoint ==>
               i == j
      modifies this`subs, this`jobs
      ensures r.Err? <==> Refuses(old(Now()), sub)
      ensures r.Err? ==> Now() == old(Now())
      ensures r.Ok? ==> Matches(old(Now()), r.value, sub) && (r.value in old(subs) || r.value == newId)
      ensures r.Ok? ==> Now() == Subscribed(old(Now()), r.value, sub)
      ensures r.Err? <==>
                || sub.owner in old(revoked)
                || exists i :: i in old(subs) && old(subs)[i].endpoint == sub.endpoint &&
                               (old(subs)[i].keys != sub.keys || old(subs)[i].owner.generation != sub.owner.generation)
      ensures r.Ok? ==> subs == old(subs)[r.value := sub]
      ensures r.Ok? ==> forall i :: i in subs && subs[i].endpoint == sub.endpoint ==> i == r.value
      ensures r.Ok? ==> forall k :: k in jobs <==>
                k in old(jobs) && (k.0 != r.value || k.0 !in old(subs) || old(subs)[k.0].owner == sub.owner)
      ensures forall k :: k in jobs ==> jobs[k] == old(jobs)[k]
    {
      if sub.owner in revoked {
        return Err(Invalid);
      }
      var id := newId;
      var known := set i | i in subs && subs[i].endpoint == sub.endpoint;
      if known != {} {
        id :| id in known;
        if subs[id].keys != sub.keys || subs[id].owner.generation != sub.owner.generation {
          return Err(Invalid);
        }
        if subs[id].owner != sub.owner {
          jobs := map k | k in jobs && k.0 != id :: jobs[k];
        }
      }
      assert forall i :: i in subs && subs[i].endpoint == sub.endpoint ==> i in known;
      subs := subs[id := sub];
      r := Ok(id);
    }

    method DeleteNotificationSession(owner: Owner)
      modifies this
      ensures Now() == Revoked(old(Now()), owner)
      ensures forall i :: i in subs <==> i in old(subs) && old(subs)[i].owner != owner
      ensures forall i :: i in subs ==> subs[i] == old(subs)[i]
      ensures forall k :: k in jobs <==> k in old(jobs) && k.0 in subs
      ensures forall k :: k in jobs ==> jobs[k] == old(jobs)[k]
      ensures revoked == if owner in old(revoked) then old(revoked) else old(revoked)[owner := owner.expires]
    {
      if owner !in revoked {
        revoked := revoked[owner := owner.expires];
      }
      DeleteSubscriptions(set i | i in subs && subs[i].owner == owner);
    }

    // The three statements that ClaimNotification begins with.
    method Purge(generation: string, now: int)
      modifies this
      ensures Now() == Purged(old(Now()), generation, now)
    {
      revoked := map o | o in revoked && revoked[o] > now :: revoked[o];
      DeleteSubscriptions(set i | i in subs && (subs[i].owner.generation != generation ||
                                                subs[i].owner.expires <= now));
      jobs := map k | k in jobs && !(jobs[k].expires <= now || jobs[k].attempts >= 5) :: jobs[k];
      assert jobs == Purged(old(Now()), generation, now).jobs;
    }

    method ClaimNotification(generation: string, now: int) returns (claimed: Option<(Target, Job)>)
      modifies this
      ensures var t := Purged(old(Now()), generation, now);
              && (claimed.None? <==> forall k :: k in t.jobs ==> t.jobs[k].available > now)
              && (claimed.None? ==> Now() == t)
              && (claimed.Some? ==>
                    Due(t, claimed.value.0, now) && Now() == Claimed(t, claimed.value.0, now) &&
                    claimed.value.1 == Now().jobs[claimed.value.0])
      ensures forall k :: k in jobs <==> k in old(jobs) && Lives(old(Now()), k, generation, now)
      ensures forall k :: k in jobs && (claimed.None? || k != claimed.value.0) ==> jobs[k] == old(jobs)[k]
      ensures claimed.None? ==> forall k :: k in jobs ==> jobs[k].available > now
      ensures claimed.Some? ==>
                var k := claimed.value.0;
                && k in jobs && jobs[k] == claimed.value.1 && old(jobs)[k].available <= now
                && jobs[k] == Job(old(jobs)[k].attempts + 1, now + 30 * 1000000000, old(jobs)[k].expires)
                && forall l :: l in jobs ==> old(jobs)[k].available <= old(jobs)[l].available
    {
      PurgedJobs(Now(), generation, now);
      hide Purged;
      Purge(generation, now);
      var first := FirstAvailable();
      if first.None? || jobs[first.value].available > now {
        return None;
      }
      var k := first.value;
      jobs := jobs[k := jobs[k].(attempts := jobs[k].attempts + 1, available := now + LEASE)];
      claimed := Some((k, jobs[k]));
    }

    // ORDER BY available_at LIMIT 1
    method FirstAvailable() returns (first: Option<Target>)
      ensures first.None? <==> jobs == map[]
      ensures first.Some? ==> first.value in jobs && forall l :: l in jobs ==>
              jobs[first.value].available <= jobs[l].available
    {
      first := None;
      var rest := jobs.Keys;
      while rest != {}
        invariant rest <= jobs.Keys && (first.None? ==> rest == jobs.Keys)
        invariant first.Some? ==> first.value in jobs && forall l :: l in jobs && l !in rest ==>
                  jobs[first.value].available <= jobs[l].available
        decreases rest
      {
        var k :| k in rest;
        rest := rest - {k};
        if first.None? || jobs[k].available < jobs[first.value].available {
          first := Some(k);
        }
      }
    }

    method FinishNotification(k: Target, attempts: nat, next: Option<int>)
      modifies this`jobs
      ensures Now() == Finished(old(Now()), k, attempts, next)
      ensures next.None? ==> jobs == old(jobs) - {k}
      ensures next.Some? && !(k in old(jobs) && old(jobs)[k].attempts == attempts) ==> jobs == old(jobs)
      ensures next.Some? && k in old(jobs) && old(jobs)[k].attempts == attempts ==>
                jobs == old(jobs)[k := Job(attempts, next.value, old(jobs)[k].expires)]
    {
      if next.None? {
        jobs := jobs - {k};
      } else if k in jobs && jobs[k].attempts == attempts {
        jobs := jobs[k := jobs[k].(available := next.value)];
      }
    }
  }

  // A worker's job as ClaimNotification returned it.
  datatype Delivery = Delivery(k: Target, attempts: nat, expires: int, sent: bool)

  datatype Claim = Claim(k: Target, attempts: nat, at: int, expires: int)

  // saving: the registrations whose clock check passed. everRevoked, enqueued with the time of each message, claims and
  // sends: the history.
  datatype World = World(t: Tables, clock: int, saving: map<nat, Subscription>, deliveries: map<nat, Delivery>,
                         everRevoked: set<Owner>, enqueued: map<Id, int>, known: set<Id>, claims: seq<Claim>,
                         sends: seq<(Target, nat)>)

  datatype Action =
    | Tick(clock: int)
    | CheckSave(v: nat, sub: Subscription)
    | CommitSave(v: nat, id: Id)
    | DropSave(v: nat)
    | Delete(id: Id, owner: Owner)
    | Revoke(owner: Owner)
    | Incoming(message: Id)
    | DropMessage(message: Id)
    | Poll(d: nat, now: int, k: Option<Target>)
    | Send(d: nat)
    | Finish(d: nat, next: Option<int>)
    | Restart

  predicate Matches(t: Tables, id: Id, sub: Subscription) {
    if id in t.subs then t.subs[id].endpoint == sub.endpoint else forall i :: i in t.subs ==>
        t.subs[i].endpoint != sub.endpoint
  }

  // An action that is not possible in a world leaves it as it is.
  function Apply(generation: string, w: World, a: Action): World {
    match a
    case Tick(clock) => if clock > w.clock then w.(clock := clock) else w
    case CheckSave(v, sub) => if v in w.saving || sub.owner.expires <= w.clock then w
        else w.(saving := w.saving[v := sub])
    case CommitSave(v, id) =>
      if v !in w.saving || !Matches(w.t, id, w.saving[v]) || (id !in w.t.subs && id in w.known) then w
      else if Refuses(w.t, w.saving[v]) then w.(saving := w.saving - {v})
      else w.(t := Subscribed(w.t, id, w.saving[v]), saving := w.saving - {v}, known := w.known + {id})
    case DropSave(v) => w.(saving := w.saving - {v})
    case Delete(id, owner) => if id in w.t.subs && w.t.subs[id].owner == owner then w.(t := Unsubscribed(w.t, {id}))
        else w
    case Revoke(owner) => w.(t := Revoked(w.t, owner), everRevoked := w.everRevoked + {owner})
    case Incoming(message) =>
      if message in w.enqueued then w else w.(t := Enqueued(w.t, message, generation, w.clock),
                                              enqueued := w.enqueued[message := w.clock])
    case DropMessage(message) => w.(t := w.t.(jobs := map k | k in w.t.jobs && k.1 != message :: w.t.jobs[k]))
    case Poll(d, now, k) =>
      if d in w.deliveries || now > w.clock then w
      else
        var t := Purged(w.t, generation, now);
        if k.None? || !Due(t, k.value, now) then w.(t := t)
        else
          var job := t.jobs[k.value];
          w.(t := Claimed(t, k.value, now),
             deliveries := w.deliveries[d := Delivery(k.value, job.attempts + 1, job.expires, false)],
             claims := w.claims + [Claim(k.value, job.attempts + 1, now, job.expires)])
    case Send(d) =>
      if d !in w.deliveries || w.deliveries[d].sent || w.deliveries[d].expires <= w.clock then w
      else w.(deliveries := w.deliveries[d := w.deliveries[d].(sent := true)],
              sends := w.sends + [(w.deliveries[d].k, w.deliveries[d].attempts)])
    case Finish(d, next) =>
      if d !in w.deliveries then w
      else if next.Some? && (w.deliveries[d].attempts >= 5 || next.value >= w.deliveries[d].expires)
      then w.(t := Finished(w.t, w.deliveries[d].k, w.deliveries[d].attempts, None), deliveries := w.deliveries - {d})
      else w.(t := Finished(w.t, w.deliveries[d].k, w.deliveries[d].attempts, next), deliveries := w.deliveries - {d})
    case Restart => w.(saving := map[], deliveries := map[])
  }

  function Start(clock: int): World {
    World(Tables(map[], map[], map[]), clock, map[], map[], {}, map[], {}, [], [])
  }

  function Run(generation: string, w: World, actions: seq<Action>): World
    decreases |actions|
  {
    if actions == [] then w else Run(generation, Apply(generation, w, actions[0]), actions[1..])
  }

  // A revocation is forgotten only once its session has expired, and no subscription of the session exists
  // before that.
  ghost predicate RevocationsGood(t: Tables, everRevoked: set<Owner>, clock: int) {
    && (forall o :: o in t.revoked ==> o in everRevoked && t.revoked[o] == o.expires)
    && (forall o :: o in everRevoked && o !in t.revoked ==> o.expires <= clock)
    && (forall i :: i in t.subs && t.subs[i].owner in everRevoked ==> t.subs[i].owner.expires <= clock)
    && (forall i :: i in t.subs ==> t.subs[i].owner !in t.revoked)
    && (forall k :: k in t.jobs ==> k.0 in t.subs && t.subs[k.0].owner !in everRevoked)
  }

  predicate Paired(claims: seq<Claim>, k: Target, attempts: nat) {
    exists i :: 0 <= i < |claims| && claims[i].k == k && claims[i].attempts == attempts
  }

  // A job lives for five minutes from its message on. It counts its claims, and every claim has a number of its own.
  ghost predicate ClaimsGood(t: Tables, enqueued: map<Id, int>, claims: seq<Claim>) {
    && (forall k :: k in t.jobs ==>
          k.0 in t.subs && k.1 in enqueued && t.jobs[k].attempts <= 5 &&
          t.jobs[k].expires == enqueued[k.1] + 300 * 1000000000)
    && (forall i :: 0 <= i < |claims| ==>
          && claims[i].k.1 in enqueued && 1 <= claims[i].attempts <= 5
          && claims[i].at < claims[i].expires == enqueued[claims[i].k.1] + 300 * 1000000000)
    && (forall i :: 0 <= i < |claims| && claims[i].k in t.jobs ==> claims[i].attempts <= t.jobs[claims[i].k].attempts)
    && (forall i, j :: 0 <= i < j < |claims| ==> (claims[i].k, claims[i].attempts) != (claims[j].k, claims[j].attempts))
  }

  // A claim is sent at most once.
  ghost predicate SendsGood(claims: seq<Claim>, deliveries: map<nat, Delivery>, sends: seq<(Target, nat)>) {
    && (forall d :: d in deliveries ==> Paired(claims, deliveries[d].k, deliveries[d].attempts))
    && (forall d, e :: d in deliveries && e in deliveries && d != e ==>
        (deliveries[d].k, deliveries[d].attempts) != (deliveries[e].k, deliveries[e].attempts))
    && (forall d :: d in deliveries && !deliveries[d].sent ==> (deliveries[d].k, deliveries[d].attempts) !in sends)
    && (forall i :: 0 <= i < |sends| ==> Paired(claims, sends[i].0, sends[i].1))
    && (forall i, j :: 0 <= i < j < |sends| ==> sends[i] != sends[j])
  }

  ghost predicate Inv(w: World) {
    && RevocationsGood(w.t, w.everRevoked, w.clock)
    && ClaimsGood(w.t, w.enqueued, w.claims)
    && SendsGood(w.claims, w.deliveries, w.sends)
  }

  // Jobs disappear, and the ones that stay keep their counts.
  lemma FewerJobs(t: Tables, t': Tables, enqueued: map<Id, int>, claims: seq<Claim>)
    requires ClaimsGood(t, enqueued, claims)
    requires forall k :: k in t'.jobs ==>
               k in t.jobs && t'.jobs[k].(available := t.jobs[k].available) == t.jobs[k] && k.0 in t'.subs
    ensures ClaimsGood(t', enqueued, claims)
  {
  }

  lemma SavesKeepRevocations(generation: string, w: World, a: Action)
    requires Inv(w) && (a.CheckSave? || a.CommitSave? || a.DropSave?)
    ensures var w' := Apply(generation, w, a); RevocationsGood(w'.t, w'.everRevoked, w'.clock)
  {
    hide SendsGood, ClaimsGood;
  }

  lemma SavesKeepInv(generation: string, w: World, a: Action)
    requires Inv(w) && (a.CheckSave? || a.CommitSave? || a.DropSave?)
    ensures Inv(Apply(generation, w, a))
  {
    hide SendsGood, RevocationsGood;
    SavesKeepRevocations(generation, w, a);
    FewerJobs(w.t, Apply(generation, w, a).t, w.enqueued, w.claims);
  }

  lemma DeleteKeepsInv(generation: string, w: World, id: Id, owner: Owner)
    requires Inv(w)
    ensures Inv(Apply(generation, w, Delete(id, owner)))
  {
    hide SendsGood;
    FewerJobs(w.t, Apply(generation, w, Delete(id, owner)).t, w.enqueued, w.claims);
  }

  lemma RevokeKeepsInv(generation: string, w: World, owner: Owner)
    requires Inv(w)
    ensures Inv(Apply(generation, w, Revoke(owner)))
  {
    hide SendsGood;
    FewerJobs(w.t, Apply(generation, w, Revoke(owner)).t, w.enqueued, w.claims);
  }

  lemma DropMessageKeepsInv(generation: string, w: World, message: Id)
    requires Inv(w)
    ensures Inv(Apply(generation, w, DropMessage(message)))
  {
    hide SendsGood;
    FewerJobs(w.t, Apply(generation, w, DropMessage(message)).t, w.enqueued, w.claims);
  }

  lemma IncomingKeepsClaims(generation: string, w: World, message: Id)
    requires Inv(w)
    ensures var w' := Apply(generation, w, Incoming(message)); ClaimsGood(w'.t, w'.enqueued, w'.claims)
  {
    hide SendsGood, RevocationsGood;
  }

  lemma IncomingKeepsInv(generation: string, w: World, message: Id)
    requires Inv(w)
    ensures Inv(Apply(generation, w, Incoming(message)))
  {
    hide SendsGood, ClaimsGood;
    IncomingKeepsClaims(generation, w, message);
  }

  // A message that comes in gets a job, due at once and never claimed, for each subscription of this generation whose
  // session has not expired, and no other; the jobs of other messages stay.
  lemma IncomingReaches(generation: string, w: World, message: Id, k: Target)
    requires Inv(w) && message !in w.enqueued
    ensures var t := Apply(generation, w, Incoming(message)).t;
            && t.subs == w.t.subs && t.revoked == w.t.revoked
            && (k.1 != message ==> (k in t.jobs <==> k in w.t.jobs) && (k in t.jobs ==> t.jobs[k] == w.t.jobs[k]))
            && (k.1 == message ==>
                  && (k in t.jobs <==> k.0 in t.subs && t.subs[k.0].owner.generation == generation &&
                                       t.subs[k.0].owner.expires > w.clock)
                  && (k in t.jobs ==> t.jobs[k] == Job(0, w.clock, w.clock + 300 * 1000000000)))
  {
  }

  // A worker gets the job that is due first of those that are alive, and only once it is due.
  lemma PollTakesFirst(generation: string, w: World, d: nat, now: int, k: Option<Target>)
    requires d !in w.deliveries && d in Apply(generation, w, Poll(d, now, k)).deliveries
    ensures now <= w.clock && k.Some? && Lives(w.t, k.value, generation, now) && w.t.jobs[k.value].available <= now
    ensures forall l :: Lives(w.t, l, generation, now) ==> w.t.jobs[k.value].available <= w.t.jobs[l].available
    ensures Apply(generation, w, Poll(d, now, k)).deliveries[d] ==
            Delivery(k.value, w.t.jobs[k.value].attempts + 1, w.t.jobs[k.value].expires, false)
  {
    PurgedJobs(w.t, generation, now);
  }

  // A worker that is done ends its job, unless it asks for another attempt that may still be made: the fifth claim was
  // not taken and the notification does not expire before. A job that was claimed again meanwhile keeps its time.
  lemma FinishEnds(generation: string, w: World, d: nat, next: Option<int>)
    requires d in w.deliveries
    ensures var x, jobs, jobs' := w.deliveries[d], w.t.jobs, Apply(generation, w, Finish(d, next)).t.jobs;
            && (next.Some? && x.attempts < 5 && next.value < x.expires ==>
                  jobs' == if x.k in jobs && jobs[x.k].attempts == x.attempts
                           then jobs[x.k := jobs[x.k].(available := next.value)] else jobs)
            && (next.None? || x.attempts >= 5 || next.value >= x.expires ==> jobs' == jobs - {x.k})
  {
  }

  lemma PurgeKeepsGood(generation: string, w: World, now: int)
    requires Inv(w) && now <= w.clock
    ensures RevocationsGood(Purged(w.t, generation, now), w.everRevoked, w.clock)
    ensures ClaimsGood(Purged(w.t, generation, now), w.enqueued, w.claims)
    ensures forall k :: k in Purged(w.t, generation, now).jobs ==>
            Purged(w.t, generation, now).jobs[k].attempts < 5 && Purged(w.t, generation, now).jobs[k].expires > now
  {
    FewerJobs(w.t, Purged(w.t, generation, now), w.enqueued, w.claims);
  }

  lemma ClaimKeepsGood(t: Tables, enqueued: map<Id, int>, claims: seq<Claim>, k: Target, now: int)
    requires ClaimsGood(t, enqueued, claims) && k in t.jobs && t.jobs[k].attempts < 5 && t.jobs[k].expires > now
    ensures ClaimsGood(Claimed(t, k, now), enqueued,
                       claims + [Claim(k, t.jobs[k].attempts + 1, now, t.jobs[k].expires)])
  {
  }

  lemma ClaimKeepsSends(claims: seq<Claim>, deliveries: map<nat, Delivery>, sends: seq<(Target, nat)>, d: nat, c: Claim)
    requires SendsGood(claims, deliveries, sends) && d !in deliveries && !Paired(claims, c.k, c.attempts)
    ensures SendsGood(claims + [c], deliveries[d := Delivery(c.k, c.attempts, c.expires, false)], sends)
  {
    assert (claims + [c])[|claims|] == c;
    forall k, attempts | Paired(claims, k, attempts)
      ensures Paired(claims + [c], k, attempts)
    {
      var i :| 0 <= i < |claims| && claims[i].k == k && claims[i].attempts == attempts;
      assert (claims + [c])[i] == claims[i];
    }
  }

  lemma PollKeepsInv(generation: string, w: World, d: nat, now: int, k: Option<Target>)
    requires Inv(w)
    ensures Inv(Apply(generation, w, Poll(d, now, k)))
  {
    hide RevocationsGood, ClaimsGood, SendsGood, Purged;
    if d !in w.deliveries && now <= w.clock {
      PurgeKeepsGood(generation, w, now);
      var t := Purged(w.t, generation, now);
      if k.Some? && Due(t, k.value, now) {
        NewClaim(t, w.enqueued, w.claims, k.value);
        ClaimKeepsGood(t, w.enqueued, w.claims, k.value, now);
        ClaimKeepsSends(w.claims, w.deliveries, w.sends, d,
                        Claim(k.value, t.jobs[k.value].attempts + 1, now, t.jobs[k.value].expires));
        ClaimKeepsRevocations(t, w.everRevoked, w.clock, k.value, now);
      }
    }
  }

  lemma ClaimKeepsRevocations(t: Tables, everRevoked: set<Owner>, clock: int, k: Target, now: int)
    requires RevocationsGood(t, everRevoked, clock) && k in t.jobs
    ensures RevocationsGood(Claimed(t, k, now), everRevoked, clock)
  {
  }

  lemma NewClaim(t: Tables, enqueued: map<Id, int>, claims: seq<Claim>, k: Target)
    requires ClaimsGood(t, enqueued, claims) && k in t.jobs
    ensures !Paired(claims, k, t.jobs[k].attempts + 1)
  {
  }

  lemma SendKeepsInv(generation: string, w: World, d: nat)
    requires Inv(w)
    ensures Inv(Apply(generation, w, Send(d)))
  {
    hide Paired, RevocationsGood, ClaimsGood;
  }

  lemma FinishedKeepsGood(t: Tables, everRevoked: set<Owner>, clock: int, enqueued: map<Id, int>, claims: seq<Claim>,
                          k: Target,
                          attempts: nat, next: Option<int>)
    requires RevocationsGood(t, everRevoked, clock) && ClaimsGood(t, enqueued, claims)
    ensures RevocationsGood(Finished(t, k, attempts, next), everRevoked, clock)
    ensures ClaimsGood(Finished(t, k, attempts, next), enqueued, claims)
  {
    FewerJobs(t, Finished(t, k, attempts, next), enqueued, claims);
  }

  lemma FinishKeepsInv(generation: string, w: World, d: nat, next: Option<int>)
    requires Inv(w)
    ensures Inv(Apply(generation, w, Finish(d, next)))
  {
    hide Paired, Finished, RevocationsGood, ClaimsGood;
    if d in w.deliveries {
      FinishedKeepsGood(w.t, w.everRevoked, w.clock, w.enqueued, w.claims, w.deliveries[d].k, w.deliveries[d].attempts,
                        None);
      FinishedKeepsGood(w.t, w.everRevoked, w.clock, w.enqueued, w.claims, w.deliveries[d].k, w.deliveries[d].attempts,
                        next);
    }
  }

  lemma StepKeepsInv(generation: string, w: World, a: Action)
    requires Inv(w)
    ensures Inv(Apply(generation, w, a))
  {
    hide ClaimsGood, SendsGood;
    match a
    case Tick(_) =>
    case CheckSave(_, _) => SavesKeepInv(generation, w, a);
    case CommitSave(_, _) => SavesKeepInv(generation, w, a);
    case DropSave(_) => SavesKeepInv(generation, w, a);
    case Delete(id, owner) => DeleteKeepsInv(generation, w, id, owner);
    case Revoke(owner) => RevokeKeepsInv(generation, w, owner);
    case Incoming(message) => IncomingKeepsInv(generation, w, message);
    case DropMessage(message) => DropMessageKeepsInv(generation, w, message);
    case Poll(d, now, k) => PollKeepsInv(generation, w, d, now, k);
    case Send(d) => SendKeepsInv(generation, w, d);
    case Finish(d, next) => FinishKeepsInv(generation, w, d, next);
    case Restart => RestartKeepsInv(generation, w);
  }

  lemma RestartKeepsInv(generation: string, w: World)
    requires Inv(w)
    ensures Inv(Apply(generation, w, Restart))
  {
    hide Paired, ClaimsGood;
  }

  lemma {:induction false} RunKeepsInv(generation: string, w: World, actions: seq<Action>)
    requires Inv(w)
    ensures Inv(Run(generation, w, actions))
    decreases |actions|
  {
    hide Inv, Apply;
    if actions != [] {
      StepKeepsInv(generation, w, actions[0]);
      RunKeepsInv(generation, Apply(generation, w, actions[0]), actions[1..]);
    }
  }

  // Over every run, each claim of a notification comes within five minutes of its message, and the provider is called
  // at most five times for one message and subscription.
  lemma AtMostFiveSends(generation: string, clock: int, actions: seq<Action>, k: Target)
    ensures var w := Run(generation, Start(clock), actions);
            && (forall i :: 0 <= i < |w.claims| ==>
                  var c := w.claims[i];
                  c.k.1 in w.enqueued && c.at < c.expires == w.enqueued[c.k.1] + 300 * 1000000000)
            && Count(w.sends, k) <= 5
  {
    hide Count, Attempts, Paired;
    RunKeepsInv(generation, Start(clock), actions);
    var w := Run(generation, Start(clock), actions);
    FiveAttempts(w, k);
    CountsAttempts(w.sends, k);
    SubsetSize(Attempts(w.sends, k), {1, 2, 3, 4, 5});
  }

  lemma FiveAttempts(w: World, k: Target)
    requires Inv(w)
    ensures Attempts(w.sends, k) <= {1, 2, 3, 4, 5}
  {
    hide RevocationsGood;
    forall i | 0 <= i < |w.sends|
      ensures 1 <= w.sends[i].1 <= 5
    {
      assert Paired(w.claims, w.sends[i].0, w.sends[i].1);
      var j :| 0 <= j < |w.claims| && w.claims[j].k == w.sends[i].0 && w.claims[j].attempts == w.sends[i].1;
    }
  }

  function Count(sends: seq<(Target, nat)>, k: Target): nat {
    if sends == [] then 0 else Count(sends[..|sends| - 1], k) + if sends[|sends| - 1].0 == k then 1 else 0
  }

  function Attempts(sends: seq<(Target, nat)>, k: Target): set<nat> {
    set i | 0 <= i < |sends| && sends[i].0 == k :: sends[i].1
  }

  lemma {:induction false} CountsAttempts(sends: seq<(Target, nat)>, k: Target)
    requires forall i, j :: 0 <= i < j < |sends| ==> sends[i] != sends[j]
    ensures Count(sends, k) == |Attempts(sends, k)|
  {
    if sends != [] {
      var less, last := sends[..|sends| - 1], sends[|sends| - 1];
      assert forall i :: 0 <= i < |less| ==> less[i] == sends[i] && less[i] != last;
      CountsAttempts(less, k);
      if last.0 == k {
        assert Attempts(sends, k) == Attempts(less, k) + {last.1};
        assert last.1 !in Attempts(less, k);
      } else {
        assert Attempts(sends, k) == Attempts(less, k);
      }
    }
  }

  // Until a revoked session expires, no subscription of it exists and every registration that its cookie still
  // allows is refused; and it never has a job again.
  lemma RevokedSessionsStayOut(generation: string, clock: int, actions: seq<Action>, i: Id, k: Target)
    ensures var w := Run(generation, Start(clock), actions);
            && (i in w.t.subs && w.t.subs[i].owner in w.everRevoked ==> w.t.subs[i].owner.expires <= w.clock)
            && (forall sub: Subscription :: sub.owner in w.everRevoked && w.clock < sub.owner.expires ==>
                Refuses(w.t, sub))
            && (k in w.t.jobs ==> k.0 in w.t.subs && w.t.subs[k.0].owner !in w.everRevoked)
  {
    RunKeepsInv(generation, Start(clock), actions);
  }

  // Afterwards one registration can still come through: SaveSubscription reads the clock before its transaction,
  // and a claim in between may forget the revocation. That is the only way.
  lemma RevokedSessionReturnsExactlyWhen(generation: string, w: World, v: nat, id: Id)
    requires Inv(w) && v in w.saving && w.saving[v].owner in w.everRevoked
    requires Matches(w.t, id, w.saving[v]) && (id in w.t.subs || id !in w.known)
    requires id in w.t.subs ==>
               w.t.subs[id].keys == w.saving[v].keys && w.t.subs[id].owner.generation == w.saving[v].owner.generation
    requires forall i :: i in w.t.subs && w.t.subs[i].endpoint == w.saving[v].endpoint ==> i == id
    ensures var t := Apply(generation, w, CommitSave(v, id)).t;
            id in t.subs && t.subs[id] == w.saving[v] <==> w.saving[v].owner !in w.t.revoked
    ensures w.saving[v].owner !in w.t.revoked ==> w.saving[v].owner.expires <= w.clock
  {
  }

  lemma RevokedSessionReturns(generation: string, sub: Subscription) returns (actions: seq<Action>)
    ensures var w := Run(generation, Start(sub.owner.expires - 1), actions);
            sub.owner in w.everRevoked && 0 in w.t.subs && w.t.subs[0] == sub
  {
    var start := Start(sub.owner.expires - 1);
    var now := sub.owner.expires;
    actions := [CheckSave(0, sub), Revoke(sub.owner), Tick(now), Poll(0, now, None), CommitSave(0, 0)];
    var w1 := Apply(generation, start, actions[0]);
    var w2 := Apply(generation, w1, actions[1]);
    assert w2.t.revoked == map[sub.owner := now] && w2.t.subs == map[];
    var w3 := Apply(generation, w2, actions[2]);
    var w4 := Apply(generation, w3, actions[3]);
    assert w4.t.revoked == map[] && w4.t.subs == map[];
    var w5 := Apply(generation, w4, actions[4]);
    FiveSteps(generation, start, actions[0], actions[1], actions[2], actions[3], actions[4]);
  }

  lemma FiveSteps(generation: string, w: World, a: Action, b: Action, c: Action, d: Action, e: Action)
    ensures var w4 := Apply(generation, Apply(generation, Apply(generation, Apply(generation, w, a), b), c), d);
            Run(generation, w, [a, b, c, d, e]) == Apply(generation, w4, e)
  {
    hide Apply;
    assert [a, b, c, d, e][1..] == [b, c, d, e] && [b, c, d, e][1..] == [c, d, e] && [c, d, e][1..] == [d, e] &&
        [d, e][1..] == [e] && [e][1..] == [];
    var w1 := Apply(generation, w, a);
    var w2 := Apply(generation, w1, b);
    var w3 := Apply(generation, w2, c);
    var w4 := Apply(generation, w3, d);
    assert Run(generation, w, [a, b, c, d, e]) == Run(generation, w1, [b, c, d, e]);
    assert Run(generation, w1, [b, c, d, e]) == Run(generation, w2, [c, d, e]);
    assert Run(generation, w2, [c, d, e]) == Run(generation, w3, [d, e]);
    assert Run(generation, w3, [d, e]) == Run(generation, w4, [e]);
    assert Run(generation, w4, [e]) == Run(generation, Apply(generation, w4, e), []);
  }
}
