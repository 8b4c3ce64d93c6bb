// service.go, media_send.go and store.go together: request handlers, upload workers, phone echoes,
// logouts, merges and crashes, in any interleaving. Every database transaction is one action, and so
// is every call of the provider.
module SendPipeline {
  import opened Outbox
  import opened Schema

  // Where a request handler is: between LookupSend and the reservation, holding a message it created and
  // must send itself, or after its provider call.
  datatype Handler = Prepared(k: KeyId, hash: string, media: bool) | MustSend(id: Id) | Returned(id: Id)

  // Where an upload worker is with the job it claimed.
  datatype Worker = Uploads(id: Id) | BeginFailed(id: Id) | MayCall(id: Id) | CallReturned(id: Id)

  // calls: the provider's SendText and SendMedia calls, by message, in order. answers: what requests were
  // told. Claimed queue entries are not modelled: any worker may try any job at any time.
  datatype World = World(t: Tables, handlers: map<nat, Handler>, workers: map<nat, Worker>,
                         calls: seq<Id>, answers: set<(KeyId, string, Id)>)

  datatype Action =
    | Request(h: nat, k: KeyId, hash: string, media: bool)
    | Reserve(h: nat, id: Id)
    | CallText(h: nat)
    | RecordText(h: nat, state: State)
    | Abandon(h: nat)
    | Claim(w: nat, id: Id, now: int)
    | Retry(w: nat, next: int, attempts: nat)
    | FailUpload(w: nat)
    | Leave(w: nat)
    | Begin(w: nat)
    | CallMedia(w: nat)
    | RecordMedia(w: nat, state: State)
    | Save(id: Id, state: State)
    | Echo(id: Id)
    | Collide(id: Id)
    | Drop(id: Id)
    | Logout
    | Restart

  function Start(): World {
    World(Tables(map[], map[], map[]), map[], map[], [], {})
  }

  // An action that is not possible in a world leaves it as it is.
  function Apply(s: World, a: Action): World {
    match a
    case Request(h, k, hash, media) =>
      if h in s.handlers then s
      else if k !in s.t.keys then s.(handlers := s.handlers[h := Prepared(k, hash, media)])
      else if s.t.keys[k].hash == hash then s.(answers := s.answers + {(k, hash, s.t.keys[k].message)})
      else s
    case Reserve(h, id) =>
      if h !in s.handlers || !s.handlers[h].Prepared? || id in s.t.states then s
      else
        var p := s.handlers[h];
        if p.k in s.t.keys then
          s.(handlers := s.handlers - {h},
             answers := if s.t.keys[p.k].hash == p.hash then s.answers + {(p.k, p.hash, s.t.keys[p.k].message)}
                 else s.answers)
        else
          s.(t := Reserved(s.t, p.k, p.hash, id, p.media),
             handlers := if p.media then s.handlers - {h} else s.handlers[h := MustSend(id)],
             answers := s.answers + {(p.k, p.hash, id)})
    case CallText(h) =>
      if h in s.handlers && s.handlers[h].MustSend?
      then s.(handlers := s.handlers[h := Returned(s.handlers[h].id)], calls := s.calls + [s.handlers[h].id]) else s
    case RecordText(h, state) =>
      if h in s.handlers && s.handlers[h].Returned? && state in {Sent, Failed, OutcomeUnknown}
      then s.(handlers := s.handlers - {h}, t := TextCompleted(s.t, s.handlers[h].id, state)) else s
    case Abandon(h) => s.(handlers := s.handlers - {h})
    case Claim(w, id, now) =>
      if w !in s.workers && Claimable(s.t, id, now)
          then s.(workers := s.workers[w := Uploads(id)], t := Claimed(s.t, id, now)) else s
    case Retry(w, next, attempts) =>
      if w in s.workers && (s.workers[w].Uploads? || s.workers[w].BeginFailed?)
      then s.(workers := s.workers - {w}, t := Retried(s.t, s.workers[w].id, next, attempts)) else s
    case FailUpload(w) =>
      if w in s.workers && (s.workers[w].Uploads? || s.workers[w].BeginFailed?)
      then s.(workers := s.workers - {w}, t := MediaCompleted(s.t, s.workers[w].id, Failed)) else s
    case Leave(w) => s.(workers := s.workers - {w})
    case Begin(w) =>
      if w in s.workers && s.workers[w].Uploads? then
        var id := s.workers[w].id;
        if id in s.t.jobs && s.t.jobs[id].phase == Uploading
        then s.(workers := s.workers[w := MayCall(id)], t := Begun(s.t, id))
            else s.(workers := s.workers[w := BeginFailed(id)])
      else s
    case CallMedia(w) =>
      if w in s.workers && s.workers[w].MayCall?
      then s.(workers := s.workers[w := CallReturned(s.workers[w].id)], calls := s.calls + [s.workers[w].id]) else s
    case RecordMedia(w, state) =>
      if w in s.workers && s.workers[w].CallReturned? && state in {Sent, Failed, OutcomeUnknown}
      then s.(workers := s.workers - {w}, t := MediaCompleted(s.t, s.workers[w].id, state)) else s
    case Save(id, state) => if id !in s.t.states then s.(t := Saved(s.t, id, state)) else s
    case Echo(id) => s.(t := Echoed(s.t, id))
    case Collide(id) => s.(t := Collided(s.t, id))
    case Drop(id) => if !Keyed(s.t.keys, id) then s.(t := Dropped(s.t, id)) else s
    case Logout => s.(t := LoggedOut(s.t))
    case Restart => World(Recovered(s.t), map[], map[], s.calls, s.answers)
  }

  function Run(actions: seq<Action>): World {
    if actions == [] then Start() else Apply(Run(actions[..|actions| - 1]), actions[|actions| - 1])
  }

  ghost predicate KeysUnique(t: Tables) {
    && (forall k :: k in t.keys ==> t.keys[k].message in t.states)
    && (forall k, l :: k in t.keys && l in t.keys && t.keys[k].message == t.keys[l].message ==> k == l)
    && (forall id :: id in t.jobs ==> Keyed(t.keys, id))
  }

  // The message a worker still may hand to the provider.
  predicate Holds(w: Worker, id: Id) {
    !w.CallReturned? && w.id == id
  }

  // Whoever may still call the provider for a message is alone with it, and no call was made yet.
  ghost predicate HandlersAlone(s: World) {
    && (forall h :: h in s.handlers && s.handlers[h].MustSend? ==>
          Keyed(s.t.keys, s.handlers[h].id) && s.handlers[h].id !in s.calls && s.handlers[h].id !in s.t.jobs)
    && (forall g, h ::
          g in s.handlers && h in s.handlers && s.handlers[g].MustSend? && s.handlers[h] == s.handlers[g] ==> g == h)
    && (forall h, w :: h in s.handlers && w in s.workers && s.handlers[h].MustSend? ==>
        s.workers[w].id != s.handlers[h].id)
  }

  ghost predicate WorkersAlone(s: World) {
    && (forall w :: w in s.workers ==> Keyed(s.t.keys, s.workers[w].id))
    && (forall w :: w in s.workers && !s.workers[w].CallReturned? ==> s.workers[w].id !in s.calls)
    && (forall v, w :: v in s.workers && w in s.workers && Holds(s.workers[v], s.workers[w].id) ==> v == w)
    && (forall w :: w in s.workers && s.workers[w].id in s.t.jobs ==>
          s.t.jobs[s.workers[w].id].phase == if s.workers[w].Uploads? then Uploading else Sending)
  }

  ghost predicate CallsGood(s: World) {
    && (forall i, j :: 0 <= i < j < |s.calls| ==> s.calls[i] != s.calls[j])
    && (forall id :: id in s.calls ==> Keyed(s.t.keys, id))
    && (forall id :: id in s.t.jobs && s.t.jobs[id].phase != Sending ==> id !in s.calls)
  }

  ghost predicate AnswersGood(s: World) {
    forall r :: r in s.answers ==> r.0 in s.t.keys && s.t.keys[r.0] == SendKey(r.1, r.2)
  }

  ghost predicate Inv(s: World) {
    KeysUnique(s.t) && HandlersAlone(s) && WorkersAlone(s) && CallsGood(s) && AnswersGood(s)
  }

  lemma RequestKeepsInv(s: World, h: nat, k: KeyId, hash: string, media: bool)
    requires Inv(s)
    ensures Inv(Apply(s, Request(h, k, hash, media)))
  {
    hide Keyed;
  }

  lemma CallTextKeepsInv(s: World, h: nat)
    requires Inv(s)
    ensures Inv(Apply(s, CallText(h)))
  {
    hide Keyed;
  }

  lemma RecordTextKeepsInv(s: World, h: nat, state: State)
    requires Inv(s)
    ensures Inv(Apply(s, RecordText(h, state)))
  {
    hide Keyed;
  }

  lemma AbandonKeepsInv(s: World, h: nat)
    requires Inv(s)
    ensures Inv(Apply(s, Abandon(h)))
  {
    hide Keyed;
  }

  lemma ClaimKeepsInv(s: World, w: nat, id: Id, now: int)
    requires Inv(s)
    ensures Inv(Apply(s, Claim(w, id, now)))
  {
    hide Keyed;
  }

  lemma RetryKeepsInv(s: World, w: nat, next: int, attempts: nat)
    requires Inv(s)
    ensures Inv(Apply(s, Retry(w, next, attempts)))
  {
    hide Keyed;
  }

  lemma FailUploadKeepsInv(s: World, w: nat)
    requires Inv(s)
    ensures Inv(Apply(s, FailUpload(w)))
  {
    hide Keyed;
  }

  lemma LeaveKeepsInv(s: World, w: nat)
    requires Inv(s)
    ensures Inv(Apply(s, Leave(w)))
  {
    hide Keyed;
  }

  lemma BeginKeepsInv(s: World, w: nat)
    requires Inv(s)
    ensures Inv(Apply(s, Begin(w)))
  {
    hide Keyed;
  }

  lemma CallMediaKeepsInv(s: World, w: nat)
    requires Inv(s)
    ensures Inv(Apply(s, CallMedia(w)))
  {
    hide Keyed;
  }

  lemma RecordMediaKeepsInv(s: World, w: nat, state: State)
    requires Inv(s)
    ensures Inv(Apply(s, RecordMedia(w, state)))
  {
    hide Keyed;
  }

  lemma SaveKeepsInv(s: World, id: Id, state: State)
    requires Inv(s)
    ensures Inv(Apply(s, Save(id, state)))
  {
    hide Keyed;
  }

  lemma EchoKeepsInv(s: World, id: Id)
    requires Inv(s)
    ensures Inv(Apply(s, Echo(id)))
  {
    hide Keyed;
  }

  lemma CollideKeepsInv(s: World, id: Id)
    requires Inv(s)
    ensures Inv(Apply(s, Collide(id)))
  {
    hide Keyed;
  }

  lemma DropKeepsInv(s: World, id: Id)
    requires Inv(s)
    ensures Inv(Apply(s, Drop(id)))
  {
  }

  lemma ReserveKeepsInv(s: World, h: nat, id: Id)
    requires Inv(s)
    ensures Inv(Apply(s, Reserve(h, id)))
  {
    hide Apply, KeysUnique, HandlersAlone, WorkersAlone, CallsGood, AnswersGood;
    ReserveKeepsKeys(s, h, id);
    ReserveKeepsAlone(s, h, id);
  }

  lemma ReserveKeepsKeys(s: World, h: nat, id: Id)
    requires Inv(s)
    ensures var s' := Apply(s, Reserve(h, id)); KeysUnique(s'.t) && CallsGood(s') && AnswersGood(s')
  {
    hide Keyed, HandlersAlone, WorkersAlone;
    if h in s.handlers && s.handlers[h].Prepared? && id !in s.t.states && s.handlers[h].k !in s.t.keys {
      NewKey(s.t, s.handlers[h].k, s.handlers[h].hash, id);
    }
  }

  lemma ReserveKeepsAlone(s: World, h: nat, id: Id)
    requires Inv(s)
    ensures var s' := Apply(s, Reserve(h, id)); HandlersAlone(s') && WorkersAlone(s')
  {
    hide Keyed, AnswersGood;
    if h in s.handlers && s.handlers[h].Prepared? && id !in s.t.states && s.handlers[h].k !in s.t.keys {
      NewKey(s.t, s.handlers[h].k, s.handlers[h].hash, id);
    }
  }

  lemma NewKey(t: Tables, k: KeyId, hash: string, id: Id)
    requires KeysUnique(t) && k !in t.keys && id !in t.states
    ensures forall j :: Keyed(t.keys[k := SendKey(hash, id)], j) <==> j == id || Keyed(t.keys, j)
    ensures !Keyed(t.keys, id)
  {
    var keys := t.keys[k := SendKey(hash, id)];
    assert keys[k].message == id;
    forall j | Keyed(t.keys, j)
      ensures Keyed(keys, j)
    {
      var l :| l in t.keys && t.keys[l].message == j;
      assert keys[l].message == j;
    }
  }

  lemma LogoutKeepsInv(s: World)
    requires Inv(s)
    ensures Inv(Apply(s, Logout))
  {
    hide Keyed;
  }

  lemma RestartKeepsInv(s: World)
    requires Inv(s)
    ensures Inv(Apply(s, Restart))
  {
    hide Keyed;
  }

  lemma StepKeepsInv(s: World, a: Action)
    requires Inv(s)
    ensures Inv(Apply(s, a))
  {
    hide Apply, KeysUnique, HandlersAlone, WorkersAlone, CallsGood, AnswersGood;
    match a
    case Request(h, k, hash, media) => RequestKeepsInv(s, h, k, hash, media);
    case Reserve(h, id) => ReserveKeepsInv(s, h, id);
    case CallText(h) => CallTextKeepsInv(s, h);
    case RecordText(h, state) => RecordTextKeepsInv(s, h, state);
    case Abandon(h) => AbandonKeepsInv(s, h);
    case Claim(w, id, now) => ClaimKeepsInv(s, w, id, now);
    case Retry(w, next, attempts) => RetryKeepsInv(s, w, next, attempts);
    case FailUpload(w) => FailUploadKeepsInv(s, w);
    case Leave(w) => LeaveKeepsInv(s, w);
    case Begin(w) => BeginKeepsInv(s, w);
    case CallMedia(w) => CallMediaKeepsInv(s, w);
    case RecordMedia(w, state) => RecordMediaKeepsInv(s, w, state);
    case Save(id, state) => SaveKeepsInv(s, id, state);
    case Echo(id) => EchoKeepsInv(s, id);
    case Collide(id) => CollideKeepsInv(s, id);
    case Drop(id) => DropKeepsInv(s, id);
    case Logout => LogoutKeepsInv(s);
    case Restart => RestartKeepsInv(s);
  }

  lemma {:induction false} RunKeepsInv(actions: seq<Action>)
    ensures Inv(Run(actions))
  {
    if actions != [] {
      RunKeepsInv(actions[..|actions| - 1]);
      StepKeepsInv(Run(actions[..|actions| - 1]), actions[|actions| - 1]);
    }
  }

  // The provider is called at most once for a message, and so at most once for an idempotency key,
  // over every run.
  lemma AtMostOneCall(actions: seq<Action>, i: nat, j: nat)
    requires i < j < |Run(actions).calls|
    ensures Run(actions).calls[i] != Run(actions).calls[j]
    ensures exists k, l :: k in Run(actions).t.keys && l in Run(actions).t.keys && k != l &&
              Run(actions).t.keys[k].message == Run(actions).calls[i] &&
                  Run(actions).t.keys[l].message == Run(actions).calls[j]
  {
    RunKeepsInv(actions);
    var s := Run(actions);
    assert s.calls[i] in s.calls && s.calls[j] in s.calls;
    var k :| k in s.t.keys && s.t.keys[k].message == s.calls[i];
    var l :| l in s.t.keys && s.t.keys[l].message == s.calls[j];
  }

  // One key with one request always resolves to one message, and a key never to two requests.
  lemma OneMessagePerKey(actions: seq<Action>, k: KeyId, hash: string, hash': string, m: Id, m': Id)
    requires (k, hash, m) in Run(actions).answers && (k, hash', m') in Run(actions).answers
    ensures hash == hash' && m == m'
  {
    RunKeepsInv(actions);
  }

  // What a key resolves to, and that a call was made, is never forgotten.
  lemma {:induction false} KeysAreForever(actions: seq<Action>, more: seq<Action>)
    ensures var s, s' := Run(actions), Run(actions + more);
            && (forall k :: k in s.t.keys ==> k in s'.t.keys && s'.t.keys[k] == s.t.keys[k])
            && s.calls <= s'.calls && s.answers <= s'.answers
  {
    if more == [] {
      assert actions + more == actions;
    } else {
      var less := more[..|more| - 1];
      KeysAreForever(actions, less);
      assert (actions + more)[..|actions + more| - 1] == actions + less;
      assert (actions + more)[|actions + more| - 1] == more[|more| - 1];
      StepForgetsNothing(Run(actions + less), more[|more| - 1]);
    }
  }

  lemma StepForgetsNothing(s: World, a: Action)
    ensures forall k :: k in s.t.keys ==> k in Apply(s, a).t.keys && Apply(s, a).t.keys[k] == s.t.keys[k]
    ensures s.calls <= Apply(s, a).calls && s.answers <= Apply(s, a).answers
  {
  }

  // queued -> sent, failed or outcome unknown; outcome unknown -> sent; nothing else.
  predicate Progress(before: State, after: State) {
    before == after || (before == Queued && after in {Sent, Failed, OutcomeUnknown}) ||
        (before == OutcomeUnknown && after == Sent)
  }

  lemma StatesOnlyProgress(s: World, a: Action, id: Id)
    requires id in s.t.states && id in Apply(s, a).t.states
    ensures Progress(s.t.states[id], Apply(s, a).t.states[id])
  {
  }

  lemma RunThen(actions: seq<Action>, a: Action)
    ensures Run(actions + [a]) == Apply(Run(actions), a)
  {
    assert (actions + [a])[..|actions|] == actions;
  }

  // A job may outlive the queued state of its message: only the claim's own test keeps it from being sent.
  lemma JobsOutliveQueued() returns (actions: seq<Action>, id: Id)
    ensures var t := Run(actions).t;
            id in t.jobs && id in t.states && t.states[id] == Sent && forall now :: !Claimable(t, id, now)
  {
    id := 0;
    var k := KeyId("control", "first-key");
    var one := [Request(0, k, "hash", true)];
    var two := one + [Reserve(0, id)];
    actions := two + [Collide(id)];
    RunThen([], one[0]);
    assert [] + one == one;
    RunThen(one, Reserve(0, id));
    RunThen(two, Collide(id));
  }

  // After every restart the queued messages are exactly those with a job, all of them waiting.
  lemma RestartIsExact(actions: seq<Action>)
    ensures var t := Run(actions + [Restart]).t;
            (forall id :: id in t.states ==> (t.states[id] == Queued <==> id in t.jobs)) &&
                forall id :: id in t.jobs ==> id in t.states && t.jobs[id].phase == Waiting
  {
    RunKeepsInv(actions);
    RunThen(actions, Restart);
    RecoveryIsExact(Run(actions).t);
  }

  // A worker gets the job.
  predicate Claims(s: World, a: Action, id: Id) {
    a.Claim? && a.id == id && a.w !in s.workers && Claimable(s.t, id, a.now)
  }

  // The job waits again: its worker retries it, or the process restarts.
  predicate Releases(s: World, a: Action, id: Id) {
    a.Restart? || (a.Retry? && a.w in s.workers && s.workers[a.w].id == id)
  }

  ghost predicate Taken(s: World, id: Id) {
    Keyed(s.t.keys, id) && (id in s.t.jobs ==> s.t.jobs[id].phase != Waiting)
  }

  lemma ClaimTakes(s: World, a: Action, id: Id)
    requires Inv(s) && Claims(s, a, id)
    ensures Taken(Apply(s, a), id)
  {
    hide HandlersAlone, WorkersAlone, CallsGood, AnswersGood;
  }

  lemma StaysTaken(s: World, a: Action, id: Id)
    requires Inv(s) && Taken(s, id) && !Releases(s, a, id)
    ensures Taken(Apply(s, a), id)
  {
    hide Apply, HandlersAlone, WorkersAlone, CallsGood, AnswersGood;
    StepForgetsNothing(s, a);
    KeyedStays(s.t.keys, Apply(s, a).t.keys, id);
    JobStaysTaken(s, a, id);
  }

  lemma JobStaysTaken(s: World, a: Action, id: Id)
    requires id in s.t.states && (id in s.t.jobs ==> s.t.jobs[id].phase != Waiting) && !Releases(s, a, id)
    ensures id in Apply(s, a).t.jobs ==> Apply(s, a).t.jobs[id].phase != Waiting
  {
    hide Keyed;
  }

  lemma KeyedStays(keys: Keys, keys': Keys, id: Id)
    requires Keyed(keys, id) && forall k :: k in keys ==> k in keys' && keys'[k] == keys[k]
    ensures Keyed(keys', id)
  {
  }

  ghost predicate ClaimedAt(actions: seq<Action>, id: Id, i: nat) {
    i < |actions| && Claims(Run(actions[..i]), actions[i], id)
  }

  ghost predicate ReleasedAt(actions: seq<Action>, id: Id, i: nat) {
    i < |actions| && Releases(Run(actions[..i]), actions[i], id)
  }

  // A job is claimed once between two releases, over every run and whatever the number of workers.
  lemma OneClaimPerRelease(actions: seq<Action>, id: Id, i: nat, j: nat)
    requires i < j && ClaimedAt(actions, id, i) && ClaimedAt(actions, id, j)
    ensures exists k :: i < k < j && ReleasedAt(actions, id, k)
  {
    if forall k :: i < k < j ==> !ReleasedAt(actions, id, k) {
      TakenUntil(actions, id, i, j);
    }
  }

  lemma {:induction false} TakenUntil(actions: seq<Action>, id: Id, i: nat, j: nat)
    requires i < j <= |actions| && ClaimedAt(actions, id, i) && forall k :: i < k < j ==> !ReleasedAt(actions, id, k)
    ensures Taken(Run(actions[..j]), id)
  {
    hide Apply, Inv, Claims, Releases, Taken, Run;
    var s, a := Run(actions[..j - 1]), actions[j - 1];
    RunKeepsInv(actions[..j - 1]);
    assert actions[..j] == actions[..j - 1] + [a];
    RunThen(actions[..j - 1], a);
    if i == j - 1 {
      ClaimTakes(s, a, id);
    } else {
      TakenUntil(actions, id, i, j - 1);
      assert !ReleasedAt(actions, id, j - 1);
      StaysTaken(s, a, id);
    }
  }
}
