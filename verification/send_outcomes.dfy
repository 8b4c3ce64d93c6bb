// Why a message that was to be sent is in the state it is in, over every run of the send pipeline: what sends it, fails
// it or leaves it uncertain, and that nothing else does.
module SendOutcomes {
  import opened Outbox
  import opened Schema
  import opened SendPipeline
  import opened Wrappers

  // The result of the message's provider call is recorded, by the handler or worker that made the call.
  predicate Records(s: World, a: Action, id: Id, state: State) {
    || (a.RecordText? && a.state == state && a.h in s.handlers && s.handlers[a.h] == Returned(id))
    || (a.RecordMedia? && a.state == state && a.w in s.workers && s.workers[a.w] == CallReturned(id))
  }

  // The phone shows the message.
  predicate Appears(a: Action, id: Id) {
    a == Echo(id) || a == Collide(id)
  }

  // Its worker fails before the provider call.
  predicate GivesUp(s: World, a: Action, id: Id) {
    a.FailUpload? && a.w in s.workers && (s.workers[a.w] == Uploads(id) || s.workers[a.w] == BeginFailed(id))
  }

  predicate Begun(s: World, id: Id) {
    id in s.t.jobs && s.t.jobs[id].phase == Sending
  }

  // What makes a waiting message sent, failed or uncertain: its recorded result; the phone, which also settles an
  // uncertain one; for media a failed upload, or a logout before or after the job began to send; and a restart of a
  // text or of media whose job began to send.
  predicate Turns(s: World, a: Action, id: Id, state: State) {
    || (state in {Sent, Failed, OutcomeUnknown} && Records(s, a, id, state))
    || (state == Sent && Appears(a, id))
    || (state == Failed && GivesUp(s, a, id))
    || (a.Logout? && id in s.t.jobs && state == if Begun(s, id) then OutcomeUnknown else Failed)
    || (a.Restart? && (id !in s.t.jobs || Begun(s, id)) && state == OutcomeUnknown)
  }

  lemma TurnedOrSame(s: World, a: Action, id: Id)
    requires Inv(s) && Keyed(s.t.keys, id)
    ensures id in s.t.states && id in Apply(s, a).t.states && Keyed(Apply(s, a).t.keys, id)
    ensures Apply(s, a).t.states[id] == s.t.states[id] || Turns(s, a, id, Apply(s, a).t.states[id])
  {
    hide HandlersAlone, WorkersAlone, CallsGood, AnswersGood, Keyed;
    assert id in s.t.states by { KeyedIsStored(s.t, id); }
    StepForgetsNothing(s, a);
    KeyedStays(s.t.keys, Apply(s, a).t.keys, id);
  }

  lemma KeyedIsStored(t: Tables, id: Id)
    requires KeysUnique(t) && Keyed(t.keys, id)
    ensures id in t.states
  {
  }

  // A message gets its key when it is reserved; then it waits, one with media as a job that can be claimed at once.
  lemma ReservedWaits(s: World, a: Action, id: Id)
    requires Inv(s) && !Keyed(s.t.keys, id) && Keyed(Apply(s, a).t.keys, id)
    ensures a.Reserve? && a.id == id && a.h in s.handlers && s.handlers[a.h].Prepared?
    ensures var p, t := s.handlers[a.h], Apply(s, a).t;
            && p.k !in s.t.keys && t.keys == s.t.keys[p.k := SendKey(p.hash, id)]
            && id in t.states && t.states[id] == Queued && (id in t.jobs <==> p.media)
            && (p.media ==> t.jobs[id] == Job(Waiting, 0, None) && forall now :: Claimable(t, id, now))
  {
    hide HandlersAlone, WorkersAlone, CallsGood, AnswersGood;
    var s' := Apply(s, a);
    var k :| k in s'.t.keys && s'.t.keys[k].message == id;
    assert a.Reserve?;
  }

  ghost predicate TurnsAt(actions: seq<Action>, i: nat, id: Id, state: State) {
    i < |actions| && Keyed(Run(actions[..i]).t.keys, id) && Turns(Run(actions[..i]), actions[i], id, state)
  }

  // A keyed message that does not wait any more was brought into its state by one of these steps.
  lemma {:induction false} StateHasReason(actions: seq<Action>, id: Id)
    requires Keyed(Run(actions).t.keys, id)
    ensures id in Run(actions).t.states
    ensures Run(actions).t.states[id] != Queued ==> exists i :: TurnsAt(actions, i, id, Run(actions).t.states[id])
  {
    hide Inv, Apply, Turns, Keyed;
    if actions == [] {
      NoKeys(id);
    } else {
      var less, a := actions[..|actions| - 1], actions[|actions| - 1];
      var s := Run(less);
      RunKeepsInv(less);
      if Keyed(s.t.keys, id) {
        StateHasReason(less, id);
        TurnedOrSame(s, a, id);
        if i: nat :| TurnsAt(less, i, id, Run(actions).t.states[id]) {
          assert actions[..i] == less[..i];
          assert TurnsAt(actions, i, id, Run(actions).t.states[id]);
        } else if Run(actions).t.states[id] != Queued {
          assert TurnsAt(actions, |less|, id, Run(actions).t.states[id]);
        }
      } else {
        ReservedWaits(s, a, id);
      }
    }
  }

  lemma NoKeys(id: Id)
    ensures !Keyed(Run([]).t.keys, id)
  {
  }

  // And each of them decides: a waiting message is brought into that state and stays in it, except that an uncertain
  // one may still appear on the phone.
  lemma TurnDecides(s: World, a: Action, id: Id, state: State)
    requires Inv(s) && Keyed(s.t.keys, id) && Turns(s, a, id, state)
    requires id in s.t.states && s.t.states[id] == Queued
    ensures id in Apply(s, a).t.states && Apply(s, a).t.states[id] == state
  {
    hide HandlersAlone, CallsGood, AnswersGood, Keyed;
  }

  ghost predicate Settled(now: State, state: State) {
    now == state || (state == OutcomeUnknown && now == Sent)
  }

  lemma AppearingSettles(s: World, a: Action, id: Id)
    requires Inv(s) && Keyed(s.t.keys, id) && id in s.t.states && s.t.states[id] in {Queued, OutcomeUnknown}
    requires Appears(a, id)
    ensures id in Apply(s, a).t.states && Apply(s, a).t.states[id] == Sent
  {
    hide HandlersAlone, WorkersAlone, CallsGood, AnswersGood, Keyed;
  }

  lemma {:induction false} StaysSettled(actions: seq<Action>, more: seq<Action>, id: Id, state: State)
    requires Keyed(Run(actions).t.keys, id) && id in Run(actions).t.states && state != Queued
    requires Settled(Run(actions).t.states[id], state) && state in {Sent, Failed, OutcomeUnknown}
    ensures id in Run(actions + more).t.states && Settled(Run(actions + more).t.states[id], state)
  {
    hide Inv, Apply, Keyed;
    if more == [] {
      assert actions + more == actions;
    } else {
      var less, a := more[..|more| - 1], more[|more| - 1];
      StaysSettled(actions, less, id, state);
      KeysAreForever(actions, less);
      KeyedStays(Run(actions).t.keys, Run(actions + less).t.keys, id);
      assert actions + more == actions + less + [a];
      RunThen(actions + less, a);
      RunKeepsInv(actions + less);
      TurnedOrSame(Run(actions + less), a, id);
      StatesOnlyProgress(Run(actions + less), a, id);
    }
  }

  lemma TurnedStates(s: World, a: Action, id: Id, state: State)
    requires Turns(s, a, id, state)
    ensures state in {Sent, Failed, OutcomeUnknown}
  {
  }

  // The first of these steps decides for good: a message that was waiting is brought into its state and stays in it,
  // but an uncertain one is sent once it appears on the phone.
  lemma TurnedForGood(actions: seq<Action>, i: nat, id: Id, state: State)
    requires TurnsAt(actions, i, id, state)
    ensures id in Run(actions[..i]).t.states && id in Run(actions).t.states && Run(actions).t.states[id] != Queued
    ensures Run(actions[..i]).t.states[id] == Queued ==>
              Run(actions).t.states[id] == state || (state == OutcomeUnknown && Run(actions).t.states[id] == Sent)
    ensures Run(actions[..i]).t.states[id] == OutcomeUnknown && Appears(actions[i], id) ==>
              Run(actions).t.states[id] == Sent
  {
    hide Inv, Apply, Turns, Keyed, Run;
    var before, a, rest := actions[..i], actions[i], actions[i + 1..];
    var s := Run(before);
    RunKeepsInv(before);
    RunThen(before, a);
    TurnedOrSame(s, a, id);
    TurnedStates(s, a, id, state);
    StateHasReason(before, id);
    if s.t.states[id] == Queued {
      TurnDecides(s, a, id, state);
    } else {
      var j: nat :| TurnsAt(before, j, id, s.t.states[id]);
      TurnedStates(Run(before[..j]), before[j], id, s.t.states[id]);
      StatesOnlyProgress(s, a, id);
      if s.t.states[id] == OutcomeUnknown && Appears(a, id) {
        AppearingSettles(s, a, id);
      }
    }
    StaysSettled(before + [a], rest, id, Apply(s, a).t.states[id]);
    assert actions == before + [a] + rest;
  }

  // A keyed message waits exactly as long as none of these steps was taken.
  lemma QueuedExactlyWhen(actions: seq<Action>, id: Id)
    requires Keyed(Run(actions).t.keys, id)
    ensures id in Run(actions).t.states
    ensures Run(actions).t.states[id] == Queued <==> forall i: nat, state :: !TurnsAt(actions, i, id, state)
  {
    hide Inv, Apply, Turns, Keyed, Run;
    StateHasReason(actions, id);
    forall i: nat, state | TurnsAt(actions, i, id, state)
      ensures Run(actions).t.states[id] != Queued
    {
      TurnedForGood(actions, i, id, state);
    }
  }

  // No two handlers, nor a handler and a worker, are with one message, and a handler's message has no job.
  ghost predicate HandlersApart(s: World) {
    && (forall h :: h in s.handlers && !s.handlers[h].Prepared? ==>
          Keyed(s.t.keys, s.handlers[h].id) && s.handlers[h].id !in s.t.jobs)
    && (forall g, h ::
          g in s.handlers && h in s.handlers && g != h && !s.handlers[g].Prepared? && !s.handlers[h].Prepared?
          ==> s.handlers[g].id != s.handlers[h].id)
    && (forall h, w :: h in s.handlers && w in s.workers && !s.handlers[h].Prepared? ==>
          s.handlers[h].id != s.workers[w].id)
  }

  predicate Unfailed(s: World, id: Id) {
    id in s.t.states && s.t.states[id] != Failed
  }

  // A message that may still be handed to the provider has not failed, nor has one with a job.
  ghost predicate Hopeful(s: World) {
    && (forall h :: h in s.handlers && s.handlers[h].MustSend? ==> Unfailed(s, s.handlers[h].id))
    && (forall w :: w in s.workers && s.workers[w].MayCall? ==> Unfailed(s, s.workers[w].id))
    && (forall id :: id in s.t.jobs ==> Unfailed(s, id))
  }

  lemma HandlersStayApart(s: World, a: Action)
    requires Inv(s) && HandlersApart(s) && (a.Request? || a.CallText? || a.RecordText? || a.Abandon?)
    ensures HandlersApart(Apply(s, a))
  {
    hide Keyed, AnswersGood, CallsGood, WorkersAlone;
  }

  lemma WorkersStayApart(s: World, a: Action)
    requires Inv(s) && HandlersApart(s) && (a.Claim? || a.Retry? || a.FailUpload? || a.Leave?)
    ensures HandlersApart(Apply(s, a))
  {
    hide Keyed, AnswersGood, CallsGood, HandlersAlone;
  }

  lemma CallersStayApart(s: World, a: Action)
    requires Inv(s) && HandlersApart(s) && (a.Begin? || a.CallMedia? || a.RecordMedia?)
    ensures HandlersApart(Apply(s, a))
  {
    hide Keyed, AnswersGood, CallsGood, HandlersAlone;
  }

  lemma OthersStayApart(s: World, a: Action)
    requires Inv(s) && HandlersApart(s) && (a.Save? || a.Echo? || a.Collide? || a.Drop? || a.Logout? || a.Restart?)
    ensures HandlersApart(Apply(s, a))
  {
    hide Keyed, AnswersGood, CallsGood, HandlersAlone, WorkersAlone;
  }

  lemma ReservedStaysApart(s: World, h: nat, id: Id)
    requires Inv(s) && HandlersApart(s)
    ensures HandlersApart(Apply(s, Reserve(h, id)))
  {
    hide Keyed, AnswersGood, CallsGood, HandlersAlone;
    if h in s.handlers && s.handlers[h].Prepared? && id !in s.t.states && s.handlers[h].k !in s.t.keys {
      NewKey(s.t, s.handlers[h].k, s.handlers[h].hash, id);
      assert forall j :: Keyed(s.t.keys, j) ==> j in s.t.states by { KeyedAreStored(s.t); }
    }
  }

  lemma KeyedAreStored(t: Tables)
    requires KeysUnique(t)
    ensures forall id :: Keyed(t.keys, id) ==> id in t.states
  {
  }

  lemma StepStaysApart(s: World, a: Action)
    requires Inv(s) && HandlersApart(s)
    ensures HandlersApart(Apply(s, a))
  {
    hide Apply, Inv, HandlersApart;
    match a
    case Reserve(h, id) => ReservedStaysApart(s, h, id);
    case Request(_, _, _, _) => HandlersStayApart(s, a);
    case CallText(_) => HandlersStayApart(s, a);
    case RecordText(_, _) => HandlersStayApart(s, a);
    case Abandon(_) => HandlersStayApart(s, a);
    case Claim(_, _, _) => WorkersStayApart(s, a);
    case Retry(_, _, _) => WorkersStayApart(s, a);
    case FailUpload(_) => WorkersStayApart(s, a);
    case Leave(_) => WorkersStayApart(s, a);
    case Begin(_) => CallersStayApart(s, a);
    case CallMedia(_) => CallersStayApart(s, a);
    case RecordMedia(_, _) => CallersStayApart(s, a);
    case _ => OthersStayApart(s, a);
  }

  lemma HandlersStayHopeful(s: World, a: Action)
    requires Inv(s) && HandlersApart(s) && Hopeful(s) && (a.Request? || a.CallText? || a.RecordText? || a.Abandon?)
    ensures Hopeful(Apply(s, a))
  {
    hide Keyed, AnswersGood, CallsGood, WorkersAlone, HandlersAlone;
  }

  lemma WorkersStayHopeful(s: World, a: Action)
    requires Inv(s) && HandlersApart(s) && Hopeful(s) && (a.Claim? || a.Retry? || a.Leave? || a.Begin? || a.CallMedia?)
    ensures Hopeful(Apply(s, a))
  {
    hide Keyed, AnswersGood, CallsGood, HandlersAlone, HandlersApart;
  }

  lemma ResultsStayHopeful(s: World, a: Action)
    requires Inv(s) && HandlersApart(s) && Hopeful(s) && (a.FailUpload? || a.RecordMedia?)
    ensures Hopeful(Apply(s, a))
  {
    hide Keyed, AnswersGood, CallsGood, HandlersAlone;
  }

  lemma OthersStayHopeful(s: World, a: Action)
    requires Inv(s) && HandlersApart(s) && Hopeful(s) && (a.Save? || a.Echo? || a.Collide? || a.Restart?)
    ensures Hopeful(Apply(s, a))
  {
    hide Keyed, AnswersGood, CallsGood, HandlersAlone, HandlersApart, WorkersAlone;
  }

  lemma DropStaysHopeful(s: World, id: Id)
    requires Inv(s) && HandlersApart(s) && Hopeful(s)
    ensures Hopeful(Apply(s, Drop(id)))
  {
    hide Keyed, AnswersGood, CallsGood;
  }

  lemma LogoutStaysHopeful(s: World, a: Action)
    requires Inv(s) && HandlersApart(s) && Hopeful(s) && (a.Logout?)
    ensures Hopeful(Apply(s, a))
  {
    hide Keyed, AnswersGood, CallsGood;
  }

  lemma ReservedStaysHopeful(s: World, h: nat, id: Id)
    requires Inv(s) && HandlersApart(s) && Hopeful(s)
    ensures Hopeful(Apply(s, Reserve(h, id)))
  {
    hide Keyed, AnswersGood, CallsGood, HandlersAlone, HandlersApart, WorkersAlone;
  }

  lemma StepStaysHopeful(s: World, a: Action)
    requires Inv(s) && HandlersApart(s) && Hopeful(s)
    ensures Hopeful(Apply(s, a))
  {
    hide Apply, Inv, HandlersApart, Hopeful;
    match a
    case Reserve(h, id) => ReservedStaysHopeful(s, h, id);
    case Request(_, _, _, _) => HandlersStayHopeful(s, a);
    case CallText(_) => HandlersStayHopeful(s, a);
    case RecordText(_, _) => HandlersStayHopeful(s, a);
    case Abandon(_) => HandlersStayHopeful(s, a);
    case FailUpload(_) => ResultsStayHopeful(s, a);
    case RecordMedia(_, _) => ResultsStayHopeful(s, a);
    case Save(_, _) => OthersStayHopeful(s, a);
    case Echo(_) => OthersStayHopeful(s, a);
    case Collide(_) => OthersStayHopeful(s, a);
    case Restart => OthersStayHopeful(s, a);
    case Drop(id) => DropStaysHopeful(s, id);
    case Logout => LogoutStaysHopeful(s, a);
    case _ => WorkersStayHopeful(s, a);
  }

  lemma {:induction false} RunStaysHopeful(actions: seq<Action>)
    ensures HandlersApart(Run(actions)) && Hopeful(Run(actions))
  {
    hide Apply, Inv;
    if actions != [] {
      var less, a := actions[..|actions| - 1], actions[|actions| - 1];
      RunStaysHopeful(less);
      RunKeepsInv(less);
      StepStaysApart(Run(less), a);
      StepStaysHopeful(Run(less), a);
    }
  }

  // A message whose provider call was made has only failed if the call's own result was recorded as failed.
  lemma {:induction false} CalledFailsByResult(actions: seq<Action>, id: Id)
    requires id in Run(actions).calls && id in Run(actions).t.states && Run(actions).t.states[id] == Failed
    ensures exists i: nat :: i < |actions| && Records(Run(actions[..i]), actions[i], id, Failed)
  {
    hide Apply, Inv, Records, Keyed, HandlersApart, Hopeful;
    if actions != [] {
      var less, a := actions[..|actions| - 1], actions[|actions| - 1];
      RunKeepsInv(less);
      RunStaysHopeful(less);
      FailsByResult(Run(less), a, id);
      if Records(Run(less), a, id, Failed) {
        assert Records(Run(actions[..|less|]), actions[|less|], id, Failed);
      } else {
        CalledFailsByResult(less, id);
        var i: nat :| i < |less| && Records(Run(less[..i]), less[i], id, Failed);
        assert actions[..i] == less[..i];
      }
    }
  }

  lemma FailsByResult(s: World, a: Action, id: Id)
    requires Inv(s) && HandlersApart(s) && Hopeful(s)
    requires id in Apply(s, a).calls && id in Apply(s, a).t.states && Apply(s, a).t.states[id] == Failed
    ensures Records(s, a, id, Failed) || (id in s.calls && id in s.t.states && s.t.states[id] == Failed)
  {
    hide AnswersGood, Keyed, HandlersAlone, Apply;
    if id in s.calls {
      TurnedOrSame(s, a, id);
      assert id in s.t.jobs ==> s.t.jobs[id].phase == Sending;
    } else {
      CallsAreHopeful(s, a, id);
    }
  }

  lemma CallsAreHopeful(s: World, a: Action, id: Id)
    requires Inv(s) && Hopeful(s) && id !in s.calls && id in Apply(s, a).calls
    ensures id in s.t.states && id in Apply(s, a).t.states && Apply(s, a).t.states[id] != Failed
  {
    hide AnswersGood, Keyed, HandlersAlone, WorkersAlone, CallsGood, KeysUnique;
  }

  ghost predicate WaitsAs(s: World, id: Id, job: Job) {
    Keyed(s.t.keys, id) && (id in s.t.jobs ==> s.t.jobs[id] == job)
  }

  lemma RetryWaits(s: World, a: Action, id: Id)
    requires Inv(s) && a.Retry? && a.w in s.workers && s.workers[a.w] == Uploads(id)
    ensures WaitsAs(Apply(s, a), id, Job(Waiting, a.attempts, Some(a.next)))
  {
    hide HandlersAlone, CallsGood, AnswersGood, KeysUnique;
  }

  lemma StaysWaiting(s: World, a: Action, id: Id, job: Job)
    requires Inv(s) && WaitsAs(s, id, job) && job.phase == Waiting && !Releases(s, a, id) && !Claims(s, a, id)
    ensures WaitsAs(Apply(s, a), id, job)
  {
    hide HandlersAlone, CallsGood, AnswersGood, Keyed;
    StepForgetsNothing(s, a);
    KeyedStays(s.t.keys, Apply(s, a).t.keys, id);
    KeyedIsStored(s.t, id);
  }

  ghost predicate RetriedAt(actions: seq<Action>, id: Id, i: nat) {
    i < |actions| && actions[i].Retry? && actions[i].w in Run(actions[..i]).workers &&
        Run(actions[..i]).workers[actions[i].w] == Uploads(id)
  }

  lemma {:induction false} WaitsUntil(actions: seq<Action>, id: Id, i: nat, j: nat)
    requires i < j <= |actions| && RetriedAt(actions, id, i)
    requires forall k :: i < k < j ==> !ReleasedAt(actions, id, k) && !ClaimedAt(actions, id, k)
    ensures WaitsAs(Run(actions[..j]), id, Job(Waiting, actions[i].attempts, Some(actions[i].next)))
  {
    hide Apply, Inv, Claims, Releases, WaitsAs, Run;
    var s, a := Run(actions[..j - 1]), actions[j - 1];
    RunKeepsInv(actions[..j - 1]);
    assert actions[..j] == actions[..j - 1] + [a];
    RunThen(actions[..j - 1], a);
    if i == j - 1 {
      RetryWaits(s, a, id);
    } else {
      WaitsUntil(actions, id, i, j - 1);
      assert !ReleasedAt(actions, id, j - 1) && !ClaimedAt(actions, id, j - 1);
      StaysWaiting(s, a, id, Job(Waiting, actions[i].attempts, Some(actions[i].next)));
    }
  }

  // A job that is to be tried again is not claimed before its time.
  lemma ClaimsAreDue(actions: seq<Action>, id: Id, i: nat, j: nat)
    requires i < j && RetriedAt(actions, id, i) && ClaimedAt(actions, id, j)
    requires forall k :: i < k < j ==> !ReleasedAt(actions, id, k) && !ClaimedAt(actions, id, k)
    ensures actions[i].next <= actions[j].now
  {
    hide Run;
    WaitsUntil(actions, id, i, j);
  }
}
