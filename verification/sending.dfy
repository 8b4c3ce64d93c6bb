// service.go and media_send.go over the store: request handlers, upload workers, incoming messages, events and
// history, logouts and restarts, step by step in any order. Each step is one the send pipeline can take, so what the
// pipeline promises holds for the rows, keys and jobs of the store.
module Sending {
  import opened ConversationRows
  import opened ConversationState
  import opened Conversations
  import opened History
  import opened Links
  import opened Outbox
  import Paging
  import opened Participants
  import opened Schema
  import opened SendRefinement
  import SendPipeline
  import opened Wrappers

  // One step of whatever runs in the process, or a restart of it.
  datatype Step =
    | Look(h: nat, k: KeyId, hash: string, media: bool)
    | Reserving(h: nat, m: MessageIn, conv: Id, upload: Option<Object>)
    | CallingText(h: nat)
    | RecordingText(h: nat, state: State, sender: string, at: Option<int>)
    | Abandoning(h: nat)
    | Claiming(w: nat, id: Id, now: int)
    | Beginning(w: nat)
    | CallingMedia(w: nat)
    | RecordingMedia(w: nat, state: State, sender: string, at: Option<int>)
    | Retrying(w: nat, next: int, attempts: nat)
    | FailingUpload(w: nat)
    | Leaving(w: nat)
    | Receiving(m: MessageIn, now: int)
    | Committing(t: Transaction)
    | LoggingOut
    | Restarting
  {
    // What a send reserves is made by the service; what the provider brings is not stored yet.
    ghost predicate Proper() {
      match this
      case Reserving(_, m, _, _) => m.direction == Outbound && m.state == Queued && m.parts == map[] && m.order == None
      case Receiving(m, _) => Unstored(m)
      case Committing(t) => t.Proper()
      case _ => true
    }

    // Only the history of a chat may leave another conversation without a refresh.
    predicate ImportsChat() {
      Committing? && t.ImportsChat()
    }
  }

  predicate Unclaimed(rows: Messages, orphans: set<Object>, x: Object) {
    x !in orphans && forall i, p :: i in rows && p in rows[i].parts ==> rows[i].parts[p].blob != Some(x)
  }

  lemma UnclaimedIsNew(rows: Messages, orphans: set<Object>, x: Object)
    requires Unclaimed(rows, orphans, x)
    ensures x !in AllObjects(rows) + orphans
  {
  }

  lemma CalledOnce(s: SendPipeline.World)
    requires Reachable(s)
    ensures forall i, j :: 0 <= i < j < |s.calls| ==> s.calls[i] != s.calls[j]
    ensures forall id :: id in s.calls ==> Keyed(s.t.keys, id)
  {
    hide SendPipeline.Run, SendPipeline.HandlersAlone, SendPipeline.WorkersAlone;
    var actions :| SendPipeline.Run(actions) == s;
    SendPipeline.RunKeepsInv(actions);
  }

  lemma StoreJobsHaveRows(s: Store)
    requires s.Valid()
    ensures s.jobs <= s.rows.Keys
  {
    JobsAreOutbound(s.rows, s.keys, s.jobs, s.orphans);
  }

  lemma StatesOfRows(rows: Messages)
    ensures States(rows).Keys == rows.Keys
  {
  }

  lemma ReservedIsQueued(conv: Id, local: nat, m: MessageIn, upload: Option<Object>)
    ensures ReservedRow(conv, local, m, upload).state == Queued
  {
  }

  class Service {
    const store: Store
    // The other columns of outgoing_media_jobs.
    var phases: map<Id, Job>
    var handlers: map<nat, SendPipeline.Handler>
    var workers: map<nat, SendPipeline.Worker>
    var calls: seq<Id>
    ghost var answers: set<(KeyId, string, Id)>

    constructor ()
      ensures Valid() && fresh(store) && fresh(store.people)
      ensures store.Now() == Db(map[], map[], map[], map[], {}, {}, {}) && calls == []
    {
      store := new Store();
      phases, handlers, workers, calls, answers := map[], map[], map[], [], {};
      new;
      assert SendPipeline.Run([]) == World();
    }

    ghost function World(): SendPipeline.World
      reads this, store
    {
      SendPipeline.World(View(store.rows, phases, store.keys), handlers, workers, calls, answers)
    }

    ghost predicate Valid()
      reads this, store, store.people
    {
      store.Valid() && phases.Keys == store.jobs && Reachable(World())
    }

    // LookupSend
    method Request(h: nat, k: KeyId, hash: string, media: bool)
      requires Valid()
      modifies this`handlers, this`answers
      ensures Valid() && World() == SendPipeline.Apply(old(World()), SendPipeline.Request(h, k, hash, media))
    {
      hide Reachable, Store.Valid, States;
      Goes(World(), SendPipeline.Request(h, k, hash, media));
      if h !in handlers {
        if k !in store.keys {
          handlers := handlers[h := SendPipeline.Prepared(k, hash, media)];
        } else if store.keys[k].hash == hash {
          answers := answers + {(k, hash, store.keys[k].message)};
        }
      }
    }

    // The provider call of a text message.
    method CallText(h: nat)
      requires Valid()
      modifies this`handlers, this`calls
      ensures Valid() && World() == SendPipeline.Apply(old(World()), SendPipeline.CallText(h))
    {
      hide Reachable, Store.Valid, States;
      Goes(World(), SendPipeline.CallText(h));
      if h in handlers && handlers[h].MustSend? {
        calls := calls + [handlers[h].id];
        handlers := handlers[h := SendPipeline.Returned(handlers[h].id)];
      }
    }

    // A handler that is cancelled or fails.
    method Abandon(h: nat)
      requires Valid()
      modifies this`handlers
      ensures Valid() && World() == SendPipeline.Apply(old(World()), SendPipeline.Abandon(h))
    {
      hide Reachable, Store.Valid, States;
      Goes(World(), SendPipeline.Abandon(h));
      handlers := handlers - {h};
    }

    // ReserveSend or, with an upload, ReserveMediaSend.
    method ReserveRow(m: MessageIn, conv: Id, k: KeyId, hash: string, upload: Option<Object>)
      returns (r: Result<(Id, bool)>)
      requires store.Valid() && phases.Keys == store.jobs && Reserving(0, m, conv, upload).Proper()
      requires forall i :: i in store.rows ==> store.rows[i].pid != m.pid
      requires upload.Some? ==> upload.value !in AllObjects(store.rows) + store.orphans
      modifies this`phases, store
      ensures store.Valid() && phases.Keys == store.jobs && store.stale <= old(store.stale)
      ensures r.Ok? && k in old(store.keys) ==>
                old(store.keys)[k].hash == hash && r.value == (old(store.keys)[k].message, false)
      ensures r.Ok? && k !in old(store.keys) ==> r.value.1 && r.value.0 !in old(store.rows)
      ensures View(store.rows, phases, store.keys) ==
              if r.Ok? && k !in old(store.keys)
              then Reserved(old(View(store.rows, phases, store.keys)), k, hash, r.value.0, upload.Some?)
              else old(View(store.rows, phases, store.keys))
    {
      hide Store.Valid, AllObjects, OnlyRefreshed, States, ReservedRow, Reserved;
      ghost var rows, columns, keys := store.rows, phases, store.keys;
      r := store.ReserveSend(m, conv, k, hash, upload);
      if r.Ok? && r.value.1 {
        if upload.Some? {
          phases := phases[r.value.0 := Job(Waiting, 0, None)];
        }
        ghost var local :| store.rows == rows[r.value.0 := ReservedRow(conv, local, m, upload)];
        ReservedIsQueued(conv, local, m, upload);
        ReservedViews(rows, columns, keys, k, hash, r.value.0, ReservedRow(conv, local, m, upload), upload.Some?);
      }
    }

    // The reservation of the handler that looked the key up.
    method Reserve(h: nat, m: MessageIn, conv: Id, upload: Option<Object>)
      requires Valid() && Reserving(h, m, conv, upload).Proper()
      requires forall i :: i in store.rows ==> store.rows[i].pid != m.pid
      requires upload.Some? ==> upload.value !in AllObjects(store.rows) + store.orphans
      requires h in handlers && handlers[h].Prepared? && (handlers[h].media <==> upload.Some?)
      modifies this, store
      ensures Valid() && store.stale <= old(store.stale) && calls == old(calls)
      ensures World() == SendPipeline.Apply(old(World()), SendPipeline.Abandon(h)) ||
              exists id :: World() == SendPipeline.Apply(old(World()), SendPipeline.Reserve(h, id))
    {
      hide Reachable, Store.Valid, AllObjects, States, Reserved;
      ghost var before := World();
      StatesOfRows(store.rows);
      var p := handlers[h];
      var id := store.NewId(store.rows.Keys);
      var reserved := ReserveRow(m, conv, p.k, p.hash, upload);
      handlers := handlers - {h};
      if reserved.Err? {
        Goes(before, SendPipeline.Abandon(h));
        return;
      }
      answers := answers + {(p.k, p.hash, reserved.value.0)};
      if reserved.value.1 {
        id := reserved.value.0;
        if !p.media {
          handlers := handlers[h := SendPipeline.MustSend(id)];
        }
      }
      Goes(before, SendPipeline.Reserve(h, id));
      assert World() == SendPipeline.Apply(before, SendPipeline.Reserve(h, id));
    }

    // CompleteSend
    method CompleteText(id: Id, state: State, sender: string, at: Option<int>)
      requires store.Valid() && state in {Sent, Failed, OutcomeUnknown}
      modifies store
      ensures store.Valid() && store.jobs == old(store.jobs) && store.keys == old(store.keys)
      ensures store.stale <= old(store.stale)
      ensures View(store.rows, phases, store.keys) ==
              TextCompleted(old(View(store.rows, phases, store.keys)), id, state)
    {
      hide Store.Valid, OnlyRefreshed, CompletedRow;
      if id in store.rows {
        CompletedViews(store.rows, phases, store.keys, id, state, sender, at, false);
      }
      var _ := store.CompleteSend(id, state, sender, at, false);
    }

    method RecordText(h: nat, state: State, sender: string, at: Option<int>)
      requires Valid()
      modifies this, store
      ensures Valid() && World() == SendPipeline.Apply(old(World()), SendPipeline.RecordText(h, state))
      ensures store.stale <= old(store.stale)
    {
      hide Reachable, Store.Valid, OnlyRefreshed, States, CompletedRow, TextCompleted;
      Goes(World(), SendPipeline.RecordText(h, state));
      if h in handlers && handlers[h].Returned? && state in {Sent, Failed, OutcomeUnknown} {
        CompleteText(handlers[h].id, state, sender, at);
        handlers := handlers - {h};
      }
    }

    // ClaimMediaSend
    method Claim(w: nat, id: Id, now: int)
      requires Valid()
      modifies this`phases, this`workers
      ensures Valid() && World() == SendPipeline.Apply(old(World()), SendPipeline.Claim(w, id, now))
    {
      hide Reachable, Store.Valid;
      Goes(World(), SendPipeline.Claim(w, id, now));
      if w !in workers && id in phases && phases[id].phase == Waiting &&
          (phases[id].next.None? || phases[id].next.value <= now) {
        if id in store.rows && store.rows[id].state == Queued {
          phases := phases[id := phases[id].(phase := Uploading)];
          workers := workers[w := SendPipeline.Uploads(id)];
        }
      }
    }

    // RetryMediaSend
    method Retry(w: nat, next: int, attempts: nat)
      requires Valid()
      modifies this`phases, this`workers
      ensures Valid() && World() == SendPipeline.Apply(old(World()), SendPipeline.Retry(w, next, attempts))
    {
      hide Reachable, Store.Valid, States;
      Goes(World(), SendPipeline.Retry(w, next, attempts));
      if w in workers && (workers[w].Uploads? || workers[w].BeginFailed?) {
        var id := workers[w].id;
        if id in phases && phases[id].phase == Uploading {
          phases := phases[id := Job(Waiting, attempts, Some(next))];
        }
        workers := workers - {w};
      }
    }

    // BeginMediaSend
    method Begin(w: nat)
      requires Valid()
      modifies this`phases, this`workers
      ensures Valid() && World() == SendPipeline.Apply(old(World()), SendPipeline.Begin(w))
    {
      hide Reachable, Store.Valid, States;
      Goes(World(), SendPipeline.Begin(w));
      if w in workers && workers[w].Uploads? {
        var id := workers[w].id;
        if id in phases && phases[id].phase == Uploading {
          phases := phases[id := phases[id].(phase := Phase.Sending)];
          workers := workers[w := SendPipeline.MayCall(id)];
        } else {
          workers := workers[w := SendPipeline.BeginFailed(id)];
        }
      }
    }

    // The provider call of a media message.
    method CallMedia(w: nat)
      requires Valid()
      modifies this`workers, this`calls
      ensures Valid() && World() == SendPipeline.Apply(old(World()), SendPipeline.CallMedia(w))
    {
      hide Reachable, Store.Valid, States;
      Goes(World(), SendPipeline.CallMedia(w));
      if w in workers && workers[w].MayCall? {
        calls := calls + [workers[w].id];
        workers := workers[w := SendPipeline.CallReturned(workers[w].id)];
      }
    }

    // A worker that ends without a result.
    method Leave(w: nat)
      requires Valid()
      modifies this`workers
      ensures Valid() && World() == SendPipeline.Apply(old(World()), SendPipeline.Leave(w))
    {
      hide Reachable, Store.Valid, States;
      Goes(World(), SendPipeline.Leave(w));
      workers := workers - {w};
    }

    // CompleteMediaSend of a message with a job or without one.
    method CompleteMedia(id: Id, state: State, sender: string, at: Option<int>)
      requires store.Valid() && phases.Keys == store.jobs && state in {Sent, Failed, OutcomeUnknown}
      modifies this`phases, store
      ensures store.Valid() && phases.Keys == store.jobs && store.keys == old(store.keys)
      ensures store.stale <= old(store.stale)
      ensures View(store.rows, phases, store.keys) ==
              MediaCompleted(old(View(store.rows, phases, store.keys)), id, state)
    {
      hide Store.Valid, OnlyRefreshed, CompletedRow;
      if id in store.rows {
        CompletedViews(store.rows, phases, store.keys, id, state, sender, at, true);
      }
      StoreJobsHaveRows(store);
      var completed := store.CompleteSend(id, state, sender, at, true);
      if completed.Ok? {
        phases := phases - {id};
      }
    }

    method RecordMedia(w: nat, state: State, sender: string, at: Option<int>)
      requires Valid()
      modifies this, store
      ensures Valid() && World() == SendPipeline.Apply(old(World()), SendPipeline.RecordMedia(w, state))
      ensures store.stale <= old(store.stale)
    {
      hide Reachable, Store.Valid, MediaCompleted, States;
      Goes(World(), SendPipeline.RecordMedia(w, state));
      if w in workers && workers[w].CallReturned? && state in {Sent, Failed, OutcomeUnknown} {
        CompleteMedia(workers[w].id, state, sender, at);
        workers := workers - {w};
      }
    }

    // failMediaSend, before the provider was called.
    method FailUpload(w: nat)
      requires Valid()
      modifies this, store
      ensures Valid() && World() == SendPipeline.Apply(old(World()), SendPipeline.FailUpload(w))
      ensures store.stale <= old(store.stale)
    {
      hide Reachable, Store.Valid, MediaCompleted, States;
      Goes(World(), SendPipeline.FailUpload(w));
      if w in workers && (workers[w].Uploads? || workers[w].BeginFailed?) {
        CompleteMedia(workers[w].id, Failed, "", None);
        workers := workers - {w};
      }
    }

    // FailMediaSendsForAccount
    method Logout()
      requires Valid()
      modifies this`phases, store
      ensures Valid() && World() == SendPipeline.Apply(old(World()), SendPipeline.Logout)
      ensures store.stale == old(store.stale)
    {
      hide Reachable, Store.Valid, States, Failing, LoggedOut, SendRefinement.Sending;
      Goes(World(), SendPipeline.Logout);
      FailingViews(store.rows, phases, store.keys);
      store.FailMediaSends(SendRefinement.Sending(phases));
      phases := map[];
    }

    // recoverSends, in a process that has no handlers and workers yet.
    method Restart()
      requires Valid()
      modifies this, store
      ensures Valid() && World() == SendPipeline.Apply(old(World()), SendPipeline.Restart)
      ensures store.stale == old(store.stale)
    {
      hide Reachable, Store.Valid, States, Recovering, Recovered, SendRefinement.Sending, Requeued, Remaining;
      Goes(World(), SendPipeline.Restart);
      StoreJobsHaveRows(store);
      ghost var rows := store.rows;
      store.RecoverSends(SendRefinement.Sending(phases));
      RecoveringViews(rows, phases, store.jobs, store.keys);
      phases := Requeued(Remaining(phases, store.jobs));
      handlers, workers := map[], map[];
    }

    // SaveMessage
    method Receive(m: MessageIn, now: int)
      requires Valid() && Unstored(m)
      modifies this, store
      ensures Valid() && store.stale <= old(store.stale)
      ensures handlers == old(handlers) && workers == old(workers) && calls == old(calls)
    {
      hide Reachable, Good, Agrees, Consistent, Follows, States, Echoes, Inserts, Ensured;
      ghost var before, world := store.Now(), World();
      GoodKeys(before);
      var saved, ensured := store.SaveMessage(m, now);
      if saved.Err? {
        FollowsSame(store.keys, store.rows, store.jobs);
      } else if Repeated(before.rows, m) {
        EchoFollows(store.keys, before.rows, before.jobs, store.rows, saved.value, m);
      } else {
        EnsuredFollows(before, ensured, m.chat, Linked(store.people.links, [m.chat] + []), store.aliases[m.chat]);
        InsertFollows(store.keys, ensured.rows, ensured.jobs, store.rows, saved.value, store.aliases[m.chat], m);
        FollowsOn(store.keys, before.rows, before.jobs, ensured.rows, ensured.jobs, store.rows, store.jobs);
      }
      FollowsReach(world, store.keys, before.rows, before.jobs, store.rows, store.jobs);
      phases := Remaining(phases, store.jobs);
    }

    // A live event, a message change or a batch of history.
    method Commit(t: Transaction)
      requires Valid() && t.Proper()
      modifies this, store, store.people
      ensures Valid() && (!t.ImportsChat() ==> store.stale <= old(store.stale))
      ensures handlers == old(handlers) && workers == old(workers) && calls == old(calls)
    {
      hide Reachable, Store.Valid, Follows, States, AllObjects, Learn, Transaction.Taken, Transaction.TakenChanges;
      ghost var before, world := store.Now(), World();
      History.Commit(store, t);
      FollowsReach(world, store.keys, before.rows, before.jobs, store.rows, store.jobs);
      phases := Remaining(phases, store.jobs);
    }

    // The provider message ID and the object of a reservation are new.
    predicate Fresh(m: MessageIn, upload: Option<Object>)
      reads this, store
    {
      && (forall i :: i in store.rows ==> store.rows[i].pid != m.pid)
      && (upload.Some? ==> Unclaimed(store.rows, store.orphans, upload.value))
    }

    method TryReserve(h: nat, m: MessageIn, conv: Id, upload: Option<Object>)
      requires Valid() && Reserving(h, m, conv, upload).Proper()
      modifies this, store
      ensures Valid() && store.stale <= old(store.stale) && old(calls) <= calls
    {
      hide Reachable, Store.Valid, SendPipeline.Apply, AllObjects;
      if h in handlers && handlers[h].Prepared? && (handlers[h].media <==> upload.Some?) && Fresh(m, upload) {
        if upload.Some? {
          UnclaimedIsNew(store.rows, store.orphans, upload.value);
        }
        Reserve(h, m, conv, upload);
      }
    }

    method Take(step: Step)
      requires Valid() && step.Proper()
      modifies this, store, store.people
      ensures Valid() && old(calls) <= calls
      ensures !step.ImportsChat() ==> store.stale <= old(store.stale)
    {
      hide Reachable, Store.Valid, States, Transaction.Proper, Transaction.ImportsChat, Unstored;
      match step {
        case Look(h, k, hash, media) =>
          Request(h, k, hash, media);
        case Reserving(h, m, conv, upload) =>
          TryReserve(h, m, conv, upload);
        case CallingText(h) =>
          CallText(h);
        case RecordingText(h, state, sender, at) =>
          RecordText(h, state, sender, at);
        case Abandoning(h) =>
          Abandon(h);
        case Claiming(w, id, now) =>
          Claim(w, id, now);
        case Beginning(w) =>
          Begin(w);
        case CallingMedia(w) =>
          CallMedia(w);
        case RecordingMedia(w, state, sender, at) =>
          RecordMedia(w, state, sender, at);
        case Retrying(w, next, attempts) =>
          Retry(w, next, attempts);
        case FailingUpload(w) =>
          FailUpload(w);
        case Leaving(w) =>
          Leave(w);
        case Receiving(m, now) =>
          Receive(m, now);
        case Committing(t) =>
          Commit(t);
        case LoggingOut =>
          Logout();
        case Restarting =>
          Restart();
      }
    }

    // Every run of the service is one of the send pipeline over its store. So the provider is called at most once for
    // a message and only for keyed ones, whatever is merged, repeated, imported or lost in between.
    method Serve(steps: seq<Step>)
      requires Valid() && forall step :: step in steps ==> step.Proper()
      modifies this, store, store.people
      ensures Valid() && old(calls) <= calls
      ensures forall i, j :: 0 <= i < j < |calls| ==> calls[i] != calls[j]
      ensures forall id :: id in calls ==> Keyed(store.keys, id)
      ensures (forall step :: step in steps ==> !step.ImportsChat()) ==> store.stale <= old(store.stale)
    {
      hide Reachable, Store.Valid, States, Step.Proper, Step.ImportsChat, Keyed;
      for k := 0 to |steps|
        invariant Valid() && old(calls) <= calls
        invariant (forall step :: step in steps ==> !step.ImportsChat()) ==> store.stale <= old(store.stale)
      {
        assert steps[k] in steps;
        Take(steps[k]);
      }
      CalledOnce(World());
    }
  }

  // In every run without a chat's history, every cached last message is the newest of its conversation, and the first
  // one that a reader gets.
  method ServeWithoutHistory(steps: seq<Step>) returns (s: Service)
    requires forall step :: step in steps ==> step.Proper() && !step.ImportsChat()
    ensures s.Valid() && s.store.stale == {}
    ensures forall c :: c in s.store.conversations ==> IsLast(s.store.rows, c, s.store.conversations[c].last)
    ensures forall c, tl :: c in s.store.conversations && Paging.Timeline(s.store.rows, Paging.In(c), tl) ==>
              s.store.conversations[c].last == if tl == [] then None else Some(tl[0])
  {
    hide Reachable, States, Step.Proper, Step.ImportsChat, IsLast, Paging.Timeline, RowsGood, Agrees, Rooted, Keyed;
    s := new Service();
    s.Serve(steps);
    forall c | c in s.store.conversations
      ensures IsLast(s.store.rows, c, s.store.conversations[c].last)
    {
      LastIsRight(s.store.Now(), c);
    }
    forall c, tl | c in s.store.conversations && Paging.Timeline(s.store.rows, Paging.In(c), tl)
      ensures s.store.conversations[c].last == if tl == [] then None else Some(tl[0])
    {
      Paging.LastIsFirst(s.store.rows, c, tl, s.store.conversations[c].last);
    }
  }
}
