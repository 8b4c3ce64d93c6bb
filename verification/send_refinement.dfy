// The conversation store does to a message, its key and its job what the send pipeline says: the pipeline's
// tables are the store's tables seen through the state column and the columns of the jobs.
module SendRefinement {
  import opened ConversationRows
  import opened ConversationState
  import opened Links
  import opened MergePlan
  import opened MergeRows
  import Outbox
  import opened Schema
  import SendPipeline
  import opened Wrappers

  ghost predicate Abstracts(t: Outbox.Tables, rows: Messages, keys: Keys, jobs: set<Id>) {
    && t.states.Keys == rows.Keys && t.keys == keys && t.jobs.Keys == jobs
    && forall i :: i in rows ==> t.states[i] == rows[i].state
  }

  lemma EchoRefines(t: Outbox.Tables, rows: Messages, keys: Keys, jobs: set<Id>, e: Id, m: MessageIn)
    requires Abstracts(t, rows, keys, jobs) && e in rows
    ensures Abstracts(Outbox.Echoed(t, e), rows[e := EchoedRow(rows[e], m)], keys, jobs - {e})
  {
  }

  // The upsert sends an outbound message on like a collision does; the states of inbound ones stay.
  lemma ConflictRefines(t: Outbox.Tables, rows: Messages, keys: Keys, jobs: set<Id>, e: Id, m: MessageIn)
    requires Abstracts(t, rows, keys, jobs) && e in rows
    ensures Abstracts(if rows[e].direction == Outbound then Outbox.Collided(t, e) else t,
                      rows[e := ConflictRow(rows[e], m)], keys, jobs)
  {
  }

  lemma NewRowRefines(t: Outbox.Tables, rows: Messages, keys: Keys, jobs: set<Id>, id: Id, conv: Id, local: nat,
                      m: MessageIn)
    requires Abstracts(t, rows, keys, jobs) && id !in rows
    ensures Abstracts(Outbox.Saved(t, id, m.state), rows[id := NewRow(conv, local, m)], keys, jobs)
  {
  }

  lemma ReservedRefines(t: Outbox.Tables, rows: Messages, keys: Keys, jobs: set<Id>, id: Id, conv: Id, local: nat,
                        m: MessageIn,
                        k: KeyId, hash: string, upload: Option<Object>)
    requires Abstracts(t, rows, keys, jobs) && id !in rows
    ensures Abstracts(Outbox.Reserved(t, k, hash, id, upload.Some?), rows[id := ReservedRow(conv, local, m, upload)],
                      keys[k := SendKey(hash, id)], jobs + if upload.Some? then {id} else {})
  {
  }

  lemma CompletedRefines(t: Outbox.Tables, rows: Messages, keys: Keys, jobs: set<Id>, id: Id, state: State,
                         sender: string, at: Option<int>, media: bool)
    requires Abstracts(t, rows, keys, jobs) && id in rows && state in {Sent, Failed, OutcomeUnknown}
    ensures Abstracts(if media then Outbox.MediaCompleted(t, id, state) else Outbox.TextCompleted(t, id, state),
                      rows[id := CompletedRow(rows[id], state, sender, at, media)], keys, if media then jobs - {id}
                          else jobs)
  {
  }

  // What a merge drops has no key, so it is no more than the pipeline's dropping of such messages.
  lemma MergeRefines(t: Outbox.Tables, plan: Plan, jobs: set<Id>)
    requires plan.Good() && Abstracts(t, plan.rows, plan.keys, jobs)
    ensures var final := plan.Merged(plan.Sources());
            && final.Keys <= plan.rows.Keys
            && (forall i :: i in plan.rows.Keys - final.Keys ==> !Keyed(plan.keys, i))
            && Abstracts(t.(states := t.states - (plan.rows.Keys - final.Keys)), final, plan.keys, jobs)
  {
    var final := plan.Merged(plan.Sources());
    forall i | i in final
      ensures final[i].state == plan.rows[i].state
    {
      plan.AfterKeepsIdentity(plan.Sources(), i);
    }
    forall i | i in plan.rows.Keys - final.Keys
      ensures !Keyed(plan.keys, i)
    {
      if Keyed(plan.keys, i) {
        plan.KeyedSurvives(plan.Sources(), i);
      }
    }
  }

  ghost predicate Reachable(s: SendPipeline.World) {
    exists actions :: SendPipeline.Run(actions) == s
  }

  lemma Goes(s: SendPipeline.World, a: SendPipeline.Action)
    requires Reachable(s)
    ensures Reachable(SendPipeline.Apply(s, a))
  {
    hide SendPipeline.Apply;
    var actions :| SendPipeline.Run(actions) == s;
    SendPipeline.RunThen(actions, a);
  }

  // The pipeline can change its tables in this way whatever its handlers and workers are doing.
  ghost predicate Leads(t: Outbox.Tables, t': Outbox.Tables) {
    forall s: SendPipeline.World :: s.t == t && Reachable(s) ==> Reachable(s.(t := t'))
  }

  lemma EchoLeads(t: Outbox.Tables, e: Id)
    ensures Leads(t, Outbox.Echoed(t, e))
  {
    forall s: SendPipeline.World | s.t == t && Reachable(s)
      ensures Reachable(s.(t := Outbox.Echoed(t, e)))
    {
      Goes(s, SendPipeline.Echo(e));
    }
  }

  lemma CollisionLeads(t: Outbox.Tables, e: Id)
    ensures Leads(t, Outbox.Collided(t, e))
  {
    forall s: SendPipeline.World | s.t == t && Reachable(s)
      ensures Reachable(s.(t := Outbox.Collided(t, e)))
    {
      Goes(s, SendPipeline.Collide(e));
    }
  }

  lemma SaveLeads(t: Outbox.Tables, id: Id, state: State)
    requires id !in t.states
    ensures Leads(t, Outbox.Saved(t, id, state))
  {
    forall s: SendPipeline.World | s.t == t && Reachable(s)
      ensures Reachable(s.(t := Outbox.Saved(t, id, state)))
    {
      Goes(s, SendPipeline.Save(id, state));
    }
  }

  lemma {:induction false} DropsLead(t: Outbox.Tables, gone: set<Id>)
    requires forall i :: i in gone ==> !Keyed(t.keys, i)
    ensures Leads(t, t.(states := t.states - gone))
    decreases gone
  {
    hide Reachable;
    if gone == {} {
      assert t.states - gone == t.states;
    } else {
      var i :| i in gone;
      DropsLead(t, gone - {i});
      var t' := t.(states := t.states - (gone - {i}));
      assert t'.states - {i} == t.states - gone;
      forall s: SendPipeline.World | s.t == t && Reachable(s)
        ensures Reachable(s.(t := t.(states := t.states - gone)))
      {
        Goes(s.(t := t'), SendPipeline.Drop(i));
      }
    }
  }

  function States(rows: Messages): map<Id, State> {
    map i | i in rows :: rows[i].state
  }

  // The store's tables as the pipeline sees them; phases are the columns of the jobs.
  function View(rows: Messages, phases: map<Id, Outbox.Job>, keys: Keys): Outbox.Tables {
    Outbox.Tables(States(rows), phases, keys)
  }

  function Remaining(phases: map<Id, Outbox.Job>, jobs: set<Id>): map<Id, Outbox.Job> {
    map i | i in phases && i in jobs :: phases[i]
  }

  // A transaction that serves no send request: it may end jobs but leaves the others and all keys as they are, and the
  // pipeline can do what it does to the states.
  ghost predicate Follows(keys: Keys, rows: Messages, jobs: set<Id>, rows': Messages, jobs': set<Id>) {
    && jobs' <= jobs
    && forall phases: map<Id, Outbox.Job> :: phases.Keys == jobs ==>
         Leads(View(rows, phases, keys), View(rows', Remaining(phases, jobs'), keys))
  }

  lemma FollowsSame(keys: Keys, rows: Messages, jobs: set<Id>)
    ensures Follows(keys, rows, jobs, rows, jobs)
  {
    hide Reachable;
    forall phases: map<Id, Outbox.Job> | phases.Keys == jobs
      ensures Remaining(phases, jobs) == phases
    {
    }
  }

  lemma FollowsOn(keys: Keys, rows: Messages, jobs: set<Id>, rows': Messages, jobs': set<Id>, rows'': Messages,
                  jobs'': set<Id>)
    requires Follows(keys, rows, jobs, rows', jobs') && Follows(keys, rows', jobs', rows'', jobs'')
    ensures Follows(keys, rows, jobs, rows'', jobs'')
  {
    hide Reachable, States;
    forall phases: map<Id, Outbox.Job> | phases.Keys == jobs
      ensures Leads(View(rows, phases, keys), View(rows'', Remaining(phases, jobs''), keys))
    {
      var phases' := Remaining(phases, jobs');
      assert phases'.Keys == jobs' && Remaining(phases', jobs'') == Remaining(phases, jobs'');
    }
  }

  lemma EchoFollows(keys: Keys, rows: Messages, jobs: set<Id>, rows': Messages, e: Id, m: MessageIn)
    requires Echoes(rows, rows', e, m)
    ensures Follows(keys, rows, jobs, rows', jobs - {e})
  {
    hide Leads, SavedParts;
    forall phases: map<Id, Outbox.Job> | phases.Keys == jobs
      ensures Leads(View(rows, phases, keys), View(rows', Remaining(phases, jobs - {e}), keys))
    {
      EchoLeads(View(rows, phases, keys), e);
      assert Outbox.Echoed(View(rows, phases, keys), e) == View(rows', Remaining(phases, jobs - {e}), keys);
    }
  }

  lemma InsertFollows(keys: Keys, rows: Messages, jobs: set<Id>, rows': Messages, id: Id, conv: Id, m: MessageIn)
    requires Inserts(rows, rows', id, conv, m)
    ensures Follows(keys, rows, jobs, rows', jobs)
  {
    hide Leads, States, Inserts;
    forall phases: map<Id, Outbox.Job> | phases.Keys == jobs
      ensures Leads(View(rows, phases, keys), View(rows', Remaining(phases, jobs), keys))
    {
      InsertLeads(keys, rows, phases, rows', id, conv, m);
      assert Remaining(phases, jobs) == phases;
    }
  }

  lemma InsertLeads(keys: Keys, rows: Messages, phases: map<Id, Outbox.Job>, rows': Messages, id: Id, conv: Id,
                    m: MessageIn)
    requires Inserts(rows, rows', id, conv, m)
    ensures Leads(View(rows, phases, keys), View(rows', phases, keys))
  {
    hide Leads, SavedParts, HasPid;
    var t, t' := View(rows, phases, keys), View(rows', phases, keys);
    if id !in rows {
      SaveLeads(t, id, m.state);
      assert Outbox.Saved(t, id, m.state).states == t'.states;
    } else if rows[id].direction == Outbound {
      CollisionLeads(t, id);
      assert Outbox.Collided(t, id).states == t'.states;
    } else {
      assert t'.states == t.states;
      StaysLed(t);
    }
  }

  lemma StaysLed(t: Outbox.Tables)
    ensures Leads(t, t)
  {
  }

  // Rows that only move or go, and go only if they are inbound.
  ghost predicate SendsKept(rows: Messages, rows': Messages) {
    && (forall i :: i in rows' ==> i in rows && SameSend(rows[i], rows'[i]))
    && (forall i :: i in rows && rows[i].direction == Outbound ==> i in rows')
  }

  lemma KeptFollows(keys: Keys, rows: Messages, jobs: set<Id>, rows': Messages)
    requires KeysGood(rows, keys) && SendsKept(rows, rows')
    ensures Follows(keys, rows, jobs, rows', jobs)
  {
    hide Leads, States, KeysGood, SendsKept;
    forall phases: map<Id, Outbox.Job> | phases.Keys == jobs
      ensures Leads(View(rows, phases, keys), View(rows', Remaining(phases, jobs), keys))
    {
      KeptLeads(keys, rows, phases, rows');
      assert Remaining(phases, jobs) == phases;
    }
  }

  lemma KeptLeads(keys: Keys, rows: Messages, phases: map<Id, Outbox.Job>, rows': Messages)
    requires KeysGood(rows, keys) && SendsKept(rows, rows')
    ensures Leads(View(rows, phases, keys), View(rows', phases, keys))
  {
    hide Leads, OutboundUnique;
    var t, gone := View(rows, phases, keys), rows.Keys - rows'.Keys;
    DropsLead(t, gone);
    assert t.states - gone == View(rows', phases, keys).states;
  }

  lemma EnsuredFollows(before: Db, after: Db, chat: Jid, names: set<Jid>, conv: Id)
    requires KeysGood(before.rows, before.keys) && Ensured(before, after, chat, names, conv)
    ensures Follows(before.keys, before.rows, before.jobs, after.rows, after.jobs) && after.stale <= before.stale
  {
    hide Follows, EnsuredIndex, AllObjects, HasPid;
    KeptFollows(before.keys, before.rows, before.jobs, after.rows);
  }

  lemma ChatsLinkedFollows(before: Db, after: Db, links: set<LinkRow>, first: Jid, second: Jid)
    requires KeysGood(before.rows, before.keys) && ChatsLinked(before, after, links, first, second)
    ensures Follows(before.keys, before.rows, before.jobs, after.rows, after.jobs) && after.stale <= before.stale
  {
    hide Follows, Ensured, KeysGood, Linked;
    if after == before {
      FollowsSame(before.keys, before.rows, before.jobs);
    } else {
      EnsuredFollows(before, after, first, Linked(links, [first] + [second]), after.aliases[first]);
    }
  }

  lemma {:induction false} TraceFollows(keys: Keys, jobs: set<Id>, trace: seq<Messages>, conv: Id,
                                        messages: seq<MessageIn>)
    requires Traced(trace, conv, messages) && forall i :: i in jobs ==>
             i in trace[0] && trace[0][i].direction == Outbound
    ensures Follows(keys, trace[0], jobs, trace[|messages|], Unechoed(jobs, trace[0], messages))
    ensures Fixed(trace[0], trace[|messages|])
  {
    hide Follows, Imports, OutboundUnique, Unechoed, Fixed;
    if messages == [] {
      UnechoedNone(jobs, trace[0]);
      FollowsSame(keys, trace[0], jobs);
      FixedSame(trace[0]);
    } else {
      var n := |messages| - 1;
      assert Traced(trace[..n + 1], conv, messages[..n]);
      TraceFollows(keys, jobs, trace[..n + 1], conv, messages[..n]);
      assert messages == messages[..n] + [messages[n]];
      ImportsFix(trace[n], trace[n + 1], conv, messages[n]);
      FixedOn(trace[0], trace[n], trace[n + 1]);
      UnechoedMore(jobs, trace[0], trace[n], messages[..n], messages[n]);
      ImportFollows(keys, jobs, trace[0], trace[n], trace[n + 1], conv, messages[..n], messages[n]);
      FollowsOn(keys, trace[0], jobs, trace[n], Unechoed(jobs, trace[0], messages[..n]), trace[n + 1],
                Unechoed(jobs, trace[0], messages));
    }
  }

  lemma ImportFollows(keys: Keys, jobs: set<Id>, rows: Messages, before: Messages, after: Messages, conv: Id,
                      done: seq<MessageIn>, m: MessageIn)
    requires Imports(before, after, conv, m)
    requires m.direction != Outbound || !HasOutbound(before, m.pid) ==>
               Unechoed(jobs, rows, done + [m]) == Unechoed(jobs, rows, done)
    requires forall e :: m.direction == Outbound && e in before && IsOutbound(before[e], m.pid) ==>
               Unechoed(jobs, rows, done + [m]) == Unechoed(jobs, rows, done) - {e}
    ensures Follows(keys, before, Unechoed(jobs, rows, done), after, Unechoed(jobs, rows, done + [m]))
  {
    hide Follows, Unechoed, EchoedRow, Inserts;
    if Repeated(before, m) {
      var e :| Echoes(before, after, e, m);
      EchoFollows(keys, before, Unechoed(jobs, rows, done), after, e, m);
    } else {
      var id :| Inserts(before, after, id, conv, m);
      InsertFollows(keys, before, Unechoed(jobs, rows, done), after, id, conv, m);
    }
  }

  lemma FollowsReach(s: SendPipeline.World, keys: Keys, rows: Messages, jobs: set<Id>, rows': Messages, jobs': set<Id>)
    requires Follows(keys, rows, jobs, rows', jobs') && Reachable(s)
    requires s.t == View(rows, s.t.jobs, keys) && s.t.jobs.Keys == jobs
    ensures Remaining(s.t.jobs, jobs').Keys == jobs'
    ensures Reachable(s.(t := View(rows', Remaining(s.t.jobs, jobs'), keys)))
  {
    hide Reachable, States;
    assert Leads(View(rows, s.t.jobs, keys), View(rows', Remaining(s.t.jobs, jobs'), keys));
  }

  lemma CompletedViews(rows: Messages, phases: map<Id, Outbox.Job>, keys: Keys, id: Id, state: State, sender: string,
                       at: Option<int>, media: bool)
    requires id in rows && state in {Sent, Failed, OutcomeUnknown}
    ensures var rows' := rows[id := CompletedRow(rows[id], state, sender, at, media)];
            if media
            then View(rows', phases - {id}, keys) == Outbox.MediaCompleted(View(rows, phases, keys), id, state)
            else View(rows', phases, keys) == Outbox.TextCompleted(View(rows, phases, keys), id, state)
  {
  }

  function Sending(phases: map<Id, Outbox.Job>): set<Id> {
    set j | j in phases && phases[j].phase == Outbox.Phase.Sending
  }

  lemma FailingViews(rows: Messages, phases: map<Id, Outbox.Job>, keys: Keys)
    ensures View(Failing(rows, phases.Keys, Sending(phases)), map[], keys) == Outbox.LoggedOut(View(rows, phases, keys))
  {
  }

  // UPDATE outgoing_media_jobs SET phase = 'queued' WHERE phase = 'uploading'
  function Requeued(phases: map<Id, Outbox.Job>): map<Id, Outbox.Job> {
    map j | j in phases :: if phases[j].phase == Outbox.Uploading then phases[j].(phase := Outbox.Waiting)
        else phases[j]
  }

  lemma RecoveringViews(rows: Messages, phases: map<Id, Outbox.Job>, jobs: set<Id>, keys: Keys)
    requires phases.Keys <= rows.Keys
    requires var rows' := Recovering(rows, phases.Keys, Sending(phases));
             jobs == set j | j in phases.Keys && j !in Sending(phases) && j in rows' && rows'[j].state == Queued
    ensures View(Recovering(rows, phases.Keys, Sending(phases)), Requeued(Remaining(phases, jobs)), keys) ==
            Outbox.Recovered(View(rows, phases, keys))
    ensures Requeued(Remaining(phases, jobs)).Keys == jobs
  {
    hide Recovering, Outbox.RecoveredState;
    RecoveringStates(rows, phases, keys);
    RecoveringJobs(rows, phases, jobs, keys);
  }

  lemma RecoveringStates(rows: Messages, phases: map<Id, Outbox.Job>, keys: Keys)
    requires phases.Keys <= rows.Keys
    ensures States(Recovering(rows, phases.Keys, Sending(phases))) == Outbox.Recovered(View(rows, phases, keys)).states
  {
  }

  lemma RecoveringJobs(rows: Messages, phases: map<Id, Outbox.Job>, jobs: set<Id>, keys: Keys)
    requires phases.Keys <= rows.Keys
    requires var rows' := Recovering(rows, phases.Keys, Sending(phases));
             jobs == set j | j in phases.Keys && j !in Sending(phases) && j in rows' && rows'[j].state == Queued
    ensures Requeued(Remaining(phases, jobs)) == Outbox.Recovered(View(rows, phases, keys)).jobs
    ensures Requeued(Remaining(phases, jobs)).Keys == jobs
  {
    var left, recovered := Requeued(Remaining(phases, jobs)), Outbox.Recovered(View(rows, phases, keys)).jobs;
    assert forall j :: j in jobs <==> j in phases && phases[j].phase != Outbox.Phase.Sending && rows[j].state == Queued;
    assert left.Keys == recovered.Keys;
    forall j | j in left
      ensures left[j] == recovered[j]
    {
    }
  }

  lemma ReservedViews(rows: Messages, phases: map<Id, Outbox.Job>, keys: Keys, k: KeyId, hash: string, id: Id,
                      row: Message, media: bool)
    requires row.state == Queued
    ensures View(rows[id := row], if media then phases[id := Outbox.Job(Outbox.Waiting, 0, None)] else phases,
                 keys[k := SendKey(hash, id)]) == Outbox.Reserved(View(rows, phases, keys), k, hash, id, media)
  {
  }
}
