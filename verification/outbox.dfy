// outgoing_media.go, the send half of messages.go and recoverSends: the rows that a send goes through.
module Outbox {
  import opened Schema
  import opened Wrappers

  datatype Phase = Waiting | Uploading | Sending

  datatype Job = Job(phase: Phase, attempts: nat, next: Option<int>)

  datatype Tables = Tables(states: map<Id, State>, jobs: map<Id, Job>, keys: Keys)

  // ReserveSend and ReserveMediaSend of a key that is not stored yet.
  function Reserved(t: Tables, k: KeyId, hash: string, id: Id, media: bool): Tables {
    Tables(t.states[id := Queued], if media then t.jobs[id := Job(Waiting, 0, None)] else t.jobs,
           t.keys[k := SendKey(hash, id)])
  }

  predicate Claimable(t: Tables, id: Id, now: int) {
    && id in t.jobs && t.jobs[id].phase == Waiting && (t.jobs[id].next.None? || t.jobs[id].next.value <= now)
    && id in t.states && t.states[id] == Queued
  }

  function Claimed(t: Tables, id: Id, now: int): Tables {
    if Claimable(t, id, now) then t.(jobs := t.jobs[id := t.jobs[id].(phase := Uploading)]) else t
  }

  function Retried(t: Tables, id: Id, next: int, attempts: nat): Tables {
    if id in t.jobs && t.jobs[id].phase == Uploading then t.(jobs := t.jobs[id := Job(Waiting, attempts, Some(next))])
        else t
  }

  function Begun(t: Tables, id: Id): Tables {
    if id in t.jobs && t.jobs[id].phase == Uploading then t.(jobs := t.jobs[id := t.jobs[id].(phase := Sending)]) else t
  }

  function TextCompleted(t: Tables, id: Id, state: State): Tables {
    if id in t.states && t.states[id] == Queued then t.(states := t.states[id := state]) else t
  }

  function MediaCompleted(t: Tables, id: Id, state: State): Tables {
    t.(states := if id in t.states && t.states[id] == Queued then t.states[id := state] else t.states,
       jobs := t.jobs - {id})
  }

  // FailMediaSendsForAccount: what the provider may already have got is uncertain, the rest has failed.
  function LoggedOut(t: Tables): Tables {
    Tables(map id | id in t.states :: if t.states[id] == Queued && id in t.jobs
           then (if t.jobs[id].phase == Sending then OutcomeUnknown else Failed) else t.states[id],
           map[], t.keys)
  }

  // saveMessageTx on a repeated outbound message.
  function Echoed(t: Tables, id: Id): Tables {
    t.(states := if id in t.states && t.states[id] in {Queued, OutcomeUnknown} then t.states[id := Sent] else t.states,
       jobs := t.jobs - {id})
  }

  // saveMessageTx when a message that is not marked outbound hits an outbound row: the job stays.
  function Collided(t: Tables, id: Id): Tables {
    t.(states := if id in t.states && t.states[id] in {Queued, OutcomeUnknown} then t.states[id := Sent] else t.states)
  }

  // A saved message that is not to be sent, and a duplicate that a conversation merge drops.
  function Saved(t: Tables, id: Id, state: State): Tables {
    t.(states := t.states[id := state])
  }

  function Dropped(t: Tables, id: Id): Tables {
    t.(states := t.states - {id})
  }

  // What recoverSends leaves of each row when the process starts.
  function RecoveredState(t: Tables, id: Id): State
    requires id in t.states
  {
    if t.states[id] == Queued && (id !in t.jobs || t.jobs[id].phase == Sending) then OutcomeUnknown else t.states[id]
  }

  function Recovered(t: Tables): Tables {
    Tables(map id | id in t.states :: RecoveredState(t, id),
           map id | id in t.jobs && t.jobs[id].phase != Sending &&
               (id in t.states ==> t.states[id] == Queued) :: t.jobs[id].(phase := Waiting),
           t.keys)
  }

  // After a restart the queued messages are exactly the ones with a job, and every job can be claimed
  // once its time has come.
  lemma RecoveryIsExact(t: Tables)
    requires t.jobs.Keys <= t.states.Keys
    ensures var r := Recovered(t);
            && r.jobs.Keys <= r.states.Keys == t.states.Keys
            && (forall id :: id in r.states ==> (r.states[id] == Queued <==> id in r.jobs))
            && (forall id :: id in r.jobs ==> r.jobs[id].phase == Waiting)
  {
  }
}
