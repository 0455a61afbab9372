/** The alarm-state coordinator: pure transition functions, and the class whose methods update the
    caches in place and are proved against those functions. */
module Coordinator {
  import opened Types
  import opened Keys
  import opened Policy

  datatype Entry = Entry(status: Status, id: nat)

  type Cache = map<Key, Entry>

  /** A handle naming one waiting caller. */
  type Confirmation = nat

  datatype UpdateError =
    | Internal(key: Key)
    | StateNotAllowed(key: Key, current: State, requested: State)

  /** An answer sent to a waiting caller; no error means success. */
  datatype Reply = Reply(to: Confirmation, error: Option<UpdateError>)

  datatype Coord = Coord(
    confirmed: Cache,
    speculative: Cache,
    pending: map<nat, Confirmation>,
    nextId: nat)

  /** What one coordinator step does: its new state, the jobs and answers it sends, and whether it
      stopped because the state for a job was lost. */
  datatype Effect = Effect(coord: Coord, jobs: seq<Job>, replies: seq<Reply>, lost: bool)

  const HYDRATED_ID: nat := 0
  const FIRST_ID: nat := 1

  function Start(hydrated: map<Key, Status>): Coord {
    Coord(map k | k in hydrated :: Entry(hydrated[k], HYDRATED_ID), map[], map[], FIRST_ID)
  }

  /** The latest intent for a key, speculative before confirmed. */
  function Latest(c: Coord, key: Key): Option<Entry> {
    if key in c.speculative then Some(c.speculative[key])
    else if key in c.confirmed then Some(c.confirmed[key])
    else None
  }

  function StatusOf(e: Option<Entry>): Option<Status> {
    if e.Some? then Some(e.value.status) else None
  }

  function NextJob(c: Coord, key: Key): seq<Job> {
    if key in c.speculative then
      var e := c.speculative[key];
      [Job(e.id, key, e.status, e.id in c.pending)]
    else
      []
  }

  /** Records `status` as the latest intent; dispatches it only when nothing is outstanding. */
  function Intend(c: Coord, key: Key, status: Status): Effect {
    var c' := c.(speculative := c.speculative[key := Entry(status, c.nextId)], nextId := c.nextId + 1);
    Effect(c', if key in c.speculative then [] else NextJob(c', key), [], false)
  }

  function AfterAutomated(c: Coord, status: Status): Effect {
    var key := KeyOf(status);
    if ShouldPublish(StatusOf(Latest(c, key)), status) then
      Intend(c, key, status)
    else
      Effect(c, [], [], false)
  }

  function UserStatus(key: Key, action: UserAction, user: string, now: int): Status {
    DEFAULT_STATUS.(
    device := key.device, source := key.source, state := action.AsState(),
    wake := action.GetWake(), user := user, time := Some(Timestamp(now, 0)))
  }

  /** The status of a command belongs to the key the command names, says who asked and when, and carries
      a wake time only as a bypass. */
  lemma UserStatusCarriesCommand(key: Key, action: UserAction, user: string, now: int)
    requires Normal(key)
    ensures var status := UserStatus(key, action, user, now);
            && KeyOf(status) == key && status.state == action.AsState()
            && status.user == user && status.time == Some(Timestamp(now, 0))
            && (status.wake.Some? ==> action == UserAction.Bypass(status.wake) && status.state == Bypassed)
            && status.severity == UnknownSeverity && !status.acknowledgeable
  {}

  function LatestState(c: Coord, key: Key): State {
    var latest := Latest(c, key);
    if latest.Some? then latest.value.status.state else Unknown
  }

  function LatestWake(c: Coord, key: Key): Option<Timestamp> {
    var latest := Latest(c, key);
    if latest.Some? then latest.value.status.wake else None
  }

  predicate UserAccepted(c: Coord, key: Key, action: UserAction) {
    UserActionAllowed(LatestState(c, key), LatestWake(c, key), action)
  }

  function AfterUser(c: Coord, key: Key, action: UserAction, user: string, caller: Confirmation, now: int): Effect {
    if UserAccepted(c, key, action) then
      Intend(c.(pending := c.pending[c.nextId := caller]), key, UserStatus(key, action, user, now))
    else
      Effect(c, [], [Reply(caller, Some(StateNotAllowed(key, LatestState(c, key), action.AsState())))], false)
  }

  function WakeStatus(key: Key, now: int): Status {
    DEFAULT_STATUS.(
    device := key.device, source := key.source, state := Unbypassed, time := Some(Timestamp(now, 0)))
  }

  function AfterWake(c: Coord, key: Key, now: int): Effect {
    AfterAutomated(c, WakeStatus(key, now))
  }

  /** The status a failed user job falls back to. */
  function Fallback(c: Coord, key: Key): Entry {
    if key in c.confirmed then c.confirmed[key]
    else Entry(DEFAULT_STATUS.(device := key.device, source := key.source), HYDRATED_ID)
  }

  function Answer(c: Coord, id: nat, error: Option<UpdateError>): seq<Reply> {
    if id in c.pending then [Reply(c.pending[id], error)] else []
  }

  function AfterFailure(c: Coord, job: Job): Effect {
    var replies := Answer(c, job.id, Some(Internal(job.key)));
    var c1 := c.(pending := c.pending - {job.id});
    if job.key !in c.speculative then
      Effect(c1, [], replies, true)
    else
      var c2 :=
        if c.speculative[job.key].id == job.id && job.userInitiated
        then c1.(speculative := c1.speculative[job.key := Fallback(c1, job.key)])
        else c1;
      Effect(c2, NextJob(c2, job.key), replies, false)
  }

  function AfterSuccess(c: Coord, job: Job): Effect {
    var replies := Answer(c, job.id, None);
    var c1 := c.(pending := c.pending - {job.id});
    var settled := job.key in c.speculative && c.speculative[job.key].id == job.id;
    var c2 := if settled then c1.(speculative := c1.speculative - {job.key}) else c1;
    Effect(c2.(confirmed := c2.confirmed[job.key := Entry(job.status, job.id)]),
           NextJob(c2, job.key), replies, false)
  }

  /** What a commit does, whether or not the coordinator still knows the key: the job's status is confirmed
      under its id, its intent is settled only if it is still the latest, and otherwise the newer intent is
      dispatched. */
  lemma SuccessEffect(c: Coord, job: Job)
    ensures var eff := AfterSuccess(c, job);
            var known := job.key in c.speculative;
            var settled := known && c.speculative[job.key].id == job.id;
            && eff.coord.confirmed == c.confirmed[job.key := Entry(job.status, job.id)]
            && eff.coord.speculative == (if settled then c.speculative - {job.key} else c.speculative)
            && eff.coord.pending == c.pending - {job.id} && eff.coord.nextId == c.nextId && !eff.lost
            && |eff.jobs| == (if known && !settled then 1 else 0)
            && (known && !settled ==>
                  var e := c.speculative[job.key];
                  eff.jobs == [Job(e.id, job.key, e.status, e.id in c.pending && e.id != job.id)])
            && eff.replies == if job.id in c.pending then [Reply(c.pending[job.id], None)] else []
  {}

  /** What a failure does: nothing is confirmed, the caller is told, and the coordinator stops exactly if it
      does not know the key. */
  lemma FailureEffect(c: Coord, job: Job)
    ensures var eff := AfterFailure(c, job);
            && (eff.lost <==> job.key !in c.speculative)
            && (eff.lost ==> eff.coord.speculative == c.speculative && eff.jobs == [])
            && eff.coord.confirmed == c.confirmed
            && eff.coord.pending == c.pending - {job.id} && eff.coord.nextId == c.nextId
            && (!eff.lost ==> |eff.jobs| == 1 && eff.jobs[0].key == job.key
                              && job.key in eff.coord.speculative
                              && eff.jobs[0].id == eff.coord.speculative[job.key].id
                              && eff.jobs[0].status == eff.coord.speculative[job.key].status)
            && eff.replies ==
               if job.id in c.pending then [Reply(c.pending[job.id], Some(Internal(job.key)))] else []
  {}

  function AfterOutcome(c: Coord, outcome: JobOutcome, now: int): Effect {
    match outcome
    case Committed(job) => AfterSuccess(c, job)
    case Failed(job) => AfterFailure(c, job)
    case Wake(key) => AfterWake(c, key, now)
  }

  /** What a snapshot shows: the confirmed entries that are neither `Ok` nor `Unbypassed`. */
  function Visible(c: Coord): map<Key, Status> {
    map k | k in c.confirmed && Shown(c.confirmed[k].status) :: c.confirmed[k].status
  }

  /** The latest intent is neither bypassed nor unknown and has the default severity. */
  predicate IgnoresWake(c: Coord, key: Key) {
    var latest := Latest(c, key);
    && latest.Some?
    && latest.value.status.state != Bypassed && latest.value.status.state != Unknown
    && latest.value.status.severity == UnknownSeverity
  }

  /** Those are exactly the latest intents that a wake leaves alone. A late wake therefore overwrites, for
      instance, an `Alarmed` status of severity `High` that arrived after the timer fired. */
  lemma WakeIgnoredIff(c: Coord, key: Key, now: int)
    requires Normal(key)
    ensures ShouldPublish(StatusOf(Latest(c, key)), WakeStatus(key, now)) <==> !IgnoresWake(c, key)
    ensures AfterWake(c, key, now).coord == c <==> IgnoresWake(c, key)
  {
    var status := WakeStatus(key, now);
    assert KeyOf(status) == key;
    if ShouldPublish(StatusOf(Latest(c, key)), status) {
      assert AfterWake(c, key, now).coord.nextId == c.nextId + 1;
    }
  }

  predicate Shown(status: Status) {
    status.state != Ok && status.state != Unbypassed
  }

  /** `list` gives, in the order of `keys`, the values of `m` for all its keys, each key once. */
  ghost predicate Lists(list: seq<Status>, keys: seq<Key>, m: map<Key, Status>) {
    && |list| == |keys|
    && (forall i, j :: 0 <= i < j < |keys| ==> keys[i] != keys[j])
    && (forall k :: k in keys <==> k in m)
    && (forall i :: 0 <= i < |keys| ==> list[i] == m[keys[i]])
  }

  class AlarmStateCoordinator {
    var confirmedState: Cache
    var speculativeState: Cache
    var pendingConfirmations: map<nat, Confirmation>
    var idCounter: nat

    ghost function View(): Coord
      reads this
    {
      Coord(confirmedState, speculativeState, pendingConfirmations, idCounter)
    }

    constructor (hydrated: map<Key, Status>)
      ensures View() == Start(hydrated)
    {
      confirmedState := map k | k in hydrated :: Entry(hydrated[k], HYDRATED_ID);
      speculativeState := map[];
      pendingConfirmations := map[];
      idCounter := FIRST_ID;
    }

    function GetLatestStatus(key: Key): (r: Option<Status>)
      reads this
      ensures r == StatusOf(Latest(View(), key))
    {
      if key in speculativeState then Some(speculativeState[key].status)
      else if key in confirmedState then Some(confirmedState[key].status)
      else None
    }

    method GetNextId() returns (id: nat)
      modifies this`idCounter
      ensures id == old(idCounter) && idCounter == id + 1
    {
      id := idCounter;
      idCounter := idCounter + 1;
    }

    method SendNextFor(key: Key) returns (jobs: seq<Job>)
      ensures jobs == NextJob(View(), key)
    {
      jobs := [];
      if key in speculativeState {
        var e := speculativeState[key];
        jobs := [Job(e.id, key, e.status, e.id in pendingConfirmations)];
      }
    }

    method HandleAutomatedUpdate(status: Status) returns (jobs: seq<Job>)
      modifies this
      ensures Effect(View(), jobs, [], false) == AfterAutomated(old(View()), status)
    {
      var key := KeyOf(status);
      jobs := [];
      if ShouldPublish(GetLatestStatus(key), status) {
        var id := GetNextId();
        var inFlight := key in speculativeState;
        speculativeState := speculativeState[key := Entry(status, id)];
        if !inFlight {
          jobs := SendNextFor(key);
        }
      }
    }

    method HandleUserUpdate(key: Key, action: UserAction, user: string, caller: Confirmation, now: int)
      returns (jobs: seq<Job>, replies: seq<Reply>)
      modifies this
      ensures Effect(View(), jobs, replies, false) == AfterUser(old(View()), key, action, user, caller, now)
    {
      jobs, replies := [], [];
      var latest := GetLatestStatus(key);
      var latestState := if latest.Some? then latest.value.state else Unknown;
      var latestWake := if latest.Some? then latest.value.wake else None;
      if UserActionAllowed(latestState, latestWake, action) {
        var updated := UserStatus(key, action, user, now);
        var id := GetNextId();
        pendingConfirmations := pendingConfirmations[id := caller];
        var inFlight := key in speculativeState;
        speculativeState := speculativeState[key := Entry(updated, id)];
        if !inFlight {
          jobs := SendNextFor(key);
        }
      } else {
        replies := [Reply(caller, Some(StateNotAllowed(key, latestState, action.AsState())))];
      }
    }

    method DispatchAutomatedWake(key: Key, now: int) returns (jobs: seq<Job>)
      modifies this
      ensures Effect(View(), jobs, [], false) == AfterWake(old(View()), key, now)
    {
      jobs := HandleAutomatedUpdate(WakeStatus(key, now));
    }

    method ConvergeToLastConfirmed(key: Key)
      modifies this`speculativeState
      ensures speculativeState == old(speculativeState)[key := Fallback(View(), key)]
    {
      var entry := if key in confirmedState then confirmedState[key]
                   else Entry(DEFAULT_STATUS.(device := key.device, source := key.source), HYDRATED_ID);
      speculativeState := speculativeState[key := entry];
    }

    method TakeConfirmation(id: nat, error: Option<UpdateError>) returns (replies: seq<Reply>)
      modifies this`pendingConfirmations
      ensures replies == Answer(old(View()), id, error)
      ensures pendingConfirmations == old(pendingConfirmations) - {id}
    {
      replies := [];
      if id in pendingConfirmations {
        replies := [Reply(pendingConfirmations[id], error)];
        pendingConfirmations := pendingConfirmations - {id};
      }
    }

    method ReconcileFailure(job: Job) returns (jobs: seq<Job>, replies: seq<Reply>, lost: bool)
      modifies this
      ensures Effect(View(), jobs, replies, lost) == AfterFailure(old(View()), job)
    {
      jobs, lost := [], false;
      replies := TakeConfirmation(job.id, Some(Internal(job.key)));
      if job.key !in speculativeState {
        lost := true;
        return;
      }
      if speculativeState[job.key].id == job.id && job.userInitiated {
        ConvergeToLastConfirmed(job.key);
      }
      jobs := SendNextFor(job.key);
    }

    method ReconcileSuccess(job: Job) returns (jobs: seq<Job>, replies: seq<Reply>)
      modifies this
      ensures Effect(View(), jobs, replies, false) == AfterSuccess(old(View()), job)
    {
      jobs := [];
      replies := TakeConfirmation(job.id, None);
      if job.key in speculativeState {
        if speculativeState[job.key].id == job.id {
          speculativeState := speculativeState - {job.key};
        } else {
          jobs := SendNextFor(job.key);
        }
      }
      confirmedState := confirmedState[job.key := Entry(job.status, job.id)];
    }

    method ReconcileJobOutcome(outcome: JobOutcome, now: int)
      returns (jobs: seq<Job>, replies: seq<Reply>, lost: bool)
      modifies this
      ensures Effect(View(), jobs, replies, lost) == AfterOutcome(old(View()), outcome, now)
    {
      replies, lost := [], false;
      match outcome {
        case Committed(job) => jobs, replies := ReconcileSuccess(job);
        case Failed(job) => jobs, replies, lost := ReconcileFailure(job);
        case Wake(key) => jobs := DispatchAutomatedWake(key, now);
      }
    }

    /** Collects the visible confirmed statuses, each key once. */
    method HandleSnapshot() returns (snapshot: seq<Status>)
      ensures exists keys :: Lists(snapshot, keys, Visible(View()))
    {
      snapshot := [];
      ghost var keys: seq<Key> := [];
      var rest := confirmedState.Keys;
      while rest != {}
        invariant rest <= confirmedState.Keys
        invariant |snapshot| == |keys|
        invariant forall i, j :: 0 <= i < j < |keys| ==> keys[i] != keys[j]
        invariant forall k :: k in keys <==>
                                k in confirmedState && k !in rest && Shown(confirmedState[k].status)
        invariant forall i :: 0 <= i < |keys| ==> snapshot[i] == confirmedState[keys[i]].status
        decreases |rest|
      {
        var k :| k in rest;
        var status := confirmedState[k].status;
        rest := rest - {k};
        if Shown(status) {
          snapshot, keys := snapshot + [status], keys + [k];
        }
      }
      assert Lists(snapshot, keys, Visible(View()));
    }

    /** Drains every pending confirmation. A caller is answered exactly when its id is still the latest
        intent of some key; the other callers' handles are dropped without an answer. */
    method FailAllConfirmations() returns (answers: map<nat, Reply>)
      modifies this`pendingConfirmations
      ensures pendingConfirmations == map[]
      ensures FailsAll(speculativeState, old(pendingConfirmations), answers)
    {
      answers := map[];
      while pendingConfirmations != map[]
        invariant forall id :: id in pendingConfirmations ==>
                                 id in old(pendingConfirmations)
                                 && pendingConfirmations[id] == old(pendingConfirmations)[id]
        invariant forall id :: id in answers <==>
                               id in old(pendingConfirmations) && id !in pendingConfirmations
                               && IsLatestIntent(speculativeState, id)
        invariant forall id :: id in answers ==>
                                 exists k :: k in speculativeState && speculativeState[k].id == id
                                          && answers[id] == Reply(old(pendingConfirmations)[id], Some(Internal(k)))
        decreases |pendingConfirmations|
      {
        var id :| id in pendingConfirmations;
        var caller := pendingConfirmations[id];
        pendingConfirmations := pendingConfirmations - {id};
        if k :| k in speculativeState && speculativeState[k].id == id {
          answers := answers[id := Reply(caller, Some(Internal(k)))];
        }
      }
    }
  }

  /** The answers, by id, with which pending confirmations are failed at shutdown. */
  ghost predicate FailsAll(speculative: Cache, pending: map<nat, Confirmation>, answers: map<nat, Reply>) {
    && (forall id :: id in answers <==> id in pending && IsLatestIntent(speculative, id))
    && (forall id :: id in answers ==>
          exists k :: k in speculative && speculative[k].id == id
                      && answers[id] == Reply(pending[id], Some(Internal(k))))
  }

  predicate IsLatestIntent(speculative: Cache, id: nat) {
    exists k :: k in speculative && speculative[k].id == id
  }
}
