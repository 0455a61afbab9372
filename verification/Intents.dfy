/** The caches of the coordinator, seen through "speculative, else confirmed", behave as one map of
    latest intents. */
module Intents {
  import opened Types
  import opened Keys
  import opened Policy
  import opened Coordinator
  import opened Pipeline
  import opened PipelineTheorems
  import TM = TokenMachine
  import TP = TokenProofs
  import Refinement

  /** The latest intent of every key, the base a failed user job falls back to, and the next id. */
  datatype Intents = Intents(view: Cache, base: Cache, next: nat)

  function IntentsOf(c: Coord): Intents {
    Intents(c.confirmed + c.speculative, c.confirmed, c.nextId)
  }

  datatype Change =
    | Keep
    | Put(key: Key, status: Status)
    | Confirm(key: Key, entry: Entry)
    | Reset(key: Key)

  function Applied(x: Intents, change: Change): Intents {
    match change
    case Keep => x
    case Put(key, status) => x.(view := x.view[key := Entry(status, x.next)], next := x.next + 1)
    case Confirm(key, entry) => x.(base := x.base[key := entry])
    case Reset(key) =>
      var fallback := if key in x.base then x.base[key]
                      else Entry(DEFAULT_STATUS.(device := key.device, source := key.source), HYDRATED_ID);
      x.(view := x.view[key := fallback])
  }

  function Get(view: Cache, key: Key): Option<Status> {
    if key in view then Some(view[key].status) else None
  }

  function PutIfPublished(x: Intents, status: Status): Change {
    if ShouldPublish(Get(x.view, KeyOf(status)), status) then Put(KeyOf(status), status) else Keep
  }

  predicate Allowed(x: Intents, key: Key, action: UserAction) {
    var latest := Get(x.view, key);
    UserActionAllowed(if latest.Some? then latest.value.state else Unknown,
                      if latest.Some? then latest.value.wake else None, action)
  }

  /** What an action of the pipeline means for the map of latest intents. A commit confirms; a failure
      resets its key if it was the user's and is still the latest intent; everything else that is not
      an accepted input keeps the map as it is. */
  function ChangeOf(x: Intents, s: Sys, a: Action): Change
    requires Pipeline.Enabled(s, a)
  {
    match a
    case TakeInput(status) => PutIfPublished(x, status)
    case TakeCommand(key, action, user, _, now) =>
      if Allowed(x, key, action) then Put(key, UserStatus(key, action, user, now)) else Keep
    case TakeOutcome(now) =>
      (match s.outcomes[0]
       case Wake(key) => PutIfPublished(x, WakeStatus(key, now))
       case Committed(job) => Confirm(job.key, Entry(job.status, job.id))
       case Failed(job) =>
         if job.userInitiated && job.key in x.view && x.view[job.key].id == job.id then Reset(job.key) else Keep)
    case _ => Keep
  }

  lemma UnionPut(a: Cache, b: Cache, k: Key, e: Entry)
    ensures a + b[k := e] == (a + b)[k := e]
  {}

  lemma LatestIsView(c: Coord, k: Key)
    ensures StatusOf(Latest(c, k)) == Get(IntentsOf(c).view, k)
  {}

  lemma AcceptPuts(c: Coord, c1: Coord, key: Key, status: Status)
    requires c1.confirmed == c.confirmed && c1.speculative == c.speculative && c1.nextId == c.nextId
    ensures IntentsOf(Intend(c1, key, status).coord) == Applied(IntentsOf(c), Put(key, status))
  {
    UnionPut(c.confirmed, c.speculative, key, Entry(status, c.nextId));
  }

  /** A commit leaves the view alone: the committed entry is the latest intent itself, or is hidden
      behind a newer one. */
  lemma CommitKeepsView(c: Coord, job: Job)
    requires job.key in c.speculative
    requires c.speculative[job.key].id == job.id ==> c.speculative[job.key].status == job.status
    ensures IntentsOf(AfterSuccess(c, job).coord) ==
            Applied(IntentsOf(c), Confirm(job.key, Entry(job.status, job.id)))
  {
    var c' := AfterSuccess(c, job).coord;
    assert IntentsOf(c').view == IntentsOf(c).view;
  }

  lemma FailureResets(c: Coord, job: Job)
    requires job.key in c.speculative
    ensures IntentsOf(AfterFailure(c, job).coord) ==
            Applied(IntentsOf(c), if job.userInitiated && c.speculative[job.key].id == job.id
                                  then Reset(job.key) else Keep)
  {
    UnionPut(c.confirmed, c.speculative, job.key, Fallback(c, job.key));
  }

  lemma SettledJobFacts(s: Sys, m: TM.TM, job: Job, ok: bool)
    requires TM.Inv(m) && s.coord == m.coord
    requires TM.InPhase(m, job.key, TM.Finished(ok)) && m.tokens[job.key].job == job
    ensures job.key in s.coord.speculative
    ensures s.coord.speculative[job.key].id == job.id ==> s.coord.speculative[job.key].status == job.status
  {
    TP.JobFactsHold(m, job.key);
    assert TM.Stamped(m.hist, job.key, m.coord.speculative[job.key].status, m.coord.speculative[job.key].id);
  }

  /** A job that comes back has speculative state, and is the latest intent if it has its id. */
  lemma OutcomeFacts(hydrated: map<Key, Status>, s: Sys, job: Job, ok: bool)
    requires TP.Hydration(hydrated) && Pipeline.Reachable(hydrated, s)
    requires s.outcomes != [] && s.outcomes[0] == (if ok then Committed(job) else Failed(job))
    ensures job.key in s.coord.speculative
    ensures s.coord.speculative[job.key].id == job.id ==> s.coord.speculative[job.key].status == job.status
  {
    var m, places := ReachableImplements(hydrated, s);
    Refinement.DropLinks(s, m, places, job, ok);
    SettledJobFacts(s, m, job, ok);
  }

  lemma WakeFacts(hydrated: map<Key, Status>, s: Sys, key: Key, now: int)
    requires TP.Hydration(hydrated) && Pipeline.Reachable(hydrated, s)
    requires s.outcomes != [] && s.outcomes[0] == Wake(key)
    ensures KeyOf(WakeStatus(key, now)) == key
  {
    var m, places := ReachableImplements(hydrated, s);
    Refinement.TakeWakeContents(s, s.(outcomes := s.outcomes[1..]), key);
    TP.WakeShape(m, key, now);
  }

  /** In every reachable state, each action changes the map of latest intents as `ChangeOf` says. */
  lemma IntentsRefined(hydrated: map<Key, Status>, s: Sys, a: Action)
    requires TP.Hydration(hydrated) && Pipeline.Reachable(hydrated, s) && Pipeline.Enabled(s, a)
    ensures IntentsOf(Pipeline.Step(s, a).coord) ==
            Applied(IntentsOf(s.coord), ChangeOf(IntentsOf(s.coord), s, a))
  {
    match a
    case TakeInput(status) =>
      LatestIsView(s.coord, KeyOf(status));
      AcceptPuts(s.coord, s.coord, KeyOf(status), status);
    case TakeCommand(key, action, user, caller, now) =>
      LatestIsView(s.coord, key);
      AcceptPuts(s.coord, s.coord.(pending := s.coord.pending[s.coord.nextId := caller]), key,
                 UserStatus(key, action, user, now));
    case TakeOutcome(now) =>
      OutcomeRefined(hydrated, s, now);
    case _ =>
  }

  lemma OutcomeRefined(hydrated: map<Key, Status>, s: Sys, now: int)
    requires TP.Hydration(hydrated) && Pipeline.Reachable(hydrated, s) && Pipeline.Enabled(s, TakeOutcome(now))
    ensures IntentsOf(AfterOutcome(s.coord, s.outcomes[0], now).coord) ==
            Applied(IntentsOf(s.coord), ChangeOf(IntentsOf(s.coord), s, TakeOutcome(now)))
  {
    match s.outcomes[0]
    case Wake(key) =>
      var status := WakeStatus(key, now);
      LatestIsView(s.coord, KeyOf(status));
      AcceptPuts(s.coord, s.coord, KeyOf(status), status);
    case Committed(job) =>
      OutcomeFacts(hydrated, s, job, true);
      CommitKeepsView(s.coord, job);
    case Failed(job) =>
      OutcomeFacts(hydrated, s, job, false);
      FailureResets(s.coord, job);
  }

  // ---- Bypassed EPICS alarms stay bypassed ----

  predicate ViewBypassed(s: Sys, k: Key) {
    var latest := Get(IntentsOf(s.coord).view, k);
    latest.Some? && latest.value.state == Bypassed
  }

  /** The actions that may end a bypass of `k`: the operator activates it, an automated `Unbypassed`
      or the wake of its snooze arrives, or the failure of a user job that is still its latest intent
      rolls it back. */
  predicate MayRelease(s: Sys, a: Action, k: Key)
    requires Pipeline.Enabled(s, a)
  {
    match a
    case TakeInput(status) => KeyOf(status) == k && status.state == Unbypassed
    case TakeCommand(key, action, _, _, _) => key == k && action.Activate?
    case TakeOutcome(_) =>
      (match s.outcomes[0]
       case Wake(key) => key == k
       case Committed(_) => false
       case Failed(job) => job.key == k && job.userInitiated && k in s.coord.speculative
                           && s.coord.speculative[k].id == job.id)
    case _ => false
  }

  lemma PutStaysBypassed(prev: Status, alarm: Status, k: Key)
    requires prev.state == Bypassed && k.source == Epics && alarm.source == Epics && alarm.state != Unbypassed
    ensures !ShouldPublish(Some(prev), alarm)
  {
    EpicsBypassGate(prev, alarm);
  }

  lemma BypassKeptByStep(hydrated: map<Key, Status>, s: Sys, a: Action, k: Key)
    requires TP.Hydration(hydrated) && Pipeline.Reachable(hydrated, s)
    requires Pipeline.Enabled(s, a) && Pipeline.Admissible(a)
    requires k.source == Epics && ViewBypassed(s, k) && !MayRelease(s, a, k)
    ensures ViewBypassed(Pipeline.Step(s, a), k)
  {
    IntentsRefined(hydrated, s, a);
    var x := IntentsOf(s.coord);
    match a
    case TakeInput(status) =>
      if KeyOf(status) == k {
        PutStaysBypassed(x.view[k].status, status, k);
      }
    case TakeCommand(key, action, user, _, now) =>
      if key == k && Allowed(x, key, action) {
        AllowedActionChanges(x.view[k].status.state, x.view[k].status.wake, action);
      }
    case TakeOutcome(now) =>
      OutcomeKeepsBypass(hydrated, s, now, k);
    case _ =>
  }

  lemma OutcomeKeepsBypass(hydrated: map<Key, Status>, s: Sys, now: int, k: Key)
    requires TP.Hydration(hydrated) && Pipeline.Reachable(hydrated, s) && Pipeline.Enabled(s, TakeOutcome(now))
    requires ViewBypassed(s, k) && !MayRelease(s, TakeOutcome(now), k)
    requires IntentsOf(Pipeline.Step(s, TakeOutcome(now)).coord) ==
             Applied(IntentsOf(s.coord), ChangeOf(IntentsOf(s.coord), s, TakeOutcome(now)))
    ensures ViewBypassed(Pipeline.Step(s, TakeOutcome(now)), k)
  {
    match s.outcomes[0]
    case Wake(key) => WakeFacts(hydrated, s, key, now);
    case Committed(job) =>
    case Failed(job) => OutcomeFacts(hydrated, s, job, false);
  }

  /** No action of the run may release `k`. */
  ghost predicate NoRelease(s: Sys, actions: seq<Action>, k: Key)
    decreases |actions|
  {
    actions == [] ||
    (Pipeline.Enabled(s, actions[0]) && !MayRelease(s, actions[0], k)
     && NoRelease(Pipeline.Step(s, actions[0]), actions[1..], k))
  }

  /** Once the latest intent of an EPICS key is a bypass, it stays one over every run in which none of
      the releasing actions occurs, whatever the alarms, failures and retries. */
  lemma {:induction false} EpicsBypassHolds(hydrated: map<Key, Status>, s: Sys, actions: seq<Action>, s': Sys, k: Key)
    requires TP.Hydration(hydrated) && Pipeline.Reachable(hydrated, s)
    requires Pipeline.Runs(s, actions, s') && NoRelease(s, actions, k)
    requires k.source == Epics && ViewBypassed(s, k)
    ensures ViewBypassed(s', k)
    decreases |actions|
  {
    if actions != [] {
      BypassKeptByStep(hydrated, s, actions[0], k);
      ReachableStep(hydrated, s, actions[0]);
      EpicsBypassHolds(hydrated, Pipeline.Step(s, actions[0]), actions[1..], s', k);
    }
  }

  lemma ReachableStep(hydrated: map<Key, Status>, s: Sys, a: Action)
    requires Pipeline.Reachable(hydrated, s) && Pipeline.Enabled(s, a) && Pipeline.Admissible(a)
    ensures Pipeline.Reachable(hydrated, Pipeline.Step(s, a))
  {
    var actions :| Pipeline.Runs(Pipeline.Init(hydrated), actions, s);
    RunsThen(Pipeline.Init(hydrated), actions, s, a);
  }

  lemma {:induction false} RunsThen(s0: Sys, actions: seq<Action>, s: Sys, a: Action)
    requires Pipeline.Runs(s0, actions, s) && Pipeline.Enabled(s, a) && Pipeline.Admissible(a)
    ensures Pipeline.Runs(s0, actions + [a], Pipeline.Step(s, a))
    decreases |actions|
  {
    if actions == [] {
      assert (actions + [a])[1..] == [];
    } else {
      assert (actions + [a])[1..] == actions[1..] + [a];
      RunsThen(Pipeline.Step(s0, actions[0]), actions[1..], s, a);
    }
  }
}
