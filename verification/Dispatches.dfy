/** Which jobs the coordinator sends to the workflow handler, over whole runs of the pipeline. */
module Dispatches {
  import opened Types
  import opened Keys
  import opened Coordinator
  import opened Pipeline
  import opened Places
  import opened Refinement
  import opened PipelineTheorems
  import TM = TokenMachine
  import TP = TokenProofs
  import Confirmations

  /** The coordinator's part of an action. */
  function EffectOf(s: Sys, a: Action): Effect
    requires Pipeline.Enabled(s, a)
  {
    match a
    case TakeInput(status) => AfterAutomated(s.coord, status)
    case TakeCommand(key, action, user, caller, now) => AfterUser(s.coord, key, action, user, caller, now)
    case TakeOutcome(now) => AfterOutcome(s.coord, s.outcomes[0], now)
    case _ => Effect(s.coord, [], [], false)
  }

  /** The outcomes that come in and the jobs that go out, in order. */
  function MarksOf(s: Sys, a: Action): seq<TM.Mark>
    requires Pipeline.Enabled(s, a)
  {
    (if a.TakeOutcome? && !s.outcomes[0].Wake?
     then [TM.Done(s.outcomes[0].job, s.outcomes[0].Committed?)] else [])
    + TM.MarkSent(EffectOf(s, a).jobs)
  }

  /** The marks of a run, after those made before it. */
  ghost function Trail(s: Sys, before: seq<TM.Mark>, actions: seq<Action>): seq<TM.Mark>
    decreases |actions|
  {
    if actions == [] || !Pipeline.Enabled(s, actions[0]) then before
    else Trail(Pipeline.Step(s, actions[0]), before + MarksOf(s, actions[0]), actions[1..])
  }

  lemma SettleMarks(s: Sys, m: TM.TM, places: map<Key, Place>, now: int, job: Job, ok: bool)
    requires Link(s, m, places) && Pipeline.Enabled(s, TakeOutcome(now))
    requires s.outcomes[0] == (if ok then Committed(job) else Failed(job))
    ensures TM.Enabled(m, TM.Settle(job.key))
    ensures TM.Step(m, TM.Settle(job.key)).hist.marks == m.hist.marks + MarksOf(s, TakeOutcome(now))
  {
    DropLinks(s, m, places, job, ok);
  }

  lemma InputMarks(s: Sys, m: TM.TM, status: Status)
    requires s.coord == m.coord && Pipeline.Enabled(s, TakeInput(status))
    ensures TM.Step(m, TM.Input(status)).hist.marks == m.hist.marks + MarksOf(s, TakeInput(status))
  {}

  lemma CommandMarks(s: Sys, m: TM.TM, a: Action)
    requires s.coord == m.coord && Pipeline.Enabled(s, a) && a.TakeCommand?
    ensures TM.Step(m, TM.Command(a.key, a.action, a.user, a.caller, a.now)).hist.marks ==
            m.hist.marks + MarksOf(s, a)
  {}

  lemma WakeMarks(s: Sys, m: TM.TM, key: Key, now: int)
    requires s.coord == m.coord && Pipeline.Enabled(s, TakeOutcome(now)) && s.outcomes[0] == Wake(key)
    requires TM.Enabled(m, TM.WakeUp(key, now))
    ensures TM.Step(m, TM.WakeUp(key, now)).hist.marks == m.hist.marks + MarksOf(s, TakeOutcome(now))
  {}

  lemma StepMarks(s: Sys, m: TM.TM, places: map<Key, Place>, a: Action)
    requires Link(s, m, places) && Pipeline.Enabled(s, a)
    requires Meaning(s, a).Some? ==> TM.Enabled(m, Meaning(s, a).value)
    ensures After(m, Meaning(s, a)).hist.marks == m.hist.marks + MarksOf(s, a)
  {
    match a
    case TakeInput(status) => InputMarks(s, m, status);
    case TakeCommand(_, _, _, _, _) => CommandMarks(s, m, a);
    case TakeOutcome(now) =>
      if s.outcomes[0].Wake? {
        WakeMarks(s, m, s.outcomes[0].key, now);
      } else {
        SettleMarks(s, m, places, now, s.outcomes[0].job, s.outcomes[0].Committed?);
      }
    case _ =>
  }

  lemma StepMarked(s: Sys, m: TM.TM, places: map<Key, Place>, a: Action) returns (m': TM.TM, places': map<Key, Place>)
    requires Implements(s, m, places) && Pipeline.Enabled(s, a) && Pipeline.Admissible(a)
    ensures Implements(Pipeline.Step(s, a), m', places') && m'.hist.marks == m.hist.marks + MarksOf(s, a)
  {
    places' := StepImplements(s, m, places, a);
    m' := After(m, Meaning(s, a));
    StepMarks(s, m, places, a);
  }

  lemma {:induction false} RunMarks(s: Sys, m: TM.TM, places: map<Key, Place>, actions: seq<Action>, s': Sys)
    returns (m': TM.TM, places': map<Key, Place>)
    requires Implements(s, m, places) && Pipeline.Runs(s, actions, s')
    ensures Implements(s', m', places') && m'.hist.marks == Trail(s, m.hist.marks, actions)
    decreases |actions|
  {
    if actions == [] {
      m', places' := m, places;
    } else {
      var a := actions[0];
      var m1, places1 := StepMarked(s, m, places, a);
      m', places' := RunMarks(Pipeline.Step(s, a), m1, places1, actions[1..], s');
    }
  }

  /** Over every run, a user id is dispatched under the user flag at most once, and once a user job has
      failed its id is never dispatched again, flagged or not. */
  lemma UserJobsGoOutOnce(hydrated: map<Key, Status>, actions: seq<Action>, s: Sys, i: nat, j: nat)
    requires TP.Hydration(hydrated) && Pipeline.Runs(Pipeline.Init(hydrated), actions, s)
    requires i < j < |Trail(Pipeline.Init(hydrated), [], actions)|
    ensures var trail := Trail(Pipeline.Init(hydrated), [], actions);
            && (TM.UserSent(trail[i]) && TM.UserSent(trail[j]) ==> trail[i].job.id != trail[j].job.id)
            && (TM.UserFailed(trail[i]) && trail[j].Sent? ==> trail[i].job.id != trail[j].job.id)
  {
    InitImplements(hydrated);
    var m, places := RunMarks(Pipeline.Init(hydrated), TM.Init(hydrated), map[], actions, s);
    assert m.hist.marks == Trail(Pipeline.Init(hydrated), [], actions);
  }

  /** A job carries the user flag exactly while its confirmation is pending, wherever the job is; in
      particular when its outcome arrives. */
  lemma FlagIsPending(hydrated: map<Key, Status>, s: Sys, job: Job)
    requires TP.Hydration(hydrated) && Pipeline.Reachable(hydrated, s) && Outstanding(s, job)
    ensures job.userInitiated <==> job.id in s.coord.pending
  {
    var m, places := ReachableImplements(hydrated, s);
    OutstandingIsToken(s, m, places, job);
    TP.JobFactsHold(m, job.key);
  }

  /** What the coordinator sends after a failure: an automated job that is still the latest intent goes
      out again unchanged; a user job that is still the latest intent gives way to the confirmed or
      default status, without the flag and under another id; otherwise the newer intent goes out. */
  lemma FailureIsFollowed(hydrated: map<Key, Status>, s: Sys, job: Job, now: int) returns (next: Job)
    requires TP.Hydration(hydrated) && Pipeline.Reachable(hydrated, s)
    requires Pipeline.Enabled(s, TakeOutcome(now)) && s.outcomes[0] == Failed(job)
    ensures job.key in s.coord.speculative
    ensures Pipeline.Step(s, TakeOutcome(now)).jobs == s.jobs + [next] && next.key == job.key
    ensures var spec := s.coord.speculative[job.key];
            && (spec.id == job.id && !job.userInitiated ==> next == job)
            && (spec.id == job.id && job.userInitiated ==>
                  next.id == TM.ConfirmedId(s.coord, job.key) && next.id != job.id && !next.userInitiated
                  && next.status == Fallback(s.coord, job.key).status)
            && (spec.id != job.id ==> next.id == spec.id && next.status == spec.status && next.id > job.id)
  {
    var m, places := ReachableImplements(hydrated, s);
    DropLinks(s, m, places, job, false);
    TP.JobFactsHold(m, job.key);
    TP.FailShape(m, job.key);
    Confirmations.SameIdSameStatus(m, job.key);
    Confirmations.FallbackNotPending(m, job.key);
    next := NextJob(AfterFailure(s.coord, job).coord, job.key)[0];
  }

  // ---- Ids that go out a second time ----

  /** The ids allocated to accepted commands over a run, after those allocated before it. */
  ghost function UserIds(s: Sys, before: set<nat>, actions: seq<Action>): set<nat>
    decreases |actions|
  {
    if actions == [] || !Pipeline.Enabled(s, actions[0]) then before
    else UserIds(Pipeline.Step(s, actions[0]), before + NewIds(s, actions[0]), actions[1..])
  }

  function NewIds(s: Sys, a: Action): set<nat> {
    if a.TakeCommand? && UserAccepted(s.coord, a.key, a.action) then {s.coord.nextId} else {}
  }

  ghost predicate Knows(m: TM.TM, ids: set<nat>) {
    forall id :: id in ids <==> Confirmations.UserIssued(m, id)
  }

  lemma StepKnows(s: Sys, m: TM.TM, a: Action, ids: set<nat>)
    requires s.coord == m.coord && m.coord.nextId !in m.hist.issued && Pipeline.Enabled(s, a) && Knows(m, ids)
    requires Meaning(s, a).Some? ==> TM.Enabled(m, Meaning(s, a).value)
    ensures Knows(After(m, Meaning(s, a)), ids + NewIds(s, a))
  {
    match a
    case TakeInput(status) => InputKnows(m, status, ids);
    case TakeCommand(_, _, _, _, _) => CommandKnows(m, Meaning(s, a).value, ids);
    case TakeOutcome(now) =>
      if s.outcomes[0].Wake? {
        WakeKnows(m, s.outcomes[0].key, now, ids);
      }
    case _ =>
  }

  lemma InputKnows(m: TM.TM, status: Status, ids: set<nat>)
    requires m.coord.nextId !in m.hist.issued && Knows(m, ids)
    ensures Knows(TM.Step(m, TM.Input(status)), ids)
  {}

  lemma WakeKnows(m: TM.TM, key: Key, now: int, ids: set<nat>)
    requires m.coord.nextId !in m.hist.issued && Knows(m, ids) && TM.Enabled(m, TM.WakeUp(key, now))
    ensures Knows(TM.Step(m, TM.WakeUp(key, now)), ids)
  {}

  lemma CommandKnows(m: TM.TM, e: TM.Event, ids: set<nat>)
    requires m.coord.nextId !in m.hist.issued && Knows(m, ids) && e.Command?
    ensures Knows(TM.Step(m, e), ids + if UserAccepted(m.coord, e.key, e.action) then {m.coord.nextId} else {})
  {}

  lemma StepKnown(s: Sys, m: TM.TM, places: map<Key, Place>, a: Action, ids: set<nat>)
    returns (m': TM.TM, places': map<Key, Place>)
    requires Implements(s, m, places) && Pipeline.Enabled(s, a) && Pipeline.Admissible(a) && Knows(m, ids)
    ensures Implements(Pipeline.Step(s, a), m', places') && Knows(m', ids + NewIds(s, a))
  {
    places' := StepImplements(s, m, places, a);
    m' := After(m, Meaning(s, a));
    NextIsNew(m);
    StepKnows(s, m, a, ids);
  }

  lemma NextIsNew(m: TM.TM)
    requires TM.AllStamped(m)
    ensures m.coord.nextId !in m.hist.issued
  {}

  lemma {:induction false} RunKnows(s: Sys, m: TM.TM, places: map<Key, Place>, ids: set<nat>, actions: seq<Action>,
                                    s': Sys)
    returns (m': TM.TM, places': map<Key, Place>)
    requires Implements(s, m, places) && Pipeline.Runs(s, actions, s') && Knows(m, ids)
    ensures Implements(s', m', places') && Knows(m', UserIds(s, ids, actions))
    decreases |actions|
  {
    if actions == [] {
      m', places' := m, places;
    } else {
      var a := actions[0];
      var m1, places1 := StepKnown(s, m, places, a, ids);
      m', places' := RunKnows(Pipeline.Step(s, a), m1, places1, ids + NewIds(s, a), actions[1..], s');
    }
  }

  /** When an id that was allocated to a command goes out without the user flag, then as the confirmed
      entry of its key: it was published before, and a later command on top of it has failed. */
  lemma SecondDispatchIsRollback(hydrated: map<Key, Status>, actions: seq<Action>, s: Sys, job: Job, ok: bool, now: int,
                                 next: Job)
    requires TP.Hydration(hydrated) && Pipeline.Runs(Pipeline.Init(hydrated), actions, s)
    requires Pipeline.Enabled(s, TakeOutcome(now)) && s.outcomes[0] == (if ok then Committed(job) else Failed(job))
    requires next in EffectOf(s, TakeOutcome(now)).jobs && !next.userInitiated
    requires next.id in UserIds(Pipeline.Init(hydrated), {}, actions)
    ensures !ok && next.key in s.coord.confirmed && s.coord.confirmed[next.key] == Entry(next.status, next.id)
  {
    InitImplements(hydrated);
    var m, places := RunKnows(Pipeline.Init(hydrated), TM.Init(hydrated), map[], {}, actions, s);
    DropLinks(s, m, places, job, ok);
    SentIsToken(m, job, ok, next);
    Confirmations.SecondDispatch(m, job.key);
  }

  lemma SentIsToken(m: TM.TM, job: Job, ok: bool, next: Job)
    requires TM.InPhase(m, job.key, TM.Finished(ok)) && m.tokens[job.key].job == job
    requires next in (if ok then AfterSuccess(m.coord, job) else AfterFailure(m.coord, job)).jobs
    ensures next.key == job.key && job.key in TM.Settled(m, job.key).tokens
    ensures TM.Settled(m, job.key).tokens[job.key].job == next
  {}
}
