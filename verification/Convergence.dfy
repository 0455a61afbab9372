/** Once inputs and expiries stop, publishes succeed and wakes are accepted, the pipeline comes to rest.
    `Endings` says where. */
module Convergence {
  import opened Types
  import opened Coordinator
  import opened Messages
  import opened Snooze
  import opened Pipeline
  import opened Places
  import opened Refinement
  import opened PipelineTheorems
  import opened Intents
  import Workflow
  import PublishEngine
  import TM = TokenMachine
  import TP = TokenProofs

  /** The actions that remain when nothing comes in from outside and nothing goes wrong any more. */
  predicate Quiet(s: Sys, a: Action) {
    Pipeline.Enabled(s, a) &&
    match a
    case TakeInput(_) => false
    case TakeCommand(_, _, _, _, _) => false
    case Expire(_) => false
    case TakeSnooze(clock) => OnInput(s.timers, s.snoozes[0], clock).outcome.Accepted?
    case Finish(_, ok, _) => ok
    case _ => true
  }

  ghost predicate QuietRun(s: Sys, actions: seq<Action>, s': Sys)
    decreases |actions|
  {
    if actions == [] then s' == s
    else Quiet(s, actions[0]) && QuietRun(Pipeline.Step(s, actions[0]), actions[1..], s')
  }

  // ---- The measure ----

  /** The stages that the messages under way still have before them. */
  function QueueWeight(s: Sys): nat {
    10 * |s.jobs| + 9 * |s.snoozes| + 8 * |s.snoozeReplies| + 7 * |s.publishes|
    + 6 * |s.engine.inFlight| + 5 * |s.engine.completedBatch|
    + 3 * |Flatten(s.publishReplies)| + |s.publishReplies| + 2 * |s.hand| + |s.outcomes|
  }

  /** The keys whose latest intent is newer than their outstanding job. */
  function Stale(m: TM.TM): set<Key> {
    set k | k in m.tokens && k in m.coord.speculative && m.coord.speculative[k].id != m.tokens[k].job.id
  }

  /** The keys whose outstanding job has failed. */
  function Doomed(m: TM.TM): set<Key> {
    set k | k in m.tokens && m.tokens[k].phase == TM.Finished(false)
  }

  /** A full pass for each key that needs another one, and one for each wake under way. */
  function PassWeight(m: TM.TM): nat {
    11 * |Stale(m)| + 11 * |Doomed(m)| + 12 * |m.wakes|
  }

  function Measure(s: Sys, m: TM.TM): nat {
    QueueWeight(s) + PassWeight(m)
  }

  // ---- Passing on ----

  lemma TakeJobWeighs(s: Sys)
    requires Pipeline.Enabled(s, TakeJob)
    ensures QueueWeight(Pipeline.Step(s, TakeJob)) < QueueWeight(s)
  {
    TakeJobShape(s);
  }

  lemma TakeReplyWeighs(s: Sys, m: TM.TM, places: map<Key, Place>)
    requires Link(s, m, places) && Pipeline.Enabled(s, TakeSnoozeReply)
    ensures QueueWeight(Pipeline.Step(s, TakeSnoozeReply)) < QueueWeight(s)
  {
    match s.snoozeReplies[0]
    case Expired(key) => TakeExpiryShape(s, key);
    case Accepted(key) =>
      assert ContentsOf(s)[ReplyChannel][0] == Held(key, InReplies(true));
      Found(s, m, places, ReplyChannel, 0);
      TakeReplyShape(s, key);
    case InvalidWake(key) =>
      assert ContentsOf(s)[ReplyChannel][0] == Held(key, InReplies(false));
      Found(s, m, places, ReplyChannel, 0);
      TakeInvalidShape(s, key);
  }

  lemma TakePublishReplyWeighs(s: Sys)
    requires Pipeline.Enabled(s, TakePublishReply)
    ensures QueueWeight(Pipeline.Step(s, TakePublishReply)) < QueueWeight(s)
  {
    assert Flatten(s.publishReplies) == Items(s.publishReplies[0]) + Flatten(s.publishReplies[1..]);
  }

  lemma TakeResultWeighs(s: Sys, m: TM.TM, places: map<Key, Place>)
    requires Link(s, m, places) && Pipeline.Enabled(s, TakeResult)
    ensures QueueWeight(Pipeline.Step(s, TakeResult)) < QueueWeight(s)
  {
    assert ResultsUnderWay(s)[0] == s.hand[0];
    assert ContentsOf(s)[ResultChannel][0] == Held(s.hand[0].key, InResults(s.hand[0].ok));
    Found(s, m, places, ResultChannel, 0);
    TakeResultShape(s);
  }

  lemma FlattenPush(outcomes: seq<PublishOutcome>, o: PublishOutcome)
    ensures |Flatten(outcomes + [o])| == |Flatten(outcomes)| + |Items(o)|
  {
    FlattenAppend(outcomes, [o]);
    assert Flatten([o]) == Items(o);
  }

  lemma FlushWeighs(s: Sys)
    requires Pipeline.Enabled(s, Flush)
    ensures QueueWeight(Pipeline.Step(s, Flush)) < QueueWeight(s)
  {
    FlattenPush(s.publishReplies, PublishOutcome.Batch(s.engine.completedBatch));
  }

  lemma FinishWeighs(s: Sys, i: nat, appended: bool)
    requires Pipeline.Enabled(s, Finish(i, true, appended))
    ensures QueueWeight(Pipeline.Step(s, Finish(i, true, appended))) < QueueWeight(s)
  {
    var s1 := Finished(s, i, true, appended);
    var request := s.engine.inFlight[i].request;
    FinishShape(s, i, true, appended);
    if request.User? {
      FlattenPush(s.publishReplies, Single(PublishResult(request.details.key, true)));
    } else {
      FlattenPush(s1.publishReplies, PublishOutcome.Batch(s1.engine.completedBatch));
    }
  }

  lemma PassOnWeighs(s: Sys, m: TM.TM, places: map<Key, Place>, a: Action)
    requires Link(s, m, places) && Quiet(s, a) && !a.TakeOutcome?
    ensures QueueWeight(Pipeline.Step(s, a)) < QueueWeight(s)
  {
    match a
    case TakeJob => TakeJobWeighs(s);
    case TakeSnoozeReply => TakeReplyWeighs(s, m, places);
    case TakePublishReply => TakePublishReplyWeighs(s);
    case TakeResult => TakeResultWeighs(s, m, places);
    case Finish(i, ok, appended) => FinishWeighs(s, i, appended);
    case Flush => FlushWeighs(s);
    case TakeSnooze(clock) =>
    case TakePublish =>
  }

  /** A token machine step outside the coordinator that decides nothing against a job. */
  lemma PassOnKeepsWeight(s: Sys, m: TM.TM, places: map<Key, Place>, a: Action)
    requires Link(s, m, places) && Quiet(s, a) && !a.TakeOutcome?
    requires Meaning(s, a).Some? ==> TM.Enabled(m, Meaning(s, a).value)
    ensures PassWeight(After(m, Meaning(s, a))) == PassWeight(m)
    ensures After(m, Meaning(s, a)).coord == m.coord
  {
    var m' := After(m, Meaning(s, a));
    if a.TakeSnooze? {
      assert SnoozeMatches(m.tokens, s.snoozes[0]);
    }
    assert m'.tokens.Keys == m.tokens.Keys;
    assert Stale(m') == Stale(m);
    assert Doomed(m') == Doomed(m);
  }

  // ---- Settling ----

  lemma SubsetCount(a: set<Key>, b: set<Key>)
    requires a <= b
    ensures |a| <= |b|
  {
    assert b == a + (b - a);
  }

  lemma OneMore(a: set<Key>, b: set<Key>, k: Key)
    requires a <= b + {k}
    ensures |a| <= |b| + 1
  {
    SubsetCount(a, b + {k});
    assert b + {k} == b + ({k} - b);
  }

  lemma OneLess(a: set<Key>, b: set<Key>, k: Key)
    requires a <= b - {k} && k in b
    ensures |a| < |b|
  {
    SubsetCount(a, b - {k});
    assert b == (b - {k}) + {k};
  }

  lemma RestWeighs(m: TM.TM, m': TM.TM, key: Key)
    requires TM.InPhase(m, key, TM.Finished(true)) && TP.Resting(m, m', key, m.tokens[key].job)
    ensures PassWeight(m') <= PassWeight(m)
  {
    SubsetCount(Stale(m'), Stale(m));
    SubsetCount(Doomed(m'), Doomed(m));
  }

  /** A relaunch pays for the new pass with the reason it was needed. */
  lemma RelaunchWeighs(m: TM.TM, m': TM.TM, key: Key, ok: bool, e: Entry)
    requires TM.InPhase(m, key, TM.Finished(ok)) && key in m.coord.speculative
    requires TP.Relaunching(m, m', key, m.tokens[key].job, ok, e)
    requires ok ==> m.coord.speculative[key].id != m.tokens[key].job.id
    ensures PassWeight(m') + 11 <= PassWeight(m)
  {
    SubsetCount(Stale(m'), Stale(m));
    SubsetCount(Doomed(m'), Doomed(m));
    if ok {
      OneLess(Stale(m'), Stale(m), key);
    } else {
      OneLess(Doomed(m'), Doomed(m), key);
    }
  }

  lemma SettleWeighs(m: TM.TM, key: Key)
    requires TM.Inv(m) && TM.Enabled(m, TM.Settle(key))
    ensures var m' := TM.Settled(m, key);
            PassWeight(m') + (if key in m'.tokens then 11 else 0) <= PassWeight(m)
  {
    TP.JobFactsHold(m, key);
    if TM.InPhase(m, key, TM.Finished(false)) {
      TP.FailShape(m, key);
      RelaunchWeighs(m, TM.Settled(m, key), key, false, TP.NextEntry(m, key, false));
    } else if m.coord.speculative[key].id == m.tokens[key].job.id {
      TP.RestShape(m, key);
      RestWeighs(m, TM.Settled(m, key), key);
    } else {
      TP.RecommitShape(m, key);
      RelaunchWeighs(m, TM.Settled(m, key), key, true, m.coord.speculative[key]);
    }
  }

  lemma AcceptWeighs(m: TM.TM, m': TM.TM, key: Key, status: Status)
    requires TP.Accepting(m, m', key, status, false) && TM.OneToken(m)
    ensures |Stale(m')| <= |Stale(m)| + (if key in m.tokens then 1 else 0)
    ensures |Doomed(m')| <= |Doomed(m)|
  {
    OneMore(Stale(m'), Stale(m), key);
    if key !in m.tokens {
      SubsetCount(Stale(m'), Stale(m));
    }
    SubsetCount(Doomed(m'), Doomed(m));
  }

  /** Using up one wake, before anything is made of it. */
  lemma SpentWakeWeighs(m: TM.TM, key: Key)
    requires key in m.wakes
    ensures PassWeight(m.(wakes := m.wakes - multiset{key})) == PassWeight(m) - 12
  {
    var m1 := m.(wakes := m.wakes - multiset{key});
    assert |m1.wakes| == |m.wakes| - 1;
    assert Stale(m1) == Stale(m) && Doomed(m1) == Doomed(m);
  }

  lemma AcceptedWakeWeighs(m1: TM.TM, key: Key, status: Status)
    requires TM.OneToken(m1) && TM.AllStamped(m1) && TM.Flagged(m1)
    ensures var m' := TM.Accept(m1, key, status, None);
            key in m'.tokens && PassWeight(m') <= PassWeight(m1) + (if key in m1.tokens then 11 else 0)
  {
    TP.AcceptShape(m1, key, status, None);
    AcceptWeighs(m1, TM.Accept(m1, key, status, None), key, status);
  }

  lemma WakeWeighs(m: TM.TM, key: Key, now: int)
    requires TM.OneToken(m) && TM.AllOwned(m) && TM.AllStamped(m) && TM.Flagged(m)
    requires TM.Enabled(m, TM.WakeUp(key, now))
    ensures var m' := TM.Step(m, TM.WakeUp(key, now));
            PassWeight(m') + (if key in m.tokens || key !in m'.tokens then 1 else 12) <= PassWeight(m)
  {
    SpentWakeWeighs(m, key);
    if TM.AcceptsInput(m, WakeStatus(key, now)) {
      TP.WakeShape(m, key, now);
      AcceptedWakeWeighs(m.(wakes := m.wakes - multiset{key}), key, WakeStatus(key, now));
    }
  }

  lemma SettleQueues(s: Sys, m: TM.TM, places: map<Key, Place>, now: int, job: Job, ok: bool)
    requires Link(s, m, places) && Pipeline.Enabled(s, TakeOutcome(now))
    requires s.outcomes[0] == (if ok then Committed(job) else Failed(job))
    ensures TM.Enabled(m, TM.Settle(job.key))
    ensures QueueWeight(Pipeline.Step(s, TakeOutcome(now))) ==
            QueueWeight(s) - 1 + if job.key in TM.Settled(m, job.key).tokens then 10 else 0
  {
    DropLinks(s, m, places, job, ok);
    OutcomeQueues(s, now);
    SettleLaunches(m, job, ok);
  }

  lemma OutcomeQueues(s: Sys, now: int)
    requires Pipeline.Enabled(s, TakeOutcome(now))
    ensures QueueWeight(Pipeline.Step(s, TakeOutcome(now))) ==
            QueueWeight(s) - 1 + 10 * |AfterOutcome(s.coord, s.outcomes[0], now).jobs|
  {}

  /** A settled job is followed by one for its key, or none. */
  lemma SettleLaunches(m: TM.TM, job: Job, ok: bool)
    requires TM.InPhase(m, job.key, TM.Finished(ok)) && m.tokens[job.key].job == job
    ensures |(if ok then AfterSuccess(m.coord, job) else AfterFailure(m.coord, job)).jobs| ==
            if job.key in TM.Settled(m, job.key).tokens then 1 else 0
  {}

  lemma WakeQueues(s: Sys, m: TM.TM, places: map<Key, Place>, now: int, key: Key)
    requires Link(s, m, places) && TM.OneToken(m) && TM.AllOwned(m) && Pipeline.Enabled(s, TakeOutcome(now))
    requires s.outcomes[0] == Wake(key)
    ensures TM.Enabled(m, TM.WakeUp(key, now))
    ensures QueueWeight(Pipeline.Step(s, TakeOutcome(now))) ==
            QueueWeight(s) - 1
            + if key !in m.tokens && key in TM.Step(m, TM.WakeUp(key, now)).tokens then 10 else 0
  {
    TakeWakeContents(s, s.(outcomes := s.outcomes[1..]), key);
    TP.WakeShape(m, key, now);
    assert key in m.tokens.Keys <==> key in m.coord.speculative.Keys;
  }

  /** The action makes sense and lowers the measure. */
  predicate Lighter(s: Sys, m: TM.TM, a: Action)
    requires Pipeline.Enabled(s, a)
  {
    && (Meaning(s, a).Some? ==> TM.Enabled(m, Meaning(s, a).value))
    && Measure(Pipeline.Step(s, a), After(m, Meaning(s, a))) < Measure(s, m)
  }

  lemma SettleOutcomeWeighs(s: Sys, m: TM.TM, places: map<Key, Place>, now: int, job: Job, ok: bool)
    requires Implements(s, m, places) && Pipeline.Enabled(s, TakeOutcome(now))
    requires s.outcomes[0] == (if ok then Committed(job) else Failed(job))
    ensures Lighter(s, m, TakeOutcome(now))
  {
    SettleQueues(s, m, places, now, job, ok);
    SettleWeighs(m, job.key);
  }

  lemma TakeOutcomeWeighs(s: Sys, m: TM.TM, places: map<Key, Place>, now: int)
    requires Implements(s, m, places) && Pipeline.Enabled(s, TakeOutcome(now))
    ensures Lighter(s, m, TakeOutcome(now))
  {
    match s.outcomes[0]
    case Committed(job) => SettleOutcomeWeighs(s, m, places, now, job, true);
    case Failed(job) => SettleOutcomeWeighs(s, m, places, now, job, false);
    case Wake(key) => WakeOutcomeWeighs(s, m, places, now, key);
  }

  lemma WakeOutcomeWeighs(s: Sys, m: TM.TM, places: map<Key, Place>, now: int, key: Key)
    requires Implements(s, m, places) && Pipeline.Enabled(s, TakeOutcome(now)) && s.outcomes[0] == Wake(key)
    ensures Lighter(s, m, TakeOutcome(now))
  {
    WakeQueues(s, m, places, now, key);
    WakeWeighs(m, key, now);
  }

  /** Every quiet action brings the pipeline closer to rest. */
  lemma QuietDecreases(s: Sys, m: TM.TM, places: map<Key, Place>, a: Action) returns (places': map<Key, Place>)
    requires Implements(s, m, places) && Quiet(s, a)
    ensures Meaning(s, a).Some? ==> TM.Enabled(m, Meaning(s, a).value)
    ensures Implements(Pipeline.Step(s, a), After(m, Meaning(s, a)), places')
    ensures Measure(Pipeline.Step(s, a), After(m, Meaning(s, a))) < Measure(s, m)
  {
    places' := StepImplements(s, m, places, a);
    if a.TakeOutcome? {
      TakeOutcomeWeighs(s, m, places, a.now);
    } else {
      PassOnWeighs(s, m, places, a);
      PassOnKeepsWeight(s, m, places, a);
    }
  }

  lemma {:induction false} QuietRunBound(s: Sys, m: TM.TM, places: map<Key, Place>, actions: seq<Action>, s': Sys)
    requires Implements(s, m, places) && QuietRun(s, actions, s')
    ensures |actions| <= Measure(s, m)
    decreases |actions|
  {
    if actions != [] {
      var places' := QuietDecreases(s, m, places, actions[0]);
      QuietRunBound(Pipeline.Step(s, actions[0]), After(m, Meaning(s, actions[0])), places', actions[1..], s');
    }
  }

  /** From every reachable state there is a bound on the length of all quiet runs. */
  lemma QuietRunsEnd(hydrated: map<Key, Status>, s: Sys) returns (bound: nat)
    requires TP.Hydration(hydrated) && Pipeline.Reachable(hydrated, s)
    ensures forall actions, s' :: QuietRun(s, actions, s') ==> |actions| <= bound
  {
    var m, places := ReachableImplements(hydrated, s);
    bound := Measure(s, m);
    forall actions, s' | QuietRun(s, actions, s')
      ensures |actions| <= bound
    {
      QuietRunBound(s, m, places, actions, s');
    }
  }

  // ---- Where it comes to rest ----

  /** No quiet action is left. */
  ghost predicate Stuck(s: Sys) {
    forall a: Action :: !Quiet(s, a)
  }

  lemma {:induction false} RestFrom(s: Sys, m: TM.TM, places: map<Key, Place>) returns (actions: seq<Action>, s': Sys)
    requires Implements(s, m, places)
    ensures QuietRun(s, actions, s') && Stuck(s')
    decreases Measure(s, m)
  {
    if Stuck(s) {
      actions, s' := [], s;
    } else {
      var a :| Quiet(s, a);
      var places' := QuietDecreases(s, m, places, a);
      var rest;
      rest, s' := RestFrom(Pipeline.Step(s, a), After(m, Meaning(s, a)), places');
      actions := [a] + rest;
      assert actions[1..] == rest;
    }
  }

  /** From every reachable state some quiet run comes to rest. */
  lemma RestIsReached(hydrated: map<Key, Status>, s: Sys) returns (actions: seq<Action>, s': Sys)
    requires TP.Hydration(hydrated) && Pipeline.Reachable(hydrated, s)
    ensures QuietRun(s, actions, s') && Stuck(s')
  {
    var m, places := ReachableImplements(hydrated, s);
    actions, s' := RestFrom(s, m, places);
  }

  /** The wake times that the scheduler has yet to see can be represented as dates. */
  predicate WakesRepresentable(s: Sys) {
    forall i :: 0 <= i < |s.snoozes| && s.snoozes[i].wake.Some? ==>
                  MIN_UTC_SECONDS <= s.snoozes[i].wake.value.seconds <= MAX_UTC_SECONDS
  }

  /** Only rejected snoozes can be left. */
  lemma StuckIsDrained(s: Sys)
    requires Stuck(s) && !s.broken
    ensures s.jobs == [] && s.snoozeReplies == [] && s.publishes == []
    ensures s.engine.inFlight == [] && s.engine.completedBatch == [] && s.publishReplies == []
    ensures s.hand == [] && s.outcomes == []
  {
    assert !Quiet(s, TakeResult);
    assert !Quiet(s, TakeJob) && !Quiet(s, TakeSnoozeReply) && !Quiet(s, TakePublishReply);
    assert !Quiet(s, TakeOutcome(0)) && !Quiet(s, TakePublish) && !Quiet(s, Flush);
    assert !Quiet(s, Finish(0, true, true));
  }

  lemma StuckIsEmpty(s: Sys)
    requires Stuck(s) && WakesRepresentable(s) && !s.broken
    ensures s.jobs == [] && s.snoozes == [] && s.snoozeReplies == [] && s.publishes == []
    ensures s.engine.inFlight == [] && s.engine.completedBatch == [] && s.publishReplies == []
    ensures s.hand == [] && s.outcomes == []
  {
    StuckIsDrained(s);
    var utc := if s.snoozes != [] && s.snoozes[0].wake.Some?
               then s.snoozes[0].wake.value.seconds * NANOS_PER_SECOND else 0;
    assert !Quiet(s, TakeSnooze(Clock(utc, 0)));
  }

  /** At rest nothing is speculative, unless a snooze with an unrepresentable wake time, which is
      rejected whenever it is tried, is still queued; otherwise what is confirmed is the latest intent of
      every key. */
  lemma StuckIsSettled(hydrated: map<Key, Status>, s: Sys)
    requires TP.Hydration(hydrated) && Pipeline.Reachable(hydrated, s) && Stuck(s)
    ensures s.coord.speculative == map[] <==> WakesRepresentable(s)
    ensures WakesRepresentable(s) ==> s.coord.confirmed == IntentsOf(s.coord).view && WakesUnderWay(s) == multiset{}
  {
    NothingBreaks(hydrated, s);
    OccupancyIsSpeculative(hydrated, s);
    if WakesRepresentable(s) {
      StuckIsEmpty(s);
      EmptyTotal(s);
      assert s.coord.confirmed + map[] == s.coord.confirmed;
    } else {
      SnoozesCount(s);
    }
  }

  lemma SnoozesCount(s: Sys)
    requires s.snoozes != []
    ensures Total(ContentsOf(s)) > 0
  {
    assert |ContentsOf(s)[SnoozeChannel]| == |s.snoozes|;
  }

  lemma EmptyTotal(s: Sys)
    requires s.jobs == [] && s.snoozes == [] && s.snoozeReplies == [] && s.publishes == []
    requires s.engine.inFlight == [] && s.engine.completedBatch == [] && s.publishReplies == []
    requires s.hand == [] && s.outcomes == []
    ensures Total(ContentsOf(s)) == 0
  {}

  // ---- How many commits that takes ----

  predicate Commits(s: Sys, a: Action, k: Key)
    requires Pipeline.Enabled(s, a)
  {
    a.TakeOutcome? && s.outcomes[0].Committed? && s.outcomes[0].job.key == k
  }

  ghost function CommitCount(s: Sys, actions: seq<Action>, k: Key): nat
    decreases |actions|
  {
    if actions == [] || !Pipeline.Enabled(s, actions[0]) then 0
    else (if Commits(s, actions[0], k) then 1 else 0) + CommitCount(Pipeline.Step(s, actions[0]), actions[1..], k)
  }

  /** The commits a key may still need. */
  function CommitsLeft(m: TM.TM, k: Key): nat {
    (if k !in m.tokens then 0 else if k in Stale(m) then 2 else 1) + m.wakes[k]
  }

  lemma RestCommits(m: TM.TM, m': TM.TM, key: Key, k: Key)
    requires TM.InPhase(m, key, TM.Finished(true)) && TP.Resting(m, m', key, m.tokens[key].job)
    ensures CommitsLeft(m', k) + (if k == key then 1 else 0) <= CommitsLeft(m, k)
  {}

  lemma RelaunchCommits(m: TM.TM, m': TM.TM, key: Key, ok: bool, e: Entry, k: Key)
    requires TM.InPhase(m, key, TM.Finished(ok)) && key in m.coord.speculative
    requires TP.Relaunching(m, m', key, m.tokens[key].job, ok, e)
    requires ok ==> m.coord.speculative[key].id != m.tokens[key].job.id
    ensures CommitsLeft(m', k) + (if ok && k == key then 1 else 0) <= CommitsLeft(m, k)
  {}

  lemma SettleCommits(m: TM.TM, key: Key, k: Key, ok: bool)
    requires TM.Inv(m) && TM.InPhase(m, key, TM.Finished(ok))
    ensures CommitsLeft(TM.Settled(m, key), k) + (if ok && k == key then 1 else 0) <= CommitsLeft(m, k)
  {
    TP.JobFactsHold(m, key);
    if !ok {
      TP.FailShape(m, key);
      RelaunchCommits(m, TM.Settled(m, key), key, false, TP.NextEntry(m, key, false), k);
    } else if m.coord.speculative[key].id == m.tokens[key].job.id {
      TP.RestShape(m, key);
      RestCommits(m, TM.Settled(m, key), key, k);
    } else {
      TP.RecommitShape(m, key);
      RelaunchCommits(m, TM.Settled(m, key), key, true, m.coord.speculative[key], k);
    }
  }

  lemma AcceptCommits(m: TM.TM, m': TM.TM, key: Key, status: Status, k: Key)
    requires TP.Accepting(m, m', key, status, false) && m'.wakes == m.wakes && TM.OneToken(m)
    ensures CommitsLeft(m', k) <= CommitsLeft(m, k) + if k == key then 1 else 0
  {}

  lemma WakeCommits(m: TM.TM, key: Key, now: int, k: Key)
    requires TM.OneToken(m) && TM.AllOwned(m) && TM.AllStamped(m) && TM.Flagged(m)
    requires TM.Enabled(m, TM.WakeUp(key, now))
    ensures CommitsLeft(TM.Step(m, TM.WakeUp(key, now)), k) <= CommitsLeft(m, k)
  {
    SpentWakeCommits(m, key, k);
    if TM.AcceptsInput(m, WakeStatus(key, now)) {
      TP.WakeShape(m, key, now);
      AcceptedWakeCommits(m.(wakes := m.wakes - multiset{key}), key, WakeStatus(key, now), k);
    }
  }

  lemma SpentWakeCommits(m: TM.TM, key: Key, k: Key)
    requires key in m.wakes
    ensures CommitsLeft(m.(wakes := m.wakes - multiset{key}), k) == CommitsLeft(m, k) - if k == key then 1 else 0
  {
    assert Stale(m.(wakes := m.wakes - multiset{key})) == Stale(m);
  }

  lemma AcceptedWakeCommits(m1: TM.TM, key: Key, status: Status, k: Key)
    requires TM.OneToken(m1) && TM.AllStamped(m1) && TM.Flagged(m1)
    ensures CommitsLeft(TM.Accept(m1, key, status, None), k) <= CommitsLeft(m1, k) + if k == key then 1 else 0
  {
    TP.AcceptShape(m1, key, status, None);
    AcceptWakes(m1, key, status);
    AcceptCommits(m1, TM.Accept(m1, key, status, None), key, status, k);
  }

  lemma AcceptWakes(m: TM.TM, key: Key, status: Status)
    ensures TM.Accept(m, key, status, None).wakes == m.wakes
  {}

  lemma PassOnCommits(s: Sys, m: TM.TM, places: map<Key, Place>, a: Action, k: Key)
    requires Link(s, m, places) && Quiet(s, a) && !a.TakeOutcome?
    requires Meaning(s, a).Some? ==> TM.Enabled(m, Meaning(s, a).value)
    ensures CommitsLeft(After(m, Meaning(s, a)), k) == CommitsLeft(m, k)
  {}

  lemma SettleOutcomeCommits(s: Sys, m: TM.TM, places: map<Key, Place>, job: Job, ok: bool, k: Key)
    requires Implements(s, m, places) && s.outcomes != []
    requires s.outcomes[0] == (if ok then Committed(job) else Failed(job))
    ensures TM.Enabled(m, TM.Settle(job.key))
    ensures CommitsLeft(TM.Settled(m, job.key), k) + (if ok && k == job.key then 1 else 0) <= CommitsLeft(m, k)
  {
    DropLinks(s, m, places, job, ok);
    SettleCommits(m, job.key, k, ok);
  }

  lemma OutcomeCommits(s: Sys, m: TM.TM, places: map<Key, Place>, now: int, k: Key)
    requires Implements(s, m, places) && Pipeline.Enabled(s, TakeOutcome(now))
    requires TM.Enabled(m, Meaning(s, TakeOutcome(now)).value)
    ensures CommitsLeft(After(m, Meaning(s, TakeOutcome(now))), k)
            + (if Commits(s, TakeOutcome(now), k) then 1 else 0) <= CommitsLeft(m, k)
  {
    match s.outcomes[0]
    case Committed(job) => SettleOutcomeCommits(s, m, places, job, true, k);
    case Failed(job) => SettleOutcomeCommits(s, m, places, job, false, k);
    case Wake(key) => WakeCommits(m, key, now, k);
  }

  lemma {:induction false} CommitsOverRun(s: Sys, m: TM.TM, places: map<Key, Place>, actions: seq<Action>, s': Sys,
                                          k: Key)
    requires Implements(s, m, places) && QuietRun(s, actions, s')
    ensures CommitCount(s, actions, k) <= CommitsLeft(m, k)
    decreases |actions|
  {
    if actions != [] {
      var a := actions[0];
      var places' := QuietDecreases(s, m, places, a);
      if a.TakeOutcome? {
        OutcomeCommits(s, m, places, a.now, k);
      } else {
        PassOnCommits(s, m, places, a, k);
      }
      CommitsOverRun(Pipeline.Step(s, a), After(m, Meaning(s, a)), places', actions[1..], s', k);
    }
  }

  /** In a quiet run a key is committed at most twice, and once more for each of its wakes that was
      already under way; a key at rest with no wake under way is not committed at all. */
  lemma FewCommits(hydrated: map<Key, Status>, s: Sys, actions: seq<Action>, s': Sys, k: Key)
    requires TP.Hydration(hydrated) && Pipeline.Reachable(hydrated, s) && QuietRun(s, actions, s')
    ensures CommitCount(s, actions, k) <= (if AtRest(s, k) then 0 else 2) + WakesUnderWay(s)[k]
  {
    var m, places := ReachableImplements(hydrated, s);
    CommitsOverRun(s, m, places, actions, s', k);
    assert k in m.tokens.Keys <==> k in m.coord.speculative.Keys;
  }
}
